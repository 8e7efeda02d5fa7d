# ProofsyGPU core, modelled in Dafny

ProofsyGPU simulates GPU compute jobs and records each job event on the
Numbers Protocol ledger. Each event goes to the ledger under an idempotency key
(`gpu-job-<jobId>-<eventType>`), and a receipt row is written to a database that
accepts each key once. Job artifacts can carry an embedded C2PA-style manifest
with a signature, and that signature can be checked later. This project models
the core of that system:

- `lib/c2pa-signer.js`: manifest generation, signing and verification (module
  `C2paSigner`). Hashing, RSA signing, RSA verification and PEM parsing are the
  function-valued fields of a `Crypto` record, so callers pass them in. The
  `Sound(c)` predicate is the one property of real signatures that the proofs
  use. The demo fallbacks the source uses when a key does not parse, or signing
  yields nothing, are modelled branch for branch. Verification deletes the
  embedded signature from the caller's object. It is therefore a class
  `ArtifactObject` whose method changes `state`, specified by the pure function
  `Verify`.
- `lib/numbers.js`: the idempotency key and the construction of a ledger
  receipt from the API reply (module `Numbers`). The HTTP reply is a parameter
  (`Reply`).
- `lib/gpu-simulator.js`: job ids, submission and completion records, and mock
  artifacts (module `GpuSimulator`). Random draws and the clock are parameters.
- `lib/db.js`: a receipt store that only creates rows (class `Db.ReceiptStore`,
  keyed by idempotency key), the timeline projection, and the grouping of all
  receipts into jobs (`Db.GetAllJobs`, a loop over a map, proved equal to the
  specification `Db.Grouping`).
- `api/jobs/submit.js` and `api/jobs/complete.js`: the two request handlers, as
  methods of class `Jobs.JobApi` (module `Jobs`). The class holds the store and
  a ghost `ledger`, which records every commit request that actually reaches the
  ledger API.

JavaScript values are the datatype `JsValue.Value`. Objects are ordered member
lists, and `JSON.stringify` is `JsonText.Stringify`. `JsValue` writes out
property reads, `||` and truthiness. It also writes out two `TypeError`s: the
one raised when a property of `null` or `undefined` is read, and the one raised
when an object with its own `toString` member is converted to a string or a
number (`JsValue.StringConvertible`). Module `JsNumber` converts a value to a
number for a comparison, including the reading of numeric text (decimal,
exponent, `Infinity`, `0x`/`0o`/`0b`).

The properties proved include the following:

- The idempotency key is injective in the job id and in the event type. The
  submit and complete keys of one job therefore never collide.
- The bytes that are signed are not the bytes that verification hashes. The
  verified bytes are strictly shorter, because the signing side serialises
  `signature: null` and the verifying side deletes the member.
- If the signature checks, verifying a freshly signed artifact reports exactly
  the job's own facts and the proof references that were passed in.
- In every branch, the handlers first write to the ledger and only then look
  for a duplicate key. A retried completion is therefore sent to the ledger a
  second time and then answered 409, while the stored row is kept.
- The store never overwrites a row.
- The grouping of receipts lists the jobs in order of first appearance, and
  every receipt appears exactly once.

## Model

| member | source | states |
|---|---|---|
| JsValue.Or | api/jobs/complete.js:20 | `a || b` is `a` when `a` is truthy and `b` otherwise |
| JsValue.SetMember | lib/c2pa-signer.js:51-54 | setting a key: the new key reads back, other keys are untouched, an existing key keeps its position, a new key is appended |
| JsValue.LookupDelete | lib/c2pa-signer.js:102 | deleting one key leaves every other key readable as before |
| JsValue.NatToStringInjective | lib/gpu-simulator.js:20 | the decimal rendering of a timestamp is injective |
| JsonText.SerMembersEmpty | lib/c2pa-signer.js:57 | an object serialises with no members exactly when every member is undefined |
| C2paSigner.CreateSignature | lib/c2pa-signer.js:146-158 | throws exactly when the key does not parse; otherwise the RSA signature, or the demo hash of the data when signing yields nothing |
| C2paSigner.VerifySignature | lib/c2pa-signer.js:160-172 | with a parsable key and a string signature, the RSA verdict when decoding and checking succeed; in every other case, including a parsable key with a string signature that fails to decode or check, the demo rule: any truthy signature longer than 20 is accepted |
| C2paSigner.ExtractPublicKey | lib/c2pa-signer.js:174-185 | the derived public key when the private key parses, the demo key otherwise |
| C2paSigner.Assertion | lib/c2pa-signer.js:10-38 | an assertion carries its label and its data object |
| C2paSigner.ProvenanceData | lib/c2pa-signer.js:10-20 | provenance copies jobId, taskType and executor, reads gpuType from `execution` with optional chaining, renames executedAt to occurredAt, and fixes systemVersion "1.0.0" |
| C2paSigner.BlockchainProofData | lib/c2pa-signer.js:21-30 | the proof assertion names chain "numbers-mainnet" and copies both NIDs, the explorer URL and the proof hash |
| C2paSigner.IntegrityData | lib/c2pa-signer.js:31-38 | the integrity value is the SHA-256 of the stringified artifact data, with algorithm "sha256" and the given timestamp |
| C2paSigner.ManifestAssertions | lib/c2pa-signer.js:8-39 | exactly three assertions, labelled provenance, proof and integrity in that order, each holding its data |
| C2paSigner.ManifestAround | lib/c2pa-signer.js:5-44 | version "1.0", claim_generator "ProofsyGPU/1.0", the assertions, and a null signature as the last member |
| C2paSigner.GenerateC2PAManifest | lib/c2pa-signer.js:5-44 | the manifest's fixed fields, its three labelled assertions with their data, and a trailing null signature |
| C2paSigner.SignatureRecord | lib/c2pa-signer.js:62-67 | the embedded record holds algorithm "es256", the signature value, the public key and the signing time |
| C2paSigner.SignArtifactWithC2PA | lib/c2pa-signer.js:46-70 | throws exactly when the key does not parse; otherwise every artifact field is kept, the manifest is embedded under c2pa, and its signature is the record over the manifest-with-null-signature bytes |
| C2paSigner.IntegrityIgnoresProof | lib/c2pa-signer.js:31-38 | the integrity assertion does not depend on the blockchain proof |
| C2paSigner.SignatureChecksOnSignedBytes | lib/c2pa-signer.js:57-67 | with a sound crypto and a key that parses and signs, the embedded signature verifies against the bytes that were signed |
| C2paSigner.StripSigned | lib/c2pa-signer.js:101-102 | the copy with the signature deleted is the signed artifact whose manifest lacks its last member |
| C2paSigner.StripShortens | lib/c2pa-signer.js:104 | the bytes verification hashes are strictly shorter than the bytes that were signed |
| C2paSigner.DropLastShortens | lib/c2pa-signer.js:57 | dropping a defined last manifest member strictly shortens the artifact's JSON |
| C2paSigner.SignedBytesDiffer | lib/c2pa-signer.js:57-104 | for every signed artifact, the verified bytes are strictly shorter than the signed bytes, so they differ |
| C2paSigner.StripSignature | lib/c2pa-signer.js:101-102 | stripping the signature of a signed artifact leaves an object |
| C2paSigner.FindStop | lib/c2pa-signer.js:115-117 | the search stops at the first nullish entry or the first entry with the wanted label, and passes over nothing else |
| C2paSigner.LengthMember | lib/c2pa-signer.js:170 | an object passes the length test exactly when its own `length` member, converted to a number as `>` converts it, exceeds 20 |
| C2paSigner.NumericLengthText | lib/c2pa-signer.js:170 | an object whose `length` is an integer's decimal text, or a one-item array holding the integer, passes exactly when the integer exceeds 20 |
| JsNumber.DigitsRoundTrip | lib/c2pa-signer.js:170 | the decimal text of a natural number is all digits and reads back as that number |
| JsNumber.IntTextNumber | lib/c2pa-signer.js:170 | converting an integer's decimal text to a number gives the integer back, sign included |
| JsNumber.IntTextAbove | lib/c2pa-signer.js:170 | comparing an integer's decimal text with a bound compares the integer itself |
| C2paSigner.VerifySigned | lib/c2pa-signer.js:101-133 | the artifact loses its signature; the result is "Invalid signature" exactly when the signature does not verify over the stripped bytes; when it verifies, the result is valid exactly when the assertion search does not throw, and otherwise is the search's error; a valid result reports the job fields and the proof assertion's references |
| C2paSigner.Verify | lib/c2pa-signer.js:72-138 | a null or undefined artifact is caught as a TypeError; a missing artifact, manifest or signature gives its error and leaves the artifact untouched; validity requires a signature |
| C2paSigner.ArtifactObject.VerifyC2PASignature | lib/c2pa-signer.js:72-138 | the result and the caller's object after the call are those of `Verify` on the object before it |
| C2paSigner.FindProofInManifest | lib/c2pa-signer.js:115-117 | in a generated manifest the search finds the blockchain proof assertion |
| C2paSigner.VerifyAfterSigning | lib/c2pa-signer.js:72-133 | on a signed artifact, verification deletes the signature; it is valid exactly when the signature verifies over the stripped bytes; a failure is always "Invalid signature"; validity reports the job fields and proof references |
| C2paSigner.SignedArtifactIs | lib/c2pa-signer.js:46-70 | a signed artifact is the input data with the generated manifest under c2pa, whose signature is an object holding the signing time |
| C2paSigner.VerifySignedArtifact | lib/c2pa-signer.js:46-138 | verifying what signing produced: the signature is deleted, validity is the signature check over the stripped bytes, failure is "Invalid signature" |
| C2paSigner.VerifySignedFacts | lib/c2pa-signer.js:46-133 | a valid verification of a signed artifact reports its jobId, taskType and gpuType, the NIDs and explorer URL that were signed, and the signing time |
| C2paSigner.GeneratedManifestShape | lib/c2pa-signer.js:5-44 | a generated manifest ends in a null signature, its assertions are labelled in order, and its proof assertion holds the given references |
| Numbers.GenerateIdempotencyKey | lib/numbers.js:74-77 | the key is "gpu-job-" followed by the job id, a dash and the event type; a job id that cannot be converted to a string throws the TypeError instead |
| Numbers.KeyJobPartOfKey | lib/numbers.js:74-77 | the job id part can be read back from every key that was formed |
| Numbers.KeyOfKeyJobPart | lib/numbers.js:74-77 | every key with a readable job part is the key of that job id |
| Numbers.KeyInjectiveInJob | lib/numbers.js:74-77 | equal keys for one event type mean equal job id text |
| Numbers.KeyInjectiveInEvent | lib/numbers.js:74-77 | equal keys for one job mean equal event types |
| Numbers.ExplorerBase | lib/numbers.js:3-8 | the explorer base is the environment value when it is set and non-empty, the default profile URL otherwise |
| Numbers.OrChain4 | lib/numbers.js:56 | a chain of `||` over four values yields the first truthy one, or the last value |
| Numbers.OrChain3 | lib/numbers.js:57 | a chain of `||` over three values yields the first truthy one, or the last value |
| Numbers.ReplyNid | lib/numbers.js:56 | the NID is the first truthy of assetCid, nid, cid and asset_id |
| Numbers.ReplyTxHash | lib/numbers.js:57-66 | the transaction hash is the first truthy of three reply fields, else "tx_<jobId>_<now>", whose conversion of the job id may throw the TypeError |
| Numbers.JobIdPlusNow | lib/numbers.js:62 | a string, array or object job id is converted and the time appended, and the conversion throws the TypeError for one that cannot be converted; any other job id is added as a number, which `Buffer.from` rejects with a message naming that number |
| Numbers.MockNid | lib/numbers.js:62 | a mock NID starts with "bafkrei" and has at most 44 more characters |
| Numbers.ValidNid | lib/numbers.js:62 | a truthy NID is kept; otherwise a mock NID is made, or the call throws where the source would throw; the result is truthy |
| Numbers.ReceiptFromResult | lib/numbers.js:51-71 | reading a null reply throws; a mock NID, transaction hash or explorer URL that cannot be formed throws its error; otherwise the receipt holds the chosen NID, the transaction hash, the explorer URL built from the NID, the hash and wallet fields, and the raw reply |
| Numbers.CommitJobReceipt | lib/numbers.js:10-72 | no API key, a job id the upload file name cannot convert, a network failure, a non-OK status and a bad JSON body each throw their message; success implies every check passed and the receipt is built from the reply |
| GpuSimulator.TaskIdsDistinct | lib/gpu-simulator.js:11-17 | the task type ids are distinct |
| GpuSimulator.PickGpu | lib/gpu-simulator.js:29 | a random draw always picks one of the five GPU types |
| GpuSimulator.GenerateJobId | lib/gpu-simulator.js:19-21 | a job id starts with "job_" and is bounded by the timestamp and a 9-character suffix |
| GpuSimulator.JobIdsDifferInTime | lib/gpu-simulator.js:19-21 | job ids generated at different milliseconds differ, whatever the random suffix |
| GpuSimulator.FindTaskIndex | lib/gpu-simulator.js:28 | the search returns the first task whose id equals the requested type, or the end |
| GpuSimulator.FindTask | lib/gpu-simulator.js:28 | a known task type is found; an unknown one falls back to the first task |
| GpuSimulator.ExecutorOrRandom | lib/gpu-simulator.js:35 | a truthy executor is kept; otherwise a random "0x" address is used |
| GpuSimulator.SimulateJobSubmission | lib/gpu-simulator.js:27-42 | the record carries the resolved task's id, name and duration, a listed GPU type, status "submitted", the given time, the job id generated from the clock and the draw, and the executor when truthy |
| GpuSimulator.SubmissionTaskKnown | lib/gpu-simulator.js:27-42 | every submission names a listed task; a non-string type becomes stable-diffusion; a listed type is kept |
| GpuSimulator.UtilizationPercent | lib/gpu-simulator.js:46 | the utilisation is between 70 and 94 percent |
| GpuSimulator.UtilizationText | lib/gpu-simulator.js:46 | the utilisation text is two digits from "70" to "94" followed by "%" |
| GpuSimulator.SimulateJobCompletion | lib/gpu-simulator.js:44-59 | an estimated duration that cannot be converted to a number throws the TypeError; otherwise the record keeps the job id, scales the estimated duration, reports the utilisation text, a listed GPU, exit code 0, status "completed" and the given time |
| GpuSimulator.ArtifactKindForEveryTask | lib/gpu-simulator.js:63-69 | every listed task type has an artifact kind |
| GpuSimulator.ArtifactKindFor | lib/gpu-simulator.js:62-70 | a task type that cannot be converted to a property key throws the TypeError; a listed type gets its own kind; a type naming an `Object.prototype` member finds that truthy member, which is no kind; any other type falls back to a 4096-byte JSON file |
| GpuSimulator.GenerateMockArtifact | lib/gpu-simulator.js:61-78 | a task type or job id that cannot be converted throws the TypeError; otherwise the file name is "<jobId>_output.<ext>" with the kind's mime type and size, and for a type naming an `Object.prototype` member it is "<jobId>_output.undefined" with mime type and size undefined; the hash is prefixed "sha256:" |
| GpuSimulator.ListedTaskArtifact | lib/gpu-simulator.js:61-78 | for every task type the simulator lists, the artifact is formed exactly when the job id converts, and then has a defined mime type and a positive size |
| Db.ReceiptStore.constructor | lib/db.js:7 | the store starts empty |
| Db.ReceiptStore.SaveJobReceipt | lib/db.js:11-15 | a fault changes nothing; an existing key is refused and changes nothing; a new key is stored with the next id; existing rows never change |
| Db.GetJobTimeline | lib/db.js:17-28 | one entry per receipt, in order, each with the profile URL of its NID |
| Db.Keys | lib/db.js:37-53 | the group keys are exactly the job ids of the receipts |
| Db.FirstIndex | lib/db.js:37-53 | the first receipt of a group is the earliest receipt with that key |
| Db.KeysSnoc | lib/db.js:37-53 | appending a receipt adds its key only if it is new, keeps first indices, and extends only its own group's events |
| Db.GroupOfSnoc | lib/db.js:38-52 | appending a receipt adds its event to an existing group or creates a new group from it, and leaves other groups alone |
| Db.AddRow | lib/db.js:38-52 | one loop step keeps the map and the key order equal to the grouping of the receipts seen so far |
| Db.GetAllJobs | lib/db.js:30-56 | when some job id names an `Object.prototype` member, the call throws the TypeError of reading `push` from undefined; otherwise the loop's result equals the specification grouping, one group per job id in order of first appearance |
| Db.KeysDistinct | lib/db.js:30-56 | no job is listed twice |
| Db.GroupingGroups | lib/db.js:30-56 | one group per job id; every receipt's job is listed; each group takes jobId, taskType and executor from its first receipt and holds all its events in order |
| Db.GroupsInFirstAppearanceOrder | lib/db.js:55 | groups are ordered by the first appearance of their job |
| Db.EventsOfAbsent | lib/db.js:37-53 | a job that has no receipt has no events |
| Db.EventCountSnoc | lib/db.js:37-53 | appending a receipt adds one event in total when its job is counted |
| Db.EveryReceiptOnce | lib/db.js:30-56 | the groups hold as many events as there are receipts, so every receipt appears exactly once |
| Jobs.SubmitAndCompleteKeysDiffer | api/jobs/submit.js:21 | for every job id that converts, its submit key differs from its complete key |
| Jobs.SubmitMetadata | api/jobs/submit.js:24-33 | the ledger metadata has status "submitted" and the job's id |
| Jobs.SubmitCommit | api/jobs/submit.js:21-44 | the commit is sent for "JobSubmitted" under the job's idempotency key |
| Jobs.SubmitRow | api/jobs/submit.js:61-75 | the stored row has the commit's key, event "JobSubmitted", the job id, the ledger's NID and transaction hash, and chain "numbers-mainnet" |
| Jobs.DurationBasis | api/jobs/complete.js:20 | the estimated duration from the request, or 60 when it is not truthy |
| Jobs.CompletionExecutor | api/jobs/complete.js:47 | the executor from the request, or "system" when it is not truthy |
| Jobs.ArtifactRecord | api/jobs/complete.js:34-39 | the artifact summary holds the file name, hash, size and mime type, the last two possibly undefined |
| Jobs.CompletionPrepared | api/jobs/complete.js:20-22 | the completion, its artifact and its key can all be formed exactly when the duration, the task type and the job id convert; otherwise one of the first two throws the TypeError |
| Jobs.CompleteMetadata | api/jobs/complete.js:25-40 | the ledger metadata has status "completed", the job id and the artifact summary |
| Jobs.CompleteCommit | api/jobs/complete.js:22-51 | once the request's values convert, the commit is sent for "JobCompleted" under the request's job id key, with the defaulted executor |
| Jobs.CompleteRow | api/jobs/complete.js:56-70 | the stored row has the commit's key and metadata, event "JobCompleted", the request's job id, the defaulted executor and the ledger's NID; its transaction hash is always undefined |
| Jobs.JobApi.constructor | lib/numbers.js:3-8 | a fresh API starts with an empty store and an empty ledger |
| Jobs.JobApi.Record | api/jobs/submit.js:36-85 | the ledger is written whenever the API key is set and the job id converts; a failed commit, a store fault or an existing key leaves the rows unchanged; a new key stores the row built from the receipt |
| Jobs.JobApi.Submit | api/jobs/submit.js:7-108 | 405, the destructuring error and 400 change nothing; past the checks the commit is sent before the duplicate check; a commit failure or a store fault is a 500, an existing key a 409, and otherwise the job and receipt are returned and the row is stored; rows are never overwritten |
| Jobs.JobApi.Complete | api/jobs/complete.js:7-104 | a duration, task type or job id that cannot be converted is a 500 with the TypeError, before anything reaches the ledger or the store; otherwise the same shape as submit under the completion key, with no check that the job was ever submitted; a new key returns the completion and the artifact and stores the completion row |
| Jobs.CompleteTwice | api/jobs/complete.js:43-79 | a repeated completion of one job reaches the ledger again but is answered 409, and the first completion's row is kept |

## Left out

- JSON whitespace: the two-space indentation that `lib/c2pa-signer.js` asks of `JSON.stringify` is modelled as compact JSON. Member order, omitted undefined members and string escaping follow JavaScript. The proofs use only the text's length, and deleting a member shortens the text in either layout.
- The node-forge internals (`generateKeyPair`, PEM formats, the RSA-SHA256 computation) are the abstract `Crypto` fields. Only the `Sound` property is assumed about them, and only in lemma hypotheses.
- C2paSigner.VerifySignature: whether node-forge throws is the `None` of `rsaVerify` and the `keyParses` field. A key that does not parse, a non-string signature, and a string signature that fails to decode or check all take the demo branch. The exact node-forge error is not modelled, because the catch discards it.
- C2paSigner.GenerateC2PAManifest: `artifactData` and `blockchainProof` are member lists. Manifest generation and signing for a non-object argument (C2paSigner.SignArtifactWithC2PA) are not modelled.
- C2paSigner.Verify: when a non-array `assertions` has no `find`, the model uses the TypeError text of V8. Inherited prototype members such as `toString` are not modelled.
- `fetch`, `FormData` and `Blob` in `lib/numbers.js` are the `Reply` parameter: a network failure, a non-OK status with its text, or a JSON body that parses or throws.
- Numbers.MockNid: the base64 encoding is a function parameter. Only the "bafkrei" prefix and the 44-character cut are modelled.
- Prisma: the schema's validation errors and connection errors are the `fault` parameter of `Db.ReceiptStore.SaveJobReceipt`. The row id is a counter. `orderBy`, `take: 50` and the query filters of the list and timeline routes are not modelled. The timeline is given its receipts already selected.
- Db.GetAllJobs: a row's metadata is kept as the value it was written from. The `JSON.stringify` and `JSON.parse` round trip through `metadataJson` would drop undefined members and turn undefined array items into null, but the model keeps them. Examples are an absent `taskType` in a completion, and the undefined artifact fields above.
- Db.GetJobTimeline: the same `metadataJson` round trip happens when the timeline reads its rows. The model keeps each entry's metadata as it was written.
- Db.GetAllJobs: JavaScript's `Object.values` lists integer-like keys first. The model keeps plain insertion order.
- JsValue.Value: numbers are integers. Fractional numbers, NaN and infinities cannot be represented, and neither can the number text of `JSON.stringify` and `String` for them (fractions, exponent form from 1e21, `null` for NaN). In this core they arise from client-supplied artifacts and from the floating-point duration.
- C2paSigner.LengthOver20: `signature.length` counts UTF-16 code units, while the model counts characters. A string with characters outside the Basic Multilingual Plane is therefore shorter in the model than in JavaScript. A non-number `length` is converted as `>` converts it (`JsNumber.Above`), but a numeric text is compared exactly, while JavaScript first rounds it to a double, so a text such as "20.0000000000000000001" passes in the model and fails in JavaScript. A `length` that cannot be converted to a primitive (`JsValue.StringConvertible`: an object with an own `toString` member, or an array holding one) makes JavaScript throw out of the catch branch, while the model treats it as NaN.
- Numbers.JobIdPlusNow: the number named in the `Buffer.from` message is written as a decimal integer. This agrees with Node for the integer sums the model can form, but not for fractional job ids.
- GpuSimulator.SimulateJobCompletion: the duration arithmetic and its rounding are floating point. They are the `scaleDuration` parameter, so the model does not state how the duration is computed.
- The `taskType` parameter of `simulateJobCompletion` is unused in the source, so the model does not take it.
- `getTaskTypes` in `lib/gpu-simulator.js` only returns the constant table, which the model uses directly.
- Console logging, `Date` formatting (the ISO time strings are parameters) and `Math.random` (the draws are parameters) are not modelled.
- Jobs.JobApi.Submit: a store error that is not a duplicate key is rethrown to the outer catch. The model reports it as the 500 response with the error's message.
- The handlers' `res.status(...).json(...)` plumbing is the `Response` datatype.
- C2paSigner.Verify: the constant `tampered: false` member of a valid result is not carried. `Valid` holds only the manifest facts, and a valid result always has `tampered: false`.
- api/artifacts/verify-c2pa.js, api/artifacts/download/[jobId].js, api/jobs/list.js, api/jobs/timeline/[jobId].js, api/health.js and public/app.js are not part of this model. Their logic beyond calling the modelled functions is routing and rendering.
