/**
 * The provenance-manifest flow of lib/c2pa-signer.js: building the unsigned
 * C2PA-style manifest, embedding it in a job artifact and signing the
 * artifact's JSON text, and verifying a signed artifact.
 *
 * The cryptographic library (SHA-256, RSA over PEM keys, base64) is not
 * modelled: its operations are the fields of a `Crypto` value that every
 * member takes as a parameter, and the one fact assumed of it, that a
 * signature made with a private key checks out under the public key derived
 * from it, is the predicate `Sound`, a hypothesis of the lemmas that use it.
 * The clock is a parameter too (the ISO timestamps).
 */
module C2paSigner {
  import opened JsValue
  import opened JsonText
  import opened JsNumber

  /** The operations of the crypto library, as seen by the signer. */
  datatype Crypto = Crypto(
    // the hex SHA-256 digest of a UTF-8 string
    sha256Hex: string -> string,
    // whether parsing a private key PEM succeeds
    privateKeyParses: string -> bool,
    // the message thrown when it does not
    pemError: string -> string,
    // sign the SHA-256 digest of the data with the private key, base64; None when signing throws
    rsaSign: (string, string) -> Option<string>,
    // PEM of the public key rebuilt from a parsed private key's modulus and exponent
    publicKeyOf: string -> string,
    // whether parsing a public key PEM succeeds
    keyParses: string -> bool,
    // decode the base64 signature and check it against the data's digest; None when either step throws
    rsaVerify: (string, string, string) -> Option<bool>
  )

  /** The correctness of the crypto library: what a private key signs, its public key accepts. */
  ghost predicate Sound(c: Crypto)
  {
    forall priv, data :: c.privateKeyParses(priv) && c.rsaSign(priv, data).Some? ==>
      c.keyParses(c.publicKeyOf(priv)) && c.rsaVerify(c.publicKeyOf(priv), data, c.rsaSign(priv, data).value) == Some(true)
  }

  /** The embedded public key parses: only a string can. */
  predicate KeyParses(c: Crypto, pem: Value)
  {
    pem.Str? && c.keyParses(pem.s)
  }

  const DemoPublicKey: string :=
    "-----BEGIN PUBLIC KEY-----\nMIIBIjANBgkqhkiG9w0BAQEFAAOCAQ8AMIIBCgKCAQEA7DemoPublicKeyForProofsyGPU\n-----END PUBLIC KEY-----"

  const DemoSignatureSuffix: string := "_demo_signature"

  // ---------------------------------------------------------------------------
  // The crypto helpers and their fallbacks

  function CalculateHash(c: Crypto, data: string): string
  {
    c.sha256Hex(data)
  }

  /**
   * A bad private key throws (outside the try); a key that parses but cannot
   * sign falls back to a hash of the data with a fixed suffix.
   */
  function CreateSignature(c: Crypto, data: string, privateKeyPem: string): (r: Outcome<string>)
    ensures r.Throw? <==> !c.privateKeyParses(privateKeyPem)
    ensures r.Ok? && c.rsaSign(privateKeyPem, data).Some? ==> r.value == c.rsaSign(privateKeyPem, data).value
    ensures r.Ok? && c.rsaSign(privateKeyPem, data).None? ==> r.value == c.sha256Hex(data + DemoSignatureSuffix)
  {
    if !c.privateKeyParses(privateKeyPem) then Throw(c.pemError(privateKeyPem))
    else match c.rsaSign(privateKeyPem, data)
      case Some(sig) => Ok(sig)
      case None => Ok(CalculateHash(c, data + DemoSignatureSuffix))
  }

  /** `signature.length > 20` as JavaScript evaluates it for each kind of value. */
  predicate LengthOver20(v: Value)
  {
    match v
    case Str(s) => |s| > 20
    case Arr(items) => |items| > 20
    case Obj(ms) => Above(Lookup(ms, "length"), 20)
    case _ => false
  }

  /** An object passes the length test exactly when its own `length` member converts to more than 20. */
  lemma LengthMember(v: Value)
    ensures DemoAccepts(Obj([Member("length", v)])) <==> Above(v, 20)
  {
    assert Lookup([Member("length", v)], "length") == v;
  }

  /**
   * An object whose `length` is the text of an integer, or a one-item array
   * of it, passes the length test exactly when the integer exceeds 20.
   */
  lemma NumericLengthText(n: int)
    ensures DemoAccepts(Obj([Member("length", Str(IntToString(n)))])) <==> n > 20
    ensures DemoAccepts(Obj([Member("length", Arr([Num(n)]))])) <==> n > 20
  {
    LengthMember(Str(IntToString(n)));
    LengthMember(Arr([Num(n)]));
    IntTextAbove(n, 20);
    assert JoinItems([Num(n)]) == IntToString(n);
  }

  /** The demo acceptance in the catch branch: `signature && signature.length > 20`. */
  predicate DemoAccepts(signature: Value)
  {
    Truthy(signature) && LengthOver20(signature)
  }

  /**
   * The result of the real check when no step throws; otherwise (the key does
   * not parse, the signature is not a string, decoding or checking throws) the
   * demo acceptance.
   */
  function VerifySignature(c: Crypto, data: string, signature: Value, publicKeyPem: Value): (ok: bool)
    ensures KeyParses(c, publicKeyPem) && signature.Str? && c.rsaVerify(publicKeyPem.s, data, signature.s).Some?
            ==> ok == c.rsaVerify(publicKeyPem.s, data, signature.s).value
    ensures KeyParses(c, publicKeyPem) && signature.Str? && c.rsaVerify(publicKeyPem.s, data, signature.s).None?
            ==> (ok <==> DemoAccepts(signature))
    ensures !KeyParses(c, publicKeyPem) ==> (ok <==> DemoAccepts(signature))
    ensures !signature.Str? ==> (ok <==> DemoAccepts(signature))
  {
    if KeyParses(c, publicKeyPem) && signature.Str? && c.rsaVerify(publicKeyPem.s, data, signature.s).Some? then
      c.rsaVerify(publicKeyPem.s, data, signature.s).value
    else
      DemoAccepts(signature)
  }

  function ExtractPublicKey(c: Crypto, privateKeyPem: string): (pem: string)
    ensures c.privateKeyParses(privateKeyPem) ==> pem == c.publicKeyOf(privateKeyPem)
    ensures !c.privateKeyParses(privateKeyPem) ==> pem == DemoPublicKey
  {
    if c.privateKeyParses(privateKeyPem) then c.publicKeyOf(privateKeyPem) else DemoPublicKey
  }

  // ---------------------------------------------------------------------------
  // Reading a manifest

  /** The assertion list of a manifest's members (empty when it is not an array). */
  function Assertions(manifest: seq<Member>): seq<Value>
  {
    var a := Lookup(manifest, "assertions");
    if a.Arr? then a.items else []
  }

  function Labels(assertions: seq<Value>): seq<Value>
  {
    seq(|assertions|, i requires 0 <= i < |assertions| => Prop(assertions[i], "label"))
  }

  /** The `data` member of assertion `i`. */
  function AssertionData(manifest: seq<Member>, i: nat): Value
  {
    if i < |Assertions(manifest)| then Prop(Assertions(manifest)[i], "data") else Undefined
  }

  // ---------------------------------------------------------------------------
  // Building and signing

  /** One labelled assertion. */
  function Assertion(name: string, data: seq<Member>): (a: Value)
    ensures Prop(a, "label") == Str(name) && Prop(a, "data") == Obj(data)
  {
    var ms := [Member("label", Str(name)), Member("data", Obj(data))];
    IndexOfAt(ms, "label", 0);
    IndexOfAt(ms, "data", 1);
    Obj(ms)
  }

  /** The data of the `gpu.job.provenance` assertion: facts copied from the job data. */
  function ProvenanceData(artifactData: seq<Member>): (d: seq<Member>)
    ensures Lookup(d, "jobId") == Lookup(artifactData, "jobId")
    ensures Lookup(d, "taskType") == Lookup(artifactData, "taskType")
    ensures Lookup(d, "executor") == Lookup(artifactData, "executor")
    ensures Lookup(d, "gpuType") == OptProp(Lookup(artifactData, "execution"), "gpuType")
    ensures Lookup(d, "occurredAt") == Lookup(artifactData, "executedAt")
    ensures Lookup(d, "systemVersion") == Str("1.0.0")
  {
    ProvenanceMembers(Lookup(artifactData, "jobId"), Lookup(artifactData, "taskType"), Lookup(artifactData, "executor"),
                      OptProp(Lookup(artifactData, "execution"), "gpuType"), Lookup(artifactData, "executedAt"))
  }

  /** The members of the provenance data, over any values. */
  function ProvenanceMembers(jobId: Value, taskType: Value, executor: Value, gpuType: Value, occurredAt: Value)
    : (d: seq<Member>)
    ensures Lookup(d, "jobId") == jobId && Lookup(d, "taskType") == taskType && Lookup(d, "executor") == executor
    ensures Lookup(d, "gpuType") == gpuType && Lookup(d, "occurredAt") == occurredAt
    ensures Lookup(d, "systemVersion") == Str("1.0.0")
  {
    var d := [
      Member("jobId", jobId),
      Member("taskType", taskType),
      Member("executor", executor),
      Member("gpuType", gpuType),
      Member("occurredAt", occurredAt),
      Member("systemVersion", Str("1.0.0"))];
    assert Lookup(d, "jobId") == d[0].val by { IndexOfAt(d, "jobId", 0); }
    assert Lookup(d, "taskType") == d[1].val by { IndexOfAt(d, "taskType", 1); }
    assert Lookup(d, "executor") == d[2].val by { IndexOfAt(d, "executor", 2); }
    assert Lookup(d, "gpuType") == d[3].val by { IndexOfAt(d, "gpuType", 3); }
    assert Lookup(d, "occurredAt") == d[4].val by { IndexOfAt(d, "occurredAt", 4); }
    assert Lookup(d, "systemVersion") == d[5].val by { IndexOfAt(d, "systemVersion", 5); }
    d
  }

  /** The data of the `blockchain.proof` assertion: the proof's references, unchanged, on a fixed chain. */
  function BlockchainProofData(blockchainProof: seq<Member>): (d: seq<Member>)
    ensures Lookup(d, "chain") == Str("numbers-mainnet")
    ensures Lookup(d, "submittedNid") == Lookup(blockchainProof, "submittedNid")
    ensures Lookup(d, "completedNid") == Lookup(blockchainProof, "completedNid")
    ensures Lookup(d, "explorerUrl") == Lookup(blockchainProof, "explorerUrl")
    ensures Lookup(d, "proofHash") == Lookup(blockchainProof, "proofHash")
  {
    var d := [
      Member("chain", Str("numbers-mainnet")),
      Member("submittedNid", Lookup(blockchainProof, "submittedNid")),
      Member("completedNid", Lookup(blockchainProof, "completedNid")),
      Member("explorerUrl", Lookup(blockchainProof, "explorerUrl")),
      Member("proofHash", Lookup(blockchainProof, "proofHash"))];
    assert Lookup(d, "chain") == d[0].val by { IndexOfAt(d, "chain", 0); }
    assert Lookup(d, "submittedNid") == d[1].val by { IndexOfAt(d, "submittedNid", 1); }
    assert Lookup(d, "completedNid") == d[2].val by { IndexOfAt(d, "completedNid", 2); }
    assert Lookup(d, "explorerUrl") == d[3].val by { IndexOfAt(d, "explorerUrl", 3); }
    assert Lookup(d, "proofHash") == d[4].val by { IndexOfAt(d, "proofHash", 4); }
    d
  }

  /** The data of the `content.integrity` assertion: a hash of the job data's JSON text. */
  function IntegrityData(c: Crypto, artifactData: seq<Member>, timestamp: string): (d: seq<Member>)
    ensures Lookup(d, "algorithm") == Str("sha256")
    ensures Lookup(d, "value") == Str(c.sha256Hex(Stringify(artifactData)))
    ensures Lookup(d, "timestamp") == Str(timestamp)
  {
    var d := [
      Member("algorithm", Str("sha256")),
      Member("value", Str(CalculateHash(c, Stringify(artifactData)))),
      Member("timestamp", Str(timestamp))];
    assert Lookup(d, "algorithm") == d[0].val by { IndexOfAt(d, "algorithm", 0); }
    assert Lookup(d, "value") == d[1].val by { IndexOfAt(d, "value", 1); }
    assert Lookup(d, "timestamp") == d[2].val by { IndexOfAt(d, "timestamp", 2); }
    d
  }

  /** The three assertions, in their fixed order, around their data. */
  function ManifestAssertions(provenance: seq<Member>, proof: seq<Member>, integrity: seq<Member>)
    : (a: seq<Value>)
    ensures Labels(a) == [Str("gpu.job.provenance"), Str("blockchain.proof"), Str("content.integrity")]
    ensures |a| == 3 && Prop(a[0], "data") == Obj(provenance)
    ensures Prop(a[1], "data") == Obj(proof) && Prop(a[2], "data") == Obj(integrity)
  {
    var a := [ Assertion("gpu.job.provenance", provenance),
               Assertion("blockchain.proof", proof),
               Assertion("content.integrity", integrity) ];
    assert Labels(a)[0] == Str("gpu.job.provenance");
    assert Labels(a)[1] == Str("blockchain.proof");
    assert Labels(a)[2] == Str("content.integrity");
    a
  }

  /** The manifest around a list of assertions, with a null signature as its last member. */
  function ManifestAround(assertions: seq<Value>): (m: seq<Member>)
    ensures Lookup(m, "version") == Str("1.0")
    ensures Lookup(m, "claim_generator") == Str("ProofsyGPU/1.0")
    ensures Lookup(m, "signature") == Null && IndexOf(m, "signature") == |m| - 1
    ensures Lookup(m, "assertions") == Arr(assertions)
  {
    var m := [
      Member("version", Str("1.0")),
      Member("claim_generator", Str("ProofsyGPU/1.0")),
      Member("assertions", Arr(assertions)),
      Member("signature", Null)];
    assert Lookup(m, "version") == m[0].val by { IndexOfAt(m, "version", 0); }
    assert Lookup(m, "claim_generator") == m[1].val by { IndexOfAt(m, "claim_generator", 1); }
    assert Lookup(m, "assertions") == m[2].val by { IndexOfAt(m, "assertions", 2); }
    assert Lookup(m, "signature") == m[3].val && IndexOf(m, "signature") == 3 by { IndexOfAt(m, "signature", 3); }
    m
  }

  /** The unsigned manifest: three assertions in a fixed order and a null signature. */
  function GenerateC2PAManifest(c: Crypto, artifactData: seq<Member>, blockchainProof: seq<Member>, timestamp: string)
    : (m: seq<Member>)
    ensures Lookup(m, "version") == Str("1.0")
    ensures Lookup(m, "claim_generator") == Str("ProofsyGPU/1.0")
    ensures Lookup(m, "signature") == Null && IndexOf(m, "signature") == |m| - 1
    ensures Lookup(m, "assertions").Arr?
    ensures Labels(Assertions(m)) == [Str("gpu.job.provenance"), Str("blockchain.proof"), Str("content.integrity")]
    ensures AssertionData(m, 0) == Obj(ProvenanceData(artifactData))
    ensures AssertionData(m, 1) == Obj(BlockchainProofData(blockchainProof))
    ensures AssertionData(m, 2) == Obj(IntegrityData(c, artifactData, timestamp))
  {
    ManifestAround(ManifestAssertions(
      ProvenanceData(artifactData), BlockchainProofData(blockchainProof), IntegrityData(c, artifactData, timestamp)))
  }

  /** The artifact before its signature is filled in: the job data with the manifest as `c2pa`. */
  function UnsignedArtifact(c: Crypto, artifactData: seq<Member>, blockchainProof: seq<Member>, timestamp: string)
    : seq<Member>
  {
    SetMember(artifactData, "c2pa", Obj(GenerateC2PAManifest(c, artifactData, blockchainProof, timestamp)))
  }

  /** The text that is signed: taken while the manifest still has `"signature": null`. */
  function SignedBytes(c: Crypto, artifactData: seq<Member>, blockchainProof: seq<Member>, timestamp: string)
    : string
  {
    Stringify(UnsignedArtifact(c, artifactData, blockchainProof, timestamp))
  }

  /** The signature record written into the manifest. */
  function SignatureRecord(value: string, publicKey: string, signedAt: string): (r: Value)
    ensures Prop(r, "algorithm") == Str("es256") && Prop(r, "value") == Str(value)
    ensures Prop(r, "publicKey") == Str(publicKey) && Prop(r, "signedAt") == Str(signedAt)
  {
    var ms := [ Member("algorithm", Str("es256")), Member("value", Str(value)),
                Member("publicKey", Str(publicKey)), Member("signedAt", Str(signedAt)) ];
    assert Lookup(ms, "algorithm") == ms[0].val by { IndexOfAt(ms, "algorithm", 0); }
    assert Lookup(ms, "value") == ms[1].val by { IndexOfAt(ms, "value", 1); }
    assert Lookup(ms, "publicKey") == ms[2].val by { IndexOfAt(ms, "publicKey", 2); }
    assert Lookup(ms, "signedAt") == ms[3].val by { IndexOfAt(ms, "signedAt", 3); }
    Obj(ms)
  }

  /** The `signature` member of an artifact's `c2pa` member. */
  function EmbeddedSignature(artifact: Value): Value
  {
    Prop(Prop(artifact, "c2pa"), "signature")
  }

  /**
   * Spread the job data, attach the manifest, serialise, sign, then write the
   * signature record into the manifest in place of its null.
   */
  function SignArtifactWithC2PA(c: Crypto, artifactData: seq<Member>, blockchainProof: seq<Member>,
                                privateKeyPem: string, integrityTime: string, signedAt: string)
    : (r: Outcome<Value>)
    ensures r.Throw? <==> !c.privateKeyParses(privateKeyPem)
    ensures r.Ok? ==> r.value.Obj?
    ensures r.Ok? ==> forall k :: k != "c2pa" ==> Prop(r.value, k) == Lookup(artifactData, k)
    ensures r.Ok? ==> EmbeddedSignature(r.value) == SignatureRecord(
              CreateSignature(c, SignedBytes(c, artifactData, blockchainProof, integrityTime), privateKeyPem).value,
              c.publicKeyOf(privateKeyPem), signedAt)
    ensures r.Ok? ==> forall k :: k != "signature" ==>
              Prop(Prop(r.value, "c2pa"), k) == Lookup(GenerateC2PAManifest(c, artifactData, blockchainProof, integrityTime), k)
  {
    var manifest := GenerateC2PAManifest(c, artifactData, blockchainProof, integrityTime);
    var bytes := Stringify(SetMember(artifactData, "c2pa", Obj(manifest)));
    match CreateSignature(c, bytes, privateKeyPem)
    case Throw(msg) => Throw(msg)
    case Ok(sig) =>
      var record := SignatureRecord(sig, ExtractPublicKey(c, privateKeyPem), signedAt);
      Ok(Obj(SetMember(artifactData, "c2pa", Obj(SetMember(manifest, "signature", record)))))
  }

  /** The integrity assertion hashes the job data alone: the ledger proof does not reach it. */
  lemma IntegrityIgnoresProof(c: Crypto, artifactData: seq<Member>, proof1: seq<Member>, proof2: seq<Member>,
                              timestamp: string)
    ensures AssertionData(GenerateC2PAManifest(c, artifactData, proof1, timestamp), 2)
         == AssertionData(GenerateC2PAManifest(c, artifactData, proof2, timestamp), 2)
  {
  }

  /**
   * Under a sound crypto library and a key that signs, the embedded signature checks out against
   * the text that was signed, the one with `"signature": null` in it.
   */
  lemma SignatureChecksOnSignedBytes(c: Crypto, artifactData: seq<Member>, blockchainProof: seq<Member>,
                                     privateKeyPem: string, integrityTime: string, signedAt: string)
    requires Sound(c)
    requires c.privateKeyParses(privateKeyPem)
    requires forall data :: c.rsaSign(privateKeyPem, data).Some?
    ensures var a := SignArtifactWithC2PA(c, artifactData, blockchainProof, privateKeyPem, integrityTime, signedAt);
            a.Ok? && VerifySignature(c, SignedBytes(c, artifactData, blockchainProof, integrityTime),
                                     Prop(EmbeddedSignature(a.value), "value"),
                                     Prop(EmbeddedSignature(a.value), "publicKey"))
  {
    var bytes := SignedBytes(c, artifactData, blockchainProof, integrityTime);
    var sig := c.rsaSign(privateKeyPem, bytes).value;
    assert CreateSignature(c, bytes, privateKeyPem) == Ok(sig);
    assert c.rsaVerify(c.publicKeyOf(privateKeyPem), bytes, sig) == Some(true);
  }

  /**
   * Replacing a manifest's trailing null signature by a record and then
   * deleting it again, inside an artifact, leaves a shorter text than the
   * artifact with the null signature.
   */
  lemma {:induction false} StripShortens(artifactData: seq<Member>, m: seq<Member>, record: Value)
    requires IndexOf(m, "signature") == |m| - 1 && Lookup(m, "signature") == Null
    ensures |Ser(StripSignature(Obj(SetMember(artifactData, "c2pa", Obj(SetMember(m, "signature", record))))))|
          < |Stringify(SetMember(artifactData, "c2pa", Obj(m)))|
  {
    StripSigned(artifactData, m, record);
    DropLastShortens(artifactData, m);
  }

  /** Deleting the signature that replaced the manifest's trailing null leaves the manifest without its last member. */
  lemma StripSigned(artifactData: seq<Member>, m: seq<Member>, record: Value)
    requires IndexOf(m, "signature") == |m| - 1 && Lookup(m, "signature") == Null
    ensures DeleteMember(SetMember(m, "signature", record), "signature") == m[..|m| - 1]
    ensures StripSignature(Obj(SetMember(artifactData, "c2pa", Obj(SetMember(m, "signature", record)))))
            == Obj(SetMember(artifactData, "c2pa", Obj(m[..|m| - 1])))
    ensures Prop(StripSignature(Obj(SetMember(artifactData, "c2pa", Obj(SetMember(m, "signature", record))))), "c2pa")
            == Obj(m[..|m| - 1])
  {
    var signedM := SetMember(m, "signature", record);
    var stripped := m[..|m| - 1];
    DeleteAfterSetLast(m, "signature", record);
    var a := Obj(SetMember(artifactData, "c2pa", Obj(signedM)));
    assert Prop(a, "c2pa") == Obj(signedM);
    assert StripSignature(a) == Obj(SetMember(a.members, "c2pa", Obj(stripped)));
    SetMemberTwice(artifactData, "c2pa", Obj(signedM), Obj(stripped));
  }

  /** Inside the artifact, a manifest without its trailing defined member has the shorter text. */
  lemma {:induction false} DropLastShortens(artifactData: seq<Member>, m: seq<Member>)
    requires |m| > 0 && !m[|m| - 1].val.Undefined?
    ensures |Stringify(SetMember(artifactData, "c2pa", Obj(m[..|m| - 1])))|
          < |Stringify(SetMember(artifactData, "c2pa", Obj(m)))|
  {
    var n := |m| - 1;
    var r0 := SetMember(artifactData, "c2pa", Obj(m));
    SetMemberTwice(artifactData, "c2pa", Obj(m), Obj(m[..n]));
    var i := IndexOf(r0, "c2pa");
    assert r0[i := Member(r0[i].key, Obj(m[..n]))] == SetMember(artifactData, "c2pa", Obj(m[..n]));
    SerMembersReplace(r0, i, Obj(m[..n]));
    assert m == m[..n] + [m[n]];
    SerMembersAppend(m[..n], m[n]);
  }

  /**
   * The text verification checks is never the text that was signed: the
   * verifier deletes the signature member where the signer serialised it as
   * null, so the verified text is strictly shorter.
   */
  lemma SignedBytesDiffer(c: Crypto, artifactData: seq<Member>, blockchainProof: seq<Member>,
                          privateKeyPem: string, integrityTime: string, signedAt: string)
    requires c.privateKeyParses(privateKeyPem)
    ensures var a := SignArtifactWithC2PA(c, artifactData, blockchainProof, privateKeyPem, integrityTime, signedAt).value;
            |VerifiedBytes(a)| < |SignedBytes(c, artifactData, blockchainProof, integrityTime)|
  {
    var m := GenerateC2PAManifest(c, artifactData, blockchainProof, integrityTime);
    var sig := CreateSignature(c, SignedBytes(c, artifactData, blockchainProof, integrityTime), privateKeyPem).value;
    StripShortens(artifactData, m, SignatureRecord(sig, c.publicKeyOf(privateKeyPem), signedAt));
  }

  // ---------------------------------------------------------------------------
  // Verifying

  /** The facts a successful verification reports. */
  datatype ManifestFacts = ManifestFacts(
    jobId: Value, taskType: Value, gpuType: Value,
    blockchainNid: Value, submittedNid: Value, explorerUrl: Value, signedAt: Value)

  datatype Verification = Invalid(error: string) | Valid(manifest: ManifestFacts)

  /** A verification's result together with the state it leaves the caller's artifact in. */
  datatype VerifyRun = VerifyRun(result: Verification, after: Value)

  const NoArtifact := "No artifact provided"
  const NoManifest := "No C2PA manifest found in artifact"
  const NoSignature := "No C2PA signature found"
  const InvalidSignature := "Invalid signature"
  const FindNotAFunction := "signedArtifact.c2pa.assertions?.find is not a function"

  /** The verifier's three early checks all pass: there is a truthy `c2pa` with a truthy `signature`. */
  predicate HasSignature(input: Value)
  {
    !Nullish(input) && Truthy(input) && Truthy(Prop(input, "c2pa")) && Truthy(EmbeddedSignature(input))
  }

  /**
   * `delete {...input}.c2pa.signature`: the copy is shallow, so the deletion
   * happens in the `c2pa` object the input shares.
   */
  function StripSignature(input: Value): (r: Value)
    ensures HasSignature(input) ==> r.Obj?
  {
    var c2pa := Prop(input, "c2pa");
    if input.Obj? && c2pa.Obj? then
      Obj(SetMember(input.members, "c2pa", Obj(DeleteMember(c2pa.members, "signature"))))
    else input
  }

  /** The text that is verified: the artifact serialised with its signature member deleted. */
  function VerifiedBytes(input: Value): string
  {
    Ser(StripSignature(input))
  }

  /**
   * How far `items.find(a => a.label === wanted)` gets: the first item that is
   * null or undefined (reading its label throws) or carries the label, or the
   * end of the list.
   */
  function FindStop(items: seq<Value>, wanted: string): (i: nat)
    ensures i <= |items|
    ensures forall j :: 0 <= j < i ==> !Nullish(items[j]) && Prop(items[j], "label") != Str(wanted)
    ensures i < |items| ==> Nullish(items[i]) || Prop(items[i], "label") == Str(wanted)
  {
    if items == [] then 0
    else if Nullish(items[0]) || Prop(items[0], "label") == Str(wanted) then 0
    else 1 + FindStop(items[1..], wanted)
  }

  /** `assertions?.find(a => a.label === "blockchain.proof")` */
  function FindProof(assertions: Value): Outcome<Value>
  {
    if Nullish(assertions) then Ok(Undefined)
    else if !assertions.Arr? then Throw(FindNotAFunction)
    else
      var i := FindStop(assertions.items, "blockchain.proof");
      if i == |assertions.items| then Ok(Undefined)
      else if Nullish(assertions.items[i]) then Throw(ReadError(assertions.items[i], "label"))
      else Ok(assertions.items[i])
  }

  /** The signature check and the projection, once the three early checks have passed. */
  function VerifySigned(c: Crypto, input: Value): (run: VerifyRun)
    requires HasSignature(input)
    ensures run.after == StripSignature(input)
    ensures run.result == Invalid(InvalidSignature) <==>
              !VerifySignature(c, VerifiedBytes(input), Prop(EmbeddedSignature(input), "value"),
                               Prop(EmbeddedSignature(input), "publicKey"))
    ensures VerifySignature(c, VerifiedBytes(input), Prop(EmbeddedSignature(input), "value"),
                            Prop(EmbeddedSignature(input), "publicKey")) &&
            FindProof(Prop(Prop(input, "c2pa"), "assertions")).Throw? ==>
              run.result == Invalid(FindProof(Prop(Prop(input, "c2pa"), "assertions")).message)
    ensures VerifySignature(c, VerifiedBytes(input), Prop(EmbeddedSignature(input), "value"),
                            Prop(EmbeddedSignature(input), "publicKey")) &&
            FindProof(Prop(Prop(input, "c2pa"), "assertions")).Ok? ==>
              run.result.Valid?
    ensures run.result.Valid? ==>
              FindProof(Prop(Prop(input, "c2pa"), "assertions")).Ok? &&
              var proof := OptProp(FindProof(Prop(Prop(input, "c2pa"), "assertions")).value, "data");
              run.result.manifest == ManifestFacts(
                Prop(input, "jobId"), Prop(input, "taskType"), OptProp(Prop(input, "execution"), "gpuType"),
                OptProp(proof, "completedNid"), OptProp(proof, "submittedNid"), OptProp(proof, "explorerUrl"),
                Prop(EmbeddedSignature(input), "signedAt"))
  {
    var signature := EmbeddedSignature(input);
    var copy := StripSignature(input);
    LookupDelete(Prop(input, "c2pa").members, "signature", "assertions");
    if !VerifySignature(c, Ser(copy), Prop(signature, "value"), Prop(signature, "publicKey")) then
      VerifyRun(Invalid(InvalidSignature), copy)
    else
      match FindProof(Prop(Prop(copy, "c2pa"), "assertions"))
      case Throw(msg) => VerifyRun(Invalid(msg), copy)
      case Ok(found) =>
        var proof := OptProp(found, "data");
        VerifyRun(Valid(ManifestFacts(
          Prop(input, "jobId"), Prop(input, "taskType"), OptProp(Prop(input, "execution"), "gpuType"),
          OptProp(proof, "completedNid"), OptProp(proof, "submittedNid"), OptProp(proof, "explorerUrl"),
          Prop(signature, "signedAt"))), copy)
  }

  /** verifyC2PASignature on the input's value: the result and the input's state afterwards. */
  function Verify(c: Crypto, input: Value): (run: VerifyRun)
    ensures Nullish(input) ==> run == VerifyRun(Invalid(ReadError(input, "c2pa")), input)
    ensures !Nullish(input) && !Truthy(input) ==> run == VerifyRun(Invalid(NoArtifact), input)
    ensures Truthy(input) && !Truthy(Prop(input, "c2pa")) ==> run == VerifyRun(Invalid(NoManifest), input)
    ensures Truthy(input) && Truthy(Prop(input, "c2pa")) && !Truthy(EmbeddedSignature(input))
            ==> run == VerifyRun(Invalid(NoSignature), input)
    ensures run.result.Valid? ==> HasSignature(input)
  {
    if Nullish(input) then VerifyRun(Invalid(ReadError(input, "c2pa")), input)
    else if !Truthy(input) then VerifyRun(Invalid(NoArtifact), input)
    else if !Truthy(Prop(input, "c2pa")) then VerifyRun(Invalid(NoManifest), input)
    else if !Truthy(EmbeddedSignature(input)) then VerifyRun(Invalid(NoSignature), input)
    else VerifySigned(c, input)
  }

  /** The caller's artifact object, whose `c2pa` member the verifier shares and mutates. */
  class ArtifactObject {
    var state: Value

    constructor (v: Value)
      ensures state == v
    {
      state := v;
    }
  }

  /** verifyC2PASignature as the source runs it, on the caller's object. */
  method VerifyC2PASignature(c: Crypto, artifact: ArtifactObject) returns (result: Verification)
    modifies artifact
    ensures VerifyRun(result, artifact.state) == Verify(c, old(artifact.state))
  {
    var input := artifact.state;
    if Nullish(input) {
      // reading `signedArtifact.c2pa` for the log line throws; the catch reports the TypeError
      return Invalid(ReadError(input, "c2pa"));
    }
    if !Truthy(input) {
      return Invalid(NoArtifact);
    }
    var c2pa := Prop(input, "c2pa");
    if !Truthy(c2pa) {
      return Invalid(NoManifest);
    }
    var signature := Prop(c2pa, "signature");
    if !Truthy(signature) {
      return Invalid(NoSignature);
    }
    // the shallow copy shares `c2pa`, so deleting through it changes the caller's object
    artifact.state := Obj(SetMember(input.members, "c2pa", Obj(DeleteMember(c2pa.members, "signature"))));
    var bytes := Ser(artifact.state);
    var isValid := VerifySignature(c, bytes, Prop(signature, "value"), Prop(signature, "publicKey"));
    if !isValid {
      return Invalid(InvalidSignature);
    }
    var found := FindProof(Prop(Prop(artifact.state, "c2pa"), "assertions"));
    if found.Throw? {
      return Invalid(found.message);
    }
    var proof := OptProp(found.value, "data");
    result := Valid(ManifestFacts(
      Prop(input, "jobId"), Prop(input, "taskType"), OptProp(Prop(input, "execution"), "gpuType"),
      OptProp(proof, "completedNid"), OptProp(proof, "submittedNid"), OptProp(proof, "explorerUrl"),
      Prop(signature, "signedAt")));
  }

  /** In a manifest whose assertions are labelled as generated, the proof found is the second assertion. */
  lemma FindProofInManifest(m: seq<Member>)
    requires Lookup(m, "assertions").Arr?
    requires Labels(Assertions(m)) == [Str("gpu.job.provenance"), Str("blockchain.proof"), Str("content.integrity")]
    ensures FindProof(Lookup(m, "assertions")) == Ok(Assertions(m)[1])
  {
    var items := Assertions(m);
    assert Labels(items)[0] == Str("gpu.job.provenance");
    assert Labels(items)[1] == Str("blockchain.proof");
    assert items[1..][0] == items[1];
    assert FindStop(items[1..], "blockchain.proof") == 0;
  }

  /**
   * Verifying an artifact whose manifest had its null signature replaced by a
   * record: no early check fails, the caller's artifact loses its signature,
   * and the only outcomes are "Invalid signature" or the projection of the
   * job data, the `blockchain.proof` data and the record's time.
   */
  lemma {:induction false} VerifyAfterSigning(c: Crypto, artifactData: seq<Member>, m: seq<Member>, record: Value)
    requires IndexOf(m, "signature") == |m| - 1 && Lookup(m, "signature") == Null
    requires Lookup(m, "assertions").Arr?
    requires Labels(Assertions(m)) == [Str("gpu.job.provenance"), Str("blockchain.proof"), Str("content.integrity")]
    requires record.Obj?
    ensures var a := Obj(SetMember(artifactData, "c2pa", Obj(SetMember(m, "signature", record))));
            var run := Verify(c, a);
            var proof := AssertionData(m, 1);
            && HasSignature(a) && EmbeddedSignature(a) == record
            && run.after == StripSignature(a)
            && EmbeddedSignature(run.after) == Undefined
            && (run.result.Valid? <==> VerifySignature(c, VerifiedBytes(a), Prop(record, "value"), Prop(record, "publicKey")))
            && (run.result.Invalid? ==> run.result.error == InvalidSignature)
            && (run.result.Valid? ==> run.result.manifest == ManifestFacts(
                 Lookup(artifactData, "jobId"), Lookup(artifactData, "taskType"),
                 OptProp(Lookup(artifactData, "execution"), "gpuType"),
                 OptProp(proof, "completedNid"), OptProp(proof, "submittedNid"), OptProp(proof, "explorerUrl"),
                 Prop(record, "signedAt")))
  {
    SignedArtifactParts(artifactData, m, record);
    StrippedArtifactParts(artifactData, m, record);
    FindProofInManifest(m);
  }

  /** The parts of a signed artifact the verifier reads before it deletes the signature. */
  lemma SignedArtifactParts(artifactData: seq<Member>, m: seq<Member>, record: Value)
    requires record.Obj?
    ensures var a := Obj(SetMember(artifactData, "c2pa", Obj(SetMember(m, "signature", record))));
            && HasSignature(a) && EmbeddedSignature(a) == record
            && Prop(a, "c2pa") == Obj(SetMember(m, "signature", record))
            && Prop(a, "jobId") == Lookup(artifactData, "jobId")
            && Prop(a, "taskType") == Lookup(artifactData, "taskType")
            && Prop(a, "execution") == Lookup(artifactData, "execution")
  {
  }

  /** A manifest without its trailing signature has no signature and the same assertions. */
  lemma TrailingSignatureGone(m: seq<Member>)
    requires IndexOf(m, "signature") == |m| - 1 && Lookup(m, "signature") == Null
    ensures Lookup(m[..|m| - 1], "signature") == Undefined
    ensures Lookup(m[..|m| - 1], "assertions") == Lookup(m, "assertions")
  {
    var n := |m| - 1;
    var stripped := m[..n];
    assert forall j :: 0 <= j < n ==> stripped[j] == m[j] && m[j].key != "signature";
    IndexOfAt(stripped, "signature", -1);
    var i := IndexOf(m, "assertions");
    assert i != n;
    IndexOfAt(stripped, "assertions", i);
  }

  /** What the verifier's deletion leaves of a signed artifact: the manifest without its signature. */
  lemma StrippedArtifactParts(artifactData: seq<Member>, m: seq<Member>, record: Value)
    requires IndexOf(m, "signature") == |m| - 1 && Lookup(m, "signature") == Null
    ensures var a := Obj(SetMember(artifactData, "c2pa", Obj(SetMember(m, "signature", record))));
            && Prop(StripSignature(a), "c2pa") == Obj(m[..|m| - 1])
            && EmbeddedSignature(StripSignature(a)) == Undefined
            && Lookup(m[..|m| - 1], "assertions") == Lookup(m, "assertions")
  {
    StripSigned(artifactData, m, record);
    TrailingSignatureGone(m);
  }

  /** The artifact signing returns: the manifest with its null signature replaced by a record. */
  lemma SignedArtifactIs(c: Crypto, artifactData: seq<Member>, blockchainProof: seq<Member>,
                         privateKeyPem: string, integrityTime: string, signedAt: string)
    returns (m: seq<Member>, record: Value)
    requires c.privateKeyParses(privateKeyPem)
    ensures m == GenerateC2PAManifest(c, artifactData, blockchainProof, integrityTime)
    ensures record.Obj? && Prop(record, "signedAt") == Str(signedAt)
    ensures SignArtifactWithC2PA(c, artifactData, blockchainProof, privateKeyPem, integrityTime, signedAt)
              == Ok(Obj(SetMember(artifactData, "c2pa", Obj(SetMember(m, "signature", record)))))
  {
    m := GenerateC2PAManifest(c, artifactData, blockchainProof, integrityTime);
    var sig := CreateSignature(c, SignedBytes(c, artifactData, blockchainProof, integrityTime), privateKeyPem).value;
    record := SignatureRecord(sig, c.publicKeyOf(privateKeyPem), signedAt);
  }

  /**
   * Verifying a freshly signed artifact: it passes the early checks, the
   * caller's artifact loses its signature, and the outcome is the signature
   * check on the verified text.
   */
  lemma VerifySignedArtifact(c: Crypto, artifactData: seq<Member>, blockchainProof: seq<Member>,
                             privateKeyPem: string, integrityTime: string, signedAt: string)
    requires c.privateKeyParses(privateKeyPem)
    ensures var a := SignArtifactWithC2PA(c, artifactData, blockchainProof, privateKeyPem, integrityTime, signedAt).value;
            var run := Verify(c, a);
            && EmbeddedSignature(run.after) == Undefined
            && (run.result.Valid? <==> VerifySignature(c, VerifiedBytes(a), Prop(EmbeddedSignature(a), "value"),
                                                       Prop(EmbeddedSignature(a), "publicKey")))
            && (run.result.Invalid? ==> run.result.error == InvalidSignature)
  {
    var m, record := SignedArtifactIs(c, artifactData, blockchainProof, privateKeyPem, integrityTime, signedAt);
    VerifyAfterSigning(c, artifactData, m, record);
  }

  /** The facts of `VerifyAfterSigning`, once the proof data is known to carry the given references. */
  lemma VerifyFactsFrom(c: Crypto, artifactData: seq<Member>, blockchainProof: seq<Member>, m: seq<Member>,
                        record: Value, signedAt: string)
    requires IndexOf(m, "signature") == |m| - 1 && Lookup(m, "signature") == Null
    requires Lookup(m, "assertions").Arr?
    requires Labels(Assertions(m)) == [Str("gpu.job.provenance"), Str("blockchain.proof"), Str("content.integrity")]
    requires record.Obj? && Prop(record, "signedAt") == Str(signedAt)
    requires OptProp(AssertionData(m, 1), "completedNid") == Lookup(blockchainProof, "completedNid")
    requires OptProp(AssertionData(m, 1), "submittedNid") == Lookup(blockchainProof, "submittedNid")
    requires OptProp(AssertionData(m, 1), "explorerUrl") == Lookup(blockchainProof, "explorerUrl")
    ensures var run := Verify(c, Obj(SetMember(artifactData, "c2pa", Obj(SetMember(m, "signature", record)))));
            run.result.Valid? ==> run.result.manifest == ManifestFacts(
              Lookup(artifactData, "jobId"), Lookup(artifactData, "taskType"),
              OptProp(Lookup(artifactData, "execution"), "gpuType"),
              Lookup(blockchainProof, "completedNid"), Lookup(blockchainProof, "submittedNid"),
              Lookup(blockchainProof, "explorerUrl"), Str(signedAt))
  {
    VerifyAfterSigning(c, artifactData, m, record);
  }

  /** A manifest around the three assertions has the shape `VerifyAfterSigning` asks for. */
  lemma ManifestShape(provenance: seq<Member>, proof: seq<Member>, integrity: seq<Member>) returns (m: seq<Member>)
    ensures m == ManifestAround(ManifestAssertions(provenance, proof, integrity))
    ensures IndexOf(m, "signature") == |m| - 1 && Lookup(m, "signature") == Null
    ensures Lookup(m, "assertions").Arr?
    ensures Labels(Assertions(m)) == [Str("gpu.job.provenance"), Str("blockchain.proof"), Str("content.integrity")]
    ensures AssertionData(m, 1) == Obj(proof)
  {
    var a := ManifestAssertions(provenance, proof, integrity);
    m := ManifestAround(a);
    assert Assertions(m) == a;
  }

  /** The proof data, read as an object, carries the proof's references. */
  lemma ProofDataRefs(blockchainProof: seq<Member>)
    ensures OptProp(Obj(BlockchainProofData(blockchainProof)), "completedNid") == Lookup(blockchainProof, "completedNid")
    ensures OptProp(Obj(BlockchainProofData(blockchainProof)), "submittedNid") == Lookup(blockchainProof, "submittedNid")
    ensures OptProp(Obj(BlockchainProofData(blockchainProof)), "explorerUrl") == Lookup(blockchainProof, "explorerUrl")
  {
  }

  /** The generated manifest has that shape, and its proof data carries the proof's references. */
  lemma GeneratedManifestShape(c: Crypto, artifactData: seq<Member>, blockchainProof: seq<Member>, timestamp: string,
                               m: seq<Member>)
    requires m == GenerateC2PAManifest(c, artifactData, blockchainProof, timestamp)
    ensures IndexOf(m, "signature") == |m| - 1 && Lookup(m, "signature") == Null
    ensures Lookup(m, "assertions").Arr?
    ensures Labels(Assertions(m)) == [Str("gpu.job.provenance"), Str("blockchain.proof"), Str("content.integrity")]
    ensures OptProp(AssertionData(m, 1), "completedNid") == Lookup(blockchainProof, "completedNid")
    ensures OptProp(AssertionData(m, 1), "submittedNid") == Lookup(blockchainProof, "submittedNid")
    ensures OptProp(AssertionData(m, 1), "explorerUrl") == Lookup(blockchainProof, "explorerUrl")
  {
    var d := BlockchainProofData(blockchainProof);
    var m' := ManifestShape(ProvenanceData(artifactData), d, IntegrityData(c, artifactData, timestamp));
    assert m' == m by {
      assert m == ManifestAround(ManifestAssertions(ProvenanceData(artifactData), d, IntegrityData(c, artifactData, timestamp)));
    }
    ProofDataRefs(blockchainProof);
  }

  /** A successful verification of a freshly signed artifact reports the signer's inputs. */
  lemma VerifySignedFacts(c: Crypto, artifactData: seq<Member>, blockchainProof: seq<Member>,
                          privateKeyPem: string, integrityTime: string, signedAt: string)
    requires c.privateKeyParses(privateKeyPem)
    ensures var a := SignArtifactWithC2PA(c, artifactData, blockchainProof, privateKeyPem, integrityTime, signedAt).value;
            var run := Verify(c, a);
            run.result.Valid? ==> run.result.manifest == ManifestFacts(
                 Lookup(artifactData, "jobId"), Lookup(artifactData, "taskType"),
                 OptProp(Lookup(artifactData, "execution"), "gpuType"),
                 Lookup(blockchainProof, "completedNid"), Lookup(blockchainProof, "submittedNid"),
                 Lookup(blockchainProof, "explorerUrl"), Str(signedAt))
  {
    var m, record := SignedArtifactIs(c, artifactData, blockchainProof, privateKeyPem, integrityTime, signedAt);
    GeneratedManifestShape(c, artifactData, blockchainProof, integrityTime, m);
    VerifyFactsFrom(c, artifactData, blockchainProof, m, record, signedAt);
  }
}
