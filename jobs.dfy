/**
 * The two job handlers, api/jobs/submit.js and api/jobs/complete.js, over a
 * shared receipt store. Each handler validates the request, simulates the
 * job event, commits it to the Numbers ledger and only then inserts the
 * receipt into the store, which is unique on the idempotency key: a
 * duplicate is answered with 409 after the ledger has already been written
 * to. The ledger is a ghost log of the requests sent to it; what it answers
 * is a parameter, as are the clocks, the random draws and the store's
 * failures other than the duplicate key.
 */
module Jobs {
  import opened JsValue
  import opened Numbers
  import opened GpuSimulator
  import opened Db

  /** An HTTP request: its verb and its parsed body. */
  datatype Request = Request(verb: string, body: Value)

  /** The fields of a stored receipt the response repeats. */
  datatype ReceiptRef = ReceiptRef(id: nat, nid: Value, txHash: Value, explorerUrl: string)

  /** A handler's reply: status 405, 400, 409 and 500, and the two 200 bodies. */
  datatype Response =
    | MethodNotAllowed
    | BadRequest(error: string)
    | Duplicate(message: string, idempotencyKey: string)
    | ServerError(error: string, details: string)
    | Submitted(jobId: string, receipt: ReceiptRef, jobData: Submission)
    | Completed(completedJobId: Value, receipt: ReceiptRef, completion: Completion, artifact: MockArtifact)

  const SubmittedEvent: string := "JobSubmitted"
  const CompletedEvent: string := "JobCompleted"
  const Chain: string := "numbers-mainnet"

  /** The TypeError of `const { prop, ... } = req.body` on a null or undefined body. */
  function DestructureError(body: Value, prop: string): string
  {
    "Cannot destructure property '" + prop + "' of 'req.body' as it is " + (if body.Null? then "null" else "undefined") + "."
  }

  /** The two event keys of one job differ, so completing a job never collides with submitting it. */
  lemma SubmitAndCompleteKeysDiffer(jobId: Value)
    ensures StringConvertible(jobId) ==>
              GenerateIdempotencyKey(jobId, SubmittedEvent) != GenerateIdempotencyKey(jobId, CompletedEvent)
  {
    if StringConvertible(jobId) && GenerateIdempotencyKey(jobId, SubmittedEvent) == GenerateIdempotencyKey(jobId, CompletedEvent) {
      KeyInjectiveInEvent(jobId, SubmittedEvent, CompletedEvent);
    }
  }

  // ---------------------------------------------------------------------------
  // What one submission computes before it touches the ledger and the store

  /** The clocks, random draws, ledger reply and store failure one submission meets. */
  datatype SubmitWorld = SubmitWorld(
    nowMs: nat,              // Date.now() in generateJobId
    isoNow: string,          // new Date().toISOString() for submittedAt
    draws: SubmissionDraws,
    reply: Reply,            // what the ledger answers
    nowForNid: int,          // the two Date.now() readings of commitJobReceipt
    nowForTx: int,
    nowForMetadata: nat,     // Date.now() for assetTimestampCreated
    fault: Option<string>)   // a store failure other than the duplicate key

  function SubmitJob(req: Request, w: SubmitWorld): Submission
    requires ValidDraw(w.draws.gpu)
  {
    SimulateJobSubmission(Prop(req.body, "taskType"), Prop(req.body, "executor"), w.nowMs, w.isoNow, w.draws)
  }

  /** The metadata sent to the ledger for a submission. */
  function SubmitMetadata(job: Submission): (m: Value)
    ensures m.Obj? && Lookup(m.members, "status") == Str("submitted")
    ensures Lookup(m.members, "jobId") == Str(job.jobId)
  {
    var ms := [
      Member("jobId", Str(job.jobId)),
      Member("taskType", Str(job.taskType)),
      Member("taskName", Str(job.taskName)),
      Member("gpuType", Str(job.gpuType)),
      Member("estimatedDuration", Num(job.estimatedDuration)),
      Member("inputHash", Str(job.inputHash)),
      Member("executor", job.executor),
      Member("status", Str("submitted"))];
    assert Lookup(ms, "jobId") == ms[0].val by { IndexOfAt(ms, "jobId", 0); }
    assert Lookup(ms, "status") == ms[7].val by { IndexOfAt(ms, "status", 7); }
    Obj(ms)
  }

  /** The request a submission sends to the ledger. */
  function SubmitCommit(req: Request, w: SubmitWorld): (c: CommitRequest)
    requires ValidDraw(w.draws.gpu)
    ensures c.eventType == SubmittedEvent
    ensures Ok(c.idempotencyKey) == GenerateIdempotencyKey(Str(SubmitJob(req, w).jobId), SubmittedEvent)
  {
    var job := SubmitJob(req, w);
    CommitRequest(SubmittedEvent, Str(job.jobId), Str(job.taskType), job.executor, Str(job.submittedAt),
                  SubmitMetadata(job), GenerateIdempotencyKey(Str(job.jobId), SubmittedEvent).value)
  }

  /** The job metadata merged with the ledger's metadata, as stored with a submission. */
  function StoredSubmitMetadata(metadata: Value, receipt: LedgerReceipt, nowMs: nat): Value
    requires metadata.Obj?
  {
    Obj(metadata.members + [
      Member("assetCid", receipt.nid),
      Member("assetSha256", receipt.assetSha256),
      Member("creatorWallet", receipt.creatorWallet),
      Member("encodingFormat", Str("application/json")),
      Member("assetTimestampCreated", Num(nowMs / 1000)),
      Member("assetCreator", Str("proofsy-gpu-system")),
      Member("assetSourceType", Str("gpu-compute-job"))])
  }

  /** The row a submission inserts once the ledger has answered. */
  function SubmitRow(req: Request, w: SubmitWorld, receipt: LedgerReceipt): (r: Receipt)
    requires ValidDraw(w.draws.gpu)
    ensures r.idempotencyKey == SubmitCommit(req, w).idempotencyKey && r.eventType == SubmittedEvent
    ensures r.jobId == Str(SubmitJob(req, w).jobId)
    ensures r.nid == receipt.nid && r.txHash == receipt.txHash && r.chain == Chain
  {
    var job := SubmitJob(req, w);
    var c := SubmitCommit(req, w);
    Receipt(c.idempotencyKey, Str(job.jobId), SubmittedEvent, Str(job.taskType), job.executor, job.submittedAt,
            StoredSubmitMetadata(c.metadata, receipt, w.nowForMetadata), receipt.txHash, receipt.nid, Chain,
            [Member("inputHash", Str(job.inputHash)), Member("gpuType", Str(job.gpuType))])
  }

  // ---------------------------------------------------------------------------
  // What one completion computes before it touches the ledger and the store

  /** The clocks, random draws, ledger reply and store failure one completion meets. */
  datatype CompleteWorld = CompleteWorld(
    isoNow: string,          // new Date().toISOString() for completedAt
    draws: CompletionDraws,
    hashText: string,        // Math.random().toString(16) for the artifact's hash
    reply: Reply,
    nowForNid: int,
    nowForTx: int,
    fault: Option<string>)

  /** `estimatedDuration || 60` */
  function DurationBasis(req: Request): (d: Value)
    ensures Truthy(Prop(req.body, "estimatedDuration")) ==> d == Prop(req.body, "estimatedDuration")
    ensures !Truthy(Prop(req.body, "estimatedDuration")) ==> d == Num(60)
  {
    Or(Prop(req.body, "estimatedDuration"), Num(60))
  }

  /** `executor || 'system'` */
  function CompletionExecutor(req: Request): (e: Value)
    ensures Truthy(Prop(req.body, "executor")) ==> e == Prop(req.body, "executor")
    ensures !Truthy(Prop(req.body, "executor")) ==> e == Str("system")
  {
    Or(Prop(req.body, "executor"), Str("system"))
  }

  /** The simulated completion, its duration scaled from `estimatedDuration || 60`. */
  function CompleteJob(req: Request, w: CompleteWorld, scaleDuration: (Value, real) -> Value): Outcome<Completion>
    requires ValidDraw(w.draws.utilization) && ValidDraw(w.draws.gpu)
  {
    SimulateJobCompletion(Prop(req.body, "jobId"), DurationBasis(req), w.isoNow, w.draws, scaleDuration)
  }

  function CompleteArtifact(req: Request, w: CompleteWorld): Outcome<MockArtifact>
  {
    GenerateMockArtifact(Prop(req.body, "jobId"), Prop(req.body, "taskType"), w.hashText)
  }

  /**
   * Whether the values a completion converts before it reaches the ledger can
   * be converted: `estimatedDuration || 60` to a number, the task type to a
   * property key and the job id to a string.
   */
  predicate CompletionConvertible(req: Request)
  {
    && StringConvertible(DurationBasis(req))
    && StringConvertible(Prop(req.body, "taskType"))
    && StringConvertible(Prop(req.body, "jobId"))
  }

  /** The completion, its artifact and its key can all be formed exactly when the request's values convert. */
  lemma CompletionPrepared(req: Request, w: CompleteWorld, scaleDuration: (Value, real) -> Value)
    requires ValidDraw(w.draws.utilization) && ValidDraw(w.draws.gpu)
    ensures CompleteJob(req, w, scaleDuration).Ok? && CompleteArtifact(req, w).Ok?
            && GenerateIdempotencyKey(Prop(req.body, "jobId"), CompletedEvent).Ok?
            <==> CompletionConvertible(req)
    ensures !CompletionConvertible(req) ==>
              (CompleteJob(req, w, scaleDuration).Throw? && CompleteJob(req, w, scaleDuration).message == ToPrimitiveError)
              || (CompleteArtifact(req, w).Throw? && CompleteArtifact(req, w).message == ToPrimitiveError)
  {
  }

  /** The artifact part of a completion's metadata. */
  function ArtifactRecord(a: MockArtifact): (v: Value)
    ensures v.Obj? && Lookup(v.members, "fileName") == Str(a.fileName) && Lookup(v.members, "fileHash") == Str(a.fileHash)
    ensures Lookup(v.members, "fileSize") == a.fileSize && Lookup(v.members, "mimeType") == a.mimeType
  {
    var ms := [
      Member("fileName", Str(a.fileName)),
      Member("fileHash", Str(a.fileHash)),
      Member("fileSize", a.fileSize),
      Member("mimeType", a.mimeType)];
    assert Lookup(ms, "fileName") == ms[0].val by { IndexOfAt(ms, "fileName", 0); }
    assert Lookup(ms, "fileHash") == ms[1].val by { IndexOfAt(ms, "fileHash", 1); }
    assert Lookup(ms, "fileSize") == ms[2].val by { IndexOfAt(ms, "fileSize", 2); }
    assert Lookup(ms, "mimeType") == ms[3].val by { IndexOfAt(ms, "mimeType", 3); }
    Obj(ms)
  }

  /** The members of a completion's metadata, over any values. */
  function CompletionMembers(jobId: Value, taskType: Value, outputHash: Value, outputCid: Value, duration: Value,
                             gpuUtilization: Value, exitCode: Value, artifact: Value): (ms: seq<Member>)
    ensures Lookup(ms, "jobId") == jobId && Lookup(ms, "status") == Str("completed") && Lookup(ms, "artifact") == artifact
  {
    var ms := [
      Member("jobId", jobId),
      Member("taskType", taskType),
      Member("outputHash", outputHash),
      Member("outputCid", outputCid),
      Member("duration", duration),
      Member("gpuUtilization", gpuUtilization),
      Member("exitCode", exitCode),
      Member("status", Str("completed")),
      Member("artifact", artifact)];
    assert Lookup(ms, "jobId") == ms[0].val by { IndexOfAt(ms, "jobId", 0); }
    assert Lookup(ms, "status") == ms[7].val by { IndexOfAt(ms, "status", 7); }
    assert Lookup(ms, "artifact") == ms[8].val by { IndexOfAt(ms, "artifact", 8); }
    ms
  }

  /** The metadata of a completion: marked completed, with the artifact's record. */
  function CompleteMetadata(jobId: Value, taskType: Value, c: Completion, a: MockArtifact): (m: Value)
    ensures m.Obj? && Lookup(m.members, "status") == Str("completed")
    ensures Lookup(m.members, "artifact") == ArtifactRecord(a)
    ensures Lookup(m.members, "jobId") == jobId
  {
    Obj(CompletionMembers(jobId, taskType, Str(c.outputHash), Str(c.outputCid), c.duration, Str(c.gpuUtilization),
                          Num(c.exitCode), ArtifactRecord(a)))
  }

  /** The request a completion sends to the ledger, once its values have converted. */
  function CompleteCommit(req: Request, w: CompleteWorld, scaleDuration: (Value, real) -> Value): (c: CommitRequest)
    requires ValidDraw(w.draws.utilization) && ValidDraw(w.draws.gpu)
    requires CompletionConvertible(req)
    ensures c.eventType == CompletedEvent && c.jobId == Prop(req.body, "jobId")
    ensures Ok(c.idempotencyKey) == GenerateIdempotencyKey(Prop(req.body, "jobId"), CompletedEvent)
    ensures c.executor == CompletionExecutor(req)
  {
    var jobId := Prop(req.body, "jobId");
    var taskType := Prop(req.body, "taskType");
    var completion := CompleteJob(req, w, scaleDuration).value;
    CommitRequest(CompletedEvent, jobId, taskType, CompletionExecutor(req), Str(completion.completedAt),
                  CompleteMetadata(jobId, taskType, completion, CompleteArtifact(req, w).value),
                  GenerateIdempotencyKey(jobId, CompletedEvent).value)
  }

  /**
   * The row a completion inserts. Its `txHash` is read from a `proofHash`
   * member that ledger receipts do not have, so it is always undefined.
   */
  function CompleteRow(req: Request, w: CompleteWorld, scaleDuration: (Value, real) -> Value, receipt: LedgerReceipt)
    : (r: Receipt)
    requires ValidDraw(w.draws.utilization) && ValidDraw(w.draws.gpu)
    requires CompletionConvertible(req)
    ensures r.idempotencyKey == CompleteCommit(req, w, scaleDuration).idempotencyKey && r.eventType == CompletedEvent
    ensures r.jobId == Prop(req.body, "jobId") && r.executor == CompletionExecutor(req)
    ensures r.metadata == CompleteCommit(req, w, scaleDuration).metadata
    ensures r.nid == receipt.nid && r.txHash == Undefined && r.chain == Chain
  {
    var c := CompleteCommit(req, w, scaleDuration);
    var completion := CompleteJob(req, w, scaleDuration).value;
    Receipt(c.idempotencyKey, c.jobId, CompletedEvent, c.taskType, c.executor, completion.completedAt, c.metadata,
            Undefined, receipt.nid, Chain,
            [Member("outputHash", Str(completion.outputHash)), Member("duration", completion.duration),
             Member("gpuUtilization", Str(completion.gpuUtilization))])
  }

  // ---------------------------------------------------------------------------
  // The handlers

  /** How the ledger commit and the insert that follows it ended. */
  datatype Recorded =
    | CommitFailed(message: string)
    | InsertFailed(message: string)
    | AlreadyRecorded
    | Inserted(id: nat, receipt: LedgerReceipt)

  /** The two handlers over the shared receipt store and the ledger they write to. */
  class JobApi {
    const config: NumbersConfig
    const base64: string -> string
    const scaleDuration: (Value, real) -> Value
    const store: ReceiptStore
    /** Every request sent to the ledger, in order. */
    ghost var ledger: seq<CommitRequest>

    ghost predicate Valid()
      reads this, store
    {
      store.Valid()
    }

    constructor (config: NumbersConfig, base64: string -> string, scaleDuration: (Value, real) -> Value)
      ensures this.config == config && this.base64 == base64 && this.scaleDuration == scaleDuration
      ensures fresh(store) && store.rows == map[] && ledger == [] && Valid()
    {
      this.config := config;
      this.base64 := base64;
      this.scaleDuration := scaleDuration;
      store := new ReceiptStore();
      ledger := [];
    }

    /** What the ledger gives back for a request, as `commitJobReceipt` resolves or rejects. */
    function Commit(c: CommitRequest, reply: Reply, nowForNid: int, nowForTx: int): Outcome<LedgerReceipt>
      reads this
    {
      CommitJobReceipt(config, c, reply, base64, nowForNid, nowForTx)
    }

    /**
     * The part both handlers share: send the event to the ledger, then insert
     * the row built from the ledger's receipt. The ledger is written to
     * before the store is asked about the key.
     */
    method Record(c: CommitRequest, rowOf: LedgerReceipt -> Receipt, reply: Reply, nowForNid: int, nowForTx: int,
                  fault: Option<string>)
      returns (rec: Recorded)
      requires Valid()
      requires forall r :: rowOf(r).idempotencyKey == c.idempotencyKey
      modifies this, store
      ensures Valid()
      ensures forall k :: k in old(store.rows) ==> k in store.rows && store.rows[k] == old(store.rows)[k]
      ensures ledger == old(ledger) + (if ReachesLedger(config, c) then [c] else [])
      ensures var committed := Commit(c, reply, nowForNid, nowForTx);
              && (committed.Throw? ==> rec == CommitFailed(committed.message) && store.rows == old(store.rows))
              && (committed.Ok? && fault.Some? ==> rec == InsertFailed(fault.value) && store.rows == old(store.rows))
              && (committed.Ok? && fault.None? && c.idempotencyKey in old(store.rows) ==>
                    rec == AlreadyRecorded && store.rows == old(store.rows))
              && (committed.Ok? && fault.None? && c.idempotencyKey !in old(store.rows) ==>
                    rec == Inserted(old(store.nextId), committed.value)
                    && store.rows == old(store.rows)[c.idempotencyKey := rowOf(committed.value)])
    {
      if ReachesLedger(config, c) {
        ledger := ledger + [c];
      }
      var committed := Commit(c, reply, nowForNid, nowForTx);
      if committed.Throw? {
        return CommitFailed(committed.message);
      }
      var saved := store.SaveJobReceipt(rowOf(committed.value), fault);
      match saved
      case DuplicateKey => rec := AlreadyRecorded;
      case StoreFailed(msg) => rec := InsertFailed(msg);
      case Saved(id) => rec := Inserted(id, committed.value);
    }

    /** api/jobs/submit.js */
    method Submit(req: Request, w: SubmitWorld) returns (resp: Response)
      requires Valid() && ValidDraw(w.draws.gpu)
      modifies this, store
      ensures Valid()
      ensures forall k :: k in old(store.rows) ==> k in store.rows && store.rows[k] == old(store.rows)[k]
      // rejected before anything is sent or stored
      ensures req.verb != "POST" ==> resp == MethodNotAllowed
      ensures req.verb == "POST" && Nullish(req.body) ==>
                resp == ServerError("Failed to submit job", DestructureError(req.body, "taskType"))
      ensures req.verb == "POST" && !Nullish(req.body) && !Truthy(Prop(req.body, "taskType")) ==>
                resp == BadRequest("taskType is required")
      ensures req.verb != "POST" || Nullish(req.body) || !Truthy(Prop(req.body, "taskType")) ==>
                ledger == old(ledger) && store.rows == old(store.rows)
      // past the checks, the ledger is written to first
      ensures req.verb == "POST" && !Nullish(req.body) && Truthy(Prop(req.body, "taskType")) ==>
                var c := SubmitCommit(req, w);
                var committed := Commit(c, w.reply, w.nowForNid, w.nowForTx);
                && ledger == old(ledger) + (if HasApiKey(config) then [c] else [])
                && (committed.Throw? ==>
                      resp == ServerError("Failed to submit job", committed.message) && store.rows == old(store.rows))
                && (committed.Ok? && w.fault.Some? ==>
                      resp == ServerError("Failed to submit job", w.fault.value) && store.rows == old(store.rows))
                && (committed.Ok? && w.fault.None? && c.idempotencyKey in old(store.rows) ==>
                      resp == Duplicate("This job has already been submitted", c.idempotencyKey)
                      && store.rows == old(store.rows))
                && (committed.Ok? && w.fault.None? && c.idempotencyKey !in old(store.rows) ==>
                      resp.Submitted? && resp.jobId == SubmitJob(req, w).jobId && resp.jobData == SubmitJob(req, w)
                      && resp.receipt == ReceiptRef(old(store.nextId), committed.value.nid, committed.value.txHash,
                                                    committed.value.explorerUrl)
                      && store.rows == old(store.rows)[c.idempotencyKey := SubmitRow(req, w, committed.value)])
    {
      if req.verb != "POST" {
        return MethodNotAllowed;
      }
      if Nullish(req.body) {
        return ServerError("Failed to submit job", DestructureError(req.body, "taskType"));
      }
      if !Truthy(Prop(req.body, "taskType")) {
        return BadRequest("taskType is required");
      }
      var job := SubmitJob(req, w);
      var c := SubmitCommit(req, w);
      var rec := Record(c, r => SubmitRow(req, w, r), w.reply, w.nowForNid, w.nowForTx, w.fault);
      match rec
      case CommitFailed(msg) =>
        resp := ServerError("Failed to submit job", msg);
      case AlreadyRecorded =>
        resp := Duplicate("This job has already been submitted", c.idempotencyKey);
      case InsertFailed(msg) =>
        resp := ServerError("Failed to submit job", msg);
      case Inserted(id, receipt) =>
        resp := Submitted(job.jobId, ReceiptRef(id, receipt.nid, receipt.txHash, receipt.explorerUrl), job);
    }

    /** api/jobs/complete.js: no earlier submission of the job is looked for. */
    method Complete(req: Request, w: CompleteWorld) returns (resp: Response)
      requires Valid() && ValidDraw(w.draws.utilization) && ValidDraw(w.draws.gpu)
      modifies this, store
      ensures Valid()
      ensures forall k :: k in old(store.rows) ==> k in store.rows && store.rows[k] == old(store.rows)[k]
      ensures req.verb != "POST" ==> resp == MethodNotAllowed
      ensures req.verb == "POST" && Nullish(req.body) ==>
                resp == ServerError("Failed to complete job", DestructureError(req.body, "jobId"))
      ensures req.verb == "POST" && !Nullish(req.body) && !Truthy(Prop(req.body, "jobId")) ==>
                resp == BadRequest("jobId is required")
      ensures req.verb != "POST" || Nullish(req.body) || !Truthy(Prop(req.body, "jobId")) ==>
                ledger == old(ledger) && store.rows == old(store.rows)
      // a value that cannot be converted throws before the ledger is reached
      ensures req.verb == "POST" && !Nullish(req.body) && Truthy(Prop(req.body, "jobId")) && !CompletionConvertible(req) ==>
                resp == ServerError("Failed to complete job", ToPrimitiveError)
                && ledger == old(ledger) && store.rows == old(store.rows)
      ensures req.verb == "POST" && !Nullish(req.body) && Truthy(Prop(req.body, "jobId")) && CompletionConvertible(req) ==>
                var c := CompleteCommit(req, w, scaleDuration);
                var committed := Commit(c, w.reply, w.nowForNid, w.nowForTx);
                && ledger == old(ledger) + (if HasApiKey(config) then [c] else [])
                && (committed.Throw? ==>
                      resp == ServerError("Failed to complete job", committed.message) && store.rows == old(store.rows))
                && (committed.Ok? && w.fault.Some? ==>
                      resp == ServerError("Failed to complete job", w.fault.value) && store.rows == old(store.rows))
                && (committed.Ok? && w.fault.None? && c.idempotencyKey in old(store.rows) ==>
                      resp == Duplicate("This job has already been completed", c.idempotencyKey)
                      && store.rows == old(store.rows))
                && (committed.Ok? && w.fault.None? && c.idempotencyKey !in old(store.rows) ==>
                      resp.Completed? && resp.completedJobId == Prop(req.body, "jobId")
                      && resp.completion == CompleteJob(req, w, scaleDuration).value
                      && resp.artifact == CompleteArtifact(req, w).value
                      && resp.receipt == ReceiptRef(old(store.nextId), committed.value.nid, committed.value.txHash,
                                                    committed.value.explorerUrl)
                      && store.rows == old(store.rows)[c.idempotencyKey := CompleteRow(req, w, scaleDuration, committed.value)])
    {
      if req.verb != "POST" {
        return MethodNotAllowed;
      }
      if Nullish(req.body) {
        return ServerError("Failed to complete job", DestructureError(req.body, "jobId"));
      }
      var jobId := Prop(req.body, "jobId");
      if !Truthy(jobId) {
        return BadRequest("jobId is required");
      }
      var completion := CompleteJob(req, w, scaleDuration);
      if completion.Throw? {
        return ServerError("Failed to complete job", completion.message);
      }
      var artifact := CompleteArtifact(req, w);
      if artifact.Throw? {
        return ServerError("Failed to complete job", artifact.message);
      }
      // the key converts the job id again, which the artifact's file name has already done
      var c := CompleteCommit(req, w, scaleDuration);
      var rec := Record(c, r => CompleteRow(req, w, scaleDuration, r), w.reply, w.nowForNid, w.nowForTx, w.fault);
      match rec
      case CommitFailed(msg) =>
        resp := ServerError("Failed to complete job", msg);
      case AlreadyRecorded =>
        resp := Duplicate("This job has already been completed", c.idempotencyKey);
      case InsertFailed(msg) =>
        resp := ServerError("Failed to complete job", msg);
      case Inserted(id, receipt) =>
        resp := Completed(jobId, ReceiptRef(id, receipt.nid, receipt.txHash, receipt.explorerUrl), completion.value,
                          artifact.value);
    }
  }

  /**
   * Completing the same job twice: the second request is still sent to the
   * ledger, is answered 409 with the job's completion key, and the first
   * completion's row stays as it was.
   */
  method CompleteTwice(api: JobApi, req1: Request, w1: CompleteWorld, req2: Request, w2: CompleteWorld)
    returns (first: Response, second: Response)
    requires api.Valid() && HasApiKey(api.config)
    requires ValidDraw(w1.draws.utilization) && ValidDraw(w1.draws.gpu)
    requires ValidDraw(w2.draws.utilization) && ValidDraw(w2.draws.gpu)
    requires req1.verb == "POST" && req2.verb == "POST" && req1.body.Obj? && req2.body.Obj?
    requires Truthy(Prop(req1.body, "jobId")) && Prop(req2.body, "jobId") == Prop(req1.body, "jobId")
    requires CompletionConvertible(req2)
    requires api.Commit(CompleteCommit(req2, w2, api.scaleDuration), w2.reply, w2.nowForNid, w2.nowForTx).Ok?
    requires w2.fault.None?
    modifies api, api.store
    ensures first.Completed? ==>
              CompletionConvertible(req1) &&
              var key := GenerateIdempotencyKey(Prop(req1.body, "jobId"), CompletedEvent).value;
              && second == Duplicate("This job has already been completed", key)
              && |api.ledger| == |old(api.ledger)| + 2
              && key in api.store.rows && api.store.rows[key].eventType == CompletedEvent
              && api.store.rows[key].metadata == CompleteCommit(req1, w1, api.scaleDuration).metadata
  {
    first := api.Complete(req1, w1);
    second := api.Complete(req2, w2);
  }
}
