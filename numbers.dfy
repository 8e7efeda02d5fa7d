/**
 * The Numbers Protocol side of lib/numbers.js: the idempotency key of a job
 * event, and how `commitJobReceipt` turns the ledger's reply into the receipt
 * the handlers store. The HTTP request itself (FormData, fetch) is not
 * modelled: the reply is a parameter, and so are the two `Date.now()` readings
 * and the base64 encoder.
 */
module Numbers {
  import opened JsValue

  // ---------------------------------------------------------------------------
  // The idempotency key

  const KeyPrefix: string := "gpu-job-"

  /** `gpu-job-${jobId}-${eventType}`, which throws when the job id cannot be converted to a string. */
  function GenerateIdempotencyKey(jobId: Value, eventType: string): (key: Outcome<string>)
    ensures key.Ok? <==> StringConvertible(jobId)
    ensures key.Throw? ==> key.message == ToPrimitiveError
    ensures key.Ok? ==> |key.value| == |KeyPrefix| + |ToStr(jobId)| + 1 + |eventType|
    ensures key.Ok? ==> key.value[..|KeyPrefix|] == KeyPrefix
  {
    match StringOf(jobId)
    case Throw(msg) => Throw(msg)
    case Ok(text) => Ok(KeyPrefix + text + "-" + eventType)
  }

  /** The job part of a key made for `eventType`, or None when the key was not made for it. */
  function KeyJobPart(key: string, eventType: string): (j: Option<string>)
    ensures j.Some? ==> |j.value| + |KeyPrefix| + 1 + |eventType| == |key|
  {
    var n := |KeyPrefix| + 1 + |eventType|;
    if |key| < n then None
    else if key[..|KeyPrefix|] != KeyPrefix then None
    else if key[|key| - |eventType| - 1..] != "-" + eventType then None
    else Some(key[|KeyPrefix|..|key| - |eventType| - 1])
  }

  /** A key gives back the job it was made for. */
  lemma KeyJobPartOfKey(jobId: Value, eventType: string)
    ensures GenerateIdempotencyKey(jobId, eventType).Ok? ==>
              KeyJobPart(GenerateIdempotencyKey(jobId, eventType).value, eventType) == Some(ToStr(jobId))
  {
    if !StringConvertible(jobId) {
      return;
    }
    var key := GenerateIdempotencyKey(jobId, eventType).value;
    var j := ToStr(jobId);
    assert key == KeyPrefix + j + ("-" + eventType);
    assert key[|key| - |eventType| - 1..] == "-" + eventType;
    assert key[|KeyPrefix|..|key| - |eventType| - 1] == j;
  }

  /** Only keys made for `eventType` have a job part, and the key is made from it. */
  lemma KeyOfKeyJobPart(key: string, eventType: string)
    requires KeyJobPart(key, eventType).Some?
    ensures GenerateIdempotencyKey(Str(KeyJobPart(key, eventType).value), eventType) == Ok(key)
  {
    var j := KeyJobPart(key, eventType).value;
    var m := |key| - |eventType| - 1;
    assert key == key[..|KeyPrefix|] + key[|KeyPrefix|..m] + key[m..];
    assert key[..|KeyPrefix|] == KeyPrefix && key[m..] == "-" + eventType && key[|KeyPrefix|..m] == j;
    assert StringOf(Str(j)) == Ok(j);
    assert key == KeyPrefix + j + "-" + eventType;
  }

  /** For a fixed event type, different jobs (as strings) get different keys. */
  lemma KeyInjectiveInJob(jobId1: Value, jobId2: Value, eventType: string)
    requires GenerateIdempotencyKey(jobId1, eventType).Ok?
    requires GenerateIdempotencyKey(jobId1, eventType) == GenerateIdempotencyKey(jobId2, eventType)
    ensures ToStr(jobId1) == ToStr(jobId2)
  {
    KeyJobPartOfKey(jobId1, eventType);
    KeyJobPartOfKey(jobId2, eventType);
  }

  /** For a fixed job, different event types get different keys. */
  lemma KeyInjectiveInEvent(jobId: Value, eventType1: string, eventType2: string)
    requires GenerateIdempotencyKey(jobId, eventType1).Ok?
    requires GenerateIdempotencyKey(jobId, eventType1) == GenerateIdempotencyKey(jobId, eventType2)
    ensures eventType1 == eventType2
  {
    var p := KeyPrefix + ToStr(jobId) + "-";
    var k1 := GenerateIdempotencyKey(jobId, eventType1).value;
    assert k1 == p + eventType1;
    assert GenerateIdempotencyKey(jobId, eventType2).value == p + eventType2;
    assert eventType1 == k1[|p|..];
  }

  // ---------------------------------------------------------------------------
  // The ledger's configuration and reply

  const DefaultExplorerBase: string := "https://verify.numbersprotocol.io/asset-profile/"
  const MissingKeyMessage: string := "NUMBERS_API_KEY not configured"
  const MockNidPrefix: string := "bafkrei"

  /** NUMBERS_API_KEY and EXPLORER_ASSET_BASE as read from the environment (None when unset). */
  datatype NumbersConfig = NumbersConfig(apiKey: Option<string>, explorerEnv: Option<string>)

  /** `!NUMBERS_CONFIG.apiKey` fails: the key is set and not empty. */
  predicate HasApiKey(cfg: NumbersConfig)
  {
    cfg.apiKey.Some? && cfg.apiKey.value != ""
  }

  /** `process.env.EXPLORER_ASSET_BASE || default` */
  function ExplorerBase(cfg: NumbersConfig): (base: string)
    ensures cfg.explorerEnv.Some? && cfg.explorerEnv.value != "" ==> base == cfg.explorerEnv.value
    ensures cfg.explorerEnv.None? || cfg.explorerEnv.value == "" ==> base == DefaultExplorerBase
  {
    if cfg.explorerEnv.Some? && cfg.explorerEnv.value != "" then cfg.explorerEnv.value else DefaultExplorerBase
  }

  /** What the ledger's POST produced: a network failure, or a status, its text and its parsed JSON. */
  datatype Reply =
    | NetworkFailure(message: string)
    | Reply(ok: bool, status: int, text: string, json: Outcome<Value>)

  /** The fields of `jobData` that reach the ledger. */
  datatype CommitRequest = CommitRequest(
    eventType: string, jobId: Value, taskType: Value, executor: Value,
    occurredAt: Value, metadata: Value, idempotencyKey: string)

  /** The receipt `commitJobReceipt` resolves with. */
  datatype LedgerReceipt = LedgerReceipt(
    nid: Value, txHash: Value, assetSha256: Value, creatorWallet: Value,
    explorerUrl: string, rawResponse: Value)

  /** Where the first truthy value of a list stands (its length when there is none). */
  function FirstTruthyIndex(vs: seq<Value>): (i: nat)
    ensures i <= |vs|
    ensures forall j :: 0 <= j < i ==> !Truthy(vs[j])
    ensures i < |vs| ==> Truthy(vs[i])
  {
    if vs == [] then 0
    else if Truthy(vs[0]) then 0
    else 1 + FirstTruthyIndex(vs[1..])
  }

  /** The first truthy value of a list, if any. */
  function FirstTruthy(vs: seq<Value>): Option<Value>
  {
    var i := FirstTruthyIndex(vs);
    if i < |vs| then Some(vs[i]) else None
  }

  /** Reading a list's first truthy value one element at a time, as `||` does. */
  lemma FirstTruthyCons(a: Value, rest: seq<Value>)
    ensures FirstTruthy([a] + rest) == if Truthy(a) then Some(a) else FirstTruthy(rest)
  {
    assert ([a] + rest)[1..] == rest;
  }

  /** `a || b || c || d` is the first truthy of the four, or `d` when none is. */
  lemma OrChain4(a: Value, b: Value, c: Value, d: Value)
    ensures FirstTruthy([a, b, c, d]).Some? ==> Or(Or(Or(a, b), c), d) == FirstTruthy([a, b, c, d]).value
    ensures FirstTruthy([a, b, c, d]).None? ==> Or(Or(Or(a, b), c), d) == d && !Truthy(d)
  {
    FirstTruthyCons(d, []);
    assert [c] + [d] == [c, d];
    FirstTruthyCons(c, [d]);
    assert [b] + [c, d] == [b, c, d];
    FirstTruthyCons(b, [c, d]);
    assert [a] + [b, c, d] == [a, b, c, d];
    FirstTruthyCons(a, [b, c, d]);
  }

  /** `a || b || c` is the first truthy of the three, or `c` when none is. */
  lemma OrChain3(a: Value, b: Value, c: Value)
    ensures FirstTruthy([a, b, c]).Some? ==> Or(Or(a, b), c) == FirstTruthy([a, b, c]).value
    ensures FirstTruthy([a, b, c]).None? ==> Or(Or(a, b), c) == c && !Truthy(c)
  {
    FirstTruthyCons(c, []);
    assert [b] + [c] == [b, c];
    FirstTruthyCons(b, [c]);
    assert [a] + [b, c] == [a, b, c];
    FirstTruthyCons(a, [b, c]);
  }

  /** `s.slice(0, n)` */
  function Take(s: string, n: nat): (r: string)
    ensures |r| <= n && |r| <= |s| && r == s[..|r|]
    ensures |s| <= n ==> r == s
  {
    if |s| <= n then s else s[..n]
  }

  /**
   * `jobId + Date.now()`: a string, array or object job id is converted and
   * concatenated, and the conversion throws for an object that cannot be
   * converted; any other value is added as a number, which `Buffer.from`
   * then rejects, naming the number it received.
   */
  function JobIdPlusNow(jobId: Value, now: int): (r: Outcome<string>)
    ensures r.Ok? <==> (jobId.Str? || jobId.Arr? || jobId.Obj?) && StringConvertible(jobId)
    ensures r.Ok? ==> r.value == ToStr(jobId) + IntToString(now)
    ensures (jobId.Arr? || jobId.Obj?) && !StringConvertible(jobId) ==> r == Throw(ToPrimitiveError)
    ensures !(jobId.Str? || jobId.Arr? || jobId.Obj?) ==>
              r.Throw? && |BufferArgError| <= |r.message| && r.message[..|BufferArgError|] == BufferArgError
  {
    if jobId.Str? || jobId.Arr? || jobId.Obj? then
      match StringOf(jobId)
      case Throw(msg) => Throw(msg)
      case Ok(text) => Ok(text + IntToString(now))
    else
      var sum := match jobId
        case Num(n) => IntToString(n + now)
        case Bool(b) => IntToString((if b then 1 else 0) + now)
        case Null => IntToString(now)
        case _ => "NaN";
      var msg := BufferArgError + " (" + sum + ")";
      assert msg[..|BufferArgError|] == BufferArgError;
      Throw(msg)
  }

  /** The start of the message `Buffer.from` throws for a number argument. */
  const BufferArgError: string :=
    "The first argument must be of type string or an instance of Buffer, ArrayBuffer, or Array or an Array-like Object. Received type number"

  /** `result.assetCid || result.nid || result.cid || result.asset_id` */
  function ReplyNid(result: Value): (nid: Value)
    ensures var found := FirstTruthy([Prop(result, "assetCid"), Prop(result, "nid"), Prop(result, "cid"), Prop(result, "asset_id")]);
            && (found.Some? ==> nid == found.value)
            && (found.None? ==> !Truthy(nid))
  {
    OrChain4(Prop(result, "assetCid"), Prop(result, "nid"), Prop(result, "cid"), Prop(result, "asset_id"));
    Or(Or(Or(Prop(result, "assetCid"), Prop(result, "nid")), Prop(result, "cid")), Prop(result, "asset_id"))
  }

  /**
   * `txHash || `tx_${jobId}_${Date.now()}`` over `result.transaction_hash || result.tx_hash || result.post_creation_workflow_id`;
   * the job id is converted only when no hash field is truthy.
   */
  function ReplyTxHash(result: Value, jobId: Value, now: int): (tx: Outcome<Value>)
    ensures var found := FirstTruthy([Prop(result, "transaction_hash"), Prop(result, "tx_hash"), Prop(result, "post_creation_workflow_id")]);
            && (found.Some? ==> tx == Ok(found.value))
            && (found.None? && StringConvertible(jobId) ==> tx == Ok(Str("tx_" + ToStr(jobId) + "_" + IntToString(now))))
            && (found.None? && !StringConvertible(jobId) ==> tx == Throw(ToPrimitiveError))
  {
    OrChain3(Prop(result, "transaction_hash"), Prop(result, "tx_hash"), Prop(result, "post_creation_workflow_id"));
    var txHash := Or(Or(Prop(result, "transaction_hash"), Prop(result, "tx_hash")), Prop(result, "post_creation_workflow_id"));
    if Truthy(txHash) then Ok(txHash)
    else match StringOf(jobId)
      case Throw(msg) => Throw(msg)
      case Ok(text) => Ok(Str("tx_" + text + "_" + IntToString(now)))
  }

  /** The made-up id: `bafkrei` and the first 44 characters of the base64 text. */
  function MockNid(base64: string -> string, s: string): (nid: string)
    ensures |MockNidPrefix| <= |nid| <= |MockNidPrefix| + 44 && nid[..|MockNidPrefix|] == MockNidPrefix
  {
    var t := Take(base64(s), 44);
    assert (MockNidPrefix + t)[..|MockNidPrefix|] == MockNidPrefix;
    MockNidPrefix + t
  }

  /** `nid || `bafkrei${Buffer.from(jobId + Date.now()).toString('base64').slice(0, 44)}`` */
  function ValidNid(nid: Value, jobId: Value, base64: string -> string, now: int): (r: Outcome<Value>)
    ensures Truthy(nid) ==> r == Ok(nid)
    ensures !Truthy(nid) ==> (r.Ok? <==> JobIdPlusNow(jobId, now).Ok?)
    ensures !Truthy(nid) && r.Ok? ==> r.value.Str? && |MockNidPrefix| <= |r.value.s| && r.value.s[..|MockNidPrefix|] == MockNidPrefix
    ensures r.Ok? ==> Truthy(r.value)
  {
    if Truthy(nid) then Ok(nid)
    else match JobIdPlusNow(jobId, now)
      case Throw(msg) => Throw(msg)
      case Ok(s) => Ok(Str(MockNid(base64, s)))
  }

  /**
   * The receipt's selection over the parsed reply `result`: the first truthy
   * of the four id fields, else a made-up `bafkrei…` id; the first truthy of
   * the three hash fields, else `tx_<jobId>_<time>`; and the explorer link,
   * which converts the id to a string.
   */
  function ReceiptFromResult(cfg: NumbersConfig, jobId: Value, result: Value,
                             base64: string -> string, nowForNid: int, nowForTx: int)
    : (r: Outcome<LedgerReceipt>)
    ensures Nullish(result) ==> r == Throw(ReadError(result, "assetCid"))
    ensures !Nullish(result) ==>
              var nid := ValidNid(ReplyNid(result), jobId, base64, nowForNid);
              var tx := ReplyTxHash(result, jobId, nowForTx);
              && (r.Ok? <==> nid.Ok? && tx.Ok? && StringConvertible(nid.value))
              && (nid.Throw? ==> r == Throw(nid.message))
              && (nid.Ok? && tx.Throw? ==> r == Throw(ToPrimitiveError))
              && (nid.Ok? && tx.Ok? && !StringConvertible(nid.value) ==> r == Throw(ToPrimitiveError))
              && (r.Ok? ==> r.value.nid == nid.value && r.value.txHash == tx.value)
    ensures r.Ok? ==> r.value.explorerUrl == ExplorerBase(cfg) + ToStr(r.value.nid) + "?nid=" + ToStr(r.value.nid)
    ensures r.Ok? ==> r.value.assetSha256 == Prop(result, "assetSha256") && r.value.creatorWallet == Prop(result, "creatorWallet")
    ensures r.Ok? ==> r.value.rawResponse == result
  {
    if Nullish(result) then Throw(ReadError(result, "assetCid"))
    else match ValidNid(ReplyNid(result), jobId, base64, nowForNid)
      case Throw(msg) => Throw(msg)
      case Ok(v) =>
        match ReplyTxHash(result, jobId, nowForTx)
        case Throw(msg) => Throw(msg)
        case Ok(tx) =>
          match StringOf(v)
          case Throw(msg) => Throw(msg)
          case Ok(nidText) =>
            Ok(LedgerReceipt(
              v,
              tx,
              Prop(result, "assetSha256"),
              Prop(result, "creatorWallet"),
              ExplorerBase(cfg) + nidText + "?nid=" + nidText,
              result))
  }

  /** The message of the error thrown for a reply that is not OK. */
  function ApiErrorMessage(status: int, text: string): string
  {
    "Numbers API error: " + IntToString(status) + " - " + text
  }

  /**
   * Whether `commitJobReceipt` sends the request: the API key is set and the
   * upload's file name `gpu-job-${jobId}.json` can be formed.
   */
  predicate ReachesLedger(cfg: NumbersConfig, req: CommitRequest)
  {
    HasApiKey(cfg) && StringConvertible(req.jobId)
  }

  /** `commitJobReceipt(jobData)` with the ledger's reply given. */
  function CommitJobReceipt(cfg: NumbersConfig, req: CommitRequest, reply: Reply,
                            base64: string -> string, nowForNid: int, nowForTx: int)
    : (r: Outcome<LedgerReceipt>)
    ensures !HasApiKey(cfg) ==> r == Throw(MissingKeyMessage)
    ensures HasApiKey(cfg) && !StringConvertible(req.jobId) ==> r == Throw(ToPrimitiveError)
    ensures ReachesLedger(cfg, req) && reply.NetworkFailure? ==> r == Throw(reply.message)
    ensures ReachesLedger(cfg, req) && reply.Reply? && !reply.ok ==> r == Throw(ApiErrorMessage(reply.status, reply.text))
    ensures ReachesLedger(cfg, req) && reply.Reply? && reply.ok && reply.json.Throw? ==> r == Throw(reply.json.message)
    ensures r.Ok? ==> ReachesLedger(cfg, req) && reply.Reply? && reply.ok && reply.json.Ok?
                      && Ok(r.value) == ReceiptFromResult(cfg, req.jobId, reply.json.value, base64, nowForNid, nowForTx)
  {
    if !HasApiKey(cfg) then Throw(MissingKeyMessage)
    else if !StringConvertible(req.jobId) then Throw(ToPrimitiveError)
    else match reply
      case NetworkFailure(msg) => Throw(msg)
      case Reply(ok, status, text, json) =>
        if !ok then Throw(ApiErrorMessage(status, text))
        else match json
          case Throw(msg) => Throw(msg)
          case Ok(result) => ReceiptFromResult(cfg, req.jobId, result, base64, nowForNid, nowForTx)
  }
}
