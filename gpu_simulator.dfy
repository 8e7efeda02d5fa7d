/**
 * The mock GPU job simulator of lib/gpu-simulator.js: two fixed tables (GPU
 * models, task types), a job id format, and three builders of job records.
 * `Math.random()` is a parameter: a real draw in [0, 1) where the source
 * scales it, and the text of `Math.random().toString(radix)` where the source
 * cuts characters out of it. `Date.now()` and `new Date().toISOString()` are
 * parameters too.
 */
module GpuSimulator {
  import opened JsValue

  const GpuTypes: seq<string> := [
    "NVIDIA A100 80GB",
    "NVIDIA H100 SXM",
    "NVIDIA RTX 4090",
    "AMD MI300X",
    "Google TPU v5e"
  ]

  datatype TaskType = TaskType(id: string, name: string, avgDuration: nat)

  const TaskTypes: seq<TaskType> := [
    TaskType("stable-diffusion", "Stable Diffusion Image Generation", 45),
    TaskType("llm-inference", "LLM Text Inference", 12),
    TaskType("model-training", "Model Fine-tuning", 300),
    TaskType("video-upscaling", "AI Video Upscaling", 180),
    TaskType("speech-synthesis", "Speech-to-Text Transcription", 30)
  ]

  /** The table's ids are all different, so a task is found by its id alone. */
  lemma TaskIdsDistinct()
    ensures forall i, j :: 0 <= i < j < |TaskTypes| ==> TaskTypes[i].id != TaskTypes[j].id
  {
  }

  /** `Math.floor(draw * n)` for a draw in [0, 1): an index into a table of `n` entries. */
  function ScaledIndex(draw: real, n: nat): (i: nat)
    requires 0.0 <= draw < 1.0 && 0 < n
    ensures i < n
  {
    var f := (draw * n as real).Floor;
    assert f as real <= draw * n as real < n as real;
    f
  }

  /** `GPU_TYPES[Math.floor(Math.random() * GPU_TYPES.length)]` */
  function PickGpu(draw: real): (g: string)
    requires 0.0 <= draw < 1.0
    ensures g in GpuTypes
  {
    GpuTypes[ScaledIndex(draw, |GpuTypes|)]
  }

  // ---------------------------------------------------------------------------
  // Job ids

  const JobIdPrefix: string := "job_"

  /** `job_${Date.now()}_${Math.random().toString(36).substr(2, 9)}`, given the time and the draw's text. */
  function GenerateJobId(nowMs: nat, draw36: string): (id: string)
    ensures |JobIdPrefix| < |id| && id[..|JobIdPrefix|] == JobIdPrefix
    ensures |id| <= |JobIdPrefix| + |NatToString(nowMs)| + 1 + 9
  {
    var id := JobIdPrefix + NatToString(nowMs) + "_" + Substr(draw36, 2, 9);
    assert id[..|JobIdPrefix|] == JobIdPrefix;
    id
  }

  /** A string of decimal digits followed by `_`, split after the digits. */
  lemma {:induction false} DigitsThenUnderscore(d1: string, d2: string, r1: string, r2: string)
    requires forall i :: 0 <= i < |d1| ==> '0' <= d1[i] <= '9'
    requires forall i :: 0 <= i < |d2| ==> '0' <= d2[i] <= '9'
    requires d1 + "_" + r1 == d2 + "_" + r2
    ensures d1 == d2
  {
    var s := d1 + "_" + r1;
    assert s[|d1|] == '_';
    assert s[|d2|] == (d2 + "_" + r2)[|d2|] == '_';
    assert |d1| == |d2|;
    assert d1 == s[..|d1|];
    assert d2 == (d2 + "_" + r2)[..|d2|];
  }

  /** Job ids generated at different milliseconds are different, whatever the random parts. */
  lemma JobIdsDifferInTime(now1: nat, now2: nat, draw1: string, draw2: string)
    requires now1 != now2
    ensures GenerateJobId(now1, draw1) != GenerateJobId(now2, draw2)
  {
    var d1, d2 := NatToString(now1), NatToString(now2);
    var r1, r2 := Substr(draw1, 2, 9), Substr(draw2, 2, 9);
    if GenerateJobId(now1, draw1) == GenerateJobId(now2, draw2) {
      assert GenerateJobId(now1, draw1) == JobIdPrefix + (d1 + "_" + r1);
      assert GenerateJobId(now2, draw2) == JobIdPrefix + (d2 + "_" + r2);
      assert d1 + "_" + r1 == d2 + "_" + r2;
      DigitsThenUnderscore(d1, d2, r1, r2);
      NatToStringInjective(now1, now2);
    }
  }

  // ---------------------------------------------------------------------------
  // Submission

  /** How far `TASK_TYPES.find(t => t.id === taskType)` gets; the table's length when nothing matches. */
  function FindTaskIndex(tasks: seq<TaskType>, taskType: Value): (i: nat)
    ensures i <= |tasks|
    ensures forall j :: 0 <= j < i ==> taskType != Str(tasks[j].id)
    ensures i < |tasks| ==> taskType == Str(tasks[i].id)
  {
    if tasks == [] then 0
    else if taskType == Str(tasks[0].id) then 0
    else 1 + FindTaskIndex(tasks[1..], taskType)
  }

  /** `TASK_TYPES.find(t => t.id === taskType) || TASK_TYPES[0]`: only a string id matches. */
  function FindTask(taskType: Value): (t: TaskType)
    ensures t in TaskTypes
    ensures (exists i :: 0 <= i < |TaskTypes| && taskType == Str(TaskTypes[i].id)) ==> taskType == Str(t.id)
    ensures (forall i :: 0 <= i < |TaskTypes| ==> taskType != Str(TaskTypes[i].id)) ==> t == TaskTypes[0]
  {
    var i := FindTaskIndex(TaskTypes, taskType);
    if i < |TaskTypes| then TaskTypes[i] else TaskTypes[0]
  }

  /** The random draws of one submission, in the order the source makes them. */
  datatype SubmissionDraws = SubmissionDraws(
    gpu: real,            // scaled into GPU_TYPES
    jobIdText: string,    // Math.random().toString(36), for the job id
    executorText: string, // Math.random().toString(16), for a missing executor
    inputText: string)    // Math.random().toString(36), for the input hash

  predicate ValidDraw(r: real)
  {
    0.0 <= r < 1.0
  }

  datatype Submission = Submission(
    jobId: string, taskType: string, taskName: string, executor: Value, gpuType: string,
    estimatedDuration: nat, inputHash: string, status: string, submittedAt: string)

  /** The executor as given when truthy, else `0x` and up to 40 hex digits of a draw. */
  function ExecutorOrRandom(executor: Value, hexText: string): (e: Value)
    ensures Truthy(executor) ==> e == executor
    ensures !Truthy(executor) ==> e.Str? && |e.s| >= 2 && e.s[..2] == "0x"
  {
    var mock := "0x" + Substr(hexText, 2, 40);
    assert mock[..2] == "0x";
    Or(executor, Str(mock))
  }

  /** `simulateJobSubmission(taskType, executor)` */
  function SimulateJobSubmission(taskType: Value, executor: Value, nowMs: nat, isoNow: string, d: SubmissionDraws)
    : (s: Submission)
    requires ValidDraw(d.gpu)
    ensures s.taskType == FindTask(taskType).id && s.taskName == FindTask(taskType).name
    ensures s.estimatedDuration == FindTask(taskType).avgDuration
    ensures s.gpuType in GpuTypes
    ensures s.status == "submitted" && s.submittedAt == isoNow
    ensures s.jobId == GenerateJobId(nowMs, d.jobIdText)
    ensures |JobIdPrefix| < |s.jobId| && s.jobId[..|JobIdPrefix|] == JobIdPrefix
    ensures Truthy(executor) ==> s.executor == executor
  {
    var task := FindTask(taskType);
    Submission(
      GenerateJobId(nowMs, d.jobIdText),
      task.id,
      task.name,
      ExecutorOrRandom(executor, d.executorText),
      PickGpu(d.gpu),
      task.avgDuration,
      "QmInput" + Substr(d.inputText, 2, 32),
      "submitted",
      isoNow)
  }

  /** A submission's task type is always one of the table's ids; anything else becomes the first entry. */
  lemma SubmissionTaskKnown(taskType: Value, executor: Value, nowMs: nat, isoNow: string, d: SubmissionDraws)
    requires ValidDraw(d.gpu)
    ensures var s := SimulateJobSubmission(taskType, executor, nowMs, isoNow, d);
            && (exists i :: 0 <= i < |TaskTypes| && TaskTypes[i].id == s.taskType
                            && TaskTypes[i].avgDuration == s.estimatedDuration)
            && (!taskType.Str? ==> s.taskType == "stable-diffusion")
            && (taskType.Str? && (exists i :: 0 <= i < |TaskTypes| && TaskTypes[i].id == taskType.s)
                ==> s.taskType == taskType.s)
  {
    var t := FindTask(taskType);
    var i :| 0 <= i < |TaskTypes| && TaskTypes[i] == t;
    assert TaskTypes[i].id == t.id;
  }

  // ---------------------------------------------------------------------------
  // Completion

  /** The random draws of one completion, in the order the source makes them. */
  datatype CompletionDraws = CompletionDraws(
    duration: real,     // the ±20% variation of the duration
    utilization: real,  // scaled into 70..94
    outputText: string, // Math.random().toString(36), for the output hash
    cidText: string,    // Math.random().toString(36), for the output CID
    gpu: real)          // scaled into GPU_TYPES

  datatype Completion = Completion(
    jobId: Value, outputHash: string, outputCid: string, duration: Value, gpuUtilization: string,
    gpuType: string, exitCode: int, status: string, completedAt: string)

  /** `70 + Math.floor(Math.random() * 25)` */
  function UtilizationPercent(draw: real): (n: nat)
    requires ValidDraw(draw)
    ensures 70 <= n <= 94
  {
    70 + ScaledIndex(draw, 25)
  }

  /** `${gpuUtilization}%`: two digits from 70 to 94, then a percent sign. */
  function UtilizationText(draw: real): (t: string)
    requires ValidDraw(draw)
    ensures |t| == 3 && t[2] == '%'
    ensures '7' <= t[0] <= '9' && '0' <= t[1] <= '9' && (t[0] == '9' ==> t[1] <= '4')
  {
    var n := UtilizationPercent(draw);
    assert NatToString(n) == NatToString(n / 10) + [DigitChar(n % 10)];
    assert NatToString(n / 10) == [DigitChar(n / 10)];
    NatToString(n) + "%"
  }

  /**
   * `simulateJobCompletion(jobId, taskType, estimatedDuration)`. The duration's
   * floating-point arithmetic, `Math.round(estimatedDuration * (0.8 + r * 0.4) * 10) / 10`,
   * is the parameter `scaleDuration`; the task type is not used. The
   * multiplication converts `estimatedDuration` to a number, which throws for
   * a value that cannot be converted to a primitive.
   */
  function SimulateJobCompletion(jobId: Value, estimatedDuration: Value, isoNow: string, d: CompletionDraws,
                                 scaleDuration: (Value, real) -> Value): (r: Outcome<Completion>)
    requires ValidDraw(d.utilization) && ValidDraw(d.gpu)
    ensures r.Ok? <==> StringConvertible(estimatedDuration)
    ensures r.Throw? ==> r.message == ToPrimitiveError
    ensures r.Ok? ==> var c := r.value;
              && c.jobId == jobId && c.duration == scaleDuration(estimatedDuration, d.duration)
              && c.gpuUtilization == NatToString(UtilizationPercent(d.utilization)) + "%"
              && c.gpuType in GpuTypes
              && c.exitCode == 0 && c.status == "completed" && c.completedAt == isoNow
  {
    if !StringConvertible(estimatedDuration) then Throw(ToPrimitiveError)
    else Ok(Completion(
      jobId,
      "QmOutput" + Substr(d.outputText, 2, 32),
      "bafybeig" + Substr(d.cidText, 2, 48),
      scaleDuration(estimatedDuration, d.duration),
      UtilizationText(d.utilization),
      PickGpu(d.gpu),
      0,
      "completed",
      isoNow))
  }

  // ---------------------------------------------------------------------------
  // Artifacts

  datatype ArtifactKind = ArtifactKind(ext: string, mime: string, size: nat)

  /** The `artifactTypes` table, looked up by property name. */
  function ArtifactKindOf(key: string): Option<ArtifactKind>
  {
    if key == "stable-diffusion" then Some(ArtifactKind("png", "image/png", 2048000))
    else if key == "llm-inference" then Some(ArtifactKind("json", "application/json", 4096))
    else if key == "model-training" then Some(ArtifactKind("pt", "application/octet-stream", 524288000))
    else if key == "video-upscaling" then Some(ArtifactKind("mp4", "video/mp4", 104857600))
    else if key == "speech-synthesis" then Some(ArtifactKind("json", "application/json", 8192))
    else None
  }

  /** Every task the simulator knows has an entry in the artifact table. */
  lemma ArtifactKindForEveryTask()
    ensures forall t :: t in TaskTypes ==> ArtifactKindOf(t.id).Some?
  {
  }

  /**
   * What `artifactTypes[taskType] || artifactTypes['llm-inference']` finds: a
   * kind of the table, or an inherited `Object.prototype` member, which is
   * truthy but has no `ext`, `mime` or `size`.
   */
  datatype ArtifactEntry = Kind(kind: ArtifactKind) | NotAKind

  /**
   * The lookup under the key `String(taskType)`, with its fallback; forming
   * the key throws when the task type cannot be converted.
   */
  function ArtifactKindFor(taskType: Value): (e: Outcome<ArtifactEntry>)
    ensures e.Ok? <==> StringConvertible(taskType)
    ensures e.Throw? ==> e.message == ToPrimitiveError
    ensures e.Ok? && ArtifactKindOf(ToStr(taskType)).Some? ==> e.value == Kind(ArtifactKindOf(ToStr(taskType)).value)
    ensures e.Ok? && ArtifactKindOf(ToStr(taskType)).None? && Inherited(ToStr(taskType)) ==> e.value == NotAKind
    ensures e.Ok? && ArtifactKindOf(ToStr(taskType)).None? && !Inherited(ToStr(taskType)) ==>
              e.value == Kind(ArtifactKind("json", "application/json", 4096))
  {
    match StringOf(taskType)
    case Throw(msg) => Throw(msg)
    case Ok(key) =>
      match ArtifactKindOf(key)
      case Some(k) => Ok(Kind(k))
      case None => if Inherited(key) then Ok(NotAKind) else Ok(Kind(ArtifactKindOf("llm-inference").value))
  }

  /** A mock artifact; `mimeType` and `fileSize` are undefined when the lookup found no kind. */
  datatype MockArtifact = MockArtifact(fileName: string, mimeType: Value, fileSize: Value, fileHash: string)

  /**
   * `generateMockArtifact(jobId, taskType)`: the table lookup converts the
   * task type, then the file name converts the job id; either conversion may throw.
   */
  function GenerateMockArtifact(jobId: Value, taskType: Value, hexText: string): (r: Outcome<MockArtifact>)
    ensures r.Ok? <==> StringConvertible(taskType) && StringConvertible(jobId)
    ensures r.Throw? ==> r.message == ToPrimitiveError
    ensures r.Ok? ==>
              var a := r.value;
              var key := ToStr(taskType);
              var kind := if ArtifactKindOf(key).Some? then ArtifactKindOf(key).value
                          else ArtifactKind("json", "application/json", 4096);
              !(ArtifactKindOf(key).None? && Inherited(key)) ==>
                && a.fileName == ToStr(jobId) + "_output." + kind.ext
                && a.mimeType == Str(kind.mime) && a.fileSize == Num(kind.size)
    ensures r.Ok? && ArtifactKindOf(ToStr(taskType)).None? && Inherited(ToStr(taskType)) ==>
              r.value.fileName == ToStr(jobId) + "_output.undefined" && r.value.mimeType == Undefined
              && r.value.fileSize == Undefined
    ensures r.Ok? ==> |r.value.fileHash| >= 7 && r.value.fileHash[..7] == "sha256:"
  {
    var hash := "sha256:" + Substr(hexText, 2, 64);
    assert hash[..7] == "sha256:";
    match ArtifactKindFor(taskType)
    case Throw(msg) => Throw(msg)
    case Ok(entry) =>
      match StringOf(jobId)
      case Throw(msg) => Throw(msg)
      case Ok(name) =>
        match entry
        case Kind(kind) => Ok(MockArtifact(name + "_output." + kind.ext, Str(kind.mime), Num(kind.size), hash))
        case NotAKind => Ok(MockArtifact(name + "_output." + ToStr(Undefined), Undefined, Undefined, hash))
  }

  /** A listed task type always yields a complete artifact description, unless the job id cannot be converted. */
  lemma ListedTaskArtifact(jobId: Value, t: TaskType, hexText: string)
    requires t in TaskTypes
    ensures var r := GenerateMockArtifact(jobId, Str(t.id), hexText);
            && (r.Ok? <==> StringConvertible(jobId))
            && (r.Ok? ==> r.value.mimeType.Str? && r.value.fileSize.Num? && r.value.fileSize.n > 0)
  {
    ArtifactKindForEveryTask();
  }
}
