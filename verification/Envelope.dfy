/** JSON values, task ids and the checkpoint envelope
    (`janus/src/workflow/envelope.rs`). */
module Envelope {
  import opened Wrappers

  /** Object keys. The field names the code looks up are constructors of their
      own; keys are only ever compared for equality. */
  datatype Key =
    | Version | TaskId | StepName | Status | ExitCode | HitlVerdict | Noop | StateData
    | Step | Exit
    | Other(text: string)

  datatype Json =
    | Null
    | Bool(b: bool)
    | Int(n: int)
    | Real(r: real)
    | Str(s: string)
    | Arr(items: seq<Json>)
    | Obj(fields: map<Key, Json>)
  {
    /** `Value::get` with a string key. */
    function Get(key: Key): Option<Json> {
      if Obj? && key in fields then Some(fields[key]) else None
    }
  }

  function AsStr(v: Option<Json>): Option<string> {
    if v.Some? && v.value.Str? then Some(v.value.s) else None
  }

  function AsBool(v: Option<Json>): Option<bool> {
    if v.Some? && v.value.Bool? then Some(v.value.b) else None
  }

  const I32_MIN: int := -0x8000_0000
  const I32_MAX: int := 0x7fff_ffff
  const I64_MIN: int := -0x8000_0000_0000_0000
  const I64_MAX: int := 0x7fff_ffff_ffff_ffff

  /** `as_i64`: integers outside 64 bits are not 64-bit numbers. */
  function AsI64(v: Option<Json>): Option<int> {
    if v.Some? && v.value.Int? && I64_MIN <= v.value.n <= I64_MAX then Some(v.value.n) else None
  }

  /** `as i32`: keeps the low 32 bits, read as a signed number. */
  function WrapI32(n: int): (r: int)
    ensures I32_MIN <= r <= I32_MAX
    ensures I32_MIN <= n <= I32_MAX ==> r == n
    ensures (r - n) % 0x1_0000_0000 == 0
  {
    var low := n % 0x1_0000_0000;
    if low > I32_MAX then low - 0x1_0000_0000 else low
  }

  // --- Task ids -------------------------------------------------------------

  predicate HexDigit(c: char) {
    '0' <= c <= '9' || 'a' <= c <= 'f'
  }

  predicate HyphenAt(i: int) {
    i == 8 || i == 13 || i == 18 || i == 23
  }

  predicate IsUuid(s: string) {
    && |s| == 36
    && forall i | 0 <= i < 36 :: if HyphenAt(i) then s[i] == '-' else HexDigit(s[i])
  }

  /** A task id, in its canonical hyphenated spelling. */
  type Uuid = s: string | IsUuid(s) witness "00000000-0000-0000-0000-000000000000"

  // --- Envelope -------------------------------------------------------------

  /** A step-status string of an envelope. */
  const COMPLETED := "COMPLETED"

  datatype CheckpointEnvelope = CheckpointEnvelope(
    version: int,
    taskId: Uuid,
    stepName: string,
    status: string,
    exitCode: Option<int>,
    hitlVerdict: Option<string>,
    noop: Option<bool>,
    stateData: Json)

  datatype EnvelopeError = MissingField(field: string)

  /** `new` followed by an optional `with_noop`. */
  function NewEnvelope(taskId: Uuid, stepName: string, status: string, exitCode: Option<int>,
                       hitlVerdict: Option<string>, noop: Option<bool>, stateData: Json): CheckpointEnvelope {
    CheckpointEnvelope(1, taskId, stepName, status, exitCode, hitlVerdict, noop, stateData)
  }

  function Validate(e: CheckpointEnvelope): Option<EnvelopeError> {
    if e.stepName == "" then Some(MissingField("step_name"))
    else if e.status == "" then Some(MissingField("status"))
    else None
  }

  /** The envelope's numbers fit the widths of its Rust fields. */
  predicate InRange(e: CheckpointEnvelope) {
    && 0 <= e.version <= 255
    && (e.exitCode.Some? ==> I32_MIN <= e.exitCode.value <= I32_MAX)
  }

  function With(fields: map<Key, Json>, key: Key, value: Option<Json>): map<Key, Json> {
    if value.Some? then fields[key := value.value] else fields
  }

  /** The object `serde_json::to_value` builds: absent options and a null
      `state_data` are skipped. */
  function Serialize(e: CheckpointEnvelope): Json {
    var always := map[Version := Int(e.version), TaskId := Str(e.taskId), StepName := Str(e.stepName), Status := Str(e.status)];
    var f1 := With(always, ExitCode, if e.exitCode.Some? then Some(Int(e.exitCode.value)) else None);
    var f2 := With(f1, HitlVerdict, if e.hitlVerdict.Some? then Some(Str(e.hitlVerdict.value)) else None);
    var f3 := With(f2, Noop, if e.noop.Some? then Some(Bool(e.noop.value)) else None);
    Obj(With(f3, StateData, if e.stateData.Null? then None else Some(e.stateData)))
  }

  function ToCheckpointValue(e: CheckpointEnvelope): Result<Json, EnvelopeError> {
    if Validate(e).Some? then Failure(Validate(e).value) else Success(Serialize(e))
  }

  /** An optional field: absent or null is `None`; a value of the wrong shape
      fails the whole decoding (the outer `None`). */
  function OptI32(v: Option<Json>): Option<Option<int>> {
    match v
    case None => Some(None)
    case Some(Null) => Some(None)
    case Some(Int(n)) => if I32_MIN <= n <= I32_MAX then Some(Some(n)) else None
    case _ => None
  }

  function OptStr(v: Option<Json>): Option<Option<string>> {
    match v
    case None => Some(None)
    case Some(Null) => Some(None)
    case Some(Str(s)) => Some(Some(s))
    case _ => None
  }

  function OptBool(v: Option<Json>): Option<Option<bool>> {
    match v
    case None => Some(None)
    case Some(Null) => Some(None)
    case Some(Bool(b)) => Some(Some(b))
    case _ => None
  }

  /** `from_value::<CheckpointEnvelope>`. */
  function Deserialize(v: Json): Option<CheckpointEnvelope> {
    var version := v.Get(Version);
    var taskId := AsStr(v.Get(TaskId));
    var stepName := AsStr(v.Get(StepName));
    var status := AsStr(v.Get(Status));
    var exitCode := OptI32(v.Get(ExitCode));
    var verdict := OptStr(v.Get(HitlVerdict));
    var noop := OptBool(v.Get(Noop));
    var stateData := if v.Get(StateData).Some? then v.Get(StateData).value else Null;
    if && version.Some? && version.value.Int? && 0 <= version.value.n <= 255
       && taskId.Some? && IsUuid(taskId.value)
       && stepName.Some? && status.Some? && exitCode.Some? && verdict.Some? && noop.Some?
    then Some(CheckpointEnvelope(version.value.n, taskId.value, stepName.value, status.value,
                                 exitCode.value, verdict.value, noop.value, stateData))
    else None
  }

  /** The fallback decoder for checkpoints written before version 0.7.0. */
  function Legacy(v: Json, taskId: Uuid): CheckpointEnvelope {
    var step := AsStr(v.Get(Step));
    var status := AsStr(v.Get(Status));
    var exit := AsI64(v.Get(Exit));
    CheckpointEnvelope(0, taskId,
                       if step.Some? then step.value else "",
                       if status.Some? then status.value else "",
                       if exit.Some? then Some(WrapI32(exit.value)) else None,
                       AsStr(v.Get(HitlVerdict)),
                       AsBool(v.Get(Noop)),
                       v)
  }

  function ParseCheckpoint(v: Json, taskId: Uuid): CheckpointEnvelope {
    if Deserialize(v).Some? then Deserialize(v).value else Legacy(v, taskId)
  }

  lemma WrittenFields(e: CheckpointEnvelope)
    ensures var v := Serialize(e);
            && v.Get(Version) == Some(Int(e.version)) && v.Get(TaskId) == Some(Str(e.taskId))
            && v.Get(StepName) == Some(Str(e.stepName)) && v.Get(Status) == Some(Str(e.status))
            && v.Get(ExitCode) == (if e.exitCode.Some? then Some(Int(e.exitCode.value)) else None)
            && v.Get(HitlVerdict) == (if e.hitlVerdict.Some? then Some(Str(e.hitlVerdict.value)) else None)
            && v.Get(Noop) == (if e.noop.Some? then Some(Bool(e.noop.value)) else None)
            && v.Get(StateData) == (if e.stateData.Null? then None else Some(e.stateData))
  {
  }

  /** Writing an envelope and parsing it back gives the envelope, whatever the
      default task id; only an empty name or status refuses to be written. */
  lemma RoundTrip(e: CheckpointEnvelope, taskId: Uuid)
    requires InRange(e)
    ensures ToCheckpointValue(e).Success? <==> e.stepName != "" && e.status != ""
    ensures ToCheckpointValue(e).Success? ==> ParseCheckpoint(ToCheckpointValue(e).value, taskId) == e
  {
    hide Serialize;
    WrittenFields(e);
    var v := Serialize(e);
    assert OptI32(v.Get(ExitCode)) == Some(e.exitCode);
    assert OptStr(v.Get(HitlVerdict)) == Some(e.hitlVerdict);
    assert OptBool(v.Get(Noop)) == Some(e.noop);
  }

  /** A checkpoint as it was written before version 0.7.0: a step and a status,
      possibly more, among other fields, but no version. */
  function LegacyObject(others: map<Key, Json>, step: string, status: string, exit: Option<int>, verdict: Option<string>,
                        noop: Option<bool>): Json {
    var f1 := With(others[Step := Str(step)][Status := Str(status)], Exit, if exit.Some? then Some(Int(exit.value)) else None);
    var f2 := With(f1, HitlVerdict, if verdict.Some? then Some(Str(verdict.value)) else None);
    Obj(With(f2, Noop, if noop.Some? then Some(Bool(noop.value)) else None))
  }

  lemma LegacyFields(others: map<Key, Json>, step: string, status: string, exit: Option<int>, verdict: Option<string>, noop: Option<bool>)
    requires others.Keys !! {Version, Exit, HitlVerdict, Noop}
    ensures var v := LegacyObject(others, step, status, exit, verdict, noop);
            && v.Get(Version) == None && v.Get(Step) == Some(Str(step)) && v.Get(Status) == Some(Str(status))
            && v.Get(Exit) == (if exit.Some? then Some(Int(exit.value)) else None)
            && v.Get(HitlVerdict) == (if verdict.Some? then Some(Str(verdict.value)) else None)
            && v.Get(Noop) == (if noop.Some? then Some(Bool(noop.value)) else None)
  {
  }

  /** Such a checkpoint is never taken for an envelope, whatever else it holds: it
      decodes as version 0 of the asking task with all of its own fields, its
      64-bit exit code truncated. */
  lemma LegacyCheckpoint(others: map<Key, Json>, step: string, status: string, exit: Option<int>, verdict: Option<string>,
                         noop: Option<bool>, taskId: Uuid)
    requires others.Keys !! {Version, Exit, HitlVerdict, Noop}
    ensures var v := LegacyObject(others, step, status, exit, verdict, noop);
            var exitCode := if exit.Some? && I64_MIN <= exit.value <= I64_MAX then Some(WrapI32(exit.value)) else None;
            ParseCheckpoint(v, taskId) == CheckpointEnvelope(0, taskId, step, status, exitCode, verdict, noop, v)
  {
    hide LegacyObject, WrapI32;
    LegacyFields(others, step, status, exit, verdict, noop);
  }

  /** Nothing is made up for a checkpoint that does not say it: of any JSON value
      the status and the verdict are the text of that field, or none. */
  lemma ReadAsWritten(v: Json, taskId: Uuid)
    ensures ParseCheckpoint(v, taskId).status == match v.Get(Status) case Some(Str(s)) => s case _ => ""
    ensures ParseCheckpoint(v, taskId).hitlVerdict == match v.Get(HitlVerdict) case Some(Str(s)) => Some(s) case _ => None
  {
  }
}
