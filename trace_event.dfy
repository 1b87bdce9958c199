/**
 * `TraceEvent`: one immutable record per occurrence, its fixed-key
 * projection `toArray` and its serialised form `toJson`.
 */
module TraceEvents {
  import opened Results
  import opened Contexts
  import L = TraceLevels
  import T = TraceEventTypes

  /**
   * One reading of the PHP runtime: what `microtime(true)` returns and the
   * unique part `uniqid` appends to its prefix at that moment.
   */
  datatype Reading = Reading(time: real, unique: string)

  /**
   * The opaque formatters the source calls: `date()` with the two patterns
   * it uses, and `json_encode` with the two flag sets it uses (`None` where
   * `json_encode` returns false).
   */
  datatype Formatter = Formatter(
    timeOfDay: int -> string,
    dateTime: int -> string,
    compactJson: Context -> Option<string>,
    prettyJson: Context -> Option<string>)

  /** A trace event; a datatype value, so no field changes after construction. */
  datatype TraceEvent = TraceEvent(
    level: L.TraceLevel,
    eventType: T.TraceEventType,
    message: string,
    context: Context,
    timestamp: real,
    traceId: string,
    taskId: string)

  const TracePrefix: string := "trace_"
  const TaskPrefix: string := "task_"

  /** `uniqid($prefix, true)` as answered by one runtime reading. */
  function UniqId(prefix: string, r: Reading): string
  {
    prefix + r.unique
  }

  /** `(int) $timestamp`: PHP's cast truncates toward zero. */
  function Seconds(t: real): int
  {
    if t >= 0.0 then t.Floor else -((-t).Floor)
  }

  /** The cast drops the fraction toward zero, whatever the sign of the time. */
  lemma SecondsTruncates(t: real)
    ensures 0.0 <= t ==> Seconds(t) as real <= t < Seconds(t) as real + 1.0
    ensures t < 0.0 ==> Seconds(t) as real - 1.0 < t <= Seconds(t) as real
  {
  }

  /**
   * The constructor: timestamp from the reading, a supplied id kept as is,
   * a missing one generated with its prefix.
   */
  function NewEvent(
    level: L.TraceLevel, eventType: T.TraceEventType, message: string, context: Context,
    traceId: Option<string>, taskId: Option<string>, now: Reading): TraceEvent
  {
    TraceEvent(
      level, eventType, message, context, now.time,
      if traceId.Some? then traceId.value else UniqId(TracePrefix, now),
      if taskId.Some? then taskId.value else UniqId(TaskPrefix, now))
  }

  /** The keys of `toArray`, in order. */
  const ProjectionKeys: seq<string> :=
    ["timestamp", "datetime", "trace_id", "task_id", "level", "type", "message", "context"]

  /** `toArray`: the fixed-key projection of an event. */
  function ToArray(e: TraceEvent, fmt: Formatter): (r: Context)
    ensures Keys(r) == ProjectionKeys
    ensures WellFormed(r)
  {
    var r := [
      Entry("timestamp", Float(e.timestamp)),
      Entry("datetime", Str(fmt.dateTime(Seconds(e.timestamp)))),
      Entry("trace_id", Str(e.traceId)),
      Entry("task_id", Str(e.taskId)),
      Entry("level", Str(L.Value(e.level))),
      Entry("type", Str(T.Value(e.eventType))),
      Entry("message", Str(e.message)),
      Entry("context", Nested(e.context))];
    KeysShape(r);
    r
  }

  /** `toJson`: the pretty-printed encoding of `toArray`, `None` where encoding fails. */
  function ToJson(e: TraceEvent, fmt: Formatter): Option<string>
  {
    fmt.prettyJson(ToArray(e, fmt))
  }

  /** Two generated ids with the same prefix differ when their readings' unique parts do. */
  lemma UniqIdInjective(prefix: string, r1: Reading, r2: Reading)
    ensures UniqId(prefix, r1) == UniqId(prefix, r2) ==> r1.unique == r2.unique
  {
    if UniqId(prefix, r1) == UniqId(prefix, r2) {
      assert r1.unique == UniqId(prefix, r1)[|prefix|..];
    }
  }

  /** A generated trace id can never equal a generated task id. */
  lemma TraceAndTaskIdsDiffer(r1: Reading, r2: Reading)
    ensures UniqId(TracePrefix, r1) != UniqId(TaskPrefix, r2)
  {
    assert UniqId(TracePrefix, r1)[1] == 'r';
    assert UniqId(TaskPrefix, r2)[1] == 'a';
  }

  /**
   * A supplied id is used verbatim; only a missing one is generated, and a
   * generated one carries the `trace_` or `task_` prefix.
   */
  lemma IdDefaulting(
    level: L.TraceLevel, eventType: T.TraceEventType, message: string, context: Context,
    traceId: Option<string>, taskId: Option<string>, now: Reading)
    ensures var e := NewEvent(level, eventType, message, context, traceId, taskId, now);
      && (traceId.Some? ==> e.traceId == traceId.value)
      && (traceId.None? ==> |e.traceId| >= |TracePrefix| && e.traceId[..|TracePrefix|] == TracePrefix)
      && (taskId.Some? ==> e.taskId == taskId.value)
      && (taskId.None? ==> |e.taskId| >= |TaskPrefix| && e.taskId[..|TaskPrefix|] == TaskPrefix)
  {
  }

  /**
   * `toArray` loses nothing: `level` and `type` are the backing strings,
   * the other fields are stored unchanged, so equal projections come only
   * from equal events.
   */
  lemma ToArrayDeterminesEvent(e1: TraceEvent, e2: TraceEvent, fmt: Formatter)
    requires ToArray(e1, fmt) == ToArray(e2, fmt)
    ensures e1 == e2
  {
    var a1, a2 := ToArray(e1, fmt), ToArray(e2, fmt);
    assert a1[4] == a2[4] && a1[5] == a2[5];
    L.ValueInjective(e1.level, e2.level);
    T.ValueInjective(e1.eventType, e2.eventType);
  }

  /** The fields of the projection hold the event's own values. */
  lemma ToArrayFields(e: TraceEvent, fmt: Formatter)
    ensures var a := ToArray(e, fmt);
      && Lookup(a, "trace_id") == Some(Str(e.traceId))
      && Lookup(a, "task_id") == Some(Str(e.taskId))
      && Lookup(a, "level") == Some(Str(L.Value(e.level)))
      && Lookup(a, "type") == Some(Str(T.Value(e.eventType)))
      && Lookup(a, "message") == Some(Str(e.message))
      && Lookup(a, "context") == Some(Nested(e.context))
  {
    var a := ToArray(e, fmt);
    LookupAt(a, 2);
    LookupAt(a, 3);
    LookupAt(a, 4);
    LookupAt(a, 5);
    LookupAt(a, 6);
    LookupAt(a, 7);
  }

  /** `toJson` depends on the projection alone. */
  lemma ToJsonFromProjection(e1: TraceEvent, e2: TraceEvent, fmt: Formatter)
    requires ToArray(e1, fmt) == ToArray(e2, fmt)
    ensures ToJson(e1, fmt) == ToJson(e2, fmt)
  {
  }
}
