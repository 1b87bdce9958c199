/**
 * The engine `VOsakaTracer`: an ordered handler list, an enabled flag and a
 * registry of active traces keyed by trace id. The state the engine exposes
 * is summed up by `EngineView`, and each operation is specified by a pure
 * function from the view before to the view after.
 */
module Tracer {
  import opened Results
  import opened Contexts
  import L = TraceLevels
  import T = TraceEventTypes
  import opened TraceEvents
  import opened Handlers
  import F = FileHandlers
  import opened Rounding

  /** A registry row: `["operation", "start_time", "context"]`. */
  datatype ActiveTrace = ActiveTrace(operation: string, startTime: real, context: Context)

  /** One call of a handler's `handle`: its position in the list, the event, whether it threw. */
  datatype Invocation = Invocation(handler: nat, event: TraceEvent, raised: bool)

  /**
   * The engine's state, with two logs of what it did: every event it built
   * (`emitted`) and every handler call it made (`invocations`). `clock`
   * counts the runtime readings used so far.
   */
  datatype EngineView = EngineView(
    handlers: seq<Handler>,
    enabled: bool,
    active: map<string, ActiveTrace>,
    clock: nat,
    emitted: seq<TraceEvent>,
    invocations: seq<Invocation>)

  /** `uniqid` never answers twice with the same unique part. */
  ghost predicate UniqueReadings(runtime: nat -> Reading)
  {
    forall i: nat, j: nat :: i < j ==> runtime(i).unique != runtime(j).unique
  }

  /** No id the runtime will generate from reading `clock` on is in the registry yet. */
  ghost predicate FreshAhead(runtime: nat -> Reading, clock: nat, active: map<string, ActiveTrace>)
  {
    forall i: nat :: clock <= i ==> UniqId(TracePrefix, runtime(i)) !in active
  }

  /** The handler calls `trace` makes for one event: every handler, in list order. */
  function Dispatch(hs: seq<Handler>, e: TraceEvent): (r: seq<Invocation>)
    ensures |r| == |hs|
    ensures forall i :: 0 <= i < |hs| ==> r[i] == Invocation(i, e, Raises(hs[i], e))
  {
    seq(|hs|, i requires 0 <= i < |hs| => Invocation(i, e, Raises(hs[i], e)))
  }

  /** `trace`: nothing while disabled; otherwise build one event and call every handler. */
  function TraceSpec(
    v: EngineView, runtime: nat -> Reading, level: L.TraceLevel, eventType: T.TraceEventType,
    message: string, context: Context, traceId: Option<string>, taskId: Option<string>): EngineView
  {
    if !v.enabled then v
    else
      var e := NewEvent(level, eventType, message, context, traceId, taskId, runtime(v.clock));
      v.(clock := v.clock + 1, emitted := v.emitted + [e], invocations := v.invocations + Dispatch(v.handlers, e))
  }

  /** The id `startTrace` generates next. */
  function NextTraceId(v: EngineView, runtime: nat -> Reading): string
  {
    UniqId(TracePrefix, runtime(v.clock))
  }

  /** `startTrace`: register the new id, then trace DEBUG/TASK_SPAWN under it. */
  function StartSpec(v: EngineView, runtime: nat -> Reading, operation: string, context: Context): EngineView
  {
    var r := runtime(v.clock);
    var id := UniqId(TracePrefix, r);
    var v1 := v.(clock := v.clock + 1, active := v.active[id := ActiveTrace(operation, r.time, context)]);
    TraceSpec(v1, runtime, L.DEBUG, T.TASK_SPAWN, "Starting trace for: " + operation, context, Some(id), None)
  }

  /** The elapsed time since the entry started, in milliseconds rounded to two decimals. */
  function DurationMs(entry: ActiveTrace, now: Reading): real
  {
    Round2((now.time - entry.startTime) * 1000.0)
  }

  /** The context `endTrace` reports: the entry's, then the caller's, then the duration. */
  function CompletionContext(entry: ActiveTrace, extra: Context, durationMs: real): Context
  {
    Merge3(entry.context, extra, [Entry("duration_ms", Float(durationMs))])
  }

  /**
   * `endTrace`: nothing for an unknown id; otherwise trace DEBUG/TASK_COMPLETE
   * with the merged context under the same id, then drop the entry.
   */
  function EndSpec(v: EngineView, runtime: nat -> Reading, traceId: string, extra: Context): EngineView
  {
    if traceId !in v.active then v
    else
      var entry := v.active[traceId];
      var r := runtime(v.clock);
      var ctx := CompletionContext(entry, extra, DurationMs(entry, r));
      var v1 := TraceSpec(v.(clock := v.clock + 1), runtime, L.DEBUG, T.TASK_COMPLETE,
        "Completed trace for: " + entry.operation, ctx, Some(traceId), None);
      v1.(active := v1.active - {traceId})
  }

  /** How often `h` occurs in `hs`. */
  function Count(hs: seq<Handler>, h: Handler): nat
  {
    if hs == [] then 0 else Count(hs[..|hs| - 1], h) + if hs[|hs| - 1] == h then 1 else 0
  }

  /** Calling one more handler extends the calls by that handler's call. */
  lemma DispatchSnoc(hs: seq<Handler>, i: nat, e: TraceEvent)
    requires i < |hs|
    ensures Dispatch(hs[..i + 1], e) == Dispatch(hs[..i], e) + [Invocation(i, e, Raises(hs[i], e))]
  {
    assert hs[..i + 1][..i] == hs[..i];
  }

  /** One more handler in the prefix counts once more for itself and no more for the others. */
  lemma CountSnoc(hs: seq<Handler>, i: nat, g: Handler)
    requires i < |hs|
    ensures Count(hs[..i + 1], g) == Count(hs[..i], g) + if hs[i] == g then 1 else 0
  {
    assert hs[..i + 1][..i] == hs[..i];
  }

  class VOsakaTracer {
    var handlers: seq<Handler>
    var enabled: bool
    var activeTraces: map<string, ActiveTrace>
    /** What `microtime` and `uniqid` answer, reading by reading. */
    const runtime: nat -> Reading
    /** How many readings have been used. */
    var clock: nat
    ghost var emitted: seq<TraceEvent>
    ghost var invocations: seq<Invocation>

    ghost function View(): EngineView
      reads this
    {
      EngineView(handlers, enabled, activeTraces, clock, emitted, invocations)
    }

    /** The handler objects the engine calls. */
    ghost function Sinks(): set<object>
      reads this
    {
      set h | h in handlers :: Obj(h)
    }

    ghost predicate Valid()
      reads this, Sinks()
    {
      && UniqueReadings(runtime)
      && FreshAhead(runtime, clock, activeTraces)
      && forall h | h in handlers :: Ready(h)
    }

    /** A fresh engine: no handlers, enabled, empty registry. */
    constructor (runtime: nat -> Reading)
      requires UniqueReadings(runtime)
      ensures Valid() && this.runtime == runtime
      ensures View() == EngineView([], true, map[], 0, [], [])
    {
      this.runtime := runtime;
      handlers := [];
      enabled := true;
      activeTraces := map[];
      clock := 0;
      emitted := [];
      invocations := [];
    }

    /** `addHandler`: append, without removing duplicates; returns the engine itself. */
    method AddHandler(h: Handler) returns (self: VOsakaTracer)
      requires Valid() && Ready(h)
      modifies this`handlers
      ensures Valid() && self == this
      ensures handlers == old(handlers) + [h]
    {
      handlers := handlers + [h];
      self := this;
    }

    method Enable() returns (self: VOsakaTracer)
      modifies this`enabled
      ensures enabled && self == this
    {
      enabled := true;
      self := this;
    }

    method Disable() returns (self: VOsakaTracer)
      modifies this`enabled
      ensures !enabled && self == this
    {
      enabled := false;
      self := this;
    }

    method IsEnabled() returns (b: bool)
      ensures b == enabled
    {
      b := enabled;
    }

    /**
     * `trace`: while disabled nothing happens; otherwise one event is built
     * and handed to every handler in list order. A handler that throws is
     * logged and skipped, so each handler object receives the event once per
     * occurrence in the list and `trace` itself never throws.
     */
    method Trace(
      level: L.TraceLevel, eventType: T.TraceEventType, message: string, context: Context,
      traceId: Option<string> := None, taskId: Option<string> := None)
      requires Valid()
      modifies this`clock, this`emitted, this`invocations, Sinks()
      ensures Valid()
      ensures View() == TraceSpec(old(View()), runtime, level, eventType, message, context, traceId, taskId)
      ensures !enabled ==> unchanged(Sinks())
      ensures enabled ==> Delivered(handlers, handlers, emitted[|emitted| - 1])
    {
      if !enabled {
        return;
      }
      var e := NewEvent(level, eventType, message, context, traceId, taskId, runtime(clock));
      clock := clock + 1;
      emitted := emitted + [e];
      Deliver(e);
    }

    /**
     * The `foreach` of `trace`: hand `e` to every handler in list order; a
     * handler that throws is only reported to the error log.
     */
    method Deliver(e: TraceEvent)
      requires forall h | h in handlers :: Ready(h)
      modifies this`invocations, Sinks()
      ensures forall h | h in handlers :: Ready(h)
      ensures invocations == old(invocations) + Dispatch(handlers, e)
      ensures Delivered(handlers, handlers, e)
    {
      var i := 0;
      while i < |handlers|
        invariant 0 <= i <= |handlers|
        invariant invocations == old(invocations) + Dispatch(handlers[..i], e)
        invariant forall h | h in handlers :: Ready(h)
        invariant Delivered(handlers, handlers[..i], e)
      {
        var h := handlers[i];
        label BeforeCall:
        var raised := Handle(h, e);
        forall g | g in handlers
          ensures State(g) == After(old(State(g)), g, e, Count(handlers[..i + 1], g))
          ensures Ready(g)
        {
          ObjInjective(g, h);
          CountSnoc(handlers, i, g);
          if g == h {
            AfterStep(old(State(g)), g, e, Count(handlers[..i], g));
          } else {
            assert State(g) == old@BeforeCall(State(g));
            assert Ready(g) == old@BeforeCall(Ready(g));
          }
        }
        DispatchSnoc(handlers, i, e);
        invocations := invocations + [Invocation(i, e, raised)];
        i := i + 1;
      }
      assert handlers[..i] == handlers;
    }

    /**
     * `startTrace`: register `{operation, start time, context}` under a fresh
     * id (even while disabled), trace DEBUG/TASK_SPAWN under it, return it.
     */
    method StartTrace(operation: string, context: Context := []) returns (traceId: string)
      requires Valid()
      modifies this`clock, this`activeTraces, this`emitted, this`invocations, Sinks()
      ensures Valid()
      ensures traceId == NextTraceId(old(View()), runtime)
      ensures View() == StartSpec(old(View()), runtime, operation, context)
    {
      ghost var v0 := View();
      var r := runtime(clock);
      traceId := UniqId(TracePrefix, r);
      var entry := ActiveTrace(operation, r.time, context);
      FreshAfterInsert(runtime, clock, activeTraces, entry);
      activeTraces := activeTraces[traceId := entry];
      clock := clock + 1;
      assert View() == v0.(clock := v0.clock + 1, active := v0.active[traceId := entry]);
      assert forall h | h in handlers :: Ready(h);
      Trace(L.DEBUG, T.TASK_SPAWN, "Starting trace for: " + operation, context, Some(traceId));
    }

    /**
     * `endTrace`: an unknown id is ignored; a known one is traced as
     * DEBUG/TASK_COMPLETE with the merged context and removed.
     */
    method EndTrace(traceId: string, additionalContext: Context := [])
      requires Valid()
      modifies this`clock, this`activeTraces, this`emitted, this`invocations, Sinks()
      ensures Valid()
      ensures View() == EndSpec(old(View()), runtime, traceId, additionalContext)
    {
      if traceId !in activeTraces {
        return;
      }
      ghost var v0 := View();
      var entry := activeTraces[traceId];
      var r := runtime(clock);
      clock := clock + 1;
      var duration := r.time - entry.startTime;
      var context := Merge3(entry.context, additionalContext, [Entry("duration_ms", Float(Round2(duration * 1000.0)))]);
      assert context == CompletionContext(entry, additionalContext, DurationMs(entry, r));
      assert View() == v0.(clock := v0.clock + 1);
      Trace(L.DEBUG, T.TASK_COMPLETE, "Completed trace for: " + entry.operation, context, Some(traceId));
      ghost var v1 := View();
      assert forall h | h in handlers :: Ready(h);
      activeTraces := activeTraces - {traceId};
      assert View() == v1.(active := v1.active - {traceId});
      assert forall h | h in handlers :: Ready(h);
    }

    method GetActiveTraces() returns (traces: map<string, ActiveTrace>)
      ensures traces == activeTraces
    {
      traces := activeTraces;
    }

    /** `clearActiveTraces`: drop every entry, without completion events. */
    method ClearActiveTraces()
      requires Valid()
      modifies this`activeTraces
      ensures Valid() && activeTraces == map[]
    {
      activeTraces := map[];
    }
  }

  /**
   * Every handler object of `hs` has handled `e` once per occurrence of it in
   * `prefix`, and was otherwise left alone.
   */
  twostate predicate Delivered(hs: seq<Handler>, prefix: seq<Handler>, e: TraceEvent)
    reads set h | h in hs :: Obj(h)
  {
    forall h | h in hs :: State(h) == After(old(State(h)), h, e, Count(prefix, h))
  }

  /** Registering the id of reading `clock` keeps every later id fresh. */
  lemma FreshAfterInsert(runtime: nat -> Reading, clock: nat, active: map<string, ActiveTrace>, entry: ActiveTrace)
    requires UniqueReadings(runtime) && FreshAhead(runtime, clock, active)
    ensures FreshAhead(runtime, clock + 1, active[UniqId(TracePrefix, runtime(clock)) := entry])
  {
    forall i: nat | clock + 1 <= i
      ensures UniqId(TracePrefix, runtime(i)) != UniqId(TracePrefix, runtime(clock))
    {
      UniqIdInjective(TracePrefix, runtime(i), runtime(clock));
    }
  }
}

/** Properties of the engine's operations, stated on their specifications. */
module TracerProperties {
  import opened Results
  import opened Contexts
  import L = TraceLevels
  import T = TraceEventTypes
  import opened TraceEvents
  import opened Handlers
  import opened Tracer

  /** The arguments of one `trace` call. */
  datatype TraceCall = TraceCall(
    level: L.TraceLevel, eventType: T.TraceEventType, message: string, context: Context,
    traceId: Option<string>, taskId: Option<string>)

  /**
   * Generated ids never collide: two events built from different readings
   * of a runtime with unique readings, each with its ids left to be
   * generated, differ in their trace ids and in their task ids, and no
   * generated trace id is a generated task id.
   */
  lemma GeneratedIdsDiffer(runtime: nat -> Reading, i: nat, j: nat, c1: TraceCall, c2: TraceCall)
    requires UniqueReadings(runtime) && i != j
    ensures var e1 := NewEvent(c1.level, c1.eventType, c1.message, c1.context, None, None, runtime(i));
      var e2 := NewEvent(c2.level, c2.eventType, c2.message, c2.context, None, None, runtime(j));
      && e1.traceId != e2.traceId
      && e1.taskId != e2.taskId
      && e1.traceId != e2.taskId && e2.traceId != e1.taskId
  {
    UniqIdInjective(TracePrefix, runtime(i), runtime(j));
    UniqIdInjective(TaskPrefix, runtime(i), runtime(j));
    TraceAndTaskIdsDiffer(runtime(i), runtime(j));
    TraceAndTaskIdsDiffer(runtime(j), runtime(i));
  }

  /** An enabled `trace` call appends the event built from the next reading and stays enabled. */
  lemma TraceAppendsEvent(v: EngineView, runtime: nat -> Reading, c: TraceCall)
    requires v.enabled
    ensures var v' := TraceAll(v, runtime, [c]);
      && v'.enabled && v'.clock == v.clock + 1
      && v'.emitted == v.emitted + [NewEvent(c.level, c.eventType, c.message, c.context, c.traceId, c.taskId, runtime(v.clock))]
  {
    assert [c][1..] == [];
  }

  /** Tracing a list of calls is tracing its first part, then the rest. */
  lemma {:induction false} TraceAllAppend(v: EngineView, runtime: nat -> Reading, a: seq<TraceCall>, b: seq<TraceCall>)
    ensures TraceAll(v, runtime, a + b) == TraceAll(TraceAll(v, runtime, a), runtime, b)
    decreases |a|
  {
    if a == [] {
      assert a + b == b;
    } else {
      var c := a[0];
      assert (a + b)[0] == c && (a + b)[1..] == a[1..] + b;
      TraceAllAppend(TraceSpec(v, runtime, c.level, c.eventType, c.message, c.context, c.traceId, c.taskId), runtime, a[1..], b);
    }
  }

  /**
   * Two `trace` calls in a row on an enabled engine, each without ids,
   * emit two events with distinct generated trace ids and task ids.
   */
  lemma SuccessiveTracesGetDistinctIds(v: EngineView, runtime: nat -> Reading, c1: TraceCall, c2: TraceCall)
    requires UniqueReadings(runtime) && v.enabled
    requires c1.traceId.None? && c1.taskId.None? && c2.traceId.None? && c2.taskId.None?
    ensures var v2 := TraceAll(v, runtime, [c1, c2]);
      && |v2.emitted| == |v.emitted| + 2
      && v2.emitted[|v.emitted|].traceId != v2.emitted[|v.emitted| + 1].traceId
      && v2.emitted[|v.emitted|].taskId != v2.emitted[|v.emitted| + 1].taskId
  {
    var v2 := TraceAll(v, runtime, [c1, c2]);
    var e1 := NewEvent(c1.level, c1.eventType, c1.message, c1.context, None, None, runtime(v.clock));
    var e2 := NewEvent(c2.level, c2.eventType, c2.message, c2.context, None, None, runtime(v.clock + 1));
    assert v2.emitted == v.emitted + [e1, e2] by {
      var v1 := TraceAll(v, runtime, [c1]);
      TraceAppendsEvent(v, runtime, c1);
      TraceAppendsEvent(v1, runtime, c2);
      TraceAllAppend(v, runtime, [c1], [c2]);
      assert [c1] + [c2] == [c1, c2];
    }
    assert e1.traceId != e2.traceId && e1.taskId != e2.taskId by {
      GeneratedIdsDiffer(runtime, v.clock, v.clock + 1, c1, c2);
    }
  }

  /** `trace` called with each of `calls` in turn. */
  function TraceAll(v: EngineView, runtime: nat -> Reading, calls: seq<TraceCall>): EngineView
    decreases |calls|
  {
    if calls == [] then v
    else
      var c := calls[0];
      TraceAll(TraceSpec(v, runtime, c.level, c.eventType, c.message, c.context, c.traceId, c.taskId), runtime, calls[1..])
  }

  /**
   * One enabled `trace` call adds one event and one handler call per
   * registered handler, in list order, whether or not earlier handlers threw;
   * the handler list, the flag and the registry are untouched.
   */
  lemma TraceDispatchesToEveryHandler(
    v: EngineView, runtime: nat -> Reading, level: L.TraceLevel, eventType: T.TraceEventType,
    message: string, context: Context, traceId: Option<string>, taskId: Option<string>)
    requires v.enabled
    ensures var v' := TraceSpec(v, runtime, level, eventType, message, context, traceId, taskId);
      var e := NewEvent(level, eventType, message, context, traceId, taskId, runtime(v.clock));
      && v'.handlers == v.handlers && v'.enabled && v'.active == v.active
      && v'.emitted == v.emitted + [e]
      && |v'.invocations| == |v.invocations| + |v.handlers|
      && v'.invocations[..|v.invocations|] == v.invocations
      && forall i :: 0 <= i < |v.handlers| ==>
           v'.invocations[|v.invocations| + i] == Invocation(i, e, Raises(v.handlers[i], e))
  {
    var v' := TraceSpec(v, runtime, level, eventType, message, context, traceId, taskId);
    var e := NewEvent(level, eventType, message, context, traceId, taskId, runtime(v.clock));
    assert v'.invocations == v.invocations + Dispatch(v.handlers, e);
    forall i | 0 <= i < |v.handlers|
      ensures v'.invocations[|v.invocations| + i] == Invocation(i, e, Raises(v.handlers[i], e))
    {
      assert v'.invocations[|v.invocations| + i] == Dispatch(v.handlers, e)[i];
    }
  }

  /** While disabled, any number of `trace` calls builds no event and calls no handler. */
  lemma {:induction false} DisabledTracesAreNoops(v: EngineView, runtime: nat -> Reading, calls: seq<TraceCall>)
    requires !v.enabled
    ensures TraceAll(v, runtime, calls) == v
  {
    if calls != [] {
      DisabledTracesAreNoops(v, runtime, calls[1..]);
    }
  }

  /**
   * Once enabled, every `trace` call builds one event and calls every
   * handler once, so re-enabling restores dispatch.
   */
  lemma {:induction false} EnabledTracesDispatch(v: EngineView, runtime: nat -> Reading, calls: seq<TraceCall>)
    requires v.enabled
    ensures var v' := TraceAll(v, runtime, calls);
      && v'.enabled && v'.handlers == v.handlers && v'.active == v.active
      && |v'.emitted| == |v.emitted| + |calls|
      && |v'.invocations| == |v.invocations| + |calls| * |v.handlers|
    decreases |calls|
  {
    if calls != [] {
      var c := calls[0];
      var v1 := TraceSpec(v, runtime, c.level, c.eventType, c.message, c.context, c.traceId, c.taskId);
      EnabledTracesDispatch(v1, runtime, calls[1..]);
      assert |calls| * |v.handlers| == |v.handlers| + (|calls| - 1) * |v.handlers|;
    }
  }

  /**
   * `startTrace` adds exactly one registry entry, under an id not used
   * before, holding the operation and context; other entries are kept. The
   * registry changes even while disabled; when enabled it emits one
   * DEBUG/TASK_SPAWN event under the new id with the given context.
   */
  lemma StartTraceRegisters(v: EngineView, runtime: nat -> Reading, operation: string, context: Context)
    requires UniqueReadings(runtime) && FreshAhead(runtime, v.clock, v.active)
    ensures var id := NextTraceId(v, runtime);
      var v' := StartSpec(v, runtime, operation, context);
      && id !in v.active
      && v'.active == v.active[id := ActiveTrace(operation, runtime(v.clock).time, context)]
      && v'.active.Keys == v.active.Keys + {id}
      && (forall k | k in v.active :: k in v'.active && v'.active[k] == v.active[k])
      && v'.handlers == v.handlers && v'.enabled == v.enabled
      && FreshAhead(runtime, v'.clock, v'.active)
      && (!v.enabled ==> v'.emitted == v.emitted && v'.invocations == v.invocations)
      && (v.enabled ==>
            && |v'.emitted| == |v.emitted| + 1 && v'.emitted[..|v.emitted|] == v.emitted
            && v'.emitted[|v.emitted|].level == L.DEBUG
            && v'.emitted[|v.emitted|].eventType == T.TASK_SPAWN
            && v'.emitted[|v.emitted|].traceId == id
            && v'.emitted[|v.emitted|].context == context)
  {
    assert UniqId(TracePrefix, runtime(v.clock)) !in v.active;
    FreshAfterInsert(runtime, v.clock, v.active, ActiveTrace(operation, runtime(v.clock).time, context));
  }

  /** `endTrace` on an id that is not registered changes nothing and emits nothing. */
  lemma EndTraceUnknownIsNoop(v: EngineView, runtime: nat -> Reading, traceId: string, extra: Context)
    requires traceId !in v.active
    ensures EndSpec(v, runtime, traceId, extra) == v
  {
  }

  /** A second `endTrace` on the same id is a no-op. */
  lemma EndTraceIdempotent(v: EngineView, runtime: nat -> Reading, traceId: string, x: Context, y: Context)
    ensures var v' := EndSpec(v, runtime, traceId, x);
      traceId !in v'.active && EndSpec(v', runtime, traceId, y) == v'
  {
  }

  /**
   * The context `endTrace` reports starts with the original keys in their
   * order, takes the caller's value on every key the caller gives, keeps the
   * original value elsewhere, and always has `duration_ms`.
   */
  lemma CompletionContextMerges(entry: ActiveTrace, extra: Context, durationMs: real)
    requires WellFormed(extra)
    ensures var ctx := CompletionContext(entry, extra, durationMs);
      && Lookup(ctx, "duration_ms") == Some(Float(durationMs))
      && (forall k | k in Keys(extra) && k != "duration_ms" :: Lookup(ctx, k) == Lookup(extra, k))
      && (forall k | k !in Keys(extra) && k != "duration_ms" :: Lookup(ctx, k) == Lookup(entry.context, k))
      && |Keys(entry.context)| <= |Keys(ctx)| && Keys(ctx)[..|Keys(entry.context)|] == Keys(entry.context)
  {
    var tail := [Entry("duration_ms", Float(durationMs))];
    var ctx := CompletionContext(entry, extra, durationMs);
    KeysShape(tail);
    forall k ensures Lookup(ctx, k) ==
      if k in Keys(tail) then Lookup(tail, k) else if k in Keys(extra) then Lookup(extra, k) else Lookup(entry.context, k)
    {
      Merge3Lookup(entry.context, extra, tail, k);
    }
    var m := Merge(entry.context, extra);
    MergeKeepsOrder(entry.context, extra);
    MergeKeepsOrder(m, tail);
    assert Keys(ctx)[..|Keys(entry.context)|] == Keys(m)[..|Keys(entry.context)|];
  }

  /**
   * `endTrace` on a registered id removes that entry and no other; when
   * enabled it emits one DEBUG/TASK_COMPLETE event under the same id with
   * the merged context.
   */
  lemma EndTraceCompletes(v: EngineView, runtime: nat -> Reading, traceId: string, extra: Context)
    requires traceId in v.active
    ensures var v' := EndSpec(v, runtime, traceId, extra);
      var entry := v.active[traceId];
      && v'.active == v.active - {traceId}
      && v'.handlers == v.handlers && v'.enabled == v.enabled
      && (!v.enabled ==> v'.emitted == v.emitted && v'.invocations == v.invocations)
      && (v.enabled ==>
            && |v'.emitted| == |v.emitted| + 1 && v'.emitted[..|v.emitted|] == v.emitted
            && v'.emitted[|v.emitted|].level == L.DEBUG
            && v'.emitted[|v.emitted|].eventType == T.TASK_COMPLETE
            && v'.emitted[|v.emitted|].traceId == traceId
            && v'.emitted[|v.emitted|].context
               == CompletionContext(entry, extra, DurationMs(entry, runtime(v.clock))))
  {
  }

  /**
   * `startTrace` then `endTrace` on the returned id: the id is gone and the
   * registry is as before; when enabled exactly two events were emitted,
   * TASK_SPAWN then TASK_COMPLETE, both under that id.
   */
  lemma StartThenEnd(v: EngineView, runtime: nat -> Reading, operation: string, context: Context, extra: Context)
    requires UniqueReadings(runtime) && FreshAhead(runtime, v.clock, v.active)
    ensures var id := NextTraceId(v, runtime);
      var v' := EndSpec(StartSpec(v, runtime, operation, context), runtime, id, extra);
      && id !in v'.active && v'.active == v.active
      && (v.enabled ==>
            && |v'.emitted| == |v.emitted| + 2 && v'.emitted[..|v.emitted|] == v.emitted
            && v'.emitted[|v.emitted|].eventType == T.TASK_SPAWN
            && v'.emitted[|v.emitted| + 1].eventType == T.TASK_COMPLETE
            && v'.emitted[|v.emitted|].traceId == id && v'.emitted[|v.emitted| + 1].traceId == id)
  {
    var id := NextTraceId(v, runtime);
    StartTraceRegisters(v, runtime, operation, context);
    var v1 := StartSpec(v, runtime, operation, context);
    assert id in v1.active;
    assert v1.active - {id} == v.active;
  }
}
