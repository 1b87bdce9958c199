/**
 * `traceGenerator`: a generator that drives a wrapped generator and traces
 * every step. The wrapped generator is a finite list of values followed by
 * a return value or an exception. The wrapper is a state machine: `Resume`
 * says, without reference to the engine, what one resumption of its body
 * hands the consumer, where it stops, and which tracer calls it makes;
 * `Perform` says what those calls do to the engine.
 */
module TracedGenerators {
  import opened Results
  import opened Contexts
  import L = TraceLevels
  import T = TraceEventTypes
  import opened TraceEvents
  import opened Handlers
  import opened Tracer
  import opened TracerProperties

  /** What a PHP `Throwable` carries into the error event. */
  datatype Throwable = Throwable(message: string, file: string, line: int)

  /** How the wrapped generator ends once its values are used up. */
  datatype Completion = Returns(result: Value) | Raises(error: Throwable)

  /** The wrapped generator: the values it yields, in order, then its completion. */
  datatype Producer = Producer(values: seq<Value>, completion: Completion)

  /** What the consumer sees from one resumption of the wrapper. */
  datatype Step =
    | Yield(value: Value)
    | Return(result: Value)
    | Throw(error: Throwable)
    | Done    // resuming a finished generator does nothing

  /**
   * Where the wrapper's body is: not yet run, suspended at the `yield` of
   * step `pos` of trace `traceId`, or finished.
   */
  datatype GenState = NotStarted | Suspended(traceId: string, pos: nat) | Finished

  /** The tracer calls the body makes under its trace id. */
  datatype Call =
    | YieldTrace(step: nat, current: Value)       // DEBUG/TASK_YIELD for one step
    | ErrorTrace(error: Throwable, steps: nat)    // ERROR/TASK_ERROR from the `catch` block
    | Complete(extra: Context)                    // `endTrace` with the body's extra context

  /** One resumption of the body: what the consumer sees, where it stops, the calls it makes. */
  datatype Resumption = Resumption(step: Step, state: GenState, calls: seq<Call>)

  function DigitChar(d: nat): (c: char)
    requires d < 10
    ensures '0' <= c <= '9' && (c == '0' <==> d == 0)
  {
    "0123456789"[d]
  }

  /** PHP's interpolation of a non-negative integer. */
  function NatToString(n: nat): string
    decreases n
  {
    if n < 10 then [DigitChar(n)] else NatToString(n / 10) + [DigitChar(n % 10)]
  }

  /** The decimal form is a non-empty string of digits, with a leading zero only for zero. */
  lemma {:induction false} NatToStringDigits(n: nat)
    ensures var r := NatToString(n);
      && |r| > 0 && (forall i :: 0 <= i < |r| ==> '0' <= r[i] <= '9')
      && (r[0] == '0' <==> n == 0)
    decreases n
  {
    if n >= 10 {
      NatToStringDigits(n / 10);
    }
  }

  /** The context of the YIELD event of a step. */
  function YieldContext(step: nat, current: Value): Context
  {
    [Entry("step", Int(step)), Entry("current", current)]
  }

  /** The context of the ERROR event. */
  function ErrorContext(error: Throwable, step: nat): Context
  {
    [Entry("error", Str(error.message)), Entry("file", Str(error.file)), Entry("line", Int(error.line)),
     Entry("step", Int(step))]
  }

  /** The extra context of the completion after normal exhaustion. */
  function DoneContext(steps: nat): Context
  {
    [Entry("total_steps", Int(steps))]
  }

  /** The extra context of the completion after a failure. */
  function FailedContext(steps: nat): Context
  {
    [Entry("error", Bool(true)), Entry("total_steps", Int(steps))]
  }

  /** The `catch` block's calls: trace the error, then end the trace with the error flag. */
  function FailureCalls(error: Throwable, steps: nat): seq<Call>
  {
    [ErrorTrace(error, steps), Complete(FailedContext(steps))]
  }

  /** What one tracer call of the body does to the engine. */
  function Perform(v: EngineView, runtime: nat -> Reading, op: string, id: string, c: Call): EngineView
  {
    match c
    case YieldTrace(step, current) =>
      TraceSpec(v, runtime, L.DEBUG, T.TASK_YIELD, "Generator step " + NatToString(step) + " for: " + op,
        YieldContext(step, current), Some(id), None)
    case ErrorTrace(error, steps) =>
      TraceSpec(v, runtime, L.ERROR, T.TASK_ERROR, "Generator error in: " + op, ErrorContext(error, steps), Some(id), None)
    case Complete(extra) =>
      EndSpec(v, runtime, id, extra)
  }

  /** The calls one after the other. */
  function PerformAll(v: EngineView, runtime: nat -> Reading, op: string, id: string, calls: seq<Call>): EngineView
    decreases |calls|
  {
    if calls == [] then v else PerformAll(Perform(v, runtime, op, id, calls[0]), runtime, op, id, calls[1..])
  }

  lemma {:induction false} PerformAllAppend(v: EngineView, runtime: nat -> Reading, op: string, id: string, a: seq<Call>, b: seq<Call>)
    ensures PerformAll(v, runtime, op, id, a + b) == PerformAll(PerformAll(v, runtime, op, id, a), runtime, op, id, b)
    decreases |a|
  {
    if a == [] {
      assert a + b == b;
    } else {
      assert (a + b)[0] == a[0] && (a + b)[1..] == a[1..] + b;
      PerformAllAppend(Perform(v, runtime, op, id, a[0]), runtime, op, id, a[1..], b);
    }
  }

  /** Performing the two calls of a failure is the error event, then `endTrace`. */
  lemma PerformFailure(v: EngineView, runtime: nat -> Reading, op: string, id: string, error: Throwable, steps: nat)
    ensures PerformAll(v, runtime, op, id, FailureCalls(error, steps))
      == Perform(Perform(v, runtime, op, id, ErrorTrace(error, steps)), runtime, op, id, Complete(FailedContext(steps)))
  {
    var cs := FailureCalls(error, steps);
    var w := Perform(v, runtime, op, id, cs[0]);
    assert cs[1..] == [Complete(FailedContext(steps))] && cs[1..][1..] == [];
    calc {
      PerformAll(v, runtime, op, id, cs);
      PerformAll(w, runtime, op, id, cs[1..]);
      PerformAll(Perform(w, runtime, op, id, cs[1..][0]), runtime, op, id, cs[1..][1..]);
    }
  }

  /** How the wrapped generator's end reaches the consumer. */
  function Final(g: Producer): Step
  {
    match g.completion
    case Returns(r) => Return(r)
    case Raises(err) => Throw(err)
  }

  /**
   * Which body: `AsWritten` advances the wrapped generator with `next()`
   * before it yields the value fetched, so an exception raised by that
   * advance reaches the consumer before the value does; `Intended` yields
   * first and advances when resumed.
   */
  datatype Body = AsWritten | Intended

  /** The states the body can be suspended in. */
  ghost predicate Reachable(body: Body, g: Producer, s: GenState)
  {
    s.Suspended? ==> 1 <= s.pos <= |g.values| && (body.AsWritten? && s.pos == |g.values| ==> g.completion.Returns?)
  }

  /**
   * The body resumed with `pos` steps taken (the `try` block from the loop
   * test, or from just after the last `yield`, up to the next suspension).
   * Both bodies trace each step before yielding it; exhaustion ends the
   * trace with the step count and returns the wrapped generator's return
   * value; an exception is traced, ends the trace with the error flag and is
   * rethrown.
   */
  function Resume(body: Body, g: Producer, id: string, pos: nat): (t: Resumption)
    requires pos <= |g.values|
    ensures Reachable(body, g, t.state)
    ensures t.state.Suspended? <==> pos < |g.values| && !(body.AsWritten? && pos + 1 == |g.values| && g.completion.Raises?)
    ensures t.state.Suspended? ==> t.state == Suspended(id, pos + 1)
    ensures t.step == if t.state.Suspended? then Yield(g.values[pos]) else Final(g)
  {
    var n := |g.values|;
    if pos < n then
      var c := YieldTrace(pos + 1, g.values[pos]);
      if body.AsWritten? && pos + 1 == n && g.completion.Raises? then
        Resumption(Throw(g.completion.error), Finished, [c] + FailureCalls(g.completion.error, n))
      else Resumption(Yield(g.values[pos]), Suspended(id, pos + 1), [c])
    else
      match g.completion
      case Returns(r) => Resumption(Return(r), Finished, [Complete(DoneContext(n))])
      case Raises(err) => Resumption(Throw(err), Finished, FailureCalls(err, n))
  }

  /** One resumption on the engine: what the consumer sees, where the body stops, the engine after. */
  datatype Transition = Transition(step: Step, state: GenState, view: EngineView)

  /**
   * One resumption of the generator object: the first starts the trace and
   * runs the body from the top; a finished generator does nothing.
   */
  function NextSpec(body: Body, v: EngineView, runtime: nat -> Reading, g: Producer, op: string, context: Context, s: GenState): Transition
    requires Reachable(body, g, s)
  {
    match s
    case NotStarted =>
      var id := NextTraceId(v, runtime);
      var t := Resume(body, g, id, 0);
      Transition(t.step, t.state, PerformAll(StartSpec(v, runtime, op, context), runtime, op, id, t.calls))
    case Suspended(id, pos) =>
      var t := Resume(body, g, id, pos);
      Transition(t.step, t.state, PerformAll(v, runtime, op, id, t.calls))
    case Finished => Transition(Done, Finished, v)
  }

  /** A bound on the resumptions left before the generator finishes. */
  function Remaining(g: Producer, s: GenState): nat
  {
    match s
    case NotStarted => |g.values| + 2
    case Suspended(_, pos) => if pos <= |g.values| then |g.values| - pos + 1 else 0
    case Finished => 0
  }

  /** A consumer's whole run: what it saw, and the engine after. */
  datatype Outcome = Outcome(steps: seq<Step>, view: EngineView)

  /** Resume the generator until it is finished (as `foreach` followed by `getReturn` does). */
  function Drive(body: Body, v: EngineView, runtime: nat -> Reading, g: Producer, op: string, context: Context, s: GenState): Outcome
    requires Reachable(body, g, s)
    decreases Remaining(g, s)
  {
    if s.Finished? then Outcome([], v)
    else
      var t := NextSpec(body, v, runtime, g, op, context, s);
      var r := Drive(body, t.view, runtime, g, op, context, t.state);
      Outcome([t.step] + r.steps, r.view)
  }

  /** The body run from `pos` steps taken to its end, apart from the engine. */
  datatype Run = Run(steps: seq<Step>, calls: seq<Call>)

  function RunFrom(body: Body, g: Producer, id: string, pos: nat): Run
    requires pos <= |g.values|
    decreases |g.values| - pos
  {
    var t := Resume(body, g, id, pos);
    if t.state.Suspended? then
      var r := RunFrom(body, g, id, pos + 1);
      Run([t.step] + r.steps, t.calls + r.calls)
    else Run([t.step], t.calls)
  }

  /** Driving the generator from a suspension is running its body and performing the calls. */
  lemma {:induction false} DriveFrom(body: Body, v: EngineView, runtime: nat -> Reading, g: Producer, op: string, context: Context, id: string, pos: nat)
    requires Reachable(body, g, Suspended(id, pos))
    ensures var r := RunFrom(body, g, id, pos);
      Drive(body, v, runtime, g, op, context, Suspended(id, pos)) == Outcome(r.steps, PerformAll(v, runtime, op, id, r.calls))
    decreases |g.values| - pos
  {
    var t := Resume(body, g, id, pos);
    var w := PerformAll(v, runtime, op, id, t.calls);
    if t.state.Suspended? {
      DriveFrom(body, w, runtime, g, op, context, id, pos + 1);
      PerformAllAppend(v, runtime, op, id, t.calls, RunFrom(body, g, id, pos + 1).calls);
    }
  }

  /**
   * Driving a fresh generator: `startTrace`, then the body from the top with
   * the id it returned.
   */
  lemma DriveRuns(body: Body, v: EngineView, runtime: nat -> Reading, g: Producer, op: string, context: Context)
    ensures var id := NextTraceId(v, runtime);
      var r := RunFrom(body, g, id, 0);
      Drive(body, v, runtime, g, op, context, NotStarted)
        == Outcome(r.steps, PerformAll(StartSpec(v, runtime, op, context), runtime, op, id, r.calls))
  {
    var id := NextTraceId(v, runtime);
    var t := Resume(body, g, id, 0);
    var w := PerformAll(StartSpec(v, runtime, op, context), runtime, op, id, t.calls);
    if t.state.Suspended? {
      DriveFrom(body, w, runtime, g, op, context, id, 1);
      PerformAllAppend(StartSpec(v, runtime, op, context), runtime, op, id, t.calls, RunFrom(body, g, id, 1).calls);
    }
  }

  /** The steps a consumer sees when every value comes through. */
  function Yields(values: seq<Value>): (r: seq<Step>)
    ensures |r| == |values| && forall i :: 0 <= i < |values| ==> r[i] == Yield(values[i])
  {
    if values == [] then [] else [Yield(values[0])] + Yields(values[1..])
  }

  lemma YieldsCons(x: Value, later: seq<Value>, last: Step)
    ensures [Yield(x)] + (Yields(later) + [last]) == Yields([x] + later) + [last]
  {
    assert ([x] + later)[1..] == later;
  }

  /** From `pos` steps on, the intended body passes on every remaining value. */
  lemma {:induction false} IntendedStepsFrom(g: Producer, id: string, pos: nat)
    requires pos <= |g.values|
    ensures RunFrom(Intended, g, id, pos).steps == Yields(g.values[pos..]) + [Final(g)]
    decreases |g.values| - pos
  {
    if pos < |g.values| {
      IntendedStepsFrom(g, id, pos + 1);
      assert g.values[pos..] == [g.values[pos]] + g.values[pos + 1..];
      YieldsCons(g.values[pos], g.values[pos + 1..], Final(g));
    }
  }

  /**
   * Transparency: driven to the end, the intended generator hands the
   * consumer every value of the wrapped generator in order, then its return
   * value or its exception.
   */
  lemma IntendedIsTransparent(v: EngineView, runtime: nat -> Reading, g: Producer, op: string, context: Context)
    ensures Drive(Intended, v, runtime, g, op, context, NotStarted).steps == Yields(g.values) + [Final(g)]
  {
    DriveRuns(Intended, v, runtime, g, op, context);
    IntendedStepsFrom(g, NextTraceId(v, runtime), 0);
    assert g.values[0..] == g.values;
  }

  /**
   * From `pos` steps on, as written, for a wrapped generator that throws: the
   * throw overtakes the last value.
   */
  lemma {:induction false} AsWrittenRaisesFrom(g: Producer, id: string, pos: nat)
    requires g.completion.Raises? && pos < |g.values|
    ensures RunFrom(AsWritten, g, id, pos).steps == Yields(g.values[pos..|g.values| - 1]) + [Final(g)]
    decreases |g.values| - pos
  {
    var n := |g.values|;
    if pos + 1 < n {
      AsWrittenRaisesFrom(g, id, pos + 1);
      assert g.values[pos..n - 1] == [g.values[pos]] + g.values[pos + 1..n - 1];
      YieldsCons(g.values[pos], g.values[pos + 1..n - 1], Final(g));
    } else {
      assert g.values[pos..n - 1] == [];
    }
  }

  /** For a wrapped generator that returns, the two bodies are the same. */
  lemma {:induction false} AsWrittenReturnsFrom(g: Producer, id: string, pos: nat)
    requires g.completion.Returns? && pos <= |g.values|
    ensures RunFrom(AsWritten, g, id, pos) == RunFrom(Intended, g, id, pos)
    decreases |g.values| - pos
  {
    if pos < |g.values| {
      AsWrittenReturnsFrom(g, id, pos + 1);
    }
  }

  /**
   * The source as written: when the wrapped generator throws after yielding
   * `k >= 1` values, the consumer receives only the first `k - 1` before the
   * exception; the last value is lost.
   */
  lemma AsWrittenDropsLastValue(v: EngineView, runtime: nat -> Reading, g: Producer, op: string, context: Context)
    ensures var passed := if g.completion.Raises? && |g.values| > 0 then g.values[..|g.values| - 1] else g.values;
      Drive(AsWritten, v, runtime, g, op, context, NotStarted).steps == Yields(passed) + [Final(g)]
  {
    var id := NextTraceId(v, runtime);
    DriveRuns(AsWritten, v, runtime, g, op, context);
    if g.completion.Raises? && |g.values| > 0 {
      AsWrittenRaisesFrom(g, id, 0);
      assert g.values[0..|g.values| - 1] == g.values[..|g.values| - 1];
    } else if g.completion.Raises? {
      assert RunFrom(AsWritten, g, id, 0).steps == [Final(g)];
    } else {
      AsWrittenReturnsFrom(g, id, 0);
      IntendedStepsFrom(g, id, 0);
      assert g.values[0..] == g.values;
    }
  }

  /** A wrapped generator that yields one value and then throws: as written, its value never arrives. */
  lemma AsWrittenCounterexample(v: EngineView, runtime: nat -> Reading, op: string, context: Context, err: Throwable)
    ensures var g := Producer([Int(1)], Raises(err));
      && Drive(AsWritten, v, runtime, g, op, context, NotStarted).steps == [Throw(err)]
      && Drive(Intended, v, runtime, g, op, context, NotStarted).steps == [Yield(Int(1)), Throw(err)]
  {
    var g := Producer([Int(1)], Raises(err));
    AsWrittenDropsLastValue(v, runtime, g, op, context);
    IntendedIsTransparent(v, runtime, g, op, context);
  }

  /** The calls for steps `first`, `first + 1`, ... with their values. */
  function YieldCalls(values: seq<Value>, first: nat): (r: seq<Call>)
    ensures |r| == |values| && forall i :: 0 <= i < |values| ==> r[i] == YieldTrace(first + i, values[i])
    decreases |values|
  {
    if values == [] then [] else [YieldTrace(first, values[0])] + YieldCalls(values[1..], first + 1)
  }

  /** The calls that close the trace. */
  function Closing(g: Producer): seq<Call>
  {
    match g.completion
    case Returns(_) => [Complete(DoneContext(|g.values|))]
    case Raises(err) => FailureCalls(err, |g.values|)
  }

  /**
   * From `pos` steps on, the intended body traces one step per remaining
   * value, numbered on from `pos + 1`, then closes the trace.
   */
  lemma {:induction false} IntendedCallsFrom(g: Producer, id: string, pos: nat)
    requires pos <= |g.values|
    ensures RunFrom(Intended, g, id, pos).calls == YieldCalls(g.values[pos..], pos + 1) + Closing(g)
    decreases |g.values| - pos
  {
    if pos < |g.values| {
      IntendedCallsFrom(g, id, pos + 1);
      assert g.values[pos..][1..] == g.values[pos + 1..];
    }
  }

  /** Both bodies make the same tracer calls: the lost value still has its YIELD event. */
  lemma {:induction false} SameCallsFrom(g: Producer, id: string, pos: nat)
    requires pos <= |g.values| && (pos == |g.values| ==> g.completion.Returns? || pos == 0)
    ensures RunFrom(AsWritten, g, id, pos).calls == RunFrom(Intended, g, id, pos).calls
    decreases |g.values| - pos
  {
    var a := Resume(AsWritten, g, id, pos);
    if a.state.Suspended? {
      SameCallsFrom(g, id, pos + 1);
    } else if pos < |g.values| {
      assert RunFrom(Intended, g, id, pos + 1).calls == FailureCalls(g.completion.error, |g.values|);
    }
  }

  /**
   * The calls of a whole run: one YIELD per value of the wrapped generator,
   * numbered from 1, then the closing calls; the body as written makes the
   * same calls.
   */
  lemma RunCalls(g: Producer, id: string)
    ensures RunFrom(Intended, g, id, 0).calls == YieldCalls(g.values, 1) + Closing(g)
    ensures RunFrom(AsWritten, g, id, 0).calls == RunFrom(Intended, g, id, 0).calls
  {
    IntendedCallsFrom(g, id, 0);
    assert g.values[0..] == g.values;
    SameCallsFrom(g, id, 0);
  }

  /** The DEBUG/TASK_YIELD event of step `step` under trace `id`. */
  predicate IsYieldEvent(e: TraceEvent, op: string, id: string, step: nat, current: Value)
  {
    && e.level == L.DEBUG && e.eventType == T.TASK_YIELD && e.traceId == id
    && e.message == "Generator step " + NatToString(step) + " for: " + op
    && e.context == YieldContext(step, current)
  }

  /** Performing one YIELD call: one YIELD event when enabled, the registry untouched. */
  lemma YieldPerformed(v: EngineView, runtime: nat -> Reading, op: string, id: string, step: nat, current: Value)
    ensures var w := Perform(v, runtime, op, id, YieldTrace(step, current));
      && w.active == v.active && w.enabled == v.enabled && w.handlers == v.handlers
      && (!v.enabled ==> w == v)
      && (v.enabled ==>
            && |w.emitted| == |v.emitted| + 1 && w.emitted[..|v.emitted|] == v.emitted
            && IsYieldEvent(w.emitted[|v.emitted|], op, id, step, current))
  {
  }

  /** Performing the YIELD calls appends one YIELD event per value and leaves the registry alone. */
  lemma {:induction false} YieldCallsPerformed(v: EngineView, runtime: nat -> Reading, op: string, id: string, values: seq<Value>, first: nat)
    ensures var r := PerformAll(v, runtime, op, id, YieldCalls(values, first));
      && r.active == v.active && r.enabled == v.enabled && r.handlers == v.handlers
      && (!v.enabled ==> r.emitted == v.emitted && r.invocations == v.invocations)
      && (v.enabled ==>
            && |r.emitted| == |v.emitted| + |values| && r.emitted[..|v.emitted|] == v.emitted
            && forall i :: 0 <= i < |values| ==> IsYieldEvent(r.emitted[|v.emitted|..][i], op, id, first + i, values[i]))
    decreases |values|
  {
    if values != [] {
      var cs := YieldCalls(values, first);
      var w := Perform(v, runtime, op, id, cs[0]);
      var r := PerformAll(w, runtime, op, id, cs[1..]);
      assert cs[0] == YieldTrace(first, values[0]) && cs[1..] == YieldCalls(values[1..], first + 1);
      assert PerformAll(v, runtime, op, id, cs) == r;
      YieldPerformed(v, runtime, op, id, first, values[0]);
      YieldCallsPerformed(w, runtime, op, id, values[1..], first + 1);
      if v.enabled {
        YieldEventsExtend(v.emitted, w.emitted, r.emitted, op, id, first, values);
      }
    }
  }

  /** One YIELD event in front of the YIELD events of the later values. */
  lemma YieldEventsExtend(a: seq<TraceEvent>, b: seq<TraceEvent>, c: seq<TraceEvent>, op: string, id: string, first: nat, values: seq<Value>)
    requires values != [] && |b| == |a| + 1 && b[..|a|] == a && IsYieldEvent(b[|a|], op, id, first, values[0])
    requires |c| == |b| + |values| - 1 && c[..|b|] == b
    requires forall i :: 0 <= i < |values| - 1 ==> IsYieldEvent(c[|b|..][i], op, id, first + 1 + i, values[1..][i])
    ensures |c| == |a| + |values| && c[..|a|] == a
    ensures forall i :: 0 <= i < |values| ==> IsYieldEvent(c[|a|..][i], op, id, first + i, values[i])
  {
    assert c[..|a|] == c[..|b|][..|a|];
    forall i | 0 <= i < |values|
      ensures IsYieldEvent(c[|a|..][i], op, id, first + i, values[i])
    {
      if i == 0 {
        assert c[|a|..][0] == c[..|b|][|a|];
      } else {
        assert c[|a|..][i] == c[|b|..][i - 1];
      }
    }
  }

  /**
   * The events that close the trace of a wrapped generator: the error event
   * if it threw, then TASK_COMPLETE carrying the step count (and the error
   * flag if it threw).
   */
  predicate IsClosing(es: seq<TraceEvent>, g: Producer, op: string, id: string)
  {
    var n := |g.values|;
    match g.completion
    case Returns(_) =>
      && |es| == 1
      && es[0].eventType == T.TASK_COMPLETE && es[0].traceId == id
      && Lookup(es[0].context, "total_steps") == Some(Int(n))
    case Raises(err) =>
      && |es| == 2
      && es[0].level == L.ERROR && es[0].eventType == T.TASK_ERROR && es[0].traceId == id
      && es[0].message == "Generator error in: " + op
      && es[0].context == ErrorContext(err, n)
      && es[1].eventType == T.TASK_COMPLETE && es[1].traceId == id
      && Lookup(es[1].context, "total_steps") == Some(Int(n))
      && Lookup(es[1].context, "error") == Some(Bool(true))
  }

  /** What the failed completion context holds. */
  lemma FailedContextHolds(n: nat)
    ensures Keys(FailedContext(n)) == ["error", "total_steps"]
    ensures Lookup(FailedContext(n), "error") == Some(Bool(true))
    ensures Lookup(FailedContext(n), "total_steps") == Some(Int(n))
    ensures WellFormed(FailedContext(n))
  {
    var c := FailedContext(n);
    assert "error"[0] != "total_steps"[0];
    assert c[1..] == [Entry("total_steps", Int(n))] && c[1..][1..] == [];
    assert Keys(c[1..]) == ["total_steps"];
  }

  /** The TASK_COMPLETE event of `endTrace` carries the merged completion context. */
  lemma CompleteEvent(w: EngineView, runtime: nat -> Reading, id: string, extra: Context)
    requires id in w.active && w.enabled
    ensures var r := EndSpec(w, runtime, id, extra);
      && |r.emitted| == |w.emitted| + 1
      && r.emitted[|w.emitted|].context
         == CompletionContext(w.active[id], extra, DurationMs(w.active[id], runtime(w.clock)))
  {
    EndTraceCompletes(w, runtime, id, extra);
  }

  /** A key the caller passes to `endTrace` (other than `duration_ms`) keeps the caller's value. */
  lemma CompletionCarries(entry: ActiveTrace, extra: Context, durationMs: real, k: string)
    requires WellFormed(extra) && k in Keys(extra) && k != "duration_ms"
    ensures Lookup(CompletionContext(entry, extra, durationMs), k) == Lookup(extra, k)
  {
    CompletionContextMerges(entry, extra, durationMs);
  }

  /** The closing event of a wrapped generator that returns, from the context `endTrace` builds. */
  lemma ReturnClosingShape(es: seq<TraceEvent>, g: Producer, op: string, id: string, entry: ActiveTrace, durationMs: real)
    requires g.completion.Returns? && |es| == 1
    requires es[0].eventType == T.TASK_COMPLETE && es[0].traceId == id
    requires es[0].context == CompletionContext(entry, DoneContext(|g.values|), durationMs)
    ensures IsClosing(es, g, op, id)
  {
    assert Keys(DoneContext(|g.values|)) == ["total_steps"];
    CompletionCarries(entry, DoneContext(|g.values|), durationMs, "total_steps");
  }

  /** The closing events of a wrapped generator that throws, from the context `endTrace` builds. */
  lemma RaiseClosingShape(es: seq<TraceEvent>, g: Producer, op: string, id: string, entry: ActiveTrace, durationMs: real)
    requires g.completion.Raises? && |es| == 2
    requires es[0].level == L.ERROR && es[0].eventType == T.TASK_ERROR && es[0].traceId == id
    requires es[0].message == "Generator error in: " + op
    requires es[0].context == ErrorContext(g.completion.error, |g.values|)
    requires es[1].eventType == T.TASK_COMPLETE && es[1].traceId == id
    requires es[1].context == CompletionContext(entry, FailedContext(|g.values|), durationMs)
    ensures IsClosing(es, g, op, id)
  {
    FailedContextHolds(|g.values|);
    assert "error" != "duration_ms" && "total_steps" != "duration_ms";
    CompletionCarries(entry, FailedContext(|g.values|), durationMs, "error");
    CompletionCarries(entry, FailedContext(|g.values|), durationMs, "total_steps");
  }

  /** Exhaustion of a wrapped generator that returns: TASK_COMPLETE with the step count. */
  lemma ReturnCloses(v: EngineView, runtime: nat -> Reading, g: Producer, op: string, id: string)
    requires id in v.active && v.enabled && g.completion.Returns?
    ensures var r := EndSpec(v, runtime, id, DoneContext(|g.values|));
      |v.emitted| <= |r.emitted| && r.emitted[..|v.emitted|] == v.emitted && IsClosing(r.emitted[|v.emitted|..], g, op, id)
  {
    var n := |g.values|;
    var r := EndSpec(v, runtime, id, DoneContext(n));
    var entry := v.active[id];
    var durationMs := DurationMs(entry, runtime(v.clock));
    var es := r.emitted[|v.emitted|..];
    assert
      && |v.emitted| <= |r.emitted| && r.emitted[..|v.emitted|] == v.emitted && |es| == 1
      && es[0].eventType == T.TASK_COMPLETE && es[0].traceId == id
      && es[0].context == CompletionContext(entry, DoneContext(n), durationMs)
    by {
      EndTraceCompletes(v, runtime, id, DoneContext(n));
      CompleteEvent(v, runtime, id, DoneContext(n));
    }
    ReturnClosingShape(es, g, op, id, entry, durationMs);
  }

  /** A wrapped generator that throws: the ERROR event, then TASK_COMPLETE with the error flag and step count. */
  lemma RaiseCloses(v: EngineView, runtime: nat -> Reading, g: Producer, op: string, id: string)
    requires id in v.active && v.enabled && g.completion.Raises?
    ensures var r := PerformAll(v, runtime, op, id, FailureCalls(g.completion.error, |g.values|));
      |v.emitted| <= |r.emitted| && r.emitted[..|v.emitted|] == v.emitted && IsClosing(r.emitted[|v.emitted|..], g, op, id)
  {
    var n := |g.values|;
    var err := g.completion.error;
    var v1 := TraceSpec(v, runtime, L.ERROR, T.TASK_ERROR, "Generator error in: " + op, ErrorContext(err, n), Some(id), None);
    var r := EndSpec(v1, runtime, id, FailedContext(n));
    PerformFailure(v, runtime, op, id, err, n);
    var entry := v.active[id];
    var durationMs := DurationMs(entry, runtime(v1.clock));
    var es := r.emitted[|v.emitted|..];
    assert
      && |v.emitted| <= |r.emitted| && r.emitted[..|v.emitted|] == v.emitted && |es| == 2
      && es[0].level == L.ERROR && es[0].eventType == T.TASK_ERROR && es[0].traceId == id
      && es[0].message == "Generator error in: " + op && es[0].context == ErrorContext(err, n)
      && es[1].eventType == T.TASK_COMPLETE && es[1].traceId == id
      && es[1].context == CompletionContext(entry, FailedContext(n), durationMs)
    by {
      assert v1.active == v.active;
      EndTraceCompletes(v1, runtime, id, FailedContext(n));
      CompleteEvent(v1, runtime, id, FailedContext(n));
      var e1 := v1.emitted[|v.emitted|];
      var e2 := r.emitted[|v1.emitted|];
      assert e1 == NewEvent(L.ERROR, T.TASK_ERROR, "Generator error in: " + op, ErrorContext(err, n), Some(id), None, runtime(v.clock));
      assert es == [e1, e2];
    }
    RaiseClosingShape(es, g, op, id, entry, durationMs);
  }

  /** Performing the closing calls: the closing events, and the trace leaves the registry. */
  lemma ClosingPerformed(v: EngineView, runtime: nat -> Reading, g: Producer, op: string, id: string)
    requires id in v.active
    ensures var r := PerformAll(v, runtime, op, id, Closing(g));
      && r.active == v.active - {id} && r.enabled == v.enabled && r.handlers == v.handlers
      && (!v.enabled ==> r.emitted == v.emitted && r.invocations == v.invocations)
      && (v.enabled ==>
            && |v.emitted| <= |r.emitted| && r.emitted[..|v.emitted|] == v.emitted
            && IsClosing(r.emitted[|v.emitted|..], g, op, id))
  {
    var n := |g.values|;
    match g.completion {
      case Returns(_) =>
        assert PerformAll(v, runtime, op, id, Closing(g)) == EndSpec(v, runtime, id, DoneContext(n));
        EndTraceCompletes(v, runtime, id, DoneContext(n));
        if v.enabled {
          ReturnCloses(v, runtime, g, op, id);
        }
      case Raises(err) =>
        var v1 := TraceSpec(v, runtime, L.ERROR, T.TASK_ERROR, "Generator error in: " + op, ErrorContext(err, n), Some(id), None);
        PerformFailure(v, runtime, op, id, err, n);
        EndTraceCompletes(v1, runtime, id, FailedContext(n));
        if v.enabled {
          RaiseCloses(v, runtime, g, op, id);
        }
    }
  }

  /** The engine after a whole run: `startTrace`, the YIELD calls, the closing calls, for either body. */
  lemma DriveView(body: Body, v: EngineView, runtime: nat -> Reading, g: Producer, op: string, context: Context)
    ensures var id := NextTraceId(v, runtime);
      Drive(body, v, runtime, g, op, context, NotStarted).view
        == PerformAll(PerformAll(StartSpec(v, runtime, op, context), runtime, op, id, YieldCalls(g.values, 1)), runtime, op, id, Closing(g))
  {
    var id := NextTraceId(v, runtime);
    DriveRuns(body, v, runtime, g, op, context);
    RunCalls(g, id);
    PerformAllAppend(StartSpec(v, runtime, op, context), runtime, op, id, YieldCalls(g.values, 1), Closing(g));
  }

  /** The events of a whole run, performed from the start. */
  lemma SessionEvents(v: EngineView, runtime: nat -> Reading, g: Producer, op: string, context: Context)
    requires UniqueReadings(runtime) && FreshAhead(runtime, v.clock, v.active)
    ensures var id := NextTraceId(v, runtime);
      var n := |g.values|;
      var r := PerformAll(PerformAll(StartSpec(v, runtime, op, context), runtime, op, id, YieldCalls(g.values, 1)), runtime, op, id, Closing(g));
      && id !in v.active && r.active == v.active && r.enabled == v.enabled && r.handlers == v.handlers
      && (!v.enabled ==> r.emitted == v.emitted && r.invocations == v.invocations)
      && (v.enabled ==>
            && |v.emitted| + 1 + n <= |r.emitted| && r.emitted[..|v.emitted|] == v.emitted
            && r.emitted[|v.emitted|].eventType == T.TASK_SPAWN
            && r.emitted[|v.emitted|].traceId == id && r.emitted[|v.emitted|].context == context
            && (forall i :: 0 <= i < n ==> IsYieldEvent(r.emitted[|v.emitted| + 1..][i], op, id, i + 1, g.values[i]))
            && IsClosing(r.emitted[|v.emitted| + 1 + n..], g, op, id))
  {
    var id := NextTraceId(v, runtime);
    var n := |g.values|;
    var w := StartSpec(v, runtime, op, context);
    var w2 := PerformAll(w, runtime, op, id, YieldCalls(g.values, 1));
    var r := PerformAll(w2, runtime, op, id, Closing(g));
    StartTraceRegisters(v, runtime, op, context);
    YieldCallsPerformed(w, runtime, op, id, g.values, 1);
    ClosingPerformed(w2, runtime, g, op, id);
    assert w.active - {id} == v.active;
    if v.enabled {
      SessionShape(v.emitted, w.emitted, w2.emitted, r.emitted, g, op, id, context);
    }
  }

  /** The events of a run in order: the spawn event, the YIELD events, the closing events. */
  lemma SessionShape(a: seq<TraceEvent>, b: seq<TraceEvent>, c: seq<TraceEvent>, d: seq<TraceEvent>, g: Producer, op: string, id: string, context: Context)
    requires |b| == |a| + 1 && b[..|a|] == a
    requires b[|a|].eventType == T.TASK_SPAWN && b[|a|].traceId == id && b[|a|].context == context
    requires |c| == |b| + |g.values| && c[..|b|] == b
    requires forall i :: 0 <= i < |g.values| ==> IsYieldEvent(c[|b|..][i], op, id, 1 + i, g.values[i])
    requires |c| <= |d| && d[..|c|] == c && IsClosing(d[|c|..], g, op, id)
    ensures |a| + 1 + |g.values| <= |d| && d[..|a|] == a
    ensures d[|a|].eventType == T.TASK_SPAWN && d[|a|].traceId == id && d[|a|].context == context
    ensures forall i :: 0 <= i < |g.values| ==> IsYieldEvent(d[|a| + 1..][i], op, id, i + 1, g.values[i])
    ensures IsClosing(d[|a| + 1 + |g.values|..], g, op, id)
  {
    assert d[..|b|] == d[..|c|][..|b|];
    assert d[..|a|] == d[..|b|][..|a|];
    assert d[|a|] == d[..|b|][|a|];
    forall i | 0 <= i < |g.values|
      ensures IsYieldEvent(d[|a| + 1..][i], op, id, i + 1, g.values[i])
    {
      assert d[|a| + 1..][i] == d[..|c|][|b|..][i];
    }
  }

  /**
   * A whole run of the generator: `startTrace` registers a fresh id that is
   * gone again at the end, so the registry is as before. When enabled the
   * events are TASK_SPAWN with the caller's context, one TASK_YIELD per value
   * of the wrapped generator with its step number and value, then the closing
   * events, all under that id. The body as written leaves the same engine state.
   */
  lemma RunEvents(v: EngineView, runtime: nat -> Reading, g: Producer, op: string, context: Context)
    requires UniqueReadings(runtime) && FreshAhead(runtime, v.clock, v.active)
    ensures var id := NextTraceId(v, runtime);
      var n := |g.values|;
      var r := Drive(Intended, v, runtime, g, op, context, NotStarted).view;
      && Drive(AsWritten, v, runtime, g, op, context, NotStarted).view == r
      && id !in v.active && r.active == v.active && r.enabled == v.enabled && r.handlers == v.handlers
      && (!v.enabled ==> r.emitted == v.emitted && r.invocations == v.invocations)
      && (v.enabled ==>
            && |v.emitted| + 1 + n <= |r.emitted| && r.emitted[..|v.emitted|] == v.emitted
            && r.emitted[|v.emitted|].eventType == T.TASK_SPAWN
            && r.emitted[|v.emitted|].traceId == id && r.emitted[|v.emitted|].context == context
            && (forall i :: 0 <= i < n ==> IsYieldEvent(r.emitted[|v.emitted| + 1..][i], op, id, i + 1, g.values[i]))
            && IsClosing(r.emitted[|v.emitted| + 1 + n..], g, op, id))
  {
    DriveView(Intended, v, runtime, g, op, context);
    DriveView(AsWritten, v, runtime, g, op, context);
    SessionEvents(v, runtime, g, op, context);
  }

  /** The generator object `traceGenerator` returns, running the intended body. */
  class TracedGenerator {
    const tracer: VOsakaTracer
    const producer: Producer
    const operationName: string
    const context: Context
    var state: GenState

    /** Calling `traceGenerator` runs none of its body: no trace starts yet. */
    constructor (tracer: VOsakaTracer, producer: Producer, operationName: string, context: Context := [])
      ensures this.tracer == tracer && this.producer == producer
      ensures this.operationName == operationName && this.context == context
      ensures state == NotStarted
    {
      this.tracer := tracer;
      this.producer := producer;
      this.operationName := operationName;
      this.context := context;
      state := NotStarted;
    }

    /** Resume the body until its next `yield`, `return` or `throw`. */
    method Next() returns (step: Step)
      requires tracer.Valid() && Reachable(Intended, producer, state)
      modifies this`state, tracer`clock, tracer`activeTraces, tracer`emitted, tracer`invocations, tracer.Sinks()
      ensures tracer.Valid() && Reachable(Intended, producer, state)
      ensures Transition(step, state, tracer.View())
        == NextSpec(Intended, old(tracer.View()), tracer.runtime, producer, operationName, context, old(state))
    {
      match state {
        case Finished =>
          step := Done;
        case NotStarted =>
          var traceId := tracer.StartTrace(operationName, context);
          step := RunBody(traceId, 0);
        case Suspended(traceId, pos) =>
          step := RunBody(traceId, pos);
      }
    }

    /**
     * The `try` block with `stepCount == pos`: advance the wrapped generator
     * past the value it yielded last, then trace and yield its next value, or
     * end the trace when it is exhausted.
     */
    method RunBody(traceId: string, pos: nat) returns (step: Step)
      requires tracer.Valid() && pos <= |producer.values|
      modifies this`state, tracer`clock, tracer`activeTraces, tracer`emitted, tracer`invocations, tracer.Sinks()
      ensures tracer.Valid()
      ensures var t := Resume(Intended, producer, traceId, pos);
        && step == t.step && state == t.state
        && tracer.View() == PerformAll(old(tracer.View()), tracer.runtime, operationName, traceId, t.calls)
    {
      var stepCount := pos;
      if stepCount == |producer.values| && producer.completion.Raises? {
        step := Fail(traceId, stepCount, producer.completion.error);
      } else if stepCount < |producer.values| {
        stepCount := stepCount + 1;
        var current := producer.values[pos];
        tracer.Trace(L.DEBUG, T.TASK_YIELD, "Generator step " + NatToString(stepCount) + " for: " + operationName,
          YieldContext(stepCount, current), Some(traceId));
        state := Suspended(traceId, stepCount);
        step := Yield(current);
      } else {
        tracer.EndTrace(traceId, DoneContext(stepCount));
        state := Finished;
        step := Return(producer.completion.result);
      }
    }

    /** The `catch` block. */
    method Fail(traceId: string, stepCount: nat, error: Throwable) returns (step: Step)
      requires tracer.Valid()
      modifies this`state, tracer`clock, tracer`activeTraces, tracer`emitted, tracer`invocations, tracer.Sinks()
      ensures tracer.Valid() && state == Finished && step == Throw(error)
      ensures tracer.View() == PerformAll(old(tracer.View()), tracer.runtime, operationName, traceId, FailureCalls(error, stepCount))
    {
      PerformFailure(tracer.View(), tracer.runtime, operationName, traceId, error, stepCount);
      tracer.Trace(L.ERROR, T.TASK_ERROR, "Generator error in: " + operationName, ErrorContext(error, stepCount), Some(traceId));
      tracer.EndTrace(traceId, FailedContext(stepCount));
      state := Finished;
      step := Throw(error);
    }
  }
}
