/**
 * The `TracerHandler` interface: the engine keeps a list of handlers and
 * calls `handle` on each. The two handlers of the library and a handler
 * written elsewhere are the three kinds a list can hold.
 */
module Handlers {
  import opened TraceEvents
  import C = ConsoleHandlers
  import F = FileHandlers

  /**
   * A handler implemented outside this model. Which events make it throw is
   * fixed when it is created; every call is recorded in `received`.
   */
  class ExternalHandler {
    const raisesOn: TraceEvent -> bool
    /** Every event `handle` was called with, in order. */
    var received: seq<TraceEvent>

    constructor (raisesOn: TraceEvent -> bool)
      ensures this.raisesOn == raisesOn && received == []
    {
      this.raisesOn := raisesOn;
      received := [];
    }

    method Handle(e: TraceEvent) returns (raised: bool)
      modifies this`received
      ensures received == old(received) + [e]
      ensures raised == raisesOn(e)
    {
      received := received + [e];
      raised := raisesOn(e);
    }
  }

  /** A registered handler; equal handlers are the same object. */
  datatype Handler =
    | Console(console: C.ConsoleTracerHandler)
    | File(file: F.FileTracerHandler)
    | External(external: ExternalHandler)

  /** The object behind a handler. */
  function Obj(h: Handler): object
  {
    match h
    case Console(c) => c
    case File(f) => f
    case External(x) => x
  }

  /** Whether `handle` throws on `e`: the console never does. */
  predicate Raises(h: Handler, e: TraceEvent)
  {
    match h
    case Console(_) => false
    case File(f) => f.Raises(e)
    case External(x) => x.raisesOn(e)
  }

  /** A handler that can be called: a file handler's stream is open. */
  ghost predicate Ready(h: Handler)
    reads Obj(h)
  {
    h.File? ==> h.file.isOpen
  }

  /** What can be observed of a handler: what it printed, wrote, or was given. */
  datatype SinkState =
    | Printed(output: seq<string>)
    | Written(contents: string)
    | Received(events: seq<TraceEvent>)

  ghost function State(h: Handler): SinkState
    reads Obj(h)
  {
    match h
    case Console(c) => Printed(c.output)
    case File(f) => Written(f.contents)
    case External(x) => Received(x.received)
  }

  /** The observable state after `h` handled `e` `n` more times. */
  function After(s: SinkState, h: Handler, e: TraceEvent, n: nat): SinkState
  {
    if n == 0 then s
    else
      match After(s, h, e, n - 1)
      case Printed(out) => Printed(out + (if h.Console? then h.console.Lines(e) else []))
      case Written(text) => Written(text + (if h.File? then F.Appended(h.file.minLevel, h.file.fmt, e) else ""))
      case Received(evs) => Received(evs + [e])
  }

  /** One more call extends the observable state by one effect. */
  lemma AfterStep(s: SinkState, h: Handler, e: TraceEvent, n: nat)
    ensures After(s, h, e, n + 1) == After(After(s, h, e, n), h, e, 1)
  {
  }

  /** Distinct handlers are distinct objects. */
  lemma ObjInjective(h: Handler, g: Handler)
    ensures Obj(h) == Obj(g) ==> h == g
  {
  }

  /**
   * `$handler->handle($event)`: the call on whichever kind of handler it is,
   * reporting whether it threw.
   */
  method Handle(h: Handler, e: TraceEvent) returns (raised: bool)
    requires Ready(h)
    modifies Obj(h)
    ensures raised == Raises(h, e)
    ensures Ready(h)
    ensures State(h) == After(old(State(h)), h, e, 1)
    ensures h.Console? ==> h.console.output == old(h.console.output) + h.console.Lines(e)
    ensures h.File? ==> h.file.contents == old(h.file.contents) + F.Appended(h.file.minLevel, h.file.fmt, e)
    ensures h.File? ==> h.file.isOpen == old(h.file.isOpen) && h.file.closeCalls == old(h.file.closeCalls)
    ensures h.External? ==> h.external.received == old(h.external.received) + [e]
  {
    match h
    case Console(c) =>
      c.Handle(e);
      raised := false;
    case File(f) =>
      raised := f.Handle(e);
    case External(x) =>
      raised := x.Handle(e);
  }
}
