/**
 * `VOsakaTracerExtensions`: helpers for the runtime's networking, I/O,
 * spawning and file code. Each shapes a level, an event type, a message and
 * a context from its arguments and then makes exactly one `trace` call on
 * the engine, forwarding the caller's trace id.
 */
module TracerExtensions {
  import opened Results
  import opened Contexts
  import L = TraceLevels
  import T = TraceEventTypes
  import opened TraceEvents
  import opened Tracer
  import opened TracerProperties
  import opened Rounding

  /** What `traceVosakaSpawn` is given: a function named by a string, or any other callable. */
  datatype Task = FunctionName(name: string) | OtherCallable

  /** A helper call with its arguments, apart from the trace id. */
  datatype HelperCall =
    | TCPConnection(address: string, port: string)
    | TCPAccept(clientInfo: string)
    | IOOperation(operation: string, bytes: int, duration: real)
    | VosakaSpawn(task: Task)
    | FileOperation(operation: string, filename: string, byteCount: Option<int>)

  /** The name a spawned task is reported under: a string callable's own name, otherwise "anonymous". */
  function TaskName(task: Task): (name: string)
    ensures task.FunctionName? ==> name == task.name
    ensures task.OtherCallable? ==> name == "anonymous"
  {
    match task
    case FunctionName(n) => n
    case OtherCallable => "anonymous"
  }

  /** The type of an I/O event: a read exactly when the operation is "read", every other operation a write. */
  function IOType(operation: string): (t: T.TraceEventType)
    ensures t == T.IO_READ <==> operation == "read"
    ensures t == T.IO_WRITE <==> operation != "read"
  {
    if operation == "read" then T.IO_READ else T.IO_WRITE
  }

  /** The type of a file event: a read exactly when the operation is "read", every other operation a write. */
  function FileType(operation: string): (t: T.TraceEventType)
    ensures t == T.FILE_READ <==> operation == "read"
    ensures t == T.FILE_WRITE <==> operation != "read"
  {
    if operation == "read" then T.FILE_READ else T.FILE_WRITE
  }

  /** Bytes per second in mebibytes per second: `$bytes / $duration / (1024 * 1024)`. */
  function Throughput(bytes: int, duration: real): real
    requires duration != 0.0
  {
    bytes as real / duration / 1048576.0
  }

  /**
   * The context of an I/O event: the byte count, the duration in
   * milliseconds and the throughput, both rounded to two decimals. A zero
   * duration divides by zero, which throws before `trace` is reached.
   */
  function IOContext(bytes: int, duration: real): (r: Option<Context>)
    ensures r.None? <==> duration == 0.0
    ensures r.Some? ==>
      && Keys(r.value) == ["bytes", "duration_ms", "throughput_mbps"] && WellFormed(r.value)
      && Lookup(r.value, "bytes") == Some(Int(bytes))
      && Lookup(r.value, "duration_ms") == Some(Float(Round2(duration * 1000.0)))
      && Lookup(r.value, "throughput_mbps") == Some(Float(Round2(Throughput(bytes, duration))))
  {
    if duration == 0.0 then None
    else
      var c := [Entry("bytes", Int(bytes)), Entry("duration_ms", Float(Round2(duration * 1000.0))),
                Entry("throughput_mbps", Float(Round2(Throughput(bytes, duration))))];
      assert c[1..] == [c[1], c[2]] && c[1..][1..] == [c[2]] && c[1..][1..][1..] == [];
      assert "bytes"[0] != "duration_ms"[0] && "bytes"[0] != "throughput_mbps"[0] && "duration_ms"[0] != "throughput_mbps"[0];
      assert Keys(c[1..][1..]) == ["throughput_mbps"];
      assert Keys(c[1..]) == ["duration_ms", "throughput_mbps"];
      assert Lookup(c[1..], "throughput_mbps") == Lookup(c[1..][1..], "throughput_mbps");
      Some(c)
  }

  /**
   * The context of a file event: the file name first, then the byte count
   * exactly when one is given.
   */
  function FileContext(filename: string, bytes: Option<int>): (c: Context)
    ensures Keys(c) == if bytes.Some? then ["filename", "bytes"] else ["filename"]
    ensures WellFormed(c)
    ensures Lookup(c, "filename") == Some(Str(filename))
    ensures Lookup(c, "bytes") == if bytes.Some? then Some(Int(bytes.value)) else None
  {
    var base := [Entry("filename", Str(filename))];
    assert base[1..] == [];
    assert Keys(base) == ["filename"];
    if bytes.None? then base
    else
      PutKeys(base, "bytes", Int(bytes.value));
      PutWellFormed(base, "bytes", Int(bytes.value));
      PutLookup(base, "bytes", Int(bytes.value), "filename");
      PutLookup(base, "bytes", Int(bytes.value), "bytes");
      Put(base, "bytes", Int(bytes.value))
  }

  /**
   * The one `trace` call a helper makes with the caller's trace id, or
   * `None` when the helper throws before making it.
   */
  function Shape(c: HelperCall, traceId: Option<string>): Option<TraceCall>
  {
    match c
    case TCPConnection(address, port) =>
      Some(TraceCall(L.INFO, T.TCP_CONNECT, "TCP connection attempt",
        [Entry("address", Str(address)), Entry("port", Str(port))], traceId, None))
    case TCPAccept(clientInfo) =>
      Some(TraceCall(L.INFO, T.TCP_ACCEPT, "TCP client accepted", [Entry("client", Str(clientInfo))], traceId, None))
    case IOOperation(operation, bytes, duration) =>
      var ctx := IOContext(bytes, duration);
      if ctx.None? then None
      else Some(TraceCall(L.DEBUG, IOType(operation), "I/O " + operation + " operation", ctx.value, traceId, None))
    case VosakaSpawn(task) =>
      Some(TraceCall(L.INFO, T.TASK_SPAWN, "VOsaka::spawn called", [Entry("task_name", Str(TaskName(task)))], traceId, None))
    case FileOperation(operation, filename, bytes) =>
      Some(TraceCall(L.DEBUG, FileType(operation), "File " + operation + " operation", FileContext(filename, bytes), traceId, None))
  }

  /** What a helper call does to the engine. */
  function HelperSpec(v: EngineView, runtime: nat -> Reading, c: HelperCall, traceId: Option<string>): EngineView
  {
    match Shape(c, traceId)
    case None => v
    case Some(t) => TraceSpec(v, runtime, t.level, t.eventType, t.message, t.context, t.traceId, t.taskId)
  }

  /**
   * Levels and types: the network and spawn helpers trace at INFO, the I/O
   * and file helpers at DEBUG; the I/O and file helpers read exactly when
   * the operation is "read"; only an I/O call with a zero duration makes no
   * call; every call carries the caller's trace id and no task id.
   */
  lemma ShapeFacts(c: HelperCall, traceId: Option<string>)
    ensures Shape(c, traceId).None? <==> c.IOOperation? && c.duration == 0.0
    ensures var s := Shape(c, traceId);
      s.Some? ==>
        && s.value.traceId == traceId && s.value.taskId == None
        && s.value.level == (if c.IOOperation? || c.FileOperation? then L.DEBUG else L.INFO)
        && (c.TCPConnection? ==> s.value.eventType == T.TCP_CONNECT)
        && (c.TCPAccept? ==> s.value.eventType == T.TCP_ACCEPT)
        && (c.VosakaSpawn? ==> s.value.eventType == T.TASK_SPAWN)
        && (c.IOOperation? ==> (s.value.eventType == T.IO_READ <==> c.operation == "read"))
        && (c.FileOperation? ==> (s.value.eventType == T.FILE_READ <==> c.operation == "read"))
  {
  }

  /** Every helper's context holds each key once. */
  lemma ShapeWellFormed(c: HelperCall, traceId: Option<string>)
    requires Shape(c, traceId).Some?
    ensures WellFormed(Shape(c, traceId).value.context)
  {
  }

  /**
   * Each helper makes at most one `trace` call: while the engine is disabled
   * (or the I/O helper throws) nothing changes; otherwise exactly one event
   * is added, with the shaped level, type, message and context, under the
   * caller's trace id when one is given. The registry, the handlers and the
   * flag are never touched.
   */
  lemma HelperEmitsOne(v: EngineView, runtime: nat -> Reading, c: HelperCall, traceId: Option<string>)
    ensures var r := HelperSpec(v, runtime, c, traceId);
      && r.active == v.active && r.handlers == v.handlers && r.enabled == v.enabled
      && (!v.enabled || Shape(c, traceId).None? ==> r == v)
      && (v.enabled && Shape(c, traceId).Some? ==>
            var t := Shape(c, traceId).value;
            && |r.emitted| == |v.emitted| + 1 && r.emitted[..|v.emitted|] == v.emitted
            && r.emitted[|v.emitted|].level == t.level && r.emitted[|v.emitted|].eventType == t.eventType
            && r.emitted[|v.emitted|].message == t.message && r.emitted[|v.emitted|].context == t.context
            && (traceId.Some? ==> r.emitted[|v.emitted|].traceId == traceId.value))
  {
    var s := Shape(c, traceId);
    if v.enabled && s.Some? {
      var t := s.value;
      var e := NewEvent(t.level, t.eventType, t.message, t.context, t.traceId, t.taskId, runtime(v.clock));
      var r := HelperSpec(v, runtime, c, traceId);
      assert r.emitted == v.emitted + [e];
      assert r.emitted[..|v.emitted|] == v.emitted;
    }
  }

  /** The helpers bound to one engine. */
  class VOsakaTracerExtensions {
    const tracer: VOsakaTracer

    constructor (tracer: VOsakaTracer)
      ensures this.tracer == tracer
    {
      this.tracer := tracer;
    }

    method TraceTCPConnection(address: string, port: string, traceId: Option<string> := None)
      requires tracer.Valid()
      modifies tracer`clock, tracer`emitted, tracer`invocations, tracer.Sinks()
      ensures tracer.Valid()
      ensures tracer.View() == HelperSpec(old(tracer.View()), tracer.runtime, TCPConnection(address, port), traceId)
    {
      tracer.Trace(L.INFO, T.TCP_CONNECT, "TCP connection attempt",
        [Entry("address", Str(address)), Entry("port", Str(port))], traceId);
    }

    method TraceTCPAccept(clientInfo: string, traceId: Option<string> := None)
      requires tracer.Valid()
      modifies tracer`clock, tracer`emitted, tracer`invocations, tracer.Sinks()
      ensures tracer.Valid()
      ensures tracer.View() == HelperSpec(old(tracer.View()), tracer.runtime, TCPAccept(clientInfo), traceId)
    {
      tracer.Trace(L.INFO, T.TCP_ACCEPT, "TCP client accepted", [Entry("client", Str(clientInfo))], traceId);
    }

    /** `ok` is false when a zero duration throws before anything is traced. */
    method TraceIOOperation(operation: string, bytes: int, duration: real, traceId: Option<string> := None)
      returns (ok: bool)
      requires tracer.Valid()
      modifies tracer`clock, tracer`emitted, tracer`invocations, tracer.Sinks()
      ensures tracer.Valid()
      ensures ok <==> duration != 0.0
      ensures tracer.View() == HelperSpec(old(tracer.View()), tracer.runtime, IOOperation(operation, bytes, duration), traceId)
    {
      if duration == 0.0 {
        return false;
      }
      var eventType := if operation == "read" then T.IO_READ else T.IO_WRITE;
      var context := IOContext(bytes, duration).value;
      tracer.Trace(L.DEBUG, eventType, "I/O " + operation + " operation", context, traceId);
      ok := true;
    }

    method TraceVosakaSpawn(task: Task, traceId: Option<string> := None)
      requires tracer.Valid()
      modifies tracer`clock, tracer`emitted, tracer`invocations, tracer.Sinks()
      ensures tracer.Valid()
      ensures tracer.View() == HelperSpec(old(tracer.View()), tracer.runtime, VosakaSpawn(task), traceId)
    {
      var taskName := if task.FunctionName? then task.name else "anonymous";
      tracer.Trace(L.INFO, T.TASK_SPAWN, "VOsaka::spawn called", [Entry("task_name", Str(taskName))], traceId);
    }

    method TraceFileOperation(operation: string, filename: string, bytes: Option<int> := None, traceId: Option<string> := None)
      requires tracer.Valid()
      modifies tracer`clock, tracer`emitted, tracer`invocations, tracer.Sinks()
      ensures tracer.Valid()
      ensures tracer.View() == HelperSpec(old(tracer.View()), tracer.runtime, FileOperation(operation, filename, bytes), traceId)
    {
      var context := [Entry("filename", Str(filename))];
      if bytes.Some? {
        context := Put(context, "bytes", Int(bytes.value));
      }
      tracer.Trace(L.DEBUG, if operation == "read" then T.FILE_READ else T.FILE_WRITE,
        "File " + operation + " operation", context, traceId);
    }
  }
}
