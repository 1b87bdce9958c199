/** The event-kind enum `TraceEventType` (a string-backed PHP enum). */
module TraceEventTypes {
  import opened Results

  /** The eighteen event kinds, in declaration order. */
  datatype TraceEventType =
      TASK_SPAWN
    | TASK_RESUME
    | TASK_YIELD
    | TASK_COMPLETE
    | TASK_ERROR
    | IO_READ
    | IO_WRITE
    | TCP_CONNECT
    | TCP_ACCEPT
    | TCP_CLOSE
    | UDP_SEND
    | UDP_RECEIVE
    | FILE_READ
    | FILE_WRITE
    | PROCESS_START
    | PROCESS_END
    | TIMER_START
    | TIMER_FIRE

  /** Every case, in declaration order. */
  const AllTypes: seq<TraceEventType> := [
    TASK_SPAWN,
    TASK_RESUME,
    TASK_YIELD,
    TASK_COMPLETE,
    TASK_ERROR,
    IO_READ,
    IO_WRITE,
    TCP_CONNECT,
    TCP_ACCEPT,
    TCP_CLOSE,
    UDP_SEND,
    UDP_RECEIVE,
    FILE_READ,
    FILE_WRITE,
    PROCESS_START,
    PROCESS_END,
    TIMER_START,
    TIMER_FIRE
  ]

  /** The backing string of a case (`$type->value`). */
  function Value(t: TraceEventType): string
  {
    match t
    case TASK_SPAWN => "TASK_SPAWN"
    case TASK_RESUME => "TASK_RESUME"
    case TASK_YIELD => "TASK_YIELD"
    case TASK_COMPLETE => "TASK_COMPLETE"
    case TASK_ERROR => "TASK_ERROR"
    case IO_READ => "IO_READ"
    case IO_WRITE => "IO_WRITE"
    case TCP_CONNECT => "TCP_CONNECT"
    case TCP_ACCEPT => "TCP_ACCEPT"
    case TCP_CLOSE => "TCP_CLOSE"
    case UDP_SEND => "UDP_SEND"
    case UDP_RECEIVE => "UDP_RECEIVE"
    case FILE_READ => "FILE_READ"
    case FILE_WRITE => "FILE_WRITE"
    case PROCESS_START => "PROCESS_START"
    case PROCESS_END => "PROCESS_END"
    case TIMER_START => "TIMER_START"
    case TIMER_FIRE => "TIMER_FIRE"
  }

  /** `TraceEventType::tryFrom`: the case whose backing string is `s`, if any. */
  function FromValue(s: string): Option<TraceEventType>
  {
    if s == "TASK_SPAWN" then Some(TASK_SPAWN)
    else if s == "TASK_RESUME" then Some(TASK_RESUME)
    else if s == "TASK_YIELD" then Some(TASK_YIELD)
    else if s == "TASK_COMPLETE" then Some(TASK_COMPLETE)
    else if s == "TASK_ERROR" then Some(TASK_ERROR)
    else if s == "IO_READ" then Some(IO_READ)
    else if s == "IO_WRITE" then Some(IO_WRITE)
    else if s == "TCP_CONNECT" then Some(TCP_CONNECT)
    else if s == "TCP_ACCEPT" then Some(TCP_ACCEPT)
    else if s == "TCP_CLOSE" then Some(TCP_CLOSE)
    else if s == "UDP_SEND" then Some(UDP_SEND)
    else if s == "UDP_RECEIVE" then Some(UDP_RECEIVE)
    else if s == "FILE_READ" then Some(FILE_READ)
    else if s == "FILE_WRITE" then Some(FILE_WRITE)
    else if s == "PROCESS_START" then Some(PROCESS_START)
    else if s == "PROCESS_END" then Some(PROCESS_END)
    else if s == "TIMER_START" then Some(TIMER_START)
    else if s == "TIMER_FIRE" then Some(TIMER_FIRE)
    else None
  }

  /** The enum is closed: exactly eighteen cases, each listed once. */
  lemma AllTypesComplete(t: TraceEventType)
    ensures t in AllTypes
    ensures |AllTypes| == 18
    ensures forall i, j :: 0 <= i < j < |AllTypes| ==> AllTypes[i] != AllTypes[j]
  {
  }

  /** `tryFrom` only ever answers with the case whose backing string it was given. */
  lemma FromValueSound(s: string)
    ensures FromValue(s).Some? ==> s == Value(FromValue(s).value)
  {
  }

  /** `tryFrom(value)` gives back the case, and only backing strings map to a case. */
  lemma FromValueRoundTrip(t: TraceEventType, s: string)
    ensures FromValue(Value(t)) == Some(t)
    ensures FromValue(s) == Some(t) <==> s == Value(t)
  {
    FromValueSound(s);
    match t
    case TASK_SPAWN => {} case TASK_RESUME => {} case TASK_YIELD => {}
    case TASK_COMPLETE => {} case TASK_ERROR => {} case IO_READ => {}
    case IO_WRITE => {} case TCP_CONNECT => {} case TCP_ACCEPT => {}
    case TCP_CLOSE => {} case UDP_SEND => {} case UDP_RECEIVE => {}
    case FILE_READ => {} case FILE_WRITE => {} case PROCESS_START => {}
    case PROCESS_END => {} case TIMER_START => {} case TIMER_FIRE => {}
  }

  /** Backing strings are pairwise distinct: `->value` is injective. */
  lemma ValueInjective(a: TraceEventType, b: TraceEventType)
    ensures Value(a) == Value(b) ==> a == b
  {
    FromValueRoundTrip(a, Value(a));
    FromValueRoundTrip(b, Value(b));
  }

  /** Each backing string is the case's own name, a non-empty upper-case word. */
  lemma ValueIsCaseName(t: TraceEventType)
    ensures Value(TASK_SPAWN) == "TASK_SPAWN" && Value(TASK_RESUME) == "TASK_RESUME"
    ensures Value(TASK_YIELD) == "TASK_YIELD" && Value(TASK_COMPLETE) == "TASK_COMPLETE"
    ensures Value(TASK_ERROR) == "TASK_ERROR" && Value(IO_READ) == "IO_READ"
    ensures Value(IO_WRITE) == "IO_WRITE" && Value(TCP_CONNECT) == "TCP_CONNECT"
    ensures Value(TCP_ACCEPT) == "TCP_ACCEPT" && Value(TCP_CLOSE) == "TCP_CLOSE"
    ensures Value(UDP_SEND) == "UDP_SEND" && Value(UDP_RECEIVE) == "UDP_RECEIVE"
    ensures Value(FILE_READ) == "FILE_READ" && Value(FILE_WRITE) == "FILE_WRITE"
    ensures Value(PROCESS_START) == "PROCESS_START" && Value(PROCESS_END) == "PROCESS_END"
    ensures Value(TIMER_START) == "TIMER_START" && Value(TIMER_FIRE) == "TIMER_FIRE"
    ensures |Value(t)| > 0
    ensures forall i :: 0 <= i < |Value(t)| ==> 'A' <= Value(t)[i] <= 'Z' || Value(t)[i] == '_'
  {
  }

  /** No backing string is longer than the console's 15-column type field. */
  lemma ValueFitsTypeColumn(t: TraceEventType)
    ensures |Value(t)| <= 15
  {
  }
}
