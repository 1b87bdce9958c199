/**
 * `ConsoleTracerHandler`: filters by minimum level and echoes one coloured
 * line per accepted event, plus a context line when the context is not empty.
 * What `echo` writes is kept as `output`, one element per `echo`.
 */
module ConsoleHandlers {
  import opened Results
  import opened Contexts
  import L = TraceLevels
  import T = TraceEventTypes
  import opened TraceEvents

  /** The ANSI escape that ends a coloured line. */
  const Reset: string := "\U{1B}[0m"

  /** `n` spaces. */
  function Spaces(n: nat): (r: string)
    ensures |r| == n && forall i :: 0 <= i < n ==> r[i] == ' '
  {
    seq(n, _ => ' ')
  }

  /** `str_pad($s, $width)`: right-pad with spaces; a longer string is left whole. */
  function PadRight(s: string, width: nat): (r: string)
    ensures |r| == if |s| >= width then |s| else width
    ensures r[..|s|] == s
    ensures forall i :: |s| <= i < |r| ==> r[i] == ' '
  {
    if |s| >= width then s else s + Spaces(width - |s|)
  }

  /** The fixed colour of each level. */
  function ColorCode(level: L.TraceLevel): string
  {
    match level
    case DEBUG => "\U{1B}[36m"
    case INFO => "\U{1B}[32m"
    case WARN => "\U{1B}[33m"
    case ERROR => "\U{1B}[31m"
    case CRITICAL => "\U{1B}[35m"
  }

  /** `getColor`: the level's colour, or nothing when colour is off. */
  function GetColor(colorEnabled: bool, level: L.TraceLevel): string
  {
    if colorEnabled then ColorCode(level) else ""
  }

  /** The suffix closing every line: the reset code, or nothing when colour is off. */
  function ResetCode(colorEnabled: bool): string
  {
    if colorEnabled then Reset else ""
  }

  /** Interpolating `json_encode`'s result: `false` prints as the empty string. */
  function JsonText(encoded: Option<string>): string
  {
    if encoded.Some? then encoded.value else ""
  }

  /** The main line: colour, `[time] `, padded level, padded type, message, reset. */
  function FirstLine(colorEnabled: bool, fmt: Formatter, e: TraceEvent): string
  {
    GetColor(colorEnabled, e.level) + "[" + fmt.timeOfDay(Seconds(e.timestamp)) + "] "
      + PadRight(L.Value(e.level), 8) + " " + PadRight(T.Value(e.eventType), 15) + " "
      + e.message + ResetCode(colorEnabled) + "\n"
  }

  /** The optional second line with the compact JSON of the context. */
  function ContextLine(colorEnabled: bool, fmt: Formatter, e: TraceEvent): string
  {
    GetColor(colorEnabled, e.level) + "    Context: " + JsonText(fmt.compactJson(e.context))
      + ResetCode(colorEnabled) + "\n"
  }

  /**
   * What `handle` echoes for an event: nothing below the threshold, else the
   * main line and, for a non-empty context, the context line.
   */
  function Render(colorEnabled: bool, minLevel: L.TraceLevel, fmt: Formatter, e: TraceEvent): (r: seq<string>)
    ensures |r| <= 2
    ensures r == [] <==> !L.ShouldHandle(e.level, minLevel)
    ensures |r| == 2 <==> L.ShouldHandle(e.level, minLevel) && e.context != []
    ensures r != [] ==> r[0] == FirstLine(colorEnabled, fmt, e)
    ensures |r| == 2 ==> r[1] == ContextLine(colorEnabled, fmt, e)
  {
    if !L.ShouldHandle(e.level, minLevel) then []
    else if e.context == [] then [FirstLine(colorEnabled, fmt, e)]
    else [FirstLine(colorEnabled, fmt, e), ContextLine(colorEnabled, fmt, e)]
  }

  class ConsoleTracerHandler {
    const colorEnabled: bool
    const minLevel: L.TraceLevel
    const fmt: Formatter
    /** Everything this handler has echoed, one element per `echo`. */
    var output: seq<string>

    /** The defaults are colour on and minimum level DEBUG. */
    constructor (fmt: Formatter, colorEnabled: bool := true, minLevel: L.TraceLevel := L.DEBUG)
      ensures this.fmt == fmt && this.colorEnabled == colorEnabled && this.minLevel == minLevel
      ensures output == []
    {
      this.fmt := fmt;
      this.colorEnabled := colorEnabled;
      this.minLevel := minLevel;
      output := [];
    }

    /** The lines `handle` echoes for `e`. */
    function Lines(e: TraceEvent): seq<string>
    {
      Render(colorEnabled, minLevel, fmt, e)
    }

    /** `handle`: echo the event's lines, if its level passes the filter. */
    method Handle(e: TraceEvent)
      modifies this`output
      ensures output == old(output) + Lines(e)
    {
      if !L.ShouldHandle(e.level, minLevel) {
        return;
      }
      var color := GetColor(colorEnabled, e.level);
      var reset := ResetCode(colorEnabled);
      var timestamp := fmt.timeOfDay(Seconds(e.timestamp));
      var levelStr := PadRight(L.Value(e.level), 8);
      var typeStr := PadRight(T.Value(e.eventType), 15);
      output := output + [color + "[" + timestamp + "] " + levelStr + " " + typeStr + " " + e.message + reset + "\n"];
      if e.context != [] {
        var contextStr := JsonText(fmt.compactJson(e.context));
        output := output + [color + "    Context: " + contextStr + reset + "\n"];
      }
    }
  }

  /** With colour off, lines carry no escape codes at either end. */
  lemma NoColorMeansPlain(level: L.TraceLevel)
    ensures GetColor(false, level) == "" && ResetCode(false) == ""
  {
  }

  /** The five colours are pairwise distinct, and none is the reset code. */
  lemma ColorsDistinct(a: L.TraceLevel, b: L.TraceLevel)
    ensures a != b ==> ColorCode(a) != ColorCode(b)
    ensures ColorCode(a) != Reset
  {
    assert ColorCode(a)[3] != Reset[3];
    if a != b {
      assert ColorCode(a)[3] != ColorCode(b)[3];
    }
  }

  /** Every level name fits the 8-column level field, so it is padded to exactly 8. */
  lemma LevelColumnExact(level: L.TraceLevel)
    ensures |PadRight(L.Value(level), 8)| == 8
  {
  }

  /** Every type name fits the 15-column type field, so it is padded to exactly 15. */
  lemma TypeColumnExact(t: T.TraceEventType)
    ensures |PadRight(T.Value(t), 15)| == 15
  {
    T.ValueFitsTypeColumn(t);
  }

  /** Where the fields of a line with an 8-column and a 15-column field sit. */
  lemma {:induction false} LineLayout(head: string, lv: string, ty: string, msg: string, tail: string)
    requires |lv| == 8 && |ty| == 15
    ensures var line := head + lv + " " + ty + " " + msg + tail;
      && |line| == |head| + 8 + 1 + 15 + 1 + |msg| + |tail|
      && line[|head|..|head| + 8] == lv
      && line[|head| + 9..|head| + 24] == ty
      && line[|head| + 25..|head| + 25 + |msg|] == msg
      && line[|line| - |tail|..] == tail
  {
    var line := head + lv + " " + ty + " " + msg + tail;
    var off := |head|;
    forall i | 0 <= i < 8 ensures line[off..off + 8][i] == lv[i] {
      assert line[off + i] == (head + lv)[off + i];
    }
    forall i | 0 <= i < 15 ensures line[off + 9..off + 24][i] == ty[i] {
      assert line[off + 9 + i] == (head + lv + " " + ty)[off + 9 + i];
    }
    forall i | 0 <= i < |msg| ensures line[off + 25..off + 25 + |msg|][i] == msg[i] {
      assert line[off + 25 + i] == (head + lv + " " + ty + " " + msg)[off + 25 + i];
    }
  }

  /**
   * The columns of the main line: after the colour and the bracketed time
   * come the level name padded to 8, the type name padded to 15, and the
   * message, and the line ends in the reset code and a newline.
   */
  lemma FirstLineColumns(colorEnabled: bool, fmt: Formatter, e: TraceEvent)
    ensures var line := FirstLine(colorEnabled, fmt, e);
      var off := |GetColor(colorEnabled, e.level)| + |fmt.timeOfDay(Seconds(e.timestamp))| + 3;
      var tail := ResetCode(colorEnabled) + "\n";
      && |line| == off + 8 + 1 + 15 + 1 + |e.message| + |tail|
      && line[off..off + |L.Value(e.level)|] == L.Value(e.level)
      && line[off + 9..off + 9 + |T.Value(e.eventType)|] == T.Value(e.eventType)
      && line[off + 25..off + 25 + |e.message|] == e.message
      && line[|line| - |tail|..] == tail
  {
    var head := GetColor(colorEnabled, e.level) + "[" + fmt.timeOfDay(Seconds(e.timestamp)) + "] ";
    var lv := PadRight(L.Value(e.level), 8);
    var ty := PadRight(T.Value(e.eventType), 15);
    var tail := ResetCode(colorEnabled) + "\n";
    LevelColumnExact(e.level);
    TypeColumnExact(e.eventType);
    var line := head + lv + " " + ty + " " + e.message + tail;
    assert line == FirstLine(colorEnabled, fmt, e);
    LineLayout(head, lv, ty, e.message, tail);
    var off := |head|;
    assert line[off..off + |L.Value(e.level)|] == line[off..off + 8][..|L.Value(e.level)|];
    assert line[off + 9..off + 9 + |T.Value(e.eventType)|] == line[off + 9..off + 24][..|T.Value(e.eventType)|];
  }
}
