/**
 * The severity enum `TraceLevel` (a string-backed PHP enum) and the rank
 * table both handlers use to filter events.
 */
module TraceLevels {
  import opened Results

  /** The five cases, in severity order. */
  datatype TraceLevel = DEBUG | INFO | WARN | ERROR | CRITICAL

  /** Every case, in declaration order. */
  const AllLevels: seq<TraceLevel> := [DEBUG, INFO, WARN, ERROR, CRITICAL]

  /** The backing string of a case (`$level->value`). */
  function Value(l: TraceLevel): string
  {
    match l
    case DEBUG => "DEBUG"
    case INFO => "INFO"
    case WARN => "WARN"
    case ERROR => "ERROR"
    case CRITICAL => "CRITICAL"
  }

  /** `TraceLevel::tryFrom`: the case whose backing string is `s`, if any. */
  function FromValue(s: string): Option<TraceLevel>
  {
    if s == "DEBUG" then Some(DEBUG)
    else if s == "INFO" then Some(INFO)
    else if s == "WARN" then Some(WARN)
    else if s == "ERROR" then Some(ERROR)
    else if s == "CRITICAL" then Some(CRITICAL)
    else None
  }

  /** The position of a level in the severity order. */
  function Rank(l: TraceLevel): nat
  {
    match l
    case DEBUG => 0
    case INFO => 1
    case WARN => 2
    case ERROR => 3
    case CRITICAL => 4
  }

  /** The `$levels` table of both handlers: backing string to rank. */
  const RankTable: map<string, nat> :=
    map[Value(DEBUG) := 0, Value(INFO) := 1, Value(WARN) := 2, Value(ERROR) := 3, Value(CRITICAL) := 4]

  /**
   * `shouldHandle`: the table lookup of the event's level against the
   * lookup of the handler's minimum level.
   */
  predicate ShouldHandle(level: TraceLevel, minLevel: TraceLevel)
  {
    RankTableHas(level);
    RankTableHas(minLevel);
    RankTable[Value(level)] >= RankTable[Value(minLevel)]
  }

  /** Every backing string is a key of the rank table. */
  lemma RankTableHas(l: TraceLevel)
    ensures Value(l) in RankTable
  {
  }

  /** The enum is closed: exactly five cases, each listed once. */
  lemma AllLevelsComplete(l: TraceLevel)
    ensures l in AllLevels
    ensures |AllLevels| == 5
    ensures forall i, j :: 0 <= i < j < |AllLevels| ==> AllLevels[i] != AllLevels[j]
  {
  }

  /** Each backing string is the case's own name. */
  lemma ValueIsCaseName()
    ensures Value(DEBUG) == "DEBUG" && Value(INFO) == "INFO" && Value(WARN) == "WARN"
    ensures Value(ERROR) == "ERROR" && Value(CRITICAL) == "CRITICAL"
  {
  }

  /** Backing strings are pairwise distinct: `->value` is injective. */
  lemma ValueInjective(a: TraceLevel, b: TraceLevel)
    ensures Value(a) == Value(b) ==> a == b
  {
    FromValueRoundTrip(a, Value(a));
    FromValueRoundTrip(b, Value(b));
  }

  /** `tryFrom(value)` gives back the case, and only backing strings map to a case. */
  lemma FromValueRoundTrip(l: TraceLevel, s: string)
    ensures FromValue(Value(l)) == Some(l)
    ensures FromValue(s) == Some(l) <==> s == Value(l)
  {
  }

  /** The table of the handlers agrees with the severity order. */
  lemma RankTableAgrees(l: TraceLevel)
    ensures Value(l) in RankTable && RankTable[Value(l)] == Rank(l)
  {
    ValueInjective(l, DEBUG);
    ValueInjective(l, INFO);
    ValueInjective(l, WARN);
    ValueInjective(l, ERROR);
  }

  /** The filter accepts exactly the levels at or above the minimum. */
  lemma ShouldHandleIff(level: TraceLevel, minLevel: TraceLevel)
    ensures ShouldHandle(level, minLevel) <==> Rank(level) >= Rank(minLevel)
  {
    RankTableAgrees(level);
    RankTableAgrees(minLevel);
  }

  /**
   * Filtering is monotone: a more severe event passes wherever a less severe
   * one does, and raising the threshold never admits more events.
   */
  lemma ShouldHandleMonotone(l1: TraceLevel, l2: TraceLevel, m1: TraceLevel, m2: TraceLevel)
    requires Rank(l1) <= Rank(l2) && Rank(m2) <= Rank(m1)
    ensures ShouldHandle(l1, m1) ==> ShouldHandle(l2, m2)
  {
    ShouldHandleIff(l1, m1);
    ShouldHandleIff(l2, m2);
  }

  /** The default threshold DEBUG admits every level. */
  lemma DebugAcceptsAll(level: TraceLevel)
    ensures ShouldHandle(level, DEBUG)
  {
    ShouldHandleIff(level, DEBUG);
  }
}
