/**
 * `FileTracerHandler`: opens its file in append mode at construction (or
 * fails), appends one serialised record plus a newline per accepted event
 * and flushes, and closes the handle when destroyed.
 */
module FileHandlers {
  import opened Results
  import L = TraceLevels
  import opened TraceEvents

  /** What `fopen($path, "a")` answers: a handle after the file's current bytes, or false. */
  datatype OpenResult = Opened(existing: string) | OpenFailed

  /** The exception the constructor throws. */
  datatype OpenError = RuntimeException(message: string)

  /**
   * `handle` throws when the event passes the filter but cannot be encoded:
   * `toJson` is declared to return a string, so `json_encode`'s `false` is a
   * `TypeError` under strict types.
   */
  predicate RaisesOn(minLevel: L.TraceLevel, fmt: Formatter, e: TraceEvent)
  {
    L.ShouldHandle(e.level, minLevel) && ToJson(e, fmt).None?
  }

  /** What `handle` appends to the file for `e`. */
  function Appended(minLevel: L.TraceLevel, fmt: Formatter, e: TraceEvent): (r: string)
    ensures r == "" <==> !L.ShouldHandle(e.level, minLevel) || RaisesOn(minLevel, fmt, e)
    ensures r != "" ==> ToJson(e, fmt) == Some(r[..|r| - 1]) && r[|r| - 1] == '\n'
  {
    if !L.ShouldHandle(e.level, minLevel) then ""
    else
      match ToJson(e, fmt)
      case None => ""
      case Some(json) => json + "\n"
  }

  class FileTracerHandler {
    const filePath: string
    const minLevel: L.TraceLevel
    const fmt: Formatter
    /** The bytes of the file, including those it held before it was opened. */
    var contents: string
    /** How many leading bytes of `contents` have been flushed. */
    var flushed: nat
    /** Whether `$fileHandle` is an open stream. */
    var isOpen: bool
    /** How many times `fclose` has been called on the handle. */
    ghost var closeCalls: nat

    /** The state right after a successful `fopen`. */
    constructor Init(filePath: string, minLevel: L.TraceLevel, fmt: Formatter, existing: string)
      ensures this.filePath == filePath && this.minLevel == minLevel && this.fmt == fmt
      ensures contents == existing && flushed == |existing| && isOpen && closeCalls == 0
    {
      this.filePath := filePath;
      this.minLevel := minLevel;
      this.fmt := fmt;
      contents := existing;
      flushed := |existing|;
      isOpen := true;
      closeCalls := 0;
    }

    /**
     * `new FileTracerHandler($filePath, $minLevel)`: open in append mode, or
     * throw a RuntimeException naming the path and produce no handler.
     */
    static method Open(filePath: string, fmt: Formatter, fopen: OpenResult, minLevel: L.TraceLevel := L.DEBUG)
      returns (r: Result<FileTracerHandler, OpenError>)
      ensures fopen.OpenFailed? ==> r == Failure(RuntimeException("Cannot open trace file: " + filePath))
      ensures fopen.Opened? ==> r.Success? && fresh(r.value) && r.value.isOpen && r.value.closeCalls == 0
      ensures fopen.Opened? ==> r.value.filePath == filePath && r.value.minLevel == minLevel && r.value.fmt == fmt
      ensures fopen.Opened? ==> r.value.contents == fopen.existing
    {
      if fopen.OpenFailed? {
        return Failure(RuntimeException("Cannot open trace file: " + filePath));
      }
      var h := new FileTracerHandler.Init(filePath, minLevel, fmt, fopen.existing);
      r := Success(h);
    }

    /** Whether `handle` throws on `e`. */
    predicate Raises(e: TraceEvent)
    {
      RaisesOn(minLevel, fmt, e)
    }

    /**
     * `handle`: a rejected event leaves the file alone; an accepted one is
     * appended as one record and flushed, unless encoding it throws.
     */
    method Handle(e: TraceEvent) returns (raised: bool)
      requires isOpen
      modifies this`contents, this`flushed
      ensures raised == Raises(e)
      ensures contents == old(contents) + Appended(minLevel, fmt, e)
      ensures flushed == if Appended(minLevel, fmt, e) == "" then old(flushed) else |contents|
    {
      if !L.ShouldHandle(e.level, minLevel) {
        return false;
      }
      var json := ToJson(e, fmt);
      if json.None? {
        return true;
      }
      var line := json.value + "\n";
      contents := contents + line;
      flushed := |contents|;
      raised := false;
    }

    /** `__destruct`: close the handle if, and only if, it is open. */
    method Close()
      modifies this`isOpen, this`closeCalls
      ensures !isOpen
      ensures closeCalls == old(closeCalls) + if old(isOpen) then 1 else 0
    {
      if isOpen {
        closeCalls := closeCalls + 1;
        isOpen := false;
      }
    }
  }
}
