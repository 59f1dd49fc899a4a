/** The verbosity filter of src/logger.rs: the closure returned by `logger(opt_verbose)`
    decides, for one `(level, message)` pair, whether a line is written, to which
    standard stream, and with which prefix. Printing itself is not modelled. */
module Logger {
  import opened Wrappers

  /** The four severities, declared with discriminants ERROR = 0 … DEBUG = 3. */
  datatype LogLevel = ERROR | WARN | INFO | DEBUG

  function Discriminant(level: LogLevel): nat
  {
    match level
    case ERROR => 0
    case WARN => 1
    case INFO => 2
    case DEBUG => 3
  }

  /** `eprintln!` writes to standard error, `println!` to standard output. */
  datatype Stream = Stdout | Stderr

  datatype Line = Line(stream: Stream, text: string)

  /** The level's name as it appears in a line. */
  function Tag(level: LogLevel): string
  {
    match level
    case ERROR => "ERROR"
    case WARN => "WARN"
    case INFO => "INFO"
    case DEBUG => "DEBUG"
  }

  function Spaces(n: nat): (s: string)
    ensures |s| == n && forall i :: 0 <= i < n ==> s[i] == ' '
  {
    if n == 0 then "" else " " + Spaces(n - 1)
  }

  /** The prefix every line carries: the tag and a colon, padded so that every
      message starts in the same column. */
  function Prefix(level: LogLevel): string
  {
    "Daemon >>> " + Tag(level) + ":" + Spaces(6 - |Tag(level)|)
  }

  /** One call of the logging closure at verbosity `verbose`: `None` when the
      line is filtered out. */
  function Emit(level: LogLevel, verbose: nat, message: string): (r: Option<Line>)
    ensures r.Some? <==> Discriminant(level) <= verbose
    ensures r.Some? ==> (r.value.stream == Stderr <==> level == ERROR)
    ensures r.Some? ==> r.value.text == Prefix(level) + message
    ensures r.Some? ==> |r.value.text| == 18 + |message| && r.value.text[18..] == message
  {
    match level
    case ERROR => Some(Line(Stderr, "Daemon >>> ERROR: " + message))
    case WARN => if verbose > 0 then Some(Line(Stdout, "Daemon >>> WARN:  " + message)) else None
    case INFO => if verbose > 1 then Some(Line(Stdout, "Daemon >>> INFO:  " + message)) else None
    case DEBUG => if verbose > 2 then Some(Line(Stdout, "Daemon >>> DEBUG: " + message)) else None
  }

  /** Raising the verbosity never hides a line, and does not change it. */
  lemma Monotonic(level: LogLevel, v: nat, w: nat, message: string)
    requires v <= w && Emit(level, v, message).Some?
    ensures Emit(level, w, message) == Emit(level, v, message)
  {
  }

  /** ERROR lines come out at every verbosity, on standard error. */
  lemma ErrorAlwaysEmitted(verbose: nat, message: string)
    ensures Emit(ERROR, verbose, message) == Some(Line(Stderr, Prefix(ERROR) + message))
  {
  }

  /** Verbosity 0 lets only ERROR through; each further step unlocks WARN,
      INFO and DEBUG in that order, and verbosity 3 or more lets all through. */
  lemma Thresholds(message: string)
    ensures forall v: nat :: Emit(WARN, v, message).Some? <==> v > 0
    ensures forall v: nat :: Emit(INFO, v, message).Some? <==> v > 1
    ensures forall v: nat :: Emit(DEBUG, v, message).Some? <==> v > 2
  {
  }
}
