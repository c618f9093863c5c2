/** The severity levels shared by the host (`Microsoft.Extensions.Logging.LogLevel`)
    and the browser scripts (`LogLevel` in Logger.ts). Both use the same numbers,
    Trace = 0 .. Critical = 5, None = 6, and that number is what crosses the wire. */
module LogLevels {

  datatype LogLevel = Trace | Debug | Information | Warning | Error | Critical | None

  /** The numeric value of a level. */
  function Ord(l: LogLevel): (n: nat)
    ensures n <= 6
    ensures n == 6 <==> l == None
  {
    match l
    case Trace => 0
    case Debug => 1
    case Information => 2
    case Warning => 3
    case Error => 4
    case Critical => 5
    case None => 6
  }

  /** The level with a given numeric value. */
  function FromOrd(n: nat): (l: LogLevel)
    requires n <= 6
    ensures Ord(l) == n
  {
    if n == 0 then Trace
    else if n == 1 then Debug
    else if n == 2 then Information
    else if n == 3 then Warning
    else if n == 4 then Error
    else if n == 5 then Critical
    else None
  }

  /** The numbering is a bijection between the seven levels and 0..6. */
  lemma OrdRoundTrip(l: LogLevel)
    ensures FromOrd(Ord(l)) == l
  {
  }

  /** `a <= b` on levels, as C# and TypeScript compare enum values. */
  predicate AtMost(a: LogLevel, b: LogLevel) {
    Ord(a) <= Ord(b)
  }

  /** The gate both loggers apply: an inclusive `[min, max]` band that never admits None. */
  predicate InBand(min: LogLevel, max: LogLevel, l: LogLevel) {
    l != None && AtMost(min, l) && AtMost(l, max)
  }

  /** The band is convex: a level between two enabled levels is enabled. */
  lemma BandIsConvex(min: LogLevel, max: LogLevel, a: LogLevel, b: LogLevel, c: LogLevel)
    requires InBand(min, max, a) && InBand(min, max, c) && AtMost(a, b) && AtMost(b, c)
    ensures InBand(min, max, b)
  {
  }

  /** The enabled levels are exactly the real levels from `min` up to `max`
      (None excluded even when `max` is None). */
  lemma BandIsInterval(min: LogLevel, max: LogLevel)
    ensures forall n :: 0 <= n <= 6 ==>
      (InBand(min, max, FromOrd(n)) <==> Ord(min) <= n <= Ord(max) && n <= 5)
  {
  }

  /** The names the .NET enum's `ToString()` gives. */
  function DotNetName(l: LogLevel): string {
    match l
    case Trace => "Trace"
    case Debug => "Debug"
    case Information => "Information"
    case Warning => "Warning"
    case Error => "Error"
    case Critical => "Critical"
    case None => "None"
  }
}
