/** Log levels, the level gate (`logger_isEnabled`) and the level character
    that starts every text line (`getLevelChar`). */
module LogLevels {

  datatype LogLevel = Trace | Debug | Info | Warn | Error | Fatal

  /** The threshold the facility starts with. */
  const DefaultLevel: LogLevel := Info

  /** The enumeration value: TRACE lowest, FATAL highest. */
  function Rank(l: LogLevel): (r: nat)
    ensures r < 6
  {
    match l
    case Trace => 0
    case Debug => 1
    case Info => 2
    case Warn => 3
    case Error => 4
    case Fatal => 5
  }

  /** `logger_isEnabled`: a record passes when the threshold is not above its
      level. A level always passes its own threshold, FATAL passes every
      threshold, and a TRACE threshold passes everything. */
  predicate IsEnabled(threshold: LogLevel, level: LogLevel)
    ensures threshold == level ==> IsEnabled(threshold, level)
    ensures level == Fatal ==> IsEnabled(threshold, level)
    ensures threshold == Trace ==> IsEnabled(threshold, level)
  {
    Rank(threshold) <= Rank(level)
  }

  /** The upper-case name of each level. */
  function LevelName(l: LogLevel): string
  {
    match l
    case Trace => "TRACE"
    case Debug => "DEBUG"
    case Info => "INFO"
    case Warn => "WARN"
    case Error => "ERROR"
    case Fatal => "FATAL"
  }

  /** `getLevelChar`: the initial of the level's name. */
  function LevelChar(l: LogLevel): (c: char)
    ensures c == LevelName(l)[0]
  {
    match l
    case Trace => 'T'
    case Debug => 'D'
    case Info => 'I'
    case Warn => 'W'
    case Error => 'E'
    case Fatal => 'F'
  }

  /** The gate orders the levels totally: of two levels one always admits
      the other, and two levels that admit each other are the same. */
  lemma GateOrdersLevels(a: LogLevel, b: LogLevel)
    ensures IsEnabled(a, b) || IsEnabled(b, a)
    ensures IsEnabled(a, b) && IsEnabled(b, a) ==> a == b
  {
  }

  /** The level character tells the six levels apart, and is never the blank
      or the line terminator that surround it in a line. */
  lemma LevelCharInjective(a: LogLevel, b: LogLevel)
    ensures LevelChar(a) == LevelChar(b) ==> a == b
    ensures LevelChar(a) != ' ' && LevelChar(a) != '\n'
  {
  }

  /** A threshold admits exactly the levels at or above it: raising the level of
      a record never suppresses it. */
  lemma GateIsUpwardClosed(threshold: LogLevel, a: LogLevel, b: LogLevel)
    requires IsEnabled(threshold, a) && Rank(a) <= Rank(b)
    ensures IsEnabled(threshold, b)
  {
  }

  /** With the default INFO threshold, TRACE and DEBUG are suppressed and every
      other level passes; with WARN, TRACE, DEBUG and INFO are suppressed. */
  lemma DefaultAndWarnGates(l: LogLevel)
    ensures IsEnabled(DefaultLevel, l) <==> l != Trace && l != Debug
    ensures IsEnabled(Warn, l) <==> l == Warn || l == Error || l == Fatal
  {
  }
}
