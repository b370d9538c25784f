/** The sink bitmask shared by the logger and its configuration loader, and
    the console streams. */
module Sinks {

  /** The sinks, one bit each in the `int` bitmask `s_logger`
      (`kConsoleLogger` = 1, `kFileLogger` = 2, `kDataLogger` = 4). */
  datatype Sink = ConsoleLogger | FileLogger | DataLogger

  /** The bitmask `s_logger` as the set of its bits: only the three sink bits
      are ever ORed in, so `|=` is union and `= 0` the empty set. */
  type Flags = set<Sink>

  /** The bit of each sink. */
  function Bit(s: Sink): bv32
  {
    match s
    case ConsoleLogger => 1
    case FileLogger => 2
    case DataLogger => 4
  }

  /** The `int` value of `s_logger` a set of sinks stands for. */
  function Mask(flags: Flags): bv32
  {
    (if ConsoleLogger in flags then 1 else 0)
    | (if FileLogger in flags then 2 else 0)
    | (if DataLogger in flags then 4 else 0)
  }

  /** `hasFlag` with a single sink: `(flags & flag) == flag` on the mask. */
  predicate HasFlag(flags: Flags, flag: Sink)
  {
    flag in flags
  }

  /** The set stands for the bitmask faithfully: `hasFlag` is the mask test,
      ORing a sink's bit in is adding the sink, and the mask is 0 only for no
      sinks. */
  lemma MaskRepresentsFlags(flags: Flags, flag: Sink)
    ensures HasFlag(flags, flag) <==> (Mask(flags) & Bit(flag) == Bit(flag))
    ensures Mask(flags + {flag}) == Mask(flags) | Bit(flag)
    ensures Mask(flags) == 0 <==> flags == {}
  {
    if Mask(flags) == 0 && flags != {} {
      var x :| x in flags;
      match x
      case ConsoleLogger =>
      case FileLogger =>
      case DataLogger =>
    }
  }

  /** A process stream a console sink may write to. */
  datatype Stream = Stdout | Stderr

  /** The `FILE*` passed to `logger_initConsoleLogger`: NULL, one of the two
      standard streams, or any other stream. */
  datatype StreamArg = NullStream | StdoutArg | StderrArg | OtherStream
}
