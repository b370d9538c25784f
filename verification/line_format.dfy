/** One formatted log record as `vflog` writes it: a prefix that starts with
    the level character, the message, and a line terminator; the byte count
    `vflog` returns; and its flush rule. The calendar rendering of the time,
    the thread id and the caller's file:line are one opaque `context` string. */
module LineFormat {
  import opened LogLevels

  /** `struct timeval`. */
  datatype TimeVal = TimeVal(sec: int, usec: int)

  /** `kFlushInterval`, in microseconds. */
  const FlushInterval: int := 10000

  /** `vflog`'s flush test against the sink's last flush time. With
      well-formed times, a write more than one flush interval after the last
      flush always flushes. */
  predicate ShouldFlush(now: TimeVal, last: TimeVal)
    ensures WellFormed(now) && WellFormed(last) && Micros(now) - Micros(last) > FlushInterval
            ==> ShouldFlush(now, last)
  {
    now.sec - last.sec >= 1 || now.usec - last.usec > FlushInterval
  }

  /** The sink's flush time after a write at `now`: either `now` or the old
      one. With a clock that does not run backwards, the flush time never
      moves back and after every write lies at most one flush interval behind
      it: the rule bounds how much output can sit unflushed. */
  function NextFlush(now: TimeVal, last: TimeVal): (t: TimeVal)
    ensures t == now || t == last
    ensures WellFormed(now) && WellFormed(last) && Micros(last) <= Micros(now) ==>
              Micros(last) <= Micros(t) && Micros(now) - Micros(t) <= FlushInterval
  {
    if ShouldFlush(now, last) then now else last
  }

  function Micros(t: TimeVal): int
  {
    t.sec * 1000000 + t.usec
  }

  predicate WellFormed(t: TimeVal)
  {
    0 <= t.usec < 1000000
  }

  /** The facts `vflog` is given about one call of `logger_log`. */
  datatype Record = Record(level: LogLevel, context: string, message: string, now: TimeVal)

  /** `"%c "` with the level character, then the rendered
      `"<date> <time>.<usec> <thread> <file>:<line>: "`. */
  function Prefix(r: Record): string
  {
    [LevelChar(r.level), ' '] + r.context
  }

  /** The full text line of a record. */
  function Line(r: Record): string
  {
    Prefix(r) + r.message + "\n"
  }

  /** Which of `vflog`'s three writes (prefix, message, terminator) succeed. */
  datatype WriteOutcome = WriteOutcome(prefixOk: bool, messageOk: bool, newlineOk: bool)

  const AllWritten: WriteOutcome := WriteOutcome(true, true, true)

  /** What `fprintf` returns: the characters written, or a negative value on failure. */
  function PrintResult(ok: bool, text: string): int
  {
    if ok then |text| else -1
  }

  /** The text a `vflog` call leaves in its stream: the parts that were written. */
  function Emitted(r: Record, o: WriteOutcome): string
  {
    (if o.prefixOk then Prefix(r) else [])
    + (if o.messageOk then r.message else [])
    + (if o.newlineOk then "\n" else [])
  }

  /** `vflog`'s return value: the sum of the positive `fprintf` results. It is
      exactly the number of characters the call put into the stream, and at
      most the length of the full line. */
  function ByteCount(r: Record, o: WriteOutcome): (n: nat)
    ensures n == |Emitted(r, o)|
    ensures n <= |Line(r)|
    ensures o == AllWritten ==> n == |Line(r)|
  {
    var p := PrintResult(o.prefixOk, Prefix(r));
    var m := PrintResult(o.messageOk, r.message);
    var t := PrintResult(o.newlineOk, "\n");
    (if p > 0 then p else 0) + (if m > 0 then m else 0) + (if t > 0 then t else 0)
  }

  /** When every write succeeds a record becomes exactly one line: it starts
      with the level character and holds one terminator, at its end. */
  lemma CompleteWriteIsOneLine(r: Record)
    requires '\n' !in r.context && '\n' !in r.message
    ensures Emitted(r, AllWritten) == Line(r)
    ensures Line(r)[0] == LevelChar(r.level) && Line(r)[|Line(r)| - 1] == '\n'
    ensures multiset(Line(r))['\n'] == 1
  {
    LevelCharInjective(r.level, r.level);
    var head := [LevelChar(r.level), ' '];
    assert Line(r) == head + r.context + r.message + "\n";
    assert multiset(head)['\n'] == 0;
    assert multiset(r.context)['\n'] == 0;
    assert multiset(r.message)['\n'] == 0;
  }
}
