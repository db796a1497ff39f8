/**
 * The text a log line is made of: the time stamp of `getCurrentTime`, the
 * thread tag of `getTID`, and the prefixes the `BFlog`, `Flog` and `Ftrace`
 * macros put in front of a message. The clock and the thread id are inputs.
 */
module Format {
  import opened Options
  import opened Decimal
  import Basename

  /** The hour, minute and second fields `localtime` fills in. */
  datatype LocalTime = LocalTime(hour: nat, minute: nat, second: nat)

  /** A time stamp read back from its text. */
  datatype Stamp = Stamp(hour: nat, minute: nat, second: nat, millis: nat)

  /** `%H`, `%M` and `%S` of `std::put_time`: two digits, zero-padded. */
  function TwoDigits(n: nat): string {
    PadLeft(NatText(n), 2, '0')
  }

  /**
   * The millisecond part: the count of milliseconds since the epoch, `% 1000`
   * with C++'s truncating remainder, printed with `std::setw(3)` and
   * `std::setfill('0')`.
   */
  function MillisText(sinceEpochMs: int): string {
    PadLeft(IntText(TruncRem(sinceEpochMs, 1000)), 3, '0')
  }

  /** `getCurrentTime`: `HH:MM:SS.mmm`. */
  function TimeText(t: LocalTime, sinceEpochMs: int): string {
    TwoDigits(t.hour) + ":" + TwoDigits(t.minute) + ":" + TwoDigits(t.second) + "." + MillisText(sinceEpochMs)
  }

  /** `getTID`: "0x" followed by the stream text of the thread id, as it is. */
  function TidText(idText: string): (r: string)
    ensures |r| == |idText| + 2 && r[..2] == "0x" && r[2..] == idText
  {
    "0x" + idText
  }

  /** `__FILENAME__ << ":" << __LINE__`: the whole prefix of `BFlog`. */
  function LocationText(srcPath: string, line: nat): string {
    Basename.FileName(srcPath) + ":" + NatText(line)
  }

  /** `time | tid | `: the head `Flog` and `Ftrace` share. */
  function StampText(t: LocalTime, sinceEpochMs: int, idText: string): string {
    TimeText(t, sinceEpochMs) + " | " + TidText(idText) + " | "
  }

  /** The prefix of `Flog`: `time | tid | file:line @func: `. */
  function FlogPrefix(t: LocalTime, sinceEpochMs: int, idText: string, srcPath: string, line: nat, func: string): string {
    StampText(t, sinceEpochMs, idText) + LocationText(srcPath, line) + " @" + func + ": "
  }

  /** The whole line `Ftrace` writes: `time | tid | * file:line @signature` and a newline. */
  function FtraceText(t: LocalTime, sinceEpochMs: int, idText: string, srcPath: string, line: nat, signature: string): string {
    StampText(t, sinceEpochMs, idText) + "* " + LocationText(srcPath, line) + " @" + signature + "\n"
  }

  /** Reads `HH:MM:SS.mmm` back into its four numbers. */
  function ParseTime(s: string): Option<Stamp> {
    if |s| == 12 && s[2] == ':' && s[5] == ':' && s[8] == '.'
       && AllDigits(s[0..2]) && AllDigits(s[3..5]) && AllDigits(s[6..8]) && AllDigits(s[9..12])
    then Some(Stamp(Value(s[0..2]), Value(s[3..5]), Value(s[6..8]), Value(s[9..12])))
    else None
  }

  lemma TwoDigitsText(n: nat)
    requires n < 100
    ensures |TwoDigits(n)| == 2 && AllDigits(TwoDigits(n)) && Value(TwoDigits(n)) == n
  {
    assert Pow10(2) == 100;
    ZeroPaddedText(n, 2);
  }

  /**
   * After the epoch the millisecond part is exactly three digits and reads
   * back as the milliseconds since the epoch modulo 1000.
   */
  lemma MillisTextDigits(sinceEpochMs: int)
    requires sinceEpochMs >= 0
    ensures |MillisText(sinceEpochMs)| == 3 && AllDigits(MillisText(sinceEpochMs))
    ensures Value(MillisText(sinceEpochMs)) == sinceEpochMs % 1000
  {
    assert Pow10(3) == 1000;
    ZeroPaddedText(sinceEpochMs % 1000, 3);
  }

  /**
   * An example before the epoch: the truncating remainder of -1007 is -7, and
   * `setw(3)` pads in front of its sign.
   */
  lemma MillisTextBeforeEpoch()
    ensures MillisText(-1007) == "0-7"
  {
    assert TruncRem(-1007, 1000) == -7;
    assert NatText(7) == "7";
  }

  /**
   * Before the epoch and off a whole second the remainder is negative, so the
   * millisecond part carries a '-' and is not a digit string.
   */
  lemma MillisTextOffSecond(sinceEpochMs: int)
    requires sinceEpochMs < 0 && (-sinceEpochMs) % 1000 != 0
    ensures TruncRem(sinceEpochMs, 1000) < 0
    ensures '-' in MillisText(sinceEpochMs) && !AllDigits(MillisText(sinceEpochMs))
  {
    var rem := TruncRem(sinceEpochMs, 1000);
    assert rem == -((-sinceEpochMs) % 1000);
    var text := IntText(rem);
    assert text[0] == '-';
    var padded := MillisText(sinceEpochMs);
    assert padded[|padded| - |text|] == '-';
  }

  /**
   * So for such a clock the stamp is not `HH:MM:SS.mmm`: for any in-range
   * fields the reader rejects it.
   */
  lemma TimeTextOffSecond(t: LocalTime, sinceEpochMs: int)
    requires t.hour < 24 && t.minute < 60 && t.second <= 60
    requires sinceEpochMs < 0 && (-sinceEpochMs) % 1000 != 0
    ensures ParseTime(TimeText(t, sinceEpochMs)) == None
  {
    TwoDigitsText(t.hour);
    TwoDigitsText(t.minute);
    TwoDigitsText(t.second);
    MillisTextOffSecond(sinceEpochMs);
    var ms := MillisText(sinceEpochMs);
    if |ms| == 3 {
      JoinedSlices(TwoDigits(t.hour), TwoDigits(t.minute), TwoDigits(t.second), ms);
    }
  }

  /**
   * For the field ranges `localtime` produces (a second may be 60 on a leap
   * second) and a clock after the epoch, the time stamp is 12 characters long
   * and reads back as the hour, minute, second and milliseconds modulo 1000.
   */
  lemma TimeTextRoundTrip(t: LocalTime, sinceEpochMs: int)
    requires t.hour < 24 && t.minute < 60 && t.second <= 60 && sinceEpochMs >= 0
    ensures |TimeText(t, sinceEpochMs)| == 12
    ensures ParseTime(TimeText(t, sinceEpochMs)) == Some(Stamp(t.hour, t.minute, t.second, sinceEpochMs % 1000))
  {
    TwoDigitsText(t.hour);
    TwoDigitsText(t.minute);
    TwoDigitsText(t.second);
    MillisTextDigits(sinceEpochMs);
    ParseJoined(TwoDigits(t.hour), TwoDigits(t.minute), TwoDigits(t.second), MillisText(sinceEpochMs));
  }

  /** `ParseTime` splits a joined time stamp back into its four digit groups. */
  lemma ParseJoined(h: string, m: string, s: string, ms: string)
    requires |h| == 2 && |m| == 2 && |s| == 2 && |ms| == 3
    requires AllDigits(h) && AllDigits(m) && AllDigits(s) && AllDigits(ms)
    ensures |h + ":" + m + ":" + s + "." + ms| == 12
    ensures ParseTime(h + ":" + m + ":" + s + "." + ms) == Some(Stamp(Value(h), Value(m), Value(s), Value(ms)))
  {
    JoinedSlices(h, m, s, ms);
  }

  lemma JoinedSlices(h: string, m: string, s: string, ms: string)
    requires |h| == 2 && |m| == 2 && |s| == 2 && |ms| == 3
    ensures var r := h + ":" + m + ":" + s + "." + ms;
            |r| == 12 && r[2] == ':' && r[5] == ':' && r[8] == '.'
            && r[0..2] == h && r[3..5] == m && r[6..8] == s && r[9..12] == ms
  {
  }

  /**
   * The `Flog` prefix begins with the 12-character time stamp (which reads
   * back by `TimeTextRoundTrip`) and then " | 0x".
   */
  lemma FlogPrefixHead(t: LocalTime, sinceEpochMs: int, idText: string, srcPath: string, line: nat, func: string)
    requires t.hour < 24 && t.minute < 60 && t.second <= 60 && sinceEpochMs >= 0
    ensures FlogPrefix(t, sinceEpochMs, idText, srcPath, line, func)[..12] == TimeText(t, sinceEpochMs)
    ensures FlogPrefix(t, sinceEpochMs, idText, srcPath, line, func)[12..17] == " | 0x"
  {
    TimeTextRoundTrip(t, sinceEpochMs);
    PrefixHead(TimeText(t, sinceEpochMs), idText, LocationText(srcPath, line), func);
  }

  lemma PrefixHead(time: string, idText: string, loc: string, func: string)
    requires |time| == 12
    ensures (time + " | " + TidText(idText) + " | " + loc + " @" + func + ": ")[..12] == time
    ensures (time + " | " + TidText(idText) + " | " + loc + " @" + func + ": ")[12..17] == " | 0x"
  {
    var tid := TidText(idText);
    Regroup(time, " | ", tid, " | ", loc, " @", func, ": ");
    HeadKept(time, " | " + tid, " | " + loc + " @" + func + ": ");
  }

  // Regroup and HeadKept only regroup concatenations over plain strings, which
  // keeps the solver away from the function terms in PrefixHead.
  lemma Regroup(a: string, b: string, c: string, d: string, e: string, f: string, g: string, h: string)
    ensures a + b + c + d + e + f + g + h == a + (b + c) + (d + e + f + g + h)
  {
  }

  lemma HeadKept(time: string, mid: string, tail: string)
    requires |time| == 12 && |mid| >= 5
    ensures (time + mid + tail)[..12] == time
    ensures (time + mid + tail)[12..17] == mid[..5]
  {
  }

  /**
   * The location segment: the file name carries no '/', and the line number
   * after the ':' reads back as the line.
   */
  lemma LocationTextParts(srcPath: string, line: nat)
    ensures var r := LocationText(srcPath, line);
            var n := |Basename.FileName(srcPath)|;
            '/' !in r[..n] && r[n] == ':' && AllDigits(r[n + 1..]) && Value(r[n + 1..]) == line
  {
    var name := Basename.FileName(srcPath);
    var r := LocationText(srcPath, line);
    assert r[..|name|] == name;
    assert r[|name| + 1..] == NatText(line);
    ValueOfNatText(line);
  }
}
