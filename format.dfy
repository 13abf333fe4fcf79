/**
 * The pure formatting helpers of Client/Script/Common.js: `pad0`, `plural` and
 * `msToHms`, together with the decimal rendering of numbers they rely on
 * (JavaScript's `toString` and template-literal conversion of an integer).
 */
module Format {

  predicate IsDigit(c: char) {
    '0' <= c <= '9'
  }

  predicate AllDigits(s: string) {
    forall i :: 0 <= i < |s| ==> IsDigit(s[i])
  }

  function DigitChar(d: nat): (c: char)
    requires d < 10
    ensures IsDigit(c)
  {
    ('0' as int + d) as char
  }

  function DigitValue(c: char): (d: nat)
    requires IsDigit(c)
    ensures d < 10 && DigitChar(d) == c
  {
    c as int - '0' as int
  }

  /** `'0'.repeat(n)` */
  function Zeros(n: nat): (z: string)
    ensures |z| == n
    ensures forall i :: 0 <= i < n ==> z[i] == '0'
  {
    if n == 0 then [] else Zeros(n - 1) + ['0']
  }

  /** The decimal text of a non-negative integer: no sign, no leading zero. */
  function NatToString(n: nat): (s: string)
    ensures 1 <= |s| && AllDigits(s)
    ensures s[0] == '0' ==> s == "0"
    ensures n < 10 <==> |s| == 1
    ensures n < 100 ==> |s| <= 2
    ensures n < 1000 ==> |s| <= 3
  {
    if n < 10 then [DigitChar(n)] else NatToString(n / 10) + [DigitChar(n % 10)]
  }

  /** The decimal text of an integer, as `${n}` renders it. */
  function IntToString(n: int): (s: string)
    ensures 1 <= |s|
    ensures n < 0 <==> s[0] == '-'
  {
    if n < 0 then "-" + NatToString(-n) else NatToString(n)
  }

  /** The value of a string of decimal digits (the empty string reads as 0). */
  function ParseDecimal(s: string): nat
    requires AllDigits(s)
  {
    if s == [] then 0 else ParseDecimal(s[..|s| - 1]) * 10 + DigitValue(s[|s| - 1])
  }

  /** The value of an optionally signed decimal text. */
  function ParseInt(s: string): int
    requires 1 <= |s|
    requires s[0] == '-' ==> AllDigits(s[1..])
    requires s[0] != '-' ==> AllDigits(s)
  {
    if s[0] == '-' then -(ParseDecimal(s[1..]) as int) else ParseDecimal(s)
  }

  /** Rendering a natural number and reading it back gives the number. */
  lemma {:induction false} NatToStringRoundTrip(n: nat)
    ensures ParseDecimal(NatToString(n)) == n
  {
    if n >= 10 {
      var p := NatToString(n / 10);
      NatToStringRoundTrip(n / 10);
      assert (p + [DigitChar(n % 10)])[..|p|] == p;
    }
  }

  /** Rendering an integer and reading it back gives the integer. */
  lemma IntToStringRoundTrip(n: int)
    ensures ParseInt(IntToString(n)) == n
  {
    if n < 0 {
      NatToStringRoundTrip(-n);
      assert IntToString(n)[1..] == NatToString(-n);
    } else {
      NatToStringRoundTrip(n);
    }
  }

  /** Leading zeros do not change the value of a decimal text. */
  lemma {:induction false} LeadingZerosIgnored(k: nat, s: string)
    requires AllDigits(s)
    ensures AllDigits(Zeros(k) + s)
    ensures ParseDecimal(Zeros(k) + s) == ParseDecimal(s)
    decreases |s|, k
  {
    var z := Zeros(k) + s;
    if s == [] {
      if k > 0 {
        assert z[..|z| - 1] == Zeros(k - 1);
        LeadingZerosIgnored(k - 1, []);
        assert Zeros(k - 1) + [] == Zeros(k - 1);
      }
    } else {
      var init := s[..|s| - 1];
      assert z[..|z| - 1] == Zeros(k) + init;
      LeadingZerosIgnored(k, init);
    }
  }

  /**
   * `pad0(val, pad)`: `'0'.repeat(Math.max(0, pad - val.length)) + val`, where
   * `val` is already the string the source obtains with `toString()`.
   */
  function Pad0(val: string, pad: int): (r: string)
    ensures |r| == if pad > |val| then pad else |val|
    ensures r[|r| - |val|..] == val
    ensures forall i :: 0 <= i < |r| - |val| ==> r[i] == '0'
    ensures |val| >= pad ==> r == val
  {
    Zeros(if pad > |val| then pad - |val| else 0) + val
  }

  /** Zero-padding a number's decimal text keeps its value. */
  lemma Pad0KeepsValue(n: nat, pad: int)
    ensures AllDigits(Pad0(NatToString(n), pad))
    ensures ParseDecimal(Pad0(NatToString(n), pad)) == n
  {
    var s := NatToString(n);
    var k := if pad > |s| then pad - |s| else 0;
    assert Pad0(s, pad) == Zeros(k) + s;
    LeadingZerosIgnored(k, s);
    NatToStringRoundTrip(n);
  }

  /** `plural(n, text)`: "n text" when n is 1, otherwise "n texts". */
  function Plural(n: int, text: string): (r: string)
    ensures var head := IntToString(n) + " " + text;
      && |r| == |head| + (if n == 1 then 0 else 1)
      && r[..|head|] == head
      && (n != 1 ==> r[|head|] == 's')
  {
    IntToString(n) + " " + text + (if n == 1 then "" else "s")
  }

  /** The count is the text before the first space of `plural`'s result. */
  lemma PluralCountReadsBack(n: int, text: string)
    ensures var count := Plural(n, text)[..|IntToString(n)|];
      1 <= |count| && (count[0] == '-' ==> AllDigits(count[1..]))
      && (count[0] != '-' ==> AllDigits(count)) && ParseInt(count) == n
  {
    var s := IntToString(n);
    assert Plural(n, text)[..|s|] == s;
    IntToStringRoundTrip(n);
  }

  // ---------------------------------------------------------------------------
  // msToHms

  /** The four fields `msToHms` prints. */
  datatype Hms = Hms(hours: nat, minutes: nat, seconds: nat, thousandths: nat)

  const MS_PER_SECOND: nat := 1000
  const MS_PER_MINUTE: nat := 60000
  const MS_PER_HOUR: nat := 3600000

  /** Whole minutes are whole seconds divided by 60. */
  lemma MinutesFromSeconds(ms: nat)
    ensures ms / MS_PER_MINUTE == (ms / MS_PER_SECOND) / 60
  {
  }

  /** Whole hours are whole minutes divided by 60. */
  lemma HoursFromMinutes(ms: nat)
    ensures ms / MS_PER_HOUR == (ms / MS_PER_MINUTE) / 60
  {
  }

  /**
   * The fields of a natural millisecond count with exact integer division:
   * `parseInt(ms / 1000 / 3600)`, `parseInt(ms / 1000 / 60) % 60`,
   * `parseInt(ms / 1000) % 60` and `ms % 1000`.
   */
  function HmsOf(ms: nat): (t: Hms)
    ensures t.minutes < 60 && t.seconds < 60 && t.thousandths < 1000
    ensures t.hours * MS_PER_HOUR + t.minutes * MS_PER_MINUTE
            + t.seconds * MS_PER_SECOND + t.thousandths == ms
  {
    MinutesFromSeconds(ms);
    HoursFromMinutes(ms);
    Hms(ms / 3600000, (ms / 60000) % 60, (ms / 1000) % 60, ms % 1000)
  }

  /** The `mm:ss.mmm` part, each field zero-padded: 9 characters while the fields are in range. */
  function TimeText(t: Hms): (r: string)
    ensures t.minutes < 60 && t.seconds < 60 && t.thousandths < 1000 ==> |r| == 9
  {
    Pad0(NatToString(t.minutes), 2) + ":" + Pad0(NatToString(t.seconds), 2)
      + "." + Pad0(NatToString(t.thousandths), 3)
  }

  /** The `[h:]mm:ss.mmm` text of the fields; the hour segment only when hours > 0. */
  function FormatHms(t: Hms): (r: string)
    ensures t.hours == 0 ==> r == TimeText(t)
    ensures t.hours > 0 ==> |r| > |TimeText(t)| + 1
  {
    if t.hours > 0 then NatToString(t.hours) + ":" + TimeText(t) else TimeText(t)
  }

  /** The segments of `mm:ss.mmm` and what they read back to. */
  lemma TimeTextShape(t: Hms)
    requires t.minutes < 60 && t.seconds < 60 && t.thousandths < 1000
    ensures var time := TimeText(t);
      && |time| == 9 && time[2] == ':' && time[5] == '.'
      && AllDigits(time[..2]) && ParseDecimal(time[..2]) == t.minutes
      && AllDigits(time[3..5]) && ParseDecimal(time[3..5]) == t.seconds
      && AllDigits(time[6..]) && ParseDecimal(time[6..]) == t.thousandths
  {
    var mm, ss, mmm := Pad0(NatToString(t.minutes), 2), Pad0(NatToString(t.seconds), 2),
                       Pad0(NatToString(t.thousandths), 3);
    Pad0KeepsValue(t.minutes, 2);
    Pad0KeepsValue(t.seconds, 2);
    Pad0KeepsValue(t.thousandths, 3);
    assert |mm| == 2 && |ss| == 2 && |mmm| == 3;
    TimeSegments(mm, ss, mmm);
    assert TimeText(t) == mm + ":" + ss + "." + mmm;
  }

  lemma TimeSegments(mm: string, ss: string, mmm: string)
    requires |mm| == 2 && |ss| == 2 && |mmm| == 3
    ensures var time := mm + ":" + ss + "." + mmm;
      && |time| == 9 && time[2] == ':' && time[5] == '.'
      && time[..2] == mm && time[3..5] == ss && time[6..] == mmm
  {
    var time := mm + ":" + ss + "." + mmm;
    assert time[..2] == mm;
    assert time[3..5] == ss;
    assert time[6..] == mmm;
  }

  lemma HourSegments(h: string, time: string)
    requires |time| == 9
    ensures var r := h + ":" + time;
      |r| == |h| + 10 && r[|r| - 9..] == time && r[|r| - 10] == ':' && r[..|r| - 10] == h
  {
    var r := h + ":" + time;
    assert r[|r| - 9..] == time;
    assert r[..|r| - 10] == h;
  }

  /** The `[h:]mm:ss.mmm` text ends in the `mm:ss.mmm` part; the hour segment is there iff hours > 0. */
  lemma FormatHmsShape(t: Hms)
    requires t.minutes < 60 && t.seconds < 60 && t.thousandths < 1000
    ensures var r := FormatHms(t);
      && 9 <= |r| && (|r| == 9 <==> t.hours == 0)
      && r[|r| - 9..] == TimeText(t)
      && (|r| > 9 ==> r[|r| - 10] == ':' && r[..|r| - 10] == NatToString(t.hours))
  {
    var time := TimeText(t);
    if t.hours > 0 {
      HourSegments(NatToString(t.hours), time);
    } else {
      assert time[|time| - 9..] == time;
    }
  }

  /** `msToHms(ms)` for a natural `ms`, read with exact integer arithmetic. */
  function MsToHms(ms: nat): (r: string)
    ensures 9 <= |r|
    ensures |r| == 9 <==> ms < MS_PER_HOUR
    ensures r[|r| - 9..][2] == ':' && r[|r| - 9..][5] == '.'
    ensures AllDigits(r[|r| - 9..][..2]) && AllDigits(r[|r| - 9..][3..5])
    ensures AllDigits(r[|r| - 9..][6..])
    ensures |r| > 9 ==> r[|r| - 10] == ':' && AllDigits(r[..|r| - 10])
  {
    TimeTextShape(HmsOf(ms));
    FormatHmsShape(HmsOf(ms));
    FormatHms(HmsOf(ms))
  }

  /** Reads a `[h:]mm:ss.mmm` text back to milliseconds. */
  function ParseHms(s: string): nat
    requires 9 <= |s|
    requires AllDigits(s[|s| - 9..][..2]) && AllDigits(s[|s| - 9..][3..5])
    requires AllDigits(s[|s| - 9..][6..])
    requires |s| > 9 ==> AllDigits(s[..|s| - 10])
  {
    var time := s[|s| - 9..];
    var hours := if |s| > 9 then ParseDecimal(s[..|s| - 10]) else 0;
    hours * MS_PER_HOUR + ParseDecimal(time[..2]) * MS_PER_MINUTE
      + ParseDecimal(time[3..5]) * MS_PER_SECOND + ParseDecimal(time[6..])
  }

  /** `msToHms` loses nothing: its text reads back to the same millisecond count. */
  lemma MsToHmsRoundTrip(ms: nat)
    ensures ParseHms(MsToHms(ms)) == ms
  {
    var t := HmsOf(ms);
    TimeTextShape(t);
    FormatHmsShape(t);
    NatToStringRoundTrip(t.hours);
  }

  // ---------------------------------------------------------------------------
  // msToHms as written: `parseInt` of a floating-point quotient

  /**
   * The leading significant digit of the positive fraction num/den, which is
   * what `parseInt` reads from the exponent notation ("2.77…e-7") JavaScript's
   * `String` uses for numbers below 1e-6.
   */
  function LeadingDigit(num: nat, den: nat): (d: nat)
    requires 0 < num < 10 * den
    ensures 1 <= d <= 9
    decreases den - num
  {
    if num >= den then num / den else LeadingDigit(num * 10, den)
  }

  /**
   * `parseInt(x)` for the number x == num / den: the integer part when x is
   * printed in positional notation (1e-6 <= x, or x == 0), the leading digit
   * when x is a positive number below 1e-6.
   */
  function ParseIntOfQuotient(num: nat, den: nat): (r: nat)
    requires 0 < den
    ensures num == 0 || den <= num * 1000000 ==> r == num / den
    ensures 0 < num && num * 1000000 < den ==> 1 <= r <= 9
  {
    if num == 0 || den <= num * 1000000 then num / den else LeadingDigit(num, den)
  }

  /** The fields `msToHms` computes as written, `parseInt` of each quotient included. */
  function HmsAsWritten(ms: nat): (t: Hms)
    ensures t.minutes < 60 && t.seconds < 60 && t.thousandths == ms % 1000
    ensures 1 <= ms <= 3 ==> 1 <= t.hours
  {
    Hms(ParseIntOfQuotient(ms, MS_PER_HOUR), ParseIntOfQuotient(ms, MS_PER_MINUTE) % 60,
        ParseIntOfQuotient(ms, MS_PER_SECOND) % 60, ms % 1000)
  }

  /** `msToHms(ms)` as written, for a natural `ms`. */
  function MsToHmsAsWritten(ms: nat): (r: string)
    ensures 9 <= |r|
    ensures |r| == 9 <==> HmsAsWritten(ms).hours == 0
    ensures 1 <= ms <= 3 ==> 9 < |r|
  {
    FormatHmsShape(HmsAsWritten(ms));
    FormatHms(HmsAsWritten(ms))
  }

  /** From 4 ms on (and at 0) the source's fields are the exact ones. */
  lemma HmsAsWrittenAgrees(ms: nat)
    requires ms == 0 || 4 <= ms
    ensures HmsAsWritten(ms) == HmsOf(ms)
    ensures MsToHmsAsWritten(ms) == MsToHms(ms)
  {
  }

  /** `parseInt(1 / 3600000)` reads the 2 of "2.77…e-7". */
  lemma HoursQuotientAtOneMs()
    ensures ParseIntOfQuotient(1, MS_PER_HOUR) == 2
  {
    assert LeadingDigit(1000000, MS_PER_HOUR) == 2;
    assert LeadingDigit(100000, MS_PER_HOUR) == 2;
    assert LeadingDigit(10000, MS_PER_HOUR) == 2;
    assert LeadingDigit(1000, MS_PER_HOUR) == 2;
    assert LeadingDigit(100, MS_PER_HOUR) == 2;
    assert LeadingDigit(10, MS_PER_HOUR) == 2;
  }

  /** The `mm:ss.mmm` text of one thousandth. */
  lemma TimeTextOfOneThousandth(t: Hms)
    requires t.minutes == 0 && t.seconds == 0 && t.thousandths == 1
    ensures TimeText(t) == "00:00.001"
  {
    assert NatToString(1) == "1";
    assert NatToString(0) == "0";
    assert Pad0("0", 2) == "00";
    assert Pad0("1", 3) == "001";
  }

  /** At 1 ms the source prints a 2-hour segment that the exact division does not. */
  lemma MsToHmsAsWrittenAtOneMs()
    ensures HmsAsWritten(1).hours == 2 && HmsOf(1).hours == 0
    ensures MsToHmsAsWritten(1) == "2:00:00.001"
    ensures MsToHms(1) == "00:00.001"
  {
    HoursQuotientAtOneMs();
    var wrong := HmsAsWritten(1);
    var exact := HmsOf(1);
    assert wrong == Hms(2, 0, 0, 1);
    assert exact == Hms(0, 0, 0, 1);
    TimeTextOfOneThousandth(wrong);
    TimeTextOfOneThousandth(exact);
    assert NatToString(2) == "2";
  }
}
