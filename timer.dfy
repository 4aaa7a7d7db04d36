/**
 * The recording timer's text (static/script.js, startTimer): every second the
 * elapsed count is shown as minutes and seconds, each rendered in decimal and
 * left-padded with '0' to two characters, joined by ':'.
 */
module RecordingTimer {

  /** The decimal character of a digit 0..9. */
  function DigitChar(d: nat): (c: char)
    requires d < 10
    ensures '0' <= c <= '9'
    ensures c as int - '0' as int == d
  {
    ['0', '1', '2', '3', '4', '5', '6', '7', '8', '9'][d]
  }

  /** `String(n)` for a non-negative integer: its decimal digits, no leading zero. */
  function Decimal(n: nat): (s: string)
    ensures 1 <= |s|
    ensures forall i :: 0 <= i < |s| ==> '0' <= s[i] <= '9'
    ensures |s| > 1 ==> s[0] != '0'
    ensures n < 10 <==> |s| == 1
  {
    if n < 10 then [DigitChar(n)] else Decimal(n / 10) + [DigitChar(n % 10)]
  }

  /** `s.padStart(2, '0')`: prepend '0' until the text is two characters long. */
  function PadStart2(s: string): (r: string)
    ensures |r| == if |s| < 2 then 2 else |s|
    ensures r[|r| - |s|..] == s
    ensures forall i :: 0 <= i < |r| - |s| ==> r[i] == '0'
  {
    if |s| == 0 then "00" else if |s| == 1 then ['0'] + s else s
  }

  /**
   * The text shown after `seconds` seconds of recording; it reads back as the
   * elapsed count.
   */
  function TimerText(seconds: nat): (t: string)
    ensures ParseTimer(t) == seconds
  {
    TimerPartsReadBack(seconds);
    PadStart2(Decimal(seconds / 60)) + ":" + PadStart2(Decimal(seconds % 60))
  }

  /** Below 100 a padded decimal is exactly two characters. */
  lemma SecondsTakeTwoCharacters(n: nat)
    requires n < 100
    ensures |PadStart2(Decimal(n))| == 2
  {
    if n >= 10 {
      assert n / 10 < 10;
      assert |Decimal(n)| == |Decimal(n / 10)| + 1;
    }
  }

  /** Reading decimal text back as a number (a reference decoder for the round trip). */
  function ParseDecimal(s: string): nat
  {
    if s == [] then 0
    else
      var c := s[|s| - 1];
      ParseDecimal(s[..|s| - 1]) * 10 + (if '0' <= c <= '9' then c as int - '0' as int else 0)
  }

  /** Splits a text at its first ':' (the whole text and "" when there is none). */
  function SplitAtColon(t: string): (r: (string, string))
    ensures |r.0| <= |t|
  {
    if t == [] then ([], [])
    else if t[0] == ':' then ([], t[1..])
    else var rest := SplitAtColon(t[1..]); ([t[0]] + rest.0, rest.1)
  }

  /** Reads a timer text back into the number of seconds it shows. */
  function ParseTimer(t: string): nat
  {
    var parts := SplitAtColon(t);
    ParseDecimal(parts.0) * 60 + ParseDecimal(parts.1)
  }

  lemma {:induction false} ParseDecimalOfDecimal(n: nat)
    ensures ParseDecimal(Decimal(n)) == n
  {
    if n >= 10 {
      var s := Decimal(n);
      assert s[..|s| - 1] == Decimal(n / 10);
      ParseDecimalOfDecimal(n / 10);
    }
  }

  /** Leading zeros do not change the value read back. */
  lemma {:induction false} ParseDecimalLeadingZeros(z: string, s: string)
    requires forall i :: 0 <= i < |z| ==> z[i] == '0'
    ensures ParseDecimal(z + s) == ParseDecimal(s)
  {
    if s == [] {
      assert z + s == z;
      ZerosParseToZero(z);
    } else {
      assert (z + s)[..|z + s| - 1] == z + s[..|s| - 1];
      ParseDecimalLeadingZeros(z, s[..|s| - 1]);
    }
  }

  lemma {:induction false} ZerosParseToZero(z: string)
    requires forall i :: 0 <= i < |z| ==> z[i] == '0'
    ensures ParseDecimal(z) == 0
  {
    if z != [] {
      ZerosParseToZero(z[..|z| - 1]);
    }
  }

  lemma {:induction false} SplitAtColonJoin(a: string, b: string)
    requires forall i :: 0 <= i < |a| ==> a[i] != ':'
    ensures SplitAtColon(a + ":" + b) == (a, b)
  {
    if a != [] {
      assert (a + ":" + b)[0] == a[0];
      assert (a + ":" + b)[1..] == a[1..] + ":" + b;
      SplitAtColonJoin(a[1..], b);
      assert [a[0]] + a[1..] == a;
    } else {
      assert a + ":" + b == [':'] + b;
    }
  }

  /** Padding only ever adds leading zeros: the padded text reads back as the same number. */
  lemma PaddedDecimalReadsBack(n: nat)
    ensures ParseDecimal(PadStart2(Decimal(n))) == n
    ensures |PadStart2(Decimal(n))| == (if n < 10 then 2 else |Decimal(n)|)
  {
    var s := Decimal(n);
    var r := PadStart2(s);
    var z := r[..|r| - |s|];
    assert r == z + s;
    ParseDecimalLeadingZeros(z, s);
    ParseDecimalOfDecimal(n);
  }

  /** The minutes, a ':' and the remaining seconds, each padded, read back as the elapsed count. */
  lemma TimerPartsReadBack(seconds: nat)
    ensures ParseTimer(PadStart2(Decimal(seconds / 60)) + ":" + PadStart2(Decimal(seconds % 60))) == seconds
  {
    var m := PadStart2(Decimal(seconds / 60));
    var s := PadStart2(Decimal(seconds % 60));
    SplitAtColonJoin(m, s);
    PaddedDecimalReadsBack(seconds / 60);
    PaddedDecimalReadsBack(seconds % 60);
  }

  /** Below 100 minutes the text is always five characters, "mm:ss". */
  lemma TimerTextShape(seconds: nat)
    requires seconds < 6000
    ensures |TimerText(seconds)| == 5 && TimerText(seconds)[2] == ':'
  {
    var mins := seconds / 60;
    assert mins < 100;
    var m := PadStart2(Decimal(mins));
    var sec := PadStart2(Decimal(seconds % 60));
    SecondsTakeTwoCharacters(mins);
    SecondsTakeTwoCharacters(seconds % 60);
    assert TimerText(seconds) == m + ":" + sec;
    assert (m + ":" + sec)[2] == ':';
  }

  lemma TimerTextAtStart()
    ensures TimerText(0) == "00:00"
  {
  }
}
