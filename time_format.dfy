/**
 * The `formatTime` helper of the home page: seconds rendered as `MM:SS`
 * with both fields zero-padded to at least two characters.
 *
 * JavaScript semantics are written out: `Math.floor(s / 60)` is Dafny's `/`
 * (the two agree for a positive divisor), while `s % 60` truncates toward
 * zero and `toString()` of a negative integer starts with '-'.
 */
module TimeFormat {
  import opened Wrappers

  predicate IsDigit(c: char) { '0' <= c <= '9' }

  predicate AllDigits(s: string) { forall i :: 0 <= i < |s| ==> IsDigit(s[i]) }

  function DigitValue(c: char): nat
    requires IsDigit(c)
  {
    c as int - '0' as int
  }

  function DigitChar(d: nat): (c: char)
    requires d < 10
    ensures IsDigit(c) && DigitValue(c) == d
  {
    ('0' as int + d) as char
  }

  /** The value of a string of decimal digits, most significant first. */
  function Value(s: string): nat
    requires AllDigits(s)
  {
    if s == [] then 0 else Value(s[..|s| - 1]) * 10 + DigitValue(s[|s| - 1])
  }

  /** `n.toString()` for a non-negative integer. */
  function NatToString(n: nat): (s: string)
    ensures |s| >= 1 && AllDigits(s)
  {
    if n < 10 then [DigitChar(n)] else NatToString(n / 10) + [DigitChar(n % 10)]
  }

  /** `i.toString()` for an integer of either sign: the canonical numeral, with no leading zero. */
  function IntToString(i: int): (s: string)
    ensures i >= 0 ==> AllDigits(s) && Value(s) == i
    ensures i < 0 ==> |s| >= 2 && s[0] == '-' && AllDigits(s[1..]) && Value(s[1..]) == -i
    ensures i >= 0 ==> |s| >= 1 && (|s| >= 2 ==> s[0] != '0')
    ensures i < 0 ==> (|s| >= 3 ==> s[1] != '0')
  {
    if i < 0 then
      NatToStringValue(-i);
      var s := "-" + NatToString(-i);
      assert s[1..] == NatToString(-i);
      s
    else
      NatToStringValue(i);
      NatToString(i)
  }

  /** `k` zero characters. */
  function Zeros(k: nat): (z: string)
    ensures |z| == k && AllDigits(z)
  {
    seq(k, _ => '0')
  }

  /** `s.padStart(width, '0')`: zeros are prepended until the string is `width` long. */
  function PadStart(s: string, width: nat): (r: string)
    ensures |r| == if |s| >= width then |s| else width
  {
    if |s| >= width then s else Zeros(width - |s|) + s
  }

  /** JavaScript's `a % b` for a positive divisor: the remainder takes the sign of `a`. */
  function TruncRem(a: int, b: int): (r: int)
    requires b > 0
    ensures -b < r < b
    ensures a >= 0 ==> r >= 0
    ensures a < 0 ==> r <= 0
  {
    if a >= 0 then a % b else -((-a) % b)
  }

  /** One field of the display: `v.toString().padStart(2, '0')`. */
  function Field(v: int): (f: string)
    ensures |f| >= 2
  {
    PadStart(IntToString(v), 2)
  }

  /** `formatTime(seconds)`: `Math.floor(seconds / 60)` is `seconds / 60` here, `seconds % 60` is `TruncRem`. */
  function FormatTime(seconds: int): (t: string)
    ensures |t| >= 5
  {
    Field(seconds / 60) + ":" + Field(TruncRem(seconds, 60))
  }

  /**
   * Reads a clock display back: a minutes field of at least two digits, ':',
   * and a seconds field of exactly two digits below 60.
   */
  function ParseClock(t: string): Option<nat>
  {
    if |t| < 5 || t[|t| - 3] != ':' then None
    else ParseFields(t[..|t| - 3], t[|t| - 2..])
  }

  /** The two fields around the ':' of a clock display, as a number of seconds. */
  function ParseFields(mm: string, ss: string): Option<nat>
  {
    if AllDigits(mm) && AllDigits(ss) && Value(ss) < 60
    then Some(Value(mm) * 60 + Value(ss))
    else None
  }

  // ---- lemmas about the decimal rendering ----

  lemma {:induction false} ValueAppend(s: string, c: char)
    requires AllDigits(s) && IsDigit(c)
    ensures AllDigits(s + [c]) && Value(s + [c]) == Value(s) * 10 + DigitValue(c)
  {
    assert (s + [c])[..|s|] == s;
  }

  /** A leading zero does not change the value of a digit string. */
  lemma {:induction false} LeadingZero(s: string)
    requires AllDigits(s)
    ensures AllDigits(['0'] + s) && Value(['0'] + s) == Value(s)
  {
    if s != [] {
      var init, last := s[..|s| - 1], s[|s| - 1];
      assert s == init + [last];
      LeadingZero(init);
      assert ['0'] + s == (['0'] + init) + [last];
      ValueAppend(['0'] + init, last);
    }
  }

  /** Any number of leading zeros leaves the value of a digit string unchanged. */
  lemma {:induction false} ZerosValue(k: nat, s: string)
    requires AllDigits(s)
    ensures AllDigits(Zeros(k) + s) && Value(Zeros(k) + s) == Value(s)
  {
    if k == 0 {
      assert Zeros(k) + s == s;
    } else {
      ZerosValue(k - 1, s);
      assert Zeros(k) + s == ['0'] + (Zeros(k - 1) + s);
      LeadingZero(Zeros(k - 1) + s);
    }
  }

  lemma PadStartValue(s: string, width: nat)
    requires AllDigits(s)
    ensures AllDigits(PadStart(s, width)) && Value(PadStart(s, width)) == Value(s)
  {
    if |s| < width {
      ZerosValue(width - |s|, s);
    }
  }

  /** `toString()` is the canonical decimal numeral: it reads back as `n` and has no leading zero. */
  lemma {:induction false} NatToStringValue(n: nat)
    ensures Value(NatToString(n)) == n
    ensures n >= 10 ==> NatToString(n)[0] != '0'
  {
    if n >= 10 {
      NatToStringValue(n / 10);
      ValueAppend(NatToString(n / 10), DigitChar(n % 10));
    }
  }

  /** A number has at most two decimal digits exactly when it is below 100. */
  lemma NatToStringAtMostTwo(n: nat)
    ensures |NatToString(n)| <= 2 <==> n < 100
  {
    if n >= 10 {
      assert |NatToString(n)| == |NatToString(n / 10)| + 1;
      if n / 10 >= 10 {
        assert |NatToString(n / 10)| == |NatToString(n / 100)| + 1;
      }
    }
  }

  /** For `n >= 0` a field reads back as `n` and is two characters long exactly when `n < 100`. */
  lemma FieldOfNat(n: nat)
    ensures var f := Field(n);
            && |f| >= 2 && (|f| == 2 <==> n < 100)
            && AllDigits(f) && Value(f) == n
  {
    NatToStringAtMostTwo(n);
    NatToStringValue(n);
    PadStartValue(NatToString(n), 2);
  }

  /** For `s >= 0` the display is the minutes field, ':', and the seconds field. */
  lemma FormatTimeFields(s: nat)
    ensures FormatTime(s) == Field(s / 60) + ":" + Field(s % 60)
  {
    assert TruncRem(s, 60) == s % 60;
  }

  /** JavaScript's `a % 60` differs from `a` by a multiple of 60; with the sign and bound of `TruncRem` this fixes it. */
  lemma TruncRemCongruent(a: int)
    ensures (a - TruncRem(a, 60)) % 60 == 0
  {
  }

  lemma DivMod60(s: nat)
    ensures s == (s / 60) * 60 + s % 60 && s % 60 < 60
    ensures s / 60 < 100 <==> s < 6000
  {
  }

  /** A display built from a minutes field of two or more characters and a two-character seconds field is read back field by field. */
  lemma ParseClockFields(mm: string, ss: string)
    requires |mm| >= 2 && |ss| == 2
    ensures ParseClock(mm + ":" + ss) == ParseFields(mm, ss)
  {
    var t := mm + ":" + ss;
    assert |t| >= 5 && t[|t| - 3] == ':';
    assert t[..|t| - 3] == mm && t[|t| - 2..] == ss;
  }

  lemma ClockShape(mm: string, ss: string)
    requires |mm| == 2 && |ss| == 2 && AllDigits(mm) && AllDigits(ss)
    ensures var t := mm + ":" + ss;
            |t| == 5 && t[2] == ':' && IsDigit(t[0]) && IsDigit(t[1]) && IsDigit(t[3]) && IsDigit(t[4])
  {
    var t := mm + ":" + ss;
    assert t[0] == mm[0] && t[1] == mm[1] && t[3] == ss[0] && t[4] == ss[1];
  }

  /** Below 100 a field is the two decimal digits of its value. */
  lemma FieldBelow100(n: nat)
    requires n < 100
    ensures Field(n) == [DigitChar(n / 10), DigitChar(n % 10)]
  {
    if n < 10 {
      assert NatToString(n) == [DigitChar(n)];
      assert Zeros(1) == ['0'];
    } else {
      assert NatToString(n / 10) == [DigitChar(n / 10)];
    }
  }

  // ---- properties of formatTime ----

  lemma FormatTimeExamples()
    ensures FormatTime(125) == "02:05"
    ensures FormatTime(59) == "00:59"
    ensures FormatTime(0) == "00:00"
    ensures FormatTime(3) == "00:03"
  {
    FieldBelow100(2);
    FieldBelow100(5);
    FieldBelow100(0);
    FieldBelow100(59);
    FieldBelow100(3);
  }

  /** Below 100 minutes the display is exactly `MM:SS`, five characters with ':' at index 2. */
  lemma FormatTimeShape(s: int)
    requires 0 <= s < 6000
    ensures var t := FormatTime(s);
            |t| == 5 && t[2] == ':' && IsDigit(t[0]) && IsDigit(t[1]) && IsDigit(t[3]) && IsDigit(t[4])
  {
    DivMod60(s);
    FieldOfNat(s / 60);
    FieldOfNat(s % 60);
    ClockShape(Field(s / 60), Field(s % 60));
    FormatTimeFields(s);
  }

  /** For non-negative input the display is five characters long exactly below 6000 seconds; at 6000 and beyond the minutes field grows. */
  lemma FormatTimeLength(s: int)
    requires s >= 0
    ensures |FormatTime(s)| == 5 <==> s < 6000
    ensures s >= 6000 ==> |FormatTime(s)| > 5
  {
    DivMod60(s);
    FieldOfNat(s / 60);
    FieldOfNat(s % 60);
    FormatTimeFields(s);
  }

  /** Reading the display back gives the seconds it was made from: MM * 60 + SS == s with SS < 60. */
  lemma FormatTimeRoundTrip(s: int)
    requires s >= 0
    ensures ParseClock(FormatTime(s)) == Some(s)
  {
    var mm, ss := Field(s / 60), Field(s % 60);
    assert ParseFields(mm, ss) == Some(s) by {
      DivMod60(s);
      FieldOfNat(s / 60);
      FieldOfNat(s % 60);
    }
    assert |mm| >= 2 && |ss| == 2 by {
      FieldOfNat(s / 60);
      FieldOfNat(s % 60);
    }
    ParseClockFields(mm, ss);
    FormatTimeFields(s);
  }

  /** Distinct non-negative durations are displayed differently. */
  lemma FormatTimeInjective(s1: int, s2: int)
    requires s1 >= 0 && s2 >= 0
    requires FormatTime(s1) == FormatTime(s2)
    ensures s1 == s2
  {
    FormatTimeRoundTrip(s1);
    FormatTimeRoundTrip(s2);
  }

  /** A negative duration (the clock went backwards) renders with a leading minus sign. */
  lemma FormatTimeNegative(s: int)
    requires s < 0
    ensures FormatTime(s)[0] == '-'
  {
    assert |IntToString(s / 60)| >= 2;
    assert Field(s / 60) == IntToString(s / 60);
  }
}
