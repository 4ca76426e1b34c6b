/**
 * The "mm:ss" rendering of the playback clock (GameManagerScript.SerializeSeconds),
 * with C#'s truncating integer division and remainder, Int32.ToString and
 * String.PadLeft written out, and a parser that reads the rendering back.
 */
module Clock {
  import opened Wrappers

  predicate IsDigit(c: char) { '0' <= c <= '9' }

  predicate AllDigits(s: string) { forall i :: 0 <= i < |s| ==> IsDigit(s[i]) }

  function DigitValue(c: char): nat
    requires IsDigit(c)
  {
    c as int - '0' as int
  }

  function DigitChar(d: nat): (c: char)
    requires d < 10
    ensures IsDigit(c) && DigitValue(c) == d
  {
    ('0' as int + d) as char
  }

  /** C#'s `/` on int: the quotient truncated toward zero. */
  function TruncDiv(a: int, b: int): (q: int)
    requires b > 0
    ensures a >= 0 ==> q >= 0
    ensures a <= 0 ==> q <= 0
    ensures -b < a < b ==> q == 0
  {
    if a >= 0 then a / b else -((-a) / b)
  }

  /** C#'s `%` on int: the remainder takes the sign of the dividend. */
  function TruncRem(a: int, b: int): (r: int)
    requires b > 0
    ensures a >= 0 ==> 0 <= r < b
    ensures a < 0 ==> -b < r <= 0
  {
    if a >= 0 then a % b else -((-a) % b)
  }

  /**
   * Quotient and remainder recombine to the dividend; the remainder is below the
   * divisor in size and never has the opposite sign of the dividend.
   */
  lemma TruncDivRem(a: int, b: int)
    requires b > 0
    ensures TruncDiv(a, b) * b + TruncRem(a, b) == a
    ensures a >= 0 ==> TruncDiv(a, b) == a / b && TruncRem(a, b) == a % b && 0 <= TruncRem(a, b) < b
    ensures a < 0 ==> TruncDiv(a, b) <= 0 && -b < TruncRem(a, b) <= 0
  {
  }

  /** Decimal digits of a natural number, most significant first, without leading zeros. */
  function NatToString(n: nat): (s: string)
    ensures 1 <= |s| && AllDigits(s)
    ensures n < 10 <==> |s| == 1
    ensures n < 100 ==> |s| <= 2
    ensures n == 0 <==> s == "0"
    ensures n > 0 ==> s[0] != '0'
    decreases n
  {
    if n < 10 then [DigitChar(n)] else NatToString(n / 10) + [DigitChar(n % 10)]
  }

  /** C#'s Int32.ToString(): a leading '-' for negative values. */
  function IntToString(i: int): (s: string)
    ensures i >= 0 ==> s == NatToString(i)
    ensures ('-' in s) <==> i < 0
  {
    if i < 0 then "-" + NatToString(-i) else NatToString(i)
  }

  function Repeat(c: char, k: nat): (s: string)
    ensures |s| == k && forall i :: 0 <= i < k ==> s[i] == c
  {
    if k == 0 then [] else Repeat(c, k - 1) + [c]
  }

  /** C#'s String.PadLeft(width, c): prepend copies of c until the string is width long. */
  function PadLeft(s: string, width: nat, c: char): (r: string)
    ensures |r| == if |s| >= width then |s| else width
  {
    if |s| >= width then s else Repeat(c, width - |s|) + s
  }

  /** The padded string ends with the original and holds only pad characters before it. */
  lemma PadLeftShape(s: string, width: nat, c: char)
    ensures var r := PadLeft(s, width, c);
      && r[|r| - |s|..] == s
      && forall i :: 0 <= i < |r| - |s| ==> r[i] == c
  {
  }

  /** GameManagerScript.SerializeSeconds: whole minutes and leftover seconds, each padded to two places. */
  function SerializeSeconds(seconds: int): (r: string)
    ensures |r| >= 5
  {
    var minutes := TruncDiv(seconds, 60);
    var secondsLeft := TruncRem(seconds, 60);
    PadLeft(IntToString(minutes), 2, '0') + ":" + PadLeft(IntToString(secondsLeft), 2, '0')
  }

  /** The value of a string of decimal digits (leading zeros allowed). */
  function DigitsValue(s: string): nat
    requires AllDigits(s)
  {
    if s == [] then 0 else DigitsValue(s[..|s| - 1]) * 10 + DigitValue(s[|s| - 1])
  }

  /**
   * Reads a clock "m…m:ss" back into seconds: at least one minute digit, a colon,
   * exactly two second digits below 60. Anything else is rejected.
   */
  function ParseClock(s: string): (r: Option<nat>)
    ensures r.Some? ==> |s| >= 4 && s[|s| - 3] == ':'
  {
    if |s| >= 4 && s[|s| - 3] == ':' && AllDigits(s[..|s| - 3]) && AllDigits(s[|s| - 2..])
       && DigitsValue(s[|s| - 2..]) < 60
    then Some(DigitsValue(s[..|s| - 3]) * 60 + DigitsValue(s[|s| - 2..]))
    else None
  }

  lemma {:induction false} DigitsValueOfNatToString(n: nat)
    ensures DigitsValue(NatToString(n)) == n
    decreases n
  {
    if n >= 10 {
      var s := NatToString(n);
      assert s[..|s| - 1] == NatToString(n / 10);
      DigitsValueOfNatToString(n / 10);
    }
  }

  lemma {:induction false} DigitsValueOfZeros(k: nat)
    ensures AllDigits(Repeat('0', k)) && DigitsValue(Repeat('0', k)) == 0
  {
    if k > 0 {
      assert Repeat('0', k)[..k - 1] == Repeat('0', k - 1);
      DigitsValueOfZeros(k - 1);
    }
  }

  /** Leading zeros do not change the value of a digit string. */
  lemma {:induction false} DigitsValueIgnoresLeadingZeros(k: nat, s: string)
    requires AllDigits(s)
    ensures AllDigits(Repeat('0', k) + s)
    ensures DigitsValue(Repeat('0', k) + s) == DigitsValue(s)
    decreases |s|
  {
    var z := Repeat('0', k);
    if s == [] {
      assert z + s == z;
      DigitsValueOfZeros(k);
    } else {
      assert (z + s)[..|z + s| - 1] == z + s[..|s| - 1];
      DigitsValueIgnoresLeadingZeros(k, s[..|s| - 1]);
    }
  }

  /** A padded rendering of n is all digits and still reads as n. */
  lemma PaddedValue(n: nat)
    ensures AllDigits(PadLeft(NatToString(n), 2, '0'))
    ensures DigitsValue(PadLeft(NatToString(n), 2, '0')) == n
  {
    var s := NatToString(n);
    DigitsValueOfNatToString(n);
    if |s| < 2 {
      DigitsValueIgnoresLeadingZeros(2 - |s|, s);
    }
  }

  /**
   * r is "minutes:seconds" with a minutes field of at least two digits and a
   * seconds field of exactly two digits, holding seconds / 60 and seconds % 60.
   */
  predicate ClockFields(r: string, seconds: nat)
  {
    && |r| >= 5 && r[|r| - 3] == ':'
    && AllDigits(r[..|r| - 3]) && AllDigits(r[|r| - 2..])
    && DigitsValue(r[..|r| - 3]) == seconds / 60
    && DigitsValue(r[|r| - 2..]) == seconds % 60
  }

  /** For a non-negative count of seconds the rendering has the clock fields of that count. */
  lemma SerializeSecondsFields(seconds: int)
    requires seconds >= 0
    ensures ClockFields(SerializeSeconds(seconds), seconds)
  {
    var m, l := seconds / 60, seconds % 60;
    TruncDivRem(seconds, 60);
    assert IntToString(TruncDiv(seconds, 60)) == NatToString(m);
    assert IntToString(TruncRem(seconds, 60)) == NatToString(l);
    var a, b := PadLeft(NatToString(m), 2, '0'), PadLeft(NatToString(l), 2, '0');
    PaddedValue(m);
    PaddedValue(l);
    var r := a + ":" + b;
    assert SerializeSeconds(seconds) == r;
    assert |b| == 2;
    assert r[..|r| - 3] == a;
    assert r[|r| - 2..] == b;
  }

  /** A clock text whose fields hold seconds / 60 and seconds % 60 parses back to seconds. */
  lemma ParseClockOfFields(r: string, seconds: nat)
    requires ClockFields(r, seconds)
    ensures ParseClock(r) == Some(seconds)
  {
  }

  /** ParseClock inverts SerializeSeconds on every non-negative count of seconds. */
  lemma SerializeSecondsRoundTrip(seconds: int)
    requires seconds >= 0
    ensures ParseClock(SerializeSeconds(seconds)) == Some(seconds)
  {
    SerializeSecondsFields(seconds);
    ParseClockOfFields(SerializeSeconds(seconds), seconds);
  }

  /** Distinct non-negative counts render differently. */
  lemma SerializeSecondsInjective(a: int, b: int)
    requires a >= 0 && b >= 0 && a != b
    ensures SerializeSeconds(a) != SerializeSeconds(b)
  {
    SerializeSecondsRoundTrip(a);
    SerializeSecondsRoundTrip(b);
  }

  lemma PadLeftKeepsMinus(s: string, width: nat)
    ensures ('-' in PadLeft(s, width, '0')) <==> ('-' in s)
  {
    var r := PadLeft(s, width, '0');
    PadLeftShape(s, width, '0');
    if '-' in s {
      var i :| 0 <= i < |s| && s[i] == '-';
      assert r[|r| - |s| + i] == '-';
    }
    if '-' in r {
      var i :| 0 <= i < |r| && r[i] == '-';
      assert r[|r| - |s|..][i - (|r| - |s|)] == '-';
    }
  }

  /** A minus sign appears in the rendering exactly when the count is negative. */
  lemma SerializeSecondsSign(seconds: int)
    ensures ('-' in SerializeSeconds(seconds)) <==> seconds < 0
  {
    var minutes, left := TruncDiv(seconds, 60), TruncRem(seconds, 60);
    TruncDivRem(seconds, 60);
    var a, b := PadLeft(IntToString(minutes), 2, '0'), PadLeft(IntToString(left), 2, '0');
    PadLeftKeepsMinus(IntToString(minutes), 2);
    PadLeftKeepsMinus(IntToString(left), 2);
    var r := a + ":" + b;
    assert r == SerializeSeconds(seconds);
    assert ('-' in r) <==> ('-' in a || '-' in b);
    if seconds < 0 && left == 0 {
      assert -seconds >= 60;
      assert minutes < 0;
    }
  }
}
