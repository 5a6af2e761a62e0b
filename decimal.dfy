// Decimal text of integers as Python writes and reads it: str(int), f"{n:02d}" and int(str).

module Decimal {
  import opened Wrappers
  import opened Text

  predicate IsDigit(c: char) {
    '0' <= c <= '9'
  }

  predicate AllDigits(s: string) {
    forall i :: 0 <= i < |s| ==> IsDigit(s[i])
  }

  function DigitChar(d: nat): (c: char)
    requires d < 10
    ensures IsDigit(c) && c as int - '0' as int == d
  {
    ('0' as int + d) as char
  }

  function DigitValue(c: char): nat
    requires IsDigit(c)
  {
    c as int - '0' as int
  }

  /** str(n) for n >= 0: the shortest decimal digit string (no leading zero). */
  function NatToString(n: nat): (s: string)
    ensures |s| > 0 && AllDigits(s)
    ensures n >= 10 ==> s[0] != '0'
    ensures |s| == 1 <==> n < 10
    ensures 10 <= n < 100 ==> |s| == 2
    decreases n
  {
    if n < 10 then [DigitChar(n)]
    else
      var p := NatToString(n / 10);
      assert (p + [DigitChar(n % 10)])[0] == p[0];
      p + [DigitChar(n % 10)]
  }

  /** str(i): a minus sign before the digits of a negative number. */
  function IntToString(i: int): (s: string)
    ensures |s| > 0
    ensures s[0] == '-' <==> i < 0
  {
    if i < 0 then "-" + NatToString(-i) else NatToString(i)
  }

  /** f"{i:02d}": zero-padded to width 2; the sign counts towards the width. */
  function Pad2(i: int): (s: string)
    ensures |s| >= 2
    ensures 0 <= i < 100 ==> |s| == 2 && AllDigits(s)
  {
    if 0 <= i < 10 then "0" + NatToString(i) else IntToString(i)
  }

  /** The value of a string of decimal digits (the empty string reads as 0). */
  function DigitsValue(s: string): nat
    requires AllDigits(s)
  {
    if s == [] then 0 else DigitsValue(s[..|s| - 1]) * 10 + DigitValue(s[|s| - 1])
  }

  /** int(s) for a str argument: surrounding whitespace, an optional sign, then one or more
      ASCII digits; leading zeros are allowed. Anything else is a ValueError (None here). */
  function ParseInt(s: string): Option<int> {
    var t := Strip(s);
    if t == [] then None
    else
      var signed := t[0] == '-' || t[0] == '+';
      var body := if signed then t[1..] else t;
      if body == [] || !AllDigits(body) then None
      else
        var v: int := DigitsValue(body);
        Some(if t[0] == '-' then -v else v)
  }

  /** Reading back the digits of n gives n. */
  lemma {:induction false} NatToStringRoundTrip(n: nat)
    ensures DigitsValue(NatToString(n)) == n
    decreases n
  {
    if n >= 10 {
      NatToStringRoundTrip(n / 10);
      var s := NatToString(n);
      assert s[..|s| - 1] == NatToString(n / 10);
    }
  }

  lemma DigitsHaveNoSpace(s: string)
    requires |s| > 0 && AllDigits(s)
    ensures Strip(s) == s
  {
    assert !IsSpace(s[0]);
    assert LeadingSpaces(s) == 0;
    assert !IsSpace(s[|s| - 1]);
    assert TrailingSpaces(s) == 0;
  }

  lemma NegativeHasNoSpace(s: string)
    requires |s| > 1 && s[0] == '-' && AllDigits(s[1..])
    ensures Strip(s) == s
  {
    assert !IsSpace(s[0]) && LeadingSpaces(s) == 0;
    assert s[|s| - 1] == s[1..][|s| - 2];
    assert !IsSpace(s[|s| - 1]) && TrailingSpaces(s) == 0;
  }

  /** int(str(i)) == i for every integer. */
  lemma IntToStringRoundTrip(i: int)
    ensures ParseInt(IntToString(i)) == Some(i)
  {
    var s := IntToString(i);
    if i < 0 {
      NatToStringRoundTrip(-i);
      var d := NatToString(-i);
      assert s[1..] == d;
      NegativeHasNoSpace(s);
    } else {
      NatToStringRoundTrip(i);
      DigitsHaveNoSpace(s);
    }
  }

  /** int(f"{i:02d}") == i: the padded form still reads back as the number. */
  lemma Pad2RoundTrip(i: int)
    ensures ParseInt(Pad2(i)) == Some(i)
  {
    if 0 <= i < 10 {
      var s := Pad2(i);
      assert s == [DigitChar(0), DigitChar(i)];
      assert s[..1] == [DigitChar(0)];
      assert s[..1][..0] == [];
      assert DigitsValue(s[..1]) == 0;
      DigitsHaveNoSpace(s);
    } else {
      IntToStringRoundTrip(i);
    }
  }

  /** Distinct numbers are padded to distinct strings. */
  lemma Pad2Injective(a: int, b: int)
    requires Pad2(a) == Pad2(b)
    ensures a == b
  {
    Pad2RoundTrip(a);
    Pad2RoundTrip(b);
  }
}
