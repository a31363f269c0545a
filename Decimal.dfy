/**
 * Decimal integer text: how `int()` reads a `str` or `bytes` payload, and the
 * decimal rendering a remote store keeps for an integer it was given.
 */
module Decimal {
  import opened Wrappers

  predicate IsDigit(c: char)
  {
    '0' <= c <= '9'
  }

  function DigitChar(d: nat): (c: char)
    requires d < 10
    ensures IsDigit(c) && c as int - '0' as int == d
  {
    ('0' as int + d) as char
  }

  /** The decimal digits of `n`, most significant first, without leading zeros. */
  function Digits(n: nat): (s: string)
    ensures s != [] && forall i :: 0 <= i < |s| ==> IsDigit(s[i])
    ensures |s| > 1 ==> s[0] != '0'
  {
    if n < 10 then [DigitChar(n)] else Digits(n / 10) + [DigitChar(n % 10)]
  }

  /** `str(i)`: a minus sign exactly for a negative `i`, then digits without a leading zero. */
  function Show(i: int): (s: string)
    ensures s != [] && (s[0] == '-' <==> i < 0)
    ensures forall k :: (if i < 0 then 1 else 0) <= k < |s| ==> IsDigit(s[k])
    ensures |s| > (if i < 0 then 2 else 1) ==> s[if i < 0 then 1 else 0] != '0'
  {
    if i < 0 then "-" + Digits(-i) else Digits(i)
  }

  /** The value of a non-empty run of ASCII digits; None for anything else. */
  function ParseDigits(s: string): (r: Option<nat>)
    ensures r.Some? <==> s != [] && forall i :: 0 <= i < |s| ==> IsDigit(s[i])
  {
    if s == [] || !IsDigit(s[|s| - 1]) then None
    else
      var d := s[|s| - 1] as int - '0' as int;
      if |s| == 1 then Some(d)
      else
        match ParseDigits(s[..|s| - 1])
        case None => None
        case Some(v) => Some(v * 10 + d)
  }

  /**
   * `int(s)` for an optional sign followed by ASCII digits; None where
   * `int()` raises ValueError.
   */
  function Parse(s: string): (r: Option<int>)
    ensures var t := if s != [] && (s[0] == '-' || s[0] == '+') then s[1..] else s;
            r.Some? <==> t != [] && forall i :: 0 <= i < |t| ==> IsDigit(t[i])
    ensures r.Some? && r.value < 0 ==> s[0] == '-'
  {
    if s != [] && s[0] == '-' then
      match ParseDigits(s[1..])
      case None => None
      case Some(v) => Some(-(v as int))
    else if s != [] && s[0] == '+' then
      ParseDigits(s[1..])
    else
      ParseDigits(s)
  }

  lemma {:induction false} ParseDigitsOfDigits(n: nat)
    ensures ParseDigits(Digits(n)) == Some(n)
  {
    if n >= 10 {
      var s := Digits(n);
      assert s[..|s| - 1] == Digits(n / 10);
      ParseDigitsOfDigits(n / 10);
    }
  }

  /** Round trip: the decimal rendering of every integer parses back to it. */
  lemma ParseShow(i: int)
    ensures Parse(Show(i)) == Some(i)
  {
    var s := Show(i);
    if i < 0 {
      assert s[0] == '-' && s[1..] == Digits(-i);
      ParseDigitsOfDigits(-i);
      assert Parse(s) == Some(-(ParseDigits(s[1..]).value as int));
    } else {
      assert IsDigit(s[0]);
      ParseDigitsOfDigits(i);
      assert Parse(s) == ParseDigits(s);
    }
  }
}
