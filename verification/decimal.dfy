/** Decimal digit strings and separator-delimited lists: the lexical layer
    shared by the link-mask and card-id string parsers. */
module Decimal {
  import opened Wrappers

  // ---------------------------------------------------------------------------
  // Digits

  predicate IsDigit(c: char)
  {
    '0' <= c <= '9'
  }

  predicate AllDigits(s: string)
  {
    forall i :: 0 <= i < |s| ==> IsDigit(s[i])
  }

  function DigitValue(c: char): nat
    requires IsDigit(c)
  {
    c as int - '0' as int
  }

  function DigitChar(d: nat): (c: char)
    requires d < 10
    ensures IsDigit(c) && DigitValue(c) == d
  {
    ('0' as int + d) as char
  }

  /** The value of a run of decimal digits, most significant digit first. */
  function DigitsValue(s: string): nat
    requires AllDigits(s)
  {
    if s == [] then 0 else DigitsValue(s[..|s| - 1]) * 10 + DigitValue(s[|s| - 1])
  }

  /** A spelling without superfluous leading zeros. */
  predicate Canonical(s: string)
  {
    s != [] && (s[0] == '0' ==> |s| == 1)
  }

  /** The shortest decimal spelling of `n`. */
  function NatToString(n: nat): (s: string)
    ensures AllDigits(s) && Canonical(s)
    ensures DigitsValue(s) == n
  {
    if n < 10 then [DigitChar(n)]
    else
      var prefix := NatToString(n / 10);
      var s := prefix + [DigitChar(n % 10)];
      assert s[..|s| - 1] == prefix;
      s
  }

  /** A non-empty run of digits read as a natural number; anything else is
      not a number. */
  function ParseNat(s: string): (r: Option<nat>)
    ensures r.Some? <==> s != [] && AllDigits(s)
    ensures r.Some? ==> r.value == DigitsValue(s)
  {
    if s != [] && AllDigits(s) then Some(DigitsValue(s)) else None
  }

  /** An optional minus sign followed by digits. */
  function ParseInt(s: string): (r: Option<int>)
    ensures r.Some? && r.value < 0 ==> s != [] && s[0] == '-'
  {
    if s != [] && s[0] == '-' then
      match ParseNat(s[1..])
      case Some(n) => Some(-(n as int))
      case None => None
    else
      match ParseNat(s)
      case Some(n) => Some(n)
      case None => None
  }

  function IntToString(i: int): (s: string)
  {
    if i < 0 then "-" + NatToString(-i) else NatToString(i)
  }

  lemma {:induction false} DigitsValueUnique(s: string, t: string)
    requires AllDigits(s) && Canonical(s) && AllDigits(t) && Canonical(t)
    requires DigitsValue(s) == DigitsValue(t)
    ensures s == t
    decreases |s|
  {
    var s', t' := s[..|s| - 1], t[..|t| - 1];
    if |s| == 1 || |t| == 1 {
      LongDigitsAreLarge(s);
      LongDigitsAreLarge(t);
      if |s| == 1 && |t| == 1 {
        assert DigitValue(s[0]) == DigitValue(t[0]);
      }
    } else {
      assert s'[0] == s[0] && t'[0] == t[0];
      assert DigitsValue(s') == DigitsValue(t') && s[|s| - 1] == t[|t| - 1] by {
        var x, y := DigitsValue(s'), DigitsValue(t');
        var a, b := DigitValue(s[|s| - 1]), DigitValue(t[|t| - 1]);
        assert x * 10 + a == y * 10 + b;
        assert x == y && a == b;
      }
      DigitsValueUnique(s', t');
      assert s == s' + [s[|s| - 1]] && t == t' + [t[|t| - 1]];
    }
  }

  /** A canonical spelling of two or more digits is worth at least ten. */
  lemma {:induction false} LongDigitsAreLarge(s: string)
    requires AllDigits(s) && Canonical(s)
    ensures |s| == 1 ==> DigitsValue(s) == DigitValue(s[0])
    ensures |s| > 1 ==> DigitsValue(s) >= 10
    decreases |s|
  {
    if |s| == 1 {
      assert s[..0] == [];
    } else if |s| > 1 {
      var s' := s[..|s| - 1];
      assert s'[0] == s[0];
      LongDigitsAreLarge(s');
      if |s'| == 1 {
        assert DigitValue(s[0]) != 0;
      }
    }
  }

  /** NatToString is the only canonical spelling of a number. */
  lemma CanonicalSpelling(s: string, n: nat)
    requires Canonical(s) && ParseNat(s) == Some(n)
    ensures s == NatToString(n)
  {
    DigitsValueUnique(s, NatToString(n));
  }

  lemma ParseIntToString(i: int)
    ensures ParseInt(IntToString(i)) == Some(i)
  {
    var digits := if i < 0 then NatToString(-i) else NatToString(i);
    if i < 0 {
      assert IntToString(i)[1..] == digits;
    } else {
      assert IsDigit(digits[0]);
    }
  }

  // ---------------------------------------------------------------------------
  // Separated lists

  /** The pieces joined back together with `sep` between neighbours. */
  function Join(parts: seq<string>, sep: char): string
  {
    if |parts| == 0 then []
    else if |parts| == 1 then parts[0]
    else parts[0] + [sep] + Join(parts[1..], sep)
  }

  predicate Pieces(parts: seq<string>, sep: char)
  {
    |parts| >= 1 && forall i :: 0 <= i < |parts| ==> sep !in parts[i]
  }

  /** The pieces of `s` between occurrences of `sep`: one more piece than
      there are separators, each free of `sep`. */
  function Split(s: string, sep: char): (parts: seq<string>)
    ensures Pieces(parts, sep)
    ensures Join(parts, sep) == s
  {
    if s == [] then [[]]
    else
      var rest := Split(s[1..], sep);
      if s[0] == sep then
        assert s == [sep] + Join(rest, sep);
        [[]] + rest
      else
        var parts := [[s[0]] + rest[0]] + rest[1..];
        assert parts[1..] == rest[1..];
        JoinCons(s[0], rest, sep);
        parts
  }

  lemma JoinCons(c: char, parts: seq<string>, sep: char)
    requires |parts| >= 1
    ensures Join([[c] + parts[0]] + parts[1..], sep) == [c] + Join(parts, sep)
  {
    var joined := [[c] + parts[0]] + parts[1..];
    assert joined[1..] == parts[1..];
  }

  lemma {:induction false} JoinAppend(p: seq<string>, q: seq<string>, sep: char)
    requires |p| >= 1 && |q| >= 1
    ensures Join(p + q, sep) == Join(p, sep) + [sep] + Join(q, sep)
    decreases |p|
  {
    if |p| == 1 {
      assert (p + q)[1..] == q;
    } else {
      assert (p + q)[1..] == p[1..] + q;
      JoinAppend(p[1..], q, sep);
    }
  }

  /** Two lists of separator-free pieces that join to the same string are
      the same list. */
  lemma {:induction false} JoinInjective(p: seq<string>, q: seq<string>, sep: char)
    requires Pieces(p, sep) && Pieces(q, sep)
    requires Join(p, sep) == Join(q, sep)
    ensures p == q
    decreases |p|
  {
    if |p| >= 2 && |q| >= 2 {
      var s := Join(p, sep);
      var a, b := p[0], q[0];
      FirstSeparator(a, Join(p[1..], sep), sep);
      FirstSeparator(b, Join(q[1..], sep), sep);
      assert |a| == IndexOf(s, sep) == |b|;
      assert a == s[..|a|] == b;
      assert Join(p[1..], sep) == s[|a| + 1..] == Join(q[1..], sep);
      JoinInjective(p[1..], q[1..], sep);
      assert p == [a] + p[1..] && q == [b] + q[1..];
    }
  }

  /** The position of the first `c` in `s`. */
  function IndexOf(s: string, c: char): (i: nat)
    requires c in s
    ensures i < |s| && s[i] == c
    ensures forall j :: 0 <= j < i ==> s[j] != c
  {
    if s[0] == c then 0 else 1 + IndexOf(s[1..], c)
  }

  lemma FirstSeparator(a: string, rest: string, sep: char)
    requires sep !in a
    ensures sep in a + [sep] + rest && IndexOf(a + [sep] + rest, sep) == |a|
  {
    var s := a + [sep] + rest;
    assert s[|a|] == sep;
  }

  /** Splitting undoes joining. */
  lemma SplitJoin(parts: seq<string>, sep: char)
    requires Pieces(parts, sep)
    ensures Split(Join(parts, sep), sep) == parts
  {
    JoinInjective(Split(Join(parts, sep), sep), parts, sep);
  }

  /** Splitting `a + sep + b` splits `a` and `b` on their own. */
  lemma SplitAround(a: string, b: string, sep: char)
    ensures Split(a + [sep] + b, sep) == Split(a, sep) + Split(b, sep)
  {
    var p, q := Split(a, sep), Split(b, sep);
    JoinAppend(p, q, sep);
    assert Pieces(p + q, sep) by {
      forall i | 0 <= i < |p + q|
        ensures sep !in (p + q)[i]
      {
        if i < |p| { assert (p + q)[i] == p[i]; } else { assert (p + q)[i] == q[i - |p|]; }
      }
    }
    JoinInjective(Split(a + [sep] + b, sep), p + q, sep);
  }
}
