/** String helpers standing for the few `std::string` operations the core uses:
    `find(...) != npos`, prefix tests, and `std::to_string` on integers. */
module Text {

  /** `t` occurs in `s` as a contiguous substring (`s.find(t) != npos`). */
  predicate Contains(s: string, t: string)
    decreases |s|
  {
    |t| <= |s| && (s[..|t|] == t || (|s| > 0 && Contains(s[1..], t)))
  }

  /** `s` begins with `p`. */
  predicate StartsWith(s: string, p: string)
  {
    |p| <= |s| && s[..|p|] == p
  }

  /** Whatever surrounds it, a string contains each of its own infixes. */
  lemma {:induction false} ContainsInfix(a: string, t: string, b: string)
    ensures Contains(a + t + b, t)
    decreases |a|
  {
    if a == [] {
      assert (a + t + b)[..|t|] == t;
    } else {
      assert (a + t + b)[1..] == a[1..] + t + b;
      ContainsInfix(a[1..], t, b);
    }
  }

  /** A substring of `s` is a substring of anything that extends `s` on the right. */
  lemma {:induction false} ContainsExtendRight(s: string, t: string, x: string)
    requires Contains(s, t)
    ensures Contains(s + x, t)
    decreases |s|
  {
    if s[..|t|] == t {
      assert (s + x)[..|t|] == t;
    } else {
      assert (s + x)[1..] == s[1..] + x;
      ContainsExtendRight(s[1..], t, x);
    }
  }

  /** A substring of `s` is a substring of anything that extends `s` on the left. */
  lemma {:induction false} ContainsExtendLeft(x: string, s: string, t: string)
    requires Contains(s, t)
    ensures Contains(x + s, t)
    decreases |x|
  {
    if x != [] {
      assert (x + s)[1..] == x[1..] + s;
      ContainsExtendLeft(x[1..], s, t);
    } else {
      assert x + s == s;
    }
  }

  /** Every string contains itself. */
  lemma ContainsSelf(t: string)
    ensures Contains(t, t)
  {
    assert t[..|t|] == t;
  }

  /** Extending a string on the right keeps its prefixes. */
  lemma StartsWithExtend(s: string, p: string, x: string)
    requires StartsWith(s, p)
    ensures StartsWith(s + x, p)
  {
    assert (s + x)[..|p|] == s[..|p|];
  }

  /** Two prefixes of one string agree wherever both are defined, so prefixes
      that differ at some position cannot both hold. */
  lemma PrefixesClash(s: string, p: string, q: string, k: nat)
    requires StartsWith(s, p) && k < |p| && k < |q| && p[k] != q[k]
    ensures !StartsWith(s, q)
  {
  }

  /** A prefix is also a substring. */
  lemma StartsWithContains(s: string, p: string)
    requires StartsWith(s, p)
    ensures Contains(s, p)
  {
  }

  /** A string cannot contain `t` across a left part that lacks the first
      character of `t`: if `s` does not contain `t`, neither does `x + s`. */
  lemma {:induction false} NotContainsPast(x: string, s: string, t: string)
    requires |t| > 0 && t[0] !in x && !Contains(s, t)
    ensures !Contains(x + s, t)
    decreases |x|
  {
    if x == [] {
      assert x + s == s;
    } else {
      assert x[0] in x;
      assert (x + s)[1..] == x[1..] + s;
      assert forall c :: c in x[1..] ==> c in x;
      NotContainsPast(x[1..], s, t);
    }
  }

  /** A string lacking the first character of `t` does not contain `t`. */
  lemma {:induction false} NotContainsLacking(x: string, t: string)
    requires |t| > 0 && t[0] !in x
    ensures !Contains(x, t)
    decreases |x|
  {
    if x != [] {
      assert x[0] in x;
      assert forall c :: c in x[1..] ==> c in x;
      NotContainsLacking(x[1..], t);
    }
  }

  /** A character in front of `s` adds no occurrence of `t` unless `t`
      starts right there. */
  lemma NotContainsCons(c: char, s: string, t: string)
    requires !StartsWith([c] + s, t) && !Contains(s, t)
    ensures !Contains([c] + s, t)
  {
    assert ([c] + s)[1..] == s;
  }

  /** Only digits and the minus sign occur in a printed integer. */
  lemma IntToStringLacks(i: int, c: char)
    requires !('0' <= c <= '9') && c != '-'
    ensures c !in IntToString(i)
  {
    var r := IntToString(i);
    if i < 0 {
      assert forall k :: 1 <= k < |r| ==> r[k] == NatToString(-i)[k - 1];
    }
  }

  /** The decimal digit character for `d`. */
  function DigitChar(d: nat): (c: char)
    requires d < 10
    ensures '0' <= c <= '9' && c as int - '0' as int == d
  {
    (d + '0' as int) as char
  }

  /** Decimal rendering of a natural number, as `std::to_string` prints an
      unsigned value: no sign, no leading zeros. */
  function NatToString(n: nat): (r: string)
    ensures 1 <= |r|
    ensures |r| == 1 <==> n < 10
    ensures forall k :: 0 <= k < |r| ==> '0' <= r[k] <= '9'
    ensures n >= 10 ==> r[|r| - 1] == DigitChar(n % 10)
  {
    if n < 10 then [DigitChar(n)] else NatToString(n / 10) + [DigitChar(n % 10)]
  }

  /** Decimal rendering of a signed integer, as `std::to_string(int)` prints it. */
  function IntToString(i: int): (r: string)
    ensures i >= 0 ==> r == NatToString(i)
    ensures i < 0 ==> r == "-" + NatToString(-i)
  {
    if i < 0 then "-" + NatToString(-i) else NatToString(i)
  }

  /** Distinct numbers print differently. */
  lemma {:induction false} NatToStringInjective(a: nat, b: nat)
    requires NatToString(a) == NatToString(b)
    ensures a == b
  {
    var ra, rb := NatToString(a), NatToString(b);
    if a < 10 || b < 10 {
      assert a < 10 && b < 10;
      assert ra[0] == DigitChar(a) && rb[0] == DigitChar(b);
    } else {
      assert ra == NatToString(a / 10) + [DigitChar(a % 10)];
      assert rb == NatToString(b / 10) + [DigitChar(b % 10)];
      assert NatToString(a / 10) == ra[..|ra| - 1] == rb[..|rb| - 1] == NatToString(b / 10);
      NatToStringInjective(a / 10, b / 10);
      assert DigitChar(a % 10) == DigitChar(b % 10);
    }
  }
}
