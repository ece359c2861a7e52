/** String helpers shared by the key builders: Go's `%d`/`%v` rendering of a
    natural number, `strings.HasSuffix`, and the fact that a separator that
    occurs in neither left-hand part splits a concatenation uniquely. */
module Text {

  predicate IsDigit(c: char) {
    '0' <= c <= '9'
  }

  predicate AllDigits(s: string) {
    forall i :: 0 <= i < |s| ==> IsDigit(s[i])
  }

  function DigitChar(d: nat): (c: char)
    requires d < 10
    ensures IsDigit(c)
    ensures c as int - '0' as int == d
  {
    ('0' as int + d) as char
  }

  /** Decimal rendering of `n` without leading zeros, as `fmt.Sprintf("%d", n)`. */
  function NatToString(n: nat): (s: string)
    ensures 1 <= |s|
    ensures AllDigits(s)
    ensures n < 10 <==> |s| == 1
    decreases n
  {
    if n < 10 then [DigitChar(n)] else NatToString(n / 10) + [DigitChar(n % 10)]
  }

  /** Distinct numbers render to distinct strings. */
  lemma {:induction false} NatToStringInjective(m: nat, n: nat)
    requires NatToString(m) == NatToString(n)
    ensures m == n
    decreases n
  {
    if m >= 10 && n >= 10 {
      var sm, sn := NatToString(m), NatToString(n);
      assert sm[|sm| - 1] == DigitChar(m % 10);
      assert sn[|sn| - 1] == DigitChar(n % 10);
      assert NatToString(m / 10) == sm[..|sm| - 1];
      assert NatToString(n / 10) == sn[..|sn| - 1];
      NatToStringInjective(m / 10, n / 10);
    } else {
      assert NatToString(m)[0] == DigitChar(m % 10);
    }
  }

  /** Go's `strings.HasSuffix`. */
  predicate HasSuffix(s: string, suffix: string) {
    |suffix| <= |s| && s[|s| - |suffix|..] == suffix
  }

  lemma HasSuffixOfAppend(s: string, suffix: string)
    ensures HasSuffix(s + suffix, suffix)
  {
    assert (s + suffix)[|s|..] == suffix;
  }

  lemma ConcatAt(x: string, sep: char, y: string, i: int)
    ensures 0 <= i < |x| ==> (x + [sep] + y)[i] == x[i]
    ensures i == |x| ==> (x + [sep] + y)[i] == sep
  {
  }

  /** `a + [sep] + b` determines `a` and `b` when `sep` does not occur in the
      left part. */
  lemma {:induction false} SplitAtSeparator(a: string, b: string, a': string, b': string, sep: char)
    requires sep !in a && sep !in a'
    requires a + [sep] + b == a' + [sep] + b'
    ensures a == a' && b == b'
  {
    var s := a + [sep] + b;
    if |a| < |a'| {
      ConcatAt(a, sep, b, |a|);
      ConcatAt(a', sep, b', |a|);
      assert false;
    } else if |a'| < |a| {
      ConcatAt(a, sep, b, |a'|);
      ConcatAt(a', sep, b', |a'|);
      assert false;
    }
    assert a == s[..|a|] == a';
    assert b == s[|a| + 1..] == b';
  }

  lemma DigitsHaveNoSeparator(d: string)
    requires AllDigits(d)
    ensures '_' !in d
  {
  }

  lemma StripPrefix(p: string, s: string, t: string)
    requires p + s == p + t
    ensures s == t
  {
    assert s == (p + s)[|p|..];
  }

  /** A key `p + digits + "_" + s` determines its digits and its suffix. */
  lemma NumberedKeyInjective(p: string, d: string, s: string, d': string, s': string)
    requires AllDigits(d) && AllDigits(d')
    requires p + d + "_" + s == p + d' + "_" + s'
    ensures d == d' && s == s'
  {
    DigitsHaveNoSeparator(d);
    DigitsHaveNoSeparator(d');
    assert p + d + "_" + s == p + (d + ['_'] + s);
    assert p + d' + "_" + s' == p + (d' + ['_'] + s');
    StripPrefix(p, d + ['_'] + s, d' + ['_'] + s');
    SplitAtSeparator(d, s, d', s', '_');
  }
}
