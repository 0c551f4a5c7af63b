/** Option, the usual way to say "maybe a value". */
module Options {
  datatype Option<+T> = None | Some(value: T)
}

/**
 * The few pieces of Python's `str` that the command gateway relies on:
 * `str.strip()` with no argument, `str(int)` as used inside f-strings,
 * and prefix/suffix/substring tests used to state what a message holds.
 */
module PyText {
  import opened Options

  /** Python's `str.isspace` for one character: the code points that
      `str.strip()` with no argument removes. */
  predicate IsSpace(c: char) {
    var n := c as int;
    n == 0x20 || 0x09 <= n <= 0x0D || 0x1C <= n <= 0x1F || n == 0x85 || n == 0xA0
    || n == 0x1680 || 0x2000 <= n <= 0x200A || n == 0x2028 || n == 0x2029
    || n == 0x202F || n == 0x205F || n == 0x3000
  }

  predicate AllSpace(s: string) {
    forall k | 0 <= k < |s| :: IsSpace(s[k])
  }

  /** `s.lstrip()`: the suffix of `s` left after dropping leading whitespace. */
  function TrimLeft(s: string): (r: string)
    ensures |r| <= |s| && r == s[|s| - |r|..]
    ensures AllSpace(s[..|s| - |r|])
    ensures r == [] || !IsSpace(r[0])
  {
    if |s| > 0 && IsSpace(s[0]) then TrimLeft(s[1..]) else s
  }

  /** `s.rstrip()`: the prefix of `s` left after dropping trailing whitespace. */
  function TrimRight(s: string): (r: string)
    ensures |r| <= |s| && r == s[..|r|]
    ensures AllSpace(s[|r|..])
    ensures r == [] || !IsSpace(r[|r| - 1])
  {
    if |s| > 0 && IsSpace(s[|s| - 1]) then
      var r := TrimRight(s[..|s| - 1]);
      assert s[|r|..] == s[..|s| - 1][|r|..] + [s[|s| - 1]];
      r
    else
      s
  }

  /** `s.strip()`: the infix of `s` between its leading and trailing whitespace. */
  function Strip(s: string): (r: string)
    ensures |r| <= |s|
    ensures r == [] || (!IsSpace(r[0]) && !IsSpace(r[|r| - 1]))
  {
    TrimRight(TrimLeft(s))
  }

  /** Text that neither starts nor ends with whitespace is left as it is. */
  lemma StripKeeps(s: string)
    requires |s| > 0 && !IsSpace(s[0]) && !IsSpace(s[|s| - 1])
    ensures Strip(s) == s
  {
    assert TrimLeft(s) == s;
  }

  /** The number of leading whitespace characters that `Strip` drops. */
  function LeadingSpace(s: string): nat {
    |s| - |TrimLeft(s)|
  }

  /** `Strip(s)` is the slice of `s` that starts right after its leading
      whitespace, and what lies on either side of it is whitespace. */
  lemma StripIsInfix(s: string)
    ensures LeadingSpace(s) + |Strip(s)| <= |s|
    ensures Strip(s) == s[LeadingSpace(s)..LeadingSpace(s) + |Strip(s)|]
    ensures AllSpace(s[..LeadingSpace(s)])
    ensures AllSpace(s[LeadingSpace(s) + |Strip(s)|..])
  {
    var i := LeadingSpace(s);
    var t := TrimLeft(s);
    var r := Strip(s);
    assert t == s[i..];
    assert r == t[..|r|];
    assert s[i + |r|..] == t[|r|..];
  }

  /** `s.strip() == ""` exactly when `s` is made only of whitespace. */
  lemma {:induction false} StripEmptyIff(s: string)
    ensures Strip(s) == [] <==> AllSpace(s)
  {
    StripIsInfix(s);
    var i := LeadingSpace(s);
    if Strip(s) == [] {
      assert TrimLeft(s) == [];
      assert s[..i] == s;
    } else {
      assert Strip(s)[0] == s[i];
    }
  }

  // ---------------------------------------------------------------------
  // Prefixes, suffixes and substrings
  // ---------------------------------------------------------------------

  predicate StartsWith(s: string, p: string) {
    |p| <= |s| && s[..|p|] == p
  }

  predicate EndsWith(s: string, q: string) {
    |q| <= |s| && s[|s| - |q|..] == q
  }

  /** Python's `t in s` for strings. */
  predicate Contains(s: string, t: string)
    decreases |s|
  {
    StartsWith(s, t) || (|s| > 0 && Contains(s[1..], t))
  }

  lemma {:induction false} ContainsInfix(a: string, t: string, b: string)
    ensures Contains(a + t + b, t)
  {
    if a == [] {
      assert (a + t + b)[..|t|] == t;
    } else {
      assert (a + t + b)[1..] == a[1..] + t + b;
      ContainsInfix(a[1..], t, b);
    }
  }

  lemma ContainsPrefix(s: string, p: string, t: string)
    requires StartsWith(s, p) && Contains(p, t)
    ensures Contains(s, t)
  {
    assert s == p + s[|p|..] + [];
    ContainsWithin(p, t, s[|p|..]);
  }

  lemma {:induction false} ContainsWithin(p: string, t: string, b: string)
    requires Contains(p, t)
    ensures Contains(p + b, t)
  {
    if StartsWith(p, t) {
      assert (p + b)[..|t|] == p[..|t|];
    } else {
      assert (p + b)[1..] == p[1..] + b;
      ContainsWithin(p[1..], t, b);
    }
  }

  /** Two prefixes that differ at some position cannot both start `s`. */
  lemma StartsWithEither(s: string, p: string, q: string, k: nat)
    requires k < |p| && k < |q| && p[k] != q[k]
    requires StartsWith(s, p)
    ensures !StartsWith(s, q)
  {
    assert s[k] == p[k];
  }

  /** The part of `s` before the first `stop` (all of `s` if there is none). */
  function TakeUntil(s: string, stop: char): (r: string)
    ensures |r| <= |s| && r == s[..|r|]
    ensures stop !in r
  {
    if |s| == 0 || s[0] == stop then [] else [s[0]] + TakeUntil(s[1..], stop)
  }

  /** Reading up to `stop` gives back exactly the text before it. */
  lemma {:induction false} TakeUntilStops(a: string, stop: char, b: string)
    requires stop !in a
    requires |b| > 0 && b[0] == stop
    ensures TakeUntil(a + b, stop) == a
  {
    if a != [] {
      assert (a + b)[1..] == a[1..] + b;
      TakeUntilStops(a[1..], stop, b);
    }
  }

  lemma Assoc(a: string, b: string, c: string)
    ensures a + b + c == a + (b + c)
  {
  }

  // ---------------------------------------------------------------------
  // Python's str(int): decimal digits, with '-' in front of negatives
  // ---------------------------------------------------------------------

  predicate IsDigit(c: char) {
    '0' <= c <= '9'
  }

  predicate AllDigits(s: string) {
    forall k | 0 <= k < |s| :: IsDigit(s[k])
  }

  function DigitChar(d: nat): (c: char)
    requires d < 10
    ensures IsDigit(c)
  {
    ('0' as int + d) as char
  }

  function DigitValue(c: char): nat
    requires IsDigit(c)
  {
    c as int - '0' as int
  }

  /** The decimal digits of `n`, most significant first, without leading zeros. */
  function NatDigits(n: nat): (s: string)
    ensures |s| > 0 && AllDigits(s)
    ensures |s| > 1 ==> s[0] != '0'
  {
    if n < 10 then [DigitChar(n)] else NatDigits(n / 10) + [DigitChar(n % 10)]
  }

  /** `str(n)` for a Python int. */
  function Decimal(n: int): (s: string)
    ensures |s| > 0
    ensures s[0] == '-' <==> n < 0
    ensures AllDigits(s[1..])
    ensures ')' !in s
  {
    if n < 0 then "-" + NatDigits(-n) else NatDigits(n)
  }

  function ParseNat(s: string): nat
    requires AllDigits(s)
  {
    if s == [] then 0 else ParseNat(s[..|s| - 1]) * 10 + DigitValue(s[|s| - 1])
  }

  /** `int(s)` restricted to what `str(int)` produces: an optional '-'
      followed by at least one digit. */
  function ParseInt(s: string): Option<int> {
    if |s| > 0 && AllDigits(s) then Some(ParseNat(s))
    else if |s| > 1 && s[0] == '-' && AllDigits(s[1..]) then Some(-(ParseNat(s[1..]) as int))
    else None
  }

  lemma {:induction false} ParseNatDigits(n: nat)
    ensures ParseNat(NatDigits(n)) == n
  {
    if n >= 10 {
      var s := NatDigits(n);
      assert s[..|s| - 1] == NatDigits(n / 10);
      ParseNatDigits(n / 10);
    }
  }

  /** `int(str(n)) == n`: the decimal text of an exit code or a timeout
      determines the number. */
  lemma DecimalRoundTrip(n: int)
    ensures ParseInt(Decimal(n)) == Some(n)
  {
    if n < 0 {
      ParseNatDigits(-n);
      assert Decimal(n)[1..] == NatDigits(-n);
    } else {
      ParseNatDigits(n);
    }
  }
}
