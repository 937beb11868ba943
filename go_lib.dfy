/**
 * The pieces of Go's runtime and standard library that the scraper's
 * arithmetic and row construction depend on: 64-bit `int` arithmetic,
 * `strconv.Itoa` / `%d`, `strconv.Atoi` and `strings.TrimSpace`.
 */
module GoLib {
  import opened Wrappers

  const MinInt64: int := -0x8000_0000_0000_0000
  const MaxInt64: int := 0x7FFF_FFFF_FFFF_FFFF

  /** Go's `int` on a 64-bit platform. */
  type int64 = x: int | -0x8000_0000_0000_0000 <= x <= 0x7FFF_FFFF_FFFF_FFFF

  /** The result of a signed 64-bit operation whose exact value is `x`: two's-complement wrap-around. */
  function Wrap64(x: int): (r: int64)
    ensures MinInt64 <= x <= MaxInt64 ==> r == x
    ensures MaxInt64 < x <= MaxInt64 + 0x1_0000_0000_0000_0000 ==> r == x - 0x1_0000_0000_0000_0000
  {
    (x - MinInt64) % 0x1_0000_0000_0000_0000 + MinInt64
  }

  /** Go's `/` on integers: the quotient is truncated toward zero. */
  function Quot(a: int, b: int): int
    requires b > 0
  {
    if a >= 0 then a / b else -((-a) / b)
  }

  // ---------------------------------------------------------------------------
  // Decimal text: strconv.Itoa, fmt's %d, strconv.Atoi

  predicate IsDigit(c: char) { '0' <= c <= '9' }

  predicate AllDigits(s: string) { forall i :: 0 <= i < |s| ==> IsDigit(s[i]) }

  function DigitValue(c: char): nat
    requires IsDigit(c)
  {
    c as int - '0' as int
  }

  function DigitChar(d: nat): char
    requires d < 10
  {
    ('0' as int + d) as char
  }

  /** The number a run of decimal digits denotes, most significant digit first. */
  function DigitsValue(s: string): nat
    requires AllDigits(s)
    decreases |s|
  {
    if s == [] then 0 else DigitsValue(s[..|s| - 1]) * 10 + DigitValue(s[|s| - 1])
  }

  /** The canonical decimal digits of `n`: at least one digit, no leading zero. */
  function Decimal(n: nat): (r: string)
    ensures |r| >= 1 && AllDigits(r)
    ensures DigitsValue(r) == n
    ensures r[0] == '0' ==> n == 0
    decreases n
  {
    if n < 10 then [DigitChar(n)]
    else
      var prefix := Decimal(n / 10);
      var r := prefix + [DigitChar(n % 10)];
      assert r[..|r| - 1] == prefix;
      r
  }

  /** What strconv.ParseInt(s, 10, ·) reads before its range check: an optional sign and one or more digits. */
  function ParseInt(s: string): Option<int>
  {
    if |s| == 0 then None
    else
      var digits := if s[0] == '-' || s[0] == '+' then s[1..] else s;
      if |digits| == 0 || !AllDigits(digits) then None
      else
        var magnitude: int := DigitsValue(digits);
        Some(if s[0] == '-' then -magnitude else magnitude)
  }

  /** strconv.Itoa, and fmt's `%d` verb: a minus sign for negatives, then the canonical digits. */
  function Itoa(n: int): (r: string)
    ensures ParseInt(r) == Some(n)
    ensures |r| >= 1 && (IsDigit(r[0]) || r[0] == '-')
  {
    if n < 0 then
      var r := "-" + Decimal(-n);
      assert r[1..] == Decimal(-n);
      r
    else Decimal(n)
  }

  /** strconv.Atoi for a 64-bit `int`: the text must parse and the value must fit, otherwise an error (None). */
  function Atoi(s: string): (r: Option<int64>)
    ensures r.Some? <==> ParseInt(s).Some? && MinInt64 <= ParseInt(s).value <= MaxInt64
    ensures r.Some? ==> ParseInt(s) == Some(r.value as int)
  {
    match ParseInt(s)
    case None => None
    case Some(v) => if MinInt64 <= v <= MaxInt64 then Some(v) else None
  }

  /** Every 64-bit integer printed with Itoa is read back by Atoi. */
  lemma AtoiItoa(n: int64)
    ensures Atoi(Itoa(n)) == Some(n)
  {
  }

  /** Printing is injective: different integers never print the same text. */
  lemma ItoaInjective(m: int, n: int)
    requires Itoa(m) == Itoa(n)
    ensures m == n
  {
    assert Some(m) == ParseInt(Itoa(m)) == ParseInt(Itoa(n)) == Some(n);
  }

  // ---------------------------------------------------------------------------
  // strings.TrimSpace

  /** unicode.IsSpace: the Latin-1 spaces and the Unicode White_Space property. */
  predicate IsSpace(c: char)
  {
    var n := c as int;
    n == 0x09 || n == 0x0A || n == 0x0B || n == 0x0C || n == 0x0D || n == 0x20
    || n == 0x85 || n == 0xA0 || n == 0x1680 || (0x2000 <= n <= 0x200A)
    || n == 0x2028 || n == 0x2029 || n == 0x202F || n == 0x205F || n == 0x3000
  }

  predicate AllSpace(s: string) { forall i :: 0 <= i < |s| ==> IsSpace(s[i]) }

  /** True when `r` has no white space at either end. */
  predicate NoOuterSpace(r: string) { r == [] || (!IsSpace(r[0]) && !IsSpace(r[|r| - 1])) }

  /** `r` is `s` with a run of white space cut from each end. */
  ghost predicate TrimmedFrom(s: string, r: string)
  {
    exists i | 0 <= i <= |s| - |r| :: s[i..][..|r|] == r && AllSpace(s[..i]) && AllSpace(s[i + |r|..])
  }

  function TrimLeft(s: string): string
    decreases |s|
  {
    if |s| > 0 && IsSpace(s[0]) then TrimLeft(s[1..]) else s
  }

  function TrimRight(s: string): string
    decreases |s|
  {
    if |s| > 0 && IsSpace(s[|s| - 1]) then TrimRight(s[..|s| - 1]) else s
  }

  /** strings.TrimSpace: leading white space removed, then trailing white space. */
  function TrimSpace(s: string): string
  {
    TrimRight(TrimLeft(s))
  }

  lemma {:induction false} TrimLeftCuts(s: string)
    ensures |TrimLeft(s)| <= |s|
    ensures TrimLeft(s) == s[|s| - |TrimLeft(s)|..]
    ensures AllSpace(s[..|s| - |TrimLeft(s)|])
    ensures TrimLeft(s) == [] || !IsSpace(TrimLeft(s)[0])
    decreases |s|
  {
    if |s| > 0 && IsSpace(s[0]) {
      TrimLeftCuts(s[1..]);
      var k := |s| - |TrimLeft(s)|;
      assert s[..k] == [s[0]] + s[1..][..k - 1];
    }
  }

  lemma {:induction false} TrimRightCuts(s: string)
    ensures |TrimRight(s)| <= |s|
    ensures TrimRight(s) == s[..|TrimRight(s)|]
    ensures AllSpace(s[|TrimRight(s)|..])
    ensures TrimRight(s) == [] || !IsSpace(TrimRight(s)[|TrimRight(s)| - 1])
    decreases |s|
  {
    if |s| > 0 && IsSpace(s[|s| - 1]) {
      var t := s[..|s| - 1];
      TrimRightCuts(t);
      var k := |TrimRight(s)|;
      assert s[k..] == t[k..] + [s[|s| - 1]];
    }
  }

  /** TrimRight keeps the first character of a string that does not start with white space. */
  lemma {:induction false} TrimRightKeepsFront(s: string)
    requires s != [] && !IsSpace(s[0])
    ensures TrimRight(s) != [] && TrimRight(s)[0] == s[0]
    decreases |s|
  {
    if IsSpace(s[|s| - 1]) {
      TrimRightKeepsFront(s[..|s| - 1]);
    }
  }

  /** TrimSpace cuts white space, and only white space, from the two ends and leaves none there. */
  lemma TrimSpaceSpec(s: string)
    ensures TrimmedFrom(s, TrimSpace(s))
    ensures NoOuterSpace(TrimSpace(s))
  {
    var l := TrimLeft(s);
    TrimLeftCuts(s);
    TrimRightCuts(l);
    var r := TrimRight(l);
    var i := |s| - |l|;
    assert s[i..] == l;
    assert s[i..][..|r|] == r;
    assert s[i + |r|..] == l[|r|..];
    if r != [] {
      TrimRightKeepsFront(l);
    }
  }

  /** A string that is its own trimming is unchanged by TrimSpace. */
  lemma {:induction false} TrimSpaceOfTrimmed(s: string)
    requires NoOuterSpace(s)
    ensures TrimSpace(s) == s
  {
  }

  /** TrimSpace is idempotent. */
  lemma TrimSpaceIdempotent(s: string)
    ensures TrimSpace(TrimSpace(s)) == TrimSpace(s)
  {
    TrimSpaceSpec(s);
    TrimSpaceOfTrimmed(TrimSpace(s));
  }

  /** A space added in front changes nothing once the text is trimmed. */
  lemma TrimSpaceLeadingSpace(s: string)
    ensures TrimSpace(" " + s) == TrimSpace(s)
  {
    assert (" " + s)[1..] == s;
  }

  /** A space added at the end changes nothing once the text is trimmed. */
  lemma {:induction false} TrimSpaceTrailingSpace(s: string)
    ensures TrimSpace(s + " ") == TrimSpace(s)
  {
    TrimLeftAppend(s, " ");
    if TrimLeft(s) == [] {
      assert TrimLeft(s + " ") == TrimLeft(" ");
      assert " "[1..] == [];
    } else {
      var l := TrimLeft(s + " ");
      assert l == TrimLeft(s) + " ";
      assert l[..|l| - 1] == TrimLeft(s);
    }
  }

  /** Trimming the front of `s + t` where `s` has a non-space character only touches `s`. */
  lemma {:induction false} TrimLeftAppend(s: string, t: string)
    ensures TrimLeft(s) != [] ==> TrimLeft(s + t) == TrimLeft(s) + t
    ensures TrimLeft(s) == [] ==> TrimLeft(s + t) == TrimLeft(t)
    decreases |s|
  {
    if s == [] {
      assert s + t == t;
    } else if IsSpace(s[0]) {
      assert (s + t)[1..] == s[1..] + t;
      TrimLeftAppend(s[1..], t);
    } else {
      assert (s + t)[0] == s[0];
    }
  }
}
