/** Shared vocabulary: optional values, results of fallible calls, decimal
    rendering of numbers, and the character classes JavaScript's regular
    expressions and String methods use. */
module Common {

  datatype Option<+T> = None | Some(value: T)

  /** The outcome of a call that either returns a value or throws an Error
      carrying a message. */
  datatype Result<+T> = Ok(value: T) | Err(message: string)

  type Bytes = seq<bv8>

  // ---------------------------------------------------------------------
  // Decimal digits

  /** `\d` and `[0-9]` in a JavaScript regular expression: ASCII digits only. */
  predicate IsDigit(c: char) {
    '0' <= c <= '9'
  }

  predicate AllDigits(s: string) {
    forall i :: 0 <= i < |s| ==> IsDigit(s[i])
  }

  function DigitChar(d: nat): (c: char)
    requires d < 10
    ensures IsDigit(c) && c as int - '0' as int == d
  {
    ['0', '1', '2', '3', '4', '5', '6', '7', '8', '9'][d]
  }

  /** The number a string of decimal digits denotes (most significant first). */
  function DigitsValue(s: string): nat
    requires AllDigits(s)
  {
    if s == [] then 0
    else DigitsValue(s[..|s| - 1]) * 10 + (s[|s| - 1] as int - '0' as int)
  }

  /** `${n}` for a non-negative integer of a JavaScript number. */
  function NatToString(n: nat): (s: string)
    ensures |s| > 0 && AllDigits(s)
  {
    if n < 10 then [DigitChar(n)] else NatToString(n / 10) + [DigitChar(n % 10)]
  }

  /** `${i}` for an integer of a JavaScript number. */
  function IntToString(i: int): string {
    if i < 0 then "-" + NatToString(-i) else NatToString(i)
  }

  /** Reading the rendered digits back gives the number. */
  lemma {:induction false} NatToStringRoundTrip(n: nat)
    ensures DigitsValue(NatToString(n)) == n
  {
    if n >= 10 {
      var s := NatToString(n);
      assert s[..|s| - 1] == NatToString(n / 10);
      NatToStringRoundTrip(n / 10);
    }
  }

  /** Distinct numbers render as distinct strings. */
  lemma NatToStringInjective(m: nat, n: nat)
    requires NatToString(m) == NatToString(n)
    ensures m == n
  {
    NatToStringRoundTrip(m);
    NatToStringRoundTrip(n);
  }

  // ---------------------------------------------------------------------
  // Whitespace as JavaScript defines it

  /** The characters matched by `\s` and removed by `String.prototype.trim`:
      WhiteSpace and LineTerminator of ECMAScript (sections 12.2 and 12.3 of
      ECMA-262). */
  predicate IsJsSpace(c: char) {
    var k := c as int;
    k == 0x09 || k == 0x0A || k == 0x0B || k == 0x0C || k == 0x0D || k == 0x20
    || k == 0xA0 || k == 0x1680 || (0x2000 <= k <= 0x200A)
    || k == 0x2028 || k == 0x2029 || k == 0x202F || k == 0x205F || k == 0x3000 || k == 0xFEFF
  }

  function TrimStart(s: string): (r: string)
    ensures |r| <= |s| && r == s[|s| - |r|..]
    ensures r == [] || !IsJsSpace(r[0])
    ensures forall i :: 0 <= i < |s| - |r| ==> IsJsSpace(s[i])
  {
    if s != [] && IsJsSpace(s[0]) then TrimStart(s[1..]) else s
  }

  function TrimEnd(s: string): (r: string)
    ensures |r| <= |s| && r == s[..|r|]
    ensures r == [] || !IsJsSpace(r[|r| - 1])
    ensures forall i :: |r| <= i < |s| ==> IsJsSpace(s[i])
  {
    if s != [] && IsJsSpace(s[|s| - 1]) then TrimEnd(s[..|s| - 1]) else s
  }

  /** `s.trim()`: the result is a slice of `s` that neither starts nor ends
      with whitespace; TrimCutsOnlySpace says only whitespace was cut away. */
  function Trim(s: string): (r: string)
    ensures Contains(s, r)
    ensures r == [] || (!IsJsSpace(r[0]) && !IsJsSpace(r[|r| - 1]))
  {
    var t := TrimStart(s);
    var r := TrimEnd(t);
    assert r == s[|s| - |t|..][..|r|] == s[|s| - |t|..|s| - |t| + |r|];
    assert OccursAt(s, r, |s| - |t|);
    r
  }

  /** The trimmed text is the slice `s[lo..lo + |Trim(s)|]`, and every
      character cut away before or after it is whitespace. With Trim's own
      contract this pins the slice down: it is the longest one whose ends
      are not whitespace. */
  lemma TrimCutsOnlySpace(s: string)
    ensures var lo := |s| - |TrimStart(s)|;
      && lo + |Trim(s)| <= |s| && Trim(s) == s[lo..lo + |Trim(s)|]
      && (forall i :: 0 <= i < lo ==> IsJsSpace(s[i]))
      && (forall i :: lo + |Trim(s)| <= i < |s| ==> IsJsSpace(s[i]))
  {
    var t := TrimStart(s);
    var r := TrimEnd(t);
    var lo := |s| - |t|;
    SuffixSpace(s, t, r, lo);
  }

  /** The characters after a prefix `r` of the suffix `t == s[lo..]`. */
  lemma SuffixSpace(s: string, t: string, r: string, lo: nat)
    requires lo <= |s| && t == s[lo..] && |r| <= |t| && r == t[..|r|]
    requires forall i :: |r| <= i < |t| ==> IsJsSpace(t[i])
    ensures r == s[lo..lo + |r|]
    ensures forall i :: lo + |r| <= i < |s| ==> IsJsSpace(s[i])
  {
    forall i | lo + |r| <= i < |s|
      ensures IsJsSpace(s[i])
    {
      assert s[i] == t[i - lo];
    }
  }

  /** A string is blank (`!s.trim()` holds) exactly when every character
      is whitespace. */
  lemma BlankIffAllSpace(s: string)
    ensures Trim(s) == [] <==> forall i :: 0 <= i < |s| ==> IsJsSpace(s[i])
  {
    var t := TrimStart(s);
    if Trim(s) == [] {
      assert t == [];
    } else {
      assert t != [];
      assert !IsJsSpace(s[|s| - |t|]);
    }
  }

  // ---------------------------------------------------------------------
  // Substrings

  predicate OccursAt(s: string, pat: string, k: nat) {
    k + |pat| <= |s| && s[k..k + |pat|] == pat
  }

  /** `s.includes(pat)`. */
  predicate Contains(s: string, pat: string) {
    exists k: nat | k <= |s| :: OccursAt(s, pat, k)
  }

  predicate StartsWith(s: string, prefix: string) {
    |prefix| <= |s| && s[..|prefix|] == prefix
  }

  /** A substring of a part is a substring of any string the part is
      concatenated into. */
  lemma ContainsInContext(a: string, x: string, b: string, pat: string)
    requires Contains(x, pat)
    ensures Contains(a + x + b, pat)
  {
    var k: nat :| k <= |x| && OccursAt(x, pat, k);
    assert (a + x + b)[|a| + k..|a| + k + |pat|] == x[k..k + |pat|];
    assert OccursAt(a + x + b, pat, |a| + k);
  }

  lemma ContainsSelf(s: string)
    ensures Contains(s, s)
  {
    assert OccursAt(s, s, 0);
  }

  /** Cancelling a common suffix. */
  lemma AppendRightCancel(a: string, b: string, t: string)
    requires a + t == b + t
    ensures a == b
  {
    assert |a| == |b|;
    assert a == (a + t)[..|a|];
    assert b == (b + t)[..|b|];
  }

  /** Cancelling a common prefix. */
  lemma AppendLeftCancel(t: string, a: string, b: string)
    requires t + a == t + b
    ensures a == b
  {
    assert a == (t + a)[|t|..];
    assert b == (t + b)[|t|..];
  }

  /** Concatenation regroups freely. */
  lemma ConcatAssoc<T>(a: seq<T>, b: seq<T>, c: seq<T>)
    ensures a + (b + c) == (a + b) + c
  {
  }

  /** A sequence is its three slices at `i` and `j`, in order. */
  lemma SliceThree<T>(s: seq<T>, i: nat, j: nat)
    requires i <= j <= |s|
    ensures s == s[..i] + s[i..j] + s[j..]
  {
    assert s == s[..i] + s[i..];
    assert s[i..] == s[i..j] + s[j..];
  }

  /** An occurrence that ends by `i` is one in the prefix of length `i`. */
  lemma OccursInPrefix(s: string, pat: string, i: nat, k: nat)
    requires OccursAt(s, pat, k) && k + |pat| <= i <= |s|
    ensures OccursAt(s[..i], pat, k)
  {
    assert s[..i][k..k + |pat|] == s[k..k + |pat|];
  }

  /** An occurrence that starts at or after `j` is one in the suffix from `j`. */
  lemma OccursInSuffix(s: string, pat: string, j: nat, k: nat)
    requires OccursAt(s, pat, k) && j <= k
    ensures OccursAt(s[j..], pat, k - j)
  {
    assert s[j..][k - j..k - j + |pat|] == s[k..k + |pat|];
  }
}
