/** The JavaScript string operations the news service relies on:
    `split(sep)[0]`, `replace` with a string pattern (which replaces only
    the first occurrence), and `String(n)` for a non-negative integer, as
    used in a template literal. `IndexOf` is the first-occurrence search
    that `split` and `replace` perform. */
module Text {
  import opened Types

  /** `pat` occurs in `s` starting at position `i`. */
  predicate OccursAt(s: string, pat: string, i: nat) {
    i + |pat| <= |s| && s[i..i + |pat|] == pat
  }

  ghost predicate Contains(s: string, pat: string) {
    exists i: nat :: OccursAt(s, pat, i)
  }

  /** `i` is the position of the first occurrence of `pat` in `s`. */
  predicate FirstOccurrence(s: string, pat: string, i: nat) {
    OccursAt(s, pat, i) && forall j: nat :: j < i ==> !OccursAt(s, pat, j)
  }

  /** An occurrence inside a prefix of `s` is an occurrence in `s`. */
  lemma OccursInPrefix(s: string, n: nat, pat: string, j: nat)
    requires n <= |s|
    ensures OccursAt(s[..n], pat, j) ==> OccursAt(s, pat, j)
  {
    if OccursAt(s[..n], pat, j) {
      assert s[..n][j..j + |pat|] == s[j..j + |pat|];
    }
  }

  /** Nothing before the first occurrence of `pat` contains `pat`. */
  lemma PrefixBeforeFirst(s: string, pat: string, i: nat)
    requires pat != [] && FirstOccurrence(s, pat, i)
    ensures !Contains(s[..i], pat)
  {
    forall j: nat ensures !OccursAt(s[..i], pat, j) {
      OccursInPrefix(s, i, pat, j);
    }
  }

  /** The search behind `indexOf`, started at position `from`. */
  function FindFrom(s: string, pat: string, from: nat): (r: Option<nat>)
    requires from <= |s|
    ensures r.Some? ==> from <= r.value && OccursAt(s, pat, r.value)
    ensures r.Some? ==> forall j: nat :: from <= j < r.value ==> !OccursAt(s, pat, j)
    ensures r.None? ==> forall j: nat :: from <= j ==> !OccursAt(s, pat, j)
    decreases |s| - from
  {
    if OccursAt(s, pat, from) then Some(from)
    else if from == |s| then None
    else FindFrom(s, pat, from + 1)
  }

  /** `s.indexOf(pat)`, with `None` for -1. */
  function IndexOf(s: string, pat: string): (r: Option<nat>)
    ensures r.Some? <==> Contains(s, pat)
    ensures r.Some? ==> FirstOccurrence(s, pat, r.value)
  {
    FindFrom(s, pat, 0)
  }

  /** `s.split(sep)[0]`: the text before the first occurrence of a
      non-empty separator, or all of `s` when there is none. */
  function SplitHead(s: string, sep: string): (r: string)
    requires sep != []
    ensures r <= s
    ensures !Contains(r, sep)
    ensures Contains(s, sep) ==> FirstOccurrence(s, sep, |r|)
    ensures !Contains(s, sep) ==> r == s
  {
    match IndexOf(s, sep)
    case None => s
    case Some(i) =>
      PrefixBeforeFirst(s, sep, i);
      s[..i]
  }

  /** `s.replace(pat, rep)` with a string pattern: only the first
      occurrence is replaced; without one, `s` is returned unchanged. */
  function ReplaceFirst(s: string, pat: string, rep: string): (r: string)
    ensures !Contains(s, pat) ==> r == s
    ensures Contains(s, pat) ==>
      exists i: nat :: FirstOccurrence(s, pat, i) && r == s[..i] + rep + s[i + |pat|..]
  {
    match IndexOf(s, pat)
    case None => s
    case Some(i) => s[..i] + rep + s[i + |pat|..]
  }

  predicate IsDigit(c: char) {
    '0' <= c <= '9'
  }

  predicate AllDigits(s: string) {
    forall k :: 0 <= k < |s| ==> IsDigit(s[k])
  }

  function DigitChar(d: nat): (c: char)
    requires d < 10
    ensures IsDigit(c)
  {
    ('0' as int + d) as char
  }

  function DigitValue(c: char): (d: nat)
    requires IsDigit(c)
    ensures d < 10 && DigitChar(d) == c
  {
    c as int - '0' as int
  }

  /** `String(n)` for a non-negative integer: its shortest decimal form. */
  function DecimalString(n: nat): (s: string)
    ensures s != [] && AllDigits(s)
    ensures s[0] == '0' ==> n == 0
    decreases n
  {
    if n < 10 then [DigitChar(n)] else DecimalString(n / 10) + [DigitChar(n % 10)]
  }

  /** Reads a string of decimal digits back as a number. */
  function ParseDecimal(s: string): nat
    requires AllDigits(s)
  {
    if s == [] then 0 else ParseDecimal(s[..|s| - 1]) * 10 + DigitValue(s[|s| - 1])
  }

  /** Reading the decimal form of `n` gives `n` back. */
  lemma {:induction false} ParseDecimalString(n: nat)
    ensures ParseDecimal(DecimalString(n)) == n
    decreases n
  {
    var s := DecimalString(n);
    if n < 10 {
      assert s[..0] == [];
    } else {
      ParseDecimalString(n / 10);
      assert s[..|s| - 1] == DecimalString(n / 10);
    }
  }

  /** Distinct numbers have distinct decimal forms. */
  lemma DecimalStringInjective(m: nat, n: nat)
    ensures DecimalString(m) == DecimalString(n) ==> m == n
  {
    ParseDecimalString(m);
    ParseDecimalString(n);
  }
}
