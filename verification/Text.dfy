/**
 Formatted text input and output as the C++ streams of the repository do it:
 white-space separated words, decimal numbers, and whole lines.
 */
module Text {
  import opened Basics

  const UINT32_LIMIT: nat := 0x1_0000_0000
  const UINT64_LIMIT: nat := 0x1_0000_0000_0000_0000

  /** White space in the "C" locale: tab, newline, vertical tab, form feed, return and space. */
  predicate IsSpace(c: char) {
    9 <= c as int <= 13 || c == ' '
  }

  predicate SpaceFree(s: string) {
    forall i | 0 <= i < |s| :: !IsSpace(s[i])
  }

  /** A word that `>>` reads back whole. */
  predicate IsWord(s: string) {
    s != "" && SpaceFree(s)
  }

  predicate IsDigit(c: char) {
    '0' <= c <= '9'
  }

  predicate AllDigits(s: string) {
    forall i | 0 <= i < |s| :: IsDigit(s[i])
  }

  // ---------------------------------------------------------------- printing

  function DigitChar(d: nat): char
    requires d < 10
  {
    '0' + d as char
  }

  /** `ost << n` for an unsigned n. */
  function PrintNat(n: nat): (s: string)
    ensures s != "" && AllDigits(s)
  {
    if n < 10 then [DigitChar(n)] else PrintNat(n / 10) + [DigitChar(n % 10)]
  }

  function DigitsValue(s: string): nat
    requires AllDigits(s)
  {
    if s == "" then 0
    else 10 * DigitsValue(s[..|s| - 1]) + (s[|s| - 1] as int - '0' as int)
  }

  lemma {:induction false} PrintedValue(n: nat)
    ensures DigitsValue(PrintNat(n)) == n
  {
    if n >= 10 {
      PrintedValue(n / 10);
      assert PrintNat(n)[..|PrintNat(n)| - 1] == PrintNat(n / 10);
    } else {
      assert PrintNat(n)[..0] == "";
    }
  }

  /** Distinct numbers print differently. */
  lemma PrintInjective(a: nat, b: nat)
    ensures PrintNat(a) == PrintNat(b) ==> a == b
  {
    PrintedValue(a);
    PrintedValue(b);
  }

  lemma PrintIsWord(n: nat)
    ensures IsWord(PrintNat(n))
  {
    var s := PrintNat(n);
    forall i | 0 <= i < |s| ensures !IsSpace(s[i]) {
      assert IsDigit(s[i]);
    }
  }

  // ---------------------------------------------------------------- reading

  function SkipSpace(s: string): (r: string)
    ensures |r| <= |s|
    ensures r != "" ==> !IsSpace(r[0])
  {
    if s != "" && IsSpace(s[0]) then SkipSpace(s[1..]) else s
  }

  /** Length of the longest prefix without white space. */
  function WordLength(s: string): (n: nat)
    ensures n <= |s|
    ensures SpaceFree(s[..n])
    ensures n < |s| ==> IsSpace(s[n])
  {
    if s == "" || IsSpace(s[0]) then 0 else 1 + WordLength(s[1..])
  }

  /** Length of the longest prefix of digits. */
  function DigitsLength(s: string): (n: nat)
    ensures n <= |s|
    ensures AllDigits(s[..n])
    ensures n < |s| ==> !IsDigit(s[n])
  {
    if s == "" || !IsDigit(s[0]) then 0 else 1 + DigitsLength(s[1..])
  }

  /** Length of the text before the first newline. */
  function LineLength(s: string): (n: nat)
    ensures n <= |s|
    ensures '\n' !in s[..n]
    ensures n < |s| ==> s[n] == '\n'
  {
    if s == "" || s[0] == '\n' then 0 else 1 + LineLength(s[1..])
  }

  /** `in >> word`: the word and what is left, or nothing at the end of the input. */
  function ReadWord(s: string): (r: Option<(string, string)>)
    ensures r.Some? ==> |r.value.1| < |s| && IsWord(r.value.0)
  {
    var t := SkipSpace(s);
    if t == "" then None
    else
      var n := WordLength(t);
      Some((t[..n], t[n..]))
  }

  /** `in >> number` into an unsigned type with `limit` values; a missing or too large number fails. */
  function ReadNat(s: string, limit: nat): (r: Option<(nat, string)>)
    ensures r.Some? ==> |r.value.1| < |s| && r.value.0 < limit
  {
    var t := SkipSpace(s);
    var n := DigitsLength(t);
    if n == 0 || DigitsValue(t[..n]) >= limit then None
    else Some((DigitsValue(t[..n]), t[n..]))
  }

  /** `getline`: the text up to the newline and what follows the newline. */
  function ReadLine(s: string): (r: (string, string))
    ensures '\n' !in r.0
    ensures |r.1| <= |s|
  {
    var n := LineLength(s);
    (s[..n], if n < |s| then s[n + 1..] else "")
  }

  /** `in.get()`: drops one character. */
  function DropOne(s: string): (r: string)
    ensures |r| <= |s|
  {
    if s == "" then "" else s[1..]
  }

  // ------------------------------------------------- reading what was printed

  lemma {:induction false} WordLengthOf(w: string, rest: string)
    requires SpaceFree(w)
    requires rest != "" ==> IsSpace(rest[0])
    ensures WordLength(w + rest) == |w|
  {
    if w == "" {
      assert w + rest == rest;
    } else {
      assert (w + rest)[1..] == w[1..] + rest;
      WordLengthOf(w[1..], rest);
    }
  }

  lemma {:induction false} DigitsLengthOf(w: string, rest: string)
    requires AllDigits(w)
    requires rest != "" ==> !IsDigit(rest[0])
    ensures DigitsLength(w + rest) == |w|
  {
    if w == "" {
      assert w + rest == rest;
    } else {
      assert (w + rest)[1..] == w[1..] + rest;
      DigitsLengthOf(w[1..], rest);
    }
  }

  lemma {:induction false} LineLengthOf(v: string, rest: string)
    requires '\n' !in v
    requires rest != "" ==> rest[0] == '\n'
    ensures LineLength(v + rest) == |v|
  {
    if v == "" {
      assert v + rest == rest;
    } else {
      assert v[0] in v;
      assert (v + rest)[1..] == v[1..] + rest;
      assert '\n' !in v[1..];
      LineLengthOf(v[1..], rest);
    }
  }

  /** A printed word is read back whole, whatever separator follows it. */
  lemma ReadWordBack(w: string, rest: string)
    requires IsWord(w)
    requires rest != "" ==> IsSpace(rest[0])
    ensures ReadWord(w + rest) == Some((w, rest))
  {
    WordLengthOf(w, rest);
    assert (w + rest)[0] == w[0];
    assert SkipSpace(w + rest) == w + rest;
  }

  /** The same after any one white-space character. */
  lemma ReadWordAfter(c: char, w: string, rest: string)
    requires IsSpace(c) && IsWord(w)
    requires rest != "" ==> IsSpace(rest[0])
    ensures ReadWord([c] + (w + rest)) == Some((w, rest))
  {
    ReadWordBack(w, rest);
    assert ([c] + (w + rest))[1..] == w + rest;
  }

  lemma ReadNatBack(n: nat, rest: string, limit: nat)
    requires n < limit
    requires rest != "" ==> !IsDigit(rest[0])
    ensures ReadNat(PrintNat(n) + rest, limit) == Some((n, rest))
  {
    var w := PrintNat(n);
    PrintedValue(n);
    PrintIsWord(n);
    DigitsLengthOf(w, rest);
    assert (w + rest)[0] == w[0];
    assert SkipSpace(w + rest) == w + rest;
    assert (w + rest)[..|w|] == w;
    assert (w + rest)[|w|..] == rest;
  }

  lemma ReadNatAfter(c: char, n: nat, rest: string, limit: nat)
    requires IsSpace(c) && n < limit
    requires rest != "" ==> !IsDigit(rest[0])
    ensures ReadNat([c] + (PrintNat(n) + rest), limit) == Some((n, rest))
  {
    ReadNatBack(n, rest, limit);
    assert ([c] + (PrintNat(n) + rest))[1..] == PrintNat(n) + rest;
  }

  lemma ReadLineBack(v: string, rest: string)
    requires '\n' !in v
    ensures ReadLine(v + ("\n" + rest)) == (v, rest)
  {
    LineLengthOf(v, "\n" + rest);
    assert (v + ("\n" + rest))[..|v|] == v;
    assert (v + ("\n" + rest))[|v| + 1..] == rest;
  }
}
