/**
 * String helpers shared by the companion's modules: the parts of Python's
 * `str` API that the program relies on (`lower`, `strip`, `startswith`,
 * the `in` substring test and `replace`), restricted to ASCII.
 */
module Text {

  /** Python's `str.lower` on ASCII letters; every other character is kept. */
  function LowerChar(c: char): (d: char)
    ensures 'A' <= c <= 'Z' ==> d as int == c as int + 32
    ensures !('A' <= c <= 'Z') ==> d == c
    ensures !('A' <= d <= 'Z')
  {
    if 'A' <= c <= 'Z' then (c as int + 32) as char else c
  }

  function Lower(s: string): (r: string)
    ensures |r| == |s|
    ensures forall i :: 0 <= i < |s| ==> r[i] == LowerChar(s[i])
  {
    if s == [] then [] else [LowerChar(s[0])] + Lower(s[1..])
  }

  /** Lower-casing twice is lower-casing once. */
  lemma LowerIdempotent(s: string)
    ensures Lower(Lower(s)) == Lower(s)
  {
    var l := Lower(s);
    assert forall i :: 0 <= i < |l| ==> Lower(l)[i] == l[i];
  }

  /** The characters Python's `str.isspace` accepts in the ASCII range: space, tab to carriage return, 0x1C to 0x1F. */
  predicate IsSpace(c: char) {
    c == ' ' || 9 <= c as int <= 13 || 28 <= c as int <= 31
  }

  /** No whitespace at either end: what `strip` leaves behind. */
  predicate Stripped(s: string) {
    s == [] || (!IsSpace(s[0]) && !IsSpace(s[|s| - 1]))
  }

  /** The index of the first non-whitespace character of `s` at or after `i`, or `|s|`. */
  function SkipSpace(s: string, i: nat): (n: nat)
    requires i <= |s|
    ensures i <= n <= |s|
    ensures forall k :: i <= k < n ==> IsSpace(s[k])
    ensures n == |s| || !IsSpace(s[n])
    decreases |s| - i
  {
    if i < |s| && IsSpace(s[i]) then SkipSpace(s, i + 1) else i
  }

  /** The end of `s[lo..j]` once trailing whitespace is dropped. */
  function BackSpace(s: string, lo: nat, j: nat): (e: nat)
    requires lo <= j <= |s|
    ensures lo <= e <= j
    ensures forall k :: e <= k < j ==> IsSpace(s[k])
    ensures e == lo || !IsSpace(s[e - 1])
  {
    if lo < j && IsSpace(s[j - 1]) then BackSpace(s, lo, j - 1) else j
  }

  /** `r` is `s[i..i + |r|]` and everything cut off on either side is whitespace. */
  ghost predicate StripSlice(s: string, r: string, i: int) {
    0 <= i <= i + |r| <= |s| && r == s[i..i + |r|]
    && (forall k :: 0 <= k < i ==> IsSpace(s[k]))
    && (forall k :: i + |r| <= k < |s| ==> IsSpace(s[k]))
  }

  /**
   * Python's `str.strip()`: a slice of `s` that neither starts nor ends with
   * whitespace, everything cut off being whitespace.
   */
  function Strip(s: string): (r: string)
    ensures Stripped(r)
    ensures StripSlice(s, r, SkipSpace(s, 0))
  {
    var lo := SkipSpace(s, 0);
    s[lo..BackSpace(s, lo, |s|)]
  }

  /** Every character of `Strip(s)` comes from `s`. */
  lemma StripKeepsOnlyOwnChars(s: string, c: char)
    requires c in Strip(s)
    ensures c in s
  {
    var r := Strip(s);
    var i := SkipSpace(s, 0);
    var k :| 0 <= k < |r| && r[k] == c;
    assert s[i + k] == c;
  }

  /** A character absent from `s` is absent from `Strip(s)`. */
  lemma StripKeepsAbsent(s: string, c: char)
    requires c !in s
    ensures c !in Strip(s)
  {
    if c in Strip(s) {
      StripKeepsOnlyOwnChars(s, c);
    }
  }

  /** `strip` leaves an already stripped string alone. */
  lemma StripOfStripped(s: string)
    requires Stripped(s)
    ensures Strip(s) == s
  {
    if s != [] {
      assert SkipSpace(s, 0) == 0;
      assert BackSpace(s, 0, |s|) == |s|;
    }
  }

  /** Python's `s.startswith(p)`. */
  predicate StartsWith(s: string, p: string) {
    |p| <= |s| && s[..|p|] == p
  }

  /** `p` occurs in `s` starting at index `i`. */
  ghost predicate OccursAt(s: string, p: string, i: int) {
    0 <= i && i + |p| <= |s| && s[i..i + |p|] == p
  }

  /** Python's `p in s` for strings: `p` is a substring of `s`. */
  function Contains(s: string, p: string): (b: bool)
    ensures b <==> exists i :: OccursAt(s, p, i)
  {
    if StartsWith(s, p) then
      assert OccursAt(s, p, 0);
      true
    else if |s| == 0 then
      assert forall i :: !OccursAt(s, p, i);
      false
    else
      OccursInTail(s, p);
      Contains(s[1..], p)
  }

  /** An occurrence after the first position is an occurrence in the tail. */
  lemma OccursInTail(s: string, p: string)
    requires |s| > 0 && !OccursAt(s, p, 0)
    ensures (exists i :: OccursAt(s, p, i)) <==> (exists j :: OccursAt(s[1..], p, j))
  {
    if i :| OccursAt(s, p, i) {
      assert i != 0;
      assert forall m :: 0 <= m < |s| - 1 ==> s[1..][m] == s[m + 1];
      assert s[i..i + |p|] == s[1..][i - 1..i - 1 + |p|];
      assert OccursAt(s[1..], p, i - 1);
    }
    if j :| OccursAt(s[1..], p, j) {
      assert forall m :: 0 <= m < |s| - 1 ==> s[1..][m] == s[m + 1];
      assert s[1..][j..j + |p|] == s[j + 1..j + 1 + |p|];
      assert OccursAt(s, p, j + 1);
    }
  }

  /** A substring of the text is still there after the text is extended on the left or right. */
  lemma ContainsWithin(s: string, p: string, i: nat)
    requires i + |p| <= |s| && s[i..i + |p|] == p
    ensures Contains(s, p)
  {
    assert OccursAt(s, p, i);
  }

  /**
   * Python's `s.replace(pat, rep)`: scanning left to right, every
   * non-overlapping occurrence of `pat` is replaced by `rep`.
   */
  function ReplaceAll(s: string, pat: string, rep: string): string
    requires pat != []
  {
    if |s| < |pat| then s
    else if s[..|pat|] == pat then rep + ReplaceAll(s[|pat|..], pat, rep)
    else [s[0]] + ReplaceAll(s[1..], pat, rep)
  }

  /** A pattern with a character that the text lacks is never replaced. */
  lemma {:induction false} ReplaceAllWithoutMatch(s: string, pat: string, rep: string, k: nat)
    requires pat != [] && k < |pat| && pat[k] !in s
    ensures ReplaceAll(s, pat, rep) == s
  {
    if |s| < |pat| {
    } else {
      assert s[..|pat|] != pat by { assert s[..|pat|][k] == s[k]; }
      ReplaceAllWithoutMatch(s[1..], pat, rep, k);
    }
  }

  /** A character in neither the text nor the replacement is absent from the result. */
  lemma {:induction false} ReplaceAllKeepsAbsent(s: string, pat: string, rep: string, c: char)
    requires pat != [] && c !in s && c !in rep
    ensures c !in ReplaceAll(s, pat, rep)
  {
    if |s| < |pat| {
    } else if s[..|pat|] == pat {
      ReplaceAllKeepsAbsent(s[|pat|..], pat, rep, c);
    } else {
      ReplaceAllKeepsAbsent(s[1..], pat, rep, c);
    }
  }

  /** Replacing a single character by text without it removes every occurrence of it. */
  lemma {:induction false} ReplaceAllRemovesChar(s: string, c: char, rep: string)
    requires c !in rep
    ensures c !in ReplaceAll(s, [c], rep)
  {
    if |s| < 1 {
    } else if s[..1] == [c] {
      ReplaceAllRemovesChar(s[1..], c, rep);
    } else {
      assert s[0] != c by { assert s[..1][0] == s[0]; }
      ReplaceAllRemovesChar(s[1..], c, rep);
    }
  }

  /** Number of occurrences of `c` in `s`. */
  function Count<T(==)>(s: seq<T>, c: T): nat {
    if s == [] then 0 else (if s[0] == c then 1 else 0) + Count(s[1..], c)
  }

  /** Each of the `Count(s, c)` occurrences of `c` is traded for all of `rep`. */
  lemma {:induction false} ReplaceAllCharLength(s: string, c: char, rep: string)
    ensures |ReplaceAll(s, [c], rep)| == |s| + (|rep| - 1) * Count(s, c)
  {
    if |s| < 1 {
    } else {
      ReplaceAllCharLength(s[1..], c, rep);
      if s[..1] == [c] {
        assert s[0] == c by { assert s[..1][0] == s[0]; }
      } else {
        assert s[0] != c;
      }
    }
  }
}
