/** The string primitives the site relies on (`toLowerCase`, `trim`,
    `includes`, `startsWith`, and the lexicographic order of ISO timestamps),
    restricted to an explicit character set: letters are folded only in the
    ASCII range, and whitespace is the fixed set `IsSpace` lists. */
module Text {

  /** An ASCII upper-case letter. */
  predicate IsUpper(c: char) {
    'A' <= c <= 'Z'
  }

  /** `toLowerCase` on one character, ASCII letters only. */
  function LowerChar(c: char): (r: char)
    ensures !IsUpper(r)
    ensures !IsUpper(c) ==> r == c
    ensures IsUpper(c) ==> r as int == c as int + 32
  {
    if IsUpper(c) then (c as int + 32) as char else c
  }

  /** `toLowerCase` on a string: folds every character and nothing else. */
  function ToLower(s: string): (r: string)
    ensures |r| == |s|
    ensures forall i :: 0 <= i < |s| ==> r[i] == LowerChar(s[i])
  {
    if s == [] then [] else [LowerChar(s[0])] + ToLower(s[1..])
  }

  /** Lower-casing a lower-cased string changes nothing. */
  lemma ToLowerIdempotent(s: string)
    ensures ToLower(ToLower(s)) == ToLower(s)
  {
  }

  /** The whitespace that `trim` removes, restricted to the ASCII controls,
      the space, no-break space, byte-order mark and the two Unicode line
      terminators. */
  predicate IsSpace(c: char) {
    || c == ' ' || c == '\t' || c == '\n' || c == '\r'
    || c == '\U{0B}' || c == '\U{0C}' || c == '\U{A0}'
    || c == '\U{FEFF}' || c == '\U{2028}' || c == '\U{2029}'
  }

  /** Drops the leading whitespace: the result is the suffix of `s` that
      starts at the first non-space character. */
  function TrimStart(s: string): (r: string)
    ensures |r| <= |s| && r == s[|s| - |r|..]
    ensures forall i :: 0 <= i < |s| - |r| ==> IsSpace(s[i])
    ensures r == [] || !IsSpace(r[0])
  {
    if s != [] && IsSpace(s[0]) then
      var r := TrimStart(s[1..]);
      assert forall i :: 1 <= i < |s| - |r| ==> s[i] == s[1..][i - 1];
      r
    else
      s
  }

  /** Drops the trailing whitespace: the result is the prefix of `s` that
      ends at the last non-space character. */
  function TrimEnd(s: string): (r: string)
    ensures |r| <= |s| && r == s[..|r|]
    ensures forall i :: |r| <= i < |s| ==> IsSpace(s[i])
    ensures r == [] || !IsSpace(r[|r| - 1])
  {
    if s != [] && IsSpace(s[|s| - 1]) then
      var r := TrimEnd(s[..|s| - 1]);
      assert forall i :: |r| <= i < |s| - 1 ==> s[i] == s[..|s| - 1][i];
      r
    else
      s
  }

  /** `trim`: both ends stripped. */
  function Trim(s: string): string {
    TrimEnd(TrimStart(s))
  }

  /** A string whose trimmed form is empty is exactly a string made of
      whitespace only (the empty string included). */
  lemma BlankIffAllSpace(s: string)
    ensures Trim(s) == [] <==> forall i :: 0 <= i < |s| ==> IsSpace(s[i])
  {
  }

  /** `s.startsWith(p)`. */
  predicate StartsWith(s: string, p: string) {
    |p| <= |s| && s[..|p|] == p
  }

  /** `k` occurs in `s` starting at index `i`. */
  predicate OccursAt(s: string, k: string, i: int) {
    0 <= i && i + |k| <= |s| && s[i..i + |k|] == k
  }

  /** `s.includes(k)`, as a scan over the start positions of `s`. */
  predicate Contains(s: string, k: string)
    decreases |s|
  {
    |k| <= |s| && (s[..|k|] == k || Contains(s[1..], k))
  }

  /** The scan finds `k` exactly when `k` occurs somewhere in `s`. */
  lemma {:induction false} ContainsIff(s: string, k: string)
    ensures Contains(s, k) <==> exists i :: OccursAt(s, k, i)
    decreases |s|
  {
    if |k| <= |s| {
      if s[..|k|] == k {
        assert OccursAt(s, k, 0);
      } else {
        ContainsIff(s[1..], k);
        if Contains(s[1..], k) {
          var i :| OccursAt(s[1..], k, i);
          assert s[1..][i..i + |k|] == s[i + 1..i + 1 + |k|];
          assert OccursAt(s, k, i + 1);
        }
        if exists i :: OccursAt(s, k, i) {
          var i :| OccursAt(s, k, i);
          assert s[1..][i - 1..i - 1 + |k|] == s[i..i + |k|];
          assert OccursAt(s[1..], k, i - 1);
        }
      }
    }
  }

  /** A string built around `k` contains `k`. */
  lemma ContainsInfix(a: string, k: string, b: string)
    ensures Contains(a + k + b, k)
  {
    assert (a + k + b)[|a|..|a| + |k|] == k;
    assert OccursAt(a + k + b, k, |a|);
    ContainsIff(a + k + b, k);
  }

  /** Lexicographic order on strings by code point, the order of ISO-8601
      timestamps. */
  predicate StrLe(a: string, b: string)
    decreases |a|
  {
    a == [] || (b != [] && (a[0] < b[0] || (a[0] == b[0] && StrLe(a[1..], b[1..]))))
  }
}
