/** The two string primitives the services rely on: `toLowerCase` and
    `indexOf`, with JavaScript's meaning (first occurrence, or -1). */
module Strings {

  /** Lower-cases one character. Only the ASCII letters A-Z are mapped. */
  function LowerChar(c: char): (d: char)
    ensures 'A' <= c <= 'Z' ==> d as int == c as int + 32
    ensures !('A' <= c <= 'Z') ==> d == c
    ensures !('A' <= d <= 'Z')
  {
    if 'A' <= c <= 'Z' then (c as int + 32) as char else c
  }

  /** JavaScript's `toLowerCase`, restricted to ASCII letters. */
  function ToLower(s: string): (r: string)
    ensures |r| == |s|
    ensures forall i :: 0 <= i < |s| ==> r[i] == LowerChar(s[i])
  {
    if s == [] then [] else [LowerChar(s[0])] + ToLower(s[1..])
  }

  /** Lower-casing is idempotent, so matching after `toLowerCase` ignores case. */
  lemma ToLowerIdempotent(s: string)
    ensures ToLower(ToLower(s)) == ToLower(s)
  {
    var once := ToLower(s);
    var twice := ToLower(once);
    assert |twice| == |once|;
    forall i | 0 <= i < |once| ensures twice[i] == once[i] {
      assert once[i] == LowerChar(s[i]);
    }
  }

  /** `sub` occurs in `s` starting at index `i`. */
  predicate OccursAt(s: string, sub: string, i: int)
  {
    0 <= i && i + |sub| <= |s| && s[i..i + |sub|] == sub
  }

  /** `sub` occurs somewhere in `s`, stated without reference to any search. */
  ghost predicate Contains(s: string, sub: string)
  {
    exists i :: OccursAt(s, sub, i)
  }

  /** The first index at or after `from` where `sub` occurs, or -1. */
  function IndexOfFrom(s: string, sub: string, from: nat): (r: int)
    requires from <= |s|
    ensures r == -1 || from <= r
    ensures r == -1 ==> forall j :: from <= j ==> !OccursAt(s, sub, j)
    ensures r != -1 ==> OccursAt(s, sub, r) && forall j :: from <= j < r ==> !OccursAt(s, sub, j)
    decreases |s| - from
  {
    if from + |sub| > |s| then -1
    else if s[from..from + |sub|] == sub then from
    else IndexOfFrom(s, sub, from + 1)
  }

  /** JavaScript's `indexOf`: the first index where `sub` occurs, or -1. */
  function IndexOf(s: string, sub: string): (r: int)
    ensures -1 <= r
    ensures r == -1 <==> !Contains(s, sub)
    ensures r != -1 ==> OccursAt(s, sub, r) && forall j :: 0 <= j < r ==> !OccursAt(s, sub, j)
  {
    IndexOfFrom(s, sub, 0)
  }

  /** For a single character, `indexOf` is the first position holding it. */
  lemma IndexOfCharAbsentOrFirst(s: string, c: char)
    ensures IndexOf(s, [c]) == -1 <==> c !in s
    ensures IndexOf(s, [c]) != -1 ==>
      IndexOf(s, [c]) < |s| && s[IndexOf(s, [c])] == c && c !in s[..IndexOf(s, [c])]
  {
    var k := IndexOf(s, [c]);
    if c in s {
      var i :| 0 <= i < |s| && s[i] == c;
      assert OccursAt(s, [c], i);
    }
    if k != -1 {
      assert s[k..k + 1] == [c];
      assert s[k] == c;
      forall j | 0 <= j < k ensures s[..k][j] != c {
        assert !OccursAt(s, [c], j);
        assert s[j..j + 1] == [s[j]];
      }
    }
  }
}
