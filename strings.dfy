/** The string operations the table view relies on: ASCII lower-casing (standing in for
    `String.prototype.toLowerCase`), substring search (`String.prototype.includes`) and the
    order-preserving subsequence relation used to describe `Array.prototype.filter`. */
module Strings {

  /** Lower-cases one ASCII letter; every other character is left as it is. */
  function LowerChar(c: char): (r: char)
    ensures ('A' <= c <= 'Z') ==> 'a' <= r <= 'z' && r as int - c as int == 32
    ensures !('A' <= c <= 'Z') ==> r == c
  {
    if 'A' <= c <= 'Z' then (c as int + 32) as char else c
  }

  /** Upper-cases one ASCII letter; used only to state that matching ignores case. */
  function UpperChar(c: char): (r: char)
    ensures ('a' <= c <= 'z') ==> 'A' <= r <= 'Z' && c as int - r as int == 32
    ensures !('a' <= c <= 'z') ==> r == c
  {
    if 'a' <= c <= 'z' then (c as int - 32) as char else c
  }

  function Lower(s: string): (r: string)
    ensures |r| == |s|
    ensures forall i :: 0 <= i < |s| ==> r[i] == LowerChar(s[i])
    ensures forall i :: 0 <= i < |r| ==> !('A' <= r[i] <= 'Z')
  {
    seq(|s|, i requires 0 <= i < |s| => LowerChar(s[i]))
  }

  function Upper(s: string): (r: string)
    ensures |r| == |s|
    ensures forall i :: 0 <= i < |s| ==> r[i] == UpperChar(s[i])
  {
    seq(|s|, i requires 0 <= i < |s| => UpperChar(s[i]))
  }

  /** Lower-casing twice is lower-casing once. */
  lemma LowerIdempotent(s: string)
    ensures Lower(Lower(s)) == Lower(s)
  {
  }

  /** Lower-casing forgets whether a letter was upper-cased first. */
  lemma LowerOfUpper(s: string)
    ensures Lower(Upper(s)) == Lower(s)
  {
  }

  /** `needle` occurs in `hay` starting at index `i`. */
  ghost predicate OccursAt(hay: string, needle: string, i: int)
  {
    0 <= i <= |hay| - |needle| && hay[i..i + |needle|] == needle
  }

  /** `hay.includes(needle)`: true exactly when `needle` occurs somewhere in `hay`
      (so always true for the empty needle). */
  function Includes(hay: string, needle: string): (r: bool)
    ensures r <==> exists i :: OccursAt(hay, needle, i)
    decreases |hay|
  {
    if |needle| > |hay| then
      assert forall i :: !OccursAt(hay, needle, i);
      false
    else if hay[..|needle|] == needle then
      assert OccursAt(hay, needle, 0);
      true
    else
      ShiftOccurrence(hay, needle);
      Includes(hay[1..], needle)
  }

  /** An occurrence that does not start at index 0 is an occurrence in the tail. */
  lemma ShiftOccurrence(hay: string, needle: string)
    requires |needle| <= |hay| && hay[..|needle|] != needle
    ensures (exists i :: OccursAt(hay, needle, i)) <==> (exists j :: OccursAt(hay[1..], needle, j))
  {
    forall i | OccursAt(hay, needle, i) ensures OccursAt(hay[1..], needle, i - 1) {
      assert i != 0;
      assert hay[1..][i - 1..i - 1 + |needle|] == hay[i..i + |needle|];
    }
    forall j | OccursAt(hay[1..], needle, j) ensures OccursAt(hay, needle, j + 1) {
      assert hay[1..][j..j + |needle|] == hay[j + 1..j + 1 + |needle|];
    }
  }

  /** `a` is `b` with some elements removed, the rest kept in their order. */
  ghost predicate IsSubsequence<T>(a: seq<T>, b: seq<T>)
    decreases |b|
  {
    if a == [] then true
    else if b == [] then false
    else (a[0] == b[0] && IsSubsequence(a[1..], b[1..])) || IsSubsequence(a, b[1..])
  }

  lemma {:induction false} SubsequenceReflexive<T>(a: seq<T>)
    ensures IsSubsequence(a, a)
    decreases |a|
  {
    if a != [] {
      SubsequenceReflexive(a[1..]);
    }
  }
}
