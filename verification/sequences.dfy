/** Duplicate-free sequences: dictionary keys in insertion order, and sorted ids. */
module Sequences {

  ghost predicate Distinct<T>(s: seq<T>) {
    forall i, j | 0 <= i < j < |s| :: s[i] != s[j]
  }

  function Without(s: seq<int>, x: int): (r: seq<int>)
    ensures forall y :: y in r <==> y in s && y != x
    ensures x !in s ==> r == s
  {
    if s == [] then [] else (if s[0] == x then [] else [s[0]]) + Without(s[1..], x)
  }

  lemma {:induction false} WithoutKeeps(s: seq<int>, x: int)
    requires Distinct(s)
    ensures Distinct(Without(s, x))
    ensures x !in s ==> Without(s + [x], x) == s
  {
    if s != [] {
      WithoutKeeps(s[1..], x);
      assert (s + [x])[1..] == s[1..] + [x];
      assert s[0] !in s[1..];
    }
  }

  ghost predicate Increasing(s: seq<int>) {
    forall i, j | 0 <= i < j < |s| :: s[i] < s[j]
  }

  /** Inserts a number into an increasing sequence, unless it is there. */
  function Insert(s: seq<int>, x: int): (r: seq<int>)
    requires Increasing(s)
    ensures Increasing(r) && forall y :: y in r <==> y in s || y == x
    ensures x !in s ==> |r| == |s| + 1
  {
    if s == [] || x < s[0] then [x] + s
    else if x == s[0] then s
    else
      var rest := Insert(s[1..], x);
      assert forall y :: y in s <==> y == s[0] || y in s[1..];
      assert rest[0] in rest;
      [s[0]] + rest
  }

  /** sorted(set(s)) */
  function SortedSet(s: seq<int>): (r: seq<int>)
    ensures Increasing(r) && forall y :: y in r <==> y in s
    ensures Distinct(s) ==> |r| == |s|
  {
    if s == [] then []
    else
      var rest := SortedSet(s[1..]);
      assert forall y :: y in s <==> y == s[0] || y in s[1..];
      Insert(rest, s[0])
  }
}
