/** The `.sort({ createdAt: -1 })` every list query ends with: newest first. */
module Ordering {

  /** Every element is at least as new as each element after it. */
  predicate NewestFirst<T>(s: seq<T>, createdAt: T -> int) {
    forall i, j :: 0 <= i < j < |s| ==> createdAt(s[i]) >= createdAt(s[j])
  }

  /** Puts x in front of the first element that is not newer than it. */
  function Insert<T>(x: T, s: seq<T>, createdAt: T -> int): (r: seq<T>)
    requires NewestFirst(s, createdAt)
    ensures NewestFirst(r, createdAt)
    ensures multiset(r) == multiset(s) + multiset{x}
    ensures r[0] == x || (s != [] && r[0] == s[0])
  {
    if s == [] || createdAt(s[0]) <= createdAt(x) then
      [x] + s
    else
      assert s == [s[0]] + s[1..];
      [s[0]] + Insert(x, s[1..], createdAt)
  }

  /** The list handed back to the client: the same documents, newest first. */
  function SortNewestFirst<T>(s: seq<T>, createdAt: T -> int): (r: seq<T>)
    ensures NewestFirst(r, createdAt)
    ensures multiset(r) == multiset(s)
  {
    if s == [] then []
    else
      assert s == [s[0]] + s[1..];
      Insert(s[0], SortNewestFirst(s[1..], createdAt), createdAt)
  }
}
