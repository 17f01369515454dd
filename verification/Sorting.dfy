/** A stable sort by a given order, as far as its callers rely on it. */
module Sorting {

  function Inserted<T>(e: T, s: seq<T>, before: (T, T) -> bool): seq<T> {
    if s == [] || before(e, s[0]) then [e] + s else [s[0]] + Inserted(e, s[1..], before)
  }

  function Sorted<T>(s: seq<T>, before: (T, T) -> bool): seq<T> {
    if s == [] then [] else Inserted(s[0], Sorted(s[1..], before), before)
  }

  ghost predicate IsOrder<T(!new)>(before: (T, T) -> bool) {
    && (forall a, b :: before(a, b) || before(b, a))
    && (forall a, b, c :: before(a, b) && before(b, c) ==> before(a, c))
  }

  predicate Ordered<T>(s: seq<T>, before: (T, T) -> bool) {
    forall i, j :: 0 <= i <= j < |s| ==> before(s[i], s[j])
  }

  lemma {:induction false} InsertedKeeps<T(!new)>(e: T, s: seq<T>, before: (T, T) -> bool)
    requires IsOrder(before) && Ordered(s, before)
    ensures Ordered(Inserted(e, s, before), before) && multiset(Inserted(e, s, before)) == multiset(s) + multiset{e}
  {
    if s == [] || before(e, s[0]) {
      assert multiset([e] + s) == multiset{e} + multiset(s);
    } else {
      InsertedKeeps(e, s[1..], before);
      var rest := Inserted(e, s[1..], before);
      assert s == [s[0]] + s[1..];
      forall k | 0 <= k < |rest| ensures before(s[0], rest[k]) {
        assert rest[k] in multiset(rest);
        if rest[k] != e { assert rest[k] in multiset(s[1..]); }
      }
    }
  }

  lemma {:induction false} SortedKeeps<T(!new)>(s: seq<T>, before: (T, T) -> bool)
    requires IsOrder(before)
    ensures Ordered(Sorted(s, before), before) && multiset(Sorted(s, before)) == multiset(s)
  {
    if s != [] {
      SortedKeeps(s[1..], before);
      InsertedKeeps(s[0], Sorted(s[1..], before), before);
      assert s == [s[0]] + s[1..];
    }
  }
}
