/** Failure-compatible and collection helpers shared by every module. */
module Wrappers {
  datatype Option<+T> = None | Some(value: T)

  function Max(a: int, b: int): int {
    if a > b then a else b
  }

  lemma ConcatAssociative<T>(a: seq<T>, b: seq<T>, c: seq<T>)
    ensures a + (b + c) == (a + b) + c
  {
  }

  /** `order` lists every member of `s` exactly once: one possible iteration
      order of a hash table whose key set is `s`. */
  ghost predicate Enumerates<T(!new)>(order: seq<T>, s: set<T>) {
    && (forall x :: x in s <==> x in order)
    && (forall i, j :: 0 <= i < j < |order| ==> order[i] != order[j])
  }

  /** Dropping the head of an enumeration drops that element of the set. */
  lemma EnumerationTail<T(!new)>(order: seq<T>, s: set<T>)
    requires Enumerates(order, s) && order != []
    ensures Enumerates(order[1..], s - {order[0]})
  {
  }

  /** Some iteration order of a finite set. */
  ghost function Listing<T(!new)>(s: set<T>): (order: seq<T>)
    ensures Enumerates(order, s)
  {
    if s == {} then []
    else
      var x :| x in s;
      [x] + Listing(s - {x})
  }
}
