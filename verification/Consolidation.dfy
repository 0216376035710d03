/** Keeping one entry of one's own in a list that others also use. `own` says
    which entries are one's own. */
module Consolidation {
  import opened Wrappers

  /** The entries that are not ours, in order. */
  function Foreign<T>(entries: seq<T>, own: T -> bool): seq<T> {
    if entries == [] then []
    else (if own(entries[0]) then [] else [entries[0]]) + Foreign(entries[1..], own)
  }

  /** Position of our first entry, or the end. */
  function FirstOwn<T>(entries: seq<T>, own: T -> bool): (i: nat)
    ensures i <= |entries|
  {
    if entries == [] || own(entries[0]) then 0 else 1 + FirstOwn(entries[1..], own)
  }

  /** Our first entry replaced by `target`, our others dropped; appended if there was none. */
  function Consolidated<T>(entries: seq<T>, target: T, own: T -> bool): seq<T> {
    var i := FirstOwn(entries, own);
    if i == |entries| then entries + [target] else entries[..i] + [target] + Foreign(entries[i + 1..], own)
  }

  lemma {:induction false} ForeignConcat<T>(a: seq<T>, b: seq<T>, own: T -> bool)
    ensures Foreign(a + b, own) == Foreign(a, own) + Foreign(b, own)
  {
    if a == [] {
      assert a + b == b;
    } else {
      ForeignConcat(a[1..], b, own);
      assert (a + b)[1..] == a[1..] + b;
      ConcatAssociative(if own(a[0]) then [] else [a[0]], Foreign(a[1..], own), Foreign(b, own));
    }
  }

  /** None of `entries` is ours. */
  predicate NoneOwn<T>(entries: seq<T>, own: T -> bool) {
    entries == [] || (!own(entries[0]) && NoneOwn(entries[1..], own))
  }

  lemma {:induction false} ForeignIsForeign<T>(entries: seq<T>, own: T -> bool)
    ensures NoneOwn(Foreign(entries, own), own)
    ensures Foreign(entries, own) == entries <==> NoneOwn(entries, own)
  {
    if entries == [] {
    } else {
      var rest := Foreign(entries[1..], own);
      ForeignIsForeign(entries[1..], own);
      assert ([entries[0]] + rest)[1..] == rest;
      assert Foreign(entries, own) == if own(entries[0]) then rest else [entries[0]] + rest;
      assert entries == [entries[0]] + entries[1..];
    }
  }

  lemma {:induction false} NoneOwnIndex<T>(entries: seq<T>, own: T -> bool)
    ensures NoneOwn(entries, own) <==> forall i :: 0 <= i < |entries| ==> !own(entries[i])
  {
    if entries == [] {
    } else {
      NoneOwnIndex(entries[1..], own);
      if NoneOwn(entries, own) {
        assert forall i :: 0 < i < |entries| ==> entries[i] == entries[1..][i - 1];
      }
    }
  }

  /** Everything there is to know about the entries around our first one. */
  lemma {:induction false} AroundFirst<T>(front: seq<T>, ours: T, rest: seq<T>, own: T -> bool)
    requires NoneOwn(front, own) && own(ours)
    ensures FirstOwn(front + [ours] + rest, own) == |front|
    ensures Foreign(front + [ours] + rest, own) == front + Foreign(rest, own)
  {
    var all := front + [ours] + rest;
    if front == [] {
      assert all[0] == ours && all[1..] == rest;
    } else {
      AroundFirst(front[1..], ours, rest, own);
      assert all[0] == front[0] && all[1..] == front[1..] + [ours] + rest;
      assert front == [front[0]] + front[1..];
      ConcatAssociative([front[0]], front[1..], Foreign(rest, own));
    }
  }

  lemma {:induction false} SplitAtFirst<T>(entries: seq<T>, own: T -> bool)
    ensures var i := FirstOwn(entries, own);
      && NoneOwn(entries[..i], own)
      && (i < |entries| ==> own(entries[i]) && entries == entries[..i] + [entries[i]] + entries[i + 1..])
  {
    var i := FirstOwn(entries, own);
    if entries != [] && !own(entries[0]) {
      SplitAtFirst(entries[1..], own);
      assert entries[..i][1..] == entries[1..][..i - 1];
    }
  }

  lemma {:induction false} FirstOwnAtEnd<T>(entries: seq<T>, own: T -> bool)
    requires NoneOwn(entries, own)
    ensures FirstOwn(entries, own) == |entries|
  {
    if entries == [] {
    } else {
      FirstOwnAtEnd(entries[1..], own);
    }
  }

  lemma ConsolidatedAround<T>(front: seq<T>, ours: T, rest: seq<T>, target: T, own: T -> bool)
    requires NoneOwn(front, own) && own(ours)
    ensures Consolidated(front + [ours] + rest, target, own) == front + [target] + Foreign(rest, own)
  {
    var all := front + [ours] + rest;
    AroundFirst(front, ours, rest, own);
    assert all[..|front|] == front && all[|front| + 1..] == rest;
  }

  /** After consolidation the list is others' entries, the target, and others'
      entries: exactly one entry is ours and it is the target, at the place of
      our first old entry or else at the end, and every other entry survives,
      in order. */
  lemma ConsolidatedMeaning<T>(entries: seq<T>, target: T, own: T -> bool)
    requires own(target)
    ensures var out, i := Consolidated(entries, target, own), FirstOwn(entries, own);
      && i < |out| && out[i] == target && out[..i] == entries[..i]
      && NoneOwn(out[..i], own) && NoneOwn(out[i + 1..], own)
      && Foreign(out, own) == Foreign(entries, own)
  {
    var i := FirstOwn(entries, own);
    SplitAtFirst(entries, own);
    var front := entries[..i];
    var rest := if i < |entries| then Foreign(entries[i + 1..], own) else [];
    var out := front + [target] + rest;
    if i < |entries| {
      ConsolidatedAround(front, entries[i], entries[i + 1..], target, own);
      AroundFirst(front, entries[i], entries[i + 1..], own);
      ForeignIsForeign(entries[i + 1..], own);
    } else {
      assert front == entries;
      ForeignIsForeign(entries, own);
      assert out == entries + [target] && entries + [] == entries;
    }
    ForeignIsForeign(rest, own);
    AroundFirst(front, target, rest, own);
    assert out[i + 1..] == rest && out[..i] == front;
  }

  lemma ConsolidatedOnlyOwn<T>(entries: seq<T>, target: T, own: T -> bool, j: nat)
    requires own(target) && j < |Consolidated(entries, target, own)| && own(Consolidated(entries, target, own)[j])
    ensures j == FirstOwn(entries, own)
  {
    var out, i := Consolidated(entries, target, own), FirstOwn(entries, own);
    ConsolidatedMeaning(entries, target, own);
    NoneOwnIndex(out[..i], own);
    NoneOwnIndex(out[i + 1..], own);
    forall k | 0 <= k < i ensures !own(out[k]) {
      assert out[..i][k] == out[k];
    }
    forall k | i < k < |out| ensures !own(out[k]) {
      assert out[i + 1..][k - i - 1] == out[k];
    }
  }

  /** Consolidation leaves a list alone exactly when it already holds the
      target and no other entry of ours. */
  lemma ConsolidatedWhen<T>(entries: seq<T>, target: T, own: T -> bool)
    requires own(target)
    ensures var i := FirstOwn(entries, own);
      Consolidated(entries, target, own) == entries
      <==> i < |entries| && entries[i] == target && NoneOwn(entries[i + 1..], own)
  {
    var i := FirstOwn(entries, own);
    SplitAtFirst(entries, own);
    if i < |entries| {
      var front, rest := entries[..i], entries[i + 1..];
      ConsolidatedAround(front, entries[i], rest, target, own);
      ForeignIsForeign(rest, own);
      var out := front + [target] + Foreign(rest, own);
      assert out[i] == target && out[i + 1..] == Foreign(rest, own);
    }
  }

  lemma ConsolidatedTwice<T>(entries: seq<T>, target: T, own: T -> bool)
    requires own(target)
    ensures var out := Consolidated(entries, target, own);
      Consolidated(out, target, own) == out
  {
    var out, i := Consolidated(entries, target, own), FirstOwn(entries, own);
    ConsolidatedMeaning(entries, target, own);
    assert out == out[..i] + [target] + out[i + 1..];
    AroundFirst(out[..i], target, out[i + 1..], own);
    ConsolidatedWhen(out, target, own);
  }

  /** `indices` lists, in order, the positions of our entries. */
  ghost predicate Lists<T>(indices: seq<nat>, entries: seq<T>, own: T -> bool) {
    && (forall k :: 0 <= k < |indices| ==> indices[k] < |entries| && own(entries[indices[k]]))
    && (forall j, k :: 0 <= j < k < |indices| ==> indices[j] < indices[k])
    && (forall i :: 0 <= i < |entries| && own(entries[i]) ==> i in indices)
  }

  lemma SoleOwn<T>(entries: seq<T>, i: nat, target: T, own: T -> bool)
    requires i < |entries| && Lists([i], entries, own)
    ensures Consolidated(entries, target, own) == entries[i := target]
  {
    assert [i][0] == i;
    var front, rest := entries[..i], entries[i + 1..];
    NoneOwnIndex(front, own);
    NoneOwnIndex(rest, own);
    assert entries == front + [entries[i]] + rest && entries[i := target] == front + [target] + rest;
    ConsolidatedAround(front, entries[i], rest, target, own);
    ForeignIsForeign(rest, own);
  }

  lemma NoOwn<T>(entries: seq<T>, target: T, own: T -> bool)
    requires Lists([], entries, own)
    ensures Consolidated(entries, target, own) == entries + [target]
  {
    NoneOwnIndex(entries, own);
    FirstOwnAtEnd(entries, own);
  }

  lemma SeveralOwn<T>(entries: seq<T>, i: nat, j: nat, target: T, own: T -> bool)
    requires i < j < |entries| && own(entries[i]) && own(entries[j]) && own(target)
    ensures Consolidated(entries, target, own) != entries
  {
    if Consolidated(entries, target, own) == entries {
      ConsolidatedOnlyOwn(entries, target, own, i);
      ConsolidatedOnlyOwn(entries, target, own, j);
    }
  }

  // ------------------------------------------------------------ the loops

  method FindOwn<T>(entries: seq<T>, own: T -> bool) returns (indices: seq<nat>)
    ensures Lists(indices, entries, own)
  {
    indices := [];
    for i := 0 to |entries|
      invariant forall k :: 0 <= k < |indices| ==> indices[k] < i && own(entries[indices[k]])
      invariant forall j, k :: 0 <= j < k < |indices| ==> indices[j] < indices[k]
      invariant forall j :: 0 <= j < i && own(entries[j]) ==> j in indices
    {
      if own(entries[i]) {
        indices := indices + [i];
      }
    }
  }

  lemma ForeignGap<T>(entries: seq<T>, i: nat, next: nat, own: T -> bool)
    requires i < next <= |entries| && own(entries[i]) && NoneOwn(entries[i + 1..next], own)
    ensures Foreign(entries[i..], own) == entries[i + 1..next] + Foreign(entries[next..], own)
    ensures Foreign(entries[i + 1..], own) == entries[i + 1..next] + Foreign(entries[next..], own)
  {
    assert entries[i..][1..] == entries[i + 1..];
    assert entries[i + 1..] == entries[i + 1..next] + entries[next..];
    ForeignConcat(entries[i + 1..next], entries[next..], own);
    ForeignIsForeign(entries[i + 1..next], own);
  }

  lemma NoneBetween<T>(entries: seq<T>, indices: seq<nat>, own: T -> bool, lo: nat, hi: nat)
    requires lo <= hi <= |entries| && Lists(indices, entries, own)
    requires forall k :: 0 <= k < |indices| ==> indices[k] < lo || indices[k] >= hi
    ensures NoneOwn(entries[lo..hi], own)
  {
    forall i | 0 <= i < hi - lo ensures !own(entries[lo..hi][i]) {
      assert entries[lo..hi][i] == entries[lo + i];
      assert lo + i !in indices;
    }
    NoneOwnIndex(entries[lo..hi], own);
  }

  /** The position after which nothing of ours comes before the end or our next entry. */
  function NextOwn(indices: seq<nat>, k: nat, end: nat): nat {
    if k + 1 < |indices| then indices[k + 1] else end
  }

  lemma Consecutive<T>(entries: seq<T>, indices: seq<nat>, own: T -> bool, k: nat)
    requires Lists(indices, entries, own) && k < |indices|
    ensures var p := NextOwn(indices, k, |entries|);
      indices[k] < p <= |entries| && NoneOwn(entries[indices[k] + 1..p], own)
  {
    NoneBetween(entries, indices, own, indices[k] + 1, NextOwn(indices, k, |entries|));
  }

  lemma ConsolidatedParts<T>(front: seq<T>, ours: T, gap: seq<T>, tail: seq<T>, target: T, own: T -> bool)
    requires NoneOwn(front, own) && own(ours) && NoneOwn(gap, own)
    ensures Consolidated(front + [ours] + (gap + tail), target, own) == front + [target] + gap + Foreign(tail, own)
  {
    ConsolidatedAround(front, ours, gap + tail, target, own);
    ForeignConcat(gap, tail, own);
    ForeignIsForeign(gap, own);
  }

  lemma ConsolidatedFrom<T>(entries: seq<T>, first: nat, p: nat, target: T, own: T -> bool)
    requires first < p <= |entries| && own(entries[first])
    requires NoneOwn(entries[..first], own) && NoneOwn(entries[first + 1..p], own)
    ensures entries[first := target][..p] + Foreign(entries[p..], own) == Consolidated(entries, target, own)
  {
    var front, gap, tail := entries[..first], entries[first + 1..p], entries[p..];
    assert entries == front + [entries[first]] + (gap + tail);
    assert entries[first := target][..p] == front + [target] + gap;
    ConsolidatedParts(front, entries[first], gap, tail, target, own);
  }

  lemma FinishConsolidation<T>(entries: seq<T>, indices: seq<nat>, target: T, own: T -> bool)
    requires Lists(indices, entries, own) && indices != []
    ensures var first, p := indices[0], NextOwn(indices, 0, |entries|);
      && first < p <= |entries|
      && entries[first := target][..p] + Foreign(entries[p..], own) == Consolidated(entries, target, own)
  {
    var first, p := indices[0], NextOwn(indices, 0, |entries|);
    Consecutive(entries, indices, own, 0);
    NoneBetween(entries, indices, own, 0, first);
    assert entries[0..first] == entries[..first];
    ConsolidatedFrom(entries, first, p, target, own);
  }

  /** Removing one of our entries, with only others' between it and `p`, from a
      list consolidated from `p` on. */
  lemma RemoveOne<T>(entries: seq<T>, base: seq<T>, merged: seq<T>, idx: nat, p: nat, own: T -> bool)
    requires |base| == |entries| && idx < p <= |entries| && own(entries[idx])
    requires forall j :: idx < j < |entries| ==> base[j] == entries[j]
    requires NoneOwn(entries[idx + 1..p], own)
    requires merged == base[..p] + Foreign(entries[p..], own)
    ensures merged[..idx] + merged[idx + 1..] == base[..idx] + Foreign(entries[idx..], own)
  {
    ForeignGap(entries, idx, p, own);
    assert base[idx + 1..p] == entries[idx + 1..p];
    assert merged[idx + 1..] == base[idx + 1..p] + Foreign(entries[p..], own);
    assert merged[..idx] == base[..idx];
  }

  /** Replaces the first of several entries of ours and removes the others from
      the back, so that earlier indices stay right. */
  method Consolidate<T>(entries: seq<T>, indices: seq<nat>, target: T, own: T -> bool) returns (merged: seq<T>)
    requires |indices| > 1 && Lists(indices, entries, own)
    ensures merged == Consolidated(entries, target, own)
  {
    var first := indices[0];
    merged := entries[first := target];
    ghost var base := merged;
    var k := |indices|;
    while k > 1
      invariant 1 <= k <= |indices|
      invariant NextOwn(indices, k - 1, |base|) <= |base|
      invariant var p := NextOwn(indices, k - 1, |base|); merged == base[..p] + Foreign(entries[p..], own)
    {
      k := k - 1;
      var idx := indices[k];
      Consecutive(entries, indices, own, k);
      RemoveOne(entries, base, merged, idx, NextOwn(indices, k, |base|), own);
      merged := merged[..idx] + merged[idx + 1..];
    }
    FinishConsolidation(entries, indices, target, own);
  }
}
