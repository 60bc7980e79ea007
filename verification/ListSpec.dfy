/**
 What the list operations of lib/dplist.c mean on sequences. Indices are any integers: the program
 clamps them (lib/dplist.h:84-135).
 */
module ListSpec {
  import opened Measurements

  // Where dpl_insert_at_index puts a new node into a list of n nodes.
  function InsertPosition(index: int, n: nat): (p: nat)
    ensures p <= n
  {
    if index <= 0 then 0 else if index < n then index else n
  }

  // Which node dpl_get_reference_at_index finds, and dpl_remove_at_index removes.
  function NodePosition(index: int, n: nat): (p: nat)
    requires 0 < n
    ensures p < n
  {
    if index <= 0 then 0 else if index < n then index else n - 1
  }

  function InsertAt<X>(s: seq<X>, index: int, x: X): (r: seq<X>)
    ensures |r| == |s| + 1
  {
    var p := InsertPosition(index, |s|);
    s[..p] + [x] + s[p..]
  }

  function RemoveAt<X>(s: seq<X>, index: int): seq<X> {
    if s == [] then s
    else
      var p := NodePosition(index, |s|);
      s[..p] + s[p + 1..]
  }

  // Inserting at any index and removing at the same index gives back the list.
  lemma InsertThenRemove<X>(s: seq<X>, index: int, x: X)
    ensures RemoveAt(InsertAt(s, index, x), index) == s
  {
    var p := InsertPosition(index, |s|);
    assert NodePosition(index, |s| + 1) == p;
    assert InsertAt(s, index, x)[..p] == s[..p];
    assert InsertAt(s, index, x)[p + 1..] == s[p..];
  }

  // Removing at any index and inserting at the same index puts the new one in the place of the old.
  lemma RemoveThenInsert<X>(s: seq<X>, index: int, x: X)
    requires s != []
    ensures InsertAt(RemoveAt(s, index), index, x) == s[NodePosition(index, |s|) := x]
  {
    var p, r := NodePosition(index, |s|), RemoveAt(s, index);
    assert InsertPosition(index, |r|) == p;
    assert r[..p] == s[..p];
    assert r[p..] == s[p + 1..];
  }

  lemma InsertMultiset<X>(s: seq<X>, index: int, x: X)
    ensures multiset(InsertAt(s, index, x)) == multiset(s) + multiset{x}
  {
    var p := InsertPosition(index, |s|);
    assert s == s[..p] + s[p..];
  }

  // These are the indices from lo to hi - 1 with this property, each once, in order.
  ghost predicate Exactly(kept: seq<nat>, lo: nat, hi: nat, p: nat -> bool) {
    && (forall a, b :: 0 <= a < b < |kept| ==> kept[a] < kept[b])
    && (forall a :: 0 <= a < |kept| ==> lo <= kept[a] < hi && p(kept[a]))
    && (forall k :: lo <= k < hi && p(k) ==> k in kept)
  }

  function Kept(lo: nat, hi: nat, p: nat -> bool): seq<nat>
    decreases hi - lo
  {
    if hi <= lo then [] else (if p(lo) then [lo] else []) + Kept(lo + 1, hi, p)
  }

  lemma {:induction false} KeptExactly(lo: nat, hi: nat, p: nat -> bool)
    ensures Exactly(Kept(lo, hi, p), lo, hi, p)
    decreases hi - lo
  {
    if lo < hi {
      KeptExactly(lo + 1, hi, p);
      ExactlyCons(Kept(lo + 1, hi, p), lo, hi, p);
    }
  }

  lemma ExactlyCons(kept: seq<nat>, lo: nat, hi: nat, p: nat -> bool)
    requires lo < hi && Exactly(kept, lo + 1, hi, p)
    ensures Exactly((if p(lo) then [lo] else []) + kept, lo, hi, p)
  {
    var all := (if p(lo) then [lo] else []) + kept;
    forall k | lo <= k < hi && p(k) ensures k in all {
      if k == lo {
        assert all[0] == lo;
      }
    }
  }

  // At the other end; q has the property in common with p below hi.
  lemma ExactlySnoc(kept: seq<nat>, lo: nat, hi: nat, p: nat -> bool, q: nat -> bool)
    requires lo <= hi && Exactly(kept, lo, hi, p) && forall k: nat :: k < hi ==> p(k) == q(k)
    ensures Exactly(kept + if q(hi) then [hi] else [], lo, hi + 1, q)
  {
    var all := kept + if q(hi) then [hi] else [];
    forall k | lo <= k < hi + 1 && q(k) ensures k in all {
      if k == hi {
        assert all[|all| - 1] == hi;
      } else {
        assert p(k);
      }
    }
  }

  // ---------- Elements ----------

  // An element pointer is None when it is NULL; compare is the callback of the list.
  type Compare<!T> = (T, T) -> int

  // dpl_get_index_of_element, lines 190-199: does this node's element match?
  predicate Matches<T>(compare: Compare<T>, stored: Option<T>, wanted: Option<T>) {
    match (stored, wanted)
    case (None, None) => true
    case (Some(a), Some(b)) => compare(a, b) == 0
    case _ => false
  }

  ghost predicate IsIndexOf<T>(compare: Compare<T>, s: seq<Option<T>>, wanted: Option<T>, i: int) {
    && -1 <= i < |s|
    && (0 <= i ==> Matches(compare, s[i], wanted))
    && forall k :: 0 <= k < (if i < 0 then |s| else i) ==> !Matches(compare, s[k], wanted)
  }

  lemma IndexOfIsUnique<T>(compare: Compare<T>, s: seq<Option<T>>, wanted: Option<T>, i: int, j: int)
    requires IsIndexOf(compare, s, wanted, i) && IsIndexOf(compare, s, wanted, j)
    ensures i == j
  {
    if 0 <= i { assert !(i < (if j < 0 then |s| else j)); }
    if 0 <= j { assert !(j < (if i < 0 then |s| else i)); }
  }

  lemma RemovedAt<X>(s: seq<X>, index: nat, j: nat)
    requires index < |s| && j < |s| - 1
    ensures |RemoveAt(s, index)| == |s| - 1
    ensures RemoveAt(s, index)[j] == s[if j < index then j else j + 1]
  {
  }

  // ---------- Order ----------

  // NULL elements come first.
  predicate AtMost<T>(compare: Compare<T>, a: Option<T>, b: Option<T>) {
    a.None? || (b.Some? && compare(a.value, b.value) <= 0)
  }

  ghost predicate InRange<X>(s: seq<X>, i: int) {
    0 <= i < |s|
  }

  // The callback orders the elements: -1, 0 or 1 (lib/dplist.h:62), antisymmetric and transitive.
  ghost predicate Orders<T>(compare: Compare<T>, s: seq<Option<T>>) {
    && (forall i, j :: InRange(s, i) && InRange(s, j) && s[i].Some? && s[j].Some? ==>
          && -1 <= compare(s[i].value, s[j].value) <= 1
          && compare(s[j].value, s[i].value) == -compare(s[i].value, s[j].value))
    && (forall i, j, k ::
          (InRange(s, i) && InRange(s, j) && InRange(s, k)
           && AtMost(compare, s[i], s[j]) && AtMost(compare, s[j], s[k])) ==> AtMost(compare, s[i], s[k]))
  }

  ghost predicate Sorted<T>(compare: Compare<T>, s: seq<Option<T>>) {
    forall i, j :: 0 <= i < j < |s| ==> AtMost(compare, s[i], s[j])
  }

  // Does dpl_insert_sorted walk past this node?
  predicate Passes<T>(compare: Compare<T>, e: T, stored: Option<T>) {
    stored.None? || compare(e, stored.value) == 1
  }

  // Where dpl_insert_sorted inserts: before the first element that is not smaller.
  ghost predicate IsSortedPosition<T>(compare: Compare<T>, s: seq<Option<T>>, e: Option<T>, p: nat) {
    if e.None? then p == 0
    else
      && p <= |s|
      && (forall k :: 0 <= k < p ==> s[k].None? || compare(e.value, s[k].value) > 0)
      && (p < |s| ==> s[p].Some? && compare(e.value, s[p].value) <= 0)
  }

  // On a result above 1 dpl_insert_sorted neither advances nor returns.
  ghost predicate Comparable<T>(compare: Compare<T>, s: seq<Option<T>>, e: Option<T>) {
    forall k :: 0 <= k < |s| && e.Some? && s[k].Some? ==> compare(e.value, s[k].value) <= 1
  }

  // Inserting e there, or a copy of it that compares as e does, keeps the list sorted.
  lemma SortedInsert<T>(compare: Compare<T>, s: seq<Option<T>>, e: Option<T>, stored: Option<T>, p: nat)
    requires Sorted(compare, s) && IsSortedPosition(compare, s, e, p)
    requires Orders(compare, s + [e, stored])
    requires AtMost(compare, e, stored) && AtMost(compare, stored, e)
    ensures Sorted(compare, InsertAt(s, p, stored))
  {
    var r, all := InsertAt(s, p, stored), s + [e, stored];
    assert all[|s|] == e && all[|s| + 1] == stored;
    forall k | 0 <= k < |s|
      ensures k < p ==> AtMost(compare, s[k], stored)
      ensures k >= p ==> AtMost(compare, stored, s[k])
    {
      assert all[k] == s[k];
      if k < p {
        assert AtMost(compare, all[k], all[|s|]);
      } else {
        assert all[p] == s[p];
        assert AtMost(compare, all[|s|], all[p]);
        assert AtMost(compare, all[|s|], all[k]);
      }
    }
    forall i, j | 0 <= i < j < |r|
      ensures AtMost(compare, r[i], r[j])
    {
      assert r[i] == if i < p then s[i] else if i == p then stored else s[i - 1];
      assert r[j] == if j < p then s[j] else if j == p then stored else s[j - 1];
    }
  }
}
