/**
 * Choosing a batch for an order line (`get_earliest_batch` and the free `allocate` of the flat
 * domain model): sort the batches with Python's stable `sorted`, then take the first batch that
 * can take the line.
 *
 * `Batch` defines only `__gt__`, so `sorted` decides `a < b` by the reflected `b.__gt__(a)`. The
 * sort is stable, so its result is the list ordered by that comparison with ties kept in list
 * order. The model sorts list positions under exactly that order and proves that the first
 * eligible position is the eligible batch that is least in it.
 */
module Allocation {
  import opened Wrappers
  import opened Domain

  /** Every position in `order` indexes `batches`. */
  predicate InRange(batches: seq<Batch>, order: seq<nat>) {
    forall k :: 0 <= k < |order| ==> order[k] < |batches|
  }

  /**
   * Position `i` comes before position `j` in the stably sorted list: `batches[i] < batches[j]`
   * (that is, `batches[j].__gt__(batches[i])`), or neither is smaller and `i` is earlier.
   */
  predicate Before(batches: seq<Batch>, i: nat, j: nat)
    requires i < |batches| && j < |batches|
  {
    batches[j].Gt(batches[i]) || (!batches[i].Gt(batches[j]) && i < j)
  }

  /** The stable order is a strict total order on positions. */
  lemma BeforeStrictTotal(batches: seq<Batch>, i: nat, j: nat, m: nat)
    requires i < |batches| && j < |batches| && m < |batches|
    ensures !Before(batches, i, i)
    ensures Before(batches, i, j) ==> !Before(batches, j, i)
    ensures Before(batches, i, j) && Before(batches, j, m) ==> Before(batches, i, m)
    ensures i != j ==> Before(batches, i, j) || Before(batches, j, i)
  {
  }

  /** `order` lists positions in the stable order. */
  predicate Sorted(batches: seq<Batch>, order: seq<nat>) {
    InRange(batches, order) &&
    forall k, l :: 0 <= k < l < |order| ==> Before(batches, order[k], order[l])
  }

  /** Insert position `p` in front of the first position it comes before. */
  function Insert(batches: seq<Batch>, p: nat, order: seq<nat>): (r: seq<nat>)
    requires p < |batches| && InRange(batches, order)
    ensures InRange(batches, r)
    ensures multiset(r) == multiset(order) + multiset{p}
  {
    if order == [] then [p]
    else if Before(batches, p, order[0]) then [p] + order
    else
      assert order == [order[0]] + order[1..];
      [order[0]] + Insert(batches, p, order[1..])
  }

  lemma {:induction false} InsertSorted(batches: seq<Batch>, p: nat, order: seq<nat>)
    requires p < |batches| && Sorted(batches, order) && p !in order
    ensures Sorted(batches, Insert(batches, p, order))
  {
    var r := Insert(batches, p, order);
    if order == [] {
    } else if Before(batches, p, order[0]) {
      forall k, l | 0 <= k < l < |r|
        ensures Before(batches, r[k], r[l])
      {
        if k == 0 {
          BeforeStrictTotal(batches, p, order[0], order[l - 1]);
        }
      }
    } else {
      BeforeStrictTotal(batches, p, order[0], p);
      InsertSorted(batches, p, order[1..]);
      var rest := Insert(batches, p, order[1..]);
      assert r == [order[0]] + rest;
      forall k, l | 0 <= k < l < |r|
        ensures Before(batches, r[k], r[l])
      {
        if k == 0 {
          assert r[l] in multiset(rest);
          assert r[l] == p || r[l] in order[1..];
        }
      }
    }
  }

  /** Insertion sort of positions: the stable sort of the batches they index. */
  function SortPositions(batches: seq<Batch>, ps: seq<nat>): (r: seq<nat>)
    requires InRange(batches, ps)
    ensures InRange(batches, r)
    ensures multiset(r) == multiset(ps)
  {
    if ps == [] then []
    else
      assert ps == [ps[0]] + ps[1..];
      Insert(batches, ps[0], SortPositions(batches, ps[1..]))
  }

  lemma {:induction false} SortPositionsSorted(batches: seq<Batch>, ps: seq<nat>)
    requires InRange(batches, ps)
    requires forall k, l :: 0 <= k < l < |ps| ==> ps[k] != ps[l]
    ensures Sorted(batches, SortPositions(batches, ps))
  {
    if ps != [] {
      SortPositionsSorted(batches, ps[1..]);
      var rest := SortPositions(batches, ps[1..]);
      assert ps[0] !in ps[1..];
      assert ps[0] !in multiset(rest);
      InsertSorted(batches, ps[0], rest);
    }
  }

  /** The positions `0, 1, ..., n - 1`: the list as given. */
  function Positions(n: nat): (r: seq<nat>)
    ensures |r| == n && forall k :: 0 <= k < n ==> r[k] == k
  {
    seq(n, k => k)
  }

  /** `sorted(batches)`, as the positions of the batches in sorted order: a permutation of the list's positions. */
  function SortedOrder(batches: seq<Batch>): (r: seq<nat>)
    ensures InRange(batches, r)
    ensures multiset(r) == multiset(Positions(|batches|))
    ensures |r| == |batches|
  {
    assert |multiset(SortPositions(batches, Positions(|batches|)))| == |multiset(Positions(|batches|))|;
    SortPositions(batches, Positions(|batches|))
  }

  /** `sorted` returns every batch once, in the stable order. */
  lemma SortedOrderIsStableSort(batches: seq<Batch>)
    ensures Sorted(batches, SortedOrder(batches))
    ensures |SortedOrder(batches)| == |batches|
    ensures forall i :: 0 <= i < |batches| ==> i in SortedOrder(batches)
  {
    var ps := Positions(|batches|);
    SortPositionsSorted(batches, ps);
    var r := SortedOrder(batches);
    assert |r| == |multiset(r)| == |multiset(ps)| == |ps|;
    forall i | 0 <= i < |batches|
      ensures i in r
    {
      assert ps[i] == i;
      assert i in multiset(ps);
    }
  }

  /** `next(b for b in order if b.can_allocate(line))`: the index in `order` of the first batch that can take the line. */
  function FirstEligibleAt(batches: seq<Batch>, order: seq<nat>, line: OrderLine): (r: Option<nat>)
    requires InRange(batches, order)
    reads batches
    ensures r.None? <==> forall k :: 0 <= k < |order| ==> !batches[order[k]].CanAllocate(line)
    ensures r.Some? ==> r.value < |order| && batches[order[r.value]].CanAllocate(line)
    ensures r.Some? ==> forall k :: 0 <= k < r.value ==> !batches[order[k]].CanAllocate(line)
  {
    if order == [] then None
    else if batches[order[0]].CanAllocate(line) then Some(0)
    else
      match FirstEligibleAt(batches, order[1..], line)
      case None => None
      case Some(k) => Some(k + 1)
  }

  /** `get_earliest_batch`: the position of the chosen batch, or `None` where Python's `next` raises `StopIteration`. */
  function EarliestBatch(line: OrderLine, batches: seq<Batch>): (r: Option<nat>)
    reads batches
    ensures r.Some? ==> r.value < |batches| && batches[r.value].CanAllocate(line)
  {
    var order := SortedOrder(batches);
    match FirstEligibleAt(batches, order, line)
    case None => None
    case Some(k) => Some(order[k])
  }

  /** The batch that should be chosen: eligible, and before every other eligible batch in the stable order. */
  ghost predicate IsPreferred(line: OrderLine, batches: seq<Batch>, i: nat)
    reads batches
  {
    i < |batches| && batches[i].CanAllocate(line) &&
    forall j :: 0 <= j < |batches| && j != i && batches[j].CanAllocate(line) ==> Before(batches, i, j)
  }

  /** At most one batch is preferred, so the choice is deterministic. */
  lemma PreferredIsUnique(line: OrderLine, batches: seq<Batch>, i: nat, j: nat)
    requires IsPreferred(line, batches, i) && IsPreferred(line, batches, j)
    ensures i == j
  {
    if i != j {
      BeforeStrictTotal(batches, i, j, i);
    }
  }

  /**
   * `get_earliest_batch` picks the preferred batch: it fails exactly when no batch can take the
   * line, and otherwise returns the eligible batch that is least in the stable order.
   */
  lemma EarliestBatchIsPreferred(line: OrderLine, batches: seq<Batch>)
    ensures EarliestBatch(line, batches).None? <==> forall i :: 0 <= i < |batches| ==> !batches[i].CanAllocate(line)
    ensures forall i: nat :: EarliestBatch(line, batches) == Some(i) <==> IsPreferred(line, batches, i)
  {
    var order := SortedOrder(batches);
    SortedOrderIsStableSort(batches);
    var first := FirstEligibleAt(batches, order, line);
    if first.None? {
      forall i | 0 <= i < |batches|
        ensures !batches[i].CanAllocate(line)
      {
        assert i in order;
      }
    } else {
      var k := first.value;
      var c := order[k];
      forall j | 0 <= j < |batches| && j != c && batches[j].CanAllocate(line)
        ensures Before(batches, c, j)
      {
        assert j in order;
        var l :| 0 <= l < |order| && order[l] == j;
        assert l >= k;
        assert l != k;
      }
      assert IsPreferred(line, batches, c);
      forall i: nat | IsPreferred(line, batches, i)
        ensures i == c
      {
        PreferredIsUnique(line, batches, i, c);
      }
    }
  }

  /**
   * The preference rule in ETA terms: warehouse stock (no ETA) before shipments, the earliest
   * shipment first, and among batches with the same ETA the one listed first.
   */
  lemma EarliestBatchPrefersWarehouseThenEarliest(line: OrderLine, batches: seq<Batch>, i: nat, j: nat)
    requires EarliestBatch(line, batches) == Some(i)
    requires j < |batches| && j != i && batches[j].CanAllocate(line)
    ensures batches[j].eta.None? ==> batches[i].eta.None?
    ensures batches[i].eta.Some? ==> batches[j].eta.Some? && batches[i].eta.value <= batches[j].eta.value
    ensures batches[i].eta == batches[j].eta ==> i < j
  {
    EarliestBatchIsPreferred(line, batches);
    assert IsPreferred(line, batches, i);
    assert Before(batches, i, j);
  }

  /**
   * The free `allocate(line, batches)`: allocate the line to the chosen batch and return its
   * reference, or fail with `OutOfStock` and change nothing.
   */
  method Allocate(line: OrderLine, batches: seq<Batch>) returns (r: Result<string, Error>)
    requires forall b :: b in batches ==> b.Valid()
    modifies batches
    ensures forall b :: b in batches ==> b.Valid()
    ensures var choice := old(EarliestBatch(line, batches));
      match choice
      case None =>
        r == Failure(OutOfStockFor(line.sku)) &&
        forall b :: b in batches ==> b.allocations == old(b.allocations)
      case Some(i) =>
        r == Success(batches[i].reference) &&
        batches[i].allocations == AddLine(old(batches[i].allocations), line) &&
        forall b :: b in batches && b != batches[i] ==> b.allocations == old(b.allocations)
  {
    var choice := EarliestBatch(line, batches);
    match choice {
      case None =>
        r := Failure(OutOfStockFor(line.sku));
      case Some(i) =>
        batches[i].Allocate(line);
        r := Success(batches[i].reference);
    }
  }
}
