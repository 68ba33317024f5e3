/**
 * The allocation domain: order lines, batches and the preference order between batches.
 * Both domain modules of the repository (the flat `model.py` and
 * `src/allocation/domain/model.py`) define `OrderLine` and `Batch` identically; they are
 * modelled once, here.
 */
module Domain {
  import opened Wrappers

  /** An order line: `qty` units of `sku` requested by order `orderid`. A value: equal exactly when all fields are. */
  datatype OrderLine = OrderLine(orderid: string, sku: string, qty: int)

  /** The two exceptions of the allocation code: `OutOfStock` (domain) and `InvalidSku` (service layer). */
  datatype Error = OutOfStock(message: string) | InvalidSku(message: string)

  /** The exception raised when no batch can take a line of `sku`. */
  function OutOfStockFor(sku: string): Error {
    OutOfStock("Out of stock for sku " + sku)
  }

  /** The exception raised by the service layer for an unknown `sku`. */
  function InvalidSkuFor(sku: string): Error {
    InvalidSku("Invalid sku " + sku)
  }

  // ---------------------------------------------------------------------------
  // Allocated lines: a Python set of order lines, kept as a duplicate-free sequence.
  // ---------------------------------------------------------------------------

  predicate NoDup(lines: seq<OrderLine>) {
    forall i, j :: 0 <= i < j < |lines| ==> lines[i] != lines[j]
  }

  /** `sum(line.qty for line in lines)`: never negative when no line asks for a negative quantity. */
  function SumQty(lines: seq<OrderLine>): (total: int)
    ensures (forall l :: l in lines ==> l.qty >= 0) ==> total >= 0
  {
    if lines == [] then 0 else lines[0].qty + SumQty(lines[1..])
  }

  /** `set.add(line)`: the line joins the set unless it is already a member. */
  function AddLine(lines: seq<OrderLine>, line: OrderLine): (r: seq<OrderLine>)
    ensures line in r
    ensures forall l :: l in r <==> l in lines || l == line
    ensures NoDup(lines) ==> NoDup(r)
  {
    if line in lines then lines else lines + [line]
  }

  /** `set.remove(line)` guarded by `line in set`: every copy of `line` is dropped, the rest keep their order. */
  function RemoveLine(lines: seq<OrderLine>, line: OrderLine): (r: seq<OrderLine>)
    ensures forall l :: l in r <==> l in lines && l != line
    ensures NoDup(lines) ==> NoDup(r)
    ensures |r| <= |lines|
  {
    if lines == [] then []
    else
      assert NoDup(lines) ==> NoDup(lines[1..]) && lines[0] !in lines[1..];
      if lines[0] == line then RemoveLine(lines[1..], line)
      else [lines[0]] + RemoveLine(lines[1..], line)
  }

  lemma {:induction false} SumQtyConcat(s: seq<OrderLine>, t: seq<OrderLine>)
    ensures SumQty(s + t) == SumQty(s) + SumQty(t)
  {
    if s == [] {
      assert s + t == t;
    } else {
      assert (s + t)[1..] == s[1..] + t;
      SumQtyConcat(s[1..], t);
    }
  }

  /** The sum of a set does not depend on the order its members are listed in. */
  lemma {:induction false} SumQtyPermutation(s: seq<OrderLine>, t: seq<OrderLine>)
    requires multiset(s) == multiset(t)
    ensures SumQty(s) == SumQty(t)
  {
    if s != [] {
      assert s[0] in multiset(t);
      var k :| 0 <= k < |t| && t[k] == s[0];
      var u := t[..k] + t[k + 1..];
      DropAt(t, k);
      assert s == [s[0]] + s[1..];
      assert multiset(s[1..]) == multiset(s) - multiset{s[0]};
      SumQtyPermutation(s[1..], u);
    }
  }

  /** Dropping position `k` takes one copy of `t[k]` out of the multiset and `t[k].qty` out of the sum. */
  lemma {:induction false} DropAt(t: seq<OrderLine>, k: nat)
    requires k < |t|
    ensures multiset(t[..k] + t[k + 1..]) == multiset(t) - multiset{t[k]}
    ensures SumQty(t) == SumQty(t[..k] + t[k + 1..]) + t[k].qty
  {
    var a, b := t[..k], t[k + 1..];
    assert t == a + [t[k]] + b;
    assert multiset(t) == multiset(a) + multiset{t[k]} + multiset(b);
    SumQtyConcat(a + [t[k]], b);
    SumQtyConcat(a, [t[k]]);
    SumQtyConcat(a, b);
    assert SumQty([t[k]]) == t[k].qty;
  }

  /** Removing a member of a duplicate-free set lowers the sum by exactly its quantity. */
  lemma {:induction false} SumQtyRemove(lines: seq<OrderLine>, line: OrderLine)
    requires NoDup(lines)
    ensures SumQty(RemoveLine(lines, line)) == if line in lines then SumQty(lines) - line.qty else SumQty(lines)
  {
    if lines != [] {
      assert NoDup(lines[1..]);
      SumQtyRemove(lines[1..], line);
      if lines[0] == line {
        assert line !in lines[1..];
      }
    }
  }

  lemma {:induction false} RemoveAbsent(lines: seq<OrderLine>, line: OrderLine)
    requires line !in lines
    ensures RemoveLine(lines, line) == lines
  {
    if lines != [] {
      RemoveAbsent(lines[1..], line);
    }
  }

  // ---------------------------------------------------------------------------
  // The quantities and the allocation rule of a batch, on its fields' values.
  // ---------------------------------------------------------------------------

  /** `available_quantity`: what was purchased minus what the allocated lines take. */
  function Available(purchased: int, lines: seq<OrderLine>): (available: int)
    ensures (forall l :: l in lines ==> l.qty >= 0) ==> available <= purchased
  {
    purchased - SumQty(lines)
  }

  /** `can_allocate`: same SKU, and at least `line.qty` units still available. */
  predicate Eligible(sku: string, purchased: int, lines: seq<OrderLine>, line: OrderLine): (ok: bool)
    ensures ok <==> sku == line.sku && SumQty(lines) + line.qty <= purchased
  {
    sku == line.sku && Available(purchased, lines) >= line.qty
  }

  /** The allocations after `Batch.allocate(line)`: the line joins exactly when the batch can take it. */
  function AllocateStep(sku: string, purchased: int, lines: seq<OrderLine>, line: OrderLine): (r: seq<OrderLine>)
    ensures forall l :: l in r <==> l in lines || (l == line && Eligible(sku, purchased, lines, line))
    ensures !Eligible(sku, purchased, lines, line) ==> r == lines
    ensures NoDup(lines) ==> NoDup(r)
  {
    if Eligible(sku, purchased, lines, line) then AddLine(lines, line) else lines
  }

  /** An exact-quantity match is allocatable; a larger line or another SKU is not. */
  lemma EligibleBoundary(sku: string, purchased: int, lines: seq<OrderLine>, line: OrderLine)
    ensures line.sku != sku ==> !Eligible(sku, purchased, lines, line)
    ensures line.sku == sku && line.qty == Available(purchased, lines) ==> Eligible(sku, purchased, lines, line)
    ensures line.qty > Available(purchased, lines) ==> !Eligible(sku, purchased, lines, line)
  {
  }

  /**
   * Allocating a new eligible line lowers the available quantity by exactly its quantity;
   * anything else leaves it as it was. Stock that was not negative stays so.
   */
  lemma AllocateStepAvailable(sku: string, purchased: int, lines: seq<OrderLine>, line: OrderLine)
    ensures var after := Available(purchased, AllocateStep(sku, purchased, lines, line));
      after == if Eligible(sku, purchased, lines, line) && line !in lines
               then Available(purchased, lines) - line.qty
               else Available(purchased, lines)
    ensures Available(purchased, lines) >= 0 ==> Available(purchased, AllocateStep(sku, purchased, lines, line)) >= 0
  {
    SumQtyConcat(lines, [line]);
  }

  /** Allocating the same line twice has the effect of allocating it once. */
  lemma AllocateStepIdempotent(sku: string, purchased: int, lines: seq<OrderLine>, line: OrderLine)
    ensures var once := AllocateStep(sku, purchased, lines, line);
      AllocateStep(sku, purchased, once, line) == once
  {
  }

  /** Deallocating a line just allocated to it restores the batch's allocations, hence its available quantity. */
  lemma {:induction false} AllocateThenDeallocate(sku: string, purchased: int, lines: seq<OrderLine>, line: OrderLine)
    requires line !in lines
    ensures RemoveLine(AllocateStep(sku, purchased, lines, line), line) == lines
    ensures Available(purchased, RemoveLine(AllocateStep(sku, purchased, lines, line), line)) == Available(purchased, lines)
  {
    RemoveAbsent(lines, line);
    if Eligible(sku, purchased, lines, line) {
      RemoveAppend(lines, line);
    }
  }

  lemma {:induction false} RemoveAppend(lines: seq<OrderLine>, line: OrderLine)
    requires line !in lines
    ensures RemoveLine(lines + [line], line) == lines
  {
    if lines == [] {
      assert [] + [line] == [line];
      assert [line][1..] == [];
    } else {
      assert (lines + [line])[1..] == lines[1..] + [line];
      RemoveAppend(lines[1..], line);
      assert lines == [lines[0]] + lines[1..];
    }
  }

  // ---------------------------------------------------------------------------
  // The preference order between batches (`Batch.__gt__`).
  // ---------------------------------------------------------------------------

  /** `__gt__` on ETAs: no ETA is never greater; an ETA is greater than no ETA; two ETAs compare as days. */
  predicate EtaGreater(x: Option<int>, y: Option<int>): (gt: bool)
    ensures x.None? ==> !gt
    ensures x.Some? && y.None? ==> gt
    ensures x.Some? && y.Some? ==> (gt <==> x.value > y.value)
  {
    if x.None? then false else if y.None? then true else x.value > y.value
  }

  /** The sort key `(eta is not None, eta)`: warehouse stock ranks before shipments, earlier shipments first. */
  function EtaRank(eta: Option<int>): (int, int) {
    match eta
    case None => (0, 0)
    case Some(d) => (1, d)
  }

  predicate RankLess(a: (int, int), b: (int, int)) {
    a.0 < b.0 || (a.0 == b.0 && a.1 < b.1)
  }

  /** `__gt__` is exactly the lexicographic order on the key, read backwards. */
  lemma EtaGreaterIsRankOrder(x: Option<int>, y: Option<int>)
    ensures EtaGreater(x, y) <==> RankLess(EtaRank(y), EtaRank(x))
    ensures EtaRank(x) == EtaRank(y) <==> x == y
  {
  }

  /** `__gt__` is a strict total order on ETAs: irreflexive, transitive, and total on distinct ETAs. */
  lemma EtaGreaterStrictTotal(x: Option<int>, y: Option<int>, z: Option<int>)
    ensures !EtaGreater(x, x)
    ensures EtaGreater(x, y) && EtaGreater(y, z) ==> EtaGreater(x, z)
    ensures x != y ==> EtaGreater(x, y) || EtaGreater(y, x)
    ensures EtaGreater(x, y) ==> !EtaGreater(y, x)
  {
  }

  // ---------------------------------------------------------------------------
  // Batch
  // ---------------------------------------------------------------------------

  /** Batch identity by reference is an equivalence: reflexive, symmetric and transitive. */
  lemma SameBatchIsEquivalence(a: Batch, b: Batch, c: Batch)
    ensures a.SameBatch(a)
    ensures a.SameBatch(b) ==> b.SameBatch(a)
    ensures a.SameBatch(b) && b.SameBatch(c) ==> a.SameBatch(c)
  {
  }

  /** A batch of stock; its identity is `reference`; only its allocations change. */
  class Batch {
    const reference: string
    const sku: string
    const eta: Option<int>
    const purchasedQuantity: int
    var allocations: seq<OrderLine>

    /** The allocations form a set. */
    ghost predicate Valid()
      reads this
    {
      NoDup(allocations)
    }

    constructor (ref: string, sku: string, qty: int, eta: Option<int>)
      ensures HasInitialState(ref, sku, qty, eta) && Valid()
      ensures AvailableQuantity() == qty
    {
      reference := ref;
      this.sku := sku;
      this.eta := eta;
      purchasedQuantity := qty;
      allocations := [];
    }

    /** The state of `Batch(ref, sku, qty, eta)` just after construction. */
    ghost predicate HasInitialState(ref: string, sku: string, qty: int, eta: Option<int>)
      reads this
    {
      reference == ref && this.sku == sku && purchasedQuantity == qty && this.eta == eta && allocations == []
    }

    /** `allocated_quantity`: the total of the allocated lines, never negative for lines of non-negative quantity. */
    function AllocatedQuantity(): (total: int)
      reads this
      ensures (forall l :: l in allocations ==> l.qty >= 0) ==> total >= 0
    {
      SumQty(allocations)
    }

    /** `available_quantity`: the purchased quantity less the allocated quantity. */
    function AvailableQuantity(): (available: int)
      reads this
      ensures available == purchasedQuantity - AllocatedQuantity()
    {
      Available(purchasedQuantity, allocations)
    }

    /** `can_allocate`: the line is of this batch's SKU and no larger than what is available. */
    predicate CanAllocate(line: OrderLine): (ok: bool)
      reads this
      ensures ok <==> sku == line.sku && AvailableQuantity() >= line.qty
    {
      Eligible(sku, purchasedQuantity, allocations, line)
    }

    /** `__eq__` (and `__hash__`): batches are the same batch when their references agree. */
    predicate SameBatch(other: Batch) {
      reference == other.reference
    }

    /** `__gt__`: the batch's sort key `(eta is not None, eta)` is greater than the other's. */
    predicate Gt(other: Batch): (gt: bool)
      ensures gt <==> RankLess(EtaRank(other.eta), EtaRank(eta))
    {
      EtaGreaterIsRankOrder(eta, other.eta);
      EtaGreater(eta, other.eta)
    }

    method Allocate(line: OrderLine)
      requires Valid()
      modifies this
      ensures Valid()
      ensures allocations == AllocateStep(sku, purchasedQuantity, old(allocations), line)
      ensures old(CanAllocate(line)) ==> line in allocations
      ensures AvailableQuantity() == if old(CanAllocate(line)) && line !in old(allocations)
                                     then old(AvailableQuantity()) - line.qty
                                     else old(AvailableQuantity())
      ensures old(AvailableQuantity()) >= 0 ==> AvailableQuantity() >= 0
    {
      AllocateStepAvailable(sku, purchasedQuantity, allocations, line);
      if CanAllocate(line) {
        allocations := AddLine(allocations, line);
      }
    }

    method Deallocate(line: OrderLine)
      requires Valid()
      modifies this
      ensures Valid()
      ensures allocations == RemoveLine(old(allocations), line)
      ensures line !in allocations
      ensures line !in old(allocations) ==> allocations == old(allocations)
      ensures AvailableQuantity() == if line in old(allocations)
                                     then old(AvailableQuantity()) + line.qty
                                     else old(AvailableQuantity())
    {
      SumQtyRemove(allocations, line);
      if line !in allocations {
        RemoveAbsent(allocations, line);
      }
      if line in allocations {
        allocations := RemoveLine(allocations, line);
      }
    }
  }
}
