/** The `Product` aggregate: all batches of one SKU, and the allocation entry point with its version counter. */
module Aggregate {
  import opened Wrappers
  import opened Domain
  import Allocation

  class Product {
    const sku: string
    var batches: seq<Batch>
    /** The optimistic-concurrency token: one more after every successful allocation. */
    var versionNumber: int

    ghost predicate Valid()
      reads this, batches
    {
      forall b :: b in batches ==> b.Valid()
    }

    constructor (sku: string, batches: seq<Batch>, versionNumber: int := 0)
      ensures this.sku == sku && this.batches == batches && this.versionNumber == versionNumber
    {
      this.sku := sku;
      this.batches := batches;
      this.versionNumber := versionNumber;
    }

    /**
     * Allocate `line` to the preferred batch: on success the version goes up by exactly one and
     * the batch's reference is returned; with no eligible batch (also with no batches at all)
     * the result is `OutOfStock` and neither the batches nor the version change. The list of
     * batches keeps its order either way.
     */
    method Allocate(line: OrderLine) returns (r: Result<string, Error>)
      requires Valid()
      modifies this`versionNumber, batches
      ensures Valid() && batches == old(batches)
      ensures versionNumber == old(versionNumber) + (if r.Success? then 1 else 0)
      ensures var choice := old(Allocation.EarliestBatch(line, batches));
        match choice
        case None =>
          r == Failure(OutOfStockFor(line.sku)) &&
          forall b :: b in batches ==> b.allocations == old(b.allocations)
        case Some(i) =>
          r == Success(batches[i].reference) &&
          batches[i].allocations == AddLine(old(batches[i].allocations), line) &&
          forall b :: b in batches && b != batches[i] ==> b.allocations == old(b.allocations)
    {
      r := Allocation.Allocate(line, batches);
      if r.Success? {
        versionNumber := versionNumber + 1;
      }
    }
  }
}
