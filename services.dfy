/**
 * The service layer over a repository of batches and a database session: the earlier
 * `allocate(line, repo, session)` (`services.py`) and the later `add_batch` and
 * `allocate(orderid, sku, qty, repo, session)` (`service_layer/services.py`). Each lists the
 * batches, rejects an unknown SKU, calls the domain and commits only on success.
 */
module Services {
  import opened Wrappers
  import opened Domain
  import Allocation

  /**
   * The batch repository, in memory as the unit tests' fake keeps it: a set of batches, where
   * two batches with the same reference are the same batch (`Batch.__eq__`). `list()` is `batches`.
   */
  class Repository {
    var batches: seq<Batch>

    ghost predicate Valid()
      reads this, batches
    {
      (forall b :: b in batches ==> b.Valid()) &&
      forall i, j :: 0 <= i < j < |batches| ==> !batches[i].SameBatch(batches[j])
    }

    constructor ()
      ensures batches == [] && Valid()
    {
      batches := [];
    }

    /** `add(batch)`: the set gains the batch unless it already holds one with the same reference. */
    method Add(batch: Batch)
      requires Valid() && batch.Valid()
      modifies this
      ensures Valid()
      ensures (exists b :: b in old(batches) && b.SameBatch(batch)) ==> batches == old(batches)
      ensures (forall b :: b in old(batches) ==> !b.SameBatch(batch)) ==> batches == old(batches) + [batch]
    {
      if forall b :: b in batches ==> !b.SameBatch(batch) {
        batches := batches + [batch];
      }
    }
  }

  /** The session, as the unit tests' fake: it only records that `commit()` was called. */
  class Session {
    var committed: bool

    constructor ()
      ensures !committed
    {
      committed := false;
    }

    method Commit()
      modifies this
      ensures committed
    {
      committed := true;
    }
  }

  /** `is_valid_sku(sku, batches)`: the SKU is among the batches' SKUs. */
  function IsValidSku(sku: string, batches: seq<Batch>): (valid: bool)
    ensures valid <==> exists i :: 0 <= i < |batches| && batches[i].sku == sku
  {
    sku in (set b | b in batches :: b.sku)
  }

  /** An unknown SKU would also find no batch, so the service's check only changes which error is raised. */
  lemma UnknownSkuHasNoBatch(line: OrderLine, batches: seq<Batch>)
    requires !IsValidSku(line.sku, batches)
    ensures Allocation.EarliestBatch(line, batches).None?
  {
  }

  /**
   * `allocate(line, repo, session)`: an unknown SKU raises `InvalidSku` and an exhausted one
   * `OutOfStock`, in both cases before the commit and with no batch changed; otherwise the line
   * goes to the preferred batch, the session commits and the batch's reference is returned.
   */
  method AllocateLine(line: OrderLine, repo: Repository, session: Session) returns (r: Result<string, Error>)
    requires repo.Valid()
    modifies repo.batches, session
    ensures repo.Valid()
    ensures !old(IsValidSku(line.sku, repo.batches)) ==>
      r == Failure(InvalidSkuFor(line.sku)) && session.committed == old(session.committed) &&
      forall b :: b in repo.batches ==> b.allocations == old(b.allocations)
    ensures old(IsValidSku(line.sku, repo.batches)) ==>
      match old(Allocation.EarliestBatch(line, repo.batches))
      case None =>
        r == Failure(OutOfStockFor(line.sku)) && session.committed == old(session.committed) &&
        forall b :: b in repo.batches ==> b.allocations == old(b.allocations)
      case Some(i) =>
        r == Success(repo.batches[i].reference) && session.committed &&
        repo.batches[i].allocations == AddLine(old(repo.batches[i].allocations), line) &&
        forall b :: b in repo.batches && b != repo.batches[i] ==> b.allocations == old(b.allocations)
  {
    var batches := repo.batches;
    if !IsValidSku(line.sku, batches) {
      return Failure(InvalidSkuFor(line.sku));
    }
    r := Allocation.Allocate(line, batches);
    if r.Failure? {
      return;
    }
    session.Commit();
  }

  /** `add_batch(ref, sku, qty, eta, repo, session)`: add a new batch to the repository, then commit. */
  method AddBatch(ref: string, sku: string, qty: int, eta: Option<int>, repo: Repository, session: Session)
    requires repo.Valid()
    modifies repo, session
    ensures repo.Valid() && session.committed
    ensures (exists b :: b in old(repo.batches) && b.reference == ref) ==> repo.batches == old(repo.batches)
    ensures (forall b :: b in old(repo.batches) ==> b.reference != ref) ==>
      |repo.batches| == |old(repo.batches)| + 1 && repo.batches[..|old(repo.batches)|] == old(repo.batches) &&
      fresh(repo.batches[|old(repo.batches)|]) && repo.batches[|old(repo.batches)|].HasInitialState(ref, sku, qty, eta)
  {
    var batch := new Batch(ref, sku, qty, eta);
    repo.Add(batch);
    session.Commit();
  }

  /**
   * `allocate(orderid, sku, qty, repo, session)`: build the order line from the primitive
   * inputs, then allocate it as `AllocateLine` does.
   */
  method Allocate(orderid: string, sku: string, qty: int, repo: Repository, session: Session) returns (r: Result<string, Error>)
    requires repo.Valid()
    modifies repo.batches, session
    ensures repo.Valid()
    ensures !old(IsValidSku(sku, repo.batches)) ==>
      r == Failure(InvalidSkuFor(sku)) && session.committed == old(session.committed) &&
      forall b :: b in repo.batches ==> b.allocations == old(b.allocations)
    ensures old(IsValidSku(sku, repo.batches)) ==>
      match old(Allocation.EarliestBatch(OrderLine(orderid, sku, qty), repo.batches))
      case None =>
        r == Failure(OutOfStockFor(sku)) && session.committed == old(session.committed) &&
        forall b :: b in repo.batches ==> b.allocations == old(b.allocations)
      case Some(i) =>
        r == Success(repo.batches[i].reference) && session.committed &&
        repo.batches[i].allocations == AddLine(old(repo.batches[i].allocations), OrderLine(orderid, sku, qty)) &&
        forall b :: b in repo.batches && b != repo.batches[i] ==> b.allocations == old(b.allocations)
  {
    var line := OrderLine(orderid, sku, qty);
    r := AllocateLine(line, repo, session);
  }
}
