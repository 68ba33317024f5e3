/**
 * The repository's own examples, replayed on the model: each method builds the objects an
 * example builds, runs the operations it runs, and its contract states the outcome the example
 * expects. Dates are day numbers.
 */
module Scenarios {
  import opened Wrappers
  import opened Domain
  import Allocation
  import opened Aggregate
  import Services
  import UowServices

  /** Allocating 2 from a batch of 20 leaves 18 available. */
  method AllocatingReducesAvailable() returns (available: int)
    ensures available == 18
  {
    var batch := new Batch("batch-001", "SMALL-TABLE", 20, Some(0));
    batch.Allocate(OrderLine("order-ref", "SMALL-TABLE", 2));
    available := batch.AvailableQuantity();
  }

  /**
   * A batch with more stock than the line asks for, or exactly enough, can take it; a batch with
   * less stock, or of another SKU, cannot.
   */
  method CanAllocateCases() returns (larger: bool, equal: bool, smaller: bool, otherSku: bool)
    ensures larger && equal && !smaller && !otherSku
  {
    var large := new Batch("batch-001", "ELEGANT-LAMP", 20, Some(0));
    larger := large.CanAllocate(OrderLine("order-123", "ELEGANT-LAMP", 2));
    var exact := new Batch("batch-001", "ELEGANT-LAMP", 2, Some(0));
    equal := exact.CanAllocate(OrderLine("order-123", "ELEGANT-LAMP", 2));
    var small := new Batch("batch-001", "ELEGANT-LAMP", 2, Some(0));
    smaller := small.CanAllocate(OrderLine("order-123", "ELEGANT-LAMP", 20));
    var chair := new Batch("batch-001", "UNCOMFORTABLE-CHAIR", 100, None);
    otherSku := chair.CanAllocate(OrderLine("order-123", "EXPENSIVE-TOASTER", 10));
  }

  /** Allocating the same line twice counts it once. */
  method AllocationIsIdempotent() returns (available: int)
    ensures available == 18
  {
    var batch := new Batch("batch-001", "ANGULAR-DESK", 20, Some(0));
    var line := OrderLine("order-123", "ANGULAR-DESK", 2);
    batch.Allocate(line);
    batch.Allocate(line);
    available := batch.AvailableQuantity();
  }

  /** Deallocating an allocated line gives its quantity back; deallocating any other line changes nothing. */
  method DeallocateCases() returns (afterRoundTrip: int, afterUnallocated: int)
    ensures afterRoundTrip == 20 && afterUnallocated == 20
  {
    var batch := new Batch("batch-001", "EXPENSIVE-FOOTSTOOL", 20, Some(0));
    var line := OrderLine("order-123", "EXPENSIVE-FOOTSTOOL", 2);
    batch.Allocate(line);
    batch.Deallocate(line);
    afterRoundTrip := batch.AvailableQuantity();
    var other := new Batch("batch-001", "DECORATIVE-TRINKET", 20, Some(0));
    other.Deallocate(OrderLine("order-123", "DECORATIVE-TRINKET", 2));
    afterUnallocated := other.AvailableQuantity();
  }

  /**
   * The data of the HTTP happy path, on the `Product` aggregate: of two shipments of the same SKU,
   * the product allocates from the one arriving first, wherever it is listed.
   */
  method ProductPrefersEarlierShipment() returns (r: Result<string, Error>, version: int)
    ensures r == Success("earlybatch") && version == 1
  {
    var later := new Batch("laterbatch", "SKU", 100, Some(2));
    var early := new Batch("earlybatch", "SKU", 100, Some(1));
    var product := new Product("SKU", [later, early]);
    var line := OrderLine("order-1", "SKU", 3);
    Allocation.EarliestBatchIsPreferred(line, product.batches);
    assert Allocation.IsPreferred(line, product.batches, 1);
    r := product.Allocate(line);
    version := product.versionNumber;
  }

  /** The earlier service: a known SKU returns the batch reference and commits. */
  method LineServiceReturnsAllocation() returns (result: Result<string, Error>, committed: bool)
    ensures result == Success("b1") && committed
  {
    var repo := new Services.Repository();
    var batch := new Batch("b1", "COMPLICATED-LAMP", 100, None);
    repo.Add(batch);
    var session := new Services.Session();
    var line := OrderLine("o1", "COMPLICATED-LAMP", 10);
    Allocation.EarliestBatchIsPreferred(line, repo.batches);
    assert Allocation.IsPreferred(line, repo.batches, 0);
    assert Services.IsValidSku(line.sku, repo.batches) by {
      assert repo.batches[0].sku == line.sku;
    }
    result := Services.AllocateLine(line, repo, session);
    committed := session.committed;
  }

  /** The earlier service: an unknown SKU is `InvalidSku` and nothing is committed. */
  method LineServiceRejectsUnknownSku() returns (result: Result<string, Error>, committed: bool)
    ensures result == Failure(InvalidSku("Invalid sku NONEXISTENTSKU")) && !committed
  {
    var repo := new Services.Repository();
    var batch := new Batch("b1", "AREALSKU", 100, None);
    repo.Add(batch);
    var session := new Services.Session();
    assert repo.batches == [batch];
    assert !Services.IsValidSku("NONEXISTENTSKU", repo.batches);
    assert InvalidSkuFor("NONEXISTENTSKU") == InvalidSku("Invalid sku NONEXISTENTSKU");
    result := Services.AllocateLine(OrderLine("o1", "NONEXISTENTSKU", 10), repo, session);
    committed := session.committed;
  }

  /** The stock of the HTTP happy path, added one batch at a time to an empty batch repository. */
  method StockApiRepository() returns (repo: Services.Repository)
    ensures fresh(repo) && repo.Valid() && |repo.batches| == 3
    ensures fresh(repo.batches[0]) && repo.batches[0].HasInitialState("laterbatch", "SKU", 100, Some(2))
    ensures fresh(repo.batches[1]) && repo.batches[1].HasInitialState("earlybatch", "SKU", 100, Some(1))
    ensures fresh(repo.batches[2]) && repo.batches[2].HasInitialState("otherbatch", "OTHERSKU", 100, None)
  {
    repo := new Services.Repository();
    var later := new Batch("laterbatch", "SKU", 100, Some(2));
    var early := new Batch("earlybatch", "SKU", 100, Some(1));
    var other := new Batch("otherbatch", "OTHERSKU", 100, None);
    repo.Add(later);
    repo.Add(early);
    repo.Add(other);
  }

  /** In the stock of the HTTP happy path, the line's SKU is known and the earlier shipment is chosen. */
  lemma ApiStockPrefersEarlyBatch(line: OrderLine, batches: seq<Batch>)
    requires line == OrderLine("order-1", "SKU", 3) && |batches| == 3
    requires batches[0].HasInitialState("laterbatch", "SKU", 100, Some(2))
    requires batches[1].HasInitialState("earlybatch", "SKU", 100, Some(1))
    requires batches[2].HasInitialState("otherbatch", "OTHERSKU", 100, None)
    ensures Services.IsValidSku(line.sku, batches)
    ensures Allocation.EarliestBatch(line, batches) == Some(1)
  {
    Allocation.EarliestBatchIsPreferred(line, batches);
    assert !batches[2].CanAllocate(line);
    assert Allocation.IsPreferred(line, batches, 1);
    assert batches[0].sku == line.sku;
  }

  /**
   * The HTTP happy path as the endpoint runs it, through the earlier service over one repository:
   * a later and an earlier shipment of one SKU and a batch of another SKU; allocating 3 of the
   * first SKU returns the earlier shipment and commits.
   */
  method ApiHappyPath() returns (result: Result<string, Error>, committed: bool)
    ensures result == Success("earlybatch") && committed
  {
    var repo := StockApiRepository();
    var session := new Services.Session();
    var line := OrderLine("order-1", "SKU", 3);
    ApiStockPrefersEarlyBatch(line, repo.batches);
    result := Services.AllocateLine(line, repo, session);
    committed := session.committed;
  }

  /** The later service: after `add_batch`, `allocate` returns that batch and commits. */
  method PrimitiveServiceReturnsAllocation() returns (result: Result<string, Error>, committed: bool)
    ensures result == Success("batch1") && committed
  {
    var repo := new Services.Repository();
    var session := new Services.Session();
    Services.AddBatch("batch1", "COMPLICATED-LAMP", 100, None, repo, session);
    var line := OrderLine("o1", "COMPLICATED-LAMP", 10);
    Allocation.EarliestBatchIsPreferred(line, repo.batches);
    assert Allocation.IsPreferred(line, repo.batches, 0);
    assert Services.IsValidSku(line.sku, repo.batches) by {
      assert repo.batches[0].sku == line.sku;
    }
    var next := new Services.Session();
    result := Services.Allocate("o1", "COMPLICATED-LAMP", 10, repo, next);
    committed := next.committed;
  }

  /** The later service: an unknown SKU is `InvalidSku` and the fresh session is not committed. */
  method PrimitiveServiceRejectsUnknownSku() returns (result: Result<string, Error>, committed: bool)
    ensures result == Failure(InvalidSku("Invalid sku NONEXISTENTSKU")) && !committed
  {
    var repo := new Services.Repository();
    var session := new Services.Session();
    Services.AddBatch("b1", "AREALSKU", 100, None, repo, session);
    assert |repo.batches| == 1 && repo.batches[0].sku == "AREALSKU";
    assert !Services.IsValidSku("NONEXISTENTSKU", repo.batches);
    assert InvalidSkuFor("NONEXISTENTSKU") == InvalidSku("Invalid sku NONEXISTENTSKU");
    var next := new Services.Session();
    result := Services.Allocate("o1", "NONEXISTENTSKU", 10, repo, next);
    committed := next.committed;
  }

  /**
   * The stock of the unit-of-work example: through `add_batch`, a later and an earlier shipment
   * of one SKU, listed in that order, and a batch of another SKU.
   */
  method StockTwoShipments() returns (uow: UowServices.UnitOfWork, product: Product)
    ensures fresh(uow) && fresh(product) && uow.products.Valid()
    ensures "SKU" in uow.products.products && uow.products.products["SKU"] == product
    ensures |product.batches| == 2 && product.versionNumber == 0 && product.Valid()
    ensures fresh(product.batches[0]) && product.batches[0].HasInitialState("laterbatch", "SKU", 100, Some(2))
    ensures fresh(product.batches[1]) && product.batches[1].HasInitialState("earlybatch", "SKU", 100, Some(1))
  {
    uow := new UowServices.UnitOfWork();
    UowServices.AddBatch("laterbatch", "SKU", 100, Some(2), uow);
    product := uow.products.products["SKU"];
    var later := product.batches[0];
    assert product.batches == [later] && product.versionNumber == 0;
    UowServices.AddBatch("earlybatch", "SKU", 100, Some(1), uow);
    var early := product.batches[1];
    assert product.batches == [later, early];
    UowServices.AddBatch("otherbatch", "OTHERSKU", 100, None, uow);
    assert uow.products.products["SKU"] == product;
  }

  /**
   * The data of the HTTP happy path, through the unit-of-work services: allocating 3 of the first
   * SKU chooses the earlier shipment and moves the product from version 0 to 1.
   */
  method UnitOfWorkHappyPath() returns (r: Result<string, Error>, version: int)
    ensures r == Success("earlybatch") && version == 1
  {
    var uow, product := StockTwoShipments();
    var line := OrderLine("order-1", "SKU", 3);
    Allocation.EarliestBatchIsPreferred(line, product.batches);
    assert Allocation.IsPreferred(line, product.batches, 1);
    r := UowServices.Allocate("order-1", "SKU", 3, uow);
    version := product.versionNumber;
  }
}
