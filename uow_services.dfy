/**
 * The service layer over a unit of work (`src/allocation/service_layer/services.py`): each use
 * case runs inside `with uow:`, reaches products through `uow.products`, and commits only on
 * success. Leaving the `with` block always calls `rollback()`; after a commit that discards
 * nothing, and on an error it is what keeps the change from being persisted.
 */
module UowServices {
  import opened Wrappers
  import opened Domain
  import Allocation
  import opened Aggregate

  /** The products repository of a unit of work, in memory: each product under its own SKU. */
  class ProductRepository {
    var products: map<string, Product>

    ghost predicate Valid()
      reads this
    {
      forall s :: s in products ==> products[s].sku == s
    }

    constructor ()
      ensures products == map[] && Valid()
    {
      products := map[];
    }

    /** `get(sku=sku)`: the product of that SKU, or `None`. */
    method Get(sku: string) returns (p: Option<Product>)
      requires Valid()
      ensures p.None? <==> sku !in products
      ensures p.Some? ==> p.value.sku == sku && p.value == products[sku]
    {
      if sku in products {
        p := Some(products[sku]);
      } else {
        p := None;
      }
    }

    /** `add(product)`: register the product under its SKU. */
    method Add(product: Product)
      requires Valid()
      modifies this
      ensures Valid()
      ensures products == old(products)[product.sku := product]
    {
      products := products[product.sku := product];
    }
  }

  /** The fake unit of work: a products repository and the record of `commit()` and `rollback()` calls. */
  class UnitOfWork {
    const products: ProductRepository
    var committed: bool
    var rolledBack: bool

    constructor ()
      ensures fresh(products) && products.products == map[] && products.Valid()
      ensures !committed && !rolledBack
    {
      products := new ProductRepository();
      committed := false;
      rolledBack := false;
    }

    method Commit()
      modifies this`committed
      ensures committed
    {
      committed := true;
    }

    /** Called by `__exit__` on every way out of the `with` block. */
    method Rollback()
      modifies this`rolledBack
      ensures rolledBack
    {
      rolledBack := true;
    }
  }

  /**
   * `add_batch(ref, sku, qty, eta, uow)`: append a new batch to the product of `sku`, first
   * creating and registering an empty product when there is none; then commit.
   */
  method AddBatch(ref: string, sku: string, qty: int, eta: Option<int>, uow: UnitOfWork)
    requires uow.products.Valid()
    modifies uow, uow.products, if sku in uow.products.products then {uow.products.products[sku]} else {}
    ensures uow.products.Valid()
    ensures uow.committed && uow.rolledBack
    ensures sku in uow.products.products
    ensures sku in old(uow.products.products) ==> uow.products.products == old(uow.products.products)
    ensures sku !in old(uow.products.products) ==>
      uow.products.products.Keys == old(uow.products.products).Keys + {sku} &&
      (forall s :: s in old(uow.products.products) ==> uow.products.products[s] == old(uow.products.products)[s]) &&
      fresh(uow.products.products[sku]) && uow.products.products[sku].versionNumber == 0 &&
      old(uow.products.products) == uow.products.products - {sku}
    ensures var p := uow.products.products[sku];
      var before := if sku in old(uow.products.products) then old(p.batches) else [];
      |p.batches| == |before| + 1 && p.batches[..|before|] == before &&
      fresh(p.batches[|before|]) && p.batches[|before|].HasInitialState(ref, sku, qty, eta) &&
      (sku in old(uow.products.products) ==> p.versionNumber == old(p.versionNumber))
  {
    var found := uow.products.Get(sku);
    var product: Product;
    if found.None? {
      product := new Product(sku, []);
      uow.products.Add(product);
    } else {
      product := found.value;
    }
    var batch := new Batch(ref, sku, qty, eta);
    product.batches := product.batches + [batch];
    uow.Commit();
    uow.Rollback();
  }

  /**
   * `allocate(orderid, sku, qty, uow)`: an unknown SKU raises `InvalidSku` and an exhausted one
   * `OutOfStock`, in both cases without committing and with the product unchanged; otherwise
   * the product allocates the line, the unit of work commits and the chosen batch's reference
   * is returned. The block is left through `rollback()` every time.
   */
  method Allocate(orderid: string, sku: string, qty: int, uow: UnitOfWork) returns (r: Result<string, Error>)
    requires uow.products.Valid()
    requires sku in uow.products.products ==> uow.products.products[sku].Valid()
    modifies uow`committed, uow`rolledBack
    modifies if sku in uow.products.products then {uow.products.products[sku]} else {}
    modifies if sku in uow.products.products then uow.products.products[sku].batches else []
    ensures uow.products.products == old(uow.products.products) && uow.rolledBack
    ensures sku !in uow.products.products ==>
      r == Failure(InvalidSkuFor(sku)) && uow.committed == old(uow.committed)
    ensures sku in uow.products.products ==>
      var p := uow.products.products[sku];
      p.Valid() && p.batches == old(p.batches) &&
      match old(Allocation.EarliestBatch(OrderLine(orderid, sku, qty), p.batches))
      case None =>
        r == Failure(OutOfStockFor(sku)) && uow.committed == old(uow.committed) &&
        p.versionNumber == old(p.versionNumber) &&
        forall b :: b in p.batches ==> b.allocations == old(b.allocations)
      case Some(i) =>
        r == Success(p.batches[i].reference) && uow.committed &&
        p.versionNumber == old(p.versionNumber) + 1 &&
        p.batches[i].allocations == AddLine(old(p.batches[i].allocations), OrderLine(orderid, sku, qty)) &&
        forall b :: b in p.batches && b != p.batches[i] ==> b.allocations == old(b.allocations)
  {
    var line := OrderLine(orderid, sku, qty);
    var found := uow.products.Get(line.sku);
    if found.None? {
      uow.Rollback();
      return Failure(InvalidSkuFor(line.sku));
    }
    r := AllocateAndCommit(line, found.value, uow);
  }

  /** The `with` block of `allocate` once the product is found: allocate, commit on success, roll back on exit. */
  method AllocateAndCommit(line: OrderLine, product: Product, uow: UnitOfWork) returns (r: Result<string, Error>)
    requires product.Valid()
    modifies uow`committed, uow`rolledBack, product`versionNumber, product.batches
    ensures product.Valid() && product.batches == old(product.batches) && uow.rolledBack
    ensures uow.committed == (old(uow.committed) || r.Success?)
    ensures product.versionNumber == old(product.versionNumber) + (if r.Success? then 1 else 0)
    ensures match old(Allocation.EarliestBatch(line, product.batches))
      case None =>
        r == Failure(OutOfStockFor(line.sku)) &&
        forall b :: b in product.batches ==> b.allocations == old(b.allocations)
      case Some(i) =>
        r == Success(product.batches[i].reference) &&
        product.batches[i].allocations == AddLine(old(product.batches[i].allocations), line) &&
        forall b :: b in product.batches && b != product.batches[i] ==> b.allocations == old(b.allocations)
  {
    r := product.Allocate(line);
    if r.Success? {
      uow.Commit();
    }
    uow.Rollback();
  }
}
