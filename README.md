# Batch allocation and directory sync, in Dafny

This project models the core of a small Python code base built around stock allocation, with
Dafny proofs about it.

- **The allocation domain.** An order line asks for a quantity of one SKU. A batch holds
  purchased stock of one SKU, with an optional ETA, and keeps the set of lines allocated to it.
  Its available quantity is what was purchased minus what those lines take. A line is
  allocated to the preferred batch: warehouse stock (no ETA) before shipments, earlier
  shipments first, list order on ties. The `Product` aggregate groups the batches of one SKU
  and counts successful allocations in a version number.
- **The service layers.** There are three generations of them:
  - `allocate(line, repo, session)` over a repository of batches;
  - `add_batch` and `allocate(orderid, sku, qty, …)` over a repository and a session;
  - `add_batch` and `allocate` over a unit of work holding a repository of products.

  Each one rejects an unknown SKU with `InvalidSku`, lets `OutOfStock` through, and commits
  only on success.
- **The sync planner.** `determine_actions` compares two dictionaries from content hash to
  file name and plans copies, renames and deletions.

Modules:

- `Wrappers`: `Option` and `Result`.
- `Domain`: `OrderLine`, the errors, the arithmetic of allocated lines, the ETA order and the
  `Batch` class.
- `Allocation`: `sorted` plus `next`, that is `get_earliest_batch`, and the free `allocate`.
- `Aggregate`: the `Product` class.
- `Services`: `services.py` and `service_layer/services.py`.
- `UowServices`: `src/allocation/service_layer/services.py` with its unit of work.
- `Sync`: `determine_actions`.
- `Scenarios`: the repository's own examples, replayed on the model.

Modelling choices:

- **A batch's allocations.** They are a Python `set`. The model keeps them as a duplicate-free
  sequence, and `SumQtyPermutation` shows that their total does not depend on the order.
- **ETAs.** An ETA is `Option<int>`, a day number.
- **Both domain files.** `model.py` and `src/allocation/domain/model.py` define `OrderLine` and
  `Batch` with the same code, so the model defines them once.
- **The sort.** `Batch` defines only `__gt__`, so `sorted` tests `a < b` as `b.__gt__(a)`, and
  the sort is stable. `Allocation.SortedOrder` sorts list positions under exactly that order.
  `Allocation.EarliestBatchIsPreferred` proves that the first eligible position in it is the
  eligible batch that comes first in the preference order.
- **Exceptions.** They become `Failure` results: `OutOfStock("Out of stock for sku X")` and
  `InvalidSku("Invalid sku X")`.
- **`service_layer/services.py`.** It imports a `domain.model` that is not part of this model.
  Its `model.allocate` is taken to be the free `allocate` of `model.py`.
- **The unit of work's repository.** The services read it as `uow.products`
  (`src/allocation/service_layer/services.py:20,38`). `unit_of_work.py` declares and assigns
  it as `batches` (`src/allocation/service_layer/unit_of_work.py:18,55`). The model follows the
  services and names the field `products`.
- **Leaving the `with` block.** `__exit__` always calls `rollback()`. The model records this in
  a `rolledBack` flag next to `committed`.

## Model

| member | source | states |
|---|---|---|
| Domain.SumQty | src/allocation/domain/model.py:75-77 | the total quantity of a list of lines is never negative when no line's quantity is |
| Domain.Available | src/allocation/domain/model.py:79-81 | with non-negative line quantities, the available quantity never exceeds what was purchased |
| Domain.Eligible | src/allocation/domain/model.py:83-84 | a line can be allocated exactly when its SKU matches and it fits in what is left after the allocated lines |
| Domain.AllocateStep | src/allocation/domain/model.py:67-69 | after `allocate`, a line is in the set exactly when it was before or it is the new line and `can_allocate` held; an ineligible line changes nothing; the set stays duplicate-free |
| Domain.EtaGreater | src/allocation/domain/model.py:60-65 | `__gt__` on ETAs: a batch with no ETA is never greater, a dated batch is greater than an undated one, and two dated batches compare by date |
| Domain.SameBatchIsEquivalence | src/allocation/domain/model.py:52-55 | batch equality by reference is reflexive, symmetric and transitive |
| Domain.AddLine | src/allocation/domain/model.py:69 | adding a line to the allocation set: the line is then a member, no other line joins, and the set stays duplicate-free |
| Domain.RemoveLine | src/allocation/domain/model.py:71-73 | removing a line from the set: exactly that line leaves, the set stays duplicate-free and does not grow |
| Domain.RemoveAbsent | src/allocation/domain/model.py:72 | removing a line that is not allocated leaves the allocations as they were |
| Domain.SumQtyPermutation | src/allocation/domain/model.py:75-77 | `allocated_quantity` is a sum over a set: any two listings of the same lines give the same total |
| Domain.SumQtyRemove | src/allocation/domain/model.py:71-77 | removing an allocated line lowers `allocated_quantity` by exactly its quantity; removing another line changes nothing |
| Domain.EligibleBoundary | src/allocation/domain/model.py:83-84 | `can_allocate`: a line of another SKU is refused, a line asking for exactly the available quantity is accepted, and a larger one is refused |
| Domain.AllocateStepAvailable | src/allocation/domain/model.py:67-69 | allocating a new eligible line lowers `available_quantity` by exactly its quantity, anything else leaves it unchanged, and a non-negative available quantity stays non-negative |
| Domain.AllocateStepIdempotent | model.py:99-101 | allocating the same line a second time changes nothing |
| Domain.AllocateThenDeallocate | src/allocation/domain/model.py:67-73 | deallocating a line just allocated restores the allocations and so the available quantity |
| Domain.EtaGreaterIsRankOrder | src/allocation/domain/model.py:60-65 | `__gt__` is the lexicographic order on the key `(eta is not None, eta)`, read backwards, and equal keys mean equal ETAs |
| Domain.EtaGreaterStrictTotal | model.py:88-96 | `__gt__` on ETAs is irreflexive, asymmetric, transitive and total on distinct ETAs |
| Domain.Batch.constructor | src/allocation/domain/model.py:42-47 | a new batch has the given reference, SKU, quantity and ETA, no allocations, and all of its stock available |
| Domain.Batch.AllocatedQuantity | src/allocation/domain/model.py:75-77 | `allocated_quantity` is never negative when no allocated line's quantity is |
| Domain.Batch.AvailableQuantity | src/allocation/domain/model.py:79-81 | `available_quantity` is the purchased quantity minus `allocated_quantity` |
| Domain.Batch.CanAllocate | src/allocation/domain/model.py:83-84 | `can_allocate` holds exactly when the SKUs match and the available quantity covers the line |
| Domain.Batch.Gt | src/allocation/domain/model.py:60-65 | `__gt__` holds exactly when the other batch's ETA key comes strictly before this batch's in the key order `(eta is not None, eta)` |
| Domain.Batch.Allocate | src/allocation/domain/model.py:67-69 | the line is added exactly when `can_allocate` held, the set stays duplicate-free, and `available_quantity` drops by the line's quantity only for a new eligible line and never goes negative from non-negative |
| Domain.Batch.Deallocate | src/allocation/domain/model.py:71-73 | the line is gone afterwards, nothing changes when it was not allocated, and `available_quantity` rises by its quantity when it was |
| Allocation.BeforeStrictTotal | model.py:31 | the order that the stable `sorted` produces on list positions is a strict total order |
| Allocation.SortedOrder | model.py:31 | `sorted(batches)` as list positions: a permutation of the positions of the list, each one in range |
| Allocation.SortedOrderIsStableSort | model.py:31 | `sorted(batches)` lists every batch exactly once, in the stable preference order |
| Allocation.FirstEligibleAt | model.py:31 | `next(...)` over the sorted batches finds none exactly when no batch can take the line, and otherwise finds an eligible batch with no eligible batch before it |
| Allocation.EarliestBatch | model.py:30-31 | `get_earliest_batch` returns, when it returns at all, a batch that can take the line |
| Allocation.PreferredIsUnique | model.py:30-31 | at most one batch is the preferred eligible batch, so the choice is deterministic |
| Allocation.EarliestBatchIsPreferred | model.py:30-31 | `get_earliest_batch` fails exactly when no batch can take the line; otherwise it returns exactly the eligible batch that precedes every other eligible batch in the stable order |
| Allocation.EarliestBatchPrefersWarehouseThenEarliest | model.py:88-96 | against any other eligible batch, the chosen one is warehouse stock if the other is, has an ETA no later than the other's, and is listed first when the ETAs are equal |
| Allocation.Allocate | model.py:37-43 | the free `allocate`: with no eligible batch it fails with `OutOfStock` for the line's SKU and changes no batch; otherwise it adds the line to the chosen batch only, returns that batch's reference, and every batch keeps a duplicate-free set |
| Aggregate.Product.constructor | src/allocation/domain/model.py:13-22 | a product holds its SKU, the given batches and the given version number, 0 by default |
| Aggregate.Product.Allocate | src/allocation/domain/model.py:24-31 | `Product.allocate`: it chooses as `get_earliest_batch` does and raises `OutOfStock` with no change when no batch qualifies, including with no batches at all; on success only the chosen batch gains the line and the version rises by exactly one; the list of batches keeps its order |
| Services.Repository.constructor | test_services.py:10-11 | an empty in-memory repository |
| Services.Repository.Add | test_services.py:13-14 | `add(batch)` on a set of batches that are equal by reference: a batch whose reference is already present changes nothing, a new one is appended |
| Services.Session.constructor | tests/unit/test_services.py:20-21 | a fresh session has not committed |
| Services.Session.Commit | tests/unit/test_services.py:23-24 | after `commit()` the session has committed |
| Services.IsValidSku | services.py:17-18 | `is_valid_sku` holds exactly when some batch has that SKU |
| Services.UnknownSkuHasNoBatch | service_layer/services.py:14-15 | an unknown SKU also leaves no batch able to take the line, so the SKU check only decides which error is raised |
| Services.AllocateLine | services.py:21-32 | an unknown SKU gives `InvalidSku` with nothing committed or changed; an exhausted SKU gives `OutOfStock` with nothing committed or changed; otherwise the chosen batch gains the line, the session commits and the reference is returned |
| Services.AddBatch | service_layer/services.py:18-23 | adds exactly one new `Batch(ref, sku, qty, eta)` to the repository, unless one with that reference is already there, and commits |
| Services.Allocate | service_layer/services.py:28-35 | builds `OrderLine(orderid, sku, qty)` and gives the same outcomes as `AllocateLine` for that line |
| UowServices.ProductRepository.constructor | src/allocation/adapters/repository.py:5-13 | an empty product repository |
| UowServices.ProductRepository.Get | src/allocation/adapters/repository.py:23-24 | `get(sku)` returns nothing exactly when no product has that SKU, and otherwise the product of that SKU |
| UowServices.ProductRepository.Add | src/allocation/adapters/repository.py:20-21 | `add(product)` registers the product under its own SKU and changes nothing else |
| UowServices.UnitOfWork.constructor | src/allocation/service_layer/unit_of_work.py:17-22 | a unit of work starts with an empty repository, not committed and not rolled back |
| UowServices.UnitOfWork.Commit | src/allocation/service_layer/unit_of_work.py:64-65 | after `commit()` the work is committed |
| UowServices.UnitOfWork.Rollback | src/allocation/service_layer/unit_of_work.py:25-26 | leaving the `with` block rolls back |
| UowServices.AddBatch | src/allocation/service_layer/services.py:14-27 | for a known SKU, no new product is registered and exactly one new batch is appended to the product, leaving its version as it was; for a new SKU, a new product at version 0 is registered with exactly that batch and the other products are untouched; the work is committed and then rolled back on exit |
| UowServices.Allocate | src/allocation/service_layer/services.py:30-44 | an unknown SKU gives `InvalidSku` with no commit; when `Product.allocate` finds no batch, the result is `OutOfStock` with no commit and no change; otherwise the chosen batch gains the line, the version rises by one, the work commits and the reference is returned; the repository is unchanged and exit always rolls back |
| UowServices.AllocateAndCommit | src/allocation/service_layer/services.py:42-44 | inside the `with` block once the product is found: the product allocates as `Product.allocate` does, the work commits exactly when that succeeds, and exit rolls back |
| Sync.Lookup | sync.py:75-83 | `dest_hashes[sha]`: absent exactly when no entry has that hash, and otherwise the name stored under it |
| Sync.SourceAction | sync.py:73-85 | a source file gets an action exactly when the destination does not hold the same content under the same name; a hash missing from the destination gives a copy from the source folder to the destination folder under the source name, a hash stored under another name gives a rename from that name to the source name, and the action is never a deletion |
| Sync.SourcePhaseFollowsSource | sync.py:73-85 | the first loop plans exactly the action of each source entry that needs one, one per entry, in dictionary order |
| Sync.DeletePhaseFollowsDest | sync.py:88-90 | the second loop plans one deletion of the destination file for each destination hash the source lacks, in dictionary order |
| Sync.SourcePhase | sync.py:73-85 | the first loop plans only copies and renames, at most one per source entry |
| Sync.DeletePhase | sync.py:88-90 | the second loop plans only deletions, at most one per destination entry |
| Sync.DetermineActions | sync.py:69-90 | the plan puts every deletion after every copy and rename, and has at most one action per entry of either dictionary |
| Sync.SourcePhaseMembership | sync.py:73-85 | the first loop plans an action exactly when some source entry calls for it |
| Sync.DeletePhaseMembership | sync.py:88-90 | the second loop plans a deletion exactly for the file of each destination entry whose hash the source lacks |
| Sync.DetermineActionsPlan | sync.py:69-90 | every copy and rename comes before every deletion, and the plan has one action per source entry needing one plus one per destination entry the source lacks |
| Sync.PlanMembership | sync.py:69-90 | an action is planned exactly when a source entry calls for it or it deletes a destination file whose hash the source lacks |
| Sync.CopyPlanned | sync.py:75-79 | a copy is planned exactly when some source hash is missing from the destination, and it copies that source file to the same name in the destination folder |
| Sync.MovePlanned | sync.py:82-85 | a rename is planned exactly when some source hash is stored in the destination under another name, and it renames that destination file to the source name |
| Sync.OneActionPerHash | sync.py:73-90 | with dictionaries as inputs, no hash causes two actions in either loop |
| Sync.UnchangedFileIsLeftAlone | sync.py:75-85 | a file with the same content and name on both sides gets no action |
| Sync.NewFileIsCopied | test_sync.py:65-69 | a file only in the source is copied across under its own name |
| Sync.RenamedFileIsMoved | test_sync.py:72-76 | a file renamed in the source is renamed in the destination |
| Scenarios.AllocatingReducesAvailable | test_batches.py:6-12 | allocating 2 from a batch of 20 leaves 18 available |
| Scenarios.CanAllocateCases | test_batches.py:22-41 | a larger stock and an equal stock can take a line; a smaller stock or another SKU cannot |
| Scenarios.AllocationIsIdempotent | test_batches.py:46-50 | allocating the same line twice leaves 18 of 20 available |
| Scenarios.DeallocateCases | test_batches.py:53-64 | allocating then deallocating restores 20, and deallocating an unallocated line keeps 20 |
| Scenarios.ProductPrefersEarlierShipment | test_api.py:27-49 | with the HTTP test's later and earlier shipments given directly to a `Product`, the product allocates from the earlier one and moves to version 1 |
| Scenarios.LineServiceReturnsAllocation | test_services.py:30-36 | the earlier service returns `"b1"` and commits |
| Scenarios.LineServiceRejectsUnknownSku | test_services.py:39-45 | the earlier service rejects `NONEXISTENTSKU` with `"Invalid sku NONEXISTENTSKU"` and does not commit |
| Scenarios.PrimitiveServiceReturnsAllocation | tests/unit/test_services.py:42-46 | after `add_batch`, the later service returns `"batch1"` and commits |
| Scenarios.PrimitiveServiceRejectsUnknownSku | tests/unit/test_services.py:49-54 | the later service rejects `NONEXISTENTSKU` with `"Invalid sku NONEXISTENTSKU"` and does not commit |
| Scenarios.ApiHappyPath | flask_app.py:19-34 | the endpoint's path for the HTTP happy path: with the test's later shipment, earlier shipment and other SKU in one batch repository, the earlier service returns `"earlybatch"` for a line of 3 and commits, which the endpoint answers with 201 |
| Scenarios.UnitOfWorkHappyPath | test_api.py:27-49 | with the HTTP test's data run through the unit of work instead of the endpoint's service, stocking a later shipment, an earlier one and another SKU and then allocating 3 returns the earlier shipment and moves the product to version 1 |

## Left out

- `hash_file`, `read_paths_and_hashes` and `sync` in `sync.py` are not modelled. They are file
  system walking, SHA-1 hashing and `shutil`/`os` effects. The two hash dictionaries are inputs
  to the planner, and the planned actions are its result.
- `Sync.DeletePhase` builds the deleted path from the destination folder and the file name, as
  the other actions do. The source writes `dest_folder / filename` without wrapping the folder
  in `Path(...)`, so it relies on the caller passing a `Path`. Paths are values in the model,
  so it does not capture that difference.
- The SQLAlchemy repositories and mappings are not modelled (`repository.py`,
  `src/allocation/adapters/repository.py`, `orm.py`, `conftest.py`). Repositories are
  in-memory, as in the unit tests' fakes.
- `Services.Repository` keeps batches in insertion order. The fake's `list()` returns a Python
  set in hash order, which only decides ties between equally preferred batches.
- The fake repository's constructor, which takes initial batches, is not a member. The
  scenarios add those batches one at a time.
- Real transactions are not modelled. A commit and a rollback are flags, and the model does
  not undo changes on rollback.
- Optimistic concurrency is not modelled beyond the version increment. The repeatable-read
  serialisation failures in `tests/integration/test_uow.py` depend on threads and PostgreSQL.
- The message bus and domain events (`messagebus.py`, `events.py`) are not modelled. No code
  path shown ever raises an event, and `Product.allocate` does not record one.
- The HTTP layer of the Flask endpoint (`flask_app.py`) is not modelled: reading the JSON body,
  the status codes and the error message body. `Scenarios.ApiHappyPath` replays the call the
  endpoint makes for `test_api.py`'s happy path, and a `Failure` result stands for the 400
  answer.
- The model does not implement Python's sorting algorithm (Timsort). It captures the sort by
  its result, a stable sort under the reflected `__gt__`.
- Dates are day numbers.
- `__repr__` and `__hash__` are not modelled. Batch identity by reference appears as
  `Batch.SameBatch`, which the batch repository uses.
