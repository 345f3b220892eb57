# SkuBatch inventory sync, modelled in Dafny

This project models the reconciliation engine that copies SkuBatch data from the app
database into the inventory database, together with the SQL statement templates it
uses and the payload validators of the inventory API client. The engine has two passes:

- **Insert pass.** It finds the app SkuBatch ids that inventory lacks. Each id that
  resolves to an app record becomes one row per warehouse, and each row becomes an
  insert statement. An id with no app record is counted as bad and does not stop the
  batch.
- **Update pass.** It joins each app record to the inventory record with the same id
  and compares the fields skuId, wmsId, quantityPerUnitOfMeasure, isArchived and
  isDeleted. skuId is only backfilled: it changes only while the inventory value is
  unset. Every delta that has changes becomes two update statements, one for
  `inventory` and one for `inventory_aggregate`.

`sync` runs the insert pass, then the update pass.

Modules, one per source file plus shared helpers:

- `Options`: an optional value. JavaScript `null` and `undefined` are both `None`.
- `Seqs`: helpers on sequences.
  - de-duplication that keeps first occurrences (`[...new Set(s)]`);
  - filtering into or out of a set;
  - first-occurrence order.
- `Records`: the records the engine works on.
  - the record, the warehouse and the per-warehouse row;
  - the scalar values compared and written;
  - the field names;
  - lookup of the first record with a given skuBatchId.
- `SqlUtil` (`src/db/sql.util.ts`): the insert and update templates, and the value
  formatter.
- `Sync` (`src/sync.ts`): the engine in its intended form. The datasets the source reads
  from module globals are parameters.
- `SyncAsWritten` (`src/sync.ts`): the three predicates of the engine exactly as written,
  with inputs where they differ from the intended form (see Findings).
- `Api` (`src/api.ts`):
  - a JavaScript value type with truthiness and `typeof`;
  - the two payload validators;
  - the four request wrappers, with the HTTP transport as an abstract hand-over.

The loop-based source code is modelled as methods, each proved against a function:

- the accumulating reduce of `skuBatchToInserts`, with its bad-id counter;
- the inner reduce of `findDeltas`;
- the accumulator of `findChangesBetweenDatasets`.

The map, filter and template code is modelled as functions.

## Model

| member | source | states |
|---|---|---|
| Seqs.Dedup | src/sync.ts:82 | the result holds exactly the input's elements, with no duplicates |
| Seqs.DedupOrder | src/sync.ts:82 | de-duplication keeps the order of first occurrence |
| Seqs.WithoutMembers | src/sync.ts:83 | the filter keeps exactly the elements outside the set |
| Seqs.WithoutKeepsOrder | src/sync.ts:83 | filtering keeps the absence of duplicates and the first-occurrence order |
| Seqs.Within | src/sync.ts:83 | the literal filter keeps exactly the elements inside the set |
| Records.FindBySkuBatchId | src/sync.ts:121-122 | `None` exactly when no record has the id; otherwise the first record with that id |
| Records.ValueOfFaithful | src/sync.ts:133-137 | reading the five keys determines everything in a record except its skuBatchId |
| SqlUtil.FormatSqlValue | src/db/sql.util.ts:12-16 | every string, number, boolean or null is returned unchanged |
| SqlUtil.InsertifyText | src/db/sql.util.ts:3-4 | the insert text is the fixed prefix, the skuId (`null` when unset), `", "`, the skuBatchId and `)` |
| SqlUtil.InsertifyKeepsSkuBatchId | src/db/sql.util.ts:3-4 | for one skuId, the skuBatchId can be recovered from the insert text |
| SqlUtil.InsertTextStartsWithInsert | src/db/sql.util.ts:3-4 | every insert text starts with `insert ` |
| SqlUtil.GetUpdateKeepsSkuBatchId | src/db/sql.util.ts:6-7 | for one table and assignment text, the id can be recovered from the update |
| SqlUtil.GetUpdateKeepsAssignments | src/db/sql.util.ts:6-7 | for one table and id, the assignment text can be recovered from the update |
| SqlUtil.GetUpdateStartsWithUpdate | src/db/sql.util.ts:6-7 | every update statement starts with `update ` |
| SqlUtil.GetUpdateHoldsAssignments | src/db/sql.util.ts:6-7 | the assignment text sits right after `update <table> set ` |
| SqlUtil.GetUpdateHoldsPart | src/db/sql.util.ts:6-7 | any text inside the assignments also appears inside the statement |
| SqlUtil.ParseNatToString | src/sync.ts:99 | the decimal text of a number written into an assignment reads back as that number |
| Sync.WarehouseRecord | src/sync.ts:32-40 | the row copies the record's fields and adds the warehouse id; the quantity becomes 1 only when it is null or missing, so 0 is kept |
| Sync.WarehouseRecords | src/sync.ts:30-42 | one row per warehouse |
| Sync.WarehouseRecordsAt | src/sync.ts:30-42 | the rows follow the warehouse order: row `i` is the record's row for warehouse `i` |
| Sync.FindAppRecord | src/sync.ts:54-56 | `None` exactly when no app record has the id; otherwise an app record with that id |
| Sync.BadCountComplement | src/sync.ts:52-62 | every id either resolves or is counted bad, exactly once |
| Sync.InsertRecordsIsFanOut | src/sync.ts:52-66 | the accumulated rows are the warehouse rows of each resolved record, laid end to end in id order |
| Sync.InsertRecordsLength | src/sync.ts:52-66 | the rows number (resolving ids) × (warehouses) |
| Sync.InsertRecordsAt | src/sync.ts:52-66 | row `i * W + j` is resolved record `i` for warehouse `j`: grouped by id order, then by warehouse order |
| Sync.InsertPassConcat | src/sync.ts:52-66 | the pass over `a + b` is the pass over `a` followed by the pass over `b`, for rows, resolved records and bad count |
| Sync.BadIdSkipped | src/sync.ts:58-62 | an id with no app record adds no row, adds exactly 1 to the counter, and the ids after it are still processed |
| Sync.InsertStatementsAt | src/sync.ts:64-67 | insert `i * W + j` is the text of resolved record `i`, the same for every warehouse `j` |
| Sync.AllResolved | src/sync.ts:52-67 | when every id resolves there is no bad id and there are (ids) × (warehouses) inserts, i.e. 3 × 4 = 12 in the test |
| Sync.SkuBatchToInserts | src/sync.ts:48-72 | the loop builds the insert texts of the accumulated rows and the bad count; inserts = (resolved) × (warehouses) and bad + resolved = ids |
| Sync.GetDeltas | src/sync.ts:80-83 | no duplicates; an id is in the result exactly when an app row has it and no inventory row has it; first-occurrence order of the app ids |
| Sync.NothingMissing | src/sync.ts:80-83 | when inventory holds every app id, the result is empty |
| Sync.DisjointAllMissing | src/sync.ts:80-83 | when inventory holds none of the app ids, the result is the de-duplicated app ids |
| Sync.NewIdsMissing | src/sync.spec.ts:56-60 | app ids = inventory ids followed by new distinct ids gives exactly the new ids, in order |
| Sync.FieldUpdatesOver | src/sync.ts:133-149 | an update is collected exactly for a field that is compared, not a skuId set in inventory, and different, and it carries the app's value |
| Sync.FieldUpdatesSpec | src/sync.ts:133-149 | skuId is updated exactly when inventory's is unset and the app's set; each other field exactly when the records differ on it; the value is the app's; each field at most once, in field order |
| Sync.FieldUpdatesEmpty | src/sync.ts:133-149 | a matched pair has no update exactly when it agrees on every field except a skuId already set in inventory |
| Sync.DiffRecord | src/sync.ts:133-149 | the loop over the keys yields the updates of the pair |
| Sync.DeltaFor | src/sync.ts:121-154 | an unmatched app record maps to the placeholder with empty id and no updates; a matched one maps to its id and the updates of the pair |
| Sync.NonEmpty | src/sync.ts:156 | the filter keeps exactly the deltas that have an update |
| Sync.FindDeltas | src/sync.ts:113-157 | the loop yields the non-empty deltas of the app records, in app order |
| Sync.DeltasConcat | src/sync.ts:119-156 | the deltas of `a + b` are those of `a` followed by those of `b` |
| Sync.DeltasSingle | src/sync.ts:119-156 | one app record gives its delta when that delta has an update, and nothing otherwise |
| Sync.UnmatchedDropped | src/sync.ts:124-130 | an app record with no inventory counterpart contributes nothing to the output |
| Sync.DeltasMatched | src/sync.ts:119-156 | every emitted delta has an update and belongs to an app record with an inventory counterpart, carrying that pair's updates |
| Sync.DeltasOfSelf | src/sync.ts:119-156 | a dataset with distinct ids compared with itself yields no delta |
| Sync.QuantityOnlyChange | src/sync.spec.ts:64-89 | a pair differing only in quantity yields one delta with one update: the quantity set to the app's value |
| Sync.QuantityExample | src/sync.spec.ts:64-89 | quantity 5 against 10 yields one delta with one `quantityPerUnitOfMeasure` update of value 5 |
| Sync.ColumnNameInjective | src/sync.ts:99 | distinct fields are written to distinct columns |
| Seqs.JoinHolds | src/sync.ts:100 | every part occurs in the joined sequence, at a position returned |
| Sync.AssignmentPosition | src/sync.ts:98-100 | every update's `column = value` piece occurs in the joined assignment text |
| Sync.MakeUpdates | src/sync.ts:96-106 | two statements: first for `inventory`, then for `inventory_aggregate`, with the same assignment text and the same id |
| Sync.MakeUpdatesCarryEveryAssignment | src/sync.ts:96-106 | each update's assignment occurs in both statements |
| Sync.MakeUpdatesExample | src/sync.spec.ts:107-108 | an isDeleted = true delta yields `is_deleted = true` updates of both tables for its id |
| Sync.UpdateStatementsAt | src/sync.ts:181-182 | two statements per delta, in delta order: statements 2k and 2k+1 are the two updates of delta k |
| Sync.UpdateStatementsLength | src/sync.ts:181-182 | there are 2 × (deltas) statements |
| Sync.FindChangesBetweenDatasets | src/sync.ts:162-193 | the updates are the statements of the deltas of the app dataset against inventory, 2 per delta |
| Sync.CopyMissingInventoryRecordsFromSkuBatch | src/sync.ts:198-213 | the batch handed over holds the inserts for the missing ids |
| Sync.UpdateInventoryDeltasFromSkuBatch | src/sync.ts:219-231 | the batch handed over holds the updates between the two datasets |
| Sync.Sync | src/sync.ts:237-245 | the insert batch is handed over first and the update batch second |
| Sync.InsertStatementsAreInserts | src/sync.ts:198-206 | every statement of the first batch is an insert |
| Sync.UpdateStatementsAreUpdates | src/sync.ts:219-224 | every statement of the second batch is an update |
| SyncAsWritten.FindAppRecordAsWritten | src/sync.ts:54-56 | the lookup as written returns `None` only when every record has the id; otherwise a record whose id differs |
| SyncAsWritten.FindAppRecordAsWrittenMisses | src/sync.ts:54-56 | for records `[a, b]`, looking up `a` gives `b`, while the intended lookup gives `a` |
| SyncAsWritten.FindAppRecordAsWrittenLosesOnlyRecord | src/sync.ts:54-62 | for the single record `[a]`, looking up `a` finds nothing, so its id is counted bad |
| SyncAsWritten.GetDeltasAsWritten | src/sync.ts:82-83 | the filter as written keeps exactly the app ids that inventory has |
| SyncAsWritten.GetDeltasAsWrittenIsComplement | src/sync.ts:83 | among the app ids, the literal filter keeps exactly what the intended filter drops |
| SyncAsWritten.NewIdsAsWritten | src/sync.ts:80-83 | on the test's shape, the literal filter returns the ids inventory has, while the intended one returns the new ids |
| SyncAsWritten.EmptyOnly | src/sync.ts:156 | the filter as written keeps exactly the deltas with no update |
| SyncAsWritten.FindDeltasAsWrittenSetsNothing | src/sync.ts:156 | every delta the literal form keeps has no update, so its statements assign nothing |
| SyncAsWritten.FindDeltasPartition | src/sync.ts:156 | each mapped delta is kept by exactly one of the two filters |
| SyncAsWritten.FindDeltasAsWrittenDropsChange | src/sync.ts:156 | for the quantity-only pair of the test, the literal form gives no delta and the intended form gives one |
| SyncAsWritten.FindDeltasAsWrittenKeepsPlaceholder | src/sync.ts:124-130 | an unmatched app record reaches the literal output as the placeholder, and is absent from the intended output |
| Api.IsJsonObjectIsObject | src/api.ts:70 | the JSON check accepts exactly the plain objects: never a falsy value, a primitive or an array |
| Api.IsValidInventoryPayload | src/api.ts:69-76 | true exactly for a plain object whose skuBatchId, skuId and warehouseId are all present and truthy |
| Api.IsValidInventoryAggregatePayload | src/api.ts:79-86 | true exactly for a plain object whose skuBatchId and skuId are present and truthy |
| Api.InventoryValidIsAggregateValid | src/api.ts:70-81 | every payload the inventory validator accepts, the aggregate validator accepts |
| Api.AggregateIgnoresWarehouseId | src/api.ts:79-86 | setting or changing warehouseId never changes the aggregate verdict |
| Api.InventoryNeedsWarehouseId | src/api.ts:71 | for a payload the aggregate validator accepts, the inventory validator accepts it exactly when warehouseId is truthy |
| Api.EmptyIdRejected | src/api.ts:71 | an empty-string skuId is rejected by both validators |
| Api.Gate | src/api.ts:11-16 | the payload is handed to the transport unchanged, with the endpoint's URL, exactly when the validator accepts it; otherwise the wrapper throws the endpoint's message |
| Api.PostInventoryRequest | src/api.ts:9-21 | a POST to the inventory URL is sent exactly for a valid inventory payload; otherwise the inventory message is thrown |
| Api.PutInventoryRequest | src/api.ts:24-36 | a PUT to the inventory URL is sent exactly for a valid inventory payload; otherwise the inventory message is thrown |
| Api.PostInventoryAggregateRequest | src/api.ts:39-51 | a POST to the aggregate URL is sent exactly for a valid aggregate payload; otherwise the aggregate message is thrown |
| Api.PutInventoryAggregateRequest | src/api.ts:54-66 | a PUT to the aggregate URL is sent exactly for a valid aggregate payload; otherwise the aggregate message is thrown |
| Api.InventorySentIsAggregateSent | src/api.ts:11-41 | a payload the inventory endpoint takes is taken by the aggregate endpoint too |

## Left out

- The HTTP transport (`axios.post`/`axios.put`), its responses and its errors: network I/O. A wrapper's result is the request it would hand over, or the error it throws first.
- `queryExec` and the awaits on it: a no-op execution. The batches that would be executed are the results of the methods.
- Async plumbing, `try`/`catch` rethrow, and all logging. The reduce over a one-element array with a Promise accumulator (src/sync.ts:165-188) is one synchronous step.
- The global datasets of `./db/data` and the types of `./interfaces.util`. Those modules are not part of this model, so the datasets are parameters and the types are datatypes.
- The `skuBatchIds` list at src/sync.ts:168: it is only logged.
- The empty count-mismatch branch at src/sync.ts:175-178: it has no behaviour.
- lodash `snakeCase`, a foreign library. `Sync.ColumnName` declares the column of each of the five fields.
- `Object.keys` order, which depends on the host runtime. The keys are compared in the fixed order skuId, wmsId, quantityPerUnitOfMeasure, isArchived, isDeleted.
- The model also assumes an inventory record has all five keys.
- Loose equality between values of different types, NaN, and fractional quantities. Scalars are typed and compared structurally, and quantities are integers.
- JavaScript's exponent form when a template literal renders a number of 1e21 or more. Numbers are rendered in plain decimal.
- `Options`, `Records.OptionalString`, `SqlUtil.RenderScalar`: `null` and `undefined` are one value.
  - The loose `!=` in the comparisons and `??` treat them alike.
  - A template literal renders `undefined` as `undefined`. This model renders both as `null`.
- `Api.JsValue`: numbers are integers (no NaN), and functions, symbols and bigints are not values.
- Idempotence of the engine on the same inputs is not stated: every operation is a deterministic function of its inputs.

## Findings

| source | as written | input that shows it | evidently intended | confidence | as-written member | corrected member |
|---|---|---|---|---|---|---|
| src/sync.ts:55 | `appData.find(r => r.skuBatchId != skuBatchId)` returns the first record whose id differs | app records `[a, b]` and id `a` gives `b`; the single record `[a]` and id `a` gives nothing, so the id is counted bad | the record whose id equals the requested id (src/sync.ts:45, 59) | not executed | SyncAsWritten.FindAppRecordAsWrittenMisses | Sync.FindAppRecord |
| src/sync.ts:83 | `.filter(x => inventorySkuBatchIds.has(x))` keeps the ids inventory already has | app ids `[known..., new...]` against inventory `[known...]` gives `known`, not `new` | the ids missing from inventory (src/sync.ts:201; src/sync.spec.ts:56-60) | not executed | SyncAsWritten.NewIdsAsWritten | Sync.GetDeltas |
| src/sync.ts:156 | `.filter(sbu => sbu.updates.length == 0)` keeps only deltas with no update | the pair at src/sync.spec.ts:66-82 (quantity 5 against 10) gives no delta, where the test expects one | drop the empty deltas, including the unmatched-record placeholder (src/sync.ts:127-128) | not executed | SyncAsWritten.FindDeltasAsWrittenDropsChange | Sync.NonEmpty |
