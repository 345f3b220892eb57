/** The record shapes the reconciliation engine reads and produces. */
module Records {
  import opened Options

  /** One SkuBatch row, as held by the app dataset and by the inventory dataset.
      `skuBatchId` is the join key between the two. */
  datatype SkuBatchRecord = SkuBatchRecord(
    skuBatchId: string,
    skuId: Option<string>,
    wmsId: Option<string>,
    quantityPerUnitOfMeasure: Option<int>,
    isArchived: bool,
    isDeleted: bool)

  /** A warehouse of the fan-out list. */
  datatype Warehouse = Warehouse(warehouseId: string)

  /** A SkuBatch row tagged with one warehouse: the row shape an insert writes. */
  datatype RecordWithWms = RecordWithWms(
    skuBatchId: string,
    skuId: Option<string>,
    wmsId: Option<string>,
    quantityPerUnitOfMeasure: int,
    isArchived: bool,
    isDeleted: bool,
    warehouseId: string)

  /** A row of the app's id listing, `{ id }`. */
  datatype AppSkuBatchId = AppSkuBatchId(id: string)

  /** A row of the inventory's id listing, `{ skuBatchId }`. */
  datatype InventorySkuBatchId = InventorySkuBatchId(skuBatchId: string)

  /** The values a compared field can hold: string, integer number, boolean or null. */
  datatype Scalar = Str(s: string) | Num(n: int) | Bool(b: bool) | Null

  /** The fields compared by the delta computation, every key of a record except the
      join key `skuBatchId`. */
  datatype Field = SkuId | WmsId | QuantityPerUnitOfMeasure | IsArchived | IsDeleted

  /** The record key a field is stored under. */
  function FieldKey(f: Field): string {
    match f
    case SkuId => "skuId"
    case WmsId => "wmsId"
    case QuantityPerUnitOfMeasure => "quantityPerUnitOfMeasure"
    case IsArchived => "isArchived"
    case IsDeleted => "isDeleted"
  }

  function OptionalString(o: Option<string>): Scalar {
    match o
    case Some(s) => Str(s)
    case None => Null
  }

  function OptionalNumber(o: Option<int>): Scalar {
    match o
    case Some(n) => Num(n)
    case None => Null
  }

  /** `record[key]` for the key of `f`. */
  function ValueOf(r: SkuBatchRecord, f: Field): Scalar {
    match f
    case SkuId => OptionalString(r.skuId)
    case WmsId => OptionalString(r.wmsId)
    case QuantityPerUnitOfMeasure => OptionalNumber(r.quantityPerUnitOfMeasure)
    case IsArchived => Bool(r.isArchived)
    case IsDeleted => Bool(r.isDeleted)
  }

  /** Two records agree on every compared field exactly when they differ at most in
      their `skuBatchId`: the scalar view loses nothing. */
  lemma ValueOfFaithful(a: SkuBatchRecord, b: SkuBatchRecord)
    ensures (forall f: Field :: ValueOf(a, f) == ValueOf(b, f)) <==> a.(skuBatchId := b.skuBatchId) == b
  {
    if forall f: Field :: ValueOf(a, f) == ValueOf(b, f) {
      assert ValueOf(a, SkuId) == ValueOf(b, SkuId);
      assert ValueOf(a, WmsId) == ValueOf(b, WmsId);
      assert ValueOf(a, QuantityPerUnitOfMeasure) == ValueOf(b, QuantityPerUnitOfMeasure);
      assert ValueOf(a, IsArchived) == ValueOf(b, IsArchived);
      assert ValueOf(a, IsDeleted) == ValueOf(b, IsDeleted);
    }
  }

  /** `findIndex(r => r.skuBatchId == id)`, with `|rs|` for "not found". */
  function IndexOfSkuBatchId(rs: seq<SkuBatchRecord>, id: string): (k: nat)
    ensures k <= |rs|
    ensures forall j :: 0 <= j < k ==> rs[j].skuBatchId != id
    ensures k < |rs| ==> rs[k].skuBatchId == id
    decreases |rs|
  {
    if |rs| == 0 then 0
    else if rs[0].skuBatchId == id then 0
    else 1 + IndexOfSkuBatchId(rs[1..], id)
  }

  /** `find(r => r.skuBatchId == id)`: the first record carrying the id, if any. */
  function FindBySkuBatchId(rs: seq<SkuBatchRecord>, id: string): (r: Option<SkuBatchRecord>)
    ensures r.None? <==> forall k :: 0 <= k < |rs| ==> rs[k].skuBatchId != id
    ensures r.Some? ==> r.value in rs && r.value.skuBatchId == id
    ensures r.Some? ==> r.value == rs[IndexOfSkuBatchId(rs, id)]
  {
    var k := IndexOfSkuBatchId(rs, id);
    if k < |rs| then Some(rs[k]) else None
  }

  /** `{ field, newValue }`: one detected change. */
  datatype FieldUpdate = FieldUpdate(field: Field, newValue: Scalar)

  /** `{ skuBatchId, updates }`: the changes detected for one record. */
  datatype SkuBatchUpdate = SkuBatchUpdate(skuBatchId: string, updates: seq<FieldUpdate>)
}
