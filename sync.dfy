/** The reconciliation engine: finds the SkuBatch ids missing from inventory and turns
    them into inserts, finds the field changes of the records present on both sides and
    turns them into updates, and runs the insert pass before the update pass.

    The datasets the source reads from module globals are parameters here. */
module Sync {
  import opened Options
  import opened Seqs
  import opened Records
  import SqlUtil

  // ---------------------------------------------------------------------------
  // Warehouse fan-out (makeWarehouseRecordsForSkuBatchRecord)

  /** The row of `rec` for warehouse `w`: every field of `rec` copied, the warehouse's
      id added, and a null or missing quantity replaced by 1 (`?? 1`); any number,
      0 included, is kept. */
  function WarehouseRecord(rec: SkuBatchRecord, w: Warehouse): (r: RecordWithWms)
    ensures r.warehouseId == w.warehouseId
    ensures r.skuBatchId == rec.skuBatchId && r.skuId == rec.skuId && r.wmsId == rec.wmsId
    ensures r.isArchived == rec.isArchived && r.isDeleted == rec.isDeleted
    ensures rec.quantityPerUnitOfMeasure.Some? ==> r.quantityPerUnitOfMeasure == rec.quantityPerUnitOfMeasure.value
    ensures rec.quantityPerUnitOfMeasure.None? ==> r.quantityPerUnitOfMeasure == 1
  {
    var quantity := match rec.quantityPerUnitOfMeasure case Some(q) => q case None => 1;
    RecordWithWms(rec.skuBatchId, rec.skuId, rec.wmsId, quantity, rec.isArchived, rec.isDeleted, w.warehouseId)
  }

  /** `makeWarehouseRecordsForSkuBatchRecord`: one row per warehouse. */
  function WarehouseRecords(rec: SkuBatchRecord, ws: seq<Warehouse>): (rs: seq<RecordWithWms>)
    ensures |rs| == |ws|
    decreases |ws|
  {
    if |ws| == 0 then [] else [WarehouseRecord(rec, ws[0])] + WarehouseRecords(rec, ws[1..])
  }

  /** The rows follow the warehouse order: row `i` is the row for warehouse `i`. */
  lemma {:induction false} WarehouseRecordsAt(rec: SkuBatchRecord, ws: seq<Warehouse>, i: nat)
    requires i < |ws|
    ensures WarehouseRecords(rec, ws)[i] == WarehouseRecord(rec, ws[i])
    decreases |ws|
  {
    if i > 0 {
      WarehouseRecordsAt(rec, ws[1..], i - 1);
    }
  }

  // ---------------------------------------------------------------------------
  // Ids to inserts (skuBatchToInserts)

  /** The app lookup of the insert pass. The source's predicate at sync.ts:55 compares
      with `!=` and so returns the first record whose id DIFFERS; the documented intent
      (sync.ts:45, the log at sync.ts:59) is the record whose id is the given one, which
      is what this lookup does. `SyncAsWritten.FindAppRecordAsWritten` keeps the literal form. */
  function FindAppRecord(appData: seq<SkuBatchRecord>, id: string): (r: Option<SkuBatchRecord>)
    ensures r.None? <==> forall k :: 0 <= k < |appData| ==> appData[k].skuBatchId != id
    ensures r.Some? ==> r.value in appData && r.value.skuBatchId == id
  {
    FindBySkuBatchId(appData, id)
  }

  /** The app records of the ids that resolve, in id order. */
  function ResolvedRecords(ids: seq<string>, appData: seq<SkuBatchRecord>): seq<SkuBatchRecord>
    decreases |ids|
  {
    if |ids| == 0 then []
    else
      var prev := ResolvedRecords(ids[..|ids| - 1], appData);
      match FindAppRecord(appData, ids[|ids| - 1])
      case None => prev
      case Some(rec) => prev + [rec]
  }

  /** The accumulator of the reduce step: the warehouse rows of every id that resolves. */
  function InsertRecords(ids: seq<string>, appData: seq<SkuBatchRecord>, ws: seq<Warehouse>): seq<RecordWithWms>
    decreases |ids|
  {
    if |ids| == 0 then []
    else
      var prev := InsertRecords(ids[..|ids| - 1], appData, ws);
      match FindAppRecord(appData, ids[|ids| - 1])
      case None => prev
      case Some(rec) => prev + WarehouseRecords(rec, ws)
  }

  /** The final value of the bad-id counter: the ids with no app record. */
  function BadCount(ids: seq<string>, appData: seq<SkuBatchRecord>): nat
    decreases |ids|
  {
    if |ids| == 0 then 0
    else BadCount(ids[..|ids| - 1], appData) + (if FindAppRecord(appData, ids[|ids| - 1]).None? then 1 else 0)
  }

  /** The insert texts: `insertify` of every accumulated row. */
  function InsertStatements(ids: seq<string>, appData: seq<SkuBatchRecord>, ws: seq<Warehouse>): seq<string> {
    var rs := InsertRecords(ids, appData, ws);
    seq(|rs|, i requires 0 <= i < |rs| => SqlUtil.Insertify(rs[i]))
  }

  /** Every id either resolves or is counted bad, exactly once. */
  lemma {:induction false} BadCountComplement(ids: seq<string>, appData: seq<SkuBatchRecord>)
    ensures BadCount(ids, appData) + |ResolvedRecords(ids, appData)| == |ids|
    decreases |ids|
  {
    if |ids| > 0 {
      BadCountComplement(ids[..|ids| - 1], appData);
    }
  }

  /** The warehouse rows of each record of `recs`, one block per record. */
  function Blocks(recs: seq<SkuBatchRecord>, ws: seq<Warehouse>): (bs: seq<seq<RecordWithWms>>)
    ensures |bs| == |recs| && forall k :: 0 <= k < |recs| ==> bs[k] == WarehouseRecords(recs[k], ws)
  {
    seq(|recs|, k requires 0 <= k < |recs| => WarehouseRecords(recs[k], ws))
  }

  /** The accumulated rows are the blocks of the resolved records laid end to end. */
  lemma {:induction false} InsertRecordsIsFanOut(ids: seq<string>, appData: seq<SkuBatchRecord>, ws: seq<Warehouse>)
    ensures InsertRecords(ids, appData, ws) == Flatten(Blocks(ResolvedRecords(ids, appData), ws))
    decreases |ids|
  {
    if |ids| > 0 {
      var p := ids[..|ids| - 1];
      var prev := ResolvedRecords(p, appData);
      assert InsertRecords(p, appData, ws) == Flatten(Blocks(prev, ws)) by {
        InsertRecordsIsFanOut(p, appData, ws);
      }
      match FindAppRecord(appData, ids[|ids| - 1])
      case None =>
        assert InsertRecords(ids, appData, ws) == InsertRecords(p, appData, ws);
        assert ResolvedRecords(ids, appData) == prev;
      case Some(rec) =>
        var block := WarehouseRecords(rec, ws);
        assert InsertRecords(ids, appData, ws) == InsertRecords(p, appData, ws) + block;
        assert ResolvedRecords(ids, appData) == prev + [rec];
        assert Blocks(prev + [rec], ws) == Blocks(prev, ws) + [block] by { BlocksConcat(prev, [rec], ws); }
        assert Flatten(Blocks(prev, ws) + [block]) == Flatten(Blocks(prev, ws)) + block by {
          FlattenConcat(Blocks(prev, ws), [block]);
          assert [block][..0] == [];
        }
    }
  }

  /** Each resolving id contributes exactly one row per warehouse. */
  lemma InsertRecordsLength(ids: seq<string>, appData: seq<SkuBatchRecord>, ws: seq<Warehouse>)
    ensures |InsertRecords(ids, appData, ws)| == |ResolvedRecords(ids, appData)| * |ws|
  {
    InsertRecordsIsFanOut(ids, appData, ws);
    FlattenLength(Blocks(ResolvedRecords(ids, appData), ws), |ws|);
  }

  /** Rows are grouped by resolving id, in id order, and within a group by warehouse,
      in warehouse order: row `i * |ws| + j` is the row of the `i`-th resolved record
      for warehouse `j`. */
  lemma InsertRecordsAt(ids: seq<string>, appData: seq<SkuBatchRecord>, ws: seq<Warehouse>, i: nat, j: nat)
    requires i < |ResolvedRecords(ids, appData)| && j < |ws|
    ensures |InsertRecords(ids, appData, ws)| == |ResolvedRecords(ids, appData)| * |ws|
    ensures i * |ws| + j < |InsertRecords(ids, appData, ws)|
    ensures InsertRecords(ids, appData, ws)[i * |ws| + j] == WarehouseRecord(ResolvedRecords(ids, appData)[i], ws[j])
  {
    var recs := ResolvedRecords(ids, appData);
    InsertRecordsIsFanOut(ids, appData, ws);
    FlattenAt(Blocks(recs, ws), |ws|, i, j);
    WarehouseRecordsAt(recs[i], ws, j);
  }

  /** Processing ids `a` then `b` is processing `a` and `b` separately and concatenating:
      what one id contributes does not depend on the ids around it. */
  lemma InsertPassConcat(a: seq<string>, b: seq<string>, appData: seq<SkuBatchRecord>, ws: seq<Warehouse>)
    ensures InsertRecords(a + b, appData, ws) == InsertRecords(a, appData, ws) + InsertRecords(b, appData, ws)
    ensures ResolvedRecords(a + b, appData) == ResolvedRecords(a, appData) + ResolvedRecords(b, appData)
    ensures BadCount(a + b, appData) == BadCount(a, appData) + BadCount(b, appData)
  {
    InsertRecordsConcat(a, b, appData, ws);
    ResolvedRecordsConcat(a, b, appData);
    BadCountConcat(a, b, appData);
  }

  lemma BlocksConcat(x: seq<SkuBatchRecord>, y: seq<SkuBatchRecord>, ws: seq<Warehouse>)
    ensures Blocks(x + y, ws) == Blocks(x, ws) + Blocks(y, ws)
  {
    var l, r := Blocks(x + y, ws), Blocks(x, ws) + Blocks(y, ws);
    forall k | 0 <= k < |x| + |y| ensures l[k] == r[k] {
      if k < |x| {
        assert (x + y)[k] == x[k];
      } else {
        assert (x + y)[k] == y[k - |x|];
      }
    }
  }

  lemma InsertRecordsConcat(a: seq<string>, b: seq<string>, appData: seq<SkuBatchRecord>, ws: seq<Warehouse>)
    ensures InsertRecords(a + b, appData, ws) == InsertRecords(a, appData, ws) + InsertRecords(b, appData, ws)
  {
    var ra, rb := ResolvedRecords(a, appData), ResolvedRecords(b, appData);
    ResolvedRecordsConcat(a, b, appData);
    InsertRecordsIsFanOut(a + b, appData, ws);
    InsertRecordsIsFanOut(a, appData, ws);
    InsertRecordsIsFanOut(b, appData, ws);
    BlocksConcat(ra, rb, ws);
    FlattenConcat(Blocks(ra, ws), Blocks(rb, ws));
  }

  lemma {:induction false} ResolvedRecordsConcat(a: seq<string>, b: seq<string>, appData: seq<SkuBatchRecord>)
    ensures ResolvedRecords(a + b, appData) == ResolvedRecords(a, appData) + ResolvedRecords(b, appData)
    decreases |b|
  {
    if |b| == 0 {
      assert a + b == a;
    } else {
      var b' := b[..|b| - 1];
      assert (a + b)[..|a + b| - 1] == a + b';
      assert (a + b)[|a + b| - 1] == b[|b| - 1];
      ResolvedRecordsConcat(a, b', appData);
    }
  }

  lemma {:induction false} BadCountConcat(a: seq<string>, b: seq<string>, appData: seq<SkuBatchRecord>)
    ensures BadCount(a + b, appData) == BadCount(a, appData) + BadCount(b, appData)
    decreases |b|
  {
    if |b| == 0 {
      assert a + b == a;
    } else {
      var b' := b[..|b| - 1];
      assert (a + b)[..|a + b| - 1] == a + b';
      assert (a + b)[|a + b| - 1] == b[|b| - 1];
      BadCountConcat(a, b', appData);
    }
  }

  /** An id with no app record adds no row and bumps the counter by exactly one, and the
      ids after it are still processed. */
  lemma BadIdSkipped(a: seq<string>, id: string, b: seq<string>, appData: seq<SkuBatchRecord>, ws: seq<Warehouse>)
    requires FindAppRecord(appData, id).None?
    ensures InsertRecords(a + [id] + b, appData, ws) == InsertRecords(a, appData, ws) + InsertRecords(b, appData, ws)
    ensures BadCount(a + [id] + b, appData) == BadCount(a, appData) + 1 + BadCount(b, appData)
  {
    InsertPassConcat(a, [id], appData, ws);
    InsertPassConcat(a + [id], b, appData, ws);
    assert [id][..0] == [];
  }

  /** Insert `i * |ws| + j` is the text of the `i`-th resolved record: the same for every
      warehouse `j`, since `insertify` reads only skuId and skuBatchId. */
  lemma InsertStatementsAt(ids: seq<string>, appData: seq<SkuBatchRecord>, ws: seq<Warehouse>, i: nat, j: nat)
    requires i < |ResolvedRecords(ids, appData)| && j < |ws|
    ensures |InsertStatements(ids, appData, ws)| == |ResolvedRecords(ids, appData)| * |ws|
    ensures i * |ws| + j < |InsertStatements(ids, appData, ws)|
    ensures InsertStatements(ids, appData, ws)[i * |ws| + j] ==
      SqlUtil.InsertText(ResolvedRecords(ids, appData)[i].skuId, ResolvedRecords(ids, appData)[i].skuBatchId)
  {
    InsertRecordsAt(ids, appData, ws, i, j);
    var rec := ResolvedRecords(ids, appData)[i];
    var row := InsertRecords(ids, appData, ws)[i * |ws| + j];
    assert row == WarehouseRecord(rec, ws[j]);
    assert row.skuId == rec.skuId && row.skuBatchId == rec.skuBatchId;
    assert InsertStatements(ids, appData, ws)[i * |ws| + j] == SqlUtil.Insertify(row);
  }

  /** When every id resolves, there are `|ids| * |ws|` inserts and no bad id. */
  lemma AllResolved(ids: seq<string>, appData: seq<SkuBatchRecord>, ws: seq<Warehouse>)
    requires forall k :: 0 <= k < |ids| ==> FindAppRecord(appData, ids[k]).Some?
    ensures BadCount(ids, appData) == 0
    ensures |InsertStatements(ids, appData, ws)| == |ids| * |ws|
  {
    AllResolvedNoBad(ids, appData);
    BadCountComplement(ids, appData);
    InsertRecordsLength(ids, appData, ws);
  }

  lemma {:induction false} AllResolvedNoBad(ids: seq<string>, appData: seq<SkuBatchRecord>)
    requires forall k :: 0 <= k < |ids| ==> FindAppRecord(appData, ids[k]).Some?
    ensures BadCount(ids, appData) == 0
    decreases |ids|
  {
    if |ids| > 0 {
      var p := ids[..|ids| - 1];
      assert forall k :: 0 <= k < |p| ==> p[k] == ids[k];
      AllResolvedNoBad(p, appData);
    }
  }

  /** `skuBatchToInserts`: a reduce over the ids that looks each one up, pushes its
      warehouse rows or bumps the bad-id counter, and then maps the rows to insert texts. */
  method SkuBatchToInserts(ids: seq<string>, appData: seq<SkuBatchRecord>, ws: seq<Warehouse>)
    returns (inserts: seq<string>, badCount: nat)
    ensures inserts == InsertStatements(ids, appData, ws)
    ensures badCount == BadCount(ids, appData)
    ensures |inserts| == |ResolvedRecords(ids, appData)| * |ws|
    ensures badCount + |ResolvedRecords(ids, appData)| == |ids|
  {
    var arr: seq<RecordWithWms> := [];
    badCount := 0;
    for i := 0 to |ids|
      invariant arr == InsertRecords(ids[..i], appData, ws)
      invariant badCount == BadCount(ids[..i], appData)
    {
      assert ids[..i + 1][..i] == ids[..i];
      var found := FindAppRecord(appData, ids[i]);
      if found.None? {
        badCount := badCount + 1;
      } else {
        arr := arr + WarehouseRecords(found.value, ws);
      }
    }
    assert ids[..|ids|] == ids;
    inserts := seq(|arr|, k requires 0 <= k < |arr| => SqlUtil.Insertify(arr[k]));
    InsertRecordsLength(ids, appData, ws);
    BadCountComplement(ids, appData);
  }

  // ---------------------------------------------------------------------------
  // Missing-id detection (getDeltas)

  function AppIds(rows: seq<AppSkuBatchId>): (r: seq<string>)
    ensures |r| == |rows| && forall k :: 0 <= k < |rows| ==> r[k] == rows[k].id
  {
    seq(|rows|, k requires 0 <= k < |rows| => rows[k].id)
  }

  function InventoryIdSet(rows: seq<InventorySkuBatchId>): (s: set<string>)
    ensures forall x :: x in s <==> exists k :: 0 <= k < |rows| && rows[k].skuBatchId == x
  {
    set k | 0 <= k < |rows| :: rows[k].skuBatchId
  }

  /** The distinct app ids that the inventory lacks, in the order the app lists them
      first. The source's filter at sync.ts:83 keeps the ids that inventory HAS; the
      documented intent (sync.ts:201 and the test at sync.spec.ts:56-60) is the ids it
      lacks, which is what this filter keeps. `SyncAsWritten.GetDeltasAsWritten` keeps
      the literal form. */
  function GetDeltas(appRows: seq<AppSkuBatchId>, inventoryRows: seq<InventorySkuBatchId>): (r: seq<string>)
    ensures NoDuplicates(r)
    ensures forall x :: x in r <==>
      (exists k :: 0 <= k < |appRows| && appRows[k].id == x) &&
      (forall k :: 0 <= k < |inventoryRows| ==> inventoryRows[k].skuBatchId != x)
    ensures InFirstOccurrenceOrder(r, AppIds(appRows))
  {
    var d := Dedup(AppIds(appRows));
    DedupOrder(AppIds(appRows));
    WithoutKeepsOrder(d, InventoryIdSet(inventoryRows), AppIds(appRows));
    WithoutMembers(d, InventoryIdSet(inventoryRows));
    Without(d, InventoryIdSet(inventoryRows))
  }

  /** When inventory holds every app id, nothing is missing. */
  lemma {:induction false} NothingMissing(appRows: seq<AppSkuBatchId>, inventoryRows: seq<InventorySkuBatchId>)
    requires forall k :: 0 <= k < |appRows| ==> exists j :: 0 <= j < |inventoryRows| && inventoryRows[j].skuBatchId == appRows[k].id
    ensures GetDeltas(appRows, inventoryRows) == []
  {
    var d := Dedup(AppIds(appRows));
    forall x | x in d ensures x in InventoryIdSet(inventoryRows) {
      var k :| 0 <= k < |AppIds(appRows)| && AppIds(appRows)[k] == x;
      var j :| 0 <= j < |inventoryRows| && inventoryRows[j].skuBatchId == appRows[k].id;
    }
    WithoutAll(d, InventoryIdSet(inventoryRows));
  }

  /** When inventory holds none of the app ids, every app id is missing: the result is
      the de-duplicated app id list. */
  lemma DisjointAllMissing(appRows: seq<AppSkuBatchId>, inventoryRows: seq<InventorySkuBatchId>)
    requires forall k, j :: 0 <= k < |appRows| && 0 <= j < |inventoryRows| ==> inventoryRows[j].skuBatchId != appRows[k].id
    ensures GetDeltas(appRows, inventoryRows) == Dedup(AppIds(appRows))
  {
    var d := Dedup(AppIds(appRows));
    forall i | 0 <= i < |d| ensures d[i] !in InventoryIdSet(inventoryRows) {
      assert d[i] in AppIds(appRows);
      var k :| 0 <= k < |AppIds(appRows)| && AppIds(appRows)[k] == d[i];
    }
    WithoutNone(d, InventoryIdSet(inventoryRows));
  }

  /** The shape of the test at sync.spec.ts:56-60: the app lists the inventory's ids
      followed by new ones, all distinct; exactly the new ones are missing, in order. */
  lemma NewIdsMissing(appRows: seq<AppSkuBatchId>, inventoryRows: seq<InventorySkuBatchId>, known: seq<string>, added: seq<string>)
    requires AppIds(appRows) == known + added && NoDuplicates(known + added)
    requires forall x :: x in known <==> exists j :: 0 <= j < |inventoryRows| && inventoryRows[j].skuBatchId == x
    ensures GetDeltas(appRows, inventoryRows) == added
  {
    var ids := InventoryIdSet(inventoryRows);
    DedupDistinct(known + added);
    WithoutConcat(known, added, ids);
    WithoutAll(known, ids);
    DistinctHalves(known, added);
    forall i | 0 <= i < |added| ensures added[i] !in ids {
      assert added[i] in added;
    }
    WithoutNone(added, ids);
  }

  // ---------------------------------------------------------------------------
  // Field-level diff (findDeltas)

  /** The keys compared, in a fixed order: every key but `skuBatchId`. */
  const DiffFields: seq<Field> := [SkuId, WmsId, QuantityPerUnitOfMeasure, IsArchived, IsDeleted]

  /** The test of one reduce step: skip skuId while the inventory's value is set,
      otherwise report the key when the two values differ. */
  predicate ShouldUpdate(f: Field, app: SkuBatchRecord, inv: SkuBatchRecord) {
    !(f == SkuId && ValueOf(inv, f) != Null) && ValueOf(inv, f) != ValueOf(app, f)
  }

  /** The updates the reduce collects over `fields`: `{field, newValue: appValue}` for
      each field that passes the test. */
  function FieldUpdatesOver(fields: seq<Field>, app: SkuBatchRecord, inv: SkuBatchRecord): (ups: seq<FieldUpdate>)
    ensures |ups| <= |fields|
    ensures forall u :: u in ups <==>
      u.field in fields && ShouldUpdate(u.field, app, inv) && u.newValue == ValueOf(app, u.field)
    decreases |fields|
  {
    if |fields| == 0 then []
    else
      var prev := FieldUpdatesOver(fields[..|fields| - 1], app, inv);
      var f := fields[|fields| - 1];
      if ShouldUpdate(f, app, inv) then prev + [FieldUpdate(f, ValueOf(app, f))] else prev
  }

  /** The updates one matched pair yields. */
  function FieldUpdates(app: SkuBatchRecord, inv: SkuBatchRecord): seq<FieldUpdate> {
    FieldUpdatesOver(DiffFields, app, inv)
  }

  /** The fields named by a list of updates. */
  function UpdatedFields(ups: seq<FieldUpdate>): (fs: seq<Field>)
    ensures |fs| == |ups| && forall k :: 0 <= k < |ups| ==> fs[k] == ups[k].field
  {
    seq(|ups|, k requires 0 <= k < |ups| => ups[k].field)
  }

  /** The collected updates name each field once, in the order of `fields`. */
  lemma {:induction false} FieldUpdatesOverOrder(fields: seq<Field>, app: SkuBatchRecord, inv: SkuBatchRecord)
    requires NoDuplicates(fields)
    ensures NoDuplicates(UpdatedFields(FieldUpdatesOver(fields, app, inv)))
    ensures InFirstOccurrenceOrder(UpdatedFields(FieldUpdatesOver(fields, app, inv)), fields)
    decreases |fields|
  {
    var fs := UpdatedFields(FieldUpdatesOver(fields, app, inv));
    if |fields| == 0 {
      assert fs == [];
    } else {
      var n := |fields| - 1;
      var p := fields[..n];
      assert NoDuplicates(p) by {
        forall i, j | 0 <= i < j < |p| ensures p[i] != p[j] { assert p[i] == fields[i] && p[j] == fields[j]; }
      }
      assert fields[n] !in p by {
        forall j | 0 <= j < n ensures p[j] != fields[n] { assert p[j] == fields[j]; }
      }
      FieldUpdatesOverOrder(p, app, inv);
      var pfs := UpdatedFields(FieldUpdatesOver(p, app, inv));
      if ShouldUpdate(fields[n], app, inv) {
        assert fs == pfs + [fields[n]];
        OrderAppend(pfs, fields, n);
      } else {
        assert fs == pfs;
        OrderExtends(pfs, fields, n);
      }
    }
  }

  /** The fixed order lists every field. */
  lemma DiffFieldsComplete(f: Field)
    ensures f in DiffFields
  {
    match f
    case SkuId => assert DiffFields[0] == f;
    case WmsId => assert DiffFields[1] == f;
    case QuantityPerUnitOfMeasure => assert DiffFields[2] == f;
    case IsArchived => assert DiffFields[3] == f;
    case IsDeleted => assert DiffFields[4] == f;
  }

  /** A field is reported at most once, with the app's value:
      - skuId only when the inventory's skuId is unset and the app has one (backfill);
      - every other field exactly when the two records differ on it;
      and the updates follow the fixed field order. */
  lemma FieldUpdatesSpec(app: SkuBatchRecord, inv: SkuBatchRecord)
    ensures SkuId in UpdatedFields(FieldUpdates(app, inv)) <==> inv.skuId.None? && app.skuId.Some?
    ensures WmsId in UpdatedFields(FieldUpdates(app, inv)) <==> app.wmsId != inv.wmsId
    ensures QuantityPerUnitOfMeasure in UpdatedFields(FieldUpdates(app, inv)) <==>
      app.quantityPerUnitOfMeasure != inv.quantityPerUnitOfMeasure
    ensures IsArchived in UpdatedFields(FieldUpdates(app, inv)) <==> app.isArchived != inv.isArchived
    ensures IsDeleted in UpdatedFields(FieldUpdates(app, inv)) <==> app.isDeleted != inv.isDeleted
    ensures forall u :: u in FieldUpdates(app, inv) ==> u.newValue == ValueOf(app, u.field)
    ensures NoDuplicates(UpdatedFields(FieldUpdates(app, inv)))
    ensures InFirstOccurrenceOrder(UpdatedFields(FieldUpdates(app, inv)), DiffFields)
  {
    var ups := FieldUpdates(app, inv);
    var fs := UpdatedFields(ups);
    FieldUpdatesOverOrder(DiffFields, app, inv);
    forall f: Field ensures f in fs <==> ShouldUpdate(f, app, inv) {
      DiffFieldsComplete(f);
      if ShouldUpdate(f, app, inv) {
        assert FieldUpdate(f, ValueOf(app, f)) in ups;
        var k :| 0 <= k < |ups| && ups[k] == FieldUpdate(f, ValueOf(app, f));
        assert fs[k] == f;
      }
      if f in fs {
        var k :| 0 <= k < |fs| && fs[k] == f;
        assert ups[k] in ups;
      }
    }
  }

  /** A matched pair yields no update exactly when nothing is to change: the records
      agree on every field but skuId, and skuId is already set or absent on both. */
  lemma FieldUpdatesEmpty(app: SkuBatchRecord, inv: SkuBatchRecord)
    ensures FieldUpdates(app, inv) == [] <==>
      (inv.skuId.Some? || app.skuId.None?) && app.wmsId == inv.wmsId &&
      app.quantityPerUnitOfMeasure == inv.quantityPerUnitOfMeasure &&
      app.isArchived == inv.isArchived && app.isDeleted == inv.isDeleted
  {
    FieldUpdatesSpec(app, inv);
    var fs := UpdatedFields(FieldUpdates(app, inv));
    if fs != [] {
      assert fs[0] in fs;
    }
  }

  /** `findDeltas`' inner reduce: walks the keys and pushes an update for each changed one. */
  method DiffRecord(app: SkuBatchRecord, inv: SkuBatchRecord) returns (updates: seq<FieldUpdate>)
    ensures updates == FieldUpdates(app, inv)
  {
    var keys := DiffFields;
    updates := [];
    for i := 0 to |keys|
      invariant updates == FieldUpdatesOver(keys[..i], app, inv)
    {
      assert keys[..i + 1][..i] == keys[..i];
      var key := keys[i];
      var inventoryValue := ValueOf(inv, key);
      var appValue := ValueOf(app, key);
      if !(key == SkuId && inventoryValue != Null) && inventoryValue != appValue {
        updates := updates + [FieldUpdate(key, appValue)];
      }
    }
    assert keys[..|keys|] == keys;
  }

  /** The mapped value for one app record: the sentinel `{skuBatchId: '', updates: []}`
      when inventory has no record with its id, otherwise the updates against the first
      inventory record with that id. */
  function DeltaFor(app: SkuBatchRecord, inventoryData: seq<SkuBatchRecord>): (d: SkuBatchUpdate)
    ensures FindBySkuBatchId(inventoryData, app.skuBatchId).None? ==> d == SkuBatchUpdate("", [])
    ensures FindBySkuBatchId(inventoryData, app.skuBatchId).Some? ==>
      d.skuBatchId == app.skuBatchId &&
      d.updates == FieldUpdates(app, FindBySkuBatchId(inventoryData, app.skuBatchId).value)
  {
    match FindBySkuBatchId(inventoryData, app.skuBatchId)
    case None => SkuBatchUpdate("", [])
    case Some(inv) => SkuBatchUpdate(inv.skuBatchId, FieldUpdates(app, inv))
  }

  /** The mapped list, one entry per app record. */
  function AllDeltas(appData: seq<SkuBatchRecord>, inventoryData: seq<SkuBatchRecord>): (ds: seq<SkuBatchUpdate>)
    ensures |ds| == |appData| && forall k :: 0 <= k < |appData| ==> ds[k] == DeltaFor(appData[k], inventoryData)
  {
    seq(|appData|, k requires 0 <= k < |appData| => DeltaFor(appData[k], inventoryData))
  }

  /** Drops the deltas with no update. The source's filter at sync.ts:156 keeps the
      deltas with NO update; the intent (sync.ts:127-128 and the test at
      sync.spec.ts:84-88) is to drop them, which is what this filter does.
      `SyncAsWritten.FindDeltasAsWritten` keeps the literal form. */
  function NonEmpty(ds: seq<SkuBatchUpdate>): (r: seq<SkuBatchUpdate>)
    ensures forall d :: d in r <==> d in ds && |d.updates| > 0
    ensures |r| <= |ds|
    decreases |ds|
  {
    if |ds| == 0 then []
    else NonEmpty(ds[..|ds| - 1]) + (if |ds[|ds| - 1].updates| == 0 then [] else [ds[|ds| - 1]])
  }

  /** `findDeltas`, intended form: the non-empty deltas of the app records, in app order. */
  function Deltas(appData: seq<SkuBatchRecord>, inventoryData: seq<SkuBatchRecord>): seq<SkuBatchUpdate> {
    NonEmpty(AllDeltas(appData, inventoryData))
  }

  /** `findDeltas`: maps each app record to its delta and keeps the non-empty ones. */
  method FindDeltas(appData: seq<SkuBatchRecord>, inventoryData: seq<SkuBatchRecord>) returns (deltas: seq<SkuBatchUpdate>)
    ensures deltas == Deltas(appData, inventoryData)
  {
    deltas := [];
    for i := 0 to |appData|
      invariant deltas == NonEmpty(AllDeltas(appData[..i], inventoryData))
    {
      assert AllDeltas(appData[..i + 1], inventoryData)[..i] == AllDeltas(appData[..i], inventoryData);
      var app := appData[i];
      var delta: SkuBatchUpdate;
      var found := FindBySkuBatchId(inventoryData, app.skuBatchId);
      if found.None? {
        delta := SkuBatchUpdate("", []);
      } else {
        var updates := DiffRecord(app, found.value);
        delta := SkuBatchUpdate(found.value.skuBatchId, updates);
      }
      if |delta.updates| != 0 {
        deltas := deltas + [delta];
      }
    }
    assert appData[..|appData|] == appData;
  }

  lemma {:induction false} NonEmptyConcat(a: seq<SkuBatchUpdate>, b: seq<SkuBatchUpdate>)
    ensures NonEmpty(a + b) == NonEmpty(a) + NonEmpty(b)
    decreases |b|
  {
    if |b| == 0 {
      assert a + b == a;
    } else {
      var b' := b[..|b| - 1];
      assert (a + b)[..|a + b| - 1] == a + b';
      assert (a + b)[|a + b| - 1] == b[|b| - 1];
      NonEmptyConcat(a, b');
    }
  }

  lemma AllDeltasConcat(a: seq<SkuBatchRecord>, b: seq<SkuBatchRecord>, inventoryData: seq<SkuBatchRecord>)
    ensures AllDeltas(a + b, inventoryData) == AllDeltas(a, inventoryData) + AllDeltas(b, inventoryData)
  {
    var l, r := AllDeltas(a + b, inventoryData), AllDeltas(a, inventoryData) + AllDeltas(b, inventoryData);
    forall k | 0 <= k < |a| + |b| ensures l[k] == r[k] {
      if k < |a| {
        assert (a + b)[k] == a[k];
      } else {
        assert (a + b)[k] == b[k - |a|];
      }
    }
  }

  /** The deltas of `a + b` are those of `a` followed by those of `b`: output order is
      app order, and each app record's delta depends on that record alone. */
  lemma DeltasConcat(a: seq<SkuBatchRecord>, b: seq<SkuBatchRecord>, inventoryData: seq<SkuBatchRecord>)
    ensures Deltas(a + b, inventoryData) == Deltas(a, inventoryData) + Deltas(b, inventoryData)
  {
    AllDeltasConcat(a, b, inventoryData);
    NonEmptyConcat(AllDeltas(a, inventoryData), AllDeltas(b, inventoryData));
  }

  /** An app record with no inventory counterpart contributes nothing: the sentinel is
      filtered away. */
  lemma UnmatchedDropped(a: seq<SkuBatchRecord>, app: SkuBatchRecord, b: seq<SkuBatchRecord>, inventoryData: seq<SkuBatchRecord>)
    requires FindBySkuBatchId(inventoryData, app.skuBatchId).None?
    ensures Deltas(a + [app] + b, inventoryData) == Deltas(a, inventoryData) + Deltas(b, inventoryData)
  {
    DeltasConcat(a, [app], inventoryData);
    DeltasConcat(a + [app], b, inventoryData);
    DeltasSingle(app, inventoryData);
  }

  /** A one-record app dataset yields its delta when that has an update, else nothing. */
  lemma DeltasSingle(app: SkuBatchRecord, inventoryData: seq<SkuBatchRecord>)
    ensures Deltas([app], inventoryData) ==
      if |DeltaFor(app, inventoryData).updates| == 0 then [] else [DeltaFor(app, inventoryData)]
  {
    var all := AllDeltas([app], inventoryData);
    assert all == [DeltaFor(app, inventoryData)];
    assert all[..0] == [];
  }

  /** Every emitted delta carries at least one update and the id of an app record that
      has an inventory counterpart, with the updates of that pair: the sentinel never
      reaches the output. */
  lemma DeltasMatched(appData: seq<SkuBatchRecord>, inventoryData: seq<SkuBatchRecord>, d: SkuBatchUpdate)
    requires d in Deltas(appData, inventoryData)
    ensures |d.updates| > 0
    ensures FindBySkuBatchId(inventoryData, d.skuBatchId).Some?
    ensures exists k :: (0 <= k < |appData| && appData[k].skuBatchId == d.skuBatchId &&
      d.updates == FieldUpdates(appData[k], FindBySkuBatchId(inventoryData, d.skuBatchId).value))
  {
    var k :| 0 <= k < |appData| && AllDeltas(appData, inventoryData)[k] == d;
    assert d == DeltaFor(appData[k], inventoryData);
  }

  /** A dataset compared with itself yields no delta, when its ids are distinct. */
  lemma {:induction false} DeltasOfSelf(data: seq<SkuBatchRecord>)
    requires forall i, j :: 0 <= i < j < |data| ==> data[i].skuBatchId != data[j].skuBatchId
    ensures Deltas(data, data) == []
  {
    var all := AllDeltas(data, data);
    forall k | 0 <= k < |data| ensures |all[k].updates| == 0 {
      var rec := data[k];
      var m := IndexOfSkuBatchId(data, rec.skuBatchId);
      assert m == k;
      FieldUpdatesEmpty(rec, rec);
    }
    NonEmptyNone(all);
  }

  lemma {:induction false} NonEmptyNone(ds: seq<SkuBatchUpdate>)
    requires forall k :: 0 <= k < |ds| ==> |ds[k].updates| == 0
    ensures NonEmpty(ds) == []
    decreases |ds|
  {
    if |ds| > 0 {
      NonEmptyNone(ds[..|ds| - 1]);
    }
  }

  /** A matched pair that differs only in quantity yields one delta with one update:
      quantityPerUnitOfMeasure set to the app's value. */
  lemma QuantityOnlyChange(app: SkuBatchRecord, inv: SkuBatchRecord)
    requires app.skuBatchId == inv.skuBatchId
    requires app.quantityPerUnitOfMeasure != inv.quantityPerUnitOfMeasure
    requires app == inv.(quantityPerUnitOfMeasure := app.quantityPerUnitOfMeasure)
    ensures Deltas([app], [inv]) ==
      [SkuBatchUpdate(app.skuBatchId, [FieldUpdate(QuantityPerUnitOfMeasure, OptionalNumber(app.quantityPerUnitOfMeasure))])]
  {
    assert !ShouldUpdate(SkuId, app, inv) && !ShouldUpdate(WmsId, app, inv);
    assert ShouldUpdate(QuantityPerUnitOfMeasure, app, inv);
    assert !ShouldUpdate(IsArchived, app, inv) && !ShouldUpdate(IsDeleted, app, inv);
    var u := FieldUpdate(QuantityPerUnitOfMeasure, OptionalNumber(app.quantityPerUnitOfMeasure));
    var fs := DiffFields;
    assert fs[..1][..0] == [] && fs[..1][0] == SkuId;
    assert FieldUpdatesOver(fs[..1], app, inv) == [];
    assert fs[..2][..1] == fs[..1] && fs[..2][1] == WmsId;
    assert FieldUpdatesOver(fs[..2], app, inv) == [];
    assert fs[..3][..2] == fs[..2] && fs[..3][2] == QuantityPerUnitOfMeasure;
    assert FieldUpdatesOver(fs[..3], app, inv) == [u];
    assert fs[..4][..3] == fs[..3] && fs[..4][3] == IsArchived;
    assert FieldUpdatesOver(fs[..4], app, inv) == [u];
    assert fs[..4] == fs[..|fs| - 1];
    assert FieldUpdates(app, inv) == [u];
    DeltasSingle(app, [inv]);
  }

  /** The case of sync.spec.ts:66-88: quantity 5 in the app against 10 in inventory. */
  lemma QuantityExample()
    ensures var app := SkuBatchRecord("1", Some("1"), Some("1"), Some(5), false, false);
            var inv := SkuBatchRecord("1", Some("1"), Some("1"), Some(10), false, false);
            var ds := Deltas([app], [inv]);
            |ds| == 1 && |ds[0].updates| == 1 &&
            FieldKey(ds[0].updates[0].field) == "quantityPerUnitOfMeasure" &&
            ds[0].updates[0].newValue == Num(5)
  {
    var app := SkuBatchRecord("1", Some("1"), Some("1"), Some(5), false, false);
    var inv := SkuBatchRecord("1", Some("1"), Some("1"), Some(10), false, false);
    QuantityOnlyChange(app, inv);
  }

  // ---------------------------------------------------------------------------
  // Update expansion (makeUpdates)

  /** The storage column of each field: the snake case of its key, declared per field
      (the source derives it with lodash `snakeCase`). */
  function ColumnName(f: Field): string {
    match f
    case SkuId => "sku_id"
    case WmsId => "wms_id"
    case QuantityPerUnitOfMeasure => "quantity_per_unit_of_measure"
    case IsArchived => "is_archived"
    case IsDeleted => "is_deleted"
  }

  /** Distinct fields are written to distinct columns. */
  lemma ColumnNameInjective(f: Field, g: Field)
    requires ColumnName(f) == ColumnName(g)
    ensures f == g
  {
  }

  /** `snake_case(field) = value` for one update. */
  function Assignment(u: FieldUpdate): string {
    ColumnName(u.field) + " = " + SqlUtil.RenderScalar(SqlUtil.FormatSqlValue(u.newValue))
  }

  /** The assignment of each update, in update order. */
  function AssignmentTexts(ups: seq<FieldUpdate>): (ts: seq<string>)
    ensures |ts| == |ups| && forall k :: 0 <= k < |ups| ==> ts[k] == Assignment(ups[k])
  {
    seq(|ups|, k requires 0 <= k < |ups| => Assignment(ups[k]))
  }

  /** The assignments joined by `'; '`, in update order. */
  function Assignments(ups: seq<FieldUpdate>): string {
    Join(AssignmentTexts(ups), "; ")
  }

  /** Every update's assignment occurs in the joined text, at a position returned. */
  lemma AssignmentPosition(ups: seq<FieldUpdate>, k: nat) returns (i: nat)
    requires k < |ups|
    ensures i + |Assignment(ups[k])| <= |Assignments(ups)|
    ensures Assignments(ups)[i..i + |Assignment(ups[k])|] == Assignment(ups[k])
  {
    i := JoinHolds(AssignmentTexts(ups), "; ", k);
  }

  const InventoryTable: string := "inventory"
  const InventoryAggregateTable: string := "inventory_aggregate"

  /** `makeUpdates`: two statements, first for `inventory` and then for
      `inventory_aggregate`, with the same assignments and the same id. */
  function MakeUpdates(delta: SkuBatchUpdate): (r: seq<string>)
    ensures |r| == 2
    ensures r[0] == SqlUtil.GetUpdateForSkuBatchRecord(InventoryTable, Assignments(delta.updates), delta.skuBatchId)
    ensures r[1] == SqlUtil.GetUpdateForSkuBatchRecord(InventoryAggregateTable, Assignments(delta.updates), delta.skuBatchId)
  {
    var updatesToMake := Assignments(delta.updates);
    [SqlUtil.GetUpdateForSkuBatchRecord(InventoryTable, updatesToMake, delta.skuBatchId),
     SqlUtil.GetUpdateForSkuBatchRecord(InventoryAggregateTable, updatesToMake, delta.skuBatchId)]
  }

  /** Both statements carry every update of the delta: its assignment occurs in each. */
  lemma MakeUpdatesCarryEveryAssignment(delta: SkuBatchUpdate, k: nat) returns (i0: nat, i1: nat)
    requires k < |delta.updates|
    ensures var r := MakeUpdates(delta); var a := Assignment(delta.updates[k]);
      i0 + |a| <= |r[0]| && r[0][i0..i0 + |a|] == a &&
      i1 + |a| <= |r[1]| && r[1][i1..i1 + |a|] == a
  {
    var a := Assignment(delta.updates[k]);
    var t := Assignments(delta.updates);
    var i := AssignmentPosition(delta.updates, k);
    i0 := SqlUtil.GetUpdateHoldsPart(InventoryTable, t, delta.skuBatchId, i, a);
    i1 := SqlUtil.GetUpdateHoldsPart(InventoryAggregateTable, t, delta.skuBatchId, i, a);
  }

  /** The statements of sync.spec.ts:107-108 for a delta setting isDeleted. */
  lemma MakeUpdatesExample()
    ensures var d := SkuBatchUpdate("sku-batch-id-5", [FieldUpdate(IsDeleted, Bool(true))]);
      MakeUpdates(d) ==
        [SqlUtil.GetUpdateForSkuBatchRecord(InventoryTable, "is_deleted = true", "sku-batch-id-5"),
         SqlUtil.GetUpdateForSkuBatchRecord(InventoryAggregateTable, "is_deleted = true", "sku-batch-id-5")]
  {
    var u := FieldUpdate(IsDeleted, Bool(true));
    assert AssignmentTexts([u]) == [Assignment(u)];
    assert Assignments([u]) == Assignment(u);
    assert Assignment(u) == "is_deleted" + " = " + "true";
    assert "is_deleted" + " = " + "true" == "is_deleted = true";
  }

  // ---------------------------------------------------------------------------
  // Composition (findChangesBetweenDatasets, copyMissing..., updateInventoryDeltas..., sync)

  /** `flatMap(makeUpdates)` over the deltas. */
  function UpdateStatements(deltas: seq<SkuBatchUpdate>): seq<string> {
    Flatten(UpdateBlocks(deltas))
  }

  function UpdateBlocks(deltas: seq<SkuBatchUpdate>): (bs: seq<seq<string>>)
    ensures |bs| == |deltas| && forall k :: 0 <= k < |deltas| ==> bs[k] == MakeUpdates(deltas[k])
  {
    seq(|deltas|, k requires 0 <= k < |deltas| => MakeUpdates(deltas[k]))
  }

  /** Two statements per delta, in delta order: statements `2k` and `2k + 1` are the
      inventory and inventory_aggregate updates of delta `k`. */
  lemma UpdateStatementsAt(deltas: seq<SkuBatchUpdate>, k: nat)
    requires k < |deltas|
    ensures |UpdateStatements(deltas)| == 2 * |deltas|
    ensures UpdateStatements(deltas)[2 * k] == MakeUpdates(deltas[k])[0]
    ensures UpdateStatements(deltas)[2 * k + 1] == MakeUpdates(deltas[k])[1]
  {
    var bs := UpdateBlocks(deltas);
    assert forall m :: 0 <= m < |bs| ==> |bs[m]| == 2;
    FlattenAt(bs, 2, k, 0);
    FlattenAt(bs, 2, k, 1);
    assert k * 2 == 2 * k && |bs| * 2 == 2 * |deltas|;
  }

  lemma UpdateStatementsLength(deltas: seq<SkuBatchUpdate>)
    ensures |UpdateStatements(deltas)| == 2 * |deltas|
  {
    FlattenLength(UpdateBlocks(deltas), 2);
  }

  /** `findChangesBetweenDatasets`: the update statements of the deltas between the app
      dataset and the inventory dataset. In the source the inventory side is the global
      `appSkuBatchData` and the app side `appSkuBatchDataForSkuBatchIds`. */
  method FindChangesBetweenDatasets(inventoryData: seq<SkuBatchRecord>, appData: seq<SkuBatchRecord>)
    returns (updates: seq<string>)
    ensures updates == UpdateStatements(Deltas(appData, inventoryData))
    ensures |updates| == 2 * |Deltas(appData, inventoryData)|
  {
    var accum: seq<string> := [];
    var deltas := FindDeltas(appData, inventoryData);
    var ds := UpdateStatements(deltas);
    accum := accum + ds;
    updates := accum;
    UpdateStatementsLength(deltas);
  }

  /** `copyMissingInventoryRecordsFromSkuBatch`: the inserts for the app ids missing
      from inventory, handed to the sink. */
  method CopyMissingInventoryRecordsFromSkuBatch(
    appRows: seq<AppSkuBatchId>, inventoryRows: seq<InventorySkuBatchId>,
    appData: seq<SkuBatchRecord>, ws: seq<Warehouse>)
    returns (inserts: seq<string>)
    ensures inserts == InsertStatements(GetDeltas(appRows, inventoryRows), appData, ws)
  {
    var skuBatchIdsToInsert := GetDeltas(appRows, inventoryRows);
    var badCount;
    inserts, badCount := SkuBatchToInserts(skuBatchIdsToInsert, appData, ws);
  }

  /** `updateInventoryDeltasFromSkuBatch`: the updates between the two datasets, handed
      to the sink. */
  method UpdateInventoryDeltasFromSkuBatch(inventoryData: seq<SkuBatchRecord>, appData: seq<SkuBatchRecord>)
    returns (sqlUpdates: seq<string>)
    ensures sqlUpdates == UpdateStatements(Deltas(appData, inventoryData))
  {
    sqlUpdates := FindChangesBetweenDatasets(inventoryData, appData);
  }

  /** `sync`: the statement batches handed to the sink, in the order they are handed
      over: the inserts of the missing ids first, the updates of the changed records
      second. */
  method Sync(
    appRows: seq<AppSkuBatchId>, inventoryRows: seq<InventorySkuBatchId>,
    appData: seq<SkuBatchRecord>, ws: seq<Warehouse>,
    inventoryData: seq<SkuBatchRecord>, appDataForIds: seq<SkuBatchRecord>)
    returns (executed: seq<seq<string>>)
    ensures |executed| == 2
    ensures executed[0] == InsertStatements(GetDeltas(appRows, inventoryRows), appData, ws)
    ensures executed[1] == UpdateStatements(Deltas(appDataForIds, inventoryData))
  {
    executed := [];
    var inserts := CopyMissingInventoryRecordsFromSkuBatch(appRows, inventoryRows, appData, ws);
    executed := executed + [inserts];
    var updates := UpdateInventoryDeltasFromSkuBatch(inventoryData, appDataForIds);
    executed := executed + [updates];
  }

  /** Every statement of the insert batch is an insert. */
  lemma InsertStatementsAreInserts(ids: seq<string>, appData: seq<SkuBatchRecord>, ws: seq<Warehouse>)
    ensures forall s :: s in InsertStatements(ids, appData, ws) ==> |s| >= 7 && s[..7] == "insert "
  {
    var ins := InsertStatements(ids, appData, ws);
    var rs := InsertRecords(ids, appData, ws);
    forall s | s in ins ensures |s| >= 7 && s[..7] == "insert " {
      var m :| 0 <= m < |ins| && ins[m] == s;
      SqlUtil.InsertTextStartsWithInsert(rs[m].skuId, rs[m].skuBatchId);
    }
  }

  /** Every statement of the update batch is an update. */
  lemma UpdateStatementsAreUpdates(deltas: seq<SkuBatchUpdate>)
    ensures forall s :: s in UpdateStatements(deltas) ==> |s| >= 7 && s[..7] == "update "
  {
    var ups := UpdateStatements(deltas);
    UpdateStatementsLength(deltas);
    forall m | 0 <= m < |ups| ensures |ups[m]| >= 7 && ups[m][..7] == "update " {
      var k := m / 2;
      UpdateStatementsAt(deltas, k);
      var t, id := Assignments(deltas[k].updates), deltas[k].skuBatchId;
      if m == 2 * k {
        assert ups[m] == SqlUtil.GetUpdateForSkuBatchRecord(InventoryTable, t, id);
        SqlUtil.GetUpdateStartsWithUpdate(InventoryTable, t, id);
      } else {
        assert m == 2 * k + 1;
        assert ups[m] == SqlUtil.GetUpdateForSkuBatchRecord(InventoryAggregateTable, t, id);
        SqlUtil.GetUpdateStartsWithUpdate(InventoryAggregateTable, t, id);
      }
    }
  }
}
