/** The three predicates of sync.ts exactly as they are written, next to the intended
    forms in `Sync`, with inputs on which the two differ. Nothing else in the model uses
    this module. */
module SyncAsWritten {
  import opened Options
  import opened Seqs
  import opened Records
  import opened Sync

  // ---------------------------------------------------------------------------
  // The app-record lookup of skuBatchToInserts (sync.ts:54-56)

  /** `appData.find(r => r.skuBatchId != skuBatchId)`: the first app record whose id is
      NOT the one asked for. */
  function FindAppRecordAsWritten(appData: seq<SkuBatchRecord>, skuBatchId: string): (r: Option<SkuBatchRecord>)
    ensures r.None? <==> forall k :: 0 <= k < |appData| ==> appData[k].skuBatchId == skuBatchId
    ensures r.Some? ==> r.value in appData && r.value.skuBatchId != skuBatchId
    decreases |appData|
  {
    if |appData| == 0 then None
    else if appData[0].skuBatchId != skuBatchId then Some(appData[0])
    else
      var rest := FindAppRecordAsWritten(appData[1..], skuBatchId);
      assert forall k :: 1 <= k < |appData| ==> appData[k] == appData[1..][k - 1];
      rest
  }

  /** With two app records, asking for the first returns the second; the intended lookup
      returns the first. */
  lemma FindAppRecordAsWrittenMisses(a: SkuBatchRecord, b: SkuBatchRecord)
    requires a.skuBatchId != b.skuBatchId
    ensures FindAppRecordAsWritten([a, b], a.skuBatchId) == Some(b)
    ensures FindAppRecord([a, b], a.skuBatchId) == Some(a)
  {
    assert [a, b][1..] == [b];
  }

  /** With one app record, asking for it finds nothing, so skuBatchToInserts as written
      counts that id as bad although its record is there. */
  lemma FindAppRecordAsWrittenLosesOnlyRecord(a: SkuBatchRecord)
    ensures FindAppRecordAsWritten([a], a.skuBatchId) == None
    ensures FindAppRecord([a], a.skuBatchId) == Some(a)
  {
  }

  // ---------------------------------------------------------------------------
  // The missing-id filter of getDeltas (sync.ts:82-83)

  /** `[...new Set(appIds)].filter(x => inventorySkuBatchIds.has(x))`: the distinct app
      ids that inventory already HAS. */
  function GetDeltasAsWritten(appRows: seq<AppSkuBatchId>, inventoryRows: seq<InventorySkuBatchId>): (r: seq<string>)
    ensures forall x :: x in r <==>
      (exists k :: 0 <= k < |appRows| && appRows[k].id == x) &&
      (exists j :: 0 <= j < |inventoryRows| && inventoryRows[j].skuBatchId == x)
  {
    Within(Dedup(AppIds(appRows)), InventoryIdSet(inventoryRows))
  }

  /** Among the app ids, the literal filter keeps exactly those the intended one drops. */
  lemma GetDeltasAsWrittenIsComplement(appRows: seq<AppSkuBatchId>, inventoryRows: seq<InventorySkuBatchId>, x: string)
    requires x in AppIds(appRows)
    ensures x in GetDeltasAsWritten(appRows, inventoryRows) <==> x !in GetDeltas(appRows, inventoryRows)
  {
  }

  /** On the shape of the test at sync.spec.ts:56-60 (inventory's ids followed by new
      ones) the literal filter returns the ids inventory already has, and none of the new
      ones, which the intended filter returns. */
  lemma NewIdsAsWritten(appRows: seq<AppSkuBatchId>, inventoryRows: seq<InventorySkuBatchId>, known: seq<string>, added: seq<string>)
    requires AppIds(appRows) == known + added && NoDuplicates(known + added)
    requires forall x :: x in known <==> exists j :: 0 <= j < |inventoryRows| && inventoryRows[j].skuBatchId == x
    ensures forall x :: x in GetDeltasAsWritten(appRows, inventoryRows) <==> x in known
    ensures GetDeltas(appRows, inventoryRows) == added
  {
    NewIdsMissing(appRows, inventoryRows, known, added);
    forall x | x in known ensures exists k :: 0 <= k < |appRows| && appRows[k].id == x {
      var k :| 0 <= k < |known| && known[k] == x;
      assert AppIds(appRows)[k] == x;
    }
  }

  // ---------------------------------------------------------------------------
  // The final filter of findDeltas (sync.ts:156)

  /** `.filter(sbu => sbu.updates.length == 0)`: keeps the deltas with NO update. */
  function EmptyOnly(ds: seq<SkuBatchUpdate>): (r: seq<SkuBatchUpdate>)
    ensures forall d :: d in r <==> d in ds && |d.updates| == 0
    ensures |r| <= |ds|
    decreases |ds|
  {
    if |ds| == 0 then []
    else EmptyOnly(ds[..|ds| - 1]) + (if |ds[|ds| - 1].updates| == 0 then [ds[|ds| - 1]] else [])
  }

  /** `findDeltas` as written. */
  function FindDeltasAsWritten(appData: seq<SkuBatchRecord>, inventoryData: seq<SkuBatchRecord>): seq<SkuBatchUpdate> {
    EmptyOnly(AllDeltas(appData, inventoryData))
  }

  /** Every delta of the literal form is empty, so every statement built from it sets
      nothing: the update pass as written changes no column. */
  lemma FindDeltasAsWrittenSetsNothing(appData: seq<SkuBatchRecord>, inventoryData: seq<SkuBatchRecord>, d: SkuBatchUpdate)
    requires d in FindDeltasAsWritten(appData, inventoryData)
    ensures d.updates == []
    ensures MakeUpdates(d)[0] == SqlUtil.GetUpdateForSkuBatchRecord(InventoryTable, "", d.skuBatchId)
    ensures MakeUpdates(d)[1] == SqlUtil.GetUpdateForSkuBatchRecord(InventoryAggregateTable, "", d.skuBatchId)
  {
  }

  /** Each mapped delta is kept by exactly one of the two filters. */
  lemma FindDeltasPartition(appData: seq<SkuBatchRecord>, inventoryData: seq<SkuBatchRecord>, d: SkuBatchUpdate)
    requires d in AllDeltas(appData, inventoryData)
    ensures d in FindDeltasAsWritten(appData, inventoryData) <==> d !in Deltas(appData, inventoryData)
  {
  }

  /** The test at sync.spec.ts:84-88 (a pair differing only in quantity) gets no delta
      from the literal form; the intended form gives the one delta it expects. */
  lemma FindDeltasAsWrittenDropsChange(app: SkuBatchRecord, inv: SkuBatchRecord)
    requires app.skuBatchId == inv.skuBatchId
    requires app.quantityPerUnitOfMeasure != inv.quantityPerUnitOfMeasure
    requires app == inv.(quantityPerUnitOfMeasure := app.quantityPerUnitOfMeasure)
    ensures FindDeltasAsWritten([app], [inv]) == []
    ensures |Deltas([app], [inv])| == 1
  {
    QuantityOnlyChange(app, inv);
    DeltasSingle(app, [inv]);
    var d := DeltaFor(app, [inv]);
    assert |d.updates| == 1;
    var all := AllDeltas([app], [inv]);
    assert all == [d];
    assert all[..0] == [];
    assert EmptyOnly(all) == EmptyOnly(all[..0]);
  }

  /** An app record with no inventory record reaches the output of the literal form as
      the placeholder delta with an empty id. */
  lemma FindDeltasAsWrittenKeepsPlaceholder(app: SkuBatchRecord, inventoryData: seq<SkuBatchRecord>)
    requires FindBySkuBatchId(inventoryData, app.skuBatchId).None?
    ensures FindDeltasAsWritten([app], inventoryData) == [SkuBatchUpdate("", [])]
    ensures Deltas([app], inventoryData) == []
  {
    var all := AllDeltas([app], inventoryData);
    assert all == [SkuBatchUpdate("", [])];
    assert all[..0] == [];
    DeltasSingle(app, inventoryData);
  }
}
