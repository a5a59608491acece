/**
 * Client code in the manner of CommoditySnapshotServiceTest: each method runs one of its
 * scenarios against the services and asserts what the test asserts, using only their contracts
 * and the lemmas about them.
 */
module Scenarios {
  import opened Outcomes
  import opened Models
  import opened Decimal
  import opened Stock
  import opened Snapshots
  import opened DispensingRecorder

  const PANADO: CommodityId := "Panado"
  const OTHER_DRUG: CommodityId := "other drug"
  const PANADO_ACTIVITY_ID: ActivityId := "panado-activity-id"
  const OTHER_DRUG_ACTIVITY_ID: ActivityId := "other-drug-activity-id"

  /** The catalog of the test: each of the two commodities has one DISPENSE activity. */
  function Catalog(c: CommodityId): Option<ActivityId> {
    if c == PANADO then Some(PANADO_ACTIVITY_ID)
    else if c == OTHER_DRUG then Some(OTHER_DRUG_ACTIVITY_ID)
    else None
  }

  method ShouldCreateNewDailyCommoditySnapshotIfNotExist(today: int) {
    var service := new CommoditySnapshotService();
    var ok1 := service.Add(PANADO, 3, Catalog, today);
    var ok2 := service.Add(OTHER_DRUG, 4, Catalog, today);
    assert |service.snapshots| == 2;
    assert service.snapshots[0].value == 3;
    assert DecimalString(service.snapshots[0].value) == "3";
  }

  method ShouldUpdateDailyCommoditySummaryIfItExists(today: int) {
    var service := new CommoditySnapshotService();
    var ok := service.Add(PANADO, 3, Catalog, today);
    ok := service.Add(PANADO, 3, Catalog, today);
    ok := service.Add(PANADO, 3, Catalog, today);
    assert |service.snapshots| == 1;
    assert service.snapshots[0].value == 9;
    assert DecimalString(service.snapshots[0].value) == "9";
  }

  method ShouldMarkSyncedItemAsUnSyncedWhenAnUpdateOccurs(today: int) {
    var service := new CommoditySnapshotService();
    var ok := service.Add(PANADO, 3, Catalog, today);
    var batch := service.SyncWithServer("orgUnit", true);
    assert service.snapshots[0].synced;
    ok := service.Add(PANADO, 3, Catalog, today);
    assert |service.snapshots| == 1;
    assert !service.snapshots[0].synced;
  }

  method ShouldGetCommoditySnapshotsWithSyncedAsFalse(today: int) {
    var service := new CommoditySnapshotService();
    var ok := service.Add(PANADO, 3, Catalog, today);
    var batch := service.SyncWithServer("orgUnit", true);
    var s0 := service.snapshots[0];
    assert s0.synced && |service.snapshots| == 1 && service.snapshots == [] + [s0];
    ok := service.Add(OTHER_DRUG, 4, Catalog, today);
    var s1 := NewSnapshot(SnapshotKey(OTHER_DRUG, OTHER_DRUG_ACTIVITY_ID, today), 4);
    assert Find([s0], s1.Key()).None?;
    assert service.snapshots == [s0] + [s1];
    var unsynced := service.GetUnSyncedSnapshots();
    assert s1 in unsynced && s0 !in unsynced;
    assert |unsynced| == 1 by {
      UnSyncedAppend([], s0);
      UnSyncedAppend([s0], s1);
    }
  }

  method ShouldConvertSnapshotsToDataValueSets(today: int) {
    var snapshot1 := CommoditySnapshot(PANADO, PANADO_ACTIVITY_ID, today, 3, false);
    var snapshot2 := CommoditySnapshot(OTHER_DRUG, OTHER_DRUG_ACTIVITY_ID, today, 8, false);
    var valueSet := DataValueSetFrom([snapshot1, snapshot2], "orgUnit");
    assert |valueSet.dataValues| == 2;
    assert valueSet.dataValues[0].value == "3" && valueSet.dataValues[1].value == "8";
    assert valueSet.dataValues[0].dataElement == PANADO_ACTIVITY_ID;
  }

  method ShouldMarkSnapshotsAsSyncedIfSyncIsSuccessful(today: int) {
    var service := new CommoditySnapshotService();
    var ok := service.Add(PANADO, 3, Catalog, today);
    ok := service.Add(OTHER_DRUG, 8, Catalog, today);
    var before := service.GetUnSyncedSnapshots();
    assert |before| == 2 by {
      var s0, s1 := service.snapshots[0], service.snapshots[1];
      assert service.snapshots == [s0] + [s1] && [s0] == [] + [s0];
      UnSyncedAppend([], s0);
      UnSyncedAppend([s0], s1);
    }
    var table := service.snapshots;
    var batch := service.SyncWithServer("orgUnit", true);
    MarkedSyncedClears(table);
    var after := service.GetUnSyncedSnapshots();
    assert after == [];
  }

  method ShouldNotMarkSnapshotsAsSyncedIfSyncFails(today: int) {
    var service := new CommoditySnapshotService();
    var ok := service.Add(PANADO, 3, Catalog, today);
    var s0 := NewSnapshot(SnapshotKey(PANADO, PANADO_ACTIVITY_ID, today), 3);
    assert service.snapshots == [] + [s0];
    ok := service.Add(OTHER_DRUG, 8, Catalog, today);
    var s1 := NewSnapshot(SnapshotKey(OTHER_DRUG, OTHER_DRUG_ACTIVITY_ID, today), 8);
    assert Find([s0], s1.Key()).None?;
    assert service.snapshots == [s0] + [s1];
    var before := service.GetUnSyncedSnapshots();
    assert |before| == 2 by {
      UnSyncedAppend([], s0);
      UnSyncedAppend([s0], s1);
    }
    var batch := service.SyncWithServer("orgUnit", false);
    var after := service.GetUnSyncedSnapshots();
    assert after == before && |after| == 2;
  }

  /** Record 3 then 4, sync, then record 1: one row throughout, "7", synced, then "8" unsynced. */
  method RecordSyncRecord(today: int) {
    var service := new CommoditySnapshotService();
    var ok := service.Add(PANADO, 3, Catalog, today);
    ok := service.Add(PANADO, 4, Catalog, today);
    assert |service.snapshots| == 1 && !service.snapshots[0].synced;
    assert DecimalString(service.snapshots[0].value) == "7";
    var batch := service.SyncWithServer("orgUnit", true);
    assert service.snapshots[0].synced;
    ok := service.Add(PANADO, 1, Catalog, today);
    assert |service.snapshots| == 1 && !service.snapshots[0].synced;
    assert DecimalString(service.snapshots[0].value) == "8";
  }

  /**
   * A dispensing whose second line names a commodity without an activity: the whole batch is
   * rolled back, so the first commodity's stock level is what it was.
   */
  method RollbackWhenSecondLineHasNoActivity(today: int) {
    var stock := new StockService([StockItem(PANADO, 10), StockItem("unknown", 5)]);
    var snapshots := new CommoditySnapshotService();
    var recorder := new DispensingService(stock, snapshots);
    var lines := [LineItem(PANADO, 3), LineItem("unknown", 1)];
    var committed := recorder.AddDispensing(Dispensing(today, false, "0001-Jan"), lines, Catalog, today);
    assert !AllResolved(lines, Catalog) by {
      assert Catalog(lines[1].commodity).None?;
    }
    assert !committed;
    assert recorder.dispensings == [] && recorder.items == [];
    var level := stock.StockLevelFor(PANADO);
    SingleRowLevel(stock.rows, PANADO, 0);
    assert level == Success(10);
  }
}
