/**
 * The snapshot aggregator and sync marking (CommoditySnapshotService), with the behaviour that
 * its test fixes: one counter row per (commodity, activity, day), created by the first add of
 * its key and incremented by every later one; any increment makes the row unsynced; a sync
 * pushes the unsynced rows and marks them synced only when the push succeeds.
 */
module Snapshots {
  import opened Outcomes
  import opened Models
  import opened Decimal

  /** The table invariant: no two rows share a key. */
  ghost predicate UniqueKeys(rows: seq<CommoditySnapshot>) {
    forall i, j :: 0 <= i < j < |rows| ==> rows[i].Key() != rows[j].Key()
  }

  /** The indices of the rows with the given key. */
  ghost function KeyIndices(rows: seq<CommoditySnapshot>, key: SnapshotKey): set<int> {
    set i | 0 <= i < |rows| && rows[i].Key() == key
  }

  /** The lookup of a snapshot by its key: the first row that has it, if any. */
  function Find(rows: seq<CommoditySnapshot>, key: SnapshotKey): (r: Option<nat>)
    ensures r.Some? ==> r.value < |rows| && rows[r.value].Key() == key
    ensures r.Some? ==> forall j :: 0 <= j < r.value ==> rows[j].Key() != key
    ensures r.None? <==> forall i :: 0 <= i < |rows| ==> rows[i].Key() != key
  {
    if rows == [] then None
    else if rows[0].Key() == key then Some(0)
    else
      match Find(rows[1..], key)
      case Some(j) => Some(j + 1)
      case None => None
  }

  /** The lookup returns the first row with the key, whatever else the table holds. */
  lemma FindFirst(rows: seq<CommoditySnapshot>, key: SnapshotKey, a: nat)
    requires a < |rows| && rows[a].Key() == key
    requires forall j :: 0 <= j < a ==> rows[j].Key() != key
    ensures Find(rows, key) == Some(a)
  {
  }

  /** A fresh counter: the quantity is its value, and it has not been pushed. */
  function NewSnapshot(key: SnapshotKey, quantity: int): (s: CommoditySnapshot)
    ensures s.Key() == key && s.value == quantity && !s.synced
  {
    CommoditySnapshot(key.commodity, key.activity, key.day, quantity, false)
  }

  /** The table after one add of a quantity under a key: create the row, or increment it. */
  function Added(rows: seq<CommoditySnapshot>, key: SnapshotKey, quantity: int): (r: seq<CommoditySnapshot>)
    ensures |r| == |rows| + (if Find(rows, key).Some? then 0 else 1)
    ensures forall i :: 0 <= i < |rows| ==> r[i].Key() == rows[i].Key()
    ensures Find(rows, key).None? ==> r[|rows|] == NewSnapshot(key, quantity)
  {
    match Find(rows, key)
    case Some(i) => rows[i := rows[i].(value := rows[i].value + quantity, synced := false)]
    case None => rows + [NewSnapshot(key, quantity)]
  }

  /** The counter of a key, where a key without a row counts as 0. */
  function ValueOf(rows: seq<CommoditySnapshot>, key: SnapshotKey): int {
    match Find(rows, key)
    case Some(i) => rows[i].value
    case None => 0
  }

  /**
   * One add: the key ends with exactly one row, whose value grew by the quantity and which is
   * unsynced, even if it had been synced; a row is appended only for a new key; every row of
   * another key is untouched; keys stay unique.
   */
  lemma AddedEffect(rows: seq<CommoditySnapshot>, key: SnapshotKey, quantity: int)
    requires UniqueKeys(rows)
    ensures var r := Added(rows, key, quantity);
      && UniqueKeys(r)
      && |KeyIndices(r, key)| == 1
      && ValueOf(r, key) == ValueOf(rows, key) + quantity
      && Find(r, key).Some? && !r[Find(r, key).value].synced
      && |r| == |rows| + (if Find(rows, key).Some? then 0 else 1)
      && (forall i :: 0 <= i < |rows| ==> r[i].Key() == rows[i].Key())
      && (forall i :: 0 <= i < |rows| && rows[i].Key() != key ==> r[i] == rows[i])
  {
    var r := Added(rows, key, quantity);
    match Find(rows, key)
    case Some(i) =>
      assert forall j :: 0 <= j < |r| ==> r[j].Key() == rows[j].Key();
      assert KeyIndices(r, key) == {i};
    case None =>
      var n := |rows|;
      FindFirst(r, key, n);
      assert KeyIndices(r, key) == {n};
  }

  /** An add under one key does not change what the lookup finds for any other key. */
  lemma AddedOtherKey(rows: seq<CommoditySnapshot>, key: SnapshotKey, quantity: int, other: SnapshotKey)
    requires other != key
    ensures Find(Added(rows, key, quantity), other) == Find(rows, other)
    ensures ValueOf(Added(rows, key, quantity), other) == ValueOf(rows, other)
    ensures KeyIndices(Added(rows, key, quantity), other) == KeyIndices(rows, other)
    ensures forall i :: 0 <= i < |rows| && rows[i].Key() == other ==> Added(rows, key, quantity)[i] == rows[i]
  {
    var r := Added(rows, key, quantity);
    match Find(rows, other)
    case Some(a) =>
      FindFirst(r, other, a);
    case None =>
    assert forall j :: 0 <= j < |rows| ==> r[j].Key() == rows[j].Key();
  }

  /** Every line of a dispensing has an activity, so every snapshot add of it succeeds. */
  predicate AllResolved(lines: seq<LineItem>, activityOf: CommodityId -> Option<ActivityId>) {
    forall i :: 0 <= i < |lines| ==> activityOf(lines[i].commodity).Some?
  }

  /** The snapshot key one dispensed line is counted under. */
  function LineKey(line: LineItem, activityOf: CommodityId -> Option<ActivityId>, today: int): (k: SnapshotKey)
    requires activityOf(line.commodity).Some?
    ensures k.commodity == line.commodity && k.activity == activityOf(line.commodity).value && k.day == today
  {
    SnapshotKey(line.commodity, activityOf(line.commodity).value, today)
  }

  /** The table after one add per line, in line order. */
  function AddedForLines(rows: seq<CommoditySnapshot>, lines: seq<LineItem>,
                         activityOf: CommodityId -> Option<ActivityId>, today: int): (r: seq<CommoditySnapshot>)
    requires AllResolved(lines, activityOf)
    ensures |r| >= |rows|
  {
    if lines == [] then rows
    else
      var init, last := lines[..|lines| - 1], lines[|lines| - 1];
      assert AllResolved(init, activityOf) by {
        assert forall i :: 0 <= i < |init| ==> init[i] == lines[i];
      }
      Added(AddedForLines(rows, init, activityOf, today), LineKey(last, activityOf, today), last.quantity)
  }

  /** The total quantity of the lines that are counted under a key. */
  function KeyedTotal(lines: seq<LineItem>, key: SnapshotKey,
                      activityOf: CommodityId -> Option<ActivityId>, today: int): int
    requires AllResolved(lines, activityOf)
  {
    if lines == [] then 0
    else
      var init, last := lines[..|lines| - 1], lines[|lines| - 1];
      assert AllResolved(init, activityOf) by {
        assert forall i :: 0 <= i < |init| ==> init[i] == lines[i];
      }
      KeyedTotal(init, key, activityOf, today) + (if LineKey(last, activityOf, today) == key then last.quantity else 0)
  }

  /**
   * Adding the lines of a dispensing: every key's counter grows by exactly the quantities of the
   * lines counted under it, so each line is counted once, and keys stay unique.
   */
  lemma {:induction false} AddedForLinesValue(rows: seq<CommoditySnapshot>, lines: seq<LineItem>,
                                             activityOf: CommodityId -> Option<ActivityId>, today: int,
                                             key: SnapshotKey)
    requires UniqueKeys(rows) && AllResolved(lines, activityOf)
    ensures UniqueKeys(AddedForLines(rows, lines, activityOf, today))
    ensures ValueOf(AddedForLines(rows, lines, activityOf, today), key) ==
            ValueOf(rows, key) + KeyedTotal(lines, key, activityOf, today)
  {
    if lines != [] {
      var init, last := lines[..|lines| - 1], lines[|lines| - 1];
      assert forall i :: 0 <= i < |init| ==> init[i] == lines[i];
      AddedForLinesValue(rows, init, activityOf, today, key);
      var before := AddedForLines(rows, init, activityOf, today);
      var k := LineKey(last, activityOf, today);
      AddedEffect(before, k, last.quantity);
      if k != key {
        AddedOtherKey(before, k, last.quantity, key);
      }
    }
  }

  /**
   * After the lines of a dispensing are added, the key of each line has exactly one row, and
   * that row is unsynced: repeated adds of one key never create a second row.
   */
  lemma {:induction false} AddedForLinesTouched(rows: seq<CommoditySnapshot>, lines: seq<LineItem>,
                                               activityOf: CommodityId -> Option<ActivityId>, today: int,
                                               i: nat)
    requires UniqueKeys(rows) && AllResolved(lines, activityOf) && i < |lines|
    ensures var r, key := AddedForLines(rows, lines, activityOf, today), LineKey(lines[i], activityOf, today);
      && |KeyIndices(r, key)| == 1
      && Find(r, key).Some? && !r[Find(r, key).value].synced
  {
    var init, last := lines[..|lines| - 1], lines[|lines| - 1];
    assert forall j :: 0 <= j < |init| ==> init[j] == lines[j];
    var before := AddedForLines(rows, init, activityOf, today);
    var k, key := LineKey(last, activityOf, today), LineKey(lines[i], activityOf, today);
    AddedForLinesValue(rows, init, activityOf, today, key);
    if k == key {
      AddedEffect(before, k, last.quantity);
    } else {
      AddedForLinesTouched(rows, init, activityOf, today, i);
      AddedOtherKey(before, k, last.quantity, key);
    }
  }

  /**
   * A dispensing leaves alone every row whose key none of its lines is counted under: its value
   * and its synced flag stay as they were, at the same position.
   */
  lemma {:induction false} AddedForLinesUntouched(rows: seq<CommoditySnapshot>, lines: seq<LineItem>,
                                                 activityOf: CommodityId -> Option<ActivityId>, today: int,
                                                 j: nat)
    requires AllResolved(lines, activityOf) && j < |rows|
    requires forall l :: 0 <= l < |lines| ==> LineKey(lines[l], activityOf, today) != rows[j].Key()
    ensures j < |AddedForLines(rows, lines, activityOf, today)|
    ensures AddedForLines(rows, lines, activityOf, today)[j] == rows[j]
  {
    if lines != [] {
      var init, last := lines[..|lines| - 1], lines[|lines| - 1];
      assert forall l :: 0 <= l < |init| ==> init[l] == lines[l];
      AddedForLinesUntouched(rows, init, activityOf, today, j);
      var before := AddedForLines(rows, init, activityOf, today);
      AddedOtherKey(before, LineKey(last, activityOf, today), last.quantity, rows[j].Key());
    }
  }

  /** The indices of the rows not yet pushed. */
  ghost function UnSyncedIndices(rows: seq<CommoditySnapshot>): set<int> {
    set i | 0 <= i < |rows| && !rows[i].synced
  }

  lemma UnSyncedIndicesAppend(init: seq<CommoditySnapshot>, last: CommoditySnapshot)
    ensures UnSyncedIndices(init + [last]) == UnSyncedIndices(init) + (if last.synced then {} else {|init|})
    ensures |init| !in UnSyncedIndices(init)
  {
    var rows := init + [last];
    assert forall i :: 0 <= i < |init| ==> rows[i] == init[i];
  }

  /**
   * The rows not yet pushed: exactly those with synced == false, in table order, each of them
   * once, so there are as many as the table has unsynced rows.
   */
  function UnSynced(rows: seq<CommoditySnapshot>): (r: seq<CommoditySnapshot>)
    ensures forall x :: x in r <==> x in rows && !x.synced
    ensures |r| == |UnSyncedIndices(rows)|
  {
    if rows == [] then []
    else
      var init, last := rows[..|rows| - 1], rows[|rows| - 1];
      assert rows == init + [last];
      UnSyncedIndicesAppend(init, last);
      UnSynced(init) + (if last.synced then [] else [last])
  }

  /** One more row: it is selected after the others exactly when it is unsynced. */
  lemma UnSyncedAppend(rows: seq<CommoditySnapshot>, x: CommoditySnapshot)
    ensures UnSynced(rows + [x]) == UnSynced(rows) + (if x.synced then [] else [x])
  {
    assert (rows + [x])[..|rows|] == rows;
  }

  /** getDataValueSetFromSnapshots, entry by entry: one data value per snapshot, in order. */
  function DataValues(snapshots: seq<CommoditySnapshot>, orgUnit: string): (r: seq<DataValue>)
    ensures |r| == |snapshots|
    ensures forall i :: 0 <= i < |r| ==>
      && r[i].dataElement == snapshots[i].activity
      && r[i].value == DecimalString(snapshots[i].value)
      && r[i].orgUnit == orgUnit
      && r[i].period == snapshots[i].day
  {
    if snapshots == [] then []
    else
      var s := snapshots[|snapshots| - 1];
      DataValues(snapshots[..|snapshots| - 1], orgUnit) + [DataValue(s.activity, DecimalString(s.value), orgUnit, s.day)]
  }

  /** getDataValueSetFromSnapshots: the outbound batch for an org unit. */
  function DataValueSetFrom(snapshots: seq<CommoditySnapshot>, orgUnit: string): (r: DataValueSet)
    ensures |r.dataValues| == |snapshots|
  {
    DataValueSet(DataValues(snapshots, orgUnit))
  }

  /** The pushed text of every counter reads back as the counter itself. */
  lemma DataValuesReadBack(snapshots: seq<CommoditySnapshot>, orgUnit: string, i: nat)
    requires i < |snapshots|
    ensures ParseInt(DataValueSetFrom(snapshots, orgUnit).dataValues[i].value) == Some(snapshots[i].value)
  {
    DecimalRoundTrip(snapshots[i].value);
  }

  /** The table after a successful push of all unsynced rows. */
  function MarkedSynced(rows: seq<CommoditySnapshot>): (r: seq<CommoditySnapshot>)
    ensures |r| == |rows|
    ensures forall i :: 0 <= i < |r| ==> r[i].synced && r[i].Key() == rows[i].Key() && r[i].value == rows[i].value
  {
    seq(|rows|, i requires 0 <= i < |rows| => rows[i].(synced := true))
  }

  /** A successful sync leaves no unsynced row. */
  lemma MarkedSyncedClears(rows: seq<CommoditySnapshot>)
    ensures UnSynced(MarkedSynced(rows)) == []
  {
    NoneUnSynced(MarkedSynced(rows));
  }

  lemma {:induction false} NoneUnSynced(rows: seq<CommoditySnapshot>)
    requires forall i :: 0 <= i < |rows| ==> rows[i].synced
    ensures UnSynced(rows) == []
  {
    if rows != [] {
      NoneUnSynced(rows[..|rows| - 1]);
    }
  }

  /**
   * A successful sync touches only the pushed batch: each of its rows is now synced with key
   * and value unchanged, and every row outside it is as it was, so keys stay unique.
   */
  lemma MarkedSyncedEffect(rows: seq<CommoditySnapshot>)
    ensures forall i :: 0 <= i < |rows| ==>
      MarkedSynced(rows)[i] == (if rows[i] in UnSynced(rows) then rows[i].(synced := true) else rows[i])
    ensures UniqueKeys(rows) ==> UniqueKeys(MarkedSynced(rows))
  {
    var r := MarkedSynced(rows);
    forall i | 0 <= i < |rows|
      ensures r[i] == (if rows[i] in UnSynced(rows) then rows[i].(synced := true) else rows[i])
    {
      assert rows[i] in rows;
    }
    forall i | 0 <= i < |rows| ensures r[i].Key() == rows[i].Key() {
    }
  }

  /** The snapshot table, changed in place by add and by a successful sync. */
  class CommoditySnapshotService {
    var snapshots: seq<CommoditySnapshot>

    ghost predicate Valid()
      reads this
    {
      UniqueKeys(snapshots)
    }

    constructor ()
      ensures Valid() && snapshots == []
    {
      snapshots := [];
    }

    /**
     * add: resolve the activity of the commodity, then create or increment the counter of
     * (commodity, activity, today). A commodity without an activity is a configuration error:
     * nothing changes and the call reports failure.
     */
    method Add(commodity: CommodityId, quantity: int, activityOf: CommodityId -> Option<ActivityId>, today: int)
      returns (added: bool)
      requires Valid()
      modifies this
      ensures Valid()
      ensures added == activityOf(commodity).Some?
      ensures added ==> snapshots == Added(old(snapshots), SnapshotKey(commodity, activityOf(commodity).value, today), quantity)
      ensures !added ==> snapshots == old(snapshots)
    {
      var activity := activityOf(commodity);
      if activity.None? {
        return false;
      }
      var key := SnapshotKey(commodity, activity.value, today);
      AddedEffect(snapshots, key, quantity);
      match Find(snapshots, key) {
        case Some(i) =>
          snapshots := snapshots[i := snapshots[i].(value := snapshots[i].value + quantity, synced := false)];
        case None =>
          snapshots := snapshots + [NewSnapshot(key, quantity)];
      }
      added := true;
    }

    /** getUnSyncedSnapshots: reads the table and changes nothing. */
    method GetUnSyncedSnapshots() returns (r: seq<CommoditySnapshot>)
      ensures forall x :: x in r <==> x in snapshots && !x.synced
      ensures |r| == |UnSyncedIndices(snapshots)|
      ensures r == UnSynced(snapshots)
    {
      r := UnSynced(snapshots);
    }

    /**
     * syncWithServer: push the unsynced rows as one batch for the org unit; only when the push
     * succeeds are they all marked synced, and a failed push leaves the table as it was.
     */
    method SyncWithServer(orgUnit: string, pushSucceeded: bool) returns (batch: DataValueSet)
      requires Valid()
      modifies this
      ensures Valid()
      ensures batch == DataValueSetFrom(UnSynced(old(snapshots)), orgUnit)
      ensures snapshots == if pushSucceeded then MarkedSynced(old(snapshots)) else old(snapshots)
    {
      var unsynced := GetUnSyncedSnapshots();
      batch := DataValueSetFrom(unsynced, orgUnit);
      if pushSucceeded {
        MarkedSyncedEffect(snapshots);
        MarkedSyncedClears(snapshots);
        snapshots := MarkedSynced(snapshots);
      }
    }
  }
}
