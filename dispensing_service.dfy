/**
 * The dispensing recorder (DispensingService): records a dispensing with its items as one
 * all-or-nothing batch that also reduces stock and feeds the daily snapshots; numbers the
 * prescriptions of a month; and sums what was dispensed of a commodity over a date range.
 */
module DispensingRecorder {
  import opened Outcomes
  import opened Models
  import opened Decimal
  import opened Stock
  import opened Snapshots

  // ---------------------------------------------------------------------------------------
  // Prescription ids
  // ---------------------------------------------------------------------------------------

  /**
   * The zeros put before the sequence number: sized on the count, not on count + 1, they fill
   * the count's digits up to four, and counts from 1000 on get none.
   */
  function Padding(count: nat): nat {
    var length := |DecimalString(count)|;
    if length < 4 then 4 - length else 0
  }

  /** The padding fills the count's own digits up to four, and counts from 1000 on get none. */
  lemma PaddingWidth(count: nat)
    ensures Padding(count) == 0 <==> count >= 1000
    ensures Padding(count) > 0 ==> Padding(count) + |DecimalString(count)| == 4
  {
    NatStringLength(count, 3);
    assert Pow10(3) == 1000;
  }

  /** The numeric part of a prescription id. */
  function SequenceNumber(count: nat): string {
    Zeros(Padding(count)) + DecimalString(count + 1)
  }

  /** getFormattedPrescriptionId: the sequence number, a dash, then the month. */
  function PrescriptionId(currentMonth: string, count: nat): string {
    SequenceNumber(count) + "-" + currentMonth
  }

  /** getFormattedPrescriptionId, building the zeros one at a time as the source does. */
  method FormatPrescriptionId(currentMonth: string, count: nat) returns (id: string)
    ensures id == PrescriptionId(currentMonth, count)
  {
    var stringOfZeros := "";
    var length := |DecimalString(count)|;
    if length < 4 {
      var i := 0;
      while i < 4 - length
        invariant 0 <= i <= 4 - length
        invariant stringOfZeros == Zeros(i)
      {
        stringOfZeros := stringOfZeros + "0";
        i := i + 1;
      }
    }
    id := stringOfZeros + DecimalString(count + 1) + "-" + currentMonth;
  }

  /** The sequence number is all digits, at least four of them, and denotes count + 1. */
  lemma SequenceNumberValue(count: nat)
    ensures AllDigits(SequenceNumber(count))
    ensures ParseNat(SequenceNumber(count)) == count + 1
    ensures |SequenceNumber(count)| >= 4
  {
    LeadingZeros(Padding(count), DecimalString(count + 1));
    NatStringRoundTrip(count + 1);
    NatStringLengthMonotone(count);
  }

  /** The id is the sequence number, then a dash and the month. */
  lemma PrescriptionIdParts(currentMonth: string, count: nat)
    ensures var id := PrescriptionId(currentMonth, count);
      && |id| > |currentMonth|
      && id[..|id| - |currentMonth| - 1] == SequenceNumber(count)
      && id[|id| - |currentMonth| - 1..] == "-" + currentMonth
  {
    var s := SequenceNumber(count);
    assert PrescriptionId(currentMonth, count) == s + ("-" + currentMonth);
  }

  /** Different counts give different ids within a month: the ids are sequential and unique. */
  lemma PrescriptionIdsDistinct(currentMonth: string, count: nat, other: nat)
    requires count != other
    ensures PrescriptionId(currentMonth, count) != PrescriptionId(currentMonth, other)
  {
    SequenceNumberValue(count);
    SequenceNumberValue(other);
    PrescriptionIdParts(currentMonth, count);
    PrescriptionIdParts(currentMonth, other);
  }

  /** The ids of the first and of the twelfth prescription of a month. */
  lemma PrescriptionIdExamples(currentMonth: string)
    ensures PrescriptionId(currentMonth, 0) == "0001-" + currentMonth
    ensures PrescriptionId(currentMonth, 11) == "0012-" + currentMonth
    ensures PrescriptionId(currentMonth, 9) == "00010-" + currentMonth
  {
    assert DecimalString(0) == "0" && DecimalString(1) == "1";
    assert DecimalString(11) == "11" && DecimalString(12) == "12";
    assert DecimalString(9) == "9" && DecimalString(10) == "10";
    assert Zeros(3) == "000" && Zeros(2) == "00";
  }

  /**
   * Because the padding is sized on the count rather than on count + 1, the sequence number is
   * wider than the four-digit minimum (and than count + 1 needs) exactly for counts 9, 99, 999.
   */
  lemma PaddingQuirk(count: nat)
    ensures |SequenceNumber(count)| > (if |DecimalString(count + 1)| < 4 then 4 else |DecimalString(count + 1)|)
        <==> count == 9 || count == 99 || count == 999
  {
    var d, e := |NatString(count)|, |NatString(count + 1)|;
    NatStringLengthMonotone(count);
    if d < 4 {
      NatStringLength(count, 3);
      NatStringLength(count, d);
      if e > d {
        NatStringLength(count + 1, d);
        assert count + 1 == Pow10(d);
        assert Pow10(1) == 10 && Pow10(2) == 100 && Pow10(3) == 1000;
      }
      if count == 9 || count == 99 || count == 999 {
        assert Pow10(1) == 10 && Pow10(2) == 100 && Pow10(3) == 1000;
        NatStringLength(count, 3);
        var k := if count == 9 then 1 else if count == 99 then 2 else 3;
        NatStringLength(count, k);
        NatStringLength(count + 1, k);
        if k > 1 {
          NatStringLength(count, k - 1);
        }
      }
    } else {
      NatStringLength(count, 3);
    }
  }

  /** Counts of 1000 and more get no padding at all. */
  lemma NoPaddingFromThousand(count: nat)
    requires count >= 1000
    ensures SequenceNumber(count) == DecimalString(count + 1)
  {
    NatStringLength(count, 3);
    assert Pow10(3) == 1000;
  }

  // ---------------------------------------------------------------------------------------
  // Dispensings to patients this month
  // ---------------------------------------------------------------------------------------

  /** The query of getDispensingsToPatientsThisMonth: created within the month, to a patient. */
  predicate ToPatientWithin(d: Dispensing, firstDay: int, lastDay: int) {
    firstDay <= d.created <= lastDay && !d.dispenseToFacility
  }

  /** The dispensings the month's query returns, in table order. */
  function PatientDispensingsWithin(dispensings: seq<Dispensing>, firstDay: int, lastDay: int): (r: seq<Dispensing>)
    ensures forall d :: d in r <==> d in dispensings && ToPatientWithin(d, firstDay, lastDay)
    ensures |r| <= |dispensings|
  {
    if dispensings == [] then []
    else
      var last := dispensings[|dispensings| - 1];
      PatientDispensingsWithin(dispensings[..|dispensings| - 1], firstDay, lastDay) +
        (if ToPatientWithin(last, firstDay, lastDay) then [last] else [])
  }

  /**
   * Recording one more dispensing advances the month's count by one exactly when it went to a
   * patient within the month; a facility dispensing never changes it.
   */
  lemma PatientCountAfter(dispensings: seq<Dispensing>, d: Dispensing, firstDay: int, lastDay: int)
    ensures |PatientDispensingsWithin(dispensings + [d], firstDay, lastDay)| ==
            |PatientDispensingsWithin(dispensings, firstDay, lastDay)| + (if ToPatientWithin(d, firstDay, lastDay) then 1 else 0)
    ensures d.dispenseToFacility ==>
      PatientDispensingsWithin(dispensings + [d], firstDay, lastDay) == PatientDispensingsWithin(dispensings, firstDay, lastDay)
  {
    assert (dispensings + [d])[..|dispensings|] == dispensings;
  }

  // ---------------------------------------------------------------------------------------
  // Quantities dispensed
  // ---------------------------------------------------------------------------------------

  /** The join of getTotalDispensed: the item is of the commodity and its header is in range. */
  predicate CountsToward(dispensings: seq<Dispensing>, item: DispensingItem, commodity: CommodityId,
                         startingDate: int, endDate: int) {
    && item.commodity == commodity
    && item.dispensing < |dispensings|
    && startingDate <= dispensings[item.dispensing].created <= endDate
  }

  /** The join keeps none of the items. */
  predicate NoneCounts(dispensings: seq<Dispensing>, items: seq<DispensingItem>, commodity: CommodityId,
                       startingDate: int, endDate: int) {
    forall i :: 0 <= i < |items| ==> !CountsToward(dispensings, items[i], commodity, startingDate, endDate)
  }

  /** No item records a negative quantity. */
  predicate NoNegativeQuantity(items: seq<DispensingItem>) {
    forall i :: 0 <= i < |items| ==> items[i].quantity >= 0
  }

  /**
   * The sum of the quantities of the items that the join keeps: 0 when it keeps none, and never
   * negative when no item has a negative quantity.
   */
  function TotalDispensed(dispensings: seq<Dispensing>, items: seq<DispensingItem>, commodity: CommodityId,
                          startingDate: int, endDate: int): (total: int)
    ensures NoneCounts(dispensings, items, commodity, startingDate, endDate) ==> total == 0
    ensures NoNegativeQuantity(items) ==> total >= 0
  {
    if items == [] then 0
    else
      var init, last := items[..|items| - 1], items[|items| - 1];
      assert NoneCounts(dispensings, items, commodity, startingDate, endDate) ==>
        NoneCounts(dispensings, init, commodity, startingDate, endDate);
      assert NoNegativeQuantity(items) ==> NoNegativeQuantity(init);
      TotalDispensed(dispensings, init, commodity, startingDate, endDate) +
        (if CountsToward(dispensings, last, commodity, startingDate, endDate) then last.quantity else 0)
  }

  lemma {:induction false} TotalDispensedAppend(dispensings: seq<Dispensing>, a: seq<DispensingItem>,
                                                b: seq<DispensingItem>, commodity: CommodityId,
                                                startingDate: int, endDate: int)
    ensures TotalDispensed(dispensings, a + b, commodity, startingDate, endDate) ==
            TotalDispensed(dispensings, a, commodity, startingDate, endDate) +
            TotalDispensed(dispensings, b, commodity, startingDate, endDate)
  {
    if b == [] {
      assert a + b == a;
    } else {
      assert (a + b)[..|a + b| - 1] == a + b[..|b| - 1];
      TotalDispensedAppend(dispensings, a, b[..|b| - 1], commodity, startingDate, endDate);
    }
  }

  /** Every item refers to a header that exists. */
  predicate ReferencesValid(dispensings: seq<Dispensing>, items: seq<DispensingItem>) {
    forall i :: 0 <= i < |items| ==> items[i].dispensing < |dispensings|
  }

  lemma {:induction false} TotalDispensedNewHeader(dispensings: seq<Dispensing>, d: Dispensing,
                                                   items: seq<DispensingItem>, commodity: CommodityId,
                                                   startingDate: int, endDate: int)
    requires ReferencesValid(dispensings, items)
    ensures TotalDispensed(dispensings + [d], items, commodity, startingDate, endDate) ==
            TotalDispensed(dispensings, items, commodity, startingDate, endDate)
  {
    if items != [] {
      var last := items[|items| - 1];
      assert (dispensings + [d])[last.dispensing] == dispensings[last.dispensing];
      TotalDispensedNewHeader(dispensings, d, items[..|items| - 1], commodity, startingDate, endDate);
    }
  }

  /** The total quantity of a commodity over the lines of one dispensing. */
  function LineTotal(lines: seq<LineItem>, commodity: CommodityId): int {
    if lines == [] then 0
    else
      var last := lines[|lines| - 1];
      LineTotal(lines[..|lines| - 1], commodity) + (if last.commodity == commodity then last.quantity else 0)
  }

  /** The saved items of the lines, each with its back-reference set to the header. */
  function Attached(lines: seq<LineItem>, header: nat): (r: seq<DispensingItem>)
    ensures |r| == |lines|
  {
    if lines == [] then []
    else
      var last := lines[|lines| - 1];
      Attached(lines[..|lines| - 1], header) + [DispensingItem(last.commodity, last.quantity, header)]
  }

  /** Item by item: the line's commodity and quantity, with the back-reference to the header. */
  lemma {:induction false} AttachedItems(lines: seq<LineItem>, header: nat)
    ensures forall i :: 0 <= i < |lines| ==>
      Attached(lines, header)[i] == DispensingItem(lines[i].commodity, lines[i].quantity, header)
  {
    if lines != [] {
      AttachedItems(lines[..|lines| - 1], header);
    }
  }

  lemma AttachedSnoc(lines: seq<LineItem>, header: nat)
    requires lines != []
    ensures var last := lines[|lines| - 1];
      Attached(lines, header) == Attached(lines[..|lines| - 1], header) + [DispensingItem(last.commodity, last.quantity, header)]
  {
  }

  lemma TotalDispensedSnoc(dispensings: seq<Dispensing>, init: seq<DispensingItem>, x: DispensingItem,
                           commodity: CommodityId, startingDate: int, endDate: int)
    ensures TotalDispensed(dispensings, init + [x], commodity, startingDate, endDate) ==
            TotalDispensed(dispensings, init, commodity, startingDate, endDate) +
            (if CountsToward(dispensings, x, commodity, startingDate, endDate) then x.quantity else 0)
  {
    assert (init + [x])[..|init|] == init;
  }

  lemma {:induction false} TotalDispensedAttached(dispensings: seq<Dispensing>, lines: seq<LineItem>,
                                                  commodity: CommodityId, startingDate: int, endDate: int)
    requires |dispensings| > 0
    ensures var h := |dispensings| - 1;
      TotalDispensed(dispensings, Attached(lines, h), commodity, startingDate, endDate) ==
      (if startingDate <= dispensings[h].created <= endDate then LineTotal(lines, commodity) else 0)
  {
    if lines != [] {
      TotalDispensedAttached(dispensings, lines[..|lines| - 1], commodity, startingDate, endDate);
      TotalDispensedAttachedStep(dispensings, lines, commodity, startingDate, endDate);
    }
  }

  /** One more line: its quantity joins the total exactly when it is of the commodity and in range. */
  lemma TotalDispensedAttachedStep(dispensings: seq<Dispensing>, lines: seq<LineItem>,
                                   commodity: CommodityId, startingDate: int, endDate: int)
    requires |dispensings| > 0 && lines != []
    requires var h := |dispensings| - 1;
      TotalDispensed(dispensings, Attached(lines[..|lines| - 1], h), commodity, startingDate, endDate) ==
      (if startingDate <= dispensings[h].created <= endDate then LineTotal(lines[..|lines| - 1], commodity) else 0)
    ensures var h := |dispensings| - 1;
      TotalDispensed(dispensings, Attached(lines, h), commodity, startingDate, endDate) ==
      (if startingDate <= dispensings[h].created <= endDate then LineTotal(lines, commodity) else 0)
  {
    var h := |dispensings| - 1;
    var init, last := lines[..|lines| - 1], lines[|lines| - 1];
    var x := DispensingItem(last.commodity, last.quantity, h);
    AttachedSnoc(lines, h);
    TotalDispensedSnoc(dispensings, Attached(init, h), x, commodity, startingDate, endDate);
    assert CountsToward(dispensings, x, commodity, startingDate, endDate) <==>
      startingDate <= dispensings[h].created <= endDate && last.commodity == commodity;
  }

  /**
   * Recording a dispensing adds to getTotalDispensed exactly its own quantity of the commodity
   * when it falls in the range, and nothing otherwise.
   */
  lemma TotalAfterAdd(dispensings: seq<Dispensing>, items: seq<DispensingItem>, d: Dispensing,
                      lines: seq<LineItem>, commodity: CommodityId, startingDate: int, endDate: int)
    requires ReferencesValid(dispensings, items)
    ensures TotalDispensed(dispensings + [d], items + Attached(lines, |dispensings|), commodity, startingDate, endDate) ==
            TotalDispensed(dispensings, items, commodity, startingDate, endDate) +
            (if startingDate <= d.created <= endDate then LineTotal(lines, commodity) else 0)
  {
    var ds := dispensings + [d];
    TotalDispensedAppend(ds, items, Attached(lines, |dispensings|), commodity, startingDate, endDate);
    TotalDispensedNewHeader(dispensings, d, items, commodity, startingDate, endDate);
    TotalDispensedAttached(ds, lines, commodity, startingDate, endDate);
  }

  // ---------------------------------------------------------------------------------------
  // Stock after a dispensing
  // ---------------------------------------------------------------------------------------

  /** The stock table after one reduceStockLevelFor per line, in line order. */
  function StockAfter(rows: seq<StockItem>, lines: seq<LineItem>): (r: seq<StockItem>)
    ensures |r| == |rows|
    ensures forall i :: 0 <= i < |rows| ==> r[i].commodity == rows[i].commodity
  {
    if lines == [] then rows
    else
      var last := lines[|lines| - 1];
      Reduced(StockAfter(rows, lines[..|lines| - 1]), last.commodity, last.quantity)
  }

  /**
   * Each stock row goes down by the total quantity its commodity was dispensed in, so two lines
   * of one commodity reduce it by their sum, and a commodity no line names is unchanged.
   */
  lemma {:induction false} StockAfterQuantities(rows: seq<StockItem>, lines: seq<LineItem>)
    ensures |StockAfter(rows, lines)| == |rows|
    ensures forall i :: 0 <= i < |rows| ==>
      && StockAfter(rows, lines)[i].commodity == rows[i].commodity
      && StockAfter(rows, lines)[i].quantity == rows[i].quantity - LineTotal(lines, rows[i].commodity)
  {
    if lines != [] {
      StockAfterQuantities(rows, lines[..|lines| - 1]);
    }
  }

  /** One more line of the batch, as the loop of addDispensing takes it. */
  lemma BatchStep(lines: seq<LineItem>, k: nat, header: nat, stock: seq<StockItem>, snapshots: seq<CommoditySnapshot>,
                  activityOf: CommodityId -> Option<ActivityId>, today: int)
    requires k < |lines| && AllResolved(lines[..k], activityOf) && activityOf(lines[k].commodity).Some?
    ensures AllResolved(lines[..k + 1], activityOf)
    ensures Attached(lines[..k + 1], header) ==
      Attached(lines[..k], header) + [DispensingItem(lines[k].commodity, lines[k].quantity, header)]
    ensures StockAfter(stock, lines[..k + 1]) == Reduced(StockAfter(stock, lines[..k]), lines[k].commodity, lines[k].quantity)
    ensures AddedForLines(snapshots, lines[..k + 1], activityOf, today) ==
      Added(AddedForLines(snapshots, lines[..k], activityOf, today), LineKey(lines[k], activityOf, today), lines[k].quantity)
  {
    var done := lines[..k + 1];
    assert done[..k] == lines[..k];
    forall i | 0 <= i < |done| ensures activityOf(done[i].commodity).Some? {
      if i < k {
        assert done[i] == lines[..k][i];
      }
    }
    AttachedSnoc(done, header);
  }

  // ---------------------------------------------------------------------------------------
  // The service
  // ---------------------------------------------------------------------------------------

  /** The dispensing and item tables, with the stock and snapshot services the batch writes to. */
  class DispensingService {
    var dispensings: seq<Dispensing>
    var items: seq<DispensingItem>
    const stockService: StockService
    const snapshotService: CommoditySnapshotService

    ghost predicate Valid()
      reads this, snapshotService
    {
      ReferencesValid(dispensings, items) && snapshotService.Valid()
    }

    constructor (stock: StockService, snapshots: CommoditySnapshotService)
      requires snapshots.Valid()
      ensures Valid()
      ensures dispensings == [] && items == []
      ensures stockService == stock && snapshotService == snapshots
    {
      dispensings, items := [], [];
      stockService, snapshotService := stock, snapshots;
    }

    /**
     * addDispensing: save the header, then for each line in order save the item with its
     * back-reference, reduce the commodity's stock and add it to today's snapshot. All of it is
     * one batch: when a line's snapshot add fails, every table is as it was before the call.
     */
    method AddDispensing(dispensing: Dispensing, lines: seq<LineItem>,
                         activityOf: CommodityId -> Option<ActivityId>, today: int)
      returns (committed: bool)
      requires Valid()
      modifies this, stockService, snapshotService
      ensures Valid()
      ensures committed == AllResolved(lines, activityOf)
      ensures committed ==>
        && dispensings == old(dispensings) + [dispensing]
        && items == old(items) + Attached(lines, |old(dispensings)|)
        && stockService.rows == StockAfter(old(stockService.rows), lines)
        && snapshotService.snapshots == AddedForLines(old(snapshotService.snapshots), lines, activityOf, today)
      ensures !committed ==>
        && dispensings == old(dispensings)
        && items == old(items)
        && stockService.rows == old(stockService.rows)
        && snapshotService.snapshots == old(snapshotService.snapshots)
    {
      var savedDispensings, savedItems := dispensings, items;
      var savedStock, savedSnapshots := stockService.rows, snapshotService.snapshots;

      var header := |dispensings|;
      dispensings := dispensings + [dispensing];
      var k := 0;
      while k < |lines|
        invariant 0 <= k <= |lines|
        invariant dispensings == savedDispensings + [dispensing]
        invariant items == savedItems + Attached(lines[..k], header)
        invariant AllResolved(lines[..k], activityOf)
        invariant stockService.rows == StockAfter(savedStock, lines[..k])
        invariant snapshotService.snapshots == AddedForLines(savedSnapshots, lines[..k], activityOf, today)
        invariant snapshotService.Valid()
      {
        var line := lines[k];
        items := items + [DispensingItem(line.commodity, line.quantity, header)];
        stockService.ReduceStockLevelFor(line.commodity, line.quantity);
        var added := snapshotService.Add(line.commodity, line.quantity, activityOf, today);
        if !added {
          dispensings, items := savedDispensings, savedItems;
          stockService.rows, snapshotService.snapshots := savedStock, savedSnapshots;
          return false;
        }
        BatchStep(lines, k, header, savedStock, savedSnapshots, activityOf, today);
        k := k + 1;
      }
      assert lines[..k] == lines;
      AttachedItems(lines, header);
      committed := true;
    }

    /** getNextPrescriptionId: numbered after the patient dispensings of the current month. */
    method GetNextPrescriptionId(currentMonth: string, firstDay: int, lastDay: int) returns (id: string)
      ensures id == PrescriptionId(currentMonth, |PatientDispensingsWithin(dispensings, firstDay, lastDay)|)
    {
      var count := |PatientDispensingsWithin(dispensings, firstDay, lastDay)|;
      id := FormatPrescriptionId(currentMonth, count);
    }

    /** getTotalDispensed: the loop over the joined items, accumulating their quantities. */
    method GetTotalDispensed(commodity: CommodityId, startingDate: int, endDate: int) returns (totalDispensed: int)
      ensures totalDispensed == TotalDispensed(dispensings, items, commodity, startingDate, endDate)
    {
      totalDispensed := 0;
      var i := 0;
      while i < |items|
        invariant 0 <= i <= |items|
        invariant totalDispensed == TotalDispensed(dispensings, items[..i], commodity, startingDate, endDate)
      {
        var item := items[i];
        assert items[..i + 1][..i] == items[..i];
        if item.commodity == commodity && item.dispensing < |dispensings|
           && startingDate <= dispensings[item.dispensing].created <= endDate {
          totalDispensed := totalDispensed + item.quantity;
        }
        i := i + 1;
      }
      assert items[..i] == items;
    }
  }
}
