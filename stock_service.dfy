/**
 * The stock ledger (StockService): the stock level of a commodity is read from the single stock
 * row of that commodity, and dispensing reduces it. The lookup is a query on the stock table
 * followed by a three-way case split on how many rows it found.
 */
module Stock {
  import opened Outcomes
  import opened Models

  /** The two ways the lookup fails; each stands for an LmisException with its message. */
  datatype StockError = NotFound(commodity: CommodityId) | MoreThanOneRow(commodity: CommodityId)

  function Message(e: StockError): string {
    match e
    case NotFound(c) => "Stock for commodity " + c + " not found"
    case MoreThanOneRow(c) => "More than one row found for commodity " + c
  }

  /** The two failures read differently, whichever commodities they name. */
  lemma MessagesDiffer(c: CommodityId, d: CommodityId)
    ensures Message(NotFound(c)) != Message(MoreThanOneRow(d))
  {
    assert Message(NotFound(c))[0] == 'S' && Message(MoreThanOneRow(d))[0] == 'M';
  }

  /** Some row of the table belongs to the commodity. */
  ghost predicate HasRowFor(rows: seq<StockItem>, commodity: CommodityId) {
    exists i :: 0 <= i < |rows| && rows[i].commodity == commodity
  }

  /** Two different rows of the table belong to the commodity. */
  ghost predicate HasTwoRowsFor(rows: seq<StockItem>, commodity: CommodityId) {
    exists i, j :: 0 <= i < j < |rows| && rows[i].commodity == commodity && rows[j].commodity == commodity
  }

  /** The equality query on the commodity column: the matching rows, in table order. */
  function StockItemsFor(rows: seq<StockItem>, commodity: CommodityId): (r: seq<StockItem>)
    ensures forall x :: x in r <==> x in rows && x.commodity == commodity
    ensures |r| <= |rows|
  {
    if rows == [] then []
    else
      var last := rows[|rows| - 1];
      StockItemsFor(rows[..|rows| - 1], commodity) + (if last.commodity == commodity then [last] else [])
  }

  /** The query finds some row exactly when some row belongs to the commodity. */
  lemma RowFound(rows: seq<StockItem>, commodity: CommodityId)
    ensures |StockItemsFor(rows, commodity)| > 0 <==> HasRowFor(rows, commodity)
  {
    var f := StockItemsFor(rows, commodity);
    if HasRowFor(rows, commodity) {
      var i :| 0 <= i < |rows| && rows[i].commodity == commodity;
      assert rows[i] in f;
    }
    if |f| > 0 {
      assert f[0] in rows;
    }
  }

  lemma HasTwoRowsAppend(init: seq<StockItem>, last: StockItem, commodity: CommodityId)
    ensures HasTwoRowsFor(init + [last], commodity) <==>
      HasTwoRowsFor(init, commodity) || (last.commodity == commodity && HasRowFor(init, commodity))
  {
    var rows := init + [last];
    if HasTwoRowsFor(rows, commodity) {
      var i, j :| 0 <= i < j < |rows| && rows[i].commodity == commodity && rows[j].commodity == commodity;
      if j < |init| {
        assert init[i] == rows[i] && init[j] == rows[j];
      } else {
        assert init[i] == rows[i];
      }
    }
    if HasTwoRowsFor(init, commodity) {
      var i, j :| 0 <= i < j < |init| && init[i].commodity == commodity && init[j].commodity == commodity;
      assert rows[i] == init[i] && rows[j] == init[j];
    }
    if last.commodity == commodity && HasRowFor(init, commodity) {
      var i :| 0 <= i < |init| && init[i].commodity == commodity;
      assert rows[i] == init[i] && rows[|init|] == last;
    }
  }

  /** The query finds two or more rows exactly when two different rows belong to the commodity. */
  lemma {:induction false} TwoRowsFound(rows: seq<StockItem>, commodity: CommodityId)
    ensures |StockItemsFor(rows, commodity)| >= 2 <==> HasTwoRowsFor(rows, commodity)
  {
    if rows != [] {
      var init, last := rows[..|rows| - 1], rows[|rows| - 1];
      assert rows == init + [last];
      TwoRowsFound(init, commodity);
      RowFound(init, commodity);
      HasTwoRowsAppend(init, last, commodity);
    }
  }

  /**
   * getStockItem: exactly one matching row is the answer; none is NotFound; more than one is
   * MoreThanOneRow, never a silent choice of one of them.
   */
  function GetStockItem(rows: seq<StockItem>, commodity: CommodityId): (r: Result<StockItem, StockError>)
    ensures r.Success? <==> HasRowFor(rows, commodity) && !HasTwoRowsFor(rows, commodity)
    ensures r.Success? ==> r.value in rows && r.value.commodity == commodity
    ensures r == Failure(NotFound(commodity)) <==> !HasRowFor(rows, commodity)
    ensures r == Failure(MoreThanOneRow(commodity)) <==> HasTwoRowsFor(rows, commodity)
  {
    var stockItems := StockItemsFor(rows, commodity);
    TwoRowsFound(rows, commodity);
    RowFound(rows, commodity);
    if |stockItems| == 1 then Success(stockItems[0])
    else if |stockItems| == 0 then Failure(NotFound(commodity))
    else Failure(MoreThanOneRow(commodity))
  }

  /** getStockLevelFor: the quantity of the commodity's single stock row, or the lookup's error. */
  function GetStockLevelFor(rows: seq<StockItem>, commodity: CommodityId): (r: Result<int, StockError>)
    ensures r.Success? ==> exists i :: 0 <= i < |rows| && rows[i].commodity == commodity && rows[i].quantity == r.value
    ensures r.Failure? ==> r == Failure(NotFound(commodity)) || r == Failure(MoreThanOneRow(commodity))
    ensures r.Success? <==> HasRowFor(rows, commodity) && !HasTwoRowsFor(rows, commodity)
    ensures r == Failure(NotFound(commodity)) <==> !HasRowFor(rows, commodity)
    ensures r == Failure(MoreThanOneRow(commodity)) <==> HasTwoRowsFor(rows, commodity)
  {
    match GetStockItem(rows, commodity)
    case Success(item) => Success(item.quantity)
    case Failure(e) => Failure(e)
  }

  /** Exactly one row for the commodity: its stored quantity is the level, unclamped. */
  lemma SingleRowLevel(rows: seq<StockItem>, commodity: CommodityId, i: nat)
    requires i < |rows| && rows[i].commodity == commodity
    requires forall j :: 0 <= j < |rows| && j != i ==> rows[j].commodity != commodity
    ensures GetStockLevelFor(rows, commodity) == Success(rows[i].quantity)
  {
    assert HasRowFor(rows, commodity);
    var r := GetStockItem(rows, commodity);
    assert r.Success?;
    var k :| 0 <= k < |rows| && rows[k] == r.value;
  }

  lemma {:induction false} StockItemsForAppend(a: seq<StockItem>, b: seq<StockItem>, commodity: CommodityId)
    ensures StockItemsFor(a + b, commodity) == StockItemsFor(a, commodity) + StockItemsFor(b, commodity)
  {
    if b == [] {
      assert a + b == a;
    } else {
      var init := b[..|b| - 1];
      assert (a + b)[..|a + b| - 1] == a + init;
      StockItemsForAppend(a, init, commodity);
    }
  }

  /** A row of another commodity, wherever it stands in the table, does not affect the lookup. */
  lemma OtherRowIgnored(a: seq<StockItem>, other: StockItem, b: seq<StockItem>, commodity: CommodityId)
    requires other.commodity != commodity
    ensures GetStockItem(a + [other] + b, commodity) == GetStockItem(a + b, commodity)
    ensures GetStockLevelFor(a + [other] + b, commodity) == GetStockLevelFor(a + b, commodity)
  {
    StockItemsForAppend(a + [other], b, commodity);
    StockItemsForAppend(a, [other], commodity);
    StockItemsForAppend(a, b, commodity);
    assert StockItemsFor([other], commodity) == [] by {
      assert [other][..0] == [];
    }
  }

  /** The table after reduceStockLevelFor(commodity, quantity), as the call site needs it. */
  function Reduced(rows: seq<StockItem>, commodity: CommodityId, quantity: int): (r: seq<StockItem>)
    ensures |r| == |rows|
  {
    seq(|rows|, i requires 0 <= i < |rows| =>
      if rows[i].commodity == commodity then rows[i].(quantity := rows[i].quantity - quantity) else rows[i])
  }

  /**
   * Reducing and then reading the level: the level drops by exactly the quantity, with no lower
   * bound, and a failing lookup fails the same way; other commodities read as before.
   */
  lemma ReducedLevel(rows: seq<StockItem>, commodity: CommodityId, quantity: int, other: CommodityId)
    requires other != commodity
    ensures GetStockLevelFor(Reduced(rows, commodity, quantity), commodity) ==
      match GetStockLevelFor(rows, commodity)
      case Success(level) => Success(level - quantity)
      case Failure(e) => Failure(e)
    ensures GetStockLevelFor(Reduced(rows, commodity, quantity), other) == GetStockLevelFor(rows, other)
  {
    var r := Reduced(rows, commodity, quantity);
    forall c ensures HasRowFor(r, c) == HasRowFor(rows, c) && HasTwoRowsFor(r, c) == HasTwoRowsFor(rows, c) {
      assert forall i :: 0 <= i < |rows| ==> r[i].commodity == rows[i].commodity;
    }
    ReducedLevelAt(rows, commodity, quantity, commodity);
    ReducedLevelAt(rows, commodity, quantity, other);
  }

  lemma ReducedLevelAt(rows: seq<StockItem>, commodity: CommodityId, quantity: int, c: CommodityId)
    requires forall d :: HasRowFor(Reduced(rows, commodity, quantity), d) == HasRowFor(rows, d)
    requires forall d :: HasTwoRowsFor(Reduced(rows, commodity, quantity), d) == HasTwoRowsFor(rows, d)
    ensures GetStockLevelFor(Reduced(rows, commodity, quantity), c) ==
      match GetStockLevelFor(rows, c)
      case Success(level) => Success(if c == commodity then level - quantity else level)
      case Failure(e) => Failure(e)
  {
    var r := Reduced(rows, commodity, quantity);
    if GetStockItem(rows, c).Success? {
      var i :| 0 <= i < |rows| && rows[i].commodity == c;
      forall j | 0 <= j < |rows| && j != i ensures rows[j].commodity != c {
        if rows[j].commodity == c {
          if i < j { assert HasTwoRowsFor(rows, c); } else { assert HasTwoRowsFor(rows, c); }
        }
      }
      SingleRowLevel(rows, c, i);
      SingleRowLevel(r, c, i);
    }
  }

  /** The stock table of the ledger. Reads leave it unchanged; only a reduction writes it. */
  class StockService {
    var rows: seq<StockItem>

    constructor (initial: seq<StockItem>)
      ensures rows == initial
    {
      rows := initial;
    }

    /** The read path of getStockLevelFor: it modifies nothing. */
    method StockLevelFor(commodity: CommodityId) returns (r: Result<int, StockError>)
      ensures r == GetStockLevelFor(rows, commodity)
    {
      r := GetStockLevelFor(rows, commodity);
    }

    /**
     * reduceStockLevelFor, whose body is not part of this model: every row of the commodity
     * goes down by the quantity, with no clamp; every other row is untouched.
     */
    method ReduceStockLevelFor(commodity: CommodityId, quantity: int)
      modifies this
      ensures |rows| == |old(rows)|
      ensures forall i :: 0 <= i < |rows| ==>
        rows[i].commodity == old(rows)[i].commodity &&
        rows[i].quantity == (if rows[i].commodity == commodity then old(rows)[i].quantity - quantity else old(rows)[i].quantity)
      ensures rows == Reduced(old(rows), commodity, quantity)
    {
      rows := Reduced(rows, commodity, quantity);
    }
  }
}
