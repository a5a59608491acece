/**
 * The persistent entities of the dispensing and snapshot core. Each is a value: the in-memory
 * tables of the services hold sequences of them, and an "update" replaces a row.
 */
module Models {

  /** A commodity is identified by its stable id (Commodity.getId()). */
  type CommodityId = string

  /** A commodity activity is identified by its remote reporting element id. */
  type ActivityId = string

  /** A row of the stock table: the on-hand quantity of one commodity. It may be negative. */
  datatype StockItem = StockItem(commodity: CommodityId, quantity: int)

  /**
   * A dispensing header: when it was created (a day or timestamp, as an integer), whether it
   * went to a facility rather than a patient, and its prescription id.
   */
  datatype Dispensing = Dispensing(created: int, dispenseToFacility: bool, prescriptionId: string)

  /** A line of a dispensing before it is saved: a commodity and the quantity dispensed. */
  datatype LineItem = LineItem(commodity: CommodityId, quantity: int)

  /**
   * A saved dispensing item. `dispensing` is the back-reference to its header: the position of
   * that header in the dispensing table, which stands for the id the store generates.
   */
  datatype DispensingItem = DispensingItem(commodity: CommodityId, quantity: int, dispensing: nat)

  /** The natural key of a snapshot: one counter per commodity, activity and day. */
  datatype SnapshotKey = SnapshotKey(commodity: CommodityId, activity: ActivityId, day: int)

  /**
   * A daily per-commodity, per-activity counter. The source keeps `value` as decimal text;
   * here it is the integer that text denotes (see Decimal.DecimalString for the text).
   */
  datatype CommoditySnapshot = CommoditySnapshot(
    commodity: CommodityId, activity: ActivityId, day: int, value: int, synced: bool)
  {
    function Key(): SnapshotKey {
      SnapshotKey(commodity, activity, day)
    }
  }

  /** One entry of the outbound push: data element, textual value, org unit and period. */
  datatype DataValue = DataValue(dataElement: ActivityId, value: string, orgUnit: string, period: int)

  /** The batch sent to the remote server. */
  datatype DataValueSet = DataValueSet(dataValues: seq<DataValue>)
}
