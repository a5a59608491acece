# Dispensing, stock and daily snapshots of a facility commodity tool

This project models the core of an Android logistics tool for health commodities. It covers the
path from recording a dispensing to the daily activity counters that are later pushed to a
remote reporting server:

- **Dispensing recorder** (`DispensingRecorder`, after `DispensingService`). `AddDispensing`
  saves a dispensing header. Then, for each line in order, it saves the item with a
  back-reference to the header, reduces the commodity's stock and adds the quantity to today's
  snapshot. All of this is one batch: if a line's snapshot add fails, every table is restored to
  its state before the call. The module also builds the month's prescription ids from a count of
  the month's patient dispensings, and sums the quantity of a commodity dispensed over an
  inclusive date range.
- **Stock ledger** (`Stock`, after `StockService`). The level of a commodity is read from its
  single stock row. No row and several rows are two distinct errors. A reduction lowers the
  quantity with no lower bound.
- **Snapshot aggregator and sync marking** (`Snapshots`, after `CommoditySnapshotService`). The
  service's source is not part of this model; the behaviour modelled here is the one its test
  fixes. There is one counter row per (commodity, activity, day). The first add of a key creates
  the row; later adds increment it. Any add makes the row unsynced. A sync pushes the unsynced
  rows as one batch and marks them synced only when the push succeeds.
- `Decimal` gives the ASCII decimal text of integers, as `String.valueOf(int)` writes it, and
  reads it back.
  `Models` holds the entities. `Outcomes` holds `Option` and `Result`. `Scenarios` holds client
  methods that replay the snapshot test's cases and the rollback case against the contracts.

Storage is in-memory sequences, one per table. The clock, the locale and the network are
parameters:

- the current month's abbreviation and its first and last day;
- the day a snapshot is counted under (`today`);
- the item-to-activity mapping (`activityOf`);
- whether the push was accepted (`pushSucceeded`).

Dates are integers.

Two behaviours of the code are easy to misread:

- The prescription number's padding is sized on the digits of the count, while the number
  printed is count + 1 (`DispensingService.java:111-117`). So a count of 9 gives `00010`, five
  digits instead of four. `PaddingQuirk` states exactly when this happens.
- `getTotalDispensed` returns from its `finally` block (`DispensingService.java:162-169`). That
  return discards the `LmisException` thrown in the `catch` block. Every call that can throw
  (`DispensingService.java:142-154`) comes before the summing loop (`DispensingService.java:158-160`),
  so a storage failure always yields 0. The model has no storage failures, so it does not model
  this path.

## Model

| member | source | states |
|---|---|---|
| `Decimal.DecimalString` | app/src/test/java/org/clintonhealthaccess/lmis/app/services/CommoditySnapshotServiceTest.java:112 | The text of a counter is non-empty and starts with a digit exactly when the value is non-negative. |
| `Decimal.DecimalRoundTrip` | app/src/test/java/org/clintonhealthaccess/lmis/app/services/CommoditySnapshotServiceTest.java:115-129 | Reading the decimal text of any integer gives back that integer, so a counter kept as text adds like an integer. |
| `Decimal.LeadingZeros` | app/src/main/java/org/clintonhealthaccess/lmis/app/services/DispensingService.java:113-117 | Zeros put in front of a digit string leave it all digits and do not change the number it denotes. |
| `Decimal.NatStringLength` | app/src/main/java/org/clintonhealthaccess/lmis/app/services/DispensingService.java:111 | `String.valueOf(n).length()` is at most k (k >= 1) if and only if n < 10^k. |
| `Stock.StockItemsFor` | app/src/main/java/org/clintonhealthaccess/lmis/app/services/StockService.java:34-40 | The equality query returns exactly the rows of the commodity and never more rows than the table has. |
| `Stock.RowFound` | app/src/main/java/org/clintonhealthaccess/lmis/app/services/StockService.java:46-47 | The query is empty if and only if no row belongs to the commodity. |
| `Stock.TwoRowsFound` | app/src/main/java/org/clintonhealthaccess/lmis/app/services/StockService.java:49-50 | The query finds two or more rows if and only if two different rows belong to the commodity. |
| `Stock.GetStockItem` | app/src/main/java/org/clintonhealthaccess/lmis/app/services/StockService.java:34-53 | It succeeds exactly when one row belongs to the commodity, and then returns a row of that commodity. It fails with NotFound exactly when no row does, and with MoreThanOneRow exactly when two rows do. |
| `Stock.GetStockLevelFor` | app/src/main/java/org/clintonhealthaccess/lmis/app/services/StockService.java:20-32 | The level is found exactly when one row of the commodity exists, and is then that row's quantity. `NotFound` exactly when no row matches, `MoreThanOneRow` exactly when two rows do. |
| `Stock.SingleRowLevel` | app/src/main/java/org/clintonhealthaccess/lmis/app/services/StockService.java:43-44 | When exactly one row belongs to the commodity, the level is that row's stored quantity, unclamped. |
| `Stock.OtherRowIgnored` | app/src/main/java/org/clintonhealthaccess/lmis/app/services/StockService.java:38 | A row of another commodity, at any position in the table, changes neither the lookup nor the level. |
| `Stock.ReducedLevel` | app/src/main/java/org/clintonhealthaccess/lmis/app/services/DispensingService.java:97-99 | After a reduction by q, the commodity's level is the old level minus q, even below zero. A failing lookup fails the same way. Other commodities read as before. |
| `Stock.Reduced` | app/src/main/java/org/clintonhealthaccess/lmis/app/services/DispensingService.java:98 | The table keeps its length. What a reduction means for the commodity's level and for other commodities is stated by `Stock.ReducedLevel`. The row-by-row effect is stated by `Stock.StockService.ReduceStockLevelFor`, which sets the table to exactly this value. |
| `Stock.MessagesDiffer` | app/src/main/java/org/clintonhealthaccess/lmis/app/services/StockService.java:46-50 | The NotFound and MoreThanOneRow failures carry different messages, whichever commodities they name. |
| `Stock.StockService.StockLevelFor` | app/src/main/java/org/clintonhealthaccess/lmis/app/services/StockService.java:20-32 | The read path returns the lookup's result on the current table and modifies nothing. |
| `Stock.StockService.ReduceStockLevelFor` | app/src/main/java/org/clintonhealthaccess/lmis/app/services/DispensingService.java:98 | Every row of the commodity goes down by the quantity with no clamp. Every other row and every commodity column is unchanged. |
| `Snapshots.Find` | app/src/test/java/org/clintonhealthaccess/lmis/app/services/CommoditySnapshotServiceTest.java:115-129 | The key lookup returns the first row with the key, or nothing exactly when no row has it. |
| `Snapshots.Added` | app/src/test/java/org/clintonhealthaccess/lmis/app/services/CommoditySnapshotServiceTest.java:94-147 | One add keeps the position and key of every existing row. It appends a row exactly when the key is new, and the appended row is a fresh counter holding the quantity. Its full effect is stated by `Snapshots.AddedEffect` and `Snapshots.AddedOtherKey`. |
| `Snapshots.NewSnapshot` | app/src/test/java/org/clintonhealthaccess/lmis/app/services/CommoditySnapshotServiceTest.java:94-113 | A created row has the key, the item quantity as its value, and is unsynced. |
| `Snapshots.AddedEffect` | app/src/test/java/org/clintonhealthaccess/lmis/app/services/CommoditySnapshotServiceTest.java:115-147 | After one add, the key has exactly one row. Its value grew by the quantity, and it is unsynced even if it was synced. A row is appended only for a new key. Rows of other keys are untouched, and keys stay unique. |
| `Snapshots.AddedOtherKey` | app/src/test/java/org/clintonhealthaccess/lmis/app/services/CommoditySnapshotServiceTest.java:94-113 | An add under one key changes neither the lookup, the value, the rows nor the row indices of any other key. |
| `Snapshots.LineKey` | app/src/test/java/org/clintonhealthaccess/lmis/app/services/CommoditySnapshotServiceTest.java:139 | A dispensed line is counted under its own commodity, its resolved activity and today. |
| `Snapshots.AddedForLinesValue` | app/src/main/java/org/clintonhealthaccess/lmis/app/services/DispensingService.java:75-80 | After one add per line, every key's counter grew by exactly the total quantity of the lines counted under it, and keys stay unique. |
| `Snapshots.AddedForLines` | app/src/main/java/org/clintonhealthaccess/lmis/app/services/DispensingService.java:79 | One add per line, in line order, never drops a row. Its effect is stated by `Snapshots.AddedForLinesValue`, `Snapshots.AddedForLinesTouched` and `Snapshots.AddedForLinesUntouched`. |
| `Snapshots.AddedForLinesUntouched` | app/src/main/java/org/clintonhealthaccess/lmis/app/services/DispensingService.java:75-80 | A row whose key none of the lines is counted under stays at its position, with its value and its synced flag as they were. |
| `Snapshots.AddedForLinesTouched` | app/src/test/java/org/clintonhealthaccess/lmis/app/services/CommoditySnapshotServiceTest.java:115-129 | After the adds, the key of each line has exactly one row, and that row is unsynced. |
| `Snapshots.UnSynced` | app/src/test/java/org/clintonhealthaccess/lmis/app/services/CommoditySnapshotServiceTest.java:149-168 | A row is selected if and only if it is in the table with synced == false. There are exactly as many results as the table has unsynced rows, so each of them appears once. |
| `Snapshots.UnSyncedAppend` | app/src/test/java/org/clintonhealthaccess/lmis/app/services/CommoditySnapshotServiceTest.java:149-168 | One more row is selected after the others exactly when it is unsynced. |
| `Snapshots.DataValues` | app/src/test/java/org/clintonhealthaccess/lmis/app/services/CommoditySnapshotServiceTest.java:170-189 | There is one data value per snapshot, in input order. Each has the activity id as data element, the value's decimal text, the org unit and the day as period. |
| `Snapshots.DataValueSetFrom` | app/src/test/java/org/clintonhealthaccess/lmis/app/services/CommoditySnapshotServiceTest.java:182-185 | The batch has as many data values as there are snapshots. |
| `Snapshots.DataValuesReadBack` | app/src/test/java/org/clintonhealthaccess/lmis/app/services/CommoditySnapshotServiceTest.java:186-187 | The pushed text of every entry reads back as that snapshot's integer value. |
| `Snapshots.MarkedSynced` | app/src/test/java/org/clintonhealthaccess/lmis/app/services/CommoditySnapshotServiceTest.java:207-209 | Every row is synced afterwards, with its key and value unchanged. |
| `Snapshots.MarkedSyncedClears` | app/src/test/java/org/clintonhealthaccess/lmis/app/services/CommoditySnapshotServiceTest.java:205-209 | After a successful sync no unsynced row remains. |
| `Snapshots.MarkedSyncedEffect` | app/src/test/java/org/clintonhealthaccess/lmis/app/services/CommoditySnapshotServiceTest.java:191-212 | A successful sync changes only the rows of the pushed batch, and only their synced flag. Rows outside the batch are untouched, and keys stay unique. |
| `Snapshots.CommoditySnapshotService.Add` | app/src/test/java/org/clintonhealthaccess/lmis/app/services/CommoditySnapshotServiceTest.java:94-147 | The add succeeds exactly when the commodity has an activity, and then it creates or increments the key's row. Otherwise the table is unchanged. Unique keys are kept. |
| `Snapshots.CommoditySnapshotService.GetUnSyncedSnapshots` | app/src/test/java/org/clintonhealthaccess/lmis/app/services/CommoditySnapshotServiceTest.java:149-168 | Returns exactly the rows with synced == false, as many as the table has, and changes nothing. |
| `Snapshots.CommoditySnapshotService.SyncWithServer` | app/src/test/java/org/clintonhealthaccess/lmis/app/services/CommoditySnapshotServiceTest.java:191-234 | The batch is the data values of the unsynced rows for the org unit. On success every row is marked synced. On failure the table is unchanged. |
| `DispensingRecorder.FormatPrescriptionId` | app/src/main/java/org/clintonhealthaccess/lmis/app/services/DispensingService.java:108-118 | The loop that appends one zero per missing digit of the count builds the prescription id. |
| `DispensingRecorder.PaddingWidth` | app/src/main/java/org/clintonhealthaccess/lmis/app/services/DispensingService.java:111-116 | The zeros before the number, `Padding`, fill the count's digits up to four. A count of 1000 or more gets none. |
| `DispensingRecorder.SequenceNumberValue` | app/src/main/java/org/clintonhealthaccess/lmis/app/services/DispensingService.java:111-117 | The numeric part, `SequenceNumber`, is all digits, at least four of them, and denotes count + 1. |
| `DispensingRecorder.PrescriptionIdParts` | app/src/main/java/org/clintonhealthaccess/lmis/app/services/DispensingService.java:117 | The id, `PrescriptionId`, is the numeric part, then a dash, then the month. |
| `DispensingRecorder.PrescriptionIdsDistinct` | app/src/main/java/org/clintonhealthaccess/lmis/app/services/DispensingService.java:101-118 | Different counts give different ids in the same month. |
| `DispensingRecorder.PrescriptionIdExamples` | app/src/main/java/org/clintonhealthaccess/lmis/app/services/DispensingService.java:108-118 | A count of 0 gives "0001-" + month, 11 gives "0012-" + month, and 9 gives "00010-" + month. |
| `DispensingRecorder.PaddingQuirk` | app/src/main/java/org/clintonhealthaccess/lmis/app/services/DispensingService.java:111-116 | The numeric part is wider than both four digits and the width of count + 1 exactly when the count is 9, 99 or 999. |
| `DispensingRecorder.NoPaddingFromThousand` | app/src/main/java/org/clintonhealthaccess/lmis/app/services/DispensingService.java:112 | A count of 1000 or more gets no zeros: the numeric part is the text of count + 1. |
| `DispensingRecorder.PatientDispensingsWithin` | app/src/main/java/org/clintonhealthaccess/lmis/app/services/DispensingService.java:124-130 | The month's query keeps a dispensing if and only if it is in the table, was created between the first and last day inclusive, and went to a patient. |
| `DispensingRecorder.PatientCountAfter` | app/src/main/java/org/clintonhealthaccess/lmis/app/services/DispensingService.java:127 | One more dispensing raises the month's count by one exactly when it went to a patient within the month. A facility dispensing never changes the query's result. |
| `DispensingRecorder.TotalDispensed` | app/src/main/java/org/clintonhealthaccess/lmis/app/services/DispensingService.java:138-160 | The total of the join is 0 when the join keeps no item. It is never negative when no item has a negative quantity. |
| `DispensingRecorder.TotalDispensedAppend` | app/src/main/java/org/clintonhealthaccess/lmis/app/services/DispensingService.java:158-160 | The total over two runs of items is the sum of their totals. |
| `DispensingRecorder.TotalAfterAdd` | app/src/main/java/org/clintonhealthaccess/lmis/app/services/DispensingService.java:145-160 | Recording a dispensing adds to the total its own quantity of the commodity when its date is in the range, and nothing otherwise. |
| `DispensingRecorder.Attached` | app/src/main/java/org/clintonhealthaccess/lmis/app/services/DispensingService.java:75-77 | There is one saved item per line. |
| `DispensingRecorder.AttachedItems` | app/src/main/java/org/clintonhealthaccess/lmis/app/services/DispensingService.java:75-77 | There is one saved item per line, in order. Each has the line's commodity and quantity and a back-reference to the header. |
| `DispensingRecorder.StockAfter` | app/src/main/java/org/clintonhealthaccess/lmis/app/services/DispensingService.java:78 | One reduction per line keeps the length and the commodity column of the stock table. The quantities are stated by `DispensingRecorder.StockAfterQuantities`. |
| `DispensingRecorder.StockAfterQuantities` | app/src/main/java/org/clintonhealthaccess/lmis/app/services/DispensingService.java:75-78 | Each stock row goes down by the total its commodity was dispensed in. Two lines of one commodity reduce it by their sum. A commodity no line names is unchanged. |
| `DispensingRecorder.DispensingService.AddDispensing` | app/src/main/java/org/clintonhealthaccess/lmis/app/services/DispensingService.java:70-84 | The batch commits exactly when every line has an activity. It then appends the header, one item per line with its back-reference, one stock reduction per line and one snapshot add per line. Otherwise all four tables are as before. |
| `DispensingRecorder.DispensingService.GetNextPrescriptionId` | app/src/main/java/org/clintonhealthaccess/lmis/app/services/DispensingService.java:101-106 | The id is formatted from the month and the number of this month's patient dispensings. |
| `DispensingRecorder.DispensingService.GetTotalDispensed` | app/src/main/java/org/clintonhealthaccess/lmis/app/services/DispensingService.java:137-171 | The loop returns the sum of the quantities of the commodity's items whose header was created in the inclusive range. |

## Left out

- Screens, adapters, fragments and the publish/subscribe selection toggle: presentation only.
- The HTTP client, its URL, its authentication and its JSON parsing. The remote side is the
  single boolean `pushSucceeded`, decided outside the model. Pushing per remote data set is not
  modelled, because the sync that the test pins sends one batch.
- ORM and SQLite plumbing: helpers, DAOs, query builders, joins and tracing output. Each table
  is a sequence, a query is a filter, and a generated id is a position in its table.
- The transaction mechanism inside `withDaoAsBatch`. Only its all-or-nothing effect is
  modelled: the tables are saved before the batch and restored on failure.
- The clock and the locale (`new Date()`, the "MMM" month format, first and last day of the
  month). These are parameters.
- Snapshots.CommoditySnapshotService.Add: activity resolution is a parameter, and a commodity
  without an activity is a failed add. The service's real body is not part of this model, so
  no other error behaviour is modelled.
- Stock.StockService.ReduceStockLevelFor: its body is not part of this model. The contract
  comes from the call site and reduces every row of the commodity. The lookup's missing or
  duplicate row errors are not modelled for it.
- DispensingRecorder.DispensingService.GetTotalDispensed: storage failures do not exist in the
  model, so the exception that the `finally` block discards is not modelled. Java's 32-bit
  wrap-around of the running total is not modelled either: integers are unbounded.
- DispensingRecorder.FormatPrescriptionId: the count is a natural number, because the source
  only passes a list size. The overflow of count + 1 at the 32-bit limit is not modelled. The
  digits are ASCII; `String.format` with `%d` uses the default locale, and writes the same digits
  only in locales whose digits are ASCII.
- Snapshots.CommoditySnapshotService.SyncWithServer: the user is reduced to its org unit. The period is the day as an
  integer, not its formatted text. Other fields of the outbound set are not modelled.
- `snapshotDao.create` with a preset synced flag, used by the test as a fixture:
  `Scenarios` reaches the same states through `Add` and a successful sync.
- `StockService.initialise` has an empty body. Commodity display names in error messages are
  replaced by the commodity id.
