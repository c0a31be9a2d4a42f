# Inventory balance engine — a Dafny model

This project models the core of a small Flask/SQLAlchemy inventory tracker.
The tracker keeps an append-only ledger of product movements between storage
locations. From that ledger it computes, on demand, the net quantity of each
product at each location. Two pieces of logic are modelled and proved:

* **The balance aggregator** (`calculate_inventory_balance` in `app.py`).
  Two grouped `SUM(qty)` queries run over the movement table. The incoming
  one joins on the destination and the outgoing one joins on the source.
  Both group by (product name, location name). Two loops fold the query rows
  into a dictionary: incoming sums are added, outgoing sums subtracted. A
  comprehension then keeps every entry whose value is not 0 and turns it into
  a `{product, warehouse, qty}` record.
* **Movement admission** (the POST branch of `manage_movements`). The product
  id must be present, the quantity present and positive, and at least one
  location field filled in. Location fields holding the literal `"None"` are
  then normalised to no location, and the movement is added to the ledger.

## Structure

* `wrappers.dfy` — `Option` and `Result`.
* `ledger.dfy` (module `Ledger`): the data model. It has `Movement`, which
  mirrors the columns of the `ProductMovement` table (app.py:37-48), and a
  `Catalog` holding the product and location tables as id-to-name maps.
  Per group there is `Sum`, which is `SUM(qty)` over the movements the inner
  joins place in that group, plus `GroupKeys`/`GroupedSums` (the two queries)
  and `Net` (the incoming sum minus the outgoing sum). `NetByMovement` is an
  independent reference definition that adds up each movement's effect, with
  the lemmas that relate them. The laws for inbound, outbound and transfer
  movements live here too.
* `balance.dfy` (module `Balance`): the imperative part.
  * `Dict` is a Python dictionary with its insertion order.
  * `Accumulate` is one loop over a query's rows, with its invariants.
    `ConsolidateBalances` runs it for the incoming and then the outgoing
    query.
  * `ReportRows` is the zero-filtering comprehension.
  * `CalculateInventoryBalance` is the whole function. Its contract says the
    report has exactly one record for each key whose net balance is not
    zero, and that record carries that net balance.
* `movements.dfy` (module `Movements`): `Validate`, a pure function of the
  raw form fields. `Store` is a class whose `movements` field grows only on
  the success path of `SubmitMovement`.
* `scenarios.dfy` (module `Scenarios`): a single inbound, a single transfer,
  an inbound cancelled by an outbound (whose report is empty), and the first
  five movements of the sample data set. Those give 45 Laptop Pro and 100
  Monitor 27" at Warehouse A, and 14 Laptop Pro at Shop Floor.

Modelling choices:

* The database is a parameter. `calculate_inventory_balance` reads the
  ledger and the catalogue; these are the `ledger` and `cat` arguments.
* SQL returns rows in no fixed order. The loops therefore pick the next row
  with `:|`, and every proved property holds for any order.
* Python dictionaries iterate in insertion order. `Dict.order` records that
  order, and `ReportRows` walks it.
* The commit outcome is the `commitSucceeds` parameter of
  `SubmitMovement`.

Some of the code's behaviour is surprising. The model keeps it as written:

* The code does not check that the product id or the location ids exist.
  It relies on foreign keys, which SQLite does not enforce by default. So
  `Validate` has no unknown-reference check. At aggregation time, a movement
  whose ids resolve to no table row is dropped by the inner joins
  (`UnjoinedMovementIsInert`). It is not reported as an internal fault.
* The check "at least one location" runs before the `"None"` normalisation.
  So `from = "None"` with `to = "None"` is admitted as a movement with no
  endpoint (`NoneForBothIsAdmitted`). That movement changes no balance
  (`NoneForBothIsInert`).
* An empty-string location field is left unchanged by the `"None"`
  normalisation and is stored as the location id `""`.
* The report is not sorted. Its order follows the dictionary's insertion
  order.

## Model

| member | source | states |
|---|---|---|
| `Ledger.KeyOf` | app.py:68-79 | a movement joins to a group exactly when its product id and the pass's endpoint both resolve to table rows; the group's key is then made of a product name and a location name |
| `Ledger.Sum` | app.py:68-79 | a group's SUM(qty) is never negative on a ledger whose quantities are all positive |
| `Ledger.Net` | app.py:82-92 | with positive quantities, a net balance lies between minus the outgoing sum and the incoming sum |
| `Ledger.GroupKeys` | app.py:68-79 | the groups of one grouped pass are exactly the (product name, location name) keys that some movement joins to through its product and its endpoint |
| `Ledger.GroupedSums` | app.py:68-79 | the query result has one row per group that some movement reaches, and each row carries that group's SUM(qty) |
| `Ledger.SumOfUnmentioned` | app.py:85-92 | a key that no movement joins to sums to 0, which agrees with the `get(key, 0)` default |
| `Ledger.SumAppend` | app.py:68-79 | appending a movement adds exactly its contribution to each group sum |
| `Ledger.SumConcat` | app.py:68-79 | group sums distribute over concatenation of ledgers |
| `Ledger.NetAppend` | app.py:82-92 | appending a movement changes each net balance by +qty at its resolved destination and -qty at its resolved source; each pass counts it once |
| `Ledger.NetConcat` | app.py:82-92 | net balances distribute over concatenation of ledgers |
| `Ledger.NetIsNetByMovement` | app.py:64-92 | the two grouped passes equal the movement-by-movement sum of effects (+qty to, -qty from) |
| `Ledger.NonzeroNetIsGrouped` | app.py:68-92 | a key with a non-zero net balance is a group of the incoming or the outgoing query |
| `Ledger.InboundEffect` | app.py:68-72 | an inbound movement adds its qty at (product name, destination name) and leaves every other key unchanged |
| `Ledger.OutboundEffect` | app.py:75-79 | an outbound movement subtracts its qty at (product name, source name) and leaves every other key unchanged |
| `Ledger.TransferEffect` | app.py:64-92 | a transfer between differently named locations gives -qty at the source, +qty at the destination and nothing elsewhere; the two-key total is conserved |
| `Ledger.SelfTransferIsNeutral` | app.py:85-98 | a movement whose from equals its to changes no net balance |
| `Ledger.UnjoinedMovementIsInert` | app.py:72-79 | a movement that neither inner join resolves changes no net balance |
| `Ledger.InThenOutCancels` | app.py:85-98 | an inbound Q then an outbound Q of the same product at the same location leaves every net balance as it was |
| `Ledger.SameNameMerges` | app.py:68-72 | grouping is by name: two location ids with one name feed a single balance |
| `Balance.GetOrZero` | app.py:87 | `get(key, 0)` returns the stored value for a present key and 0 for a missing one |
| `Balance.Dict.Get` | app.py:87 | `balances.get(key, 0)` returns the stored value of a present key; a non-zero read comes from a key in the iteration order |
| `Balance.Dict.Put` | app.py:87 | a dictionary store keeps the insertion order valid (distinct keys, same key set) and updates exactly that entry; an existing key keeps its place and a new key goes last in the iteration order |
| `Balance.Accumulate` | app.py:85-92 | after one loop over a query's rows, in any order, the dictionary holds its old keys plus the query's groups, each entry moved by that group's sum (added for incoming, subtracted for outgoing) |
| `Balance.ConsolidateBalances` | app.py:82-92 | after both loops the dictionary's keys are the union of the two queries' groups, and each entry is incoming sum minus outgoing sum (a missing group counts as 0), whatever the row order |
| `Balance.ReportRows` | app.py:95-98 | every record comes from a dictionary entry whose value is not zero, and carries that value |
| `Balance.ReportRowsComplete` | app.py:95-98 | every dictionary entry whose value is not zero yields a record |
| `Balance.ReportRowsDistinct` | app.py:95-98 | no key yields two records |
| `Balance.GroupedSumsGiveNet` | app.py:82-92 | incoming group sum minus outgoing group sum (a missing group counting as 0) is the net balance |
| `Balance.CalculateInventoryBalance` | app.py:60-100 | the report holds exactly one record per key whose net balance is not zero, carrying that balance; no record has qty 0 |
| `Movements.Blank` | app.py:166-171 | a field is truthy exactly when it holds a non-empty string; the literal "None" is truthy |
| `Movements.Normalise` | app.py:176-177 | only the literal "None" becomes no location; every other value, "" included, is kept |
| `Movements.Validate` | app.py:160-177 | admits exactly when the product id is non-empty, qty is present and > 0, and the two raw location fields are not both blank; the first check's failure is reported first; on success the movement carries the given product and qty and the normalised endpoints |
| `Movements.AdmittedEndpoints` | app.py:171-177 | an admitted movement has no endpoint exactly when each location field was absent or "None" |
| `Movements.RejectionExamples` | app.py:166-173 | qty 0, qty -5, a missing qty and an empty product are rejected by the first check; no location is rejected by the second |
| `Movements.NoneForBothIsAdmitted` | app.py:171-177 | "None" for both locations passes and yields a movement with neither endpoint |
| `Movements.NoneForBothIsInert` | app.py:171-177 | that endpoint-less movement changes no balance |
| `Movements.Store.SubmitMovement` | app.py:159-193 | on rejection or a failed commit the ledger is unchanged and the reason is returned; otherwise exactly the validated movement is appended |
| `Scenarios.SingleInbound` | app.py:67-72 | one inbound of q to l gives q at (product, l) and 0 everywhere else |
| `Scenarios.SingleTransfer` | app.py:64-92 | one transfer of q gives -q at the source, +q at the destination and 0 everywhere else |
| `Scenarios.InboundThenOutbound` | app.py:85-98 | inbound q then outbound q at the same pair nets to 0 everywhere |
| `Scenarios.InboundThenOutboundReport` | app.py:85-98 | the balance report for inbound q then outbound q at the same pair is empty |
| `Scenarios.SeedOpening` | app.py:228-238 | the first five seed movements (Laptop Pro +50 and Monitor 27" +100 to Warehouse A, Laptop Pro +10 to Shop Floor, 5 from Warehouse A to Shop Floor, 1 out of Shop Floor) net to 45 Laptop Pro and 100 Monitor 27" at Warehouse A, 14 Laptop Pro at Shop Floor, and nothing else |

## Left out

- Flask routing, templates, `flash`, `redirect` and reading `request.form`: these are web I/O. The form fields are parameters of `Validate`, with `qty` already parsed (`None` when it is missing or not an integer).
- Product and location creation routes: these are name-required checks in front of database inserts.
- SQLAlchemy sessions, `commit`, `rollback` and exceptions: the commit outcome is the `commitSucceeds` parameter, and a failed commit leaves the ledger unchanged.
- UUID identifiers and timestamps: these are nondeterministic foreign calls. Ids are plain strings in the model.
- The "latest 50 by timestamp" movement listing: it is a display query over timestamps, which are not modelled.
- The `init-db` and `seed-data` commands and the server runner. Only the first five seed movements appear, as `Scenarios.SeedOpening`; the seed catalogue's ids are plain strings "1" to "3".
- SQL integer behaviour: quantities and sums are unbounded integers. SQLite's 64-bit SUM overflow error is not modelled.
- Balance.CalculateInventoryBalance: does not fix the order of the records. The order depends on the order the database returns query rows in, which nothing specifies. The contract pins down the set of records and their uniqueness.
