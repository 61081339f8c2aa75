# Inventory store and balance report, in Dafny

This project models the core of a small inventory application (`task2/app.py`).
It keeps three tables:

- products, keyed by product id;
- locations, keyed by location id;
- a ledger of product movements.

A movement moves a quantity of one product out of an optional source location
and into an optional destination location. A movement with no source is a
receipt from outside. A movement with no destination is a shipment out.

On top of these tables the application offers:

- add and edit forms for each table;
- product, location and movement pages, where each history is listed newest first;
- a dashboard with four counts;
- a balance view that folds the ledger into the on-hand quantity of every
  product at every location. It comes in two forms: a JSON snapshot, and an
  HTML report of the non-zero entries in dictionary order.

Modules:

- `Records`: the three records. Python truthiness of a location column. The
  movement forms' rule that an empty field means "no location". The `Query.get`
  lookup.
- `PyDict`: Python's insertion-ordered `dict`, as a key sequence plus a map.
- `Ledger`: the reference definition of a balance. It is credits minus debits
  per (product, location) pair, summed over the ledger, and `NetBalance` is the
  nested-map snapshot. The lemmas prove that this definition ignores the order
  of the ledger, and they cover self-transfers, external-only movements, and a
  concrete scenario that ends with a negative balance.
- `BalanceFold`: the per-movement step of the balance loop, and the fold it
  makes over the ledger. The fold is proved equal to `NetBalance`. Its product
  keys are proved to follow first appearance in the ledger. Its location keys
  follow the first movement that names each location, and within one movement
  the destination comes before the source.
- `Balance`: the two balance endpoints as loops (`Accumulate`, `Flatten`,
  `ApiBalance`, `BalanceReport`). Each is proved against the fold. The rows of
  the report are proved sound, complete and ordered.
- `History`: the filtered, newest-first histories. The dashboard's
  active-locations counter is modelled both as written and corrected.
- `Store`: the tables as a class whose fields the handlers update. It also
  holds the read-only pages, the dashboard and the two balance views over the
  current tables.

The clock (`datetime.utcnow`) is a `now` parameter, and timestamps are integers.

The foreign keys declared on the movement table are checked explicitly. A
movement whose product, source or destination does not exist is refused with
`DanglingReference`, and the store's invariant keeps every movement's
references resolving. SQLite leaves foreign-key enforcement off unless it is
switched on, and the application does not switch it on. The failure message
in the add-movement handler shows that the authors rely on the check.

The balance report on its own (`Balance.BalanceReport`) accepts arbitrary
tables and keeps the source's behaviour there: a missing product or location
appears in its row as no record. Over the store's tables,
`Store.InventoryStore.BalanceReport` proves this case never arises.

## Model

| member | source | states |
|---|---|---|
| Records.FormLocation | task2/app.py:165-166 | an empty form field becomes no location, and every other value becomes that location, which is then truthy |
| Records.Lookup | task2/app.py:240 | a primary-key lookup finds a record exactly when the key is in the table, and returns the stored record |
| PyDict.Empty | task2/app.py:212 | a fresh dictionary has no entries and lists no keys |
| PyDict.Put | task2/app.py:222-228 | `d[k] = v`; no contract of its own: PyDict.PutValid states that the key order stays duplicate-free, and BalanceFold.StepKeys states where a new key goes |
| PyDict.PutValid | task2/app.py:222-223 | assigning to a dictionary key keeps every key listed exactly once, whether the key was new or not |
| Ledger.Net | task2/app.py:226-235 | the reference balance of one pair, with no contract of its own: its meaning is given by NetOrderFree, BalanceOrderFree and SampleNet, and BalanceFold.FoldMeaning ties the loop to it |
| Ledger.CreditsConcat | task2/app.py:217-229 | the quantity brought into a location by two ledgers laid end to end is the sum of what each brings |
| Ledger.DebitsConcat | task2/app.py:217-235 | the quantity taken out of a location by two ledgers laid end to end is the sum of what each takes |
| Ledger.NetWithout | task2/app.py:217-235 | taking one movement out of a ledger removes exactly its own credit and debit |
| Ledger.NetOrderFree | task2/app.py:258-273 | the balance of a product at a location does not depend on the order in which the movements are scanned |
| Ledger.BalanceOrderFree | task2/app.py:255-275 | any reordering of the ledger gives the same balance snapshot |
| Ledger.SelfTransferNeutral | task2/app.py:226-235 | a movement from a location to the same location changes no balance, yet its pair still appears in the snapshot |
| Ledger.ProductsSnoc | task2/app.py:222-223 | appending a movement adds exactly its product to the products of the snapshot |
| Ledger.LocationsSnoc | task2/app.py:226-234 | appending a movement adds exactly the truthy locations it names to its product's locations |
| Ledger.FirstAt | task2/app.py:222-223 | the index at which a product first appears in the ledger: that movement is of the product, and no earlier one is |
| Ledger.FirstTouchMeaning | task2/app.py:226-234 | the movement at a location's first-touch index names that location for the product, and no earlier movement does |
| Ledger.ExternalOnlyMovement | task2/app.py:222-235 | a movement with neither a source nor a destination changes no balance, but it does register its product with no locations |
| Ledger.ExternalOnlyHoldings | task2/app.py:226-235 | a movement with neither a source nor a destination leaves every product's location balances as they were |
| Ledger.SampleProducts | task2/app.py:222-223 | the sample ledger (receive 10 at A, move 4 from A to B, ship 6 from B) has exactly one product |
| Ledger.SampleLocations | task2/app.py:226-234 | the sample ledger names locations A and B and no others |
| Ledger.SampleNet | task2/app.py:226-235 | in the sample ledger each location's balance is its receipts minus its issues, and locations not named have zero |
| Ledger.NegativeBalanceScenario | task2/app.py:226-235 | balances are not clamped: the sample ledger ends with 6 at A and -2 at B |
| BalanceFold.Bump | task2/app.py:227-229 | setting up a location entry at zero and adding to it; no contract of its own: Balance.AddAt is proved equal to it and BalanceFold.BumpSideMeaning states its effect |
| BalanceFold.WithProduct | task2/app.py:222-223 | after the initialisation step the product has an entry |
| BalanceFold.BumpSide | task2/app.py:226-235 | one side of a movement, skipped when the side is not truthy; no contract of its own: BalanceFold.BumpSideMeaning states its effect |
| BalanceFold.BumpSideMeaning | task2/app.py:226-235 | one side of a movement adds its location to the product's keys only when the side is truthy, and adds the quantity there and nowhere else |
| BalanceFold.Step | task2/app.py:218-235 | one loop iteration; no contract of its own: BalanceFold.StepProducts, StepLocations, StepValue and StepKeys state its effect |
| BalanceFold.WithProductMeaning | task2/app.py:222-223 | the initialisation step adds only the product key and changes no location key or value |
| BalanceFold.StepProducts | task2/app.py:222-223 | an iteration adds exactly the movement's product to the product keys |
| BalanceFold.StepLocations | task2/app.py:226-234 | an iteration adds exactly the movement's truthy locations to its product's location keys |
| BalanceFold.StepValue | task2/app.py:226-235 | an iteration changes each value by the movement's credit minus its debit |
| BalanceFold.Fold | task2/app.py:212-235 | the whole loop over the ledger; no contract of its own: BalanceFold.FoldMeaning, FoldIsNetBalance and FoldOrder state its result |
| BalanceFold.FoldMeaning | task2/app.py:217-235 | after the loop, the products are those with movements, each product's locations are those its movements name, and each value is credits minus debits |
| BalanceFold.FoldIsNetBalance | task2/app.py:255-275 | the loop's dictionary is exactly the reference balance snapshot |
| BalanceFold.BumpSideValid | task2/app.py:226-235 | updating one side keeps the outer dictionary well-formed and keeps the product's entry |
| BalanceFold.BumpSideTallyValid | task2/app.py:226-235 | updating one side keeps every inner dictionary well-formed |
| BalanceFold.StepValid | task2/app.py:218-235 | an iteration keeps the outer dictionary well-formed |
| BalanceFold.StepTallyValid | task2/app.py:218-235 | an iteration keeps every inner dictionary well-formed |
| BalanceFold.FoldWellFormed | task2/app.py:217-235 | the loop's result is a well-formed nested dictionary |
| BalanceFold.StepKeys | task2/app.py:222-235 | an iteration appends a new product at the end of the key order, leaves other products untouched, and extends the product's location order by the new locations it names |
| BalanceFold.FirstAtSnoc | task2/app.py:222-223 | a product's first appearance does not move when a movement is appended, and a new product first appears at the appended movement |
| BalanceFold.TouchRankSnoc | task2/app.py:226-234 | a location's rank does not move when a movement is appended; a new location is ranked by the appended movement, destination before source |
| BalanceFold.TallyRankOld | task2/app.py:226-234 | the locations already in a product's dictionary keep their places and their ranks |
| BalanceFold.NewLocationRank | task2/app.py:226-234 | a location the appended movement names for the first time is ranked after every earlier location, destination before source |
| BalanceFold.TallyRankNew | task2/app.py:226-234 | locations that an iteration appends get consecutive ranks after the old ones, the destination first |
| BalanceFold.StepTallyOrder | task2/app.py:226-234 | an iteration keeps the moved product's locations in first-touch order |
| BalanceFold.StepProductOrder | task2/app.py:222-223 | an iteration keeps the products in order of first appearance |
| BalanceFold.StepOtherOrder | task2/app.py:222-234 | an iteration keeps the location order of every other product |
| BalanceFold.FoldOrder | task2/app.py:217-235 | after the loop, products are in order of first appearance in the ledger and each product's locations are in first-touch order |
| Balance.AddAt | task2/app.py:226-235 | adding to one location's entry sets it up at zero if needed and adds the delta there |
| Balance.Accumulate | task2/app.py:212-235 | the loop over the ledger builds the fold of the whole ledger |
| Balance.ApiBalance | task2/app.py:253-275 | the JSON endpoint returns exactly the balance snapshot of the ledger |
| Balance.AppendTally | task2/app.py:240-248 | the inner loop appends one row per non-zero location of the product, in key order, each with the looked-up location |
| Balance.Flatten | task2/app.py:237-248 | the outer loop produces the rows of every product in key order |
| Balance.TallyRowsShow | task2/app.py:241-248 | each row of a product carries a non-zero quantity from its dictionary with both lookups, and every non-zero location gets a row |
| Balance.TallyRowsOrder | task2/app.py:241 | the rows of one product follow its locations' first-touch order |
| Balance.OrderConcat | task2/app.py:239-248 | helper for ReportRowsOrder, a fact about row sequences: joining two ordered row lists, where every row of the first comes before every row of the second, gives an ordered list |
| Balance.ReportRowsShow | task2/app.py:239-248 | every report row carries a non-zero dictionary value with its product and location lookups, and every non-zero entry gets a row |
| Balance.ReportRowsOrder | task2/app.py:239-241 | report rows are ordered by product first appearance, then by location first touch |
| Balance.ReportSound | task2/app.py:238-248 | every report row is a non-zero snapshot entry with the lookups of its product and location |
| Balance.ReportComplete | task2/app.py:242 | every non-zero snapshot entry has a report row, and only zero balances are left out |
| Balance.ReportOrdered | task2/app.py:239-241 | report rows come in dictionary order |
| Balance.BalanceReport | task2/app.py:209-250 | the report rows are exactly the non-zero snapshot entries with their lookups, in dictionary order, and no (product, location) pair appears twice |
| Balance.OrderedRowsDistinct | task2/app.py:239-248 | rows in dictionary order never repeat a (product, location) pair, which is how both report methods promise it |
| History.Matches | task2/app.py:150-151 | the `filter_by` conditions, SQL equality on a column; no contract of its own: History.Query states which movements each page keeps |
| History.Select | task2/app.py:150-151 | a filter keeps exactly the movements that match, each as often as it occurs |
| History.Insert | task2/app.py:157 | inserting into a newest-first list keeps it newest first and adds exactly that movement |
| History.SortNewestFirst | task2/app.py:157 | ordering by timestamp descending gives a newest-first permutation of the input |
| History.Query | task2/app.py:150-157 | a history page lists exactly the matching movements, each as often as it occurs, newest first |
| History.DestinationMeansIncoming | task2/app.py:150 | a location is some movement's destination exactly when its incoming history is non-empty |
| History.SourceMeansOutgoing | task2/app.py:151 | a location is some movement's source exactly when its outgoing history is non-empty |
| History.ActiveLocations | task2/app.py:57-59 | the corrected counter, each location with movements once; no contract of its own: History.ActiveMeansHistory, ActiveAtMostAsWritten and Store.ActiveAreLocations state what it counts |
| History.ActiveMeansHistory | task2/app.py:58-59 | in the corrected count, a location is active exactly when its incoming or outgoing history is non-empty |
| History.SomeImage | task2/app.py:58-59 | helper for ColumnCount, a fact about sets: wrapping location ids as column values neither merges nor loses any |
| History.ColumnCount | task2/app.py:58-59 | the number of distinct values in a column is the number of distinct locations in it, plus one if a missing value occurs |
| History.ActiveLocationsAsWritten | task2/app.py:58-59 | the dashboard counter exactly as written; no contract of its own: History.AsWrittenCount, NullCountedAsLocation and BothSidesCountedTwice state what it counts |
| History.AsWrittenCount | task2/app.py:58-59 | the counter as written adds one per column holding a missing location, and counts each location once per side it occurs on |
| History.ActiveAtMostAsWritten | task2/app.py:58-59 | the corrected count never exceeds the count as written |
| History.NullCountedAsLocation | task2/app.py:58-59 | one receipt into A: the counter as written gives 2 and the corrected count gives 1 |
| History.BothSidesCountedTwice | task2/app.py:58-59 | a transfer from A to B and one back: the counter as written gives 4 and the corrected count gives 2 |
| Store.Resolves | task2/app.py:35-37 | the declared foreign keys of a movement; no contract of its own: the store invariant requires it of every movement, and Store.SnapshotResolves and ActiveAreLocations state its consequences |
| Store.MovementIndex | task2/app.py:185 | a movement-id lookup returns the position of the movement with that id, or nothing when no movement has it |
| Store.SnapshotResolves | task2/app.py:240-243 | when every movement's references resolve, every product and location in the snapshot exists |
| Store.ActiveAreLocations | task2/app.py:58-59 | with resolving references, the active locations are exactly the existing locations with a non-empty incoming or outgoing history |
| Store.SubsetCard | task2/app.py:58-59 | helper for Dashboard, a fact about sets: a subset of the locations is no larger than the set of locations |
| Store.InventoryStore.constructor | task2/app.py:278-279 | the tables start empty and the store invariant holds |
| Store.InventoryStore.AddProduct | task2/app.py:74-87 | a new id is inserted with the given fields and the current time; a taken id is refused and nothing changes |
| Store.InventoryStore.EditProduct | task2/app.py:91-101 | name and description are replaced and the id and creation time kept; an unknown id is not found |
| Store.InventoryStore.AddLocation | task2/app.py:117-130 | a new id is inserted with the given fields and the current time; a taken id is refused and nothing changes |
| Store.InventoryStore.EditLocation | task2/app.py:134-144 | name and address are replaced and the id and creation time kept; an unknown id is not found |
| Store.InventoryStore.AddMovement | task2/app.py:161-177 | empty location fields become no location; the movement is appended unless its id is taken or a reference does not resolve, and then nothing changes |
| Store.InventoryStore.EditMovement | task2/app.py:184-197 | locations, product, quantity and notes are replaced in place and the id and timestamp kept; an unknown id is not found; an edit with a dangling reference changes nothing |
| Store.InventoryStore.ProductPage | task2/app.py:105-107 | an existing product is shown with exactly its movements, each as often as in the table, newest first; an unknown product is not found |
| Store.InventoryStore.LocationPage | task2/app.py:148-151 | an existing location is shown with exactly its incoming and exactly its outgoing movements, each movement as often as in the table and each list newest first; an unknown location is not found |
| Store.InventoryStore.MovementsPage | task2/app.py:156-157 | every movement, each once, newest first |
| Store.InventoryStore.MovementPage | task2/app.py:204-205 | a movement is shown exactly when its id exists, and it is the movement with that id |
| Store.InventoryStore.Dashboard | task2/app.py:52-59 | the product, location and movement counts, and the number of existing locations with a non-empty history, which is at most the number of locations |
| Store.InventoryStore.ApiBalance | task2/app.py:253-275 | the JSON endpoint over the current ledger returns its balance snapshot |
| Store.InventoryStore.BalanceReport | task2/app.py:209-250 | over the store's tables, the report rows are the non-zero snapshot entries in dictionary order, and every row has its product and location record, and no (product, location) pair appears twice |

## Left out

- HTTP: routing, request parsing, templates, flash messages and redirects. The
  GET branches of the form handlers only render a form and are not modelled.
- The product list and location list pages (`task2/app.py:68-71`, `111-114`)
  return their whole table. The maps are the model of that.
- SQLAlchemy sessions and the SQLite engine. Each handler is one
  all-or-nothing update of in-memory tables. A commit that fails for a reason
  other than a key or reference violation (disk, locking) is not modelled,
  so the edit-product and edit-location handlers never fail on a known id.
- Column widths (`String(50)`, `String(100)`) and `nullable=False` on the
  names. SQLite enforces neither width, and the forms always supply a string.
- `int(request.form['qty'])`: the quantity arrives as an integer. A field that
  does not parse raises before any change, and that path is not modelled.
- The 64-bit range of SQLite's `INTEGER`. Quantities and balances are unbounded
  integers.
- `datetime.utcnow`: the caller supplies the time as an integer `now`.
- History.SortNewestFirst: SQL leaves the order of equal timestamps
  unspecified. The model keeps ledger order among them, and the contracts
  state only newest-first order and the permutation.
- The JSON encoding of the `/api/balance` snapshot. `ApiBalance` returns the
  nested map itself.
- Concurrency between requests.
- The sample-data script and the test script in the repository. They are not
  part of this model.

## Findings

| source | as written | input that shows it | evidently intended | confidence | as-written member | corrected member |
|---|---|---|---|---|---|---|
| task2/app.py:58-59 | `count()` over `SELECT DISTINCT to_location` counts the NULL of a missing location as one more active location, and the same holds for `from_location` | one receipt into A with no source: the dashboard shows 2 active locations | 1 active location: only existing locations with movements are counted | high, not executed | History.NullCountedAsLocation | Store.InventoryStore.Dashboard |
| task2/app.py:58-59 | the destination count and the source count are added, so a location on both sides is counted twice | a transfer A to B and one B to A: the dashboard shows 4 active locations | 2 active locations: each location once | medium, not executed | History.BothSidesCountedTwice | History.ActiveMeansHistory |
