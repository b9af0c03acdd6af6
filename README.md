# blkshp_os core, modelled in Dafny

blkshp_os is a Frappe application for restaurant and hospitality back offices. This project models its core and proves properties of the model. It covers the following areas:

- **Products.** Units of measure and conversion between them: base units, volume/weight/count routes and purchase units. It also covers a product's department allocations.
- **Inventory.** The stock ledger with running balances, the inventory balance table and inventory audits. Audits move through a status life cycle, build counting tasks and close with variance adjustments. Batch numbers carry expiry and status.
- **Recipes.** Costed recipes with inherited allergens, and recipe batches that post production movements to inventory.
- **Permissions.** The permission code registry, roles and their permission rows, and department-level permissions. It also covers the permission service that decides department access, and the client-side rules of the User and Department forms.
- **Departments.** Departments and their hierarchy, product-to-department allocations and product categories.
- **Subscriptions.** Subscription plans and module activations, with feature overrides. It covers the subscription context and feature-matrix caches, access enforcement with its access log, and the tenant-management page.
- **Intercompany accounting.** Company groups, intercompany settlements and the intercompany balance service.
- **HTTP API endpoints.** The endpoints for inventory, finance, roles and departments.

One Dafny module stands for one source file. Each module is named after the file's doctype or service, for example `InventoryAudit` for `inventory_audit.py` and `DepartmentsApi` for `api/departments.py`. Shared pieces live in their own modules:

- `Common`: Option and Result, Python-style `strip`/`lower`/`split` and stable sorting;
- `JsonValue`: a JSON value tree;
- `PyDict`: an insertion-ordered Python dictionary;
- `Hierarchy`: the parent-chain walk shared by the cycle checks.

The model takes three forms, following the source:

- **Documents whose methods update their own fields** are classes. Examples are a Role's permission rows, an audit's status and tasks, the ledger and balance table, and the caches. Their methods state the new state through `modifies` and `ensures`, relative to specification functions.
- **Pure checks and queries** are functions with named results. Lemmas relate them to each other.
- **Loops of the source** are methods with loop invariants, proved against the function that specifies them. Examples are the `list_audits` filter, bulk permission assignment and the intercompany pair enumeration.

The framework is replaced by parameters:

- the Frappe database becomes sequences and maps of rows;
- the session user and roles become a parameter;
- "today" and "now" become integer days and integer timestamps;
- the JSON parser becomes a decoded `Option<Json>`;
- answers from code outside the core become parameters, such as the subscription-gate bypass and document-level `has_permission`.

Errors that Frappe raises through `frappe.throw` are `Err` results carrying the message text. A failed request leaves the state unchanged, which is how the framework's transaction rollback appears in the model.

## Model

| member | source | states |
|---|---|---|
| Conversion.NormalizeUnit | blkshp_os/products/conversion.py:53-57 | a missing unit becomes ""; otherwise the name is stripped and lower-cased, and normalising twice changes nothing |
| Conversion.Standard | blkshp_os/products/conversion.py:89-110 | quantity times the source factor divided by the target factor, and no route when either unit is outside the table |
| Conversion.FirstMatch | blkshp_os/products/conversion.py:120-137 | the first purchase row whose unit or row name matches, and no earlier row matches |
| Conversion.ApplyRow | blkshp_os/products/conversion.py:126-137 | a missing factor raises the TypeError, a non-positive one gives no route, otherwise multiplies (to primary) or divides (from primary) |
| Conversion.FromMeasure | blkshp_os/products/conversion.py:142-187 | routes into primary units through the product's volume or weight unit only when the unit and the factor are set and positive |
| Conversion.ToMeasure | blkshp_os/products/conversion.py:219-266 | routes out of primary units through the volume or weight unit under the same conditions |
| Conversion.MeasureRoutes | blkshp_os/products/conversion.py:142-266 | both measure directions apply under exactly the same condition, whatever the quantity |
| Conversion.ToPrimary | blkshp_os/products/conversion.py:269-314 | the non-empty primary unit returns the quantity unchanged; any refusal other than the missing-factor crash is the "cannot convert from" message for the normalised unit |
| Conversion.ToPrimaryOrder | blkshp_os/products/conversion.py:288-314 | outside the primary unit: a missing factor on the first matching purchase row raises, a positive one multiplies; otherwise the volume route, then the weight route decides; refusal exactly when the purchase rows miss and neither measure route applies |
| Conversion.ToPrimaryRoutes | blkshp_os/products/conversion.py:288-314 | the result is the first purchase/volume/weight route that does not miss, in that order |
| Conversion.PurchaseRoute | blkshp_os/products/conversion.py:113-139 | a purchase route misses exactly when no row matches or the first match has a non-positive factor, raises exactly on a missing factor, otherwise scales by the first match |
| Conversion.RoutesApply | blkshp_os/products/conversion.py:142-266 | the volume and weight routes apply, in either direction, exactly when the measure unit and factor are usable and the unit is the base or both are in the table |
| Conversion.FromPrimary | blkshp_os/products/conversion.py:317-362 | the non-empty primary unit returns the quantity unchanged; any refusal other than the missing-factor crash is the "cannot convert to" message |
| Conversion.FromPrimaryOrder | blkshp_os/products/conversion.py:336-362 | outside the primary unit: the first matching purchase row decides (raise on a missing factor, divide by a positive one), then the volume route, then the weight route; refusal exactly when all three miss |
| Conversion.FromPrimaryRoutes | blkshp_os/products/conversion.py:336-362 | the result is the first purchase/volume/weight route that does not miss, in that order |
| Conversion.Between | blkshp_os/products/conversion.py:365-383 | a failure on the way in is passed on; a result converted back to primary from the target unit gives the input's primary quantity |
| Conversion.AvailableCountUnits | blkshp_os/products/conversion.py:386-418 | strictly sorted, and holds exactly the primary, purchase, volume-table and weight-table units the product lists |
| Conversion.CandidatesListed | blkshp_os/products/conversion.py:395-416 | the gathered candidates are exactly the listed units |
| Conversion.BaseForward | blkshp_os/products/conversion.py:142-241 | through a base unit and back returns the quantity |
| Conversion.BaseBackward | blkshp_os/products/conversion.py:142-241 | out of primary through a base unit and back returns the quantity |
| Conversion.MeasureRoundTrip | blkshp_os/products/conversion.py:142-266 | a measure route taken there and back returns the quantity |
| Conversion.PurchaseShape | blkshp_os/products/conversion.py:113-216 | the purchase route picks its row by unit alone, so both directions have the same outcome kind |
| Conversion.PurchaseRoundTrip | blkshp_os/products/conversion.py:113-216 | multiplying by a purchase row's factor and dividing by it returns the quantity |
| Conversion.ApplyRowTrip | blkshp_os/products/conversion.py:126-214 | a positive row factor applied both ways returns the quantity |
| Conversion.ToPrimaryRoundTrip | blkshp_os/products/conversion.py:269-362 | from primary of to primary returns the quantity for every convertible unit |
| Conversion.FromPrimaryRoundTrip | blkshp_os/products/conversion.py:269-362 | to primary of from primary returns the quantity for every unit primary converts to |
| Conversion.BetweenRoundTrip | blkshp_os/products/conversion.py:365-383 | converting between two units and back returns the original quantity |
| Conversion.BetweenSameUnit | blkshp_os/products/conversion.py:365-383 | a convertible unit converted to itself is unchanged |
| Conversion.ConvertibilityIgnoresQuantity | blkshp_os/products/conversion.py:269-362 | whether a unit converts never depends on the quantity |
| Conversion.ConvertibleUnitsAreListed | blkshp_os/products/conversion.py:386-418 | every unit that converts is listed, unless it matched a purchase row only by the row's name |
| Conversion.NormalFormFixed | blkshp_os/products/conversion.py:53-57 | a string without surrounding whitespace or upper-case letters is its own normal form |
| Conversion.ListedIsNormalized | blkshp_os/products/conversion.py:395-418 | every listed unit is already in normal form |
| Conversion.ListedUnitsConvert | blkshp_os/products/conversion.py:386-418 | on a well-configured product every listed unit converts to primary |
| ProductDoc.FirstMatch | blkshp_os/products/doctype/product/product.py:206-214 | the first purchase row whose unit or name matches the lower-cased unit, none earlier matching |
| ProductDoc.Multiply | blkshp_os/products/doctype/product/product.py:206-214 | a missing factor crashes; otherwise quantity times the factor |
| ProductDoc.Divide | blkshp_os/products/doctype/product/product.py:242-250 | a missing or zero factor crashes; otherwise the result times the factor is the quantity |
| ProductDoc.StandardLower | blkshp_os/products/doctype/product/product.py:276-286 | a standard-table conversion exists exactly when both units are in the table |
| ProductDoc.ToPrimary | blkshp_os/products/doctype/product/product.py:66-87 | a case-insensitive match on the non-empty primary unit returns the quantity unchanged |
| ProductDoc.ToPrimaryOrder | blkshp_os/products/doctype/product/product.py:66-87 | outside the primary unit: the first matching purchase row multiplies (raising on a missing factor), then the volume route, then the weight route settles it; refusal exactly when all three miss |
| ProductDoc.FromPrimary | blkshp_os/products/doctype/product/product.py:89-110 | a case-insensitive match on the non-empty primary unit returns the quantity unchanged |
| ProductDoc.FromPrimaryOrder | blkshp_os/products/doctype/product/product.py:89-110 | outside the primary unit: the first matching purchase row divides (raising on a missing or zero factor), then the volume route, then the weight route; refusal exactly when all three miss |
| ProductDoc.RoutesApply | blkshp_os/products/doctype/product/product.py:71-110 | the document's volume and weight routes end the search exactly when the unit is set and the unit asked for is its base or both are in the table (out of primary units also on a missing factor) |
| ProductDoc.Between | blkshp_os/products/doctype/product/product.py:112-114 | a failure on the way in is passed on; for a validated product with stripped names the result taken back to primary gives the input's primary quantity |
| ProductDoc.PurchaseUnitNames | blkshp_os/products/doctype/product/product.py:47-64 | exactly the lower-cased non-empty units of the purchase rows |
| ProductDoc.AvailableCountUnits | blkshp_os/products/doctype/product/product.py:47-64 | strictly sorted and holding exactly the listed units of the product |
| ProductDoc.ConversionFactorError | blkshp_os/products/doctype/product/product.py:166-183 | no error exactly when every set volume or weight unit has a positive factor and every purchase row a positive conversion |
| ProductDoc.RowError | blkshp_os/products/doctype/product/product.py:178-183 | no error exactly when every purchase row's conversion is set and positive |
| ProductDoc.DepartmentsOf | blkshp_os/products/doctype/product/product.py:116-120 | exactly the departments the allocation rows name |
| ProductDoc.DefaultAllocations | blkshp_os/products/doctype/product/product.py:185-200 | no default leaves the rows; a missing default appends one primary row; a present default is primary on its rows only |
| ProductDoc.DefaultAllocationsIdempotent | blkshp_os/products/doctype/product/product.py:185-200 | applying the default-department rule twice equals applying it once |
| ProductDoc.AppendKeepsEarlierPrimaries | blkshp_os/products/doctype/product/product.py:196-200 | appending the missing default keeps the earlier rows, primary flags included |
| ProductDoc.CodeClashError | blkshp_os/products/doctype/product/product.py:147-164 | a clash exactly when another product of the company already carries the non-empty code |
| ProductDoc.PropertyError | blkshp_os/products/doctype/product/product.py:202-204 | an error exactly when the product is both generic and a prep item |
| ProductDoc.SeriesCode | blkshp_os/products/doctype/product/product.py:143-145 | codes from the naming series start with "PROD-" and carry at least five digits |
| ProductDoc.SeriesCodesDistinct | blkshp_os/products/doctype/product/product.py:143-145 | distinct counters give distinct codes |
| ProductDoc.Product.BeforeInsert | blkshp_os/products/doctype/product/product.py:34-36 | a code is generated only when none was given |
| ProductDoc.Product.EnsureDefaultDepartment | blkshp_os/products/doctype/product/product.py:185-200 | the allocation table becomes the default-department rule applied to the old table |
| ProductDoc.Product.Validate | blkshp_os/products/doctype/product/product.py:38-42 | the checks run in order (code clash, factors, default department, property combination) and the first failure is reported |
| ProductDoc.Product.GetDepartments | blkshp_os/products/doctype/product/product.py:116-120 | exactly the non-empty allocated departments, listed as `NonEmptyDepartments` lists them (row order, repeats kept) |
| ProductDoc.Product.AssignToDepartment | blkshp_os/products/doctype/product/product.py:122-141 | an unknown department fails; an allocated one changes nothing; otherwise one row with the primary flag is appended |
| ProductDoc.NonEmptyDepartments | blkshp_os/products/doctype/product/product.py:116-120 | exactly the non-empty allocated departments; a single row lists its department when it names one |
| ProductDoc.NonEmptyDepartmentsAppend | blkshp_os/products/doctype/product/product.py:116-120 | the listing of two row runs is the first run's listing followed by the second's, so row order and repeats are kept |
| ProductDoc.HubData | blkshp_os/products/doctype/product/product.py:66-110 | the document's unit fields as the conversion module loads them, row by row |
| ProductDoc.NormalizeStripped | blkshp_os/products/doctype/product/product.py:66-69 | on a stripped name, the module's normalisation is plain lower-casing |
| ProductDoc.FirstMatchAgrees | blkshp_os/products/doctype/product/product.py:206-214 | the document and the conversion module pick the same purchase row |
| ProductDoc.PurchaseAgrees | blkshp_os/products/doctype/product/product.py:206-250 | the document's purchase routes answer as the module's do |
| ProductDoc.StandardAgrees | blkshp_os/products/doctype/product/product.py:276-286 | the document's standard conversion answers as the module's does |
| ProductDoc.MeasureAgrees | blkshp_os/products/doctype/product/product.py:216-274 | with a usable factor and clean names, each measure route answers as the module's does |
| ProductDoc.ValidatedFactorsUsable | blkshp_os/products/doctype/product/product.py:166-183 | a product that passes factor validation has usable factors |
| ProductDoc.ToPrimaryAgrees | blkshp_os/products/doctype/product/product.py:66-87 | to-primary on the document equals the module's to-primary on its data |
| ProductDoc.FromPrimaryAgrees | blkshp_os/products/doctype/product/product.py:89-110 | from-primary on the document equals the module's from-primary on its data |
| ProductDoc.AgreesWithHub | blkshp_os/products/doctype/product/product.py:66-114 | a validated document with clean unit names converts exactly as the conversion module does |
| ProductDoc.DocumentRoundTrip | blkshp_os/products/doctype/product/product.py:66-114 | on such a document, converting back undoes converting into the primary unit |
| ProductDoc.CaseOfTwentyFour | blkshp_os/products/doctype/product/product.py:206-214 | two 24-can cases are 48 cans |
| ProductDoc.PrimaryConverterFacts | blkshp_os/products/doctype/product/product.py:66-87 | a missing product fails, and a quantity already in the primary unit is unchanged |
| StockLedger.Latest | blkshp_os/inventory/doctype/stock_ledger_entry/stock_ledger_entry.py:101-129 | none exactly when no entry counts; otherwise a counted entry with the greatest posting datetime, no later-stored counted entry sharing it |
| StockLedger.Submitted | blkshp_os/inventory/doctype/stock_ledger_entry/stock_ledger_entry.py:27-99 | the submitted entry's running balance is the previous balance plus its own movement; key, datetime and movement kept |
| StockLedger.SubmitAuditDate | blkshp_os/inventory/doctype/stock_ledger_entry/stock_ledger_entry.py:172-174 | only an Inventory Audit voucher writes the audit date |
| StockLedger.Prepared | blkshp_os/inventory/doctype/stock_ledger_entry/stock_ledger_entry.py:21-78 | defaults date and time, derives the datetime, copies item code and unit from the product, the warehouse from the department, and fails for a missing product |
| StockLedger.ImmutableError | blkshp_os/inventory/doctype/stock_ledger_entry/stock_ledger_entry.py:42-48 | an error exactly when a submitted entry's movement changes |
| StockLedger.QueryError | blkshp_os/inventory/doctype/stock_ledger_entry/stock_ledger_entry.py:179-200 | no error exactly when all three identifiers are given and all three records exist |
| StockLedger.StockBalance | blkshp_os/inventory/doctype/stock_ledger_entry/stock_ledger_entry.py:179-227 | errors exactly as the shared checks; zero when nothing counts; otherwise the running balance of a latest counted entry up to the date |
| StockLedger.CountedIn | blkshp_os/inventory/doctype/stock_ledger_entry/stock_ledger_entry.py:285-349 | exactly the counted entries of the combination in the window, a sub-multiset of the ledger |
| StockLedger.StockMovements | blkshp_os/inventory/doctype/stock_ledger_entry/stock_ledger_entry.py:285-349 | the counted entries in the date range, a permutation of them ordered by posting datetime |
| StockLedger.Ledger.Insert | blkshp_os/inventory/doctype/stock_ledger_entry/stock_ledger_entry.py:21-25 | appends the prepared draft, or changes nothing when preparation fails |
| StockLedger.Ledger.Submit | blkshp_os/inventory/doctype/stock_ledger_entry/stock_ledger_entry.py:27-174 | the entry gets its running balance, and the balance table is set to it; on error nothing changes |
| StockLedger.Ledger.Cancel | blkshp_os/inventory/doctype/stock_ledger_entry/stock_ledger_entry.py:37-174 | only a submitted entry with a complete key cancels; it is flagged and its movement is subtracted from the balance |
| StockLedger.AppendedIsPrevious | blkshp_os/inventory/doctype/stock_ledger_entry/stock_ledger_entry.py:101-129 | an entry submitted after every earlier counted one supplies the next previous balance |
| StockLedger.UnrelatedAppendKeepsPrevious | blkshp_os/inventory/doctype/stock_ledger_entry/stock_ledger_entry.py:101-129 | an entry of another combination, or a later one, leaves the previous balance unchanged |
| StockLedger.SubmitThenCancelRestores | blkshp_os/inventory/doctype/stock_ledger_entry/stock_ledger_entry.py:143-174 | submitting a movement and cancelling it restores the starting balance |
| StockLedger.RunningBalanceExample | blkshp_os/inventory/doctype/stock_ledger_entry/stock_ledger_entry.py:88-99 | +10, +5 and -3 in time order give running balances 10, 15 and 12 |
| InventoryBalance.BalanceName | blkshp_os/inventory/doctype/inventory_balance/inventory_balance.py:12-15 | a name exactly when all three parts are given, "product-department-company" |
| InventoryBalance.NamesCanCollide | blkshp_os/inventory/doctype/inventory_balance/inventory_balance.py:12-15 | two different combinations share a name once a part contains a dash |
| InventoryBalance.NameIdentifiesDashFreeKeys | blkshp_os/inventory/doctype/inventory_balance/inventory_balance.py:15 | when neither the product nor the department contains a dash, equal names mean equal combinations |
| InventoryBalance.RequiredError | blkshp_os/inventory/doctype/inventory_balance/inventory_balance.py:103-109 | no error exactly when all three parts are given |
| InventoryBalance.DuplicateError | blkshp_os/inventory/doctype/inventory_balance/inventory_balance.py:111-127 | a new record is refused exactly when its combination is already stored |
| InventoryBalance.AuditDateAfter | blkshp_os/inventory/doctype/inventory_balance/inventory_balance.py:25-59 | a given audit date wins; otherwise a stored record keeps its own |
| InventoryBalance.Saved | blkshp_os/inventory/doctype/inventory_balance/inventory_balance.py:25-59 | the combination holds the new quantity and time; every other combination is unchanged |
| InventoryBalance.BalanceTable.UpdateFor | blkshp_os/inventory/doctype/inventory_balance/inventory_balance.py:25-59 | an incomplete key fails with nothing changed; otherwise the record is created or overwritten |
| InventoryBalance.BalanceTable.ApplyDelta | blkshp_os/inventory/doctype/inventory_balance/inventory_balance.py:61-101 | adds the delta to the stored quantity, a missing record starting at zero |
| InventoryBalance.DeltasCompose | blkshp_os/inventory/doctype/inventory_balance/inventory_balance.py:66-101 | two successive deltas add up |
| InventoryBalance.UpdateTwiceOneRecord | blkshp_os/inventory/doctype/inventory_balance/inventory_balance.py:25-59 | a second update of the same combination overwrites the one record |
| InventoryAudit.FirstDuplicate | blkshp_os/inventory/doctype/inventory_audit/inventory_audit.py:228-241 | none exactly when the non-empty values are distinct; otherwise the value at the earliest position that repeats an earlier one, every position before it being repeat-free |
| InventoryAudit.ValidateError | blkshp_os/inventory/doctype/inventory_audit/inventory_audit.py:209-226 | an unknown status is refused first, then the first repeated department, storage area or category, in that order |
| InventoryAudit.StorageMap | blkshp_os/inventory/doctype/inventory_audit/inventory_audit.py:243-259 | succeeds exactly when every listed non-empty area is known; no entry for the empty department, and the general list holds only department-less areas |
| InventoryAudit.StorageMapGroups | blkshp_os/inventory/doctype/inventory_audit/inventory_audit.py:243-259 | each department maps to exactly its storage areas in the order listed, present only when it has one; the general list is the department-less areas in order |
| InventoryAudit.DistinctCategories | blkshp_os/inventory/doctype/inventory_audit/inventory_audit.py:261-268 | the non-empty categories, distinct and sorted |
| InventoryAudit.Slots | blkshp_os/inventory/doctype/inventory_audit/inventory_audit.py:46-47 | `[None]` for an empty list, otherwise one `Some` slot per value, position by position |
| InventoryAudit.RowTasks | blkshp_os/inventory/doctype/inventory_audit/inventory_audit.py:270-284 | one pending task per category slot for a department and storage slot |
| InventoryAudit.DepartmentTasks | blkshp_os/inventory/doctype/inventory_audit/inventory_audit.py:40-55 | one department's block: its storages (plus the general ones) by category |
| InventoryAudit.SlotTasks | blkshp_os/inventory/doctype/inventory_audit/inventory_audit.py:50-55 | the per-category tasks of one storage slot |
| InventoryAudit.PlanStep | blkshp_os/inventory/doctype/inventory_audit/inventory_audit.py:40-55 | one department's block followed by the plan for the rest over the extended storage map |
| InventoryAudit.PlanTasks | blkshp_os/inventory/doctype/inventory_audit/inventory_audit.py:40-55 | the department loop equals the task plan, including the in-place extension of the map's lists |
| InventoryAudit.LineDepartment | blkshp_os/inventory/doctype/inventory_audit/inventory_audit.py:292-298 | the line's own department, else its storage area's department, else none |
| InventoryAudit.CloseLine | blkshp_os/inventory/doctype/inventory_audit/inventory_audit.py:82-101 | a line without product or department fails; otherwise its primary quantity, variance and counting department |
| InventoryAudit.Record | blkshp_os/inventory/doctype/inventory_audit/inventory_audit.py:97-101 | the tally after one closed line: the line is appended, the product set gains its product and the value grows by cost times quantity |
| InventoryAudit.RecordCounts | blkshp_os/inventory/doctype/inventory_audit/inventory_audit.py:100 | recording a line adds its primary quantity to its (product, department) count, adds that pair to the keys and leaves every other pair's count |
| InventoryAudit.AddToCounts | blkshp_os/inventory/doctype/inventory_audit/inventory_audit.py:100 | `totals[key] += q` adds the key, grows its count by q and leaves every other count |
| InventoryAudit.CloseAll | blkshp_os/inventory/doctype/inventory_audit/inventory_audit.py:82-101 | the closing loop over the lines, stopping at the first failing line |
| InventoryAudit.Adjustments | blkshp_os/inventory/doctype/inventory_audit/inventory_audit.py:131-207 | counted minus current balance for each pair, skipping zero adjustments; a failing balance query fails the close |
| InventoryAudit.VarianceStepMeans | blkshp_os/inventory/doctype/inventory_audit/inventory_audit.py:120-128 | one line: it fails exactly when a line with a product cannot be converted; the line is rewritten with counted minus expected (missing expected as 0), and that variance is added to its product's sum (0 when new) leaving the other sums alone |
| InventoryAudit.VarianceAll | blkshp_os/inventory/doctype/inventory_audit/inventory_audit.py:117-129 | one rewritten line per input line; only non-empty products get a sum |
| InventoryAudit.VarianceAllMeans | blkshp_os/inventory/doctype/inventory_audit/inventory_audit.py:117-129 | fails exactly when some line with a product cannot be converted; otherwise each line with a product gets variance = primary quantity - expected (missing expected as 0), lines without one are kept, the sums' keys are exactly the lines' non-empty products, and each sum is the sum of that product's line variances |
| InventoryAudit.SumVarianceSnoc | blkshp_os/inventory/doctype/inventory_audit/inventory_audit.py:120-128 | adding a line adds its variance to its own product's sum only |
| InventoryAudit.CloseAllErrExtends | blkshp_os/inventory/doctype/inventory_audit/inventory_audit.py:82-101 | a failure on a prefix of the lines fails the whole close |
| InventoryAudit.VarianceErrExtends | blkshp_os/inventory/doctype/inventory_audit/inventory_audit.py:117-129 | a failure on a prefix of the lines fails the whole variance computation |
| InventoryAudit.TallyLines | blkshp_os/inventory/doctype/inventory_audit/inventory_audit.py:82-101 | the closing loop method equals the closing specification |
| InventoryAudit.Variances | blkshp_os/inventory/doctype/inventory_audit/inventory_audit.py:117-129 | the variance loop method equals the variance specification |
| InventoryAudit.Audit.MarkInProgress | blkshp_os/inventory/doctype/inventory_audit/inventory_audit.py:60-63 | Setup or Ready becomes In Progress; any other status is unchanged |
| InventoryAudit.Audit.MarkReview | blkshp_os/inventory/doctype/inventory_audit/inventory_audit.py:65-68 | Ready or In Progress becomes Review; any other status is unchanged |
| InventoryAudit.Audit.CreateCountingTasks | blkshp_os/inventory/doctype/inventory_audit/inventory_audit.py:28-58 | no departments or an unknown storage area fails with nothing changed; otherwise the tasks become the plan and Setup moves to Ready |
| InventoryAudit.Audit.CloseAudit | blkshp_os/inventory/doctype/inventory_audit/inventory_audit.py:70-115 | only Review, In Progress or Ready closes; the lines, counts, value and adjustments are the tally's; closed by the given user or the session user |
| InventoryAudit.Audit.CalculateVariance | blkshp_os/inventory/doctype/inventory_audit/inventory_audit.py:117-129 | the lines and sums are the variance specification's: each line with a product gets counted minus expected, the keys are the non-empty products and each sum is the sum of that product's line variances; on error the lines are unchanged |
| InventoryAudit.TransitionsStayKnown | blkshp_os/inventory/doctype/inventory_audit/inventory_audit.py:60-215 | every transition keeps the audit in one of the six known statuses |
| InventoryAudit.AddToFacts | blkshp_os/inventory/doctype/inventory_audit/inventory_audit.py:100 | adding to one pair keeps keys distinct, grows that pair by the quantity and leaves the others |
| InventoryAudit.CountAbsent | blkshp_os/inventory/doctype/inventory_audit/inventory_audit.py:100 | a pair outside the tally counts zero |
| InventoryAudit.TallyFacts | blkshp_os/inventory/doctype/inventory_audit/inventory_audit.py:82-111 | one total per distinct pair, summing the lines' primary quantities; the products counted are those of the lines |
| InventoryAudit.AdjustmentsReachCount | blkshp_os/inventory/doctype/inventory_audit/inventory_audit.py:131-207 | posting every adjustment brings each counted pair's balance to its count |
| InventoryAudit.AdjustmentsNonZero | blkshp_os/inventory/doctype/inventory_audit/inventory_audit.py:131-207 | no adjustment is zero |
| InventoryAudit.PlanCount | blkshp_os/inventory/doctype/inventory_audit/inventory_audit.py:40-55 | with distinct departments the plan is the plain per-department matrix |
| InventoryAudit.CrossCount | blkshp_os/inventory/doctype/inventory_audit/inventory_audit.py:49-55 | one block holds one task per storage slot and category slot |
| InventoryAudit.EightTasks | blkshp_os/inventory/doctype/inventory_audit/inventory_audit.py:28-58 | two departments, each with one storage plus a general one, and two categories give eight tasks |
| InventoryAudit.PlanTasksWellFormed | blkshp_os/inventory/doctype/inventory_audit/inventory_audit.py:270-284 | every planned task is pending, for a listed department, with a listed category slot |
| BatchNumbers.MaxSequence | blkshp_os/inventory/doctype/batch_number/batch_number.py:37-46 | no matching id exceeds it, and it is 0 or the sequence number of a matching id |
| BatchNumbers.LastSegmentAfter | blkshp_os/inventory/doctype/batch_number/batch_number.py:39 | the text after the last dash of "a-b" is b when b has no dash |
| BatchNumbers.NewIdSequence | blkshp_os/inventory/doctype/batch_number/batch_number.py:48-49 | a new id carries exactly the sequence number it was built from |
| BatchNumbers.NewIdIsFresh | blkshp_os/inventory/doctype/batch_number/batch_number.py:33-49 | a generated id differs from every stored id in the same product's sequence |
| BatchNumbers.SequenceAdvances | blkshp_os/inventory/doctype/batch_number/batch_number.py:37-49 | storing the generated id moves the sequence on by exactly one |
| BatchNumbers.DateError | blkshp_os/inventory/doctype/batch_number/batch_number.py:62-68 | with both dates present, expiry must come strictly after manufacture |
| BatchNumbers.ShelfLife | blkshp_os/inventory/doctype/batch_number/batch_number.py:70-80 | the days between the dates, unchanged when one is missing |
| BatchNumbers.StatusAfter | blkshp_os/inventory/doctype/batch_number/batch_number.py:82-102 | a manual Expired or Consumed status stays unless forced; otherwise past expiry is Expired, no stock is Consumed, else Active |
| BatchNumbers.StatusSettles | blkshp_os/inventory/doctype/batch_number/batch_number.py:82-102 | the status is one of the three, and recomputing it at once changes nothing |
| BatchNumbers.LedgerTotalAppend | blkshp_os/inventory/doctype/batch_number/batch_number.py:125-140 | recording a movement adds its quantity exactly when it counts for the batch |
| BatchNumbers.LedgerTotalCancel | blkshp_os/inventory/doctype/batch_number/batch_number.py:125-140 | cancelling a movement takes its quantity back out of the total |
| BatchNumbers.BatchNumber.Autoname | blkshp_os/inventory/doctype/batch_number/batch_number.py:21-49 | an empty id gets the next id of the product's sequence for the year of manufacture or of today; a missing product fails |
| BatchNumbers.BatchNumber.Validate | blkshp_os/inventory/doctype/batch_number/batch_number.py:51-55 | the date rule, then the shelf life, then the status |
| BatchNumbers.BatchNumber.BeforeSave | blkshp_os/inventory/doctype/batch_number/batch_number.py:57-60 | an empty status becomes Active |
| BatchNumbers.BatchNumber.UpdateQuantityFromLedger | blkshp_os/inventory/doctype/batch_number/batch_number.py:104-146 | the quantity is rebuilt from the batch's counted ledger movements and the status recomputed by force |
| BatchNumbers.EmptiedBatchIsConsumed | blkshp_os/inventory/doctype/batch_number/batch_number.py:140-146 | a batch rebuilt to nothing, and not yet expired, is Consumed |
| BatchNumbers.BatchTable.MarkExpired | blkshp_os/inventory/doctype/batch_number/batch_number.py:150-184 | every Active batch past its expiry becomes Expired, nothing else changes, and the count is returned |
| BatchNumbers.ExpiryIsExact | blkshp_os/inventory/doctype/batch_number/batch_number.py:150-184 | after the daily job no Active batch is past expiry, and no other status changed |
| BatchNumbers.ExpiryIdempotent | blkshp_os/inventory/doctype/batch_number/batch_number.py:150-184 | a second run on the same day finds nothing to do |
| BatchNumbers.ExpiryAgreesWithStatus | blkshp_os/inventory/doctype/batch_number/batch_number.py:97-184 | the daily job agrees with a forced status recomputation on the rows it expires |
| BatchNumbers.BatchBalance | blkshp_os/inventory/doctype/batch_number/batch_number.py:187-200 | the stored quantity; 0 for an empty name, a missing batch or a missing quantity |
| BatchNumbers.ExpiringBatches | blkshp_os/inventory/doctype/batch_number/batch_number.py:203-243 | Active, in stock, expiring within the window, soonest first |
| BatchNumbers.AvailableBatches | blkshp_os/inventory/doctype/batch_number/batch_number.py:246-278 | Active, in stock, for the product, department and company, oldest first |
| Recipes.SeriesCode | blkshp_os/recipes/doctype/recipe/recipe.py:41-42 | codes from the naming series start with "RECIPE-" and carry at least five digits |
| Recipes.DepartmentCompany | blkshp_os/recipes/doctype/recipe/recipe.py:44-73 | a missing or unknown department, or one of another company, is refused; otherwise the recipe's company, or the department's when it has none |
| Recipes.OutputProductError | blkshp_os/recipes/doctype/recipe/recipe.py:75-111 | passes exactly when a prep recipe names an output product and any output product's default department and company agree with the recipe's |
| Recipes.UniqueCodeError | blkshp_os/recipes/doctype/recipe/recipe.py:192-202 | refused exactly when another stored recipe, of any company, carries the non-empty code |
| Recipes.SelfReferenceError | blkshp_os/recipes/doctype/recipe/recipe.py:204-207 | refused exactly when a Recipe ingredient names the recipe itself |
| Recipes.RowAlignmentError | blkshp_os/recipes/doctype/recipe/recipe.py:121-190 | the refusal for one ingredient row, in the order the source checks it |
| Recipes.AlignmentError | blkshp_os/recipes/doctype/recipe/recipe.py:121-190 | skipped without a company; otherwise the first misaligned row's refusal |
| Recipes.ChecksMeans | blkshp_os/recipes/doctype/recipe/recipe.py:21-28 | the checks pass exactly when each of them does, and the recipe then keeps the department's company |
| Recipes.RowCost | blkshp_os/recipes/doctype/recipe/recipe.py:218-257 | a Product row costs its primary quantity times its unit cost; a Recipe row its quantity times the subrecipe's cost per unit; each error case as in the source |
| Recipes.CostRowsMeans | blkshp_os/recipes/doctype/recipe/recipe.py:209-216 | costing succeeds exactly when every row can be costed, each row then costed on its own |
| Recipes.PerUnit | blkshp_os/recipes/doctype/recipe/recipe.py:215-216 | the total over the yield, or 0 when there is no yield |
| Recipes.SalsaCosted | blkshp_os/recipes/doctype/recipe/recipe.py:218-238 | 2 at 1.50 and 1 at 2.25 are costed 3.00 and 2.25 |
| Recipes.SalsaTotal | blkshp_os/recipes/doctype/recipe/recipe.py:209-214 | those rows add up to 5.25 |
| Recipes.HouseSalsa | blkshp_os/recipes/doctype/recipe/recipe.py:209-216 | 5.25 in all, 1.3125 a unit over a yield of 4 |
| Recipes.SubrecipeCostApplied | blkshp_os/recipes/doctype/recipe/recipe.py:240-254 | a subrecipe at 2.00 a unit used twice costs 4.00; over a yield of 2 that is 2.00 a unit |
| Recipes.RepeatedMeans | blkshp_os/recipes/doctype/recipe/recipe.py:263-268 | an allergen is repeated exactly when it is non-empty and entered in two different rows |
| Recipes.DuplicateAllergenError | blkshp_os/recipes/doctype/recipe/recipe.py:270-275 | refused exactly when an allergen repeats, listing the repeats sorted |
| Recipes.Subrecipes | blkshp_os/recipes/doctype/recipe/recipe.py:280-282 | exactly the Recipe ingredients naming a subrecipe, in order |
| Recipes.Collect | blkshp_os/recipes/doctype/recipe/recipe.py:301-324 | nothing for a visited recipe; otherwise a stored recipe whose own non-empty allergens are all collected, and nothing outside the stored recipes' allergens |
| Recipes.CollectReaches | blkshp_os/recipes/doctype/recipe/recipe.py:301-324 | along any chain of subrecipes avoiding the visited set without repeats, the last recipe's allergens are found |
| Recipes.CollectSound | blkshp_os/recipes/doctype/recipe/recipe.py:301-324 | every allergen collected is a manual allergen of the last recipe of some chain of subrecipes that starts at the recipe and avoids the visited set |
| Recipes.CollectPath | blkshp_os/recipes/doctype/recipe/recipe.py:301-324 | for each collected allergen, names the chain of subrecipes from the recipe, avoiding the visited set, whose last recipe lists that allergen |
| Recipes.CycleEnds | blkshp_os/recipes/doctype/recipe/recipe.py:304-307 | a cycle between two recipes ends, each recipe's allergens collected once |
| Recipes.InheritedPairsMeans | blkshp_os/recipes/doctype/recipe/recipe.py:280-289 | the pairs are exactly the (allergen, subrecipe) combinations where the collection holds an allergen not entered by hand |
| Recipes.InheritedRowsCover | blkshp_os/recipes/doctype/recipe/recipe.py:291-299 | the inherited table lists each allergen of the pairs once, in increasing order |
| Recipes.RowForMeans | blkshp_os/recipes/doctype/recipe/recipe.py:297 | a row's sources are exactly the subrecipes paired with its allergen, sorted without repeats and joined |
| Recipes.ManualNotInherited | blkshp_os/recipes/doctype/recipe/recipe.py:287-289 | an allergen entered by hand is never inherited |
| Recipes.RefreshedAllergensMeans | blkshp_os/recipes/doctype/recipe/recipe.py:259-299 | an allergen is inherited exactly when it is not entered by hand and some subrecipe row's collection holds it |
| Recipes.ScanAllergens | blkshp_os/recipes/doctype/recipe/recipe.py:263-268 | the manual allergens and the repeats, as the first loop finds them |
| Recipes.Contribute | blkshp_os/recipes/doctype/recipe/recipe.py:287-289 | the inner loop adds exactly the pairs one subrecipe contributes |
| Recipes.GatherPairs | blkshp_os/recipes/doctype/recipe/recipe.py:280-289 | the second loop gathers exactly the specification's pairs, or its first error |
| Recipes.BuildInheritedRows | blkshp_os/recipes/doctype/recipe/recipe.py:291-299 | the third loop builds exactly the specification's inherited table |
| Recipes.Recipe.Autoname | blkshp_os/recipes/doctype/recipe/recipe.py:16-19 | a given code is kept, otherwise the next series code; the name is the code |
| Recipes.Recipe.RefreshAllergens | blkshp_os/recipes/doctype/recipe/recipe.py:259-299 | repeated manual allergens are refused with nothing changed; otherwise the inherited table is rebuilt |
| Recipes.Recipe.CalculateCosts | blkshp_os/recipes/doctype/recipe/recipe.py:209-216 | every row costed, the total and the cost per unit of yield set; on error nothing changes |
| Recipes.Recipe.ApplyChecks | blkshp_os/recipes/doctype/recipe/recipe.py:21-28 | the checks in order; a missing company takes the department's |
| Recipes.Recipe.Derive | blkshp_os/recipes/doctype/recipe/recipe.py:29-30 | inherited allergens, then costs; a failing refresh changes nothing, a failing costing keeps the refreshed allergens and leaves the rows and costs unchanged |
| Recipes.Recipe.Validate | blkshp_os/recipes/doctype/recipe/recipe.py:21-30 | the checks in order, then allergens and costs; a failure leaves the company and inherited allergens as the steps before it wrote them and the rows and costs unchanged |
| Recipes.AcceptedRecipe | blkshp_os/recipes/doctype/recipe/recipe.py:21-30 | a validated recipe has a department of a company, ingredients, a positive yield and no self reference |
| Recipes.PrepInAnyCase | blkshp_os/recipes/doctype/recipe/recipe.py:75-111 | the prep test ignores letter case |
| Recipes.Retarget | blkshp_os/recipes/doctype/recipe/recipe.py:348-351 | each parent row of kind Recipe naming the child takes the child's unit cost and quantity times that cost as its total, its other fields unchanged; every other row is left as it was |
| Recipes.CostedRowsFollow | blkshp_os/recipes/doctype/recipe/recipe.py:348-361 | after recosting, rows using the child carry its stored unit cost and matching total |
| Recipes.RefreshedParentFollows | blkshp_os/recipes/doctype/recipe/recipe.py:344-363 | a refreshed parent follows the child's unit cost as stored |
| Recipes.RefreshParentsStep | blkshp_os/recipes/doctype/recipe/recipe.py:344-363 | one more parent changes no recipe but that parent, and none when it is the child |
| Recipes.RefreshParentsKeys | blkshp_os/recipes/doctype/recipe/recipe.py:326-365 | the set of recipes is unchanged |
| Recipes.RefreshParentsKeep | blkshp_os/recipes/doctype/recipe/recipe.py:344-346 | the child and every recipe not listed are untouched |
| Recipes.RefreshParentsFollow | blkshp_os/recipes/doctype/recipe/recipe.py:326-365 | every listed parent other than the child follows the child's stored unit cost |
| RecipeBatches.LoadRecipe | blkshp_os/recipes/doctype/recipe_batch/recipe_batch.py:43-46 | no recipe named is refused; an unknown one is not found; otherwise the stored recipe |
| RecipeBatches.OutputPrimaryUnit | blkshp_os/recipes/doctype/recipe_batch/recipe_batch.py:173-177 | "" without an output product, else that product's primary count unit |
| RecipeBatches.ConvertProduct | blkshp_os/recipes/doctype/recipe_batch/recipe_batch.py:160-171 | a missing or unknown product is refused; otherwise the quantity converted from the given unit, or from the product's primary count unit when the unit is empty |
| RecipeBatches.ConvertRow | blkshp_os/recipes/doctype/recipe_batch/recipe_batch.py:130-158 | zero needs no lookup; a Product row converts its product in the given unit; a Recipe row converts the subrecipe's output product in the given unit, else the subrecipe's yield unit, else its primary count unit; a Recipe row without a known subrecipe or output product fails, as do other types |
| RecipeBatches.Defaults | blkshp_os/recipes/doctype/recipe_batch/recipe_batch.py:48-61 | department, company and produced unit after the recipe's defaults, and the missing-company refusal |
| RecipeBatches.YieldError | blkshp_os/recipes/doctype/recipe_batch/recipe_batch.py:63-68 | refused exactly when the yield is not positive, or a prep recipe has no output product |
| RecipeBatches.ProducedError | blkshp_os/recipes/doctype/recipe_batch/recipe_batch.py:70-72 | refused exactly when the produced quantity is not positive |
| RecipeBatches.Scale | blkshp_os/recipes/doctype/recipe_batch/recipe_batch.py:126-128 | produced over yield, a missing or zero yield counting as 1 |
| RecipeBatches.Synced | blkshp_os/recipes/doctype/recipe_batch/recipe_batch.py:81-102 | one batch row per recipe row, in the recipe's order |
| RecipeBatches.SyncRows | blkshp_os/recipes/doctype/recipe_batch/recipe_batch.py:74-102 | the loop builds exactly the rebuilt table |
| RecipeBatches.OverridesKeys | blkshp_os/recipes/doctype/recipe_batch/recipe_batch.py:75-79 | an override is kept for a row name exactly when some current row carries it |
| RecipeBatches.OverridesLast | blkshp_os/recipes/doctype/recipe_batch/recipe_batch.py:75-79 | a kept override comes from the last row carrying the name |
| RecipeBatches.SyncedMeans | blkshp_os/recipes/doctype/recipe_batch/recipe_batch.py:82-102 | each rebuilt row copies its recipe row and keeps an override's quantity and unit, else scales the recipe quantity |
| RecipeBatches.SourceRow | blkshp_os/recipes/doctype/recipe_batch/recipe_batch.py:106-193 | the recipe row stored under a name, the last one when repeated |
| RecipeBatches.SourceRowUnique | blkshp_os/recipes/doctype/recipe_batch/recipe_batch.py:106-193 | a name carried by one row only finds that row |
| RecipeBatches.RowMetrics | blkshp_os/recipes/doctype/recipe_batch/recipe_batch.py:108-124 | an unmatched row fails; otherwise the expected quantity is the recipe row's scaled quantity converted from its unit, the used one the batch row's quantity (or 0) converted from the batch row's unit, the variance their difference, and no other field changes |
| RecipeBatches.Recalculate | blkshp_os/recipes/doctype/recipe_batch/recipe_batch.py:104-124 | the loop equals the metrics specification |
| RecipeBatches.MetricsMeans | blkshp_os/recipes/doctype/recipe_batch/recipe_batch.py:104-124 | the metrics succeed exactly when every row's do, listing those rows in order |
| RecipeBatches.SyncedRowsMatch | blkshp_os/recipes/doctype/recipe_batch/recipe_batch.py:74-124 | every rebuilt row finds its recipe row, so the unable-to-match error cannot follow a rebuild |
| RecipeBatches.AsRecipeNoVariance | blkshp_os/recipes/doctype/recipe_batch/recipe_batch.py:115-124 | a row used exactly as its recipe row says, in the same unit, has no variance |
| RecipeBatches.UntouchedRowNoVariance | blkshp_os/recipes/doctype/recipe_batch/recipe_batch.py:93-124 | a row left alone by the user shows no variance |
| RecipeBatches.ValidationRequires | blkshp_os/recipes/doctype/recipe_batch/recipe_batch.py:29-35 | a saved batch names a known recipe with a positive yield (and an output when prep), a positive quantity and a company |
| RecipeBatches.ValidationRows | blkshp_os/recipes/doctype/recipe_batch/recipe_batch.py:29-35 | a saved batch has one row per recipe row, pointing at it, with variance = used minus expected |
| RecipeBatches.Resolve | blkshp_os/recipes/doctype/recipe_batch/recipe_batch.py:225-252 | a Product row takes out its product, a Recipe row the subrecipe's output product; the quantity is the row quantity converted from the given unit, else the row's unit, else (for a subrecipe) its yield unit; other types fail |
| RecipeBatches.PostRowsAsMoves | blkshp_os/recipes/doctype/recipe_batch/recipe_batch.py:195-209 | posting the rows one by one is applying their listed movements |
| RecipeBatches.ApplyMovesNet | blkshp_os/recipes/doctype/recipe_batch/recipe_batch.py:191-223 | applying moves changes only the batch's department and company, each product by its net movement |
| RecipeBatches.SubmissionAsMoves | blkshp_os/recipes/doctype/recipe_batch/recipe_batch.py:191-223 | a submission is the ingredient movements followed by the output movement |
| RecipeBatches.SubmissionNet | blkshp_os/recipes/doctype/recipe_batch/recipe_batch.py:191-223 | submitting changes each product's balance in the batch's department and company by its net movement, and no other balance |
| RecipeBatches.BatchOfEightSaved | blkshp_os/recipes/doctype/recipe_batch/recipe_batch.py:29-35 | a batch of 8 against a yield of 4 doubles the recipe: 4 expected, 4 used, no variance |
| RecipeBatches.BatchOfEightPosted | blkshp_os/recipes/doctype/recipe_batch/recipe_batch.py:191-223 | submitting it takes 4 of the raw product (25 to 21) and adds 8 of the output (5 to 13) |
| RecipeBatches.OverriddenUsageSaved | blkshp_os/recipes/doctype/recipe_batch/recipe_batch.py:93-124 | recording 5 used where 2 are expected shows a variance of 3 |
| RecipeBatches.OverriddenUsagePosted | blkshp_os/recipes/doctype/recipe_batch/recipe_batch.py:191-223 | that batch takes the 5 recorded (25 to 20) and adds the 4 made (5 to 9) |
| RecipeBatches.RecipeBatch.Validate | blkshp_os/recipes/doctype/recipe_batch/recipe_batch.py:29-35 | defaults, checks, the rebuilt table and its metrics; nothing changes on an error |
| RecipeBatches.RecipeBatch.Submit | blkshp_os/recipes/doctype/recipe_batch/recipe_batch.py:191-223 | every movement posted to the balances, or none on an error |
| RecipeBatches.PostRowTo | blkshp_os/recipes/doctype/recipe_batch/recipe_batch.py:195-209 | one row's movement applied to the balance table, skipping unmatched rows and zero quantities |
| RecipeBatches.PostOutputTo | blkshp_os/recipes/doctype/recipe_batch/recipe_batch.py:211-223 | the output movement applied when there is an output product and a non-zero quantity |
| PermissionRegistry.MapOf | blkshp_os/permissions/constants.py:598-601 | the code-to-definition dict; a later entry with the same code replaces an earlier one |
| PermissionRegistry.Lookup | blkshp_os/permissions/constants.py:618-620 | the definition with that code, or None |
| PermissionRegistry.Filter | blkshp_os/permissions/constants.py:623-625 | the entries of a category, in order |
| PermissionRegistry.CodesOf | blkshp_os/permissions/constants.py:628-630 | the codes, in order |
| PermissionRegistry.MapOfKeys | blkshp_os/permissions/constants.py:598-601 | a code is a key exactly when some entry carries it |
| PermissionRegistry.MapOfAt | blkshp_os/permissions/constants.py:598-601 | with distinct codes, every entry is the map's value for its code |
| PermissionRegistry.MapOfSize | blkshp_os/permissions/constants.py:598-601 | with distinct codes, one key per entry |
| PermissionRegistry.LookupMeans | blkshp_os/permissions/constants.py:618-620 | with distinct codes, the lookup finds exactly the entry carrying the code |
| PermissionRegistry.KnownMeans | blkshp_os/permissions/constants.py:633-635 | a code is known exactly when some entry carries it |
| PermissionRegistry.FilterMeans | blkshp_os/permissions/constants.py:623-625 | filtering keeps exactly the entries of that category |
| PermissionRegistry.RegistryCodesDistinct | blkshp_os/permissions/constants.py:22-596 | the 74 registry codes are pairwise distinct, and each carries its category's prefix |
| PermissionRegistry.GetPermissionMeans | blkshp_os/permissions/constants.py:618-620 | the registry entry with that code, or None when there is none |
| PermissionRegistry.IsValidMeans | blkshp_os/permissions/constants.py:633-635 | holds exactly for the registry codes |
| PermissionRegistry.PermissionMapSize | blkshp_os/permissions/constants.py:598-601 | exactly one map entry per registry element: 74 |
| PermissionRegistry.AllCodesDistinct | blkshp_os/permissions/constants.py:628-630 | every code listed once, in registry order |
| PermissionRegistry.CategoriesKnown | blkshp_os/permissions/constants.py:22-616 | every definition's category is one of the listed categories |
| PermissionRegistry.ByCategoryMeans | blkshp_os/permissions/constants.py:623-625 | exactly the registry entries of that category |
| PermissionRegistry.ByCategoryUnknown | blkshp_os/permissions/constants.py:603-625 | an unknown category has no permissions |
| PermissionRegistry.ByCategoryOrders | blkshp_os/permissions/constants.py:623-625 | the Orders category is exactly the Orders list, in declaration order |
| RolePermissionDoc.NewRow | blkshp_os/permissions/roles.py:249-288 | a fresh row granting the code, with empty details |
| RolePermissionDoc.CodeError | blkshp_os/permissions/doctype/role_permission/role_permission.py:29-39 | a missing code is required, an unregistered one invalid, otherwise no error |
| RolePermissionDoc.Populated | blkshp_os/permissions/doctype/role_permission/role_permission.py:42-52 | a row with a registry code takes the entry's name, category, description and restriction as 1 or 0; other rows are unchanged |
| RolePermissionDoc.PopulatedFromRegistry | blkshp_os/permissions/doctype/role_permission/role_permission.py:42-52 | a valid row's details are those of the registry entry with its code |
| RolePermissionDoc.ValidateRowsMeans | blkshp_os/permissions/doctype/role_permission/role_permission.py:24-26 | validating the role succeeds exactly when every row has a registry code, and then populates each row |
| RolePermissionDoc.RolePermission.Validate | blkshp_os/permissions/doctype/role_permission/role_permission.py:15-21 | raises on a bad code with nothing changed; otherwise writes the four detail fields |
| LegacyRolePermissionDoc.LegacyRolePermission.Validate | blkshp_os/doctype/role_permission/role_permission.py:14-40 | the code check first, then the details copied from the registry entry |
| LegacyRolePermissionDoc.LegacyAgrees | blkshp_os/doctype/role_permission/role_permission.py:18-40 | the older row accepts exactly the codes the newer check accepts, and its details come from the same entry |
| Roles.RowCount | blkshp_os/permissions/roles.py:124-132 | the number of granted rows carrying the code |
| Roles.RowCountPositive | blkshp_os/permissions/roles.py:124-134 | a row count is positive exactly when a granted row with the code exists |
| Roles.GrantCountPositive | blkshp_os/permissions/roles.py:119-134 | the count query is positive exactly when one of the roles has a granted row with the code |
| Roles.HasPermissionMeans | blkshp_os/permissions/roles.py:94-134 | never for an empty code; always for System Manager or Administrator; never for an unregistered code; otherwise exactly when one of the roles grants it |
| Roles.HasAnyMeans | blkshp_os/permissions/roles.py:137-155 | false for no codes, true for a privileged user, otherwise exactly when one code is held |
| Roles.HasAllMeans | blkshp_os/permissions/roles.py:158-176 | true for no codes or a privileged user, otherwise exactly when every code is held |
| Roles.Fetch | blkshp_os/permissions/roles.py:71-81 | the granted rows of the user's roles, role by role |
| Roles.GroupByCodeMeans | blkshp_os/permissions/roles.py:83-91 | each code's group is exactly the fetched rows with that code, in order |
| Roles.UserPermissionsKeys | blkshp_os/permissions/roles.py:57-91 | a code is a key exactly when the user holds a granted row for it |
| Roles.FirstSeen | blkshp_os/permissions/roles.py:84-89 | the codes in the order they first appear |
| Roles.PermissionsByCategory | blkshp_os/permissions/roles.py:179-212 | the user's grants grouped under their categories |
| Roles.PermissionsByCategoryMeans | blkshp_os/permissions/roles.py:179-212 | every category left is non-empty, and an entry sits under a category exactly when it is the entry of a registered code the user holds whose first grant names that category |
| Roles.GrantRows | blkshp_os/permissions/roles.py:243-251 | one new row per registry code of the input, in input order, repeats included |
| Roles.Without | blkshp_os/permissions/roles.py:294-309 | the rows without the code, in order |
| Roles.UpdatedMeans | blkshp_os/permissions/roles.py:257-291 | the kept rows (none under replace) come first unchanged, then one new granted row per new registry code of the input, each once |
| Roles.AppendedAgrees | blkshp_os/permissions/roles.py:278-288 | without repeated input codes, appending once per code agrees with the source's loop |
| Roles.WithoutMeans | blkshp_os/permissions/roles.py:294-309 | every row with the code removed, the others kept in order |
| Roles.Drop | blkshp_os/permissions/roles.py:305-306 | every row at a listed position removed, the others kept in order |
| Roles.DropMatching | blkshp_os/permissions/roles.py:299-306 | dropping exactly the positions holding the code removes the code |
| Roles.Role.UpdatePermissions | blkshp_os/permissions/roles.py:257-291 | the rows become the corrected update of the old rows |
| Roles.Role.Revoke | blkshp_os/permissions/roles.py:294-309 | the rows become the old rows without the code |
| Roles.MatchingPositions | blkshp_os/permissions/roles.py:299-302 | the positions of the rows holding the code, ascending |
| Roles.AllPositionsDropped | blkshp_os/permissions/roles.py:299-306 | removing from the last position to the first removes the code |
| Roles.GrantRowsMeans | blkshp_os/permissions/roles.py:243-251 | every appended row is a fresh grant of a registry code of the input, and every registry code of the input gets one |
| Roles.CreateRole | blkshp_os/permissions/roles.py:215-254 | an existing name is refused; otherwise a custom role granting each registry code of the input |
| Roles.CategoryCounts | blkshp_os/permissions/roles.py:342-347 | the per-category tally, rows without a registry entry not counted |
| Roles.CategoryCountsMeans | blkshp_os/permissions/roles.py:342-347 | a category is listed exactly when some row belongs to it, with the number of its rows |
| Roles.CountInBound | blkshp_os/permissions/roles.py:339-347 | the tallies never exceed the row count |
| Roles.RoleSummary | blkshp_os/permissions/roles.py:326-360 | an unknown role is an error; otherwise its fields, user count, row count and per-category tally |
| Roles.GrantedRowsMeans | blkshp_os/permissions/roles.py:43-54 | every granted row is kept and every kept row is granted |
| Roles.RolePermissions | blkshp_os/permissions/roles.py:38-54 | nothing for an unknown role, else its granted rows ordered by category, then name |
| ApiRoles.CategoryListing | blkshp_os/api/roles.py:33-71 | a named category gives one list, no category gives a map keyed by every category name |
| ApiRoles.CategoryListingMeans | blkshp_os/api/roles.py:45-71 | each list, named or grouped, holds exactly the briefs of the registry definitions of that category |
| ApiRoles.Search | blkshp_os/api/roles.py:281-310 | the matching definitions, never more than the registry |
| ApiRoles.SearchMeans | blkshp_os/api/roles.py:291-310 | a definition is found exactly when it is registered and its name, description or code contains the lower-cased query |
| ApiRoles.SearchAppend | blkshp_os/api/roles.py:294-310 | the hits keep registry order: the hits of a concatenation are the hits of each part in turn |
| ApiRoles.SearchEmptyQuery | blkshp_os/api/roles.py:291-310 | the empty query finds every definition |
| ApiRoles.CheckPermission | blkshp_os/api/roles.py:108-149 | the user defaults to the session user; the answer is the permission check; details are present exactly for registry codes |
| ApiRoles.CheckPermissionGrantedBy | blkshp_os/api/roles.py:141-147 | the granting roles are listed exactly when the user holds the permission through a granted row, and they are the roles with such a row |
| ApiRoles.ViewUserPermissions | blkshp_os/api/roles.py:74-105 | another user's permissions only for a System Manager; the keys are exactly the granted codes and the total is their number |
| ApiRoles.RolePermissionsView | blkshp_os/api/roles.py:152-169 | an unknown role is an error; otherwise exactly its granted rows and a summary counting all its rows |
| ApiRoles.CreateCustomRole | blkshp_os/api/roles.py:172-199 | System Managers only, then the role created with one grant per registry code |
| ApiRoles.UpdateRolePermissions | blkshp_os/api/roles.py:202-229 | System Managers only, then the role's rows become its update |
| ApiRoles.RevokePermission | blkshp_os/api/roles.py:232-257 | System Managers only, then the role's rows lose the code |
| ApiRoles.BulkTallyTotal | blkshp_os/api/roles.py:334-350 | every input code is counted once, as added, skipped or invalid |
| ApiRoles.BulkTallyMeans | blkshp_os/api/roles.py:338-350 | added codes are input codes that are registered, new and distinct; invalid codes are exactly the unregistered input codes not on the role |
| ApiRoles.BulkRepeatAddedTwice | blkshp_os/api/roles.py:332-350 | a registry code given twice is added twice by the loop as written, once when earlier additions count |
| ApiRoles.BulkAgreesWithUpdate | blkshp_os/api/roles.py:338-350 | the rows a bulk assignment adds are the rows an update without replace adds |
| ApiRoles.BulkAssign | blkshp_os/api/roles.py:313-363 | System Managers only; codes on the role are skipped, unregistered ones refused, the rest appended once each |
| ApiRoles.SourceCodes | blkshp_os/api/roles.py:391-392 | the codes listed are exactly the granted codes of the source role |
| ApiRoles.CloneRole | blkshp_os/api/roles.py:366-402 | System Managers only; a missing source or a taken name is an error; the new role grants the source's registered codes |
| ApiRoles.CloneGrants | blkshp_os/api/roles.py:387-395 | a clone grants a code exactly when it is registered and granted on the source |
| Roles.DuplicateInputAppendedTwice | blkshp_os/permissions/roles.py:278-288 | a registry code given twice to an empty role is appended twice by the loop as written |
| PermissionService.ValidateFlag | blkshp_os/permissions/service.py:27-31 | an unsupported name is an error with its message; a supported one names its flag |
| PermissionService.FlagsRoundTrip | blkshp_os/permissions/service.py:9-31 | seven distinct flag names, each validating back to its flag |
| PermissionService.Listed | blkshp_os/permissions/service.py:46-48 | exactly the Department names, active only unless inactive ones are included |
| PermissionService.RowsWithFlag | blkshp_os/permissions/service.py:52-60 | exactly the user's rows carrying the flag |
| PermissionService.DepartmentsOf | blkshp_os/permissions/service.py:61 | exactly the non-empty departments named on the rows |
| PermissionService.ActiveAmong | blkshp_os/permissions/service.py:69-76 | exactly the given names that are active Departments |
| PermissionService.AccessibleDepartmentsMeans | blkshp_os/permissions/service.py:42-77 | bypassing users reach every listed Department with no flag check; others get an error for an unknown flag, and otherwise the sorted, distinct names of departments granted the flag, active unless inactive ones are included |
| PermissionService.HasDepartmentPermission | blkshp_os/permissions/service.py:80-105 | bypass always answers yes; otherwise an unknown flag is an error, and the answer is a grant on a non-empty, active (unless included) department |
| PermissionService.HasAgreesWithAccessible | blkshp_os/permissions/service.py:42-105 | for a user who does not bypass, holding a department permission is being offered that department |
| PermissionService.UserRows | blkshp_os/permissions/service.py:128-141 | exactly the user's rows, with the flag when one is named |
| PermissionService.InDepartments | blkshp_os/permissions/service.py:157 | exactly the rows whose department is among the names |
| PermissionService.UserDepartmentPermissions | blkshp_os/permissions/service.py:108-157 | an error exactly for a non-bypassing user naming an unknown flag |
| PermissionService.InDepartmentsSorted | blkshp_os/permissions/service.py:140-157 | keeping some rows of a department-sorted list keeps it sorted |
| PermissionService.UserDepartmentPermissionsBypass | blkshp_os/permissions/service.py:114-126 | bypassing users get every listed Department with all seven flags set |
| PermissionService.UserDepartmentPermissionsMeans | blkshp_os/permissions/service.py:128-157 | other users get exactly their rows with the flag, on active non-empty departments unless inactive ones are included, sorted by department |
| PermissionService.Quote | blkshp_os/permissions/service.py:164 | a quoted SQL literal, quote marks at both ends |
| PermissionService.EscapeChars | blkshp_os/permissions/service.py:164 | escaping never shortens the text |
| PermissionService.FilterClauseMeans | blkshp_os/permissions/service.py:160-165 | the match-nothing clause exactly for no departments; otherwise an in-list clause |
| PermissionService.PermissionClauseMeans | blkshp_os/permissions/service.py:168-176 | no condition exactly for bypassing users; the match-nothing condition exactly when no department is reachable |
| DepartmentPermissionDoc.FindDepartment | blkshp_os/permissions/doctype/department_permission/department_permission.py:43-56 | the Department with the name, found exactly when one exists |
| DepartmentPermissionDoc.ValidateMeans | blkshp_os/permissions/doctype/department_permission/department_permission.py:20-131 | a row passes exactly when its department exists and is active, agrees with the user's company, some flag is set, no other row of the user names it, and the dates are ordered |
| DepartmentPermissionDoc.NoFlagRefused | blkshp_os/permissions/doctype/department_permission/department_permission.py:75-80 | a row with no flag set is refused once its department is acceptable |
| DepartmentPermissionDoc.DatesMeans | blkshp_os/permissions/doctype/department_permission/department_permission.py:123-131 | equal dates pass; an end before the start fails |
| DepartmentPermissionDoc.ValidateFromMeans | blkshp_os/permissions/doctype/department_permission/department_permission.py:35-40 | the user's rows pass exactly when every row passes |
| DepartmentPermissionDoc.ValidUserRowsDistinct | blkshp_os/permissions/doctype/department_permission/department_permission.py:83-120 | once the user's rows pass, no two of them name the same department unless one is cancelled |
| LegacyDepartmentPermissionDoc.LegacyAgrees | blkshp_os/doctype/department_permission/department_permission.py:19-77 | the older controller decides as the newer one for a saved row with a parent type and no duplicate in memory |
| LegacyDepartmentPermissionDoc.LegacyChecksUnsaved | blkshp_os/doctype/department_permission/department_permission.py:55-72 | an unsaved row is still checked against the stored rows, where the newer controller skips it |
| UserForm.DepartmentPermissionRow.constructor | blkshp_os/public/js/user.js:55-60 | a new row is readable and active, with nothing else set |
| UserForm.DepartmentPermissionRow.OnCanRead | blkshp_os/public/js/user.js:62-70 | read is switched back on when no flag is left |
| UserForm.DepartmentPermissionRow.OnCanWrite | blkshp_os/public/js/user.js:72-79 | write switches read on |
| UserForm.DepartmentPermissionRow.GrantReadWrite | blkshp_os/public/js/user.js:81-127 | a set triggering flag switches read and write on |
| UserForm.DepartmentPermissionRow.OnCanCreate | blkshp_os/public/js/user.js:81-95 | create switches read and write on |
| UserForm.DepartmentPermissionRow.OnCanDelete | blkshp_os/public/js/user.js:97-111 | delete switches read and write on |
| UserForm.DepartmentPermissionRow.OnCanSubmit | blkshp_os/public/js/user.js:113-127 | submit switches read and write on |
| UserForm.DepartmentPermissionRow.OnCanCancel | blkshp_os/public/js/user.js:129-136 | cancel switches read on |
| UserForm.DepartmentPermissionRow.OnCanApprove | blkshp_os/public/js/user.js:138-145 | approve switches read on |
| UserForm.DepartmentPermissionRow.OnValidUpto | blkshp_os/public/js/user.js:159-169 | an end date before the start date is cleared; nothing else changes |
| UserForm.KeepOneFlagMeans | blkshp_os/public/js/user.js:62-70 | the read handler leaves some flag on, keeps every set flag, and is idempotent |
| UserForm.NeedsReadMeans | blkshp_os/public/js/user.js:72-145 | a set flag ends with read on, an unset one changes nothing, and a second run changes nothing |
| UserForm.NeedsReadWriteMeans | blkshp_os/public/js/user.js:81-127 | a set flag ends with read and write on, an unset one changes nothing, and a second run changes nothing |
| UserForm.CheckedUptoMeans | blkshp_os/public/js/user.js:159-169 | the end date is cleared exactly when it is before the start, equal dates kept, and checking again changes nothing |
| Hierarchy.Next | blkshp_os/departments/doctype/department/department.py:141 | the stored parent of a name, empty when there is none |
| Hierarchy.WalkMeans | blkshp_os/departments/doctype/department/department.py:133-141 | the walk reports a cycle exactly when the parent chain revisits a name |
| Hierarchy.DetectCycle | blkshp_os/departments/doctype/department/department.py:133-141 | the loop over the parent chain answers what the walk answers: a cycle exactly when a name is met twice |
| Hierarchy.ShortCyclesCaught | blkshp_os/departments/doctype/department/department.py:120-141 | a record that is its own parent or its own grandparent is caught |
| DepartmentDoc.Dashed | blkshp_os/departments/doctype/department/department.py:74 | the same text with every space turned into a dash |
| DepartmentDoc.NormalizedCodeIdempotent | blkshp_os/departments/doctype/department/department.py:97-98 | a normalised code is stripped and upper-case, so normalising again changes nothing |
| DepartmentDoc.NameMeans | blkshp_os/departments/doctype/department/department.py:61-78 | a name exactly when the code, company and company code are non-blank, built as the normalised code, a dash and the dashed upper-case company code |
| DepartmentDoc.NameFallsBackToCompany | blkshp_os/departments/doctype/department/department.py:71-74 | a company without a stored code is named by its own stripped, upper-cased, dashed name |
| DepartmentDoc.NormalizedParent | blkshp_os/departments/doctype/department/department.py:94-95 | an empty parent becomes none |
| DepartmentDoc.ParentLinks | blkshp_os/departments/doctype/department/department.py:141 | one link per stored department, to its stored parent |
| DepartmentDoc.FieldsErrorMeans | blkshp_os/departments/doctype/department/department.py:100-131 | the field checks pass exactly when the name, company and code are given, the code is free in the company, and the parent is another department of the same company with no cycle |
| DepartmentDoc.CodeFreeInOtherCompany | blkshp_os/departments/doctype/department/department.py:108-118 | the same code may be used by a department of another company |
| DepartmentDoc.TypeErrorFromMeans | blkshp_os/departments/doctype/department/department.py:155-180 | the type check passes exactly when every known key present has its type |
| DepartmentDoc.SortedFields | blkshp_os/departments/doctype/department/department.py:182 | the same entries, in key order |
| DepartmentDoc.SettingsOutcomeMeans | blkshp_os/departments/doctype/department/department.py:143-182 | accepted object settings have every known key well typed and are stored as the same entries in key order |
| DepartmentDoc.SettingsOutcomeStable | blkshp_os/departments/doctype/department/department.py:143-182 | validating the stored settings again accepts them with the same entries |
| DepartmentDoc.GetSettingDefaults | blkshp_os/departments/doctype/department/department.py:239-254 | the default for an unknown department, empty settings, invalid JSON and a missing key |
| DepartmentDoc.SavedSettingReadsBack | blkshp_os/departments/doctype/department/department.py:143-182 | settings saved by validation read back as given, key by key |
| DepartmentDoc.SameLookup | blkshp_os/departments/doctype/department/department.py:182 | two arrangements of the same entries with distinct keys look every key up alike |
| DepartmentDoc.Department.Autoname | blkshp_os/departments/doctype/department/department.py:61-78 | the record is named from the code and company code; nothing changes on error |
| DepartmentDoc.Department.NormalizeFields | blkshp_os/departments/doctype/department/department.py:87-95 | the name stripped, the code normalised, an empty parent cleared |
| DepartmentDoc.Department.Validate | blkshp_os/departments/doctype/department/department.py:80-85 | normalise, then the field checks in order, then the settings, written back when they pass |
| DepartmentDoc.NormalizationIdempotent | blkshp_os/departments/doctype/department/department.py:90-98 | normalising twice is normalising once |
| LegacyDepartmentDoc.LegacyAgrees | blkshp_os/doctype/department/department.py:19-69 | on a saved record with normalised fields the older checks decide as the current ones |
| LegacyDepartmentDoc.LegacyOwnNameExcluded | blkshp_os/doctype/department/department.py:13-46 | a new record named by its code before validation does not clash with a stored department of that name |
| LegacyDepartmentDoc.LegacyDepartment.Autoname | blkshp_os/doctype/department/department.py:12-17 | the record is named by its stripped code; nothing changes on error |
| LegacyDepartmentDoc.LegacyDepartment.Validate | blkshp_os/doctype/department/department.py:19-69 | the checks in order, the parent walk done step by step |
| DepartmentForm.CheckedParentMeans | blkshp_os/departments/doctype/department/department.js:53-69 | after the parent handler the parent is empty or another department, and in the company when the company is set |
| DepartmentForm.ParentForCompanyMeans | blkshp_os/departments/doctype/department/department.js:41-51 | after the company handler a stored parent lies in the new company, and one already there is kept |
| DepartmentForm.DepartmentFormState.OnDepartmentCode | blkshp_os/departments/doctype/department/department.js:34-39 | a non-empty code is upper-cased |
| DepartmentForm.DepartmentFormState.OnCompany | blkshp_os/departments/doctype/department/department.js:41-51 | a parent stored under another company is cleared |
| DepartmentForm.DepartmentFormState.OnParentDepartment | blkshp_os/departments/doctype/department/department.js:53-69 | a parent from another company, or the record itself, is cleared |
| DepartmentForm.DepartmentFormState.OnIsActive | blkshp_os/departments/doctype/department/department.js:71-86 | switching a saved department off asks for confirmation: declining turns it back on, confirming saves |
| ProductDepartmentDoc.PrimaryCount | blkshp_os/departments/doctype/product_department/product_department.py:68-72 | the number of other primary rows of the table |
| ProductDepartmentDoc.PrimaryCountZero | blkshp_os/departments/doctype/product_department/product_department.py:68-76 | no other row is primary exactly when the count is zero |
| ProductDepartmentDoc.DefaultStorage | blkshp_os/departments/doctype/product_department/product_department.py:90-98 | a set storage area is kept; an empty one takes the department's when it has one |
| ProductDepartmentDoc.RowErrorMeans | blkshp_os/departments/doctype/product_department/product_department.py:17-88 | a row passes exactly when its department exists and is active, no other row of the product names it, no other row is primary when it is, and no numeric field is negative |
| ProductDepartmentDoc.AtMostOnePrimary | blkshp_os/departments/doctype/product_department/product_department.py:60-76 | a product table whose rows all pass, with distinct row names, has at most one primary row |
| ProductDepartmentDoc.ProductDepartment.Validate | blkshp_os/departments/doctype/product_department/product_department.py:17-23 | the checks in order; a passing row takes the department's storage area when it has none; nothing changes on error |
| ProductCategoryDoc.CategorySeriesCode | blkshp_os/products/doctype/product_category/product_category.py:17-18 | the code the naming series gives for a counter value |
| ProductCategoryDoc.CategorySeriesCodesDistinct | blkshp_os/products/doctype/product_category/product_category.py:17-18 | distinct counters give distinct codes |
| ProductCategoryDoc.CategoryLinks | blkshp_os/products/doctype/product_category/product_category.py:36-50 | one link per stored category, to its stored parent |
| ProductCategoryDoc.CategoryErrorMeans | blkshp_os/products/doctype/product_category/product_category.py:13-50 | a category passes exactly when no other category has its non-empty code and its parent is not itself and the chain from the parent never revisits a category |
| ProductCategoryDoc.PassingCategoryNotOwnAncestor | blkshp_os/products/doctype/product_category/product_category.py:36-50 | a category that passes is no ancestor of itself |
| ProductCategoryDoc.ProductCategory.BeforeInsert | blkshp_os/products/doctype/product_category/product_category.py:9-11 | an empty code is drawn from the series, whose counter advances; a given code is kept |
| ProductCategoryDoc.ProductCategory.Validate | blkshp_os/products/doctype/product_category/product_category.py:13-50 | the code check, then the parent walk done step by step; nothing changes |
| ProductService.ResolveUser | blkshp_os/products/service.py:29-30 | the given user, else the session user |
| ProductService.ProductDepartments | blkshp_os/products/service.py:40-57 | exactly the non-empty departments of the product's stored rows |
| ProductService.KeepVisible | blkshp_os/products/service.py:72-86 | the visible rows, in order |
| ProductService.KeepVisibleMeans | blkshp_os/products/service.py:72-86 | a row is kept exactly when it is listed and visible |
| ProductService.KeepVisibleAppend | blkshp_os/products/service.py:72-86 | filtering keeps the listing's order |
| ProductService.FilterByPermission | blkshp_os/products/service.py:60-86 | the loop returns exactly the rows the filter definition keeps |
| ProductService.Allocated | blkshp_os/products/service.py:192 | exactly the product's non-empty allocated departments |
| ProductService.UserCanAccessProduct | blkshp_os/products/service.py:181-200 | bypassing users, non-inventory products and unallocated products are open; otherwise one allocated department granting the flag suffices |
| ProductService.ValidateUserCanModify | blkshp_os/products/service.py:135-153 | the document permission first; then, unless non-inventory or unallocated, every allocated department must grant the flag |
| ProductService.AllImpliesAny | blkshp_os/products/service.py:135-200 | a user allowed to change an allocated product may also access it |
| ProductService.AnyIsNotAll | blkshp_os/products/service.py:135-200 | with two allocated departments of which one grants the flag, access is granted but a change is refused |
| ProductService.FilterAgreesWithAccess | blkshp_os/products/service.py:60-86 | for a user who does not bypass, the listing filter and the access rule agree row by row |
| ProductService.ConvertQuantityDispatch | blkshp_os/products/service.py:212-241 | both units convert between them; a source alone converts to the primary unit; a target alone converts from it; neither is an error |
| ProductService.VendorUnitsMeans | blkshp_os/products/service.py:251-256 | every row when no vendor is named; otherwise exactly the vendor's rows, each as many times as it occurs |
| ProductService.VendorUnitsAppend | blkshp_os/products/service.py:251-256 | the filter keeps the rows' order: filtering two runs in sequence is filtering each and concatenating |
| ProductService.GetPurchaseUnits | blkshp_os/products/service.py:244-256 | refused without view permission, else the vendor's purchase unit rows |
| SubscriptionContext.SafeJsonLoad | blkshp_os/blkshp_os/core_platform/services/subscription_context.py:230-241 | a dictionary as it is; text only when it decodes to an object, whose entries it gives; anything else is empty |
| SubscriptionContext.NormalizedItems | blkshp_os/blkshp_os/core_platform/services/subscription_context.py:222-227 | the entries with a non-blank normalised key, never more than given |
| SubscriptionContext.PutNormalizedGet | blkshp_os/blkshp_os/core_platform/services/subscription_context.py:222-227 | keys are normalised, blank keys ignored and the last entry wins; a key no entry names reads as before |
| SubscriptionContext.LatestDefault | blkshp_os/blkshp_os/core_platform/services/subscription_context.py:76-81 | an active default plan modified no earlier than any other, none exactly when there is no candidate |
| SubscriptionContext.ResolvePlan | blkshp_os/blkshp_os/core_platform/services/subscription_context.py:69-82 | the company's branding plan when it has one, else the latest active default plan |
| SubscriptionContext.RegistryMeans | blkshp_os/blkshp_os/core_platform/services/subscription_context.py:129-146 | under each normalised key the toggle of the last row with that key, nothing under blank or unused keys |
| SubscriptionContext.FindPlan | blkshp_os/blkshp_os/core_platform/services/subscription_context.py:149-170 | the stored plan with the name, none exactly when no plan has it |
| SubscriptionContext.TitleFrom | blkshp_os/blkshp_os/core_platform/services/subscription_context.py:212 | Python's title-casing of ASCII text, length kept |
| SubscriptionContext.NonBlankTokens | blkshp_os/blkshp_os/core_platform/services/subscription_context.py:205-209 | never more tokens than parts |
| SubscriptionContext.NonBlankTokensMeans | blkshp_os/blkshp_os/core_platform/services/subscription_context.py:205-209 | the tokens are exactly the normalised forms of the parts that are not blank |
| SubscriptionContext.ModuleStatesKeyed | blkshp_os/blkshp_os/core_platform/services/subscription_context.py:185-219 | every loaded module sits under its own normalised, non-blank key, and keys are distinct |
| SubscriptionContext.Defaults | blkshp_os/blkshp_os/core_platform/services/subscription_context.py:105-107 | one default state per registered feature |
| SubscriptionContext.DefaultsGet | blkshp_os/blkshp_os/core_platform/services/subscription_context.py:105-107 | a feature's default state is its toggle's default, and only registered features have one |
| SubscriptionContext.BuildContext | blkshp_os/blkshp_os/core_platform/services/subscription_context.py:103-126 | no plan exactly when none is named or found, and then no modules and the registry defaults |
| SubscriptionContext.FeatureStateLayers | blkshp_os/blkshp_os/core_platform/services/subscription_context.py:103-126 | every feature's state follows the three layers: registry default, plan overrides, enabled modules' overrides |
| SubscriptionContext.ApplyFeatureOverrides | blkshp_os/blkshp_os/core_platform/services/subscription_context.py:222-227 | the loop writes the overrides as the normalised-put definition does |
| SubscriptionContext.ApplyModuleOverrides | blkshp_os/blkshp_os/core_platform/services/subscription_context.py:117-119 | the overrides of each enabled module in turn, nothing of a disabled one |
| SubscriptionContext.BuildSubscriptionContext | blkshp_os/blkshp_os/core_platform/services/subscription_context.py:103-126 | the built context is the one the definition describes |
| SubscriptionContext.CacheKey | blkshp_os/blkshp_os/core_platform/services/subscription_context.py:93 | never empty; the plan itself when one is named |
| SubscriptionContext.ContextCache.constructor | blkshp_os/blkshp_os/core_platform/services/subscription_context.py:61 | the cache starts empty |
| SubscriptionContext.ContextCache.Clear | blkshp_os/blkshp_os/core_platform/services/subscription_context.py:64-66 | the cache is emptied |
| SubscriptionContext.ContextCache.Lookup | blkshp_os/blkshp_os/core_platform/services/subscription_context.py:85-100 | with the cache on, a cached context is returned as it is and a fresh one remembered; without it, a fresh context and the cache untouched |
| FeatureMatrix.NormalizePlanKey | blkshp_os/blkshp_os/core_platform/services/feature_matrix.py:26-30 | never empty: the stripped, lower-cased code, or the fallback key |
| FeatureMatrix.NormalizePlanKeyStable | blkshp_os/blkshp_os/core_platform/services/feature_matrix.py:26-30 | a normalised key normalises to itself, and surrounding whitespace does not change it |
| FeatureMatrix.SortedModules | blkshp_os/blkshp_os/core_platform/services/feature_matrix.py:98-99 | the context's modules sorted by key, a permutation of them |
| FeatureMatrix.EnabledKeys | blkshp_os/blkshp_os/core_platform/services/feature_matrix.py:101 | never more keys than modules |
| FeatureMatrix.EnabledKeysMeans | blkshp_os/blkshp_os/core_platform/services/feature_matrix.py:101 | a key is listed exactly when some enabled module has it |
| FeatureMatrix.EnabledKeysSorted | blkshp_os/blkshp_os/core_platform/services/feature_matrix.py:98-101 | taken from modules sorted by key, the enabled keys are in key order |
| FeatureMatrix.PlanMatrixMeans | blkshp_os/blkshp_os/core_platform/services/feature_matrix.py:93-114 | the matrix lists the modules sorted by key, with exactly the enabled keys in that order |
| FeatureMatrix.MatrixCache.constructor | blkshp_os/blkshp_os/core_platform/services/feature_matrix.py:33-37 | the cache starts empty |
| FeatureMatrix.MatrixCache.Clear | blkshp_os/blkshp_os/core_platform/services/feature_matrix.py:45-47 | the cache is emptied |
| FeatureMatrix.MatrixCache.GetFeatureMatrix | blkshp_os/blkshp_os/core_platform/services/feature_matrix.py:117-143 | stamped with the current time; without refresh a cached matrix is returned unchanged, or one is built from the cached (or a newly built and then cached) context and stored under the plan key; with refresh a matrix is built from a fresh context and neither cache changes |
| FeatureMatrix.AccessItems | blkshp_os/blkshp_os/core_platform/services/feature_matrix.py:146-166 | one entry per key, each with that key's access flag |
| FeatureMatrix.EvaluateAccess | blkshp_os/blkshp_os/core_platform/services/feature_matrix.py:146-166 | the loop writes the access flags as the dictionary definition does |
| FeatureMatrix.AccessMeans | blkshp_os/blkshp_os/core_platform/services/feature_matrix.py:146-166 | one entry per distinct key, each holding that key's flag |
| FeatureMatrix.GrantedMeans | blkshp_os/blkshp_os/core_platform/services/feature_matrix.py:189-191 | a key is listed exactly when its flag is true |
| FeatureMatrix.ModuleKeys | blkshp_os/blkshp_os/core_platform/services/feature_matrix.py:149-150 | the modules' keys, in order |
| FeatureMatrix.TagForUser | blkshp_os/blkshp_os/core_platform/services/feature_matrix.py:182-192 | every module tagged with the user's access, the accessible modules exactly those with access, a feature flag for each registry key |
| FeatureMatrix.GetFeatureMatrixForUser | blkshp_os/blkshp_os/core_platform/services/feature_matrix.py:169-198 | the user defaults to the session user and the company to the user's; the payload's matrix is the company's plan matrix, cached or built exactly as the plan-level lookup does, with the cache updated the same way; modules tagged and features flagged with the user's access |
| FeatureMatrix.TotalCountsAll | blkshp_os/blkshp_os/core_platform/services/feature_matrix.py:201-209 | the total counts every listed permission once |
| UserSubscription.InternalOperatorMeans | blkshp_os/permissions/user.py:118-124 | an internal operator is exactly Administrator or a holder of an operations role |
| UserSubscription.FeatureEnabledMeans | blkshp_os/permissions/user.py:106-116 | only a stored value's truthiness matters; a missing or null value falls back to the registry default, and an unregistered feature is off |
| UserSubscription.PlanCodeOf | blkshp_os/permissions/user.py:76-78 | empty when the context has no plan |
| UserSubscription.SubscriptionUser.constructor | blkshp_os/permissions/user.py:55-65 | a user with nothing cached |
| UserSubscription.SubscriptionUser.GetCompany | blkshp_os/permissions/user.py:43-53 | the user's own company, else the company of the first accessible department with one, else none |
| UserSubscription.SubscriptionUser.GetSubscriptionContext | blkshp_os/permissions/user.py:55-65 | the cached context unless refreshing; otherwise the shared context of the company, then cached on the user |
| UserSubscription.SubscriptionUser.ClearSubscriptionContextCache | blkshp_os/permissions/user.py:67-71 | nothing stays cached on the user |
| UserSubscription.SubscriptionUser.GetSubscriptionPlanCode | blkshp_os/permissions/user.py:73-78 | the plan code of the context, which is now cached; a cached context without refresh changes nothing |
| UserSubscription.SubscriptionUser.IsModuleEnabled | blkshp_os/permissions/user.py:80-93 | a blank key is never enabled; an internal operator has every module; anyone else the modules enabled in their context |
| UserSubscription.SubscriptionUser.IsFeatureEnabled | blkshp_os/permissions/user.py:95-116 | a blank key is never enabled; an internal operator has every feature; anyone else the feature's state in their context |
| Enforcement.Decide | blkshp_os/core_platform/enforcement.py:178-227 | a bypassing user passes; anyone else passes exactly when the subscription grants the key, and is otherwise refused with a 403 naming the key and the user |
| Enforcement.Held | blkshp_os/core_platform/enforcement.py:189-194 | exactly the bypass roles the user holds, in the order of the bypass list |
| Enforcement.BypassReasonEmpty | blkshp_os/core_platform/enforcement.py:189-194 | with no empty role name in the bypass list, the reason is empty exactly when the user holds none of the bypass roles |
| Enforcement.LoggedReason | blkshp_os/core_platform/enforcement.py:186-217 | a bypass is logged with its reason, a refusal with none, nothing when access is granted or logging is off |
| Enforcement.SetDefault | blkshp_os/core_platform/enforcement.py:108-109 | an existing key keeps its value; a missing one is added with the given value |
| Enforcement.NewEntry | blkshp_os/core_platform/enforcement.py:115-127 | the entry carries the user, type, key and context, and is a bypass exactly when a reason is given |
| Enforcement.AccessLog.constructor | blkshp_os/core_platform/enforcement.py:83-138 | the log starts empty |
| Enforcement.AccessLog.Record | blkshp_os/core_platform/enforcement.py:83-138 | one entry appended, except during install or migrate and when the insert fails |
| Enforcement.Appended | blkshp_os/core_platform/enforcement.py:186-217 | what a check appends: one entry of the decision's kind, or nothing |
| Enforcement.CheckAccess | blkshp_os/core_platform/enforcement.py:178-227 | the decision, with the log entry, if any, written before a refusal is raised |
| Enforcement.QuietChecks | blkshp_os/core_platform/enforcement.py:186-217 | nothing is logged with logging off, nor for a granted check by a user who does not bypass |
| Enforcement.RequireAccess | blkshp_os/core_platform/enforcement.py:141-260 | a callable key is a TypeError before any check; with a user the check runs at once; otherwise the decorator defers it to each call |
| Enforcement.CallWrapped | blkshp_os/core_platform/enforcement.py:238-252 | the session user is checked with the call's context before the function runs, which it does only when access is granted |
| Enforcement.EnforceModuleForDoctype | blkshp_os/core_platform/enforcement.py:386-434 | without a key the DocType's module is used, and with neither nothing is checked; otherwise the session user is checked |
| Enforcement.EnforceFeatureForDoctype | blkshp_os/core_platform/enforcement.py:437-476 | without a key nothing is checked; otherwise the session user is checked |
| Enforcement.Limited | blkshp_os/core_platform/enforcement.py:513-529 | the first limit rows; a limit of zero or less keeps every row |
| Enforcement.ParsedContext | blkshp_os/core_platform/enforcement.py:531-539 | the decoded context, empty when it is empty or does not decode |
| Enforcement.GetAccessLogSummary | blkshp_os/core_platform/enforcement.py:479-541 | the matching entries, newest first, at most the limit, each with its parsed context |
| Enforcement.SummaryMeans | blkshp_os/core_platform/enforcement.py:505-541 | only matching log entries, newest first, within the limit; with room for all, every matching entry as often as logged |
| Enforcement.GetMyAccessLogs | blkshp_os/core_platform/enforcement.py:545-560 | the session user's entries with the limit capped at 500 |
| Enforcement.Matching | blkshp_os/core_platform/enforcement.py:505-511 | exactly the log entries matching every filter given, a sub-multiset of the log |
| FeatureOverrides.FieldsError | blkshp_os/blkshp_os/core_platform/doctype/module_activation/module_activation.py:79-87 | no error exactly when every override has a non-empty key and a boolean or object value |
| FeatureOverrides.FieldsErrorFirst | blkshp_os/blkshp_os/core_platform/doctype/module_activation/module_activation.py:79-87 | a refusal names the first unacceptable override, every earlier one being acceptable |
| FeatureOverrides.Check | blkshp_os/blkshp_os/core_platform/doctype/module_activation/module_activation.py:61-87 | empty text passes; undecodable text and a non-object are refused with their messages; an object passes exactly when every override is acceptable |
| FeatureOverrides.AcceptedReadBack | blkshp_os/blkshp_os/core_platform/doctype/subscription_plan/subscription_plan.py:26-52 | accepted overrides are read back whole by the subscription context, every value a boolean or an object |
| ModuleActivationDoc.ValidationError | blkshp_os/blkshp_os/core_platform/doctype/module_activation/module_activation.py:17-87 | a duplicate plan and key first, then a self-dependency, then the override check |
| ModuleActivationDoc.TokensShape | blkshp_os/blkshp_os/core_platform/doctype/module_activation/module_activation.py:52 | every dependency token is non-empty, normalised and free of commas |
| ModuleActivationDoc.TokensOfJoined | blkshp_os/blkshp_os/core_platform/doctype/module_activation/module_activation.py:52-59 | splitting a stored list gives back its tokens |
| ModuleActivationDoc.DependsAfterMeans | blkshp_os/blkshp_os/core_platform/doctype/module_activation/module_activation.py:48-59 | the stored list holds the distinct tokens of the entered one, sorted, and is empty when there are none |
| ModuleActivationDoc.DependsAfterStable | blkshp_os/blkshp_os/core_platform/doctype/module_activation/module_activation.py:59 | storing the dependency list again changes nothing |
| ModuleActivationDoc.RevalidationAccepts | blkshp_os/blkshp_os/core_platform/doctype/module_activation/module_activation.py:17-87 | a document that validated once validates again unchanged |
| ModuleActivationDoc.ModuleActivation.constructor | blkshp_os/blkshp_os/core_platform/doctype/module_activation/module_activation.py:14-21 | a record with the given fields |
| ModuleActivationDoc.ModuleActivation.Validate | blkshp_os/blkshp_os/core_platform/doctype/module_activation/module_activation.py:17-87 | the key normalised, then the checks in order; the dependency list rewritten in stored form only when no earlier check fails |
| ModuleActivationDoc.ModuleActivation.OnChange | blkshp_os/blkshp_os/core_platform/doctype/module_activation/module_activation.py:89-93 | the context cache is emptied |
| SubscriptionPlanDoc.NormalizedPlanCode | blkshp_os/blkshp_os/core_platform/doctype/subscription_plan/subscription_plan.py:22-24 | empty stays empty; otherwise the stripped code with each letter upper-cased, so no lower-case letter remains |
| SubscriptionPlanDoc.NormalizedPlanCodeStable | blkshp_os/blkshp_os/core_platform/doctype/subscription_plan/subscription_plan.py:22-24 | a normalised code is stripped and normalises to itself |
| SubscriptionPlanDoc.NormalizedPlanCodeIgnoresCase | blkshp_os/blkshp_os/core_platform/doctype/subscription_plan/subscription_plan.py:22-24 | upper-casing first does not change the normalised code |
| SubscriptionPlanDoc.StripUpper | blkshp_os/blkshp_os/core_platform/doctype/subscription_plan/subscription_plan.py:24 | stripping and upper-casing commute |
| SubscriptionPlanDoc.SubscriptionPlan.constructor | blkshp_os/blkshp_os/core_platform/doctype/subscription_plan/subscription_plan.py:14-19 | a record with the given fields |
| SubscriptionPlanDoc.SubscriptionPlan.Validate | blkshp_os/blkshp_os/core_platform/doctype/subscription_plan/subscription_plan.py:17-52 | the plan code normalised, then the override check |
| SubscriptionPlanDoc.SubscriptionPlan.OnChange | blkshp_os/blkshp_os/core_platform/doctype/subscription_plan/subscription_plan.py:54-58 | the context cache is emptied |
| FeatureToggleDoc.PatternOnStripped | blkshp_os/blkshp_os/core_platform/doctype/feature_toggle/feature_toggle.py:37-42 | the key pattern accepts exactly non-empty text of lower-case letters, digits, dots, underscores and hyphens |
| FeatureToggleDoc.KeyError | blkshp_os/blkshp_os/core_platform/doctype/feature_toggle/feature_toggle.py:33-42 | an empty key is required; otherwise refused exactly when the pattern fails |
| FeatureToggleDoc.AcceptedKeys | blkshp_os/blkshp_os/core_platform/doctype/feature_toggle/feature_toggle.py:28-42 | a key is accepted exactly when its normalised form is non-empty and of pattern characters, and then it is stable |
| FeatureToggleDoc.FeatureToggle.constructor | blkshp_os/blkshp_os/core_platform/doctype/feature_toggle/feature_toggle.py:15-20 | a record with the given key |
| FeatureToggleDoc.FeatureToggle.Validate | blkshp_os/blkshp_os/core_platform/doctype/feature_toggle/feature_toggle.py:18-42 | the key normalised, then checked |
| FeatureToggleDoc.FeatureToggle.OnChange | blkshp_os/blkshp_os/core_platform/doctype/feature_toggle/feature_toggle.py:22-26 | the context cache is emptied |
| TenantBrandingDoc.PropertiesError | blkshp_os/blkshp_os/core_platform/doctype/tenant_branding/tenant_branding.py:28-42 | empty text passes; otherwise only a JSON object passes, with the decode or not-an-object message |
| TenantBrandingDoc.TenantBranding.constructor | blkshp_os/blkshp_os/core_platform/doctype/tenant_branding/tenant_branding.py:17-22 | a record with the given fields |
| TenantBrandingDoc.TenantBranding.Validate | blkshp_os/blkshp_os/core_platform/doctype/tenant_branding/tenant_branding.py:20-42 | the theme name stripped, then the properties checked |
| TenantBrandingDoc.TenantBranding.OnChange | blkshp_os/blkshp_os/core_platform/doctype/tenant_branding/tenant_branding.py:44-50 | the context cache and the feature-matrix cache are emptied |
| SubscriptionManagement.PermittedMeans | blkshp_os/blkshp_os/core_platform/page/subscription_management/subscription_management.py:28 | the intended gate of the page's methods is open exactly to BLKSHP Operations and System Manager (the gate as written admits only BLKSHP Operations, see Findings) |
| SubscriptionManagement.SystemManagerRefused | blkshp_os/blkshp_os/core_platform/page/subscription_management/subscription_management.py:28 | a System Manager without BLKSHP Operations passes the intended gate and is refused by `only_for` as written |
| SubscriptionManagement.GatesAgreeForOperations | blkshp_os/blkshp_os/core_platform/page/subscription_management/subscription_management.py:28 | for a caller other than the Administrator, the gate as written admits only callers the intended gate admits, and the two differ exactly on System Managers without BLKSHP Operations |
| SubscriptionManagement.Leaves | blkshp_os/blkshp_os/core_platform/page/subscription_management/subscription_management.py:31-36 | the companies that are not groups, a sub-multiset in stored order |
| SubscriptionManagement.Listed | blkshp_os/blkshp_os/core_platform/page/subscription_management/subscription_management.py:31-36 | the leaf companies sorted by company name |
| SubscriptionManagement.ListedMeans | blkshp_os/blkshp_os/core_platform/page/subscription_management/subscription_management.py:31-36 | every leaf company is listed and nothing else |
| SubscriptionManagement.EnabledSummaries | blkshp_os/blkshp_os/core_platform/page/subscription_management/subscription_management.py:47-51 | the enabled modules' summaries, never more than the modules |
| SubscriptionManagement.EnabledSummariesMeans | blkshp_os/blkshp_os/core_platform/page/subscription_management/subscription_management.py:47-51 | exactly the summaries of the enabled modules, empty exactly when none is enabled |
| SubscriptionManagement.TenantRowOf | blkshp_os/blkshp_os/core_platform/page/subscription_management/subscription_management.py:53-67 | the company's fields and plan, the count of its enabled modules, plan details exactly when there is a plan, and overrides flagged only for a plan with some |
| SubscriptionManagement.NoPlanRow | blkshp_os/blkshp_os/core_platform/page/subscription_management/subscription_management.py:53-67 | a tenant without a plan lists no modules and no overrides |
| SubscriptionManagement.ActivePlans | blkshp_os/blkshp_os/core_platform/page/subscription_management/subscription_management.py:93-98 | exactly the active plans |
| SubscriptionManagement.SortedActive | blkshp_os/blkshp_os/core_platform/page/subscription_management/subscription_management.py:93-98 | exactly the active plans, in plan-name order |
| SubscriptionManagement.AvailablePlans | blkshp_os/blkshp_os/core_platform/page/subscription_management/subscription_management.py:93-98 | one summary per active plan, in plan-name order, and nothing else |
| SubscriptionManagement.FeatureRows | blkshp_os/blkshp_os/core_platform/page/subscription_management/subscription_management.py:125-134 | one row per registered feature, in registry order, carrying the context's value |
| SubscriptionManagement.CurrentPlanOf | blkshp_os/blkshp_os/core_platform/page/subscription_management/subscription_management.py:101-109 | present exactly when the context has a plan, with its code and default flag |
| SubscriptionManagement.Coerced | blkshp_os/blkshp_os/core_platform/page/subscription_management/subscription_management.py:223 | a flag as it is, a number by its truthiness, a text as it parses |
| SubscriptionManagement.StoredAsWritten | blkshp_os/blkshp_os/core_platform/page/subscription_management/subscription_management.py:253 | a flag as it is, a number truncated toward zero, a numeral as read; anything else fails |
| SubscriptionManagement.FractionStoredDisabled | blkshp_os/blkshp_os/core_platform/page/subscription_management/subscription_management.py:253-273 | the text 0.5 is reported as enabling the module but stored disabled |
| SubscriptionManagement.ZeroStringStoredDisabled | blkshp_os/blkshp_os/core_platform/page/subscription_management/subscription_management.py:223-253 | the text "\"0\"" parses to the string "0", reported as enabling the module but stored disabled |
| SubscriptionManagement.StoredDiffers | blkshp_os/blkshp_os/core_platform/page/subscription_management/subscription_management.py:223-253 | where `int()` succeeds, stored and reported states differ exactly for a number strictly between -1 and 1 other than 0 and for a string of zero digits |
| SubscriptionManagement.Stored | blkshp_os/blkshp_os/core_platform/page/subscription_management/subscription_management.py:253-274 | the stored state is the truthiness the reply reports |
| SubscriptionManagement.StoredAgrees | blkshp_os/blkshp_os/core_platform/page/subscription_management/subscription_management.py:223-253 | on every flag or whole-number argument the correction stores what the code stores |
| SubscriptionManagement.FindActivation | blkshp_os/blkshp_os/core_platform/page/subscription_management/subscription_management.py:235-243 | the first activation of the plan with the key, none exactly when there is no such activation |
| SubscriptionManagement.Tenants.constructor | blkshp_os/blkshp_os/core_platform/page/subscription_management/subscription_management.py:278-301 | an empty admin log |
| SubscriptionManagement.Tenants.LogAdminAction | blkshp_os/blkshp_os/core_platform/page/subscription_management/subscription_management.py:278-301 | one admin entry appended, or none when the insert fails; the database unchanged |
| SubscriptionManagement.Tenants.GetAllTenants | blkshp_os/blkshp_os/core_platform/page/subscription_management/subscription_management.py:20-70 | refused to callers the intended gate refuses; otherwise one row per leaf company in name order, each built from the cached context of its plan, the cache only growing |
| SubscriptionManagement.Tenants.GetTenantDetails | blkshp_os/blkshp_os/core_platform/page/subscription_management/subscription_management.py:74-142 | refused to callers the intended gate refuses; a missing company is an error; otherwise its current plan, the active plans, and its modules and features |
| SubscriptionManagement.Tenants.ChangeTenantPlan | blkshp_os/blkshp_os/core_platform/page/subscription_management/subscription_management.py:145-201 | refused to callers the intended gate refuses; a missing company or plan is an error; otherwise the company's branding points at the new plan, both caches cleared and the change logged |
| SubscriptionManagement.Tenants.ToggleModule | blkshp_os/blkshp_os/core_platform/page/subscription_management/subscription_management.py:204-275 | refused to callers the intended gate refuses; bad input, a missing company, plan or module, disabling a required module, and an argument `int()` refuses (null, non-numeric text, a list or an object) are errors with nothing changed; otherwise the activation stores the reported state and the change is logged |
| CompanyGroupDoc.GroupWithCode | blkshp_os/accounting/doctype/company_group/company_group.py:25 | the first stored group with the code, none exactly when no group has it |
| CompanyGroupDoc.OtherGroup | blkshp_os/accounting/doctype/company_group/company_group.py:39-47 | the first group other than this one holding the company, none exactly when there is none |
| CompanyGroupDoc.MembersError | blkshp_os/accounting/doctype/company_group/company_group.py:29-51 | no members is an error; otherwise the first member that does not exist or sits in another group |
| CompanyGroupDoc.ValidationMeans | blkshp_os/accounting/doctype/company_group/company_group.py:17-51 | an accepted group has a fresh code when new, at least one member, and only existing members no other group holds |
| CompanyGroupDoc.CompanyTable.constructor | blkshp_os/accounting/doctype/company_group/company_group.py:53-63 | a company table with the given group column |
| CompanyGroupDoc.CompanyTable.SetGroup | blkshp_os/accounting/doctype/company_group/company_group.py:56-57 | each stored member's column set in turn; a company that is not stored is not touched |
| CompanyGroupDoc.Assigned | blkshp_os/accounting/doctype/company_group/company_group.py:56-57 | the column after setting the value for each member in turn |
| CompanyGroupDoc.AssignedMeans | blkshp_os/accounting/doctype/company_group/company_group.py:56-63 | every stored member gets the value; every other company keeps its group |
| CompanyGroupDoc.CompanyGroup.constructor | blkshp_os/accounting/doctype/company_group/company_group.py:9-17 | a group with the given fields |
| CompanyGroupDoc.CompanyGroup.Validate | blkshp_os/accounting/doctype/company_group/company_group.py:17-51 | the code check, then the member checks |
| CompanyGroupDoc.CompanyGroup.OnUpdate | blkshp_os/accounting/doctype/company_group/company_group.py:53-57 | every member's company points back at this group |
| CompanyGroupDoc.CompanyGroup.OnTrash | blkshp_os/accounting/doctype/company_group/company_group.py:59-63 | every member's back-reference is cleared |
| IntercompanyService.PairError | blkshp_os/accounting/intercompany_service.py:143-162 | no error exactly when the companies differ and share a group; otherwise the first failing check's message |
| IntercompanyService.PairErrorSymmetric | blkshp_os/accounting/intercompany_service.py:143-162 | swapping the companies does not change whether the pair is accepted |
| IntercompanyService.GetIntercompanyBalance | blkshp_os/accounting/intercompany_service.py:12-50 | the pair is validated; the balance is the zero placeholder as of the date given, or today |
| IntercompanyService.Listing | blkshp_os/accounting/intercompany_service.py:66-93 | the balances of the pairs in order, non-zero ones kept, the first failing pair raising |
| IntercompanyService.Kept | blkshp_os/accounting/intercompany_service.py:80-81 | only a non-zero balance is kept |
| IntercompanyService.ListingFails | blkshp_os/accounting/intercompany_service.py:66-93 | a listing fails exactly when one of its pairs fails, with the first such error |
| IntercompanyService.ListingStaysFailed | blkshp_os/accounting/intercompany_service.py:66-93 | once a listing has failed, further pairs change nothing |
| IntercompanyService.PairsWith | blkshp_os/accounting/intercompany_service.py:78-79 | the pairs of a company with each other member, in order |
| IntercompanyService.PairsUpToMeans | blkshp_os/accounting/intercompany_service.py:87-88 | the pairs are exactly those of an earlier member with a later one |
| IntercompanyService.RemoveFirst | blkshp_os/accounting/intercompany_service.py:76 | the members without the first occurrence of the company, none when it is absent |
| IntercompanyService.AllIntercompanyBalances | blkshp_os/accounting/intercompany_service.py:53-93 | a company without a group, or neither a company nor a group, gives no balances, and since the placeholder balance is zero every successful listing is empty |
| IntercompanyService.GetAllIntercompanyBalances | blkshp_os/accounting/intercompany_service.py:53-93 | the loops return what the listing definition returns, pair errors included |
| IntercompanyService.CompanyBalances | blkshp_os/accounting/intercompany_service.py:78-81 | the loop over the other members returns their listing |
| IntercompanyService.GroupBalances | blkshp_os/accounting/intercompany_service.py:87-91 | the nested loops return the listing of all member pairs |
| IntercompanyService.SourceBalances | blkshp_os/accounting/intercompany_service.py:88-91 | the inner loop extends the listing by one member's later pairs |
| IntercompanyService.ListingSnocFails | blkshp_os/accounting/intercompany_service.py:66-93 | a failing pair after a successful prefix fails the listing with its error |
| IntercompanyService.GroupListingFails | blkshp_os/accounting/intercompany_service.py:87-91 | a failing pair met in the nested loops fails the whole group listing with its error |
| IntercompanyService.GetPendingSettlements | blkshp_os/accounting/intercompany_service.py:96-140 | a permutation of the pending settlements, most recently modified first |
| IntercompanyService.PendingMeans | blkshp_os/accounting/intercompany_service.py:108-140 | no cancelled settlement is pending; with a company, every pending settlement involves it whatever status is asked for |
| IntercompanySettlementDoc.GroupError | blkshp_os/accounting/doctype/intercompany_settlement/intercompany_settlement.py:24-41 | no error exactly when the companies differ and share a group |
| IntercompanySettlementDoc.PermissionError | blkshp_os/accounting/doctype/intercompany_settlement/intercompany_settlement.py:48-67 | checked only on submission; a system role exempts the user; otherwise permission on both companies |
| IntercompanySettlementDoc.ValidationError | blkshp_os/accounting/doctype/intercompany_settlement/intercompany_settlement.py:18-67 | the group check, then the amount, then the permissions |
| IntercompanySettlementDoc.DraftSkipsPermissions | blkshp_os/accounting/doctype/intercompany_settlement/intercompany_settlement.py:48-67 | a draft passes without the permission check; a submission needs it too |
| IntercompanySettlementDoc.IntercompanySettlement.constructor | blkshp_os/accounting/doctype/intercompany_settlement/intercompany_settlement.py:11-22 | a draft with the given fields |
| IntercompanySettlementDoc.IntercompanySettlement.Validate | blkshp_os/accounting/doctype/intercompany_settlement/intercompany_settlement.py:18-22 | validation at the document's current status |
| IntercompanySettlementDoc.IntercompanySettlement.Submit | blkshp_os/accounting/doctype/intercompany_settlement/intercompany_settlement.py:86-95 | validation as submitted, then the date, user and time recorded and the settlement marked; nothing changes on error |
| IntercompanySettlementDoc.IntercompanySettlement.Cancel | blkshp_os/accounting/doctype/intercompany_settlement/intercompany_settlement.py:110-113 | cancellation always raises and changes nothing |
| FinanceApi.FlagIgnored | blkshp_os/api/finance.py:338-352 | the company permission answer is the same whatever flag is asked for |
| FinanceApi.GetBalance | blkshp_os/api/finance.py:15-56 | permission on either company unless bypassing, then the service's balance |
| FinanceApi.ListingDenied | blkshp_os/api/finance.py:91-113 | a company needs permission on it, a group on some member, unless bypassing |
| FinanceApi.ListBalances | blkshp_os/api/finance.py:59-123 | the permission check, then the service's listing and its size |
| FinanceApi.ListSettlements | blkshp_os/api/finance.py:126-191 | a company asked for needs permission; the total counts all pending settlements, and the page is a slice of them |
| FinanceApi.PageMeans | blkshp_os/api/finance.py:182-183 | with a non-negative offset and limit, the settlements from the offset on, at most limit of them, in order |
| FinanceApi.GetSettlement | blkshp_os/api/finance.py:194-228 | a missing settlement is an error; otherwise visible with permission on either company |
| FinanceApi.MissingField | blkshp_os/api/finance.py:255-258 | the first of the four required fields that is missing or falsy |
| FinanceApi.CreateSettlement | blkshp_os/api/finance.py:232-291 | the required fields, write permission on both companies, then the insert, which validates the new draft |
| FinanceApi.SubmitSettlement | blkshp_os/api/finance.py:294-335 | a missing settlement is an error; then submit permission on both companies, then the settlement's own submission |
| FinanceApi.SubmittedSettlementValid | blkshp_os/api/finance.py:294-335 | a settlement submitted through the endpoint is between two different companies of one group, for a positive amount |
| DepartmentsApi.Gate | blkshp_os/api/departments.py:28-32 | passes exactly when the user bypasses the gates or holds the flag on an active, named department; otherwise the endpoint's own refusal |
| DepartmentsApi.FindRow | blkshp_os/api/departments.py:35 | the first stored row with the name; none exactly when no row has it |
| DepartmentsApi.AllocationsTo | blkshp_os/departments/doctype/department/department.py:192-197 | exactly the product rows allocating to the department |
| DepartmentsApi.ProductsOf | blkshp_os/departments/doctype/department/department.py:186-200 | the department's product rows, a permutation of them, primary ones first and then by product |
| DepartmentsApi.ReadersOf | blkshp_os/departments/doctype/department/department.py:210-216 | exactly the user rows granting read on the department |
| DepartmentsApi.UsersOf | blkshp_os/departments/doctype/department/department.py:204-228 | the department's read-granting user rows, a permutation of them, by user |
| DepartmentsApi.GetDepartmentDetails | blkshp_os/api/departments.py:11-55 | the name is required and read permission is checked first; a result holds the stored record, exactly the products and read-granting users of the stripped name, and counts equal to their lengths |
| DepartmentsApi.RowsNamed | blkshp_os/api/departments.py:78-80 | exactly the stored rows whose names are offered |
| DepartmentsApi.AccessibleRows | blkshp_os/api/departments.py:78-91 | the offered departments' rows, by department name |
| DepartmentsApi.GetAccessibleDepartments | blkshp_os/api/departments.py:58-93 | an unknown flag is refused; none offered gives an empty list; otherwise exactly the offered departments' rows by name |
| DepartmentsApi.ShownRows | blkshp_os/api/departments.py:116-123 | exactly the accessible, active rows under the parent (parentless ones at the top) |
| DepartmentsApi.Selected | blkshp_os/api/departments.py:116-137 | the shown rows, by department name |
| DepartmentsApi.Nodes | blkshp_os/api/departments.py:140-146 | one node per row of the level, in the level's order |
| DepartmentsApi.Level | blkshp_os/api/departments.py:140-146 | no children once the depth bound is spent; otherwise exactly the shown rows under the parent, never more than its child count |
| DepartmentsApi.NodeAt | blkshp_os/api/departments.py:140-146 | the node at each position has the level below its own row as children, and its flag says whether there are any |
| DepartmentsApi.TreeOk | blkshp_os/api/departments.py:96-148 | every node of a tree is shown under the tree's parent, has the level below its own row as children with the matching flag, and the nodes are sorted by name |
| DepartmentsApi.TreeRows | blkshp_os/api/departments.py:116-148 | the rows of a tree's top level are exactly the shown rows |
| DepartmentsApi.GetDepartmentHierarchy | blkshp_os/api/departments.py:96-148 | fails only when the accessible-department query fails; no accessible department gives an empty list; never lists more departments than the parent's children |
| DepartmentsApi.HierarchyMeans | blkshp_os/api/departments.py:96-148 | the call never fails; no accessible department gives an empty list; otherwise exactly the accessible, active departments under the one asked for, by name, each with a well-formed subtree |
| DepartmentsApi.ChildRows | blkshp_os/api/departments.py:348-350 | exactly the rows whose parent is the department, whatever their status or access |
| DepartmentsApi.GetDepartmentStatistics | blkshp_os/api/departments.py:298-358 | refused exactly when read permission fails; otherwise the counts of the department's product rows, read-granting user rows and child departments, and the inventory sum or 0 |
| DepartmentsApi.StatisticsAgreeWithDetails | blkshp_os/api/departments.py:11-358 | for a stripped name whose details succeed, the statistics succeed and count the same products and users |
| DepartmentsApi.ShownAmongChildren | blkshp_os/api/departments.py:116-123 | the rows shown under a parent are no more than its children |
| DepartmentsApi.TreeWithinChildCount | blkshp_os/api/departments.py:96-358 | a level of the hierarchy never lists more departments than the statistics count as children |
| DepartmentsApi.GetDepartmentSettings | blkshp_os/api/departments.py:218-250 | read permission first; then one setting by key, or all of them |
| DepartmentsApi.SettingsPathsAgree | blkshp_os/api/departments.py:241-250 | on object settings a key reads what the whole object holds under it, or null; undecodable text reads null by key but fails whole; other JSON fails by key |
| DepartmentsApi.Existing | blkshp_os/api/departments.py:280-286 | empty settings start from an empty dictionary, a dictionary is used as it is, text is decoded and must be an object |
| DepartmentsApi.GetIsLookup | blkshp_os/api/departments.py:289 | reading a key of the dictionary agrees with reading it from the JSON object |
| DepartmentsApi.MergeMeans | blkshp_os/api/departments.py:289 | after the update a key passed in reads its new value, every other key reads its old one, the keys are those of both, and none appears twice |
| DepartmentsApi.RowsOfProduct | blkshp_os/api/departments.py:191 | exactly the rows of the product |
| DepartmentsApi.StepCases | blkshp_os/api/departments.py:185-213 | one product is either assigned, appending exactly its row, or recorded as failed with nothing else changed |
| DepartmentsApi.AssignAllCounts | blkshp_os/api/departments.py:183-215 | every requested product ends up assigned or failed once per request, and the stored rows gain one row per assigned product, in order |
| DepartmentsApi.AssignAllOnce | blkshp_os/api/departments.py:185-213 | no product is assigned twice, and a missing product or one already in the department is never assigned |
| DepartmentsApi.Site.constructor | blkshp_os/api/departments.py:151-158 | the site starts from the given departments, product rows and products |
| DepartmentsApi.Site.HoldsDepartment | blkshp_os/api/departments.py:190-194 | the loop reports whether one of the product's rows names the department |
| DepartmentsApi.Site.AssignProductsToDepartment | blkshp_os/api/departments.py:151-215 | write permission and a non-empty request are required, changing nothing otherwise; then the tally and the stored rows are those of assigning each product in turn |
| DepartmentsApi.Site.AssignEach | blkshp_os/api/departments.py:183-213 | the loop over the requested products leaves the tally and the stored rows that assigning each product in turn to the old rows yields, with a missing product, one already holding the department or one refused by its save listed as failed |
| DepartmentsApi.Site.UpdateDepartmentSettings | blkshp_os/api/departments.py:253-295 | write permission, then the record, then the merged settings; a failure changes nothing, success stores the validated merged settings on that record alone and returns the merge |
| DepartmentsApi.UpdateReadBack | blkshp_os/api/departments.py:280-295 | after a successful update, reading any key back gives the merged value |
| InventoryApi.AccessibleNamesMeans | blkshp_os/api/inventory.py:52-53 | outside a bypass, a department is accessible exactly when the caller may read it |
| InventoryApi.DepartmentGate | blkshp_os/api/inventory.py:111-117 | passes exactly when the caller bypasses the gates or may read the department |
| InventoryApi.ListingScope | blkshp_os/api/inventory.py:50-63 | no accessible department gives an empty listing; an inaccessible department asked for is refused; otherwise only accessible departments, only the one asked for when given; a bypassing caller sees everything |
| InventoryApi.Window | blkshp_os/api/inventory.py:78-79 | a page length of zero means every row; otherwise at most the page length |
| InventoryApi.SortedPage | blkshp_os/api/inventory.py:66-81 | the window [offset, offset+limit) of the rows sorted by the order (a sorted permutation); the page is itself sorted, within the page length, and with no page length it is a permutation of every row |
| InventoryApi.MatchingBalances | blkshp_os/api/inventory.py:41-47 | exactly the records passing the product, department and company filters |
| InventoryApi.MatchingBalancesCount | blkshp_os/api/inventory.py:41-47 | every matching record is kept as many times as it is stored and no other is kept, so the total counts the matches |
| InventoryApi.ListInventoryBalances | blkshp_os/api/inventory.py:21-88 | refused for an inaccessible department, empty with no accessible one; otherwise the total is the number of matching records and the rows are the requested window of them sorted by product then department |
| InventoryApi.RecordNamed | blkshp_os/api/inventory.py:119-123 | the first record with the name, none exactly when no record has it |
| InventoryApi.RecordFor | blkshp_os/api/inventory.py:119-123 | the first record of the combination, none exactly when no record has it |
| InventoryApi.GetInventoryBalanceAsWritten | blkshp_os/api/inventory.py:91-132 | the three parts required; an ungated requested department refused with the access error; otherwise a result exactly when some stored record carries the joined name "{product}-{department}-{company}", and then the first such record |
| InventoryApi.ForeignBalanceReturned | blkshp_os/api/inventory.py:107-123 | a caller who may read only department A-B, asking for product X in A-B of company C-Y, is given the balance of product X-A in department B-C |
| InventoryApi.GetInventoryBalance | blkshp_os/api/inventory.py:91-132 | the three parts required and the department gated; a balance returned is always that of the requested, readable combination, and one is returned exactly when it is stored |
| InventoryApi.LookupsAgreeWhenStored | blkshp_os/api/inventory.py:119-123 | on a table named by autoname, the two lookups agree whenever the requested combination is stored |
| InventoryApi.QueryStockBalance | blkshp_os/api/inventory.py:135-174 | the three parts required, the department gated, then the ledger's stock balance |
| InventoryApi.QueryStockMovements | blkshp_os/api/inventory.py:219-265 | all five parts required; an ungated department refused with the access error; otherwise the ledger's movements: exactly the counted entries of the combination within the date range, in posting order |
| InventoryApi.MatchingBatches | blkshp_os/api/inventory.py:393-413 | exactly the batches passing the filters, unexpired ones only when asked |
| InventoryApi.MatchingBatchesCount | blkshp_os/api/inventory.py:393-413 | every matching batch is kept as many times as it is stored and no other is kept |
| InventoryApi.ListBatches | blkshp_os/api/inventory.py:363-438 | the department rule of the balance listing plus the expiry filter; the total is the number of matching batches and the rows are the requested window of them sorted by expiry date then product |
| InventoryApi.BatchNamed | blkshp_os/api/inventory.py:454 | the first batch with the number, none exactly when there is none |
| InventoryApi.GetBatch | blkshp_os/api/inventory.py:441-473 | the number is required, a missing batch is an error; a batch returned is the named one in a readable department, and a stored batch is refused exactly when its department fails the gate |
| InventoryApi.AuditGate | blkshp_os/api/inventory.py:592-600 | one accessible department of the audit suffices, and a bypass always passes |
| InventoryApi.MatchingAudits | blkshp_os/api/inventory.py:496-500 | exactly the audits passing the status and company filters |
| InventoryApi.AuditQuery | blkshp_os/api/inventory.py:549-565 | the filtered audits, latest audit date first, a permutation of them (same multiset) |
| InventoryApi.AllVisible | blkshp_os/api/inventory.py:529-540 | exactly the audits with an accessible department, in order |
| InventoryApi.FirstVisibleMeans | blkshp_os/api/inventory.py:529-540 | the loop keeps the first visible audits, as many as the limit allows and at least one if there is any |
| InventoryApi.ListAudits | blkshp_os/api/inventory.py:476-572 | a bypassing caller gets the page of the query and the count of all matches; otherwise nothing without an accessible department, else the first visible audits of a double-length window, counted as returned |
| InventoryApi.FirstVisibleStep | blkshp_os/api/inventory.py:537-540 | one step of the loop: the head is kept when visible and the count checked after keeping |
| InventoryApi.KeepVisible | blkshp_os/api/inventory.py:529-540 | the loop returns exactly the first visible audits the limit allows |
| InventoryApi.GetAudit | blkshp_os/api/inventory.py:575-622 | the name is required, a missing audit is an error, then one accessible department suffices |
| InventoryApi.RequestedDepartments | blkshp_os/api/inventory.py:645 | the department of every entry of the payload's list, none when absent; an entry that is not an object raises |
| InventoryApi.CreateAudit | blkshp_os/api/inventory.py:625-665 | the payload must decode to an object; a bypassing caller, or one for whom every requested department is accessible, gets the insert's outcome; an inaccessible department is refused and a malformed department list fails |
| InventoryApi.CreateNeedsAllReadNeedsAny | blkshp_os/api/inventory.py:592-651 | creating needs every requested department, reading or acting needs only one |
| InventoryApi.UpdateAuditStatus | blkshp_os/api/inventory.py:668-720 | the name and a known action required, a missing audit an error, one accessible department suffices; then the status moves as the audit's own method moves it (tasks built on create_tasks; on close the closing user and time, the tallied lines, value and product count, and the returned adjustments are those of the closing tally of the audit's lines), and an error leaves status, tasks, lines, total value and product count unchanged |
| InventoryApi.Perform | blkshp_os/api/inventory.py:704-712 | a known action runs the audit's own method: the two status moves always succeed, create_tasks builds the task plan, close records the closing tally and user; a failure leaves status, tasks, lines, value and count unchanged |

## Left out
- StockLedger.Ledger.Submit: the balance is read and written under the (product, department, company) combination, whereas the ledger controller reads and writes the Inventory Balance whose name is the joined "product-department-company" string; the two differ only for combinations whose joined names collide (the collision of the fourth Findings row), where the source would update another combination's record.
- StockLedger.Ledger.Cancel: the same combination-keyed lookup on reversal, with the same divergence for colliding names.
- InventoryAudit.Audit.CloseAudit: returns the ledger adjustments instead of inserting and submitting Stock Ledger Entries, and the current balances are the `current` parameter rather than a database query.
- RecipeBatches: unit conversion and the product and recipe tables are the `Kitchen` parameter rather than database reads.
- PermissionService.EscapeChars: escapes only backslash and the single quote, an approximation of the framework's `frappe.db.escape`.
- Roles.Role.UpdatePermissions: implements the corrected loop that appends a new code once, not the as-written double append (see Findings); the as-written behaviour is Roles.DuplicateInputAppendedTwice.
- ApiRoles.UpdateRolePermissions: delegates to the corrected Roles.Role.UpdatePermissions.
- ApiRoles.BulkAssign: implements the corrected loop that adds a repeated new code once (see Findings); the as-written count is ApiRoles.BulkRepeatAddedTwice.
- Common: case mapping (`Lower`, `Upper`) and `Strip` act on ASCII only; Python's Unicode mappings (such as "ß".upper() == "SS") and Unicode whitespace are not modelled.
- Ordering: database `order_by` sorts by the database collation (usually case-insensitive); the model sorts names by code point (`StrLt`) in every listing that orders by name. Rows that tie under `order_by`, and the rows of a query without `order_by`, come back in an order the database leaves unspecified; the model fixes it to the stable insertion sort `SortBy` over stored order (BalanceLt, BatchLt, LaterAudit, Roles.Fetch, GetPendingSettlements and the other sorted listings), a modelling choice rather than a promise of the source.
- FinanceApi.CreateSettlement: a status or docstatus carried in the settlement data is not modelled; the new settlement is always a draft.
- SubscriptionManagement.Tenants.ChangeTenantPlan: reports an empty previous plan as `Some("")` where the source reports null.

- Floating point: quantities, factors and costs are exact `real`s, and nothing is claimed about float rounding or tolerances.
- Integer widths: counts and dates are unbounded `int`/`nat`; dates are day numbers and datetimes are integer timestamps.
- The Frappe database, cache, session and translations are sequences, maps and parameters. SQL row locking and `FOR UPDATE` in batch_number.py serve concurrency, and only the resulting max+1 number is modelled.
- Transactions: a request that raises leaves every table as it was, standing for the framework's rollback; commits are not modelled.
- Messages: `msgprint`, `log_error`, alerts and UI rendering are not modelled; JavaScript form handlers that only show a message, and the asynchronous callbacks of department.js and user.js (run synchronously here), are modelled only for the fields they set.
- normalize_numeric (product_department.py:114-118): a Decimal/float coercion with no logic beyond the conversion itself.
- get_available_permissions (permissions/roles.py:312-323, api/roles.py:22-29): a plain projection of the registry.
- get_permission_categories (api/roles.py:274-277): a constant list.
- The legacy department module's get_products/get_users (doctype/department/department.py:72-111) are the same queries as the current ones modelled in DepartmentsApi.
- get_default_storage_area, get_default_gl_code and apply_department_defaults (departments/doctype/department/department.py:231-276) are single-field reads.
- The user.py delegators (permissions/user.py:18-41) forward to the permission service, which is modelled.
- products/service.py list_products, create_product, update_product and get_product: only the access rules they apply are modelled, not the document bodies; convert_quantity's result record is reduced to the converted quantity.
- SubscriptionManagement.Permitted: the endpoints use the intended two-role gate (see Findings); the gate decides on the roles alone, so the Administrator, whom `only_for` always admits, passes when given the roles the framework grants it, and the framework's test mode, which skips the gate, is not modelled.
- only_for's refusal text is the framework's; tenant branding is keyed by company name; a document's validation on save is not re-run by the subscription page.
- SubscriptionManagement.Tenants.ToggleModule: stores the corrected flag (`Stored`, the truthiness the reply reports) rather than `int(enabled)`; the two differ only for a number strictly between -1 and 1 other than 0 (the text 0.5) and for a JSON string of zero digits (the text "\"0\""); the bare text 0 parses to the number 0 and agrees (SubscriptionManagement.StoredDiffers, see Findings).
- SubscriptionManagement.Stored: `int()` of a JSON string is modelled for plain digit strings only; admin-log details are kept as a JSON value; the JSON parse error text is a parameter.
- DepartmentDoc.SettingsOutcomeStable: assumes a parsed JSON object has distinct keys, as every JSON parser produces.
- IntercompanyService: the source's per-pair balance is a placeholder 0.0 and is kept so; general-ledger queries and the journal entries of on_submit are not modelled; the Company Group table is a map from group to members.
- IntercompanySettlementDoc: submitting a settlement that is not a draft is the framework's docstatus check and is not modelled.
- FinanceApi: `_user_bypasses_subscription_gates` is a parameter; new settlement names and database order are parameters; as_dict field projections and `int(limit)` parsing are not modelled; ties of the stable sort keep database order.
- DepartmentsApi: permission-service answers use `include_inactive` false, as the endpoints call it.
- DepartmentsApi.HierarchyMeans: the recursion depth is bounded by the number of department rows (fuel); a cyclic parent chain, which department validation refuses, is therefore cut off instead of recursing forever.
- DepartmentsApi.Site.AssignProductsToDepartment: the Product save's own validation is the `saveError` parameter; par_level and order_quantity are not stored; the default-department adjustment of the Product save is not re-applied.
- DepartmentsApi.Site.UpdateDepartmentSettings: the Department save re-validates only the settings.
- DepartmentsApi.GetDepartmentStatistics: the inventory value SUM query is a parameter.
- DepartmentsApi.GetDepartmentDetails: returns whole rows rather than as_dict projections; the JSON decode error text is fixed.
- query_stock_value (api/inventory.py): the ledger entry model carries no stock value field.
- query_batch_balance and query_batch_movements (api/inventory.py): they call batch-aware ledger functions that the ledger controller does not define, so they are not part of this model.
- InventoryApi.CreateAudit: the insert and its document validation are the `inserted` parameter.
- InventoryApi.UpdateAuditStatus: the save after the action is not re-validated.
- InventoryApi.ListAudits: the `department` argument is ignored, as the endpoint ignores it; the bypass decision is a parameter.
- InventoryApi: response projections are not modelled; the decode error text is fixed; duplicate payload keys read the first occurrence.
- Recipes: `_update_parent_recipes` is modelled as the function RefreshParents over direct parents, whose order is a parameter; a parent's full re-validation on save is not re-run.
- Provisioning scripts, JWT login, the subscription management page's JavaScript, enforcement examples and thin delegating modules are outside the core.
- The batch-aware ledger behaviour exercised by the ledger tests (batch requirement, batch matching, per-batch balance and movements) is not in the ledger controller and is not part of this model.

## Findings

| source | as written | input that shows it | evidently intended | confidence | as-written member | corrected member |
|---|---|---|---|---|---|---|
| blkshp_os/permissions/roles.py:278-288 | `existing_codes` is computed once before the loop, so a new code repeated in the input is appended once per repetition | an empty role updated with ["orders.view", "orders.view"] gets two identical rows | each new code appended once | high, not executed | Roles.DuplicateInputAppendedTwice | Roles.UpdatedMeans |
| blkshp_os/api/roles.py:332-350 | the same once-computed `existing_codes` in bulk_assign_permissions, so a repeated code is counted as added twice and stored twice | bulk assignment of [c, c] for a registry code c not on the role | each new code added once | high, not executed | ApiRoles.BulkRepeatAddedTwice | ApiRoles.BulkTallyMeans |
| blkshp_os/blkshp_os/core_platform/page/subscription_management/subscription_management.py:223-273 | the stored flag is `int(enabled)` while the reply and admin log use the truthiness of `enabled` | enabled = 0.5, or the text "\"0\"" (parsed to the string "0"), stores 0 (disabled) while reporting "enabled" | stored and reported states agree | medium, not executed | SubscriptionManagement.FractionStoredDisabled | SubscriptionManagement.StoredAgrees |
| blkshp_os/api/inventory.py:107-123 | the gate checks the requested department but the record is fetched by the joined name "{product}-{department}-{company}", which another combination can share | a caller allowed only department "A-B" asks for product "X", department "A-B", company "C-Y" and receives the balance of product "X-A" in department "B-C" | return only the requested combination's balance | low, not executed | InventoryApi.ForeignBalanceReturned | InventoryApi.GetInventoryBalance |
| blkshp_os/blkshp_os/core_platform/page/subscription_management/subscription_management.py:28 | `frappe.only_for("BLKSHP Operations", "System Manager")` passes "System Manager" as the framework's refusal-message argument (`only_for(roles, message)`), so the role list is BLKSHP Operations alone; the same call gates :84, :158 and :220 | a System Manager without BLKSHP Operations calls get_all_tenants and is refused | both roles admitted | medium, not executed | SubscriptionManagement.SystemManagerRefused | SubscriptionManagement.PermittedMeans |
