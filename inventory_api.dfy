// The Inventory REST endpoints: balance, ledger, batch and audit queries
// and the audit actions.  Every endpoint first lets a user through who
// bypasses the subscription gates; anyone else is restricted to the
// departments the permission service grants them for reading.  Tables are
// values; the audit being acted on is the audit document object.

module InventoryApi {
  import opened Common
  import opened JsonValue
  import PermissionService
  import InventoryBalance
  import StockLedger
  import BatchNumbers
  import InventoryAudit
  import ProductDoc

  /**
   * The caller: the user and roles, whether they bypass the subscription
   * gates (decided outside this model), and the Department and Department
   * Permission tables the permission service reads.
   */
  datatype Caller = Caller(user: string, roles: seq<string>, bypassesGates: bool,
                           departments: seq<PermissionService.Department>, permissions: seq<PermissionService.PermRow>)

  const ACCESS_DENIED: string := "You do not have permission to access this department."
  const BATCH_DENIED: string := "You do not have permission to access this batch's department."
  const AUDIT_DENIED: string := "You do not have permission to access this audit."
  const CREATE_DENIED: string := "You do not have permission to create audits for some of the specified departments."
  const MODIFY_DENIED: string := "You do not have permission to modify this audit."
  const REQUIRED_THREE: string := "Product, department, and company are required."
  const REQUIRED_FIVE: string := "Product, department, company, from_date, and to_date are required."
  const BATCH_REQUIRED: string := "Batch number is required."
  const AUDIT_REQUIRED: string := "Audit name is required."
  const INVALID_ACTION: string := "Invalid action. Must be one of: create_tasks, mark_in_progress, mark_review, close"
  const INVALID_PAYLOAD: string := "Invalid payload for audit creation."
  const DECODE_ERROR: string := "JSONDecodeError: Expecting value"
  const NO_GET: string := "AttributeError: object has no attribute 'get'"
  const NOT_ITERABLE: string := "TypeError: object is not iterable"

  /** The actions `update_audit_status` accepts. */
  const ACTIONS: seq<string> := ["create_tasks", "mark_in_progress", "mark_review", "close"]

  /** `frappe.get_doc` of a missing record. */
  function NotFound(doctype: string, name: string): string
  {
    doctype + " " + name + " not found"
  }

  // ---------------------------------------------------------------------
  // Department gating
  // ---------------------------------------------------------------------

  /** `get_accessible_departments(user)`: the active departments readable by the caller. */
  function AccessibleNames(c: Caller): seq<string>
  {
    match PermissionService.AccessibleDepartments(c.user, c.roles, "can_read", false, c.departments, c.permissions)
    case Ok(names) => names
    case Err(_) => []
  }

  /** The permission service's own reading of one department. */
  ghost predicate MayRead(c: Caller, department: string)
  {
    PermissionService.Bypasses(c.user, c.roles)
    || (department != "" && PermissionService.IsActive(c.departments, department)
        && PermissionService.Granted(c.user, c.permissions, PermissionService.CanRead, department))
  }

  /** Outside a bypass, the accessible list holds exactly the departments the caller may read. */
  lemma AccessibleNamesMeans(c: Caller, department: string)
    requires !PermissionService.Bypasses(c.user, c.roles)
    ensures department in AccessibleNames(c) <==> MayRead(c, department)
  {
    PermissionService.FlagsRoundTrip(PermissionService.CanRead);
    PermissionService.AccessibleDepartmentsMeans(c.user, c.roles, "can_read", false, c.departments, c.permissions, department);
  }

  /**
   * The gate of the endpoints that name one department:
   * `has_department_permission(user, department)` unless the caller
   * bypasses the subscription gates.
   */
  function DepartmentGate(c: Caller, department: string, denial: string): (r: Option<string>)
    ensures r.Some? ==> r.value == denial
    ensures r.None? <==> c.bypassesGates || MayRead(c, department)
  {
    PermissionService.FlagsRoundTrip(PermissionService.CanRead);
    if c.bypassesGates then None
    else
      match PermissionService.HasDepartmentPermission(c.user, c.roles, department, "can_read", false, c.departments, c.permissions)
      case Ok(allowed) => if allowed then None else Some(denial)
      case Err(_) => Some(denial)
  }

  /** Which departments a listing may return. */
  datatype Scope = Everything | Only(department: string) | Among(names: seq<string>) | NoAccess

  predicate InScope(scope: Scope, department: string)
  {
    match scope
    case Everything => true
    case Only(d) => department == d
    case Among(names) => department in names
    case NoAccess => false
  }

  /**
   * The department rule of the listings: a caller with no accessible
   * department gets an empty list, asking for an inaccessible one is
   * refused, and otherwise the listing is restricted to the accessible
   * departments (or to the one asked for).
   */
  function ListingScope(c: Caller, department: string): (r: Result<Scope>)
    ensures r.Err? <==> !c.bypassesGates && AccessibleNames(c) != [] && department != "" && department !in AccessibleNames(c)
    ensures r.Err? ==> r.error == ACCESS_DENIED
    ensures !c.bypassesGates && AccessibleNames(c) == [] ==> r == Ok(NoAccess)
    ensures r.Ok? && !c.bypassesGates ==> forall d :: InScope(r.value, d) ==> d in AccessibleNames(c)
    ensures r.Ok? && department != "" ==> forall d :: InScope(r.value, d) ==> d == department
    ensures c.bypassesGates && department == "" ==> r == Ok(Everything)
  {
    if c.bypassesGates then Ok(if department != "" then Only(department) else Everything)
    else
      var accessible := AccessibleNames(c);
      if accessible == [] then Ok(NoAccess)
      else if department != "" && department !in accessible then Err(ACCESS_DENIED)
      else if department != "" then Ok(Only(department))
      else Ok(Among(accessible))
  }

  // ---------------------------------------------------------------------
  // Pages
  // ---------------------------------------------------------------------

  /** A listing's answer. */
  datatype Page<T> = Page(rows: seq<T>, total: nat, limit: nat, offset: nat)

  /** `frappe.get_all(limit=limit, start=offset)`: a page length of 0 means no limit (and no offset). */
  function Window<T>(rows: seq<T>, limit: nat, offset: nat): (r: seq<T>)
    ensures limit == 0 ==> r == rows
    ensures limit > 0 ==> |r| <= limit && r == PySlice(rows, offset, offset + limit)
    ensures forall x :: x in r ==> x in rows
  {
    if limit == 0 then rows else PySlice(rows, offset, offset + limit)
  }

  /**
   * `ORDER BY` then the page: the window of the rows sorted by `lt` (a
   * sorted permutation, see `SortBy`), itself in order; with no limit it is
   * every row.
   */
  function SortedPage<T(!new)>(rows: seq<T>, lt: (T, T) -> bool, limit: nat, offset: nat): (r: seq<T>)
    requires StrictOrder(lt)
    ensures r == Window(SortBy(rows, lt), limit, offset)
    ensures SortedBy(r, lt)
    ensures limit == 0 ==> multiset(r) == multiset(rows)
    ensures limit > 0 ==> |r| <= limit
    ensures forall x :: x in r ==> x in rows
  {
    var sorted := SortBy(rows, lt);
    assert forall x :: x in sorted ==> x in multiset(rows);
    WindowSorted(sorted, lt, limit, offset);
    Window(sorted, limit, offset)
  }

  /** A window of a sorted sequence is sorted. */
  lemma WindowSorted<T>(s: seq<T>, lt: (T, T) -> bool, limit: nat, offset: nat)
    requires SortedBy(s, lt)
    ensures SortedBy(Window(s, limit, offset), lt)
  {
    if limit > 0 {
      var lo := SliceBound(offset, |s|);
      var hi := SliceBound(offset + limit, |s|);
      if lo < hi {
        var w := s[lo..hi];
        assert forall i, j :: 0 <= i < j < |w| ==> w[i] == s[lo + i] && w[j] == s[lo + j];
      }
    }
  }

  // ---------------------------------------------------------------------
  // Inventory balances
  // ---------------------------------------------------------------------

  /** A stored Inventory Balance record and its name. */
  datatype BalanceRecord = BalanceRecord(name: string, key: InventoryBalance.Key, balance: InventoryBalance.Balance)

  /** The records `list_inventory_balances` counts and lists. */
  predicate BalanceMatches(x: BalanceRecord, product: string, company: string, scope: Scope)
  {
    (product == "" || x.key.product == product) && (company == "" || x.key.company == company) && InScope(scope, x.key.department)
  }

  function MatchingBalances(records: seq<BalanceRecord>, product: string, company: string, scope: Scope): (r: seq<BalanceRecord>)
    ensures forall x :: x in r <==> x in records && BalanceMatches(x, product, company, scope)
  {
    if records == [] then []
    else
      var k := |records| - 1;
      assert records == records[..k] + [records[k]];
      MatchingBalances(records[..k], product, company, scope)
        + (if BalanceMatches(records[k], product, company, scope) then [records[k]] else [])
  }

  /** Each matching record is counted as often as it is stored, and no other record is counted. */
  lemma {:induction false} MatchingBalancesCount(records: seq<BalanceRecord>, product: string, company: string, scope: Scope)
    ensures forall x ::
      multiset(MatchingBalances(records, product, company, scope))[x] ==
        (if BalanceMatches(x, product, company, scope) then multiset(records)[x] else 0)
    decreases |records|
  {
    if records != [] {
      var k := |records| - 1;
      MatchingBalancesCount(records[..k], product, company, scope);
      assert records == records[..k] + [records[k]];
    }
  }

  /** Product, then department. */
  predicate BalanceLt(a: BalanceRecord, b: BalanceRecord)
  {
    StrLt(a.key.product, b.key.product) || (a.key.product == b.key.product && StrLt(a.key.department, b.key.department))
  }

  lemma BalanceLtOrder()
    ensures StrictOrder(BalanceLt)
  {
    forall a: BalanceRecord ensures !BalanceLt(a, a) {
      StrLtIrreflexive(a.key.product);
      StrLtIrreflexive(a.key.department);
    }
    forall a: BalanceRecord, b: BalanceRecord, c: BalanceRecord | BalanceLt(a, b) && BalanceLt(b, c) ensures BalanceLt(a, c) {
      if StrLt(a.key.product, b.key.product) && StrLt(b.key.product, c.key.product) {
        StrLtTransitive(a.key.product, b.key.product, c.key.product);
      } else if a.key.product == b.key.product && b.key.product == c.key.product {
        StrLtTransitive(a.key.department, b.key.department, c.key.department);
      }
    }
  }

  /**
   * `list_inventory_balances`: the records passing the filters and the
   * department rule, by product and department; the total counts all of
   * them, the rows are the requested page.
   */
  function ListInventoryBalances(c: Caller, records: seq<BalanceRecord>, product: string, department: string, company: string,
                                 limit: nat, offset: nat): (r: Result<Page<BalanceRecord>>)
    ensures ListingScope(c, department).Err? ==> r == Err(ACCESS_DENIED)
    ensures ListingScope(c, department) == Ok(NoAccess) ==> r == Ok(Page([], 0, limit, offset))
    ensures ListingScope(c, department).Ok? && ListingScope(c, department) != Ok(NoAccess) ==>
      var matching := MatchingBalances(records, product, company, ListingScope(c, department).value);
      && r.Ok? && r.value.total == |matching|
      && (BalanceLtOrder(); r.value.rows == SortedPage(matching, BalanceLt, limit, offset))
    ensures r.Ok? ==> SortedBy(r.value.rows, BalanceLt)
    ensures r.Ok? ==>
      && r.value.limit == limit && r.value.offset == offset
      && (limit > 0 ==> |r.value.rows| <= limit)
      && forall x :: x in r.value.rows ==>
           && x in records && (product == "" || x.key.product == product) && (company == "" || x.key.company == company)
           && (department == "" || x.key.department == department)
           && (c.bypassesGates || x.key.department in AccessibleNames(c))
  {
    match ListingScope(c, department)
    case Err(e) => Err(e)
    case Ok(scope) =>
      if scope == NoAccess then Ok(Page([], 0, limit, offset))
      else
        BalanceLtOrder();
        var matching := MatchingBalances(records, product, company, scope);
        Ok(Page(SortedPage(matching, BalanceLt, limit, offset), |matching|, limit, offset))
  }

  /** The first record with the name: names are unique in the table. */
  function RecordNamed(records: seq<BalanceRecord>, name: string): (r: Option<nat>)
    ensures r.None? <==> forall i :: 0 <= i < |records| ==> records[i].name != name
    ensures r.Some? ==> r.value < |records| && records[r.value].name == name
    ensures r.Some? ==> forall i :: 0 <= i < r.value ==> records[i].name != name
  {
    if records == [] then None
    else if records[0].name == name then Some(0)
    else match RecordNamed(records[1..], name)
      case None => None
      case Some(i) => Some(i + 1)
  }

  /** The first record of the combination. */
  function RecordFor(records: seq<BalanceRecord>, k: InventoryBalance.Key): (r: Option<nat>)
    ensures r.None? <==> forall i :: 0 <= i < |records| ==> records[i].key != k
    ensures r.Some? ==> r.value < |records| && records[r.value].key == k
  {
    if records == [] then None
    else if records[0].key == k then Some(0)
    else match RecordFor(records[1..], k)
      case None => None
      case Some(i) => Some(i + 1)
  }

  /**
   * `get_inventory_balance` as written: the three parts are required, the
   * requested department is gated, and the record is then fetched by the
   * name "{product}-{department}-{company}" built from the request.
   */
  function GetInventoryBalanceAsWritten(c: Caller, records: seq<BalanceRecord>, product: string, department: string,
                                        company: string): (r: Result<BalanceRecord>)
    ensures product == "" || department == "" || company == "" ==> r == Err(REQUIRED_THREE)
    ensures product != "" && department != "" && company != "" && DepartmentGate(c, department, ACCESS_DENIED).Some? ==>
      r == Err(ACCESS_DENIED)
    ensures product != "" && department != "" && company != "" && DepartmentGate(c, department, ACCESS_DENIED).None? ==>
      (r.Ok? <==> exists i :: 0 <= i < |records| && records[i].name == product + "-" + department + "-" + company)
    ensures r.Ok? ==> c.bypassesGates || MayRead(c, department)
    ensures r.Ok? ==>
      var named := RecordNamed(records, product + "-" + department + "-" + company);
      named.Some? && r.value == records[named.value]
  {
    if product == "" || department == "" || company == "" then Err(REQUIRED_THREE)
    else if DepartmentGate(c, department, ACCESS_DENIED).Some? then Err(ACCESS_DENIED)
    else
      var name := product + "-" + department + "-" + company;
      match RecordNamed(records, name)
      case None => Err("Inventory balance not found: " + name)
      case Some(i) => Ok(records[i])
  }

  /** A table whose only record is named as autoname names it. */
  predicate NamedByAutoname(records: seq<BalanceRecord>)
  {
    forall i :: 0 <= i < |records| ==> InventoryBalance.BalanceName(records[i].key) == Ok(records[i].name)
  }

  /**
   * The name built from the request can be the name of another
   * combination's record: a caller who may read department "A-B" only,
   * asking for product "X" in company "C-Y", receives the balance of
   * product "X-A" in department "B-C", which they may not read.
   */
  lemma ForeignBalanceReturned()
    ensures var c := Caller("u", [], false, [PermissionService.Department("A-B", true, "Y")],
                            [PermissionService.PermRow("p", "u", "User", "A-B", PermissionService.ALL_FLAGS, None, None, "")]);
      var stored := BalanceRecord("X-A-B-C-Y", InventoryBalance.Key("X-A", "B-C", "Y"), InventoryBalance.Balance(5.0, None, 0));
      && NamedByAutoname([stored])
      && DepartmentGate(c, "A-B", ACCESS_DENIED).None?
      && DepartmentGate(c, "B-C", ACCESS_DENIED).Some?
      && GetInventoryBalanceAsWritten(c, [stored], "X", "A-B", "C-Y") == Ok(stored)
  {
    var c := Caller("u", [], false, [PermissionService.Department("A-B", true, "Y")],
                    [PermissionService.PermRow("p", "u", "User", "A-B", PermissionService.ALL_FLAGS, None, None, "")]);
    var row := c.permissions[0];
    assert PermissionService.IsActive(c.departments, "A-B") by {
      assert c.departments[0] in c.departments;
    }
    assert PermissionService.Granted(c.user, c.permissions, PermissionService.CanRead, "A-B") by {
      assert row in c.permissions;
    }
    assert !PermissionService.IsActive(c.departments, "B-C");
    assert "X" + "-" + "A-B" + "-" + "C-Y" == "X-A-B-C-Y";
    assert "X-A" + "-" + "B-C" + "-" + "Y" == "X-A-B-C-Y";
  }

  /**
   * `get_inventory_balance` looking the record up by its combination: the
   * balance returned is always that of the requested, gated department.
   */
  function GetInventoryBalance(c: Caller, records: seq<BalanceRecord>, product: string, department: string, company: string)
    : (r: Result<BalanceRecord>)
    ensures product == "" || department == "" || company == "" ==> r == Err(REQUIRED_THREE)
    ensures r.Ok? ==>
      && r.value in records && r.value.key == InventoryBalance.Key(product, department, company)
      && (c.bypassesGates || MayRead(c, r.value.key.department))
    ensures product != "" && department != "" && company != "" && DepartmentGate(c, department, ACCESS_DENIED).None? ==>
      (r.Ok? <==> exists i :: 0 <= i < |records| && records[i].key == InventoryBalance.Key(product, department, company))
  {
    if product == "" || department == "" || company == "" then Err(REQUIRED_THREE)
    else if DepartmentGate(c, department, ACCESS_DENIED).Some? then Err(ACCESS_DENIED)
    else
      var k := InventoryBalance.Key(product, department, company);
      match RecordFor(records, k)
      case None => Err("Inventory balance not found: " + product + "-" + department + "-" + company)
      case Some(i) => Ok(records[i])
  }

  /** On a table named by autoname, the two lookups agree whenever the requested combination is stored. */
  lemma LookupsAgreeWhenStored(c: Caller, records: seq<BalanceRecord>, product: string, department: string, company: string)
    requires NamedByAutoname(records)
    requires forall i, j :: 0 <= i < j < |records| ==> records[i].name != records[j].name
    requires exists i :: 0 <= i < |records| && records[i].key == InventoryBalance.Key(product, department, company)
    ensures GetInventoryBalanceAsWritten(c, records, product, department, company)
            == GetInventoryBalance(c, records, product, department, company)
  {
    var k := InventoryBalance.Key(product, department, company);
    if product != "" && department != "" && company != "" && DepartmentGate(c, department, ACCESS_DENIED).None? {
      var j := RecordFor(records, k).value;
      assert InventoryBalance.BalanceName(records[j].key) == Ok(records[j].name);
      var i := RecordNamed(records, product + "-" + department + "-" + company).value;
      assert i == j;
    }
  }

  // ---------------------------------------------------------------------
  // Ledger queries
  // ---------------------------------------------------------------------

  /**
   * `query_stock_balance`: the three parts, the department gate, then
   * `get_stock_balance` (which checks the three records exist).
   */
  function QueryStockBalance(c: Caller, entries: seq<StockLedger.Entry>, product: string, department: string, company: string,
                             asOf: Option<int>, productExists: bool, departmentExists: bool, companyExists: bool)
    : (r: Result<real>)
    ensures product == "" || department == "" || company == "" ==> r == Err(REQUIRED_THREE)
    ensures product != "" && department != "" && company != "" ==>
      if DepartmentGate(c, department, ACCESS_DENIED).Some? then r == Err(ACCESS_DENIED)
      else r == StockLedger.StockBalance(entries, InventoryBalance.Key(product, department, company), asOf,
                                         productExists, departmentExists, companyExists)
  {
    if product == "" || department == "" || company == "" then Err(REQUIRED_THREE)
    else if DepartmentGate(c, department, ACCESS_DENIED).Some? then Err(ACCESS_DENIED)
    else StockLedger.StockBalance(entries, InventoryBalance.Key(product, department, company), asOf,
                                  productExists, departmentExists, companyExists)
  }

  /** `query_stock_movements`: all five parts, the department gate, then `get_stock_movements`. */
  function QueryStockMovements(c: Caller, entries: seq<StockLedger.Entry>, product: string, department: string, company: string,
                               from: Option<int>, to: Option<int>, productExists: bool, departmentExists: bool,
                               companyExists: bool): (r: Result<seq<StockLedger.Entry>>)
    ensures product == "" || department == "" || company == "" || from.None? || to.None? ==> r == Err(REQUIRED_FIVE)
    ensures product != "" && department != "" && company != "" && from.Some? && to.Some? ==>
      if DepartmentGate(c, department, ACCESS_DENIED).Some? then r == Err(ACCESS_DENIED)
      else r == StockLedger.StockMovements(entries, InventoryBalance.Key(product, department, company), from, to,
                                           productExists, departmentExists, companyExists)
    ensures r.Ok? ==> c.bypassesGates || MayRead(c, department)
    ensures r.Ok? ==> forall e :: e in r.value ==> e.department == department && e.product == product && e.company == company
    ensures r.Ok? ==> forall e :: e in r.value <==>
      e in entries && StockLedger.Counts(e, InventoryBalance.Key(product, department, company),
                                         StockLedger.Between(from.value, to.value))
    ensures r.Ok? ==> forall i, j :: 0 <= i < j < |r.value| ==> r.value[i].postingDatetime <= r.value[j].postingDatetime
  {
    if product == "" || department == "" || company == "" || from.None? || to.None? then Err(REQUIRED_FIVE)
    else if DepartmentGate(c, department, ACCESS_DENIED).Some? then Err(ACCESS_DENIED)
    else StockLedger.StockMovements(entries, InventoryBalance.Key(product, department, company), from, to,
                                    productExists, departmentExists, companyExists)
  }

  // ---------------------------------------------------------------------
  // Batches
  // ---------------------------------------------------------------------

  /** The batches `list_batches` counts and lists; with `activeOnly`, only those expiring today or later. */
  predicate BatchMatches(x: BatchNumbers.BatchRow, product: string, company: string, scope: Scope, activeOnly: bool, today: int)
  {
    && (product == "" || x.product == product) && (company == "" || x.company == company) && InScope(scope, x.department)
    && (activeOnly ==> x.expirationDate.Some? && x.expirationDate.value >= today)
  }

  function MatchingBatches(batches: seq<BatchNumbers.BatchRow>, product: string, company: string, scope: Scope,
                           activeOnly: bool, today: int): (r: seq<BatchNumbers.BatchRow>)
    ensures forall x :: x in r <==> x in batches && BatchMatches(x, product, company, scope, activeOnly, today)
  {
    if batches == [] then []
    else
      var k := |batches| - 1;
      assert batches == batches[..k] + [batches[k]];
      MatchingBatches(batches[..k], product, company, scope, activeOnly, today)
        + (if BatchMatches(batches[k], product, company, scope, activeOnly, today) then [batches[k]] else [])
  }

  /** Each matching batch is counted as often as it is stored, and no other batch is counted. */
  lemma {:induction false} MatchingBatchesCount(batches: seq<BatchNumbers.BatchRow>, product: string, company: string,
                                                scope: Scope, activeOnly: bool, today: int)
    ensures forall x ::
      multiset(MatchingBatches(batches, product, company, scope, activeOnly, today))[x] ==
        (if BatchMatches(x, product, company, scope, activeOnly, today) then multiset(batches)[x] else 0)
    decreases |batches|
  {
    if batches != [] {
      var k := |batches| - 1;
      MatchingBatchesCount(batches[..k], product, company, scope, activeOnly, today);
      assert batches == batches[..k] + [batches[k]];
    }
  }

  /** An unset date sorts first. */
  predicate DateLt(a: Option<int>, b: Option<int>)
  {
    (a.None? && b.Some?) || (a.Some? && b.Some? && a.value < b.value)
  }

  /** Expiration date, then product. */
  predicate BatchLt(a: BatchNumbers.BatchRow, b: BatchNumbers.BatchRow)
  {
    DateLt(a.expirationDate, b.expirationDate) || (a.expirationDate == b.expirationDate && StrLt(a.product, b.product))
  }

  lemma BatchLtOrder()
    ensures StrictOrder(BatchLt)
  {
    forall a: BatchNumbers.BatchRow ensures !BatchLt(a, a) {
      StrLtIrreflexive(a.product);
    }
    forall a: BatchNumbers.BatchRow, b: BatchNumbers.BatchRow, c: BatchNumbers.BatchRow | BatchLt(a, b) && BatchLt(b, c)
      ensures BatchLt(a, c)
    {
      if a.expirationDate == b.expirationDate && b.expirationDate == c.expirationDate {
        StrLtTransitive(a.product, b.product, c.product);
      }
    }
  }

  /** `list_batches`: the department rule of the balance listing, plus the expiry filter. */
  function ListBatches(c: Caller, batches: seq<BatchNumbers.BatchRow>, product: string, department: string, company: string,
                       activeOnly: bool, today: int, limit: nat, offset: nat): (r: Result<Page<BatchNumbers.BatchRow>>)
    ensures ListingScope(c, department).Err? ==> r == Err(ACCESS_DENIED)
    ensures ListingScope(c, department) == Ok(NoAccess) ==> r == Ok(Page([], 0, limit, offset))
    ensures r.Ok? ==> forall x :: x in r.value.rows ==>
      && x in batches && (department == "" || x.department == department)
      && (c.bypassesGates || x.department in AccessibleNames(c))
      && (activeOnly ==> x.expirationDate.Some? && x.expirationDate.value >= today)
    ensures ListingScope(c, department).Ok? && ListingScope(c, department) != Ok(NoAccess) ==>
      var matching := MatchingBatches(batches, product, company, ListingScope(c, department).value, activeOnly, today);
      && r.Ok? && r.value.total == |matching| && r.value.limit == limit && r.value.offset == offset
      && (BatchLtOrder(); r.value.rows == SortedPage(matching, BatchLt, limit, offset))
    ensures r.Ok? ==> SortedBy(r.value.rows, BatchLt) && (limit > 0 ==> |r.value.rows| <= limit)
  {
    match ListingScope(c, department)
    case Err(e) => Err(e)
    case Ok(scope) =>
      if scope == NoAccess then Ok(Page([], 0, limit, offset))
      else
        BatchLtOrder();
        var matching := MatchingBatches(batches, product, company, scope, activeOnly, today);
        Ok(Page(SortedPage(matching, BatchLt, limit, offset), |matching|, limit, offset))
  }

  function BatchNamed(batches: seq<BatchNumbers.BatchRow>, name: string): (r: Option<nat>)
    ensures r.None? <==> forall i :: 0 <= i < |batches| ==> batches[i].name != name
    ensures r.Some? ==> r.value < |batches| && batches[r.value].name == name
  {
    if batches == [] then None
    else if batches[0].name == name then Some(0)
    else match BatchNamed(batches[1..], name)
      case None => None
      case Some(i) => Some(i + 1)
  }

  /** `get_batch`: the number is required, the record is fetched, then its department is gated. */
  function GetBatch(c: Caller, batches: seq<BatchNumbers.BatchRow>, batchNumber: string): (r: Result<BatchNumbers.BatchRow>)
    ensures batchNumber == "" ==> r == Err(BATCH_REQUIRED)
    ensures r.Ok? ==> r.value in batches && r.value.name == batchNumber && (c.bypassesGates || MayRead(c, r.value.department))
    ensures batchNumber != "" && BatchNamed(batches, batchNumber).Some? ==>
      (r.Err? <==> DepartmentGate(c, batches[BatchNamed(batches, batchNumber).value].department, BATCH_DENIED).Some?)
  {
    if batchNumber == "" then Err(BATCH_REQUIRED)
    else match BatchNamed(batches, batchNumber)
      case None => Err(NotFound("Batch Number", batchNumber))
      case Some(i) =>
        if DepartmentGate(c, batches[i].department, BATCH_DENIED).Some? then Err(BATCH_DENIED) else Ok(batches[i])
  }

  // ---------------------------------------------------------------------
  // Audits
  // ---------------------------------------------------------------------

  /** An Inventory Audit row as the listing reads it. */
  datatype AuditRow = AuditRow(name: string, auditName: string, status: string, company: string, auditDate: int)

  /** The departments of an audit's child table, by audit name. */
  function AuditDepartments(children: map<string, seq<string>>, name: string): seq<string>
  {
    if name in children then children[name] else []
  }

  /** ANY of the departments is accessible. */
  predicate AnyAccessible(departments: seq<string>, accessible: seq<string>)
  {
    exists d :: d in departments && d in accessible
  }

  /** The gate of `get_audit` and `update_audit_status`: one accessible department of the audit suffices. */
  function AuditGate(c: Caller, departments: seq<string>, denial: string): (r: Option<string>)
    ensures r.Some? ==> r.value == denial
    ensures r.None? <==> c.bypassesGates || AnyAccessible(departments, AccessibleNames(c))
  {
    if c.bypassesGates || AnyAccessible(departments, AccessibleNames(c)) then None else Some(denial)
  }

  predicate AuditMatches(x: AuditRow, status: string, company: string)
  {
    (status == "" || x.status == status) && (company == "" || x.company == company)
  }

  function MatchingAudits(audits: seq<AuditRow>, status: string, company: string): (r: seq<AuditRow>)
    ensures forall x :: x in r <==> x in audits && AuditMatches(x, status, company)
  {
    if audits == [] then []
    else
      var k := |audits| - 1;
      assert audits == audits[..k] + [audits[k]];
      MatchingAudits(audits[..k], status, company) + (if AuditMatches(audits[k], status, company) then [audits[k]] else [])
  }

  /** Latest audit date first. */
  predicate LaterAudit(a: AuditRow, b: AuditRow)
  {
    a.auditDate > b.auditDate
  }

  /** The query of `list_audits`: the filtered audits, latest first. */
  function AuditQuery(audits: seq<AuditRow>, status: string, company: string): (r: seq<AuditRow>)
    ensures forall x :: x in r <==> x in audits && AuditMatches(x, status, company)
    ensures |r| == |MatchingAudits(audits, status, company)|
    ensures SortedBy(r, LaterAudit)
    ensures multiset(r) == multiset(MatchingAudits(audits, status, company))
  {
    var matching := MatchingAudits(audits, status, company);
    var r := SortBy(matching, LaterAudit);
    assert forall x :: x in r <==> x in multiset(matching);
    assert |multiset(r)| == |multiset(matching)|;
    r
  }

  /** An audit one of whose departments is accessible. */
  predicate Visible(x: AuditRow, children: map<string, seq<string>>, accessible: seq<string>)
  {
    AnyAccessible(AuditDepartments(children, x.name), accessible)
  }

  /**
   * The loop of the filtered listing: visible audits in order, stopping
   * once `limit` are kept (at least one is kept before the count is
   * checked).
   */
  function FirstVisible(xs: seq<AuditRow>, children: map<string, seq<string>>, accessible: seq<string>, limit: int)
    : seq<AuditRow>
  {
    if xs == [] then []
    else if Visible(xs[0], children, accessible) then
      if limit <= 1 then [xs[0]] else [xs[0]] + FirstVisible(xs[1..], children, accessible, limit - 1)
    else FirstVisible(xs[1..], children, accessible, limit)
  }

  /** The visible audits, in order. */
  function AllVisible(xs: seq<AuditRow>, children: map<string, seq<string>>, accessible: seq<string>): (r: seq<AuditRow>)
    ensures forall x :: x in r <==> x in xs && Visible(x, children, accessible)
  {
    if xs == [] then []
    else (if Visible(xs[0], children, accessible) then [xs[0]] else []) + AllVisible(xs[1..], children, accessible)
  }

  /** The loop keeps exactly the first visible audits: as many as the limit allows, and at least one if any. */
  lemma {:induction false} FirstVisibleMeans(xs: seq<AuditRow>, children: map<string, seq<string>>, accessible: seq<string>,
                                             limit: int)
    ensures var all := AllVisible(xs, children, accessible);
      FirstVisible(xs, children, accessible, limit) == all[..if limit < 1 then Min(1, |all|) else Min(limit, |all|)]
  {
    if xs != [] {
      FirstVisibleMeans(xs[1..], children, accessible, if Visible(xs[0], children, accessible) then limit - 1 else limit);
    }
  }

  function Min(a: int, b: int): int
  {
    if a < b then a else b
  }

  function Max(a: int, b: int): int
  {
    if a < b then b else a
  }

  /**
   * `list_audits`.  A bypassing caller gets the page of the query and the
   * count of all matching audits.  Anyone else: nothing without an
   * accessible department; otherwise twice the limit is fetched from the
   * offset, the visible ones are kept until the limit is reached, and the
   * total is the number kept.
   */
  method ListAudits(c: Caller, audits: seq<AuditRow>, children: map<string, seq<string>>, status: string, company: string,
                    limit: nat, offset: nat) returns (page: Page<AuditRow>)
    ensures page.limit == limit && page.offset == offset
    ensures c.bypassesGates ==>
      page.rows == Window(AuditQuery(audits, status, company), limit, offset)
      && page.total == |MatchingAudits(audits, status, company)|
    ensures !c.bypassesGates && AccessibleNames(c) == [] ==> page == Page([], 0, limit, offset)
    ensures !c.bypassesGates && AccessibleNames(c) != [] ==>
      page.rows == FirstVisible(Window(AuditQuery(audits, status, company), 2 * limit, offset), children, AccessibleNames(c), limit)
      && page.total == |page.rows|
    ensures !c.bypassesGates ==> |page.rows| <= Max(limit, 1)
    ensures !c.bypassesGates ==> forall x :: x in page.rows ==>
      x in audits && AuditMatches(x, status, company) && Visible(x, children, AccessibleNames(c))
  {
    var query := AuditQuery(audits, status, company);
    if c.bypassesGates {
      return Page(Window(query, limit, offset), |MatchingAudits(audits, status, company)|, limit, offset);
    }
    var accessible := AccessibleNames(c);
    if accessible == [] {
      return Page([], 0, limit, offset);
    }
    var fetched := Window(query, 2 * limit, offset);
    var kept := KeepVisible(fetched, children, accessible, limit);
    FirstVisibleMeans(fetched, children, accessible, limit);
    assert forall x :: x in kept ==> x in AllVisible(fetched, children, accessible);
    page := Page(kept, |kept|, limit, offset);
  }

  /** One step of the keep loop: the head audit is kept when visible, and the count is checked after keeping. */
  lemma FirstVisibleStep(xs: seq<AuditRow>, i: nat, children: map<string, seq<string>>, accessible: seq<string>, n: int)
    requires i < |xs|
    ensures FirstVisible(xs[i..], children, accessible, n)
            == if !Visible(xs[i], children, accessible) then FirstVisible(xs[i + 1..], children, accessible, n)
               else if n <= 1 then [xs[i]]
               else [xs[i]] + FirstVisible(xs[i + 1..], children, accessible, n - 1)
  {
    assert xs[i..][1..] == xs[i + 1..];
  }

  /** The loop of the filtered listing over the fetched audits. */
  method KeepVisible(fetched: seq<AuditRow>, children: map<string, seq<string>>, accessible: seq<string>, limit: nat)
    returns (kept: seq<AuditRow>)
    ensures kept == FirstVisible(fetched, children, accessible, limit)
  {
    kept := [];
    var i := 0;
    while i < |fetched|
      invariant 0 <= i <= |fetched|
      invariant kept == [] || |kept| < limit
      invariant kept + FirstVisible(fetched[i..], children, accessible, limit - |kept|)
                == FirstVisible(fetched, children, accessible, limit)
    {
      FirstVisibleStep(fetched, i, children, accessible, limit - |kept|);
      if AnyAccessible(AuditDepartments(children, fetched[i].name), accessible) {
        kept := kept + [fetched[i]];
        if |kept| >= limit {
          return;
        }
      }
      i := i + 1;
    }
  }

  /** What `get_audit` reports. */
  datatype AuditSummary = AuditSummary(name: string, status: string, company: string, departments: seq<string>,
                                       categories: seq<string>, storageLocations: seq<string>,
                                       countingTasksCount: nat, auditLinesCount: nat)

  /** `get_audit`: the name is required, the document is fetched (null when missing), then ANY-department gated. */
  function GetAudit(c: Caller, name: string, audit: InventoryAudit.Audit?): (r: Result<AuditSummary>)
    reads audit
    ensures name == "" ==> r == Err(AUDIT_REQUIRED)
    ensures name != "" && audit == null ==> r == Err(NotFound("Inventory Audit", name))
    ensures name != "" && audit != null ==>
      (r.Ok? <==> c.bypassesGates || AnyAccessible(audit.departments, AccessibleNames(c)))
    ensures r.Ok? ==> audit != null && r.value.departments == audit.departments && r.value.status == audit.status
    ensures r.Ok? ==> audit != null && r.value.countingTasksCount == |audit.tasks| && r.value.auditLinesCount == |audit.lines|
  {
    if name == "" then Err(AUDIT_REQUIRED)
    else if audit == null then Err(NotFound("Inventory Audit", name))
    else if AuditGate(c, audit.departments, AUDIT_DENIED).Some? then Err(AUDIT_DENIED)
    else Ok(AuditSummary(name, audit.status, audit.company, audit.departments, audit.categories, audit.storageLocations,
                         |audit.tasks|, |audit.lines|))
  }

  /**
   * The departments a creation payload asks for: `dept.get("department")`
   * of every entry of its "departments" (none when absent).  An entry that
   * is not an object has no `get`; a value that cannot be iterated fails;
   * iterating a non-empty text or object yields text entries, which fail.
   */
  function RequestedDepartments(fields: seq<(string, Json)>): (r: Result<seq<Json>>)
    ensures Lookup(fields, "departments").None? ==> r == Ok([])
    ensures r.Ok? && Lookup(fields, "departments").Some? && Lookup(fields, "departments").value.JArr? ==>
      var items := Lookup(fields, "departments").value.items;
      |r.value| == |items|
      && forall i :: 0 <= i < |items| ==>
           items[i].JObj? && r.value[i] == (match Lookup(items[i].fields, "department") case None => JNull case Some(v) => v)
  {
    match Lookup(fields, "departments")
    case None => Ok([])
    case Some(v) =>
      match v
      case JArr(items) => EntriesDepartments(items)
      case JStr(s) => if s == "" then Ok([]) else Err(NO_GET)
      case JObj(f) => if f == [] then Ok([]) else Err(NO_GET)
      case _ => Err(NOT_ITERABLE)
  }

  function EntriesDepartments(items: seq<Json>): (r: Result<seq<Json>>)
    ensures r.Ok? <==> forall i :: 0 <= i < |items| ==> items[i].JObj?
    ensures r.Ok? ==> |r.value| == |items| && forall i :: 0 <= i < |items| ==>
      r.value[i] == (match Lookup(items[i].fields, "department") case None => JNull case Some(v) => v)
  {
    if items == [] then Ok([])
    else if !items[0].JObj? then Err(NO_GET)
    else
      var d := match Lookup(items[0].fields, "department") case None => JNull case Some(v) => v;
      match EntriesDepartments(items[1..])
      case Err(e) => Err(e)
      case Ok(rest) => Ok([d] + rest)
  }

  /** ALL requested departments are accessible: each is a department name the caller may read. */
  predicate AllAccessible(requested: seq<Json>, accessible: seq<string>)
  {
    forall i :: 0 <= i < |requested| ==> requested[i].JStr? && requested[i].s in accessible
  }

  /** What `create_audit` reports. */
  datatype Created = Created(name: string, auditName: string, status: string)

  /**
   * `create_audit`: a text payload is decoded (`payload` is the decoded
   * value, None when it is not JSON), it must be an object, every
   * requested department must be accessible, and then the document is
   * inserted; `inserted` is the insert's outcome.
   */
  function CreateAudit(c: Caller, payload: Option<Json>, inserted: Result<Created>): (r: Result<Created>)
    ensures payload.None? ==> r == Err(DECODE_ERROR)
    ensures payload.Some? && !payload.value.JObj? ==> r == Err(INVALID_PAYLOAD)
    ensures r.Ok? ==> r == inserted && payload.Some? && payload.value.JObj?
    ensures r.Ok? && !c.bypassesGates ==>
      RequestedDepartments(payload.value.fields).Ok?
      && AllAccessible(RequestedDepartments(payload.value.fields).value, AccessibleNames(c))
    ensures payload.Some? && payload.value.JObj? && !c.bypassesGates && RequestedDepartments(payload.value.fields).Ok? ==>
      (!AllAccessible(RequestedDepartments(payload.value.fields).value, AccessibleNames(c)) ==> r == Err(CREATE_DENIED))
    ensures payload.Some? && payload.value.JObj? && !c.bypassesGates && RequestedDepartments(payload.value.fields).Err? ==>
      r == Err(RequestedDepartments(payload.value.fields).error)
    ensures payload.Some? && payload.value.JObj? && c.bypassesGates ==> r == inserted
    ensures payload.Some? && payload.value.JObj? && RequestedDepartments(payload.value.fields).Ok? ==>
      (AllAccessible(RequestedDepartments(payload.value.fields).value, AccessibleNames(c)) ==> r == inserted)
  {
    if payload.None? then Err(DECODE_ERROR)
    else if !payload.value.JObj? then Err(INVALID_PAYLOAD)
    else if c.bypassesGates then inserted
    else
      match RequestedDepartments(payload.value.fields)
      case Err(e) => Err(e)
      case Ok(requested) => if !AllAccessible(requested, AccessibleNames(c)) then Err(CREATE_DENIED) else inserted
  }

  /** Creating needs every requested department; reading or acting on the audit needs only one of them. */
  lemma CreateNeedsAllReadNeedsAny(c: Caller, requested: seq<string>, audit: InventoryAudit.Audit)
    requires requested != [] && audit.departments == requested
    requires AllAccessible(seq(|requested|, i requires 0 <= i < |requested| => JStr(requested[i])), AccessibleNames(c))
    ensures AuditGate(c, audit.departments, AUDIT_DENIED).None?
  {
    var js := seq(|requested|, i requires 0 <= i < |requested| => JStr(requested[i]));
    assert js[0].s == requested[0];
    assert requested[0] in requested;
  }

  /** What `update_audit_status` reports. */
  datatype StatusReply = StatusReply(name: string, status: string, actionPerformed: string)

  /**
   * `update_audit_status`: the name and a known action are required, the
   * document is fetched (null when missing) and ANY-department gated, and
   * the action is dispatched to the audit's own method; an action that
   * raises stores nothing.  `user` is the closing user, defaulting to the
   * session user; the closing adjustments are returned with the reply.
   */
  method UpdateAuditStatus(c: Caller, name: string, action: string, user: string, audit: InventoryAudit.Audit?,
                           products: map<string, ProductDoc.UnitFields>, storageDept: map<string, string>,
                           current: map<(string, string), real>, now: int)
    returns (r: Result<StatusReply>, adjustments: InventoryAudit.Totals)
    modifies audit
    ensures name == "" ==> r == Err(AUDIT_REQUIRED)
    ensures name != "" && action !in ACTIONS ==> r == Err(INVALID_ACTION)
    ensures name != "" && action in ACTIONS && audit == null ==> r == Err(NotFound("Inventory Audit", name))
    ensures name != "" && action in ACTIONS && audit != null && AuditGate(c, old(audit.departments), MODIFY_DENIED).Some? ==>
      r == Err(MODIFY_DENIED)
    ensures r.Ok? ==>
      && audit != null && action in ACTIONS && r.value == StatusReply(name, audit.status, action)
      && (c.bypassesGates || AnyAccessible(old(audit.departments), AccessibleNames(c)))
    ensures r.Ok? && action == "mark_in_progress" ==>
      audit.status == (if old(audit.status) in {"Setup", "Ready"} then "In Progress" else old(audit.status))
    ensures r.Ok? && action == "mark_review" ==>
      audit.status == (if old(audit.status) in {"Ready", "In Progress"} then "Review" else old(audit.status))
    ensures r.Ok? && action == "create_tasks" ==>
      InventoryAudit.StorageMap(old(audit.storageLocations), storageDept).Ok? &&
      var built := InventoryAudit.StorageMap(old(audit.storageLocations), storageDept).value;
      audit.tasks == InventoryAudit.TaskPlan(old(audit.departments), built.0, built.1,
                                             InventoryAudit.Slots(InventoryAudit.DistinctCategories(old(audit.categories))))
      && audit.status == (if old(audit.status) == "Setup" then "Ready" else old(audit.status))
    ensures r.Ok? && action == "close" ==>
      audit.status == "Closed" && audit.closedBy == (if user != "" then user else c.user) && audit.closedAt == now
    ensures r.Ok? && action == "close" ==>
      var t := InventoryAudit.CloseAll(old(audit.lines), ProductDoc.PrimaryConverter(products), storageDept);
      t.Ok? && InventoryAudit.Adjustments(t.value.totals, current).Ok? &&
      adjustments == InventoryAudit.Adjustments(t.value.totals, current).value &&
      audit.lines == t.value.lines && audit.totalValue == t.value.value &&
      audit.totalProductsCounted == |t.value.products|
    ensures r.Err? && audit != null ==> audit.status == old(audit.status) && audit.tasks == old(audit.tasks)
    ensures r.Err? && audit != null ==>
      audit.lines == old(audit.lines) && audit.totalValue == old(audit.totalValue)
      && audit.totalProductsCounted == old(audit.totalProductsCounted)
  {
    adjustments := [];
    if name == "" {
      return Err(AUDIT_REQUIRED), [];
    }
    if action !in ACTIONS {
      return Err(INVALID_ACTION), [];
    }
    if audit == null {
      return Err(NotFound("Inventory Audit", name)), [];
    }
    if AuditGate(c, audit.departments, MODIFY_DENIED).Some? {
      return Err(MODIFY_DENIED), [];
    }
    var err;
    err, adjustments := Perform(audit, action, products, storageDept, current, user, c.user, now);
    if err.Some? {
      return Err(err.value), [];
    }
    r := Ok(StatusReply(name, audit.status, action));
  }

  /** The dispatch of `update_audit_status` to the audit's own method for a known action. */
  method Perform(audit: InventoryAudit.Audit, action: string, products: map<string, ProductDoc.UnitFields>,
                 storageDept: map<string, string>, current: map<(string, string), real>, user: string, sessionUser: string,
                 now: int)
    returns (err: Option<string>, adjustments: InventoryAudit.Totals)
    requires action in ACTIONS
    modifies audit
    ensures action == "mark_in_progress" ==>
      err.None? && audit.status == (if old(audit.status) in {"Setup", "Ready"} then "In Progress" else old(audit.status))
    ensures action == "mark_review" ==>
      err.None? && audit.status == (if old(audit.status) in {"Ready", "In Progress"} then "Review" else old(audit.status))
    ensures err.None? && action == "create_tasks" ==>
      InventoryAudit.StorageMap(old(audit.storageLocations), storageDept).Ok? &&
      var built := InventoryAudit.StorageMap(old(audit.storageLocations), storageDept).value;
      audit.tasks == InventoryAudit.TaskPlan(old(audit.departments), built.0, built.1,
                                             InventoryAudit.Slots(InventoryAudit.DistinctCategories(old(audit.categories))))
      && audit.status == (if old(audit.status) == "Setup" then "Ready" else old(audit.status))
    ensures err.None? && action == "close" ==>
      audit.status == "Closed" && audit.closedBy == (if user != "" then user else sessionUser) && audit.closedAt == now
    ensures err.None? && action == "close" ==>
      var t := InventoryAudit.CloseAll(old(audit.lines), ProductDoc.PrimaryConverter(products), storageDept);
      t.Ok? && InventoryAudit.Adjustments(t.value.totals, current).Ok? &&
      adjustments == InventoryAudit.Adjustments(t.value.totals, current).value &&
      audit.lines == t.value.lines && audit.totalValue == t.value.value &&
      audit.totalProductsCounted == |t.value.products|
    ensures err.Some? ==>
      audit.status == old(audit.status) && audit.tasks == old(audit.tasks) && audit.lines == old(audit.lines)
      && audit.totalValue == old(audit.totalValue) && audit.totalProductsCounted == old(audit.totalProductsCounted)
  {
    adjustments := [];
    err := None;
    if action == "create_tasks" {
      err := audit.CreateCountingTasks(storageDept);
    } else if action == "mark_in_progress" {
      audit.MarkInProgress();
    } else if action == "mark_review" {
      audit.MarkReview();
    } else {
      err, adjustments := audit.CloseAudit(products, storageDept, current, user, sessionUser, now);
    }
  }
}
