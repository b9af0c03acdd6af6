/**
 * The constant permission registry: eleven category lists of permission
 * definitions, their concatenation, the code-to-definition map and the
 * lookups over them (blkshp_os/permissions/constants.py).
 */
module PermissionRegistry {
  import opened Common

  /** One registry entry (the `PermissionDefinition` record). */
  datatype Definition = Definition(
    code: string,
    name: string,
    description: string,
    category: string,
    departmentRestricted: bool)

  const ORDERS: seq<Definition> := [
    Definition("orders.view", "View Orders", "View purchase orders", "Orders", true),
    Definition("orders.create", "Create Orders", "Create new purchase orders", "Orders", true),
    Definition("orders.edit", "Edit Orders", "Edit draft purchase orders", "Orders", true),
    Definition("orders.delete", "Delete Orders", "Delete draft purchase orders", "Orders", true),
    Definition("orders.place", "Place Orders", "Submit orders to vendors", "Orders", true),
    Definition("orders.edit_placed", "Edit Placed Orders", "Edit orders after they've been placed", "Orders", true),
    Definition("orders.receive", "Receive Orders", "Mark orders as received", "Orders", true),
    Definition("orders.mark_received", "Mark Order Received", "Mark entire order as received", "Orders", true),
    Definition("orders.cancel", "Cancel Orders", "Cancel placed orders", "Orders", true),
    Definition("orders.view_cost", "View Order Costs", "View cost information on orders", "Orders", true),
    Definition("orders.export", "Export Orders", "Export order data", "Orders", true)
  ]

  const INVOICES: seq<Definition> := [
    Definition("invoices.view", "View Invoices", "View vendor invoices", "Invoices", true),
    Definition("invoices.create", "Create Invoices", "Create new invoices", "Invoices", true),
    Definition("invoices.edit", "Edit Invoices", "Edit draft invoices", "Invoices", true),
    Definition("invoices.delete", "Delete Invoices", "Delete draft invoices", "Invoices", true),
    Definition("invoices.process", "Process Invoices", "Process and reconcile invoices", "Invoices", true),
    Definition("invoices.approve", "Approve Invoices", "Approve invoices for payment", "Invoices", true),
    Definition("invoices.reject", "Reject Invoices", "Reject invoices", "Invoices", true),
    Definition("invoices.mark_paid", "Mark Invoice Paid", "Mark invoices as paid", "Invoices", true),
    Definition("invoices.view_cost", "View Invoice Costs", "View cost information on invoices", "Invoices", true),
    Definition("invoices.ocr_upload", "Upload Invoice OCR", "Upload invoices for OCR processing", "Invoices", true),
    Definition("invoices.ocr_review", "Review OCR Results", "Review and correct OCR results", "Invoices", true),
    Definition("invoices.export", "Export Invoices", "Export invoice data", "Invoices", true),
    Definition("invoices.accounting_export", "Export to Accounting", "Export invoices to accounting system", "Invoices", false)
  ]

  const AUDITS: seq<Definition> := [
    Definition("audits.view", "View Audits", "View inventory audits", "Audits", true),
    Definition("audits.open", "Open Audit", "Open new inventory audit", "Audits", true),
    Definition("audits.do", "Do Audit", "Perform inventory counts", "Audits", true),
    Definition("audits.close", "Close Audit", "Close and finalize audits", "Audits", true),
    Definition("audits.delete", "Delete Audit", "Delete audits", "Audits", true),
    Definition("audits.view_historic", "View Historic Audits", "View past audits", "Audits", true),
    Definition("audits.update_price", "Update Item Audit Price", "Update item count unit price during audit", "Audits", true),
    Definition("audits.export", "Export Audits", "Export audit data", "Audits", true)
  ]

  const ITEMS: seq<Definition> := [
    Definition("items.view", "View Items", "View product/item list", "Items", true),
    Definition("items.create", "Create Items", "Create new items", "Items", true),
    Definition("items.edit", "Edit Items", "Edit item details", "Items", true),
    Definition("items.delete", "Delete Items", "Delete items", "Items", true),
    Definition("items.import", "Import Items", "Bulk import items", "Items", true),
    Definition("items.export", "Export Items", "Export item data", "Items", true),
    Definition("items.manage_categories", "Manage Item Categories", "Create and manage item categories", "Items", false)
  ]

  const VENDORS: seq<Definition> := [
    Definition("vendors.view", "View Vendors", "View vendor list", "Vendors", false),
    Definition("vendors.create", "Create Vendors", "Create new vendors", "Vendors", false),
    Definition("vendors.edit", "Edit Vendors", "Edit vendor details", "Vendors", false),
    Definition("vendors.delete", "Delete Vendors", "Delete vendors", "Vendors", false),
    Definition("vendors.import", "Import Vendors", "Bulk import vendors", "Vendors", false),
    Definition("vendors.export", "Export Vendors", "Export vendor data", "Vendors", false)
  ]

  const RECIPES: seq<Definition> := [
    Definition("recipes.view", "View Recipes", "View recipes", "Recipes", true),
    Definition("recipes.create", "Create Recipes", "Create new recipes", "Recipes", true),
    Definition("recipes.edit", "Edit Recipes", "Edit recipes", "Recipes", true),
    Definition("recipes.delete", "Delete Recipes", "Delete recipes", "Recipes", true)
  ]

  const TRANSFERS: seq<Definition> := [
    Definition("transfers.view", "View Transfers", "View inventory transfers", "Transfers", true),
    Definition("transfers.create", "Create Transfers", "Create inventory transfers", "Transfers", true),
    Definition("transfers.approve", "Approve Transfers", "Approve transfer requests", "Transfers", true),
    Definition("transfers.cancel", "Cancel Transfers", "Cancel transfers", "Transfers", true)
  ]

  const DEPLETIONS: seq<Definition> := [
    Definition("depletions.view", "View Depletions", "View manual depletions", "Depletions", true),
    Definition("depletions.create", "Create Depletions", "Create manual depletions", "Depletions", true),
    Definition("depletions.edit", "Edit Depletions", "Edit depletions", "Depletions", true),
    Definition("depletions.delete", "Delete Depletions", "Delete depletions", "Depletions", true)
  ]

  const REPORTS: seq<Definition> := [
    Definition("reports.view", "View Reports", "View standard reports", "Reports", true),
    Definition("reports.export", "Export Reports", "Export report data", "Reports", true),
    Definition("reports.custom", "Create Custom Reports", "Create custom reports", "Reports", false),
    Definition("reports.dashboard", "View Dashboard", "View analytics dashboard", "Reports", true)
  ]

  const SYSTEM: seq<Definition> := [
    Definition("system.settings", "Store Settings", "Manage store settings", "System", false),
    Definition("system.users", "Manage Users", "Create and manage users", "System", false),
    Definition("system.roles", "Manage Roles", "Create and manage roles", "System", false),
    Definition("system.team_accounts", "Manage Team Accounts", "Manage shared team accounts", "System", false),
    Definition("system.integrations", "Manage Integrations", "Configure system integrations", "System", false)
  ]

  const DIRECTOR: seq<Definition> := [
    Definition("director.view_all_stores", "View All Stores", "View data across all stores", "Director", false),
    Definition("director.manage_stores", "Manage Stores", "Add and manage stores", "Director", false),
    Definition("director.corporate_vendors", "Manage Corporate Vendors", "Manage corporate-level vendors", "Director", false),
    Definition("director.corporate_products", "Manage Corporate Products", "Manage corporate-level products", "Director", false),
    Definition("director.corporate_recipes", "Manage Corporate Recipes", "Manage corporate-level recipes", "Director", false),
    Definition("director.store_sync", "Store Sync Operations", "Sync data across stores", "Director", false),
    Definition("director.reports", "Director Reports", "Access director-level reports", "Director", false),
    Definition("director.manage_permissions", "Manage Director Permissions", "Manage other directors' permissions", "Director", false)
  ]

  /** Every permission, the category lists in declaration order. */
  const ALL: seq<Definition> :=
    ORDERS + INVOICES + AUDITS + ITEMS + VENDORS + RECIPES + TRANSFERS +
    DEPLETIONS + REPORTS + SYSTEM + DIRECTOR

  const CATEGORIES: seq<string> :=
    ["Orders", "Invoices", "Audits", "Items", "Vendors", "Recipes",
     "Transfers", "Depletions", "Reports", "System", "Director"]

  /** The code prefix shared by every permission of CATEGORIES[k]. */
  const CODE_PREFIXES: seq<string> :=
    ["orders.", "invoices.", "audits.", "items.", "vendors.", "recipes.",
     "transfers.", "depletions.", "reports.", "system.", "director."]

  // ---------------------------------------------------------------------
  // Lookups
  // ---------------------------------------------------------------------

  /** The dict comprehension `{perm["code"]: perm for perm in defs}`: a later entry replaces an earlier one. */
  function MapOf(defs: seq<Definition>): (m: map<string, Definition>)
    ensures forall c | c in m :: m[c].code == c
  {
    if defs == [] then map[]
    else MapOf(defs[..|defs| - 1])[defs[|defs| - 1].code := defs[|defs| - 1]]
  }

  /** `get_permission` over a registry: the definition with that code, or None. */
  function Lookup(defs: seq<Definition>, code: string): (r: Option<Definition>)
    ensures r.Some? ==> r.value.code == code
  {
    var m := MapOf(defs);
    if code in m then Some(m[code]) else None
  }

  /** `is_valid_permission` over a registry: the code is a key of its map. */
  predicate Known(defs: seq<Definition>, code: string)
  {
    code in MapOf(defs)
  }

  /** The entries of `defs` whose category is `category`, in order. */
  function Filter(defs: seq<Definition>, category: string): (r: seq<Definition>)
    ensures |r| <= |defs|
  {
    if defs == [] then []
    else if defs[|defs| - 1].category == category then Filter(defs[..|defs| - 1], category) + [defs[|defs| - 1]]
    else Filter(defs[..|defs| - 1], category)
  }

  /** The codes of `defs`, in order. */
  function CodesOf(defs: seq<Definition>): (r: seq<string>)
    ensures |r| == |defs|
    ensures forall i | 0 <= i < |defs| :: r[i] == defs[i].code
  {
    seq(|defs|, i requires 0 <= i < |defs| => defs[i].code)
  }

  /** `PERMISSION_MAP`. */
  function PermissionMap(): map<string, Definition>
  {
    MapOf(ALL)
  }

  /** `get_permission`. */
  function GetPermission(code: string): Option<Definition>
  {
    Lookup(ALL, code)
  }

  /** `is_valid_permission`. */
  predicate IsValid(code: string)
  {
    Known(ALL, code)
  }

  /** `get_permissions_by_category`. */
  function ByCategory(category: string): seq<Definition>
  {
    Filter(ALL, category)
  }

  /** `get_all_permission_codes`. */
  function AllCodes(): seq<string>
  {
    CodesOf(ALL)
  }

  // ---------------------------------------------------------------------
  // Lookups over any registry
  // ---------------------------------------------------------------------

  /** A code is a key of the map exactly when some entry carries it. */
  lemma {:induction false} MapOfKeys(defs: seq<Definition>, code: string)
    ensures code in MapOf(defs) <==> exists i | 0 <= i < |defs| :: defs[i].code == code
    decreases |defs|
  {
    if defs != [] {
      var n := |defs| - 1;
      MapOfKeys(defs[..n], code);
      if code in MapOf(defs[..n]) {
        var i :| 0 <= i < n && defs[..n][i].code == code;
        assert defs[i].code == code;
      }
      if i :| 0 <= i < |defs| && defs[i].code == code {
        if i < n {
          assert defs[..n][i].code == code;
        }
      }
    }
  }

  /** With distinct codes, every entry is the map's value for its code. */
  lemma {:induction false} MapOfAt(defs: seq<Definition>, i: nat)
    requires CodesDistinct(defs) && i < |defs|
    ensures defs[i].code in MapOf(defs) && MapOf(defs)[defs[i].code] == defs[i]
    decreases |defs|
  {
    var n := |defs| - 1;
    if i < n {
      assert CodesDistinct(defs[..n]);
      MapOfAt(defs[..n], i);
      assert defs[..n][i] == defs[i];
    }
  }

  /** With distinct codes, the map has exactly one key per entry. */
  lemma {:induction false} MapOfSize(defs: seq<Definition>)
    requires CodesDistinct(defs)
    ensures |MapOf(defs)| == |defs|
    decreases |defs|
  {
    if defs != [] {
      var n := |defs| - 1;
      assert CodesDistinct(defs[..n]);
      MapOfSize(defs[..n]);
      MapOfKeys(defs[..n], defs[n].code);
    }
  }

  /** With distinct codes, `Lookup` finds exactly the entry carrying the code. */
  lemma LookupMeans(defs: seq<Definition>, code: string, d: Definition)
    requires CodesDistinct(defs)
    ensures Lookup(defs, code) == Some(d) <==> d in defs && d.code == code
  {
    if d in defs && d.code == code {
      var i :| 0 <= i < |defs| && defs[i] == d;
      MapOfAt(defs, i);
    }
    if Lookup(defs, code) == Some(d) {
      MapOfKeys(defs, code);
      var i :| 0 <= i < |defs| && defs[i].code == code;
      MapOfAt(defs, i);
    }
  }

  /** A code is known exactly when some entry carries it. */
  lemma KnownMeans(defs: seq<Definition>, code: string)
    ensures Known(defs, code) <==> code in CodesOf(defs)
  {
    MapOfKeys(defs, code);
    if code in CodesOf(defs) {
      var i :| 0 <= i < |defs| && CodesOf(defs)[i] == code;
    }
  }

  /** Filtering a concatenation filters each part. */
  lemma {:induction false} FilterAppend(a: seq<Definition>, b: seq<Definition>, category: string)
    ensures Filter(a + b, category) == Filter(a, category) + Filter(b, category)
    decreases |b|
  {
    if b != [] {
      var n := |b| - 1;
      assert (a + b)[..|a + b| - 1] == a + b[..n];
      FilterAppend(a, b[..n], category);
    } else {
      assert a + b == a;
    }
  }

  /** Filtering keeps exactly the entries of that category. */
  lemma {:induction false} FilterMeans(defs: seq<Definition>, category: string, d: Definition)
    ensures d in Filter(defs, category) <==> d in defs && d.category == category
    decreases |defs|
  {
    if defs != [] {
      var n := |defs| - 1;
      FilterMeans(defs[..n], category, d);
      assert defs == defs[..n] + [defs[n]];
    }
  }

  /** Filtering a uniform list keeps all of it or none of it. */
  lemma {:induction false} FilterUniform(defs: seq<Definition>, k: nat, category: string)
    requires k < |CATEGORIES| && Uniform(defs, k)
    ensures Filter(defs, category) == if category == CATEGORIES[k] then defs else []
    decreases |defs|
  {
    if defs != [] {
      var n := |defs| - 1;
      assert Uniform(defs[..n], k);
      FilterUniform(defs[..n], k, category);
      assert defs == defs[..n] + [defs[n]];
    }
  }

  // ---------------------------------------------------------------------
  // Codes are pairwise distinct
  // ---------------------------------------------------------------------

  predicate CodesDistinct(defs: seq<Definition>)
  {
    forall i, j | 0 <= i < j < |defs| :: defs[i].code != defs[j].code
  }

  /** Neither string is a prefix of the other. */
  predicate Apart(p: string, q: string)
  {
    !IsPrefix(p, q) && !IsPrefix(q, p)
  }

  /** Position of `c` in CATEGORIES, or |CATEGORIES| when it is not there. */
  function CategoryIndex(c: string): (r: nat)
    ensures r <= |CATEGORIES|
    ensures r < |CATEGORIES| ==> CATEGORIES[r] == c
    ensures r == |CATEGORIES| <==> c !in CATEGORIES
  {
    IndexIn(CATEGORIES, c)
  }

  function IndexIn(s: seq<string>, c: string): (r: nat)
    ensures r <= |s|
    ensures r < |s| ==> s[r] == c
    ensures r == |s| <==> c !in s
  {
    if s == [] then 0
    else if s[0] == c then 0
    else 1 + IndexIn(s[1..], c)
  }

  /** The code of `d` starts with the prefix of its (known) category. */
  predicate Tagged(d: Definition)
  {
    CategoryIndex(d.category) < |CATEGORIES| && IsPrefix(CODE_PREFIXES[CategoryIndex(d.category)], d.code)
  }

  lemma CategoriesDistinct()
    ensures forall i, j | 0 <= i < j < |CATEGORIES| :: CATEGORIES[i] != CATEGORIES[j]
  {
  }

  /** Two strings that differ in one of their first three characters are apart. */
  lemma {:induction false} EarlyDifferenceApart(p: string, q: string, k: nat)
    requires k < 3 <= |p| && 3 <= |q| && p[k] != q[k]
    ensures Apart(p, q)
  {
  }

  lemma PrefixesApart()
    ensures forall i, j | 0 <= i < j < |CODE_PREFIXES| :: Apart(CODE_PREFIXES[i], CODE_PREFIXES[j])
  {
    forall i, j | 0 <= i < j < |CODE_PREFIXES|
      ensures Apart(CODE_PREFIXES[i], CODE_PREFIXES[j])
    {
      var p, q := CODE_PREFIXES[i], CODE_PREFIXES[j];
      var k: nat := if p[0] != q[0] then 0 else if p[1] != q[1] then 1 else 2;
      EarlyDifferenceApart(p, q, k);
    }
  }

  /** Every entry of `defs` belongs to CATEGORIES[k] and carries its code prefix. */
  predicate Uniform(defs: seq<Definition>, k: nat)
    requires k < |CATEGORIES|
  {
    forall i | 0 <= i < |defs| :: defs[i].category == CATEGORIES[k] && IsPrefix(CODE_PREFIXES[k], defs[i].code)
  }

  /** The entries of `defs` at positions in [lo, hi) belong to CATEGORIES[k] and carry its code prefix. */
  predicate UniformRows(defs: seq<Definition>, k: nat, lo: nat, hi: nat)
    requires k < |CATEGORIES|
  {
    forall i | lo <= i < hi && i < |defs| :: defs[i].category == CATEGORIES[k] && IsPrefix(CODE_PREFIXES[k], defs[i].code)
  }

  /** Each category list is uniform and free of repeated codes. */
  predicate ListWellFormed(defs: seq<Definition>, k: nat)
    requires k < |CATEGORIES|
  {
    Uniform(defs, k) && CodesDistinct(defs)
  }

  /** No code of `defs` at a position in [lo, hi) reappears later in `defs`. */
  predicate RowsDistinct(defs: seq<Definition>, lo: nat, hi: nat)
  {
    forall i, j | lo <= i < hi && i < j < |defs| :: defs[i].code != defs[j].code
  }

  lemma OrdersRowsDistinct0()
    ensures RowsDistinct(ORDERS, 0, 2)
  {
  }

  lemma OrdersRowsDistinct2()
    ensures RowsDistinct(ORDERS, 2, 5)
  {
  }

  lemma OrdersRowsDistinct5()
    ensures RowsDistinct(ORDERS, 5, 11)
  {
  }

  lemma OrdersWellFormed()
    ensures ListWellFormed(ORDERS, 0)
  {
    OrdersRowsDistinct0();
    OrdersRowsDistinct2();
    OrdersRowsDistinct5();
    OrdersUniform();
  }

  lemma OrdersUniform()
    ensures Uniform(ORDERS, 0)
  {
  }

  lemma InvoicesRowsDistinct0()
    ensures RowsDistinct(INVOICES, 0, 2)
  {
  }

  lemma InvoicesRowsDistinct2()
    ensures RowsDistinct(INVOICES, 2, 4)
  {
  }

  lemma InvoicesRowsDistinct4()
    ensures RowsDistinct(INVOICES, 4, 7)
  {
  }

  lemma InvoicesRowsDistinct7()
    ensures RowsDistinct(INVOICES, 7, 13)
  {
  }

  lemma InvoicesWellFormed()
    ensures ListWellFormed(INVOICES, 1)
  {
    InvoicesRowsDistinct0();
    InvoicesRowsDistinct2();
    InvoicesRowsDistinct4();
    InvoicesRowsDistinct7();
    InvoicesUniform();
  }

  lemma InvoicesUniform()
    ensures Uniform(INVOICES, 1)
  {
    InvoicesUniform0();
    InvoicesUniform3();
    InvoicesUniform6();
    InvoicesUniform9();
    InvoicesUniform12();
  }

  lemma InvoicesUniform0()
    ensures UniformRows(INVOICES, 1, 0, 3)
  {
  }

  lemma InvoicesUniform3()
    ensures UniformRows(INVOICES, 1, 3, 6)
  {
  }

  lemma InvoicesUniform6()
    ensures UniformRows(INVOICES, 1, 6, 9)
  {
  }

  lemma InvoicesUniform9()
    ensures UniformRows(INVOICES, 1, 9, 12)
  {
  }

  lemma InvoicesUniform12()
    ensures UniformRows(INVOICES, 1, 12, 13)
  {
  }

  lemma AuditsRowsDistinct0()
    ensures RowsDistinct(AUDITS, 0, 4)
  {
  }

  lemma AuditsRowsDistinct4()
    ensures RowsDistinct(AUDITS, 4, 8)
  {
  }

  lemma AuditsWellFormed()
    ensures ListWellFormed(AUDITS, 2)
  {
    AuditsRowsDistinct0();
    AuditsRowsDistinct4();
    AuditsUniform();
  }

  lemma AuditsUniform()
    ensures Uniform(AUDITS, 2)
  {
  }

  lemma ItemsRowsDistinct0()
    ensures RowsDistinct(ITEMS, 0, 7)
  {
  }

  lemma ItemsWellFormed()
    ensures ListWellFormed(ITEMS, 3)
  {
    ItemsRowsDistinct0();
    ItemsUniform();
  }

  lemma ItemsUniform()
    ensures Uniform(ITEMS, 3)
  {
  }

  lemma VendorsRowsDistinct0()
    ensures RowsDistinct(VENDORS, 0, 6)
  {
  }

  lemma VendorsWellFormed()
    ensures ListWellFormed(VENDORS, 4)
  {
    VendorsRowsDistinct0();
    VendorsUniform();
  }

  lemma VendorsUniform()
    ensures Uniform(VENDORS, 4)
  {
  }

  lemma RecipesRowsDistinct0()
    ensures RowsDistinct(RECIPES, 0, 4)
  {
  }

  lemma RecipesWellFormed()
    ensures ListWellFormed(RECIPES, 5)
  {
    RecipesRowsDistinct0();
    RecipesUniform();
  }

  lemma RecipesUniform()
    ensures Uniform(RECIPES, 5)
  {
  }

  lemma TransfersRowsDistinct0()
    ensures RowsDistinct(TRANSFERS, 0, 4)
  {
  }

  lemma TransfersWellFormed()
    ensures ListWellFormed(TRANSFERS, 6)
  {
    TransfersRowsDistinct0();
    TransfersUniform();
  }

  lemma TransfersUniform()
    ensures Uniform(TRANSFERS, 6)
  {
  }

  lemma DepletionsRowsDistinct0()
    ensures RowsDistinct(DEPLETIONS, 0, 4)
  {
  }

  lemma DepletionsWellFormed()
    ensures ListWellFormed(DEPLETIONS, 7)
  {
    DepletionsRowsDistinct0();
    DepletionsUniform();
  }

  lemma DepletionsUniform()
    ensures Uniform(DEPLETIONS, 7)
  {
  }

  lemma ReportsRowsDistinct0()
    ensures RowsDistinct(REPORTS, 0, 4)
  {
  }

  lemma ReportsWellFormed()
    ensures ListWellFormed(REPORTS, 8)
  {
    ReportsRowsDistinct0();
    ReportsUniform();
  }

  lemma ReportsUniform()
    ensures Uniform(REPORTS, 8)
  {
  }

  lemma SystemRowsDistinct0()
    ensures RowsDistinct(SYSTEM, 0, 5)
  {
  }

  lemma SystemWellFormed()
    ensures ListWellFormed(SYSTEM, 9)
  {
    SystemRowsDistinct0();
    SystemUniform();
  }

  lemma SystemUniform()
    ensures Uniform(SYSTEM, 9)
  {
  }

  lemma DirectorRowsDistinct0()
    ensures RowsDistinct(DIRECTOR, 0, 4)
  {
  }

  lemma DirectorRowsDistinct4()
    ensures RowsDistinct(DIRECTOR, 4, 8)
  {
  }

  lemma DirectorWellFormed()
    ensures ListWellFormed(DIRECTOR, 10)
  {
    DirectorRowsDistinct0();
    DirectorRowsDistinct4();
    DirectorUniform();
  }

  lemma DirectorUniform()
    ensures Uniform(DIRECTOR, 10)
  {
    DirectorUniform0();
    DirectorUniform2();
    DirectorUniform4();
    DirectorUniform6();
  }

  lemma DirectorUniform0()
    ensures UniformRows(DIRECTOR, 10, 0, 2)
  {
  }

  lemma DirectorUniform2()
    ensures UniformRows(DIRECTOR, 10, 2, 4)
  {
  }

  lemma DirectorUniform4()
    ensures UniformRows(DIRECTOR, 10, 4, 6)
  {
  }

  lemma DirectorUniform6()
    ensures UniformRows(DIRECTOR, 10, 6, 8)
  {
  }

  /** The category index of a category name is its position. */
  lemma CategoryIndexOf(k: nat)
    requires k < |CATEGORIES|
    ensures CategoryIndex(CATEGORIES[k]) == k
  {
    CategoriesDistinct();
  }

  /** Codes starting with two apart prefixes differ. */
  lemma ApartCodes(x: string, y: string, p: string, q: string)
    requires IsPrefix(p, x) && IsPrefix(q, y) && Apart(p, q)
    ensures x != y
  {
  }

  /** Appending a uniform list of a later category keeps codes distinct. */
  lemma {:induction false} DistinctAppend(acc: seq<Definition>, l: seq<Definition>, k: nat)
    requires k < |CATEGORIES|
    requires CodesDistinct(acc) && ListWellFormed(l, k)
    requires forall d | d in acc :: Tagged(d) && CategoryIndex(d.category) < k
    ensures CodesDistinct(acc + l)
    ensures forall d | d in acc + l :: Tagged(d) && CategoryIndex(d.category) <= k
  {
    CategoryIndexOf(k);
    PrefixesApart();
    forall i, j | 0 <= i < j < |acc + l|
      ensures (acc + l)[i].code != (acc + l)[j].code
    {
      if i < |acc| <= j {
        var x, y := acc[i], l[j - |acc|];
        var m := CategoryIndex(x.category);
        assert x in acc;
        ApartCodes(x.code, y.code, CODE_PREFIXES[m], CODE_PREFIXES[k]);
      }
    }
  }

  /** Registry codes are pairwise distinct, and every code carries its category's prefix. */
  lemma RegistryCodesDistinct()
    ensures CodesDistinct(ALL)
    ensures forall d | d in ALL :: Tagged(d)
  {
    OrdersWellFormed();
    CategoryIndexOf(0);
    var acc := ORDERS;
    InvoicesWellFormed();
    DistinctAppend(acc, INVOICES, 1);
    acc := acc + INVOICES;
    AuditsWellFormed();
    DistinctAppend(acc, AUDITS, 2);
    acc := acc + AUDITS;
    ItemsWellFormed();
    DistinctAppend(acc, ITEMS, 3);
    acc := acc + ITEMS;
    VendorsWellFormed();
    DistinctAppend(acc, VENDORS, 4);
    acc := acc + VENDORS;
    RecipesWellFormed();
    DistinctAppend(acc, RECIPES, 5);
    acc := acc + RECIPES;
    TransfersWellFormed();
    DistinctAppend(acc, TRANSFERS, 6);
    acc := acc + TRANSFERS;
    DepletionsWellFormed();
    DistinctAppend(acc, DEPLETIONS, 7);
    acc := acc + DEPLETIONS;
    ReportsWellFormed();
    DistinctAppend(acc, REPORTS, 8);
    acc := acc + REPORTS;
    SystemWellFormed();
    DistinctAppend(acc, SYSTEM, 9);
    acc := acc + SYSTEM;
    DirectorWellFormed();
    DistinctAppend(acc, DIRECTOR, 10);
    acc := acc + DIRECTOR;
    assert acc == ALL;
  }

  // ---------------------------------------------------------------------
  // Properties of the registry
  // ---------------------------------------------------------------------

  /** `get_permission(code)` is the registry entry with that code, or None when there is none. */
  lemma GetPermissionMeans(code: string, d: Definition)
    ensures GetPermission(code) == Some(d) <==> d in ALL && d.code == code
  {
    RegistryCodesDistinct();
    LookupMeans(ALL, code, d);
  }

  /** `is_valid_permission(code)` holds exactly for the registry codes. */
  lemma IsValidMeans(code: string)
    ensures IsValid(code) <==> code in AllCodes()
  {
    KnownMeans(ALL, code);
  }

  /** The map has exactly one entry per registry element: 74 of them. */
  lemma PermissionMapSize()
    ensures |PermissionMap()| == |ALL| == 74
  {
    RegistryCodesDistinct();
    MapOfSize(ALL);
  }

  /** `get_all_permission_codes` lists every code once, in registry order. */
  lemma AllCodesDistinct()
    ensures |AllCodes()| == |ALL|
    ensures forall i | 0 <= i < |ALL| :: AllCodes()[i] == ALL[i].code
    ensures forall i, j | 0 <= i < j < |ALL| :: AllCodes()[i] != AllCodes()[j]
  {
    RegistryCodesDistinct();
  }

  /** Every definition's category is one of CATEGORIES. */
  lemma CategoriesKnown()
    ensures forall d | d in ALL :: d.category in CATEGORIES
  {
    RegistryCodesDistinct();
  }

  /** `get_permissions_by_category(c)` holds exactly the registry entries of category c. */
  lemma ByCategoryMeans(c: string, d: Definition)
    ensures d in ByCategory(c) <==> d in ALL && d.category == c
  {
    FilterMeans(ALL, c, d);
  }

  /** An unknown category has no permissions. */
  lemma ByCategoryUnknown(c: string)
    requires c !in CATEGORIES
    ensures ByCategory(c) == []
  {
    if ByCategory(c) != [] {
      var d := ByCategory(c)[0];
      FilterMeans(ALL, c, d);
      CategoriesKnown();
      assert false;
    }
  }

  /** The Orders category is exactly the Orders list, in declaration order. */
  lemma ByCategoryOrders()
    ensures ByCategory("Orders") == ORDERS
  {
    ByCategorySplit("Orders");
    OrdersFilter("Orders");
    InvoicesFilter("Orders");
    AuditsFilter("Orders");
    ItemsFilter("Orders");
    VendorsFilter("Orders");
    RecipesFilter("Orders");
    TransfersFilter("Orders");
    DepletionsFilter("Orders");
    ReportsFilter("Orders");
    SystemFilter("Orders");
    DirectorFilter("Orders");
    var c := "Orders";
    AppendEmpties(Filter(ORDERS, c), Filter(INVOICES, c), Filter(AUDITS, c), Filter(ITEMS, c), Filter(VENDORS, c),
                  Filter(RECIPES, c), Filter(TRANSFERS, c), Filter(DEPLETIONS, c), Filter(REPORTS, c), Filter(SYSTEM, c),
                  Filter(DIRECTOR, c));
  }

  /** Appending ten empty lists leaves a list as it is. */
  lemma AppendEmpties(x: seq<Definition>, e1: seq<Definition>, e2: seq<Definition>, e3: seq<Definition>,
                      e4: seq<Definition>, e5: seq<Definition>, e6: seq<Definition>, e7: seq<Definition>,
                      e8: seq<Definition>, e9: seq<Definition>, e10: seq<Definition>)
    requires e1 == e2 == e3 == e4 == e5 == e6 == e7 == e8 == e9 == e10 == []
    ensures x + e1 + e2 + e3 + e4 + e5 + e6 + e7 + e8 + e9 + e10 == x
  {
  }

  lemma ByCategorySplit(c: string)
    ensures ByCategory(c) == Filter(ORDERS, c) + Filter(INVOICES, c) + Filter(AUDITS, c) + Filter(ITEMS, c) + Filter(VENDORS, c) + Filter(RECIPES, c) + Filter(TRANSFERS, c) + Filter(DEPLETIONS, c) + Filter(REPORTS, c) + Filter(SYSTEM, c) + Filter(DIRECTOR, c)
  {
    var acc := ORDERS;
    FilterAppend(acc, INVOICES, c);
    acc := acc + INVOICES;
    FilterAppend(acc, AUDITS, c);
    acc := acc + AUDITS;
    FilterAppend(acc, ITEMS, c);
    acc := acc + ITEMS;
    FilterAppend(acc, VENDORS, c);
    acc := acc + VENDORS;
    FilterAppend(acc, RECIPES, c);
    acc := acc + RECIPES;
    FilterAppend(acc, TRANSFERS, c);
    acc := acc + TRANSFERS;
    FilterAppend(acc, DEPLETIONS, c);
    acc := acc + DEPLETIONS;
    FilterAppend(acc, REPORTS, c);
    acc := acc + REPORTS;
    FilterAppend(acc, SYSTEM, c);
    acc := acc + SYSTEM;
    FilterAppend(acc, DIRECTOR, c);
    acc := acc + DIRECTOR;
    assert acc == ALL;
  }

  lemma OrdersFilter(c: string)
    ensures Filter(ORDERS, c) == if c == "Orders" then ORDERS else []
  {
    OrdersUniform();
    FilterUniform(ORDERS, 0, c);
  }

  lemma InvoicesFilter(c: string)
    ensures Filter(INVOICES, c) == if c == "Invoices" then INVOICES else []
  {
    InvoicesUniform();
    FilterUniform(INVOICES, 1, c);
  }

  lemma AuditsFilter(c: string)
    ensures Filter(AUDITS, c) == if c == "Audits" then AUDITS else []
  {
    AuditsUniform();
    FilterUniform(AUDITS, 2, c);
  }

  lemma ItemsFilter(c: string)
    ensures Filter(ITEMS, c) == if c == "Items" then ITEMS else []
  {
    ItemsUniform();
    FilterUniform(ITEMS, 3, c);
  }

  lemma VendorsFilter(c: string)
    ensures Filter(VENDORS, c) == if c == "Vendors" then VENDORS else []
  {
    VendorsUniform();
    FilterUniform(VENDORS, 4, c);
  }

  lemma RecipesFilter(c: string)
    ensures Filter(RECIPES, c) == if c == "Recipes" then RECIPES else []
  {
    RecipesUniform();
    FilterUniform(RECIPES, 5, c);
  }

  lemma TransfersFilter(c: string)
    ensures Filter(TRANSFERS, c) == if c == "Transfers" then TRANSFERS else []
  {
    TransfersUniform();
    FilterUniform(TRANSFERS, 6, c);
  }

  lemma DepletionsFilter(c: string)
    ensures Filter(DEPLETIONS, c) == if c == "Depletions" then DEPLETIONS else []
  {
    DepletionsUniform();
    FilterUniform(DEPLETIONS, 7, c);
  }

  lemma ReportsFilter(c: string)
    ensures Filter(REPORTS, c) == if c == "Reports" then REPORTS else []
  {
    ReportsUniform();
    FilterUniform(REPORTS, 8, c);
  }

  lemma SystemFilter(c: string)
    ensures Filter(SYSTEM, c) == if c == "System" then SYSTEM else []
  {
    SystemUniform();
    FilterUniform(SYSTEM, 9, c);
  }

  lemma DirectorFilter(c: string)
    ensures Filter(DIRECTOR, c) == if c == "Director" then DIRECTOR else []
  {
    DirectorUniform();
    FilterUniform(DIRECTOR, 10, c);
  }
}
