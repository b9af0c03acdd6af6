// The Products service: which products a user may see and change, by the
// departments a product is allocated to; the dispatch of quantity
// conversions; and the vendor filter on purchase units.  The permission
// tables come from the permission service; the stored allocations and the
// document-level permission answer are parameters.

module ProductService {
  import opened Common
  import opened PermissionService
  import opened ProductDoc
  import PD = ProductDepartmentDoc

  /** `_get_user`: the given user, else the session user. */
  function ResolveUser(user: string, sessionUser: string): (r: string)
    ensures user != "" ==> r == user
    ensures user == "" ==> r == sessionUser
  {
    if user != "" then user else sessionUser
  }

  /** `_user_bypasses_department_permissions` of this service: Administrator, Guest, or a System Manager. */
  predicate ProductBypasses(user: string, roles: seq<string>)
  {
    user == "Administrator" || user == "Guest" || "System Manager" in roles
  }

  /** The permission tables of the permission service. */
  datatype Access = Access(departments: seq<Department>, rows: seq<PermRow>)

  // ---------------------------------------------------------------------
  // _filter_rows_by_permission
  // ---------------------------------------------------------------------

  /** A row of a product listing. */
  datatype ListRow = ListRow(name: string, isNonInventory: bool)

  /** `_get_product_departments` for one product: the non-empty departments of its stored rows ({} for a nameless row). */
  function ProductDepartments(stored: seq<PD.StoredAllocation>, product: string): (r: set<string>)
    ensures "" !in r
    ensures forall d :: d in r <==> product != "" && exists k | 0 <= k < |stored| ::
      stored[k].parent == product && stored[k].parentType == "Product" && stored[k].department == d && d != ""
  {
    if product == "" then {}
    else set k | 0 <= k < |stored| && stored[k].parent == product && stored[k].parentType == "Product"
                 && stored[k].department != "" :: stored[k].department
  }

  /** A listed product is kept: non-inventory, unallocated, or allocated to an accessible department. */
  predicate Visible(row: ListRow, stored: seq<PD.StoredAllocation>, accessible: seq<string>)
  {
    var departments := ProductDepartments(stored, row.name);
    row.isNonInventory || departments == {} || exists d | d in departments :: d in accessible
  }

  /** The visible rows, in order. */
  function KeepVisible(rows: seq<ListRow>, stored: seq<PD.StoredAllocation>, accessible: seq<string>): (r: seq<ListRow>)
    ensures |r| <= |rows|
  {
    if rows == [] then []
    else
      var front := KeepVisible(rows[..|rows| - 1], stored, accessible);
      if Visible(rows[|rows| - 1], stored, accessible) then front + [rows[|rows| - 1]] else front
  }

  /** `_filter_rows_by_permission`. */
  function FilterRows(rows: seq<ListRow>, user: string, roles: seq<string>, flag: string,
                      access: Access, stored: seq<PD.StoredAllocation>): Result<seq<ListRow>>
  {
    if rows == [] then Ok([])
    else if ProductBypasses(user, roles) then Ok(rows)
    else
      match AccessibleDepartments(user, roles, flag, false, access.departments, access.rows)
      case Err(e) => Err(e)
      case Ok(accessible) => Ok(KeepVisible(rows, stored, accessible))
  }

  /** A row is kept exactly when it is listed and visible. */
  lemma {:induction false} KeepVisibleMeans(rows: seq<ListRow>, stored: seq<PD.StoredAllocation>, accessible: seq<string>, x: ListRow)
    ensures x in KeepVisible(rows, stored, accessible) <==> x in rows && Visible(x, stored, accessible)
  {
    if rows != [] {
      KeepVisibleMeans(rows[..|rows| - 1], stored, accessible, x);
      assert rows == rows[..|rows| - 1] + [rows[|rows| - 1]];
    }
  }

  /** Filtering a listing in two parts gives the two filtered parts in order, so the order is kept. */
  lemma {:induction false} KeepVisibleAppend(a: seq<ListRow>, b: seq<ListRow>, stored: seq<PD.StoredAllocation>, accessible: seq<string>)
    ensures KeepVisible(a + b, stored, accessible) == KeepVisible(a, stored, accessible) + KeepVisible(b, stored, accessible)
    decreases |b|
  {
    if b != [] {
      var ab := a + b;
      var last := b[|b| - 1];
      assert ab[..|ab| - 1] == a + b[..|b| - 1];
      assert ab[|ab| - 1] == last;
      KeepVisibleAppend(a, b[..|b| - 1], stored, accessible);
    } else {
      assert a + b == a;
    }
  }

  /** `_filter_rows_by_permission`, row by row. */
  method FilterByPermission(rows: seq<ListRow>, user: string, roles: seq<string>, flag: string,
                            access: Access, stored: seq<PD.StoredAllocation>) returns (r: Result<seq<ListRow>>)
    ensures r == FilterRows(rows, user, roles, flag, access, stored)
  {
    if rows == [] {
      return Ok([]);
    }
    if ProductBypasses(user, roles) {
      return Ok(rows);
    }
    var accessible := AccessibleDepartments(user, roles, flag, false, access.departments, access.rows);
    if accessible.Err? {
      return Err(accessible.error);
    }
    var filtered: seq<ListRow> := [];
    for i := 0 to |rows|
      invariant filtered == KeepVisible(rows[..i], stored, accessible.value)
    {
      assert rows[..i + 1][..i] == rows[..i];
      var row := rows[i];
      if row.isNonInventory {
        filtered := filtered + [row];
        continue;
      }
      var departments := ProductDepartments(stored, row.name);
      if departments == {} {
        filtered := filtered + [row];
        continue;
      }
      if exists d | d in departments :: d in accessible.value {
        filtered := filtered + [row];
      }
    }
    assert rows[..|rows|] == rows;
    r := Ok(filtered);
  }

  // ---------------------------------------------------------------------
  // user_can_access_product and _validate_user_can_modify_product
  // ---------------------------------------------------------------------

  /** What the service reads of a product document. */
  datatype ProductView = ProductView(units: UnitFields, departments: seq<Allocation>, isNonInventory: bool)

  /** The product's non-empty allocated departments. */
  function Allocated(p: ProductView): (r: set<string>)
    ensures forall d :: d in r <==> d != "" && exists k | 0 <= k < |p.departments| :: p.departments[k].department == d
  {
    set k | 0 <= k < |p.departments| && p.departments[k].department != "" :: p.departments[k].department
  }

  /** The department permission answer for one department. */
  function Permits(user: string, roles: seq<string>, department: string, flag: string, access: Access): Result<bool>
  {
    HasDepartmentPermission(user, roles, department, flag, false, access.departments, access.rows)
  }

  /**
   * `user_can_access_product`: bypassing users, non-inventory products and
   * unallocated products are open; otherwise ANY allocated department with
   * the flag is enough.
   */
  method UserCanAccessProduct(p: ProductView, user: string, roles: seq<string>, flag: string, access: Access)
    returns (r: Result<bool>)
    ensures ProductBypasses(user, roles) || p.isNonInventory || Allocated(p) == {} ==> r == Ok(true)
    ensures !(ProductBypasses(user, roles) || p.isNonInventory || Allocated(p) == {}) ==>
      (r.Err? <==> !Bypasses(user, roles) && flag !in PERMISSION_FLAGS)
      && (r.Ok? ==> (r.value <==> exists d | d in Allocated(p) :: Permits(user, roles, d, flag, access) == Ok(true)))
  {
    if ProductBypasses(user, roles) || p.isNonInventory || Allocated(p) == {} {
      return Ok(true);
    }
    var rows := p.departments;
    for i := 0 to |rows|
      invariant forall k | 0 <= k < i && rows[k].department != "" :: Permits(user, roles, rows[k].department, flag, access) == Ok(false)
    {
      var d := rows[i].department;
      if d != "" {
        var h := Permits(user, roles, d, flag, access);
        if h.Err? {
          return Err(h.error);
        }
        if h.value {
          return Ok(true);
        }
      }
    }
    var some :| some in Allocated(p);
    assert Permits(user, roles, some, flag, access) == Ok(false);
    return Ok(false);
  }

  /**
   * `_validate_user_can_modify_product`: the document permission first;
   * then, unless the product is non-inventory or unallocated, EVERY
   * allocated department needs the flag.  The departments are visited in
   * an unspecified order, so which one a refusal names is any one lacking.
   */
  method ValidateUserCanModify(p: ProductView, user: string, roles: seq<string>, flag: string, access: Access,
                               docPermitted: bool) returns (err: Option<string>)
    ensures err.None? <==>
      (docPermitted && (p.isNonInventory || forall d | d in Allocated(p) :: Permits(user, roles, d, flag, access) == Ok(true)))
    ensures !docPermitted ==> err == Some("User " + user + " lacks " + flag + " permission for Product.")
    ensures docPermitted && err.Some? ==>
      (!Bypasses(user, roles) && flag !in PERMISSION_FLAGS && err == Some("Unsupported permission flag: " + flag))
      || exists d | d in Allocated(p) :: Permits(user, roles, d, flag, access) == Ok(false)
           && err == Some("User " + user + " lacks " + flag + " permission for Department " + d + ".")
  {
    if !docPermitted {
      return Some("User " + user + " lacks " + flag + " permission for Product.");
    }
    if p.isNonInventory {
      return None;
    }
    var rows := p.departments;
    for i := 0 to |rows|
      invariant forall k | 0 <= k < i && rows[k].department != "" :: Permits(user, roles, rows[k].department, flag, access) == Ok(true)
    {
      var d := rows[i].department;
      if d != "" {
        var h := Permits(user, roles, d, flag, access);
        if h.Err? {
          return Some(h.error);
        }
        if !h.value {
          return Some("User " + user + " lacks " + flag + " permission for Department " + d + ".");
        }
      }
    }
    return None;
  }

  /** The two rules as predicates: ANY department for access, EVERY department for changes. */
  predicate AnyPermits(p: ProductView, user: string, roles: seq<string>, flag: string, access: Access)
  {
    exists d | d in Allocated(p) :: Permits(user, roles, d, flag, access) == Ok(true)
  }

  predicate AllPermit(p: ProductView, user: string, roles: seq<string>, flag: string, access: Access)
  {
    forall d | d in Allocated(p) :: Permits(user, roles, d, flag, access) == Ok(true)
  }

  /** A user allowed to change an allocated product with a flag may also access it with that flag. */
  lemma AllImpliesAny(p: ProductView, user: string, roles: seq<string>, flag: string, access: Access)
    requires Allocated(p) != {} && AllPermit(p, user, roles, flag, access)
    ensures AnyPermits(p, user, roles, flag, access)
  {
    var d :| d in Allocated(p);
    assert Permits(user, roles, d, flag, access) == Ok(true);
  }

  /** With two allocated departments of which only one grants the flag, access is granted but changes are refused. */
  lemma AnyIsNotAll(p: ProductView, user: string, roles: seq<string>, flag: string, access: Access, a: string, b: string)
    requires a in Allocated(p) && b in Allocated(p)
    requires Permits(user, roles, a, flag, access) == Ok(true) && Permits(user, roles, b, flag, access) == Ok(false)
    ensures AnyPermits(p, user, roles, flag, access) && !AllPermit(p, user, roles, flag, access)
  {
  }

  /**
   * For a user who does not bypass and a valid flag, the listing filter and
   * the access rule agree: an inventory product with allocations is listed
   * exactly when some allocated department grants the flag.
   */
  lemma FilterAgreesWithAccess(p: ProductView, row: ListRow, stored: seq<PD.StoredAllocation>, user: string, roles: seq<string>,
                               flag: string, access: Access)
    requires !Bypasses(user, roles) && flag in PERMISSION_FLAGS
    requires !row.isNonInventory && ProductDepartments(stored, row.name) == Allocated(p)
    requires AccessibleDepartments(user, roles, flag, false, access.departments, access.rows).Ok?
    ensures Visible(row, stored, AccessibleDepartments(user, roles, flag, false, access.departments, access.rows).value)
            <==> Allocated(p) == {} || AnyPermits(p, user, roles, flag, access)
  {
    var acc := AccessibleDepartments(user, roles, flag, false, access.departments, access.rows).value;
    forall d | d in Allocated(p)
      ensures d in acc <==> Permits(user, roles, d, flag, access) == Ok(true)
    {
      HasAgreesWithAccessible(user, roles, d, flag, false, access.departments, access.rows);
    }
  }

  // ---------------------------------------------------------------------
  // convert_quantity and get_purchase_units
  // ---------------------------------------------------------------------

  /** The reply of `convert_quantity`. */
  datatype Converted = Converted(fromUnit: string, toUnit: string, quantity: real, convertedQuantity: real)

  const NO_VIEW: string := "You do not have permission to view this product."
  const NO_TARGET: string := "Target unit is required when converting from primary unit."

  /**
   * `convert_quantity` after the access check (`allowed`): both units convert
   * between them, only a source unit converts to the primary unit, only a
   * target unit converts from it, and neither is an error.
   */
  function ConvertQuantity(allowed: bool, u: UnitFields, fromUnit: string, toUnit: string, quantity: real): Result<Converted>
  {
    if !allowed then Err(NO_VIEW)
    else
      var result :=
        if fromUnit != "" && toUnit != "" then Between(u, fromUnit, toUnit, quantity)
        else if fromUnit != "" then ToPrimary(u, fromUnit, quantity)
        else if toUnit == "" then Err(NO_TARGET)
        else FromPrimary(u, toUnit, quantity);
      match result
      case Err(e) => Err(e)
      case Ok(x) =>
        Ok(Converted(if fromUnit != "" then fromUnit else u.primaryCountUnit,
                     if toUnit != "" then toUnit else u.primaryCountUnit, quantity, x))
  }

  /**
   * The dispatch: which direction each combination of units takes, and a
   * source unit alone is the same as converting into the primary unit by
   * name.
   */
  lemma ConvertQuantityDispatch(u: UnitFields, fromUnit: string, toUnit: string, quantity: real)
    ensures fromUnit == "" && toUnit == "" ==> ConvertQuantity(true, u, fromUnit, toUnit, quantity) == Err(NO_TARGET)
    ensures fromUnit != "" && toUnit != "" ==>
      ConvertQuantity(true, u, fromUnit, toUnit, quantity).Ok? == Between(u, fromUnit, toUnit, quantity).Ok?
    ensures fromUnit != "" && toUnit == "" && u.primaryCountUnit != "" ==>
      ConvertQuantity(true, u, fromUnit, toUnit, quantity) == ConvertQuantity(true, u, fromUnit, u.primaryCountUnit, quantity)
    ensures fromUnit == "" && toUnit != "" && ConvertQuantity(true, u, fromUnit, toUnit, quantity).Ok? ==>
      ConvertQuantity(true, u, fromUnit, toUnit, quantity).value.convertedQuantity == FromPrimary(u, toUnit, quantity).value
      && ConvertQuantity(true, u, fromUnit, toUnit, quantity).value.fromUnit == u.primaryCountUnit
  {
    if fromUnit != "" && toUnit == "" && u.primaryCountUnit != "" {
      match ToPrimary(u, fromUnit, quantity)
      case Err(e) =>
      case Ok(x) =>
        assert FromPrimary(u, u.primaryCountUnit, x) == Ok(x);
    }
  }

  /** The purchase units of one vendor, or all when no vendor is named. */
  function VendorUnits(rows: seq<UnitRow>, vendor: string): (r: seq<UnitRow>)
  {
    if rows == [] then []
    else
      var front := VendorUnits(rows[..|rows| - 1], vendor);
      var last := rows[|rows| - 1];
      if vendor != "" && last.vendor != vendor then front else front + [last]
  }

  /** Every row is kept when no vendor is named; otherwise exactly the vendor's rows, in order. */
  lemma {:induction false} VendorUnitsMeans(rows: seq<UnitRow>, vendor: string)
    ensures vendor == "" ==> VendorUnits(rows, vendor) == rows
    ensures forall x :: x in VendorUnits(rows, vendor) <==> x in rows && (vendor == "" || x.vendor == vendor)
    ensures forall x :: multiset(VendorUnits(rows, vendor))[x] == (if vendor == "" || x.vendor == vendor then multiset(rows)[x] else 0)
  {
    if rows != [] {
      VendorUnitsMeans(rows[..|rows| - 1], vendor);
      assert rows == rows[..|rows| - 1] + [rows[|rows| - 1]];
    }
  }

  /** The filter keeps the rows' order: filtering two runs one after the other is filtering each. */
  lemma {:induction false} VendorUnitsAppend(a: seq<UnitRow>, b: seq<UnitRow>, vendor: string)
    ensures VendorUnits(a + b, vendor) == VendorUnits(a, vendor) + VendorUnits(b, vendor)
    decreases |b|
  {
    if b != [] {
      var n := |b| - 1;
      VendorUnitsAppend(a, b[..n], vendor);
      assert (a + b)[..|a + b| - 1] == a + b[..n];
    } else {
      assert a + b == a;
    }
  }

  /** `get_purchase_units` after the access check. */
  method GetPurchaseUnits(allowed: bool, p: ProductView, vendor: string) returns (r: Result<seq<UnitRow>>)
    ensures !allowed ==> r == Err(NO_VIEW)
    ensures allowed ==> r == Ok(VendorUnits(p.units.purchaseUnits, vendor))
  {
    if !allowed {
      return Err(NO_VIEW);
    }
    var rows := p.units.purchaseUnits;
    var kept: seq<UnitRow> := [];
    for i := 0 to |rows|
      invariant kept == VendorUnits(rows[..i], vendor)
    {
      assert rows[..i + 1][..i] == rows[..i];
      if vendor != "" && rows[i].vendor != vendor {
        continue;
      }
      kept := kept + [rows[i]];
    }
    assert rows[..|rows|] == rows;
    r := Ok(kept);
  }
}
