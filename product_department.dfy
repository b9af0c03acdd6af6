// The Product Department child row: a product's allocation to a department.
// A row names an existing, active department, at most once per product; at
// most one row of a product is primary; par level and order quantity are
// not negative; and an empty default storage area is filled from the
// department.  The stored rows and the parent product's table are
// parameters.

module ProductDepartmentDoc {
  import opened Common
  import opened DepartmentDoc

  /** A stored Product Department row. */
  datatype StoredAllocation = StoredAllocation(name: string, parent: string, parentType: string, department: string)

  /** A row of the parent product's `departments` table. */
  datatype Sibling = Sibling(name: string, isPrimary: bool)

  /** The number of primary rows of the table other than the row named `name`. */
  function PrimaryCount(table: seq<Sibling>, name: string): (r: nat)
    ensures r <= |table|
  {
    if table == [] then 0
    else PrimaryCount(table[..|table| - 1], name)
         + (if table[|table| - 1].isPrimary && table[|table| - 1].name != name then 1 else 0)
  }

  /** No other row of the table is primary exactly when the count is zero. */
  lemma {:induction false} PrimaryCountZero(table: seq<Sibling>, name: string)
    ensures PrimaryCount(table, name) == 0 <==> forall k | 0 <= k < |table| :: !table[k].isPrimary || table[k].name == name
  {
    if table != [] {
      PrimaryCountZero(table[..|table| - 1], name);
    }
  }

  /** A stored row of the same parent names the department under another name. */
  predicate AssignedElsewhere(stored: seq<StoredAllocation>, name: string, parent: string, parentType: string, department: string)
  {
    var own := if name == "" then "NEW-PRODUCT-DEPT" else name;
    exists k | 0 <= k < |stored| ::
      stored[k].parent == parent && stored[k].parentType == parentType
      && stored[k].department == department && stored[k].name != own
  }

  function NegativeError(field: string, department: string): string
  {
    "Field <strong>" + field + "</strong> cannot be negative for department " + department + "."
  }

  /**
   * The checks of `validate`, in order.  `table` is the parent product's
   * table when the parent can be loaded.
   */
  function RowError(env: Env, stored: seq<StoredAllocation>, table: Option<seq<Sibling>>, name: string, parent: string,
                    parentType: string, department: string, isPrimary: bool,
                    parLevel: Option<real>, orderQuantity: Option<real>): Option<string>
  {
    if department == "" then Some("Department is required.")
    else if department !in env.departments then Some("Department " + department + " does not exist.")
    else if !env.departments[department].isActive then Some("Department " + department + " is inactive.")
    else if parent != "" && parentType != "" && AssignedElsewhere(stored, name, parent, parentType, department) then
      Some("Department " + department + " is already assigned to this product.")
    else if isPrimary && table.Some? && PrimaryCount(table.value, name) > 0 then
      Some("Only one department can be marked as primary per product.")
    else if parLevel.Some? && parLevel.value < 0.0 then Some(NegativeError("par_level", department))
    else if orderQuantity.Some? && orderQuantity.value < 0.0 then Some(NegativeError("order_quantity", department))
    else None
  }

  /** `_apply_department_defaults`: an empty storage area takes the department's, when it has one. */
  function DefaultStorage(env: Env, department: string, current: string): (r: string)
    requires department in env.departments
    ensures current != "" ==> r == current
    ensures current == "" ==> r == env.departments[department].defaultStorageArea
  {
    if current != "" then current
    else if env.departments[department].defaultStorageArea != "" then env.departments[department].defaultStorageArea
    else current
  }

  /** A row passes exactly when every rule holds. */
  lemma RowErrorMeans(env: Env, stored: seq<StoredAllocation>, table: Option<seq<Sibling>>, name: string, parent: string,
                      parentType: string, department: string, isPrimary: bool,
                      parLevel: Option<real>, orderQuantity: Option<real>)
    ensures RowError(env, stored, table, name, parent, parentType, department, isPrimary, parLevel, orderQuantity).None? <==>
      && department != "" && department in env.departments && env.departments[department].isActive
      && (parent != "" && parentType != "" ==>
            forall k | 0 <= k < |stored| && stored[k].parent == parent && stored[k].parentType == parentType
                       && stored[k].department == department :: stored[k].name == (if name == "" then "NEW-PRODUCT-DEPT" else name))
      && (isPrimary && table.Some? ==>
            forall k | 0 <= k < |table.value| :: !table.value[k].isPrimary || table.value[k].name == name)
      && (parLevel.Some? ==> parLevel.value >= 0.0)
      && (orderQuantity.Some? ==> orderQuantity.value >= 0.0)
  {
    if table.Some? {
      PrimaryCountZero(table.value, name);
    }
    if department == "" || department !in env.departments || !env.departments[department].isActive {
    } else if parent != "" && parentType != "" && AssignedElsewhere(stored, name, parent, parentType, department) {
    } else if isPrimary && table.Some? && PrimaryCount(table.value, name) > 0 {
    } else {
    }
  }

  /**
   * A product table whose rows all pass, each checked against the table
   * itself, and whose row names are distinct, has at most one primary row.
   */
  lemma AtMostOnePrimary(env: Env, stored: seq<StoredAllocation>, table: seq<Sibling>, parent: string, parentType: string,
                         departments: seq<string>, i: nat, j: nat)
    requires |departments| == |table|
    requires forall a, b | 0 <= a < b < |table| :: table[a].name != table[b].name
    requires forall k | 0 <= k < |table| ::
      RowError(env, stored, Some(table), table[k].name, parent, parentType, departments[k], table[k].isPrimary, None, None).None?
    requires i < |table| && j < |table| && table[i].isPrimary && table[j].isPrimary
    ensures i == j
  {
    RowErrorMeans(env, stored, Some(table), table[i].name, parent, parentType, departments[i], true, None, None);
  }

  class ProductDepartment {
    var name: string
    var parent: string
    var parentType: string
    var department: string
    var isPrimary: bool
    var parLevel: Option<real>
    var orderQuantity: Option<real>
    var defaultStorageArea: string

    /** `validate`: the checks in order; a passing row gets the department's storage area when it has none. */
    method Validate(env: Env, stored: seq<StoredAllocation>, table: Option<seq<Sibling>>) returns (err: Option<string>)
      modifies this`defaultStorageArea
      ensures err == RowError(env, stored, table, name, parent, parentType, department, isPrimary, parLevel, orderQuantity)
      ensures err.Some? ==> defaultStorageArea == old(defaultStorageArea)
      ensures err.None? ==> department in env.departments
                            && defaultStorageArea == DefaultStorage(env, department, old(defaultStorageArea))
    {
      err := RowError(env, stored, table, name, parent, parentType, department, isPrimary, parLevel, orderQuantity);
      if err.Some? {
        return;
      }
      if defaultStorageArea == "" {
        var area := env.departments[department].defaultStorageArea;
        if area != "" {
          defaultStorageArea := area;
        }
      }
    }
  }
}
