// The Role Permission child row: a permission code granted to a role.
// Validation rejects an empty code and a code outside the registry, and then
// copies the permission's name, category, description and department
// restriction from the registry onto the row.  The registry is a parameter
// (the `PermissionRegistry.ALL` list in the running system).

module RolePermissionDoc {
  import opened Common
  import opened PermissionRegistry

  /** A stored Role Permission row; `departmentRestricted` holds 1 or 0. */
  datatype Row = Row(
    code: string,
    name: string,
    category: string,
    description: string,
    departmentRestricted: int,
    isGranted: bool)

  /** The row appended by the role services: `{"permission_code": code, "is_granted": 1}`. */
  function NewRow(code: string): (r: Row)
    ensures r.code == code && r.isGranted
  {
    Row(code, "", "", "", 0, true)
  }

  /** `_validate_permission_code`: the error it raises, if any. */
  function CodeError(registry: seq<Definition>, code: string): (r: Option<string>)
    ensures r.None? <==> code != "" && Known(registry, code)
    ensures code == "" ==> r == Some("Permission Code is required.")
  {
    if code == "" then Some("Permission Code is required.")
    else if !Known(registry, code) then
      Some("Invalid permission code: " + code + ". Must be a valid permission from the registry.")
    else None
  }

  /** `_populate_permission_details`: copy the registry entry's details; rows without a known code are unchanged. */
  function Populated(registry: seq<Definition>, row: Row): (r: Row)
    ensures r.code == row.code && r.isGranted == row.isGranted
    ensures Lookup(registry, row.code).None? || row.code == "" ==> r == row
  {
    if row.code == "" then row
    else match Lookup(registry, row.code)
      case None => row
      case Some(d) => row.(name := d.name, category := d.category, description := d.description,
                           departmentRestricted := if d.departmentRestricted then 1 else 0)
  }

  /** `run_role_permission_validation`: check the code, then populate. */
  function Validated(registry: seq<Definition>, row: Row): (r: Result<Row>)
  {
    match CodeError(registry, row.code)
    case Some(e) => Err(e)
    case None => Ok(Populated(registry, row))
  }

  /** `validate_role_permissions`: every row of the role, stopping at the first error. */
  function ValidateRows(registry: seq<Definition>, rows: seq<Row>): Result<seq<Row>>
  {
    Traverse(rows, row => Validated(registry, row))
  }

  /**
   * A valid row takes the name, category and description of the registry
   * entry with its code, and its restriction as 1 or 0.
   */
  lemma PopulatedFromRegistry(registry: seq<Definition>, row: Row, d: Definition)
    requires CodesDistinct(registry)
    requires d in registry && d.code == row.code && row.code != ""
    ensures CodeError(registry, row.code).None?
    ensures Validated(registry, row) == Ok(Populated(registry, row))
    ensures var r := Populated(registry, row);
      r.name == d.name && r.category == d.category && r.description == d.description &&
      r.departmentRestricted == (if d.departmentRestricted then 1 else 0) &&
      r.code == row.code && r.isGranted == row.isGranted
  {
    LookupMeans(registry, row.code, d);
    KnownMeans(registry, row.code);
    var i :| 0 <= i < |registry| && registry[i] == d;
    assert CodesOf(registry)[i] == row.code;
  }

  /** Validating the role succeeds exactly when every row has a registry code, and then populates each row. */
  lemma ValidateRowsMeans(registry: seq<Definition>, rows: seq<Row>)
    ensures ValidateRows(registry, rows).Ok? <==>
      forall i | 0 <= i < |rows| :: rows[i].code != "" && Known(registry, rows[i].code)
    ensures ValidateRows(registry, rows).Ok? ==>
      var v := ValidateRows(registry, rows).value;
      |v| == |rows| && forall i | 0 <= i < |rows| :: v[i] == Populated(registry, rows[i])
  {
    var f := row => Validated(registry, row);
    TraverseMeans(rows, f);
    forall i | 0 <= i < |rows|
      ensures f(rows[i]).Ok? <==> rows[i].code != "" && Known(registry, rows[i].code)
    {
    }
  }

  /** The Role Permission document. */
  class RolePermission {
    var code: string
    var name: string
    var category: string
    var description: string
    var departmentRestricted: int
    var isGranted: bool

    constructor (row: Row)
      ensures AsRow() == row
    {
      code, name, category, description := row.code, row.name, row.category, row.description;
      departmentRestricted, isGranted := row.departmentRestricted, row.isGranted;
    }

    function AsRow(): Row
      reads this
    {
      Row(code, name, category, description, departmentRestricted, isGranted)
    }

    /** `validate`: raise on a bad code; otherwise write the four detail fields. */
    method Validate(registry: seq<Definition>) returns (err: Option<string>)
      modifies this
      ensures err == CodeError(registry, old(code))
      ensures err.Some? ==> AsRow() == old(AsRow())
      ensures err.None? ==> AsRow() == Populated(registry, old(AsRow()))
    {
      err := CodeError(registry, code);
      if err.Some? {
        return;
      }
      var found := Lookup(registry, code);
      if found.Some? {
        var d := found.value;
        name := d.name;
        category := d.category;
        description := d.description;
        departmentRestricted := if d.departmentRestricted then 1 else 0;
      }
    }
  }
}
