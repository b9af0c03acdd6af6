// The validation of a Department Permission row, the child table of User that
// grants a user access to one department: the department must exist and be
// active, agree with the user's company, carry some flag, appear once among
// the user's rows, and have ordered dates.  The Department table, the user's
// company and the stored rows are parameters.

module DepartmentPermissionDoc {
  import opened Common
  import opened PermissionService

  /** The stored state a row is checked against; `userCompany` is "" when the user has none. */
  datatype Env = Env(departments: seq<Department>, userCompany: string, stored: seq<PermRow>)

  /** A row of the parent's table as held in memory, with its document status (2 = cancelled). */
  datatype Child = Child(row: PermRow, docstatus: int)

  /** The Department with the name, if any. */
  function FindDepartment(departments: seq<Department>, name: string): (r: Option<Department>)
    ensures r.Some? ==> r.value in departments && r.value.name == name
    ensures r.None? ==> forall d | d in departments :: d.name != name
  {
    if departments == [] then None
    else if departments[0].name == name then Some(departments[0])
    else FindDepartment(departments[1..], name)
  }

  /** Some flag is set. */
  predicate AnyFlag(f: Flags)
  {
    f.read || f.write || f.create || f.delete || f.submit || f.cancel || f.approve
  }

  function DepartmentError(env: Env, doc: PermRow): Option<string>
  {
    if doc.department == "" then Some("Department is required.")
    else match FindDepartment(env.departments, doc.department)
      case None => Some("Department " + doc.department + " does not exist.")
      case Some(d) => if !d.isActive then Some("Department " + doc.department + " is inactive.") else None
  }

  function CompanyError(env: Env, doc: PermRow): Option<string>
  {
    var company := match FindDepartment(env.departments, doc.department) case None => "" case Some(d) => d.company;
    if company == "" then None
    else if env.userCompany != "" && env.userCompany != company then
      Some("Department " + doc.department + " belongs to company " + company
           + ", which does not match user company " + env.userCompany + ".")
    else None
  }

  const NO_FLAG: string := "Select at least one permission for the department access."

  /** Another non-cancelled row of the parent's table, at a position other than the row's own, names the department. */
  predicate InMemoryDuplicate(siblings: Option<seq<Child>>, self: int, department: string)
  {
    siblings.Some? && exists i | 0 <= i < |siblings.value| ::
      i != self && siblings.value[i].docstatus != 2 && siblings.value[i].row.department == department
  }

  /** A stored row of the same parent and parent type names the department under another name. */
  predicate StoredDuplicate(stored: seq<PermRow>, doc: PermRow, parentType: string)
  {
    var own := if doc.id == "" then "NEW-DEPARTMENT-PERM" else doc.id;
    exists x | x in stored :: x.parent == doc.parent && x.parentType == parentType
                              && x.department == doc.department && x.id != own
  }

  /** The row has not been saved yet. */
  predicate Unsaved(doc: PermRow)
  {
    doc.id == "" || IsPrefix("NEW-", doc.id)
  }

  function DuplicateError(env: Env, doc: PermRow, siblings: Option<seq<Child>>, self: int): Option<string>
  {
    var msg := Some("Department " + doc.department + " is already assigned to this user.");
    if doc.parent == "" || doc.department == "" then None
    else if InMemoryDuplicate(siblings, self, doc.department) then msg
    else if Unsaved(doc) then None
    else if StoredDuplicate(env.stored, doc, if doc.parentType == "" then "User" else doc.parentType) then msg
    else None
  }

  function DateError(doc: PermRow): Option<string>
  {
    if doc.validFrom.Some? && doc.validUpto.Some? && doc.validFrom.value > doc.validUpto.value
    then Some("Valid Upto must be on or after Valid From.")
    else None
  }

  /**
   * `run_department_permission_validation`: the first failing check, in the
   * order department, company, flags, duplicates, dates. `siblings` is the
   * parent's table when the parent document is loaded, and `self` the row's
   * own position in it.
   */
  function Validate(env: Env, doc: PermRow, siblings: Option<seq<Child>>, self: int): Option<string>
  {
    var department := DepartmentError(env, doc);
    if department.Some? then department
    else
      var company := CompanyError(env, doc);
      if company.Some? then company
      else if !AnyFlag(doc.flags) then Some(NO_FLAG)
      else
        var duplicate := DuplicateError(env, doc, siblings, self);
        if duplicate.Some? then duplicate
        else DateError(doc)
  }

  /** What an acceptable row is, check by check. */
  ghost predicate Acceptable(env: Env, doc: PermRow, siblings: Option<seq<Child>>, self: int)
  {
    && doc.department != ""
    && (exists d | d in env.departments :: d.name == doc.department)
    && FindDepartment(env.departments, doc.department).value.isActive
    && (var company := FindDepartment(env.departments, doc.department).value.company;
        company == "" || env.userCompany == "" || env.userCompany == company)
    && AnyFlag(doc.flags)
    && (doc.parent != "" ==>
          !InMemoryDuplicate(siblings, self, doc.department)
          && (Unsaved(doc) || !StoredDuplicate(env.stored, doc, if doc.parentType == "" then "User" else doc.parentType)))
    && (doc.validFrom.Some? && doc.validUpto.Some? ==> doc.validFrom.value <= doc.validUpto.value)
  }

  /** A row passes exactly when it is acceptable. */
  lemma ValidateMeans(env: Env, doc: PermRow, siblings: Option<seq<Child>>, self: int)
    ensures Validate(env, doc, siblings, self).None? <==> Acceptable(env, doc, siblings, self)
  {
  }

  /** A row with no flag set is refused, whatever else holds, once its department is acceptable. */
  lemma NoFlagRefused(env: Env, doc: PermRow, siblings: Option<seq<Child>>, self: int)
    requires !AnyFlag(doc.flags)
    requires DepartmentError(env, doc).None? && CompanyError(env, doc).None?
    ensures Validate(env, doc, siblings, self) == Some(NO_FLAG)
  {
  }

  /** Equal dates pass the date check; `valid_upto` before `valid_from` fails it. */
  lemma DatesMeans(doc: PermRow)
    ensures DateError(doc).None? <==> !(doc.validFrom.Some? && doc.validUpto.Some?) || doc.validFrom.value <= doc.validUpto.value
  {
  }

  // ---------------------------------------------------------------------
  // validate_user_department_permissions
  // ---------------------------------------------------------------------

  /** The first error among the user's rows, each checked against the whole table. */
  function ValidateUser(env: Env, rows: seq<Child>): Option<string>
  {
    ValidateFrom(env, rows, 0)
  }

  function ValidateFrom(env: Env, rows: seq<Child>, i: nat): Option<string>
    requires i <= |rows|
    decreases |rows| - i
  {
    if i == |rows| then None
    else
      var e := Validate(env, rows[i].row, Some(rows), i);
      if e.Some? then e else ValidateFrom(env, rows, i + 1)
  }

  /** The user's rows pass exactly when every row passes. */
  lemma {:induction false} ValidateFromMeans(env: Env, rows: seq<Child>, i: nat)
    requires i <= |rows|
    ensures ValidateFrom(env, rows, i).None? <==> forall k | i <= k < |rows| :: Validate(env, rows[k].row, Some(rows), k).None?
    decreases |rows| - i
  {
    if i < |rows| {
      ValidateFromMeans(env, rows, i + 1);
    }
  }

  /** When the user's rows pass, no two of them with a parent name the same department unless one is cancelled. */
  lemma ValidUserRowsDistinct(env: Env, rows: seq<Child>, i: nat, j: nat)
    requires ValidateUser(env, rows).None?
    requires i < |rows| && j < |rows| && i != j
    requires rows[i].row.parent != "" && rows[j].docstatus != 2
    ensures rows[i].row.department != rows[j].row.department
  {
    ValidateFromMeans(env, rows, 0);
    ValidateMeans(env, rows[i].row, Some(rows), i);
  }
}
