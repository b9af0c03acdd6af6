// Department-aware access control: the seven permission flags, the users who
// bypass department filtering, the departments a user may reach with a flag,
// the user's Department Permission rows, and the SQL conditions built from
// them.  The user's roles, the Department table and the stored Department
// Permission rows are parameters.

module PermissionService {
  import opened Common

  /** The seven department permission flags. */
  datatype Flag = CanRead | CanWrite | CanCreate | CanDelete | CanSubmit | CanCancel | CanApprove

  const PERMISSION_FLAGS: seq<string> :=
    ["can_read", "can_write", "can_create", "can_delete", "can_submit", "can_cancel", "can_approve"]

  const SYSTEM_ROLES_BYPASS: seq<string> := ["System Manager", "Administrator"]

  function FlagName(f: Flag): string
  {
    match f
    case CanRead => "can_read"
    case CanWrite => "can_write"
    case CanCreate => "can_create"
    case CanDelete => "can_delete"
    case CanSubmit => "can_submit"
    case CanCancel => "can_cancel"
    case CanApprove => "can_approve"
  }

  /** `validate_permission_flag`: the flag named, or the error for any other name. */
  function ValidateFlag(name: string): (r: Result<Flag>)
    ensures r.Err? <==> name !in PERMISSION_FLAGS
    ensures r.Err? ==> r.error == "Unsupported permission flag: " + name
    ensures r.Ok? ==> FlagName(r.value) == name
  {
    if name == "can_read" then Ok(CanRead)
    else if name == "can_write" then Ok(CanWrite)
    else if name == "can_create" then Ok(CanCreate)
    else if name == "can_delete" then Ok(CanDelete)
    else if name == "can_submit" then Ok(CanSubmit)
    else if name == "can_cancel" then Ok(CanCancel)
    else if name == "can_approve" then Ok(CanApprove)
    else Err("Unsupported permission flag: " + name)
  }

  /** There are seven flags, their names are distinct, and each name validates back to its flag. */
  lemma FlagsRoundTrip(f: Flag)
    ensures |PERMISSION_FLAGS| == 7
    ensures forall i, j | 0 <= i < j < |PERMISSION_FLAGS| :: PERMISSION_FLAGS[i] != PERMISSION_FLAGS[j]
    ensures FlagName(f) in PERMISSION_FLAGS
    ensures ValidateFlag(FlagName(f)) == Ok(f)
  {
  }

  /** The flag values of a row. */
  datatype Flags = Flags(read: bool, write: bool, create: bool, delete: bool, submit: bool, cancel: bool, approve: bool)

  const ALL_FLAGS: Flags := Flags(true, true, true, true, true, true, true)

  function Has(flags: Flags, f: Flag): bool
  {
    match f
    case CanRead => flags.read
    case CanWrite => flags.write
    case CanCreate => flags.create
    case CanDelete => flags.delete
    case CanSubmit => flags.submit
    case CanCancel => flags.cancel
    case CanApprove => flags.approve
  }

  /** A Department as the access rules see it. */
  datatype Department = Department(name: string, isActive: bool, company: string)

  /** A stored Department Permission row; `parent` is the user it belongs to. */
  datatype PermRow = PermRow(
    id: string, parent: string, parentType: string, department: string, flags: Flags,
    validFrom: Option<int>, validUpto: Option<int>, notes: string)

  /** `_user_bypasses_department_permissions`. */
  predicate Bypasses(user: string, userRoles: seq<string>)
  {
    user == "" || user == "Administrator" || user == "Guest"
    || exists role | role in SYSTEM_ROLES_BYPASS :: role in userRoles
  }

  /** The table has an active Department with the name. */
  predicate IsActive(departments: seq<Department>, name: string)
  {
    exists d | d in departments :: d.name == name && d.isActive
  }

  /** The Department names in table order, active ones only unless `includeInactive`. */
  function Listed(departments: seq<Department>, includeInactive: bool): (r: seq<string>)
    ensures forall n :: n in r <==> exists d | d in departments :: d.name == n && (includeInactive || d.isActive)
  {
    if departments == [] then []
    else
      var k := |departments| - 1;
      var d := departments[k];
      assert departments == departments[..k] + [d];
      Listed(departments[..k], includeInactive) + (if includeInactive || d.isActive then [d.name] else [])
  }

  /** The user's rows, in stored order, carrying the flag. */
  function RowsWithFlag(rows: seq<PermRow>, user: string, f: Flag): (r: seq<PermRow>)
    ensures forall x :: x in r <==> x in rows && x.parent == user && x.parentType == "User" && Has(x.flags, f)
  {
    if rows == [] then []
    else
      var k := |rows| - 1;
      var x := rows[k];
      assert rows == rows[..k] + [x];
      RowsWithFlag(rows[..k], user, f) + (if x.parent == user && x.parentType == "User" && Has(x.flags, f) then [x] else [])
  }

  /** The non-empty departments named on rows. */
  function DepartmentsOf(rows: seq<PermRow>): (r: seq<string>)
    ensures forall n :: n in r <==> n != "" && exists x | x in rows :: x.department == n
  {
    if rows == [] then []
    else
      var k := |rows| - 1;
      assert rows == rows[..k] + [rows[k]];
      DepartmentsOf(rows[..k]) + (if rows[k].department != "" then [rows[k].department] else [])
  }

  /** The active Departments whose names are among `names`, in table order. */
  function ActiveAmong(departments: seq<Department>, names: seq<string>): (r: seq<string>)
    ensures forall n :: n in r <==> n in names && IsActive(departments, n)
  {
    if departments == [] then []
    else
      var k := |departments| - 1;
      var d := departments[k];
      assert departments == departments[..k] + [d];
      ActiveAmong(departments[..k], names) + (if d.name in names && d.isActive then [d.name] else [])
  }

  /** `get_accessible_departments`. */
  function AccessibleDepartments(user: string, userRoles: seq<string>, flag: string, includeInactive: bool,
                                 departments: seq<Department>, rows: seq<PermRow>): (r: Result<seq<string>>)
  {
    if Bypasses(user, userRoles) then Ok(Listed(departments, includeInactive))
    else
      match ValidateFlag(flag)
      case Err(e) => Err(e)
      case Ok(f) =>
        var granted := DepartmentsOf(RowsWithFlag(rows, user, f));
        if granted == [] then Ok([])
        else if includeInactive then Ok(SortedSet(granted))
        else Ok(SortedSet(ActiveAmong(departments, granted)))
  }

  /** A user's own row grants the department with the flag. */
  ghost predicate Granted(user: string, rows: seq<PermRow>, f: Flag, name: string)
  {
    exists x | x in rows :: x.parent == user && x.parentType == "User" && x.department == name && Has(x.flags, f)
  }

  /**
   * Bypassing users reach every listed Department without the flag being
   * checked; any other user gets an error for an unknown flag, and otherwise
   * the sorted names of the non-empty departments granted with that flag,
   * active ones only unless `includeInactive`.
   */
  lemma AccessibleDepartmentsMeans(user: string, userRoles: seq<string>, flag: string, includeInactive: bool,
                                   departments: seq<Department>, rows: seq<PermRow>, name: string)
    ensures var r := AccessibleDepartments(user, userRoles, flag, includeInactive, departments, rows);
      Bypasses(user, userRoles) ==> r == Ok(Listed(departments, includeInactive))
    ensures var r := AccessibleDepartments(user, userRoles, flag, includeInactive, departments, rows);
      !Bypasses(user, userRoles) ==> (r.Err? <==> flag !in PERMISSION_FLAGS)
    ensures var r := AccessibleDepartments(user, userRoles, flag, includeInactive, departments, rows);
      !Bypasses(user, userRoles) && r.Ok? ==>
        StrictlySorted(r.value) &&
        (name in r.value <==>
          name != "" && Granted(user, rows, ValidateFlag(flag).value, name) && (includeInactive || IsActive(departments, name)))
  {
    var r := AccessibleDepartments(user, userRoles, flag, includeInactive, departments, rows);
    if !Bypasses(user, userRoles) && r.Ok? {
      var f := ValidateFlag(flag).value;
      var mine := RowsWithFlag(rows, user, f);
      var granted := DepartmentsOf(mine);
      assert name in granted <==> name != "" && Granted(user, rows, f, name) by {
        if name in granted {
          var x :| x in mine && x.department == name;
        }
        if name != "" && Granted(user, rows, f, name) {
          var x :| x in rows && x.parent == user && x.parentType == "User" && x.department == name && Has(x.flags, f);
          assert x in mine;
        }
      }
    }
  }

  /** `has_department_permission`. */
  function HasDepartmentPermission(user: string, userRoles: seq<string>, department: string, flag: string,
                                   includeInactive: bool, departments: seq<Department>, rows: seq<PermRow>): (r: Result<bool>)
    ensures Bypasses(user, userRoles) ==> r == Ok(true)
    ensures !Bypasses(user, userRoles) ==> (r.Err? <==> flag !in PERMISSION_FLAGS)
    ensures !Bypasses(user, userRoles) && r.Ok? ==>
      (r.value <==> department != "" && (includeInactive || IsActive(departments, department))
                    && Granted(user, rows, ValidateFlag(flag).value, department))
  {
    if Bypasses(user, userRoles) then Ok(true)
    else
      match ValidateFlag(flag)
      case Err(e) => Err(e)
      case Ok(f) =>
        if department == "" then Ok(false)
        else if !includeInactive && !IsActive(departments, department) then Ok(false)
        else Ok(exists x | x in rows :: x.parent == user && x.parentType == "User" && x.department == department && Has(x.flags, f))
  }

  /** For a user who does not bypass, holding a department permission is being offered that department. */
  lemma HasAgreesWithAccessible(user: string, userRoles: seq<string>, department: string, flag: string,
                                includeInactive: bool, departments: seq<Department>, rows: seq<PermRow>)
    requires !Bypasses(user, userRoles) && flag in PERMISSION_FLAGS
    ensures HasDepartmentPermission(user, userRoles, department, flag, includeInactive, departments, rows) ==
      Ok(department in AccessibleDepartments(user, userRoles, flag, includeInactive, departments, rows).value)
  {
    AccessibleDepartmentsMeans(user, userRoles, flag, includeInactive, departments, rows, department);
  }

  // ---------------------------------------------------------------------
  // get_user_department_permissions
  // ---------------------------------------------------------------------

  /** The user's rows, carrying the flag when one is named. */
  function UserRows(rows: seq<PermRow>, user: string, f: Option<Flag>): (r: seq<PermRow>)
    ensures forall x :: x in r <==> x in rows && x.parent == user && x.parentType == "User" && (f.None? || Has(x.flags, f.value))
    ensures multiset(r) <= multiset(rows)
  {
    if rows == [] then []
    else
      var k := |rows| - 1;
      var x := rows[k];
      assert rows == rows[..k] + [x];
      UserRows(rows[..k], user, f) + (if x.parent == user && x.parentType == "User" && (f.None? || Has(x.flags, f.value)) then [x] else [])
  }

  /** The rows whose department is among the names. */
  function InDepartments(rows: seq<PermRow>, names: seq<string>): (r: seq<PermRow>)
    ensures forall x :: x in r <==> x in rows && x.department in names
    ensures multiset(r) <= multiset(rows)
  {
    if rows == [] then []
    else
      var k := |rows| - 1;
      var x := rows[k];
      assert rows == rows[..k] + [x];
      InDepartments(rows[..k], names) + (if x.department in names then [x] else [])
  }

  predicate DepartmentBefore(a: PermRow, b: PermRow)
  {
    StrLt(a.department, b.department)
  }

  lemma DepartmentOrderStrict()
    ensures StrictOrder((a: PermRow, b: PermRow) => DepartmentBefore(a, b))
  {
    forall a: PermRow
      ensures !DepartmentBefore(a, a)
    {
      StrLtIrreflexive(a.department);
    }
    forall a: PermRow, b: PermRow, c: PermRow | DepartmentBefore(a, b) && DepartmentBefore(b, c)
      ensures DepartmentBefore(a, c)
    {
      StrLtTransitive(a.department, b.department, c.department);
    }
  }

  /** The entry a bypassing user gets for each Department: every flag set. */
  function FullAccess(name: string): PermRow
  {
    PermRow("", "", "", name, ALL_FLAGS, None, None, "")
  }

  /** `get_user_department_permissions`; an empty `flag` stands for no flag. */
  function UserDepartmentPermissions(user: string, userRoles: seq<string>, flag: string, includeInactive: bool,
                                     departments: seq<Department>, rows: seq<PermRow>): (r: Result<seq<PermRow>>)
    ensures r.Err? <==> !Bypasses(user, userRoles) && flag != "" && flag !in PERMISSION_FLAGS
  {
    if Bypasses(user, userRoles) then
      var names := Listed(departments, includeInactive);
      Ok(seq(|names|, i requires 0 <= i < |names| => FullAccess(names[i])))
    else
      var f: Result<Option<Flag>> := if flag == "" then Ok(None) else
        match ValidateFlag(flag) case Err(e) => Err(e) case Ok(g) => Ok(Some(g));
      if f.Err? then Err(f.error)
      else
        var mine := SortedUserRows(rows, user, f.value);
        if includeInactive || mine == [] then Ok(mine)
        else
          var names := DepartmentsOf(mine);
          if names == [] then Ok([])
          else
            Ok(InDepartments(mine, ActiveAmong(departments, names)))
  }

  /** Rows sorted by department. */
  predicate DepartmentSorted(rows: seq<PermRow>)
  {
    forall i, j | 0 <= i < j < |rows| :: !DepartmentBefore(rows[j], rows[i])
  }

  /** The user's own rows (`order_by="department asc"`): exactly those rows, sorted by department. */
  function SortedUserRows(rows: seq<PermRow>, user: string, f: Option<Flag>): (r: seq<PermRow>)
    ensures DepartmentSorted(r)
    ensures forall x :: x in r <==> x in UserRows(rows, user, f)
  {
    DepartmentOrderStrict();
    var r := SortBy(UserRows(rows, user, f), (a: PermRow, b: PermRow) => DepartmentBefore(a, b));
    assert forall x :: x in r <==> x in multiset(r);
    assert forall x :: x in UserRows(rows, user, f) <==> x in multiset(UserRows(rows, user, f));
    r
  }

  /** The last row of a sorted list comes after every kept earlier row. */
  lemma LastAfterKept(rows: seq<PermRow>, names: seq<string>, prev: seq<PermRow>)
    requires DepartmentSorted(rows) && rows != []
    requires prev == InDepartments(rows[..|rows| - 1], names)
    ensures forall x | x in prev :: !DepartmentBefore(rows[|rows| - 1], x)
  {
    var k := |rows| - 1;
    forall x | x in prev
      ensures !DepartmentBefore(rows[k], x)
    {
      var m :| 0 <= m < k && rows[..k][m] == x;
      assert rows[m] == x;
    }
  }

  /** Keeping some rows of a list sorted by department keeps it sorted. */
  lemma {:induction false} InDepartmentsSorted(rows: seq<PermRow>, names: seq<string>)
    requires DepartmentSorted(rows)
    ensures DepartmentSorted(InDepartments(rows, names))
  {
    if rows != [] {
      var k := |rows| - 1;
      assert DepartmentSorted(rows[..k]);
      InDepartmentsSorted(rows[..k], names);
      var prev := InDepartments(rows[..k], names);
      LastAfterKept(rows, names, prev);
      var r := InDepartments(rows, names);
      assert r == prev + (if rows[k].department in names then [rows[k]] else []);
      forall i, j | 0 <= i < j < |r|
        ensures !DepartmentBefore(r[j], r[i])
      {
        if j == |prev| {
          assert r[i] == prev[i] && prev[i] in prev;
        } else {
          assert r[i] == prev[i] && r[j] == prev[j];
        }
      }
    }
  }

  /** Bypassing users get every listed Department with all seven flags set. */
  lemma UserDepartmentPermissionsBypass(user: string, userRoles: seq<string>, flag: string, includeInactive: bool,
                                        departments: seq<Department>, rows: seq<PermRow>)
    requires Bypasses(user, userRoles)
    ensures var r := UserDepartmentPermissions(user, userRoles, flag, includeInactive, departments, rows);
      r.Ok? &&
      (forall e | e in r.value :: e.flags == ALL_FLAGS) &&
      (forall n :: (exists e | e in r.value :: e.department == n) <==> n in Listed(departments, includeInactive))
  {
    var r := UserDepartmentPermissions(user, userRoles, flag, includeInactive, departments, rows);
    var names := Listed(departments, includeInactive);
    forall n
      ensures (exists e | e in r.value :: e.department == n) <==> n in names
    {
      if n in names {
        var i :| 0 <= i < |names| && names[i] == n;
        assert r.value[i].department == n;
      }
    }
  }

  /**
   * Other users get exactly their own rows with the flag (when named), on
   * active, non-empty departments unless `includeInactive`, sorted by
   * department.
   */
  lemma UserDepartmentPermissionsMeans(user: string, userRoles: seq<string>, flag: string, includeInactive: bool,
                                       departments: seq<Department>, rows: seq<PermRow>, x: PermRow)
    requires !Bypasses(user, userRoles)
    ensures var r := UserDepartmentPermissions(user, userRoles, flag, includeInactive, departments, rows);
      r.Ok? ==> DepartmentSorted(r.value)
    ensures var r := UserDepartmentPermissions(user, userRoles, flag, includeInactive, departments, rows);
      r.Ok? ==>
        (x in r.value <==>
          x in rows && x.parent == user && x.parentType == "User"
          && (flag == "" || Has(x.flags, ValidateFlag(flag).value))
          && (includeInactive || (x.department != "" && IsActive(departments, x.department))))
  {
    var r := UserDepartmentPermissions(user, userRoles, flag, includeInactive, departments, rows);
    if r.Ok? {
      var f := if flag == "" then None else Some(ValidateFlag(flag).value);
      var mine := SortedUserRows(rows, user, f);
      if !includeInactive && mine != [] {
        var names := DepartmentsOf(mine);
        if names == [] {
          if x in mine {
            assert x.department !in names;
          }
        } else {
          InDepartmentsSorted(mine, ActiveAmong(departments, names));
        }
      }
    }
  }

  // ---------------------------------------------------------------------
  // SQL conditions
  // ---------------------------------------------------------------------

  const DEPARTMENT_IN: string := "`tabDepartment`.`name` in ("

  /** A quoted SQL string literal: quotes and backslashes escaped with a backslash. */
  function Quote(s: string): (r: string)
    ensures |r| >= 2 && r[0] == '\'' && r[|r| - 1] == '\''
  {
    "'" + EscapeChars(s) + "'"
  }

  function EscapeChars(s: string): (r: string)
    ensures |r| >= |s|
  {
    if s == [] then ""
    else (if s[0] == '\'' || s[0] == '\\' then ['\\', s[0]] else [s[0]]) + EscapeChars(s[1..])
  }

  /** `build_department_filter_clause`. */
  function FilterClause(names: seq<string>): (r: string)
  {
    if names == [] then "1=2"
    else DEPARTMENT_IN + Join(seq(|names|, i requires 0 <= i < |names| => Quote(names[i])), ", ") + ")"
  }

  /** The clause matches nothing exactly for no departments; otherwise it is an `in` list. */
  lemma FilterClauseMeans(names: seq<string>)
    ensures FilterClause(names) == "1=2" <==> names == []
    ensures names != [] ==> IsPrefix(DEPARTMENT_IN, FilterClause(names)) && FilterClause(names)[|FilterClause(names)| - 1] == ')'
  {
    if names != [] {
      var r := FilterClause(names);
      assert r[..|DEPARTMENT_IN|] == DEPARTMENT_IN;
      assert r[0] == '`';
    }
  }

  /** `get_department_permission_clause` (active departments only). */
  function PermissionClause(user: string, userRoles: seq<string>, flag: string,
                            departments: seq<Department>, rows: seq<PermRow>): (r: Result<string>)
  {
    if Bypasses(user, userRoles) then Ok("")
    else
      match AccessibleDepartments(user, userRoles, flag, false, departments, rows)
      case Err(e) => Err(e)
      case Ok(names) => if names == [] then Ok("1=2") else Ok(FilterClause(names))
  }

  /** No condition exactly for bypassing users; the matching-nothing condition exactly when no department is reachable. */
  lemma PermissionClauseMeans(user: string, userRoles: seq<string>, flag: string,
                              departments: seq<Department>, rows: seq<PermRow>)
    ensures var r := PermissionClause(user, userRoles, flag, departments, rows);
      r == Ok("") <==> Bypasses(user, userRoles)
    ensures var r := PermissionClause(user, userRoles, flag, departments, rows);
      var a := AccessibleDepartments(user, userRoles, flag, false, departments, rows);
      !Bypasses(user, userRoles) ==>
        (r.Err? <==> flag !in PERMISSION_FLAGS) &&
        (r == Ok("1=2") <==> a.Ok? && a.value == [])
  {
    var a := AccessibleDepartments(user, userRoles, flag, false, departments, rows);
    AccessibleDepartmentsMeans(user, userRoles, flag, false, departments, rows, "");
    if a.Ok? && a.value != [] {
      FilterClauseMeans(a.value);
      assert FilterClause(a.value)[0] == '`';
    }
  }
}
