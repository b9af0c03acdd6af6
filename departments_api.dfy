// The Department REST endpoints: details, the accessible list, the
// hierarchy tree, bulk product assignment, reading and merging settings,
// and statistics.  Every endpoint asks the permission service first; the
// Department table, the Product Department rows and the Department
// Permission rows are values, and the two writing endpoints are methods of
// a `Site` holding the tables they change.

module DepartmentsApi {
  import opened Common
  import opened JsonValue
  import PermissionService
  import DepartmentDoc
  import PyDict

  /** A stored Department as the endpoints read it; "" stands for an empty parent. */
  datatype DepartmentRow = DepartmentRow(name: string, departmentName: string, departmentCode: string,
                                         departmentType: string, company: string, isActive: bool,
                                         parentDepartment: string, settings: DepartmentDoc.Settings)

  /** A Product Department row of a Product: the product is its parent. */
  datatype AllocationRow = AllocationRow(product: string, department: string, isPrimary: bool)

  /** The caller and every stored Department Permission row (of all users). */
  datatype Session = Session(user: string, roles: seq<string>, permissions: seq<PermissionService.PermRow>)

  const REQUIRED: string := "Department is required"
  const REQUIRED_STRIPPED: string := "Department is required."
  const VIEW_DENIED: string := "You do not have permission to view this department"
  const MODIFY_DENIED: string := "You do not have permission to modify this department"

  /** `frappe.get_doc` of a missing record. */
  function NotFound(doctype: string, name: string): string
  {
    doctype + " " + name + " not found"
  }

  /** The Department table as the permission service sees it. */
  function View(rows: seq<DepartmentRow>): (r: seq<PermissionService.Department>)
    ensures |r| == |rows|
    ensures forall i :: 0 <= i < |rows| ==> r[i] == PermissionService.Department(rows[i].name, rows[i].isActive, rows[i].company)
  {
    seq(|rows|, i requires 0 <= i < |rows| => PermissionService.Department(rows[i].name, rows[i].isActive, rows[i].company))
  }

  /** Some stored row with the name is active. */
  predicate ActiveRow(rows: seq<DepartmentRow>, name: string)
  {
    exists i :: 0 <= i < |rows| && rows[i].name == name && rows[i].isActive
  }

  // ---------------------------------------------------------------------
  // The permission gate every endpoint starts with
  // ---------------------------------------------------------------------

  /**
   * `has_department_permission(user, department, flag)` refusing with
   * `denial`: a bypassing user passes, anyone else needs an active
   * department granted to them with the flag.
   */
  function Gate(s: Session, rows: seq<DepartmentRow>, department: string, flag: PermissionService.Flag, denial: string)
    : (r: Option<string>)
    ensures r.Some? ==> r.value == denial
    ensures r.None? <==>
      PermissionService.Bypasses(s.user, s.roles)
      || (department != "" && ActiveRow(rows, department) && PermissionService.Granted(s.user, s.permissions, flag, department))
  {
    PermissionService.FlagsRoundTrip(flag);
    var view := View(rows);
    assert PermissionService.IsActive(view, department) <==> ActiveRow(rows, department) by {
      if ActiveRow(rows, department) {
        var i :| 0 <= i < |rows| && rows[i].name == department && rows[i].isActive;
        assert view[i] in view;
      }
      if PermissionService.IsActive(view, department) {
        var d :| d in view && d.name == department && d.isActive;
        var i :| 0 <= i < |view| && view[i] == d;
      }
    }
    match PermissionService.HasDepartmentPermission(s.user, s.roles, department, PermissionService.FlagName(flag), false,
                                                    view, s.permissions)
    case Err(_) => Some(denial)
    case Ok(allowed) => if allowed then None else Some(denial)
  }

  /** The first stored row with the name. */
  function FindRow(rows: seq<DepartmentRow>, name: string): (r: Option<nat>)
    ensures r.None? <==> forall i :: 0 <= i < |rows| ==> rows[i].name != name
    ensures r.Some? ==> r.value < |rows| && rows[r.value].name == name
    ensures r.Some? ==> forall i :: 0 <= i < r.value ==> rows[i].name != name
  {
    if rows == [] then None
    else if rows[0].name == name then Some(0)
    else match FindRow(rows[1..], name)
      case None => None
      case Some(i) => Some(i + 1)
  }

  // ---------------------------------------------------------------------
  // get_products and get_users of the Department controller
  // ---------------------------------------------------------------------

  /** Primary rows first, then by product name. */
  predicate PrimaryFirst(a: AllocationRow, b: AllocationRow)
  {
    (a.isPrimary && !b.isPrimary) || (a.isPrimary == b.isPrimary && StrLt(a.product, b.product))
  }

  lemma PrimaryFirstOrder()
    ensures StrictOrder(PrimaryFirst)
  {
    forall a: AllocationRow ensures !PrimaryFirst(a, a) {
      StrLtIrreflexive(a.product);
    }
    forall a: AllocationRow, b: AllocationRow, c: AllocationRow | PrimaryFirst(a, b) && PrimaryFirst(b, c)
      ensures PrimaryFirst(a, c)
    {
      if a.isPrimary == b.isPrimary == c.isPrimary {
        StrLtTransitive(a.product, b.product, c.product);
      }
    }
  }

  /** The rows allocating products to the department, in stored order. */
  function AllocationsTo(allocations: seq<AllocationRow>, department: string): (r: seq<AllocationRow>)
    ensures forall x :: x in r <==> x in allocations && x.department == department
  {
    if allocations == [] then []
    else
      var k := |allocations| - 1;
      assert allocations == allocations[..k] + [allocations[k]];
      AllocationsTo(allocations[..k], department) + (if allocations[k].department == department then [allocations[k]] else [])
  }

  /** `get_products`: the department's product rows, primary ones first, then by product. */
  function ProductsOf(allocations: seq<AllocationRow>, department: string): (r: seq<AllocationRow>)
    ensures SortedBy(r, PrimaryFirst)
    ensures multiset(r) == multiset(AllocationsTo(allocations, department))
  {
    PrimaryFirstOrder();
    SortBy(AllocationsTo(allocations, department), PrimaryFirst)
  }

  predicate ParentLt(a: PermissionService.PermRow, b: PermissionService.PermRow)
  {
    StrLt(a.parent, b.parent)
  }

  lemma ParentLtOrder()
    ensures StrictOrder(ParentLt)
  {
    forall a: PermissionService.PermRow ensures !ParentLt(a, a) {
      StrLtIrreflexive(a.parent);
    }
    forall a: PermissionService.PermRow, b: PermissionService.PermRow, c: PermissionService.PermRow
      | ParentLt(a, b) && ParentLt(b, c)
      ensures ParentLt(a, c)
    {
      StrLtTransitive(a.parent, b.parent, c.parent);
    }
  }

  /** A user's row granting read access to the department. */
  predicate ReadsDepartment(x: PermissionService.PermRow, department: string)
  {
    x.department == department && x.parentType == "User" && x.flags.read
  }

  /** The read-granting user rows of the department, in stored order. */
  function ReadersOf(permissions: seq<PermissionService.PermRow>, department: string): (r: seq<PermissionService.PermRow>)
    ensures forall x :: x in r <==> x in permissions && ReadsDepartment(x, department)
  {
    if permissions == [] then []
    else
      var k := |permissions| - 1;
      assert permissions == permissions[..k] + [permissions[k]];
      ReadersOf(permissions[..k], department) + (if ReadsDepartment(permissions[k], department) then [permissions[k]] else [])
  }

  /** `get_users`: the department's read-granting user rows by user. */
  function UsersOf(permissions: seq<PermissionService.PermRow>, department: string): (r: seq<PermissionService.PermRow>)
    ensures SortedBy(r, ParentLt)
    ensures multiset(r) == multiset(ReadersOf(permissions, department))
  {
    ParentLtOrder();
    SortBy(ReadersOf(permissions, department), ParentLt)
  }

  // ---------------------------------------------------------------------
  // get_department_details
  // ---------------------------------------------------------------------

  datatype Details = Details(department: DepartmentRow, products: seq<AllocationRow>, users: seq<PermissionService.PermRow>,
                             productCount: nat, userCount: nat)

  /**
   * `get_department_details`: the name is required, then read permission,
   * then the record; the product and user lists come from `get_products`
   * and `get_users` on the stripped name, which refuse an empty one.
   */
  function GetDepartmentDetails(s: Session, rows: seq<DepartmentRow>, allocations: seq<AllocationRow>, department: string)
    : (r: Result<Details>)
    ensures department == "" ==> r == Err(REQUIRED)
    ensures department != "" && Gate(s, rows, department, PermissionService.CanRead, VIEW_DENIED).Some? ==> r == Err(VIEW_DENIED)
    ensures r.Ok? ==>
      && Gate(s, rows, department, PermissionService.CanRead, VIEW_DENIED).None?
      && r.value.department in rows && r.value.department.name == department
      && r.value.productCount == |r.value.products| && r.value.userCount == |r.value.users|
      && (forall x :: x in r.value.products <==> x in allocations && x.department == Strip(department))
      && (forall x :: x in r.value.users <==> x in s.permissions && ReadsDepartment(x, Strip(department)))
  {
    if department == "" then Err(REQUIRED)
    else if Gate(s, rows, department, PermissionService.CanRead, VIEW_DENIED).Some? then Err(VIEW_DENIED)
    else match FindRow(rows, department)
      case None => Err(NotFound("Department", department))
      case Some(i) =>
        var key := Strip(department);
        if key == "" then Err(REQUIRED_STRIPPED)
        else
          var products := ProductsOf(allocations, key);
          var users := UsersOf(s.permissions, key);
          SameElements(products, AllocationsTo(allocations, key));
          SameElements(users, ReadersOf(s.permissions, key));
          Ok(Details(rows[i], products, users, |products|, |users|))
  }

  /** Two sequences with the same multiset have the same elements. */
  lemma SameElements<T>(a: seq<T>, b: seq<T>)
    requires multiset(a) == multiset(b)
    ensures forall x :: x in a <==> x in b
  {
    forall x ensures x in a <==> x in b {
      assert x in a <==> x in multiset(a);
      assert x in b <==> x in multiset(b);
    }
  }

  // ---------------------------------------------------------------------
  // get_accessible_departments
  // ---------------------------------------------------------------------

  predicate NameLt(a: DepartmentRow, b: DepartmentRow)
  {
    StrLt(a.departmentName, b.departmentName)
  }

  lemma NameLtOrder()
    ensures StrictOrder(NameLt)
  {
    forall a: DepartmentRow ensures !NameLt(a, a) {
      StrLtIrreflexive(a.departmentName);
    }
    forall a: DepartmentRow, b: DepartmentRow, c: DepartmentRow | NameLt(a, b) && NameLt(b, c) ensures NameLt(a, c) {
      StrLtTransitive(a.departmentName, b.departmentName, c.departmentName);
    }
  }

  /** The stored rows whose names are among `names`, in stored order. */
  function RowsNamed(rows: seq<DepartmentRow>, names: seq<string>): (r: seq<DepartmentRow>)
    ensures forall x :: x in r <==> x in rows && x.name in names
  {
    if rows == [] then []
    else
      var k := |rows| - 1;
      assert rows == rows[..k] + [rows[k]];
      RowsNamed(rows[..k], names) + (if rows[k].name in names then [rows[k]] else [])
  }

  /** The accessible departments' rows by department name. */
  function AccessibleRows(rows: seq<DepartmentRow>, names: seq<string>): (r: seq<DepartmentRow>)
    ensures SortedBy(r, NameLt)
    ensures forall x :: x in r <==> x in rows && x.name in names
  {
    NameLtOrder();
    var r := SortBy(RowsNamed(rows, names), NameLt);
    SameElements(r, RowsNamed(rows, names));
    r
  }

  /** The names the permission service offers the caller, active departments only. */
  function Accessible(s: Session, rows: seq<DepartmentRow>, flag: string): Result<seq<string>>
  {
    PermissionService.AccessibleDepartments(s.user, s.roles, flag, false, View(rows), s.permissions)
  }

  /**
   * `get_accessible_departments`: none offered gives an empty list;
   * otherwise the offered departments' rows by department name.  An
   * unknown flag is refused by the permission service.
   */
  function GetAccessibleDepartments(s: Session, rows: seq<DepartmentRow>, flag: string): (r: Result<seq<DepartmentRow>>)
    ensures Accessible(s, rows, flag).Err? <==> r.Err?
    ensures Accessible(s, rows, flag) == Ok([]) ==> r == Ok([])
    ensures r.Ok? ==> SortedBy(r.value, NameLt)
    ensures r.Ok? ==> forall x :: x in r.value <==> x in rows && x.name in Accessible(s, rows, flag).value
  {
    match Accessible(s, rows, flag)
    case Err(e) => Err(e)
    case Ok(names) => if names == [] then Ok([]) else Ok(AccessibleRows(rows, names))
  }

  // ---------------------------------------------------------------------
  // get_department_hierarchy
  // ---------------------------------------------------------------------

  /** A department with its sub-tree; `hasChildren` is the flag the endpoint adds. */
  datatype Node = Node(row: DepartmentRow, children: seq<Node>, hasChildren: bool)

  /** A row the hierarchy shows under `parent`: accessible, active, with that parent ("" for the top level). */
  predicate Shown(x: DepartmentRow, accessible: seq<string>, parent: string)
  {
    x.name in accessible && x.isActive && x.parentDepartment == parent
  }

  /** The rows shown under `parent`, in stored order. */
  function ShownRows(rows: seq<DepartmentRow>, accessible: seq<string>, parent: string): (r: seq<DepartmentRow>)
    ensures forall x :: x in r <==> x in rows && Shown(x, accessible, parent)
  {
    if rows == [] then []
    else
      var k := |rows| - 1;
      assert rows == rows[..k] + [rows[k]];
      ShownRows(rows[..k], accessible, parent) + (if Shown(rows[k], accessible, parent) then [rows[k]] else [])
  }

  /** The query of one level: the shown rows by department name. */
  function Selected(rows: seq<DepartmentRow>, accessible: seq<string>, parent: string): (r: seq<DepartmentRow>)
    ensures SortedBy(r, NameLt)
    ensures forall x :: x in r <==> x in rows && Shown(x, accessible, parent)
  {
    NameLtOrder();
    var r := SortBy(ShownRows(rows, accessible, parent), NameLt);
    SameElements(r, ShownRows(rows, accessible, parent));
    r
  }

  /**
   * The departments shown under `parent`, by name, each with `fuel` more
   * levels of the tree below it.
   */
  function Tree(rows: seq<DepartmentRow>, accessible: seq<string>, parent: string, fuel: nat): (r: seq<Node>)
  {
    Nodes(rows, accessible, Selected(rows, accessible, parent), fuel)
  }

  /** The children of a department with `fuel` levels left: none when it is spent, else its tree one level down. */
  function Level(rows: seq<DepartmentRow>, accessible: seq<string>, parent: string, fuel: nat): (r: seq<Node>)
    ensures fuel == 0 ==> r == []
    ensures fuel > 0 ==> forall x :: (exists n :: n in r && n.row == x) <==> x in rows && Shown(x, accessible, parent)
    ensures |r| <= |ChildRows(rows, parent)|
  {
    if fuel == 0 then []
    else
      TreeRows(rows, accessible, parent, fuel - 1);
      TreeWithinChildCount(rows, accessible, parent, fuel - 1);
      Tree(rows, accessible, parent, fuel - 1)
  }

  /**
   * The nodes of a level's rows, in the rows' order: each row with the
   * level below it (the `Level` of its name) as its children.
   */
  function Nodes(rows: seq<DepartmentRow>, accessible: seq<string>, level: seq<DepartmentRow>, fuel: nat): (r: seq<Node>)
    ensures |r| == |level|
    ensures forall i :: 0 <= i < |level| ==> r[i].row == level[i]
    decreases fuel, |level|
  {
    if level == [] then []
    else
      var children := if fuel == 0 then [] else Nodes(rows, accessible, Selected(rows, accessible, level[0].name), fuel - 1);
      [Node(level[0], children, children != [])] + Nodes(rows, accessible, level[1..], fuel)
  }

  /**
   * Every node of a tree is shown under its parent, has the level below
   * its own row as its children, and says in `hasChildren` whether there
   * are any; the nodes are sorted by name.
   */
  lemma TreeOk(rows: seq<DepartmentRow>, accessible: seq<string>, parent: string, fuel: nat)
    ensures var r := Tree(rows, accessible, parent, fuel);
      && (forall n :: n in r ==> Shown(n.row, accessible, parent))
      && (forall n :: n in r ==> n.children == Level(rows, accessible, n.row.name, fuel))
      && (forall n :: n in r ==> (n.hasChildren <==> n.children != []))
      && (forall i, j :: 0 <= i < j < |r| ==> !NameLt(r[j].row, r[i].row))
  {
    NodesChildren(rows, accessible, Selected(rows, accessible, parent), fuel);
    TreeShownSorted(rows, accessible, parent, fuel);
  }

  /** Each node of a level's nodes has the level below its row as children, and says whether there are any. */
  lemma NodesChildren(rows: seq<DepartmentRow>, accessible: seq<string>, level: seq<DepartmentRow>, fuel: nat)
    ensures forall n :: n in Nodes(rows, accessible, level, fuel) ==>
      n.children == Level(rows, accessible, n.row.name, fuel) && (n.hasChildren <==> n.children != [])
  {
    var r := Nodes(rows, accessible, level, fuel);
    forall n | n in r ensures n.children == Level(rows, accessible, n.row.name, fuel) && (n.hasChildren <==> n.children != []) {
      var i :| 0 <= i < |r| && r[i] == n;
      NodeAt(rows, accessible, level, fuel, i);
    }
  }

  /** A tree's nodes are its shown rows, sorted by name. */
  lemma TreeShownSorted(rows: seq<DepartmentRow>, accessible: seq<string>, parent: string, fuel: nat)
    ensures forall n :: n in Tree(rows, accessible, parent, fuel) ==> Shown(n.row, accessible, parent)
    ensures var r := Tree(rows, accessible, parent, fuel);
      forall i, j :: 0 <= i < j < |r| ==> !NameLt(r[j].row, r[i].row)
  {
    var level := Selected(rows, accessible, parent);
    var r := Tree(rows, accessible, parent, fuel);
    forall n | n in r ensures Shown(n.row, accessible, parent) {
      var i :| 0 <= i < |r| && r[i] == n;
      assert n.row == level[i] && level[i] in level;
    }
    forall i, j | 0 <= i < j < |r| ensures !NameLt(r[j].row, r[i].row) {
      assert r[i].row == level[i] && r[j].row == level[j];
    }
  }

  /** The node at `i` of a level's nodes has the level below its row as children, and says whether there are any. */
  lemma {:induction false} NodeAt(rows: seq<DepartmentRow>, accessible: seq<string>, level: seq<DepartmentRow>, fuel: nat, i: nat)
    requires i < |level|
    ensures var n := Nodes(rows, accessible, level, fuel)[i];
      n.children == Level(rows, accessible, level[i].name, fuel) && (n.hasChildren <==> n.children != [])
    decreases i
  {
    var r := Nodes(rows, accessible, level, fuel);
    var tail := Nodes(rows, accessible, level[1..], fuel);
    if i > 0 {
      assert r[i] == tail[i - 1] && level[i] == level[1..][i - 1];
      NodeAt(rows, accessible, level[1..], fuel, i - 1);
    }
  }

  /** The rows of a tree's top level are exactly the shown rows. */
  lemma TreeRows(rows: seq<DepartmentRow>, accessible: seq<string>, parent: string, fuel: nat)
    ensures forall x :: (exists n :: n in Tree(rows, accessible, parent, fuel) && n.row == x) <==> x in rows && Shown(x, accessible, parent)
  {
    var level := Selected(rows, accessible, parent);
    var r := Tree(rows, accessible, parent, fuel);
    forall x ensures (exists n :: n in r && n.row == x) <==> x in level {
      if x in level {
        var i :| 0 <= i < |level| && level[i] == x;
        assert r[i] in r;
      }
    }
  }

  /**
   * `get_department_hierarchy`: the caller's readable departments; none
   * gives an empty list, otherwise the tree below `department` ("" for the
   * top level), with as many levels below it as there are stored rows.
   */
  function GetDepartmentHierarchy(s: Session, rows: seq<DepartmentRow>, department: string): (r: Result<seq<Node>>)
    ensures r.Ok? <==> Accessible(s, rows, "can_read").Ok?
    ensures Accessible(s, rows, "can_read") == Ok([]) ==> r == Ok([])
    ensures r.Ok? ==> |r.value| <= |ChildRows(rows, department)|
  {
    match Accessible(s, rows, "can_read")
    case Err(e) => Err(e)
    case Ok(accessible) =>
      if accessible == [] then Ok([])
      else
        TreeWithinChildCount(rows, accessible, department, |rows|);
        Ok(Tree(rows, accessible, department, |rows|))
  }

  /**
   * The hierarchy lists every accessible, active department whose parent is
   * `department` (the parentless ones at the top level) and nothing else,
   * by name; each node's children are the same query one level down for
   * its own row, and its `hasChildren` holds exactly when they are non-empty.
   */
  lemma HierarchyMeans(s: Session, rows: seq<DepartmentRow>, department: string)
    ensures GetDepartmentHierarchy(s, rows, department).Ok?
    ensures Accessible(s, rows, "can_read") == Ok([]) ==> GetDepartmentHierarchy(s, rows, department) == Ok([])
    ensures var r := GetDepartmentHierarchy(s, rows, department).value;
      && (forall i, j :: 0 <= i < j < |r| ==> !NameLt(r[j].row, r[i].row))
      && (forall n :: n in r ==> n.children == Level(rows, Accessible(s, rows, "can_read").value, n.row.name, |rows|))
      && (forall n :: n in r ==> (n.hasChildren <==> n.children != []))
      && (forall x :: (exists n :: n in r && n.row == x) <==>
            x in rows && Shown(x, Accessible(s, rows, "can_read").value, department))
  {
    PermissionService.FlagsRoundTrip(PermissionService.CanRead);
    var a := Accessible(s, rows, "can_read");
    PermissionService.AccessibleDepartmentsMeans(s.user, s.roles, "can_read", false, View(rows), s.permissions, "");
    if a.value != [] {
      TreeOk(rows, a.value, department, |rows|);
      TreeRows(rows, a.value, department, |rows|);
    }
  }

  /** The rows whose parent is the department, whatever their status or access. */
  function ChildRows(rows: seq<DepartmentRow>, department: string): (r: seq<DepartmentRow>)
    ensures forall x :: x in r <==> x in rows && x.parentDepartment == department
  {
    if rows == [] then []
    else
      var k := |rows| - 1;
      assert rows == rows[..k] + [rows[k]];
      ChildRows(rows[..k], department) + (if rows[k].parentDepartment == department then [rows[k]] else [])
  }

  // ---------------------------------------------------------------------
  // get_department_statistics
  // ---------------------------------------------------------------------

  datatype Statistics = Statistics(department: string, productCount: nat, userCount: nat, inventoryValue: real,
                                   childDepartmentCount: nat)

  /**
   * `get_department_statistics`: read permission, then the counts of the
   * department's product rows, of its read-granting user rows and of the
   * departments whose parent it is (any status).  `inventoryTotal` is the
   * inventory value query's answer: None when the table is missing or the
   * sum is empty, both of which give 0.
   */
  function GetDepartmentStatistics(s: Session, rows: seq<DepartmentRow>, allocations: seq<AllocationRow>, department: string,
                                   inventoryTotal: Option<real>): (r: Result<Statistics>)
    ensures Gate(s, rows, department, PermissionService.CanRead, VIEW_DENIED).Some? <==> r == Err(VIEW_DENIED)
    ensures r.Ok? ==>
      && r.value.department == department
      && r.value.productCount == |AllocationsTo(allocations, department)|
      && r.value.userCount == |ReadersOf(s.permissions, department)|
      && r.value.childDepartmentCount == |ChildRows(rows, department)|
      && r.value.inventoryValue == (if inventoryTotal.Some? then inventoryTotal.value else 0.0)
  {
    if Gate(s, rows, department, PermissionService.CanRead, VIEW_DENIED).Some? then Err(VIEW_DENIED)
    else
      var value := if inventoryTotal.Some? && inventoryTotal.value != 0.0 then inventoryTotal.value else 0.0;
      Ok(Statistics(department, |AllocationsTo(allocations, department)|, |ReadersOf(s.permissions, department)|, value,
                    |ChildRows(rows, department)|))
  }

  /** For a stripped name, the statistics count the very products and users the details list. */
  lemma StatisticsAgreeWithDetails(s: Session, rows: seq<DepartmentRow>, allocations: seq<AllocationRow>, department: string,
                                   inventoryTotal: Option<real>)
    requires Strip(department) == department
    requires GetDepartmentDetails(s, rows, allocations, department).Ok?
    ensures GetDepartmentStatistics(s, rows, allocations, department, inventoryTotal).Ok?
    ensures var d := GetDepartmentDetails(s, rows, allocations, department).value;
      var st := GetDepartmentStatistics(s, rows, allocations, department, inventoryTotal).value;
      st.productCount == d.productCount && st.userCount == d.userCount
  {
    var products := ProductsOf(allocations, department);
    var users := UsersOf(s.permissions, department);
    assert |multiset(products)| == |multiset(AllocationsTo(allocations, department))|;
    assert |multiset(users)| == |multiset(ReadersOf(s.permissions, department))|;
  }

  /** Shown rows are among the children, so each level is no longer than the child count. */
  lemma {:induction false} ShownAmongChildren(rows: seq<DepartmentRow>, accessible: seq<string>, parent: string)
    ensures |ShownRows(rows, accessible, parent)| <= |ChildRows(rows, parent)|
  {
    if rows != [] {
      ShownAmongChildren(rows[..|rows| - 1], accessible, parent);
    }
  }

  /** The hierarchy below a department never lists more departments than the statistics count as its children. */
  lemma TreeWithinChildCount(rows: seq<DepartmentRow>, accessible: seq<string>, parent: string, fuel: nat)
    ensures |Tree(rows, accessible, parent, fuel)| <= |ChildRows(rows, parent)|
  {
    ShownAmongChildren(rows, accessible, parent);
    var shown := ShownRows(rows, accessible, parent);
    assert |multiset(Selected(rows, accessible, parent))| == |multiset(shown)| by {
      NameLtOrder();
    }
  }

  // ---------------------------------------------------------------------
  // get_department_settings
  // ---------------------------------------------------------------------

  const DECODE_ERROR: string := "JSONDecodeError: Expecting value"
  const NO_UPDATE: string := "AttributeError: object has no attribute 'update'"

  /** The Department record the settings helpers see: the first row with the name, if any. */
  function EnvOf(rows: seq<DepartmentRow>, department: string): (env: DepartmentDoc.Env)
    ensures department in env.departments <==> FindRow(rows, department).Some?
    ensures department in env.departments ==>
      env.departments[department].settings == rows[FindRow(rows, department).value].settings
  {
    match FindRow(rows, department)
    case None => DepartmentDoc.Env(map[], map[])
    case Some(i) =>
      var x := rows[i];
      DepartmentDoc.Env(map[department := DepartmentDoc.StoredDepartment(x.departmentCode, x.company, x.parentDepartment,
                                                                          x.isActive, x.settings, "")], map[])
  }

  /** `get_department_setting(department, key)` with no default. */
  function StoredSetting(rows: seq<DepartmentRow>, department: string, key: string): Result<Json>
  {
    DepartmentDoc.GetSetting(EnvOf(rows, department), department, key, JNull)
  }

  /** All settings as stored: an empty object for a missing record or empty settings; text is decoded. */
  function AllSettings(rows: seq<DepartmentRow>, department: string): Result<Json>
  {
    match FindRow(rows, department)
    case None => Ok(JObj([]))
    case Some(i) =>
      match rows[i].settings
      case NoSettings => Ok(JObj([]))
      case Dict(fields) => Ok(JObj(fields))
      case Text(parsed) => if parsed.None? then Err(DECODE_ERROR) else Ok(parsed.value)
  }

  /** `get_department_settings`: read permission, then one setting when a key is given, else all of them. */
  function GetDepartmentSettings(s: Session, rows: seq<DepartmentRow>, department: string, key: string): (r: Result<Json>)
    ensures Gate(s, rows, department, PermissionService.CanRead, VIEW_DENIED).Some? ==> r == Err(VIEW_DENIED)
    ensures Gate(s, rows, department, PermissionService.CanRead, VIEW_DENIED).None? ==>
      r == (if key != "" then StoredSetting(rows, department, key) else AllSettings(rows, department))
  {
    if Gate(s, rows, department, PermissionService.CanRead, VIEW_DENIED).Some? then Err(VIEW_DENIED)
    else if key != "" then StoredSetting(rows, department, key)
    else AllSettings(rows, department)
  }

  /**
   * The two ways of reading agree on object settings: one key reads what
   * the whole object holds under it, or null.  Undecodable text reads as
   * null by key but fails as a whole; other JSON fails by key.
   */
  lemma SettingsPathsAgree(rows: seq<DepartmentRow>, department: string, key: string)
    ensures AllSettings(rows, department).Ok? && AllSettings(rows, department).value.JObj? ==>
      StoredSetting(rows, department, key) ==
        Ok(match Lookup(AllSettings(rows, department).value.fields, key) case None => JNull case Some(v) => v)
    ensures AllSettings(rows, department).Err? ==> StoredSetting(rows, department, key) == Ok(JNull)
    ensures AllSettings(rows, department).Ok? && !AllSettings(rows, department).value.JObj? ==>
      StoredSetting(rows, department, key).Err?
  {
    match FindRow(rows, department)
    case None =>
    case Some(i) =>
      var env := EnvOf(rows, department);
      assert env.departments[department].settings == rows[i].settings;
  }

  // ---------------------------------------------------------------------
  // update_department_settings
  // ---------------------------------------------------------------------

  /** The settings `update` starts from: empty settings give {}, text is decoded, and only an object can be updated. */
  function Existing(settings: DepartmentDoc.Settings): (r: Result<PyDict.Dict<Json>>)
    ensures settings.Dict? ==> r == Ok(settings.fields)
    ensures settings == DepartmentDoc.NoSettings ==> r == Ok([])
    ensures settings.Text? ==>
      (r.Ok? <==> settings.parsed.Some? && settings.parsed.value.JObj?)
      && (r.Ok? ==> r.value == settings.parsed.value.fields)
  {
    match settings
    case NoSettings => Ok([])
    case Dict(fields) => Ok(fields)
    case Text(parsed) =>
      match parsed
      case None => Err(DECODE_ERROR)
      case Some(v) => if v.JObj? then Ok(v.fields) else Err(NO_UPDATE)
  }

  /**
   * What `update_department_settings` computes for a record: the existing
   * settings updated with the new ones, and the settings text the save
   * writes after validating it.
   */
  function SettingsUpdate(row: DepartmentRow, updates: PyDict.Dict<Json>, table: seq<(string, DepartmentDoc.Kind)>)
    : Result<(PyDict.Dict<Json>, DepartmentDoc.Settings)>
  {
    match Existing(row.settings)
    case Err(e) => Err(e)
    case Ok(existing) =>
      var merged := PyDict.PutAll(existing, updates);
      match DepartmentDoc.SettingsOutcome(DepartmentDoc.Text(Some(JObj(merged))), table)
      case Err(e) => Err(e)
      case Ok(stored) => Ok((merged, stored))
  }

  /** Python reads a key of a dictionary the way `obj.get` reads it from an object. */
  lemma {:induction false} GetIsLookup(d: PyDict.Dict<Json>, key: string)
    ensures PyDict.Get(d, key) == Lookup(d, key)
  {
    if d != [] && d[0].0 != key {
      GetIsLookup(d[1..], key);
    }
  }

  /**
   * The merge: a key passed in reads its new value, every other existing
   * key reads as before, the keys are those of both, and no key appears
   * twice.
   */
  lemma MergeMeans(existing: PyDict.Dict<Json>, updates: PyDict.Dict<Json>, key: string)
    requires PyDict.DistinctKeys(existing) && PyDict.DistinctKeys(updates)
    ensures PyDict.DistinctKeys(PyDict.PutAll(existing, updates))
    ensures key in PyDict.KeysOf(PyDict.PutAll(existing, updates)) <==>
      key in PyDict.KeysOf(existing) || key in PyDict.KeysOf(updates)
    ensures key in PyDict.KeysOf(updates) ==> PyDict.Get(PyDict.PutAll(existing, updates), key) == PyDict.Get(updates, key)
    ensures key !in PyDict.KeysOf(updates) ==> PyDict.Get(PyDict.PutAll(existing, updates), key) == PyDict.Get(existing, key)
  {
    PyDict.PutAllKeys(existing, updates);
    PyDict.PutAllGet(existing, updates, key);
    PyDict.LastForNone(updates, key);
    if key in PyDict.KeysOf(updates) {
      var i := PyDict.LastForIndex(updates, key);
      PyDict.GetAt(updates, i);
    }
  }

  // ---------------------------------------------------------------------
  // assign_products_to_department
  // ---------------------------------------------------------------------

  const NO_PRODUCTS: string := "No products specified"
  const ALREADY_ASSIGNED: string := "Already assigned to department"

  /** A product the request could not assign, with the reason. */
  datatype Failure = Failure(product: string, reason: string)

  /** The endpoint's answer: the assigned products, the failures, and the number asked for. */
  datatype Tally = Tally(success: seq<string>, failed: seq<Failure>, total: nat)

  /** The tally so far and the Product Department rows after it. */
  datatype Progress = Progress(success: seq<string>, failed: seq<Failure>, allocations: seq<AllocationRow>)

  /** A row of the product allocates it to the department. */
  predicate Holds(allocations: seq<AllocationRow>, product: string, department: string)
  {
    exists k :: 0 <= k < |allocations| && allocations[k].product == product && allocations[k].department == department
  }

  /** The Product Department rows of one product, in stored order. */
  function RowsOfProduct(allocations: seq<AllocationRow>, product: string): (r: seq<AllocationRow>)
    ensures forall x :: x in r <==> x in allocations && x.product == product
  {
    if allocations == [] then []
    else
      var k := |allocations| - 1;
      assert allocations == allocations[..k] + [allocations[k]];
      RowsOfProduct(allocations[..k], product) + (if allocations[k].product == product then [allocations[k]] else [])
  }

  /**
   * One product of the request: a missing product fails with the lookup
   * error, one already allocated to the department fails, and otherwise
   * the row is appended and the product saved; a save that raises fails
   * with its message and stores nothing.  `saveError` is the error the
   * Product save raises with the given rows, if any.
   */
  function Step(p: Progress, known: set<string>, department: string, isPrimary: bool,
                saveError: (string, seq<AllocationRow>) -> Option<string>, product: string): Progress
  {
    if product !in known then Progress(p.success, p.failed + [Failure(product, NotFound("Product", product))], p.allocations)
    else if Holds(p.allocations, product, department) then
      Progress(p.success, p.failed + [Failure(product, ALREADY_ASSIGNED)], p.allocations)
    else
      var next := p.allocations + [AllocationRow(product, department, isPrimary)];
      match saveError(product, RowsOfProduct(next, product))
      case Some(e) => Progress(p.success, p.failed + [Failure(product, e)], p.allocations)
      case None => Progress(p.success + [product], p.failed, next)
  }

  /** The request's products handled in order. */
  function AssignAll(allocations: seq<AllocationRow>, known: set<string>, department: string, isPrimary: bool,
                     saveError: (string, seq<AllocationRow>) -> Option<string>, products: seq<string>): Progress
  {
    if products == [] then Progress([], [], allocations)
    else
      var k := |products| - 1;
      Step(AssignAll(allocations, known, department, isPrimary, saveError, products[..k]), known, department, isPrimary,
           saveError, products[k])
  }

  lemma AssignAllSnoc(allocations: seq<AllocationRow>, known: set<string>, department: string, isPrimary: bool,
                      saveError: (string, seq<AllocationRow>) -> Option<string>, products: seq<string>, product: string)
    ensures AssignAll(allocations, known, department, isPrimary, saveError, products + [product]) ==
      Step(AssignAll(allocations, known, department, isPrimary, saveError, products), known, department, isPrimary, saveError, product)
  {
    assert (products + [product])[..|products|] == products;
  }

  /** The products of the failures, in order. */
  function FailedProducts(failed: seq<Failure>): (r: seq<string>)
    ensures |r| == |failed|
    ensures forall i :: 0 <= i < |failed| ==> r[i] == failed[i].product
  {
    seq(|failed|, i requires 0 <= i < |failed| => failed[i].product)
  }

  /** The rows appended for the assigned products, in order. */
  function Added(success: seq<string>, department: string, isPrimary: bool): (r: seq<AllocationRow>)
    ensures |r| == |success|
    ensures forall i :: 0 <= i < |success| ==> r[i] == AllocationRow(success[i], department, isPrimary)
  {
    seq(|success|, i requires 0 <= i < |success| => AllocationRow(success[i], department, isPrimary))
  }

  /** One product either is assigned, appending its row, or fails and changes nothing else. */
  lemma StepCases(p: Progress, known: set<string>, department: string, isPrimary: bool,
                  saveError: (string, seq<AllocationRow>) -> Option<string>, product: string)
    ensures var q := Step(p, known, department, isPrimary, saveError, product);
      || (&& q.success == p.success + [product] && q.failed == p.failed
          && q.allocations == p.allocations + [AllocationRow(product, department, isPrimary)]
          && product in known && !Holds(p.allocations, product, department))
      || (&& q.success == p.success && q.allocations == p.allocations
          && exists reason :: q.failed == p.failed + [Failure(product, reason)])
  {
  }

  /**
   * Every requested product is either assigned or failed, once per time it
   * is asked for, and the stored rows gain exactly one row per assigned
   * product, in order.
   */
  lemma AssignAllCounts(allocations: seq<AllocationRow>, known: set<string>, department: string, isPrimary: bool,
                         saveError: (string, seq<AllocationRow>) -> Option<string>, products: seq<string>)
    ensures var r := AssignAll(allocations, known, department, isPrimary, saveError, products);
      && multiset(r.success) + multiset(FailedProducts(r.failed)) == multiset(products)
      && r.allocations == allocations + Added(r.success, department, isPrimary)
  {
    AssignAllTally(allocations, known, department, isPrimary, saveError, products);
    AssignAllRows(allocations, known, department, isPrimary, saveError, products);
  }

  lemma {:induction false} AssignAllTally(allocations: seq<AllocationRow>, known: set<string>, department: string, isPrimary: bool,
                                          saveError: (string, seq<AllocationRow>) -> Option<string>, products: seq<string>)
    ensures var r := AssignAll(allocations, known, department, isPrimary, saveError, products);
      multiset(r.success) + multiset(FailedProducts(r.failed)) == multiset(products)
  {
    if products != [] {
      var k := |products| - 1;
      var front := products[..k];
      var product := products[k];
      assert products == front + [product];
      AssignAllTally(allocations, known, department, isPrimary, saveError, front);
      var before := AssignAll(allocations, known, department, isPrimary, saveError, front);
      var r := AssignAll(allocations, known, department, isPrimary, saveError, products);
      assert r == Step(before, known, department, isPrimary, saveError, product);
      StepCases(before, known, department, isPrimary, saveError, product);
      if r.success != before.success {
        assert r.failed == before.failed;
      } else {
        var reason :| r.failed == before.failed + [Failure(product, reason)];
        FailedSnoc(before.failed, Failure(product, reason));
      }
    }
  }

  lemma {:induction false} AssignAllRows(allocations: seq<AllocationRow>, known: set<string>, department: string, isPrimary: bool,
                                         saveError: (string, seq<AllocationRow>) -> Option<string>, products: seq<string>)
    ensures var r := AssignAll(allocations, known, department, isPrimary, saveError, products);
      r.allocations == allocations + Added(r.success, department, isPrimary)
  {
    if products != [] {
      var k := |products| - 1;
      var front := products[..k];
      var product := products[k];
      AssignAllRows(allocations, known, department, isPrimary, saveError, front);
      var before := AssignAll(allocations, known, department, isPrimary, saveError, front);
      var r := AssignAll(allocations, known, department, isPrimary, saveError, products);
      assert r == Step(before, known, department, isPrimary, saveError, product);
      StepCases(before, known, department, isPrimary, saveError, product);
      if r.success != before.success {
        AddedSnoc(before.success, product, department, isPrimary);
      }
    }
  }

  lemma AddedSnoc(success: seq<string>, product: string, department: string, isPrimary: bool)
    ensures Added(success + [product], department, isPrimary) ==
      Added(success, department, isPrimary) + [AllocationRow(product, department, isPrimary)]
  {
  }

  lemma FailedSnoc(failed: seq<Failure>, x: Failure)
    ensures FailedProducts(failed + [x]) == FailedProducts(failed) + [x.product]
  {
  }

  /** No product is assigned twice, and one already allocated to the department, or missing, is never assigned. */
  lemma AssignAllOnce(allocations: seq<AllocationRow>, known: set<string>, department: string, isPrimary: bool,
                       saveError: (string, seq<AllocationRow>) -> Option<string>, products: seq<string>)
    ensures var r := AssignAll(allocations, known, department, isPrimary, saveError, products);
      && (forall i, j :: 0 <= i < j < |r.success| ==> r.success[i] != r.success[j])
      && (forall i :: 0 <= i < |r.success| ==> r.success[i] in known && !Holds(allocations, r.success[i], department))
  {
    AssignAllDistinct(allocations, known, department, isPrimary, saveError, products);
    AssignAllFresh(allocations, known, department, isPrimary, saveError, products);
  }

  /** No two elements are equal. */
  predicate Distinct(xs: seq<string>)
  {
    forall i, j :: 0 <= i < j < |xs| ==> xs[i] != xs[j]
  }

  lemma DistinctSnoc(xs: seq<string>, x: string)
    requires Distinct(xs) && x !in xs
    ensures Distinct(xs + [x])
  {
  }

  /** An assigned product is held by the rows added for it. */
  lemma AddedHolds(allocations: seq<AllocationRow>, success: seq<string>, department: string, isPrimary: bool, x: string)
    requires x in success
    ensures Holds(allocations + Added(success, department, isPrimary), x, department)
  {
    var i :| 0 <= i < |success| && success[i] == x;
    assert (allocations + Added(success, department, isPrimary))[|allocations| + i] == AllocationRow(x, department, isPrimary);
  }

  lemma {:induction false} AssignAllDistinct(allocations: seq<AllocationRow>, known: set<string>, department: string,
                                             isPrimary: bool, saveError: (string, seq<AllocationRow>) -> Option<string>,
                                             products: seq<string>)
    ensures Distinct(AssignAll(allocations, known, department, isPrimary, saveError, products).success)
  {
    if products != [] {
      var k := |products| - 1;
      var front := products[..k];
      var product := products[k];
      AssignAllDistinct(allocations, known, department, isPrimary, saveError, front);
      AssignAllRows(allocations, known, department, isPrimary, saveError, front);
      var before := AssignAll(allocations, known, department, isPrimary, saveError, front);
      var r := AssignAll(allocations, known, department, isPrimary, saveError, products);
      assert r == Step(before, known, department, isPrimary, saveError, product);
      StepCases(before, known, department, isPrimary, saveError, product);
      if r.success != before.success {
        if product in before.success {
          AddedHolds(allocations, before.success, department, isPrimary, product);
        }
        DistinctSnoc(before.success, product);
      }
    }
  }

  lemma {:induction false} AssignAllFresh(allocations: seq<AllocationRow>, known: set<string>, department: string,
                                          isPrimary: bool, saveError: (string, seq<AllocationRow>) -> Option<string>,
                                          products: seq<string>)
    ensures var r := AssignAll(allocations, known, department, isPrimary, saveError, products);
      forall i :: 0 <= i < |r.success| ==> r.success[i] in known && !Holds(allocations, r.success[i], department)
  {
    if products != [] {
      var k := |products| - 1;
      var front := products[..k];
      var product := products[k];
      AssignAllFresh(allocations, known, department, isPrimary, saveError, front);
      AssignAllRows(allocations, known, department, isPrimary, saveError, front);
      var before := AssignAll(allocations, known, department, isPrimary, saveError, front);
      var r := AssignAll(allocations, known, department, isPrimary, saveError, products);
      assert r == Step(before, known, department, isPrimary, saveError, product);
      StepCases(before, known, department, isPrimary, saveError, product);
      if r.success != before.success {
        if Holds(allocations, product, department) {
          HoldsPrefix(allocations, Added(before.success, department, isPrimary), product, department);
        }
        assert r.success == before.success + [product];
      }
    }
  }

  lemma HoldsPrefix(a: seq<AllocationRow>, b: seq<AllocationRow>, product: string, department: string)
    requires Holds(a, product, department)
    ensures Holds(a + b, product, department)
  {
    var k :| 0 <= k < |a| && a[k].product == product && a[k].department == department;
    assert (a + b)[k] == a[k];
  }

  /** A site's Department and Product Department tables, and the stored products. */
  class Site {
    var departments: seq<DepartmentRow>
    var allocations: seq<AllocationRow>
    const products: set<string>

    constructor(departments: seq<DepartmentRow>, allocations: seq<AllocationRow>, products: set<string>)
      ensures this.departments == departments && this.allocations == allocations && this.products == products
    {
      this.departments := departments;
      this.allocations := allocations;
      this.products := products;
    }

    /** The loop over the product's rows: whether one already names the department. */
    method HoldsDepartment(product: string, department: string) returns (existing: bool)
      ensures existing == Holds(allocations, product, department)
    {
      existing := false;
      var k := 0;
      while k < |allocations|
        invariant 0 <= k <= |allocations|
        invariant !Holds(allocations[..k], product, department)
      {
        if allocations[k].product == product && allocations[k].department == department {
          existing := true;
          break;
        }
        assert forall j :: 0 <= j < k + 1 ==> allocations[..k + 1][j] == allocations[j];
        k := k + 1;
      }
      if !existing {
        assert allocations[..k] == allocations;
      }
    }

    /**
     * `assign_products_to_department`: write permission, a non-empty
     * request, then each product in turn; the answer counts every product
     * asked for.  A refused request stores nothing.
     */
    method AssignProductsToDepartment(s: Session, department: string, request: seq<string>, isPrimary: bool,
                                      saveError: (string, seq<AllocationRow>) -> Option<string>) returns (r: Result<Tally>)
      modifies this`allocations
      ensures Gate(s, departments, department, PermissionService.CanWrite, MODIFY_DENIED).Some? ==>
        r == Err(MODIFY_DENIED) && allocations == old(allocations)
      ensures Gate(s, departments, department, PermissionService.CanWrite, MODIFY_DENIED).None? && request == [] ==>
        r == Err(NO_PRODUCTS) && allocations == old(allocations)
      ensures Gate(s, departments, department, PermissionService.CanWrite, MODIFY_DENIED).None? && request != [] ==>
        var p := AssignAll(old(allocations), products, department, isPrimary, saveError, request);
        r == Ok(Tally(p.success, p.failed, |request|)) && allocations == p.allocations
    {
      if Gate(s, departments, department, PermissionService.CanWrite, MODIFY_DENIED).Some? {
        return Err(MODIFY_DENIED);
      }
      if request == [] {
        return Err(NO_PRODUCTS);
      }
      var success, failed := AssignEach(department, request, isPrimary, saveError);
      r := Ok(Tally(success, failed, |request|));
    }

    /** The loop of `assign_products_to_department` over the requested products. */
    method AssignEach(department: string, request: seq<string>, isPrimary: bool,
                      saveError: (string, seq<AllocationRow>) -> Option<string>)
      returns (success: seq<string>, failed: seq<Failure>)
      modifies this`allocations
      ensures Progress(success, failed, allocations) ==
        AssignAll(old(allocations), products, department, isPrimary, saveError, request)
    {
      success, failed := [], [];
      var i := 0;
      while i < |request|
        invariant 0 <= i <= |request|
        invariant Progress(success, failed, allocations) ==
          AssignAll(old(allocations), products, department, isPrimary, saveError, request[..i])
      {
        var product := request[i];
        AssignAllSnoc(old(allocations), products, department, isPrimary, saveError, request[..i], product);
        assert request[..i + 1] == request[..i] + [product];
        success, failed := AssignOne(department, isPrimary, saveError, product, success, failed);
        i := i + 1;
      }
      assert request[..i] == request;
    }

    /** The loop body of `assign_products_to_department` for one product. */
    method AssignOne(department: string, isPrimary: bool, saveError: (string, seq<AllocationRow>) -> Option<string>,
                     product: string, success0: seq<string>, failed0: seq<Failure>)
      returns (success: seq<string>, failed: seq<Failure>)
      modifies this`allocations
      ensures Progress(success, failed, allocations) ==
        Step(Progress(success0, failed0, old(allocations)), products, department, isPrimary, saveError, product)
    {
      success, failed := success0, failed0;
      if product !in products {
        failed := failed + [Failure(product, NotFound("Product", product))];
      } else {
        var existing := HoldsDepartment(product, department);
        if existing {
          failed := failed + [Failure(product, ALREADY_ASSIGNED)];
        } else {
          var next := allocations + [AllocationRow(product, department, isPrimary)];
          var err := saveError(product, RowsOfProduct(next, product));
          if err.Some? {
            failed := failed + [Failure(product, err.value)];
          } else {
            allocations := next;
            success := success + [product];
          }
        }
      }
    }

    /**
     * `update_department_settings`: write permission, the record, the
     * existing settings updated with `updates`; the save validates and
     * stores the merged settings, and the merged dictionary is returned.
     * A refused request stores nothing.
     */
    method UpdateDepartmentSettings(s: Session, department: string, updates: PyDict.Dict<Json>)
      returns (r: Result<PyDict.Dict<Json>>)
      modifies this`departments
      ensures var gate := Gate(s, old(departments), department, PermissionService.CanWrite, MODIFY_DENIED);
        var i := FindRow(old(departments), department);
        if gate.Some? then r == Err(MODIFY_DENIED) && departments == old(departments)
        else if i.None? then r == Err(NotFound("Department", department)) && departments == old(departments)
        else match SettingsUpdate(old(departments)[i.value], updates, DepartmentDoc.SETTINGS_TYPES)
          case Err(e) => r == Err(e) && departments == old(departments)
          case Ok(u) =>
            r == Ok(u.0) && departments == old(departments)[i.value := old(departments)[i.value].(settings := u.1)]
    {
      if Gate(s, departments, department, PermissionService.CanWrite, MODIFY_DENIED).Some? {
        return Err(MODIFY_DENIED);
      }
      var i := FindRow(departments, department);
      if i.None? {
        return Err(NotFound("Department", department));
      }
      var existing := Existing(departments[i.value].settings);
      if existing.Err? {
        return Err(existing.error);
      }
      var merged := PyDict.PutAll(existing.value, updates);
      var stored := DepartmentDoc.SettingsOutcome(DepartmentDoc.Text(Some(JObj(merged))), DepartmentDoc.SETTINGS_TYPES);
      if stored.Err? {
        return Err(stored.error);
      }
      departments := departments[i.value := departments[i.value].(settings := stored.value)];
      r := Ok(merged);
    }
  }

  /** A dictionary with distinct keys has distinct object keys. */
  lemma SameDistinct(d: PyDict.Dict<Json>)
    requires PyDict.DistinctKeys(d)
    ensures DepartmentDoc.DistinctKeys(d)
  {
  }

  /** Reading a key from settings stored as an object. */
  lemma {:induction false} ReadStored(rows: seq<DepartmentRow>, i: nat, department: string, stored: DepartmentDoc.Settings, key: string)
    requires FindRow(rows, department) == Some(i)
    requires stored.Text? && stored.parsed.Some? && stored.parsed.value.JObj?
    ensures var after := rows[i := rows[i].(settings := stored)];
      StoredSetting(after, department, key) ==
        Ok(match Lookup(stored.parsed.value.fields, key) case None => JNull case Some(v) => v)
  {
    var after := rows[i := rows[i].(settings := stored)];
    FindRowSameNames(rows, after, department);
  }

  /** The search only looks at names. */
  lemma {:induction false} FindRowSameNames(a: seq<DepartmentRow>, b: seq<DepartmentRow>, name: string)
    requires |a| == |b| && forall k :: 0 <= k < |a| ==> a[k].name == b[k].name
    ensures FindRow(a, name) == FindRow(b, name)
  {
    if a != [] {
      FindRowSameNames(a[1..], b[1..], name);
    }
  }

  /**
   * After a successful update, reading any setting back gives the merged
   * value: the key's new value when it was passed in, else its old one.
   * Decoded objects and dictionaries have distinct keys.
   */
  lemma UpdateReadBack(rows: seq<DepartmentRow>, department: string, updates: PyDict.Dict<Json>, key: string,
                       table: seq<(string, DepartmentDoc.Kind)>)
    requires FindRow(rows, department).Some?
    requires PyDict.DistinctKeys(updates)
    requires SettingsUpdate(rows[FindRow(rows, department).value], updates, table).Ok?
    requires PyDict.DistinctKeys(Existing(rows[FindRow(rows, department).value].settings).value)
    ensures var i := FindRow(rows, department).value;
      var u := SettingsUpdate(rows[i], updates, table).value;
      var after := rows[i := rows[i].(settings := u.1)];
      StoredSetting(after, department, key) == Ok(match PyDict.Get(u.0, key) case None => JNull case Some(v) => v)
  {
    var i := FindRow(rows, department).value;
    var existing := Existing(rows[i].settings).value;
    var u := SettingsUpdate(rows[i], updates, table).value;
    var merged := u.0;
    assert merged == PyDict.PutAll(existing, updates);
    MergeMeans(existing, updates, key);
    SameDistinct(merged);
    DepartmentDoc.SettingsOutcomeMeans(merged, table);
    DepartmentDoc.SameLookup(merged, u.1.parsed.value.fields, key);
    GetIsLookup(merged, key);
    ReadStored(rows, i, department, u.1, key);
  }
}
