// Role services: whether a user holds a role or a permission, the grouping of
// a user's grants, and the changes made to a role's custom permission rows
// (create, add or replace, revoke) and its summary.  The user's roles and the
// stored rows of every role are parameters; the permission registry is a
// parameter too (`PermissionRegistry.ALL` in the running system).

module Roles {
  import opened Common
  import opened PermissionRegistry
  import opened RolePermissionDoc

  const SYSTEM_MANAGER: string := "System Manager"
  const ADMINISTRATOR: string := "Administrator"

  /** A stored Role: its description, whether it is custom, and its custom permission rows. */
  datatype RoleDoc = RoleDoc(description: string, isCustom: bool, rows: seq<Row>)

  /** Every Role, by name. */
  type RoleTable = map<string, RoleDoc>

  /** `has_role`: never for an empty role name. */
  predicate HasRole(userRoles: seq<string>, role: string)
  {
    role != "" && role in userRoles
  }

  /** Holding System Manager or Administrator grants every permission. */
  predicate Privileged(userRoles: seq<string>)
  {
    HasRole(userRoles, SYSTEM_MANAGER) || HasRole(userRoles, ADMINISTRATOR)
  }

  // ---------------------------------------------------------------------
  // has_permission, has_any_permission, has_all_permissions
  // ---------------------------------------------------------------------

  /** Granted rows carrying `code` among `rows`. */
  function RowCount(rows: seq<Row>, code: string): (n: nat)
    ensures n <= |rows|
  {
    if rows == [] then 0
    else RowCount(rows[..|rows| - 1], code) + (if rows[|rows| - 1].code == code && rows[|rows| - 1].isGranted then 1 else 0)
  }

  /** The count query: granted rows with `code` whose parent is one of `roles`. */
  function GrantCount(db: RoleTable, roles: seq<string>, code: string): nat
  {
    if roles == [] then 0
    else
      var r := roles[|roles| - 1];
      GrantCount(db, roles[..|roles| - 1], code) + (if r in db then RowCount(db[r].rows, code) else 0)
  }

  /** Some role of the user has a granted row with the code. */
  ghost predicate GrantedRow(db: RoleTable, roles: seq<string>, code: string)
  {
    exists r, i :: r in roles && r in db && 0 <= i < |db[r].rows| && db[r].rows[i].code == code && db[r].rows[i].isGranted
  }

  /** `has_permission` for a user holding `roles`. */
  predicate HasPermission(registry: seq<Definition>, db: RoleTable, roles: seq<string>, code: string)
  {
    if code == "" then false
    else if Privileged(roles) then true
    else if !Known(registry, code) then false
    else if roles == [] then false
    else GrantCount(db, roles, code) > 0
  }

  /** `has_any_permission`. */
  predicate HasAnyPermission(registry: seq<Definition>, db: RoleTable, roles: seq<string>, codes: seq<string>)
  {
    if codes == [] then false
    else if Privileged(roles) then true
    else AnyHeld(registry, db, roles, codes)
  }

  predicate AnyHeld(registry: seq<Definition>, db: RoleTable, roles: seq<string>, codes: seq<string>)
  {
    codes != [] && (HasPermission(registry, db, roles, codes[0]) || AnyHeld(registry, db, roles, codes[1..]))
  }

  /** `has_all_permissions`. */
  predicate HasAllPermissions(registry: seq<Definition>, db: RoleTable, roles: seq<string>, codes: seq<string>)
  {
    if codes == [] then true
    else if Privileged(roles) then true
    else AllHeld(registry, db, roles, codes)
  }

  predicate AllHeld(registry: seq<Definition>, db: RoleTable, roles: seq<string>, codes: seq<string>)
  {
    codes == [] || (HasPermission(registry, db, roles, codes[0]) && AllHeld(registry, db, roles, codes[1..]))
  }

  /** A row count is positive exactly when a granted row with the code exists. */
  lemma {:induction false} RowCountPositive(rows: seq<Row>, code: string)
    ensures RowCount(rows, code) > 0 <==> exists i :: 0 <= i < |rows| && rows[i].code == code && rows[i].isGranted
  {
    if rows != [] {
      var n := |rows| - 1;
      RowCountPositive(rows[..n], code);
      if i :| 0 <= i < |rows| && rows[i].code == code && rows[i].isGranted {
        if i < n {
          assert rows[..n][i] == rows[i];
        }
      }
      if RowCount(rows[..n], code) > 0 {
        var i :| 0 <= i < n && rows[..n][i].code == code && rows[..n][i].isGranted;
        assert rows[i] == rows[..n][i];
      }
    }
  }

  /** The count query is positive exactly when one of the roles has a granted row with the code. */
  lemma {:induction false} GrantCountPositive(db: RoleTable, roles: seq<string>, code: string)
    ensures GrantCount(db, roles, code) > 0 <==> GrantedRow(db, roles, code)
  {
    if roles != [] {
      var n := |roles| - 1;
      var last := roles[n];
      GrantCountPositive(db, roles[..n], code);
      if last in db {
        RowCountPositive(db[last].rows, code);
      }
      if GrantedRow(db, roles, code) {
        var r, i :| r in roles && r in db && 0 <= i < |db[r].rows| && db[r].rows[i].code == code && db[r].rows[i].isGranted;
        if r != last {
          assert r in roles[..n];
        }
      }
      if GrantedRow(db, roles[..n], code) {
        var r, i :| r in roles[..n] && r in db && 0 <= i < |db[r].rows| && db[r].rows[i].code == code && db[r].rows[i].isGranted;
        assert r in roles;
      }
    }
  }

  /**
   * `has_permission`: never for an empty code; always for System Manager or
   * Administrator; never for a code outside the registry; otherwise exactly
   * when a granted row on one of the user's roles carries the code.
   */
  lemma HasPermissionMeans(registry: seq<Definition>, db: RoleTable, roles: seq<string>, code: string)
    ensures HasPermission(registry, db, roles, code) <==>
      code != "" && (Privileged(roles) || (Known(registry, code) && GrantedRow(db, roles, code)))
  {
    GrantCountPositive(db, roles, code);
  }

  lemma {:induction false} AnyHeldMeans(registry: seq<Definition>, db: RoleTable, roles: seq<string>, codes: seq<string>)
    ensures AnyHeld(registry, db, roles, codes) <==> exists i :: 0 <= i < |codes| && HasPermission(registry, db, roles, codes[i])
  {
    if codes != [] {
      AnyHeldMeans(registry, db, roles, codes[1..]);
      if i :| 0 <= i < |codes| && HasPermission(registry, db, roles, codes[i]) {
        if i > 0 {
          assert codes[1..][i - 1] == codes[i];
        }
      }
    }
  }

  lemma {:induction false} AllHeldMeans(registry: seq<Definition>, db: RoleTable, roles: seq<string>, codes: seq<string>)
    ensures AllHeld(registry, db, roles, codes) <==> forall i | 0 <= i < |codes| :: HasPermission(registry, db, roles, codes[i])
  {
    if codes != [] {
      AllHeldMeans(registry, db, roles, codes[1..]);
      if AllHeld(registry, db, roles, codes) {
        forall i | 0 <= i < |codes|
          ensures HasPermission(registry, db, roles, codes[i])
        {
          if i > 0 {
            assert codes[1..][i - 1] == codes[i];
          }
        }
      }
    }
  }

  /**
   * `has_any_permission`: false for no codes, true for a privileged user,
   * and otherwise true exactly when the user holds one of the codes.  A
   * privileged user passes even for `[""]`, which `has_permission` refuses.
   */
  lemma HasAnyMeans(registry: seq<Definition>, db: RoleTable, roles: seq<string>, codes: seq<string>)
    ensures HasAnyPermission(registry, db, roles, codes) <==>
      codes != [] && (Privileged(roles) || exists i :: 0 <= i < |codes| && HasPermission(registry, db, roles, codes[i]))
  {
    AnyHeldMeans(registry, db, roles, codes);
  }

  /** `has_all_permissions`: true for no codes or a privileged user, otherwise exactly when every code is held. */
  lemma HasAllMeans(registry: seq<Definition>, db: RoleTable, roles: seq<string>, codes: seq<string>)
    ensures HasAllPermissions(registry, db, roles, codes) <==>
      codes == [] || Privileged(roles) || forall i | 0 <= i < |codes| :: HasPermission(registry, db, roles, codes[i])
  {
    AllHeldMeans(registry, db, roles, codes);
  }

  // ---------------------------------------------------------------------
  // get_user_permissions and get_permissions_by_category
  // ---------------------------------------------------------------------

  /** A fetched grant: the role it sits on (`parent as role`) and the row. */
  datatype Fetched = Fetched(role: string, row: Row)

  /** The granted rows of one role, tagged with the role. */
  function RoleGrants(role: string, rows: seq<Row>): (r: seq<Fetched>)
    ensures forall f | f in r :: f.role == role && f.row in rows && f.row.isGranted
    ensures forall x | x in rows && x.isGranted :: Fetched(role, x) in r
  {
    if rows == [] then []
    else
      var last := rows[|rows| - 1];
      RoleGrants(role, rows[..|rows| - 1]) + (if last.isGranted then [Fetched(role, last)] else [])
  }

  /** The query over the user's roles, role by role in the order given. */
  function Fetch(db: RoleTable, roles: seq<string>): (r: seq<Fetched>)
    ensures forall f | f in r :: f.role in roles && f.role in db && f.row in db[f.role].rows && f.row.isGranted
    ensures forall x, role | role in roles && role in db && x in db[role].rows && x.isGranted :: Fetched(role, x) in r
  {
    if roles == [] then []
    else
      var role := roles[|roles| - 1];
      Fetch(db, roles[..|roles| - 1]) + (if role in db then RoleGrants(role, db[role].rows) else [])
  }

  /** The fetched grants with a given code, in fetched order. */
  function WithCode(fetched: seq<Fetched>, code: string): (r: seq<Fetched>)
    ensures forall f | f in r :: f in fetched && f.row.code == code
    ensures forall f | f in fetched && f.row.code == code :: f in r
  {
    if fetched == [] then []
    else
      var last := fetched[|fetched| - 1];
      WithCode(fetched[..|fetched| - 1], code) + (if last.row.code == code then [last] else [])
  }

  /** Grouping by code, appending to a code's list as the loop does. */
  function GroupByCode(fetched: seq<Fetched>): map<string, seq<Fetched>>
  {
    if fetched == [] then map[]
    else
      var m := GroupByCode(fetched[..|fetched| - 1]);
      var f := fetched[|fetched| - 1];
      m[f.row.code := (if f.row.code in m then m[f.row.code] else []) + [f]]
  }

  /** `get_user_permissions`: {} without roles, else the user's granted rows grouped by code. */
  function UserPermissions(db: RoleTable, roles: seq<string>): map<string, seq<Fetched>>
  {
    if roles == [] then map[] else GroupByCode(Fetch(db, roles))
  }

  /** Each code's group is exactly the fetched rows with that code, in order. */
  lemma {:induction false} GroupByCodeMeans(fetched: seq<Fetched>, code: string)
    ensures code in GroupByCode(fetched) <==> WithCode(fetched, code) != []
    ensures code in GroupByCode(fetched) ==> GroupByCode(fetched)[code] == WithCode(fetched, code)
  {
    if fetched != [] {
      GroupByCodeMeans(fetched[..|fetched| - 1], code);
    }
  }

  /** A code is a key of the user's permissions exactly when the user holds a granted row for it. */
  lemma UserPermissionsKeys(db: RoleTable, roles: seq<string>, code: string)
    ensures code in UserPermissions(db, roles) <==> GrantedRow(db, roles, code)
    ensures code in UserPermissions(db, roles) ==> UserPermissions(db, roles)[code] == WithCode(Fetch(db, roles), code)
  {
    var fetched := Fetch(db, roles);
    GroupByCodeMeans(fetched, code);
    if GrantedRow(db, roles, code) {
      var r, i :| r in roles && r in db && 0 <= i < |db[r].rows| && db[r].rows[i].code == code && db[r].rows[i].isGranted;
      assert Fetched(r, db[r].rows[i]) in fetched;
      assert Fetched(r, db[r].rows[i]) in WithCode(fetched, code);
    }
    if WithCode(fetched, code) != [] {
      var f := WithCode(fetched, code)[0];
      assert f in fetched;
      var i :| 0 <= i < |db[f.role].rows| && db[f.role].rows[i] == f.row;
    }
  }

  /** One permission listed under its category. */
  datatype Entry = Entry(code: string, name: string, description: string, departmentRestricted: bool, grantedByRoles: seq<string>)

  /** The codes in the order they first appear (the order of the grouped dict). */
  function FirstSeen(fetched: seq<Fetched>): (r: seq<string>)
    ensures forall c :: c in r <==> exists i :: 0 <= i < |fetched| && fetched[i].row.code == c
    ensures forall i, j | 0 <= i < j < |r| :: r[i] != r[j]
  {
    if fetched == [] then []
    else
      var prev := FirstSeen(fetched[..|fetched| - 1]);
      var c := fetched[|fetched| - 1].row.code;
      assert forall i | 0 <= i < |fetched| - 1 :: fetched[..|fetched| - 1][i] == fetched[i];
      if c in prev then prev else prev + [c]
  }

  function Roles(group: seq<Fetched>): (r: seq<string>)
    ensures |r| == |group| && forall i | 0 <= i < |group| :: r[i] == group[i].role
  {
    seq(|group|, i requires 0 <= i < |group| => group[i].role)
  }

  /** The category recorded on the first row of the code's group. */
  function CategoryOf(fetched: seq<Fetched>, code: string): string
  {
    var g := WithCode(fetched, code);
    if g == [] then "" else g[0].row.category
  }

  /** The entry listed for a code, when the registry knows it. */
  function EntryFor(registry: seq<Definition>, fetched: seq<Fetched>, code: string): Option<Entry>
  {
    match Lookup(registry, code)
    case None => None
    case Some(d) => Some(Entry(code, d.name, d.description, d.departmentRestricted, Roles(WithCode(fetched, code))))
  }

  /** The loop body: make room for the category, then list the entry if the code is known. */
  function AddCode(registry: seq<Definition>, fetched: seq<Fetched>, acc: map<string, seq<Entry>>, code: string): map<string, seq<Entry>>
  {
    var cat := CategoryOf(fetched, code);
    var acc1 := if cat in acc then acc else acc[cat := []];
    match EntryFor(registry, fetched, code)
    case None => acc1
    case Some(e) => acc1[cat := acc1[cat] + [e]]
  }

  function AddCodes(registry: seq<Definition>, fetched: seq<Fetched>, acc: map<string, seq<Entry>>, codes: seq<string>): map<string, seq<Entry>>
  {
    if codes == [] then acc
    else AddCode(registry, fetched, AddCodes(registry, fetched, acc, codes[..|codes| - 1]), codes[|codes| - 1])
  }

  /** A map with an empty list for every category. */
  function EmptyCategories(categories: seq<string>): (m: map<string, seq<Entry>>)
    ensures forall c :: c in m <==> c in categories
    ensures forall c | c in m :: m[c] == []
  {
    map c | c in categories :: []
  }

  /** `get_permissions_by_category` for the user's grants. */
  function PermissionsByCategory(registry: seq<Definition>, categories: seq<string>, fetched: seq<Fetched>): (r: map<string, seq<Entry>>)
    ensures forall c | c in r :: r[c] != []
  {
    var all := AddCodes(registry, fetched, EmptyCategories(categories), FirstSeen(fetched));
    map c | c in all && all[c] != [] :: all[c]
  }

  /** An entry sits under a category exactly when it is the entry of a listed, known code whose first row names that category. */
  ghost predicate Listed(registry: seq<Definition>, fetched: seq<Fetched>, codes: seq<string>, cat: string, e: Entry)
  {
    e.code in codes && EntryFor(registry, fetched, e.code) == Some(e) && CategoryOf(fetched, e.code) == cat
  }

  /** One step of the loop adds at most the entry of its code, under that code's category. */
  lemma AddCodeStep(registry: seq<Definition>, fetched: seq<Fetched>, acc: map<string, seq<Entry>>, code: string, cat: string, e: Entry)
    ensures var m := AddCode(registry, fetched, acc, code);
      cat in m && e in m[cat] <==>
        (cat in acc && e in acc[cat]) || (EntryFor(registry, fetched, code) == Some(e) && CategoryOf(fetched, code) == cat)
  {
  }

  lemma {:induction false} AddCodesMeans(registry: seq<Definition>, fetched: seq<Fetched>, categories: seq<string>, codes: seq<string>, cat: string, e: Entry)
    ensures var m := AddCodes(registry, fetched, EmptyCategories(categories), codes);
      cat in m && e in m[cat] <==> Listed(registry, fetched, codes, cat, e)
  {
    if codes != [] {
      var n := |codes| - 1;
      var start := EmptyCategories(categories);
      var prev := AddCodes(registry, fetched, start, codes[..n]);
      AddCodesMeans(registry, fetched, categories, codes[..n], cat, e);
      AddCodeStep(registry, fetched, prev, codes[n], cat, e);
      assert AddCodes(registry, fetched, start, codes) == AddCode(registry, fetched, prev, codes[n]);
      ListedSnoc(registry, fetched, codes, cat, e);
    }
  }

  /** Listing over one more code adds at most that code's entry. */
  lemma ListedSnoc(registry: seq<Definition>, fetched: seq<Fetched>, codes: seq<string>, cat: string, e: Entry)
    requires codes != []
    ensures var n := |codes| - 1;
      Listed(registry, fetched, codes, cat, e) <==>
        Listed(registry, fetched, codes[..n], cat, e) ||
        (EntryFor(registry, fetched, codes[n]) == Some(e) && CategoryOf(fetched, codes[n]) == cat)
  {
    var n := |codes| - 1;
    assert codes == codes[..n] + [codes[n]];
    assert e.code in codes <==> e.code in codes[..n] || e.code == codes[n];
  }

  /**
   * `get_permissions_by_category`: every category left in the result is
   * non-empty, and an entry sits under a category exactly when it is the
   * entry of a registry-known code the user holds whose first granted row
   * records that category.
   */
  lemma PermissionsByCategoryMeans(registry: seq<Definition>, categories: seq<string>, fetched: seq<Fetched>, cat: string, e: Entry)
    ensures var r := PermissionsByCategory(registry, categories, fetched);
      cat in r && e in r[cat] <==> Listed(registry, fetched, FirstSeen(fetched), cat, e)
  {
    AddCodesMeans(registry, fetched, categories, FirstSeen(fetched), cat, e);
  }

  // ---------------------------------------------------------------------
  // create_role, update_role_permissions, revoke_role_permission
  // ---------------------------------------------------------------------

  /** The codes on a list of rows (`existing_codes`). */
  function CodeSet(rows: seq<Row>): set<string>
  {
    set r | r in rows :: r.code
  }

  /** The rows `create_role` appends: one new row per registry code of the input, in input order, repeats included. */
  function GrantRows(registry: seq<Definition>, codes: seq<string>): (r: seq<Row>)
    ensures |r| <= |codes|
  {
    if codes == [] then []
    else
      var c := codes[|codes| - 1];
      GrantRows(registry, codes[..|codes| - 1]) + (if Known(registry, c) then [NewRow(c)] else [])
  }

  /**
   * The rows `update_role_permissions` appends, as written: `existing` is
   * taken once before the loop, so a code repeated in the input is appended
   * once per repetition.
   */
  function AppendedAsWritten(registry: seq<Definition>, existing: set<string>, codes: seq<string>): seq<Row>
  {
    if codes == [] then []
    else
      var c := codes[|codes| - 1];
      AppendedAsWritten(registry, existing, codes[..|codes| - 1]) +
        (if Known(registry, c) && c !in existing then [NewRow(c)] else [])
  }

  /** The rows appended when each appended code joins `existing`: every new registry code once, in first-occurrence order. */
  function Appended(registry: seq<Definition>, existing: set<string>, codes: seq<string>): seq<Row>
  {
    if codes == [] then []
    else
      var prev := Appended(registry, existing, codes[..|codes| - 1]);
      var c := codes[|codes| - 1];
      prev + (if Known(registry, c) && c !in existing && c !in CodeSet(prev) then [NewRow(c)] else [])
  }

  /** The new row list of `update_role_permissions`, as written. */
  function UpdatedAsWritten(rows: seq<Row>, registry: seq<Definition>, codes: seq<string>, replace: bool): seq<Row>
  {
    var base := if replace then [] else rows;
    base + AppendedAsWritten(registry, CodeSet(base), codes)
  }

  /** The new row list of `update_role_permissions` without repeated appends. */
  function Updated(rows: seq<Row>, registry: seq<Definition>, codes: seq<string>, replace: bool): seq<Row>
  {
    var base := if replace then [] else rows;
    base + Appended(registry, CodeSet(base), codes)
  }

  /** The rows left after removing every row with the code. */
  function Without(rows: seq<Row>, code: string): (r: seq<Row>)
    ensures forall x | x in r :: x in rows && x.code != code
    ensures forall x | x in rows && x.code != code :: x in r
  {
    if rows == [] then []
    else
      var last := rows[|rows| - 1];
      Without(rows[..|rows| - 1], code) + (if last.code == code then [] else [last])
  }

  /** A code repeated in the input is appended twice by the code as written. */
  lemma DuplicateInputAppendedTwice(registry: seq<Definition>, c: string)
    requires Known(registry, c)
    ensures UpdatedAsWritten([], registry, [c, c], false) == [NewRow(c), NewRow(c)]
  {
    assert CodeSet([]) == {};
    assert [c, c][..1] == [c] && [c][..0] == [];
    assert AppendedAsWritten(registry, {}, [c]) == [NewRow(c)];
  }

  lemma {:induction false} AppendedMeans(registry: seq<Definition>, existing: set<string>, codes: seq<string>)
    ensures var a := Appended(registry, existing, codes);
      (forall c :: c in CodeSet(a) <==> Known(registry, c) && c !in existing && c in codes) &&
      (forall i | 0 <= i < |a| :: a[i] == NewRow(a[i].code)) &&
      (forall i, j | 0 <= i < j < |a| :: a[i].code != a[j].code)
  {
    if codes != [] {
      var n := |codes| - 1;
      AppendedMeans(registry, existing, codes[..n]);
      var prev := Appended(registry, existing, codes[..n]);
      var c := codes[n];
      var a := Appended(registry, existing, codes);
      forall x
        ensures x in CodeSet(a) <==> Known(registry, x) && x !in existing && x in codes
      {
        if x in codes {
          var j :| 0 <= j < |codes| && codes[j] == x;
          if j < n {
            assert codes[..n][j] == x;
          }
        }
        if x in CodeSet(a) {
          var r :| r in a && r.code == x;
          if r !in prev {
            assert x == c;
          }
        }
        if x in CodeSet(prev) {
          var r :| r in prev && r.code == x;
          assert r in a;
        }
      }
      if Known(registry, c) && c !in existing && c !in CodeSet(prev) {
        forall i | 0 <= i < |prev|
          ensures prev[i].code != c
        {
          assert prev[i] in prev;
        }
      }
    }
  }

  /**
   * `update_role_permissions` (with repeats appended once): the rows kept
   * (none under `replace`) come first unchanged; after them comes one new
   * granted row for each registry code of the input not already on the kept
   * rows, and no code is appended twice.
   */
  lemma UpdatedMeans(rows: seq<Row>, registry: seq<Definition>, codes: seq<string>, replace: bool)
    ensures var base := if replace then [] else rows;
      var u := Updated(rows, registry, codes, replace);
      |base| <= |u| && u[..|base|] == base &&
      (forall c :: c in CodeSet(u[|base|..]) <==> Known(registry, c) && c in codes && c !in CodeSet(base)) &&
      (forall i | |base| <= i < |u| :: u[i] == NewRow(u[i].code)) &&
      (forall i, j | |base| <= i < j < |u| :: u[i].code != u[j].code)
  {
    var base := if replace then [] else rows;
    AppendedMeans(registry, CodeSet(base), codes);
    var u := Updated(rows, registry, codes, replace);
    assert u[|base|..] == Appended(registry, CodeSet(base), codes);
  }

  /** The two definitions agree whenever the input has no repeated code. */
  lemma {:induction false} AppendedAgrees(registry: seq<Definition>, existing: set<string>, codes: seq<string>)
    requires forall i, j | 0 <= i < j < |codes| :: codes[i] != codes[j]
    ensures Appended(registry, existing, codes) == AppendedAsWritten(registry, existing, codes)
  {
    if codes != [] {
      var n := |codes| - 1;
      var front, c := codes[..n], codes[n];
      assert forall i, j | 0 <= i < j < |front| :: front[i] != front[j] by {
        forall i, j | 0 <= i < j < |front|
          ensures front[i] != front[j]
        {
          assert front[i] == codes[i] && front[j] == codes[j];
        }
      }
      AppendedAgrees(registry, existing, front);
      assert c !in CodeSet(Appended(registry, existing, front)) by {
        AppendedMeans(registry, existing, front);
        assert c !in front;
      }
    }
  }

  /** `revoke_role_permission` removes every row with the code and keeps the others in order. */
  lemma {:induction false} WithoutMeans(rows: seq<Row>, code: string)
    ensures code !in CodeSet(Without(rows, code))
    ensures forall c | c != code :: c in CodeSet(Without(rows, code)) <==> c in CodeSet(rows)
    ensures Without(rows, code) == rows <==> code !in CodeSet(rows)
  {
    if rows != [] {
      var n := |rows| - 1;
      WithoutMeans(rows[..n], code);
      assert rows == rows[..n] + [rows[n]];
      if Without(rows, code) == rows {
        assert |Without(rows[..n], code)| <= n;
      }
    }
  }

  /** Every row with a position in `drop` removed, the others kept in order. */
  function Drop(rows: seq<Row>, drop: set<nat>): (r: seq<Row>)
    ensures |r| <= |rows|
  {
    if rows == [] then []
    else
      var n := |rows| - 1;
      Drop(rows[..n], drop) + (if n in drop then [] else [rows[n]])
  }

  /** Dropping no position below the length keeps every row. */
  lemma {:induction false} DropNone(rows: seq<Row>, drop: set<nat>)
    requires forall j | j in drop :: j >= |rows|
    ensures Drop(rows, drop) == rows
  {
    if rows != [] {
      var n := |rows| - 1;
      DropNone(rows[..n], drop);
    }
  }

  /** Removing position `idx` of the result when only later positions were dropped drops `idx` as well. */
  lemma {:induction false} DropBelow(rows: seq<Row>, drop: set<nat>, idx: nat)
    requires idx < |rows| && idx !in drop
    requires forall j | j in drop :: j > idx
    ensures idx < |Drop(rows, drop)|
    ensures Drop(rows, drop + {idx}) == Drop(rows, drop)[..idx] + Drop(rows, drop)[idx + 1..]
  {
    var n := |rows| - 1;
    var front := rows[..n];
    var wider := drop + {idx};
    var d := Drop(front, drop);
    var w := Drop(front, wider);
    if n == idx {
      DropNone(front, drop);
      DropNone(front, wider);
      assert Drop(rows, drop) == d + [rows[n]];
      assert Drop(rows, wider) == w;
      assert (d + [rows[n]])[..idx] == d;
    } else {
      DropBelow(front, drop, idx);
      var t := if n in drop then [] else [rows[n]];
      assert n in wider <==> n in drop;
      assert Drop(rows, drop) == d + t;
      assert Drop(rows, wider) == w + t;
      RemoveBeforeTail(d, t, idx);
    }
  }

  /** Removing position `idx` of `d` and then appending `t` removes it from `d + t`. */
  lemma RemoveBeforeTail(d: seq<Row>, t: seq<Row>, idx: nat)
    requires idx < |d|
    ensures (d + t)[..idx] + (d + t)[idx + 1..] == d[..idx] + d[idx + 1..] + t
  {
    assert (d + t)[..idx] == d[..idx];
    assert (d + t)[idx + 1..] == d[idx + 1..] + t;
  }

  /** Dropping exactly the positions holding the code is removing the code. */
  lemma {:induction false} DropMatching(rows: seq<Row>, drop: set<nat>, code: string)
    requires forall i | 0 <= i < |rows| :: i in drop <==> rows[i].code == code
    ensures Drop(rows, drop) == Without(rows, code)
  {
    if rows != [] {
      var n := |rows| - 1;
      DropMatching(rows[..n], drop, code);
    }
  }

  /** The Role document with its custom permission table. */
  class Role {
    const name: string
    var description: string
    var isCustom: bool
    var customPermissions: seq<Row>

    constructor (name: string, description: string, isCustom: bool, rows: seq<Row>)
      ensures this.name == name && this.description == description && this.isCustom == isCustom
      ensures customPermissions == rows
    {
      this.name := name;
      this.description := description;
      this.isCustom := isCustom;
      customPermissions := rows;
    }

    /** `update_role_permissions`: clear under `replace`, then append each new registry code once. */
    method UpdatePermissions(registry: seq<Definition>, codes: seq<string>, replace: bool)
      modifies this
      ensures customPermissions == Updated(old(customPermissions), registry, codes, replace)
      ensures description == old(description) && isCustom == old(isCustom)
    {
      if replace {
        customPermissions := [];
      }
      ghost var base := customPermissions;
      ghost var added: seq<Row> := [];
      var existing := CodeSet(customPermissions);
      for i := 0 to |codes|
        invariant added == Appended(registry, CodeSet(base), codes[..i])
        invariant customPermissions == base + added
        invariant existing == CodeSet(base) + CodeSet(added)
        invariant description == old(description) && isCustom == old(isCustom)
      {
        var c := codes[i];
        AppendedStep(registry, CodeSet(base), codes, i);
        if Known(registry, c) && c !in existing {
          CodeSetSnoc(added, [NewRow(c)]);
          added := added + [NewRow(c)];
          customPermissions := customPermissions + [NewRow(c)];
          existing := existing + {c};
        }
      }
      assert codes[..|codes|] == codes;
    }

    /** `revoke_role_permission`: collect the positions holding the code, then remove them from the last to the first. */
    method Revoke(code: string)
      modifies this
      ensures customPermissions == Without(old(customPermissions), code)
      ensures description == old(description) && isCustom == old(isCustom)
    {
      ghost var original := customPermissions;
      var toRemove := MatchingPositions(customPermissions, code);
      var k := |toRemove|;
      DropNone(original, {});
      assert PositionsFrom(toRemove, k) == {};
      while k > 0
        invariant 0 <= k <= |toRemove|
        invariant customPermissions == Drop(original, PositionsFrom(toRemove, k))
        invariant description == old(description) && isCustom == old(isCustom)
      {
        k := k - 1;
        var idx := toRemove[k];
        DropNext(original, toRemove, k);
        customPermissions := customPermissions[..idx] + customPermissions[idx + 1..];
      }
      assert k == 0;
      AllPositionsDropped(original, toRemove, code);
    }
  }

  /** The positions of the rows holding the code, ascending. */
  method MatchingPositions(rows: seq<Row>, code: string) returns (ps: seq<nat>)
    ensures forall a, b | 0 <= a < b < |ps| :: ps[a] < ps[b]
    ensures forall a | 0 <= a < |ps| :: ps[a] < |rows|
    ensures forall j | 0 <= j < |rows| :: j in ps <==> rows[j].code == code
  {
    ps := [];
    for i := 0 to |rows|
      invariant forall a, b | 0 <= a < b < |ps| :: ps[a] < ps[b]
      invariant forall a | 0 <= a < |ps| :: ps[a] < i
      invariant forall j | 0 <= j < i :: j in ps <==> rows[j].code == code
    {
      if rows[i].code == code {
        ps := ps + [i];
      }
    }
  }

  /** The positions listed from index `k` on. */
  function PositionsFrom(ps: seq<nat>, k: nat): set<nat>
    requires k <= |ps|
  {
    set a | k <= a < |ps| :: ps[a]
  }

  /** Dropping the next lower position of an ascending list of positions removes that row from the result so far. */
  lemma DropNext(rows: seq<Row>, ps: seq<nat>, k: nat)
    requires k < |ps|
    requires forall a, b | 0 <= a < b < |ps| :: ps[a] < ps[b]
    requires forall a | 0 <= a < |ps| :: ps[a] < |rows|
    ensures ps[k] < |Drop(rows, PositionsFrom(ps, k + 1))|
    ensures var d := Drop(rows, PositionsFrom(ps, k + 1));
      Drop(rows, PositionsFrom(ps, k)) == d[..ps[k]] + d[ps[k] + 1..]
  {
    var later := PositionsFrom(ps, k + 1);
    PositionsFromStep(ps, k, later);
    DropBelow(rows, later, ps[k]);
  }

  /** Dropping every position of the rows holding the code removes the code. */
  lemma AllPositionsDropped(rows: seq<Row>, ps: seq<nat>, code: string)
    requires forall j | 0 <= j < |rows| :: j in ps <==> rows[j].code == code
    ensures Drop(rows, PositionsFrom(ps, 0)) == Without(rows, code)
  {
    var all := PositionsFrom(ps, 0);
    forall j | 0 <= j < |rows|
      ensures j in all <==> rows[j].code == code
    {
      if j in ps {
        var a :| 0 <= a < |ps| && ps[a] == j;
        assert j in all;
      }
    }
    DropMatching(rows, all, code);
  }

  /** Taking one more listed position, which lies below every later one of an ascending list. */
  lemma PositionsFromStep(ps: seq<nat>, k: nat, later: set<nat>)
    requires k < |ps|
    requires forall a, b | 0 <= a < b < |ps| :: ps[a] < ps[b]
    requires later == PositionsFrom(ps, k + 1)
    ensures PositionsFrom(ps, k) == later + {ps[k]}
    ensures ps[k] !in later
    ensures forall j | j in later :: j > ps[k]
  {
  }

  /** One more input code appends at most its own new row. */
  lemma AppendedStep(registry: seq<Definition>, existing: set<string>, codes: seq<string>, i: nat)
    requires i < |codes|
    ensures Appended(registry, existing, codes[..i + 1]) ==
      var prev := Appended(registry, existing, codes[..i]);
      var c := codes[i];
      prev + (if Known(registry, c) && c !in existing && c !in CodeSet(prev) then [NewRow(c)] else [])
  {
    assert codes[..i + 1][..i] == codes[..i];
  }

  lemma CodeSetSnoc(base: seq<Row>, more: seq<Row>)
    ensures CodeSet(base + more) == CodeSet(base) + CodeSet(more)
  {
  }

  /** Every row `create_role` appends is a fresh grant of a registry code of the input, and every registry code of the input gets one. */
  lemma {:induction false} GrantRowsMeans(registry: seq<Definition>, codes: seq<string>)
    ensures forall x | x in GrantRows(registry, codes) :: x == NewRow(x.code) && x.code in codes && Known(registry, x.code)
    ensures forall c | c in codes && Known(registry, c) :: NewRow(c) in GrantRows(registry, codes)
    ensures (forall c | c in codes :: Known(registry, c)) ==> |GrantRows(registry, codes)| == |codes|
  {
    if codes != [] {
      var n := |codes| - 1;
      GrantRowsMeans(registry, codes[..n]);
      assert codes == codes[..n] + [codes[n]];
    }
  }

  /** `create_role`: refuse an existing name, else a custom role granting each registry code of the input. */
  method CreateRole(existing: set<string>, registry: seq<Definition>, name: string, codes: seq<string>, description: string)
    returns (r: Result<Role>)
    ensures r.Err? <==> name in existing
    ensures r.Err? ==> r.error == "Role " + name + " already exists"
    ensures r.Ok? ==> fresh(r.value) && r.value.name == name && r.value.description == description && r.value.isCustom
    ensures r.Ok? ==> r.value.customPermissions == GrantRows(registry, codes)
  {
    if name in existing {
      return Err("Role " + name + " already exists");
    }
    var role := new Role(name, description, true, []);
    for i := 0 to |codes|
      invariant role.customPermissions == GrantRows(registry, codes[..i])
      invariant role.name == name && role.description == description && role.isCustom
    {
      assert codes[..i + 1][..i] == codes[..i];
      if !Known(registry, codes[i]) {
        continue;
      }
      role.customPermissions := role.customPermissions + [NewRow(codes[i])];
    }
    assert codes[..|codes|] == codes;
    return Ok(role);
  }

  /** The summary `get_role_summary` returns. */
  datatype Summary = Summary(
    role: string, description: string, isCustom: bool,
    userCount: nat, permissionCount: nat, permissionsByCategory: map<string, nat>)

  /** The number of rows whose registry category is `cat`. */
  function CountIn(registry: seq<Definition>, rows: seq<Row>, cat: string): nat
  {
    if rows == [] then 0
    else
      var n := |rows| - 1;
      var d := Lookup(registry, rows[n].code);
      CountIn(registry, rows[..n], cat) + (if d.Some? && d.value.category == cat then 1 else 0)
  }

  /** The per-category tally of `get_role_summary`, one row at a time; rows with no registry entry are not counted. */
  function CategoryCounts(registry: seq<Definition>, rows: seq<Row>): (m: map<string, nat>)
    ensures forall cat | cat in m :: m[cat] > 0
  {
    if rows == [] then map[]
    else
      var n := |rows| - 1;
      var prev := CategoryCounts(registry, rows[..n]);
      var d := Lookup(registry, rows[n].code);
      if d.None? then prev
      else
        var cat := d.value.category;
        prev[cat := (if cat in prev then prev[cat] else 0) + 1]
  }

  /** A category is listed exactly when some row belongs to it, and then with the number of its rows. */
  lemma {:induction false} CategoryCountsMeans(registry: seq<Definition>, rows: seq<Row>, cat: string)
    ensures cat in CategoryCounts(registry, rows) <==> CountIn(registry, rows, cat) > 0
    ensures cat in CategoryCounts(registry, rows) ==> CategoryCounts(registry, rows)[cat] == CountIn(registry, rows, cat)
  {
    if rows != [] {
      CategoryCountsMeans(registry, rows[..|rows| - 1], cat);
    }
  }

  /** Each registered row is counted under exactly one category, so the tallies never exceed the row count. */
  lemma {:induction false} CountInBound(registry: seq<Definition>, rows: seq<Row>, cat: string)
    ensures CountIn(registry, rows, cat) <= |rows|
  {
    if rows != [] {
      CountInBound(registry, rows[..|rows| - 1], cat);
    }
  }

  /** `get_role_summary`: an unknown role is an error; otherwise the role's fields, its user count and its rows tallied by category. */
  function RoleSummary(registry: seq<Definition>, db: RoleTable, role: string, userCount: nat): (r: Result<Summary>)
    ensures r.Err? <==> role !in db
    ensures r.Err? ==> r.error == "Role " + role + " does not exist"
    ensures r.Ok? ==> r.value.role == role && r.value.permissionCount == |db[role].rows|
    ensures r.Ok? ==> forall cat | cat in r.value.permissionsByCategory ::
      0 < r.value.permissionsByCategory[cat] <= r.value.permissionCount
  {
    if role !in db then Err("Role " + role + " does not exist")
    else
      var doc := db[role];
      var counts := CategoryCounts(registry, doc.rows);
      assert forall cat | cat in counts :: counts[cat] <= |doc.rows| by {
        forall cat | cat in counts
          ensures counts[cat] <= |doc.rows|
        {
          CategoryCountsMeans(registry, doc.rows, cat);
          CountInBound(registry, doc.rows, cat);
        }
      }
      Ok(Summary(role, doc.description, doc.isCustom, userCount, |doc.rows|, counts))
  }

  // ---------------------------------------------------------------------
  // get_role_permissions
  // ---------------------------------------------------------------------

  /** The granted rows, in stored order. */
  function GrantedRows(rows: seq<Row>): (r: seq<Row>)
    ensures multiset(r) <= multiset(rows)
    ensures forall x | x in r :: x.isGranted
  {
    if rows == [] then []
    else
      var n := |rows| - 1;
      assert rows == rows[..n] + [rows[n]];
      GrantedRows(rows[..n]) + (if rows[n].isGranted then [rows[n]] else [])
  }

  /** A row comes first when its category is smaller, or the categories tie and its name is smaller. */
  predicate CategoryNameBefore(a: Row, b: Row)
  {
    StrLt(a.category, b.category) || (a.category == b.category && StrLt(a.name, b.name))
  }

  lemma CategoryNameOrderStrict()
    ensures StrictOrder((a: Row, b: Row) => CategoryNameBefore(a, b))
  {
    forall a: Row
      ensures !CategoryNameBefore(a, a)
    {
      StrLtIrreflexive(a.category);
      StrLtIrreflexive(a.name);
    }
    forall a: Row, b: Row, c: Row | CategoryNameBefore(a, b) && CategoryNameBefore(b, c)
      ensures CategoryNameBefore(a, c)
    {
      if StrLt(a.category, b.category) && StrLt(b.category, c.category) {
        StrLtTransitive(a.category, b.category, c.category);
      } else if a.category == b.category && b.category == c.category {
        StrLtTransitive(a.name, b.name, c.name);
      }
    }
  }

  /** Every granted row is kept and every kept row is granted. */
  lemma {:induction false} GrantedRowsMeans(rows: seq<Row>, x: Row)
    ensures x in GrantedRows(rows) <==> x in rows && x.isGranted
  {
    if rows != [] {
      var n := |rows| - 1;
      GrantedRowsMeans(rows[..n], x);
      assert rows == rows[..n] + [rows[n]];
    }
  }

  /** `get_role_permissions`: nothing for an unknown role, else its granted rows ordered by category, then name. */
  function RolePermissions(db: RoleTable, role: string): (r: seq<Row>)
    ensures role !in db ==> r == []
    ensures role in db ==> forall x :: x in r <==> x in db[role].rows && x.isGranted
    ensures role in db ==> multiset(r) == multiset(GrantedRows(db[role].rows))
    ensures forall i, j | 0 <= i < j < |r| :: !CategoryNameBefore(r[j], r[i])
  {
    if role !in db then []
    else
      CategoryNameOrderStrict();
      var granted := GrantedRows(db[role].rows);
      var r := SortBy(granted, (a: Row, b: Row) => CategoryNameBefore(a, b));
      assert forall x :: x in r <==> x in db[role].rows && x.isGranted by {
        forall x
          ensures x in r <==> x in db[role].rows && x.isGranted
        {
          assert x in r <==> x in multiset(r);
          GrantedRowsMeans(db[role].rows, x);
        }
      }
      r
  }
}
