// The REST endpoints over roles and permissions: listing and searching the
// registry, checking and viewing a user's permissions, and the role-changing
// endpoints, each of which is open to System Managers only.  The caller's
// roles, the roles of the user looked at and the stored Role table are
// parameters.

module ApiRoles {
  import opened Common
  import opened PermissionRegistry
  import opened RolePermissionDoc
  import opened Roles

  const CREATE_DENIED: string := "You do not have permission to create roles"
  const MODIFY_DENIED: string := "You do not have permission to modify roles"
  const VIEW_DENIED: string := "You do not have permission to view other users' permissions"

  /** `frappe.has_role("System Manager")` for the caller. */
  predicate IsSystemManager(callerRoles: seq<string>)
  {
    HasRole(callerRoles, SYSTEM_MANAGER)
  }

  // ---------------------------------------------------------------------
  // get_permissions_by_category
  // ---------------------------------------------------------------------

  /** The fields of a definition the category listing shows. */
  datatype Brief = Brief(code: string, name: string, description: string, departmentRestricted: bool)

  function BriefOf(d: Definition): Brief
  {
    Brief(d.code, d.name, d.description, d.departmentRestricted)
  }

  function Briefs(defs: seq<Definition>): (r: seq<Brief>)
    ensures |r| == |defs|
    ensures forall i | 0 <= i < |defs| :: r[i] == BriefOf(defs[i])
  {
    seq(|defs|, i requires 0 <= i < |defs| => BriefOf(defs[i]))
  }

  /** One category's list, or every category's. */
  datatype Listing = InCategory(perms: seq<Brief>) | Grouped(byCategory: map<string, seq<Brief>>)

  /** A key per category name, each holding that category's definitions. */
  function Grouping(registry: seq<Definition>, categories: seq<string>): (m: map<string, seq<Brief>>)
    ensures m.Keys == Elems(categories)
  {
    if categories == [] then map[]
    else
      var n := |categories| - 1;
      Grouping(registry, categories[..n])[categories[n] := Briefs(Filter(registry, categories[n]))]
  }

  /** `get_permissions_by_category`: a named category's list, or a map over every category name. */
  function CategoryListing(registry: seq<Definition>, categories: seq<string>, category: string): (r: Listing)
    ensures r.InCategory? <==> category != ""
    ensures r.Grouped? ==> r.byCategory.Keys == Elems(categories)
  {
    if category != "" then InCategory(Briefs(Filter(registry, category)))
    else Grouped(Grouping(registry, categories))
  }

  /** A brief is under a category exactly when it shows a registry definition of that category. */
  lemma BriefsOfCategory(registry: seq<Definition>, category: string, b: Brief)
    ensures b in Briefs(Filter(registry, category)) <==> exists d | d in registry :: d.category == category && BriefOf(d) == b
  {
    var listed := Filter(registry, category);
    if b in Briefs(listed) {
      var i :| 0 <= i < |listed| && Briefs(listed)[i] == b;
      FilterMeans(registry, category, listed[i]);
    }
    if exists d | d in registry :: d.category == category && BriefOf(d) == b {
      var d :| d in registry && d.category == category && BriefOf(d) == b;
      FilterMeans(registry, category, d);
      var i :| 0 <= i < |listed| && listed[i] == d;
      assert Briefs(listed)[i] == b;
    }
  }

  /** Each category's list, named or grouped, holds exactly the registry definitions of that category. */
  lemma {:induction false} CategoryListingMeans(registry: seq<Definition>, categories: seq<string>, category: string, cat: string, b: Brief)
    ensures var r := CategoryListing(registry, categories, category);
      r.InCategory? ==> (b in r.perms <==> exists d | d in registry :: d.category == category && BriefOf(d) == b)
    ensures var r := CategoryListing(registry, categories, category);
      r.Grouped? && cat in r.byCategory ==>
        (b in r.byCategory[cat] <==> exists d | d in registry :: d.category == cat && BriefOf(d) == b)
  {
    BriefsOfCategory(registry, category, b);
    GroupingAt(registry, categories, cat);
    BriefsOfCategory(registry, cat, b);
  }

  lemma {:induction false} GroupingAt(registry: seq<Definition>, categories: seq<string>, cat: string)
    ensures cat in Grouping(registry, categories) ==> Grouping(registry, categories)[cat] == Briefs(Filter(registry, cat))
  {
    if categories != [] {
      GroupingAt(registry, categories[..|categories| - 1], cat);
    }
  }

  // ---------------------------------------------------------------------
  // search_permissions
  // ---------------------------------------------------------------------

  /** The lower-cased query occurs in the lower-cased name, description or code. */
  predicate Matches(d: Definition, query: string)
  {
    var q := Lower(query);
    Contains(Lower(d.name), q) || Contains(Lower(d.description), q) || Contains(Lower(d.code), q)
  }

  /** `search_permissions`: the matching definitions, in registry order. */
  function Search(registry: seq<Definition>, query: string): (r: seq<Definition>)
    ensures |r| <= |registry|
  {
    if registry == [] then []
    else
      var n := |registry| - 1;
      Search(registry[..n], query) + (if Matches(registry[n], query) then [registry[n]] else [])
  }

  /** A definition is found exactly when it is registered and matches. */
  lemma {:induction false} SearchMeans(registry: seq<Definition>, query: string, d: Definition)
    ensures d in Search(registry, query) <==> d in registry && Matches(d, query)
  {
    if registry != [] {
      var n := |registry| - 1;
      SearchMeans(registry[..n], query, d);
      assert registry == registry[..n] + [registry[n]];
    }
  }

  /** Searching keeps registry order: the hits of a concatenation are the hits of each part, in turn. */
  lemma {:induction false} SearchAppend(a: seq<Definition>, b: seq<Definition>, query: string)
    ensures Search(a + b, query) == Search(a, query) + Search(b, query)
  {
    if b == [] {
      assert a + b == a;
    } else {
      var n := |b| - 1;
      SearchAppend(a, b[..n], query);
      var ab := a + b;
      assert ab[..|ab| - 1] == a + b[..n];
      assert ab[|ab| - 1] == b[n];
      var t := if Matches(b[n], query) then [b[n]] else [];
      assert Search(ab, query) == Search(a + b[..n], query) + t;
      assert Search(b, query) == Search(b[..n], query) + t;
      assert Search(a, query) + Search(b[..n], query) + t == Search(a, query) + (Search(b[..n], query) + t);
    }
  }

  /** The empty query matches every definition. */
  lemma {:induction false} SearchEmptyQuery(registry: seq<Definition>)
    ensures Search(registry, "") == registry
  {
    if registry != [] {
      var n := |registry| - 1;
      SearchEmptyQuery(registry[..n]);
      assert IsPrefix("", Lower(registry[n].name)[0..]);
      assert registry == registry[..n] + [registry[n]];
    }
  }

  // ---------------------------------------------------------------------
  // check_permission and get_user_permissions
  // ---------------------------------------------------------------------

  /** The answer of `check_permission`. */
  datatype Check = Check(
    user: string, code: string, hasPermission: bool,
    details: Option<Definition>, grantedByRoles: Option<seq<string>>)

  /** `check_permission` for `user` (the session user when empty) holding `roles`. */
  function CheckPermission(registry: seq<Definition>, db: RoleTable, sessionUser: string, user: string,
                           roles: seq<string>, code: string): (r: Check)
    ensures r.user == (if user == "" then sessionUser else user) && r.code == code
    ensures r.hasPermission == HasPermission(registry, db, roles, code)
    ensures r.details.Some? <==> Known(registry, code)
    ensures r.details.Some? ==> r.details.value.code == code
  {
    KnownMeans(registry, code);
    var has := HasPermission(registry, db, roles, code);
    var perms := UserPermissions(db, roles);
    var granted := if has && code in perms then Some(Roles.Roles(perms[code])) else None;
    Check(if user == "" then sessionUser else user, code, has, Lookup(registry, code), granted)
  }

  /** The granting roles are listed exactly when the user holds the permission through some granted row, and then they are the roles with such a row. */
  lemma CheckPermissionGrantedBy(registry: seq<Definition>, db: RoleTable, sessionUser: string, user: string,
                                 roles: seq<string>, code: string, role: string)
    ensures var r := CheckPermission(registry, db, sessionUser, user, roles, code);
      r.grantedByRoles.Some? <==> r.hasPermission && GrantedRow(db, roles, code)
    ensures var r := CheckPermission(registry, db, sessionUser, user, roles, code);
      r.grantedByRoles.Some? ==>
        (role in r.grantedByRoles.value <==>
          role in roles && role in db && exists x | x in db[role].rows :: x.code == code && x.isGranted)
  {
    var r := CheckPermission(registry, db, sessionUser, user, roles, code);
    UserPermissionsKeys(db, roles, code);
    if r.grantedByRoles.Some? {
      var group := WithCode(Fetch(db, roles), code);
      assert r.grantedByRoles.value == Roles.Roles(group);
      if role in r.grantedByRoles.value {
        var i :| 0 <= i < |group| && group[i].role == role;
        assert group[i] in group;
      }
      if role in roles && role in db && exists x | x in db[role].rows :: x.code == code && x.isGranted {
        var x :| x in db[role].rows && x.code == code && x.isGranted;
        assert Fetched(role, x) in group;
        var i :| 0 <= i < |group| && group[i] == Fetched(role, x);
        assert Roles.Roles(group)[i] == role;
      }
    }
  }

  /** The answer of `get_user_permissions`. */
  datatype UserView = UserView(
    user: string, roles: seq<string>, permissions: map<string, seq<Fetched>>,
    byCategory: map<string, seq<Entry>>, total: nat)

  /** `get_user_permissions`: only a System Manager may look at another user. */
  function ViewUserPermissions(registry: seq<Definition>, categories: seq<string>, db: RoleTable,
                               sessionUser: string, sessionRoles: seq<string>,
                               user: string, userRoles: seq<string>): (r: Result<UserView>)
    ensures r.Err? <==> user != "" && user != sessionUser && !IsSystemManager(sessionRoles)
    ensures r.Err? ==> r.error == VIEW_DENIED
    ensures r.Ok? ==> r.value.user == (if user == "" then sessionUser else user)
    ensures r.Ok? ==> r.value.total == |r.value.permissions|
    ensures r.Ok? ==> forall c :: c in r.value.permissions <==> GrantedRow(db, userRoles, c)
  {
    var target := if user == "" then sessionUser else user;
    if target != sessionUser && !IsSystemManager(sessionRoles) then Err(VIEW_DENIED)
    else
      var perms := UserPermissions(db, userRoles);
      assert forall c :: c in perms <==> GrantedRow(db, userRoles, c) by {
        forall c
          ensures c in perms <==> GrantedRow(db, userRoles, c)
        {
          UserPermissionsKeys(db, userRoles, c);
        }
      }
      var fetched := if userRoles == [] then [] else Fetch(db, userRoles);
      Ok(UserView(target, userRoles, perms, PermissionsByCategory(registry, categories, fetched), |perms|))
  }

  // ---------------------------------------------------------------------
  // get_role_permissions
  // ---------------------------------------------------------------------

  datatype RoleView = RoleView(role: string, permissions: seq<Row>, summary: Summary)

  /** `get_role_permissions`: an unknown role is an error; otherwise its ordered granted rows and its summary. */
  function RolePermissionsView(registry: seq<Definition>, db: RoleTable, role: string, userCount: nat): (r: Result<RoleView>)
    ensures r.Err? <==> role !in db
    ensures r.Err? ==> r.error == "Role " + role + " does not exist"
    ensures r.Ok? ==> forall x :: x in r.value.permissions <==> x in db[role].rows && x.isGranted
    ensures r.Ok? ==> r.value.summary.permissionCount == |db[role].rows|
  {
    if role !in db then Err("Role " + role + " does not exist")
    else Ok(RoleView(role, RolePermissions(db, role), RoleSummary(registry, db, role, userCount).value))
  }

  // ---------------------------------------------------------------------
  // Role-changing endpoints
  // ---------------------------------------------------------------------

  /** The answer of the create, update, revoke and clone endpoints. */
  datatype RoleResponse = RoleResponse(role: string, message: string, permissionsCount: nat)

  /** `create_custom_role`: System Managers only, then `create_role`. */
  method CreateCustomRole(callerRoles: seq<string>, existing: set<string>, registry: seq<Definition>,
                          name: string, codes: seq<string>, description: string)
    returns (r: Result<RoleResponse>, created: Role?)
    ensures r.Err? <==> !IsSystemManager(callerRoles) || name in existing
    ensures !IsSystemManager(callerRoles) ==> r == Err(CREATE_DENIED)
    ensures IsSystemManager(callerRoles) && name in existing ==> r == Err("Role " + name + " already exists")
    ensures r.Err? ==> created == null
    ensures r.Ok? ==> created != null && fresh(created) && created.name == name && created.isCustom
    ensures r.Ok? ==> created.customPermissions == GrantRows(registry, codes)
    ensures r.Ok? ==> r.value == RoleResponse(name, "Role " + name + " created successfully", |GrantRows(registry, codes)|)
  {
    created := null;
    if !IsSystemManager(callerRoles) {
      return Err(CREATE_DENIED), null;
    }
    var made := CreateRole(existing, registry, name, codes, description);
    if made.Err? {
      return Err(made.error), null;
    }
    created := made.value;
    r := Ok(RoleResponse(name, "Role " + name + " created successfully", |created.customPermissions|));
  }

  /** `update_role_permissions`: System Managers only, then the role's add-or-replace. */
  method UpdateRolePermissions(callerRoles: seq<string>, role: Role, registry: seq<Definition>,
                               codes: seq<string>, replace: bool)
    returns (r: Result<RoleResponse>)
    modifies role
    ensures r.Err? <==> !IsSystemManager(callerRoles)
    ensures r.Err? ==> r.error == MODIFY_DENIED && role.customPermissions == old(role.customPermissions)
    ensures r.Ok? ==> role.customPermissions == Updated(old(role.customPermissions), registry, codes, replace)
    ensures r.Ok? ==> r.value == RoleResponse(role.name, "Role permissions updated successfully", |role.customPermissions|)
  {
    if !IsSystemManager(callerRoles) {
      return Err(MODIFY_DENIED);
    }
    role.UpdatePermissions(registry, codes, replace);
    r := Ok(RoleResponse(role.name, "Role permissions updated successfully", |role.customPermissions|));
  }

  /** `revoke_permission`: System Managers only, then the role's revoke. */
  method RevokePermission(callerRoles: seq<string>, role: Role, code: string) returns (r: Result<RoleResponse>)
    modifies role
    ensures r.Err? <==> !IsSystemManager(callerRoles)
    ensures r.Err? ==> r.error == MODIFY_DENIED && role.customPermissions == old(role.customPermissions)
    ensures r.Ok? ==> role.customPermissions == Without(old(role.customPermissions), code)
    ensures r.Ok? ==> r.value == RoleResponse(role.name, "Permission revoked successfully", |role.customPermissions|)
  {
    if !IsSystemManager(callerRoles) {
      return Err(MODIFY_DENIED);
    }
    role.Revoke(code);
    r := Ok(RoleResponse(role.name, "Permission revoked successfully", |role.customPermissions|));
  }

  // ---------------------------------------------------------------------
  // bulk_assign_permissions
  // ---------------------------------------------------------------------

  /** The codes added, the number skipped and the codes refused by a bulk assignment. */
  datatype Tally = Tally(added: seq<string>, skipped: nat, invalid: seq<string>)

  /**
   * The bulk assignment as written: the codes on the role are taken once
   * before the loop, so a code repeated in the input is added again.
   */
  function BulkTallyAsWritten(registry: seq<Definition>, existing: set<string>, codes: seq<string>): Tally
  {
    if codes == [] then Tally([], 0, [])
    else
      var n := |codes| - 1;
      var t := BulkTallyAsWritten(registry, existing, codes[..n]);
      var c := codes[n];
      if c in existing then t.(skipped := t.skipped + 1)
      else if !Known(registry, c) then t.(invalid := t.invalid + [c])
      else t.(added := t.added + [c])
  }

  /** The bulk assignment with a code added earlier in the call counting as already on the role. */
  function BulkTally(registry: seq<Definition>, existing: set<string>, codes: seq<string>): Tally
  {
    if codes == [] then Tally([], 0, [])
    else
      var n := |codes| - 1;
      var t := BulkTally(registry, existing, codes[..n]);
      var c := codes[n];
      if c in existing || c in t.added then t.(skipped := t.skipped + 1)
      else if !Known(registry, c) then t.(invalid := t.invalid + [c])
      else t.(added := t.added + [c])
  }

  /** A registry code given twice to a role without it is added twice as written; once when earlier additions count. */
  lemma BulkRepeatAddedTwice(registry: seq<Definition>, c: string)
    requires Known(registry, c)
    ensures BulkTallyAsWritten(registry, {}, [c, c]).added == [c, c]
    ensures BulkTally(registry, {}, [c, c]) == Tally([c], 1, [])
  {
    assert [c, c][..1] == [c];
    assert [c][..0] == [];
    assert BulkTallyAsWritten(registry, {}, [c]) == Tally([c], 0, []);
    assert BulkTally(registry, {}, [c]) == Tally([c], 0, []);
  }

  /** Every input code is counted once: added, skipped or invalid. */
  lemma {:induction false} BulkTallyTotal(registry: seq<Definition>, existing: set<string>, codes: seq<string>)
    ensures var t := BulkTally(registry, existing, codes);
      |t.added| + t.skipped + |t.invalid| == |codes|
  {
    if codes != [] {
      BulkTallyTotal(registry, existing, codes[..|codes| - 1]);
    }
  }

  /** Added codes are new, registered and distinct; invalid codes are exactly the unregistered input codes not on the role. */
  lemma {:induction false} BulkTallyMeans(registry: seq<Definition>, existing: set<string>, codes: seq<string>)
    ensures var t := BulkTally(registry, existing, codes);
      forall c | c in t.added :: c in codes && Known(registry, c) && c !in existing
    ensures var t := BulkTally(registry, existing, codes);
      forall i, j | 0 <= i < j < |t.added| :: t.added[i] != t.added[j]
    ensures var t := BulkTally(registry, existing, codes);
      forall c :: c in t.invalid <==> c in codes && !Known(registry, c) && c !in existing
  {
    if codes != [] {
      var n := |codes| - 1;
      BulkTallyMeans(registry, existing, codes[..n]);
      assert codes == codes[..n] + [codes[n]];
      var t := BulkTally(registry, existing, codes[..n]);
      var c := codes[n];
      if !(c in existing || c in t.added) && Known(registry, c) {
        var added := t.added + [c];
        forall i, j | 0 <= i < j < |added|
          ensures added[i] != added[j]
        {
          if j == |added| - 1 {
            assert added[i] in t.added;
          }
        }
      }
    }
  }

  /** The new rows, one per code. */
  function NewRows(codes: seq<string>): (r: seq<Row>)
    ensures |r| == |codes|
    ensures forall i | 0 <= i < |codes| :: r[i] == NewRow(codes[i])
  {
    seq(|codes|, i requires 0 <= i < |codes| => NewRow(codes[i]))
  }

  /** The rows a bulk assignment adds are the rows an update without replace adds. */
  lemma {:induction false} BulkAgreesWithUpdate(registry: seq<Definition>, existing: set<string>, codes: seq<string>)
    ensures NewRows(BulkTally(registry, existing, codes).added) == Appended(registry, existing, codes)
    ensures Elems(BulkTally(registry, existing, codes).added) == CodeSet(Appended(registry, existing, codes))
  {
    if codes != [] {
      var n := |codes| - 1;
      BulkAgreesWithUpdate(registry, existing, codes[..n]);
      var t := BulkTally(registry, existing, codes[..n]);
      var c := codes[n];
      assert NewRows(t.added + [c]) == NewRows(t.added) + [NewRow(c)];
      assert CodeSet(Appended(registry, existing, codes[..n]) + [NewRow(c)])
        == CodeSet(Appended(registry, existing, codes[..n])) + {c};
    }
  }

  /** The answer of `bulk_assign_permissions`; `saved` records whether the role was saved. */
  datatype BulkResponse = BulkResponse(role: string, added: nat, skipped: nat, invalid: seq<string>, saved: bool)

  /** `bulk_assign_permissions`: System Managers only; skip codes on the role, refuse unregistered ones, append the rest. */
  method BulkAssign(callerRoles: seq<string>, role: Role, registry: seq<Definition>, codes: seq<string>)
    returns (r: Result<BulkResponse>)
    modifies role
    ensures r.Err? <==> !IsSystemManager(callerRoles)
    ensures r.Err? ==> r.error == MODIFY_DENIED && role.customPermissions == old(role.customPermissions)
    ensures r.Ok? ==>
      var t := BulkTally(registry, CodeSet(old(role.customPermissions)), codes);
      r.value == BulkResponse(role.name, |t.added|, t.skipped, t.invalid, |t.added| > 0) &&
      role.customPermissions == old(role.customPermissions) + NewRows(t.added)
  {
    if !IsSystemManager(callerRoles) {
      return Err(MODIFY_DENIED);
    }
    ghost var base := role.customPermissions;
    var existing := CodeSet(role.customPermissions);
    var added: nat := 0;
    var skipped: nat := 0;
    var invalid: seq<string> := [];
    ghost var addedCodes: seq<string> := [];
    for i := 0 to |codes|
      invariant BulkTally(registry, CodeSet(base), codes[..i]) == Tally(addedCodes, skipped, invalid)
      invariant added == |addedCodes|
      invariant existing == CodeSet(base) + Elems(addedCodes)
      invariant role.customPermissions == base + NewRows(addedCodes)
    {
      var c := codes[i];
      assert codes[..i + 1][..i] == codes[..i];
      if c in existing {
        skipped := skipped + 1;
        continue;
      }
      if !Known(registry, c) {
        invalid := invalid + [c];
        continue;
      }
      assert NewRows(addedCodes + [c]) == NewRows(addedCodes) + [NewRow(c)];
      role.customPermissions := role.customPermissions + [NewRow(c)];
      added := added + 1;
      addedCodes := addedCodes + [c];
      existing := existing + {c};
    }
    assert codes[..|codes|] == codes;
    r := Ok(BulkResponse(role.name, added, skipped, invalid, added > 0));
  }

  // ---------------------------------------------------------------------
  // clone_role
  // ---------------------------------------------------------------------

  /** The codes of some rows, in order. */
  function CodesOfRows(rows: seq<Row>): (r: seq<string>)
    ensures |r| == |rows| && forall i :: 0 <= i < |rows| ==> r[i] == rows[i].code
  {
    seq(|rows|, i requires 0 <= i < |rows| => rows[i].code)
  }

  /** A code is listed exactly when one of the role's granted rows carries it. */
  lemma GrantedCodes(db: RoleTable, role: string)
    ensures var r := CodesOfRows(RolePermissions(db, role));
      forall c :: c in r <==> role in db && exists x | x in db[role].rows :: x.isGranted && x.code == c
  {
    var rows := RolePermissions(db, role);
    var r := CodesOfRows(rows);
    forall c
      ensures c in r <==> role in db && exists x | x in db[role].rows :: x.isGranted && x.code == c
    {
      if c in r {
        var i :| 0 <= i < |r| && r[i] == c;
        assert rows[i] in rows;
      }
      if role in db && exists x | x in db[role].rows :: x.isGranted && x.code == c {
        var x :| x in db[role].rows && x.isGranted && x.code == c;
        assert x in rows;
        var i :| 0 <= i < |rows| && rows[i] == x;
        assert r[i] == c;
      }
    }
  }

  /** The codes of a role's granted rows, ordered by category, then name. */
  function SourceCodes(db: RoleTable, role: string): (r: seq<string>)
    ensures forall c :: c in r <==> role in db && exists x | x in db[role].rows :: x.isGranted && x.code == c
  {
    GrantedCodes(db, role);
    CodesOfRows(RolePermissions(db, role))
  }

  /** `clone_role`: System Managers only; the source must exist; the new role grants the source's registered codes. */
  method CloneRole(callerRoles: seq<string>, db: RoleTable, registry: seq<Definition>,
                   source: string, name: string, description: string)
    returns (r: Result<RoleResponse>, created: Role?)
    ensures r.Err? <==> !IsSystemManager(callerRoles) || source !in db || name in db
    ensures !IsSystemManager(callerRoles) ==> r == Err(CREATE_DENIED)
    ensures IsSystemManager(callerRoles) && source !in db ==> r == Err("Source role " + source + " does not exist")
    ensures IsSystemManager(callerRoles) && source in db && name in db ==> r == Err("Role " + name + " already exists")
    ensures r.Err? ==> created == null
    ensures r.Ok? ==> created != null && fresh(created) && created.name == name && created.isCustom
    ensures r.Ok? ==> created.customPermissions == GrantRows(registry, SourceCodes(db, source))
    ensures r.Ok? ==> r.value == RoleResponse(name, "Role " + name + " cloned from " + source, |created.customPermissions|)
  {
    if !IsSystemManager(callerRoles) {
      return Err(CREATE_DENIED), null;
    }
    if source !in db {
      return Err("Source role " + source + " does not exist"), null;
    }
    var codes := SourceCodes(db, source);
    var made := CreateRole(db.Keys, registry, name, codes, description);
    if made.Err? {
      return Err(made.error), null;
    }
    created := made.value;
    r := Ok(RoleResponse(name, "Role " + name + " cloned from " + source, |created.customPermissions|));
  }

  /** A clone grants a code exactly when the code is registered and granted on the source. */
  lemma CloneGrants(registry: seq<Definition>, db: RoleTable, source: string, c: string)
    requires source in db
    ensures NewRow(c) in GrantRows(registry, SourceCodes(db, source)) <==>
      Known(registry, c) && exists x | x in db[source].rows :: x.isGranted && x.code == c
  {
    GrantRowsMeans(registry, SourceCodes(db, source));
  }
}
