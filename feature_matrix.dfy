// The plan-level feature matrix: the subscription context laid out with
// its modules sorted by key, cached per normalised plan key; and the same
// matrix for one user, with every module and feature tagged with whether
// the user may use it.

module FeatureMatrix {
  import opened Common
  import opened JsonValue
  import opened PyDict
  import opened SubscriptionContext

  const MANAGED_BY: string := "BLKSHP Operations"
  const ADMIN_MESSAGE: string := "Feature toggles are administered solely by BLKSHP Operations."

  /** `_normalize_plan_key`: the normalised plan code, or "__no_plan__" for a missing or blank one. */
  function NormalizePlanKey(planCode: string): (r: string)
    ensures r != ""
  {
    if planCode == "" then NO_PLAN_KEY
    else if Normalize(planCode) == "" then NO_PLAN_KEY
    else Normalize(planCode)
  }

  /** A normalised key normalises to itself, and surrounding whitespace does not change the key. */
  lemma NormalizePlanKeyStable(planCode: string)
    ensures NormalizePlanKey(NormalizePlanKey(planCode)) == NormalizePlanKey(planCode)
    ensures NormalizePlanKey(Strip(planCode)) == NormalizePlanKey(planCode)
  {
    NormalizeIdempotent(planCode);
    StripIdempotent(planCode);
    assert Normalize(NO_PLAN_KEY) == NO_PLAN_KEY;
  }

  // ---------------------------------------------------------------------
  // _build_plan_matrix
  // ---------------------------------------------------------------------

  /** The plan matrix payload (without its timestamp). */
  datatype Matrix = Matrix(planCode: string, plan: Option<PlanState>, modules: seq<ModuleState>,
                           enabledModules: seq<string>, featureStates: Dict<Json>, registry: Dict<ToggleMeta>,
                           managedBy: string, message: string)

  /** A payload as returned: the matrix and its `generated_at`. */
  datatype Payload = Payload(matrix: Matrix, generatedAt: int)

  predicate ModuleLt(a: ModuleState, b: ModuleState)
  {
    StrLt(a.key, b.key)
  }

  lemma ModuleLtOrder()
    ensures StrictOrder(ModuleLt)
  {
    forall a: ModuleState ensures !ModuleLt(a, a) {
      StrLtIrreflexive(a.key);
    }
    forall a: ModuleState, b: ModuleState, c: ModuleState | ModuleLt(a, b) && ModuleLt(b, c) ensures ModuleLt(a, c) {
      StrLtTransitive(a.key, b.key, c.key);
    }
  }

  /** `modules.sort(key=lambda entry: entry["key"])`. */
  function SortedModules(modules: Dict<ModuleState>): (r: seq<ModuleState>)
    ensures SortedBy(r, ModuleLt)
    ensures multiset(r) == multiset(ValuesOf(modules))
  {
    ModuleLtOrder();
    SortBy(ValuesOf(modules), ModuleLt)
  }

  /** The keys of the enabled modules, in order. */
  function EnabledKeys(modules: seq<ModuleState>): (r: seq<string>)
    ensures |r| <= |modules|
  {
    if modules == [] then []
    else
      var front := EnabledKeys(modules[..|modules| - 1]);
      var last := modules[|modules| - 1];
      if last.isEnabled then front + [last.key] else front
  }

  /** A key is listed as enabled exactly when some enabled module has it. */
  lemma {:induction false} EnabledKeysMeans(modules: seq<ModuleState>, k: string)
    ensures k in EnabledKeys(modules) <==> exists i :: 0 <= i < |modules| && modules[i].key == k && modules[i].isEnabled
  {
    if modules != [] {
      var front := modules[..|modules| - 1];
      EnabledKeysMeans(front, k);
      assert forall i :: 0 <= i < |front| ==> front[i] == modules[i];
    }
  }

  /** Taken from modules sorted by key, the enabled keys are in key order too. */
  lemma {:induction false} EnabledKeysSorted(modules: seq<ModuleState>)
    requires SortedBy(modules, ModuleLt)
    ensures forall i, j :: 0 <= i < j < |EnabledKeys(modules)| ==> !StrLt(EnabledKeys(modules)[j], EnabledKeys(modules)[i])
  {
    if modules != [] {
      var front := modules[..|modules| - 1];
      var last := modules[|modules| - 1];
      assert SortedBy(front, ModuleLt) by {
        assert forall i :: 0 <= i < |front| ==> front[i] == modules[i];
      }
      EnabledKeysSorted(front);
      if last.isEnabled {
        var e := EnabledKeys(modules);
        forall i | 0 <= i < |EnabledKeys(front)| ensures !StrLt(last.key, EnabledKeys(front)[i]) {
          EnabledKeysMeans(front, EnabledKeys(front)[i]);
          var m :| 0 <= m < |front| && front[m].key == EnabledKeys(front)[i] && front[m].isEnabled;
          assert modules[m] == front[m];
        }
      }
    }
  }

  /** `_build_plan_matrix`. */
  function BuildPlanMatrix(ctx: Context, planCode: string): Matrix
  {
    var modules := SortedModules(ctx.modules);
    Matrix(if ctx.plan.Some? then ctx.plan.value.planCode else planCode, ctx.plan, modules,
           EnabledKeys(modules), ctx.featureStates, ctx.registry, MANAGED_BY, ADMIN_MESSAGE)
  }

  /**
   * The matrix lists the context's modules sorted by key, and
   * `enabled_modules` holds exactly the enabled keys, in that order.
   */
  lemma PlanMatrixMeans(ctx: Context, planCode: string, k: string)
    ensures var m := BuildPlanMatrix(ctx, planCode);
      && SortedBy(m.modules, ModuleLt)
      && multiset(m.modules) == multiset(ValuesOf(ctx.modules))
      && (k in m.enabledModules <==> exists i :: 0 <= i < |m.modules| && m.modules[i].key == k && m.modules[i].isEnabled)
      && (forall i, j :: 0 <= i < j < |m.enabledModules| ==> !StrLt(m.enabledModules[j], m.enabledModules[i]))
      && (ctx.plan.Some? ==> m.planCode == ctx.plan.value.planCode)
  {
    var m := BuildPlanMatrix(ctx, planCode);
    EnabledKeysMeans(m.modules, k);
    EnabledKeysSorted(m.modules);
  }

  // ---------------------------------------------------------------------
  // get_feature_matrix and its cache
  // ---------------------------------------------------------------------

  /** The plan a matrix is asked for: the one given, else the company's. */
  function MatrixPlan(db: Db, planCode: string, company: string): string
  {
    if planCode != "" then planCode else ResolvePlan(db, company)
  }

  /** The shared cache of plan matrices, keyed by normalised plan key. */
  class MatrixCache {
    var entries: map<string, Matrix>

    constructor()
      ensures entries == map[]
    {
      entries := map[];
    }

    /** `clear_feature_matrix_cache`. */
    method Clear()
      modifies this
      ensures entries == map[]
    {
      entries := map[];
    }

    /**
     * `get_feature_matrix`: without `refresh`, a cached matrix is returned
     * (a copy: values here cannot be shared) and a built one is stored; with
     * `refresh`, the matrix is built from a fresh context and neither cache
     * is read or written.
     */
    method GetFeatureMatrix(db: Db, planCode: string, company: string, refresh: bool, contexts: ContextCache, now: int)
      returns (payload: Payload)
      modifies this, contexts
      ensures payload.generatedAt == now
      ensures var plan := MatrixPlan(db, planCode, company); var key := NormalizePlanKey(plan);
        && (!refresh && key in old(entries) ==>
              payload.matrix == old(entries)[key] && entries == old(entries) && contexts.entries == old(contexts.entries))
        && (refresh ==>
              payload.matrix == BuildPlanMatrix(BuildContext(db, plan), plan)
              && entries == old(entries) && contexts.entries == old(contexts.entries))
        && (!refresh && key !in old(entries) ==>
              entries == old(entries)[key := payload.matrix]
              && payload.matrix == BuildPlanMatrix(
                   if CacheKey(plan) in old(contexts.entries) then old(contexts.entries)[CacheKey(plan)] else BuildContext(db, plan),
                   plan)
              && contexts.entries == (if CacheKey(plan) in old(contexts.entries) then old(contexts.entries)
                                      else old(contexts.entries)[CacheKey(plan) := BuildContext(db, plan)]))
    {
      var plan := MatrixPlan(db, planCode, company);
      var key := NormalizePlanKey(plan);
      if !refresh && key in entries {
        return Payload(entries[key], now);
      }
      assert ResolvedPlan(db, company, plan) == plan;
      var ctx := contexts.Lookup(db, company, plan, !refresh);
      var matrix := BuildPlanMatrix(ctx, plan);
      if !refresh {
        entries := entries[key := matrix];
      }
      payload := Payload(matrix, now);
    }
  }

  // ---------------------------------------------------------------------
  // get_feature_matrix_for_user
  // ---------------------------------------------------------------------

  function AccessItems(keys: seq<string>, allowed: string -> bool): (r: seq<(string, bool)>)
    ensures |r| == |keys|
    ensures forall i :: 0 <= i < |keys| ==> r[i] == (keys[i], allowed(keys[i]))
  {
    seq(|keys|, i requires 0 <= i < |keys| => (keys[i], allowed(keys[i])))
  }

  /** `_evaluate_module_access` and `_evaluate_feature_access`: the access flag of every key. */
  method EvaluateAccess(keys: seq<string>, allowed: string -> bool) returns (access: Dict<bool>)
    ensures access == PutAll([], AccessItems(keys, allowed))
  {
    access := [];
    for i := 0 to |keys|
      invariant access == PutAll([], AccessItems(keys[..i], allowed))
    {
      assert AccessItems(keys[..i + 1], allowed) == AccessItems(keys[..i], allowed) + [(keys[i], allowed(keys[i]))];
      PutAllSnoc([], AccessItems(keys[..i], allowed), (keys[i], allowed(keys[i])));
      access := Put(access, keys[i], allowed(keys[i]));
    }
    assert keys[..|keys|] == keys;
  }

  /** Every entry of an access map carries the flag of its own key. */
  predicate Faithful(access: Dict<bool>, allowed: string -> bool)
  {
    forall i :: 0 <= i < |access| ==> access[i].1 == allowed(access[i].0)
  }

  lemma {:induction false} PutFaithful(d: Dict<bool>, k: string, allowed: string -> bool)
    requires Faithful(d, allowed)
    ensures Faithful(Put(d, k, allowed(k)), allowed)
  {
    if d != [] && d[0].0 != k {
      PutFaithful(d[1..], k, allowed);
      assert forall i :: 1 <= i < |d| ==> d[1..][i - 1] == d[i];
    }
  }

  /** The access map has one entry per distinct key, each with that key's flag. */
  lemma {:induction false} AccessMeans(keys: seq<string>, allowed: string -> bool)
    ensures var access := PutAll([], AccessItems(keys, allowed));
      DistinctKeys(access) && Faithful(access, allowed) && (forall k :: k in KeysOf(access) <==> k in keys)
  {
    var items := AccessItems(keys, allowed);
    PutAllKeys([], items);
    assert forall k :: k in KeysOf(items) <==> k in keys by {
      forall k | k in keys ensures k in KeysOf(items) {
        var i :| 0 <= i < |keys| && keys[i] == k;
        assert KeysOf(items)[i] == k;
      }
    }
    if keys != [] {
      var front := keys[..|keys| - 1];
      AccessMeans(front, allowed);
      assert keys == front + [keys[|keys| - 1]];
      assert items == AccessItems(front, allowed) + [(keys[|keys| - 1], allowed(keys[|keys| - 1]))];
      PutAllSnoc([], AccessItems(front, allowed), (keys[|keys| - 1], allowed(keys[|keys| - 1])));
      PutFaithful(PutAll([], AccessItems(front, allowed)), keys[|keys| - 1], allowed);
    }
  }

  /** `[key for key, has_access in access.items() if has_access]`. */
  function Granted(access: Dict<bool>): (r: seq<string>)
  {
    if access == [] then []
    else
      var front := Granted(access[..|access| - 1]);
      var last := access[|access| - 1];
      if last.1 then front + [last.0] else front
  }

  lemma {:induction false} GrantedMeans(access: Dict<bool>, k: string)
    ensures k in Granted(access) <==> exists i :: 0 <= i < |access| && access[i] == (k, true)
  {
    if access != [] {
      var front := access[..|access| - 1];
      GrantedMeans(front, k);
      assert forall i :: 0 <= i < |front| ==> front[i] == access[i];
    }
  }

  /** A module the user is tagged with. */
  datatype UserModule = UserModule(entry: ModuleState, userHasAccess: bool)

  /** The user's matrix. */
  datatype UserMatrix = UserMatrix(payload: Payload, modules: seq<UserModule>, userAccessibleModules: seq<string>,
                                   userFeatureAccess: Dict<bool>, user: string, company: string, roles: seq<string>)

  function ModuleKeys(modules: seq<ModuleState>): (r: seq<string>)
    ensures |r| == |modules|
    ensures forall i :: 0 <= i < |modules| ==> r[i] == modules[i].key
  {
    seq(|modules|, i requires 0 <= i < |modules| => modules[i].key)
  }

  /**
   * The user part of `get_feature_matrix_for_user`, given the plan matrix:
   * every module is tagged with the user's module access, and the
   * accessible modules are exactly the granted keys.  `moduleAccess` and
   * `featureAccess` stand for the permission service's module and feature
   * checks.
   */
  method TagForUser(payload: Payload, user: string, company: string, roles: seq<string>,
                    moduleAccess: string -> bool, featureAccess: string -> bool) returns (r: UserMatrix)
    ensures r.payload == payload && r.user == user && r.company == company && r.roles == roles
    ensures |r.modules| == |payload.matrix.modules|
    ensures forall i :: 0 <= i < |r.modules| ==>
      r.modules[i] == UserModule(payload.matrix.modules[i], moduleAccess(payload.matrix.modules[i].key))
    ensures forall k :: k in r.userAccessibleModules <==> k in ModuleKeys(payload.matrix.modules) && moduleAccess(k)
    ensures forall k :: k in KeysOf(r.userFeatureAccess) <==> k in KeysOf(payload.matrix.registry)
    ensures Faithful(r.userFeatureAccess, featureAccess)
  {
    var modules := payload.matrix.modules;
    var keys := ModuleKeys(modules);
    var access := EvaluateAccess(keys, moduleAccess);
    var features := EvaluateAccess(KeysOf(payload.matrix.registry), featureAccess);
    AccessMeans(keys, moduleAccess);
    AccessMeans(KeysOf(payload.matrix.registry), featureAccess);
    var tagged: seq<UserModule> := [];
    for i := 0 to |modules|
      invariant |tagged| == i
      invariant forall j :: 0 <= j < i ==> tagged[j] == UserModule(modules[j], moduleAccess(modules[j].key))
    {
      tagged := tagged + [UserModule(modules[i], moduleAccess(modules[i].key))];
    }
    var granted := Granted(access);
    forall k ensures k in granted <==> k in keys && moduleAccess(k) {
      GrantedMeans(access, k);
      if k in keys && moduleAccess(k) {
        assert k in KeysOf(access);
        var i :| 0 <= i < |access| && KeysOf(access)[i] == k;
        assert access[i] == (k, true);
      }
    }
    r := UserMatrix(payload, tagged, granted, features, user, company, roles);
  }

  /**
   * `get_feature_matrix_for_user`: the user defaults to the session user,
   * the company to the user's own company (`userCompany`), and the matrix
   * is the plan matrix of that company.
   */
  method GetFeatureMatrixForUser(user: string, sessionUser: string, company: string, userCompany: string, refresh: bool,
                                 db: Db, cache: MatrixCache, contexts: ContextCache, roles: seq<string>,
                                 moduleAccess: string -> bool, featureAccess: string -> bool, now: int)
    returns (r: UserMatrix)
    modifies cache, contexts
    ensures r.user == (if user != "" then user else sessionUser)
    ensures r.company == (if company != "" then company else userCompany)
    ensures r.payload.generatedAt == now
    ensures var where := if company != "" then company else userCompany;
      var plan := MatrixPlan(db, "", where); var key := NormalizePlanKey(plan);
      && (!refresh && key in old(cache.entries) ==> r.payload.matrix == old(cache.entries)[key] && cache.entries == old(cache.entries))
      && (refresh ==> r.payload.matrix == BuildPlanMatrix(BuildContext(db, plan), plan) && cache.entries == old(cache.entries))
      && (!refresh && key !in old(cache.entries) ==>
            cache.entries == old(cache.entries)[key := r.payload.matrix]
            && r.payload.matrix == BuildPlanMatrix(
                 if CacheKey(plan) in old(contexts.entries) then old(contexts.entries)[CacheKey(plan)] else BuildContext(db, plan),
                 plan))
    ensures forall i :: 0 <= i < |r.modules| ==> r.modules[i].userHasAccess == moduleAccess(r.modules[i].entry.key)
    ensures forall k :: k in r.userAccessibleModules <==> k in ModuleKeys(r.payload.matrix.modules) && moduleAccess(k)
    ensures Faithful(r.userFeatureAccess, featureAccess)
  {
    var who := if user != "" then user else sessionUser;
    var where := if company != "" then company else userCompany;
    var payload := cache.GetFeatureMatrix(db, "", where, refresh, contexts, now);
    r := TagForUser(payload, who, where, roles, moduleAccess, featureAccess);
  }

  // ---------------------------------------------------------------------
  // _summarize_permissions
  // ---------------------------------------------------------------------

  /** All permission codes of a by-category summary, category after category. */
  function Flattened(byCategory: seq<(string, seq<string>)>): seq<string>
  {
    if byCategory == [] then [] else byCategory[0].1 + Flattened(byCategory[1..])
  }

  /** `sum(len(entries) for entries in by_category.values())`. */
  function TotalPermissions(byCategory: seq<(string, seq<string>)>): nat
  {
    if byCategory == [] then 0 else |byCategory[0].1| + TotalPermissions(byCategory[1..])
  }

  /** The total counts every listed permission once. */
  lemma {:induction false} TotalCountsAll(byCategory: seq<(string, seq<string>)>)
    ensures TotalPermissions(byCategory) == |Flattened(byCategory)|
  {
    if byCategory != [] {
      TotalCountsAll(byCategory[1..]);
    }
  }
}
