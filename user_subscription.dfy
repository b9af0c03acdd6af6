// The subscription side of the user document: the user's company, the
// subscription context cached on the user instance, and the module and
// feature checks built on it.

module UserSubscription {
  import opened Common
  import opened JsonValue
  import opened PyDict
  import opened SubscriptionContext
  import PermissionService

  /** The roles of BLKSHP operations staff: the bypass roles and "BLKSHP Operations". */
  const OPERATIONS_ROLES: seq<string> := PermissionService.SYSTEM_ROLES_BYPASS + ["BLKSHP Operations"]

  /** `_is_internal_operator`: the Administrator user, or a user holding an operations role. */
  predicate IsInternalOperator(user: string, roles: seq<string>)
  {
    user == "Administrator" || exists role | role in roles :: role in OPERATIONS_ROLES
  }

  lemma InternalOperatorMeans(user: string, roles: seq<string>)
    ensures IsInternalOperator(user, roles) <==>
      user == "Administrator" || "System Manager" in roles || "Administrator" in roles || "BLKSHP Operations" in roles
  {
    assert OPERATIONS_ROLES == ["System Manager", "Administrator", "BLKSHP Operations"];
    if "System Manager" in roles {
      assert "System Manager" in OPERATIONS_ROLES;
    }
    if "Administrator" in roles {
      assert "Administrator" in OPERATIONS_ROLES;
    }
    if "BLKSHP Operations" in roles {
      assert "BLKSHP Operations" in OPERATIONS_ROLES;
    }
  }

  /** The module check on a context: the module is present and enabled. */
  predicate ModuleEnabled(ctx: Context, key: string)
  {
    var m := Get(ctx.modules, key);
    m.Some? && m.value.isEnabled
  }

  /** The feature check on a context, branch by branch. */
  predicate FeatureEnabled(ctx: Context, key: string)
  {
    var value := Get(ctx.featureStates, key);
    if value.Some? && value.value.JBool? then value.value.b
    else if value.Some? && value.value.JObj? then value.value.fields != []
    else if value.None? || value.value.JNull? then
      var meta := Get(ctx.registry, key);
      meta.Some? && meta.value.defaultEnabled
    else Truthy(value.value)
  }

  /**
   * Only the truthiness of a stored feature value matters; a missing or
   * null value falls back to the registry default, and an unregistered
   * feature is off.
   */
  lemma FeatureEnabledMeans(ctx: Context, key: string)
    ensures var value := Get(ctx.featureStates, key);
      && (value.Some? && !value.value.JNull? ==> (FeatureEnabled(ctx, key) <==> Truthy(value.value)))
      && (value.None? || value.value.JNull? ==>
            (FeatureEnabled(ctx, key) <==> exists i :: 0 <= i < |ctx.registry| && ctx.registry[i].0 == key
                                                    && Get(ctx.registry, key).value.defaultEnabled))
  {
    var meta := Get(ctx.registry, key);
    if meta.Some? {
      GetFound(ctx.registry, key);
    }
  }

  /** The plan code of a context, "" when there is no plan. */
  function PlanCodeOf(ctx: Context): (r: string)
    ensures ctx.plan.None? ==> r == ""
  {
    if ctx.plan.Some? then ctx.plan.value.planCode else ""
  }

  /** The company that `get_company` settles on when the user has none of their own. */
  predicate HasCompany(departmentCompany: map<string, string>, department: string)
  {
    department in departmentCompany && departmentCompany[department] != ""
  }

  /** The company the user's context is loaded for. */
  function ContextCompany(company: string, ownCompany: string): string
  {
    if company != "" then company else ownCompany
  }

  /**
   * The user document with the subscription helpers: `cached` is the
   * context cached on the instance (`_blkshp_subscription_context`).
   */
  class SubscriptionUser {
    const name: string
    const company: string
    var cached: Option<Context>

    constructor(name: string, company: string)
      ensures this.name == name && this.company == company && cached.None?
    {
      this.name := name;
      this.company := company;
      cached := None;
    }

    /**
     * `get_company`: the user's own company, else the company of the first
     * accessible department that has one, else none ("").  `accessible`
     * is the user's readable departments in order and `departmentCompany`
     * the Department table's company column.
     */
    method GetCompany(accessible: seq<string>, departmentCompany: map<string, string>) returns (r: string)
      ensures company != "" ==> r == company
      ensures company == "" && r == "" ==> forall d | d in accessible :: !HasCompany(departmentCompany, d)
      ensures company == "" && r != "" ==>
        exists i :: 0 <= i < |accessible| && HasCompany(departmentCompany, accessible[i])
          && r == departmentCompany[accessible[i]]
          && forall j :: 0 <= j < i ==> !HasCompany(departmentCompany, accessible[j])
    {
      if company != "" {
        return company;
      }
      var i := 0;
      while i < |accessible|
        invariant 0 <= i <= |accessible|
        invariant forall j :: 0 <= j < i ==> !HasCompany(departmentCompany, accessible[j])
      {
        if HasCompany(departmentCompany, accessible[i]) {
          return departmentCompany[accessible[i]];
        }
        i := i + 1;
      }
      return "";
    }

    /**
     * `get_subscription_context`: the context cached on the instance unless
     * `refresh`; otherwise the shared context of `company` (or the user's
     * own company, `ownCompany` being what `GetCompany` returns), which is
     * then cached on the instance.  The shared cache is consulted even
     * with `refresh`.
     */
    method GetSubscriptionContext(company: string, ownCompany: string, refresh: bool, db: Db, contexts: ContextCache)
      returns (ctx: Context)
      modifies this, contexts
      ensures !refresh && old(cached).Some? ==>
        ctx == old(cached).value && cached == old(cached) && contexts.entries == old(contexts.entries)
      ensures refresh || old(cached).None? ==>
        var key := CacheKey(ResolvePlan(db, ContextCompany(company, ownCompany)));
        && cached == Some(ctx)
        && (key in old(contexts.entries) ==> ctx == old(contexts.entries)[key] && contexts.entries == old(contexts.entries))
        && (key !in old(contexts.entries) ==>
              ctx == BuildContext(db, ResolvePlan(db, ContextCompany(company, ownCompany)))
              && contexts.entries == old(contexts.entries)[key := ctx])
      ensures cached == Some(ctx)
    {
      if !refresh && cached.Some? {
        return cached.value;
      }
      ctx := contexts.Lookup(db, ContextCompany(company, ownCompany), "", true);
      cached := Some(ctx);
    }

    /** `clear_subscription_context_cache`. */
    method ClearSubscriptionContextCache()
      modifies this
      ensures cached.None?
    {
      cached := None;
    }

    /** `get_subscription_plan_code`: the plan code of the (possibly cached) context. */
    method GetSubscriptionPlanCode(company: string, ownCompany: string, refresh: bool, db: Db, contexts: ContextCache)
      returns (code: string)
      modifies this, contexts
      ensures cached.Some? && code == PlanCodeOf(cached.value)
      ensures !refresh && old(cached).Some? ==> cached == old(cached) && contexts.entries == old(contexts.entries)
    {
      var ctx := GetSubscriptionContext(company, ownCompany, refresh, db, contexts);
      code := PlanCodeOf(ctx);
    }

    /**
     * `is_module_enabled`: a blank key is never enabled; an internal
     * operator has every module; anyone else has the modules enabled in
     * their context.  Only the last case loads a context.
     */
    method IsModuleEnabled(moduleKey: string, roles: seq<string>, company: string, ownCompany: string, refresh: bool,
                           db: Db, contexts: ContextCache) returns (enabled: bool)
      modifies this, contexts
      ensures Normalize(moduleKey) == "" ==> !enabled
      ensures Normalize(moduleKey) != "" && IsInternalOperator(name, roles) ==> enabled
      ensures Normalize(moduleKey) == "" || IsInternalOperator(name, roles) ==>
        cached == old(cached) && contexts.entries == old(contexts.entries)
      ensures Normalize(moduleKey) != "" && !IsInternalOperator(name, roles) ==>
        cached.Some? && enabled == ModuleEnabled(cached.value, Normalize(moduleKey))
    {
      var key := Normalize(moduleKey);
      if key == "" {
        return false;
      }
      if IsInternalOperator(name, roles) {
        return true;
      }
      var ctx := GetSubscriptionContext(company, ownCompany, refresh, db, contexts);
      enabled := ModuleEnabled(ctx, key);
    }

    /**
     * `is_feature_enabled`: a blank key is never enabled; an internal
     * operator has every feature; anyone else gets the feature's state in
     * their context.
     */
    method IsFeatureEnabled(featureKey: string, roles: seq<string>, company: string, ownCompany: string, refresh: bool,
                            db: Db, contexts: ContextCache) returns (enabled: bool)
      modifies this, contexts
      ensures Normalize(featureKey) == "" ==> !enabled
      ensures Normalize(featureKey) != "" && IsInternalOperator(name, roles) ==> enabled
      ensures Normalize(featureKey) == "" || IsInternalOperator(name, roles) ==>
        cached == old(cached) && contexts.entries == old(contexts.entries)
      ensures Normalize(featureKey) != "" && !IsInternalOperator(name, roles) ==>
        cached.Some? && enabled == FeatureEnabled(cached.value, Normalize(featureKey))
    {
      var key := Normalize(featureKey);
      if key == "" {
        return false;
      }
      if IsInternalOperator(name, roles) {
        return true;
      }
      var ctx := GetSubscriptionContext(company, ownCompany, refresh, db, contexts);
      enabled := FeatureEnabled(ctx, key);
    }
  }
}
