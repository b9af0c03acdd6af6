// The subscription management page of BLKSHP operations staff: the tenant
// list, one tenant's details, changing a tenant's plan and switching a
// module of the tenant's plan on or off, each action recorded in the
// subscription access log.
//
// The stored records are a `Db` value held by `Tenants` together with the
// Company table and the access log; the two shared caches are the objects
// the document hooks clear.  `frappe.only_for` is the role gate: the page
// passes "System Manager" where the framework expects the refusal message,
// so as written only BLKSHP Operations passes (`PermittedAsWritten`); the
// endpoints are modelled with the evidently intended gate `Permitted`.

module SubscriptionManagement {
  import opened Common
  import opened JsonValue
  import opened PyDict
  import opened SubscriptionContext
  import FeatureMatrix

  // ---------------------------------------------------------------------
  // The role gate
  // ---------------------------------------------------------------------

  /** The roles every endpoint of the page is restricted to. */
  const ADMIN_ROLES: seq<string> := ["BLKSHP Operations", "System Manager"]

  /** The refusal `frappe.only_for` raises. */
  const NOT_PERMITTED: string := "Not permitted"

  predicate Permitted(roles: seq<string>)
  {
    exists role | role in roles :: role in ADMIN_ROLES
  }

  /**
   * `frappe.only_for("BLKSHP Operations", "System Manager")` as written: the
   * framework reads its second argument as the refusal message, so the
   * role list is "BLKSHP Operations" alone; the Administrator always passes.
   */
  predicate PermittedAsWritten(user: string, roles: seq<string>)
  {
    user == "Administrator" || "BLKSHP Operations" in roles
  }

  /** A System Manager without BLKSHP Operations passes the intended gate and is refused by the gate as written. */
  lemma SystemManagerRefused()
    ensures Permitted(["System Manager"]) && !PermittedAsWritten("manager@example.com", ["System Manager"])
  {
    PermittedMeans(["System Manager"]);
  }

  /** The two gates agree on every caller holding BLKSHP Operations, and differ only on System Managers without it. */
  lemma GatesAgreeForOperations(user: string, roles: seq<string>)
    requires user != "Administrator"
    ensures PermittedAsWritten(user, roles) ==> Permitted(roles)
    ensures Permitted(roles) && !PermittedAsWritten(user, roles) <==>
      "System Manager" in roles && "BLKSHP Operations" !in roles
  {
    PermittedMeans(roles);
  }

  lemma PermittedMeans(roles: seq<string>)
    ensures Permitted(roles) <==> "BLKSHP Operations" in roles || "System Manager" in roles
  {
    if "BLKSHP Operations" in roles {
      assert "BLKSHP Operations" in ADMIN_ROLES;
    }
    if "System Manager" in roles {
      assert "System Manager" in ADMIN_ROLES;
    }
  }

  // ---------------------------------------------------------------------
  // Records
  // ---------------------------------------------------------------------

  /** A Company row. */
  datatype CompanyRow = CompanyRow(name: string, companyName: string, abbr: string, country: string, isGroup: bool)

  predicate CompanyExists(companies: seq<CompanyRow>, company: string)
  {
    exists i :: 0 <= i < |companies| && companies[i].name == company
  }

  predicate PlanExists(plans: seq<PlanRow>, plan: string)
  {
    exists i :: 0 <= i < |plans| && plans[i].name == plan
  }

  function NoSuchCompany(company: string): string
  {
    "Company " + company + " does not exist"
  }

  /** An entry of the subscription access log written by `_log_admin_action`. */
  datatype AdminEntry = AdminEntry(company: string, user: string, action: string, details: Json, ipAddress: Option<string>)

  // ---------------------------------------------------------------------
  // get_all_tenants
  // ---------------------------------------------------------------------

  /** The companies that are not groups, in stored order. */
  function Leaves(companies: seq<CompanyRow>): (r: seq<CompanyRow>)
    ensures |r| <= |companies|
    ensures forall c :: c in r <==> c in companies && !c.isGroup
  {
    if companies == [] then []
    else (if companies[0].isGroup then [] else [companies[0]]) + Leaves(companies[1..])
  }

  predicate CompanyLt(a: CompanyRow, b: CompanyRow)
  {
    StrLt(a.companyName, b.companyName)
  }

  lemma CompanyLtOrder()
    ensures StrictOrder(CompanyLt)
  {
    forall a: CompanyRow ensures !CompanyLt(a, a) {
      StrLtIrreflexive(a.companyName);
    }
    forall a: CompanyRow, b: CompanyRow, c: CompanyRow | CompanyLt(a, b) && CompanyLt(b, c) ensures CompanyLt(a, c) {
      StrLtTransitive(a.companyName, b.companyName, c.companyName);
    }
  }

  /** The companies the tenant list shows: the leaf companies by company name. */
  function Listed(companies: seq<CompanyRow>): (r: seq<CompanyRow>)
    ensures SortedBy(r, CompanyLt)
    ensures multiset(r) == multiset(Leaves(companies))
  {
    CompanyLtOrder();
    SortBy(Leaves(companies), CompanyLt)
  }

  /** Every leaf company is listed, and nothing else. */
  lemma ListedMeans(companies: seq<CompanyRow>)
    ensures forall c :: c in Listed(companies) <==> c in companies && !c.isGroup
  {
    SameElements(Listed(companies), Leaves(companies));
  }

  /** An enabled module as the tenant list shows it. */
  datatype ModuleSummary = ModuleSummary(key: string, moduleLabel: string, isRequired: bool)

  function SummaryOf(m: ModuleState): ModuleSummary
  {
    ModuleSummary(m.key, m.moduleLabel, m.isRequired)
  }

  /** The enabled modules, in the context's order. */
  function EnabledSummaries(modules: seq<ModuleState>): (r: seq<ModuleSummary>)
    ensures |r| <= |modules|
  {
    if modules == [] then []
    else (if modules[0].isEnabled then [SummaryOf(modules[0])] else []) + EnabledSummaries(modules[1..])
  }

  /** The summaries are exactly those of the enabled modules. */
  lemma {:induction false} EnabledSummariesMeans(modules: seq<ModuleState>)
    ensures forall s :: s in EnabledSummaries(modules) <==>
      exists i :: 0 <= i < |modules| && modules[i].isEnabled && SummaryOf(modules[i]) == s
    ensures (forall i :: 0 <= i < |modules| ==> !modules[i].isEnabled) <==> EnabledSummaries(modules) == []
  {
    if modules != [] {
      EnabledSummariesMeans(modules[1..]);
      forall s | s in EnabledSummaries(modules)
        ensures exists i :: 0 <= i < |modules| && modules[i].isEnabled && SummaryOf(modules[i]) == s
      {
        if !(modules[0].isEnabled && s == SummaryOf(modules[0])) {
          var k :| 0 <= k < |modules[1..]| && modules[1..][k].isEnabled && SummaryOf(modules[1..][k]) == s;
          assert modules[k + 1] == modules[1..][k];
        }
      }
      forall i | 0 <= i < |modules| && modules[i].isEnabled ensures SummaryOf(modules[i]) in EnabledSummaries(modules) {
        if i > 0 {
          assert modules[1..][i - 1] == modules[i];
        }
      }
      if forall i :: 0 <= i < |modules| ==> !modules[i].isEnabled {
        assert forall i :: 0 <= i < |modules[1..]| ==> !modules[1..][i].isEnabled by {
          forall i | 0 <= i < |modules[1..]| ensures !modules[1..][i].isEnabled {
            assert modules[1..][i] == modules[i + 1];
          }
        }
      }
    }
  }

  /** A row of the tenant list. */
  datatype TenantRow = TenantRow(company: string, companyName: string, abbr: string, country: string, planCode: string,
                                 planName: Option<string>, billingFrequency: Option<string>, basePrice: Option<real>,
                                 enabledModules: seq<ModuleSummary>, moduleCount: nat, hasOverrides: bool)

  /** The row of one company, `planCode` being its resolved plan and `ctx` its context. */
  function TenantRowOf(c: CompanyRow, planCode: string, ctx: Context): (r: TenantRow)
    ensures r.company == c.name && r.companyName == c.companyName && r.planCode == planCode
    ensures r.moduleCount == |r.enabledModules|
    ensures r.enabledModules == EnabledSummaries(ValuesOf(ctx.modules))
    ensures r.planName.None? <==> ctx.plan.None?
    ensures r.hasOverrides <==> ctx.plan.Some? && ctx.plan.value.defaultFeatureOverrides != []
  {
    var modules := EnabledSummaries(ValuesOf(ctx.modules));
    match ctx.plan
    case None =>
      TenantRow(c.name, c.companyName, c.abbr, c.country, planCode, None, None, None, modules, |modules|, false)
    case Some(p) =>
      TenantRow(c.name, c.companyName, c.abbr, c.country, planCode, Some(p.planName), Some(p.billingFrequency),
                p.basePrice, modules, |modules|, p.defaultFeatureOverrides != [])
  }

  /** A tenant without a plan has no modules listed and no overrides. */
  lemma NoPlanRow(c: CompanyRow, planCode: string, db: Db)
    requires BuildContext(db, planCode).plan.None?
    ensures var r := TenantRowOf(c, planCode, BuildContext(db, planCode));
      r.moduleCount == 0 && !r.hasOverrides && r.planName.None?
  {
  }

  /** `after` keeps every entry of `before`. */
  predicate Extends(before: map<string, Context>, after: map<string, Context>)
  {
    forall k | k in before :: k in after && after[k] == before[k]
  }

  /** The row of a company built from the context the cache holds for its plan, if it holds one. */
  function CachedRow(c: CompanyRow, db: Db, entries: map<string, Context>): Option<TenantRow>
  {
    var plan := ResolvePlan(db, c.name);
    if CacheKey(plan) in entries then Some(TenantRowOf(c, plan, entries[CacheKey(plan)])) else None
  }

  /** Each row is the row of the listed company at its place, built from the context the cache holds for the company's plan. */
  predicate Built(rows: seq<TenantRow>, listed: seq<CompanyRow>, db: Db, entries: map<string, Context>)
  {
    |rows| == |listed| && forall j :: 0 <= j < |rows| ==> CachedRow(listed[j], db, entries) == Some(rows[j])
  }

  /** `Built`, one row at a time from the end. */
  predicate BuiltRec(rows: seq<TenantRow>, listed: seq<CompanyRow>, db: Db, entries: map<string, Context>)
    decreases |rows|
  {
    |rows| == |listed| &&
    (rows == [] ||
     (BuiltRec(rows[..|rows| - 1], listed[..|listed| - 1], db, entries)
      && CachedRow(listed[|listed| - 1], db, entries) == Some(rows[|rows| - 1])))
  }

  lemma {:induction false} BuiltRecMeans(rows: seq<TenantRow>, listed: seq<CompanyRow>, db: Db, entries: map<string, Context>)
    requires BuiltRec(rows, listed, db, entries)
    ensures Built(rows, listed, db, entries)
    decreases |rows|
  {
    if rows != [] {
      var k := |rows| - 1;
      BuiltRecMeans(rows[..k], listed[..k], db, entries);
      forall j | 0 <= j < |rows|
        ensures CachedRow(listed[j], db, entries) == Some(rows[j])
      {
        if j < k {
          assert rows[..k][j] == rows[j] && listed[..k][j] == listed[j];
        }
      }
    }
  }

  lemma {:induction false} BuiltRecExtends(rows: seq<TenantRow>, listed: seq<CompanyRow>, db: Db,
                                           before: map<string, Context>, after: map<string, Context>)
    requires BuiltRec(rows, listed, db, before) && Extends(before, after)
    ensures BuiltRec(rows, listed, db, after)
    decreases |rows|
  {
    if rows != [] {
      var k := |rows| - 1;
      BuiltRecExtends(rows[..k], listed[..k], db, before, after);
      CachedRowExtends(listed[k], db, before, after);
    }
  }

  lemma ExtendsTransitive(a: map<string, Context>, b: map<string, Context>, c: map<string, Context>)
    requires Extends(a, b) && Extends(b, c)
    ensures Extends(a, c)
  {
  }

  /** A cached row stays as it was while the cache only gains entries. */
  lemma CachedRowExtends(c: CompanyRow, db: Db, before: map<string, Context>, after: map<string, Context>)
    requires CachedRow(c, db, before).Some? && Extends(before, after)
    ensures CachedRow(c, db, after) == CachedRow(c, db, before)
  {
  }

  // ---------------------------------------------------------------------
  // get_tenant_details
  // ---------------------------------------------------------------------

  /** An active plan as the plan picker shows it. */
  datatype PlanSummary = PlanSummary(name: string, planCode: string, planName: string,
                                     billingFrequency: string, basePrice: Option<real>)

  function PlanSummaryOf(p: PlanRow): PlanSummary
  {
    PlanSummary(p.name, p.planCode, p.planName, p.billingFrequency, p.basePrice)
  }

  function ActivePlans(plans: seq<PlanRow>): (r: seq<PlanRow>)
    ensures forall p :: p in r <==> p in plans && p.isActive
  {
    if plans == [] then []
    else (if plans[0].isActive then [plans[0]] else []) + ActivePlans(plans[1..])
  }

  predicate PlanLt(a: PlanRow, b: PlanRow)
  {
    StrLt(a.planName, b.planName)
  }

  lemma PlanLtOrder()
    ensures StrictOrder(PlanLt)
  {
    forall a: PlanRow ensures !PlanLt(a, a) {
      StrLtIrreflexive(a.planName);
    }
    forall a: PlanRow, b: PlanRow, c: PlanRow | PlanLt(a, b) && PlanLt(b, c) ensures PlanLt(a, c) {
      StrLtTransitive(a.planName, b.planName, c.planName);
    }
  }

  /** The active plans by plan name, as rows. */
  function SortedActive(plans: seq<PlanRow>): (r: seq<PlanRow>)
    ensures forall i, j :: 0 <= i < j < |r| ==> !StrLt(r[j].planName, r[i].planName)
    ensures forall p :: p in r <==> p in plans && p.isActive
  {
    PlanLtOrder();
    var sorted := SortBy(ActivePlans(plans), PlanLt);
    SameElements(sorted, ActivePlans(plans));
    sorted
  }

  /** Sequences with the same multiset have the same elements. */
  lemma SameElements<T>(a: seq<T>, b: seq<T>)
    requires multiset(a) == multiset(b)
    ensures forall x :: x in a <==> x in b
  {
    forall x ensures x in a <==> x in b {
      assert x in a <==> x in multiset(a);
      assert x in b <==> x in multiset(b);
    }
  }

  /** One summary per row, in the rows' order. */
  function Summaries(rows: seq<PlanRow>): (r: seq<PlanSummary>)
    ensures |r| == |rows|
    ensures forall i :: 0 <= i < |rows| ==> r[i] == PlanSummaryOf(rows[i])
  {
    seq(|rows|, i requires 0 <= i < |rows| => PlanSummaryOf(rows[i]))
  }

  /** The summaries of the active rows are exactly those of the active plans. */
  lemma SummariesOfActive(plans: seq<PlanRow>, sorted: seq<PlanRow>)
    requires forall p :: p in sorted <==> p in plans && p.isActive
    ensures forall p :: p in plans && p.isActive ==> PlanSummaryOf(p) in Summaries(sorted)
    ensures forall s :: s in Summaries(sorted) ==> exists p :: p in plans && p.isActive && PlanSummaryOf(p) == s
  {
    var r := Summaries(sorted);
    forall p | p in plans && p.isActive ensures PlanSummaryOf(p) in r {
      var k :| 0 <= k < |sorted| && sorted[k] == p;
      assert r[k] == PlanSummaryOf(p);
    }
    forall s | s in r ensures exists p :: p in plans && p.isActive && PlanSummaryOf(p) == s {
      var k :| 0 <= k < |r| && r[k] == s;
      assert sorted[k] in sorted;
    }
  }

  /** The active plans by plan name. */
  function AvailablePlans(plans: seq<PlanRow>): (r: seq<PlanSummary>)
    ensures forall i, j :: 0 <= i < j < |r| ==> !StrLt(r[j].planName, r[i].planName)
    ensures forall p :: p in plans && p.isActive ==> PlanSummaryOf(p) in r
    ensures forall s :: s in r ==> exists p :: p in plans && p.isActive && PlanSummaryOf(p) == s
  {
    var sorted := SortedActive(plans);
    SummariesOfActive(plans, sorted);
    Summaries(sorted)
  }

  /** The current plan as the details show it. */
  datatype CurrentPlan = CurrentPlan(code: string, name: string, billingFrequency: string, basePrice: Option<real>,
                                     isDefault: bool)

  /** A registered feature with the tenant's state of it. */
  datatype FeatureRow = FeatureRow(key: string, name: string, category: string, value: Option<Json>, default: bool)

  /** One row per registered feature, in registry order, carrying the context's value of it. */
  function FeatureRows(registry: Dict<ToggleMeta>, states: Dict<Json>): (r: seq<FeatureRow>)
    ensures |r| == |registry|
    ensures forall i :: 0 <= i < |r| ==>
      r[i].key == registry[i].0 && r[i].value == Get(states, registry[i].0) && r[i].default == registry[i].1.defaultEnabled
  {
    seq(|registry|, i requires 0 <= i < |registry| =>
      FeatureRow(registry[i].0, registry[i].1.name, registry[i].1.category, Get(states, registry[i].0),
                 registry[i].1.defaultEnabled))
  }

  datatype TenantDetails = TenantDetails(company: string, currentPlan: Option<CurrentPlan>,
                                         availablePlans: seq<PlanSummary>, modules: seq<ModuleState>,
                                         features: seq<FeatureRow>)

  function CurrentPlanOf(ctx: Context): (r: Option<CurrentPlan>)
    ensures r.None? <==> ctx.plan.None?
    ensures r.Some? ==> r.value.code == ctx.plan.value.planCode && r.value.isDefault == ctx.plan.value.isDefault
  {
    match ctx.plan
    case None => None
    case Some(p) => Some(CurrentPlan(p.planCode, p.planName, p.billingFrequency, p.basePrice, p.isDefault))
  }

  // ---------------------------------------------------------------------
  // toggle_module: the `enabled` argument
  // ---------------------------------------------------------------------

  /** The `enabled` argument: a boolean, a number, or text the JSON parser has read. */
  datatype EnabledArg = Flag(b: bool) | Number(n: real) | Text(parsed: Result<Json>)

  /** The value the endpoint goes on with: `bool(enabled)`, or the parsed text. */
  function Coerced(arg: EnabledArg): (r: Result<Json>)
    ensures arg.Flag? ==> r == Ok(JBool(arg.b))
    ensures arg.Number? ==> r == Ok(JBool(arg.n != 0.0))
    ensures arg.Text? ==> r == arg.parsed
  {
    match arg
    case Flag(b) => Ok(JBool(b))
    case Number(n) => Ok(JBool(n != 0.0))
    case Text(parsed) => parsed
  }

  /**
   * What `activation_doc.is_enabled = int(enabled)` leaves in the check
   * field: `int` truncates a number toward zero and reads a numeral, and
   * fails on anything else; the field holds whether that is non-zero.
   */
  function StoredAsWritten(v: Json): (r: Result<bool>)
    ensures v.JBool? ==> r == Ok(v.b)
    ensures v.JNum? ==> r == Ok(v.n <= -1.0 || 1.0 <= v.n)
  {
    match v
    case JBool(b) => Ok(b)
    case JNum(n) => Ok(if n >= 0.0 then n.Floor != 0 else (-n).Floor != 0)
    case JStr(s) =>
      if s != "" && AllDigits(s) then Ok(exists i :: 0 <= i < |s| && s[i] != '0')
      else Err("ValueError: invalid literal for int()")
    case JNull => Err("TypeError: int() argument must be a string or a number")
    case JArr(_) => Err("TypeError: int() argument must be a string or a number")
    case JObj(_) => Err("TypeError: int() argument must be a string or a number")
  }

  /** The text "0.5" is reported as enabling the module but stores it disabled. */
  lemma FractionStoredDisabled()
    ensures Truthy(JNum(0.5)) && StoredAsWritten(JNum(0.5)) == Ok(false)
  {
    assert (0.5).Floor == 0;
  }

  /** The text "\"0\"" parses to the string "0": reported as enabling the module, stored disabled by `int("0")`. */
  lemma ZeroStringStoredDisabled()
    ensures Coerced(Text(Ok(JStr("0")))) == Ok(JStr("0"))
    ensures Truthy(JStr("0")) && StoredAsWritten(JStr("0")) == Ok(false)
  {
    assert IsDigit('0');
  }

  /**
   * Where `int` succeeds, the stored and the reported states differ exactly
   * for a number strictly between -1 and 1 other than 0, and for a string
   * made of zero digits only.
   */
  lemma StoredDiffers(v: Json)
    requires StoredAsWritten(v).Ok?
    ensures StoredAsWritten(v).value != Truthy(v) <==>
      (v.JNum? && -1.0 < v.n < 1.0 && v.n != 0.0) || (v.JStr? && forall i :: 0 <= i < |v.s| ==> v.s[i] == '0')
  {
    match v
    case JStr(s) =>
      assert s != "";
      if forall i :: 0 <= i < |s| ==> s[i] == '0' {
        assert !(exists i :: 0 <= i < |s| && s[i] != '0');
      }
    case _ =>
  }

  /** The corrected stored state: the truthiness the message reports. */
  function Stored(v: Json): (r: bool)
    ensures r <==> Truthy(v)
  {
    Truthy(v)
  }

  /** On every boolean or numeric argument the correction stores what the code stores. */
  lemma StoredAgrees(arg: EnabledArg)
    requires arg.Flag? || arg.Number?
    ensures StoredAsWritten(Coerced(arg).value) == Ok(Stored(Coerced(arg).value))
  {
  }

  /** The first activation of `plan` with exactly this key. */
  function FindActivation(rows: seq<ActivationRow>, plan: string, key: string): (r: Option<nat>)
    ensures r.Some? ==> r.value < |rows| && rows[r.value].plan == plan && rows[r.value].moduleKey == key
    ensures r.Some? ==> forall j :: 0 <= j < r.value ==> !(rows[j].plan == plan && rows[j].moduleKey == key)
    ensures r.None? <==> forall j :: 0 <= j < |rows| ==> !(rows[j].plan == plan && rows[j].moduleKey == key)
  {
    if rows == [] then None
    else if rows[0].plan == plan && rows[0].moduleKey == key then Some(0)
    else match FindActivation(rows[1..], plan, key)
      case None => None
      case Some(k) => Some(k + 1)
  }

  function OnOff(enabled: bool): string
  {
    if enabled then "enabled" else "disabled"
  }

  function PlanText(plan: Option<string>): Json
  {
    if plan.Some? then JStr(plan.value) else JNull
  }

  /** The result of `change_tenant_plan`. */
  datatype PlanChange = PlanChange(message: string, oldPlan: Option<string>, newPlan: string)

  // ---------------------------------------------------------------------
  // The page's state
  // ---------------------------------------------------------------------

  /**
   * The records the page reads and writes: the Company table, the
   * subscription records and the access log.
   */
  class Tenants {
    const companies: seq<CompanyRow>
    var db: Db
    var log: seq<AdminEntry>

    constructor(companies: seq<CompanyRow>, db: Db)
      ensures this.companies == companies && this.db == db && log == []
    {
      this.companies := companies;
      this.db := db;
      log := [];
    }

    /** `_log_admin_action`: an insert that may fail, the failure being swallowed. */
    method LogAdminAction(action: string, company: string, details: Json, user: string, ip: Option<string>,
                          insertFails: bool)
      modifies this
      ensures db == old(db)
      ensures log == old(log) + (if insertFails then [] else [AdminEntry(company, user, action, details, ip)])
    {
      if !insertFails {
        log := log + [AdminEntry(company, user, action, details, ip)];
      }
    }

    /**
     * `get_all_tenants`: one row per leaf company in company-name order,
     * each built from the context the shared cache holds for the
     * company's plan.
     */
    method GetAllTenants(roles: seq<string>, contexts: ContextCache) returns (r: Result<seq<TenantRow>>)
      modifies contexts
      ensures !Permitted(roles) ==> r == Err(NOT_PERMITTED) && contexts.entries == old(contexts.entries)
      ensures Permitted(roles) ==> r.Ok? && |r.value| == |Listed(companies)|
      ensures Permitted(roles) ==> Built(r.value, Listed(companies), db, contexts.entries)
      ensures Extends(old(contexts.entries), contexts.entries)
    {
      if !Permitted(roles) {
        return Err(NOT_PERMITTED);
      }
      var rows := TenantRows(Listed(companies), contexts);
      return Ok(rows);
    }

    /** The loop of `get_all_tenants` over the listed companies. */
    method TenantRows(listed: seq<CompanyRow>, contexts: ContextCache) returns (rows: seq<TenantRow>)
      modifies contexts
      ensures Built(rows, listed, db, contexts.entries)
      ensures Extends(old(contexts.entries), contexts.entries)
    {
      rows := [];
      var i := 0;
      while i < |listed|
        invariant 0 <= i <= |listed| && |rows| == i
        invariant BuiltRec(rows, listed[..i], db, contexts.entries)
        invariant Extends(old(contexts.entries), contexts.entries)
      {
        ghost var before := contexts.entries;
        var row := TenantRowFor(listed[i], contexts);
        BuiltRecExtends(rows, listed[..i], db, before, contexts.entries);
        ExtendsTransitive(old(contexts.entries), before, contexts.entries);
        assert listed[..i + 1][..i] == listed[..i] && (rows + [row])[..i] == rows;
        rows := rows + [row];
        i := i + 1;
      }
      assert listed[..i] == listed;
      BuiltRecMeans(rows, listed, db, contexts.entries);
    }

    /** One company's row of the listing, its context looked up through the cache. */
    method TenantRowFor(c: CompanyRow, contexts: ContextCache) returns (row: TenantRow)
      modifies contexts
      ensures Extends(old(contexts.entries), contexts.entries)
      ensures CachedRow(c, db, contexts.entries) == Some(row)
    {
      var plan := ResolvePlan(db, c.name);
      var ctx := contexts.Lookup(db, c.name, "", true);
      row := TenantRowOf(c, plan, ctx);
    }

    /**
     * `get_tenant_details`: the tenant's current plan, the active plans,
     * and the modules and features of its context.
     */
    method GetTenantDetails(roles: seq<string>, company: string, contexts: ContextCache) returns (r: Result<TenantDetails>)
      modifies contexts
      ensures !Permitted(roles) ==> r == Err(NOT_PERMITTED) && contexts.entries == old(contexts.entries)
      ensures Permitted(roles) && !CompanyExists(companies, company) ==>
        r == Err(NoSuchCompany(company)) && contexts.entries == old(contexts.entries)
      ensures Permitted(roles) && CompanyExists(companies, company) ==>
        var key := CacheKey(ResolvePlan(db, company));
        && r.Ok? && key in contexts.entries
        && var ctx := contexts.entries[key];
        && r.value == TenantDetails(company, CurrentPlanOf(ctx), AvailablePlans(db.plans), ValuesOf(ctx.modules),
                                    FeatureRows(ctx.registry, ctx.featureStates))
    {
      if !Permitted(roles) {
        return Err(NOT_PERMITTED);
      }
      if !CompanyExists(companies, company) {
        return Err(NoSuchCompany(company));
      }
      var ctx := contexts.Lookup(db, company, "", true);
      r := Ok(TenantDetails(company, CurrentPlanOf(ctx), AvailablePlans(db.plans), ValuesOf(ctx.modules),
                            FeatureRows(ctx.registry, ctx.featureStates)));
    }

    /**
     * `change_tenant_plan`: points the company's Tenant Branding record at
     * `newPlan`, creating the record when there is none; saving it clears
     * both caches.  The result reports the prior plan, none for a new record.
     */
    method ChangeTenantPlan(roles: seq<string>, company: string, newPlan: string, reason: string, user: string,
                            ip: Option<string>, logFails: bool, contexts: ContextCache,
                            matrices: FeatureMatrix.MatrixCache) returns (r: Result<PlanChange>)
      modifies this, contexts, matrices
      ensures !Permitted(roles) ==> r == Err(NOT_PERMITTED)
      ensures Permitted(roles) && !CompanyExists(companies, company) ==> r == Err(NoSuchCompany(company))
      ensures Permitted(roles) && CompanyExists(companies, company) && !PlanExists(old(db).plans, newPlan) ==>
        r == Err("Subscription Plan " + newPlan + " does not exist")
      ensures r.Err? ==>
        db == old(db) && log == old(log) && contexts.entries == old(contexts.entries)
        && matrices.entries == old(matrices.entries)
      ensures r.Ok? <==> Permitted(roles) && CompanyExists(companies, company) && PlanExists(old(db).plans, newPlan)
      ensures r.Ok? ==>
        var oldPlan := if company in old(db).brandings then Some(old(db).brandings[company]) else None;
        && r.value == PlanChange("Subscription plan updated to " + newPlan, oldPlan, newPlan)
        && db == old(db).(brandings := old(db).brandings[company := newPlan])
        && contexts.entries == map[] && matrices.entries == map[]
        && log == old(log) + (if logFails then [] else
             [AdminEntry(company, user, "change_plan",
                         JObj([("old_plan", PlanText(oldPlan)), ("new_plan", JStr(newPlan)), ("reason", JStr(reason))]),
                         ip)])
      ensures r.Ok? && company != "" && newPlan != "" ==> ResolvePlan(db, company) == newPlan
    {
      if !Permitted(roles) {
        return Err(NOT_PERMITTED);
      }
      if !CompanyExists(companies, company) {
        return Err(NoSuchCompany(company));
      }
      if !PlanExists(db.plans, newPlan) {
        return Err("Subscription Plan " + newPlan + " does not exist");
      }
      var oldPlan: Option<string> := None;
      if company in db.brandings {
        oldPlan := Some(db.brandings[company]);
      }
      db := db.(brandings := db.brandings[company := newPlan]);
      contexts.Clear();
      matrices.Clear();
      LogAdminAction("change_plan", company,
                     JObj([("old_plan", PlanText(oldPlan)), ("new_plan", JStr(newPlan)), ("reason", JStr(reason))]),
                     user, ip, logFails);
      r := Ok(PlanChange("Subscription plan updated to " + newPlan, oldPlan, newPlan));
    }

    /**
     * `toggle_module`: switches the activation of `moduleKey` in the
     * company's plan on or off; saving it clears the context cache.  A
     * required module is never switched off.
     */
    method ToggleModule(roles: seq<string>, company: string, moduleKey: string, enabled: EnabledArg, reason: string,
                        user: string, ip: Option<string>, logFails: bool, contexts: ContextCache)
      returns (r: Result<string>)
      modifies this, contexts
      ensures !Permitted(roles) ==> r == Err(NOT_PERMITTED)
      ensures Permitted(roles) && Coerced(enabled).Err? ==> r == Err(Coerced(enabled).error)
      ensures Permitted(roles) && Coerced(enabled).Ok? && !CompanyExists(companies, company) ==>
        r == Err(NoSuchCompany(company))
      ensures Permitted(roles) && Coerced(enabled).Ok? && CompanyExists(companies, company)
              && ResolvePlan(old(db), company) == "" ==>
        r == Err("No subscription plan assigned to " + company)
      ensures Permitted(roles) && Coerced(enabled).Ok? && CompanyExists(companies, company)
              && ResolvePlan(old(db), company) != ""
              && FindActivation(old(db).activations, ResolvePlan(old(db), company), moduleKey).None? ==>
        r == Err("Module " + moduleKey + " not found in plan " + ResolvePlan(old(db), company))
      ensures r.Err? ==> db == old(db) && log == old(log) && contexts.entries == old(contexts.entries)
      ensures r.Ok? ==>
        && Permitted(roles) && Coerced(enabled).Ok? && CompanyExists(companies, company)
        && var v := Coerced(enabled).value;
        && var at := FindActivation(old(db).activations, ResolvePlan(old(db), company), moduleKey);
        && at.Some?
        && var row := old(db).activations[at.value];
        && (row.isRequired ==> Truthy(v))
        && StoredAsWritten(v).Ok?
        && r.value == "Module " + moduleKey + " " + OnOff(Truthy(v))
        && db == old(db).(activations := old(db).activations[at.value := row.(isEnabled := Stored(v))])
        && db.activations[at.value].isEnabled == Truthy(v)
        && contexts.entries == map[]
        && log == old(log) + (if logFails then [] else
             [AdminEntry(company, user, "toggle_module",
                         JObj([("module_key", JStr(moduleKey)), ("old_state", JBool(row.isEnabled)),
                               ("new_state", v), ("reason", JStr(reason))]), ip)])
      ensures Permitted(roles) && Coerced(enabled).Ok? && CompanyExists(companies, company)
              && ResolvePlan(old(db), company) != ""
              && FindActivation(old(db).activations, ResolvePlan(old(db), company), moduleKey).Some?
              && !Truthy(Coerced(enabled).value)
              && old(db).activations[FindActivation(old(db).activations, ResolvePlan(old(db), company), moduleKey).value].isRequired ==>
        r == Err("Cannot disable required module " + moduleKey)
      ensures Permitted(roles) && Coerced(enabled).Ok? && CompanyExists(companies, company)
              && ResolvePlan(old(db), company) != ""
              && FindActivation(old(db).activations, ResolvePlan(old(db), company), moduleKey).Some?
              && !(!Truthy(Coerced(enabled).value)
                   && old(db).activations[FindActivation(old(db).activations, ResolvePlan(old(db), company), moduleKey).value].isRequired)
              && StoredAsWritten(Coerced(enabled).value).Err? ==>
        r == Err(StoredAsWritten(Coerced(enabled).value).error)
    {
      if !Permitted(roles) {
        return Err(NOT_PERMITTED);
      }
      var coerced := Coerced(enabled);
      if coerced.Err? {
        return Err(coerced.error);
      }
      var v := coerced.value;
      if !CompanyExists(companies, company) {
        return Err(NoSuchCompany(company));
      }
      var plan := ResolvePlan(db, company);
      if plan == "" {
        return Err("No subscription plan assigned to " + company);
      }
      var at := FindActivation(db.activations, plan, moduleKey);
      if at.None? {
        return Err("Module " + moduleKey + " not found in plan " + plan);
      }
      var row := db.activations[at.value];
      if !Truthy(v) && row.isRequired {
        return Err("Cannot disable required module " + moduleKey);
      }
      if StoredAsWritten(v).Err? {
        return Err(StoredAsWritten(v).error);
      }
      db := db.(activations := db.activations[at.value := row.(isEnabled := Stored(v))]);
      contexts.Clear();
      LogAdminAction("toggle_module", company,
                     JObj([("module_key", JStr(moduleKey)), ("old_state", JBool(row.isEnabled)),
                           ("new_state", v), ("reason", JStr(reason))]),
                     user, ip, logFails);
      r := Ok("Module " + moduleKey + " " + OnOff(Truthy(v)));
    }
  }
}
