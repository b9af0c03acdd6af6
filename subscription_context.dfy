// The subscription context of a tenant: its plan, the plan's module
// activations and the effective feature states, layered as registry
// defaults, then the plan's default overrides, then the overrides of every
// enabled module in module order.  The database is a value (`Db`); the
// in-process cache of contexts is a class.

module SubscriptionContext {
  import opened Common
  import opened JsonValue
  import opened PyDict

  const NO_PLAN_KEY: string := "__no_plan__"

  /** A JSON column as read: text together with its parse outcome, or an already decoded object. */
  datatype Raw = RawText(text: string, parsed: Option<Json>) | RawDict(fields: Dict<Json>)

  /** `_safe_json_load`: the object's entries; {} for empty text, invalid JSON and JSON that is not an object. */
  function SafeJsonLoad(raw: Raw): (r: Dict<Json>)
    ensures raw.RawDict? ==> r == raw.fields
    ensures raw.RawText? && r != [] ==> raw.text != "" && raw.parsed == Some(JObj(r))
    ensures raw.RawText? && raw.text != "" && raw.parsed.Some? && raw.parsed.value.JObj? ==> r == raw.parsed.value.fields
  {
    match raw
    case RawDict(fields) => fields
    case RawText(text, parsed) =>
      if text == "" then []
      else if parsed.Some? && parsed.value.JObj? then parsed.value.fields
      else []
  }

  // ---------------------------------------------------------------------
  // Writing entries under normalised keys
  // ---------------------------------------------------------------------

  /** The entries whose key is not blank once normalised, under their normalised key. */
  function NormalizedItems<V>(items: seq<(string, V)>): (r: seq<(string, V)>)
    ensures |r| <= |items|
  {
    if items == [] then []
    else
      var front := NormalizedItems(items[..|items| - 1]);
      var key := Normalize(items[|items| - 1].0);
      if key == "" then front else front + [(key, items[|items| - 1].1)]
  }

  /** `for raw_key, value in items: key = raw_key.strip().lower(); if key: d[key] = value`. */
  function PutNormalized<V>(d: Dict<V>, items: seq<(string, V)>): Dict<V>
  {
    PutAll(d, NormalizedItems(items))
  }

  lemma NormalizedItemsSnoc<V>(items: seq<(string, V)>, x: (string, V))
    ensures NormalizedItems(items + [x]) ==
      NormalizedItems(items) + (if Normalize(x.0) == "" then [] else [(Normalize(x.0), x.1)])
  {
    assert (items + [x])[..|items + [x]| - 1] == items;
  }

  lemma {:induction false} NormalizedItemsAppend<V>(a: seq<(string, V)>, b: seq<(string, V)>)
    ensures NormalizedItems(a + b) == NormalizedItems(a) + NormalizedItems(b)
    decreases |b|
  {
    if b != [] {
      var front := b[..|b| - 1];
      var x := b[|b| - 1];
      assert b == front + [x];
      assert a + b == (a + front) + [x];
      NormalizedItemsAppend(a, front);
      NormalizedItemsSnoc(a + front, x);
      NormalizedItemsSnoc(front, x);
    } else {
      assert a + b == a;
    }
  }

  /** Writing two runs one after the other is writing their concatenation. */
  lemma PutNormalizedAppend<V>(d: Dict<V>, a: seq<(string, V)>, b: seq<(string, V)>)
    ensures PutNormalized(d, a + b) == PutNormalized(PutNormalized(d, a), b)
  {
    NormalizedItemsAppend(a, b);
    PutAllAppend(d, NormalizedItems(a), NormalizedItems(b));
  }

  /** One more entry at the end of a run: written under its normalised key unless that is blank. */
  lemma PutNormalizedSnoc<V>(d: Dict<V>, items: seq<(string, V)>, x: (string, V))
    ensures PutNormalized(d, items + [x]) ==
      if Normalize(x.0) == "" then PutNormalized(d, items) else Put(PutNormalized(d, items), Normalize(x.0), x.1)
  {
    NormalizedItemsSnoc(items, x);
    if Normalize(x.0) != "" {
      PutAllSnoc(d, NormalizedItems(items), (Normalize(x.0), x.1));
    }
  }

  /**
   * Keys are normalised, blank keys are ignored and the last entry wins: a
   * key reads the value of the last entry that normalises to it, and reads
   * as before when no entry does.
   */
  lemma {:induction false} PutNormalizedGet<V>(d: Dict<V>, items: seq<(string, V)>, k: string)
    ensures (forall i :: 0 <= i < |items| ==> k == "" || Normalize(items[i].0) != k) ==>
      Get(PutNormalized(d, items), k) == Get(d, k)
    ensures forall i :: 0 <= i < |items| && k != "" && Normalize(items[i].0) == k
                        && (forall j :: i < j < |items| ==> Normalize(items[j].0) != k) ==>
      Get(PutNormalized(d, items), k) == Some(items[i].1)
    decreases |items|
  {
    if items != [] {
      var front := items[..|items| - 1];
      var x := items[|items| - 1];
      assert items == front + [x];
      PutNormalizedSnoc(d, front, x);
      PutNormalizedGet(d, front, k);
      if Normalize(x.0) != "" {
        PutGet(PutNormalized(d, front), Normalize(x.0), x.1);
      }
      assert forall i :: 0 <= i < |front| ==> front[i] == items[i];
    }
  }

  // ---------------------------------------------------------------------
  // The stored records
  // ---------------------------------------------------------------------

  /** A Feature Toggle row. */
  datatype ToggleRow = ToggleRow(featureKey: string, featureName: string, category: string, defaultEnabled: bool, description: string)

  /** `FeatureToggleMetadata`. */
  datatype ToggleMeta = ToggleMeta(key: string, name: string, category: string, defaultEnabled: bool, description: string)

  /** A Subscription Plan row; `modified` orders plans by last modification. */
  datatype PlanRow = PlanRow(name: string, planCode: string, planName: string, isActive: bool, isDefault: bool,
                             modified: int, defaultFeatureOverrides: Raw,
                             billingFrequency: string, billingCurrency: string, basePrice: Option<real>)

  /** `SubscriptionPlanState`. */
  datatype PlanState = PlanState(name: string, planCode: string, planName: string, isActive: bool, isDefault: bool,
                                 defaultFeatureOverrides: Dict<Json>,
                                 billingFrequency: string, billingCurrency: string, basePrice: Option<real>)

  /** A Module Activation row. */
  datatype ActivationRow = ActivationRow(name: string, plan: string, moduleKey: string, moduleLabel: string,
                                         isEnabled: bool, isRequired: bool, dependsOn: string, featureOverrides: Raw)

  /** `ModuleActivationState`. */
  datatype ModuleState = ModuleState(key: string, moduleLabel: string, isEnabled: bool, isRequired: bool,
                                     dependsOn: seq<string>, featureOverrides: Dict<Json>)

  /**
   * The stored records the context reads.  `activations` are in the order
   * the module query returns them (by module key); `brandings` maps a
   * company to the plan of its Tenant Branding record.
   */
  datatype Db = Db(toggles: seq<ToggleRow>, plans: seq<PlanRow>, activations: seq<ActivationRow>,
                   brandings: map<string, string>)

  /** `SubscriptionContext`. */
  datatype Context = Context(plan: Option<PlanState>, modules: Dict<ModuleState>,
                             featureStates: Dict<Json>, registry: Dict<ToggleMeta>)

  // ---------------------------------------------------------------------
  // resolve_plan_for_company
  // ---------------------------------------------------------------------

  predicate DefaultCandidate(p: PlanRow)
  {
    p.isDefault && p.isActive
  }

  /** The active default plan modified last; among equally recent ones the first stored. */
  function LatestDefault(plans: seq<PlanRow>): (r: Option<PlanRow>)
    ensures r.Some? ==> r.value in plans && DefaultCandidate(r.value)
    ensures r.None? <==> forall i :: 0 <= i < |plans| ==> !DefaultCandidate(plans[i])
    ensures r.Some? ==> forall i :: 0 <= i < |plans| && DefaultCandidate(plans[i]) ==> plans[i].modified <= r.value.modified
  {
    if plans == [] then None
    else
      var rest := LatestDefault(plans[1..]);
      assert forall i :: 1 <= i < |plans| ==> plans[i] == plans[1..][i - 1];
      if DefaultCandidate(plans[0]) && (rest.None? || rest.value.modified <= plans[0].modified) then Some(plans[0])
      else rest
  }

  /** `resolve_plan_for_company`: the company's branding plan, else the latest active default plan ("" for none). */
  function ResolvePlan(db: Db, company: string): (r: string)
    ensures company != "" && company in db.brandings && db.brandings[company] != "" ==> r == db.brandings[company]
    ensures !(company != "" && company in db.brandings && db.brandings[company] != "") ==>
      r == (if LatestDefault(db.plans).Some? then LatestDefault(db.plans).value.name else "")
  {
    if company != "" && company in db.brandings && db.brandings[company] != "" then db.brandings[company]
    else
      match LatestDefault(db.plans)
      case Some(p) => p.name
      case None => ""
  }

  // ---------------------------------------------------------------------
  // Loading the registry, the plan and the modules
  // ---------------------------------------------------------------------

  function MetaOf(row: ToggleRow): ToggleMeta
  {
    var key := Normalize(row.featureKey);
    ToggleMeta(key, if row.featureName != "" then row.featureName else key, row.category, row.defaultEnabled, row.description)
  }

  function ToggleItems(rows: seq<ToggleRow>): (r: seq<(string, ToggleMeta)>)
    ensures |r| == |rows|
    ensures forall i :: 0 <= i < |rows| ==> r[i] == (rows[i].featureKey, MetaOf(rows[i]))
  {
    seq(|rows|, i requires 0 <= i < |rows| => (rows[i].featureKey, MetaOf(rows[i])))
  }

  /** `_load_feature_registry`. */
  function LoadRegistry(rows: seq<ToggleRow>): Dict<ToggleMeta>
  {
    PutNormalized([], ToggleItems(rows))
  }

  /** The registry holds, under each normalised key, the toggle of the last row with that key, and nothing under other keys. */
  lemma RegistryMeans(rows: seq<ToggleRow>, k: string)
    ensures (forall i :: 0 <= i < |rows| ==> k == "" || Normalize(rows[i].featureKey) != k) ==>
      Get(LoadRegistry(rows), k).None?
    ensures forall i :: 0 <= i < |rows| && k != "" && Normalize(rows[i].featureKey) == k
                        && (forall j :: i < j < |rows| ==> Normalize(rows[j].featureKey) != k) ==>
      Get(LoadRegistry(rows), k) == Some(MetaOf(rows[i])) && MetaOf(rows[i]).key == k
  {
    var items := ToggleItems(rows);
    PutNormalizedGet([], items, k);
    if forall i :: 0 <= i < |rows| ==> k == "" || Normalize(rows[i].featureKey) != k {
      assert forall i :: 0 <= i < |items| ==> k == "" || Normalize(items[i].0) != k;
    }
    forall i | 0 <= i < |rows| && k != "" && Normalize(rows[i].featureKey) == k
               && (forall j :: i < j < |rows| ==> Normalize(rows[j].featureKey) != k)
      ensures Get(LoadRegistry(rows), k) == Some(MetaOf(rows[i])) && MetaOf(rows[i]).key == k
    {
      assert forall j :: i < j < |items| ==> Normalize(items[j].0) != k;
      assert items[i] == (rows[i].featureKey, MetaOf(rows[i]));
    }
  }

  function FindPlan(plans: seq<PlanRow>, name: string): (r: Option<PlanRow>)
    ensures r.Some? ==> r.value in plans && r.value.name == name
    ensures r.None? ==> forall i :: 0 <= i < |plans| ==> plans[i].name != name
  {
    if plans == [] then None
    else if plans[0].name == name then Some(plans[0])
    else
      assert forall i :: 1 <= i < |plans| ==> plans[i] == plans[1..][i - 1];
      FindPlan(plans[1..], name)
  }

  /** `_load_plan_state`: None for an unknown plan. */
  function LoadPlanState(plans: seq<PlanRow>, planCode: string): Option<PlanState>
  {
    match FindPlan(plans, planCode)
    case None => None
    case Some(row) =>
      Some(PlanState(row.name, row.planCode, row.planName, row.isActive, row.isDefault,
                     SafeJsonLoad(row.defaultFeatureOverrides), row.billingFrequency, row.billingCurrency, row.basePrice))
  }

  predicate IsLetter(c: char)
  {
    ('a' <= c <= 'z') || ('A' <= c <= 'Z')
  }

  /** Python `str.title()` on ASCII text: a letter is upper-cased after a non-letter and lower-cased after a letter. */
  function TitleFrom(s: string, afterLetter: bool): (r: string)
    ensures |r| == |s|
    decreases |s|
  {
    if s == [] then []
    else
      var c := s[0];
      var t := if !IsLetter(c) then c else if afterLetter then LowerChar(c) else UpperChar(c);
      [t] + TitleFrom(s[1..], IsLetter(c))
  }

  function Title(s: string): (r: string)
    ensures |r| == |s|
  {
    TitleFrom(s, false)
  }

  /** The non-blank tokens of a list, normalised. */
  function NonBlankTokens(parts: seq<string>): (r: seq<string>)
    ensures |r| <= |parts|
  {
    if parts == [] then []
    else
      var front := NonBlankTokens(parts[..|parts| - 1]);
      var last := parts[|parts| - 1];
      if Strip(last) == "" then front else front + [Normalize(last)]
  }

  /** The tokens are exactly the normalised forms of the parts that are not blank. */
  lemma {:induction false} NonBlankTokensMeans(parts: seq<string>)
    ensures forall i :: 0 <= i < |parts| && Strip(parts[i]) != "" ==> Normalize(parts[i]) in NonBlankTokens(parts)
    ensures forall t :: t in NonBlankTokens(parts) ==>
      exists i :: 0 <= i < |parts| && Strip(parts[i]) != "" && t == Normalize(parts[i])
  {
    if parts != [] {
      var n := |parts| - 1;
      NonBlankTokensMeans(parts[..n]);
      assert forall i :: 0 <= i < n ==> parts[..n][i] == parts[i];
    }
  }

  /** `depends_on` as a tuple: the comma-separated tokens that are not blank, normalised. */
  function DependsOnTokens(raw: string): seq<string>
  {
    NonBlankTokens(Split(raw, ','))
  }

  function ModuleOf(row: ActivationRow): ModuleState
  {
    var key := Normalize(row.moduleKey);
    ModuleState(key, if row.moduleLabel != "" then row.moduleLabel else Title(key), row.isEnabled, row.isRequired,
                DependsOnTokens(row.dependsOn), SafeJsonLoad(row.featureOverrides))
  }

  /** The plan's activation rows, keyed by their raw module key, in query order. */
  function ActivationItems(rows: seq<ActivationRow>, planName: string): (r: seq<(string, ModuleState)>)
  {
    if rows == [] then []
    else
      var front := ActivationItems(rows[..|rows| - 1], planName);
      var last := rows[|rows| - 1];
      if last.plan == planName then front + [(last.moduleKey, ModuleOf(last))] else front
  }

  /** `_load_module_states`. */
  function LoadModuleStates(rows: seq<ActivationRow>, planName: string): Dict<ModuleState>
  {
    PutNormalized([], ActivationItems(rows, planName))
  }

  /** Every loaded module sits under its own normalised, non-blank key, and keys are distinct. */
  lemma ModuleStatesKeyed(rows: seq<ActivationRow>, planName: string)
    ensures DistinctKeys(LoadModuleStates(rows, planName))
    ensures forall i :: 0 <= i < |LoadModuleStates(rows, planName)| ==>
      LoadModuleStates(rows, planName)[i].0 != "" && LoadModuleStates(rows, planName)[i].1.key == LoadModuleStates(rows, planName)[i].0
  {
    var items := NormalizedItems(ActivationItems(rows, planName));
    ActivationItemsKeyed(rows, planName);
    PutAllKeyed([], items);
  }

  /** Every entry sits under a non-blank key that its value carries. */
  predicate Keyed(items: seq<(string, ModuleState)>)
  {
    forall i :: 0 <= i < |items| ==> items[i].0 != "" && items[i].1.key == items[i].0
  }

  lemma KeyedSnoc(items: seq<(string, ModuleState)>, x: (string, ModuleState))
    requires Keyed(items) && x.0 != "" && x.1.key == x.0
    ensures Keyed(items + [x])
  {
    forall i | 0 <= i < |items + [x]|
      ensures (items + [x])[i].0 != "" && (items + [x])[i].1.key == (items + [x])[i].0
    {
      if i < |items| {
        assert (items + [x])[i] == items[i];
      }
    }
  }

  lemma {:induction false} ActivationItemsKeyed(rows: seq<ActivationRow>, planName: string)
    ensures Keyed(NormalizedItems(ActivationItems(rows, planName)))
  {
    if rows != [] {
      var front := rows[..|rows| - 1];
      var last := rows[|rows| - 1];
      var items := ActivationItems(front, planName);
      ActivationItemsKeyed(front, planName);
      if last.plan == planName {
        var x := (last.moduleKey, ModuleOf(last));
        assert ActivationItems(rows, planName) == items + [x];
        NormalizedItemsSnoc(items, x);
        if Normalize(x.0) != "" {
          KeyedSnoc(NormalizedItems(items), (Normalize(x.0), x.1));
        }
      } else {
        assert ActivationItems(rows, planName) == items;
      }
    }
  }

  /** Writing entries whose values carry their own key keeps that shape. */
  lemma {:induction false} PutAllKeyed(d: Dict<ModuleState>, items: seq<(string, ModuleState)>)
    requires DistinctKeys(d)
    requires forall i :: 0 <= i < |d| ==> d[i].0 != "" && d[i].1.key == d[i].0
    requires forall i :: 0 <= i < |items| ==> items[i].0 != "" && items[i].1.key == items[i].0
    ensures DistinctKeys(PutAll(d, items))
    ensures forall i :: 0 <= i < |PutAll(d, items)| ==> PutAll(d, items)[i].0 != "" && PutAll(d, items)[i].1.key == PutAll(d, items)[i].0
    decreases |items|
  {
    if items != [] {
      var next := Put(d, items[0].0, items[0].1);
      PutDistinct(d, items[0].0, items[0].1);
      PutKeyed(d, items[0].0, items[0].1);
      PutAllKeyed(next, items[1..]);
    }
  }

  lemma {:induction false} PutKeyed(d: Dict<ModuleState>, k: string, m: ModuleState)
    requires forall i :: 0 <= i < |d| ==> d[i].0 != "" && d[i].1.key == d[i].0
    requires k != "" && m.key == k
    ensures forall i :: 0 <= i < |Put(d, k, m)| ==> Put(d, k, m)[i].0 != "" && Put(d, k, m)[i].1.key == Put(d, k, m)[i].0
  {
    if d != [] && d[0].0 != k {
      PutKeyed(d[1..], k, m);
    }
  }

  // ---------------------------------------------------------------------
  // _build_subscription_context
  // ---------------------------------------------------------------------

  /** The registry defaults: every toggle's `default_enabled`. */
  function Defaults(registry: Dict<ToggleMeta>): (r: Dict<Json>)
    ensures KeysOf(r) == KeysOf(registry)
  {
    if registry == [] then [] else [(registry[0].0, JBool(registry[0].1.defaultEnabled))] + Defaults(registry[1..])
  }

  /** A feature's default state is its toggle's `default_enabled`, and only registered features have one. */
  lemma {:induction false} DefaultsGet(registry: Dict<ToggleMeta>, k: string)
    ensures Get(Defaults(registry), k) ==
      if Get(registry, k).Some? then Some(JBool(Get(registry, k).value.defaultEnabled)) else None
  {
    if registry != [] && registry[0].0 != k {
      DefaultsGet(registry[1..], k);
    }
  }

  /** The overrides of the enabled modules, in module order. */
  function EnabledOverrides(modules: seq<ModuleState>): seq<(string, Json)>
  {
    if modules == [] then []
    else
      var front := EnabledOverrides(modules[..|modules| - 1]);
      var last := modules[|modules| - 1];
      if last.isEnabled then front + last.featureOverrides else front
  }

  /** `_build_subscription_context`. */
  function BuildContext(db: Db, planCode: string): (r: Context)
    ensures r.plan.None? <==> planCode == "" || FindPlan(db.plans, planCode).None?
    ensures r.plan.None? ==> r.modules == [] && r.featureStates == Defaults(r.registry)
    ensures r.registry == LoadRegistry(db.toggles)
  {
    var registry := LoadRegistry(db.toggles);
    var defaults := Defaults(registry);
    if planCode == "" then Context(None, [], defaults, registry)
    else
      match LoadPlanState(db.plans, planCode)
      case None => Context(None, [], defaults, registry)
      case Some(plan) =>
        var modules := LoadModuleStates(db.activations, plan.name);
        var states := PutNormalized(defaults, plan.defaultFeatureOverrides + EnabledOverrides(ValuesOf(modules)));
        Context(Some(plan), modules, states, registry)
  }

  /** Three layers: an enabled module's override, else the plan's override, else the registry default. */
  function Layered(registry: Dict<ToggleMeta>, planOverrides: Dict<Json>, moduleOverrides: seq<(string, Json)>, k: string): Option<Json>
  {
    var fromModules := LastFor(NormalizedItems(moduleOverrides), k);
    var fromPlan := LastFor(NormalizedItems(planOverrides), k);
    if fromModules.Some? then fromModules
    else if fromPlan.Some? then fromPlan
    else if Get(registry, k).Some? then Some(JBool(Get(registry, k).value.defaultEnabled))
    else None
  }

  /** The effective state of every feature follows the three layers; with no plan it is the registry default. */
  lemma FeatureStateLayers(db: Db, planCode: string, k: string)
    ensures var ctx := BuildContext(db, planCode);
      Get(ctx.featureStates, k) ==
        if ctx.plan.None? then Layered(ctx.registry, [], [], k)
        else Layered(ctx.registry, ctx.plan.value.defaultFeatureOverrides, EnabledOverrides(ValuesOf(ctx.modules)), k)
  {
    var ctx := BuildContext(db, planCode);
    var registry := ctx.registry;
    DefaultsGet(registry, k);
    if ctx.plan.Some? {
      var p := ctx.plan.value.defaultFeatureOverrides;
      var m := EnabledOverrides(ValuesOf(ctx.modules));
      NormalizedItemsAppend(p, m);
      PutAllGet(Defaults(registry), NormalizedItems(p) + NormalizedItems(m), k);
      LastForAppend(NormalizedItems(p), NormalizedItems(m), k);
    }
  }

  lemma {:induction false} LastForAppend<V>(a: seq<(string, V)>, b: seq<(string, V)>, k: string)
    ensures LastFor(a + b, k) == if LastFor(b, k).Some? then LastFor(b, k) else LastFor(a, k)
    decreases |b|
  {
    if b != [] {
      assert (a + b)[..|a + b| - 1] == a + b[..|b| - 1];
      LastForAppend(a, b[..|b| - 1], k);
    } else {
      assert a + b == a;
    }
  }

  /** `_apply_feature_overrides`, entry by entry. */
  method ApplyFeatureOverrides(target: Dict<Json>, overrides: Dict<Json>) returns (r: Dict<Json>)
    ensures r == PutNormalized(target, overrides)
  {
    r := target;
    for i := 0 to |overrides|
      invariant r == PutNormalized(target, overrides[..i])
    {
      PutNormalizedSnoc(target, overrides[..i], overrides[i]);
      assert overrides[..i + 1] == overrides[..i] + [overrides[i]];
      var key := Normalize(overrides[i].0);
      if key == "" {
        continue;
      }
      r := Put(r, key, overrides[i].1);
    }
    assert overrides[..|overrides|] == overrides;
  }

  lemma EnabledOverridesSnoc(modules: seq<ModuleState>, i: nat)
    requires i < |modules|
    ensures modules[i].isEnabled ==> EnabledOverrides(modules[..i + 1]) == EnabledOverrides(modules[..i]) + modules[i].featureOverrides
    ensures !modules[i].isEnabled ==> EnabledOverrides(modules[..i + 1]) == EnabledOverrides(modules[..i])
  {
    assert modules[..i + 1][..i] == modules[..i];
  }

  /** The loop over the modules: the overrides of each enabled module in turn, and nothing of a disabled one. */
  method ApplyModuleOverrides(start: Dict<Json>, modules: seq<ModuleState>) returns (states: Dict<Json>)
    ensures states == PutNormalized(start, EnabledOverrides(modules))
  {
    states := start;
    for i := 0 to |modules|
      invariant states == PutNormalized(start, EnabledOverrides(modules[..i]))
    {
      EnabledOverridesSnoc(modules, i);
      if modules[i].isEnabled {
        PutNormalizedAppend(start, EnabledOverrides(modules[..i]), modules[i].featureOverrides);
        states := ApplyFeatureOverrides(states, modules[i].featureOverrides);
      }
    }
    assert modules[..|modules|] == modules;
  }

  /** `_build_subscription_context`: registry defaults, then the plan's overrides, then the enabled modules'. */
  method BuildSubscriptionContext(db: Db, planCode: string) returns (ctx: Context)
    ensures ctx == BuildContext(db, planCode)
  {
    var registry := LoadRegistry(db.toggles);
    var defaults := Defaults(registry);
    if planCode == "" {
      return Context(None, [], defaults, registry);
    }
    var plan := LoadPlanState(db.plans, planCode);
    if plan.None? {
      return Context(None, [], defaults, registry);
    }
    var states := ApplyFeatureOverrides(defaults, plan.value.defaultFeatureOverrides);
    var modules := LoadModuleStates(db.activations, plan.value.name);
    states := ApplyModuleOverrides(states, ValuesOf(modules));
    PutNormalizedAppend(defaults, plan.value.defaultFeatureOverrides, EnabledOverrides(ValuesOf(modules)));
    ctx := Context(plan, modules, states, registry);
  }

  // ---------------------------------------------------------------------
  // get_subscription_context and its cache
  // ---------------------------------------------------------------------

  /** The plan a lookup uses: the one given, else the company's. */
  function ResolvedPlan(db: Db, company: string, planCode: string): string
  {
    if planCode != "" then planCode else ResolvePlan(db, company)
  }

  /** The cache key of a plan: the plan, or "__no_plan__". */
  function CacheKey(planCode: string): (r: string)
    ensures r != ""
    ensures planCode != "" ==> r == planCode
  {
    if planCode != "" then planCode else NO_PLAN_KEY
  }

  /** `_CONTEXT_CACHE`. */
  class ContextCache {
    var entries: map<string, Context>

    constructor()
      ensures entries == map[]
    {
      entries := map[];
    }

    /** `clear_subscription_context_cache`. */
    method Clear()
      modifies this
      ensures entries == map[]
    {
      entries := map[];
    }

    /**
     * `get_subscription_context`: with `useCache`, a cached context for the
     * key is returned as it is, and a freshly built one is remembered;
     * without it, a fresh context is built and the cache is left alone.
     */
    method Lookup(db: Db, company: string, planCode: string, useCache: bool) returns (ctx: Context)
      modifies this
      ensures var key := CacheKey(ResolvedPlan(db, company, planCode));
        && (useCache && key in old(entries) ==> ctx == old(entries)[key] && entries == old(entries))
        && (!useCache ==> ctx == BuildContext(db, ResolvedPlan(db, company, planCode)) && entries == old(entries))
        && (useCache && key !in old(entries) ==>
              ctx == BuildContext(db, ResolvedPlan(db, company, planCode)) && entries == old(entries)[key := ctx])
      ensures useCache ==> var key := CacheKey(ResolvedPlan(db, company, planCode)); key in entries && entries[key] == ctx
    {
      var plan := ResolvedPlan(db, company, planCode);
      var key := CacheKey(plan);
      if useCache && key in entries {
        return entries[key];
      }
      ctx := BuildSubscriptionContext(db, plan);
      if useCache {
        entries := entries[key := ctx];
      }
    }
  }
}
