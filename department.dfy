// The Department master (the current controller): the record is named
// "{CODE}-{COMPANYCODE}", its fields are normalised before validation, the
// code is unique within a company, the parent lies in the same company and
// the parent chain has no cycle, and the free-form settings are type-checked
// key by key and stored back with sorted keys.  The Company and Department
// tables are parameters; the JSON parser is represented by its outcome.

module DepartmentDoc {
  import opened Common
  import opened JsonValue
  import opened Hierarchy

  /**
   * The `settings` field: empty, text together with the outcome of parsing
   * it (None when it is not valid JSON), or a dictionary held in memory.
   */
  datatype Settings = NoSettings | Text(parsed: Option<Json>) | Dict(fields: seq<(string, Json)>)

  /** A stored Department row, keyed by its name in `Env.departments`; "" stands for an empty field. */
  datatype StoredDepartment = StoredDepartment(departmentCode: string, company: string, parentDepartment: string,
                                               isActive: bool, settings: Settings, defaultStorageArea: string)

  /** The stored Department table and the `company_code` of each Company ("" when unset). */
  datatype Env = Env(departments: map<string, StoredDepartment>, companyCodes: map<string, string>)

  // ---------------------------------------------------------------------
  // Naming and normalisation
  // ---------------------------------------------------------------------

  /** `_normalized_code`. */
  function NormalizedCode(code: string): (r: string)
  {
    Upper(Strip(code))
  }

  /** `s.replace(" ", "-")`. */
  function Dashed(s: string): (r: string)
    ensures |r| == |s| && ' ' !in r
    ensures forall i :: 0 <= i < |s| ==> r[i] == (if s[i] == ' ' then '-' else s[i])
  {
    seq(|s|, i requires 0 <= i < |s| => if s[i] == ' ' then '-' else s[i])
  }

  /** The company part of the name: the stored company code, or the company itself, stripped, upper-cased and dashed. */
  function CompanyCode(companyCodes: map<string, string>, company: string): string
  {
    var stored := if company in companyCodes && companyCodes[company] != "" then companyCodes[company] else company;
    Dashed(Upper(Strip(stored)))
  }

  /** `autoname`. */
  function Name(env: Env, code: string, company: string): Result<string>
  {
    var c := NormalizedCode(code);
    if c == "" then Err("Department Code is required to name the record.")
    else
      var comp := Strip(company);
      if comp == "" then Err("Company is required before naming the department.")
      else
        var cc := CompanyCode(env.companyCodes, comp);
        if cc == "" then Err("Company Code is required to name the department.")
        else Ok(c + "-" + cc)
  }

  /** A normalised code is stripped and upper-case, so normalising it again changes nothing. */
  lemma NormalizedCodeIdempotent(code: string)
    ensures NormalizedCode(NormalizedCode(code)) == NormalizedCode(code)
    ensures Stripped(NormalizedCode(code)) && Upper(NormalizedCode(code)) == NormalizedCode(code)
  {
    StripIsStripped(code);
    UpperKeepsStripped(Strip(code));
    StripOfStripped(NormalizedCode(code));
    UpperIdempotent(Strip(code));
  }

  /**
   * A name is given exactly when the code, the company and the company code
   * are non-blank; it is the normalised code, a dash, and an upper-case
   * company code without spaces.
   */
  lemma NameMeans(env: Env, code: string, company: string)
    ensures Name(env, code, company).Ok? <==>
      NormalizedCode(code) != "" && Strip(company) != "" && CompanyCode(env.companyCodes, Strip(company)) != ""
    ensures Name(env, code, company).Ok? ==>
      exists cc :: Name(env, code, company).value == NormalizedCode(code) + "-" + cc
                   && cc != "" && ' ' !in cc && Upper(cc) == cc
  {
    var comp := Strip(company);
    var cc := CompanyCode(env.companyCodes, comp);
    if Name(env, code, company).Ok? {
      var stored := if comp in env.companyCodes && env.companyCodes[comp] != "" then env.companyCodes[comp] else comp;
      var u := Upper(Strip(stored));
      assert Upper(cc) == cc by {
        assert forall i :: 0 <= i < |cc| ==> UpperChar(cc[i]) == cc[i];
      }
      assert Name(env, code, company).value == NormalizedCode(code) + "-" + cc;
    }
  }

  /** A company without a stored code is named by its own stripped name, upper-cased, spaces turned to dashes. */
  lemma NameFallsBackToCompany(env: Env, code: string, company: string)
    requires NormalizedCode(code) != "" && Strip(company) != ""
    requires Strip(company) !in env.companyCodes
    ensures Name(env, code, company) == Ok(NormalizedCode(code) + "-" + Dashed(Upper(Strip(company))))
  {
    StripIdempotent(company);
    StripIsStripped(company);
    UpperKeepsStripped(Strip(company));
    assert |Dashed(Upper(Strip(company)))| == |Strip(company)|;
  }

  /** `_normalize_fields` maps an empty parent to None. */
  function NormalizedParent(parent: Option<string>): (r: Option<string>)
    ensures r != Some("")
    ensures parent != Some("") ==> r == parent
  {
    if parent == Some("") then None else parent
  }

  // ---------------------------------------------------------------------
  // Validation
  // ---------------------------------------------------------------------

  /** Another stored department of the company has the code; the record itself is excluded once saved under its name. */
  predicate CodeTaken(env: Env, name: string, isNew: bool, code: string, company: string)
  {
    exists n | n in env.departments ::
      env.departments[n].departmentCode == code && env.departments[n].company == company
      && (name == "" || isNew || n != name)
  }

  /** The stored parent links of the Department table. */
  function ParentLinks(env: Env): (r: map<string, string>)
    ensures r.Keys == env.departments.Keys
    ensures forall n | n in r :: r[n] == env.departments[n].parentDepartment
  {
    map n | n in env.departments :: env.departments[n].parentDepartment
  }

  /** The stored company of a department, "" when the department is not stored. */
  function CompanyOf(env: Env, department: string): string
  {
    if department in env.departments then env.departments[department].company else ""
  }

  const CIRCULAR: string := "Circular department hierarchy detected."
  const SELF_PARENT: string := "Parent Department cannot be the same as the department."
  const PARENT_COMPANY: string := "Parent Department must belong to the same company."
  const NAME_REQUIRED: string := "Department Name is required."
  const COMPANY_REQUIRED: string := "Company is required."
  const CODE_REQUIRED: string := "Department Code is required."

  /** The parent checks that come before the walk; `parent` is "" when there is none. */
  function ParentError(env: Env, name: string, company: string, parent: string): Option<string>
  {
    if parent == "" then None
    else if parent == name then Some(SELF_PARENT)
    else if CompanyOf(env, parent) != "" && CompanyOf(env, parent) != company then
      Some(PARENT_COMPANY)
    else None
  }

  /** The required fields and the code's uniqueness, on the normalised fields. */
  function RequiredError(env: Env, name: string, isNew: bool, departmentName: string, code: string, company: string): Option<string>
  {
    if departmentName == "" then Some(NAME_REQUIRED)
    else if company == "" then Some(COMPANY_REQUIRED)
    else if NormalizedCode(code) == "" then Some(CODE_REQUIRED)
    else if CodeTaken(env, name, isNew, NormalizedCode(code), company) then
      Some("Department Code " + NormalizedCode(code) + " already exists for company " + company + ".")
    else None
  }

  /** The parent's name, "" for none. */
  function ParentName(parent: Option<string>): string
  {
    if parent.None? then "" else parent.value
  }

  /** The checks of `validate` before the settings, on the normalised fields, in order. */
  function FieldsError(env: Env, name: string, isNew: bool, departmentName: string, code: string,
                       company: string, parent: Option<string>): Option<string>
  {
    var required := RequiredError(env, name, isNew, departmentName, code, company);
    if required.Some? then required
    else
      var p := ParentName(parent);
      var parentError := ParentError(env, name, company, p);
      if parentError.Some? then parentError
      else if p != "" && Walk(ParentLinks(env), {name}, p) then Some(CIRCULAR)
      else None
  }

  /** What the field checks accept, stated rule by rule. */
  ghost predicate FieldsAcceptable(env: Env, name: string, isNew: bool, departmentName: string, code: string,
                                   company: string, parent: Option<string>)
  {
    && departmentName != "" && company != "" && NormalizedCode(code) != ""
    && (forall n | n in env.departments && env.departments[n].company == company
          && (name == "" || isNew || n != name) :: env.departments[n].departmentCode != NormalizedCode(code))
    && (parent.Some? && parent.value != "" ==>
          && parent.value != name
          && (parent.value in env.departments ==>
                env.departments[parent.value].company == "" || env.departments[parent.value].company == company)
          && !Revisits(ParentLinks(env), {name}, parent.value))
  }

  /** The field checks pass exactly when every rule holds. */
  lemma FieldsErrorMeans(env: Env, name: string, isNew: bool, departmentName: string, code: string,
                         company: string, parent: Option<string>)
    ensures FieldsError(env, name, isNew, departmentName, code, company, parent).None?
            <==> FieldsAcceptable(env, name, isNew, departmentName, code, company, parent)
  {
    if RequiredError(env, name, isNew, departmentName, code, company).None? {
      assert departmentName != "" && company != "" && NormalizedCode(code) != ""
        && !CodeTaken(env, name, isNew, NormalizedCode(code), company);
      if parent.Some? && parent.value != "" {
        WalkMeans(ParentLinks(env), {name}, parent.value);
      }
    }
  }

  /** The same code may be used by a department of another company. */
  lemma CodeFreeInOtherCompany(env: Env, name: string, isNew: bool, code: string, company: string)
    requires forall n | n in env.departments && env.departments[n].departmentCode == code :: env.departments[n].company != company
    ensures !CodeTaken(env, name, isNew, code, company)
  {
  }

  // ---------------------------------------------------------------------
  // Settings
  // ---------------------------------------------------------------------

  /** The Python type a known settings key must have. */
  datatype Kind = BoolKind | StrKind | NumKind | ListKind | DictKind

  /** `SETTINGS_TYPE_MAP`, in its order. */
  const SETTINGS_TYPES: seq<(string, Kind)> := [
    ("eoq_enabled", BoolKind),
    ("eoq_calculation_method", StrKind),
    ("eoq_safety_stock_factor", NumKind),
    ("reorder_point_buffer", NumKind),
    ("reorder_point_method", StrKind),
    ("default_ordering_day", StrKind),
    ("minimum_order_amount", NumKind),
    ("require_order_approval", BoolKind),
    ("allow_inter_department_transfers", BoolKind),
    ("require_approval_for_transfers", BoolKind),
    ("transfer_approval_roles", ListKind),
    ("inventory_count_frequency", StrKind),
    ("require_count_approval", BoolKind),
    ("variance_threshold", NumKind),
    ("budget_alert_threshold", NumKind),
    ("budget_alert_frequency", StrKind),
    ("budget_fiscal_year", StrKind),
    ("custom_settings", DictKind)
  ]

  /** Python `isinstance(value, expected)`; a bool is also an int, so it counts as numeric. */
  predicate HasKind(v: Json, k: Kind)
  {
    match k
    case BoolKind => v.JBool?
    case StrKind => v.JStr?
    case NumKind => v.JNum? || v.JBool?
    case ListKind => v.JArr?
    case DictKind => v.JObj?
  }

  function KindError(key: string, k: Kind): string
  {
    var bold := "<strong>" + key + "</strong>";
    match k
    case ListKind => "Settings key " + bold + " must be a list."
    case DictKind => "Settings key " + bold + " must be a dictionary."
    case NumKind => "Settings key " + bold + " must be numeric."
    case BoolKind => "Settings key " + bold + " must be of type bool."
    case StrKind => "Settings key " + bold + " must be of type str."
  }

  /** The first entry of `table`, from position `i`, present in the object with a value of the wrong type. */
  function TypeErrorFrom(fields: seq<(string, Json)>, table: seq<(string, Kind)>, i: nat): Option<string>
    requires i <= |table|
    decreases |table| - i
  {
    if i == |table| then None
    else
      var v := Lookup(fields, table[i].0);
      if v.Some? && !HasKind(v.value, table[i].1) then Some(KindError(table[i].0, table[i].1))
      else TypeErrorFrom(fields, table, i + 1)
  }

  /** The type check passes exactly when every listed key that is present has its type. */
  lemma {:induction false} TypeErrorFromMeans(fields: seq<(string, Json)>, table: seq<(string, Kind)>, i: nat)
    requires i <= |table|
    ensures TypeErrorFrom(fields, table, i).None? <==>
      forall k | i <= k < |table| :: Lookup(fields, table[k].0).None? || HasKind(Lookup(fields, table[k].0).value, table[k].1)
    decreases |table| - i
  {
    if i < |table| {
      TypeErrorFromMeans(fields, table, i + 1);
    }
  }

  /** Orders object entries by key. */
  predicate KeyBefore(a: (string, Json), b: (string, Json))
  {
    StrLt(a.0, b.0)
  }

  lemma KeyOrderStrict()
    ensures StrictOrder((a: (string, Json), b: (string, Json)) => KeyBefore(a, b))
  {
    forall a: (string, Json)
      ensures !KeyBefore(a, a)
    {
      StrLtIrreflexive(a.0);
    }
    forall a: (string, Json), b: (string, Json), c: (string, Json) | KeyBefore(a, b) && KeyBefore(b, c)
      ensures KeyBefore(a, c)
    {
      StrLtTransitive(a.0, b.0, c.0);
    }
  }

  /** `json.dumps(..., sort_keys=True)` at the top level: the same entries, in key order. */
  function SortedFields(fields: seq<(string, Json)>): (r: seq<(string, Json)>)
    ensures multiset(r) == multiset(fields)
    ensures forall i, j :: 0 <= i < j < |r| ==> !StrLt(r[j].0, r[i].0)
  {
    KeyOrderStrict();
    SortBy(fields, (a: (string, Json), b: (string, Json)) => KeyBefore(a, b))
  }

  const INVALID_JSON: string := "Settings must be valid JSON."
  const NOT_ITERABLE: string := "TypeError: argument of type is not iterable"
  const NOT_INDEXABLE: string := "TypeError: indices must be integers"

  /** Python `key in value` for a list or a string. */
  predicate ContainerHas(v: Json, key: string)
  {
    (v.JArr? && JStr(key) in v.items) || (v.JStr? && Contains(v.s, key))
  }

  /** An object's settings after the type check against `table`: Err, or the text written back with sorted keys. */
  function CheckObject(fields: seq<(string, Json)>, table: seq<(string, Kind)>): Result<Settings>
  {
    match TypeErrorFrom(fields, table, 0)
    case Some(e) => Err(e)
    case None => Ok(Text(Some(JObj(SortedFields(fields)))))
  }

  /**
   * `_validate_settings_json`: empty settings are left alone; text that is
   * not JSON is refused; an object is type-checked and written back with
   * sorted keys.  A list or string passes unless one of the known keys is
   * in it, in which case indexing it by the key fails; any other JSON value
   * cannot be searched at all.  `table` is `SETTINGS_TYPES`.
   */
  function SettingsOutcome(s: Settings, table: seq<(string, Kind)>): Result<Settings>
  {
    match s
    case NoSettings => Ok(s)
    case Dict(fields) => if fields == [] then Ok(s) else CheckObject(fields, table)
    case Text(parsed) =>
      match parsed
      case None => Err(INVALID_JSON)
      case Some(v) =>
        if v.JObj? then CheckObject(v.fields, table)
        else if v.JArr? || v.JStr? then
          if exists k | 0 <= k < |table| :: ContainerHas(v, table[k].0) then Err(NOT_INDEXABLE)
          else Ok(s)
        else Err(NOT_ITERABLE)
  }

  /** Accepted object settings have every known key well typed, and are stored as the same entries in key order. */
  lemma SettingsOutcomeMeans(fields: seq<(string, Json)>, table: seq<(string, Kind)>)
    ensures SettingsOutcome(Text(Some(JObj(fields))), table).Ok? <==>
      forall k | 0 <= k < |table| :: Lookup(fields, table[k].0).None? || HasKind(Lookup(fields, table[k].0).value, table[k].1)
    ensures SettingsOutcome(Text(Some(JObj(fields))), table).Ok? ==>
      var stored := SettingsOutcome(Text(Some(JObj(fields))), table).value;
      stored.Text? && stored.parsed.Some? && stored.parsed.value.JObj?
      && multiset(stored.parsed.value.fields) == multiset(fields)
  {
    TypeErrorFromMeans(fields, table, 0);
  }

  /** The entries of object settings, [] for anything else. */
  function Fields(s: Settings): seq<(string, Json)>
  {
    if s.Text? && s.parsed.Some? && s.parsed.value.JObj? then s.parsed.value.fields
    else if s.Dict? then s.fields
    else []
  }

  /** Validating the written-back settings again accepts them, with the same entries (keys occur once, as in a dict). */
  lemma SettingsOutcomeStable(s: Settings, table: seq<(string, Kind)>)
    requires DistinctKeys(Fields(s))
    requires SettingsOutcome(s, table).Ok?
    ensures SettingsOutcome(SettingsOutcome(s, table).value, table).Ok?
    ensures multiset(Fields(SettingsOutcome(SettingsOutcome(s, table).value, table).value))
            == multiset(Fields(SettingsOutcome(s, table).value))
  {
    var orig: seq<(string, Json)>;
    match s {
      case NoSettings => return;
      case Dict(fields) =>
        if fields == [] { return; }
        orig := fields;
      case Text(parsed) =>
        if !parsed.value.JObj? {
          assert SettingsOutcome(s, table) == Ok(s);
          return;
        }
        orig := parsed.value.fields;
    }
    assert SettingsOutcome(s, table) == CheckObject(orig, table);
    CheckObjectStable(orig, table);
    var t := SettingsOutcome(s, table).value;
    assert SettingsOutcome(t, table) == CheckObject(t.parsed.value.fields, table);
  }

  /** Object settings that pass the type check pass it again once written back, with the same entries. */
  lemma CheckObjectStable(orig: seq<(string, Json)>, table: seq<(string, Kind)>)
    requires DistinctKeys(orig)
    requires CheckObject(orig, table).Ok?
    ensures var f := SortedFields(orig);
      CheckObject(orig, table).value == Text(Some(JObj(f)))
      && CheckObject(f, table).Ok? && multiset(CheckObject(f, table).value.parsed.value.fields) == multiset(f)
  {
    var f := SortedFields(orig);
    TypeErrorFromMeans(orig, table, 0);
    TypeErrorFromMeans(f, table, 0);
    forall k | 0 <= k < |table|
      ensures Lookup(f, table[k].0).None? || HasKind(Lookup(f, table[k].0).value, table[k].1)
    {
      SameLookup(orig, f, table[k].0);
    }
    assert TypeErrorFrom(f, table, 0).None?;
  }

  // ---------------------------------------------------------------------
  // get_department_setting
  // ---------------------------------------------------------------------

  const NO_GET: string := "AttributeError: object has no attribute 'get'"

  /** `get_department_setting`: the stored value under the key, or the default; only a dictionary has `get`. */
  function GetSetting(env: Env, department: string, key: string, default: Json): Result<Json>
  {
    var s := if department in env.departments then env.departments[department].settings else NoSettings;
    match s
    case NoSettings => Ok(default)
    case Dict(fields) => if fields == [] then Ok(default) else Ok(match Lookup(fields, key) case None => default case Some(v) => v)
    case Text(parsed) =>
      match parsed
      case None => Ok(default)
      case Some(v) =>
        if v.JObj? then Ok(match Lookup(v.fields, key) case None => default case Some(x) => x)
        else Err(NO_GET)
  }

  /** The default comes back for an unknown department, empty settings, invalid JSON and a missing key. */
  lemma GetSettingDefaults(env: Env, department: string, key: string, default: Json)
    ensures department !in env.departments ==> GetSetting(env, department, key, default) == Ok(default)
    ensures department in env.departments && env.departments[department].settings in {NoSettings, Text(None)} ==>
      GetSetting(env, department, key, default) == Ok(default)
    ensures department in env.departments && env.departments[department].settings.Text?
            && env.departments[department].settings.parsed.Some?
            && env.departments[department].settings.parsed.value.JObj?
            && (forall i | 0 <= i < |env.departments[department].settings.parsed.value.fields| ::
                  env.departments[department].settings.parsed.value.fields[i].0 != key)
      ==> GetSetting(env, department, key, default) == Ok(default)
  {
  }

  /** Keys that occur once: a lookup finds exactly the stored entry. */
  predicate DistinctKeys(fields: seq<(string, Json)>)
  {
    forall i, j | 0 <= i < j < |fields| :: fields[i].0 != fields[j].0
  }

  lemma LookupDistinct(fields: seq<(string, Json)>, key: string, v: Json)
    requires DistinctKeys(fields)
    ensures Lookup(fields, key) == Some(v) <==> (key, v) in fields
  {
    if (key, v) in fields {
      var i :| 0 <= i < |fields| && fields[i] == (key, v);
      var w := Lookup(fields, key).value;
      var m :| 0 <= m < |fields| && fields[m] == (key, w);
      assert m == i;
    }
  }

  /**
   * Settings saved by validation read back as they were given: for an
   * object with distinct keys, every key reads back its own value.
   */
  lemma SavedSettingReadsBack(env: Env, department: string, fields: seq<(string, Json)>, table: seq<(string, Kind)>,
                              key: string, default: Json)
    requires DistinctKeys(fields)
    requires department in env.departments
    requires SettingsOutcome(Dict(fields), table).Ok?
    requires env.departments[department].settings == SettingsOutcome(Dict(fields), table).value
    ensures GetSetting(env, department, key, default) == Ok(match Lookup(fields, key) case None => default case Some(v) => v)
  {
    if fields != [] {
      var sorted := SortedFields(fields);
      assert env.departments[department].settings == Text(Some(JObj(sorted)));
      SameLookup(fields, sorted, key);
    }
  }

  /** Two arrangements of the same entries with distinct keys look every key up alike. */
  lemma SameLookup(a: seq<(string, Json)>, b: seq<(string, Json)>, key: string)
    requires DistinctKeys(a) && multiset(a) == multiset(b)
    ensures Lookup(b, key) == Lookup(a, key)
  {
    PermutedDistinct(a, b);
    match Lookup(a, key)
    case None =>
      if Lookup(b, key).Some? {
        var w := Lookup(b, key).value;
        LookupDistinct(b, key, w);
        assert (key, w) in multiset(a);
        LookupDistinct(a, key, w);
      }
    case Some(v) =>
      LookupDistinct(a, key, v);
      assert (key, v) in multiset(b);
      LookupDistinct(b, key, v);
  }

  /** Reordering entries keeps their keys distinct. */
  lemma PermutedDistinct(a: seq<(string, Json)>, b: seq<(string, Json)>)
    requires DistinctKeys(a) && multiset(a) == multiset(b)
    ensures DistinctKeys(b)
  {
    forall i, j | 0 <= i < j < |b| ensures b[i].0 != b[j].0 {
      if b[i].0 == b[j].0 {
        assert b[i] in multiset(a) && b[j] in multiset(a);
        var x :| 0 <= x < |a| && a[x] == b[i];
        var y :| 0 <= y < |a| && a[y] == b[j];
        assert x == y;
        TwiceCounted(b, i, j);
        DistinctCount(a, x);
      }
    }
  }

  /** An element at two positions is counted at least twice. */
  lemma TwiceCounted<T>(s: seq<T>, i: nat, j: nat)
    requires i < j < |s| && s[i] == s[j]
    ensures multiset(s)[s[i]] >= 2
  {
    assert s == s[..j] + s[j..];
    assert s[i] == s[..j][i];
    assert s[j] == s[j..][0];
    assert multiset(s) == multiset(s[..j]) + multiset(s[j..]);
  }

  /** In an object with distinct keys each entry occurs once. */
  lemma {:induction false} DistinctCount(fields: seq<(string, Json)>, a: nat)
    requires DistinctKeys(fields) && a < |fields|
    ensures multiset(fields)[fields[a]] == 1
  {
    var x := fields[a];
    var n := |fields|;
    var front := fields[..n - 1];
    assert fields == front + [fields[n - 1]];
    if a < n - 1 {
      assert fields[n - 1] != x;
      assert front[a] == x;
      DistinctCount(front, a);
    } else {
      assert forall m | 0 <= m < n - 1 :: front[m] != x;
      assert x !in multiset(front);
    }
  }

  // ---------------------------------------------------------------------
  // The document
  // ---------------------------------------------------------------------

  class Department {
    var name: string
    var isNew: bool
    var departmentName: string
    var departmentCode: string
    var company: string
    var parentDepartment: Option<string>
    var settings: Settings

    /** `autoname`: the name from the code and the company code; nothing changes on error. */
    method Autoname(env: Env) returns (err: Option<string>)
      modifies this`name
      ensures Name(env, departmentCode, company).Ok? ==> err.None? && name == Name(env, departmentCode, company).value
      ensures Name(env, departmentCode, company).Err? ==>
        err == Some(Name(env, departmentCode, company).error) && name == old(name)
    {
      var n := Name(env, departmentCode, company);
      if n.Err? {
        return Some(n.error);
      }
      name := n.value;
      err := None;
    }

    /** `_normalize_fields` (also run by `before_save`). */
    method NormalizeFields()
      modifies this`departmentName, this`departmentCode, this`parentDepartment
      ensures departmentName == Strip(old(departmentName))
      ensures departmentCode == NormalizedCode(old(departmentCode))
      ensures parentDepartment == NormalizedParent(old(parentDepartment))
    {
      departmentName := Strip(departmentName);
      if departmentCode != "" {
        departmentCode := NormalizedCode(departmentCode);
      }
      if parentDepartment == Some("") {
        parentDepartment := None;
      }
    }

    /**
     * `validate`: normalise, then the field checks in order, then the
     * settings, which are written back when they pass.  The normalised
     * fields stay normalised whatever the outcome.
     */
    method Validate(env: Env) returns (err: Option<string>)
      modifies this`departmentName, this`departmentCode, this`parentDepartment, this`settings
      ensures departmentName == Strip(old(departmentName))
      ensures departmentCode == NormalizedCode(old(departmentCode))
      ensures parentDepartment == NormalizedParent(old(parentDepartment))
      ensures var fe := FieldsError(env, name, isNew, departmentName, departmentCode, company, parentDepartment);
        && (fe.Some? ==> err == fe && settings == old(settings))
        && (fe.None? && SettingsOutcome(old(settings), SETTINGS_TYPES).Err? ==>
              err == Some(SettingsOutcome(old(settings), SETTINGS_TYPES).error) && settings == old(settings))
        && (fe.None? && SettingsOutcome(old(settings), SETTINGS_TYPES).Ok? ==>
              err.None? && settings == SettingsOutcome(old(settings), SETTINGS_TYPES).value)
    {
      NormalizeFields();
      err := RequiredError(env, name, isNew, departmentName, departmentCode, company);
      if err.Some? {
        return;
      }
      var p := ParentName(parentDepartment);
      err := ParentError(env, name, company, p);
      if err.Some? {
        return;
      }
      if p != "" {
        var cyclic := DetectCycle(ParentLinks(env), name, p);
        WalkMeans(ParentLinks(env), {name}, p);
        if cyclic {
          return Some(CIRCULAR);
        }
      }
      var outcome := SettingsOutcome(settings, SETTINGS_TYPES);
      if outcome.Err? {
        return Some(outcome.error);
      }
      settings := outcome.value;
    }
  }

  /** Normalising twice is normalising once. */
  lemma NormalizationIdempotent(departmentName: string, code: string, parent: Option<string>)
    ensures Strip(Strip(departmentName)) == Strip(departmentName)
    ensures NormalizedCode(NormalizedCode(code)) == NormalizedCode(code)
    ensures NormalizedParent(NormalizedParent(parent)) == NormalizedParent(parent)
  {
    StripIdempotent(departmentName);
    NormalizedCodeIdempotent(code);
  }
}
