// Subscription enforcement: the bypass / allow / deny decision taken before
// a module or feature is used, the append-only access log it writes, the
// document-event hooks built on it, and the log queries.
//
// The helpers that decide bypass and access (`_user_bypasses_subscription_gates`,
// `user_has_module_access`, `user_has_feature`), the bypass role list and the
// user's roles are not part of this model: they are the fields of a `Gate`.
// The environment (session user, request, install/migrate flags, whether the
// log insert fails, the clock, the client address, JSON encoding) is an `Env`.

module Enforcement {
  import opened Common
  import opened JsonValue
  import opened PyDict

  datatype AccessType = ModuleAccess | FeatureAccess

  /** The `access_type` text of a log entry. */
  function TypeName(t: AccessType): string
  {
    match t
    case ModuleAccess => "Module"
    case FeatureAccess => "Feature"
  }

  const HTTP_FORBIDDEN: int := 403

  /** `SubscriptionAccessDenied`: the message, the key checked (module or feature), the user and the status. */
  datatype Denial = Denial(message: string, moduleKey: string, featureKey: string, user: string, httpStatus: int)

  /** The exceptions raised to the caller. */
  datatype Failure = Denied(denial: Denial) | TypeError(message: string)

  /** The permission helpers the decision consults. */
  datatype Gate = Gate(bypasses: string -> bool, rolesOf: string -> seq<string>, bypassRoles: seq<string>,
                       moduleAccess: (string, string) -> bool, featureAccess: (string, string) -> bool)

  /** The request environment. `request` is the path and method of the current request, if any. */
  datatype Env = Env(sessionUser: string, request: Option<(string, string)>, installing: bool, insertFails: bool,
                     now: int, ipAddress: string, encode: Dict<string> -> string)

  /** A `Subscription Access Log` record. */
  datatype LogEntry = LogEntry(timestamp: int, user: string, accessType: AccessType, accessKey: string,
                               action: string, bypassReason: string, contextData: string, ipAddress: string)

  // ---------------------------------------------------------------------
  // The decision
  // ---------------------------------------------------------------------

  /** The denial message of a module or feature key. */
  function DenialMessage(t: AccessType, key: string): string
  {
    match t
    case ModuleAccess =>
      "Access denied: The " + key + " module is not enabled in your subscription plan. "
      + "Please contact your administrator to upgrade your plan."
    case FeatureAccess =>
      "Access denied: The " + key + " feature is not enabled in your subscription plan. "
      + "Please contact your administrator to enable this feature."
  }

  /** The subscription grants `user` the module or feature `key`. */
  predicate HasAccess(gate: Gate, t: AccessType, user: string, key: string)
  {
    match t
    case ModuleAccess => gate.moduleAccess(user, key)
    case FeatureAccess => gate.featureAccess(user, key)
  }

  /**
   * `check_access`: a bypassing user passes; anyone else passes exactly
   * when the subscription grants the key, and is otherwise refused with a
   * 403 naming the key and the user.
   */
  function Decide(gate: Gate, t: AccessType, key: string, user: string): (r: Option<Denial>)
    ensures gate.bypasses(user) ==> r.None?
    ensures !gate.bypasses(user) ==> (r.None? <==> HasAccess(gate, t, user, key))
    ensures r.Some? ==>
      (&& r.value.httpStatus == HTTP_FORBIDDEN && r.value.user == user
       && r.value.message == DenialMessage(t, key)
       && (t.ModuleAccess? ==> r.value.moduleKey == key && r.value.featureKey == "")
       && (t.FeatureAccess? ==> r.value.featureKey == key && r.value.moduleKey == ""))
  {
    if gate.bypasses(user) || HasAccess(gate, t, user, key) then None
    else
      match t
      case ModuleAccess => Some(Denial(DenialMessage(t, key), key, "", user, HTTP_FORBIDDEN))
      case FeatureAccess => Some(Denial(DenialMessage(t, key), "", key, user, HTTP_FORBIDDEN))
  }

  /** The bypass roles the user holds, in the order of the bypass role list. */
  function Held(bypassRoles: seq<string>, roles: seq<string>): (r: seq<string>)
    ensures forall x :: x in r <==> x in bypassRoles && x in roles
  {
    if bypassRoles == [] then []
    else if bypassRoles[0] in roles then [bypassRoles[0]] + Held(bypassRoles[1..], roles)
    else Held(bypassRoles[1..], roles)
  }

  /** `bypass_reason`: the held bypass roles joined with ", ". */
  function BypassReason(bypassRoles: seq<string>, roles: seq<string>): string
  {
    Join(Held(bypassRoles, roles), ", ")
  }

  /**
   * With no empty role name in the bypass list, the reason is empty
   * exactly when the user holds none of the bypass roles.
   */
  lemma BypassReasonEmpty(bypassRoles: seq<string>, roles: seq<string>)
    requires forall i :: 0 <= i < |bypassRoles| ==> bypassRoles[i] != ""
    ensures BypassReason(bypassRoles, roles) == "" <==> forall x | x in bypassRoles :: x !in roles
  {
    var held := Held(bypassRoles, roles);
    assert forall i :: 0 <= i < |held| ==> held[i] != "" by {
      forall i | 0 <= i < |held| ensures held[i] != "" {
        assert held[i] in bypassRoles;
      }
    }
    JoinEmpty(held, ", ");
    if held != [] {
      assert held[0] in bypassRoles && held[0] in roles;
    }
  }

  /**
   * Whether `check_access` writes a log entry, and with which bypass
   * reason: a bypass is logged with the reason, a refusal with none, and
   * nothing is logged when access is simply granted or `log_denial` is off.
   */
  function LoggedReason(gate: Gate, t: AccessType, key: string, user: string, logDenial: bool): (r: Option<string>)
    ensures !logDenial ==> r.None?
    ensures r.Some? <==> logDenial && (gate.bypasses(user) || Decide(gate, t, key, user).Some?)
    ensures r.Some? && !gate.bypasses(user) ==> r.value == ""
  {
    if !logDenial then None
    else if gate.bypasses(user) then Some(BypassReason(gate.bypassRoles, gate.rolesOf(user)))
    else if !HasAccess(gate, t, user, key) then Some("")
    else None
  }

  // ---------------------------------------------------------------------
  // The access log
  // ---------------------------------------------------------------------

  /** `context.setdefault(k, v)`. */
  function SetDefault(d: Dict<string>, k: string, v: string): (r: Dict<string>)
    ensures Get(d, k).Some? ==> r == d
    ensures Get(d, k).None? ==> Get(r, k) == Some(v)
    ensures forall j :: j != k ==> Get(r, j) == Get(d, j)
  {
    if Get(d, k).Some? then d else PutGet(d, k, v); Put(d, k, v)
  }

  /** The logged context: the caller's, with the request path and method added when absent. */
  function RequestContext(context: Dict<string>, request: Option<(string, string)>): Dict<string>
  {
    if request.Some? then SetDefault(SetDefault(context, "endpoint", request.value.0), "method", request.value.1)
    else context
  }

  /** The entry `_log_access_denial` inserts. */
  function NewEntry(env: Env, user: string, t: AccessType, key: string, context: Dict<string>, reason: string): (e: LogEntry)
    ensures e.action == "Bypass" <==> reason != ""
    ensures e.action == "Denied" <==> reason == ""
    ensures e.user == user && e.accessType == t && e.accessKey == key && e.bypassReason == reason && e.timestamp == env.now
  {
    LogEntry(env.now, user, t, key, if reason != "" then "Bypass" else "Denied", reason,
             env.encode(RequestContext(context, env.request)), env.ipAddress)
  }

  /** The `Subscription Access Log` table, which is only ever appended to. */
  class AccessLog {
    var entries: seq<LogEntry>

    constructor()
      ensures entries == []
    {
      entries := [];
    }

    /**
     * `_log_access_denial`: appends one entry, except during install or
     * migrate and when the insert fails (the failure is swallowed).
     */
    method Record(env: Env, user: string, t: AccessType, key: string, context: Dict<string>, reason: string)
      modifies this
      ensures env.installing || env.insertFails ==> entries == old(entries)
      ensures !env.installing && !env.insertFails ==> entries == old(entries) + [NewEntry(env, user, t, key, context, reason)]
    {
      if env.installing || env.insertFails {
        return;
      }
      entries := entries + [NewEntry(env, user, t, key, context, reason)];
    }
  }

  /** What a check appends to the log. */
  function Appended(env: Env, gate: Gate, t: AccessType, key: string, user: string, logDenial: bool,
                    context: Dict<string>): (r: seq<LogEntry>)
    ensures |r| <= 1
    ensures r != [] ==> r[0].action == (if gate.bypasses(user) then
                                          (if BypassReason(gate.bypassRoles, gate.rolesOf(user)) != "" then "Bypass" else "Denied")
                                        else "Denied")
  {
    var reason := LoggedReason(gate, t, key, user, logDenial);
    if reason.None? || env.installing || env.insertFails then []
    else [NewEntry(env, user, t, key, context, reason.value)]
  }

  /**
   * `check_access` for an already resolved user and context: the decision,
   * with the log entry (if any) written before the refusal is raised.
   */
  method CheckAccess(log: AccessLog, gate: Gate, env: Env, t: AccessType, key: string, user: string, logDenial: bool,
                     context: Dict<string>) returns (r: Option<Denial>)
    modifies log
    ensures r == Decide(gate, t, key, user)
    ensures log.entries == old(log.entries) + Appended(env, gate, t, key, user, logDenial, context)
  {
    var reason := LoggedReason(gate, t, key, user, logDenial);
    if reason.Some? {
      log.Record(env, user, t, key, context, reason.value);
    }
    r := Decide(gate, t, key, user);
  }

  /** No log entry is ever written with `log_denial` off, and a granted non-bypass check writes none either. */
  lemma QuietChecks(env: Env, gate: Gate, t: AccessType, key: string, user: string, logDenial: bool, context: Dict<string>)
    ensures !logDenial ==> Appended(env, gate, t, key, user, logDenial, context) == []
    ensures !gate.bypasses(user) && HasAccess(gate, t, user, key) ==> Appended(env, gate, t, key, user, logDenial, context) == []
    ensures logDenial && !env.installing && !env.insertFails && !gate.bypasses(user) && !HasAccess(gate, t, user, key) ==>
      Appended(env, gate, t, key, user, logDenial, context) == [NewEntry(env, user, t, key, context, "")]
  {
  }

  // ---------------------------------------------------------------------
  // require_module_access / require_feature_access
  // ---------------------------------------------------------------------

  /** The key argument: a key, or (decorator used without arguments) the decorated function itself. */
  datatype KeyArg = KeyText(key: string) | KeyCallable

  /** The decorator a call returns: the identity after an immediate check, or the checking wrapper. */
  datatype Decorator = Identity | Deferred(t: AccessType, key: string, logDenial: bool, context: Dict<string>)

  /** What a call of `require_module_access` / `require_feature_access` ends in. */
  datatype Required = Returned(decorator: Decorator) | Raised(failure: Failure)

  /** The TypeError message for a decorator applied without its key. */
  function CallableMessage(t: AccessType): string
  {
    var name := DecoratorName(t);
    var param := KeyParameter(t);
    name + " requires a " + param + " argument. Use @" + name + "('" + param + "') instead of @" + name
  }

  /** The decorator's name. */
  function DecoratorName(t: AccessType): string
  {
    match t
    case ModuleAccess => "require_module_access"
    case FeatureAccess => "require_feature_access"
  }

  /** The decorator's key parameter. */
  function KeyParameter(t: AccessType): string
  {
    match t
    case ModuleAccess => "module_key"
    case FeatureAccess => "feature_key"
  }

  /** The user an immediate check is for: the one given, or the session user when it is blank. */
  function CheckedUser(env: Env, user: string): string
  {
    if user != "" then user else env.sessionUser
  }

  /**
   * `require_module_access` / `require_feature_access`: a callable key
   * raises `TypeError` before anything is checked; with a user given the
   * check runs at once and the identity decorator comes back unless the
   * check refuses; without one the checking wrapper comes back and nothing
   * is checked yet.
   */
  method RequireAccess(log: AccessLog, gate: Gate, env: Env, t: AccessType, keyArg: KeyArg, user: Option<string>,
                       logDenial: bool, context: Dict<string>) returns (r: Required)
    modifies log
    ensures keyArg.KeyCallable? ==> r == Raised(TypeError(CallableMessage(t))) && log.entries == old(log.entries)
    ensures keyArg.KeyText? && user.None? ==>
      r == Returned(Deferred(t, keyArg.key, logDenial, context)) && log.entries == old(log.entries)
    ensures keyArg.KeyText? && user.Some? ==>
      && r == (var d := Decide(gate, t, keyArg.key, CheckedUser(env, user.value));
               if d.Some? then Raised(Denied(d.value)) else Returned(Identity))
      && log.entries == old(log.entries) + Appended(env, gate, t, keyArg.key, CheckedUser(env, user.value), logDenial, context)
  {
    if keyArg.KeyCallable? {
      return Raised(TypeError(CallableMessage(t)));
    }
    if user.None? {
      return Returned(Deferred(t, keyArg.key, logDenial, context));
    }
    var denial := CheckAccess(log, gate, env, t, keyArg.key, CheckedUser(env, user.value), logDenial, context);
    r := if denial.Some? then Raised(Denied(denial.value)) else Returned(Identity);
  }

  /** The context a wrapped call logs: the decorator's, plus the function's name and module when absent. */
  function CallContext(context: Dict<string>, funcName: string, funcModule: string): Dict<string>
  {
    SetDefault(SetDefault(context, "function", funcName), "module", funcModule)
  }

  /**
   * Calling a function wrapped by the deferred decorator: the session user
   * is checked before the function runs, with the call context; the
   * function runs only when no refusal is raised.
   */
  method CallWrapped(log: AccessLog, gate: Gate, env: Env, d: Decorator, funcName: string, funcModule: string)
    returns (runs: bool, raised: Option<Denial>)
    requires d.Deferred?
    modifies log
    ensures raised == Decide(gate, d.t, d.key, env.sessionUser)
    ensures runs <==> raised.None?
    ensures log.entries == old(log.entries)
      + Appended(env, gate, d.t, d.key, env.sessionUser, d.logDenial, CallContext(d.context, funcName, funcModule))
  {
    raised := CheckAccess(log, gate, env, d.t, d.key, env.sessionUser, d.logDenial, CallContext(d.context, funcName, funcModule));
    runs := raised.None?;
  }

  // ---------------------------------------------------------------------
  // Document-event hooks
  // ---------------------------------------------------------------------

  /** The context of a document event. */
  function DocContext(doctype: string, name: string, event: string): Dict<string>
  {
    [("doctype", doctype), ("name", name), ("event", if event != "" then event else "unknown")]
  }

  /**
   * `enforce_module_access_for_doctype`: without a key the DocType's module
   * is used; when there is none either, nothing is checked.  Otherwise
   * the session user is checked at once.
   */
  method EnforceModuleForDoctype(log: AccessLog, gate: Gate, env: Env, doctype: string, name: string, event: string,
                                 moduleKey: string, doctypeModule: map<string, string>) returns (raised: Option<Denial>)
    modifies log
    ensures var key := if moduleKey != "" then moduleKey
                       else if doctype in doctypeModule then doctypeModule[doctype] else "";
      && (key == "" ==> raised.None? && log.entries == old(log.entries))
      && (key != "" ==>
            raised == Decide(gate, ModuleAccess, key, env.sessionUser)
            && log.entries == old(log.entries)
               + Appended(env, gate, ModuleAccess, key, env.sessionUser, true, DocContext(doctype, name, event)))
  {
    var key := moduleKey;
    if key == "" {
      key := if doctype in doctypeModule then doctypeModule[doctype] else "";
      if key == "" {
        return None;
      }
    }
    var r := RequireAccess(log, gate, env, ModuleAccess, KeyText(key), Some(env.sessionUser), true,
                           DocContext(doctype, name, event));
    raised := if r.Raised? && r.failure.Denied? then Some(r.failure.denial) else None;
  }

  /** `enforce_feature_access_for_doctype`: without a key nothing is checked. */
  method EnforceFeatureForDoctype(log: AccessLog, gate: Gate, env: Env, doctype: string, name: string, event: string,
                                  featureKey: string) returns (raised: Option<Denial>)
    modifies log
    ensures featureKey == "" ==> raised.None? && log.entries == old(log.entries)
    ensures featureKey != "" ==>
      raised == Decide(gate, FeatureAccess, featureKey, env.sessionUser)
      && log.entries == old(log.entries) + Appended(env, gate, FeatureAccess, featureKey, env.sessionUser, true, DocContext(doctype, name, event))
  {
    if featureKey == "" {
      return None;
    }
    var r := RequireAccess(log, gate, env, FeatureAccess, KeyText(featureKey), Some(env.sessionUser), true,
                           DocContext(doctype, name, event));
    raised := if r.Raised? && r.failure.Denied? then Some(r.failure.denial) else None;
  }

  // ---------------------------------------------------------------------
  // Log queries
  // ---------------------------------------------------------------------

  /** The filters of `get_access_log_summary`; a blank filter is not applied. */
  predicate Matches(e: LogEntry, user: string, accessType: string, action: string)
  {
    (user == "" || e.user == user) && (accessType == "" || TypeName(e.accessType) == accessType)
    && (action == "" || e.action == action)
  }

  function Matching(entries: seq<LogEntry>, user: string, accessType: string, action: string): (r: seq<LogEntry>)
    ensures forall e :: e in r <==> e in entries && Matches(e, user, accessType, action)
    ensures multiset(r) <= multiset(entries)
  {
    if entries == [] then []
    else
      var rest := Matching(entries[1..], user, accessType, action);
      assert entries == [entries[0]] + entries[1..];
      if Matches(entries[0], user, accessType, action) then [entries[0]] + rest else rest
  }

  /** `order_by="timestamp desc"`. */
  predicate Later(a: LogEntry, b: LogEntry)
  {
    a.timestamp > b.timestamp
  }

  /** The first `limit` rows; a limit of zero or less returns every row. */
  function Limited<T>(rows: seq<T>, limit: int): (r: seq<T>)
    ensures limit > 0 ==> |r| <= limit
    ensures limit <= 0 || |rows| <= limit ==> r == rows
    ensures r <= rows
  {
    if limit <= 0 || |rows| <= limit then rows else rows[..limit]
  }

  /** The selected entries, newest first. */
  function Selected(entries: seq<LogEntry>, user: string, accessType: string, action: string, limit: int): seq<LogEntry>
  {
    assert StrictOrder(Later);
    Limited(SortBy(Matching(entries, user, accessType, action), Later), limit)
  }

  /** A row of the summary: the entry and its parsed context. */
  datatype LogRow = LogRow(entry: LogEntry, context: Json)

  /** The parsed `context_data`: {} when it is empty or does not parse. `decode` is `json.loads`. */
  function ParsedContext(data: string, decode: string -> Option<Json>): (r: Json)
    ensures data == "" || decode(data).None? ==> r == JObj([])
  {
    if data == "" then JObj([])
    else match decode(data)
      case None => JObj([])
      case Some(j) => j
  }

  /**
   * `get_access_log_summary`: the matching entries, newest first, at most
   * `limit` of them, each with its parsed context.
   */
  method GetAccessLogSummary(log: AccessLog, user: string, accessType: string, action: string, limit: int,
                             decode: string -> Option<Json>) returns (rows: seq<LogRow>)
    ensures var sel := Selected(log.entries, user, accessType, action, limit);
      |rows| == |sel| && forall i :: 0 <= i < |rows| ==> rows[i] == LogRow(sel[i], ParsedContext(sel[i].contextData, decode))
  {
    var sel := Selected(log.entries, user, accessType, action, limit);
    rows := [];
    for i := 0 to |sel|
      invariant |rows| == i
      invariant forall j :: 0 <= j < i ==> rows[j] == LogRow(sel[j], ParsedContext(sel[j].contextData, decode))
    {
      rows := rows + [LogRow(sel[i], ParsedContext(sel[i].contextData, decode))];
    }
  }

  /**
   * The summary holds only matching entries of the log, newest first, no
   * more than `limit`; with room for all of them it holds every matching
   * entry as often as it was logged.
   */
  lemma SummaryMeans(entries: seq<LogEntry>, user: string, accessType: string, action: string, limit: int)
    ensures var sel := Selected(entries, user, accessType, action, limit);
      && (forall e | e in sel :: e in entries && Matches(e, user, accessType, action))
      && SortedBy(sel, Later)
      && (limit > 0 ==> |sel| <= limit)
      && (limit <= 0 || |Matching(entries, user, accessType, action)| <= limit ==>
            multiset(sel) == multiset(Matching(entries, user, accessType, action)))
  {
    var sorted := (assert StrictOrder(Later); SortBy(Matching(entries, user, accessType, action), Later));
    var sel := Selected(entries, user, accessType, action, limit);
    assert sel <= sorted;
    forall e | e in sel ensures e in entries && Matches(e, user, accessType, action) {
      var i :| 0 <= i < |sel| && sel[i] == e;
      assert sorted[i] == e;
      assert e in multiset(sorted);
    }
    assert SortedBy(sel, Later) by {
      forall i, j | 0 <= i < j < |sel| ensures !Later(sel[j], sel[i]) {
        assert sel[i] == sorted[i] && sel[j] == sorted[j];
      }
    }
    assert |sorted| == |Matching(entries, user, accessType, action)| by {
      assert |multiset(sorted)| == |multiset(Matching(entries, user, accessType, action))|;
    }
  }

  const MY_LOGS_CAP: int := 500

  /** `get_my_access_logs`: the session user's entries, with the limit capped at 500. */
  method GetMyAccessLogs(log: AccessLog, env: Env, limit: int, decode: string -> Option<Json>) returns (rows: seq<LogRow>)
    ensures var sel := Selected(log.entries, env.sessionUser, "", "", if limit < MY_LOGS_CAP then limit else MY_LOGS_CAP);
      |rows| == |sel| && forall i :: 0 <= i < |rows| ==> rows[i] == LogRow(sel[i], ParsedContext(sel[i].contextData, decode))
    ensures limit > 0 ==> |rows| <= MY_LOGS_CAP
  {
    rows := GetAccessLogSummary(log, env.sessionUser, "", "", if limit < MY_LOGS_CAP then limit else MY_LOGS_CAP, decode);
  }
}
