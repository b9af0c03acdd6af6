// The finance endpoints: intercompany balances and settlements, each
// gated on the session user's User Permissions for the companies involved.
//
// Whether the user bypasses the subscription gates is decided by a helper
// outside this model and arrives as `bypasses`; the User Permissions on
// companies are the set `permissions` of (user, company) pairs.

module FinanceApi {
  import opened Common
  import opened IntercompanyService
  import IntercompanySettlementDoc

  /**
   * `_user_has_company_permission`: a User Permission on the company exists.
   * The flag asked for plays no part.
   */
  predicate CompanyPermission(permissions: set<(string, string)>, user: string, company: string, flag: string)
  {
    (user, company) in permissions
  }

  /** The answer is the same whatever flag is asked for. */
  lemma FlagIgnored(permissions: set<(string, string)>, user: string, company: string, flag: string)
    ensures CompanyPermission(permissions, user, company, flag) <==> CompanyPermission(permissions, user, company, "can_read")
  {
  }

  const BALANCES_DENIED: string := "You do not have permission to view balances for these companies"

  /** `get_intercompany_balance`: permission on either company, then the service's balance. */
  function GetBalance(bypasses: bool, permissions: set<(string, string)>, user: string, groupOf: map<string, string>,
                      source: string, target: string, asOfDate: string, today: string): (r: Result<Balance>)
    ensures (!bypasses && !CompanyPermission(permissions, user, source, "can_read")
             && !CompanyPermission(permissions, user, target, "can_read")) ==> r == Err(BALANCES_DENIED)
    ensures r.Ok? ==>
      (bypasses || CompanyPermission(permissions, user, source, "can_read") || CompanyPermission(permissions, user, target, "can_read"))
      && r == GetIntercompanyBalance(groupOf, source, target, asOfDate, today)
  {
    if !bypasses && !(CompanyPermission(permissions, user, source, "can_read")
                      || CompanyPermission(permissions, user, target, "can_read")) then
      Err(BALANCES_DENIED)
    else GetIntercompanyBalance(groupOf, source, target, asOfDate, today)
  }

  /** Some member of the group carries a User Permission for the user. */
  predicate AnyMemberPermitted(permissions: set<(string, string)>, user: string, members: seq<string>)
  {
    exists i :: 0 <= i < |members| && CompanyPermission(permissions, user, members[i], "can_read")
  }

  /** The error of `list_intercompany_balances`' permission check, if any. */
  function ListingDenied(bypasses: bool, permissions: set<(string, string)>, user: string,
                         membersOf: map<string, seq<string>>, company: string, companyGroup: string): (r: Option<string>)
    ensures r.None? <==>
      bypasses
      || (company != "" && CompanyPermission(permissions, user, company, "can_read"))
      || (company == "" && companyGroup != "" && AnyMemberPermitted(permissions, user, MembersOf(membersOf, companyGroup)))
      || (company == "" && companyGroup == "")
  {
    if bypasses then None
    else if company != "" then
      if CompanyPermission(permissions, user, company, "can_read") then None
      else Some("You do not have permission to view balances for " + company)
    else if companyGroup != "" then
      if AnyMemberPermitted(permissions, user, MembersOf(membersOf, companyGroup)) then None
      else Some("You do not have permission to view balances for group " + companyGroup)
    else None
  }

  datatype BalanceList = BalanceList(balances: seq<Balance>, total: nat)

  /** `list_intercompany_balances`: the permission check, then the service's listing and its size. */
  function ListBalances(bypasses: bool, permissions: set<(string, string)>, user: string, groupOf: map<string, string>,
                        membersOf: map<string, seq<string>>, company: string, companyGroup: string, today: string)
    : (r: Result<BalanceList>)
    ensures ListingDenied(bypasses, permissions, user, membersOf, company, companyGroup).Some? ==>
      r == Err(ListingDenied(bypasses, permissions, user, membersOf, company, companyGroup).value)
    ensures ListingDenied(bypasses, permissions, user, membersOf, company, companyGroup).None? ==>
      (r.Ok? <==> AllIntercompanyBalances(groupOf, membersOf, company, companyGroup, today).Ok?)
    ensures r.Ok? ==> r.value.total == |r.value.balances| == 0
  {
    match ListingDenied(bypasses, permissions, user, membersOf, company, companyGroup)
    case Some(e) => Err(e)
    case None =>
      match AllIntercompanyBalances(groupOf, membersOf, company, companyGroup, today)
      case Err(e) => Err(e)
      case Ok(balances) => Ok(BalanceList(balances, |balances|))
  }

  /** A page of settlements with the total before slicing. */
  datatype SettlementPage = SettlementPage(settlements: seq<SettlementRow>, total: nat, limit: int, offset: int)

  /** `list_settlements`: a company asked for needs permission; the pending settlements are counted, then sliced. */
  function ListSettlements(bypasses: bool, permissions: set<(string, string)>, user: string, rows: seq<SettlementRow>,
                           company: string, status: string, limit: int, offset: int): (r: Result<SettlementPage>)
    ensures r.Err? <==> company != "" && !bypasses && !CompanyPermission(permissions, user, company, "can_read")
    ensures r.Ok? ==>
      var pending := GetPendingSettlements(rows, company, status);
      && r.value.total == |pending|
      && r.value.settlements == PySlice(pending, offset, offset + limit)
      && r.value.limit == limit && r.value.offset == offset
  {
    if company != "" && !bypasses && !CompanyPermission(permissions, user, company, "can_read") then
      Err("You do not have permission to view settlements for " + company)
    else
      var pending := GetPendingSettlements(rows, company, status);
      Ok(SettlementPage(PySlice(pending, offset, offset + limit), |pending|, limit, offset))
  }

  /**
   * With a non-negative offset and limit, a page holds the settlements
   * from `offset` on, at most `limit` of them, in the listing's order.
   */
  lemma PageMeans(pending: seq<SettlementRow>, limit: int, offset: int)
    requires 0 <= offset && 0 <= limit
    ensures var page := PySlice(pending, offset, offset + limit);
      && |page| == (if offset >= |pending| then 0 else Min(limit, |pending| - offset))
      && forall k :: 0 <= k < |page| ==> page[k] == pending[offset + k]
  {
  }

  function Min(a: int, b: int): int
  {
    if a <= b then a else b
  }

  /** `get_settlement`: the stored settlement, visible with permission on either company. */
  function GetSettlement(bypasses: bool, permissions: set<(string, string)>, user: string,
                         stored: map<string, SettlementRow>, name: string): (r: Result<SettlementRow>)
    ensures name !in stored ==> r == Err("Settlement " + name + " not found")
    ensures r.Ok? <==>
      name in stored
      && (bypasses || CompanyPermission(permissions, user, stored[name].sourceCompany, "can_read")
          || CompanyPermission(permissions, user, stored[name].targetCompany, "can_read"))
    ensures r.Ok? ==> r.value == stored[name]
  {
    if name !in stored then Err("Settlement " + name + " not found")
    else
      var s := stored[name];
      if !bypasses && !(CompanyPermission(permissions, user, s.sourceCompany, "can_read")
                        || CompanyPermission(permissions, user, s.targetCompany, "can_read")) then
        Err("You do not have permission to view this settlement")
      else Ok(s)
  }

  /** The fields of a new settlement; an absent field is empty or zero. */
  datatype SettlementData = SettlementData(sourceCompany: string, targetCompany: string, amount: real, currency: string)

  /** The first of the four required fields that is missing or falsy. */
  function MissingField(d: SettlementData): (r: Option<string>)
    ensures r.None? <==> d.sourceCompany != "" && d.targetCompany != "" && d.amount != 0.0 && d.currency != ""
  {
    if d.sourceCompany == "" then Some("source_company")
    else if d.targetCompany == "" then Some("target_company")
    else if d.amount == 0.0 then Some("settlement_amount")
    else if d.currency == "" then Some("settlement_currency")
    else None
  }

  /** What `create_settlement` reports of the new document. */
  datatype Created = Created(name: string, sourceCompany: string, targetCompany: string, amount: real, status: string)

  /**
   * `create_settlement`: the required fields, write permission on both
   * companies, then the insert, which validates the new draft.  `name` is
   * the name the insert gives it.
   */
  function CreateSettlement(bypasses: bool, permissions: set<(string, string)>, user: string, roles: seq<string>,
                            groupOf: map<string, string>, d: SettlementData, name: string): (r: Result<Created>)
    ensures MissingField(d).Some? ==> r == Err(MissingField(d).value + " is required")
    ensures r.Ok? <==>
      && MissingField(d).None?
      && (bypasses || (CompanyPermission(permissions, user, d.sourceCompany, "can_write")
                       && CompanyPermission(permissions, user, d.targetCompany, "can_write")))
      && IntercompanySettlementDoc.ValidationError(groupOf, d.sourceCompany, d.targetCompany, d.amount,
                                                   IntercompanySettlementDoc.DRAFT, user, roles, permissions).None?
    ensures r.Ok? ==> r.value == Created(name, d.sourceCompany, d.targetCompany, d.amount, "Draft")
  {
    if MissingField(d).Some? then Err(MissingField(d).value + " is required")
    else if !bypasses && !CompanyPermission(permissions, user, d.sourceCompany, "can_write") then
      Err("You do not have write permission for " + d.sourceCompany)
    else if !bypasses && !CompanyPermission(permissions, user, d.targetCompany, "can_write") then
      Err("You do not have write permission for " + d.targetCompany)
    else
      match IntercompanySettlementDoc.ValidationError(groupOf, d.sourceCompany, d.targetCompany, d.amount,
                                                      IntercompanySettlementDoc.DRAFT, user, roles, permissions)
      case Some(e) => Err(e)
      case None => Ok(Created(name, d.sourceCompany, d.targetCompany, d.amount, "Draft"))
  }

  /** What `submit_settlement` reports of the submitted document. */
  datatype Submitted = Submitted(name: string, status: string, settlementDate: string, submittedBy: string)

  const SUBMIT_DENIED: string := "You must have submit permission for both companies to approve this settlement"

  /**
   * `submit_settlement`: submit permission on both companies, then the
   * document's own submission (validation at `docstatus` 1, stamping).
   */
  function SubmitSettlement(bypasses: bool, permissions: set<(string, string)>, user: string, roles: seq<string>,
                            groupOf: map<string, string>, stored: map<string, SettlementRow>, name: string,
                            today: string): (r: Result<Submitted>)
    ensures name !in stored ==> r == Err("Settlement " + name + " not found")
    ensures r.Ok? ==>
      && name in stored
      && (bypasses || (CompanyPermission(permissions, user, stored[name].sourceCompany, "can_submit")
                       && CompanyPermission(permissions, user, stored[name].targetCompany, "can_submit")))
      && IntercompanySettlementDoc.ValidationError(groupOf, stored[name].sourceCompany, stored[name].targetCompany,
           stored[name].amount, IntercompanySettlementDoc.SUBMITTED, user, roles, permissions).None?
      && r.value == Submitted(name, "Settled", today, user)
    ensures name in stored && !bypasses
            && !(CompanyPermission(permissions, user, stored[name].sourceCompany, "can_submit")
                 && CompanyPermission(permissions, user, stored[name].targetCompany, "can_submit")) ==>
      r == Err(SUBMIT_DENIED)
  {
    if name !in stored then Err("Settlement " + name + " not found")
    else
      var s := stored[name];
      if !bypasses && !(CompanyPermission(permissions, user, s.sourceCompany, "can_submit")
                        && CompanyPermission(permissions, user, s.targetCompany, "can_submit")) then
        Err(SUBMIT_DENIED)
      else
        match IntercompanySettlementDoc.ValidationError(groupOf, s.sourceCompany, s.targetCompany, s.amount,
                                                        IntercompanySettlementDoc.SUBMITTED, user, roles, permissions)
        case Some(e) => Err(e)
        case None => Ok(Submitted(name, "Settled", today, user))
  }

  /**
   * A settlement submitted through the endpoint is between two different
   * companies of one group, for a positive amount.
   */
  lemma SubmittedSettlementValid(bypasses: bool, permissions: set<(string, string)>, user: string, roles: seq<string>,
                                 groupOf: map<string, string>, stored: map<string, SettlementRow>, name: string,
                                 today: string)
    requires SubmitSettlement(bypasses, permissions, user, roles, groupOf, stored, name, today).Ok?
    ensures name in stored
    ensures PairError(groupOf, stored[name].sourceCompany, stored[name].targetCompany).None?
    ensures stored[name].amount > 0.0
  {
  }
}
