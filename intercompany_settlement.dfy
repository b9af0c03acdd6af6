// The Intercompany Settlement document: a payment between two companies
// of one group.  Its validation checks the pair and the amount and, at
// submission, that the submitting user may act for both companies; the
// submission stamps the document and marks it settled, and a settlement
// can never be cancelled.

module IntercompanySettlementDoc {
  import opened Common
  import IntercompanyService

  const SAME_COMPANIES: string := "Source and target companies cannot be the same"
  const NO_GROUP: string := "Both companies must belong to a Company Group for intercompany settlements"
  const NOT_POSITIVE: string := "Settlement amount must be greater than zero"
  const NO_CANCEL: string := "Settlements cannot be cancelled. Please create a reversal settlement instead."

  /** The roles exempt from the two-company permission check. */
  const SYSTEM_ROLES: seq<string> := ["System Manager", "Administrator", "Accounts Manager"]

  const DRAFT: int := 0
  const SUBMITTED: int := 1

  /** `_user_has_system_role`. */
  predicate HasSystemRole(roles: seq<string>)
  {
    exists role | role in SYSTEM_ROLES :: role in roles
  }

  /** `_user_has_company_permission`: a User Permission on the company exists. */
  predicate HasCompanyPermission(permissions: set<(string, string)>, user: string, company: string)
  {
    (user, company) in permissions
  }

  /** `validate_companies_in_same_group`. */
  function GroupError(groupOf: map<string, string>, source: string, target: string): (r: Option<string>)
    ensures r.None? <==> source != target && IntercompanyService.PairError(groupOf, source, target).None?
  {
    var sourceGroup := IntercompanyService.GroupOf(groupOf, source);
    var targetGroup := IntercompanyService.GroupOf(groupOf, target);
    if source == target then Some(SAME_COMPANIES)
    else if sourceGroup == "" || targetGroup == "" then Some(NO_GROUP)
    else if sourceGroup != targetGroup then
      Some("Source and target companies must be in the same Company Group. " + source + " is in " + sourceGroup
           + ", " + target + " is in " + targetGroup)
    else None
  }

  /** `validate_dual_permissions`: checked only on submission, a system role exempting the user. */
  function PermissionError(docstatus: int, user: string, roles: seq<string>, permissions: set<(string, string)>,
                           source: string, target: string): (r: Option<string>)
    ensures r.None? <==>
      docstatus != SUBMITTED || HasSystemRole(roles)
      || (HasCompanyPermission(permissions, user, source) && HasCompanyPermission(permissions, user, target))
  {
    if docstatus != SUBMITTED || HasSystemRole(roles) then None
    else if !HasCompanyPermission(permissions, user, source) then
      Some("User " + user + " does not have permission for source company " + source)
    else if !HasCompanyPermission(permissions, user, target) then
      Some("User " + user + " does not have permission for target company " + target)
    else None
  }

  /** The whole of `validate`, its three checks in order. */
  function ValidationError(groupOf: map<string, string>, source: string, target: string, amount: real, docstatus: int,
                           user: string, roles: seq<string>, permissions: set<(string, string)>): (r: Option<string>)
    ensures r.None? <==>
      && source != target
      && IntercompanyService.GroupOf(groupOf, source) != ""
      && IntercompanyService.GroupOf(groupOf, source) == IntercompanyService.GroupOf(groupOf, target)
      && amount > 0.0
      && PermissionError(docstatus, user, roles, permissions, source, target).None?
    ensures source == target ==> r == Some(SAME_COMPANIES)
  {
    if GroupError(groupOf, source, target).Some? then GroupError(groupOf, source, target)
    else if amount <= 0.0 then Some(NOT_POSITIVE)
    else PermissionError(docstatus, user, roles, permissions, source, target)
  }

  /** A draft passes validation without the permission check; a submission needs it too. */
  lemma DraftSkipsPermissions(groupOf: map<string, string>, source: string, target: string, amount: real,
                              user: string, roles: seq<string>, permissions: set<(string, string)>)
    ensures ValidationError(groupOf, source, target, amount, SUBMITTED, user, roles, permissions).None? ==>
      ValidationError(groupOf, source, target, amount, DRAFT, user, roles, permissions).None?
    ensures ValidationError(groupOf, source, target, amount, DRAFT, user, roles, permissions).None? ==>
      (ValidationError(groupOf, source, target, amount, SUBMITTED, user, roles, permissions).None? <==>
        HasSystemRole(roles)
        || (HasCompanyPermission(permissions, user, source) && HasCompanyPermission(permissions, user, target)))
  {
  }

  /** An Intercompany Settlement document. */
  class IntercompanySettlement {
    const sourceCompany: string
    const targetCompany: string
    const amount: real
    var docstatus: int
    var status: string
    var settlementDate: string
    var submittedBy: string
    var submittedAt: string

    constructor(sourceCompany: string, targetCompany: string, amount: real)
      ensures this.sourceCompany == sourceCompany && this.targetCompany == targetCompany && this.amount == amount
      ensures docstatus == DRAFT && status == "Draft"
      ensures settlementDate == "" && submittedBy == "" && submittedAt == ""
    {
      this.sourceCompany := sourceCompany;
      this.targetCompany := targetCompany;
      this.amount := amount;
      docstatus := DRAFT;
      status := "Draft";
      settlementDate := "";
      submittedBy := "";
      submittedAt := "";
    }

    /** `validate` at the document's current `docstatus`. */
    method Validate(groupOf: map<string, string>, user: string, roles: seq<string>, permissions: set<(string, string)>)
      returns (err: Option<string>)
      ensures err == ValidationError(groupOf, sourceCompany, targetCompany, amount, docstatus, user, roles, permissions)
    {
      err := ValidationError(groupOf, sourceCompany, targetCompany, amount, docstatus, user, roles, permissions);
    }

    /**
     * Submission: validation at `docstatus` 1, then `before_submit` records
     * the date, the user and the time, and `on_submit` marks the
     * settlement settled.  A refused submission stores nothing.
     */
    method Submit(groupOf: map<string, string>, user: string, roles: seq<string>, permissions: set<(string, string)>,
                  today: string, now: string) returns (err: Option<string>)
      requires docstatus == DRAFT
      modifies this
      ensures err == ValidationError(groupOf, sourceCompany, targetCompany, amount, SUBMITTED, user, roles, permissions)
      ensures err.Some? ==>
        docstatus == DRAFT && status == old(status) && settlementDate == old(settlementDate)
        && submittedBy == old(submittedBy) && submittedAt == old(submittedAt)
      ensures err.None? ==>
        docstatus == SUBMITTED && status == "Settled" && settlementDate == today && submittedBy == user && submittedAt == now
      ensures err.None? ==>
        sourceCompany != targetCompany && amount > 0.0
        && (HasSystemRole(roles)
            || (HasCompanyPermission(permissions, user, sourceCompany) && HasCompanyPermission(permissions, user, targetCompany)))
    {
      err := ValidationError(groupOf, sourceCompany, targetCompany, amount, SUBMITTED, user, roles, permissions);
      if err.Some? {
        return;
      }
      docstatus := SUBMITTED;
      settlementDate := today;
      submittedBy := user;
      submittedAt := now;
      status := "Settled";
    }

    /** `on_cancel`: cancellation always raises and changes nothing. */
    method Cancel() returns (err: string)
      ensures err == NO_CANCEL
    {
      err := NO_CANCEL;
    }
  }
}
