// The older Department Permission controller: the same five checks as a
// method of the row, except that duplicates are only looked for among stored
// rows, under the row's own parent type, and unsaved rows are checked too.

module LegacyDepartmentPermissionDoc {
  import opened Common
  import opened PermissionService
  import opened DepartmentPermissionDoc

  function LegacyDuplicateError(env: Env, doc: PermRow): Option<string>
  {
    if doc.parent == "" || doc.department == "" then None
    else if StoredDuplicate(env.stored, doc, doc.parentType) then
      Some("Department " + doc.department + " is already assigned to this user.")
    else None
  }

  /** `validate`: the first failing check, in the order department, company, flags, duplicates, dates. */
  function LegacyValidate(env: Env, doc: PermRow): Option<string>
  {
    var department := DepartmentError(env, doc);
    if department.Some? then department
    else
      var company := CompanyError(env, doc);
      if company.Some? then company
      else if !AnyFlag(doc.flags) then Some(NO_FLAG)
      else
        var duplicate := LegacyDuplicateError(env, doc);
        if duplicate.Some? then duplicate
        else DateError(doc)
  }

  /**
   * The older controller decides as the newer one for a saved row with a
   * parent type and no duplicate in memory: the two differ only in the
   * in-memory check, the defaulted parent type and the skip of unsaved rows.
   */
  lemma LegacyAgrees(env: Env, doc: PermRow, siblings: Option<seq<Child>>, self: int)
    requires !Unsaved(doc) && doc.parentType != ""
    requires !InMemoryDuplicate(siblings, self, doc.department)
    ensures LegacyValidate(env, doc) == Validate(env, doc, siblings, self)
  {
  }

  /** An unsaved row is still checked against the stored rows here, where the newer controller skips it. */
  lemma LegacyChecksUnsaved(env: Env, doc: PermRow)
    requires doc.parent != "" && doc.department != "" && Unsaved(doc)
    requires DepartmentError(env, doc).None? && CompanyError(env, doc).None? && AnyFlag(doc.flags)
    requires StoredDuplicate(env.stored, doc, doc.parentType)
    ensures LegacyValidate(env, doc).Some?
    ensures Validate(env, doc, None, -1) == DateError(doc)
  {
  }
}
