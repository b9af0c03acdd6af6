// The older Department controller: the record is named by its stripped
// code, nothing is normalised, and the checks are the required fields, the
// code's uniqueness within the company and the parent rules, without the
// settings.  It shares the stored tables and the parent walk with the
// current controller.

module LegacyDepartmentDoc {
  import opened Common
  import opened Hierarchy
  import opened DepartmentDoc

  /** `autoname`: the stripped code. */
  function LegacyName(code: string): Result<string>
  {
    if Strip(code) == "" then Err("Department Code is required to name the record.") else Ok(Strip(code))
  }

  /** The checks of `validate`, in order; `parent` is "" when there is none. */
  function LegacyError(env: Env, name: string, departmentName: string, code: string, company: string, parent: string): Option<string>
  {
    if Strip(departmentName) == "" then Some("Department Name is required.")
    else if company == "" then Some("Company is required.")
    else if Strip(code) == "" then Some("Department Code is required.")
    else if CodeTaken(env, name, false, Strip(code), company) then
      Some("Department Code " + Strip(code) + " already exists for company " + company + ".")
    else
      var parentError := ParentError(env, name, company, parent);
      if parentError.Some? then parentError
      else if parent != "" && Walk(ParentLinks(env), {name}, parent) then Some(CIRCULAR)
      else None
  }

  /**
   * On a saved record whose fields are already normalised (stripped name,
   * stripped upper-case code, no empty parent), the older checks are the
   * current controller's field checks.
   */
  lemma LegacyAgrees(env: Env, name: string, departmentName: string, code: string, company: string, parent: Option<string>)
    requires departmentName == Strip(departmentName) && code == NormalizedCode(code)
    requires parent != Some("")
    ensures LegacyError(env, name, departmentName, code, company, ParentName(parent))
            == FieldsError(env, name, false, departmentName, code, company, parent)
  {
    NormalizedCodeIdempotent(code);
    StripIsStripped(code);
    StripOfStripped(code);
    UpperKeepsStripped(Strip(code));
  }

  /**
   * A new record is named by its code before validation, so the uniqueness
   * check excludes any stored department under that name: a record named
   * like its code in the same company is not reported by the check (the
   * insert then meets the existing primary key).
   */
  lemma LegacyOwnNameExcluded(env: Env, code: string, company: string)
    requires Strip(code) != "" && Strip(code) in env.departments
    requires forall n | n in env.departments && n != Strip(code) :: env.departments[n].departmentCode != Strip(code)
    ensures !CodeTaken(env, LegacyName(code).value, false, Strip(code), company)
  {
  }

  class LegacyDepartment {
    var name: string
    var departmentName: string
    var departmentCode: string
    var company: string
    var parentDepartment: string

    /** `autoname`; nothing changes on error. */
    method Autoname() returns (err: Option<string>)
      modifies this`name
      ensures LegacyName(departmentCode).Ok? ==> err.None? && name == LegacyName(departmentCode).value
      ensures LegacyName(departmentCode).Err? ==> err == Some(LegacyName(departmentCode).error) && name == old(name)
    {
      var code := Strip(departmentCode);
      if code == "" {
        return Some("Department Code is required to name the record.");
      }
      name := code;
      err := None;
    }

    /** `validate`: the checks in order, the parent walk done step by step. */
    method Validate(env: Env) returns (err: Option<string>)
      ensures err == LegacyError(env, name, departmentName, departmentCode, company, parentDepartment)
    {
      if Strip(departmentName) == "" {
        return Some("Department Name is required.");
      }
      if company == "" {
        return Some("Company is required.");
      }
      var code := Strip(departmentCode);
      if code == "" {
        return Some("Department Code is required.");
      }
      if CodeTaken(env, name, false, code, company) {
        return Some("Department Code " + code + " already exists for company " + company + ".");
      }
      err := ParentError(env, name, company, parentDepartment);
      if err.Some? || parentDepartment == "" {
        return;
      }
      var cyclic := DetectCycle(ParentLinks(env), name, parentDepartment);
      WalkMeans(ParentLinks(env), {name}, parentDepartment);
      if cyclic {
        err := Some(CIRCULAR);
      }
    }
  }
}
