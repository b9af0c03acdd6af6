// The Department form's client handlers: the code is upper-cased as it is
// typed, a parent that is the record itself or lies in another company is
// cleared, and declining the deactivation warning turns the department back
// on.  The parent's company comes from the stored Department table; the
// user's answer to the warning is a parameter; messages are not modelled.

module DepartmentForm {
  import opened Common
  import opened DepartmentDoc

  /** The stored department lies in a company other than `company`; an unknown parent is never cleared. */
  predicate InOtherCompany(env: Env, parent: string, company: string)
  {
    parent in env.departments && env.departments[parent].company != company
  }

  /** The parent left by the `parent_department` handler. */
  function CheckedParent(env: Env, name: string, company: string, parent: string): (r: string)
  {
    if parent == "" then parent
    else if company != "" && InOtherCompany(env, parent, company) then ""
    else if parent == name then ""
    else parent
  }

  /** The parent left by the `company` handler. */
  function ParentForCompany(env: Env, company: string, parent: string): (r: string)
  {
    if parent != "" && InOtherCompany(env, parent, company) then "" else parent
  }

  /**
   * After the `parent_department` handler the parent is empty or a department
   * other than the record; when the company is set, a stored parent lies in
   * it.  A parent that already passes is kept.
   */
  lemma CheckedParentMeans(env: Env, name: string, company: string, parent: string)
    ensures var r := CheckedParent(env, name, company, parent);
      (r == "" || r == parent)
      && (r != "" ==> r != name && (company != "" && r in env.departments ==> env.departments[r].company == company))
      && (parent != name && (company == "" || !InOtherCompany(env, parent, company)) ==> r == parent)
    ensures CheckedParent(env, name, company, CheckedParent(env, name, company, parent)) == CheckedParent(env, name, company, parent)
  {
  }

  /** After the `company` handler a stored parent lies in the new company, and a parent already there is kept. */
  lemma ParentForCompanyMeans(env: Env, company: string, parent: string)
    ensures var r := ParentForCompany(env, company, parent);
      (r == "" || r == parent) && (r != "" && r in env.departments ==> env.departments[r].company == company)
      && (!InOtherCompany(env, parent, company) ==> r == parent)
  {
  }

  class DepartmentFormState {
    var name: string
    var isNew: bool
    var departmentCode: string
    var company: string
    var parentDepartment: string
    var isActive: bool

    /** `department_code`: a non-empty code is upper-cased. */
    method OnDepartmentCode()
      modifies this`departmentCode
      ensures departmentCode == Upper(old(departmentCode))
    {
      if departmentCode != "" {
        departmentCode := Upper(departmentCode);
      }
    }

    /** `company`: a parent stored under another company is cleared. */
    method OnCompany(env: Env)
      modifies this`parentDepartment
      ensures parentDepartment == ParentForCompany(env, company, old(parentDepartment))
    {
      if parentDepartment != "" && parentDepartment in env.departments
         && env.departments[parentDepartment].company != company {
        parentDepartment := "";
      }
    }

    /** `parent_department`: a parent from another company, or the record itself, is cleared. */
    method OnParentDepartment(env: Env)
      modifies this`parentDepartment
      ensures parentDepartment == CheckedParent(env, name, company, old(parentDepartment))
    {
      var original := parentDepartment;
      if parentDepartment == name && parentDepartment != "" {
        parentDepartment := "";
      }
      if original != "" && company != "" && original in env.departments
         && env.departments[original].company != company {
        parentDepartment := "";
      }
    }

    /**
     * `is_active`: switching a saved department off asks for confirmation;
     * declining turns it back on, confirming asks for a save.
     */
    method OnIsActive(confirmed: bool) returns (save: bool)
      modifies this`isActive
      ensures save <==> !old(isActive) && !isNew && confirmed
      ensures isActive == (old(isActive) || (!isNew && !confirmed))
    {
      save := false;
      if !isActive && !isNew {
        if confirmed {
          save := true;
        } else {
          isActive := true;
        }
      }
    }
  }
}
