// The older Role Permission controller: the same two checks, run in the same
// order, except that the department restriction is copied as the registry's
// boolean rather than as 1 or 0.

module LegacyRolePermissionDoc {
  import opened Common
  import opened PermissionRegistry
  import RolePermissionDoc

  /** The older Role Permission document. */
  class LegacyRolePermission {
    var code: string
    var name: string
    var category: string
    var description: string
    var departmentRestricted: bool

    constructor (code: string)
      ensures this.code == code && name == "" && category == "" && description == "" && !departmentRestricted
    {
      this.code, name, category, description := code, "", "", "";
      departmentRestricted := false;
    }

    /** `validate`: the code check first, then population. */
    method Validate(registry: seq<Definition>) returns (err: Option<string>)
      modifies this
      ensures err == RolePermissionDoc.CodeError(registry, old(code))
      ensures code == old(code)
      ensures err.Some? ==> name == old(name) && category == old(category) &&
                            description == old(description) && departmentRestricted == old(departmentRestricted)
      ensures err.None? ==> var d := Lookup(registry, code).value;
        name == d.name && category == d.category && description == d.description &&
        departmentRestricted == d.departmentRestricted
    {
      err := RolePermissionDoc.CodeError(registry, code);
      if err.Some? {
        return;
      }
      var d := Lookup(registry, code).value;
      name, category, description := d.name, d.category, d.description;
      departmentRestricted := d.departmentRestricted;
    }
  }

  /** A code the older check accepts is exactly one the newer check accepts, and its details come from the same entry. */
  lemma LegacyAgrees(registry: seq<Definition>, code: string)
    requires RolePermissionDoc.CodeError(registry, code).None?
    ensures Lookup(registry, code).Some?
    ensures var d := Lookup(registry, code).value;
      var r := RolePermissionDoc.Populated(registry, RolePermissionDoc.NewRow(code));
      r.name == d.name && r.category == d.category && r.description == d.description &&
      (r.departmentRestricted == 1 <==> d.departmentRestricted)
  {
  }
}
