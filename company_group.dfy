// The Company Group document: a set of member companies that trade with
// one another.  Each company belongs to at most one group, and the Company
// table carries a back-reference to it.

module CompanyGroupDoc {
  import opened Common

  /** A stored group: its name and its code, in the order the table returns them. */
  datatype GroupRow = GroupRow(name: string, groupCode: string)

  /** A stored member row of a group. */
  datatype MemberRow = MemberRow(parent: string, company: string)

  /** Group `i` is the first stored group with this code. */
  predicate FirstWithCode(groups: seq<GroupRow>, code: string, i: int)
  {
    0 <= i < |groups| && groups[i].groupCode == code && forall j :: 0 <= j < i ==> groups[j].groupCode != code
  }

  /** The first stored group with this code, as `frappe.db.exists` reports it. */
  function GroupWithCode(groups: seq<GroupRow>, code: string): (r: Option<string>)
    ensures r.None? <==> forall i :: 0 <= i < |groups| ==> groups[i].groupCode != code
    ensures r.Some? ==> exists i :: FirstWithCode(groups, code, i) && groups[i].name == r.value
  {
    if groups == [] then None
    else if groups[0].groupCode == code then Some(groups[0].name)
    else GroupWithCode(groups[1..], code)
  }

  /** The first group other than `name` that already holds `company`. */
  function OtherGroup(rows: seq<MemberRow>, company: string, name: string): (r: Option<string>)
    ensures r.None? <==> forall i :: 0 <= i < |rows| ==> !(rows[i].company == company && rows[i].parent != name)
    ensures r.Some? ==> r.value != name && MemberRow(r.value, company) in rows
  {
    if rows == [] then None
    else if rows[0].company == company && rows[0].parent != name then Some(rows[0].parent)
    else OtherGroup(rows[1..], company, name)
  }

  const NO_MEMBERS: string := "Company Group must have at least one member company"

  /** The check of one member: it exists and no other group holds it. */
  function MemberError(company: string, name: string, companies: set<string>, rows: seq<MemberRow>): Option<string>
  {
    if company !in companies then Some("Company " + company + " does not exist")
    else match OtherGroup(rows, company, name)
      case Some(other) => Some("Company " + company + " is already a member of group " + other)
      case None => None
  }

  /** `validate_member_companies` over the members from the first on. */
  function MembersError(members: seq<string>, name: string, companies: set<string>, rows: seq<MemberRow>): (r: Option<string>)
    ensures r.None? <==> forall i :: 0 <= i < |members| ==> MemberError(members[i], name, companies, rows).None?
  {
    if members == [] then None
    else if MemberError(members[0], name, companies, rows).Some? then MemberError(members[0], name, companies, rows)
    else MembersError(members[1..], name, companies, rows)
  }

  /** The whole of `validate`: the code check on a new group, then the members. */
  function ValidationError(isNew: bool, name: string, groupCode: string, members: seq<string>, groups: seq<GroupRow>,
                           companies: set<string>, rows: seq<MemberRow>): Option<string>
  {
    var existing := GroupWithCode(groups, groupCode);
    if isNew && existing.Some? && existing.value != name then
      Some("Company Group with code " + groupCode + " already exists")
    else if members == [] then Some(NO_MEMBERS)
    else MembersError(members, name, companies, rows)
  }

  /**
   * An accepted group has a fresh code when new, at least one member, and
   * only existing members that no other group holds.
   */
  lemma ValidationMeans(isNew: bool, name: string, groupCode: string, members: seq<string>, groups: seq<GroupRow>,
                        companies: set<string>, rows: seq<MemberRow>)
    ensures ValidationError(isNew, name, groupCode, members, groups, companies, rows).None? <==>
      && (isNew ==> forall i :: FirstWithCode(groups, groupCode, i) ==> groups[i].name == name)
      && members != []
      && forall i :: 0 <= i < |members| ==>
           members[i] in companies && forall j :: 0 <= j < |rows| && rows[j].company == members[i] ==> rows[j].parent == name
  {
    var existing := GroupWithCode(groups, groupCode);
    if existing.Some? {
      var k :| FirstWithCode(groups, groupCode, k) && groups[k].name == existing.value;
      assert forall i :: FirstWithCode(groups, groupCode, i) ==> i == k;
    }
    forall i | 0 <= i < |members|
      ensures MemberError(members[i], name, companies, rows).None? <==>
        members[i] in companies && forall j :: 0 <= j < |rows| && rows[j].company == members[i] ==> rows[j].parent == name
    {
    }
  }

  /** The table of companies with their `company_group` column, "" where it is unset. */
  class CompanyTable {
    var groupOf: map<string, string>

    constructor(groupOf: map<string, string>)
      ensures this.groupOf == groupOf
    {
      this.groupOf := groupOf;
    }

    /**
     * `frappe.db.set_value` on the column of each company in turn; a
     * company that is not stored is not touched.
     */
    method SetGroup(members: seq<string>, value: string)
      modifies this
      ensures groupOf == Assigned(old(groupOf), members, value)
    {
      var i := 0;
      while i < |members|
        invariant 0 <= i <= |members|
        invariant groupOf == Assigned(old(groupOf), members[..i], value)
      {
        assert members[..i + 1] == members[..i] + [members[i]];
        if members[i] in groupOf {
          groupOf := groupOf[members[i] := value];
        }
        i := i + 1;
      }
      assert members[..i] == members;
    }
  }

  /** The column after setting it to `value` for each of `members` in turn. */
  function Assigned(groupOf: map<string, string>, members: seq<string>, value: string): (r: map<string, string>)
    ensures r.Keys == groupOf.Keys
  {
    if members == [] then groupOf
    else
      var before := Assigned(groupOf, members[..|members| - 1], value);
      var c := members[|members| - 1];
      if c in before then before[c := value] else before
  }

  /** Every stored member gets `value`; every other company keeps its group. */
  lemma {:induction false} AssignedMeans(groupOf: map<string, string>, members: seq<string>, value: string)
    ensures forall c | c in groupOf && c in members :: Assigned(groupOf, members, value)[c] == value
    ensures forall c | c in groupOf && c !in members :: Assigned(groupOf, members, value)[c] == groupOf[c]
  {
    if members != [] {
      var front := members[..|members| - 1];
      AssignedMeans(groupOf, front, value);
      assert members == front + [members[|members| - 1]];
    }
  }

  /** A Company Group document. */
  class CompanyGroup {
    const name: string
    const groupCode: string
    const members: seq<string>

    constructor(name: string, groupCode: string, members: seq<string>)
      ensures this.name == name && this.groupCode == groupCode && this.members == members
    {
      this.name := name;
      this.groupCode := groupCode;
      this.members := members;
    }

    /** `validate`. */
    method Validate(isNew: bool, groups: seq<GroupRow>, companies: set<string>, rows: seq<MemberRow>)
      returns (err: Option<string>)
      ensures err == ValidationError(isNew, name, groupCode, members, groups, companies, rows)
      ensures err.None? ==> members != [] && forall i :: 0 <= i < |members| ==> members[i] in companies
    {
      err := ValidationError(isNew, name, groupCode, members, groups, companies, rows);
      ValidationMeans(isNew, name, groupCode, members, groups, companies, rows);
    }

    /** `on_update`: every member's company points back at this group. */
    method OnUpdate(table: CompanyTable)
      modifies table
      ensures table.groupOf == Assigned(old(table.groupOf), members, name)
      ensures forall c | c in old(table.groupOf) && c in members :: table.groupOf[c] == name
      ensures forall c | c in old(table.groupOf) && c !in members :: table.groupOf[c] == old(table.groupOf)[c]
    {
      table.SetGroup(members, name);
      AssignedMeans(old(table.groupOf), members, name);
    }

    /** `on_trash`: every member's back-reference is cleared. */
    method OnTrash(table: CompanyTable)
      modifies table
      ensures table.groupOf == Assigned(old(table.groupOf), members, "")
      ensures forall c | c in old(table.groupOf) && c in members :: table.groupOf[c] == ""
      ensures forall c | c in old(table.groupOf) && c !in members :: table.groupOf[c] == old(table.groupOf)[c]
    {
      table.SetGroup(members, "");
      AssignedMeans(old(table.groupOf), members, "");
    }
  }
}
