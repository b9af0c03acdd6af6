// The intercompany service: balances between companies of one group, the
// listings of them for a company or a whole group, and the pending
// settlements.
//
// The balance itself is a placeholder in the system: every balance is 0.0
// until the intercompany accounts exist, so the listings are always empty
// when they succeed.  The Company table's `company_group` column is the map
// `groupOf` ("" where unset, absent for a company that is not stored) and
// the member rows of each group are `membersOf`.

module IntercompanyService {
  import opened Common

  const SAME_COMPANY: string := "Cannot calculate intercompany balance for the same company"
  const NO_GROUP: string := "Both companies must belong to a Company Group"
  const NOT_IN_LIST: string := "list.remove(x): x not in list"

  /** The `company_group` of a company, "" when unset or when the company is not stored. */
  function GroupOf(groupOf: map<string, string>, company: string): string
  {
    if company in groupOf then groupOf[company] else ""
  }

  /** The members of a group in stored order, none for an unknown group. */
  function MembersOf(membersOf: map<string, seq<string>>, group: string): seq<string>
  {
    if group in membersOf then membersOf[group] else []
  }

  /** `_validate_companies_in_same_group`: None when the pair may hold a balance, else the error. */
  function PairError(groupOf: map<string, string>, company1: string, company2: string): (r: Option<string>)
    ensures r.None? <==>
      company1 != company2 && GroupOf(groupOf, company1) != "" && GroupOf(groupOf, company1) == GroupOf(groupOf, company2)
    ensures company1 == company2 ==> r == Some(SAME_COMPANY)
  {
    var group1 := GroupOf(groupOf, company1);
    var group2 := GroupOf(groupOf, company2);
    if company1 == company2 then Some(SAME_COMPANY)
    else if group1 == "" || group2 == "" then Some(NO_GROUP)
    else if group1 != group2 then
      Some("Companies must be in the same group. " + company1 + " is in " + group1 + ", " + company2 + " is in " + group2)
    else None
  }

  /** The same-group relation the check enforces is symmetric. */
  lemma PairErrorSymmetric(groupOf: map<string, string>, company1: string, company2: string)
    ensures PairError(groupOf, company1, company2).None? <==> PairError(groupOf, company2, company1).None?
  {
  }

  const PLACEHOLDER_BALANCE: real := 0.0
  const CURRENCY: string := "USD"
  const NOTE: string := "Intercompany account structure not yet configured"

  datatype Balance = Balance(sourceCompany: string, targetCompany: string, balance: real, asOfDate: string,
                             currency: string, note: string)

  /**
   * `get_intercompany_balance`: the pair is validated, and the balance is
   * the placeholder as of `asOfDate`, or `today` when none is given.
   */
  function GetIntercompanyBalance(groupOf: map<string, string>, source: string, target: string, asOfDate: string,
                                  today: string): (r: Result<Balance>)
    ensures r.Ok? <==> PairError(groupOf, source, target).None?
    ensures r.Err? ==> r.error == PairError(groupOf, source, target).value
    ensures r.Ok? ==> r.value.sourceCompany == source && r.value.targetCompany == target
    ensures r.Ok? ==> r.value.balance == 0.0 && r.value.asOfDate == (if asOfDate != "" then asOfDate else today)
  {
    match PairError(groupOf, source, target)
    case Some(e) => Err(e)
    case None =>
      Ok(Balance(source, target, PLACEHOLDER_BALANCE, if asOfDate != "" then asOfDate else today, CURRENCY, NOTE))
  }

  /**
   * The balances of `pairs` taken in order, keeping the non-zero ones; the
   * first pair that fails validation raises.
   */
  function Listing(groupOf: map<string, string>, pairs: seq<(string, string)>, today: string): (r: Result<seq<Balance>>)
    ensures r.Ok? ==> r.value == []
  {
    if pairs == [] then Ok([])
    else
      var last := pairs[|pairs| - 1];
      match Listing(groupOf, pairs[..|pairs| - 1], today)
      case Err(e) => Err(e)
      case Ok(found) =>
        match GetIntercompanyBalance(groupOf, last.0, last.1, "", today)
        case Err(e) => Err(e)
        case Ok(b) => Ok(found + Kept(b))
  }

  /** The balance as listed: only a non-zero balance is kept. */
  function Kept(b: Balance): (r: seq<Balance>)
    ensures r == [] <==> b.balance == 0.0
  {
    if b.balance != 0.0 then [b] else []
  }

  /** A listing fails exactly when one of its pairs fails validation, and then with the first such error. */
  lemma {:induction false} ListingFails(groupOf: map<string, string>, pairs: seq<(string, string)>, today: string)
    ensures Listing(groupOf, pairs, today).Err? <==> exists i :: 0 <= i < |pairs| && PairError(groupOf, pairs[i].0, pairs[i].1).Some?
    ensures Listing(groupOf, pairs, today).Err? ==>
      exists i :: 0 <= i < |pairs| && PairError(groupOf, pairs[i].0, pairs[i].1).Some?
        && Listing(groupOf, pairs, today).error == PairError(groupOf, pairs[i].0, pairs[i].1).value
        && forall j :: 0 <= j < i ==> PairError(groupOf, pairs[j].0, pairs[j].1).None?
  {
    if pairs != [] {
      var front := pairs[..|pairs| - 1];
      ListingFails(groupOf, front, today);
      assert forall i :: 0 <= i < |front| ==> front[i] == pairs[i];
    }
  }

  /** Once a listing has failed, further pairs change nothing. */
  lemma {:induction false} ListingStaysFailed(groupOf: map<string, string>, pairs: seq<(string, string)>,
                                              more: seq<(string, string)>, today: string)
    requires Listing(groupOf, pairs, today).Err?
    ensures Listing(groupOf, pairs + more, today) == Listing(groupOf, pairs, today)
    decreases |more|
  {
    if more == [] {
      assert pairs + more == pairs;
    } else {
      var front := more[..|more| - 1];
      ListingStaysFailed(groupOf, pairs, front, today);
      assert (pairs + more)[..|pairs + more| - 1] == pairs + front;
    }
  }

  /** The pairs of a company with each of `others`, in order. */
  function PairsWith(company: string, others: seq<string>): (r: seq<(string, string)>)
    ensures |r| == |others|
    ensures forall k :: 0 <= k < |others| ==> r[k] == (company, others[k])
  {
    seq(|others|, k requires 0 <= k < |others| => (company, others[k]))
  }

  /** The pairs whose source is one of the first `n` members, each with every later member. */
  function PairsUpTo(members: seq<string>, n: nat): (r: seq<(string, string)>)
    requires n <= |members|
  {
    if n == 0 then [] else PairsUpTo(members, n - 1) + PairsWith(members[n - 1], members[n..])
  }

  /** Every unordered pair of members, the source earlier than the target in member order. */
  function GroupPairs(members: seq<string>): seq<(string, string)>
  {
    PairsUpTo(members, |members|)
  }

  /** The pairs are exactly those of an earlier member with a later one. */
  lemma {:induction false} PairsUpToMeans(members: seq<string>, n: nat)
    requires n <= |members|
    ensures forall p :: p in PairsUpTo(members, n) <==>
      exists i, j :: 0 <= i < j < |members| && i < n && p == (members[i], members[j])
  {
    if n > 0 {
      PairsUpToMeans(members, n - 1);
      var tail := PairsWith(members[n - 1], members[n..]);
      forall p ensures p in tail <==> exists j :: n - 1 < j < |members| && p == (members[n - 1], members[j]) {
        if p in tail {
          var k :| 0 <= k < |tail| && tail[k] == p;
          assert p == (members[n - 1], members[n + k]);
        }
        if exists j :: n - 1 < j < |members| && p == (members[n - 1], members[j]) {
          var j :| n - 1 < j < |members| && p == (members[n - 1], members[j]);
          assert tail[j - n] == p;
        }
      }
    }
  }

  lemma GroupPairsMeans(members: seq<string>)
    ensures forall p :: p in GroupPairs(members) <==> exists i, j :: 0 <= i < j < |members| && p == (members[i], members[j])
  {
    PairsUpToMeans(members, |members|);
  }

  /** `list.remove`: the sequence without the first occurrence of `x`, none when `x` is absent. */
  function RemoveFirst(s: seq<string>, x: string): (r: Option<seq<string>>)
    ensures r.None? <==> x !in s
    ensures r.Some? ==> multiset(r.value) == multiset(s) - multiset{x} && |r.value| == |s| - 1
  {
    if s == [] then None
    else if s[0] == x then
      assert s == [s[0]] + s[1..];
      Some(s[1..])
    else
      match RemoveFirst(s[1..], x)
      case None => None
      case Some(rest) =>
        assert s == [s[0]] + s[1..];
        Some([s[0]] + rest)
  }

  /** The listing for a company: its pairs with every other member of its group. */
  function CompanyListing(groupOf: map<string, string>, membersOf: map<string, seq<string>>, company: string,
                          today: string): Result<seq<Balance>>
  {
    var group := GroupOf(groupOf, company);
    if group == "" then Ok([])
    else
      match RemoveFirst(MembersOf(membersOf, group), company)
      case None => Err(NOT_IN_LIST)
      case Some(others) => Listing(groupOf, PairsWith(company, others), today)
  }

  /** What `get_all_intercompany_balances` returns. */
  function AllIntercompanyBalances(groupOf: map<string, string>, membersOf: map<string, seq<string>>, company: string,
                                   companyGroup: string, today: string): (r: Result<seq<Balance>>)
    ensures r.Ok? ==> r.value == []
    ensures company != "" && GroupOf(groupOf, company) == "" ==> r == Ok([])
    ensures company == "" && companyGroup == "" ==> r == Ok([])
  {
    if company != "" then CompanyListing(groupOf, membersOf, company, today)
    else if companyGroup != "" then Listing(groupOf, GroupPairs(MembersOf(membersOf, companyGroup)), today)
    else Ok([])
  }

  /**
   * `get_all_intercompany_balances`: for a company, its balances with the
   * other members of its group (none without a group); otherwise for a
   * group, the balances of every member pair; otherwise nothing.
   */
  method GetAllIntercompanyBalances(company: string, companyGroup: string, groupOf: map<string, string>,
                                    membersOf: map<string, seq<string>>, today: string)
    returns (r: Result<seq<Balance>>)
    ensures r == AllIntercompanyBalances(groupOf, membersOf, company, companyGroup, today)
  {
    if company != "" {
      var group := GroupOf(groupOf, company);
      if group == "" {
        return Ok([]);
      }
      var removed := RemoveFirst(MembersOf(membersOf, group), company);
      if removed.None? {
        return Err(NOT_IN_LIST);
      }
      r := CompanyBalances(groupOf, company, removed.value, today);
    } else if companyGroup != "" {
      r := GroupBalances(groupOf, MembersOf(membersOf, companyGroup), today);
    } else {
      r := Ok([]);
    }
  }

  /** The loop over the other members of a company's group. */
  method CompanyBalances(groupOf: map<string, string>, company: string, others: seq<string>, today: string)
    returns (r: Result<seq<Balance>>)
    ensures r == Listing(groupOf, PairsWith(company, others), today)
  {
    var balances: seq<Balance> := [];
    var pairs := PairsWith(company, others);
    var k := 0;
    while k < |others|
      invariant 0 <= k <= |others|
      invariant Listing(groupOf, pairs[..k], today) == Ok(balances)
    {
      assert pairs[k] == (company, others[k]);
      var balance := GetIntercompanyBalance(groupOf, company, others[k], "", today);
      ListingNext(groupOf, pairs, k, balances, today);
      if balance.Err? {
        return Err(balance.error);
      }
      balances := balances + Kept(balance.value);
      k := k + 1;
    }
    assert pairs[..k] == pairs;
    return Ok(balances);
  }

  /** The nested loops over the member pairs of a group. */
  method GroupBalances(groupOf: map<string, string>, members: seq<string>, today: string)
    returns (r: Result<seq<Balance>>)
    ensures r == Listing(groupOf, GroupPairs(members), today)
  {
    var balances: seq<Balance> := [];
    var i := 0;
    while i < |members|
      invariant 0 <= i <= |members|
      invariant Listing(groupOf, PairsUpTo(members, i), today) == Ok(balances)
    {
      var row := SourceBalances(groupOf, members, i, balances, today);
      if row.Err? {
        return row;
      }
      balances := row.value;
      i := i + 1;
    }
    return Ok(balances);
  }

  /** The inner loop: member `i` with every later member, after the pairs of the earlier members. */
  method SourceBalances(groupOf: map<string, string>, members: seq<string>, i: nat, found: seq<Balance>, today: string)
    returns (r: Result<seq<Balance>>)
    requires i < |members|
    requires Listing(groupOf, PairsUpTo(members, i), today) == Ok(found)
    ensures r.Ok? ==> r == Listing(groupOf, PairsUpTo(members, i + 1), today)
    ensures r.Err? ==> r == Listing(groupOf, GroupPairs(members), today)
  {
    var balances := found;
    var row := PairsWith(members[i], members[i + 1..]);
    ghost var done := PairsUpTo(members, i);
    var j := i + 1;
    while j < |members|
      invariant i + 1 <= j <= |members|
      invariant done == PairsUpTo(members, i) + row[..j - (i + 1)]
      invariant Listing(groupOf, done, today) == Ok(balances)
    {
      var balance := GetIntercompanyBalance(groupOf, members[i], members[j], "", today);
      if balance.Err? {
        GroupListingFails(groupOf, members, i, j, today);
        return Err(balance.error);
      }
      ListingStep(groupOf, done, (members[i], members[j]), today);
      balances := balances + Kept(balance.value);
      done := done + [(members[i], members[j])];
      RowStep(members, i, j);
      j := j + 1;
    }
    RowDone(members, i);
    return Ok(balances);
  }

  /** The next pair of a listing either fails the whole listing with its error or adds its kept balance. */
  lemma ListingNext(groupOf: map<string, string>, pairs: seq<(string, string)>, k: nat, found: seq<Balance>, today: string)
    requires k < |pairs| && Listing(groupOf, pairs[..k], today) == Ok(found)
    ensures var b := GetIntercompanyBalance(groupOf, pairs[k].0, pairs[k].1, "", today);
      (b.Err? ==> Listing(groupOf, pairs, today) == Err(b.error)) &&
      (b.Ok? ==> Listing(groupOf, pairs[..k + 1], today) == Ok(found + Kept(b.value)))
  {
    assert pairs[..k + 1] == pairs[..k] + [pairs[k]];
    if PairError(groupOf, pairs[k].0, pairs[k].1).Some? {
      ListingSnocFails(groupOf, pairs[..k], pairs[k], today);
      ListingStaysFailed(groupOf, pairs[..k + 1], pairs[k + 1..], today);
      assert pairs[..k + 1] + pairs[k + 1..] == pairs;
    } else {
      ListingStep(groupOf, pairs[..k], pairs[k], today);
    }
  }

  /** One more valid pair adds its kept balance to a successful listing. */
  lemma ListingStep(groupOf: map<string, string>, done: seq<(string, string)>, p: (string, string), today: string)
    requires Listing(groupOf, done, today).Ok? && PairError(groupOf, p.0, p.1).None?
    ensures Listing(groupOf, done + [p], today)
      == Ok(Listing(groupOf, done, today).value + Kept(GetIntercompanyBalance(groupOf, p.0, p.1, "", today).value))
  {
    assert (done + [p])[..|done + [p]| - 1] == done;
  }

  lemma RowStep(members: seq<string>, i: nat, j: nat)
    requires i < j < |members|
    ensures var row := PairsWith(members[i], members[i + 1..]);
      PairsUpTo(members, i) + row[..j - (i + 1)] + [(members[i], members[j])] == PairsUpTo(members, i) + row[..j + 1 - (i + 1)]
  {
    var row := PairsWith(members[i], members[i + 1..]);
    assert row[..j + 1 - (i + 1)] == row[..j - (i + 1)] + [(members[i], members[j])];
  }

  lemma RowDone(members: seq<string>, i: nat)
    requires i < |members|
    ensures var row := PairsWith(members[i], members[i + 1..]);
      PairsUpTo(members, i) + row[..|members| - (i + 1)] == PairsUpTo(members, i + 1)
  {
    var row := PairsWith(members[i], members[i + 1..]);
    assert row[..|members| - (i + 1)] == row;
  }

  /** A failing pair after a successful prefix fails the listing with its error. */
  lemma ListingSnocFails(groupOf: map<string, string>, pairs: seq<(string, string)>, p: (string, string), today: string)
    requires Listing(groupOf, pairs, today).Ok? && PairError(groupOf, p.0, p.1).Some?
    ensures Listing(groupOf, pairs + [p], today) == Err(PairError(groupOf, p.0, p.1).value)
  {
    assert (pairs + [p])[..|pairs + [p]| - 1] == pairs;
  }

  /** A failing pair met in the nested loops fails the whole group listing with its error. */
  lemma GroupListingFails(groupOf: map<string, string>, members: seq<string>, i: nat, j: nat, today: string)
    requires i < j < |members|
    requires Listing(groupOf, PairsUpTo(members, i) + PairsWith(members[i], members[i + 1..])[..j - (i + 1)], today).Ok?
    requires PairError(groupOf, members[i], members[j]).Some?
    ensures Listing(groupOf, GroupPairs(members), today) == Err(PairError(groupOf, members[i], members[j]).value)
  {
    var row := PairsWith(members[i], members[i + 1..]);
    var done := PairsUpTo(members, i) + row[..j - (i + 1)];
    var upto := done + [(members[i], members[j])];
    ListingSnocFails(groupOf, done, (members[i], members[j]), today);
    RowSplit(members, i, j);
    ListingStaysFailed(groupOf, upto, row[j + 1 - (i + 1)..], today);
    PairsUpToExtends(members, i + 1, |members|);
    ListingStaysFailed(groupOf, PairsUpTo(members, i + 1), PairsUpToRest(members, i + 1, |members|), today);
  }

  /** The pairs up to member `i + 1`, cut at the pair of member `i` with member `j`. */
  lemma RowSplit(members: seq<string>, i: nat, j: nat)
    requires i < j < |members|
    ensures var row := PairsWith(members[i], members[i + 1..]);
      PairsUpTo(members, i) + row[..j - (i + 1)] + [(members[i], members[j])] + row[j + 1 - (i + 1)..] == PairsUpTo(members, i + 1)
  {
    var row := PairsWith(members[i], members[i + 1..]);
    assert row == row[..j - (i + 1)] + [(members[i], members[j])] + row[j + 1 - (i + 1)..];
  }

  /** The pairs of members `from` up to `n`, whose sources come after the first `from`. */
  function PairsUpToRest(members: seq<string>, from: nat, n: nat): seq<(string, string)>
    requires from <= n <= |members|
  {
    if n == from then [] else PairsUpToRest(members, from, n - 1) + PairsWith(members[n - 1], members[n..])
  }

  lemma {:induction false} PairsUpToExtends(members: seq<string>, from: nat, n: nat)
    requires from <= n <= |members|
    ensures PairsUpTo(members, n) == PairsUpTo(members, from) + PairsUpToRest(members, from, n)
  {
    if n > from {
      PairsUpToExtends(members, from, n - 1);
    }
  }

  // ---------------------------------------------------------------------
  // get_pending_settlements
  // ---------------------------------------------------------------------

  /** A stored Intercompany Settlement; `modified` orders settlements by last change. */
  datatype SettlementRow = SettlementRow(name: string, sourceCompany: string, targetCompany: string, amount: real,
                                         currency: string, settlementDate: string, status: string,
                                         submittedBy: string, docstatus: int, modified: int)

  /**
   * The filter of `get_pending_settlements`: not cancelled and, with a
   * company, involving it; the status filter applies only without a company.
   */
  predicate Pending(row: SettlementRow, company: string, status: string)
  {
    row.docstatus < 2
    && (if company != "" then row.sourceCompany == company || row.targetCompany == company
        else status == "" || row.status == status)
  }

  function PendingRows(rows: seq<SettlementRow>, company: string, status: string): (r: seq<SettlementRow>)
    ensures forall x :: x in r <==> x in rows && Pending(x, company, status)
  {
    if rows == [] then []
    else (if Pending(rows[0], company, status) then [rows[0]] else []) + PendingRows(rows[1..], company, status)
  }

  predicate ModifiedLater(a: SettlementRow, b: SettlementRow)
  {
    a.modified > b.modified
  }

  lemma ModifiedLaterOrder()
    ensures StrictOrder(ModifiedLater)
  {
  }

  /** `get_pending_settlements`: the matching settlements, most recently modified first. */
  function GetPendingSettlements(rows: seq<SettlementRow>, company: string, status: string): (r: seq<SettlementRow>)
    ensures forall i, j :: 0 <= i < j < |r| ==> r[i].modified >= r[j].modified
    ensures multiset(r) == multiset(PendingRows(rows, company, status))
  {
    ModifiedLaterOrder();
    SortBy(PendingRows(rows, company, status), ModifiedLater)
  }

  /** No cancelled settlement is pending; with a company, every pending settlement involves it whatever the status asked for. */
  lemma PendingMeans(rows: seq<SettlementRow>, company: string, status: string)
    ensures forall x :: x in GetPendingSettlements(rows, company, status) <==> x in rows && Pending(x, company, status)
    ensures forall x :: x in GetPendingSettlements(rows, company, status) ==> x.docstatus != 2
    ensures company != "" ==> forall other :: GetPendingSettlements(rows, company, status) == GetPendingSettlements(rows, company, other)
  {
    var r := GetPendingSettlements(rows, company, status);
    forall x ensures x in r <==> x in PendingRows(rows, company, status) {
      assert x in r <==> x in multiset(r);
      assert x in PendingRows(rows, company, status) <==> x in multiset(PendingRows(rows, company, status));
    }
    if company != "" {
      forall other ensures GetPendingSettlements(rows, company, status) == GetPendingSettlements(rows, company, other) {
        PendingRowsIgnoreStatus(rows, company, status, other);
      }
    }
  }

  lemma {:induction false} PendingRowsIgnoreStatus(rows: seq<SettlementRow>, company: string, status: string, other: string)
    requires company != ""
    ensures PendingRows(rows, company, status) == PendingRows(rows, company, other)
  {
    if rows != [] {
      PendingRowsIgnoreStatus(rows[1..], company, status, other);
    }
  }
}
