// The Stock Ledger Entry: an append-only log of quantity movements whose
// submitted entries carry a running balance per (product, department,
// company), mirrored into the Inventory Balance table.  A posting datetime is
// an integer number of seconds, a posting date and a time of day are integers
// too, and "now"/"today" are parameters.

module StockLedger {
  import opened Common
  import opened InventoryBalance

  const SECONDS_PER_DAY: int := 86400
  const AUDIT_VOUCHER: string := "Inventory Audit"

  datatype Entry = Entry(
    name: string,
    product: string,
    department: string,
    company: string,
    postingDate: Option<int>,
    postingTime: Option<int>,
    postingDatetime: int,
    actualQty: real,
    qtyAfter: real,
    docstatus: int,
    isCancelled: bool,
    voucherType: string,
    itemCode: string,
    stockUom: string,
    warehouse: string)
  {
    function KeyOf(): Key
    {
      Key(product, department, company)
    }
  }

  /** Which posting datetimes a query admits. */
  datatype Window = Below(t: int) | AtMost(t: int) | Unbounded | Between(lo: int, hi: int)

  predicate InWindow(t: int, w: Window)
  {
    match w
    case Below(b) => t < b
    case AtMost(b) => t <= b
    case Unbounded => true
    case Between(lo, hi) => lo <= t <= hi
  }

  /** A submitted, non-cancelled entry of combination `k` inside the window. */
  predicate Counts(e: Entry, k: Key, w: Window)
  {
    e.KeyOf() == k && e.docstatus == 1 && !e.isCancelled && InWindow(e.postingDatetime, w)
  }

  /**
   * The entry an `ORDER BY posting_datetime DESC LIMIT 1` query returns: the
   * greatest posting datetime among the counted entries, the one stored last
   * among equal ones.
   */
  function Latest(entries: seq<Entry>, k: Key, w: Window): (r: Option<nat>)
    ensures r.None? <==> forall j :: 0 <= j < |entries| ==> !Counts(entries[j], k, w)
    ensures r.Some? ==> r.value < |entries| && Counts(entries[r.value], k, w)
    ensures r.Some? ==> forall j :: 0 <= j < |entries| && Counts(entries[j], k, w) ==>
      entries[j].postingDatetime <= entries[r.value].postingDatetime
    ensures r.Some? ==> forall j :: r.value < j < |entries| && Counts(entries[j], k, w) ==>
      entries[j].postingDatetime < entries[r.value].postingDatetime
  {
    if |entries| == 0 then None
    else
      var n := |entries| - 1;
      var front := entries[..n];
      var rest := Latest(front, k, w);
      assert forall j :: 0 <= j < n ==> entries[j] == front[j];
      if Counts(entries[n], k, w) && (rest.None? || entries[rest.value].postingDatetime <= entries[n].postingDatetime) then
        Some(n)
      else
        rest
  }

  /** `get_previous_balance`: the latest earlier running balance, else the stored balance, else zero. */
  function PreviousBalance(entries: seq<Entry>, k: Key, t: int, rows: map<Key, Balance>): real
  {
    match Latest(entries, k, Below(t))
    case Some(i) => entries[i].qtyAfter
    case None => QuantityOf(rows, k)
  }

  /** The entry once submitted: its running balance is the previous balance plus its own movement. */
  function Submitted(entries: seq<Entry>, e: Entry, rows: map<Key, Balance>): (r: Entry)
    ensures r.qtyAfter == PreviousBalance(entries, e.KeyOf(), e.postingDatetime, rows) + e.actualQty
    ensures r.docstatus == 1 && r.KeyOf() == e.KeyOf() && r.postingDatetime == e.postingDatetime
    ensures r.actualQty == e.actualQty && r.isCancelled == e.isCancelled
  {
    e.(qtyAfter := PreviousBalance(entries, e.KeyOf(), e.postingDatetime, rows) + e.actualQty, docstatus := 1)
  }

  /** The audit date a submit writes: only an audit voucher sets it, to the posting date. */
  function SubmitAuditDate(e: Entry): (r: Option<int>)
    ensures r.Some? ==> e.voucherType == AUDIT_VOUCHER
  {
    if e.voucherType == AUDIT_VOUCHER then e.postingDate else None
  }

  /** `before_insert`: default the posting date and time, derive the datetime, copy product and department fields. */
  function Prepared(e: Entry, today: int, nowTime: int, productInfo: Option<(string, string)>): (r: Result<Entry>)
    ensures r.Ok? ==> r.value.postingDate.Some? && r.value.postingTime.Some?
    ensures r.Ok? ==> r.value.postingDatetime == r.value.postingDate.value * SECONDS_PER_DAY + r.value.postingTime.value
    ensures r.Ok? && e.postingDate.Some? ==> r.value.postingDate == e.postingDate
    ensures r.Ok? && e.postingTime.Some? ==> r.value.postingTime == e.postingTime
    ensures r.Ok? && (e.product == "" || e.itemCode != "") ==> r.value.itemCode == e.itemCode && r.value.stockUom == e.stockUom
    ensures r.Ok? && e.product != "" && e.itemCode == "" ==>
      productInfo.Some? && r.value.itemCode == productInfo.value.0 && r.value.stockUom == productInfo.value.1
    ensures r.Ok? ==> r.value.warehouse == (if e.department != "" && e.warehouse == "" then e.department else e.warehouse)
    ensures r.Err? <==> e.product != "" && e.itemCode == "" && productInfo.None?
  {
    var date := if e.postingDate.Some? then e.postingDate.value else today;
    var time := if e.postingTime.Some? then e.postingTime.value else nowTime;
    var timed := e.(postingDate := Some(date), postingTime := Some(time), postingDatetime := date * SECONDS_PER_DAY + time);
    if e.product != "" && e.itemCode == "" && productInfo.None? then
      Err("TypeError: cannot unpack non-iterable NoneType object")
    else
      var coded := if e.product != "" && e.itemCode == "" then timed.(itemCode := productInfo.value.0, stockUom := productInfo.value.1) else timed;
      Ok(if e.department != "" && e.warehouse == "" then coded.(warehouse := e.department) else coded)
  }

  /** `validate`: a submitted entry's movement may not change. */
  function ImmutableError(stored: Entry, edited: Entry): (r: Option<string>)
    ensures r.Some? <==> edited.docstatus == 1 && edited.actualQty != stored.actualQty
  {
    if edited.docstatus == 1 && edited.actualQty != stored.actualQty then
      Some("Cannot modify Stock Ledger Entry after submission. Entry is immutable.")
    else None
  }

  /** The checks shared by the query functions: required identifiers, then existence. */
  function QueryError(product: string, department: string, company: string,
                      productExists: bool, departmentExists: bool, companyExists: bool): (r: Option<string>)
    ensures r.None? <==> product != "" && department != "" && company != "" && productExists && departmentExists && companyExists
  {
    if product == "" then Some("Product is required")
    else if department == "" then Some("Department is required")
    else if company == "" then Some("Company is required")
    else if !productExists then Some("Product " + product + " does not exist")
    else if !departmentExists then Some("Department " + department + " does not exist")
    else if !companyExists then Some("Company " + company + " does not exist")
    else None
  }

  /** `get_stock_balance`: the running balance of the latest counted entry up to `asOf`, or zero. */
  function StockBalance(entries: seq<Entry>, k: Key, asOf: Option<int>,
                        productExists: bool, departmentExists: bool, companyExists: bool): (r: Result<real>)
    ensures r.Err? <==> QueryError(k.product, k.department, k.company, productExists, departmentExists, companyExists).Some?
    ensures r.Ok? ==> var w := if asOf.Some? then AtMost(asOf.value) else Unbounded;
      ((forall j :: 0 <= j < |entries| ==> !Counts(entries[j], k, w)) ==> r.value == 0.0) &&
      (forall j :: 0 <= j < |entries| && Counts(entries[j], k, w) ==>
        exists i :: 0 <= i < |entries| && Counts(entries[i], k, w) && r.value == entries[i].qtyAfter &&
          entries[j].postingDatetime <= entries[i].postingDatetime)
  {
    var err := QueryError(k.product, k.department, k.company, productExists, departmentExists, companyExists);
    if err.Some? then Err(err.value)
    else
      var w := if asOf.Some? then AtMost(asOf.value) else Unbounded;
      match Latest(entries, k, w)
      case None => Ok(0.0)
      case Some(i) => Ok(entries[i].qtyAfter)
  }

  function CountedIn(entries: seq<Entry>, k: Key, w: Window): (r: seq<Entry>)
    ensures forall e :: e in r <==> e in entries && Counts(e, k, w)
    ensures multiset(r) <= multiset(entries)
  {
    if |entries| == 0 then []
    else
      var rest := CountedIn(entries[1..], k, w);
      assert entries == [entries[0]] + entries[1..];
      if Counts(entries[0], k, w) then [entries[0]] + rest else rest
  }

  function EarlierPosting(a: Entry, b: Entry): bool
  {
    a.postingDatetime < b.postingDatetime
  }

  /** `get_stock_movements`: the counted entries in [from, to], ascending by posting datetime. */
  function StockMovements(entries: seq<Entry>, k: Key, from: Option<int>, to: Option<int>,
                          productExists: bool, departmentExists: bool, companyExists: bool): (r: Result<seq<Entry>>)
    ensures r.Err? <==> QueryError(k.product, k.department, k.company, productExists, departmentExists, companyExists).Some?
                        || from.None? || to.None?
    ensures r.Ok? ==> forall i, j :: 0 <= i < j < |r.value| ==> r.value[i].postingDatetime <= r.value[j].postingDatetime
    ensures r.Ok? ==> multiset(r.value) == multiset(CountedIn(entries, k, Between(from.value, to.value)))
    ensures r.Ok? ==> forall e :: e in r.value <==> e in entries && Counts(e, k, Between(from.value, to.value))
  {
    var err := if k.product == "" then Some("Product is required")
      else if k.department == "" then Some("Department is required")
      else if k.company == "" then Some("Company is required")
      else if from.None? then Some("From date is required")
      else if to.None? then Some("To date is required")
      else QueryError(k.product, k.department, k.company, productExists, departmentExists, companyExists);
    if err.Some? then Err(err.value)
    else
      var picked := CountedIn(entries, k, Between(from.value, to.value));
      var sorted := SortBy(picked, EarlierPosting);
      assert forall e :: e in sorted <==> e in multiset(sorted);
      Ok(sorted)
  }

  class Ledger {
    var entries: seq<Entry>
    const balances: BalanceTable

    ghost predicate Valid()
      reads this, balances
    {
      balances.Valid()
    }

    constructor (table: BalanceTable)
      ensures entries == [] && balances == table
    {
      entries := [];
      balances := table;
    }

    /** Insert a draft entry after `before_insert` has filled its fields. */
    method Insert(e: Entry, today: int, nowTime: int, productInfo: Option<(string, string)>) returns (err: Option<string>)
      modifies this`entries
      ensures var p := Prepared(e, today, nowTime, productInfo);
        if p.Err? then err == Some(p.error) && entries == old(entries)
        else err.None? && entries == old(entries) + [p.value.(docstatus := 0, isCancelled := false)]
    {
      var p := Prepared(e, today, nowTime, productInfo);
      if p.Err? {
        return Some(p.error);
      }
      entries := entries + [p.value.(docstatus := 0, isCancelled := false)];
      err := None;
    }

    /** Submit the draft at `i`: compute its running balance and write it to the balance table. */
    method Submit(i: nat, productExists: bool, departmentExists: bool, now: int) returns (err: Option<string>)
      requires Valid() && i < |entries|
      modifies this`entries, balances
      ensures Valid()
      ensures var e := old(entries)[i];
        err.None? <==> e.docstatus == 0 && productExists && departmentExists && Complete(e.KeyOf())
      ensures err.Some? ==> entries == old(entries) && balances.rows == old(balances.rows)
      ensures err.None? ==>
        var e := old(entries)[i];
        var s := Submitted(old(entries), e, old(balances.rows));
        entries == old(entries)[i := s] &&
        balances.rows == Saved(old(balances.rows), e.KeyOf(), s.qtyAfter, SubmitAuditDate(e), now)
    {
      var e := entries[i];
      if e.docstatus != 0 {
        return Some("Only a draft entry can be submitted.");
      }
      if !productExists {
        return Some("Product " + e.product + " does not exist");
      }
      if !departmentExists {
        return Some("Department " + e.department + " does not exist");
      }
      if !Complete(e.KeyOf()) {
        return Some(BalanceName(e.KeyOf()).error);
      }
      var s := Submitted(entries, e, balances.rows);
      err := balances.UpdateFor(e.KeyOf(), s.qtyAfter, SubmitAuditDate(e), now);
      entries := entries[i := s];
    }

    /** Cancel the submitted entry at `i`: flag it and take its movement back out of the balance. */
    method Cancel(i: nat, now: int) returns (err: Option<string>)
      requires Valid() && i < |entries|
      modifies this`entries, balances
      ensures Valid()
      ensures err.None? <==> old(entries)[i].docstatus == 1 && Complete(old(entries)[i].KeyOf())
      ensures err.Some? ==> entries == old(entries) && balances.rows == old(balances.rows)
      ensures err.None? ==>
        var e := old(entries)[i];
        entries == old(entries)[i := e.(docstatus := 2, isCancelled := true)] &&
        balances.rows == Saved(old(balances.rows), e.KeyOf(),
          Adjusted(QuantityOf(old(balances.rows), e.KeyOf()), -e.actualQty), None, now)
    {
      var e := entries[i];
      if e.docstatus != 1 {
        return Some("Only a submitted entry can be cancelled.");
      }
      err := balances.ApplyDelta(e.KeyOf(), -e.actualQty, None, now);
      if err.Some? {
        return;
      }
      entries := entries[i := e.(docstatus := 2, isCancelled := true)];
    }
  }

  // ---------------------------------------------------------------------
  // Properties of the running balance
  // ---------------------------------------------------------------------

  /** An entry submitted after every earlier counted one supplies the next previous balance. */
  lemma {:induction false} AppendedIsPrevious(entries: seq<Entry>, e: Entry, t: int, rows: map<Key, Balance>)
    requires Counts(e, e.KeyOf(), Below(t))
    requires forall j :: 0 <= j < |entries| && Counts(entries[j], e.KeyOf(), Below(t)) ==>
      entries[j].postingDatetime <= e.postingDatetime
    ensures PreviousBalance(entries + [e], e.KeyOf(), t, rows) == e.qtyAfter
  {
    var all := entries + [e];
    var k := e.KeyOf();
    assert all[..|entries|] == entries;
    var rest := Latest(entries, k, Below(t));
    if rest.Some? {
      assert all[rest.value] == entries[rest.value];
    }
    assert Latest(all, k, Below(t)) == Some(|entries|);
  }

  /** An entry of another combination, or a later one, leaves the previous balance alone. */
  lemma {:induction false} UnrelatedAppendKeepsPrevious(entries: seq<Entry>, e: Entry, k: Key, t: int, rows: map<Key, Balance>)
    requires !Counts(e, k, Below(t))
    ensures PreviousBalance(entries + [e], k, t, rows) == PreviousBalance(entries, k, t, rows)
  {
    var all := entries + [e];
    assert all[..|entries|] == entries;
    var rest := Latest(entries, k, Below(t));
    if rest.Some? {
      assert all[rest.value] == entries[rest.value];
    }
  }

  /** Submitting a movement and cancelling it restores the balance it started from. */
  lemma SubmitThenCancelRestores(entries: seq<Entry>, e: Entry, rows: map<Key, Balance>, audit: Option<int>, t1: int, t2: int)
    ensures var s := Submitted(entries, e, rows);
      var afterSubmit := Saved(rows, e.KeyOf(), s.qtyAfter, audit, t1);
      var afterCancel := Saved(afterSubmit, e.KeyOf(), Adjusted(QuantityOf(afterSubmit, e.KeyOf()), -e.actualQty), None, t2);
      afterCancel[e.KeyOf()].quantity == PreviousBalance(entries, e.KeyOf(), e.postingDatetime, rows)
  {
  }

  function Draft(qty: real, at: int): Entry
  {
    Entry("", "P", "D", "C", Some(0), Some(at), at, qty, 0.0, 0, false, "", "", "", "")
  }

  /** Submitting +10, +5 and -3 in time order on an empty table gives running balances 10, 15 and 12. */
  lemma RunningBalanceExample()
    ensures var e1 := Submitted([], Draft(10.0, 1), map[]);
      var e2 := Submitted([e1], Draft(5.0, 2), map[]);
      var e3 := Submitted([e1, e2], Draft(-3.0, 3), map[]);
      e1.qtyAfter == 10.0 && e2.qtyAfter == 15.0 && e3.qtyAfter == 12.0
  {
    var k := Key("P", "D", "C");
    var e1 := Submitted([], Draft(10.0, 1), map[]);
    AppendedIsPrevious([], e1, 2, map[]);
    assert [] + [e1] == [e1];
    var e2 := Submitted([e1], Draft(5.0, 2), map[]);
    AppendedIsPrevious([e1], e2, 3, map[]);
    assert [e1] + [e2] == [e1, e2];
  }
}
