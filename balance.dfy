// The Inventory Balance table: one quantity per (product, department,
// company), created on demand, overwritten by `update_for` and moved by
// `apply_delta`.  Timestamps are integers supplied by the caller.

module InventoryBalance {
  import opened Common

  /** The identifying combination of a balance. */
  datatype Key = Key(product: string, department: string, company: string)

  datatype Balance = Balance(quantity: real, lastAuditDate: Option<int>, lastUpdated: int)

  predicate Complete(k: Key)
  {
    k.product != "" && k.department != "" && k.company != ""
  }

  /** `autoname`: "{product}-{department}-{company}", refused when a part is missing. */
  function BalanceName(k: Key): (r: Result<string>)
    ensures r.Ok? <==> Complete(k)
    ensures r.Ok? ==> r.value == k.product + "-" + k.department + "-" + k.company
  {
    if !Complete(k) then Err("Product, Department, and Company are required before naming the balance.")
    else Ok(k.product + "-" + k.department + "-" + k.company)
  }

  /** Two different combinations can share a name once a part contains a dash. */
  lemma NamesCanCollide()
    ensures BalanceName(Key("a-b", "c", "d")) == BalanceName(Key("a", "b-c", "d"))
    ensures Key("a-b", "c", "d") != Key("a", "b-c", "d")
  {
    assert "a-b" + "-" + "c" + "-" + "d" == "a" + "-" + "b-c" + "-" + "d";
  }

  /** The separator sits right after the first part. */
  lemma DashAt(a: string, rest: string)
    ensures |a| < |a + "-" + rest| && (a + "-" + rest)[|a|] == '-'
  {
  }

  /** A part free of dashes is recovered from the text before the first dash. */
  lemma SplitAtDash(a: string, rest: string, b: string, rest2: string)
    requires '-' !in a && '-' !in b
    requires a + "-" + rest == b + "-" + rest2
    ensures a == b && rest == rest2
  {
    var s := a + "-" + rest;
    if |a| < |b| {
      DashAt(a, rest);
      assert false;
    } else if |b| < |a| {
      DashAt(b, rest2);
      assert false;
    }
    assert a == s[..|a|];
    assert b == s[..|b|];
    assert rest == s[|a| + 1..];
    assert rest2 == s[|b| + 1..];
  }

  /** When no part contains a dash, the name identifies the combination. */
  lemma NameIdentifiesDashFreeKeys(k: Key, k2: Key)
    requires '-' !in k.product && '-' !in k.department && '-' !in k2.product && '-' !in k2.department
    requires BalanceName(k).Ok? && BalanceName(k) == BalanceName(k2)
    ensures k == k2
  {
    assert k.product + "-" + k.department + "-" + k.company == k.product + "-" + (k.department + "-" + k.company);
    assert k2.product + "-" + k2.department + "-" + k2.company == k2.product + "-" + (k2.department + "-" + k2.company);
    SplitAtDash(k.product, k.department + "-" + k.company, k2.product, k2.department + "-" + k2.company);
    SplitAtDash(k.department, k.company, k2.department, k2.company);
  }

  /** `_ensure_required_fields`: the first missing part. */
  function RequiredError(k: Key): (r: Option<string>)
    ensures r.None? <==> Complete(k)
  {
    if k.product == "" then Some("Product is required.")
    else if k.department == "" then Some("Department is required.")
    else if k.company == "" then Some("Company is required.")
    else None
  }

  /** `_ensure_unique_combination`: a new record may not repeat a stored combination. */
  function DuplicateError(rows: map<Key, Balance>, k: Key, isNew: bool): (r: Option<string>)
    ensures r.Some? <==> isNew && k in rows
  {
    if isNew && k in rows then
      Some("Inventory balance already exists for " + k.product + " / " + k.department + " in company " + k.company + ".")
    else None
  }

  /** The stored quantity, with a missing balance counting as zero. */
  function QuantityOf(rows: map<Key, Balance>, k: Key): real
  {
    if k in rows then rows[k].quantity else 0.0
  }

  /** The audit date kept after a save: a given date wins, otherwise the stored one stays. */
  function AuditDateAfter(rows: map<Key, Balance>, k: Key, lastAuditDate: Option<int>): (r: Option<int>)
    ensures lastAuditDate.Some? ==> r == lastAuditDate
    ensures lastAuditDate.None? && k in rows ==> r == rows[k].lastAuditDate
    ensures lastAuditDate.None? && k !in rows ==> r.None?
  {
    if lastAuditDate.Some? then lastAuditDate else if k in rows then rows[k].lastAuditDate else None
  }

  /** The table after a successful save of quantity `q` for `k`. */
  function Saved(rows: map<Key, Balance>, k: Key, q: real, lastAuditDate: Option<int>, now: int): (r: map<Key, Balance>)
    ensures k in r && r[k].quantity == q && r[k].lastUpdated == now
    ensures r.Keys == rows.Keys + {k}
    ensures forall other :: other in rows && other != k ==> r[other] == rows[other]
  {
    rows[k := Balance(q, AuditDateAfter(rows, k, lastAuditDate), now)]
  }

  /** `apply_adjustment`: the new quantity. */
  function Adjusted(quantity: real, delta: real): real
  {
    quantity + delta
  }

  class BalanceTable {
    var rows: map<Key, Balance>

    /** Every stored balance names all three parts. */
    ghost predicate Valid()
      reads this
    {
      forall k :: k in rows ==> Complete(k)
    }

    constructor ()
      ensures rows == map[] && Valid()
    {
      rows := map[];
    }

    /** `update_for`: create or overwrite the balance for `k`. */
    method UpdateFor(k: Key, quantity: real, lastAuditDate: Option<int>, now: int) returns (err: Option<string>)
      requires Valid()
      modifies this
      ensures Valid()
      ensures err.Some? <==> !Complete(k)
      ensures err.Some? ==> rows == old(rows)
      ensures err.None? ==> rows == Saved(old(rows), k, quantity, lastAuditDate, now)
    {
      var isNew := k !in rows;
      if isNew {
        var name := BalanceName(k);
        if name.Err? {
          return Some(name.error);
        }
      }
      err := RequiredError(k);
      assert err.None?;
      err := DuplicateError(rows, k, isNew);
      assert err.None?;
      rows := Saved(rows, k, quantity, lastAuditDate, now);
    }

    /** `apply_delta`: add `delta` to the balance for `k`, starting a missing one at zero. */
    method ApplyDelta(k: Key, delta: real, lastAuditDate: Option<int>, now: int) returns (err: Option<string>)
      requires Valid()
      modifies this
      ensures Valid()
      ensures err.Some? <==> !Complete(k)
      ensures err.Some? ==> rows == old(rows) && err == Some(BalanceName(k).error)
      ensures err.None? ==> rows == Saved(old(rows), k, Adjusted(QuantityOf(old(rows), k), delta), lastAuditDate, now)
    {
      var current := 0.0;
      if k in rows {
        current := rows[k].quantity;
      } else {
        var name := BalanceName(k);
        if name.Err? {
          return Some(name.error);
        }
      }
      err := None;
      rows := Saved(rows, k, Adjusted(current, delta), lastAuditDate, now);
    }
  }

  /** Successive deltas add up, a missing balance starting from zero. */
  lemma DeltasCompose(rows: map<Key, Balance>, k: Key, d1: real, d2: real, a1: Option<int>, a2: Option<int>, t1: int, t2: int)
    ensures var once := Saved(rows, k, Adjusted(QuantityOf(rows, k), d1), a1, t1);
      var twice := Saved(once, k, Adjusted(QuantityOf(once, k), d2), a2, t2);
      twice[k].quantity == QuantityOf(rows, k) + d1 + d2 &&
      twice.Keys == rows.Keys + {k}
  {
  }

  /** A second `update_for` for the same combination updates the one record rather than adding one. */
  lemma UpdateTwiceOneRecord(rows: map<Key, Balance>, k: Key, q1: real, q2: real, a1: Option<int>, a2: Option<int>, t1: int, t2: int)
    ensures var once := Saved(rows, k, q1, a1, t1);
      var twice := Saved(once, k, q2, a2, t2);
      |twice.Keys| == |once.Keys| && twice[k].quantity == q2 &&
      twice[k].lastAuditDate == (if a2.Some? then a2 else if a1.Some? then a1 else if k in rows then rows[k].lastAuditDate else None)
  {
    var once := Saved(rows, k, q1, a1, t1);
    assert Saved(once, k, q2, a2, t2).Keys == once.Keys;
  }
}
