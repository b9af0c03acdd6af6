// Batch Number: lot identifiers "{product_code}-{year}-{seq}", the date rules,
// the Active/Expired/Consumed status rules, the quantity rebuilt from the
// ledger, the daily expiry job and the two batch queries.  Dates are day
// numbers; the calendar year of a day is a parameter.

module BatchNumbers {
  import opened Common

  const ACTIVE: string := "Active"
  const EXPIRED: string := "Expired"
  const CONSUMED: string := "Consumed"

  // ---------------------------------------------------------------------
  // Batch identifiers
  // ---------------------------------------------------------------------

  /** A stored batch: its product and its batch id. */
  datatype StoredId = StoredId(product: string, batchId: string)

  /** MySQL `SUBSTRING_INDEX(s, '-', -1)`: the text after the last dash. */
  function LastSegment(s: string): string
  {
    var parts := Split(s, '-');
    parts[|parts| - 1]
  }

  /** The prefix every id of one product and year starts with. */
  function IdPrefix(productCode: string, year: nat): string
  {
    productCode + "-" + NatToString(year) + "-"
  }

  /** The sequence number a stored id carries. */
  function SequenceOf(batchId: string): nat
  {
    CastUnsigned(LastSegment(batchId))
  }

  /** Whether a stored id takes part in the sequence of `product` under `prefix`. */
  predicate InSequence(s: StoredId, product: string, prefix: string)
  {
    s.product == product && IsPrefix(prefix, s.batchId)
  }

  /** The largest `key` among the kept elements, 0 when none is kept. */
  function MaxKept<T>(xs: seq<T>, keep: T -> bool, key: T -> nat): (r: nat)
    ensures forall i :: 0 <= i < |xs| && keep(xs[i]) ==> key(xs[i]) <= r
    ensures r == 0 || exists i :: 0 <= i < |xs| && keep(xs[i]) && key(xs[i]) == r
  {
    if |xs| == 0 then 0
    else
      var n := |xs| - 1;
      var front := MaxKept(xs[..n], keep, key);
      assert forall i :: 0 <= i < n ==> xs[..n][i] == xs[i];
      if keep(xs[n]) && key(xs[n]) > front then key(xs[n]) else front
  }

  /** `COALESCE(MAX(CAST(SUBSTRING_INDEX(batch_id, '-', -1) AS UNSIGNED)), 0)` over the matching rows. */
  function MaxSequence(stored: seq<StoredId>, product: string, prefix: string): (r: nat)
    ensures forall i :: 0 <= i < |stored| && InSequence(stored[i], product, prefix) ==> SequenceOf(stored[i].batchId) <= r
    ensures r == 0 || exists i :: 0 <= i < |stored| && InSequence(stored[i], product, prefix) && SequenceOf(stored[i].batchId) == r
  {
    MaxKept(stored, (s: StoredId) => InSequence(s, product, prefix), (s: StoredId) => SequenceOf(s.batchId))
  }

  /** The identifier `autoname` gives: the next sequence number, zero-padded to four digits. */
  function NextBatchId(stored: seq<StoredId>, product: string, productCode: string, year: nat): string
  {
    var prefix := IdPrefix(productCode, year);
    prefix + FormatPadded(MaxSequence(stored, product, prefix) + 1, 4)
  }

  /** The last dash-separated segment of `a + "-" + b` is `b` when `b` has no dash. */
  lemma {:induction false} LastSegmentAfter(a: string, b: string)
    requires '-' !in b
    ensures |Split(a + ['-'] + b, '-')| >= 2
    ensures LastSegment(a + ['-'] + b) == b
    decreases |a|
  {
    var s := a + ['-'] + b;
    if |a| == 0 {
      assert s[1..] == b;
      SplitNoSep(b, '-');
    } else {
      assert s[1..] == a[1..] + ['-'] + b;
      LastSegmentAfter(a[1..], b);
    }
  }

  /** A new identifier carries exactly the sequence number it was built from. */
  lemma NewIdSequence(stored: seq<StoredId>, product: string, productCode: string, year: nat)
    ensures var prefix := IdPrefix(productCode, year);
      IsPrefix(prefix, NextBatchId(stored, product, productCode, year)) &&
      SequenceOf(NextBatchId(stored, product, productCode, year)) == MaxSequence(stored, product, prefix) + 1
  {
    var prefix := IdPrefix(productCode, year);
    var padded := FormatPadded(MaxSequence(stored, product, prefix) + 1, 4);
    assert '-' !in padded;
    var front := productCode + "-" + NatToString(year);
    assert prefix + padded == front + ['-'] + padded;
    LastSegmentAfter(front, padded);
    FormatPaddedValue(MaxSequence(stored, product, prefix) + 1, 4);
    assert IsPrefix(prefix, prefix + padded);
  }

  /** A generated identifier differs from every stored identifier in the same product's sequence. */
  lemma NewIdIsFresh(stored: seq<StoredId>, product: string, productCode: string, year: nat)
    ensures forall i :: 0 <= i < |stored| && InSequence(stored[i], product, IdPrefix(productCode, year)) ==>
      stored[i].batchId != NextBatchId(stored, product, productCode, year)
  {
    NewIdSequence(stored, product, productCode, year);
  }

  /** Storing the generated identifier moves the sequence on by exactly one. */
  lemma SequenceAdvances(stored: seq<StoredId>, product: string, productCode: string, year: nat)
    ensures var prefix := IdPrefix(productCode, year);
      var id := NextBatchId(stored, product, productCode, year);
      MaxSequence(stored + [StoredId(product, id)], product, prefix) == MaxSequence(stored, product, prefix) + 1
  {
    var prefix := IdPrefix(productCode, year);
    var id := NextBatchId(stored, product, productCode, year);
    NewIdSequence(stored, product, productCode, year);
    assert (stored + [StoredId(product, id)])[..|stored|] == stored;
  }

  // ---------------------------------------------------------------------
  // Dates and status
  // ---------------------------------------------------------------------

  /** `validate_dates`: with both dates present, expiry must come strictly after manufacture. */
  function DateError(manufacturing: Option<int>, expiration: Option<int>): (r: Option<string>)
    ensures r.Some? <==> manufacturing.Some? && expiration.Some? && expiration.value <= manufacturing.value
  {
    if manufacturing.Some? && expiration.Some? && expiration.value <= manufacturing.value then
      Some("Expiration date must be after manufacturing date")
    else None
  }

  /** `calculate_shelf_life`: the days between the dates, kept as before when one is missing. */
  function ShelfLife(manufacturing: Option<int>, expiration: Option<int>, previous: Option<int>): (r: Option<int>)
    ensures manufacturing.Some? && expiration.Some? ==> r == Some(expiration.value - manufacturing.value)
    ensures manufacturing.None? || expiration.None? ==> r == previous
    ensures DateError(manufacturing, expiration).None? && manufacturing.Some? && expiration.Some? ==> r.value > 0
  {
    if manufacturing.Some? && expiration.Some? then Some(expiration.value - manufacturing.value) else previous
  }

  /** Whether the expiry date lies before `today`. */
  predicate ExpiredBy(expiration: Option<int>, today: int)
  {
    expiration.Some? && expiration.value < today
  }

  /** `update_status`: a manual Expired or Consumed status stays unless forced; otherwise the dates and quantity decide. */
  function StatusAfter(current: string, expiration: Option<int>, quantity: Option<real>, today: int, force: bool): (r: string)
    ensures current in {EXPIRED, CONSUMED} && !force ==> r == current
    ensures !(current in {EXPIRED, CONSUMED} && !force) ==>
      (r == EXPIRED <==> ExpiredBy(expiration, today)) &&
      (r == CONSUMED <==> !ExpiredBy(expiration, today) && quantity.Some? && quantity.value <= 0.0) &&
      (r == ACTIVE <==> !ExpiredBy(expiration, today) && !(quantity.Some? && quantity.value <= 0.0))
  {
    if current in {EXPIRED, CONSUMED} && !force then current
    else if ExpiredBy(expiration, today) then EXPIRED
    else if quantity.Some? && quantity.value <= 0.0 then CONSUMED
    else ACTIVE
  }

  /** The status is always one of the three, and recomputing it at once changes nothing. */
  lemma StatusSettles(current: string, expiration: Option<int>, quantity: Option<real>, today: int, force: bool)
    requires current in {ACTIVE, EXPIRED, CONSUMED, ""}
    ensures StatusAfter(current, expiration, quantity, today, force) in {ACTIVE, EXPIRED, CONSUMED}
    ensures var s := StatusAfter(current, expiration, quantity, today, force);
      StatusAfter(s, expiration, quantity, today, force) == s
  {
  }

  // ---------------------------------------------------------------------
  // Quantity from the ledger
  // ---------------------------------------------------------------------

  /** A ledger row as far as batches are concerned. */
  datatype Movement = Movement(batchNumber: string, product: string, department: string, company: string,
                               docstatus: int, isCancelled: bool, actualQty: real)

  predicate CountsFor(m: Movement, batch: string, product: string, department: string, company: string)
  {
    m.batchNumber == batch && m.product == product && m.department == department && m.company == company &&
    m.docstatus == 1 && !m.isCancelled
  }

  /** `SUM(actual_qty)` over the submitted, uncancelled rows of this batch, 0 when there are none. */
  function LedgerTotal(movements: seq<Movement>, batch: string, product: string, department: string, company: string): real
  {
    if |movements| == 0 then 0.0
    else
      var n := |movements| - 1;
      LedgerTotal(movements[..n], batch, product, department, company) +
      (if CountsFor(movements[n], batch, product, department, company) then movements[n].actualQty else 0.0)
  }

  /** Recording a movement adds its quantity exactly when it counts for the batch. */
  lemma LedgerTotalAppend(movements: seq<Movement>, m: Movement, batch: string, product: string, department: string, company: string)
    ensures LedgerTotal(movements + [m], batch, product, department, company) ==
      LedgerTotal(movements, batch, product, department, company) + (if CountsFor(m, batch, product, department, company) then m.actualQty else 0.0)
  {
    assert (movements + [m])[..|movements|] == movements;
  }

  /** Cancelling a movement in place takes its quantity back out of the total. */
  lemma {:induction false} LedgerTotalCancel(movements: seq<Movement>, i: nat, batch: string, product: string, department: string, company: string)
    requires i < |movements| && CountsFor(movements[i], batch, product, department, company)
    ensures LedgerTotal(movements[i := movements[i].(isCancelled := true)], batch, product, department, company) ==
      LedgerTotal(movements, batch, product, department, company) - movements[i].actualQty
    decreases |movements|
  {
    var n := |movements| - 1;
    var after := movements[i := movements[i].(isCancelled := true)];
    if i == n {
      assert after[..n] == movements[..n];
    } else {
      assert after[..n] == movements[..n][i := movements[i].(isCancelled := true)];
      LedgerTotalCancel(movements[..n], i, batch, product, department, company);
    }
  }

  // ---------------------------------------------------------------------
  // The document
  // ---------------------------------------------------------------------

  class BatchNumber {
    var name: string
    var batchId: string
    var product: string
    var department: string
    var company: string
    var manufacturingDate: Option<int>
    var expirationDate: Option<int>
    var shelfLifeInDays: Option<int>
    var quantity: Option<real>
    var status: string
    var forceStatusRecalc: bool

    /**
     * `autoname`: an empty batch id gets the next id of its product's
     * sequence for the year of manufacture (or of today).  `productCode` is
     * "" when the product does not exist.
     */
    method Autoname(productCode: string, stored: seq<StoredId>, yearOf: int -> nat, today: int) returns (err: Option<string>)
      modifies this`batchId
      ensures old(batchId) != "" ==> err.None? && batchId == old(batchId)
      ensures old(batchId) == "" && productCode == "" ==> err.Some? && batchId == old(batchId)
      ensures old(batchId) == "" && productCode != "" ==>
        err.None? && batchId == NextBatchId(stored, product, productCode,
                                            yearOf(if manufacturingDate.Some? then manufacturingDate.value else today))
    {
      if batchId != "" {
        return None;
      }
      if productCode == "" {
        return Some("Product " + product + " not found");
      }
      var year := yearOf(if manufacturingDate.Some? then manufacturingDate.value else today);
      var prefix := IdPrefix(productCode, year);
      var next := MaxSequence(stored, product, prefix) + 1;
      batchId := prefix + FormatPadded(next, 4);
      err := None;
    }

    /** `validate`: the date rule, then the shelf life, then the status. */
    method Validate(today: int) returns (err: Option<string>)
      modifies this`shelfLifeInDays, this`status
      ensures err == DateError(manufacturingDate, expirationDate)
      ensures err.Some? ==> shelfLifeInDays == old(shelfLifeInDays) && status == old(status)
      ensures err.None? ==>
        shelfLifeInDays == ShelfLife(manufacturingDate, expirationDate, old(shelfLifeInDays)) &&
        status == StatusAfter(old(status), expirationDate, quantity, today, forceStatusRecalc)
    {
      err := DateError(manufacturingDate, expirationDate);
      if err.Some? {
        return;
      }
      shelfLifeInDays := ShelfLife(manufacturingDate, expirationDate, shelfLifeInDays);
      status := StatusAfter(status, expirationDate, quantity, today, forceStatusRecalc);
    }

    /** `before_save`: an empty status becomes Active. */
    method BeforeSave()
      modifies this`status
      ensures status == (if old(status) == "" then ACTIVE else old(status))
    {
      if status == "" {
        status := ACTIVE;
      }
    }

    /** `update_quantity_from_ledger`: the quantity is rebuilt from the ledger and the status recomputed by force. */
    method UpdateQuantityFromLedger(movements: seq<Movement>, today: int)
      modifies this`quantity, this`forceStatusRecalc, this`status
      ensures quantity == Some(LedgerTotal(movements, name, product, department, company))
      ensures forceStatusRecalc
      ensures status == StatusAfter(old(status), expirationDate, quantity, today, true)
    {
      quantity := Some(LedgerTotal(movements, name, product, department, company));
      forceStatusRecalc := true;
      status := StatusAfter(status, expirationDate, quantity, today, true);
    }
  }

  /** A batch rebuilt from a ledger with nothing left in it, and not yet expired, is Consumed. */
  lemma EmptiedBatchIsConsumed(movements: seq<Movement>, b: string, p: string, d: string, c: string,
                               current: string, expiration: Option<int>, today: int)
    requires LedgerTotal(movements, b, p, d, c) <= 0.0 && !ExpiredBy(expiration, today)
    ensures StatusAfter(current, expiration, Some(LedgerTotal(movements, b, p, d, c)), today, true) == CONSUMED
  {
  }

  // ---------------------------------------------------------------------
  // The batch table: daily expiry and queries
  // ---------------------------------------------------------------------

  datatype BatchRow = BatchRow(name: string, batchId: string, product: string, department: string, company: string,
                               status: string, quantity: Option<real>, manufacturingDate: Option<int>,
                               expirationDate: Option<int>, creation: int)

  /** Whether the daily job expires a row. */
  predicate Expiring(r: BatchRow, today: int)
  {
    r.status == ACTIVE && ExpiredBy(r.expirationDate, today)
  }

  /** The row after the daily job's UPDATE. */
  function AfterExpiry(r: BatchRow, today: int): BatchRow
  {
    if Expiring(r, today) then r.(status := EXPIRED) else r
  }

  /** The number of rows the daily job counts before updating. */
  function ExpiringCount(rows: seq<BatchRow>, today: int): nat
  {
    if |rows| == 0 then 0
    else ExpiringCount(rows[..|rows| - 1], today) + (if Expiring(rows[|rows| - 1], today) then 1 else 0)
  }

  class BatchTable {
    var rows: seq<BatchRow>

    /** `update_batch_statuses`: every Active batch past its expiry date becomes Expired; returns how many. */
    method MarkExpired(today: int) returns (count: nat)
      modifies this`rows
      ensures |rows| == |old(rows)|
      ensures forall i :: 0 <= i < |rows| ==> rows[i] == AfterExpiry(old(rows)[i], today)
      ensures count == ExpiringCount(old(rows), today)
    {
      var updated: seq<BatchRow> := [];
      count := 0;
      var i := 0;
      while i < |rows|
        invariant 0 <= i <= |rows|
        invariant |updated| == i
        invariant forall k :: 0 <= k < i ==> updated[k] == AfterExpiry(rows[k], today)
        invariant count == ExpiringCount(rows[..i], today)
      {
        assert rows[..i + 1][..i] == rows[..i];
        if Expiring(rows[i], today) {
          count := count + 1;
        }
        updated := updated + [AfterExpiry(rows[i], today)];
        i := i + 1;
      }
      assert rows[..i] == rows;
      rows := updated;
    }
  }

  /** After the daily job no Active batch is past its expiry date, and nothing else changed status. */
  lemma ExpiryIsExact(rows: seq<BatchRow>, today: int, i: nat)
    requires i < |rows|
    ensures !Expiring(AfterExpiry(rows[i], today), today)
    ensures AfterExpiry(rows[i], today).status != rows[i].status <==> Expiring(rows[i], today)
    ensures AfterExpiry(rows[i], today) == rows[i].(status := AfterExpiry(rows[i], today).status)
  {
  }

  /** A second run of the daily job on the same day finds nothing to do. */
  lemma {:induction false} ExpiryIdempotent(rows: seq<BatchRow>, today: int)
    ensures ExpiringCount(seq(|rows|, i requires 0 <= i < |rows| => AfterExpiry(rows[i], today)), today) == 0
    decreases |rows|
  {
    var after := seq(|rows|, i requires 0 <= i < |rows| => AfterExpiry(rows[i], today));
    if |rows| > 0 {
      var n := |rows| - 1;
      assert after[..n] == seq(n, i requires 0 <= i < n => AfterExpiry(rows[..n][i], today));
      ExpiryIdempotent(rows[..n], today);
    }
  }

  /** The daily job agrees with a forced `update_status` on the rows it expires. */
  lemma ExpiryAgreesWithStatus(r: BatchRow, today: int)
    requires Expiring(r, today)
    ensures AfterExpiry(r, today).status == StatusAfter(r.status, r.expirationDate, r.quantity, today, true)
  {
  }

  /** `get_batch_balance`: the stored quantity, 0 for an empty name, a missing batch or a missing quantity. */
  function BatchBalance(batchName: string, quantities: map<string, Option<real>>): (r: real)
    ensures batchName == "" || batchName !in quantities || quantities[batchName].None? ==> r == 0.0
    ensures batchName != "" && batchName in quantities && quantities[batchName].Some? ==> r == quantities[batchName].value
  {
    if batchName == "" then 0.0
    else if batchName !in quantities then 0.0
    else match quantities[batchName]
      case None => 0.0
      case Some(q) => q
  }

  /** Whether a row is in stock and Active, as both queries require. */
  predicate Available(r: BatchRow)
  {
    r.status == ACTIVE && r.quantity.Some? && r.quantity.value > 0.0
  }

  /** The filters of `get_expiring_batches`; empty department or company filters are not applied. */
  predicate ExpiringMatch(r: BatchRow, department: string, company: string, withinDays: int, today: int)
  {
    Available(r) && r.expirationDate.Some? && today <= r.expirationDate.value <= today + withinDays &&
    (department == "" || r.department == department) && (company == "" || r.company == company)
  }

  function Select(rows: seq<BatchRow>, keep: BatchRow -> bool): (r: seq<BatchRow>)
    ensures multiset(r) <= multiset(rows)
    ensures forall x :: x in r <==> x in rows && keep(x)
  {
    if |rows| == 0 then []
    else
      assert rows == [rows[0]] + rows[1..];
      (if keep(rows[0]) then [rows[0]] else []) + Select(rows[1..], keep)
  }

  /** `ORDER BY expiration_date ASC` (a missing date sorts first). */
  predicate ExpiresBefore(a: BatchRow, b: BatchRow)
  {
    OptLt(a.expirationDate, b.expirationDate)
  }

  predicate OptLt(a: Option<int>, b: Option<int>)
  {
    b.Some? && (a.None? || a.value < b.value)
  }

  /** `ORDER BY manufacturing_date ASC, creation ASC`: first in, first out. */
  predicate FifoBefore(a: BatchRow, b: BatchRow)
  {
    OptLt(a.manufacturingDate, b.manufacturingDate) ||
    (a.manufacturingDate == b.manufacturingDate && a.creation < b.creation)
  }

  lemma OrdersAreStrict()
    ensures StrictOrder((a: BatchRow, b: BatchRow) => ExpiresBefore(a, b))
    ensures StrictOrder((a: BatchRow, b: BatchRow) => FifoBefore(a, b))
  {
  }

  /** `get_expiring_batches`: Active, in stock, expiring within the window, soonest first. */
  function ExpiringBatches(rows: seq<BatchRow>, department: string, company: string, withinDays: int, today: int): (r: seq<BatchRow>)
    ensures forall x :: x in r <==> x in rows && ExpiringMatch(x, department, company, withinDays, today)
    ensures multiset(r) <= multiset(rows)
    ensures forall i, j :: 0 <= i < j < |r| ==> !ExpiresBefore(r[j], r[i])
  {
    OrdersAreStrict();
    var lt := (a: BatchRow, b: BatchRow) => ExpiresBefore(a, b);
    var picked := Select(rows, x => ExpiringMatch(x, department, company, withinDays, today));
    var r := SortBy(picked, lt);
    assert forall x :: x in r <==> x in picked by {
      forall x ensures x in r <==> x in picked {
        assert x in r <==> x in multiset(r);
      }
    }
    assert forall i, j :: 0 <= i < j < |r| ==> !lt(r[j], r[i]);
    r
  }

  /** `get_available_batches`: Active, in stock, for the product, department and company, oldest first. */
  function AvailableBatches(rows: seq<BatchRow>, product: string, department: string, company: string): (r: seq<BatchRow>)
    ensures forall x :: x in r <==> x in rows && Available(x) && x.product == product && x.department == department && x.company == company
    ensures multiset(r) <= multiset(rows)
    ensures forall i, j :: 0 <= i < j < |r| ==> !FifoBefore(r[j], r[i])
  {
    OrdersAreStrict();
    var lt := (a: BatchRow, b: BatchRow) => FifoBefore(a, b);
    var picked := Select(rows, x => Available(x) && x.product == product && x.department == department && x.company == company);
    var r := SortBy(picked, lt);
    assert forall x :: x in r <==> x in picked by {
      forall x ensures x in r <==> x in picked {
        assert x in r <==> x in multiset(r);
      }
    }
    assert forall i, j :: 0 <= i < j < |r| ==> !lt(r[j], r[i]);
    r
  }
}
