// The Inventory Audit document: its six-status lifecycle, the counting-task
// matrix built from the audit scope, the closing computation over counted
// lines and the ledger adjustment rule.  Storage areas, products and current
// balances are read from maps standing for the database.

module InventoryAudit {
  import opened Common
  import ProductDoc

  const STATUS_SEQUENCE: seq<string> := ["Setup", "Ready", "In Progress", "Review", "Closed", "Locked"]
  const PENDING: string := "Pending"
  const NOT_CLOSABLE: string := "Audit must be in Review, In Progress, or Ready status before closing."

  datatype Task = Task(department: string, storageArea: Option<string>, category: Option<string>, status: string)

  datatype AuditLine = AuditLine(
    product: string,
    department: string,
    storageArea: string,
    unit: string,
    quantity: Option<real>,
    expectedQuantity: Option<real>,
    unitCost: Option<real>,
    quantityPrimary: real,
    variance: real)

  /** A (product, department) pair and the quantity counted for it. */
  type Totals = seq<((string, string), real)>

  /** What the closing loop has accumulated so far. */
  datatype Tally = Tally(lines: seq<AuditLine>, totals: Totals, products: set<string>, value: real)

  /** Python `x or 0.0` on an optional number. */
  function OrZero(x: Option<real>): real
  {
    if x.Some? then x.value else 0.0
  }

  // ---------------------------------------------------------------------
  // Validation
  // ---------------------------------------------------------------------

  /** Position `b` holds a value already seen at an earlier position. */
  predicate RepeatsEarlier(values: seq<string>, b: nat)
    requires b < |values|
  {
    exists a :: 0 <= a < b && values[a] == values[b]
  }

  /** No non-empty value occurs twice among the first `n` positions. */
  predicate RepeatFreeBefore(values: seq<string>, n: nat)
    requires n <= |values|
  {
    forall a, b :: 0 <= a < b < n && values[a] != "" ==> values[a] != values[b]
  }

  /**
   * `_ensure_unique_field`: the first non-empty value seen twice, scanning in
   * order — the value at the earliest position that repeats an earlier one.
   */
  function FirstDuplicate(values: seq<string>): (r: Option<string>)
    ensures r.None? <==> forall i, j :: 0 <= i < j < |values| && values[i] != "" ==> values[i] != values[j]
    ensures r.Some? ==> r.value != "" && exists i, j :: 0 <= i < j < |values| && values[i] == values[j] == r.value
    ensures r.Some? ==> exists b :: 0 <= b < |values| && values[b] == r.value && RepeatsEarlier(values, b) && RepeatFreeBefore(values, b)
  {
    DuplicateAfter(values, 0, {})
  }

  function DuplicateAfter(values: seq<string>, i: nat, seen: set<string>): (r: Option<string>)
    requires i <= |values|
    requires seen == set k | 0 <= k < i && values[k] != "" :: values[k]
    requires RepeatFreeBefore(values, i)
    ensures r.None? <==> forall a, b :: 0 <= a < b < |values| && values[a] != "" ==> values[a] != values[b]
    ensures r.Some? ==> r.value != "" && exists a, b :: 0 <= a < b < |values| && values[a] == values[b] == r.value
    ensures r.Some? ==> exists b :: i <= b < |values| && values[b] == r.value && RepeatsEarlier(values, b) && RepeatFreeBefore(values, b)
    decreases |values| - i
  {
    if i == |values| then None
    else if values[i] == "" then DuplicateAfter(values, i + 1, seen)
    else if values[i] in seen then
      var a :| 0 <= a < i && values[a] != "" && values[a] == values[i];
      assert RepeatsEarlier(values, i);
      Some(values[i])
    else
      DuplicateAfter(values, i + 1, seen + {values[i]})
  }

  /** `validate`: the status must be a known one, then each scope table must be free of repeats. */
  function ValidateError(status: string, departments: seq<string>, storages: seq<string>, categories: seq<string>): (r: Option<string>)
    ensures r.None? <==> (status in STATUS_SEQUENCE && FirstDuplicate(departments).None? &&
                          FirstDuplicate(storages).None? && FirstDuplicate(categories).None?)
    ensures status !in STATUS_SEQUENCE ==>
      r == Some("Invalid status " + status + ". Must be one of: " + Join(STATUS_SEQUENCE, ", ") + ".")
    ensures status in STATUS_SEQUENCE && FirstDuplicate(departments).Some? ==>
      r == Some("Duplicate Department: " + FirstDuplicate(departments).value + ".")
    ensures status in STATUS_SEQUENCE && FirstDuplicate(departments).None? && FirstDuplicate(storages).Some? ==>
      r == Some("Duplicate Storage Area: " + FirstDuplicate(storages).value + ".")
    ensures (status in STATUS_SEQUENCE && FirstDuplicate(departments).None? && FirstDuplicate(storages).None? &&
             FirstDuplicate(categories).Some?) ==>
      r == Some("Duplicate Product Category: " + FirstDuplicate(categories).value + ".")
  {
    if status !in STATUS_SEQUENCE then
      Some("Invalid status " + status + ". Must be one of: " + Join(STATUS_SEQUENCE, ", ") + ".")
    else if FirstDuplicate(departments).Some? then Some("Duplicate Department: " + FirstDuplicate(departments).value + ".")
    else if FirstDuplicate(storages).Some? then Some("Duplicate Storage Area: " + FirstDuplicate(storages).value + ".")
    else if FirstDuplicate(categories).Some? then Some("Duplicate Product Category: " + FirstDuplicate(categories).value + ".")
    else None
  }

  // ---------------------------------------------------------------------
  // Counting tasks
  // ---------------------------------------------------------------------

  /** `_build_storage_map`: storages grouped by their department, the department-less ones apart. */
  function StorageMap(locations: seq<string>, storageDept: map<string, string>): (r: Result<(map<string, seq<string>>, seq<string>)>)
    ensures r.Ok? <==> forall i :: 0 <= i < |locations| && locations[i] != "" ==> locations[i] in storageDept
    ensures r.Ok? ==> "" !in r.value.0
    ensures r.Ok? ==> forall s :: s in r.value.1 ==> s in locations && s in storageDept && storageDept[s] == ""
    decreases |locations|
  {
    if |locations| == 0 then Ok((map[], []))
    else
      var n := |locations| - 1;
      var front := StorageMap(locations[..n], storageDept);
      assert forall i :: 0 <= i < n ==> locations[..n][i] == locations[i];
      if front.Err? then front
      else
        var s := locations[n];
        if s == "" then front
        else if s !in storageDept then Err("Storage Area " + s + " not found")
        else
          var (m, general) := front.value;
          var d := storageDept[s];
          if d != "" then Ok((m[d := (if d in m then m[d] else []) + [s]], general))
          else Ok((m, general + [s]))
  }

  /** The non-empty storage areas belonging to department `d`, in the order listed. */
  function AreasOf(locations: seq<string>, storageDept: map<string, string>, d: string): seq<string>
    decreases |locations|
  {
    if |locations| == 0 then []
    else
      var n := |locations| - 1;
      var s := locations[n];
      AreasOf(locations[..n], storageDept, d) + (if s != "" && s in storageDept && storageDept[s] == d then [s] else [])
  }

  /**
   * The grouping `_build_storage_map` produces: each department maps to its
   * storage areas in the order listed, and the department-less ones form the
   * general list.
   */
  lemma {:induction false} StorageMapGroups(locations: seq<string>, storageDept: map<string, string>)
    requires StorageMap(locations, storageDept).Ok?
    ensures var (m, general) := StorageMap(locations, storageDept).value;
      general == AreasOf(locations, storageDept, "") &&
      (forall d :: d in m <==> d != "" && AreasOf(locations, storageDept, d) != []) &&
      (forall d :: d in m ==> m[d] == AreasOf(locations, storageDept, d))
    decreases |locations|
  {
    if |locations| > 0 {
      var n := |locations| - 1;
      StorageMapGroups(locations[..n], storageDept);
    }
  }

  /** `_get_distinct_categories`: the non-empty categories, distinct and sorted. */
  function DistinctCategories(categories: seq<string>): (r: seq<string>)
    ensures StrictlySorted(r)
    ensures forall c :: c in r <==> c != "" && c in categories
  {
    SortedSet(NonEmpty(categories))
  }

  function NonEmpty(values: seq<string>): (r: seq<string>)
    ensures forall v :: v in r <==> v != "" && v in values
  {
    if |values| == 0 then []
    else (if values[0] != "" then [values[0]] else []) + NonEmpty(values[1..])
  }

  function Optional(values: seq<string>): (r: seq<Option<string>>)
    ensures |r| == |values| && forall i :: 0 <= i < |values| ==> r[i] == Some(values[i])
  {
    seq(|values|, i requires 0 <= i < |values| => Some(values[i]))
  }

  /** A list of slots, with `[None]` standing in for an empty one. */
  function Slots(values: seq<string>): (r: seq<Option<string>>)
    ensures |r| >= 1
    ensures values == [] ==> r == [None]
    ensures values != [] ==> |r| == |values| && forall i :: 0 <= i < |values| ==> r[i] == Some(values[i])
  {
    if values == [] then [None] else Optional(values)
  }

  /** One task per category slot for a department and storage slot. */
  function RowTasks(department: string, storage: Option<string>, categories: seq<Option<string>>): (r: seq<Task>)
    ensures |r| == |categories|
    ensures forall k :: 0 <= k < |r| ==> r[k] == Task(department, storage, categories[k], PENDING)
  {
    if |categories| == 0 then []
    else
      var n := |categories| - 1;
      RowTasks(department, storage, categories[..n]) + [Task(department, storage, categories[n], PENDING)]
  }

  /** The storage-by-category block of one department, storages outermost. */
  function Cross(department: string, storages: seq<Option<string>>, categories: seq<Option<string>>): seq<Task>
  {
    if |storages| == 0 then []
    else
      var n := |storages| - 1;
      Cross(department, storages[..n], categories) + RowTasks(department, storages[n], categories)
  }

  /**
   * The tasks `create_counting_tasks` appends for the remaining departments.
   * The storage list a department finds in the map is extended in place with
   * the general storages, so a repeated department sees them again.
   */
  function TaskPlan(departments: seq<string>, storageMap: map<string, seq<string>>, general: seq<string>,
                    categories: seq<Option<string>>): seq<Task>
    decreases |departments|
  {
    if |departments| == 0 then []
    else
      var d := departments[0];
      Cross(d, Slots(StoragesFor(storageMap, general, d)), categories) +
      TaskPlan(departments[1..], MapAfter(storageMap, general, d), general, categories)
  }

  /** The storage-by-category loops of `create_counting_tasks` for one department. */
  method DepartmentTasks(department: string, slots: seq<Option<string>>, categories: seq<Option<string>>) returns (block: seq<Task>)
    ensures block == Cross(department, slots, categories)
  {
    block := [];
    var j := 0;
    while j < |slots|
      invariant 0 <= j <= |slots|
      invariant block == Cross(department, slots[..j], categories)
    {
      var row := SlotTasks(department, slots[j], categories);
      block := block + row;
      assert slots[..j + 1][..j] == slots[..j];
      j := j + 1;
    }
    assert slots[..j] == slots;
  }

  /** The inner, per-category loop of `create_counting_tasks` for one storage slot. */
  method SlotTasks(department: string, slot: Option<string>, categories: seq<Option<string>>) returns (row: seq<Task>)
    ensures row == RowTasks(department, slot, categories)
  {
    row := [];
    var c := 0;
    while c < |categories|
      invariant 0 <= c <= |categories|
      invariant row == RowTasks(department, slot, categories[..c])
    {
      row := row + [Task(department, slot, categories[c], PENDING)];
      assert categories[..c + 1][..c] == categories[..c];
      c := c + 1;
    }
    assert categories[..c] == categories;
  }

  /** The storage list a department sees, and the map after it has been extended in place. */
  function StoragesFor(storageMap: map<string, seq<string>>, general: seq<string>, d: string): seq<string>
  {
    (if d in storageMap then storageMap[d] else []) + general
  }

  function MapAfter(storageMap: map<string, seq<string>>, general: seq<string>, d: string): map<string, seq<string>>
  {
    if d in storageMap then storageMap[d := StoragesFor(storageMap, general, d)] else storageMap
  }

  /** One department of the plan: its block, then the plan for the rest over the extended map. */
  lemma PlanStep(departments: seq<string>, i: nat, storageMap: map<string, seq<string>>, general: seq<string>,
                 cats: seq<Option<string>>, acc: seq<Task>, target: seq<Task>)
    requires i < |departments|
    requires acc + TaskPlan(departments[i..], storageMap, general, cats) == target
    ensures var d := departments[i];
      (acc + Cross(d, Slots(StoragesFor(storageMap, general, d)), cats)) +
      TaskPlan(departments[i + 1..], MapAfter(storageMap, general, d), general, cats) == target
  {
    assert departments[i..][1..] == departments[i + 1..];
  }

  /** The department loop of `create_counting_tasks`, extending the storage map's lists as it goes. */
  method PlanTasks(departments: seq<string>, storageMap0: map<string, seq<string>>, general: seq<string>,
                   cats: seq<Option<string>>) returns (acc: seq<Task>)
    ensures acc == TaskPlan(departments, storageMap0, general, cats)
  {
    acc := [];
    var storageMap := storageMap0;
    var i := 0;
    assert departments[i..] == departments;
    while i < |departments|
      invariant 0 <= i <= |departments|
      invariant acc + TaskPlan(departments[i..], storageMap, general, cats) == TaskPlan(departments, storageMap0, general, cats)
    {
      var d := departments[i];
      var storages := (if d in storageMap then storageMap[d] else []) + general;
      PlanStep(departments, i, storageMap, general, cats, acc, TaskPlan(departments, storageMap0, general, cats));
      var block := DepartmentTasks(d, Slots(storages), cats);
      acc := acc + block;
      if d in storageMap {
        storageMap := storageMap[d := storages];
      }
      i := i + 1;
    }
    assert departments[i..] == [];
  }

  // ---------------------------------------------------------------------
  // Closing
  // ---------------------------------------------------------------------

  /** The line's quantity (or 0) in its product's primary unit. */
  function LineQuantity(line: AuditLine, convert: ProductDoc.Converter): Result<real>
  {
    convert(line.product, line.unit, OrZero(line.quantity))
  }

  /** The line's own department, else its storage area's department, else none (""). */
  function LineDepartment(line: AuditLine, storageDept: map<string, string>): (r: Result<string>)
    ensures line.department != "" ==> r == Ok(line.department)
    ensures r.Err? <==> line.department == "" && line.storageArea != "" && line.storageArea !in storageDept
  {
    if line.department != "" then Ok(line.department)
    else if line.storageArea != "" then
      if line.storageArea in storageDept then Ok(storageDept[line.storageArea])
      else Err("Storage Area " + line.storageArea + " not found")
    else Ok("")
  }

  /** One step of the closing loop: the updated line and the department its count goes to. */
  function CloseLine(line: AuditLine, convert: ProductDoc.Converter, storageDept: map<string, string>): (r: Result<(AuditLine, string)>)
    ensures line.product == "" ==> r.Err?
    ensures r.Ok? ==> var (l, d) := r.value;
      d != "" && l.product == line.product && LineQuantity(line, convert) == Ok(l.quantityPrimary) &&
      l.variance == l.quantityPrimary - OrZero(line.expectedQuantity) &&
      l == line.(quantityPrimary := l.quantityPrimary, variance := l.variance)
  {
    if line.product == "" then Err("Audit lines require a product.")
    else
      match LineDepartment(line, storageDept)
      case Err(e) => Err(e)
      case Ok(d) =>
        if d == "" then Err("Audit lines require a department.")
        else
          match LineQuantity(line, convert)
          case Err(e) => Err(e)
          case Ok(q) => Ok((line.(quantityPrimary := q, variance := q - OrZero(line.expectedQuantity)), d))
  }

  /** `totals[key] += q` on an insertion-ordered dictionary. */
  /** The keys of a totals table. */
  function KeysOf(totals: Totals): set<(string, string)>
  {
    if |totals| == 0 then {} else {totals[0].0} + KeysOf(totals[1..])
  }

  /** No key appears twice. */
  predicate DistinctKeys(totals: Totals)
  {
    |totals| == 0 || (totals[0].0 !in KeysOf(totals[1..]) && DistinctKeys(totals[1..]))
  }

  /** The quantity a totals table holds for a key, zero when absent. */
  function CountFor(totals: Totals, key: (string, string)): real
  {
    if |totals| == 0 then 0.0 else if totals[0].0 == key then totals[0].1 else CountFor(totals[1..], key)
  }

  /** The sum of the counted quantities in a totals table. */
  function TotalsSum(totals: Totals): real
  {
    if |totals| == 0 then 0.0 else totals[0].1 + TotalsSum(totals[1..])
  }

  /** `totals[key] += q` on an insertion-ordered dictionary. */
  function AddTo(totals: Totals, key: (string, string), q: real): Totals
  {
    if |totals| == 0 then [(key, q)]
    else if totals[0].0 == key then [(key, totals[0].1 + q)] + totals[1..]
    else [totals[0]] + AddTo(totals[1..], key, q)
  }

  /** A line's contribution to the audit's total value: unit cost (or 0) times the primary quantity. */
  function LineValue(l: AuditLine): real
  {
    OrZero(l.unitCost) * l.quantityPrimary
  }

  /** The tally after recording a closed line counted for department `d`. */
  function Record(t: Tally, l: AuditLine, d: string): (r: Tally)
    ensures |r.lines| == |t.lines| + 1 && r.lines[|t.lines|] == l
    ensures r.products == t.products + {l.product}
    ensures r.value == t.value + LineValue(l)
  {
    Tally(t.lines + [l], AddTo(t.totals, (l.product, d), l.quantityPrimary), t.products + {l.product}, t.value + LineValue(l))
  }

  /** Recording a line counted for `d` adds its quantity to that pair's total and leaves every other pair's. */
  lemma RecordCounts(t: Tally, l: AuditLine, d: string)
    ensures var r := Record(t, l, d);
      && KeysOf(r.totals) == KeysOf(t.totals) + {(l.product, d)}
      && CountFor(r.totals, (l.product, d)) == CountFor(t.totals, (l.product, d)) + l.quantityPrimary
      && (forall k :: k != (l.product, d) ==> CountFor(r.totals, k) == CountFor(t.totals, k))
  {
    AddToCounts(t.totals, (l.product, d), l.quantityPrimary);
  }

  /** One iteration of the closing loop. */
  function CloseStep(t: Tally, line: AuditLine, convert: ProductDoc.Converter, storageDept: map<string, string>): Result<Tally>
  {
    match CloseLine(line, convert, storageDept)
    case Err(e) => Err(e)
    case Ok((l, d)) => Ok(Record(t, l, d))
  }

  /** The closing loop over the lines, stopping at the first failing line. */
  function CloseAll(lines: seq<AuditLine>, convert: ProductDoc.Converter, storageDept: map<string, string>): (r: Result<Tally>)
    ensures r.Ok? ==> |r.value.lines| == |lines|
    decreases |lines|
  {
    if |lines| == 0 then Ok(Tally([], [], {}, 0.0))
    else
      var n := |lines| - 1;
      match CloseAll(lines[..n], convert, storageDept)
      case Err(e) => Err(e)
      case Ok(t) => CloseStep(t, lines[n], convert, storageDept)
  }

  /**
   * The adjustment rule of `generate_stock_ledger_entries`: counted minus the
   * current balance for each pair, skipping zero adjustments; a balance the
   * query cannot produce fails the whole close.
   */
  function Adjustments(totals: Totals, current: map<(string, string), real>): (r: Result<Totals>)
    ensures r.Ok? <==> KeysOf(totals) <= current.Keys
    ensures r.Ok? ==> KeysOf(r.value) <= KeysOf(totals)
  {
    if |totals| == 0 then Ok([])
    else
      var (key, counted) := totals[0];
      var rest := Adjustments(totals[1..], current);
      if key !in current then Err("Failed to generate Stock Ledger Entries: no balance for " + key.0 + "/" + key.1)
      else if rest.Err? then rest
      else
        var adjustment := counted - current[key];
        if adjustment == 0.0 then rest
        else
          var r := [(key, adjustment)] + rest.value;
          assert r[1..] == rest.value;
          Ok(r)
  }

  /** One iteration of `calculate_variance`: lines without a product pass through unchanged. */
  function VarianceStep(acc: (seq<AuditLine>, map<string, real>), line: AuditLine, convert: ProductDoc.Converter): (r: Result<(seq<AuditLine>, map<string, real>)>)
    ensures r.Ok? ==> |r.value.0| == |acc.0| + 1
    ensures r.Ok? && line.product == "" ==> r.value == (acc.0 + [line], acc.1)
    ensures r.Ok? && line.product != "" ==> line.product in r.value.1 && r.value.1.Keys == acc.1.Keys + {line.product}
  {
    var (ls, sums) := acc;
    if line.product == "" then Ok((ls + [line], sums))
    else
      match LineQuantity(line, convert)
      case Err(e) => Err(e)
      case Ok(q) =>
        var v := q - OrZero(line.expectedQuantity);
        Ok((ls + [line.(variance := v)], sums[line.product := (if line.product in sums then sums[line.product] else 0.0) + v]))
  }

  /** `calculate_variance` over the lines: rewritten lines and per-product sums. */
  function VarianceAll(lines: seq<AuditLine>, convert: ProductDoc.Converter): (r: Result<(seq<AuditLine>, map<string, real>)>)
    ensures r.Ok? ==> |r.value.0| == |lines|
    ensures r.Ok? ==> forall p :: p in r.value.1 ==> p != ""
    decreases |lines|
  {
    if |lines| == 0 then Ok(([], map[]))
    else
      var n := |lines| - 1;
      match VarianceAll(lines[..n], convert)
      case Err(e) => Err(e)
      case Ok(acc) => VarianceStep(acc, lines[n], convert)
  }

  /** The sum of the variances of the lines of product `p`. */
  function SumVariance(ls: seq<AuditLine>, p: string): real
  {
    if |ls| == 0 then 0.0
    else SumVariance(ls[..|ls| - 1], p) + (if ls[|ls| - 1].product == p then ls[|ls| - 1].variance else 0.0)
  }

  /** What `calculate_variance` leaves in line `i`: lines without a product are kept, the others get counted minus expected. */
  predicate RewrittenLine(line: AuditLine, out: AuditLine, convert: ProductDoc.Converter)
  {
    if line.product == "" then out == line
    else
      && LineQuantity(line, convert).Ok?
      && out == line.(variance := LineQuantity(line, convert).value - OrZero(line.expectedQuantity))
  }

  lemma SumVarianceSnoc(ls: seq<AuditLine>, x: AuditLine, p: string)
    ensures SumVariance(ls + [x], p) == SumVariance(ls, p) + (if x.product == p then x.variance else 0.0)
  {
    assert (ls + [x])[..|ls|] == ls;
  }

  /**
   * `calculate_variance` fails exactly when some line with a product cannot
   * be converted; otherwise every line is rewritten as `RewrittenLine` says,
   * the products with a sum are exactly the non-empty products of the lines,
   * and each sum is the sum of that product's line variances.
   */
  lemma VarianceAllMeans(lines: seq<AuditLine>, convert: ProductDoc.Converter)
    ensures var r := VarianceAll(lines, convert);
      r.Err? <==> exists i :: 0 <= i < |lines| && lines[i].product != "" && LineQuantity(lines[i], convert).Err?
    ensures var r := VarianceAll(lines, convert);
      r.Ok? ==> forall i :: 0 <= i < |lines| ==> RewrittenLine(lines[i], r.value.0[i], convert)
    ensures var r := VarianceAll(lines, convert);
      r.Ok? ==> forall p :: p in r.value.1 <==> p != "" && exists i :: 0 <= i < |lines| && lines[i].product == p
    ensures var r := VarianceAll(lines, convert);
      r.Ok? ==> forall p :: p != "" ==> SumVariance(r.value.0, p) == (if p in r.value.1 then r.value.1[p] else 0.0)
  {
    VarianceFails(lines, convert);
    VarianceLines(lines, convert);
    VarianceKeys(lines, convert);
    VarianceSums(lines, convert);
  }

  lemma {:induction false} VarianceFails(lines: seq<AuditLine>, convert: ProductDoc.Converter)
    ensures VarianceAll(lines, convert).Err? <==>
      exists i :: 0 <= i < |lines| && lines[i].product != "" && LineQuantity(lines[i], convert).Err?
    decreases |lines|
  {
    if |lines| > 0 {
      var n := |lines| - 1;
      var prefix := lines[..n];
      VarianceFails(prefix, convert);
      assert forall i :: 0 <= i < n ==> prefix[i] == lines[i];
      match VarianceAll(prefix, convert)
      case Err(_) =>
      case Ok(acc) =>
        VarianceStepMeans(acc, lines[n], convert);
    }
  }

  lemma {:induction false} VarianceLines(lines: seq<AuditLine>, convert: ProductDoc.Converter)
    ensures var r := VarianceAll(lines, convert);
      r.Ok? ==> forall i :: 0 <= i < |lines| ==> RewrittenLine(lines[i], r.value.0[i], convert)
    decreases |lines|
  {
    if |lines| > 0 {
      var n := |lines| - 1;
      var prefix := lines[..n];
      VarianceLines(prefix, convert);
      assert forall i :: 0 <= i < n ==> prefix[i] == lines[i];
      match VarianceAll(prefix, convert)
      case Err(_) =>
      case Ok(acc) =>
        VarianceStepMeans(acc, lines[n], convert);
    }
  }

  lemma {:induction false} VarianceKeys(lines: seq<AuditLine>, convert: ProductDoc.Converter)
    ensures var r := VarianceAll(lines, convert);
      r.Ok? ==> forall p :: p in r.value.1 <==> p != "" && exists i :: 0 <= i < |lines| && lines[i].product == p
    decreases |lines|
  {
    if |lines| > 0 {
      var n := |lines| - 1;
      var prefix := lines[..n];
      VarianceKeys(prefix, convert);
      assert forall i :: 0 <= i < n ==> prefix[i] == lines[i];
      match VarianceAll(prefix, convert)
      case Err(_) =>
      case Ok(acc) =>
        VarianceStepMeans(acc, lines[n], convert);
        var r := VarianceStep(acc, lines[n], convert);
        if r.Ok? {
          forall p | p != "" && exists i :: 0 <= i < |lines| && lines[i].product == p ensures p in r.value.1 {
            var i :| 0 <= i < |lines| && lines[i].product == p;
            if i < n { assert prefix[i].product == p; }
          }
        }
    }
  }

  lemma {:induction false} VarianceSums(lines: seq<AuditLine>, convert: ProductDoc.Converter)
    ensures var r := VarianceAll(lines, convert);
      r.Ok? ==> forall p :: p != "" ==> SumVariance(r.value.0, p) == (if p in r.value.1 then r.value.1[p] else 0.0)
    decreases |lines|
  {
    if |lines| > 0 {
      var n := |lines| - 1;
      VarianceSums(lines[..n], convert);
      match VarianceAll(lines[..n], convert)
      case Err(_) =>
      case Ok(acc) =>
        VarianceStepMeans(acc, lines[n], convert);
        var r := VarianceStep(acc, lines[n], convert);
        if r.Ok? {
          forall p | p != "" ensures SumVariance(r.value.0, p) == (if p in r.value.1 then r.value.1[p] else 0.0) {
            SumVarianceSnoc(acc.0, r.value.0[|acc.0|], p);
          }
        }
    }
  }

  /** One step of `calculate_variance`, stated for `VarianceAllMeans`. */
  lemma VarianceStepMeans(acc: (seq<AuditLine>, map<string, real>), line: AuditLine, convert: ProductDoc.Converter)
    ensures var r := VarianceStep(acc, line, convert);
      && (r.Err? <==> line.product != "" && LineQuantity(line, convert).Err?)
      && (r.Ok? ==> r.value.0 == acc.0 + [r.value.0[|acc.0|]] && RewrittenLine(line, r.value.0[|acc.0|], convert))
      && (r.Ok? ==> r.value.1.Keys == acc.1.Keys + (if line.product == "" then {} else {line.product}))
      && (r.Ok? && line.product != "" ==>
            r.value.1[line.product] == (if line.product in acc.1 then acc.1[line.product] else 0.0) + r.value.0[|acc.0|].variance)
      && (r.Ok? ==> forall p :: p in acc.1 && p != line.product ==> r.value.1[p] == acc.1[p])
      && (r.Ok? ==> r.value.0[|acc.0|].product == line.product)
  {
  }

  /** A closing failure on a prefix of the lines is a failure of the whole close. */
  lemma {:induction false} CloseAllErrExtends(lines: seq<AuditLine>, i: nat, convert: ProductDoc.Converter,
                                              storageDept: map<string, string>)
    requires i <= |lines| && CloseAll(lines[..i], convert, storageDept).Err?
    ensures CloseAll(lines, convert, storageDept) == CloseAll(lines[..i], convert, storageDept)
    decreases |lines| - i
  {
    if i == |lines| {
      assert lines[..i] == lines;
    } else {
      assert lines[..i + 1][..i] == lines[..i];
      CloseAllErrExtends(lines, i + 1, convert, storageDept);
    }
  }

  /** A variance failure on a prefix of the lines is a failure of the whole computation. */
  lemma {:induction false} VarianceErrExtends(lines: seq<AuditLine>, i: nat, convert: ProductDoc.Converter)
    requires i <= |lines| && VarianceAll(lines[..i], convert).Err?
    ensures VarianceAll(lines, convert) == VarianceAll(lines[..i], convert)
    decreases |lines| - i
  {
    if i == |lines| {
      assert lines[..i] == lines;
    } else {
      assert lines[..i + 1][..i] == lines[..i];
      VarianceErrExtends(lines, i + 1, convert);
    }
  }

  lemma CloseAllSnoc(lines: seq<AuditLine>, i: nat, convert: ProductDoc.Converter, storageDept: map<string, string>, t: Tally)
    requires i < |lines| && CloseAll(lines[..i], convert, storageDept) == Ok(t)
    ensures CloseAll(lines[..i + 1], convert, storageDept) == CloseStep(t, lines[i], convert, storageDept)
  {
    assert lines[..i + 1][..i] == lines[..i];
  }

  /** The next line either fails the whole closing loop with its error or is recorded in the tally. */
  lemma CloseNext(lines: seq<AuditLine>, i: nat, convert: ProductDoc.Converter, storageDept: map<string, string>, t: Tally)
    requires i < |lines| && CloseAll(lines[..i], convert, storageDept) == Ok(t)
    ensures var step := CloseLine(lines[i], convert, storageDept);
      && (step.Err? ==> CloseAll(lines, convert, storageDept) == Err(step.error))
      && (step.Ok? ==> CloseAll(lines[..i + 1], convert, storageDept) == Ok(Record(t, step.value.0, step.value.1)))
  {
    CloseAllSnoc(lines, i, convert, storageDept, t);
    if CloseLine(lines[i], convert, storageDept).Err? {
      CloseAllErrExtends(lines, i + 1, convert, storageDept);
    }
  }

  /** The closing loop of `close_audit`. */
  method TallyLines(lines: seq<AuditLine>, convert: ProductDoc.Converter, storageDept: map<string, string>)
    returns (r: Result<Tally>)
    ensures r == CloseAll(lines, convert, storageDept)
  {
    var tally := Tally([], [], {}, 0.0);
    var i := 0;
    while i < |lines|
      invariant 0 <= i <= |lines|
      invariant CloseAll(lines[..i], convert, storageDept) == Ok(tally)
    {
      var step := CloseLine(lines[i], convert, storageDept);
      CloseNext(lines, i, convert, storageDept, tally);
      if step.Err? {
        return Err(step.error);
      }
      var (l, d) := step.value;
      tally := Record(tally, l, d);
      i := i + 1;
    }
    assert lines[..i] == lines;
    r := Ok(tally);
  }

  /** The loop of `calculate_variance`. */
  method Variances(lines: seq<AuditLine>, convert: ProductDoc.Converter)
    returns (r: Result<(seq<AuditLine>, map<string, real>)>)
    ensures r == VarianceAll(lines, convert)
  {
    var rewritten: seq<AuditLine> := [];
    var sums: map<string, real> := map[];
    var i := 0;
    while i < |lines|
      invariant 0 <= i <= |lines|
      invariant VarianceAll(lines[..i], convert) == Ok((rewritten, sums))
    {
      assert lines[..i + 1][..i] == lines[..i];
      ghost var before := (rewritten, sums);
      assert VarianceAll(lines[..i + 1], convert) == VarianceStep(before, lines[i], convert);
      var line := lines[i];
      if line.product != "" {
        var q := LineQuantity(line, convert);
        if q.Err? {
          VarianceErrExtends(lines, i + 1, convert);
          return Err(q.error);
        }
        var v := q.value - OrZero(line.expectedQuantity);
        rewritten := rewritten + [line.(variance := v)];
        sums := sums[line.product := (if line.product in sums then sums[line.product] else 0.0) + v];
      } else {
        rewritten := rewritten + [line];
      }
      assert VarianceStep(before, line, convert) == Ok((rewritten, sums));
      i := i + 1;
    }
    assert lines[..i] == lines;
    r := Ok((rewritten, sums));
  }

  // ---------------------------------------------------------------------
  // The document
  // ---------------------------------------------------------------------

  class Audit {
    var status: string
    var company: string
    var departments: seq<string>
    var storageLocations: seq<string>
    var categories: seq<string>
    var tasks: seq<Task>
    var lines: seq<AuditLine>
    var totalProductsCounted: nat
    var totalValue: real
    var closedBy: string
    var closedAt: int

    method MarkInProgress()
      modifies this`status
      ensures old(status) in {"Setup", "Ready"} ==> status == "In Progress"
      ensures old(status) !in {"Setup", "Ready"} ==> status == old(status)
    {
      if status !in {"Setup", "Ready"} {
        return;
      }
      status := "In Progress";
    }

    method MarkReview()
      modifies this`status
      ensures old(status) in {"Ready", "In Progress"} ==> status == "Review"
      ensures old(status) !in {"Ready", "In Progress"} ==> status == old(status)
    {
      if status !in {"Ready", "In Progress"} {
        return;
      }
      status := "Review";
    }

    /** `create_counting_tasks`: replace the tasks with the scope matrix and move Setup to Ready. */
    method CreateCountingTasks(storageDept: map<string, string>) returns (err: Option<string>)
      modifies this`tasks, this`status
      ensures var built := StorageMap(storageLocations, storageDept);
        err.None? <==> |departments| > 0 && built.Ok?
      ensures err.Some? ==> tasks == old(tasks) && status == old(status)
      ensures err.None? ==>
        var built := StorageMap(storageLocations, storageDept).value;
        tasks == TaskPlan(departments, built.0, built.1, Slots(DistinctCategories(categories)))
      ensures err.None? ==> status == (if old(status) == "Setup" then "Ready" else old(status))
    {
      if |departments| == 0 {
        return Some("Add at least one department before creating counting tasks.");
      }
      var built := StorageMap(storageLocations, storageDept);
      if built.Err? {
        return Some(built.error);
      }
      var storageMap := built.value.0;
      var general := built.value.1;
      var cats := Slots(DistinctCategories(categories));
      var acc := PlanTasks(departments, storageMap, general, cats);
      tasks := acc;
      assert tasks == TaskPlan(departments, built.value.0, built.value.1, Slots(DistinctCategories(categories)));
      if status == "Setup" {
        status := "Ready";
      }
      err := None;
    }

    /** `close_audit`: tally the lines, derive the ledger adjustments and mark the audit Closed. */
    method CloseAudit(products: map<string, ProductDoc.UnitFields>, storageDept: map<string, string>,
                      current: map<(string, string), real>, user: string, sessionUser: string, now: int)
      returns (err: Option<string>, adjustments: Totals)
      modifies this`lines, this`totalProductsCounted, this`totalValue, this`closedBy, this`closedAt, this`status
      ensures var t := CloseAll(old(lines), ProductDoc.PrimaryConverter(products), storageDept);
        err.None? <==> (old(status) in {"Review", "In Progress", "Ready"} && t.Ok? && Adjustments(t.value.totals, current).Ok?)
      ensures err.Some? ==> (lines == old(lines) && status == old(status) && totalValue == old(totalValue) &&
                             totalProductsCounted == old(totalProductsCounted))
      ensures err.None? ==>
        var t := CloseAll(old(lines), ProductDoc.PrimaryConverter(products), storageDept).value;
        lines == t.lines && totalProductsCounted == |t.products| && totalValue == t.value &&
        adjustments == Adjustments(t.totals, current).value &&
        closedBy == (if user != "" then user else sessionUser) && closedAt == now && status == "Closed"
    {
      adjustments := [];
      if status !in {"Review", "In Progress", "Ready"} {
        return Some(NOT_CLOSABLE), [];
      }
      var tally := TallyLines(lines, ProductDoc.PrimaryConverter(products), storageDept);
      if tally.Err? {
        return Some(tally.error), [];
      }
      var adjusted := Adjustments(tally.value.totals, current);
      if adjusted.Err? {
        return Some(adjusted.error), [];
      }
      adjustments := adjusted.value;
      lines := tally.value.lines;
      totalProductsCounted := |tally.value.products|;
      totalValue := tally.value.value;
      closedBy := if user != "" then user else sessionUser;
      closedAt := now;
      status := "Closed";
      err := None;
    }

    /** `calculate_variance`: rewrite each line's variance and return the per-product sums. */
    method CalculateVariance(products: map<string, ProductDoc.UnitFields>) returns (err: Option<string>, variances: map<string, real>)
      modifies this`lines
      ensures var r := VarianceAll(old(lines), ProductDoc.PrimaryConverter(products));
        (err.None? <==> r.Ok?) &&
        (r.Ok? ==> lines == r.value.0 && variances == r.value.1) &&
        (r.Err? ==> lines == old(lines))
      ensures err.None? ==> forall i :: 0 <= i < |old(lines)| ==>
        RewrittenLine(old(lines)[i], lines[i], ProductDoc.PrimaryConverter(products))
      ensures err.None? ==> forall p :: p in variances <==> p != "" && exists i :: 0 <= i < |old(lines)| && old(lines)[i].product == p
      ensures err.None? ==> forall p :: p in variances ==> variances[p] == SumVariance(lines, p)
    {
      VarianceAllMeans(lines, ProductDoc.PrimaryConverter(products));
      var r := Variances(lines, ProductDoc.PrimaryConverter(products));
      if r.Err? {
        return Some(r.error), map[];
      }
      lines := r.value.0;
      variances := r.value.1;
      err := None;
    }
  }

  // ---------------------------------------------------------------------
  // Properties
  // ---------------------------------------------------------------------

  /** Every status transition keeps the audit inside the six known statuses. */
  lemma TransitionsStayKnown(s: string)
    requires s in STATUS_SEQUENCE
    ensures (if s in {"Setup", "Ready"} then "In Progress" else s) in STATUS_SEQUENCE
    ensures (if s in {"Ready", "In Progress"} then "Review" else s) in STATUS_SEQUENCE
    ensures (if s == "Setup" then "Ready" else s) in STATUS_SEQUENCE
    ensures "Closed" in STATUS_SEQUENCE
  {
  }

  /** Adding to one pair keeps the keys distinct, grows that pair's count by `q` and leaves the others. */
  lemma {:induction false} AddToFacts(totals: Totals, key: (string, string), q: real)
    requires DistinctKeys(totals)
    ensures KeysOf(AddTo(totals, key, q)) == KeysOf(totals) + {key}
    ensures DistinctKeys(AddTo(totals, key, q))
    ensures TotalsSum(AddTo(totals, key, q)) == TotalsSum(totals) + q
    ensures CountFor(AddTo(totals, key, q), key) == CountFor(totals, key) + q
    ensures forall k :: k != key ==> CountFor(AddTo(totals, key, q), k) == CountFor(totals, k)
  {
    if |totals| == 0 {
    } else if totals[0].0 == key {
      var r := AddTo(totals, key, q);
      assert r[1..] == totals[1..];
      CountAbsent(totals[1..], key);
    } else {
      AddToFacts(totals[1..], key, q);
      var r := AddTo(totals, key, q);
      assert r[1..] == AddTo(totals[1..], key, q);
    }
  }

  /** Adding to one pair adds that key, grows its count by `q` and leaves the other counts. */
  lemma {:induction false} AddToCounts(totals: Totals, key: (string, string), q: real)
    ensures KeysOf(AddTo(totals, key, q)) == KeysOf(totals) + {key}
    ensures CountFor(AddTo(totals, key, q), key) == CountFor(totals, key) + q
    ensures forall k :: k != key ==> CountFor(AddTo(totals, key, q), k) == CountFor(totals, k)
  {
    if |totals| > 0 {
      var r := AddTo(totals, key, q);
      if totals[0].0 == key {
        assert r[1..] == totals[1..];
      } else {
        AddToCounts(totals[1..], key, q);
        assert r[1..] == AddTo(totals[1..], key, q);
      }
    }
  }

  /** A key outside the table counts zero. */
  lemma {:induction false} CountAbsent(totals: Totals, key: (string, string))
    requires key !in KeysOf(totals)
    ensures CountFor(totals, key) == 0.0
  {
    if |totals| > 0 {
      CountAbsent(totals[1..], key);
    }
  }

  /** The products of a run of lines. */
  function ProductsOf(lines: seq<AuditLine>): set<string>
  {
    if |lines| == 0 then {} else ProductsOf(lines[..|lines| - 1]) + {lines[|lines| - 1].product}
  }

  function QuantitySum(lines: seq<AuditLine>): real
  {
    if |lines| == 0 then 0.0 else QuantitySum(lines[..|lines| - 1]) + lines[|lines| - 1].quantityPrimary
  }

  /**
   * The closing tally: one total per distinct (product, department) pair,
   * summing to the lines' primary quantities; the products counted are those
   * of the lines.
   */
  lemma {:induction false} TallyFacts(lines: seq<AuditLine>, convert: ProductDoc.Converter, storageDept: map<string, string>)
    requires CloseAll(lines, convert, storageDept).Ok?
    ensures var t := CloseAll(lines, convert, storageDept).value;
      DistinctKeys(t.totals) && TotalsSum(t.totals) == QuantitySum(t.lines) && t.products == ProductsOf(lines)
    decreases |lines|
  {
    if |lines| > 0 {
      var n := |lines| - 1;
      TallyFacts(lines[..n], convert, storageDept);
      var t := CloseAll(lines[..n], convert, storageDept).value;
      var (l, d) := CloseLine(lines[n], convert, storageDept).value;
      assert CloseAll(lines, convert, storageDept) == CloseStep(t, lines[n], convert, storageDept);
      var r := CloseAll(lines, convert, storageDept).value;
      assert r.lines == t.lines + [l] && r.totals == AddTo(t.totals, (l.product, d), l.quantityPrimary) &&
        r.products == t.products + {l.product};
      AddToFacts(t.totals, (l.product, d), l.quantityPrimary);
      assert (t.lines + [l])[..|t.lines|] == t.lines;
    }
  }

  /** Posting every adjustment brings each counted pair's balance to its count. */
  lemma {:induction false} AdjustmentsReachCount(totals: Totals, current: map<(string, string), real>, key: (string, string))
    requires DistinctKeys(totals)
    requires Adjustments(totals, current).Ok? && key in KeysOf(totals)
    ensures current[key] + CountFor(Adjustments(totals, current).value, key) == CountFor(totals, key)
  {
    var rest := Adjustments(totals[1..], current).value;
    if totals[0].0 == key {
      CountAbsent(totals[1..], key);
      KeysOfAdjustments(totals[1..], current, key);
      CountAbsent(rest, key);
    } else {
      AdjustmentsReachCount(totals[1..], current, key);
    }
  }

  lemma KeysOfAdjustments(totals: Totals, current: map<(string, string), real>, key: (string, string))
    requires Adjustments(totals, current).Ok? && key !in KeysOf(totals)
    ensures key !in KeysOf(Adjustments(totals, current).value)
  {
  }

  /** Adjustments are never zero. */
  lemma {:induction false} AdjustmentsNonZero(totals: Totals, current: map<(string, string), real>)
    requires Adjustments(totals, current).Ok?
    ensures forall i :: 0 <= i < |Adjustments(totals, current).value| ==> Adjustments(totals, current).value[i].1 != 0.0
  {
    if |totals| > 0 {
      AdjustmentsNonZero(totals[1..], current);
    }
  }

  /** The number of tasks each department contributes, summed. */
  function PlanSize(departments: seq<string>, storageMap: map<string, seq<string>>, general: seq<string>, perSlot: nat): nat
    decreases |departments|
  {
    if |departments| == 0 then 0
    else
      var d := departments[0];
      |Slots((if d in storageMap then storageMap[d] else []) + general)| * perSlot + PlanSize(departments[1..], storageMap, general, perSlot)
  }

  lemma {:induction false} SizeIgnoresOthers(departments: seq<string>, a: map<string, seq<string>>, b: map<string, seq<string>>,
                                             general: seq<string>, perSlot: nat, d: string)
    requires d !in departments
    requires b == a || (d in a && d in b && b == a[d := b[d]])
    ensures PlanSize(departments, a, general, perSlot) == PlanSize(departments, b, general, perSlot)
    decreases |departments|
  {
    if |departments| > 0 {
      assert departments[0] != d;
      SizeIgnoresOthers(departments[1..], a, b, general, perSlot, d);
    }
  }

  /** With distinct departments the task plan is the plain per-department matrix. */
  lemma {:induction false} PlanCount(departments: seq<string>, storageMap: map<string, seq<string>>, general: seq<string>,
                                     categories: seq<Option<string>>)
    requires forall i, j :: 0 <= i < j < |departments| ==> departments[i] != departments[j]
    ensures |TaskPlan(departments, storageMap, general, categories)| == PlanSize(departments, storageMap, general, |categories|)
    decreases |departments|
  {
    if |departments| > 0 {
      var d := departments[0];
      var storages := (if d in storageMap then storageMap[d] else []) + general;
      var next := if d in storageMap then storageMap[d := storages] else storageMap;
      var rest := departments[1..];
      assert forall i, j :: 0 <= i < j < |rest| ==> rest[i] != rest[j] by {
        forall i, j | 0 <= i < j < |rest| ensures rest[i] != rest[j] {
          assert rest[i] == departments[i + 1] && rest[j] == departments[j + 1];
        }
      }
      assert d !in rest;
      PlanCount(rest, next, general, categories);
      CrossCount(d, Slots(storages), categories);
      SizeIgnoresOthers(rest, storageMap, next, general, |categories|, d);
    }
  }

  /** One department's block holds a task per storage slot and category slot. */
  lemma {:induction false} CrossCount(d: string, storages: seq<Option<string>>, categories: seq<Option<string>>)
    ensures |Cross(d, storages, categories)| == |storages| * |categories|
    decreases |storages|
  {
    if |storages| > 0 {
      CrossCount(d, storages[..|storages| - 1], categories);
    }
  }

  /** Two departments, one own storage each plus a general one, and two categories give eight tasks. */
  lemma EightTasks()
    ensures |TaskPlan(["A", "B"], map["A" := ["dry"], "B" := ["cooler"]], ["general"], Slots(["beer", "wine"]))| == 8
  {
    var m := map["A" := ["dry"], "B" := ["cooler"]];
    PlanCount(["A", "B"], m, ["general"], Slots(["beer", "wine"]));
    assert ["A", "B"][1..] == ["B"];
    assert PlanSize(["B"], m, ["general"], 2) == 4;
  }

  /** Every task the plan produces is pending, for a listed department, with a listed category slot. */
  lemma {:induction false} PlanTasksWellFormed(departments: seq<string>, storageMap: map<string, seq<string>>, general: seq<string>,
                                               categories: seq<Option<string>>)
    ensures forall t :: t in TaskPlan(departments, storageMap, general, categories) ==>
      t.status == PENDING && t.department in departments && t.category in categories
    decreases |departments|
  {
    if |departments| > 0 {
      var d := departments[0];
      var storages := (if d in storageMap then storageMap[d] else []) + general;
      var next := if d in storageMap then storageMap[d := storages] else storageMap;
      PlanTasksWellFormed(departments[1..], next, general, categories);
      CrossWellFormed(d, Slots(storages), categories);
      forall t | t in TaskPlan(departments[1..], next, general, categories) ensures t.department in departments {
        var k :| 0 <= k < |departments[1..]| && departments[1..][k] == t.department;
        assert departments[k + 1] == t.department;
      }
    }
  }

  lemma {:induction false} CrossWellFormed(d: string, storages: seq<Option<string>>, categories: seq<Option<string>>)
    ensures forall t :: t in Cross(d, storages, categories) ==>
      t.status == PENDING && t.department == d && t.category in categories && t.storageArea in storages
    decreases |storages|
  {
    if |storages| > 0 {
      var n := |storages| - 1;
      CrossWellFormed(d, storages[..n], categories);
      forall t | t in Cross(d, storages[..n], categories) ensures t.storageArea in storages {
        var k :| 0 <= k < n && storages[..n][k] == t.storageArea;
        assert storages[k] == t.storageArea;
      }
    }
  }
}
