// The Product document: its own (older) conversion helpers, which lower-case
// unit names but do not strip them and do not guard against missing or zero
// factors, its department allocations and its validation.

module ProductDoc {
  import opened Common
  import Conversion

  /** A purchase-unit child row. */
  datatype UnitRow = UnitRow(purchaseUnit: string, conversion: Option<real>, vendor: string, rowName: string)

  /** A department allocation child row. */
  datatype Allocation = Allocation(department: string, isPrimary: int)

  /** Another stored product, as the uniqueness query sees it. */
  datatype ProductRecord = ProductRecord(name: string, productCode: string, company: string)

  /** The unit fields of a product document. */
  datatype UnitFields = UnitFields(
    name: string,
    primaryCountUnit: string,
    volumeUnit: string,
    volumeFactor: Option<real>,
    weightUnit: string,
    weightFactor: Option<real>,
    purchaseUnits: seq<UnitRow>)

  const MULTIPLY_NONE: string := "TypeError: " + "unsupported operand type(s) for *: 'float' and 'NoneType'"
  const DIVIDE_NONE: string := "TypeError: " + "unsupported operand type(s) for /: 'float' and 'NoneType'"
  const DIVIDE_ZERO: string := "ZeroDivisionError: " + "float division by zero"

  // ---------------------------------------------------------------------
  // Conversions on the document
  // ---------------------------------------------------------------------

  predicate RowMatches(row: UnitRow, unit: string)
  {
    row.purchaseUnit != "" &&
    (Lower(row.purchaseUnit) == unit || (row.rowName != "" && Lower(row.rowName) == unit))
  }

  /** The first purchase row whose unit or name matches `unit` (already lower-cased). */
  function FirstMatch(rows: seq<UnitRow>, unit: string): (r: Option<nat>)
    ensures r.Some? ==> r.value < |rows| && RowMatches(rows[r.value], unit)
    ensures r.Some? ==> forall j :: 0 <= j < r.value ==> !RowMatches(rows[j], unit)
    ensures r.None? <==> forall j :: 0 <= j < |rows| ==> !RowMatches(rows[j], unit)
  {
    if |rows| == 0 then None
    else if RowMatches(rows[0], unit) then Some(0)
    else
      match FirstMatch(rows[1..], unit)
      case None => None
      case Some(i) => Some(i + 1)
  }

  function Multiply(quantity: real, factor: Option<real>): (r: Conversion.Route)
    ensures r.Crash? <==> factor.None?
    ensures r.Hit? ==> r.qty == quantity * factor.value
  {
    match factor
    case None => Conversion.Crash(MULTIPLY_NONE)
    case Some(k) => Conversion.Hit(quantity * k)
  }

  function Divide(quantity: real, factor: Option<real>): (r: Conversion.Route)
    ensures r.Crash? <==> factor.None? || factor.value == 0.0
    ensures r.Hit? ==> r.qty * factor.value == quantity
  {
    match factor
    case None => Conversion.Crash(DIVIDE_NONE)
    case Some(k) => if k == 0.0 then Conversion.Crash(DIVIDE_ZERO) else Conversion.Hit(quantity / k)
  }

  function StandardLower(table: map<string, real>, quantity: real, fromUnit: string, toUnit: string): (r: Option<real>)
    requires Conversion.PositiveTable(table)
    ensures r.Some? <==> fromUnit in table && toUnit in table
  {
    if fromUnit !in table || toUnit !in table then None
    else Some(quantity * table[fromUnit] / table[toUnit])
  }

  function FromPurchaseUnit(u: UnitFields, fromUnit: string, quantity: real): Conversion.Route
  {
    match FirstMatch(u.purchaseUnits, fromUnit)
    case None => Conversion.Miss
    case Some(i) => Multiply(quantity, u.purchaseUnits[i].conversion)
  }

  function ToPurchaseUnit(u: UnitFields, toUnit: string, quantity: real): Conversion.Route
  {
    match FirstMatch(u.purchaseUnits, toUnit)
    case None => Conversion.Miss
    case Some(i) => Divide(quantity, u.purchaseUnits[i].conversion)
  }

  function FromMeasure(table: map<string, real>, unit: string, factor: Option<real>, fromUnit: string, quantity: real): Conversion.Route
    requires Conversion.PositiveTable(table)
  {
    if unit == "" then Conversion.Miss else FromBase(table, Lower(unit), factor, fromUnit, quantity)
  }

  function FromBase(table: map<string, real>, base: string, factor: Option<real>, f: string, quantity: real): Conversion.Route
    requires Conversion.PositiveTable(table)
  {
    if f == base then Divide(quantity, factor)
    else
      match StandardLower(table, quantity, f, base)
      case None => Conversion.Miss
      case Some(inBase) => Divide(inBase, factor)
  }

  function ToMeasure(table: map<string, real>, unit: string, factor: Option<real>, toUnit: string, quantity: real): Conversion.Route
    requires Conversion.PositiveTable(table)
  {
    if unit == "" then Conversion.Miss else ToBase(table, Lower(unit), factor, toUnit, quantity)
  }

  function ToBase(table: map<string, real>, base: string, factor: Option<real>, t: string, quantity: real): Conversion.Route
    requires Conversion.PositiveTable(table)
  {
    match Multiply(quantity, factor)
    case Hit(inBase) =>
      if t == base then Conversion.Hit(inBase)
      else Lift(StandardLower(table, inBase, base, t))
    case other => other
  }

  /** A hub answer (`None` meaning "try the next route") as a route outcome. */
  function Lift(o: Option<real>): (r: Conversion.Route)
    ensures !r.Crash? && (r.Hit? <==> o.Some?)
  {
    match o
    case None => Conversion.Miss
    case Some(x) => Conversion.Hit(x)
  }

  function Then(first: Conversion.Route, rest: Result<real>): Result<real>
  {
    match first
    case Hit(x) => Ok(x)
    case Crash(e) => Err(e)
    case Miss => rest
  }

  function ToPrimary(u: UnitFields, fromUnit: string, quantity: real): (r: Result<real>)
    ensures u.primaryCountUnit != "" && Lower(fromUnit) == Lower(u.primaryCountUnit) ==> r == Ok(quantity)
  {
    Conversion.TablesWellFormed();
    var f := Lower(fromUnit);
    if u.primaryCountUnit != "" && f == Lower(u.primaryCountUnit) then Ok(quantity)
    else
      Then(FromPurchaseUnit(u, f, quantity),
      Then(FromMeasure(Conversion.VOLUME_TO_ML, u.volumeUnit, u.volumeFactor, f, quantity),
      Then(FromMeasure(Conversion.WEIGHT_TO_G, u.weightUnit, u.weightFactor, f, quantity),
        Err(Conversion.CannotConvert("from", f, u.name)))))
  }

  function FromPrimary(u: UnitFields, toUnit: string, quantity: real): (r: Result<real>)
    ensures u.primaryCountUnit != "" && Lower(toUnit) == Lower(u.primaryCountUnit) ==> r == Ok(quantity)
  {
    Conversion.TablesWellFormed();
    var t := Lower(toUnit);
    if u.primaryCountUnit != "" && t == Lower(u.primaryCountUnit) then Ok(quantity)
    else
      Then(ToPurchaseUnit(u, t, quantity),
      Then(ToMeasure(Conversion.VOLUME_TO_ML, u.volumeUnit, u.volumeFactor, t, quantity),
      Then(ToMeasure(Conversion.WEIGHT_TO_G, u.weightUnit, u.weightFactor, t, quantity),
        Err(Conversion.CannotConvert("to", t, u.name)))))
  }

  /** `convert_between_units`: through the primary unit; a failure on the way in is passed on. */
  function Between(u: UnitFields, fromUnit: string, toUnit: string, quantity: real): (r: Result<real>)
    ensures ToPrimary(u, fromUnit, quantity).Err? ==> r == ToPrimary(u, fromUnit, quantity)
    ensures r.Ok? ==> ToPrimary(u, fromUnit, quantity).Ok?
    ensures r.Ok? && ConversionFactorError(u).None? && NamesStripped(u) && Stripped(toUnit) ==>
      ToPrimary(u, toUnit, r.value) == ToPrimary(u, fromUnit, quantity)
  {
    match ToPrimary(u, fromUnit, quantity)
    case Err(e) => Err(e)
    case Ok(x) =>
      DocumentRoundTripBack(u, toUnit, x);
      FromPrimary(u, toUnit, x)
  }

  /** A route that ends the search (it converts or raises) as the conversion's outcome. */
  function Settled(route: Conversion.Route): (r: Result<real>)
    requires !route.Miss?
    ensures r.Ok? <==> route.Hit?
  {
    if route.Hit? then Ok(route.qty) else Err(route.error)
  }

  /** The document's volume route for a lower-cased unit, into primary units or out of them. */
  function Volume(u: UnitFields, unit: string, quantity: real, toPrimary: bool): Conversion.Route
  {
    Conversion.TablesWellFormed();
    if toPrimary then FromMeasure(Conversion.VOLUME_TO_ML, u.volumeUnit, u.volumeFactor, unit, quantity)
    else ToMeasure(Conversion.VOLUME_TO_ML, u.volumeUnit, u.volumeFactor, unit, quantity)
  }

  /** The document's weight route for a lower-cased unit, into primary units or out of them. */
  function Weight(u: UnitFields, unit: string, quantity: real, toPrimary: bool): Conversion.Route
  {
    Conversion.TablesWellFormed();
    if toPrimary then FromMeasure(Conversion.WEIGHT_TO_G, u.weightUnit, u.weightFactor, unit, quantity)
    else ToMeasure(Conversion.WEIGHT_TO_G, u.weightUnit, u.weightFactor, unit, quantity)
  }

  /**
   * Whether a measure route with base `unit` ends the search for `x`: the
   * unit is set and `x` is the unit itself or both are in the table; out of
   * primary units a missing factor ends it too, since it is multiplied first.
   */
  predicate MeasureApplies(table: map<string, real>, unit: string, factor: Option<real>, x: string, toPrimary: bool)
  {
    unit != "" && (x == Lower(unit) || (x in table && Lower(unit) in table) || (!toPrimary && factor.None?))
  }

  /** The refusal texts are never the texts of the arithmetic crashes. */
  lemma RefusalIsNotCrash(direction: string, unit: string, product: string)
    ensures var refusal := Conversion.CannotConvert(direction, unit, product);
      refusal != MULTIPLY_NONE && refusal != DIVIDE_NONE && refusal != DIVIDE_ZERO
  {
    var refusal := Conversion.CannotConvert(direction, unit, product);
    assert refusal[0] == 'C';
    assert MULTIPLY_NONE[0] == 'T';
    assert DIVIDE_NONE[0] == 'T';
    assert DIVIDE_ZERO[0] == 'Z';
  }

  /**
   * A measure route ends the search exactly under `MeasureApplies`; into
   * primary units it crashes exactly on a missing or zero factor, out of
   * them exactly on a missing one.
   */
  lemma MeasureRoutes(table: map<string, real>, unit: string, factor: Option<real>, x: string, quantity: real)
    requires Conversion.PositiveTable(table)
    ensures FromMeasure(table, unit, factor, x, quantity).Miss? <==> !MeasureApplies(table, unit, factor, x, true)
    ensures FromMeasure(table, unit, factor, x, quantity).Crash? <==>
      MeasureApplies(table, unit, factor, x, true) && (factor.None? || factor.value == 0.0)
    ensures ToMeasure(table, unit, factor, x, quantity).Miss? <==> !MeasureApplies(table, unit, factor, x, false)
    ensures ToMeasure(table, unit, factor, x, quantity).Crash? <==> unit != "" && factor.None?
  {
  }

  /** The document's volume and weight routes end the search exactly under `MeasureApplies` of their tables. */
  lemma RoutesApply(u: UnitFields, unit: string, quantity: real, toPrimary: bool)
    ensures Volume(u, unit, quantity, toPrimary).Miss? <==>
      !MeasureApplies(Conversion.VOLUME_TO_ML, u.volumeUnit, u.volumeFactor, unit, toPrimary)
    ensures Weight(u, unit, quantity, toPrimary).Miss? <==>
      !MeasureApplies(Conversion.WEIGHT_TO_G, u.weightUnit, u.weightFactor, unit, toPrimary)
  {
    Conversion.TablesWellFormed();
    MeasureRoutes(Conversion.VOLUME_TO_ML, u.volumeUnit, u.volumeFactor, unit, quantity);
    MeasureRoutes(Conversion.WEIGHT_TO_G, u.weightUnit, u.weightFactor, unit, quantity);
  }

  /**
   * Outside the primary unit, `convert_to_primary_unit` takes the first
   * matching purchase row (raising on a missing factor), then the volume
   * route, then the weight route, and refuses exactly when none applies.
   */
  lemma ToPrimaryOrder(u: UnitFields, fromUnit: string, quantity: real)
    requires !(u.primaryCountUnit != "" && Lower(fromUnit) == Lower(u.primaryCountUnit))
    ensures var f := Lower(fromUnit); var m := FirstMatch(u.purchaseUnits, f);
      m.Some? ==>
        (FromPurchaseUnit(u, f, quantity) == Multiply(quantity, u.purchaseUnits[m.value].conversion) &&
         ToPrimary(u, fromUnit, quantity) == Settled(Multiply(quantity, u.purchaseUnits[m.value].conversion)))
    ensures var f := Lower(fromUnit);
      FirstMatch(u.purchaseUnits, f).None? && !Volume(u, f, quantity, true).Miss? ==>
        ToPrimary(u, fromUnit, quantity) == Settled(Volume(u, f, quantity, true))
    ensures var f := Lower(fromUnit);
      FirstMatch(u.purchaseUnits, f).None? && Volume(u, f, quantity, true).Miss? && !Weight(u, f, quantity, true).Miss? ==>
        ToPrimary(u, fromUnit, quantity) == Settled(Weight(u, f, quantity, true))
    ensures var f := Lower(fromUnit);
      ToPrimary(u, fromUnit, quantity) == Err(Conversion.CannotConvert("from", f, u.name)) <==>
        FirstMatch(u.purchaseUnits, f).None? && Volume(u, f, quantity, true).Miss? && Weight(u, f, quantity, true).Miss?
  {
    var f := Lower(fromUnit);
    RefusalIsNotCrash("from", f, u.name);
    var m := FirstMatch(u.purchaseUnits, f);
    if m.Some? {
      var route := Multiply(quantity, u.purchaseUnits[m.value].conversion);
      assert FromPurchaseUnit(u, f, quantity) == route;
      assert !route.Miss?;
      assert ToPrimary(u, fromUnit, quantity) == Settled(route);
    }
  }

  /**
   * Outside the primary unit, `convert_from_primary_unit` takes the first
   * matching purchase row (raising on a missing or zero factor), then the
   * volume route, then the weight route, and refuses exactly when none applies.
   */
  lemma FromPrimaryOrder(u: UnitFields, toUnit: string, quantity: real)
    requires !(u.primaryCountUnit != "" && Lower(toUnit) == Lower(u.primaryCountUnit))
    ensures var t := Lower(toUnit); var m := FirstMatch(u.purchaseUnits, t);
      m.Some? ==>
        (ToPurchaseUnit(u, t, quantity) == Divide(quantity, u.purchaseUnits[m.value].conversion) &&
         FromPrimary(u, toUnit, quantity) == Settled(Divide(quantity, u.purchaseUnits[m.value].conversion)))
    ensures var t := Lower(toUnit);
      FirstMatch(u.purchaseUnits, t).None? && !Volume(u, t, quantity, false).Miss? ==>
        FromPrimary(u, toUnit, quantity) == Settled(Volume(u, t, quantity, false))
    ensures var t := Lower(toUnit);
      FirstMatch(u.purchaseUnits, t).None? && Volume(u, t, quantity, false).Miss? && !Weight(u, t, quantity, false).Miss? ==>
        FromPrimary(u, toUnit, quantity) == Settled(Weight(u, t, quantity, false))
    ensures var t := Lower(toUnit);
      FromPrimary(u, toUnit, quantity) == Err(Conversion.CannotConvert("to", t, u.name)) <==>
        FirstMatch(u.purchaseUnits, t).None? && Volume(u, t, quantity, false).Miss? && Weight(u, t, quantity, false).Miss?
  {
    var t := Lower(toUnit);
    RefusalIsNotCrash("to", t, u.name);
  }

  ghost predicate IsListedUnit(u: UnitFields, x: string)
  {
    (u.primaryCountUnit != "" && x == Lower(u.primaryCountUnit)) ||
    (u.volumeUnit != "" && (x == Lower(u.volumeUnit) || x in Conversion.VOLUME_TO_ML)) ||
    (u.weightUnit != "" && (x == Lower(u.weightUnit) || x in Conversion.WEIGHT_TO_G)) ||
    (exists i :: 0 <= i < |u.purchaseUnits| && u.purchaseUnits[i].purchaseUnit != "" &&
      x == Lower(u.purchaseUnits[i].purchaseUnit))
  }

  function PurchaseUnitNames(rows: seq<UnitRow>): (r: seq<string>)
    ensures forall x :: x in r <==>
      exists i :: 0 <= i < |rows| && rows[i].purchaseUnit != "" && x == Lower(rows[i].purchaseUnit)
  {
    if |rows| == 0 then []
    else
      var rest := PurchaseUnitNames(rows[1..]);
      assert forall x :: x in rest <==>
        exists i :: 1 <= i < |rows| && rows[i].purchaseUnit != "" && x == Lower(rows[i].purchaseUnit) by {
        forall x ensures x in rest <==>
          exists i :: 1 <= i < |rows| && rows[i].purchaseUnit != "" && x == Lower(rows[i].purchaseUnit) {
          if x in rest {
            var j :| 0 <= j < |rows[1..]| && rows[1..][j].purchaseUnit != "" && x == Lower(rows[1..][j].purchaseUnit);
            assert rows[j + 1] == rows[1..][j];
          }
          if exists i :: 1 <= i < |rows| && rows[i].purchaseUnit != "" && x == Lower(rows[i].purchaseUnit) {
            var i :| 1 <= i < |rows| && rows[i].purchaseUnit != "" && x == Lower(rows[i].purchaseUnit);
            assert rows[1..][i - 1] == rows[i];
          }
        }
      }
      (if rows[0].purchaseUnit != "" then [Lower(rows[0].purchaseUnit)] else []) + rest
  }

  /** The product's own list of count units: lower-cased, distinct, sorted. */
  function AvailableCountUnits(u: UnitFields): (r: seq<string>)
    ensures StrictlySorted(r)
    ensures forall x :: x in r <==> IsListedUnit(u, x)
  {
    var candidates :=
      (if u.primaryCountUnit != "" then [Lower(u.primaryCountUnit)] else []) +
      (if u.volumeUnit != "" then [Lower(u.volumeUnit)] + Conversion.VOLUME_UNITS else []) +
      (if u.weightUnit != "" then [Lower(u.weightUnit)] + Conversion.WEIGHT_UNITS else []) +
      PurchaseUnitNames(u.purchaseUnits);
    assert forall x :: x in candidates <==> IsListedUnit(u, x) by {
      forall x ensures x in candidates <==> IsListedUnit(u, x) {
        if IsListedUnit(u, x) {
          if x in Conversion.VOLUME_TO_ML && u.volumeUnit != "" { assert x in Conversion.VOLUME_UNITS; }
          if x in Conversion.WEIGHT_TO_G && u.weightUnit != "" { assert x in Conversion.WEIGHT_UNITS; }
        }
      }
    }
    SortedSet(candidates)
  }

  // ---------------------------------------------------------------------
  // Validation rules
  // ---------------------------------------------------------------------

  /** Python truthiness of an optional number. */
  predicate Truthy(x: Option<real>)
  {
    x.Some? && x.value != 0.0
  }

  /** The first conversion-factor problem, if any. */
  function ConversionFactorError(u: UnitFields): (r: Option<string>)
    ensures r.None? <==>
      (u.volumeUnit != "" ==> Truthy(u.volumeFactor)) && (Truthy(u.volumeFactor) ==> u.volumeFactor.value > 0.0) &&
      (u.weightUnit != "" ==> Truthy(u.weightFactor)) && (Truthy(u.weightFactor) ==> u.weightFactor.value > 0.0) &&
      forall i :: 0 <= i < |u.purchaseUnits| ==>
        u.purchaseUnits[i].conversion.Some? && u.purchaseUnits[i].conversion.value > 0.0
  {
    if u.volumeUnit != "" && !Truthy(u.volumeFactor) then
      Some("Volume conversion factor is required when a volume unit is set.")
    else if Truthy(u.volumeFactor) && u.volumeFactor.value <= 0.0 then
      Some("Volume conversion factor must be greater than zero.")
    else if u.weightUnit != "" && !Truthy(u.weightFactor) then
      Some("Weight conversion factor is required when a weight unit is set.")
    else if Truthy(u.weightFactor) && u.weightFactor.value <= 0.0 then
      Some("Weight conversion factor must be greater than zero.")
    else
      RowError(u.purchaseUnits)
  }

  function RowError(rows: seq<UnitRow>): (r: Option<string>)
    ensures r.None? <==> forall i :: 0 <= i < |rows| ==> PositiveConversion(rows[i])
  {
    if |rows| == 0 then None
    else if !PositiveConversion(rows[0]) then
      var shown := if rows[0].purchaseUnit != "" then rows[0].purchaseUnit
                   else if rows[0].vendor != "" then rows[0].vendor else rows[0].rowName;
      Some(UnitRowMessage(shown))
    else
      var r := RowError(rows[1..]);
      assert forall i :: 1 <= i < |rows| ==> rows[1..][i - 1] == rows[i];
      r
  }

  /** The message naming the purchase unit row whose conversion is not above zero. */
  function UnitRowMessage(shown: string): string
  {
    "Conversion to primary count unit must be greater than zero for purchase unit " + shown + "."
  }

  /** The row's conversion factor is set and above zero. */
  predicate PositiveConversion(row: UnitRow)
  {
    row.conversion.Some? && row.conversion.value > 0.0
  }

  function DepartmentsOf(rows: seq<Allocation>): (r: set<string>)
    ensures forall d :: d in r <==> exists i :: 0 <= i < |rows| && rows[i].department == d
  {
    set i | 0 <= i < |rows| :: rows[i].department
  }

  function Reflag(row: Allocation, default: string): Allocation
  {
    row.(isPrimary := if row.department == default then 1 else 0)
  }

  /** What `_ensure_default_department_in_allocations` leaves in the allocation table. */
  function DefaultAllocations(rows: seq<Allocation>, default: string): (r: seq<Allocation>)
    ensures default == "" ==> r == rows
    ensures default != "" ==> default in DepartmentsOf(r)
    ensures default != "" && default !in DepartmentsOf(rows) ==> r == rows + [Allocation(default, 1)]
    ensures default != "" && default in DepartmentsOf(rows) ==>
      |r| == |rows| &&
      (forall i :: 0 <= i < |r| ==> r[i].department == rows[i].department) &&
      (forall i :: 0 <= i < |r| ==> (r[i].isPrimary == 1 <==> r[i].department == default)) &&
      (forall i :: 0 <= i < |r| ==> r[i].isPrimary in {0, 1})
  {
    if default == "" then rows
    else if default !in DepartmentsOf(rows) then
      var r := rows + [Allocation(default, 1)];
      assert r[|rows|].department == default;
      r
    else
      var r := seq(|rows|, i requires 0 <= i < |rows| => Reflag(rows[i], default));
      assert forall i :: 0 <= i < |r| ==> r[i].department == rows[i].department;
      r
  }

  /** Once the default is among the allocations, re-applying the rule changes nothing. */
  lemma DefaultAllocationsIdempotent(rows: seq<Allocation>, default: string)
    requires default in DepartmentsOf(rows)
    ensures DefaultAllocations(DefaultAllocations(rows, default), default) == DefaultAllocations(rows, default)
  {
    var once := DefaultAllocations(rows, default);
    if default != "" {
      var twice := DefaultAllocations(once, default);
      assert |twice| == |once|;
      forall i | 0 <= i < |once| ensures twice[i] == once[i] {
        assert twice[i].department == once[i].department;
        assert twice[i].isPrimary == once[i].isPrimary;
      }
    }
  }

  /** Appending the default leaves any earlier primary flag in place. */
  lemma AppendKeepsEarlierPrimaries(rows: seq<Allocation>, default: string, i: nat)
    requires default != "" && default !in DepartmentsOf(rows)
    requires i < |rows| && rows[i].isPrimary == 1
    ensures var r := DefaultAllocations(rows, default);
      r[i].isPrimary == 1 && r[|r| - 1].isPrimary == 1 && r[i].department != r[|r| - 1].department
  {
    assert rows[i].department in DepartmentsOf(rows);
  }

  function CodeClashError(name: string, code: string, company: string, others: seq<ProductRecord>): (r: Option<string>)
    ensures r.Some? <==> (code != "" &&
      exists i :: 0 <= i < |others| && others[i].name != name && others[i].productCode == code &&
                  (company == "" || others[i].company == company))
  {
    if code == "" then None
    else if (exists i :: 0 <= i < |others| && others[i].name != name && others[i].productCode == code &&
                         (company == "" || others[i].company == company)) then
      Some("Product code " + code + " is already used in company " + (if company == "" then "(any)" else company) + ".")
    else None
  }

  function PropertyError(isGeneric: bool, isPrepItem: bool): (r: Option<string>)
    ensures r.Some? <==> isGeneric && isPrepItem
  {
    if isGeneric && isPrepItem then Some("Product cannot be both generic and a prep item.") else None
  }

  /** The automatic code from the naming series `PROD-.#####`. */
  function SeriesCode(counter: nat): (r: string)
    ensures IsPrefix("PROD-", r) && |r| >= 10
  {
    "PROD-" + FormatPadded(counter, 5)
  }

  /** Distinct counters give distinct codes. */
  lemma SeriesCodesDistinct(a: nat, b: nat)
    ensures SeriesCode(a) == SeriesCode(b) ==> a == b
  {
    if SeriesCode(a) == SeriesCode(b) {
      assert FormatPadded(a, 5) == SeriesCode(a)[5..];
      assert FormatPadded(b, 5) == SeriesCode(b)[5..];
      FormatPaddedValue(a, 5);
      FormatPaddedValue(b, 5);
    }
  }

  // ---------------------------------------------------------------------
  // The document
  // ---------------------------------------------------------------------

  class Product {
    var name: string
    var productCode: string
    var company: string
    var primaryCountUnit: string
    var volumeUnit: string
    var volumeFactor: Option<real>
    var weightUnit: string
    var weightFactor: Option<real>
    var purchaseUnits: seq<UnitRow>
    var departments: seq<Allocation>
    var defaultDepartment: string
    var isGeneric: bool
    var isPrepItem: bool

    function Units(): UnitFields
      reads this
    {
      UnitFields(name, primaryCountUnit, volumeUnit, volumeFactor, weightUnit, weightFactor, purchaseUnits)
    }

    /** A code is assigned from the naming series only when none was given. */
    method BeforeInsert(counter: nat)
      modifies this`productCode
      ensures old(productCode) != "" ==> productCode == old(productCode)
      ensures old(productCode) == "" ==> productCode == SeriesCode(counter)
    {
      if productCode == "" {
        productCode := SeriesCode(counter);
      }
    }

    method EnsureDefaultDepartment()
      modifies this`departments
      ensures departments == DefaultAllocations(old(departments), defaultDepartment)
    {
      if defaultDepartment == "" {
        return;
      }
      if defaultDepartment !in DepartmentsOf(departments) {
        departments := departments + [Allocation(defaultDepartment, 1)];
        return;
      }
      var i := 0;
      while i < |departments|
        invariant 0 <= i <= |departments| == |old(departments)|
        invariant forall j :: 0 <= j < i ==> departments[j] == Reflag(old(departments)[j], defaultDepartment)
        invariant forall j :: i <= j < |departments| ==> departments[j] == old(departments)[j]
      {
        departments := departments[i := Reflag(departments[i], defaultDepartment)];
        i := i + 1;
      }
    }

    /** Runs the checks in order; the default-department rule mutates the allocations before the last check. */
    method Validate(others: seq<ProductRecord>) returns (err: Option<string>)
      modifies this`departments
      ensures var clash := CodeClashError(name, productCode, company, others);
        var factors := ConversionFactorError(Units());
        if clash.Some? then err == clash && departments == old(departments)
        else if factors.Some? then err == factors && departments == old(departments)
        else (err == PropertyError(isGeneric, isPrepItem) &&
              departments == DefaultAllocations(old(departments), defaultDepartment))
    {
      err := CodeClashError(name, productCode, company, others);
      if err.Some? {
        return;
      }
      err := ConversionFactorError(Units());
      if err.Some? {
        return;
      }
      EnsureDefaultDepartment();
      err := PropertyError(isGeneric, isPrepItem);
    }

    /** Active allocations: the department of every row that names one (both modes filter the same way). */
    function GetDepartments(activeOnly: bool): (r: seq<string>)
      reads this
      ensures forall d :: d in r <==> d != "" && d in DepartmentsOf(departments)
      ensures r == NonEmptyDepartments(departments)
    {
      NonEmptyDepartments(departments)
    }

    method AssignToDepartment(department: string, knownDepartments: set<string>, isPrimary: bool) returns (err: Option<string>)
      modifies this`departments
      ensures err.Some? <==> department !in knownDepartments
      ensures err.Some? ==> departments == old(departments)
      ensures err.None? && department in DepartmentsOf(old(departments)) ==> departments == old(departments)
      ensures err.None? && department !in DepartmentsOf(old(departments)) ==>
        departments == old(departments) + [Allocation(department, if isPrimary then 1 else 0)]
      ensures err.None? ==> department in DepartmentsOf(departments)
    {
      if department !in knownDepartments {
        return Some("Department " + department + " does not exist.");
      }
      err := None;
      if department in DepartmentsOf(departments) {
        return;
      }
      departments := departments + [Allocation(department, if isPrimary then 1 else 0)];
      assert departments[|departments| - 1].department == department;
    }

    function ConvertToPrimary(fromUnit: string, quantity: real): Result<real>
      reads this
    {
      ToPrimary(Units(), fromUnit, quantity)
    }

    function ConvertFromPrimary(toUnit: string, quantity: real): Result<real>
      reads this
    {
      FromPrimary(Units(), toUnit, quantity)
    }
  }

  lemma DepartmentsOfCons(rows: seq<Allocation>)
    requires |rows| > 0
    ensures DepartmentsOf(rows) == {rows[0].department} + DepartmentsOf(rows[1..])
  {
    forall d | d in DepartmentsOf(rows) ensures d in {rows[0].department} + DepartmentsOf(rows[1..]) {
      var i :| 0 <= i < |rows| && rows[i].department == d;
      if i > 0 { assert rows[1..][i - 1] == rows[i]; }
    }
  }

  /**
   * The departments of the rows that name one, in row order with repeats
   * kept: a single row contributes its department when it is non-empty, and
   * `NonEmptyDepartmentsAppend` shows the listing of `a + b` is the listing
   * of `a` followed by that of `b`.
   */
  function NonEmptyDepartments(rows: seq<Allocation>): (r: seq<string>)
    ensures forall d :: d in r <==> d != "" && d in DepartmentsOf(rows)
    ensures |r| <= |rows|
    ensures |rows| == 1 ==> r == (if rows[0].department != "" then [rows[0].department] else [])
  {
    if |rows| == 0 then []
    else
      DepartmentsOfCons(rows);
      (if rows[0].department != "" then [rows[0].department] else []) + NonEmptyDepartments(rows[1..])
  }

  /** Listing the departments of two row runs one after the other keeps both runs' order. */
  lemma {:induction false} NonEmptyDepartmentsAppend(a: seq<Allocation>, b: seq<Allocation>)
    ensures NonEmptyDepartments(a + b) == NonEmptyDepartments(a) + NonEmptyDepartments(b)
    decreases |a|
  {
    if |a| > 0 {
      assert (a + b)[1..] == a[1..] + b;
      NonEmptyDepartmentsAppend(a[1..], b);
    } else {
      assert a + b == b;
    }
  }

  // ---------------------------------------------------------------------
  // Agreement with the central conversion hub
  // ---------------------------------------------------------------------

  /** The document's data in the form the hub loads it. */
  function HubData(u: UnitFields): (d: Conversion.ProductData)
    ensures |d.purchaseUnits| == |u.purchaseUnits|
    ensures forall i :: 0 <= i < |u.purchaseUnits| ==>
      d.purchaseUnits[i] == Conversion.PurchaseRow(u.purchaseUnits[i].purchaseUnit, u.purchaseUnits[i].conversion, u.purchaseUnits[i].rowName)
  {
    Conversion.ProductData(u.name, u.primaryCountUnit, u.volumeUnit, u.volumeFactor, u.weightUnit, u.weightFactor,
      seq(|u.purchaseUnits|, i requires 0 <= i < |u.purchaseUnits| =>
        Conversion.PurchaseRow(u.purchaseUnits[i].purchaseUnit, u.purchaseUnits[i].conversion, u.purchaseUnits[i].rowName)))
  }

  /** Every unit name on the document is free of surrounding whitespace. */
  predicate NamesStripped(u: UnitFields)
  {
    Stripped(u.primaryCountUnit) && Stripped(u.volumeUnit) && Stripped(u.weightUnit) &&
    forall i :: 0 <= i < |u.purchaseUnits| ==> Stripped(u.purchaseUnits[i].purchaseUnit) && Stripped(u.purchaseUnits[i].rowName)
  }

  lemma NormalizeStripped(s: string)
    requires Stripped(s)
    ensures Conversion.NormalizeUnit(s) == Lower(s)
    ensures Stripped(Lower(s))
    ensures Lower(s) == "" <==> s == ""
  {
    StripOfStripped(s);
    LowerKeepsStripped(s);
  }

  lemma {:induction false} FirstMatchAgrees(u: UnitFields, unit: string)
    requires NamesStripped(u)
    ensures FirstMatch(u.purchaseUnits, unit) == Conversion.FirstMatch(HubData(u).purchaseUnits, unit)
  {
    var rows := u.purchaseUnits;
    var hub := HubData(u).purchaseUnits;
    forall i | 0 <= i < |rows| ensures RowMatches(rows[i], unit) == Conversion.RowMatches(hub[i], unit) {
      NormalizeStripped(rows[i].purchaseUnit);
      NormalizeStripped(rows[i].rowName);
    }
    SameMatchesSameFirst(rows, hub, unit);
  }

  /** Rows that match alike, position by position, have the same first match. */
  lemma {:induction false} SameMatchesSameFirst(rows: seq<UnitRow>, hub: seq<Conversion.PurchaseRow>, unit: string)
    requires |rows| == |hub|
    requires forall i :: 0 <= i < |rows| ==> RowMatches(rows[i], unit) == Conversion.RowMatches(hub[i], unit)
    ensures FirstMatch(rows, unit) == Conversion.FirstMatch(hub, unit)
  {
    if rows != [] {
      assert RowMatches(rows[0], unit) == Conversion.RowMatches(hub[0], unit);
      forall i | 0 <= i < |rows| - 1
        ensures RowMatches(rows[1..][i], unit) == Conversion.RowMatches(hub[1..][i], unit)
      {
        assert rows[1..][i] == rows[i + 1] && hub[1..][i] == hub[i + 1];
      }
      SameMatchesSameFirst(rows[1..], hub[1..], unit);
    }
  }

  lemma PurchaseAgrees(u: UnitFields, unit: string, quantity: real)
    requires NamesStripped(u) && RowError(u.purchaseUnits).None?
    requires Conversion.NormalizeUnit(unit) == unit
    ensures FromPurchaseUnit(u, unit, quantity) == Conversion.FromPurchaseUnit(HubData(u), unit, quantity)
    ensures ToPurchaseUnit(u, unit, quantity) == Conversion.ToPurchaseUnit(HubData(u), unit, quantity)
  {
    var d := HubData(u);
    FirstMatchAgrees(u, unit);
    var m := FirstMatch(u.purchaseUnits, unit);
    assert Conversion.FromPurchaseUnit(d, unit, quantity) ==
      (match m case None => Conversion.Miss case Some(i) => Conversion.ApplyRow(d.purchaseUnits[i].conversion, quantity, true));
    assert Conversion.ToPurchaseUnit(d, unit, quantity) ==
      (match m case None => Conversion.Miss case Some(i) => Conversion.ApplyRow(d.purchaseUnits[i].conversion, quantity, false));
    if m.Some? {
      var c := u.purchaseUnits[m.value].conversion;
      assert c.Some? && c.value > 0.0;
      assert d.purchaseUnits[m.value].conversion == c;
    }
  }

  lemma StandardAgrees(table: map<string, real>, quantity: real, f: string, t: string)
    requires Conversion.PositiveTable(table)
    requires Conversion.NormalizeUnit(f) == f && Conversion.NormalizeUnit(t) == t
    ensures StandardLower(table, quantity, f, t) == Conversion.Standard(table, quantity, f, t)
  {
    if f in table && t in table {
      var x := quantity * table[f];
      assert Conversion.Standard(table, quantity, f, t).value == x / table[t];
      assert StandardLower(table, quantity, f, t).value == x / table[t];
    }
  }

  lemma BaseAgrees(table: map<string, real>, base: string, k: real, f: string, quantity: real)
    requires Conversion.PositiveTable(table) && k > 0.0
    requires Conversion.NormalizeUnit(f) == f && Conversion.NormalizeUnit(base) == base
    ensures FromBase(table, base, Some(k), f, quantity) == Lift(Conversion.FromBase(table, base, k, f, quantity))
    ensures ToBase(table, base, Some(k), f, quantity) == Lift(Conversion.ToBase(table, base, k, f, quantity))
  {
    if f != base {
      StandardAgrees(table, quantity, f, base);
      StandardAgrees(table, quantity * k, base, f);
    }
  }

  /** With a usable factor and normalised names, each measure route answers as the hub's does. */
  lemma MeasureAgrees(table: map<string, real>, unit: string, factor: Option<real>, f: string, quantity: real)
    requires Conversion.PositiveTable(table)
    requires Stripped(unit) && (unit != "" ==> factor.Some? && factor.value > 0.0)
    requires Conversion.NormalizeUnit(f) == f
    ensures FromMeasure(table, unit, factor, f, quantity) == Lift(Conversion.FromMeasure(table, unit, factor, f, quantity))
    ensures ToMeasure(table, unit, factor, f, quantity) == Lift(Conversion.ToMeasure(table, unit, factor, f, quantity))
  {
    if unit != "" {
      var base := Lower(unit);
      NormalizeStripped(unit);
      NormalizeIdempotent(unit);
      assert Conversion.NormalizeUnit(unit) == base;
      assert Conversion.NormalizeUnit(base) == base;
      assert Conversion.Usable(unit, factor);
      BaseAgrees(table, base, factor.value, f, quantity);
      assert FromMeasure(table, unit, factor, f, quantity) == FromBase(table, base, Some(factor.value), f, quantity);
      assert ToMeasure(table, unit, factor, f, quantity) == ToBase(table, base, Some(factor.value), f, quantity);
    }
  }

  /** What passing the conversion-factor validation guarantees about the routes. */
  predicate FactorsUsable(u: UnitFields)
  {
    RowError(u.purchaseUnits).None? &&
    (u.volumeUnit != "" ==> u.volumeFactor.Some? && u.volumeFactor.value > 0.0) &&
    (u.weightUnit != "" ==> u.weightFactor.Some? && u.weightFactor.value > 0.0)
  }

  lemma ValidatedFactorsUsable(u: UnitFields)
    requires ConversionFactorError(u).None?
    ensures FactorsUsable(u)
  {
  }

  /** The hub's conversion into the primary unit, as a chain of routes. */
  lemma HubToPrimaryChain(d: Conversion.ProductData, unit: string, quantity: real)
    ensures Conversion.PositiveTable(Conversion.VOLUME_TO_ML) && Conversion.PositiveTable(Conversion.WEIGHT_TO_G)
    ensures var f := Conversion.NormalizeUnit(unit);
      var primary := Conversion.NormalizeUnit(d.primaryCountUnit);
      !(primary != "" && f == primary) ==>
        Conversion.ToPrimary(d, unit, quantity) ==
          Then(Conversion.FromPurchaseUnit(d, f, quantity),
          Then(Lift(Conversion.FromMeasure(Conversion.VOLUME_TO_ML, d.volumeUnit, d.volumeFactor, f, quantity)),
          Then(Lift(Conversion.FromMeasure(Conversion.WEIGHT_TO_G, d.weightUnit, d.weightFactor, f, quantity)),
            Err(Conversion.CannotConvert("from", f, d.name)))))
  {
    Conversion.TablesWellFormed();
  }

  /** The hub's conversion out of the primary unit, as a chain of routes. */
  lemma HubFromPrimaryChain(d: Conversion.ProductData, unit: string, quantity: real)
    ensures Conversion.PositiveTable(Conversion.VOLUME_TO_ML) && Conversion.PositiveTable(Conversion.WEIGHT_TO_G)
    ensures var t := Conversion.NormalizeUnit(unit);
      var primary := Conversion.NormalizeUnit(d.primaryCountUnit);
      !(primary != "" && t == primary) ==>
        Conversion.FromPrimary(d, unit, quantity) ==
          Then(Conversion.ToPurchaseUnit(d, t, quantity),
          Then(Lift(Conversion.ToMeasure(Conversion.VOLUME_TO_ML, d.volumeUnit, d.volumeFactor, t, quantity)),
          Then(Lift(Conversion.ToMeasure(Conversion.WEIGHT_TO_G, d.weightUnit, d.weightFactor, t, quantity)),
            Err(Conversion.CannotConvert("to", t, d.name)))))
  {
    Conversion.TablesWellFormed();
  }

  lemma {:induction false} ToPrimaryAgrees(u: UnitFields, unit: string, quantity: real)
    requires FactorsUsable(u) && NamesStripped(u) && Stripped(unit)
    ensures ToPrimary(u, unit, quantity) == Conversion.ToPrimary(HubData(u), unit, quantity)
  {
    var d := HubData(u);
    var f := Lower(unit);
    NormalizeStripped(unit);
    NormalizeIdempotent(unit);
    NormalizeStripped(u.primaryCountUnit);
    HubToPrimaryChain(d, unit, quantity);
    if !(u.primaryCountUnit != "" && f == Lower(u.primaryCountUnit)) {
      PurchaseAgrees(u, f, quantity);
      MeasureAgrees(Conversion.VOLUME_TO_ML, u.volumeUnit, u.volumeFactor, f, quantity);
      MeasureAgrees(Conversion.WEIGHT_TO_G, u.weightUnit, u.weightFactor, f, quantity);
    }
  }

  lemma {:induction false} FromPrimaryAgrees(u: UnitFields, unit: string, quantity: real)
    requires FactorsUsable(u) && NamesStripped(u) && Stripped(unit)
    ensures FromPrimary(u, unit, quantity) == Conversion.FromPrimary(HubData(u), unit, quantity)
  {
    var d := HubData(u);
    var t := Lower(unit);
    NormalizeStripped(unit);
    NormalizeIdempotent(unit);
    NormalizeStripped(u.primaryCountUnit);
    HubFromPrimaryChain(d, unit, quantity);
    if !(u.primaryCountUnit != "" && t == Lower(u.primaryCountUnit)) {
      PurchaseAgrees(u, t, quantity);
      MeasureAgrees(Conversion.VOLUME_TO_ML, u.volumeUnit, u.volumeFactor, t, quantity);
      MeasureAgrees(Conversion.WEIGHT_TO_G, u.weightUnit, u.weightFactor, t, quantity);
    }
  }

  /** A validated document with clean unit names converts exactly as the central hub does. */
  lemma AgreesWithHub(u: UnitFields, unit: string, quantity: real)
    requires ConversionFactorError(u).None?
    requires NamesStripped(u) && Stripped(unit)
    ensures ToPrimary(u, unit, quantity) == Conversion.ToPrimary(HubData(u), unit, quantity)
    ensures FromPrimary(u, unit, quantity) == Conversion.FromPrimary(HubData(u), unit, quantity)
  {
    ValidatedFactorsUsable(u);
    ToPrimaryAgrees(u, unit, quantity);
    FromPrimaryAgrees(u, unit, quantity);
  }

  /** On a validated document with clean names, converting back undoes converting into the primary unit. */
  lemma DocumentRoundTrip(u: UnitFields, unit: string, quantity: real)
    requires ConversionFactorError(u).None?
    requires NamesStripped(u) && Stripped(unit)
    ensures ToPrimary(u, unit, quantity).Ok? ==>
      FromPrimary(u, unit, ToPrimary(u, unit, quantity).value) == Ok(quantity)
  {
    AgreesWithHub(u, unit, quantity);
    var r := ToPrimary(u, unit, quantity);
    if r.Ok? {
      AgreesWithHub(u, unit, r.value);
      Conversion.ToPrimaryRoundTrip(HubData(u), unit, quantity);
    }
  }

  /** On a validated document with clean names, converting into the primary unit undoes converting out of it. */
  lemma DocumentRoundTripBack(u: UnitFields, unit: string, quantity: real)
    ensures FromPrimary(u, unit, quantity).Ok? && ConversionFactorError(u).None? && NamesStripped(u) && Stripped(unit) ==>
      ToPrimary(u, unit, FromPrimary(u, unit, quantity).value) == Ok(quantity)
  {
    var r := FromPrimary(u, unit, quantity);
    if r.Ok? && ConversionFactorError(u).None? && NamesStripped(u) && Stripped(unit) {
      AgreesWithHub(u, unit, quantity);
      AgreesWithHub(u, unit, r.value);
      Conversion.FromPrimaryRoundTrip(HubData(u), unit, quantity);
    }
  }

  /** A soda counted in cans and bought by the 24-can case: two cases are 48 cans. */
  lemma CaseOfTwentyFour()
    ensures ToPrimary(UnitFields("Soda", "Each", "", None, "", None, [UnitRow("Case", Some(24.0), "", "row-1")]), "Case", 2.0)
      == Ok(48.0)
  {
    var u := UnitFields("Soda", "Each", "", None, "", None, [UnitRow("Case", Some(24.0), "", "row-1")]);
    assert Lower("Case") == "case";
    assert Lower("Each") == "each";
    assert FirstMatch(u.purchaseUnits, "case") == Some(0);
  }

  // ---------------------------------------------------------------------

  /** A conversion of (product, unit, quantity) to the product's primary count unit. */
  type Converter = (string, string, real) -> Result<real>

  /**
   * `convert_to_primary_unit` of a product looked up by name among the
   * products on record; an empty unit means the product's primary count unit.
   */
  function PrimaryConverter(products: map<string, UnitFields>): Converter
  {
    (product: string, unit: string, quantity: real) =>
      if product !in products then Err("Product " + product + " not found")
      else
        var p := products[product];
        ToPrimary(p, if unit != "" then unit else p.primaryCountUnit, quantity)
  }

  /** A missing product fails, and a quantity already in the primary unit is unchanged. */
  lemma PrimaryConverterFacts(products: map<string, UnitFields>, product: string, unit: string, quantity: real)
    ensures product !in products ==> PrimaryConverter(products)(product, unit, quantity).Err?
    ensures (product in products && (unit == "" || unit == products[product].primaryCountUnit) &&
             products[product].primaryCountUnit != "") ==> PrimaryConverter(products)(product, unit, quantity) == Ok(quantity)
  {
    if product in products {
      var p := products[product];
      var u := if unit != "" then unit else p.primaryCountUnit;
      assert PrimaryConverter(products)(product, unit, quantity) == ToPrimary(p, u, quantity);
    }
  }
}
