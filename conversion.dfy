// The product unit-conversion hub: every unit is converted to the product's
// primary count unit and from there to any other unit. Routes are tried in a
// fixed order (primary unit, purchase units, volume, weight) and the first one
// that applies wins. Quantities are exact reals.

module Conversion {
  import opened Common

  /** One purchase-unit row: the unit, its size in primary units and the row's own name. */
  datatype PurchaseRow = PurchaseRow(purchaseUnit: string, conversion: Option<real>, rowName: string)

  /** The conversion data of a product ("" stands for a missing unit). */
  datatype ProductData = ProductData(
    name: string,
    primaryCountUnit: string,
    volumeUnit: string,
    volumeFactor: Option<real>,
    weightUnit: string,
    weightFactor: Option<real>,
    purchaseUnits: seq<PurchaseRow>)

  /** The outcome of one route: a quantity, "route does not apply", or an exception. */
  datatype Route = Hit(qty: real) | Miss | Crash(error: string)

  const TYPE_ERROR: string := "TypeError: " + "'<=' not supported between instances of 'NoneType' and 'int'"

  const VOLUME_UNITS: seq<string> :=
    ["ml", "milliliter", "l", "liter", "litre", "fl oz", "fluid ounce", "pint", "quart", "gallon"]

  const VOLUME_TO_ML: map<string, real> := map[
    "ml" := 1.0, "milliliter" := 1.0,
    "l" := 1000.0, "liter" := 1000.0, "litre" := 1000.0,
    "fl oz" := 29.5735, "fluid ounce" := 29.5735,
    "pint" := 473.176, "quart" := 946.353, "gallon" := 3785.41]

  const WEIGHT_UNITS: seq<string> := ["g", "gram", "kg", "kilogram", "oz", "ounce", "lb", "pound"]

  const WEIGHT_TO_G: map<string, real> := map[
    "g" := 1.0, "gram" := 1.0, "kg" := 1000.0, "kilogram" := 1000.0,
    "oz" := 28.3495, "ounce" := 28.3495, "lb" := 453.592, "pound" := 453.592]

  predicate PositiveTable(table: map<string, real>)
  {
    forall k :: k in table ==> table[k] > 0.0
  }

  lemma TablesWellFormed()
    ensures PositiveTable(VOLUME_TO_ML) && PositiveTable(WEIGHT_TO_G)
  {
  }

  lemma TableKeys()
    ensures Elems(VOLUME_UNITS) == VOLUME_TO_ML.Keys
    ensures Elems(WEIGHT_UNITS) == WEIGHT_TO_G.Keys
  {
  }

  /** Unit names are compared stripped and lower-cased; a missing unit is "". */
  function NormalizeUnit(unit: string): (r: string)
    ensures r == Normalize(unit)
  {
    if unit == "" then "" else Lower(Strip(unit))
  }

  /** Conversion between two units of one standard table (ml or g as the base). */
  function Standard(table: map<string, real>, quantity: real, fromUnit: string, toUnit: string): (r: Option<real>)
    requires PositiveTable(table)
    ensures r.Some? <==> NormalizeUnit(fromUnit) in table && NormalizeUnit(toUnit) in table
    ensures r.Some? ==> r.value * table[NormalizeUnit(toUnit)] == quantity * table[NormalizeUnit(fromUnit)]
  {
    var f := NormalizeUnit(fromUnit);
    var t := NormalizeUnit(toUnit);
    if f !in table || t !in table then None
    else
      var base := quantity * table[f];
      DivCancels(base, table[t]);
      Some(base / table[t])
  }

  lemma DivCancels(a: real, b: real)
    requires b != 0.0
    ensures (a / b) * b == a
  {
  }

  // ---------------------------------------------------------------------
  // Purchase-unit route
  // ---------------------------------------------------------------------

  /** A row applies when it has a unit and either that unit or the row name matches. */
  predicate RowMatches(row: PurchaseRow, unit: string)
  {
    row.purchaseUnit != "" &&
    (NormalizeUnit(row.purchaseUnit) == unit || (row.rowName != "" && NormalizeUnit(row.rowName) == unit))
  }

  /** The index of the first row that applies to `unit`. */
  function FirstMatch(rows: seq<PurchaseRow>, unit: string): (r: Option<nat>)
    ensures r.Some? ==> r.value < |rows| && RowMatches(rows[r.value], unit)
    ensures r.Some? ==> forall j :: 0 <= j < r.value ==> !RowMatches(rows[j], unit)
    ensures r.None? <==> forall j :: 0 <= j < |rows| ==> !RowMatches(rows[j], unit)
  {
    if |rows| == 0 then None
    else if RowMatches(rows[0], unit) then Some(0)
    else
      match FirstMatch(rows[1..], unit)
      case None => None
      case Some(i) => Some(i + 1)
  }

  /** Applies a row's conversion: a missing value raises, a non-positive one ends the route. */
  function ApplyRow(conversion: Option<real>, quantity: real, toPrimary: bool): (r: Route)
    ensures conversion.None? <==> r.Crash?
    ensures r.Hit? <==> conversion.Some? && conversion.value > 0.0
    ensures r.Hit? && toPrimary ==> r.qty == quantity * conversion.value
    ensures r.Hit? && !toPrimary ==> r.qty * conversion.value == quantity && r.qty == quantity / conversion.value
  {
    match conversion
    case None => Crash(TYPE_ERROR)
    case Some(c) =>
      if c <= 0.0 then Miss
      else if toPrimary then Hit(quantity * c)
      else Hit(quantity / c)
  }

  function FromPurchaseUnit(p: ProductData, fromUnit: string, quantity: real): Route
  {
    var u := NormalizeUnit(fromUnit);
    match FirstMatch(p.purchaseUnits, u)
    case None => Miss
    case Some(i) => ApplyRow(p.purchaseUnits[i].conversion, quantity, true)
  }

  function ToPurchaseUnit(p: ProductData, toUnit: string, quantity: real): Route
  {
    var u := NormalizeUnit(toUnit);
    match FirstMatch(p.purchaseUnits, u)
    case None => Miss
    case Some(i) => ApplyRow(p.purchaseUnits[i].conversion, quantity, false)
  }

  // ---------------------------------------------------------------------
  // Volume and weight routes (one definition, two tables)
  // ---------------------------------------------------------------------

  /** A volume or weight route applies only with a unit and a positive factor. */
  predicate Usable(unit: string, factor: Option<real>)
  {
    unit != "" && factor.Some? && factor.value > 0.0
  }

  /** From `fromUnit` to primary units through a product's volume or weight unit. */
  function FromMeasure(table: map<string, real>, unit: string, factor: Option<real>, fromUnit: string, quantity: real): (r: Option<real>)
    requires PositiveTable(table)
    ensures r.Some? ==> Usable(unit, factor)
  {
    if !Usable(unit, factor) then None
    else FromBase(table, NormalizeUnit(unit), factor.value, NormalizeUnit(fromUnit), quantity)
  }

  /** The volume or weight route once the factor `k` (base units per primary unit) is known. */
  function FromBase(table: map<string, real>, base: string, k: real, f: string, quantity: real): Option<real>
    requires PositiveTable(table) && k > 0.0
  {
    if f == base then Some(quantity / k)
    else
      match Standard(table, quantity, f, base)
      case None => None
      case Some(inBase) => Some(inBase / k)
  }

  /** From primary units to `toUnit` through a product's volume or weight unit. */
  function ToMeasure(table: map<string, real>, unit: string, factor: Option<real>, toUnit: string, quantity: real): (r: Option<real>)
    requires PositiveTable(table)
    ensures r.Some? ==> Usable(unit, factor)
  {
    if !Usable(unit, factor) then None
    else ToBase(table, NormalizeUnit(unit), factor.value, NormalizeUnit(toUnit), quantity)
  }

  function ToBase(table: map<string, real>, base: string, k: real, t: string, quantity: real): Option<real>
    requires PositiveTable(table) && k > 0.0
  {
    var inBase := quantity * k;
    if t == base then Some(inBase)
    else Standard(table, inBase, base, t)
  }

  /** Whether a measure route applies to `unit` (it does not depend on the quantity). */
  predicate MeasureApplies(table: map<string, real>, unit: string, factor: Option<real>, other: string)
  {
    Usable(unit, factor) &&
    (NormalizeUnit(other) == NormalizeUnit(unit) || (NormalizeUnit(other) in table && NormalizeUnit(unit) in table))
  }

  lemma MeasureRoutes(table: map<string, real>, unit: string, factor: Option<real>, other: string, quantity: real)
    requires PositiveTable(table)
    ensures FromMeasure(table, unit, factor, other, quantity).Some? <==> MeasureApplies(table, unit, factor, other)
    ensures ToMeasure(table, unit, factor, other, quantity).Some? <==> MeasureApplies(table, unit, factor, other)
  {
    NormalizeIdempotent(other);
    NormalizeIdempotent(unit);
  }

  function CannotConvert(direction: string, unit: string, product: string): string
  {
    "Cannot convert " + direction + " unit " + (if unit == "" then "(empty)" else unit) + " for product " + product + "."
  }

  // ---------------------------------------------------------------------
  // The hub
  // ---------------------------------------------------------------------

  /** Any unit to the primary count unit. */
  function ToPrimary(p: ProductData, fromUnit: string, quantity: real): (r: Result<real>)
    ensures var primary := NormalizeUnit(p.primaryCountUnit);
      primary != "" && NormalizeUnit(fromUnit) == primary ==> r == Ok(quantity)
    ensures r.Err? && r.error != TYPE_ERROR ==> r.error == CannotConvert("from", NormalizeUnit(fromUnit), p.name)
  {
    TablesWellFormed();
    var u := NormalizeUnit(fromUnit);
    var primary := NormalizeUnit(p.primaryCountUnit);
    if primary != "" && u == primary then Ok(quantity)
    else
      match FromPurchaseUnit(p, u, quantity)
      case Hit(x) => Ok(x)
      case Crash(e) => Err(e)
      case Miss =>
        var v := FromMeasure(VOLUME_TO_ML, p.volumeUnit, p.volumeFactor, u, quantity);
        if v.Some? then Ok(v.value)
        else
          var w := FromMeasure(WEIGHT_TO_G, p.weightUnit, p.weightFactor, u, quantity);
          if w.Some? then Ok(w.value)
          else Err(CannotConvert("from", u, p.name))
  }

  /** The primary count unit to any unit. */
  function FromPrimary(p: ProductData, toUnit: string, quantity: real): (r: Result<real>)
    ensures var primary := NormalizeUnit(p.primaryCountUnit);
      primary != "" && NormalizeUnit(toUnit) == primary ==> r == Ok(quantity)
    ensures r.Err? && r.error != TYPE_ERROR ==> r.error == CannotConvert("to", NormalizeUnit(toUnit), p.name)
  {
    TablesWellFormed();
    var u := NormalizeUnit(toUnit);
    var primary := NormalizeUnit(p.primaryCountUnit);
    if primary != "" && u == primary then Ok(quantity)
    else
      match ToPurchaseUnit(p, u, quantity)
      case Hit(x) => Ok(x)
      case Crash(e) => Err(e)
      case Miss =>
        var v := ToMeasure(VOLUME_TO_ML, p.volumeUnit, p.volumeFactor, u, quantity);
        if v.Some? then Ok(v.value)
        else
          var w := ToMeasure(WEIGHT_TO_G, p.weightUnit, p.weightFactor, u, quantity);
          if w.Some? then Ok(w.value)
          else Err(CannotConvert("to", u, p.name))
  }

  /**
   * Hub-and-spoke conversion between two units: a result, taken back to
   * primary units from `toUnit`, is the primary quantity of the input.
   */
  function Between(p: ProductData, fromUnit: string, toUnit: string, quantity: real): (r: Result<real>)
    ensures ToPrimary(p, fromUnit, quantity).Err? ==> r == ToPrimary(p, fromUnit, quantity)
    ensures r.Ok? ==> ToPrimary(p, fromUnit, quantity).Ok? && ToPrimary(p, toUnit, r.value) == ToPrimary(p, fromUnit, quantity)
  {
    match ToPrimary(p, fromUnit, quantity)
    case Err(e) => Err(e)
    case Ok(x) =>
      FromPrimaryRoundTrip(p, toUnit, x);
      FromPrimary(p, toUnit, x)
  }

  /** The product's volume route for `unit`, into primary units or out of them. */
  function Volume(p: ProductData, unit: string, quantity: real, toPrimary: bool): Option<real>
  {
    TablesWellFormed();
    if toPrimary then FromMeasure(VOLUME_TO_ML, p.volumeUnit, p.volumeFactor, unit, quantity)
    else ToMeasure(VOLUME_TO_ML, p.volumeUnit, p.volumeFactor, unit, quantity)
  }

  /** The product's weight route for `unit`, into primary units or out of them. */
  function Weight(p: ProductData, unit: string, quantity: real, toPrimary: bool): Option<real>
  {
    TablesWellFormed();
    if toPrimary then FromMeasure(WEIGHT_TO_G, p.weightUnit, p.weightFactor, unit, quantity)
    else ToMeasure(WEIGHT_TO_G, p.weightUnit, p.weightFactor, unit, quantity)
  }

  predicate VolumeApplies(p: ProductData, unit: string)
  {
    MeasureApplies(VOLUME_TO_ML, p.volumeUnit, p.volumeFactor, unit)
  }

  predicate WeightApplies(p: ProductData, unit: string)
  {
    MeasureApplies(WEIGHT_TO_G, p.weightUnit, p.weightFactor, unit)
  }

  /** No purchase row settles the conversion of `unit`: none matches, or the first match has a non-positive factor. */
  predicate PurchaseMisses(rows: seq<PurchaseRow>, unit: string)
  {
    var m := FirstMatch(rows, unit);
    m.None? || (rows[m.value].conversion.Some? && rows[m.value].conversion.value <= 0.0)
  }

  /** Whether `unit` is the product's primary count unit. */
  predicate IsPrimary(p: ProductData, unit: string)
  {
    NormalizeUnit(p.primaryCountUnit) != "" && NormalizeUnit(unit) == NormalizeUnit(p.primaryCountUnit)
  }

  /** The refusal text is never the text of the missing-factor crash. */
  lemma RefusalIsNotCrash(direction: string, unit: string, product: string)
    ensures CannotConvert(direction, unit, product) != TYPE_ERROR
  {
    assert CannotConvert(direction, unit, product)[0] == 'C';
    assert TYPE_ERROR[0] == 'T';
  }

  /** A purchase route misses exactly under `PurchaseMisses`, crashes on a missing factor, else applies the first match. */
  lemma PurchaseRoute(p: ProductData, unit: string, quantity: real, toPrimary: bool)
    requires NormalizeUnit(unit) == unit
    ensures var r := if toPrimary then FromPurchaseUnit(p, unit, quantity) else ToPurchaseUnit(p, unit, quantity);
      var m := FirstMatch(p.purchaseUnits, unit);
      && (r.Miss? <==> PurchaseMisses(p.purchaseUnits, unit))
      && (r.Crash? <==> m.Some? && p.purchaseUnits[m.value].conversion.None?)
      && (r.Crash? ==> r.error == TYPE_ERROR)
      && (r.Hit? ==>
            (m.Some? && p.purchaseUnits[m.value].conversion.Some? &&
             r.qty == Scaled(quantity, p.purchaseUnits[m.value].conversion.value, toPrimary)))
  {
    var m := FirstMatch(p.purchaseUnits, unit);
    if m.Some? {
      var c := p.purchaseUnits[m.value].conversion;
      var r := ApplyRow(c, quantity, toPrimary);
      assert r == if toPrimary then FromPurchaseUnit(p, unit, quantity) else ToPurchaseUnit(p, unit, quantity);
      if r.Hit? {
        assert r.qty == Scaled(quantity, c.value, toPrimary);
      }
    }
  }

  /** A quantity multiplied by a row's factor into primary units, or divided by it out of them. */
  function Scaled(quantity: real, factor: real, toPrimary: bool): real
    requires factor > 0.0
  {
    if toPrimary then quantity * factor else quantity / factor
  }

  /**
   * Outside the primary unit, `ToPrimary` tries the first matching purchase
   * row, then the volume route, then the weight route, and refuses exactly
   * when none of them applies (`RoutesApply` says when the measure routes do).
   */
  lemma ToPrimaryOrder(p: ProductData, fromUnit: string, quantity: real)
    requires !IsPrimary(p, fromUnit)
    ensures var u := NormalizeUnit(fromUnit); var m := FirstMatch(p.purchaseUnits, u);
      m.Some? && p.purchaseUnits[m.value].conversion.None? ==> ToPrimary(p, fromUnit, quantity) == Err(TYPE_ERROR)
    ensures var u := NormalizeUnit(fromUnit); var m := FirstMatch(p.purchaseUnits, u);
      m.Some? && p.purchaseUnits[m.value].conversion.Some? && p.purchaseUnits[m.value].conversion.value > 0.0 ==>
        ToPrimary(p, fromUnit, quantity) == Ok(Scaled(quantity, p.purchaseUnits[m.value].conversion.value, true))
    ensures var u := NormalizeUnit(fromUnit);
      PurchaseMisses(p.purchaseUnits, u) && Volume(p, u, quantity, true).Some? ==>
        ToPrimary(p, fromUnit, quantity) == Ok(Volume(p, u, quantity, true).value)
    ensures var u := NormalizeUnit(fromUnit);
      PurchaseMisses(p.purchaseUnits, u) && Volume(p, u, quantity, true).None? && Weight(p, u, quantity, true).Some? ==>
        ToPrimary(p, fromUnit, quantity) == Ok(Weight(p, u, quantity, true).value)
    ensures var u := NormalizeUnit(fromUnit);
      ToPrimary(p, fromUnit, quantity) == Err(CannotConvert("from", u, p.name)) <==>
        PurchaseMisses(p.purchaseUnits, u) && Volume(p, u, quantity, true).None? && Weight(p, u, quantity, true).None?
  {
    var u := NormalizeUnit(fromUnit);
    NormalizeIdempotent(fromUnit);
    PurchaseRoute(p, u, quantity, true);
    RefusalIsNotCrash("from", u, p.name);
    ToPrimaryRoutes(p, fromUnit, quantity);
  }

  /** Outside the primary unit, `ToPrimary` is the first route that does not miss, in the order purchase, volume, weight. */
  lemma ToPrimaryRoutes(p: ProductData, fromUnit: string, quantity: real)
    requires !IsPrimary(p, fromUnit)
    ensures var u := NormalizeUnit(fromUnit); var r := ToPrimary(p, fromUnit, quantity);
      var route := FromPurchaseUnit(p, u, quantity);
      && (route.Hit? ==> r == Ok(route.qty))
      && (route.Crash? ==> r == Err(route.error))
      && (route.Miss? && Volume(p, u, quantity, true).Some? ==> r == Ok(Volume(p, u, quantity, true).value))
      && (route.Miss? && Volume(p, u, quantity, true).None? && Weight(p, u, quantity, true).Some? ==>
            r == Ok(Weight(p, u, quantity, true).value))
      && (route.Miss? && Volume(p, u, quantity, true).None? && Weight(p, u, quantity, true).None? ==>
            r == Err(CannotConvert("from", u, p.name)))
  {
  }

  /**
   * Outside the primary unit, `FromPrimary` tries the first matching
   * purchase row, then the volume route, then the weight route, and
   * refuses exactly when none of them applies.
   */
  lemma FromPrimaryOrder(p: ProductData, toUnit: string, quantity: real)
    requires !IsPrimary(p, toUnit)
    ensures var u := NormalizeUnit(toUnit); var m := FirstMatch(p.purchaseUnits, u);
      m.Some? && p.purchaseUnits[m.value].conversion.None? ==> FromPrimary(p, toUnit, quantity) == Err(TYPE_ERROR)
    ensures var u := NormalizeUnit(toUnit); var m := FirstMatch(p.purchaseUnits, u);
      m.Some? && p.purchaseUnits[m.value].conversion.Some? && p.purchaseUnits[m.value].conversion.value > 0.0 ==>
        FromPrimary(p, toUnit, quantity) == Ok(Scaled(quantity, p.purchaseUnits[m.value].conversion.value, false))
    ensures var u := NormalizeUnit(toUnit);
      PurchaseMisses(p.purchaseUnits, u) && Volume(p, u, quantity, false).Some? ==>
        FromPrimary(p, toUnit, quantity) == Ok(Volume(p, u, quantity, false).value)
    ensures var u := NormalizeUnit(toUnit);
      PurchaseMisses(p.purchaseUnits, u) && Volume(p, u, quantity, false).None? && Weight(p, u, quantity, false).Some? ==>
        FromPrimary(p, toUnit, quantity) == Ok(Weight(p, u, quantity, false).value)
    ensures var u := NormalizeUnit(toUnit);
      FromPrimary(p, toUnit, quantity) == Err(CannotConvert("to", u, p.name)) <==>
        PurchaseMisses(p.purchaseUnits, u) && Volume(p, u, quantity, false).None? && Weight(p, u, quantity, false).None?
  {
    var u := NormalizeUnit(toUnit);
    NormalizeIdempotent(toUnit);
    PurchaseRoute(p, u, quantity, false);
    RefusalIsNotCrash("to", u, p.name);
    FromPrimaryRoutes(p, toUnit, quantity);
  }

  /** Outside the primary unit, `FromPrimary` is the first route that does not miss, in the order purchase, volume, weight. */
  lemma FromPrimaryRoutes(p: ProductData, toUnit: string, quantity: real)
    requires !IsPrimary(p, toUnit)
    ensures var u := NormalizeUnit(toUnit); var r := FromPrimary(p, toUnit, quantity);
      var route := ToPurchaseUnit(p, u, quantity);
      && (route.Hit? ==> r == Ok(route.qty))
      && (route.Crash? ==> r == Err(route.error))
      && (route.Miss? && Volume(p, u, quantity, false).Some? ==> r == Ok(Volume(p, u, quantity, false).value))
      && (route.Miss? && Volume(p, u, quantity, false).None? && Weight(p, u, quantity, false).Some? ==>
            r == Ok(Weight(p, u, quantity, false).value))
      && (route.Miss? && Volume(p, u, quantity, false).None? && Weight(p, u, quantity, false).None? ==>
            r == Err(CannotConvert("to", u, p.name)))
  {
  }

  /** The volume and weight routes apply, in either direction, exactly under `MeasureApplies`. */
  lemma RoutesApply(p: ProductData, unit: string, quantity: real, toPrimary: bool)
    ensures Volume(p, unit, quantity, toPrimary).Some? <==> VolumeApplies(p, unit)
    ensures Weight(p, unit, quantity, toPrimary).Some? <==> WeightApplies(p, unit)
  {
    TablesWellFormed();
    MeasureRoutes(VOLUME_TO_ML, p.volumeUnit, p.volumeFactor, unit, quantity);
    MeasureRoutes(WEIGHT_TO_G, p.weightUnit, p.weightFactor, unit, quantity);
  }

  /** Every unit a product can be counted in, normalized, distinct and sorted. */
  function AvailableCountUnits(p: ProductData): (r: seq<string>)
    ensures StrictlySorted(r)
    ensures forall x :: x in r <==> IsListedUnit(p, x)
  {
    CandidatesListed(p);
    SortedSet(Candidates(p))
  }

  /** The candidates gathered are exactly the listed units. */
  lemma CandidatesListed(p: ProductData)
    ensures forall x :: x in Candidates(p) <==> IsListedUnit(p, x)
  {
    TableKeys();
    var primary := if p.primaryCountUnit != "" then [NormalizeUnit(p.primaryCountUnit)] else [];
    var volume := if p.volumeUnit != "" then [NormalizeUnit(p.volumeUnit)] + VOLUME_UNITS else [];
    var weight := if p.weightUnit != "" then [NormalizeUnit(p.weightUnit)] + WEIGHT_UNITS else [];
    var bought := PurchaseUnitNames(p.purchaseUnits);
    assert Candidates(p) == primary + volume + weight + bought;
    forall x ensures x in Candidates(p) <==> IsListedUnit(p, x) {
      assert x in primary + volume + weight + bought <==> x in primary || x in volume || x in weight || x in bought;
      assert x in VOLUME_UNITS <==> x in Elems(VOLUME_UNITS);
      assert x in WEIGHT_UNITS <==> x in Elems(WEIGHT_UNITS);
    }
  }

  /** Independent statement of what `AvailableCountUnits` lists. */
  ghost predicate IsListedUnit(p: ProductData, x: string)
  {
    (p.primaryCountUnit != "" && x == NormalizeUnit(p.primaryCountUnit)) ||
    (p.volumeUnit != "" && (x == NormalizeUnit(p.volumeUnit) || x in VOLUME_TO_ML)) ||
    (p.weightUnit != "" && (x == NormalizeUnit(p.weightUnit) || x in WEIGHT_TO_G)) ||
    (exists i :: 0 <= i < |p.purchaseUnits| && p.purchaseUnits[i].purchaseUnit != "" &&
      x == NormalizeUnit(p.purchaseUnits[i].purchaseUnit))
  }

  function PurchaseUnitNames(rows: seq<PurchaseRow>): (r: seq<string>)
    ensures forall x :: x in r <==>
      exists i :: 0 <= i < |rows| && rows[i].purchaseUnit != "" && x == NormalizeUnit(rows[i].purchaseUnit)
  {
    if |rows| == 0 then []
    else
      var rest := PurchaseUnitNames(rows[1..]);
      assert forall x :: x in rest <==>
        exists i :: 1 <= i < |rows| && rows[i].purchaseUnit != "" && x == NormalizeUnit(rows[i].purchaseUnit) by {
        forall x ensures x in rest <==>
          exists i :: 1 <= i < |rows| && rows[i].purchaseUnit != "" && x == NormalizeUnit(rows[i].purchaseUnit) {
          if x in rest {
            var j :| 0 <= j < |rows[1..]| && rows[1..][j].purchaseUnit != "" && x == NormalizeUnit(rows[1..][j].purchaseUnit);
            assert rows[j + 1] == rows[1..][j];
          }
          if exists i :: 1 <= i < |rows| && rows[i].purchaseUnit != "" && x == NormalizeUnit(rows[i].purchaseUnit) {
            var i :| 1 <= i < |rows| && rows[i].purchaseUnit != "" && x == NormalizeUnit(rows[i].purchaseUnit);
            assert rows[1..][i - 1] == rows[i];
          }
        }
      }
      (if rows[0].purchaseUnit != "" then [NormalizeUnit(rows[0].purchaseUnit)] else []) + rest
  }

  function Candidates(p: ProductData): seq<string>
  {
    (if p.primaryCountUnit != "" then [NormalizeUnit(p.primaryCountUnit)] else []) +
    (if p.volumeUnit != "" then [NormalizeUnit(p.volumeUnit)] + VOLUME_UNITS else []) +
    (if p.weightUnit != "" then [NormalizeUnit(p.weightUnit)] + WEIGHT_UNITS else []) +
    PurchaseUnitNames(p.purchaseUnits)
  }

  // ---------------------------------------------------------------------
  // Properties of the hub
  // ---------------------------------------------------------------------

  lemma MulCancel(a: real, b: real, c: real)
    requires c != 0.0 && a * c == b * c
    ensures a == b
  {
  }

  lemma ScaleTrip(q: real, k: real)
    requires k != 0.0
    ensures (q / k) * k == q && (q * k) / k == q
  {
    DivCancels(q, k);
    DivCancels(q * k, k);
    MulCancel(q * k / k, q, k);
  }

  /** Into primary units through a base unit and back out again. */
  lemma BaseForward(table: map<string, real>, base: string, k: real, f: string, quantity: real)
    requires PositiveTable(table) && k > 0.0
    requires NormalizeUnit(f) == f && NormalizeUnit(base) == base
    requires FromBase(table, base, k, f, quantity).Some?
    ensures var back := ToBase(table, base, k, f, FromBase(table, base, k, f, quantity).value);
      back.Some? && back.value == quantity
  {
    var x := FromBase(table, base, k, f, quantity).value;
    if f == base {
      assert x == quantity / k;
      ScaleTrip(quantity, k);
    } else {
      var s1 := Standard(table, quantity, f, base).value;
      assert x == s1 / k;
      ScaleTrip(s1, k);
      var s2 := ToBase(table, base, k, f, x).value;
      assert s2 * table[f] == (x * k) * table[base];
      MulEq(x * k, s1, table[base]);
      MulCancel(s2, quantity, table[f]);
    }
  }

  /** Out of primary units through a base unit and back in again. */
  lemma BaseBackward(table: map<string, real>, base: string, k: real, f: string, quantity: real)
    requires PositiveTable(table) && k > 0.0
    requires NormalizeUnit(f) == f && NormalizeUnit(base) == base
    requires ToBase(table, base, k, f, quantity).Some?
    ensures var back := FromBase(table, base, k, f, ToBase(table, base, k, f, quantity).value);
      back.Some? && back.value == quantity
  {
    var y := ToBase(table, base, k, f, quantity).value;
    ScaleTrip(quantity, k);
    if f == base {
      assert y == quantity * k;
    } else {
      assert y * table[f] == (quantity * k) * table[base];
      var s3 := Standard(table, y, f, base).value;
      assert s3 * table[base] == y * table[f];
      MulCancel(s3, quantity * k, table[base]);
      assert FromBase(table, base, k, f, y).value == s3 / k;
    }
  }

  lemma MulEq(a: real, b: real, c: real)
    requires a == b
    ensures a * c == b * c
  {
  }

  lemma MeasureRoundTrip(table: map<string, real>, unit: string, factor: Option<real>, other: string, quantity: real)
    requires PositiveTable(table)
    ensures FromMeasure(table, unit, factor, other, quantity).Some? ==>
      ToMeasure(table, unit, factor, other, FromMeasure(table, unit, factor, other, quantity).value) == Some(quantity)
    ensures ToMeasure(table, unit, factor, other, quantity).Some? ==>
      FromMeasure(table, unit, factor, other, ToMeasure(table, unit, factor, other, quantity).value) == Some(quantity)
  {
    if Usable(unit, factor) {
      NormalizeIdempotent(other);
      NormalizeIdempotent(unit);
      var base, k, f := NormalizeUnit(unit), factor.value, NormalizeUnit(other);
      if FromBase(table, base, k, f, quantity).Some? { BaseForward(table, base, k, f, quantity); }
      if ToBase(table, base, k, f, quantity).Some? { BaseBackward(table, base, k, f, quantity); }
    }
  }

  /** The purchase route picks its row by unit alone, so both directions agree on the outcome kind. */
  lemma PurchaseShape(p: ProductData, unit: string, q1: real, q2: real)
    ensures FromPurchaseUnit(p, unit, q1).Miss? <==> ToPurchaseUnit(p, unit, q2).Miss?
    ensures FromPurchaseUnit(p, unit, q1).Crash? <==> ToPurchaseUnit(p, unit, q2).Crash?
    ensures FromPurchaseUnit(p, unit, q1).Miss? <==> FromPurchaseUnit(p, unit, q2).Miss?
    ensures FromPurchaseUnit(p, unit, q1).Crash? <==> FromPurchaseUnit(p, unit, q2).Crash?
  {
  }

  /** A purchase row multiplies one way and divides the other. */
  lemma PurchaseRoundTrip(p: ProductData, unit: string, quantity: real)
    ensures FromPurchaseUnit(p, unit, quantity).Hit? ==>
      var back := ToPurchaseUnit(p, unit, FromPurchaseUnit(p, unit, quantity).qty);
      back.Hit? && back.qty == quantity
    ensures ToPurchaseUnit(p, unit, quantity).Hit? ==>
      var back := FromPurchaseUnit(p, unit, ToPurchaseUnit(p, unit, quantity).qty);
      back.Hit? && back.qty == quantity
  {
    var m := FirstMatch(p.purchaseUnits, NormalizeUnit(unit));
    if m.Some? {
      ApplyRowTrip(p.purchaseUnits[m.value].conversion, quantity);
    }
  }

  lemma ApplyRowTrip(conversion: Option<real>, quantity: real)
    ensures ApplyRow(conversion, quantity, true).Hit? ==>
      var back := ApplyRow(conversion, ApplyRow(conversion, quantity, true).qty, false);
      back.Hit? && back.qty == quantity
    ensures ApplyRow(conversion, quantity, false).Hit? ==>
      var back := ApplyRow(conversion, ApplyRow(conversion, quantity, false).qty, true);
      back.Hit? && back.qty == quantity
  {
    if conversion.Some? && conversion.value > 0.0 {
      var c := conversion.value;
      ScaleTrip(quantity, c);
      assert ApplyRow(conversion, quantity, true).qty == quantity * c;
      assert ApplyRow(conversion, quantity * c, false).qty == quantity * c / c;
      assert ApplyRow(conversion, quantity, false).qty == quantity / c;
      assert ApplyRow(conversion, quantity / c, true).qty == quantity / c * c;
    }
  }

  /** Routes that apply do not depend on the quantity, so the same row or measure is used both ways. */
  lemma {:induction false} ToPrimaryRoundTrip(p: ProductData, unit: string, quantity: real)
    ensures ToPrimary(p, unit, quantity).Ok? ==> FromPrimary(p, unit, ToPrimary(p, unit, quantity).value) == Ok(quantity)
  {
    TablesWellFormed();
    var u := NormalizeUnit(unit);
    NormalizeIdempotent(unit);
    assert NormalizeUnit(u) == u;
    var primary := NormalizeUnit(p.primaryCountUnit);
    var r := ToPrimary(p, unit, quantity);
    if r.Ok? && !(primary != "" && u == primary) {
      var x := r.value;
      var fp := FromPurchaseUnit(p, u, quantity);
      PurchaseShape(p, u, quantity, x);
      if fp.Hit? {
        PurchaseRoundTrip(p, u, quantity);
        assert x == fp.qty;
      } else {
        assert fp.Miss?;
        var v := FromMeasure(VOLUME_TO_ML, p.volumeUnit, p.volumeFactor, u, quantity);
        MeasureRoutes(VOLUME_TO_ML, p.volumeUnit, p.volumeFactor, u, quantity);
        MeasureRoutes(VOLUME_TO_ML, p.volumeUnit, p.volumeFactor, u, x);
        if v.Some? {
          assert x == v.value;
          MeasureRoundTrip(VOLUME_TO_ML, p.volumeUnit, p.volumeFactor, u, quantity);
        } else {
          var w := FromMeasure(WEIGHT_TO_G, p.weightUnit, p.weightFactor, u, quantity);
          assert x == w.value;
          MeasureRoundTrip(WEIGHT_TO_G, p.weightUnit, p.weightFactor, u, quantity);
        }
      }
    }
  }

  lemma {:induction false} FromPrimaryRoundTrip(p: ProductData, unit: string, quantity: real)
    ensures FromPrimary(p, unit, quantity).Ok? ==> ToPrimary(p, unit, FromPrimary(p, unit, quantity).value) == Ok(quantity)
  {
    TablesWellFormed();
    var u := NormalizeUnit(unit);
    NormalizeIdempotent(unit);
    assert NormalizeUnit(u) == u;
    var primary := NormalizeUnit(p.primaryCountUnit);
    var r := FromPrimary(p, unit, quantity);
    if r.Ok? && !(primary != "" && u == primary) {
      var x := r.value;
      var tp := ToPurchaseUnit(p, u, quantity);
      PurchaseShape(p, u, x, quantity);
      if tp.Hit? {
        PurchaseRoundTrip(p, u, quantity);
        assert x == tp.qty;
      } else {
        assert tp.Miss?;
        var v := ToMeasure(VOLUME_TO_ML, p.volumeUnit, p.volumeFactor, u, quantity);
        MeasureRoutes(VOLUME_TO_ML, p.volumeUnit, p.volumeFactor, u, quantity);
        MeasureRoutes(VOLUME_TO_ML, p.volumeUnit, p.volumeFactor, u, x);
        if v.Some? {
          assert x == v.value;
          MeasureRoundTrip(VOLUME_TO_ML, p.volumeUnit, p.volumeFactor, u, quantity);
        } else {
          var w := ToMeasure(WEIGHT_TO_G, p.weightUnit, p.weightFactor, u, quantity);
          assert x == w.value;
          MeasureRoundTrip(WEIGHT_TO_G, p.weightUnit, p.weightFactor, u, quantity);
        }
      }
    }
  }

  /** Converting there and back returns the original quantity. */
  lemma BetweenRoundTrip(p: ProductData, a: string, b: string, quantity: real)
    ensures Between(p, a, b, quantity).Ok? ==> Between(p, b, a, Between(p, a, b, quantity).value) == Ok(quantity)
  {
    if Between(p, a, b, quantity).Ok? {
      var x := ToPrimary(p, a, quantity).value;
      ToPrimaryRoundTrip(p, a, quantity);
      FromPrimaryRoundTrip(p, b, x);
    }
  }

  /** A unit converted to itself is unchanged whenever the unit is convertible. */
  lemma BetweenSameUnit(p: ProductData, a: string, quantity: real)
    ensures ToPrimary(p, a, quantity).Ok? ==> Between(p, a, a, quantity) == Ok(quantity)
  {
    ToPrimaryRoundTrip(p, a, quantity);
  }

  /** Whether a unit converts at all never depends on the quantity. */
  lemma {:induction false} ConvertibilityIgnoresQuantity(p: ProductData, unit: string, q1: real, q2: real)
    ensures ToPrimary(p, unit, q1).Ok? <==> ToPrimary(p, unit, q2).Ok?
    ensures FromPrimary(p, unit, q1).Ok? <==> FromPrimary(p, unit, q2).Ok?
  {
    TablesWellFormed();
    var u := NormalizeUnit(unit);
    NormalizeIdempotent(unit);
    assert NormalizeUnit(u) == u;
    PurchaseShape(p, u, q1, q2);
    PurchaseShape(p, u, q2, q1);
    MeasureRoutes(VOLUME_TO_ML, p.volumeUnit, p.volumeFactor, u, q1);
    MeasureRoutes(VOLUME_TO_ML, p.volumeUnit, p.volumeFactor, u, q2);
    MeasureRoutes(WEIGHT_TO_G, p.weightUnit, p.weightFactor, u, q1);
    MeasureRoutes(WEIGHT_TO_G, p.weightUnit, p.weightFactor, u, q2);
  }

  /** Every unit that converts is listed, unless it only matched a purchase row by the row's name. */
  lemma {:induction false} ConvertibleUnitsAreListed(p: ProductData, unit: string, quantity: real)
    ensures ToPrimary(p, unit, quantity).Ok? ==>
      NormalizeUnit(unit) in AvailableCountUnits(p) ||
      exists i :: 0 <= i < |p.purchaseUnits| && RowMatches(p.purchaseUnits[i], NormalizeUnit(unit))
  {
    TablesWellFormed();
    var u := NormalizeUnit(unit);
    NormalizeIdempotent(unit);
    MeasureRoutes(VOLUME_TO_ML, p.volumeUnit, p.volumeFactor, u, quantity);
    MeasureRoutes(WEIGHT_TO_G, p.weightUnit, p.weightFactor, u, quantity);
    if ToPrimary(p, unit, quantity).Ok? {
      var primary := NormalizeUnit(p.primaryCountUnit);
      if primary != "" && u == primary {
        assert IsListedUnit(p, u);
      } else if FirstMatch(p.purchaseUnits, u).Some? {
      } else if MeasureApplies(VOLUME_TO_ML, p.volumeUnit, p.volumeFactor, u) {
        assert IsListedUnit(p, u);
      } else {
        assert IsListedUnit(p, u);
      }
    }
  }

  /** Product data as validated products carry it: positive factors with standard base units. */
  predicate WellConfigured(p: ProductData)
  {
    (p.primaryCountUnit != "" ==> NormalizeUnit(p.primaryCountUnit) != "") &&
    (p.volumeUnit != "" ==> Usable(p.volumeUnit, p.volumeFactor) && NormalizeUnit(p.volumeUnit) in VOLUME_TO_ML) &&
    (p.weightUnit != "" ==> Usable(p.weightUnit, p.weightFactor) && NormalizeUnit(p.weightUnit) in WEIGHT_TO_G) &&
    (forall i :: 0 <= i < |p.purchaseUnits| ==>
      p.purchaseUnits[i].conversion.Some? && p.purchaseUnits[i].conversion.value > 0.0)
  }

  /** A string with no surrounding whitespace and no upper-case letter is its own normal form. */
  lemma NormalFormFixed(s: string)
    requires Stripped(s)
    requires forall i :: 0 <= i < |s| ==> !('A' <= s[i] <= 'Z')
    ensures NormalizeUnit(s) == s
  {
    StripOfStripped(s);
  }

  lemma KeysNormalized()
    ensures forall k :: k in VOLUME_TO_ML ==> NormalizeUnit(k) == k
    ensures forall k :: k in WEIGHT_TO_G ==> NormalizeUnit(k) == k
  {
    forall k | k in VOLUME_TO_ML ensures NormalizeUnit(k) == k { NormalFormFixed(k); }
    forall k | k in WEIGHT_TO_G ensures NormalizeUnit(k) == k { NormalFormFixed(k); }
  }

  /** Everything listed is already in normal form. */
  lemma ListedIsNormalized(p: ProductData, x: string)
    requires IsListedUnit(p, x)
    ensures NormalizeUnit(x) == x
  {
    KeysNormalized();
    if p.primaryCountUnit != "" && x == NormalizeUnit(p.primaryCountUnit) {
      NormalizeIdempotent(p.primaryCountUnit);
    } else if p.volumeUnit != "" && x == NormalizeUnit(p.volumeUnit) {
      NormalizeIdempotent(p.volumeUnit);
    } else if p.weightUnit != "" && x == NormalizeUnit(p.weightUnit) {
      NormalizeIdempotent(p.weightUnit);
    } else if x in VOLUME_TO_ML || x in WEIGHT_TO_G {
    } else {
      var i :| 0 <= i < |p.purchaseUnits| && p.purchaseUnits[i].purchaseUnit != "" &&
        x == NormalizeUnit(p.purchaseUnits[i].purchaseUnit);
      NormalizeIdempotent(p.purchaseUnits[i].purchaseUnit);
    }
  }

  /** For well-configured products every listed unit converts. */
  lemma {:induction false} ListedUnitsConvert(p: ProductData, unit: string, quantity: real)
    requires WellConfigured(p)
    requires unit in AvailableCountUnits(p)
    ensures ToPrimary(p, unit, quantity).Ok?
    ensures FromPrimary(p, unit, quantity).Ok?
  {
    TablesWellFormed();
    assert IsListedUnit(p, unit);
    ListedIsNormalized(p, unit);
    var primary := NormalizeUnit(p.primaryCountUnit);
    MeasureRoutes(VOLUME_TO_ML, p.volumeUnit, p.volumeFactor, unit, quantity);
    MeasureRoutes(WEIGHT_TO_G, p.weightUnit, p.weightFactor, unit, quantity);
    var m := FirstMatch(p.purchaseUnits, unit);
    if primary != "" && unit == primary {
    } else if m.Some? {
      assert p.purchaseUnits[m.value].conversion.Some?;
    } else {
      if p.volumeUnit != "" && (unit == NormalizeUnit(p.volumeUnit) || unit in VOLUME_TO_ML) {
        assert MeasureApplies(VOLUME_TO_ML, p.volumeUnit, p.volumeFactor, unit);
      } else if p.weightUnit != "" && (unit == NormalizeUnit(p.weightUnit) || unit in WEIGHT_TO_G) {
        assert MeasureApplies(WEIGHT_TO_G, p.weightUnit, p.weightFactor, unit);
      }
    }
  }
}
