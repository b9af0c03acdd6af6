// The Recipe document: validation against departments, products and other
// recipes, per-row and total costing, manual and inherited allergens, and
// the refresh of parent recipes after a save.  The tables the document
// reads are maps passed in, and the conversion of a product quantity to its
// primary unit is a function parameter.

module Recipes {
  import opened Common
  import ProductDoc

  const PRODUCT: string := "Product"
  const RECIPE: string := "Recipe"

  /** A row of the recipe's ingredient table. */
  datatype Ingredient = Ingredient(
    kind: string,
    product: string,
    subrecipe: string,
    quantity: Option<real>,
    unit: string,
    costPerUnit: Option<real>,
    baseQuantity: real,
    costTotal: real,
    rowName: string)

  /** A row of the inherited-allergen table. */
  datatype InheritedRow = InheritedRow(allergen: string, sourceRecipes: string)

  /** A stored recipe, as another recipe reads it. */
  datatype RecipeRecord = RecipeRecord(
    name: string,
    recipeName: string,
    recipeCode: string,
    company: string,
    department: string,
    yieldQuantity: Option<real>,
    costPerUnit: Option<real>,
    totalCost: real,
    ingredients: seq<Ingredient>,
    allergens: seq<string>,
    inherited: seq<InheritedRow>,
    yieldUnit: string,
    isPrepItem: bool,
    outputProduct: string)

  /** What a recipe reads about a product. */
  datatype ProductInfo = ProductInfo(productName: string, company: string, defaultDepartment: string)

  /** The rest of the database: the company of each department, the products, and unit conversion. */
  datatype Catalog = Catalog(
    departments: map<string, string>,
    products: map<string, ProductInfo>,
    convert: ProductDoc.Converter)

  type Records = map<string, RecipeRecord>

  /** Python's `x or 0.0` on an optional number. */
  function OrZero(x: Option<real>): real
  {
    if x.Some? then x.value else 0.0
  }

  /** The naming series `RECIPE-.#####`. */
  function SeriesCode(counter: nat): (r: string)
    ensures IsPrefix("RECIPE-", r) && |r| >= 12
  {
    "RECIPE-" + FormatPadded(counter, 5)
  }

  // ---------------------------------------------------------------------
  // Validation
  // ---------------------------------------------------------------------

  /**
   * `_ensure_department`: the company the recipe ends up with (its own, or
   * the department's when it has none), or the first refusal.
   */
  function DepartmentCompany(department: string, company: string, departments: map<string, string>): (r: Result<string>)
    ensures r.Ok? <==>
      (department != "" && department in departments && Strip(departments[department]) != "" &&
       (company == "" || company == Strip(departments[department])))
    ensures r.Ok? ==> r.value == Strip(departments[department]) && r.value != ""
    ensures r.Ok? && company != "" ==> r.value == company
  {
    if department == "" then Err("Recipes must be assigned to a department.")
    else if department !in departments then Err("Department " + department + " does not exist.")
    else
      var deptCompany := Strip(departments[department]);
      if deptCompany == "" then
        Err("Department " + department + " must be linked to a company before recipes can reference it.")
      else if company != "" && company != deptCompany then
        Err("Recipe company " + company + " must match the department's company " + deptCompany + ".")
      else Ok(deptCompany)
  }

  /** A prep recipe: flagged as a prep item, or of type "prep" in any letter case. */
  predicate IsPrep(isPrepItem: bool, recipeType: string)
  {
    isPrepItem || Lower(recipeType) == "prep"
  }

  /** The output product's department and company, when set, agree with the recipe's. */
  predicate OutputAgrees(outputProduct: string, department: string, company: string, products: map<string, ProductInfo>)
  {
    outputProduct != "" && outputProduct in products ==>
      var p := products[outputProduct];
      (p.defaultDepartment == "" || department == "" || p.defaultDepartment == department) &&
      (p.company == "" || company == "" || p.company == company)
  }

  /** `_ensure_output_product`. */
  function OutputProductError(prep: bool, outputProduct: string, department: string, company: string,
                              products: map<string, ProductInfo>): (r: Option<string>)
    ensures r.None? <==> (!prep || outputProduct != "") && OutputAgrees(outputProduct, department, company, products)
  {
    if prep && outputProduct == "" then Some("Prep recipes require an output product.")
    else if outputProduct != "" && outputProduct in products then
      var p := products[outputProduct];
      if p.defaultDepartment != "" && department != "" && p.defaultDepartment != department then
        Some("Output product " + outputProduct + " belongs to department " + p.defaultDepartment +
             ", which does not match recipe department " + department + ".")
      else if p.company != "" && company != "" && p.company != company then
        Some("Output product " + outputProduct + " belongs to company " + p.company +
             ", which does not match recipe company " + company + ".")
      else None
    else None
  }

  /** Another stored recipe already uses the code (any stored recipe, for a new document). */
  predicate CodeTaken(code: string, name: string, isNew: bool, records: Records)
  {
    code != "" && exists n :: n in records && records[n].recipeCode == code && (isNew || n != name)
  }

  /** `_ensure_unique_code`. */
  function UniqueCodeError(code: string, name: string, isNew: bool, records: Records): (r: Option<string>)
    ensures r.Some? <==> CodeTaken(code, name, isNew, records)
  {
    if CodeTaken(code, name, isNew, records) then Some("Recipe code " + code + " already exists.") else None
  }

  /** Some Recipe ingredient names the recipe itself. */
  predicate SelfReferencing(rows: seq<Ingredient>, name: string)
  {
    exists i :: 0 <= i < |rows| && rows[i].kind == RECIPE && rows[i].subrecipe == name
  }

  /** `_ensure_no_self_reference`. */
  function SelfReferenceError(rows: seq<Ingredient>, name: string): (r: Option<string>)
    ensures r.Some? <==> SelfReferencing(rows, name)
  {
    if SelfReferencing(rows, name) then Some("Recipe cannot include itself as a subrecipe.") else None
  }

  /** A row's product or subrecipe on record, when it has one, agrees with the recipe's company and department. */
  predicate RowAligned(row: Ingredient, company: string, department: string, products: map<string, ProductInfo>, records: Records)
  {
    (row.kind == PRODUCT && row.product != "" && row.product in products ==>
      (products[row.product].company == "" || products[row.product].company == company) &&
      (products[row.product].defaultDepartment == "" || products[row.product].defaultDepartment == department)) &&
    (row.kind == RECIPE && row.subrecipe != "" && row.subrecipe in records ==>
      (records[row.subrecipe].company == "" || records[row.subrecipe].company == company) &&
      (records[row.subrecipe].department == "" || records[row.subrecipe].department == department))
  }

  /** The refusal for one row, in the order the checks are made. */
  function RowAlignmentError(row: Ingredient, company: string, department: string,
                             products: map<string, ProductInfo>, records: Records): (r: Option<string>)
    ensures r.None? <==> RowAligned(row, company, department, products, records)
  {
    if row.kind == PRODUCT && row.product != "" && row.product in products &&
       products[row.product].company != "" && products[row.product].company != company then
      Some(Mismatch("Product", row.product, "belongs to", "company", products[row.product].company, company))
    else if row.kind == PRODUCT && row.product != "" && row.product in products &&
       products[row.product].defaultDepartment != "" && products[row.product].defaultDepartment != department then
      Some(Mismatch("Product", row.product, "is assigned to", "department", products[row.product].defaultDepartment, department))
    else if row.kind == RECIPE && row.subrecipe != "" && row.subrecipe in records &&
       records[row.subrecipe].company != "" && records[row.subrecipe].company != company then
      Some(Mismatch("Subrecipe", row.subrecipe, "belongs to", "company", records[row.subrecipe].company, company))
    else if row.kind == RECIPE && row.subrecipe != "" && row.subrecipe in records &&
       records[row.subrecipe].department != "" && records[row.subrecipe].department != department then
      Some(Mismatch("Subrecipe", row.subrecipe, "is assigned to", "department", records[row.subrecipe].department, department))
    else None
  }

  /** The message for a row whose product or subrecipe sits in another company or department than the recipe. */
  function Mismatch(noun: string, name: string, relation: string, field: string, value: string, expected: string): string
  {
    noun + " " + name + " " + relation + " " + field + " " + value + ", which does not match recipe " + field + " " + expected + "."
  }

  /** `_ensure_ingredient_company_alignment`: skipped for a recipe without a company, else the first misaligned row. */
  function AlignmentError(rows: seq<Ingredient>, company: string, department: string,
                          products: map<string, ProductInfo>, records: Records): (r: Option<string>)
    ensures r.None? <==>
      (company == "" || forall i :: 0 <= i < |rows| ==> RowAligned(rows[i], company, department, products, records))
    decreases |rows|
  {
    if company == "" || rows == [] then None
    else match RowAlignmentError(rows[0], company, department, products, records)
      case Some(e) => Some(e)
      case None =>
        var rest := AlignmentError(rows[1..], company, department, products, records);
        assert forall i :: 1 <= i < |rows| ==> rows[i] == rows[1..][i - 1];
        rest
  }

  /**
   * The checks of `validate` before allergens and costs, in their order:
   * department, ingredients present, output product, unique code, no self
   * reference, positive yield, company alignment.  The result is the
   * company the recipe keeps.
   */
  function Checks(department: string, company: string, prep: bool, outputProduct: string, code: string,
                  name: string, isNew: bool, yieldQuantity: Option<real>, rows: seq<Ingredient>,
                  records: Records, cat: Catalog): (r: Result<string>)
  {
    match DepartmentCompany(department, company, cat.departments)
    case Err(e) => Err(e)
    case Ok(c) =>
      if rows == [] then Err("Add at least one ingredient to the recipe.")
      else if OutputProductError(prep, outputProduct, department, c, cat.products).Some? then
        Err(OutputProductError(prep, outputProduct, department, c, cat.products).value)
      else if UniqueCodeError(code, name, isNew, records).Some? then Err(UniqueCodeError(code, name, isNew, records).value)
      else if SelfReferenceError(rows, name).Some? then Err(SelfReferenceError(rows, name).value)
      else if OrZero(yieldQuantity) <= 0.0 then Err("Yield quantity must be greater than zero.")
      else if AlignmentError(rows, c, department, cat.products, records).Some? then
        Err(AlignmentError(rows, c, department, cat.products, records).value)
      else Ok(c)
  }

  /** The checks pass exactly when each of them does, and the recipe keeps the department's company. */
  lemma ChecksMeans(department: string, company: string, prep: bool, outputProduct: string, code: string,
                    name: string, isNew: bool, yieldQuantity: Option<real>, rows: seq<Ingredient>,
                    records: Records, cat: Catalog)
    ensures var r := Checks(department, company, prep, outputProduct, code, name, isNew, yieldQuantity, rows, records, cat);
      (r.Ok? <==>
      (DepartmentCompany(department, company, cat.departments).Ok? &&
       var c := DepartmentCompany(department, company, cat.departments).value;
       rows != [] &&
       (!prep || outputProduct != "") && OutputAgrees(outputProduct, department, c, cat.products) &&
       !CodeTaken(code, name, isNew, records) &&
       !SelfReferencing(rows, name) &&
       OrZero(yieldQuantity) > 0.0 &&
       forall i :: 0 <= i < |rows| ==> RowAligned(rows[i], c, department, cat.products, records))) &&
      (r.Ok? ==> r.value == DepartmentCompany(department, company, cat.departments).value)
  {
  }

  // ---------------------------------------------------------------------
  // Costing
  // ---------------------------------------------------------------------

  /** The product's display name for messages: its product name, else its name. */
  function DisplayName(product: string, products: map<string, ProductInfo>): string
  {
    if product in products && products[product].productName != "" then products[product].productName else product
  }

  /** Whether the row's kind and references allow costing it. */
  predicate Costable(row: Ingredient, records: Records, cat: Catalog)
  {
    if row.kind == PRODUCT then
      row.product != "" && cat.convert(row.product, row.unit, OrZero(row.quantity)).Ok? && row.costPerUnit.Some?
    else if row.kind == RECIPE then
      row.subrecipe != "" && row.subrecipe in records && OrZero(records[row.subrecipe].yieldQuantity) > 0.0
    else false
  }

  /**
   * `_calculate_row_cost` together with the assignment to `cost_total`: a
   * Product row costs its quantity in primary units times its own unit
   * cost, a Recipe row its quantity times the subrecipe's unit cost, which
   * it copies.
   */
  function RowCost(row: Ingredient, records: Records, cat: Catalog): (r: Result<Ingredient>)
    ensures r.Ok? <==> Costable(row, records, cat)
    ensures r.Ok? ==>
      r.value.kind == row.kind && r.value.product == row.product && r.value.subrecipe == row.subrecipe &&
      r.value.quantity == row.quantity && r.value.unit == row.unit && r.value.rowName == row.rowName
    ensures r.Ok? && row.kind == PRODUCT ==>
      Ok(r.value.baseQuantity) == cat.convert(row.product, row.unit, OrZero(row.quantity)) &&
      r.value.costPerUnit == row.costPerUnit &&
      r.value.costTotal == r.value.baseQuantity * row.costPerUnit.value
    ensures r.Ok? && row.kind == RECIPE ==>
      r.value.baseQuantity == OrZero(r.value.quantity) &&
      r.value.costPerUnit == Some(OrZero(records[r.value.subrecipe].costPerUnit)) &&
      r.value.costTotal == OrZero(r.value.quantity) * OrZero(records[r.value.subrecipe].costPerUnit)
  {
    var quantity := OrZero(row.quantity);
    if row.kind == PRODUCT then
      if row.product == "" then Err("Select a product for product ingredients.")
      else match cat.convert(row.product, row.unit, quantity)
        case Err(e) => Err(e)
        case Ok(base) =>
          if row.costPerUnit.None? then
            Err("Cost per unit is required for product ingredient " + DisplayName(row.product, cat.products) + ".")
          else Ok(row.(baseQuantity := base, costTotal := base * row.costPerUnit.value))
    else if row.kind == RECIPE then
      if row.subrecipe == "" then Err("Select a subrecipe for recipe ingredients.")
      else if row.subrecipe !in records then Err("Recipe " + row.subrecipe + " not found")
      else
        var sub := records[row.subrecipe];
        if OrZero(sub.yieldQuantity) <= 0.0 then
          Err("Subrecipe " + (if sub.recipeName != "" then sub.recipeName else sub.name) +
              " must have a positive yield to be used as an ingredient.")
        else
          var cpu := OrZero(sub.costPerUnit);
          Ok(row.(baseQuantity := quantity, costPerUnit := Some(cpu), costTotal := quantity * cpu))
    else Err("Invalid ingredient type " + row.kind + ".")
  }

  /** Every row costed in order; the first row that cannot be costed stops the computation. */
  function CostRows(rows: seq<Ingredient>, records: Records, cat: Catalog): Result<seq<Ingredient>>
  {
    if rows == [] then Ok([])
    else
      match CostRows(rows[..|rows| - 1], records, cat)
      case Err(e) => Err(e)
      case Ok(done) =>
        match RowCost(rows[|rows| - 1], records, cat)
        case Err(e) => Err(e)
        case Ok(row) => Ok(done + [row])
  }

  /** Costing succeeds exactly when every row can be costed, and then each row is costed on its own. */
  lemma {:induction false} CostRowsMeans(rows: seq<Ingredient>, records: Records, cat: Catalog)
    ensures var r := CostRows(rows, records, cat);
      (r.Ok? <==> forall i :: 0 <= i < |rows| ==> Costable(rows[i], records, cat)) &&
      (r.Ok? ==> |r.value| == |rows| && forall i :: 0 <= i < |rows| ==> RowCost(rows[i], records, cat) == Ok(r.value[i]))
  {
    if rows != [] {
      var init := rows[..|rows| - 1];
      CostRowsMeans(init, records, cat);
      assert forall i :: 0 <= i < |init| ==> init[i] == rows[i];
    }
  }

  lemma {:induction false} CostRowsErrExtends(rows: seq<Ingredient>, i: nat, records: Records, cat: Catalog)
    requires i <= |rows|
    requires CostRows(rows[..i], records, cat).Err?
    ensures CostRows(rows, records, cat).Err?
    decreases |rows| - i
  {
    if i < |rows| {
      assert rows[..i + 1][..i] == rows[..i];
      CostRowsErrExtends(rows, i + 1, records, cat);
    } else {
      assert rows[..i] == rows;
    }
  }

  /** The sum of the rows' cost totals. */
  function Total(rows: seq<Ingredient>): real
  {
    if rows == [] then 0.0 else Total(rows[..|rows| - 1]) + rows[|rows| - 1].costTotal
  }

  /** `cost_per_unit`: the total spread over the yield, or 0 when there is no yield. */
  function PerUnit(total: real, yieldQuantity: Option<real>): (r: real)
    ensures OrZero(yieldQuantity) != 0.0 ==> r * OrZero(yieldQuantity) == total
    ensures OrZero(yieldQuantity) == 0.0 ==> r == 0.0
  {
    var y := OrZero(yieldQuantity);
    if y != 0.0 then total / y else 0.0
  }

  /** The identity conversion, for products counted in the unit they are used in. */
  function SameUnit(): ProductDoc.Converter
  {
    (product: string, unit: string, quantity: real) => Ok(quantity)
  }

  /** The two rows of the house salsa, priced in the unit they are used in. */
  function SalsaRows(): seq<Ingredient>
  {
    [Ingredient(PRODUCT, "A", "", Some(2.0), "each", Some(1.5), 0.0, 0.0, "row-1"),
     Ingredient(PRODUCT, "B", "", Some(1.0), "each", Some(2.25), 0.0, 0.0, "row-2")]
  }

  /** Costing the house salsa fills in 3.00 for 2 at 1.50 and 2.25 for 1 at 2.25. */
  lemma SalsaCosted()
    ensures var c := CostRows(SalsaRows(), map[], Catalog(map[], map[], SameUnit()));
      c.Ok? && |c.value| == 2 && c.value[0].costTotal == 3.0 && c.value[1].costTotal == 2.25
  {
    var cat := Catalog(map[], map[], SameUnit());
    var rows := SalsaRows();
    assert Costable(rows[0], map[], cat);
    assert Costable(rows[1], map[], cat);
    CostRowsMeans(rows, map[], cat);
    assert cat.convert("A", "each", 2.0) == Ok(2.0) && cat.convert("B", "each", 1.0) == Ok(1.0);
  }

  /** The house salsa's costed rows add up to 5.25. */
  lemma SalsaTotal()
    ensures var c := CostRows(SalsaRows(), map[], Catalog(map[], map[], SameUnit()));
      c.Ok? && Total(c.value) == 5.25
  {
    SalsaCosted();
    var c := CostRows(SalsaRows(), map[], Catalog(map[], map[], SameUnit())).value;
    assert c[..1][..0] == [] && c[..1] == [c[0]];
    assert Total(c[..1]) == 3.0;
    assert Total(c) == Total(c[..1]) + c[1].costTotal;
  }

  /** Two product rows, 2 at 1.50 and 1 at 2.25, cost 5.25 in all and 1.3125 a unit over a yield of 4. */
  lemma HouseSalsa()
    ensures var c := CostRows(SalsaRows(), map[], Catalog(map[], map[], SameUnit()));
      c.Ok? && c.value[0].costTotal == 3.0 && c.value[1].costTotal == 2.25 &&
      Total(c.value) == 5.25 && PerUnit(Total(c.value), Some(4.0)) == 1.3125
  {
    SalsaCosted();
    SalsaTotal();
    assert PerUnit(5.25, Some(4.0)) == 5.25 / 4.0 == 1.3125;
  }

  /** A subrecipe costing 2.00 a unit, used twice, costs 4.00; over a yield of 2 that is 2.00 a unit. */
  lemma SubrecipeCostApplied(sub: RecipeRecord)
    requires sub.yieldQuantity == Some(1.0) && sub.costPerUnit == Some(2.0)
    ensures var rows := [Ingredient(RECIPE, "", "Guacamole Base", Some(2.0), "", None, 0.0, 0.0, "row-1")];
      var c := CostRows(rows, map["Guacamole Base" := sub], Catalog(map[], map[], SameUnit()));
      c.Ok? && Total(c.value) == 4.0 && PerUnit(Total(c.value), Some(2.0)) == 2.0
  {
    var rows := [Ingredient(RECIPE, "", "Guacamole Base", Some(2.0), "", None, 0.0, 0.0, "row-1")];
    var cat := Catalog(map[], map[], SameUnit());
    assert Costable(rows[0], map["Guacamole Base" := sub], cat);
    CostRowsMeans(rows, map["Guacamole Base" := sub], cat);
  }

  // ---------------------------------------------------------------------
  // Allergens
  // ---------------------------------------------------------------------

  /** The non-empty manual allergens, as a set. */
  function Manual(rows: seq<string>): set<string>
  {
    if rows == [] then {}
    else Manual(rows[..|rows| - 1]) + (if rows[|rows| - 1] != "" then {rows[|rows| - 1]} else {})
  }

  /** Each repeat of a non-empty manual allergen, in the order it is met. */
  function Repeated(rows: seq<string>): seq<string>
  {
    if rows == [] then []
    else
      var last := rows[|rows| - 1];
      Repeated(rows[..|rows| - 1]) + (if last != "" && last in Manual(rows[..|rows| - 1]) then [last] else [])
  }

  lemma {:induction false} ManualMeans(rows: seq<string>)
    ensures forall a :: a in Manual(rows) <==> a != "" && a in rows
  {
    if rows != [] {
      ManualMeans(rows[..|rows| - 1]);
      assert rows == rows[..|rows| - 1] + [rows[|rows| - 1]];
    }
  }

  /** An allergen is repeated exactly when it is non-empty and entered in two different rows. */
  lemma RepeatedMeans(rows: seq<string>)
    ensures forall a :: a in Repeated(rows) <==>
      a != "" && exists i, j :: 0 <= i < j < |rows| && rows[i] == a && rows[j] == a
  {
    forall a
      ensures a in Repeated(rows) <==> a != "" && exists i, j :: 0 <= i < j < |rows| && rows[i] == a && rows[j] == a
    {
      if a in Repeated(rows) {
        RepeatedSound(rows, a);
      }
      if a != "" && exists i, j :: 0 <= i < j < |rows| && rows[i] == a && rows[j] == a {
        RepeatedComplete(rows, a);
      }
    }
  }

  /** A repeated allergen is non-empty and entered in two different rows. */
  lemma {:induction false} RepeatedSound(rows: seq<string>, a: string)
    requires a in Repeated(rows)
    ensures a != "" && exists i, j :: 0 <= i < j < |rows| && rows[i] == a && rows[j] == a
  {
    var n := |rows| - 1;
    var init := rows[..n];
    if a in Repeated(init) {
      RepeatedSound(init, a);
      var i, j :| 0 <= i < j < |init| && init[i] == a && init[j] == a;
      assert rows[i] == a && rows[j] == a;
    } else {
      ManualMeans(init);
      assert a == rows[n] && a in init;
      var i :| 0 <= i < |init| && init[i] == a;
      assert rows[i] == a && rows[n] == a;
    }
  }

  /** A non-empty allergen entered in two different rows is repeated. */
  lemma {:induction false} RepeatedComplete(rows: seq<string>, a: string)
    requires a != "" && exists i, j :: 0 <= i < j < |rows| && rows[i] == a && rows[j] == a
    ensures a in Repeated(rows)
  {
    var n := |rows| - 1;
    var init := rows[..n];
    var i, j :| 0 <= i < j < |rows| && rows[i] == a && rows[j] == a;
    if j < n {
      assert init[i] == a && init[j] == a;
      RepeatedComplete(init, a);
    } else {
      ManualMeans(init);
      assert init[i] == a;
      assert a in init;
    }
  }

  lemma NoRepeats(rows: seq<string>)
    ensures Repeated(rows) == [] <==> forall i, j :: 0 <= i < j < |rows| && rows[i] != "" ==> rows[i] != rows[j]
  {
    RepeatedMeans(rows);
    if Repeated(rows) != [] {
      assert Repeated(rows)[0] in Repeated(rows);
    }
    if exists i, j :: 0 <= i < j < |rows| && rows[i] != "" && rows[i] == rows[j] {
      var i, j :| 0 <= i < j < |rows| && rows[i] != "" && rows[i] == rows[j];
      assert rows[i] in Repeated(rows);
    }
  }

  /** `_refresh_allergens`'s refusal of manual allergens entered twice, listing them sorted. */
  function DuplicateAllergenError(rows: seq<string>): (r: Option<string>)
    ensures r.None? <==>
      forall i, j :: 0 <= i < j < |rows| && rows[i] != "" ==> rows[i] != rows[j]
  {
    NoRepeats(rows);
    if Repeated(rows) == [] then None
    else Some("Allergens cannot be duplicated: " + Join(SortedSet(Repeated(rows)), ", ") + ".")
  }

  /** The Recipe ingredients that name a subrecipe, in order. */
  function Subrecipes(rows: seq<Ingredient>): (r: seq<string>)
    ensures forall s :: s in r <==> exists i :: 0 <= i < |rows| && rows[i].kind == RECIPE && rows[i].subrecipe != "" && rows[i].subrecipe == s
    decreases |rows|
  {
    if rows == [] then []
    else
      var rest := Subrecipes(rows[1..]);
      assert forall i :: 1 <= i < |rows| ==> rows[i] == rows[1..][i - 1];
      (if rows[0].kind == RECIPE && rows[0].subrecipe != "" then [rows[0].subrecipe] else []) + rest
  }

  /** The non-empty manual allergens of the stored recipes. */
  function AllAllergens(records: Records): set<string>
  {
    set n, a | n in records && a in records[n].allergens && a != "" :: a
  }

  /** The non-empty manual allergens of a row list, in order. */
  function NonEmptyAllergens(rows: seq<string>): (r: seq<string>)
    ensures forall a :: a in r <==> a in rows && a != ""
    decreases |rows|
  {
    if rows == [] then []
    else (if rows[0] != "" then [rows[0]] else []) + NonEmptyAllergens(rows[1..])
  }

  lemma VisitShrinks(keys: set<string>, visited: set<string>, name: string)
    requires name in keys && name !in visited
    ensures |keys - (visited + {name})| < |keys - visited|
  {
    assert keys - visited == (keys - (visited + {name})) + {name};
  }

  /**
   * `_collect_allergens_from_recipe`: nothing for a recipe already visited;
   * otherwise the recipe's own allergens and those collected from each of
   * its subrecipes, each with the visited set extended by this recipe.  The
   * result lists every allergen at least once.
   */
  function Collect(records: Records, name: string, visited: set<string>): (r: Result<seq<string>>)
    ensures name in visited ==> r == Ok([])
    ensures r.Ok? && name !in visited ==>
      name in records && forall a :: a in records[name].allergens && a != "" ==> a in r.value
    ensures r.Ok? ==> forall a :: a in r.value ==> a in AllAllergens(records)
    decreases |records.Keys - visited|, 0
  {
    if name in visited then Ok([])
    else if name !in records then Err("Recipe " + name + " not found")
    else
      VisitShrinks(records.Keys, visited, name);
      match CollectAll(records, Subrecipes(records[name].ingredients), visited + {name})
      case Err(e) => Err(e)
      case Ok(more) => Ok(NonEmptyAllergens(records[name].allergens) + more)
  }

  /** The allergens collected from each subrecipe in turn, all with the same visited set. */
  function CollectAll(records: Records, subs: seq<string>, visited: set<string>): (r: Result<seq<string>>)
    ensures r.Ok? ==> forall i :: 0 <= i < |subs| ==>
      Collect(records, subs[i], visited).Ok? && forall a :: a in Collect(records, subs[i], visited).value ==> a in r.value
    ensures r.Ok? ==> forall a :: a in r.value ==> a in AllAllergens(records)
    decreases |records.Keys - visited|, |subs| + 1
  {
    if subs == [] then Ok([])
    else match Collect(records, subs[0], visited)
      case Err(e) => Err(e)
      case Ok(first) =>
        match CollectAll(records, subs[1..], visited)
        case Err(e) => Err(e)
        case Ok(rest) =>
          assert forall i :: 1 <= i < |subs| ==> subs[i] == subs[1..][i - 1];
          Ok(first + rest)
  }

  /** `b` is a subrecipe of the stored recipe `a`. */
  predicate Uses(records: Records, a: string, b: string)
  {
    a in records && b in Subrecipes(records[a].ingredients)
  }

  /**
   * Collection is complete along any chain of subrecipes that repeats no
   * recipe and avoids the visited set: the last recipe's allergens are found.
   */
  lemma {:induction false} CollectReaches(records: Records, path: seq<string>, visited: set<string>)
    requires |path| > 0
    requires forall k :: 0 <= k < |path| - 1 ==> Uses(records, path[k], path[k + 1])
    requires forall k, m :: 0 <= k < m < |path| ==> path[k] != path[m]
    requires forall k :: 0 <= k < |path| ==> path[k] !in visited
    requires Collect(records, path[0], visited).Ok?
    ensures path[|path| - 1] in records
    ensures forall a :: a in records[path[|path| - 1]].allergens && a != "" ==> a in Collect(records, path[0], visited).value
    decreases |path|
  {
    if |path| > 1 {
      var v := visited + {path[0]};
      var subs := Subrecipes(records[path[0]].ingredients);
      var more := CollectAll(records, subs, v);
      assert more.Ok?;
      var i :| 0 <= i < |subs| && subs[i] == path[1];
      var rest := path[1..];
      forall k | 0 <= k < |rest| ensures rest[k] !in v {
        assert rest[k] == path[k + 1];
      }
      assert forall k :: 0 <= k < |rest| ==> rest[k] == path[k + 1];
      CollectReaches(records, rest, v);
      assert rest[|rest| - 1] == path[|path| - 1];
    }
  }

  /** `path` is a chain of stored recipes, each using the next, none of them in `visited`. */
  predicate Chain(records: Records, path: seq<string>, visited: set<string>)
  {
    |path| > 0 && path[|path| - 1] in records &&
    (forall k :: 0 <= k < |path| - 1 ==> Uses(records, path[k], path[k + 1])) &&
    (forall k :: 0 <= k < |path| ==> path[k] !in visited)
  }

  /** What the subrecipes yield comes from one of them. */
  lemma {:induction false} CollectAllFrom(records: Records, subs: seq<string>, visited: set<string>, a: string)
    requires CollectAll(records, subs, visited).Ok? && a in CollectAll(records, subs, visited).value
    ensures exists i :: 0 <= i < |subs| && Collect(records, subs[i], visited).Ok? && a in Collect(records, subs[i], visited).value
    decreases |subs|
  {
    var first := Collect(records, subs[0], visited).value;
    if a !in first {
      CollectAllFrom(records, subs[1..], visited, a);
      var i :| 0 <= i < |subs[1..]| && Collect(records, subs[1..][i], visited).Ok? && a in Collect(records, subs[1..][i], visited).value;
      assert subs[1..][i] == subs[i + 1];
    }
  }

  /**
   * Collection is sound: every allergen found is a manual allergen of a
   * recipe reached from `name` through a chain of subrecipes outside the
   * visited set.
   */
  lemma CollectSound(records: Records, name: string, visited: set<string>, a: string)
    requires Collect(records, name, visited).Ok? && a in Collect(records, name, visited).value
    ensures exists path :: Chain(records, path, visited) && path[0] == name && a in records[path[|path| - 1]].allergens
  {
    var path := CollectPath(records, name, visited, a);
  }

  /** The chain behind a collected allergen. */
  lemma {:induction false} CollectPath(records: Records, name: string, visited: set<string>, a: string)
    returns (path: seq<string>)
    requires Collect(records, name, visited).Ok? && a in Collect(records, name, visited).value
    ensures Chain(records, path, visited) && path[0] == name && a in records[path[|path| - 1]].allergens
    decreases |records.Keys - visited|
  {
    assert name !in visited;
    var v := visited + {name};
    var subs := Subrecipes(records[name].ingredients);
    var more := CollectAll(records, subs, v);
    assert more.Ok? && Collect(records, name, visited).value == NonEmptyAllergens(records[name].allergens) + more.value;
    if a in NonEmptyAllergens(records[name].allergens) {
      path := [name];
      assert Chain(records, path, visited);
    } else {
      assert a in more.value;
      CollectAllFrom(records, subs, v, a);
      var i :| 0 <= i < |subs| && Collect(records, subs[i], v).Ok? && a in Collect(records, subs[i], v).value;
      VisitShrinks(records.Keys, visited, name);
      var p := CollectPath(records, subs[i], v, a);
      ChainCons(records, name, p, visited);
      path := [name] + p;
      assert path[|path| - 1] == p[|p| - 1];
    }
  }

  /** A stored recipe in front of a chain that avoids it and uses the chain's head. */
  lemma ChainCons(records: Records, name: string, p: seq<string>, visited: set<string>)
    requires name !in visited
    requires Chain(records, p, visited + {name}) && Uses(records, name, p[0])
    ensures Chain(records, [name] + p, visited) && ([name] + p)[0] == name
  {
    var path := [name] + p;
    assert forall k :: 1 <= k < |path| ==> path[k] == p[k - 1];
    assert path[|path| - 1] in records;
    forall k | 0 <= k < |path| - 1 ensures Uses(records, path[k], path[k + 1]) {
      if k > 0 {
        assert Uses(records, p[k - 1], p[k]);
      }
    }
  }

  /** A cycle between two recipes ends: each recipe's allergens are collected once. */
  lemma CycleEnds()
    ensures var a := RecipeRecord("A", "", "", "", "", Some(1.0), None, 0.0,
                                  [Ingredient(RECIPE, "", "B", Some(1.0), "", None, 0.0, 0.0, "")], ["Gluten"], [], "", false, "");
      var b := RecipeRecord("B", "", "", "", "", Some(1.0), None, 0.0,
                            [Ingredient(RECIPE, "", "A", Some(1.0), "", None, 0.0, 0.0, "")], ["Soy"], [], "", false, "");
      Collect(map["A" := a, "B" := b], "A", {}) == Ok(["Gluten", "Soy"])
  {
    var a := RecipeRecord("A", "", "", "", "", Some(1.0), None, 0.0,
                          [Ingredient(RECIPE, "", "B", Some(1.0), "", None, 0.0, 0.0, "")], ["Gluten"], [], "", false, "");
    var b := RecipeRecord("B", "", "", "", "", Some(1.0), None, 0.0,
                          [Ingredient(RECIPE, "", "A", Some(1.0), "", None, 0.0, 0.0, "")], ["Soy"], [], "", false, "");
    var records := map["A" := a, "B" := b];
    assert Subrecipes(a.ingredients) == ["B"];
    assert Subrecipes(b.ingredients) == ["A"];
    assert NonEmptyAllergens(a.allergens) == ["Gluten"];
    assert NonEmptyAllergens(b.allergens) == ["Soy"];
    assert {"A"} + {"B"} == {"A", "B"};
    assert Collect(records, "A", {"A", "B"}) == Ok([]);
    assert ["A"][1..] == [];
    assert CollectAll(records, [], {"A", "B"}) == Ok([]);
    assert CollectAll(records, ["A"], {"A", "B"}) == Ok([] + []);
    var none: seq<string> := [];
    assert none + none == none;
    assert "B" !in {"A"} && "B" in records && records["B"] == b;
    assert Subrecipes(records["B"].ingredients) == ["A"];
    assert CollectAll(records, Subrecipes(records["B"].ingredients), {"A"} + {"B"}) == Ok([]);
    assert Collect(records, "B", {"A"}) == Ok(["Soy"]);
    assert ["B"][1..] == [];
    assert CollectAll(records, ["B"], {"A"}) == Ok(["Soy"]);
    var start: set<string> := {};
    assert start + {"A"} == {"A"};
    assert "A" !in start && "A" in records && records["A"] == a;
    assert CollectAll(records, Subrecipes(records["A"].ingredients), start + {"A"}) == Ok(["Soy"]);
    assert ["Gluten"] + ["Soy"] == ["Gluten", "Soy"];
  }

  /** The pairs (allergen, subrecipe) one collection contributes, leaving out manual allergens. */
  function Contribution(found: seq<string>, manual: set<string>, sub: string): seq<(string, string)>
  {
    if found == [] then []
    else
      var a := found[|found| - 1];
      Contribution(found[..|found| - 1], manual, sub) + (if a !in manual then [(a, sub)] else [])
  }

  /** The visited set a recipe starts collecting with: its own name, when it has one. */
  function StartVisited(name: string): set<string>
  {
    if name != "" then {name} else {}
  }

  /** The contributions of every Recipe ingredient naming a subrecipe, in row order. */
  function InheritedPairs(rows: seq<Ingredient>, manual: set<string>, visited: set<string>, records: Records): Result<seq<(string, string)>>
  {
    if rows == [] then Ok([])
    else
      var row := rows[|rows| - 1];
      match InheritedPairs(rows[..|rows| - 1], manual, visited, records)
      case Err(e) => Err(e)
      case Ok(done) =>
        if row.kind != RECIPE || row.subrecipe == "" then Ok(done)
        else match Collect(records, row.subrecipe, visited)
          case Err(e) => Err(e)
          case Ok(found) => Ok(done + Contribution(found, manual, row.subrecipe))
  }

  /** The recipes one allergen is inherited from, one entry per contribution. */
  function SourcesOf(pairs: seq<(string, string)>, allergen: string): seq<string>
  {
    if pairs == [] then []
    else
      SourcesOf(pairs[..|pairs| - 1], allergen) +
      (if pairs[|pairs| - 1].0 == allergen then [pairs[|pairs| - 1].1] else [])
  }

  /** The allergens of a list of pairs. */
  function AllergensOf(pairs: seq<(string, string)>): seq<string>
  {
    if pairs == [] then [] else AllergensOf(pairs[..|pairs| - 1]) + [pairs[|pairs| - 1].0]
  }

  /** The inherited row of one allergen: its sources sorted, without repeats, joined by ", ". */
  function RowFor(pairs: seq<(string, string)>, allergen: string): InheritedRow
  {
    InheritedRow(allergen, Join(SortedSet(SourcesOf(pairs, allergen)), ", "))
  }

  /** The rows for a list of allergens, in that order. */
  function RowsFor(pairs: seq<(string, string)>, keys: seq<string>): (r: seq<InheritedRow>)
    ensures |r| == |keys| && forall i :: 0 <= i < |keys| ==> r[i].allergen == keys[i]
  {
    if keys == [] then [] else RowsFor(pairs, keys[..|keys| - 1]) + [RowFor(pairs, keys[|keys| - 1])]
  }

  /** The inherited-allergen table: one row per inherited allergen, in sorted order. */
  function InheritedRows(pairs: seq<(string, string)>): seq<InheritedRow>
  {
    RowsFor(pairs, SortedSet(AllergensOf(pairs)))
  }

  /** The whole of `_refresh_allergens` on values: the refusal of repeats, else the new inherited table. */
  function RefreshedAllergens(name: string, allergens: seq<string>, rows: seq<Ingredient>, records: Records): Result<seq<InheritedRow>>
  {
    match DuplicateAllergenError(allergens)
    case Some(e) => Err(e)
    case None =>
      match InheritedPairs(rows, Manual(allergens), StartVisited(name), records)
      case Err(e) => Err(e)
      case Ok(pairs) => Ok(InheritedRows(pairs))
  }

  lemma {:induction false} ContributionMeans(found: seq<string>, manual: set<string>, sub: string)
    ensures forall p :: p in Contribution(found, manual, sub) <==> p.1 == sub && p.0 in found && p.0 !in manual
  {
    if found != [] {
      ContributionMeans(found[..|found| - 1], manual, sub);
      assert found == found[..|found| - 1] + [found[|found| - 1]];
    }
  }

  /** A row that contributes: a Recipe ingredient naming a subrecipe whose collection holds the allergen. */
  predicate Contributes(row: Ingredient, allergen: string, manual: set<string>, visited: set<string>, records: Records)
  {
    row.kind == RECIPE && row.subrecipe != "" && allergen !in manual &&
    Collect(records, row.subrecipe, visited).Ok? && allergen in Collect(records, row.subrecipe, visited).value
  }

  /**
   * The pairs are exactly the (allergen, subrecipe) combinations where the
   * subrecipe's collection holds an allergen that is not manual.
   */
  lemma {:induction false} InheritedPairsMeans(rows: seq<Ingredient>, manual: set<string>, visited: set<string>, records: Records)
    requires InheritedPairs(rows, manual, visited, records).Ok?
    ensures forall p :: p in InheritedPairs(rows, manual, visited, records).value <==>
      exists i :: 0 <= i < |rows| && rows[i].subrecipe == p.1 && Contributes(rows[i], p.0, manual, visited, records)
  {
    if rows != [] {
      var n := |rows| - 1;
      var init := rows[..n];
      var row := rows[n];
      InheritedPairsMeans(init, manual, visited, records);
      var pairs := InheritedPairs(rows, manual, visited, records).value;
      var done := InheritedPairs(init, manual, visited, records).value;
      forall p ensures p in pairs <==>
        exists i :: 0 <= i < |rows| && rows[i].subrecipe == p.1 && Contributes(rows[i], p.0, manual, visited, records)
      {
        if p in done {
          var i :| 0 <= i < |init| && init[i].subrecipe == p.1 && Contributes(init[i], p.0, manual, visited, records);
          assert rows[i] == init[i];
        }
        if exists i :: 0 <= i < |rows| && rows[i].subrecipe == p.1 && Contributes(rows[i], p.0, manual, visited, records) {
          var i :| 0 <= i < |rows| && rows[i].subrecipe == p.1 && Contributes(rows[i], p.0, manual, visited, records);
          if i < n {
            assert init[i] == rows[i];
          } else {
            ContributionMeans(Collect(records, row.subrecipe, visited).value, manual, row.subrecipe);
          }
        }
        if row.kind == RECIPE && row.subrecipe != "" {
          ContributionMeans(Collect(records, row.subrecipe, visited).value, manual, row.subrecipe);
          if p in pairs && p !in done {
            assert Contributes(rows[n], p.0, manual, visited, records);
          }
        }
      }
    }
  }

  lemma {:induction false} AllergensOfMeans(pairs: seq<(string, string)>)
    ensures forall a :: a in AllergensOf(pairs) <==> exists p :: p in pairs && p.0 == a
  {
    if pairs != [] {
      AllergensOfMeans(pairs[..|pairs| - 1]);
      assert pairs == pairs[..|pairs| - 1] + [pairs[|pairs| - 1]];
    }
  }

  lemma {:induction false} SourcesOfMeans(pairs: seq<(string, string)>, allergen: string)
    ensures forall s :: s in SourcesOf(pairs, allergen) <==> (allergen, s) in pairs
  {
    if pairs != [] {
      SourcesOfMeans(pairs[..|pairs| - 1], allergen);
      assert pairs == pairs[..|pairs| - 1] + [pairs[|pairs| - 1]];
    }
  }

  /** The allergen column of an inherited table. */
  function AllergenColumn(rows: seq<InheritedRow>): (r: seq<string>)
    ensures |r| == |rows| && forall i :: 0 <= i < |rows| ==> r[i] == rows[i].allergen
  {
    seq(|rows|, i requires 0 <= i < |rows| => rows[i].allergen)
  }

  /**
   * The inherited table lists, in strictly increasing order and once each,
   * exactly the allergens that occur in the pairs.
   */
  lemma InheritedRowsCover(pairs: seq<(string, string)>)
    ensures var column := AllergenColumn(InheritedRows(pairs));
      StrictlySorted(column) &&
      forall a :: a in column <==> exists p :: p in pairs && p.0 == a
  {
    var keys := SortedSet(AllergensOf(pairs));
    assert AllergenColumn(InheritedRows(pairs)) == keys;
    assert forall k :: k in keys <==> k in Elems(keys);
    AllergensOfMeans(pairs);
  }

  /** Each row of the inherited table is the row built for its allergen. */
  lemma InheritedRowsEach(pairs: seq<(string, string)>)
    ensures var rows := InheritedRows(pairs);
      forall i :: 0 <= i < |rows| ==> rows[i] == RowFor(pairs, rows[i].allergen)
  {
    var keys := SortedSet(AllergensOf(pairs));
    forall i | 0 <= i < |keys| ensures InheritedRows(pairs)[i] == RowFor(pairs, keys[i]) {
      RowsForEach(pairs, keys, i);
    }
  }

  lemma {:induction false} RowsForEach(pairs: seq<(string, string)>, keys: seq<string>, i: nat)
    requires i < |keys|
    ensures RowsFor(pairs, keys)[i] == RowFor(pairs, keys[i])
  {
    if i < |keys| - 1 {
      RowsForEach(pairs, keys[..|keys| - 1], i);
    }
  }

  /** A row's sources are exactly the subrecipes paired with its allergen, sorted without repeats and joined. */
  lemma RowForMeans(pairs: seq<(string, string)>, allergen: string)
    ensures var srcs := SortedSet(SourcesOf(pairs, allergen));
      RowFor(pairs, allergen).sourceRecipes == Join(srcs, ", ") && StrictlySorted(srcs) &&
      forall s :: s in srcs <==> (allergen, s) in pairs
  {
    var srcs := SortedSet(SourcesOf(pairs, allergen));
    SourcesOfMeans(pairs, allergen);
    assert forall s :: s in srcs <==> s in Elems(srcs);
  }

  /** An allergen entered by hand is never listed as inherited. */
  lemma ManualNotInherited(name: string, allergens: seq<string>, rows: seq<Ingredient>, records: Records, a: string)
    requires RefreshedAllergens(name, allergens, rows, records).Ok?
    requires a in allergens && a != ""
    ensures a !in AllergenColumn(RefreshedAllergens(name, allergens, rows, records).value)
  {
    var manual := Manual(allergens);
    var pairs := InheritedPairs(rows, manual, StartVisited(name), records).value;
    ManualMeans(allergens);
    InheritedPairsMeans(rows, manual, StartVisited(name), records);
    InheritedRowsCover(pairs);
  }

  /**
   * An allergen is inherited exactly when it is not entered by hand and the
   * collection from some subrecipe row holds it.
   */
  lemma RefreshedAllergensMeans(name: string, allergens: seq<string>, rows: seq<Ingredient>, records: Records)
    requires RefreshedAllergens(name, allergens, rows, records).Ok?
    ensures forall a :: a in AllergenColumn(RefreshedAllergens(name, allergens, rows, records).value) <==>
      exists i :: 0 <= i < |rows| && Contributes(rows[i], a, Manual(allergens), StartVisited(name), records)
  {
    var manual := Manual(allergens);
    var pairs := InheritedPairs(rows, manual, StartVisited(name), records).value;
    var column := AllergenColumn(RefreshedAllergens(name, allergens, rows, records).value);
    InheritedPairsMeans(rows, manual, StartVisited(name), records);
    InheritedRowsCover(pairs);
    forall a | exists i :: 0 <= i < |rows| && Contributes(rows[i], a, manual, StartVisited(name), records)
      ensures a in column
    {
      var i :| 0 <= i < |rows| && Contributes(rows[i], a, manual, StartVisited(name), records);
      assert (a, rows[i].subrecipe) in pairs;
    }
  }

  // ---------------------------------------------------------------------
  // The loops of `_refresh_allergens`
  // ---------------------------------------------------------------------

  /** The first loop: the manual allergens and their repeats. */
  method ScanAllergens(rows: seq<string>) returns (manual: set<string>, duplicates: seq<string>)
    ensures manual == Manual(rows) && duplicates == Repeated(rows)
  {
    manual := {};
    duplicates := [];
    var i := 0;
    while i < |rows|
      invariant 0 <= i <= |rows|
      invariant manual == Manual(rows[..i]) && duplicates == Repeated(rows[..i])
    {
      assert rows[..i + 1][..i] == rows[..i];
      var a := rows[i];
      if a != "" {
        if a in manual {
          duplicates := duplicates + [a];
        }
        manual := manual + {a};
      }
      i := i + 1;
    }
    assert rows[..i] == rows;
  }

  /** The inner loop: the pairs one subrecipe's allergens contribute. */
  method Contribute(pairs: seq<(string, string)>, found: seq<string>, manual: set<string>, sub: string)
    returns (r: seq<(string, string)>)
    ensures r == pairs + Contribution(found, manual, sub)
  {
    r := pairs;
    var k := 0;
    while k < |found|
      invariant 0 <= k <= |found|
      invariant r == pairs + Contribution(found[..k], manual, sub)
    {
      assert found[..k + 1][..k] == found[..k];
      if found[k] !in manual {
        r := r + [(found[k], sub)];
      }
      k := k + 1;
    }
    assert found[..k] == found;
  }

  /** The second loop: collect from every subrecipe row. */
  method GatherPairs(rows: seq<Ingredient>, manual: set<string>, visited: set<string>, records: Records)
    returns (err: Option<string>, pairs: seq<(string, string)>)
    ensures var r := InheritedPairs(rows, manual, visited, records);
      (err.None? <==> r.Ok?) && (r.Ok? ==> pairs == r.value)
  {
    pairs := [];
    var i := 0;
    while i < |rows|
      invariant 0 <= i <= |rows|
      invariant InheritedPairs(rows[..i], manual, visited, records) == Ok(pairs)
    {
      assert rows[..i + 1][..i] == rows[..i];
      var row := rows[i];
      if row.kind == RECIPE && row.subrecipe != "" {
        var found := Collect(records, row.subrecipe, visited);
        if found.Err? {
          PairsErrExtends(rows, i + 1, manual, visited, records);
          return Some(found.error), [];
        }
        pairs := Contribute(pairs, found.value, manual, row.subrecipe);
      }
      i := i + 1;
    }
    assert rows[..i] == rows;
    err := None;
  }

  lemma {:induction false} PairsErrExtends(rows: seq<Ingredient>, i: nat, manual: set<string>, visited: set<string>, records: Records)
    requires i <= |rows|
    requires InheritedPairs(rows[..i], manual, visited, records).Err?
    ensures InheritedPairs(rows, manual, visited, records).Err?
    decreases |rows| - i
  {
    if i < |rows| {
      assert rows[..i + 1][..i] == rows[..i];
      PairsErrExtends(rows, i + 1, manual, visited, records);
    } else {
      assert rows[..i] == rows;
    }
  }

  /** The third loop: one row per inherited allergen, in sorted order. */
  method BuildInheritedRows(pairs: seq<(string, string)>) returns (table: seq<InheritedRow>)
    ensures table == InheritedRows(pairs)
  {
    var keys := SortedSet(AllergensOf(pairs));
    table := [];
    var i := 0;
    while i < |keys|
      invariant 0 <= i <= |keys|
      invariant table == RowsFor(pairs, keys[..i])
    {
      assert keys[..i + 1][..i] == keys[..i];
      table := table + [RowFor(pairs, keys[i])];
      i := i + 1;
    }
    assert keys[..i] == keys;
  }

  // ---------------------------------------------------------------------
  // The document
  // ---------------------------------------------------------------------

  class Recipe {
    var name: string
    var recipeName: string
    var recipeCode: string
    var department: string
    var company: string
    var recipeType: string
    var isPrepItem: bool
    var outputProduct: string
    var yieldQuantity: Option<real>
    var ingredients: seq<Ingredient>
    var allergens: seq<string>
    var inheritedAllergens: seq<InheritedRow>
    var totalCost: real
    var costPerUnit: real

    /** `autoname`: keep a given recipe code, else draw the next from the series; the name is the code. */
    method Autoname(counter: nat)
      modifies this`recipeCode, this`name
      ensures old(recipeCode) != "" ==> recipeCode == old(recipeCode)
      ensures old(recipeCode) == "" ==> recipeCode == SeriesCode(counter)
      ensures name == recipeCode && recipeCode != ""
    {
      if recipeCode == "" {
        recipeCode := SeriesCode(counter);
      }
      name := recipeCode;
    }

    /** `_refresh_allergens`: refuse repeated manual allergens, then rebuild the inherited table. */
    method RefreshAllergens(records: Records) returns (err: Option<string>)
      modifies this`inheritedAllergens
      ensures var r := RefreshedAllergens(name, allergens, ingredients, records);
        (err.None? <==> r.Ok?) &&
        (r.Ok? ==> inheritedAllergens == r.value) &&
        (r.Err? ==> inheritedAllergens == old(inheritedAllergens))
    {
      var manual, duplicates := ScanAllergens(allergens);
      if duplicates != [] {
        RepeatedMeans(allergens);
        assert duplicates[0] in Repeated(allergens);
        return Some("Allergens cannot be duplicated: " + Join(SortedSet(duplicates), ", ") + ".");
      }
      RepeatedMeans(allergens);
      var e, pairs := GatherPairs(ingredients, manual, StartVisited(name), records);
      if e.Some? {
        return e;
      }
      inheritedAllergens := BuildInheritedRows(pairs);
      err := None;
    }

    /** `_calculate_costs`: cost every row, then the total and the cost per unit of yield. */
    method CalculateCosts(records: Records, cat: Catalog) returns (err: Option<string>)
      modifies this`ingredients, this`totalCost, this`costPerUnit
      ensures var c := CostRows(old(ingredients), records, cat);
        (err.None? <==> c.Ok?) &&
        (c.Ok? ==> ingredients == c.value && totalCost == Total(c.value) && costPerUnit == PerUnit(totalCost, yieldQuantity)) &&
        (c.Err? ==> ingredients == old(ingredients) && totalCost == old(totalCost) && costPerUnit == old(costPerUnit))
    {
      var rows := ingredients;
      var done: seq<Ingredient> := [];
      var total := 0.0;
      var i := 0;
      while i < |rows|
        invariant 0 <= i <= |rows|
        invariant CostRows(rows[..i], records, cat) == Ok(done)
        invariant total == Total(done)
      {
        assert rows[..i + 1][..i] == rows[..i];
        var row := RowCost(rows[i], records, cat);
        if row.Err? {
          CostRowsErrExtends(rows, i + 1, records, cat);
          return Some(row.error);
        }
        assert (done + [row.value])[..|done|] == done;
        done := done + [row.value];
        total := total + row.value.costTotal;
        i := i + 1;
      }
      assert rows[..i] == rows;
      ingredients := done;
      totalCost := total;
      costPerUnit := PerUnit(total, yieldQuantity);
      err := None;
    }

    /** The checks of `validate` before allergens and costs; a missing company takes the department's. */
    method ApplyChecks(records: Records, cat: Catalog, isNew: bool) returns (err: Option<string>)
      modifies this`company
      ensures var c := Checks(department, old(company), IsPrep(isPrepItem, recipeType), outputProduct, recipeCode,
                              name, isNew, yieldQuantity, ingredients, records, cat);
        (err.None? <==> c.Ok?) && (c.Ok? ==> company == c.value) && (c.Err? ==> company == old(company))
    {
      var c := Checks(department, company, IsPrep(isPrepItem, recipeType), outputProduct, recipeCode,
                      name, isNew, yieldQuantity, ingredients, records, cat);
      if c.Err? {
        return Some(c.error);
      }
      company := c.value;
      err := None;
    }

    /** The fields `validate` derives once the checks pass: inherited allergens, then costs. */
    method Derive(records: Records, cat: Catalog) returns (err: Option<string>)
      modifies this`inheritedAllergens, this`ingredients, this`totalCost, this`costPerUnit
      ensures var a := RefreshedAllergens(name, allergens, old(ingredients), records);
        var k := CostRows(old(ingredients), records, cat);
        (err.None? <==> a.Ok? && k.Ok?) &&
        (err.None? ==>
          inheritedAllergens == a.value && ingredients == k.value &&
          totalCost == Total(k.value) && costPerUnit == PerUnit(totalCost, yieldQuantity)) &&
        (a.Err? ==> inheritedAllergens == old(inheritedAllergens)) &&
        (a.Ok? ==> inheritedAllergens == a.value) &&
        (err.Some? ==> ingredients == old(ingredients) && totalCost == old(totalCost) && costPerUnit == old(costPerUnit))
    {
      err := RefreshAllergens(records);
      if err.Some? {
        return;
      }
      err := CalculateCosts(records, cat);
    }

    /** `validate`: the checks in order, the company default, then allergens and costs. */
    method Validate(records: Records, cat: Catalog, isNew: bool) returns (err: Option<string>)
      modifies this`company, this`inheritedAllergens, this`ingredients, this`totalCost, this`costPerUnit
      ensures var c := Checks(department, old(company), IsPrep(isPrepItem, recipeType), outputProduct, recipeCode,
                              name, isNew, yieldQuantity, old(ingredients), records, cat);
        var a := RefreshedAllergens(name, allergens, old(ingredients), records);
        var k := CostRows(old(ingredients), records, cat);
        (err.None? <==> c.Ok? && a.Ok? && k.Ok?) &&
        (err.None? ==>
          company == c.value && inheritedAllergens == a.value && ingredients == k.value &&
          totalCost == Total(k.value) && costPerUnit == PerUnit(totalCost, yieldQuantity))
      /** A failure leaves what the steps before it wrote: the company once the checks pass, the inherited allergens once refreshed. */
      ensures var c := Checks(department, old(company), IsPrep(isPrepItem, recipeType), outputProduct, recipeCode,
                              name, isNew, yieldQuantity, old(ingredients), records, cat);
        var a := RefreshedAllergens(name, allergens, old(ingredients), records);
        err.Some? ==>
          && company == (if c.Ok? then c.value else old(company))
          && inheritedAllergens == (if c.Ok? && a.Ok? then a.value else old(inheritedAllergens))
          && ingredients == old(ingredients) && totalCost == old(totalCost) && costPerUnit == old(costPerUnit)
    {
      err := ApplyChecks(records, cat, isNew);
      if err.Some? {
        return;
      }
      err := Derive(records, cat);
    }
  }

  /** A validated recipe has a department of a company, ingredients, a positive yield and no self reference. */
  lemma AcceptedRecipe(department: string, company: string, prep: bool, outputProduct: string, code: string,
                       name: string, isNew: bool, yieldQuantity: Option<real>, rows: seq<Ingredient>,
                       records: Records, cat: Catalog)
    requires Checks(department, company, prep, outputProduct, code, name, isNew, yieldQuantity, rows, records, cat).Ok?
    ensures var c := Checks(department, company, prep, outputProduct, code, name, isNew, yieldQuantity, rows, records, cat).value;
      department != "" && department in cat.departments && c == Strip(cat.departments[department]) && c != "" &&
      (company != "" ==> c == company) &&
      rows != [] && yieldQuantity.Some? && yieldQuantity.value > 0.0 &&
      (prep ==> outputProduct != "") &&
      (forall i :: 0 <= i < |rows| && rows[i].kind == RECIPE ==> rows[i].subrecipe != name)
  {
    ChecksMeans(department, company, prep, outputProduct, code, name, isNew, yieldQuantity, rows, records, cat);
  }

  /** The prep test ignores letter case. */
  lemma PrepInAnyCase()
    ensures IsPrep(false, "Prep") && IsPrep(false, "PREP") && !IsPrep(false, "Main")
  {
    assert Lower("Prep") == "prep";
    assert Lower("PREP") == "prep";
    assert Lower("Main")[0] == 'm';
  }

  // ---------------------------------------------------------------------
  // Refreshing parents after a save
  // ---------------------------------------------------------------------

  /** The parent's rows that use `child` take its unit cost and the matching cost total. */
  function Retarget(rows: seq<Ingredient>, child: string, cost: real): (r: seq<Ingredient>)
    ensures |r| == |rows|
    ensures forall i :: 0 <= i < |rows| && !(rows[i].kind == RECIPE && rows[i].subrecipe == child) ==> r[i] == rows[i]
    ensures forall i :: 0 <= i < |rows| && rows[i].kind == RECIPE && rows[i].subrecipe == child ==>
      r[i].costPerUnit == Some(cost) && r[i].costTotal == OrZero(rows[i].quantity) * cost &&
      r[i] == rows[i].(costPerUnit := r[i].costPerUnit, costTotal := r[i].costTotal)
  {
    seq(|rows|, i requires 0 <= i < |rows| =>
      if rows[i].kind == RECIPE && rows[i].subrecipe == child then
        rows[i].(costPerUnit := Some(cost), costTotal := OrZero(rows[i].quantity) * cost)
      else rows[i])
  }

  /** One parent after the refresh: retargeted rows, recosted, allergens refreshed. */
  function RefreshedParent(p: RecipeRecord, child: string, cost: real, records: Records, cat: Catalog): Result<RecipeRecord>
  {
    match CostRows(Retarget(p.ingredients, child, cost), records, cat)
    case Err(e) => Err(e)
    case Ok(rows) =>
      match RefreshedAllergens(p.name, p.allergens, rows, records)
      case Err(e) => Err(e)
      case Ok(inherited) =>
        Ok(p.(ingredients := rows, totalCost := Total(rows),
              costPerUnit := Some(PerUnit(Total(rows), p.yieldQuantity)), inherited := inherited))
  }

  /** The parents refreshed in turn, each seeing the ones saved before it; the child itself is skipped. */
  function RefreshParents(records: Records, child: string, cost: real, parents: seq<string>, cat: Catalog): Result<Records>
  {
    if parents == [] then Ok(records)
    else
      match RefreshParents(records, child, cost, parents[..|parents| - 1], cat)
      case Err(e) => Err(e)
      case Ok(m) =>
        var p := parents[|parents| - 1];
        if p == child then Ok(m)
        else if p !in m then Err("Recipe " + p + " not found")
        else match RefreshedParent(m[p], child, cost, m, cat)
          case Err(e) => Err(e)
          case Ok(q) => Ok(m[p := q])
  }

  /** Every row of `p` that uses `child` carries the child's stored unit cost and the matching total. */
  predicate FollowsChild(p: RecipeRecord, child: string, childRecord: RecipeRecord)
  {
    forall row :: row in p.ingredients && row.kind == RECIPE && row.subrecipe == child ==>
      row.costPerUnit == Some(OrZero(childRecord.costPerUnit)) &&
      row.costTotal == OrZero(row.quantity) * OrZero(childRecord.costPerUnit)
  }

  /** Costed rows that use `child` carry its stored unit cost and the matching total. */
  lemma CostedRowsFollow(rows: seq<Ingredient>, child: string, records: Records, cat: Catalog)
    requires child in records
    requires CostRows(rows, records, cat).Ok?
    ensures forall row :: row in CostRows(rows, records, cat).value && row.kind == RECIPE && row.subrecipe == child ==>
      row.costPerUnit == Some(OrZero(records[child].costPerUnit)) &&
      row.costTotal == OrZero(row.quantity) * OrZero(records[child].costPerUnit)
  {
    var costed := CostRows(rows, records, cat).value;
    forall row | row in costed && row.kind == RECIPE && row.subrecipe == child
      ensures row.costPerUnit == Some(OrZero(records[child].costPerUnit)) &&
              row.costTotal == OrZero(row.quantity) * OrZero(records[child].costPerUnit)
    {
      var i :| 0 <= i < |costed| && costed[i] == row;
      CostRowsAt(rows, records, cat, i);
    }
  }

  /** The costed row at position `i` is the costing of the row there. */
  lemma CostRowsAt(rows: seq<Ingredient>, records: Records, cat: Catalog, i: nat)
    requires CostRows(rows, records, cat).Ok? && i < |CostRows(rows, records, cat).value|
    ensures i < |rows| && RowCost(rows[i], records, cat) == Ok(CostRows(rows, records, cat).value[i])
  {
    CostRowsMeans(rows, records, cat);
  }

  /** A refreshed parent follows the child's unit cost as stored. */
  lemma RefreshedParentFollows(p: RecipeRecord, child: string, cost: real, records: Records, cat: Catalog)
    requires child in records
    requires RefreshedParent(p, child, cost, records, cat).Ok?
    ensures FollowsChild(RefreshedParent(p, child, cost, records, cat).value, child, records[child])
  {
    CostedRowsFollow(Retarget(p.ingredients, child, cost), child, records, cat);
  }

  /** One more parent changes no recipe but that parent, and none at all when it is the child. */
  lemma RefreshParentsStep(records: Records, child: string, cost: real, parents: seq<string>, cat: Catalog)
    requires parents != []
    requires RefreshParents(records, child, cost, parents, cat).Ok?
    ensures var init := RefreshParents(records, child, cost, parents[..|parents| - 1], cat);
      var m := RefreshParents(records, child, cost, parents, cat).value;
      var p := parents[|parents| - 1];
      init.Ok? && m.Keys == init.value.Keys &&
      (forall n :: n in m && (n != p || p == child) ==> m[n] == init.value[n]) &&
      (p != child ==>
        p in init.value && RefreshedParent(init.value[p], child, cost, init.value, cat).Ok? &&
        m[p] == RefreshedParent(init.value[p], child, cost, init.value, cat).value)
  {
  }

  /** After the refresh the set of recipes is the same. */
  lemma {:induction false} RefreshParentsKeys(records: Records, child: string, cost: real, parents: seq<string>, cat: Catalog)
    requires RefreshParents(records, child, cost, parents, cat).Ok?
    ensures RefreshParents(records, child, cost, parents, cat).value.Keys == records.Keys
  {
    if parents != [] {
      RefreshParentsStep(records, child, cost, parents, cat);
      RefreshParentsKeys(records, child, cost, parents[..|parents| - 1], cat);
    }
  }

  /** The refresh leaves the child itself and every recipe not listed untouched. */
  lemma {:induction false} RefreshParentsKeep(records: Records, child: string, cost: real, parents: seq<string>, cat: Catalog)
    requires RefreshParents(records, child, cost, parents, cat).Ok?
    ensures var m := RefreshParents(records, child, cost, parents, cat).value;
      forall n :: n in records && (n == child || n !in parents) ==> n in m && m[n] == records[n]
  {
    if parents != [] {
      var init := parents[..|parents| - 1];
      var p := parents[|parents| - 1];
      RefreshParentsKeys(records, child, cost, parents, cat);
      RefreshParentsKeep(records, child, cost, init, cat);
      RefreshParentsStep(records, child, cost, parents, cat);
      FrontIn(parents);
      assert p in parents;
    }
  }

  /** Every listed parent other than the child follows the child's stored unit cost. */
  lemma {:induction false} RefreshParentsFollow(records: Records, child: string, cost: real, parents: seq<string>, cat: Catalog)
    requires child in records
    requires RefreshParents(records, child, cost, parents, cat).Ok?
    ensures var m := RefreshParents(records, child, cost, parents, cat).value;
      forall p :: p in parents && p != child ==> p in m && FollowsChild(m[p], child, records[child])
  {
    if parents != [] {
      var init := parents[..|parents| - 1];
      var last := parents[|parents| - 1];
      RefreshParentsFollow(records, child, cost, init, cat);
      RefreshParentsKeep(records, child, cost, init, cat);
      RefreshParentsStep(records, child, cost, parents, cat);
      var m := RefreshParents(records, child, cost, init, cat).value;
      var m' := RefreshParents(records, child, cost, parents, cat).value;
      if last != child {
        RefreshedParentFollows(m[last], child, cost, m, cat);
      }
      forall p | p in parents && p != child
        ensures p in m' && FollowsChild(m'[p], child, records[child])
      {
        if p != last {
          InFront(parents, p);
        }
      }
    }
  }
}
