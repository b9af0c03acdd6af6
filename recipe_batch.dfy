// The Recipe Batch document: a production run of a recipe.  Saving takes
// defaults from the recipe, checks the yield and the produced quantity,
// rebuilds the ingredient table from the recipe (keeping the quantities and
// units the user overrode), and works out the expected and actual usage in
// primary units.  Submitting takes each ingredient out of stock and puts the
// output product in.  The recipes, products and departments the batch reads
// are maps, and unit conversion is a function parameter.

module RecipeBatches {
  import opened Common
  import ProductDoc
  import Recipes
  import InventoryBalance

  /** A row of the batch's ingredient table. */
  datatype BatchRow = BatchRow(
    kind: string,
    product: string,
    subrecipe: string,
    sourceRowname: string,
    quantityUsed: Option<real>,
    unit: string,
    expectedBaseQuantity: real,
    baseQuantityUsed: real,
    variance: real)

  /** What a batch reads elsewhere: recipes, each product's primary count unit, each department's company. */
  datatype Kitchen = Kitchen(
    recipes: Recipes.Records,
    primaryUnits: map<string, string>,
    departmentCompany: map<string, string>,
    convert: ProductDoc.Converter)

  /** The fields a successful save sets. */
  datatype Saved = Saved(department: string, company: string, producedUnit: string, ingredients: seq<BatchRow>)

  /** A stock movement: `delta` primary units of `product`. */
  datatype Move = Move(product: string, delta: real)

  type Stock = map<InventoryBalance.Key, InventoryBalance.Balance>

  // ---------------------------------------------------------------------
  // Reading the recipe and the products
  // ---------------------------------------------------------------------

  /** `_load_recipe`. */
  function LoadRecipe(name: string, recipes: Recipes.Records): (r: Result<Recipes.RecipeRecord>)
    ensures r.Ok? <==> name != "" && name in recipes
    ensures r.Ok? ==> r.value == recipes[name]
  {
    if name == "" then Err("Select a recipe before saving the batch.")
    else if name !in recipes then Err("Recipe " + name + " not found")
    else Ok(recipes[name])
  }

  /** `_get_output_product_primary_unit`: "" without an output product. */
  function OutputPrimaryUnit(recipe: Recipes.RecipeRecord, k: Kitchen): (r: Result<string>)
    ensures recipe.outputProduct == "" ==> r == Ok("")
    ensures recipe.outputProduct != "" ==> (r.Ok? <==> recipe.outputProduct in k.primaryUnits)
    ensures r.Ok? && recipe.outputProduct != "" ==> r.value == k.primaryUnits[recipe.outputProduct]
  {
    if recipe.outputProduct == "" then Ok("")
    else if recipe.outputProduct !in k.primaryUnits then Err("Product " + recipe.outputProduct + " not found")
    else Ok(k.primaryUnits[recipe.outputProduct])
  }

  /** `_convert_product_quantity`: an empty unit means the product's primary count unit. */
  function ConvertProduct(product: string, quantity: real, unit: string, k: Kitchen): (r: Result<real>)
    ensures r.Ok? ==> product != "" && product in k.primaryUnits
    ensures product != "" && product in k.primaryUnits && unit != "" ==> r == k.convert(product, unit, quantity)
    ensures product != "" && product in k.primaryUnits && unit == "" ==> r == k.convert(product, k.primaryUnits[product], quantity)
  {
    if product == "" then Err("Product is required for product ingredients.")
    else if product !in k.primaryUnits then Err("Product " + product + " not found")
    else k.convert(product, if unit != "" then unit else k.primaryUnits[product], quantity)
  }

  /** `_convert_row_to_primary_units`: zero needs no lookup; a subrecipe counts as its output product. */
  function ConvertRow(source: Recipes.Ingredient, quantity: real, unit: string, k: Kitchen): (r: Result<real>)
    ensures quantity == 0.0 ==> r == Ok(0.0)
    ensures r.Ok? && quantity != 0.0 ==> source.kind in {Recipes.PRODUCT, Recipes.RECIPE}
    ensures quantity != 0.0 && source.kind == Recipes.PRODUCT ==> r == ConvertProduct(source.product, quantity, unit, k)
    ensures (quantity != 0.0 && source.kind == Recipes.RECIPE && source.subrecipe != "" && source.subrecipe in k.recipes &&
             k.recipes[source.subrecipe].outputProduct != "") ==>
      r == ConvertProduct(k.recipes[source.subrecipe].outputProduct, quantity,
                          if unit != "" then unit else k.recipes[source.subrecipe].yieldUnit, k)
    ensures (quantity != 0.0 && source.kind == Recipes.RECIPE &&
             (source.subrecipe == "" || source.subrecipe !in k.recipes || k.recipes[source.subrecipe].outputProduct == "")) ==> r.Err?
  {
    if quantity == 0.0 then Ok(0.0)
    else if source.kind == Recipes.PRODUCT then ConvertProduct(source.product, quantity, unit, k)
    else if source.kind == Recipes.RECIPE then
      if source.subrecipe == "" then Err("Subrecipe row is missing a reference to the recipe.")
      else if source.subrecipe !in k.recipes then Err("Recipe " + source.subrecipe + " not found")
      else
        var sub := k.recipes[source.subrecipe];
        if sub.outputProduct == "" then
          Err("Subrecipe " + sub.name + " requires an output product before it can be consumed.")
        else if unit != "" then ConvertProduct(sub.outputProduct, quantity, unit, k)
        else if sub.yieldUnit != "" then ConvertProduct(sub.outputProduct, quantity, sub.yieldUnit, k)
        else
          match OutputPrimaryUnit(sub, k)
          case Err(e) => Err(e)
          case Ok(u) => ConvertProduct(sub.outputProduct, quantity, u, k)
    else Err("Unsupported ingredient type: " + source.kind)
  }

  // ---------------------------------------------------------------------
  // Defaults and checks
  // ---------------------------------------------------------------------

  /** The company a batch ends up with: its own, else the recipe's, else its department's. */
  function CompanyFor(company: string, department: string, recipe: Recipes.RecipeRecord, k: Kitchen): string
  {
    if company != "" then company
    else if recipe.company != "" then recipe.company
    else if department in k.departmentCompany then k.departmentCompany[department]
    else ""
  }

  /** `_apply_defaults_from_recipe`: the department, company and produced unit after the defaults. */
  function Defaults(department: string, company: string, producedUnit: string, recipe: Recipes.RecipeRecord, k: Kitchen)
    : (r: Result<(string, string, string)>)
    ensures var d := if department != "" then department else recipe.department;
      r.Ok? <==> CompanyFor(company, d, recipe, k) != "" &&
                 (producedUnit == "" && recipe.yieldUnit == "" ==> OutputPrimaryUnit(recipe, k).Ok?)
    ensures r.Ok? ==> r.value.0 == (if department != "" then department else recipe.department)
    ensures r.Ok? ==> r.value.1 != "" && (company != "" ==> r.value.1 == company) &&
                      (company == "" && recipe.company != "" ==> r.value.1 == recipe.company)
    ensures r.Ok? ==> (producedUnit != "" ==> r.value.2 == producedUnit) &&
                      (producedUnit == "" && recipe.yieldUnit != "" ==> r.value.2 == recipe.yieldUnit)
  {
    var d := if department != "" then department else recipe.department;
    var c := CompanyFor(company, d, recipe, k);
    if c == "" then Err("Company is required for recipe batches.")
    else if producedUnit != "" then Ok((d, c, producedUnit))
    else if recipe.yieldUnit != "" then Ok((d, c, recipe.yieldUnit))
    else
      match OutputPrimaryUnit(recipe, k)
      case Err(e) => Err(e)
      case Ok(u) => Ok((d, c, u))
  }

  /** `_ensure_recipe_yield`. */
  function YieldError(recipe: Recipes.RecipeRecord): (r: Option<string>)
    ensures r.None? <==> Recipes.OrZero(recipe.yieldQuantity) > 0.0 && (recipe.isPrepItem ==> recipe.outputProduct != "")
  {
    if Recipes.OrZero(recipe.yieldQuantity) <= 0.0 then
      Some("Recipe " + recipe.name + " must have a positive yield before batching.")
    else if recipe.isPrepItem && recipe.outputProduct == "" then
      Some("Recipe " + recipe.name + " must define an output product to create batches.")
    else None
  }

  /** `_ensure_produced_quantity`. */
  function ProducedError(producedQuantity: Option<real>): (r: Option<string>)
    ensures r.None? <==> Recipes.OrZero(producedQuantity) > 0.0
  {
    if Recipes.OrZero(producedQuantity) <= 0.0 then Some("Produced quantity must be greater than zero.") else None
  }

  /** `_production_scale`: produced over yield, a missing or zero yield counting as 1. */
  function Scale(producedQuantity: Option<real>, yieldQuantity: Option<real>): (r: real)
    ensures Recipes.OrZero(yieldQuantity) != 0.0 ==> r * Recipes.OrZero(yieldQuantity) == Recipes.OrZero(producedQuantity)
    ensures Recipes.OrZero(yieldQuantity) == 0.0 ==> r == Recipes.OrZero(producedQuantity)
  {
    var y := Recipes.OrZero(yieldQuantity);
    Recipes.OrZero(producedQuantity) / (if y != 0.0 then y else 1.0)
  }

  // ---------------------------------------------------------------------
  // Synchronising the ingredient table
  // ---------------------------------------------------------------------

  /** A recipe quantity scaled to the batch. */
  function Scaled(quantity: Option<real>, scale: real): real
  {
    Recipes.OrZero(quantity) * scale
  }

  /** The overrides kept from the current rows: source row name to (quantity used, unit), the last row winning. */
  function Overrides(rows: seq<BatchRow>): map<string, (Option<real>, string)>
  {
    if rows == [] then map[]
    else
      var row := rows[|rows| - 1];
      var m := Overrides(rows[..|rows| - 1]);
      if row.sourceRowname != "" then m[row.sourceRowname := (row.quantityUsed, row.unit)] else m
  }

  /** The batch row built for a recipe row. */
  function SyncRow(row: Recipes.Ingredient, overrides: map<string, (Option<real>, string)>, scale: real): BatchRow
  {
    var o := if row.rowName in overrides then overrides[row.rowName] else (None, "");
    BatchRow(row.kind, row.product, row.subrecipe, row.rowName,
             if o.0.Some? then o.0 else Some(Scaled(row.quantity, scale)),
             if o.1 != "" then o.1 else row.unit,
             0.0, 0.0, 0.0)
  }

  /** The rebuilt table: one batch row per recipe row, in the recipe's order. */
  function Synced(overrides: map<string, (Option<real>, string)>, rows: seq<Recipes.Ingredient>, scale: real): (r: seq<BatchRow>)
    ensures |r| == |rows|
  {
    if rows == [] then [] else Synced(overrides, rows[..|rows| - 1], scale) + [SyncRow(rows[|rows| - 1], overrides, scale)]
  }

  /** `_synchronise_ingredients`: the loop over the recipe rows. */
  method SyncRows(existing: seq<BatchRow>, rows: seq<Recipes.Ingredient>, scale: real) returns (synced: seq<BatchRow>)
    ensures synced == Synced(Overrides(existing), rows, scale)
  {
    var overrides := Overrides(existing);
    synced := [];
    var i := 0;
    while i < |rows|
      invariant 0 <= i <= |rows|
      invariant synced == Synced(overrides, rows[..i], scale)
    {
      assert rows[..i + 1][..i] == rows[..i];
      synced := synced + [SyncRow(rows[i], overrides, scale)];
      i := i + 1;
    }
    assert rows[..i] == rows;
  }

  /** An override is kept for a name exactly when some current row carries it. */
  lemma {:induction false} OverridesKeys(rows: seq<BatchRow>, name: string)
    ensures name in Overrides(rows) <==> name != "" && exists j :: 0 <= j < |rows| && rows[j].sourceRowname == name
  {
    if rows != [] {
      var init := rows[..|rows| - 1];
      OverridesKeys(init, name);
      if rows[|rows| - 1].sourceRowname != name {
        assert name in Overrides(rows) <==> name in Overrides(init);
        if exists j :: 0 <= j < |rows| && rows[j].sourceRowname == name {
          var j :| 0 <= j < |rows| && rows[j].sourceRowname == name;
          assert init[j] == rows[j];
        }
        if name in Overrides(init) {
          var j :| 0 <= j < |init| && init[j].sourceRowname == name;
          assert rows[j] == init[j];
        }
      }
    }
  }

  /** A kept override comes from the last row carrying its name. */
  lemma {:induction false} OverridesLast(rows: seq<BatchRow>, name: string)
    requires name in Overrides(rows)
    ensures exists j ::
      0 <= j < |rows| && rows[j].sourceRowname == name &&
      Overrides(rows)[name] == (rows[j].quantityUsed, rows[j].unit) &&
      forall j' :: j < j' < |rows| ==> rows[j'].sourceRowname != name
  {
    OverridesKeys(rows, name);
    var init := rows[..|rows| - 1];
    var n := |rows| - 1;
    if rows[n].sourceRowname == name {
      assert Overrides(rows)[name] == (rows[n].quantityUsed, rows[n].unit);
    } else {
      assert name in Overrides(init) && Overrides(rows)[name] == Overrides(init)[name];
      OverridesLast(init, name);
      var j :| 0 <= j < |init| && init[j].sourceRowname == name &&
        Overrides(init)[name] == (init[j].quantityUsed, init[j].unit) &&
        forall j' :: j < j' < |init| ==> init[j'].sourceRowname != name;
      assert rows[j] == init[j];
    }
  }

  /** Each rebuilt row copies its recipe row and keeps an override's quantity and unit, else scales the recipe quantity. */
  lemma {:induction false} SyncedMeans(existing: seq<BatchRow>, rows: seq<Recipes.Ingredient>, scale: real)
    ensures var s := Synced(Overrides(existing), rows, scale);
      |s| == |rows| &&
      forall i :: 0 <= i < |rows| ==>
        var o := Overrides(existing);
        s[i].kind == rows[i].kind && s[i].product == rows[i].product && s[i].subrecipe == rows[i].subrecipe &&
        s[i].sourceRowname == rows[i].rowName &&
        (rows[i].rowName !in o || o[rows[i].rowName].0.None? ==>
          s[i].quantityUsed == Some(Scaled(rows[i].quantity, scale))) &&
        (rows[i].rowName in o && o[rows[i].rowName].0.Some? ==> s[i].quantityUsed == o[rows[i].rowName].0) &&
        (rows[i].rowName in o && o[rows[i].rowName].1 != "" ==> s[i].unit == o[rows[i].rowName].1) &&
        (rows[i].rowName !in o || o[rows[i].rowName].1 == "" ==> s[i].unit == rows[i].unit)
  {
    SyncedIndex(Overrides(existing), rows, scale);
  }

  lemma {:induction false} SyncedIndex(overrides: map<string, (Option<real>, string)>, rows: seq<Recipes.Ingredient>, scale: real)
    ensures |Synced(overrides, rows, scale)| == |rows|
    ensures forall i :: 0 <= i < |rows| ==> Synced(overrides, rows, scale)[i] == SyncRow(rows[i], overrides, scale)
  {
    if rows != [] {
      SyncedIndex(overrides, rows[..|rows| - 1], scale);
    }
  }

  // ---------------------------------------------------------------------
  // Usage metrics
  // ---------------------------------------------------------------------

  /** The recipe row stored under a name, `{row.name: row}` keeping the last one. */
  function SourceRow(rows: seq<Recipes.Ingredient>, name: string): (r: Option<Recipes.Ingredient>)
    ensures r.None? <==> forall i :: 0 <= i < |rows| ==> rows[i].rowName != name
    ensures r.Some? ==>
      exists j :: 0 <= j < |rows| && rows[j] == r.value && r.value.rowName == name &&
        forall j' :: j < j' < |rows| ==> rows[j'].rowName != name
  {
    if rows == [] then None
    else if rows[|rows| - 1].rowName == name then Some(rows[|rows| - 1])
    else SourceRow(rows[..|rows| - 1], name)
  }

  /** A name carried by only one row finds that row. */
  lemma SourceRowUnique(rows: seq<Recipes.Ingredient>, i: nat)
    requires i < |rows|
    requires forall j :: 0 <= j < |rows| && j != i ==> rows[j].rowName != rows[i].rowName
    ensures SourceRow(rows, rows[i].rowName) == Some(rows[i])
  {
  }

  /** `_recalculate_ingredient_metrics` for one row. */
  function RowMetrics(row: BatchRow, recipeRows: seq<Recipes.Ingredient>, scale: real, k: Kitchen): (r: Result<BatchRow>)
    ensures SourceRow(recipeRows, row.sourceRowname).None? ==> r.Err?
    ensures r.Ok? ==> r.value.variance == r.value.baseQuantityUsed - r.value.expectedBaseQuantity
    ensures SourceRow(recipeRows, row.sourceRowname).Some? ==>
      var source := SourceRow(recipeRows, row.sourceRowname).value;
      var expected := ConvertRow(source, Scaled(source.quantity, scale), source.unit, k);
      var used := ConvertRow(source, Recipes.OrZero(row.quantityUsed), row.unit, k);
      (r.Ok? <==> expected.Ok? && used.Ok?) &&
      (r.Ok? ==> r.value.expectedBaseQuantity == expected.value && r.value.baseQuantityUsed == used.value)
    ensures r.Ok? ==> r.value.(expectedBaseQuantity := 0.0, baseQuantityUsed := 0.0, variance := 0.0) ==
                      row.(expectedBaseQuantity := 0.0, baseQuantityUsed := 0.0, variance := 0.0)
  {
    match SourceRow(recipeRows, row.sourceRowname)
    case None => Err("Unable to match batch ingredient row to recipe definition.")
    case Some(source) =>
      match ConvertRow(source, Scaled(source.quantity, scale), source.unit, k)
      case Err(e) => Err(e)
      case Ok(expected) =>
        match ConvertRow(source, Recipes.OrZero(row.quantityUsed), row.unit, k)
        case Err(e) => Err(e)
        case Ok(actual) =>
          Ok(row.(expectedBaseQuantity := expected, baseQuantityUsed := actual, variance := actual - expected))
  }

  /** The metrics of every row, stopping at the first failure. */
  function Metrics(rows: seq<BatchRow>, recipeRows: seq<Recipes.Ingredient>, scale: real, k: Kitchen): Result<seq<BatchRow>>
  {
    Traverse(rows, row => RowMetrics(row, recipeRows, scale, k))
  }

  /** `_recalculate_ingredient_metrics`: the loop over the batch rows. */
  method Recalculate(rows: seq<BatchRow>, recipeRows: seq<Recipes.Ingredient>, scale: real, k: Kitchen)
    returns (r: Result<seq<BatchRow>>)
    ensures r == Metrics(rows, recipeRows, scale, k)
  {
    var done: seq<BatchRow> := [];
    var i := 0;
    while i < |rows|
      invariant 0 <= i <= |rows|
      invariant Metrics(rows[..i], recipeRows, scale, k) == Ok(done)
    {
      assert rows[..i + 1][..i] == rows[..i];
      var m := RowMetrics(rows[i], recipeRows, scale, k);
      if m.Err? {
        TraverseErrExtends(rows, i + 1, row => RowMetrics(row, recipeRows, scale, k));
        return Err(m.error);
      }
      done := done + [m.value];
      i := i + 1;
    }
    assert rows[..i] == rows;
    r := Ok(done);
  }

  /** The metrics succeed exactly when every row's do, and list those rows in order. */
  lemma MetricsMeans(rows: seq<BatchRow>, recipeRows: seq<Recipes.Ingredient>, scale: real, k: Kitchen)
    ensures Metrics(rows, recipeRows, scale, k).Ok? <==> forall i :: 0 <= i < |rows| ==> RowMetrics(rows[i], recipeRows, scale, k).Ok?
    ensures Metrics(rows, recipeRows, scale, k).Ok? ==>
      var m := Metrics(rows, recipeRows, scale, k).value;
      |m| == |rows| && forall i :: 0 <= i < |rows| ==> RowMetrics(rows[i], recipeRows, scale, k) == Ok(m[i])
  {
    TraverseMeans(rows, row => RowMetrics(row, recipeRows, scale, k));
  }

  /** Every rebuilt row finds its recipe row, so the "unable to match" error cannot follow a rebuild. */
  lemma SyncedRowsMatch(overrides: map<string, (Option<real>, string)>, rows: seq<Recipes.Ingredient>, scale: real)
    ensures forall i :: 0 <= i < |rows| ==>
      SourceRow(rows, Synced(overrides, rows, scale)[i].sourceRowname).Some?
  {
    SyncedIndex(overrides, rows, scale);
  }

  /** A row used exactly as its recipe row says, in the same unit, shows no variance. */
  lemma AsRecipeNoVariance(row: BatchRow, recipeRows: seq<Recipes.Ingredient>, scale: real, k: Kitchen, source: Recipes.Ingredient)
    requires SourceRow(recipeRows, row.sourceRowname) == Some(source)
    requires row.unit == source.unit
    requires Recipes.OrZero(row.quantityUsed) == Scaled(source.quantity, scale)
    requires RowMetrics(row, recipeRows, scale, k).Ok?
    ensures RowMetrics(row, recipeRows, scale, k).value.variance == 0.0
  {
    var c := ConvertRow(source, Scaled(source.quantity, scale), source.unit, k);
    assert ConvertRow(source, Recipes.OrZero(row.quantityUsed), row.unit, k) == c;
  }

  /** A row the user left alone shows no variance: it is used as the recipe says, in the recipe's unit. */
  lemma UntouchedRowNoVariance(existing: seq<BatchRow>, rows: seq<Recipes.Ingredient>, scale: real, k: Kitchen, i: nat)
    requires i < |rows|
    requires forall j :: 0 <= j < |rows| && j != i ==> rows[j].rowName != rows[i].rowName
    requires rows[i].rowName !in Overrides(existing)
    requires RowMetrics(Synced(Overrides(existing), rows, scale)[i], rows, scale, k).Ok?
    ensures RowMetrics(Synced(Overrides(existing), rows, scale)[i], rows, scale, k).value.variance == 0.0
  {
    var row := Synced(Overrides(existing), rows, scale)[i];
    assert row.sourceRowname == rows[i].rowName && row.unit == rows[i].unit &&
           Recipes.OrZero(row.quantityUsed) == Scaled(rows[i].quantity, scale) by {
      UntouchedRowAsRecipe(Overrides(existing), rows, scale, i);
    }
    assert SourceRow(rows, row.sourceRowname) == Some(rows[i]) by {
      SourceRowUnique(rows, i);
    }
    AsRecipeNoVariance(row, rows, scale, k, rows[i]);
  }

  lemma UntouchedRowAsRecipe(overrides: map<string, (Option<real>, string)>, rows: seq<Recipes.Ingredient>, scale: real, i: nat)
    requires i < |rows| && rows[i].rowName !in overrides
    ensures var row := Synced(overrides, rows, scale)[i];
      row.sourceRowname == rows[i].rowName && row.unit == rows[i].unit &&
      Recipes.OrZero(row.quantityUsed) == Scaled(rows[i].quantity, scale)
  {
    SyncedIndex(overrides, rows, scale);
  }

  // ---------------------------------------------------------------------
  // Validation as a whole
  // ---------------------------------------------------------------------

  /** `validate`: the fields a save sets, or the first error. */
  function Validation(recipe: string, department: string, company: string, producedQuantity: Option<real>,
                      producedUnit: string, ingredients: seq<BatchRow>, k: Kitchen): Result<Saved>
  {
    match LoadRecipe(recipe, k.recipes)
    case Err(e) => Err(e)
    case Ok(rec) =>
      match Defaults(department, company, producedUnit, rec, k)
      case Err(e) => Err(e)
      case Ok((d, c, u)) =>
        if YieldError(rec).Some? then Err(YieldError(rec).value)
        else if ProducedError(producedQuantity).Some? then Err(ProducedError(producedQuantity).value)
        else
          var scale := Scale(producedQuantity, rec.yieldQuantity);
          match Metrics(Synced(Overrides(ingredients), rec.ingredients, scale), rec.ingredients, scale, k)
          case Err(e) => Err(e)
          case Ok(rows) => Ok(Saved(d, c, u, rows))
  }

  /** A saved batch names a known recipe with a positive yield (and an output when it is prep), a positive quantity and a company. */
  lemma ValidationRequires(recipe: string, department: string, company: string, producedQuantity: Option<real>,
                           producedUnit: string, ingredients: seq<BatchRow>, k: Kitchen)
    requires Validation(recipe, department, company, producedQuantity, producedUnit, ingredients, k).Ok?
    ensures var v := Validation(recipe, department, company, producedQuantity, producedUnit, ingredients, k).value;
      recipe != "" && recipe in k.recipes &&
      Recipes.OrZero(k.recipes[recipe].yieldQuantity) > 0.0 &&
      (k.recipes[recipe].isPrepItem ==> k.recipes[recipe].outputProduct != "") &&
      Recipes.OrZero(producedQuantity) > 0.0 &&
      v.company != "" && (company != "" ==> v.company == company) &&
      v.department == (if department != "" then department else k.recipes[recipe].department) &&
      (producedUnit != "" ==> v.producedUnit == producedUnit) &&
      (producedUnit == "" && k.recipes[recipe].yieldUnit != "" ==> v.producedUnit == k.recipes[recipe].yieldUnit)
  {
  }

  /** A saved batch has one row per recipe row, each pointing at it, with variance = used − expected. */
  lemma ValidationRows(recipe: string, department: string, company: string, producedQuantity: Option<real>,
                       producedUnit: string, ingredients: seq<BatchRow>, k: Kitchen)
    requires Validation(recipe, department, company, producedQuantity, producedUnit, ingredients, k).Ok?
    ensures var v := Validation(recipe, department, company, producedQuantity, producedUnit, ingredients, k).value;
      var rows := k.recipes[recipe].ingredients;
      |v.ingredients| == |rows| &&
      forall i :: 0 <= i < |rows| ==>
        v.ingredients[i].sourceRowname == rows[i].rowName && v.ingredients[i].kind == rows[i].kind &&
        v.ingredients[i].variance == v.ingredients[i].baseQuantityUsed - v.ingredients[i].expectedBaseQuantity
  {
    var rec := k.recipes[recipe];
    var scale := Scale(producedQuantity, rec.yieldQuantity);
    var synced := Synced(Overrides(ingredients), rec.ingredients, scale);
    assert LoadRecipe(recipe, k.recipes) == Ok(rec);
    var m := Metrics(synced, rec.ingredients, scale, k);
    assert m.Ok?;
    var v := Validation(recipe, department, company, producedQuantity, producedUnit, ingredients, k).value;
    assert v.ingredients == m.value;
    SyncedIndex(Overrides(ingredients), rec.ingredients, scale);
    MetricsMeans(synced, rec.ingredients, scale, k);
    forall i | 0 <= i < |rec.ingredients|
      ensures v.ingredients[i].sourceRowname == rec.ingredients[i].rowName && v.ingredients[i].kind == rec.ingredients[i].kind
      ensures v.ingredients[i].variance == v.ingredients[i].baseQuantityUsed - v.ingredients[i].expectedBaseQuantity
    {
      assert RowMetrics(synced[i], rec.ingredients, scale, k) == Ok(v.ingredients[i]);
    }
  }

  // ---------------------------------------------------------------------
  // Posting on submit
  // ---------------------------------------------------------------------

  /** `_resolve_target_product_and_quantity`: the product to take out of stock and how much, in primary units. */
  function Resolve(source: Recipes.Ingredient, quantity: Option<real>, unit: string, k: Kitchen): (r: Result<(string, real)>)
    ensures r.Ok? && source.kind == Recipes.PRODUCT ==> r.value.0 == source.product && source.product != ""
    ensures r.Ok? && source.kind != Recipes.PRODUCT ==>
      source.kind == Recipes.RECIPE && source.subrecipe in k.recipes &&
      r.value.0 == k.recipes[source.subrecipe].outputProduct && r.value.0 != ""
    ensures source.kind == Recipes.PRODUCT ==>
      var converted := ConvertProduct(source.product, Recipes.OrZero(quantity), if unit != "" then unit else source.unit, k);
      (r.Ok? <==> converted.Ok?) && (r.Ok? ==> r.value.1 == converted.value)
    ensures (source.kind == Recipes.RECIPE && source.subrecipe != "" && source.subrecipe in k.recipes &&
             k.recipes[source.subrecipe].outputProduct != "") ==>
      var sub := k.recipes[source.subrecipe];
      var u := if unit != "" then unit else if source.unit != "" then source.unit else sub.yieldUnit;
      var converted := ConvertProduct(sub.outputProduct, Recipes.OrZero(quantity), u, k);
      (r.Ok? <==> converted.Ok?) && (r.Ok? ==> r.value.1 == converted.value)
    ensures source.kind != Recipes.PRODUCT && source.kind != Recipes.RECIPE ==> r.Err?
  {
    if source.kind == Recipes.PRODUCT then
      match ConvertProduct(source.product, Recipes.OrZero(quantity), if unit != "" then unit else source.unit, k)
      case Err(e) => Err(e)
      case Ok(q) => Ok((source.product, q))
    else if source.kind == Recipes.RECIPE then
      if source.subrecipe == "" then Err("Subrecipe row is missing a recipe reference.")
      else if source.subrecipe !in k.recipes then Err("Recipe " + source.subrecipe + " not found")
      else
        var sub := k.recipes[source.subrecipe];
        if sub.outputProduct == "" then
          Err("Subrecipe " + sub.name + " must define an output product before batching.")
        else
          var u := if unit != "" then unit else if source.unit != "" then source.unit else sub.yieldUnit;
          match ConvertProduct(sub.outputProduct, Recipes.OrZero(quantity), u, k)
          case Err(e) => Err(e)
          case Ok(q) => Ok((sub.outputProduct, q))
    else Err("Unsupported ingredient type for batching: " + source.kind)
  }

  /** `InventoryBalance.apply_delta` on the batch's department and company. */
  function ApplyMove(stock: Stock, department: string, company: string, move: Move, now: int): (r: Result<Stock>)
  {
    var key := InventoryBalance.Key(move.product, department, company);
    if !InventoryBalance.Complete(key) then Err(InventoryBalance.BalanceName(key).error)
    else Ok(InventoryBalance.Saved(stock, key, InventoryBalance.Adjusted(InventoryBalance.QuantityOf(stock, key), move.delta), None, now))
  }

  /** One batch row on submit: skipped without a recipe row or with a zero quantity, else taken out of stock. */
  function PostRow(stock: Stock, row: BatchRow, recipeRows: seq<Recipes.Ingredient>, department: string, company: string,
                   k: Kitchen, now: int): Result<Stock>
  {
    match SourceRow(recipeRows, row.sourceRowname)
    case None => Ok(stock)
    case Some(source) =>
      match Resolve(source, row.quantityUsed, row.unit, k)
      case Err(e) => Err(e)
      case Ok((product, q)) =>
        if q == 0.0 then Ok(stock) else ApplyMove(stock, department, company, Move(product, -q), now)
  }

  /** The ingredient loop of `_post_inventory_movements`. */
  function PostRows(stock: Stock, rows: seq<BatchRow>, recipeRows: seq<Recipes.Ingredient>, department: string,
                    company: string, k: Kitchen, now: int): Result<Stock>
  {
    if rows == [] then Ok(stock)
    else
      match PostRows(stock, rows[..|rows| - 1], recipeRows, department, company, k, now)
      case Err(e) => Err(e)
      case Ok(s) => PostRow(s, rows[|rows| - 1], recipeRows, department, company, k, now)
  }

  /** The produced quantity in the output product's primary unit, on the batch's unit or else the recipe's yield unit. */
  function ProducedPrimary(recipe: Recipes.RecipeRecord, producedQuantity: Option<real>, producedUnit: string, k: Kitchen): Result<real>
  {
    ConvertProduct(recipe.outputProduct, Recipes.OrZero(producedQuantity),
                   if producedUnit != "" then producedUnit else recipe.yieldUnit, k)
  }

  /** The output step of `_post_inventory_movements`. */
  function PostOutput(stock: Stock, recipe: Recipes.RecipeRecord, department: string, company: string,
                      producedQuantity: Option<real>, producedUnit: string, k: Kitchen, now: int): Result<Stock>
  {
    if recipe.outputProduct == "" then Ok(stock)
    else
      match ProducedPrimary(recipe, producedQuantity, producedUnit, k)
      case Err(e) => Err(e)
      case Ok(q) => if q == 0.0 then Ok(stock) else ApplyMove(stock, department, company, Move(recipe.outputProduct, q), now)
  }

  /** `on_submit`: the stock after every movement, or the first error (nothing is posted then). */
  function Submission(stock: Stock, recipe: string, department: string, company: string, producedQuantity: Option<real>,
                      producedUnit: string, rows: seq<BatchRow>, k: Kitchen, now: int): Result<Stock>
  {
    match LoadRecipe(recipe, k.recipes)
    case Err(e) => Err(e)
    case Ok(rec) =>
      match PostRows(stock, rows, rec.ingredients, department, company, k, now)
      case Err(e) => Err(e)
      case Ok(s) => PostOutput(s, rec, department, company, producedQuantity, producedUnit, k, now)
  }

  lemma PostRowsSnoc(stock: Stock, rows: seq<BatchRow>, i: nat, recipeRows: seq<Recipes.Ingredient>, department: string,
                     company: string, k: Kitchen, now: int, s: Stock)
    requires i < |rows| && PostRows(stock, rows[..i], recipeRows, department, company, k, now) == Ok(s)
    ensures PostRows(stock, rows[..i + 1], recipeRows, department, company, k, now) ==
            PostRow(s, rows[i], recipeRows, department, company, k, now)
  {
    assert rows[..i + 1][..i] == rows[..i];
  }

  lemma {:induction false} PostRowsErrExtends(stock: Stock, rows: seq<BatchRow>, i: nat, recipeRows: seq<Recipes.Ingredient>,
                                              department: string, company: string, k: Kitchen, now: int)
    requires i <= |rows| && PostRows(stock, rows[..i], recipeRows, department, company, k, now).Err?
    ensures PostRows(stock, rows, recipeRows, department, company, k, now) ==
            PostRows(stock, rows[..i], recipeRows, department, company, k, now)
    decreases |rows| - i
  {
    if i == |rows| {
      assert rows[..i] == rows;
    } else {
      assert rows[..i + 1][..i] == rows[..i];
      PostRowsErrExtends(stock, rows, i + 1, recipeRows, department, company, k, now);
    }
  }

  // ---------------------------------------------------------------------
  // The movements, listed
  // ---------------------------------------------------------------------

  /** The ingredient movements, in row order: one negative move per row with a recipe row and a non-zero quantity. */
  function IngredientMoves(rows: seq<BatchRow>, recipeRows: seq<Recipes.Ingredient>, k: Kitchen): Result<seq<Move>>
  {
    if rows == [] then Ok([])
    else
      match IngredientMoves(rows[..|rows| - 1], recipeRows, k)
      case Err(e) => Err(e)
      case Ok(moves) =>
        var row := rows[|rows| - 1];
        match SourceRow(recipeRows, row.sourceRowname)
        case None => Ok(moves)
        case Some(source) =>
          match Resolve(source, row.quantityUsed, row.unit, k)
          case Err(e) => Err(e)
          case Ok((product, q)) => if q == 0.0 then Ok(moves) else Ok(moves + [Move(product, -q)])
  }

  /** The moves applied one after another. */
  function ApplyMoves(stock: Stock, department: string, company: string, moves: seq<Move>, now: int): Result<Stock>
  {
    if moves == [] then Ok(stock)
    else
      match ApplyMoves(stock, department, company, moves[..|moves| - 1], now)
      case Err(e) => Err(e)
      case Ok(s) => ApplyMove(s, department, company, moves[|moves| - 1], now)
  }

  /** The net quantity the moves bring to `product`. */
  function NetFor(moves: seq<Move>, product: string): real
  {
    if moves == [] then 0.0
    else NetFor(moves[..|moves| - 1], product) + (if moves[|moves| - 1].product == product then moves[|moves| - 1].delta else 0.0)
  }

  /** Posting the rows one by one is applying their listed movements. */
  lemma {:induction false} PostRowsAsMoves(stock: Stock, rows: seq<BatchRow>, recipeRows: seq<Recipes.Ingredient>,
                                           department: string, company: string, k: Kitchen, now: int)
    requires PostRows(stock, rows, recipeRows, department, company, k, now).Ok?
    ensures IngredientMoves(rows, recipeRows, k).Ok?
    ensures PostRows(stock, rows, recipeRows, department, company, k, now) ==
            ApplyMoves(stock, department, company, IngredientMoves(rows, recipeRows, k).value, now)
  {
    if rows != [] {
      var init := rows[..|rows| - 1];
      PostRowsAsMoves(stock, init, recipeRows, department, company, k, now);
      var moves := IngredientMoves(init, recipeRows, k).value;
      var row := rows[|rows| - 1];
      match SourceRow(recipeRows, row.sourceRowname)
      case None =>
      case Some(source) =>
        var t := Resolve(source, row.quantityUsed, row.unit, k).value;
        if t.1 != 0.0 {
          var more := moves + [Move(t.0, -t.1)];
          assert more[..|more| - 1] == moves;
        }
    }
  }

  /** Applying moves changes only the batch's department and company, and each product by its net movement. */
  lemma {:induction false} ApplyMovesNet(stock: Stock, department: string, company: string, moves: seq<Move>, now: int)
    requires ApplyMoves(stock, department, company, moves, now).Ok?
    ensures var s := ApplyMoves(stock, department, company, moves, now).value;
      (forall p :: InventoryBalance.QuantityOf(s, InventoryBalance.Key(p, department, company)) ==
                   InventoryBalance.QuantityOf(stock, InventoryBalance.Key(p, department, company)) + NetFor(moves, p)) &&
      (forall key :: key in stock ==> key in s) &&
      (forall key :: key in s && (key.department != department || key.company != company) ==> key in stock && s[key] == stock[key])
  {
    if moves != [] {
      var init := moves[..|moves| - 1];
      ApplyMovesNet(stock, department, company, init, now);
    }
  }

  /** The output movement: the produced quantity in primary units, when there is an output product and it is not zero. */
  function OutputMoves(recipe: Recipes.RecipeRecord, producedQuantity: Option<real>, producedUnit: string, k: Kitchen)
    : Result<seq<Move>>
  {
    if recipe.outputProduct == "" then Ok([])
    else
      match ProducedPrimary(recipe, producedQuantity, producedUnit, k)
      case Err(e) => Err(e)
      case Ok(q) => if q == 0.0 then Ok([]) else Ok([Move(recipe.outputProduct, q)])
  }

  lemma PostOutputAsMoves(stock: Stock, recipe: Recipes.RecipeRecord, department: string, company: string,
                          producedQuantity: Option<real>, producedUnit: string, k: Kitchen, now: int)
    requires PostOutput(stock, recipe, department, company, producedQuantity, producedUnit, k, now).Ok?
    ensures OutputMoves(recipe, producedQuantity, producedUnit, k).Ok?
    ensures PostOutput(stock, recipe, department, company, producedQuantity, producedUnit, k, now) ==
            ApplyMoves(stock, department, company, OutputMoves(recipe, producedQuantity, producedUnit, k).value, now)
  {
    var moves := OutputMoves(recipe, producedQuantity, producedUnit, k).value;
    if moves != [] {
      assert moves[..0] == [];
    }
  }

  lemma {:induction false} ApplyMovesAppend(stock: Stock, department: string, company: string, m1: seq<Move>, m2: seq<Move>, now: int)
    requires ApplyMoves(stock, department, company, m1, now).Ok?
    ensures ApplyMoves(stock, department, company, m1 + m2, now) ==
            ApplyMoves(ApplyMoves(stock, department, company, m1, now).value, department, company, m2, now)
  {
    if m2 == [] {
      assert m1 + m2 == m1;
    } else {
      var init := m2[..|m2| - 1];
      assert (m1 + m2)[..|m1 + m2| - 1] == m1 + init;
      ApplyMovesAppend(stock, department, company, m1, init, now);
    }
  }

  lemma {:induction false} NetForAppend(m1: seq<Move>, m2: seq<Move>, product: string)
    ensures NetFor(m1 + m2, product) == NetFor(m1, product) + NetFor(m2, product)
  {
    if m2 == [] {
      assert m1 + m2 == m1;
    } else {
      var init := m2[..|m2| - 1];
      assert (m1 + m2)[..|m1 + m2| - 1] == m1 + init;
      NetForAppend(m1, init, product);
    }
  }

  /** A submission is its ingredient movements followed by its output movement, applied to the batch's department and company. */
  lemma SubmissionAsMoves(stock: Stock, recipe: string, department: string, company: string, producedQuantity: Option<real>,
                          producedUnit: string, rows: seq<BatchRow>, k: Kitchen, now: int)
    requires Submission(stock, recipe, department, company, producedQuantity, producedUnit, rows, k, now).Ok?
    ensures recipe in k.recipes
    ensures var rec := k.recipes[recipe];
      IngredientMoves(rows, rec.ingredients, k).Ok? && OutputMoves(rec, producedQuantity, producedUnit, k).Ok? &&
      Submission(stock, recipe, department, company, producedQuantity, producedUnit, rows, k, now) ==
      ApplyMoves(stock, department, company,
                 IngredientMoves(rows, rec.ingredients, k).value + OutputMoves(rec, producedQuantity, producedUnit, k).value, now)
  {
    var rec := k.recipes[recipe];
    var posted := PostRows(stock, rows, rec.ingredients, department, company, k, now);
    PostRowsAsMoves(stock, rows, rec.ingredients, department, company, k, now);
    PostOutputAsMoves(posted.value, rec, department, company, producedQuantity, producedUnit, k, now);
    ApplyMovesAppend(stock, department, company, IngredientMoves(rows, rec.ingredients, k).value,
                     OutputMoves(rec, producedQuantity, producedUnit, k).value, now);
  }

  /** Submitting changes each product's balance in the batch's department and company by its net movement, and no other balance. */
  lemma SubmissionNet(stock: Stock, recipe: string, department: string, company: string, producedQuantity: Option<real>,
                      producedUnit: string, rows: seq<BatchRow>, k: Kitchen, now: int)
    requires Submission(stock, recipe, department, company, producedQuantity, producedUnit, rows, k, now).Ok?
    ensures recipe in k.recipes
    ensures var rec := k.recipes[recipe];
      var s := Submission(stock, recipe, department, company, producedQuantity, producedUnit, rows, k, now).value;
      IngredientMoves(rows, rec.ingredients, k).Ok? && OutputMoves(rec, producedQuantity, producedUnit, k).Ok? &&
      (forall p :: InventoryBalance.QuantityOf(s, InventoryBalance.Key(p, department, company)) ==
                   InventoryBalance.QuantityOf(stock, InventoryBalance.Key(p, department, company)) +
                   NetFor(IngredientMoves(rows, rec.ingredients, k).value, p) +
                   NetFor(OutputMoves(rec, producedQuantity, producedUnit, k).value, p)) &&
      (forall key :: key in s && (key.department != department || key.company != company) ==> key in stock && s[key] == stock[key])
  {
    SubmissionAsMoves(stock, recipe, department, company, producedQuantity, producedUnit, rows, k, now);
    var rec := k.recipes[recipe];
    var m1 := IngredientMoves(rows, rec.ingredients, k).value;
    var m2 := OutputMoves(rec, producedQuantity, producedUnit, k).value;
    ApplyMovesNet(stock, department, company, m1 + m2, now);
    forall p ensures NetFor(m1 + m2, p) == NetFor(m1, p) + NetFor(m2, p) {
      NetForAppend(m1, m2, p);
    }
  }

  // ---------------------------------------------------------------------
  // A worked batch: 2 "each" of a raw product makes 4 "each" of a prep product
  // ---------------------------------------------------------------------

  function PrepRecipe(): Recipes.RecipeRecord
  {
    Recipes.RecipeRecord("Batch Prep", "Batch Prep", "BP", "Co", "Dept", Some(4.0), None, 0.0,
      [Recipes.Ingredient(Recipes.PRODUCT, "Raw", "", Some(2.0), "each", Some(1.0), 0.0, 0.0, "row-1")],
      [], [], "each", true, "Output")
  }

  function PrepKitchen(): Kitchen
  {
    Kitchen(map["Batch Prep" := PrepRecipe()], map["Raw" := "each", "Output" := "each"], map["Dept" := "Co"], Recipes.SameUnit())
  }

  /** 25 of the raw product and 5 of the output on hand. */
  function Opening(): Stock
  {
    map[InventoryBalance.Key("Raw", "Dept", "Co") := InventoryBalance.Balance(25.0, None, 0),
        InventoryBalance.Key("Output", "Dept", "Co") := InventoryBalance.Balance(5.0, None, 0)]
  }

  function RawRow(used: real, expected: real, actual: real): BatchRow
  {
    BatchRow(Recipes.PRODUCT, "Raw", "", "row-1", Some(used), "each", expected, actual, actual - expected)
  }

  /** Saving a batch of 8 against a yield of 4 doubles the recipe: 4 expected, 4 used, no variance. */
  lemma BatchOfEightSaved()
    ensures Validation("Batch Prep", "Dept", "Co", Some(8.0), "each", [], PrepKitchen()) ==
            Ok(Saved("Dept", "Co", "each", [RawRow(4.0, 4.0, 4.0)]))
  {
    var k := PrepKitchen();
    var rec := PrepRecipe();
    var scale := Scale(Some(8.0), rec.yieldQuantity);
    assert scale == 2.0;
    var synced := Synced(Overrides([]), rec.ingredients, scale);
    assert synced == [BatchRow(Recipes.PRODUCT, "Raw", "", "row-1", Some(4.0), "each", 0.0, 0.0, 0.0)];
    assert SourceRow(rec.ingredients, "row-1") == Some(rec.ingredients[0]);
    assert k.convert("Raw", "each", 4.0) == Ok(4.0);
    assert RowMetrics(synced[0], rec.ingredients, scale, k) == Ok(RawRow(4.0, 4.0, 4.0));
    MetricsMeans(synced, rec.ingredients, scale, k);
    assert Metrics(synced, rec.ingredients, scale, k).value == [RawRow(4.0, 4.0, 4.0)];
  }

  /** Submitting it takes 4 of the raw product (25 to 21) and adds 8 of the output (5 to 13). */
  lemma BatchOfEightPosted()
    ensures var s := Submission(Opening(), "Batch Prep", "Dept", "Co", Some(8.0), "each", [RawRow(4.0, 4.0, 4.0)], PrepKitchen(), 1);
      s.Ok? && InventoryBalance.QuantityOf(s.value, InventoryBalance.Key("Raw", "Dept", "Co")) == 21.0 &&
      InventoryBalance.QuantityOf(s.value, InventoryBalance.Key("Output", "Dept", "Co")) == 13.0
  {
    PostedExample(8.0, 4.0, 4.0, 21.0, 13.0);
  }

  /** A user who records 5 used where the recipe expects 2 sees a variance of 3. */
  lemma OverriddenUsageSaved()
    ensures Validation("Batch Prep", "Dept", "Co", Some(4.0), "each", [RawRow(5.0, 2.0, 2.0)], PrepKitchen()) ==
            Ok(Saved("Dept", "Co", "each", [RawRow(5.0, 2.0, 5.0)]))
    ensures RawRow(5.0, 2.0, 5.0).variance == 3.0
  {
    var k := PrepKitchen();
    var rec := PrepRecipe();
    var scale := Scale(Some(4.0), rec.yieldQuantity);
    assert scale == 1.0;
    var existing := [RawRow(5.0, 2.0, 2.0)];
    assert existing[..0] == [];
    assert Overrides(existing) == map["row-1" := (Some(5.0), "each")];
    var synced := Synced(Overrides(existing), rec.ingredients, scale);
    assert synced == [BatchRow(Recipes.PRODUCT, "Raw", "", "row-1", Some(5.0), "each", 0.0, 0.0, 0.0)];
    assert SourceRow(rec.ingredients, "row-1") == Some(rec.ingredients[0]);
    assert k.convert("Raw", "each", 2.0) == Ok(2.0) && k.convert("Raw", "each", 5.0) == Ok(5.0);
    assert RowMetrics(synced[0], rec.ingredients, scale, k) == Ok(RawRow(5.0, 2.0, 5.0));
    MetricsMeans(synced, rec.ingredients, scale, k);
    assert Metrics(synced, rec.ingredients, scale, k).value == [RawRow(5.0, 2.0, 5.0)];
  }

  /** Submitting the overridden batch takes the 5 recorded (25 to 20) and adds the 4 made (5 to 9). */
  lemma OverriddenUsagePosted()
    ensures var s := Submission(Opening(), "Batch Prep", "Dept", "Co", Some(4.0), "each", [RawRow(5.0, 2.0, 5.0)], PrepKitchen(), 1);
      s.Ok? && InventoryBalance.QuantityOf(s.value, InventoryBalance.Key("Raw", "Dept", "Co")) == 20.0 &&
      InventoryBalance.QuantityOf(s.value, InventoryBalance.Key("Output", "Dept", "Co")) == 9.0
  {
    PostedExample(4.0, 5.0, 2.0, 20.0, 9.0);
  }

  /** Submitting `produced` of the prep product with `used` of the raw product recorded. */
  lemma PostedExample(produced: real, used: real, expected: real, raw: real, output: real)
    requires used != 0.0 && produced != 0.0 && raw == 25.0 - used && output == 5.0 + produced
    ensures var s := Submission(Opening(), "Batch Prep", "Dept", "Co", Some(produced), "each",
                                [RawRow(used, expected, used)], PrepKitchen(), 1);
      s.Ok? && InventoryBalance.QuantityOf(s.value, InventoryBalance.Key("Raw", "Dept", "Co")) == raw &&
      InventoryBalance.QuantityOf(s.value, InventoryBalance.Key("Output", "Dept", "Co")) == output
  {
    var k := PrepKitchen();
    var rec := PrepRecipe();
    var rows := [RawRow(used, expected, used)];
    var rawKey := InventoryBalance.Key("Raw", "Dept", "Co");
    var outKey := InventoryBalance.Key("Output", "Dept", "Co");
    assert SourceRow(rec.ingredients, "row-1") == Some(rec.ingredients[0]);
    assert k.convert("Raw", "each", used) == Ok(used);
    assert Resolve(rec.ingredients[0], Some(used), "each", k) == Ok(("Raw", used));
    var afterRaw := InventoryBalance.Saved(Opening(), rawKey, 25.0 - used, None, 1);
    assert PostRow(Opening(), rows[0], rec.ingredients, "Dept", "Co", k, 1) == Ok(afterRaw);
    assert rows[..0] == [];
    assert PostRows(Opening(), rows, rec.ingredients, "Dept", "Co", k, 1) == Ok(afterRaw);
    assert k.convert("Output", "each", produced) == Ok(produced);
    assert ProducedPrimary(rec, Some(produced), "each", k) == Ok(produced);
    assert InventoryBalance.QuantityOf(afterRaw, outKey) == 5.0;
  }

  // ---------------------------------------------------------------------
  // The document
  // ---------------------------------------------------------------------

  class RecipeBatch {
    var recipe: string
    var department: string
    var company: string
    var producedQuantity: Option<real>
    var producedUnit: string
    var ingredients: seq<BatchRow>

    constructor (recipe: string, department: string, company: string, producedQuantity: Option<real>,
                 producedUnit: string, ingredients: seq<BatchRow>)
      ensures this.recipe == recipe && this.department == department && this.company == company
      ensures this.producedQuantity == producedQuantity && this.producedUnit == producedUnit
      ensures this.ingredients == ingredients
    {
      this.recipe := recipe;
      this.department := department;
      this.company := company;
      this.producedQuantity := producedQuantity;
      this.producedUnit := producedUnit;
      this.ingredients := ingredients;
    }

    /** `validate`: defaults, checks, the rebuilt table and its metrics; nothing changes on an error. */
    method Validate(k: Kitchen) returns (err: Option<string>)
      modifies this`department, this`company, this`producedUnit, this`ingredients
      ensures var v := Validation(recipe, old(department), old(company), producedQuantity, old(producedUnit), old(ingredients), k);
        (err.None? <==> v.Ok?) &&
        (err.Some? ==> department == old(department) && company == old(company) &&
                       producedUnit == old(producedUnit) && ingredients == old(ingredients)) &&
        (err.None? ==> department == v.value.department && company == v.value.company &&
                       producedUnit == v.value.producedUnit && ingredients == v.value.ingredients)
    {
      var rec := LoadRecipe(recipe, k.recipes);
      if rec.Err? {
        return Some(rec.error);
      }
      var defaults := Defaults(department, company, producedUnit, rec.value, k);
      if defaults.Err? {
        return Some(defaults.error);
      }
      var yieldErr := YieldError(rec.value);
      if yieldErr.Some? {
        return yieldErr;
      }
      var producedErr := ProducedError(producedQuantity);
      if producedErr.Some? {
        return producedErr;
      }
      var scale := Scale(producedQuantity, rec.value.yieldQuantity);
      var synced := SyncRows(ingredients, rec.value.ingredients, scale);
      var measured := Recalculate(synced, rec.value.ingredients, scale, k);
      if measured.Err? {
        return Some(measured.error);
      }
      department, company, producedUnit := defaults.value.0, defaults.value.1, defaults.value.2;
      ingredients := measured.value;
      err := None;
    }

    /** `on_submit`: post every movement to the balances, or none of them on an error. */
    method Submit(k: Kitchen, table: InventoryBalance.BalanceTable, now: int) returns (err: Option<string>)
      requires table.Valid()
      modifies table
      ensures table.Valid()
      ensures var s := Submission(old(table.rows), recipe, department, company, producedQuantity, producedUnit, ingredients, k, now);
        (err.None? <==> s.Ok?) &&
        (err.Some? ==> table.rows == old(table.rows)) &&
        (err.None? ==> table.rows == s.value)
    {
      var rec := LoadRecipe(recipe, k.recipes);
      if rec.Err? {
        return Some(rec.error);
      }
      var rows := rec.value.ingredients;
      var saved := table.rows;
      var i := 0;
      while i < |ingredients|
        invariant 0 <= i <= |ingredients|
        invariant table.Valid()
        invariant PostRows(saved, ingredients[..i], rows, department, company, k, now) == Ok(table.rows)
      {
        PostRowsSnoc(saved, ingredients, i, rows, department, company, k, now, table.rows);
        err := PostRowTo(table, ingredients[i], rows, department, company, k, now);
        if err.Some? {
          table.rows := saved;
          PostRowsErrExtends(saved, ingredients, i + 1, rows, department, company, k, now);
          return;
        }
        i := i + 1;
      }
      assert ingredients[..i] == ingredients;
      err := PostOutputTo(table, rec.value, department, company, producedQuantity, producedUnit, k, now);
      if err.Some? {
        table.rows := saved;
      }
    }
  }

  /** One row of `_post_inventory_movements` against the balance table. */
  method PostRowTo(table: InventoryBalance.BalanceTable, row: BatchRow, recipeRows: seq<Recipes.Ingredient>,
                   department: string, company: string, k: Kitchen, now: int) returns (err: Option<string>)
    requires table.Valid()
    modifies table
    ensures table.Valid()
    ensures var r := PostRow(old(table.rows), row, recipeRows, department, company, k, now);
      (err.None? <==> r.Ok?) && (err.None? ==> table.rows == r.value) && (err.Some? ==> err.value == r.error)
  {
    var source := SourceRow(recipeRows, row.sourceRowname);
    if source.None? {
      return None;
    }
    var target := Resolve(source.value, row.quantityUsed, row.unit, k);
    if target.Err? {
      return Some(target.error);
    }
    var (product, q) := target.value;
    if q != 0.0 {
      err := table.ApplyDelta(InventoryBalance.Key(product, department, company), -q, None, now);
    } else {
      err := None;
    }
  }

  /** The output step of `_post_inventory_movements` against the balance table. */
  method PostOutputTo(table: InventoryBalance.BalanceTable, recipe: Recipes.RecipeRecord, department: string, company: string,
                      producedQuantity: Option<real>, producedUnit: string, k: Kitchen, now: int) returns (err: Option<string>)
    requires table.Valid()
    modifies table
    ensures table.Valid()
    ensures var r := PostOutput(old(table.rows), recipe, department, company, producedQuantity, producedUnit, k, now);
      (err.None? <==> r.Ok?) && (err.None? ==> table.rows == r.value)
  {
    if recipe.outputProduct == "" {
      return None;
    }
    var produced := ProducedPrimary(recipe, producedQuantity, producedUnit, k);
    if produced.Err? {
      return Some(produced.error);
    }
    if produced.value != 0.0 {
      err := table.ApplyDelta(InventoryBalance.Key(recipe.outputProduct, department, company), produced.value, None, now);
    } else {
      err := None;
    }
  }
}
