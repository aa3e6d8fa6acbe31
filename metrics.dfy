/** The derived columns of the "Data" sheet: total cost, total sales, yield
    percentage, cost per kilogram and gross margin, each computed column-wise
    from the production columns of the same row, and the Date column
    rewritten with the fixed year. */
module Metrics {
  import opened Wrappers
  import opened Frame

  const MilkInput: string := "Milk_Input_Ltrs"
  const MilkPrice: string := "Milk_Purchase_Price_per_Litre"
  const IngredientCost: string := "Ingredient_Cost_RS"
  const LabourCost: string := "Labour_Cost_RS"
  const UtilityCost: string := "Utility_Cost_RS"
  const PaneerOutput: string := "Paneer_Output_Kg"
  const SellingPrice: string := "Selling_Price_per_Kg_RS"
  const DateColumn: string := "Date"

  const TotalCost: string := "Total_Cost"
  const TotalSales: string := "Total_Sales"
  const YieldPercent: string := "Yield_Percent"
  const CostPerKg: string := "Cost_per_kg"
  const GrossMargin: string := "Gross_Margin"

  /** The year appended to every day-month token of the Date column. */
  const YearSuffix: string := "-2024"

  /** The inputs of one production day that the formulas read. */
  datatype DailyInputs = DailyInputs(
    milkLitres: real,
    milkPrice: real,
    ingredientCost: real,
    labourCost: real,
    utilityCost: real,
    paneerKg: real,
    sellingPrice: real)

  // Reference definitions of the derived metrics of one day.

  function TotalCostOf(d: DailyInputs): real {
    d.milkLitres * d.milkPrice + d.ingredientCost + d.labourCost + d.utilityCost
  }

  function TotalSalesOf(d: DailyInputs): real {
    d.paneerKg * d.sellingPrice
  }

  /** Paneer output as a percentage of milk input. */
  function YieldPercentOf(d: DailyInputs): (y: real)
    requires d.milkLitres != 0.0
    ensures y * d.milkLitres == 100.0 * d.paneerKg
  {
    d.paneerKg / d.milkLitres * 100.0
  }

  /** Total cost per kilogram of paneer. */
  function CostPerKgOf(d: DailyInputs): (c: real)
    requires d.paneerKg != 0.0
    ensures c * d.paneerKg == TotalCostOf(d)
  {
    TotalCostOf(d) / d.paneerKg
  }

  function GrossMarginOf(d: DailyInputs): real {
    TotalSalesOf(d) - TotalCostOf(d)
  }

  // Column-wise arithmetic, as pandas applies it to whole columns.

  function Plus(a: seq<real>, b: seq<real>): seq<real>
    requires |a| == |b|
  {
    seq(|a|, i requires 0 <= i < |a| => a[i] + b[i])
  }

  function Minus(a: seq<real>, b: seq<real>): seq<real>
    requires |a| == |b|
  {
    seq(|a|, i requires 0 <= i < |a| => a[i] - b[i])
  }

  function Times(a: seq<real>, b: seq<real>): seq<real>
    requires |a| == |b|
  {
    seq(|a|, i requires 0 <= i < |a| => a[i] * b[i])
  }

  function Scale(a: seq<real>, k: real): seq<real> {
    seq(|a|, i requires 0 <= i < |a| => a[i] * k)
  }

  function Divide(a: seq<real>, b: seq<real>): seq<real>
    requires |a| == |b|
    requires forall i :: 0 <= i < |b| ==> b[i] != 0.0
  {
    seq(|a|, i requires 0 <= i < |a| => a[i] / b[i])
  }

  /** A column used as a divisor has no zero cell (division by zero would
      give an infinite or NaN cell, which reals cannot represent). */
  predicate NonZeroWhereNumeric(t: Table, name: string) {
    name in t.columns && t.columns[name].Numbers? ==>
      forall i :: 0 <= i < |t.columns[name].nums| ==> t.columns[name].nums[i] != 0.0
  }

  predicate DivisorsNonZero(t: Table) {
    NonZeroWhereNumeric(t, MilkInput) && NonZeroWhereNumeric(t, PaneerOutput)
  }

  /** Assigning a column other than the two divisors keeps them non-zero. */
  lemma PutKeepsDivisors(t: Table, name: string, c: Column)
    requires Rectangular(t) && Length(c) == t.height && DivisorsNonZero(t)
    requires name != MilkInput && name != PaneerOutput
    ensures DivisorsNonZero(Put(t, name, c))
  {
  }

  // One function per assignment statement. Each reads its columns, and
  // checks its operands, in the order Python evaluates the expression.

  /** `(Milk_Input_Ltrs * Milk_Purchase_Price_per_Litre) + Ingredient_Cost_RS
      + Labour_Cost_RS + Utility_Cost_RS`. */
  function TotalCostColumn(t: Table): (r: Result<seq<real>>)
    requires Rectangular(t)
    ensures r.Ok? <==> (IsNumberColumn(t, MilkInput) && IsNumberColumn(t, MilkPrice) &&
      IsNumberColumn(t, IngredientCost) && IsNumberColumn(t, LabourCost) && IsNumberColumn(t, UtilityCost))
    ensures r.Ok? ==> |r.value| == t.height && forall i :: 0 <= i < t.height ==>
      r.value[i] == NumbersOf(t, MilkInput)[i] * NumbersOf(t, MilkPrice)[i] + NumbersOf(t, IngredientCost)[i]
        + NumbersOf(t, LabourCost)[i] + NumbersOf(t, UtilityCost)[i]
  {
    var milkCol :- Lookup(t, MilkInput);
    var priceCol :- Lookup(t, MilkPrice);
    var milk :- Numeric(milkCol, MilkInput);
    var price :- Numeric(priceCol, MilkPrice);
    var ingredientCol :- Lookup(t, IngredientCost);
    var ingredient :- Numeric(ingredientCol, IngredientCost);
    var labourCol :- Lookup(t, LabourCost);
    var labour :- Numeric(labourCol, LabourCost);
    var utilityCol :- Lookup(t, UtilityCost);
    var utility :- Numeric(utilityCol, UtilityCost);
    Ok(Plus(Plus(Plus(Times(milk, price), ingredient), labour), utility))
  }

  /** `Paneer_Output_Kg * Selling_Price_per_Kg_RS`. */
  function TotalSalesColumn(t: Table): (r: Result<seq<real>>)
    requires Rectangular(t)
    ensures r.Ok? <==> IsNumberColumn(t, PaneerOutput) && IsNumberColumn(t, SellingPrice)
    ensures r.Ok? ==> |r.value| == t.height && forall i :: 0 <= i < t.height ==>
      r.value[i] == NumbersOf(t, PaneerOutput)[i] * NumbersOf(t, SellingPrice)[i]
  {
    var paneerCol :- Lookup(t, PaneerOutput);
    var priceCol :- Lookup(t, SellingPrice);
    var paneer :- Numeric(paneerCol, PaneerOutput);
    var price :- Numeric(priceCol, SellingPrice);
    Ok(Times(paneer, price))
  }

  /** `(Paneer_Output_Kg / Milk_Input_Ltrs) * 100`. */
  function YieldPercentColumn(t: Table): (r: Result<seq<real>>)
    requires Rectangular(t) && DivisorsNonZero(t)
    ensures r.Ok? <==> IsNumberColumn(t, PaneerOutput) && IsNumberColumn(t, MilkInput)
    ensures r.Ok? ==> |r.value| == t.height && forall i :: 0 <= i < t.height ==>
      NumbersOf(t, MilkInput)[i] != 0.0 &&
      r.value[i] == NumbersOf(t, PaneerOutput)[i] / NumbersOf(t, MilkInput)[i] * 100.0
  {
    var paneerCol :- Lookup(t, PaneerOutput);
    var milkCol :- Lookup(t, MilkInput);
    var paneer :- Numeric(paneerCol, PaneerOutput);
    var milk :- Numeric(milkCol, MilkInput);
    Ok(Scale(Divide(paneer, milk), 100.0))
  }

  /** `Total_Cost / Paneer_Output_Kg`. */
  function CostPerKgColumn(t: Table): (r: Result<seq<real>>)
    requires Rectangular(t) && DivisorsNonZero(t)
    ensures r.Ok? <==> IsNumberColumn(t, TotalCost) && IsNumberColumn(t, PaneerOutput)
    ensures r.Ok? ==> |r.value| == t.height && forall i :: 0 <= i < t.height ==>
      NumbersOf(t, PaneerOutput)[i] != 0.0 &&
      r.value[i] == NumbersOf(t, TotalCost)[i] / NumbersOf(t, PaneerOutput)[i]
  {
    var costCol :- Lookup(t, TotalCost);
    var paneerCol :- Lookup(t, PaneerOutput);
    var cost :- Numeric(costCol, TotalCost);
    var paneer :- Numeric(paneerCol, PaneerOutput);
    Ok(Divide(cost, paneer))
  }

  /** `Total_Sales - Total_Cost`. */
  function GrossMarginColumn(t: Table): (r: Result<seq<real>>)
    requires Rectangular(t)
    ensures r.Ok? <==> IsNumberColumn(t, TotalSales) && IsNumberColumn(t, TotalCost)
    ensures r.Ok? ==> |r.value| == t.height && forall i :: 0 <= i < t.height ==>
      r.value[i] == NumbersOf(t, TotalSales)[i] - NumbersOf(t, TotalCost)[i]
  {
    var salesCol :- Lookup(t, TotalSales);
    var costCol :- Lookup(t, TotalCost);
    var sales :- Numeric(salesCol, TotalSales);
    var cost :- Numeric(costCol, TotalCost);
    Ok(Minus(sales, cost))
  }

  /** `f"{x}-2024"` for one Date cell. */
  function WithYear(x: string): (r: string)
    ensures |r| == |x| + |YearSuffix| && r[..|x|] == x && r[|x|..] == YearSuffix
  {
    x + YearSuffix
  }

  /** The Date column with the year appended to each cell, before date
      parsing. A numeric Date column cannot be parsed as day-month-year. */
  function DatesWithYear(t: Table): (r: Result<seq<string>>)
    requires Rectangular(t)
    ensures r.Ok? <==> IsTextColumn(t, DateColumn)
    ensures r.Ok? ==> |r.value| == t.height && forall i :: 0 <= i < t.height ==>
      r.value[i] == WithYear(TextsOf(t, DateColumn)[i])
  {
    var dateCol :- Lookup(t, DateColumn);
    match dateCol
    case Numbers(_) => Err(UnparsableDate)
    case Texts(ds) => Ok(seq(|ds|, i requires 0 <= i < |ds| => WithYear(ds[i])))
  }

  /** Where a run of the statements stopped: the frame at that point, and
      the error that stopped it, if any. */
  datatype Run = Run(frame: Table, failure: Option<SchemaError>)

  /** The derivation statements in source order. The frame is changed by
      each assignment; the first failing statement stops the run and keeps
      the assignments made before it. */
  function Derive(t: Table): (r: Run)
    requires Rectangular(t) && DivisorsNonZero(t)
    ensures Rectangular(r.frame) && r.frame.height == t.height
  {
    match TotalCostColumn(t)
    case Err(e) => Run(t, Some(e))
    case Ok(cost) =>
      var t1 := Put(t, TotalCost, Numbers(cost));
      match TotalSalesColumn(t1)
      case Err(e) => Run(t1, Some(e))
      case Ok(sales) =>
        var t2 := Put(t1, TotalSales, Numbers(sales));
        PutKeepsDivisors(t, TotalCost, Numbers(cost));
        PutKeepsDivisors(t1, TotalSales, Numbers(sales));
        match YieldPercentColumn(t2)
        case Err(e) => Run(t2, Some(e))
        case Ok(percents) =>
          var t3 := Put(t2, YieldPercent, Numbers(percents));
          PutKeepsDivisors(t2, YieldPercent, Numbers(percents));
          match CostPerKgColumn(t3)
          case Err(e) => Run(t3, Some(e))
          case Ok(perKg) =>
            var t4 := Put(t3, CostPerKg, Numbers(perKg));
            match GrossMarginColumn(t4)
            case Err(e) => Run(t4, Some(e))
            case Ok(margins) =>
              var t5 := Put(t4, GrossMargin, Numbers(margins));
              match DatesWithYear(t5)
              case Err(e) => Run(t5, Some(e))
              case Ok(dates) => Run(Put(t5, DateColumn, Texts(dates)), None)
  }

  /** The sheet has every column the derivation reads, with the right kind. */
  predicate HasProductionColumns(t: Table) {
    IsNumberColumn(t, MilkInput) && IsNumberColumn(t, MilkPrice) &&
    IsNumberColumn(t, IngredientCost) && IsNumberColumn(t, LabourCost) &&
    IsNumberColumn(t, UtilityCost) && IsNumberColumn(t, PaneerOutput) &&
    IsNumberColumn(t, SellingPrice) && IsTextColumn(t, DateColumn)
  }

  /** The derivation runs to the end exactly when the sheet has the
      production columns; otherwise it stops with a schema error. */
  lemma DeriveSucceedsIffColumnsPresent(t: Table)
    requires Rectangular(t) && DivisorsNonZero(t)
    ensures Derive(t).failure.None? <==> HasProductionColumns(t)
  {
    if HasProductionColumns(t) {
      DeriveCompletesOnProductionColumns(t);
    } else if Derive(t).failure.None? {
      DeriveCompletionNeedsProductionColumns(t);
    }
  }

  lemma DeriveCompletesOnProductionColumns(t: Table)
    requires Rectangular(t) && DivisorsNonZero(t) && HasProductionColumns(t)
    ensures Derive(t).failure.None?
  {
    DerivedNamesDistinct();
    var cost := TotalCostColumn(t).value;
    var t1 := Put(t, TotalCost, Numbers(cost));
    var sales := TotalSalesColumn(t1).value;
    var t2 := Put(t1, TotalSales, Numbers(sales));
    PutKeepsDivisors(t, TotalCost, Numbers(cost));
    PutKeepsDivisors(t1, TotalSales, Numbers(sales));
    var percents := YieldPercentColumn(t2).value;
    var t3 := Put(t2, YieldPercent, Numbers(percents));
    PutKeepsDivisors(t2, YieldPercent, Numbers(percents));
    var perKg := CostPerKgColumn(t3).value;
    var t4 := Put(t3, CostPerKg, Numbers(perKg));
    var t5 := Put(t4, GrossMargin, Numbers(GrossMarginColumn(t4).value));
    assert DatesWithYear(t5).Ok?;
  }

  lemma DeriveCompletionNeedsProductionColumns(t: Table)
    requires Rectangular(t) && DivisorsNonZero(t) && Derive(t).failure.None?
    ensures HasProductionColumns(t)
  {
    DerivedNamesDistinct();
    var cost := TotalCostColumn(t);
    assert cost.Ok?;
    var t1 := Put(t, TotalCost, Numbers(cost.value));
    var sales := TotalSalesColumn(t1);
    assert sales.Ok?;
    var t2 := Put(t1, TotalSales, Numbers(sales.value));
    PutKeepsDivisors(t, TotalCost, Numbers(cost.value));
    PutKeepsDivisors(t1, TotalSales, Numbers(sales.value));
    var percents := YieldPercentColumn(t2);
    assert percents.Ok?;
    var t3 := Put(t2, YieldPercent, Numbers(percents.value));
    PutKeepsDivisors(t2, YieldPercent, Numbers(percents.value));
    var t4 := Put(t3, CostPerKg, Numbers(CostPerKgColumn(t3).value));
    var t5 := Put(t4, GrossMargin, Numbers(GrossMarginColumn(t4).value));
    assert DatesWithYear(t5).Ok?;
  }

  /** Day `i` of the sheet as a record of the inputs the formulas read. */
  function DayAt(t: Table, i: nat): DailyInputs
    requires HasProductionColumns(t) && Rectangular(t) && i < t.height
  {
    DailyInputs(
      NumbersOf(t, MilkInput)[i], NumbersOf(t, MilkPrice)[i],
      NumbersOf(t, IngredientCost)[i], NumbersOf(t, LabourCost)[i],
      NumbersOf(t, UtilityCost)[i], NumbersOf(t, PaneerOutput)[i],
      NumbersOf(t, SellingPrice)[i])
  }

  /** The derived column names differ from each other and from the input
      names, so each assignment leaves the other columns in place. */
  lemma DerivedNamesDistinct()
    ensures TotalCost != TotalSales && TotalCost != YieldPercent && TotalCost != CostPerKg
    ensures TotalCost != GrossMargin && TotalCost != DateColumn
    ensures TotalSales != YieldPercent && TotalSales != CostPerKg && TotalSales != GrossMargin
    ensures TotalSales != DateColumn
    ensures YieldPercent != CostPerKg && YieldPercent != GrossMargin && YieldPercent != DateColumn
    ensures CostPerKg != GrossMargin && CostPerKg != DateColumn && GrossMargin != DateColumn
  {
  }

  /** The frames a successful run passes through, one per assignment
      statement, each step succeeding. */
  lemma DeriveSteps(t: Table) returns (t1: Table, t2: Table, t3: Table, t4: Table, t5: Table)
    requires Rectangular(t) && DivisorsNonZero(t)
    requires Derive(t).failure.None?
    ensures HasProductionColumns(t)
    ensures TotalCostColumn(t).Ok? && t1 == Put(t, TotalCost, Numbers(TotalCostColumn(t).value))
    ensures TotalSalesColumn(t1).Ok? && t2 == Put(t1, TotalSales, Numbers(TotalSalesColumn(t1).value))
    ensures DivisorsNonZero(t2) && YieldPercentColumn(t2).Ok?
    ensures t3 == Put(t2, YieldPercent, Numbers(YieldPercentColumn(t2).value))
    ensures DivisorsNonZero(t3) && CostPerKgColumn(t3).Ok?
    ensures t4 == Put(t3, CostPerKg, Numbers(CostPerKgColumn(t3).value))
    ensures GrossMarginColumn(t4).Ok? && t5 == Put(t4, GrossMargin, Numbers(GrossMarginColumn(t4).value))
    ensures DatesWithYear(t5).Ok? && Derive(t).frame == Put(t5, DateColumn, Texts(DatesWithYear(t5).value))
  {
    DeriveSucceedsIffColumnsPresent(t);
    var cost := TotalCostColumn(t).value;
    t1 := Put(t, TotalCost, Numbers(cost));
    PutKeepsDivisors(t, TotalCost, Numbers(cost));
    var sales := TotalSalesColumn(t1).value;
    t2 := Put(t1, TotalSales, Numbers(sales));
    PutKeepsDivisors(t1, TotalSales, Numbers(sales));
    var percents := YieldPercentColumn(t2).value;
    t3 := Put(t2, YieldPercent, Numbers(percents));
    PutKeepsDivisors(t2, YieldPercent, Numbers(percents));
    var perKg := CostPerKgColumn(t3).value;
    t4 := Put(t3, CostPerKg, Numbers(perKg));
    var margins := GrossMarginColumn(t4).value;
    t5 := Put(t4, GrossMargin, Numbers(margins));
  }

  /** After a successful run, row `i` of each derived column is the metric
      of day `i` alone — the formulas of the reference definitions — and the
      Date cell has the year appended. */
  lemma DeriveFollowsDailyFormulas(t: Table, i: nat)
    requires Rectangular(t) && DivisorsNonZero(t)
    requires Derive(t).failure.None? && i < t.height
    ensures HasProductionColumns(t)
    ensures DayAt(t, i).milkLitres != 0.0 && DayAt(t, i).paneerKg != 0.0
    ensures var d := Derive(t).frame;
      IsNumberColumn(d, TotalCost) && IsNumberColumn(d, TotalSales) &&
      IsNumberColumn(d, YieldPercent) && IsNumberColumn(d, CostPerKg) &&
      IsNumberColumn(d, GrossMargin) && IsTextColumn(d, DateColumn) &&
      NumbersOf(d, TotalCost)[i] == TotalCostOf(DayAt(t, i)) &&
      NumbersOf(d, TotalSales)[i] == TotalSalesOf(DayAt(t, i)) &&
      NumbersOf(d, YieldPercent)[i] == YieldPercentOf(DayAt(t, i)) &&
      NumbersOf(d, CostPerKg)[i] == CostPerKgOf(DayAt(t, i)) &&
      NumbersOf(d, GrossMargin)[i] == GrossMarginOf(DayAt(t, i)) &&
      TextsOf(d, DateColumn)[i] == WithYear(TextsOf(t, DateColumn)[i])
  {
    var t1, t2, t3, t4, t5 := DeriveSteps(t);
    DerivedNamesDistinct();
    var day := DayAt(t, i);
    var cost := TotalCostColumn(t).value;
    var sales := TotalSalesColumn(t1).value;
    var percents := YieldPercentColumn(t2).value;
    var perKg := CostPerKgColumn(t3).value;
    var margins := GrossMarginColumn(t4).value;
    CostFromInputs(t, i);
    PutKeepsInputs(t, t, TotalCost, Numbers(cost));
    SalesFromInputs(t, t1, i);
    PutKeepsInputs(t1, t, TotalSales, Numbers(sales));
    YieldFromInputs(t, t2, i);
    PutKeepsInputs(t2, t, YieldPercent, Numbers(percents));
    CostPerKgFromInputs(t, t3, i);
    MarginFromCells(t, t4, i);
    var d := Derive(t).frame;
    assert d.columns[TotalCost] == Numbers(cost) && d.columns[TotalSales] == Numbers(sales);
    assert d.columns[YieldPercent] == Numbers(percents) && d.columns[CostPerKg] == Numbers(perKg);
    assert d.columns[GrossMargin] == Numbers(margins);
  }

  /** Column `name` of `u` is column `name` of `t`, when `t` has one. */
  predicate SameColumn(u: Table, t: Table, name: string) {
    name in t.columns ==> name in u.columns && u.columns[name] == t.columns[name]
  }

  /** `u` still holds the input columns of the sheet `t`, row for row. */
  predicate AgreesOnInputs(u: Table, t: Table) {
    u.height == t.height &&
    SameColumn(u, t, MilkInput) && SameColumn(u, t, MilkPrice) && SameColumn(u, t, IngredientCost) &&
    SameColumn(u, t, LabourCost) && SameColumn(u, t, UtilityCost) && SameColumn(u, t, PaneerOutput) &&
    SameColumn(u, t, SellingPrice) && SameColumn(u, t, DateColumn)
  }

  /** Assigning a derived column keeps the input columns. */
  lemma PutKeepsInputs(u: Table, t: Table, name: string, c: Column)
    requires Rectangular(u) && Length(c) == u.height && AgreesOnInputs(u, t)
    requires name in {TotalCost, TotalSales, YieldPercent, CostPerKg, GrossMargin}
    ensures AgreesOnInputs(Put(u, name, c), t)
  {
  }

  /** Row `i` of the `Total_Cost` statement is the day's total cost. */
  lemma CostFromInputs(t: Table, i: nat)
    requires Rectangular(t) && HasProductionColumns(t) && i < t.height
    ensures TotalCostColumn(t).Ok? && TotalCostColumn(t).value[i] == TotalCostOf(DayAt(t, i))
  {
  }

  /** Row `i` of the `Total_Sales` statement, on any frame that still holds
      the inputs, is the day's sales. */
  lemma SalesFromInputs(t: Table, u: Table, i: nat)
    requires Rectangular(t) && HasProductionColumns(t) && i < t.height
    requires Rectangular(u) && AgreesOnInputs(u, t)
    ensures TotalSalesColumn(u).Ok? && TotalSalesColumn(u).value[i] == TotalSalesOf(DayAt(t, i))
  {
  }

  /** Row `i` of the `Yield_Percent` statement, on any frame that still
      holds the inputs, is the day's yield. */
  lemma YieldFromInputs(t: Table, u: Table, i: nat)
    requires Rectangular(t) && HasProductionColumns(t) && DivisorsNonZero(t) && i < t.height
    requires Rectangular(u) && AgreesOnInputs(u, t) && DivisorsNonZero(u)
    ensures DayAt(t, i).milkLitres != 0.0
    ensures YieldPercentColumn(u).Ok? && YieldPercentColumn(u).value[i] == YieldPercentOf(DayAt(t, i))
  {
  }

  /** Row `i` of the `Cost_per_kg` statement, on a frame that holds the
      inputs and the day's total cost, is the day's cost per kg. */
  lemma CostPerKgFromInputs(t: Table, u: Table, i: nat)
    requires Rectangular(t) && HasProductionColumns(t) && DivisorsNonZero(t) && i < t.height
    requires Rectangular(u) && AgreesOnInputs(u, t) && DivisorsNonZero(u)
    requires IsNumberColumn(u, TotalCost) && NumbersOf(u, TotalCost)[i] == TotalCostOf(DayAt(t, i))
    ensures DayAt(t, i).paneerKg != 0.0
    ensures CostPerKgColumn(u).Ok? && CostPerKgColumn(u).value[i] == CostPerKgOf(DayAt(t, i))
  {
  }

  /** Row `i` of the `Gross_Margin` statement, on a frame that holds the
      day's sales and total cost, is the day's margin. */
  lemma MarginFromCells(t: Table, u: Table, i: nat)
    requires Rectangular(t) && HasProductionColumns(t) && i < t.height && Rectangular(u) && u.height == t.height
    requires IsNumberColumn(u, TotalSales) && NumbersOf(u, TotalSales)[i] == TotalSalesOf(DayAt(t, i))
    requires IsNumberColumn(u, TotalCost) && NumbersOf(u, TotalCost)[i] == TotalCostOf(DayAt(t, i))
    ensures GrossMarginColumn(u).Ok? && GrossMarginColumn(u).value[i] == GrossMarginOf(DayAt(t, i))
  {
  }

  /** After a successful run the frame holds the columns the flagging reads. */
  lemma DerivedColumnsPresent(t: Table)
    requires Rectangular(t) && DivisorsNonZero(t)
    requires Derive(t).failure.None?
    ensures IsNumberColumn(Derive(t).frame, YieldPercent) && IsNumberColumn(Derive(t).frame, GrossMargin)
    ensures IsTextColumn(Derive(t).frame, DateColumn)
  {
    var t1, t2, t3, t4, t5 := DeriveSteps(t);
  }

  /** The derivation adds the five metric columns, rewrites Date, and leaves
      every other column of the sheet and the number of rows as they were. */
  lemma DeriveKeepsOtherColumns(t: Table)
    requires Rectangular(t) && DivisorsNonZero(t)
    requires Derive(t).failure.None?
    ensures Derive(t).frame.height == t.height
    ensures Derive(t).frame.columns.Keys == t.columns.Keys + {TotalCost, TotalSales, YieldPercent, CostPerKg, GrossMargin}
    ensures forall k :: (k in t.columns && k !in {TotalCost, TotalSales, YieldPercent, CostPerKg, GrossMargin, DateColumn}
      ==> Derive(t).frame.columns[k] == t.columns[k])
  {
    var t1, t2, t3, t4, t5 := DeriveSteps(t);
    PutsKeepOtherColumns(t, t1, t2, t3, t4, t5);
  }

  /** Five assignments of derived columns leave the other columns alone. */
  lemma PutsKeepOtherColumns(t: Table, t1: Table, t2: Table, t3: Table, t4: Table, t5: Table)
    requires Rectangular(t) && Rectangular(t1) && Rectangular(t2) && Rectangular(t3) && Rectangular(t4)
    requires TotalCost in t1.columns && t1 == Table(t.height, t.columns[TotalCost := t1.columns[TotalCost]])
    requires TotalSales in t2.columns && t2 == Table(t.height, t1.columns[TotalSales := t2.columns[TotalSales]])
    requires YieldPercent in t3.columns && t3 == Table(t.height, t2.columns[YieldPercent := t3.columns[YieldPercent]])
    requires CostPerKg in t4.columns && t4 == Table(t.height, t3.columns[CostPerKg := t4.columns[CostPerKg]])
    requires GrossMargin in t5.columns && t5 == Table(t.height, t4.columns[GrossMargin := t5.columns[GrossMargin]])
    ensures t5.columns.Keys == t.columns.Keys + {TotalCost, TotalSales, YieldPercent, CostPerKg, GrossMargin}
    ensures forall k :: (k in t.columns && k !in {TotalCost, TotalSales, YieldPercent, CostPerKg, GrossMargin}
      ==> t5.columns[k] == t.columns[k])
  {
  }

  /** The margin column is the sales column minus the cost column, row by
      row, in the derived frame. */
  lemma MarginIsSalesMinusCost(t: Table, i: nat)
    requires Rectangular(t) && DivisorsNonZero(t)
    requires Derive(t).failure.None? && i < t.height
    ensures var d := Derive(t).frame;
      IsNumberColumn(d, TotalSales) && IsNumberColumn(d, TotalCost) && IsNumberColumn(d, GrossMargin) &&
      NumbersOf(d, GrossMargin)[i] == NumbersOf(d, TotalSales)[i] - NumbersOf(d, TotalCost)[i]
  {
    var t1, t2, t3, t4, t5 := DeriveSteps(t);
    var d := Derive(t).frame;
    assert d.columns[TotalCost] == t4.columns[TotalCost] && d.columns[TotalSales] == t4.columns[TotalSales];
    assert d.columns[GrossMargin] == Numbers(GrossMarginColumn(t4).value);
  }
}
