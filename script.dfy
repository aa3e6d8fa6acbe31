/** The script itself: one frame object changed in place by successive column
    assignments, proved to leave the frame and show the page that the
    functional description of the run gives. */
module Script {
  import opened Wrappers
  import opened Frame
  import opened Statistics
  import opened Metrics
  import opened Dashboard

  /** The derivation statements on the frame object, in source order; a
      failing statement stops the run with the assignments before it made. */
  method DeriveInPlace(df: DataFrame) returns (failure: Option<SchemaError>)
    requires df.Valid() && DivisorsNonZero(df.Value())
    modifies df
    ensures df.Valid()
    ensures Run(df.Value(), failure) == Derive(old(df.Value()))
  {
    ghost var t := df.Value();
    var cost := TotalCostColumn(df.Value());
    if cost.Err? {
      return Some(cost.error);
    }
    df.Assign(TotalCost, Numbers(cost.value));
    ghost var t1 := df.Value();
    PutKeepsDivisors(t, TotalCost, Numbers(cost.value));

    var sales := TotalSalesColumn(df.Value());
    if sales.Err? {
      return Some(sales.error);
    }
    df.Assign(TotalSales, Numbers(sales.value));
    ghost var t2 := df.Value();
    PutKeepsDivisors(t1, TotalSales, Numbers(sales.value));

    var percents := YieldPercentColumn(df.Value());
    if percents.Err? {
      return Some(percents.error);
    }
    df.Assign(YieldPercent, Numbers(percents.value));
    PutKeepsDivisors(t2, YieldPercent, Numbers(percents.value));

    var perKg := CostPerKgColumn(df.Value());
    if perKg.Err? {
      return Some(perKg.error);
    }
    df.Assign(CostPerKg, Numbers(perKg.value));

    var margins := GrossMarginColumn(df.Value());
    if margins.Err? {
      return Some(margins.error);
    }
    df.Assign(GrossMargin, Numbers(margins.value));

    var dates := DatesWithYear(df.Value());
    if dates.Err? {
      return Some(dates.error);
    }
    df.Assign(DateColumn, Texts(dates.value));
    return None;
  }

  /** One run of the script on the frame read from the selected sheet: the
      gate, the derivation, the two bands, the two flag assignments and the
      tables and band the page shows. `yieldStd` and `marginStd` stand for
      the `.std()` of the two derived columns, `relationStd` for the `.std()`
      of the yield column taken again for the relationship plot. */
  method RunPage(sheet: string, df: DataFrame, yieldStd: real, marginStd: real, relationStd: real, relationship: string)
      returns (outcome: Outcome)
    requires df.Valid() && (sheet == DataSheet ==> DivisorsNonZero(df.Value()))
    modifies df
    ensures df.Valid()
    ensures Page(df.Value(), outcome) == RenderPage(sheet, old(df.Value()), yieldStd, marginStd, relationStd, relationship)
  {
    if sheet != DataSheet {
      return Preview;
    }
    ghost var t := df.Value();
    var failure := DeriveInPlace(df);
    if failure.Some? {
      return Failed(failure.value);
    }
    ghost var d := df.Value();
    DataPageFlagsDerivedFrame(t, yieldStd, marginStd, relationStd, relationship);
    assert d == Derive(t).frame;

    var yieldBand := BandOf(NumbersOf(df.Value(), YieldPercent), yieldStd);
    var marginBand := BandOf(NumbersOf(df.Value(), GrossMargin), marginStd);
    df.Assign(AbnormalYield, Texts(Labels(NumbersOf(df.Value(), YieldPercent), yieldBand)));
    df.Assign(AbnormalGrossMargin, Texts(Labels(NumbersOf(df.Value(), GrossMargin), marginBand)));

    outcome := Analysed(
      yieldBand, marginBand,
      AbnormalDays(df.Value(), YieldPercent, AbnormalYield),
      AbnormalDays(df.Value(), GrossMargin, AbnormalGrossMargin),
      RelationshipBand(relationship, df.Value(), relationStd));
    assert Page(df.Value(), outcome) == Flag(d, yieldStd, marginStd, relationStd, relationship);
  }
}
