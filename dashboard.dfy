/** One run of the dashboard script over the selected sheet: the gate on the
    sheet name, the metric derivation, the yield and margin bands, the
    Normal/Abnormal flag columns, the two "Abnormal Days" tables and the band
    redrawn in the relationship plot. */
module Dashboard {
  import opened Wrappers
  import opened Frame
  import opened Statistics
  import opened Metrics

  /** The only sheet that is analysed. */
  const DataSheet: string := "Data"

  const AbnormalYield: string := "Abnormal_Yield"
  const AbnormalGrossMargin: string := "Abnormal_Gross_Margin"

  /** The one relationship plot that draws no yield band. */
  const CapacityVsSop: string := "Capacity_Utilization vs SOP"

  /** What one run shows besides the raw preview. */
  datatype Outcome =
    | Preview                      // not the "Data" sheet: nothing is derived
    | Failed(error: SchemaError)   // a derivation statement raised
    | Analysed(
        yieldBand: Option<Band>,
        marginBand: Option<Band>,
        abnormalYieldDays: Table,
        abnormalMarginDays: Table,
        relationshipBand: Option<Band>)

  /** The frame as the run leaves it, and what the run shows. */
  datatype Page = Page(frame: Table, outcome: Outcome)

  /** `df[flagColumn] == "Abnormal"`. */
  function AbnormalMask(labels: seq<string>): (mask: seq<bool>)
    ensures |mask| == |labels|
  {
    seq(|labels|, i requires 0 <= i < |labels| => labels[i] == AbnormalLabel)
  }

  /** `df[df[flagColumn] == "Abnormal"][['Date', valueColumn, flagColumn]]`. */
  function AbnormalDays(d: Table, valueColumn: string, flagColumn: string): (a: Table)
    requires Rectangular(d) && IsTextColumn(d, flagColumn)
    requires DateColumn in d.columns && valueColumn in d.columns
    ensures Rectangular(a) && a.height == Count(AbnormalMask(TextsOf(d, flagColumn)))
    ensures a.columns.Keys == {DateColumn, valueColumn, flagColumn}
  {
    Project(Where(d, AbnormalMask(TextsOf(d, flagColumn))), [DateColumn, valueColumn, flagColumn])
  }

  /** The yield band recomputed for the relationship plot from the frame at
      that point; the "Capacity_Utilization vs SOP" plot draws none. */
  function RelationshipBand(choice: string, d: Table, yieldStd: real): (b: Option<Band>)
    requires IsNumberColumn(d, YieldPercent)
    ensures b.Some? <==> choice != CapacityVsSop && |NumbersOf(d, YieldPercent)| >= 2
    ensures b.Some? ==> b.value.lower + b.value.upper == 2.0 * Mean(NumbersOf(d, YieldPercent))
    ensures b.Some? && yieldStd >= 0.0 ==>
      b.value.lower <= Mean(NumbersOf(d, YieldPercent)) <= b.value.upper
  {
    if choice == CapacityVsSop then None else BandOf(NumbersOf(d, YieldPercent), yieldStd)
  }

  /** Bands, flag columns and abnormal-day tables over a derived frame. */
  function Flag(d: Table, yieldStd: real, marginStd: real, relationStd: real, relationship: string): (p: Page)
    requires Rectangular(d) && IsNumberColumn(d, YieldPercent) && IsNumberColumn(d, GrossMargin)
    requires IsTextColumn(d, DateColumn)
    ensures Rectangular(p.frame) && p.frame.height == d.height
    ensures p.frame.columns.Keys == d.columns.Keys + {AbnormalYield, AbnormalGrossMargin}
    ensures IsTextColumn(p.frame, AbnormalYield) && IsTextColumn(p.frame, AbnormalGrossMargin)
    ensures p.outcome.Analysed?
  {
    var yieldBand := BandOf(NumbersOf(d, YieldPercent), yieldStd);
    var marginBand := BandOf(NumbersOf(d, GrossMargin), marginStd);
    var d1 := Put(d, AbnormalYield, Texts(Labels(NumbersOf(d, YieldPercent), yieldBand)));
    var d2 := Put(d1, AbnormalGrossMargin, Texts(Labels(NumbersOf(d1, GrossMargin), marginBand)));
    Page(d2, Analysed(
      yieldBand, marginBand,
      AbnormalDays(d2, YieldPercent, AbnormalYield),
      AbnormalDays(d2, GrossMargin, AbnormalGrossMargin),
      RelationshipBand(relationship, d2, relationStd)))
  }

  /** One run of the script for the selected sheet. `yieldStd` and
      `marginStd` stand for the `.std()` of the two derived columns taken for
      the flags, `relationStd` for the `.std()` of the yield column taken
      again for the relationship plot. Only the "Data" sheet divides, so only
      there are the divisors required to be non-zero. */
  function RenderPage(sheet: string, t: Table, yieldStd: real, marginStd: real, relationStd: real, relationship: string): (p: Page)
    requires Rectangular(t) && (sheet == DataSheet ==> DivisorsNonZero(t))
    ensures sheet != DataSheet ==> p == Page(t, Preview)
    ensures sheet == DataSheet ==> p.outcome != Preview
    ensures Rectangular(p.frame) && p.frame.height == t.height
  {
    if sheet != DataSheet then Page(t, Preview)
    else
      var run := Derive(t);
      if run.failure.Some? then Page(run.frame, Failed(run.failure.value))
      else
        DerivedColumnsPresent(t);
        Flag(run.frame, yieldStd, marginStd, relationStd, relationship)
  }

  /** A page of the "Data" sheet whose derivation succeeded. */
  predicate Analysable(t: Table) {
    Rectangular(t) && DivisorsNonZero(t) && Derive(t).failure.None?
  }

  /** The flag columns: every day of the sheet gets exactly one of the two
      labels, "Abnormal" exactly when its value lies strictly outside the
      band of its column, and the bands are those of the derived columns. */
  lemma FlagsClassifyEveryDay(t: Table, yieldStd: real, marginStd: real, relationStd: real, relationship: string, i: nat)
    requires Analysable(t) && i < t.height
    ensures IsNumberColumn(Derive(t).frame, YieldPercent) && IsNumberColumn(Derive(t).frame, GrossMargin)
    ensures var p := RenderPage(DataSheet, t, yieldStd, marginStd, relationStd, relationship);
      p.outcome.Analysed? &&
      p.outcome.yieldBand == BandOf(NumbersOf(Derive(t).frame, YieldPercent), yieldStd) &&
      p.outcome.marginBand == BandOf(NumbersOf(Derive(t).frame, GrossMargin), marginStd) &&
      IsTextColumn(p.frame, AbnormalYield) && IsTextColumn(p.frame, AbnormalGrossMargin)
    ensures var p := RenderPage(DataSheet, t, yieldStd, marginStd, relationStd, relationship);
      var y := NumbersOf(Derive(t).frame, YieldPercent)[i];
      var flag := TextsOf(p.frame, AbnormalYield)[i];
      (flag == NormalLabel || flag == AbnormalLabel) &&
      (flag == AbnormalLabel <==>
        p.outcome.yieldBand.Some? && (y < p.outcome.yieldBand.value.lower || y > p.outcome.yieldBand.value.upper))
    ensures var p := RenderPage(DataSheet, t, yieldStd, marginStd, relationStd, relationship);
      var g := NumbersOf(Derive(t).frame, GrossMargin)[i];
      var flag := TextsOf(p.frame, AbnormalGrossMargin)[i];
      (flag == NormalLabel || flag == AbnormalLabel) &&
      (flag == AbnormalLabel <==>
        p.outcome.marginBand.Some? && (g < p.outcome.marginBand.value.lower || g > p.outcome.marginBand.value.upper))
  {
    DataPageFlagsDerivedFrame(t, yieldStd, marginStd, relationStd, relationship);
    var d := Derive(t).frame;
    FlaggingKeepsColumns(d, yieldStd, marginStd, relationStd, relationship);
    var f := Flag(d, yieldStd, marginStd, relationStd, relationship).frame;
    assert TextsOf(f, AbnormalYield)[i] == Label(NumbersOf(d, YieldPercent)[i], BandOf(NumbersOf(d, YieldPercent), yieldStd));
    assert TextsOf(f, AbnormalGrossMargin)[i] == Label(NumbersOf(d, GrossMargin)[i], BandOf(NumbersOf(d, GrossMargin), marginStd));
  }

  /** A page of the "Data" sheet is the flagging of the derived frame, and
      the derived frame holds what the flagging reads. */
  lemma DataPageFlagsDerivedFrame(t: Table, yieldStd: real, marginStd: real, relationStd: real, relationship: string)
    requires Analysable(t)
    ensures IsNumberColumn(Derive(t).frame, YieldPercent) && IsNumberColumn(Derive(t).frame, GrossMargin)
    ensures IsTextColumn(Derive(t).frame, DateColumn)
    ensures RenderPage(DataSheet, t, yieldStd, marginStd, relationStd, relationship)
      == Flag(Derive(t).frame, yieldStd, marginStd, relationStd, relationship)
  {
    DerivedColumnsPresent(t);
  }

  /** Flagging adds exactly the two flag columns, keeps the row count and
      leaves every column of the derived frame as it was. */
  lemma FlaggingKeepsColumns(d: Table, yieldStd: real, marginStd: real, relationStd: real, relationship: string)
    requires Rectangular(d) && IsNumberColumn(d, YieldPercent) && IsNumberColumn(d, GrossMargin)
    requires IsTextColumn(d, DateColumn)
    ensures var f := Flag(d, yieldStd, marginStd, relationStd, relationship).frame;
      f.height == d.height &&
      f.columns.Keys == d.columns.Keys + {AbnormalYield, AbnormalGrossMargin} &&
      (forall k :: k in d.columns && k != AbnormalYield && k != AbnormalGrossMargin ==> f.columns[k] == d.columns[k]) &&
      IsTextColumn(f, AbnormalYield) && IsTextColumn(f, AbnormalGrossMargin) &&
      TextsOf(f, AbnormalYield) == Labels(NumbersOf(d, YieldPercent), BandOf(NumbersOf(d, YieldPercent), yieldStd)) &&
      TextsOf(f, AbnormalGrossMargin) == Labels(NumbersOf(d, GrossMargin), BandOf(NumbersOf(d, GrossMargin), marginStd))
  {
  }

  /** The band of the relationship plot is the band the flags were computed
      with. The plot takes `.std()` of the yield column afresh from the
      flagged frame; that column is the one the flags were computed from, so
      both standard deviations are roots of the same variance and coincide.
      With fewer than two days both bands are NaN. The
      "Capacity_Utilization vs SOP" plot draws no band. */
  lemma RelationshipBandIsFlagBand(d: Table, yieldStd: real, marginStd: real, relationStd: real, relationship: string)
    requires Rectangular(d) && IsNumberColumn(d, YieldPercent) && IsNumberColumn(d, GrossMargin)
    requires IsTextColumn(d, DateColumn)
    requires |NumbersOf(d, YieldPercent)| >= 2 ==>
      IsSampleStd(yieldStd, NumbersOf(d, YieldPercent)) &&
      IsSampleStd(relationStd, NumbersOf(Flag(d, yieldStd, marginStd, relationStd, relationship).frame, YieldPercent))
    ensures var p := Flag(d, yieldStd, marginStd, relationStd, relationship);
      NumbersOf(p.frame, YieldPercent) == NumbersOf(d, YieldPercent) &&
      p.outcome.Analysed? &&
      (relationship != CapacityVsSop ==> p.outcome.relationshipBand == p.outcome.yieldBand) &&
      (relationship == CapacityVsSop ==> p.outcome.relationshipBand == None)
  {
    var ys := NumbersOf(d, YieldPercent);
    FlaggingKeepsColumns(d, yieldStd, marginStd, relationStd, relationship);
    if |ys| >= 2 {
      SampleStdIsUnique(ys, yieldStd, relationStd);
    }
  }

  /** An "Abnormal Days" table: the columns Date, the value and the flag of
      exactly the rows flagged "Abnormal", each once, in their original order. */
  lemma {:induction false} AbnormalDaysAreFlaggedRows(d: Table, valueColumn: string, flagColumn: string)
    requires Rectangular(d) && IsTextColumn(d, flagColumn) && IsTextColumn(d, DateColumn)
    requires IsNumberColumn(d, valueColumn)
    ensures var rows := Kept(AbnormalMask(TextsOf(d, flagColumn)));
      var a := AbnormalDays(d, valueColumn, flagColumn);
      a.columns.Keys == {DateColumn, valueColumn, flagColumn} &&
      a.height == |rows| &&
      IsTextColumn(a, DateColumn) && IsNumberColumn(a, valueColumn) && IsTextColumn(a, flagColumn) &&
      (forall j :: 0 <= j < |rows| ==>
        (rows[j] < d.height &&
         TextsOf(a, DateColumn)[j] == TextsOf(d, DateColumn)[rows[j]] &&
         NumbersOf(a, valueColumn)[j] == NumbersOf(d, valueColumn)[rows[j]] &&
         TextsOf(a, flagColumn)[j] == AbnormalLabel)) &&
      (forall j1, j2 :: 0 <= j1 < j2 < |rows| ==> rows[j1] < rows[j2]) &&
      (forall i :: 0 <= i < d.height ==> (i in rows <==> TextsOf(d, flagColumn)[i] == AbnormalLabel))
  {
    var flags := TextsOf(d, flagColumn);
    var mask := AbnormalMask(flags);
    var w := Where(d, mask);
    assert w.columns[DateColumn] == Texts(Select(TextsOf(d, DateColumn), mask));
    assert w.columns[valueColumn] == Numbers(Select(NumbersOf(d, valueColumn), mask));
    assert w.columns[flagColumn] == Texts(Select(flags, mask));
    SelectIsOrderedFilter(TextsOf(d, DateColumn), mask);
    SelectIsOrderedFilter(NumbersOf(d, valueColumn), mask);
    SelectIsOrderedFilter(flags, mask);
    var rows := Kept(mask);
    forall j | 0 <= j < |rows|
      ensures Select(flags, mask)[j] == AbnormalLabel
    {
      assert rows[j] in rows;
      assert mask[rows[j]];
    }
  }

  /** The number of days flagged "Abnormal" under a band of half-width `s`
      is the number of values whose squared deviation exceeds `s * s`. */
  lemma {:induction false} AbnormalCountIsCountBeyond(xs: seq<real>, m: real, s: real)
    requires s >= 0.0
    ensures Count(AbnormalMask(Labels(xs, Some(Band(m - s, m + s))))) == CountBeyond(xs, m, s * s)
  {
    var b := Some(Band(m - s, m + s));
    if |xs| > 0 {
      var n := |xs| - 1;
      var mask := AbnormalMask(Labels(xs, b));
      assert mask[..n] == AbnormalMask(Labels(xs[..n], b));
      AbnormalCountIsCountBeyond(xs[..n], m, s);
      OutsideIffSquareExceeds(xs[n], m, s);
    }
  }

  /** Under the band of the true standard deviation at most n - 2 of n
      days are flagged "Abnormal". */
  lemma AbnormalFlagsLeaveTwoNormal(xs: seq<real>, s: real)
    requires IsSampleStd(s, xs)
    ensures Count(AbnormalMask(Labels(xs, BandOf(xs, s)))) <= |xs| - 2
  {
    AbnormalCountIsCountBeyond(xs, Mean(xs), s);
    AtMostAllButTwoBeyond(xs, s);
  }

  /** Each "Abnormal Days" table has one row per day flagged "Abnormal". */
  lemma AbnormalDaysCountFlags(d: Table, yieldStd: real, marginStd: real, relationStd: real, relationship: string)
    requires Rectangular(d) && IsNumberColumn(d, YieldPercent) && IsNumberColumn(d, GrossMargin)
    requires IsTextColumn(d, DateColumn)
    ensures var o := Flag(d, yieldStd, marginStd, relationStd, relationship).outcome;
      var ys := NumbersOf(d, YieldPercent);
      var gs := NumbersOf(d, GrossMargin);
      o.Analysed? &&
      o.abnormalYieldDays.height == Count(AbnormalMask(Labels(ys, BandOf(ys, yieldStd)))) &&
      o.abnormalMarginDays.height == Count(AbnormalMask(Labels(gs, BandOf(gs, marginStd))))
  {
    FlaggingKeepsColumns(d, yieldStd, marginStd, relationStd, relationship);
  }

  /** With the true standard deviations, each "Abnormal Days" table leaves
      out at least two days of the sheet. */
  lemma AbnormalDaysLeaveTwoNormal(d: Table, yieldStd: real, marginStd: real, relationStd: real, relationship: string)
    requires Rectangular(d) && IsNumberColumn(d, YieldPercent) && IsNumberColumn(d, GrossMargin)
    requires IsTextColumn(d, DateColumn)
    requires IsSampleStd(yieldStd, NumbersOf(d, YieldPercent))
    requires IsSampleStd(marginStd, NumbersOf(d, GrossMargin))
    ensures var o := Flag(d, yieldStd, marginStd, relationStd, relationship).outcome;
      o.Analysed? && o.abnormalYieldDays.height <= d.height - 2 && o.abnormalMarginDays.height <= d.height - 2
  {
    AbnormalDaysCountFlags(d, yieldStd, marginStd, relationStd, relationship);
    AbnormalFlagsLeaveTwoNormal(NumbersOf(d, YieldPercent), yieldStd);
    AbnormalFlagsLeaveTwoNormal(NumbersOf(d, GrossMargin), marginStd);
  }

  /** The whole run keeps the number of rows and adds the five metric and
      the two flag columns to those of the sheet. */
  lemma DataPageAddsColumns(t: Table, yieldStd: real, marginStd: real, relationStd: real, relationship: string)
    requires Analysable(t)
    ensures var f := RenderPage(DataSheet, t, yieldStd, marginStd, relationStd, relationship).frame;
      f.height == t.height &&
      f.columns.Keys == t.columns.Keys +
        {TotalCost, TotalSales, YieldPercent, CostPerKg, GrossMargin, AbnormalYield, AbnormalGrossMargin}
  {
    DataPageFlagsDerivedFrame(t, yieldStd, marginStd, relationStd, relationship);
    var d := Derive(t).frame;
    DeriveKeepsOtherColumns(t);
    FlaggingKeepsColumns(d, yieldStd, marginStd, relationStd, relationship);
  }

  /** The whole run leaves every input column other than Date as it was. */
  lemma DataPageKeepsInputColumns(t: Table, yieldStd: real, marginStd: real, relationStd: real, relationship: string, k: string)
    requires Analysable(t) && k in t.columns
    requires k !in {TotalCost, TotalSales, YieldPercent, CostPerKg, GrossMargin, DateColumn, AbnormalYield, AbnormalGrossMargin}
    ensures var f := RenderPage(DataSheet, t, yieldStd, marginStd, relationStd, relationship).frame;
      k in f.columns && f.columns[k] == t.columns[k]
  {
    DataPageFlagsDerivedFrame(t, yieldStd, marginStd, relationStd, relationship);
    var d := Derive(t).frame;
    DeriveKeepsOtherColumns(t);
    assert k in d.columns && d.columns[k] == t.columns[k];
    FlaggingKeepsColumns(d, yieldStd, marginStd, relationStd, relationship);
  }

  /** Two days with yields 20 and 22: mean 21, variance 2, and both days lie
      inside the band, so both are "Normal". */
  lemma TwoDayYieldsAreNormal(s: real)
    requires IsSampleStd(s, [20.0, 22.0])
    ensures Mean([20.0, 22.0]) == 21.0 && SampleVariance([20.0, 22.0]) == 2.0
    ensures Labels([20.0, 22.0], BandOf([20.0, 22.0], s)) == [NormalLabel, NormalLabel]
  {
    var xs := [20.0, 22.0];
    assert xs[..1] == [20.0] && xs[..1][..0] == [];
    assert Sum(xs[..1]) == 20.0;
    assert Mean(xs) == 21.0;
    assert SquaredDeviations(xs[..1], 21.0) == 1.0;
    assert SquaredDeviations(xs, 21.0) == 2.0;
    assert s * s == 2.0;
    if s < 1.0 {
      ProductNonNegative(s, 1.0 - s);
      ProductNonNegative(1.0 - s, 1.0);
      assert false;
    }
  }
}
