# Paneer production dashboard: derived metrics and abnormal days

The dashboard script `main.py` reads one sheet of an uploaded workbook into a
pandas frame. When the selected sheet is named exactly `"Data"` it:

- adds five metric columns per production day (total cost, total sales,
  yield percent, cost per kg, gross margin);
- appends the year to the Date column;
- computes the band `[mean - std, mean + std]` of the yield and of the
  margin;
- flags every day `"Normal"` or `"Abnormal"` against those bands;
- shows the two tables of abnormal days;
- redraws the yield band in the relationship plot the user picks, unless
  that plot is "Capacity_Utilization vs SOP", which draws no band.

This project models that path and proves what it computes.

Modules:

- `Wrappers` (`wrappers.dfy`): the `Option` type.
- `Frame` (`frame.dfy`): the frame as a table of named columns.
  - Each column holds reals or text, and all columns have the same height.
  - Operations: column lookup (a missing column is a `KeyError`), assignment
    (`Put`), boolean-mask filtering (`Where`, `Select`) and column selection
    (`Project`).
  - The class `DataFrame` is the frame object the script changes in place.
    Its `Assign` method is `df[name] = column`.
- `Statistics` (`statistics.dfy`): the series statistics.
  - Mean, sum of squared deviations, and the sample variance that pandas'
    `.std()` squares (divisor n - 1).
  - The band, the flag label per value, and the facts about them.
- `Metrics` (`metrics.dfy`): the derivation statements.
  - They appear one function per assignment, in source order, chained by
    `Derive`.
  - Each reads its columns in Python's evaluation order, so a missing column
    or a text column stops the run with the same error the script raises.
  - `DailyInputs` and the `...Of` functions are the per-day reference
    formulas.
- `Dashboard` (`dashboard.dfy`): one run of the page as a function,
  `RenderPage`.
  - It covers the sheet gate, the derivation, the bands, the flags, the
    abnormal-day tables and the relationship band.
  - The lemmas about the page sit here too.
- `Script` (`script.dfy`): the same run written as the script writes it.
  - Successive column assignments on one `DataFrame`.
  - Each method is proved to leave the frame, and produce the page, that
    the `RenderPage` and `Derive` functions describe.

Modelling notes:

- Floats are `real`s. Each `.std()` call is passed in as a parameter and
  characterised by `IsSampleStd`: non-negative, and its square is the
  sample variance. The relationship plot calls `.std()` on `Yield_Percent`
  again, so it has its own parameter (`relationStd`).
- With fewer than two rows, pandas' `.std()` is NaN, and every comparison
  with a NaN bound is false, so the script labels every day `"Normal"`. The
  model follows this: `BandOf` is `None` for fewer than two values, and
  `Label` gives `"Normal"` under no band. The input is not excluded by a
  precondition.
- `.std()` in `main.py` is pandas' default, the sample standard deviation
  (divisor n - 1). The model uses that divisor.
- `main.py` writes a single label `"Abnormal"` for a value on either side
  of the band. It does not tell a low day from a high one, and neither does
  the model.
- A constant series is all `"Normal"`: every value equals the mean, which
  lies in the collapsed band. `ConstantSeriesIsAllNormal` proves this.

## Model

| member | source | states |
|---|---|---|
| `Frame.Lookup` | main.py:22-30 | `df[name]` succeeds iff the frame has that column and then yields exactly that column. Otherwise it fails with a `KeyError` naming the column. |
| `Frame.Put` | main.py:22 | Assigning a column keeps the frame rectangular and its height. Its names are the old names plus the assigned one. The assigned name holds the new column, and every other column is unchanged. |
| `Frame.DataFrame.Assign` | main.py:22-30 | `df[name] = column` on the frame object: the new frame value is the old one with that column put in, and it stays rectangular. |
| `Frame.Select` | main.py:64-65 | Boolean indexing returns exactly as many entries as the mask has `True` entries. |
| `Frame.KeptIsIncreasing` | main.py:64-65 | The kept row positions are rows of the frame and strictly increasing, so the original order is kept. |
| `Frame.KeptIsExact` | main.py:64-65 | A row is kept exactly when its mask entry is `True`. |
| `Frame.SelectAtKept` | main.py:64-65 | Entry j of a filtered column is the entry of the j-th kept row. |
| `Frame.SelectIsOrderedFilter` | main.py:64-65 | The filter keeps exactly the rows whose mask is `True`, each once, in original relative order. |
| `Frame.Where` | main.py:64-65 | `df[mask]` keeps every column, filters each one by the same mask, and gives the frame the height of the number of kept rows. |
| `Frame.Project` | main.py:64-65 | `df[[...]]` has exactly the listed columns, each with the same contents as in the frame, and the frame's height. |
| `Statistics.Mean` | main.py:36 | `.mean()` of a non-empty series (here and at line 48) lies between its smallest and its largest value. |
| `Statistics.SquaredDeviations` | main.py:37 | The sum of squared deviations is never negative. |
| `Statistics.SampleVariance` | main.py:37 | The sample variance (divisor n - 1) is never negative, so a real standard deviation exists. |
| `Statistics.BandOf` | main.py:36-38 | The band exists exactly when there are at least two values (otherwise NaN). It is symmetric about the mean, and contains the mean when the std is non-negative. |
| `Statistics.Labels` | main.py:60-61 | `apply` gives one label per value. |
| `Statistics.Label` | main.py:60-61 | Every value gets exactly one of "Normal" and "Abnormal". "Abnormal" holds iff there is a band and the value is strictly below its lower or strictly above its upper bound. |
| `Statistics.BoundsAndMeanAreNormal` | main.py:60-61 | A value equal to either bound, or to the mean, is "Normal". |
| `Statistics.OutsideIffSquareExceeds` | main.py:60-61 | For std s >= 0, being outside `[m - s, m + s]` is equivalent to a squared deviation above s * s. |
| `Statistics.AbnormalIffBeyondVariance` | main.py:36-38 | With the true std, a day is "Abnormal" iff its squared deviation from the mean exceeds the sample variance. |
| `Statistics.SampleStdIsUnique` | main.py:37 | Two non-negative roots of the same sample variance are equal, so the band does not depend on which is passed in. |
| `Statistics.SquaredDeviationsExceedCount` | main.py:60-61 | The sum of squared deviations is at least (strictly, when any) the number of values beyond v times v. |
| `Statistics.AtMostAllButTwoBeyond` | main.py:36-38 | At most n - 2 of n values lie strictly outside one sample std of the mean. |
| `Statistics.VarianceTimesDegrees` | main.py:37 | The sum of squared deviations equals the sample variance times n - 1. |
| `Statistics.ConstantSeriesIsAllNormal` | main.py:36-38 | A constant series has std 0, its band collapses to the value, and every day is "Normal". |
| `Metrics.YieldPercentOf` | main.py:25 | For non-zero milk input, yield percent times milk litres equals 100 times paneer kg. |
| `Metrics.CostPerKgOf` | main.py:26 | For non-zero output, cost per kg times paneer kg equals the day's total cost. |
| `Metrics.TotalCostColumn` | main.py:22-23 | Succeeds iff the five input columns exist and are numeric. Row i is milk litres times milk price plus ingredient, labour and utility cost of row i. |
| `Metrics.TotalSalesColumn` | main.py:24 | Succeeds iff paneer output and selling price are numeric columns. Row i is their product at row i. |
| `Metrics.YieldPercentColumn` | main.py:25 | Succeeds iff paneer output and milk input are numeric columns. Row i is output over input, times 100. |
| `Metrics.CostPerKgColumn` | main.py:26 | Succeeds iff total cost and paneer output are numeric columns. Row i is cost over output. |
| `Metrics.GrossMarginColumn` | main.py:27 | Succeeds iff total sales and total cost are numeric columns. Row i is sales minus cost. |
| `Metrics.WithYear` | main.py:30 | The formatted Date cell is the original text followed by exactly "-2024". |
| `Metrics.DatesWithYear` | main.py:30 | Succeeds iff Date is a text column. Each cell gets "-2024" appended. |
| `Metrics.Derive` | main.py:22-30 | The derivation, stopped or not, keeps the frame rectangular and its number of rows. |
| `Metrics.DeriveSucceedsIffColumnsPresent` | main.py:22-30 | The derivation runs to the end iff the seven numeric input columns and a text Date column are present. |
| `Metrics.DeriveFollowsDailyFormulas` | main.py:22-30 | After a successful run each derived cell of row i is the reference formula applied to day i's inputs alone, and the Date cell has the year appended. |
| `Metrics.DerivedColumnsPresent` | main.py:25-30 | A successful run leaves numeric yield and margin columns and a text Date column. |
| `Metrics.DeriveKeepsOtherColumns` | main.py:22-30 | A successful run keeps the height, adds exactly the five metric columns, and leaves every other input column except Date unchanged. |
| `Metrics.MarginIsSalesMinusCost` | main.py:24-27 | In the derived frame, gross margin equals total sales minus total cost on every row. |
| `Dashboard.AbnormalMask` | main.py:64-65 | The comparison mask has one entry per day. |
| `Dashboard.AbnormalDays` | main.py:64-65 | An abnormal-days table has exactly the columns Date, value and flag. It has one row per entry of the comparison mask that is `True`. |
| `Dashboard.RelationshipBand` | main.py:78-121 | The plot draws a band iff the choice is not "Capacity_Utilization vs SOP" and there are at least two days. The band is symmetric about the yield mean, and contains it for a non-negative std. |
| `Dashboard.Flag` | main.py:36-61 | The bands and the two flag assignments keep the frame rectangular and its height. They add exactly the two text flag columns and always give an analysed outcome. `FlaggingKeepsColumns` and `FlagsClassifyEveryDay` state what the flag columns hold. |
| `Dashboard.RenderPage` | main.py:20 | A sheet other than exactly "Data" shows the preview with the frame unchanged, whatever its cells. The "Data" sheet always gets a derivation outcome. The frame stays rectangular with the same rows. |
| `Dashboard.FlagsClassifyEveryDay` | main.py:60-61 | On the "Data" page every day has exactly one of the two labels in each flag column. "Abnormal" holds iff the day's value is strictly outside the band of the derived column. |
| `Dashboard.FlaggingKeepsColumns` | main.py:60-61 | Flagging adds exactly the two flag columns, keeps every other column and the height, and the flag columns are the labels of the derived values. |
| `Dashboard.RelationshipBandIsFlagBand` | main.py:78-121 | Flagging leaves `Yield_Percent` unchanged. So the plot's fresh `.std()` of it, when it is the true one, equals the std the flags used. Every relationship plot except "Capacity_Utilization vs SOP" therefore redraws the yield band of the flags. That one draws none. |
| `Dashboard.AbnormalDaysAreFlaggedRows` | main.py:64-65 | An abnormal-days table has exactly the columns Date, value and flag. Its rows are exactly the rows flagged "Abnormal", in original order, with their cells. |
| `Dashboard.AbnormalCountIsCountBeyond` | main.py:60-65 | The number of "Abnormal" days equals the number of values whose squared deviation exceeds s * s. |
| `Dashboard.AbnormalFlagsLeaveTwoNormal` | main.py:60-61 | With the true std, at most n - 2 days are flagged "Abnormal". |
| `Dashboard.AbnormalDaysCountFlags` | main.py:64-65 | Each abnormal-days table has one row per day flagged "Abnormal". |
| `Dashboard.AbnormalDaysLeaveTwoNormal` | main.py:64-65 | With the true stds, each abnormal-days table has at most n - 2 rows. |
| `Dashboard.DataPageAddsColumns` | main.py:22-61 | The whole run keeps the row count and adds exactly the five metric and two flag columns. |
| `Dashboard.DataPageKeepsInputColumns` | main.py:22-61 | The whole run leaves every input column other than Date unchanged. |
| `Dashboard.TwoDayYieldsAreNormal` | main.py:36-61 | Yields 20 and 22 have mean 21 and sample variance 2, and both days are "Normal". |
| `Script.DeriveInPlace` | main.py:22-30 | The column assignments on the frame object leave exactly the frame, and report exactly the error, that `Derive` gives. |
| `Script.RunPage` | main.py:20-121 | The script run leaves the frame object, and shows the outcome, exactly as `RenderPage` describes. |

## Left out

- Streamlit output is not modelled: page setup, uploader, select boxes,
  table display, headings and messages. The selected sheet name and the
  selected relationship are parameters.
- Excel loading (`pd.ExcelFile`, `pd.read_excel`) is not modelled. The frame
  read from the sheet is the input.
- Plotting (matplotlib, seaborn) is not modelled. Only the band values it
  draws are.
- Failures of the plotting calls are not modelled. Seaborn raises when
  `Fat_Percent`, `SNF_Percent`, `SOP_Adherence_Score` or
  `Capacity_Utilization_Percent` is missing (main.py:83, 92, 101, 106, 119).
  The model's outcome still carries the relationship band in that case.
- The correlation heatmap is not modelled. It is library float numerics
  over all numeric columns.
- Date parsing with `pd.to_datetime(..., format='%d-%m-%Y')` is not
  modelled. Only the appending of "-2024" to each cell is. A numeric Date
  column is treated as unparsable, and a malformed text date is not
  detected.
- Floating point is abstracted as exact reals. Rounding is not modelled.
- Zero divisors on the "Data" sheet are excluded by the `DivisorsNonZero`
  precondition instead of producing infinities or NaN. The divisors are milk
  input and paneer output. `RenderPage` and `RunPage` demand it of the
  "Data" sheet only, since no other sheet is divided. `DeriveInPlace` runs
  only on that sheet.
- NaN cells in the sheet are not modelled.
- Column order in the frame is not modelled. Columns are a map by name.
- Row index labels are not modelled. `df[mask]` keeps the original index
  labels, and `st.dataframe` shows them in the abnormal-days tables
  (main.py:64-65). `Table` has no index. The positions `Kept(mask)` in
  `AbnormalDaysAreFlaggedRows` stand for those labels.
- Numeric cells are either all numbers or the column is text. Mixed-type
  columns and pandas' string repetition for `int * str` are not modelled.
  Any arithmetic on a text column is a type error.
- The square root is not computed. Each `.std()` call is a parameter
  (`yieldStd`, `marginStd`, `relationStd`), and `IsSampleStd` says when it
  is the true value.
- `main.py` computes no KPI table and no utility-cost-per-litre column,
  so the model has neither.
