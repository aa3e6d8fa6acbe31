/** A data frame in the style of pandas: named columns that all have the same
    number of rows. Only what the dashboard script uses is modelled: reading a
    column, assigning a column, filtering rows by a boolean mask and
    selecting a list of columns. */
module Frame {

  /** The ways a column access or column arithmetic can fail. */
  datatype SchemaError =
    | MissingColumn(name: string)   // `df[name]` on a frame without that column (KeyError)
    | NonNumeric(name: string)      // arithmetic with a column that holds text (TypeError)
    | UnparsableDate                // the Date column cannot be read as day-month-year text

  /** Failure-compatible result of a frame operation. */
  datatype Result<T> = Ok(value: T) | Err(error: SchemaError) {
    predicate IsFailure() { Err? }
    function PropagateFailure<U>(): Result<U> requires Err? { Err(error) }
    function Extract(): T requires Ok? { value }
  }

  /** A column is either numeric (floats, abstracted as reals) or text. */
  datatype Column = Numbers(nums: seq<real>) | Texts(texts: seq<string>)

  function Length(c: Column): nat {
    match c
    case Numbers(v) => |v|
    case Texts(v) => |v|
  }

  /** A frame: its number of rows and its columns by name. The order of the
      columns is not modelled. */
  datatype Table = Table(height: nat, columns: map<string, Column>)

  /** Every column has one cell per row. */
  predicate Rectangular(t: Table) {
    forall k :: k in t.columns ==> Length(t.columns[k]) == t.height
  }

  predicate IsNumberColumn(t: Table, name: string) {
    name in t.columns && t.columns[name].Numbers?
  }

  predicate IsTextColumn(t: Table, name: string) {
    name in t.columns && t.columns[name].Texts?
  }

  function NumbersOf(t: Table, name: string): seq<real>
    requires IsNumberColumn(t, name)
  {
    t.columns[name].nums
  }

  function TextsOf(t: Table, name: string): seq<string>
    requires IsTextColumn(t, name)
  {
    t.columns[name].texts
  }

  /** `df[name]`: the column, or a KeyError. */
  function Lookup(t: Table, name: string): (r: Result<Column>)
    ensures r.Ok? <==> name in t.columns
    ensures r.Ok? ==> r.value == t.columns[name]
    ensures r.Err? ==> r.error == MissingColumn(name)
  {
    if name in t.columns then Ok(t.columns[name]) else Err(MissingColumn(name))
  }

  /** The values of a column used as an arithmetic operand; a text column
      makes the arithmetic fail. */
  function Numeric(c: Column, name: string): Result<seq<real>> {
    match c
    case Numbers(v) => Ok(v)
    case Texts(_) => Err(NonNumeric(name))
  }

  /** `df[name] = c`: adds the column, or replaces a column of that name. */
  function Put(t: Table, name: string, c: Column): (r: Table)
    requires Rectangular(t) && Length(c) == t.height
    ensures Rectangular(r) && r.height == t.height
    ensures r.columns.Keys == t.columns.Keys + {name}
    ensures r.columns[name] == c
    ensures forall k {:trigger r.columns[k]} :: k in t.columns && k != name ==> r.columns[k] == t.columns[k]
  {
    Table(t.height, t.columns[name := c])
  }

  /** Number of `true` entries in a mask. */
  function Count(mask: seq<bool>): (n: nat)
    ensures n <= |mask|
  {
    if |mask| == 0 then 0
    else Count(mask[..|mask| - 1]) + (if mask[|mask| - 1] then 1 else 0)
  }

  /** Boolean indexing `s[mask]`: the entries whose mask entry is true. */
  function Select<T>(xs: seq<T>, mask: seq<bool>): (r: seq<T>)
    requires |xs| == |mask|
    ensures |r| == Count(mask)
  {
    if |xs| == 0 then []
    else
      var n := |xs| - 1;
      Select(xs[..n], mask[..n]) + (if mask[n] then [xs[n]] else [])
  }

  /** Reference description of a boolean filter: the row positions it keeps,
      in increasing order. */
  function Kept(mask: seq<bool>): seq<nat> {
    if |mask| == 0 then []
    else
      var n := |mask| - 1;
      Kept(mask[..n]) + (if mask[n] then [n] else [])
  }

  /** The kept positions are increasing row numbers of the frame. */
  lemma {:induction false} KeptIsIncreasing(mask: seq<bool>)
    ensures forall j :: 0 <= j < |Kept(mask)| ==> Kept(mask)[j] < |mask|
    ensures forall j1, j2 :: 0 <= j1 < j2 < |Kept(mask)| ==> Kept(mask)[j1] < Kept(mask)[j2]
  {
    if |mask| > 0 {
      KeptIsIncreasing(mask[..|mask| - 1]);
    }
  }

  /** A row position is kept exactly when its mask entry is true. */
  lemma {:induction false} KeptIsExact(mask: seq<bool>)
    ensures forall i :: 0 <= i < |mask| ==> (mask[i] <==> i in Kept(mask))
  {
    if |mask| > 0 {
      var n := |mask| - 1;
      KeptIsExact(mask[..n]);
      KeptIsIncreasing(mask[..n]);
      assert forall i :: 0 <= i < n ==> mask[..n][i] == mask[i];
      assert n !in Kept(mask[..n]);
    }
  }

  /** Entry j of the filtered column is the entry of the j-th kept row. */
  lemma {:induction false} SelectAtKept<T>(xs: seq<T>, mask: seq<bool>)
    requires |xs| == |mask|
    ensures |Kept(mask)| == |Select(xs, mask)|
    ensures forall j :: 0 <= j < |Kept(mask)| ==> Kept(mask)[j] < |xs| && Select(xs, mask)[j] == xs[Kept(mask)[j]]
  {
    KeptIsIncreasing(mask);
    if |xs| > 0 {
      var n := |xs| - 1;
      SelectAtKept(xs[..n], mask[..n]);
    }
  }

  /** The filter keeps exactly the rows whose mask entry is true, each once
      and in their original relative order. */
  lemma SelectIsOrderedFilter<T>(xs: seq<T>, mask: seq<bool>)
    requires |xs| == |mask|
    ensures |Kept(mask)| == |Select(xs, mask)|
    ensures forall j :: 0 <= j < |Kept(mask)| ==> Kept(mask)[j] < |xs| && Select(xs, mask)[j] == xs[Kept(mask)[j]]
    ensures forall j1, j2 :: 0 <= j1 < j2 < |Kept(mask)| ==> Kept(mask)[j1] < Kept(mask)[j2]
    ensures forall i :: 0 <= i < |mask| ==> (mask[i] <==> i in Kept(mask))
  {
    KeptIsIncreasing(mask);
    KeptIsExact(mask);
    SelectAtKept(xs, mask);
  }

  function SelectColumn(c: Column, mask: seq<bool>): (r: Column)
    requires Length(c) == |mask|
    ensures Length(r) == Count(mask)
  {
    match c
    case Numbers(v) => Numbers(Select(v, mask))
    case Texts(v) => Texts(Select(v, mask))
  }

  /** `df[mask]`: the rows whose mask entry is true, in every column. */
  function Where(t: Table, mask: seq<bool>): (r: Table)
    requires Rectangular(t) && |mask| == t.height
    ensures Rectangular(r) && r.height == Count(mask)
    ensures r.columns.Keys == t.columns.Keys
    ensures forall k :: k in t.columns ==> r.columns[k] == SelectColumn(t.columns[k], mask)
  {
    Table(Count(mask), map k | k in t.columns :: SelectColumn(t.columns[k], mask))
  }

  /** `df[[n1, n2, ...]]`: the listed columns only. */
  function Project(t: Table, names: seq<string>): (r: Table)
    requires Rectangular(t)
    requires forall k :: k in names ==> k in t.columns
    ensures Rectangular(r) && r.height == t.height
    ensures r.columns.Keys == set k | k in names
    ensures forall k :: k in names ==> r.columns[k] == t.columns[k]
  {
    Table(t.height, map k | k in names :: t.columns[k])
  }

  /** The frame object that the script changes in place by column
      assignment. */
  class DataFrame {
    const height: nat
    var columns: map<string, Column>

    function Value(): Table
      reads this
    {
      Table(height, columns)
    }

    ghost predicate Valid()
      reads this
    {
      Rectangular(Value())
    }

    constructor (t: Table)
      requires Rectangular(t)
      ensures Valid() && Value() == t
    {
      height := t.height;
      columns := t.columns;
    }

    /** `df[name] = c`. */
    method Assign(name: string, c: Column)
      requires Valid() && Length(c) == height
      modifies this
      ensures Valid() && Value() == Put(old(Value()), name, c)
    {
      columns := columns[name := c];
    }
  }
}
