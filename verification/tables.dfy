/** The record batch: a pandas frame reduced to named columns over rows of
    cells, the pure operations the core applies to it, and the mutable
    `Frame` the vectorizer methods update in place. */
module Tables {
  import opened Results

  /** An embedding; its float arithmetic is not modelled. */
  type Vector = seq<real>

  /** One cell: text, a vector, or a missing value (NaN or None). */
  datatype Cell = Str(s: string) | Vec(v: Vector) | Missing

  /** The exceptions the modelled code can raise. */
  datatype Error =
    | UnknownVectorizer            // KeyError('Unknown vectorizer!') in vectorize
    | MissingColumn(name: string)  // KeyError on data[name]
    | NotText                      // len(), lower() or a tokenizer applied to a non-string cell
    | EmptyReduction               // ValueError: max over zero token vectors
    | LengthMismatch               // ValueError: a new column whose length differs from the row count
    | UnknownCode(code: Cell)      // KeyError in meddra_labels[x]

  type Row = map<string, Cell>

  datatype Table = Table(names: seq<string>, rows: seq<Row>)

  function Columns(names: seq<string>): set<string>
  {
    set n | n in names
  }

  predicate Distinct<T(==)>(s: seq<T>)
  {
    forall i, j :: 0 <= i < j < |s| ==> s[i] != s[j]
  }

  /** Column names are distinct and every row has a cell in exactly those columns. */
  predicate WellFormed(t: Table)
  {
    Distinct(t.names) && forall i :: 0 <= i < |t.rows| ==> t.rows[i].Keys == Columns(t.names)
  }

  /** `data[name]`: the column's cells in row order, or a KeyError. */
  function ColumnOf(t: Table, name: string): (r: Result<seq<Cell>, Error>)
    requires WellFormed(t)
    ensures r.Err? <==> name !in t.names
    ensures r.Err? ==> r.error == MissingColumn(name)
    ensures r.Ok? ==> |r.value| == |t.rows|
    ensures r.Ok? ==> forall i :: 0 <= i < |t.rows| ==> r.value[i] == t.rows[i][name]
  {
    if name in t.names then Ok(seq(|t.rows|, i requires 0 <= i < |t.rows| => t.rows[i][name]))
    else Err(MissingColumn(name))
  }

  /** `data[name] = vals`: replaces the column if it exists, appends it otherwise. */
  function WithColumn(t: Table, name: string, vals: seq<Cell>): (r: Table)
    requires WellFormed(t) && |vals| == |t.rows|
    ensures WellFormed(r)
    ensures |r.rows| == |t.rows|
    ensures t.names <= r.names && Columns(r.names) == Columns(t.names) + {name}
    ensures forall i :: 0 <= i < |r.rows| ==> r.rows[i][name] == vals[i]
    ensures forall i, c :: 0 <= i < |r.rows| && c in t.rows[i] && c != name ==> r.rows[i][c] == t.rows[i][c]
  {
    var names := if name in t.names then t.names else t.names + [name];
    assert Columns(names) == Columns(t.names) + {name};
    Table(names, seq(|t.rows|, i requires 0 <= i < |t.rows| => t.rows[i][name := vals[i]]))
  }

  /** A row `dropna()` keeps: no cell is missing. */
  predicate Complete(row: Row)
  {
    Missing !in row.Values
  }

  /** The rows `dropna()` keeps, in their original order. */
  function CompleteRows(rows: seq<Row>): (r: seq<Row>)
    ensures |r| <= |rows|
    ensures forall row :: row in r <==> row in rows && Complete(row)
    ensures (forall i :: 0 <= i < |rows| ==> Complete(rows[i])) ==> r == rows
  {
    if rows == [] then []
    else (if Complete(rows[0]) then [rows[0]] else []) + CompleteRows(rows[1..])
  }

  /** `CompleteRows` filters row by row: it distributes over concatenation,
      so the relative order of the kept rows is the original one. */
  lemma {:induction false} CompleteRowsAppend(a: seq<Row>, b: seq<Row>)
    ensures CompleteRows(a + b) == CompleteRows(a) + CompleteRows(b)
  {
    if a != [] {
      assert (a + b)[1..] == a[1..] + b;
      CompleteRowsAppend(a[1..], b);
    } else {
      assert a + b == b;
    }
  }

  /** Dropping incomplete rows twice drops nothing more. */
  lemma {:induction false} CompleteRowsIdem(rows: seq<Row>)
    ensures CompleteRows(CompleteRows(rows)) == CompleteRows(rows)
  {
    if rows != [] {
      var head := if Complete(rows[0]) then [rows[0]] else [];
      CompleteRowsIdem(rows[1..]);
      CompleteRowsAppend(head, CompleteRows(rows[1..]));
      if Complete(rows[0]) {
        assert CompleteRows(head) == head by {
          assert head[1..] == [];
        }
      }
    }
  }

  /** `data.dropna()`. */
  function DropMissing(t: Table): (r: Table)
    requires WellFormed(t)
    ensures WellFormed(r) && r.names == t.names
    ensures forall i :: 0 <= i < |r.rows| ==> Complete(r.rows[i])
    ensures forall row :: row in r.rows <==> row in t.rows && Complete(row)
  {
    var r := Table(t.names, CompleteRows(t.rows));
    assert forall i :: 0 <= i < |r.rows| ==> r.rows[i] in t.rows;
    r
  }

  /** `data.iloc[:n]`. */
  function Prefix(t: Table, n: nat): (r: Table)
    requires WellFormed(t)
    ensures WellFormed(r) && r.names == t.names
    ensures |r.rows| == if |t.rows| <= n then |t.rows| else n
    ensures r.rows == t.rows[..|r.rows|]
  {
    Table(t.names, if |t.rows| <= n then t.rows else t.rows[..n])
  }

  /** `Series.apply(f)` / `DataFrame.apply(f, axis=1)`: `f` on every row in
      order; the first exception aborts the whole apply. */
  function ApplyRows<T>(xs: seq<T>, f: T -> Result<Cell, Error>): (r: Result<seq<Cell>, Error>)
    ensures r.Ok? <==> forall i :: 0 <= i < |xs| ==> f(xs[i]).Ok?
    ensures r.Ok? ==> |r.value| == |xs|
    ensures r.Ok? ==> forall i :: 0 <= i < |xs| ==> f(xs[i]) == Ok(r.value[i])
  {
    if xs == [] then Ok([])
    else
      match f(xs[0])
      case Err(e) => Err(e)
      case Ok(c) =>
        match ApplyRows(xs[1..], f)
        case Err(e) => Err(e)
        case Ok(cs) => Ok([c] + cs)
  }

  /** The exception an apply raises is the one of its first failing row. */
  lemma {:induction false} ApplyRowsFirstError<T>(xs: seq<T>, f: T -> Result<Cell, Error>, k: nat)
    requires k < |xs| && f(xs[k]).Err?
    requires forall j :: 0 <= j < k ==> f(xs[j]).Ok?
    ensures ApplyRows(xs, f) == Err(f(xs[k]).error)
  {
    if k > 0 {
      assert f(xs[0]).Ok?;
      ApplyRowsFirstError(xs[1..], f, k - 1);
    }
  }

  /** An apply whose every row succeeds yields exactly the per-row results. */
  lemma {:induction false} ApplyRowsAllOk<T>(xs: seq<T>, f: T -> Result<Cell, Error>, cells: seq<Cell>)
    requires |cells| == |xs|
    requires forall i :: 0 <= i < |xs| ==> f(xs[i]) == Ok(cells[i])
    ensures ApplyRows(xs, f) == Ok(cells)
  {
    if xs != [] {
      ApplyRowsAllOk(xs[1..], f, cells[1..]);
      assert cells == [cells[0]] + cells[1..];
    }
  }

  /** A pandas DataFrame whose columns the vectorizer backends assign in place. */
  class Frame {
    var names: seq<string>
    var rows: seq<Row>

    function Value(): Table
      reads this
    {
      Table(names, rows)
    }

    ghost predicate Valid()
      reads this
    {
      WellFormed(Value())
    }

    constructor (t: Table)
      requires WellFormed(t)
      ensures Valid() && Value() == t
    {
      names := t.names;
      rows := t.rows;
    }

    /** `data[name]`. */
    method Get(name: string) returns (r: Result<seq<Cell>, Error>)
      requires Valid()
      ensures r == ColumnOf(Value(), name)
      ensures r.Ok? ==> |r.value| == |rows|
    {
      r := ColumnOf(Value(), name);
    }

    /** `data[name] = vals`. */
    method Assign(name: string, vals: seq<Cell>)
      requires Valid() && |vals| == |rows|
      modifies this
      ensures Valid()
      ensures Value() == WithColumn(old(Value()), name, vals)
    {
      var t := WithColumn(Value(), name, vals);
      names, rows := t.names, t.rows;
    }

    /** `data.dropna()`: a new frame; this one is unchanged. */
    method DropNa() returns (f: Frame)
      requires Valid()
      ensures fresh(f) && f.Valid()
      ensures f.Value() == DropMissing(Value())
    {
      f := new Frame(DropMissing(Value()));
    }

    /** `data.iloc[:n]`: a new frame holding the first `n` rows. */
    method Head(n: nat) returns (f: Frame)
      requires Valid()
      ensures fresh(f) && f.Valid()
      ensures f.Value() == Prefix(Value(), n)
    {
      f := new Frame(Prefix(Value(), n));
    }
  }
}
