/** A minimal model of the pandas data frames the job passes around: a frame
    is a list of column names plus one row of cells per date of its index, and
    `pd.concat(frames, axis=1)` is the column-wise outer join of such frames. */
module Frames {

  datatype Option<T> = None | Some(value: T)

  /** A calendar day, as a day number. */
  type Date = nat

  /** One cell. `Missing` is the NaN that the outer join puts where a frame
      has no row for a date of the joined index. */
  datatype Value = Num(x: real) | Text(s: string) | Day(d: Date) | Missing

  /** Column names plus a date-keyed index of rows; row k holds the cells of
      the columns in order. */
  datatype Frame = Frame(columns: seq<string>, rows: map<Date, seq<Value>>)
  {
    /** Every row has one cell per column. */
    predicate WellFormed() {
      forall d :: d in rows ==> |rows[d]| == |columns|
    }
  }

  predicate AllWellFormed(fs: seq<Frame>) {
    forall i :: 0 <= i < |fs| ==> fs[i].WellFormed()
  }

  /** The first position holding the label `name`; the frames looked up
      here have distinct labels. */
  function IndexOf(cols: seq<string>, name: string): (k: nat)
    requires name in cols
    ensures k < |cols| && cols[k] == name
    ensures forall j :: 0 <= j < k ==> cols[j] != name
  {
    if cols[0] == name then 0 else 1 + IndexOf(cols[1..], name)
  }

  /** The cell at row `d`, column `name` (`frame.loc[d, name]`), if any. */
  function Cell(f: Frame, d: Date, name: string): Option<Value>
  {
    if d in f.rows && name in f.columns && IndexOf(f.columns, name) < |f.rows[d]|
    then Some(f.rows[d][IndexOf(f.columns, name)])
    else None
  }

  /** The row of `f` at `d`, or a row of NaNs when `f` has no such date. */
  function RowAt(f: Frame, d: Date): seq<Value>
  {
    if d in f.rows then f.rows[d] else seq(|f.columns|, _ => Missing)
  }

  /** Outer join of two frames on their index. */
  function Join(a: Frame, b: Frame): Frame
  {
    Frame(a.columns + b.columns,
          map d | d in a.rows.Keys + b.rows.Keys :: RowAt(a, d) + RowAt(b, d))
  }

  function Flatten<T>(xss: seq<seq<T>>): seq<T>
  {
    if xss == [] then [] else xss[0] + Flatten(xss[1..])
  }

  lemma {:induction false} FlattenAppend<T>(a: seq<seq<T>>, b: seq<seq<T>>)
    ensures Flatten(a + b) == Flatten(a) + Flatten(b)
  {
    if a != [] {
      assert (a + b)[1..] == a[1..] + b;
      FlattenAppend(a[1..], b);
    } else {
      assert a + b == b;
    }
  }

  /** The column lists of the frames, in order. */
  function ColumnLists(fs: seq<Frame>): seq<seq<string>>
  {
    seq(|fs|, i requires 0 <= i < |fs| => fs[i].columns)
  }

  /** Every date that appears in the index of some frame. */
  ghost function Dates(fs: seq<Frame>): set<Date>
  {
    set i, d | 0 <= i < |fs| && d in fs[i].rows :: d
  }

  lemma DatesCons(fs: seq<Frame>)
    requires fs != []
    ensures Dates(fs) == fs[0].rows.Keys + Dates(fs[1..])
  {
    forall d | d in Dates(fs) ensures d in fs[0].rows.Keys + Dates(fs[1..]) {
      var i :| 0 <= i < |fs| && d in fs[i].rows;
      if i > 0 { assert fs[1..][i - 1] == fs[i]; }
    }
    forall d | d in Dates(fs[1..]) ensures d in Dates(fs) {
      var i :| 0 <= i < |fs[1..]| && d in fs[1..][i].rows;
      assert fs[i + 1] == fs[1..][i];
    }
  }

  lemma JoinWellFormed(a: Frame, b: Frame)
    requires a.WellFormed() && b.WellFormed()
    ensures Join(a, b).WellFormed()
  {
  }

  /** `pd.concat(fs, axis=1)` with the default outer join: the column lists
      are concatenated in order, the index is the union of the indexes, and a
      frame without a row for a date contributes NaNs to that row. */
  function Concat(fs: seq<Frame>): (r: Frame)
    ensures r.columns == Flatten(ColumnLists(fs))
    ensures r.rows.Keys == Dates(fs)
    ensures AllWellFormed(fs) ==> r.WellFormed()
  {
    if fs == [] then Frame([], map[])
    else
      var rest := Concat(fs[1..]);
      assert ColumnLists(fs)[1..] == ColumnLists(fs[1..]);
      DatesCons(fs);
      if AllWellFormed(fs) then
        assert AllWellFormed(fs[1..]) by {
          forall i | 0 <= i < |fs[1..]| ensures fs[1..][i].WellFormed() {
            assert fs[1..][i] == fs[i + 1];
          }
        }
        JoinWellFormed(fs[0], rest);
        Join(fs[0], rest)
      else
        Join(fs[0], rest)
  }

  lemma {:induction false} IndexOfAppend(a: seq<string>, b: seq<string>, name: string)
    requires name in a + b
    ensures name in a ==> IndexOf(a + b, name) == IndexOf(a, name)
    ensures name !in a ==> name in b && IndexOf(a + b, name) == |a| + IndexOf(b, name)
  {
    if a != [] {
      if a[0] != name {
        assert (a + b)[1..] == a[1..] + b;
        IndexOfAppend(a[1..], b, name);
      }
    } else {
      assert a + b == b;
    }
  }

  lemma JoinCell(a: Frame, b: Frame, name: string, d: Date)
    requires a.WellFormed() && b.WellFormed()
    requires name in a.columns + b.columns && d in a.rows.Keys + b.rows.Keys
    ensures name in a.columns ==>
      Cell(Join(a, b), d, name) == Some(RowAt(a, d)[IndexOf(a.columns, name)])
    ensures name !in a.columns ==>
      Cell(Join(a, b), d, name) == Some(RowAt(b, d)[IndexOf(b.columns, name)])
  {
    IndexOfAppend(a.columns, b.columns, name);
  }

  /** A column that only one frame of the join contributes keeps that
      frame's cells; dates that frame lacks read NaN. */
  lemma {:induction false} ConcatCell(fs: seq<Frame>, i: nat, name: string, d: Date)
    requires AllWellFormed(fs)
    requires i < |fs| && name in fs[i].columns
    requires forall j :: 0 <= j < |fs| && j != i ==> name !in fs[j].columns
    requires d in Dates(fs)
    ensures Cell(Concat(fs), d, name) == Some(RowAt(fs[i], d)[IndexOf(fs[i].columns, name)])
    decreases |fs|, 0
  {
    var rest := Concat(fs[1..]);
    assert AllWellFormed(fs[1..]) by {
      forall j | 0 <= j < |fs[1..]| ensures fs[1..][j].WellFormed() {
        assert fs[1..][j] == fs[j + 1];
      }
    }
    assert d in fs[0].rows.Keys + rest.rows.Keys by { DatesCons(fs); }
    assert Concat(fs) == Join(fs[0], rest);
    if i == 0 {
      JoinCell(fs[0], rest, name, d);
    } else {
      assert fs[1..][i - 1] == fs[i];
      assert name !in fs[0].columns;
      assert name in rest.columns by { ColumnInFlatten(fs[1..], i - 1, name); }
      assert Cell(Join(fs[0], rest), d, name) == Some(RowAt(rest, d)[IndexOf(rest.columns, name)]) by {
        JoinCell(fs[0], rest, name, d);
      }
      ConcatCellTail(fs[1..], i - 1, name, d);
    }
  }

  lemma {:induction false} ConcatCellTail(fs: seq<Frame>, i: nat, name: string, d: Date)
    requires AllWellFormed(fs)
    requires i < |fs| && name in fs[i].columns
    requires forall j :: 0 <= j < |fs| && j != i ==> name !in fs[j].columns
    ensures name in Concat(fs).columns
    ensures RowAt(Concat(fs), d)[IndexOf(Concat(fs).columns, name)] ==
            RowAt(fs[i], d)[IndexOf(fs[i].columns, name)]
    decreases |fs|, 1
  {
    var joined := Concat(fs);
    ColumnInFlatten(fs, i, name);
    if d in Dates(fs) {
      ConcatCell(fs, i, name, d);
    } else {
      assert d !in fs[i].rows;
      assert d !in joined.rows;
      var k := IndexOf(joined.columns, name);
      assert RowAt(joined, d) == seq(|joined.columns|, _ => Missing);
      assert RowAt(joined, d)[k] == Missing;
    }
  }

  lemma {:induction false} ColumnInFlatten(fs: seq<Frame>, i: nat, name: string)
    requires i < |fs| && name in fs[i].columns
    ensures name in Flatten(ColumnLists(fs))
  {
    assert ColumnLists(fs)[1..] == ColumnLists(fs[1..]);
    if i > 0 {
      assert fs[1..][i - 1] == fs[i];
      ColumnInFlatten(fs[1..], i - 1, name);
    }
  }

  /** The rows of the frames at `d`, in order. */
  function RowsAt(fs: seq<Frame>, d: Date): seq<seq<Value>>
  {
    seq(|fs|, i requires 0 <= i < |fs| => RowAt(fs[i], d))
  }

  lemma JoinRowAt(a: Frame, b: Frame, d: Date)
    ensures RowAt(Join(a, b), d) == RowAt(a, d) + RowAt(b, d)
  {
    if d !in a.rows && d !in b.rows {
      assert RowAt(Join(a, b), d) == seq(|a.columns| + |b.columns|, _ => Missing);
    }
  }

  /** A row of the join is the rows of the frames at that date, one after
      the other, with NaNs for the frames that lack the date. */
  lemma {:induction false} ConcatRowAt(fs: seq<Frame>, d: Date)
    ensures RowAt(Concat(fs), d) == Flatten(RowsAt(fs, d))
  {
    if fs == [] {
      assert RowAt(Concat(fs), d) == [];
    } else {
      assert RowsAt(fs, d)[1..] == RowsAt(fs[1..], d);
      JoinRowAt(fs[0], Concat(fs[1..]), d);
      ConcatRowAt(fs[1..], d);
    }
  }

  /** Joining lists of four puts element `k` of list `i` at `4 * i + k`. */
  lemma {:induction false} FlattenFours<T>(xss: seq<seq<T>>, i: nat, k: nat)
    requires forall j :: 0 <= j < |xss| ==> |xss[j]| == 4
    requires i < |xss| && k < 4
    ensures |Flatten(xss)| == 4 * |xss|
    ensures Flatten(xss)[4 * i + k] == xss[i][k]
  {
    forall j | 0 <= j < |xss[1..]| ensures |xss[1..][j]| == 4 {
      assert xss[1..][j] == xss[j + 1];
    }
    if |xss| > 1 {
      FlattenFours(xss[1..], if i > 0 then i - 1 else 0, k);
    } else {
      assert xss[1..] == [];
    }
    assert Flatten(xss) == xss[0] + Flatten(xss[1..]);
  }
}
