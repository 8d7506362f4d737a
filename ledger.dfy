/** The load step of the daily job (`load` in flow_caso.py) over an abstract
    SQL table: a gate on the tablon's row count, CREATE TABLE IF NOT EXISTS
    with a fixed 25-column layout behind the primary key `fecha`, a duplicate
    check on `today`, and one INSERT per tablon row. The code as written
    appends the row's index date as the last value; the model also follows
    the date-first layout the table declares, to say what the load step
    does once the date is placed where the key is. */
module Ledger {
  import opened Frames
  import opened Features
  import opened Transform

  /** The SQL types the CREATE TABLE statement declares. */
  datatype SqlType = SqlDate | Decimal | Varchar

  datatype Column = Column(name: string, sqlType: SqlType)

  /** The primary-key column, declared first, and the column the load step
      adds to the tablon. */
  const FechaColumn: string := "fecha"

  /** The number of `{}` slots in the CREATE TABLE statement. */
  const Slots: nat := 25

  /** The number of `?` markers in the INSERT statement. */
  const Markers: nat := 26

  /** The types of one ticker's four slots: three DECIMAL(20,2), one
      VARCHAR. */
  const TickerTypes: seq<SqlType> := [Decimal, Decimal, Decimal, Varchar]

  /** The type of slot `k`: the first 24 slots cycle through the four
      ticker types, the 25th is a DECIMAL(20,2). */
  function SlotType(k: nat): SqlType
    requires k < Slots
  {
    if k == Slots - 1 then Decimal else TickerTypes[k % 4]
  }

  /** Slot `4 * i + k` has the type of feature `k` of ticker `i`; the spot
      price goes in a DECIMAL. */
  lemma SlotTypesLayout(i: nat, k: nat)
    requires i < |Tickers| && k < |FeatureNames|
    ensures 4 * i + k < Slots && SlotType(4 * i + k) == TickerTypes[k]
    ensures SlotType(Slots - 1) == Decimal
    ensures FeatureNames[k] == "signo_dia" <==> TickerTypes[k] == Varchar
  {
    assert (4 * i + k) % 4 == k;
  }

  /** The table that CREATE TABLE declares for tablon columns `cols`:
      `fecha DATE PRIMARY KEY`, then the first 25 columns with the slot
      types. `str.format` raises IndexError when fewer than 25 names are
      given and ignores names beyond the 25th. */
  function CreateSchema(cols: seq<string>): (r: Option<seq<Column>>)
    ensures r.None? <==> |cols| < Slots
    ensures r.Some? ==> |r.value| == Slots + 1 && r.value[0] == Column(FechaColumn, SqlDate)
    ensures r.Some? ==> forall k :: 0 <= k < Slots ==> r.value[1..][k] == Column(cols[k], SlotType(k))
    ensures r.Some? ==> LoadTypes(r.value)
  {
    if |cols| < Slots then None
    else Some([Column(FechaColumn, SqlDate)] + seq(Slots, k requires 0 <= k < Slots => Column(cols[k], SlotType(k))))
  }

  /** The abstract table `btcvalores`: whether it exists, the columns it was
      created with, and its rows keyed by the primary key. */
  datatype TableState = TableState(present: bool, schema: seq<Column>, records: map<Date, seq<Value>>)
  {
    /** A table that does not exist has no columns and no rows. */
    predicate Valid() {
      !present ==> schema == [] && records == map[]
    }
  }

  /** `IF NOT EXISTS (...) CREATE TABLE`: an existing table is left as it
      is, whatever its columns; otherwise an empty table with `schema` is
      created. */
  function Created(st: TableState, schema: seq<Column>): (r: TableState)
    ensures r.present && r.Valid()
    ensures st.present ==> r == st
    ensures !st.present ==> r.schema == schema && r.records == map[]
    ensures st.Valid() ==> r.records == st.records
  {
    if st.present then st else TableState(true, schema, map[])
  }

  /** Whether a value can be stored in a column of type `t`: numbers in
      DECIMAL, strings in VARCHAR, dates in DATE. A NaN cell is sent by
      `row.tolist()` as a float NaN, not as NULL, and the server refuses
      it in every column. */
  predicate Fits(v: Value, t: SqlType) {
    match v
    case Missing => false
    case Num(_) => t == Decimal
    case Text(_) => t == Varchar
    case Day(_) => t == SqlDate
  }

  /** A tuple matches a table's columns, position by position. */
  predicate Conforms(schema: seq<Column>, tuple: seq<Value>) {
    |tuple| == |schema| && forall k :: 0 <= k < |tuple| ==> Fits(tuple[k], schema[k].sqlType)
  }

  /** The column types of a table this code creates: the DATE key, then
      the 25 slot types. */
  predicate LoadTypes(schema: seq<Column>) {
    |schema| == Markers && schema[0].sqlType == SqlDate &&
    forall k :: 0 <= k < Slots ==> schema[1..][k].sqlType == SlotType(k)
  }

  /** What rejects an INSERT: the driver when the values do not match the
      markers; the server when they do not match the table's column count
      or column types, when the key (the first value) is not a date (on a
      table whose first column is not a DATE), or when the key is already
      stored. */
  datatype InsertError =
    | ParameterCount(supplied: nat)
    | ColumnCount(supplied: nat, declared: nat)
    | TypeMismatch
    | KeyNotDate
    | DuplicateKey(key: Date)

  datatype Attempt = Attempt(state: TableState, error: Option<InsertError>)

  /** One `INSERT INTO btcvalores VALUES (?, ..., ?)` of `values`. The
      table's first column is its primary key, so the row is stored under
      the date in the first value. */
  function InsertRow(st: TableState, values: seq<Value>): (a: Attempt)
    ensures a.error.None? <==>
      |values| == Markers && Conforms(st.schema, values) && values[0].Day? && values[0].d !in st.records
    ensures a.error.None? ==> a.state == st.(records := st.records[values[0].d := values])
    ensures a.error.Some? ==> a.state == st
    ensures |values| == Markers == |st.schema| && !Conforms(st.schema, values) ==> a.error == Some(TypeMismatch)
  {
    if |values| != Markers then Attempt(st, Some(ParameterCount(|values|)))
    else if |values| != |st.schema| then Attempt(st, Some(ColumnCount(|values|, |st.schema|)))
    else if !Conforms(st.schema, values) then Attempt(st, Some(TypeMismatch))
    else if !values[0].Day? then Attempt(st, Some(KeyNotDate))
    else if values[0].d in st.records then Attempt(st, Some(DuplicateKey(values[0].d)))
    else Attempt(st.(records := st.records[values[0].d := values]), None)
  }

  /** The table, as a mutable object the load step holds a connection to. */
  class Database {
    var present: bool
    var schema: seq<Column>
    var records: map<Date, seq<Value>>

    function State(): TableState
      reads this
    {
      TableState(present, schema, records)
    }

    ghost predicate Valid()
      reads this
    {
      State().Valid()
    }

    constructor (st: TableState)
      requires st.Valid()
      ensures State() == st && Valid()
    {
      present := st.present;
      schema := st.schema;
      records := st.records;
    }

    /** Runs the CREATE TABLE IF NOT EXISTS statement. */
    method CreateIfAbsent(s: seq<Column>)
      modifies this
      ensures State() == Created(old(State()), s)
    {
      if !present {
        present := true;
        schema := s;
        records := map[];
      }
    }

    /** `SELECT fecha FROM btcvalores WHERE fecha = d` and `fetchone()`:
        a row comes back exactly when `d` is stored. */
    method HasRecord(d: Date) returns (found: bool)
      requires present
      ensures found <==> d in records
    {
      found := d in records;
    }

    /** Executes the INSERT and commits it. */
    method Insert(values: seq<Value>) returns (err: Option<InsertError>)
      modifies this
      ensures Attempt(State(), err) == InsertRow(old(State()), values)
    {
      var a := InsertRow(State(), values);
      records := a.state.records;
      err := a.error;
    }
  }

  /** `tablon['fecha'] = tablon.index` on one row: the date of the row
      overwrites every column already called `fecha`, or is appended as a
      new last column when there is none. */
  function FechaRow(cols: seq<string>, row: seq<Value>, d: Date): seq<Value>
  {
    if FechaColumn in cols
    then seq(|row|, k requires 0 <= k < |row| => if k < |cols| && cols[k] == FechaColumn then Day(d) else row[k])
    else row + [Day(d)]
  }

  /** The tablon after `tablon['fecha'] = tablon.index`. */
  function WithFecha(f: Frame): Frame
  {
    Frame(if FechaColumn in f.columns then f.columns else f.columns + [FechaColumn],
          map d | d in f.rows :: FechaRow(f.columns, f.rows[d], d))
  }

  /** Adding `fecha` keeps the frame well formed and its dates, puts each
      row's own date under `fecha`, and leaves every other column's cells as
      they were. */
  lemma WithFechaCells(f: Frame, d: Date, name: string)
    requires f.WellFormed() && d in f.rows
    ensures WithFecha(f).WellFormed() && WithFecha(f).rows.Keys == f.rows.Keys
    ensures Cell(WithFecha(f), d, FechaColumn) == Some(Day(d))
    ensures name != FechaColumn ==> Cell(WithFecha(f), d, name) == Cell(f, d, name)
  {
    var g := WithFecha(f);
    if FechaColumn !in f.columns {
      IndexOfAppend(f.columns, [FechaColumn], FechaColumn);
      assert IndexOf([FechaColumn], FechaColumn) == 0;
      if name != FechaColumn && name in f.columns {
        IndexOfAppend(f.columns, [FechaColumn], name);
      }
    }
  }

  /** Where the date goes in the inserted values. `FechaLast` is the code
      as written: `tablon['fecha'] = tablon.index` adds it as the last
      column. `FechaFirst` puts the same index date first, where the table
      declares `fecha` and where the commented-out
      `tablon.insert(0, 'fecha', today)` would put `today`. */
  datatype Layout = FechaLast | FechaFirst

  /** The values `row.tolist()` sends for the tablon row dated `d`. */
  function Tuple(layout: Layout, f: Frame, d: Date): seq<Value>
    requires d in f.rows
  {
    match layout
    case FechaLast => WithFecha(f).rows[d]
    case FechaFirst => [Day(d)] + f.rows[d]
  }

  /** What a run of `load` ends with. */
  datatype Outcome = NotOneRow | TooFewColumns | Duplicate | Inserted | InsertFailed(error: InsertError)

  datatype Run = Run(state: TableState, outcome: Outcome)

  /** The one element of a one-element set. */
  ghost function OnlyDate(keys: set<Date>): (d: Date)
    requires |keys| == 1
    ensures keys == {d}
  {
    var d :| d in keys;
    assert |keys - {d}| == 0;
    d
  }

  /** What `load(tablon, today, ...)` does to the table, step by step:
      the row-count gate, the CREATE statement built from the columns, the
      create-if-absent, the duplicate check on `today`, then the INSERT of
      the one row with the date placed as `layout` says. */
  ghost function LoadSpec(st: TableState, tablon: Frame, today: Date, layout: Layout): (r: Run)
    requires st.Valid()
    ensures r.state.Valid()
    ensures r.outcome == NotOneRow <==> |tablon.rows| != 1
    ensures r.outcome == TooFewColumns <==> |tablon.rows| == 1 && |tablon.columns| < Slots
    ensures r.outcome in {NotOneRow, TooFewColumns} ==> r.state == st
    ensures r.outcome !in {NotOneRow, TooFewColumns} ==> r.state.present && (st.present ==> r.state.schema == st.schema)
    ensures r.outcome == Duplicate ==> today in st.records && r.state.records == st.records
    ensures forall d :: d in st.records ==> d in r.state.records && r.state.records[d] == st.records[d]
    ensures r.outcome == Inserted <==> r.state.records != st.records
    ensures r.outcome == Inserted ==>
      |tablon.rows| == 1 && today !in st.records &&
      var t := Tuple(layout, tablon, OnlyDate(tablon.rows.Keys));
      |t| == Markers && Conforms(r.state.schema, t) && t[0].Day? && t[0].d !in st.records &&
      r.state.records == st.records[t[0].d := t]
  {
    if |tablon.rows| != 1 then Run(st, NotOneRow)
    else
      var schema := CreateSchema(tablon.columns);
      if schema.None? then Run(st, TooFewColumns)
      else
        var created := Created(st, schema.value);
        if today in created.records then Run(created, Duplicate)
        else
          var t := Tuple(layout, tablon, OnlyDate(tablon.rows.Keys));
          var a := InsertRow(created, t);
          assert a.error.None? ==> t[0].d in a.state.records && t[0].d !in created.records;
          Run(a.state, if a.error.Some? then InsertFailed(a.error.value) else Inserted)
  }

  /** The load step (flow_caso.py `load`) against the table `db`; the code
      as written is `layout == FechaLast`. */
  method Load(db: Database, tablon: Frame, today: Date, layout: Layout) returns (outcome: Outcome)
    requires db.Valid()
    modifies db
    ensures db.Valid()
    ensures Run(db.State(), outcome) == LoadSpec(old(db.State()), tablon, today, layout)
  {
    if |tablon.rows| != 1 {
      return NotOneRow;
    }
    var schema := CreateSchema(tablon.columns);
    if schema.None? {
      return TooFewColumns;
    }
    db.CreateIfAbsent(schema.value);
    var found := db.HasRecord(today);
    if found {
      return Duplicate;
    }
    ghost var d0 := OnlyDate(tablon.rows.Keys);
    ghost var created := db.State();
    var pending := tablon.rows.Keys;
    while pending != {}
      invariant pending <= {d0} && d0 in tablon.rows
      invariant pending == {d0} ==> db.State() == created
      invariant pending == {} ==> Run(db.State(), Inserted) == LoadSpec(old(db.State()), tablon, today, layout)
      decreases |pending|
    {
      var d :| d in pending;
      var err := db.Insert(Tuple(layout, tablon, d));
      if err.Some? {
        return InsertFailed(err.value);
      }
      pending := pending - {d};
    }
    return Inserted;
  }

  /** With the date first, a run that inserted a row dated `today`,
      repeated the same day, stops at the duplicate check and changes
      nothing. */
  lemma LoadTwice(st: TableState, tablon: Frame, today: Date)
    requires st.Valid() && tablon.rows.Keys == {today}
    requires LoadSpec(st, tablon, today, FechaFirst).outcome == Inserted
    ensures LoadSpec(st, tablon, today, FechaFirst).state.Valid()
    ensures var once := LoadSpec(st, tablon, today, FechaFirst).state;
            LoadSpec(once, tablon, today, FechaFirst) == Run(once, Duplicate)
  {
    var once := LoadSpec(st, tablon, today, FechaFirst).state;
    assert OnlyDate(tablon.rows.Keys) == today;
    assert today in once.records;
    assert |tablon.columns| >= Slots;
  }

  /** The duplicate check looks for `today`, the INSERT stores the index
      date: with the date first, a tablon whose one row is dated another
      day is inserted under that day, `today` stays absent, and the same run
      repeated passes the duplicate check and is rejected by the primary key
      instead. */
  lemma StaleRowRerun(st: TableState, tablon: Frame, today: Date)
    requires st.Valid() && tablon.rows.Keys != {today}
    requires LoadSpec(st, tablon, today, FechaFirst).outcome == Inserted
    ensures LoadSpec(st, tablon, today, FechaFirst).state.Valid()
    ensures var once := LoadSpec(st, tablon, today, FechaFirst).state;
            today !in once.records &&
            LoadSpec(once, tablon, today, FechaFirst) ==
              Run(once, InsertFailed(DuplicateKey(OnlyDate(tablon.rows.Keys))))
  {
    var d := OnlyDate(tablon.rows.Keys);
    var created := Created(st, CreateSchema(tablon.columns).value);
    var values := Tuple(FechaFirst, tablon, d);
    assert InsertRow(created, values).error.None?;
    var once := LoadSpec(st, tablon, today, FechaFirst).state;
    assert once == created.(records := created.records[d := values]);
    assert d != today;
    assert Created(once, CreateSchema(tablon.columns).value) == once;
  }

  /** As written, the INSERT sends the 25 tablon cells first and the date
      last, while the table declares `fecha` first: the first tablon cell
      lands in the DATE key and the date in the last DECIMAL column, so the
      tuple never matches the column types of a table this code creates. */
  lemma WrittenTupleMisplaced(cols: seq<string>, row: seq<Value>, d: Date, schema: seq<Column>)
    requires |cols| == Slots && FechaColumn !in cols && |row| == Slots
    requires LoadTypes(schema)
    ensures var tuple := FechaRow(cols, row, d);
            |tuple| == Markers && tuple[0] == row[0] && tuple[Slots] == Day(d) &&
            schema[0].sqlType == SqlDate && schema[Slots].sqlType == Decimal &&
            !Conforms(schema, tuple)
  {
    var tuple := FechaRow(cols, row, d);
    assert schema[Slots] == schema[1..][Slots - 1];
    assert !Fits(tuple[Slots], schema[Slots].sqlType);
  }

  /** As written, the load step never stores a row in a table this code
      created, or is about to create: a tablon without `fecha` of more
      than 25 columns sends more than 26 values, and one of exactly 25
      columns sends values of the wrong types, so every run that reaches
      the INSERT fails. */
  lemma WrittenLoadNeverStores(st: TableState, tablon: Frame, today: Date)
    requires st.Valid() && tablon.WellFormed() && FechaColumn !in tablon.columns
    requires st.present ==> LoadTypes(st.schema)
    ensures LoadSpec(st, tablon, today, FechaLast).outcome != Inserted
    ensures LoadSpec(st, tablon, today, FechaLast).state.records == st.records
    ensures |tablon.rows| == 1 && |tablon.columns| == Slots && today !in st.records ==>
            LoadSpec(st, tablon, today, FechaLast).outcome == InsertFailed(TypeMismatch)
  {
    if |tablon.rows| == 1 && |tablon.columns| >= Slots && today !in st.records {
      var d := OnlyDate(tablon.rows.Keys);
      var created := Created(st, CreateSchema(tablon.columns).value);
      var t := Tuple(FechaLast, tablon, d);
      assert |t| == |tablon.columns| + 1;
      if |tablon.columns| == Slots {
        WrittenTupleMisplaced(tablon.columns, tablon.rows[d], d, created.schema);
      }
    }
  }

  /** On a day with a bar, the transformed cells of a ticker fit the slot
      types of its group: three numbers and a sign string. */
  lemma TickerCellFits(ticker: string, bars: map<Date, Bar>, d: Date, k: nat)
    requires d in bars && k < |FeatureNames|
    ensures |RowAt(TickerFrame(ticker, bars), d)| == 4
    ensures Fits(RowAt(TickerFrame(ticker, bars), d)[k], TickerTypes[k])
  {
    TickerFrameShape(ticker, bars);
  }

  /** The tablon columns include no `fecha`: every ticker column is longer
      than it and the spot column is spelled differently. */
  lemma FechaNotInTablon()
    ensures FechaColumn !in TablonColumns
  {
    TablonColumnsLayout(0, 0);
    forall j | 0 <= j < |TablonColumns| ensures TablonColumns[j] != FechaColumn {
      if j < 24 {
        TablonColumnsLayout(j / 4, j % 4);
        assert |TablonColumns[j]| > |FechaColumn| by {
          assert TablonColumns[j] == Tickers[j / 4] + "_" + FeatureNames[j % 4];
          assert |FeatureNames[j % 4]| >= 5;
        }
      }
    }
  }

  /** The CREATE statement of a daily run declares `fecha` and then, at
      position `1 + 4 * i + k`, feature `k` of ticker `i` with its type,
      and last `btc_usd` as a DECIMAL: the 25 slots receive the 25 tablon
      columns in order. */
  lemma DailySchema(i: nat, k: nat)
    requires i < |Tickers| && k < |FeatureNames|
    ensures CreateSchema(TablonColumns).Some?
    ensures CreateSchema(TablonColumns).value[1 + 4 * i + k] ==
            Column(Tickers[i] + "_" + FeatureNames[k], TickerTypes[k])
    ensures CreateSchema(TablonColumns).value[Slots] == Column(SpotColumn, Decimal)
  {
    TablonColumnsLayout(i, k);
    SlotTypesLayout(i, k);
    var schema := CreateSchema(TablonColumns).value;
    assert schema[1 + 4 * i + k] == schema[1..][4 * i + k];
    assert schema[Slots] == schema[1..][Slots - 1];
  }

  /** On a day every ticker has a bar, each cell of the daily tablon's
      row `today` fits the type of its slot. */
  lemma DailyCellFits(bars: seq<map<Date, Bar>>, today: Date, price: real, j: nat)
    requires |bars| == |Tickers| && j < Slots
    requires forall i :: 0 <= i < |Tickers| ==> today in bars[i]
    ensures |RowAt(Concat(DailyFrames(bars, today, price)), today)| == Slots
    ensures Fits(RowAt(Concat(DailyFrames(bars, today, price)), today)[j], SlotType(j))
  {
    if j < Slots - 1 {
      var i, k := j / 4, j % 4;
      assert j == 4 * i + k;
      DailyRow(bars, today, price, today, i, k);
      SlotTypesLayout(i, k);
      TickerCellFits(Tickers[i], bars[i], today, k);
    } else {
      DailyRow(bars, today, price, today, 0, 0);
    }
  }

  /** On a day every ticker has a bar, the daily tablon's row `today` has
      25 cells that fit the slot types. */
  lemma DailyRowFits(bars: seq<map<Date, Bar>>, today: Date, price: real)
    requires |bars| == |Tickers|
    requires forall i :: 0 <= i < |Tickers| ==> today in bars[i]
    ensures |RowAt(Concat(DailyFrames(bars, today, price)), today)| == Slots
    ensures forall j :: 0 <= j < Slots ==> Fits(RowAt(Concat(DailyFrames(bars, today, price)), today)[j], SlotType(j))
  {
    var row := RowAt(Concat(DailyFrames(bars, today, price)), today);
    DailyCellFits(bars, today, price, 0);
    forall j | 0 <= j < Slots ensures Fits(row[j], SlotType(j)) {
      DailyCellFits(bars, today, price, j);
    }
  }

  /** On a day ticker `i` has no bar, the outer join leaves its first cell
      in the daily tablon's row `today` as NaN. */
  lemma DailyGapCell(bars: seq<map<Date, Bar>>, today: Date, price: real, i: nat)
    requires |bars| == |Tickers| && i < |Tickers| && today !in bars[i]
    ensures |RowAt(Concat(DailyFrames(bars, today, price)), today)| == Slots
    ensures RowAt(Concat(DailyFrames(bars, today, price)), today)[4 * i] == Missing
  {
    DailyRow(bars, today, price, today, i, 0);
    TickerFrameShape(Tickers[i], bars[i]);
  }

  /** A date followed by 25 cells that fit the slot types matches the
      column types of a table this code creates. */
  lemma DateFirstConforms(schema: seq<Column>, row: seq<Value>, d: Date)
    requires LoadTypes(schema) && |row| == Slots
    requires forall j :: 0 <= j < Slots ==> Fits(row[j], SlotType(j))
    ensures Conforms(schema, [Day(d)] + row)
  {
    var tuple := [Day(d)] + row;
    forall j | 0 <= j < |tuple| ensures Fits(tuple[j], schema[j].sqlType) {
      if j > 0 {
        assert tuple[j] == row[j - 1] && schema[j] == schema[1..][j - 1];
      }
    }
  }

  /** With the date first, on a day every ticker has a bar, the daily
      tablon's row `today` matches the table that CREATE declares for it. */
  lemma FechaFirstFits(bars: seq<map<Date, Bar>>, today: Date, price: real)
    requires |bars| == |Tickers|
    requires forall i :: 0 <= i < |Tickers| ==> today in bars[i]
    ensures today in Concat(DailyFrames(bars, today, price)).rows
    ensures CreateSchema(Concat(DailyFrames(bars, today, price)).columns).Some?
    ensures Conforms(CreateSchema(Concat(DailyFrames(bars, today, price)).columns).value,
                     Tuple(FechaFirst, Concat(DailyFrames(bars, today, price)), today))
  {
    var tablon := Concat(DailyFrames(bars, today, price));
    assert today in tablon.rows by { DailyDates(bars, today, price); }
    assert |tablon.columns| == Slots by {
      DailyColumns(bars, today, price);
      TablonColumnsLayout(0, 0);
    }
    DailyRowFits(bars, today, price);
    DateFirstConforms(CreateSchema(tablon.columns).value, tablon.rows[today], today);
  }

  /** A date followed by cells one of which is NaN matches no table's
      column types. */
  lemma NaNRefused(schema: seq<Column>, row: seq<Value>, d: Date, j: nat)
    requires j < |row| && row[j] == Missing
    ensures !Conforms(schema, [Day(d)] + row)
  {
    assert ([Day(d)] + row)[j + 1] == Missing;
  }

  /** A tablon of 25 columns, none called `fecha`, whose one row is dated
      `today`. If `today` is stored, both layouts stop at the duplicate
      check. Otherwise, on a table this code created (or is about to
      create), the code as written fails the INSERT on the column types and
      stores nothing; the date-first layout stores the date followed by the
      25 cells under `today` when every cell fits its slot type (a NaN cell
      makes it fail instead, as `LoadTodayGap` states). */
  lemma LoadToday(st: TableState, tablon: Frame, today: Date)
    requires st.Valid() && tablon.WellFormed()
    requires tablon.rows.Keys == {today} && |tablon.columns| == Slots && FechaColumn !in tablon.columns
    ensures today in st.records ==>
              LoadSpec(st, tablon, today, FechaLast).outcome == Duplicate &&
              LoadSpec(st, tablon, today, FechaFirst).outcome == Duplicate
    ensures today !in st.records && (st.present ==> LoadTypes(st.schema)) ==>
              LoadSpec(st, tablon, today, FechaLast) ==
                Run(Created(st, CreateSchema(tablon.columns).value), InsertFailed(TypeMismatch))
    ensures today !in st.records && (st.present ==> LoadTypes(st.schema)) &&
            (forall j :: 0 <= j < Slots ==> Fits(tablon.rows[today][j], SlotType(j))) ==>
              LoadSpec(st, tablon, today, FechaFirst).outcome == Inserted &&
              LoadSpec(st, tablon, today, FechaFirst).state.records ==
                st.records[today := [Day(today)] + tablon.rows[today]]
  {
    assert |tablon.rows| == 1 by { assert tablon.rows.Keys == {today}; }
    assert OnlyDate(tablon.rows.Keys) == today;
    var created := Created(st, CreateSchema(tablon.columns).value);
    var row := tablon.rows[today];
    if today !in st.records && (st.present ==> LoadTypes(st.schema)) {
      WrittenTupleMisplaced(tablon.columns, row, today, created.schema);
      if forall j :: 0 <= j < Slots ==> Fits(row[j], SlotType(j)) {
        DateFirstConforms(created.schema, row, today);
      }
    }
  }

  /** With the date first, a tablon as in `LoadToday` whose row holds a
      NaN cell: on a table this code created (or is about to create) the
      table is created if absent and the INSERT fails on the types. */
  lemma LoadTodayGap(st: TableState, tablon: Frame, today: Date)
    requires st.Valid() && tablon.WellFormed()
    requires tablon.rows.Keys == {today} && |tablon.columns| == Slots
    ensures today !in st.records && (st.present ==> LoadTypes(st.schema)) &&
            (exists j :: 0 <= j < Slots && tablon.rows[today][j] == Missing) ==>
              LoadSpec(st, tablon, today, FechaFirst) ==
                Run(Created(st, CreateSchema(tablon.columns).value), InsertFailed(TypeMismatch))
  {
    assert |tablon.rows| == 1 by { assert tablon.rows.Keys == {today}; }
    assert OnlyDate(tablon.rows.Keys) == today;
    var created := Created(st, CreateSchema(tablon.columns).value);
    var row := tablon.rows[today];
    if today !in st.records && (st.present ==> LoadTypes(st.schema)) &&
       exists j :: 0 <= j < Slots && row[j] == Missing {
      var j :| 0 <= j < Slots && row[j] == Missing;
      NaNRefused(created.schema, row, today, j);
      assert |created.schema| == Markers;
      assert InsertRow(created, Tuple(FechaFirst, tablon, today)).error == Some(TypeMismatch);
    }
  }

  /** A daily run end to end, when every ticker's bars are dated `today`
      or missing: the tablon has the one row `today` of 25 cells. If
      `today` is stored, both layouts stop at the duplicate check.
      Otherwise, on a table this code created (or is about to create), the
      code as written fails the INSERT on the column types and stores
      nothing; with the date first, the row is stored under `today` when
      every ticker has a bar that day, and the NaN cells of a ticker without
      one make the INSERT fail. */
  lemma DailyLoad(st: TableState, bars: seq<map<Date, Bar>>, today: Date, price: real)
    requires st.Valid() && |bars| == |Tickers|
    requires forall i :: 0 <= i < |Tickers| ==> bars[i].Keys <= {today}
    ensures var tablon := Concat(DailyFrames(bars, today, price));
            tablon.rows.Keys == {today} && |tablon.rows[today]| == Slots
    ensures var tablon := Concat(DailyFrames(bars, today, price));
            today in st.records ==>
              LoadSpec(st, tablon, today, FechaLast).outcome == Duplicate &&
              LoadSpec(st, tablon, today, FechaFirst).outcome == Duplicate
    ensures var tablon := Concat(DailyFrames(bars, today, price));
            today !in st.records && (st.present ==> LoadTypes(st.schema)) ==>
              LoadSpec(st, tablon, today, FechaLast).outcome == InsertFailed(TypeMismatch) &&
              LoadSpec(st, tablon, today, FechaLast).state.records == st.records
    ensures var tablon := Concat(DailyFrames(bars, today, price));
            today !in st.records && (st.present ==> LoadTypes(st.schema)) &&
            (forall i :: 0 <= i < |Tickers| ==> today in bars[i]) ==>
              LoadSpec(st, tablon, today, FechaFirst).outcome == Inserted &&
              LoadSpec(st, tablon, today, FechaFirst).state.records ==
                st.records[today := [Day(today)] + tablon.rows[today]]
    ensures var tablon := Concat(DailyFrames(bars, today, price));
            today !in st.records && (st.present ==> LoadTypes(st.schema)) &&
            (exists i :: 0 <= i < |Tickers| && today !in bars[i]) ==>
              LoadSpec(st, tablon, today, FechaFirst).outcome == InsertFailed(TypeMismatch) &&
              LoadSpec(st, tablon, today, FechaFirst).state.records == st.records
  {
    var tablon := Concat(DailyFrames(bars, today, price));
    assert tablon.rows.Keys == {today} by { DailyOneRow(bars, today, price); }
    assert tablon.WellFormed() && |tablon.columns| == Slots && FechaColumn !in tablon.columns by {
      DailyColumns(bars, today, price);
      TablonColumnsLayout(0, 0);
      FechaNotInTablon();
    }
    assert tablon.rows[today] == RowAt(tablon, today);
    if forall i :: 0 <= i < |Tickers| ==> today in bars[i] {
      DailyRowFits(bars, today, price);
    } else {
      var i :| 0 <= i < |Tickers| && today !in bars[i];
      DailyGapCell(bars, today, price, i);
      assert tablon.rows[today][4 * i] == Missing;
    }
    LoadToday(st, tablon, today);
    LoadTodayGap(st, tablon, today);
  }
}
