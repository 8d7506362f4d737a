/** The transform step of the daily job (`transform` in flow_caso.py and the
    script transform.py): a loop over the tickers rewrites each ticker's entry
    of the `raw_dfs` dictionary into its feature frame, then all entries of
    the dictionary are joined column-wise into the one-row "tablon". */
module Transform {
  import opened Frames
  import opened Features

  /** An entry of `raw_dfs`: a ticker's raw OHLC frame as the extract step
      builds it, or a frame of any other shape (the Bitcoin spot frame, or a
      ticker frame that has already been transformed). */
  datatype Entry = Ohlc(bars: map<Date, Bar>) | Table(frame: Frame)

  /** The equity tickers the job tracks, in the order the dictionary holds
      them. */
  const Tickers: seq<string> := ["NVDA", "TSLA", "MSFT", "AMZN", "AMD", "INTC"]

  /** What goes wrong in the transform step, as Python raises it:
      `raw_dfs[ticker]` on a missing key, `df['open']` on a frame without
      the OHLC columns, `pd.concat` of an empty dictionary. */
  datatype TransformError = MissingEntry(ticker: string) | MissingColumn(ticker: string) | NothingToConcatenate

  datatype Result<T> = Success(value: T) | Failure(error: TransformError)

  /** An entry as the frame that `pd.concat` sees. */
  function AsFrame(e: Entry): Frame
  {
    match e
    case Ohlc(bars) =>
      Frame(["open", "high", "low", "close"],
            map d | d in bars :: [Num(bars[d].open), Num(bars[d].high), Num(bars[d].low), Num(bars[d].close)])
    case Table(f) => f
  }

  /** The spot entry: one column `btc_usd`, one row dated `today`. */
  function SpotFrame(today: Date, price: real): Frame
  {
    Frame([SpotColumn], map[today := [Num(price)]])
  }

  /** The dictionary after the loop has run over some tickers, and the error
      that stopped it, if one did. */
  datatype Progress = Progress(entries: map<string, Entry>, stopped: Option<TransformError>)

  /** One iteration of the feature loop for `ticker`. */
  function Step(m: map<string, Entry>, ticker: string): Progress
  {
    if ticker !in m then Progress(m, Some(MissingEntry(ticker)))
    else if !m[ticker].Ohlc? then Progress(m, Some(MissingColumn(ticker)))
    else Progress(m[ticker := Table(TickerFrame(ticker, m[ticker].bars))], None)
  }

  /** The feature loop over `ts`, left to right, stopping at the first
      error. It never adds or removes a key, and it leaves every entry whose
      key is not among `ts` as it was. */
  function Rewrite(m: map<string, Entry>, ts: seq<string>): (p: Progress)
    ensures p.entries.Keys == m.Keys
    ensures forall k :: k in m && k !in ts ==> p.entries[k] == m[k]
    decreases |ts|
  {
    if ts == [] then Progress(m, None)
    else
      var p := Rewrite(m, ts[..|ts| - 1]);
      if p.stopped.Some? then p else Step(p.entries, ts[|ts| - 1])
  }

  predicate Distinct(ts: seq<string>) {
    forall i, j :: 0 <= i < j < |ts| ==> ts[i] != ts[j]
  }

  /** The entries named by `order`, as frames, in that order
      (`raw_dfs.values()`). */
  function ValuesOf(order: seq<string>, m: map<string, Entry>): seq<Frame>
    requires forall k :: k in order ==> k in m
  {
    seq(|order|, i requires 0 <= i < |order| => AsFrame(m[order[i]]))
  }

  /** What `transform(raw_dfs, tickers, today)` returns for a dictionary
      with keys `order` (in insertion order) and entries `m`. */
  function Tablon(order: seq<string>, m: map<string, Entry>, ts: seq<string>): Result<Frame>
    requires forall k :: k in order ==> k in m
  {
    var p := Rewrite(m, ts);
    if p.stopped.Some? then Failure(p.stopped.value)
    else if order == [] then Failure(NothingToConcatenate)
    else Success(Concat(ValuesOf(order, p.entries)))
  }

  /** The `raw_dfs` dictionary: its keys in insertion order and its
      entries. */
  class FrameDict {
    var order: seq<string>
    var entries: map<string, Entry>

    ghost predicate Valid()
      reads this
    {
      (forall k :: k in entries <==> k in order) && Distinct(order)
    }

    constructor (order: seq<string>, entries: map<string, Entry>)
      requires (forall k :: k in entries <==> k in order) && Distinct(order)
      ensures Valid() && this.order == order && this.entries == entries
    {
      this.order := order;
      this.entries := entries;
    }
  }

  /** Once the loop has stopped, later tickers change nothing. */
  lemma {:induction false} RewriteStaysStopped(m: map<string, Entry>, ts: seq<string>, k: nat)
    requires k <= |ts| && Rewrite(m, ts[..k]).stopped.Some?
    ensures Rewrite(m, ts) == Rewrite(m, ts[..k])
    decreases |ts| - k
  {
    if k < |ts| {
      assert ts[..k + 1][..k] == ts[..k];
      RewriteStaysStopped(m, ts, k + 1);
    } else {
      assert ts[..k] == ts;
    }
  }

  /** One more ticker of the loop is one more `Step`, unless it has
      already stopped. */
  lemma RewritePrefix(m: map<string, Entry>, ts: seq<string>, i: nat)
    requires i < |ts|
    ensures Rewrite(m, ts[..i + 1]) ==
            var p := Rewrite(m, ts[..i]);
            if p.stopped.Some? then p else Step(p.entries, ts[i])
  {
    assert ts[..i + 1][..i] == ts[..i];
  }

  /** The feature loop (flow_caso.py `transform`): rewrites the entry of
      every ticker in place, then joins all entries of the dictionary. */
  method Transform(raw: FrameDict, tickers: seq<string>) returns (r: Result<Frame>)
    requires raw.Valid()
    modifies raw
    ensures raw.Valid() && raw.order == old(raw.order)
    ensures raw.entries == Rewrite(old(raw.entries), tickers).entries
    ensures r == Tablon(old(raw.order), old(raw.entries), tickers)
  {
    ghost var m0 := raw.entries;
    for i := 0 to |tickers|
      invariant raw.order == old(raw.order) && raw.entries.Keys == m0.Keys
      invariant Rewrite(m0, tickers[..i]) == Progress(raw.entries, None)
    {
      var ticker := tickers[i];
      RewritePrefix(m0, tickers, i);
      if ticker !in raw.entries {
        RewriteStaysStopped(m0, tickers, i + 1);
        return Failure(MissingEntry(ticker));
      }
      var df := raw.entries[ticker];
      if !df.Ohlc? {
        RewriteStaysStopped(m0, tickers, i + 1);
        return Failure(MissingColumn(ticker));
      }
      raw.entries := raw.entries[ticker := Table(TickerFrame(ticker, df.bars))];
    }
    assert tickers[..|tickers|] == tickers;
    if raw.order == [] {
      return Failure(NothingToConcatenate);
    }
    r := Success(Concat(ValuesOf(raw.order, raw.entries)));
  }

  /** The loop runs to the end exactly when every ticker is in the
      dictionary with OHLC columns and no ticker is listed twice (a second
      visit finds the already projected frame, which has no `open`); when it
      does, each ticker's entry is its feature frame built from its original
      bars. */
  lemma {:induction false} RewriteComplete(m: map<string, Entry>, ts: seq<string>)
    ensures Rewrite(m, ts).stopped.None? <==>
            Distinct(ts) && forall t :: t in ts ==> t in m && m[t].Ohlc?
    ensures Rewrite(m, ts).stopped.None? ==>
            forall t :: t in ts ==> Rewrite(m, ts).entries[t] == Table(TickerFrame(t, m[t].bars))
    decreases |ts|
  {
    if ts != [] {
      var init, last := ts[..|ts| - 1], ts[|ts| - 1];
      assert ts == init + [last];
      RewriteComplete(m, init);
      var p := Rewrite(m, init);
      assert Distinct(ts) <==> Distinct(init) && last !in init by {
        if Distinct(init) && last !in init {
          forall i, j | 0 <= i < j < |ts| ensures ts[i] != ts[j] {
            if j < |ts| - 1 { assert ts[i] == init[i] && ts[j] == init[j]; }
            else { assert ts[i] == init[i]; }
          }
        }
        if Distinct(ts) {
          forall i, j | 0 <= i < j < |init| ensures init[i] != init[j] {
            assert init[i] == ts[i] && init[j] == ts[j];
          }
        }
      }
      if p.stopped.None? && last !in init && last in m {
        assert p.entries[last] == m[last] by { assert last in m <==> last in p.entries; }
      }
    }
  }

  lemma TickersDistinct()
    ensures Distinct(Tickers) && SpotColumn !in Tickers
  {
  }

  /** The key order of `raw_dfs` as the extract step builds it: the six
      tickers, then the spot entry. */
  const ExtractedOrder: seq<string> := Tickers + [SpotColumn]

  /** The dictionary the extract step hands to the transform step: each
      ticker's bars and the spot price dated `today`. */
  function Extracted(bars: seq<map<Date, Bar>>, today: Date, price: real): map<string, Entry>
    requires |bars| == |Tickers|
  {
    map["NVDA" := Ohlc(bars[0]), "TSLA" := Ohlc(bars[1]), "MSFT" := Ohlc(bars[2]),
        "AMZN" := Ohlc(bars[3]), "AMD" := Ohlc(bars[4]), "INTC" := Ohlc(bars[5]),
        SpotColumn := Table(SpotFrame(today, price))]
  }

  /** The feature columns of tickers `ts`, ticker by ticker. */
  function FeatureColumns(ts: seq<string>): seq<string>
  {
    Flatten(seq(|ts|, i requires 0 <= i < |ts| => Prefixed(ts[i], FeatureNames)))
  }

  /** The columns of the tablon, in the order the CREATE TABLE statement
      receives them. */
  const TablonColumns: seq<string> := FeatureColumns(Tickers) + [SpotColumn]

  /** The tablon has 4 * 6 + 1 = 25 columns: column `4 * i + k` is feature
      `k` of ticker `i`, and the last one is the spot column. */
  lemma TablonColumnsLayout(i: nat, k: nat)
    requires i < |Tickers| && k < |FeatureNames|
    ensures |TablonColumns| == 4 * |Tickers| + 1 == 25
    ensures TablonColumns[4 * i + k] == Tickers[i] + "_" + FeatureNames[k]
    ensures TablonColumns[24] == SpotColumn
  {
    var xss := seq(|Tickers|, i requires 0 <= i < |Tickers| => Prefixed(Tickers[i], FeatureNames));
    FlattenFours(xss, i, k);
  }

  lemma ExtractedAt(bars: seq<map<Date, Bar>>, today: Date, price: real, i: nat)
    requires |bars| == |Tickers| && i < |ExtractedOrder|
    ensures ExtractedOrder[i] in Extracted(bars, today, price)
    ensures Extracted(bars, today, price)[ExtractedOrder[i]] ==
            if i < 6 then Ohlc(bars[i]) else Table(SpotFrame(today, price))
  {
    var m := Extracted(bars, today, price);
    if i == 0 { assert ExtractedOrder[0] == "NVDA"; }
    else if i == 1 { assert ExtractedOrder[1] == "TSLA"; }
    else if i == 2 { assert ExtractedOrder[2] == "MSFT"; }
    else if i == 3 { assert ExtractedOrder[3] == "AMZN"; }
    else if i == 4 { assert ExtractedOrder[4] == "AMD"; }
    else if i == 5 { assert ExtractedOrder[5] == "INTC"; }
    else { assert ExtractedOrder[6] == "btc_usd"; }
  }

  /** The frames that the daily run joins: the six feature frames, then the
      untouched spot frame. */
  function DailyFrames(bars: seq<map<Date, Bar>>, today: Date, price: real): seq<Frame>
    requires |bars| == |Tickers|
  {
    seq(6, i requires 0 <= i < 6 => TickerFrame(Tickers[i], bars[i])) + [SpotFrame(today, price)]
  }

  /** A daily run passes the loop: every ticker is rewritten to its feature
      frame and the spot entry is left alone. */
  lemma DailyRewrite(bars: seq<map<Date, Bar>>, today: Date, price: real)
    requires |bars| == |Tickers|
    ensures Rewrite(Extracted(bars, today, price), Tickers).stopped.None?
    ensures ValuesOf(ExtractedOrder, Rewrite(Extracted(bars, today, price), Tickers).entries) ==
            DailyFrames(bars, today, price)
  {
    var m := Extracted(bars, today, price);
    TickersDistinct();
    forall t | t in Tickers ensures t in m && m[t].Ohlc? {
      var i :| 0 <= i < 6 && Tickers[i] == t;
      ExtractedAt(bars, today, price, i);
    }
    RewriteComplete(m, Tickers);
    var p := Rewrite(m, Tickers);
    forall i | 0 <= i < 7 ensures ExtractedOrder[i] in p.entries {
      ExtractedAt(bars, today, price, i);
    }
    var fs := ValuesOf(ExtractedOrder, p.entries);
    var ds := DailyFrames(bars, today, price);
    forall i | 0 <= i < 7 ensures fs[i] == ds[i] {
      ExtractedAt(bars, today, price, i);
      if i < 6 {
        assert ExtractedOrder[i] == Tickers[i];
      } else {
        assert ExtractedOrder[6] == SpotColumn && SpotColumn !in Tickers;
      }
    }
  }

  /** The tablon of a daily run is the join of `DailyFrames`. */
  lemma DailyTablon(bars: seq<map<Date, Bar>>, today: Date, price: real)
    requires |bars| == |Tickers|
    ensures Tablon(ExtractedOrder, Extracted(bars, today, price), Tickers) ==
            Success(Concat(DailyFrames(bars, today, price)))
  {
    DailyRewrite(bars, today, price);
  }

  /** The daily frames are well formed and their columns, joined, are
      `TablonColumns`: four per ticker, then the spot column. */
  lemma DailyColumns(bars: seq<map<Date, Bar>>, today: Date, price: real)
    requires |bars| == |Tickers|
    ensures AllWellFormed(DailyFrames(bars, today, price))
    ensures Concat(DailyFrames(bars, today, price)).columns == TablonColumns
    ensures Concat(DailyFrames(bars, today, price)).WellFormed()
  {
    var fs := DailyFrames(bars, today, price);
    var cl := ColumnLists(fs);
    var xss := seq(|Tickers|, i requires 0 <= i < |Tickers| => Prefixed(Tickers[i], FeatureNames));
    assert AllWellFormed(fs) by {
      forall i | 0 <= i < 6 ensures fs[i].WellFormed() {
        TickerFrameShape(Tickers[i], bars[i]);
      }
    }
    assert cl == xss + [[SpotColumn]] by {
      forall i | 0 <= i < 7 ensures cl[i] == (xss + [[SpotColumn]])[i] {
        if i < 6 { assert cl[i] == fs[i].columns; }
      }
    }
    FlattenAppend(xss, [[SpotColumn]]);
    assert Flatten([[SpotColumn]]) == [SpotColumn];
  }

  /** The tablon's index is the outer join of the dates: `today` (from the
      spot frame) and every date some ticker has a bar for. */
  lemma DailyDates(bars: seq<map<Date, Bar>>, today: Date, price: real)
    requires |bars| == |Tickers|
    ensures Concat(DailyFrames(bars, today, price)).rows.Keys ==
            {today} + set i, d | 0 <= i < 6 && d in bars[i] :: d
  {
    var fs := DailyFrames(bars, today, price);
    forall d | d in Dates(fs) ensures d == today || exists i :: 0 <= i < 6 && d in bars[i] {
      var i :| 0 <= i < |fs| && d in fs[i].rows;
      if i < 6 { TickerFrameShape(Tickers[i], bars[i]); }
    }
    forall i, d | 0 <= i < 6 && d in bars[i] ensures d in Dates(fs) {
      TickerFrameShape(Tickers[i], bars[i]);
      assert d in fs[i].rows;
    }
    assert today in fs[6].rows;
  }

  /** The tablon has exactly one row, dated `today`, exactly when no ticker
      has a bar for another day; a ticker whose bar is dated differently
      adds a second row. A ticker with no bar at all adds none. */
  lemma DailyOneRow(bars: seq<map<Date, Bar>>, today: Date, price: real)
    requires |bars| == |Tickers|
    ensures |Concat(DailyFrames(bars, today, price)).rows| == 1 <==>
            forall i :: 0 <= i < 6 ==> bars[i].Keys <= {today}
    ensures |Concat(DailyFrames(bars, today, price)).rows| == 1 ==>
            Concat(DailyFrames(bars, today, price)).rows.Keys == {today}
  {
    var keys := Concat(DailyFrames(bars, today, price)).rows.Keys;
    DailyDates(bars, today, price);
    assert today in keys;
    if |keys| == 1 {
      assert |keys - {today}| == 0;
      assert keys == {today};
    }
    if forall i :: 0 <= i < 6 ==> bars[i].Keys <= {today} {
      assert keys == {today};
    }
  }

  /** In the tablon of a daily run, ticker `i`'s columns hold its bar's
      close, `open - close`, `high - low` and the sign of the difference on
      every date it has a bar for, and NaN on the other dates; the spot
      column holds the spot price on `today`. */
  lemma DailyCells(bars: seq<map<Date, Bar>>, today: Date, price: real, i: nat, d: Date)
    requires |bars| == |Tickers| && i < |Tickers|
    requires d in Concat(DailyFrames(bars, today, price)).rows
    ensures var t, f := Tickers[i], Concat(DailyFrames(bars, today, price));
      if d in bars[i] then
        && Cell(f, d, t + "_close") == Some(Num(bars[i][d].close))
        && Cell(f, d, t + "_dif_apert_cierre") == Some(Num(bars[i][d].open - bars[i][d].close))
        && Cell(f, d, t + "_rango_dia") == Some(Num(bars[i][d].high - bars[i][d].low))
        && Cell(f, d, t + "_signo_dia") == Some(Text(Sign(bars[i][d].open - bars[i][d].close)))
      else
        && Cell(f, d, t + "_close") == Some(Missing)
        && Cell(f, d, t + "_dif_apert_cierre") == Some(Missing)
        && Cell(f, d, t + "_rango_dia") == Some(Missing)
        && Cell(f, d, t + "_signo_dia") == Some(Missing)
    ensures Cell(Concat(DailyFrames(bars, today, price)), d, SpotColumn) ==
            Some(if d == today then Num(price) else Missing)
  {
    var t, f := Tickers[i], Concat(DailyFrames(bars, today, price));
    var tf := TickerFrame(t, bars[i]);
    DailyTickerCell(bars, today, price, i, 0, d);
    DailyTickerCell(bars, today, price, i, 1, d);
    DailyTickerCell(bars, today, price, i, 2, d);
    DailyTickerCell(bars, today, price, i, 3, d);
    FeatureNamesSpelled(t);
    if d in bars[i] {
      TickerFrameShape(t, bars[i]);
      assert tf.rows[d] == FeatureCells(bars[i][d]);
    }
    DailySpotCell(bars, today, price, d);
  }

  lemma DailyTickerCell(bars: seq<map<Date, Bar>>, today: Date, price: real, i: nat, k: nat, d: Date)
    requires |bars| == |Tickers| && i < |Tickers| && k < |FeatureNames|
    requires d in Concat(DailyFrames(bars, today, price)).rows
    ensures Cell(Concat(DailyFrames(bars, today, price)), d, Tickers[i] + "_" + FeatureNames[k]) ==
            Some(RowAt(TickerFrame(Tickers[i], bars[i]), d)[k])
  {
    var t, fs := Tickers[i], DailyFrames(bars, today, price);
    var name := t + "_" + FeatureNames[k];
    DailyColumns(bars, today, price);
    TickerFrameIndex(t, bars[i], k);
    TickersDistinct();
    forall j | 0 <= j < 7 && j != i ensures name !in fs[j].columns {
      if j < 6 {
        TickerColumnsDisjoint(t, Tickers[j], name);
      } else {
        SpotColumnNotPrefixed(t);
      }
    }
    ConcatCell(fs, i, name, d);
  }

  lemma DailySpotCell(bars: seq<map<Date, Bar>>, today: Date, price: real, d: Date)
    requires |bars| == |Tickers|
    requires d in Concat(DailyFrames(bars, today, price)).rows
    ensures Cell(Concat(DailyFrames(bars, today, price)), d, SpotColumn) ==
            Some(if d == today then Num(price) else Missing)
  {
    var fs := DailyFrames(bars, today, price);
    DailyColumns(bars, today, price);
    forall j | 0 <= j < 6 ensures SpotColumn !in fs[j].columns {
      SpotColumnNotPrefixed(Tickers[j]);
    }
    ConcatCell(fs, 6, SpotColumn, d);
  }

  /** Six lists of four followed by a list of one, joined: 25 elements,
      element `k` of list `i` at `4 * i + k`, the single one last. */
  lemma {:induction false} FlattenDailyRow<T>(rs: seq<seq<T>>, i: nat, k: nat)
    requires |rs| == 7 && |rs[6]| == 1
    requires forall j :: 0 <= j < 6 ==> |rs[j]| == 4
    requires i < 6 && k < 4
    ensures |Flatten(rs)| == 25
    ensures Flatten(rs)[4 * i + k] == rs[i][k]
    ensures Flatten(rs)[24] == rs[6][0]
  {
    assert rs == rs[..6] + [rs[6]];
    FlattenAppend(rs[..6], [rs[6]]);
    assert Flatten([rs[6]]) == rs[6] + Flatten([rs[6]][1..]);
    FlattenFours(rs[..6], i, k);
  }

  /** The row of the daily tablon at any date: 25 cells, ticker `i`'s four
      cells at `4 * i` to `4 * i + 3`, the spot cell last. */
  lemma DailyRow(bars: seq<map<Date, Bar>>, today: Date, price: real, d: Date, i: nat, k: nat)
    requires |bars| == |Tickers| && i < |Tickers| && k < |FeatureNames|
    ensures |RowAt(Concat(DailyFrames(bars, today, price)), d)| == 25
    ensures RowAt(Concat(DailyFrames(bars, today, price)), d)[4 * i + k] ==
            RowAt(TickerFrame(Tickers[i], bars[i]), d)[k]
    ensures RowAt(Concat(DailyFrames(bars, today, price)), d)[24] ==
            RowAt(SpotFrame(today, price), d)[0]
  {
    var fs := DailyFrames(bars, today, price);
    var rs := RowsAt(fs, d);
    assert RowAt(Concat(fs), d) == Flatten(rs) by { ConcatRowAt(fs, d); }
    assert forall j :: 0 <= j < 6 ==> |rs[j]| == 4 by {
      forall j | 0 <= j < 6 ensures |rs[j]| == 4 {
        TickerFrameShape(Tickers[j], bars[j]);
      }
    }
    FlattenDailyRow(rs, i, k);
  }
}
