# Daily Nasdaq/Bitcoin ledger: transform and load, modelled in Dafny

The job runs once a day. It fetches one OHLC bar for each of six Nasdaq
tickers (NVDA, TSLA, MSFT, AMZN, AMD, INTC) and the Bitcoin spot price. It
turns them into one wide "tablon" row and appends that row to the SQL Server
table `btcvalores`. This project models the two steps that have logic of
their own:

- **transform** (`transform` in flow_caso.py; the script transform.py runs the
  same loop). For each ticker it derives `dif_apert_cierre = open - close`,
  `rango_dia = high - low` and the sign `signo_dia`. It then keeps
  `close, dif_apert_cierre, rango_dia, signo_dia`, prefixes each name with the
  ticker and `_`, and writes the frame back into the `raw_dfs` dictionary. The
  spot entry `btc_usd` is not touched. Finally all entries are joined
  column-wise.
- **load** (`load` in flow_caso.py), over an abstract table. The steps are:
  1. the row-count gate;
  2. the `CREATE TABLE ... IF NOT EXISTS` with its fixed 25-slot layout;
  3. the duplicate check on `today`;
  4. one INSERT per tablon row, after `fecha` has been added to the tablon.
  The place of the date in the inserted values is a parameter (`Layout`):
  `FechaLast` is the code as written, `FechaFirst` the layout the table
  declares.

The modules are:

- `Frames` (frames.dfy): a data frame is a list of column names plus a
  date-keyed map of rows. `Concat` models `pd.concat(..., axis=1)`.
- `Features` (features.dfy): the per-ticker feature frame.
- `Transform` (transform.dfy): the `raw_dfs` dictionary as a class
  (`FrameDict`) and the loop as a method (`Transform`). The method is proved
  against the functions `Rewrite` and `Tablon`. The `Daily*` lemmas follow a
  run on the dictionary that the extract step builds.
- `Ledger` (ledger.dfy): the table as a class (`Database`) whose methods run
  the three statements, and the load step as a method (`Load`). `Load` is
  proved against the function `LoadSpec`.

Dates are day numbers and prices are exact reals.

Four behaviours of the code that are easy to miss; the model follows the
code:

- **Outer join.** `pd.concat` joins on the union of the dates (outer join,
  pandas' default), not the intersection. A ticker with no bar that day (a
  holiday) adds no row. The spot frame is always dated `today`, so such a day
  still yields exactly one row. It passes the gate with NaN features instead
  of being skipped (`Transform.DailyOneRow`). `row.tolist()` sends those NaN
  cells as float NaN, not NULL, and the server refuses them, so even with
  the date first such a day fails at the INSERT (`Ledger.LoadTodayGap`,
  `Ledger.DailyLoad`).
- **No schema check.** The code never compares an existing table's columns
  with the tablon. `IF NOT EXISTS` leaves any existing table as it is. The
  first mismatch anyone sees is the server rejecting the INSERT
  (`InsertError.ColumnCount`).
- **Duplicate check and key use different dates.** The duplicate check looks
  for `today`, but the key is the row's own index date. With the date first,
  `load` called on a one-row tablon dated another day would store it under
  that day, and a rerun would then hit the primary key instead of the
  duplicate check (`Ledger.StaleRowRerun`). A daily run cannot build such a
  tablon: its one row is always dated `today` (`Transform.DailyOneRow`).
- **`fecha` goes last.** `fecha` is appended as the last value, but the table
  declares it first. As written, the first tablon cell lands in the DATE key
  and the date lands in the last DECIMAL column, so the tuple never matches
  the declared types (`Ledger.WrittenTupleMisplaced`) and the server rejects
  every INSERT into a table this code created: as written, the load step
  never stores a row (`Ledger.WrittenLoadNeverStores`). The date-first layout
  of the commented-out line 128 matches the types (`Ledger.FechaFirstFits`)
  and stores the row under its date (`Ledger.LoadToday`). See "Findings".

## Model

| member | source | states |
|---|---|---|
| Frames.IndexOf | flow_caso.py:52 | selecting a column by label finds the first position holding the label; the frames looked up here have distinct labels |
| Frames.Concat | flow_caso.py:58-59 | the joined frame's columns are every frame's columns in order; its index is the union of all frames' dates; well-formed frames give a well-formed frame |
| Frames.ConcatCell | flow_caso.py:58-59 | a column that only one frame contributes reads that frame's cell at every joined date, and NaN at a date the frame lacks |
| Frames.ConcatRowAt | transform.py:25-26 | the joined row at a date is every frame's row at that date, in order, with NaNs for frames without that date |
| Features.Sign | flow_caso.py:49-50 | `'+'` exactly when the difference is > 0, `'-'` exactly when it is < 0, `'0'` exactly when it is 0; nothing else |
| Features.TickerFrameShape | flow_caso.py:52-53 | a transformed ticker frame has exactly `t_close, t_dif_apert_cierre, t_rango_dia, t_signo_dia`, in that order, one row per bar date, four cells per row |
| Features.TickerFrameCells | flow_caso.py:47-53 | by name, the frame holds the close, `open - close`, `high - low` and the sign of `open - close` of each day's bar |
| Features.TickerFrameIndex | transform.py:19-20 | each of the four prefixed names is found at its own position |
| Features.PrefixedNameInjective | flow_caso.py:53 | a prefixed feature name determines both its ticker and its feature |
| Features.TickerColumnsDisjoint | transform.py:20 | two different tickers never share a column name |
| Features.SpotColumnNotPrefixed | flow_caso.py:34-37 | no ticker column is called `btc_usd` |
| Transform.Rewrite | transform.py:12-22 | the loop never adds or removes a dictionary key, and leaves every entry not named in `tickers` (such as `btc_usd`) as it was |
| Transform.RewriteStaysStopped | flow_caso.py:46 | once a ticker raises, later tickers change nothing |
| Transform.Transform | flow_caso.py:43-61 | the loop rewrites the dictionary in place to `Rewrite` of its old entries, keeps its key order, and returns the join of all entries in key order, or the KeyError / empty-concat error |
| Transform.RewriteComplete | flow_caso.py:45-55 | the loop finishes exactly when every ticker is present with OHLC columns and none is listed twice; then each ticker's entry is its feature frame built from its original bars |
| Transform.TickersDistinct | flow_caso.py:141 | the six tickers are distinct and none is `btc_usd` |
| Transform.TablonColumnsLayout | flow_caso.py:73-104 | the tablon has 4 * 6 + 1 = 25 columns: column `4 * i + k` is feature `k` of ticker `i`, the last is `btc_usd`; this matches the 25 slots of CREATE TABLE |
| Transform.DailyRewrite | flow_caso.py:45 | on the extracted dictionary the loop finishes; the six feature frames come first, then the untouched spot frame |
| Transform.DailyTablon | transform.py:26 | the tablon of a daily run is the join of the six feature frames and the spot frame |
| Transform.DailyColumns | flow_caso.py:59 | the daily tablon's columns are exactly the 25 tablon columns, and every row has 25 cells |
| Transform.DailyDates | flow_caso.py:33-37 | the daily tablon's index is `today` plus every date some ticker has a bar for |
| Transform.DailyOneRow | flow_caso.py:66-68 | the daily tablon has exactly one row iff no ticker has a bar dated other than `today`; that row is `today`, even when tickers have no bar at all |
| Transform.DailyCells | flow_caso.py:47-59 | by name, the daily tablon holds each ticker's four features on its bar dates and NaN elsewhere, and the spot price on `today` |
| Transform.DailyRow | flow_caso.py:59 | each row of the daily tablon, before `fecha` is added, has 25 cells: ticker `i`'s feature `k` at `4 * i + k`, the spot price last |
| Ledger.SlotTypesLayout | flow_caso.py:78-102 | slot `4 * i + k` has ticker type `k` (DECIMAL, DECIMAL, DECIMAL, VARCHAR only for `signo_dia`); the 25th slot is DECIMAL |
| Ledger.CreateSchema | flow_caso.py:73-104 | fewer than 25 tablon columns make `format` fail; otherwise the table is `fecha DATE` first, then slot `k` named after tablon column `k` with its slot type |
| Ledger.Created | flow_caso.py:75-76 | an existing table is left as it is (so creating twice is creating once); otherwise an empty table with the layout is created |
| Ledger.InsertRow | flow_caso.py:77-133 | the INSERT stores the values under the date in the first value (the primary key) exactly when there are 26 values, they match the table's columns in number and type, and that first value is a date not yet stored; otherwise nothing changes, and with 26 values for 26 columns of the wrong types the error is a type mismatch |
| Ledger.Database.CreateIfAbsent | flow_caso.py:115-116 | the table afterwards is `Created` of the table before |
| Ledger.Database.HasRecord | flow_caso.py:119-123 | the SELECT returns a row exactly when the date is stored |
| Ledger.Database.Insert | flow_caso.py:132-135 | the table afterwards and the error are those of `InsertRow` |
| Ledger.WithFechaCells | flow_caso.py:129 | after `tablon['fecha'] = tablon.index` each row holds its own date under `fecha`, and every other column and every date are unchanged |
| Ledger.LoadSpec | flow_caso.py:65-135 | no table action unless the tablon has exactly one row and at least 25 columns; a duplicate leaves the rows unchanged; stored rows are never changed or removed; the rows change iff a row is inserted, and then exactly one new row is stored: the tablon row's values with the date placed as the layout says, matching the table's types, under the date in its first value |
| Ledger.Load | flow_caso.py:65-137 | the load step leaves the table and returns the outcome that `LoadSpec` gives for the table before |
| Ledger.LoadTwice | flow_caso.py:119-129 | with the date first, a run that inserted a row dated `today`, repeated, stops at the duplicate check and changes nothing |
| Ledger.StaleRowRerun | flow_caso.py:119-129 | with the date first, a row dated other than `today` is inserted under its own date, `today` stays absent, and rerunning fails on the primary key instead of being caught as a duplicate |
| Ledger.WrittenTupleMisplaced | flow_caso.py:77-133 | the inserted tuple has the 25 cells first and the date last; the DATE key receives the first cell and the last DECIMAL column receives the date, so the tuple does not match the types of a table this code creates |
| Ledger.WrittenLoadNeverStores | flow_caso.py:65-135 | as written, on a table this code created or is about to create, a tablon without `fecha` never gets a row stored; a one-row, 25-column tablon dated a new day fails the INSERT on the column types |
| Ledger.FechaNotInTablon | flow_caso.py:129 | no tablon column is called `fecha`, so adding it appends a 26th value |
| Ledger.DailySchema | flow_caso.py:73-104 | on the daily tablon, CREATE declares feature `k` of ticker `i` at position `1 + 4 * i + k` with its type, and `btc_usd DECIMAL` last |
| Ledger.FechaFirstFits | flow_caso.py:128 | with the date first, on a day every ticker has a bar, the daily tablon's row `today` matches the declared types |
| Ledger.DailyGapCell | flow_caso.py:58-59 | on a day ticker `i` has no bar, the outer join leaves that ticker's first cell in the row `today` as NaN |
| Ledger.NaNRefused | flow_caso.py:131-133 | a tuple holding a NaN cell matches no table's column types, since NaN is sent as a float the server refuses |
| Ledger.LoadToday | flow_caso.py:66-135 | for a tablon of 25 columns without `fecha` whose one row is dated `today`: Duplicate under both layouts if `today` is stored; otherwise, on a table this code created or is about to create, the code as written creates the table and fails on the types, and the date-first layout, when every cell fits its slot type, stores the date followed by the 25 cells under `today` |
| Ledger.LoadTodayGap | flow_caso.py:128-133 | with the date first, such a tablon whose row holds a NaN cell fails the INSERT on the types, after the table is created if absent |
| Ledger.DailyLoad | flow_caso.py:141-147 | a daily run whose bars are all dated `today` (or missing) has one 25-cell row dated `today`; both layouts are Duplicate if `today` is stored; otherwise, on a table this code created or is about to create, as written the INSERT fails on the types and stores nothing; with the date first the row is stored under `today` when every ticker has a bar that day, and the INSERT fails, storing nothing, when some ticker has none |

## Findings

| source | as written | input that shows it | evidently intended | confidence | as-written member | corrected member |
|---|---|---|---|---|---|---|
| flow_caso.py:77, 128-133 | `tablon['fecha'] = tablon.index` appends the date as the 26th value, while CREATE TABLE declares `fecha DATE PRIMARY KEY` first | any daily run on a fresh table: `NVDA_close` (a float) goes to the DATE key and the date goes to the DECIMAL `btc_usd`, so the INSERT fails | the row's index date as the first value, the position where the commented-out `tablon.insert(0, 'fecha', today)` of line 128 puts the date | high; not executed | Ledger.WrittenLoadNeverStores | Ledger.LoadToday |

## Left out

- Fetching the data is not modelled: the market-data and spot-price HTTP calls and the JSON parsing (flow_caso.py:17-39, extract.py). The bars and the spot price are parameters of the `Daily*` lemmas.
- The pyodbc connection, cursors, commits, server name and credentials (flow_caso.py:106-116, 135-137). The table is an abstract state that each statement changes at once, and a failed statement raises and ends the run.
- SQL text is not modelled: the statements are their effect. Bracket quoting of column names, and names that would break it, are left out. So is SQL Server's rejection of duplicate column names in CREATE TABLE.
- Ledger.Fits: the server's implicit conversions are not modelled. A value fits a column only when its kind matches the declared type. NaN fits no column: `row.tolist()` sends it as a float NaN, which the server refuses as a parameter. SQL Server would also accept, for instance, a number into a VARCHAR column. It refuses the two placements the code as written makes, a float into DATE and a timestamp into DECIMAL.
- Ledger.InsertRow: a table whose key column is not a DATE is outside the model. Such a key is rejected as `KeyNotDate` rather than stored.
- Ledger.Tuple: with `FechaFirst`, the date is placed first whatever the tablon's columns. pandas `insert` would raise on a tablon that already has a `fecha` column; that case is not modelled.
- `VARCHAR` without a length holds one character. `DECIMAL(20,2)` rounds. Prices are exact reals with no floating-point or rounding behaviour, and a NaN price is not represented.
- Dates are day numbers. Time zones, times of day on the index and the `'%Y-%m-%d'` string of `today` are not modelled. Two timestamps on the same calendar day therefore count as one date here.
- General pandas: a frame is columns plus date-keyed rows. The index order of the join is not modelled (rows form a map), and neither is column order inside a bar beyond the four OHLC columns.
- Transform.Transform: each ticker's raw frame gets the three derived columns in place before the projection. The model replaces the entry by its projected frame and does not follow that mutation through aliases. transform.py's shallow `raw_dfs.copy()` shares those frames with the extract module.
- Transform.Transform: a non-OHLC entry is taken to lack `open`, so visiting it raises KeyError(`MissingColumn`).
- The `today` parameter of `transform` is unused by the code and is not a parameter of the model.
- `tablon['fecha'] = tablon.index` also mutates the caller's frame; the model computes the extended frame as a value.
- Console output (`print`) and the Prefect task/flow wiring (flow_caso.py:140-149) are not modelled.
- load.py is not part of this model: it is a copy of the load step with its gates commented out.
