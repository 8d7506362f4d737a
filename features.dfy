/** The per-ticker feature engineering of the daily job: from one OHLC bar
    it derives the open-close difference, the day's range and the sign of the
    difference, keeps four columns and prefixes them with the ticker. */
module Features {
  import opened Frames

  /** One day's OHLC bar of an equity ticker, as the market-data source
      returns it after its columns are lower-cased and projected. */
  datatype Bar = Bar(open: real, high: real, low: real, close: real)

  /** The columns a ticker frame is projected to, in order. */
  const FeatureNames: seq<string> := ["close", "dif_apert_cierre", "rango_dia", "signo_dia"]

  /** The name of the spot column that the Bitcoin entry carries. */
  const SpotColumn: string := "btc_usd"

  /** `signo_dia`: the sign of the open-close difference by strict comparison
      with zero, no tolerance. */
  function Sign(diff: real): (s: string)
    ensures s == "+" <==> diff > 0.0
    ensures s == "-" <==> diff < 0.0
    ensures s == "0" <==> diff == 0.0
    ensures s == "+" || s == "-" || s == "0"
  {
    if diff > 0.0 then "+" else if diff < 0.0 then "-" else "0"
  }

  /** Renames every column `x` to `ticker + '_' + x`. */
  function Prefixed(ticker: string, names: seq<string>): seq<string>
  {
    seq(|names|, i requires 0 <= i < |names| => ticker + "_" + names[i])
  }

  /** The four feature cells of one bar, in the order of `FeatureNames`. */
  function FeatureCells(b: Bar): seq<Value>
  {
    var diff := b.open - b.close;
    [Num(b.close), Num(diff), Num(b.high - b.low), Text(Sign(diff))]
  }

  /** A ticker's frame after the feature step: derived columns added,
      projected to `FeatureNames`, renamed with the ticker prefix. */
  function TickerFrame(ticker: string, bars: map<Date, Bar>): Frame
  {
    Frame(Prefixed(ticker, FeatureNames), map d | d in bars :: FeatureCells(bars[d]))
  }

  /** The transformed ticker frame has exactly the four prefixed columns in
      order, one row per bar date, and one cell per column in each row. */
  lemma TickerFrameShape(ticker: string, bars: map<Date, Bar>)
    ensures TickerFrame(ticker, bars).columns ==
      [ticker + "_close", ticker + "_dif_apert_cierre", ticker + "_rango_dia", ticker + "_signo_dia"]
    ensures TickerFrame(ticker, bars).rows.Keys == bars.Keys
    ensures TickerFrame(ticker, bars).WellFormed()
  {
    var cols := Prefixed(ticker, FeatureNames);
    assert |cols| == 4;
    assert cols[0] == ticker + "_close" && cols[1] == ticker + "_dif_apert_cierre";
    assert cols[2] == ticker + "_rango_dia" && cols[3] == ticker + "_signo_dia";
  }

  predicate EndsWith(x: string, suffix: string) {
    |suffix| <= |x| && x[|x| - |suffix|..] == suffix
  }

  /** No feature name ends in `_` followed by a feature name; this is why
      prefixed names of different tickers cannot meet. */
  lemma NoFeatureEndsWithAnother(x1: string, x2: string)
    requires x1 in FeatureNames && x2 in FeatureNames
    ensures !EndsWith(x1, "_" + x2)
  {
    var n := |x2| + 1;
    if n <= |x1| {
      // The only candidates are a long x1 and a short x2, and in each the
      // character where the `_` would have to stand is a letter.
      assert x1 == "dif_apert_cierre" || x1 == "rango_dia" || x1 == "signo_dia";
      assert x2 == "close" || x2 == "rango_dia" || x2 == "signo_dia";
      assert x1[|x1| - n] != '_';
      assert (x1[|x1| - n..])[0] != ("_" + x2)[0];
    }
  }

  /** A prefixed feature name determines both its ticker and its feature. */
  lemma PrefixedNameInjective(t1: string, x1: string, t2: string, x2: string)
    requires x1 in FeatureNames && x2 in FeatureNames
    requires t1 + "_" + x1 == t2 + "_" + x2
    ensures t1 == t2 && x1 == x2
  {
    if |t1| == |t2| {
      var s := t1 + "_" + x1;
      assert t1 == s[..|t1|] == t2;
      assert x1 == s[|t1| + 1..] == x2;
    } else if |t1| < |t2| {
      SuffixOfLonger(t1, x1, t2, x2);
      NoFeatureEndsWithAnother(x1, x2);
    } else {
      SuffixOfLonger(t2, x2, t1, x1);
      NoFeatureEndsWithAnother(x2, x1);
    }
  }

  lemma SuffixOfLonger(t1: string, x1: string, t2: string, x2: string)
    requires t1 + "_" + x1 == t2 + "_" + x2 && |t1| < |t2|
    ensures EndsWith(x1, "_" + x2)
  {
    var s := t1 + "_" + x1;
    var n := |x2| + 1;
    assert s[|s| - n..] == "_" + x2;
    assert x1 == s[|t1| + 1..];
    assert x1[|x1| - n..] == s[|s| - n..];
  }

  /** Distinct tickers never share a column name. */
  lemma TickerColumnsDisjoint(t1: string, t2: string, name: string)
    requires t1 != t2
    requires name in Prefixed(t1, FeatureNames)
    ensures name !in Prefixed(t2, FeatureNames)
  {
    var i :| 0 <= i < 4 && Prefixed(t1, FeatureNames)[i] == name;
    if name in Prefixed(t2, FeatureNames) {
      var j :| 0 <= j < 4 && Prefixed(t2, FeatureNames)[j] == name;
      PrefixedNameInjective(t1, FeatureNames[i], t2, FeatureNames[j]);
    }
  }

  /** No ticker column is called like the spot column. */
  lemma SpotColumnNotPrefixed(ticker: string)
    ensures SpotColumn !in Prefixed(ticker, FeatureNames)
  {
    forall i | 0 <= i < 4 ensures Prefixed(ticker, FeatureNames)[i] != SpotColumn {
      // Every feature name ends in a vowel, the spot column in 'd'.
      var x := FeatureNames[i];
      var name := ticker + "_" + x;
      assert name[|name| - 1] == x[|x| - 1] != 'd';
    }
  }

  /** Each prefixed feature name is found at its own position: the four
      names of one ticker are pairwise different. */
  lemma TickerFrameIndex(ticker: string, bars: map<Date, Bar>, k: nat)
    requires k < |FeatureNames|
    ensures ticker + "_" + FeatureNames[k] in TickerFrame(ticker, bars).columns
    ensures IndexOf(TickerFrame(ticker, bars).columns, ticker + "_" + FeatureNames[k]) == k
  {
    var cols := TickerFrame(ticker, bars).columns;
    TickerFrameShape(ticker, bars);
    forall j | 0 <= j < k ensures cols[j] != cols[k] {
      if cols[j] == cols[k] {
        PrefixedNameInjective(ticker, FeatureNames[j], ticker, FeatureNames[k]);
      }
    }
    assert cols[k] == ticker + "_" + FeatureNames[k];
    var i := IndexOf(cols, cols[k]);
    assert i <= k;
  }

  lemma FeatureNamesSpelled(ticker: string)
    ensures ticker + "_" + FeatureNames[0] == ticker + "_close"
    ensures ticker + "_" + FeatureNames[1] == ticker + "_dif_apert_cierre"
    ensures ticker + "_" + FeatureNames[2] == ticker + "_rango_dia"
    ensures ticker + "_" + FeatureNames[3] == ticker + "_signo_dia"
  {
  }

  /** Looking the features up by name in a transformed ticker frame gives
      the close, `open - close`, `high - low` and the sign of the
      difference. */
  lemma TickerFrameCells(ticker: string, bars: map<Date, Bar>, d: Date)
    requires d in bars
    ensures Cell(TickerFrame(ticker, bars), d, ticker + "_close") == Some(Num(bars[d].close))
    ensures Cell(TickerFrame(ticker, bars), d, ticker + "_dif_apert_cierre") ==
            Some(Num(bars[d].open - bars[d].close))
    ensures Cell(TickerFrame(ticker, bars), d, ticker + "_rango_dia") ==
            Some(Num(bars[d].high - bars[d].low))
    ensures Cell(TickerFrame(ticker, bars), d, ticker + "_signo_dia") ==
            Some(Text(Sign(bars[d].open - bars[d].close)))
  {
    var f := TickerFrame(ticker, bars);
    TickerFrameShape(ticker, bars);
    TickerFrameIndex(ticker, bars, 0);
    TickerFrameIndex(ticker, bars, 1);
    TickerFrameIndex(ticker, bars, 2);
    TickerFrameIndex(ticker, bars, 3);
    FeatureNamesSpelled(ticker);
  }
}
