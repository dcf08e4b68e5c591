/** `utils/data_processor.py`: the `DataProcessor` analysis pipeline over a price table.
    A DataFrame is a `Frame` object holding its column names and its rows; the static methods
    change the frame they are given, as the source's in-place column assignments do. */
module DataProcessor {
  import opened Common
  import opened Dates
  import opened Sorting

  // ---------------------------------------------------------------- cells and columns

  /** A DataFrame cell: missing (NaN, NaT, None), a number, a date, or text that neither
      `to_numeric` nor `to_datetime` can read. */
  datatype Cell = Missing | Num(x: real) | Day(d: Date) | Text(s: string)

  type Row = map<string, Cell>

  /** `pd.to_numeric(..., errors='coerce')` on one cell. */
  function NumCell(c: Cell): (r: Cell)
    ensures r.Num? <==> c.Num?
    ensures r.Missing? || r == c
    ensures !c.Num? ==> r == Missing
  {
    if c.Num? then c else Missing
  }

  /** `pd.to_datetime(..., errors='coerce')` on one cell. */
  function DateCell(c: Cell): (r: Cell)
    ensures r.Day? <==> c.Day?
    ensures r.Missing? || r == c
    ensures !c.Day? ==> r == Missing
  {
    if c.Day? then c else Missing
  }

  function AsNumber(c: Cell): Option<real> {
    if c.Num? then Some(c.x) else None
  }

  function OfNumber(o: Option<real>): Cell {
    if o.Some? then Num(o.value) else Missing
  }

  ghost predicate HasColumn(rows: seq<Row>, name: string) {
    forall i :: 0 <= i < |rows| ==> name in rows[i]
  }

  /** A column read as numbers, missing where a cell is not numeric. */
  function Series(rows: seq<Row>, name: string): (s: seq<Option<real>>)
    requires HasColumn(rows, name)
    ensures |s| == |rows|
    ensures forall i :: 0 <= i < |rows| ==> s[i] == AsNumber(rows[i][name])
  {
    seq(|rows|, i requires 0 <= i < |rows| => AsNumber(rows[i][name]))
  }

  /** `pd.to_numeric(df[name], errors='coerce')` as a column. */
  function NumColumn(rows: seq<Row>, name: string): (c: seq<Cell>)
    requires HasColumn(rows, name)
    ensures |c| == |rows|
    ensures forall i :: 0 <= i < |rows| ==> c[i] == NumCell(rows[i][name])
  {
    seq(|rows|, i requires 0 <= i < |rows| => NumCell(rows[i][name]))
  }

  // ---------------------------------------------------------------- rolling means

  function CountPresent(s: seq<Option<real>>): nat {
    if |s| == 0 then 0 else (if s[0].Some? then 1 else 0) + CountPresent(s[1..])
  }

  function SumPresent(s: seq<Option<real>>): real {
    if |s| == 0 then 0.0 else s[0].GetOr(0.0) + SumPresent(s[1..])
  }

  /** The smallest present value. */
  function MinPresent(s: seq<Option<real>>): (m: real)
    requires CountPresent(s) >= 1
    ensures exists k :: 0 <= k < |s| && s[k] == Some(m)
    ensures forall k :: 0 <= k < |s| && s[k].Some? ==> m <= s[k].value
  {
    if s[0].Some? && CountPresent(s[1..]) == 0 then
      assert forall k :: 1 <= k < |s| ==> s[k] == s[1..][k - 1];
      NoneWhenCountZero(s[1..]);
      s[0].value
    else if s[0].None? then
      var m := MinPresent(s[1..]);
      assert forall k :: 1 <= k < |s| ==> s[k] == s[1..][k - 1];
      m
    else
      var m := MinPresent(s[1..]);
      assert forall k :: 1 <= k < |s| ==> s[k] == s[1..][k - 1];
      if s[0].value <= m then s[0].value else m
  }

  /** The largest present value. */
  function MaxPresent(s: seq<Option<real>>): (m: real)
    requires CountPresent(s) >= 1
    ensures exists k :: 0 <= k < |s| && s[k] == Some(m)
    ensures forall k :: 0 <= k < |s| && s[k].Some? ==> s[k].value <= m
  {
    if s[0].Some? && CountPresent(s[1..]) == 0 then
      assert forall k :: 1 <= k < |s| ==> s[k] == s[1..][k - 1];
      NoneWhenCountZero(s[1..]);
      s[0].value
    else if s[0].None? then
      var m := MaxPresent(s[1..]);
      assert forall k :: 1 <= k < |s| ==> s[k] == s[1..][k - 1];
      m
    else
      var m := MaxPresent(s[1..]);
      assert forall k :: 1 <= k < |s| ==> s[k] == s[1..][k - 1];
      if s[0].value >= m then s[0].value else m
  }

  lemma {:induction false} NoneWhenCountZero(s: seq<Option<real>>)
    ensures CountPresent(s) == 0 <==> forall k :: 0 <= k < |s| ==> s[k].None?
  {
    if |s| > 0 {
      NoneWhenCountZero(s[1..]);
      assert forall k :: 1 <= k < |s| ==> s[k] == s[1..][k - 1];
    }
  }

  /** A lower bound on the present values bounds their sum from below. */
  lemma {:induction false} SumAtLeast(s: seq<Option<real>>, lo: real)
    requires forall k :: 0 <= k < |s| && s[k].Some? ==> lo <= s[k].value
    ensures lo * (CountPresent(s) as real) <= SumPresent(s)
  {
    if |s| > 0 {
      var t := s[1..];
      assert forall k :: 0 <= k < |t| ==> t[k] == s[k + 1];
      SumAtLeast(t, lo);
      var c := CountPresent(t) as real;
      if s[0].Some? {
        assert CountPresent(s) as real == c + 1.0;
        OneMore(lo, c);
      }
    }
  }

  /** An upper bound on the present values bounds their sum from above. */
  lemma {:induction false} SumAtMost(s: seq<Option<real>>, hi: real)
    requires forall k :: 0 <= k < |s| && s[k].Some? ==> s[k].value <= hi
    ensures SumPresent(s) <= hi * (CountPresent(s) as real)
  {
    if |s| > 0 {
      var t := s[1..];
      assert forall k :: 0 <= k < |t| ==> t[k] == s[k + 1];
      SumAtMost(t, hi);
      var c := CountPresent(t) as real;
      if s[0].Some? {
        assert CountPresent(s) as real == c + 1.0;
        OneMore(hi, c);
      }
    }
  }

  lemma OneMore(a: real, c: real)
    ensures a * (c + 1.0) == a * c + a
  {
  }

  /** A sum bounded by `lo * c` and `hi * c` gives a mean between `lo` and `hi`. */
  lemma MeanBetween(sum: real, c: real, lo: real, hi: real)
    requires c > 0.0 && lo * c <= sum <= hi * c
    ensures lo <= sum / c <= hi
  {
    var m := sum / c;
    assert m * c == sum;
    assert (m - lo) * c >= 0.0;
    assert (hi - m) * c >= 0.0;
  }

  /** First row of the window `rolling(window=w)` uses at row `i`: `max(0, i - w + 1)`. */
  function WindowStart(w: nat, i: nat): nat {
    if i + 1 >= w then i + 1 - w else 0
  }

  function Window(xs: seq<Option<real>>, w: nat, i: nat): (win: seq<Option<real>>)
    requires i < |xs|
  {
    xs[WindowStart(w, i)..i + 1]
  }

  /** `rolling(window=w, min_periods=1).mean()` at row `i`: the mean of the present values among
      the last `w` rows up to `i`, missing when there is none. */
  function RollingMean(xs: seq<Option<real>>, w: nat, i: nat): (m: Option<real>)
    requires i < |xs|
    ensures m.Some? <==> CountPresent(Window(xs, w, i)) >= 1
    ensures m.Some? ==> m.value * (CountPresent(Window(xs, w, i)) as real) == SumPresent(Window(xs, w, i))
  {
    var win := Window(xs, w, i);
    if CountPresent(win) >= 1 then Some(SumPresent(win) / (CountPresent(win) as real)) else None
  }

  /** The moving average is defined exactly when its window holds a present value. */
  lemma RollingMeanDefined(xs: seq<Option<real>>, w: nat, i: nat)
    requires i < |xs|
    ensures RollingMean(xs, w, i).Some? <==> exists j :: WindowStart(w, i) <= j <= i && xs[j].Some?
  {
    var win := Window(xs, w, i);
    var lo := WindowStart(w, i);
    NoneWhenCountZero(win);
    if CountPresent(win) == 0 {
      forall j | lo <= j <= i ensures xs[j].None? {
        assert xs[j] == win[j - lo];
      }
    } else {
      var k :| 0 <= k < |win| && win[k].Some?;
      assert xs[lo + k] == win[k];
    }
  }

  /** Bounds on the present values bound their mean. */
  lemma MeanWithin(s: seq<Option<real>>, lo: real, hi: real)
    requires CountPresent(s) >= 1
    requires forall k :: 0 <= k < |s| && s[k].Some? ==> lo <= s[k].value <= hi
    ensures lo <= SumPresent(s) / (CountPresent(s) as real) <= hi
  {
    SumAtLeast(s, lo);
    SumAtMost(s, hi);
    MeanBetween(SumPresent(s), CountPresent(s) as real, lo, hi);
  }

  /** The mean of the present values lies between the smallest and the largest of them. */
  lemma MeanOfPresentBounds(s: seq<Option<real>>)
    requires CountPresent(s) >= 1
    ensures MinPresent(s) <= SumPresent(s) / (CountPresent(s) as real) <= MaxPresent(s)
  {
    MeanWithin(s, MinPresent(s), MaxPresent(s));
  }

  /** A defined moving average lies between the smallest and the largest value of its window. */
  lemma RollingMeanBounds(xs: seq<Option<real>>, w: nat, i: nat)
    requires i < |xs| && RollingMean(xs, w, i).Some?
    ensures MinPresent(Window(xs, w, i)) <= RollingMean(xs, w, i).value <= MaxPresent(Window(xs, w, i))
  {
    MeanOfPresentBounds(Window(xs, w, i));
  }

  /** A window whose present values are all equal averages to that value. */
  lemma RollingMeanOfConstant(xs: seq<Option<real>>, w: nat, i: nat, v: real)
    requires w >= 1 && i < |xs| && xs[i] == Some(v)
    requires forall j :: 0 <= j < |xs| && xs[j].Some? ==> xs[j].value == v
    ensures RollingMean(xs, w, i) == Some(v)
  {
    RollingMeanDefined(xs, w, i);
    assert WindowStart(w, i) <= i && xs[i].Some?;
    RollingMeanBounds(xs, w, i);
    var win := Window(xs, w, i);
    assert win[|win| - 1] == Some(v);
    assert MinPresent(win) == v && MaxPresent(win) == v;
  }

  // ---------------------------------------------------------------- percentage changes

  /** The last present value at or before row `i` (the forward fill `pct_change` applies first). */
  function FilledAt(xs: seq<Option<real>>, i: nat): (r: Option<real>)
    requires i < |xs|
    ensures xs[i].Some? ==> r == xs[i]
    ensures r.Some? ==> exists j :: 0 <= j <= i && xs[j] == r
  {
    if xs[i].Some? then xs[i] else if i == 0 then None else FilledAt(xs, i - 1)
  }

  /** The forward fill yields the last present value at or before row `i`, and nothing only
      when every row up to `i` is missing. */
  lemma {:induction false} FilledAtIsLastPresent(xs: seq<Option<real>>, i: nat)
    requires i < |xs|
    ensures FilledAt(xs, i).Some? ==>
              exists j :: 0 <= j <= i && xs[j] == FilledAt(xs, i) && forall k :: j < k <= i ==> xs[k].None?
    ensures FilledAt(xs, i).None? <==> forall k :: 0 <= k <= i ==> xs[k].None?
  {
    if xs[i].None? && i > 0 {
      FilledAtIsLastPresent(xs, i - 1);
    }
  }

  /** `pct_change(periods=p) * 100` at row `i`: missing for the first `p` rows; otherwise the
      relative change from `p` rows back, in percent. A zero base (an infinite or undefined
      quotient) is missing too. */
  function PctChange(xs: seq<Option<real>>, p: nat, i: nat): (r: Option<real>)
    requires i < |xs|
    ensures i < p ==> r.None?
    ensures r.Some? ==> && i >= p && FilledAt(xs, i).Some? && FilledAt(xs, i - p).Some?
                        && FilledAt(xs, i - p).value != 0.0
                        && FilledAt(xs, i).value == FilledAt(xs, i - p).value * (1.0 + r.value / 100.0)
  {
    if i < p then None
    else
      var cur, base := FilledAt(xs, i), FilledAt(xs, i - p);
      if cur.Some? && base.Some? && base.value != 0.0 then
        ChangeRecoversPrice(cur.value, base.value);
        Some((cur.value / base.value - 1.0) * 100.0)
      else None
  }

  /** A relative change in percent, applied to its base, gives back the new value. */
  lemma ChangeRecoversPrice(a: real, b: real)
    requires b != 0.0
    ensures a == b * (1.0 + ((a / b - 1.0) * 100.0) / 100.0)
  {
    assert 1.0 + ((a / b - 1.0) * 100.0) / 100.0 == a / b;
    assert b * (a / b) == a;
  }

  ghost predicate GapFree(xs: seq<Option<real>>) {
    forall j :: 0 <= j < |xs| ==> xs[j].Some?
  }

  /** On a series without gaps: missing for the first `p` rows, afterwards
      `(x[i] / x[i - p] - 1) * 100`, and the price is recovered from the change:
      `x[i] = x[i - p] * (1 + change / 100)`. */
  lemma PctChangeGapFree(xs: seq<Option<real>>, p: nat, i: nat)
    requires GapFree(xs) && i < |xs|
    ensures i < p ==> PctChange(xs, p, i).None?
    ensures i >= p && xs[i - p].value != 0.0 ==>
              && PctChange(xs, p, i) == Some((xs[i].value / xs[i - p].value - 1.0) * 100.0)
              && xs[i].value == xs[i - p].value * (1.0 + PctChange(xs, p, i).value / 100.0)
  {
    if i >= p && xs[i - p].value != 0.0 {
      ChangeRecoversPrice(xs[i].value, xs[i - p].value);
    }
  }

  // ---------------------------------------------------------------- derived column names

  /** `f'ma_{window}'` */
  function MaName(w: nat): string {
    "ma_" + Decimal(w)
  }

  /** `f'{name}_usd'` */
  function UsdName(name: string): string {
    name + "_usd"
  }

  const DefaultWindows: seq<nat> := [7, 30, 90]

  lemma MaNameInjective(a: nat, b: nat)
    requires MaName(a) == MaName(b)
    ensures a == b
  {
    assert MaName(a)[3..] == Decimal(a) && MaName(b)[3..] == Decimal(b);
    DecimalInjective(a, b);
  }

  /** The names a moving average can be written under never collide with the price columns,
      the percentage-change columns or the other kind of moving average. */
  lemma MaNamesDistinct(a: nat, b: nat)
    ensures MaName(a) != UsdName(MaName(b))
    ensures UsdName(MaName(a)) == UsdName(MaName(b)) ==> a == b
    ensures MaName(a) !in PriceNames && UsdName(MaName(a)) !in PriceNames
    ensures forall usd :: MaName(a) !in PctColumns(usd) && UsdName(MaName(a)) !in PctColumns(usd)
  {
    var ma, ub := MaName(a), UsdName(MaName(b));
    assert ub[|ub| - 1] == 'd';
    assert IsDigit(ma[|ma| - 1]);
    if UsdName(MaName(a)) == UsdName(MaName(b)) {
      assert UsdName(MaName(a))[..|MaName(a)|] == MaName(a);
      assert UsdName(MaName(b))[..|MaName(b)|] == MaName(b);
      MaNameInjective(a, b);
    }
    assert ma[0] == 'm' && UsdName(ma)[0] == 'm';
    MaNamesAvoidPct(a);
  }

  /** A moving-average name starts with `m`, every percentage-change name with `p`. */
  lemma MaNamesAvoidPct(a: nat)
    ensures forall usd :: MaName(a) !in PctColumns(usd) && UsdName(MaName(a)) !in PctColumns(usd)
  {
    forall usd, k | k in PctColumns(usd) ensures |k| > 0 && k[0] == 'p' { }
    assert MaName(a)[0] == 'm' && UsdName(MaName(a))[0] == 'm';
  }

  const PriceNames: set<string> := {"price", "price_usd"}

  /** The columns `add_moving_averages` writes for the windows `ws`. */
  ghost function MaColumns(ws: seq<nat>, usd: bool): set<string> {
    if |ws| == 0 then {}
    else
      var w := ws[|ws| - 1];
      MaColumns(ws[..|ws| - 1], usd) + {MaName(w)} + (if usd then {UsdName(MaName(w))} else {})
  }

  /** The columns `add_percentage_change` writes. */
  ghost function PctColumns(usd: bool): set<string> {
    {"pct_change", "pct_change_30d"} + (if usd then {"pct_change_usd", "pct_change_30d_usd"} else {})
  }

  /** The percentage-change columns are not price columns. */
  lemma PctNamesAvoidPrices()
    ensures PctColumns(true) !! PriceNames
    ensures forall k :: k in PctColumns(true) ==> k != "price" && k != "price_usd"
  {
    forall k | k in PctColumns(true) ensures |k| > 1 && k[1] == 'c' { }
    forall k | k in PriceNames ensures |k| > 1 && k[1] == 'r' { }
  }

  /** The moving-average columns are exactly `ma_<w>` for each window, and `ma_<w>_usd` when the
      dollar columns are written. */
  lemma {:induction false} MaColumnsMembers(ws: seq<nat>, usd: bool, name: string)
    ensures name in MaColumns(ws, usd) <==>
              exists j :: 0 <= j < |ws| && (name == MaName(ws[j]) || (usd && name == UsdName(MaName(ws[j]))))
  {
    if |ws| > 0 {
      var w, init := ws[|ws| - 1], ws[..|ws| - 1];
      MaColumnsMembers(init, usd, name);
      if exists j :: 0 <= j < |ws| && (name == MaName(ws[j]) || (usd && name == UsdName(MaName(ws[j])))) {
        var j :| 0 <= j < |ws| && (name == MaName(ws[j]) || (usd && name == UsdName(MaName(ws[j]))));
        if j < |ws| - 1 {
          assert ws[j] == init[j];
        }
      }
      if name in MaColumns(init, usd) {
        var j :| 0 <= j < |init| && (name == MaName(init[j]) || (usd && name == UsdName(MaName(init[j]))));
        assert init[j] == ws[j];
      }
    }
  }

  lemma MaColumnsAvoidFixed(ws: seq<nat>, usd: bool)
    ensures MaColumns(ws, usd) !! PriceNames
    ensures MaColumns(ws, usd) !! PctColumns(usd)
  {
    forall name | name in MaColumns(ws, usd)
      ensures name !in PriceNames && name !in PctColumns(usd)
    {
      MaColumnsMembers(ws, usd, name);
      var j :| 0 <= j < |ws| && (name == MaName(ws[j]) || (usd && name == UsdName(MaName(ws[j]))));
      MaNamesDistinct(ws[j], ws[j]);
    }
  }

  /** The value of an original column after the coercions of the two `add_*` methods. */
  function Coerced(r: Row, k: string): Cell
    requires k in r
  {
    if k in PriceNames then NumCell(r[k]) else r[k]
  }

  /** Whether the `_usd` columns are written: `price_usd` exists and is not entirely null
      once coerced to numbers. */
  ghost predicate UsdUsable(rows: seq<Row>, columns: set<string>) {
    "price_usd" in columns && exists i :: 0 <= i < |rows| && "price_usd" in rows[i] && rows[i]["price_usd"].Num?
  }

  function MeanColumn(xs: seq<Option<real>>, w: nat): (c: seq<Cell>)
    ensures |c| == |xs|
    ensures forall i :: 0 <= i < |xs| ==> c[i] == OfNumber(RollingMean(xs, w, i))
  {
    seq(|xs|, i requires 0 <= i < |xs| => OfNumber(RollingMean(xs, w, i)))
  }

  function PctColumn(xs: seq<Option<real>>, p: nat): (c: seq<Cell>)
    ensures |c| == |xs|
    ensures forall i :: 0 <= i < |xs| ==> c[i] == OfNumber(PctChange(xs, p, i))
  {
    seq(|xs|, i requires 0 <= i < |xs| => OfNumber(PctChange(xs, p, i)))
  }

  /** Row by row, `after` holds the moving averages of `before`'s prices for every window in `ws`. */
  ghost predicate MovingAveragesHold(before: seq<Row>, after: seq<Row>, ws: seq<nat>, usd: bool)
    requires HasColumn(before, "price") && |after| == |before|
    requires usd ==> HasColumn(before, "price_usd")
  {
    forall i, j :: 0 <= i < |after| && 0 <= j < |ws| ==>
      && MaName(ws[j]) in after[i]
      && after[i][MaName(ws[j])] == OfNumber(RollingMean(Series(before, "price"), ws[j], i))
      && (usd ==> UsdName(MaName(ws[j])) in after[i]
                  && after[i][UsdName(MaName(ws[j]))] == OfNumber(RollingMean(Series(before, "price_usd"), ws[j], i)))
  }

  /** Row by row, `after` holds the one-row and thirty-row percentage changes of `before`'s prices. */
  ghost predicate PercentChangesHold(before: seq<Row>, after: seq<Row>, usd: bool)
    requires HasColumn(before, "price") && |after| == |before|
    requires usd ==> HasColumn(before, "price_usd")
  {
    forall i :: 0 <= i < |after| ==>
      && "pct_change" in after[i] && "pct_change_30d" in after[i]
      && after[i]["pct_change"] == OfNumber(PctChange(Series(before, "price"), 1, i))
      && after[i]["pct_change_30d"] == OfNumber(PctChange(Series(before, "price"), 30, i))
      && (usd ==> "pct_change_usd" in after[i] && "pct_change_30d_usd" in after[i]
                  && after[i]["pct_change_usd"] == OfNumber(PctChange(Series(before, "price_usd"), 1, i))
                  && after[i]["pct_change_30d_usd"] == OfNumber(PctChange(Series(before, "price_usd"), 30, i)))
  }

  /** Row by row, every column of `before` that is not in `written` is still there, coerced if it
      is a price column and otherwise unchanged. */
  ghost predicate OthersKept(before: seq<Row>, after: seq<Row>, written: set<string>)
    requires |after| == |before|
  {
    forall i, k :: 0 <= i < |before| && k in before[i] && k !in written ==>
      k in after[i] && after[i][k] == Coerced(before[i], k)
  }

  // ---------------------------------------------------------------- row-wise column updates

  /** The rows after `df[name] = values`. */
  function SetColumn(rows: seq<Row>, name: string, values: seq<Cell>): (r: seq<Row>)
    requires |values| == |rows|
    ensures |r| == |rows|
    ensures forall i :: 0 <= i < |rows| ==> r[i] == rows[i][name := values[i]]
  {
    seq(|rows|, i requires 0 <= i < |rows| => rows[i][name := values[i]])
  }

  /** One row after the coercions both `add_*` methods start with: `price` always, `price_usd`
      when the table has it. Every column stays, with its `Coerced` value. */
  function CoercedRow(r: Row): (c: Row)
    requires "price" in r
    ensures c.Keys == r.Keys
    ensures forall k :: k in r ==> c[k] == Coerced(r, k)
  {
    var r' := r["price" := NumCell(r["price"])];
    if "price_usd" in r then r'["price_usd" := NumCell(r["price_usd"])] else r'
  }

  /** Coercion does not change what a price column reads as, nor whether it holds a number. */
  lemma SeriesOfCoerced(rows: seq<Row>, coerced: seq<Row>, name: string)
    requires HasColumn(rows, name) && |coerced| == |rows|
    requires forall i :: 0 <= i < |rows| ==> name in coerced[i] && coerced[i][name] == NumCell(rows[i][name])
    ensures Series(coerced, name) == Series(rows, name)
    ensures (exists i :: 0 <= i < |coerced| && name in coerced[i] && coerced[i][name].Num?)
            <==> (exists i :: 0 <= i < |rows| && name in rows[i] && rows[i][name].Num?)
  {
    if exists i :: 0 <= i < |rows| && name in rows[i] && rows[i][name].Num? {
      var i :| 0 <= i < |rows| && name in rows[i] && rows[i][name].Num?;
      assert coerced[i][name].Num?;
    }
  }

  /** One row with the moving averages of row `i` for the windows `ws` added, in window order. */
  function RowAverages(r: Row, i: nat, prices: seq<Option<real>>, usdPrices: seq<Option<real>>, ws: seq<nat>, usd: bool): (a: Row)
    requires i < |prices| && (usd ==> i < |usdPrices|)
    ensures a.Keys == r.Keys + MaColumns(ws, usd)
  {
    if |ws| == 0 then r
    else
      var w := ws[|ws| - 1];
      var r' := RowAverages(r, i, prices, usdPrices, ws[..|ws| - 1], usd)[MaName(w) := OfNumber(RollingMean(prices, w, i))];
      if usd then r'[UsdName(MaName(w)) := OfNumber(RollingMean(usdPrices, w, i))] else r'
  }

  /** Adding the averages leaves every column that is not an average column alone. */
  lemma {:induction false} RowAveragesKeep(r: Row, i: nat, prices: seq<Option<real>>, usdPrices: seq<Option<real>>, ws: seq<nat>, usd: bool, k: string)
    requires i < |prices| && (usd ==> i < |usdPrices|)
    requires k in r && k !in MaColumns(ws, usd)
    ensures RowAverages(r, i, prices, usdPrices, ws, usd)[k] == r[k]
  {
    if |ws| > 0 {
      RowAveragesKeep(r, i, prices, usdPrices, ws[..|ws| - 1], usd, k);
    }
  }

  /** After the averages for `ws` are added, `ma_<ws[j]>` holds the average for window `ws[j]`,
      even when a later window repeats it. */
  lemma {:induction false} RowAverageAt(r: Row, i: nat, prices: seq<Option<real>>, usdPrices: seq<Option<real>>, ws: seq<nat>, usd: bool, j: nat)
    requires i < |prices| && (usd ==> i < |usdPrices|) && j < |ws|
    ensures MaName(ws[j]) in RowAverages(r, i, prices, usdPrices, ws, usd)
    ensures RowAverages(r, i, prices, usdPrices, ws, usd)[MaName(ws[j])] == OfNumber(RollingMean(prices, ws[j], i))
  {
    var w, init := ws[|ws| - 1], ws[..|ws| - 1];
    MaNamesDistinct(ws[j], w);
    if ws[j] != w {
      assert j < |init| && init[j] == ws[j];
      RowAverageAt(r, i, prices, usdPrices, init, usd, j);
      if MaName(ws[j]) == MaName(w) {
        MaNameInjective(ws[j], w);
      }
    }
  }

  /** After the averages for `ws` are added, `ma_<ws[j]>_usd` holds the dollar average for
      window `ws[j]` when the dollar columns are written. */
  lemma {:induction false} RowUsdAverageAt(r: Row, i: nat, prices: seq<Option<real>>, usdPrices: seq<Option<real>>, ws: seq<nat>, j: nat)
    requires i < |prices| && i < |usdPrices| && j < |ws|
    ensures UsdName(MaName(ws[j])) in RowAverages(r, i, prices, usdPrices, ws, true)
    ensures RowAverages(r, i, prices, usdPrices, ws, true)[UsdName(MaName(ws[j]))] == OfNumber(RollingMean(usdPrices, ws[j], i))
  {
    var w, init := ws[|ws| - 1], ws[..|ws| - 1];
    if ws[j] != w {
      assert j < |init| && init[j] == ws[j];
      RowUsdAverageAt(r, i, prices, usdPrices, init, j);
      MaNamesDistinct(w, ws[j]);
      MaNamesDistinct(ws[j], w);
    }
  }

  /** Adding the averages leaves every other column alone, and each `ma_` column holds the average
      for its window (a repeated window rewrites the same value). */
  lemma RowAveragesSpec(r: Row, i: nat, prices: seq<Option<real>>, usdPrices: seq<Option<real>>, ws: seq<nat>, usd: bool)
    requires i < |prices| && (usd ==> i < |usdPrices|)
    ensures forall k :: k in r && k !in MaColumns(ws, usd) ==> RowAverages(r, i, prices, usdPrices, ws, usd)[k] == r[k]
    ensures forall j :: 0 <= j < |ws| ==>
              && MaName(ws[j]) in RowAverages(r, i, prices, usdPrices, ws, usd)
              && RowAverages(r, i, prices, usdPrices, ws, usd)[MaName(ws[j])] == OfNumber(RollingMean(prices, ws[j], i))
    ensures usd ==> forall j :: 0 <= j < |ws| ==>
              && UsdName(MaName(ws[j])) in RowAverages(r, i, prices, usdPrices, ws, usd)
              && RowAverages(r, i, prices, usdPrices, ws, usd)[UsdName(MaName(ws[j]))] == OfNumber(RollingMean(usdPrices, ws[j], i))
  {
    forall k | k in r && k !in MaColumns(ws, usd) {
      RowAveragesKeep(r, i, prices, usdPrices, ws, usd, k);
    }
    forall j | 0 <= j < |ws| {
      RowAverageAt(r, i, prices, usdPrices, ws, usd, j);
    }
    if usd {
      forall j | 0 <= j < |ws| {
        RowUsdAverageAt(r, i, prices, usdPrices, ws, j);
      }
    }
  }

  /** The rows after the window loop of `add_moving_averages` has run over `ws`. */
  function AveragedRows(rows: seq<Row>, prices: seq<Option<real>>, usdPrices: seq<Option<real>>, ws: seq<nat>, usd: bool): (out: seq<Row>)
    requires |prices| == |rows| && (usd ==> |usdPrices| == |rows|)
    ensures |out| == |rows|
  {
    if |ws| == 0 then rows
    else
      var w := ws[|ws| - 1];
      var r' := SetColumn(AveragedRows(rows, prices, usdPrices, ws[..|ws| - 1], usd), MaName(w), MeanColumn(prices, w));
      if usd then SetColumn(r', UsdName(MaName(w)), MeanColumn(usdPrices, w)) else r'
  }

  /** Row `i` of the averaged rows is row `i` with its averages added. */
  lemma {:induction false} AveragedRowsByRow(rows: seq<Row>, prices: seq<Option<real>>, usdPrices: seq<Option<real>>, ws: seq<nat>, usd: bool, i: nat)
    requires |prices| == |rows| && (usd ==> |usdPrices| == |rows|) && i < |rows|
    ensures AveragedRows(rows, prices, usdPrices, ws, usd)[i] == RowAverages(rows[i], i, prices, usdPrices, ws, usd)
  {
    if |ws| > 0 {
      AveragedRowsByRow(rows, prices, usdPrices, ws[..|ws| - 1], usd, i);
    }
  }

  /** One row with the percentage changes of row `i` added. */
  function RowChanges(r: Row, i: nat, prices: seq<Option<real>>, usdPrices: seq<Option<real>>, usd: bool): Row
    requires i < |prices| && (usd ==> i < |usdPrices|)
  {
    var r' := r["pct_change" := OfNumber(PctChange(prices, 1, i))]["pct_change_30d" := OfNumber(PctChange(prices, 30, i))];
    if usd then
      r'["pct_change_usd" := OfNumber(PctChange(usdPrices, 1, i))]["pct_change_30d_usd" := OfNumber(PctChange(usdPrices, 30, i))]
    else r'
  }

  /** Adding the changes adds exactly the `PctColumns`, each holding its change, and leaves
      every other column alone. */
  lemma RowChangesSpec(r: Row, i: nat, prices: seq<Option<real>>, usdPrices: seq<Option<real>>, usd: bool)
    requires i < |prices| && (usd ==> i < |usdPrices|)
    ensures RowChanges(r, i, prices, usdPrices, usd).Keys == r.Keys + PctColumns(usd)
    ensures forall k :: k in r && k !in PctColumns(usd) ==> RowChanges(r, i, prices, usdPrices, usd)[k] == r[k]
    ensures RowChanges(r, i, prices, usdPrices, usd)["pct_change"] == OfNumber(PctChange(prices, 1, i))
    ensures RowChanges(r, i, prices, usdPrices, usd)["pct_change_30d"] == OfNumber(PctChange(prices, 30, i))
    ensures usd ==> RowChanges(r, i, prices, usdPrices, usd)["pct_change_usd"] == OfNumber(PctChange(usdPrices, 1, i))
    ensures usd ==> RowChanges(r, i, prices, usdPrices, usd)["pct_change_30d_usd"] == OfNumber(PctChange(usdPrices, 30, i))
  {
    assert "pct_change" != "pct_change_30d" by { assert |"pct_change"| != |"pct_change_30d"|; }
    assert "pct_change" != "pct_change_usd" by { assert "pct_change"[10..] != "pct_change_usd"[10..]; }
    assert "pct_change" != "pct_change_30d_usd" by { assert |"pct_change"| != |"pct_change_30d_usd"|; }
    assert "pct_change_30d" != "pct_change_usd" by { assert "pct_change_30d"[11] != "pct_change_usd"[11]; }
    assert "pct_change_30d" != "pct_change_30d_usd" by { assert |"pct_change_30d"| != |"pct_change_30d_usd"|; }
    assert "pct_change_usd" != "pct_change_30d_usd" by { assert |"pct_change_usd"| != |"pct_change_30d_usd"|; }
  }

  /** The rows after the column assignments of `add_percentage_change`. */
  function ChangedRows(rows: seq<Row>, prices: seq<Option<real>>, usdPrices: seq<Option<real>>, usd: bool): (out: seq<Row>)
    requires |prices| == |rows| && (usd ==> |usdPrices| == |rows|)
    ensures |out| == |rows|
    ensures forall i :: 0 <= i < |rows| ==> out[i] == RowChanges(rows[i], i, prices, usdPrices, usd)
  {
    var r' := SetColumn(SetColumn(rows, "pct_change", PctColumn(prices, 1)), "pct_change_30d", PctColumn(prices, 30));
    if usd then SetColumn(SetColumn(r', "pct_change_usd", PctColumn(usdPrices, 1)), "pct_change_30d_usd", PctColumn(usdPrices, 30))
    else r'
  }

  // ---------------------------------------------------------------- the date step

  function RowDate(r: Row): Option<Date> {
    if "date" in r && r["date"].Day? then Some(r["date"].d) else None
  }

  /** `dropna(subset=['date'])` on one row. */
  function DatedRow(r: Row): Option<Row> {
    if "date" in r && r["date"].Day? then Some(r) else None
  }

  /** `pd.to_datetime(df['date'], errors='coerce')` as a column. */
  function DateColumn(rows: seq<Row>): (c: seq<Cell>)
    requires HasColumn(rows, "date")
    ensures |c| == |rows|
    ensures forall i :: 0 <= i < |rows| ==> c[i] == DateCell(rows[i]["date"])
  {
    seq(|rows|, i requires 0 <= i < |rows| => DateCell(rows[i]["date"]))
  }

  /** Coercing a date that is already a date leaves the row as it was. */
  lemma DatedRowUnchanged(r: Row)
    requires "date" in r && r["date"].Day?
    ensures r["date" := DateCell(r["date"])] == r
  {
  }

  /** Only input rows with a date come out of the date step. */
  lemma DateStepKeepsOnlyDated(rows: seq<Row>, x: Row)
    requires HasColumn(rows, "date")
    requires x in FilterMap(SetColumn(rows, "date", DateColumn(rows)), DatedRow)
    ensures x in rows && RowDate(x).Some?
  {
    var coerced := SetColumn(rows, "date", DateColumn(rows));
    var i :| 0 <= i < |coerced| && DatedRow(coerced[i]) == Some(x);
    assert coerced[i] == x;
    DatedRowUnchanged(rows[i]);
    assert rows[i] == x;
  }

  /** Every input row with a date comes out of the date step. */
  lemma DateStepKeepsAllDated(rows: seq<Row>, i: nat)
    requires HasColumn(rows, "date") && i < |rows| && RowDate(rows[i]).Some?
    ensures rows[i] in FilterMap(SetColumn(rows, "date", DateColumn(rows)), DatedRow)
  {
    var coerced := SetColumn(rows, "date", DateColumn(rows));
    DatedRowUnchanged(rows[i]);
    assert coerced[i] == rows[i];
    FilterMapKeeps(coerced, DatedRow, i);
  }

  /** A row survives the date step exactly when its own `date` is a date, and then unchanged. */
  lemma DateStepKeeps(rows: seq<Row>, x: Row)
    requires HasColumn(rows, "date")
    ensures (x in SortBy(FilterMap(SetColumn(rows, "date", DateColumn(rows)), DatedRow), RowDate))
              == (x in rows && RowDate(x).Some?)
  {
    var kept := FilterMap(SetColumn(rows, "date", DateColumn(rows)), DatedRow);
    SortByMembers(kept, RowDate, x);
    if x in kept {
      DateStepKeepsOnlyDated(rows, x);
    }
    if x in rows && RowDate(x).Some? {
      var i :| 0 <= i < |rows| && rows[i] == x;
      DateStepKeepsAllDated(rows, i);
    }
  }

  /** Dropping the undated rows keeps each dated row as often as it occurs. */
  lemma {:induction false} DatedRowCount(rows: seq<Row>, x: Row)
    ensures Hits(rows, DatedRow, x) == if RowDate(x).Some? then multiset(rows)[x] else 0
  {
    if |rows| > 0 {
      DatedRowCount(rows[1..], x);
      assert rows == [rows[0]] + rows[1..];
      assert multiset(rows)[x] == multiset([rows[0]])[x] + multiset(rows[1..])[x];
    }
  }

  /** The date step's output holds each dated input row exactly as often as the input does. */
  lemma DateStepCounts(rows: seq<Row>, x: Row)
    requires HasColumn(rows, "date")
    ensures multiset(FilterMap(SetColumn(rows, "date", DateColumn(rows)), DatedRow))[x]
            == if RowDate(x).Some? then multiset(rows)[x] else 0
  {
    var coerced := SetColumn(rows, "date", DateColumn(rows));
    forall i | 0 <= i < |rows| ensures DatedRow(coerced[i]) == DatedRow(rows[i]) {
      if rows[i]["date"].Day? {
        DatedRowUnchanged(rows[i]);
      }
    }
    FilterMapCounts(coerced, DatedRow, x);
    HitsPointwise(coerced, DatedRow, rows, DatedRow, x);
    DatedRowCount(rows, x);
  }

  /** The rows `prepare_analysis_data` keeps: dates coerced, rows without a date dropped, sorted
      by date. They are exactly the input rows whose `date` is a date, each as often as in the
      input, so every column the input has, they have. */
  function DatedRows(rows: seq<Row>): (r: seq<Row>)
    requires HasColumn(rows, "date")
    ensures forall x :: x in r <==> x in rows && RowDate(x).Some?
    ensures forall x :: multiset(r)[x] == if RowDate(x).Some? then multiset(rows)[x] else 0
    ensures forall k :: HasColumn(rows, k) ==> HasColumn(r, k)
    ensures |r| <= |rows|
  {
    var r := SortBy(FilterMap(SetColumn(rows, "date", DateColumn(rows)), DatedRow), RowDate);
    assert forall x :: multiset(r)[x] == if RowDate(x).Some? then multiset(rows)[x] else 0 by {
      forall x ensures multiset(r)[x] == if RowDate(x).Some? then multiset(rows)[x] else 0 {
        DateStepCounts(rows, x);
      }
    }
    assert forall x :: x in r <==> x in rows && RowDate(x).Some? by {
      forall x ensures x in r <==> x in rows && RowDate(x).Some? {
        DateStepKeeps(rows, x);
      }
    }
    assert forall k :: HasColumn(rows, k) ==> HasColumn(r, k) by {
      forall k, i | HasColumn(rows, k) && 0 <= i < |r| ensures k in r[i] {
        assert r[i] in r;
        var j :| 0 <= j < |rows| && rows[j] == r[i];
      }
    }
    r
  }

  /** The kept rows come in ascending date order. */
  lemma DatedRowsOrdered(rows: seq<Row>, i: nat, j: nat)
    requires HasColumn(rows, "date") && i < j < |DatedRows(rows)|
    ensures RowDate(DatedRows(rows)[i]).Some? && RowDate(DatedRows(rows)[j]).Some?
    ensures !Before(RowDate(DatedRows(rows)[j]).value, RowDate(DatedRows(rows)[i]).value)
  {
    var out := DatedRows(rows);
    assert out[i] in out && out[j] in out;
    assert KeyLe(RowDate(out[i]), RowDate(out[j]));
  }

  /** `df['price'].isnull().all()` */
  ghost predicate NoPrices(rows: seq<Row>) {
    forall i :: 0 <= i < |rows| ==> "price" in rows[i] ==> rows[i]["price"].Missing?
  }

  datatype ProcessError = NoDateColumn | NoValidPrice

  // ---------------------------------------------------------------- the frame

  class Frame {
    var columns: set<string>
    var rows: seq<Row>

    ghost predicate Valid()
      reads this
    {
      forall i :: 0 <= i < |rows| ==> rows[i].Keys == columns
    }

    constructor (columns: set<string>, rows: seq<Row>)
      requires forall i :: 0 <= i < |rows| ==> rows[i].Keys == columns
      ensures Valid() && this.columns == columns && this.rows == rows
    {
      this.columns := columns;
      this.rows := rows;
    }

    /** `df.copy()` */
    method Copy() returns (c: Frame)
      requires Valid()
      ensures fresh(c) && c.Valid() && c.columns == columns && c.rows == rows
    {
      c := new Frame(columns, rows);
    }

    /** `df[name] = values` */
    method Assign(name: string, values: seq<Cell>)
      requires Valid() && |values| == |rows|
      modifies this
      ensures Valid()
      ensures columns == old(columns) + {name}
      ensures rows == SetColumn(old(rows), name, values)
    {
      rows := SetColumn(rows, name, values);
      columns := columns + {name};
    }

    /** `df.dropna(subset=['date'], inplace=True)` */
    method DropMissingDates()
      requires Valid()
      modifies this
      ensures Valid() && columns == old(columns)
      ensures rows == FilterMap(old(rows), DatedRow)
    {
      var kept := FilterMap(rows, DatedRow);
      forall r | r in kept ensures r.Keys == columns {
        var i :| 0 <= i < |rows| && DatedRow(rows[i]) == Some(r);
      }
      rows := kept;
    }

    /** `df.sort_values('date', inplace=True)` */
    method SortByDate()
      requires Valid()
      modifies this
      ensures Valid() && columns == old(columns)
      ensures rows == SortBy(old(rows), RowDate)
    {
      var sorted := SortBy(rows, RowDate);
      forall r | r in sorted ensures r.Keys == columns {
        SortByMembers(rows, RowDate, r);
      }
      rows := sorted;
    }
  }

  // ---------------------------------------------------------------- DataProcessor

  lemma AddTwo<T>(c: set<T>, a: T, b: T)
    ensures c + {a} + {b} == c + {a, b}
  {
  }

  lemma AddFour<T>(c: set<T>, a: T, b: T, x: T, y: T)
    ensures c + {a} + {b} + {x} + {y} == c + ({a, b} + {x, y})
  {
  }

  /** The coercions both `add_*` methods start with. */
  method CoercePrices(df: Frame)
    requires df.Valid() && "price" in df.columns
    modifies df
    ensures df.Valid() && df.columns == old(df.columns)
    ensures |df.rows| == |old(df.rows)|
    ensures forall i :: 0 <= i < |df.rows| ==> df.rows[i] == CoercedRow(old(df.rows)[i])
  {
    df.Assign("price", NumColumn(df.rows, "price"));
    if "price_usd" in df.columns {
      df.Assign("price_usd", NumColumn(df.rows, "price_usd"));
    }
  }

  /** After the coercions, `price_usd` holds a number somewhere exactly when it did before. */
  lemma CoercionKeepsUsd(base: seq<Row>, columns: set<string>, start: seq<Row>)
    requires forall i :: 0 <= i < |base| ==> base[i].Keys == columns
    requires "price" in columns && |start| == |base|
    requires forall i :: 0 <= i < |base| ==> start[i] == CoercedRow(base[i])
    ensures HasColumn(start, "price") && ("price_usd" in columns ==> HasColumn(start, "price_usd"))
    ensures Series(start, "price") == Series(base, "price")
    ensures "price_usd" in columns ==> Series(start, "price_usd") == Series(base, "price_usd")
    ensures UsdUsable(start, columns) == UsdUsable(base, columns)
  {
    SeriesOfCoerced(base, start, "price");
    if "price_usd" in columns {
      SeriesOfCoerced(base, start, "price_usd");
    }
  }

  /** One pass of the window loop adds the columns of one more window. */
  lemma MaColumnsStep(columns: set<string>, ws: seq<nat>, n: nat, usd: bool, after: set<string>)
    requires n < |ws|
    requires after == if usd then columns + MaColumns(ws[..n], usd) + {MaName(ws[n])} + {UsdName(MaName(ws[n]))}
                      else columns + MaColumns(ws[..n], usd) + {MaName(ws[n])}
    ensures after == columns + MaColumns(ws[..n + 1], usd)
  {
    assert ws[..n + 1][..n] == ws[..n];
  }

  /** `add_moving_averages(df, window_sizes)`: coerces the price columns, then for each window
      adds `ma_<w>` (and `ma_<w>_usd` when `price_usd` holds a number); rows are not touched. */
  method AddMovingAverages(df: Frame, windows: seq<nat>)
    requires df.Valid() && "price" in df.columns
    modifies df
    ensures df.Valid()
    ensures |df.rows| == old(|df.rows|)
    ensures var usd := UsdUsable(old(df.rows), old(df.columns));
            && df.columns == old(df.columns) + MaColumns(windows, usd)
            && OthersKept(old(df.rows), df.rows, MaColumns(windows, usd))
            && MovingAveragesHold(old(df.rows), df.rows, windows, usd)
  {
    ghost var base, columns := df.rows, df.columns;
    CoercePrices(df);
    ghost var start := df.rows;
    CoercionKeepsUsd(base, columns, start);
    var prices := Series(df.rows, "price");
    var usdPrices: seq<Option<real>> := [];
    if "price_usd" in df.columns {
      usdPrices := Series(df.rows, "price_usd");
    }
    // The source tests this inside the loop; the loop writes only `ma_` columns, so the answer
    // is the same on every pass.
    var usd := "price_usd" in df.columns && exists i :: 0 <= i < |df.rows| && df.rows[i]["price_usd"].Num?;
    assert usd == UsdUsable(start, columns);
    assert MaColumns(windows[..0], usd) == {};
    assert df.columns == columns + MaColumns(windows[..0], usd);
    for n := 0 to |windows|
      invariant df.Valid()
      invariant df.columns == columns + MaColumns(windows[..n], usd)
      invariant df.rows == AveragedRows(start, prices, usdPrices, windows[..n], usd)
    {
      var w := windows[n];
      assert windows[..n + 1][..n] == windows[..n];
      df.Assign(MaName(w), MeanColumn(prices, w));
      if usd {
        df.Assign(UsdName(MaName(w)), MeanColumn(usdPrices, w));
      }
      MaColumnsStep(columns, windows, n, usd, df.columns);
    }
    assert windows[..|windows|] == windows;
    AveragesMeetSpec(base, start, prices, usdPrices, windows, usd);
  }

  /** What the window loop built, stated against the rows `add_moving_averages` was given. */
  lemma AveragesMeetSpec(base: seq<Row>, start: seq<Row>, prices: seq<Option<real>>,
                         usdPrices: seq<Option<real>>, ws: seq<nat>, usd: bool)
    requires HasColumn(base, "price") && (usd ==> HasColumn(base, "price_usd"))
    requires |start| == |base|
    requires forall i :: 0 <= i < |base| ==> start[i] == CoercedRow(base[i])
    requires prices == Series(base, "price")
    requires usd ==> usdPrices == Series(base, "price_usd")
    ensures OthersKept(base, AveragedRows(start, prices, usdPrices, ws, usd), MaColumns(ws, usd))
    ensures MovingAveragesHold(base, AveragedRows(start, prices, usdPrices, ws, usd), ws, usd)
  {
    var out := AveragedRows(start, prices, usdPrices, ws, usd);
    forall i, k | 0 <= i < |base| && k in base[i] && k !in MaColumns(ws, usd)
      ensures k in out[i] && out[i][k] == Coerced(base[i], k)
    {
      AveragedRowsByRow(start, prices, usdPrices, ws, usd, i);
      RowAveragesSpec(start[i], i, prices, usdPrices, ws, usd);
    }
    forall i, j | 0 <= i < |out| && 0 <= j < |ws|
      ensures MaName(ws[j]) in out[i] && out[i][MaName(ws[j])] == OfNumber(RollingMean(prices, ws[j], i))
      ensures usd ==> (UsdName(MaName(ws[j])) in out[i]
                       && out[i][UsdName(MaName(ws[j]))] == OfNumber(RollingMean(usdPrices, ws[j], i)))
    {
      AveragedRowsByRow(start, prices, usdPrices, ws, usd, i);
      RowAveragesSpec(start[i], i, prices, usdPrices, ws, usd);
    }
  }

  /** `add_percentage_change(df)`: coerces the price columns, then adds `pct_change` and
      `pct_change_30d` (and their `_usd` forms when `price_usd` holds a number); rows are not touched. */
  method AddPercentageChange(df: Frame)
    requires df.Valid() && "price" in df.columns
    modifies df
    ensures df.Valid()
    ensures |df.rows| == old(|df.rows|)
    ensures var usd := UsdUsable(old(df.rows), old(df.columns));
            && df.columns == old(df.columns) + PctColumns(usd)
            && OthersKept(old(df.rows), df.rows, PctColumns(usd))
            && PercentChangesHold(old(df.rows), df.rows, usd)
  {
    ghost var base, columns := df.rows, df.columns;
    CoercePrices(df);
    ghost var start := df.rows;
    CoercionKeepsUsd(base, columns, start);
    var prices := Series(df.rows, "price");
    df.Assign("pct_change", PctColumn(prices, 1));
    df.Assign("pct_change_30d", PctColumn(prices, 30));
    var usd := "price_usd" in df.columns && exists i :: 0 <= i < |df.rows| && df.rows[i]["price_usd"].Num?;
    ChangesKeepPrices(start, columns, prices);
    assert usd == UsdUsable(start, columns);
    var usdPrices: seq<Option<real>> := [];
    if usd {
      usdPrices := Series(df.rows, "price_usd");
      df.Assign("pct_change_usd", PctColumn(usdPrices, 1));
      df.Assign("pct_change_30d_usd", PctColumn(usdPrices, 30));
      AddFour(columns, "pct_change", "pct_change_30d", "pct_change_usd", "pct_change_30d_usd");
    } else {
      AddTwo(columns, "pct_change", "pct_change_30d");
    }
    ChangesMeetSpec(base, start, prices, usdPrices, usd);
  }

  /** Writing the two `pct_change` columns leaves `price_usd` as it was. */
  lemma ChangesKeepPrices(start: seq<Row>, columns: set<string>, prices: seq<Option<real>>)
    requires |prices| == |start|
    requires forall i :: 0 <= i < |start| ==> start[i].Keys == columns
    ensures var r := SetColumn(SetColumn(start, "pct_change", PctColumn(prices, 1)), "pct_change_30d", PctColumn(prices, 30));
            "price_usd" in columns ==>
              && HasColumn(r, "price_usd")
              && (forall i :: 0 <= i < |start| ==> r[i]["price_usd"] == start[i]["price_usd"])
              && Series(r, "price_usd") == Series(start, "price_usd")
  {
    PctNamesAvoidPrices();
  }

  /** What `add_percentage_change` built, stated against the rows it was given. */
  lemma ChangesMeetSpec(base: seq<Row>, start: seq<Row>, prices: seq<Option<real>>,
                        usdPrices: seq<Option<real>>, usd: bool)
    requires HasColumn(base, "price") && (usd ==> HasColumn(base, "price_usd"))
    requires |start| == |base|
    requires forall i :: 0 <= i < |base| ==> start[i] == CoercedRow(base[i])
    requires prices == Series(base, "price")
    requires usd ==> usdPrices == Series(base, "price_usd")
    ensures OthersKept(base, ChangedRows(start, prices, usdPrices, usd), PctColumns(usd))
    ensures PercentChangesHold(base, ChangedRows(start, prices, usdPrices, usd), usd)
  {
    var out := ChangedRows(start, prices, usdPrices, usd);
    forall i | 0 <= i < |base|
      ensures forall k :: k in base[i] && k !in PctColumns(usd) ==> k in out[i] && out[i][k] == Coerced(base[i], k)
      ensures "pct_change" in out[i] && out[i]["pct_change"] == OfNumber(PctChange(prices, 1, i))
      ensures "pct_change_30d" in out[i] && out[i]["pct_change_30d"] == OfNumber(PctChange(prices, 30, i))
      ensures usd ==> "pct_change_usd" in out[i] && out[i]["pct_change_usd"] == OfNumber(PctChange(usdPrices, 1, i))
      ensures usd ==> "pct_change_30d_usd" in out[i] && out[i]["pct_change_30d_usd"] == OfNumber(PctChange(usdPrices, 30, i))
    {
      RowChangesSpec(start[i], i, prices, usdPrices, usd);
    }
  }

  /** `prepare_analysis_data(df)`: works on a copy (the caller's frame is not changed); raises when
      there is no `date` column, or when the kept rows have no `price` column or only missing
      prices; otherwise the kept rows, in date order, with the moving averages for 7, 30 and 90
      rows and the percentage changes added. */
  method PrepareAnalysisData(df: Frame) returns (r: Result<Frame, ProcessError>)
    requires df.Valid()
    ensures "date" !in df.columns ==> r == Err(NoDateColumn)
    ensures "date" in df.columns ==>
              (r == Err(NoValidPrice) <==> "price" !in df.columns || NoPrices(DatedRows(df.rows)))
    ensures r.Ok? <==> "date" in df.columns && "price" in df.columns && !NoPrices(DatedRows(df.rows))
    ensures r.Ok? ==> fresh(r.value) && r.value.Valid()
    ensures r.Ok? ==> "date" in df.columns && "price" in df.columns
    ensures r.Ok? ==>
              var base := DatedRows(df.rows);
              var usd := UsdUsable(base, df.columns);
              && r.value.columns == df.columns + MaColumns(DefaultWindows, usd) + PctColumns(usd)
              && |r.value.rows| == |base|
              && OthersKept(base, r.value.rows, MaColumns(DefaultWindows, usd) + PctColumns(usd))
              && MovingAveragesHold(base, r.value.rows, DefaultWindows, usd)
              && PercentChangesHold(base, r.value.rows, usd)
  {
    var c := df.Copy();
    if "date" !in c.columns {
      return Err(NoDateColumn);
    }
    c.Assign("date", DateColumn(c.rows));
    c.DropMissingDates();
    c.SortByDate();
    ghost var base := c.rows;
    assert base == DatedRows(df.rows);
    assert c.columns == df.columns;
    if "price" !in c.columns || forall i :: 0 <= i < |c.rows| ==> c.rows[i]["price"].Missing? {
      return Err(NoValidPrice);
    }
    AddMovingAverages(c, DefaultWindows);
    ghost var mid, midColumns := c.rows, c.columns;
    AddPercentageChange(c);
    StepsCompose(base, df.columns, mid, midColumns, c.rows, DefaultWindows);
    r := Ok(c);
  }

  /** The moving-average step keeps both price columns as numbers read the same, so whether the
      `_usd` columns are written is decided the same way by both steps. */
  lemma AveragesKeepPrices(base: seq<Row>, columns: set<string>, mid: seq<Row>, ws: seq<nat>, usd: bool)
    requires forall i :: 0 <= i < |base| ==> base[i].Keys == columns
    requires "price" in columns && |mid| == |base|
    requires OthersKept(base, mid, MaColumns(ws, usd))
    ensures HasColumn(mid, "price") && Series(mid, "price") == Series(base, "price")
    ensures "price_usd" in columns ==>
              HasColumn(mid, "price_usd") && Series(mid, "price_usd") == Series(base, "price_usd")
    ensures UsdUsable(mid, columns + MaColumns(ws, usd)) == UsdUsable(base, columns)
  {
    MaColumnsAvoidFixed(ws, usd);
    assert "price" !in MaColumns(ws, usd) && "price_usd" !in MaColumns(ws, usd);
    SeriesOfCoerced(base, mid, "price");
    if "price_usd" in columns {
      SeriesOfCoerced(base, mid, "price_usd");
    }
  }

  /** Coercing twice is coercing once, so two steps that each keep the columns they do not write
      keep, together, every column neither writes. */
  lemma {:induction false} OthersKeptCompose(base: seq<Row>, mid: seq<Row>, out: seq<Row>, first: set<string>, second: set<string>)
    requires |mid| == |base| && |out| == |base|
    requires OthersKept(base, mid, first) && OthersKept(mid, out, second)
    ensures OthersKept(base, out, first + second)
  {
    forall i, k | 0 <= i < |base| && k in base[i] && k !in first + second
      ensures k in out[i] && out[i][k] == Coerced(base[i], k)
    {
      assert k in mid[i] && mid[i][k] == Coerced(base[i], k);
    }
  }

  /** The percentage step leaves the moving-average columns as they were. */
  lemma AveragesSurviveChanges(base: seq<Row>, mid: seq<Row>, out: seq<Row>, ws: seq<nat>, usd: bool, usd2: bool)
    requires HasColumn(base, "price") && (usd ==> HasColumn(base, "price_usd"))
    requires |mid| == |base| && |out| == |base|
    requires MovingAveragesHold(base, mid, ws, usd)
    requires OthersKept(mid, out, PctColumns(usd2))
    ensures MovingAveragesHold(base, out, ws, usd)
  {
    forall i, j | 0 <= i < |out| && 0 <= j < |ws|
      ensures MaName(ws[j]) in out[i] && out[i][MaName(ws[j])] == mid[i][MaName(ws[j])]
      ensures usd ==> UsdName(MaName(ws[j])) in out[i] && out[i][UsdName(MaName(ws[j]))] == mid[i][UsdName(MaName(ws[j]))]
    {
      MaNamesDistinct(ws[j], ws[j]);
      assert MaName(ws[j]) !in PctColumns(usd2) && UsdName(MaName(ws[j])) !in PctColumns(usd2);
    }
  }

  /** Percentage changes of rows whose prices read as `base`'s are `base`'s percentage changes. */
  lemma ChangesRebased(base: seq<Row>, mid: seq<Row>, out: seq<Row>, usd: bool)
    requires HasColumn(base, "price") && HasColumn(mid, "price") && |mid| == |base| && |out| == |base|
    requires usd ==> HasColumn(base, "price_usd") && HasColumn(mid, "price_usd")
    requires Series(mid, "price") == Series(base, "price")
    requires usd ==> Series(mid, "price_usd") == Series(base, "price_usd")
    requires PercentChangesHold(mid, out, usd)
    ensures PercentChangesHold(base, out, usd)
  {
  }

  /** The two `add_*` steps together, stated against the rows they started from. */
  lemma StepsCompose(base: seq<Row>, columns: set<string>, mid: seq<Row>, midColumns: set<string>,
                     out: seq<Row>, ws: seq<nat>)
    requires forall i :: 0 <= i < |base| ==> base[i].Keys == columns
    requires "price" in columns && |mid| == |base| && |out| == |base|
    requires var usd := UsdUsable(base, columns);
             && midColumns == columns + MaColumns(ws, usd)
             && OthersKept(base, mid, MaColumns(ws, usd))
             && MovingAveragesHold(base, mid, ws, usd)
    requires forall i :: 0 <= i < |mid| ==> mid[i].Keys == midColumns
    requires var usd := UsdUsable(mid, midColumns);
             && OthersKept(mid, out, PctColumns(usd))
             && PercentChangesHold(mid, out, usd)
    ensures UsdUsable(mid, midColumns) == UsdUsable(base, columns)
    ensures var usd := UsdUsable(base, columns);
            && OthersKept(base, out, MaColumns(ws, usd) + PctColumns(usd))
            && MovingAveragesHold(base, out, ws, usd)
            && PercentChangesHold(base, out, usd)
  {
    var usd := UsdUsable(base, columns);
    AveragesKeepPrices(base, columns, mid, ws, usd);
    assert UsdUsable(mid, midColumns) == usd;
    OthersKeptCompose(base, mid, out, MaColumns(ws, usd), PctColumns(usd));
    AveragesSurviveChanges(base, mid, out, ws, usd, usd);
    ChangesRebased(base, mid, out, usd);
  }
}
