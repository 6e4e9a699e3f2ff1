/**
 * The training pipeline's data side: the causal lag and rolling features of
 * `create_lag_features`, the fixed `feature_cols` list, the chronological
 * train/test split and the model artifact record.
 *
 * A frame is a sequence of rows; a derived column is a sequence of cells in
 * which `None` stands for NaN. The regressor's fit and evaluation are opaque
 * function arguments.
 */
module Training {
  import opened Wrappers
  import opened Stats

  /** One day of the input frame: its date (a day number) and its columns. */
  datatype Obs = Obs(date: int, value: real, dayOfWeek: int, dayOfMonth: int, month: int)

  /** A cell of a derived column; `None` stands for NaN. */
  type Cell = Option<real>

  /** The lags `create_lag_features` is called with. */
  const DEFAULT_LAGS: seq<int> := [1, 2, 3, 7]

  /** The model's input columns, in the order the artifact records them. */
  const FEATURE_COLS: seq<string> := ["day_of_week", "day_of_month", "month",
                                      "lag_1", "lag_2", "lag_3", "lag_7",
                                      "rolling_mean_7", "rolling_std_7"]

  function Min(a: nat, b: nat): nat { if a <= b then a else b }

  /** The `value` column. */
  function Values(df: seq<Obs>): (v: seq<real>)
    ensures |v| == |df| && forall i :: 0 <= i < |df| ==> v[i] == df[i].value
  {
    seq(|df|, i requires 0 <= i < |df| => df[i].value)
  }

  function Defined(s: seq<real>): (c: seq<Cell>)
    ensures |c| == |s| && forall i :: 0 <= i < |s| ==> c[i] == Some(s[i])
  {
    seq(|s|, i requires 0 <= i < |s| => Some(s[i]))
  }

  function Missing(n: nat): (c: seq<Cell>)
    ensures |c| == n && forall i :: 0 <= i < n ==> c[i] == None
  {
    seq(n, _ => None)
  }

  /**
   * `Series.shift(k)`: the column moved k rows later (earlier for a negative
   * k), NaN in the rows left empty.
   */
  function Shift(v: seq<real>, k: int): (c: seq<Cell>)
    ensures |c| == |v|
  {
    if k >= 0 then
      var m := Min(k, |v|);
      Missing(m) + Defined(v[..|v| - m])
    else
      var m := Min(-k, |v|);
      Defined(v[m..]) + Missing(m)
  }

  /** Row i of a shifted column holds the value k rows earlier, or NaN when there is none. */
  lemma ShiftAt(v: seq<real>, k: int, i: nat)
    requires i < |v|
    ensures Shift(v, k)[i] == if 0 <= i - k < |v| then Some(v[i - k]) else None
  {
    if k >= 0 {
      var m := Min(k, |v|);
      var front, back := Missing(m), Defined(v[..|v| - m]);
      assert Shift(v, k) == front + back;
      if i >= m {
        assert (front + back)[i] == back[i - m] == Some(v[i - k]);
      } else {
        assert (front + back)[i] == front[i] == None;
      }
    } else {
      var m := Min(-k, |v|);
      var front, back := Defined(v[m..]), Missing(m);
      assert Shift(v, k) == front + back;
      if i < |v| - m {
        assert (front + back)[i] == front[i] == Some(v[i - k]);
      } else {
        assert (front + back)[i] == back[i - (|v| - m)] == None;
      }
    }
  }

  /** The cells as values, when none of them is NaN. */
  function AllDefined(cells: seq<Cell>): (r: Option<seq<real>>)
    ensures r.Some? <==> forall i :: 0 <= i < |cells| ==> cells[i].Some?
    ensures r.Some? ==> |r.value| == |cells| && forall i :: 0 <= i < |cells| ==> cells[i] == Some(r.value[i])
  {
    if cells == [] then Some([])
    else
      match (cells[0], AllDefined(cells[1..]))
      case (Some(x), Some(xs)) =>
        assert forall i :: 1 <= i < |cells| ==> cells[i] == cells[1..][i - 1];
        Some([x] + xs)
      case (None, _) => None
      case (_, None) =>
        assert forall i :: 1 <= i < |cells| ==> cells[i] == cells[1..][i - 1];
        None
  }

  /**
   * The seven cells ending at row i, as values: `rolling(7)` with its default
   * `min_periods` needs a full window without NaN.
   */
  function Window(col: seq<Cell>, i: nat): (r: Option<seq<real>>)
    requires i < |col|
    ensures r.Some? <==> WINDOW <= i + 1 && forall j :: i + 1 - WINDOW <= j <= i ==> col[j].Some?
    ensures r.Some? ==> |r.value| == WINDOW
    ensures r.Some? ==> forall j :: 0 <= j < WINDOW ==> col[i + 1 - WINDOW + j] == Some(r.value[j])
  {
    if i + 1 < WINDOW then None
    else
      var cells := col[i + 1 - WINDOW..i + 1];
      assert forall j :: i + 1 - WINDOW <= j <= i ==> col[j] == cells[j - (i + 1 - WINDOW)];
      AllDefined(cells)
  }

  /**
   * `col.rolling(7).mean()`: a row has a mean exactly when it and the six
   * rows before it all hold numbers (the default `min_periods` is the window).
   */
  function RollingMean(col: seq<Cell>): (c: seq<Cell>)
    ensures |c| == |col|
    ensures forall i :: 0 <= i < |col| ==>
      (c[i].Some? <==> WINDOW <= i + 1 && forall j :: i + 1 - WINDOW <= j <= i ==> col[j].Some?)
  {
    seq(|col|, i requires 0 <= i < |col| =>
      match Window(col, i)
      case Some(w) => Some(Mean(w))
      case None => None)
  }

  /**
   * `col.rolling(7).std()` (ddof 1), carried as the sample variance: defined
   * on the same rows as the mean, and never negative.
   */
  function RollingStd(col: seq<Cell>): (c: seq<Cell>)
    ensures |c| == |col|
    ensures forall i :: 0 <= i < |col| ==>
      (c[i].Some? <==> WINDOW <= i + 1 && forall j :: i + 1 - WINDOW <= j <= i ==> col[j].Some?)
    ensures forall i :: 0 <= i < |col| && c[i].Some? ==> c[i].value >= 0.0
  {
    seq(|col|, i requires 0 <= i < |col| =>
      match Window(col, i)
      case Some(w) => Some(SampleVariance(w))
      case None => None)
  }

  /**
   * The rolling window of the once-shifted values at row i is the seven
   * values strictly before row i: row i's own value never enters it.
   */
  lemma CausalWindow(v: seq<real>, i: nat)
    requires i < |v|
    ensures Window(Shift(v, 1), i) == if i >= WINDOW then Some(v[i - WINDOW..i]) else None
  {
    var col := Shift(v, 1);
    if i + 1 == WINDOW {
      ShiftAt(v, 1, 0);
      assert col[i + 1 - WINDOW..i + 1][0] == col[0];
    } else if i >= WINDOW {
      var cells := col[i + 1 - WINDOW..i + 1];
      forall j | 0 <= j < WINDOW ensures cells[j] == Some(v[i - WINDOW + j]) {
        ShiftAt(v, 1, i + 1 - WINDOW + j);
      }
      var w := AllDefined(cells).value;
      assert w == v[i - WINDOW..i];
    }
  }

  /** A row of the frame once the lag and rolling columns have been added. */
  datatype FrameRow = FrameRow(obs: Obs, lags: map<int, Cell>, rollingMean: Cell, rollingStd: Cell)

  /** A row that survived `dropna`: every derived cell is a number. */
  datatype FeatureRow = FeatureRow(obs: Obs, lags: map<int, real>, rollingMean: real, rollingStd: real)

  /** The `lag_k` columns, one per distinct lag. */
  function LagColumns(v: seq<real>, lags: seq<int>): (cols: map<int, seq<Cell>>)
    ensures forall k :: k in cols ==> |cols[k]| == |v|
  {
    map k | k in lags :: Shift(v, k)
  }

  predicate SameLength(cols: map<int, seq<Cell>>, n: nat) {
    forall k :: k in cols ==> |cols[k]| == n
  }

  /** The frame with its derived columns, row by row. */
  function Assemble(df: seq<Obs>, cols: map<int, seq<Cell>>, mean: seq<Cell>, std: seq<Cell>): (rows: seq<FrameRow>)
    requires SameLength(cols, |df|) && |mean| == |df| && |std| == |df|
    ensures |rows| == |df|
  {
    seq(|df|, i requires 0 <= i < |df| =>
      FrameRow(df[i], map k | k in cols :: cols[k][i], mean[i], std[i]))
  }

  /** The row without NaN cells, or None when `dropna` removes it. */
  function Complete(r: FrameRow): Option<FeatureRow> {
    if (forall k :: k in r.lags ==> r.lags[k].Some?) && r.rollingMean.Some? && r.rollingStd.Some? then
      Some(FeatureRow(r.obs, map k | k in r.lags :: r.lags[k].value, r.rollingMean.value, r.rollingStd.value))
    else
      None
  }

  /**
   * `DataFrame.dropna()`: the complete rows, in their original order. Every
   * kept row is the completion of an input row; no row is lost when all are
   * complete, and none is kept when none is. `DropNaAppend` and `DropNaOne`
   * pin the order down, `DropNaKeeps` the completeness.
   */
  function DropNa(rows: seq<FrameRow>): (out: seq<FeatureRow>)
    ensures |out| <= |rows|
    ensures (forall i :: 0 <= i < |rows| ==> Complete(rows[i]).Some?) ==> |out| == |rows|
    ensures (forall i :: 0 <= i < |rows| ==> Complete(rows[i]).None?) ==> out == []
    ensures forall j :: 0 <= j < |out| ==> exists i :: 0 <= i < |rows| && Complete(rows[i]) == Some(out[j])
  {
    if rows == [] then []
    else
      var rest := DropNa(rows[1..]);
      assert forall i :: 1 <= i < |rows| ==> rows[i] == rows[1..][i - 1];
      match Complete(rows[0])
      case Some(f) =>
        assert forall j :: 1 <= j < |rest| + 1 ==> ([f] + rest)[j] == rest[j - 1];
        [f] + rest
      case None => rest
  }

  /** Filtering a frame is filtering its two halves and joining the results: the kept rows stay in order. */
  lemma {:induction false} DropNaAppend(a: seq<FrameRow>, b: seq<FrameRow>)
    ensures DropNa(a + b) == DropNa(a) + DropNa(b)
  {
    if a == [] {
      assert a + b == b;
    } else {
      assert (a + b)[0] == a[0];
      assert (a + b)[1..] == a[1..] + b;
      DropNaAppend(a[1..], b);
    }
  }

  /** A single row is kept, as its completion, exactly when it has no NaN cell. */
  lemma DropNaOne(r: FrameRow)
    ensures DropNa([r]) == if Complete(r).Some? then [Complete(r).value] else []
  {
    assert [r][1..] == [];
  }

  /**
   * Every complete row is kept, at the position given by the number of
   * complete rows before it.
   */
  lemma DropNaKeeps(rows: seq<FrameRow>, i: nat)
    requires i < |rows| && Complete(rows[i]).Some?
    ensures
      var before := DropNa(rows[..i]);
      |before| < |DropNa(rows)| && DropNa(rows)[|before|] == Complete(rows[i]).value
  {
    var rest := rows[i + 1..];
    assert rows == rows[..i] + ([rows[i]] + rest);
    DropNaAppend(rows[..i], [rows[i]] + rest);
    DropNaAppend([rows[i]], rest);
    DropNaOne(rows[i]);
  }

  /**
   * What `create_lag_features` returns for a frame and a list of lags: some
   * of the input's rows, each with one lag column per requested lag, and
   * nothing at all for a frame too short to fill a rolling window.
   */
  function LagFeatures(df: seq<Obs>, lags: seq<int>): (out: seq<FeatureRow>)
    ensures |out| <= |df|
    ensures forall j :: 0 <= j < |out| ==> out[j].obs in df && forall k :: k in out[j].lags <==> k in lags
  {
    var v := Values(df);
    var prev := Shift(v, 1);
    DropNa(Assemble(df, LagColumns(v, lags), RollingMean(prev), RollingStd(prev)))
  }

  /**
   * A frame of seven rows or fewer has no full rolling window before any
   * row, so nothing survives, whatever the lags.
   */
  lemma ShortFrameKeepsNothing(df: seq<Obs>, lags: seq<int>)
    requires |df| <= WINDOW
    ensures LagFeatures(df, lags) == []
  {
    if df != [] {
      ShiftAt(Values(df), 1, 0);
    }
  }

  /**
   * `create_lag_features`: adds one shifted column per lag, then the causal
   * rolling mean and standard deviation, then drops the incomplete rows.
   * The input frame is a value and is left as it was.
   */
  method CreateLagFeatures(df: seq<Obs>, lags: seq<int>) returns (out: seq<FeatureRow>)
    ensures out == LagFeatures(df, lags)
  {
    var v := Values(df);
    var cols: map<int, seq<Cell>> := map[];
    for j := 0 to |lags|
      invariant cols == LagColumns(v, lags[..j])
    {
      assert lags[..j + 1] == lags[..j] + [lags[j]];
      cols := cols[lags[j] := Shift(v, lags[j])];
    }
    assert lags[..|lags|] == lags;
    var prev := Shift(v, 1);
    out := DropNa(Assemble(df, cols, RollingMean(prev), RollingStd(prev)));
  }

  /** Lags no longer than the rolling window, so the window alone decides which rows survive. */
  predicate WithinWindow(lags: seq<int>) {
    forall j :: 0 <= j < |lags| ==> 0 <= lags[j] <= WINDOW
  }

  /**
   * The reference row for input row i: each `lag_k` is the value k rows
   * earlier, the rolling statistics cover the seven values before row i.
   */
  function ExpectedRow(df: seq<Obs>, lags: seq<int>, i: nat): FeatureRow
    requires WINDOW <= i < |df| && WithinWindow(lags)
  {
    var v := Values(df);
    var w := v[i - WINDOW..i];
    FeatureRow(df[i], map k | k in lags :: v[i - k], Mean(w), SampleVariance(w))
  }

  /** No row of the frame holds a NaN cell. */
  predicate AllComplete(rows: seq<FrameRow>) {
    forall i :: 0 <= i < |rows| ==> Complete(rows[i]).Some?
  }

  /** Every row of a frame without NaN cells, as a kept row. */
  function Completions(rows: seq<FrameRow>): (out: seq<FeatureRow>)
    requires AllComplete(rows)
    ensures |out| == |rows| && forall j :: 0 <= j < |rows| ==> Some(out[j]) == Complete(rows[j])
  {
    seq(|rows|, j requires 0 <= j < |rows| => Complete(rows[j]).value)
  }

  /** A frame without NaN cells loses no row to `dropna`, and each row becomes its completion. */
  lemma {:induction false} DropNaAllComplete(rows: seq<FrameRow>)
    requires AllComplete(rows)
    ensures DropNa(rows) == Completions(rows)
  {
    if rows != [] {
      CompletionsCons(rows);
      DropNaAllComplete(rows[1..]);
    }
  }

  /** The completions of a frame are its first row's completion followed by those of the rest. */
  lemma CompletionsCons(rows: seq<FrameRow>)
    requires rows != [] && AllComplete(rows)
    ensures AllComplete(rows[1..])
    ensures Completions(rows) == [Complete(rows[0]).value] + Completions(rows[1..])
  {
    var rest := rows[1..];
    forall i | 0 <= i < |rest| ensures Complete(rest[i]).Some? {
      assert rest[i] == rows[i + 1];
    }
    forall j | 1 <= j < |rows| ensures Completions(rows)[j] == Completions(rest)[j - 1] {
      assert rows[j] == rest[j - 1];
    }
  }

  /** When the first m rows are incomplete and the rest complete, `dropna` keeps the rest. */
  lemma DropNaSuffix(rows: seq<FrameRow>, m: nat)
    requires m <= |rows|
    requires forall i :: 0 <= i < m ==> Complete(rows[i]).None?
    requires forall i :: m <= i < |rows| ==> Complete(rows[i]).Some?
    ensures |DropNa(rows)| == |rows| - m
    ensures forall j :: 0 <= j < |rows| - m ==> DropNa(rows)[j] == Complete(rows[j + m]).value
  {
    var head, tail := rows[..m], rows[m..];
    assert rows == head + tail;
    DropNaAppend(head, tail);
    assert DropNa(head) == [];
    assert AllComplete(tail) by {
      forall i | 0 <= i < |tail| ensures Complete(tail[i]).Some? {
        assert tail[i] == rows[m + i];
      }
    }
    DropNaAllComplete(tail);
    forall j | 0 <= j < |rows| - m ensures DropNa(rows)[j] == Complete(rows[j + m]).value {
      assert Some(Completions(tail)[j]) == Complete(tail[j]);
      assert tail[j] == rows[j + m];
    }
  }

  /** The rolling cells of row i: the statistics of the seven earlier values, NaN before row 7. */
  lemma RollingAt(v: seq<real>, i: nat)
    requires i < |v|
    ensures RollingMean(Shift(v, 1))[i] ==
      if i >= WINDOW then Some(Mean(v[i - WINDOW..i])) else None
    ensures RollingStd(Shift(v, 1))[i] ==
      if i >= WINDOW then Some(SampleVariance(v[i - WINDOW..i])) else None
  {
    CausalWindow(v, i);
  }

  /** From row 7 on, every lag cell of row i holds the value k rows earlier. */
  lemma LagCellsAt(v: seq<real>, lags: seq<int>, i: nat)
    requires WithinWindow(lags) && WINDOW <= i < |v|
    ensures
      var cols := LagColumns(v, lags);
      (map k | k in cols :: cols[k][i]) == map k | k in lags :: Some(v[i - k])
  {
    var cols := LagColumns(v, lags);
    var got := map k | k in cols :: cols[k][i];
    var want := map k | k in lags :: Some(v[i - k]);
    LagCellsPointwise(v, lags, i);
    assert got.Keys == want.Keys;
  }

  /** Each lag column, read at row i. */
  lemma LagCellsPointwise(v: seq<real>, lags: seq<int>, i: nat)
    requires WithinWindow(lags) && WINDOW <= i < |v|
    ensures forall k :: k in lags ==> Shift(v, k)[i] == Some(v[i - k])
  {
    forall k | k in lags ensures Shift(v, k)[i] == Some(v[i - k]) {
      var j :| 0 <= j < |lags| && lags[j] == k;
      ShiftAt(v, k, i);
    }
  }

  /** A kept row's lag map, read back as numbers. */
  lemma CompleteLags(v: seq<real>, lags: seq<int>, i: nat)
    requires WithinWindow(lags) && WINDOW <= i < |v|
    ensures
      var cells := map k | k in lags :: Some(v[i - k]);
      (forall k :: k in cells ==> cells[k].Some?) &&
      (map k | k in cells :: cells[k].value) == map k | k in lags :: v[i - k]
  {
    var cells := map k | k in lags :: Some(v[i - k]);
    var got := map k | k in cells :: cells[k].value;
    var want := map k | k in lags :: v[i - k];
    assert got.Keys == want.Keys;
  }

  /** Row i of the assembled frame is complete exactly when i is at least 7, and then it is the reference row. */
  lemma AssembledRow(df: seq<Obs>, lags: seq<int>, i: nat)
    requires WithinWindow(lags) && i < |df|
    ensures
      var v := Values(df);
      var prev := Shift(v, 1);
      var rows := Assemble(df, LagColumns(v, lags), RollingMean(prev), RollingStd(prev));
      Complete(rows[i]) == if i >= WINDOW then Some(ExpectedRow(df, lags, i)) else None
  {
    var v := Values(df);
    var prev := Shift(v, 1);
    var cols := LagColumns(v, lags);
    var rows := Assemble(df, cols, RollingMean(prev), RollingStd(prev));
    RollingAt(v, i);
    assert rows[i] == FrameRow(df[i], map k | k in cols :: cols[k][i], RollingMean(prev)[i], RollingStd(prev)[i]);
    if i >= WINDOW {
      LagCellsAt(v, lags, i);
      CompleteLags(v, lags, i);
    }
  }

  /**
   * With lags no longer than the window, `create_lag_features` keeps exactly
   * rows 7..n-1, in order, with their own date, value and calendar fields,
   * and each kept row carries the reference features.
   */
  lemma LagFeaturesRows(df: seq<Obs>, lags: seq<int>)
    requires WithinWindow(lags)
    ensures |LagFeatures(df, lags)| == if |df| >= WINDOW then |df| - WINDOW else 0
    ensures forall j :: 0 <= j < |LagFeatures(df, lags)| ==>
      j + WINDOW < |df| && LagFeatures(df, lags)[j] == ExpectedRow(df, lags, j + WINDOW)
  {
    var v := Values(df);
    var prev := Shift(v, 1);
    var rows := Assemble(df, LagColumns(v, lags), RollingMean(prev), RollingStd(prev));
    var m := Min(WINDOW, |df|);
    forall i | 0 <= i < |rows| ensures Complete(rows[i]) == if i >= WINDOW then Some(ExpectedRow(df, lags, i)) else None {
      AssembledRow(df, lags, i);
    }
    DropNaSuffix(rows, m);
  }

  /**
   * With the default lags, input row i (from row 7 on) becomes output row
   * i - 7, the reference row.
   */
  lemma KeptRow(df: seq<Obs>, i: nat)
    requires WINDOW <= i < |df|
    ensures |LagFeatures(df, DEFAULT_LAGS)| == |df| - WINDOW
    ensures LagFeatures(df, DEFAULT_LAGS)[i - WINDOW] == ExpectedRow(df, DEFAULT_LAGS, i)
  {
    LagFeaturesRows(df, DEFAULT_LAGS);
  }

  /**
   * The reference row for the default lags: row i's own observation, the
   * values 1, 2, 3 and 7 rows earlier, and the mean and sample variance of
   * the seven values before it.
   */
  lemma DefaultRow(df: seq<Obs>, i: nat)
    requires WINDOW <= i < |df|
    ensures
      var r := ExpectedRow(df, DEFAULT_LAGS, i);
      var v := Values(df);
      var w := v[i - WINDOW..i];
      && r.obs == df[i]
      && 1 in r.lags && 2 in r.lags && 3 in r.lags && 7 in r.lags
      && r.lags[1] == v[i - 1] && r.lags[2] == v[i - 2] && r.lags[3] == v[i - 3] && r.lags[7] == v[i - 7]
      && r.rollingMean == Mean(w) && r.rollingStd == SampleVariance(w)
  {
    assert 1 in DEFAULT_LAGS && 2 in DEFAULT_LAGS && 3 in DEFAULT_LAGS && 7 in DEFAULT_LAGS;
  }

  /**
   * `df[name]` on a kept row; None is a KeyError. Only `value` and the
   * feature names are columns, and a row carrying the default lags has every
   * feature column.
   */
  function Select(r: FeatureRow, name: string): (x: Option<real>)
    ensures x.Some? ==> name == "value" || name in FEATURE_COLS
    ensures name == "value" ==> x == Some(r.obs.value)
    ensures name in FEATURE_COLS && 1 in r.lags && 2 in r.lags && 3 in r.lags && 7 in r.lags ==> x.Some?
  {
    if name == "value" then Some(r.obs.value)
    else if name == "day_of_week" then Some(r.obs.dayOfWeek as real)
    else if name == "day_of_month" then Some(r.obs.dayOfMonth as real)
    else if name == "month" then Some(r.obs.month as real)
    else if name == "lag_1" then LagCell(r, 1)
    else if name == "lag_2" then LagCell(r, 2)
    else if name == "lag_3" then LagCell(r, 3)
    else if name == "lag_7" then LagCell(r, 7)
    else if name == "rolling_mean_7" then Some(r.rollingMean)
    else if name == "rolling_std_7" then Some(r.rollingStd)
    else None
  }

  function LagCell(r: FeatureRow, k: int): Option<real> {
    if k in r.lags then Some(r.lags[k]) else None
  }

  predicate Selectable(rows: seq<FeatureRow>, cols: seq<string>) {
    forall j, c :: 0 <= j < |rows| && 0 <= c < |cols| ==> Select(rows[j], cols[c]).Some?
  }

  /** `df[feature_cols]` as a matrix, one row per kept row. */
  function Matrix(rows: seq<FeatureRow>, cols: seq<string>): (x: seq<seq<real>>)
    requires Selectable(rows, cols)
    ensures |x| == |rows|
    ensures forall j :: 0 <= j < |rows| ==> |x[j]| == |cols|
    ensures forall j, c :: 0 <= j < |rows| && 0 <= c < |cols| ==> Some(x[j][c]) == Select(rows[j], cols[c])
  {
    seq(|rows|, j requires 0 <= j < |rows| =>
      seq(|cols|, c requires 0 <= c < |cols| => Select(rows[j], cols[c]).value))
  }

  /** `df['value']`, the label column. */
  function Labels(rows: seq<FeatureRow>): (y: seq<real>)
    ensures |y| == |rows| && forall j :: 0 <= j < |rows| ==> y[j] == rows[j].obs.value
  {
    seq(|rows|, j requires 0 <= j < |rows| => Select(rows[j], "value").value)
  }

  /** Every feature column can be selected from every row the default lags produce. */
  lemma FeatureColsSelectable(df: seq<Obs>)
    ensures Selectable(LagFeatures(df, DEFAULT_LAGS), FEATURE_COLS)
  {
    var out := LagFeatures(df, DEFAULT_LAGS);
    LagFeaturesRows(df, DEFAULT_LAGS);
    forall j, c | 0 <= j < |out| && 0 <= c < |FEATURE_COLS| ensures Select(out[j], FEATURE_COLS[c]).Some? {
      KeptRow(df, j + WINDOW);
      DefaultRow(df, j + WINDOW);
      assert FEATURE_COLS[c] in FEATURE_COLS;
    }
  }

  /** A kept row carrying the default lags becomes, in `feature_cols` order, this matrix row. */
  lemma SelectedRow(rows: seq<FeatureRow>, j: nat)
    requires j < |rows| && Selectable(rows, FEATURE_COLS)
    requires 1 in rows[j].lags && 2 in rows[j].lags && 3 in rows[j].lags && 7 in rows[j].lags
    ensures
      var r := rows[j];
      Matrix(rows, FEATURE_COLS)[j] ==
        [r.obs.dayOfWeek as real, r.obs.dayOfMonth as real, r.obs.month as real,
         r.lags[1], r.lags[2], r.lags[3], r.lags[7], r.rollingMean, r.rollingStd]
  {
    var r := rows[j];
    var x := Matrix(rows, FEATURE_COLS)[j];
    var want := [r.obs.dayOfWeek as real, r.obs.dayOfMonth as real, r.obs.month as real,
                 r.lags[1], r.lags[2], r.lags[3], r.lags[7], r.rollingMean, r.rollingStd];
    forall c | 0 <= c < |FEATURE_COLS| ensures x[c] == want[c] {
      assert Some(x[c]) == Select(r, FEATURE_COLS[c]);
    }
  }

  /**
   * Row i of the input, once kept, becomes this row of the training matrix:
   * its own calendar fields, the values 1, 2, 3 and 7 rows earlier, and the
   * mean and sample variance of the seven values before it.
   */
  lemma TrainingVector(df: seq<Obs>, i: nat)
    requires WINDOW <= i < |df|
    ensures
      var out := LagFeatures(df, DEFAULT_LAGS);
      var v := Values(df);
      var w := v[i - WINDOW..i];
      && |out| == |df| - WINDOW
      && Selectable(out, FEATURE_COLS)
      && Matrix(out, FEATURE_COLS)[i - WINDOW] ==
           [df[i].dayOfWeek as real, df[i].dayOfMonth as real, df[i].month as real,
            v[i - 1], v[i - 2], v[i - 3], v[i - 7], Mean(w), SampleVariance(w)]
  {
    var out := LagFeatures(df, DEFAULT_LAGS);
    var v := Values(df);
    var w := v[i - WINDOW..i];
    KeptRow(df, i);
    var r := out[i - WINDOW];
    assert
      && r.obs == df[i]
      && 1 in r.lags && 2 in r.lags && 3 in r.lags && 7 in r.lags
      && r.lags[1] == v[i - 1] && r.lags[2] == v[i - 2] && r.lags[3] == v[i - 3] && r.lags[7] == v[i - 7]
      && r.rollingMean == Mean(w) && r.rollingStd == SampleVariance(w)
    by {
      DefaultRow(df, i);
    }
    FeatureColsSelectable(df);
    SelectedRow(out, i - WINDOW);
  }

  /** `train_test_split` refuses a split that leaves the training set empty. */
  datatype SplitError = EmptyTrainSet

  /** `ceil(0.2 * n)`, the size of the test set. */
  function TestSize(n: nat): nat {
    (n + 4) / 5
  }

  /**
   * `train_test_split(..., test_size=0.2, shuffle=False)`: the first rows
   * train, the last fifth (rounded up) tests.
   */
  function ChronologicalSplit<T>(rows: seq<T>): (r: Result<(seq<T>, seq<T>), SplitError>)
    ensures r.Success? <==> |rows| >= 2
    ensures r.Success? ==>
      var (train, test) := r.value;
      && train + test == rows
      && 5 * |test| - 5 < |rows| <= 5 * |test|
      && |train| >= 1 && |test| >= 1
  {
    var nTest := TestSize(|rows|);
    if |rows| <= nTest then Failure(EmptyTrainSet)
    else
      var nTrain := |rows| - nTest;
      assert rows[..nTrain] + rows[nTrain..] == rows;
      Success((rows[..nTrain], rows[nTrain..]))
  }

  predicate Chronological(rows: seq<FeatureRow>) {
    forall i, j :: 0 <= i < j < |rows| ==> rows[i].obs.date < rows[j].obs.date
  }

  /** Every test row is later than every training row. */
  lemma SplitIsChronological(rows: seq<FeatureRow>)
    requires Chronological(rows)
    ensures ChronologicalSplit(rows).Success? ==>
      var (train, test) := ChronologicalSplit(rows).value;
      forall a, b :: 0 <= a < |train| && 0 <= b < |test| ==> train[a].obs.date < test[b].obs.date
  {
    var r := ChronologicalSplit(rows);
    if r.Success? {
      var (train, test) := r.value;
      forall a, b | 0 <= a < |train| && 0 <= b < |test| ensures train[a].obs.date < test[b].obs.date {
        assert train[a] == rows[a] && test[b] == rows[|train| + b];
      }
    }
  }

  predicate DatesIncrease(df: seq<Obs>) {
    forall i, j :: 0 <= i < j < |df| ==> df[i].date < df[j].date
  }

  /** Feature construction keeps the input's time order. */
  lemma LagFeaturesChronological(df: seq<Obs>)
    requires DatesIncrease(df)
    ensures Chronological(LagFeatures(df, DEFAULT_LAGS))
  {
    var out := LagFeatures(df, DEFAULT_LAGS);
    LagFeaturesRows(df, DEFAULT_LAGS);
    forall a, b | 0 <= a < b < |out| ensures out[a].obs.date < out[b].obs.date {
      KeptRow(df, a + WINDOW);
      KeptRow(df, b + WINDOW);
    }
  }

  /**
   * One entry of what `predict` returns: a number, or something `float()`
   * cannot convert (the row of a multi-output model, an arbitrary object).
   */
  datatype Output = Scalar(x: real) | NonScalar

  /** The fitted regressor: `predict` maps a matrix to one entry per row, or raises (None). */
  datatype Regressor = Regressor(predict: seq<seq<real>> -> Option<seq<Output>>)

  datatype EvalMetrics = EvalMetrics(mae: real, rmse: real)

  datatype TrainConfig = TrainConfig(nEstimators: int, maxDepth: int, nSamples: int)

  /** N_ESTIMATORS, MAX_DEPTH and N_SAMPLES when the environment sets none. */
  const DEFAULT_CONFIG: TrainConfig := TrainConfig(100, 10, 1000)

  /**
   * The `feature_cols` entry of an artifact dictionary: absent, stored as
   * None, or a list of column names. `.get('feature_cols', default)` falls
   * back to the default only when the key is absent.
   */
  datatype ColumnsEntry = NoColumns | NullColumns | Columns(names: seq<string>)

  /**
   * The saved artifact dictionary. The server reads whatever dictionary it
   * is given, so every key may be missing. For `model`, `metrics`,
   * `trained_at` and `config`, a missing key and a key stored as None are
   * read alike (`[...]` then fails either way, `.get` yields None either
   * way), so None stands for both; `feature_cols` keeps them apart.
   */
  datatype Artifact = Artifact(
    model: Option<Regressor>,
    featureCols: ColumnsEntry,
    metrics: Option<EvalMetrics>,
    trainedAt: Option<string>,
    config: Option<TrainConfig>)

  /**
   * A frame long enough to train on yields at least two kept rows, so the
   * split leaves both parts non-empty, and every feature column can be
   * selected from both.
   */
  lemma TrainingParts(df: seq<Obs>)
    requires |df| >= WINDOW + 2
    ensures
      var rows := LagFeatures(df, DEFAULT_LAGS);
      var nTrain := |rows| - TestSize(|rows|);
      && |rows| == |df| - WINDOW
      && 0 < nTrain < |rows|
      && Selectable(rows[..nTrain], FEATURE_COLS)
      && Selectable(rows[nTrain..], FEATURE_COLS)
  {
    var rows := LagFeatures(df, DEFAULT_LAGS);
    var nTrain := |rows| - TestSize(|rows|);
    KeptRow(df, WINDOW);
    FeatureColsSelectable(df);
    SplitSizes(|rows|);
    PartsSelectable(rows, FEATURE_COLS, nTrain);
  }

  /** Both sides of a cut keep the columns selectable. */
  lemma PartsSelectable(rows: seq<FeatureRow>, cols: seq<string>, n: nat)
    requires Selectable(rows, cols) && n <= |rows|
    ensures Selectable(rows[..n], cols) && Selectable(rows[n..], cols)
  {
    SelectableSlice(rows, cols, 0, n);
    SelectableSlice(rows, cols, n, |rows|);
    assert rows[0..n] == rows[..n] && rows[n..|rows|] == rows[n..];
  }

  /** Two rows or more leave both parts of the split non-empty. */
  lemma SplitSizes(n: nat)
    requires n >= 2
    ensures 0 < n - TestSize(n) < n
  {
  }

  /** Any run of consecutive rows keeps the columns selectable. */
  lemma SelectableSlice(rows: seq<FeatureRow>, cols: seq<string>, lo: nat, hi: nat)
    requires Selectable(rows, cols) && lo <= hi <= |rows|
    ensures Selectable(rows[lo..hi], cols)
  {
    forall j, c | 0 <= j < hi - lo && 0 <= c < |cols| ensures Select(rows[lo..hi][j], cols[c]).Some? {
      assert rows[lo..hi][j] == rows[lo + j];
    }
  }

  /** The regressor fitted on the feature matrix and labels of the training part. */
  function TrainedModel(df: seq<Obs>, fit: (seq<seq<real>>, seq<real>) -> Regressor): Regressor
    requires |df| >= WINDOW + 2
  {
    var rows := LagFeatures(df, DEFAULT_LAGS);
    var nTrain := |rows| - TestSize(|rows|);
    TrainingParts(df);
    fit(Matrix(rows[..nTrain], FEATURE_COLS), Labels(rows[..nTrain]))
  }

  /** The evaluation of that regressor on the feature matrix and labels of the test part. */
  function TrainedMetrics(df: seq<Obs>, fit: (seq<seq<real>>, seq<real>) -> Regressor,
                          evaluate: (Regressor, seq<seq<real>>, seq<real>) -> EvalMetrics): EvalMetrics
    requires |df| >= WINDOW + 2
  {
    var rows := LagFeatures(df, DEFAULT_LAGS);
    var nTrain := |rows| - TestSize(|rows|);
    TrainingParts(df);
    evaluate(TrainedModel(df, fit), Matrix(rows[nTrain..], FEATURE_COLS), Labels(rows[nTrain..]))
  }

  /**
   * Steps 2 to 5 of the training run and the artifact it saves: features,
   * chronological split, fit on the training part, evaluation on the test
   * part. Generating the frame and writing the file are not modelled.
   */
  method Train(df: seq<Obs>, config: TrainConfig,
               fit: (seq<seq<real>>, seq<real>) -> Regressor,
               evaluate: (Regressor, seq<seq<real>>, seq<real>) -> EvalMetrics,
               trainedAt: string)
    returns (r: Result<Artifact, SplitError>)
    ensures r.Success? <==> |df| >= WINDOW + 2
    ensures r.Success? ==>
      && r.value.featureCols == Columns(FEATURE_COLS)
      && r.value.config == Some(config)
      && r.value.trainedAt == Some(trainedAt)
      && r.value.model.Some? && r.value.metrics.Some?
    ensures r.Success? ==>
      && r.value.model == Some(TrainedModel(df, fit))
      && r.value.metrics == Some(TrainedMetrics(df, fit, evaluate))
  {
    var rows := CreateLagFeatures(df, DEFAULT_LAGS);
    LagFeaturesRows(df, DEFAULT_LAGS);
    var split := ChronologicalSplit(rows);
    if split.Failure? {
      return Failure(split.error);
    }
    TrainingParts(df);
    var (train, test) := split.value;
    assert train == rows[..|train|] && test == rows[|train|..];
    var model := fit(Matrix(train, FEATURE_COLS), Labels(train));
    var metrics := evaluate(model, Matrix(test, FEATURE_COLS), Labels(test));
    r := Success(Artifact(Some(model), Columns(FEATURE_COLS), Some(metrics), Some(trainedAt), Some(config)));
  }
}
