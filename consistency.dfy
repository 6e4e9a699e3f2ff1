/**
 * The train/serve feature contract: a row the trainer keeps carries the
 * features the server derives from a request holding the series up to,
 * and not including, that row, when the request's date is the row's date.
 */
module Consistency {
  import opened Wrappers
  import opened Stats
  import opened Features
  import opened Training

  /** The calendar fields of a training row, as the server would see them on that day. */
  function CalendarOf(o: Obs): Calendar {
    Calendar(o.dayOfWeek, o.dayOfMonth, o.month)
  }

  /**
   * The artifact's column list is the server's key order, so both the
   * explicit list and the fallback `features.keys()` project every entry,
   * in the same order.
   */
  lemma FeatureColsAreDictKeys(values: seq<real>, cal: Calendar)
    requires values != []
    ensures FEATURE_COLS == DICT_KEYS
    ensures
      var d := Derive(values, cal).value;
      var p := Project(d, FEATURE_COLS);
      && p == Project(d, Keys(d))
      && p.Success? && |p.value| == |FEATURE_COLS|
      && forall c :: 0 <= c < |FEATURE_COLS| ==> Lookup(d, FEATURE_COLS[c]) == Some(p.value[c])
  {
    ProjectOwnKeys(values, cal);
  }

  /**
   * The named features of a kept training row and of a serving dictionary
   * agree, `rolling_std_7` up to the factor 6/7 between a population and a
   * sample variance over seven values.
   */
  predicate FeaturesMatch(r: FeatureRow, d: FeatureDict) {
    && 1 in r.lags && 2 in r.lags && 3 in r.lags && 7 in r.lags
    && Lookup(d, "day_of_week") == Some(r.obs.dayOfWeek as real)
    && Lookup(d, "day_of_month") == Some(r.obs.dayOfMonth as real)
    && Lookup(d, "month") == Some(r.obs.month as real)
    && Lookup(d, "lag_1") == Some(r.lags[1])
    && Lookup(d, "lag_2") == Some(r.lags[2])
    && Lookup(d, "lag_3") == Some(r.lags[3])
    && Lookup(d, "lag_7") == Some(r.lags[7])
    && Lookup(d, "rolling_mean_7") == Some(r.rollingMean)
    && Lookup(d, "rolling_std_7").Some?
    && 7.0 * Lookup(d, "rolling_std_7").value == 6.0 * r.rollingStd
  }

  /**
   * The dictionary the server derives from the first i values of a series
   * (i at least 7), in terms of that series.
   */
  lemma RequestFeatures(v: seq<real>, i: nat, cal: Calendar)
    requires WINDOW <= i <= |v|
    ensures
      var d := Derive(v[..i], cal).value;
      var w := v[i - WINDOW..i];
      && Lookup(d, "day_of_week") == Some(cal.dayOfWeek as real)
      && Lookup(d, "day_of_month") == Some(cal.dayOfMonth as real)
      && Lookup(d, "month") == Some(cal.month as real)
      && Lookup(d, "lag_1") == Some(v[i - 1])
      && Lookup(d, "lag_2") == Some(v[i - 2])
      && Lookup(d, "lag_3") == Some(v[i - 3])
      && Lookup(d, "lag_7") == Some(v[i - 7])
      && Lookup(d, "rolling_mean_7") == Some(Mean(w))
      && Lookup(d, "rolling_std_7") == Some(PopulationVariance(w))
  {
    var req := v[..i];
    DeriveCalendar(req, cal);
    DeriveLags(req, cal);
    DeriveRolling(req, cal);
    assert req[|req| - WINDOW..] == v[i - WINDOW..i];
  }

  /**
   * Train/serve consistency of the named features: for a kept row i, the
   * server's dictionary for the request `values[..i]` dated like row i holds
   * the row's calendar fields, its four lags and its rolling mean; its
   * `rolling_std_7` entry is 6/7 of the row's, because the server uses the
   * population and the trainer the sample variance.
   */
  lemma TrainServeConsistency(df: seq<Obs>, i: nat)
    requires WINDOW <= i < |df|
    ensures |LagFeatures(df, DEFAULT_LAGS)| == |df| - WINDOW
    ensures Derive(Values(df)[..i], CalendarOf(df[i])).Success?
    ensures
      var row := LagFeatures(df, DEFAULT_LAGS)[i - WINDOW];
      row.obs == df[i] && FeaturesMatch(row, Derive(Values(df)[..i], CalendarOf(df[i])).value)
  {
    var v := Values(df);
    var w := v[i - WINDOW..i];
    KeptRow(df, i);
    DefaultRow(df, i);
    RequestFeatures(v, i, CalendarOf(df[i]));
    SevenWindowVarianceRatio(w);
  }

  /**
   * The model sees the same vector at both ends: the training matrix row of
   * a kept row and the server's projected request agree column by column on
   * the first eight features, and on `rolling_std_7` up to the 6/7 factor.
   */
  lemma ProjectedRowsAgree(df: seq<Obs>, i: nat)
    requires WINDOW <= i < |df|
    ensures
      var out := LagFeatures(df, DEFAULT_LAGS);
      var d := Derive(Values(df)[..i], CalendarOf(df[i]));
      && |out| == |df| - WINDOW
      && Selectable(out, FEATURE_COLS)
      && d.Success? && Project(d.value, FEATURE_COLS).Success?
      && var x := Matrix(out, FEATURE_COLS)[i - WINDOW];
         var s := Project(d.value, FEATURE_COLS).value;
         && |x| == |s| == |FEATURE_COLS|
         && x[..8] == s[..8]
         && 7.0 * s[8] == 6.0 * x[8]
  {
    var v := Values(df);
    var req := v[..i];
    var w := v[i - WINDOW..i];
    var cal := CalendarOf(df[i]);
    var head := [df[i].dayOfWeek as real, df[i].dayOfMonth as real, df[i].month as real,
                 v[i - 1], v[i - 2], v[i - 3], v[i - 7], Mean(w)];
    TrainingVector(df, i);
    var x := Matrix(LagFeatures(df, DEFAULT_LAGS), FEATURE_COLS)[i - WINDOW];
    assert x == head + [SampleVariance(w)];
    ServingVector(req, cal);
    assert req[|req| - WINDOW..] == w;
    var s := Project(Derive(req, cal).value, FEATURE_COLS).value;
    assert s == head + [PopulationVariance(w)];
    SevenWindowVarianceRatio(w);
    assert x[..8] == head && s[..8] == head;
  }

  /**
   * Time order survives feature construction, so the chronological split
   * of the training run never lets a test row precede a training row.
   */
  lemma TrainingSplitIsChronological(df: seq<Obs>)
    requires DatesIncrease(df)
    ensures
      var rows := LagFeatures(df, DEFAULT_LAGS);
      ChronologicalSplit(rows).Success? ==>
        var (train, test) := ChronologicalSplit(rows).value;
        forall a, b :: 0 <= a < |train| && 0 <= b < |test| ==> train[a].obs.date < test[b].obs.date
  {
    LagFeaturesChronological(df);
    SplitIsChronological(LagFeatures(df, DEFAULT_LAGS));
  }

  /** The sample request of the API's schema: lags come from its tail, the mean covers all five values. */
  lemma SampleRequest(cal: Calendar)
    ensures
      var d := Derive([100.0, 105.0, 103.0, 108.0, 110.0], cal).value;
      && Lookup(d, "lag_1") == Some(110.0)
      && Lookup(d, "lag_2") == Some(108.0)
      && Lookup(d, "lag_3") == Some(103.0)
      && Lookup(d, "lag_7") == Some(100.0)
      && Lookup(d, "rolling_mean_7") == Some(105.2)
  {
    var values := [100.0, 105.0, 103.0, 108.0, 110.0];
    DeriveLags(values, cal);
    DeriveRolling(values, cal);
    assert values[0..] == values;
    SampleMean();
  }

  /** The example request's five values average to 105.2. */
  lemma SampleMean()
    ensures Mean([100.0, 105.0, 103.0, 108.0, 110.0]) == 105.2
  {
    var values := [100.0, 105.0, 103.0, 108.0, 110.0];
    assert values[1..] == [105.0, 103.0, 108.0, 110.0];
    assert Sum(values) == 526.0;
  }
}
