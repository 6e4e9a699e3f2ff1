/**
 * The serving-side feature deriver of the prediction API: the nine-entry
 * feature dictionary built from a request's values, and its projection into
 * the column order the model artifact declares.
 *
 * The calendar fields come from the request's wall-clock date in the API;
 * here they are an explicit `Calendar` argument.
 */
module Features {
  import opened Wrappers
  import opened Stats

  /** The three calendar fields of a date: weekday 0-6, day 1-31, month 1-12. */
  datatype Calendar = Calendar(dayOfWeek: int, dayOfMonth: int, month: int)

  /** An insertion-ordered dictionary from feature name to value. */
  type FeatureDict = seq<(string, real)>

  /** `values[0]` on an empty request array raises an index error. */
  datatype DeriveError = EmptyValues

  /** The keys the deriver writes, in the order it writes them. */
  const DICT_KEYS: seq<string> := ["day_of_week", "day_of_month", "month",
                                   "lag_1", "lag_2", "lag_3", "lag_7",
                                   "rolling_mean_7", "rolling_std_7"]

  function Keys(d: FeatureDict): (ks: seq<string>)
    ensures |ks| == |d| && forall i :: 0 <= i < |d| ==> ks[i] == d[i].0
  {
    seq(|d|, i requires 0 <= i < |d| => d[i].0)
  }

  /** `d[name]`: the value of the first entry named `name`, or None (a KeyError). */
  function Lookup(d: FeatureDict, name: string): (r: Option<real>)
    ensures r.Some? <==> name in Keys(d)
  {
    if d == [] then None
    else if d[0].0 == name then Some(d[0].1)
    else
      var r := Lookup(d[1..], name);
      assert Keys(d) == [d[0].0] + Keys(d[1..]);
      r
  }

  /** An entry whose name no earlier entry carries is what a lookup of that name finds. */
  lemma {:induction false} LookupFirst(d: FeatureDict, i: nat)
    requires i < |d|
    requires forall j :: 0 <= j < i ==> d[j].0 != d[i].0
    ensures Lookup(d, d[i].0) == Some(d[i].1)
  {
    if i > 0 {
      LookupFirst(d[1..], i - 1);
    }
  }

  /** `values[-k] if len(values) >= k else 0`. */
  function LagOrZero(values: seq<real>, k: nat): real {
    if |values| >= k && k > 0 then values[|values| - k] else 0.0
  }

  /** The last seven values, or all of them when there are fewer. */
  function TrailingWindow(values: seq<real>): seq<real> {
    if |values| >= WINDOW then values[|values| - WINDOW..] else values
  }

  /**
   * The feature dictionary of a request, or the index error an empty request
   * raises. `rolling_std_7` carries the population variance of the window
   * (the square root is not modelled).
   */
  function Derive(values: seq<real>, cal: Calendar): (r: Result<FeatureDict, DeriveError>)
    ensures r.Failure? <==> values == []
    ensures r.Success? ==> Keys(r.value) == DICT_KEYS
  {
    if values == [] then Failure(EmptyValues)
    else
      var w := TrailingWindow(values);
      var lag7 := if |values| >= WINDOW then values[|values| - WINDOW] else values[0];
      Success([("day_of_week", cal.dayOfWeek as real),
               ("day_of_month", cal.dayOfMonth as real),
               ("month", cal.month as real),
               ("lag_1", LagOrZero(values, 1)),
               ("lag_2", LagOrZero(values, 2)),
               ("lag_3", LagOrZero(values, 3)),
               ("lag_7", lag7),
               ("rolling_mean_7", Mean(w)),
               ("rolling_std_7", PopulationVariance(w))])
  }

  /** No feature name occurs twice among the dictionary keys. */
  lemma DictKeysDistinct()
    ensures forall i, j :: 0 <= j < i < |DICT_KEYS| ==> DICT_KEYS[j] != DICT_KEYS[i]
  {
  }

  /** Looking a name of the dictionary up yields the entry stored under it. */
  lemma LookupDerived(values: seq<real>, cal: Calendar, i: nat)
    requires values != [] && i < |DICT_KEYS|
    ensures Lookup(Derive(values, cal).value, DICT_KEYS[i]) == Some(Derive(values, cal).value[i].1)
  {
    var d := Derive(values, cal).value;
    DictKeysDistinct();
    assert Keys(d)[i] == d[i].0;
    forall j | 0 <= j < i ensures d[j].0 != d[i].0 {
      assert Keys(d)[j] == d[j].0;
    }
    LookupFirst(d, i);
  }

  /** The calendar entries are the injected date's fields. */
  lemma DeriveCalendar(values: seq<real>, cal: Calendar)
    requires values != []
    ensures
      var d := Derive(values, cal).value;
      && Lookup(d, "day_of_week") == Some(cal.dayOfWeek as real)
      && Lookup(d, "day_of_month") == Some(cal.dayOfMonth as real)
      && Lookup(d, "month") == Some(cal.month as real)
  {
    LookupDerived(values, cal, 0);
    LookupDerived(values, cal, 1);
    LookupDerived(values, cal, 2);
  }

  /**
   * `lag_k` is the value k steps before the end of the request, or 0 when the
   * request is shorter than k; `lag_7` falls back to the earliest value.
   */
  lemma DeriveLags(values: seq<real>, cal: Calendar)
    requires values != []
    ensures
      var d := Derive(values, cal).value;
      var n := |values|;
      && Lookup(d, "lag_1") == Some(values[n - 1])
      && Lookup(d, "lag_2") == Some(if n >= 2 then values[n - 2] else 0.0)
      && Lookup(d, "lag_3") == Some(if n >= 3 then values[n - 3] else 0.0)
      && Lookup(d, "lag_7") == Some(if n >= 7 then values[n - 7] else values[0])
  {
    LookupDerived(values, cal, 3);
    LookupDerived(values, cal, 4);
    LookupDerived(values, cal, 5);
    LookupDerived(values, cal, 6);
  }

  /**
   * The rolling entries summarise exactly the last seven values, or the whole
   * request when it is shorter.
   */
  lemma DeriveRolling(values: seq<real>, cal: Calendar)
    requires values != []
    ensures
      var d := Derive(values, cal).value;
      var n := |values|;
      var w := values[n - (if n >= 7 then 7 else n)..];
      && Lookup(d, "rolling_mean_7") == Some(Mean(w))
      && Lookup(d, "rolling_std_7") == Some(PopulationVariance(w))
  {
    var n := |values|;
    var w := values[n - (if n >= 7 then 7 else n)..];
    assert TrailingWindow(values) == w by {
      if n < 7 {
        assert w == values[0..] == values;
      }
    }
    LookupDerived(values, cal, 7);
    LookupDerived(values, cal, 8);
  }

  /**
   * `[d[c] for c in cols]`: the values in `cols` order, or the first column
   * name that is not a key (the KeyError the comprehension raises).
   */
  function Project(d: FeatureDict, cols: seq<string>): (r: Result<seq<real>, string>)
    ensures r.Success? <==> forall i :: 0 <= i < |cols| ==> cols[i] in Keys(d)
    ensures r.Success? ==>
      |r.value| == |cols| && forall i :: 0 <= i < |cols| ==> Lookup(d, cols[i]) == Some(r.value[i])
    ensures r.Failure? ==>
      exists k :: 0 <= k < |cols| && cols[k] == r.error && r.error !in Keys(d) &&
        forall j :: 0 <= j < k ==> cols[j] in Keys(d)
  {
    if cols == [] then Success([])
    else
      match Lookup(d, cols[0])
      case None => Failure(cols[0])
      case Some(x) =>
        match Project(d, cols[1..])
        case Failure(e) =>
          assert forall j :: 1 <= j < |cols| ==> cols[j] == cols[1..][j - 1];
          Failure(e)
        case Success(xs) =>
          assert forall j :: 1 <= j < |cols| ==> cols[j] == cols[1..][j - 1];
          Success([x] + xs)
  }

  /**
   * `features.keys()`, the fallback column order when the artifact names
   * none, projects every entry of the dictionary in insertion order.
   */
  lemma ProjectOwnKeys(values: seq<real>, cal: Calendar)
    requires values != []
    ensures
      var d := Derive(values, cal).value;
      Project(d, Keys(d)) == Success(seq(|d|, i requires 0 <= i < |d| => d[i].1))
  {
    var d := Derive(values, cal).value;
    forall i | 0 <= i < |DICT_KEYS| ensures DICT_KEYS[i] in Keys(d) { }
    var p := Project(d, Keys(d));
    assert p.Success? && |p.value| == |d|;
    forall i | 0 <= i < |d| ensures p.value[i] == d[i].1 {
      LookupDerived(values, cal, i);
    }
    assert p.value == seq(|d|, i requires 0 <= i < |d| => d[i].1);
  }

  /**
   * A request of seven or more values projects, in the dictionary's key
   * order, to its calendar fields, the values 1, 2, 3 and 7 steps before its
   * end, and the mean and population variance of its last seven values.
   */
  lemma ServingVector(values: seq<real>, cal: Calendar)
    requires |values| >= WINDOW
    ensures
      var n := |values|;
      var w := values[n - WINDOW..];
      Project(Derive(values, cal).value, DICT_KEYS) ==
        Success([cal.dayOfWeek as real, cal.dayOfMonth as real, cal.month as real,
                 values[n - 1], values[n - 2], values[n - 3], values[n - 7],
                 Mean(w), PopulationVariance(w)])
  {
    var d := Derive(values, cal).value;
    var n := |values|;
    var w := values[n - WINDOW..];
    var row := [cal.dayOfWeek as real, cal.dayOfMonth as real, cal.month as real,
                values[n - 1], values[n - 2], values[n - 3], values[n - 7],
                Mean(w), PopulationVariance(w)];
    assert TrailingWindow(values) == w;
    assert |d| == 9 && forall i :: 0 <= i < 9 ==> d[i].1 == row[i];
    ProjectOwnKeys(values, cal);
    var p := Project(d, DICT_KEYS);
    assert p.Success? && |p.value| == 9 && forall i :: 0 <= i < 9 ==> p.value[i] == d[i].1;
    assert p.value == row;
  }

  /**
   * Every accepted request carries at least five values, so the three short
   * lags are genuine elements of the request and never the zero default.
   */
  lemma AcceptedRequestLags(values: seq<real>, cal: Calendar)
    requires |values| >= 5
    ensures
      var d := Derive(values, cal).value;
      var n := |values|;
      && Lookup(d, "lag_1") == Some(values[n - 1])
      && Lookup(d, "lag_2") == Some(values[n - 2])
      && Lookup(d, "lag_3") == Some(values[n - 3])
  {
    DeriveLags(values, cal);
  }

  /** `rolling_mean_7` lies between the smallest and largest value of the trailing window. */
  lemma RollingMeanWithinWindow(values: seq<real>, cal: Calendar, lo: real, hi: real)
    requires values != []
    requires forall i :: |values| - WINDOW <= i < |values| && 0 <= i ==> lo <= values[i] <= hi
    ensures
      var m := Lookup(Derive(values, cal).value, "rolling_mean_7");
      m.Some? && lo <= m.value <= hi
  {
    var w := TrailingWindow(values);
    var off := |values| - |w|;
    forall i | 0 <= i < |w| ensures lo <= w[i] <= hi {
      assert w[i] == values[off + i];
    }
    MeanBounds(w, lo, hi);
    LookupDerived(values, cal, 7);
  }
}
