/**
 * The prediction API's process state: whether a model is loaded, the loaded
 * artifact and the count of the requests the model answered, with the startup load
 * and the predict, readiness, liveness and metrics handlers that read and
 * update it. Handlers run one at a time.
 */
module Serving {
  import opened Wrappers
  import opened Stats
  import opened Features
  import opened Training

  /** The request schema rejects shorter value lists before the handler runs. */
  const MIN_REQUEST_VALUES: nat := 5

  const DEFAULT_MODEL_PATH: string := "/models/model.joblib"
  const DEFAULT_MODEL_VERSION: string := "v1"

  /**
   * What unpickling the model file hands back. `PyNone` is None or any other
   * falsy object that is not a dictionary (`0`, `[]`, `""`): its `.get`
   * raises, and `if model_artifact` reads it as absent. `Foreign` is a truthy
   * object without `.get`. `ArtifactDict` is an artifact dictionary.
   */
  datatype Loaded = PyNone | Foreign | ArtifactDict(artifact: Artifact)

  /** How the startup load went: no file, `joblib.load` raised, or an object was read. */
  datatype LoadOutcome = FileMissing | LoadRaised | Unpickled(obj: Loaded)

  /** Why the prediction path raised. */
  datatype Cause =
    | EmptyRequest             // `values[0]` of an empty array
    | NotAMapping              // the artifact has no `.get`
    | MissingFeature(name: string)  // `features[col]` for a name the dictionary lacks
    | MissingModel             // `model_artifact['model']` is absent
    | ColumnsNotIterable       // iterating over a `feature_cols` stored as None
    | ModelRaised              // `model.predict(X)` raised
    | NoPredictionRow          // `model.predict(X)[0]` of an empty result
    | NotAFloat                // `float()` of the first prediction raised

  /** The failure answers of `/predict`, with their HTTP status. */
  datatype Rejection = Invalid | Unavailable | PredictionFailed(cause: Cause) {
    function Status(): int {
      match this
      case Invalid => 422
      case Unavailable => 503
      case PredictionFailed(_) => 500
    }
  }

  /** The prediction (before its rounding to two decimals) or the failure answer. */
  datatype PredictResponse = Predicted(prediction: real, modelVersion: string) | Rejected(reason: Rejection)

  datatype ReadyInfo = ReadyInfo(status: string, modelLoaded: bool, modelPath: string, modelVersion: string)

  datatype MetricsInfo = MetricsInfo(predictionCount: nat, modelVersion: string, modelMetrics: Option<EvalMetrics>)

  /**
   * The guarded part of `predict` up to the model's answer: derive the
   * feature dictionary, choose the column order (the artifact's
   * `feature_cols`, else the dictionary's own key order), project, and take
   * the first entry `model.predict` returns. Each way it can raise is told
   * apart, in the order the handler meets them.
   */
  function Infer(obj: Loaded, values: seq<real>, cal: Calendar): (r: Result<Output, Cause>)
    ensures r == Failure(EmptyRequest) <==> values == []
    ensures r == Failure(NotAMapping) <==> values != [] && !obj.ArtifactDict?
    ensures r == Failure(ColumnsNotIterable) <==>
      values != [] && obj.ArtifactDict? && obj.artifact.featureCols.NullColumns?
    ensures r.Failure? && r.error.MissingFeature? ==> r.error.name !in DICT_KEYS
    ensures r.Success? ==> obj.ArtifactDict? && obj.artifact.model.Some?
  {
    match Derive(values, cal)
    case Failure(_) => Failure(EmptyRequest)
    case Success(d) =>
      if !obj.ArtifactDict? then Failure(NotAMapping)
      else
        var a := obj.artifact;
        match a.featureCols
        case NullColumns => Failure(ColumnsNotIterable)
        case NoColumns => Consult(a, d, Keys(d))
        case Columns(cols) => Consult(a, d, cols)
  }

  /**
   * Project the dictionary onto `cols` and ask the artifact's model for its
   * first entry. A missing column is reported before a missing model, and
   * the answer, when there is one, is the model's first entry for the
   * projected row.
   */
  function Consult(a: Artifact, d: FeatureDict, cols: seq<string>): (r: Result<Output, Cause>)
    ensures r.Failure? ==> r.error.MissingFeature? || r.error == MissingModel || r.error == ModelRaised || r.error == NoPredictionRow
    ensures r.Failure? && r.error.MissingFeature? ==> r.error.name !in Keys(d)
    ensures (r.Failure? && r.error.MissingFeature?) <==> Project(d, cols).Failure?
    ensures Project(d, cols).Failure? ==> r == Failure(MissingFeature(Project(d, cols).error))
    ensures r == Failure(MissingModel) <==> Project(d, cols).Success? && a.model.None?
    ensures r.Success? <==>
      && Project(d, cols).Success? && a.model.Some?
      && a.model.value.predict([Project(d, cols).value]).Some?
      && |a.model.value.predict([Project(d, cols).value]).value| > 0
    ensures r.Success? ==> r.value == a.model.value.predict([Project(d, cols).value]).value[0]
  {
    match Project(d, cols)
    case Failure(name) => Failure(MissingFeature(name))
    case Success(row) =>
      if a.model.None? then Failure(MissingModel)
      else
        match a.model.value.predict([row])
        case None => Failure(ModelRaised)
        case Some(ys) => if |ys| == 0 then Failure(NoPredictionRow) else Success(ys[0])
  }

  /**
   * For an artifact as the trainer writes it (or one without `feature_cols`),
   * the request's features always project, in the training column order, so
   * the guarded part fails only when the model itself does.
   */
  lemma TrainedArtifactServes(a: Artifact, values: seq<real>, cal: Calendar)
    requires values != [] && a.model.Some?
    requires a.featureCols == Columns(FEATURE_COLS) || a.featureCols.NoColumns?
    ensures
      var d := Derive(values, cal).value;
      var row := Project(d, FEATURE_COLS);
      var p := a.model.value.predict([row.value]);
      var r := Infer(ArtifactDict(a), values, cal);
      && row.Success? && |row.value| == |FEATURE_COLS|
      && (r.Success? <==> p.Some? && |p.value| > 0)
      && (r.Success? ==> r.value == p.value[0])
      && (r.Failure? ==> r.error == ModelRaised || r.error == NoPredictionRow)
  {
    var d := Derive(values, cal).value;
    assert Keys(d) == FEATURE_COLS;
    forall c | 0 <= c < |FEATURE_COLS| ensures FEATURE_COLS[c] in Keys(d) { }
  }

  /**
   * Whatever column list an artifact declares, as long as every name is a
   * feature the server derives, the model is asked about exactly one row:
   * the dictionary's values in the declared order. The guarded part then
   * fails only when the model does.
   */
  lemma ServesInColumnOrder(a: Artifact, cols: seq<string>, values: seq<real>, cal: Calendar)
    requires values != [] && a.model.Some? && a.featureCols == Columns(cols)
    requires forall c :: 0 <= c < |cols| ==> cols[c] in DICT_KEYS
    ensures
      var d := Derive(values, cal).value;
      var row := seq(|cols|, c requires 0 <= c < |cols| => Lookup(d, cols[c]).value);
      var p := a.model.value.predict([row]);
      var r := Infer(ArtifactDict(a), values, cal);
      && (forall c :: 0 <= c < |cols| ==> Lookup(d, cols[c]) == Some(row[c]))
      && (r.Success? <==> p.Some? && |p.value| > 0)
      && (r.Success? ==> r.value == p.value[0])
      && (r.Failure? ==> r.error == ModelRaised || r.error == NoPredictionRow)
  {
    var d := Derive(values, cal).value;
    var row := seq(|cols|, c requires 0 <= c < |cols| => Lookup(d, cols[c]).value);
    var q := Project(d, cols);
    assert q.Success?;
    assert q.value == row;
  }

  /**
   * A declared column the server does not derive is the KeyError the
   * handler raises: the first such name, after a request the deriver accepts.
   */
  lemma UnknownColumnRejected(a: Artifact, cols: seq<string>, k: nat, values: seq<real>, cal: Calendar)
    requires values != [] && a.featureCols == Columns(cols)
    requires k < |cols| && cols[k] !in DICT_KEYS
    requires forall j :: 0 <= j < k ==> cols[j] in DICT_KEYS
    ensures Infer(ArtifactDict(a), values, cal) == Failure(MissingFeature(cols[k]))
  {
    var d := Derive(values, cal).value;
    var q := Project(d, cols);
    assert q.Failure?;
    var e :| 0 <= e < |cols| && cols[e] == q.error && q.error !in Keys(d) &&
      forall j :: 0 <= j < e ==> cols[j] in Keys(d);
    assert e == k;
  }

  class Predictor {
    const modelPath: string
    const modelVersion: string
    var modelLoaded: bool
    var artifact: Loaded
    var predictionCount: nat

    /** The loaded flag stays raised only over an artifact dictionary. */
    predicate Valid()
      reads this
    {
      modelLoaded ==> artifact.ArtifactDict?
    }

    /** The process state before the startup hook runs. */
    constructor (modelPath: string, modelVersion: string)
      ensures Valid()
      ensures this.modelPath == modelPath && this.modelVersion == modelVersion
      ensures !modelLoaded && artifact == PyNone && predictionCount == 0
    {
      this.modelPath := modelPath;
      this.modelVersion := modelVersion;
      modelLoaded := false;
      artifact := PyNone;
      predictionCount := 0;
    }

    /**
     * The startup hook. A missing file changes nothing; a raising load lowers
     * the flag; a read object becomes the artifact, and the flag stays up
     * only if the object answers the `.get` calls that log it.
     */
    method Load(outcome: LoadOutcome)
      requires Valid()
      modifies this
      ensures Valid()
      ensures predictionCount == old(predictionCount)
      ensures outcome.FileMissing? ==> modelLoaded == old(modelLoaded) && artifact == old(artifact)
      ensures outcome.LoadRaised? ==> !modelLoaded && artifact == old(artifact)
      ensures outcome.Unpickled? ==> artifact == outcome.obj && (modelLoaded <==> outcome.obj.ArtifactDict?)
    {
      match outcome
      case FileMissing =>
      case LoadRaised =>
        modelLoaded := false;
      case Unpickled(obj) =>
        artifact := obj;
        modelLoaded := true;
        if !obj.ArtifactDict? {
          // logging `trained_at` and `metrics` with `.get` raises
          modelLoaded := false;
        }
    }

    /**
     * `/predict`: too short a request is refused, an unloaded service
     * answers 503, any failure of the guarded part answers 500. The counter
     * rises by one as soon as the model has answered, so a first entry that
     * `float()` then rejects is counted and still answers 500.
     */
    method Predict(values: seq<real>, cal: Calendar) returns (resp: PredictResponse)
      requires Valid()
      modifies this`predictionCount
      ensures Valid()
      ensures |values| < MIN_REQUEST_VALUES ==> resp == Rejected(Invalid)
      ensures |values| >= MIN_REQUEST_VALUES && (!modelLoaded || artifact.PyNone?) ==> resp == Rejected(Unavailable)
      ensures |values| >= MIN_REQUEST_VALUES && modelLoaded ==>
        match Infer(artifact, values, cal)
        case Success(Scalar(y)) => resp == Predicted(y, modelVersion)
        case Success(NonScalar) => resp == Rejected(PredictionFailed(NotAFloat))
        case Failure(c) => resp == Rejected(PredictionFailed(c))
      ensures predictionCount == old(predictionCount) +
        (if |values| >= MIN_REQUEST_VALUES && modelLoaded && Infer(artifact, values, cal).Success? then 1 else 0)
      ensures resp.Predicted? ==> predictionCount == old(predictionCount) + 1
    {
      if |values| < MIN_REQUEST_VALUES {
        return Rejected(Invalid);
      }
      if !modelLoaded || artifact.PyNone? {
        return Rejected(Unavailable);
      }
      match Infer(artifact, values, cal)
      case Failure(c) =>
        resp := Rejected(PredictionFailed(c));
      case Success(y) =>
        predictionCount := predictionCount + 1;
        match y
        case Scalar(x) =>
          resp := Predicted(x, modelVersion);
        case NonScalar =>
          resp := Rejected(PredictionFailed(NotAFloat));
    }

    /** `/ready`: 503 exactly when no model is loaded. */
    method Ready() returns (r: Result<ReadyInfo, Rejection>)
      ensures r.Failure? <==> !modelLoaded
      ensures r.Failure? ==> r.error == Unavailable
      ensures r.Success? ==> r.value == ReadyInfo("ready", true, modelPath, modelVersion)
    {
      if !modelLoaded {
        return Failure(Unavailable);
      }
      r := Success(ReadyInfo("ready", modelLoaded, modelPath, modelVersion));
    }

    /** `/health`: alive whatever the model state. */
    method Health() returns (status: string)
      ensures status == "healthy"
    {
      status := "healthy";
    }

    /**
     * `/metrics`: the counter and the artifact's `metrics` entry; an artifact
     * that is a truthy non-dictionary object makes the `.get` raise; a falsy
     * one is skipped by the `if model_artifact` guard and reports no metrics.
     */
    method Metrics() returns (r: Result<MetricsInfo, Cause>)
      ensures r.Failure? <==> artifact.Foreign?
      ensures r.Success? ==>
        && r.value.predictionCount == predictionCount
        && r.value.modelVersion == modelVersion
        && r.value.modelMetrics == (if artifact.ArtifactDict? then artifact.artifact.metrics else None)
    {
      match artifact
      case PyNone =>
        r := Success(MetricsInfo(predictionCount, modelVersion, None));
      case Foreign =>
        r := Failure(NotAMapping);
      case ArtifactDict(a) =>
        r := Success(MetricsInfo(predictionCount, modelVersion, a.metrics));
    }
  }

  /**
   * A process lifetime: start, load, probe readiness, serve one request.
   * Readiness holds exactly when an artifact dictionary was read; without
   * it every well-formed request answers 503; the counter ends at one
   * exactly when the model answered the request.
   */
  method StartAndServe(outcome: LoadOutcome, values: seq<real>, cal: Calendar)
    returns (ready: bool, resp: PredictResponse, count: nat)
    ensures ready <==> outcome.Unpickled? && outcome.obj.ArtifactDict?
    ensures |values| >= MIN_REQUEST_VALUES && !ready ==> resp == Rejected(Unavailable)
    ensures |values| >= MIN_REQUEST_VALUES && ready ==>
      match Infer(outcome.obj, values, cal)
      case Success(Scalar(y)) => resp == Predicted(y, DEFAULT_MODEL_VERSION)
      case Success(NonScalar) => resp == Rejected(PredictionFailed(NotAFloat))
      case Failure(c) => resp == Rejected(PredictionFailed(c))
    ensures count == (if |values| >= MIN_REQUEST_VALUES && ready && Infer(outcome.obj, values, cal).Success? then 1 else 0)
    ensures resp.Predicted? ==> count == 1
  {
    var p := new Predictor(DEFAULT_MODEL_PATH, DEFAULT_MODEL_VERSION);
    p.Load(outcome);
    var probe := p.Ready();
    ready := probe.Success?;
    resp := p.Predict(values, cal);
    count := p.predictionCount;
  }

  /**
   * A training run with the default configuration, seen from the server:
   * `earlier` is what the model file held before the run (`FileMissing` on a
   * fresh volume). A successful run overwrites it with the trained
   * dictionary; a failed run stops before the dump and leaves it as it was.
   */
  method TrainAndPublish(earlier: LoadOutcome, df: seq<Obs>,
                         fit: (seq<seq<real>>, seq<real>) -> Regressor,
                         evaluate: (Regressor, seq<seq<real>>, seq<real>) -> EvalMetrics,
                         trainedAt: string)
    returns (outcome: LoadOutcome)
    ensures |df| < WINDOW + 2 ==> outcome == earlier
    ensures |df| >= WINDOW + 2 ==>
      && outcome.Unpickled? && outcome.obj.ArtifactDict?
      && outcome.obj.artifact.featureCols == Columns(FEATURE_COLS)
      && outcome.obj.artifact.model == Some(TrainedModel(df, fit))
      && outcome.obj.artifact.metrics == Some(TrainedMetrics(df, fit, evaluate))
      && outcome.obj.artifact.trainedAt == Some(trainedAt)
      && outcome.obj.artifact.config == Some(DEFAULT_CONFIG)
  {
    var trained := Train(df, DEFAULT_CONFIG, fit, evaluate, trainedAt);
    outcome := if trained.Success? then Unpickled(ArtifactDict(trained.value)) else earlier;
  }

  /** A request's features in the training column order, the row the trained model is asked about. */
  function TrainedRow(values: seq<real>, cal: Calendar): (row: seq<real>)
    requires values != []
    ensures |row| == |FEATURE_COLS|
    ensures forall c :: 0 <= c < |FEATURE_COLS| ==> Lookup(Derive(values, cal).value, FEATURE_COLS[c]) == Some(row[c])
  {
    var d := Derive(values, cal).value;
    assert forall c :: 0 <= c < |FEATURE_COLS| ==> FEATURE_COLS[c] in Keys(d);
    Project(d, FEATURE_COLS).value
  }

  /**
   * An artifact that names the training columns answers a request with its
   * model's first entry for the request's row in that order, or with the
   * model's own failure.
   */
  lemma TrainedArtifactAnswers(a: Artifact, values: seq<real>, cal: Calendar)
    requires values != [] && a.model.Some? && a.featureCols == Columns(FEATURE_COLS)
    ensures
      var ys := a.model.value.predict([TrainedRow(values, cal)]);
      Infer(ArtifactDict(a), values, cal) ==
        if ys.None? then Failure(ModelRaised)
        else if |ys.value| == 0 then Failure(NoPredictionRow)
        else Success(ys.value[0])
  {
    TrainedArtifactServes(a, values, cal);
  }

  /**
   * The platform end to end: the server starts from the model file as the
   * training run left it. After a successful run it is ready, a well-formed
   * request is answered with the trained model's first entry for the
   * request's features in the training column order and refused only by the
   * model's own failure, and `/metrics` reports that run's evaluation. After
   * a failed run the server behaves as it would on the earlier file.
   */
  method TrainThenServe(earlier: LoadOutcome, df: seq<Obs>,
                        fit: (seq<seq<real>>, seq<real>) -> Regressor,
                        evaluate: (Regressor, seq<seq<real>>, seq<real>) -> EvalMetrics,
                        trainedAt: string, values: seq<real>, cal: Calendar)
    returns (ready: bool, resp: PredictResponse, metrics: Result<MetricsInfo, Cause>)
    ensures |df| >= WINDOW + 2 ==> ready
    ensures |df| < WINDOW + 2 ==> (ready <==> earlier.Unpickled? && earlier.obj.ArtifactDict?)
    ensures |values| >= MIN_REQUEST_VALUES && !ready ==> resp == Rejected(Unavailable)
    ensures |values| >= MIN_REQUEST_VALUES && |df| >= WINDOW + 2 && resp.Rejected? ==>
      resp.reason == PredictionFailed(ModelRaised) || resp.reason == PredictionFailed(NoPredictionRow) ||
      resp.reason == PredictionFailed(NotAFloat)
    ensures |values| >= MIN_REQUEST_VALUES && |df| >= WINDOW + 2 ==>
      var ys := TrainedModel(df, fit).predict([TrainedRow(values, cal)]);
      if ys.None? then resp == Rejected(PredictionFailed(ModelRaised))
      else if |ys.value| == 0 then resp == Rejected(PredictionFailed(NoPredictionRow))
      else match ys.value[0]
        case Scalar(y) => resp == Predicted(y, DEFAULT_MODEL_VERSION)
        case NonScalar => resp == Rejected(PredictionFailed(NotAFloat))
    ensures |values| >= MIN_REQUEST_VALUES && |df| < WINDOW + 2 && ready ==>
      match Infer(earlier.obj, values, cal)
      case Success(Scalar(y)) => resp == Predicted(y, DEFAULT_MODEL_VERSION)
      case Success(NonScalar) => resp == Rejected(PredictionFailed(NotAFloat))
      case Failure(c) => resp == Rejected(PredictionFailed(c))
    ensures metrics.Failure? <==> |df| < WINDOW + 2 && earlier.Unpickled? && earlier.obj.Foreign?
    ensures metrics.Success? ==>
      metrics.value.modelMetrics ==
        if |df| >= WINDOW + 2 then Some(TrainedMetrics(df, fit, evaluate))
        else if ready then earlier.obj.artifact.metrics
        else None
    ensures metrics.Success? ==>
      metrics.value.predictionCount ==
        if |values| >= MIN_REQUEST_VALUES && |df| >= WINDOW + 2 then
          var ys := TrainedModel(df, fit).predict([TrainedRow(values, cal)]);
          if ys.Some? && |ys.value| > 0 then 1 else 0
        else if |values| >= MIN_REQUEST_VALUES && ready && Infer(earlier.obj, values, cal).Success? then 1
        else 0
    ensures resp.Predicted? && metrics.Success? ==> metrics.value.predictionCount == 1
  {
    var outcome := TrainAndPublish(earlier, df, fit, evaluate, trainedAt);
    var p := new Predictor(DEFAULT_MODEL_PATH, DEFAULT_MODEL_VERSION);
    p.Load(outcome);
    var probe := p.Ready();
    ready := probe.Success?;
    assert p.predictionCount == 0 && (ready <==> p.modelLoaded);
    resp := p.Predict(values, cal);
    assert resp.Predicted? ==> p.predictionCount == 1;
    assert !ready ==> p.predictionCount == 0;
    if ready && |values| >= MIN_REQUEST_VALUES && |df| >= WINDOW + 2 {
      var a := outcome.obj.artifact;
      assert p.artifact == ArtifactDict(a);
      TrainedArtifactAnswers(a, values, cal);
    }
    metrics := p.Metrics();
  }
}
