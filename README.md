# Day-6 ML platform: feature contract and prediction service

This project models the core of a small time-series forecasting platform.
It has two halves.

- **The training script** (`model/train.py`) turns a daily series into lag and
  rolling-window features, splits the rows chronologically 80/20, fits a
  regressor and saves an artifact dictionary. The dictionary holds the model,
  the feature column list, the metrics, a timestamp and the configuration.
- **The prediction API** (`api/main.py`) loads that artifact at startup. It
  keeps three pieces of process state: whether a model is loaded, the artifact
  itself, and a count of the requests the model answered. It serves `/predict`,
  `/ready`, `/health` and `/metrics`. For each request it rebuilds the same nine
  features from the recent values the client sends.

The property that matters is the **train/serve feature contract**. A row the
trainer keeps must look to the model like the request a client would send for
that day. Take row `i` of the training frame, and a request holding the series
up to (but not including) row `i`, dated like row `i`. Then:

- the calendar fields agree;
- `lag_1`, `lag_2`, `lag_3` and `lag_7` agree;
- `rolling_mean_7` agrees;
- after projection into the artifact's column order, the two vectors agree on
  the first eight columns.

`rolling_std_7` does **not** agree. The server uses NumPy's population
standard deviation and the trainer uses pandas' sample standard deviation. The
model carries both as variances, and the server's entry is exactly 6/7 of the
trainer's (`Consistency.TrainServeConsistency`,
`Consistency.ProjectedRowsAgree`, `Stats.SevenWindowVarianceRatio`).

Layout, one module per file:

- `wrappers.dfy`: `Option` and `Result`.
- `stats.dfy`: sum, mean, population and sample variance, with their bounds
  and the 7-window ratio.
- `features.dfy`: the server's feature dictionary (`Derive`) and its
  projection (`Project`).
- `training.dfy`: the pandas frame operations (`Shift`, rolling windows,
  `dropna`), `create_lag_features` as a method proved against its
  specification function, the chronological split, and the training run with
  its artifact.
- `serving.dfy`: the API's global state as the class `Predictor`, with its
  startup load and its handlers.
- `consistency.dfy`: the lemmas that relate the training side to the serving
  side.

`serving.dfy` also models the platform end to end (`Serving.TrainThenServe`): a
training run with the default configuration writes the artifact over whatever
the model file held before, and a server starts from the file.

The following become parameters of the model:

- the wall-clock date, as a `Calendar` argument;
- the unpickled file, as a `LoadOutcome`;
- the fitted regressor, as a function from matrices to optional lists of
  entries, where `None` means "raised" and an entry is either a number or
  something `float()` cannot convert;
- the fitting and evaluation procedures.

## Model

| member | source | states |
|---|---|---|
| Stats.SumBounds | practical/day6-ml-platform/api/main.py:219 | a sum of n values each within [lo, hi] lies within [n·lo, n·hi] |
| Stats.MeanBounds | practical/day6-ml-platform/api/main.py:219 | the mean of a non-empty window lies between any lower and upper bound of its values |
| Stats.Mean | practical/day6-ml-platform/api/main.py:219 | `np.mean` / `rolling().mean()`: the mean of a flat window is its value |
| Stats.PopulationVariance | practical/day6-ml-platform/api/main.py:220 | `np.std` (ddof 0), as a variance: never negative, so its square root exists, and zero on a flat window |
| Stats.SampleVariance | practical/day6-ml-platform/model/train.py:93 | `rolling().std()` (ddof 1), as a variance: never negative, and zero on a flat window |
| Stats.SevenWindowVarianceRatio | practical/day6-ml-platform/api/main.py:220 | over seven values, 7 × the population variance (np.std, ddof 0) equals 6 × the sample variance (rolling std, ddof 1) |
| Features.Derive | practical/day6-ml-platform/api/main.py:211-221 | building the feature dictionary fails exactly on an empty request (`values[0]` raises); otherwise its keys are the nine feature names in insertion order |
| Features.Keys | practical/day6-ml-platform/api/main.py:224 | `features.keys()` lists the entry names, one per entry, in insertion order |
| Features.Lookup | practical/day6-ml-platform/api/main.py:227 | `features[col]` yields a value exactly when `col` is a key of the dictionary |
| Features.LookupFirst | practical/day6-ml-platform/api/main.py:227 | an entry whose name no earlier entry carries is what `features[name]` returns |
| Features.DictKeysDistinct | practical/day6-ml-platform/api/main.py:211-221 | the nine dictionary keys are pairwise distinct |
| Features.LookupDerived | practical/day6-ml-platform/api/main.py:211-221 | looking up the i-th feature name returns the i-th stored value |
| Features.DeriveCalendar | practical/day6-ml-platform/api/main.py:212-214 | `day_of_week`, `day_of_month` and `month` are the request date's weekday, day and month |
| Features.DeriveLags | practical/day6-ml-platform/api/main.py:215-218 | `lag_k` is the value k steps before the end of the request, or 0 when the request is shorter; `lag_7` falls back to the first value |
| Features.DeriveRolling | practical/day6-ml-platform/api/main.py:219-220 | the rolling entries are the mean and population variance of the last seven values, or of the whole request when it is shorter |
| Features.Project | practical/day6-ml-platform/api/main.py:227 | the projection succeeds exactly when every column is a key; it then gives each column's value in column order; otherwise it reports the first missing column (the KeyError) |
| Features.ProjectOwnKeys | practical/day6-ml-platform/api/main.py:224-227 | the fallback order `features.keys()` projects every dictionary entry, in insertion order |
| Features.ServingVector | practical/day6-ml-platform/api/main.py:211-227 | a request of seven or more values projects to [weekday, day, month, v[n-1], v[n-2], v[n-3], v[n-7], mean, population variance of the last seven] |
| Features.AcceptedRequestLags | practical/day6-ml-platform/api/main.py:215-217 | for any request the schema admits (at least five values) the three short lags are real elements of the request, never the 0 default |
| Features.RollingMeanWithinWindow | practical/day6-ml-platform/api/main.py:219 | `rolling_mean_7` lies between any bounds of the trailing window's values |
| Training.Shift | practical/day6-ml-platform/model/train.py:89 | `shift(k)` keeps the column length |
| Training.ShiftAt | practical/day6-ml-platform/model/train.py:89 | row i of `shift(k)` holds the value at row i-k, or NaN when that row does not exist (negative k included) |
| Training.AllDefined | practical/day6-ml-platform/model/train.py:92-93 | a run of cells reads as values exactly when none is NaN, and then cell by cell |
| Training.Window | practical/day6-ml-platform/model/train.py:92-93 | a row has a full 7-window exactly when it and the six rows before it hold numbers (the default `min_periods`), and the window is those seven numbers in order |
| Training.RollingMean | practical/day6-ml-platform/model/train.py:92 | `rolling(7).mean()` keeps the column length and is defined exactly on the rows whose 7-window holds no NaN |
| Training.RollingStd | practical/day6-ml-platform/model/train.py:93 | `rolling(7).std()` is defined on the same rows as the mean and is never negative there |
| Training.CausalWindow | practical/day6-ml-platform/model/train.py:92-93 | the 7-window of the once-shifted column at row i is the seven values strictly before row i (NaN before row 7), so a row's own value never enters its rolling features |
| Training.RollingAt | practical/day6-ml-platform/model/train.py:92-93 | the rolling mean and std cells at row i are the mean and sample variance of values i-7..i-1, NaN for i < 7 |
| Training.DropNa | practical/day6-ml-platform/model/train.py:96 | `dropna` never adds rows; every kept row is the completion of an input row; all rows stay when all are complete, none when none is |
| Training.DropNaAppend | practical/day6-ml-platform/model/train.py:96 | `dropna` of two frames joined is the `dropna` of each, joined: the kept rows keep their input order |
| Training.DropNaOne | practical/day6-ml-platform/model/train.py:96 | a single row is kept, as its completion, exactly when it holds no NaN |
| Training.DropNaKeeps | practical/day6-ml-platform/model/train.py:96 | every complete row is kept, right after the rows kept before it |
| Training.DropNaAllComplete | practical/day6-ml-platform/model/train.py:96 | a frame without NaN loses no row, and each row becomes its completion |
| Training.LagFeatures | practical/day6-ml-platform/model/train.py:75-98 | the result has at most as many rows as the input, each an input observation with one lag per requested lag |
| Training.ShortFrameKeepsNothing | practical/day6-ml-platform/model/train.py:89-96 | a frame of seven rows or fewer yields no row, whatever the lags: no row has a full window of earlier values |
| Training.CreateLagFeatures | practical/day6-ml-platform/model/train.py:75-98 | the loop adding one shifted column per lag, then the rolling columns and `dropna`, returns exactly `LagFeatures(df, lags)` |
| Training.DropNaSuffix | practical/day6-ml-platform/model/train.py:96 | when the first m rows hold NaN and the rest none, `dropna` keeps the rest, in order |
| Training.AssembledRow | practical/day6-ml-platform/model/train.py:86-93 | an assembled frame row is complete exactly from row 7 on, and then equals the reference row |
| Training.LagFeaturesRows | practical/day6-ml-platform/model/train.py:86-97 | with lags within 0..7, exactly rows 7..n-1 survive, in order, each with its own observation, `lag_k` = value k rows earlier, and mean and sample variance of the seven previous values |
| Training.KeptRow | practical/day6-ml-platform/model/train.py:86-97 | with the default lags, `create_lag_features` returns n-7 rows, and its row i-7 is the reference row of input row i |
| Training.DefaultRow | practical/day6-ml-platform/model/train.py:86-93 | the reference row for the default lags holds row i's observation, lags 1, 2, 3 and 7 as the values that many rows earlier, and the mean and sample variance of the seven values before row i |
| Training.Select | practical/day6-ml-platform/model/train.py:156-157 | `df['value']` is the row's own value; `df[name]` succeeds only for `value` and the feature names, and always for a feature name on a row carrying lags 1, 2, 3 and 7 |
| Training.Matrix | practical/day6-ml-platform/model/train.py:156 | `df[feature_cols]` has one row per kept row and one column per name, each cell the selected column's value |
| Training.Labels | practical/day6-ml-platform/model/train.py:157 | `df['value']`, selected row by row, is each kept row's own value |
| Training.FeatureColsSelectable | practical/day6-ml-platform/model/train.py:152-156 | selecting `feature_cols` never raises a KeyError on the output of `create_lag_features` with the default lags |
| Training.SelectedRow | practical/day6-ml-platform/model/train.py:152-156 | a row with the default lags becomes the matrix row [weekday, day, month, lag_1, lag_2, lag_3, lag_7, mean, std] |
| Training.TrainingVector | practical/day6-ml-platform/model/train.py:152-156 | training matrix row i-7 is [weekday_i, day_i, month_i, v[i-1], v[i-2], v[i-3], v[i-7], mean and sample variance of v[i-7..i-1]] |
| Training.ChronologicalSplit | practical/day6-ml-platform/model/train.py:159-161 | the unshuffled split succeeds exactly for two or more rows; train followed by test is the input; the test part has ceil(n/5) rows; both parts are non-empty |
| Training.SplitIsChronological | practical/day6-ml-platform/model/train.py:159-161 | on time-ordered rows every training row is earlier than every test row |
| Training.LagFeaturesChronological | practical/day6-ml-platform/model/train.py:86-97 | feature construction keeps the input's time order |
| Training.SplitSizes | practical/day6-ml-platform/model/train.py:159-161 | two or more rows leave both parts of the 80/20 split non-empty |
| Training.TrainingParts | practical/day6-ml-platform/model/train.py:156-161 | a frame of nine or more rows yields n-7 feature rows; both parts of the split are non-empty and `feature_cols` can be selected from each |
| Training.Train | practical/day6-ml-platform/model/train.py:145-192 | a run succeeds exactly when the frame has at least nine rows; the artifact holds `feature_cols`, the config and the timestamp; the model is `fit` on the feature matrix and labels of the first rows of the split; the metrics are `evaluate` of that model on the last fifth |
| Serving.Infer | practical/day6-ml-platform/api/main.py:203-231 | the guarded part of `predict` fails on an empty request, then on a non-dictionary artifact, then on a `feature_cols` stored as None, each exactly in its case; a missing feature is a name outside the dictionary; an answer needs an artifact with a model |
| Serving.Consult | practical/day6-ml-platform/api/main.py:227-231 | a missing feature is reported exactly when the projection fails, naming its first missing column; a missing model exactly when the row projects but there is no model; otherwise the answer is the model's first entry for the projected row, and the call fails exactly when the model raises or returns no row |
| Serving.ServesInColumnOrder | practical/day6-ml-platform/api/main.py:224-231 | for any declared column list of derived feature names, the model is asked about the dictionary's values in the declared order, and its first entry is the answer |
| Serving.UnknownColumnRejected | practical/day6-ml-platform/api/main.py:224-227 | a declared column the server does not derive fails the request with a KeyError naming the first such column |
| Serving.TrainedArtifactServes | practical/day6-ml-platform/api/main.py:224-231 | with the trainer's artifact (or one without a `feature_cols` key) every request projects in training column order; the guarded part fails only when the model raises or returns no row |
| Serving.Predictor.constructor | practical/day6-ml-platform/api/main.py:33-37 | the process starts with no model loaded, no artifact and a zero count |
| Serving.Predictor.Load | practical/day6-ml-platform/api/main.py:96-118 | a missing file changes nothing; a raising load lowers the flag; a read object becomes the artifact, and the flag stays up exactly when the object is a dictionary; the flag is never up without an artifact dictionary |
| Serving.Predictor.Predict | practical/day6-ml-platform/api/main.py:187-245 | a request shorter than five values gets 422; an unloaded service gets 503; otherwise the model's first entry is the answer, and any failure, including a first entry `float()` rejects, gives 500; the count rises by one exactly when the model answered, so a prediction always counts |
| Serving.Predictor.Ready | practical/day6-ml-platform/api/main.py:165-184 | readiness fails (503) exactly when no model is loaded, and otherwise reports the path and version |
| Serving.Predictor.Health | practical/day6-ml-platform/api/main.py:151-162 | liveness answers "healthy" in every state |
| Serving.Predictor.Metrics | practical/day6-ml-platform/api/main.py:248-262 | metrics fail exactly when the artifact is a truthy non-dictionary object (a falsy one is skipped by `if model_artifact`); otherwise they report the count, the version and the artifact's metrics, or none without an artifact |
| Serving.StartAndServe | practical/day6-ml-platform/api/main.py:96-245 | after startup, readiness holds exactly when an artifact dictionary was read; without it every valid request gets 503; the count ends at 1 exactly when the model answered the request |
| Serving.TrainedArtifactAnswers | practical/day6-ml-platform/api/main.py:224-231 | an artifact naming the training columns answers with its model's first entry for the request's row in training column order, or fails with the model's own failure |
| Serving.TrainedRow | practical/day6-ml-platform/api/main.py:224-227 | the request's row in training column order has one value per feature column, each the dictionary's entry for that name |
| Serving.TrainAndPublish | practical/day6-ml-platform/model/train.py:159-194 | a failed default-configuration run stops before the dump and leaves the earlier model file as it was; a successful one overwrites it with the trainer's `feature_cols`, the model `fit` on the training part, its `evaluate` metrics on the test part, the timestamp and the default config (100 trees, depth 10, 1000 samples) |
| Serving.TrainThenServe | practical/day6-ml-platform/api/main.py:105-262 | after a successful run the server is ready, answers a valid request with the trained model's first entry for its row in training column order, refuses it only by the model's own failure, counts the answer and reports that run's evaluation on `/metrics`; after a failed run it is ready exactly when the earlier file held a dictionary, and serves, counts and reports from that file |
| Consistency.FeatureColsAreDictKeys | practical/day6-ml-platform/api/main.py:224-227 | the trainer's `feature_cols` is the server's key order, so the explicit list and the `features.keys()` fallback project identically and completely |
| Consistency.RequestFeatures | practical/day6-ml-platform/api/main.py:211-221 | the dictionary for the first i values of a series (i ≥ 7) holds the date fields, `v[i-1]`, `v[i-2]`, `v[i-3]`, `v[i-7]`, and the mean and population variance of `v[i-7..i)` |
| Consistency.TrainServeConsistency | practical/day6-ml-platform/api/main.py:211-221 | kept training row i and the dictionary derived from `values[..i]` dated like row i agree on the calendar fields, the four lags and the rolling mean; the served `rolling_std_7` is 6/7 of the trained one (as variances) |
| Consistency.ProjectedRowsAgree | practical/day6-ml-platform/api/main.py:224-227 | the training matrix row and the server's projected vector agree on the first eight columns, and on the ninth up to the factor 6/7 |
| Consistency.TrainingSplitIsChronological | practical/day6-ml-platform/model/train.py:159-161 | on a time-ordered frame, no test row of the training run precedes a training row |
| Consistency.SampleMean | practical/day6-ml-platform/api/main.py:49-54 | the example request's values average to 105.2 |
| Consistency.SampleRequest | practical/day6-ml-platform/api/main.py:49-54 | the schema's example request [100, 105, 103, 108, 110] derives lag_1 = 110, lag_2 = 108, lag_3 = 103, lag_7 = 100 and rolling_mean_7 = 105.2 |

## Left out

- Features.Derive: `rolling_std_7` carries the population variance, not its square root. Likewise `Training.RollingStd` carries the sample variance. The real numbers have no square root to compute with, and the ratio of the standard deviations follows from the ratio of the variances proved here.
- Serving.Predictor.Predict: the prediction is not rounded to two decimals, and the response timestamp is left out. Rounding and clocks are not modelled.
- Serving.Predictor.Metrics: `uptime_seconds` and `startup_time` are left out, because they are wall-clock values.
- Serving.Predictor.Health: the ISO timestamp is left out, because it is a wall-clock value.
- Serving.Predictor.Load: the flag is never raised over a non-dictionary object. An unpickled object that is not a dictionary but still answers `.get` is not distinguished from one that raises on `.get`. Every non-dictionary object is taken to raise when the load is logged.
- The calendar fields come from `datetime.now()` in the API. Here they are an argument.
- `generate_time_series_data` (the synthetic series and its random noise) is not modelled. The training run takes the frame as input.
- The regressor's `fit` and `predict`, and `mean_absolute_error` / `mean_squared_error`, are opaque functions. Their numeric behaviour is not modelled.
- The following are not modelled: `joblib` serialisation, the file system (`os.path.exists`, `makedirs`, the file size), environment variable parsing, and the console output.
- The FastAPI routing, the pydantic validation beyond the five-value minimum, the HTTP detail strings and the root `/` endpoint are not modelled.
- Handlers are modelled as running one at a time. Concurrent requests racing on `prediction_count` are not modelled.
- Values are exact reals. Floating-point rounding, and NaN or infinite values inside a request, are not modelled.
- Serving.TrainAndPublish: the frame is an argument, not related to the recorded `n_samples`. The script trains on `generate_time_series_data(N_SAMPLES)`, 1000 rows by default, so a default run never takes the failure branch; the model covers any frame.
- Training.ChronologicalSplit: the test size `ceil(0.2 * n)` is taken as `ceil(n / 5)`. The floating-point product `0.2 * n` is not modelled.
- Training.LagFeaturesRows: only lags between 0 and 7 are characterised. For longer lags, or negative ones, `CreateLagFeatures` still computes the frame, but no lemma describes which rows survive.
- Training.Select: the `date` column and the raw `lag_k` columns of lags other than 1, 2, 3 and 7 cannot be selected. The training run selects only `feature_cols` and `value`.
- Training.Artifact: for `model`, `metrics`, `trained_at` and `config`, a key that is absent and a key stored as None are both None. The server reads them alike. Only `feature_cols`, whose `.get` default applies only to an absent key, keeps the two apart.
- `dropna` is modelled on the feature columns. The input's own columns (date, value and calendar fields) are taken never to be NaN.
