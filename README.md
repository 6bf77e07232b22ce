# Network traffic anomaly detection: prediction pipeline model

This project models the prediction path of a small network-traffic anomaly detection
service in Dafny. The service holds two pre-trained classifiers (k-nearest-neighbours and
logistic regression) and a scaler. A client sends a map from feature name to value. The
service checks the map against the model's feature list and orders it into a vector. It
scales the vector and runs the chosen classifier. It then reports the predicted class
(1 = attack), the probability of an attack and a Low/Medium/High confidence tier.

The model has three parts, one per source file:

- `preprocessing.dfy` (module `Preprocessing`) covers `backend/preprocessing.py`.
  A feature dict is modelled as its `(name, value)` items in iteration order.
  - `ValidateFeatures` is a loop proved against the specification function `Validation`.
    Missing names are checked first, as a set difference. Then every item is checked in
    order, extra keys included, and the check stops at the first non-numeric or
    non-finite value.
  - `PreprocessInput` builds the vector in the order of the required names and applies
    `nan_to_num`.
  - `NormalizeFeatures` is a loop proved against `Normalized`.
- `model_utils.dfy` (module `ModelUtils`) covers `backend/model_utils.py`.
  - `ModelPredictor` is a class whose fields start empty.
  - `Load` fills those fields in a fixed order and is not atomic.
  - `Predict` refuses to run until the scaler and both models are loaded. It then scales
    the row and dispatches on the model type. A classifier without `predict_proba` gets
    probability 0.5.
  - `GetModelInfo` and `GetStats` project the metadata and fill in defaults.
  - `LoadModels` constructs a predictor and loads it.
- `api.dfy` (module `Api`) covers the decisions in `backend/main.py`:
  - the confidence tier;
  - the `model_type` validator of a single-prediction request;
  - what each route answers: 503 without a predictor, 400 for a `ValueError`, 500 for any
    other exception;
  - the batch loop, which keeps input order, is all-or-nothing and counts attacks;
  - the startup hook.

`wrappers.dfy`, `values.dfy` and `exceptions.dfy` hold the shared types:
- `Option`, `Result` and `Outcome`;
- float64 values, with NaN and the infinities as their own variants;
- the exceptions the pipeline raises, and which of them are `ValueError`s.

Foreign code is passed in as parameters or held in datatype fields:
- Python's `float(str)` is a `Parser` function argument.
- The scaler and the classifiers are datatypes whose fields are functions. These functions
  may fail with a `LibraryError`, which is flagged as a `ValueError` or not.
- The file system is a function from a directory path to the artifacts found there, plus
  what each artifact deserialises to.

Behaviour of the code worth stating up front:
- The confidence tier is High when |p − 0.5| > 0.3 and Low when |p − 0.5| ≤ 0.1. These are
  the code's thresholds: High above 0.8 or below 0.2, Medium above 0.6 or below 0.4.
- The batch route is all-or-nothing: the first failing element aborts the whole request.
  There are no per-element error entries.
- Loading is not atomic: fields assigned before a failing check stay assigned.
- A missing artifact is the only load failure. A corrupt artifact is not modelled.

## Model

| member | source | states |
|---|---|---|
| `Preprocessing.CheckItem` | backend/preprocessing.py:23-31 | an item passes exactly when its value converts to a finite number; otherwise the error names that item and is "not numeric" exactly when `float()` of the value fails, and "invalid value" carrying the converted NaN or ±Inf value otherwise |
| `Preprocessing.FirstInvalid` | backend/preprocessing.py:23-31 | the item loop only ever raises the "not numeric" or "invalid value" kinds of ValueError |
| `Preprocessing.ValidateFeatures` | backend/preprocessing.py:7-31 | the loop with early exits returns exactly the specified validation outcome: missing names first, then the first bad item |
| `Preprocessing.ValidationReportsMissing` | backend/preprocessing.py:18-20 | a missing-features error is reported iff some required name is absent, whatever the values are; the reported set is exactly required minus present |
| `Preprocessing.ValidationPasses` | backend/preprocessing.py:18-31 | validation passes iff every required name is present and every item, extra keys included, converts to a finite number |
| `Preprocessing.ValidationNamesFirstOffender` | backend/preprocessing.py:23-31 | a value error names the first offending item in iteration order; all earlier items were finite numbers |
| `Preprocessing.NanToNum` | backend/preprocessing.py:54 | same length; finite elements keep their value, NaN and ±Inf become 0.0 |
| `Preprocessing.PreprocessInput` | backend/preprocessing.py:33-56 | fails iff validation fails, with validation's error; on success the vector has one element per required name and element i is the numeric value of `features[required[i]]` |
| `Preprocessing.NanToNumChangesNothing` | backend/preprocessing.py:48-54 | after validation every array element is already finite, so the nan_to_num safety step replaces nothing |
| `Preprocessing.PreprocessDependsOnlyOnRequired` | backend/preprocessing.py:51 | two inputs that agree on the required names give the same vector, whatever extra keys or item order they have |
| `Preprocessing.PreprocessIgnoresOrder` | backend/preprocessing.py:47-51 | reordering a dict's items keeps its key set, whether validation passes, the missing-features error reported and the vector produced |
| `Preprocessing.NormalizeFeatures` | backend/preprocessing.py:58-78 | the entry-by-entry loop returns exactly the specified normalisation result |
| `Preprocessing.NormalizedValues` | backend/preprocessing.py:70-76 | same keys in the same order; finite values pass through; non-finite ones become 0.0; every output value is finite |
| `Preprocessing.NormalizedFails` | backend/preprocessing.py:71-76 | normalisation succeeds iff every value is an int or float; otherwise the TypeError names the first other value |
| `Preprocessing.NormalizedIdempotent` | backend/preprocessing.py:70-78 | normalising a normalised dict returns it unchanged |
| `ModelUtils.FirstMissingInLoadOrder` | backend/model_utils.py:24-50 | load fails iff some artifact is missing; it reports a missing one whose predecessors in the order scaler, LR, KNN, metadata all exist |
| `ModelUtils.Classify` | backend/model_utils.py:79-89 | a failing `predict` raises its library error; otherwise, without predict_proba the result is the predicted label with probability 0.5, and with it the result is the label with column 1 of predict_proba, or predict_proba's library error |
| `ModelUtils.ModelPredictor.constructor` | backend/model_utils.py:13-19 | scaler, both models, feature names and metadata all start empty, so the predictor is not loaded |
| `ModelUtils.ModelPredictor.Load` | backend/model_utils.py:21-50 | passes iff all four artifacts exist; fails with the first missing one in check order; the scaler is kept once it exists, both models once scaler, LR and KNN exist, and metadata and feature names only on success (feature names default to []); earlier fields stay set after a failure |
| `ModelUtils.ModelPredictor.SelectModel` | backend/model_utils.py:71-77 | "knn" selects the KNN model, "logistic_regression" the LR model, and any other string selects nothing |
| `ModelUtils.ModelPredictor.Predict` | backend/model_utils.py:52-89 | "models not loaded" iff any of scaler, LR or KNN is unset; a scaling failure comes before the model-type check; an unknown type is rejected only after scaling succeeded; a loaded predictor whose scaling succeeds and whose type selects a model returns exactly that model's classification of the scaled row, failure included |
| `ModelUtils.ModelPredictor.GetModelInfo` | backend/model_utils.py:91-120 | an entry per model key present in the metadata and no other; metrics default to 0.0; k (KNN only) defaults to 3; num_features is the number of feature names |
| `ModelUtils.ModelPredictor.GetStats` | backend/model_utils.py:122-132 | each loaded flag is exactly "field is set"; all three set iff the predictor is loaded |
| `ModelUtils.FreshPredictorRefuses` | backend/model_utils.py:65-66 | a predictor that has only been constructed refuses to predict with "models not loaded" |
| `ModelUtils.LoadModels` | backend/model_utils.py:134-151 | succeeds iff every artifact exists in the given or default directory, failing otherwise with the first missing one; the result is a fresh predictor for that directory whose scaler, LR and KNN models are the directory's artifacts, and whose metadata and feature names are the directory's metadata |
| `Api.ConfidenceTier` | backend/main.py:171-177 | High iff the distance of p from 0.5 exceeds 0.3, Low iff it is at most 0.1, Medium in between |
| `Api.ConfidenceSymmetric` | backend/main.py:172-177 | p and 1−p get the same tier |
| `Api.ConfidenceMonotone` | backend/main.py:172-177 | a probability farther from 0.5 never gets a lower tier |
| `Api.ValidateModelType` | backend/main.py:72-76 | a single-prediction model type is accepted iff it is "knn" or "logistic_regression", and is kept unchanged |
| `Api.MakePredictionRequest` | backend/main.py:67-76 | a request is built iff the model type is absent or accepted; its features are the given ones and its model type is the given one, or "knn" when absent |
| `Api.MakeBatchRequest` | backend/main.py:86-89 | a batch request keeps its data; its model type is the given one, unvalidated, or "knn" when absent |
| `Api.ValidatedRequestIsDispatched` | backend/main.py:72-76 | a request that passed the validator is never refused for an unknown model type |
| `Api.ErrorStatus` | backend/main.py:187-190 | 400 iff the exception is a ValueError, 500 otherwise |
| `Api.HealthCheck` | backend/main.py:126-133 | models_loaded iff a predictor is present; status is "healthy" iff models_loaded, else "unhealthy" |
| `Api.ModelInfoRoute` | backend/main.py:135-141 | 503 iff no predictor; otherwise the predictor's model info, entry by entry, without k |
| `Api.FeatureNamesRoute` | backend/main.py:143-153 | 503 iff no predictor; otherwise the feature names, their count, and an example mapping exactly the first ten names to 0.0 |
| `Api.StatsRoute` | backend/main.py:225-231 | 503 iff no predictor; otherwise the predictor's stats |
| `Api.PredictRoute` | backend/main.py:155-190 | 503 iff no predictor; otherwise success iff preprocessing and prediction succeed, an exception mapped to 400/500 otherwise; the response's confidence is the tier of its probability and model_used is the requested type |
| `Api.BatchRunSucceeds` | backend/main.py:199-206 | a batch succeeds iff every element does; its results then have one entry per element, in input order, each that element's own result |
| `Api.BatchRunAbortsAtFirstFailure` | backend/main.py:202-204 | a failing batch fails with the exception of its first failing element, every earlier element having succeeded |
| `Api.SumCountsAttacks` | backend/main.py:208 | with labels in {0,1}, the sum of the predictions is the number of 1-labels and lies between 0 and the count |
| `Api.SummaryCounts` | backend/main.py:208-217 | total_count is the number of results; attack_count + normal_count = total_count; with 0/1 labels attack_count counts the attacks and normal_count is non-negative |
| `Api.PredictBatch` | backend/main.py:192-223 | 503 without a predictor; otherwise the loop's response is exactly the all-or-nothing batch outcome: the summary of all results, or the first exception mapped to 400/500 |
| `Api.BatchModelTypeUnchecked` | backend/main.py:202-204 | the batch request has no model-type validator: an empty batch succeeds with zero counts for any model type, and an unknown type becomes a 400 only once an element reaches predict |
| `Api.Startup` | backend/main.py:37-46 | the predictor is set iff loading from the default directory succeeds; it is then fresh and holds that directory's scaler, LR and KNN models, metadata and feature names; otherwise the first missing artifact is raised |

## Left out

- HTTP transport is not modelled: FastAPI routing, pydantic coercion of request bodies, CORS, the exception handlers' JSON bodies, uvicorn and the root route's constant payload. Only the outcome kinds (body, 503, 400, 500) remain. A request refused by its model validator is modelled as "no request". Its HTTP status comes from the framework and is not modelled.
- Exception messages (`detail` strings) are not modelled. Each exception carries its kind and the offending name or value instead.
- `datetime.now()` timestamps in the prediction and health responses are not modelled: they are clock reads.
- The contents of `scaler.transform`, `predict` and `predict_proba` are not modelled: they are foreign library code, supplied as functions. `int(...)` of a predicted label is taken to be the label itself.
- joblib and JSON deserialisation are not modelled: they are file I/O. An artifact that exists always deserialises. A corrupt file and a metadata value of the wrong JSON type (for example a null metric, where `float(None)` would raise) are not modelled.
- The metadata keeps only the keys the code reads (`feature_names`, and per model the four metrics and `k`). `get_stats` returns the whole JSON document, and its other keys are not modelled.
- The global predictor is an explicit `ModelPredictor?` argument, and there is no concurrency. `Startup` returns no predictor on failure. That a failing startup hook stops the server is not modelled.
- Feature values that are lists or arrays are not modelled: `np.isfinite` on them works element by element, so `[nan]` would be stored as 0.0 and a two-element list would raise. Values are numbers, strings, or None and other non-numeric scalars.
- Floating point is not modelled: finite values are reals. Rounding of the 0.2/0.4/0.6/0.8 thresholds and overflow are not modelled.
- Model training (backend/cyberai/train_model.py, backend/cyberai/train_model_fast.py) is not part of this model: it is offline scripting over pandas and sklearn.
