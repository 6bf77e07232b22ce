/** The serving layer's own decisions (backend/main.py): the confidence tier, the request
    validator, the outcome of each route, the batch loop and the startup hook. HTTP
    transport is reduced to the outcome kinds 503, 400 and 500. */
module Api {
  import opened Wrappers
  import opened Values
  import opened Exceptions
  import opened Preprocessing
  import opened ModelUtils

  // ---------------------------------------------------------------------------
  // Confidence tier

  datatype Confidence = Low | Medium | High

  /** |p - 0.5|: how far a probability is from the decision boundary. */
  function Distance(p: real): real {
    if p >= 0.5 then p - 0.5 else 0.5 - p
  }

  function Rank(c: Confidence): nat {
    match c
    case Low => 0
    case Medium => 1
    case High => 2
  }

  /** The tier the single-prediction route attaches to a probability. */
  function ConfidenceTier(probability: real): (c: Confidence)
    ensures c == High <==> Distance(probability) > 0.3
    ensures c == Low <==> Distance(probability) <= 0.1
    ensures c == Medium <==> 0.1 < Distance(probability) <= 0.3
  {
    if probability > 0.8 || probability < 0.2 then High
    else if probability > 0.6 || probability < 0.4 then Medium
    else Low
  }

  /** A probability and its complement get the same tier. */
  lemma ConfidenceSymmetric(p: real)
    ensures ConfidenceTier(1.0 - p) == ConfidenceTier(p)
  {
  }

  /** A probability farther from 0.5 never gets a lower tier. */
  lemma ConfidenceMonotone(p: real, q: real)
    requires Distance(p) <= Distance(q)
    ensures Rank(ConfidenceTier(p)) <= Rank(ConfidenceTier(q))
  {
  }

  // ---------------------------------------------------------------------------
  // Requests and outcomes

  datatype PredictionRequest = PredictionRequest(features: FeatureMap, modelType: string)
  datatype BatchPredictionRequest = BatchPredictionRequest(data: seq<FeatureMap>, modelType: string)

  const DefaultModelType := Knn

  /** The `model_type` validator of a single-prediction request. */
  function ValidateModelType(v: string): (r: Option<string>)
    ensures r.Some? <==> v == Knn || v == LogisticRegression
    ensures r.Some? ==> r.value == v
  {
    if v == Knn || v == LogisticRegression then Some(v) else None
  }

  /** Building a single-prediction request from the body: `model_type` defaults to "knn"
      and is otherwise validated; `None` is a body the request model refuses. */
  function MakePredictionRequest(features: FeatureMap, modelType: Option<string>): (r: Option<PredictionRequest>)
    ensures r.Some? ==> r.value.features == features
    ensures r.Some? <==> modelType.None? || ValidateModelType(modelType.value).Some?
    ensures r.Some? ==> r.value.modelType == Knn || r.value.modelType == LogisticRegression
    ensures r.Some? ==> r.value.modelType == modelType.GetOr(DefaultModelType)
  {
    match modelType
    case None => Some(PredictionRequest(features, DefaultModelType))
    case Some(v) =>
      match ValidateModelType(v)
      case None => None
      case Some(w) => Some(PredictionRequest(features, w))
  }

  /** Building a batch request from the body: `model_type` defaults to "knn" and, unlike
      the single-prediction request, is not validated. */
  function MakeBatchRequest(data: seq<FeatureMap>, modelType: Option<string>): (r: BatchPredictionRequest)
    ensures r.data == data
    ensures r.modelType == modelType.GetOr(DefaultModelType)
    ensures modelType.Some? ==> r.modelType == modelType.value
  {
    match modelType
    case None => BatchPredictionRequest(data, DefaultModelType)
    case Some(v) => BatchPredictionRequest(data, v)
  }

  datatype Status = ServiceUnavailable | BadRequest | InternalServerError

  /** The status a route gives an exception raised once a predictor is present:
      `except ValueError` gives 400, any other exception 500. */
  function ErrorStatus(e: Exception): (s: Status)
    ensures s == BadRequest <==> e.IsValueError()
    ensures s == InternalServerError <==> !e.IsValueError()
  {
    if e.IsValueError() then BadRequest else InternalServerError
  }

  /** What a route answers: a body, or an HTTP error with the exception behind it. */
  datatype Response<T> = Ok(body: T) | Refused(status: Status, cause: Option<Exception>)

  /** 503 "Models not loaded": no predictor. */
  function Unavailable<T>(): Response<T> {
    Refused(ServiceUnavailable, None)
  }

  function Raise<T>(e: Exception): Response<T> {
    Refused(ErrorStatus(e), Some(e))
  }

  // ---------------------------------------------------------------------------
  // Health, model information, feature names, statistics

  datatype HealthResponse = HealthResponse(status: string, modelsLoaded: bool)

  /** health_check(): answered with or without a predictor. */
  function HealthCheck(predictor: ModelPredictor?): (h: HealthResponse)
    ensures h.modelsLoaded <==> predictor != null
    ensures h.status == "healthy" <==> h.modelsLoaded
    ensures h.status == "healthy" || h.status == "unhealthy"
  {
    HealthResponse(if predictor != null then "healthy" else "unhealthy", predictor != null)
  }

  /** An entry of the model-information response; its response model has no field `k`,
      so `k` is dropped on the way out. */
  datatype ModelInfoResponse = ModelInfoResponse(
    modelType: string,
    accuracy: real, precision: real, recall: real, f1Score: real,
    numFeatures: int,
    featureNames: seq<string>)

  function ToResponse(info: ModelInfo): ModelInfoResponse {
    ModelInfoResponse(info.modelType, info.accuracy, info.precision, info.recall, info.f1Score,
                      info.numFeatures, info.featureNames)
  }

  /** get_model_info() route */
  function ModelInfoRoute(predictor: ModelPredictor?): (resp: Response<map<string, ModelInfoResponse>>)
    reads predictor
    ensures predictor == null <==> resp == Unavailable()
    ensures predictor != null ==>
              resp.Ok? && resp.body.Keys == predictor.GetModelInfo().Keys &&
              forall name :: name in resp.body ==> resp.body[name] == ToResponse(predictor.GetModelInfo()[name])
  {
    if predictor == null then Unavailable()
    else
      var info := predictor.GetModelInfo();
      Ok(map name | name in info :: ToResponse(info[name]))
  }

  datatype FeatureNamesResponse = FeatureNamesResponse(
    featureNames: seq<string>, numFeatures: int, example: map<string, real>)

  /** get_feature_names() route: the names, their count, and an example mapping the first
      ten names to 0.0. */
  function FeatureNamesRoute(predictor: ModelPredictor?): (resp: Response<FeatureNamesResponse>)
    reads predictor
    ensures predictor == null <==> resp == Unavailable()
    ensures predictor != null ==>
              resp.Ok? && resp.body.featureNames == predictor.featureNames &&
              resp.body.numFeatures == |predictor.featureNames|
    ensures predictor != null ==>
              forall name :: name in resp.body.example <==>
                exists i :: 0 <= i < 10 && i < |predictor.featureNames| && predictor.featureNames[i] == name
    ensures predictor != null ==> forall name :: name in resp.body.example ==> resp.body.example[name] == 0.0
  {
    if predictor == null then Unavailable()
    else
      var names := predictor.featureNames;
      var firstTen := if |names| <= 10 then names else names[..10];
      Ok(FeatureNamesResponse(names, |names|, map name | name in firstTen :: 0.0))
  }

  /** get_stats() route */
  function StatsRoute(predictor: ModelPredictor?): (resp: Response<Stats>)
    reads predictor
    ensures predictor == null <==> resp == Unavailable()
    ensures predictor != null ==> resp.Ok? && resp.body == predictor.GetStats()
  {
    if predictor == null then Unavailable() else Ok(predictor.GetStats())
  }

  // ---------------------------------------------------------------------------
  // Single prediction

  /** One element of a prediction: preprocess against the predictor's feature names, then
      predict with the requested model. */
  function PredictOne(predictor: ModelPredictor, features: FeatureMap, modelType: string, parse: Parser)
    : Result<Prediction, Exception>
    reads predictor
  {
    match PreprocessInput(features, predictor.featureNames, parse)
    case Failure(e) => Failure(e)
    case Success(row) => predictor.Predict(row, modelType)
  }

  datatype PredictionResponse = PredictionResponse(
    prediction: int, probability: real, modelUsed: string, confidence: Confidence)

  /** predict(request) route */
  function PredictRoute(predictor: ModelPredictor?, request: PredictionRequest, parse: Parser)
    : (resp: Response<PredictionResponse>)
    reads predictor
    ensures predictor == null <==> resp == Unavailable()
    ensures predictor != null ==>
              (resp.Ok? <==> PredictOne(predictor, request.features, request.modelType, parse).Success?)
    ensures predictor != null && resp.Refused? ==>
              resp == Raise(PredictOne(predictor, request.features, request.modelType, parse).error)
    ensures resp.Ok? ==>
              predictor != null &&
              PredictOne(predictor, request.features, request.modelType, parse) ==
                Success(Prediction(resp.body.prediction, resp.body.probability)) &&
              resp.body.modelUsed == request.modelType &&
              resp.body.confidence == ConfidenceTier(resp.body.probability)
  {
    if predictor == null then Unavailable()
    else
      match PredictOne(predictor, request.features, request.modelType, parse)
      case Failure(e) => Raise(e)
      case Success(p) =>
        Ok(PredictionResponse(p.prediction, p.probability, request.modelType, ConfidenceTier(p.probability)))
  }

  /** A request that passed its model-type validator is never refused for an unknown model
      type. */
  lemma ValidatedRequestIsDispatched(predictor: ModelPredictor?, features: FeatureMap,
                                     modelType: Option<string>, parse: Parser)
    requires MakePredictionRequest(features, modelType).Some?
    ensures var resp := PredictRoute(predictor, MakePredictionRequest(features, modelType).value, parse);
            resp.Refused? && resp.cause.Some? ==> !resp.cause.value.UnknownModelType?
  {
  }

  // ---------------------------------------------------------------------------
  // Batch prediction

  function Prepend(done: seq<Prediction>, rest: Result<seq<Prediction>, Exception>): Result<seq<Prediction>, Exception> {
    match rest
    case Success(ps) => Success(done + ps)
    case Failure(e) => Failure(e)
  }

  /** The batch loop: every element in order, aborting on the first exception. */
  function BatchRun(predictor: ModelPredictor, data: seq<FeatureMap>, modelType: string, parse: Parser)
    : Result<seq<Prediction>, Exception>
    reads predictor
    decreases |data|
  {
    if data == [] then Success([])
    else
      match PredictOne(predictor, data[0], modelType, parse)
      case Failure(e) => Failure(e)
      case Success(p) => Prepend([p], BatchRun(predictor, data[1..], modelType, parse))
  }

  lemma {:induction false} BatchRunAfterPrefix(predictor: ModelPredictor, data: seq<FeatureMap>, modelType: string,
                                               parse: Parser, done: seq<Prediction>)
    requires |done| <= |data|
    requires forall j :: 0 <= j < |done| ==> PredictOne(predictor, data[j], modelType, parse) == Success(done[j])
    ensures BatchRun(predictor, data, modelType, parse) ==
            Prepend(done, BatchRun(predictor, data[|done|..], modelType, parse))
    decreases |done|
  {
    if done == [] {
      assert data[0..] == data;
      match BatchRun(predictor, data, modelType, parse)
      case Failure(_) =>
      case Success(ps) => assert [] + ps == ps;
    } else {
      assert forall j :: 0 <= j < |done[1..]| ==> data[1..][j] == data[j + 1] && done[1..][j] == done[j + 1];
      BatchRunAfterPrefix(predictor, data[1..], modelType, parse, done[1..]);
      assert data[1..][|done[1..]|..] == data[|done|..];
      match BatchRun(predictor, data[|done|..], modelType, parse)
      case Failure(_) =>
      case Success(rest) =>
        assert [done[0]] + (done[1..] + rest) == done + rest;
    }
  }

  /** A batch succeeds exactly when every element does; its results are then the elements'
      results, one per element and in input order. */
  lemma {:induction false} BatchRunSucceeds(predictor: ModelPredictor, data: seq<FeatureMap>, modelType: string,
                                            parse: Parser)
    ensures BatchRun(predictor, data, modelType, parse).Success? <==>
            forall i :: 0 <= i < |data| ==> PredictOne(predictor, data[i], modelType, parse).Success?
    ensures BatchRun(predictor, data, modelType, parse).Success? ==>
              var ps := BatchRun(predictor, data, modelType, parse).value;
              |ps| == |data| &&
              forall i :: 0 <= i < |data| ==> PredictOne(predictor, data[i], modelType, parse) == Success(ps[i])
    decreases |data|
  {
    if data != [] {
      BatchRunSucceeds(predictor, data[1..], modelType, parse);
      assert forall i :: 1 <= i < |data| ==> data[i] == data[1..][i - 1];
    }
  }

  /** A failing batch fails with the exception of its first failing element; no partial
      result survives. */
  lemma {:induction false} BatchRunAbortsAtFirstFailure(predictor: ModelPredictor, data: seq<FeatureMap>,
                                                        modelType: string, parse: Parser)
    requires BatchRun(predictor, data, modelType, parse).Failure?
    ensures exists i :: 0 <= i < |data| &&
              PredictOne(predictor, data[i], modelType, parse) ==
                Failure(BatchRun(predictor, data, modelType, parse).error) &&
              forall j :: 0 <= j < i ==> PredictOne(predictor, data[j], modelType, parse).Success?
    decreases |data|
  {
    if PredictOne(predictor, data[0], modelType, parse).Success? {
      BatchRunAbortsAtFirstFailure(predictor, data[1..], modelType, parse);
      var i :| 0 <= i < |data[1..]| &&
               PredictOne(predictor, data[1..][i], modelType, parse) ==
                 Failure(BatchRun(predictor, data[1..], modelType, parse).error) &&
               forall j :: 0 <= j < i ==> PredictOne(predictor, data[1..][j], modelType, parse).Success?;
      assert forall j :: 1 <= j < i + 1 ==> data[j] == data[1..][j - 1];
      assert data[i + 1] == data[1..][i];
    }
  }

  /** `sum(predictions)` */
  function Sum(xs: seq<int>): int {
    if xs == [] then 0 else xs[0] + Sum(xs[1..])
  }

  /** With labels in {0, 1}, the sum counts the attacks and lies between 0 and the count. */
  lemma {:induction false} SumCountsAttacks(labels: seq<int>)
    requires forall i :: 0 <= i < |labels| ==> labels[i] == 0 || labels[i] == 1
    ensures Sum(labels) == multiset(labels)[1]
    ensures 0 <= Sum(labels) <= |labels|
  {
    if labels != [] {
      SumCountsAttacks(labels[1..]);
      assert labels == [labels[0]] + labels[1..];
    }
  }

  function Labels(ps: seq<Prediction>): (r: seq<int>)
    ensures |r| == |ps| && forall i :: 0 <= i < |ps| ==> r[i] == ps[i].prediction
  {
    seq(|ps|, i requires 0 <= i < |ps| => ps[i].prediction)
  }

  function Probabilities(ps: seq<Prediction>): (r: seq<real>)
    ensures |r| == |ps| && forall i :: 0 <= i < |ps| ==> r[i] == ps[i].probability
  {
    seq(|ps|, i requires 0 <= i < |ps| => ps[i].probability)
  }

  datatype BatchPredictionResponse = BatchPredictionResponse(
    predictions: seq<int>,
    probabilities: seq<real>,
    modelUsed: string,
    totalCount: int,
    attackCount: int,
    normalCount: int)

  /** The response built from the results of a successful batch. */
  function Summary(ps: seq<Prediction>, modelType: string): BatchPredictionResponse {
    var predictions := Labels(ps);
    var attackCount := Sum(predictions);
    BatchPredictionResponse(predictions, Probabilities(ps), modelType, |predictions|,
                            attackCount, |predictions| - attackCount)
  }

  /** The counts of a batch response add up to its length, and with labels in {0, 1} the
      attack count is the number of 1-labels. */
  lemma SummaryCounts(ps: seq<Prediction>, modelType: string)
    ensures var s := Summary(ps, modelType);
            s.totalCount == |ps| == |s.predictions| == |s.probabilities| &&
            s.attackCount + s.normalCount == s.totalCount
    ensures (forall i :: 0 <= i < |ps| ==> ps[i].prediction == 0 || ps[i].prediction == 1) ==>
              var s := Summary(ps, modelType);
              s.attackCount == multiset(s.predictions)[1] && 0 <= s.normalCount <= s.totalCount
  {
    if forall i :: 0 <= i < |ps| ==> ps[i].prediction == 0 || ps[i].prediction == 1 {
      SumCountsAttacks(Labels(ps));
    }
  }

  /** What the batch route answers for the outcome of the batch loop. */
  function BatchReply(run: Result<seq<Prediction>, Exception>, modelType: string): Response<BatchPredictionResponse> {
    match run
    case Success(ps) => Ok(Summary(ps, modelType))
    case Failure(e) => Raise(e)
  }

  /** predict_batch(request) route */
  method PredictBatch(predictor: ModelPredictor?, request: BatchPredictionRequest, parse: Parser)
    returns (resp: Response<BatchPredictionResponse>)
    ensures predictor == null ==> resp == Unavailable()
    ensures predictor != null ==>
              resp == BatchReply(BatchRun(predictor, request.data, request.modelType, parse), request.modelType)
  {
    if predictor == null {
      return Unavailable();
    }
    var data, modelType := request.data, request.modelType;
    var predictions: seq<int> := [];
    var probabilities: seq<real> := [];
    ghost var done: seq<Prediction> := [];
    for i := 0 to |data|
      invariant |done| == i
      invariant predictions == Labels(done) && probabilities == Probabilities(done)
      invariant forall j :: 0 <= j < i ==> PredictOne(predictor, data[j], modelType, parse) == Success(done[j])
    {
      BatchRunAfterPrefix(predictor, data, modelType, parse, done);
      assert data[i..][0] == data[i];
      var row := PreprocessInput(data[i], predictor.featureNames, parse);
      if row.Failure? {
        return Raise(row.error);
      }
      var p := predictor.Predict(row.value, modelType);
      if p.Failure? {
        return Raise(p.error);
      }
      predictions := predictions + [p.value.prediction];
      probabilities := probabilities + [p.value.probability];
      done := done + [p.value];
    }
    BatchRunAfterPrefix(predictor, data, modelType, parse, done);
    assert data[|done|..] == [];
    assert done + [] == done;
    var attackCount := Sum(predictions);
    resp := Ok(BatchPredictionResponse(predictions, probabilities, modelType, |predictions|,
                                       attackCount, |predictions| - attackCount));
  }

  /** The batch route has no model-type validator: an empty batch succeeds whatever the
      model type, and an unknown one surfaces only from `predict`, as a 400. */
  lemma BatchModelTypeUnchecked(predictor: ModelPredictor, data: seq<FeatureMap>, modelType: string, parse: Parser)
    ensures data == [] ==>
              BatchReply(BatchRun(predictor, data, modelType, parse), modelType) ==
                Ok(BatchPredictionResponse([], [], modelType, 0, 0, 0))
    ensures data != [] && modelType != Knn && modelType != LogisticRegression &&
            predictor.Loaded() &&
            PreprocessInput(data[0], predictor.featureNames, parse).Success? &&
            predictor.scaler.value.transform(PreprocessInput(data[0], predictor.featureNames, parse).value).Success? ==>
              BatchReply(BatchRun(predictor, data, modelType, parse), modelType) ==
                Refused(BadRequest, Some(UnknownModelType(modelType)))
  {
  }

  // ---------------------------------------------------------------------------
  // Startup

  /** startup_event(): the global predictor is set only when loading from the default
      directory succeeds; otherwise the exception propagates and it stays unset. */
  method Startup(fs: FileSystem) returns (predictor: ModelPredictor?, raised: Option<Exception>)
    ensures predictor != null <==> raised.None?
    ensures predictor != null <==> AllArtifacts <= fs(DefaultModelDir).present
    ensures predictor != null ==> fresh(predictor) && predictor.Loaded() && predictor.modelDir == DefaultModelDir
    ensures predictor != null ==>
              var dir := fs(DefaultModelDir);
              predictor.scaler == Some(dir.scaler) &&
              predictor.logisticRegression == Some(dir.logisticRegression) &&
              predictor.knn == Some(dir.knn) &&
              predictor.metadata == dir.metadata &&
              predictor.featureNames == dir.metadata.featureNames.GetOr([])
    ensures raised.Some? ==>
              raised.value.FileNotFound? && Some(raised.value.artifact) == FirstMissing(fs(DefaultModelDir).present)
  {
    var loaded := LoadModels(None, fs);
    if loaded.Failure? {
      return null, Some(loaded.error);
    }
    return loaded.value, None;
  }
}
