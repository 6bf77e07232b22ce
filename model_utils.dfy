/** The model wrapper (backend/model_utils.py): a predictor whose fields `load` fills in
    step by step, a guarded `predict`, and projections of its metadata. */
module ModelUtils {
  import opened Wrappers
  import opened Exceptions

  /** A fitted scaler, reduced to `transform` on one row; it raises, for instance, when the
      row's width differs from the fitted one. */
  datatype Scaler = Scaler(transform: seq<real> -> Result<seq<real>, LibraryError>)

  /** A fitted classifier: `predict` on one row (the first label, as an int), and column 1
      of `predict_proba` on one row when the object has that method. */
  datatype Classifier = Classifier(
    predict: seq<real> -> Result<int, LibraryError>,
    predictProba: Option<seq<real> -> Result<real, LibraryError>>)

  /** One model's entry in model_metadata.json; every key may be absent. */
  datatype ModelMeta = ModelMeta(
    accuracy: Option<real>, precision: Option<real>, recall: Option<real>,
    f1Score: Option<real>, k: Option<int>)

  /** The keys of model_metadata.json that the code reads; each may be absent. */
  datatype Metadata = Metadata(
    featureNames: Option<seq<string>>,
    logisticRegression: Option<ModelMeta>,
    knn: Option<ModelMeta>)

  /** `{}` */
  const EmptyMetadata := Metadata(None, None, None)

  /** A model directory as `load` finds it: which artifacts exist, and what each
      deserialises to. */
  datatype ArtifactDir = ArtifactDir(
    present: set<Artifact>,
    scaler: Scaler,
    logisticRegression: Classifier,
    knn: Classifier,
    metadata: Metadata)

  /** The file system, as the model directory found at each path. */
  type FileSystem = string -> ArtifactDir

  const Knn := "knn"
  const LogisticRegression := "logistic_regression"

  const LoadOrder: seq<Artifact> := [ScalerFile, LogisticRegressionFile, KnnFile, MetadataFile]
  const AllArtifacts: set<Artifact> := {ScalerFile, LogisticRegressionFile, KnnFile, MetadataFile}

  /** The artifact whose absence `load` reports: the first missing one in its check order. */
  function FirstMissing(present: set<Artifact>): Option<Artifact> {
    if ScalerFile !in present then Some(ScalerFile)
    else if LogisticRegressionFile !in present then Some(LogisticRegressionFile)
    else if KnnFile !in present then Some(KnnFile)
    else if MetadataFile !in present then Some(MetadataFile)
    else None
  }

  /** The load fails exactly when an artifact is missing, and it reports a missing one all
      of whose predecessors in the check order exist. */
  lemma FirstMissingInLoadOrder(present: set<Artifact>)
    ensures FirstMissing(present).None? <==> AllArtifacts <= present
    ensures FirstMissing(present).Some? ==>
              exists i :: 0 <= i < |LoadOrder| && LoadOrder[i] == FirstMissing(present).value &&
                          LoadOrder[i] !in present &&
                          forall j :: 0 <= j < i ==> LoadOrder[j] in present
  {
    if FirstMissing(present).Some? {
      var a := FirstMissing(present).value;
      var i := if a == ScalerFile then 0 else if a == LogisticRegressionFile then 1
               else if a == KnnFile then 2 else 3;
      assert LoadOrder[i] == a;
    }
  }

  /** What `predict` returns: the predicted class (1 = attack) and the probability of an attack. */
  datatype Prediction = Prediction(prediction: int, probability: real)

  /** Run a selected classifier on a scaled row. */
  function Classify(model: Classifier, scaled: seq<real>): (r: Result<Prediction, Exception>)
    ensures model.predict(scaled).Failure? ==> r == Failure(Library(model.predict(scaled).error))
    ensures model.predict(scaled).Success? && model.predictProba.None? ==>
              r == Success(Prediction(model.predict(scaled).value, 0.5))
    ensures model.predict(scaled).Success? && model.predictProba.Some? ==>
              r == match model.predictProba.value(scaled)
                   case Success(p) => Success(Prediction(model.predict(scaled).value, p))
                   case Failure(e) => Failure(Library(e))
  {
    match model.predict(scaled)
    case Failure(e) => Failure(Library(e))
    case Success(predicted) =>
      match model.predictProba
      case None => Success(Prediction(predicted, 0.5))
      case Some(proba) =>
        match proba(scaled)
        case Failure(e) => Failure(Library(e))
        case Success(p) => Success(Prediction(predicted, p))
  }

  /** What `get_model_info` reports for one model. */
  datatype ModelInfo = ModelInfo(
    modelType: string,
    accuracy: real, precision: real, recall: real, f1Score: real,
    numFeatures: int,
    featureNames: seq<string>,
    k: Option<int>)

  /** The metrics are the metadata's, each defaulting to 0.0 when absent. */
  predicate MetricsDefaulted(info: ModelInfo, meta: ModelMeta) {
    && info.accuracy == meta.accuracy.GetOr(0.0)
    && info.precision == meta.precision.GetOr(0.0)
    && info.recall == meta.recall.GetOr(0.0)
    && info.f1Score == meta.f1Score.GetOr(0.0)
  }

  /** What `get_stats` reports. */
  datatype Stats = Stats(
    metadata: Metadata,
    numFeatures: int,
    logisticRegressionLoaded: bool,
    knnLoaded: bool,
    scalerLoaded: bool)

  class ModelPredictor {
    const modelDir: string
    var logisticRegression: Option<Classifier>
    var knn: Option<Classifier>
    var scaler: Option<Scaler>
    var featureNames: seq<string>
    var metadata: Metadata

    /** ModelPredictor(model_dir): nothing is loaded. */
    constructor (modelDir: string)
      ensures this.modelDir == modelDir
      ensures logisticRegression == None && knn == None && scaler == None
      ensures featureNames == [] && metadata == EmptyMetadata
      ensures !Loaded()
    {
      this.modelDir := modelDir;
      logisticRegression := None;
      knn := None;
      scaler := None;
      featureNames := [];
      metadata := EmptyMetadata;
    }

    /** The three objects `predict` needs are all present. */
    predicate Loaded()
      reads this
    {
      scaler.Some? && logisticRegression.Some? && knn.Some?
    }

    /** load(): checks the artifacts in order and raises FileNotFoundError on the first
        missing one. It is not atomic: what was assigned before the failing check stays. */
    method Load(fs: FileSystem) returns (outcome: Outcome<Exception>)
      modifies this
      ensures outcome.Pass? <==> AllArtifacts <= fs(modelDir).present
      ensures outcome.Fail? ==>
                outcome.error.FileNotFound? &&
                Some(outcome.error.artifact) == FirstMissing(fs(modelDir).present)
      ensures scaler ==
                if ScalerFile in fs(modelDir).present then Some(fs(modelDir).scaler) else old(scaler)
      ensures (logisticRegression, knn) ==
                if {ScalerFile, LogisticRegressionFile, KnnFile} <= fs(modelDir).present
                then (Some(fs(modelDir).logisticRegression), Some(fs(modelDir).knn))
                else (old(logisticRegression), old(knn))
      ensures (metadata, featureNames) ==
                if outcome.Pass?
                then (fs(modelDir).metadata, fs(modelDir).metadata.featureNames.GetOr([]))
                else (old(metadata), old(featureNames))
      ensures outcome.Pass? ==> Loaded()
    {
      var dir := fs(modelDir);
      if ScalerFile !in dir.present {
        return Fail(FileNotFound(ScalerFile));
      }
      scaler := Some(dir.scaler);
      if LogisticRegressionFile !in dir.present {
        return Fail(FileNotFound(LogisticRegressionFile));
      }
      if KnnFile !in dir.present {
        return Fail(FileNotFound(KnnFile));
      }
      logisticRegression := Some(dir.logisticRegression);
      knn := Some(dir.knn);
      if MetadataFile in dir.present {
        metadata := dir.metadata;
        featureNames := dir.metadata.featureNames.GetOr([]);
        outcome := Pass;
      } else {
        return Fail(FileNotFound(MetadataFile));
      }
    }

    /** The classifier `predict` dispatches to for a model type, if any. */
    function SelectModel(modelType: string): (model: Option<Classifier>)
      reads this
      ensures modelType == Knn ==> model == knn
      ensures modelType == LogisticRegression ==> model == logisticRegression
      ensures modelType != Knn && modelType != LogisticRegression ==> model.None?
    {
      if modelType == Knn then knn
      else if modelType == LogisticRegression then logisticRegression
      else None
    }

    /** predict(features, model_type): refuses unless all three objects are loaded, scales
        the row, then dispatches on the model type. */
    function Predict(features: seq<real>, modelType: string): (r: Result<Prediction, Exception>)
      reads this
      ensures r == Failure(ModelsNotLoaded) <==> !Loaded()
      ensures Loaded() && scaler.value.transform(features).Failure? ==>
                r == Failure(Library(scaler.value.transform(features).error))
      ensures Loaded() && scaler.value.transform(features).Success? &&
              modelType != Knn && modelType != LogisticRegression ==>
                r == Failure(UnknownModelType(modelType))
      ensures Loaded() && scaler.value.transform(features).Success? && SelectModel(modelType).Some? ==>
                r == Classify(SelectModel(modelType).value, scaler.value.transform(features).value)
      ensures r.Failure? ==>
                r.error == ModelsNotLoaded || r.error.Library? ||
                (r.error == UnknownModelType(modelType) && SelectModel(modelType).None?)
      ensures r.Success? ==>
                Loaded() && scaler.value.transform(features).Success? &&
                SelectModel(modelType).Some? &&
                r == Classify(SelectModel(modelType).value, scaler.value.transform(features).value)
    {
      if scaler.None? || logisticRegression.None? || knn.None? then Failure(ModelsNotLoaded)
      else
        match scaler.value.transform(features)
        case Failure(e) => Failure(Library(e))
        case Success(scaled) =>
          match SelectModel(modelType)
          case Some(model) => Classify(model, scaled)
          case None => Failure(UnknownModelType(modelType))
    }

    /** One entry of `get_model_info`. */
    function Describe(name: string, meta: ModelMeta): ModelInfo
      reads this
    {
      ModelInfo(name, meta.accuracy.GetOr(0.0), meta.precision.GetOr(0.0), meta.recall.GetOr(0.0),
                meta.f1Score.GetOr(0.0), |featureNames|, featureNames,
                if name == Knn then Some(meta.k.GetOr(3)) else None)
    }

    /** get_model_info(): an entry per model named in the metadata, with defaults. */
    function GetModelInfo(): (info: map<string, ModelInfo>)
      reads this
      ensures LogisticRegression in info <==> metadata.logisticRegression.Some?
      ensures Knn in info <==> metadata.knn.Some?
      ensures info.Keys <= {LogisticRegression, Knn}
      ensures forall name :: name in info ==>
                info[name].modelType == name && info[name].numFeatures == |featureNames| &&
                info[name].featureNames == featureNames && (info[name].k.Some? <==> name == Knn)
      ensures LogisticRegression in info ==>
                MetricsDefaulted(info[LogisticRegression], metadata.logisticRegression.value)
      ensures Knn in info ==>
                MetricsDefaulted(info[Knn], metadata.knn.value) &&
                info[Knn].k == Some(metadata.knn.value.k.GetOr(3))
    {
      var lr := if metadata.logisticRegression.Some?
                then map[LogisticRegression := Describe(LogisticRegression, metadata.logisticRegression.value)]
                else map[];
      var kn := if metadata.knn.Some?
                then map[Knn := Describe(Knn, metadata.knn.value)]
                else map[];
      lr + kn
    }

    /** get_stats(): the metadata, the feature count and which objects are loaded. */
    function GetStats(): (s: Stats)
      reads this
      ensures s.metadata == metadata && s.numFeatures == |featureNames|
      ensures s.logisticRegressionLoaded <==> logisticRegression.Some?
      ensures s.knnLoaded <==> knn.Some?
      ensures s.scalerLoaded <==> scaler.Some?
      ensures s.scalerLoaded && s.logisticRegressionLoaded && s.knnLoaded <==> Loaded()
    {
      Stats(metadata, |featureNames|, logisticRegression.Some?, knn.Some?, scaler.Some?)
    }
  }

  /** A predictor that has only been constructed refuses every prediction. */
  method FreshPredictorRefuses(modelDir: string, features: seq<real>, modelType: string)
    returns (r: Result<Prediction, Exception>)
    ensures r == Failure(ModelsNotLoaded)
  {
    var predictor := new ModelPredictor(modelDir);
    r := predictor.Predict(features, modelType);
  }

  /** The directory `load_models` uses when none is given. */
  const DefaultModelDir := "cyberai/outputs/models"

  /** load_models(model_dir): a fresh predictor, loaded, or the load's exception. */
  method LoadModels(modelDir: Option<string>, fs: FileSystem) returns (r: Result<ModelPredictor, Exception>)
    ensures r.Success? <==> AllArtifacts <= fs(modelDir.GetOr(DefaultModelDir)).present
    ensures r.Failure? ==>
              r.error.FileNotFound? &&
              Some(r.error.artifact) == FirstMissing(fs(modelDir.GetOr(DefaultModelDir)).present)
    ensures r.Success? ==>
              fresh(r.value) && r.value.Loaded() &&
              r.value.modelDir == modelDir.GetOr(DefaultModelDir) &&
              r.value.scaler == Some(fs(r.value.modelDir).scaler) &&
              r.value.logisticRegression == Some(fs(r.value.modelDir).logisticRegression) &&
              r.value.knn == Some(fs(r.value.modelDir).knn) &&
              r.value.metadata == fs(r.value.modelDir).metadata &&
              r.value.featureNames == fs(r.value.modelDir).metadata.featureNames.GetOr([])
  {
    var dir := if modelDir.None? then DefaultModelDir else modelDir.value;
    var predictor := new ModelPredictor(dir);
    var outcome := predictor.Load(fs);
    if outcome.Fail? {
      return Failure(outcome.error);
    }
    return Success(predictor);
  }
}
