/** The exceptions the prediction pipeline can raise, and which of them are ValueErrors. */
module Exceptions {
  import opened Values

  /** The four files of a model directory, in the order `ModelPredictor.load` checks them. */
  datatype Artifact = ScalerFile | LogisticRegressionFile | KnnFile | MetadataFile

  /** An exception raised inside the scaler or a classifier (foreign library code). */
  datatype LibraryError = LibraryError(isValueError: bool)

  datatype Exception =
    | MissingFeatures(names: set<string>)     // ValueError: required names absent from the input
    | NotNumeric(name: string)                // ValueError: float(value) failed
    | InvalidValue(name: string, value: Float) // ValueError: value is NaN or infinite
    | NotFloat(name: string)                  // TypeError: np.isfinite on a non-number
    | ModelsNotLoaded                         // ValueError: predict before a complete load
    | UnknownModelType(modelType: string)     // ValueError: model type not dispatched
    | FileNotFound(artifact: Artifact)        // FileNotFoundError: artifact missing at load
    | Library(error: LibraryError)            // raised by scaler or classifier code
  {
    /** Whether Python would catch this exception with `except ValueError`. */
    predicate IsValueError() {
      match this
      case MissingFeatures(_) => true
      case NotNumeric(_) => true
      case InvalidValue(_, _) => true
      case NotFloat(_) => false
      case ModelsNotLoaded => true
      case UnknownModelType(_) => true
      case FileNotFound(_) => false
      case Library(e) => e.isValueError
    }
  }
}
