/** Values shared by every part of the serving core: the opaque fastText model,
    the scores it returns and the prediction records the transports emit. */
module Types {

  /** An IEEE-754 single-precision value kept as its bit pattern. The core never
      computes with scores or thresholds; it only passes them along. */
  datatype F32 = F32(bits: bv32)

  /** The bit pattern of `0.0f32`, the default threshold. */
  const Zero: F32 := F32(0)

  datatype Option<T> = None | Some(value: T) {
    /** Rust's `Option::unwrap_or`. */
    function GetOr(default: T): (r: T)
      ensures Some? ==> r == value
      ensures None? ==> r == default
    {
      match this
      case Some(v) => v
      case None => default
    }
  }

  datatype Result<T, E> = Ok(value: T) | Err(error: E)

  /** One entry of the list the fastText binding returns: a raw label, still
      carrying the model's `__label__` marker, and its probability. */
  datatype ModelPrediction = ModelPrediction(rawLabel: string, prob: F32)

  /** The loaded model's `predict(text, k, threshold)`: a foreign call whose
      behaviour is not part of this model, so it is a parameter everywhere. */
  type FastTextModel = (string, int, F32) -> seq<ModelPrediction>

  /** The pair `(labels, probs)` that `predict_one` returns. */
  type LabelsProbs = (seq<string>, seq<F32>)

  /** The protobuf message `Prediction { labels, probs }` of both gRPC services. */
  datatype Prediction = Prediction(labels: seq<string>, probs: seq<F32>)
}
