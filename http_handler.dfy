/** The actix-web `/predict` handler of src/http.rs: option defaults, an
    explicit empty-batch arm, and a sequential map of `predict_one`. */
module HttpHandler {
  import opened Types
  import opened PredictionService
  import RocketHandler

  /** The query string options; either may be absent. */
  datatype PredictOptions = PredictOptions(k: Option<int>, threshold: Option<F32>)

  /** The `predict` handler. It has no error path: a decoded batch always
      yields a response, with one result per text at the same index, every
      text predicted with the same resolved `k` and `threshold`. */
  function Predict(model: FastTextModel, texts: seq<string>, options: PredictOptions): (r: seq<LabelsProbs>)
    ensures |r| == |texts|
    ensures forall i :: 0 <= i < |texts| ==>
      r[i] == PredictOne(model, texts[i], ApplyDefaults(options.k, options.threshold).0, ApplyDefaults(options.k, options.threshold).1)
  {
    var (k, threshold) := ApplyDefaults(options.k, options.threshold);
    match |texts|
    case 0 => []
    case _ => PredictEach(model, texts, k, threshold)
  }

  /** An empty batch gives an empty array, whatever the model. */
  lemma EmptyBatchIsEmpty(m1: FastTextModel, m2: FastTextModel, options: PredictOptions)
    ensures Predict(m1, [], options) == [] == Predict(m2, [], options)
  {
  }

  /** The explicit `0` arm agrees with mapping over the empty batch, so the
      whole handler is the order-preserving map. */
  lemma PredictIsMap(model: FastTextModel, texts: seq<string>, options: PredictOptions)
    ensures var (k, threshold) := ApplyDefaults(options.k, options.threshold);
      Predict(model, texts, options) == PredictEach(model, texts, k, threshold)
  {
  }

  /** Both HTTP front ends answer every batch alike: the actix handler and the
      Rocket handler, for any Rocket worker count, given the same options. */
  lemma AgreesWithRocket(model: FastTextModel, workers: nat, texts: seq<string>, k: Option<int>, threshold: Option<F32>)
    ensures Predict(model, texts, PredictOptions(k, threshold))
         == RocketHandler.Predict(model, workers, texts, RocketHandler.PredictOptions(k, threshold))
  {
    PredictIsMap(model, texts, PredictOptions(k, threshold));
    RocketHandler.PredictIsMap(model, workers, texts, RocketHandler.PredictOptions(k, threshold));
  }
}
