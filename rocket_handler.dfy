/** The Rocket `/predict` handler of src/main.rs: it applies the option
    defaults and picks one of three ways to run `predict_one` over the batch,
    comparing the batch size with the configured worker count. */
module RocketHandler {
  import opened Types
  import opened PredictionService

  /** The query options; either may be absent. */
  datatype PredictOptions = PredictOptions(k: Option<int>, threshold: Option<F32>)

  /** The arms of the handler's `match text_count`. */
  datatype Strategy = NoWork | Direct | Parallel | Sequential

  /** Which arm a batch of `n` texts takes when Rocket runs `workers` workers.
      Each arm is characterised in both directions, so a worker count of at
      most one never runs in parallel. */
  function ChooseStrategy(n: nat, workers: nat): (s: Strategy)
    ensures s == NoWork <==> n == 0
    ensures s == Direct <==> n == 1
    ensures s == Parallel <==> 1 < n <= workers
    ensures s == Sequential <==> 1 < n && workers < n
    ensures workers <= 1 ==> s != Parallel
  {
    match n
    case 0 => NoWork
    case 1 => Direct
    case _ => if n > 1 && n <= workers then Parallel else Sequential
  }

  /** `texts.par_iter().map(..).collect()`: each text is predicted on its own
      and `collect` puts every result at the index of its text. */
  function ParallelCollect(model: FastTextModel, texts: seq<string>, k: int, threshold: F32): seq<LabelsProbs> {
    seq(|texts|, i requires 0 <= i < |texts| => PredictOne(model, texts[i], k, threshold))
  }

  /** Gathering the independently computed results by index gives exactly the
      sequential map. */
  lemma ParallelCollectIsSequential(model: FastTextModel, texts: seq<string>, k: int, threshold: F32)
    ensures ParallelCollect(model, texts, k, threshold) == PredictEach(model, texts, k, threshold)
  {
  }

  /** The `predict` handler. Whatever arm runs, the response holds one result
      per input text, at the same index, each computed with the resolved `k`
      and `threshold`. */
  function Predict(model: FastTextModel, workers: nat, texts: seq<string>, options: PredictOptions): (r: seq<LabelsProbs>)
    ensures |r| == |texts|
    ensures forall i :: 0 <= i < |texts| ==>
      r[i] == PredictOne(model, texts[i], ApplyDefaults(options.k, options.threshold).0, ApplyDefaults(options.k, options.threshold).1)
  {
    var (k, threshold) := ApplyDefaults(options.k, options.threshold);
    match ChooseStrategy(|texts|, workers)
    case NoWork => []
    case Direct => [PredictOne(model, texts[0], k, threshold)]
    case Parallel =>
      ParallelCollectIsSequential(model, texts, k, threshold);
      ParallelCollect(model, texts, k, threshold)
    case Sequential => PredictEach(model, texts, k, threshold)
  }

  /** Every arm computes the same order-preserving map, whatever the worker
      count. */
  lemma PredictIsMap(model: FastTextModel, workers: nat, texts: seq<string>, options: PredictOptions)
    ensures var (k, threshold) := ApplyDefaults(options.k, options.threshold);
      Predict(model, workers, texts, options) == PredictEach(model, texts, k, threshold)
  {
  }

  /** An empty batch gives an empty response whatever the model. */
  lemma EmptyBatchSkipsModel(m1: FastTextModel, m2: FastTextModel, workers: nat, options: PredictOptions)
    ensures Predict(m1, workers, [], options) == [] == Predict(m2, workers, [], options)
  {
  }

  /** `predict_without_option`: the handler with `Default::default()` options. */
  function PredictWithoutOption(model: FastTextModel, workers: nat, texts: seq<string>): (r: seq<LabelsProbs>)
    ensures r == PredictEach(model, texts, 1, Zero)
  {
    PredictIsMap(model, workers, texts, PredictOptions(None, None));
    Predict(model, workers, texts, PredictOptions(None, None))
  }
}
