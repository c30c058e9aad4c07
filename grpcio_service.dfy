/** The grpcio gRPC service of src/grpc/mod.rs: `predict` folds the inbound
    stream into a vector of `predict_one` results, converts them into
    `Prediction` messages, sends one response, and classifies whatever error
    ends the call. */
module GrpcioService {
  import opened Types
  import opened PredictionService
  import TonicService

  /** A `PredictRequest` message as its getters read it. A getter returns the
      field's value, or the message schema's default when the field is unset;
      `k` and `threshold` hold whatever the getters return. */
  datatype PredictRequest = PredictRequest(text: string, k: int, threshold: F32)

  /** `grpcio::Error`, as far as `map_err` distinguishes it. */
  datatype GrpcError = RemoteStopped | OtherFailure(description: string)

  datatype StreamItem = Received(req: PredictRequest) | Failed(err: GrpcError)

  datatype PredictResponse = PredictResponse(predictions: seq<Prediction>)

  /** How a call ends: the response was sent, the call was dropped silently,
      or an error was logged. */
  datatype Outcome = Responded(response: PredictResponse) | Dropped | Logged(err: GrpcError)

  /** The result for one message: `k` and `threshold` straight from the
      getters, with no defaulting. */
  function Answer(model: FastTextModel, req: PredictRequest): LabelsProbs {
    PredictOne(model, req.text, req.k, req.threshold)
  }

  predicate AllReceived(items: seq<StreamItem>) {
    forall i :: 0 <= i < |items| ==> items[i].Received?
  }

  /** Item `j` is the first failure of the stream. */
  predicate FailsFirstAt(items: seq<StreamItem>, j: nat) {
    j < |items| && items[j].Failed? && AllReceived(items[..j])
  }

  /** `stream.fold(acc, |mut preds, req| { preds.push(..); Ok(preds) })`. It
      succeeds exactly when no item is an error; the result then keeps `acc`
      in front and appends one result per message, in arrival order. */
  function Fold(model: FastTextModel, acc: seq<LabelsProbs>, items: seq<StreamItem>): (r: Result<seq<LabelsProbs>, GrpcError>)
    ensures r.Ok? <==> AllReceived(items)
    ensures r.Ok? ==> |r.value| == |acc| + |items| && r.value[..|acc|] == acc
    ensures r.Ok? ==> forall i :: 0 <= i < |items| ==> r.value[|acc| + i] == Answer(model, items[i].req)
    decreases |items|
  {
    if items == [] then Ok(acc)
    else match items[0]
      case Failed(err) => Err(err)
      case Received(req) => Fold(model, acc + [Answer(model, req)], items[1..])
  }

  /** A stream error ends the fold with that error, whatever follows it. */
  lemma {:induction false} FoldStopsAtFirstFailure(model: FastTextModel, acc: seq<LabelsProbs>, items: seq<StreamItem>, j: nat)
    requires FailsFirstAt(items, j)
    ensures Fold(model, acc, items) == Err(items[j].err)
    decreases j
  {
    if j > 0 {
      assert items[0] == items[..j][0];
      assert items[1..][..j - 1] == items[..j][1..];
      FoldStopsAtFirstFailure(model, acc + [Answer(model, items[0].req)], items[1..], j - 1);
    }
  }

  /** The fold as the closure runs it, pushing onto one accumulator. */
  method FoldRequests(model: FastTextModel, items: seq<StreamItem>) returns (r: Result<seq<LabelsProbs>, GrpcError>)
    ensures r == Fold(model, [], items)
  {
    var preds: seq<LabelsProbs> := [];
    var i := 0;
    while i < |items|
      invariant 0 <= i <= |items|
      invariant Fold(model, [], items) == Fold(model, preds, items[i..])
    {
      assert items[i..][1..] == items[i + 1..];
      match items[i] {
        case Failed(err) =>
          return Err(err);
        case Received(req) =>
          var labels, probs := RunPredictOne(model, req.text, req.k, req.threshold);
          preds := preds + [(labels, probs)];
      }
      i := i + 1;
    }
    r := Ok(preds);
  }

  /** The `.map(|pred| ...).collect()` that turns each `(labels, probs)` pair
      into a `Prediction` at the same index. */
  function ToPredictions(preds: seq<LabelsProbs>): (r: seq<Prediction>)
    ensures |r| == |preds|
    ensures forall i :: 0 <= i < |preds| ==> r[i].labels == preds[i].0 && r[i].probs == preds[i].1
  {
    if preds == [] then []
    else [Prediction(preds[0].0, preds[0].1)] + ToPredictions(preds[1..])
  }

  /** `map_err`: a stopped peer is dropped silently, anything else is logged. */
  function Classify(err: GrpcError): (r: Outcome)
    ensures !r.Responded?
    ensures r.Dropped? <==> err == RemoteStopped
    ensures r.Logged? <==> err != RemoteStopped
    ensures r.Logged? ==> r.err == err
  {
    match err
    case RemoteStopped => Dropped
    case OtherFailure(_) => Logged(err)
  }

  /** The same messages as the newer service receives them, with `k` and
      `threshold` set. */
  function WithExplicitOptions(items: seq<StreamItem>): (r: seq<TonicService.StreamItem>)
    requires AllReceived(items)
    ensures |r| == |items| && TonicService.AllReceived(r, 0)
  {
    seq(|items|, i requires 0 <= i < |items| =>
      TonicService.Received(TonicService.PredictRequest(items[i].req.text, Some(items[i].req.k), Some(items[i].req.threshold))))
  }

  /** One message with `k` and `threshold` set is answered alike by both
      services. */
  lemma AnswerAgrees(model: FastTextModel, req: PredictRequest)
    ensures var (labels, probs) := Answer(model, req);
      Prediction(labels, probs)
        == TonicService.Answer(model, TonicService.PredictRequest(req.text, Some(req.k), Some(req.threshold)))
  {
  }

  /** A message that sets both `k` and `threshold` gets the same labels and
      probabilities from both gRPC services. */
  lemma {:induction false} AgreesWithTonic(model: FastTextModel, items: seq<StreamItem>)
    requires AllReceived(items)
    ensures var explicit := WithExplicitOptions(items);
      && TonicService.Collect(model, explicit, 0).Ok?
      && Fold(model, [], items).Ok?
      && ToPredictions(Fold(model, [], items).value) == TonicService.Collect(model, explicit, 0).value
  {
    var explicit := WithExplicitOptions(items);
    TonicService.MessagesMeaning(explicit, 0);
    var reqs := TonicService.Messages(explicit, 0).value;
    var folded := Fold(model, [], items).value;
    var ours := ToPredictions(folded);
    var tonic := TonicService.Answers(model, reqs);
    forall i | 0 <= i < |items| ensures ours[i] == tonic[i] {
      var req := items[i].req;
      assert reqs[i - 0] == explicit[i].req;
      assert folded[0 + i] == Answer(model, req);
      AnswerAgrees(model, req);
    }
  }

  /** `FasttextServingService`: holds the shared model. */
  class FasttextServingService {
    const model: FastTextModel

    constructor (model: FastTextModel)
      ensures this.model == model
    {
      this.model := model;
    }

    /** `predict` on the inbound `items`; `sendFailure` is the error, if any,
        that `sink.success(resp)` reports. A response goes out exactly when the
        whole stream folds without error and the send succeeds, and it then
        holds one prediction per message, in arrival order. The first stream
        error decides the outcome through `Classify`. */
    method Predict(items: seq<StreamItem>, sendFailure: Option<GrpcError>) returns (outcome: Outcome)
      ensures outcome.Responded? <==> AllReceived(items) && sendFailure == None
      ensures outcome.Responded? ==>
        var ps := outcome.response.predictions;
        && |ps| == |items|
        && forall i :: 0 <= i < |items| ==>
             ps[i].labels == Answer(model, items[i].req).0 && ps[i].probs == Answer(model, items[i].req).1
      ensures forall j: nat :: FailsFirstAt(items, j) ==> outcome == Classify(items[j].err)
      ensures AllReceived(items) && sendFailure.Some? ==> outcome == Classify(sendFailure.value)
    {
      var folded := FoldRequests(model, items);
      forall j: nat | FailsFirstAt(items, j)
        ensures folded == Err(items[j].err)
      {
        FoldStopsAtFirstFailure(model, [], items, j);
      }
      match folded {
        case Ok(preds) =>
          assert AllReceived(items);
          var resp := PredictResponse(ToPredictions(preds));
          match sendFailure {
            case None => outcome := Responded(resp);
            case Some(err) => outcome := Classify(err);
          }
          assert forall j: nat :: !FailsFirstAt(items, j);
        case Err(err) =>
          assert !AllReceived(items);
          outcome := Classify(err);
      }
    }
  }
}
