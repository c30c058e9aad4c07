/** The tonic gRPC service of src/grpc.rs: a client-streaming `predict` that
    runs `predict_one` once per inbound message, with per-message defaults,
    accumulates the results in arrival order and stops at the first stream
    error. */
module TonicService {
  import opened Types
  import opened PredictionService

  /** A `PredictRequest` message; `k` and `threshold` are optional fields. */
  datatype PredictRequest = PredictRequest(text: string, k: Option<int>, threshold: Option<F32>)

  /** tonic's `Status`, the error a stream item can carry. */
  datatype Status = Status(code: int, message: string)

  /** One item the inbound stream yields. */
  datatype StreamItem = Received(req: PredictRequest) | Failed(status: Status)

  datatype PredictResponse = PredictResponse(predictions: seq<Prediction>)

  /** The `Prediction` built for one message, with that message's own
      defaults: `req.k.unwrap_or(1)` and `req.threshold.unwrap_or(0.0)`. */
  function Answer(model: FastTextModel, req: PredictRequest): Prediction {
    var (k, threshold) := ApplyDefaults(req.k, req.threshold);
    var (labels, probs) := PredictOne(model, req.text, k, threshold);
    Prediction(labels, probs)
  }

  /** No item from index `from` on is an error. */
  predicate AllReceived(items: seq<StreamItem>, from: nat) {
    forall i :: from <= i < |items| ==> items[i].Received?
  }

  /** Item `j` is the first failure at or after index `from`. */
  predicate FailsFirstAt(items: seq<StreamItem>, from: nat, j: nat) {
    from <= j < |items| && items[j].Failed? && forall i :: from <= i < j ==> items[i].Received?
  }

  /** The messages the `while let` loop reads from index `from` on before it
      returns: every remaining message in arrival order, or the first
      error. */
  function Messages(items: seq<StreamItem>, from: nat): Result<seq<PredictRequest>, Status>
    decreases |items| - from
  {
    if from >= |items| then Ok([])
    else match items[from]
      case Failed(status) => Err(status)
      case Received(req) =>
        match Messages(items, from + 1)
        case Ok(rest) => Ok([req] + rest)
        case Err(status) => Err(status)
  }

  /** The reading succeeds exactly when no remaining item is an error, and
      then yields every remaining message, in arrival order. */
  lemma {:induction false} MessagesMeaning(items: seq<StreamItem>, from: nat)
    requires from <= |items|
    ensures Messages(items, from).Ok? <==> AllReceived(items, from)
    ensures Messages(items, from).Ok? ==> |Messages(items, from).value| == |items| - from
    ensures Messages(items, from).Ok? ==>
      forall i :: from <= i < |items| ==> Messages(items, from).value[i - from] == items[i].req
    decreases |items| - from
  {
    if from < |items| {
      MessagesMeaning(items, from + 1);
      var rest := Messages(items, from + 1);
      if items[from].Received? && rest.Ok? {
        var reqs := [items[from].req] + rest.value;
        forall i | from <= i < |items| ensures reqs[i - from] == items[i].req {
          if i > from { assert reqs[i - from] == rest.value[i - (from + 1)]; }
        }
      }
    }
  }

  /** One `Prediction` per message, at the message's index. */
  function Answers(model: FastTextModel, reqs: seq<PredictRequest>): seq<Prediction> {
    seq(|reqs|, i requires 0 <= i < |reqs| => Answer(model, reqs[i]))
  }

  /** What the loop accumulates from index `from` on: the answers to the
      messages it reads, or the first error. `CollectMeaning` states what it
      holds. */
  function Collect(model: FastTextModel, items: seq<StreamItem>, from: nat): Result<seq<Prediction>, Status> {
    match Messages(items, from)
    case Ok(reqs) => Ok(Answers(model, reqs))
    case Err(status) => Err(status)
  }

  /** Accumulation succeeds exactly when no remaining item is an error, and
      then holds one `Prediction` per remaining message, in arrival order,
      each under that message's own defaults. */
  lemma CollectMeaning(model: FastTextModel, items: seq<StreamItem>, from: nat)
    requires from <= |items|
    ensures Collect(model, items, from).Ok? <==> AllReceived(items, from)
    ensures Collect(model, items, from).Ok? ==> |Collect(model, items, from).value| == |items| - from
    ensures Collect(model, items, from).Ok? ==>
      forall i :: from <= i < |items| ==> Collect(model, items, from).value[i - from] == Answer(model, items[i].req)
  {
    MessagesMeaning(items, from);
    if AllReceived(items, from) {
      var reqs := Messages(items, from).value;
      forall i | from <= i < |items|
        ensures Collect(model, items, from).value[i - from] == Answer(model, items[i].req)
      {
        assert reqs[i - from] == items[i].req;
      }
    }
  }

  /** How many items the loop pulls, from index `from` on, before it
      returns: at most all that remain. */
  function Consumed(items: seq<StreamItem>, from: nat): (n: nat)
    requires from <= |items|
    ensures n <= |items| - from
    decreases |items| - from
  {
    if from == |items| then 0
    else if items[from].Failed? then 1
    else 1 + Consumed(items, from + 1)
  }

  /** On a stream without errors the loop pulls every remaining item. */
  lemma {:induction false} ConsumedAll(items: seq<StreamItem>, from: nat)
    requires from <= |items| && AllReceived(items, from)
    ensures Consumed(items, from) == |items| - from
    decreases |items| - from
  {
    if from < |items| {
      ConsumedAll(items, from + 1);
    }
  }

  /** On the first error the method returns that error and pulls nothing past
      it: the items after it neither change the outcome nor are read. */
  lemma {:induction false} StopsAtFirstFailure(model: FastTextModel, items: seq<StreamItem>, from: nat, j: nat)
    requires FailsFirstAt(items, from, j)
    ensures Collect(model, items, from) == Err(items[j].status)
    ensures Consumed(items, from) == j + 1 - from
    decreases j - from
  {
    if from < j {
      StopsAtFirstFailure(model, items, from + 1, j);
    }
  }

  /** `done` in front of what is still to come. */
  function Prepend<T>(done: seq<T>, rest: Result<seq<T>, Status>): Result<seq<T>, Status> {
    match rest
    case Ok(more) => Ok(done + more)
    case Err(status) => Err(status)
  }

  function Respond(collected: Result<seq<Prediction>, Status>): Result<PredictResponse, Status> {
    match collected
    case Ok(ps) => Ok(PredictResponse(ps))
    case Err(status) => Err(status)
  }

  /** What the loop has read and what it has accumulated: the messages read
      from `start` up to `pos` stand in front of what is still to be read,
      the accumulator holds their answers, and the pulled items are counted. */
  ghost predicate Progress(model: FastTextModel, items: seq<StreamItem>, start: nat, pos: nat,
                           reqs: seq<PredictRequest>, ps: seq<Prediction>)
  {
    && start <= pos <= |items|
    && Messages(items, start) == Prepend(reqs, Messages(items, pos))
    && ps == Answers(model, reqs)
    && Consumed(items, start) == pos - start + Consumed(items, pos)
  }

  /** Before the loop nothing is read or accumulated. */
  lemma ProgressStart(model: FastTextModel, items: seq<StreamItem>, start: nat)
    requires start <= |items|
    ensures Progress(model, items, start, start, [], [])
  {
    match Messages(items, start) {
      case Ok(more) => assert [] + more == more;
      case Err(_) =>
    }
  }

  /** One step of the loop on a message: it is read, and its answer is
      appended to the accumulator. */
  lemma ProgressStep(model: FastTextModel, items: seq<StreamItem>, start: nat, pos: nat,
                     reqs: seq<PredictRequest>, ps: seq<Prediction>, req: PredictRequest)
    requires Progress(model, items, start, pos, reqs, ps)
    requires pos < |items| && items[pos] == Received(req)
    ensures Progress(model, items, start, pos + 1, reqs + [req], ps + [Answer(model, req)])
  {
    match Messages(items, pos + 1) {
      case Ok(more) => assert reqs + ([req] + more) == (reqs + [req]) + more;
      case Err(_) =>
    }
    assert Answers(model, reqs + [req]) == Answers(model, reqs) + [Answer(model, req)];
  }

  /** The loop's exit at the end of the stream: the response is the
      accumulated predictions. */
  lemma ProgressEnd(model: FastTextModel, items: seq<StreamItem>, start: nat,
                    reqs: seq<PredictRequest>, ps: seq<Prediction>)
    requires Progress(model, items, start, |items|, reqs, ps)
    ensures Respond(Collect(model, items, start)) == Ok(PredictResponse(ps))
    ensures Consumed(items, start) == |items| - start
  {
    assert reqs + [] == reqs;
  }

  /** The loop's exit at an error item: the error is the result, and that
      item is the last one pulled. */
  lemma ProgressFailure(model: FastTextModel, items: seq<StreamItem>, start: nat, pos: nat,
                        reqs: seq<PredictRequest>, ps: seq<Prediction>, status: Status)
    requires Progress(model, items, start, pos, reqs, ps)
    requires pos < |items| && items[pos] == Failed(status)
    ensures Respond(Collect(model, items, start)) == Err(status)
    ensures Consumed(items, start) == pos + 1 - start
  {
  }

  /** The inbound `Streaming<PredictRequest>`: its items and a cursor that
      `next()` advances. */
  class RequestStream {
    const items: seq<StreamItem>
    var pos: nat

    ghost predicate Valid()
      reads this
    {
      pos <= |items|
    }

    constructor (items: seq<StreamItem>)
      ensures Valid() && this.items == items && pos == 0
    {
      this.items := items;
      pos := 0;
    }

    /** `stream.next().await`: the next item, or `None` at the end. */
    method Next() returns (item: Option<StreamItem>)
      requires Valid()
      modifies this`pos
      ensures Valid()
      ensures old(pos) < |items| ==> item == Some(items[old(pos)]) && pos == old(pos) + 1
      ensures old(pos) == |items| ==> item == None && pos == old(pos)
    {
      if pos < |items| {
        item := Some(items[pos]);
        pos := pos + 1;
      } else {
        item := None;
      }
    }
  }

  /** `FastTextServingService`: holds the shared model. */
  class FastTextServingService {
    const model: FastTextModel

    constructor (model: FastTextModel)
      ensures this.model == model
    {
      this.model := model;
    }

    /** The loop body for one message: its own defaults, then `predict_one`,
        wrapped in a `Prediction`. */
    method PredictMessage(req: PredictRequest) returns (p: Prediction)
      ensures p == Answer(model, req)
    {
      var k := req.k.GetOr(1);
      var threshold := req.threshold.GetOr(Zero);
      var labels, probs := RunPredictOne(model, req.text, k, threshold);
      p := Prediction(labels, probs);
    }

    /** `predict`: the response is what `Collect` gives for the items still
        in the stream, and the stream is advanced by exactly `Consumed` of
        them. */
    method Predict(stream: RequestStream) returns (r: Result<PredictResponse, Status>)
      requires stream.Valid()
      modifies stream
      ensures stream.Valid()
      ensures r == Respond(Collect(model, stream.items, old(stream.pos)))
      ensures stream.pos == old(stream.pos) + Consumed(stream.items, old(stream.pos))
    {
      ghost var items := stream.items;
      ghost var start := stream.pos;
      ghost var reqs: seq<PredictRequest> := [];
      var predictions: seq<Prediction> := [];
      ProgressStart(model, items, start);
      while true
        invariant stream.Valid() && stream.items == items
        invariant Progress(model, items, start, stream.pos, reqs, predictions)
        decreases |items| - stream.pos
      {
        ghost var at := stream.pos;
        var item := stream.Next();
        match item {
          case None =>
            ProgressEnd(model, items, start, reqs, predictions);
            return Ok(PredictResponse(predictions));
          case Some(Failed(status)) =>
            ProgressFailure(model, items, start, at, reqs, predictions, status);
            return Err(status);
          case Some(Received(req)) =>
            var prediction := PredictMessage(req);
            ProgressStep(model, items, start, at, reqs, predictions, req);
            reqs := reqs + [req];
            predictions := predictions + [prediction];
        }
      }
    }
  }
}
