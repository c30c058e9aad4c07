# fasttext-serving: request orchestration, modelled in Dafny

fasttext-serving puts a pre-trained fastText classifier behind a network API.
This project models the layer between the transports and the model:

- `predict_one`. It terminates the text with a newline, calls the model,
  strips the `__label__` marker from each label, and splits the answer into
  parallel `labels` and `probs` lists.
- The Rocket `/predict` handler. It applies option defaults and picks one of
  three ways to run the batch: a single direct call, a parallel map, or a
  sequential map. The choice depends on how the batch size compares with the
  worker count.
- The actix-web `/predict` handler. It applies option defaults, has an empty-
  batch arm, and otherwise runs a sequential map.
- The tonic gRPC `predict`. It reads a client stream, applies defaults per
  message, accumulates one `Prediction` per message in arrival order, and
  stops at the first stream error.
- The older grpcio gRPC `predict`. It folds the stream without defaulting,
  converts the pairs into `Prediction` messages, and classifies errors:
  `RemoteStopped` is silent, anything else is logged.

The fastText model is a parameter of type `FastTextModel`, a total function
`(text, k, threshold) -> seq<ModelPrediction>`. So every property holds for
every model. Scores and thresholds are `F32`, the bit pattern of an IEEE-754
single, and are only passed through. `k` is an unbounded `int`, passed
through unchanged.

Files, one module each:

- `types.dfy` (`Types`): shared values.
- `prediction.dfy` (`PredictionService`): `predict_one` and the shared
  `iter().map(predict_one).collect()`.
- `rocket_handler.dfy` (`RocketHandler`): src/main.rs.
- `http_handler.dfy` (`HttpHandler`): src/http.rs.
- `tonic_service.dfy` (`TonicService`): src/grpc.rs. The inbound stream is a
  class with a cursor that `Next` advances.
- `grpcio_service.dfy` (`GrpcioService`): src/grpc/mod.rs.

Notes on what the code does:

- The code never floors `k` at 1. It only defaults `k` when it is absent. A
  supplied 0 or negative `k` reaches the model unchanged.
- Nothing in src/main.rs, src/http.rs, src/grpc.rs or src/grpc/mod.rs filters
  scores against the threshold or bounds the count by `k`. That is the
  fastText model's behaviour, so it is not claimed here.
- The grpcio service reads `k` and `threshold` through protobuf getters. A
  getter returns the field's value, or the message schema's default when the
  field is unset. The model takes whatever the getters return as
  `PredictRequest.k` and `PredictRequest.threshold`; the schema itself is not
  part of this model.
- src/main.rs passes `k` as `i32` and src/http.rs as `u32`. Both are modelled
  as `int`.
- The tonic stream is a cursor over a fixed item sequence. `Messages` gives
  the messages the loop reads from the cursor on (or the first error), and
  `Collect` maps the per-message `Answer` over them.

## Model

| member | source | states |
|---|---|---|
| PredictionService.ApplyDefaults | src/main.rs:58-59 | an absent `k` becomes 1 and an absent `threshold` becomes 0.0; supplied values are used unchanged, with no clamping; the actix handler and each tonic message apply the same defaults (src/http.rs lines 16-17, src/grpc.rs lines 38-39) |
| PredictionService.NormalizeText | src/main.rs:30-36 | the text handed to the model ends in a newline, starts with the whole input and is at most one character longer; an input already ending in a newline is used unchanged |
| PredictionService.TrimLeftMatches | src/main.rs:40 | after trimming, the label does not start with `__label__` (an empty pattern removes nothing) and is no longer than the input |
| PredictionService.TrimLeftMatchesRemovesRepeats | src/main.rs:40 | the label is exactly `LeadingRepeats` copies of the marker followed by the trimmed result, so every leading repetition is removed, not just one |
| PredictionService.TrimLeftMatchesIsSuffix | src/main.rs:40 | the trimmed label is a suffix of the original label |
| PredictionService.TrimLeftMatchesUnique | src/main.rs:40 | if a label is n markers followed by a t that does not start with the marker, trimming gives exactly t and removes exactly n markers |
| PredictionService.TrimLeftMatchesIdempotent | src/main.rs:40 | trimming a trimmed label changes nothing |
| PredictionService.PredictOne | src/main.rs:27-44 | the model is called on the normalised text with `k` and `threshold` unchanged; `labels` and `probs` both have one entry per model prediction, in model order: `labels[i]` is prediction i's label with the marker stripped and `probs[i]` its probability; no returned label starts with `__label__` |
| PredictionService.NormalizationIdempotent | src/main.rs:30-36 | for a text without a trailing newline, predicting the text equals predicting the text with a newline appended |
| PredictionService.RunPredictOne | src/main.rs:27-44 | the imperative routine, which copies the text only when it must push a newline and fills both vectors by `push`, returns exactly `PredictOne` |
| PredictionService.PredictEach | src/main.rs:71-73 | the sequential map gives one result per text, at the text's index, each from `predict_one` with the same `k` and `threshold` |
| PredictionService.PredictEachReadsOnlyBatch | src/main.rs:71-73 | two models that agree on the batch's normalised texts give the same batch result, so an empty batch never depends on the model |
| RocketHandler.ChooseStrategy | src/main.rs:62-75 | 0 texts take the empty arm, 1 text the direct call, 1 < n <= workers the parallel arm, and otherwise the sequential arm, each in both directions; a worker count of at most 1 never runs in parallel |
| RocketHandler.ParallelCollectIsSequential | src/main.rs:65-69 | `ParallelCollect`, which places each text's independently computed result at the text's index as `par_iter().map().collect()` does (src/main.rs lines 66-68), equals the sequential map |
| RocketHandler.Predict | src/main.rs:54-77 | in every arm, including the parallel one computed by `ParallelCollect`, the response has one result per text and result i is `predict_one` of text i with the resolved options |
| RocketHandler.PredictIsMap | src/main.rs:62-75 | whatever the worker count, the handler equals the order-preserving sequential map |
| RocketHandler.EmptyBatchSkipsModel | src/main.rs:63 | an empty batch gives an empty response for every model |
| RocketHandler.PredictWithoutOption | src/main.rs:46-52 | the option-less route is the map with `k = 1` and `threshold = 0.0` |
| HttpHandler.Predict | src/http.rs:13-28 | the response has one result per text, at the same index, and every text uses the same resolved `k` and `threshold` |
| HttpHandler.EmptyBatchIsEmpty | src/http.rs:20 | an empty batch gives an empty array, for every model |
| HttpHandler.PredictIsMap | src/http.rs:19-26 | the explicit `0` arm agrees with the map, so the handler equals the order-preserving map |
| HttpHandler.AgreesWithRocket | src/http.rs:19-26 | the actix handler and the Rocket handler, with any worker count, give the same response for the same batch and options |
| TonicService.MessagesMeaning | src/grpc.rs:35-36 | reading the stream from the cursor on succeeds exactly when no remaining item is an error, and then yields every remaining message in arrival order |
| TonicService.CollectMeaning | src/grpc.rs:34-43 | accumulation succeeds exactly when no remaining item is an error; then there is one `Prediction` per message, in arrival order, equal to `Answer` of that message, that is `predict_one` under the message's own defaults (src/grpc.rs lines 37-41); an exhausted stream gives no predictions |
| TonicService.Consumed | src/grpc.rs:35-36 | the loop pulls at most the items that remain |
| TonicService.ConsumedAll | src/grpc.rs:35-36 | on a stream without errors the loop pulls every remaining item |
| TonicService.StopsAtFirstFailure | src/grpc.rs:35-36 | at the first error item, the result is that error and exactly the items up to and including it are pulled |
| TonicService.RequestStream.Next | src/grpc.rs:35 | `next()` yields the item under the cursor and advances it, or yields `None` at the end |
| TonicService.FastTextServingService.PredictMessage | src/grpc.rs:37-41 | the loop body for one message returns exactly `Answer`: `k` defaults to 1, `threshold` to 0.0, then `predict_one` on the message's text |
| TonicService.FastTextServingService.Predict | src/grpc.rs:27-44 | the loop returns `Collect` of the items from the cursor on as a `PredictResponse`, or its error, and advances the stream by exactly `Consumed` items |
| GrpcioService.Fold | src/grpc/mod.rs:33-40 | the fold succeeds exactly when no item is an error; it keeps the accumulator in front and appends one result per message, in arrival order, equal to `Answer` of that message: `predict_one` with `k` and `threshold` taken from the getters (src/grpc/mod.rs lines 35-38) |
| GrpcioService.FoldStopsAtFirstFailure | src/grpc/mod.rs:33-40 | the first stream error ends the fold with that error, whatever follows it |
| GrpcioService.FoldRequests | src/grpc/mod.rs:33-40 | the loop that pushes onto one accumulator returns exactly `Fold` from the empty vector |
| GrpcioService.ToPredictions | src/grpc/mod.rs:41-51 | one `Prediction` per pair, at the same index, with `labels` from the first component and `probs` from the second |
| GrpcioService.Classify | src/grpc/mod.rs:56-59 | every error ends the call without a response; `RemoteStopped` is dropped silently, any other error is logged |
| GrpcioService.AnswerAgrees | src/grpc/mod.rs:35-38 | a message whose `k` and `threshold` are set gets from this service's `Answer` the same labels and probs as from the tonic service's `Answer` (src/grpc.rs lines 37-41) |
| GrpcioService.AgreesWithTonic | src/grpc/mod.rs:35-38 | for messages that set `k` and `threshold`, this service's predictions equal what the tonic service gives for the same messages |
| GrpcioService.FasttextServingService.Predict | src/grpc/mod.rs:26-61 | a response goes out exactly when the whole stream folds without error and the send succeeds; it then has one prediction per message, in order, holding that message's `Answer`; the first stream error, or a failed send, decides the outcome through `Classify` |

## Left out

- The fastText model (`FastText::predict`, `load_model`) is a foreign C++ binding. It is the parameter `model`. No claim is made about its scores, its ranking or how many labels it returns.
- Floating point: scores and thresholds are opaque bit patterns that are only passed through.
- rayon parallelism: the parallel arm is modelled by placing each text's result at its index, which is what `par_iter().map().collect()` guarantees. Scheduling and threads are not modelled.
- Server lifecycle: every `runserver` and `start_server`, the Ctrl-C flag and its polling loop, and the framework wiring (Rocket, actix-web, tonic, grpcio). This includes message-size limits, worker and thread setup, and the tokio runtime. All of it is signal, I/O and concurrency plumbing.
- The command line and the model-path check in `main` of src/main.rs: argument parsing and file-system access.
- JSON and protobuf encoding and decoding: handlers take and return decoded values. HTTP status codes come from the framework. The actix handler has no error path, so an empty batch also gets a normal response.
- The grpcio `sink.success(resp)` is a network send. Its result is the `sendFailure` parameter. `ctx.spawn` and the asynchronous execution of the future are not modelled.
- The tonic `Streaming` source is an already-known sequence of items. Waiting on the network (`.await`) is not modelled.
- The generated gRPC stubs in src/grpc/predict_grpc.rs, the protobuf build script build.rs, and the Python client are not part of this model.
- Unix-socket addresses, the `/sentence-vector` embedding endpoints and flooring `k` at 1: src/main.rs, src/http.rs, src/grpc.rs and src/grpc/mod.rs contain no code for these.
