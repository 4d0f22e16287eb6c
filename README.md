# pFedHN: a verified model of the hypernetwork server, its strategy and the shape tables

pFedHN is personalised federated learning with a hypernetwork. A central
hypernetwork (`CNNHyper`) maps a client's index to the full weight set of
that client's target network (`CNNTarget`).

- **Training round.** The server generates the weights of one sampled client
  and sends them out. It receives the locally trained weights back, forms
  their difference `delta_theta` with the generated weights, and uses that
  difference to update the hypernetwork.
- **Evaluation round.** The server sends every sampled client its generated
  weights and appends one record to an evaluation log.
- **Strategy.** The strategy class (`pFedHN`) decides how many clients are
  sampled, builds their instructions and "aggregates" results. It has a
  hypernetwork of its own.

This project models the structural, integer and list logic of the three core
files and proves what it promises. The floating-point numerics and the Flower
transport are not modelled.

| file | module | what it models |
|---|---|---|
| `common.dfy` | `Common` | Python exceptions as `Result`; Flower's message types (`Parameters`, `FitIns`, `EvaluateIns`, `FitRes`/`EvaluateRes`, status codes); the list/array conversions |
| `models.dfy` | `Models`, `ModelsProofs` | `CNNHyper.__init__` (trunk loop, heads), `CNNHyper.forward` (key and view table), the layers of `CNNTarget.__init__`, `named_parameters()`; proofs that generated shapes equal the target's shapes |
| `gather.dfy` | `Gather` | `_handle_finished_future_after_fit/evaluate` as a class whose two lists are appended to, the gather loop of `fit_clients`/`evaluate_clients`, and the partition properties |
| `strategy.dfy` | `Strategy` | class `PFedHN`: sizing, `configure_fit`/`configure_evaluate` loops, one-shot `initialize_parameters`, `aggregate_fit`, `aggregate_evaluate`, `evaluate` |
| `server.dfy` | `Server` | class `PFedHNServer`: the hypernetwork construction (with the `local=` finding), the optimizer's parameter groups, `delta_theta`, `fit_round`, `evaluate_round`, `fit` |

Modelling choices:

- **Tensors.** A tensor is a flat `seq<real>`. The shape table is modelled
  exactly: a generated tensor has as many elements as the shape `forward`
  views its head's output into, which is the element count of the target
  parameter of the same name.
- **The hypernetwork's numerics.** Two function parameters stand for them:
  - a `Generator` gives each element, by position, of the tensor generated
    for a client and a key;
  - a `Stepper` gives the new parameter values after `autograd.grad`,
    clipping and the optimizer step.
- **The server's view of the outside.** The server is written against
  Flower's abstract `Strategy`, so it sees its strategy and its clients as the
  functions of an `Env` value:
  - `configure_fit`, `aggregate_fit`, `evaluate`, `configure_evaluate` and
    `aggregate_evaluate`;
  - the client calls.
- **Finished calls.** The finished calls of a round are a sequence of futures.
  Python iterates over a set, so any order is possible. The gather loop
  (`GatherResults`) accepts any order, and `GatherOrderIrrelevant` proves that
  the order does not change which entries each list holds. The rounds
  (`FitClients`, `FitRoundSpec`, `EvaluateRoundSpec`) take the futures in
  submission order; see "## Left out".
- **Specification functions.** Every state-changing method is proved against
  a pure specification function (`FitRoundSpec`, `EvaluateRoundSpec`,
  `FitSpec`, `Successes`/`FailuresOf`). The lemmas state the promised
  properties of those functions.

Where the source's own docstrings and log messages promise more than its code
does, the model follows the code:

- `num_evaluate_clients` (strategy.py:90-92) is documented as using "a
  fraction of available clients" but returns `min(0, n)`, i.e. no client.
- `aggregate_evaluate` (strategy.py:189-198) is documented as aggregating
  evaluation metrics but returns `(None, {})` on every path.
- `fit_round` logs "no clients selected, cancel" for an empty selection
  (server.py:209-211), but it has already read `client_instructions[0]`
  (server.py:196), so an empty selection raises `IndexError` instead.

## Model

| member | source | states |
|---|---|---|
| Common.NdarraysToParameters | baselines/pFedHN/pFedHN/server.py:205-206 | the wire form keeps the arrays in order, tagged "numpy.ndarray" |
| Common.ParametersToNdarrays | baselines/pFedHN/pFedHN/server.py:236-239 | raises AttributeError exactly when the parameters are None; otherwise gives back the arrays |
| Common.ParametersRoundTrip | baselines/pFedHN/pFedHN/server.py:205-206 | serialising arrays and reading them back gives the same arrays |
| Common.Values | baselines/pFedHN/pFedHN/server.py:205 | the values of an ordered dict, one per entry, in order |
| Common.Zip | baselines/pFedHN/pFedHN/server.py:236-239 | `zip` pairs by position and is as long as the shorter input |
| Common.Min | baselines/pFedHN/pFedHN/strategy.py:88 | `min` is a lower bound of both arguments and equals one of them |
| Common.Keys | baselines/pFedHN/pFedHN/server.py:250 | the keys of an ordered dict, one per entry, in order |
| Models.ArchOf | baselines/pFedHN/pFedHN/models.py:55-71 | in_channels 3 selects RGB and 1 selects Grayscale, each if and only if; anything else selects no architecture |
| Models.LayerParams | baselines/pFedHN/pFedHN/models.py:230-250 | a Conv2d or Linear layer owns exactly two parameters, ReLU and pooling none; weight then bias, except that a spectrally normalised Linear lists bias before `weight_orig` |
| Models.Build | baselines/pFedHN/pFedHN/models.py:31-91 | the constructed hypernetwork is Valid: its trunk is a Linear followed by n_hidden (ReLU, Linear) pairs, 1 + 2·n_hidden modules in all, beginning and ending with a Linear; its heads are the architecture's heads |
| Models.View | baselines/pFedHN/pFedHN/models.py:136-151 | a view succeeds exactly when its dimensions multiply to the element count (for `view(-1)`, when there is at least one element), and the result has that many elements |
| Models.ClientWeights | baselines/pFedHN/pFedHN/server.py:182-199 | generating a client's weights fails exactly when `forward` does; otherwise it holds forward's keys in order, each tensor with exactly as many elements as the shape its head output is viewed into, element by element the generated values |
| Models.NatToString | baselines/pFedHN/pFedHN/models.py:53 | the position names of Sequential's children are non-empty strings of decimal digits |
| Models.ParamNames | baselines/pFedHN/pFedHN/server.py:78 | `named_parameters()` starts with the embedding table |
| ModelsProofs.TargetShapesRGB | baselines/pFedHN/pFedHN/models.py:235-241 | CNNTarget(3, k, o) has exactly these ten parameters and shapes, in order: conv (out, in, 5, 5), linear (out, in), bias (out) |
| ModelsProofs.TargetShapesGrayscale | baselines/pFedHN/pFedHN/models.py:243-250 | CNNTarget(1, k, o) has these twelve, with conv3 (4k, 2k, 3, 3) after conv2 |
| ModelsProofs.GenerateAllOk | baselines/pFedHN/pFedHN/models.py:133-153 | when every row views successfully, the OrderedDict holds exactly those entries in row order |
| ModelsProofs.GenerateFailsAtRow | baselines/pFedHN/pFedHN/models.py:133-153 | one failing view makes `forward` raise |
| ModelsProofs.RGBForwardMatchesTarget | baselines/pFedHN/pFedHN/models.py:133-153 | for k, o ≥ 1 the RGB forward generates exactly CNNTarget(3, k, o)'s parameter names and shapes, in order |
| ModelsProofs.GrayscaleForwardMatchesTarget | baselines/pFedHN/pFedHN/models.py:155-180 | the same for Grayscale and CNNTarget(1, k, o) |
| ModelsProofs.GrayscaleRowView | baselines/pFedHN/pFedHN/models.py:155-180 | each Grayscale row views its head output into the shape of the target parameter of the same position |
| ModelsProofs.ForwardFailsWhenEmpty | baselines/pFedHN/pFedHN/models.py:139-151 | with no kernels or no outputs some `view(-1)` has no elements and `forward` raises |
| ModelsProofs.ForwardMatchesTarget | baselines/pFedHN/pFedHN/models.py:119-182 | `forward(idx)` succeeds iff idx is in the embedding table, in_channels is 3 or 1 and k, o ≥ 1; it then yields CNNTarget's names and shapes, the same for every idx |
| ModelsProofs.GeneratedKeys | baselines/pFedHN/pFedHN/models.py:133-180 | the generated keys are the ten RGB keys in order, or the twelve Grayscale keys with conv3.weight and conv3.bias right after conv2.bias |
| ModelsProofs.ParamNamesAfterEmbeddingWithoutD | baselines/pFedHN/pFedHN/models.py:36-91 | no trunk or head parameter name contains the letter d |
| ModelsProofs.ClientWeightsMatchTarget | baselines/pFedHN/pFedHN/server.py:199-203 | a client's generated weights have the keys of CNNTarget's parameters, in order, and each tensor has the element count of the target parameter of that name |
| ModelsProofs.GeneratedKeysDistinct | baselines/pFedHN/pFedHN/server.py:201-203 | no key is generated twice, so building `inner_state` loses nothing |
| ModelsProofs.HeadWidthsMatchViews | baselines/pFedHN/pFedHN/models.py:56-91 | every head `forward` applies exists, is a Linear from the hidden width, and its width equals the product of the shape it is viewed into |
| ModelsProofs.RGBHeadWidths | baselines/pFedHN/pFedHN/models.py:56-69 | the same for the RGB heads |
| ModelsProofs.GrayscaleHeadWidths | baselines/pFedHN/pFedHN/models.py:72-91 | the same for the Grayscale heads, including c3 with width 2·2·k·2·k·3·3 = (4k)·(2k)·3·3 |
| ModelsProofs.KernelSizes | baselines/pFedHN/pFedHN/models.py:236-248 | every convolution has kernel 5 (RGB) or 3 (Grayscale), in the target and in the generated views |
| Gather.AsFailure | baselines/pFedHN/pFedHN/server.py:375-390 | an exception becomes an exception entry; a returned non-OK result becomes the (client, result) pair |
| Gather.Successes | baselines/pFedHN/pFedHN/server.py:350-357 | the results list is no longer than the finished set and holds only OK results |
| Gather.FailuresOf | baselines/pFedHN/pFedHN/server.py:350-357 | the failures list is no longer than the finished set and its result entries are all non-OK |
| Gather.RoundResults.constructor | baselines/pFedHN/pFedHN/server.py:351-352 | both lists start empty |
| Gather.RoundResults.HandleFinishedFuture | baselines/pFedHN/pFedHN/server.py:368-390 | exactly one list grows by exactly one entry: an exception and a non-OK result go to failures, an OK result to results |
| Gather.GatherResults | baselines/pFedHN/pFedHN/server.py:350-357 | the loop produces exactly Successes and FailuresOf of the finished futures, together as many as there are futures |
| Gather.Call | baselines/pFedHN/pFedHN/server.py:360-365 | a returned call is paired with its own client |
| Gather.Dispatch | baselines/pFedHN/pFedHN/server.py:340-348 | waiting with no timeout finishes one future per instruction |
| Gather.FitClients | baselines/pFedHN/pFedHN/server.py:334-357 | results and failures are the partition of the dispatched calls, and together as many as the instructions |
| Gather.EvaluateClients | baselines/pFedHN/pFedHN/server.py:393-416 | the same for evaluation |
| Gather.GatherLosesNothing | baselines/pFedHN/pFedHN/server.py:340-357 | \|results\| + \|failures\| equals the number of finished futures |
| Gather.ResultCount | baselines/pFedHN/pFedHN/server.py:385-387 | an OK (client, result) appears in results as often as it was returned, a non-OK one never |
| Gather.ExceptionCount | baselines/pFedHN/pFedHN/server.py:375-378 | each raised exception appears in failures as often as it was raised |
| Gather.NotOkCount | baselines/pFedHN/pFedHN/server.py:389-390 | a non-OK (client, result) appears in failures as often as it was returned, an OK one never |
| Gather.GatherOrderIrrelevant | baselines/pFedHN/pFedHN/server.py:353-356 | iterating the finished set in another order changes only the order of the two lists, not their contents |
| Gather.SingleFutureOrderFixed | baselines/pFedHN/pFedHN/server.py:353-356 | with at most one finished future every iteration order gives the same two lists, order included |
| Strategy.PFedHN.constructor | baselines/pFedHN/pFedHN/strategy.py:31-68 | stores every setting and builds a Valid hypernetwork with hidden_dim 100, one hidden layer, no spectral norm; `self.weights` does not exist yet |
| Strategy.PFedHN.InitializeParameters | baselines/pFedHN/pFedHN/strategy.py:74-84 | returns the stored initial parameters and clears them |
| Strategy.PFedHN.NumFitClients | baselines/pFedHN/pFedHN/strategy.py:86-88 | sample size min(1, n): at most 1, at most n, exactly 1 when n ≥ 1; paired with min_available_clients |
| Strategy.PFedHN.NumEvaluateClients | baselines/pFedHN/pFedHN/strategy.py:90-92 | sample size min(0, n): at most 0, exactly 0 for every n ≥ 0, whatever fraction_evaluate is |
| Strategy.PFedHN.FitInstruction | baselines/pFedHN/pFedHN/strategy.py:119-124 | the instruction carries the client, the generated arrays in order, and an empty config |
| Strategy.PFedHN.ConfigureFit | baselines/pFedHN/pFedHN/strategy.py:94-126 | succeeds iff every sampled client's weights can be generated; then one instruction per sampled client in sampling order, and `self.weights` holds the last client's weights (unchanged when none was sampled); on failure the error is that of the first client whose weights cannot be generated, and `self.weights` holds the weights of the client before it (unchanged if it was the first) |
| Strategy.PFedHN.AggregateFit | baselines/pFedHN/pFedHN/strategy.py:128-169 | IndexError on no results, AttributeError when configure_fit never ran; otherwise the hypernetwork steps with the first result's arrays paired positionally with its own parameter names, failures are ignored, and the answer is (None, {}) |
| Strategy.PFedHN.ConfigureEvaluate | baselines/pFedHN/pFedHN/strategy.py:171-187 | one instruction per sampled client in order, with the given parameters and config {"server_round": round} |
| Strategy.PFedHN.AggregateEvaluate | baselines/pFedHN/pFedHN/strategy.py:189-198 | (None, {}) for every input |
| Strategy.PFedHN.Evaluate | baselines/pFedHN/pFedHN/strategy.py:200-212 | None without an evaluation function; otherwise exactly what the function returns |
| Strategy.InitializeTwice | baselines/pFedHN/pFedHN/strategy.py:82-84 | a second call of initialize_parameters returns None |
| Server.BindKeywords | baselines/pFedHN/pFedHN/server.py:56-71 | a call binds iff every keyword is declared; otherwise TypeError |
| Server.LocalKeywordRejected | baselines/pFedHN/pFedHN/server.py:70 | the keywords as written are rejected with TypeError for 'local' |
| Server.CorrectedKeywordsAccepted | baselines/pFedHN/pFedHN/server.py:56-69 | without `local` every keyword is one CNNHyper declares |
| Server.Truncate | baselines/pFedHN/pFedHN/server.py:62-64 | `int()` of a float truncates toward zero |
| Server.EmbeddingDim | baselines/pFedHN/pFedHN/server.py:62-64 | ZeroDivisionError iff the denominator is 0; for counts and a positive denominator, 1 + n div d |
| Server.QuotientFloor | baselines/pFedHN/pFedHN/server.py:62-64 | int(1 + n/d) equals 1 + n div d for n ≥ 0, d > 0 |
| Server.CreateHnetWith | baselines/pFedHN/pFedHN/server.py:56-71 | a zero denominator raises first, then an undeclared keyword; succeeds iff neither happens and the table sizes are non-negative, and then builds a Valid hypernetwork of the configured sizes with hidden_dim 100 and n_hidden hidden layers (none for a negative n_hidden, as `range` gives) |
| Server.CreateHnetAsWritten | baselines/pFedHN/pFedHN/server.py:56-71 | the construction as written never succeeds; with a non-zero denominator it raises TypeError for 'local' |
| Server.CreateHnet | baselines/pFedHN/pFedHN/server.py:56-71 | the corrected construction succeeds iff the denominator is non-zero and the sizes are non-negative, with the configured hypernetwork (negative n_hidden: no hidden layer) |
| Server.SplitParamGroups | baselines/pFedHN/pFedHN/server.py:74-87 | the two groups partition the names (as multisets): names containing "embed" in the second, all others in the first |
| Server.EmbeddingAloneInSecondGroup | baselines/pFedHN/pFedHN/server.py:74-87 | for the server's hypernetwork the second group is exactly ["embeddings.weight"] and the first is every other parameter, in order |
| Server.OptimizerGroups | baselines/pFedHN/pFedHN/server.py:74-91 | two groups, both with the configured learning rate, partitioning the parameters |
| Server.ToMap | baselines/pFedHN/pFedHN/server.py:241-248 | a dict built from pairs has exactly the pairs' keys |
| Server.ToMapDistinct | baselines/pFedHN/pFedHN/server.py:201-203 | with distinct keys, each key maps to its own value |
| Server.Subtract | baselines/pFedHN/pFedHN/server.py:250 | tensor subtraction succeeds iff the sizes match, and is element-wise |
| Server.DeltaRowsSpec | baselines/pFedHN/pFedHN/server.py:249-251 | the comprehension succeeds iff every key is in final_state with a tensor of the same size; it then keeps the key order and holds inner − final per key |
| Server.ZipMapSpec | baselines/pFedHN/pFedHN/server.py:236-248 | final_state holds key i iff there is an i-th returned array, and then that array |
| Server.DeltaThetaSpec | baselines/pFedHN/pFedHN/server.py:236-251 | delta_theta exists iff there are at least as many returned arrays as keys with matching sizes; it then has the generated keys in order and delta[i] = inner[i] − returned[i] element-wise |
| Server.DeltaOfDistinct | baselines/pFedHN/pFedHN/server.py:249-251 | the same, read off a delta_theta that was built |
| Server.TargetKeysAndDelta | baselines/pFedHN/pFedHN/server.py:199-251 | a delta_theta built from a client's generated weights has CNNTarget's parameter names, each generated tensor has the target parameter's element count, and the delta is the element-wise difference |
| Server.WithFirstParameters | baselines/pFedHN/pFedHN/server.py:196-207 | only the first instruction's parameters are replaced (by the generated arrays); its client and config and every other instruction are unchanged |
| Server.FitRoundSpec | baselines/pFedHN/pFedHN/server.py:177-269 | step by step: an empty selection raises IndexError; otherwise the first client's weights are generated (their error is raised); only the first instruction carries them; the results and failures are Successes and FailuresOf of the dispatched calls; aggregate_fit's error is raised; no aggregated parameters raise AttributeError; delta_theta of the generated weights and the aggregated arrays raises or gives delta; and then the round returns exactly those weights, arrays, delta, results, failures and aggregated metrics, and the hypernetwork stepped on (generated values, delta), serialised as the new parameters |
| Server.FitRoundDelta | baselines/pFedHN/pFedHN/server.py:196-251 | in a completed round delta_theta has exactly CNNTarget's parameter names in generation order, every generated tensor, returned array and delta entry has the target parameter's element count, and delta[k] = inner[k] − returned[k] element-wise, where returned are the arrays aggregate_fit gave (FitRoundSpec) |
| Server.AttachWeights | baselines/pFedHN/pFedHN/server.py:119-124 | an evaluation instruction gets its client's generated arrays, or the generation's error; client and config unchanged |
| Server.AttachAll | baselines/pFedHN/pFedHN/server.py:119-124 | the loop succeeds iff every instruction does, and then replaces each instruction's parameters in place, in order |
| Server.AttachAllPrefixFails | baselines/pFedHN/pFedHN/server.py:119-124 | the first failing instruction ends the loop with its error |
| Server.AttachAllStep | baselines/pFedHN/pFedHN/server.py:119-124 | one more client of the loop either extends the attached prefix by that client's instruction or raises |
| Server.EvaluateRoundSpec | baselines/pFedHN/pFedHN/server.py:100-175 | step by step: the first client whose weights cannot be generated raises its error; an empty selection returns None with no record; otherwise the results and failures are Successes and FailuresOf of the calls dispatched with the attached instructions, aggregate_evaluate's error is raised, a missing "avg_acc" raises KeyError, and the one appended record holds the round, the aggregated loss and metrics["avg_acc"], earlier records kept |
| Server.RecordCentralized | baselines/pFedHN/pFedHN/server.py:294-312 | centralised loss and metrics are recorded exactly when evaluate returns a result |
| Server.RecordDistributed | baselines/pFedHN/pFedHN/server.py:318-326 | distributed loss and {"avg_acc": acc} are recorded exactly when evaluate_round returned a loss; nothing else in the history changes |
| Server.RoundSpec | baselines/pFedHN/pFedHN/server.py:279-326 | a failing fit_round leaves the state unchanged and ends the run; otherwise `self.parameters` always takes fit_round's parameters (a Parameters object is truthy) and the hypernetwork its new values; the fit metrics are recorded under the round, then the centralised evaluation of the new parameters; evaluate_round runs on that post-fit state, and its error ends the run with the post-fit state, while its success sets the log to its log and records its loss and accuracy |
| Server.RoundAppendsOneRecord | baselines/pFedHN/pFedHN/server.py:157-163 | a round leaves the log as it was or appends exactly one record, for that round |
| Server.FitSpecStep | baselines/pFedHN/pFedHN/server.py:279-326 | the run from round r is round r, then, unless it raised, the run from r + 1 |
| Server.RoundRecordsFit | baselines/pFedHN/pFedHN/server.py:289-291 | a completed round records its fit metrics under its own number |
| Server.FitSpecUnroll | baselines/pFedHN/pFedHN/server.py:279-291 | a run of at least one round that completes is its first round followed by the rest of the run, started from the state and history that round left, whose fit log gained exactly that round |
| Server.FitVisitsRoundsInOrder | baselines/pFedHN/pFedHN/server.py:279-291 | a completed run records fit metrics for exactly the rounds 1..num_rounds, in increasing order |
| Server.FitAppendsToLog | baselines/pFedHN/pFedHN/server.py:157-163 | over a run the log only grows: earlier records are unchanged, new records have strictly increasing rounds within the run's range |
| Server.LogExtends | baselines/pFedHN/pFedHN/server.py:157-163 | a round's log followed by later rounds' records is a log of the rounds from this one on |
| Server.FitParametersFollowHypernetwork | baselines/pFedHN/pFedHN/server.py:285-288 | after a completed run of at least one round the parameters are the hypernetwork's final values; with no rounds the state is unchanged |
| Server.FitStopsWithoutParameters | baselines/pFedHN/pFedHN/server.py:233-239 | with a strategy whose aggregate_fit yields no parameters (as pFedHN's does), fit raises in round 1 and changes nothing |
| Server.PFedHNServer.constructor | baselines/pFedHN/pFedHN/server.py:74-98 | optimizer groups over the hypernetwork's parameters, empty global parameters, empty log |
| Server.PFedHNServer.FitRound | baselines/pFedHN/pFedHN/server.py:177-269 | the method's result and the hypernetwork's new values are those of FitRoundSpec; parameters and log unchanged; on error the hypernetwork is unchanged |
| Server.PFedHNServer.AttachWeightsLoop | baselines/pFedHN/pFedHN/server.py:119-124 | the in-place loop over the evaluation instructions gives exactly AttachAll of them |
| Server.PFedHNServer.EvaluateRound | baselines/pFedHN/pFedHN/server.py:100-175 | result and log are those of EvaluateRoundSpec; the hypernetwork and parameters are unchanged |
| Server.PFedHNServer.Fit | baselines/pFedHN/pFedHN/server.py:271-331 | the loop's final state and history are those of FitSpec from round 1 |
| Server.NewServer | baselines/pFedHN/pFedHN/server.py:51-98 | with the corrected call, a server exists iff the hypernetwork can be built and the learning rate, momentum and weight decay are non-negative (torch's SGD raises ValueError for each, checked in that order); its second optimizer group is exactly the embedding table, its parameters and log are empty |

## Left out

- Autograd, the vector-Jacobian product, gradient clipping, and the SGD and Adam steps (server.py:253-264, strategy.py:128-154) are float numerics. They are the `Stepper` parameter. The model says which tensors go in, in which order, and that the result becomes the new state.
- The hypernetwork's forward arithmetic (embedding lookup, trunk, heads) is the `Generator` parameter. Only which keys exist and the shape of each are modelled.
- `CNNTarget.forward`, `spectral_norm`'s numerics and buffers (`weight_u`, `weight_v`), and the Conv/Linear arithmetic are not modelled. `spectral_norm` is modelled only through the name and position it gives a weight.
- The thread pool and the join (server.py:340-348, 399-407) are not modelled. The finished futures are a sequence.
- Server.FitRoundSpec, Server.EvaluateRoundSpec, Gather.FitClients, Gather.EvaluateClients: the finished futures are taken in submission order, which is only one of the orders Python's set iteration can give (server.py:353). `GatherOrderIrrelevant` shows that another order only permutes the results and failures. `aggregate_fit` reads `results[0]` (strategy.py:128-169), so with several results another order may step the strategy's hypernetwork on another client's arrays. `SingleFutureOrderFixed` shows that no order matters with one future, which is pFedHN's fit selection (`num_fit_clients` asks for one client).
- The JSON write of the log (server.py:165-166), logging, timing and device placement are I/O and environment plumbing.
- Flower's `client_manager.sample` is the `Sampler` parameter.
- Server.History: modelled as five lists of (round, value) entries in call order. Flower's History keeps the three metrics fields as dicts keyed by metric name, each holding (round, value) lists, and records nothing for an empty metrics dict. `FitVisitsRoundsInOrder` and `RoundRecordsFit` are about that call log, not about Flower's per-key dicts.
- main.py is not part of this model: it only loads configuration and starts a simulation.
- The strategy's `__repr__` returns a constant name and is not modelled.
- The server sees its strategy as functions of the round and the arguments (`Env`). State the strategy keeps between calls (its `self.weights` and its hypernetwork) is modelled in `Strategy.PFedHN` but not threaded through `Env`.
- Server.Env: `configureFit`, `configureEvaluate` and `evaluate` return a value and cannot raise. The pFedHN strategy's `configure_fit` does raise when a sampled client's weights cannot be generated (`Strategy.PFedHN.ConfigureFit`), and the model's rounds do not carry that error.
- Models.Stepper: the server's SGD keeps momentum buffers from one step to the next (server.py:74-91, step at :264). The `Stepper` computes the new values from the current values, the generated tensors and the gradient outputs only, so optimiser state carried across rounds is not modelled.
- Server.BindKeywords: only undeclared keywords are checked. A missing required argument is not modelled, because every call the server makes supplies all of CNNHyper's required arguments.
- Server.FitRoundSpec: the `return None` branch of fit_round (server.py:209-211) is unreachable because the list was already indexed, so fit's `res_fit is None` branch is not modelled either.
- Server.EmbeddingDim: float rounding of `num_clients / denominator` is not modelled. The result is exact for counts and a positive denominator, and merely an integer otherwise.
- Server.Subtract: tensor broadcasting is not modelled. Tensors of different sizes raise.
- Server.CreateHnetWith: the hypernetwork's other construction errors (negative sizes in the heads) are not modelled. Only negative embedding sizes raise.
- Strategy.PFedHN.AggregateFit: `torch.Tensor(v)` conversion and `allow_unused` are part of the `Stepper`. A returned array list that is longer or shorter than the hypernetwork's parameters is truncated by `zip` as modelled, and its consequences are left to the `Stepper`.
- Server.PFedHNServer.EvaluateRound: mutation of instruction objects the strategy may share between clients (aliasing) is not modelled. Each instruction is an independent value.
- Client ids are integers. The `int(cid)` parse of a non-numeric id is not modelled.
- The server's `self.loss` and `self.accuracies` lists are never used by the source and are not modelled.

## Findings

| source | as written | input that shows it | evidently intended | confidence | as-written member | corrected member |
|---|---|---|---|---|---|---|
| baselines/pFedHN/pFedHN/server.py:70 | `pFedHNServer.__init__` passes `local=self.cfg.model.local` to `CNNHyper`, whose `__init__` (models.py:20-30) declares no `local` parameter and no `**kwargs`, so every construction raises TypeError | any configuration with a non-zero `embedding_dim_denominator` | build the hypernetwork from the seven declared keywords | not executed | Server.CreateHnetAsWritten (with Server.LocalKeywordRejected) | Server.CreateHnet (with Server.CorrectedKeywordsAccepted) |
