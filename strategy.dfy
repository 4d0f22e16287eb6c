/** The pFedHN strategy of baselines/pFedHN/pFedHN/strategy.py: it owns a
    hypernetwork of its own, samples one client per training round and none
    for evaluation, hands each sampled client the weights the hypernetwork
    generates for it, and aggregates nothing: its `aggregate_fit` updates the
    hypernetwork from the first result and returns no parameters. */
module Strategy {
  import opened Common
  import opened Models

  /** `client_manager.sample(num_clients, min_num_clients)`: which clients the
      client manager returns is not modelled. */
  type Sampler = (int, int) -> seq<ClientProxy>

  /** The optional centralised evaluation function: round, arrays and config
      to an optional (loss, metrics). */
  type EvaluateFn = (int, seq<Tensor>, Config) -> Option<(real, Metrics)>

  class PFedHN {
    const fractionFit: real
    const fractionEvaluate: real
    const minFitClients: int
    const minEvaluateClients: int
    const minAvailableClients: int
    const acceptFailures: bool
    var initialParameters: Option<Parameters>
    const evaluateFn: Option<EvaluateFn>
    /** The strategy's hypernetwork (hidden_dim 100, one hidden layer, no spectral norm). */
    const hnet: CNNHyper
    /** The hypernetwork's parameter values. */
    var hnetState: seq<Tensor>
    /** `self.weights`: the attribute configure_fit creates; absent before its first call. */
    var weights: Option<WeightSet>

    /** `pFedHN.__init__`: store the settings and build the hypernetwork
        from the client section of the configuration. */
    constructor (numNodes: nat, embeddingDim: nat, inChannels: int, nKernels: nat, outDim: nat,
                 fractionFit: real, fractionEvaluate: real, minFitClients: int, minEvaluateClients: int,
                 minAvailableClients: int, acceptFailures: bool, initialParameters: Option<Parameters>,
                 evaluateFn: Option<EvaluateFn>, hnetState: seq<Tensor>)
      ensures hnet.Valid()
      ensures hnet.nNodes == numNodes && hnet.embeddingDim == embeddingDim && hnet.inChannels == inChannels
      ensures hnet.nKernels == nKernels && hnet.outDim == outDim
      ensures hnet.hiddenDim == 100 && hnet.nHidden == 1 && !hnet.spec
      ensures this.fractionFit == fractionFit && this.fractionEvaluate == fractionEvaluate
      ensures this.minFitClients == minFitClients && this.minEvaluateClients == minEvaluateClients
      ensures this.minAvailableClients == minAvailableClients && this.acceptFailures == acceptFailures
      ensures this.initialParameters == initialParameters && this.evaluateFn == evaluateFn
      ensures this.hnetState == hnetState && weights == None
    {
      var h := Build(numNodes, embeddingDim, inChannels, nKernels, outDim, 100, false, 1);
      this.fractionFit := fractionFit;
      this.fractionEvaluate := fractionEvaluate;
      this.minFitClients := minFitClients;
      this.minEvaluateClients := minEvaluateClients;
      this.minAvailableClients := minAvailableClients;
      this.acceptFailures := acceptFailures;
      this.initialParameters := initialParameters;
      this.evaluateFn := evaluateFn;
      this.hnet := h;
      this.hnetState := hnetState;
      this.weights := None;
    }

    /** `initialize_parameters`: hand out the stored initial parameters once
        and forget them. */
    method InitializeParameters() returns (p: Option<Parameters>)
      modifies this
      ensures p == old(initialParameters) && initialParameters == None
      ensures hnetState == old(hnetState) && weights == old(weights)
    {
      p := initialParameters;
      initialParameters := None;
    }

    /** `num_fit_clients`: sample min(1, n) clients, at most one and never
        more than are available, and wait for `min_available_clients`. */
    function NumFitClients(numAvailable: int): (r: (int, int))
      ensures r.0 <= 1 && r.0 <= numAvailable
      ensures numAvailable >= 1 ==> r.0 == 1
      ensures numAvailable < 1 ==> r.0 == numAvailable
      ensures r.1 == minAvailableClients
    {
      (Min(1, numAvailable), minAvailableClients)
    }

    /** `num_evaluate_clients`: min(0, n), which is 0 whenever n is a count
        of clients; `fraction_evaluate` is not consulted. */
    function NumEvaluateClients(numAvailable: int): (r: (int, int))
      ensures r.0 <= 0 && r.0 <= numAvailable
      ensures numAvailable >= 0 ==> r.0 == 0
      ensures r.1 == minAvailableClients
    {
      (Min(0, numAvailable), minAvailableClients)
    }

    /** The fit instruction for one client: the arrays the hypernetwork
        generates for it, with an empty config. */
    function FitInstruction(client: ClientProxy, w: WeightSet): (ins: (ClientProxy, FitIns))
      ensures ins.0 == client && ins.1.config == map[]
      ensures ins.1.parameters.tensors == Values(w)
    {
      (client, FitIns(NdarraysToParameters(Values(w)), map[]))
    }

    /** configure_fit stopped at the `k`-th sampled client, the first whose
        weights cannot be generated: it raised that client's error, and
        `self.weights` holds the previous client's weights (`before` when
        there is none). */
    predicate FailedAt(clients: seq<ClientProxy>, k: nat, generate: Generator, error: PyError,
                       weights: Option<WeightSet>, before: Option<WeightSet>)
      reads this
      requires k < |clients|
    {
      && ClientWeights(hnet, hnetState, generate, clients[k].cid).Err?
      && (forall j :: 0 <= j < k ==> ClientWeights(hnet, hnetState, generate, clients[j].cid).Ok?)
      && error == ClientWeights(hnet, hnetState, generate, clients[k].cid).error
      && (k == 0 ==> weights == before)
      && (k > 0 ==> weights == Some(ClientWeights(hnet, hnetState, generate, clients[k - 1].cid).value))
    }

    /** `configure_fit`: sample clients, then for each in sampling order
        generate its weights (raising as `forward` does), store them in
        `self.weights` and emit one instruction. `self.weights` ends holding
        the last client's weights, or, when a client's weights cannot be
        generated, those of the client before it. */
    method ConfigureFit(round: int, parameters: Parameters, numAvailable: int, sample: Sampler, generate: Generator)
      returns (r: Result<seq<(ClientProxy, FitIns)>>)
      modifies this
      ensures hnetState == old(hnetState) && initialParameters == old(initialParameters)
      ensures var clients := sample(NumFitClients(numAvailable).0, NumFitClients(numAvailable).1);
        && (r.Ok? <==> forall i :: 0 <= i < |clients| ==> ClientWeights(hnet, hnetState, generate, clients[i].cid).Ok?)
        && (r.Ok? ==>
              && |r.value| == |clients|
              && (forall i :: 0 <= i < |clients| ==>
                    r.value[i] == FitInstruction(clients[i], ClientWeights(hnet, hnetState, generate, clients[i].cid).value))
              && (|clients| == 0 ==> weights == old(weights))
              && (|clients| > 0 ==>
                    weights == Some(ClientWeights(hnet, hnetState, generate, clients[|clients| - 1].cid).value)))
        && (r.Err? ==> exists k :: 0 <= k < |clients| && FailedAt(clients, k, generate, r.error, weights, old(weights)))
    {
      var size := NumFitClients(numAvailable);
      var clients := sample(size.0, size.1);
      var configurations := [];
      var i := 0;
      while i < |clients|
        invariant 0 <= i <= |clients|
        invariant hnetState == old(hnetState) && initialParameters == old(initialParameters)
        invariant forall j :: 0 <= j < i ==> ClientWeights(hnet, hnetState, generate, clients[j].cid).Ok?
        invariant |configurations| == i
        invariant forall j :: 0 <= j < i ==>
                    configurations[j] == FitInstruction(clients[j], ClientWeights(hnet, hnetState, generate, clients[j].cid).value)
        invariant i == 0 ==> weights == old(weights)
        invariant i > 0 ==> weights == Some(ClientWeights(hnet, hnetState, generate, clients[i - 1].cid).value)
      {
        var w := ClientWeights(hnet, hnetState, generate, clients[i].cid);
        if w.Err? {
          assert FailedAt(clients, i, generate, w.error, weights, old(weights));
          return Err(w.error);
        }
        weights := Some(w.value);
        configurations := configurations + [FitInstruction(clients[i], w.value)];
        i := i + 1;
      }
      r := Ok(configurations);
    }

    /** `aggregate_fit` with `gradient_upgradation`: read the first result
        (raising on none), pair the hypernetwork's parameter names with the
        returned arrays, read `self.weights` (raising if configure_fit never
        ran), update the hypernetwork and return no parameters. Failures are
        not consulted. */
    method AggregateFit(round: int, results: seq<(ClientProxy, ClientRes)>, failures: seq<Failure>, step: Stepper)
      returns (r: Result<(Option<Parameters>, Metrics)>)
      requires forall i :: 0 <= i < |results| ==> results[i].1.FitRes?
      modifies this
      ensures weights == old(weights) && initialParameters == old(initialParameters)
      ensures r.Ok? <==> |results| > 0 && weights.Some?
      ensures |results| == 0 ==> r.Err? && r.error.IndexError? && hnetState == old(hnetState)
      ensures |results| > 0 && weights.None? ==> r == Err(AttributeError("weights")) && hnetState == old(hnetState)
      ensures r.Ok? ==> r.value == (None, map[])
      ensures r.Ok? ==>
        hnetState == step(old(hnetState), Values(weights.value),
                          Values(Zip(ParamNames(hnet), results[0].1.parameters.tensors)))
    {
      if |results| == 0 {
        return Err(IndexError("list index out of range"));
      }
      var delta := results[0].1.parameters;
      var gradOutputs := Values(Zip(ParamNames(hnet), delta.tensors));
      if weights.None? {
        return Err(AttributeError("weights"));
      }
      hnetState := step(hnetState, Values(weights.value), gradOutputs);
      r := Ok((None, map[]));
    }

    /** `configure_evaluate`: one instruction per sampled client, in sampling
        order, carrying the given parameters and the round number. */
    method ConfigureEvaluate(round: int, parameters: Option<Parameters>, numAvailable: int, sample: Sampler)
      returns (r: seq<(ClientProxy, EvaluateIns)>)
      ensures var clients := sample(NumEvaluateClients(numAvailable).0, NumEvaluateClients(numAvailable).1);
        && |r| == |clients|
        && forall i :: 0 <= i < |clients| ==>
             r[i].0 == clients[i] && r[i].1.parameters == parameters && r[i].1.config == map["server_round" := round]
    {
      var size := NumEvaluateClients(numAvailable);
      var clients := sample(size.0, size.1);
      r := [];
      var i := 0;
      while i < |clients|
        invariant 0 <= i <= |clients| && |r| == i
        invariant forall j :: 0 <= j < i ==>
                    r[j].0 == clients[j] && r[j].1.parameters == parameters && r[j].1.config == map["server_round" := round]
      {
        r := r + [(clients[i], EvaluateIns(parameters, map["server_round" := round]))];
        i := i + 1;
      }
    }

    /** `aggregate_evaluate`: no loss and no metrics, whatever the results. */
    function AggregateEvaluate(round: int, results: seq<(ClientProxy, ClientRes)>, failures: seq<Failure>)
      : (r: (Option<real>, Metrics))
      ensures r.0 == None && r.1 == map[]
    {
      if |results| == 0 then (None, map[]) else (None, map[])
    }

    /** `evaluate`: no result without an evaluation function or when it gives
        none; otherwise its (loss, metrics), unchanged. */
    function Evaluate(round: int, parameters: Parameters): (r: Option<(real, Metrics)>)
      ensures evaluateFn.None? ==> r.None?
      ensures evaluateFn.Some? ==> r == evaluateFn.value(round, parameters.tensors, map[])
    {
      match evaluateFn
      case None => None
      case Some(f) =>
        match f(round, parameters.tensors, map[])
        case None => None
        case Some(res) => Some((res.0, res.1))
    }
  }

  /** Calling `initialize_parameters` twice: the second call finds nothing. */
  method InitializeTwice(s: PFedHN) returns (first: Option<Parameters>, second: Option<Parameters>)
    modifies s
    ensures first == old(s.initialParameters) && second == None
  {
    first := s.InitializeParameters();
    second := s.InitializeParameters();
  }
}
