/** The custom server of baselines/pFedHN/pFedHN/server.py. It keeps a
    hypernetwork of its own: each training round it generates the weights
    of one sampled client, lets the clients train, turns the returned weights
    into a difference `delta_theta` and updates the hypernetwork with it;
    each evaluation round it sends every sampled client its generated weights
    and appends one record to an evaluation log. */
module Server {
  import opened Common
  import opened Models
  import opened Gather
  import opened ModelsProofs

  // ---------------------------------------------------------------------
  // __init__: building the hypernetwork (server.py:51-71)

  /** The keyword parameters CNNHyper.__init__ declares (models.py:20-30). */
  const HyperKeywords: seq<string> :=
    ["n_nodes", "embedding_dim", "in_channels", "n_kernels", "out_dim", "hidden_dim", "spec_norm", "n_hidden"]

  /** The keywords server.py passes to CNNHyper, as written: including `local`. */
  const ServerKeywordsAsWritten: seq<string> :=
    ["n_nodes", "embedding_dim", "in_channels", "n_kernels", "out_dim", "hidden_dim", "n_hidden", "local"]

  /** The keywords the call evidently intends: all of the above but `local`. */
  const ServerKeywords: seq<string> :=
    ["n_nodes", "embedding_dim", "in_channels", "n_kernels", "out_dim", "hidden_dim", "n_hidden"]

  /** Binding keyword arguments to a function without `**kwargs`: the first
      keyword the function does not declare raises TypeError. */
  function BindKeywords(given: seq<string>, declared: seq<string>): (r: Result<()>)
    ensures r.Ok? <==> forall k :: k in given ==> k in declared
    ensures r.Err? ==> r.error.TypeError?
  {
    if given == [] then Ok(())
    else if given[0] !in declared then Err(TypeError("unexpected keyword argument '" + given[0] + "'"))
    else BindKeywords(given[1..], declared)
  }

  /** The call as written is always rejected, because of `local`. */
  lemma LocalKeywordRejected()
    ensures BindKeywords(ServerKeywordsAsWritten, HyperKeywords) == Err(TypeError("unexpected keyword argument 'local'"))
  {
    AsWrittenAddsLocal();
    CorrectedKeywordsDeclared();
    BindDeclaredPrefix(ServerKeywords, ["local"], HyperKeywords);
    LocalOnly();
  }

  lemma LocalOnly()
    ensures BindKeywords(["local"], HyperKeywords) == Err(TypeError("unexpected keyword argument 'local'"))
  {
    LocalNotDeclared();
    assert "unexpected keyword argument '" + "local" + "'" == "unexpected keyword argument 'local'";
  }

  lemma AsWrittenAddsLocal()
    ensures ServerKeywordsAsWritten == ServerKeywords + ["local"]
  {
  }

  lemma LocalNotDeclared()
    ensures "local" !in HyperKeywords
  {
  }

  /** Binding skips past keywords that are declared. */
  lemma {:induction false} BindDeclaredPrefix(declaredPart: seq<string>, rest: seq<string>, declared: seq<string>)
    requires forall k :: k in declaredPart ==> k in declared
    ensures BindKeywords(declaredPart + rest, declared) == BindKeywords(rest, declared)
  {
    if declaredPart != [] {
      assert (declaredPart + rest)[1..] == declaredPart[1..] + rest;
      assert (declaredPart + rest)[0] == declaredPart[0] && declaredPart[0] in declaredPart;
      assert forall k :: k in declaredPart[1..] ==> k in declaredPart;
      BindDeclaredPrefix(declaredPart[1..], rest, declared);
    } else {
      assert declaredPart + rest == rest;
    }
  }

  lemma CorrectedKeywordsDeclared()
    ensures forall k :: k in ServerKeywords ==> k in HyperKeywords
  {
    assert ServerKeywords == HyperKeywords[..6] + [HyperKeywords[7]];
  }

  /** Without `local` every keyword is declared. */
  lemma CorrectedKeywordsAccepted()
    ensures BindKeywords(ServerKeywords, HyperKeywords) == Ok(())
  {
    CorrectedKeywordsDeclared();
  }

  /** `int(x)` of a float: truncation toward zero. */
  function Truncate(x: real): (n: int)
    ensures x >= 0.0 ==> n as real <= x < n as real + 1.0
    ensures x < 0.0 ==> n as real - 1.0 < x <= n as real
  {
    if x >= 0.0 then x.Floor else -((-x).Floor)
  }

  /** `int(1 + num_clients / embedding_dim_denominator)` with true division:
      a zero denominator raises; for counts and a positive denominator it is
      one more than the integer quotient. Float rounding is not modelled. */
  function EmbeddingDim(numClients: int, denominator: int): (r: Result<int>)
    ensures r.Err? <==> denominator == 0
    ensures r.Err? ==> r.error == ZeroDivisionError
    ensures numClients >= 0 && denominator > 0 ==> r == Ok(1 + numClients / denominator)
  {
    if denominator == 0 then Err(ZeroDivisionError)
    else
      var x := 1.0 + numClients as real / denominator as real;
      if numClients >= 0 && denominator > 0 then
        QuotientFloor(numClients, denominator);
        Ok(Truncate(x))
      else Ok(Truncate(x))
  }

  /** For n >= 0 and d > 0, the real number 1 + n/d lies in [1 + n div d, 2 + n div d). */
  lemma QuotientFloor(n: int, d: int)
    requires n >= 0 && d > 0
    ensures Truncate(1.0 + n as real / d as real) == 1 + n / d
  {
    var q, m := n / d, n % d;
    assert n == q * d + m && 0 <= m < d;
    var x, f := n as real / d as real, m as real / d as real;
    assert x * d as real == n as real;
    assert f * d as real == m as real;
    assert (q * d) as real == q as real * d as real;
    assert (q as real + f) * d as real == q as real * d as real + f * d as real;
    assert x == q as real + f;
    assert 0.0 <= f < 1.0;
  }

  /** The server's configuration (the fields server.py reads). */
  datatype ServerConfig = ServerConfig(
    numClients: int,
    embeddingDimDenominator: int,
    inChannels: int,
    nKernels: nat,
    outDim: nat,
    nHidden: int,
    local: bool,
    lr: real,
    momentum: real,
    weightDecay: real)

  /** How many hidden layers `for _ in range(n_hidden)` appends: none for a
      negative count. */
  function HiddenLayers(nHidden: int): (n: nat)
    ensures nHidden >= 0 ==> n == nHidden
    ensures nHidden < 0 ==> n == 0
  {
    if nHidden < 0 then 0 else nHidden
  }

  /** Building the server's hypernetwork with the given keywords: the
      arguments are evaluated first (a zero denominator raises there), then
      an undeclared keyword raises TypeError, then the embedding refuses a
      negative table size or width; otherwise a hypernetwork with
      hidden_dim 100, the configured number of hidden layers and no spectral
      norm. */
  method CreateHnetWith(cfg: ServerConfig, keywords: seq<string>) returns (r: Result<CNNHyper>)
    ensures cfg.embeddingDimDenominator == 0 ==> r == Err(ZeroDivisionError)
    ensures cfg.embeddingDimDenominator != 0 && BindKeywords(keywords, HyperKeywords).Err? ==>
              r == Err(BindKeywords(keywords, HyperKeywords).error)
    ensures r.Ok? <==>
      && cfg.embeddingDimDenominator != 0 && BindKeywords(keywords, HyperKeywords).Ok? && cfg.numClients >= 0
      && EmbeddingDim(cfg.numClients, cfg.embeddingDimDenominator).value >= 0
    ensures r.Ok? ==>
      && r.value.Valid()
      && r.value.nNodes == cfg.numClients
      && r.value.embeddingDim == EmbeddingDim(cfg.numClients, cfg.embeddingDimDenominator).value
      && r.value.inChannels == cfg.inChannels && r.value.nKernels == cfg.nKernels && r.value.outDim == cfg.outDim
      && r.value.hiddenDim == 100 && r.value.nHidden == HiddenLayers(cfg.nHidden) && !r.value.spec
  {
    var embeddingDim :- EmbeddingDim(cfg.numClients, cfg.embeddingDimDenominator);
    var _ :- BindKeywords(keywords, HyperKeywords);
    if cfg.numClients < 0 || embeddingDim < 0 {
      return Err(RuntimeError("Trying to create tensor with negative dimension"));
    }
    var h := Build(cfg.numClients, embeddingDim, cfg.inChannels, cfg.nKernels, cfg.outDim, 100, false,
                   HiddenLayers(cfg.nHidden));
    r := Ok(h);
  }

  /** The construction as written in server.py never yields a hypernetwork:
      with a non-zero denominator it raises TypeError for `local`. */
  method CreateHnetAsWritten(cfg: ServerConfig) returns (r: Result<CNNHyper>)
    ensures r.Err?
    ensures cfg.embeddingDimDenominator != 0 ==> r == Err(TypeError("unexpected keyword argument 'local'"))
  {
    LocalKeywordRejected();
    r := CreateHnetWith(cfg, ServerKeywordsAsWritten);
  }

  /** When the construction without `local` yields a hypernetwork. */
  predicate HnetBuilds(cfg: ServerConfig) {
    cfg.embeddingDimDenominator != 0 && cfg.numClients >= 0
    && EmbeddingDim(cfg.numClients, cfg.embeddingDimDenominator).value >= 0
  }

  /** The construction without `local`. */
  method CreateHnet(cfg: ServerConfig) returns (r: Result<CNNHyper>)
    ensures r.Ok? <==> HnetBuilds(cfg)
    ensures r.Ok? ==>
      && r.value.Valid()
      && r.value.nNodes == cfg.numClients
      && r.value.embeddingDim == EmbeddingDim(cfg.numClients, cfg.embeddingDimDenominator).value
      && r.value.inChannels == cfg.inChannels && r.value.nKernels == cfg.nKernels && r.value.outDim == cfg.outDim
      && r.value.hiddenDim == 100 && r.value.nHidden == HiddenLayers(cfg.nHidden) && !r.value.spec
  {
    CorrectedKeywordsAccepted();
    r := CreateHnetWith(cfg, ServerKeywords);
  }

  // ---------------------------------------------------------------------
  // __init__: the optimizer's parameter groups (server.py:74-91)

  /** Python's `sub in s` for strings. */
  predicate Contains(s: string, sub: string)
    decreases |s|
  {
    |sub| <= |s| && (s[..|sub|] == sub || Contains(s[1..], sub))
  }

  /** A string without a 'd' does not contain "embed". */
  lemma {:induction false} NoEmbedWithoutD(s: string)
    requires 'd' !in s
    ensures !Contains(s, "embed")
    decreases |s|
  {
    if 5 <= |s| {
      assert s[4] in s;
      assert s[..5][4] == s[4] != 'd';
      assert "embed"[4] == 'd';
      NoEmbedWithoutD(s[1..]);
    }
  }

  /** The two groups: names without "embed", then names with it, each in
      the order of `named_parameters()`. Together they are a partition. */
  function SplitParamGroups(names: seq<string>): (groups: (seq<string>, seq<string>))
    ensures forall n :: n in groups.0 ==> n in names && !Contains(n, "embed")
    ensures forall n :: n in groups.1 ==> n in names && Contains(n, "embed")
    ensures multiset(groups.0) + multiset(groups.1) == multiset(names)
  {
    if names == [] then ([], [])
    else
      var rest := SplitParamGroups(names[1..]);
      assert names == [names[0]] + names[1..];
      if Contains(names[0], "embed") then (rest.0, [names[0]] + rest.1)
      else ([names[0]] + rest.0, rest.1)
  }

  /** The optimizer's groups: the second holds exactly the embedding table,
      the first every trunk and head parameter. */
  lemma EmbeddingAloneInSecondGroup(h: CNNHyper)
    requires h.Valid()
    ensures SplitParamGroups(ParamNames(h)) == (ParamNames(h)[1..], ["embeddings.weight"])
  {
    ParamNamesAfterEmbeddingWithoutD(h);
    EmbeddingFirstSplit(ParamNames(h));
  }

  /** A list headed by the embedding table's name, with no 'd' in any other name. */
  lemma EmbeddingFirstSplit(names: seq<string>)
    requires |names| >= 1 && names[0] == "embeddings.weight"
    requires forall n :: n in names[1..] ==> 'd' !in n
    ensures SplitParamGroups(names) == (names[1..], [names[0]])
  {
    WithoutEmbedSplit(names[1..]);
    EmbeddingNameContainsEmbed();
    assert Contains(names[0], "embed");
    assert [names[0]] + [] == [names[0]];
  }

  lemma EmbeddingNameContainsEmbed()
    ensures Contains("embeddings.weight", "embed")
  {
    assert "embeddings.weight"[..5] == "embed";
  }

  lemma {:induction false} WithoutEmbedSplit(names: seq<string>)
    requires forall n :: n in names ==> 'd' !in n
    ensures SplitParamGroups(names) == (names, [])
  {
    if names != [] {
      NoEmbedWithoutD(names[0]);
      WithoutEmbedSplit(names[1..]);
      assert names == [names[0]] + names[1..];
    }
  }

  /** An SGD parameter group: parameter names and learning rate. */
  datatype ParamGroup = ParamGroup(names: seq<string>, lr: real)

  /** Both groups get the configured learning rate: the second sets it
      explicitly to the default the first inherits. */
  function OptimizerGroups(names: seq<string>, lr: real): (groups: seq<ParamGroup>)
    ensures |groups| == 2 && groups[0].lr == lr && groups[1].lr == lr
    ensures multiset(groups[0].names) + multiset(groups[1].names) == multiset(names)
  {
    var split := SplitParamGroups(names);
    [ParamGroup(split.0, lr), ParamGroup(split.1, lr)]
  }

  // ---------------------------------------------------------------------
  // fit_round: delta_theta (server.py:236-251)

  /** A dict built from key/value pairs in order: a later pair overwrites an earlier one. */
  function ToMap(pairs: seq<(string, Tensor)>): (m: map<string, Tensor>)
    ensures forall k :: k in m <==> k in Keys(pairs)
  {
    if pairs == [] then map[]
    else
      var init := pairs[..|pairs| - 1];
      assert Keys(pairs) == Keys(init) + [pairs[|pairs| - 1].0];
      ToMap(init)[pairs[|pairs| - 1].0 := pairs[|pairs| - 1].1]
  }

  /** With distinct keys, each key maps to its own value. */
  lemma {:induction false} ToMapDistinct(pairs: seq<(string, Tensor)>)
    requires Distinct(Keys(pairs))
    ensures forall i :: 0 <= i < |pairs| ==> ToMap(pairs)[pairs[i].0] == pairs[i].1
  {
    if pairs != [] {
      var init, last := pairs[..|pairs| - 1], pairs[|pairs| - 1];
      assert Keys(init) == Keys(pairs)[..|pairs| - 1];
      ToMapDistinct(init);
      var m := ToMap(init);
      assert ToMap(pairs) == m[last.0 := last.1];
      forall i | 0 <= i < |pairs| ensures ToMap(pairs)[pairs[i].0] == pairs[i].1 {
        if i < |init| {
          assert Keys(pairs)[i] != Keys(pairs)[|pairs| - 1];
          assert pairs[i] == init[i] && m[init[i].0] == init[i].1;
        }
      }
    }
  }

  /** Element-wise difference of two tensors; tensors of different sizes
      raise (broadcasting is not modelled). */
  function Subtract(a: Tensor, b: Tensor): (r: Result<Tensor>)
    ensures r.Ok? <==> |a| == |b|
    ensures r.Ok? ==> |r.value| == |a| && forall j :: 0 <= j < |a| ==> r.value[j] == a[j] - b[j]
  {
    if |a| != |b| then Err(RuntimeError("The size of tensor a must match the size of tensor b"))
    else Ok(seq(|a|, j requires 0 <= j < |a| => a[j] - b[j]))
  }

  /** `{k: inner_state[k] - final_state[k] for k in keys}`, in key order:
      the first key missing from `final` raises KeyError. */
  function DeltaRows(keys: seq<string>, inner: map<string, Tensor>, final: map<string, Tensor>): Result<WeightSet>
    requires forall k :: k in keys ==> k in inner
  {
    if keys == [] then Ok([])
    else if keys[0] !in final then Err(KeyError(keys[0]))
    else
      var d :- Subtract(inner[keys[0]], final[keys[0]]);
      var rest :- DeltaRows(keys[1..], inner, final);
      Ok([(keys[0], d)] + rest)
  }

  /** delta_theta: the returned arrays paired by position with the generated
      keys (`final_state`), subtracted from the generated weights
      (`inner_state`) key by key. */
  function DeltaTheta(weights: WeightSet, arrays: seq<Tensor>): Result<WeightSet> {
    var keys := Keys(weights);
    DeltaRows(keys, ToMap(weights), ToMap(Zip(keys, arrays)))
  }

  /** DeltaRows succeeds exactly when every key is in `final` with a tensor
      of the size of its `inner` tensor; it then holds, key by key, the
      difference of the two. */
  lemma {:induction false} DeltaRowsSpec(keys: seq<string>, inner: map<string, Tensor>, final: map<string, Tensor>)
    requires forall k :: k in keys ==> k in inner
    ensures DeltaRows(keys, inner, final).Ok? <==>
      forall i :: 0 <= i < |keys| ==> keys[i] in final && |inner[keys[i]]| == |final[keys[i]]|
    ensures DeltaRows(keys, inner, final).Ok? ==>
      var delta := DeltaRows(keys, inner, final).value;
      && |delta| == |keys|
      && forall i :: 0 <= i < |keys| ==>
           delta[i].0 == keys[i] && Subtract(inner[keys[i]], final[keys[i]]) == Ok(delta[i].1)
  {
    if keys != [] {
      assert forall k :: k in keys[1..] ==> k in keys;
      DeltaRowsSpec(keys[1..], inner, final);
      if keys[0] in final && Subtract(inner[keys[0]], final[keys[0]]).Ok? {
        var rest := DeltaRows(keys[1..], inner, final);
        if rest.Ok? {
          forall i | 0 <= i < |keys| ensures keys[i] in final && |inner[keys[i]]| == |final[keys[i]]| {
            if i > 0 { assert keys[i] == keys[1..][i - 1]; }
          }
        } else {
          var i :| 0 <= i < |keys[1..]| && !(keys[1..][i] in final && |inner[keys[1..][i]]| == |final[keys[1..][i]]|);
          assert keys[1..][i] == keys[i + 1];
        }
      }
    }
  }

  /** The dict built from `zip(keys, arrays)`, with distinct keys, holds the
      key at position i exactly when there is an array at position i, and then
      that array. */
  lemma ZipMapSpec(keys: seq<string>, arrays: seq<Tensor>)
    requires Distinct(keys)
    ensures forall i :: 0 <= i < |keys| ==> (keys[i] in ToMap(Zip(keys, arrays)) <==> i < |arrays|)
    ensures forall i :: 0 <= i < |keys| && i < |arrays| ==> ToMap(Zip(keys, arrays))[keys[i]] == arrays[i]
  {
    var z := Zip(keys, arrays);
    assert Keys(z) == keys[..|z|];
    ToMapDistinct(z);
    forall i | 0 <= i < |keys| ensures keys[i] in ToMap(z) <==> i < |arrays| {
      if keys[i] in ToMap(z) {
        assert keys[i] in keys[..|z|];
        var j :| 0 <= j < |z| && keys[..|z|][j] == keys[i];
        assert j == i;
      }
    }
  }

  /** delta_theta exists exactly when there is a returned array for every
      generated key and each has the size of its generated tensor; it then
      has the generated keys in generation order, and under each key the
      generated tensor minus the array returned in that position. */
  lemma DeltaThetaSpec(weights: WeightSet, arrays: seq<Tensor>)
    requires Distinct(Keys(weights))
    ensures DeltaTheta(weights, arrays).Ok? <==>
      |arrays| >= |weights| && forall i :: 0 <= i < |weights| ==> |weights[i].1| == |arrays[i]|
    ensures DeltaTheta(weights, arrays).Ok? ==>
      var delta := DeltaTheta(weights, arrays).value;
      && Keys(delta) == Keys(weights)
      && forall i :: 0 <= i < |weights| ==>
           |delta[i].1| == |weights[i].1| &&
           forall j :: 0 <= j < |weights[i].1| ==> delta[i].1[j] == weights[i].1[j] - arrays[i][j]
  {
    var keys := Keys(weights);
    var inner, final := ToMap(weights), ToMap(Zip(keys, arrays));
    ToMapDistinct(weights);
    ZipMapSpec(keys, arrays);
    assert forall i :: 0 <= i < |weights| ==> inner[keys[i]] == weights[i].1;
    DeltaRowsSpec(keys, inner, final);
    if |weights| > 0 && (forall i :: 0 <= i < |keys| ==> keys[i] in final) {
      assert keys[|keys| - 1] in final;
    }
  }

  // ---------------------------------------------------------------------
  // The rounds (server.py:100-331)

  /** What the server asks of the outside, as functions: its strategy's
      answers (server.py is written against Flower's abstract Strategy), the
      clients' replies, and the hypernetwork's numerics. */
  datatype Env = Env(
    configureFit: (int, Parameters) -> seq<(ClientProxy, FitIns)>,
    aggregateFit: (int, seq<(ClientProxy, ClientRes)>, seq<Failure>) -> Result<(Option<Parameters>, Metrics)>,
    evaluate: (int, Parameters) -> Option<(real, Metrics)>,
    configureEvaluate: int -> seq<(ClientProxy, EvaluateIns)>,
    aggregateEvaluate: (int, seq<(ClientProxy, ClientRes)>, seq<Failure>) -> Result<(Option<real>, Metrics)>,
    fitClient: (ClientProxy, FitIns) -> ClientReply,
    evaluateClient: (ClientProxy, EvaluateIns) -> ClientReply,
    generate: Generator,
    step: Stepper)

  /** One entry of the evaluation log `self.data`. */
  datatype EvalRecord = EvalRecord(round: int, avgLoss: Option<real>, avgAccuracy: real)

  /** The fields of the server the rounds change: the hypernetwork's
      parameter values, the global parameters and the evaluation log. */
  datatype ServerState = ServerState(hnetState: seq<Tensor>, parameters: Parameters, data: seq<EvalRecord>)

  /** What fit_round returns: the hypernetwork's new state_dict as
      parameters, the aggregated metrics, and the round's results and failures. */
  datatype FitOutcome = FitOutcome(
    parameters: Parameters, metrics: Metrics,
    results: seq<(ClientProxy, ClientRes)>, failures: seq<Failure>)

  /** A completed fit_round, with what happened inside it: the generated
      weights of the first client (`inner_state`), the arrays the strategy
      returned, `delta_theta`, and the hypernetwork's new parameter values. */
  datatype FitStep = FitStep(
    outcome: FitOutcome, inner: WeightSet, returned: seq<Tensor>, delta: WeightSet, newState: seq<Tensor>)

  /** What evaluate_round returns when it reaches aggregation. */
  datatype EvaluateOutcome = EvaluateOutcome(
    loss: Option<real>, accuracy: real,
    results: seq<(ClientProxy, ClientRes)>, failures: seq<Failure>)

  /** Flower's History, as the lists this server adds to. */
  datatype History = History(
    lossesDistributed: seq<(int, real)>,
    metricsDistributed: seq<(int, Metrics)>,
    metricsDistributedFit: seq<(int, Metrics)>,
    lossesCentralized: seq<(int, real)>,
    metricsCentralized: seq<(int, Metrics)>)

  const EmptyHistory := History([], [], [], [], [])

  /** fit_round sends the server's generated weights to the first sampled
      client only; every other instruction is sent as the strategy built it. */
  function WithFirstParameters(ins: seq<(ClientProxy, FitIns)>, w: WeightSet): (sent: seq<(ClientProxy, FitIns)>)
    requires |ins| > 0
    ensures |sent| == |ins| && sent[0].0 == ins[0].0 && sent[0].1.config == ins[0].1.config
    ensures sent[0].1.parameters.tensors == Values(w)
    ensures forall i :: 1 <= i < |ins| ==> sent[i] == ins[i]
  {
    ins[0 := (ins[0].0, FitIns(NdarraysToParameters(Values(w)), ins[0].1.config))]
  }

  /** fit_round on a server state. The first instruction is read before the
      emptiness check, so an empty selection raises IndexError instead of
      cancelling the round; a strategy that aggregates to no parameters
      makes `parameters_to_ndarrays` raise; a completed round returns the
      hypernetwork's updated values and the gathered results and failures. */
  function FitRoundSpec(env: Env, h: CNNHyper, s: ServerState, round: int): (r: Result<FitStep>)
    ensures |env.configureFit(round, s.parameters)| == 0 ==> r == Err(IndexError("list index out of range"))
    ensures (forall rs, fs :: env.aggregateFit(round, rs, fs).Ok? ==> env.aggregateFit(round, rs, fs).value.0.None?)
            ==> r.Err?
    ensures r.Ok? ==>
      && r.value.outcome.parameters == NdarraysToParameters(r.value.newState)
      && |r.value.outcome.results| + |r.value.outcome.failures| == |env.configureFit(round, s.parameters)|
      && ClientWeights(h, s.hnetState, env.generate, env.configureFit(round, s.parameters)[0].0.cid) == Ok(r.value.inner)
      && DeltaTheta(r.value.inner, r.value.returned) == Ok(r.value.delta)
      && r.value.newState == env.step(s.hnetState, Values(r.value.inner), Values(r.value.delta))
    ensures var ins := env.configureFit(round, s.parameters);
      |ins| > 0 ==>
        var w := ClientWeights(h, s.hnetState, env.generate, ins[0].0.cid);
        && (w.Err? ==> r == Err(w.error))
        && (w.Ok? ==>
              var fs := Dispatch(WithFirstParameters(ins, w.value), env.fitClient);
              var agg := env.aggregateFit(round, Successes(fs), FailuresOf(fs));
              && (agg.Err? ==> r == Err(agg.error))
              && (agg.Ok? && agg.value.0.None? ==> r == Err(AttributeError("tensors")))
              && (agg.Ok? && agg.value.0.Some? ==> FitRoundCompletes(env, s, r, w.value, fs, agg.value)))
  {
    var ins := env.configureFit(round, s.parameters);
    if |ins| == 0 then Err(IndexError("list index out of range"))
    else
      var w :- ClientWeights(h, s.hnetState, env.generate, ins[0].0.cid);
      var fs := Dispatch(WithFirstParameters(ins, w), env.fitClient);
      var results, failures := Successes(fs), FailuresOf(fs);
      GatherLosesNothing(fs);
      var agg :- env.aggregateFit(round, results, failures);
      var arrays :- ParametersToNdarrays(agg.0);
      var delta :- DeltaTheta(w, arrays);
      var newState := env.step(s.hnetState, Values(w), Values(delta));
      Ok(FitStep(FitOutcome(NdarraysToParameters(newState), agg.1, results, failures), w, arrays, delta, newState))
  }

  /** The last steps of fit_round once the strategy aggregated to some
      parameters: `delta_theta` of the generated weights and the returned
      arrays raises, or the round completes with those weights, those
      arrays, that delta, the stepped hypernetwork, the aggregated metrics
      and the gathered results and failures. */
  predicate FitRoundCompletes(env: Env, s: ServerState, r: Result<FitStep>, w: WeightSet,
                              fs: seq<Future>, agg: (Option<Parameters>, Metrics))
    requires agg.0.Some?
  {
    var returned := agg.0.value.tensors;
    var d := DeltaTheta(w, returned);
    && (d.Err? ==> r == Err(d.error))
    && (d.Ok? ==>
          var newState := env.step(s.hnetState, Values(w), Values(d.value));
          r == Ok(FitStep(FitOutcome(NdarraysToParameters(newState), agg.1, Successes(fs), FailuresOf(fs)),
                          w, returned, d.value, newState)))
  }

  /** A completed fit_round's `delta_theta` has exactly the generated keys,
      which are CNNTarget's parameter names, in generation order; each
      generated tensor has as many elements as the target parameter of that
      name; and under each key the delta is the generated tensor minus the
      array returned in that position. */
  lemma FitRoundDelta(env: Env, h: CNNHyper, s: ServerState, round: int)
    requires h.Valid() && FitRoundSpec(env, h, s, round).Ok?
    ensures var st := FitRoundSpec(env, h, s, round).value;
      && Keys(st.delta) == Keys(st.inner) == Keys(StateDictShapes(TargetLayers(h.inChannels, h.nKernels, h.outDim)))
      && |st.inner| == |StateDictShapes(TargetLayers(h.inChannels, h.nKernels, h.outDim))|
      && (forall i :: 0 <= i < |st.inner| ==>
            |st.inner[i].1| == Product(StateDictShapes(TargetLayers(h.inChannels, h.nKernels, h.outDim))[i].1))
      && |st.returned| >= |st.inner|
      && forall i :: 0 <= i < |st.inner| ==>
           |st.returned[i]| == |st.delta[i].1| == |st.inner[i].1| &&
           forall j :: 0 <= j < |st.inner[i].1| ==> st.delta[i].1[j] == st.inner[i].1[j] - st.returned[i][j]
  {
    var st := FitRoundSpec(env, h, s, round).value;
    var cid := env.configureFit(round, s.parameters)[0].0.cid;
    var w := ClientWeights(h, s.hnetState, env.generate, cid);
    assert w == Ok(st.inner);
    assert DeltaTheta(st.inner, st.returned) == Ok(st.delta);
    TargetKeysAndDelta(h, s.hnetState, env.generate, cid, st.returned, st.delta);
  }

  /** The generated weights of a client, and a delta_theta built from them. */
  lemma TargetKeysAndDelta(h: CNNHyper, state: seq<Tensor>, generate: Generator, cid: int,
                           returned: seq<Tensor>, delta: WeightSet)
    requires h.Valid() && ClientWeights(h, state, generate, cid).Ok?
    requires DeltaTheta(ClientWeights(h, state, generate, cid).value, returned) == Ok(delta)
    ensures var inner := ClientWeights(h, state, generate, cid).value;
      && Keys(delta) == Keys(inner) == Keys(StateDictShapes(TargetLayers(h.inChannels, h.nKernels, h.outDim)))
      && |inner| == |StateDictShapes(TargetLayers(h.inChannels, h.nKernels, h.outDim))|
      && (forall i :: 0 <= i < |inner| ==>
            |inner[i].1| == Product(StateDictShapes(TargetLayers(h.inChannels, h.nKernels, h.outDim))[i].1))
      && |returned| >= |inner|
      && forall i :: 0 <= i < |inner| ==>
           |returned[i]| == |delta[i].1| == |inner[i].1| &&
           forall j :: 0 <= j < |inner[i].1| ==> delta[i].1[j] == inner[i].1[j] - returned[i][j]
  {
    ClientWeightsMatchTarget(h, state, generate, cid);
    GeneratedKeysDistinct(h, state, generate, cid);
    DeltaOfDistinct(ClientWeights(h, state, generate, cid).value, returned, delta);
  }

  /** DeltaThetaSpec, read off a known successful construction. */
  lemma DeltaOfDistinct(inner: WeightSet, returned: seq<Tensor>, delta: WeightSet)
    requires Distinct(Keys(inner)) && DeltaTheta(inner, returned) == Ok(delta)
    ensures Keys(delta) == Keys(inner) && |returned| >= |inner|
    ensures forall i :: 0 <= i < |inner| ==>
      |returned[i]| == |delta[i].1| == |inner[i].1| &&
      forall j :: 0 <= j < |inner[i].1| ==> delta[i].1[j] == inner[i].1[j] - returned[i][j]
  {
    DeltaThetaSpec(inner, returned);
  }

  /** Generating one evaluation instruction's parameters (the loop body of
      evaluate_round): the client's generated weights, config kept. */
  function AttachWeights(h: CNNHyper, state: seq<Tensor>, generate: Generator, ins: (ClientProxy, EvaluateIns))
    : (r: Result<(ClientProxy, EvaluateIns)>)
    ensures r.Ok? <==> ClientWeights(h, state, generate, ins.0.cid).Ok?
    ensures r.Ok? ==> r.value.0 == ins.0 && r.value.1.config == ins.1.config
    ensures r.Ok? ==> r.value.1.parameters == Some(NdarraysToParameters(Values(ClientWeights(h, state, generate, ins.0.cid).value)))
  {
    var w :- ClientWeights(h, state, generate, ins.0.cid);
    Ok((ins.0, EvaluateIns(Some(NdarraysToParameters(Values(w))), ins.1.config)))
  }

  /** The loop of evaluate_round over all instructions, in order: the first
      client whose weights cannot be generated raises. */
  function AttachAll(h: CNNHyper, state: seq<Tensor>, generate: Generator, ins: seq<(ClientProxy, EvaluateIns)>)
    : (r: Result<seq<(ClientProxy, EvaluateIns)>>)
    ensures r.Ok? <==> forall i :: 0 <= i < |ins| ==> AttachWeights(h, state, generate, ins[i]).Ok?
    ensures r.Ok? ==> |r.value| == |ins| && forall i :: 0 <= i < |ins| ==> r.value[i] == AttachWeights(h, state, generate, ins[i]).value
  {
    if ins == [] then Ok([])
    else
      var init :- AttachAll(h, state, generate, ins[..|ins| - 1]);
      var last :- AttachWeights(h, state, generate, ins[|ins| - 1]);
      Ok(init + [last])
  }

  /** Replacing the element at `i` extends the prefix before it by the new
      value and leaves the suffix after it as it was. */
  lemma UpdateKeepsOthers<T>(s: seq<T>, i: nat, v: T)
    requires i < |s|
    ensures s[i := v][..i + 1] == s[..i] + [v] && s[i := v][i + 1..] == s[i + 1..]
  {
  }

  /** One more instruction of the loop: the prefix grows by that client's
      instruction, or the loop raises. */
  lemma AttachAllStep(h: CNNHyper, state: seq<Tensor>, generate: Generator,
                      ins: seq<(ClientProxy, EvaluateIns)>, i: nat)
    requires i < |ins|
    ensures var prev := AttachAll(h, state, generate, ins[..i]);
            var a := AttachWeights(h, state, generate, ins[i]);
            AttachAll(h, state, generate, ins[..i + 1])
              == if prev.Err? then prev else if a.Err? then Err(a.error) else Ok(prev.value + [a.value])
  {
    assert ins[..i + 1][..i] == ins[..i];
  }

  /** Once a prefix of the instructions fails, the whole loop fails with the same error. */
  lemma {:induction false} AttachAllPrefixFails(h: CNNHyper, state: seq<Tensor>, generate: Generator,
                                                ins: seq<(ClientProxy, EvaluateIns)>, n: nat)
    requires n <= |ins| && AttachAll(h, state, generate, ins[..n]).Err?
    ensures AttachAll(h, state, generate, ins) == AttachAll(h, state, generate, ins[..n])
  {
    if n < |ins| {
      var init := ins[..|ins| - 1];
      assert init[..n] == ins[..n];
      AttachAllPrefixFails(h, state, generate, init, n);
    } else {
      assert ins[..n] == ins;
    }
  }

  /** evaluate_round on a server state: attach every client's generated
      weights, cancel (no record) when nothing was selected, otherwise gather,
      aggregate, read the metric "avg_acc" (raising KeyError without it) and
      append exactly one record. */
  function EvaluateRoundSpec(env: Env, h: CNNHyper, s: ServerState, round: int)
    : (r: Result<(Option<EvaluateOutcome>, seq<EvalRecord>)>)
    ensures |env.configureEvaluate(round)| == 0 ==> r == Ok((None, s.data))
    ensures r.Ok? && r.value.0.None? ==> r.value.1 == s.data
    ensures r.Ok? && r.value.0.Some? ==>
      && r.value.1 == s.data + [EvalRecord(round, r.value.0.value.loss, r.value.0.value.accuracy)]
      && |r.value.0.value.results| + |r.value.0.value.failures| == |env.configureEvaluate(round)|
    ensures |env.configureEvaluate(round)| > 0 &&
            (forall rs, fs :: env.aggregateEvaluate(round, rs, fs).Ok? ==> "avg_acc" !in env.aggregateEvaluate(round, rs, fs).value.1)
            ==> r.Err?
    ensures var attached := AttachAll(h, s.hnetState, env.generate, env.configureEvaluate(round));
      && (attached.Err? ==> r == Err(attached.error))
      && (attached.Ok? && |attached.value| > 0 ==> EvaluateRoundGathers(env, s, round, r, attached.value))
  {
    var sent :- AttachAll(h, s.hnetState, env.generate, env.configureEvaluate(round));
    if |sent| == 0 then Ok((None, s.data))
    else
      var fs := Dispatch(sent, env.evaluateClient);
      var results, failures := Successes(fs), FailuresOf(fs);
      GatherLosesNothing(fs);
      var agg :- env.aggregateEvaluate(round, results, failures);
      if "avg_acc" !in agg.1 then Err(KeyError("avg_acc"))
      else
        var accuracy := agg.1["avg_acc"];
        Ok((Some(EvaluateOutcome(agg.0, accuracy, results, failures)), s.data + [EvalRecord(round, agg.0, accuracy)]))
  }

  /** The steps of evaluate_round once every selected client has its
      weights: gather the replies to `sent`, aggregate them (raising as the
      strategy raises), read "avg_acc" (KeyError without it), and record
      the aggregated loss and accuracy as this round's entry of the log. */
  predicate EvaluateRoundGathers(env: Env, s: ServerState, round: int,
                                 r: Result<(Option<EvaluateOutcome>, seq<EvalRecord>)>,
                                 sent: seq<(ClientProxy, EvaluateIns)>)
  {
    var fs := Dispatch(sent, env.evaluateClient);
    var agg := env.aggregateEvaluate(round, Successes(fs), FailuresOf(fs));
    && (agg.Err? ==> r == Err(agg.error))
    && (agg.Ok? && "avg_acc" !in agg.value.1 ==> r == Err(KeyError("avg_acc")))
    && (agg.Ok? && "avg_acc" in agg.value.1 ==>
          var outcome := EvaluateOutcome(agg.value.0, agg.value.1["avg_acc"], Successes(fs), FailuresOf(fs));
          r == Ok((Some(outcome), s.data + [EvalRecord(round, outcome.loss, outcome.accuracy)])))
  }

  /** The strategy's centralised evaluation, recorded when it gives a result. */
  function RecordCentralized(history: History, round: int, c: Option<(real, Metrics)>): (h: History)
    ensures c.None? ==> h == history
    ensures c.Some? ==> h == history.(lossesCentralized := history.lossesCentralized + [(round, c.value.0)],
                                      metricsCentralized := history.metricsCentralized + [(round, c.value.1)])
  {
    match c
    case None => history
    case Some(res) => history.(lossesCentralized := history.lossesCentralized + [(round, res.0)],
                               metricsCentralized := history.metricsCentralized + [(round, res.1)])
  }

  /** The federated evaluation, recorded only when it produced a loss. */
  function RecordDistributed(history: History, round: int, ev: Option<EvaluateOutcome>): (h: History)
    ensures h.metricsDistributedFit == history.metricsDistributedFit
    ensures h.lossesCentralized == history.lossesCentralized && h.metricsCentralized == history.metricsCentralized
    ensures !(ev.Some? && ev.value.loss.Some?) ==> h == history
    ensures ev.Some? && ev.value.loss.Some? ==>
      h.lossesDistributed == history.lossesDistributed + [(round, ev.value.loss.value)] &&
      h.metricsDistributed == history.metricsDistributed + [(round, map["avg_acc" := ev.value.accuracy])]
  {
    if ev.Some? && ev.value.loss.Some? then
      history.(lossesDistributed := history.lossesDistributed + [(round, ev.value.loss.value)],
               metricsDistributed := history.metricsDistributed + [(round, map["avg_acc" := ev.value.accuracy])])
    else history
  }

  /** One iteration of fit's loop: fit_round, adopt its parameters (a
      Parameters object is always true, so they are always adopted), record
      its metrics, run the strategy's centralised evaluation on the adopted
      parameters, then evaluate_round. Whatever raises ends the run. */
  function RoundSpec(env: Env, h: CNNHyper, s: ServerState, history: History, round: int)
    : (r: (ServerState, Result<History>))
    ensures FitRoundSpec(env, h, s, round).Err? ==> r == (s, Err(FitRoundSpec(env, h, s, round).error))
    ensures FitRoundSpec(env, h, s, round).Ok? ==>
      && r.0.parameters == FitRoundSpec(env, h, s, round).value.outcome.parameters
      && r.0.hnetState == FitRoundSpec(env, h, s, round).value.newState
    ensures r.1.Ok? ==>
      r.1.value.metricsDistributedFit == history.metricsDistributedFit + [(round, FitRoundSpec(env, h, s, round).value.outcome.metrics)]
    ensures FitRoundSpec(env, h, s, round).Ok? ==> EvaluatesAfterFit(env, h, s, history, round, FitRoundSpec(env, h, s, round).value, r)
  {
    match FitRoundSpec(env, h, s, round)
    case Err(e) => (s, Err(e))
    case Ok(st) =>
      var s1 := s.(hnetState := st.newState, parameters := st.outcome.parameters);
      var h1 := history.(metricsDistributedFit := history.metricsDistributedFit + [(round, st.outcome.metrics)]);
      var h2 := RecordCentralized(h1, round, env.evaluate(round, s1.parameters));
      match EvaluateRoundSpec(env, h, s1, round)
      case Err(e) => (s1, Err(e))
      case Ok(ev) => (s1.(data := ev.1), Ok(RecordDistributed(h2, round, ev.0)))
  }

  /** The second half of a round after fit_round completed with `st`: the
      fit metrics and then the centralised evaluation of the new parameters
      are recorded, and evaluate_round runs on the post-fit state; its error
      ends the run with that state, its success sets the log and records its
      loss and accuracy. */
  predicate EvaluatesAfterFit(env: Env, h: CNNHyper, s: ServerState, history: History, round: int,
                              st: FitStep, r: (ServerState, Result<History>))
  {
    var s1 := s.(hnetState := st.newState, parameters := st.outcome.parameters);
    var fitted := history.(metricsDistributedFit := history.metricsDistributedFit + [(round, st.outcome.metrics)]);
    var central := RecordCentralized(fitted, round, env.evaluate(round, st.outcome.parameters));
    var ev := EvaluateRoundSpec(env, h, s1, round);
    && (ev.Err? ==> r == (s1, Err(ev.error)))
    && (ev.Ok? ==> r == (s1.(data := ev.value.1), Ok(RecordDistributed(central, round, ev.value.0))))
  }

  /** A round appends at most one record to the evaluation log, for this round. */
  lemma RoundAppendsOneRecord(env: Env, h: CNNHyper, s: ServerState, history: History, round: int)
    ensures var data := RoundSpec(env, h, s, history, round).0.data;
      data == s.data || (|data| == |s.data| + 1 && data[..|s.data|] == s.data && data[|s.data|].round == round)
  {
    var fit := FitRoundSpec(env, h, s, round);
    if fit.Ok? {
      var s1 := s.(hnetState := fit.value.newState, parameters := fit.value.outcome.parameters);
      var ev := EvaluateRoundSpec(env, h, s1, round);
      if ev.Ok? && ev.value.0.Some? {
        assert ev.value.1[..|s.data|] == s.data;
      }
    }
  }

  /** fit from `round` to `numRounds` inclusive. */
  function FitSpec(env: Env, h: CNNHyper, s: ServerState, history: History, round: int, numRounds: int)
    : (ServerState, Result<History>)
    decreases numRounds + 1 - round
  {
    if round > numRounds then (s, Ok(history))
    else
      var (s1, r1) := RoundSpec(env, h, s, history, round);
      if r1.Err? then (s1, r1)
      else FitSpec(env, h, s1, r1.value, round + 1, numRounds)
  }

  /** The rounds `round`, ..., `last - 1`. */
  function Range(round: int, last: int): (rs: seq<int>)
    ensures |rs| == if last > round then last - round else 0
    ensures forall i :: 0 <= i < |rs| ==> rs[i] == round + i
    decreases last - round
  {
    if round >= last then [] else [round] + Range(round + 1, last)
  }

  /** A completed run visits the rounds 1..num_rounds in increasing order,
      running fit_round in every one of them. */
  lemma {:induction false} FitVisitsRoundsInOrder(env: Env, h: CNNHyper, s: ServerState, history: History,
                                                  round: int, numRounds: int)
    requires FitSpec(env, h, s, history, round, numRounds).1.Ok?
    ensures Keys(FitSpec(env, h, s, history, round, numRounds).1.value.metricsDistributedFit)
            == Keys(history.metricsDistributedFit) + Range(round, numRounds + 1)
    decreases numRounds + 1 - round
  {
    if round <= numRounds {
      var s1, h1 := FitSpecUnroll(env, h, s, history, round, numRounds);
      FitVisitsRoundsInOrder(env, h, s1, h1, round + 1, numRounds);
      FitVisitsJoin(env, h, s, history, round, numRounds, s1, h1);
    }
  }

  /** The inductive step of FitVisitsRoundsInOrder: the round recorded
      first, then the rounds the rest of the run records. */
  lemma FitVisitsJoin(env: Env, h: CNNHyper, s: ServerState, history: History, round: int, numRounds: int,
                      s1: ServerState, h1: History)
    requires round <= numRounds
    requires FitSpec(env, h, s, history, round, numRounds) == FitSpec(env, h, s1, h1, round + 1, numRounds)
    requires Keys(h1.metricsDistributedFit) == Keys(history.metricsDistributedFit) + [round]
    requires FitSpec(env, h, s1, h1, round + 1, numRounds).1.Ok?
    requires Keys(FitSpec(env, h, s1, h1, round + 1, numRounds).1.value.metricsDistributedFit)
             == Keys(h1.metricsDistributedFit) + Range(round + 1, numRounds + 1)
    ensures Keys(FitSpec(env, h, s, history, round, numRounds).1.value.metricsDistributedFit)
            == Keys(history.metricsDistributedFit) + Range(round, numRounds + 1)
  {
    RangeStep(Keys(history.metricsDistributedFit), Keys(h1.metricsDistributedFit),
              Keys(FitSpec(env, h, s1, h1, round + 1, numRounds).1.value.metricsDistributedFit), round, numRounds + 1);
  }

  /** A run that completes goes through its first round: the rest of the run
      starts from that round's state and history, which has recorded the
      round's fit metrics. */
  lemma FitSpecUnroll(env: Env, h: CNNHyper, s: ServerState, history: History, round: int, numRounds: int)
    returns (s1: ServerState, h1: History)
    requires round <= numRounds && FitSpec(env, h, s, history, round, numRounds).1.Ok?
    ensures FitSpec(env, h, s, history, round, numRounds) == FitSpec(env, h, s1, h1, round + 1, numRounds)
    ensures Keys(h1.metricsDistributedFit) == Keys(history.metricsDistributedFit) + [round]
  {
    var r := RoundSpec(env, h, s, history, round);
    FitSpecStep(env, h, s, history, round, numRounds);
    RoundRecordsFit(env, h, s, history, round);
    s1, h1 := r.0, r.1.value;
  }

  /** Rounds recorded one at a time form a range. */
  lemma RangeStep(before: seq<int>, mid: seq<int>, after: seq<int>, round: int, last: int)
    requires round < last && mid == before + [round] && after == mid + Range(round + 1, last)
    ensures after == before + Range(round, last)
  {
    assert Range(round, last) == [round] + Range(round + 1, last);
  }

  /** One step of fit's loop. */
  lemma FitSpecStep(env: Env, h: CNNHyper, s: ServerState, history: History, round: int, numRounds: int)
    requires round <= numRounds
    ensures var r := RoundSpec(env, h, s, history, round);
      FitSpec(env, h, s, history, round, numRounds)
        == if r.1.Err? then r else FitSpec(env, h, r.0, r.1.value, round + 1, numRounds)
  {
  }

  /** A round that completes records its fit metrics under its own number. */
  lemma RoundRecordsFit(env: Env, h: CNNHyper, s: ServerState, history: History, round: int)
    requires RoundSpec(env, h, s, history, round).1.Ok?
    ensures Keys(RoundSpec(env, h, s, history, round).1.value.metricsDistributedFit)
            == Keys(history.metricsDistributedFit) + [round]
  {
  }

  /** The evaluation log only grows: earlier records stay as they were, and
      the records a run appends carry strictly increasing rounds between
      `round` and `numRounds`, at most one per round. */
  lemma {:induction false} FitAppendsToLog(env: Env, h: CNNHyper, s: ServerState, history: History,
                                           round: int, numRounds: int)
    ensures ExtendsLog(s.data, FitSpec(env, h, s, history, round, numRounds).0.data, round, numRounds)
    decreases numRounds + 1 - round
  {
    if round <= numRounds {
      var r := RoundSpec(env, h, s, history, round);
      FitSpecStep(env, h, s, history, round, numRounds);
      RoundAppendsOneRecord(env, h, s, history, round);
      if r.1.Ok? {
        FitAppendsToLog(env, h, r.0, r.1.value, round + 1, numRounds);
        LogExtends(s.data, r.0.data, FitSpec(env, h, r.0, r.1.value, round + 1, numRounds).0.data, round, numRounds);
      }
    }
  }

  /** `data` is the log `before` with records appended, for rounds between
      `first` and `last`, in strictly increasing round order (so at most
      one per round). */
  predicate ExtendsLog(before: seq<EvalRecord>, data: seq<EvalRecord>, first: int, last: int) {
    && |before| <= |data| && data[..|before|] == before
    && (forall i :: |before| <= i < |data| ==> first <= data[i].round <= last)
    && (forall i, j :: |before| <= i < j < |data| ==> data[i].round < data[j].round)
  }

  /** A round's log followed by the later rounds' records is a log of the
      rounds from this one on. */
  lemma LogExtends(d0: seq<EvalRecord>, d1: seq<EvalRecord>, d2: seq<EvalRecord>, round: int, numRounds: int)
    requires round <= numRounds
    requires d1 == d0 || (|d1| == |d0| + 1 && d1[..|d0|] == d0 && d1[|d0|].round == round)
    requires ExtendsLog(d1, d2, round + 1, numRounds)
    ensures ExtendsLog(d0, d2, round, numRounds)
  {
    assert d2[..|d0|] == d2[..|d1|][..|d0|];
    assert forall i :: |d0| <= i < |d1| ==> d2[i] == d1[i] && d1[i].round == round;
  }

  /** After a completed run with at least one round, the global parameters
      are the hypernetwork's values after its last update; with no round
      they are unchanged. */
  lemma {:induction false} FitParametersFollowHypernetwork(env: Env, h: CNNHyper, s: ServerState, history: History,
                                                           round: int, numRounds: int)
    requires FitSpec(env, h, s, history, round, numRounds).1.Ok?
    ensures round > numRounds ==> FitSpec(env, h, s, history, round, numRounds).0 == s
    ensures round <= numRounds ==>
      FitSpec(env, h, s, history, round, numRounds).0.parameters
        == NdarraysToParameters(FitSpec(env, h, s, history, round, numRounds).0.hnetState)
    decreases numRounds + 1 - round
  {
    if round <= numRounds {
      var (s1, r1) := RoundSpec(env, h, s, history, round);
      FitParametersFollowHypernetwork(env, h, s1, r1.value, round + 1, numRounds);
    }
  }

  /** A strategy whose aggregate_fit never yields parameters (the pFedHN
      strategy returns None) stops fit in its first round: the server state
      is unchanged and the error of fit_round is raised. */
  lemma FitStopsWithoutParameters(env: Env, h: CNNHyper, s: ServerState, numRounds: int)
    requires numRounds >= 1
    requires forall rs, fs :: env.aggregateFit(1, rs, fs).Ok? ==> env.aggregateFit(1, rs, fs).value.0.None?
    ensures FitRoundSpec(env, h, s, 1).Err?
    ensures FitSpec(env, h, s, EmptyHistory, 1, numRounds) == (s, Err(FitRoundSpec(env, h, s, 1).error))
  {
    FitSpecStep(env, h, s, EmptyHistory, 1, numRounds);
  }

  /** The server object. */
  class PFedHNServer {
    const hnet: CNNHyper
    /** The SGD optimizer's two parameter groups (server.py:74-91). */
    const optimizerGroups: seq<ParamGroup>
    var hnetState: seq<Tensor>
    var parameters: Parameters
    var data: seq<EvalRecord>

    function State(): ServerState
      reads this
    {
      ServerState(hnetState, parameters, data)
    }

    /** The rest of __init__ once the hypernetwork exists: optimizer groups
        over its named parameters, empty global parameters, empty log. */
    constructor (hnet: CNNHyper, hnetState: seq<Tensor>, lr: real)
      ensures this.hnet == hnet && this.hnetState == hnetState
      ensures optimizerGroups == OptimizerGroups(ParamNames(hnet), lr)
      ensures parameters == Parameters([], "numpy.ndarray") && data == []
    {
      this.hnet := hnet;
      this.optimizerGroups := OptimizerGroups(ParamNames(hnet), lr);
      this.hnetState := hnetState;
      this.parameters := Parameters([], "numpy.ndarray");
      this.data := [];
    }

    /** fit_round (server.py:177-269). */
    method FitRound(env: Env, round: int) returns (r: Result<FitOutcome>)
      modifies this
      ensures parameters == old(parameters) && data == old(data)
      ensures var spec := FitRoundSpec(env, hnet, old(State()), round);
        && (spec.Ok? ==> r == Ok(spec.value.outcome) && hnetState == spec.value.newState)
        && (spec.Err? ==> r == Err(spec.error) && hnetState == old(hnetState))
    {
      var instructions := env.configureFit(round, parameters);
      if |instructions| == 0 {
        return Err(IndexError("list index out of range"));
      }
      var inner :- ClientWeights(hnet, hnetState, env.generate, instructions[0].0.cid);
      instructions := instructions[0 := (instructions[0].0, FitIns(NdarraysToParameters(Values(inner)), instructions[0].1.config))];
      // The emptiness check of the source comes here; the list has just been indexed.
      var results, failures := FitClients(instructions, env.fitClient);
      var aggregated :- env.aggregateFit(round, results, failures);
      var arrays :- ParametersToNdarrays(aggregated.0);
      var delta :- DeltaTheta(inner, arrays);
      hnetState := env.step(hnetState, Values(inner), Values(delta));
      r := Ok(FitOutcome(NdarraysToParameters(hnetState), aggregated.1, results, failures));
    }

    /** The loop of evaluate_round that generates each selected client's
        weights and puts them into its instruction, in order; the first
        client whose weights cannot be generated raises. */
    method AttachWeightsLoop(env: Env, configured: seq<(ClientProxy, EvaluateIns)>)
      returns (r: Result<seq<(ClientProxy, EvaluateIns)>>)
      ensures r == AttachAll(hnet, hnetState, env.generate, configured)
    {
      var instructions := configured;
      var i := 0;
      while i < |instructions|
        invariant 0 <= i <= |instructions| == |configured|
        invariant AttachAll(hnet, hnetState, env.generate, configured[..i]) == Ok(instructions[..i])
        invariant instructions[i..] == configured[i..]
      {
        AttachAllStep(hnet, hnetState, env.generate, configured, i);
        var attached := AttachWeights(hnet, hnetState, env.generate, configured[i]);
        if attached.Err? {
          AttachAllPrefixFails(hnet, hnetState, env.generate, configured, i + 1);
          return Err(attached.error);
        }
        UpdateKeepsOthers(instructions, i, attached.value);
        instructions := instructions[i := attached.value];
        i := i + 1;
      }
      assert configured[..i] == configured && instructions[..i] == instructions;
      r := Ok(instructions);
    }

    /** evaluate_round (server.py:100-175). */
    method EvaluateRound(env: Env, round: int) returns (r: Result<Option<EvaluateOutcome>>)
      modifies this
      ensures hnetState == old(hnetState) && parameters == old(parameters)
      ensures var spec := EvaluateRoundSpec(env, hnet, old(State()), round);
        && (spec.Ok? ==> r == Ok(spec.value.0) && data == spec.value.1)
        && (spec.Err? ==> r == Err(spec.error) && data == old(data))
    {
      var instructions :- AttachWeightsLoop(env, env.configureEvaluate(round));
      if |instructions| == 0 {
        return Ok(None);
      }
      var results, failures := EvaluateClients(instructions, env.evaluateClient);
      var aggregated :- env.aggregateEvaluate(round, results, failures);
      if "avg_acc" !in aggregated.1 {
        return Err(KeyError("avg_acc"));
      }
      var accuracy := aggregated.1["avg_acc"];
      data := data + [EvalRecord(round, aggregated.0, accuracy)];
      r := Ok(Some(EvaluateOutcome(aggregated.0, accuracy, results, failures)));
    }

    /** fit (server.py:271-331): rounds 1..num_rounds. */
    method Fit(env: Env, numRounds: int) returns (r: Result<History>)
      modifies this
      ensures (State(), r) == FitSpec(env, hnet, old(State()), EmptyHistory, 1, numRounds)
    {
      var history := EmptyHistory;
      var round := 1;
      while round <= numRounds
        invariant round >= 1
        invariant FitSpec(env, hnet, State(), history, round, numRounds) == FitSpec(env, hnet, old(State()), EmptyHistory, 1, numRounds)
        decreases numRounds + 1 - round
      {
        var fitted := FitRound(env, round);
        if fitted.Err? {
          return Err(fitted.error);
        }
        // `if parameters_prime:` a Parameters object is always true.
        parameters := fitted.value.parameters;
        history := history.(metricsDistributedFit := history.metricsDistributedFit + [(round, fitted.value.metrics)]);
        var central := env.evaluate(round, parameters);
        history := RecordCentralized(history, round, central);
        var federated := EvaluateRound(env, round);
        if federated.Err? {
          return Err(federated.error);
        }
        history := RecordDistributed(history, round, federated.value);
        round := round + 1;
      }
      r := Ok(history);
    }
  }

  /** __init__ (server.py:51-98) with the call to CNNHyper corrected. */
  method NewServer(cfg: ServerConfig, hnetState: seq<Tensor>) returns (r: Result<PFedHNServer>)
    ensures r.Ok? <==>
      cfg.embeddingDimDenominator != 0 && cfg.numClients >= 0
      && EmbeddingDim(cfg.numClients, cfg.embeddingDimDenominator).value >= 0
      && cfg.lr >= 0.0 && cfg.momentum >= 0.0 && cfg.weightDecay >= 0.0
    ensures HnetBuilds(cfg) && cfg.lr < 0.0 ==> r == Err(ValueError("Invalid learning rate"))
    ensures HnetBuilds(cfg) && cfg.lr >= 0.0 && cfg.momentum < 0.0 ==> r == Err(ValueError("Invalid momentum value"))
    ensures HnetBuilds(cfg) && cfg.lr >= 0.0 && cfg.momentum >= 0.0 && cfg.weightDecay < 0.0
            ==> r == Err(ValueError("Invalid weight_decay value"))
    ensures r.Ok? ==>
      && fresh(r.value) && r.value.hnet.Valid() && r.value.hnet.nNodes == cfg.numClients
      && r.value.optimizerGroups == OptimizerGroups(ParamNames(r.value.hnet), cfg.lr)
      && r.value.optimizerGroups[1].names == ["embeddings.weight"]
      && r.value.parameters == Parameters([], "numpy.ndarray") && r.value.data == []
  {
    var h :- CreateHnet(cfg);
    // torch.optim.SGD validates its hyperparameters before building the groups.
    if cfg.lr < 0.0 {
      return Err(ValueError("Invalid learning rate"));
    }
    if cfg.momentum < 0.0 {
      return Err(ValueError("Invalid momentum value"));
    }
    if cfg.weightDecay < 0.0 {
      return Err(ValueError("Invalid weight_decay value"));
    }
    EmbeddingAloneInSecondGroup(h);
    var server := new PFedHNServer(h, hnetState, cfg.lr);
    r := Ok(server);
  }
}
