/** The hypernetwork (CNNHyper) and the target network (CNNTarget) of
    baselines/pFedHN/pFedHN/models.py, reduced to their structure: which
    layers exist, which weight keys the hypernetwork generates, and the shape
    of each generated tensor. The floating-point computation is not modelled. */
module Models {
  import opened Common

  /** The two target architectures, chosen by the number of input channels. */
  datatype Arch = RGB | Grayscale

  /** `in_channels == 3` selects RGB, `in_channels == 1` Grayscale; any other
      value selects neither branch of the constructors and of `forward`. */
  function ArchOf(inChannels: int): (a: Option<Arch>)
    ensures a == Some(RGB) <==> inChannels == 3
    ensures a == Some(Grayscale) <==> inChannels == 1
    ensures a.Some? ==> InChannels(a.value) == inChannels
  {
    if inChannels == 3 then Some(RGB)
    else if inChannels == 1 then Some(Grayscale)
    else None
  }

  function InChannels(a: Arch): nat {
    match a
    case RGB => 3
    case Grayscale => 1
  }

  /** The modules a network is built from. `spectral` records that a Linear
      layer was wrapped in spectral_norm (its shapes do not change). */
  datatype Layer =
    | Linear(inFeatures: nat, outFeatures: nat, spectral: bool)
    | ReLU
    | Conv2d(inChannels: nat, outChannels: nat, kernelSize: nat)
    | MaxPool2d(kernelSize: nat, stride: nat)

  /** Number of elements of a tensor of the given shape. */
  function Product(dims: seq<nat>): nat {
    if dims == [] then 1 else dims[0] * Product(dims[1..])
  }

  lemma {:induction false} ProductOfTwo(a: nat, b: nat)
    ensures Product([a, b]) == a * b
  {
    assert [a, b][1..] == [b];
    assert [b][1..] == [];
    assert Product([b]) == b * Product([]) == b;
  }

  lemma {:induction false} ProductOfFour(a: nat, b: nat, c: nat, d: nat)
    ensures Product([a, b, c, d]) == a * b * c * d
  {
    assert [a, b, c, d][1..] == [b, c, d];
    assert [b, c, d][1..] == [c, d];
    ProductOfTwo(c, d);
    assert Product([b, c, d]) == b * (c * d);
  }

  // ---------------------------------------------------------------------
  // CNNTarget (models.py:230-250)

  /** The layers CNNTarget.__init__ registers, in registration order. For an
      `in_channels` other than 3 or 1 it registers none. */
  function TargetLayers(inChannels: int, nKernels: nat, outDim: nat): seq<(string, Layer)> {
    if inChannels == 3 then
      [ ("conv1", Conv2d(3, nKernels, 5)),
        ("pool", MaxPool2d(2, 2)),
        ("conv2", Conv2d(nKernels, 2 * nKernels, 5)),
        ("fc1", Linear(2 * nKernels * 5 * 5, 120, false)),
        ("fc2", Linear(120, 84, false)),
        ("fc3", Linear(84, outDim, false)) ]
    else if inChannels == 1 then
      [ ("conv1", Conv2d(1, nKernels, 3)),
        ("pool", MaxPool2d(2, 2)),
        ("conv2", Conv2d(nKernels, 2 * nKernels, 3)),
        ("conv3", Conv2d(2 * nKernels, 2 * 2 * nKernels, 3)),
        ("fc1", Linear(2 * 2 * nKernels * 3 * 3, 120, false)),
        ("fc2", Linear(120, 84, false)),
        ("fc3", Linear(84, outDim, false)) ]
    else []
  }

  /** The parameters one layer owns, with their shapes: Conv2d(in, out, k)
      owns a weight (out, in, k, k) and a bias (out); Linear(in, out) owns a
      weight (out, in) and a bias (out); ReLU and pooling own none. Spectral
      normalisation deletes a Linear's `weight` and registers `weight_orig`
      after the bias, so a normalised Linear lists its bias first. */
  function LayerParams(name: string, l: Layer): (ps: seq<(string, seq<nat>)>)
    ensures |ps| == if l.Conv2d? || l.Linear? then 2 else 0
  {
    match l
    case Conv2d(i, o, k) => [(name + ".weight", [o, i, k, k]), (name + ".bias", [o])]
    case Linear(i, o, spectral) =>
      if spectral then [(name + ".bias", [o]), (name + ".weight_orig", [o, i])]
      else [(name + ".weight", [o, i]), (name + ".bias", [o])]
    case ReLU => []
    case MaxPool2d(_, _) => []
  }

  /** The parameter names and shapes of a module list, in registration order
      (the order of `state_dict()` and `named_parameters()`). */
  function StateDictShapes(layers: seq<(string, Layer)>): seq<(string, seq<nat>)> {
    if layers == [] then []
    else LayerParams(layers[0].0, layers[0].1) + StateDictShapes(layers[1..])
  }

  // ---------------------------------------------------------------------
  // CNNHyper.__init__ (models.py:20-117)

  /** The projection heads CNNHyper.__init__ defines for an architecture,
      each a Linear(hidden_dim, width), by attribute name. */
  function Heads(a: Arch, nKernels: nat, outDim: nat, hiddenDim: nat, spec: bool): map<string, Layer> {
    var k := nKernels;
    match a
    case RGB =>
      map[ "c1_weights" := Linear(hiddenDim, k * 3 * 5 * 5, spec),
           "c1_bias" := Linear(hiddenDim, k, spec),
           "c2_weights" := Linear(hiddenDim, 2 * k * k * 5 * 5, spec),
           "c2_bias" := Linear(hiddenDim, 2 * k, spec),
           "l1_weights" := Linear(hiddenDim, 120 * 2 * k * 5 * 5, spec),
           "l1_bias" := Linear(hiddenDim, 120, spec),
           "l2_weights" := Linear(hiddenDim, 84 * 120, spec),
           "l2_bias" := Linear(hiddenDim, 84, spec),
           "l3_weights" := Linear(hiddenDim, outDim * 84, spec),
           "l3_bias" := Linear(hiddenDim, outDim, spec) ]
    case Grayscale =>
      map[ "c1_weights" := Linear(hiddenDim, k * 1 * 3 * 3, spec),
           "c1_bias" := Linear(hiddenDim, k, spec),
           "c2_weights" := Linear(hiddenDim, 2 * k * k * 3 * 3, spec),
           "c2_bias" := Linear(hiddenDim, 2 * k, spec),
           "c3_weights" := Linear(hiddenDim, 2 * 2 * k * 2 * k * 3 * 3, spec),
           "c3_bias" := Linear(hiddenDim, 2 * 2 * k, spec),
           "l1_weights" := Linear(hiddenDim, 120 * 2 * 2 * k * 3 * 3, spec),
           "l1_bias" := Linear(hiddenDim, 120, spec),
           "l2_weights" := Linear(hiddenDim, 84 * 120, spec),
           "l2_bias" := Linear(hiddenDim, 84, spec),
           "l3_weights" := Linear(hiddenDim, outDim * 84, spec),
           "l3_bias" := Linear(hiddenDim, outDim, spec) ]
  }

  /** The order in which __init__ registers the heads. */
  function HeadOrder(a: Arch): seq<string> {
    match a
    case RGB =>
      ["c1_weights", "c1_bias", "c2_weights", "c2_bias", "l1_weights", "l1_bias",
       "l2_weights", "l2_bias", "l3_weights", "l3_bias"]
    case Grayscale =>
      ["c1_weights", "c1_bias", "c2_weights", "c2_bias", "c3_weights", "c3_bias",
       "l1_weights", "l1_bias", "l2_weights", "l2_bias", "l3_weights", "l3_bias"]
  }

  /** The shared trunk: a Linear(embedding_dim, hidden_dim), then n_hidden
      pairs (ReLU, Linear(hidden_dim, hidden_dim)). */
  predicate IsTrunk(layers: seq<Layer>, embeddingDim: nat, hiddenDim: nat, spec: bool, nHidden: nat) {
    && |layers| == 1 + 2 * nHidden
    && layers[0] == Linear(embeddingDim, hiddenDim, spec)
    && forall i :: 1 <= i < |layers| ==>
         layers[i] == if i % 2 == 1 then ReLU else Linear(hiddenDim, hiddenDim, spec)
  }

  /** A constructed hypernetwork: its configuration, the trunk (`self.mlp`)
      and the heads (attributes c1_weights, ..., l3_bias) with their
      registration order. */
  datatype CNNHyper = CNNHyper(
    nNodes: nat,
    embeddingDim: nat,
    inChannels: int,
    nKernels: nat,
    outDim: nat,
    hiddenDim: nat,
    spec: bool,
    nHidden: nat,
    mlp: seq<Layer>,
    heads: map<string, Layer>,
    headOrder: seq<string>)
  {
    /** What __init__ leaves behind for this configuration. */
    predicate Valid() {
      && IsTrunk(mlp, embeddingDim, hiddenDim, spec, nHidden)
      && match ArchOf(inChannels)
         case Some(a) => heads == Heads(a, nKernels, outDim, hiddenDim, spec) && headOrder == HeadOrder(a)
         case None => heads == map[] && headOrder == []
    }

    /** `forward(idx)`: the embedding lookup raises for an index outside the
        table; an `in_channels` other than 3 or 1 leaves `weights` unbound;
        otherwise the generated keys with the shape of each tensor. */
    function Forward(idx: int): Result<seq<(string, seq<nat>)>> {
      if !(0 <= idx < nNodes) then Err(IndexError("index out of range in self"))
      else match ArchOf(inChannels)
        case None => Err(UnboundLocalError("weights"))
        case Some(a) => Generate(heads, ForwardRows(a, nKernels, outDim))
    }
  }

  /** CNNHyper.__init__. The trunk is built by appending to a list in a loop. */
  method Build(nNodes: nat, embeddingDim: nat, inChannels: int, nKernels: nat, outDim: nat,
               hiddenDim: nat, spec: bool, nHidden: nat) returns (h: CNNHyper)
    ensures h.Valid()
    ensures h.nNodes == nNodes && h.embeddingDim == embeddingDim && h.inChannels == inChannels
    ensures h.nKernels == nKernels && h.outDim == outDim && h.hiddenDim == hiddenDim
    ensures h.spec == spec && h.nHidden == nHidden
    ensures |h.mlp| == 1 + 2 * nHidden && h.mlp[0].Linear? && h.mlp[|h.mlp| - 1].Linear?
  {
    var layers := [Linear(embeddingDim, hiddenDim, spec)];
    var i := 0;
    while i < nHidden
      invariant 0 <= i <= nHidden
      invariant IsTrunk(layers, embeddingDim, hiddenDim, spec, i)
    {
      layers := layers + [ReLU];
      layers := layers + [Linear(hiddenDim, hiddenDim, spec)];
      i := i + 1;
    }
    var heads: map<string, Layer> := map[];
    var order: seq<string> := [];
    if inChannels == 3 {
      heads, order := Heads(RGB, nKernels, outDim, hiddenDim, spec), HeadOrder(RGB);
    } else if inChannels == 1 {
      heads, order := Heads(Grayscale, nKernels, outDim, hiddenDim, spec), HeadOrder(Grayscale);
    }
    h := CNNHyper(nNodes, embeddingDim, inChannels, nKernels, outDim, hiddenDim, spec, nHidden,
                  layers, heads, order);
  }

  // ---------------------------------------------------------------------
  // CNNHyper.forward (models.py:119-182)

  /** How a head's output is reshaped: to explicit dimensions, or `view(-1)`. */
  datatype ViewSpec = Dims(dims: seq<nat>) | Flat

  /** `view` on a head output holding `numel` elements: explicit dimensions
      must multiply to `numel`; `view(-1)` is ambiguous, and raises, when the
      tensor has no elements. */
  function View(numel: nat, v: ViewSpec): (r: Result<seq<nat>>)
    ensures r.Ok? ==> Product(r.value) == numel
    ensures r.Ok? <==> (if v.Flat? then numel != 0 else Product(v.dims) == numel)
  {
    match v
    case Flat =>
      if numel == 0 then Err(RuntimeError("cannot reshape tensor of 0 elements into shape [-1]"))
      else (assert [numel][1..] == []; Ok([numel]))
    case Dims(d) =>
      if Product(d) == numel then Ok(d)
      else Err(RuntimeError("shape is invalid for input size"))
  }

  /** The rows of the OrderedDict `forward` builds: generated key, the head
      it applies, and the view of that head's output. */
  function ForwardRows(a: Arch, nKernels: nat, outDim: nat): seq<(string, string, ViewSpec)> {
    var k := nKernels;
    match a
    case RGB =>
      [ ("conv1.weight", "c1_weights", Dims([k, 3, 5, 5])),
        ("conv1.bias", "c1_bias", Flat),
        ("conv2.weight", "c2_weights", Dims([2 * k, k, 5, 5])),
        ("conv2.bias", "c2_bias", Flat),
        ("fc1.weight", "l1_weights", Dims([120, 2 * k * 5 * 5])),
        ("fc1.bias", "l1_bias", Flat),
        ("fc2.weight", "l2_weights", Dims([84, 120])),
        ("fc2.bias", "l2_bias", Flat),
        ("fc3.weight", "l3_weights", Dims([outDim, 84])),
        ("fc3.bias", "l3_bias", Flat) ]
    case Grayscale =>
      [ ("conv1.weight", "c1_weights", Dims([k, 1, 3, 3])),
        ("conv1.bias", "c1_bias", Flat),
        ("conv2.weight", "c2_weights", Dims([2 * k, k, 3, 3])),
        ("conv2.bias", "c2_bias", Flat),
        ("conv3.weight", "c3_weights", Dims([2 * 2 * k, 2 * k, 3, 3])),
        ("conv3.bias", "c3_bias", Flat),
        ("fc1.weight", "l1_weights", Dims([120, 2 * 2 * k * 3 * 3])),
        ("fc1.bias", "l1_bias", Flat),
        ("fc2.weight", "l2_weights", Dims([84, 120])),
        ("fc2.bias", "l2_bias", Flat),
        ("fc3.weight", "l3_weights", Dims([outDim, 84])),
        ("fc3.bias", "l3_bias", Flat) ]
  }

  /** Width of a head's output. */
  function Width(l: Layer): nat {
    if l.Linear? then l.outFeatures else 0
  }

  /** One row of `forward`: apply the head (a missing attribute raises), then view its output. */
  function ViewRow(heads: map<string, Layer>, row: (string, string, ViewSpec)): Result<(string, seq<nat>)> {
    if row.1 !in heads then Err(AttributeError(row.1))
    else
      var shape :- View(Width(heads[row.1]), row.2);
      Ok((row.0, shape))
  }

  /** Build the OrderedDict row by row; the first failing row raises. */
  function Generate(heads: map<string, Layer>, rows: seq<(string, string, ViewSpec)>): Result<seq<(string, seq<nat>)>> {
    if rows == [] then Ok([])
    else
      var first :- ViewRow(heads, rows[0]);
      var rest :- Generate(heads, rows[1..]);
      Ok([first] + rest)
  }

  /** The values the hypernetwork generates: given its parameter values, a
      client index, a generated key and a position, the element at that
      position of the tensor under that key. The arithmetic of the trunk
      and heads is not modelled; how many elements there are is. */
  type Generator = (seq<Tensor>, int, string, nat) -> real

  /** One optimiser update of a hypernetwork (the vector-Jacobian product
      `autograd.grad(outputs, parameters, grad_outputs)`, gradient clipping
      and the optimiser step): from its parameter values, the generated
      tensors and the gradient outputs to its new parameter values. The
      numerics are not modelled. */
  type Stepper = (seq<Tensor>, seq<Tensor>, seq<Tensor>) -> seq<Tensor>

  /** `weights_to_clients(cid)`, i.e. `hnet(tensor([cid]))` with tensor values:
      it fails exactly when `forward` does, and otherwise holds the generated
      keys, in order, each with a tensor of as many elements as the view
      `forward` gives it, element by element the generated values. */
  function ClientWeights(h: CNNHyper, state: seq<Tensor>, generate: Generator, cid: int): (r: Result<WeightSet>)
    ensures r.Ok? <==> h.Forward(cid).Ok?
    ensures r.Ok? ==> Keys(r.value) == Keys(h.Forward(cid).value)
    ensures r.Ok? ==> forall i :: 0 <= i < |r.value| ==> |r.value[i].1| == Product(h.Forward(cid).value[i].1)
    ensures r.Ok? ==> forall i, j :: 0 <= i < |r.value| && 0 <= j < |r.value[i].1| ==>
                        r.value[i].1[j] == generate(state, cid, r.value[i].0, j)
  {
    var shapes :- h.Forward(cid);
    Ok(seq(|shapes|, i requires 0 <= i < |shapes| =>
      (shapes[i].0, seq(Product(shapes[i].1), j requires 0 <= j => generate(state, cid, shapes[i].0, j)))))
  }

  // ---------------------------------------------------------------------
  // CNNHyper.named_parameters()

  /** `str(n)` for a natural number: decimal digits only. */
  function NatToString(n: nat): (s: string)
    ensures |s| >= 1
    ensures forall i :: 0 <= i < |s| ==> '0' <= s[i] <= '9'
  {
    if n < 10 then [Digit(n)] else NatToString(n / 10) + [Digit(n % 10)]
  }

  function Digit(d: nat): (c: char)
    requires d < 10
    ensures '0' <= c <= '9'
  {
    (48 + d) as char
  }

  /** Parameter names of the trunk `mlp`, a Sequential whose children are
      named by their position. */
  function TrunkParamNames(mlp: seq<Layer>, position: nat): seq<string>
    decreases |mlp|
  {
    if mlp == [] then []
    else Keys(LayerParams("mlp." + NatToString(position), mlp[0])) + TrunkParamNames(mlp[1..], position + 1)
  }

  /** Parameter names of the heads, in registration order. */
  function HeadParamNames(order: seq<string>, heads: map<string, Layer>): seq<string> {
    if order == [] then []
    else (if order[0] in heads then Keys(LayerParams(order[0], heads[order[0]])) else [])
         + HeadParamNames(order[1..], heads)
  }

  /** `named_parameters()` of a hypernetwork, in registration order: the
      embedding table, the trunk, then the heads. */
  function ParamNames(h: CNNHyper): (names: seq<string>)
    ensures |names| >= 1 && names[0] == "embeddings.weight"
  {
    ["embeddings.weight"] + TrunkParamNames(h.mlp, 0) + HeadParamNames(h.headOrder, h.heads)
  }
}

module ModelsProofs {
  import opened Common
  import opened Models

  /** The dotted parameter names torch forms for the target's layers. */
  lemma DottedNames()
    ensures "conv1" + ".weight" == "conv1.weight" && "conv1" + ".bias" == "conv1.bias"
    ensures "conv2" + ".weight" == "conv2.weight" && "conv2" + ".bias" == "conv2.bias"
    ensures "conv3" + ".weight" == "conv3.weight" && "conv3" + ".bias" == "conv3.bias"
    ensures "fc1" + ".weight" == "fc1.weight" && "fc1" + ".bias" == "fc1.bias"
    ensures "fc2" + ".weight" == "fc2.weight" && "fc2" + ".bias" == "fc2.bias"
    ensures "fc3" + ".weight" == "fc3.weight" && "fc3" + ".bias" == "fc3.bias"
  {
  }

  lemma {:induction false} TargetShapesRGB(k: nat, o: nat)
    ensures StateDictShapes(TargetLayers(3, k, o)) ==
      [ ("conv1.weight", [k, 3, 5, 5]), ("conv1.bias", [k]),
        ("conv2.weight", [2 * k, k, 5, 5]), ("conv2.bias", [2 * k]),
        ("fc1.weight", [120, 2 * k * 5 * 5]), ("fc1.bias", [120]),
        ("fc2.weight", [84, 120]), ("fc2.bias", [84]),
        ("fc3.weight", [o, 84]), ("fc3.bias", [o]) ]
  {
    var L := TargetLayers(3, k, o);
    assert StateDictShapes(L[6..]) == [];
    assert StateDictShapes(L[5..]) == LayerParams("fc3", L[5].1);
    assert StateDictShapes(L[4..]) == LayerParams("fc2", L[4].1) + StateDictShapes(L[5..]);
    assert StateDictShapes(L[3..]) == LayerParams("fc1", L[3].1) + StateDictShapes(L[4..]);
    assert StateDictShapes(L[2..]) == LayerParams("conv2", L[2].1) + StateDictShapes(L[3..]);
    assert StateDictShapes(L[1..]) == StateDictShapes(L[2..]);
    assert StateDictShapes(L) == LayerParams("conv1", L[0].1) + StateDictShapes(L[1..]);
    DottedNames();
    assert LayerParams("conv1", L[0].1) == [("conv1.weight", [k, 3, 5, 5]), ("conv1.bias", [k])];
    assert LayerParams("conv2", L[2].1) == [("conv2.weight", [2 * k, k, 5, 5]), ("conv2.bias", [2 * k])];
    assert LayerParams("fc1", L[3].1) == [("fc1.weight", [120, 2 * k * 5 * 5]), ("fc1.bias", [120])];
    assert LayerParams("fc2", L[4].1) == [("fc2.weight", [84, 120]), ("fc2.bias", [84])];
    assert LayerParams("fc3", L[5].1) == [("fc3.weight", [o, 84]), ("fc3.bias", [o])];
  }

  lemma {:induction false} TargetShapesGrayscale(k: nat, o: nat)
    ensures StateDictShapes(TargetLayers(1, k, o)) ==
      [ ("conv1.weight", [k, 1, 3, 3]), ("conv1.bias", [k]),
        ("conv2.weight", [2 * k, k, 3, 3]), ("conv2.bias", [2 * k]),
        ("conv3.weight", [2 * 2 * k, 2 * k, 3, 3]), ("conv3.bias", [2 * 2 * k]),
        ("fc1.weight", [120, 2 * 2 * k * 3 * 3]), ("fc1.bias", [120]),
        ("fc2.weight", [84, 120]), ("fc2.bias", [84]),
        ("fc3.weight", [o, 84]), ("fc3.bias", [o]) ]
  {
    var L := TargetLayers(1, k, o);
    DottedNames();
    assert StateDictShapes(L[7..]) == [];
    assert StateDictShapes(L[6..]) == LayerParams("fc3", L[6].1);
    assert StateDictShapes(L[5..]) == LayerParams("fc2", L[5].1) + StateDictShapes(L[6..]);
    assert StateDictShapes(L[4..]) == LayerParams("fc1", L[4].1) + StateDictShapes(L[5..]);
    assert StateDictShapes(L[3..]) == LayerParams("conv3", L[3].1) + StateDictShapes(L[4..]);
    assert StateDictShapes(L[2..]) == LayerParams("conv2", L[2].1) + StateDictShapes(L[3..]);
    assert StateDictShapes(L[1..]) == StateDictShapes(L[2..]);
    assert StateDictShapes(L) == LayerParams("conv1", L[0].1) + StateDictShapes(L[1..]);
  }

  /** If every row views successfully, the OrderedDict holds exactly those
      (key, shape) entries, in row order. */
  lemma {:induction false} GenerateAllOk(heads: map<string, Layer>, rows: seq<(string, string, ViewSpec)>,
                                         shapes: seq<(string, seq<nat>)>)
    requires |rows| == |shapes|
    requires forall i :: 0 <= i < |rows| ==> ViewRow(heads, rows[i]) == Ok(shapes[i])
    ensures Generate(heads, rows) == Ok(shapes)
  {
    if rows != [] {
      assert ViewRow(heads, rows[0]) == Ok(shapes[0]);
      GenerateAllOk(heads, rows[1..], shapes[1..]);
      assert shapes == [shapes[0]] + shapes[1..];
    }
  }

  /** One failing row makes the whole construction raise. */
  lemma {:induction false} GenerateFailsAtRow(heads: map<string, Layer>, rows: seq<(string, string, ViewSpec)>, i: nat)
    requires i < |rows| && ViewRow(heads, rows[i]).Err?
    ensures Generate(heads, rows).Err?
  {
    if i > 0 && ViewRow(heads, rows[0]).Ok? {
      GenerateFailsAtRow(heads, rows[1..], i - 1);
    }
  }

  /** RGB: every head's width is the product of the shape its output is viewed
      into, and the generated shapes are those of CNNTarget(3, k, o). */
  lemma RGBForwardMatchesTarget(k: nat, o: nat, hiddenDim: nat, spec: bool)
    requires k >= 1 && o >= 1
    ensures Generate(Heads(RGB, k, o, hiddenDim, spec), ForwardRows(RGB, k, o))
            == Ok(StateDictShapes(TargetLayers(3, k, o)))
  {
    var H := Heads(RGB, k, o, hiddenDim, spec);
    var rows := ForwardRows(RGB, k, o);
    var T := StateDictShapes(TargetLayers(3, k, o));
    TargetShapesRGB(k, o);
    forall i | 0 <= i < |rows| ensures ViewRow(H, rows[i]) == Ok(T[i]) {
      RGBRowView(k, o, hiddenDim, spec, i);
    }
    GenerateAllOk(H, rows, T);
  }

  /** One RGB row: its head's output viewed into the target's shape. */
  lemma RGBRowView(k: nat, o: nat, hiddenDim: nat, spec: bool, i: nat)
    requires k >= 1 && o >= 1 && i < 10
    ensures ViewRow(Heads(RGB, k, o, hiddenDim, spec), ForwardRows(RGB, k, o)[i])
            == Ok([ ("conv1.weight", [k, 3, 5, 5]), ("conv1.bias", [k]),
                    ("conv2.weight", [2 * k, k, 5, 5]), ("conv2.bias", [2 * k]),
                    ("fc1.weight", [120, 2 * k * 5 * 5]), ("fc1.bias", [120]),
                    ("fc2.weight", [84, 120]), ("fc2.bias", [84]),
                    ("fc3.weight", [o, 84]), ("fc3.bias", [o]) ][i])
  {
    RGBRowWidth(k, o, hiddenDim, spec, i);
  }

  /** Grayscale: the same, with the third convolution; its head c3 has width
      2*2*k*2*k*3*3, which is the element count of (4k, 2k, 3, 3). */
  lemma GrayscaleForwardMatchesTarget(k: nat, o: nat, hiddenDim: nat, spec: bool)
    requires k >= 1 && o >= 1
    ensures Generate(Heads(Grayscale, k, o, hiddenDim, spec), ForwardRows(Grayscale, k, o))
            == Ok(StateDictShapes(TargetLayers(1, k, o)))
  {
    var H := Heads(Grayscale, k, o, hiddenDim, spec);
    var rows := ForwardRows(Grayscale, k, o);
    var T := StateDictShapes(TargetLayers(1, k, o));
    TargetShapesGrayscale(k, o);
    forall i | 0 <= i < |rows| ensures ViewRow(H, rows[i]) == Ok(T[i]) {
      GrayscaleRowView(k, o, hiddenDim, spec, i);
    }
    GenerateAllOk(H, rows, T);
  }

  /** One Grayscale row: its head's output viewed into the target's shape. */
  lemma GrayscaleRowView(k: nat, o: nat, hiddenDim: nat, spec: bool, i: nat)
    requires k >= 1 && o >= 1 && i < 12
    ensures ViewRow(Heads(Grayscale, k, o, hiddenDim, spec), ForwardRows(Grayscale, k, o)[i])
            == Ok([ ("conv1.weight", [k, 1, 3, 3]), ("conv1.bias", [k]),
                    ("conv2.weight", [2 * k, k, 3, 3]), ("conv2.bias", [2 * k]),
                    ("conv3.weight", [2 * 2 * k, 2 * k, 3, 3]), ("conv3.bias", [2 * 2 * k]),
                    ("fc1.weight", [120, 2 * 2 * k * 3 * 3]), ("fc1.bias", [120]),
                    ("fc2.weight", [84, 120]), ("fc2.bias", [84]),
                    ("fc3.weight", [o, 84]), ("fc3.bias", [o]) ][i])
  {
    GrayscaleRowWidth(k, o, hiddenDim, spec, i);
  }

  /** With no kernels (a bias of width 0) or no outputs, some `view(-1)` has
      nothing to reshape, and `forward` raises. */
  lemma ForwardFailsWhenEmpty(a: Arch, k: nat, o: nat, hiddenDim: nat, spec: bool)
    requires k == 0 || o == 0
    ensures Generate(Heads(a, k, o, hiddenDim, spec), ForwardRows(a, k, o)).Err?
  {
    var H := Heads(a, k, o, hiddenDim, spec);
    var rows := ForwardRows(a, k, o);
    if k == 0 {
      GenerateFailsAtRow(H, rows, 1);
    } else {
      GenerateFailsAtRow(H, rows, |rows| - 1);
    }
  }

  /** The hypernetwork's output for any client: it exists exactly when the
      index is in the embedding table, `in_channels` is 3 or 1, and there is
      at least one kernel and one output; its keys and shapes are those of
      CNNTarget's parameters and do not depend on the client index. */
  lemma ForwardMatchesTarget(h: CNNHyper, idx: int)
    requires h.Valid()
    ensures h.Forward(idx).Ok? <==>
      0 <= idx < h.nNodes && (h.inChannels == 3 || h.inChannels == 1) && h.nKernels >= 1 && h.outDim >= 1
    ensures h.Forward(idx).Ok? ==>
      h.Forward(idx).value == StateDictShapes(TargetLayers(h.inChannels, h.nKernels, h.outDim))
  {
    if 0 <= idx < h.nNodes && ArchOf(h.inChannels).Some? {
      var a := ArchOf(h.inChannels).value;
      if h.nKernels >= 1 && h.outDim >= 1 {
        if a == RGB {
          RGBForwardMatchesTarget(h.nKernels, h.outDim, h.hiddenDim, h.spec);
        } else {
          GrayscaleForwardMatchesTarget(h.nKernels, h.outDim, h.hiddenDim, h.spec);
        }
      } else {
        ForwardFailsWhenEmpty(a, h.nKernels, h.outDim, h.hiddenDim, h.spec);
      }
    }
  }

  /** The generated keys, in order: ten for RGB; for Grayscale the same with
      conv3.weight and conv3.bias inserted right after conv2.bias. */
  lemma GeneratedKeys(h: CNNHyper, idx: int)
    requires h.Valid() && h.Forward(idx).Ok?
    ensures h.inChannels == 3 ==>
              Keys(h.Forward(idx).value) ==
                ["conv1.weight", "conv1.bias", "conv2.weight", "conv2.bias", "fc1.weight", "fc1.bias",
                 "fc2.weight", "fc2.bias", "fc3.weight", "fc3.bias"]
    ensures h.inChannels == 1 ==>
              Keys(h.Forward(idx).value) ==
                ["conv1.weight", "conv1.bias", "conv2.weight", "conv2.bias", "conv3.weight", "conv3.bias",
                 "fc1.weight", "fc1.bias", "fc2.weight", "fc2.bias", "fc3.weight", "fc3.bias"]
  {
    ForwardMatchesTarget(h, idx);
    if h.inChannels == 3 {
      TargetShapesRGB(h.nKernels, h.outDim);
    } else {
      TargetShapesGrayscale(h.nKernels, h.outDim);
    }
  }

  /** A layer's parameter names add only ".", "weight", "weight_orig" and
      "bias" to the layer's name. */
  lemma LayerParamNamesWithoutD(name: string, l: Layer)
    requires 'd' !in name
    ensures forall n :: n in Keys(LayerParams(name, l)) ==> 'd' !in n
  {
    assert 'd' !in ".weight" && 'd' !in ".bias" && 'd' !in "." && 'd' !in "weight_orig" && 'd' !in "weight";
  }

  lemma {:induction false} TrunkParamNamesWithoutD(mlp: seq<Layer>, position: nat)
    ensures forall n :: n in TrunkParamNames(mlp, position) ==> 'd' !in n
    decreases |mlp|
  {
    if mlp != [] {
      var digits := NatToString(position);
      assert 'd' !in digits by {
        forall i | 0 <= i < |digits| ensures digits[i] != 'd' {}
      }
      assert 'd' !in "mlp.";
      LayerParamNamesWithoutD("mlp." + digits, mlp[0]);
      TrunkParamNamesWithoutD(mlp[1..], position + 1);
    }
  }

  lemma {:induction false} HeadParamNamesWithoutD(order: seq<string>, heads: map<string, Layer>)
    requires forall n :: n in order ==> 'd' !in n
    ensures forall n :: n in HeadParamNames(order, heads) ==> 'd' !in n
  {
    if order != [] {
      if order[0] in heads {
        LayerParamNamesWithoutD(order[0], heads[order[0]]);
      }
      HeadParamNamesWithoutD(order[1..], heads);
    }
  }

  /** No head is named with a 'd'. */
  lemma HeadOrderWithoutD(a: Arch)
    ensures forall n :: n in HeadOrder(a) ==> 'd' !in n
  {
    assert 'd' !in "c1_weights" && 'd' !in "c1_bias" && 'd' !in "c2_weights" && 'd' !in "c2_bias";
    assert 'd' !in "c3_weights" && 'd' !in "c3_bias" && 'd' !in "l1_weights" && 'd' !in "l1_bias";
    assert 'd' !in "l2_weights" && 'd' !in "l2_bias" && 'd' !in "l3_weights" && 'd' !in "l3_bias";
  }

  /** Only the embedding table's name contains a 'd': the trunk's and the
      heads' parameter names contain none. */
  lemma ParamNamesAfterEmbeddingWithoutD(h: CNNHyper)
    requires h.Valid()
    ensures forall n :: n in ParamNames(h)[1..] ==> 'd' !in n
  {
    TrunkParamNamesWithoutD(h.mlp, 0);
    if h.headOrder != [] {
      HeadOrderWithoutD(if h.inChannels == 3 then RGB else Grayscale);
    }
    HeadParamNamesWithoutD(h.headOrder, h.heads);
    var trunk, heads := TrunkParamNames(h.mlp, 0), HeadParamNames(h.headOrder, h.heads);
    assert ParamNames(h) == ["embeddings.weight"] + (trunk + heads);
    assert ParamNames(h)[1..] == trunk + heads;
  }

  /** The generated weights have the keys of CNNTarget's parameters, in
      order, and each tensor has as many elements as the target's parameter
      of that name. */
  lemma ClientWeightsMatchTarget(h: CNNHyper, state: seq<Tensor>, generate: Generator, cid: int)
    requires h.Valid() && ClientWeights(h, state, generate, cid).Ok?
    ensures Keys(ClientWeights(h, state, generate, cid).value)
            == Keys(StateDictShapes(TargetLayers(h.inChannels, h.nKernels, h.outDim)))
    ensures var w := ClientWeights(h, state, generate, cid).value;
            var target := StateDictShapes(TargetLayers(h.inChannels, h.nKernels, h.outDim));
            |w| == |target| && forall i :: 0 <= i < |w| ==> |w[i].1| == Product(target[i].1)
  {
    ForwardMatchesTarget(h, cid);
  }

  /** No key is generated twice, so the generated mapping loses nothing. */
  lemma GeneratedKeysDistinct(h: CNNHyper, state: seq<Tensor>, generate: Generator, cid: int)
    requires h.Valid() && ClientWeights(h, state, generate, cid).Ok?
    ensures Distinct(Keys(ClientWeights(h, state, generate, cid).value))
  {
    GeneratedKeys(h, cid);
    var keys := Keys(ClientWeights(h, state, generate, cid).value);
    if h.inChannels == 3 {
      RGBKeysDistinct(keys);
    } else {
      GrayscaleKeysDistinct(keys);
    }
  }

  lemma RGBKeysDistinct(keys: seq<string>)
    requires keys == ["conv1.weight", "conv1.bias", "conv2.weight", "conv2.bias", "fc1.weight", "fc1.bias",
                      "fc2.weight", "fc2.bias", "fc3.weight", "fc3.bias"]
    ensures Distinct(keys)
  {
  }

  lemma GrayscaleKeysDistinct(keys: seq<string>)
    requires keys == ["conv1.weight", "conv1.bias", "conv2.weight", "conv2.bias", "conv3.weight", "conv3.bias",
                      "fc1.weight", "fc1.bias", "fc2.weight", "fc2.bias", "fc3.weight", "fc3.bias"]
    ensures Distinct(keys)
  {
  }

  /** The kernel size of an architecture: 5 for RGB, 3 for Grayscale. */
  function KernelSize(a: Arch): nat {
    match a
    case RGB => 5
    case Grayscale => 3
  }

  /** The rows of `forward` whose head exists, is a Linear from the hidden
      width, and has as many outputs as its view has elements. */
  predicate HeadFitsView(H: map<string, Layer>, row: (string, string, ViewSpec), hiddenDim: nat, spec: bool) {
    && row.1 in H && H[row.1].Linear? && H[row.1].inFeatures == hiddenDim && H[row.1].spectral == spec
    && (row.2.Dims? ==> Width(H[row.1]) == Product(row.2.dims))
  }

  /** Every head `forward` applies exists, and its width is the number of
      elements of the shape its output is viewed into (`view(-1)` keeps the
      width as it is). */
  lemma HeadWidthsMatchViews(a: Arch, k: nat, o: nat, hiddenDim: nat, spec: bool)
    ensures var H, rows := Heads(a, k, o, hiddenDim, spec), ForwardRows(a, k, o);
      forall i :: 0 <= i < |rows| ==> HeadFitsView(H, rows[i], hiddenDim, spec)
  {
    if a == RGB {
      RGBHeadWidths(k, o, hiddenDim, spec);
    } else {
      GrayscaleHeadWidths(k, o, hiddenDim, spec);
    }
  }

  lemma RGBHeadWidths(k: nat, o: nat, hiddenDim: nat, spec: bool)
    ensures var H, rows := Heads(RGB, k, o, hiddenDim, spec), ForwardRows(RGB, k, o);
      forall i :: 0 <= i < |rows| ==> HeadFitsView(H, rows[i], hiddenDim, spec)
  {
    forall i | 0 <= i < |ForwardRows(RGB, k, o)|
      ensures HeadFitsView(Heads(RGB, k, o, hiddenDim, spec), ForwardRows(RGB, k, o)[i], hiddenDim, spec)
    {
      RGBRowWidth(k, o, hiddenDim, spec, i);
    }
  }

  lemma RGBRowWidth(k: nat, o: nat, hiddenDim: nat, spec: bool, i: nat)
    requires i < |ForwardRows(RGB, k, o)|
    ensures HeadFitsView(Heads(RGB, k, o, hiddenDim, spec), ForwardRows(RGB, k, o)[i], hiddenDim, spec)
  {
    if i == 0 {
      ProductOfFour(k, 3, 5, 5);
    } else if i == 2 {
      ProductOfFour(2 * k, k, 5, 5);
    } else if i == 4 {
      ProductOfTwo(120, 2 * k * 5 * 5);
    } else if i == 6 {
      ProductOfTwo(84, 120);
    } else if i == 8 {
      ProductOfTwo(o, 84);
    } else {
      assert i == 1 || i == 3 || i == 5 || i == 7 || i == 9;
    }
  }

  lemma GrayscaleHeadWidths(k: nat, o: nat, hiddenDim: nat, spec: bool)
    ensures var H, rows := Heads(Grayscale, k, o, hiddenDim, spec), ForwardRows(Grayscale, k, o);
      forall i :: 0 <= i < |rows| ==> HeadFitsView(H, rows[i], hiddenDim, spec)
  {
    forall i | 0 <= i < |ForwardRows(Grayscale, k, o)|
      ensures HeadFitsView(Heads(Grayscale, k, o, hiddenDim, spec), ForwardRows(Grayscale, k, o)[i], hiddenDim, spec)
    {
      GrayscaleRowWidth(k, o, hiddenDim, spec, i);
    }
  }

  lemma GrayscaleRowWidth(k: nat, o: nat, hiddenDim: nat, spec: bool, i: nat)
    requires i < |ForwardRows(Grayscale, k, o)|
    ensures HeadFitsView(Heads(Grayscale, k, o, hiddenDim, spec), ForwardRows(Grayscale, k, o)[i], hiddenDim, spec)
  {
    if i == 0 {
      ProductOfFour(k, 1, 3, 3);
    } else if i == 2 {
      ProductOfFour(2 * k, k, 3, 3);
    } else if i == 4 {
      ProductOfFour(2 * 2 * k, 2 * k, 3, 3);
      assert (2 * 2 * k) * (2 * k) * 3 * 3 == 2 * 2 * k * 2 * k * 3 * 3;
    } else if i == 6 {
      ProductOfTwo(120, 2 * 2 * k * 3 * 3);
    } else if i == 8 {
      ProductOfTwo(84, 120);
    } else if i == 10 {
      ProductOfTwo(o, 84);
    } else {
      assert i == 1 || i == 3 || i == 5 || i == 7 || i == 9 || i == 11;
    }
  }

  /** Every convolution uses the architecture's kernel size, both in the
      target's layers and in the views of the generated convolution weights. */
  lemma KernelSizes(a: Arch, k: nat, o: nat)
    ensures var T := TargetLayers(InChannels(a), k, o);
      forall i :: 0 <= i < |T| && T[i].1.Conv2d? ==> T[i].1.kernelSize == KernelSize(a)
    ensures var rows := ForwardRows(a, k, o);
      forall i :: 0 <= i < |rows| && rows[i].2.Dims? && |rows[i].2.dims| == 4 ==>
        rows[i].2.dims[2] == rows[i].2.dims[3] == KernelSize(a)
  {
  }
}
