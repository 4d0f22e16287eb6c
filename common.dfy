/** Values shared by the hypernetwork, the strategy and the server: Python's
    exceptions as an error datatype, and the Flower message types the server
    and strategy exchange with clients. Tensor contents are opaque numbers:
    only their order and grouping matter to the model. */
module Common {

  datatype Option<+T> = None | Some(value: T)

  /** The exceptions the modelled code can raise. */
  datatype PyError =
    | IndexError(what: string)
    | KeyError(key: string)
    | AttributeError(name: string)
    | TypeError(message: string)
    | UnboundLocalError(name: string)
    | RuntimeError(message: string)
    | ZeroDivisionError
    | ValueError(message: string)
    | ClientError(message: string)  // raised by a client call (transport failure, timeout)

  /** A Python computation either returns a value or raises. */
  datatype Result<+T> = Ok(value: T) | Err(error: PyError) {
    predicate IsFailure() { Err? }
    function PropagateFailure<U>(): Result<U>
      requires Err?
    {
      Err(error)
    }
    function Extract(): T
      requires Ok?
    {
      value
    }
  }

  /** A flattened ndarray (or tensor); its shape is carried by the key it is stored under. */
  type Tensor = seq<real>

  /** An ordered mapping from layer name to tensor (an OrderedDict of weights). */
  type WeightSet = seq<(string, Tensor)>

  /** flwr.common.Parameters: the wire form of a list of ndarrays. */
  datatype Parameters = Parameters(tensors: seq<Tensor>, tensorType: string)

  /** Metric and configuration dictionaries; every scalar is kept as a number. */
  type Metrics = map<string, real>
  type Config = map<string, int>

  /** A client handle; `cid` is the client's index (the source parses it with int()). */
  datatype ClientProxy = ClientProxy(cid: int)

  datatype FitIns = FitIns(parameters: Parameters, config: Config)

  /** The server creates evaluation instructions with `parameters=None` and fills them in later. */
  datatype EvaluateIns = EvaluateIns(parameters: Option<Parameters>, config: Config)

  /** flwr.common.Code: the status a client reports. */
  datatype Code =
    | OK
    | GetPropertiesNotImplemented
    | GetParametersNotImplemented
    | FitNotImplemented
    | EvaluateNotImplemented

  /** FitRes and EvaluateRes; both carry a status. */
  datatype ClientRes =
    | FitRes(status: Code, parameters: Parameters, numExamples: nat, metrics: Metrics)
    | EvaluateRes(status: Code, loss: real, numExamples: nat, metrics: Metrics)

  /** What a client call does: raise, or return a result. */
  datatype ClientReply = Threw(exception: PyError) | Returned(res: ClientRes)

  /** A finished future of `fit_client` / `evaluate_client`: it raised, or it
      returned the pair (client, result). */
  datatype Future = Raised(exception: PyError) | Completed(client: ClientProxy, res: ClientRes)

  /** An entry of the failures list: an exception, or a (client, result) pair whose status is not OK. */
  datatype Failure = Exception(exception: PyError) | NotOk(client: ClientProxy, res: ClientRes)

  /** ndarrays_to_parameters: keeps the arrays and their order. */
  function NdarraysToParameters(arrays: seq<Tensor>): (p: Parameters)
    ensures p.tensors == arrays && p.tensorType == "numpy.ndarray"
  {
    Parameters(arrays, "numpy.ndarray")
  }

  /** parameters_to_ndarrays, applied to an optional Parameters: reading
      `.tensors` of None raises AttributeError. */
  function ParametersToNdarrays(p: Option<Parameters>): (r: Result<seq<Tensor>>)
    ensures r.Err? <==> p.None?
    ensures p.Some? ==> r == Ok(p.value.tensors)
  {
    match p
    case None => Err(AttributeError("tensors"))
    case Some(q) => Ok(q.tensors)
  }

  /** Serialising arrays and reading them back gives the same arrays in the same order. */
  lemma ParametersRoundTrip(arrays: seq<Tensor>)
    ensures ParametersToNdarrays(Some(NdarraysToParameters(arrays))) == Ok(arrays)
  {
  }

  /** The values of an ordered mapping, in order (`[v for _, v in d.items()]`). */
  function Values(w: WeightSet): (vs: seq<Tensor>)
    ensures |vs| == |w| && forall i :: 0 <= i < |w| ==> vs[i] == w[i].1
  {
    seq(|w|, i requires 0 <= i < |w| => w[i].1)
  }

  /** `zip(keys, values)`: pairs by position, as long as the shorter input. */
  function Zip<V>(keys: seq<string>, values: seq<V>): (z: seq<(string, V)>)
    ensures |z| == Min(|keys|, |values|)
    ensures forall i :: 0 <= i < |z| ==> z[i] == (keys[i], values[i])
  {
    seq(Min(|keys|, |values|), i requires 0 <= i < Min(|keys|, |values|) => (keys[i], values[i]))
  }

  /** Python's `min` of two integers. */
  function Min(a: int, b: int): (m: int)
    ensures m <= a && m <= b && (m == a || m == b)
  {
    if a <= b then a else b
  }

  /** Keys that occur once each, as in a dict. */
  predicate Distinct(keys: seq<string>) {
    forall i, j :: 0 <= i < j < |keys| ==> keys[i] != keys[j]
  }

  /** The keys of an ordered mapping (or the first components of a list of
      pairs), in order. */
  function Keys<K, V>(w: seq<(K, V)>): (ks: seq<K>)
    ensures |ks| == |w| && forall i :: 0 <= i < |w| ==> ks[i] == w[i].0
  {
    seq(|w|, i requires 0 <= i < |w| => w[i].0)
  }
}
