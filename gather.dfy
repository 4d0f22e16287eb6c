/** The scatter/gather of server.py (fit_clients, evaluate_clients and the
    two `_handle_finished_future_*` helpers): every selected client is called
    once, the server waits for all calls with no timeout, and each finished
    call is sorted into `results` or `failures`. The thread pool itself is
    not modelled: a round's finished calls are given as a sequence, in the
    (arbitrary) order in which the source iterates over the finished set. */
module Gather {
  import opened Common

  /** A finished call belongs in `results` exactly when it returned and its status is OK. */
  predicate IsResult(f: Future) {
    f.Completed? && f.res.status == OK
  }

  /** The entry a non-result future becomes in `failures`. */
  function AsFailure(f: Future): (e: Failure)
    requires !IsResult(f)
    ensures e.Exception? <==> f.Raised?
    ensures e.NotOk? ==> e.client == f.client && e.res == f.res && e.res.status != OK
  {
    match f
    case Raised(x) => Exception(x)
    case Completed(c, r) => NotOk(c, r)
  }

  /** The `results` list after handling the futures of `fs` in order. */
  function Successes(fs: seq<Future>): (rs: seq<(ClientProxy, ClientRes)>)
    ensures |rs| <= |fs|
    ensures forall j :: 0 <= j < |rs| ==> rs[j].1.status == OK
  {
    if fs == [] then []
    else
      var f := fs[|fs| - 1];
      Successes(fs[..|fs| - 1]) + (if IsResult(f) then [(f.client, f.res)] else [])
  }

  /** The `failures` list after handling the futures of `fs` in order. */
  function FailuresOf(fs: seq<Future>): (es: seq<Failure>)
    ensures |es| <= |fs|
    ensures forall j :: 0 <= j < |es| ==> es[j].NotOk? ==> es[j].res.status != OK
  {
    if fs == [] then []
    else
      var f := fs[|fs| - 1];
      FailuresOf(fs[..|fs| - 1]) + (if IsResult(f) then [] else [AsFailure(f)])
  }

  /** The two lists `fit_clients` / `evaluate_clients` fill, as an object whose
      fields the handler appends to. */
  class RoundResults {
    var results: seq<(ClientProxy, ClientRes)>
    var failures: seq<Failure>

    constructor ()
      ensures results == [] && failures == []
    {
      results, failures := [], [];
    }

    /** `_handle_finished_future_after_fit` and `_handle_finished_future_after_evaluate`
        (identical bodies): an exception goes to failures; a returned result
        goes to results when its status is OK and to failures otherwise.
        Exactly one of the two lists grows, by exactly one entry. */
    method HandleFinishedFuture(f: Future)
      modifies this
      ensures f.Raised? ==> results == old(results) && failures == old(failures) + [Exception(f.exception)]
      ensures f.Completed? && f.res.status == OK ==>
                results == old(results) + [(f.client, f.res)] && failures == old(failures)
      ensures f.Completed? && f.res.status != OK ==>
                results == old(results) && failures == old(failures) + [NotOk(f.client, f.res)]
    {
      if f.Raised? {
        failures := failures + [Exception(f.exception)];
        return;
      }
      if f.res.status == OK {
        results := results + [(f.client, f.res)];
        return;
      }
      failures := failures + [NotOk(f.client, f.res)];
    }
  }

  /** The gather loop: handle every finished future in turn. Nothing is lost:
      the two lists together are as long as the set of finished futures. */
  method GatherResults(finished: seq<Future>) returns (results: seq<(ClientProxy, ClientRes)>, failures: seq<Failure>)
    ensures results == Successes(finished) && failures == FailuresOf(finished)
    ensures |results| + |failures| == |finished|
  {
    var collected := new RoundResults();
    var i := 0;
    while i < |finished|
      invariant 0 <= i <= |finished|
      invariant collected.results == Successes(finished[..i])
      invariant collected.failures == FailuresOf(finished[..i])
    {
      assert finished[..i + 1][..i] == finished[..i];
      collected.HandleFinishedFuture(finished[i]);
      i := i + 1;
    }
    assert finished[..i] == finished;
    results, failures := collected.results, collected.failures;
    GatherLosesNothing(finished);
  }

  /** `fit_client` / `evaluate_client`: call the client; an exception becomes
      the future's exception, a return the pair (client, result). */
  function Call<I>(client: ClientProxy, ins: I, call: (ClientProxy, I) -> ClientReply): (f: Future)
    ensures f.Completed? ==> f.client == client
  {
    match call(client, ins)
    case Threw(e) => Raised(e)
    case Returned(r) => Completed(client, r)
  }

  /** One future per instruction: the wait has no timeout, so every
      submitted call is among the finished ones. */
  function Dispatch<I>(instructions: seq<(ClientProxy, I)>, call: (ClientProxy, I) -> ClientReply): (fs: seq<Future>)
    ensures |fs| == |instructions|
  {
    seq(|instructions|, i requires 0 <= i < |instructions| => Call(instructions[i].0, instructions[i].1, call))
  }

  /** fit_clients: submit every (client, FitIns) pair, wait for all, gather. */
  method FitClients(instructions: seq<(ClientProxy, FitIns)>, fit: (ClientProxy, FitIns) -> ClientReply)
    returns (results: seq<(ClientProxy, ClientRes)>, failures: seq<Failure>)
    ensures results == Successes(Dispatch(instructions, fit)) && failures == FailuresOf(Dispatch(instructions, fit))
    ensures |results| + |failures| == |instructions|
  {
    results, failures := GatherResults(Dispatch(instructions, fit));
  }

  /** evaluate_clients: submit every (client, EvaluateIns) pair, wait for all, gather. */
  method EvaluateClients(instructions: seq<(ClientProxy, EvaluateIns)>, evaluate: (ClientProxy, EvaluateIns) -> ClientReply)
    returns (results: seq<(ClientProxy, ClientRes)>, failures: seq<Failure>)
    ensures results == Successes(Dispatch(instructions, evaluate)) && failures == FailuresOf(Dispatch(instructions, evaluate))
    ensures |results| + |failures| == |instructions|
  {
    results, failures := GatherResults(Dispatch(instructions, evaluate));
  }

  // ---------------------------------------------------------------------
  // Properties of the partition

  /** Every finished future ends up in exactly one of the two lists. */
  lemma {:induction false} GatherLosesNothing(fs: seq<Future>)
    ensures |Successes(fs)| + |FailuresOf(fs)| == |fs|
  {
    if fs != [] {
      GatherLosesNothing(fs[..|fs| - 1]);
    }
  }

  /** A result (c, r) occurs in `results` as often as the future
      Completed(c, r) among the finished ones when its status is OK, and
      never otherwise. */
  lemma {:induction false} ResultCount(fs: seq<Future>, c: ClientProxy, r: ClientRes)
    ensures multiset(Successes(fs))[(c, r)] == if r.status == OK then multiset(fs)[Completed(c, r)] else 0
  {
    if fs != [] {
      var init, f := fs[..|fs| - 1], fs[|fs| - 1];
      assert fs == init + [f];
      ResultCount(init, c, r);
      var tail := if IsResult(f) then [(f.client, f.res)] else [];
      assert Successes(fs) == Successes(init) + tail;
      assert multiset(Successes(fs)) == multiset(Successes(init)) + multiset(tail);
      assert multiset(fs) == multiset(init) + multiset([f]);
    }
  }

  /** An exception occurs in `failures` as often as a future raised it. */
  lemma {:induction false} ExceptionCount(fs: seq<Future>, e: PyError)
    ensures multiset(FailuresOf(fs))[Exception(e)] == multiset(fs)[Raised(e)]
  {
    if fs != [] {
      var init, f := fs[..|fs| - 1], fs[|fs| - 1];
      assert fs == init + [f];
      ExceptionCount(init, e);
      var tail := if IsResult(f) then [] else [AsFailure(f)];
      assert FailuresOf(fs) == FailuresOf(init) + tail;
      assert multiset(FailuresOf(fs)) == multiset(FailuresOf(init)) + multiset(tail);
      assert multiset(fs) == multiset(init) + multiset([f]);
    }
  }

  /** A non-OK result (c, r) occurs in `failures` as often as the future
      Completed(c, r), and an OK one never does. */
  lemma {:induction false} NotOkCount(fs: seq<Future>, c: ClientProxy, r: ClientRes)
    ensures multiset(FailuresOf(fs))[NotOk(c, r)] == if r.status != OK then multiset(fs)[Completed(c, r)] else 0
  {
    if fs != [] {
      var init, f := fs[..|fs| - 1], fs[|fs| - 1];
      assert fs == init + [f];
      NotOkCount(init, c, r);
      var tail := if IsResult(f) then [] else [AsFailure(f)];
      assert FailuresOf(fs) == FailuresOf(init) + tail;
      assert multiset(FailuresOf(fs)) == multiset(FailuresOf(init)) + multiset(tail);
      assert multiset(fs) == multiset(init) + multiset([f]);
      assert multiset(tail)[NotOk(c, r)] == if f == Completed(c, r) && r.status != OK then 1 else 0;
    }
  }

  /** The order in which the finished set is iterated does not change which
      entries the two lists hold, only their order. */
  lemma GatherOrderIrrelevant(fs: seq<Future>, gs: seq<Future>)
    requires multiset(fs) == multiset(gs)
    ensures multiset(Successes(fs)) == multiset(Successes(gs))
    ensures multiset(FailuresOf(fs)) == multiset(FailuresOf(gs))
  {
    forall p | true ensures multiset(Successes(fs))[p] == multiset(Successes(gs))[p] {
      ResultCount(fs, p.0, p.1);
      ResultCount(gs, p.0, p.1);
    }
    forall x | true ensures multiset(FailuresOf(fs))[x] == multiset(FailuresOf(gs))[x] {
      match x
      case Exception(e) =>
        ExceptionCount(fs, e);
        ExceptionCount(gs, e);
      case NotOk(c, r) =>
        NotOkCount(fs, c, r);
        NotOkCount(gs, c, r);
    }
  }

  /** With at most one future, every iteration order of the finished set
      gives the same two lists, order included. */
  lemma SingleFutureOrderFixed(fs: seq<Future>, gs: seq<Future>)
    requires |fs| <= 1 && multiset(fs) == multiset(gs)
    ensures Successes(gs) == Successes(fs) && FailuresOf(gs) == FailuresOf(fs)
  {
    assert |gs| == |multiset(gs)| == |fs|;
    if |fs| == 1 {
      assert gs[0] in multiset(fs);
      assert gs == fs;
    }
  }
}
