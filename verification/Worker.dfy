/** The select loop of the worker and its dispatch by index (go-worker/worker.go). */
module Worker {
  import opened Wrappers

  /** What a select case receives from; engines are known by number. */
  datatype Source = CtxDone | Inotifier | EngineEvents(engine: nat)

  datatype Action = Stop | Watch | Deliver(engine: nat)

  /** What each kind of source is to lead to. */
  function ActionFor(src: Source): Action {
    match src
    case CtxDone => Stop
    case Inotifier => Watch
    case EngineEvents(e) => Deliver(e)
  }

  const CTX_DONE_IDX := 0
  const INOTIFIER_IDX := 1

  /** The cases of the first n engines: one for each that listens, in order. */
  function EngineCases(listens: seq<bool>, n: nat): seq<Source>
    requires n <= |listens|
  {
    if n == 0 then [] else EngineCases(listens, n - 1) + if listens[n - 1] then [EngineEvents(n - 1)] else []
  }

  /** The cases with which the loop starts. */
  function InitialCases(hasInotifier: bool, listens: seq<bool>): seq<Source> {
    [CtxDone] + (if hasInotifier then [Inotifier] else []) + EngineCases(listens, |listens|)
  }

  lemma {:induction false} EngineCasesInOrder(listens: seq<bool>, n: nat)
    requires n <= |listens|
    ensures forall i :: 0 <= i < |EngineCases(listens, n)| ==>
      EngineCases(listens, n)[i].EngineEvents? && EngineCases(listens, n)[i].engine < n
  {
    if n > 0 {
      EngineCasesInOrder(listens, n - 1);
    }
  }

  /** Every engine that listens has its case, and no other has one. */
  lemma {:induction false} ListeningHasCase(listens: seq<bool>, n: nat, e: nat)
    requires e < n <= |listens|
    ensures EngineEvents(e) in EngineCases(listens, n) <==> listens[e]
  {
    EngineCasesInOrder(listens, n - 1);
    if e < n - 1 {
      ListeningHasCase(listens, n - 1, e);
    }
  }

  /** The cases of engines stand in the order of the engines, so that each has one. */
  lemma {:induction false} EngineCasesAscend(listens: seq<bool>, n: nat, i: nat, j: nat)
    requires n <= |listens| && i < j < |EngineCases(listens, n)|
    ensures EngineCases(listens, n)[i].EngineEvents? && EngineCases(listens, n)[j].EngineEvents?
    ensures EngineCases(listens, n)[i].engine < EngineCases(listens, n)[j].engine
  {
    EngineCasesInOrder(listens, n - 1);
    if j < |EngineCases(listens, n - 1)| {
      EngineCasesAscend(listens, n - 1, i, j);
    }
  }

  /** The fetcher is the last engine and always listens: its case is the last, and the only one of its kind. */
  lemma FetcherHasOneCase(hasInotifier: bool, listens: seq<bool>, i: nat)
    requires listens != [] && listens[|listens| - 1] && i < |InitialCases(hasInotifier, listens)|
    ensures InitialCases(hasInotifier, listens)[i] == EngineEvents(|listens| - 1) <==>
              i == |InitialCases(hasInotifier, listens)| - 1
  {
    var others := EngineCases(listens, |listens| - 1);
    var front := [CtxDone] + if hasInotifier then [Inotifier] else [];
    EngineCasesInOrder(listens, |listens| - 1);
    assert InitialCases(hasInotifier, listens) == front + others + [EngineEvents(|listens| - 1)];
    if |front| <= i < |front + others| {
      assert InitialCases(hasInotifier, listens)[i] == others[i - |front|];
    }
  }

  class WorkerLoop {
    const hasInotifier: bool
    var cases: seq<Source>

    function FirstEngine(): nat {
      if hasInotifier then 2 else 1
    }

    /** The done channel first, then the inotifier if there is one, then engines only. */
    predicate Valid()
      reads this
    {
      && FirstEngine() <= |cases|
      && cases[CTX_DONE_IDX] == CtxDone
      && (hasInotifier ==> cases[INOTIFIER_IDX] == Inotifier)
      && forall i :: FirstEngine() <= i < |cases| ==> cases[i].EngineEvents?
    }

    /** Engines whose Listen fails get no case. */
    constructor (hasInotifier: bool, listens: seq<bool>)
      ensures Valid() && this.hasInotifier == hasInotifier
      ensures cases == InitialCases(hasInotifier, listens)
    {
      this.hasInotifier := hasInotifier;
      cases := [CtxDone];
      new;
      if hasInotifier {
        cases := cases + [Inotifier];
      }
      ghost var front := cases;
      for e := 0 to |listens|
        invariant Valid()
        invariant cases == front + EngineCases(listens, e)
      {
        if listens[e] {
          cases := cases + [EngineEvents(e)];
        }
      }
    }

    /**
     * One round. The first index stops the loop, the second watches for new engines if there is an
     * inotifier, and every other index delivers for the engine whose case it is; that is what the kind of
     * the source calls for. An engine that the inotifier brings up, and that listens, is appended.
     */
    method Dispatch(chosen: nat, newEngine: Option<nat>) returns (action: Action)
      requires Valid() && chosen < |cases|
      modifies this`cases
      ensures Valid()
      ensures action == Stop <==> chosen == 0
      ensures action == Watch <==> hasInotifier && chosen == 1
      ensures chosen >= (if hasInotifier then 2 else 1) ==>
                action.Deliver? && old(cases)[chosen] == EngineEvents(action.engine)
      ensures action == ActionFor(old(cases)[chosen])
      ensures cases == if hasInotifier && chosen == 1 && newEngine.Some?
                       then old(cases) + [EngineEvents(newEngine.value)] else old(cases)
    {
      if chosen == CTX_DONE_IDX {
        return Stop;
      } else if hasInotifier && chosen == INOTIFIER_IDX {
        if newEngine.Some? {
          cases := cases + [EngineEvents(newEngine.value)];
        }
        return Watch;
      } else {
        return Deliver(cases[chosen].engine);
      }
    }
  }
}
