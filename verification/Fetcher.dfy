/** The fetcher: one request, tried on every engine in turn (go-worker/pkg/container/fetcher.go). */
module Fetcher {
  import opened Wrappers
  import opened ContainerInfo

  /** An engine's get: the container's metadata, or nothing. */
  type Getter = string -> Option<Info>

  /** The answer of the first engine that has one, from the k-th engine on. */
  function FirstAnswer(getters: seq<Getter>, id: string, k: nat): Option<Info>
    requires k <= |getters|
    decreases |getters| - k
  {
    if k == |getters| then None
    else if getters[k](id).Some? then getters[k](id)
    else FirstAnswer(getters, id, k + 1)
  }

  /** An engine that answers, answers about the container that was asked for. */
  ghost predicate Honest(getters: seq<Getter>) {
    forall k, id :: 0 <= k < |getters| && getters[k](id).Some? ==> getters[k](id).value.id == id
  }

  lemma {:induction false} AnswerIsAboutId(getters: seq<Getter>, id: string, k: nat)
    requires Honest(getters) && k <= |getters|
    ensures FirstAnswer(getters, id, k).Some? ==> FirstAnswer(getters, id, k).value.id == id
    decreases |getters| - k
  {
    if k < |getters| {
      AnswerIsAboutId(getters, id, k + 1);
    }
  }

  /** One request in the loop of Listen: nothing comes out exactly when no engine answers. */
  method HandleRequest(getters: seq<Getter>, id: string) returns (evt: Option<Info>)
    ensures evt.None? <==> forall k :: 0 <= k < |getters| ==> getters[k](id).None?
    ensures evt.Some? ==> exists k :: 0 <= k < |getters| && evt == getters[k](id)
                                      && forall j :: 0 <= j < k ==> getters[j](id).None?
    ensures evt == FirstAnswer(getters, id, 0)
  {
    evt := None;
    for k := 0 to |getters|
      invariant evt.None?
      invariant forall j :: 0 <= j < k ==> getters[j](id).None?
      invariant FirstAnswer(getters, id, 0) == FirstAnswer(getters, id, k)
    {
      evt := getters[k](id);
      if evt.Some? {
        break;
      }
    }
  }
}
