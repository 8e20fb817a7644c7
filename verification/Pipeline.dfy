/**
 * The request pipeline as a step relation: the plugin asks, the fetcher receives and tries the engines,
 * the worker loop delivers, the async queue is parsed. Channels are unbuffered, so the plugin stands
 * still from the call until the fetcher receives, and the fetcher until the worker takes the event.
 */
module Pipeline {
  import opened Wrappers
  import opened ContainerInfo
  import opened Matchers
  import opened PluginState
  import opened PluginRuns
  import opened Fetcher
  import Worker

  datatype FetcherState = Idle | Trying(id: string, next: nat) | Sending(id: string, answer: Info)

  datatype AsyncEvent = AsyncEvent(added: bool, info: Info)

  /**
   * listening: the fetcher's channel is not nil. unanswered and dropped hold the ids whose latest request
   * ended there: no engine had an answer, or the channel was still nil.
   */
  datatype Sys = Sys(
    plugin: State,
    pending: Option<string>,
    fetcher: FetcherState,
    queue: seq<AsyncEvent>,
    listening: bool,
    unanswered: set<string>,
    dropped: set<string>)

  datatype Action =
    | PluginEvent(e: Event)
    | Listen
    | Receive
    | TryNext
    | Deliver
    | OtherEngine(evt: AsyncEvent)
    | Parse(i: nat)

  /** Closing the capture stops the worker, so a pipeline lives within one capture. */
  ghost predicate Enabled(sys: Sys, getters: seq<Getter>, a: Action) {
    match a
    case PluginEvent(e) => sys.pending.None? && !e.AsyncContainer? && !e.Reopen?
    case Listen => true
    case Receive => sys.listening && sys.pending.Some? && sys.fetcher.Idle?
    case TryNext => sys.fetcher.Trying? && sys.fetcher.next <= |getters|
    case Deliver => sys.fetcher.Sending?
    case OtherEngine(_) => true
    case Parse(i) => sys.pending.None? && i < |sys.queue|
  }

  /** The state after a plugin event, the call of AskForContainerInfo included. */
  ghost function AfterPluginEvent(ms: seq<Matcher>, sys: Sys, e: Event): Sys {
    var p := Step(ms, sys.plugin, e);
    if |p.asks| <= |sys.plugin.asks| then sys.(plugin := p)
    else
      var id := p.asks[|p.asks| - 1];
      var sys1 := sys.(plugin := p, unanswered := sys.unanswered - {id}, dropped := sys.dropped - {id});
      if sys.listening then sys1.(pending := Some(id)) else sys1.(dropped := sys1.dropped + {id})
  }

  ghost function AfterTry(sys: Sys, getters: seq<Getter>): Sys
    requires Enabled(sys, getters, TryNext)
  {
    var id, k := sys.fetcher.id, sys.fetcher.next;
    if k == |getters| then sys.(fetcher := Idle, unanswered := sys.unanswered + {id})
    else if getters[k](id).Some? then sys.(fetcher := Sending(id, getters[k](id).value))
    else sys.(fetcher := Trying(id, k + 1))
  }

  ghost function Next(ms: seq<Matcher>, getters: seq<Getter>, sys: Sys, a: Action): Sys
    requires Enabled(sys, getters, a)
  {
    match a
    case PluginEvent(e) => AfterPluginEvent(ms, sys, e)
    case Listen => sys.(listening := true)
    case Receive => sys.(pending := None, fetcher := Trying(sys.pending.value, 0))
    case TryNext => AfterTry(sys, getters)
    case Deliver => sys.(fetcher := Idle, queue := sys.queue + [AsyncEvent(true, sys.fetcher.answer)])
    case OtherEngine(evt) => sys.(queue := sys.queue + [evt])
    case Parse(i) =>
      var evt := sys.queue[i];
      sys.(plugin := Step(ms, sys.plugin, AsyncContainer(evt.added, evt.info)),
           queue := sys.queue[..i] + sys.queue[i + 1..])
  }

  // ---- no request is lost ----

  ghost predicate Queued(queue: seq<AsyncEvent>, id: string) {
    exists i :: 0 <= i < |queue| && queue[i].added && queue[i].info.id == id
  }

  /** Where the open request for id is, or how it ended. */
  ghost predicate Accounted(sys: Sys, id: string) {
    || sys.pending == Some(id)
    || (!sys.fetcher.Idle? && sys.fetcher.id == id)
    || Queued(sys.queue, id)
    || id in sys.unanswered
    || id in sys.dropped
  }

  /** The fetcher's progress is that of the loop in HandleRequest. */
  ghost predicate FetcherOnCourse(f: FetcherState, getters: seq<Getter>) {
    match f
    case Idle => true
    case Trying(id, k) => k <= |getters| && FirstAnswer(getters, id, k) == FirstAnswer(getters, id, 0)
    case Sending(id, answer) => FirstAnswer(getters, id, 0) == Some(answer)
  }

  ghost predicate NothingLost(sys: Sys, getters: seq<Getter>) {
    && (forall id :: id in sys.plugin.asked ==> Accounted(sys, id))
    && FetcherOnCourse(sys.fetcher, getters)
    && (forall id :: id in sys.unanswered ==> FirstAnswer(getters, id, 0).None?)
    && (sys.pending.Some? ==> sys.listening)
  }

  /** A plugin event that is not from the queue asks for at most one id, and clears none. */
  lemma AskedGrowsByAsk(ms: seq<Matcher>, s: State, e: Event)
    requires !e.AsyncContainer?
    ensures var s1 := Step(ms, s, e);
            || (s1.asked == s.asked && s1.asks == s.asks)
            || exists id :: s1.asked == s.asked + {id} && s1.asks == s.asks + [id]
  {
  }

  lemma PluginEventLosesNothing(ms: seq<Matcher>, getters: seq<Getter>, sys: Sys, e: Event)
    requires NothingLost(sys, getters) && Enabled(sys, getters, PluginEvent(e))
    ensures NothingLost(AfterPluginEvent(ms, sys, e), getters)
  {
    AskedGrowsByAsk(ms, sys.plugin, e);
    var sys1 := AfterPluginEvent(ms, sys, e);
    forall id | id in sys1.plugin.asked
      ensures Accounted(sys1, id)
    {
      if id in sys.plugin.asked {
        assert Accounted(sys, id);
      }
    }
  }

  lemma FetcherLosesNothing(ms: seq<Matcher>, getters: seq<Getter>, sys: Sys, a: Action)
    requires NothingLost(sys, getters) && Honest(getters) && a in {Receive, TryNext, Deliver}
    requires Enabled(sys, getters, a)
    ensures NothingLost(Next(ms, getters, sys, a), getters)
  {
    var sys1 := Next(ms, getters, sys, a);
    if sys.fetcher.Sending? {
      AnswerIsAboutId(getters, sys.fetcher.id, 0);
    }
    if a == Deliver {
      assert sys1.queue[|sys.queue|] == AsyncEvent(true, sys.fetcher.answer);
      assert Queued(sys1.queue, sys.fetcher.id);
    }
    forall id | id in sys1.plugin.asked
      ensures Accounted(sys1, id)
    {
      assert Accounted(sys, id);
      if Queued(sys.queue, id) {
        var i :| 0 <= i < |sys.queue| && sys.queue[i].added && sys.queue[i].info.id == id;
        assert sys1.queue[i] == sys.queue[i];
      }
    }
  }

  lemma QueueGrowthLosesNothing(ms: seq<Matcher>, getters: seq<Getter>, sys: Sys, evt: AsyncEvent)
    requires NothingLost(sys, getters)
    ensures NothingLost(Next(ms, getters, sys, OtherEngine(evt)), getters)
  {
    var sys1 := Next(ms, getters, sys, OtherEngine(evt));
    forall id | id in sys.plugin.asked
      ensures Accounted(sys1, id)
    {
      assert Accounted(sys, id);
      if Queued(sys.queue, id) {
        var i :| 0 <= i < |sys.queue| && sys.queue[i].added && sys.queue[i].info.id == id;
        assert sys1.queue[i] == sys.queue[i];
      }
    }
  }

  /** Taking one event out of the queue leaves the others in it. */
  lemma QueuedElsewhere(queue: seq<AsyncEvent>, i: nat, id: string)
    requires i < |queue| && Queued(queue, id) && !(queue[i].added && queue[i].info.id == id)
    ensures Queued(queue[..i] + queue[i + 1..], id)
  {
    var j :| 0 <= j < |queue| && queue[j].added && queue[j].info.id == id;
    var rest := queue[..i] + queue[i + 1..];
    assert rest[if j < i then j else j - 1] == queue[j];
  }

  lemma ParseLosesNothing(ms: seq<Matcher>, getters: seq<Getter>, sys: Sys, i: nat)
    requires NothingLost(sys, getters) && Enabled(sys, getters, Parse(i))
    ensures NothingLost(Next(ms, getters, sys, Parse(i)), getters)
  {
    var sys1, evt := Next(ms, getters, sys, Parse(i)), sys.queue[i];
    forall id | id in sys1.plugin.asked
      ensures Accounted(sys1, id)
    {
      assert id in sys.plugin.asked && !(evt.added && evt.info.id == id);
      assert Accounted(sys, id);
      if Queued(sys.queue, id) {
        QueuedElsewhere(sys.queue, i, id);
      }
    }
  }

  lemma NextLosesNothing(ms: seq<Matcher>, getters: seq<Getter>, sys: Sys, a: Action)
    requires NothingLost(sys, getters) && Honest(getters) && Enabled(sys, getters, a)
    ensures NothingLost(Next(ms, getters, sys, a), getters)
  {
    match a
    case PluginEvent(e) => PluginEventLosesNothing(ms, getters, sys, e);
    case Listen =>
      assert forall id :: Accounted(sys, id) ==> Accounted(Next(ms, getters, sys, a), id);
    case Receive => FetcherLosesNothing(ms, getters, sys, a);
    case TryNext => FetcherLosesNothing(ms, getters, sys, a);
    case Deliver => FetcherLosesNothing(ms, getters, sys, a);
    case OtherEngine(evt) => QueueGrowthLosesNothing(ms, getters, sys, evt);
    case Parse(i) => ParseLosesNothing(ms, getters, sys, i);
  }

  // ---- whole runs ----

  ghost predicate IsInitial(sys: Sys) {
    IsStart(sys.plugin) && sys == Sys(sys.plugin, None, Idle, [], false, {}, {})
  }

  /** The states a run goes through, one more than its actions. */
  ghost predicate IsRun(ms: seq<Matcher>, getters: seq<Getter>, states: seq<Sys>, actions: seq<Action>) {
    && |states| == |actions| + 1
    && IsInitial(states[0])
    && forall i :: 0 <= i < |actions| ==> Moves(ms, getters, states[i], actions[i], states[i + 1])
  }

  ghost predicate Moves(ms: seq<Matcher>, getters: seq<Getter>, sys: Sys, a: Action, after: Sys) {
    Enabled(sys, getters, a) && after == Next(ms, getters, sys, a)
  }

  /**
   * In every state of every run, an id in the asked set is a pending call, or with the fetcher, or in
   * the async queue; or no engine had an answer for it; or it was asked for before the fetcher listened.
   */
  lemma {:induction false} NoRequestLost(ms: seq<Matcher>, getters: seq<Getter>, states: seq<Sys>, actions: seq<Action>, i: nat)
    requires Honest(getters) && IsRun(ms, getters, states, actions) && i < |states|
    ensures NothingLost(states[i], getters)
  {
    if i > 0 {
      assert Moves(ms, getters, states[i - 1], actions[i - 1], states[i]);
      NoRequestLost(ms, getters, states, actions, i - 1);
      NextLosesNothing(ms, getters, states[i - 1], actions[i - 1]);
    }
  }

  // ---- the pipeline drains ----

  /** How many steps are left for the request that the fetcher holds. */
  function FetcherRank(f: FetcherState, n: nat): nat {
    match f
    case Idle => 0
    case Trying(_, k) => if k <= n then n - k + 2 else 0
    case Sending(_, _) => 1
  }

  /** How many steps of fetcher and worker are left for the requests that are in them. */
  function Rank(sys: Sys, n: nat): nat {
    (if sys.pending.Some? then n + 4 else 0) + FetcherRank(sys.fetcher, n)
  }

  /** The one step that fetcher and worker can take, if any. */
  ghost function Turn(sys: Sys): Option<Action> {
    match sys.fetcher
    case Idle => if sys.pending.Some? then Some(Receive) else None
    case Trying(_, _) => Some(TryNext)
    case Sending(_, _) => Some(Deliver)
  }

  /** While a request is with the plugin, the fetcher or the worker, one of them can move, and moves on. */
  lemma TurnProgresses(ms: seq<Matcher>, getters: seq<Getter>, sys: Sys)
    requires NothingLost(sys, getters) && Turn(sys).Some?
    ensures Enabled(sys, getters, Turn(sys).value)
    ensures var sys1 := Next(ms, getters, sys, Turn(sys).value);
            Rank(sys1, |getters|) < Rank(sys, |getters|) && sys1.plugin == sys.plugin && sys1.dropped == sys.dropped
  {
  }

  /** Steps of fetcher and worker only, one after the other. */
  ghost predicate AreTurns(ms: seq<Matcher>, getters: seq<Getter>, states: seq<Sys>) {
    && states != []
    && forall i :: 0 <= i < |states| - 1 ==>
         Turn(states[i]).Some? && Moves(ms, getters, states[i], Turn(states[i]).value, states[i + 1])
  }

  /** What an engine answered is what the worker passes on. */
  lemma DeliveredIsAnswer(ms: seq<Matcher>, getters: seq<Getter>, sys: Sys)
    requires NothingLost(sys, getters) && Turn(sys) == Some(Deliver)
    ensures var answer, sys1 := FirstAnswer(getters, sys.fetcher.id, 0), Next(ms, getters, sys, Deliver);
            answer.Some? && sys1.queue == sys.queue + [AsyncEvent(true, answer.value)]
  {
  }

  /** Once the fetcher listens it goes on listening, and no call is dropped any more. */
  lemma NotDroppedWhileListening(ms: seq<Matcher>, getters: seq<Getter>, sys: Sys, a: Action)
    requires sys.listening && Enabled(sys, getters, a)
    ensures var sys1 := Next(ms, getters, sys, a); sys1.listening && sys1.dropped <= sys.dropped
  {
  }

  /** Added to the queue are the first engines' answers for the containers they are about. */
  ghost predicate AnswersAdded(getters: seq<Getter>, before: seq<AsyncEvent>, after: seq<AsyncEvent>) {
    && before <= after
    && forall i :: |before| <= i < |after| ==> IsAnswer(getters, after[i])
  }

  ghost predicate IsAnswer(getters: seq<Getter>, evt: AsyncEvent) {
    evt.added && FirstAnswer(getters, evt.info.id, 0) == Some(evt.info)
  }

  /** One turn adds nothing, or the answer that was being sent. */
  lemma TurnAddsAnswer(ms: seq<Matcher>, getters: seq<Getter>, sys: Sys)
    requires NothingLost(sys, getters) && Honest(getters) && Turn(sys).Some? && Enabled(sys, getters, Turn(sys).value)
    ensures AnswersAdded(getters, sys.queue, Next(ms, getters, sys, Turn(sys).value).queue)
  {
    if Turn(sys) == Some(Deliver) {
      DeliveredIsAnswer(ms, getters, sys);
      AnswerIsAboutId(getters, sys.fetcher.id, 0);
    }
  }

  lemma AnswersAddedAgain(getters: seq<Getter>, a: seq<AsyncEvent>, b: seq<AsyncEvent>, c: seq<AsyncEvent>)
    requires AnswersAdded(getters, a, b) && AnswersAdded(getters, b, c)
    ensures AnswersAdded(getters, a, c)
  {
    forall i | |a| <= i < |c|
      ensures IsAnswer(getters, c[i])
    {
      if i < |b| {
        assert b[i] == c[i];
      }
    }
  }

  /**
   * From any state that has lost nothing, fetcher and worker alone come to rest: the plugin is free
   * again, and every id in the asked set has its added event in the queue, unless no engine knows the
   * container or the call was made before the fetcher listened.
   */
  lemma {:induction false} Settles(ms: seq<Matcher>, getters: seq<Getter>, sys: Sys) returns (states: seq<Sys>)
    requires NothingLost(sys, getters) && Honest(getters)
    ensures AreTurns(ms, getters, states) && states[0] == sys
    ensures var rest := states[|states| - 1];
            && rest.plugin == sys.plugin && rest.pending.None? && rest.fetcher.Idle?
            && NothingLost(rest, getters) && AnswersAdded(getters, sys.queue, rest.queue)
            && forall id :: id in sys.plugin.asked ==>
                 Queued(rest.queue, id) || FirstAnswer(getters, id, 0).None? || id in sys.dropped
    decreases Rank(sys, |getters|)
  {
    if Turn(sys).None? {
      states := [sys];
      assert forall id :: id in sys.plugin.asked ==> Accounted(sys, id);
    } else {
      TurnProgresses(ms, getters, sys);
      NextLosesNothing(ms, getters, sys, Turn(sys).value);
      var sys1 := Next(ms, getters, sys, Turn(sys).value);
      var later := Settles(ms, getters, sys1);
      states := [sys] + later;
      TurnAddsAnswer(ms, getters, sys);
      AnswersAddedAgain(getters, sys.queue, sys1.queue, later[|later| - 1].queue);
    }
  }

  /**
   * So a request that some engine can answer, and that was not dropped, is answered by turns of fetcher
   * and worker and one parse: the id leaves the asked set and the cache has the container under it, as the
   * first engine that knows it describes it, unless an event about it was in the queue before.
   */
  lemma RequestGetsAnswered(ms: seq<Matcher>, getters: seq<Getter>, sys: Sys, id: string)
    returns (states: seq<Sys>, i: nat)
    requires NothingLost(sys, getters) && Honest(getters)
    requires id in sys.plugin.asked && id !in sys.dropped && FirstAnswer(getters, id, 0).Some?
    ensures AreTurns(ms, getters, states) && states[0] == sys
    ensures Enabled(states[|states| - 1], getters, Parse(i))
    ensures var p := Next(ms, getters, states[|states| - 1], Parse(i)).plugin;
            && id !in p.asked && id in p.containers && p.containers[id].id == id && p.threads == sys.plugin.threads
            && (!Queued(sys.queue, id) ==> Some(p.containers[id]) == FirstAnswer(getters, id, 0))
  {
    states := Settles(ms, getters, sys);
    var queue := states[|states| - 1].queue;
    i :| 0 <= i < |queue| && queue[i].added && queue[i].info.id == id;
    if i < |sys.queue| {
      assert queue[i] == sys.queue[i];
    } else {
      assert IsAnswer(getters, queue[i]);
    }
  }

  // ---- under any schedule ----

  /** Whatever else happens, the turn that is due stays due, and can be taken. */
  lemma TurnStaysDue(ms: seq<Matcher>, getters: seq<Getter>, sys: Sys, a: Action)
    requires Turn(sys).Some? && Enabled(sys, getters, Turn(sys).value)
    requires Enabled(sys, getters, a) && Some(a) != Turn(sys)
    ensures var sys1 := Next(ms, getters, sys, a);
            Turn(sys1) == Turn(sys) && Enabled(sys1, getters, Turn(sys1).value) && sys1.fetcher == sys.fetcher
  {
  }

  /** Part of a run, from any state. */
  ghost predicate IsSegment(ms: seq<Matcher>, getters: seq<Getter>, states: seq<Sys>, actions: seq<Action>) {
    && |states| == |actions| + 1
    && forall i :: 0 <= i < |actions| ==> Moves(ms, getters, states[i], actions[i], states[i + 1])
  }

  /** How many of the first n actions are turns of the fetcher, or of the worker taking its answer. */
  function FetcherTurns(actions: seq<Action>, n: nat): nat
    requires n <= |actions|
  {
    if n == 0 then 0
    else FetcherTurns(actions, n - 1) + if actions[n - 1].TryNext? || actions[n - 1].Deliver? then 1 else 0
  }

  predicate WithinEngines(f: FetcherState, n: nat) {
    f.Trying? ==> f.next <= n
  }

  /** As long as no new request is received, each such turn lowers the rank, and nothing raises it. */
  lemma {:induction false} TurnsAreBounded(ms: seq<Matcher>, getters: seq<Getter>, states: seq<Sys>, actions: seq<Action>, n: nat)
    requires IsSegment(ms, getters, states, actions) && n <= |actions| && WithinEngines(states[0].fetcher, |getters|)
    requires forall i :: 0 <= i < n ==> !actions[i].Receive?
    ensures WithinEngines(states[n].fetcher, |getters|)
    ensures FetcherTurns(actions, n) + FetcherRank(states[n].fetcher, |getters|) <= FetcherRank(states[0].fetcher, |getters|)
  {
    if n > 0 {
      assert Moves(ms, getters, states[n - 1], actions[n - 1], states[n]);
      TurnsAreBounded(ms, getters, states, actions, n - 1);
    }
  }

  /**
   * A request that the fetcher holds ends within two turns more than there are engines, whatever else is
   * interleaved: as long as it is held, fewer turns have been taken.
   */
  lemma HeldRequestEnds(ms: seq<Matcher>, getters: seq<Getter>, states: seq<Sys>, actions: seq<Action>, n: nat)
    requires IsSegment(ms, getters, states, actions) && n <= |actions| && NothingLost(states[0], getters)
    requires forall i :: 0 <= i <= n ==> !states[i].fetcher.Idle?
    ensures FetcherTurns(actions, n) < |getters| + 2 && states[n].fetcher.id == states[0].fetcher.id
  {
    HeldNotReceived(ms, getters, states, actions, n);
    TurnsAreBounded(ms, getters, states, actions, n);
  }

  lemma {:induction false} HeldNotReceived(ms: seq<Matcher>, getters: seq<Getter>, states: seq<Sys>, actions: seq<Action>, n: nat)
    requires IsSegment(ms, getters, states, actions) && n <= |actions|
    requires forall i :: 0 <= i <= n ==> !states[i].fetcher.Idle?
    ensures forall i :: 0 <= i < n ==> !actions[i].Receive?
    ensures states[n].fetcher.id == states[0].fetcher.id
  {
    if n > 0 {
      assert Moves(ms, getters, states[n - 1], actions[n - 1], states[n]);
      HeldNotReceived(ms, getters, states, actions, n - 1);
    }
  }

  /**
   * A call that waits for the fetcher waits for no more turns than those of the request before it: as long
   * as it waits, no more have been taken, and it is still for the same id.
   */
  lemma PendingRequestIsTaken(ms: seq<Matcher>, getters: seq<Getter>, states: seq<Sys>, actions: seq<Action>, n: nat)
    requires IsSegment(ms, getters, states, actions) && n <= |actions| && NothingLost(states[0], getters)
    requires forall i :: 0 <= i <= n ==> states[i].pending.Some?
    ensures FetcherTurns(actions, n) <= FetcherRank(states[0].fetcher, |getters|) <= |getters| + 2
    ensures states[n].pending == states[0].pending
  {
    PendingNotReceived(ms, getters, states, actions, n);
    TurnsAreBounded(ms, getters, states, actions, n);
  }

  lemma {:induction false} PendingNotReceived(ms: seq<Matcher>, getters: seq<Getter>, states: seq<Sys>, actions: seq<Action>, n: nat)
    requires IsSegment(ms, getters, states, actions) && n <= |actions|
    requires forall i :: 0 <= i <= n ==> states[i].pending.Some?
    ensures forall i :: 0 <= i < n ==> !actions[i].Receive?
    ensures states[n].pending == states[0].pending
  {
    if n > 0 {
      assert Moves(ms, getters, states[n - 1], actions[n - 1], states[n]);
      PendingNotReceived(ms, getters, states, actions, n - 1);
    }
  }

  // ---- the worker's part ----

  /** The step that a round of the worker loop is, when the fetcher is the engine of this number. */
  function StepOfRound(action: Worker.Action, fetcher: nat, evt: AsyncEvent): Option<Action> {
    match action
    case Deliver(e) => Some(if e == fetcher then Deliver else OtherEngine(evt))
    case _ => None
  }

  /** Cases appended by later rounds, for engines that the inotifier has brought up since. */
  predicate AreNewCases(added: seq<Worker.Source>, listens: seq<bool>) {
    forall i :: 0 <= i < |added| ==> added[i].EngineEvents? && added[i].engine >= |listens|
  }

  /**
   * At any time the loop has exactly one choice that takes the fetcher's answer on, the last of its initial
   * cases; and that is the turn that is due when the fetcher has an answer.
   */
  lemma WorkerTakesTurn(sys: Sys, getters: seq<Getter>, hasInotifier: bool, listens: seq<bool>,
                        added: seq<Worker.Source>, chosen: nat, evt: AsyncEvent)
    requires sys.fetcher.Sending? && listens != [] && listens[|listens| - 1] && AreNewCases(added, listens)
    requires chosen < |Worker.InitialCases(hasInotifier, listens) + added|
    ensures var initial := Worker.InitialCases(hasInotifier, listens);
            var step := StepOfRound(Worker.ActionFor((initial + added)[chosen]), |listens| - 1, evt);
            && (step == Turn(sys) <==> chosen == |initial| - 1)
            && (step.Some? ==> Enabled(sys, getters, step.value))
  {
    if chosen < |Worker.InitialCases(hasInotifier, listens)| {
      Worker.FetcherHasOneCase(hasInotifier, listens, chosen);
    } else {
      assert (Worker.InitialCases(hasInotifier, listens) + added)[chosen]
             == added[chosen - |Worker.InitialCases(hasInotifier, listens)|];
    }
  }
}
