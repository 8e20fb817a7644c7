/** What one process event does, said of commands, ancestors and supplied metadata (src/plugin.cpp). */
module ProcessEvents {
  import opened Wrappers
  import opened CppString
  import opened ContainerInfo
  import opened Matchers
  import opened Threads
  import opened PluginState
  import opened PluginRuns
  import opened Categories

  // ---- the command line ----

  /** How many of the first n arguments are not empty. */
  function CountNonEmpty(args: seq<string>, n: nat): nat
    requires n <= |args|
  {
    if n == 0 then 0 else CountNonEmpty(args, n - 1) + if args[n - 1] != "" then 1 else 0
  }

  lemma {:induction false} CountOfPrefix(args: seq<string>, m: nat, n: nat)
    requires n <= m <= |args|
    ensures CountNonEmpty(args[..m], n) == CountNonEmpty(args, n)
  {
    if n > 0 {
      CountOfPrefix(args, m, n - 1);
    }
  }

  /**
   * Collected are the non-empty arguments in order: as many as there are, and each at the place that the
   * number of non-empty ones before it gives.
   */
  lemma NonEmptyInOrder(args: seq<string>)
    ensures |NonEmpty(args)| == CountNonEmpty(args, |args|)
    ensures forall i :: 0 <= i < |args| && args[i] != "" ==>
              CountNonEmpty(args, i) < |NonEmpty(args)| && NonEmpty(args)[CountNonEmpty(args, i)] == args[i]
  {
    NonEmptyAreCounted(args);
    forall i | 0 <= i < |args| && args[i] != ""
      ensures CountNonEmpty(args, i) < |NonEmpty(args)| && NonEmpty(args)[CountNonEmpty(args, i)] == args[i]
    {
      NonEmptyAt(args, i);
    }
  }

  lemma {:induction false} NonEmptyAreCounted(args: seq<string>)
    ensures |NonEmpty(args)| == CountNonEmpty(args, |args|)
  {
    if args != [] {
      NonEmptyAreCounted(args[..|args| - 1]);
      CountOfPrefix(args, |args| - 1, |args| - 1);
    }
  }

  lemma {:induction false} NonEmptyAt(args: seq<string>, i: nat)
    requires i < |args| && args[i] != ""
    ensures CountNonEmpty(args, i) < |NonEmpty(args)| && NonEmpty(args)[CountNonEmpty(args, i)] == args[i]
  {
    var m := |args| - 1;
    if i < m {
      NonEmptyAt(args[..m], i);
      CountOfPrefix(args, m, i);
    } else {
      NonEmptyAreCounted(args[..m]);
      CountOfPrefix(args, m, m);
    }
  }

  // ---- the category ----

  /** The container of a thread is cached. */
  predicate IsKnown(s: State, tid: int)
    requires tid in s.threads
  {
    s.threads[tid].containerId != "" && s.threads[tid].containerId in s.containers
  }

  /** Nothing to inherit from the parent. */
  predicate ParentHasNone(t: Table, tid: int)
    requires tid in t
  {
    t[tid].ptid in t ==> t[t[tid].ptid].category == CatNone
  }

  /** The first probe of the container that is equal to the command line is declared as kind. */
  ghost predicate Declares(cinfo: Info, th: Thread, kind: ProbeType) {
    exists i :: FirstWithCommand(cinfo.probes, i, th.exe, NonEmpty(th.args)) && cinfo.probes[i].kind == kind
  }

  /** The thread runs a probe of that kind of its container, from outside every container. */
  ghost predicate RunsProbe(s: State, tid: int, kind: ProbeType)
    requires tid in s.threads
  {
    && IsKnown(s, tid) && Declares(s.containers[s.threads[tid].containerId], s.threads[tid], kind)
    && !HasInitAbove(s.threads, tid)
  }

  /** Processing an entry leaves it its process, and every entry its ancestors and inits. */
  lemma EntryAfterwards(ms: seq<Matcher>, s: State, tid: int)
    requires tid in s.threads
    ensures var t1 := NewProcess(ms, s, tid).threads;
            && tid in t1 && t1[tid].exe == s.threads[tid].exe && t1[tid].args == s.threads[tid].args
            && t1[tid].vpid == s.threads[tid].vpid && t1[tid].ptid == s.threads[tid].ptid
            && (HasInitAbove(t1, tid) <==> HasInitAbove(WithId(ms, s.threads, tid), tid))
  {
    SameInitsAbove(NewProcess(ms, s, tid).threads, WithId(ms, s.threads, tid));
  }

  lemma DeclaredKind(cinfo: Info, th: Thread, kind: ProbeType)
    requires kind != NoProbe
    ensures cinfo.MatchHealthProbe(th.exe, NonEmpty(th.args)) == kind <==> Declares(cinfo, th, kind)
  {
    ProbeIsFirstWithCommand(cinfo.probes, th.exe, NonEmpty(th.args), kind);
  }

  /**
   * A process that is no init and inherits nothing is put in a probe category exactly if it runs a probe of
   * that kind of its container, and no init is above it.
   */
  lemma OwnCategory(ms: seq<Matcher>, s: State, tid: int)
    requires tid in s.threads && s.threads[tid].vpid != 1 && ParentHasNone(s.threads, tid)
    requires s.threads[tid].category == CatNone
    ensures var s1 := NewProcess(ms, s, tid);
            && (s1.threads[tid].category == CatHealthcheck <==> RunsProbe(s1, tid, Healthcheck))
            && (s1.threads[tid].category == CatLivenessProbe <==> RunsProbe(s1, tid, LivenessProbe))
            && (s1.threads[tid].category == CatReadinessProbe <==> RunsProbe(s1, tid, ReadinessProbe))
            && s1.threads[tid].category != CatContainer
  {
    var s1 := NewProcess(ms, s, tid);
    EntryAfterwards(ms, s, tid);
    if IsKnown(s1, tid) {
      var cinfo := s1.containers[s1.threads[tid].containerId];
      DeclaredKind(cinfo, s1.threads[tid], Healthcheck);
      DeclaredKind(cinfo, s1.threads[tid], LivenessProbe);
      DeclaredKind(cinfo, s1.threads[tid], ReadinessProbe);
    }
  }

  /** Whatever category the entry had before, running a probe decides it. */
  lemma ProbeDecides(ms: seq<Matcher>, s: State, tid: int, kind: ProbeType)
    requires tid in s.threads && s.threads[tid].vpid != 1 && ParentHasNone(s.threads, tid)
    requires kind != NoProbe && RunsProbe(NewProcess(ms, s, tid), tid, kind)
    ensures var c := NewProcess(ms, s, tid).threads[tid].category;
            && (kind == Healthcheck ==> c == CatHealthcheck)
            && (kind == LivenessProbe ==> c == CatLivenessProbe)
            && (kind == ReadinessProbe ==> c == CatReadinessProbe)
  {
    var s1 := NewProcess(ms, s, tid);
    EntryAfterwards(ms, s, tid);
    DeclaredKind(s1.containers[s1.threads[tid].containerId], s1.threads[tid], kind);
  }

  /** Inits are put in their containers, children of categorised parents in the parent's category. */
  lemma InitOrInherited(ms: seq<Matcher>, s: State, tid: int)
    requires tid in s.threads
    ensures var s1, th := NewProcess(ms, s, tid), s.threads[tid];
            var c := s1.threads[tid].category;
            if !IsKnown(s1, tid) then c == th.category
            else if th.vpid == 1 then c == CatContainer
            else !ParentHasNone(s.threads, tid) ==> c == s.threads[th.ptid].category
  {
  }

  /** No probe of the container has this command line: not both the executable and the arguments. */
  predicate Undeclared(cinfo: Info, th: Thread) {
    forall i :: 0 <= i < |cinfo.probes| ==>
      !(cinfo.probes[i].exe == th.exe && cinfo.probes[i].args == NonEmpty(th.args))
  }

  /**
   * Whose command line is no declared probe of its container is never put in a probe category by its own
   * event: the category stays, or is the container's for an init, or the parent's.
   */
  lemma UndeclaredIsNoProbe(ms: seq<Matcher>, s: State, tid: int)
    requires tid in s.threads
    requires var s1 := NewProcess(ms, s, tid);
             IsKnown(s1, tid) ==> Undeclared(s1.containers[s1.threads[tid].containerId], s.threads[tid])
    ensures var c, th := NewProcess(ms, s, tid).threads[tid].category, s.threads[tid];
            || c == th.category
            || (th.vpid == 1 && c == CatContainer)
            || (th.ptid in s.threads && c == s.threads[th.ptid].category)
  {
    var s1, th := NewProcess(ms, s, tid), s.threads[tid];
    if IsKnown(s1, tid) {
      UndeclaredHasNoKind(s1.containers[s1.threads[tid].containerId], th);
    }
  }

  lemma UndeclaredHasNoKind(cinfo: Info, th: Thread)
    requires Undeclared(cinfo, th)
    ensures cinfo.MatchHealthProbe(th.exe, NonEmpty(th.args)) == NoProbe
  {
    var kind := cinfo.MatchHealthProbe(th.exe, NonEmpty(th.args));
    if kind != NoProbe {
      DeclaredKind(cinfo, th, kind);
    }
  }

  // ---- the metadata that is sent ----

  /** The metadata that a matcher supplies for the process of an event. */
  function SuppliedFor(ms: seq<Matcher>, t: Table, e: Event): seq<Info> {
    if IsProcess(t, e) && Identify(ms, Entry(t, e)).info.Some? then [Identify(ms, Entry(t, e)).info.value] else []
  }

  ghost function AllSupplied(ms: seq<Matcher>, states: seq<State>, es: seq<Event>, n: nat): seq<Info>
    requires n <= |es| <= |states|
  {
    if n == 0 then [] else AllSupplied(ms, states, es, n - 1) + SuppliedFor(ms, states[n - 1].threads, es[n - 1])
  }

  lemma SentByStep(ms: seq<Matcher>, s: State, e: Event)
    ensures Step(ms, s, e).sent == s.sent + SuppliedFor(ms, s.threads, e)
  {
    if IsProcess(s.threads, e) {
      SentByProcess(ms, Entered(s, e), e.tid);
    }
  }

  lemma SentByProcess(ms: seq<Matcher>, s: State, tid: int)
    requires tid in s.threads
    ensures var info := Identify(ms, s.threads[tid]).info;
            NewProcess(ms, s, tid).sent == s.sent + if info.Some? then [info.value] else []
  {
  }

  /** The async events that the plugin generates are, in order, about what matchers supplied over the run. */
  lemma {:induction false} SentIsSupplied(ms: seq<Matcher>, states: seq<State>, es: seq<Event>, n: nat)
    requires IsRun(ms, states, es) && IsStart(states[0]) && n <= |es|
    ensures states[n].sent == AllSupplied(ms, states, es, n)
  {
    if n > 0 {
      assert Follows(ms, states, es, n - 1);
      SentIsSupplied(ms, states, es, n - 1);
      SentByStep(ms, states[n - 1], es[n - 1]);
    }
  }

  /** Every container so sent is cached under its id at once. */
  lemma SentIsCached(ms: seq<Matcher>, s: State, tid: int, info: Info)
    requires tid in s.threads && NewProcess(ms, s, tid).sent == s.sent + [info]
    ensures var s1 := NewProcess(ms, s, tid);
            && info.id in s1.containers && s1.containers[info.id] == info
            && s1.threads[tid].containerId == info.id && s1.asks == s.asks && s1.asked == s.asked
  {
    SentByProcess(ms, s, tid);
    LastOfSent(s.sent, NewProcess(ms, s, tid).sent, Identify(ms, s.threads[tid]).info, info);
    SuppliedIsNotAsked(ms, s, tid);
    IdentifiedInfoHasId(ms, s.threads[tid]);
  }

  lemma LastOfSent(before: seq<Info>, after: seq<Info>, supplied: Option<Info>, info: Info)
    requires after == before + [info] && after == before + if supplied.Some? then [supplied.value] else []
    ensures supplied == Some(info)
  {
    assert after[|after| - 1] == info;
  }

  // ---- what each event leaves alone ----

  /** What no event of a kind touches: for one, the metrics move with async events only. */
  lemma StepFrame(ms: seq<Matcher>, s: State, e: Event)
    ensures var s1 := Step(ms, s, e);
            && (!e.AsyncContainer? ==> s1.nContainers == s.nContainers && s1.nMissing == s.nMissing)
            && (!e.AsyncContainer? && !e.LegacyContainer? ==> s1.last == s.last)
            && (e.Exit? || e.Reopen? ==> s1.containers == s.containers)
            && (!e.Spawn? && !e.Exec? ==> s1.asks == s.asks && s1.sent == s.sent)
            && (e.AsyncContainer? || e.LegacyContainer? || e.Erase? ==> s1.threads == s.threads)
            && (e.AsyncContainer? && !e.added ==> s1.last == s.last)
            && (!(e.AsyncContainer? && e.added) ==> s.asked <= s1.asked)
  {
  }
}
