/** Health-probe categories: safety over runs, and over the passes at the opening of a capture. */
module Categories {
  import opened Wrappers
  import opened ContainerInfo
  import opened Matchers
  import opened Threads
  import opened PluginState
  import opened PluginRuns

  /** Neither healthcheck nor liveness nor readiness. */
  predicate NotProbe(c: Category) {
    c == CatNone || c == CatContainer
  }

  /** The table as it is once every entry has been processed, as far as ids go. */
  function Identified(ms: seq<Matcher>, t: Table): Table {
    map v | v in t :: t[v].(containerId := Identify(ms, t[v]).id)
  }

  predicate SameInits(t: Table, u: Table) {
    SameLinks(t, u) && forall a :: a in t ==> (IsInit(t, a) <==> IsInit(u, a))
  }

  lemma SameInitsAbove(t: Table, u: Table)
    requires SameInits(t, u)
    ensures forall v :: HasInitAbove(t, v) <==> HasInitAbove(u, v)
  {
    SameLinksAbove(t, u);
    forall v
      ensures HasInitAbove(t, v) <==> HasInitAbove(u, v)
    {
      if HasInitAbove(t, v) {
        var a :| Above(t, v, a) && IsInit(t, a);
        assert Above(u, v, a) && IsInit(u, a);
      }
      if HasInitAbove(u, v) {
        var a :| Above(u, v, a) && IsInit(u, a);
        assert Above(t, v, a) && IsInit(t, a);
      }
    }
  }

  /** done are the entries processed so far; inits and everything below one are in no probe category. */
  ghost predicate ProbesOutside(ms: seq<Matcher>, s: State, done: set<int>) {
    && Acyclic(s.threads)
    && (forall v :: v in s.threads && s.threads[v].vpid == 1 ==> NotProbe(s.threads[v].category))
    && (forall v :: v in done && v in s.threads && s.threads[v].vpid == 1 ==>
          s.threads[v].containerId == Identify(ms, s.threads[v]).id)
    && (forall v :: v in s.threads && HasInitAbove(Identified(ms, s.threads), v) ==> NotProbe(s.threads[v].category))
  }

  ghost predicate AncestorsIn(t: Table, tid: int, done: set<int>) {
    forall a :: Above(t, tid, a) && a in t ==> a in done
  }

  /** For an entry whose ancestors are processed, the climb sees the inits that there really are. */
  lemma ClimbSeesInits(ms: seq<Matcher>, s: State, tid: int, done: set<int>)
    requires tid in s.threads && ProbesOutside(ms, s, done) && AncestorsIn(s.threads, tid, done)
    ensures HasInitAbove(WithId(ms, s.threads, tid), tid) <==> HasInitAbove(Identified(ms, s.threads), tid)
  {
    var t, t1, u := s.threads, WithId(ms, s.threads, tid), Identified(ms, s.threads);
    SameLinksAbove(t, t1);
    SameLinksAbove(t, u);
    forall a | Above(t, tid, a) && a in t
      ensures IsInit(t1, a) <==> IsInit(u, a)
    {
    }
    if HasInitAbove(t1, tid) {
      var a :| Above(t1, tid, a) && IsInit(t1, a);
      assert Above(u, tid, a) && IsInit(u, a);
    }
    if HasInitAbove(u, tid) {
      var a :| Above(u, tid, a) && IsInit(u, a);
      assert Above(t1, tid, a) && IsInit(t1, a);
    }
  }

  /** The category written to an entry below an init is the parent's, and that is no probe's. */
  lemma InheritedCategory(ms: seq<Matcher>, s: State, tid: int, done: set<int>)
    requires tid in s.threads && ProbesOutside(ms, s, done)
    requires HasInitAbove(Identified(ms, s.threads), tid) && s.threads[tid].ptid in s.threads
    ensures NotProbe(s.threads[s.threads[tid].ptid].category)
  {
    var t, u := s.threads, Identified(ms, s.threads);
    var a :| Above(u, tid, a) && IsInit(u, a);
    AboveSplit(u, tid, a);
    assert a == t[tid].ptid || HasInitAbove(u, t[tid].ptid);
  }

  /** The metadata that the plugin finds for an entry declares a probe with the entry's command line. */
  ghost predicate Probing(ms: seq<Matcher>, s: State, tid: int)
    requires tid in s.threads
  {
    var th, m := s.threads[tid], Identify(ms, s.threads[tid]);
    var containers := WithInfo(s.containers, m.info);
    m.id != "" && m.id in containers && containers[m.id].MatchHealthProbe(th.exe, NonEmpty(th.args)) != NoProbe
  }

  /**
   * The entry has an init above it that the climb does not see, and is taken for a probe: its command line
   * is a probe's, it is no init itself, and there is no category to inherit.
   */
  ghost predicate Strays(ms: seq<Matcher>, s: State, tid: int)
    requires tid in s.threads
  {
    var t := s.threads;
    && t[tid].vpid != 1 && Probing(ms, s, tid)
    && (t[tid].ptid in t ==> t[t[tid].ptid].category == CatNone)
    && HasInitAbove(Identified(ms, t), tid) && !HasInitAbove(WithId(ms, t, tid), tid)
  }

  /** Processing an entry writes its container id and its category, and no other field or entry. */
  lemma ProcessWrites(ms: seq<Matcher>, s: State, tid: int)
    requires tid in s.threads
    ensures var t, t', m := s.threads, NewProcess(ms, s, tid).threads, Identify(ms, s.threads[tid]);
            && t' == t[tid := t[tid].(containerId := m.id, category := t'[tid].category)]
            && t'[tid].category == if m.id != "" && m.id in WithInfo(s.containers, m.info)
                                   then NewCategory(WithId(ms, t, tid), tid, WithInfo(s.containers, m.info)[m.id])
                                   else t[tid].category
  {
  }

  /** The category that processing writes to tid is safe if an init stands above it, or it is one. */
  lemma ProcessWritesSafely(ms: seq<Matcher>, s: State, tid: int, done: set<int>)
    requires tid in s.threads && ProbesOutside(ms, s, done) && !Strays(ms, s, tid)
    requires s.threads[tid].vpid == 1 || HasInitAbove(Identified(ms, s.threads), tid)
    ensures NotProbe(NewProcess(ms, s, tid).threads[tid].category)
  {
    var t, t1 := s.threads, WithId(ms, s.threads, tid);
    ProcessWrites(ms, s, tid);
    assert NotProbe(t[tid].category);
    if t[tid].vpid != 1 && t[tid].ptid in t {
      InheritedCategory(ms, s, tid, done);
      ParentIsAbove(t, tid);
      assert t1[t[tid].ptid] == t[t[tid].ptid];
    }
  }

  lemma StrayIsProbe(ms: seq<Matcher>, s: State, tid: int)
    requires tid in s.threads && Acyclic(s.threads) && Strays(ms, s, tid)
    ensures !NotProbe(NewProcess(ms, s, tid).threads[tid].category)
  {
    var t, t1 := s.threads, WithId(ms, s.threads, tid);
    ProcessWrites(ms, s, tid);
    if t[tid].ptid in t {
      ParentIsAbove(t, tid);
      assert t1[t[tid].ptid] == t[t[tid].ptid];
    }
  }

  /** Processing an entry keeps probes out of containers exactly if the entry does not stray. */
  lemma ProcessKeepsProbesOutside(ms: seq<Matcher>, s: State, tid: int, done: set<int>)
    requires tid in s.threads && ProbesOutside(ms, s, done)
    ensures ProbesOutside(ms, NewProcess(ms, s, tid), done + {tid}) <==> !Strays(ms, s, tid)
  {
    var t, t' := s.threads, NewProcess(ms, s, tid).threads;
    ProcessWrites(ms, s, tid);
    SameLinksAbove(t, t');
    SameInitsAbove(Identified(ms, t), Identified(ms, t'));
    if Strays(ms, s, tid) {
      StrayIsProbe(ms, s, tid);
    } else if t[tid].vpid == 1 || HasInitAbove(Identified(ms, t), tid) {
      ProcessWritesSafely(ms, s, tid, done);
    }
  }

  /** An entry whose ancestors have all been processed, or whose command is no probe's, does not stray. */
  lemma InSightDoesNotStray(ms: seq<Matcher>, s: State, tid: int, done: set<int>)
    requires tid in s.threads && ProbesOutside(ms, s, done)
    requires AncestorsIn(s.threads, tid, done) || !Probing(ms, s, tid)
    ensures !Strays(ms, s, tid)
  {
    if AncestorsIn(s.threads, tid, done) {
      ClimbSeesInits(ms, s, tid, done);
    }
  }

  // ---- runs ----

  /** The event makes an init of tid, one of a container, that was none before. */
  ghost predicate BecomesInit(ms: seq<Matcher>, s: State, e: Event)
    requires IsProcess(s.threads, e)
  {
    IsInit(Identified(ms, Entered(s, e).threads), e.tid) && !IsInit(Identified(ms, s.threads), e.tid)
  }

  /** Whatever stands below an entry that becomes an init is in no probe category yet. */
  ghost predicate NoProbesBelow(ms: seq<Matcher>, s: State, e: Event)
    requires IsProcess(s.threads, e)
  {
    BecomesInit(ms, s, e) ==>
      forall v :: v in s.threads && Above(s.threads, v, e.tid) ==> NotProbe(s.threads[v].category)
  }

  /** What libsinsp keeps to: ids of new threads are fresh, and no cycle of parents is scanned. */
  ghost predicate Regular(s: State, e: Event) {
    match e
    case Spawn(tid, th) => Fresh(s.threads, tid) && th.ptid != tid && th.category == CatNone
    case Reopen(table) => Acyclic(table)
    case _ => true
  }

  /** The event brings no init above a probe, and no probe below an init. */
  ghost predicate Harmless(ms: seq<Matcher>, s: State, e: Event) {
    IsProcess(s.threads, e) ==> NoProbesBelow(ms, s, e) && !Strays(ms, Entered(s, e), e.tid)
  }

  ghost predicate Steady(ms: seq<Matcher>, s: State, e: Event) {
    Regular(s, e) && Harmless(ms, s, e)
  }

  ghost function DoneBy(s: State, e: Event, done: set<int>): set<int> {
    if IsProcess(s.threads, e) then done + {e.tid} else if e.Reopen? then {} else done
  }

  /** The entries processed by the n-th event of a run, from done on. */
  ghost function Done(states: seq<State>, es: seq<Event>, done: set<int>, n: nat): set<int>
    requires n <= |es| <= |states|
  {
    if n == 0 then done else DoneBy(states[n - 1], es[n - 1], Done(states, es, done, n - 1))
  }

  ghost predicate SteadyRun(ms: seq<Matcher>, states: seq<State>, es: seq<Event>) {
    IsRun(ms, states, es) && forall i :: 0 <= i < |es| ==> Steady(ms, states[i], es[i])
  }

  /** A fresh leaf joins the table as if its container id had been there from the start. */
  lemma SpawnEnters(ms: seq<Matcher>, s: State, tid: int, th: Thread, done: set<int>)
    requires ProbesOutside(ms, s, done)
    requires Fresh(s.threads, tid) && th.ptid != tid && th.category == CatNone
    ensures ProbesOutside(ms, s.(threads := s.threads[tid := th]), done - {tid})
  {
    var t, t1 := s.threads, s.threads[tid := th];
    FreshLeaf(t, tid, th);
    forall v | v in t && HasInitAbove(Identified(ms, t1), v)
      ensures HasInitAbove(Identified(ms, t), v)
    {
      InitAboveLeaf(ms, t, tid, th, v);
    }
  }

  lemma InitAboveLeaf(ms: seq<Matcher>, t: Table, tid: int, th: Thread, v: int)
    requires Fresh(t, tid) && th.ptid != tid && v in t && HasInitAbove(Identified(ms, t[tid := th]), v)
    ensures HasInitAbove(Identified(ms, t), v)
  {
    var t1 := t[tid := th];
    var u, u1 := Identified(ms, t), Identified(ms, t1);
    FreshLeaf(t, tid, th);
    SameLinksAbove(t, u);
    SameLinksAbove(t1, u1);
    var a :| Above(u1, v, a) && IsInit(u1, a);
    assert Above(t, v, a) && a != tid;
    assert Above(u, v, a) && IsInit(u, a);
  }

  lemma SpawnKeepsProbesOutside(ms: seq<Matcher>, s: State, e: Event, done: set<int>)
    requires e.Spawn? && ProbesOutside(ms, s, done) && Regular(s, e)
    ensures ProbesOutside(ms, Step(ms, s, e), done + {e.tid}) <==> Harmless(ms, s, e)
  {
    SpawnEnters(ms, s, e.tid, e.th, done);
    ProcessKeepsProbesOutside(ms, Entered(s, e), e.tid, done - {e.tid});
    assert done - {e.tid} + {e.tid} == done + {e.tid};
    FreshLeaf(s.threads, e.tid, e.th);
  }

  /** An entry rewritten: only if it becomes an init can a probe come to stand below one. */
  lemma ExecEnters(ms: seq<Matcher>, s: State, e: Event, done: set<int>)
    requires e.Exec? && e.tid in s.threads && ProbesOutside(ms, s, done) && NoProbesBelow(ms, s, e)
    ensures ProbesOutside(ms, Entered(s, e), done - {e.tid})
  {
    var t, t1 := s.threads, Entered(s, e).threads;
    SameLinksAbove(t, t1);
    forall v | v in t && HasInitAbove(Identified(ms, t1), v)
      ensures NotProbe(t[v].category)
    {
      InitAboveRewritten(ms, s, e, v);
    }
  }

  lemma InitAboveRewritten(ms: seq<Matcher>, s: State, e: Event, v: int)
    requires e.Exec? && e.tid in s.threads && v in s.threads
    requires HasInitAbove(Identified(ms, Entered(s, e).threads), v)
    ensures HasInitAbove(Identified(ms, s.threads), v) || (BecomesInit(ms, s, e) && Above(s.threads, v, e.tid))
  {
    var t, t1 := s.threads, Entered(s, e).threads;
    var u, u1 := Identified(ms, t), Identified(ms, t1);
    SameLinksAbove(t, u);
    SameLinksAbove(t, u1);
    var a :| Above(u1, v, a) && IsInit(u1, a);
    assert Above(u, v, a) && Above(t, v, a);
    if a != e.tid {
      assert IsInit(u, a);
    }
  }

  /** An exec keeps probes out of containers exactly if it is harmless. */
  lemma ExecKeepsProbesOutside(ms: seq<Matcher>, s: State, e: Event, done: set<int>)
    requires e.Exec? && e.tid in s.threads && ProbesOutside(ms, s, done)
    ensures ProbesOutside(ms, Step(ms, s, e), done + {e.tid}) <==> Harmless(ms, s, e)
  {
    var s1 := Entered(s, e);
    if NoProbesBelow(ms, s, e) {
      ExecEnters(ms, s, e, done);
      ProcessKeepsProbesOutside(ms, s1, e.tid, done - {e.tid});
      assert done - {e.tid} + {e.tid} == done + {e.tid};
    } else {
      var v :| v in s.threads && Above(s.threads, v, e.tid) && !NotProbe(s.threads[v].category);
      SameLinksAbove(s.threads, s1.threads);
      assert v != e.tid && s1.threads[v] == s.threads[v];
      ProbeBelowNewInit(ms, s1, e.tid, v, done + {e.tid});
    }
  }

  /** An init that appears above a probe leaves the probe what it is. */
  lemma ProbeBelowNewInit(ms: seq<Matcher>, s: State, tid: int, v: int, done: set<int>)
    requires Acyclic(s.threads) && tid in s.threads && IsInit(Identified(ms, s.threads), tid)
    requires v in s.threads && Above(s.threads, v, tid) && !NotProbe(s.threads[v].category)
    ensures !ProbesOutside(ms, NewProcess(ms, s, tid), done)
  {
    var t' := NewProcess(ms, s, tid).threads;
    ProcessWrites(ms, s, tid);
    assert v != tid && t'[v] == s.threads[v];
    var u := Identified(ms, t');
    SameLinksAbove(s.threads, u);
    assert Above(u, v, tid) && IsInit(u, tid);
  }

  lemma ExitKeepsProbesOutside(ms: seq<Matcher>, s: State, tid: int, done: set<int>)
    requires ProbesOutside(ms, s, done)
    ensures ProbesOutside(ms, Step(ms, s, Exit(tid)), done)
  {
    var t, t1 := s.threads, s.threads - {tid};
    var u, u1 := Identified(ms, t), Identified(ms, t1);
    LargerTableAbove(t1, t);
    LargerTableAbove(u1, u);
    forall v | v in t1 && HasInitAbove(u1, v)
      ensures HasInitAbove(u, v)
    {
      var a :| Above(u1, v, a) && IsInit(u1, a);
      assert Above(u, v, a) && IsInit(u, a);
    }
  }

  lemma UnvisitedHasNoProbes(ms: seq<Matcher>, s: State)
    requires Unvisited(s.threads) && Acyclic(s.threads)
    ensures ProbesOutside(ms, s, {})
  {
  }

  /** A regular event keeps probes out of containers exactly if it is harmless. */
  lemma StepKeepsProbesOutside(ms: seq<Matcher>, s: State, e: Event, done: set<int>)
    requires ProbesOutside(ms, s, done) && Regular(s, e)
    ensures ProbesOutside(ms, Step(ms, s, e), DoneBy(s, e, done)) <==> Harmless(ms, s, e)
  {
    match e
    case Spawn(_, _) => SpawnKeepsProbesOutside(ms, s, e, done);
    case Exec(tid, _, _, _) =>
      if tid in s.threads {
        ExecKeepsProbesOutside(ms, s, e, done);
      }
    case Exit(tid) => ExitKeepsProbesOutside(ms, s, tid, done);
    case Reopen(table) =>
      SameLinksAbove(table, Scanned(table));
      UnvisitedHasNoProbes(ms, Step(ms, s, e));
    case _ =>
  }

  lemma {:induction false} RunKeepsProbesOutside(ms: seq<Matcher>, states: seq<State>, es: seq<Event>, done: set<int>, n: nat)
    requires SteadyRun(ms, states, es) && ProbesOutside(ms, states[0], done) && n <= |es|
    ensures ProbesOutside(ms, states[n], Done(states, es, done, n))
  {
    if n > 0 {
      assert Follows(ms, states, es, n - 1);
      RunKeepsProbesOutside(ms, states, es, done, n - 1);
      StepKeepsProbesOutside(ms, states[n - 1], es[n - 1], Done(states, es, done, n - 1));
    }
  }

  /** The condition is exact: a run of regular events is safe in all its states only if it is steady. */
  lemma SafeRunIsSteady(ms: seq<Matcher>, states: seq<State>, es: seq<Event>, done: set<int>)
    requires IsRun(ms, states, es) && forall i :: 0 <= i < |es| ==> Regular(states[i], es[i])
    requires forall n :: 0 <= n <= |es| ==> ProbesOutside(ms, states[n], Done(states, es, done, n))
    ensures SteadyRun(ms, states, es)
  {
    forall i | 0 <= i < |es|
      ensures Steady(ms, states[i], es[i])
    {
      assert Follows(ms, states, es, i);
      StepKeepsProbesOutside(ms, states[i], es[i], Done(states, es, done, i));
      assert Done(states, es, done, i + 1) == DoneBy(states[i], es[i], Done(states, es, done, i));
    }
  }

  /** An entry that has not been processed has no container id. */
  predicate IdsAreWritten(t: Table, done: set<int>) {
    forall v :: v in t && v !in done ==> t[v].containerId == ""
  }

  lemma {:induction false} RunWritesIds(ms: seq<Matcher>, states: seq<State>, es: seq<Event>, done: set<int>, n: nat)
    requires IsRun(ms, states, es) && IdsAreWritten(states[0].threads, done) && n <= |es|
    ensures IdsAreWritten(states[n].threads, Done(states, es, done, n))
  {
    if n > 0 {
      assert Follows(ms, states, es, n - 1);
      RunWritesIds(ms, states, es, done, n - 1);
      StepWritesIds(ms, states[n - 1], es[n - 1], Done(states, es, done, n - 1));
    }
  }

  lemma StepWritesIds(ms: seq<Matcher>, s: State, e: Event, done: set<int>)
    requires IdsAreWritten(s.threads, done)
    ensures IdsAreWritten(Step(ms, s, e).threads, DoneBy(s, e, done))
  {
    if IsProcess(s.threads, e) {
      ProcessWrites(ms, Entered(s, e), e.tid);
    }
  }

  lemma NoProbeBelowInit(ms: seq<Matcher>, s: State, done: set<int>, tid: int)
    requires ProbesOutside(ms, s, done) && IdsAreWritten(s.threads, done)
    requires tid in s.threads && HasInitAbove(s.threads, tid)
    ensures NotProbe(s.threads[tid].category)
  {
    var u := Identified(ms, s.threads);
    SameLinksAbove(s.threads, u);
    var a :| Above(s.threads, tid, a) && IsInit(s.threads, a);
    assert Above(u, tid, a) && IsInit(u, a);
  }

  // ---- a pass over the whole table ----

  /** The entries of the table, each of them once. */
  ghost predicate IsOrder(t: Table, order: seq<int>) {
    && (forall tid :: tid in t <==> tid in order)
    && (forall i, j :: 0 <= i < j < |order| ==> order[i] != order[j])
  }

  /** Each entry after its parent, if the table has the parent. */
  ghost predicate ParentsFirst(t: Table, order: seq<int>) {
    && IsOrder(t, order)
    && forall i :: 0 <= i < |order| && order[i] in t && t[order[i]].ptid in t ==> t[order[i]].ptid in order[..i]
  }

  lemma {:induction false} AncestorsComeFirst(t: Table, order: seq<int>, i: nat, n: nat)
    requires ParentsFirst(t, order) && i < |order| && n >= 1
    requires Up(t, order[i], n).Some? && Up(t, order[i], n).value in t
    ensures Up(t, order[i], n).value in order[..i]
  {
    assert Up(t, order[i], 0) == Some(order[i]);
    if n > 1 {
      UpThrough(t, order[i], n - 1, n);
      AncestorsComeFirst(t, order, i, n - 1);
      var j :| 0 <= j < i && order[j] == Up(t, order[i], n - 1).value;
      assert t[order[j]].ptid in order[..j];
    }
  }

  function Visited(order: seq<int>, i: nat): set<int>
    requires i <= |order|
  {
    set j | 0 <= j < i :: order[j]
  }

  lemma AncestorsVisited(t: Table, order: seq<int>, i: nat)
    requires ParentsFirst(t, order) && i < |order|
    ensures AncestorsIn(t, order[i], Visited(order, i))
  {
    forall a | Above(t, order[i], a) && a in t
      ensures a in Visited(order, i)
    {
      var n: nat :| n >= 1 && Up(t, order[i], n) == Some(a);
      AncestorsComeFirst(t, order, i, n);
    }
  }

  lemma AllVisited(t: Table, order: seq<int>)
    requires forall tid :: tid in t <==> tid in order
    ensures t.Keys == Visited(order, |order|)
  {
    forall v
      ensures v in t <==> v in Visited(order, |order|)
    {
      assert v in t <==> v in order;
    }
  }

  /** No entry strays at its visit. */
  ghost predicate PassIsSteady(ms: seq<Matcher>, s: State, order: seq<int>)
    requires forall tid :: tid in order ==> tid in s.threads
  {
    forall i :: 0 <= i < |order| ==> !Strays(ms, Captured(ms, s, order[..i]), order[i])
  }

  lemma {:induction false} PassKeepsProbesOutside(ms: seq<Matcher>, s: State, order: seq<int>, i: nat)
    requires Unvisited(s.threads) && Acyclic(s.threads) && (forall tid :: tid in order ==> tid in s.threads)
    requires i <= |order| && forall j :: 0 <= j < i ==> !Strays(ms, Captured(ms, s, order[..j]), order[j])
    ensures ProbesOutside(ms, Captured(ms, s, order[..i]), Visited(order, i))
  {
    if i == 0 {
      UnvisitedHasNoProbes(ms, s);
      assert order[..0] == [] && Visited(order, 0) == {};
    } else {
      PassKeepsProbesOutside(ms, s, order, i - 1);
      CapturedOneMore(ms, s, order, i - 1);
      VisitKeepsProbesOutside(ms, Captured(ms, s, order[..i - 1]), order, i - 1);
    }
  }

  lemma VisitKeepsProbesOutside(ms: seq<Matcher>, s: State, order: seq<int>, i: nat)
    requires i < |order| && order[i] in s.threads && ProbesOutside(ms, s, Visited(order, i)) && !Strays(ms, s, order[i])
    ensures ProbesOutside(ms, NewProcess(ms, s, order[i]), Visited(order, i + 1))
  {
    ProcessKeepsProbesOutside(ms, s, order[i], Visited(order, i));
    assert Visited(order, i + 1) == Visited(order, i) + {order[i]};
  }

  /** With parents first, whatever the cache holds, no entry strays. */
  lemma ParentsFirstIsSteady(ms: seq<Matcher>, s: State, order: seq<int>, i: nat)
    requires Unvisited(s.threads) && Acyclic(s.threads) && ParentsFirst(s.threads, order) && i <= |order|
    ensures forall j :: 0 <= j < i ==> !Strays(ms, Captured(ms, s, order[..j]), order[j])
  {
    forall j | 0 <= j < i
      ensures !Strays(ms, Captured(ms, s, order[..j]), order[j])
    {
      ParentsFirstKeepsProbesOutside(ms, s, order, j);
      ParentsFirstVisit(ms, s, order, j);
    }
  }

  lemma {:induction false} ParentsFirstKeepsProbesOutside(ms: seq<Matcher>, s: State, order: seq<int>, i: nat)
    requires Unvisited(s.threads) && Acyclic(s.threads) && ParentsFirst(s.threads, order) && i <= |order|
    ensures ProbesOutside(ms, Captured(ms, s, order[..i]), Visited(order, i))
  {
    if i == 0 {
      PassKeepsProbesOutside(ms, s, order, 0);
    } else {
      ParentsFirstKeepsProbesOutside(ms, s, order, i - 1);
      ParentsFirstVisitKeeps(ms, s, order, i - 1);
    }
  }

  lemma ParentsFirstVisitKeeps(ms: seq<Matcher>, s: State, order: seq<int>, i: nat)
    requires ParentsFirst(s.threads, order) && i < |order|
    requires ProbesOutside(ms, Captured(ms, s, order[..i]), Visited(order, i))
    ensures ProbesOutside(ms, Captured(ms, s, order[..i + 1]), Visited(order, i + 1))
  {
    ParentsFirstVisit(ms, s, order, i);
    CapturedOneMore(ms, s, order, i);
    VisitKeepsProbesOutside(ms, Captured(ms, s, order[..i]), order, i);
  }

  lemma ParentsFirstVisit(ms: seq<Matcher>, s: State, order: seq<int>, i: nat)
    requires ParentsFirst(s.threads, order) && i < |order|
    requires ProbesOutside(ms, Captured(ms, s, order[..i]), Visited(order, i))
    ensures !Strays(ms, Captured(ms, s, order[..i]), order[i])
  {
    AncestorsVisited(s.threads, order, i);
    CapturedKeepsProcesses(ms, s, order[..i]);
    SameLinksAbove(s.threads, Captured(ms, s, order[..i]).threads);
    InSightDoesNotStray(ms, Captured(ms, s, order[..i]), order[i], Visited(order, i));
  }

  /** No cached container declares a probe. */
  predicate Probeless(s: State) {
    forall k :: k in s.containers ==> s.containers[k].probes == []
  }

  lemma ProbelessVisit(ms: seq<Matcher>, s: State, tid: int)
    requires DeclareNoProbes(ms) && Probeless(s) && tid in s.threads
    ensures !Probing(ms, s, tid) && Probeless(NewProcess(ms, s, tid))
  {
    IdentifiedInfoHasId(ms, s.threads[tid]);
  }

  lemma {:induction false} ProbelessPass(ms: seq<Matcher>, s: State, order: seq<int>, i: nat)
    requires DeclareNoProbes(ms) && Probeless(s) && (forall tid :: tid in order ==> tid in s.threads) && i <= |order|
    ensures Probeless(Captured(ms, s, order[..i]))
  {
    if i > 0 {
      ProbelessPass(ms, s, order, i - 1);
      CapturedOneMore(ms, s, order, i - 1);
      ProbelessVisit(ms, Captured(ms, s, order[..i - 1]), order[i - 1]);
    }
  }

  /** At the start the cache holds the host alone, so that no entry strays in any order. */
  lemma StartIsSteady(ms: seq<Matcher>, s: State, order: seq<int>)
    requires IsStart(s) && DeclareNoProbes(ms) && forall tid :: tid in order ==> tid in s.threads
    ensures PassIsSteady(ms, s, order)
  {
    forall i | 0 <= i < |order|
      ensures !Strays(ms, Captured(ms, s, order[..i]), order[i])
    {
      ProbelessPass(ms, s, order, i);
      ProbelessVisit(ms, Captured(ms, s, order[..i]), order[i]);
    }
  }

  lemma PassIsSafe(ms: seq<Matcher>, s: State, order: seq<int>)
    requires Unvisited(s.threads) && Acyclic(s.threads) && forall tid :: tid in s.threads <==> tid in order
    requires PassIsSteady(ms, s, order)
    ensures ProbesOutside(ms, Captured(ms, s, order), s.threads.Keys)
  {
    PassKeepsProbesOutside(ms, s, order, |order|);
    assert order[..|order|] == order;
    AllVisited(s.threads, order);
  }

  /**
   * The plugin starts, visits the initial table in whatever order the table iterates, and then runs,
   * over later openings of the capture as well, in whatever order they visit the processes, as long as no
   * event does the harm that a single step can do. Whenever a thread has an init of some container among
   * the strict ancestors that the table holds, it is in no probe category.
   */
  lemma NoProbeInsideContainer(ms: seq<Matcher>, s: State, order: seq<int>,
                               states: seq<State>, es: seq<Event>, n: nat, tid: int)
    requires IsStart(s) && Acyclic(s.threads) && DeclareNoProbes(ms)
    requires forall v :: v in s.threads <==> v in order
    requires SteadyRun(ms, states, es) && states[0] == Captured(ms, s, order) && n <= |es|
    requires tid in states[n].threads && HasInitAbove(states[n].threads, tid)
    ensures NotProbe(states[n].threads[tid].category)
  {
    var done := s.threads.Keys;
    StartIsSteady(ms, s, order);
    PassIsSafe(ms, s, order);
    RunKeepsProbesOutside(ms, states, es, done, n);
    RunWritesIds(ms, states, es, done, n);
    NoProbeBelowInit(ms, states[n], Done(states, es, done, n), tid);
  }

  // ---- within one capture ----

  /** Ids of threads are fresh, the pid and cgroups of an init stay what they are, the capture stays open. */
  ghost predicate Plain(s: State, e: Event) {
    && Regular(s, e) && !e.Reopen?
    && (e.Exec? && e.tid in s.threads && s.threads[e.tid].vpid == 1 ==> e.cgroups == s.threads[e.tid].cgroups)
  }

  ghost predicate AllDone(ms: seq<Matcher>, s: State, done: set<int>) {
    ProbesOutside(ms, s, done) && s.threads.Keys <= done
  }

  lemma PlainEnters(ms: seq<Matcher>, s: State, e: Event, done: set<int>)
    requires IsProcess(s.threads, e) && Plain(s, e) && ProbesOutside(ms, s, done)
    ensures NoProbesBelow(ms, s, e) && ProbesOutside(ms, Entered(s, e), done - {e.tid})
  {
    if e.Spawn? {
      FreshLeaf(s.threads, e.tid, e.th);
      SpawnEnters(ms, s, e.tid, e.th, done);
    } else {
      assert !BecomesInit(ms, s, e);
      ExecEnters(ms, s, e, done);
    }
  }

  lemma PlainIsSteady(ms: seq<Matcher>, s: State, e: Event, done: set<int>)
    requires Plain(s, e) && AllDone(ms, s, done)
    ensures Steady(ms, s, e) && AllDone(ms, Step(ms, s, e), DoneBy(s, e, done))
  {
    if IsProcess(s.threads, e) {
      PlainEnters(ms, s, e, done);
      assert AncestorsIn(Entered(s, e).threads, e.tid, done - {e.tid});
      InSightDoesNotStray(ms, Entered(s, e), e.tid, done - {e.tid});
      ProcessWrites(ms, Entered(s, e), e.tid);
    }
    StepKeepsProbesOutside(ms, s, e, done);
  }

  ghost predicate PlainRun(ms: seq<Matcher>, states: seq<State>, es: seq<Event>) {
    IsRun(ms, states, es) && forall i :: 0 <= i < |es| ==> Plain(states[i], es[i])
  }

  lemma {:induction false} PlainRunStaysDone(ms: seq<Matcher>, states: seq<State>, es: seq<Event>, n: nat)
    requires PlainRun(ms, states, es) && ProbesOutside(ms, states[0], states[0].threads.Keys) && n <= |es|
    ensures AllDone(ms, states[n], Done(states, es, states[0].threads.Keys, n))
  {
    if n > 0 {
      assert Follows(ms, states, es, n - 1);
      PlainRunStaysDone(ms, states, es, n - 1);
      PlainIsSteady(ms, states[n - 1], es[n - 1], Done(states, es, states[0].threads.Keys, n - 1));
    }
  }

  /** Within one capture, these simple conditions are all that the safety theorem asks of a run. */
  lemma PlainRunIsSteady(ms: seq<Matcher>, states: seq<State>, es: seq<Event>)
    requires PlainRun(ms, states, es) && ProbesOutside(ms, states[0], states[0].threads.Keys)
    ensures SteadyRun(ms, states, es)
  {
    forall i | 0 <= i < |es|
      ensures Steady(ms, states[i], es[i])
    {
      PlainRunStaysDone(ms, states, es, i);
      PlainIsSteady(ms, states[i], es[i], Done(states, es, states[0].threads.Keys, i));
    }
  }

  /** What a run has to meet is met by a parents-first pass over newly scanned processes, whatever the cache. */
  lemma ReopeningIsSteady(ms: seq<Matcher>, s: State, order: seq<int>, i: nat)
    requires Unvisited(s.threads) && Acyclic(s.threads) && ParentsFirst(s.threads, order) && i < |order|
    ensures Steady(ms, Captured(ms, s, order[..i]), Visit(s.threads, order[i]))
  {
    ParentsFirstIsSteady(ms, s, order, |order|);
    CapturedKeepsProcesses(ms, s, order[..i]);
    VisitIsNewProcess(ms, s.threads, Captured(ms, s, order[..i]), order[i]);
  }
}
