/** What capture_open computes over the thread table, in any order (src/caps/listening/listening.cpp). */
module Capture {
  import opened Wrappers
  import opened ContainerInfo
  import opened Matchers
  import opened Threads
  import opened PluginState
  import opened PluginRuns
  import opened Categories

  ghost function Ancestors(t: Table, tid: int): set<int> {
    set a | a in t.Keys && Above(t, tid, a)
  }

  lemma ParentHasFewerAncestors(t: Table, tid: int)
    requires Acyclic(t) && tid in t && t[tid].ptid in t
    ensures Ancestors(t, t[tid].ptid) < Ancestors(t, tid)
  {
    var p := t[tid].ptid;
    ParentIsAbove(t, tid);
    forall a | a in Ancestors(t, p)
      ensures a in Ancestors(t, tid)
    {
      AboveTransitive(t, tid, p, a);
    }
    assert p in Ancestors(t, tid) && p !in Ancestors(t, p);
  }

  lemma AncestorHasFewerAncestors(t: Table, tid: int, a: int)
    requires Acyclic(t) && a in t && Above(t, tid, a)
    ensures Ancestors(t, a) < Ancestors(t, tid)
  {
    forall b | b in Ancestors(t, a)
      ensures b in Ancestors(t, tid)
    {
      AboveTransitive(t, tid, a, b);
    }
    assert a in Ancestors(t, tid) && a !in Ancestors(t, a);
  }

  // ---- what an entry finds, and what is made of it ----

  /** The probe that an entry's command line is, by some metadata. */
  function ProbeOf(th: Thread, info: Info): ProbeType {
    info.MatchHealthProbe(th.exe, NonEmpty(th.args))
  }

  /** The entry is in a container whose metadata is the worker's to report. */
  predicate Waits(ms: seq<Matcher>, th: Thread) {
    Identify(ms, th).id != "" && Identify(ms, th).info.None?
  }

  /** A matcher supplies metadata under this id for the entry. */
  predicate Supplies(ms: seq<Matcher>, th: Thread, id: string) {
    Identify(ms, th).info.Some? && Identify(ms, th).id == id
  }

  /** The probe by the metadata of its matcher, or by what the cache held at the start; None without metadata. */
  function StartProbe(ms: seq<Matcher>, s: State, tid: int): Option<ProbeType>
    requires tid in s.threads
  {
    var th, m := s.threads[tid], Identify(ms, s.threads[tid]);
    if m.id == "" then None
    else if m.info.Some? then Some(ProbeOf(th, m.info.value))
    else if m.id in s.containers then Some(ProbeOf(th, s.containers[m.id]))
    else None
  }

  ghost predicate SuppliedAbove(ms: seq<Matcher>, t: Table, tid: int)
    requires tid in t
  {
    exists u :: u in t && Above(t, tid, u) && Supplies(ms, t[u], Identify(ms, t[tid]).id)
  }

  /** An entry that waits finds what a matcher supplied for an ancestor; that never declares a probe. */
  ghost function Finds(ms: seq<Matcher>, s: State, tid: int): Option<ProbeType>
    requires tid in s.threads
  {
    if Waits(ms, s.threads[tid]) && SuppliedAbove(ms, s.threads, tid) then Some(NoProbe) else StartProbe(ms, s, tid)
  }

  /** What write_thread_category makes of an entry that finds metadata, or nothing. */
  function Outcome(th: Thread, found: Option<ProbeType>, inherited: Category, initAbove: bool): Category {
    match found
    case None => th.category
    case Some(probe) =>
      if th.vpid == 1 then CatContainer
      else if inherited != CatNone then inherited
      else if probe == NoProbe || initAbove then th.category
      else ProbeCategory(probe)
  }

  /** The category of an entry, by recursion over its ancestors and without any order of visits. */
  ghost function Classify(ms: seq<Matcher>, s: State, tid: int): Category
    requires Acyclic(s.threads) && tid in s.threads
    decreases Ancestors(s.threads, tid), 1
  {
    Outcome(s.threads[tid], Finds(ms, s, tid), InheritedBy(ms, s, tid), HasInitAbove(Identified(ms, s.threads), tid))
  }

  ghost function InheritedBy(ms: seq<Matcher>, s: State, tid: int): Category
    requires Acyclic(s.threads) && tid in s.threads
    decreases Ancestors(s.threads, tid), 0
  {
    var p := s.threads[tid].ptid;
    if p in s.threads then
      ParentHasFewerAncestors(s.threads, tid);
      Classify(ms, s, p)
    else CatNone
  }

  // ---- the same, as a pass in some order sees it ----

  ghost predicate Precedes(order: seq<int>, u: int, v: int) {
    exists i, j :: 0 <= i < j < |order| && order[i] == u && order[j] == v
  }

  /** The table as the visit of tid sees it: the ids of the entries visited before are written. */
  ghost function SeenBy(ms: seq<Matcher>, t: Table, order: seq<int>, tid: int): Table {
    map v | v in t :: if Precedes(order, v, tid) then t[v].(containerId := Identify(ms, t[v]).id) else t[v]
  }

  /** The part of the order that comes before tid. */
  function Front(order: seq<int>, tid: int): (front: seq<int>)
    ensures forall u :: u in front ==> u in order
  {
    if order == [] || order[0] == tid then [] else [order[0]] + Front(order[1..], tid)
  }

  /** The metadata that the matchers of the entries in order last supplied under id. */
  function LastSupplied(ms: seq<Matcher>, t: Table, order: seq<int>, id: string): Option<Info>
    requires forall u :: u in order ==> u in t
  {
    if order == [] then None
    else
      var last := order[|order| - 1];
      if Supplies(ms, t[last], id) then Identify(ms, t[last]).info
      else LastSupplied(ms, t, order[..|order| - 1], id)
  }

  function Get(containers: map<string, Info>, id: string): Option<Info> {
    if id in containers then Some(containers[id]) else None
  }

  /** What the cache holds under id once the entries of order have been visited. */
  function Cached(ms: seq<Matcher>, s: State, order: seq<int>, id: string): Option<Info>
    requires forall u :: u in order ==> u in s.threads
  {
    var supplied := LastSupplied(ms, s.threads, order, id);
    if supplied.Some? then supplied else Get(s.containers, id)
  }

  function FindsIn(ms: seq<Matcher>, s: State, order: seq<int>, tid: int): Option<ProbeType>
    requires tid in s.threads && forall u :: u in order ==> u in s.threads
  {
    var th, m := s.threads[tid], Identify(ms, s.threads[tid]);
    if m.id == "" then None
    else if m.info.Some? then Some(ProbeOf(th, m.info.value))
    else match Cached(ms, s, Front(order, tid), m.id)
      case None => None
      case Some(info) => Some(ProbeOf(th, info))
  }

  /** The category that a pass in the given order leaves. */
  ghost function ClassifyIn(ms: seq<Matcher>, s: State, order: seq<int>, tid: int): Category
    requires Acyclic(s.threads) && tid in s.threads && forall u :: u in order ==> u in s.threads
    decreases Ancestors(s.threads, tid), 1
  {
    Outcome(s.threads[tid], FindsIn(ms, s, order, tid), InheritedIn(ms, s, order, tid),
            HasInitAbove(SeenBy(ms, s.threads, order, tid), tid))
  }

  ghost function InheritedIn(ms: seq<Matcher>, s: State, order: seq<int>, tid: int): Category
    requires Acyclic(s.threads) && tid in s.threads && forall u :: u in order ==> u in s.threads
    decreases Ancestors(s.threads, tid), 0
  {
    var p := s.threads[tid].ptid;
    if p in s.threads then
      ParentHasFewerAncestors(s.threads, tid);
      if Precedes(order, p, tid) then ClassifyIn(ms, s, order, p) else s.threads[p].category
    else CatNone
  }

  /** What the pass leaves of entry tid. */
  ghost function ClassifiedIn(ms: seq<Matcher>, s: State, order: seq<int>, tid: int): Thread
    requires Acyclic(s.threads) && tid in s.threads && forall u :: u in order ==> u in s.threads
  {
    s.threads[tid].(containerId := Identify(ms, s.threads[tid]).id, category := ClassifyIn(ms, s, order, tid))
  }

  // ---- the pass, visit by visit ----

  /** The threads of the table once the entries of done have been visited. */
  ghost predicate TableHalfWay(ms: seq<Matcher>, s: State, order: seq<int>, t: Table, done: set<int>)
    requires forall u :: u in order ==> u in s.threads
  {
    && t.Keys == s.threads.Keys
    && Acyclic(s.threads)
    && forall v :: v in s.threads ==> t[v] == if v in done then ClassifiedIn(ms, s, order, v) else s.threads[v]
  }

  /** The cache once the entries of visited have been visited. */
  ghost predicate CacheHalfWay(ms: seq<Matcher>, s: State, visited: seq<int>, containers: map<string, Info>)
    requires forall u :: u in visited ==> u in s.threads
  {
    forall id :: Get(containers, id) == Cached(ms, s, visited, id)
  }

  /** done are the entries that come before tid in the order. */
  ghost predicate AreBefore(order: seq<int>, tid: int, done: set<int>) {
    tid !in done && forall u :: u in done <==> Precedes(order, u, tid)
  }

  lemma VisitedAreBefore(t: Table, order: seq<int>, i: nat)
    requires IsOrder(t, order) && i < |order|
    ensures AreBefore(order, order[i], Visited(order, i))
  {
    forall u
      ensures u in Visited(order, i) <==> Precedes(order, u, order[i])
    {
      if u in Visited(order, i) {
        var j :| 0 <= j < i && order[j] == u;
        assert Precedes(order, u, order[i]);
      }
      if Precedes(order, u, order[i]) {
        var j, k :| 0 <= j < k < |order| && order[j] == u && order[k] == order[i];
        assert k == i;
      }
    }
  }

  lemma {:induction false} FrontIs(order: seq<int>, i: nat)
    requires i < |order| && forall j, k :: 0 <= j < k < |order| ==> order[j] != order[k]
    ensures Front(order, order[i]) == order[..i]
  {
    if i > 0 {
      FrontIs(order[1..], i - 1);
      assert order[..i] == [order[0]] + order[1..][..i - 1];
    }
  }

  lemma SameInitsSeen(t: Table, u: Table, tid: int)
    requires SameLinks(t, u) && forall a :: Above(t, tid, a) && a in t ==> (IsInit(t, a) <==> IsInit(u, a))
    ensures HasInitAbove(t, tid) <==> HasInitAbove(u, tid)
  {
    SameLinksAbove(t, u);
    if HasInitAbove(t, tid) {
      var a :| Above(t, tid, a) && IsInit(t, a);
      assert Above(u, tid, a) && IsInit(u, a);
    }
    if HasInitAbove(u, tid) {
      var a :| Above(u, tid, a) && IsInit(u, a);
      assert Above(t, tid, a) && IsInit(t, a);
    }
  }

  /** The climb from an entry at its visit sees the inits that have been visited. */
  lemma ClimbSeesVisited(ms: seq<Matcher>, s: State, order: seq<int>, t: Table, tid: int, done: set<int>)
    requires IsOrder(s.threads, order) && TableHalfWay(ms, s, order, t, done)
    requires tid in s.threads && AreBefore(order, tid, done)
    ensures HasInitAbove(WithId(ms, t, tid), tid) <==> HasInitAbove(SeenBy(ms, s.threads, order, tid), tid)
  {
    var t1, u := WithId(ms, t, tid), SeenBy(ms, s.threads, order, tid);
    SameLinksAbove(s.threads, t1);
    forall a | Above(t1, tid, a) && a in t1
      ensures IsInit(t1, a) <==> IsInit(u, a)
    {
      assert a != tid && t1[a] == t[a];
    }
    SameInitsSeen(t1, u, tid);
  }

  /** At its visit the entry finds what its place in the order lets it find. */
  lemma FoundAtVisit(ms: seq<Matcher>, s: State, order: seq<int>, containers: map<string, Info>, i: nat)
    requires IsOrder(s.threads, order) && i < |order| && order[i] in s.threads
    requires CacheHalfWay(ms, s, order[..i], containers)
    ensures var th, m := s.threads[order[i]], Identify(ms, s.threads[order[i]]);
            FindsIn(ms, s, order, order[i]) ==
            if m.id != "" && m.id in WithInfo(containers, m.info)
            then Some(ProbeOf(th, WithInfo(containers, m.info)[m.id])) else None
  {
    var m := Identify(ms, s.threads[order[i]]);
    IdentifiedInfoHasId(ms, s.threads[order[i]]);
    FrontIs(order, i);
    assert Get(containers, m.id) == Cached(ms, s, order[..i], m.id);
  }

  /** At its visit the entry inherits and climbs as its place in the order has it. */
  lemma DecidedAtVisit(ms: seq<Matcher>, s: State, order: seq<int>, t: Table, tid: int, done: set<int>, info: Info)
    requires IsOrder(s.threads, order) && TableHalfWay(ms, s, order, t, done)
    requires tid in s.threads && AreBefore(order, tid, done)
    ensures NewCategory(WithId(ms, t, tid), tid, info) ==
            Outcome(s.threads[tid], Some(ProbeOf(s.threads[tid], info)), InheritedIn(ms, s, order, tid),
                    HasInitAbove(SeenBy(ms, s.threads, order, tid), tid))
  {
    var t1, p := WithId(ms, t, tid), s.threads[tid].ptid;
    ClimbSeesVisited(ms, s, order, t, tid, done);
    assert t[tid] == s.threads[tid];
    if p in s.threads {
      ParentIsAbove(s.threads, tid);
      assert t1[p] == t[p];
      assert t[p].category == if p in done then ClassifyIn(ms, s, order, p) else s.threads[p].category;
    }
  }

  /** A visit classifies the entry as its place in the order has it, and leaves the others alone. */
  lemma VisitClassifies(ms: seq<Matcher>, s: State, order: seq<int>, s1: State, i: nat)
    requires IsOrder(s.threads, order) && i < |order|
    requires TableHalfWay(ms, s, order, s1.threads, Visited(order, i)) && CacheHalfWay(ms, s, order[..i], s1.containers)
    ensures NewProcess(ms, s1, order[i]).threads == s1.threads[order[i] := ClassifiedIn(ms, s, order, order[i])]
  {
    var tid := order[i];
    var m := Identify(ms, s.threads[tid]);
    VisitedAreBefore(s.threads, order, i);
    assert s1.threads[tid] == s.threads[tid];
    ProcessWrites(ms, s1, tid);
    FoundAtVisit(ms, s, order, s1.containers, i);
    if m.id != "" && m.id in WithInfo(s1.containers, m.info) {
      DecidedAtVisit(ms, s, order, s1.threads, tid, Visited(order, i), WithInfo(s1.containers, m.info)[m.id]);
    }
  }

  lemma NewProcessCaches(ms: seq<Matcher>, s: State, tid: int)
    requires tid in s.threads
    ensures NewProcess(ms, s, tid).containers == WithInfo(s.containers, Identify(ms, s.threads[tid]).info)
  {
  }

  lemma VisitKeepsCache(ms: seq<Matcher>, s: State, order: seq<int>, s1: State, i: nat)
    requires i < |order| && (forall u :: u in order ==> u in s.threads) && CacheHalfWay(ms, s, order[..i], s1.containers)
    requires order[i] in s.threads && order[i] in s1.threads && s1.threads[order[i]].cgroups == s.threads[order[i]].cgroups
    ensures CacheHalfWay(ms, s, order[..i + 1], NewProcess(ms, s1, order[i]).containers)
  {
    var th, m := s.threads[order[i]], Identify(ms, s.threads[order[i]]);
    IdentifiedInfoHasId(ms, th);
    NewProcessCaches(ms, s1, order[i]);
    assert Identify(ms, s1.threads[order[i]]) == m;
    forall id
      ensures Get(WithInfo(s1.containers, m.info), id) == Cached(ms, s, order[..i + 1], id)
    {
      assert Get(s1.containers, id) == Cached(ms, s, order[..i], id);
      assert order[..i + 1][..i] == order[..i];
    }
  }

  lemma VisitKeepsHalfWay(ms: seq<Matcher>, s: State, order: seq<int>, s1: State, i: nat)
    requires IsOrder(s.threads, order) && i < |order|
    requires TableHalfWay(ms, s, order, s1.threads, Visited(order, i)) && CacheHalfWay(ms, s, order[..i], s1.containers)
    ensures var s2 := NewProcess(ms, s1, order[i]);
            && TableHalfWay(ms, s, order, s2.threads, Visited(order, i + 1))
            && CacheHalfWay(ms, s, order[..i + 1], s2.containers)
  {
    VisitedAreBefore(s.threads, order, i);
    VisitClassifies(ms, s, order, s1, i);
    VisitKeepsCache(ms, s, order, s1, i);
    assert Visited(order, i + 1) == Visited(order, i) + {order[i]};
  }

  lemma StartIsHalfWay(ms: seq<Matcher>, s: State, order: seq<int>)
    requires Acyclic(s.threads) && forall u :: u in order ==> u in s.threads
    ensures TableHalfWay(ms, s, order, s.threads, {}) && CacheHalfWay(ms, s, [], s.containers)
  {
  }

  /** The state of the pass after i visits. */
  ghost predicate HalfWay(ms: seq<Matcher>, s: State, order: seq<int>, i: nat)
    requires IsOrder(s.threads, order) && i <= |order|
  {
    var s1 := Captured(ms, s, order[..i]);
    && TableHalfWay(ms, s, order, s1.threads, Visited(order, i))
    && CacheHalfWay(ms, s, order[..i], s1.containers)
  }

  lemma {:induction false} PassIsHalfWay(ms: seq<Matcher>, s: State, order: seq<int>, i: nat)
    requires Acyclic(s.threads) && IsOrder(s.threads, order) && i <= |order|
    ensures HalfWay(ms, s, order, i)
  {
    if i == 0 {
      PassStarts(ms, s, order);
    } else {
      PassIsHalfWay(ms, s, order, i - 1);
      PassGoesOn(ms, s, order, i);
    }
  }

  lemma PassStarts(ms: seq<Matcher>, s: State, order: seq<int>)
    requires Acyclic(s.threads) && IsOrder(s.threads, order)
    ensures HalfWay(ms, s, order, 0)
  {
    assert order[..0] == [] && Visited(order, 0) == {};
    StartIsHalfWay(ms, s, order);
  }

  lemma PassGoesOn(ms: seq<Matcher>, s: State, order: seq<int>, i: nat)
    requires IsOrder(s.threads, order) && 0 < i <= |order| && HalfWay(ms, s, order, i - 1)
    ensures HalfWay(ms, s, order, i)
  {
    CapturedOneMore(ms, s, order, i - 1);
    VisitKeepsHalfWay(ms, s, order, Captured(ms, s, order[..i - 1]), i - 1);
  }

  ghost function FinalTableIn(ms: seq<Matcher>, s: State, order: seq<int>): Table
    requires Acyclic(s.threads) && forall u :: u in order ==> u in s.threads
  {
    map tid | tid in s.threads :: ClassifiedIn(ms, s, order, tid)
  }

  lemma HalfWayToTheEnd(ms: seq<Matcher>, s: State, order: seq<int>, t: Table)
    requires (forall u :: u in order ==> u in s.threads) && TableHalfWay(ms, s, order, t, s.threads.Keys)
    ensures t == FinalTableIn(ms, s, order)
  {
  }

  /** A pass in any order leaves of every entry what the entry's place in the order makes of it. */
  lemma PassClassifiesIn(ms: seq<Matcher>, s: State, order: seq<int>)
    requires Acyclic(s.threads) && IsOrder(s.threads, order)
    ensures Captured(ms, s, order).threads == FinalTableIn(ms, s, order)
  {
    PassIsHalfWay(ms, s, order, |order|);
    assert order[..|order|] == order;
    AllVisited(s.threads, order);
    HalfWayToTheEnd(ms, s, order, Captured(ms, s, order).threads);
  }

  ghost function FinalTable(ms: seq<Matcher>, s: State): Table
    requires Acyclic(s.threads)
  {
    map tid | tid in s.threads ::
      s.threads[tid].(containerId := Identify(ms, s.threads[tid]).id, category := Classify(ms, s, tid))
  }

  // ---- when a pass is right ----

  /** Some init above tid has its turn before tid. */
  ghost predicate InitPrecedes(ms: seq<Matcher>, t: Table, order: seq<int>, tid: int) {
    exists a :: Above(t, tid, a) && Precedes(order, a, tid) && IsInit(Identified(ms, t), a)
  }

  /** In a table that the plugin has not visited, only visited inits are seen. */
  lemma InitsSeen(ms: seq<Matcher>, t: Table, order: seq<int>, tid: int)
    requires Unvisited(t)
    ensures HasInitAbove(SeenBy(ms, t, order, tid), tid) <==> InitPrecedes(ms, t, order, tid)
    ensures InitPrecedes(ms, t, order, tid) ==> HasInitAbove(Identified(ms, t), tid)
  {
    var u, w := SeenBy(ms, t, order, tid), Identified(ms, t);
    SameLinksAbove(t, u);
    SameLinksAbove(t, w);
    if HasInitAbove(u, tid) {
      var a :| Above(u, tid, a) && IsInit(u, a);
      assert Above(t, tid, a) && Precedes(order, a, tid) && IsInit(w, a);
    }
    if InitPrecedes(ms, t, order, tid) {
      var a :| Above(t, tid, a) && Precedes(order, a, tid) && IsInit(w, a);
      assert Above(u, tid, a) && IsInit(u, a);
      assert Above(w, tid, a);
    }
  }

  /**
   * found and initAbove are what holds of an entry, seen, afterParent and initSeen what its visit knows of
   * it. An init finds metadata exactly if it should. An entry that should inherit a category finds metadata
   * and comes after its parent, or is taken for a probe of that very category. Any other entry is taken
   * for the probe it is, if one, and inherits nothing.
   */
  predicate KnowsEnough(isInit: bool, inherited: Category, found: Option<ProbeType>, initAbove: bool,
                        seen: Option<ProbeType>, afterParent: bool, initSeen: bool) {
    var probe := if found.Some? && !initAbove then found.value else NoProbe;
    var taken := if seen.Some? && !initSeen then seen.value else NoProbe;
    if isInit then found.Some? == seen.Some?
    else if found.Some? && inherited != CatNone then
      seen.Some? && (afterParent || (taken != NoProbe && ProbeCategory(taken) == inherited))
    else
      taken == probe && !(seen.Some? && inherited != CatNone && afterParent)
  }

  lemma KnowsEnoughDecides(th: Thread, inherited: Category, found: Option<ProbeType>, initAbove: bool,
                           seen: Option<ProbeType>, afterParent: bool, initSeen: bool)
    requires th.category == CatNone
    ensures Outcome(th, seen, if afterParent then inherited else CatNone, initSeen)
            == Outcome(th, found, inherited, initAbove) <==>
              KnowsEnough(th.vpid == 1, inherited, found, initAbove, seen, afterParent, initSeen)
  {
  }

  /** The place of tid in the order does it no harm. */
  ghost predicate InTime(ms: seq<Matcher>, s: State, order: seq<int>, tid: int)
    requires Acyclic(s.threads) && tid in s.threads && forall u :: u in order ==> u in s.threads
  {
    KnowsEnough(s.threads[tid].vpid == 1, InheritedBy(ms, s, tid),
                Finds(ms, s, tid), HasInitAbove(Identified(ms, s.threads), tid),
                FindsIn(ms, s, order, tid), Precedes(order, s.threads[tid].ptid, tid),
                InitPrecedes(ms, s.threads, order, tid))
  }

  /** If the parent is classified as it should be, the entry is exactly if it is in time. */
  lemma InTimeClassifies(ms: seq<Matcher>, s: State, order: seq<int>, tid: int)
    requires Acyclic(s.threads) && Unvisited(s.threads) && IsOrder(s.threads, order) && tid in s.threads
    requires var p := s.threads[tid].ptid; p in s.threads ==> ClassifyIn(ms, s, order, p) == Classify(ms, s, p)
    ensures ClassifyIn(ms, s, order, tid) == Classify(ms, s, tid) <==> InTime(ms, s, order, tid)
  {
    InitsSeen(ms, s.threads, order, tid);
    InheritedInTime(ms, s, order, tid);
    KnowsEnoughDecides(s.threads[tid], InheritedBy(ms, s, tid),
                       Finds(ms, s, tid), HasInitAbove(Identified(ms, s.threads), tid),
                       FindsIn(ms, s, order, tid), Precedes(order, s.threads[tid].ptid, tid),
                       InitPrecedes(ms, s.threads, order, tid));
  }

  lemma InheritedInTime(ms: seq<Matcher>, s: State, order: seq<int>, tid: int)
    requires Acyclic(s.threads) && Unvisited(s.threads) && IsOrder(s.threads, order) && tid in s.threads
    requires var p := s.threads[tid].ptid; p in s.threads ==> ClassifyIn(ms, s, order, p) == Classify(ms, s, p)
    ensures InheritedIn(ms, s, order, tid) ==
            if Precedes(order, s.threads[tid].ptid, tid) then InheritedBy(ms, s, tid) else CatNone
  {
    if s.threads[tid].ptid in s.threads {
      ParentHasFewerAncestors(s.threads, tid);
    }
  }

  lemma {:induction false} AllInTimeClassifies(ms: seq<Matcher>, s: State, order: seq<int>, tid: int)
    requires Acyclic(s.threads) && Unvisited(s.threads) && IsOrder(s.threads, order) && tid in s.threads
    requires forall v :: v in s.threads ==> InTime(ms, s, order, v)
    ensures ClassifyIn(ms, s, order, tid) == Classify(ms, s, tid)
    decreases Ancestors(s.threads, tid)
  {
    if s.threads[tid].ptid in s.threads {
      ParentHasFewerAncestors(s.threads, tid);
      AllInTimeClassifies(ms, s, order, s.threads[tid].ptid);
    }
    InTimeClassifies(ms, s, order, tid);
  }

  /**
   * A pass over newly scanned processes, in any order and with any cache, computes the recursive
   * classification exactly when every entry is in time.
   */
  lemma OrderMatters(ms: seq<Matcher>, s: State, order: seq<int>)
    requires Acyclic(s.threads) && Unvisited(s.threads) && IsOrder(s.threads, order)
    ensures Captured(ms, s, order).threads == FinalTable(ms, s) <==>
              forall tid :: tid in s.threads ==> InTime(ms, s, order, tid)
  {
    PassClassifiesIn(ms, s, order);
    if forall tid :: tid in s.threads ==> InTime(ms, s, order, tid) {
      InTimeTableIsRight(ms, s, order);
    }
    if FinalTableIn(ms, s, order) == FinalTable(ms, s) {
      RightTableIsInTime(ms, s, order);
    }
  }

  lemma InTimeTableIsRight(ms: seq<Matcher>, s: State, order: seq<int>)
    requires Acyclic(s.threads) && Unvisited(s.threads) && IsOrder(s.threads, order)
    requires forall tid :: tid in s.threads ==> InTime(ms, s, order, tid)
    ensures FinalTableIn(ms, s, order) == FinalTable(ms, s)
  {
    forall tid | tid in s.threads
      ensures ClassifyIn(ms, s, order, tid) == Classify(ms, s, tid)
    {
      AllInTimeClassifies(ms, s, order, tid);
    }
    SameCategoriesSameTable(ms, s, order);
  }

  lemma SameCategoriesSameTable(ms: seq<Matcher>, s: State, order: seq<int>)
    requires Acyclic(s.threads) && IsOrder(s.threads, order)
    requires forall tid :: tid in s.threads ==> ClassifyIn(ms, s, order, tid) == Classify(ms, s, tid)
    ensures FinalTableIn(ms, s, order) == FinalTable(ms, s)
  {
  }

  lemma RightTableIsInTime(ms: seq<Matcher>, s: State, order: seq<int>)
    requires Acyclic(s.threads) && Unvisited(s.threads) && IsOrder(s.threads, order)
    requires FinalTableIn(ms, s, order) == FinalTable(ms, s)
    ensures forall tid :: tid in s.threads ==> InTime(ms, s, order, tid)
  {
    forall tid | tid in s.threads
      ensures ClassifyIn(ms, s, order, tid) == Classify(ms, s, tid)
    {
      assert FinalTableIn(ms, s, order)[tid].category == FinalTable(ms, s)[tid].category;
    }
    forall tid | tid in s.threads
      ensures InTime(ms, s, order, tid)
    {
      InTimeClassifies(ms, s, order, tid);
    }
  }

  // ---- when a pass is safe ----

  /** A probe below an init, found as such at its visit, while no init above it has had its turn. */
  ghost predicate LateProbe(ms: seq<Matcher>, s: State, order: seq<int>, tid: int)
    requires tid in s.threads && forall u :: u in order ==> u in s.threads
  {
    var found := FindsIn(ms, s, order, tid);
    && s.threads[tid].vpid != 1 && found.Some? && found.value != NoProbe
    && HasInitAbove(Identified(ms, s.threads), tid) && !InitPrecedes(ms, s.threads, order, tid)
  }

  lemma PrecedesTransitive(t: Table, order: seq<int>, a: int, b: int, c: int)
    requires IsOrder(t, order) && Precedes(order, a, b) && Precedes(order, b, c)
    ensures Precedes(order, a, c)
  {
    var i, j :| 0 <= i < j < |order| && order[i] == a && order[j] == b;
    var k, l :| 0 <= k < l < |order| && order[k] == b && order[l] == c;
    assert j == k;
  }

  /** An entry comes to be in a container only as its init, or with an init above it that came before. */
  lemma {:induction false} ContainedHasInit(ms: seq<Matcher>, s: State, order: seq<int>, tid: int)
    requires Acyclic(s.threads) && Unvisited(s.threads) && IsOrder(s.threads, order) && tid in s.threads
    requires ClassifyIn(ms, s, order, tid) == CatContainer
    ensures IsInit(Identified(ms, s.threads), tid) || InitPrecedes(ms, s.threads, order, tid)
    decreases Ancestors(s.threads, tid)
  {
    if s.threads[tid].vpid != 1 {
      var p := s.threads[tid].ptid;
      assert p in s.threads && Precedes(order, p, tid);
      ParentHasFewerAncestors(s.threads, tid);
      assert ClassifyIn(ms, s, order, p) == CatContainer;
      ContainedHasInit(ms, s, order, p);
      InitPrecedesChild(ms, s.threads, order, tid);
    }
  }

  lemma InitPrecedesChild(ms: seq<Matcher>, t: Table, order: seq<int>, tid: int)
    requires IsOrder(t, order) && tid in t && t[tid].ptid in t && Precedes(order, t[tid].ptid, tid)
    requires IsInit(Identified(ms, t), t[tid].ptid) || InitPrecedes(ms, t, order, t[tid].ptid)
    ensures InitPrecedes(ms, t, order, tid)
  {
    var p := t[tid].ptid;
    ParentIsAbove(t, tid);
    if !IsInit(Identified(ms, t), p) {
      var a :| Above(t, p, a) && Precedes(order, a, p) && IsInit(Identified(ms, t), a);
      AboveTransitive(t, tid, p, a);
      PrecedesTransitive(t, order, a, p, tid);
    }
  }

  /** A late probe ends in a probe category, its own or its parent's. */
  lemma LateProbeIsProbe(ms: seq<Matcher>, s: State, order: seq<int>, tid: int)
    requires Acyclic(s.threads) && Unvisited(s.threads) && IsOrder(s.threads, order) && tid in s.threads
    requires LateProbe(ms, s, order, tid)
    ensures !NotProbe(ClassifyIn(ms, s, order, tid))
  {
    InitsSeen(ms, s.threads, order, tid);
    var p := s.threads[tid].ptid;
    if InheritedIn(ms, s, order, tid) == CatContainer {
      assert p in s.threads && Precedes(order, p, tid);
      ContainedHasInit(ms, s, order, p);
      InitPrecedesChild(ms, s.threads, order, tid);
    }
  }

  /** Without late probes there is no probe below an init. */
  lemma {:induction false} NoLateProbes(ms: seq<Matcher>, s: State, order: seq<int>, tid: int)
    requires Acyclic(s.threads) && Unvisited(s.threads) && IsOrder(s.threads, order) && tid in s.threads
    requires forall v :: v in s.threads ==> !LateProbe(ms, s, order, v)
    requires s.threads[tid].vpid == 1 || HasInitAbove(Identified(ms, s.threads), tid)
    ensures NotProbe(ClassifyIn(ms, s, order, tid))
    decreases Ancestors(s.threads, tid)
  {
    InitsSeen(ms, s.threads, order, tid);
    var t, p := s.threads, s.threads[tid].ptid;
    if t[tid].vpid != 1 && p in t && Precedes(order, p, tid) {
      InitAboveOrParent(ms, t, tid);
      ParentHasFewerAncestors(t, tid);
      NoLateProbes(ms, s, order, p);
    }
  }

  lemma InitAboveOrParent(ms: seq<Matcher>, t: Table, tid: int)
    requires tid in t && t[tid].ptid in t && HasInitAbove(Identified(ms, t), tid)
    ensures t[t[tid].ptid].vpid == 1 || HasInitAbove(Identified(ms, t), t[tid].ptid)
  {
    var u := Identified(ms, t);
    var a :| Above(u, tid, a) && IsInit(u, a);
    AboveSplit(u, tid, a);
  }

  /**
   * A pass over newly scanned processes, in any order and with any cache, leaves no probe below an init
   * exactly when no probe below an init has its turn before all of them.
   */
  lemma PassSafety(ms: seq<Matcher>, s: State, order: seq<int>)
    requires Acyclic(s.threads) && Unvisited(s.threads) && IsOrder(s.threads, order)
    ensures var t := Captured(ms, s, order).threads;
            (forall tid :: tid in t && HasInitAbove(t, tid) ==> NotProbe(t[tid].category)) <==>
            forall tid :: tid in s.threads ==> !LateProbe(ms, s, order, tid)
  {
    var t := Captured(ms, s, order).threads;
    PassClassifiesIn(ms, s, order);
    SameInitsAbove(t, Identified(ms, s.threads));
    if forall tid :: tid in s.threads ==> !LateProbe(ms, s, order, tid) {
      forall tid | tid in t && HasInitAbove(t, tid)
        ensures NotProbe(t[tid].category)
      {
        NoLateProbes(ms, s, order, tid);
      }
    }
    forall tid | tid in s.threads && LateProbe(ms, s, order, tid)
      ensures HasInitAbove(t, tid) && !NotProbe(t[tid].category)
    {
      LateProbeIsProbe(ms, s, order, tid);
    }
  }

  // ---- parents-first orders exist ----

  /** A finite table without a cycle of parents has an entry whose parent it does not hold. */
  lemma RootExists(t: Table, tid: int) returns (root: int)
    requires Acyclic(t) && tid in t
    ensures root in t && t[root].ptid !in t
  {
    var u := map v | v in t :: t[v].(containerId := "");
    SameLinksAbove(t, u);
    AcyclicClimbStops(u, tid);
    var n: nat :| StopsAt(u, tid, n);
    UpThrough(u, tid, n - 1, n);
    root := Up(u, tid, n - 1).value;
  }

  lemma {:induction false} ParentsFirstExists(t: Table) returns (order: seq<int>)
    requires Acyclic(t)
    ensures ParentsFirst(t, order)
    decreases |t.Keys|
  {
    if forall tid :: tid !in t {
      order := [];
    } else {
      var tid :| tid in t;
      var root := RootExists(t, tid);
      var rest := t - {root};
      LargerTableAbove(rest, t);
      assert |rest.Keys| < |t.Keys| by {
        assert rest.Keys == t.Keys - {root};
      }
      var later := ParentsFirstExists(rest);
      order := [root] + later;
      RootInFront(t, root, later);
    }
  }

  lemma RootInFront(t: Table, root: int, later: seq<int>)
    requires root in t && t[root].ptid !in t && ParentsFirst(t - {root}, later)
    ensures ParentsFirst(t, [root] + later)
  {
    var order, rest := [root] + later, t - {root};
    forall tid
      ensures tid in t <==> tid in order
    {
      assert tid in t <==> tid == root || tid in rest;
    }
    forall i | 0 <= i < |order| && order[i] in t && t[order[i]].ptid in t
      ensures t[order[i]].ptid in order[..i]
    {
      assert i > 0 && order[..i] == [root] + later[..i - 1];
      assert later[i - 1] in rest;
    }
  }

  // ---- what a matcher supplies for one entry, another may find ----

  ghost predicate SupplierPrecedes(ms: seq<Matcher>, t: Table, order: seq<int>, tid: int)
    requires tid in t
  {
    exists u :: u in t && Precedes(order, u, tid) && Supplies(ms, t[u], Identify(ms, t[tid]).id)
  }

  lemma {:induction false} LastSuppliedIs(ms: seq<Matcher>, t: Table, order: seq<int>, id: string)
    requires forall u :: u in order ==> u in t
    ensures LastSupplied(ms, t, order, id).Some? <==> exists u :: u in order && Supplies(ms, t[u], id)
    ensures LastSupplied(ms, t, order, id).Some? && DeclareNoProbes(ms) ==>
              LastSupplied(ms, t, order, id).value.probes == []
  {
    if order != [] {
      var last := |order| - 1;
      var u := order[last];
      assert u in order && u in t;
      IdentifiedInfoHasId(ms, t[u]);
      LastSuppliedIs(ms, t, order[..last], id);
      assert order == order[..last] + [u];
    }
  }

  lemma FrontPrecedes(t: Table, order: seq<int>, tid: int)
    requires IsOrder(t, order) && tid in t
    ensures forall u :: u in Front(order, tid) <==> Precedes(order, u, tid)
  {
    var i :| 0 <= i < |order| && order[i] == tid;
    FrontIs(order, i);
    VisitedAreBefore(t, order, i);
    forall u
      ensures u in order[..i] <==> u in Visited(order, i)
    {
    }
  }

  /** An entry that waits finds, without a probe, what was supplied before its turn, and else what the cache held. */
  lemma FoundInOrder(ms: seq<Matcher>, s: State, order: seq<int>, tid: int)
    requires IsOrder(s.threads, order) && tid in s.threads && DeclareNoProbes(ms)
    ensures FindsIn(ms, s, order, tid) ==
            if Waits(ms, s.threads[tid]) && SupplierPrecedes(ms, s.threads, order, tid) then Some(NoProbe)
            else StartProbe(ms, s, tid)
  {
    FrontPrecedes(s.threads, order, tid);
    LastSuppliedIs(ms, s.threads, Front(order, tid), Identify(ms, s.threads[tid]).id);
  }

  /** At the start no probe is known, and being in time is a matter of being put in the container. */
  lemma InTimeAtStart(ms: seq<Matcher>, s: State, order: seq<int>, tid: int)
    requires Probeless(s) && Acyclic(s.threads) && DeclareNoProbes(ms) && IsOrder(s.threads, order) && tid in s.threads
    ensures var th, inherits := s.threads[tid], InheritedBy(ms, s, tid) != CatNone;
            InTime(ms, s, order, tid) <==>
              (Finds(ms, s, tid).Some? && (th.vpid == 1 || inherits) <==>
               FindsIn(ms, s, order, tid).Some? && (th.vpid == 1 || (inherits && Precedes(order, th.ptid, tid))))
  {
    FoundInOrder(ms, s, order, tid);
    NoProbeAtStart(ms, s, tid);
  }

  lemma NoProbeAtStart(ms: seq<Matcher>, s: State, tid: int)
    requires Probeless(s) && DeclareNoProbes(ms) && tid in s.threads
    ensures StartProbe(ms, s, tid) in {None, Some(NoProbe)}
  {
    IdentifiedInfoHasId(ms, s.threads[tid]);
  }

  // ---- parents first ----

  lemma NotBeforeItself(t: Table, order: seq<int>, a: int)
    requires IsOrder(t, order)
    ensures !Precedes(order, a, a)
  {
  }

  lemma PrecedesNotBack(t: Table, order: seq<int>, a: int, b: int)
    requires IsOrder(t, order) && Precedes(order, a, b)
    ensures !Precedes(order, b, a) && a != b
  {
    NotBeforeItself(t, order, a);
    if Precedes(order, b, a) {
      PrecedesTransitive(t, order, a, b, a);
    }
  }

  lemma AncestorsPrecede(t: Table, order: seq<int>, tid: int)
    requires ParentsFirst(t, order) && tid in t
    ensures forall a :: Above(t, tid, a) && a in t ==> Precedes(order, a, tid)
  {
    var i :| 0 <= i < |order| && order[i] == tid;
    AncestorsVisited(t, order, i);
    VisitedAreBefore(t, order, i);
  }

  /** The entry waits, no ancestor's matcher supplies its metadata, and some entry's that is not below it does. */
  ghost predicate Free(ms: seq<Matcher>, t: Table, tid: int)
    requires tid in t
  {
    && Waits(ms, t[tid]) && !SuppliedAbove(ms, t, tid)
    && exists w :: w in t && !Above(t, w, tid) && Supplies(ms, t[w], Identify(ms, t[tid]).id)
  }

  /** Whether that supplier comes first makes a difference to the entry's category. */
  ghost predicate Contested(ms: seq<Matcher>, s: State, tid: int)
    requires Acyclic(s.threads) && tid in s.threads
  {
    var found, inherits := StartProbe(ms, s, tid), InheritedBy(ms, s, tid) != CatNone;
    && Free(ms, s.threads, tid)
    && if found.None? then s.threads[tid].vpid == 1 || inherits
       else s.threads[tid].vpid != 1 && !inherits && found.value != NoProbe
            && !HasInitAbove(Identified(ms, s.threads), tid)
  }

  /** With parents first, an entry finds what it should, or is free. */
  lemma FoundParentsFirst(ms: seq<Matcher>, s: State, order: seq<int>, tid: int)
    requires Acyclic(s.threads) && ParentsFirst(s.threads, order) && tid in s.threads && DeclareNoProbes(ms)
    ensures || FindsIn(ms, s, order, tid) == Finds(ms, s, tid)
            || (Free(ms, s.threads, tid) && FindsIn(ms, s, order, tid) == Some(NoProbe)
                && Finds(ms, s, tid) == StartProbe(ms, s, tid))
  {
    var t := s.threads;
    FoundInOrder(ms, s, order, tid);
    AncestorsPrecede(t, order, tid);
    if Waits(ms, t[tid]) && !SuppliedAbove(ms, t, tid) && SupplierPrecedes(ms, t, order, tid) {
      var w :| w in t && Precedes(order, w, tid) && Supplies(ms, t[w], Identify(ms, t[tid]).id);
      PrecedesNotBack(t, order, w, tid);
      AncestorsPrecede(t, order, w);
      assert !Above(t, w, tid);
    }
  }

  lemma InitsSeenParentsFirst(ms: seq<Matcher>, t: Table, order: seq<int>, tid: int)
    requires ParentsFirst(t, order) && tid in t
    ensures HasInitAbove(SeenBy(ms, t, order, tid), tid) <==> HasInitAbove(Identified(ms, t), tid)
  {
    AncestorsPrecede(t, order, tid);
    SameLinksAbove(t, SeenBy(ms, t, order, tid));
    SameInitsSeen(SeenBy(ms, t, order, tid), Identified(ms, t), tid);
  }

  /** If neither the entry nor any of its ancestors is contested, parents first classifies it. */
  lemma {:induction false} UncontestedClassifies(ms: seq<Matcher>, s: State, order: seq<int>, tid: int)
    requires Acyclic(s.threads) && Unvisited(s.threads) && DeclareNoProbes(ms)
    requires ParentsFirst(s.threads, order) && tid in s.threads && !Contested(ms, s, tid)
    requires forall a :: a in s.threads && Above(s.threads, tid, a) ==> !Contested(ms, s, a)
    ensures ClassifyIn(ms, s, order, tid) == Classify(ms, s, tid)
    decreases Ancestors(s.threads, tid)
  {
    InheritedParentsFirst(ms, s, order, tid);
    InitsSeenParentsFirst(ms, s.threads, order, tid);
    FoundParentsFirst(ms, s, order, tid);
  }

  lemma {:induction false} InheritedParentsFirst(ms: seq<Matcher>, s: State, order: seq<int>, tid: int)
    requires Acyclic(s.threads) && Unvisited(s.threads) && DeclareNoProbes(ms)
    requires ParentsFirst(s.threads, order) && tid in s.threads
    requires forall a :: a in s.threads && Above(s.threads, tid, a) ==> !Contested(ms, s, a)
    ensures InheritedIn(ms, s, order, tid) == InheritedBy(ms, s, tid)
    decreases Ancestors(s.threads, tid), 0
  {
    var t, p := s.threads, s.threads[tid].ptid;
    if p in t {
      ParentIsAbove(t, tid);
      ParentHasFewerAncestors(t, tid);
      AncestorsPrecede(t, order, tid);
      forall a | a in t && Above(t, p, a)
        ensures !Contested(ms, s, a)
      {
        AboveTransitive(t, tid, p, a);
      }
      UncontestedClassifies(ms, s, order, p);
    }
  }

  ghost predicate Uncontested(ms: seq<Matcher>, s: State)
    requires Acyclic(s.threads)
  {
    forall v :: v in s.threads ==> !Contested(ms, s, v)
  }

  /** A parents-first pass computes the recursive classification of every entry. */
  lemma PassClassifies(ms: seq<Matcher>, s: State, order: seq<int>)
    requires Acyclic(s.threads) && Unvisited(s.threads) && DeclareNoProbes(ms)
    requires ParentsFirst(s.threads, order) && Uncontested(ms, s)
    ensures Captured(ms, s, order).threads == FinalTable(ms, s)
  {
    PassClassifiesIn(ms, s, order);
    forall tid | tid in s.threads
      ensures ClassifyIn(ms, s, order, tid) == Classify(ms, s, tid)
    {
      UncontestedClassifies(ms, s, order, tid);
    }
    SameCategoriesSameTable(ms, s, order);
  }

  // ---- two parents-first orders that differ ----

  /** With an entry of part goes its parent, if the table has it. */
  predicate ClosedUp(t: Table, part: set<int>) {
    part <= t.Keys && forall v :: v in part && t[v].ptid in t ==> t[v].ptid in part
  }

  /** A parents-first order that visits a part closed under parents before the rest. */
  lemma PartFirst(t: Table, part: set<int>) returns (order: seq<int>)
    requires Acyclic(t) && ClosedUp(t, part)
    ensures ParentsFirst(t, order)
    ensures forall u, v :: u in part && v in t && v !in part ==> Precedes(order, u, v)
  {
    var rest := t.Keys - part;
    var a, b := t - rest, t - part;
    LargerTableAbove(a, t);
    LargerTableAbove(b, t);
    var first := ParentsFirstExists(a);
    var second := ParentsFirstExists(b);
    order := first + second;
    OrdersJoin(t, a, b, first, second);
    forall u, v | u in part && v in t && v !in part
      ensures Precedes(order, u, v)
    {
      assert u in a && v in b;
      var i :| 0 <= i < |first| && first[i] == u;
      var j :| 0 <= j < |second| && second[j] == v;
      assert order[i] == u && order[|first| + j] == v;
    }
  }

  lemma OrdersJoin(t: Table, a: Table, b: Table, first: seq<int>, second: seq<int>)
    requires a.Keys !! b.Keys && t == a + b && ClosedUp(t, a.Keys)
    requires ParentsFirst(a, first) && ParentsFirst(b, second)
    ensures ParentsFirst(t, first + second)
  {
    EntriesOfJoin(t, a, b, first, second);
    forall i | 0 <= i < |first + second| && (first + second)[i] in t && t[(first + second)[i]].ptid in t
      ensures t[(first + second)[i]].ptid in (first + second)[..i]
    {
      ParentsInJoin(t, a, b, first, second, i);
    }
  }

  lemma EntriesOfJoin(t: Table, a: Table, b: Table, first: seq<int>, second: seq<int>)
    requires a.Keys !! b.Keys && t == a + b && IsOrder(a, first) && IsOrder(b, second)
    ensures IsOrder(t, first + second)
  {
    var order := first + second;
    forall tid
      ensures tid in t <==> tid in order
    {
      assert tid in t <==> tid in a || tid in b;
      assert tid in order <==> tid in first || tid in second;
    }
    forall i, j | 0 <= i < j < |order|
      ensures order[i] != order[j]
    {
      if i < |first| <= j {
        assert order[i] in first && order[j] in second;
      }
    }
  }

  lemma ParentsInJoin(t: Table, a: Table, b: Table, first: seq<int>, second: seq<int>, i: nat)
    requires a.Keys !! b.Keys && t == a + b && ClosedUp(t, a.Keys)
    requires ParentsFirst(a, first) && ParentsFirst(b, second)
    requires i < |first + second| && (first + second)[i] in t && t[(first + second)[i]].ptid in t
    ensures t[(first + second)[i]].ptid in (first + second)[..i]
  {
    var order := first + second;
    var v := order[i];
    if i < |first| {
      assert v in a && order[..i] == first[..i];
    } else {
      var k := i - |first|;
      assert v == second[k] && v in b && order[..i] == first + second[..k];
      assert t[v].ptid in a ==> t[v].ptid in first;
    }
  }

  /** The entry and its ancestors. */
  ghost function Line(t: Table, tid: int): set<int>
    requires tid in t
  {
    Ancestors(t, tid) + {tid}
  }

  lemma LineIsClosedUp(t: Table, tid: int)
    requires tid in t
    ensures ClosedUp(t, Line(t, tid))
  {
    forall v | v in Line(t, tid) && t[v].ptid in t
      ensures t[v].ptid in Line(t, tid)
    {
      ParentIsAbove(t, v);
      if v != tid {
        AboveTransitive(t, tid, v, t[v].ptid);
      }
    }
  }

  /** A free entry can come before all suppliers of its metadata, or after one of them. */
  lemma FreeEntryOrders(ms: seq<Matcher>, s: State, v: int) returns (early: seq<int>, late: seq<int>)
    requires Acyclic(s.threads) && v in s.threads && Free(ms, s.threads, v) && DeclareNoProbes(ms)
    ensures ParentsFirst(s.threads, early) && ParentsFirst(s.threads, late)
    ensures FindsIn(ms, s, early, v) == StartProbe(ms, s, v) && FindsIn(ms, s, late, v) == Some(NoProbe)
  {
    var t := s.threads;
    var id := Identify(ms, t[v]).id;
    var w :| w in t && !Above(t, w, v) && Supplies(ms, t[w], id);
    LineIsClosedUp(t, v);
    LineIsClosedUp(t, w);
    early := PartFirst(t, Line(t, v));
    late := PartFirst(t, Line(t, w));
    forall u | u in t && Supplies(ms, t[u], id)
      ensures !Precedes(early, u, v)
    {
      assert u !in Line(t, v);
      PrecedesNotBack(t, early, v, u);
    }
    assert v !in Line(t, w) && Precedes(late, w, v);
    FoundInOrder(ms, s, early, v);
    FoundInOrder(ms, s, late, v);
  }

  /** Below uncontested ancestors only what is found can depend on the order. */
  lemma CategoryParentsFirst(ms: seq<Matcher>, s: State, order: seq<int>, v: int)
    requires Acyclic(s.threads) && Unvisited(s.threads) && DeclareNoProbes(ms)
    requires v in s.threads && ParentsFirst(s.threads, order)
    requires forall a :: a in s.threads && Above(s.threads, v, a) ==> !Contested(ms, s, a)
    ensures Captured(ms, s, order).threads[v].category ==
            Outcome(s.threads[v], FindsIn(ms, s, order, v), InheritedBy(ms, s, v),
                    HasInitAbove(Identified(ms, s.threads), v))
  {
    PassClassifiesIn(ms, s, order);
    InheritedParentsFirst(ms, s, order, v);
    InitsSeenParentsFirst(ms, s.threads, order, v);
  }

  /** A contested entry without contested ancestors is classified differently by two parents-first orders. */
  lemma ContestedSplits(ms: seq<Matcher>, s: State, v: int) returns (early: seq<int>, late: seq<int>)
    requires Acyclic(s.threads) && Unvisited(s.threads) && DeclareNoProbes(ms)
    requires v in s.threads && Contested(ms, s, v)
    requires forall a :: a in s.threads && Above(s.threads, v, a) ==> !Contested(ms, s, a)
    ensures ParentsFirst(s.threads, early) && ParentsFirst(s.threads, late)
    ensures Captured(ms, s, early).threads[v].category != Captured(ms, s, late).threads[v].category
  {
    early, late := FreeEntryOrders(ms, s, v);
    CategoryParentsFirst(ms, s, early, v);
    CategoryParentsFirst(ms, s, late, v);
    ContestedMatters(ms, s, v);
  }

  lemma ContestedMatters(ms: seq<Matcher>, s: State, v: int)
    requires Acyclic(s.threads) && Unvisited(s.threads) && v in s.threads && Contested(ms, s, v)
    ensures var th, inherited, init := s.threads[v], InheritedBy(ms, s, v), HasInitAbove(Identified(ms, s.threads), v);
            Outcome(th, StartProbe(ms, s, v), inherited, init) != Outcome(th, Some(NoProbe), inherited, init)
  {
  }

  lemma {:induction false} TopmostContested(ms: seq<Matcher>, s: State, v: int) returns (top: int)
    requires Acyclic(s.threads) && v in s.threads && Contested(ms, s, v)
    ensures top in s.threads && Contested(ms, s, top)
    ensures forall a :: a in s.threads && Above(s.threads, top, a) ==> !Contested(ms, s, a)
    decreases Ancestors(s.threads, v)
  {
    top := v;
    if a :| a in s.threads && Above(s.threads, v, a) && Contested(ms, s, a) {
      AncestorHasFewerAncestors(s.threads, v, a);
      top := TopmostContested(ms, s, a);
    }
  }

  /**
   * Over newly scanned processes, and whatever the cache holds, the thread table does not depend on which
   * parents-first order the pass takes exactly when no entry is contested.
   */
  lemma PassOrderIrrelevant(ms: seq<Matcher>, s: State)
    requires Acyclic(s.threads) && Unvisited(s.threads) && DeclareNoProbes(ms)
    ensures (forall a, b :: ParentsFirst(s.threads, a) && ParentsFirst(s.threads, b) ==>
               Captured(ms, s, a).threads == Captured(ms, s, b).threads) <==> Uncontested(ms, s)
  {
    if Uncontested(ms, s) {
      forall a | ParentsFirst(s.threads, a)
        ensures Captured(ms, s, a).threads == FinalTable(ms, s)
      {
        PassClassifies(ms, s, a);
      }
    } else {
      var v :| v in s.threads && Contested(ms, s, v);
      var top := TopmostContested(ms, s, v);
      var early, late := ContestedSplits(ms, s, top);
      assert Captured(ms, s, early).threads != Captured(ms, s, late).threads;
    }
  }

  /**
   * An init that waits, and whose container no ancestor's matcher knows, is left without a category by one
   * parents-first order, and is in its container by another, if any entry not below it supplies its id.
   */
  lemma SharedIdMakesOrderMatter(ms: seq<Matcher>, s: State, v: int) returns (early: seq<int>, late: seq<int>)
    requires Acyclic(s.threads) && Unvisited(s.threads) && DeclareNoProbes(ms)
    requires v in s.threads && s.threads[v].vpid == 1 && Free(ms, s.threads, v)
    requires Identify(ms, s.threads[v]).id !in s.containers
    ensures ParentsFirst(s.threads, early) && ParentsFirst(s.threads, late)
    ensures Captured(ms, s, early).threads[v].category == CatNone
    ensures Captured(ms, s, late).threads[v].category == CatContainer
  {
    early, late := FreeEntryOrders(ms, s, v);
    PassClassifiesIn(ms, s, early);
    PassClassifiesIn(ms, s, late);
  }
}
