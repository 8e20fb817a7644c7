/** Whole runs of the plugin: what holds after any sequence of events. */
module PluginRuns {
  import opened Wrappers
  import opened CppString
  import opened ContainerInfo
  import opened Matchers
  import opened Threads
  import opened PluginState

  datatype Event =
    | Spawn(tid: int, th: Thread)                                          // a new entry, then its process event
    | Exec(tid: int, exe: string, args: seq<string>, cgroups: seq<Str>)    // an entry rewritten, then its process event
    | Exit(tid: int)
    | AsyncContainer(added: bool, info: Info)
    | LegacyContainer(info: Info)
    | Erase(key: string)                                                   // through the exposed containers table
    | Reopen(table: Table)                                                 // a new capture: the processes are scanned anew

  /** The event is followed by the plugin's processing of thread tid. */
  predicate IsProcess(t: Table, e: Event) {
    e.Spawn? || (e.Exec? && e.tid in t)
  }

  /** Entries that the plugin has not visited. */
  predicate Unvisited(t: Table) {
    forall tid :: tid in t ==> t[tid].containerId == "" && t[tid].category == CatNone
  }

  /** A table as libsinsp scans it: the plugin's own fields are empty. */
  function Scanned(t: Table): (r: Table)
    ensures SameLinks(t, r) && Unvisited(r)
  {
    map tid | tid in t :: t[tid].(containerId := "", category := CatNone)
  }

  /** The entry as libsinsp leaves it for the plugin to process. */
  function Entry(t: Table, e: Event): Thread
    requires IsProcess(t, e)
  {
    if e.Spawn? then e.th else t[e.tid].(exe := e.exe, args := e.args, cgroups := e.cgroups)
  }

  function Entered(s: State, e: Event): State
    requires IsProcess(s.threads, e)
  {
    s.(threads := s.threads[e.tid := Entry(s.threads, e)])
  }

  ghost function Step(ms: seq<Matcher>, s: State, e: Event): State {
    if IsProcess(s.threads, e) then NewProcess(ms, Entered(s, e), e.tid)
    else match e
      case Exit(tid) => s.(threads := s.threads - {tid})
      case AsyncContainer(added, info) => Async(s, added, info)
      case LegacyContainer(info) => Legacy(s, info)
      case Erase(key) => s.(containers := s.containers - {key})
      case Reopen(table) => s.(threads := Scanned(table))
      case _ => s
  }

  /** The states a run goes through, one more than its events. */
  ghost predicate IsRun(ms: seq<Matcher>, states: seq<State>, es: seq<Event>) {
    |states| == |es| + 1 && forall i :: 0 <= i < |es| ==> Follows(ms, states, es, i)
  }

  ghost predicate Follows(ms: seq<Matcher>, states: seq<State>, es: seq<Event>, i: nat)
    requires i < |es| < |states|
  {
    states[i + 1] == Step(ms, states[i], es[i])
  }

  /** libsinsp brings no cycle of parents into the table. */
  ghost predicate NoCycle(s: State, e: Event) {
    && Acyclic(s.threads)
    && (IsProcess(s.threads, e) ==> Acyclic(Entered(s, e).threads))
    && (e.Reopen? ==> Acyclic(e.table))
  }

  /** Then the entry of a process event can be processed, and there is no cycle afterwards. */
  lemma StepKeepsAcyclic(ms: seq<Matcher>, s: State, e: Event)
    requires NoCycle(s, e)
    ensures Acyclic(Step(ms, s, e).threads)
    ensures IsProcess(s.threads, e) ==> CanProcess(ms, Entered(s, e), e.tid)
  {
    if IsProcess(s.threads, e) {
      AcyclicCanProcess(ms, Entered(s, e), e.tid);
      SameLinksAbove(Entered(s, e).threads, Step(ms, s, e).threads);
    } else if e.Exit? {
      LargerTableAbove(s.threads - {e.tid}, s.threads);
    } else if e.Reopen? {
      SameLinksAbove(e.table, Scanned(e.table));
    }
  }

  /** The state in which init leaves the plugin, over a table that it has not touched. */
  ghost predicate IsStart(s: State) {
    && s.containers == map["" := HOST_INFO]
    && s.asked == {} && s.asks == [] && s.sent == [] && s.last == None
    && Unvisited(s.threads)
  }

  // ---- the pass over the thread table ----

  /** The state after the entries of order have been processed one by one. */
  ghost function Captured(ms: seq<Matcher>, s: State, order: seq<int>): (r: State)
    requires forall tid :: tid in order ==> tid in s.threads
    ensures r.threads.Keys == s.threads.Keys
  {
    if order == [] then s
    else NewProcess(ms, Captured(ms, s, order[..|order| - 1]), order[|order| - 1])
  }

  lemma CapturedOneMore(ms: seq<Matcher>, s: State, order: seq<int>, i: nat)
    requires i < |order| && forall tid :: tid in order ==> tid in s.threads
    ensures Captured(ms, s, order[..i + 1]) == NewProcess(ms, Captured(ms, s, order[..i]), order[i])
  {
    assert order[..i + 1][..i] == order[..i];
  }

  /** Every visit of the pass can be made. */
  ghost predicate CanPass(ms: seq<Matcher>, s: State, order: seq<int>)
    requires forall tid :: tid in order ==> tid in s.threads
  {
    forall i :: 0 <= i < |order| ==> CanProcess(ms, Captured(ms, s, order[..i]), order[i])
  }

  lemma AcyclicCanPass(ms: seq<Matcher>, s: State, order: seq<int>)
    requires Acyclic(s.threads) && forall tid :: tid in order ==> tid in s.threads
    ensures CanPass(ms, s, order)
  {
    forall i | 0 <= i < |order|
      ensures CanProcess(ms, Captured(ms, s, order[..i]), order[i])
    {
      CapturedKeepsProcesses(ms, s, order[..i]);
      SameLinksAbove(s.threads, Captured(ms, s, order[..i]).threads);
      AcyclicCanProcess(ms, Captured(ms, s, order[..i]), order[i]);
    }
  }

  /** A pass writes nothing but container ids and categories. */
  predicate SameProcesses(t: Table, u: Table) {
    t.Keys == u.Keys && forall v :: v in t ==> u[v] == t[v].(containerId := u[v].containerId, category := u[v].category)
  }

  lemma NewProcessKeepsProcesses(ms: seq<Matcher>, s: State, tid: int)
    requires tid in s.threads
    ensures SameProcesses(s.threads, NewProcess(ms, s, tid).threads)
  {
  }

  lemma {:induction false} CapturedKeepsProcesses(ms: seq<Matcher>, s: State, order: seq<int>)
    requires forall tid :: tid in order ==> tid in s.threads
    ensures SameProcesses(s.threads, Captured(ms, s, order).threads)
  {
    if order != [] {
      CapturedKeepsProcesses(ms, s, order[..|order| - 1]);
      NewProcessKeepsProcesses(ms, Captured(ms, s, order[..|order| - 1]), order[|order| - 1]);
    }
  }

  /** The event that hands an entry to the plugin as it stands. */
  function Visit(t: Table, tid: int): Event
    requires tid in t
  {
    Exec(tid, t[tid].exe, t[tid].args, t[tid].cgroups)
  }

  function PassEvents(t: Table, order: seq<int>): seq<Event>
    requires forall tid :: tid in order ==> tid in t
  {
    seq(|order|, i requires 0 <= i < |order| => Visit(t, order[i]))
  }

  lemma VisitIsNewProcess(ms: seq<Matcher>, t: Table, s: State, tid: int)
    requires tid in t && SameProcesses(t, s.threads)
    ensures Entered(s, Visit(t, tid)) == s && Step(ms, s, Visit(t, tid)) == NewProcess(ms, s, tid)
  {
    assert s.threads[tid := Entry(s.threads, Visit(t, tid))] == s.threads;
  }

  /** The pass is a run like any other, made of events that leave the processes what they are. */
  lemma PassIsRun(ms: seq<Matcher>, s: State, order: seq<int>) returns (states: seq<State>)
    requires forall tid :: tid in order ==> tid in s.threads
    ensures IsRun(ms, states, PassEvents(s.threads, order))
    ensures states[0] == s && states[|order|] == Captured(ms, s, order)
    ensures forall i :: 0 <= i <= |order| ==> states[i] == Captured(ms, s, order[..i])
  {
    var es := PassEvents(s.threads, order);
    states := seq(|order| + 1, i requires 0 <= i <= |order| => Captured(ms, s, order[..i]));
    forall i | 0 <= i < |es|
      ensures Follows(ms, states, es, i)
    {
      CapturedOneMore(ms, s, order, i);
      CapturedKeepsProcesses(ms, s, order[..i]);
      VisitIsNewProcess(ms, s.threads, states[i], order[i]);
    }
    assert order[..|order|] == order;
  }

  /** A run can be continued by another: so what holds on all runs from the start holds after the pass. */
  lemma RunsJoin(ms: seq<Matcher>, first: seq<State>, es: seq<Event>, second: seq<State>, later: seq<Event>)
    requires IsRun(ms, first, es) && IsRun(ms, second, later) && first[|es|] == second[0]
    ensures IsRun(ms, first + second[1..], es + later)
  {
    var states, all := first + second[1..], es + later;
    forall i | 0 <= i < |all|
      ensures Follows(ms, states, all, i)
    {
      if i < |es| {
        assert Follows(ms, first, es, i);
      } else {
        assert Follows(ms, second, later, i - |es|);
      }
    }
  }

  // ---- asking the worker ----

  ghost predicate Answers(e: Event, id: string) {
    e.AsyncContainer? && e.added && e.info.id == id
  }

  function Open(s: State, id: string): nat {
    if id in s.asked then 1 else 0
  }

  /** How many of the first n events were added events that took id out of the asked set. */
  ghost function Cleared(states: seq<State>, es: seq<Event>, id: string, n: nat): nat
    requires n <= |es| <= |states|
  {
    if n == 0 then 0
    else Cleared(states, es, id, n - 1) + if Answers(es[n - 1], id) then Open(states[n - 1], id) else 0
  }

  lemma AsksOfNewProcess(ms: seq<Matcher>, s: State, tid: int, id: string)
    requires tid in s.threads
    ensures var s1 := NewProcess(ms, s, tid);
            multiset(s1.asks)[id] + Open(s, id) == multiset(s.asks)[id] + Open(s1, id)
    ensures id in s.asked ==> id in NewProcess(ms, s, tid).asked
  {
  }

  lemma AsksOfStep(ms: seq<Matcher>, s: State, e: Event, id: string)
    ensures var s1 := Step(ms, s, e);
            multiset(s1.asks)[id] + Open(s, id)
            == multiset(s.asks)[id] + Open(s1, id) + if Answers(e, id) then Open(s, id) else 0
    ensures id in s.asked && !Answers(e, id) ==> id in Step(ms, s, e).asked
  {
    if IsProcess(s.threads, e) {
      AsksOfNewProcess(ms, Entered(s, e), e.tid, id);
    }
  }

  /** For every id, the calls made are the calls answered plus the one that is still open. */
  lemma {:induction false} AskConservation(ms: seq<Matcher>, states: seq<State>, es: seq<Event>, n: nat, id: string)
    requires IsRun(ms, states, es) && IsStart(states[0]) && n <= |es|
    ensures multiset(states[n].asks)[id] == Cleared(states, es, id, n) + Open(states[n], id)
  {
    if n > 0 {
      assert Follows(ms, states, es, n - 1);
      AskConservation(ms, states, es, n - 1, id);
      AsksOfStep(ms, states[n - 1], es[n - 1], id);
    }
  }

  /** While an id is in the asked set, and until an added event answers it, it is not asked again. */
  lemma {:induction false} NotAskedAgain(ms: seq<Matcher>, states: seq<State>, es: seq<Event>, m: nat, n: nat, id: string)
    requires IsRun(ms, states, es) && m <= n <= |es|
    requires id in states[m].asked && forall i :: m <= i < n ==> !Answers(es[i], id)
    ensures id in states[n].asked && multiset(states[n].asks)[id] == multiset(states[m].asks)[id]
  {
    if m < n {
      assert Follows(ms, states, es, n - 1);
      NotAskedAgain(ms, states, es, m, n - 1, id);
      AsksOfStep(ms, states[n - 1], es[n - 1], id);
    }
  }

  // ---- the foreign key ----

  /** The keys an event removes from the cache. */
  function RemovedBy(e: Event): set<string> {
    match e
    case AsyncContainer(added, info) => if added then {} else {info.id}
    case Erase(key) => {key}
    case _ => {}
  }

  /** id resolves in the cache, or is on its way, or was removed. */
  predicate Known(s: State, removed: set<string>, id: string) {
    id == "" || id in s.containers || id in s.asked || id in removed
  }

  ghost predicate AllKnown(s: State, removed: set<string>) {
    forall tid :: tid in s.threads ==> Known(s, removed, s.threads[tid].containerId)
  }

  lemma NewProcessKeepsKnown(ms: seq<Matcher>, s: State, tid: int, removed: set<string>)
    requires tid in s.threads && AllKnown(s.(threads := s.threads - {tid}), removed)
    ensures AllKnown(NewProcess(ms, s, tid), removed)
  {
    IdentifiedInfoHasId(ms, s.threads[tid]);
    var s1 := NewProcess(ms, s, tid);
    assert s1.threads[tid].containerId == Identify(ms, s.threads[tid]).id;
    forall v | v in s1.threads
      ensures Known(s1, removed, s1.threads[v].containerId)
    {
      if v != tid {
        assert v in s.threads - {tid};
      }
    }
  }

  lemma StepKeepsKnown(ms: seq<Matcher>, s: State, e: Event, removed: set<string>)
    requires AllKnown(s, removed)
    ensures AllKnown(Step(ms, s, e), removed + RemovedBy(e))
  {
    if IsProcess(s.threads, e) {
      NewProcessKeepsKnown(ms, Entered(s, e), e.tid, removed);
    }
  }

  /** The keys that the first n events removed from the cache. */
  function Removed(es: seq<Event>, n: nat): set<string>
    requires n <= |es|
  {
    if n == 0 then {} else Removed(es, n - 1) + RemovedBy(es[n - 1])
  }

  /** Once every container id is known, only what is removed becomes unknown. */
  lemma {:induction false} StaysKnown(ms: seq<Matcher>, states: seq<State>, es: seq<Event>, n: nat)
    requires IsRun(ms, states, es) && AllKnown(states[0], {}) && n <= |es|
    ensures AllKnown(states[n], Removed(es, n))
  {
    if n > 0 {
      assert Follows(ms, states, es, n - 1);
      StaysKnown(ms, states, es, n - 1);
      StepKeepsKnown(ms, states[n - 1], es[n - 1], Removed(es, n - 1));
    }
  }

  /** Every container id in the thread table is cached, or asked for, or was removed at some time. */
  lemma ForeignKeysKnown(ms: seq<Matcher>, states: seq<State>, es: seq<Event>, n: nat)
    requires IsRun(ms, states, es) && IsStart(states[0]) && n <= |es|
    ensures AllKnown(states[n], Removed(es, n))
  {
    StaysKnown(ms, states, es, n);
  }

  // ---- missing images ----

  predicate LacksImage(e: Event) {
    e.AsyncContainer? && !e.info.isPodSandbox && e.info.image == ""
  }

  function Lacking(es: seq<Event>, n: nat): nat
    requires n <= |es|
  {
    if n == 0 then 0 else Lacking(es, n - 1) + if LacksImage(es[n - 1]) then 1 else 0
  }

  lemma MissingOfNewProcess(ms: seq<Matcher>, s: State, tid: int)
    requires tid in s.threads
    ensures NewProcess(ms, s, tid).nMissing == s.nMissing
  {
  }

  lemma MissingOfStep(ms: seq<Matcher>, s: State, e: Event)
    ensures Step(ms, s, e).nMissing == if LacksImage(e) then U64(s.nMissing + 1) else s.nMissing
  {
    if IsProcess(s.threads, e) {
      MissingOfNewProcess(ms, Entered(s, e), e.tid);
    }
  }

  /** The second metric counts, modulo 2^64, the async events about a container without an image. */
  lemma {:induction false} MissingImagesCounted(ms: seq<Matcher>, states: seq<State>, es: seq<Event>, n: nat)
    requires IsRun(ms, states, es) && states[0].nMissing == 0 && n <= |es|
    ensures states[n].nMissing == U64(Lacking(es, n))
  {
    if n > 0 {
      assert Follows(ms, states, es, n - 1);
      MissingImagesCounted(ms, states, es, n - 1);
      MissingAfter(ms, states[n - 1], es[n - 1], Lacking(es, n - 1), Lacking(es, n));
    }
  }

  lemma MissingAfter(ms: seq<Matcher>, s: State, e: Event, x: nat, y: nat)
    requires s.nMissing == U64(x) && y == x + if LacksImage(e) then 1 else 0
    ensures Step(ms, s, e).nMissing == U64(y)
  {
    MissingOfStep(ms, s, e);
    U64Twice(x, s.nMissing);
  }

  lemma U64Twice(x: nat, y: nat)
    requires y == U64(x)
    ensures U64(y + 1) == U64(x + 1)
  {
  }

  // ---- the cache and its log ----

  datatype CacheOp = Put(key: string, info: Info) | Del(key: string)

  /** What an event writes to the cache, read off the event and the thread it concerns. */
  function Writes(ms: seq<Matcher>, t: Table, e: Event): seq<CacheOp> {
    match e
    case Spawn(_, _) => Supplied(ms, Entry(t, e))
    case Exec(tid, _, _, _) => if tid in t then Supplied(ms, Entry(t, e)) else []
    case Exit(_) => []
    case AsyncContainer(added, info) => if added then [Put(info.id, info)] else [Del(info.id)]
    case LegacyContainer(info) => [Put(info.id, info)]
    case Erase(key) => [Del(key)]
    case Reopen(_) => []
  }

  function Supplied(ms: seq<Matcher>, th: Thread): seq<CacheOp> {
    var m := Identify(ms, th);
    if m.info.Some? then [Put(m.id, m.info.value)] else []
  }

  /** The writes of init and of the first n events, in order. */
  ghost function Log(ms: seq<Matcher>, states: seq<State>, es: seq<Event>, n: nat): seq<CacheOp>
    requires n <= |es| <= |states|
  {
    if n == 0 then [Put("", HOST_INFO)]
    else Log(ms, states, es, n - 1) + Writes(ms, states[n - 1].threads, es[n - 1])
  }

  ghost predicate IsLastOn(log: seq<CacheOp>, k: string, i: int) {
    0 <= i < |log| && log[i].key == k && forall j :: i < j < |log| ==> log[j].key != k
  }

  /** The cache holds, under each key, what the last write to the key put there, and nothing else. */
  ghost predicate IsReplay(log: seq<CacheOp>, containers: map<string, Info>) {
    forall k :: match LastOn(log, k)
                case Some(Put(_, info)) => k in containers && containers[k] == info
                case _ => k !in containers
  }

  function LastOn(log: seq<CacheOp>, k: string): Option<CacheOp> {
    if log == [] then None
    else if log[|log| - 1].key == k then Some(log[|log| - 1])
    else LastOn(log[..|log| - 1], k)
  }

  lemma {:induction false} LastOnIsLast(log: seq<CacheOp>, k: string, i: int)
    requires IsLastOn(log, k, i)
    ensures LastOn(log, k) == Some(log[i])
  {
    if i < |log| - 1 {
      LastOnIsLast(log[..|log| - 1], k, i);
    }
  }

  lemma ReplayOneMore(log: seq<CacheOp>, containers: map<string, Info>, op: CacheOp)
    requires IsReplay(log, containers)
    ensures IsReplay(log + [op], Applied(containers, [op]))
  {
    var longer := log + [op];
    assert longer[..|longer| - 1] == log;
    assert forall k :: LastOn(longer, k) == if k == op.key then Some(op) else LastOn(log, k);
  }

  /** After the host's entry, every metadata written is written under its id. */
  ghost predicate KeyedById(log: seq<CacheOp>) {
    && log != [] && log[0] == Put("", HOST_INFO)
    && forall i :: 0 < i < |log| && log[i].Put? ==> log[i].info.id == log[i].key
  }

  lemma {:induction false} CacheIsReplay(ms: seq<Matcher>, states: seq<State>, es: seq<Event>, n: nat)
    requires IsRun(ms, states, es) && IsStart(states[0]) && n <= |es|
    ensures IsReplay(Log(ms, states, es, n), states[n].containers) && KeyedById(Log(ms, states, es, n))
  {
    if n == 0 {
      HostIsReplay(states[0]);
    } else {
      assert Follows(ms, states, es, n - 1);
      CacheIsReplay(ms, states, es, n - 1);
      StepIsReplay(ms, states[n - 1], es[n - 1], Log(ms, states, es, n - 1));
    }
  }

  lemma HostIsReplay(s: State)
    requires IsStart(s)
    ensures IsReplay([Put("", HOST_INFO)], s.containers)
  {
    assert forall k :: LastOn([Put("", HOST_INFO)], k) == if k == "" then Some(Put("", HOST_INFO)) else None;
  }

  lemma StepIsReplay(ms: seq<Matcher>, s: State, e: Event, log: seq<CacheOp>)
    requires IsReplay(log, s.containers) && KeyedById(log)
    ensures var longer := log + Writes(ms, s.threads, e);
            IsReplay(longer, Step(ms, s, e).containers) && KeyedById(longer)
  {
    StepApplies(ms, s, e);
    WritesAreOneOp(ms, s, e);
    LogOneMore(log, s.containers, Writes(ms, s.threads, e));
  }

  lemma LogOneMore(log: seq<CacheOp>, containers: map<string, Info>, ops: seq<CacheOp>)
    requires IsReplay(log, containers) && KeyedById(log) && |ops| <= 1
    requires forall op :: op in ops && op.Put? ==> op.info.id == op.key
    ensures IsReplay(log + ops, Applied(containers, ops)) && KeyedById(log + ops)
  {
    if ops == [] {
      assert log + ops == log;
    } else {
      assert ops == [ops[0]];
      ReplayOneMore(log, containers, ops[0]);
    }
  }

  function Applied(containers: map<string, Info>, ops: seq<CacheOp>): map<string, Info> {
    if ops == [] then containers
    else if ops[0].Put? then containers[ops[0].key := ops[0].info]
    else containers - {ops[0].key}
  }

  lemma NewProcessWrites(ms: seq<Matcher>, s: State, tid: int)
    requires tid in s.threads
    ensures NewProcess(ms, s, tid).containers == Applied(s.containers, Supplied(ms, s.threads[tid]))
    ensures forall op :: op in Supplied(ms, s.threads[tid]) && op.Put? ==> op.info.id == op.key
  {
    IdentifiedInfoHasId(ms, s.threads[tid]);
  }

  lemma StepApplies(ms: seq<Matcher>, s: State, e: Event)
    ensures Step(ms, s, e).containers == Applied(s.containers, Writes(ms, s.threads, e))
  {
    if IsProcess(s.threads, e) {
      NewProcessWrites(ms, Entered(s, e), e.tid);
    }
  }

  lemma WritesAreOneOp(ms: seq<Matcher>, s: State, e: Event)
    ensures |Writes(ms, s.threads, e)| <= 1
    ensures forall op :: op in Writes(ms, s.threads, e) && op.Put? ==> op.info.id == op.key
  {
    if IsProcess(s.threads, e) {
      NewProcessWrites(ms, Entered(s, e), e.tid);
    }
  }

  /**
   * At any point of a run a key holds the metadata that the last write to it put there, and is absent
   * when the last write removed it; an entry under a non-empty key carries that key as its id.
   */
  lemma CacheRefinesLog(ms: seq<Matcher>, states: seq<State>, es: seq<Event>, n: nat, k: string, i: int)
    requires IsRun(ms, states, es) && IsStart(states[0]) && n <= |es|
    requires IsLastOn(Log(ms, states, es, n), k, i)
    ensures var c, op := states[n].containers, Log(ms, states, es, n)[i];
            && (k in c <==> op.Put?)
            && (op.Put? ==> c[k] == op.info && (k != "" ==> c[k].id == k))
  {
    CacheIsReplay(ms, states, es, n);
    LastOnIsLast(Log(ms, states, es, n), k, i);
  }

  /** A key that no event wrote is absent. */
  lemma UnwrittenIsAbsent(ms: seq<Matcher>, states: seq<State>, es: seq<Event>, n: nat, k: string)
    requires IsRun(ms, states, es) && IsStart(states[0]) && n <= |es|
    requires forall i :: 0 <= i < |Log(ms, states, es, n)| ==> Log(ms, states, es, n)[i].key != k
    ensures k !in states[n].containers
  {
    CacheIsReplay(ms, states, es, n);
    LastOnNone(Log(ms, states, es, n), k);
  }

  /** Every entry under a non-empty key has that key as its id. */
  lemma {:induction false} KeysAreIds(ms: seq<Matcher>, states: seq<State>, es: seq<Event>, n: nat)
    requires IsRun(ms, states, es) && IsStart(states[0]) && n <= |es|
    ensures forall k :: k in states[n].containers && k != "" ==> states[n].containers[k].id == k
  {
    if n > 0 {
      assert Follows(ms, states, es, n - 1);
      KeysAreIds(ms, states, es, n - 1);
      StepApplies(ms, states[n - 1], es[n - 1]);
      WritesAreOneOp(ms, states[n - 1], es[n - 1]);
    }
  }

  lemma {:induction false} LastOnNone(log: seq<CacheOp>, k: string)
    requires forall i :: 0 <= i < |log| ==> log[i].key != k
    ensures LastOn(log, k).None?
  {
    if log != [] {
      LastOnNone(log[..|log| - 1], k);
    }
  }

  // ---- the pass at the opening, and the run after it ----

  /** The pass over the initial table followed by a run: a run from the start. */
  lemma PassThenRun(ms: seq<Matcher>, s: State, order: seq<int>, states: seq<State>, es: seq<Event>)
    returns (all: seq<State>, events: seq<Event>)
    requires forall tid :: tid in order ==> tid in s.threads
    requires IsRun(ms, states, es) && states[0] == Captured(ms, s, order)
    ensures events == PassEvents(s.threads, order) + es && |events| == |order| + |es|
    ensures IsRun(ms, all, events) && all[0] == s
    ensures forall n :: 0 <= n <= |es| ==> all[|order| + n] == states[n]
  {
    var pass := PassIsRun(ms, s, order);
    RunsJoin(ms, pass, PassEvents(s.threads, order), states, es);
    all, events := pass + states[1..], PassEvents(s.threads, order) + es;
  }

  lemma {:induction false} NothingRemovedInPass(t: Table, order: seq<int>, events: seq<Event>, n: nat)
    requires (forall tid :: tid in order ==> tid in t) && PassEvents(t, order) <= events && n <= |order|
    ensures Removed(events, n) == {}
  {
    if n > 0 {
      NothingRemovedInPass(t, order, events, n - 1);
    }
  }

  /** After the pass over the initial table and any run, every container id is cached, asked for, or was removed. */
  lemma ForeignKeysKnownAfterPass(ms: seq<Matcher>, s: State, order: seq<int>, states: seq<State>, es: seq<Event>, n: nat)
    requires IsStart(s) && forall tid :: tid in order ==> tid in s.threads
    requires IsRun(ms, states, es) && states[0] == Captured(ms, s, order) && n <= |es|
    ensures AllKnown(states[n], Removed(es, n))
  {
    var pass := PassIsRun(ms, s, order);
    ForeignKeysKnown(ms, pass, PassEvents(s.threads, order), |order|);
    NothingRemovedInPass(s.threads, order, PassEvents(s.threads, order), |order|);
    StaysKnown(ms, states, es, n);
  }

  /** And the cache is the replay of the log of both. */
  lemma CacheRefinesLogAfterPass(ms: seq<Matcher>, s: State, order: seq<int>, states: seq<State>, es: seq<Event>, n: nat)
    returns (all: seq<State>, events: seq<Event>)
    requires IsStart(s) && forall tid :: tid in order ==> tid in s.threads
    requires IsRun(ms, states, es) && states[0] == Captured(ms, s, order) && n <= |es|
    ensures events == PassEvents(s.threads, order) + es && |events| == |order| + |es|
    ensures IsRun(ms, all, events) && all[0] == s && all[|order| + n] == states[n]
    ensures IsReplay(Log(ms, all, events, |order| + n), states[n].containers)
    ensures KeyedById(Log(ms, all, events, |order| + n))
  {
    all, events := PassThenRun(ms, s, order, states, es);
    CacheReplays(ms, all, events, |order| + n, states[n].containers);
  }

  lemma CacheReplays(ms: seq<Matcher>, states: seq<State>, es: seq<Event>, n: nat, containers: map<string, Info>)
    requires IsRun(ms, states, es) && IsStart(states[0]) && n <= |es| && containers == states[n].containers
    ensures IsReplay(Log(ms, states, es, n), containers) && KeyedById(Log(ms, states, es, n))
  {
    CacheIsReplay(ms, states, es, n);
  }
}
