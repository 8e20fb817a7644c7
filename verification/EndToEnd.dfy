/** From a cgroup path to the worker's answer: both sides speak of the container by the same key. */
module EndToEnd {
  import opened Wrappers
  import opened CppString
  import opened Runc
  import opened RuncLayouts
  import ContainerdMatcher
  import LxcMatchers
  import opened CpuSet
  import opened Matchers
  import opened Threads
  import opened PluginState
  import opened PluginRuns
  import opened HostEntry
  import opened Fetcher
  import opened Pipeline

  /** The cgroups name the container by the path of its full id, before any other. */
  ghost predicate NamedBy(cfg: Engines, cgroups: seq<Str>, k: nat, owner: Matcher, head: string, l: Layout, id: string) {
    && k < |cgroups| && cgroups[k] == LayoutPath(head, l, id) && NoneNames(cfg, cgroups[..k])
    && owner in RuncEngines(cfg) && IsRunc(owner) && l in TableOf(owner) && IsFullId(id)
    && FirstLayoutId(head, Rivals(cfg, l), false) in {None, Some(ShortContainerID(id))}
  }

  lemma {:induction false} LoopReaches(ms: seq<Matcher>, cgroups: seq<Str>, k: nat, m: Matched, acc: Matched)
    requires k < |cgroups| && cgroups[k] != "" && FirstMatch(ms, cgroups[k]) == Some(m) && m.id != ""
    requires forall i :: 0 <= i < k && cgroups[i] != "" && FirstMatch(ms, cgroups[i]).Some? ==>
      FirstMatch(ms, cgroups[i]).value.id == ""
    ensures MatchCgroups(ms, cgroups, acc) == m
  {
    if k > 0 {
      var first := FirstMatch(ms, cgroups[0]);
      LoopReaches(ms, cgroups[1..], k - 1, m, if cgroups[0] == "" || first.None? then acc else first.value);
    }
  }

  /** The cgroup at k resolves to a container's name, and none before it does. */
  ghost predicate FirstNaming(ms: seq<Matcher>, cgroups: seq<Str>, k: int) {
    && 0 <= k < |cgroups| && Names(ms, cgroups[k]) && forall i :: 0 <= i < k ==> !Names(ms, cgroups[i])
  }

  predicate Names(ms: seq<Matcher>, c: Str) {
    c != "" && FirstMatch(ms, c).Some? && FirstMatch(ms, c).value.id != ""
  }

  /** A thread without a name among its cgroups gets the empty id. */
  lemma {:induction false} NamelessLoop(ms: seq<Matcher>, cgroups: seq<Str>, acc: Matched)
    requires acc.id == "" && forall i :: 0 <= i < |cgroups| ==> !Names(ms, cgroups[i])
    ensures MatchCgroups(ms, cgroups, acc).id == ""
  {
    if cgroups != [] {
      assert !Names(ms, cgroups[0]);
      var first := FirstMatch(ms, cgroups[0]);
      NamelessLoop(ms, cgroups[1..], if cgroups[0] == "" || first.None? then acc else first.value);
    }
  }

  /** With any matchers, the first cgroup that names a container decides id and metadata of a thread. */
  lemma FirstNamingCgroupDecides(ms: seq<Matcher>, th: Thread, k: int)
    ensures FirstNaming(ms, th.cgroups, k) ==> Some(Identify(ms, th)) == FirstMatch(ms, th.cgroups[k])
    ensures (forall i :: 0 <= i < |th.cgroups| ==> !Names(ms, th.cgroups[i])) <==> Identify(ms, th).id == ""
  {
    if FirstNaming(ms, th.cgroups, k) {
      LoopReaches(ms, th.cgroups, k, FirstMatch(ms, th.cgroups[k]).value, Matched("", None));
    }
    if forall i :: 0 <= i < |th.cgroups| ==> !Names(ms, th.cgroups[i]) {
      NamelessLoop(ms, th.cgroups, Matched("", None));
    } else {
      var j := FirstOfNaming(ms, th.cgroups);
      LoopReaches(ms, th.cgroups, j, FirstMatch(ms, th.cgroups[j]).value, Matched("", None));
    }
  }

  lemma {:induction false} FirstOfNaming(ms: seq<Matcher>, cgroups: seq<Str>) returns (k: int)
    requires exists i :: 0 <= i < |cgroups| && Names(ms, cgroups[i])
    ensures FirstNaming(ms, cgroups, k)
  {
    k := 0;
    while !Names(ms, cgroups[k])
      invariant 0 <= k < |cgroups| && forall i :: 0 <= i < k ==> !Names(ms, cgroups[i])
      invariant exists i :: k <= i < |cgroups| && Names(ms, cgroups[i])
      decreases |cgroups| - k
    {
      k := k + 1;
    }
  }

  /** The thread gets the worker's short id for its key, without metadata. */
  lemma NamedByShortId(cfg: Engines, th: Thread, k: nat, owner: Matcher, head: string, l: Layout, id: string)
    requires NamedBy(cfg, th.cgroups, k, owner, head, l, id)
    ensures Identify(EngineOrder(cfg), th) == Matched(ShortContainerID(id), None)
  {
    FullIdKeyAgrees(cfg, owner, head, l, id);
    PartsOnPath(head, l, id);
    forall i | 0 <= i < k && th.cgroups[i] != "" && FirstMatch(EngineOrder(cfg), th.cgroups[i]).Some?
      ensures FirstMatch(EngineOrder(cfg), th.cgroups[i]).value.id == ""
    {
      assert th.cgroups[i] == th.cgroups[..k][i];
      EmptyMatch(cfg, th.cgroups[i]);
    }
    LoopReaches(EngineOrder(cfg), th.cgroups, k, Matched(ShortContainerID(id), None), Matched("", None));
  }

  /** An unknown container, whose matcher has no metadata, is asked for. */
  lemma UnknownIsAsked(ms: seq<Matcher>, getters: seq<Getter>, sys: Sys, e: Event, key: string)
    requires IsProcess(sys.plugin.threads, e) && Enabled(sys, getters, PluginEvent(e)) && sys.listening
    requires Identify(ms, Entry(sys.plugin.threads, e)) == Matched(key, None) && key != ""
    requires key !in sys.plugin.containers && key !in sys.plugin.asked
    ensures var sys1 := Next(ms, getters, sys, PluginEvent(e));
            && sys1.pending == Some(key) && key in sys1.plugin.asked && key !in sys1.dropped
            && sys1.plugin.asks == sys.plugin.asks + [key]
            && e.tid in sys1.plugin.threads && sys1.plugin.threads[e.tid].containerId == key
  {
  }

  /**
   * A process appears in a container of podman, docker or cri that the plugin does not know, while the
   * fetcher listens: one request goes out, for the short id of the container's full id. If any engine
   * knows the container, turns of fetcher and worker and one parse close the request, and the thread's
   * foreign key leads to the container's metadata: to that of the first engine that knows it, unless an event
   * about the container was already in the queue.
   */
  lemma AskedByTheWorkersKey(cfg: Engines, getters: seq<Getter>, sys: Sys, e: Event,
                             k: nat, owner: Matcher, head: string, l: Layout, id: string)
    returns (states: seq<Sys>, i: nat)
    requires NothingLost(sys, getters) && Honest(getters) && sys.listening
    requires Enabled(sys, getters, PluginEvent(e)) && IsProcess(sys.plugin.threads, e)
    requires NamedBy(cfg, Entry(sys.plugin.threads, e).cgroups, k, owner, head, l, id)
    requires var key := ShortContainerID(id);
             key !in sys.plugin.containers && key !in sys.plugin.asked && FirstAnswer(getters, key, 0).Some?
    ensures var key, sys1 := ShortContainerID(id), Next(EngineOrder(cfg), getters, sys, PluginEvent(e));
            && sys1.pending == Some(key) && sys1.plugin.asks == sys.plugin.asks + [key]
            && AreTurns(EngineOrder(cfg), getters, states) && states[0] == sys1
    ensures Enabled(states[|states| - 1], getters, Parse(i))
    ensures var key, p := ShortContainerID(id), Next(EngineOrder(cfg), getters, states[|states| - 1], Parse(i)).plugin;
            && key !in p.asked && e.tid in p.threads && p.threads[e.tid].containerId == key
            && key in p.containers && p.containers[key].id == key
            && (!Queued(sys.queue, key) ==> Some(p.containers[key]) == FirstAnswer(getters, key, 0))
  {
    var ms, key := EngineOrder(cfg), ShortContainerID(id);
    NamedByShortId(cfg, Entry(sys.plugin.threads, e), k, owner, head, l, id);
    UnknownIsAsked(ms, getters, sys, e, key);
    NextLosesNothing(ms, getters, sys, PluginEvent(e));
    states, i := RequestGetsAnswered(ms, getters, Next(ms, getters, sys, PluginEvent(e)), key);
  }

  /**
   * A process replaces the host's entry exactly if all of its resolving cgroups are lxc or libvirt paths
   * without a name; the thread then keeps the key of the host, and the entry under it has no id.
   */
  lemma ProcessReplacesHost(cfg: Engines, s: State, tid: int)
    requires tid in s.threads
    ensures var s1 := NewProcess(EngineOrder(cfg), s, tid);
            if AllNameNothing(cfg, s.threads[tid].cgroups)
            then s1.threads[tid].containerId == "" && "" in s1.containers && s1.containers[""].id == ""
            else ("" in s1.containers <==> "" in s.containers) && ("" in s.containers ==> s1.containers[""] == s.containers[""])
  {
    IdentifiedAsNothing(cfg, s.threads[tid]);
    IdentifiedInfoHasId(EngineOrder(cfg), s.threads[tid]);
  }

  lemma LxcWithoutName(cfg: Engines)
    requires cfg.lxc
    ensures NamesNothing(cfg, "/lxc/")
  {
    var c := "/lxc/";
    ShortPathIsNotRunc(RuncEngines(cfg), c);
    NoNameForContainerd(c);
    assert LxcMatchers.LXC_LAYOUTS[0] == "/lxc/" && Occurs(c, "/lxc/", 0);
    FirstIs(c, "/lxc/", 0, 0);
  }

  /** Behind a namespace that ends the path there is no name for containerd either. */
  lemma NoNameForContainerd(c: string)
    requires c == "/lxc/"
    ensures ContainerdMatcher.ContainerdId(c).None?
  {
    assert c[1..4] == "lxc" && c[0..5] == c;
    assert Occurs(c, "/", 0) && Occurs(c, "/", 4);
    forall j | 1 <= j < 4
      ensures !Occurs(c, "/", j)
    {
      assert c[j..j + 1][0] == c[j];
    }
    FirstIs(c, "/", 0, 0);
    FirstIs(c, "/", 1, 4);
    assert ContainerdMatcher.FirstNamespace(c, 0) == Some(c);
    LastIs(c, c, 0);
    EmptyIsLast(c);
  }

  /** For one, a thread with the single cgroup "/lxc/", whatever is enabled besides lxc. */
  lemma EmptyLxcNameReplacesHost(cfg: Engines, s: State, tid: int)
    requires cfg.lxc && tid in s.threads && s.threads[tid].cgroups == ["/lxc/"]
    ensures var s1 := NewProcess(EngineOrder(cfg), s, tid);
            s1.threads[tid].containerId == "" && "" in s1.containers && s1.containers[""].id == ""
  {
    LxcWithoutName(cfg);
    ProcessReplacesHost(cfg, s, tid);
  }
}
