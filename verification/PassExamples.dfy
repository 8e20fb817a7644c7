/** Runs in which what the safety theorems ask for is missing, and what becomes of them then. */
module PassExamples {
  import opened Wrappers
  import opened CppString
  import opened Runc
  import opened RuncLayouts
  import opened ContainerInfo
  import opened CpuSet
  import opened Matchers
  import opened Threads
  import opened PluginState
  import opened PluginRuns
  import opened Categories
  import opened Capture
  import ContainerdMatcher

  /** The init of a container, and a child of it with some command. */
  function InitAndChild(cgroup: Str, exe: string): Table {
    map[1 := Thread(1, 0, "sh", [], [cgroup], "", CatNone),
        2 := Thread(2, 1, exe, [], [cgroup], "", CatNone)]
  }

  lemma OneCgroup(ms: seq<Matcher>, th: Thread, m: Matched)
    requires th.cgroups != [] && th.cgroups[0] != "" && m.id != "" && FirstMatch(ms, th.cgroups[0]) == Some(m)
    ensures Identify(ms, th) == m
  {
  }

  lemma PairIsAcyclic(t: Table)
    requires t.Keys == {1, 2} && t[2].ptid == 1 && t[1].ptid == 0
    ensures Acyclic(t)
    ensures forall a :: Above(t, 2, a) <==> a == 1 || a == 0
    ensures !Above(t, 1, 1) && !Above(t, 1, 2)
  {
    ParentIsAbove(t, 2);
    ParentIsAbove(t, 1);
    AboveTransitive(t, 2, 1, 0);
    forall a | Above(t, 1, a)
      ensures a == 0
    {
      AboveSplit(t, 1, a);
    }
    forall a | Above(t, 2, a)
      ensures a == 1 || a == 0
    {
      AboveSplit(t, 2, a);
    }
  }

  // ---- the first pass ----

  lemma LxcNameMatched(cfg: Engines, name: string, c: string)
    requires cfg.lxc && !cfg.containerd && '/' !in name && |name| < 50 && c == "/lxc/" + name
    ensures FirstMatch(EngineOrder(cfg), c) == Some(Matched(name, Some(BareInfo(name, Lxc))))
  {
    assert ContainerdMatcher.CtrPath("lxc", name) == c;
    LxcNameIsRead(name);
    ShortIsNotListened(cfg, c);
    LxcPathAnswered(cfg, c, name);
  }

  lemma ShortIsNotListened(cfg: Engines, c: string)
    requires !cfg.containerd && |c| < 64
    ensures NotListened(cfg, c)
  {
    ShortPathIsNotRunc(RuncEngines(cfg), c);
  }

  lemma CapturedPair(ms: seq<Matcher>, s: State, a: int, b: int)
    requires a in s.threads && b in s.threads
    ensures Captured(ms, s, [a, b]) == NewProcess(ms, NewProcess(ms, s, a), b)
  {
    assert Captured(ms, s, []) == s;
    assert [a][..0] == [] && [a, b][..1] == [a];
    assert Captured(ms, s, [a]) == NewProcess(ms, s, a);
  }

  /** Parents first, an entry below its container's init is in the container. */
  lemma ParentThenChild(ms: seq<Matcher>, s: State)
    requires 1 in s.threads && 2 in s.threads && s.threads[1].vpid == 1 && s.threads[2].ptid == 1
    requires var m1, m2 := Identify(ms, s.threads[1]), Identify(ms, s.threads[2]);
             m1.id != "" && m1 == m2 && m1.id in WithInfo(s.containers, m1.info)
    ensures NewProcess(ms, NewProcess(ms, s, 1), 2).threads[2].category == CatContainer
  {
    var s1 := NewProcess(ms, s, 1);
    IdentifiedInfoHasId(ms, s.threads[1]);
    ProcessWrites(ms, s, 1);
    ProcessWrites(ms, s1, 2);
    assert s1.threads[2] == s.threads[2];
  }

  /**
   * At the start, over an lxc container's init and its child: parents first, both are in the container;
   * child first, the child is left in no category at all.
   */
  lemma ChildFirstAtStart(cfg: Engines, s: State, name: string, c: Str)
    requires cfg.lxc && !cfg.containerd && 0 < |name| < 50 && '/' !in name && c == "/lxc/" + name
    requires IsStart(s) && s.threads == InitAndChild(c, "sh")
    ensures IsOrder(s.threads, [1, 2]) && IsOrder(s.threads, [2, 1])
    ensures Captured(EngineOrder(cfg), s, [1, 2]).threads[2].category == CatContainer
    ensures Captured(EngineOrder(cfg), s, [2, 1]).threads[2].category == CatNone
  {
    LxcNameMatched(cfg, name, c);
    PassesAtStart(EngineOrder(cfg), s, c, Matched(name, Some(BareInfo(name, Lxc))));
  }

  lemma PassesAtStart(ms: seq<Matcher>, s: State, path: Str, m: Matched)
    requires s.threads == InitAndChild(path, "sh") && path != "" && FirstMatch(ms, path) == Some(m) && m.id != ""
    requires m.info.Some? && m.info.value.id == m.id && m.info.value.probes == []
    ensures Captured(ms, s, [1, 2]).threads[2].category == CatContainer
    ensures Captured(ms, s, [2, 1]).threads[2].category == CatNone
  {
    OneCgroup(ms, s.threads[1], m);
    OneCgroup(ms, s.threads[2], m);
    CapturedPair(ms, s, 1, 2);
    CapturedPair(ms, s, 2, 1);
    ParentThenChild(ms, s);
    LoneChild(ms, s);
  }

  /** The child alone inherits nothing, and is no probe's. */
  lemma LoneChild(ms: seq<Matcher>, s: State)
    requires 1 in s.threads && 2 in s.threads && s.threads[2].vpid != 1 && s.threads[2].ptid == 1
    requires s.threads[1].category == CatNone && s.threads[2].category == CatNone
    requires var m := Identify(ms, s.threads[2]); m.info.Some? && m.info.value.id == m.id && m.info.value.probes == []
    ensures NewProcess(ms, NewProcess(ms, s, 2), 1).threads[2].category == CatNone
  {
    ProcessWrites(ms, s, 2);
    ProcessWrites(ms, NewProcess(ms, s, 2), 1);
  }

  // ---- a capture opened again ----

  const PROBE := HealthProbe(Healthcheck, "curl", [])

  /** The path that a layout of an enabled podman, docker or cri engine prints for a full id. */
  ghost predicate IsContainerPath(cfg: Engines, path: Str, id: string) {
    exists owner, l ::
      && owner in RuncEngines(cfg) && IsRunc(owner) && l in TableOf(owner) && IsFullId(id)
      && path == LayoutPath("", l, id)
  }

  lemma ContainerPathMatched(cfg: Engines, path: Str, id: string)
    requires IsContainerPath(cfg, path, id)
    ensures path != "" && FirstMatch(EngineOrder(cfg), path) == Some(Matched(ShortContainerID(id), None))
  {
    var owner, l :| owner in RuncEngines(cfg) && IsRunc(owner) && l in TableOf(owner) && path == LayoutPath("", l, id);
    FullIdKeyAgrees(cfg, owner, "", l, id);
    NothingReadFromHead(cfg, "", l, Rivals(cfg, l));
    PartsOnPath("", l, id);
  }

  /** The worker has reported the container, and a new capture finds the processes of t. */
  ghost function Reopened(ms: seq<Matcher>, s: State, info: Info, t: Table): State {
    Step(ms, Step(ms, s, AsyncContainer(true, info)), Reopen(t))
  }

  lemma ReopenedState(ms: seq<Matcher>, s: State, info: Info, t: Table)
    requires Unvisited(t)
    ensures Reopened(ms, s, info, t).threads == t
    ensures Reopened(ms, s, info, t).containers == s.containers[info.id := info]
  {
    assert forall tid :: tid in t ==> Scanned(t)[tid] == t[tid];
    assert Scanned(t) == t;
  }

  lemma PassesOverPair(ms: seq<Matcher>, s: State, path: Str, info: Info)
    requires s.threads == InitAndChild(path, "curl") && path != "" && info.id != "" && info.probes == [PROBE]
    requires FirstMatch(ms, path) == Some(Matched(info.id, None))
    requires info.id in s.containers && s.containers[info.id] == info
    ensures Captured(ms, s, [1, 2]).threads[2].category == CatContainer
    ensures Captured(ms, s, [2, 1]).threads[2].category == CatHealthcheck
    ensures HasInitAbove(Captured(ms, s, [2, 1]).threads, 2)
  {
    PairIdentified(ms, s, path, info.id);
    CapturedPair(ms, s, 1, 2);
    CapturedPair(ms, s, 2, 1);
    ParentThenChild(ms, s);
    assert ProbeOf(s.threads[2], info) == Healthcheck;
    ChildThenParent(ms, s, info);
  }

  lemma PairIdentified(ms: seq<Matcher>, s: State, path: Str, id: string)
    requires s.threads == InitAndChild(path, "curl") && path != "" && id != ""
    requires FirstMatch(ms, path) == Some(Matched(id, None))
    ensures Identify(ms, s.threads[1]) == Matched(id, None) && Identify(ms, s.threads[2]) == Matched(id, None)
  {
    OneCgroup(ms, s.threads[1], Matched(id, None));
    OneCgroup(ms, s.threads[2], Matched(id, None));
  }

  /**
   * With a cache that a first capture has filled, the pass of a second one is safe parents first, and is
   * not child first: the climb reads an init that has no container id yet, and a probe command inside the
   * container is taken for a probe from outside.
   */
  lemma ChildFirstMisclassifies(cfg: Engines, s: State, path: Str, id: string, info: Info)
    requires IsStart(s) && IsContainerPath(cfg, path, id)
    requires info.id == ShortContainerID(id) && info.probes == [PROBE]
    ensures var s2 := Reopened(EngineOrder(cfg), s, info, InitAndChild(path, "curl"));
            && s2.threads.Keys == {1, 2}
            && Captured(EngineOrder(cfg), s2, [1, 2]).threads[2].category == CatContainer
            && Captured(EngineOrder(cfg), s2, [2, 1]).threads[2].category == CatHealthcheck
            && HasInitAbove(Captured(EngineOrder(cfg), s2, [2, 1]).threads, 2)
  {
    ContainerPathMatched(cfg, path, id);
    PassesAfterReopening(EngineOrder(cfg), s, path, info);
  }

  lemma PassesAfterReopening(ms: seq<Matcher>, s: State, path: Str, info: Info)
    requires path != "" && info.id != "" && info.probes == [PROBE] && FirstMatch(ms, path) == Some(Matched(info.id, None))
    ensures var s2 := Reopened(ms, s, info, InitAndChild(path, "curl"));
            && s2.threads.Keys == {1, 2}
            && Captured(ms, s2, [1, 2]).threads[2].category == CatContainer
            && Captured(ms, s2, [2, 1]).threads[2].category == CatHealthcheck
            && HasInitAbove(Captured(ms, s2, [2, 1]).threads, 2)
  {
    ReopenedState(ms, s, info, InitAndChild(path, "curl"));
    PassesOverPair(ms, Reopened(ms, s, info, InitAndChild(path, "curl")), path, info);
  }

  lemma ChildThenParent(ms: seq<Matcher>, s: State, info: Info)
    requires s.threads.Keys == {1, 2} && Unvisited(s.threads) && s.threads[1].vpid == 1 && s.threads[1].ptid == 0
    requires s.threads[2].vpid != 1 && s.threads[2].ptid == 1 && ProbeOf(s.threads[2], info) == Healthcheck
    requires var m := Matched(info.id, None);
             Identify(ms, s.threads[1]) == m && Identify(ms, s.threads[2]) == m && info.id != ""
    requires info.id in s.containers && s.containers[info.id] == info
    ensures var s2 := NewProcess(ms, NewProcess(ms, s, 2), 1);
            s2.threads[2].category == CatHealthcheck && HasInitAbove(s2.threads, 2)
  {
    var s1 := NewProcess(ms, s, 2);
    ProcessWrites(ms, s, 2);
    PairIsAcyclic(WithId(ms, s.threads, 2));
    assert !HasInitAbove(WithId(ms, s.threads, 2), 2);
    ProcessWrites(ms, s1, 1);
    var t2 := NewProcess(ms, s1, 1).threads;
    PairIsAcyclic(t2);
    assert Above(t2, 2, 1) && IsInit(t2, 1);
  }

  // ---- an init that joins a container ----

  /** A process of the host with pid 1 in its namespace. */
  const OUTSIDE := Thread(1, 0, "sh", [], [], "", CatNone)

  /** A child of it that runs a container's probe. */
  function Child(path: Str): Thread {
    Thread(2, 1, "curl", [], [path], "", CatNone)
  }

  lemma ChildIsProbe(ms: seq<Matcher>, s: State, path: Str, info: Info)
    requires s.threads == map[1 := OUTSIDE] && path != "" && info.id != "" && info.probes == [PROBE]
    requires FirstMatch(ms, path) == Some(Matched(info.id, None))
    requires info.id in s.containers && s.containers[info.id] == info
    ensures var s1 := Step(ms, s, Spawn(2, Child(path)));
            && s1.threads.Keys == {1, 2} && s1.threads[1] == OUTSIDE
            && s1.threads[2] == Child(path).(containerId := info.id, category := CatHealthcheck)
  {
    var s0 := Entered(s, Spawn(2, Child(path)));
    OneCgroup(ms, Child(path), Matched(info.id, None));
    ProcessWrites(ms, s0, 2);
    PairIsAcyclic(WithId(ms, s0.threads, 2));
    assert !HasInitAbove(WithId(ms, s0.threads, 2), 2);
    assert ProbeOf(Child(path), info) == Healthcheck;
  }

  lemma InitJoins(ms: seq<Matcher>, s: State, path: Str, id: string)
    requires s.threads.Keys == {1, 2} && s.threads[1] == OUTSIDE && s.threads[2].ptid == 1 && path != "" && id != ""
    requires s.threads[2].category == CatHealthcheck && FirstMatch(ms, path) == Some(Matched(id, None))
    ensures var s1 := Step(ms, s, Exec(1, "sh", [], [path]));
            s1.threads[2].category == CatHealthcheck && HasInitAbove(s1.threads, 2)
    ensures !NoProbesBelow(ms, s, Exec(1, "sh", [], [path]))
  {
    var e := Exec(1, "sh", [], [path]);
    var s0 := Entered(s, e);
    OneCgroup(ms, s0.threads[1], Matched(id, None));
    assert Identify(ms, OUTSIDE).id == "";
    ProcessWrites(ms, s0, 1);
    PairIsAcyclic(s.threads);
    PairIsAcyclic(Step(ms, s, e).threads);
    assert IsInit(Step(ms, s, e).threads, 1);
  }

  /**
   * What NoProbesBelow excludes does fail: a host process is the parent of a probe and has pid 1 in its
   * namespace; when it joins the container, the probe has an init above it and stays a probe.
   */
  lemma JoiningInitLeavesProbe(cfg: Engines, s: State, path: Str, id: string, info: Info)
    requires s.threads == map[1 := OUTSIDE] && IsStart(s) && IsContainerPath(cfg, path, id)
    requires info.id == ShortContainerID(id) && info.probes == [PROBE]
    ensures var ms := EngineOrder(cfg);
            var s1 := Step(ms, s, AsyncContainer(true, info));
            var s2 := Step(ms, s1, Spawn(2, Child(path)));
            var s3 := Step(ms, s2, Exec(1, "sh", [], [path]));
            && 2 in s3.threads && s3.threads[2].category == CatHealthcheck && HasInitAbove(s3.threads, 2)
  {
    ContainerPathMatched(cfg, path, id);
    Joining(EngineOrder(cfg), s, path, info);
  }

  lemma Joining(ms: seq<Matcher>, s: State, path: Str, info: Info)
    requires s.threads == map[1 := OUTSIDE] && path != "" && info.id != "" && info.probes == [PROBE]
    requires FirstMatch(ms, path) == Some(Matched(info.id, None))
    ensures var s1 := Step(ms, s, AsyncContainer(true, info));
            var s2 := Step(ms, s1, Spawn(2, Child(path)));
            var s3 := Step(ms, s2, Exec(1, "sh", [], [path]));
            && 2 in s3.threads && s3.threads[2].category == CatHealthcheck && HasInitAbove(s3.threads, 2)
  {
    var s1 := Step(ms, s, AsyncContainer(true, info));
    ChildIsProbe(ms, s1, path, info);
    InitJoins(ms, Step(ms, s1, Spawn(2, Child(path))), path, info.id);
  }

  // ---- one id, two kinds of container ----

  /** An init in a docker container, and one in an lxc container that bears the short id of the first. */
  function SameShortId(id: string): Table
    requires IsFullId(id)
  {
    map[1 := Thread(1, 0, "sh", [], ["/" + id], "", CatNone),
        2 := Thread(1, 0, "sh", [], ["/lxc/" + ShortContainerID(id)], "", CatNone)]
  }

  lemma SameShortIdIdentified(cfg: Engines, t: Table, id: string)
    requires cfg.docker && cfg.lxc && !cfg.containerd && IsFullId(id) && t == SameShortId(id)
    ensures var key := ShortContainerID(id);
            && key != "" && Identify(EngineOrder(cfg), t[1]) == Matched(key, None)
            && Identify(EngineOrder(cfg), t[2]) == Matched(key, Some(BareInfo(key, Lxc)))
  {
    var l := Layout("/", "");
    assert DockerMatcher in RuncEngines(cfg) && l in TableOf(DockerMatcher);
    assert LayoutPath("", l, id) == "/" + id;
    ContainerPathMatched(cfg, "/" + id, id);
    LxcNameMatched(cfg, ShortContainerID(id), "/lxc/" + ShortContainerID(id));
    OneCgroup(EngineOrder(cfg), t[1], Matched(ShortContainerID(id), None));
    OneCgroup(EngineOrder(cfg), t[2], Matched(ShortContainerID(id), Some(BareInfo(ShortContainerID(id), Lxc))));
  }

  lemma TwoRootsAreApart(t: Table)
    requires t.Keys == {1, 2} && t[1].ptid == 0 && t[2].ptid == 0
    ensures Acyclic(t) && forall v, a :: v in t && Above(t, v, a) ==> a == 0
  {
    forall v, a | v in t && Above(t, v, a)
      ensures a == 0
    {
      AboveSplit(t, v, a);
    }
  }

  /**
   * With docker and lxc enabled, and not containerd, that is an input on which two parents-first orders of
   * the first pass differ.
   */
  lemma SharedShortId(cfg: Engines, s: State, id: string) returns (early: seq<int>, late: seq<int>)
    requires cfg.docker && cfg.lxc && !cfg.containerd && IsFullId(id)
    requires IsStart(s) && s.threads == SameShortId(id)
    ensures ParentsFirst(s.threads, early) && ParentsFirst(s.threads, late)
    ensures Captured(EngineOrder(cfg), s, early).threads[1].category == CatNone
    ensures Captured(EngineOrder(cfg), s, late).threads[1].category == CatContainer
  {
    var ms, t := EngineOrder(cfg), s.threads;
    SameShortIdIdentified(cfg, t, id);
    TwoRootsAreApart(t);
    EnginesAreNotStatic(cfg);
    assert Supplies(ms, t[2], Identify(ms, t[1]).id);
    early, late := SharedIdMakesOrderMatter(ms, s, 1);
  }
}
