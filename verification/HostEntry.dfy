/** The entry of the host, under the empty key, and what replaces or removes it. */
module HostEntry {
  import opened Wrappers
  import opened CppString
  import opened Runc
  import ContainerdMatcher
  import opened LxcMatchers
  import opened ContainerInfo
  import opened Matchers
  import opened Threads
  import opened PluginState
  import opened PluginRuns

  // ---- which paths name a container by the empty id ----

  /** Behind the first marker found, in the order of the layouts, the path ends or goes on with a slash. */
  predicate EmptyNameUnder(c: string, layouts: seq<string>) {
    if layouts == [] then false
    else match FirstFrom(c, layouts[0], 0)
      case None => EmptyNameUnder(c, layouts[1..])
      case Some(p) => p + |layouts[0]| == |c| || c[p + |layouts[0]|] == '/'
  }

  lemma BeforeSlashIsEmpty(s: string)
    ensures Before(s, "/") == "" <==> s == "" || s[0] == '/'
  {
    var first := FirstFrom(s, "/", 0);
    if s != "" && s[0] == '/' {
      assert Occurs(s, "/", 0);
    }
    if first == Some(0) {
      CharOfOccurrence(s, "/", 0, 0);
    }
  }

  lemma {:induction false} LxcNameIsEmpty(c: string, layouts: seq<string>)
    ensures LxcIdFrom(c, layouts) == Some("") <==> EmptyNameUnder(c, layouts)
  {
    if layouts != [] {
      match FirstFrom(c, layouts[0], 0)
      case None => LxcNameIsEmpty(c, layouts[1..]);
      case Some(p) => BeforeSlashIsEmpty(c[p + |layouts[0]|..]);
    }
  }

  /** The three branches of libvirt: nothing before the suffix, between marker and delimiter, behind the marker. */
  predicate EmptyLibvirtName(c: string) {
    if LibvirtPlain(c).Some? then LastIndexOf(c, "/") == Some(|c| - |LIBVIRT_SUFFIX| - 1)
    else if LibvirtSystemd(c).Some? then
      FirstFrom(c, LIBVIRT_MARKER, 0) == Some(|c| - |LibvirtDelimiter(c)| - |LIBVIRT_MARKER| - 1)
    else FirstAtEnd(c, LIBVIRT_LEGACY)
  }

  lemma PlainNameIsEmpty(c: string)
    requires LibvirtPlain(c).Some?
    ensures LibvirtPlain(c) == Some("") <==> LastIndexOf(c, "/") == Some(|c| - |LIBVIRT_SUFFIX| - 1)
  {
    SlashBeforeSuffix(c);
  }

  lemma SystemdNameIsEmpty(c: string)
    requires LibvirtSystemd(c).Some?
    ensures LibvirtSystemd(c) == Some("") <==>
              FirstFrom(c, LIBVIRT_MARKER, 0) == Some(|c| - |LibvirtDelimiter(c)| - |LIBVIRT_MARKER| - 1)
  {
    var p := FirstFrom(c, LIBVIRT_MARKER, 0).value;
    MarkerBeforeDelimiter(c, p);
    MarkerAndDelimiterLength(c);
    BetweenIsEmpty(c, p, |c| - |LibvirtDelimiter(c)|);
  }

  lemma MarkerAndDelimiterLength(c: string)
    ensures |LIBVIRT_MARKER| == 7 && |LibvirtDelimiter(c)| > 1
  {
  }

  lemma BetweenIsEmpty(c: string, p: nat, to: nat)
    requires p + 7 <= to && to + 1 < |c|
    ensures BetweenMarkerAnd(c, p, to) == "" <==> p == to - 8
  {
  }

  lemma LegacyNameIsEmpty(c: string)
    ensures After(c, LIBVIRT_LEGACY) == Some("") <==> FirstAtEnd(c, LIBVIRT_LEGACY)
  {
  }

  lemma LibvirtNameIsEmpty(c: string)
    ensures LibvirtId(c) == Some("") <==> EmptyLibvirtName(c)
  {
    if LibvirtPlain(c).Some? {
      PlainNameIsEmpty(c);
    } else if LibvirtSystemd(c).Some? {
      SystemdNameIsEmpty(c);
    } else {
      LegacyNameIsEmpty(c);
    }
  }

  /** Only an lxc or libvirt path without a name resolves to the empty id, and only if no earlier engine takes it. */
  predicate NamesNothing(cfg: Engines, c: string) {
    && FirstMatch(RuncEngines(cfg), c).None?
    && !(cfg.containerd && ContainerdMatcher.ContainerdId(c).Some?)
    && if cfg.lxc && LxcId(c).Some? then EmptyNameUnder(c, LXC_LAYOUTS) else cfg.libvirtLxc && EmptyLibvirtName(c)
  }

  lemma {:induction false} LayoutIdsAreLong(c: string, layouts: seq<Layout>)
    ensures FirstLayoutId(c, layouts, false).Some? ==> |FirstLayoutId(c, layouts, false).value| == 12
  {
    if layouts != [] {
      LayoutIdsAreLong(c, layouts[1..]);
    }
  }

  lemma RuncNamesSomething(ms: seq<Matcher>, c: string)
    requires forall k :: 0 <= k < |ms| ==> IsRunc(ms[k])
    ensures FirstMatch(ms, c).Some? ==> FirstMatch(ms, c).value.id != ""
  {
    MatchersTryLayouts(ms, c);
    LayoutIdsAreLong(c, Layouts(ms));
  }

  lemma ContainerdNamesSomething(c: string)
    ensures ContainerdMatcher.ContainerdId(c).Some? ==> ContainerdMatcher.ContainerdId(c).value != ""
  {
  }

  predicate IsNothing(m: Option<Matched>) {
    m.Some? && m.value.id == ""
  }

  lemma EmptyMatch(cfg: Engines, c: string)
    ensures IsNothing(FirstMatch(EngineOrder(cfg), c)) <==> NamesNothing(cfg, c)
    ensures IsNothing(FirstMatch(EngineOrder(cfg), c)) ==> FirstMatch(EngineOrder(cfg), c).value.info.Some?
  {
    OthersComeLater(cfg, c);
    RuncNamesSomething(RuncEngines(cfg), c);
    ContainerdNamesSomething(c);
    LaterEnginesInTurn(cfg, c);
    LxcNameIsEmpty(c, LXC_LAYOUTS);
    LibvirtNameIsEmpty(c);
  }

  // ---- which threads write the host's entry ----

  /** No cgroup of the thread names a container. */
  ghost predicate NoneNames(cfg: Engines, cgroups: seq<Str>) {
    forall i :: 0 <= i < |cgroups| && cgroups[i] != "" && FirstMatch(EngineOrder(cfg), cgroups[i]).Some? ==>
      NamesNothing(cfg, cgroups[i])
  }

  ghost predicate SomeNamesNothing(cfg: Engines, cgroups: seq<Str>) {
    exists i :: 0 <= i < |cgroups| && cgroups[i] != "" && NamesNothing(cfg, cgroups[i])
  }

  /** Some cgroup of the thread names nothing, and every one that resolves does. */
  ghost predicate AllNameNothing(cfg: Engines, cgroups: seq<Str>) {
    NoneNames(cfg, cgroups) && SomeNamesNothing(cfg, cgroups)
  }

  lemma NoneNamesOfCons(cfg: Engines, cgroups: seq<Str>)
    requires cgroups != []
    ensures var c := cgroups[0];
            && (NoneNames(cfg, cgroups) <==>
                  (c != "" && FirstMatch(EngineOrder(cfg), c).Some? ==> NamesNothing(cfg, c)) && NoneNames(cfg, cgroups[1..]))
            && (SomeNamesNothing(cfg, cgroups) <==>
                  (c != "" && NamesNothing(cfg, c)) || SomeNamesNothing(cfg, cgroups[1..]))
  {
    assert forall i :: 0 < i < |cgroups| ==> cgroups[i] == cgroups[1..][i - 1];
    if SomeNamesNothing(cfg, cgroups[1..]) {
      var i :| 0 <= i < |cgroups[1..]| && cgroups[1..][i] != "" && NamesNothing(cfg, cgroups[1..][i]);
      assert cgroups[i + 1] == cgroups[1..][i];
    }
    if NoneNames(cfg, cgroups) {
      forall i | 0 <= i < |cgroups[1..]| && cgroups[1..][i] != "" && FirstMatch(EngineOrder(cfg), cgroups[1..][i]).Some?
        ensures NamesNothing(cfg, cgroups[1..][i])
      {
        assert cgroups[i + 1] == cgroups[1..][i];
      }
    }
  }

  /** The loop over the cgroups ends with metadata under the empty id exactly on those threads. */
  lemma {:induction false} LoopNamesNothing(cfg: Engines, cgroups: seq<Str>, acc: Matched)
    requires acc.id == ""
    ensures var m := MatchCgroups(EngineOrder(cfg), cgroups, acc);
            m.id == "" && m.info.Some? <==> AllNameNothing(cfg, cgroups) || (acc.info.Some? && NoneNames(cfg, cgroups))
  {
    if cgroups != [] {
      var c := cgroups[0];
      EmptyMatch(cfg, c);
      var m := FirstMatch(EngineOrder(cfg), c);
      NoneNamesOfCons(cfg, cgroups);
      if c == "" || m.None? {
        LoopNamesNothing(cfg, cgroups[1..], acc);
      } else if m.value.id == "" {
        LoopNamesNothing(cfg, cgroups[1..], m.value);
      }
    }
  }

  /** Which threads are identified as the empty id with metadata under it. */
  lemma IdentifiedAsNothing(cfg: Engines, th: Thread)
    ensures var m := Identify(EngineOrder(cfg), th);
            m.id == "" && m.info.Some? <==> AllNameNothing(cfg, th.cgroups)
  {
    LoopNamesNothing(cfg, th.cgroups, Matched("", None));
  }

  /** A static engine names every thread with a cgroup, and by its own id. */
  lemma {:induction false} StaticMatch(ms: seq<Matcher>, cgroups: seq<Str>, acc: Matched)
    requires |ms| == 1 && ms[0].StaticMatcher?
    ensures MatchCgroups(ms, cgroups, acc) ==
            if HasPath(cgroups) then Matched(ms[0].info.id, Some(ms[0].info)) else acc
  {
    if cgroups != [] {
      HasPathOfCons(cgroups);
      StaticMatch(ms, cgroups[1..], acc);
      StaticMatch(ms, cgroups[1..], Matched(ms[0].info.id, Some(ms[0].info)));
    }
  }

  predicate HasPath(cgroups: seq<Str>) {
    exists i :: 0 <= i < |cgroups| && cgroups[i] != ""
  }

  lemma HasPathOfCons(cgroups: seq<Str>)
    requires cgroups != []
    ensures HasPath(cgroups) <==> cgroups[0] != "" || HasPath(cgroups[1..])
  {
    assert forall i :: 0 < i < |cgroups| ==> cgroups[i] == cgroups[1..][i - 1];
    if HasPath(cgroups[1..]) {
      var i :| 0 <= i < |cgroups[1..]| && cgroups[1..][i] != "";
      assert cgroups[i + 1] != "";
    }
  }

  /** The thread is named by the empty id: by a static engine configured so, or by paths without a name. */
  ghost predicate NamedEmpty(cfg: Engines, cgroups: seq<Str>) {
    if cfg.staticCtr.Some? then cfg.staticCtr.value.id == "" && HasPath(cgroups) else AllNameNothing(cfg, cgroups)
  }

  lemma IdentifiedEmpty(cfg: Engines, ms: seq<Matcher>, th: Thread)
    requires AreMatchersOf(cfg, ms)
    ensures Identify(ms, th).id == "" && Identify(ms, th).info.Some? <==> NamedEmpty(cfg, th.cgroups)
  {
    if cfg.staticCtr.Some? {
      StaticMatch(ms, th.cgroups, Matched("", None));
    } else {
      IdentifiedAsNothing(cfg, th);
    }
  }

  // ---- which events write it ----

  /** The event stores an entry under the empty key, or removes it. */
  ghost predicate WritesHost(cfg: Engines, t: Table, e: Event) {
    match e
    case Spawn(_, th) => NamedEmpty(cfg, th.cgroups)
    case Exec(tid, _, _, cgroups) => tid in t && NamedEmpty(cfg, cgroups)
    case AsyncContainer(_, info) => info.id == ""
    case LegacyContainer(info) => info.id == ""
    case Erase(key) => key == ""
    case _ => false
  }

  ghost predicate HasKey(ops: seq<CacheOp>, k: string) {
    exists i :: 0 <= i < |ops| && ops[i].key == k
  }

  lemma HostWritten(cfg: Engines, ms: seq<Matcher>, t: Table, e: Event)
    requires AreMatchersOf(cfg, ms)
    ensures HasKey(Writes(ms, t, e), "") <==> WritesHost(cfg, t, e)
  {
    if IsProcess(t, e) {
      IdentifiedEmpty(cfg, ms, Entry(t, e));
    }
    var ops := Writes(ms, t, e);
    assert |ops| <= 1;
    assert |ops| == 1 ==> (HasKey(ops, "") <==> ops[0].key == "");
  }

  ghost predicate OnlyAtStart(log: seq<CacheOp>, k: string) {
    forall i :: 0 < i < |log| ==> log[i].key != k
  }

  lemma LaterKeys(log: seq<CacheOp>, ops: seq<CacheOp>, k: string)
    requires |log| > 0
    ensures OnlyAtStart(log + ops, k) <==> OnlyAtStart(log, k) && !HasKey(ops, k)
  {
    var all := log + ops;
    if OnlyAtStart(all, k) {
      forall i | 0 < i < |log|
        ensures log[i].key != k
      {
        assert all[i] == log[i];
      }
      forall i | 0 <= i < |ops|
        ensures ops[i].key != k
      {
        assert all[|log| + i] == ops[i];
      }
    }
  }

  /** logs are the log as it grows by one entry of ops at a time. */
  ghost predicate Grow(logs: seq<seq<CacheOp>>, ops: seq<seq<CacheOp>>) {
    && |logs| == |ops| + 1 && |logs[0]| == 1
    && forall j :: 0 <= j < |ops| ==> logs[j + 1] == logs[j] + ops[j]
  }

  lemma {:induction false} KeyInGrownLog(logs: seq<seq<CacheOp>>, ops: seq<seq<CacheOp>>, k: string, n: nat)
    requires Grow(logs, ops) && n <= |ops|
    ensures |logs[n]| > 0
    ensures OnlyAtStart(logs[n], k) <==> forall j :: 0 <= j < n ==> !HasKey(ops[j], k)
  {
    if n > 0 {
      KeyInGrownLog(logs, ops, k, n - 1);
      LaterKeys(logs[n - 1], ops[n - 1], k);
    }
  }

  lemma LogsGrow(ms: seq<Matcher>, states: seq<State>, es: seq<Event>) returns (logs: seq<seq<CacheOp>>, ops: seq<seq<CacheOp>>)
    requires |es| <= |states|
    ensures Grow(logs, ops) && |ops| == |es|
    ensures forall n :: 0 <= n <= |es| ==> logs[n] == Log(ms, states, es, n)
    ensures forall j :: 0 <= j < |es| ==> ops[j] == Writes(ms, states[j].threads, es[j])
  {
    logs := seq(|es| + 1, n requires 0 <= n <= |es| => Log(ms, states, es, n));
    ops := seq(|es|, j requires 0 <= j < |es| => Writes(ms, states[j].threads, es[j]));
  }

  /** In a run, the host's entry is the one of the start exactly as long as no event wrote it. */
  lemma HostUntouched(cfg: Engines, ms: seq<Matcher>, states: seq<State>, es: seq<Event>, n: nat)
    requires AreMatchersOf(cfg, ms) && IsRun(ms, states, es) && n <= |es|
    ensures OnlyAtStart(Log(ms, states, es, n), "") <==>
              forall j :: 0 <= j < n ==> !WritesHost(cfg, states[j].threads, es[j])
  {
    var logs, ops := LogsGrow(ms, states, es);
    forall j | 0 <= j < n
      ensures HasKey(ops[j], "") <==> WritesHost(cfg, states[j].threads, es[j])
    {
      HostWritten(cfg, ms, states[j].threads, es[j]);
    }
    KeyInGrownLog(logs, ops, "", n);
  }
}
