/** The matchers and the manager that asks them in turn (src/matchers/matcher.cpp). */
module Matchers {
  import opened Wrappers
  import opened CppString
  import opened Runc
  import opened RuncLayouts
  import ContainerdMatcher
  import LxcMatchers
  import opened ContainerInfo
  import ImageReference
  import opened CpuSet

  datatype Matcher = PodmanMatcher | DockerMatcher | CriMatcher | ContainerdMatch
                   | LxcMatcher | LibvirtLxcMatcher | BpmMatcher | StaticMatcher(info: Info)

  /** Which engines the configuration enables. */
  datatype Engines = Engines(
    podman: bool, docker: bool, cri: bool, containerd: bool, lxc: bool, libvirtLxc: bool, bpm: bool,
    staticCtr: Option<StaticEngine>)

  datatype StaticEngine = StaticEngine(id: string, name: string, image: string)

  /** The container id a matcher resolves a cgroup path to. */
  function MatcherId(m: Matcher, c: string): Option<string> {
    match m
    case PodmanMatcher => FirstLayoutId(c, ROOT_PODMAN_CGROUP_LAYOUT, false)
    case DockerMatcher => FirstLayoutId(c, DOCKER_CGROUP_LAYOUT, false)
    case CriMatcher => FirstLayoutId(c, CRI_CGROUP_LAYOUT, false)
    case ContainerdMatch => ContainerdMatcher.ContainerdId(c)
    case LxcMatcher => LxcMatchers.LxcId(c)
    case LibvirtLxcMatcher => LxcMatchers.LibvirtId(c)
    case BpmMatcher => LxcMatchers.BpmId(c)
    case StaticMatcher(info) => Some(info.id)
  }

  /** Metadata the matcher itself can supply; engines with a listener supply none. */
  function ToContainer(m: Matcher, id: string): Option<Info> {
    match m
    case LxcMatcher => Some(BareInfo(id, Lxc))
    case LibvirtLxcMatcher => Some(BareInfo(id, LibvirtLxc))
    case BpmMatcher => Some(BareInfo(id, Bpm))
    case StaticMatcher(info) => Some(info)
    case _ => None
  }

  method Resolve(m: Matcher, c: Str, containerId: string) returns (ok: bool, id: string)
    ensures ok == MatcherId(m, c).Some?
    ensures id == if ok then MatcherId(m, c).value else containerId
  {
    match m
    case PodmanMatcher => ok, id := MatchesRuncCgroup(c, ROOT_PODMAN_CGROUP_LAYOUT, containerId, false);
    case DockerMatcher => ok, id := MatchesRuncCgroup(c, DOCKER_CGROUP_LAYOUT, containerId, false);
    case CriMatcher => ok, id := MatchesRuncCgroup(c, CRI_CGROUP_LAYOUT, containerId, false);
    case ContainerdMatch => ok, id := ContainerdMatcher.Resolve(c, containerId);
    case LxcMatcher => ok, id := LxcMatchers.ResolveLxc(c, containerId);
    case LibvirtLxcMatcher => ok, id := LxcMatchers.ResolveLibvirtLxc(c, containerId);
    case BpmMatcher => ok, id := LxcMatchers.ResolveBpm(c, containerId);
    case StaticMatcher(info) => ok, id := true, info.id;
  }

  datatype Matched = Matched(id: string, info: Option<Info>)

  /** The answer of the first matcher that resolves the path. */
  function FirstMatch(ms: seq<Matcher>, c: string): Option<Matched> {
    if ms == [] then None
    else match MatcherId(ms[0], c)
      case Some(id) => Some(Matched(id, ToContainer(ms[0], id)))
      case None => FirstMatch(ms[1..], c)
  }

  function If(enabled: bool, m: Matcher): seq<Matcher> {
    if enabled then [m] else []
  }

  /** The enabled engines in the order in which they are asked. */
  function EngineOrder(cfg: Engines): seq<Matcher> {
    RuncEngines(cfg) + If(cfg.containerd, ContainerdMatch) + LaterEngines(cfg)
  }

  function RuncEngines(cfg: Engines): seq<Matcher> {
    If(cfg.podman, PodmanMatcher) + If(cfg.docker, DockerMatcher) + If(cfg.cri, CriMatcher)
  }

  function LaterEngines(cfg: Engines): seq<Matcher> {
    If(cfg.lxc, LxcMatcher) + If(cfg.libvirtLxc, LibvirtLxcMatcher) + If(cfg.bpm, BpmMatcher)
  }

  class MatcherManager {
    var matchers: seq<Matcher>

    /** A static engine stands alone; its image is split into repository, tag and digest. */
    constructor (cfg: Engines)
      ensures AreMatchersOf(cfg, matchers)
    {
      matchers := [];
      new;
      if cfg.staticCtr.Some? {
        var engine := cfg.staticCtr.value;
        var info := StaticInfo(engine);
        matchers := matchers + [StaticMatcher(info)];
        return;
      }
      if cfg.podman {
        matchers := matchers + [PodmanMatcher];
      }
      assert matchers == If(cfg.podman, PodmanMatcher);
      if cfg.docker {
        matchers := matchers + [DockerMatcher];
      }
      if cfg.cri {
        matchers := matchers + [CriMatcher];
      }
      assert matchers == RuncEngines(cfg);
      AddLaterEngines(cfg);
    }

    /** The second half of the constructor. */
    method AddLaterEngines(cfg: Engines)
      modifies this
      ensures matchers == old(matchers) + If(cfg.containerd, ContainerdMatch) + LaterEngines(cfg)
    {
      ghost var before := matchers;
      if cfg.containerd {
        matchers := matchers + [ContainerdMatch];
      }
      ghost var middle := matchers;
      assert middle == before + If(cfg.containerd, ContainerdMatch);
      if cfg.lxc {
        matchers := matchers + [LxcMatcher];
      }
      assert matchers == middle + If(cfg.lxc, LxcMatcher);
      if cfg.libvirtLxc {
        matchers := matchers + [LibvirtLxcMatcher];
      }
      assert matchers == middle + (If(cfg.lxc, LxcMatcher) + If(cfg.libvirtLxc, LibvirtLxcMatcher));
      if cfg.bpm {
        matchers := matchers + [BpmMatcher];
      }
      assert matchers == middle + LaterEngines(cfg);
    }

    /** match_cgroup: without a match both out parameters keep what they held. */
    method MatchCgroup(c: Str, containerId: string, ctr: Option<Info>)
      returns (ok: bool, id: string, info: Option<Info>)
      ensures ok == FirstMatch(matchers, c).Some?
      ensures id == if ok then FirstMatch(matchers, c).value.id else containerId
      ensures info == if ok then FirstMatch(matchers, c).value.info else ctr
    {
      id, info := containerId, ctr;
      for i := 0 to |matchers|
        invariant id == containerId && info == ctr
        invariant FirstMatch(matchers, c) == FirstMatch(matchers[i..], c)
      {
        ok, id := Resolve(matchers[i], c, id);
        if ok {
          info := ToContainer(matchers[i], id);
          return;
        }
      }
      ok := false;
    }
  }

  /** The matchers of a configuration: the enabled engines in order, or a static engine alone. */
  ghost predicate AreMatchersOf(cfg: Engines, ms: seq<Matcher>) {
    if cfg.staticCtr.None? then ms == EngineOrder(cfg)
    else |ms| == 1 && ms[0].StaticMatcher? && IsStaticInfo(cfg.staticCtr.value, ms[0].info)
  }

  /** The configured id, name and image, and the repository, tag and digest of that image. */
  ghost predicate IsStaticInfo(engine: StaticEngine, info: Info) {
    && info.id == engine.id && info.name == engine.name && info.image == engine.image
    && info.ctype == Static && info.probes == []
    && exists hostname, port ::
         ImageReference.AreParts(engine.image,
                                 ImageReference.Parts(hostname, port, info.imageRepo, info.imageTag, info.imageDigest))
  }

  /** The metadata of a static engine. */
  method StaticInfo(engine: StaticEngine) returns (info: Info)
    ensures IsStaticInfo(engine, info)
  {
    var hostname, port, repo, tag, digest := ImageReference.SplitContainerImage(engine.image);
    info := BareInfo(engine.id, Static).(name := engine.name, image := engine.image,
                                         imageRepo := repo, imageTag := tag, imageDigest := digest);
  }

  // ---- a matcher's metadata carries the id it resolved ----

  /** The metadata of a static matcher declares no health probe, as StaticInfo ensures. */
  predicate DeclareNoProbes(ms: seq<Matcher>) {
    forall m :: m in ms && m.StaticMatcher? ==> m.info.probes == []
  }

  lemma EnginesAreNotStatic(cfg: Engines)
    ensures forall m :: m in EngineOrder(cfg) ==> !m.StaticMatcher?
  {
    assert forall m :: m in RuncEngines(cfg) ==> !m.StaticMatcher?;
    assert forall m :: m in LaterEngines(cfg) ==> !m.StaticMatcher?;
  }

  lemma ConfiguredDeclareNoProbes(cfg: Engines, ms: seq<Matcher>)
    requires AreMatchersOf(cfg, ms)
    ensures DeclareNoProbes(ms)
  {
    EnginesAreNotStatic(cfg);
  }

  /** Whatever metadata comes with a match has the matched id, and declares no health probe. */
  lemma {:induction false} MatchedInfoHasId(ms: seq<Matcher>, c: string)
    requires FirstMatch(ms, c).Some? && FirstMatch(ms, c).value.info.Some?
    ensures FirstMatch(ms, c).value.info.value.id == FirstMatch(ms, c).value.id
    ensures DeclareNoProbes(ms) ==> FirstMatch(ms, c).value.info.value.probes == []
  {
    if MatcherId(ms[0], c).None? {
      MatchedInfoHasId(ms[1..], c);
    }
  }

  // ---- the key the plugin computes is the key the worker computes ----

  lemma {:induction false} FirstMatchAppend(a: seq<Matcher>, b: seq<Matcher>, c: string)
    ensures FirstMatch(a + b, c) == if FirstMatch(a, c).Some? then FirstMatch(a, c) else FirstMatch(b, c)
  {
    if a == [] {
      assert a + b == b;
    } else {
      assert (a + b)[1..] == a[1..] + b;
      FirstMatchAppend(a[1..], b, c);
    }
  }

  predicate IsRunc(m: Matcher) {
    m == PodmanMatcher || m == DockerMatcher || m == CriMatcher
  }

  function TableOf(m: Matcher): seq<Layout>
    requires IsRunc(m)
  {
    match m
    case PodmanMatcher => ROOT_PODMAN_CGROUP_LAYOUT
    case DockerMatcher => DOCKER_CGROUP_LAYOUT
    case CriMatcher => CRI_CGROUP_LAYOUT
  }

  /** The layouts of the matchers, in the order in which they are tried. */
  function Layouts(ms: seq<Matcher>): seq<Layout>
    requires forall k :: 0 <= k < |ms| ==> IsRunc(ms[k])
  {
    if ms == [] then [] else TableOf(ms[0]) + Layouts(ms[1..])
  }

  lemma {:induction false} LayoutsInTables(ms: seq<Matcher>)
    requires forall k :: 0 <= k < |ms| ==> IsRunc(ms[k])
    ensures forall k :: 0 <= k < |Layouts(ms)| ==> InTables(Layouts(ms)[k])
    ensures forall k, l :: 0 <= k < |ms| && l in TableOf(ms[k]) ==> l in Layouts(ms)
  {
    if ms != [] {
      LayoutsInTables(ms[1..]);
    }
  }

  lemma {:induction false} FirstLayoutAppend(c: string, a: seq<Layout>, b: seq<Layout>)
    ensures FirstLayoutId(c, a + b, false) ==
            if FirstLayoutId(c, a, false).Some? then FirstLayoutId(c, a, false) else FirstLayoutId(c, b, false)
  {
    if a == [] {
      assert a + b == b;
    } else {
      assert (a + b)[1..] == a[1..] + b;
      FirstLayoutAppend(c, a[1..], b);
    }
  }

  /** Asking podman, docker and cri in turn is trying all their layouts in turn. */
  lemma {:induction false} MatchersTryLayouts(ms: seq<Matcher>, c: string)
    requires forall k :: 0 <= k < |ms| ==> IsRunc(ms[k])
    ensures FirstMatch(ms, c) == match FirstLayoutId(c, Layouts(ms), false)
                                 case None => None
                                 case Some(id) => Some(Matched(id, None))
  {
    if ms != [] {
      FirstLayoutAppend(c, TableOf(ms[0]), Layouts(ms[1..]));
      MatchersTryLayouts(ms[1..], c);
    }
  }

  /** The layouts of the enabled podman, docker and cri engines. */
  function EnabledLayouts(cfg: Engines): seq<Layout> {
    Layouts(RuncEngines(cfg))
  }

  /** The enabled layouts tried before l that look past l's path, at what stands before it. */
  function Rivals(cfg: Engines, l: Layout): seq<Layout> {
    RivalsBefore(EnabledLayouts(cfg), l)
  }

  /**
   * For every layout of an enabled podman, docker or cri engine, a path made of any head, the layout's
   * prefix, 64 hexadecimal digits and the layout's suffix, whatever else is enabled: the key is what the
   * first rival that fires on the head reads there, and otherwise the id the worker reports for the
   * digits. So the keys of plugin and worker agree exactly when no rival reads another id from the head.
   */
  lemma FullIdKeyAgrees(cfg: Engines, owner: Matcher, head: string, l: Layout, id: string)
    requires owner in RuncEngines(cfg) && IsRunc(owner) && l in TableOf(owner) && IsFullId(id)
    ensures var inHead := FirstLayoutId(head, Rivals(cfg, l), false);
            && FirstMatch(EngineOrder(cfg), LayoutPath(head, l, id))
               == Some(Matched(if inHead.Some? then inHead.value else ShortContainerID(id), None))
            && (FirstMatch(EngineOrder(cfg), LayoutPath(head, l, id)) == Some(Matched(ShortContainerID(id), None))
                <==> inHead in {None, Some(ShortContainerID(id))})
  {
    var c, layouts := LayoutPath(head, l, id), EnabledLayouts(cfg);
    LayoutsInTables(RuncEngines(cfg));
    assert l in layouts;
    forall k | 0 <= k < |layouts|
      ensures LayoutId(c, layouts[k], false) == Reading(head, l, id, layouts[k])
    {
      LayoutOnPath(head, l, id, layouts[k]);
    }
    ListOnPath(head, l, id, layouts);
    assert OnPath(l, l) && SomeOnPath(layouts, l);
    MatchersTryLayouts(RuncEngines(cfg), c);
    OthersComeLater(cfg, c);
  }

  /** For a rival to read anything, its prefix, 64 more characters and its suffix have to stand in the head. */
  lemma RivalNeedsWholeId(cfg: Engines, head: string, l: Layout, rival: Layout)
    requires rival in Rivals(cfg, l) && LayoutId(head, rival, false).Some?
    ensures !FreeOfSpecific(head) && |head| > 70
  {
    RivalInTables(cfg, l, rival);
    RivalInHead(head, rival);
  }

  lemma RivalInTables(cfg: Engines, l: Layout, rival: Layout)
    requires rival in Rivals(cfg, l)
    ensures InTables(rival) && rival.suffix != ""
  {
    LayoutsInTables(RuncEngines(cfg));
    assert rival in EnabledLayouts(cfg);
  }

  lemma RivalInHead(head: string, rival: Layout)
    requires InTables(rival) && rival.suffix != "" && LayoutId(head, rival, false).Some?
    ensures !FreeOfSpecific(head) && |head| > 70
  {
    TablesPartsOf(rival);
    var start := MatchIsPlaced(head, rival);
    var r := start - |rival.prefix|;
    assert rival.prefix in SPECIFIC_PREFIXES && Occurs(head, rival.prefix, r);
    assert Occurs(head, rival.suffix, start + 64);
    PrefixLength(rival.prefix);
  }

  lemma PrefixLength(p: string)
    requires p in SPECIFIC_PREFIXES
    ensures |p| >= 6
  {
  }

  /** So a short head, or one without any engine's own prefix, is never read. */
  lemma NothingReadFromHead(cfg: Engines, head: string, l: Layout, rivals: seq<Layout>)
    requires rivals == Rivals(cfg, l) && (FreeOfSpecific(head) || |head| <= 70)
    ensures FirstLayoutId(head, rivals, false).None?
  {
    forall k | 0 <= k < |rivals|
      ensures LayoutId(head, rivals[k], false).None?
    {
      if LayoutId(head, rivals[k], false).Some? {
        RivalNeedsWholeId(cfg, head, l, rivals[k]);
      }
    }
    NoLayout(head, rivals, false);
  }

  /** Podman is asked first and all its layouts share one prefix: its own containers have no rival. */
  lemma PodmanHasNoRival(cfg: Engines, l: Layout)
    requires cfg.podman && l in ROOT_PODMAN_CGROUP_LAYOUT
    ensures Rivals(cfg, l) == []
  {
    var all := EnabledLayouts(cfg);
    assert RuncEngines(cfg)[0] == PodmanMatcher;
    assert all[0] == ROOT_PODMAN_CGROUP_LAYOUT[0] && all[1] == ROOT_PODMAN_CGROUP_LAYOUT[1] && all[2] == ROOT_PODMAN_CGROUP_LAYOUT[2];
    if l == all[2] {
      assert RivalsBefore(all, l) == RivalsBefore(all[1..], l);
      assert RivalsBefore(all[1..], l) == RivalsBefore(all[1..][1..], l);
      assert OnPath(all[1..][1..][0], l);
    } else {
      assert OnPath(all[0], l);
    }
  }

  /** Containerd is asked after podman, docker and cri, and the engines without a listener after that. */
  lemma OthersComeLater(cfg: Engines, c: string)
    ensures FirstMatch(EngineOrder(cfg), c) ==
            if FirstMatch(RuncEngines(cfg), c).Some? then FirstMatch(RuncEngines(cfg), c)
            else if cfg.containerd && ContainerdMatcher.ContainerdId(c).Some? then
              Some(Matched(ContainerdMatcher.ContainerdId(c).value, None))
            else FirstMatch(LaterEngines(cfg), c)
  {
    var ctr := If(cfg.containerd, ContainerdMatch);
    FirstMatchAppend(RuncEngines(cfg), ctr, c);
    FirstMatchAppend(RuncEngines(cfg) + ctr, LaterEngines(cfg), c);
    FirstMatchOfOne(cfg.containerd, ContainerdMatch, c);
  }

  lemma FirstMatchOfOne(enabled: bool, m: Matcher, c: string)
    ensures FirstMatch(If(enabled, m), c) ==
            if enabled && MatcherId(m, c).Some?
            then Some(Matched(MatcherId(m, c).value, ToContainer(m, MatcherId(m, c).value))) else None
  {
    if enabled {
      assert If(enabled, m)[1..] == [];
    }
  }

  lemma LaterEnginesInTurn(cfg: Engines, c: string)
    ensures FirstMatch(LaterEngines(cfg), c) ==
            if cfg.lxc && LxcMatchers.LxcId(c).Some? then Some(Matched(LxcMatchers.LxcId(c).value, Some(BareInfo(LxcMatchers.LxcId(c).value, Lxc))))
            else if cfg.libvirtLxc && LxcMatchers.LibvirtId(c).Some? then
              Some(Matched(LxcMatchers.LibvirtId(c).value, Some(BareInfo(LxcMatchers.LibvirtId(c).value, LibvirtLxc))))
            else if cfg.bpm && LxcMatchers.BpmId(c).Some? then Some(Matched(LxcMatchers.BpmId(c).value, Some(BareInfo(LxcMatchers.BpmId(c).value, Bpm))))
            else None
  {
    ThreeInTurn(If(cfg.lxc, LxcMatcher), If(cfg.libvirtLxc, LibvirtLxcMatcher), If(cfg.bpm, BpmMatcher), c);
    FirstMatchOfOne(cfg.lxc, LxcMatcher, c);
    FirstMatchOfOne(cfg.libvirtLxc, LibvirtLxcMatcher, c);
    FirstMatchOfOne(cfg.bpm, BpmMatcher, c);
  }

  lemma ThreeInTurn(a: seq<Matcher>, b: seq<Matcher>, d: seq<Matcher>, c: string)
    ensures FirstMatch(a + b + d, c) ==
            if FirstMatch(a, c).Some? then FirstMatch(a, c)
            else if FirstMatch(b, c).Some? then FirstMatch(b, c) else FirstMatch(d, c)
  {
    FirstMatchAppend(a, b, c);
    FirstMatchAppend(a + b, d, c);
  }

  lemma RuncSuppliesNothing(ms: seq<Matcher>, c: string)
    requires forall k :: 0 <= k < |ms| ==> IsRunc(ms[k])
    ensures FirstMatch(ms, c).Some? ==> FirstMatch(ms, c).value.info.None?
  {
    MatchersTryLayouts(ms, c);
  }

  /** No engine with a listener takes the path. */
  predicate NotListened(cfg: Engines, c: string) {
    FirstMatch(RuncEngines(cfg), c).None? && !(cfg.containerd && ContainerdMatcher.ContainerdId(c).Some?)
  }

  /** A path with an lxc name is answered by lxc exactly if no engine with a listener takes it. */
  lemma LxcPathAnswered(cfg: Engines, c: string, name: string)
    requires cfg.lxc && LxcMatchers.LxcId(c) == Some(name)
    ensures FirstMatch(EngineOrder(cfg), c) == Some(Matched(name, Some(BareInfo(name, Lxc)))) <==> NotListened(cfg, c)
  {
    OthersComeLater(cfg, c);
    LaterEnginesInTurn(cfg, c);
    RuncSuppliesNothing(RuncEngines(cfg), c);
  }

  /** A path with a libvirt id is answered by libvirt exactly if lxc does not take it either. */
  lemma LibvirtPathAnswered(cfg: Engines, c: string, id: string)
    requires cfg.libvirtLxc && LxcMatchers.LibvirtId(c) == Some(id)
    ensures FirstMatch(EngineOrder(cfg), c) == Some(Matched(id, Some(BareInfo(id, LibvirtLxc)))) <==>
              NotListened(cfg, c) && !(cfg.lxc && LxcMatchers.LxcId(c).Some?)
  {
    OthersComeLater(cfg, c);
    LaterEnginesInTurn(cfg, c);
    RuncSuppliesNothing(RuncEngines(cfg), c);
  }

  /** A path with a bpm job id is answered by bpm exactly if no other engine takes it. */
  lemma BpmPathAnswered(cfg: Engines, c: string, id: string)
    requires cfg.bpm && LxcMatchers.BpmId(c) == Some(id)
    ensures FirstMatch(EngineOrder(cfg), c) == Some(Matched(id, Some(BareInfo(id, Bpm)))) <==>
              && NotListened(cfg, c) && !(cfg.lxc && LxcMatchers.LxcId(c).Some?)
              && !(cfg.libvirtLxc && LxcMatchers.LibvirtId(c).Some?)
  {
    OthersComeLater(cfg, c);
    LaterEnginesInTurn(cfg, c);
    RuncSuppliesNothing(RuncEngines(cfg), c);
  }

  /** A path too short for 64 digits is none of podman, docker or cri. */
  lemma ShortPathIsNotRunc(ms: seq<Matcher>, c: string)
    requires |c| < 64 && forall k :: 0 <= k < |ms| ==> IsRunc(ms[k])
    ensures FirstMatch(ms, c).None?
  {
    ShortPathHasNoId(c, Layouts(ms));
    MatchersTryLayouts(ms, c);
  }

  lemma ShortPathHasNoId(c: string, layouts: seq<Layout>)
    requires |c| < 64
    ensures FirstLayoutId(c, layouts, false).None?
  {
    forall k | 0 <= k < |layouts|
      ensures LayoutId(c, layouts[k], false).None?
    {
      if LayoutId(c, layouts[k], false).Some? {
        var start := MatchIsPlaced(c, layouts[k]);
      }
    }
    NoLayout(c, layouts, false);
  }

  /**
   * The head matters: below a podman cgroup, the path of a nested docker container is resolved to the
   * podman id. Both ids are 64 hexadecimal digits.
   */
  lemma NestedPathKeepsOuterId(cfg: Engines, outer: string, inner: string)
    requires cfg.podman && IsFullId(outer) && IsFullId(inner)
    ensures FirstMatch(EngineOrder(cfg), "/libpod-" + outer + ".scope/" + inner)
            == Some(Matched(ShortContainerID(outer), None))
  {
    var c := "/libpod-" + outer + ".scope/" + inner;
    var l := Layout("/libpod-", ".scope");
    NestedPathPositions(outer, inner);
    assert forall i :: 8 <= i < 72 ==> c[i] == outer[i - 8];
    assert c[8..20] == outer[..12];
    assert LayoutId(c, l, false) == Some(outer[..12]);
    assert ROOT_PODMAN_CGROUP_LAYOUT[0] == l;
    assert RuncEngines(cfg)[0] == PodmanMatcher;
    OthersComeLater(cfg, c);
  }

  lemma NestedPathPositions(outer: string, inner: string)
    requires IsFullId(outer) && IsFullId(inner)
    ensures LastIndexOf("/libpod-" + outer + ".scope/" + inner, "/libpod-") == Some(0)
    ensures LastIndexOf("/libpod-" + outer + ".scope/" + inner, ".scope") == Some(72)
  {
    var c := "/libpod-" + outer + ".scope/" + inner;
    assert c[0..8] == "/libpod-" && c[72..78] == ".scope";
    forall r | 0 <= r && Occurs(c, "/libpod-", r)
      ensures c[r + 7] == '-'
    {
      CharOfOccurrence(c, "/libpod-", r, 7);
    }
    LastIs(c, "/libpod-", 0);
    forall r | 0 <= r && Occurs(c, ".scope", r)
      ensures c[r] == '.'
    {
      CharOfOccurrence(c, ".scope", r, 0);
    }
    LastIs(c, ".scope", 72);
  }

  // ---- ctr paths, whatever the other engines ----

  /** The layout "/" reads a ctr path whose name is a full id, and no other. */
  lemma RootLayoutOnCtrPath(ns: string, name: string)
    requires ContainerdMatcher.IsNamespace(ns) && ContainerdMatcher.IsCtrName(name)
    ensures LayoutId(ContainerdMatcher.CtrPath(ns, name), Layout("/", ""), false) ==
            if FullName(ns, name) then Some(ShortContainerID(name)) else None
  {
    var c := ContainerdMatcher.CtrPath(ns, name);
    EmptyIsLast(c);
    LastSlashOfCtrPath(ns, name);
    assert |name| == 64 ==> c[|ns| + 2..|ns| + 14] == name[..12];
  }

  /** The name of the ctr path passes for an id of 64 hexadecimal digits. */
  predicate FullName(ns: string, name: string) {
    |name| == 64 && HexGuard(ContainerdMatcher.CtrPath(ns, name), |ns| + 2)
  }

  /** A longer prefix that ends no later than the name begins is the start of the path. */
  lemma PrefixOnCtrPath(ns: string, name: string, p: string, r: int)
    requires ContainerdMatcher.IsNamespace(ns) && ContainerdMatcher.IsCtrName(name)
    requires WellPrefixed(p) && |p| >= 3
    requires Occurs(ContainerdMatcher.CtrPath(ns, name), p, r) && r + |p| <= |ns| + 2
    ensures r == 0 && p <= ContainerdMatcher.CtrPath(ns, name) && p[|p| - 1] != ':'
  {
    var c := ContainerdMatcher.CtrPath(ns, name);
    CharOfOccurrence(c, p, r, 0);
    CharOfOccurrence(c, p, r, |p| - 1);
    NoColonBeforeName(ns, name);
    ContainerdMatcher.SlashesOfCtrPath(ns, name, r);
  }

  lemma LongPrefixes(p: string)
    requires p in PREFIXES
    ensures p == "/" || p in SPECIFIC_PREFIXES || (|p| >= 3 && p[|p| - 1] == ':')
    ensures p in SPECIFIC_PREFIXES ==> |p| >= 3
  {
  }

  /** Any other layout fires only if the namespace begins with an engine's own prefix, and reads the namespace. */
  lemma OtherLayoutOnCtrPath(ns: string, name: string, l: Layout)
    requires ContainerdMatcher.IsNamespace(ns) && ContainerdMatcher.IsCtrName(name)
    requires InTables(l) && l != Layout("/", "")
    ensures var c := ContainerdMatcher.CtrPath(ns, name);
            LayoutId(c, l, false).Some? ==> l.prefix in SPECIFIC_PREFIXES && l.prefix <= c
  {
    var c := ContainerdMatcher.CtrPath(ns, name);
    if LayoutId(c, l, false).Some? {
      TablesPartsOf(l);
      PrefixesWellShaped(l.prefix);
      LongPrefixes(l.prefix);
      if l.prefix == "/" {
        RootHasNoSuffix(l);
      }
      var start := MatchIsPlaced(c, l);
      PrefixOnCtrPath(ns, name, l.prefix, start - |l.prefix|);
    }
  }

  lemma RootHasNoSuffix(l: Layout)
    requires InTables(l) && l.prefix == "/"
    ensures l == Layout("/", "")
  {
    TablesPartsOf(l);
    assert "/" !in SPECIFIC_PREFIXES;
  }

  lemma LastSlashOfCtrPath(ns: string, name: string)
    requires ContainerdMatcher.IsNamespace(ns) && ContainerdMatcher.IsCtrName(name)
    ensures LastIndexOf(ContainerdMatcher.CtrPath(ns, name), "/") == Some(|ns| + 1)
  {
    var c := ContainerdMatcher.CtrPath(ns, name);
    assert c[|ns| + 1..|ns| + 2] == "/";
    forall r | |ns| + 1 < r < |c|
      ensures !Occurs(c, "/", r)
    {
      ContainerdMatcher.SlashesOfCtrPath(ns, name, r);
      assert c[r..r + 1] == [c[r]];
    }
    LastIs(c, "/", |ns| + 1);
  }

  lemma NoColonBeforeName(ns: string, name: string)
    requires ContainerdMatcher.IsNamespace(ns)
    ensures forall i :: 0 <= i < |ns| + 2 ==> ContainerdMatcher.CtrPath(ns, name)[i] != ':'
  {
    var c := ContainerdMatcher.CtrPath(ns, name);
    assert forall i :: 0 < i <= |ns| ==> c[i] == ns[i - 1];
  }

  /** The layouts that can read another id from a ctr path before its name is read. */
  function CtrRivals(layouts: seq<Layout>, ns: string, name: string): (r: seq<Layout>)
    ensures forall k :: 0 <= k < |r| ==> r[k].prefix in SPECIFIC_PREFIXES && r[k].prefix <= ContainerdMatcher.CtrPath(ns, name)
  {
    if layouts == [] || (layouts[0] == Layout("/", "") && FullName(ns, name)) then []
    else if layouts[0].prefix in SPECIFIC_PREFIXES && layouts[0].prefix <= ContainerdMatcher.CtrPath(ns, name) then
      [layouts[0]] + CtrRivals(layouts[1..], ns, name)
    else CtrRivals(layouts[1..], ns, name)
  }

  lemma {:induction false} LayoutsOnCtrPath(ns: string, name: string, layouts: seq<Layout>)
    requires ContainerdMatcher.IsNamespace(ns) && ContainerdMatcher.IsCtrName(name)
    requires forall k :: 0 <= k < |layouts| ==> InTables(layouts[k])
    ensures var c := ContainerdMatcher.CtrPath(ns, name);
            var before := FirstLayoutId(c, CtrRivals(layouts, ns, name), false);
            FirstLayoutId(c, layouts, false) ==
            if before.Some? then before
            else if FullName(ns, name) && Layout("/", "") in layouts then Some(ShortContainerID(name))
            else None
  {
    if layouts != [] {
      var first, rest := layouts[0], layouts[1..];
      assert layouts == [first] + rest;
      LayoutsOnCtrPath(ns, name, rest);
      if first == Layout("/", "") {
        RootLayoutOnCtrPath(ns, name);
      } else {
        OtherLayoutOnCtrPath(ns, name, first);
      }
      FirstLayoutOfCons(ContainerdMatcher.CtrPath(ns, name), first, CtrRivals(rest, ns, name));
    }
  }

  /**
   * The containerd matcher is asked after podman, docker and cri. Of a ctr path that it resolves, the key
   * is what the first enabled layout reads whose own prefix the namespace begins with, and otherwise the
   * worker's short id of the name; so that the keys agree exactly when no such layout reads another id.
   * In particular the lxc matcher, asked later, never sees a path of the form /lxc/name that passes.
   */
  lemma CtrKeyAgrees(cfg: Engines, ns: string, name: string)
    requires cfg.containerd && ContainerdMatcher.IsNamespace(ns) && ContainerdMatcher.IsCtrName(name)
    requires ContainerdMatcher.ContainerdId(ContainerdMatcher.CtrPath(ns, name)).Some?
    ensures var c := ContainerdMatcher.CtrPath(ns, name);
            var before := FirstLayoutId(c, CtrRivals(EnabledLayouts(cfg), ns, name), false);
            && FirstMatch(EngineOrder(cfg), c)
               == Some(Matched(if before.Some? then before.value else ShortContainerID(name), None))
            && (FirstMatch(EngineOrder(cfg), c) == Some(Matched(ShortContainerID(name), None))
                <==> before in {None, Some(ShortContainerID(name))})
  {
    var c := ContainerdMatcher.CtrPath(ns, name);
    LayoutsInTables(RuncEngines(cfg));
    LayoutsOnCtrPath(ns, name, EnabledLayouts(cfg));
    MatchersTryLayouts(RuncEngines(cfg), c);
    ContainerdMatcher.CtrPathResolved(ns, name);
    assert name[..Min(|name|, 12)] == ShortContainerID(name);
    OthersComeLater(cfg, c);
  }

  // ---- which /lxc/name still reaches lxc ----

  lemma NoPrefixBeginsLxc(p: string, name: string)
    requires p in SPECIFIC_PREFIXES
    ensures !(p <= ContainerdMatcher.CtrPath("lxc", name))
  {
    var c := ContainerdMatcher.CtrPath("lxc", name);
    assert c[1] == 'l' && c[2] == 'x';
    assert p[1] != 'l' || p[2] != 'x';
  }

  lemma {:induction false} NoLxcRivals(layouts: seq<Layout>, name: string)
    ensures CtrRivals(layouts, "lxc", name) == []
  {
    if layouts != [] {
      NoLxcRivals(layouts[1..], name);
      if layouts[0].prefix in SPECIFIC_PREFIXES {
        NoPrefixBeginsLxc(layouts[0].prefix, name);
      }
    }
  }

  lemma RootLayoutEnabled(cfg: Engines)
    ensures Layout("/", "") in EnabledLayouts(cfg) <==> cfg.docker || cfg.cri
  {
    RootLayoutIn(RuncEngines(cfg));
    assert DockerMatcher in RuncEngines(cfg) <==> cfg.docker;
    assert CriMatcher in RuncEngines(cfg) <==> cfg.cri;
  }

  lemma {:induction false} RootLayoutIn(ms: seq<Matcher>)
    requires forall k :: 0 <= k < |ms| ==> IsRunc(ms[k])
    ensures Layout("/", "") in Layouts(ms) <==> DockerMatcher in ms || CriMatcher in ms
  {
    if ms != [] {
      RootLayoutIn(ms[1..]);
      assert ms == [ms[0]] + ms[1..];
      assert DOCKER_CGROUP_LAYOUT[0] == CRI_CGROUP_LAYOUT[0] == Layout("/", "");
    }
  }

  lemma RuncOnLxcName(cfg: Engines, name: string)
    requires ContainerdMatcher.IsCtrName(name)
    ensures FirstMatch(RuncEngines(cfg), ContainerdMatcher.CtrPath("lxc", name)).Some? <==>
              (cfg.docker || cfg.cri) && FullName("lxc", name)
  {
    var c := ContainerdMatcher.CtrPath("lxc", name);
    LayoutsInTables(RuncEngines(cfg));
    LayoutsOnCtrPath("lxc", name, EnabledLayouts(cfg));
    NoLxcRivals(EnabledLayouts(cfg), name);
    RootLayoutEnabled(cfg);
    MatchersTryLayouts(RuncEngines(cfg), c);
  }

  lemma LxcNameIsRead(name: string)
    requires '/' !in name
    ensures LxcMatchers.LxcId(ContainerdMatcher.CtrPath("lxc", name)) == Some(name)
  {
    var c := ContainerdMatcher.CtrPath("lxc", name);
    assert LxcMatchers.LXC_LAYOUTS[0] == "/lxc/" && c == "" + "/lxc/" + name + "";
    assert c[0..5] == "/lxc/";
    FirstIs(c, "/lxc/", 0, 0);
    LxcMatchers.LxcPathResolved(0, "", name, "");
  }

  /**
   * A path /lxc/name, with a name of at most 64 characters, reaches lxc exactly if the name does not pass
   * for 64 digits while docker, cri or containerd is enabled, and, with containerd enabled, has two
   * characters or the look of a systemd unit.
   */
  lemma LxcNameReachesLxc(cfg: Engines, name: string)
    requires cfg.lxc && ContainerdMatcher.IsCtrName(name)
    ensures var unit := HasSuffix(name, ".service") || HasSuffix(name, ".slice") || HasSuffix(name, ".scope");
            FirstMatch(EngineOrder(cfg), ContainerdMatcher.CtrPath("lxc", name))
            == Some(Matched(name, Some(BareInfo(name, Lxc)))) <==>
              && (cfg.docker || cfg.cri || cfg.containerd ==> !FullName("lxc", name))
              && (cfg.containerd ==> unit || |name| == 2)
  {
    LxcNameIsRead(name);
    LxcPathAnswered(cfg, ContainerdMatcher.CtrPath("lxc", name), name);
    RuncOnLxcName(cfg, name);
    ContainerdMatcher.CtrPathResolved("lxc", name);
    assert |ContainerdMatcher.CtrPath("lxc", name)| == |name| + 5;
  }
}
