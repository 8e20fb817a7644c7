/** Which cgroup paths podman, docker and cri take, path by path. */
module EnginePaths {
  import opened Wrappers
  import opened CppString
  import opened Runc
  import opened RuncLayouts
  import opened ContainerInfo
  import opened Matchers

  /** No engine's own prefix stands in the head. */
  predicate NoEnginePrefix(head: string) {
    forall i :: 0 <= i <= |head| ==>
      && !Occurs(head, "/libpod-", i) && !Occurs(head, "/docker-", i)
      && !Occurs(head, "/crio-", i) && !Occurs(head, "/cri-containerd-", i)
  }

  /** 64 hexadecimal digits. */
  predicate Is64Digits(id: string) {
    |id| == 64 && forall i :: 0 <= i < 64 ==>
      '0' <= id[i] <= '9' || 'a' <= id[i] <= 'f' || 'A' <= id[i] <= 'F'
  }

  lemma NoEnginePrefixIsFree(head: string)
    requires NoEnginePrefix(head)
    ensures FreeOfSpecific(head)
  {
  }

  // ---- a table on the path of one of its layouts, or of another's ----

  lemma TableOnPath(head: string, l: Layout, id: string, layouts: seq<Layout>)
    requires InTables(l) && IsFullId(id) && FreeOfSpecific(head)
    requires forall k :: 0 <= k < |layouts| ==> InTables(layouts[k])
    ensures FirstLayoutId(LayoutPath(head, l, id), layouts, false) ==
            if SomeOnPath(layouts, l) then Some(id[..12]) else None
  {
    forall k | 0 <= k < |layouts|
      ensures LayoutId(LayoutPath(head, l, id), layouts[k], false) == Reading(head, l, id, layouts[k])
    {
      LayoutOnPath(head, l, id, layouts[k]);
    }
    ListOnPath(head, l, id, layouts);
    NoRivalReads(head, RivalsBefore(layouts, l), layouts, l);
  }

  lemma NoRivalReads(head: string, rivals: seq<Layout>, layouts: seq<Layout>, l: Layout)
    requires FreeOfSpecific(head) && rivals == RivalsBefore(layouts, l)
    requires forall k :: 0 <= k < |layouts| ==> InTables(layouts[k])
    ensures FirstLayoutId(head, rivals, false).None?
  {
    forall k | 0 <= k < |rivals|
      ensures LayoutId(head, rivals[k], false).None?
    {
      if LayoutId(head, rivals[k], false).Some? {
        RivalInHead(head, rivals[k]);
      }
    }
    NoLayout(head, rivals, false);
  }

  lemma PrefixesDiffer()
    ensures "/libpod-" != "/docker-" && "/libpod-" != "/crio-" && "/libpod-" != "/cri-containerd-" && "/libpod-" != "/"
    ensures "/libpod-" != ":cri-containerd:" && "/docker-" != "/" && "/docker-" != "/crio-"
    ensures "/docker-" != "/cri-containerd-" && "/docker-" != ":cri-containerd:" && "/cri-containerd-" != ":cri-containerd:"
  {
    assert "/libpod-"[1] == 'l' && "/docker-"[1] == 'd';
    assert "/cri-containerd-"[0] == '/' && ":cri-containerd:"[0] == ':';
  }

  lemma NineLayouts(l: Layout)
    requires l in {Layout("/libpod-", ".scope"), Layout("/libpod-", ".scope/container"), Layout("/libpod-", ""),
                   Layout("/", ""), Layout("/docker-", ".scope"), Layout("/crio-", ""),
                   Layout("/cri-containerd-", ".scope"), Layout("/crio-", ".scope"), Layout(":cri-containerd:", "")}
    ensures InTables(l)
  {
    var podman, docker, cri := ROOT_PODMAN_CGROUP_LAYOUT, DOCKER_CGROUP_LAYOUT, CRI_CGROUP_LAYOUT;
    assert podman[0] in podman && podman[1] in podman && podman[2] in podman;
    assert docker[0] in docker && docker[1] in docker;
    assert cri[1] in cri && cri[2] in cri && cri[3] in cri && cri[4] in cri;
  }

  lemma PodmanTable(l: Layout)
    requires InTables(l)
    ensures SomeOnPath(ROOT_PODMAN_CGROUP_LAYOUT, l) <==> l.prefix == "/libpod-"
  {
    var podman := ROOT_PODMAN_CGROUP_LAYOUT;
    PrefixesDiffer();
    if l.prefix == "/libpod-" {
      assert l in podman;
      var k :| 0 <= k < |podman| && podman[k] == l;
      assert OnPath(podman[k], l);
    }
  }

  lemma DockerTable(l: Layout)
    requires InTables(l)
    ensures SomeOnPath(DOCKER_CGROUP_LAYOUT, l) <==> l.prefix == "/" || l.prefix == "/docker-"
  {
    var docker := DOCKER_CGROUP_LAYOUT;
    PrefixesDiffer();
    if l.prefix == "/" || l.prefix == "/docker-" {
      assert l in docker;
      var k :| 0 <= k < |docker| && docker[k] == l;
      assert OnPath(docker[k], l);
    }
  }

  lemma CriTable(l: Layout)
    requires InTables(l)
    ensures SomeOnPath(CRI_CGROUP_LAYOUT, l) <==> l.prefix != "/libpod-"
  {
    var cri := CRI_CGROUP_LAYOUT;
    PrefixesDiffer();
    if l.prefix != "/libpod-" {
      assert l in cri;
      var k :| 0 <= k < |cri| && cri[k] == l;
      assert OnPath(cri[k], l);
    }
  }

  lemma TablesInTables(layouts: seq<Layout>)
    requires layouts == ROOT_PODMAN_CGROUP_LAYOUT || layouts == DOCKER_CGROUP_LAYOUT || layouts == CRI_CGROUP_LAYOUT
    ensures forall k :: 0 <= k < |layouts| ==> InTables(layouts[k])
  {
  }

  lemma PodmanOn(head: string, l: Layout, id: string, c: string)
    requires InTables(l) && IsFullId(id) && FreeOfSpecific(head) && c == LayoutPath(head, l, id)
    ensures MatcherId(PodmanMatcher, c) == if l.prefix == "/libpod-" then Some(id[..12]) else None
  {
    TablesInTables(ROOT_PODMAN_CGROUP_LAYOUT);
    TableOnPath(head, l, id, ROOT_PODMAN_CGROUP_LAYOUT);
    PodmanTable(l);
  }

  lemma DockerOn(head: string, l: Layout, id: string, c: string)
    requires InTables(l) && IsFullId(id) && FreeOfSpecific(head) && c == LayoutPath(head, l, id)
    ensures MatcherId(DockerMatcher, c) == if l.prefix == "/" || l.prefix == "/docker-" then Some(id[..12]) else None
  {
    TablesInTables(DOCKER_CGROUP_LAYOUT);
    TableOnPath(head, l, id, DOCKER_CGROUP_LAYOUT);
    DockerTable(l);
  }

  lemma CriOn(head: string, l: Layout, id: string, c: string)
    requires InTables(l) && IsFullId(id) && FreeOfSpecific(head) && c == LayoutPath(head, l, id)
    ensures MatcherId(CriMatcher, c) == if l.prefix == "/libpod-" then None else Some(id[..12])
  {
    TablesInTables(CRI_CGROUP_LAYOUT);
    TableOnPath(head, l, id, CRI_CGROUP_LAYOUT);
    CriTable(l);
  }

  // ---- the nine paths, written out ----

  /** What one engine makes of the path of l. */
  lemma EngineOn(head: string, l: Layout, id: string, c: string)
    requires l in {Layout("/libpod-", ".scope"), Layout("/libpod-", ".scope/container"), Layout("/libpod-", ""),
                   Layout("/", ""), Layout("/docker-", ".scope"), Layout("/crio-", ""),
                   Layout("/cri-containerd-", ".scope"), Layout("/crio-", ".scope"), Layout(":cri-containerd:", "")}
    requires Is64Digits(id) && NoEnginePrefix(head) && c == head + l.prefix + id + l.suffix
    ensures MatcherId(PodmanMatcher, c) == if l.prefix == "/libpod-" then Some(id[..12]) else None
    ensures MatcherId(DockerMatcher, c) == if l.prefix == "/" || l.prefix == "/docker-" then Some(id[..12]) else None
    ensures MatcherId(CriMatcher, c) == if l.prefix == "/libpod-" then None else Some(id[..12])
  {
    NineLayouts(l);
    NoEnginePrefixIsFree(head);
    PodmanOn(head, l, id, c);
    DockerOn(head, l, id, c);
    CriOn(head, l, id, c);
  }

  /** Podman takes its three paths, and leaves those of docker and cri. */
  lemma PodmanPaths(head: string, id: string)
    requires Is64Digits(id) && NoEnginePrefix(head)
    ensures MatcherId(PodmanMatcher, head + "/libpod-" + id + ".scope") == Some(id[..12])
    ensures MatcherId(PodmanMatcher, head + "/libpod-" + id + ".scope/container") == Some(id[..12])
    ensures MatcherId(PodmanMatcher, head + "/libpod-" + id) == Some(id[..12])
    ensures MatcherId(PodmanMatcher, head + "/" + id).None?
    ensures MatcherId(PodmanMatcher, head + "/docker-" + id + ".scope").None?
    ensures MatcherId(PodmanMatcher, head + "/crio-" + id).None?
    ensures MatcherId(PodmanMatcher, head + "/cri-containerd-" + id + ".scope").None?
    ensures MatcherId(PodmanMatcher, head + "/crio-" + id + ".scope").None?
    ensures MatcherId(PodmanMatcher, head + ":cri-containerd:" + id).None?
  {
    PrefixesDiffer();
    EngineOn(head, Layout("/libpod-", ".scope"), id, head + "/libpod-" + id + ".scope");
    EngineOn(head, Layout("/libpod-", ".scope/container"), id, head + "/libpod-" + id + ".scope/container");
    EngineOn(head, Layout("/libpod-", ""), id, head + "/libpod-" + id);
    EngineOn(head, Layout("/", ""), id, head + "/" + id);
    EngineOn(head, Layout("/docker-", ".scope"), id, head + "/docker-" + id + ".scope");
    EngineOn(head, Layout("/crio-", ""), id, head + "/crio-" + id);
    EngineOn(head, Layout("/cri-containerd-", ".scope"), id, head + "/cri-containerd-" + id + ".scope");
    EngineOn(head, Layout("/crio-", ".scope"), id, head + "/crio-" + id + ".scope");
    EngineOn(head, Layout(":cri-containerd:", ""), id, head + ":cri-containerd:" + id);
  }

  /** Docker takes its two paths, and leaves podman's and those that only cri has. */
  lemma DockerPaths(head: string, id: string)
    requires Is64Digits(id) && NoEnginePrefix(head)
    ensures MatcherId(DockerMatcher, head + "/" + id) == Some(id[..12])
    ensures MatcherId(DockerMatcher, head + "/docker-" + id + ".scope") == Some(id[..12])
    ensures MatcherId(DockerMatcher, head + "/libpod-" + id + ".scope").None?
    ensures MatcherId(DockerMatcher, head + "/libpod-" + id + ".scope/container").None?
    ensures MatcherId(DockerMatcher, head + "/libpod-" + id).None?
    ensures MatcherId(DockerMatcher, head + "/crio-" + id).None?
    ensures MatcherId(DockerMatcher, head + "/cri-containerd-" + id + ".scope").None?
    ensures MatcherId(DockerMatcher, head + "/crio-" + id + ".scope").None?
    ensures MatcherId(DockerMatcher, head + ":cri-containerd:" + id).None?
  {
    PrefixesDiffer();
    EngineOn(head, Layout("/", ""), id, head + "/" + id);
    EngineOn(head, Layout("/docker-", ".scope"), id, head + "/docker-" + id + ".scope");
    EngineOn(head, Layout("/libpod-", ".scope"), id, head + "/libpod-" + id + ".scope");
    EngineOn(head, Layout("/libpod-", ".scope/container"), id, head + "/libpod-" + id + ".scope/container");
    EngineOn(head, Layout("/libpod-", ""), id, head + "/libpod-" + id);
    EngineOn(head, Layout("/crio-", ""), id, head + "/crio-" + id);
    EngineOn(head, Layout("/cri-containerd-", ".scope"), id, head + "/cri-containerd-" + id + ".scope");
    EngineOn(head, Layout("/crio-", ".scope"), id, head + "/crio-" + id + ".scope");
    EngineOn(head, Layout(":cri-containerd:", ""), id, head + ":cri-containerd:" + id);
  }

  /** Cri takes its six paths, docker's two among them, and leaves podman's. */
  lemma CriPaths(head: string, id: string)
    requires Is64Digits(id) && NoEnginePrefix(head)
    ensures MatcherId(CriMatcher, head + "/" + id) == Some(id[..12])
    ensures MatcherId(CriMatcher, head + "/crio-" + id) == Some(id[..12])
    ensures MatcherId(CriMatcher, head + "/cri-containerd-" + id + ".scope") == Some(id[..12])
    ensures MatcherId(CriMatcher, head + "/crio-" + id + ".scope") == Some(id[..12])
    ensures MatcherId(CriMatcher, head + ":cri-containerd:" + id) == Some(id[..12])
    ensures MatcherId(CriMatcher, head + "/docker-" + id + ".scope") == Some(id[..12])
    ensures MatcherId(CriMatcher, head + "/libpod-" + id + ".scope").None?
    ensures MatcherId(CriMatcher, head + "/libpod-" + id + ".scope/container").None?
    ensures MatcherId(CriMatcher, head + "/libpod-" + id).None?
  {
    PrefixesDiffer();
    EngineOn(head, Layout("/", ""), id, head + "/" + id);
    EngineOn(head, Layout("/crio-", ""), id, head + "/crio-" + id);
    EngineOn(head, Layout("/cri-containerd-", ".scope"), id, head + "/cri-containerd-" + id + ".scope");
    EngineOn(head, Layout("/crio-", ".scope"), id, head + "/crio-" + id + ".scope");
    EngineOn(head, Layout(":cri-containerd:", ""), id, head + ":cri-containerd:" + id);
    EngineOn(head, Layout("/docker-", ".scope"), id, head + "/docker-" + id + ".scope");
    EngineOn(head, Layout("/libpod-", ".scope"), id, head + "/libpod-" + id + ".scope");
    EngineOn(head, Layout("/libpod-", ".scope/container"), id, head + "/libpod-" + id + ".scope/container");
    EngineOn(head, Layout("/libpod-", ""), id, head + "/libpod-" + id);
  }

  // ---- whatever else is enabled ----

  /** In any configuration, an engine that takes the path and is enabled gets it its short id. */
  lemma EnabledOn(cfg: Engines, head: string, l: Layout, id: string, c: string)
    requires l in {Layout("/libpod-", ".scope"), Layout("/libpod-", ".scope/container"), Layout("/libpod-", ""),
                   Layout("/", ""), Layout("/docker-", ".scope"), Layout("/crio-", ""),
                   Layout("/cri-containerd-", ".scope"), Layout("/crio-", ".scope"), Layout(":cri-containerd:", "")}
    requires Is64Digits(id) && NoEnginePrefix(head) && c == head + l.prefix + id + l.suffix
    requires exists m :: m in RuncEngines(cfg) && IsRunc(m) && MatcherId(m, c).Some?
    ensures FirstMatch(EngineOrder(cfg), c) == Some(Matched(id[..12], None))
  {
    EngineOn(head, l, id, c);
    OneAnswer(RuncEngines(cfg), c, id[..12]);
    OthersComeLater(cfg, c);
  }

  /** Engines that answer alike, and supply nothing, answer so in any order. */
  lemma {:induction false} OneAnswer(ms: seq<Matcher>, c: string, id: string)
    requires forall k :: 0 <= k < |ms| ==> IsRunc(ms[k])
    requires forall m :: IsRunc(m) ==> MatcherId(m, c) == None || MatcherId(m, c) == Some(id)
    ensures (exists m :: m in ms && MatcherId(m, c).Some?) ==> FirstMatch(ms, c) == Some(Matched(id, None))
  {
    if ms != [] {
      OneAnswer(ms[1..], c, id);
      assert ms == [ms[0]] + ms[1..];
    }
  }

  lemma PodmanPathsEnabled(cfg: Engines, head: string, id: string)
    requires cfg.podman && Is64Digits(id) && NoEnginePrefix(head)
    ensures FirstMatch(EngineOrder(cfg), head + "/libpod-" + id + ".scope") == Some(Matched(id[..12], None))
    ensures FirstMatch(EngineOrder(cfg), head + "/libpod-" + id + ".scope/container") == Some(Matched(id[..12], None))
    ensures FirstMatch(EngineOrder(cfg), head + "/libpod-" + id) == Some(Matched(id[..12], None))
  {
    PodmanPaths(head, id);
    assert PodmanMatcher in RuncEngines(cfg);
    EnabledOn(cfg, head, Layout("/libpod-", ".scope"), id, head + "/libpod-" + id + ".scope");
    EnabledOn(cfg, head, Layout("/libpod-", ".scope/container"), id, head + "/libpod-" + id + ".scope/container");
    EnabledOn(cfg, head, Layout("/libpod-", ""), id, head + "/libpod-" + id);
  }

  lemma DockerPathsEnabled(cfg: Engines, head: string, id: string)
    requires cfg.docker && Is64Digits(id) && NoEnginePrefix(head)
    ensures FirstMatch(EngineOrder(cfg), head + "/" + id) == Some(Matched(id[..12], None))
    ensures FirstMatch(EngineOrder(cfg), head + "/docker-" + id + ".scope") == Some(Matched(id[..12], None))
  {
    DockerPaths(head, id);
    assert DockerMatcher in RuncEngines(cfg);
    EnabledOn(cfg, head, Layout("/", ""), id, head + "/" + id);
    EnabledOn(cfg, head, Layout("/docker-", ".scope"), id, head + "/docker-" + id + ".scope");
  }

  lemma CriPathsEnabled(cfg: Engines, head: string, id: string)
    requires cfg.cri && Is64Digits(id) && NoEnginePrefix(head)
    ensures FirstMatch(EngineOrder(cfg), head + "/" + id) == Some(Matched(id[..12], None))
    ensures FirstMatch(EngineOrder(cfg), head + "/crio-" + id) == Some(Matched(id[..12], None))
    ensures FirstMatch(EngineOrder(cfg), head + "/cri-containerd-" + id + ".scope") == Some(Matched(id[..12], None))
    ensures FirstMatch(EngineOrder(cfg), head + "/crio-" + id + ".scope") == Some(Matched(id[..12], None))
    ensures FirstMatch(EngineOrder(cfg), head + ":cri-containerd:" + id) == Some(Matched(id[..12], None))
    ensures FirstMatch(EngineOrder(cfg), head + "/docker-" + id + ".scope") == Some(Matched(id[..12], None))
  {
    CriPaths(head, id);
    assert CriMatcher in RuncEngines(cfg);
    EnabledOn(cfg, head, Layout("/", ""), id, head + "/" + id);
    EnabledOn(cfg, head, Layout("/crio-", ""), id, head + "/crio-" + id);
    EnabledOn(cfg, head, Layout("/cri-containerd-", ".scope"), id, head + "/cri-containerd-" + id + ".scope");
    EnabledOn(cfg, head, Layout("/crio-", ".scope"), id, head + "/crio-" + id + ".scope");
    EnabledOn(cfg, head, Layout(":cri-containerd:", ""), id, head + ":cri-containerd:" + id);
    EnabledOn(cfg, head, Layout("/docker-", ".scope"), id, head + "/docker-" + id + ".scope");
  }

  // ---- the order of the engines ----

  /** Where an engine stands among all. */
  function Place(m: Matcher): int {
    match m
    case PodmanMatcher => 0
    case DockerMatcher => 1
    case CriMatcher => 2
    case ContainerdMatch => 3
    case LxcMatcher => 4
    case LibvirtLxcMatcher => 5
    case BpmMatcher => 6
    case StaticMatcher(_) => 7
  }

  predicate Ascending(ms: seq<Matcher>) {
    forall i, j :: 0 <= i < j < |ms| ==> Place(ms[i]) < Place(ms[j])
  }

  lemma AscendingJoin(a: seq<Matcher>, b: seq<Matcher>)
    requires Ascending(a) && Ascending(b) && forall x, y :: x in a && y in b ==> Place(x) < Place(y)
    ensures Ascending(a + b) && forall m :: m in a + b <==> m in a || m in b
  {
    forall i, j | 0 <= i < j < |a + b|
      ensures Place((a + b)[i]) < Place((a + b)[j])
    {
      if i < |a| <= j {
        assert (a + b)[i] in a && (a + b)[j] in b;
      }
    }
  }

  lemma RuncInOrder(cfg: Engines)
    ensures Ascending(RuncEngines(cfg))
    ensures forall m :: m in RuncEngines(cfg) <==>
      (m == PodmanMatcher && cfg.podman) || (m == DockerMatcher && cfg.docker) || (m == CriMatcher && cfg.cri)
  {
  }

  lemma LaterInOrder(cfg: Engines)
    ensures Ascending(LaterEngines(cfg))
    ensures forall m :: m in LaterEngines(cfg) <==>
      (m == LxcMatcher && cfg.lxc) || (m == LibvirtLxcMatcher && cfg.libvirtLxc) || (m == BpmMatcher && cfg.bpm)
  {
  }

  /** Exactly the enabled engines are asked, each once, in the order of their places. */
  lemma EnginesInOrder(cfg: Engines)
    ensures Ascending(EngineOrder(cfg))
    ensures forall m :: m in EngineOrder(cfg) <==>
      || (m == PodmanMatcher && cfg.podman) || (m == DockerMatcher && cfg.docker) || (m == CriMatcher && cfg.cri)
      || (m == ContainerdMatch && cfg.containerd)
      || (m == LxcMatcher && cfg.lxc) || (m == LibvirtLxcMatcher && cfg.libvirtLxc) || (m == BpmMatcher && cfg.bpm)
  {
    RuncInOrder(cfg);
    LaterInOrder(cfg);
    var ctr := If(cfg.containerd, ContainerdMatch);
    AscendingJoin(RuncEngines(cfg), ctr);
    AscendingJoin(RuncEngines(cfg) + ctr, LaterEngines(cfg));
  }
}
