/** The plugin object: its members, and the operations that update them in place. */
module Plugin {
  import opened Wrappers
  import opened ContainerInfo
  import opened Matchers
  import opened Threads
  import opened PluginState
  import opened PluginRuns
  import opened Extraction
  import opened EventParams
  import opened RawEvents

  datatype AsyncName = ContainerAdded | ContainerRemoved | OtherName

  class ContainerPlugin {
    const mgr: MatcherManager
    var threads: Table
    var containers: map<string, Info>
    var asked: set<string>
    var lastContainer: Option<Info>
    var nContainers: nat
    var nMissing: nat
    // the calls of AskForContainerInfo and the generated async events, in order
    var asks: seq<string>
    var sent: seq<Info>

    function View(): State
      reads this
    {
      State(threads, containers, asked, lastContainer, nContainers, nMissing, asks, sent)
    }

    /** init: the cache starts with the entry of the host. */
    constructor (cfg: Engines, table: Table)
      ensures fresh(mgr) && AreMatchersOf(cfg, mgr.matchers)
      ensures View() == State(table, map["" := HOST_INFO], {}, None, 0, 0, [], [])
    {
      mgr := new MatcherManager(cfg);
      threads := table;
      containers := map["" := HOST_INFO];
      asked, lastContainer := {}, None;
      nContainers, nMissing := 0, 0;
      asks, sent := [], [];
    }

    /** compute_container_id_for_thread: the loop over the cgroups stops at the first non-empty id. */
    method ComputeContainerIdForThread(tid: int) returns (containerId: string, info: Option<Info>)
      requires tid in threads
      ensures Matched(containerId, info) == Identify(mgr.matchers, threads[tid])
    {
      containerId, info := "", None;
      var cgroups := threads[tid].cgroups;
      for i := 0 to |cgroups|
        invariant containerId == ""
        invariant Identify(mgr.matchers, threads[tid])
                  == MatchCgroups(mgr.matchers, cgroups[i..], Matched(containerId, info))
      {
        var cgroup := cgroups[i];
        assert cgroups[i..][0] == cgroup && cgroups[i..][1..] == cgroups[i + 1..];
        if cgroup != "" {
          var ok;
          ok, containerId, info := mgr.MatchCgroup(cgroup, containerId, info);
          if containerId != "" {
            return;
          }
        }
      }
    }

    /** The loop that collects the non-empty arguments of a thread. */
    method CollectArgs(tid: int) returns (args: seq<string>)
      requires tid in threads
      ensures args == NonEmpty(threads[tid].args)
    {
      args := [];
      var all := threads[tid].args;
      for i := 0 to |all|
        invariant args == NonEmpty(all[..i])
      {
        assert all[..i + 1][..i] == all[..i];
        if all[i] != "" {
          args := args + [all[i]];
        }
      }
      assert all[..|all|] == all;
    }

    /**
     * The climb of write_thread_category. It finds an init exactly when there is one among the strict
     * ancestors that the table still holds.
     */
    method FindContainerInit(tid: int) returns (found: bool)
      requires tid in threads && ClimbStops(threads, tid)
      ensures found <==> HasInitAbove(threads, tid)
    {
      found := false;
      var ptid := threads[tid].ptid;
      ghost var n: nat := 1;
      ghost var stop: nat :| StopsAt(threads, tid, stop);
      assert Up(threads, tid, 0) == Some(tid);
      while !found
        invariant n >= 1 && Up(threads, tid, n) == Some(ptid)
        invariant forall m :: 1 <= m < n ==> !StopsAt(threads, tid, m)
        invariant found ==> IsInit(threads, ptid)
        decreases stop - n, if found then 0 else 1
      {
        if ptid !in threads {
          break;
        }
        var entry := threads[ptid];
        if entry.vpid == 1 && entry.containerId != "" {
          found := true;
        } else {
          ptid := entry.ptid;
          n := n + 1;
        }
      }
      FirstStopDecides(threads, tid, n);
    }

    method WriteThreadCategory(cinfo: Info, tid: int)
      requires tid in threads && (Climbs(threads, tid, cinfo) ==> ClimbStops(threads, tid))
      modifies this`threads
      ensures threads == old(threads)[tid := old(threads)[tid].(category := NewCategory(old(threads), tid, cinfo))]
    {
      var th := threads[tid];
      if th.vpid == 1 {
        threads := threads[tid := th.(category := CatContainer)];
        return;
      }
      if th.ptid in threads {
        var parentCategory := threads[th.ptid].category;
        if parentCategory != CatNone {
          threads := threads[tid := th.(category := parentCategory)];
          return;
        }
      }
      var args := CollectArgs(tid);
      var probe := cinfo.MatchHealthProbe(th.exe, args);
      if probe == NoProbe {
        return;
      }
      var found := FindContainerInit(tid);
      if !found {
        match probe
        case Healthcheck => threads := threads[tid := th.(category := CatHealthcheck)];
        case LivenessProbe => threads := threads[tid := th.(category := CatLivenessProbe)];
        case ReadinessProbe => threads := threads[tid := th.(category := CatReadinessProbe)];
      }
    }

    /** Metadata from a matcher: nothing is expected from the worker, so the event is sent and the cache filled at once. */
    method CacheSupplied(info: Option<Info>)
      modifies this`sent, this`containers
      ensures sent == old(sent) + if info.Some? then [info.value] else []
      ensures containers == WithInfo(old(containers), info)
    {
      if info.Some? {
        sent := sent + [info.value];
        containers := containers[info.value.id := info.value];
      }
    }

    /** on_new_process, for a thread from which a climb, if one begins, ends; without a cycle of parents it does. */
    method OnNewProcess(tid: int)
      requires tid in threads && CanProcess(mgr.matchers, View(), tid)
      modifies this
      ensures View() == NewProcess(mgr.matchers, old(View()), tid)
      ensures SameLinks(old(threads), threads)
    {
      var containerId, info := ComputeContainerIdForThread(tid);
      threads := threads[tid := threads[tid].(containerId := containerId)];
      CacheSupplied(info);
      if containerId != "" {
        if containerId in containers {
          WriteThreadCategory(containers[containerId], tid);
        } else if containerId !in asked {
          asked := asked + {containerId};
          asks := asks + [containerId];
        }
      }
    }

    /** parse_async_event: events of other plugins are skipped, one without a payload is an error. */
    method ParseAsyncEvent(name: AsyncName, payload: Option<Info>) returns (ok: bool)
      modifies this
      ensures ok <==> name == OtherName || payload.Some?
      ensures View() == if name != OtherName && payload.Some?
                        then Async(old(View()), name == ContainerAdded, payload.value) else old(View())
    {
      if name == OtherName {
        return true;
      }
      if payload.None? {
        return false;
      }
      var cinfo := payload.value;
      if name == ContainerAdded {
        containers := containers[cinfo.id := cinfo];
        lastContainer := Some(cinfo);
        asked := asked - {cinfo.id};
      } else {
        containers := containers - {cinfo.id};
      }
      UpdateMetrics(cinfo);
      return true;
    }

    method UpdateMetrics(cinfo: Info)
      modifies this
      ensures View() == Counted(old(View()), cinfo)
    {
      nContainers := U64(|containers| - 1);
      if !cinfo.isPodSandbox && cinfo.image == "" {
        nMissing := U64(nMissing + 1);
      }
    }

    /** parse_container_event: three C strings and a container type, read from the raw event. */
    method ParseContainerEvent(evt: seq<Byte>, header: nat, nparams: nat) returns (ok: bool)
      requires IsContainerEvent(evt, header, nparams)
      modifies this
      ensures ok && View() == Legacy(old(View()), ContainerOf(evt, header, nparams))
    {
      var id := ReadText(evt, header, nparams, 0);
      var tp := ReadType(evt, header, nparams, 1);
      var name := ReadText(evt, header, nparams, 2);
      var image := ReadText(evt, header, nparams, 3);
      var cinfo := BareInfo(id, tp).(name := name, image := image);
      containers := containers[id := cinfo];
      lastContainer := Some(cinfo);
      return true;
    }

    /** parse_container_json_event and parse_container_json_2_event, on the decoded metadata. */
    method ParseContainerJsonEvent(cinfo: Info) returns (ok: bool)
      modifies this
      ensures ok && View() == Legacy(old(View()), cinfo) && threads == old(threads)
    {
      containers := containers[cinfo.id := cinfo];
      lastContainer := Some(cinfo);
      return true;
    }

    /**
     * parse_new_process_event: the first parameter is the return value of the system call; a failed call
     * or an unknown thread changes nothing.
     */
    method ParseNewProcessEvent(tid: int, evt: seq<Byte>, header: nat, nparams: nat) returns (ok: bool)
      requires 0 < nparams && header + Small.Size(nparams) + 8 <= |evt|
      requires Result(evt, header, nparams) >= 0 && tid in threads ==> CanProcess(mgr.matchers, View(), tid)
      modifies this
      ensures ok <==> Result(evt, header, nparams) >= 0 && tid in old(threads)
      ensures View() == if ok then NewProcess(mgr.matchers, old(View()), tid) else old(View())
    {
      var len, at := GetSyscallEvtParam(evt, header, nparams, Small, 0);
      var ret := Int64Of(evt[at..at + 8]);
      if ret < 0 || tid !in threads {
        return false;
      }
      OnNewProcess(tid);
      return true;
    }

    /**
     * One event of a run: libsinsp brings the thread table up to date, and the event is handed to the
     * operation that parse_event chooses for it.
     */
    method Handle(e: Event)
      requires IsProcess(threads, e) ==> CanProcess(mgr.matchers, Entered(View(), e), e.tid)
      modifies this
      ensures View() == Step(mgr.matchers, old(View()), e)
    {
      match e
      case Spawn(tid, th) => ProcessEntry(tid, th);
      case Exec(tid, _, _, _) =>
        if tid in threads {
          ProcessEntry(tid, Entry(threads, e));
        }
      case Exit(tid) => threads := threads - {tid};
      case AsyncContainer(added, info) =>
        var ok := ParseAsyncEvent(if added then ContainerAdded else ContainerRemoved, Some(info));
      case LegacyContainer(info) =>
        var ok := ParseContainerJsonEvent(info);
      case Erase(key) =>
        containers := containers - {key};
      case Reopen(table) => threads := Scanned(table);
    }

    /** libsinsp writes the entry, and the plugin processes it. */
    method ProcessEntry(tid: int, th: Thread)
      requires CanProcess(mgr.matchers, View().(threads := threads[tid := th]), tid)
      modifies this
      ensures View() == NewProcess(mgr.matchers, old(View()).(threads := old(threads)[tid := th]), tid)
    {
      threads := threads[tid := th];
      OnNewProcess(tid);
    }

    /** capture_open: every entry of the initial table, in the order in which the table iterates. */
    method CaptureOpen(order: seq<int>) returns (ok: bool)
      requires (forall tid :: tid in order ==> tid in threads) && CanPass(mgr.matchers, View(), order)
      modifies this
      ensures ok && View() == Captured(mgr.matchers, old(View()), order)
    {
      ghost var s0 := View();
      for i := 0 to |order|
        invariant View() == Captured(mgr.matchers, s0, order[..i])
      {
        CapturedOneMore(mgr.matchers, s0, order, i);
        OnNewProcess(order[i]);
      }
      assert order[..|order|] == order;
      return true;
    }

    /**
     * extract. Every dereference of the metadata pointer is of one that is not null, and the lookups
     * through operator[] are of keys that are there, so nothing is inserted and no member changes.
     */
    method Extract(src: Source, f: Field) returns (ok: bool, value: Value)
      requires NeedsMetadata(f) && src.FromContainerEvent? ==> lastContainer.Some?
      ensures ok == Answer(View(), src, f).Some?
      ensures ok ==> Some(value) == Answer(View(), src, f)
    {
      value := NoValue;
      var cinfo: Option<Info> := None;
      var containerId := "";
      var category := CatNone;
      match src {
        case FromContainerEvent => cinfo := lastContainer;
        case FromThread(tid) =>
          if tid !in threads {
            return false, NoValue;
          }
          containerId, category := threads[tid].containerId, threads[tid].category;
          if containerId in containers {
            cinfo := Some(containers[containerId]);
          } else if NeedsMetadata(f) {
            return true, Text("");
          }
      }
      ok := true;
      match f
      case ContainerId => value := Text(if cinfo.Some? then cinfo.value.id else containerId);
      case IsHealthcheck => value := Flag(category == CatHealthcheck);
      case IsLivenessProbe => value := Flag(category == CatLivenessProbe);
      case IsReadinessProbe => value := Flag(category == CatReadinessProbe);
      case Direct(read) => value := Text(read(cinfo.value));
      case PodIp => value := ExtractPodIp(cinfo.value);
      case PodCniResult => value := ExtractPodCniResult(cinfo.value);
      case PodLabel(_) => value := ExtractPodLabels(cinfo.value, f);
      case PodLabels => value := ExtractPodLabels(cinfo.value, f);
    }

    method ExtractPodIp(cinfo: Info) returns (value: Value)
      ensures value == FromInfo(containers, cinfo, PodIp)
    {
      if cinfo.cniResult == "" {
        var sandboxId := SandboxKey(cinfo);
        if sandboxId in containers {
          return Text(containers[sandboxId].ip);
        }
        return NoValue;
      }
      return Text(cinfo.ip);
    }

    method ExtractPodCniResult(cinfo: Info) returns (value: Value)
      ensures value == FromInfo(containers, cinfo, PodCniResult)
    {
      if cinfo.cniResult == "" {
        var sandboxId := SandboxKey(cinfo);
        if sandboxId in containers {
          return Text(containers[sandboxId].cniResult);
        }
        return NoValue;
      }
      return Text(cinfo.cniResult);
    }

    method ExtractPodLabels(cinfo: Info, f: Field) returns (value: Value)
      requires f.PodLabel? || f.PodLabels?
      ensures value == FromInfo(containers, cinfo, f)
    {
      var sandbox: Option<Info> := None;
      if cinfo.cniResult == "" {
        var sandboxId := SandboxKey(cinfo);
        if sandboxId in containers {
          sandbox := Some(containers[sandboxId]);
        }
      }
      if f.PodLabel? {
        if sandbox.Some? && f.key in sandbox.value.podSandboxLabels {
          return Text(sandbox.value.podSandboxLabels[f.key]);
        } else if f.key in cinfo.podSandboxLabels {
          return Text(cinfo.podSandboxLabels[f.key]);
        }
        return NoValue;
      } else if sandbox.Some? {
        return Labels(sandbox.value.podSandboxLabels);
      } else {
        return Labels(cinfo.podSandboxLabels);
      }
    }
  }

  /**
   * An added event without a payload, before any container is known: it is not parsed, and there is no
   * last container from which a field of its metadata could be read.
   */
  method EmptyAddedEvent(cfg: Engines, table: Table) returns (plugin: ContainerPlugin, ok: bool)
    ensures fresh(plugin) && !ok && plugin.lastContainer.None?
  {
    plugin := new ContainerPlugin(cfg, table);
    ok := plugin.ParseAsyncEvent(ContainerAdded, None);
  }
}
