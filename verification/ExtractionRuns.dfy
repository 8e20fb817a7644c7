/** Field extraction over whole runs of the plugin. */
module ExtractionRuns {
  import opened Wrappers
  import opened ContainerInfo
  import opened Matchers
  import opened Threads
  import opened PluginState
  import opened PluginRuns
  import opened Categories
  import opened ProcessEvents
  import opened HostEntry
  import opened Extraction
  import CpuSet

  /** In every run, container.id of a thread is its foreign key, whether the container is known or not. */
  lemma ContainerIdIsForeignKey(ms: seq<Matcher>, states: seq<State>, es: seq<Event>, n: nat, tid: int)
    requires IsRun(ms, states, es) && IsStart(states[0]) && n <= |es|
    requires tid in states[n].threads && states[n].threads[tid].containerId != ""
    ensures Answer(states[n], FromThread(tid), ContainerId) == Some(Text(states[n].threads[tid].containerId))
  {
    KeysAreIds(ms, states, es, n);
  }

  // ---- the last container ----

  /** The events whose fields are read from the metadata they carry. */
  predicate BringsMetadata(e: Event) {
    e.LegacyContainer? || (e.AsyncContainer? && e.added)
  }

  /** After an event that carries metadata every field of one member is answered from the whole of it. */
  lemma MetadataEventHasAnswer(ms: seq<Matcher>, s: State, e: Event, read: Info -> string)
    requires BringsMetadata(e)
    ensures var s1 := Step(ms, s, e);
            && s1.last == Some(e.info)
            && Answer(s1, FromContainerEvent, Direct(read)) == Some(Text(read(e.info)))
            && Answer(s1, FromContainerEvent, ContainerId) == Some(Text(e.info.id))
  {
  }

  lemma OthersKeepLast(ms: seq<Matcher>, s: State, e: Event)
    ensures Step(ms, s, e).last == if BringsMetadata(e) then Some(e.info) else s.last
  {
    StepFrame(ms, s, e);
  }

  /** Of the first n events, the i-th is the latest that carries metadata. */
  ghost predicate IsLatest(es: seq<Event>, n: nat, i: int)
    requires n <= |es|
  {
    0 <= i < n && BringsMetadata(es[i]) && forall j :: i < j < n ==> !BringsMetadata(es[j])
  }

  /** In every run the last container is that of the latest event with metadata, and there is none before the first. */
  lemma {:induction false} LastIsOfLatest(ms: seq<Matcher>, states: seq<State>, es: seq<Event>, n: nat)
    requires IsRun(ms, states, es) && IsStart(states[0]) && n <= |es|
    ensures forall i :: IsLatest(es, n, i) ==> states[n].last == Some(es[i].info)
    ensures (forall i :: 0 <= i < n ==> !BringsMetadata(es[i])) <==> states[n].last == None
  {
    if n > 0 {
      assert Follows(ms, states, es, n - 1);
      LastIsOfLatest(ms, states, es, n - 1);
      OthersKeepLast(ms, states[n - 1], es[n - 1]);
      assert forall i :: IsLatest(es, n, i) && i != n - 1 ==> IsLatest(es, n - 1, i);
    }
  }

  // ---- the fields ----

  /** A pod with network metadata of its own answers for itself, whatever sandbox the cache has. */
  lemma OwnPodAnswers(s: State, tid: int, key: string)
    requires tid in s.threads && s.threads[tid].containerId in s.containers
    requires s.containers[s.threads[tid].containerId].cniResult != ""
    ensures var cinfo, src := s.containers[s.threads[tid].containerId], FromThread(tid);
            && Answer(s, src, PodIp) == Some(Text(cinfo.ip))
            && Answer(s, src, PodCniResult) == Some(Text(cinfo.cniResult))
            && Answer(s, src, PodLabels) == Some(Labels(cinfo.podSandboxLabels))
            && Answer(s, src, PodLabel(key)) == Some(if key in cinfo.podSandboxLabels
                                                     then Text(cinfo.podSandboxLabels[key]) else NoValue)
  {
  }

  /** Otherwise a label is the sandbox's, or else the container's, or has no value. */
  lemma LabelAnswers(s: State, tid: int, key: string)
    requires tid in s.threads && s.threads[tid].containerId in s.containers
    requires s.containers[s.threads[tid].containerId].cniResult == ""
    ensures var cinfo := s.containers[s.threads[tid].containerId];
            var answer, box := Answer(s, FromThread(tid), PodLabel(key)), CpuSet.ShortContainerID(cinfo.podSandboxId);
            if box in s.containers && key in s.containers[box].podSandboxLabels
            then answer == Some(Text(s.containers[box].podSandboxLabels[key]))
            else if key in cinfo.podSandboxLabels then answer == Some(Text(cinfo.podSandboxLabels[key]))
            else answer == Some(NoValue)
  {
    SandboxKeyAgrees(s.containers[s.threads[tid].containerId]);
  }

  /** A thread of a cached container answers from its metadata, one of an unknown container with the empty text. */
  lemma ThreadAnswers(s: State, tid: int, read: Info -> string, f: Field)
    ensures tid !in s.threads ==> Answer(s, FromThread(tid), f) == None
    ensures tid in s.threads && s.threads[tid].containerId in s.containers ==>
              Answer(s, FromThread(tid), Direct(read)) == Some(Text(read(s.containers[s.threads[tid].containerId])))
    ensures tid in s.threads && s.threads[tid].containerId !in s.containers && NeedsMetadata(f) ==>
              Answer(s, FromThread(tid), f) == Some(Text(""))
  {
  }

  /** A container event is answered as a thread of that container would be, and is never a probe. */
  lemma ContainerEventAnswers(s: State, tid: int, f: Field)
    requires s.last.Some? && tid in s.threads && s.threads[tid].containerId in s.containers
    requires s.containers[s.threads[tid].containerId] == s.last.value
    ensures if f in {IsHealthcheck, IsLivenessProbe, IsReadinessProbe}
            then Answer(s, FromContainerEvent, f) == Some(Flag(false))
            else Answer(s, FromContainerEvent, f) == Answer(s, FromThread(tid), f)
  {
  }

  /** The three flags of a thread, in the order health, liveness and readiness. */
  predicate Flags(s: State, tid: int, health: bool, liveness: bool, readiness: bool) {
    && Answer(s, FromThread(tid), IsHealthcheck) == Some(Flag(health))
    && Answer(s, FromThread(tid), IsLivenessProbe) == Some(Flag(liveness))
    && Answer(s, FromThread(tid), IsReadinessProbe) == Some(Flag(readiness))
  }

  /**
   * A process outside every container that inherits nothing, and whose command line is the first declared
   * probe equal to it, is reported by the field of the probe's kind and by neither of the others.
   */
  lemma ProbeIsReported(ms: seq<Matcher>, s: State, tid: int, i: int)
    requires tid in s.threads && s.threads[tid].vpid != 1 && ParentHasNone(s.threads, tid)
    requires var s1 := NewProcess(ms, s, tid);
             && IsKnown(s1, tid) && !HasInitAbove(s1.threads, tid)
             && FirstWithCommand(s1.containers[s1.threads[tid].containerId].probes, i,
                                 s.threads[tid].exe, NonEmpty(s.threads[tid].args))
    ensures var s1 := NewProcess(ms, s, tid);
            match s1.containers[s1.threads[tid].containerId].probes[i].kind
            case Healthcheck => Flags(s1, tid, true, false, false)
            case LivenessProbe => Flags(s1, tid, false, true, false)
            case ReadinessProbe => Flags(s1, tid, false, false, true)
            case NoProbe => true
  {
    var s1 := NewProcess(ms, s, tid);
    var kind := s1.containers[s1.threads[tid].containerId].probes[i].kind;
    EntryAfterwards(ms, s, tid);
    if kind != NoProbe {
      ProbeDecides(ms, s, tid, kind);
    }
  }

  /** For a process without a category before, the flags are exactly the probes it runs. */
  lemma FlagsOfProcess(ms: seq<Matcher>, s: State, tid: int)
    requires tid in s.threads && s.threads[tid].vpid != 1 && ParentHasNone(s.threads, tid)
    requires s.threads[tid].category == CatNone
    ensures var s1 := NewProcess(ms, s, tid);
            Flags(s1, tid, RunsProbe(s1, tid, Healthcheck), RunsProbe(s1, tid, LivenessProbe),
                  RunsProbe(s1, tid, ReadinessProbe))
  {
    OwnCategory(ms, s, tid);
  }

  /**
   * The plugin visits the initial table in any order and then runs: no thread that has an init of some
   * container above it in the table is ever reported as a health, liveness or readiness probe.
   */
  lemma NotReportedAsProbe(ms: seq<Matcher>, s: State, order: seq<int>,
                           states: seq<State>, es: seq<Event>, n: nat, tid: int, f: Field)
    requires IsStart(s) && Acyclic(s.threads) && DeclareNoProbes(ms)
    requires forall v :: v in s.threads <==> v in order
    requires SteadyRun(ms, states, es) && states[0] == Captured(ms, s, order) && n <= |es|
    requires tid in states[n].threads && HasInitAbove(states[n].threads, tid)
    requires f.IsHealthcheck? || f.IsLivenessProbe? || f.IsReadinessProbe?
    ensures Answer(states[n], FromThread(tid), f) == Some(Flag(false))
  {
    NoProbeInsideContainer(ms, s, order, states, es, n, tid);
  }

  /** A thread of the host is reported as "host" exactly as long as nothing has been written under the empty key. */
  lemma HostIsLogged(ms: seq<Matcher>, states: seq<State>, es: seq<Event>, n: nat, tid: int)
    requires IsRun(ms, states, es) && IsStart(states[0]) && n <= |es|
    requires tid in states[n].threads && states[n].threads[tid].containerId == ""
    ensures Answer(states[n], FromThread(tid), ContainerId) == Some(Text(HOST_CONTAINER_ID)) <==>
              OnlyAtStart(Log(ms, states, es, n), "")
  {
    var log := Log(ms, states, es, n);
    CacheIsReplay(ms, states, es, n);
    var i := LastWrite(log, "");
    CacheRefinesLog(ms, states, es, n, "", i);
    if i > 0 {
      assert log[i].Put? ==> log[i].info.id == "";
    }
  }

  lemma {:induction false} LastWrite(log: seq<CacheOp>, k: string) returns (i: nat)
    requires log != [] && log[0].key == k
    ensures IsLastOn(log, k, i)
  {
    var last := |log| - 1;
    if log[last].key == k {
      i := last;
    } else {
      i := LastWrite(log[..last], k);
    }
  }

  /**
   * In any configuration, that is: exactly as long as no process appeared that is named by the empty id, by
   * a static engine configured with it or by lxc or libvirt paths without a name, no event was about a
   * container with an empty id, and the entry was not erased.
   */
  lemma HostIsReported(cfg: Engines, ms: seq<Matcher>, states: seq<State>, es: seq<Event>, n: nat, tid: int)
    requires AreMatchersOf(cfg, ms) && IsRun(ms, states, es) && IsStart(states[0]) && n <= |es|
    requires tid in states[n].threads && states[n].threads[tid].containerId == ""
    ensures Answer(states[n], FromThread(tid), ContainerId) == Some(Text(HOST_CONTAINER_ID)) <==>
              forall j :: 0 <= j < n ==> !WritesHost(cfg, states[j].threads, es[j])
  {
    HostIsLogged(ms, states, es, n, tid);
    HostUntouched(cfg, ms, states, es, n);
  }

  /** The key under which a pod looks for its sandbox is the short id that the worker reports for it. */
  lemma SandboxKeyAgrees(cinfo: Info)
    ensures SandboxKey(cinfo) == CpuSet.ShortContainerID(cinfo.podSandboxId)
  {
    assert cinfo.podSandboxId[..|cinfo.podSandboxId|] == cinfo.podSandboxId;
  }

  /**
   * A container of a pod without network metadata of its own is answered from the sandbox container that
   * was last written under the worker's short id of the sandbox; after a removal there is no answer.
   */
  lemma SandboxIsFound(ms: seq<Matcher>, states: seq<State>, es: seq<Event>, n: nat, tid: int, i: int)
    requires IsRun(ms, states, es) && IsStart(states[0]) && n <= |es|
    requires tid in states[n].threads && states[n].threads[tid].containerId in states[n].containers
    requires var cinfo := states[n].containers[states[n].threads[tid].containerId];
             && cinfo.cniResult == ""
             && IsLastOn(Log(ms, states, es, n), CpuSet.ShortContainerID(cinfo.podSandboxId), i)
    ensures var op := Log(ms, states, es, n)[i];
            && Answer(states[n], FromThread(tid), PodIp) == Some(if op.Put? then Text(op.info.ip) else NoValue)
            && Answer(states[n], FromThread(tid), PodCniResult)
               == Some(if op.Put? then Text(op.info.cniResult) else NoValue)
            && (op.Put? ==> Answer(states[n], FromThread(tid), PodLabels) == Some(Labels(op.info.podSandboxLabels)))
  {
    var cinfo := states[n].containers[states[n].threads[tid].containerId];
    SandboxKeyAgrees(cinfo);
    CacheRefinesLog(ms, states, es, n, SandboxKey(cinfo), i);
  }
}
