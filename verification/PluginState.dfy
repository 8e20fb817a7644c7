/** The state of the plugin as a value, and what each operation makes of it (src/plugin.cpp, src/caps/parse/parse.cpp). */
module PluginState {
  import opened Wrappers
  import opened CppString
  import opened ContainerInfo
  import opened Matchers
  import opened Threads

  /** A metric is a uint64_t. */
  function U64(x: int): (r: nat)
    ensures 0 <= x < TWO_64 ==> r == x
    ensures x == -1 ==> r == TWO_64 - 1
  {
    x % TWO_64
  }

  /**
   * asks lists the calls of AskForContainerInfo and sent the async events the plugin generates itself,
   * both in order; everything else is a member of the plugin or the thread table it writes to.
   */
  datatype State = State(
    threads: Table,
    containers: map<string, Info>,
    asked: set<string>,
    last: Option<Info>,
    nContainers: nat,
    nMissing: nat,
    asks: seq<string>,
    sent: seq<Info>)

  // ---- new processes ----

  /** The id of the first cgroup that resolves to a non-empty one; acc is what was matched so far. */
  function MatchCgroups(ms: seq<Matcher>, cgroups: seq<Str>, acc: Matched): Matched {
    if cgroups == [] then acc
    else if cgroups[0] == "" || FirstMatch(ms, cgroups[0]).None? then MatchCgroups(ms, cgroups[1..], acc)
    else
      var m := FirstMatch(ms, cgroups[0]).value;
      if m.id != "" then m else MatchCgroups(ms, cgroups[1..], m)
  }

  function Identify(ms: seq<Matcher>, th: Thread): Matched {
    MatchCgroups(ms, th.cgroups, Matched("", None))
  }

  function NonEmpty(args: seq<string>): seq<string> {
    if args == [] then []
    else if args[|args| - 1] == "" then NonEmpty(args[..|args| - 1])
    else NonEmpty(args[..|args| - 1]) + [args[|args| - 1]]
  }

  function ProbeCategory(p: ProbeType): Category
    requires p != NoProbe
  {
    match p
    case Healthcheck => CatHealthcheck
    case LivenessProbe => CatLivenessProbe
    case ReadinessProbe => CatReadinessProbe
  }

  /** The category of an entry after write_thread_category. */
  ghost function NewCategory(t: Table, tid: int, cinfo: Info): Category
    requires tid in t
  {
    var th := t[tid];
    if th.vpid == 1 then CatContainer
    else if th.ptid in t && t[th.ptid].category != CatNone then t[th.ptid].category
    else
      var probe := cinfo.MatchHealthProbe(th.exe, NonEmpty(th.args));
      if probe == NoProbe || HasInitAbove(t, tid) then th.category else ProbeCategory(probe)
  }

  function WithId(ms: seq<Matcher>, t: Table, tid: int): Table
    requires tid in t
  {
    t[tid := t[tid].(containerId := Identify(ms, t[tid]).id)]
  }

  function WithInfo(containers: map<string, Info>, info: Option<Info>): map<string, Info> {
    if info.Some? then containers[info.value.id := info.value] else containers
  }

  /** on_new_process */
  ghost function NewProcess(ms: seq<Matcher>, s: State, tid: int): State
    requires tid in s.threads
  {
    var m := Identify(ms, s.threads[tid]);
    var t := WithId(ms, s.threads, tid);
    var containers := WithInfo(s.containers, m.info);
    var s1 := s.(threads := t, containers := containers, sent := s.sent + (if m.info.Some? then [m.info.value] else []));
    if m.id == "" then s1
    else if m.id in containers then
      s1.(threads := t[tid := t[tid].(category := NewCategory(t, tid, containers[m.id]))])
    else if m.id in s.asked then s1
    else s1.(asked := s.asked + {m.id}, asks := s.asks + [m.id])
  }

  /** With this metadata, write_thread_category comes to climb the ancestors of the entry. */
  predicate Climbs(t: Table, tid: int, cinfo: Info)
    requires tid in t
  {
    && t[tid].vpid != 1
    && !(t[tid].ptid in t && t[t[tid].ptid].category != CatNone)
    && cinfo.MatchHealthProbe(t[tid].exe, NonEmpty(t[tid].args)) != NoProbe
  }

  /** If processing the entry begins a climb, the climb ends. */
  ghost predicate CanProcess(ms: seq<Matcher>, s: State, tid: int)
    requires tid in s.threads
  {
    var m, t := Identify(ms, s.threads[tid]), WithId(ms, s.threads, tid);
    var containers := WithInfo(s.containers, m.info);
    m.id != "" && m.id in containers && Climbs(t, tid, containers[m.id]) ==> ClimbStops(t, tid)
  }

  /** Without a cycle of parents every entry can be processed. */
  lemma AcyclicCanProcess(ms: seq<Matcher>, s: State, tid: int)
    requires tid in s.threads && Acyclic(s.threads)
    ensures CanProcess(ms, s, tid)
  {
    SameLinksAbove(s.threads, WithId(ms, s.threads, tid));
    AcyclicClimbStops(WithId(ms, s.threads, tid), tid);
  }

  // ---- events about containers ----

  /** parse_async_event, for the two names the plugin itself generates. */
  function Async(s: State, added: bool, info: Info): State {
    var s1 := if added
              then s.(containers := s.containers[info.id := info], last := Some(info), asked := s.asked - {info.id})
              else s.(containers := s.containers - {info.id});
    Counted(s1, info)
  }

  /** The two metrics after an async event: the cache size without the host, and images found missing. */
  function Counted(s: State, info: Info): State {
    s.(nContainers := U64(|s.containers| - 1),
       nMissing := if !info.isPodSandbox && info.image == "" then U64(s.nMissing + 1) else s.nMissing)
  }

  /** The three legacy container events: the asked set is left alone. */
  function Legacy(s: State, info: Info): State {
    s.(containers := s.containers[info.id := info], last := Some(info))
  }

  /**
   * After an async event the metric is the number of containers besides the host, exactly as long as
   * the cache has an entry under the empty key; without one it is one too low, modulo 2^64.
   */
  lemma MetricCountsContainers(s: State, added: bool, info: Info)
    requires |Async(s, added, info).containers| < TWO_64
    ensures var s1 := Async(s, added, info);
            s1.nContainers == |s1.containers.Keys - {""}| <==> "" in s1.containers
  {
    var s1 := Async(s, added, info);
    var keys := s1.containers.Keys;
    assert |keys| == |s1.containers|;
    assert |keys - {""}| == if "" in keys then |keys| - 1 else |keys| by {
      if "" !in keys {
        assert keys - {""} == keys;
      }
    }
  }

  // ---- metadata from a matcher ----

  /** What is said of a match: its metadata has its id, and declares no probe unless a static engine's does. */
  predicate IsSupplied(ms: seq<Matcher>, m: Matched) {
    m.info.Some? ==> m.info.value.id == m.id && (DeclareNoProbes(ms) ==> m.info.value.probes == [])
  }

  lemma {:induction false} MatchedInfoHasLoopId(ms: seq<Matcher>, cgroups: seq<Str>, acc: Matched)
    requires IsSupplied(ms, acc)
    ensures IsSupplied(ms, MatchCgroups(ms, cgroups, acc))
  {
    if cgroups != [] {
      var m := FirstMatch(ms, cgroups[0]);
      if m.Some? && m.value.info.Some? {
        MatchedInfoHasId(ms, cgroups[0]);
      }
      MatchedInfoHasLoopId(ms, cgroups[1..], acc);
      if m.Some? {
        MatchedInfoHasLoopId(ms, cgroups[1..], m.value);
      }
    }
  }

  /** Metadata that comes out of the cgroup loop carries the id that comes out of it. */
  lemma IdentifiedInfoHasId(ms: seq<Matcher>, th: Thread)
    ensures Identify(ms, th).info.Some? ==>
              && Identify(ms, th).info.value.id == Identify(ms, th).id
              && (DeclareNoProbes(ms) ==> Identify(ms, th).info.value.probes == [])
  {
    MatchedInfoHasLoopId(ms, th.cgroups, Matched("", None));
  }

  /** A container whose metadata the matcher supplied is cached at once and never asked for. */
  lemma SuppliedIsNotAsked(ms: seq<Matcher>, s: State, tid: int)
    requires tid in s.threads && Identify(ms, s.threads[tid]).info.Some?
    ensures var s1 := NewProcess(ms, s, tid);
            && s1.asks == s.asks && s1.asked == s.asked
            && s1.threads[tid].containerId in s1.containers
            && s1.containers[s1.threads[tid].containerId] == Identify(ms, s.threads[tid]).info.value
  {
    IdentifiedInfoHasId(ms, s.threads[tid]);
  }
}
