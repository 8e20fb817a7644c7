# Model of the container metadata plugin

The plugin attaches a container id to every thread, keeps a cache of container metadata, and asks a
worker about containers it does not know. This project models its logic and proves what it keeps.

* `CppString.dfy`, `Runc.dfy`, `RuncLayouts.dfy`, `Containerd.dfy`, `LxcMatchers.dfy`, `Matchers.dfy`,
  `EnginePaths.dfy`: how a cgroup path becomes a container id. Specifications speak of mathematical positions;
  the methods
  compute with `size_t`, npos and differences modulo 2^64, and are proved equal to them. The main result
  says of every layout's path exactly when the key the plugin computes is the short id the worker uses for
  the same container; `EnginePaths.dfy` says path by path which engine reads what.
* `ImageReference.dfy`, `CpuSet.dfy`, `EventParams.dfy`, `RawEvents.dfy`: image references, cpuset lists and
  raw events, each with a print or encode function and the proof that reading inverts it.
* `ContainerInfo.dfy`, `Threads.dfy`, `PluginState.dfy`, `Plugin.dfy`: metadata, the thread table, the state
  of the plugin as a value, and the plugin as an object whose methods are proved to make exactly that step.
* `ProcessEvents.dfy`: what one process event does, said of command lines, ancestors and supplied metadata.
* `PluginRuns.dfy`, `Categories.dfy`, `Capture.dfy`, `HostEntry.dfy`, `Extraction.dfy`,
  `ExtractionRuns.dfy`: what holds after every sequence of events: conservation of requests, coverage of
  the foreign key, the cache as the replay of its log, health-probe categories, passes over the thread
  table in any order, the entry of the host, field extraction. `PassExamples.dfy` has the runs in which a
  condition of these theorems is missing.
* `Fetcher.dfy`, `Worker.dfy`, `Pipeline.dfy`, `EndToEnd.dfy`: the worker's side and the request pipeline
  as a step relation: no request is lost, and fetcher and worker always come to rest.

## Reading notes

* The hexadecimal test of `match_one_container_id` compares an absolute index with 64, so it tests only
  the characters before position 64 of the path, whatever the header comment says
  (`RuncLayouts.HexTestIsAbsolute` gives the exact condition).
* `endswith` answers true for a string one character shorter than the suffix; `Runc.EndsWithAnswer` says so,
  and `ContainerdMatcher.CtrPathResolved` shows which paths of containerd are affected.
* A key computed below another container's path can be the outer container's
  (`Matchers.NestedPathKeepsOuterId`). `Matchers.FullIdKeyAgrees` gives the exact condition: no enabled
  layout tried before the container's own, with another prefix and a suffix that the own one does not
  begin with, reads another id from what stands before the container's part of the path. Podman's own
  paths have no such rival, and it takes a whole prefix, 64 characters and a suffix in the head.
* An lxc or libvirt path without a name resolves to the empty id and replaces the cache entry of the host.
  `HostEntry.IdentifiedAsNothing` says for which cgroups, `ExtractionRuns.HostIsReported` and
  `PluginState.MetricCountsContainers` what depends on that entry.
* The first pass over the thread table is safe in any order, because no probe is known then; but a child
  visited before its container's init can be left without a category (`PassExamples.ChildFirstAtStart`).
  Nothing is cleared when a capture is closed, so that a later pass runs with a filled cache, over processes
  that libsinsp has scanned anew. Such a pass can leave a probe below an init
  (`PassExamples.ChildFirstMisclassifies`). Two questions about an order have two exact answers:
  `Capture.PassSafety` says when the pass leaves no probe below an init, and `Capture.OrderMatters` when it
  computes the recursive classification, which is more. Parents first is always safe.
* Not all parents-first orders need agree: an entry can find metadata that a matcher supplied for another
  entry under the same id. `Capture.PassOrderIrrelevant` says exactly when they do, and
  `PassExamples.SharedShortId` is an input on which they do not.
* A run of events is safe exactly as long as each event is: a process neither becomes an init above a probe
  nor is itself taken for a probe below an init that the climb does not see (`Categories.Harmless`,
  `Categories.StepKeepsProbesOutside`, `Categories.SafeRunIsSteady`). `PassExamples.JoiningInitLeavesProbe`
  is a run without the first. Of libsinsp it is asked that thread ids are not reused while something refers
  to them. Within one capture, inits that keep their cgroups are enough (`Categories.PlainRunIsSteady`).
* A field that needs metadata must not be read from a container event while no container is known:
  `Plugin.EmptyAddedEvent` leaves the plugin in such a state, and `Extract` requires it not to be asked for
  one there. `container.id` and the three probe flags can be read even then.
* `countCPUSet` reads the bounds of a range as int64, so that a range beyond 2^63 - 1 counts nothing even if
  it holds few processors; single processors are not read at all (`CpuSet.CountBeyondInt64`).
* A request made before the fetcher listens is dropped, and one that no engine can answer ends without an
  event; in both cases the id stays in the asked set and, by `PluginRuns.NotAskedAgain`, is not asked for
  again until some added event names it. `Pipeline.NoRequestLost` keeps the two cases apart from all others.
* The pipeline theorems assume that an engine which answers, answers about the container it was asked for
  (`Fetcher.Honest`).
* A `shared_ptr` that is never null is modelled by its value, one that may be null by an `Option`.
* A `size_t` or `uint64_t` is an integer with its wrap-around written out; strings are not longer than
  2^63 - 1 characters.

## Model

| member | source | states |
|---|---|---|
| Runc.EndsWith | src/matchers/runc.cpp:19-22 | with `rfind` and the wrapping difference of sizes, the answer is true exactly for strings with the suffix and for strings one character shorter than it |
| Runc.CutId | src/matchers/runc.cpp:45-74 | the branches on a difference modulo 2^64 accept exactly the positions a wrap-free reading accepts; a wrapped difference never succeeds, and on failure the id is unchanged |
| Runc.MatchOneContainerId | src/matchers/runc.cpp:27-75 | the two searches and the cut give the layout's id on mathematical positions, and leave the id alone on failure |
| Runc.MatchIsPlaced | src/matchers/runc.cpp:32-51 | a match of a podman, docker or cri layout means that the last prefix ends at start, the last suffix begins at start + 64, and the id is the twelve characters from start |
| Runc.MatchesRuncCgroup | src/matchers/runc.cpp:77-90 | the first layout that matches decides; if none does the id is unchanged across the whole loop |
| RuncLayouts.LayoutOnPath | src/matchers/cri.cpp:6-13 | what each layout of the three tables makes of the path any of them prints around 64 hexadecimal digits: those digits, what it reads from the head alone, or nothing |
| RuncLayouts.HexTestIsAbsolute | src/matchers/runc.cpp:45-51 | around any 64 characters other than slash, colon and dash a layout's path is accepted exactly when those before absolute position 64 are hexadecimal |
| RuncLayouts.ListOnPath | src/matchers/runc.cpp:77-90 | the layout loop on such a path: the first rival that fires on the head decides, and if none does the id is read |
| EnginePaths.PodmanPaths | src/matchers/podman.cpp:6-10 | behind any head without an engine's prefix, podman reads the first twelve digits from `/libpod-<id>` with nothing, `.scope` or `.scope/container` behind it, and leaves the six paths of the other engines unresolved |
| EnginePaths.DockerPaths | src/matchers/docker.cpp:6-9 | docker reads `/<id>` and `/docker-<id>.scope`, and leaves the other seven paths unresolved |
| EnginePaths.CriPaths | src/matchers/cri.cpp:6-13 | cri reads `/<id>`, `/crio-<id>`, `/cri-containerd-<id>.scope`, `/crio-<id>.scope`, `:cri-containerd:<id>` and `/docker-<id>.scope`, and leaves podman's three paths unresolved |
| EnginePaths.PodmanPathsEnabled | src/matchers/matcher.cpp:22-26 | with podman enabled, whatever else is, its three paths get the first twelve digits and no metadata |
| EnginePaths.DockerPathsEnabled | src/matchers/matcher.cpp:27-31 | with docker enabled, whatever else is, so do its two paths |
| EnginePaths.CriPathsEnabled | src/matchers/matcher.cpp:32-36 | with cri enabled, whatever else is, so do its six paths |
| EnginePaths.EnginesInOrder | src/matchers/matcher.cpp:22-56 | exactly the enabled engines are asked, each once, in the order podman, docker, cri, containerd, lxc, libvirt-lxc, bpm |
| ContainerdMatcher.Resolve | src/matchers/containerd.cpp:9-27 | the id, or its absence, is that of the first namespace segment; on failure the id is unchanged |
| ContainerdMatcher.NamespaceIsRuns | src/matchers/containerd.cpp:7-9 | a namespace is runs of letters and digits with single separators between them |
| ContainerdMatcher.FirstNamespaceIsLeftmost | src/matchers/containerd.cpp:9-16 | the segment that is found is the leftmost of slash, namespace, slash in the path, and none is found only if there is none |
| ContainerdMatcher.CtrPathResolved | src/matchers/containerd.cpp:11-23 | for every `/ns/name`, the name cut at twelve characters is reported exactly when the path neither ends like a systemd unit nor has length 5 or 7, or the name is 64 characters that pass the test for digits |
| LxcMatchers.ResolveLxc | src/matchers/lxc.cpp:10-24 | every substr starts inside the string, and an end of npos means the rest of the path |
| LxcMatchers.LxcPathResolved | src/matchers/lxc.cpp:3-24 | a path printed under any of the three layouts gives back the name put into it, where no marker tried earlier interferes |
| LxcMatchers.LxcSlashPath | src/matchers/lxc.cpp:3-8 | the name is read behind `/lxc/` |
| LxcMatchers.LxcPayloadSlashPath | src/matchers/lxc.cpp:3-8 | the name is read behind `/lxc.payload/` where there is no `/lxc/` |
| LxcMatchers.LxcPayloadDotPath | src/matchers/lxc.cpp:3-8 | the name is read behind `/lxc.payload.` where there is neither |
| LxcMatchers.NoLxcPath | src/matchers/lxc.cpp:10-24 | a path with none of the three markers is left unresolved |
| LxcMatchers.ResolveLibvirtLxc | src/matchers/libvirt_lxc.cpp:3-53 | the three branches agree with their wrap-free reading and no substr starts past the end |
| LxcMatchers.MarkerBeforeDelimiter | src/matchers/libvirt_lxc.cpp:23-39 | the marker and the delimiter at the end of a systemd path cannot overlap |
| LxcMatchers.ResolveLibvirtSystemd | src/matchers/libvirt_lxc.cpp:20-41 | the count wraps exactly when the marker ends where the delimiter begins; the delimiter without its first character is then the id |
| LxcMatchers.LibvirtSystemdPathResolved | src/matchers/libvirt_lxc.cpp:3-41 | the whole matcher gives back the id of a printed systemd path, under either delimiter |
| LxcMatchers.LibvirtPlainPathResolved | src/matchers/libvirt_lxc.cpp:5-18 | a printed non-systemd path gives back its last component |
| LxcMatchers.LibvirtLegacyPathResolved | src/matchers/libvirt_lxc.cpp:43-51 | a legacy path gives back all that follows the marker |
| LxcMatchers.LibvirtPaths | src/matchers/libvirt_lxc.cpp:3-41 | the last component is read before `.libvirt-lxc`, and what follows `-lxc\x2` and one character before `.scope` or `.scope/libvirt`, with the markers written out |
| LxcMatchers.LibvirtOrNot | src/matchers/libvirt_lxc.cpp:3-53 | the legacy marker `/libvirt/lxc/` is always resolved, and a path without any of the three markers never |
| LxcMatchers.ResolveBpm | src/matchers/bpm.cpp:4-28 | the id between marker and ".scope" is accepted exactly when it is not empty and all its characters are allowed |
| LxcMatchers.BpmPathResolved | src/matchers/bpm.cpp:4-28 | a printed bpm path gives back the job id |
| ImageReference.SplitContainerImage | src/matchers/static_container.cpp:4-61 | every image string is split without loss: the parts are those of a well-formed reference that prints as the image |
| ImageReference.PrintInjective | src/matchers/static_container.cpp:22-60 | no string is the print of two well-formed references |
| ImageReference.PartsUnique | src/matchers/static_container.cpp:22-60 | the parts of a printed reference are that reference's and no others |
| ImageReference.SplitPrinted | src/matchers/static_container.cpp:22-60 | splitting inverts printing of host, port, path, tag and digest |
| ImageReference.FullReference | src/matchers/static_container.cpp:22-60 | `host:port/path:tag@digest` gives host and port, the repository with host and port in front of the path, tag and digest |
| ImageReference.HostAndPath | src/matchers/static_container.cpp:22-60 | `host/path` gives the host and the path behind it, without port, tag or digest |
| ImageReference.LocalReference | src/matchers/static_container.cpp:22-60 | `path:tag` without a slash gives no host |
| Matchers.MatcherManager.constructor | src/matchers/matcher.cpp:11-57 | the enabled matchers stand in the order podman, docker, cri, containerd, lxc, libvirt-lxc, bpm; a static engine stands alone, its image split into the parts of its reference |
| Matchers.MatcherManager.MatchCgroup | src/matchers/matcher.cpp:59-72 | the first matcher that resolves the path decides id and metadata; otherwise both keep what they held |
| Matchers.MatchedInfoHasId | src/matchers/matcher.cpp:59-72 | metadata that comes with a match has the matched id, and declares no probe |
| Matchers.FullIdKeyAgrees | src/matchers/matcher.cpp:59-72 | for every layout of an enabled podman, docker or cri engine, every 64-digit id and every head, the key is what the first rival reads from the head, else the worker's short id; so the keys agree exactly when no rival reads another id |
| Matchers.NothingReadFromHead | src/matchers/matcher.cpp:59-72 | a head of at most 70 characters, or without any engine's own prefix, is never read |
| Matchers.PodmanHasNoRival | src/matchers/matcher.cpp:22-26 | podman is asked first and its layouts share one prefix, so the key of its paths always agrees |
| Matchers.NestedPathKeepsOuterId | src/matchers/podman.cpp:6-10 | below a podman cgroup a nested docker path gets the podman container's key |
| Matchers.CtrKeyAgrees | src/matchers/containerd.cpp:9-27 | a ctr path that containerd resolves gets the worker's short id, whatever else is enabled and also under `/lxc/`, exactly when no enabled layout whose own prefix begins the namespace reads another id |
| Matchers.LxcPathAnswered | src/matchers/matcher.cpp:59-72 | a path with an lxc name is answered by lxc exactly if no engine with a listener takes it |
| Matchers.LibvirtPathAnswered | src/matchers/matcher.cpp:59-72 | a path with a libvirt id is answered by libvirt exactly if lxc does not take it either |
| Matchers.BpmPathAnswered | src/matchers/matcher.cpp:59-72 | a path with a bpm job id is answered by bpm exactly if no other engine takes it |
| Matchers.LxcNameReachesLxc | src/matchers/matcher.cpp:37-46 | a path `/lxc/name` with up to 64 characters of name reaches lxc exactly if the name does not pass for 64 digits where docker, cri or containerd is enabled, and has two characters or the look of a systemd unit where containerd is |
| CpuSet.CountCPUSet | go-worker/pkg/container/engine.go:135-162 | the count is the total of the parts modulo 2^64, and zero for the empty list or if any part is malformed |
| CpuSet.TwoDashes | go-worker/pkg/container/engine.go:141-158 | a part with two dashes or more is malformed |
| CpuSet.OneDashOrNone | go-worker/pkg/container/engine.go:141-158 | a part with one dash is malformed exactly if one side is no number; a part without a dash counts one, whatever it holds |
| CpuSet.CountPrinted | go-worker/pkg/container/engine.go:131-162 | on a printed list of any ranges the count is the sum of the sizes exactly when that sum and the bounds of the ranges are int64 values |
| CpuSet.CountBeyondInt64 | go-worker/pkg/container/engine.go:146-156 | a list of one range of two processors beyond int64 counts nothing |
| CpuSet.CountPrintedSet | go-worker/pkg/container/engine.go:131-162 | on a printed list of disjoint ranges the count is the number of processors denoted, on the same condition |
| EventParams.GetSyscallEvtParam | src/caps/parse/parse.cpp:14-33 | the length is read in bounds and the offset is the sum of the preceding lengths modulo 2^32 |
| EventParams.DecodeEncoded | src/caps/parse/parse.cpp:14-33 | for 16-bit and 32-bit lengths, parameter i of an encoded event comes back byte for byte, at the returned position exactly when fewer than 2^32 bytes precede it |
| EventParams.RegionsPartitionPayload | src/caps/parse/parse.cpp:22-32 | the regions of different parameters are disjoint and cover the payload |
| Threads.AcyclicClimbStops | src/plugin.cpp:280-309 | the climb over parents ends on every finite table without a cycle of parents |
| Threads.EndlessClimb | src/plugin.cpp:280-309 | a climb that does not end meets entries only, and no init, for ever |
| Plugin.ContainerPlugin.constructor | src/plugin.cpp:64-161 | the plugin starts with the host entry only, no request, and the matchers of the enabled engines or of the static one |
| Plugin.ContainerPlugin.ComputeContainerIdForThread | src/plugin.cpp:172-210 | the loop over the cgroups stops at the first non-empty id |
| Plugin.ContainerPlugin.FindContainerInit | src/plugin.cpp:280-309 | an init is found exactly when a strict ancestor in the table has vpid 1 and a container id |
| Plugin.ContainerPlugin.WriteThreadCategory | src/plugin.cpp:214-333 | the entry's category is the one the rules give, nothing else in the table changes |
| ContainerInfo.ProbeIsFirstWithCommand | src/container_info.cpp:79-98 | the answer is a kind exactly if the first declared probe equal in executable and all arguments is of that kind |
| ProcessEvents.NonEmptyInOrder | src/plugin.cpp:252-272 | the collected arguments are the non-empty ones, each at the place that the number of non-empty ones before it gives |
| ProcessEvents.OwnCategory | src/plugin.cpp:214-333 | a process that is no init, has no category and inherits none is put in a probe category exactly if its container is known, the first probe equal to its command line is of that kind, and no init is above it |
| ProcessEvents.ProbeDecides | src/plugin.cpp:312-331 | and whatever its category was, such a process gets the category of that kind |
| ProcessEvents.InitOrInherited | src/plugin.cpp:223-243 | without a known container the category stays; else inits are put in the container and children of categorised parents in the parent's category |
| ProcessEvents.UndeclaredIsNoProbe | src/plugin.cpp:274-278 | a process whose command line is no declared probe, in both executable and arguments, is never put in a probe category by its own event |
| Plugin.ContainerPlugin.OnNewProcess | src/plugin.cpp:335-385 | the whole new state, for every thread from which a climb, if one begins, ends: id, cache, sent event, category or request |
| Plugin.ContainerPlugin.ParseAsyncEvent | src/caps/parse/parse.cpp:50-101 | the whole new state for added and removed events; other events and missing payloads change nothing |
| Plugin.ContainerPlugin.ParseContainerEvent | src/caps/parse/parse.cpp:103-128 | the container that the raw event describes is cached and becomes the last one; the asked set stays |
| RawEvents.ContainerEventRoundTrip | src/caps/parse/parse.cpp:106-121 | an encoded container event describes the container that was encoded |
| Plugin.ContainerPlugin.ParseContainerJsonEvent | src/caps/parse/parse.cpp:130-166 | the same for the two JSON events, on decoded metadata |
| Plugin.ContainerPlugin.ParseNewProcessEvent | src/caps/parse/parse.cpp:168-204 | the return value is read from the raw event; a failed call or an unknown thread changes nothing |
| RawEvents.ResultRoundTrip | src/caps/parse/parse.cpp:179-186 | the return value with which an event was encoded is the one read, negative or not |
| Plugin.ContainerPlugin.CaptureOpen | src/caps/listening/listening.cpp:7-33 | every entry is processed in the table's order |
| Plugin.ContainerPlugin.Extract | src/caps/extract/extract.cpp:514-995 | no null metadata is dereferenced, operator[] is used on present keys only, no member changes |
| Plugin.EmptyAddedEvent | src/caps/parse/parse.cpp:66-75 | after an added event without payload, before any container is known, there is no last container |
| PluginState.IdentifiedInfoHasId | src/plugin.cpp:172-210 | metadata that comes out of the cgroup loop has the id that comes out of it |
| PluginState.SuppliedIsNotAsked | src/plugin.cpp:343-384 | a container whose matcher supplied metadata is cached at once and never asked for |
| ProcessEvents.SentIsSupplied | src/plugin.cpp:343-355 | in every run the async events the plugin generates are, in order, about the metadata that matchers supplied |
| ProcessEvents.SentIsCached | src/plugin.cpp:343-355 | a container whose metadata is sent is cached at once under its id, which is the thread's, and not asked for |
| ProcessEvents.StepFrame | src/caps/parse/parse.cpp:50-239 | what no event of a kind touches: metrics, last container, cache, threads, calls and asked set |
| EndToEnd.FirstNamingCgroupDecides | src/plugin.cpp:172-210 | with any matchers, the first cgroup that resolves to a name decides id and metadata, and the id is empty exactly if none does |
| Plugin.ContainerPlugin.Handle | src/caps/parse/parse.cpp:206-239 | every kind of event of a run makes exactly the step that the run theorems are about |
| PluginState.MetricCountsContainers | src/caps/parse/parse.cpp:91-92 | the metric is the number of containers besides the host exactly while the host's key is in the cache |
| ContainerInfo.TypeCodes | src/container_type.h:3-21 | the container types by their numbers |
| ContainerInfo.HostIsNamedHost | src/container_info.h:109-117 | id, full id and name of the host are `host`, and it declares nothing else |
| PluginRuns.PassIsRun | src/caps/listening/listening.cpp:13-31 | the pass over the thread table is a run of process events, so that the theorems about runs hold of it |
| PluginRuns.AskConservation | src/plugin.cpp:373-381 | in every run and for every id, calls made equal calls answered plus the one still open |
| PluginRuns.NotAskedAgain | src/plugin.cpp:373-381 | an id in the asked set is not asked again before an added event answers it |
| PluginRuns.ForeignKeysKnown | src/plugin.cpp:335-385 | in every run each thread's container id is cached, asked for, or was removed |
| PluginRuns.ForeignKeysKnownAfterPass | src/caps/listening/listening.cpp:13-31 | the same after the pass over the initial table and any run |
| PluginRuns.MissingImagesCounted | src/caps/parse/parse.cpp:94-99 | after every run the second metric is the number, modulo 2^64, of async events about containers without an image |
| PluginRuns.CacheRefinesLog | src/caps/parse/parse.cpp:76-89 | after every run a key holds what its last write put there or is absent after a removal, and an entry under a non-empty key has that id |
| PluginRuns.UnwrittenIsAbsent | src/plugin.cpp:343-355 | a key never written is absent |
| PluginRuns.CacheRefinesLogAfterPass | src/caps/listening/listening.cpp:13-31 | after the pass over the initial table and any run, the cache is the replay of the log of both |
| PluginRuns.StepKeepsAcyclic | src/plugin.cpp:280-309 | as long as no cycle of parents is brought into the table, none is there, and every process event can be processed |
| Categories.ProcessKeepsProbesOutside | src/plugin.cpp:214-333 | processing an entry leaves no probe category at or below an init exactly if the entry is not taken for a probe below an init that the climb does not see |
| Categories.StepKeepsProbesOutside | src/plugin.cpp:214-333 | every regular event keeps probes out of containers exactly if it is harmless |
| Categories.SafeRunIsSteady | src/plugin.cpp:214-333 | only runs of harmless events are safe in all their states |
| Categories.ExecKeepsProbesOutside | src/plugin.cpp:280-309 | an exec keeps probes out of containers exactly when it neither makes its process an init above a probe nor lets it be taken for a probe below an unseen init |
| Categories.NoProbeInsideContainer | src/plugin.cpp:214-333 | after the first pass, in any order, and any run of harmless events, reopened captures in any order included, no thread below an init is in a probe category |
| Categories.PlainRunIsSteady | src/plugin.cpp:214-333 | from a safe state and within one capture, fresh thread ids and unchanged cgroups of inits make every event harmless |
| Categories.ReopeningIsSteady | src/caps/listening/listening.cpp:7-38 | every visit of a parents-first pass over newly scanned processes is harmless, whatever the cache holds |
| Capture.PassClassifiesIn | src/caps/listening/listening.cpp:13-31 | a pass in any order, over any table without a cycle and with any cache, leaves of every entry what the recursion over its ancestors makes of it, cut off where they come later and with the metadata cached by then |
| Capture.PassSafety | src/plugin.cpp:280-309 | a pass over newly scanned processes leaves no probe below an init exactly when no probe below an init has its turn before all of them |
| Capture.PassClassifies | src/caps/listening/listening.cpp:13-31 | a parents-first pass computes the recursive classification of every entry, if none is contested |
| Capture.OrderMatters | src/caps/listening/listening.cpp:13-31 | a pass over newly scanned processes computes it exactly when every entry has its turn in time |
| Capture.InTimeAtStart | src/caps/listening/listening.cpp:13-31 | while no probe is known, an entry is in time exactly if it is put in its container when it should be |
| Capture.PassOrderIrrelevant | src/caps/listening/listening.cpp:13-31 | all parents-first orders leave the same thread table exactly when no entry is contested, that is, waits for metadata which a matcher may supply for an unrelated entry before or after its turn, to the effect of another category |
| Capture.ParentsFirstExists | src/caps/listening/listening.cpp:13-31 | every table without a cycle of parents has a parents-first order |
| Capture.SharedIdMakesOrderMatter | src/plugin.cpp:343-384 | an init that waits for an uncached container, whose id a matcher supplies for an entry that is neither above nor below it, is left without a category by one parents-first order and put in its container by another |
| PassExamples.SharedShortId | src/matchers/matcher.cpp:27-50 | with docker and lxc enabled and not containerd, an lxc container named like the short id of a docker container is such an input |
| PassExamples.ChildFirstAtStart | src/caps/listening/listening.cpp:13-31 | at the start, the child of an lxc init visited first is left without a category |
| PassExamples.ChildFirstMisclassifies | src/plugin.cpp:280-309 | after the worker has reported a container with a probe, a reopened capture that visits a child before its init puts it in a probe category below the init |
| PassExamples.JoiningInitLeavesProbe | src/plugin.cpp:214-333 | a process with vpid 1 that joins a container leaves its probing child in the probe category below it |
| ExtractionRuns.ContainerIdIsForeignKey | src/caps/extract/extract.cpp:608-618 | in every run container.id of a thread is its non-empty foreign key, cached or not |
| HostEntry.EmptyMatch | src/matchers/lxc.cpp:17-20 | with any enabled engines, exactly the lxc and libvirt paths without a name that no earlier engine takes resolve to the empty id, with metadata |
| HostEntry.IdentifiedAsNothing | src/plugin.cpp:172-210 | a thread gets metadata under the empty id exactly if some cgroup resolves and all that resolve name nothing |
| HostEntry.IdentifiedEmpty | src/matchers/static_container.cpp:82-91 | in any configuration, a thread gets metadata under the empty id exactly if a static engine is configured with it and some cgroup is not empty, or as above |
| ExtractionRuns.HostIsReported | src/caps/extract/extract.cpp:608-618 | in any configuration, a host thread is reported as host exactly as long as no event wrote or removed the entry under the empty key |
| ExtractionRuns.SandboxIsFound | src/caps/extract/extract.cpp:843-917 | a pod without network metadata is answered from the last container written under the worker's short id of its sandbox |
| ExtractionRuns.MetadataEventHasAnswer | src/caps/extract/extract.cpp:541-549 | after an event with metadata the last container is the whole of it, and every field of one member is answered from it |
| ExtractionRuns.LastIsOfLatest | src/caps/parse/parse.cpp:76-83 | in every run the last container is the metadata of the latest added or legacy event, and there is none exactly before the first |
| ExtractionRuns.OwnPodAnswers | src/caps/extract/extract.cpp:843-917 | a pod with network metadata of its own answers for itself |
| ExtractionRuns.LabelAnswers | src/caps/extract/extract.cpp:843-872 | otherwise a label is the sandbox's, else the container's, else without a value |
| ExtractionRuns.ThreadAnswers | src/caps/extract/extract.cpp:550-606 | an unknown thread extracts nothing, a cached container answers from its metadata, an unknown one with the empty text |
| ExtractionRuns.ContainerEventAnswers | src/caps/extract/extract.cpp:541-549 | a container event is answered as a thread of that container would be, and is never reported as a probe |
| ExtractionRuns.ProbeIsReported | src/caps/extract/extract.cpp:918-965 | a process outside every init that inherits nothing and runs a declared probe is reported by the field of the probe's kind and by neither of the others |
| ExtractionRuns.FlagsOfProcess | src/caps/extract/extract.cpp:918-965 | for a process without a category before, the three flags are exactly the probes it runs |
| ExtractionRuns.NotReportedAsProbe | src/caps/extract/extract.cpp:918-965 | after a first pass in any order, no thread below an init is ever reported as a probe |
| Fetcher.HandleRequest | go-worker/pkg/container/fetcher.go:68-75 | the first engine that answers decides; nothing comes out exactly when none does |
| Worker.WorkerLoop.constructor | go-worker/worker.go:33-60 | done channel first, inotifier second if there is one, then one case for each engine that listens, in order |
| Worker.FetcherHasOneCase | go-worker/worker.go:48-60 | the fetcher's case is the last, and the only one of its kind |
| Worker.ListeningHasCase | go-worker/worker.go:48-60 | exactly the engines that listen have a case |
| Worker.EngineCasesAscend | go-worker/worker.go:48-60 | the cases stand in the order of the engines |
| Worker.WorkerLoop.Dispatch | go-worker/worker.go:62-84 | the first index, and it alone, stops the loop; with an inotifier the second, and it alone, watches and can append a case; every other delivers for the engine whose case it is |
| Pipeline.NextLosesNothing | go-worker/pkg/container/fetcher.go:64-77 | each step of plugin, fetcher, worker, queue and environment keeps every open request accounted for |
| Pipeline.NoRequestLost | go-worker/worker_api.go:104-110 | in every state of every run the open request for an asked id is pending, with the fetcher, queued, unknown to all engines, or was itself made before the fetcher listened |
| Pipeline.DeliveredIsAnswer | go-worker/pkg/container/fetcher.go:68-75 | what is delivered is the answer of the first engine that has one for the id asked for |
| Pipeline.NotDroppedWhileListening | go-worker/worker_api.go:104-110 | once the fetcher listens no call is dropped any more |
| Pipeline.TurnProgresses | go-worker/worker.go:62-84 | while a request is under way fetcher or worker can move, and a rank decreases |
| Pipeline.Settles | go-worker/worker.go:62-84 | fetcher and worker come to rest with the plugin free and every answerable request answered in the queue |
| Pipeline.RequestGetsAnswered | src/caps/parse/parse.cpp:76-83 | a request that an engine can answer is answered by turns of fetcher and worker and one parse: the id leaves the asked set and is cached, with the first engine's answer unless an event about it was queued before |
| Pipeline.TurnStaysDue | go-worker/pkg/container/fetcher.go:64-77 | whatever other step is taken, the turn that is due stays due and possible |
| Pipeline.HeldRequestEnds | go-worker/pkg/container/fetcher.go:68-75 | under any schedule, a request is held for fewer turns than two more than there are engines |
| Pipeline.PendingRequestIsTaken | go-worker/worker_api.go:104-110 | under any schedule, a call waits for no more turns than the request before it has left |
| Pipeline.WorkerTakesTurn | go-worker/worker.go:62-84 | with the initial cases and any added later, exactly one choice of the worker loop passes the fetcher's answer on, and every choice that delivers is a step of the pipeline |
| EndToEnd.AskedByTheWorkersKey | src/plugin.cpp:335-385 | a container that the plugin does not know, named by any cgroup before which none names one, is asked for once, by the worker's short id; turns of fetcher and worker and one parse give the thread's key its metadata |
| EndToEnd.ProcessReplacesHost | src/plugin.cpp:343-355 | a new process replaces the host entry exactly if all its resolving cgroups are paths without a name |
| EndToEnd.EmptyLxcNameReplacesHost | src/matchers/lxc.cpp:17-20 | the cgroup `/lxc/` does so whatever is enabled besides lxc |

## Left out

- Plugin.ContainerPlugin.ParseContainerEvent: requires that its strings end, and its type lies, inside the event; the code reads on regardless.
- Plugin.ContainerPlugin.ParseContainerJsonEvent: takes the decoded metadata; reading and decoding the JSON parameter is left out.
- EventParams.GetSyscallEvtParam: the size of the event header is a parameter, because the SDK header that fixes it is not part of this model; lengths are little-endian.
- Plugin.ContainerPlugin.Extract: stands one `Direct` field for all fields that read a single member; container start time and duration, mounts and probe listings are not modelled.
- Plugin.ContainerPlugin.CaptureOpen: does not model table errors, after which the pass would stop early.
- Pipeline.NoRequestLost: like Worker.WorkerLoop it covers runs up to cancellation only, that is one capture; what closed channels deliver is not covered.
- `AskForContainerInfo`, the fetcher's channel and `goCb` are steps of the relation in Pipeline rather than an object, because several goroutines share them; an event is assumed to marshal to a non-empty string, and getters are not nil.
- The async event that the plugin generates itself is recorded when it is sent; what becomes of it in the queue is covered only as an event of the environment, like those of the engines' own listeners and of the listing at start.
- ContainerdMatcher.Resolve: the regular expression library is represented by its result, the first namespace segment.
- JSON encoding and decoding of metadata: events carry metadata values directly, since the two directions of the code do not use the same layout.
- Calls into engine SDKs: a getter is any function from an id to optional metadata.
- Inotify watching, socket discovery, configuration defaults, logging, tables and vtables of the plugin SDK: plumbing.
- Clearing the exposed containers table at once: only single erasures are events of a run.
