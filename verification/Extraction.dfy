/** What field extraction answers (src/caps/extract/extract.cpp), on the state of the plugin. */
module Extraction {
  import opened Wrappers
  import opened ContainerInfo
  import opened Threads
  import opened PluginState

  const SHORT_ID_LEN := 12

  /** The events that carry metadata are answered from the last container, all others from the thread. */
  datatype Source = FromContainerEvent | FromThread(tid: int)

  /**
   * Direct stands for each field that is one member of the metadata; the others need the metadata in a
   * second place, or can do without it.
   */
  datatype Field =
    | ContainerId
    | IsHealthcheck | IsLivenessProbe | IsReadinessProbe
    | Direct(read: Info -> string)
    | PodIp | PodCniResult | PodLabel(key: string) | PodLabels

  datatype Value = NoValue | Text(text: string) | Flag(flag: bool) | Labels(labels: map<string, string>)

  predicate NeedsMetadata(f: Field) {
    !(f.ContainerId? || f.IsHealthcheck? || f.IsLivenessProbe? || f.IsReadinessProbe?)
  }

  /** The key of a pod's sandbox container. */
  function SandboxKey(cinfo: Info): string {
    cinfo.podSandboxId[..Min(|cinfo.podSandboxId|, SHORT_ID_LEN)]
  }

  /** The sandbox container of a pod, when it is needed and known. */
  function Sandbox(containers: map<string, Info>, cinfo: Info): Option<Info> {
    var id := SandboxKey(cinfo);
    if cinfo.cniResult == "" && id in containers then Some(containers[id]) else None
  }

  /** The answer for a field that is read from metadata. */
  function FromInfo(containers: map<string, Info>, cinfo: Info, f: Field): Value
    requires NeedsMetadata(f)
  {
    var sandbox := Sandbox(containers, cinfo);
    match f
    case Direct(read) => Text(read(cinfo))
    case PodIp =>
      if cinfo.cniResult != "" then Text(cinfo.ip) else if sandbox.Some? then Text(sandbox.value.ip) else NoValue
    case PodCniResult =>
      if cinfo.cniResult != "" then Text(cinfo.cniResult)
      else if sandbox.Some? then Text(sandbox.value.cniResult) else NoValue
    case PodLabel(key) =>
      if sandbox.Some? && key in sandbox.value.podSandboxLabels then Text(sandbox.value.podSandboxLabels[key])
      else if key in cinfo.podSandboxLabels then Text(cinfo.podSandboxLabels[key])
      else NoValue
    case PodLabels =>
      Labels(if sandbox.Some? then sandbox.value.podSandboxLabels else cinfo.podSandboxLabels)
  }

  /** The answer of extract; None is the return value false, with nothing extracted. */
  function Answer(s: State, src: Source, f: Field): Option<Value>
    requires NeedsMetadata(f) && src.FromContainerEvent? ==> s.last.Some?
  {
    match src
    case FromContainerEvent =>
      Some(if f.ContainerId? then Text(if s.last.Some? then s.last.value.id else "")
           else if NeedsMetadata(f) then FromInfo(s.containers, s.last.value, f)
           else Flag(false))
    case FromThread(tid) =>
      if tid !in s.threads then None
      else
        var th := s.threads[tid];
        Some(match f
          case ContainerId =>
            Text(if th.containerId in s.containers then s.containers[th.containerId].id else th.containerId)
          case IsHealthcheck => Flag(th.category == CatHealthcheck)
          case IsLivenessProbe => Flag(th.category == CatLivenessProbe)
          case IsReadinessProbe => Flag(th.category == CatReadinessProbe)
          case _ =>
            if th.containerId in s.containers then FromInfo(s.containers, s.containers[th.containerId], f) else Text(""))
  }
}
