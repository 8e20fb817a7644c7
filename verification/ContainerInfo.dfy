/** Container metadata and health probes (src/container_info.h, src/container_info.cpp). */
module ContainerInfo {
  datatype ContainerType = Docker | Lxc | LibvirtLxc | Cri | Containerd | Crio | Bpm | Static | Podman | Host | Unknown
                         | OtherType(code: nat)

  /** The value of the C++ enum (src/container_type.h); deprecated and unnamed values keep their number. */
  function TypeOfCode(code: nat): ContainerType {
    if code == 0 then Docker
    else if code == 1 then Lxc
    else if code == 2 then LibvirtLxc
    else if code == 6 then Cri
    else if code == 7 then Containerd
    else if code == 8 then Crio
    else if code == 9 then Bpm
    else if code == 10 then Static
    else if code == 11 then Podman
    else if code == 0xfffe then Host
    else if code == 0xffff then Unknown
    else OtherType(code)
  }

  datatype ProbeType = NoProbe | Healthcheck | LivenessProbe | ReadinessProbe

  datatype HealthProbe = HealthProbe(kind: ProbeType, exe: string, args: seq<string>)

  /** The fields of container_info that some modelled operation reads or writes. */
  datatype Info = Info(
    id: string,
    fullId: string,
    ctype: ContainerType,
    name: string,
    image: string,
    imageRepo: string,
    imageTag: string,
    imageDigest: string,
    probes: seq<HealthProbe>,
    isPodSandbox: bool,
    podSandboxId: string,
    podSandboxLabels: map<string, string>,
    cniResult: string,
    ip: string
  )
  {
    /** match_health_probe: the type of the first probe with this command line. */
    function MatchHealthProbe(exe: string, args: seq<string>): ProbeType {
      FirstProbe(probes, exe, args)
    }
  }

  function FirstProbe(probes: seq<HealthProbe>, exe: string, args: seq<string>): ProbeType {
    if probes == [] then NoProbe
    else if probes[0].exe == exe && probes[0].args == args then probes[0].kind
    else FirstProbe(probes[1..], exe, args)
  }

  /** A container_info of which only the id and the type are known. */
  function BareInfo(id: string, ctype: ContainerType): Info {
    Info(id, "", ctype, "", "", "", "", "", [], false, "", map[], "", "")
  }

  const HOST_CONTAINER_ID := "host"
  const HOST_INFO: Info := BareInfo(HOST_CONTAINER_ID, Host).(fullId := HOST_CONTAINER_ID, name := HOST_CONTAINER_ID)

  /** The probe has this command line: its executable, and all its arguments. */
  predicate IsCommand(p: HealthProbe, exe: string, args: seq<string>) {
    p.exe == exe && p.args == args
  }

  /** A probe is the first declared one with the command line. */
  ghost predicate FirstWithCommand(probes: seq<HealthProbe>, i: int, exe: string, args: seq<string>) {
    0 <= i < |probes| && IsCommand(probes[i], exe, args) && forall j :: 0 <= j < i ==> !IsCommand(probes[j], exe, args)
  }

  /** A command line is a probe of kind k exactly if the first declared probe equal in executable and arguments is. */
  lemma {:induction false} ProbeIsFirstWithCommand(probes: seq<HealthProbe>, exe: string, args: seq<string>, k: ProbeType)
    requires k != NoProbe
    ensures FirstProbe(probes, exe, args) == k <==>
              exists i :: FirstWithCommand(probes, i, exe, args) && probes[i].kind == k
  {
    if probes != [] {
      ProbeIsFirstWithCommand(probes[1..], exe, args, k);
      var rest := probes[1..];
      if i :| FirstWithCommand(rest, i, exe, args) && rest[i].kind == k && !IsCommand(probes[0], exe, args) {
        assert forall j :: 0 < j <= i ==> probes[j] == rest[j - 1];
        assert FirstWithCommand(probes, i + 1, exe, args) && probes[i + 1].kind == k;
      }
      if i :| FirstWithCommand(probes, i, exe, args) && probes[i].kind == k {
        if i > 0 {
          assert forall j :: 0 <= j < i ==> rest[j] == probes[j + 1];
          assert FirstWithCommand(rest, i - 1, exe, args);
        } else {
          assert IsCommand(probes[0], exe, args);
        }
      }
    }
  }

  /** The names of the container types by their numbers. */
  lemma TypeCodes()
    ensures TypeOfCode(0) == Docker && TypeOfCode(1) == Lxc && TypeOfCode(2) == LibvirtLxc
    ensures TypeOfCode(6) == Cri && TypeOfCode(7) == Containerd && TypeOfCode(8) == Crio && TypeOfCode(9) == Bpm
    ensures TypeOfCode(10) == Static && TypeOfCode(11) == Podman
    ensures TypeOfCode(0xfffe) == Host && TypeOfCode(0xffff) == Unknown
    ensures forall n: nat :: n !in {0, 1, 2, 6, 7, 8, 9, 10, 11, 0xfffe, 0xffff} ==> TypeOfCode(n) == OtherType(n)
  {
  }

  /** The host is known by one name throughout, and declares nothing else. */
  lemma HostIsNamedHost()
    ensures HOST_INFO.id == "host" && HOST_INFO.fullId == "host" && HOST_INFO.name == "host" && HOST_INFO.ctype == Host
    ensures HOST_INFO.image == "" && HOST_INFO.probes == [] && !HOST_INFO.isPodSandbox
  {
  }
}
