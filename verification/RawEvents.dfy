/** What the plugin reads out of raw events: process results and legacy containers (src/caps/parse/parse.cpp). */
module RawEvents {
  import opened ContainerInfo
  import opened EventParams

  /** The return value in a process event. */
  function Result(evt: seq<Byte>, header: nat, nparams: nat): int
    requires header + Small.Size(nparams) + 8 <= |evt|
  {
    var at := header + Small.Size(nparams);
    Int64Of(evt[at..at + 8])
  }

  function At(evt: seq<Byte>, header: nat, nparams: nat, i: nat): nat
    requires i < nparams && header + Small.Size(nparams) <= |evt|
  {
    ParamAt(evt, header, nparams, Small, i)
  }

  /** What is read of a container event lies inside it. */
  predicate IsContainerEvent(evt: seq<Byte>, header: nat, nparams: nat) {
    && 4 <= nparams && header + Small.Size(nparams) <= |evt|
    && HasNul(evt, At(evt, header, nparams, 0)) && At(evt, header, nparams, 1) + 4 <= |evt|
    && HasNul(evt, At(evt, header, nparams, 2)) && HasNul(evt, At(evt, header, nparams, 3))
  }

  /** The container that a container event describes. */
  function ContainerOf(evt: seq<Byte>, header: nat, nparams: nat): Info
    requires IsContainerEvent(evt, header, nparams)
  {
    var at := At(evt, header, nparams, 1);
    var code := DecodeLength(evt[at..at + 4], Large);
    BareInfo(CString(evt, At(evt, header, nparams, 0)), TypeOfCode(code)).(
      name := CString(evt, At(evt, header, nparams, 2)),
      image := CString(evt, At(evt, header, nparams, 3)))
  }

  method ReadText(evt: seq<Byte>, header: nat, nparams: nat, i: nat) returns (s: string)
    requires i < nparams && header + Small.Size(nparams) <= |evt| && HasNul(evt, At(evt, header, nparams, i))
    ensures s == CString(evt, At(evt, header, nparams, i))
  {
    var len, at := GetSyscallEvtParam(evt, header, nparams, Small, i);
    s := CString(evt, at);
  }

  method ReadType(evt: seq<Byte>, header: nat, nparams: nat, i: nat) returns (tp: ContainerType)
    requires i < nparams && header + Small.Size(nparams) <= |evt| && At(evt, header, nparams, i) + 4 <= |evt|
    ensures var at := At(evt, header, nparams, i); tp == TypeOfCode(DecodeLength(evt[at..at + 4], Large))
  {
    var len, at := GetSyscallEvtParam(evt, header, nparams, Small, i);
    tp := TypeOfCode(DecodeLength(evt[at..at + 4], Large));
  }

  /** The parameters of a container event. */
  function ContainerParams(id: string, code: nat, name: string, image: string): seq<Param>
    requires IsText(id) && IsText(name) && IsText(image) && code < TWO_32
  {
    [TextBytes(id), EncodeLength(code, Large),
     TextBytes(name), TextBytes(image)]
  }

  /** An encoded container event describes the container that was encoded. */
  lemma ContainerEventRoundTrip(header: seq<Byte>, id: string, code: nat, name: string, image: string)
    requires IsText(id) && IsText(name) && IsText(image) && code < TWO_32
    requires |id| < 0xffff && |name| < 0xffff && |image| < 0xffff
    ensures var params := ContainerParams(id, code, name, image);
            && Fit(params, Small)
            && IsContainerEvent(Encode(header, params, Small), |header|, 4)
            && ContainerOf(Encode(header, params, Small), |header|, 4)
               == BareInfo(id, TypeOfCode(code)).(name := name, image := image)
  {
    var params := ContainerParams(id, code, name, image);
    TextRoundTrip(header, params, 0, id);
    TextRoundTrip(header, params, 2, name);
    TextRoundTrip(header, params, 3, image);
    StartIsSmall(params, 1);
    ParamAtEncoded(header, params, Small, 1);
    LengthRoundTrip(code, Large);
  }

  /** The result that a process event was encoded with is the one it is judged by. */
  lemma ResultRoundTrip(header: seq<Byte>, ret: int, rest: seq<Param>)
    requires -0x8000_0000_0000_0000 <= ret < 0x8000_0000_0000_0000
    requires Fit([EncodeInt64(ret)] + rest, Small)
    ensures var params := [EncodeInt64(ret)] + rest;
            var evt := Encode(header, params, Small);
            && |header| + Small.Size(|params|) + 8 <= |evt|
            && Result(evt, |header|, |params|) == ret
  {
    var params := [EncodeInt64(ret)] + rest;
    Int64RoundTrip(ret);
    StartIsSmall(params, 0);
    ParamAtEncoded(header, params, Small, 0);
  }
}
