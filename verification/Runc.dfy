/**
 * Matching a cgroup path against <prefix><id><suffix> layouts (src/matchers/runc.cpp).
 * The specifications speak of mathematical positions; the methods compute with size_t.
 */
module Runc {
  import opened Wrappers
  import opened CppString

  const CONTAINER_ID_LENGTH: SizeT := 64
  const REPORTED_CONTAINER_ID_LENGTH: SizeT := 12

  datatype Layout = Layout(prefix: string, suffix: string)

  predicate HasSuffix(s: string, suffix: string) {
    |suffix| <= |s| && s[|s| - |suffix|..] == suffix
  }

  /** What endswith answers: right but for a string one character shorter than the suffix. */
  predicate EndsWithAnswer(s: string, suffix: string) {
    HasSuffix(s, suffix) || |suffix| == |s| + 1
  }

  /**
   * endswith: the difference of sizes wraps to npos when s is one character shorter than suffix, and
   * rfind answers npos there too, so the answer is then true.
   */
  method EndsWith(s: Str, suffix: Str) returns (r: bool)
    ensures r <==> EndsWithAnswer(s, suffix)
  {
    r := RFind(s, suffix) == Sub(|s|, |suffix|);
    assert Occurs(s, suffix, |s| - |suffix|) <==> HasSuffix(s, suffix);
  }

  /** A path of a systemd unit of the host, as endswith sees it. */
  predicate LooksLikeSystemdUnit(c: string) {
    EndsWithAnswer(c, ".service") || EndsWithAnswer(c, ".slice") || EndsWithAnswer(c, ".scope")
  }

  /** The characters from start on are hexadecimal, but only those before absolute position 64 count. */
  predicate HexGuard(c: string, start: nat) {
    forall i :: start <= i < CONTAINER_ID_LENGTH && i < |c| ==> IsHex(c[i])
  }

  lemma HexGuardIsSearch(c: Str, start: nat)
    requires start <= |c|
    ensures HexGuard(c, start) <==> FindFirstNotHex(c, start) >= CONTAINER_ID_LENGTH
  {
    var r := FindFirstNotHex(c, start);
    if r < CONTAINER_ID_LENGTH {
      assert !IsHex(c[r]);
    }
  }

  /** The id found between start and end, with the id truncated to what is reported. */
  function IdBetween(c: string, start: nat, end: nat, isContainerd: bool): (r: Option<string>)
    requires start <= |c| && end <= |c|
  {
    if end == start + CONTAINER_ID_LENGTH && HexGuard(c, start) then
      Some(c[start..start + REPORTED_CONTAINER_ID_LENGTH])
    else if isContainerd && start < end <= start + CONTAINER_ID_LENGTH && !LooksLikeSystemdUnit(c) then
      Some(c[start..start + Min(end - start, REPORTED_CONTAINER_ID_LENGTH)])
    else
      None
  }

  /** The id that one layout finds in c, on positions that never wrap. */
  function LayoutId(c: string, l: Layout, isContainerd: bool): Option<string> {
    match (LastIndexOf(c, l.prefix), LastIndexOf(c, l.suffix))
    case (Some(p), Some(end)) => IdBetween(c, p + |l.prefix|, end, isContainerd)
    case _ => None
  }

  /** What the two searches find, in size_t, is what LayoutId cuts between. */
  lemma LayoutIdInSizeT(c: Str, l: Layout, isContainerd: bool)
    ensures RFind(c, l.prefix) == NPOS || RFind(c, l.suffix) == NPOS ==> LayoutId(c, l, isContainerd).None?
    ensures RFind(c, l.prefix) != NPOS && RFind(c, l.suffix) != NPOS ==>
              && RFind(c, l.prefix) + |l.prefix| <= |c| && RFind(c, l.suffix) <= |c|
              && LayoutId(c, l, isContainerd)
                 == IdBetween(c, RFind(c, l.prefix) + |l.prefix|, RFind(c, l.suffix), isContainerd)
  {
    RFindIs(c, l.prefix);
    RFindIs(c, l.suffix);
  }

  /** match_one_container_id: start, end and their difference are size_t values. */
  method MatchOneContainerId(c: Str, l: Layout, containerId: string, isContainerd: bool)
    returns (ok: bool, id: string)
    ensures ok == LayoutId(c, l, isContainerd).Some?
    ensures id == if ok then LayoutId(c, l, isContainerd).value else containerId
  {
    ok, id := false, containerId;
    LayoutIdInSizeT(c, l, isContainerd);
    RFindIs(c, l.prefix);
    var startPos := RFind(c, l.prefix);
    if startPos == NPOS {
      return;
    }
    startPos := Add(startPos, |l.prefix|);
    var endPos := RFind(c, l.suffix);
    if endPos == NPOS {
      return;
    }
    ok, id := CutId(c, startPos, endPos, containerId, isContainerd);
  }

  /** The part of match_one_container_id that follows the two searches. */
  method CutId(c: Str, startPos: SizeT, endPos: SizeT, containerId: string, isContainerd: bool)
    returns (ok: bool, id: string)
    requires startPos <= |c| && endPos <= |c|
    ensures ok == IdBetween(c, startPos, endPos, isContainerd).Some?
    ensures id == if ok then IdBetween(c, startPos, endPos, isContainerd).value else containerId
  {
    ok, id := false, containerId;
    var length := Sub(endPos, startPos);
    HexGuardIsSearch(c, startPos);
    if length == CONTAINER_ID_LENGTH && FindFirstNotHex(c, startPos) >= CONTAINER_ID_LENGTH {
      return true, Substr(c, startPos, REPORTED_CONTAINER_ID_LENGTH);
    }
    if length > CONTAINER_ID_LENGTH || length == 0 {
      return;
    }
    if isContainerd {
      ok, id := CutName(c, startPos, length, containerId);
    }
  }

  /** For containerd: ids of any length up to 64, but no systemd units of the host. */
  method CutName(c: Str, startPos: SizeT, length: SizeT, containerId: string) returns (ok: bool, id: string)
    requires 0 < length && startPos + length <= |c|
    ensures ok == !LooksLikeSystemdUnit(c)
    ensures id == if ok then c[startPos..startPos + Min(length, REPORTED_CONTAINER_ID_LENGTH)] else containerId
  {
    var service := EndsWith(c, ".service");
    var slice := EndsWith(c, ".slice");
    var scope := EndsWith(c, ".scope");
    if !service && !slice && !scope {
      var reported := if length >= REPORTED_CONTAINER_ID_LENGTH then REPORTED_CONTAINER_ID_LENGTH else length;
      return true, Substr(c, startPos, reported);
    }
    return false, containerId;
  }

  /**
   * A match by a layout of podman, docker or cri, with all arithmetic modulo 2^64: the last prefix
   * ends where the id begins, the last suffix begins 64 characters on, and twelve are reported.
   */
  lemma MatchIsPlaced(c: string, l: Layout) returns (start: nat)
    requires LayoutId(c, l, false).Some?
    ensures start + CONTAINER_ID_LENGTH <= |c| && |l.prefix| <= start
    ensures LastIndexOf(c, l.prefix) == Some(start - |l.prefix|)
    ensures LastIndexOf(c, l.suffix) == Some(start + CONTAINER_ID_LENGTH)
    ensures LayoutId(c, l, false) == Some(c[start..start + REPORTED_CONTAINER_ID_LENGTH])
  {
    start := LastIndexOf(c, l.prefix).value + |l.prefix|;
  }

  /** The first layout of the table that finds an id. */
  function FirstLayoutId(c: string, layouts: seq<Layout>, isContainerd: bool): Option<string> {
    if layouts == [] then None
    else if LayoutId(c, layouts[0], isContainerd).Some? then LayoutId(c, layouts[0], isContainerd)
    else FirstLayoutId(c, layouts[1..], isContainerd)
  }

  lemma {:induction false} FirstLayoutAt(c: string, layouts: seq<Layout>, isContainerd: bool, i: nat)
    requires i < |layouts| && LayoutId(c, layouts[i], isContainerd).Some?
    requires forall j :: 0 <= j < i ==> LayoutId(c, layouts[j], isContainerd).None?
    ensures FirstLayoutId(c, layouts, isContainerd) == LayoutId(c, layouts[i], isContainerd)
  {
    if i > 0 {
      FirstLayoutAt(c, layouts[1..], isContainerd, i - 1);
    }
  }

  lemma {:induction false} NoLayout(c: string, layouts: seq<Layout>, isContainerd: bool)
    requires forall j :: 0 <= j < |layouts| ==> LayoutId(c, layouts[j], isContainerd).None?
    ensures FirstLayoutId(c, layouts, isContainerd).None?
  {
    if layouts != [] {
      NoLayout(c, layouts[1..], isContainerd);
    }
  }

  /** matches_runc_cgroup: on failure the id handed in comes back unchanged. */
  method MatchesRuncCgroup(c: Str, layouts: seq<Layout>, containerId: string, isContainerd: bool)
    returns (ok: bool, id: string)
    ensures ok == FirstLayoutId(c, layouts, isContainerd).Some?
    ensures id == if ok then FirstLayoutId(c, layouts, isContainerd).value else containerId
  {
    id := containerId;
    for i := 0 to |layouts|
      invariant id == containerId
      invariant forall j :: 0 <= j < i ==> LayoutId(c, layouts[j], isContainerd).None?
    {
      ok, id := MatchOneContainerId(c, layouts[i], id, isContainerd);
      if ok {
        FirstLayoutAt(c, layouts, isContainerd, i);
        return;
      }
    }
    NoLayout(c, layouts, isContainerd);
    ok := false;
  }
}
