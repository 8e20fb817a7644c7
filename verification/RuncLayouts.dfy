/**
 * The layout tables of podman, docker and cri (src/matchers/podman.cpp, docker.cpp, cri.cpp), and what
 * each layout finds on the path that any of them prints around a 64-digit id.
 */
module RuncLayouts {
  import opened Wrappers
  import opened CppString
  import opened Runc

  const ROOT_PODMAN_CGROUP_LAYOUT: seq<Layout> :=
    [Layout("/libpod-", ".scope"), Layout("/libpod-", ".scope/container"), Layout("/libpod-", "")]

  const DOCKER_CGROUP_LAYOUT: seq<Layout> :=
    [Layout("/", ""), Layout("/docker-", ".scope")]

  const CRI_CGROUP_LAYOUT: seq<Layout> :=
    [Layout("/", ""), Layout("/crio-", ""), Layout("/cri-containerd-", ".scope"),
     Layout("/crio-", ".scope"), Layout(":cri-containerd:", ""), Layout("/docker-", ".scope")]

  const SPECIFIC_PREFIXES: set<string> := {"/libpod-", "/cri-containerd-", "/crio-", "/docker-"}

  predicate IsFullId(id: string) {
    |id| == 64 && forall i :: 0 <= i < 64 ==> IsHex(id[i])
  }

  /** 64 characters, none of which a prefix of the tables can end in; a full id is one. */
  predicate IsBody(body: string) {
    |body| == 64 && forall i :: 0 <= i < 64 ==> !IsEdge(body[i])
  }

  /** No engine's own prefix stands in p. */
  predicate FreeOfSpecific(p: string) {
    forall prefix, i :: prefix in SPECIFIC_PREFIXES && 0 <= i <= |p| ==> !Occurs(p, prefix, i)
  }

  // ---- what the tables have in common ----

  predicate Specific(p: string) {
    |p| >= 3 && p[0] == '/' && p[|p| - 1] == '-' && forall i :: 1 <= i < |p| ==> p[i] != '/' && p[i] != ':'
  }

  predicate IsEdge(c: char) {
    c == '/' || c == ':' || c == '-'
  }

  predicate WellPrefixed(p: string) {
    && (|p| == 1 || (|p| >= 3 && (p[1] != 'c' || p[2] != 'o')))
    && (p[0] == '/' || p[0] == ':')
    && IsEdge(p[|p| - 1])
    && (forall i :: 1 <= i < |p| - 1 ==> p[i] != '/')
    && '.' !in p
  }

  predicate WellSuffixed(s: string) {
    && |s| <= 64
    && (forall i :: 0 <= i < |s| ==> (s[i] == '.' <==> i == 0) && s[i] != '-' && s[i] != ':')
    && (forall i :: 0 <= i < |s| && s[i] == '/' ==> i + 2 < |s| && s[i + 1] == 'c' && s[i + 2] == 'o')
  }

  predicate WellShaped(l: Layout) {
    WellPrefixed(l.prefix) && WellSuffixed(l.suffix) && (l.suffix != "" ==> Specific(l.prefix))
  }

  /** Prefixes that end in the same character are both specific or equal, and a specific one begins no other. */
  predicate Compatible(p: string, p2: string) {
    && p != "" && p2 != ""
    && (p[|p| - 1] == p2[|p2| - 1] ==> p == p2 || (Specific(p) && Specific(p2)))
    && (Specific(p2) && p2 <= p ==> p2 == p)
  }

  predicate InTables(l: Layout) {
    l in ROOT_PODMAN_CGROUP_LAYOUT || l in DOCKER_CGROUP_LAYOUT || l in CRI_CGROUP_LAYOUT
  }

  const PREFIXES: set<string> := SPECIFIC_PREFIXES + {"/", ":cri-containerd:"}
  const SUFFIXES: set<string> := {"", ".scope", ".scope/container"}

  lemma TablesPartsOf(l: Layout)
    requires InTables(l)
    ensures l.prefix in PREFIXES && l.suffix in SUFFIXES && (l.suffix != "" ==> l.prefix in SPECIFIC_PREFIXES)
  {
  }

  lemma SpecificPrefixes()
    ensures forall p :: p in SPECIFIC_PREFIXES ==> Specific(p)
  {
    assert Specific("/libpod-") && Specific("/cri-containerd-") && Specific("/crio-") && Specific("/docker-");
  }

  lemma PrefixesWellShaped(p: string)
    requires p in PREFIXES
    ensures WellPrefixed(p)
  {
  }

  lemma SuffixesWellShaped(s: string)
    requires s in SUFFIXES
    ensures WellSuffixed(s)
  {
  }

  lemma TablesWellShaped(l: Layout)
    requires InTables(l)
    ensures WellShaped(l)
  {
    TablesPartsOf(l);
    PrefixesWellShaped(l.prefix);
    SuffixesWellShaped(l.suffix);
    SpecificPrefixes();
  }

  lemma PrefixesCompatible(p: string, p2: string)
    requires p in PREFIXES && p2 in PREFIXES
    ensures Compatible(p, p2)
  {
    SpecificPrefixes();
    assert p != "" && p2 != "";
    assert "/"[0] == '/' && ":cri-containerd:"[15] == ':';
    if p2 <= p && p2 in SPECIFIC_PREFIXES {
      assert p[1] == p2[1] && p[4] == p2[4];
    }
  }

  // ---- one layout's path under another layout ----

  function LayoutPath(head: string, l: Layout, id: string): string {
    head + l.prefix + id + l.suffix
  }

  /** Where the characters of a path come from. */
  lemma CharsOfPath(head: string, l: Layout, id: string, i: int)
    requires 0 <= i < |LayoutPath(head, l, id)|
    ensures var c, h, q := LayoutPath(head, l, id), |head|, |head| + |l.prefix|;
            c[i] == if i < h then head[i]
                    else if i < q then l.prefix[i - h]
                    else if i < q + |id| then id[i - q]
                    else l.suffix[i - q - |id|]
  {
  }

  /** No prefix of the tables ends inside the id. */
  lemma PrefixEndsOutsideId(head: string, l: Layout, id: string, p: string, r: int)
    requires IsBody(id) && |p| >= 1 && IsEdge(p[|p| - 1]) && Occurs(LayoutPath(head, l, id), p, r)
    ensures var q := |head| + |l.prefix|; r + |p| <= q || q + 64 < r + |p|
  {
    var c := LayoutPath(head, l, id);
    var end := r + |p| - 1;
    assert c[r..r + |p|][|p| - 1] == c[end];
    CharsOfPath(head, l, id, end);
  }

  /** A prefix that ends in '-' does not end in a suffix either. */
  lemma DashEndsBeforeId(head: string, l: Layout, id: string, p: string, r: int)
    requires IsBody(id) && WellShaped(l) && |p| >= 1 && p[|p| - 1] == '-' && Occurs(LayoutPath(head, l, id), p, r)
    ensures r + |p| <= |head| + |l.prefix|
  {
    PrefixEndsOutsideId(head, l, id, p, r);
    var c := LayoutPath(head, l, id);
    var end := r + |p| - 1;
    assert c[r..r + |p|][|p| - 1] == c[end];
    CharsOfPath(head, l, id, end);
  }

  /** An occurrence of a specific prefix holds a slash or colon only as its first character. */
  lemma EdgeOnlyInFront(c: string, p: string, r: int, k: int)
    requires Specific(p) && Occurs(c, p, r) && 0 <= k < |c| && (c[k] == '/' || c[k] == ':')
    ensures k <= r || r + |p| <= k
  {
    forall j | r < j < r + |p|
      ensures c[j] != '/' && c[j] != ':'
    {
      assert c[j] == c[r..r + |p|][j - r] == p[j - r];
    }
  }

  /** A specific prefix that is neither in the head nor a proper beginning of the layout's ends at the id. */
  lemma SpecificEndsAtId(head: string, l: Layout, id: string, p: string, r: int)
    requires IsFullId(id) && WellShaped(l) && Specific(p) && (p <= l.prefix ==> p == l.prefix)
    requires Occurs(LayoutPath(head, l, id), p, r) && !Occurs(head, p, r)
    ensures r + |p| == |head| + |l.prefix|
  {
    var c := LayoutPath(head, l, id);
    var h, q := |head|, |head| + |l.prefix|;
    DashEndsBeforeId(head, l, id, p, r);
    assert c == head + (l.prefix + id + l.suffix);
    if r + |p| <= h {
      OccursInLeft(head, l.prefix + id + l.suffix, p, r);
    }
    CharsOfPath(head, l, id, h);
    EdgeOnlyInFront(c, p, r, h);
    assert c[r..r + |p|][0] == c[r];
    CharsOfPath(head, l, id, r);
    assert r == h;
    assert c[h..q] == l.prefix;
    assert c[h..h + |p|] == l.prefix[..|p|];
  }

  lemma OwnPrefixIsLast(head: string, l: Layout, id: string)
    requires IsBody(id) && WellShaped(l)
    ensures LastIndexOf(LayoutPath(head, l, id), l.prefix) == Some(|head|)
  {
    var c := LayoutPath(head, l, id);
    var h := |head|;
    assert c[h..h + |l.prefix|] == l.prefix;
    forall r | 0 <= r && Occurs(c, l.prefix, r)
      ensures r <= h
    {
      PrefixEndsOutsideId(head, l, id, l.prefix, r);
      if l.suffix != "" {
        DashEndsBeforeId(head, l, id, l.prefix, r);
      }
    }
    LastIs(c, l.prefix, h);
  }

  /**
   * What a layout makes of its own path around any 64 characters other than slash, colon and dash: only
   * those of them that lie before absolute position 64 have to be hexadecimal.
   */
  lemma HexTestIsAbsolute(head: string, l: Layout, body: string)
    requires IsBody(body) && WellShaped(l)
    ensures LayoutId(LayoutPath(head, l, body), l, false) ==
            if forall i :: 0 <= i < 64 && |head| + |l.prefix| + i < 64 ==> IsHex(body[i])
            then Some(body[..12]) else None
  {
    var c := LayoutPath(head, l, body);
    var q := |head| + |l.prefix|;
    OwnPrefixIsLast(head, l, body);
    assert c[q + 64..] == l.suffix;
    LastIs(c, l.suffix, q + 64);
    assert forall i :: q <= i < q + 64 ==> c[i] == body[i - q];
    assert forall i :: 0 <= i < 64 ==> body[i] == c[q + i];
    assert c[q..q + 12] == body[..12];
  }

  // ---- every layout on the path of a full id ----

  /** l2 reads the id from the path of l: the same prefix, and a suffix that l's begins with. */
  predicate OnPath(l2: Layout, l: Layout) {
    l2.prefix == l.prefix && (l2.suffix == l.suffix || (l2.suffix != "" && l2.suffix <= l.suffix))
  }

  /** l2 looks past the path of l, at what stands before it. */
  predicate Rival(l2: Layout, l: Layout) {
    l2.prefix != l.prefix && l2.suffix != "" && !(l2.suffix <= l.suffix)
  }

  /** Two prefixes of the tables that end where the id begins are the same. */
  lemma SamePlaceSamePrefix(head: string, l: Layout, id: string, p: string)
    requires IsFullId(id) && WellShaped(l) && WellPrefixed(p) && Compatible(l.prefix, p)
    requires Occurs(LayoutPath(head, l, id), p, |head| + |l.prefix| - |p|)
    ensures p == l.prefix
  {
    var c := LayoutPath(head, l, id);
    var h, r := |head|, |head| + |l.prefix| - |p|;
    PartsOnPath(head, l, id);
    CharOfOccurrence(c, p, r, |p| - 1);
    CharOfOccurrence(c, l.prefix, h, |l.prefix| - 1);
    if Specific(p) && Specific(l.prefix) {
      CharOfOccurrence(c, p, r, 0);
      CharOfOccurrence(c, l.prefix, h, 0);
      EdgeOnlyInFront(c, p, r, h);
      EdgeOnlyInFront(c, l.prefix, h, r);
    }
  }

  /** The four parts of a path, where they stand. */
  lemma PartsOnPath(head: string, l: Layout, id: string)
    requires |id| == 64
    ensures var c, h, q := LayoutPath(head, l, id), |head|, |head| + |l.prefix|;
            && |c| == q + 64 + |l.suffix|
            && c[..h] == head && c[h..q] == l.prefix && c[q..q + 64] == id && c[q + 64..] == l.suffix
            && Occurs(c, l.prefix, h)
  {
  }

  /** The specific prefix of another layout stands on the path where it stands in the head. */
  lemma RivalPrefixInHead(head: string, l: Layout, id: string, p: string)
    requires IsFullId(id) && WellShaped(l) && WellPrefixed(p) && Specific(p) && p != l.prefix && Compatible(l.prefix, p)
    ensures LastIndexOf(LayoutPath(head, l, id), p) == LastIndexOf(head, p)
  {
    var c := LayoutPath(head, l, id);
    assert c == head + (l.prefix + id + l.suffix);
    forall r
      ensures Occurs(c, p, r) <==> Occurs(head, p, r)
    {
      if r + |p| <= |head| {
        OccursInLeft(head, l.prefix + id + l.suffix, p, r);
      } else if Occurs(c, p, r) {
        SpecificEndsAtId(head, l, id, p, r);
        SamePlaceSamePrefix(head, l, id, p);
      }
    }
    SameLast(c, head, p);
  }

  /** Where a suffix of the tables can end behind the head: only where it stands behind the id. */
  lemma SuffixBehindId(head: string, l: Layout, id: string, suffix: string, r: int)
    requires IsFullId(id) && WellShaped(l) && WellSuffixed(suffix) && suffix != ""
    requires Occurs(LayoutPath(head, l, id), suffix, r) && |head| < r + |suffix|
    ensures r == |head| + |l.prefix| + 64 && suffix <= l.suffix
  {
    var c := LayoutPath(head, l, id);
    CharOfOccurrence(c, suffix, r, 0);
    if r < |head| {
      SuffixNotAcross(head, l, id, suffix, r);
    } else {
      CharsOfPath(head, l, id, r);
      PartsOnPath(head, l, id);
      assert c[r..r + |suffix|] == l.suffix[..|suffix|];
    }
  }

  /** No suffix begins in the head and ends behind it. */
  lemma SuffixNotAcross(head: string, l: Layout, id: string, suffix: string, r: int)
    requires IsFullId(id) && WellShaped(l) && WellSuffixed(suffix)
    requires r < |head| < r + |suffix|
    ensures !Occurs(LayoutPath(head, l, id), suffix, r)
  {
    var c, h := LayoutPath(head, l, id), |head|;
    if Occurs(c, suffix, r) {
      CharOfOccurrence(c, suffix, r, h - r);
      CharsOfPath(head, l, id, h);
      CharOfOccurrence(c, suffix, r, h - r + 1);
      CharOfOccurrence(c, suffix, r, h - r + 2);
      CharsOfPath(head, l, id, h + 1);
      CharsOfPath(head, l, id, h + 2);
    }
  }

  lemma RivalSuffixInHead(head: string, l: Layout, id: string, suffix: string)
    requires IsFullId(id) && WellShaped(l) && WellSuffixed(suffix) && suffix != "" && !(suffix <= l.suffix)
    ensures LastIndexOf(LayoutPath(head, l, id), suffix) == LastIndexOf(head, suffix)
  {
    var c := LayoutPath(head, l, id);
    assert c == head + (l.prefix + id + l.suffix);
    forall r
      ensures Occurs(c, suffix, r) <==> Occurs(head, suffix, r)
    {
      if r + |suffix| <= |head| {
        OccursInLeft(head, l.prefix + id + l.suffix, suffix, r);
      } else if Occurs(c, suffix, r) {
        SuffixBehindId(head, l, id, suffix, r);
      }
    }
    SameLast(c, head, suffix);
  }

  /** What is cut out of the head does not depend on what follows the head. */
  lemma CutInHead(head: string, c: string, start: nat, end: nat)
    requires |head| <= |c| && c[..|head|] == head && start <= |head| && end <= |head|
    ensures IdBetween(c, start, end, false) == IdBetween(head, start, end, false)
  {
    if end == start + CONTAINER_ID_LENGTH {
      assert forall i :: 0 <= i < |head| ==> c[i] == c[..|head|][i];
      assert c[start..start + 12] == head[start..start + 12];
    }
  }

  /** So a rival reads from the path what it reads from the head alone. */
  lemma RivalReadsHead(head: string, l: Layout, id: string, l2: Layout)
    requires IsFullId(id) && WellShaped(l) && WellShaped(l2) && Compatible(l.prefix, l2.prefix) && Rival(l2, l)
    ensures LayoutId(LayoutPath(head, l, id), l2, false) == LayoutId(head, l2, false)
  {
    RivalPrefixInHead(head, l, id, l2.prefix);
    RivalSuffixInHead(head, l, id, l2.suffix);
    PartsOnPath(head, l, id);
    match (LastIndexOf(head, l2.prefix), LastIndexOf(head, l2.suffix))
    case (Some(p), Some(end)) => CutInHead(head, LayoutPath(head, l, id), p + |l2.prefix|, end);
    case _ =>
  }

  lemma OnPathReadsId(head: string, l: Layout, id: string, l2: Layout)
    requires IsFullId(id) && WellShaped(l) && WellShaped(l2) && OnPath(l2, l)
    ensures LayoutId(LayoutPath(head, l, id), l2, false) == Some(id[..12])
  {
    var c, q := LayoutPath(head, l, id), |head| + |l.prefix|;
    OwnPrefixIsLast(head, l, id);
    SuffixStandsBehindId(head, l, id, l2.suffix);
    PartsOnPath(head, l, id);
    StartOfSlice(c, q, q + 64, 12);
  }

  lemma SuffixStandsBehindId(head: string, l: Layout, id: string, suffix: string)
    requires IsFullId(id) && WellShaped(l) && WellSuffixed(suffix)
    requires suffix == l.suffix || (suffix != "" && suffix <= l.suffix)
    ensures LastIndexOf(LayoutPath(head, l, id), suffix) == Some(|head| + |l.prefix| + 64)
  {
    var c, e := LayoutPath(head, l, id), |head| + |l.prefix| + 64;
    PartsOnPath(head, l, id);
    if suffix == "" {
      EmptyIsLast(c);
    } else {
      assert c[e..e + |suffix|] == c[e..][..|suffix|];
      forall r | e < r
        ensures !Occurs(c, suffix, r)
      {
        if Occurs(c, suffix, r) {
          SuffixBehindId(head, l, id, suffix, r);
        }
      }
      LastIs(c, suffix, e);
    }
  }

  /** A layout that neither reads the id nor looks past the path finds nothing. */
  lemma OthersFindNothing(head: string, l: Layout, id: string, l2: Layout)
    requires IsFullId(id) && WellShaped(l) && WellShaped(l2) && Compatible(l.prefix, l2.prefix)
    requires !OnPath(l2, l) && !Rival(l2, l)
    ensures LayoutId(LayoutPath(head, l, id), l2, false).None?
  {
    if LayoutId(LayoutPath(head, l, id), l2, false).Some? {
      var start := MatchIsPlaced(LayoutPath(head, l, id), l2);
      FiringEndsAtId(head, l, id, l2, start);
      SamePlaceSamePrefix(head, l, id, l2.prefix);
    }
  }

  lemma FiringEndsAtId(head: string, l: Layout, id: string, l2: Layout, start: nat)
    requires IsFullId(id) && WellShaped(l) && WellShaped(l2) && !OnPath(l2, l) && !Rival(l2, l)
    requires |l2.prefix| <= start && start + 64 <= |LayoutPath(head, l, id)|
    requires LastIndexOf(LayoutPath(head, l, id), l2.prefix) == Some(start - |l2.prefix|)
    requires LastIndexOf(LayoutPath(head, l, id), l2.suffix) == Some(start + 64)
    ensures start == |head| + |l.prefix| && l2.prefix != l.prefix
  {
    var c, q := LayoutPath(head, l, id), |head| + |l.prefix|;
    PartsOnPath(head, l, id);
    if l2.suffix == "" {
      EmptyIsLast(c);
      PrefixEndsOutsideId(head, l, id, l2.prefix, start - |l2.prefix|);
    } else if l2.prefix == l.prefix {
      OwnPrefixIsLast(head, l, id);
      SuffixBehindId(head, l, id, l2.suffix, q + 64);
    } else {
      SuffixStandsBehindId(head, l, id, l2.suffix);
    }
  }

  /** What any layout of the tables makes of the path of a 64-digit id under any layout of the tables. */
  lemma LayoutOnPath(head: string, l: Layout, id: string, l2: Layout)
    requires IsFullId(id) && InTables(l) && InTables(l2)
    ensures LayoutId(LayoutPath(head, l, id), l2, false) == Reading(head, l, id, l2)
  {
    TablesPartsOf(l);
    TablesPartsOf(l2);
    TablesWellShaped(l);
    TablesWellShaped(l2);
    PrefixesCompatible(l.prefix, l2.prefix);
    ShapedLayoutOnPath(head, l, id, l2);
  }

  function Reading(head: string, l: Layout, id: string, l2: Layout): Option<string>
    requires IsFullId(id)
  {
    if OnPath(l2, l) then Some(id[..12]) else if Rival(l2, l) then LayoutId(head, l2, false) else None
  }

  lemma ShapedLayoutOnPath(head: string, l: Layout, id: string, l2: Layout)
    requires IsFullId(id) && WellShaped(l) && WellShaped(l2) && Compatible(l.prefix, l2.prefix)
    ensures LayoutId(LayoutPath(head, l, id), l2, false) == Reading(head, l, id, l2)
  {
    if OnPath(l2, l) {
      OnPathReadsId(head, l, id, l2);
    } else if Rival(l2, l) {
      RivalReadsHead(head, l, id, l2);
    } else {
      OthersFindNothing(head, l, id, l2);
    }
  }

  /** The rivals that come before the first layout that reads the id. */
  function RivalsBefore(layouts: seq<Layout>, l: Layout): (r: seq<Layout>)
    ensures forall k :: 0 <= k < |r| ==> r[k] in layouts && Rival(r[k], l)
  {
    if layouts == [] || OnPath(layouts[0], l) then []
    else (if Rival(layouts[0], l) then [layouts[0]] else []) + RivalsBefore(layouts[1..], l)
  }

  ghost predicate SomeOnPath(layouts: seq<Layout>, l: Layout) {
    exists k :: 0 <= k < |layouts| && OnPath(layouts[k], l)
  }

  /** A list of layouts on that path: the first rival that fires on the head decides, then the id is read. */
  lemma {:induction false} ListOnPath(head: string, l: Layout, id: string, layouts: seq<Layout>)
    requires IsFullId(id)
    requires forall k :: 0 <= k < |layouts| ==>
      LayoutId(LayoutPath(head, l, id), layouts[k], false) == Reading(head, l, id, layouts[k])
    ensures FirstLayoutId(LayoutPath(head, l, id), layouts, false) ==
            var before := FirstLayoutId(head, RivalsBefore(layouts, l), false);
            if before.Some? then before else if SomeOnPath(layouts, l) then Some(id[..12]) else None
  {
    if layouts != [] {
      var first, rest := layouts[0], layouts[1..];
      assert LayoutId(LayoutPath(head, l, id), first, false) == Reading(head, l, id, first);
      ListOnPath(head, l, id, rest);
      SomeOnPathOfCons(layouts, l);
      if !OnPath(first, l) {
        FirstLayoutOfCons(head, first, RivalsBefore(rest, l));
      }
    }
  }

  lemma SomeOnPathOfCons(layouts: seq<Layout>, l: Layout)
    requires layouts != []
    ensures SomeOnPath(layouts, l) <==> OnPath(layouts[0], l) || SomeOnPath(layouts[1..], l)
  {
    assert forall k :: 0 < k < |layouts| ==> layouts[k] == layouts[1..][k - 1];
    if SomeOnPath(layouts[1..], l) {
      var k :| 0 <= k < |layouts[1..]| && OnPath(layouts[1..][k], l);
      assert OnPath(layouts[k + 1], l);
    }
  }

  lemma FirstLayoutOfCons(c: string, l: Layout, rest: seq<Layout>)
    ensures FirstLayoutId(c, [l] + rest, false) ==
            if LayoutId(c, l, false).Some? then LayoutId(c, l, false) else FirstLayoutId(c, rest, false)
    ensures [] + rest == rest
  {
    assert ([l] + rest)[1..] == rest;
  }
}
