/** The containerd matcher (src/matchers/containerd.cpp). */
module ContainerdMatcher {
  import opened Wrappers
  import opened CppString
  import opened Runc

  predicate IsAlnum(c: char) {
    'A' <= c <= 'Z' || 'a' <= c <= 'z' || '0' <= c <= '9'
  }

  predicate IsSeparator(c: char) {
    c == '.' || c == '_' || c == '-'
  }

  /** Runs of letters and digits joined by single separators. */
  predicate IsNamespace(s: string) {
    && s != ""
    && IsAlnum(s[0])
    && IsAlnum(s[|s| - 1])
    && (forall i :: 0 <= i < |s| ==> IsAlnum(s[i]) || IsSeparator(s[i]))
    && (forall i :: 0 < i < |s| ==> IsAlnum(s[i - 1]) || IsAlnum(s[i]))
  }

  /** The first "/namespace/" segment at position from or later, slashes included. */
  function FirstNamespace(c: string, from: nat): Option<string>
    decreases |c| - from
  {
    match FirstFrom(c, "/", from)
    case None => None
    case Some(i) =>
      match FirstFrom(c, "/", i + 1)
      case None => None
      case Some(j) =>
        if IsNamespace(c[i + 1..j]) then Some(c[i..j + 1]) else FirstNamespace(c, j)
  }

  function ContainerdId(c: string): Option<string> {
    match FirstNamespace(c, 0)
    case None => None
    case Some(ns) => LayoutId(c, Layout(ns, ""), true)
  }

  method Resolve(c: Str, containerId: string) returns (ok: bool, id: string)
    ensures ok == ContainerdId(c).Some?
    ensures id == if ok then ContainerdId(c).value else containerId
  {
    var found := FirstNamespace(c, 0);
    if found.Some? {
      var layouts := [Layout(found.value, "")];
      ok, id := MatchesRuncCgroup(c, layouts, containerId, true);
    } else {
      ok, id := false, containerId;
    }
  }

  // ---- the path /namespace/name that ctr uses ----

  function CtrPath(ns: string, name: string): string {
    "/" + ns + "/" + name
  }

  predicate IsCtrName(name: string) {
    1 <= |name| <= 64 && '/' !in name
  }

  lemma SlashesOfCtrPath(ns: string, name: string, i: int)
    requires IsNamespace(ns) && IsCtrName(name) && 0 <= i < |CtrPath(ns, name)|
    ensures CtrPath(ns, name)[i] == '/' <==> i == 0 || i == |ns| + 1
  {
    var c := CtrPath(ns, name);
    if 0 < i <= |ns| {
      assert c[i] == ns[i - 1];
    } else if i > |ns| + 1 {
      assert c[i] == name[i - |ns| - 2];
    }
  }

  lemma NamespaceOfCtrPath(ns: string, name: string)
    requires IsNamespace(ns) && IsCtrName(name)
    ensures FirstNamespace(CtrPath(ns, name), 0) == Some("/" + ns + "/")
  {
    var c := CtrPath(ns, name);
    assert Occurs(c, "/", 0);
    FirstIs(c, "/", 0, 0);
    assert Occurs(c, "/", |ns| + 1);
    forall j | 1 <= j < |ns| + 1
      ensures !Occurs(c, "/", j)
    {
      SlashesOfCtrPath(ns, name, j);
      assert c[j] != '/';
      assert c[j..j + 1][0] == c[j];
    }
    FirstIs(c, "/", 1, |ns| + 1);
    assert c[1..|ns| + 1] == ns;
    assert c[0..|ns| + 2] == "/" + ns + "/";
  }

  lemma NamespaceOccursOnce(ns: string, name: string)
    requires IsNamespace(ns) && IsCtrName(name)
    ensures LastIndexOf(CtrPath(ns, name), "/" + ns + "/") == Some(0)
  {
    var c, pat := CtrPath(ns, name), "/" + ns + "/";
    assert c[0..|pat|] == pat;
    forall j | 0 <= j && Occurs(c, pat, j)
      ensures j == 0
    {
      CharOfOccurrence(c, pat, j, 0);
      CharOfOccurrence(c, pat, j, |ns| + 1);
      SlashesOfCtrPath(ns, name, j);
      SlashesOfCtrPath(ns, name, j + |ns| + 1);
    }
    LastIs(c, pat, 0);
  }

  /** A ctr path ends like a systemd unit exactly when its name does, or when endswith wraps. */
  lemma UnitLookOfCtrPath(ns: string, name: string)
    requires IsNamespace(ns) && IsCtrName(name)
    ensures LooksLikeSystemdUnit(CtrPath(ns, name)) <==>
              || HasSuffix(name, ".service") || HasSuffix(name, ".slice") || HasSuffix(name, ".scope")
              || |CtrPath(ns, name)| in {5, 7}
  {
    SuffixOfCtrPath(ns, name, ".service");
    SuffixOfCtrPath(ns, name, ".slice");
    SuffixOfCtrPath(ns, name, ".scope");
  }

  lemma SuffixOfCtrPath(ns: string, name: string, suffix: string)
    requires '/' !in suffix
    ensures HasSuffix(CtrPath(ns, name), suffix) <==> HasSuffix(name, suffix)
  {
    var c := CtrPath(ns, name);
    if |suffix| <= |name| {
      assert c[|c| - |suffix|..] == name[|name| - |suffix|..];
    } else if |suffix| <= |c| {
      assert c[|c| - |suffix|..][|suffix| - |name| - 1] == c[|ns| + 1] == '/';
    }
  }

  /**
   * The containerd matcher reports the name, cut at twelve characters, for exactly the ctr paths that
   * do not end like a systemd unit and whose length is not one that makes endswith wrap; a name of 64
   * characters that passes the hexadecimal test is reported in any case.
   */
  lemma CtrPathResolved(ns: string, name: string)
    requires IsNamespace(ns) && IsCtrName(name)
    ensures var c := CtrPath(ns, name);
            var unit := HasSuffix(name, ".service") || HasSuffix(name, ".slice") || HasSuffix(name, ".scope");
            ContainerdId(c) ==
            if (!unit && |c| !in {5, 7}) || (|name| == 64 && HexGuard(c, |ns| + 2))
            then Some(name[..Min(|name|, 12)]) else None
  {
    var c := CtrPath(ns, name);
    CtrPathLayout(ns, name);
    UnitLookOfCtrPath(ns, name);
    assert c[|ns| + 2..] == name;
    IdAtEnd(c, |ns| + 2, name);
  }

  /** The id that begins at start and ends with the path. */
  lemma IdAtEnd(c: string, start: nat, name: string)
    requires start + |name| == |c| && c[start..] == name && 1 <= |name| <= 64
    ensures IdBetween(c, start, |c|, true) ==
            if !LooksLikeSystemdUnit(c) || (|name| == 64 && HexGuard(c, start)) then Some(name[..Min(|name|, 12)]) else None
  {
    var n := Min(|name|, 12);
    assert c[start..start + n] == c[start..][..n];
  }

  lemma CtrPathLayout(ns: string, name: string)
    requires IsNamespace(ns) && IsCtrName(name)
    ensures var c := CtrPath(ns, name); ContainerdId(c) == IdBetween(c, |ns| + 2, |c|, true)
  {
    NamespaceOfCtrPath(ns, name);
    NamespaceOccursOnce(ns, name);
    EmptyIsLast(CtrPath(ns, name));
  }

  // ---- the regular expression ----

  /** A run of one or more letters and digits of ASCII. */
  predicate IsRun(s: string) {
    s != "" && forall i :: 0 <= i < |s| ==>
      48 <= s[i] as int <= 57 || 65 <= s[i] as int <= 90 || 97 <= s[i] as int <= 122
  }

  /** [A-Za-z0-9]+(?:[._-][A-Za-z0-9]+)*: a run, or a run, one of the three separators, and such a string again. */
  lemma NamespaceIsRuns(s: string)
    ensures IsNamespace(s) <==>
              || IsRun(s)
              || exists k :: 0 <= k < |s| && IsRun(s[..k]) && (s[k] == '.' || s[k] == '_' || s[k] == '-') && IsNamespace(s[k + 1..])
  {
    if IsNamespace(s) {
      FirstRun(s);
    }
    if k :| 0 <= k < |s| && IsRun(s[..k]) && (s[k] == '.' || s[k] == '_' || s[k] == '-') && IsNamespace(s[k + 1..]) {
      RunThenNamespace(s, k);
    }
  }

  lemma RunThenNamespace(s: string, k: nat)
    requires k < |s| && IsRun(s[..k]) && (s[k] == '.' || s[k] == '_' || s[k] == '-') && IsNamespace(s[k + 1..])
    ensures IsNamespace(s)
  {
    var rest := s[k + 1..];
    assert forall i :: 0 <= i < k ==> s[i] == s[..k][i];
    assert forall i :: k < i < |s| ==> s[i] == rest[i - k - 1];
    forall i | 0 < i < |s|
      ensures IsAlnum(s[i - 1]) || IsAlnum(s[i])
    {
      if i > k + 1 {
        assert IsAlnum(rest[i - k - 2]) || IsAlnum(rest[i - k - 1]);
      }
    }
  }

  lemma FirstRun(s: string)
    requires IsNamespace(s)
    ensures IsRun(s) || exists k :: 0 <= k < |s| && IsRun(s[..k]) && (s[k] == '.' || s[k] == '_' || s[k] == '-') && IsNamespace(s[k + 1..])
  {
    var k := 1;
    while k < |s| && IsAlnum(s[k])
      invariant 1 <= k <= |s|
      invariant forall i :: 0 <= i < k ==> IsAlnum(s[i])
    {
      k := k + 1;
    }
    if k < |s| {
      assert IsRun(s[..k]) && IsSeparator(s[k]);
      assert k < |s| - 1 && IsAlnum(s[k + 1]);
      RestIsNamespace(s, k);
    }
  }

  lemma RestIsNamespace(s: string, k: nat)
    requires IsNamespace(s) && 0 < k < |s| - 1 && IsAlnum(s[k + 1])
    ensures IsNamespace(s[k + 1..])
  {
    var rest := s[k + 1..];
    assert forall i :: 0 <= i < |rest| ==> rest[i] == s[k + 1 + i];
    forall i | 0 < i < |rest|
      ensures IsAlnum(rest[i - 1]) || IsAlnum(rest[i])
    {
      assert IsAlnum(s[k + i]) || IsAlnum(s[k + 1 + i]);
    }
  }

  /** A match of the expression at position i: slash, namespace, slash. */
  predicate SegmentAt(c: string, i: int, j: int) {
    0 <= i < j < |c| && c[i] == '/' && c[j] == '/' && IsNamespace(c[i + 1..j])
  }

  /** seg is the leftmost match at from or later; None if there is no match. */
  ghost predicate IsLeftmost(c: string, from: nat, seg: Option<string>) {
    match seg
    case None => forall k, l :: from <= k ==> !SegmentAt(c, k, l)
    case Some(s) => exists i, j :: from <= i && SegmentAt(c, i, j) && s == c[i..j + 1] && NoneBefore(c, from, i)
  }

  ghost predicate NoneBefore(c: string, from: nat, i: int) {
    forall k, l :: from <= k && SegmentAt(c, k, l) ==> i <= k
  }

  /** What the search reports is the leftmost match, and without a report there is none. */
  lemma FirstNamespaceIsLeftmost(c: string)
    ensures IsLeftmost(c, 0, FirstNamespace(c, 0))
  {
    LeftmostFrom(c, 0);
  }

  lemma {:induction false} LeftmostFrom(c: string, from: nat)
    ensures IsLeftmost(c, from, FirstNamespace(c, from))
    decreases |c| - from
  {
    var i := FirstFrom(c, "/", from);
    if i.None? || FirstFrom(c, "/", i.value + 1).None? {
      OneSlash(c, from);
    } else {
      var j := FirstFrom(c, "/", i.value + 1).value;
      SlashSearch(c, i.value + 1);
      LeftmostFrom(c, j);
      LeftmostStep(c, from, i.value, j, FirstNamespace(c, j));
    }
  }

  lemma LeftmostStep(c: string, from: nat, i: nat, j: nat, later: Option<string>)
    requires FirstFrom(c, "/", from) == Some(i) && FirstFrom(c, "/", i + 1) == Some(j) && i < j < |c|
    requires IsLeftmost(c, j, later)
    ensures IsLeftmost(c, from, if IsNamespace(c[i + 1..j]) then Some(c[i..j + 1]) else later)
  {
    TwoSlashes(c, from, i, j);
    if IsNamespace(c[i + 1..j]) {
      SegmentIsLeftmost(c, from, i, j);
    } else {
      SkipSegment(c, from, i, j, later);
    }
  }

  lemma OneSlash(c: string, from: nat)
    requires var i := FirstFrom(c, "/", from); i.None? || FirstFrom(c, "/", i.value + 1).None?
    ensures IsLeftmost(c, from, FirstNamespace(c, from))
  {
    SlashSearch(c, from);
    var i := FirstFrom(c, "/", from);
    if i.None? {
      NoSecondSlash(c, from, |c|);
    } else {
      SlashSearch(c, i.value + 1);
      NoSecondSlash(c, from, i.value);
    }
  }

  lemma TwoSlashes(c: string, from: nat, i: nat, j: nat)
    requires FirstFrom(c, "/", from) == Some(i) && FirstFrom(c, "/", i + 1) == Some(j)
    ensures from <= i < j < |c| && c[i] == '/' && c[j] == '/'
    ensures forall k, l :: from <= k < j && SegmentAt(c, k, l) ==> k == i && l == j
  {
    SlashSearch(c, from);
    SlashSearch(c, i + 1);
    NoSegmentBetween(c, from, i, j);
  }

  /** With one slash at most there is no match. */
  lemma NoSecondSlash(c: string, from: nat, i: nat)
    requires forall k :: from <= k < |c| && k != i ==> c[k] != '/'
    ensures IsLeftmost(c, from, None)
  {
  }

  lemma SegmentIsLeftmost(c: string, from: nat, i: nat, j: nat)
    requires from <= i && SegmentAt(c, i, j)
    requires forall k, l :: from <= k < j && SegmentAt(c, k, l) ==> k == i && l == j
    ensures IsLeftmost(c, from, Some(c[i..j + 1]))
  {
    assert NoneBefore(c, from, i);
  }

  /** Between two slashes that enclose no namespace, no match begins. */
  lemma SkipSegment(c: string, from: nat, i: nat, j: nat, seg: Option<string>)
    requires from <= i < j && IsLeftmost(c, j, seg) && !SegmentAt(c, i, j)
    requires forall k, l :: from <= k < j && SegmentAt(c, k, l) ==> k == i && l == j
    ensures IsLeftmost(c, from, seg)
  {
    assert forall k, l :: from <= k < j ==> !SegmentAt(c, k, l);
    match seg
    case None =>
    case Some(s) =>
      var m, n :| j <= m && SegmentAt(c, m, n) && s == c[m..n + 1] && NoneBefore(c, j, m);
      NoneBeforeEarlier(c, from, j, m);
  }

  lemma NoneBeforeEarlier(c: string, from: nat, j: nat, m: int)
    requires NoneBefore(c, j, m) && forall k, l :: from <= k < j ==> !SegmentAt(c, k, l)
    ensures NoneBefore(c, from, m)
  {
  }

  lemma SlashSearch(c: string, from: nat)
    ensures match FirstFrom(c, "/", from)
            case None => forall k :: from <= k < |c| ==> c[k] != '/'
            case Some(i) => from <= i < |c| && c[i] == '/' && forall k :: from <= k < i ==> c[k] != '/'
  {
    forall k | 0 <= k < |c|
      ensures c[k] == '/' <==> Occurs(c, "/", k)
    {
      assert c[k..k + 1] == [c[k]];
    }
  }

  /** A namespace holds no slash. */
  lemma NoSlashInside(c: string, k: int, l: int)
    requires SegmentAt(c, k, l)
    ensures forall m :: k < m < l ==> c[m] != '/'
  {
    forall m | k < m < l
      ensures c[m] != '/'
    {
      assert c[k + 1..l][m - k - 1] == c[m];
    }
  }

  /** So a match begins at a slash and ends at the next. */
  lemma NoSegmentBetween(c: string, from: nat, i: nat, j: nat)
    requires from <= i < j < |c| && c[i] == '/' && c[j] == '/'
    requires (forall k :: from <= k < i ==> c[k] != '/') && (forall k :: i < k < j ==> c[k] != '/')
    ensures forall k, l :: from <= k < j && SegmentAt(c, k, l) ==> k == i && l == j
  {
    forall k, l | from <= k < j && SegmentAt(c, k, l)
      ensures k == i && l == j
    {
      NoSlashInside(c, k, l);
    }
  }
}
