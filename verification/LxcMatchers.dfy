/**
 * The matchers of engines without a listener (src/matchers/lxc.cpp, libvirt_lxc.cpp, bpm.cpp). Each
 * specification is wrap-free; verifying the methods against them proves that every substr starts
 * inside the string.
 */
module LxcMatchers {
  import opened Wrappers
  import opened CppString

  // ---- lxc ----

  const LXC_LAYOUTS: seq<string> := ["/lxc/", "/lxc.payload/", "/lxc.payload."]

  /** What follows the first occurrence of marker, if there is one. */
  function After(c: string, marker: string): Option<string> {
    match FirstFrom(c, marker, 0)
    case None => None
    case Some(p) => Some(c[p + |marker|..])
  }

  function LxcIdFrom(c: string, layouts: seq<string>): Option<string> {
    if layouts == [] then None
    else match After(c, layouts[0])
      case None => LxcIdFrom(c, layouts[1..])
      case Some(rest) => Some(Before(rest, "/"))
  }

  function LxcId(c: string): Option<string> {
    LxcIdFrom(c, LXC_LAYOUTS)
  }

  /** The substr of the three matchers: an end of npos, wrapped by the subtraction, means "to the end". */
  lemma CutIsBefore(c: Str, start: nat, delimiter: string)
    requires start <= |c|
    ensures Substr(c, start, Sub(Find(c, delimiter, start), start)) == Before(c[start..], delimiter)
  {
    FirstFromTail(c, delimiter, start);
    var end := FirstFrom(c, delimiter, start);
    if end.Some? {
      assert c[start..end.value] == c[start..][..end.value - start];
    }
  }

  method ResolveLxc(c: Str, containerId: string) returns (ok: bool, id: string)
    ensures ok == LxcId(c).Some?
    ensures id == if ok then LxcId(c).value else containerId
  {
    ok, id := false, containerId;
    for i := 0 to |LXC_LAYOUTS|
      invariant !ok && id == containerId
      invariant LxcId(c) == LxcIdFrom(c, LXC_LAYOUTS[i..])
    {
      var pos := Find(c, LXC_LAYOUTS[i], 0);
      if pos != NPOS {
        var idStart := Add(pos, |LXC_LAYOUTS[i]|);
        var idEnd := Find(c, "/", idStart);
        id := Substr(c, idStart, Sub(idEnd, idStart));
        CutIsBefore(c, idStart, "/");
        ok := true;
        return;
      }
    }
  }

  // ---- libvirt_lxc ----

  const LIBVIRT_SUFFIX := ".libvirt-lxc"
  const LIBVIRT_MARKER := "-lxc\\x2"
  const LIBVIRT_LEGACY := "/libvirt/lxc/"

  /** The first occurrence of pat, provided it stands at the end of c. */
  predicate FirstAtEnd(c: string, pat: string) {
    FirstFrom(c, pat, 0) == Some(|c| - |pat|)
  }

  /** Non-systemd: <path>/<id>.libvirt-lxc */
  function LibvirtPlain(c: string): Option<string> {
    if FirstAtEnd(c, LIBVIRT_SUFFIX) && LastIndexOf(c, "/").Some? then
      var p := |c| - |LIBVIRT_SUFFIX|;
      var slash := LastIndexOf(c, "/").value;
      SlashBeforeSuffix(c);
      Some(c[slash + 1..p])
    else None
  }

  function LibvirtDelimiter(c: string): string {
    if FirstFrom(c, ".scope/libvirt", 0).Some? then ".scope/libvirt" else ".scope"
  }

  function BetweenMarkerAnd(c: string, p: nat, to: nat): string
    requires p + 7 <= to < |c|
  {
    if p + 7 < to then c[p + 8..to] else c[to + 1..]
  }

  /**
   * systemd: <path>-lxc\x2<any character><id><delimiter>. With no character at all between marker and
   * delimiter the count wraps to npos, and the delimiter but its first character is taken for the id.
   */
  function LibvirtSystemd(c: string): Option<string> {
    var delimiter := LibvirtDelimiter(c);
    match FirstFrom(c, LIBVIRT_MARKER, 0)
    case None => None
    case Some(p) =>
      if !FirstAtEnd(c, delimiter) then None
      else
        MarkerBeforeDelimiter(c, p);
        Some(BetweenMarkerAnd(c, p, |c| - |delimiter|))
  }

  function LibvirtId(c: string): Option<string> {
    if LibvirtPlain(c).Some? then LibvirtPlain(c)
    else if LibvirtSystemd(c).Some? then LibvirtSystemd(c)
    else After(c, LIBVIRT_LEGACY)
  }

  lemma SlashBeforeSuffix(c: string)
    requires FirstAtEnd(c, LIBVIRT_SUFFIX) && LastIndexOf(c, "/").Some?
    ensures LastIndexOf(c, "/").value < |c| - |LIBVIRT_SUFFIX|
  {
    var slash := LastIndexOf(c, "/").value;
    assert c[slash..slash + 1][0] == '/';
    OccurrenceAvoids(c, LIBVIRT_SUFFIX, |c| - |LIBVIRT_SUFFIX|, slash);
  }

  /** The marker and the delimiter at the end cannot overlap. */
  lemma MarkerBeforeDelimiter(c: string, p: nat)
    requires FirstFrom(c, LIBVIRT_MARKER, 0) == Some(p) && FirstAtEnd(c, LibvirtDelimiter(c))
    ensures p + |LIBVIRT_MARKER| <= |c| - |LibvirtDelimiter(c)|
  {
    var d := LibvirtDelimiter(c);
    var last := p + |LIBVIRT_MARKER| - 1;
    assert c[p..p + |LIBVIRT_MARKER|][|LIBVIRT_MARKER| - 1] == c[last] == '2';
    OccurrenceAvoids(c, d, |c| - |d|, last);
  }

  /** The count pos2 - pos - 8 wraps exactly when the seven characters of the marker end at pos2. */
  lemma CutBetween(c: Str, pos: nat, pos2: nat)
    requires pos + 7 <= pos2 < |c|
    ensures Substr(c, pos + 8, Sub(Sub(pos2, pos), 8)) ==
            BetweenMarkerAnd(c, pos, pos2)
  {
  }

  lemma SubstrToEnd(c: Str, start: nat)
    requires start <= |c|
    ensures Substr(c, start, NPOS) == c[start..]
  {
  }

  method ResolveLibvirtLxc(c: Str, containerId: string) returns (ok: bool, id: string)
    ensures ok == LibvirtId(c).Some?
    ensures id == if ok then LibvirtId(c).value else containerId
  {
    ok, id := ResolveLibvirtPlain(c, containerId);
    if ok {
      return;
    }
    ok, id := ResolveLibvirtSystemd(c, containerId);
    if ok {
      return;
    }
    var legacySize: SizeT := 14;
    var pos := Find(c, LIBVIRT_LEGACY, 0);
    if pos != NPOS {
      assert |LIBVIRT_LEGACY| == 13 && Sub(Add(pos, legacySize), 1) == pos + 13;
      SubstrToEnd(c, pos + 13);
      return true, Substr(c, Sub(Add(pos, legacySize), 1), NPOS);
    }
    return false, containerId;
  }

  // The two branches below subtract sizeof of a literal, which counts its final NUL.

  method ResolveLibvirtPlain(c: Str, containerId: string) returns (ok: bool, id: string)
    ensures ok == LibvirtPlain(c).Some?
    ensures id == if ok then LibvirtPlain(c).value else containerId
  {
    var suffixSize: SizeT := 13;
    var pos := Find(c, LIBVIRT_SUFFIX, 0);
    if pos != NPOS && pos == Add(Sub(|c|, suffixSize), 1) {
      var pos2 := RFind(c, "/");
      if pos2 != NPOS {
        SlashBeforeSuffix(c);
        return true, Substr(c, Add(pos2, 1), Sub(Sub(pos, pos2), 1));
      }
    }
    return false, containerId;
  }

  method FindDelimiter(c: Str) returns (delimiter: string)
    ensures delimiter == LibvirtDelimiter(c) && 1 <= |delimiter| <= 14
  {
    if Find(c, ".scope/libvirt", 0) != NPOS {
      return ".scope/libvirt";
    }
    return ".scope";
  }

  /** The comparison of a found position with a difference of sizes, which may wrap, tests for the end. */
  lemma AtEndInSizeT(c: Str, pat: Str)
    ensures Find(c, pat, 0) != NPOS && Find(c, pat, 0) == Sub(|c|, |pat|) <==> FirstAtEnd(c, pat)
  {
  }

  method ResolveLibvirtSystemd(c: Str, containerId: string) returns (ok: bool, id: string)
    ensures ok == LibvirtSystemd(c).Some?
    ensures id == if ok then LibvirtSystemd(c).value else containerId
  {
    var markerSize: SizeT := 8;
    var pos := Find(c, LIBVIRT_MARKER, 0);
    if pos != NPOS {
      var delimiter := FindDelimiter(c);
      var pos2 := Find(c, delimiter, 0);
      AtEndInSizeT(c, delimiter);
      if pos2 != NPOS && pos2 == Sub(|c|, |delimiter|) {
        MarkerBeforeDelimiter(c, pos);
        CutBetween(c, pos, pos2);
        return true, Substr(c, Add(pos, markerSize), Sub(Sub(pos2, pos), markerSize));
      }
    }
    return false, containerId;
  }

  // ---- bpm ----

  predicate IsBpmChar(c: char) {
    'a' <= c <= 'z' || 'A' <= c <= 'Z' || '0' <= c <= '9' || c in "._-"
  }

  predicate IsBpmId(id: string) {
    id != "" && forall i :: 0 <= i < |id| ==> IsBpmChar(id[i])
  }

  function BpmId(c: string): Option<string> {
    match After(c, "bpm-")
    case None => None
    case Some(rest) => if IsBpmId(Before(rest, ".scope")) then Some(Before(rest, ".scope")) else None
  }

  /** strspn(s, allowed): the length of the longest prefix of allowed characters. */
  function Strspn(s: string): (n: nat)
    ensures n <= |s| && (n < |s| ==> !IsBpmChar(s[n]))
    ensures forall i :: 0 <= i < n ==> IsBpmChar(s[i])
  {
    if s == "" || !IsBpmChar(s[0]) then 0 else 1 + Strspn(s[1..])
  }

  method ResolveBpm(c: Str, containerId: string) returns (ok: bool, id: string)
    ensures ok == BpmId(c).Some?
    ensures id == if ok then BpmId(c).value else containerId
  {
    var pos := Find(c, "bpm-", 0);
    if pos != NPOS {
      var idStart := Sub(Add(pos, 5), 1);
      var idEnd := Find(c, ".scope", idStart);
      id := Substr(c, idStart, Sub(idEnd, idStart));
      CutIsBefore(c, idStart, ".scope");
      if id != "" && Strspn(id) == |id| {
        return true, id;
      }
    }
    return false, containerId;
  }

  // ---- printing a path and matching it ----

  /**
   * Under any layout, an lxc path gives back the name put into it, provided the layout's marker comes
   * first where it was put and no marker tried earlier stands anywhere in the path.
   */
  lemma LxcPathResolved(k: nat, head: string, name: string, tail: string)
    requires k < |LXC_LAYOUTS| && '/' !in name && (tail == "" || tail[0] == '/')
    requires var c := head + LXC_LAYOUTS[k] + name + tail;
             && (forall j :: 0 <= j < k ==> FirstFrom(c, LXC_LAYOUTS[j], 0).None?)
             && FirstFrom(c, LXC_LAYOUTS[k], 0) == Some(|head|)
    ensures LxcId(head + LXC_LAYOUTS[k] + name + tail) == Some(name)
  {
    PathUnderLayout(LXC_LAYOUTS, k, head, name, tail, head + LXC_LAYOUTS[k] + name + tail);
  }

  lemma PathUnderLayout(layouts: seq<string>, k: nat, head: string, name: string, tail: string, c: string)
    requires k < |layouts| && '/' !in name && (tail == "" || tail[0] == '/')
    requires c == head + layouts[k] + name + tail
    requires forall j :: 0 <= j < k ==> FirstFrom(c, layouts[j], 0).None?
    requires FirstFrom(c, layouts[k], 0) == Some(|head|)
    ensures LxcIdFrom(c, layouts) == Some(name)
  {
    assert c[|head| + |layouts[k]|..] == name + tail;
    BeforeDelimited(name, tail, '/');
    FirstLayoutDecides(c, layouts, k);
  }

  lemma {:induction false} FirstLayoutDecides(c: string, layouts: seq<string>, k: nat)
    requires k < |layouts| && After(c, layouts[k]).Some? && forall j :: 0 <= j < k ==> After(c, layouts[j]).None?
    ensures LxcIdFrom(c, layouts) == Some(Before(After(c, layouts[k]).value, "/"))
  {
    if k > 0 {
      FirstLayoutDecides(c, layouts[1..], k - 1);
    }
  }

  lemma BeforeDelimited(a: string, b: string, delimiter: char)
    requires delimiter !in a && (b == "" || b[0] == delimiter)
    ensures Before(a + b, [delimiter]) == a
  {
    var s := a + b;
    forall i | 0 <= i < |a|
      ensures !Occurs(s, [delimiter], i)
    {
      assert s[i..i + 1][0] == a[i];
    }
    if b == "" {
      assert s == a;
      assert FirstFrom(s, [delimiter], 0).None?;
    } else {
      assert s[|a|..|a| + 1] == [delimiter];
      FirstIs(s, [delimiter], 0, |a|);
    }
  }

  /** A systemd libvirt path gives back the id between the marker's separator and the delimiter. */
  lemma LibvirtSystemdPathResolved(head: string, separator: char, id: string, delimiter: string)
    requires delimiter in {".scope", ".scope/libvirt"}
    requires var c := head + LIBVIRT_MARKER + [separator] + id + delimiter;
             && FirstFrom(c, LIBVIRT_MARKER, 0) == Some(|head|)
             && FirstAtEnd(c, delimiter)
    ensures LibvirtId(head + LIBVIRT_MARKER + [separator] + id + delimiter) == Some(id)
  {
    var c := head + LIBVIRT_MARKER + [separator] + id + delimiter;
    DelimiterAtEnd(c, delimiter);
    assert |LIBVIRT_MARKER| == 7 && c[|head| + 8..|c| - |delimiter|] == id;
  }

  /** A path that ends in a delimiter, its first one, has that delimiter and no suffix of the plain form. */
  lemma DelimiterAtEnd(c: string, delimiter: string)
    requires delimiter in {".scope", ".scope/libvirt"} && FirstAtEnd(c, delimiter)
    ensures LibvirtDelimiter(c) == delimiter && LibvirtPlain(c).None?
  {
    CharOfOccurrence(c, delimiter, |c| - |delimiter|, |delimiter| - 1);
    NotPlain(c);
    if delimiter == ".scope" {
      OnlyShortDelimiter(c);
    }
  }

  lemma NotPlain(c: string)
    requires c != "" && c[|c| - 1] != 'c'
    ensures LibvirtPlain(c).None?
  {
    if FirstAtEnd(c, LIBVIRT_SUFFIX) {
      CharOfOccurrence(c, LIBVIRT_SUFFIX, |c| - 12, 11);
    }
  }

  lemma OnlyShortDelimiter(c: string)
    requires FirstAtEnd(c, ".scope")
    ensures LibvirtDelimiter(c) == ".scope"
  {
    var long := FirstFrom(c, ".scope/libvirt", 0);
    if long.Some? {
      StartOfSlice(c, long.value, long.value + 14, 6);
      assert Occurs(c, ".scope", long.value);
    }
  }

  /** The plain libvirt path gives back the last path component without the suffix. */
  lemma LibvirtPlainPathResolved(head: string, id: string)
    requires '/' !in id && FirstAtEnd(head + "/" + id + LIBVIRT_SUFFIX, LIBVIRT_SUFFIX)
    ensures LibvirtId(head + "/" + id + LIBVIRT_SUFFIX) == Some(id)
  {
    var c := head + "/" + id + LIBVIRT_SUFFIX;
    assert c[|head|..|head| + 1] == "/";
    assert forall k :: |head| < k < |head| + 1 + |id| ==> c[k] == id[k - |head| - 1];
    assert forall k :: |head| < k < |c| ==> c[k] != '/';
    forall j | |head| < j < |c|
      ensures !Occurs(c, "/", j)
    {
      assert c[j..j + 1] == [c[j]];
    }
    LastIs(c, "/", |head|);
    assert c[|head| + 1..|c| - |LIBVIRT_SUFFIX|] == id;
  }

  /** The legacy path gives back all that follows the marker, unless one of the other forms applies. */
  lemma LibvirtLegacyPathResolved(head: string, id: string)
    requires var c := head + LIBVIRT_LEGACY + id;
             && LibvirtPlain(c).None? && LibvirtSystemd(c).None?
             && forall i :: 0 <= i < |head| ==> !Occurs(c, LIBVIRT_LEGACY, i)
    ensures LibvirtId(head + LIBVIRT_LEGACY + id) == Some(id)
  {
    var c := head + LIBVIRT_LEGACY + id;
    assert c[|head|..|head| + 13] == LIBVIRT_LEGACY;
    FirstIs(c, LIBVIRT_LEGACY, 0, |head|);
    assert c[|head| + 13..] == id;
  }

  /** A bpm path gives back the job id, cut at the first ".scope", if its characters are allowed. */
  lemma BpmPathResolved(head: string, id: string, tail: string)
    requires IsBpmId(id) && (tail == "" || ".scope" <= tail)
    requires forall i :: 0 <= i < |head| ==> !Occurs(head + "bpm-" + id + tail, "bpm-", i)
    requires forall i :: 0 <= i < |id| ==> !Occurs(id + tail, ".scope", i)
    ensures BpmId(head + "bpm-" + id + tail) == Some(id)
  {
    var c := head + "bpm-" + id + tail;
    assert c[|head|..|head| + 4] == "bpm-";
    FirstIs(c, "bpm-", 0, |head|);
    assert c[|head| + 4..] == id + tail;
    if tail == "" {
      assert id + tail == id;
      assert FirstFrom(id, ".scope", 0).None?;
    } else {
      assert (id + tail)[|id|..|id| + 6] == ".scope";
      FirstIs(id + tail, ".scope", 0, |id|);
    }
  }

  // ---- the markers, written out ----

  /** The three lxc layouts, in their order of precedence. */
  lemma LxcSlashPath(head: string, name: string, tail: string, c: string)
    requires '/' !in name && (tail == "" || tail[0] == '/') && c == head + "/lxc/" + name + tail
    requires FirstFrom(c, "/lxc/", 0) == Some(|head|)
    ensures LxcId(c) == Some(name)
  {
    assert LXC_LAYOUTS[0] == "/lxc/";
    LxcPathResolved(0, head, name, tail);
  }

  lemma LxcPayloadSlashPath(head: string, name: string, tail: string, c: string)
    requires '/' !in name && (tail == "" || tail[0] == '/') && c == head + "/lxc.payload/" + name + tail
    requires FirstFrom(c, "/lxc/", 0).None? && FirstFrom(c, "/lxc.payload/", 0) == Some(|head|)
    ensures LxcId(c) == Some(name)
  {
    assert LXC_LAYOUTS[0] == "/lxc/" && LXC_LAYOUTS[1] == "/lxc.payload/";
    LxcPathResolved(1, head, name, tail);
  }

  lemma LxcPayloadDotPath(head: string, name: string, tail: string, c: string)
    requires '/' !in name && (tail == "" || tail[0] == '/') && c == head + "/lxc.payload." + name + tail
    requires FirstFrom(c, "/lxc/", 0).None? && FirstFrom(c, "/lxc.payload/", 0).None?
    requires FirstFrom(c, "/lxc.payload.", 0) == Some(|head|)
    ensures LxcId(c) == Some(name)
  {
    assert LXC_LAYOUTS[0] == "/lxc/" && LXC_LAYOUTS[1] == "/lxc.payload/" && LXC_LAYOUTS[2] == "/lxc.payload.";
    LxcPathResolved(2, head, name, tail);
  }

  lemma {:induction false} NoLayoutInPath(c: string, layouts: seq<string>)
    ensures LxcIdFrom(c, layouts).None? <==> forall k :: 0 <= k < |layouts| ==> FirstFrom(c, layouts[k], 0).None?
  {
    if layouts != [] {
      NoLayoutInPath(c, layouts[1..]);
      assert forall k :: 0 < k < |layouts| ==> layouts[k] == layouts[1..][k - 1];
    }
  }

  /** A path is lxc's exactly if one of the three markers stands in it. */
  lemma NoLxcPath(c: string)
    ensures LxcId(c).None? <==>
              && FirstFrom(c, "/lxc/", 0).None? && FirstFrom(c, "/lxc.payload/", 0).None?
              && FirstFrom(c, "/lxc.payload.", 0).None?
  {
    NoLayoutInPath(c, LXC_LAYOUTS);
    assert LXC_LAYOUTS[0] == "/lxc/" && LXC_LAYOUTS[1] == "/lxc.payload/" && LXC_LAYOUTS[2] == "/lxc.payload.";
  }

  /** The libvirt forms by their literal markers. */
  lemma LibvirtPaths(head: string, separator: char, id: string)
    requires '/' !in id
    ensures var c := head + "/" + id + ".libvirt-lxc"; FirstAtEnd(c, ".libvirt-lxc") ==> LibvirtId(c) == Some(id)
    ensures var c := head + "-lxc\\x2" + [separator] + id + ".scope";
            FirstFrom(c, "-lxc\\x2", 0) == Some(|head|) && FirstAtEnd(c, ".scope") ==> LibvirtId(c) == Some(id)
    ensures var c := head + "-lxc\\x2" + [separator] + id + ".scope/libvirt";
            FirstFrom(c, "-lxc\\x2", 0) == Some(|head|) && FirstAtEnd(c, ".scope/libvirt") ==> LibvirtId(c) == Some(id)
  {
    if FirstAtEnd(head + "/" + id + ".libvirt-lxc", ".libvirt-lxc") {
      LibvirtPlainPathResolved(head, id);
    }
    LibvirtSystemdPath(head, separator, id, ".scope");
    LibvirtSystemdPath(head, separator, id, ".scope/libvirt");
  }

  lemma LibvirtSystemdPath(head: string, separator: char, id: string, delimiter: string)
    requires delimiter in {".scope", ".scope/libvirt"}
    ensures var c := head + "-lxc\\x2" + [separator] + id + delimiter;
            FirstFrom(c, "-lxc\\x2", 0) == Some(|head|) && FirstAtEnd(c, delimiter) ==> LibvirtId(c) == Some(id)
  {
    var c := head + "-lxc\\x2" + [separator] + id + delimiter;
    if FirstFrom(c, "-lxc\\x2", 0) == Some(|head|) && FirstAtEnd(c, delimiter) {
      LibvirtSystemdPathResolved(head, separator, id, delimiter);
    }
  }

  /** A path without any of libvirt's markers is not libvirt's, and one with the legacy marker always is. */
  lemma LibvirtOrNot(c: string)
    ensures FirstFrom(c, "/libvirt/lxc/", 0).Some? ==> LibvirtId(c).Some?
    ensures LibvirtId(c).Some? ==>
              || FirstFrom(c, ".libvirt-lxc", 0).Some? || FirstFrom(c, "-lxc\\x2", 0).Some?
              || FirstFrom(c, "/libvirt/lxc/", 0).Some?
  {
  }

  /** Letters, digits, dot, underscore and dash, by their codes. */
  lemma BpmChars(c: char)
    ensures IsBpmChar(c) <==>
              || 48 <= c as int <= 57 || 65 <= c as int <= 90 || 97 <= c as int <= 122
              || c as int == 46 || c as int == 95 || c as int == 45
  {
  }
}
