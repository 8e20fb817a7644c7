/**
 * Splitting an image reference into host, port, name, tag and digest
 * (split_container_image in src/matchers/static_container.cpp).
 */
module ImageReference {
  import opened Wrappers
  import opened CppString

  /** [host[:port]/]path[:tag][@digest] */
  datatype Ref = Ref(host: Option<HostPort>, path: string, tag: Option<string>, digest: Option<string>)
  datatype HostPort = HostPort(host: string, port: Option<string>)

  function Tail(separator: char, part: Option<string>): string {
    if part.Some? then [separator] + part.value else ""
  }

  function PrintHost(h: HostPort): string {
    h.host + Tail(':', h.port)
  }

  function Repo(host: Option<HostPort>): string {
    if host.Some? then PrintHost(host.value) + "/" else ""
  }

  function PrintRest(r: Ref): string {
    r.path + Tail(':', r.tag) + Tail('@', r.digest)
  }

  function Print(r: Ref): string {
    Repo(r.host) + PrintRest(r)
  }

  /** The parts avoid the separators that end them; without a host there is no slash anywhere. */
  predicate WellFormed(r: Ref) {
    && (r.host.Some? ==> '/' !in PrintHost(r.host.value) && ':' !in r.host.value.host)
    && (r.host.None? ==> '/' !in PrintRest(r))
    && ':' !in r.path
    && '@' !in r.path
    && (r.tag.Some? ==> '@' !in r.tag.value)
  }

  function OrEmpty(part: Option<string>): string {
    if part.Some? then part.value else ""
  }

  /** The two sides of the first separator in src; what follows it may hold more of them. */
  predicate SplitsAt(src: string, part1: string, part2: string, sep: char) {
    src == part1 + [sep] + part2 && sep !in part1
  }

  lemma SearchIsMembership(s: string, sep: char)
    ensures match FirstFrom(s, [sep], 0)
            case None => sep !in s
            case Some(i) => i < |s| && s[i] == sep && sep !in s[..i]
  {
    forall i | 0 <= i < |s|
      ensures s[i] == sep <==> Occurs(s, [sep], i)
    {
      assert s[i..i + 1] == [s[i]];
    }
  }

  /** The lambda "split": on failure the two parts are left alone. */
  method Split(src: string, part1: string, part2: string, sep: char)
    returns (ok: bool, p1: string, p2: string)
    ensures ok <==> sep in src
    ensures ok ==> SplitsAt(src, p1, p2, sep)
    ensures !ok ==> p1 == part1 && p2 == part2
  {
    SearchIsMembership(src, sep);
    var pos := FirstFrom(src, [sep], 0);
    if pos.Some? {
      return true, src[..pos.value], src[pos.value + 1..];
    }
    return false, part1, part2;
  }

  /** The five values that split_container_image assigns; the name has the host and port in front of the path. */
  datatype Parts = Parts(hostname: string, port: string, name: string, tag: string, digest: string)

  function PartsOf(r: Ref): Parts {
    Parts(if r.host.Some? then r.host.value.host else "",
          if r.host.Some? then OrEmpty(r.host.value.port) else "",
          Repo(r.host) + r.path, OrEmpty(r.tag), OrEmpty(r.digest))
  }

  /** parts are those of a well-formed reference that prints as the image, so nothing of it is lost. */
  ghost predicate AreParts(image: string, parts: Parts) {
    exists ref :: WellFormed(ref) && Print(ref) == image && PartsOf(ref) == parts
  }

  method SplitContainerImage(image: string)
    returns (hostname: string, port: string, name: string, tag: string, digest: string)
    ensures AreParts(image, Parts(hostname, port, name, tag, digest))
  {
    hostname, port, name, tag, digest := "", "", "", "", "";
    var hostport, rem, repo := "", "", "";
    ghost var host: Option<HostPort> := None;
    var ok;
    ok, hostport, rem := Split(image, hostport, rem, '/');
    if ok {
      repo := hostport + "/";
      var hasPort;
      hasPort, hostname, port := Split(hostport, hostname, port, ':');
      if !hasPort {
        hostname, port := hostport, "";
      }
      host := Some(HostPort(hostname, if hasPort then Some(port) else None));
      assert PrintHost(host.value) == hostport;
    } else {
      hostname, port, rem := "", "", image;
    }
    var hasTag, hasDigest;
    name, tag, digest, hasTag, hasDigest := SplitRest(rem);
    ghost var ref := Ref(host, name, if hasTag then Some(tag) else None, if hasDigest then Some(digest) else None);
    assert image == Repo(host) + rem == Print(ref);
    name := repo + name;
    assert PartsOf(ref) == Parts(hostname, port, name, tag, digest);
  }

  /** The part of split_container_image that follows the host. */
  method SplitRest(rem: string)
    returns (name: string, tag: string, digest: string, hasTag: bool, hasDigest: bool)
    ensures rem == name + Tail(':', if hasTag then Some(tag) else None) + Tail('@', if hasDigest then Some(digest) else None)
    ensures ':' !in name && '@' !in name && '@' !in tag
    ensures (!hasTag ==> tag == "") && (!hasDigest ==> digest == "")
  {
    var rem2 := "";
    digest := "";
    hasDigest, rem2, digest := Split(rem, rem2, digest, '@');
    if hasDigest {
      name, tag, hasTag := SplitNameTag(rem2);
    } else {
      digest := "";
      name, tag, hasTag := SplitNameTag(rem);
    }
    NotInParts(name, tag, hasTag, '@');
  }

  lemma NotInParts(name: string, tag: string, hasTag: bool, c: char)
    requires c !in name + Tail(':', if hasTag then Some(tag) else None) && (!hasTag ==> tag == "")
    ensures c !in name && c !in tag
  {
    var whole := name + Tail(':', if hasTag then Some(tag) else None);
    assert forall i :: 0 <= i < |name| ==> whole[i] == name[i];
    assert forall i :: 0 <= i < |tag| ==> whole[|name| + 1 + i] == tag[i];
  }

  /** name[:tag] */
  method SplitNameTag(src: string) returns (name: string, tag: string, hasTag: bool)
    ensures src == name + Tail(':', if hasTag then Some(tag) else None)
    ensures ':' !in name && (!hasTag ==> tag == "")
  {
    name, tag := "", "";
    hasTag, name, tag := Split(src, name, tag, ':');
    if !hasTag {
      name, tag := src, "";
    }
  }

  // ---- a string is the print of one well-formed reference only ----

  /** Two ways to cut a string at the first separator are one. */
  lemma CutUnique(a: string, s: Option<string>, b: string, t: Option<string>, sep: char)
    requires sep !in a && sep !in b
    requires a + Tail(sep, s) == b + Tail(sep, t)
    ensures a == b && s == t
  {
    CutLength(a, s, sep);
    CutLength(b, t, sep);
    var whole := a + Tail(sep, s);
    assert |a| == |b|;
    assert whole[..|a|] == a && whole[..|b|] == b;
    if s.Some? && t.Some? {
      assert s.value == whole[|a| + 1..] == t.value;
    }
  }

  /** The first separator of a + Tail(sep, s) stands behind a, if there is one. */
  lemma CutLength(a: string, s: Option<string>, sep: char)
    requires sep !in a
    ensures var whole := a + Tail(sep, s);
            && (forall i :: 0 <= i < |a| ==> whole[i] != sep)
            && (|a| < |whole| ==> whole[|a|] == sep)
  {
    var whole := a + Tail(sep, s);
    assert forall i :: 0 <= i < |a| ==> whole[i] == a[i];
  }

  lemma RestUnique(a: Ref, b: Ref)
    requires WellFormed(a) && WellFormed(b) && PrintRest(a) == PrintRest(b)
    ensures a.path == b.path && a.tag == b.tag && a.digest == b.digest
  {
    CutUnique(a.path + Tail(':', a.tag), a.digest, b.path + Tail(':', b.tag), b.digest, '@');
    CutUnique(a.path, a.tag, b.path, b.tag, ':');
  }

  /** Printing is injective on well-formed references. */
  lemma PrintInjective(a: Ref, b: Ref)
    requires WellFormed(a) && WellFormed(b) && Print(a) == Print(b)
    ensures a == b
  {
    var whole := Print(a);
    if a.host.Some? {
      assert whole[|PrintHost(a.host.value)|] == '/';
    }
    if b.host.Some? {
      assert whole[|PrintHost(b.host.value)|] == '/';
    }
    assert a.host.None? ==> whole == PrintRest(a);
    assert b.host.None? ==> whole == PrintRest(b);
    assert a.host.Some? == b.host.Some?;
    if a.host.Some? {
      var ha, hb := PrintHost(a.host.value), PrintHost(b.host.value);
      assert whole == ha + Tail('/', Some(PrintRest(a))) == hb + Tail('/', Some(PrintRest(b)));
      CutUnique(ha, Some(PrintRest(a)), hb, Some(PrintRest(b)), '/');
      CutUnique(a.host.value.host, a.host.value.port, b.host.value.host, b.host.value.port, ':');
    }
    RestUnique(a, b);
  }

  /** The parts of an image are determined by it, and those of a printed reference are the reference's. */
  lemma PartsUnique(ref: Ref, parts: Parts)
    requires WellFormed(ref)
    ensures AreParts(Print(ref), parts) <==> parts == PartsOf(ref)
  {
    if AreParts(Print(ref), parts) {
      var found :| WellFormed(found) && Print(found) == Print(ref) && PartsOf(found) == parts;
      PrintInjective(ref, found);
    }
  }

  /** Splitting inverts printing: any well-formed reference comes back part by part. */
  method SplitPrinted(ref: Ref) returns (parts: Parts)
    requires WellFormed(ref)
    ensures parts == PartsOf(ref)
  {
    var hostname, port, name, tag, digest := SplitContainerImage(Print(ref));
    parts := Parts(hostname, port, name, tag, digest);
    PartsUnique(ref, parts);
  }

  // ---- the five values, written out ----

  /** A full reference: the name keeps host and port in front of the path. */
  lemma FullReference(host: string, port: string, path: string, tag: string, digest: string, parts: Parts)
    requires ':' !in host && '/' !in host && '/' !in port && ':' !in path && '@' !in path && '@' !in tag
    ensures AreParts(host + ":" + port + "/" + path + ":" + tag + "@" + digest, parts) <==>
              && parts.hostname == host && parts.port == port && parts.name == host + ":" + port + "/" + path
              && parts.tag == tag && parts.digest == digest
  {
    var ref := Ref(Some(HostPort(host, Some(port))), path, Some(tag), Some(digest));
    assert Print(ref) == host + ":" + port + "/" + path + ":" + tag + "@" + digest;
    assert '/' !in host + ":" + port;
    PartsUnique(ref, parts);
  }

  /** A path behind a host, with neither port, tag nor digest. */
  lemma HostAndPath(host: string, path: string, parts: Parts)
    requires ':' !in host && '/' !in host && ':' !in path && '@' !in path
    ensures AreParts(host + "/" + path, parts) <==>
              && parts.hostname == host && parts.port == "" && parts.name == host + "/" + path
              && parts.tag == "" && parts.digest == ""
  {
    var ref := Ref(Some(HostPort(host, None)), path, None, None);
    assert Print(ref) == host + "/" + path;
    PartsUnique(ref, parts);
  }

  /** Without a slash there is no host, and a colon begins the tag. */
  lemma LocalReference(path: string, tag: string, parts: Parts)
    requires '/' !in path && ':' !in path && '@' !in path && '/' !in tag && '@' !in tag
    ensures AreParts(path + ":" + tag, parts) <==>
              && parts.hostname == "" && parts.port == "" && parts.name == path && parts.tag == tag && parts.digest == ""
    ensures AreParts(path, parts) <==>
              && parts.hostname == "" && parts.port == "" && parts.name == path && parts.tag == "" && parts.digest == ""
  {
    var tagged, bare := Ref(None, path, Some(tag), None), Ref(None, path, None, None);
    assert Print(tagged) == path + ":" + tag && Print(bare) == path;
    assert '/' !in path + ":" + tag;
    PartsUnique(tagged, parts);
    PartsUnique(bare, parts);
  }
}
