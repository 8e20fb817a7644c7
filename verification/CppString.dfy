/**
 * The part of std::string the cgroup matchers use, twice over: searches on mathematical positions
 * (Option<nat>), and the size_t interface (npos, arithmetic modulo 2^64) built on top of them.
 */
module CppString {
  import opened Wrappers

  const NPOS: SizeT := 0xFFFF_FFFF_FFFF_FFFF
  // No std::string is longer than the largest ptrdiff_t.
  const MAX_SIZE: int := 0x7FFF_FFFF_FFFF_FFFF

  type SizeT = x: int | 0 <= x < TWO_64
  type Str = s: string | |s| <= MAX_SIZE

  /** pat stands in s at position i. */
  predicate Occurs(s: string, pat: string, i: int) {
    0 <= i && i + |pat| <= |s| && s[i..i + |pat|] == pat
  }

  /** The first occurrence of pat at position from or later. */
  function FirstFrom(s: string, pat: string, from: nat): (r: Option<nat>)
    ensures r.Some? ==> from <= r.value && Occurs(s, pat, r.value)
    ensures r.Some? ==> forall j :: from <= j < r.value ==> !Occurs(s, pat, j)
    ensures r.None? ==> forall j :: from <= j ==> !Occurs(s, pat, j)
    decreases |s| - from
  {
    if from + |pat| > |s| then None
    else if Occurs(s, pat, from) then Some(from)
    else FirstFrom(s, pat, from + 1)
  }

  /** The last occurrence of pat at position upTo or earlier. */
  function LastUpTo(s: string, pat: string, upTo: int): (r: Option<nat>)
    ensures r.Some? ==> r.value <= upTo && Occurs(s, pat, r.value)
    ensures r.Some? ==> forall j :: r.value < j <= upTo ==> !Occurs(s, pat, j)
    ensures r.None? ==> forall j :: j <= upTo ==> !Occurs(s, pat, j)
    decreases upTo + 1
  {
    if upTo < 0 then None
    else if Occurs(s, pat, upTo) then Some(upTo)
    else LastUpTo(s, pat, upTo - 1)
  }

  function LastIndexOf(s: string, pat: string): (r: Option<nat>)
    ensures r.Some? ==> Occurs(s, pat, r.value) && forall j :: r.value < j ==> !Occurs(s, pat, j)
    ensures r.None? ==> forall j :: !Occurs(s, pat, j)
  {
    LastUpTo(s, pat, |s|)
  }

  /** s up to, and without, the first occurrence of pat. */
  function Before(s: string, pat: string): string {
    match FirstFrom(s, pat, 0)
    case None => s
    case Some(i) => s[..i]
  }

  // ---- the size_t interface ----

  function Add(a: SizeT, b: SizeT): (r: SizeT)
    ensures r == if a + b < TWO_64 then a + b else a + b - TWO_64
  {
    (a + b) % TWO_64
  }

  function Sub(a: SizeT, b: SizeT): (r: SizeT)
    ensures r == if b <= a then a - b else TWO_64 - (b - a)
  {
    (a - b) % TWO_64
  }

  function Position(r: Option<nat>): SizeT
    requires r.Some? ==> r.value <= MAX_SIZE
  {
    if r.Some? then r.value else NPOS
  }

  /** std::string::find(pat, pos) */
  function Find(s: Str, pat: string, pos: SizeT): SizeT {
    Position(FirstFrom(s, pat, pos))
  }

  /** std::string::rfind(pat) */
  function RFind(s: Str, pat: string): SizeT {
    Position(LastIndexOf(s, pat))
  }

  /** rfind answers npos exactly if there is no occurrence. */
  lemma RFindIs(s: Str, pat: string)
    ensures RFind(s, pat) == NPOS <==> LastIndexOf(s, pat).None?
    ensures LastIndexOf(s, pat).Some? ==> RFind(s, pat) == LastIndexOf(s, pat).value && RFind(s, pat) + |pat| <= |s|
  {
  }

  /** std::string::find_first_not_of(hexadecimal digits, pos) */
  function FindFirstNotHex(s: Str, pos: SizeT): (r: SizeT)
    ensures r == NPOS || (pos <= r < |s| && !IsHex(s[r]))
    ensures forall j :: pos <= j < |s| && j < r ==> IsHex(s[j])
    decreases |s| - pos
  {
    if pos >= |s| then NPOS
    else if !IsHex(s[pos]) then pos
    else FindFirstNotHex(s, pos + 1)
  }

  /** std::string::substr(pos, n); a position past the end would throw. */
  function Substr(s: Str, pos: SizeT, n: SizeT): Str
    requires pos <= |s|
  {
    s[pos..pos + Min(n, |s| - pos)]
  }

  predicate IsHex(c: char) {
    '0' <= c <= '9' || 'a' <= c <= 'f' || 'A' <= c <= 'F'
  }

  /** The hexadecimal digits by their codes. */
  lemma HexDigits(c: char)
    ensures IsHex(c) <==> 48 <= c as int <= 57 || 65 <= c as int <= 70 || 97 <= c as int <= 102
  {
  }

  // ---- facts about occurrences ----

  /** An occurrence shows pat character by character. */
  lemma CharOfOccurrence(s: string, pat: string, i: int, k: nat)
    requires Occurs(s, pat, i) && k < |pat|
    ensures s[i + k] == pat[k]
  {
    assert s[i..i + |pat|][k] == s[i + k];
  }

  /** A character that pat does not hold cuts every occurrence: it lies wholly before or after it. */
  lemma OccurrenceAvoids(s: string, pat: string, i: int, k: int)
    requires Occurs(s, pat, i) && 0 <= k < |s| && s[k] !in pat
    ensures k < i || i + |pat| <= k
  {
    forall j | i <= j < i + |pat|
      ensures s[j] in pat
    {
      assert s[j] == s[i..i + |pat|][j - i];
    }
  }

  /** An occurrence inside a + b that ends within a is an occurrence in a. */
  lemma OccursInLeft(a: string, b: string, pat: string, i: int)
    requires i + |pat| <= |a|
    ensures Occurs(a + b, pat, i) <==> Occurs(a, pat, i)
  {
    if 0 <= i {
      assert (a + b)[i..i + |pat|] == a[i..i + |pat|];
    }
  }

  lemma OccursInTail(s: string, pat: string, k: nat, j: nat)
    requires k <= |s| && k <= j
    ensures Occurs(s, pat, j) <==> Occurs(s[k..], pat, j - k)
  {
    if j + |pat| <= |s| {
      assert s[j..j + |pat|] == s[k..][j - k..j - k + |pat|];
    }
  }

  /** Searching from position k is searching the tail that begins there. */
  lemma FirstFromTail(s: string, pat: string, k: nat)
    requires k <= |s|
    ensures FirstFrom(s, pat, k) == match FirstFrom(s[k..], pat, 0)
                                    case None => None
                                    case Some(i) => Some(k + i)
  {
    forall j | k <= j
      ensures Occurs(s, pat, j) <==> Occurs(s[k..], pat, j - k)
    {
      OccursInTail(s, pat, k, j);
    }
    var tail := FirstFrom(s[k..], pat, 0);
    var here := FirstFrom(s, pat, k);
    if tail.Some? {
      assert Occurs(s, pat, k + tail.value);
      assert here.Some?;
      assert Occurs(s[k..], pat, here.value - k);
    }
    if here.Some? {
      assert Occurs(s[k..], pat, here.value - k);
    }
  }

  lemma FirstIs(s: string, pat: string, from: nat, i: nat)
    requires from <= i && Occurs(s, pat, i) && forall j :: from <= j < i ==> !Occurs(s, pat, j)
    ensures FirstFrom(s, pat, from) == Some(i)
  {
    var r := FirstFrom(s, pat, from);
    assert r.Some?;
    assert r.value == i;
  }

  lemma LastIs(s: string, pat: string, i: nat)
    requires Occurs(s, pat, i) && forall j :: i < j ==> !Occurs(s, pat, j)
    ensures LastIndexOf(s, pat) == Some(i)
  {
    var r := LastIndexOf(s, pat);
    assert r.Some?;
    assert r.value == i;
  }

  lemma StartOfSlice(s: string, i: nat, j: nat, n: nat)
    requires i + n <= j <= |s|
    ensures s[i..i + n] == s[i..j][..n]
    ensures forall k :: i <= k < j ==> s[k] == s[i..j][k - i]
  {
  }

  lemma SameLast(s: string, t: string, pat: string)
    requires forall r :: Occurs(s, pat, r) <==> Occurs(t, pat, r)
    ensures LastIndexOf(s, pat) == LastIndexOf(t, pat)
  {
    var a, b := LastIndexOf(s, pat), LastIndexOf(t, pat);
    if a.Some? {
      assert Occurs(t, pat, a.value);
    }
    if b.Some? {
      assert Occurs(s, pat, b.value);
    }
  }

  lemma EmptyIsLast(s: string)
    ensures LastIndexOf(s, "") == Some(|s|)
  {
    assert Occurs(s, "", |s|);
  }
}
