/** Counting the processors of a cpuset list, and short container ids (go-worker/pkg/container/engine.go). */
module CpuSet {
  import opened Wrappers

  const SHORT_ID_LENGTH := 12

  function ShortContainerID(id: string): string {
    if |id| > SHORT_ID_LENGTH then id[..SHORT_ID_LENGTH] else id
  }

  /** A short id is the first twelve characters of an id, or a shorter id itself. */
  lemma ShortIdIsPrefix(id: string)
    ensures |id| <= 12 ==> ShortContainerID(id) == id
    ensures |id| > 12 ==> ShortContainerID(id) == id[..12]
  {
  }

  const INT64_MAX: int := 0x7FFF_FFFF_FFFF_FFFF

  predicate IsInt64(x: int) {
    -INT64_MAX - 1 <= x <= INT64_MAX
  }

  /** Two's complement wrap-around of an int64. */
  function Wrap64(x: int): (r: int)
    ensures IsInt64(r)
    ensures IsInt64(x) ==> r == x
  {
    (x + INT64_MAX + 1) % TWO_64 - INT64_MAX - 1
  }

  lemma WrapSum(a: int, b: int, sum: int)
    requires sum == a + b
    ensures Wrap64(Wrap64(a) + b) == Wrap64(sum)
  {
    var m := a + INT64_MAX + 1;
    assert (m % TWO_64 + b) % TWO_64 == (m + b) % TWO_64;
  }

  // ---- strings.Split and strconv.ParseInt(s, 10, 64) ----

  /** The pieces of s between the separators; always at least one. */
  function Split(s: string, sep: char): (r: seq<string>)
    ensures r != []
  {
    if sep !in s then [s]
    else
      var i := IndexOf(s, sep);
      [s[..i]] + Split(s[i + 1..], sep)
  }

  function IndexOf(s: string, sep: char): (i: nat)
    requires sep in s
    ensures i < |s| && s[i] == sep && sep !in s[..i]
  {
    if s[0] == sep then 0
    else
      var i := 1 + IndexOf(s[1..], sep);
      assert s[..i] == [s[0]] + s[1..][..i - 1];
      i
  }

  predicate IsDigit(c: char) {
    '0' <= c <= '9'
  }

  predicate AllDigits(s: string) {
    forall i :: 0 <= i < |s| ==> IsDigit(s[i])
  }

  function DigitsValue(s: string): nat
    requires AllDigits(s)
  {
    if s == "" then 0
    else
      var digit: nat := s[|s| - 1] as int - '0' as int;
      10 * DigitsValue(s[..|s| - 1]) + digit
  }

  /** None is an error: no digits, another character, or a value outside int64. */
  function ParseInt(s: string): (r: Option<int>)
    ensures r.Some? ==> IsInt64(r.value)
  {
    var signed := s != "" && (s[0] == '+' || s[0] == '-');
    var digits := if signed then s[1..] else s;
    if digits == "" || !AllDigits(digits) then None
    else
      var value: int := DigitsValue(digits);
      var x := if signed && s[0] == '-' then -value else value;
      if IsInt64(x) then Some(x) else None
  }

  // ---- what a list says ----

  /** The number of processors one comma-separated part stands for; None is malformed. */
  function PartCount(part: string): Option<int> {
    BoundsCount(Split(part, '-'))
  }

  /** The same, of the pieces of the part between dashes. */
  function BoundsCount(dash: seq<string>): Option<int> {
    if |dash| == 1 then Some(1)
    else if |dash| != 2 then None
    else match (ParseInt(dash[0]), ParseInt(dash[1]))
      case (Some(start), Some(end)) => Some(end - start + 1)
      case _ => None
  }

  predicate AllWellFormed(parts: seq<string>) {
    forall i :: 0 <= i < |parts| ==> PartCount(parts[i]).Some?
  }

  function Total(parts: seq<string>): int
    requires AllWellFormed(parts)
  {
    if parts == [] then 0 else Total(parts[..|parts| - 1]) + PartCount(parts[|parts| - 1]).value
  }

  lemma TotalOfTake(parts: seq<string>, i: nat)
    requires i < |parts| && AllWellFormed(parts[..i]) && PartCount(parts[i]).Some?
    ensures AllWellFormed(parts[..i + 1])
    ensures Total(parts[..i + 1]) == Total(parts[..i]) + PartCount(parts[i]).value
  {
    assert parts[..i + 1][..i] == parts[..i];
  }

  lemma AddedPart(parts: seq<string>, i: nat)
    requires i < |parts| && AllWellFormed(parts[..i]) && PartCount(parts[i]).Some?
    ensures AllWellFormed(parts[..i + 1])
    ensures Wrap64(Wrap64(Total(parts[..i])) + PartCount(parts[i]).value) == Wrap64(Total(parts[..i + 1]))
  {
    TotalOfTake(parts, i);
    WrapSum(Total(parts[..i]), PartCount(parts[i]).value, Total(parts[..i + 1]));
  }

  /** countCPUSet: the total, modulo 2^64, of the parts; one malformed part makes it zero. */
  method CountCPUSet(cpuSet: string) returns (counter: int)
    ensures IsInt64(counter)
    ensures cpuSet == "" ==> counter == 0
    ensures cpuSet != "" && !AllWellFormed(Split(cpuSet, ',')) ==> counter == 0
    ensures cpuSet != "" && AllWellFormed(Split(cpuSet, ',')) ==> counter == Wrap64(Total(Split(cpuSet, ',')))
  {
    if cpuSet == "" {
      return 0;
    }
    counter := SumParts(Split(cpuSet, ','));
  }

  /** The loop over the parts. */
  method SumParts(parts: seq<string>) returns (counter: int)
    ensures counter == if AllWellFormed(parts) then Wrap64(Total(parts)) else 0
  {
    counter := 0;
    assert parts[..0] == [];
    for i := 0 to |parts|
      invariant AllWellFormed(parts[..i])
      invariant counter == Wrap64(Total(parts[..i]))
    {
      var sum := AddPart(counter, parts[i]);
      if sum.None? {
        return 0;
      }
      AddedPart(parts, i);
      counter := sum.value;
    }
    assert parts[..|parts|] == parts;
  }

  /** One round of the loop: counter plus what the part stands for, or None where zero is returned. */
  method AddPart(counter: int, part: string) returns (sum: Option<int>)
    ensures sum == if PartCount(part).None? then None else Some(Wrap64(counter + PartCount(part).value))
  {
    var dash := Split(part, '-');
    if |dash| > 1 {
      if |dash| > 2 {
        return None;
      }
      var start := ParseInt(dash[0]);
      if start.None? {
        return None;
      }
      var end := ParseInt(dash[1]);
      if end.None? {
        return None;
      }
      return Some(Wrap64(counter + (end.value - start.value + 1)));
    } else {
      return Some(Wrap64(counter + 1));
    }
  }

  // ---- printing in the list format of cpuset(7) ----

  datatype Cpus = One(cpu: nat) | Range(first: nat, last: nat)

  predicate IsCpus(c: Cpus) {
    c.Range? ==> c.first <= c.last
  }

  /** ParseInt reads the bounds of a range only up to the largest int64. */
  predicate Readable(c: Cpus) {
    c.Range? ==> c.last <= INT64_MAX
  }

  function Size(c: Cpus): int {
    match c
    case One(_) => 1
    case Range(a, b) => b - a + 1
  }

  function Sizes(list: seq<Cpus>): int {
    if list == [] then 0 else Size(list[0]) + Sizes(list[1..])
  }

  function PrintNat(n: nat): (s: string)
    ensures s != "" && AllDigits(s) && DigitsValue(s) == n
  {
    var digit := ('0' as int + n % 10) as char;
    if n < 10 then [digit]
    else
      var s := PrintNat(n / 10) + [digit];
      assert s[..|s| - 1] == PrintNat(n / 10);
      s
  }

  function PrintCpus(c: Cpus): string {
    match c
    case One(n) => PrintNat(n)
    case Range(a, b) => PrintNat(a) + "-" + PrintNat(b)
  }

  function PrintList(list: seq<Cpus>): string {
    if list == [] then ""
    else if |list| == 1 then PrintCpus(list[0])
    else PrintCpus(list[0]) + "," + PrintList(list[1..])
  }

  lemma IndexOfFirst(a: string, sep: char, b: string)
    requires sep !in a
    ensures IndexOf(a + [sep] + b, sep) == |a|
  {
    var s := a + [sep] + b;
    assert s[|a|] == sep;
    var i := IndexOf(s, sep);
    assert forall k :: 0 <= k < |a| ==> s[k] == a[k] != sep;
    assert forall k :: 0 <= k < i ==> s[k] == s[..i][k] != sep;
  }

  lemma SplitAtFirst(a: string, sep: char, b: string)
    requires sep !in a
    ensures Split(a + [sep] + b, sep) == [a] + Split(b, sep)
  {
    var s := a + [sep] + b;
    assert s[|a|] == sep;
    IndexOfFirst(a, sep, b);
    assert s[..|a|] == a && s[|a| + 1..] == b;
  }

  lemma DigitsHold(s: string, c: char)
    requires AllDigits(s) && !IsDigit(c)
    ensures c !in s
  {
  }

  lemma PartOfCpus(c: Cpus)
    requires IsCpus(c)
    ensures PartCount(PrintCpus(c)) == if Readable(c) then Some(Size(c)) else None
    ensures PrintCpus(c) != "" && ',' !in PrintCpus(c)
  {
    match c
    case One(n) => DigitsHold(PrintNat(n), ','); DigitsHold(PrintNat(n), '-');
    case Range(a, b) =>
      DigitsHold(PrintNat(a), ',');
      DigitsHold(PrintNat(b), ',');
      PartOfRange(a, b);
  }

  lemma PartOfRange(a: nat, b: nat)
    requires a <= b
    ensures PartCount(PrintNat(a) + "-" + PrintNat(b)) == if b <= INT64_MAX then Some(b - a + 1) else None
  {
    DigitsHold(PrintNat(a), '-');
    DigitsHold(PrintNat(b), '-');
    ParsePrinted(a);
    ParsePrinted(b);
    PartOfBounds(PrintNat(a), PrintNat(b),
                 if a <= INT64_MAX then Some(a) else None, if b <= INT64_MAX then Some(b) else None);
  }

  lemma PartOfBounds(a: string, b: string, start: Option<int>, end: Option<int>)
    requires '-' !in a && '-' !in b && ParseInt(a) == start && ParseInt(b) == end
    ensures PartCount(a + "-" + b)
            == if start.Some? && end.Some? then Some(end.value - start.value + 1) else None
  {
    PartOfPair(a, b);
    CountOfPair(a, b, start, end);
  }

  lemma PartOfPair(a: string, b: string)
    requires '-' !in a && '-' !in b
    ensures PartCount(a + "-" + b) == BoundsCount([a, b])
  {
    RangeSplits(a, b);
  }

  lemma CountOfPair(a: string, b: string, start: Option<int>, end: Option<int>)
    requires ParseInt(a) == start && ParseInt(b) == end
    ensures BoundsCount([a, b]) == if start.Some? && end.Some? then Some(end.value - start.value + 1) else None
  {
  }

  lemma RangeSplits(a: string, b: string)
    requires '-' !in a && '-' !in b
    ensures Split(a + "-" + b, '-') == [a, b]
  {
    SplitAtFirst(a, '-', b);
    assert Split(b, '-') == [b];
  }

  lemma ParsePrinted(n: nat)
    ensures ParseInt(PrintNat(n)) == if n <= INT64_MAX then Some(n) else None
  {
    var s := PrintNat(n);
    assert IsDigit(s[0]);
  }

  lemma {:induction false} TotalOfCons(part: string, parts: seq<string>)
    requires PartCount(part).Some? && AllWellFormed(parts)
    ensures AllWellFormed([part] + parts)
    ensures Total([part] + parts) == PartCount(part).value + Total(parts)
  {
    var all := [part] + parts;
    if parts != [] {
      var init := parts[..|parts| - 1];
      TotalOfCons(part, init);
      assert all[..|all| - 1] == [part] + init;
    } else {
      assert all == [part] && all[..0] == [];
      assert Total(all) == Total(all[..0]) + PartCount(all[0]).value;
    }
  }

  lemma WellFormedOfCons(part: string, parts: seq<string>)
    ensures AllWellFormed([part] + parts) <==> PartCount(part).Some? && AllWellFormed(parts)
  {
    var all := [part] + parts;
    assert all[0] == part;
    assert forall i :: 0 <= i < |parts| ==> all[i + 1] == parts[i];
  }

  predicate AllReadable(list: seq<Cpus>) {
    forall i :: 0 <= i < |list| ==> Readable(list[i])
  }

  lemma {:induction false} PartsOfList(list: seq<Cpus>)
    requires list != [] && forall i :: 0 <= i < |list| ==> IsCpus(list[i])
    ensures PrintList(list) != ""
    ensures AllWellFormed(Split(PrintList(list), ',')) <==> AllReadable(list)
    ensures AllReadable(list) ==> Total(Split(PrintList(list), ',')) == Sizes(list)
  {
    var part := PrintCpus(list[0]);
    PartOfCpus(list[0]);
    if |list| == 1 {
      assert Split(PrintList(list), ',') == [part] + [];
      assert Sizes(list[1..]) == 0;
      PartsOfCons(list, []);
    } else {
      PartsOfList(list[1..]);
      SplitAtFirst(part, ',', PrintList(list[1..]));
      PartsOfCons(list, Split(PrintList(list[1..]), ','));
    }
  }

  /** The parts of a list are its first part and those of the rest. */
  lemma PartsOfCons(list: seq<Cpus>, rest: seq<string>)
    requires list != [] && IsCpus(list[0])
    requires AllWellFormed(rest) <==> AllReadable(list[1..])
    requires AllReadable(list[1..]) ==> Total(rest) == Sizes(list[1..])
    ensures AllWellFormed([PrintCpus(list[0])] + rest) <==> AllReadable(list)
    ensures AllReadable(list) ==> Total([PrintCpus(list[0])] + rest) == Sizes(list)
  {
    var part := PrintCpus(list[0]);
    PartOfCpus(list[0]);
    WellFormedOfCons(part, rest);
    assert list == [list[0]] + list[1..];
    assert AllReadable(list) <==> Readable(list[0]) && AllReadable(list[1..]);
    if AllReadable(list) {
      TotalOfCons(part, rest);
    }
  }

  lemma {:induction false} SizesPositive(list: seq<Cpus>)
    requires forall i :: 0 <= i < |list| ==> IsCpus(list[i])
    ensures Sizes(list) >= |list|
  {
    if list != [] {
      SizesPositive(list[1..]);
    }
  }

  /**
   * countCPUSet on a printed list: the sum of the sizes modulo 2^64, or zero once a bound of a range is
   * beyond int64. So printing is inverted exactly when both the sum and the bounds of the ranges fit.
   */
  method CountPrinted(list: seq<Cpus>) returns (counter: int)
    requires forall i :: 0 <= i < |list| ==> IsCpus(list[i])
    ensures counter == if AllReadable(list) then Wrap64(Sizes(list)) else 0
    ensures counter == Sizes(list) <==> IsInt64(Sizes(list)) && AllReadable(list)
  {
    counter := CountCPUSet(PrintList(list));
    SizesPositive(list);
    if list != [] {
      PartsOfList(list);
    }
  }

  /** Two processors with numbers beyond int64: the list is well-formed, its size is 2, the answer is 0. */
  method CountBeyondInt64() returns (counter: int)
    ensures Sizes([Range(INT64_MAX + 1, INT64_MAX + 2)]) == 2 && counter == 0
  {
    var list := [Range(INT64_MAX + 1, INT64_MAX + 2)];
    assert !Readable(list[0]);
    assert Sizes(list[1..]) == 0;
    counter := CountPrinted(list);
  }

  // ---- the sizes count the set that is denoted ----

  ghost function Members(c: Cpus): set<nat> {
    match c
    case One(n) => {n}
    case Range(a, b) => Interval(a, b - a + 1)
  }

  /** The n numbers from a on. */
  ghost function Interval(a: nat, n: int): (r: set<nat>)
    ensures forall x :: x in r <==> a <= x < a + n
    decreases n
  {
    if n <= 0 then {} else Interval(a, n - 1) + {a + n - 1}
  }

  ghost function Denoted(list: seq<Cpus>): set<nat> {
    if list == [] then {} else Members(list[0]) + Denoted(list[1..])
  }

  ghost predicate Disjoint(list: seq<Cpus>) {
    list != [] ==> Members(list[0]) !! Denoted(list[1..]) && Disjoint(list[1..])
  }

  lemma {:induction false} IntervalSize(a: nat, n: nat)
    ensures |Interval(a, n)| == n
  {
    if n > 0 {
      IntervalSize(a, n - 1);
    }
  }

  lemma SizeCountsMembers(c: Cpus)
    requires IsCpus(c)
    ensures Size(c) == |Members(c)|
  {
    if c.Range? {
      IntervalSize(c.first, c.last - c.first + 1);
    }
  }

  lemma {:induction false} SizesCountMembers(list: seq<Cpus>)
    requires Disjoint(list) && forall i :: 0 <= i < |list| ==> IsCpus(list[i])
    ensures Sizes(list) == |Denoted(list)|
  {
    if list != [] {
      SizesCountMembers(list[1..]);
      SizeCountsMembers(list[0]);
      assert |Denoted(list)| == |Members(list[0])| + |Denoted(list[1..])|;
    }
  }

  /** On a printed list of disjoint ranges the answer is the number of processors in it, on the same terms. */
  method CountPrintedSet(list: seq<Cpus>) returns (counter: int)
    requires Disjoint(list) && forall i :: 0 <= i < |list| ==> IsCpus(list[i])
    ensures counter == |Denoted(list)| <==>
              |Denoted(list)| <= INT64_MAX && AllReadable(list)
  {
    SizesCountMembers(list);
    counter := CountPrinted(list);
  }

  // ---- malformed lists ----

  /** What ParseInt reads: an optional sign and one or more digits, within int64. */
  lemma ParseIntReads(digits: string)
    requires digits != "" && AllDigits(digits)
    ensures var value: int := DigitsValue(digits);
            && ParseInt(digits) == (if value <= INT64_MAX then Some(value) else None)
            && ParseInt("+" + digits) == ParseInt(digits)
            && ParseInt("-" + digits) == (if value <= INT64_MAX + 1 then Some(-value) else None)
  {
    assert IsDigit(digits[0]);
    assert ("+" + digits)[1..] == digits && ("-" + digits)[1..] == digits;
  }

  /** A part with more than one dash is malformed. */
  lemma TwoDashes(a: string, b: string, c: string)
    requires '-' !in a && '-' !in b
    ensures PartCount(a + "-" + b + "-" + c).None?
  {
    assert a + "-" + b + "-" + c == a + "-" + (b + "-" + c);
    SplitAtFirst(b, '-', c);
    MoreThanTwo(a, b + "-" + c, a + "-" + b + "-" + c);
  }

  lemma MoreThanTwo(a: string, rest: string, part: string)
    requires '-' !in a && part == a + "-" + rest && |Split(rest, '-')| > 1
    ensures PartCount(part).None?
  {
    SplitAtFirst(a, '-', rest);
  }

  /** So is one without a number on one side of its dash; a part without a dash counts one, whatever it holds. */
  lemma OneDashOrNone(a: string, b: string)
    requires '-' !in a && '-' !in b
    ensures ParseInt(a).None? || ParseInt(b).None? <==> PartCount(a + "-" + b).None?
    ensures ParseInt("").None? && PartCount(a) == Some(1)
  {
    PartOfBounds(a, b, ParseInt(a), ParseInt(b));
  }
}
