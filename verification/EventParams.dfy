/** Reading one parameter out of a raw event (get_syscall_evt_param in src/caps/parse/parse.cpp). */
module EventParams {
  type Byte = x: int | 0 <= x < 256
  type UInt32 = x: int | 0 <= x < 0x1_0000_0000

  const TWO_32: int := 0x1_0000_0000

  /** Lengths are uint16_t or, for events with large payloads, uint32_t. */
  datatype Width = Small | Large
  {
    /** The size of an array of n lengths. */
    function Size(n: nat): nat {
      if Small? then 2 * n else 4 * n
    }

    function Limit(): nat {
      if Small? then 0x1_0000 else TWO_32
    }
  }

  // ---- a length as it lies in memory, least significant byte first ----

  function EncodeLength(n: nat, w: Width): (b: seq<Byte>)
    requires n < w.Limit()
    ensures |b| == w.Size(1)
  {
    if w.Small? then [n % 256, n / 256]
    else
      var n1 := n / 256;
      var n2 := n1 / 256;
      [n % 256, n1 % 256, n2 % 256, n2 / 256]
  }

  function DecodeLength(b: seq<Byte>, w: Width): (n: UInt32)
    requires |b| == w.Size(1)
  {
    var b0: int, b1: int := b[0], b[1];
    if w.Small? then b0 + 256 * b1
    else
      var b2: int, b3: int := b[2], b[3];
      b0 + 256 * (b1 + 256 * (b2 + 256 * b3))
  }

  lemma LengthRoundTrip(n: nat, w: Width)
    requires n < w.Limit()
    ensures DecodeLength(EncodeLength(n, w), w) == n
  {
  }

  /** Bytes come least significant first. */
  lemma LeastSignificantFirst(a: Byte, b: Byte, c: Byte, e: Byte)
    ensures DecodeLength([a, b], Small) == a + 0x100 * b
    ensures DecodeLength([a, b, c, e], Large) == a + 0x100 * b + 0x1_0000 * c + 0x100_0000 * e
  {
  }

  // ---- the length array and the payload ----

  /** len[j], where header is the size of the fixed event header. */
  function LengthAt(evt: seq<Byte>, header: nat, w: Width, j: nat): UInt32
    requires header + w.Size(j + 1) <= |evt|
  {
    DecodeLength(evt[header + w.Size(j)..header + w.Size(j + 1)], w)
  }

  /** The sum of the first n lengths of the array, not reduced. */
  function LengthSum(evt: seq<Byte>, header: nat, w: Width, n: nat): nat
    requires header + w.Size(n) <= |evt|
  {
    if n == 0 then 0 else LengthSum(evt, header, w, n - 1) + LengthAt(evt, header, w, n - 1)
  }

  lemma AddModulo(a: nat, b: nat)
    ensures (a % TWO_32 + b) % TWO_32 == (a + b) % TWO_32
  {
  }

  /**
   * get_syscall_evt_param: the length of parameter numParam and its position in the event. The offset
   * is a uint32_t, so the sum of the preceding lengths is taken modulo 2^32.
   */
  method GetSyscallEvtParam(evt: seq<Byte>, header: nat, nparams: nat, w: Width, numParam: nat)
    returns (paramLen: UInt32, paramPointer: nat)
    requires numParam < nparams && header + w.Size(nparams) <= |evt|
    ensures header + w.Size(numParam + 1) <= |evt| && header + w.Size(numParam) <= |evt|
    ensures paramLen == LengthAt(evt, header, w, numParam)
    ensures paramPointer == header + w.Size(nparams) + LengthSum(evt, header, w, numParam) % TWO_32
  {
    var dataOffset: UInt32 := 0;
    for j := 0 to numParam
      invariant header + w.Size(j) <= |evt|
      invariant dataOffset == LengthSum(evt, header, w, j) % TWO_32
    {
      AddModulo(LengthSum(evt, header, w, j), LengthAt(evt, header, w, j));
      dataOffset := (dataOffset + LengthAt(evt, header, w, j)) % TWO_32;
    }
    paramLen := LengthAt(evt, header, w, numParam);
    paramPointer := header + w.Size(nparams) + dataOffset;
  }

  // ---- encoding a list of parameters ----

  type Param = seq<Byte>

  predicate Fit(params: seq<Param>, w: Width) {
    forall i :: 0 <= i < |params| ==> |params[i]| < w.Limit()
  }

  function Concat(parts: seq<seq<Byte>>): seq<Byte> {
    if parts == [] then [] else Concat(parts[..|parts| - 1]) + parts[|parts| - 1]
  }

  /** Where part i begins in the concatenation. */
  function Start(parts: seq<seq<Byte>>, i: nat): nat
    requires i <= |parts|
  {
    |Concat(parts[..i])|
  }

  function Codes(params: seq<Param>, w: Width): seq<seq<Byte>>
    requires Fit(params, w)
  {
    seq(|params|, i requires 0 <= i < |params| => EncodeLength(|params[i]|, w))
  }

  function Encode(header: seq<Byte>, params: seq<Param>, w: Width): seq<Byte>
    requires Fit(params, w)
  {
    header + Concat(Codes(params, w)) + Concat(params)
  }

  /** Part i is the stretch of the concatenation between its start and the next one's. */
  lemma {:induction false} PartAt(parts: seq<seq<Byte>>, i: nat)
    requires i < |parts|
    ensures Start(parts, i) + |parts[i]| == Start(parts, i + 1) <= |Concat(parts)|
    ensures Concat(parts)[Start(parts, i)..Start(parts, i + 1)] == parts[i]
  {
    var last := |parts| - 1;
    assert parts[..i + 1][..i] == parts[..i];
    if i < last {
      PartAt(parts[..last], i);
      assert parts[..last][..i] == parts[..i] && parts[..last][..i + 1] == parts[..i + 1];
      assert Concat(parts)[Start(parts, i)..Start(parts, i + 1)] ==
             Concat(parts[..last])[Start(parts, i)..Start(parts, i + 1)];
    } else {
      assert parts[..i + 1] == parts;
    }
  }

  lemma {:induction false} StartOfCode(codes: seq<seq<Byte>>, w: Width, i: nat)
    requires i <= |codes| && forall k :: 0 <= k < |codes| ==> |codes[k]| == w.Size(1)
    ensures Start(codes, i) == w.Size(i)
  {
    if i > 0 {
      StartOfCode(codes, w, i - 1);
      PartAt(codes, i - 1);
    }
  }

  lemma CodesSize(params: seq<Param>, w: Width)
    requires Fit(params, w)
    ensures |Concat(Codes(params, w))| == w.Size(|params|)
  {
    var codes := Codes(params, w);
    StartOfCode(codes, w, |codes|);
    assert codes[..|codes|] == codes;
  }

  lemma EncodedLength(header: seq<Byte>, params: seq<Param>, w: Width, j: nat)
    requires Fit(params, w) && j < |params|
    ensures |header| + w.Size(j + 1) <= |Encode(header, params, w)|
    ensures LengthAt(Encode(header, params, w), |header|, w, j) == |params[j]|
  {
    var codes, h := Codes(params, w), |header|;
    CodesSize(params, w);
    PartAt(codes, j);
    StartOfCode(codes, w, j);
    StartOfCode(codes, w, j + 1);
    SliceOfMiddle(header, Concat(codes), Concat(params), w.Size(j), w.Size(j + 1));
    LengthRoundTrip(|params[j]|, w);
  }

  lemma SliceOfMiddle(a: seq<Byte>, b: seq<Byte>, c: seq<Byte>, lo: nat, hi: nat)
    requires lo <= hi <= |b|
    ensures (a + b + c)[|a| + lo..|a| + hi] == b[lo..hi]
  {
  }

  /** The offsets of the decoder are the places where the encoder puts the parameters. */
  lemma {:induction false} SumIsStart(header: seq<Byte>, params: seq<Param>, w: Width, i: nat)
    requires Fit(params, w) && i <= |params|
    ensures |header| + w.Size(i) <= |Encode(header, params, w)|
    ensures LengthSum(Encode(header, params, w), |header|, w, i) == Start(params, i)
  {
    if i > 0 {
      SumIsStart(header, params, w, i - 1);
      EncodedLength(header, params, w, i - 1);
      assert params[..i][..i - 1] == params[..i - 1];
    }
  }

  /** The regions of different parameters do not overlap, and together they are the payload. */
  lemma {:induction false} RegionsPartitionPayload(params: seq<Param>, i: nat, j: nat)
    requires i <= j <= |params|
    ensures Start(params, i) <= Start(params, j)
    ensures i < j ==> Start(params, i) + |params[i]| <= Start(params, j)
    ensures Start(params, 0) == 0 && Start(params, |params|) == |Concat(params)|
  {
    assert params[..0] == [] && params[..|params|] == params;
    if i < j {
      RegionsPartitionPayload(params, i, j - 1);
      PartAt(params, j - 1);
    }
  }

  /**
   * Decoding an encoded event: the length is always right, and the position is right exactly when the
   * preceding parameters hold fewer than 2^32 bytes. The bytes there are then the parameter.
   */
  method DecodeEncoded(header: seq<Byte>, params: seq<Param>, w: Width, i: nat)
    returns (paramLen: UInt32, paramPointer: nat)
    requires Fit(params, w) && i < |params|
    ensures paramLen == |params[i]|
    ensures var at := |header| + w.Size(|params|) + Start(params, i);
            && (paramPointer == at <==> Start(params, i) < TWO_32)
            && at + paramLen <= |Encode(header, params, w)|
            && Encode(header, params, w)[at..at + paramLen] == params[i]
  {
    var evt := Encode(header, params, w);
    EncodedLength(header, params, w, |params| - 1);
    paramLen, paramPointer := GetSyscallEvtParam(evt, |header|, |params|, w, i);
    EncodedLength(header, params, w, i);
    SumIsStart(header, params, w, i);
    EncodedParam(header, params, w, i);
    SmallIsUnchanged(Start(params, i));
  }

  lemma SmallIsUnchanged(n: nat)
    ensures n % TWO_32 == n <==> n < TWO_32
  {
  }

  lemma EncodedParam(header: seq<Byte>, params: seq<Param>, w: Width, i: nat)
    requires Fit(params, w) && i < |params|
    ensures var at := |header| + w.Size(|params|) + Start(params, i);
            && at + |params[i]| <= |Encode(header, params, w)|
            && Encode(header, params, w)[at..at + |params[i]|] == params[i]
  {
    PartAt(params, i);
    CodesSize(params, w);
    var front := header + Concat(Codes(params, w));
    SliceOfMiddle(front, Concat(params), [], Start(params, i), Start(params, i + 1));
    assert front + Concat(params) + [] == Encode(header, params, w);
  }

  // ---- what is read at a parameter ----

  /** Where parameter i begins, by the lengths in the event. */
  function ParamAt(evt: seq<Byte>, header: nat, nparams: nat, w: Width, i: nat): nat
    requires i < nparams && header + w.Size(nparams) <= |evt|
  {
    header + w.Size(nparams) + LengthSum(evt, header, w, i) % TWO_32
  }

  /** An encoded parameter that fewer than 2^32 bytes precede begins where the encoder put it. */
  lemma ParamAtEncoded(header: seq<Byte>, params: seq<Param>, w: Width, i: nat)
    requires Fit(params, w) && i < |params| && Start(params, i) < TWO_32
    ensures var evt := Encode(header, params, w);
            && |header| + w.Size(|params|) <= |evt|
            && ParamAt(evt, |header|, |params|, w, i) + |params[i]| <= |evt|
            && evt[ParamAt(evt, |header|, |params|, w, i)..ParamAt(evt, |header|, |params|, w, i) + |params[i]|] == params[i]
  {
    PlaceOfEncoded(header, params, w, i);
    EncodedParam(header, params, w, i);
  }

  lemma PlaceOfEncoded(header: seq<Byte>, params: seq<Param>, w: Width, i: nat)
    requires Fit(params, w) && i < |params| && Start(params, i) < TWO_32
    ensures |header| + w.Size(|params|) <= |Encode(header, params, w)|
    ensures ParamAt(Encode(header, params, w), |header|, |params|, w, i) == |header| + w.Size(|params|) + Start(params, i)
  {
    CodesSize(params, w);
    SumIsStart(header, params, w, i);
    PlaceOfSum(Encode(header, params, w), |header|, |params|, w, i, Start(params, i));
  }

  lemma PlaceOfSum(evt: seq<Byte>, header: nat, nparams: nat, w: Width, i: nat, sum: nat)
    requires i < nparams && header + w.Size(nparams) <= |evt|
    requires LengthSum(evt, header, w, i) == sum < TWO_32
    ensures ParamAt(evt, header, nparams, w, i) == header + w.Size(nparams) + sum
  {
  }

  /** An int64_t in memory, as memcpy reads it on a little-endian machine. */
  function Int64Of(b: seq<Byte>): int
    requires |b| == 8
  {
    var low: int, high: int := DecodeLength(b[..4], Large), DecodeLength(b[4..], Large);
    (if high < TWO_32 / 2 then high else high - TWO_32) * TWO_32 + low
  }

  function EncodeInt64(x: int): seq<Byte>
    requires -0x8000_0000_0000_0000 <= x < 0x8000_0000_0000_0000
  {
    var high := if x < 0 then x / TWO_32 + TWO_32 else x / TWO_32;
    EncodeLength(x % TWO_32, Large) + EncodeLength(high, Large)
  }

  lemma Int64RoundTrip(x: int)
    requires -0x8000_0000_0000_0000 <= x < 0x8000_0000_0000_0000
    ensures |EncodeInt64(x)| == 8 && Int64Of(EncodeInt64(x)) == x
  {
    var high := if x < 0 then x / TWO_32 + TWO_32 else x / TWO_32;
    var low := EncodeLength(x % TWO_32, Large);
    assert EncodeInt64(x)[..4] == low && EncodeInt64(x)[4..] == EncodeLength(high, Large);
    LengthRoundTrip(x % TWO_32, Large);
    LengthRoundTrip(high, Large);
  }

  /** Some byte at p or later is zero, so that reading a C string there ends inside the event. */
  predicate HasNul(evt: seq<Byte>, p: nat) {
    exists i :: p <= i < |evt| && evt[i] == 0
  }

  /** The C string at p. */
  function CString(evt: seq<Byte>, p: nat): string
    requires HasNul(evt, p)
    decreases |evt| - p
  {
    if evt[p] == 0 then "" else [evt[p] as char] + CString(evt, p + 1)
  }

  /** A string without NUL, and the NUL that ends it. */
  predicate IsText(s: string) {
    forall i :: 0 <= i < |s| ==> 0 < s[i] as int < 256
  }

  function TextBytes(s: string): seq<Byte>
    requires IsText(s)
  {
    seq(|s|, i requires 0 <= i < |s| => s[i] as int) + [0]
  }

  lemma {:induction false} CStringOfText(evt: seq<Byte>, p: nat, s: string)
    requires IsText(s) && p + |s| < |evt|
    requires evt[p + |s|] == 0 && forall i :: 0 <= i < |s| ==> evt[p + i] == s[i] as int
    ensures HasNul(evt, p) && CString(evt, p) == s
    decreases |s|
  {
    if s != "" {
      CStringOfText(evt, p + 1, s[1..]);
      assert evt[p] as char == s[0];
    }
  }

  lemma CStringAt(evt: seq<Byte>, p: nat, s: string)
    requires IsText(s) && p + |TextBytes(s)| <= |evt| && evt[p..p + |TextBytes(s)|] == TextBytes(s)
    ensures HasNul(evt, p) && CString(evt, p) == s
  {
    var read := evt[p..p + |TextBytes(s)|];
    assert read[|s|] == evt[p + |s|] && TextBytes(s)[|s|] == 0;
    forall i | 0 <= i < |s|
      ensures evt[p + i] == s[i] as int
    {
      assert read[i] == evt[p + i] && TextBytes(s)[i] == s[i] as int;
    }
    CStringOfText(evt, p, s);
  }

  lemma {:induction false} StartIsSmall(params: seq<Param>, i: nat)
    requires Fit(params, Small) && i <= |params|
    ensures Start(params, i) <= i * 0x1_0000
  {
    if i == 0 {
      assert params[..0] == [];
    } else {
      StartIsSmall(params, i - 1);
      PartAt(params, i - 1);
    }
  }

  /** A text parameter of a short event is read back as the C string it was. */
  lemma TextRoundTrip(header: seq<Byte>, params: seq<Param>, i: nat, s: string)
    requires Fit(params, Small) && i < |params| <= 0x1_0000 && IsText(s) && params[i] == TextBytes(s)
    ensures var evt := Encode(header, params, Small);
            && |header| + Small.Size(|params|) <= |evt|
            && HasNul(evt, ParamAt(evt, |header|, |params|, Small, i))
            && CString(evt, ParamAt(evt, |header|, |params|, Small, i)) == s
  {
    StartIsSmall(params, i);
    ParamAtEncoded(header, params, Small, i);
    CStringAt(Encode(header, params, Small), ParamAt(Encode(header, params, Small), |header|, |params|, Small, i), s);
  }
}
