/** FFmpeg muxer: byte-stream access units become length-prefixed samples, and a
    keyframe's parameter sets become the avcC record. The parsers here follow
    ISO/IEC 14496-15:2010, sections 5.2.3 and 5.2.4.1, not the muxer. */
module Avcc {
  import opened Core
  import opened AnnexB
  import Bits

  /** `b & 0x1F`. */
  function NalType(b: Byte): nat {
    Bits.And(b as nat, 0x1F)
  }

  lemma NalTypeIsLowFiveBits(b: Byte)
    ensures NalType(b) == b as nat % 32
  {
    assert Bits.Pow2(5) == 32;
    Bits.AndLowBits(b as nat, 5);
  }

  // ----- Length-prefixed samples (section 5.2.3) -----

  /** `n` cast to 32 bits, big-endian. */
  function BigEndian4(n: nat): (b: Bytes)
    ensures |b| == 4
  {
    [(n / 0x1000000 % 0x100) as Byte, (n / 0x10000 % 0x100) as Byte,
     (n / 0x100 % 0x100) as Byte, (n % 0x100) as Byte]
  }

  /** `n` cast to 16 bits, big-endian. */
  function BigEndian2(n: nat): (b: Bytes)
    ensures |b| == 2
  {
    [(n / 0x100 % 0x100) as Byte, (n % 0x100) as Byte]
  }

  function Read4(b: Bytes): (n: nat)
    requires |b| == 4
    ensures n < 0x1_0000_0000
  {
    0x1000000 * b[0] as nat + 0x10000 * b[1] as nat + 0x100 * b[2] as nat + b[3] as nat
  }

  function Read2(b: Bytes): (n: nat)
    requires |b| == 2
    ensures n < 0x1_0000
  {
    0x100 * b[0] as nat + b[1] as nat
  }

  /** A length survives its field exactly when it is below 2^32 or 2^16: the
      field holds it modulo that. */
  lemma ReadPrefix(n: nat)
    ensures Read4(BigEndian4(n)) == n % 0x1_0000_0000
    ensures Read2(BigEndian2(n)) == n % 0x1_0000
  {
    var q1 := n / 0x100;
    var q2 := q1 / 0x100;
    var q3 := q2 / 0x100;
    assert n / 0x10000 == q2 && n / 0x1000000 == q3;
    assert n == 0x1000000 * q3 + 0x10000 * (q2 % 0x100) + 0x100 * (q1 % 0x100) + n % 0x100;
    assert n == 0x1_0000_0000 * (q3 / 0x100) + Read4(BigEndian4(n));
    assert n == 0x1_0000 * q2 + Read2(BigEndian2(n));
  }

  /** Units that stay in a sample: everything but SPS (7) and PPS (8). */
  function Slices(us: seq<Bytes>): seq<Bytes> {
    if us == [] then []
    else (if IsSlice(us[0]) then [us[0]] else []) + Slices(us[1..])
  }

  predicate IsSlice(u: Bytes) {
    u != [] && NalType(u[0]) != 7 && NalType(u[0]) != 8
  }

  /** Neither SPS nor PPS, by the low five bits of the header byte. */
  predicate Kept(u: Bytes) {
    u != [] && u[0] as nat % 32 != 7 && u[0] as nat % 32 != 8
  }

  /** `part` consists of the members of `us` at the places `at`, which are in order. */
  ghost predicate AtPlaces(us: seq<Bytes>, part: seq<Bytes>, at: seq<nat>) {
    && |part| == |at|
    && (forall j :: 0 <= j < |at| ==> at[j] < |us| && part[j] == us[at[j]])
    && (forall i, j :: 0 <= i < j < |at| ==> at[i] < at[j])
  }

  /** `at` are exactly the places of kept units. */
  ghost predicate KeptPlaces(us: seq<Bytes>, at: seq<nat>) {
    forall i :: 0 <= i < |us| ==> (Kept(us[i]) <==> i in at)
  }

  ghost predicate KeptPart(us: seq<Bytes>, part: seq<Bytes>, at: seq<nat>) {
    AtPlaces(us, part, at) && KeptPlaces(us, at)
  }

  function Shifted(at: seq<nat>): (r: seq<nat>)
    ensures |r| == |at| && forall j :: 0 <= j < |at| ==> r[j] == at[j] + 1
  {
    seq(|at|, j requires 0 <= j < |at| => at[j] + 1)
  }

  lemma ShiftedPlaces(at: seq<nat>, i: nat)
    ensures i + 1 in Shifted(at) <==> i in at
    ensures 0 !in Shifted(at)
  {
    if i in at {
      var j :| 0 <= j < |at| && at[j] == i;
      assert Shifted(at)[j] == i + 1;
    }
  }

  lemma PlacesShift(us: seq<Bytes>, part: seq<Bytes>, at: seq<nat>)
    requires us != [] && AtPlaces(us[1..], part, at)
    ensures AtPlaces(us, part, Shifted(at))
  {
    forall j | 0 <= j < |at| ensures part[j] == us[Shifted(at)[j]] {
      assert us[1..][at[j]] == us[at[j] + 1];
    }
  }

  lemma FrontIndex<T>(x: T, s: seq<T>, j: nat)
    requires j <= |s|
    ensures ([x] + s)[j] == if j == 0 then x else s[j - 1]
  {
  }

  lemma PlacesTakeFront(us: seq<Bytes>, part: seq<Bytes>, at: seq<nat>)
    requires us != [] && AtPlaces(us, part, at) && forall j :: 0 <= j < |at| ==> 0 < at[j]
    ensures AtPlaces(us, [us[0]] + part, [0] + at)
  {
    var p, q := [us[0]] + part, [0] + at;
    forall j | 0 <= j < |q| ensures q[j] < |us| && p[j] == us[q[j]] {
      FrontIndex(us[0], part, j);
      FrontIndex(0, at, j);
    }
    forall i, j | 0 <= i < j < |q| ensures q[i] < q[j] {
      FrontIndex(0, at, i);
      FrontIndex(0, at, j);
    }
  }

  lemma KeptShift(us: seq<Bytes>, at: seq<nat>, i: nat)
    requires us != [] && KeptPlaces(us[1..], at) && 0 < i < |us|
    ensures Kept(us[i]) <==> i in Shifted(at)
    ensures Kept(us[i]) <==> i in [0] + Shifted(at)
  {
    ShiftedPlaces(at, i - 1);
    assert us[i] == us[1..][i - 1];
    OneMoreMember(0, Shifted(at), i);
  }

  lemma OneMoreMember(x: nat, at: seq<nat>, i: nat)
    ensures i in [x] + at <==> i == x || i in at
  {
  }

  /** One more unit in front, kept or not. */
  lemma KeptPartOneMore(us: seq<Bytes>, part: seq<Bytes>, at: seq<nat>)
    requires us != [] && KeptPart(us[1..], part, at)
    ensures if Kept(us[0]) then KeptPart(us, [us[0]] + part, [0] + Shifted(at)) else KeptPart(us, part, Shifted(at))
  {
    PlacesShift(us, part, at);
    PlacesTakeFront(us, part, Shifted(at));
    ShiftedPlaces(at, 0);
    OneMoreMember(0, Shifted(at), 0);
    forall i | 0 < i < |us| ensures (Kept(us[i]) <==> i in Shifted(at)) && (Kept(us[i]) <==> i in [0] + Shifted(at)) {
      KeptShift(us, at, i);
    }
  }

  /** What a sample is made of, for every list of units: the units whose type is
      neither 7 nor 8, each as often as it occurs, in order, and nothing else. */
  lemma SlicesAreKept(us: seq<Bytes>) returns (at: seq<nat>)
    ensures KeptPart(us, Slices(us), at)
    ensures forall u <- us :: u in Slices(us) <==> u != [] && u[0] as nat % 32 != 7 && u[0] as nat % 32 != 8
  {
    at := KeptBySlices(us);
    KeptMembers(us, Slices(us), at);
  }

  lemma KeptIsSlice(u: Bytes)
    ensures IsSlice(u) <==> Kept(u)
  {
    if u != [] {
      NalTypeIsLowFiveBits(u[0]);
    }
  }

  lemma {:induction false} KeptBySlices(us: seq<Bytes>) returns (at: seq<nat>)
    ensures KeptPart(us, Slices(us), at)
    decreases |us|
  {
    if us == [] {
      at := [];
    } else {
      at := KeptBySlices(us[1..]);
      KeptIsSlice(us[0]);
      KeptPartOneMore(us, Slices(us[1..]), at);
      at := if Kept(us[0]) then [0] + Shifted(at) else Shifted(at);
    }
  }

  lemma KeptMembers(us: seq<Bytes>, part: seq<Bytes>, at: seq<nat>)
    requires KeptPart(us, part, at)
    ensures forall u <- us :: u in part <==> Kept(u)
  {
    forall u <- us ensures u in part <==> Kept(u) {
      var i :| 0 <= i < |us| && us[i] == u;
      if u in part {
        var j :| 0 <= j < |part| && part[j] == u;
        assert at[j] in at;
      }
      if i in at {
        var j :| 0 <= j < |at| && at[j] == i;
      }
    }
  }

  /** `AppendLenPrefixed` over a list. */
  function Samples(us: seq<Bytes>): Bytes {
    if us == [] then [] else BigEndian4(|us[0]|) + us[0] + Samples(us[1..])
  }

  /** The length-prefixed reader: a 4-byte length, that many bytes, repeat. */
  function ParseSamples(b: Bytes): Option<seq<Bytes>>
    decreases |b|
  {
    if b == [] then Some([])
    else if |b| < 4 || |b| - 4 < Read4(b[..4]) then None
    else
      var n := Read4(b[..4]);
      match ParseSamples(b[4 + n..])
      case None => None
      case Some(us) => Some([b[4..4 + n]] + us)
  }

  predicate Fits(us: seq<Bytes>, limit: nat) {
    forall i :: 0 <= i < |us| ==> |us[i]| < limit
  }

  lemma {:induction false} ParsedFits(b: Bytes)
    ensures ParseSamples(b).Some? ==> Fits(ParseSamples(b).value, 0x1_0000_0000)
    decreases |b|
  {
    if |b| >= 4 {
      var n := Read4(b[..4]);
      if n <= |b| - 4 {
        ParsedFits(b[4 + n..]);
      }
    }
  }

  lemma ParseOneSample(u: Bytes, rest: Bytes)
    requires |u| < 0x1_0000_0000
    ensures ParseSamples(BigEndian4(|u|) + u + rest) ==
            match ParseSamples(rest) case None => None case Some(us) => Some([u] + us)
  {
    ReadPrefix(|u|);
    ParsePrefixed(BigEndian4(|u|), u, rest);
  }

  lemma ParsePrefixed(prefix: Bytes, u: Bytes, rest: Bytes)
    requires |prefix| == 4 && Read4(prefix) == |u|
    ensures ParseSamples(prefix + u + rest) ==
            match ParseSamples(rest) case None => None case Some(us) => Some([u] + us)
  {
    Parts(prefix, u, rest);
  }

  lemma {:induction false} ParseUndoesSamples(us: seq<Bytes>)
    requires Fits(us, 0x1_0000_0000)
    ensures ParseSamples(Samples(us)) == Some(us)
    decreases |us|
  {
    if us != [] {
      ParseOneSample(us[0], Samples(us[1..]));
      ParseUndoesSamples(us[1..]);
      assert us == [us[0]] + us[1..];
    }
  }

  /** Reading samples back gives the units exactly when every length fits the
      32-bit prefix that the muxer truncates it to. */
  lemma SamplesRoundTrip(us: seq<Bytes>)
    ensures ParseSamples(Samples(us)) == Some(us) <==> Fits(us, 0x1_0000_0000)
  {
    ParsedFits(Samples(us));
    if Fits(us, 0x1_0000_0000) {
      ParseUndoesSamples(us);
    }
  }

  lemma {:induction false} SamplesConcat(a: seq<Bytes>, b: seq<Bytes>)
    ensures Samples(a + b) == Samples(a) + Samples(b)
    decreases |a|
  {
    if a == [] {
      assert a + b == b;
    } else {
      SamplesConcat(a[1..], b);
      TailOfConcat(a, b);
      Associate(BigEndian4(|a[0]|) + a[0], Samples(a[1..]), Samples(b));
    }
  }

  lemma {:induction false} SlicesConcat(a: seq<Bytes>, b: seq<Bytes>)
    ensures Slices(a + b) == Slices(a) + Slices(b)
    decreases |a|
  {
    if a == [] {
      assert a + b == b;
    } else {
      SlicesConcat(a[1..], b);
      TailOfConcat(a, b);
      Associate(if IsSlice(a[0]) then [a[0]] else [], Slices(a[1..]), Slices(b));
    }
  }

  lemma SamplesEmpty(us: seq<Bytes>)
    ensures Samples(us) == [] <==> us == []
  {
  }

  method AppendLenPrefixed(out: Bytes, nal: Bytes) returns (out': Bytes)
    ensures out' == out + Samples([nal])
  {
    out' := out + BigEndian4(|nal|) + nal;
  }

  /** `AnnexBToAvcc`: the units of the access unit, parameter sets removed, each
      behind its length. It fails exactly when nothing is left. */
  method AnnexBToAvcc(data: Bytes) returns (st: Status, out: Bytes)
    ensures out == Samples(Slices(Split(data)))
    ensures st == if Slices(Split(data)) == [] then EncodeFailed else Ok
  {
    out := [];
    var p := 0;
    ghost var units := [];
    ScanBegins(data);
    while p < |data|
      invariant p <= |data|
      invariant Scanned(data, units, data[p..])
      invariant out == Samples(Slices(units))
    {
      var sc := CodeLength(data[p..]);
      if sc == 0 {
        ScanSkips(data, units, p);
        p := p + 1;
      } else {
        var nal := p + sc;
        var end := SkipToCode(data, nal);
        var unit := data[nal..end];
        ScanTakes(data, units, p, nal, end);
        SlicesConcat(units, NonEmpty(unit));
        SamplesConcat(Slices(units), Slices(NonEmpty(unit)));
        units := units + NonEmpty(unit);
        p := end;
        if unit != [] && NalType(unit[0]) != 7 && NalType(unit[0]) != 8 {
          out := AppendLenPrefixed(out, unit);
        }
      }
    }
    ScanEnds(data, units, p);
    SamplesEmpty(Slices(units));
    st := if out == [] then EncodeFailed else Ok;
  }

  /** So the conversion succeeds exactly when some unit is of neither type. */
  lemma ConversionSucceedsIff(data: Bytes)
    ensures Slices(Split(data)) != [] <==> exists u <- Split(data) :: u != [] && u[0] as nat % 32 != 7 && u[0] as nat % 32 != 8
  {
    var at := SlicesAreKept(Split(data));
    if Slices(Split(data)) != [] {
      assert Split(data)[at[0]] in Split(data) && at[0] in at;
    }
  }

  /** The meaning of an access unit survives the conversion: reading the sample
      back gives the byte stream's units, in order, without those of types 7 and 8
      and without any other loss, exactly when they fit their length fields; an
      input below 4 GiB does. `at` are the places of the units that are kept. */
  lemma ConversionPreservesUnits(data: Bytes) returns (at: seq<nat>)
    ensures KeptPart(Split(data), Slices(Split(data)), at)
    ensures |data| < 0x1_0000_0000 ==>
              ParseSamples(Samples(Slices(Split(data)))).Some? &&
              KeptPart(Split(data), ParseSamples(Samples(Slices(Split(data)))).value, at)
    ensures ParseSamples(Samples(Slices(Split(data)))) == Some(Slices(Split(data))) <==>
            Fits(Slices(Split(data)), 0x1_0000_0000)
    ensures |data| < 0x1_0000_0000 ==> Fits(Slices(Split(data)), 0x1_0000_0000)
  {
    SplitFits(data);
    SlicesFit(Split(data), |data| + 1);
    SamplesRoundTrip(Slices(Split(data)));
    at := SlicesAreKept(Split(data));
  }

  lemma {:induction false} SplitFits(s: Bytes)
    ensures Fits(Split(s), |s| + 1)
    decreases |s|
  {
    if Lead(s) != |s| {
      var rest := AfterCode(s);
      SplitFits(rest[Lead(rest)..]);
    }
  }

  lemma {:induction false} SlicesFit(us: seq<Bytes>, limit: nat)
    requires Fits(us, limit)
    ensures Fits(Slices(us), limit)
    decreases |us|
  {
    if us != [] {
      SlicesFit(us[1..], limit);
    }
  }
}
