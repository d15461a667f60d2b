/** Finding a stream's parameter sets, and the decoder configuration record
    (avcC) that the FFmpeg muxer builds from them. */
module AvcRecord {
  import opened Core
  import opened AnnexB
  import opened Avcc

  const SPS := 7
  const PPS := 8

  /** The first unit of a type, at least `least` bytes long; [] if there is none. */
  function FirstOf(us: seq<Bytes>, nalType: nat, least: nat): Bytes {
    if us == [] then []
    else if us[0] != [] && NalType(us[0][0]) == nalType && least <= |us[0]| then us[0]
    else FirstOf(us[1..], nalType, least)
  }

  /** What `FirstOf` finds: it fails exactly when no unit qualifies, and what it
      returns qualifies and is preceded by none that does. */
  lemma {:induction false} FirstOfIsFirst(us: seq<Bytes>, nalType: nat, least: nat) returns (k: nat)
    ensures k <= |us|
    ensures forall i :: 0 <= i < k ==> !Qualifies(us[i], nalType, least)
    ensures FirstOf(us, nalType, least) == [] <==> k == |us|
    ensures k < |us| ==> Qualifies(us[k], nalType, least) && FirstOf(us, nalType, least) == us[k]
  {
    if us == [] || Qualifies(us[0], nalType, least) {
      k := 0;
    } else {
      k := FirstOfIsFirst(us[1..], nalType, least);
      forall i | 0 <= i < k + 1 ensures !Qualifies(us[i], nalType, least) {
        assert i > 0 ==> us[i] == us[1..][i - 1];
      }
      k := k + 1;
    }
  }

  predicate Qualifies(u: Bytes, nalType: nat, least: nat) {
    u != [] && NalType(u[0]) == nalType && least <= |u|
  }

  lemma {:induction false} FirstOfConcat(a: seq<Bytes>, b: seq<Bytes>, nalType: nat, least: nat)
    ensures FirstOf(a + b, nalType, least) ==
            if FirstOf(a, nalType, least) != [] then FirstOf(a, nalType, least) else FirstOf(b, nalType, least)
    decreases |a|
  {
    if a == [] {
      assert a + b == b;
    } else {
      TailOfConcat(a, b);
      FirstOfConcat(a[1..], b, nalType, least);
    }
  }

  // ----- The record -----

  /** A parameter set behind its 16-bit length. */
  function SetBytes(ps: Bytes): Bytes {
    BigEndian2(|ps|) + ps
  }

  function Header(sps: Bytes): Bytes
    requires 4 <= |sps|
  {
    [1, sps[1], sps[2], sps[3], 0xFF, 0xE1]
  }

  /** The bytes `BuildExtradata` emits for one SPS and one PPS. */
  function Record(sps: Bytes, pps: Bytes): Bytes
    requires 4 <= |sps|
  {
    Header(sps) + (SetBytes(sps) + ([1] + SetBytes(pps)))
  }

  /** AVCDecoderConfigurationRecord as far as its picture parameter sets. */
  datatype Config = Config(
    profile: Byte, compatibility: Byte, level: Byte, lengthSize: nat,
    spss: seq<Bytes>, ppss: seq<Bytes>, rest: Bytes)

  /** `n` parameter sets, each behind a 16-bit length. */
  function ParseSets(b: Bytes, n: nat): Option<(seq<Bytes>, Bytes)>
    decreases n
  {
    if n == 0 then Some(([], b))
    else if |b| < 2 || |b| - 2 < Read2(b[..2]) then None
    else
      var len := Read2(b[..2]);
      match ParseSets(b[2 + len..], n - 1)
      case None => None
      case Some((sets, rest)) => Some(([b[2..2 + len]] + sets, rest))
  }

  /** The SPS array, the PPS count and the PPS array. */
  function ParseArrays(b: Bytes, spsCount: nat): Option<(seq<Bytes>, seq<Bytes>, Bytes)> {
    match ParseSets(b, spsCount)
    case None => None
    case Some((spss, more)) =>
      if more == [] then None
      else
        match ParseSets(more[1..], more[0] as nat)
        case None => None
        case Some((ppss, rest)) => Some((spss, ppss, rest))
  }

  /** Section 5.2.4.1: version 1, six reserved ones over lengthSizeMinusOne, three
      reserved ones over the SPS count, the SPSs, the PPS count, the PPSs. */
  function ParseRecord(b: Bytes): Option<Config> {
    if |b| < 6 || b[0] != 1 || b[4] < 0xFC || b[5] < 0xE0 then None
    else
      match ParseArrays(b[6..], b[5] as nat % 32)
      case None => None
      case Some((spss, ppss, rest)) => Some(Config(b[1], b[2], b[3], b[4] as nat % 4 + 1, spss, ppss, rest))
  }

  lemma {:induction false} ParsedSetsFit(b: Bytes, n: nat)
    ensures ParseSets(b, n).Some? ==> Fits(ParseSets(b, n).value.0, 0x1_0000)
    decreases n
  {
    if n != 0 && |b| >= 2 && Read2(b[..2]) <= |b| - 2 {
      ParsedSetsFit(b[2 + Read2(b[..2])..], n - 1);
    }
  }

  lemma ParseOneSet(ps: Bytes, rest: Bytes)
    requires |ps| < 0x1_0000
    ensures ParseSets(SetBytes(ps) + rest, 1) == Some(([ps], rest))
  {
    ReadPrefix(|ps|);
    Parts(BigEndian2(|ps|), ps, rest);
    assert ParseSets(rest, 0) == Some(([], rest));
    assert [ps] + [] == [ps];
  }

  lemma ParseShortArrays(sps: Bytes, pps: Bytes)
    requires |sps| < 0x1_0000 && |pps| < 0x1_0000
    ensures ParseArrays(SetBytes(sps) + ([1] + SetBytes(pps)), 1) == Some(([sps], [pps], []))
  {
    var more := [1] + SetBytes(pps);
    ParseOneSet(sps, more);
    assert more[1..] == SetBytes(pps) + [];
    ParseOneSet(pps, []);
  }

  lemma ParseShortRecord(sps: Bytes, pps: Bytes)
    requires 4 <= |sps| < 0x1_0000 && |pps| < 0x1_0000
    ensures ParseRecord(Record(sps, pps)) == Some(Config(sps[1], sps[2], sps[3], 4, [sps], [pps], []))
  {
    ParseShortArrays(sps, pps);
    ParseAfterHeader(Header(sps), SetBytes(sps) + ([1] + SetBytes(pps)));
  }

  lemma ParseAfterHeader(h: Bytes, rest: Bytes)
    requires |h| == 6 && h[0] == 1 && h[4] == 0xFF && h[5] == 0xE1
    ensures ParseRecord(h + rest) ==
            match ParseArrays(rest, 1)
            case None => None
            case Some((spss, ppss, more)) => Some(Config(h[1], h[2], h[3], 4, spss, ppss, more))
  {
    assert (h + rest)[6..] == rest;
  }

  lemma ParsedRecordFits(b: Bytes)
    ensures ParseRecord(b).Some? ==>
              Fits(ParseRecord(b).value.spss, 0x1_0000) && Fits(ParseRecord(b).value.ppss, 0x1_0000)
  {
    if ParseRecord(b).Some? {
      ParsedSetsFit(b[6..], b[5] as nat % 32);
      var more := ParseSets(b[6..], b[5] as nat % 32).value.1;
      ParsedSetsFit(more[1..], more[0] as nat);
    }
  }

  lemma OneFits(u: Bytes, limit: nat)
    ensures Fits([u], limit) <==> |u| < limit
  {
    assert [u][0] == u;
  }

  /** A reader of the record recovers the profile bytes and exactly these two
      parameter sets if and only if both fit the 16-bit lengths they get. */
  lemma RecordRoundTrip(sps: Bytes, pps: Bytes)
    requires 4 <= |sps|
    ensures ParseRecord(Record(sps, pps)) == Some(Config(sps[1], sps[2], sps[3], 4, [sps], [pps], [])) <==>
            |sps| < 0x1_0000 && |pps| < 0x1_0000
  {
    ParsedRecordFits(Record(sps, pps));
    OneFits(sps, 0x1_0000);
    OneFits(pps, 0x1_0000);
    if |sps| < 0x1_0000 && |pps| < 0x1_0000 {
      ParseShortRecord(sps, pps);
    }
  }

  /** `BuildExtradata`: scan until both parameter sets are found. The early exit
      finds what a full split would, and units under 4 bytes never count. */
  method BuildExtradata(data: Bytes) returns (st: Status, out: Bytes)
    ensures var sps, pps := FirstOf(Split(data), SPS, 4), FirstOf(Split(data), PPS, 4);
      && (st == Ok <==> sps != [] && pps != [])
      && (st == Ok ==> 4 <= |sps| && out == Record(sps, pps))
      && (st != Ok ==> st == EncodeFailed && out == [])
  {
    var sps, pps;
    sps, pps := FindParameterSets(data);
    if sps == [] || pps == [] {
      return EncodeFailed, [];
    }
    out := [1, sps[1], sps[2], sps[3], 0xFF, 0xE1];
    out := out + (BigEndian2(|sps|) + sps + ([1] + (BigEndian2(|pps|) + pps)));
    st := Ok;
  }

  /** A unit under 4 bytes is skipped; the first of its type is kept. */
  function Keep(found: Bytes, unit: Bytes, nalType: nat): Bytes {
    if |unit| >= 4 && NalType(unit[0]) == nalType && found == [] then unit else found
  }

  lemma FirstOfSnoc(us: seq<Bytes>, u: Bytes, nalType: nat)
    ensures FirstOf(us + NonEmpty(u), nalType, 4) ==
            Keep(FirstOf(us, nalType, 4), u, nalType)
  {
    FirstOfConcat(us, NonEmpty(u), nalType, 4);
  }

  /** What the scan has found in the units it has passed. */
  ghost predicate Found(units: seq<Bytes>, sps: Bytes, pps: Bytes) {
    && sps == FirstOf(units, SPS, 4) && (sps != [] ==> 4 <= |sps|)
    && pps == FirstOf(units, PPS, 4)
  }

  lemma FoundNext(units: seq<Bytes>, unit: Bytes, sps: Bytes, pps: Bytes)
    requires Found(units, sps, pps)
    ensures Found(units + NonEmpty(unit), Keep(sps, unit, SPS), Keep(pps, unit, PPS))
  {
    FirstOfSnoc(units, unit, SPS);
    FirstOfSnoc(units, unit, PPS);
  }

  /** Stopping with both sets, or at the end, is as good as a full split. */
  lemma FoundAll(data: Bytes, units: seq<Bytes>, rest: Bytes, sps: Bytes, pps: Bytes)
    requires Found(units, sps, pps) && Scanned(data, units, rest)
    requires rest == [] || (sps != [] && pps != [])
    ensures sps != [] && pps != [] ==> Found(Split(data), sps, pps)
    ensures sps == [] || pps == [] ==> FirstOf(Split(data), SPS, 4) == [] || FirstOf(Split(data), PPS, 4) == []
  {
    FirstOfConcat(units, Split(rest), SPS, 4);
    FirstOfConcat(units, Split(rest), PPS, 4);
  }

  /** The scanning loop of `BuildExtradata`. */
  method FindParameterSets(data: Bytes) returns (sps: Bytes, pps: Bytes)
    ensures sps == [] || pps == [] ==> FirstOf(Split(data), SPS, 4) == [] || FirstOf(Split(data), PPS, 4) == []
    ensures sps != [] && pps != [] ==> Found(Split(data), sps, pps)
  {
    var p := 0;
    sps, pps := [], [];
    ghost var units := [];
    ScanBegins(data);
    while p < |data| && (sps == [] || pps == [])
      invariant p <= |data|
      invariant Scanned(data, units, data[p..])
      invariant Found(units, sps, pps)
      decreases |data| - p
    {
      var sc := CodeLength(data[p..]);
      if sc == 0 {
        ScanSkips(data, units, p);
        p := p + 1;
      } else {
        var nal := p + sc;
        var end := SkipToCode(data, nal);
        var unit := data[nal..end];
        ScanTakes(data, units, p, nal, end);
        FoundNext(units, unit, sps, pps);
        units := units + NonEmpty(unit);
        p := end;
        sps, pps := Keep(sps, unit, SPS), Keep(pps, unit, PPS);
      }
    }
    FoundAll(data, units, data[p..], sps, pps);
  }

  /** What the Android muxer takes as parameter sets: the first of each type, of
      any length. The two backends choose alike exactly when each of those is
      absent or has 4 bytes. */
  lemma {:induction false} BackendsAgree(us: seq<Bytes>, nalType: nat)
    ensures FirstOf(us, nalType, 4) == FirstOf(us, nalType, 1) <==>
            FirstOf(us, nalType, 1) == [] || 4 <= |FirstOf(us, nalType, 1)|
  {
    var k := FirstOfIsFirst(us, nalType, 1);
    var k4 := FirstOfIsFirst(us, nalType, 4);
    if k4 < |us| {
      assert Qualifies(us[k4], nalType, 1);
    }
    if k < |us| && 4 <= |us[k]| {
      assert Qualifies(us[k], nalType, 4);
    }
  }

  /** A picture parameter set of three bytes is a complete unit, but the FFmpeg
      muxer finds no parameter sets in such a stream. */
  lemma ShortPpsIsMissed()
    ensures var us := [[0x67, 0x42, 0xC0, 0x1E], [0x68, 0xCE, 0x38]];
      && Split(Join(us)) == us
      && FirstOf(us, PPS, 1) == us[1]
      && FirstOf(us, PPS, 4) == []
  {
    var us: seq<Bytes> := [[0x67, 0x42, 0xC0, 0x1E], [0x68, 0xCE, 0x38]];
    SplitUndoesJoin(us);
    NalTypeIsLowFiveBits(0x67);
    NalTypeIsLowFiveBits(0x68);
    assert us[1..] == [us[1]] && us[1..][1..] == [];
  }
}
