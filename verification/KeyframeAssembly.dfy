/** Android video encoder output: parameter sets captured from the codec-config
    buffer are put back in front of keyframes that arrive without them. */
module KeyframeAssembly {
  import opened Core
  import opened AnnexB
  import opened Avcc
  import opened AvcRecord

  /** `StartsWithNal`. */
  predicate StartsWithNal(data: Bytes, nalType: nat) {
    CodeLength(data) != 0 &&
    CodeLength(data) < |data| && NalType(data[CodeLength(data)]) == nalType % 32
  }

  /** A payload starts with a NAL unit of a type exactly if it is a start code, of
      either length, followed by a header byte of that type. */
  lemma StartsWithNalIff(payload: Bytes, nalType: nat)
    ensures StartsWithNal(payload, nalType) <==>
            exists rest: Bytes :: (payload == START_CODE + rest || payload == SHORT_CODE + rest) &&
                                  rest != [] && rest[0] as nat % 32 == nalType % 32
  {
    if StartsWithNal(payload, nalType) {
      var c := CodeLength(payload);
      NalTypeIsLowFiveBits(payload[c]);
      assert payload[..c] == if c == 4 then START_CODE else SHORT_CODE;
      assert payload == payload[..c] + payload[c..];
    }
    forall rest: Bytes | (payload == START_CODE + rest || payload == SHORT_CODE + rest) && rest != []
      ensures CodeLength(payload) != 0 && CodeLength(payload) < |payload| && payload[CodeLength(payload)] == rest[0]
    {
      CodeThenHeader(payload, rest);
    }
    forall rest: Bytes | (payload == START_CODE + rest || payload == SHORT_CODE + rest) && rest != []
      ensures NalType(rest[0]) == rest[0] as nat % 32
    {
      NalTypeIsLowFiveBits(rest[0]);
    }
  }

  lemma CodeThenHeader(payload: Bytes, rest: Bytes)
    requires (payload == START_CODE + rest || payload == SHORT_CODE + rest) && rest != []
    ensures CodeLength(payload) != 0 && CodeLength(payload) < |payload| && payload[CodeLength(payload)] == rest[0]
  {
  }

  /** The payload without one leading start code, if it has one. */
  function Strip(payload: Bytes): Bytes {
    payload[CodeLength(payload)..]
  }

  /** `AppendAnnexB` onto an empty packet. */
  function AppendAnnexB(keyframe: bool, sps: Bytes, pps: Bytes, payload: Bytes): Bytes {
    (if keyframe then Join(NonEmpty(sps)) + Join(NonEmpty(pps)) else []) + (START_CODE + payload)
  }

  /** The packet emitted for one output buffer. */
  function Emitted(sps: Bytes, pps: Bytes, payload: Bytes, keyframe: bool): Bytes {
    if keyframe && !StartsWithNal(payload, SPS) then AppendAnnexB(true, sps, pps, Strip(payload))
    else payload
  }

  /** The captured parameter sets, those there are. */
  function Captured(sps: Bytes, pps: Bytes): seq<Bytes> {
    NonEmpty(sps) + NonEmpty(pps)
  }

  lemma CapturedJoins(sps: Bytes, pps: Bytes)
    requires CodeFree(sps) && CodeFree(pps)
    ensures Units(Captured(sps, pps))
    ensures Join(Captured(sps, pps)) == Join(NonEmpty(sps)) + Join(NonEmpty(pps))
  {
    if sps != [] {
      assert Captured(sps, pps)[1..] == NonEmpty(pps);
      assert NonEmpty(sps)[1..] == [];
      assert Join(NonEmpty(sps)) == START_CODE + sps;
    } else {
      assert Captured(sps, pps) == NonEmpty(pps);
      assert Join(NonEmpty(pps)) == Join(NonEmpty(sps)) + Join(NonEmpty(pps));
    }
  }

  /** A leading start code may be replaced by the long one. */
  lemma SplitOfStripped(payload: Bytes)
    requires CodeLength(payload) != 0
    ensures Split(START_CODE + Strip(payload)) == Split(payload)
  {
    CodeAtFront(payload);
    LongCodeAtFront(Strip(payload));
  }

  lemma CodeAtFront(s: Bytes)
    requires CodeLength(s) != 0
    ensures Lead(s) == 0 < |s| && AfterCode(s) == s[CodeLength(s)..]
  {
    assert s[0..] == s;
  }

  /** Bytes that no start code precedes become a unit of their own. */
  lemma SplitOfBare(payload: Bytes)
    requires CodeLength(payload) == 0
    ensures Split(START_CODE + payload) == NonEmpty(payload[..Lead(payload)]) + Split(payload)
  {
    LongCodeAtFront(payload);
    SplitSkipsLead(payload, Lead(payload));
  }

  lemma LongCodeAtFront(rest: Bytes)
    ensures Lead(START_CODE + rest) == 0 && AfterCode(START_CODE + rest) == rest
  {
    var s := START_CODE + rest;
    CodeAtFront(s);
    assert s[4..] == rest;
  }

  lemma {:induction false} SplitSkipsLead(s: Bytes, n: nat)
    requires n <= Lead(s)
    ensures Split(s[n..]) == Split(s)
  {
    if n == 0 {
      assert s[0..] == s;
    } else {
      SplitSkipsLead(s, n - 1);
      LeadClear(s, n - 1);
      SplitSkips(s[n - 1..]);
      assert s[n - 1..][1..] == s[n..];
    }
  }

  /** What a decoder sees in an assembled keyframe, for every payload: the
      captured parameter sets, the bytes ahead of the payload's first start code
      if there are any, and the payload's own units. */
  lemma AssembledUnits(sps: Bytes, pps: Bytes, payload: Bytes)
    requires CodeFree(sps) && CodeFree(pps) && !StartsWithNal(payload, SPS)
    ensures Split(Emitted(sps, pps, payload, true)) ==
            Captured(sps, pps) + NonEmpty(payload[..Lead(payload)]) + Split(payload)
  {
    CapturedJoins(sps, pps);
    SplitPrepended(Captured(sps, pps), Strip(payload));
    if CodeLength(payload) == 0 {
      assert Strip(payload) == payload;
      SplitOfBare(payload);
      Associate(Captured(sps, pps), NonEmpty(payload[..Lead(payload)]), Split(payload));
    } else {
      SplitOfStripped(payload);
      assert payload[..Lead(payload)] == [];
      assert Captured(sps, pps) + [] == Captured(sps, pps);
    }
  }

  /** No unit is lost, merged or added beyond the parameter sets exactly when the
      payload opens with a start code or is empty. */
  lemma AssemblyKeepsUnits(sps: Bytes, pps: Bytes, payload: Bytes)
    requires CodeFree(sps) && CodeFree(pps) && !StartsWithNal(payload, SPS)
    ensures Split(Emitted(sps, pps, payload, true)) == Captured(sps, pps) + Split(payload) <==>
            payload == [] || CodeLength(payload) != 0
    ensures sps != [] && pps != [] ==> Captured(sps, pps) == [sps, pps]
  {
    AssembledUnits(sps, pps, payload);
    var c, l, u := Captured(sps, pps), NonEmpty(payload[..Lead(payload)]), Split(payload);
    assert Lead(payload) == 0 <==> payload == [] || CodeLength(payload) != 0;
    NothingInserted(c, l, u);
  }

  lemma NothingInserted<T>(a: seq<T>, b: seq<T>, c: seq<T>)
    ensures a + b + c == a + c <==> b == []
  {
    if b == [] {
      assert a + b == a;
    } else {
      assert |a + b + c| != |a + c|;
    }
  }

  class VideoEncoder {
    var sps: Bytes
    var pps: Bytes

    /** Captured parameter sets came out of the splitter. */
    ghost predicate Valid()
      reads this
    {
      CodeFree(sps) && CodeFree(pps)
    }

    constructor ()
      ensures Valid() && sps == [] && pps == []
    {
      sps, pps := [], [];
    }

    /** A codec-config buffer in `Drain`: its first two units are remembered. */
    method CaptureConfig(payload: Bytes)
      requires Valid()
      modifies this
      ensures Valid()
      ensures sps == if |Split(payload)| > 0 then Split(payload)[0] else old(sps)
      ensures pps == if |Split(payload)| > 1 then Split(payload)[1] else old(pps)
    {
      var ok, units := SplitAnnexB(payload);
      SplitYieldsUnits(payload);
      if ok {
        sps := units[0];
        if |units| > 1 {
          pps := units[1];
        }
      }
    }

    /** A payload buffer in `Drain`. */
    method Emit(payload: Bytes, keyframe: bool) returns (data: Bytes)
      requires Valid() && payload != []
      ensures data == Emitted(sps, pps, payload, keyframe)
      ensures !keyframe || StartsWithNal(payload, SPS) ==> data == payload
      ensures keyframe && CodeLength(payload) != 0 && !StartsWithNal(payload, SPS) ==>
                Split(data) == Captured(sps, pps) + Split(payload)
    {
      if keyframe && !StartsWithNal(payload, SPS) {
        AssemblyKeepsUnits(sps, pps, payload);
        var unit := payload;
        if |unit| >= 4 && unit[0] == 0 && unit[1] == 0 && unit[2] == 0 && unit[3] == 1 {
          unit := unit[4..];
        } else if |unit| >= 3 && unit[0] == 0 && unit[1] == 0 && unit[2] == 1 {
          unit := unit[3..];
        }
        data := AppendAnnexB(true, sps, pps, unit);
      } else {
        data := payload;
      }
    }
  }
}
