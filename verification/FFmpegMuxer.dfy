/** The FFmpeg MP4 muxer: the container opens at the first video keyframe, audio
    waits until then and is replayed, and video is written length-prefixed. */
module FFmpegMuxer {
  import opened Core
  import opened AnnexB
  import opened Avcc
  import opened AvcRecord

  datatype Packet = Packet(data: Bytes, pts: int, keyframe: bool)

  datatype Sample = Sample(video: bool, data: Bytes, pts: int, keyframe: bool)

  /** How FFmpeg and the byte sink answer during one call: opening the container,
      how many replayed packets are taken before one is refused, writing the packet
      at hand, and committing a fragment. */
  datatype Library = Library(opens: bool, replays: nat, writes: bool, flushes: bool)

  /** `written` is what the container took. `stuck` tells that a replay broke off. */
  datatype Mux = Mux(
    aac: bool,
    fragmented: bool,
    sink: bool,
    opened_: bool,
    hasAudio: bool,     // audio_stream_index_ >= 0
    extradata: Bytes,   // the avcC of the video stream, [] for none
    pending: seq<Packet>,
    written: seq<Sample>,
    stuck: bool)

  function Init(aac: bool, fragmented: bool): Mux {
    Mux(aac, fragmented, true, false, false, [], [], [], false)
  }

  function AudioSample(p: Packet): Sample {
    Sample(false, p.data, p.pts, false)
  }

  function AudioSamples(ps: seq<Packet>): seq<Sample> {
    seq(|ps|, i requires 0 <= i < |ps| => AudioSample(ps[i]))
  }

  /** The units of an access unit that go into its sample. */
  function SampleUnits(data: Bytes): seq<Bytes> {
    Slices(Split(data))
  }

  function VideoSample(p: Packet): Sample {
    Sample(true, Samples(SampleUnits(p.data)), p.pts, p.keyframe)
  }

  /** avcC if the keyframe has both parameter sets, else nothing. */
  function Extradata(data: Bytes): Bytes {
    AvccOf(FirstOf(Split(data), SPS, 4), FirstOf(Split(data), PPS, 4))
  }

  function AvccOf(sps: Bytes, pps: Bytes): Bytes {
    if |sps| < 4 || pps == [] then [] else Record(sps, pps)
  }

  function Opened(m: Mux, data: Bytes): Mux {
    m.(opened_ := true, hasAudio := m.hasAudio || m.aac, extradata := Extradata(data))
  }

  /** Audio is written one by one; a refusal leaves the list as it was. */
  function Replayed(m: Mux, f: Library): (Mux, Status) {
    if m.pending == [] then (m, Ok)
    else if !m.hasAudio then (m.(stuck := true), EncodeFailed)
    else if |m.pending| <= f.replays then
      (m.(written := m.written + AudioSamples(m.pending), pending := []), Ok)
    else
      (m.(written := m.written + AudioSamples(m.pending[..f.replays]), stuck := true), EncodeFailed)
  }

  function Converted(m: Mux, p: Packet, f: Library): (Mux, Status) {
    if SampleUnits(p.data) == [] || !f.writes then (m, EncodeFailed)
    else
      (m.(written := m.written + [VideoSample(p)]),
       if m.fragmented && p.keyframe && !f.flushes then EncodeFailed else Ok)
  }

  function PushedVideo(m: Mux, p: Packet, f: Library): (Mux, Status) {
    if p.data == [] then (m, Ok)
    else if !m.sink then (m, InvalidArgument)
    else if m.opened_ then Converted(m, p, f)
    else if !p.keyframe then (m, Ok)
    else if !f.opens then (m, EncodeFailed)
    else
      match Replayed(Opened(m, p.data), f)
      case (m', Ok) => Converted(m', p, f)
      case (m', st) => (m', st)
  }

  function PushedAudio(m: Mux, p: Packet, f: Library): (Mux, Status) {
    if p.data == [] then (m, Ok)
    else if !m.sink then (m, InvalidArgument)
    else if !m.aac then (m, UnsupportedOperation)
    else if !m.opened_ then (m.(pending := m.pending + [p]), Ok)
    else if !m.hasAudio || !f.writes then (m, EncodeFailed)
    else (m.(written := m.written + [AudioSample(p)]), Ok)
  }

  function Flushed(m: Mux): Mux {
    m.(pending := [])
  }

  datatype Action =
    | Video(packet: Packet, library: Library)
    | Audio(packet: Packet, library: Library)
    | Flush

  function Step(m: Mux, a: Action): (Mux, Status) {
    match a
    case Video(p, f) => PushedVideo(m, p, f)
    case Audio(p, f) => PushedAudio(m, p, f)
    case Flush => (Flushed(m), Ok)
  }

  function Run(m: Mux, acts: seq<Action>): Mux {
    if acts == [] then m else Step(Run(m, acts[..|acts| - 1]), acts[|acts| - 1]).0
  }

  predicate AllOk(m: Mux, acts: seq<Action>) {
    acts == [] ||
    (AllOk(m, acts[..|acts| - 1]) && Step(Run(m, acts[..|acts| - 1]), acts[|acts| - 1]).1 == Ok)
  }

  // ----- What the file holds -----

  predicate IsKey(a: Action) { a.Video? && a.packet.data != [] && a.packet.keyframe }

  predicate HasKey(acts: seq<Action>) {
    acts != [] && (HasKey(acts[..|acts| - 1]) || IsKey(acts[|acts| - 1]))
  }

  /** What a run asks for: all audio, and video from its first keyframe on; a flush
      before that keyframe takes back all audio so far. */
  function Wanted(acts: seq<Action>): seq<Sample> {
    if acts == [] then []
    else
      var front, a := acts[..|acts| - 1], acts[|acts| - 1];
      match a
      case Flush => if HasKey(front) then Wanted(front) else []
      case Audio(p, _) => Wanted(front) + if p.data == [] then [] else [AudioSample(p)]
      case Video(p, _) => Wanted(front) + if IsKey(a) || (p.data != [] && HasKey(front)) then [VideoSample(p)] else []
  }

  ghost predicate Faithful(m: Mux, acts: seq<Action>) {
    && m.sink && !m.stuck
    && (m.opened_ <==> HasKey(acts))
    && (m.opened_ ==> m.pending == [] && m.hasAudio == m.aac)
    && (!m.opened_ ==> m.written == [] && !m.hasAudio)
    && (m.pending != [] ==> m.aac)
    && m.written + AudioSamples(m.pending) == Wanted(acts)
  }

  lemma Latest(acts: seq<Action>, a: Action)
    ensures (acts + [a])[..|acts|] == acts && (acts + [a])[|acts|] == a && acts + [a] != []
  {
  }

  lemma AudioSamplesEnd(ps: seq<Packet>, p: Packet)
    ensures AudioSamples([]) == []
    ensures AudioSamples(ps + [p]) == AudioSamples(ps) + [AudioSample(p)]
  {
  }

  /** At the first keyframe the waiting audio goes out first. */
  lemma ReplayFaithful(m: Mux, acts: seq<Action>, data: Bytes, f: Library)
    requires Faithful(m, acts) && !m.opened_ && Replayed(Opened(m, data), f).1 == Ok
    ensures var t := Replayed(Opened(m, data), f).0;
      t == Opened(m, data).(written := Wanted(acts), pending := [])
  {
    if m.pending == [] {
      assert AudioSamples(m.pending) == [];
      assert m.written + [] == m.written;
    }
  }

  lemma ConvertedFaithful(m: Mux, p: Packet, f: Library)
    requires Converted(m, p, f).1 == Ok
    ensures Converted(m, p, f).0 == m.(written := m.written + [VideoSample(p)])
  {
  }

  lemma VideoFaithful(m: Mux, acts: seq<Action>, p: Packet, f: Library)
    requires Faithful(m, acts) && PushedVideo(m, p, f).1 == Ok
    ensures Faithful(PushedVideo(m, p, f).0, acts + [Video(p, f)])
  {
    Latest(acts, Video(p, f));
    if p.data == [] || (!m.opened_ && !p.keyframe) {
      assert Wanted(acts) + [] == Wanted(acts);
    } else if m.opened_ {
      OpenVideoFaithful(m, acts, p, f);
    } else {
      ReplayFaithful(m, acts, p.data, f);
      ConvertedFaithful(Replayed(Opened(m, p.data), f).0, p, f);
      NothingPending(Wanted(acts) + [VideoSample(p)]);
    }
  }

  lemma NothingPending(w: seq<Sample>)
    ensures w + AudioSamples([]) == w
  {
  }

  lemma OpenVideoFaithful(m: Mux, acts: seq<Action>, p: Packet, f: Library)
    requires Faithful(m, acts) && Converted(m, p, f).1 == Ok && m.opened_ && p.data != []
    ensures Faithful(Converted(m, p, f).0, acts + [Video(p, f)])
  {
    Latest(acts, Video(p, f));
    ConvertedFaithful(m, p, f);
    NothingPending(m.written);
    NothingPending(m.written + [VideoSample(p)]);
  }

  lemma AudioFaithful(m: Mux, acts: seq<Action>, p: Packet, f: Library)
    requires Faithful(m, acts) && PushedAudio(m, p, f).1 == Ok
    ensures Faithful(PushedAudio(m, p, f).0, acts + [Audio(p, f)])
  {
    Latest(acts, Audio(p, f));
    if p.data == [] {
      assert Wanted(acts) + [] == Wanted(acts);
    } else if !m.opened_ {
      AudioSamplesEnd(m.pending, p);
      Associate(m.written, AudioSamples(m.pending), [AudioSample(p)]);
    } else {
      NothingPending(m.written);
      NothingPending(m.written + [AudioSample(p)]);
    }
  }

  lemma FlushFaithful(m: Mux, acts: seq<Action>)
    requires Faithful(m, acts)
    ensures Faithful(Flushed(m), acts + [Flush])
  {
    Latest(acts, Flush);
    NothingPending(m.written);
  }

  /** While every call returns kOk, what the container took followed by the audio
      that waits is exactly what the run asked for, in order of pushing, with the
      waiting audio written ahead of the keyframe that opened the container. */
  lemma {:induction false} WritesWhatWasWanted(aac: bool, fragmented: bool, acts: seq<Action>)
    requires AllOk(Init(aac, fragmented), acts)
    ensures var m := Run(Init(aac, fragmented), acts);
      && m.written + AudioSamples(m.pending) == Wanted(acts)
      && (m.opened_ <==> HasKey(acts))
      && (m.opened_ ==> m.pending == [])
      && Faithful(m, acts)
    decreases |acts|
  {
    if acts == [] {
      NothingPending([]);
    } else {
      var front, a := acts[..|acts| - 1], acts[|acts| - 1];
      WritesWhatWasWanted(aac, fragmented, front);
      assert acts == front + [a];
      match a
      case Video(p, f) => VideoFaithful(Run(Init(aac, fragmented), front), front, p, f);
      case Audio(p, f) => AudioFaithful(Run(Init(aac, fragmented), front), front, p, f);
      case Flush => FlushFaithful(Run(Init(aac, fragmented), front), front);
    }
  }

  /** A written video sample is its packet: a reader of the length-prefixed sample of
      a packet below 4 GiB finds the packet's units without those of types 7 and 8,
      and time and keyframe mark are the packet's. */
  lemma SampleMeansPacket(p: Packet) returns (at: seq<nat>)
    requires |p.data| < 0x1_0000_0000
    ensures var units := ParseSamples(VideoSample(p).data);
      units.Some? && KeptPart(Split(p.data), units.value, at)
    ensures VideoSample(p).video && VideoSample(p).pts == p.pts && VideoSample(p).keyframe == p.keyframe
    ensures AudioSample(p) == Sample(false, p.data, p.pts, false)
  {
    at := ConversionPreservesUnits(p.data);
  }

  // ----- What goes wrong -----

  /** The container took the sample, but the commit of the fragment failed: the
      push returns an error all the same. */
  predicate CommitFailed(m: Mux, p: Packet, f: Library) {
    && m.fragmented && p.keyframe && !f.flushes
    && f.writes && SampleUnits(p.data) != []
    && (m.opened_ || (f.opens && Replayed(Opened(m, p.data), f).1 == Ok))
  }

  /** The sample of a push that is taken: it succeeded, or only its commit failed. */
  function Taken(m: Mux, a: Action): seq<Sample> {
    match a
    case Flush => []
    case Audio(p, f) => if p.data != [] && PushedAudio(m, p, f).1 == Ok then [AudioSample(p)] else []
    case Video(p, f) =>
      if p.data != [] && m.sink && (m.opened_ || p.keyframe) && (PushedVideo(m, p, f).1 == Ok || CommitFailed(m, p, f))
      then [VideoSample(p)] else []
  }

  /** The samples taken in a run, whatever fails in it; a flush before the
      container opens takes back all of them. */
  function TakenIn(m: Mux, acts: seq<Action>): seq<Sample> {
    if acts == [] then []
    else
      var front, a := acts[..|acts| - 1], acts[|acts| - 1];
      if a.Flush? && !Run(m, front).opened_ then [] else TakenIn(m, front) + Taken(Run(m, front), a)
  }

  ghost predicate Orderly(m: Mux, taken: seq<Sample>) {
    && (m.opened_ ==> m.pending == [])
    && (!m.opened_ ==> m.written == [] && !m.hasAudio)
    && (m.pending != [] ==> m.aac)
    && m.written + AudioSamples(m.pending) == taken
  }

  lemma OpenStep(m: Mux, a: Action)
    requires m.opened_
    ensures Step(m, a).0.opened_ && Step(m, a).0.written == m.written + Taken(m, a)
    ensures Step(m, a).0.pending == (if a.Flush? then [] else m.pending) && Step(m, a).0.stuck == m.stuck
  {
    if Taken(m, a) == [] {
      assert m.written + [] == m.written;
    }
  }

  lemma ClosedVideo(m: Mux, p: Packet, f: Library, taken: seq<Sample>)
    requires Orderly(m, taken) && !m.opened_
    ensures var t := PushedVideo(m, p, f).0;
      t.stuck || Orderly(t, taken + Taken(m, Video(p, f)))
  {
    assert taken + [] == taken;
    if p.data != [] && m.sink && p.keyframe && f.opens {
      var u := Replayed(Opened(m, p.data), f);
      if m.pending == [] {
        assert u.0.written == m.written + AudioSamples(m.pending);
      }
      if u.1 == Ok {
        NothingPending(taken);
        NothingPending(taken + [VideoSample(p)]);
      }
    }
  }

  lemma ClosedAudio(m: Mux, p: Packet, f: Library, taken: seq<Sample>)
    requires Orderly(m, taken) && !m.opened_
    ensures Orderly(PushedAudio(m, p, f).0, taken + Taken(m, Audio(p, f)))
    ensures PushedAudio(m, p, f).0.stuck == m.stuck
  {
    assert taken + [] == taken;
    AudioSamplesEnd(m.pending, p);
    Associate(m.written, AudioSamples(m.pending), [AudioSample(p)]);
  }

  lemma StuckStays(m: Mux, a: Action)
    requires m.stuck
    ensures Step(m, a).0.stuck
  {
  }

  /** Over every run, failing calls and flushes included: what the container took
      followed by the audio that waits is what was taken, in order of pushing, as
      long as no replay broke off. */
  lemma {:induction false} RunOrderly(aac: bool, fragmented: bool, acts: seq<Action>)
    requires !Run(Init(aac, fragmented), acts).stuck
    ensures Orderly(Run(Init(aac, fragmented), acts), TakenIn(Init(aac, fragmented), acts))
    decreases |acts|
  {
    if acts == [] {
      NothingPending([]);
    } else {
      var front, a := acts[..|acts| - 1], acts[|acts| - 1];
      var m := Run(Init(aac, fragmented), front);
      if m.stuck {
        StuckStays(m, a);
      }
      RunOrderly(aac, fragmented, front);
      OrderlyStep(m, a, TakenIn(Init(aac, fragmented), front));
    }
  }

  lemma OrderlyStep(m: Mux, a: Action, taken: seq<Sample>)
    requires Orderly(m, taken) && !Step(m, a).0.stuck
    ensures Orderly(Step(m, a).0, if a.Flush? && !m.opened_ then [] else taken + Taken(m, a))
  {
    if m.opened_ {
      OpenStep(m, a);
      NothingPending(m.written);
      NothingPending(m.written + Taken(m, a));
    } else {
      match a
      case Video(p, f) => ClosedVideo(m, p, f, taken);
      case Audio(p, f) => ClosedAudio(m, p, f, taken);
      case Flush => NothingPending(m.written);
    }
  }

  /** What a replay that breaks off leaves: the packets ahead of the refused one
      are in the container, all of them are still waiting, and the keyframe is not
      written. */
  lemma BrokenReplay(m: Mux, p: Packet, f: Library, taken: seq<Sample>)
    requires Orderly(m, taken) && !m.stuck && PushedVideo(m, p, f).0.stuck
    ensures var t := PushedVideo(m, p, f).0;
      && f.replays < |m.pending| && t.opened_ && t.pending == m.pending
      && t.written == AudioSamples(m.pending[..f.replays])
  {
  }

  /** From then on, as in every open container, exactly the samples of the pushes
      that are taken are added: what waits is never replayed, whatever is pushed. */
  lemma {:induction false} StuckAudioStays(m: Mux, acts: seq<Action>)
    requires m.opened_
    ensures var t := Run(m, acts);
      && t.opened_ && t.written == m.written + TakenIn(m, acts)
      && (AllPushes(acts) ==> t.pending == m.pending)
    decreases |acts|
  {
    if acts == [] {
      assert m.written + [] == m.written;
    } else {
      var front, a := acts[..|acts| - 1], acts[|acts| - 1];
      assert a in acts && forall x <- front :: x in acts;
      StuckAudioStays(m, front);
      OpenStep(Run(m, front), a);
      Associate(m.written, TakenIn(m, front), Taken(Run(m, front), a));
    }
  }

  predicate AllPushes(acts: seq<Action>) {
    forall a <- acts :: !a.Flush?
  }

  /** A push gets the muxer stuck exactly when it opens the container while audio
      waits and one of the replayed packets is refused. */
  lemma StuckIff(m: Mux, p: Packet, f: Library)
    requires m.sink && !m.stuck && (m.pending != [] ==> m.aac)
    ensures PushedVideo(m, p, f).0.stuck <==>
            p.data != [] && !m.opened_ && p.keyframe && f.opens && f.replays < |m.pending|
  {
  }

  /** The first keyframe opens the container in any case. It gets an avcC exactly
      when both parameter sets of at least 4 bytes are there; without them the push
      succeeds all the same, where the Android muxer refuses it. */
  lemma OpensWithoutParameterSets(m: Mux, p: Packet, f: Library)
    requires m.sink && !m.opened_ && p.data != [] && p.keyframe && f.opens
    ensures var (t, st) := PushedVideo(m, p, f);
      && t.opened_
      && (t.extradata != [] <==>
            FirstOf(Split(p.data), SPS, 4) != [] && FirstOf(Split(p.data), PPS, 4) != [])
      && (t.extradata != [] ==>
            |FirstOf(Split(p.data), SPS, 4)| >= 4 &&
            t.extradata == Record(FirstOf(Split(p.data), SPS, 4), FirstOf(Split(p.data), PPS, 4)))
      && (m.pending == [] && SampleUnits(p.data) != [] && f.writes && f.flushes ==> st == Ok)
  {
    ExtradataIff(p.data);
    OpeningPush(m, p, f);
  }

  lemma ExtradataIff(data: Bytes)
    ensures Extradata(data) != [] <==>
            FirstOf(Split(data), SPS, 4) != [] && FirstOf(Split(data), PPS, 4) != []
    ensures Extradata(data) != [] ==>
              |FirstOf(Split(data), SPS, 4)| >= 4 &&
              Extradata(data) == Record(FirstOf(Split(data), SPS, 4), FirstOf(Split(data), PPS, 4))
  {
    var k := FirstOfIsFirst(Split(data), SPS, 4);
  }

  lemma OpeningPush(m: Mux, p: Packet, f: Library)
    requires m.sink && !m.opened_ && p.data != [] && p.keyframe && f.opens
    ensures var (t, st) := PushedVideo(m, p, f);
      && t.opened_ && t.extradata == Extradata(p.data)
      && (m.pending == [] && SampleUnits(p.data) != [] && f.writes && f.flushes ==> st == Ok)
  {
  }

  // ----- When a push succeeds -----

  /** Every outcome of an audio push. */
  lemma AudioPushIff(m: Mux, p: Packet, f: Library)
    requires p.data != []
    ensures var (t, st) := PushedAudio(m, p, f);
      && (st == InvalidArgument <==> !m.sink)
      && (st == UnsupportedOperation <==> m.sink && !m.aac)
      && (st == Ok <==> m.sink && m.aac && (m.opened_ ==> m.hasAudio && f.writes))
      && (st == EncodeFailed <==> m.sink && m.aac && m.opened_ && !(m.hasAudio && f.writes))
      && t == (if st != Ok then m
               else if m.opened_ then m.(written := m.written + [Sample(false, p.data, p.pts, false)])
               else m.(pending := m.pending + [p]))
  {
  }

  lemma ConvertedIff(m: Mux, p: Packet, f: Library)
    ensures var (t, st) := Converted(m, p, f);
      && (st == Ok || st == EncodeFailed)
      && (st == Ok <==> SampleUnits(p.data) != [] && f.writes && (m.fragmented && p.keyframe ==> f.flushes))
      && t == (if SampleUnits(p.data) != [] && f.writes then m.(written := m.written + [VideoSample(p)]) else m)
  {
  }

  /** When a video push succeeds: with nothing to do before the first keyframe, or
      when the container is open or opens, the waiting audio is taken, a unit is left
      for the sample, it is taken, and a fragment that it completes is committed. */
  lemma VideoPushIff(m: Mux, p: Packet, f: Library)
    requires p.data != []
    ensures var (t, st) := PushedVideo(m, p, f);
      && (st == InvalidArgument <==> !m.sink)
      && (st == Ok || st == InvalidArgument || st == EncodeFailed)
      && (st == Ok <==>
            m.sink &&
            (if !m.opened_ && !p.keyframe then true
             else
               && (m.opened_ || (f.opens && (m.pending != [] ==> (m.hasAudio || m.aac) && |m.pending| <= f.replays)))
               && SampleUnits(p.data) != [] && f.writes && (m.fragmented && p.keyframe ==> f.flushes)))
      && (t.opened_ <==> m.opened_ || (m.sink && p.keyframe && f.opens))
  {
    ConvertedIff(m, p, f);
    ConvertedIff(Replayed(Opened(m, p.data), f).0, p, f);
    ReplayedIff(Opened(m, p.data), f);
  }

  lemma ReplayedIff(m: Mux, f: Library)
    ensures var (t, st) := Replayed(m, f);
      && (st == Ok || st == EncodeFailed)
      && (st == Ok <==> (m.pending != [] ==> m.hasAudio && |m.pending| <= f.replays))
      && t.opened_ == m.opened_ && t.fragmented == m.fragmented
  {
  }

  lemma EmptyPushes(m: Mux, p: Packet, f: Library)
    requires p.data == []
    ensures PushedVideo(m, p, f) == (m, Ok) && PushedAudio(m, p, f) == (m, Ok)
  {
  }

  /** FFmpeg and the sink do all they are asked in this call, with up to `n` packets
      waiting; the packet is one that the muxer is made for. */
  predicate Helped(a: Action, aac: bool, n: nat) {
    match a
    case Flush => true
    case Video(p, f) =>
      f.opens && f.writes && f.flushes && n <= f.replays && (p.data != [] ==> SampleUnits(p.data) != [])
    case Audio(p, f) => f.writes && (p.data != [] ==> aac)
  }

  lemma HelpedStep(m: Mux, acts: seq<Action>, a: Action, n: nat)
    requires Faithful(m, acts) && Helped(a, m.aac, n) && |m.pending| <= n
    ensures Step(m, a).1 == Ok && Step(m, a).0.aac == m.aac && |Step(m, a).0.pending| <= |m.pending| + 1
  {
    if !a.Flush? {
      if a.packet.data == [] {
        EmptyPushes(m, a.packet, a.library);
      } else if a.Video? {
        VideoPushIff(m, a.packet, a.library);
      } else {
        AudioPushIff(m, a.packet, a.library);
      }
    }
  }

  lemma FaithfulStep(m: Mux, acts: seq<Action>, a: Action)
    requires Faithful(m, acts) && Step(m, a).1 == Ok
    ensures Faithful(Step(m, a).0, acts + [a])
  {
    match a
    case Video(p, f) => VideoFaithful(m, acts, p, f);
    case Audio(p, f) => AudioFaithful(m, acts, p, f);
    case Flush => FlushFaithful(m, acts);
  }

  lemma {:induction false} HelpedRunOk(m: Mux, acts: seq<Action>, n: nat)
    requires Faithful(m, []) && m.pending == [] && |acts| <= n
    requires forall a <- acts :: Helped(a, m.aac, n)
    ensures AllOk(m, acts) && Faithful(Run(m, acts), acts)
    ensures Run(m, acts).aac == m.aac && |Run(m, acts).pending| <= |acts|
    decreases |acts|
  {
    if acts != [] {
      var front, a := acts[..|acts| - 1], acts[|acts| - 1];
      assert acts == front + [a] && a in acts && forall x <- front :: x in acts;
      HelpedRunOk(m, front, n);
      HelpedStep(Run(m, front), front, a, n);
      FaithfulStep(Run(m, front), front, a);
    }
  }

  /** With libraries that do their part, every run of video with something to keep and
      of the configured audio succeeds throughout, and the container gets what the
      run asked for. */
  lemma HelpedRunWrites(aac: bool, fragmented: bool, acts: seq<Action>)
    requires forall a <- acts :: Helped(a, aac, |acts|)
    ensures AllOk(Init(aac, fragmented), acts)
    ensures var m := Run(Init(aac, fragmented), acts);
      m.written + AudioSamples(m.pending) == Wanted(acts) && (m.opened_ <==> HasKey(acts))
  {
    NothingPending([]);
    HelpedRunOk(Init(aac, fragmented), acts, |acts|);
  }

  /** Read call by call what a run asks for. */
  lemma WantedOneMore(acts: seq<Action>, a: Action)
    ensures Wanted([]) == []
    ensures a.Audio? && a.packet.data != [] ==>
              Wanted(acts + [a]) == Wanted(acts) + [Sample(false, a.packet.data, a.packet.pts, false)]
    ensures a.Video? && a.packet.data != [] &&
            (a.packet.keyframe || exists k <- acts :: k.Video? && k.packet.data != [] && k.packet.keyframe) ==>
              Wanted(acts + [a]) == Wanted(acts) + [VideoSample(a.packet)]
    ensures a.Flush? && !(exists k <- acts :: k.Video? && k.packet.data != [] && k.packet.keyframe) ==>
              Wanted(acts + [a]) == []
    ensures a.Flush? && (exists k <- acts :: k.Video? && k.packet.data != [] && k.packet.keyframe) ==>
              Wanted(acts + [a]) == Wanted(acts)
    ensures !a.Flush? && (a.packet.data == [] || (a.Video? && !a.packet.keyframe &&
              !exists k <- acts :: k.Video? && k.packet.data != [] && k.packet.keyframe)) ==>
              Wanted(acts + [a]) == Wanted(acts)
  {
    Latest(acts, a);
    HasKeyIff(acts);
    assert Wanted(acts) + [] == Wanted(acts);
  }

  lemma {:induction false} HasKeyIff(acts: seq<Action>)
    ensures HasKey(acts) <==> exists k <- acts :: k.Video? && k.packet.data != [] && k.packet.keyframe
    decreases |acts|
  {
    if acts != [] {
      var front, a := acts[..|acts| - 1], acts[|acts| - 1];
      HasKeyIff(front);
      assert acts == front + [a];
    }
  }

  // ----- The muxer object -----

  class Muxer {
    const aac: bool
    const fragmented: bool
    var sink: bool
    var opened_: bool
    var hasAudio: bool
    var extradata: Bytes
    var pending: seq<Packet>
    ghost var written: seq<Sample>
    ghost var stuck: bool

    ghost function View(): Mux
      reads this
    {
      Mux(aac, fragmented, sink, opened_, hasAudio, extradata, pending, written, stuck)
    }

    constructor (aac: bool, fragmented: bool)
      ensures View() == Init(aac, fragmented).(sink := false)
    {
      this.aac, this.fragmented := aac, fragmented;
      sink, opened_, hasAudio, stuck := false, false, false, false;
      extradata, pending, written := [], [], [];
    }

    method SetOutput()
      modifies this`sink
      ensures View() == old(View()).(sink := true)
    {
      sink := true;
    }

    method OpenMuxer(p: Packet, f: Library) returns (st: Status)
      modifies this`opened_, this`hasAudio, this`extradata
      ensures (View(), st) == if f.opens then (Opened(old(View()), p.data), Ok) else (old(View()), EncodeFailed)
    {
      if !f.opens {
        return EncodeFailed;
      }
      extradata := ExtradataFor(p.data);
      if aac {
        hasAudio := true;
      }
      opened_ := true;
      st := Ok;
    }

    method WriteAudioPacket(p: Packet, taken: bool) returns (st: Status)
      modifies this`written
      ensures st == if hasAudio && taken then Ok else EncodeFailed
      ensures written == if st == Ok then old(written) + [AudioSample(p)] else old(written)
    {
      if !hasAudio || !taken {
        return EncodeFailed;
      }
      written := written + [AudioSample(p)];
      st := Ok;
    }

    /** The loop over `pending_audio_` in the video push. */
    method Replay(f: Library) returns (st: Status)
      modifies this`pending, this`written, this`stuck
      ensures (View(), st) == Replayed(old(View()), f)
    {
      var i := 0;
      while i < |pending|
        invariant i <= |pending| && i <= f.replays && (i > 0 ==> hasAudio)
        invariant pending == old(pending) && stuck == old(stuck)
        invariant written == old(written) + AudioSamples(pending[..i])
      {
        st := WriteAudioPacket(pending[i], i < f.replays);
        if st != Ok {
          stuck := true;
          assert !hasAudio ==> written == old(written);
          return;
        }
        TakeOneMore(old(written), pending, i);
        i := i + 1;
      }
      assert pending[..i] == pending;
      NothingPending(old(written));
      pending := [];
      st := Ok;
    }

    method PushVideo(p: Packet, f: Library) returns (st: Status)
      modifies this
      ensures (View(), st) == PushedVideo(old(View()), p, f)
    {
      if p.data == [] {
        return Ok;
      }
      if !sink {
        return InvalidArgument;
      }
      if !opened_ {
        if !p.keyframe {
          return Ok;
        }
        st := OpenMuxer(p, f);
        if st != Ok {
          return;
        }
        st := Replay(f);
        if st != Ok {
          return;
        }
      }
      st := WriteVideo(p, f);
    }

    method WriteVideo(p: Packet, f: Library) returns (st: Status)
      modifies this`written
      ensures (View(), st) == Converted(old(View()), p, f)
    {
      var sample;
      st, sample := AnnexBToAvcc(p.data);
      if st != Ok || !f.writes {
        return EncodeFailed;
      }
      written := written + [Sample(true, sample, p.pts, p.keyframe)];
      if fragmented && p.keyframe && !f.flushes {
        st := EncodeFailed;
      }
    }

    method PushAudio(p: Packet, f: Library) returns (st: Status)
      modifies this
      ensures (View(), st) == PushedAudio(old(View()), p, f)
    {
      if p.data == [] {
        return Ok;
      }
      if !sink {
        return InvalidArgument;
      }
      if !aac {
        return UnsupportedOperation;
      }
      if !opened_ {
        pending := pending + [p];
        return Ok;
      }
      st := WriteAudioPacket(p, f.writes);
    }

    method Flush()
      modifies this`pending
      ensures View() == Flushed(old(View()))
    {
      pending := [];
    }
  }

  /** A failure to find parameter sets is not an error of `OpenMuxer`. */
  method ExtradataFor(data: Bytes) returns (e: Bytes)
    ensures e == Extradata(data)
  {
    var st;
    st, e := BuildExtradata(data);
  }

  lemma TakeOneMore(w: seq<Sample>, ps: seq<Packet>, i: nat)
    requires i < |ps|
    ensures w + AudioSamples(ps[..i + 1]) == w + AudioSamples(ps[..i]) + [AudioSample(ps[i])]
  {
    assert ps[..i + 1] == ps[..i] + [ps[i]];
    AudioSamplesEnd(ps[..i], ps[i]);
  }
}
