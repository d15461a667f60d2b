/** The Android MP4 muxer: samples wait in `pending_` until every configured track
    exists, then the muxer starts, replays them and writes through. */
module AndroidMuxer {
  import opened Core
  import opened AnnexB
  import opened Avcc
  import opened AvcRecord
  import opened KeyframeAssembly

  datatype AudioCodec = NoAudio | Aac | Opus

  datatype Packet = Packet(data: Bytes, pts: int, keyframe: bool)

  /** A sample as the platform muxer gets it, on the track of its medium. */
  datatype Sample = Sample(video: bool, data: Bytes, pts: int, keyframe: bool)

  /** How the platform answers during one call: creating the muxer, adding a
      track, starting, how many replayed samples it takes before refusing one, and
      writing the sample at hand. */
  datatype Platform = Platform(creates: bool, track: int, starts: bool, replays: nat, writes: bool)

  /** `written` are the samples the platform muxer took, `accepted` those of the
      pushes that returned kOk and were not skipped, `lost` whether a replay broke
      off. A track number is negative until the track is added. */
  datatype Mux = Mux(
    codec: AudioCodec,
    valid: bool,        // MuxerConfig::IsValid
    sink: bool,
    muxer: bool,
    videoTrack: int,
    audioTrack: int,
    sps: Bytes,
    pps: Bytes,
    pending: seq<Sample>,
    started: bool,
    finished: bool,
    written: seq<Sample>,
    accepted: seq<Sample>,
    lost: bool)

  function Init(codec: AudioCodec, valid: bool): Mux {
    Mux(codec, valid, true, false, -1, -1, [], [], [], false, false, [], [], false)
  }

  predicate CanStart(m: Mux) {
    m.videoTrack >= 0 && (m.codec != NoAudio ==> m.audioTrack >= 0)
  }

  function Ensured(m: Mux, f: Platform): (Mux, Status) {
    if m.muxer then (m, Ok)
    else if !m.valid then (m, InvalidArgument)
    else if !f.creates then (m, EncodeFailed)
    else (m.(muxer := true), Ok)
  }

  /** `CaptureVideoCsd`: parameter sets already known are kept. */
  function WithCsd(m: Mux, data: Bytes): Mux {
    m.(sps := KnownOr(m.sps, Split(data), SPS), pps := KnownOr(m.pps, Split(data), PPS))
  }

  predicate CsdComplete(m: Mux, data: Bytes) {
    Split(data) != [] && m.sps != [] && m.pps != []
  }

  function KnownOr(known: Bytes, units: seq<Bytes>, nalType: nat): Bytes {
    if known == [] then FirstOf(units, nalType, 1) else known
  }

  /** `Start` with its replay. */
  function Started(m: Mux, f: Platform): (Mux, Status) {
    if m.started then (m, Ok)
    else if !f.starts then (m, EncodeFailed)
    else if |m.pending| <= f.replays then
      (m.(started := true, written := m.written + m.pending, pending := []), Ok)
    else
      (m.(started := true, written := m.written + m.pending[..f.replays], pending := [], lost := true), EncodeFailed)
  }

  function WrittenThrough(m: Mux, s: Sample, f: Platform): (Mux, Status) {
    if f.writes then (m.(written := m.written + [s]), Ok) else (m, EncodeFailed)
  }

  function WithSample(m: Mux, s: Sample, f: Platform): (Mux, Status) {
    if m.started then WrittenThrough(m, s, f)
    else if !CanStart(m) then (m.(pending := m.pending + [s]), Ok)
    else
      match Started(m, f)
      case (m', Ok) => WrittenThrough(m', s, f)
      case (m', st) => (m', st)
  }

  function Accepting(r: (Mux, Status), s: Sample): (Mux, Status) {
    if r.1 == Ok then (r.0.(accepted := r.0.accepted + [s]), Ok) else r
  }

  function VideoSample(p: Packet): Sample {
    Sample(true, Strip(p.data), p.pts, p.keyframe)
  }

  function AudioSample(p: Packet): Sample {
    Sample(false, p.data, p.pts, false)
  }

  /** The video track from a first keyframe, which has to bring SPS and PPS. */
  function WithVideoTrack(m: Mux, p: Packet, f: Platform): (Mux, Status) {
    if m.videoTrack >= 0 then (m, Ok)
    else
      var m' := WithCsd(m, p.data);
      if !CsdComplete(m', p.data) then (m', EncodeFailed)
      else (m'.(videoTrack := f.track), if f.track < 0 then EncodeFailed else Ok)
  }

  function WithAudioTrack(m: Mux, hasAsc: bool, f: Platform): (Mux, Status) {
    if m.audioTrack >= 0 then (m, Ok)
    else if !hasAsc then (m, EncodeFailed)
    else (m.(audioTrack := f.track), if f.track < 0 then EncodeFailed else Ok)
  }

  function PushedVideo(m: Mux, p: Packet, f: Platform): (Mux, Status) {
    if p.data == [] then (m, Ok)
    else if !m.sink then (m, InvalidArgument)
    else
      match Ensured(m, f)
      case (m1, Ok) =>
        if m1.videoTrack < 0 && !p.keyframe then (m1, Ok)
        else (
          match WithVideoTrack(m1, p, f)
          case (m2, Ok) => Accepting(WithSample(m2, VideoSample(p), f), VideoSample(p))
          case (m2, st) => (m2, st))
      case (m1, st) => (m1, st)
  }

  /** `hasAsc`: the packet or the configuration yields an AudioSpecificConfig. */
  function PushedAudio(m: Mux, p: Packet, hasAsc: bool, f: Platform): (Mux, Status) {
    if p.data == [] then (m, Ok)
    else if !m.sink then (m, InvalidArgument)
    else if m.codec != Aac then (m, UnsupportedOperation)
    else
      match Ensured(m, f)
      case (m1, Ok) => (
        match WithAudioTrack(m1, hasAsc, f)
        case (m2, Ok) => Accepting(WithSample(m2, AudioSample(p), f), AudioSample(p))
        case (m2, st) => (m2, st))
      case (m1, st) => (m1, st)
  }

  /** `Finalize`, `ok` being the outcome of stopping and copying the file out. */
  function Finalized(m: Mux, ok: bool): (Mux, Status) {
    (m.(muxer := false, started := false, pending := []),
     if m.started && (m.muxer ==> ok) then Ok else EncodeFailed)
  }

  function FinishedMux(m: Mux, ok: bool): (Mux, Status) {
    if m.finished then (m, Ok)
    else (Finalized(m, ok).0.(finished := true), Finalized(m, ok).1)
  }

  datatype Action =
    | Video(packet: Packet, platform: Platform)
    | Audio(packet: Packet, hasAsc: bool, platform: Platform)
    | Finish(ok: bool)

  function Step(m: Mux, a: Action): (Mux, Status) {
    match a
    case Video(p, f) => PushedVideo(m, p, f)
    case Audio(p, hasAsc, f) => PushedAudio(m, p, hasAsc, f)
    case Finish(ok) => FinishedMux(m, ok)
  }

  function Run(m: Mux, acts: seq<Action>): Mux {
    if acts == [] then m else Step(Run(m, acts[..|acts| - 1]), acts[|acts| - 1]).0
  }

  // ----- Nothing is lost or reordered -----

  /** Started means every track exists and nothing is pending; and unless a replay
      broke off, written and then pending is what was accepted, in order. */
  ghost predicate Orderly(m: Mux) {
    && (m.started ==> CanStart(m) && m.pending == [])
    && (!m.started ==> m.written == [])
    && (!m.lost ==> m.written + m.pending == m.accepted)
  }

  lemma StartOrderly(m: Mux, f: Platform)
    requires Orderly(m) && CanStart(m)
    ensures Orderly(Started(m, f).0)
    ensures Started(m, f).1 == Ok ==> Started(m, f).0.started
    ensures !m.started ==>
              Started(m, f).0.lost == (m.lost || (f.starts && f.replays < |m.pending|))
  {
    if !m.started && f.starts && |m.pending| <= f.replays {
      assert m.written + m.pending + [] == m.written + m.pending;
    }
  }

  lemma WriteOrderly(m: Mux, s: Sample, f: Platform)
    requires Orderly(m) && m.started
    ensures Orderly(Accepting(WrittenThrough(m, s, f), s).0)
  {
    assert m.written + [] == m.written;
    assert (m.written + [s]) + [] == m.written + [s];
  }

  lemma SampleOrderly(m: Mux, s: Sample, f: Platform)
    requires Orderly(m)
    ensures Orderly(Accepting(WithSample(m, s, f), s).0)
  {
    if m.started {
      WriteOrderly(m, s, f);
    } else if !CanStart(m) {
      Associate(m.written, m.pending, [s]);
    } else {
      StartOrderly(m, f);
      if Started(m, f).1 == Ok {
        WriteOrderly(Started(m, f).0, s, f);
      }
    }
  }

  lemma EnsuredKeeps(m: Mux, f: Platform)
    ensures Ensured(m, f).0 == m.(muxer := Ensured(m, f).0.muxer)
  {
  }

  lemma VideoTrackOrderly(m: Mux, p: Packet, f: Platform)
    requires Orderly(m)
    ensures Orderly(WithVideoTrack(m, p, f).0)
  {
    VideoTrackKeeps(m, p, f);
  }

  lemma CsdKeeps(m: Mux, data: Bytes)
    ensures WithCsd(m, data) == m.(sps := WithCsd(m, data).sps, pps := WithCsd(m, data).pps)
  {
  }

  lemma VideoTrackKeeps(m: Mux, p: Packet, f: Platform)
    ensures var t := WithVideoTrack(m, p, f).0;
      t == m.(sps := t.sps, pps := t.pps, videoTrack := t.videoTrack)
    ensures m.videoTrack >= 0 ==> WithVideoTrack(m, p, f).0 == m
  {
    if m.videoTrack < 0 {
      CsdKeeps(m, p.data);
    }
  }

  lemma AudioTrackOrderly(m: Mux, hasAsc: bool, f: Platform)
    requires Orderly(m) && m.codec == Aac
    ensures Orderly(WithAudioTrack(m, hasAsc, f).0)
    ensures var t := WithAudioTrack(m, hasAsc, f).0; t == m.(audioTrack := t.audioTrack)
  {
  }

  lemma VideoPushOrderly(m: Mux, p: Packet, f: Platform)
    requires Orderly(m)
    ensures Orderly(PushedVideo(m, p, f).0)
  {
    EnsuredKeeps(m, f);
    var m1 := Ensured(m, f).0;
    VideoTrackOrderly(m1, p, f);
    SampleOrderly(WithVideoTrack(m1, p, f).0, VideoSample(p), f);
  }

  lemma AudioPushOrderly(m: Mux, p: Packet, hasAsc: bool, f: Platform)
    requires Orderly(m)
    ensures Orderly(PushedAudio(m, p, hasAsc, f).0)
  {
    if m.codec == Aac {
      EnsuredKeeps(m, f);
      var m1 := Ensured(m, f).0;
      AudioTrackOrderly(m1, hasAsc, f);
      SampleOrderly(WithAudioTrack(m1, hasAsc, f).0, AudioSample(p), f);
    }
  }

  lemma PushOrderly(m: Mux, a: Action)
    requires Orderly(m) && !a.Finish?
    ensures Orderly(Step(m, a).0)
  {
    if a.Video? {
      VideoPushOrderly(m, a.packet, a.platform);
    } else {
      AudioPushOrderly(m, a.packet, a.hasAsc, a.platform);
    }
  }

  predicate AllPushes(acts: seq<Action>) {
    forall a <- acts :: !a.Finish?
  }

  /** Over every run of pushes, whichever of them fail: what was written followed
      by what is pending is what was accepted, in order, unless a replay broke
      off; once started nothing is pending. */
  lemma {:induction false} RunOrderly(m: Mux, acts: seq<Action>)
    requires Orderly(m) && AllPushes(acts)
    ensures Orderly(Run(m, acts))
  {
    if acts != [] {
      var front, a := acts[..|acts| - 1], acts[|acts| - 1];
      RunOrderly(m, front);
      PushOrderly(Run(m, front), a);
    }
  }

  /** Samples are lost exactly when the platform muxer refuses one of those being
      replayed; the push that started the replay then fails. */
  lemma LostIff(m: Mux, s: Sample, f: Platform)
    requires Orderly(m) && !m.lost
    ensures var (t, st) := WithSample(m, s, f);
      && (t.lost <==> !m.started && CanStart(m) && f.starts && f.replays < |m.pending|)
      && (t.lost ==> st == EncodeFailed)
  {
  }

  lemma StartKeeps(m: Mux, f: Platform)
    ensures var t := Started(m, f).0;
      t == m.(started := t.started, written := t.written, pending := t.pending, lost := t.lost)
  {
  }

  lemma WriteKeeps(m: Mux, s: Sample, f: Platform)
    ensures WrittenThrough(m, s, f).0 == m.(written := WrittenThrough(m, s, f).0.written)
  {
  }

  lemma SampleKeeps(m: Mux, s: Sample, f: Platform)
    ensures var t := WithSample(m, s, f).0;
      t == m.(started := t.started, written := t.written, pending := t.pending, lost := t.lost)
  {
    if m.started {
      WriteKeeps(m, s, f);
    } else if CanStart(m) {
      StartKeeps(m, f);
      WriteKeeps(Started(m, f).0, s, f);
    }
  }

  /** No track is added once the muxer has started. */
  lemma TracksAreFixed(m: Mux, a: Action)
    requires Orderly(m) && m.started
    ensures Step(m, a).0.videoTrack == m.videoTrack && Step(m, a).0.audioTrack == m.audioTrack
  {
    match a
    case Video(p, f) =>
      EnsuredKeeps(m, f);
      SampleKeeps(Ensured(m, f).0, VideoSample(p), f);
    case Audio(p, hasAsc, f) =>
      EnsuredKeeps(m, f);
      SampleKeeps(Ensured(m, f).0, AudioSample(p), f);
    case _ =>
  }

  // ----- When a push succeeds -----

  /** What is handed over: the bytes behind a leading start code, with the packet's
      own time and keyframe mark; the units are those of the packet. */
  lemma SamplesArePackets(p: Packet)
    ensures VideoSample(p).video && VideoSample(p).pts == p.pts && VideoSample(p).keyframe == p.keyframe
    ensures CodeLength(p.data) == 0 ==> VideoSample(p).data == p.data
    ensures CodeLength(p.data) != 0 ==> Split(START_CODE + VideoSample(p).data) == Split(p.data)
    ensures AudioSample(p) == Sample(false, p.data, p.pts, false)
  {
    if CodeLength(p.data) != 0 {
      SplitOfStripped(p.data);
    }
  }

  lemma EnsuredIff(m: Mux, f: Platform)
    ensures var (t, st) := Ensured(m, f);
      && (st == Ok <==> m.muxer || (m.valid && f.creates))
      && (st == InvalidArgument <==> !m.muxer && !m.valid)
      && (st == EncodeFailed <==> !m.muxer && m.valid && !f.creates)
      && (t.muxer <==> st == Ok)
  {
  }

  lemma SampleIff(m: Mux, s: Sample, f: Platform)
    ensures var (t, st) := WithSample(m, s, f);
      && (st == Ok || st == EncodeFailed)
      && (m.started ==> (st == Ok <==> f.writes) && t.started &&
                        t.written == m.written + (if f.writes then [s] else []))
      && (!m.started && !CanStart(m) ==> st == Ok && t == m.(pending := m.pending + [s]))
      && (!m.started && CanStart(m) ==>
            (st == Ok <==> f.starts && |m.pending| <= f.replays && f.writes) && (t.started <==> f.starts))
  {
  }

  /** A track is added once, under the number the platform gives; a parameter set
      once known is kept. */
  lemma TrackIff(m: Mux, p: Packet, f: Platform)
    ensures var (t, st) := WithVideoTrack(m, p, f);
      && (st == Ok || st == EncodeFailed)
      && (st == Ok <==>
            (m.videoTrack >= 0 ||
             (f.track >= 0 && Split(p.data) != [] &&
              (m.sps != [] || FirstOf(Split(p.data), 7, 1) != []) &&
              (m.pps != [] || FirstOf(Split(p.data), 8, 1) != []))))
      && (st == Ok ==> t.videoTrack == (if m.videoTrack >= 0 then m.videoTrack else f.track) >= 0)
      && (m.sps != [] ==> t.sps == m.sps) && (m.pps != [] ==> t.pps == m.pps)
  {
  }

  lemma AudioTrackIff(m: Mux, hasAsc: bool, f: Platform)
    ensures var (t, st) := WithAudioTrack(m, hasAsc, f);
      && (st == Ok <==> m.audioTrack >= 0 || (hasAsc && f.track >= 0))
      && (st == Ok ==> t.audioTrack == (if m.audioTrack >= 0 then m.audioTrack else f.track) >= 0)
  {
  }

  /** A sample offered to the platform is taken, or put aside before the start. */
  predicate SampleGoes(started: bool, canStart: bool, pending: nat, f: Platform) {
    if started then f.writes else canStart ==> f.starts && pending <= f.replays && f.writes
  }

  /** A video push returns kOk exactly in these cases: there is nothing to do, or it
      waits for a keyframe, or the track is there or can be added and its sample is
      taken. Only then, and unless it is skipped, its sample counts as accepted. */
  lemma VideoPushIff(m: Mux, p: Packet, f: Platform)
    requires p.data != []
    ensures var (t, st) := PushedVideo(m, p, f);
      && (st == Ok <==>
            m.sink && (m.muxer || (m.valid && f.creates)) &&
            (if m.videoTrack < 0 && !p.keyframe then true
             else
               && (m.videoTrack >= 0 || (f.track >= 0 && Split(p.data) != [] &&
                     (m.sps != [] || FirstOf(Split(p.data), 7, 1) != []) &&
                     (m.pps != [] || FirstOf(Split(p.data), 8, 1) != [])))
               && SampleGoes(m.started, m.codec == NoAudio || m.audioTrack >= 0, |m.pending|, f)))
      && (st == InvalidArgument <==> !m.sink || (!m.muxer && !m.valid))
      && (st == Ok || st == InvalidArgument || st == EncodeFailed)
  {
    if m.sink {
      EnsuredIff(m, f);
      EnsuredKeeps(m, f);
      var m1 := Ensured(m, f).0;
      TrackIff(m1, p, f);
      VideoTrackKeeps(m1, p, f);
      SampleIff(WithVideoTrack(m1, p, f).0, VideoSample(p), f);
    }
  }

  lemma AudioPushIff(m: Mux, p: Packet, hasAsc: bool, f: Platform)
    requires p.data != []
    ensures var (t, st) := PushedAudio(m, p, hasAsc, f);
      && (st == Ok <==>
            m.sink && m.codec == Aac && (m.muxer || (m.valid && f.creates)) &&
            (m.audioTrack >= 0 || (hasAsc && f.track >= 0)) &&
            SampleGoes(m.started, m.videoTrack >= 0, |m.pending|, f))
      && (st == UnsupportedOperation <==> m.sink && m.codec != Aac)
      && (st == InvalidArgument <==> !m.sink || (m.codec == Aac && !m.muxer && !m.valid))
  {
    if m.sink && m.codec == Aac {
      EnsuredIff(m, f);
      EnsuredKeeps(m, f);
      SampleIff(WithAudioTrack(Ensured(m, f).0, hasAsc, f).0, AudioSample(p), f);
    }
  }

  /** An empty packet is no packet. */
  lemma EmptyPushes(m: Mux, p: Packet, hasAsc: bool, f: Platform)
    requires p.data == []
    ensures PushedVideo(m, p, f) == (m, Ok) && PushedAudio(m, p, hasAsc, f) == (m, Ok)
  {
  }

  lemma AcceptingIs(r: (Mux, Status), s: Sample)
    ensures Accepting(r, s).1 == r.1 && Accepting(r, s).0.written == r.0.written && Accepting(r, s).0.pending == r.0.pending
    ensures Accepting(r, s).0.accepted == r.0.accepted + if r.1 == Ok then [s] else []
  {
  }

  /** Once started, a push of something returns kOk exactly when the platform takes
      the sample, and exactly then the file grows, by that sample. */
  lemma StartedPushIff(m: Mux, p: Packet, hasAsc: bool, f: Platform)
    requires Orderly(m) && m.started && m.muxer && m.sink && p.data != []
    ensures var (t, st) := PushedVideo(m, p, f);
      && st == (if f.writes then Ok else EncodeFailed)
      && t.written == m.written + (if f.writes then [Sample(true, Strip(p.data), p.pts, p.keyframe)] else [])
      && t.accepted == m.accepted + (if f.writes then [Sample(true, Strip(p.data), p.pts, p.keyframe)] else [])
    ensures m.codec == Aac ==> var (t, st) := PushedAudio(m, p, hasAsc, f);
      && st == (if f.writes then Ok else EncodeFailed)
      && t.written == m.written + (if f.writes then [Sample(false, p.data, p.pts, false)] else [])
      && t.accepted == m.accepted + (if f.writes then [Sample(false, p.data, p.pts, false)] else [])
  {
    SampleIff(m, VideoSample(p), f);
    SampleIff(m, AudioSample(p), f);
    SampleKeeps(m, VideoSample(p), f);
    SampleKeeps(m, AudioSample(p), f);
    AcceptingIs(WithSample(m, VideoSample(p), f), VideoSample(p));
    AcceptingIs(WithSample(m, AudioSample(p), f), AudioSample(p));
    assert m.accepted + [] == m.accepted;
  }

  lemma MuxerStep(m: Mux, a: Action)
    requires m.started ==> m.muxer
    ensures Step(m, a).0.started ==> Step(m, a).0.muxer
  {
    match a
    case Video(p, f) =>
      EnsuredIff(m, f);
      EnsuredKeeps(m, f);
      VideoTrackKeeps(Ensured(m, f).0, p, f);
      SampleKeeps(WithVideoTrack(Ensured(m, f).0, p, f).0, VideoSample(p), f);
    case Audio(p, hasAsc, f) =>
      EnsuredIff(m, f);
      EnsuredKeeps(m, f);
      SampleKeeps(WithAudioTrack(Ensured(m, f).0, hasAsc, f).0, AudioSample(p), f);
    case _ =>
  }

  /** In every run a started muxer has its platform muxer. */
  lemma {:induction false} StartedHasMuxer(codec: AudioCodec, valid: bool, acts: seq<Action>)
    ensures var m := Run(Init(codec, valid), acts); m.started ==> m.muxer
    decreases |acts|
  {
    if acts != [] {
      StartedHasMuxer(codec, valid, acts[..|acts| - 1]);
      MuxerStep(Run(Init(codec, valid), acts[..|acts| - 1]), acts[|acts| - 1]);
    }
  }

  /** The first Finish returns kOk exactly when the muxer had started and stopping and
      copying went well; it leaves nothing open or pending. Later ones do nothing. */
  lemma FinishIff(m: Mux, ok: bool)
    requires m.started ==> m.muxer
    ensures var (t, st) := FinishedMux(m, ok);
      && t.finished
      && (if m.finished then t == m && st == Ok
          else
            && (st == Ok <==> m.started && ok)
            && (st != Ok ==> st == EncodeFailed)
            && !t.started && !t.muxer && t.pending == [] && t.written == m.written)
  {
  }

  // ----- What the file holds -----

  predicate AllOk(m: Mux, acts: seq<Action>) {
    acts == [] ||
    (AllOk(m, acts[..|acts| - 1]) && Step(Run(m, acts[..|acts| - 1]), acts[|acts| - 1]).1 == Ok)
  }

  predicate IsKey(a: Action) { a.Video? && a.packet.data != [] && a.packet.keyframe }
  predicate IsAudio(a: Action) { a.Audio? && a.packet.data != [] }

  predicate HasKey(acts: seq<Action>) {
    acts != [] && (HasKey(acts[..|acts| - 1]) || IsKey(acts[|acts| - 1]))
  }

  predicate HasAudio(acts: seq<Action>) {
    acts != [] && (HasAudio(acts[..|acts| - 1]) || IsAudio(acts[|acts| - 1]))
  }

  /** What pushes ask for: all audio, and video from its first keyframe on, without
      the leading start code; empty packets are nothing. */
  function Wanted(acts: seq<Action>): seq<Sample> {
    if acts == [] then []
    else
      var front, a := acts[..|acts| - 1], acts[|acts| - 1];
      Wanted(front) +
      if IsAudio(a) then [AudioSample(a.packet)]
      else if IsKey(a) || (a.Video? && a.packet.data != [] && HasKey(front)) then [VideoSample(a.packet)]
      else []
  }

  /** Read push by push: each non-empty audio packet adds its sample; each non-empty
      video packet does if it is a keyframe or one came before; nothing else does. */
  lemma WantedOneMore(acts: seq<Action>, a: Action)
    ensures Wanted([]) == []
    ensures a.Audio? && a.packet.data != [] ==>
              Wanted(acts + [a]) == Wanted(acts) + [Sample(false, a.packet.data, a.packet.pts, false)]
    ensures a.Video? && a.packet.data != [] &&
            (a.packet.keyframe || exists k <- acts :: k.Video? && k.packet.data != [] && k.packet.keyframe) ==>
              Wanted(acts + [a]) == Wanted(acts) + [Sample(true, Strip(a.packet.data), a.packet.pts, a.packet.keyframe)]
    ensures !(a.Audio? && a.packet.data != []) && !(a.Video? && a.packet.data != [] &&
              (a.packet.keyframe || exists k <- acts :: k.Video? && k.packet.data != [] && k.packet.keyframe)) ==>
              Wanted(acts + [a]) == Wanted(acts)
  {
    Latest(acts, a);
    HasKeyIff(acts);
    assert Wanted(acts) + [] == Wanted(acts);
  }

  lemma {:induction false} HasKeyIff(acts: seq<Action>)
    ensures HasKey(acts) <==> exists k <- acts :: k.Video? && k.packet.data != [] && k.packet.keyframe
    decreases |acts|
  {
    if acts != [] {
      var front, a := acts[..|acts| - 1], acts[|acts| - 1];
      HasKeyIff(front);
      assert acts == front + [a];
    }
  }

  /** Video starts at a keyframe. */
  lemma {:induction false} VideoStartsAtKeyframe(acts: seq<Action>, i: nat) returns (k: nat)
    requires i < |Wanted(acts)| && Wanted(acts)[i].video
    ensures k <= i && Wanted(acts)[k].video && Wanted(acts)[k].keyframe
    ensures HasKey(acts)
    decreases |acts|
  {
    var front := acts[..|acts| - 1];
    if i < |Wanted(front)| {
      k := VideoStartsAtKeyframe(front, i);
    } else if HasKey(front) {
      k := KeyframeIsWanted(front);
    } else {
      k := i;
    }
  }

  lemma {:induction false} KeyframeIsWanted(acts: seq<Action>) returns (k: nat)
    requires HasKey(acts)
    ensures k < |Wanted(acts)| && Wanted(acts)[k].video && Wanted(acts)[k].keyframe
    decreases |acts|
  {
    var front := acts[..|acts| - 1];
    if HasKey(front) {
      k := KeyframeIsWanted(front);
    } else {
      k := |Wanted(front)|;
    }
  }

  /** After pushes that all succeeded. */
  ghost predicate Faithful(m: Mux, acts: seq<Action>) {
    && Orderly(m) && !m.lost && m.sink
    && m.accepted == Wanted(acts)
    && (m.videoTrack >= 0 <==> HasKey(acts))
    && (m.audioTrack >= 0 <==> HasAudio(acts))
    && (m.started <==> CanStart(m))
  }

  lemma StartOk(m: Mux, f: Platform)
    requires Started(m, f).1 == Ok
    ensures Started(m, f).0.lost == m.lost && Started(m, f).0.started
  {
  }

  lemma SampleOk(m: Mux, s: Sample, f: Platform)
    requires WithSample(m, s, f).1 == Ok && (m.started ==> CanStart(m))
    ensures WithSample(m, s, f).0.lost == m.lost
    ensures WithSample(m, s, f).0.started == CanStart(m)
  {
    if !m.started && CanStart(m) && Started(m, f).1 == Ok {
      StartOk(m, f);
    }
  }

  lemma TrackOk(m: Mux, p: Packet, f: Platform)
    requires WithVideoTrack(m, p, f).1 == Ok
    ensures WithVideoTrack(m, p, f).0.videoTrack >= 0
  {
  }

  lemma VideoFaithful(m: Mux, acts: seq<Action>, p: Packet, f: Platform)
    requires Faithful(m, acts) && PushedVideo(m, p, f).1 == Ok
    ensures Faithful(PushedVideo(m, p, f).0, acts + [Video(p, f)])
  {
    EnsuredKeeps(m, f);
    VideoPushOrderly(m, p, f);
    Latest(acts, Video(p, f));
    var m1 := Ensured(m, f).0;
    if p.data != [] && (m.videoTrack >= 0 || p.keyframe) {
      var m2 := WithVideoTrack(m1, p, f).0;
      VideoTrackKeeps(m1, p, f);
      TrackOk(m1, p, f);
      SampleOk(m2, VideoSample(p), f);
      SampleKeeps(m2, VideoSample(p), f);
    }
  }

  lemma AudioFaithful(m: Mux, acts: seq<Action>, p: Packet, hasAsc: bool, f: Platform)
    requires Faithful(m, acts) && PushedAudio(m, p, hasAsc, f).1 == Ok
    ensures Faithful(PushedAudio(m, p, hasAsc, f).0, acts + [Audio(p, hasAsc, f)])
  {
    EnsuredKeeps(m, f);
    AudioPushOrderly(m, p, hasAsc, f);
    Latest(acts, Audio(p, hasAsc, f));
    var m1 := Ensured(m, f).0;
    if p.data != [] {
      var m2 := WithAudioTrack(m1, hasAsc, f).0;
      AudioTrackOrderly(m1, hasAsc, f);
      SampleOk(m2, AudioSample(p), f);
      SampleKeeps(m2, AudioSample(p), f);
    }
  }

  lemma Latest(acts: seq<Action>, a: Action)
    ensures (acts + [a])[..|acts|] == acts && (acts + [a])[|acts|] == a
  {
  }

  lemma FaithfulStep(m: Mux, acts: seq<Action>, a: Action)
    requires Faithful(m, acts) && !a.Finish? && Step(m, a).1 == Ok
    ensures Faithful(Step(m, a).0, acts + [a]) && Step(m, a).0.codec == m.codec
  {
    StepKeepsCodec(m, a);
    if a.Video? {
      VideoFaithful(m, acts, a.packet, a.platform);
    } else {
      AudioFaithful(m, acts, a.packet, a.hasAsc, a.platform);
    }
  }

  lemma {:induction false} FaithfulRun(m: Mux, acts: seq<Action>)
    requires Faithful(m, []) && AllPushes(acts) && AllOk(m, acts)
    ensures Faithful(Run(m, acts), acts) && Run(m, acts).codec == m.codec
    decreases |acts|
  {
    if acts != [] {
      var front, a := acts[..|acts| - 1], acts[|acts| - 1];
      FrontAndLast(acts, front, a);
      FaithfulRun(m, front);
      FaithfulStep(Run(m, front), front, a);
    }
  }

  lemma FrontAndLast(acts: seq<Action>, front: seq<Action>, a: Action)
    requires acts != [] && front == acts[..|acts| - 1] && a == acts[|acts| - 1]
    ensures front + [a] == acts
    ensures AllPushes(acts) ==> AllPushes(front) && !a.Finish?
  {
  }

  /** While every push returns kOk, what was written followed by what is pending is
      exactly what the pushes asked for, in order, and the muxer has started
      exactly when a keyframe and, with audio configured, some audio has come. */
  lemma WritesWhatWasWanted(codec: AudioCodec, valid: bool, acts: seq<Action>)
    requires AllPushes(acts) && AllOk(Init(codec, valid), acts)
    ensures var m := Run(Init(codec, valid), acts);
      && m.written + m.pending == Wanted(acts)
      && (m.started <==> HasKey(acts) && (codec != NoAudio ==> HasAudio(acts)))
      && (m.started ==> m.pending == [])
  {
    assert Faithful(Init(codec, valid), []);
    FaithfulRun(Init(codec, valid), acts);
  }

  /** The first video sample in the file, or waiting for it, is a keyframe. */
  lemma FileStartsAtKeyframe(codec: AudioCodec, valid: bool, acts: seq<Action>, i: nat) returns (k: nat)
    requires AllPushes(acts) && AllOk(Init(codec, valid), acts)
    requires var m := Run(Init(codec, valid), acts); i < |m.written + m.pending| && (m.written + m.pending)[i].video
    ensures var m := Run(Init(codec, valid), acts);
      k <= i && (m.written + m.pending)[k].video && (m.written + m.pending)[k].keyframe
  {
    WritesWhatWasWanted(codec, valid, acts);
    k := VideoStartsAtKeyframe(acts, i);
  }

  lemma StepKeepsCodec(m: Mux, a: Action)
    ensures Step(m, a).0.codec == m.codec
  {
    match a
    case Video(p, f) =>
      EnsuredKeeps(m, f);
      VideoTrackKeeps(Ensured(m, f).0, p, f);
      SampleKeeps(WithVideoTrack(Ensured(m, f).0, p, f).0, VideoSample(p), f);
    case Audio(p, hasAsc, f) =>
      EnsuredKeeps(m, f);
      SampleKeeps(WithAudioTrack(Ensured(m, f).0, hasAsc, f).0, AudioSample(p), f);
    case _ =>
  }

  // ----- Opus -----

  ghost predicate NeverStarts(m: Mux) {
    m.codec == Opus && m.audioTrack < 0 && !m.started && m.written == []
  }

  lemma OpusStep(m: Mux, a: Action)
    requires NeverStarts(m)
    ensures NeverStarts(Step(m, a).0)
  {
    if a.Video? {
      EnsuredKeeps(m, a.platform);
      VideoTrackKeeps(Ensured(m, a.platform).0, a.packet, a.platform);
    }
  }

  /** A muxer configured for Opus refuses the audio it waits for: no run writes
      anything, and the Finish that ends it fails. */
  lemma {:induction false} OpusWritesNothing(valid: bool, acts: seq<Action>, ok: bool)
    ensures var m := Run(Init(Opus, valid), acts);
      && NeverStarts(m)
      && (!m.finished ==> Step(m, Finish(ok)).1 == EncodeFailed)
    decreases |acts|
  {
    if acts != [] {
      OpusWritesNothing(valid, acts[..|acts| - 1], ok);
      OpusStep(Run(Init(Opus, valid), acts[..|acts| - 1]), acts[|acts| - 1]);
    }
  }

  // ----- Which configurations can start -----

  ghost predicate Inert(m: Mux) {
    !m.valid && !m.muxer && !m.started && m.videoTrack < 0 && m.audioTrack < 0
  }

  /** An invalid configuration gets no platform muxer, so nothing goes on. */
  lemma {:induction false} InvalidNeverStarts(codec: AudioCodec, acts: seq<Action>)
    ensures Inert(Run(Init(codec, false), acts))
    decreases |acts|
  {
    if acts != [] {
      InvalidNeverStarts(codec, acts[..|acts| - 1]);
      InertStep(Run(Init(codec, false), acts[..|acts| - 1]), acts[|acts| - 1]);
    }
  }

  lemma InertStep(m: Mux, a: Action)
    requires Inert(m)
    ensures Inert(Step(m, a).0)
  {
  }

  function Willing(track: nat): Platform {
    Platform(true, track, true, 1, true)
  }

  /** A packet that can open the video track. */
  predicate Opens(p: Packet) {
    && p.data != [] && p.keyframe && Split(p.data) != []
    && FirstOf(Split(p.data), SPS, 1) != [] && FirstOf(Split(p.data), PPS, 1) != []
  }

  /** A keyframe of one SPS and one PPS. */
  lemma KeyframeOf(sps: Bytes, pps: Bytes) returns (p: Packet)
    requires Qualifies(sps, SPS, 1) && Qualifies(pps, PPS, 1) && CodeFree(sps) && CodeFree(pps)
    ensures Opens(p)
  {
    p := Packet(Join([sps, pps]), 0, true);
    SplitUndoesJoin([sps, pps]);
    FirstOfTwo(sps, pps);
  }

  lemma FirstOfTwo(sps: Bytes, pps: Bytes)
    requires Qualifies(sps, SPS, 1) && Qualifies(pps, PPS, 1)
    ensures FirstOf([sps, pps], SPS, 1) == sps && FirstOf([sps, pps], PPS, 1) == pps
  {
    assert [sps, pps][1..] == [pps];
  }

  lemma OneByteUnit(b: Byte, nalType: nat)
    requires b as nat % 32 == nalType
    ensures Qualifies([b], nalType, 1) && CodeFree([b])
  {
    NalTypeIsLowFiveBits(b);
  }

  lemma SomeKeyframe() returns (p: Packet)
    ensures Opens(p)
  {
    var sps: Byte, pps: Byte := 0x67, 0x68;
    OneByteUnit(sps, 7);
    OneByteUnit(pps, 8);
    p := KeyframeOf([sps], [pps]);
  }

  lemma TrackOpens(m: Mux, p: Packet, f: Platform)
    requires m.videoTrack < 0 && m.sps == [] && m.pps == [] && Opens(p) && f.track >= 0
    ensures WithVideoTrack(m, p, f).1 == Ok && WithVideoTrack(m, p, f).0.videoTrack >= 0
  {
  }

  lemma SampleStarts(m: Mux, s: Sample, f: Platform)
    requires CanStart(m) && !m.started && f.starts && |m.pending| <= f.replays && f.writes
    ensures WithSample(m, s, f).1 == Ok && WithSample(m, s, f).0.started
  {
  }

  lemma KeyframeStarts(m: Mux, p: Packet, f: Platform)
    requires m.valid && m.sink && !m.started && m.videoTrack < 0 && m.sps == [] && m.pps == [] && Opens(p)
    requires m.codec != NoAudio ==> m.audioTrack >= 0
    requires f.creates && f.track >= 0 && f.starts && |m.pending| <= f.replays && f.writes
    ensures PushedVideo(m, p, f).1 == Ok && PushedVideo(m, p, f).0.started
  {
    var m1 := Ensured(m, f).0;
    EnsuredKeeps(m, f);
    TrackOpens(m1, p, f);
    VideoTrackKeeps(m1, p, f);
    SampleStarts(WithVideoTrack(m1, p, f).0, VideoSample(p), f);
  }

  lemma OkOneMore(m: Mux, acts: seq<Action>, a: Action)
    requires AllOk(m, acts) && Step(Run(m, acts), a).1 == Ok
    ensures AllOk(m, acts + [a]) && Run(m, acts + [a]) == Step(Run(m, acts), a).0
  {
    Latest(acts, a);
  }

  lemma AudioOpens()
    ensures var (t, st) := PushedAudio(Init(Aac, true), Packet([0], 0, false), true, Willing(1));
      && st == Ok && t.valid && t.sink && !t.started && t.videoTrack < 0 && t.audioTrack >= 0 && t.codec == Aac
      && t.sps == [] && t.pps == [] && |t.pending| <= 1
  {
  }

  lemma KeyframeEnds(m: Mux, acts: seq<Action>) returns (more: seq<Action>)
    requires AllPushes(acts) && AllOk(m, acts)
    requires var t := Run(m, acts);
      && t.valid && t.sink && !t.started && t.videoTrack < 0 && t.sps == [] && t.pps == []
      && (t.codec != NoAudio ==> t.audioTrack >= 0) && |t.pending| <= 1
    ensures AllPushes(more) && AllOk(m, more) && Run(m, more).started
  {
    var p := SomeKeyframe();
    KeyframeStarts(Run(m, acts), p, Willing(0));
    OkOneMore(m, acts, Video(p, Willing(0)));
    more := acts + [Video(p, Willing(0))];
  }

  /** An AAC configuration waits for one audio packet, and then the keyframe starts
      the muxer. */
  lemma OpeningStarts(codec: AudioCodec) returns (acts: seq<Action>)
    requires codec != Opus
    ensures AllPushes(acts) && AllOk(Init(codec, true), acts) && Run(Init(codec, true), acts).started
  {
    acts := [];
    if codec == Aac {
      var a := Audio(Packet([0], 0, false), true, Willing(1));
      AudioOpens();
      OkOneMore(Init(codec, true), acts, a);
      acts := acts + [a];
    }
    acts := KeyframeEnds(Init(codec, true), acts);
  }

  /** Some run of pushes that all succeed starts the muxer if and only if the
      configuration is valid and its audio is not Opus. */
  lemma CanBeStartedIff(codec: AudioCodec, valid: bool)
    ensures (exists acts ::
               AllPushes(acts) && AllOk(Init(codec, valid), acts) && Run(Init(codec, valid), acts).started) <==>
            valid && codec != Opus
  {
    if valid && codec != Opus {
      var acts := OpeningStarts(codec);
    } else {
      forall acts ensures !Run(Init(codec, valid), acts).started {
        if valid {
          OpusWritesNothing(valid, acts, true);
        } else {
          InvalidNeverStarts(codec, acts);
        }
      }
    }
  }

  // ----- A platform that does its part -----

  /** The platform does all it is asked in this push, with up to `n` samples waiting;
      the packet is one that the configuration is made for. */
  predicate Helped(a: Action, codec: AudioCodec, n: nat) {
    match a
    case Finish(_) => false
    case Video(p, f) => f.creates && f.track >= 0 && f.starts && f.writes && n <= f.replays
    case Audio(p, hasAsc, f) =>
      && f.creates && f.track >= 0 && f.starts && f.writes && n <= f.replays
      && (p.data != [] ==> codec == Aac && hasAsc)
  }

  /** The first keyframe brings its parameter sets. */
  predicate OpensWell(acts: seq<Action>) {
    acts == [] ||
    (OpensWell(acts[..|acts| - 1]) &&
     (IsKey(acts[|acts| - 1]) && !HasKey(acts[..|acts| - 1]) ==> Opens(acts[|acts| - 1].packet)))
  }

  lemma HelpedStep(m: Mux, acts: seq<Action>, a: Action, n: nat)
    requires Faithful(m, acts) && m.valid && Helped(a, m.codec, n) && |m.pending| <= n
    requires IsKey(a) && !HasKey(acts) ==> Opens(a.packet)
    ensures Step(m, a).1 == Ok
  {
    if a.packet.data == [] {
      EmptyPushes(m, a.packet, a.Audio? && a.hasAsc, a.platform);
    } else if a.Video? {
      VideoPushIff(m, a.packet, a.platform);
    } else {
      AudioPushIff(m, a.packet, a.hasAsc, a.platform);
    }
  }

  lemma {:induction false} WantedIsShort(acts: seq<Action>)
    ensures |Wanted(acts)| <= |acts|
    decreases |acts|
  {
    if acts != [] {
      WantedIsShort(acts[..|acts| - 1]);
    }
  }

  lemma StepKeepsValid(m: Mux, a: Action)
    ensures Step(m, a).0.valid == m.valid
  {
    match a
    case Video(p, f) =>
      EnsuredKeeps(m, f);
      VideoTrackKeeps(Ensured(m, f).0, p, f);
      SampleKeeps(WithVideoTrack(Ensured(m, f).0, p, f).0, VideoSample(p), f);
    case Audio(p, hasAsc, f) =>
      EnsuredKeeps(m, f);
      SampleKeeps(WithAudioTrack(Ensured(m, f).0, hasAsc, f).0, AudioSample(p), f);
    case _ =>
  }

  lemma {:induction false} HelpedRunOk(m: Mux, acts: seq<Action>, n: nat)
    requires Faithful(m, []) && m.valid && OpensWell(acts) && |acts| <= n
    requires forall a <- acts :: Helped(a, m.codec, n)
    ensures AllPushes(acts) && AllOk(m, acts)
    ensures Faithful(Run(m, acts), acts) && Run(m, acts).codec == m.codec && Run(m, acts).valid
    decreases |acts|
  {
    if acts != [] {
      var front, a := acts[..|acts| - 1], acts[|acts| - 1];
      FrontAndLast(acts, front, a);
      assert a in acts && forall x <- front :: x in acts;
      HelpedRunOk(m, front, n);
      WantedIsShort(front);
      HelpedStep(Run(m, front), front, a, n);
      FaithfulStep(Run(m, front), front, a);
      StepKeepsValid(Run(m, front), a);
    }
  }

  /** With a valid configuration, a platform that does its part and a first keyframe
      that brings its parameter sets, every run of video and of the configured audio
      succeeds throughout, and the file is what the pushes asked for. */
  lemma HelpedRunWrites(codec: AudioCodec, acts: seq<Action>)
    requires OpensWell(acts) && forall a <- acts :: Helped(a, codec, |acts|)
    ensures AllOk(Init(codec, true), acts)
    ensures var m := Run(Init(codec, true), acts);
      && m.written + m.pending == Wanted(acts)
      && (m.started <==> HasKey(acts) && (codec != NoAudio ==> HasAudio(acts)))
      && (m.started ==> m.written == Wanted(acts))
  {
    assert Faithful(Init(codec, true), []);
    HelpedRunOk(Init(codec, true), acts, |acts|);
    WritesWhatWasWanted(codec, true, acts);
    var m := Run(Init(codec, true), acts);
    assert m.started ==> m.written + [] == m.written;
  }

  // ----- The muxer object -----

  class MediaCodecMuxer {
    const codec: AudioCodec
    const valid: bool
    var sink: bool
    var muxer: bool
    var videoTrack: int
    var audioTrack: int
    var sps: Bytes
    var pps: Bytes
    var pending: seq<Sample>
    var started: bool
    var finished: bool
    ghost var written: seq<Sample>
    ghost var accepted: seq<Sample>
    ghost var lost: bool

    ghost function View(): Mux
      reads this
    {
      Mux(codec, valid, sink, muxer, videoTrack, audioTrack, sps, pps, pending, started, finished,
          written, accepted, lost)
    }

    constructor (codec: AudioCodec, valid: bool)
      ensures View() == Init(codec, valid).(sink := false)
    {
      this.codec, this.valid := codec, valid;
      sink, muxer, started, finished, lost := false, false, false, false, false;
      videoTrack, audioTrack := -1, -1;
      sps, pps, pending, written, accepted := [], [], [], [], [];
    }

    method SetOutput()
      modifies this`sink
      ensures View() == old(View()).(sink := true)
    {
      sink := true;
    }

    method EnsureMuxer(f: Platform) returns (st: Status)
      modifies this`muxer
      ensures (View(), st) == Ensured(old(View()), f)
    {
      if muxer {
        return Ok;
      }
      if !valid {
        return InvalidArgument;
      }
      if !f.creates {
        return EncodeFailed;
      }
      muxer := true;
      st := Ok;
    }

    method CaptureVideoCsd(data: Bytes) returns (st: Status)
      modifies this`sps, this`pps
      ensures View() == WithCsd(old(View()), data)
      ensures st == if CsdComplete(View(), data) then Ok else EncodeFailed
    {
      var ok, units := SplitAnnexB(data);
      if !ok {
        return EncodeFailed;
      }
      var rest := units;
      while rest != []
        invariant KnownOr(sps, rest, SPS) == KnownOr(old(sps), units, SPS)
        invariant KnownOr(pps, rest, PPS) == KnownOr(old(pps), units, PPS)
        decreases |rest|
      {
        KeepNext(sps, rest, SPS);
        KeepNext(pps, rest, PPS);
        var u := rest[0];
        if Qualifies(u, SPS, 1) && sps == [] {
          sps := u;
        }
        if Qualifies(u, PPS, 1) && pps == [] {
          pps := u;
        }
        rest := rest[1..];
      }
      st := if sps == [] || pps == [] then EncodeFailed else Ok;
    }

    /** One writeSampleData call. */
    method Hand(s: Sample, taken: bool)
      modifies this`written
      ensures written == if taken then old(written) + [s] else old(written)
    {
      if taken {
        written := written + [s];
      }
    }

    method Start(f: Platform) returns (st: Status)
      modifies this`started, this`pending, this`written, this`lost
      ensures (View(), st) == Started(old(View()), f)
    {
      if started {
        return Ok;
      }
      if !f.starts {
        return EncodeFailed;
      }
      started := true;
      var i := 0;
      while i < |pending|
        invariant i <= |pending| && i <= f.replays
        invariant pending == old(pending) && lost == old(lost) && started
        invariant written == old(written) + pending[..i]
      {
        Hand(pending[i], i < f.replays);
        if i == f.replays {
          pending := [];
          lost := true;
          return EncodeFailed;
        }
        assert old(written) + pending[..i + 1] == old(written) + pending[..i] + [pending[i]];
        i := i + 1;
      }
      assert pending[..i] == pending;
      pending := [];
      st := Ok;
    }

    method WriteSample(s: Sample, f: Platform) returns (st: Status)
      modifies this`started, this`pending, this`written, this`lost
      ensures (View(), st) == WithSample(old(View()), s, f)
    {
      if !started {
        if videoTrack >= 0 && (codec != NoAudio ==> audioTrack >= 0) {
          st := Start(f);
          if st != Ok {
            return;
          }
        }
        if !started {
          pending := pending + [s];
          return Ok;
        }
      }
      Hand(s, f.writes);
      st := if f.writes then Ok else EncodeFailed;
    }

    method AddVideoTrack(p: Packet, f: Platform) returns (st: Status)
      requires videoTrack < 0
      modifies this`sps, this`pps, this`videoTrack
      ensures (View(), st) == WithVideoTrack(old(View()), p, f)
    {
      st := CaptureVideoCsd(p.data);
      if st != Ok {
        return EncodeFailed;
      }
      videoTrack := f.track;
      st := if videoTrack < 0 then EncodeFailed else Ok;
    }

    method PushVideo(p: Packet, f: Platform) returns (st: Status)
      modifies this
      ensures (View(), st) == PushedVideo(old(View()), p, f)
    {
      if p.data == [] {
        return Ok;
      }
      if !sink {
        return InvalidArgument;
      }
      st := EnsureMuxer(f);
      if st != Ok {
        return;
      }
      if videoTrack < 0 {
        if !p.keyframe {
          return Ok;
        }
        st := AddVideoTrack(p, f);
        if st != Ok {
          return;
        }
      }
      var d := WithoutLeadingCode(p.data);
      var s := Sample(true, d, p.pts, p.keyframe);
      st := WriteSample(s, f);
      if st == Ok {
        accepted := accepted + [s];
      }
    }

    method PushAudio(p: Packet, hasAsc: bool, f: Platform) returns (st: Status)
      modifies this
      ensures (View(), st) == PushedAudio(old(View()), p, hasAsc, f)
    {
      if p.data == [] {
        return Ok;
      }
      if !sink {
        return InvalidArgument;
      }
      if codec != Aac {
        return UnsupportedOperation;
      }
      st := EnsureMuxer(f);
      if st != Ok {
        return;
      }
      if audioTrack < 0 {
        if !hasAsc {
          return EncodeFailed;
        }
        audioTrack := f.track;
        if audioTrack < 0 {
          return EncodeFailed;
        }
      }
      var s := Sample(false, p.data, p.pts, false);
      st := WriteSample(s, f);
      if st == Ok {
        accepted := accepted + [s];
      }
    }

    method Finish(ok: bool) returns (st: Status)
      modifies this
      ensures (View(), st) == FinishedMux(old(View()), ok)
    {
      if finished {
        return Ok;
      }
      st := Ok;
      if !started {
        st := EncodeFailed;
      } else if muxer && !ok {
        st := EncodeFailed;
      }
      muxer, started, pending := false, false, [];
      finished := true;
    }
  }

  method WithoutLeadingCode(data: Bytes) returns (d: Bytes)
    ensures d == Strip(data)
  {
    if |data| >= 4 && data[0] == 0 && data[1] == 0 && data[2] == 0 && data[3] == 1 {
      d := data[4..];
    } else if |data| >= 3 && data[0] == 0 && data[1] == 0 && data[2] == 1 {
      d := data[3..];
    } else {
      d := data;
    }
  }

  lemma KeepNext(known: Bytes, units: seq<Bytes>, nalType: nat)
    requires units != []
    ensures KnownOr(known, units, nalType) ==
            KnownOr(if Qualifies(units[0], nalType, 1) && known == [] then units[0] else known, units[1..], nalType)
  {
  }
}
