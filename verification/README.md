# Verified models of the video codec and stream frameworks

A Dafny model of five parts of the repository, and proofs about it: the packet
transport between encoder and muxer, the H.264 byte-stream transforms of two
backends, the two muxers, the stream session with its reconnect worker and bitrate
control, and the WebRTC connect protocol. `dafny verify dfyconfig.toml` checks
everything.

| module | models |
|---|---|
| `Core`, `Bits` | status codes, bytes, sequence facts; bitwise and, powers of two |
| `RingModel`, `Ring`, `RingProtocol` | the bounded ring: as an abstract queue with its history, as a slot array refining that queue, and as a step system with wait sets |
| `PacketQueue` | the two-ring queue and its drain loop |
| `AnnexB`, `Avcc`, `AvcRecord`, `KeyframeAssembly` | splitting and joining byte streams (annex B of ITU-T H.264), length-prefixed samples and avcC (ISO/IEC 14496-15:2010, sections 5.2.3 and 5.2.4.1), keyframe assembly |
| `PlanePacking`, `AudioPace` | strided planes into a flat buffer; audio paced by a video clock |
| `AndroidMuxer`, `FFmpegMuxer` | what reaches the container, in what order |
| `Abr`, `Reconnect` | bitrate control and exponential backoff in machine arithmetic |
| `StreamLifecycle`, `StreamSend` | the session's states and threads; its counters |
| `WebrtcSession` | generations, the offer claim, the WHIP worker, the first outcome |

Classes and loops stand where the C++ code has them, each proved against a function
of its state; the properties are then lemmas about that function over all runs. Code
that several threads enter is a step system, and a run is any sequence of steps. A
step is a lock region or an access to an atomic; where one step holds more, the
module or "Left out" says which and why. Calls into FFmpeg, MediaCodec,
libdatachannel, the HTTP client and user sinks succeed or fail as a parameter or an
action says, and the theorems hold for every choice.

Each step function has, beside the laws over runs, lemmas that fix its outcomes in
both directions: when a push is stored, a wait ends, a report counts.

Some promises turned out to hold only under a condition; each of these has an exact
condition, a concrete or reachable counterexample, or both.

- Bitrate bounds can be escaped by 32-bit wrap-around (`Abr.BoundsKeptIff`).
- The backoff becomes 0 after 61 failures, since 1000 << 61 is a multiple of 2^64
  (`Reconnect.Collapse`).
- Stop does nothing while a retry shows as kConnecting, and the retries go on
  (`StreamLifecycle.StopCanBeIgnored`).
- A drop is forgotten if it is reported during a retry that succeeds or before the
  worker has cleared its flag after it, or while the state is neither kStreaming nor
  kReconnecting and nobody retries, as between kIceConnected and the first frame
  (`StreamLifecycle.DropForgottenIff` and the lemmas around it).
- After a failed Init, and after a Release, Init returns kOk without initialising
  (`StreamLifecycle.InitInVainIff`, `FailedInitIsFinal`).
- After 100 failed sends audio alone never recovers, and says kOk
  (`StreamSend.AudioStarves`).
- A late callback of an earlier WebRTC session can use up the next session's offer
  (`WebrtcSession.StaleCallbackBurnsOffer`), and a late sender can make it report
  kStreaming (`WebrtcSession.StaleFrameReportsStreaming`); the state's documentation
  (video_codec/stream/src/api/stream_status.h:18-20) rules the latter out, and
  `WebrtcSession.StreamingIsDocumentedIff` says exactly when it is right.
- The Android muxer accepts a configuration with Opus audio and never writes it
  (`AndroidMuxer.OpusWritesNothing`).
- The FFmpeg muxer ignores parameter sets under 4 bytes (`AvcRecord.BackendsAgree`),
  opens without any (`FFmpegMuxer.OpensWithoutParameterSets`) and never retries audio
  after a replay that broke off (`FFmpegMuxer.StuckAudioStays`).
- Android's I420 input reads the V plane with the stride of U
  (`PlanePacking.VPlaneNeedsStrideOfU`), and with odd dimensions the codec gets
  nothing of the frame (`PlanePacking.PackedFillsBufferIff`).

## Model

| member | source | states |
|---|---|---|
| `Bits.CapacityTest` | video_codec/codec/src/framework/queue/packet_queue.cc:16-18 | the asserted bit test holds for exactly the powers of two |
| `Bits.MaskIsModulo` | video_codec/codec/src/framework/queue/packet_queue.cc:15-37 | masking with capacity - 1 is reduction modulo the capacity for every index exactly when the capacity is a power of two |
| `Ring.MaskWraps` | video_codec/codec/src/framework/queue/packet_queue.cc:29-37 | the masked increment equals both wrapping once and `%` |
| `Ring.Ring.constructor` | video_codec/codec/src/framework/queue/packet_queue.cc:14-19 | the assertion on the capacity is enough for an empty ring of that capacity whose slot array stands for the empty queue |
| `Ring.Ring.Push` | video_codec/codec/src/framework/queue/packet_queue.cc:22-41 | on the slot array: refused exactly if closed or full under kError, parked exactly if open and full under kBlock, else stored as the newest packet, over the oldest one if full; the same as `Offer` on the queue |
| `Ring.Ring.Pop` | video_codec/codec/src/framework/queue/packet_queue.cc:44-60 | on the slot array: the oldest packet if there is one, else the end of stream, a wait or nothing; the same as `Take` on the queue |
| `Ring.Ring.Evict` | video_codec/codec/src/framework/queue/packet_queue.cc:27-30 | the kLatest branch removes the oldest packet and records it |
| `Ring.Ring.Advance` | video_codec/codec/src/framework/queue/packet_queue.cc:55-57 | clearing the head slot removes the front of the queue and nothing else |
| `Ring.Ring.Store` | video_codec/codec/src/framework/queue/packet_queue.cc:36-38 | filling the tail slot appends to the queue |
| `Ring.Ring.MarkEos` | video_codec/codec/src/framework/queue/packet_queue.cc:63-67 | only the end-of-stream mark changes |
| `RingModel.OfferIff` | video_codec/codec/src/framework/queue/packet_queue.cc:22-41 | every outcome of a push on the queue |
| `RingModel.TakeIff` | video_codec/codec/src/framework/queue/packet_queue.cc:44-60 | every outcome of a pop on the queue |
| `RingModel.OfferConserves` | video_codec/codec/src/framework/queue/packet_queue.cc:22-41 | a push keeps: accepted packets = packets that left, then packets held, in order |
| `RingModel.TakeConserves` | video_codec/codec/src/framework/queue/packet_queue.cc:44-60 | a pop keeps the same |
| `RingModel.LosslessIsFifo` | video_codec/codec/src/framework/queue/packet_queue.cc:22-60 | under kBlock and kError the accepted packets are the popped ones followed by the contents |
| `RingModel.HeldIsNewest` | video_codec/codec/src/framework/queue/packet_queue.cc:25-38 | the contents are a suffix of the accepted packets, popped packets an in-order subsequence of the rest, and accepted = popped + overwritten + held |
| `RingModel.EvictsOldestWhenFull` | video_codec/codec/src/framework/queue/packet_queue.cc:25-38 | a packet is overwritten if and only if an open, full kLatest ring is pushed to; it is the oldest |
| `RingProtocol.StepKeepsInv` | video_codec/codec/src/framework/queue/packet_queue.cc:22-67 | every lock region, wait and wake-up keeps conservation and the absence of lost wake-ups |
| `RingProtocol.EveryRun` | video_codec/codec/src/framework/queue/packet_queue.cc:22-67 | over every interleaving: FIFO without loss except what kLatest overwrites; a parked consumer implies an empty open ring, a parked producer a full one; never both parked |
| `RingProtocol.NothingRefusedBeforeEos` | video_codec/codec/src/framework/queue/packet_queue.cc:24-36 | without the mark a kBlock or kLatest ring refuses nothing in any run |
| `RingProtocol.EveryOfferAccounted` | video_codec/codec/src/framework/queue/packet_queue.cc:22-41 | under kBlock and kLatest, in every run, the packets offered are those accepted, then those refused, then the one still inside Push, in order |
| `RingProtocol.EveryOfferCounted` | video_codec/codec/src/framework/queue/packet_queue.cc:22-41 | under every policy the numbers agree |
| `RingProtocol.InAndOut` | video_codec/codec/src/framework/queue/packet_queue.cc:22-60 | up to capacity packets pushed onto a new ring and popped again come out as they went in, under every policy |
| `RingProtocol.PopThenAccepted` | video_codec/codec/src/framework/queue/packet_queue.cc:32-40 | a producer parked on an open ring gets in with the next pop |
| `RingProtocol.SpuriousWakeParksAgain` | video_codec/codec/src/framework/queue/packet_queue.cc:32-32 | woken for nothing it parks again |
| `RingProtocol.WaitEnds` | video_codec/codec/src/framework/queue/packet_queue.cc:46-59 | a waiting consumer gets the next packet, and returns without one at the mark or the deadline |
| `RingProtocol.NothingAcceptedAfterEos` | video_codec/codec/src/framework/queue/packet_queue.cc:24-33 | after MarkEos no continuation accepts a packet |
| `RingProtocol.EosDoesNotReleaseProducer` | video_codec/codec/src/framework/queue/packet_queue.cc:63-67 | MarkEos signals only `not_empty_`: a producer parked on a full ring stays parked through every run in which nothing is popped |
| `RingProtocol.CaughtProducerIsRefused` | video_codec/codec/src/framework/queue/packet_queue.cc:31-34 | whatever follows, a producer caught by the mark either is still inside Push or its packet was the next one refused |
| `RingProtocol.PopThenRefused` | video_codec/codec/src/framework/queue/packet_queue.cc:54-58 | one pop releases such a producer and its packet is refused |
| `RingProtocol.EosOnlyDrains` | video_codec/codec/src/framework/queue/packet_queue.cc:22-67 | after the mark every run only moves packets from the front of the ring to the consumer |
| `PacketQueue.Sink.Finish` | video_codec/codec/src/framework/queue/packet_queue.cc:109-166 | what the loop may rely on: Finish is counted and answers as it likes |
| `PacketQueue.PacketQueue.constructor` | video_codec/codec/src/framework/queue/packet_queue.cc:126-127 | two fresh rings with the same capacity and policy |
| `PacketQueue.PacketQueue.MarkEos` | video_codec/codec/src/framework/queue/packet_queue.cc:169-171 | both rings are closed and otherwise unchanged |
| `PacketQueue.PacketQueue.Pull` | video_codec/codec/src/framework/queue/packet_queue.cc:143-149 | a pull takes the front packet, or tells end of stream from emptiness |
| `PacketQueue.PacketQueue.DeliverVideo` | video_codec/codec/src/framework/queue/packet_queue.cc:106-112 | one packet is handed over; a refusal is followed by one Finish |
| `PacketQueue.PacketQueue.DeliverAudio` | video_codec/codec/src/framework/queue/packet_queue.cc:106-112 | the same for audio |
| `PacketQueue.PacketQueue.DrainVideo` | video_codec/codec/src/framework/queue/packet_queue.cc:101-122 | the oldest packet, if there is one, goes to the sink, and no other; done exactly at the end of the stream; after the mark a pass always makes progress; a refusal is followed by one Finish |
| `PacketQueue.PacketQueue.DrainAudio` | video_codec/codec/src/framework/queue/packet_queue.cc:101-122 | the oldest packet, if there is one, goes to the sink, and no other; done exactly at the end of the stream; after the mark a pass always makes progress; a refusal is followed by one Finish |
| `PacketQueue.PacketQueue.Round` | video_codec/codec/src/framework/queue/packet_queue.cc:160-163 | one pass keeps delivery exact and, after the mark, strictly decreases what remains |
| `PacketQueue.PacketQueue.Await` | video_codec/codec/src/framework/queue/packet_queue.cc:151-167 | terminates once the end of stream comes; per media the sink got exactly what was popped, in order; Finish is called exactly once on every path; it fails exactly when the last push was refused, and otherwise everything was drained |
| `PacketQueue.AllDelivered` | video_codec/codec/src/framework/queue/packet_queue.cc:151-167 | a drained lossless ring has handed over every accepted packet |
| `AnnexB.EveryInputParses` | video_codec/codec/src/framework/backend/android/mediacodec_utils.cc:105-123 | every byte string is a stream of the byte-stream grammar: leading bytes, then start codes each followed by a body without 00 00 01 |
| `AnnexB.SplitReadsGrammar` | video_codec/codec/src/framework/backend/android/mediacodec_utils.cc:105-123 | splitting any stream of the grammar returns its non-empty bodies in order |
| `AnnexB.SplitIsTheParse` | video_codec/codec/src/framework/backend/android/mediacodec_utils.cc:105-123 | a list is the result of splitting if and only if it is the list of bodies of a parse |
| `AnnexB.SplitYieldsUnits` | video_codec/codec/src/framework/backend/android/mediacodec_utils.cc:117-120 | every emitted unit is non-empty and free of 00 00 01 |
| `AnnexB.SplitUndoesJoin` | video_codec/codec/src/framework/backend/android/mediacodec_utils.cc:88-123 | splitting the 4-byte-start-code join returns the list if and only if its members are non-empty and free of 00 00 01 |
| `AnnexB.SplitIsStable` | video_codec/codec/src/framework/backend/android/mediacodec_utils.cc:88-123 | split(join(split(x))) = split(x) for every byte string |
| `AnnexB.SplitPrepended` | video_codec/codec/src/framework/backend/android/mediacodec_utils.cc:88-123 | units put in front with long start codes come out whole, whatever follows |
| `AnnexB.SkipToCode` | video_codec/codec/src/framework/backend/android/mediacodec_utils.cc:118-118 | the inner loop stops at the next start code |
| `AnnexB.SplitAnnexB` | video_codec/codec/src/framework/backend/android/mediacodec_utils.cc:105-123 | the scanning loop computes `Split`; it returns false exactly when there is no unit |
| `Avcc.NalTypeIsLowFiveBits` | video_codec/codec/src/framework/backend/ffmpeg/ffmpeg_muxer.cc:26-26 | the mask 0x1F is the remainder modulo 32 |
| `Avcc.ReadPrefix` | video_codec/codec/src/framework/backend/ffmpeg/ffmpeg_muxer.cc:41-47 | a length read back from its field is the length modulo 2^32 or 2^16 |
| `Avcc.SamplesRoundTrip` | video_codec/codec/src/framework/backend/ffmpeg/ffmpeg_muxer.cc:41-47 | reading length-prefixed samples returns the units if and only if every length is below 2^32 |
| `Avcc.AppendLenPrefixed` | video_codec/codec/src/framework/backend/ffmpeg/ffmpeg_muxer.cc:41-47 | appends exactly one sample |
| `Avcc.AnnexBToAvcc` | video_codec/codec/src/framework/backend/ffmpeg/ffmpeg_muxer.cc:177-197 | the output is the samples of the units of the input without types 7 and 8, in order; it fails exactly when there are none |
| `Avcc.SlicesAreKept` | video_codec/codec/src/framework/backend/ffmpeg/ffmpeg_muxer.cc:190-195 | for every list of units: the sample consists of exactly the units whose low five header bits are neither 7 nor 8, in order and each as often as it occurs |
| `Avcc.ConversionSucceedsIff` | video_codec/codec/src/framework/backend/ffmpeg/ffmpeg_muxer.cc:196-196 | there is something to convert if and only if some unit is of neither type |
| `Avcc.ConversionPreservesUnits` | video_codec/codec/src/framework/backend/ffmpeg/ffmpeg_muxer.cc:177-197 | an independent section 5.2.3 reader gets back exactly the units of the byte stream at the places of types other than 7 and 8, if each fits its length field and only then; every input below 4 GiB does |
| `AvcRecord.FirstOfIsFirst` | video_codec/codec/src/framework/backend/ffmpeg/ffmpeg_muxer.cc:139-156 | what is found qualifies, nothing before it does, and nothing is found only if nothing qualifies |
| `AvcRecord.FindParameterSets` | video_codec/codec/src/framework/backend/ffmpeg/ffmpeg_muxer.cc:139-156 | the early-exit scan finds the first type-7 and type-8 units of at least 4 bytes of a full split |
| `AvcRecord.BuildExtradata` | video_codec/codec/src/framework/backend/ffmpeg/ffmpeg_muxer.cc:134-175 | succeeds exactly when both parameter sets exist, and emits their record |
| `AvcRecord.RecordRoundTrip` | video_codec/codec/src/framework/backend/ffmpeg/ffmpeg_muxer.cc:159-174 | a reader after section 5.2.4.1 returns exactly the profile bytes and both sets if and only if both are shorter than 65536 bytes |
| `AvcRecord.BackendsAgree` | video_codec/codec/src/framework/backend/android/mediacodec_muxer.cc:56-61 | the FFmpeg and Android muxers choose the same parameter set if and only if the first one of its type is absent or has at least 4 bytes |
| `AvcRecord.ShortPpsIsMissed` | video_codec/codec/src/framework/backend/ffmpeg/ffmpeg_muxer.cc:151-155 | a stream with a complete 3-byte PPS in which FFmpeg's scan finds no PPS |
| `KeyframeAssembly.AssembledUnits` | video_codec/codec/src/framework/backend/android/mediacodec_video.cc:293-313 | for every keyframe payload: the emitted packet splits into the captured sets, the bytes ahead of the payload's first start code, and the payload's units |
| `KeyframeAssembly.AssemblyKeepsUnits` | video_codec/codec/src/framework/backend/android/mediacodec_video.cc:293-313 | nothing is lost, merged or added beyond [SPS, PPS] if and only if the payload is empty or opens with a start code |
| `KeyframeAssembly.StartsWithNalIff` | video_codec/codec/src/framework/backend/android/mediacodec_utils.cc:125-133 | a payload starts with a NAL unit of a type if and only if it is a start code of 3 or 4 bytes followed by a header byte of that type |
| `KeyframeAssembly.SplitOfStripped` | video_codec/codec/src/framework/backend/android/mediacodec_muxer.cc:163-175 | replacing a leading start code by another one keeps the units |
| `KeyframeAssembly.VideoEncoder.CaptureConfig` | video_codec/codec/src/framework/backend/android/mediacodec_video.cc:282-291 | the first two units of a codec-config buffer are remembered, and are free of 00 00 01 |
| `KeyframeAssembly.VideoEncoder.Emit` | video_codec/codec/src/framework/backend/android/mediacodec_video.cc:293-313 | payloads pass unchanged unless they are keyframes without an SPS in front, whose units then follow the captured sets |
| `PlanePacking.CoversMeansLastRowFits` | video_codec/codec/src/framework/backend/android/mediacodec_video.cc:136-157 | a plane is large enough for the row loop exactly when its last row ends inside it |
| `PlanePacking.PixelAt` | video_codec/codec/src/framework/backend/android/mediacodec_video.cc:136-157 | unpacking: byte y * width + x of the packed rows is pixel (x, y) of the strided plane |
| `PlanePacking.PackedFillsBufferIff` | video_codec/codec/src/framework/backend/android/mediacodec_utils.cc:71-86 | the planes tile exactly the bytes that BufferSizeFor asks for if and only if both dimensions are even |
| `PlanePacking.BufferSizeIs` | video_codec/codec/src/framework/backend/android/mediacodec_utils.cc:71-86 | one and a half bytes a pixel for even positive dimensions, else 0 |
| `PlanePacking.UnpackI420` | video_codec/codec/src/framework/backend/android/mediacodec_video.cc:131-149 | every luma, U and V byte of a frame stands at its place in the flat buffer, whatever the strides |
| `PlanePacking.UnpackNV12` | video_codec/codec/src/framework/backend/android/mediacodec_video.cc:131-157 | and every luma and interleaved chroma byte |
| `PlanePacking.CopyRows` | video_codec/codec/src/framework/backend/android/mediacodec_video.cc:136-139 | the row loop writes one plane and nothing around it |
| `PlanePacking.CopyChroma` | video_codec/codec/src/framework/backend/android/mediacodec_video.cc:144-149 | the interleaved U and V loops write both planes and nothing around them |
| `PlanePacking.Fill` | video_codec/codec/src/framework/backend/android/mediacodec_video.cc:131-157 | the buffer is the packed frame followed by what was behind it |
| `PlanePacking.QueueInput` | video_codec/codec/src/framework/backend/android/mediacodec_video.cc:113-165 | every outcome, for all dimensions: size mismatch, no slot, small buffer, refusal, or the packed frame in the buffer, handed over whole if and only if the dimensions are even |
| `PlanePacking.VPlaneNeedsStrideOfU` | video_codec/codec/src/framework/backend/android/mediacodec_video.cc:141-149 | V rows come out as laid out, whatever they contain, if and only if V has the stride of U or a single row: the third stride is ignored |
| `AudioPace.OneMoreFits` | video_codec/codec/src/framework/utils/smpte_bars.h:112-112 | the overshoot test is the comparison with the closed form |
| `AudioPace.DueIsMonotone` | video_codec/codec/src/framework/utils/smpte_bars.h:110-112 | later video frames never have fewer audio frames due |
| `AudioPace.AudioPace.NextAudioFrame` | video_codec/codec/src/framework/utils/smpte_bars.h:109-117 | a frame is handed out exactly while it ends within the video shown, that is while fewer than the closed form were |
| `AudioPace.AudioPace.DrainThrough` | video_codec/codec/src/framework/utils/smpte_bars.h:99-117 | draining through video frame i leaves floor(floor((i+1)*rate/fps)/size) frames |
| `AudioPace.AudioPace.Pace` | video_codec/codec/src/framework/utils/smpte_bars.h:99-117 | over a clip the indices are 0, 1, 2, ...; in exact time the audio made is within the video shown and lags it by less than one frame, so it never drifts |
| `AndroidMuxer.RunOrderly` | video_codec/codec/src/framework/backend/android/mediacodec_muxer.cc:104-201 | over every run of pushes, failing ones included: written then pending = accepted in order unless a replay broke off; started implies nothing pending and every track added |
| `AndroidMuxer.WritesWhatWasWanted` | video_codec/codec/src/framework/backend/android/mediacodec_muxer.cc:98-201 | while every push returns kOk: written then pending = all audio and all video from the first keyframe on, in order; started if and only if a keyframe and, when configured, audio has come |
| `AndroidMuxer.VideoStartsAtKeyframe` | video_codec/codec/src/framework/backend/android/mediacodec_muxer.cc:155-161 | among the samples asked for the first of video is a keyframe |
| `AndroidMuxer.FileStartsAtKeyframe` | video_codec/codec/src/framework/backend/android/mediacodec_muxer.cc:155-161 | so the first video sample written or pending is a keyframe |
| `AndroidMuxer.TracksAreFixed` | video_codec/codec/src/framework/backend/android/mediacodec_muxer.cc:98-102 | no track is added after the start |
| `AndroidMuxer.SamplesArePackets` | video_codec/codec/src/framework/backend/android/mediacodec_muxer.cc:163-200 | a sample is its packet: same time, same mark, same units or bytes |
| `AndroidMuxer.VideoPushIff` | video_codec/codec/src/framework/backend/android/mediacodec_muxer.cc:149-178 | a video push of something returns kOk if and only if the sink and the muxer are there and it is skipped, or its track is there or can be added and its sample is taken or put aside; kInvalidArgument if and only if sink or configuration is missing |
| `AndroidMuxer.AudioPushIff` | video_codec/codec/src/framework/backend/android/mediacodec_muxer.cc:180-201 | the same for audio, with kUnsupportedOperation exactly for other codecs |
| `AndroidMuxer.StartedPushIff` | video_codec/codec/src/framework/backend/android/mediacodec_muxer.cc:133-146 | once started, a push returns kOk exactly when the platform takes the sample, and exactly then the file grows by it |
| `AndroidMuxer.HelpedRunWrites` | video_codec/codec/src/framework/backend/android/mediacodec_muxer.cc:98-201 | with a valid configuration, a platform that does its part and a first keyframe with its parameter sets, every run succeeds throughout and writes what was asked for |
| `AndroidMuxer.StartedHasMuxer` | video_codec/codec/src/framework/backend/android/mediacodec_muxer.cc:104-107 | in every run a started muxer has its platform muxer |
| `AndroidMuxer.TrackIff` | video_codec/codec/src/framework/backend/android/mediacodec_muxer.cc:51-63 | when the video track is added, under the platform's number; known parameter sets are kept |
| `AndroidMuxer.WantedOneMore` | video_codec/codec/src/framework/backend/android/mediacodec_muxer.cc:149-201 | what pushes ask for, read push by push |
| `AndroidMuxer.FinishIff` | video_codec/codec/src/framework/backend/android/mediacodec_muxer.cc:205-258 | the first Finish returns kOk if and only if the muxer had started and stopping and copying went well; later ones do nothing |
| `AndroidMuxer.LostIff` | video_codec/codec/src/framework/backend/android/mediacodec_muxer.cc:104-119 | samples are lost if and only if a replayed one is refused, and that push fails |
| `AndroidMuxer.OpusWritesNothing` | video_codec/codec/src/framework/backend/android/mediacodec_muxer.cc:98-102 | configured for Opus the muxer waits for a track whose packets it refuses: nothing is ever written and Finish fails |
| `AndroidMuxer.CanBeStartedIff` | video_codec/codec/src/framework/backend/android/mediacodec_muxer.cc:35-119 | some run of succeeding pushes starts the muxer if and only if the configuration is valid and its audio is not Opus |
| `AndroidMuxer.MediaCodecMuxer.CaptureVideoCsd` | video_codec/codec/src/framework/backend/android/mediacodec_muxer.cc:51-63 | the first parameter sets are kept over keyframes; fails unless the packet has a unit and both are known |
| `AndroidMuxer.MediaCodecMuxer.EnsureMuxer` | video_codec/codec/src/framework/backend/android/mediacodec_muxer.cc:35-49 | created once, or the error that prevented it |
| `AndroidMuxer.MediaCodecMuxer.Start` | video_codec/codec/src/framework/backend/android/mediacodec_muxer.cc:104-119 | the replay loop writes the pending samples in order, or the prefix before the first refusal, and drops the rest |
| `AndroidMuxer.MediaCodecMuxer.WriteSample` | video_codec/codec/src/framework/backend/android/mediacodec_muxer.cc:121-147 | pending before the start, written after it, starting when it can |
| `AndroidMuxer.MediaCodecMuxer.PushVideo` | video_codec/codec/src/framework/backend/android/mediacodec_muxer.cc:149-178 | the whole new state and status of a video push |
| `AndroidMuxer.MediaCodecMuxer.PushAudio` | video_codec/codec/src/framework/backend/android/mediacodec_muxer.cc:180-201 | the whole new state and status of an audio push |
| `AndroidMuxer.MediaCodecMuxer.Finish` | video_codec/codec/src/framework/backend/android/mediacodec_muxer.cc:205-258 | fails if nothing was started; a second call does nothing |
| `FFmpegMuxer.WritesWhatWasWanted` | video_codec/codec/src/framework/backend/ffmpeg/ffmpeg_muxer.cc:306-422 | while every call returns kOk: written then waiting audio = all audio and all video from the first keyframe on, in order of pushing, less the audio a Flush before that keyframe takes back |
| `FFmpegMuxer.RunOrderly` | video_codec/codec/src/framework/backend/ffmpeg/ffmpeg_muxer.cc:306-422 | over every run, failing calls and flushes included, as long as no replay broke off: written then waiting audio = the samples taken, in order |
| `FFmpegMuxer.SampleMeansPacket` | video_codec/codec/src/framework/backend/ffmpeg/ffmpeg_muxer.cc:323-343 | a length-prefix reader of a written video sample finds exactly the packet's units of types other than 7 and 8; time and keyframe mark are the packet's; audio is unchanged |
| `FFmpegMuxer.StuckIff` | video_codec/codec/src/framework/backend/ffmpeg/ffmpeg_muxer.cc:315-320 | a replay breaks off if and only if the push that opens the container has a waiting packet refused |
| `FFmpegMuxer.BrokenReplay` | video_codec/codec/src/framework/backend/ffmpeg/ffmpeg_muxer.cc:315-320 | a replay that breaks off leaves the packets ahead of the refused one written, all of them waiting, and the keyframe unwritten |
| `FFmpegMuxer.StuckAudioStays` | video_codec/codec/src/framework/backend/ffmpeg/ffmpeg_muxer.cc:315-391 | from then on exactly the samples of later taken pushes are added; what waits is never written |
| `FFmpegMuxer.OpensWithoutParameterSets` | video_codec/codec/src/framework/backend/ffmpeg/ffmpeg_muxer.cc:220-232 | the first keyframe opens the container in any case, with an avcC if and only if both parameter sets of at least 4 bytes exist |
| `FFmpegMuxer.AudioPushIff` | video_codec/codec/src/framework/backend/ffmpeg/ffmpeg_muxer.cc:378-415 | every outcome of an audio push: waiting before the opening, written after it |
| `FFmpegMuxer.VideoPushIff` | video_codec/codec/src/framework/backend/ffmpeg/ffmpeg_muxer.cc:306-361 | when a video push succeeds, and when it opens the container |
| `FFmpegMuxer.HelpedRunWrites` | video_codec/codec/src/framework/backend/ffmpeg/ffmpeg_muxer.cc:306-422 | with libraries that do their part every run succeeds throughout and writes what was asked for |
| `FFmpegMuxer.WantedOneMore` | video_codec/codec/src/framework/backend/ffmpeg/ffmpeg_muxer.cc:306-422 | what a run asks for, read call by call |
| `FFmpegMuxer.Muxer.OpenMuxer` | video_codec/codec/src/framework/backend/ffmpeg/ffmpeg_muxer.cc:199-304 | opened with the avcC of the keyframe if it has one, or unchanged |
| `FFmpegMuxer.Muxer.Replay` | video_codec/codec/src/framework/backend/ffmpeg/ffmpeg_muxer.cc:315-320 | the waiting audio is written in order; a refusal keeps the list |
| `FFmpegMuxer.Muxer.WriteAudioPacket` | video_codec/codec/src/framework/backend/ffmpeg/ffmpeg_muxer.cc:393-415 | one packet is written or the call fails |
| `FFmpegMuxer.Muxer.WriteVideo` | video_codec/codec/src/framework/backend/ffmpeg/ffmpeg_muxer.cc:323-360 | the sample is the conversion of the packet; it is written even when the commit then fails |
| `FFmpegMuxer.Muxer.PushVideo` | video_codec/codec/src/framework/backend/ffmpeg/ffmpeg_muxer.cc:306-361 | the whole new state and status of a video push |
| `FFmpegMuxer.Muxer.PushAudio` | video_codec/codec/src/framework/backend/ffmpeg/ffmpeg_muxer.cc:378-391 | the whole new state and status of an audio push |
| `FFmpegMuxer.Muxer.Flush` | video_codec/codec/src/framework/backend/ffmpeg/ffmpeg_muxer.cc:417-422 | the waiting audio is dropped |
| `Abr.UpdateKeepsBounds` | video_codec/stream/src/core/abr_controller.cc:18-35 | one report keeps the rate in bounds and moves it the right way by at least the stated amount |
| `Abr.UpdateIsExact` | video_codec/stream/src/core/abr_controller.cc:18-34 | within bounds the new rate exactly: heavy loss takes half but at least 100, moderate loss a quarter but at least 50, the fifth good report adds an eighth but at least 50, clamped |
| `Abr.ModerateLossReachesMin` | video_codec/stream/src/core/abr_controller.cc:23-26 | loss above 2% for (rate - min)/50 reports reaches the minimum |
| `Abr.RunKeepsBounds` | video_codec/stream/src/core/abr_controller.cc:9-40 | every sequence of reports keeps min <= rate <= max when nothing can wrap |
| `Abr.BoundsKeptIff` | video_codec/stream/src/core/abr_controller.cc:20-31 | the bounds are kept for every rate and report if and only if 100 <= min and max + max/8 fits in 32 bits, or the bounds are 0 and 2^32 - 1 |
| `Abr.RisesAreRare` | video_codec/stream/src/core/abr_controller.cc:28-33 | at most one rise per five reports |
| `Abr.SustainedLossReachesMin` | video_codec/stream/src/core/abr_controller.cc:19-22 | loss above 5% for (rate - min)/100 reports reaches the minimum |
| `Abr.SustainedGoodReachesMax` | video_codec/stream/src/core/abr_controller.cc:28-33 | good reports reach the maximum within 5 * ceil((max - rate)/50) |
| `Abr.AbrController.constructor` | video_codec/stream/src/core/abr_controller.cc:9-16 | the initial rate is clamped |
| `Abr.AbrController.Report` | video_codec/stream/src/core/abr_controller.cc:18-35 | the branches compute `Update` |
| `Abr.AbrController.Reset` | video_codec/stream/src/core/abr_controller.cc:37-40 | back to the maximum, within bounds |
| `Reconnect.CapFits` | video_codec/stream/src/core/reconnect_handler.cc:41-41 | the cap survives its conversion to milliseconds if and only if it is at most 4294967 s |
| `Reconnect.ShiftedBackoff` | video_codec/stream/src/core/reconnect_handler.cc:44-45 | the 64-bit shift is exact up to attempt 54, above every cap up to 60, and 0 from 61 on |
| `Reconnect.IntervalUpTo60` | video_codec/stream/src/core/reconnect_handler.cc:40-48 | up to attempt 60 the interval is min(2^attempt, cap) seconds |
| `Reconnect.Collapse` | video_codec/stream/src/core/reconnect_handler.cc:44-46 | from the 62nd retry on the interval is 0 and every tick fires |
| `Reconnect.IntervalIff` | video_codec/stream/src/core/reconnect_handler.cc:40-48 | the interval is the capped power of two if and only if the attempt is at most 60 or the cap is 0 |
| `Reconnect.RetrySchedule` | video_codec/stream/src/core/reconnect_handler.cc:26-48 | for k <= 61 the k-th retry fires at tick sum over i < k of max(1, min(2^i, M)), and no other tick fires |
| `Reconnect.UncappedSchedule` | video_codec/stream/src/core/reconnect_handler.cc:26-48 | below the cap that is tick 2^k - 1 |
| `Reconnect.CappedGap` | video_codec/stream/src/core/reconnect_handler.cc:46-46 | from the cap on a retry comes every M ticks |
| `Reconnect.ReconnectHandler.OnDisconnected` | video_codec/stream/src/core/reconnect_handler.cc:13-18 | a new session from attempt 0 |
| `Reconnect.ReconnectHandler.OnConnected` | video_codec/stream/src/core/reconnect_handler.cc:20-24 | the session ends |
| `Reconnect.ReconnectHandler.Advance` | video_codec/stream/src/core/reconnect_handler.cc:26-38 | one tick, in 32-bit arithmetic |
| `Reconnect.ReconnectHandler.NextInterval` | video_codec/stream/src/core/reconnect_handler.cc:40-48 | the interval, in 64-bit arithmetic |
| `Reconnect.ReconnectWorker.RunReconnectWorker` | video_codec/stream/src/core/stream_impl.cc:334-348 | the worker loop, armed by others between its waits, is the run `Lived` of which the next four rows speak |
| `Reconnect.Reachable` | video_codec/stream/src/core/stream_impl.cc:334-348 | over every run from a new worker: no session overstays its gap, and an unarmed worker has none |
| `Reconnect.ReconnectWorker.AttemptReconnect` | video_codec/stream/src/core/stream_impl.cc:309-332 | a success ends the session and disarms; a failure only counts |
| `Reconnect.ConnectsKeepComing` | video_codec/stream/src/core/stream_impl.cc:334-348 | in every run, while armed and not stopped, any max(1, M) wake-ups contain a Connect, whatever the outcomes |
| `Reconnect.SuccessQuiets` | video_codec/stream/src/core/stream_impl.cc:309-321 | a success disarms the worker and ends the session |
| `Reconnect.QuietUntilArmed` | video_codec/stream/src/core/stream_impl.cc:342-342 | in every run a disarmed worker makes no Connect until it is armed |
| `Reconnect.StopEndsTheLoop` | video_codec/stream/src/core/stream_impl.cc:336-341 | whatever would follow a wake-up that finds the stop flag, the worker does nothing more |
| `Reconnect.OutageRestartsSchedule` | video_codec/stream/src/core/stream_impl.cc:342-346 | in every run each new outage starts the schedule from attempt 0: the k-th Connect comes at wake-up FireTick(k) from there |
| `StreamLifecycle.StepKeepsInv` | video_codec/stream/src/core/stream_impl.cc:34-152 | every step of user, backend and worker keeps the invariants |
| `StreamLifecycle.EveryRun` | video_codec/stream/src/core/stream_impl.cc:34-152 | over every run the body of Init runs at most once, so there is one worker; Start connects at most once; a completed teardown leaves no worker |
| `StreamLifecycle.TornDownIsFinal` | video_codec/stream/src/core/stream_impl.cc:120-152 | after Release, or a Stop that took the teardown path, nothing ever connects again, and kDestroyed after Release is absorbing |
| `StreamLifecycle.WorkerWindsDown` | video_codec/stream/src/core/stream_impl.cc:293-348 | told to stop, the worker nears its exit with each step; it starts another attempt exactly if it was past its look at the flag, still armed, and due |
| `StreamLifecycle.AtMostOneMore` | video_codec/stream/src/core/stream_impl.cc:293-348 | after the stop flag is set no run starts more than one further attempt, and none unless the worker was between its look at the flag and the tick |
| `StreamLifecycle.JoinsLetPass` | video_codec/stream/src/core/stream_impl.cc:120-152 | once the worker is gone every teardown, a Stop inside Release included, completes within nine steps and has torn down or released |
| `StreamLifecycle.StopTearsDownIffActive` | video_codec/stream/src/core/stream_impl.cc:120-127 | Stop tears down if and only if the published state is kStreaming or kReconnecting; else the call changes nothing |
| `StreamLifecycle.CallsGoAheadIff` | video_codec/stream/src/core/stream_impl.cc:76-151 | Start goes ahead exactly from kConfigured; a Release first stops exactly what is streaming or reconnecting |
| `StreamLifecycle.WorkerConnectsIff` | video_codec/stream/src/core/stream_impl.cc:309-347 | the worker connects if and only if it is past its look at the stop flag, armed, with handler and backend, and a retry is due |
| `StreamLifecycle.ReportMeans` | video_codec/stream/src/core/stream_impl.cc:258-283 | what a report makes public, for every state reported |
| `StreamLifecycle.NobodySeesTheMiddle` | video_codec/stream/src/core/stream_impl.cc:262-280 | while a report holds the lock nobody sees or changes the published state |
| `StreamLifecycle.StopCanBeIgnored` | video_codec/stream/src/core/stream_impl.cc:120-127 | a reachable state in which Stop returns and the worker makes its next Connect all the same |
| `StreamLifecycle.DropArmsIff` | video_codec/stream/src/core/stream_impl.cc:258-280 | a reported drop arms the worker if and only if the stream was active, has a handler and is not stopping |
| `StreamLifecycle.DisarmedIff` | video_codec/stream/src/core/stream_impl.cc:293-321 | an armed worker is disarmed by exactly the clearing store after a success and the second store of a stop |
| `StreamLifecycle.ArmedUntilSettled` | video_codec/stream/src/core/stream_impl.cc:258-321 | through every run a drop is pursued until a Connect succeeds or the user stops |
| `StreamLifecycle.DropForgottenIff` | video_codec/stream/src/core/stream_impl.cc:258-321 | for every position of the user thread and the worker, every published state, every outcome of the Connects under way and either order of finishing: a drop of a stream that is not stopping ends up pursued by nobody if and only if the worker still clears its flag after a success and Start does not set it later, or the state is not active, the flag not set and Start does not set it |
| `StreamLifecycle.DropForgottenByWorker` | video_codec/stream/src/core/stream_impl.cc:309-322 | with the user thread idle: if and only if it is reported during a retry that succeeds or before the clearing store after it, or the state is not active and the worker not armed |
| `StreamLifecycle.ArmingForgottenIff` | video_codec/stream/src/core/stream_impl.cc:271-321 | if other steps come inside the report, it is the exchange on the armed flag that is undone by a later clearing store and redone by a later arming in Start |
| `StreamLifecycle.DropForgottenInStart` | video_codec/stream/src/core/stream_impl.cc:96-117 | from the call of Connect in Start on: a drop is forgotten, and kStreaming published, if and only if Connect succeeds, the state is not active and the worker not armed |
| `StreamLifecycle.DropCanBeForgotten` | video_codec/stream/src/core/stream_impl.cc:311-321 | the window before the clearing store is reachable: the stream ends as kStreaming with nobody retrying |
| `StreamLifecycle.DropCanBeForgottenLater` | video_codec/stream/src/core/stream_impl.cc:315-321 | so is the one after it, with kIceConnected published by the retry |
| `StreamLifecycle.DropDuringRetryForgotten` | video_codec/stream/src/core/stream_impl.cc:309-321 | so is the time before the Connect of a retry returns kOk |
| `StreamLifecycle.DropDuringStartForgotten` | video_codec/stream/src/core/stream_impl.cc:96-117 | and the time before the first Connect does |
| `StreamLifecycle.DropBeforeFirstFrame` | video_codec/stream/src/core/stream_impl.cc:264-277 | and a connected stream that shows kIceConnected loses a drop without any window |
| `StreamLifecycle.InitInVainIff` | video_codec/stream/src/core/stream_impl.cc:34-74 | Init answers kOk and leaves no backend if and only if the stream is past kCreated without one, which is so exactly after a Release or after an Init that failed |
| `StreamLifecycle.InitNeverRefuses` | video_codec/stream/src/core/stream_impl.cc:37-42 | the kUnsupportedOperation of a destroyed stream is never returned |
| `StreamLifecycle.InVainReached` | video_codec/stream/src/core/stream_impl.cc:34-58 | both ways into it are reached |
| `StreamLifecycle.FailedInitIsFinal` | video_codec/stream/src/core/stream_impl.cc:34-58 | after an Init that failed no continuation creates a backend, and every later Init returns kOk |
| `StreamLifecycle.FailedInitLeads` | video_codec/stream/src/core/stream_impl.cc:44-58 | a failed first Init leads there |
| `StreamSend.PressureCountsFailures` | video_codec/stream/src/core/stream_impl.cc:164-215 | over every run, reports included, the back-pressure count is the number of failed sends since the last success modulo 2^32 |
| `StreamSend.AudioDroppedIff` | video_codec/stream/src/core/stream_impl.cc:197-200 | audio of a streaming session is dropped unsent, with kOk, if and only if at least 100 sends in a row failed |
| `StreamSend.AudioStarves` | video_codec/stream/src/core/stream_impl.cc:185-215 | from then on no audio reaches the backend in any run without a successful video send |
| `StreamSend.EveryFrameAccounted` | video_codec/stream/src/core/stream_impl.cc:154-216 | between reports sent + dropped grows by one per send that passes the gates, sent by one per success |
| `StreamSend.ReportRestartsCounts` | video_codec/stream/src/core/stream_impl.cc:258-266 | a report during a send replaces both totals, and the frame is counted on top |
| `StreamSend.ReportReplaces` | video_codec/stream/src/core/stream_impl.cc:258-280 | a report replaces the totals and the state, and nothing else |
| `StreamSend.BitrateFollowsLosses` | video_codec/stream/src/core/stream_impl.cc:176-180 | over every run between connects the controller is told exactly the losses of the video sends that pass the gate and end in kStreaming, in order |
| `StreamSend.ConnectRestartsBitrate` | video_codec/stream/src/core/stream_impl.cc:111-116 | a connect starts the bitrate over from the maximum |
| `StreamSend.SessionReachesMin` | video_codec/stream/src/core/stream_impl.cc:164-180 | that many video sends under heavy loss bring a streaming session to the minimum |
| `StreamSend.SessionReachesMax` | video_codec/stream/src/core/stream_impl.cc:164-180 | and under little loss to the maximum |
| `StreamSend.BitrateStaysInBounds` | video_codec/stream/src/core/stream_impl.cc:111-180 | the bitrate stays in bounds through every session, the resets after a connect included |
| `StreamSend.StreamSession.SendVideo` | video_codec/stream/src/core/stream_impl.cc:154-183 | status, counters, state and bitrate of a video send, whatever the backend reports meanwhile |
| `StreamSend.StreamSession.SendAudio` | video_codec/stream/src/core/stream_impl.cc:185-216 | new state and status of an audio send |
| `StreamSend.StreamSession.OnBackendStatusChange` | video_codec/stream/src/core/stream_impl.cc:258-280 | the backend's status replaces the session's, except that a guarded drop of an active stream shows as kReconnecting |
| `StreamSend.StreamSession.UpdateStatus` | video_codec/stream/src/core/stream_impl.cc:246-256 | only the state changes |
| `StreamSend.StreamSession.OnConnect` | video_codec/stream/src/core/stream_impl.cc:111-116 | a connect restarts the bitrate and publishes kStreaming |
| `WebrtcSession.StepKeepsInv` | video_codec/stream/src/backend/webrtc/webrtc_backend.cc:129-534 | every step of caller, callbacks, WHIP worker and sender keeps the invariants |
| `WebrtcSession.EveryRun` | video_codec/stream/src/backend/webrtc/webrtc_backend.cc:273-400 | over every run: one claim and one kStreaming report a session, one worker launch a generation, and a worker of an older generation exists only while its teardown runs |
| `WebrtcSession.TeardownLeavesNoWorker` | video_codec/stream/src/backend/webrtc/webrtc_backend.cc:327-353 | when TeardownConnection is over there is no worker |
| `WebrtcSession.LaunchNeedsClaim` | video_codec/stream/src/backend/webrtc/webrtc_backend.cc:283-297 | a worker is launched only for the claim of its own session, and only if there is none |
| `WebrtcSession.OutcomeStands` | video_codec/stream/src/backend/webrtc/webrtc_backend.cc:360-371 | the first outcome of a session stays the result through every continuation of it |
| `WebrtcSession.ConnectGoesByFirstOutcome` | video_codec/stream/src/backend/webrtc/webrtc_backend.cc:478-503 | the wait for the answer ends by the first outcome, and without one with kNetworkError exactly if the connection is terminal and with kTimeout exactly if the time is up |
| `WebrtcSession.ConnectGoesByConnection` | video_codec/stream/src/backend/webrtc/webrtc_backend.cc:505-526 | the wait for the connection ends well if and only if it is up, with kNetworkError if and only if it is terminal instead, with kTimeout if and only if neither and the time is up |
| `WebrtcSession.ConnectedMeansConnected` | video_codec/stream/src/backend/webrtc/webrtc_backend.cc:402-534 | in every run: Connect has returned kOk only if the first outcome of its session was an answer and PcConnected came in it, and only then can frames be sent |
| `WebrtcSession.ConnectReturns` | video_codec/stream/src/backend/webrtc/webrtc_backend.cc:484-533 | Connect returns what its wait ended with, and a failing one leaves everything closed and joined |
| `WebrtcSession.DisconnectCloses` | video_codec/stream/src/backend/webrtc/webrtc_backend.cc:664-681 | a Disconnect leaves a new generation, no worker, no connection and nothing to send on |
| `WebrtcSession.CallsBeginIff` | video_codec/stream/src/backend/webrtc/webrtc_backend.cc:402-425 | what begins when Connect or Disconnect is called |
| `WebrtcSession.StaleCallbackIsInert` | video_codec/stream/src/backend/webrtc/webrtc_backend.cc:129-238 | a callback of another generation does nothing |
| `WebrtcSession.CallbackSetsPath` | video_codec/stream/src/backend/webrtc/webrtc_backend.cc:137-238 | which callbacks bring connection and track up and down |
| `WebrtcSession.CallbackSetsRest` | video_codec/stream/src/backend/webrtc/webrtc_backend.cc:167-231 | which let the offer be claimed and which reports kStreaming |
| `WebrtcSession.LaunchIff` | video_codec/stream/src/backend/webrtc/webrtc_backend.cc:283-297 | a worker is launched if and only if the claimer is current and there is none |
| `WebrtcSession.ErrorReachesCaller` | video_codec/stream/src/backend/webrtc/webrtc_backend.cc:240-314 | an error of the exchange, or an answer that cannot be applied, makes Connect fail with kNetworkError if it is the first outcome |
| `WebrtcSession.SupersededWorkerIsInert` | video_codec/stream/src/backend/webrtc/webrtc_backend.cc:240-314 | a worker of an older generation that is not past its check changes nothing |
| `WebrtcSession.SenderGates` | video_codec/stream/src/backend/webrtc/webrtc_backend.cc:541-573 | a frame goes to the track exactly through both gates |
| `WebrtcSession.StreamingIsTruthfulIff` | video_codec/stream/src/backend/webrtc/webrtc_backend.cc:396-400 | when a session is registered: through all its continuations kStreaming comes only after Connect returned kOk, its own track opened and took a frame, if and only if no frame is recorded and the sender is idle or has only its report left |
| `WebrtcSession.StreamingIsDocumentedIff` | video_codec/stream/src/backend/webrtc/webrtc_backend.cc:396-400 | the same for the documented part alone, own track and own frame: a sender that passed the gate but has not taken the track is harmless too |
| `WebrtcSession.StaleFrameReportsStreaming` | video_codec/stream/src/backend/webrtc/webrtc_backend.cc:640-643 | the failing case is reachable: a session that is answered and connected reports kStreaming for its predecessor's frame |
| `WebrtcSession.Misleads` | video_codec/stream/src/backend/webrtc/webrtc_backend.cc:396-400 | in every failing case there is a continuation that reports wrongly, and if the offer is still to be claimed one whose answer is applied and connection up first |
| `WebrtcSession.ClaimBurnsIff` | video_codec/stream/src/backend/webrtc/webrtc_backend.cc:194-206 | a claim leaves nobody to send the offer if and only if the claimer is of an earlier session or finds no local description |
| `WebrtcSession.BurntClaimIsFatal` | video_codec/stream/src/backend/webrtc/webrtc_backend.cc:167-223 | after that no worker and no outcome come while Connect waits |
| `WebrtcSession.StaleCallbackBurnsOffer` | video_codec/stream/src/backend/webrtc/webrtc_backend.cc:167-181 | a reachable session whose offer was claimed by a callback of an earlier one |
| `WebrtcSession.Connection.ResetConnectState` | video_codec/stream/src/backend/webrtc/webrtc_backend.cc:373-388 | is the reset step of the protocol |
| `WebrtcSession.Connection.ClaimOfferSend` | video_codec/stream/src/backend/webrtc/webrtc_backend.cc:273-281 | is the claim step of the protocol: of all callers since the reset exactly the first succeeds |
| `WebrtcSession.Connection.Fail` | video_codec/stream/src/backend/webrtc/webrtc_backend.cc:360-371 | is the failing step of the protocol: the result is the first outcome |
| `WebrtcSession.Connection.TryMarkStreaming` | video_codec/stream/src/backend/webrtc/webrtc_backend.cc:396-400 | is the marking step of the protocol: one caller a session is let through, with track and frame |

## Left out

- Foreign code: FFmpeg, MediaCodec and AMediaMuxer, libdatachannel, HTTP, EGL and pixel and audio conversion are answers given as parameters; what a container or a peer does with the bytes is not modelled, nor interleaving inside the FFmpeg writer.
- Real time: a worker wake-up is one tick, and a timed wait may end at any moment.
- Threads: the user's calls come from one thread at a time, and Stop is not called from inside a status callback.
- PacketQueue.PacketQueue.Await: what producers do is a finite list of bursts, one before each lock region of the consumer, in which the end of each stream has to come; a push that finds a full kBlock ring has no effect there until it is offered again. Waiting and waking are in RingProtocol.
- PacketQueue.PacketQueue.Pull: a wait for a deadline ends as an immediate look at the ring.
- RingProtocol.EveryRun: one producer thread and one consumer thread a ring.
- PacketQueue::Push: the mapping of a refusal to a status. Under kError a push after the end of stream gives kBackendUnavailable, not the kInvalidArgument its comment mentions.
- Abr.AbrController.Report: loss is a real number, so NaN (treated as no loss by the code) and rounding are not there; the round-trip time is ignored by the code too.
- StreamSend.StreamSession.SendVideo: frames_sent and frames_dropped are unbounded, not 64-bit, and error texts are left out.
- StreamSend.StreamSession.SendAudio: requires a backend while streaming, which StreamLifecycle's ReportStep and Release keep.
- StreamLifecycle.EveryRun: the tick inside the worker decides freely whether a retry is due; when it is due is in Reconnect. The configuration is either valid or not, and UpdateConfig and the user's status callback are left out.
- WebrtcSession.EveryRun: a peer-connection callback is one step from its generation check to its last store, except that the claim and the sending of the offer are steps of their own; TryMarkStreaming is one step. A stale callback that passed its check may otherwise still set flags of the next session.
- WebrtcSession.StepKeepsInv: Connect and Disconnect do not overlap, which the stream session ensures by joining its worker first.
- WebrtcBackend: its statistics, timestamps, sender reports, logging and session deletion are left out.
- AndroidMuxer.WritesWhatWasWanted: pushes after Finish are outside the run, and the copies kept for the asynchronous writer are not modelled.
- AndroidMuxer.VideoStartsAtKeyframe: speaks of the samples asked for; FileStartsAtKeyframe speaks of the file.
- Reconnect.ReconnectWorker.RunReconnectWorker: a wake-up with its attempt is one step; what can be lost between its stores is in StreamLifecycle.
- AndroidMuxer.MediaCodecMuxer.Finish: stopping the muxer and copying the file to the sink are one answer.
- FFmpegMuxer.WritesWhatWasWanted: Finish and Release, which write the trailer, are not part of the runs; rescaling of timestamps is left out.
- AvcRecord.RecordRoundTrip: the reader stops after the picture parameter sets; the extension fields of the high profiles, which the muxer never emits, are left over as `rest`.
- PlanePacking.QueueInput: requires planes as large as the loops assume and, for odd dimensions, where BufferSizeFor asks for nothing, a buffer large enough for the planes; overflow of `y * stride` in a 32-bit int and the surface input are left out.
- AudioPace.AudioPace.Pace: unbounded integers, not 64-bit ones; the generated tone is left out.
- EncoderLifecycle, colour-format and MIME tables, AudioSpecificConfig, registries, byte sinks and examples are small, finite or plumbing.
