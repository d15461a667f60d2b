/** Two independent rings, one per media, and the loop that drains both into a
    sink until the end of stream. */
module PacketQueue {
  import opened Core
  import opened RingModel
  import opened Ring
  import Bits

  /** A consumer of packets. It may refuse any packet: `accepts(n)` is its answer
      to the n-th push. `video` and `audio` record every packet handed to it. */
  class Sink<V, A> {
    const accepts: nat -> bool
    const finishStatus: Status
    var pushes: nat
    var video: seq<V>
    var audio: seq<A>
    var finishes: nat

    constructor (accepts: nat -> bool, finishStatus: Status)
      ensures video == [] && audio == [] && pushes == 0 && finishes == 0
      ensures this.accepts == accepts && this.finishStatus == finishStatus
    {
      this.accepts, this.finishStatus := accepts, finishStatus;
      pushes, video, audio, finishes := 0, [], [], 0;
    }

    method PushVideo(pkt: V) returns (ok: bool)
      modifies this
      ensures ok == accepts(old(pushes)) && pushes == old(pushes) + 1
      ensures video == old(video) + [pkt] && audio == old(audio) && finishes == old(finishes)
    {
      ok, pushes, video := accepts(pushes), pushes + 1, video + [pkt];
    }

    method PushAudio(pkt: A) returns (ok: bool)
      modifies this
      ensures ok == accepts(old(pushes)) && pushes == old(pushes) + 1
      ensures audio == old(audio) + [pkt] && video == old(video) && finishes == old(finishes)
    {
      ok, pushes, audio := accepts(pushes), pushes + 1, audio + [pkt];
    }

    method Finish() returns (st: Status)
      modifies this
      ensures st == finishStatus && finishes == old(finishes) + 1
      ensures video == old(video) && audio == old(audio) && pushes == old(pushes)
    {
      st, finishes := finishStatus, finishes + 1;
    }
  }

  /** What producers do between two lock regions of the consumer. `MarkEos` marks the
      rings one after the other, so each has a mark of its own. A push that finds a
      full `kBlock` ring only parks; it counts when it is retried. */
  datatype Burst<V, A> = Burst(video: seq<V>, audio: seq<A>, videoEos: bool, audioEos: bool)

  /** The producers mark the end of a stream at the latest in the last burst. */
  ghost predicate VideoEosComes<V, A>(env: seq<Burst<V, A>>) {
    exists i :: 0 <= i < |env| && env[i].videoEos
  }

  ghost predicate AudioEosComes<V, A>(env: seq<Burst<V, A>>) {
    exists i :: 0 <= i < |env| && env[i].audioEos
  }

  /** `handed` grew by exactly the packets popped since `popped0`. */
  ghost predicate HandedAll<P>(handed0: seq<P>, handed: seq<P>, popped0: seq<P>, popped: seq<P>) {
    && |handed0| <= |handed|
    && handed == handed0 + handed[|handed0|..]
    && popped == popped0 + handed[|handed0|..]
  }

  lemma HandedTwice<P>(h0: seq<P>, h1: seq<P>, h2: seq<P>, p0: seq<P>, p1: seq<P>, p2: seq<P>)
    requires HandedAll(h0, h1, p0, p1) && HandedAll(h1, h2, p1, p2)
    ensures HandedAll(h0, h2, p0, p2)
  {
    assert h2[|h0|..] == h1[|h0|..] + h2[|h1|..];
  }

  class PacketQueue<V, A> {
    const video: Ring<V>
    const audio: Ring<A>

    ghost predicate Valid()
      reads this, video, audio, video.slots, audio.slots
    {
      && video as object != audio as object
      && video.slots as object != audio.slots as object
      && video.Valid() && Conserves(video.Abs())
      && audio.Valid() && Conserves(audio.Abs())
    }

    ghost predicate Drained()
      reads this, video, audio
    {
      video.eos && video.count == 0 && audio.eos && audio.count == 0
    }

    constructor (capacity: nat, policy: Policy)
      requires 0 < capacity && Bits.And(capacity, capacity - 1) == 0
      ensures Valid()
      ensures video.Abs() == Fresh(capacity, policy) && audio.Abs() == Fresh(capacity, policy)
      ensures fresh(video) && fresh(audio) && fresh(video.slots) && fresh(audio.slots)
    {
      var v := new Ring<V>(capacity, policy);
      var a := new Ring<A>(capacity, policy);
      video, audio := v, a;
    }

    method MarkEos()
      requires Valid()
      modifies video, audio
      ensures Valid()
      ensures video.Abs() == Close(old(video.Abs())) && audio.Abs() == Close(old(audio.Abs()))
    {
      video.MarkEos();
      audio.MarkEos();
    }

    /** `Pull` on one ring. A wait whose deadline passes ends as a plain look at
        the ring; what happens during a wait happens before it in `Await`. */
    method Pull<P>(ring: Ring<P>, patient: bool) returns (r: PopResult<P>)
      requires ring.Valid() && Conserves(ring.Abs())
      modifies ring, ring.slots
      ensures ring.Valid() && Conserves(ring.Abs())
      ensures (ring.Abs(), r) == Take(old(ring.Abs()), false)
      ensures PoppedIn(ring.exits) == old(PoppedIn(ring.exits)) + if r.Got? then [r.pkt] else []
    {
      TakeConserves(ring.Abs(), patient);
      TakeConserves(ring.Abs(), false);
      if ring.count != 0 {
        ReadLast(ring.exits, Popped(ring.Held()[0]));
      }
      r := ring.Pop(patient);
      if r.Waits? {
        r := ring.Pop(false);
      }
    }

    /** Producers offer packets while the consumer is outside the lock. */
    method Offers<P>(ring: Ring<P>, pkts: seq<P>)
      requires ring.Valid() && Conserves(ring.Abs())
      modifies ring, ring.slots
      ensures ring.Valid() && Conserves(ring.Abs())
      ensures ring.Abs() == OfferedAll(old(ring.Abs()), pkts)
      ensures PoppedIn(ring.exits) == old(PoppedIn(ring.exits))
      ensures ring.eos == old(ring.eos)
      ensures ring.eos ==> ring.count == old(ring.count)
    {
      assert pkts[..|pkts|] == pkts;
      for n := 0 to |pkts|
        invariant ring.Valid() && Conserves(ring.Abs())
        invariant ring.Abs() == OfferedAll(old(ring.Abs()), pkts[..n])
        invariant PoppedIn(ring.exits) == old(PoppedIn(ring.exits))
        invariant ring.eos == old(ring.eos)
        invariant ring.eos ==> ring.count == old(ring.count)
      {
        OfferOne(ring, pkts[n]);
        assert pkts[..n + 1][..n] == pkts[..n];
      }
    }

    method OfferOne<P>(ring: Ring<P>, pkt: P)
      requires ring.Valid() && Conserves(ring.Abs())
      modifies ring, ring.slots
      ensures ring.Valid() && Conserves(ring.Abs())
      ensures ring.Abs() == Offer(old(ring.Abs()), pkt).0
      ensures PoppedIn(ring.exits) == old(PoppedIn(ring.exits))
      ensures ring.eos == old(ring.eos)
      ensures ring.eos ==> ring.count == old(ring.count)
    {
      OfferPopsNothing(ring.Abs(), pkt);
      var _ := ring.Push(pkt);
      assert |ring.Abs().held| == ring.count;
    }

    method Interfere(burst: Burst<V, A>)
      requires Valid()
      modifies video, audio, video.slots, audio.slots
      ensures Valid()
      ensures PoppedIn(video.exits) == old(PoppedIn(video.exits))
      ensures PoppedIn(audio.exits) == old(PoppedIn(audio.exits))
      ensures video.eos == (old(video.eos) || burst.videoEos)
      ensures audio.eos == (old(audio.eos) || burst.audioEos)
      ensures old(video.eos) ==> video.count == old(video.count)
      ensures old(audio.eos) ==> audio.count == old(audio.count)
    {
      Offers(video, burst.video);
      Offers(audio, burst.audio);
      if burst.videoEos {
        video.MarkEos();
      }
      if burst.audioEos {
        audio.MarkEos();
      }
    }

    /** The `kOk` case of `DrainOne` for video. */
    method DeliverVideo(sink: Sink<V, A>, pkt: V) returns (ok: bool)
      modifies sink
      ensures sink.video == old(sink.video) + [pkt] && sink.audio == old(sink.audio)
      ensures Answered(sink, old(sink.pushes), ok)
      ensures sink.finishes == old(sink.finishes) + if ok then 0 else 1
    {
      ok := sink.PushVideo(pkt);
      if !ok {
        var _ := sink.Finish();
      }
    }

    /** The `kOk` case of `DrainOne` for audio. */
    method DeliverAudio(sink: Sink<V, A>, pkt: A) returns (ok: bool)
      modifies sink
      ensures sink.audio == old(sink.audio) + [pkt] && sink.video == old(sink.video)
      ensures Answered(sink, old(sink.pushes), ok)
      ensures sink.finishes == old(sink.finishes) + if ok then 0 else 1
    {
      ok := sink.PushAudio(pkt);
      if !ok {
        var _ := sink.Finish();
      }
    }

    /** `DrainOne` for video: at most one packet goes from the ring to the sink.
        `ok` is false only after the sink refused it and was told to finish. */
    method DrainVideo(sink: Sink<V, A>, patient: bool, done: bool) returns (ok: bool, done': bool)
      requires Valid() && sink as object !in {video as object, audio, video.slots, audio.slots}
      requires done ==> video.eos && video.count == 0
      modifies video, video.slots, sink
      ensures Valid() && video.eos == old(video.eos)
      ensures done' ==> video.eos && video.count == 0
      ensures Remaining(done', video.count) <= Remaining(done, old(video.count))
      ensures !done && video.eos ==> Remaining(done', video.count) < Remaining(done, old(video.count))
      ensures HandedAll(old(sink.video), sink.video, old(PoppedIn(video.exits)), PoppedIn(video.exits))
      ensures !done && old(video.count) > 0 ==> sink.video == old(sink.video) + [old(video.Held())[0]]
      ensures done' <==> done || (video.eos && old(video.count) == 0)
      ensures sink.audio == old(sink.audio)
      ensures Answered(sink, old(sink.pushes), ok)
      ensures sink.finishes == old(sink.finishes) + if ok then 0 else 1
    {
      ok, done' := true, done;
      if done {
        return;
      }
      var r := Pull(video, patient);
      match r
      case Got(pkt) => ok := DeliverVideo(sink, pkt);
      case Ended => done' := true;
      case _ =>
    }

    /** `DrainOne` for audio. */
    method DrainAudio(sink: Sink<V, A>, patient: bool, done: bool) returns (ok: bool, done': bool)
      requires Valid() && sink as object !in {video as object, audio, video.slots, audio.slots}
      requires done ==> audio.eos && audio.count == 0
      modifies audio, audio.slots, sink
      ensures Valid() && audio.eos == old(audio.eos)
      ensures done' ==> audio.eos && audio.count == 0
      ensures Remaining(done', audio.count) <= Remaining(done, old(audio.count))
      ensures !done && audio.eos ==> Remaining(done', audio.count) < Remaining(done, old(audio.count))
      ensures HandedAll(old(sink.audio), sink.audio, old(PoppedIn(audio.exits)), PoppedIn(audio.exits))
      ensures !done && old(audio.count) > 0 ==> sink.audio == old(sink.audio) + [old(audio.Held())[0]]
      ensures done' <==> done || (audio.eos && old(audio.count) == 0)
      ensures sink.video == old(sink.video)
      ensures Answered(sink, old(sink.pushes), ok)
      ensures sink.finishes == old(sink.finishes) + if ok then 0 else 1
    {
      ok, done' := true, done;
      if done {
        return;
      }
      var r := Pull(audio, patient);
      match r
      case Got(pkt) => ok := DeliverAudio(sink, pkt);
      case Ended => done' := true;
      case _ =>
    }

    /** The drain loop. `env` is what the producers do meanwhile, one burst before
        each lock region; the loop returns once the end of stream has come and
        everything is drained, or at the first packet the sink refuses. */
    method Await(sink: Sink<V, A>, patient: bool, env: seq<Burst<V, A>>) returns (st: Status)
      requires Valid() && sink as object !in {video as object, audio, video.slots, audio.slots}
      requires (video.eos || VideoEosComes(env)) && (audio.eos || AudioEosComes(env))
      modifies video, audio, video.slots, audio.slots, sink
      ensures Valid()
      // Per media, the sink was handed exactly what was popped, in order.
      ensures HandedAll(old(sink.video), sink.video, old(PoppedIn(video.exits)), PoppedIn(video.exits))
      ensures HandedAll(old(sink.audio), sink.audio, old(PoppedIn(audio.exits)), PoppedIn(audio.exits))
      // Finish is called exactly once, however the loop ends.
      ensures sink.finishes == old(sink.finishes) + 1
      // The loop fails exactly when the last push was refused; else it drained.
      ensures Answered(sink, old(sink.pushes), true) || Answered(sink, old(sink.pushes), false)
      ensures Answered(sink, old(sink.pushes), true) ==> st == sink.finishStatus && Drained()
      ensures Answered(sink, old(sink.pushes), false) ==> st == EncodeFailed
      // Unless packets are overwritten, a drained queue has delivered everything.
      ensures Drained() && video.policy != Latest ==>
                video.accepted == old(PoppedIn(video.exits)) + sink.video[|old(sink.video)|..]
      ensures Drained() && audio.policy != Latest ==>
                audio.accepted == old(PoppedIn(audio.exits)) + sink.audio[|old(sink.audio)|..]
    {
      var videoDone, audioDone, ok := false, false, true;
      var i := 0;
      while true
        invariant i <= |env|
        invariant Valid()
        invariant videoDone ==> video.eos && video.count == 0
        invariant audioDone ==> audio.eos && audio.count == 0
        invariant !(videoDone && audioDone)
        invariant Ahead(i, env)
        invariant HandedAll(old(sink.video), sink.video, old(PoppedIn(video.exits)), PoppedIn(video.exits))
        invariant HandedAll(old(sink.audio), sink.audio, old(PoppedIn(audio.exits)), PoppedIn(audio.exits))
        invariant Answered(sink, old(sink.pushes), true)
        invariant sink.finishes == old(sink.finishes)
        decreases |env| - i, Remaining(videoDone, video.count) + Remaining(audioDone, audio.count)
      {
        label before:
        ok, i, videoDone, audioDone := Round(sink, patient, env, i, videoDone, audioDone);
        HandedTwice(old(sink.video), old@before(sink.video), sink.video,
          old(PoppedIn(video.exits)), old@before(PoppedIn(video.exits)), PoppedIn(video.exits));
        HandedTwice(old(sink.audio), old@before(sink.audio), sink.audio,
          old(PoppedIn(audio.exits)), old@before(PoppedIn(audio.exits)), PoppedIn(audio.exits));
        AllDelivered(video);
        AllDelivered(audio);
        if !ok {
          return EncodeFailed;
        }
        if videoDone && audioDone {
          break;
        }
      }
      st := sink.Finish();
    }

    /** One pass of the loop body: video, then audio unless that failed. */
    method Round(sink: Sink<V, A>, patient: bool, env: seq<Burst<V, A>>, i: nat, videoDone: bool, audioDone: bool)
      returns (ok: bool, i': nat, videoDone': bool, audioDone': bool)
      requires Valid() && sink as object !in {video as object, audio, video.slots, audio.slots}
      requires i <= |env| && Ahead(i, env)
      requires videoDone ==> video.eos && video.count == 0
      requires audioDone ==> audio.eos && audio.count == 0
      modifies video, audio, video.slots, audio.slots, sink
      ensures Valid() && i <= i' <= |env| && Ahead(i', env)
      ensures videoDone' ==> video.eos && video.count == 0
      ensures audioDone' ==> audio.eos && audio.count == 0
      ensures i < |env| ==> i < i'
      ensures i == |env| && !(videoDone && audioDone) && ok ==>
                Remaining(videoDone', video.count) + Remaining(audioDone', audio.count) <
                Remaining(videoDone, old(video.count)) + Remaining(audioDone, old(audio.count))
      ensures HandedAll(old(sink.video), sink.video, old(PoppedIn(video.exits)), PoppedIn(video.exits))
      ensures HandedAll(old(sink.audio), sink.audio, old(PoppedIn(audio.exits)), PoppedIn(audio.exits))
      ensures Answered(sink, old(sink.pushes), ok)
      ensures sink.finishes == old(sink.finishes) + if ok then 0 else 1
    {
      audioDone' := audioDone;
      i' := Between(env, i);
      ok, videoDone' := DrainVideo(sink, patient, videoDone);
      if ok {
        i' := Between(env, i');
        ok, audioDone' := DrainAudio(sink, patient, audioDone);
      }
    }

    /** Both rings are closed, or the rest of `env` will close them. */
    ghost predicate Ahead(i: nat, env: seq<Burst<V, A>>)
      reads this, video, audio
      requires i <= |env|
    {
      (video.eos || VideoEosComes(env[i..])) && (audio.eos || AudioEosComes(env[i..]))
    }

    /** The next burst, if any is left. */
    method Between(env: seq<Burst<V, A>>, i: nat) returns (i': nat)
      requires Valid() && i <= |env| && Ahead(i, env)
      modifies video, audio, video.slots, audio.slots
      ensures Valid() && i <= i' <= |env| && Ahead(i', env)
      ensures i < |env| ==> i < i'
      ensures PoppedIn(video.exits) == old(PoppedIn(video.exits))
      ensures PoppedIn(audio.exits) == old(PoppedIn(audio.exits))
      ensures old(video.eos) ==> video.eos && video.count == old(video.count)
      ensures old(audio.eos) ==> audio.eos && audio.count == old(audio.count)
    {
      i' := i;
      if i < |env| {
        Interfere(env[i]);
        i' := i + 1;
        assert env[i..] == [env[i]] + env[i + 1..];
      }
    }
  }

  lemma OfferPopsNothing<P>(q: Queue<P>, pkt: P)
    requires Conserves(q)
    ensures var t := Offer(q, pkt).0;
      && Conserves(t) && PoppedIn(t.exits) == PoppedIn(q.exits)
      && t.eos == q.eos && (q.eos ==> |t.held| == |q.held|)
  {
    OfferConserves(q, pkt);
    if q.held != [] {
      ReadLast(q.exits, Overwrote(q.held[0]));
    }
  }

  /** The packets offered one after the other. */
  function OfferedAll<P>(q: Queue<P>, pkts: seq<P>): (t: Queue<P>)
    requires 0 < q.capacity
    ensures t.capacity == q.capacity
  {
    if pkts == [] then q else Offer(OfferedAll(q, pkts[..|pkts| - 1]), pkts[|pkts| - 1]).0
  }

  lemma AllDelivered<P>(ring: Ring<P>)
    requires ring.Valid() && Conserves(ring.Abs())
    ensures ring.count == 0 && ring.policy != Latest ==> ring.accepted == PoppedIn(ring.exits)
  {
    if ring.policy != Latest {
      LosslessIsFifo(ring.Abs());
    }
  }

  /** What is left to take from one ring, counting the end of stream itself. */
  function Remaining(done: bool, count: nat): nat {
    if done then 0 else 1 + count
  }

  /** The sink accepted every push from number `from` on, except, when `ok` is
      false, the very last one. */
  ghost predicate Answered<V, A>(sink: Sink<V, A>, from: nat, ok: bool)
    reads sink
  {
    var n := if ok then sink.pushes else sink.pushes - 1;
    && from <= n
    && (forall k: nat :: from <= k < n ==> sink.accepts(k))
    && (!ok ==> !sink.accepts(n))
  }
}
