/** One producer, one consumer and an end-of-stream marker sharing a ring under
    its mutex. Every lock region is one step; waiting and waking are separate
    steps, and a condition variable may also wake a thread for no reason. */
module RingProtocol {
  import opened Core
  import opened RingModel

  /** `Parked` is a member of the wait set of `not_full_`; `Woken` has left it
      and is about to take the mutex again. */
  datatype Producer<Pkt> = Idle | Parked(pkt: Pkt) | Woken(pkt: Pkt)

  /** Likewise for `not_empty_`; `timedOut` says the deadline passed. */
  datatype Consumer = Away | Waiting | Roused(timedOut: bool)

  datatype State<Pkt> = State(q: Queue<Pkt>, producer: Producer<Pkt>, consumer: Consumer)

  datatype Action<Pkt> =
    | PushBegins(pkt: Pkt)
    | PushResumes
    | PushWakesSpuriously
    | PopBegins(patient: bool)
    | PopResumes
    | PopTimesOut
    | PopWakesSpuriously
    | MarkEos

  function Init<Pkt>(capacity: nat, policy: Policy): State<Pkt> {
    State(Fresh(capacity, policy), Idle, Away)
  }

  /** `notify` on `not_empty_`. */
  function WakeConsumer(c: Consumer): Consumer {
    if c == Waiting then Roused(false) else c
  }

  /** `notify_one` on `not_full_`. */
  function WakeProducer<Pkt>(p: Producer<Pkt>): Producer<Pkt> {
    if p.Parked? then Woken(p.pkt) else p
  }

  function PushRegion<Pkt>(s: State<Pkt>, pkt: Pkt): State<Pkt>
    requires 0 < s.q.capacity
  {
    match Offer(s.q, pkt)
    case (q, Stored) => State(q, Idle, WakeConsumer(s.consumer))
    case (q, Refused) => s.(q := q, producer := Idle)
    case (_, Parks) => s.(producer := Parked(pkt))
  }

  function PopRegion<Pkt>(s: State<Pkt>, patient: bool): State<Pkt> {
    match Take(s.q, patient)
    case (q, Got(_)) => State(q, WakeProducer(s.producer), Away)
    case (_, Waits) => s.(consumer := Waiting)
    case (_, _) => s.(consumer := Away)
  }

  /** One step. An action whose thread is not at that point changes nothing. */
  function Step<Pkt>(s: State<Pkt>, a: Action<Pkt>): (s': State<Pkt>)
    requires 0 < s.q.capacity
    ensures s'.q.capacity == s.q.capacity && s'.q.policy == s.q.policy
  {
    match a
    case PushBegins(pkt) => if s.producer.Idle? then PushRegion(s, pkt) else s
    case PushResumes => if s.producer.Woken? then PushRegion(s, s.producer.pkt) else s
    case PushWakesSpuriously => s.(producer := WakeProducer(s.producer))
    case PopBegins(patient) => if s.consumer == Away then PopRegion(s, patient) else s
    case PopResumes => if s.consumer.Roused? then PopRegion(s, !s.consumer.timedOut) else s
    case PopTimesOut => if s.consumer == Waiting then s.(consumer := Roused(true)) else s
    case PopWakesSpuriously => s.(consumer := WakeConsumer(s.consumer))
    case MarkEos => s.(q := Close(s.q), consumer := WakeConsumer(s.consumer))
  }

  function Run<Pkt>(s: State<Pkt>, acts: seq<Action<Pkt>>): (s': State<Pkt>)
    requires 0 < s.q.capacity
    ensures s'.q.capacity == s.q.capacity && s'.q.policy == s.q.policy
    decreases |acts|
  {
    if acts == [] then s else Run(Step(s, acts[0]), acts[1..])
  }

  // ----- Safety: no lost wake-up -----

  /** A parked thread has nothing to do: a waiting consumer faces an empty, open
      ring and a parked producer a full one. Only `kBlock` producers park. */
  ghost predicate NoLostWakeup<Pkt>(s: State<Pkt>) {
    && (s.consumer == Waiting ==> s.q.held == [] && !s.q.eos)
    && (s.producer.Parked? ==> |s.q.held| == s.q.capacity)
    && (!s.producer.Idle? ==> s.q.policy == Block)
  }

  ghost predicate Inv<Pkt>(s: State<Pkt>) {
    Conserves(s.q) && NoLostWakeup(s)
  }

  lemma StepKeepsInv<Pkt>(s: State<Pkt>, a: Action<Pkt>)
    requires Inv(s)
    ensures Inv(Step(s, a))
  {
    match a
    case PushBegins(pkt) => OfferConserves(s.q, pkt);
    case PushResumes => if s.producer.Woken? { OfferConserves(s.q, s.producer.pkt); }
    case PopBegins(patient) => TakeConserves(s.q, patient);
    case PopResumes => if s.consumer.Roused? { TakeConserves(s.q, !s.consumer.timedOut); }
    case _ =>
  }

  lemma {:induction false} RunKeepsInv<Pkt>(s: State<Pkt>, acts: seq<Action<Pkt>>)
    requires Inv(s)
    ensures Inv(Run(s, acts))
    decreases |acts|
  {
    if acts != [] {
      StepKeepsInv(s, acts[0]);
      RunKeepsInv(Step(s, acts[0]), acts[1..]);
    }
  }

  /** Every interleaving keeps FIFO order, loses nothing but what `kLatest`
      overwrites, and never leaves a thread parked with work to do. */
  lemma EveryRun<Pkt>(capacity: nat, policy: Policy, acts: seq<Action<Pkt>>)
    requires 0 < capacity
    ensures var s := Run(Init(capacity, policy), acts);
      && (policy != Latest ==> s.q.accepted == PoppedIn(s.q.exits) + s.q.held)
      && |s.q.held| <= |s.q.accepted|
      && s.q.held == s.q.accepted[|s.q.accepted| - |s.q.held|..]
      && Subsequence(PoppedIn(s.q.exits), s.q.accepted[..|s.q.accepted| - |s.q.held|])
      && |s.q.accepted| == |PoppedIn(s.q.exits)| + |EvictedIn(s.q.exits)| + |s.q.held|
      && NoLostWakeup(s)
      && !(s.consumer == Waiting && s.producer.Parked?)
  {
    var s := Run(Init(capacity, policy), acts);
    RunKeepsInv(Init(capacity, policy), acts);
    HeldIsNewest(s.q);
    if policy != Latest {
      LosslessIsFifo(s.q);
    }
  }

  // ----- End of stream -----

  /** After `MarkEos` no run accepts another packet: the ring only drains. */
  lemma {:induction false} NothingAcceptedAfterEos<Pkt>(s: State<Pkt>, acts: seq<Action<Pkt>>)
    requires 0 < s.q.capacity && s.q.eos
    ensures Run(s, acts).q.eos && Run(s, acts).q.accepted == s.q.accepted
    decreases |acts|
  {
    if acts != [] {
      NothingAcceptedAfterEos(Step(s, acts[0]), acts[1..]);
    }
  }

  /** The consumer takes no packet and no spurious wake-up hits the producer. */
  ghost predicate LeavesProducerAlone<Pkt>(a: Action<Pkt>) {
    !a.PopBegins? && !a.PopResumes? && !a.PushWakesSpuriously?
  }

  /** `MarkEos` signals only `not_empty_`: a producer parked on a full ring stays
      parked, its packet neither accepted nor refused, through any run in which
      the consumer takes nothing. */
  lemma {:induction false} EosDoesNotReleaseProducer<Pkt>(s: State<Pkt>, acts: seq<Action<Pkt>>)
    requires Inv(s) && s.producer.Parked?
    requires forall i :: 0 <= i < |acts| ==> LeavesProducerAlone(acts[i])
    ensures var s' := Run(s, acts);
      && s'.producer == s.producer
      && s'.q.held == s.q.held
      && s'.q.rejected == s.q.rejected && s'.q.accepted == s.q.accepted
    decreases |acts|
  {
    if acts != [] {
      assert LeavesProducerAlone(acts[0]);
      StepKeepsInv(s, acts[0]);
      EosDoesNotReleaseProducer(Step(s, acts[0]), acts[1..]);
    }
  }

  /** A producer caught in `Push` when the end of stream is marked is refused:
      whatever follows, either it is still inside `Push` with that packet or the
      packet has been turned away first of all. */
  lemma {:induction false} CaughtProducerIsRefused<Pkt>(s: State<Pkt>, acts: seq<Action<Pkt>>)
    requires Inv(s) && s.q.eos && !s.producer.Idle?
    ensures var s' := Run(s, acts);
      || (!s'.producer.Idle? && s'.producer.pkt == s.producer.pkt && s'.q.rejected == s.q.rejected)
      || s.q.rejected + [s.producer.pkt] <= s'.q.rejected
    decreases |acts|
  {
    if acts != [] {
      var t := Step(s, acts[0]);
      StepKeepsInv(s, acts[0]);
      CaughtProducerStep(s, acts[0]);
      if t.producer.Idle? {
        RejectedGrows(t, acts[1..]);
      } else {
        CaughtProducerIsRefused(t, acts[1..]);
      }
    }
  }

  lemma CaughtProducerStep<Pkt>(s: State<Pkt>, a: Action<Pkt>)
    requires Inv(s) && s.q.eos && !s.producer.Idle?
    ensures Step(s, a).q.eos
    ensures
      || (!Step(s, a).producer.Idle? && Step(s, a).producer.pkt == s.producer.pkt && Step(s, a).q.rejected == s.q.rejected)
      || (Step(s, a).producer.Idle? && Step(s, a).q.rejected == s.q.rejected + [s.producer.pkt])
  {
  }

  lemma {:induction false} RejectedGrows<Pkt>(s: State<Pkt>, acts: seq<Action<Pkt>>)
    requires 0 < s.q.capacity
    ensures s.q.rejected <= Run(s, acts).q.rejected
    decreases |acts|
  {
    if acts != [] {
      RejectedGrows(Step(s, acts[0]), acts[1..]);
    }
  }

  /** One pop by a free consumer releases such a producer, and its packet is
      then refused. */
  lemma PopThenRefused<Pkt>(s: State<Pkt>, patient: bool)
    requires Inv(s) && s.q.eos && s.producer.Parked? && s.consumer == Away
    ensures var s' := Run(s, [PopBegins(patient), PushResumes]);
      && s'.producer == Idle
      && s'.q.rejected == s.q.rejected + [s.producer.pkt]
      && s'.q.accepted == s.q.accepted
      && s'.q.held == s.q.held[1..]
  {
    var t := Step(s, PopBegins(patient));
    assert Run(s, [PopBegins(patient), PushResumes]) == Run(t, [PushResumes]);
    var rest: seq<Action<Pkt>> := [PushResumes];
    assert rest[1..] == [];
  }

  lemma StepAfterEos<Pkt>(s: State<Pkt>, a: Action<Pkt>)
    requires Inv(s) && s.q.eos
    ensures Step(s, a).q.eos
    ensures
      || (Step(s, a).q.held == s.q.held && Step(s, a).q.exits == s.q.exits)
      || (s.q.held != [] && Step(s, a).q.held == s.q.held[1..] &&
          Step(s, a).q.exits == s.q.exits + [Popped(s.q.held[0])])
  {
  }

  /** After the end of stream, under every policy, a run only moves packets
      from the front of the ring to the consumer. */
  lemma {:induction false} EosOnlyDrains<Pkt>(s: State<Pkt>, acts: seq<Action<Pkt>>) returns (k: nat)
    requires Inv(s) && s.q.eos
    ensures k <= |s.q.held|
    ensures Run(s, acts).q.held == s.q.held[k..]
    ensures PoppedIn(Run(s, acts).q.exits) == PoppedIn(s.q.exits) + s.q.held[..k]
    decreases |acts|
  {
    if acts == [] {
      k := 0;
    } else {
      var t := Step(s, acts[0]);
      StepKeepsInv(s, acts[0]);
      StepAfterEos(s, acts[0]);
      k := EosOnlyDrains(t, acts[1..]);
      if t.q.exits != s.q.exits {
        ReadLast(s.q.exits, Popped(s.q.held[0]));
        FrontFirst(s.q.held, k);
        Associate(PoppedIn(s.q.exits), [s.q.held[0]], s.q.held[1..][..k]);
        k := k + 1;
      }
    }
  }

  // ----- Liveness of pushes: what is offered is accounted for -----

  predicate Marks<Pkt>(acts: seq<Action<Pkt>>) {
    exists i :: 0 <= i < |acts| && acts[i].MarkEos?
  }

  lemma OpenStep<Pkt>(s: State<Pkt>, a: Action<Pkt>)
    requires Inv(s) && !s.q.eos && s.q.policy != Error && !a.MarkEos?
    ensures !Step(s, a).q.eos && Step(s, a).q.rejected == s.q.rejected
  {
  }

  /** Until the end of stream is marked a `kBlock` or `kLatest` ring refuses nothing,
      in any run. */
  lemma {:induction false} NothingRefusedBeforeEos<Pkt>(s: State<Pkt>, acts: seq<Action<Pkt>>)
    requires Inv(s) && !s.q.eos && s.q.policy != Error && !Marks(acts)
    ensures var t := Run(s, acts); !t.q.eos && t.q.rejected == s.q.rejected
    decreases |acts|
  {
    if acts != [] {
      assert forall i :: 0 <= i < |acts| - 1 ==> acts[1..][i] == acts[i + 1];
      OpenStep(s, acts[0]);
      StepKeepsInv(s, acts[0]);
      NothingRefusedBeforeEos(Step(s, acts[0]), acts[1..]);
    }
  }

  /** The packet a producer is inside `Push` with. */
  function Inside<Pkt>(p: Producer<Pkt>): seq<Pkt> {
    if p.Idle? then [] else [p.pkt]
  }

  /** The packets with which `Push` was entered, in order. */
  function Offered<Pkt>(s: State<Pkt>, acts: seq<Action<Pkt>>): seq<Pkt>
    requires 0 < s.q.capacity
    decreases |acts|
  {
    if acts == [] then []
    else (if acts[0].PushBegins? && s.producer.Idle? then [acts[0].pkt] else []) + Offered(Step(s, acts[0]), acts[1..])
  }

  /** What has been decided and what is still inside, in the order it came. */
  function Account<Pkt>(s: State<Pkt>): seq<Pkt> {
    s.q.accepted + s.q.rejected + Inside(s.producer)
  }

  /** Refusals come only after the mark, and then nothing is accepted any more. */
  ghost predicate RefusesLate<Pkt>(s: State<Pkt>) {
    Inv(s) && s.q.policy != Error && (s.q.rejected != [] ==> s.q.eos)
  }

  lemma Insert<Pkt>(a: seq<Pkt>, r: seq<Pkt>, x: seq<Pkt>)
    ensures r == [] ==> (a + x) + r + [] == a + r + x
    ensures a + (r + x) + [] == a + r + x
  {
  }

  /** A push that is decided, or parks, keeps the account. */
  lemma PushAccounts<Pkt>(s: State<Pkt>, pkt: Pkt)
    requires RefusesLate(s)
    ensures Account(PushRegion(s, pkt)) == s.q.accepted + s.q.rejected + [pkt]
  {
    OfferIff(s.q, pkt);
    Insert(s.q.accepted, s.q.rejected, [pkt]);
  }

  lemma StepAccounts<Pkt>(s: State<Pkt>, a: Action<Pkt>)
    requires RefusesLate(s)
    ensures RefusesLate(Step(s, a))
    ensures Account(Step(s, a)) == Account(s) + (if a.PushBegins? && s.producer.Idle? then [a.pkt] else [])
  {
    StepKeepsInv(s, a);
    match a
    case PushBegins(pkt) =>
      if s.producer.Idle? {
        PushAccounts(s, pkt);
        assert s.q.accepted + s.q.rejected + [] == s.q.accepted + s.q.rejected;
      }
    case PushResumes => if s.producer.Woken? { PushAccounts(s, s.producer.pkt); }
    case _ =>
  }

  /** Under `kBlock` and `kLatest`, in every run, the packets offered are those
      accepted, then those refused, then the one still inside `Push`: none gets
      lost on the way in. */
  lemma {:induction false} EveryOfferAccounted<Pkt>(s: State<Pkt>, acts: seq<Action<Pkt>>)
    requires RefusesLate(s)
    ensures Account(Run(s, acts)) == Account(s) + Offered(s, acts)
    decreases |acts|
  {
    if acts == [] {
      assert Account(s) + [] == Account(s);
    } else {
      StepAccounts(s, acts[0]);
      EveryOfferAccounted(Step(s, acts[0]), acts[1..]);
      Associate(Account(s), if acts[0].PushBegins? && s.producer.Idle? then [acts[0].pkt] else [],
        Offered(Step(s, acts[0]), acts[1..]));
    }
  }

  lemma StepCounts<Pkt>(s: State<Pkt>, a: Action<Pkt>)
    requires Inv(s)
    ensures |Account(Step(s, a))| == |Account(s)| + if a.PushBegins? && s.producer.Idle? then 1 else 0
  {
    match a
    case PushBegins(pkt) => OfferIff(s.q, pkt);
    case PushResumes => if s.producer.Woken? { OfferIff(s.q, s.producer.pkt); }
    case _ =>
  }

  /** Under every policy, `kError` included, the numbers agree. */
  lemma {:induction false} EveryOfferCounted<Pkt>(s: State<Pkt>, acts: seq<Action<Pkt>>)
    requires Inv(s)
    ensures |Account(Run(s, acts))| == |Account(s)| + |Offered(s, acts)|
    decreases |acts|
  {
    if acts != [] {
      StepKeepsInv(s, acts[0]);
      StepCounts(s, acts[0]);
      EveryOfferCounted(Step(s, acts[0]), acts[1..]);
    }
  }

  /** A producer parked on an open ring gets in with the next pop. */
  lemma PopThenAccepted<Pkt>(s: State<Pkt>, patient: bool)
    requires Inv(s) && !s.q.eos && s.producer.Parked? && s.consumer == Away
    ensures var t := Run(s, [PopBegins(patient), PushResumes]);
      && t.producer == Idle && t.q.held == s.q.held[1..] + [s.producer.pkt]
      && t.q.accepted == s.q.accepted + [s.producer.pkt] && t.q.rejected == s.q.rejected
  {
    TwoSteps(s, PopBegins(patient), PushResumes);
  }

  /** A producer woken for nothing parks again. */
  lemma SpuriousWakeParksAgain<Pkt>(s: State<Pkt>)
    requires Inv(s) && !s.q.eos && s.producer.Parked?
    ensures Step(s, PushWakesSpuriously).producer == Woken(s.producer.pkt)
    ensures Run(s, [PushWakesSpuriously, PushResumes]) == s
  {
    TwoSteps(s, PushWakesSpuriously, PushResumes);
  }

  /** A waiting consumer gets the next packet, and returns without one at the mark or
      when its time is up. */
  lemma WaitEnds<Pkt>(s: State<Pkt>, pkt: Pkt)
    requires Inv(s) && s.consumer == Waiting && s.producer == Idle
    ensures var t := Run(s, [PushBegins(pkt), PopResumes]);
      t.consumer == Away && t.q.held == [] && t.q.exits == s.q.exits + [Popped(pkt)]
    ensures Run(s, [MarkEos, PopResumes]) == s.(q := Close(s.q), consumer := Away)
    ensures Run(s, [PopTimesOut, PopResumes]) == s.(consumer := Away)
    ensures Run(s, [PopWakesSpuriously, PopResumes]) == s
  {
    TwoSteps(s, PushBegins(pkt), PopResumes);
    TwoSteps(s, MarkEos, PopResumes);
    TwoSteps(s, PopTimesOut, PopResumes);
    TwoSteps(s, PopWakesSpuriously, PopResumes);
  }

  lemma TwoSteps<Pkt>(s: State<Pkt>, a: Action<Pkt>, b: Action<Pkt>)
    requires 0 < s.q.capacity
    ensures Run(s, [a, b]) == Step(Step(s, a), b)
  {
    assert [a, b][1..] == [b] && [b][1..] == [];
    assert Run(Step(s, a), [b]) == Step(Step(s, a), b);
  }

  // ----- In and out again -----

  function Pushes<Pkt>(pkts: seq<Pkt>): seq<Action<Pkt>> {
    if pkts == [] then [] else [PushBegins(pkts[0])] + Pushes(pkts[1..])
  }

  function Pops<Pkt>(n: nat, patient: bool): seq<Action<Pkt>> {
    if n == 0 then [] else [PopBegins(patient)] + Pops(n - 1, patient)
  }

  lemma {:induction false} RunConcat<Pkt>(s: State<Pkt>, a: seq<Action<Pkt>>, b: seq<Action<Pkt>>)
    requires 0 < s.q.capacity
    ensures Run(s, a + b) == Run(Run(s, a), b)
    decreases |a|
  {
    if a == [] {
      assert a + b == b;
    } else {
      TailOfConcat(a, b);
      RunConcat(Step(s, a[0]), a[1..], b);
    }
  }

  lemma {:induction false} PushesFill<Pkt>(s: State<Pkt>, pkts: seq<Pkt>)
    requires 0 < s.q.capacity && s.producer == Idle && s.consumer == Away && !s.q.eos
    requires |s.q.held| + |pkts| <= s.q.capacity
    ensures Run(s, Pushes(pkts)) == s.(q := s.q.(held := s.q.held + pkts, accepted := s.q.accepted + pkts))
    decreases |pkts|
  {
    if pkts == [] {
      assert s.q.held + pkts == s.q.held && s.q.accepted + pkts == s.q.accepted;
    } else {
      var t := Step(s, PushBegins(pkts[0]));
      assert Pushes(pkts)[1..] == Pushes(pkts[1..]);
      PushesFill(t, pkts[1..]);
      Associate(s.q.held, [pkts[0]], pkts[1..]);
      Associate(s.q.accepted, [pkts[0]], pkts[1..]);
      assert [pkts[0]] + pkts[1..] == pkts;
    }
  }

  lemma {:induction false} PopsEmpty<Pkt>(s: State<Pkt>, patient: bool)
    requires 0 < s.q.capacity && s.producer == Idle && s.consumer == Away
    ensures var t := Run(s, Pops(|s.q.held|, patient));
      && t.q.held == [] && PoppedIn(t.q.exits) == PoppedIn(s.q.exits) + s.q.held
      && t.consumer == Away
    decreases |s.q.held|
  {
    if s.q.held == [] {
      assert PoppedIn(s.q.exits) + [] == PoppedIn(s.q.exits);
    } else {
      var t := Step(s, PopBegins(patient));
      assert Pops<Pkt>(|s.q.held|, patient)[1..] == Pops<Pkt>(|s.q.held| - 1, patient);
      ReadLast(s.q.exits, Popped(s.q.held[0]));
      PopsEmpty(t, patient);
      Associate(PoppedIn(s.q.exits), [s.q.held[0]], s.q.held[1..]);
      assert [s.q.held[0]] + s.q.held[1..] == s.q.held;
    }
  }

  /** Up to `capacity` packets pushed onto a new ring and popped again come out as
      they went in, under every policy, whether or not the consumer would wait. */
  lemma InAndOut<Pkt>(capacity: nat, policy: Policy, pkts: seq<Pkt>, patient: bool)
    requires 0 < capacity && |pkts| <= capacity
    ensures var t := Run(Init(capacity, policy), Pushes(pkts) + Pops(|pkts|, patient));
      t.q.held == [] && PoppedIn(t.q.exits) == pkts
  {
    var s := Init(capacity, policy);
    RunConcat(s, Pushes(pkts), Pops(|pkts|, patient));
    PushesFill(s, pkts);
    assert [] + pkts == pkts;
    PopsEmpty(Run(s, Pushes(pkts)), patient);
  }
}
