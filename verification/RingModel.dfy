/** The abstract bounded queue behind one packet ring: what each lock region of
    `Ring::Push`, `Ring::Pop` and `Ring::MarkEos` does to it, and the history
    of packets that went in and came out. */
module RingModel {

  datatype Policy = Block | Latest | Error

  /** How a packet left the ring. */
  datatype Exit<Pkt> = Popped(pkt: Pkt) | Overwrote(pkt: Pkt)

  /** `held` is the ring's contents, oldest first. The last three fields are
      history: packets accepted, packets that left, packets turned away. */
  datatype Queue<Pkt> = Queue(
    capacity: nat,
    policy: Policy,
    held: seq<Pkt>,
    eos: bool,
    accepted: seq<Pkt>,
    exits: seq<Exit<Pkt>>,
    rejected: seq<Pkt>)

  /** `Parks`: the caller releases the lock and waits on `not_full_`. */
  datatype PushResult = Stored | Refused | Parks

  /** `Waits`: the caller releases the lock and waits on `not_empty_`. */
  datatype PopResult<+Pkt> = Got(pkt: Pkt) | Nothing | Ended | Waits

  function Fresh<Pkt>(capacity: nat, policy: Policy): Queue<Pkt> {
    Queue(capacity, policy, [], false, [], [], [])
  }

  function Offer<Pkt>(q: Queue<Pkt>, pkt: Pkt): (Queue<Pkt>, PushResult)
    requires 0 < q.capacity
  {
    if q.eos then
      (q.(rejected := q.rejected + [pkt]), Refused)
    else if |q.held| < q.capacity then
      (q.(held := q.held + [pkt], accepted := q.accepted + [pkt]), Stored)
    else
      match q.policy
      case Error => (q.(rejected := q.rejected + [pkt]), Refused)
      case Block => (q, Parks)
      case Latest =>
        (q.(held := q.held[1..] + [pkt],
            accepted := q.accepted + [pkt],
            exits := q.exits + [Overwrote(q.held[0])]), Stored)
  }

  /** `patient` is a positive deadline that has not yet run out. */
  function Take<Pkt>(q: Queue<Pkt>, patient: bool): (Queue<Pkt>, PopResult<Pkt>) {
    if q.held != [] then
      (q.(held := q.held[1..], exits := q.exits + [Popped(q.held[0])]), Got(q.held[0]))
    else if q.eos then (q, Ended)
    else if patient then (q, Waits)
    else (q, Nothing)
  }

  function Close<Pkt>(q: Queue<Pkt>): Queue<Pkt> {
    q.(eos := true)
  }

  /** What becomes of a push: refused exactly by a closed ring, or by a full one under
      `kError`; parked exactly by an open full one under `kBlock`; else it is the
      newest packet, in a free place or in that of the oldest. */
  lemma OfferIff<Pkt>(q: Queue<Pkt>, pkt: Pkt)
    requires 0 < q.capacity && |q.held| <= q.capacity
    ensures var (t, r) := Offer(q, pkt);
      && (r == Refused <==> q.eos || (|q.held| == q.capacity && q.policy == Error))
      && (r == Parks <==> !q.eos && |q.held| == q.capacity && q.policy == Block)
      && (r == Stored ==> t.held == (if |q.held| < q.capacity then q.held else q.held[1..]) + [pkt])
      && (r != Stored ==> t.held == q.held)
      && t.eos == q.eos && t.capacity == q.capacity && t.policy == q.policy
      && t.accepted == q.accepted + (if r == Stored then [pkt] else [])
      && t.rejected == q.rejected + (if r == Refused then [pkt] else [])
  {
  }

  /** What becomes of a pop: the oldest packet if there is one; else the end of the
      stream if it is marked; else a wait or nothing. */
  lemma TakeIff<Pkt>(q: Queue<Pkt>, patient: bool)
    ensures var (t, r) := Take(q, patient);
      && (r.Got? <==> q.held != [])
      && (r.Got? ==> r.pkt == q.held[0] && t.held == q.held[1..])
      && (r == Ended <==> q.held == [] && q.eos)
      && (r == Waits <==> q.held == [] && !q.eos && patient)
      && (!r.Got? ==> t == q)
      && t.eos == q.eos && t.accepted == q.accepted && t.rejected == q.rejected
      && t.capacity == q.capacity && t.policy == q.policy
  {
  }

  // ----- Reading the exits -----

  /** Packets that left the ring either way, in order. */
  function Left<Pkt>(exits: seq<Exit<Pkt>>): seq<Pkt> {
    seq(|exits|, i requires 0 <= i < |exits| => exits[i].pkt)
  }

  /** Packets handed to the consumer, in order. */
  function PoppedIn<Pkt>(exits: seq<Exit<Pkt>>): seq<Pkt> {
    if exits == [] then []
    else
      var e := exits[|exits| - 1];
      PoppedIn(exits[..|exits| - 1]) + (if e.Popped? then [e.pkt] else [])
  }

  /** Packets overwritten under `kLatest`, in order. */
  function EvictedIn<Pkt>(exits: seq<Exit<Pkt>>): seq<Pkt> {
    if exits == [] then []
    else
      var e := exits[|exits| - 1];
      EvictedIn(exits[..|exits| - 1]) + (if e.Overwrote? then [e.pkt] else [])
  }

  lemma ReadLast<Pkt>(exits: seq<Exit<Pkt>>, e: Exit<Pkt>)
    ensures Left(exits + [e]) == Left(exits) + [e.pkt]
    ensures PoppedIn(exits + [e]) == PoppedIn(exits) + (if e.Popped? then [e.pkt] else [])
    ensures EvictedIn(exits + [e]) == EvictedIn(exits) + (if e.Overwrote? then [e.pkt] else [])
  {
    assert (exits + [e])[..|exits + [e]| - 1] == exits;
  }

  /** `a` is `b` with some elements left out and the order kept. */
  predicate Subsequence<T(==)>(a: seq<T>, b: seq<T>) {
    a == [] ||
    (b != [] &&
     ((a[|a| - 1] == b[|b| - 1] && Subsequence(a[..|a| - 1], b[..|b| - 1])) ||
      Subsequence(a, b[..|b| - 1])))
  }

  lemma SubsequenceGrows<T>(a: seq<T>, b: seq<T>, x: T)
    requires Subsequence(a, b)
    ensures Subsequence(a + [x], b + [x]) && Subsequence(a, b + [x])
  {
    assert (a + [x])[..|a|] == a && (b + [x])[..|b|] == b;
  }

  /** What was popped is an in-order subsequence of what left; everything else
      that left was overwritten. */
  lemma {:induction false} PoppedAmongLeft<Pkt>(exits: seq<Exit<Pkt>>)
    ensures Subsequence(PoppedIn(exits), Left(exits))
    ensures |PoppedIn(exits)| + |EvictedIn(exits)| == |exits|
    ensures EvictedIn(exits) == [] ==> PoppedIn(exits) == Left(exits)
  {
    if exits != [] {
      var front, e := exits[..|exits| - 1], exits[|exits| - 1];
      PoppedAmongLeft(front);
      assert front + [e] == exits;
      ReadLast(front, e);
      SubsequenceGrows(PoppedIn(front), Left(front), e.pkt);
      if e.Overwrote? {
        assert PoppedIn(exits) == PoppedIn(front);
      }
    }
  }

  // ----- What every queue keeps -----

  /** Nothing is lost, duplicated or reordered: the accepted packets are those
      that left followed by those still held. Only `kLatest` ever evicts. */
  ghost predicate Conserves<Pkt>(q: Queue<Pkt>) {
    && 0 < q.capacity
    && |q.held| <= q.capacity
    && q.accepted == Left(q.exits) + q.held
    && (q.policy != Latest ==> EvictedIn(q.exits) == [])
  }

  lemma OfferConserves<Pkt>(q: Queue<Pkt>, pkt: Pkt)
    requires Conserves(q)
    ensures Conserves(Offer(q, pkt).0)
  {
    if q.held != [] {
      ReadLast(q.exits, Overwrote(q.held[0]));
      assert q.held == [q.held[0]] + q.held[1..];
    }
  }

  lemma TakeConserves<Pkt>(q: Queue<Pkt>, patient: bool)
    requires Conserves(q)
    ensures Conserves(Take(q, patient).0)
  {
    if q.held != [] {
      ReadLast(q.exits, Popped(q.held[0]));
      assert q.held == [q.held[0]] + q.held[1..];
    }
  }

  /** Reading `Conserves` under `kBlock` and `kError`: first in, first out. */
  lemma LosslessIsFifo<Pkt>(q: Queue<Pkt>)
    requires Conserves(q) && q.policy != Latest
    ensures q.accepted == PoppedIn(q.exits) + q.held
  {
    PoppedAmongLeft(q.exits);
  }

  /** Reading `Conserves` under every policy, `kLatest` included: the ring holds
      the newest accepted packets, what was popped is an in-order subsequence of
      the older ones, and the counts add up. */
  lemma HeldIsNewest<Pkt>(q: Queue<Pkt>)
    requires Conserves(q)
    ensures |q.held| <= |q.accepted|
    ensures q.held == q.accepted[|q.accepted| - |q.held|..]
    ensures Subsequence(PoppedIn(q.exits), q.accepted[..|q.accepted| - |q.held|])
    ensures |q.accepted| == |PoppedIn(q.exits)| + |EvictedIn(q.exits)| + |q.held|
  {
    PoppedAmongLeft(q.exits);
    assert q.accepted[..|q.accepted| - |q.held|] == Left(q.exits);
  }

  /** A packet is overwritten only by a push onto a full `kLatest` ring, it is
      the oldest one, and the newcomer takes its place. */
  lemma EvictsOldestWhenFull<Pkt>(q: Queue<Pkt>, pkt: Pkt)
    requires Conserves(q)
    ensures EvictedIn(Offer(q, pkt).0.exits) != EvictedIn(q.exits) <==>
            q.policy == Latest && !q.eos && |q.held| == q.capacity
    ensures q.policy == Latest && !q.eos && |q.held| == q.capacity ==>
              && EvictedIn(Offer(q, pkt).0.exits) == EvictedIn(q.exits) + [q.held[0]]
              && Offer(q, pkt).0.held == q.held[1..] + [pkt]
  {
    if q.held != [] {
      ReadLast(q.exits, Overwrote(q.held[0]));
    }
  }
}
