/** The slot array behind `Ring<Pkt>`: a fixed buffer indexed by `& mask`. */
module Ring {
  import opened Core
  import opened RingModel
  import Bits

  /** An index at most one lap past the end, brought back into range. */
  function Wrap(i: nat, capacity: nat): nat
    requires i < 2 * capacity
  {
    if i < capacity then i else i - capacity
  }

  /** The masked increment of the C++ code is this wrap, and both are reduction
      modulo the capacity. */
  lemma MaskWraps(i: nat, capacity: nat)
    requires Bits.IsPow2(capacity) && i < 2 * capacity
    ensures Wrap(i, capacity) == Bits.And(i, capacity - 1) == i % capacity
  {
    Bits.MaskIsModulo(capacity);
    assert Bits.And(i, capacity - 1) == i % capacity;
    Bits.DivideUniquely(i, capacity, if i < capacity then 0 else 1, Wrap(i, capacity));
  }

  /** How far slot `i` lies ahead of `head`, going round. */
  function Distance(head: nat, i: nat, capacity: nat): int {
    if head <= i then i - head else i - head + capacity
  }

  /** The slot `j` places ahead of `head`. */
  function Place(head: nat, j: nat, capacity: nat): (i: nat)
    requires head < capacity && j < capacity
    ensures i < capacity && Distance(head, i, capacity) == j
  {
    Wrap(head + j, capacity)
  }

  /** The packets in the `count` slots from `head`, going round. */
  ghost function Window<Pkt>(slots: seq<Option<Pkt>>, head: nat, count: nat): (w: seq<Pkt>)
    requires head < |slots| && count <= |slots|
    requires forall i :: 0 <= i < |slots| && Distance(head, i, |slots|) < count ==> slots[i].Some?
    ensures |w| == count
    ensures forall j :: 0 <= j < count ==> w[j] == slots[Place(head, j, |slots|)].value
  {
    seq(count, j requires 0 <= j < count => slots[Place(head, j, |slots|)].value)
  }

  /** One slot: `None` is a moved-from or default packet. */
  class Ring<Pkt> {
    const capacity: nat
    const mask: nat
    const policy: Policy
    const slots: array<Option<Pkt>>
    var head: nat
    var tail: nat
    var count: nat
    var eos: bool
    ghost var accepted: seq<Pkt>
    ghost var exits: seq<Exit<Pkt>>
    ghost var rejected: seq<Pkt>

    /** The window of `count` slots from `head` is full, every other slot empty. */
    ghost predicate Valid()
      reads this`head, this`tail, this`count, slots
    {
      && Bits.IsPow2(capacity)
      && mask == capacity - 1
      && slots.Length == capacity
      && head < capacity
      && count <= capacity
      && tail == Wrap(head + count, capacity)
      && (forall i :: 0 <= i < capacity ==> (slots[i].Some? <==> Distance(head, i, capacity) < count))
    }

    ghost function Held(): seq<Pkt>
      reads this`head, this`tail, this`count, slots
      requires Valid()
    {
      Window(slots[..], head, count)
    }

    /** The abstract queue this ring stands for. */
    ghost function Abs(): Queue<Pkt>
      reads this, slots
      requires Valid()
    {
      Queue(capacity, policy, Held(), eos, accepted, exits, rejected)
    }

    /** `Bits.CapacityTest`: the precondition is the constructor's own assertion. */
    constructor (capacity: nat, policy: Policy)
      requires 0 < capacity && Bits.And(capacity, capacity - 1) == 0
      ensures Valid() && fresh(slots)
      ensures Abs() == Fresh(capacity, policy)
    {
      Bits.CapacityTest(capacity);
      this.capacity, this.mask, this.policy := capacity, capacity - 1, policy;
      slots := new Option<Pkt>[capacity](_ => None);
      head, tail, count, eos := 0, 0, 0, false;
      accepted, exits, rejected := [], [], [];
    }

    /** One lock region of `Push`, from entry or from waking up on `not_full_`. */
    method Push(pkt: Pkt) returns (r: PushResult)
      requires Valid()
      modifies this, slots
      ensures Valid()
      ensures (Abs(), r) == Offer(old(Abs()), pkt)
      ensures r == Refused <==> old(eos) || (old(count) == capacity && policy == Error)
      ensures r == Parks <==> !old(eos) && old(count) == capacity && policy == Block
      ensures r == Stored ==>
                Held() == (if old(count) < capacity then old(Held()) else old(Held())[1..]) + [pkt]
      ensures r != Stored ==> Held() == old(Held())
      ensures eos == old(eos)
    {
      if eos {
        rejected := rejected + [pkt];
        return Refused;
      }
      if count == capacity {
        if policy == Error {
          rejected := rejected + [pkt];
          return Refused;
        }
        if policy == Latest {
          Evict();
        } else {
          return Parks;
        }
      }
      Store(pkt);
      r := Stored;
    }

    /** One lock region of `Pop`. */
    method Pop(patient: bool) returns (r: PopResult<Pkt>)
      requires Valid()
      modifies this, slots
      ensures Valid()
      ensures (Abs(), r) == Take(old(Abs()), patient)
      ensures r.Got? <==> old(count) > 0
      ensures r.Got? ==> r.pkt == old(Held())[0] && Held() == old(Held())[1..]
      ensures r == Ended <==> old(count) == 0 && eos
      ensures r == Waits <==> old(count) == 0 && !eos && patient
      ensures !r.Got? ==> Held() == old(Held())
      ensures eos == old(eos)
    {
      if count == 0 {
        return if eos then Ended else if patient then Waits else Nothing;
      }
      ghost var held := Held();
      assert held[0] == slots[head].value;
      r := Got(slots[head].value);
      Advance();
      exits := exits + [Popped(held[0])];
    }

    method MarkEos()
      requires Valid()
      modifies this
      ensures Valid()
      ensures Abs() == Close(old(Abs()))
      ensures eos && Held() == old(Held())
    {
      eos := true;
    }

    /** Drop the oldest packet to make room: the `kLatest` branch of `Push`. */
    method Evict()
      requires Valid() && 0 < count
      modifies this`head, this`count, this`exits, slots
      ensures Valid()
      ensures count == old(count) - 1 && Held() == old(Held())[1..]
      ensures exits == old(exits) + [Overwrote(old(Held())[0])]
    {
      ghost var held := Held();
      Advance();
      exits := exits + [Overwrote(held[0])];
    }

    /** Clear the slot at `head` and step over it. */
    method Advance()
      requires Valid() && 0 < count
      modifies this`head, this`count, slots
      ensures Valid()
      ensures count == old(count) - 1 && Held() == old(Held())[1..]
    {
      slots[head] := None;
      MaskWraps(head + 1, capacity);
      head := Bits.And(head + 1, mask);
      count := count - 1;
      forall j | 0 <= j < count ensures Held()[j] == old(Held())[1..][j] {
        assert Place(head, j, capacity) == Place(old(head), j + 1, capacity);
      }
    }

    /** Fill the slot at `tail` and step over it. */
    method Store(pkt: Pkt)
      requires Valid() && count < capacity
      modifies this`tail, this`count, this`accepted, slots
      ensures Valid()
      ensures count == old(count) + 1 && Held() == old(Held()) + [pkt]
      ensures accepted == old(accepted) + [pkt]
    {
      slots[tail] := Some(pkt);
      MaskWraps(tail + 1, capacity);
      tail := Bits.And(tail + 1, mask);
      count := count + 1;
      forall j | 0 <= j < count ensures Held()[j] == (old(Held()) + [pkt])[j] {
        assert Place(head, j, capacity) == old(tail) <==> j == count - 1;
      }
      accepted := accepted + [pkt];
    }
  }
}
