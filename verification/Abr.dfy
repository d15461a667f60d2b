/** The adaptive bitrate controller, in 32-bit unsigned arithmetic. */
module Abr {

  const MODULUS := 0x1_0000_0000

  function Add32(a: int, b: int): nat { (a + b) % 0x1_0000_0000 }
  function Sub32(a: int, b: int): nat { (a - b) % 0x1_0000_0000 }
  function Max(a: int, b: int): int { if a < b then b else a }
  function Min(a: int, b: int): int { if b < a then b else a }

  /** Rates in kbit/s and the number of good updates since the last change. */
  datatype Controller = Controller(rate: nat, min: nat, max: nat, good: nat) {
    predicate InBounds() {
      min <= rate <= max && good < 5
    }
  }

  /** One report of packet loss, in percent. */
  function Update(c: Controller, loss: real): Controller {
    if loss > 5.0 then
      c.(rate := Max(Sub32(c.rate, Max(c.rate / 2, 100)), c.min), good := 0)
    else if loss > 2.0 then
      c.(rate := Max(Sub32(c.rate, Max(c.rate / 4, 50)), c.min), good := 0)
    else if c.good + 1 >= 5 then
      c.(rate := Min(Add32(c.rate, Max(c.rate / 8, 50)), c.max), good := 0)
    else
      c.(good := c.good + 1)
  }

  function Run(c: Controller, losses: seq<real>): (c': Controller)
    ensures c'.min == c.min && c'.max == c.max
    decreases |losses|
  {
    if losses == [] then c else Run(Update(c, losses[0]), losses[1..])
  }

  /** `Reset`: after a connect the rate starts from the maximum. */
  function Restart(c: Controller): Controller {
    c.(rate := c.max, good := 0)
  }

  /** The bounds for which no subtraction or addition wraps. */
  predicate NoWrap(min: nat, max: nat) {
    100 <= min && max + max / 8 < MODULUS
  }

  lemma Fits32(a: nat, b: nat)
    requires a < MODULUS && b < MODULUS
    ensures b <= a ==> Sub32(a, b) == a - b
    ensures a + b < MODULUS ==> Add32(a, b) == a + b
  {
  }

  lemma UpdateKeepsBounds(c: Controller, loss: real)
    requires c.InBounds() && NoWrap(c.min, c.max)
    ensures Update(c, loss).InBounds()
    ensures loss > 5.0 ==> Update(c, loss).rate <= Max(c.rate - 100, c.min)
    ensures loss > 2.0 ==> Update(c, loss).rate <= c.rate && Update(c, loss).good == 0
    ensures loss <= 2.0 ==> c.rate <= Update(c, loss).rate
    ensures loss <= 2.0 && c.good < 4 ==> Update(c, loss) == c.(good := c.good + 1)
    ensures loss <= 2.0 && c.good == 4 ==>
              Update(c, loss).rate >= Min(c.rate + 50, c.max) && Update(c, loss).good == 0
  {
    Fits32(c.rate, Max(c.rate / 2, 100));
    Fits32(c.rate, Max(c.rate / 4, 50));
    Fits32(c.rate, Max(c.rate / 8, 50));
  }

  /** Within bounds the new rate is exact: heavy loss takes half, moderate loss a
      quarter, but at least 100 and 50 kbit/s and never below the minimum; the fifth
      good report in a row adds an eighth, at least 50, up to the maximum. */
  lemma UpdateIsExact(c: Controller, loss: real)
    requires c.InBounds() && NoWrap(c.min, c.max)
    ensures loss > 5.0 ==>
              Update(c, loss) == Controller(
                if c.rate < 200 then (if c.rate - 100 < c.min then c.min else c.rate - 100)
                else if c.rate - c.rate / 2 < c.min then c.min else c.rate - c.rate / 2, c.min, c.max, 0)
    ensures 2.0 < loss <= 5.0 ==>
              Update(c, loss) == Controller(
                if c.rate < 200 then (if c.rate - 50 < c.min then c.min else c.rate - 50)
                else if c.rate - c.rate / 4 < c.min then c.min else c.rate - c.rate / 4, c.min, c.max, 0)
    ensures loss <= 2.0 && c.good == 4 ==>
              Update(c, loss) == Controller(
                if c.rate < 400 then (if c.rate + 50 > c.max then c.max else c.rate + 50)
                else if c.rate + c.rate / 8 > c.max then c.max else c.rate + c.rate / 8, c.min, c.max, 0)
    ensures loss <= 2.0 && c.good < 4 ==> Update(c, loss) == Controller(c.rate, c.min, c.max, c.good + 1)
  {
    Fits32(c.rate, Max(c.rate / 2, 100));
    Fits32(c.rate, Max(c.rate / 4, 50));
    Fits32(c.rate, Max(c.rate / 8, 50));
  }

  /** The class of a report is all that matters of it. */
  lemma OnlyTheClassCounts(c: Controller, a: real, b: real)
    requires (a > 5.0 <==> b > 5.0) && (a > 2.0 <==> b > 2.0)
    ensures Update(c, a) == Update(c, b)
  {
  }

  /** With these bounds every run of reports stays inside them. */
  lemma {:induction false} RunKeepsBounds(c: Controller, losses: seq<real>)
    requires c.InBounds() && NoWrap(c.min, c.max)
    ensures Run(c, losses).InBounds()
    decreases |losses|
  {
    if losses != [] {
      UpdateKeepsBounds(c, losses[0]);
      RunKeepsBounds(Update(c, losses[0]), losses[1..]);
    }
  }

  /** Exactly which bounds a report can never escape: those where nothing wraps,
      and the bounds that are no bounds at all. */
  lemma BoundsKeptIff(min: nat, max: nat)
    requires min <= max < MODULUS
    ensures (forall c: Controller, loss :: c.min == min && c.max == max && c.InBounds() ==> Update(c, loss).InBounds()) <==>
            NoWrap(min, max) || (min == 0 && max == MODULUS - 1)
  {
    if NoWrap(min, max) {
      forall c: Controller, loss | c.min == min && c.max == max && c.InBounds() ensures Update(c, loss).InBounds() {
        UpdateKeepsBounds(c, loss);
      }
    } else if min < 100 && max < MODULUS - 1 {
      // A cut of 100 from a rate below 100 wraps to just under 2^32.
      var c := Controller(Min(99, max), min, max, 0);
      assert Sub32(c.rate, 100) == MODULUS + c.rate - 100;
      assert c.InBounds() && !Update(c, 6.0).InBounds();
    } else if min != 0 {
      // 3817748708 is the least rate whose eighth carries it to 2^32.
      var c := Controller(Max(min, 3817748708), min, max, 4);
      assert 100 <= min ==> max >= 3817748708;
      assert Add32(c.rate, Max(c.rate / 8, 50)) == c.rate + c.rate / 8 - MODULUS < min;
      assert c.InBounds() && !Update(c, 0.0).InBounds();
    } else {
      assert min == 0 && max == MODULUS - 1;
    }
  }

  // ----- How fast it moves -----

  /** How many of the reports raised the rate. */
  function Rises(c: Controller, losses: seq<real>): nat
    decreases |losses|
  {
    if losses == [] then 0
    else
      var c' := Update(c, losses[0]);
      (if c'.rate > c.rate then 1 else 0) + Rises(c', losses[1..])
  }

  /** In any window of reports the rate rises at most once per five. */
  lemma {:induction false} RisesAreRare(c: Controller, losses: seq<real>)
    requires c.InBounds() && NoWrap(c.min, c.max)
    ensures 5 * Rises(c, losses) + Run(c, losses).good <= |losses| + c.good
    decreases |losses|
  {
    if losses != [] {
      UpdateKeepsBounds(c, losses[0]);
      RisesAreRare(Update(c, losses[0]), losses[1..]);
    }
  }

  /** Heavy loss brings the rate down to the minimum, 100 kbit/s a report at least. */
  lemma {:induction false} SustainedLossReachesMin(c: Controller, losses: seq<real>)
    requires c.InBounds() && NoWrap(c.min, c.max)
    requires forall i :: 0 <= i < |losses| ==> losses[i] > 5.0
    requires c.rate - c.min <= 100 * |losses|
    ensures Run(c, losses).rate == c.min
    decreases |losses|
  {
    if losses != [] {
      UpdateKeepsBounds(c, losses[0]);
      SustainedLossReachesMin(Update(c, losses[0]), losses[1..]);
    }
  }

  /** Moderate loss too brings the rate down to the minimum, 50 kbit/s a report at least. */
  lemma {:induction false} ModerateLossReachesMin(c: Controller, losses: seq<real>)
    requires c.InBounds() && NoWrap(c.min, c.max)
    requires forall i :: 0 <= i < |losses| ==> losses[i] > 2.0
    requires c.rate - c.min <= 50 * |losses|
    ensures Run(c, losses).rate == c.min
    decreases |losses|
  {
    if losses != [] {
      UpdateKeepsBounds(c, losses[0]);
      UpdateIsExact(c, losses[0]);
      ModerateLossReachesMin(Update(c, losses[0]), losses[1..]);
    }
  }

  lemma RunOneMore(c: Controller, losses: seq<real>, loss: real)
    ensures Run(c, losses + [loss]) == Update(Run(c, losses), loss)
  {
    RunConcat(c, losses, [loss]);
    assert Run(Update(Run(c, losses), loss), []) == Update(Run(c, losses), loss);
    assert [loss][1..] == [];
  }

  /** Any five good reports in a row contain exactly one rise. */
  lemma {:induction false} FiveGood(c: Controller, losses: seq<real>, n: nat)
    requires c.InBounds() && NoWrap(c.min, c.max)
    requires |losses| == n <= 5
    requires forall i :: 0 <= i < |losses| ==> losses[i] <= 2.0
    ensures var c' := Run(c, losses);
      && c'.rate >= c.rate
      && (c.good + n < 5 ==> c' == c.(good := c.good + n))
      && (c.good + n >= 5 ==> c'.rate >= Min(c.rate + 50, c.max) && c'.good == c.good + n - 5)
    decreases n
  {
    if n != 0 {
      UpdateKeepsBounds(c, losses[0]);
      FiveGood(Update(c, losses[0]), losses[1..], n - 1);
    }
  }

  lemma {:induction false} RunConcat(c: Controller, a: seq<real>, b: seq<real>)
    ensures Run(c, a + b) == Run(Run(c, a), b)
    decreases |a|
  {
    if a == [] {
      assert a + b == b;
    } else {
      assert (a + b)[1..] == a[1..] + b;
      RunConcat(Update(c, a[0]), a[1..], b);
    }
  }

  /** Good reports bring the rate up to the maximum, 50 kbit/s per five at least. */
  lemma {:induction false} SustainedGoodReachesMax(c: Controller, losses: seq<real>, n: nat)
    requires c.InBounds() && NoWrap(c.min, c.max)
    requires |losses| == 5 * n && c.max - c.rate <= 50 * n
    requires forall i :: 0 <= i < |losses| ==> losses[i] <= 2.0
    ensures Run(c, losses).rate == c.max
    decreases n
  {
    if n != 0 {
      var a, b := losses[..5], losses[5..];
      assert losses == a + b;
      RunConcat(c, a, b);
      FiveGood(c, a, 5);
      RunKeepsBounds(c, a);
      SustainedGoodReachesMax(Run(c, a), b, n - 1);
    }
  }

  class AbrController {
    var rate: nat
    const min: nat
    const max: nat
    var good: nat

    ghost function View(): Controller
      reads this
    {
      Controller(rate, min, max, good)
    }

    constructor (initial: nat, min: nat, max: nat)
      requires min <= max
      ensures View().InBounds()
      ensures rate == if initial < min then min else if initial > max then max else initial
      ensures this.min == min && this.max == max && good == 0
    {
      this.min, this.max := min, max;
      rate := if initial < min then min else if max < initial then max else initial;
      good := 0;
    }

    method Report(loss: real)
      modifies this
      ensures View() == Update(old(View()), loss)
    {
      if loss > 5.0 {
        var reduction := Max(rate / 2, 100);
        rate := Max(Sub32(rate, reduction), min);
        good := 0;
      } else if loss > 2.0 {
        var reduction := Max(rate / 4, 50);
        rate := Max(Sub32(rate, reduction), min);
        good := 0;
      } else {
        good := good + 1;
        if good >= 5 {
          var increase := Max(rate / 8, 50);
          rate := Min(Add32(rate, increase), max);
          good := 0;
        }
      }
    }

    method Reset()
      requires min <= max
      modifies this
      ensures View() == Restart(old(View())) && View().InBounds()
    {
      rate := max;
      good := 0;
    }
  }
}
