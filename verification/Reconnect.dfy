/** Exponential backoff in the machine arithmetic of `ReconnectHandler`, and the
    worker that ticks it about once a second. */
module Reconnect {
  import Bits

  /** `active` is a reconnect session; `attempt` counts its fires, `elapsed` the
      ticks since the last one. */
  datatype Handler = Handler(maxSeconds: nat, active: bool, attempt: nat, elapsed: nat)

  /** `OnDisconnected`. */
  function Begin(h: Handler): Handler {
    h.(active := true, attempt := 0, elapsed := 0)
  }

  /** `OnConnected`, and equally `Reset`. */
  function End(h: Handler): Handler {
    h.(active := false, attempt := 0, elapsed := 0)
  }

  /** Seconds in milliseconds, and one more, in 32 bits. */
  function Ms(seconds: nat): nat { seconds * 1000 % 0x1_0000_0000 }
  function Next(n: nat): nat { (n + 1) % 0x1_0000_0000 }

  /** `x << n` on 64 bits, one place at a time. */
  function ShiftLeft(x: nat, n: nat): nat {
    if n == 0 then x % 0x1_0000_0000_0000_0000 else 2 * ShiftLeft(x, n - 1) % 0x1_0000_0000_0000_0000
  }

  /** `uint64_t{1000} << min(attempt, 62)`. */
  function BackoffMs(attempt: nat): nat {
    ShiftLeft(1000, if attempt < 62 then attempt else 62)
  }

  function NextIntervalMs(h: Handler): nat {
    if BackoffMs(h.attempt) > Ms(h.maxSeconds) then Ms(h.maxSeconds) else BackoffMs(h.attempt)
  }

  /** One tick, and whether it fires the callback. */
  function Tick(h: Handler): (Handler, bool) {
    if !h.active then (h, false)
    else
      if Ms(Next(h.elapsed)) >= NextIntervalMs(h) then (h.(elapsed := 0, attempt := Next(h.attempt)), true)
      else (h.(elapsed := Next(h.elapsed)), false)
  }

  /** `n` ticks during which nothing else happens: the handler afterwards, and
      the numbers, from 1, of the ticks that fired. */
  function Trace(h: Handler, n: nat): (Handler, seq<nat>) {
    if n == 0 then (h, [])
    else
      var before := Trace(h, n - 1);
      var after := Tick(before.0);
      (after.0, if after.1 then before.1 + [n] else before.1)
  }

  // ----- The schedule -----

  /** Seconds before the fire number `k`, counted from 0. */
  function Gap(m: nat, k: nat): (g: nat)
    ensures 1 <= g && (g <= m || g == 1)
  {
    var p := Bits.Pow2(k);
    if m == 0 then 1 else if p < m then p else m
  }

  /** The tick of the k-th fire: a sum of gaps. */
  function FireTick(m: nat, k: nat): nat {
    if k == 0 then 0 else FireTick(m, k - 1) + Gap(m, k - 1)
  }

  function Schedule(m: nat, k: nat): seq<nat> {
    if k == 0 then [] else Schedule(m, k - 1) + [FireTick(m, k)]
  }

  /** 4294967 s is the longest cap whose milliseconds fit in 32 bits. */
  lemma CapFits(m: nat)
    ensures Ms(m) == 1000 * m <==> m <= 4294967
  {
  }

  lemma {:induction false} Pow2Grows(i: nat, j: nat)
    requires i <= j
    ensures Bits.Pow2(i) <= Bits.Pow2(j)
    decreases j
  {
    if i < j {
      Pow2Grows(i, j - 1);
    }
  }

  lemma {:induction false} ShiftIsExact(k: nat)
    requires k <= 54
    ensures ShiftLeft(1000, k) == 1000 * Bits.Pow2(k)
  {
    Pow2Below(k);
    if k > 0 {
      ShiftIsExact(k - 1);
    }
  }

  lemma Pow2Below(k: nat)
    requires k <= 54
    ensures Bits.Pow2(k) <= 0x40_0000_0000_0000
  {
    PowerOf54();
    Pow2Grows(k, 54);
  }

  lemma NineMore(k: nat)
    ensures Bits.Pow2(k + 9) == 512 * Bits.Pow2(k)
  {
    var p := Bits.Pow2(k);
    assert Bits.Pow2(k + 1) == 2 * p && Bits.Pow2(k + 2) == 4 * p && Bits.Pow2(k + 3) == 8 * p;
    assert Bits.Pow2(k + 4) == 16 * p && Bits.Pow2(k + 5) == 32 * p && Bits.Pow2(k + 6) == 64 * p;
    assert Bits.Pow2(k + 7) == 128 * p && Bits.Pow2(k + 8) == 256 * p;
  }

  lemma PowerOf54()
    ensures Bits.Pow2(54) == 0x40_0000_0000_0000
  {
    NineMore(0);
    NineMore(9);
    NineMore(18);
    NineMore(27);
    NineMore(36);
    NineMore(45);
  }

  lemma ShiftOnce(n: nat, v: nat, w: nat)
    requires ShiftLeft(1000, n) == v && w == 2 * v % 0x1_0000_0000_0000_0000
    ensures ShiftLeft(1000, n + 1) == w
  {
  }

  /** From place 54 on, bits of 1000 fall off the top. */
  lemma ShiftsOut(n: nat)
    requires ShiftLeft(1000, n) == 0xFA00_0000_0000_0000
    ensures ShiftLeft(1000, n + 1) == 0xF400_0000_0000_0000
    ensures ShiftLeft(1000, n + 2) == 0xE800_0000_0000_0000
    ensures ShiftLeft(1000, n + 3) == 0xD000_0000_0000_0000
    ensures ShiftLeft(1000, n + 4) == 0xA000_0000_0000_0000
    ensures ShiftLeft(1000, n + 5) == 0x4000_0000_0000_0000
    ensures ShiftLeft(1000, n + 6) == 0x8000_0000_0000_0000
    ensures ShiftLeft(1000, n + 7) == 0
    ensures ShiftLeft(1000, n + 8) == 0
  {
    ShiftOnce(n, 0xFA00_0000_0000_0000, 0xF400_0000_0000_0000);
    ShiftOnce(n + 1, 0xF400_0000_0000_0000, 0xE800_0000_0000_0000);
    ShiftOnce(n + 2, 0xE800_0000_0000_0000, 0xD000_0000_0000_0000);
    ShiftOnce(n + 3, 0xD000_0000_0000_0000, 0xA000_0000_0000_0000);
    ShiftOnce(n + 4, 0xA000_0000_0000_0000, 0x4000_0000_0000_0000);
    ShiftOnce(n + 5, 0x4000_0000_0000_0000, 0x8000_0000_0000_0000);
    ShiftOnce(n + 6, 0x8000_0000_0000_0000, 0);
    ShiftOnce(n + 7, 0, 0);
  }

  lemma LateShift(n: nat, k: nat)
    requires n == 54 && 55 <= k
    ensures k <= 60 ==> ShiftLeft(1000, k) > 0x1_0000_0000
    ensures k == 61 || k == 62 ==> ShiftLeft(1000, k) == 0
  {
    ShiftIsExact(n);
    PowerOf54();
    ShiftsOut(n);
    assert k == n + 1 || k == n + 2 || k == n + 3 || k == n + 4 || k == n + 5 || k == n + 6
        || k == n + 7 || k == n + 8 || k > n + 8;
  }

  /** The 64-bit shift is exact up to attempt 54, far above any cap from 55 to
      60, and zero from 61 on: 1000 << 61 is 125 * 2^64. */
  lemma ShiftedBackoff(k: nat)
    ensures k <= 54 ==> BackoffMs(k) == 1000 * Bits.Pow2(k)
    ensures 55 <= k <= 60 ==> BackoffMs(k) > 0x1_0000_0000
    ensures 61 <= k ==> BackoffMs(k) == 0
  {
    if k <= 54 {
      ShiftIsExact(k);
    } else {
      LateShift(54, if k < 62 then k else 62);
    }
  }

  /** Up to attempt 60 the interval is 2^attempt seconds capped at the maximum. */
  lemma IntervalUpTo60(m: nat, k: nat)
    requires m <= 4294967 && k <= 60
    ensures NextIntervalMs(Handler(m, true, k, 0)) == 1000 * (if Bits.Pow2(k) < m then Bits.Pow2(k) else m)
  {
    ShiftedBackoff(k);
    CapFits(m);
    if 55 <= k {
      PowerOf54();
      Pow2Grows(54, k);
    }
  }

  /** From the 62nd retry on the computed interval is 0 and every tick fires,
      whatever the cap. */
  lemma Collapse(h: Handler)
    requires h.active && 61 <= h.attempt
    ensures NextIntervalMs(h) == 0
    ensures Tick(h) == (h.(elapsed := 0, attempt := Next(h.attempt)), true)
  {
    ShiftedBackoff(h.attempt);
  }

  /** So the interval is the capped power of two of the design exactly up to
      attempt 60, unless the cap is 0 anyway. */
  lemma IntervalIff(m: nat, k: nat)
    requires m <= 4294967
    ensures NextIntervalMs(Handler(m, true, k, 0)) == 1000 * (if Bits.Pow2(k) < m then Bits.Pow2(k) else m) <==>
            k <= 60 || m == 0
  {
    if k <= 60 {
      IntervalUpTo60(m, k);
    } else {
      Collapse(Handler(m, true, k, 0));
    }
  }

  lemma Small(n: nat)
    requires n <= 4294967
    ensures Next(n) == n + 1 && Ms(n) == 1000 * n
  {
  }

  /** Within one gap: the ticks before its end do not fire, the last one does. */
  lemma TickInGap(h: Handler, e: nat)
    requires h.active && h.maxSeconds <= 4294967 && h.attempt <= 60 && h.elapsed == e
    requires e < Gap(h.maxSeconds, h.attempt)
    ensures e + 1 < Gap(h.maxSeconds, h.attempt) ==> Tick(h) == (h.(elapsed := e + 1), false)
    ensures e + 1 == Gap(h.maxSeconds, h.attempt) ==> Tick(h) == (h.(elapsed := 0, attempt := h.attempt + 1), true)
  {
    IntervalIsGap(h);
    Small(e);
    Small(h.attempt);
    Small(e + 1);
  }

  /** The comparison of a tick, in seconds. */
  lemma IntervalIsGap(h: Handler)
    requires h.maxSeconds <= 4294967 && h.attempt <= 60
    ensures Gap(h.maxSeconds, h.attempt) <= 4294967
    ensures forall e: nat :: e > 0 ==> (1000 * e >= NextIntervalMs(h) <==> e >= Gap(h.maxSeconds, h.attempt))
  {
    IntervalUpTo60(h.maxSeconds, h.attempt);
    assert NextIntervalMs(h) == NextIntervalMs(Handler(h.maxSeconds, true, h.attempt, 0));
  }

  /** After `n` ticks the handler is `e` ticks into the gap before fire `k`. */
  ghost predicate At(h: Handler, n: nat, k: nat, e: nat) {
    Trace(h, n) == (h.(active := true, attempt := k, elapsed := e), Schedule(h.maxSeconds, k))
  }

  lemma TickOn(h: Handler, n: nat, k: nat, e: nat)
    requires At(h, n, k, e) && h.maxSeconds <= 4294967 && k <= 60 && e + 1 < Gap(h.maxSeconds, k)
    ensures At(h, n + 1, k, e + 1)
  {
    TickInGap(h.(active := true, attempt := k, elapsed := e), e);
  }

  lemma TickFires(h: Handler, n: nat, k: nat, e: nat)
    requires At(h, n, k, e) && h.maxSeconds <= 4294967 && k <= 60 && e + 1 == Gap(h.maxSeconds, k)
    requires n + 1 == FireTick(h.maxSeconds, k + 1)
    ensures At(h, n + 1, k + 1, 0)
  {
    var g := h.(active := true, attempt := k, elapsed := e);
    TickInGap(g, e);
    FiredTrace(h, n, g);
    NextFire(h.maxSeconds, k);
  }

  lemma FiredTrace(h: Handler, n: nat, g: Handler)
    requires Trace(h, n).0 == g && Tick(g).1
    ensures Trace(h, n + 1) == (Tick(g).0, Trace(h, n).1 + [n + 1])
  {
  }

  lemma NextFire(m: nat, k: nat)
    ensures Schedule(m, k + 1) == Schedule(m, k) + [FireTick(m, k + 1)]
  {
  }

  lemma AtStart(h: Handler)
    requires h.active && h.attempt == 0 && h.elapsed == 0
    ensures At(h, 0, 0, 0) && FireTick(h.maxSeconds, 0) == 0
  {
  }

  /** Through one gap, from its start to its `e`-th tick. */
  lemma {:induction false} ThroughGap(h: Handler, n: nat, k: nat, e: nat)
    requires At(h, n, k, 0) && h.maxSeconds <= 4294967 && k <= 60 && e < Gap(h.maxSeconds, k)
    ensures At(h, n + e, k, e)
    decreases e
  {
    if e > 0 {
      ThroughGap(h, n, k, e - 1);
      TickOn(h, n + e - 1, k, e - 1);
    }
  }

  /** A fresh session that has fired `k` times, the last time just now. */
  ghost predicate Fired(h: Handler, k: nat) {
    At(h, FireTick(h.maxSeconds, k), k, 0)
  }

  lemma {:induction false} Progress(h: Handler, k: nat)
    requires h.active && h.attempt == 0 && h.elapsed == 0 && h.maxSeconds <= 4294967 && k <= 61
    ensures Fired(h, k)
    decreases k
  {
    if k == 0 {
      AtStart(h);
    } else {
      Progress(h, k - 1);
      FiresNext(h, k - 1, k);
    }
  }

  lemma FiresNext(h: Handler, k: nat, next: nat)
    requires Fired(h, k) && h.maxSeconds <= 4294967 && k <= 60 && next == k + 1
    ensures Fired(h, next)
  {
    GapThenFire(h, FireTick(h.maxSeconds, k), k);
  }

  lemma GapThenFire(h: Handler, n: nat, k: nat)
    requires At(h, n, k, 0) && h.maxSeconds <= 4294967 && k <= 60 && n == FireTick(h.maxSeconds, k)
    ensures At(h, FireTick(h.maxSeconds, k + 1), k + 1, 0)
  {
    var g := Gap(h.maxSeconds, k) - 1;
    ThroughGap(h, n, k, g);
    TickFires(h, n + g, k, g);
  }

  /** The k-th retry fires at tick sum over i < k of max(1, min(2^i, M)), for
      every k up to 61, and no other tick up to there fires. */
  lemma RetrySchedule(h: Handler, k: nat)
    requires h.maxSeconds <= 4294967 && k <= 61
    ensures Trace(Begin(h), FireTick(h.maxSeconds, k)) == (Begin(h).(attempt := k), Schedule(h.maxSeconds, k))
  {
    Progress(Begin(h), k);
  }

  /** While the cap is not reached the k-th retry comes at tick 2^k - 1. */
  lemma {:induction false} UncappedSchedule(m: nat, k: nat)
    requires k == 0 || Bits.Pow2(k - 1) <= m
    ensures FireTick(m, k) == Bits.Pow2(k) - 1
  {
    if k > 0 {
      Pow2Grows(if k == 1 then 0 else k - 2, k - 1);
      UncappedSchedule(m, k - 1);
    }
  }

  /** After that, a retry every M seconds. */
  lemma CappedGap(m: nat, k: nat)
    ensures 0 < m <= Bits.Pow2(k) ==> FireTick(m, k + 1) == FireTick(m, k) + m
  {
  }

  // ----- The handler object -----

  class ReconnectHandler {
    const maxSeconds: nat
    var active: bool
    var attempt: nat
    var elapsed: nat

    ghost function View(): Handler
      reads this
    {
      Handler(maxSeconds, active, attempt, elapsed)
    }

    constructor (maxSeconds: nat)
      ensures View() == Handler(maxSeconds, false, 0, 0)
    {
      this.maxSeconds, active, attempt, elapsed := maxSeconds, false, 0, 0;
    }

    method OnDisconnected()
      modifies this
      ensures View() == Begin(old(View()))
    {
      active, attempt, elapsed := true, 0, 0;
    }

    method OnConnected()
      modifies this
      ensures View() == End(old(View()))
    {
      active, attempt, elapsed := false, 0, 0;
    }

    /** `fire` tells the caller to run the callback now. */
    method Advance() returns (fire: bool)
      modifies this
      ensures (View(), fire) == Tick(old(View()))
    {
      if !active {
        return false;
      }
      elapsed := Next(elapsed);
      var interval := NextInterval();
      if Ms(elapsed) >= interval {
        elapsed := 0;
        attempt := Next(attempt);
        return true;
      }
      fire := false;
    }

    method NextInterval() returns (ms: nat)
      ensures ms == NextIntervalMs(View())
    {
      var maxMs := Ms(maxSeconds);
      var shift := if attempt < 62 then attempt else 62;
      var interval := ShiftLeft(1000, shift);
      ms := if interval > maxMs then maxMs else interval;
    }
  }

  // ----- The worker -----

  /** What `RunReconnectWorker` works on. `connects` counts its Connect calls. */
  datatype Worker = Worker(h: Handler, armed: bool, connects: nat)

  /** One wake-up of the loop; `ok` is the outcome of Connect if it is called. */
  function WakeUp(w: Worker, ok: bool): Worker {
    if !w.armed then w
    else
      var h := if w.h.active then w.h else Begin(w.h);
      match Tick(h)
      case (h', false) => w.(h := h')
      case (h', true) =>
        if ok then Worker(End(h'), false, w.connects + 1)
        else w.(h := h', connects := w.connects + 1)
  }

  /** Wake-ups during which every Connect fails. */
  function Failing(w: Worker, n: nat): Worker {
    if n == 0 then w else WakeUp(Failing(w, n - 1), false)
  }

  /** A session never overstays its gap. */
  ghost predicate Timely(h: Handler) {
    h.active ==> h.elapsed < (if h.attempt <= 60 then Gap(h.maxSeconds, h.attempt) else 1)
  }

  lemma WakeUpTimely(w: Worker, ok: bool)
    requires w.h.maxSeconds <= 4294967 && Timely(w.h)
    ensures Timely(WakeUp(w, ok).h) && WakeUp(w, ok).h.maxSeconds == w.h.maxSeconds
    ensures w.connects <= WakeUp(w, ok).connects
    ensures w.armed && (w.h.active && w.h.attempt > 60) ==> WakeUp(w, ok).connects == w.connects + 1
    ensures w.armed && WakeUp(w, ok).connects == w.connects ==>
              WakeUp(w, ok).armed && WakeUp(w, ok).h.active &&
              WakeUp(w, ok).h.elapsed == (if w.h.active then w.h.elapsed else 0) + 1 &&
              WakeUp(w, ok).h.attempt == (if w.h.active then w.h.attempt else 0) &&
              WakeUp(w, ok).h.attempt <= 60
  {
    var h := if w.h.active then w.h else Begin(w.h);
    if h.attempt > 60 {
      Collapse(h);
    } else {
      TickInGap(h, h.elapsed);
    }
  }

  /** A successful Connect disarms the worker: no wake-up calls it again. */
  lemma SuccessQuiets(w: Worker)
    requires w.armed && WakeUp(w, true).connects > w.connects
    ensures var v := WakeUp(w, true);
      && !v.armed && !v.h.active && v.h.attempt == 0
      && (forall ok :: WakeUp(v, ok) == v)
  {
  }

  lemma {:induction false} ScheduleLength(m: nat, k: nat)
    ensures |Schedule(m, k)| == k
  {
    if k > 0 {
      ScheduleLength(m, k - 1);
    }
  }

  lemma {:induction false} FailingTicks(w: Worker, n: nat)
    requires w.armed && !w.h.active
    ensures var v := Failing(w, n);
      && v.armed && (n > 0 ==> v.h == Trace(Begin(w.h), n).0)
      && v.connects == w.connects + |Trace(Begin(w.h), n).1|
      && Trace(Begin(w.h), n).0.active
  {
    if n > 0 {
      FailingTicks(w, n - 1);
    }
  }

  // ----- The worker over whole runs -----

  /** What happens to the worker: somebody arms it, or one of its waits ends. A wake
      that finds the stop flag ends the loop; `ok` is what Connect would return. */
  datatype Event = Arm | Wake(stop: bool, ok: bool)

  function Lived(w: Worker, events: seq<Event>): Worker
    decreases |events|
  {
    if events == [] then w
    else
      match events[0]
      case Arm => Lived(w.(armed := true), events[1..])
      case Wake(stop, ok) => if stop then w else Lived(WakeUp(w, ok), events[1..])
  }

  function Created(maxSeconds: nat): Worker {
    Worker(Handler(maxSeconds, false, 0, 0), false, 0)
  }

  predicate Stopped(events: seq<Event>) {
    exists e <- events :: e.Wake? && e.stop
  }

  function Wakes(events: seq<Event>): nat
    decreases |events|
  {
    if events == [] then 0 else (if events[0].Wake? then 1 else 0) + Wakes(events[1..])
  }

  /** What every run keeps. */
  ghost predicate Sound(w: Worker) {
    && w.h.maxSeconds <= 4294967 && Timely(w.h)
    && (!w.armed ==> !w.h.active)
    && (!w.h.active ==> w.h.attempt == 0 && w.h.elapsed == 0)
  }

  lemma WakeUpSound(w: Worker, ok: bool)
    requires Sound(w)
    ensures Sound(WakeUp(w, ok)) && WakeUp(w, ok).h.maxSeconds == w.h.maxSeconds
    ensures w.connects <= WakeUp(w, ok).connects
  {
    if w.armed {
      WakeUpTimely(w, ok);
    }
  }

  /** Over every run the session never overstays its gap, an unarmed worker has no
      session, and the cap stays. */
  lemma {:induction false} LivedSound(w: Worker, events: seq<Event>)
    requires Sound(w)
    ensures var v := Lived(w, events);
      Sound(v) && v.h.maxSeconds == w.h.maxSeconds && w.connects <= v.connects
    decreases |events|
  {
    if events != [] {
      match events[0]
      case Arm => LivedSound(w.(armed := true), events[1..]);
      case Wake(stop, ok) =>
        WakeUpSound(w, ok);
        LivedSound(WakeUp(w, ok), events[1..]);
    }
  }

  lemma TailNotStopped(events: seq<Event>)
    requires !Stopped(events) && events != []
    ensures !Stopped(events[1..]) && !(events[0].Wake? && events[0].stop)
  {
    assert forall e <- events[1..] :: e in events;
    assert events[0] in events;
  }

  lemma {:induction false} LivedConcat(w: Worker, a: seq<Event>, b: seq<Event>)
    requires !Stopped(a)
    ensures Lived(w, a + b) == Lived(Lived(w, a), b)
    decreases |a|
  {
    if a == [] {
      assert a + b == b;
    } else {
      TailNotStopped(a);
      assert (a + b)[1..] == a[1..] + b;
      match a[0]
      case Arm => LivedConcat(w.(armed := true), a[1..], b);
      case Wake(stop, ok) => LivedConcat(WakeUp(w, ok), a[1..], b);
    }
  }

  /** A wake-up that finds the stop flag is the last: whatever would follow, the worker
      does nothing more. */
  lemma {:induction false} StopEndsTheLoop(w: Worker, a: seq<Event>, ok: bool, b: seq<Event>)
    ensures Lived(w, a + [Wake(true, ok)] + b) == Lived(w, a)
    decreases |a|
  {
    var all := a + [Wake(true, ok)] + b;
    if a != [] {
      assert all[1..] == a[1..] + [Wake(true, ok)] + b;
      match a[0]
      case Arm => StopEndsTheLoop(w.(armed := true), a[1..], ok, b);
      case Wake(stop, o) => if !stop { StopEndsTheLoop(WakeUp(w, o), a[1..], ok, b); }
    } else {
      assert all[0] == Wake(true, ok);
    }
  }

  /** Every reachable worker is sound. */
  lemma Reachable(m: nat, events: seq<Event>)
    requires m <= 4294967
    ensures Sound(Lived(Created(m), events)) && Lived(Created(m), events).h.maxSeconds == m
  {
    LivedSound(Created(m), events);
  }

  // ----- Armed: the attempts keep coming -----

  /** Ticks since the last fire. */
  function Waited(w: Worker): nat {
    if w.h.active then w.h.elapsed else 0
  }

  lemma Waits(w: Worker, ok: bool)
    requires Sound(w) && w.armed && WakeUp(w, ok).connects == w.connects
    ensures var v := WakeUp(w, ok); v.armed && v.h.active && Waited(v) == Waited(w) + 1
  {
    WakeUpTimely(w, ok);
  }

  /** As long as no Connect is made every wake-up is one more tick of waiting. */
  lemma {:induction false} WaitingGrows(w: Worker, events: seq<Event>)
    requires Sound(w) && w.armed && !Stopped(events)
    requires Lived(w, events).connects == w.connects
    ensures var v := Lived(w, events);
      && Waited(v) == Waited(w) + Wakes(events)
      && (Wakes(events) > 0 ==> v.h.active)
    decreases |events|
  {
    if events != [] {
      TailNotStopped(events);
      match events[0]
      case Arm =>
        assert w.(armed := true) == w;
        WaitingGrows(w, events[1..]);
      case Wake(stop, ok) =>
        WakeUpSound(w, ok);
        LivedSound(WakeUp(w, ok), events[1..]);
        Waits(w, ok);
        WaitingGrows(WakeUp(w, ok), events[1..]);
    }
  }

  /** In every run: while the worker is armed and not stopped, any max(1, M)
      consecutive wake-ups contain a Connect, whatever else happens. */
  lemma ConnectsKeepComing(m: nat, events: seq<Event>, more: seq<Event>)
    requires m <= 4294967 && !Stopped(events) && !Stopped(more)
    requires Lived(Created(m), events).armed
    requires Wakes(more) >= 1 && Wakes(more) >= m
    ensures Lived(Created(m), events + more).connects > Lived(Created(m), events).connects
  {
    var w := Lived(Created(m), events);
    Reachable(m, events);
    LivedConcat(Created(m), events, more);
    LivedSound(w, more);
    if Lived(w, more).connects == w.connects {
      WaitingGrows(w, more);
    }
  }

  // ----- Disarmed: quiet until the next outage -----

  lemma {:induction false} UnarmedRests(w: Worker, events: seq<Event>)
    requires !w.armed && Arm !in events
    ensures Lived(w, events) == w
    decreases |events|
  {
    if events != [] {
      assert events[0] in events;
      assert Arm !in events[1..];
      UnarmedRests(w, events[1..]);
    }
  }

  /** In every run: from a disarmed worker, as a successful Connect leaves it, no
      Connect comes until somebody arms it again. */
  lemma QuietUntilArmed(m: nat, events: seq<Event>, more: seq<Event>)
    requires !Stopped(events) && !Lived(Created(m), events).armed && Arm !in more
    ensures Lived(Created(m), events + more) == Lived(Created(m), events)
  {
    LivedConcat(Created(m), events, more);
    UnarmedRests(Lived(Created(m), events), more);
  }

  // ----- A new outage: the schedule starts over -----

  predicate AllFail(events: seq<Event>) {
    forall e <- events :: e.Wake? ==> !e.stop && !e.ok
  }

  lemma {:induction false} FailingFirst(w: Worker, n: nat)
    ensures Failing(WakeUp(w, false), n) == Failing(w, n + 1)
  {
    if n > 0 {
      FailingFirst(w, n - 1);
    }
  }

  lemma {:induction false} LivedFailing(w: Worker, events: seq<Event>)
    requires w.armed && AllFail(events)
    ensures Lived(w, events) == Failing(w, Wakes(events))
    decreases |events|
  {
    if events != [] {
      assert events[0] in events;
      assert forall e <- events[1..] :: e in events;
      match events[0]
      case Arm =>
        assert w.(armed := true) == w;
        LivedFailing(w, events[1..]);
      case Wake(stop, ok) =>
        LivedFailing(WakeUp(w, false), events[1..]);
        FailingFirst(w, Wakes(events[1..]));
    }
  }

  lemma FailingSchedule(w: Worker, n: nat, k: nat)
    requires w.armed && !w.h.active && w.h.maxSeconds <= 4294967
    requires k <= 61 && n == FireTick(w.h.maxSeconds, k)
    ensures Failing(w, n).connects == w.connects + k
  {
    FailingTicks(w, n);
    RetrySchedule(w.h, k);
    ScheduleLength(w.h.maxSeconds, k);
  }

  /** In every run each new outage starts the schedule over: armed after being
      disarmed, with every Connect failing, the worker makes its k-th at wake-up
      FireTick(k) counted from there. */
  lemma OutageRestartsSchedule(m: nat, events: seq<Event>, more: seq<Event>, k: nat)
    requires m <= 4294967 && !Stopped(events) && !Lived(Created(m), events).armed
    requires AllFail(more) && k <= 61 && Wakes(more) == FireTick(m, k)
    ensures Lived(Created(m), events + ([Arm] + more)).connects == Lived(Created(m), events).connects + k
  {
    var w := Lived(Created(m), events);
    Reachable(m, events);
    LivedConcat(Created(m), events, [Arm] + more);
    assert ([Arm] + more)[1..] == more;
    LivedFailing(w.(armed := true), more);
    FailingSchedule(w.(armed := true), Wakes(more), k);
  }

  class ReconnectWorker {
    const handler: ReconnectHandler
    var armed: bool
    var connects: nat

    ghost function View(): Worker
      reads this, handler
    {
      Worker(handler.View(), armed, connects)
    }

    constructor (maxSeconds: nat)
      ensures fresh(handler) && View() == Created(maxSeconds)
    {
      handler := new ReconnectHandler(maxSeconds);
      armed, connects := false, 0;
    }

    method AttemptReconnect(ok: bool)
      modifies this, handler
      ensures View() == if ok then Worker(End(old(handler.View())), false, old(connects) + 1)
                        else old(View()).(connects := old(connects) + 1)
    {
      connects := connects + 1;
      if ok {
        handler.OnConnected();
        armed := false;
      }
    }

    /** The loop of the worker thread, between whose waits others may arm it. */
    method RunReconnectWorker(events: seq<Event>)
      modifies this, handler
      ensures View() == Lived(old(View()), events)
    {
      var i := 0;
      while i < |events|
        invariant i <= |events|
        invariant Lived(View(), events[i..]) == Lived(old(View()), events)
      {
        assert events[i..][1..] == events[i + 1..];
        if events[i].Arm? {
          armed := true;
        } else if events[i].stop {
          return;
        } else {
          Turn(events[i].ok);
        }
        i := i + 1;
      }
    }

    method Turn(ok: bool)
      modifies this, handler
      ensures View() == WakeUp(old(View()), ok)
    {
      if !armed {
        return;
      }
      if !handler.active {
        handler.OnDisconnected();
      }
      var fire := handler.Advance();
      if fire {
        AttemptReconnect(ok);
      }
    }
  }
}
