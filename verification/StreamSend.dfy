/** Sending on a stream session: the counters that account for every frame, the
    back-pressure count that silences audio, and the bitrate update. */
module StreamSend {
  import opened Core
  import Abr
  import opened StreamLifecycle

  /** What a status callback of the backend carries. `guarded` says that there is
      a reconnect handler and no stop under way. */
  datatype Report = Report(phase: Phase, sent: nat, dropped: nat, guarded: bool)

  datatype Session = Session(
    phase: Phase,
    backend: bool,
    sent: nat,
    dropped: nat,
    pressure: nat,
    abr: Abr.Controller)

  /** What happens to a session. `answer` is what the backend returns if it is
      called, `during` what it reports while the call is in progress. */
  datatype Call =
    | Video(answer: Status, during: seq<Report>, loss: real)
    | Audio(answer: Status, during: seq<Report>)
    | Reported(report: Report)
    | Published(phase: Phase)
    | Connected     // Start or a retry connected

  /** A send that reached the backend. */
  datatype Attempt = Attempt(video: bool, ok: bool)

  predicate VideoGate(s: Session) { AtLeastConfigured(s.phase) && s.backend }

  predicate AudioGate(s: Session) { s.phase.Streaming? && s.backend }

  predicate Suppressed(s: Session) { AudioGate(s) && s.pressure >= 100 }

  /** `OnBackendStatusChange`: the backend's status replaces the session's. */
  function Overwrite(s: Session, r: Report): Session {
    s.(phase := if r.phase.Disconnected? && Active(s.phase) && r.guarded then Reconnecting else r.phase,
       sent := r.sent,
       dropped := r.dropped)
  }

  function OverwriteAll(s: Session, rs: seq<Report>): Session {
    if rs == [] then s else Overwrite(OverwriteAll(s, rs[..|rs| - 1]), rs[|rs| - 1])
  }

  /** Arithmetic on `uint32_t`. */
  function Wrap(n: nat): nat { n % 0x1_0000_0000 }

  function Account(s: Session, ok: bool): Session {
    if ok then s.(sent := s.sent + 1, pressure := 0)
    else s.(dropped := s.dropped + 1, pressure := Wrap(s.pressure + 1))
  }

  function Adapt(s: Session, loss: real): Session {
    if s.phase.Streaming? then s.(abr := Abr.Update(s.abr, loss)) else s
  }

  function Serve(s: Session, c: Call): Session {
    match c
    case Video(answer, during, loss) =>
      if VideoGate(s) then Adapt(Account(OverwriteAll(s, during), answer.Ok?), loss) else s
    case Audio(answer, during) =>
      if Suppressed(s) then s.(dropped := s.dropped + 1)
      else if AudioGate(s) then Account(OverwriteAll(s, during), answer.Ok?)
      else s
    case Reported(r) => if s.backend then Overwrite(s, r) else s
    case Published(p) => if p.Streaming? && !s.backend then s else s.(phase := p)
    case Connected => if s.backend then s.(abr := Abr.Restart(s.abr), phase := Streaming) else s
  }

  function Served(s: Session, calls: seq<Call>): Session {
    if calls == [] then s else Serve(Served(s, calls[..|calls| - 1]), calls[|calls| - 1])
  }

  /** The send, if any, that a call hands to the backend. */
  function Reached(s: Session, c: Call): seq<Attempt> {
    if c.Video? && VideoGate(s) then [Attempt(true, c.answer.Ok?)]
    else if c.Audio? && AudioGate(s) && !Suppressed(s) then [Attempt(false, c.answer.Ok?)]
    else []
  }

  function Attempts(s: Session, calls: seq<Call>): seq<Attempt> {
    if calls == [] then []
    else
      var front := calls[..|calls| - 1];
      Attempts(s, front) + Reached(Served(s, front), calls[|calls| - 1])
  }

  // ----- The back-pressure count -----

  /** Failed attempts since the last success. */
  function FailedSince(a: seq<Attempt>): (n: nat)
    ensures n <= |a|
    ensures forall i :: |a| - n <= i < |a| ==> !a[i].ok
    ensures n < |a| ==> a[|a| - n - 1].ok
  {
    if a == [] || a[|a| - 1].ok then 0 else 1 + FailedSince(a[..|a| - 1])
  }

  lemma FailedOneMore(a: seq<Attempt>, x: Attempt)
    ensures FailedSince(a + [x]) == if x.ok then 0 else FailedSince(a) + 1
  {
    assert (a + [x])[..|a|] == a;
  }

  lemma {:induction false} ReportsLeavePressure(s: Session, rs: seq<Report>)
    ensures var t := OverwriteAll(s, rs);
      t.pressure == s.pressure && t.backend == s.backend && t.abr == s.abr
  {
    if rs != [] {
      ReportsLeavePressure(s, rs[..|rs| - 1]);
    }
  }

  lemma StepPressure(s: Session, c: Call)
    ensures Reached(s, c) == [] ==> Serve(s, c).pressure == s.pressure
    ensures forall x <- Reached(s, c) ::
              Reached(s, c) == [x] &&
              Serve(s, c).pressure == if x.ok then 0 else Wrap(s.pressure + 1)
  {
    if c.Video? || c.Audio? {
      ReportsLeavePressure(s, c.during);
    }
  }

  lemma PressureStep(s: Session, before: seq<Attempt>, c: Call)
    requires s.pressure == Wrap(FailedSince(before))
    ensures Serve(s, c).pressure == Wrap(FailedSince(before + Reached(s, c)))
  {
    StepPressure(s, c);
    if Reached(s, c) == [] {
      assert before + [] == before;
    } else {
      var x := Reached(s, c)[0];
      assert x in Reached(s, c);
      FailedOneMore(before, x);
      WrapNext(FailedSince(before));
    }
  }

  lemma WrapNext(n: nat)
    ensures Wrap(Wrap(n) + 1) == Wrap(n + 1)
    ensures n < 0x1_0000_0000 ==> Wrap(n) == n
  {
  }

  /** Over every run, whatever is reported meanwhile, the count is the number of
      failed sends since the last success (in 32 bits). */
  lemma {:induction false} PressureCountsFailures(s: Session, calls: seq<Call>)
    requires s.pressure == 0
    ensures Served(s, calls).pressure == Wrap(FailedSince(Attempts(s, calls)))
  {
    if calls != [] {
      var front, c := calls[..|calls| - 1], calls[|calls| - 1];
      PressureCountsFailures(s, front);
      PressureStep(Served(s, front), Attempts(s, front), c);
    }
  }

  /** What SendAudio returns. */
  function AudioStatus(s: Session, c: Call): Status
    requires c.Audio?
  {
    if AudioGate(s) then (if s.pressure >= 100 then Ok else c.answer)
    else if AtLeastConfigured(s.phase) then UnsupportedOperation
    else NotInitialized
  }

  /** Audio of a streaming session is dropped without reaching the backend, and
      reported as kOk, exactly when at least 100 sends in a row have failed. */
  lemma AudioDroppedIff(s: Session, calls: seq<Call>, c: Call)
    requires s.pressure == 0 && |calls| < 0x1_0000_0000
    requires c.Audio? && AudioGate(Served(s, calls))
    ensures var now := Served(s, calls);
      var drop := FailedSince(Attempts(s, calls)) >= 100;
      && (Reached(now, c) == [] <==> drop)
      && (drop ==> Serve(now, c) == now.(dropped := now.dropped + 1) && AudioStatus(now, c) == Ok)
  {
    PressureCountsFailures(s, calls);
    FewAttempts(s, calls);
    WrapNext(FailedSince(Attempts(s, calls)));
    AudioDrop(Served(s, calls), c);
  }

  lemma AudioDrop(s: Session, c: Call)
    requires c.Audio? && AudioGate(s)
    ensures Reached(s, c) == [] <==> s.pressure >= 100
    ensures s.pressure >= 100 ==>
              Serve(s, c) == s.(dropped := s.dropped + 1) && AudioStatus(s, c) == Ok
  {
  }

  lemma {:induction false} FewAttempts(s: Session, calls: seq<Call>)
    ensures |Attempts(s, calls)| <= |calls|
  {
    if calls != [] {
      FewAttempts(s, calls[..|calls| - 1]);
    }
  }

  /** Once audio is silenced only a video send that succeeds brings it back: in a
      run without one, no audio reaches the backend. */
  lemma {:induction false} AudioStarves(s: Session, calls: seq<Call>)
    requires 100 <= s.pressure && s.pressure + |calls| < 0x1_0000_0000
    requires forall x <- Attempts(s, calls) :: x.video ==> !x.ok
    ensures forall x <- Attempts(s, calls) :: x.video
    ensures s.pressure <= Served(s, calls).pressure <= s.pressure + |calls|
  {
    if calls != [] {
      var front, c := calls[..|calls| - 1], calls[|calls| - 1];
      BothParts(Attempts(s, front), Reached(Served(s, front), c));
      AudioStarves(s, front);
      StarvedStep(Served(s, front), c);
    }
  }

  lemma BothParts(a: seq<Attempt>, b: seq<Attempt>)
    ensures forall x <- a :: x in a + b
    ensures forall x <- b :: x in a + b
  {
  }

  lemma StarvedStep(s: Session, c: Call)
    requires 100 <= s.pressure && s.pressure + 1 < 0x1_0000_0000
    requires forall x <- Reached(s, c) :: x.video ==> !x.ok
    ensures forall x <- Reached(s, c) :: x.video
    ensures s.pressure <= Serve(s, c).pressure <= s.pressure + 1
  {
    StepPressure(s, c);
    WrapNext(s.pressure + 1);
    if Reached(s, c) != [] {
      assert Reached(s, c)[0] in Reached(s, c);
    }
  }

  // ----- Accounting between reports -----

  predicate Passes(s: Session, c: Call) {
    (c.Video? && VideoGate(s)) || (c.Audio? && AudioGate(s))
  }

  /** How many sends of a run pass the gates. */
  function Passed(s: Session, calls: seq<Call>): nat {
    if calls == [] then 0
    else
      var front := calls[..|calls| - 1];
      Passed(s, front) + if Passes(Served(s, front), calls[|calls| - 1]) then 1 else 0
  }

  function Succeeded(a: seq<Attempt>): nat {
    if a == [] then 0 else Succeeded(a[..|a| - 1]) + if a[|a| - 1].ok then 1 else 0
  }

  lemma SucceededOneMore(a: seq<Attempt>, x: Attempt)
    ensures Succeeded(a + [x]) == Succeeded(a) + if x.ok then 1 else 0
  {
    assert (a + [x])[..|a|] == a;
  }

  /** No report from the backend, in or between the calls. */
  predicate Quiet(c: Call) {
    !c.Reported? && ((c.Video? || c.Audio?) ==> c.during == [])
  }

  lemma OneSucceeds(x: Attempt)
    ensures Succeeded([x]) == if x.ok then 1 else 0
  {
    assert [x] == [] + [x];
    SucceededOneMore([], x);
  }

  lemma QuietTotals(s: Session, c: Call)
    requires Quiet(c)
    ensures var t := Serve(s, c);
      t.sent + t.dropped == s.sent + s.dropped + if Passes(s, c) then 1 else 0
  {
  }

  lemma QuietSent(s: Session, c: Call)
    requires Quiet(c)
    ensures Serve(s, c).sent == s.sent + Succeeded(Reached(s, c))
  {
    if Reached(s, c) != [] {
      OneSucceeds(Reached(s, c)[0]);
    }
  }

  lemma SucceededJoins(a: seq<Attempt>, s: Session, c: Call)
    ensures Succeeded(a + Reached(s, c)) == Succeeded(a) + Succeeded(Reached(s, c))
  {
    if Reached(s, c) == [] {
      assert a + [] == a;
    } else {
      var x := Reached(s, c)[0];
      SucceededOneMore(a, x);
      OneSucceeds(x);
    }
  }

  /** Between backend reports every send that passes the gates is counted exactly
      once: as sent if the backend took it, else as dropped. */
  lemma {:induction false} EveryFrameAccounted(s: Session, calls: seq<Call>)
    requires forall c <- calls :: Quiet(c)
    ensures var t := Served(s, calls);
      && t.sent == s.sent + Succeeded(Attempts(s, calls))
      && t.sent + t.dropped == s.sent + s.dropped + Passed(s, calls)
  {
    if calls != [] {
      var front, c := calls[..|calls| - 1], calls[|calls| - 1];
      EveryFrameAccounted(s, front);
      QuietTotals(Served(s, front), c);
      QuietSent(Served(s, front), c);
      SucceededJoins(Attempts(s, front), Served(s, front), c);
    }
  }

  /** A report replaces what the session publishes, and nothing else: the totals are
      the backend's, and the state too, except that a guarded drop of an active stream
      shows as kReconnecting. */
  lemma ReportReplaces(s: Session, r: Report)
    requires s.backend
    ensures var t := Serve(s, Reported(r));
      && t.sent == r.sent && t.dropped == r.dropped && t.pressure == s.pressure && t.abr == s.abr && t.backend
      && t.phase == (if r.phase == Disconnected && (s.phase == Streaming || s.phase == Reconnecting) && r.guarded
                     then Reconnecting else r.phase)
    ensures Serve(s.(backend := false), Reported(r)) == s.(backend := false)
  {
  }

  /** A report that arrives while the backend is taking a frame replaces both totals:
      of everything before it nothing is left, and the frame is counted on top. */
  lemma ReportRestartsCounts(s: Session, c: Call, r: Report)
    requires (c.Video? || c.Audio?) && Reached(s, c) != []
    requires c.during != [] && c.during[|c.during| - 1] == r
    ensures Serve(s, c).sent == r.sent + if c.answer == Ok then 1 else 0
    ensures Serve(s, c).dropped == r.dropped + if c.answer == Ok then 0 else 1
  {
  }

  // ----- The bitrate -----

  /** The state after some reports. */
  function PhaseAfter(p: Phase, rs: seq<Report>): Phase {
    if rs == [] then p
    else
      var before, r := PhaseAfter(p, rs[..|rs| - 1]), rs[|rs| - 1];
      if r.phase == Disconnected && (before == Streaming || before == Reconnecting) && r.guarded then Reconnecting
      else r.phase
  }

  lemma {:induction false} ReportsSetPhase(s: Session, rs: seq<Report>)
    ensures OverwriteAll(s, rs).phase == PhaseAfter(s.phase, rs)
  {
    if rs != [] {
      ReportsSetPhase(s, rs[..|rs| - 1]);
    }
  }

  /** The loss that a call makes known to the controller: that of a video send which
      reaches the backend and finds the stream streaming when the backend is done. */
  function LossOf(s: Session, c: Call): seq<real> {
    if c.Video? && s.phase != Created && s.backend && PhaseAfter(s.phase, c.during) == Streaming then [c.loss] else []
  }

  function Losses(s: Session, calls: seq<Call>): seq<real> {
    if calls == [] then []
    else
      var front := calls[..|calls| - 1];
      Losses(s, front) + LossOf(Served(s, front), calls[|calls| - 1])
  }

  lemma StepAdapts(s: Session, c: Call)
    requires !c.Connected?
    ensures Serve(s, c).abr == if LossOf(s, c) == [] then s.abr else Abr.Update(s.abr, LossOf(s, c)[0])
  {
    if c.Video? || c.Audio? {
      ReportsLeavePressure(s, c.during);
      ReportsSetPhase(s, c.during);
    }
  }

  /** Over every run between two connects the controller has been told exactly those
      losses, in order. */
  lemma {:induction false} BitrateFollowsLosses(s: Session, calls: seq<Call>)
    requires forall c <- calls :: !c.Connected?
    ensures Served(s, calls).abr == Abr.Run(s.abr, Losses(s, calls))
  {
    if calls != [] {
      var front, c := calls[..|calls| - 1], calls[|calls| - 1];
      assert c in calls && forall x <- front :: x in calls;
      BitrateFollowsLosses(s, front);
      StepAdapts(Served(s, front), c);
      if LossOf(Served(s, front), c) == [] {
        assert Losses(s, front) + [] == Losses(s, front);
      } else {
        Abr.RunOneMore(s.abr, Losses(s, front), c.loss);
      }
    }
  }

  /** A connect starts the bitrate over from the maximum. */
  lemma ConnectRestartsBitrate(s: Session)
    requires s.backend
    ensures Serve(s, Connected) ==
            s.(phase := Streaming, abr := Abr.Controller(s.abr.max, s.abr.min, s.abr.max, 0))
  {
  }

  /** Video sends of a streaming session about which nothing is reported. */
  predicate PlainVideo(c: Call) { c.Video? && c.during == [] }

  lemma {:induction false} PlainLosses(s: Session, calls: seq<Call>)
    requires s.phase == Streaming && s.backend && forall c <- calls :: PlainVideo(c)
    ensures |Losses(s, calls)| == |calls|
    ensures forall i :: 0 <= i < |calls| ==> calls[i].Video? && Losses(s, calls)[i] == calls[i].loss
    ensures Served(s, calls).phase == Streaming && Served(s, calls).backend
  {
    if calls != [] {
      var front, c := calls[..|calls| - 1], calls[|calls| - 1];
      assert c in calls && forall x <- front :: x in calls;
      PlainLosses(s, front);
    }
  }

  /** While more than 5% are lost, (rate - min) / 100 video sends of a streaming
      session bring the rate to the minimum. */
  lemma SessionReachesMin(s: Session, calls: seq<Call>)
    requires s.phase == Streaming && s.backend && s.abr.InBounds() && Abr.NoWrap(s.abr.min, s.abr.max)
    requires forall c <- calls :: PlainVideo(c) && c.loss > 5.0
    requires s.abr.rate - s.abr.min <= 100 * |calls|
    ensures Served(s, calls).abr.rate == s.abr.min
  {
    PlainLosses(s, calls);
    BitrateFollowsLosses(s, calls);
    assert forall i :: 0 <= i < |calls| ==> calls[i] in calls;
    Abr.SustainedLossReachesMin(s.abr, Losses(s, calls));
  }

  /** And while at most 2% are lost, five sends for each 50 kbit/s bring it to the
      maximum. */
  lemma SessionReachesMax(s: Session, calls: seq<Call>, n: nat)
    requires s.phase == Streaming && s.backend && s.abr.InBounds() && Abr.NoWrap(s.abr.min, s.abr.max)
    requires forall c <- calls :: PlainVideo(c) && c.loss <= 2.0
    requires |calls| == 5 * n && s.abr.max - s.abr.rate <= 50 * n
    ensures Served(s, calls).abr.rate == s.abr.max
  {
    PlainLosses(s, calls);
    BitrateFollowsLosses(s, calls);
    assert forall i :: 0 <= i < |calls| ==> calls[i] in calls;
    Abr.SustainedGoodReachesMax(s.abr, Losses(s, calls), n);
  }

  /** The bitrate stays in bounds through any session, with whatever reports,
      sends and connects. */
  lemma {:induction false} BitrateStaysInBounds(s: Session, calls: seq<Call>)
    requires s.abr.InBounds() && Abr.NoWrap(s.abr.min, s.abr.max)
    ensures var t := Served(s, calls).abr;
      t.InBounds() && t.min == s.abr.min && t.max == s.abr.max
  {
    if calls != [] {
      var front, c := calls[..|calls| - 1], calls[|calls| - 1];
      BitrateStaysInBounds(s, front);
      if c.Video? || c.Audio? {
        ReportsLeavePressure(Served(s, front), c.during);
      }
      if c.Video? {
        Abr.UpdateKeepsBounds(Served(s, front).abr, c.loss);
      }
    }
  }

  // ----- The session object -----

  class StreamSession {
    var phase: Phase
    var backend: bool
    var sent: nat
    var dropped: nat
    var pressure: nat
    var abr: Abr.Controller

    ghost function View(): Session
      reads this
    {
      Session(phase, backend, sent, dropped, pressure, abr)
    }

    constructor (abr: Abr.Controller)
      ensures View() == Session(Created, false, 0, 0, 0, abr)
    {
      phase, backend, sent, dropped, pressure := Created, false, 0, 0, 0;
      this.abr := abr;
    }

    method OnBackendStatusChange(r: Report)
      modifies this
      ensures View() == Overwrite(old(View()), r)
      ensures sent == r.sent && dropped == r.dropped && pressure == old(pressure) && abr == old(abr)
      ensures phase == if r.phase == Disconnected && (old(phase) == Streaming || old(phase) == Reconnecting) && r.guarded
                       then Reconnecting else r.phase
    {
      var wasActive := Active(phase);
      phase, sent, dropped := r.phase, r.sent, r.dropped;
      if r.phase == Disconnected && wasActive && r.guarded {
        phase := Reconnecting;
      }
    }

    /** Start, Stop and the reconnect worker publish states of their own. */
    method UpdateStatus(p: Phase)
      requires p.Streaming? ==> backend
      modifies this
      ensures View() == Serve(old(View()), Published(p))
      ensures View() == old(View()).(phase := p)
    {
      phase := p;
    }

    /** What Start and `AttemptReconnect` do after a Connect that succeeded. */
    method OnConnect()
      requires backend
      modifies this
      ensures View() == Serve(old(View()), Connected)
    {
      abr := Abr.Restart(abr);
      UpdateStatus(Streaming);
    }

    /** The backend call: `reports` arrive while it runs. */
    method CallBackend(reports: seq<Report>)
      modifies this
      ensures View() == OverwriteAll(old(View()), reports)
    {
      var i := 0;
      while i < |reports|
        invariant i <= |reports|
        invariant View() == OverwriteAll(old(View()), reports[..i])
      {
        OnBackendStatusChange(reports[i]);
        assert reports[..i + 1][..i] == reports[..i];
        i := i + 1;
      }
      assert reports[..i] == reports;
    }

    method SendVideo(answer: Status, during: seq<Report>, loss: real) returns (st: Status)
      modifies this
      ensures View() == Serve(old(View()), Video(answer, during, loss))
      ensures st == if old(phase) != Created && old(backend) then answer else NotInitialized
      ensures old(phase) == Created || !old(backend) ==> View() == old(View())
      ensures old(phase) != Created && old(backend) ==>
                && pressure == (if answer == Ok then 0 else (old(pressure) + 1) % 0x1_0000_0000)
                && abr == (if phase == Streaming then Abr.Update(old(abr), loss) else old(abr))
                && phase == PhaseAfter(old(phase), during)
                && (during == [] ==> sent == old(sent) + (if answer == Ok then 1 else 0) &&
                                     dropped == old(dropped) + (if answer == Ok then 0 else 1))
    {
      if !AtLeastConfigured(phase) || !backend {
        return NotInitialized;
      }
      ReportsSetPhase(View(), during);
      ReportsLeavePressure(View(), during);
      CallBackend(during);
      if answer == Ok {
        sent := sent + 1;
        pressure := 0;
      } else {
        pressure := (pressure + 1) % 0x1_0000_0000;
        dropped := dropped + 1;
      }
      if phase == Streaming {
        abr := Abr.Update(abr, loss);
      }
      st := answer;
    }

    method SendAudio(answer: Status, during: seq<Report>) returns (st: Status)
      requires phase.Streaming? ==> backend
      modifies this
      ensures View() == Serve(old(View()), Audio(answer, during))
      ensures st == AudioStatus(old(View()), Audio(answer, during))
      ensures st == if old(phase) == Created then NotInitialized
                    else if old(phase) != Streaming then UnsupportedOperation
                    else if old(pressure) >= 100 then Ok
                    else answer
      ensures old(phase) != Streaming ==> View() == old(View())
      ensures old(phase) == Streaming && old(pressure) >= 100 ==> View() == old(View()).(dropped := old(dropped) + 1)
      ensures old(phase) == Streaming && old(pressure) < 100 ==>
                && pressure == (if answer == Ok then 0 else old(pressure) + 1) && abr == old(abr)
                && (during == [] ==> sent == old(sent) + (if answer == Ok then 1 else 0) &&
                                     dropped == old(dropped) + (if answer == Ok then 0 else 1))
    {
      if phase != Streaming {
        return if phase == Created then NotInitialized else UnsupportedOperation;
      }
      if pressure >= 100 {
        dropped := dropped + 1;
        return Ok;
      }
      ReportsLeavePressure(View(), during);
      CallBackend(during);
      if answer == Ok {
        sent := sent + 1;
        pressure := 0;
      } else {
        pressure := (pressure + 1) % 0x1_0000_0000;
        dropped := dropped + 1;
      }
      st := answer;
    }
  }
}
