/** Connecting a WebRTC backend: a session generation fences off the callbacks of
    earlier sessions, one offer is claimed and sent by one WHIP worker, and the
    first outcome decides the call. Four kinds of thread take steps: the caller of
    Connect and Disconnect, peer-connection callbacks, the WHIP worker and the
    sender of frames.

    A callback and TryMarkStreaming are one step each by assumption. Elsewhere a
    step holds several accesses only where nobody can tell: the stores of a reset
    and of the registration, which touch no flag that an earlier session still
    reads in between; the end of sending together with dropping the connection;
    and a reader's look at the generation or the path together with the pointer it
    then uses. */
module WebrtcSession {
  import opened Core

  /** The atomics that a connect resets. */
  datatype Flags = Flags(
    offer: bool,        // the offer of this session has been claimed
    gathered: bool,
    answer: bool,       // an outcome of the WHIP exchange is there
    connected: bool,
    track: bool,
    terminal: bool,
    frame: bool,        // a first frame was sent
    reported: bool)     // kStreaming was reported

  function NoFlags(): Flags {
    Flags(false, false, false, false, false, false, false, false)
  }

  /** What happened since the last reset. `frameFrom` is the generation whose
      track carried the frame that set `frame`; `pathUp` that PcConnected came. */
  datatype Record = Record(claims: int, reports: int, outcomes: seq<Status>, trackOpened: bool, pathUp: bool,
    frameFrom: int)

  function NoRecord(): Record {
    Record(0, 0, [], false, false, -1)
  }

  /** What follows a teardown: the rest of Connect, its return, or the rest of
      Disconnect. */
  datatype Sequel = Reconnect | Return(status: Status) | SignOff

  datatype Control =
    | Idle
    | Deleting
    | Bumped(next: Sequel)
    | Dropped(next: Sequel)
    | Joining(next: Sequel)
    | SigningOff
    | Resetting
    | Registering
    | WaitingAnswer
    | WaitingIce
    | Enabling

  /** `Answering`: about to apply the answer; `Failing`: about to call FailConnect.
      Both are past their generation check. */
  datatype Stage = Entering | Creating | Answering | Failing | Ended

  /** The WHIP worker; one that has ended is still there until it is joined. */
  datatype Worker = Absent | At(gen: int, stage: Stage)

  datatype Sender = Quiet | Admitted | Holding(from: int) | Sent(from: int) | Stored(from: int)

  datatype State = State(
    gen: int,
    registered: int,    // the generation of the latest peer connection
    pc: bool,
    sendEnabled: bool,
    flags: Flags,
    result: Status,
    control: Control,
    worker: Worker,
    sender: Sender,
    pending: set<int>,  // generations of callbacks about to claim the offer
    sending: set<int>,  // generations of callbacks about to send the offer
    launches: int,      // workers launched in this generation
    record: Record,
    returned: Option<Status>)   // by the Connect of the latest session

  datatype Callback =
    | PcConnecting | PcConnected | PcDisconnected | PcFailed | PcClosed
    | TrackOpened | TrackClosed
    | GatheringDone | GatheringOther | DescriptionReady

  datatype WorkerMove = Enter | Ready | Apply(ok: bool) | Error | Fail | Finish

  datatype SenderMove = Admit | Take | Send(ok: bool) | Store | Mark

  datatype Action =
    | CallConnect(hasUrl: bool)
    | CallDisconnect
    | ControlGoesOn(timedOut: bool)
    | Calls(gen: int, callback: Callback)
    | Claims(gen: int, described: bool)
    | Launches(gen: int)
    | WorkerMoves(move: WorkerMove)
    | SenderMoves(step: SenderMove)

  function Init(): State {
    State(0, -1, false, false, NoFlags(), Ok, Idle, Absent, Quiet, {}, {}, 0, NoRecord(), None)
  }

  // ----- The caller of Connect and Disconnect -----

  /** A teardown begins by moving on to a new generation. */
  function Bump(s: State, next: Control): State {
    s.(gen := s.gen + 1, launches := 0, control := next)
  }

  predicate InTeardown(c: Control) { c.Bumped? || c.Dropped? || c.Joining? }

  /** Joining waits for a worker that has not ended. */
  predicate Joined(s: State) { s.control.Joining? && (s.worker.Absent? || s.worker.stage.Ended?) }

  function AfterTeardown(next: Sequel): Control {
    match next
    case Reconnect => Resetting
    case Return(_) => Idle
    case SignOff => SigningOff
  }

  /** The wait for the WHIP answer. */
  function AfterAnswer(s: State, timedOut: bool): Control {
    if s.flags.answer || s.flags.terminal then
      if s.result != Ok then Bumped(Return(s.result))
      else if !s.flags.answer then Bumped(Return(NetworkError))
      else WaitingIce
    else if timedOut then Bumped(Return(Timeout))
    else WaitingAnswer
  }

  /** The wait for the connected state. */
  function AfterIce(s: State, timedOut: bool): Control {
    if s.flags.connected then Enabling
    else if s.flags.terminal then Bumped(Return(NetworkError))
    else if timedOut then Bumped(Return(Timeout))
    else WaitingIce
  }

  function AfterControl(s: State, timedOut: bool): Control {
    match s.control
    case Idle => Idle
    case Deleting => Bumped(SignOff)
    case Bumped(next) => Dropped(next)
    case Dropped(next) => Joining(next)
    case Joining(next) => if Joined(s) then AfterTeardown(next) else s.control
    case SigningOff => Idle
    case Resetting => Registering
    case Registering => WaitingAnswer
    case WaitingAnswer => AfterAnswer(s, timedOut)
    case WaitingIce => AfterIce(s, timedOut)
    case Enabling => Idle
  }

  /** One step of the calling thread. `Bumped` drops the peer connection, `Resetting`
      is `ResetConnectState`, `Registering` installs the new peer connection and
      its callbacks. */
  function ControlStep(s: State, timedOut: bool): State {
    var c, next := s.control, AfterControl(s, timedOut);
    s.(control := next,
       gen := if next.Bumped? then s.gen + 1 else s.gen,
       launches := if next.Bumped? then 0 else s.launches,
       sendEnabled := c.Enabling? || (s.sendEnabled && !c.Bumped? && !c.Resetting?),
       pc := c.Registering? || (s.pc && !c.Bumped?),
       registered := if c.Registering? then s.gen else s.registered,
       worker := if Joined(s) then Absent else s.worker,
       flags := if c.Resetting? then NoFlags()
                else if c.SigningOff? then s.flags.(connected := false, track := false)
                else s.flags,
       result := if c.Resetting? then Ok else s.result,
       record := if c.Resetting? then NoRecord() else s.record,
       returned := if Joined(s) && c.next.Return? then Some(c.next.status)
                   else if c.Enabling? then Some(Ok)
                   else s.returned)
  }

  // ----- Peer-connection callbacks -----

  /** `IsCurrentSession`, for a callback that exists. */
  predicate Current(s: State, g: int) { g == s.gen == s.registered }

  predicate ReportsNow(f: Flags) { f.track && f.frame && !f.reported }

  /** `TryMarkStreaming`. */
  function TryMark(s: State): State {
    if ReportsNow(s.flags) then
      s.(flags := s.flags.(reported := true), record := s.record.(reports := s.record.reports + 1))
    else s
  }

  /** The path is gone. */
  predicate Down(c: Callback) { c.PcDisconnected? || c.PcFailed? || c.PcClosed? }

  function FlagsAfter(f: Flags, c: Callback): Flags {
    f.(connected := c.PcConnected? || (f.connected && !Down(c)),
       track := c.TrackOpened? || (f.track && !c.TrackClosed? && !Down(c)),
       terminal := f.terminal || c.PcFailed? || c.PcClosed?,
       gathered := c.GatheringDone? || (f.gathered && !c.GatheringOther?))
  }

  /** A callback is one step, except that the claim and the sending of the offer
      are further steps of it. */
  function CallbackStep(s: State, g: int, c: Callback): State {
    if !Current(s, g) then s
    else
      var f := FlagsAfter(s.flags, c);
      var report := c.TrackOpened? && ReportsNow(f);
      s.(flags := f.(reported := f.reported || report),
         record := s.record.(reports := s.record.reports + (if report then 1 else 0),
                             trackOpened := s.record.trackOpened || c.TrackOpened?,
                             pathUp := s.record.pathUp || c.PcConnected?),
         pending := if c.GatheringDone? || (c.DescriptionReady? && s.flags.gathered) then s.pending + {g}
                    else s.pending)
  }

  /** `ClaimOfferSend`, by a callback that passed its generation check earlier.
      The offer goes on only if there is a local description. */
  function ClaimStep(s: State, g: int, described: bool): State {
    if g !in s.pending || s.flags.offer then s
    else
      s.(flags := s.flags.(offer := true),
         record := s.record.(claims := s.record.claims + 1),
         sending := if described then s.sending + {g} else s.sending)
  }

  /** The thread handle is joinable until the teardown takes it away. */
  predicate Joinable(s: State) { s.worker.At? && !s.control.Joining? }

  /** `SendOfferToWhip`. */
  function LaunchStep(s: State, g: int): State {
    if g !in s.sending then s
    else
      var t := s.(sending := s.sending - {g});
      if g != s.gen || Joinable(s) then t else t.(worker := At(g, Entering), launches := s.launches + 1)
  }

  // ----- The WHIP worker -----

  /** Only the first outcome is taken. */
  function ResultAfter(f: Flags, result: Status, st: Status): Status {
    if f.answer then result else st
  }

  /** `FailConnect`. */
  function FailConnect(s: State, st: Status): State {
    s.(record := s.record.(outcomes := s.record.outcomes + [st]),
       result := ResultAfter(s.flags, s.result, st),
       flags := s.flags.(answer := true))
  }

  function Answer(s: State): State {
    s.(record := s.record.(outcomes := s.record.outcomes + [Ok]), flags := s.flags.(answer := true))
  }

  function Move(s: State, stage: Stage): State {
    s.(worker := At(if s.worker.At? then s.worker.gen else 0, stage))
  }

  function WorkerStep(s: State, m: WorkerMove): State {
    if s.worker.Absent? then s
    else
      match (s.worker.stage, m)
      case (Entering, Enter) => Move(s, if s.worker.gen == s.gen then Creating else Ended)
      case (Creating, Ready) => Move(s, if s.worker.gen == s.gen && s.pc then Answering else Creating)
      case (Answering, Apply(ok)) => if ok then Answer(Move(s, Creating)) else Move(s, Failing)
      case (Creating, Error) => Move(s, if s.worker.gen == s.gen then Failing else Creating)
      case (Failing, Fail) => FailConnect(Move(s, Creating), NetworkError)
      case (Creating, Finish) => Move(s, Ended)
      case _ => s
  }

  // ----- The sender -----

  function SenderStep(s: State, m: SenderMove): State {
    match (s.sender, m)
    case (Quiet, Admit) => s.(sender := if s.sendEnabled then Admitted else Quiet)
    case (Admitted, Take) =>
      s.(sender := if s.pc && (s.flags.connected || s.flags.track) then Holding(s.registered) else Quiet)
    case (Holding(from), Send(ok)) => s.(sender := if ok then Sent(from) else Quiet)
    case (Sent(from), Store) =>
      s.(flags := s.flags.(frame := true),
         record := if s.flags.frame then s.record else s.record.(frameFrom := from),
         sender := Stored(from))
    case (Stored(from), Mark) => TryMark(s.(sender := Quiet))
    case _ => s
  }

  function Step(s: State, a: Action): State {
    match a
    case CallConnect(hasUrl) =>
      if s.control.Idle? && hasUrl then Bump(s.(returned := None), Bumped(Reconnect)) else s
    case CallDisconnect => if s.control.Idle? then Bump(s, Deleting) else s
    case ControlGoesOn(timedOut) => ControlStep(s, timedOut)
    case Calls(g, c) => CallbackStep(s, g, c)
    case Claims(g, described) => ClaimStep(s, g, described)
    case Launches(g) => LaunchStep(s, g)
    case WorkerMoves(m) => WorkerStep(s, m)
    case SenderMoves(m) => SenderStep(s, m)
  }

  function Run(s: State, acts: seq<Action>): State
    decreases |acts|
  {
    if acts == [] then s else Run(Step(s, acts[0]), acts[1..])
  }

  // ----- What every run keeps -----

  /** Between two sessions no peer connection belongs to the current generation. */
  ghost predicate Fenced(s: State) {
    && s.registered <= s.gen
    && (s.registered == s.gen ==>
          s.control.WaitingAnswer? || s.control.WaitingIce? || s.control.Enabling? || s.control.Idle?)
    && (s.control.WaitingAnswer? || s.control.WaitingIce? || s.control.Enabling? ==> s.registered == s.gen)
    && (forall g <- s.pending :: g <= s.registered)
    && (forall g <- s.sending :: g <= s.registered)
  }

  /** A worker belongs to the current generation, unless a teardown that has yet
      to join it is under way; a generation launches at most one. */
  ghost predicate OneWorker(s: State) {
    && 0 <= s.launches <= 1
    && (s.launches == 1 ==> s.worker.At? && s.worker.gen == s.gen)
    && (s.worker.At? ==> s.worker.gen <= s.gen)
    && (s.worker.At? ==>
          if s.worker.gen == s.gen then s.launches == 1 && s.registered == s.gen
          else InTeardown(s.control) || s.control.Deleting?)
  }

  /** The first outcome decides. */
  ghost predicate FirstOutcome(s: State) {
    && (s.flags.answer <==> s.record.outcomes != [])
    && s.result == if s.record.outcomes == [] then Ok else s.record.outcomes[0]
  }

  /** One claim and one report a session; streaming means track and frame. */
  ghost predicate OnceEach(s: State) {
    && s.record.claims == (if s.flags.offer then 1 else 0)
    && s.record.reports == (if s.flags.reported then 1 else 0)
    && (s.flags.track ==> s.record.trackOpened)
    && (s.flags.reported ==> s.record.trackOpened && s.flags.frame)
  }

  /** No worker without the claim of its own generation, no outcome without a
      worker. */
  ghost predicate OfferFirst(s: State) {
    && (s.gen in s.sending || s.launches == 1 ==> s.registered == s.gen && s.flags.offer)
    && (s.worker.Absent? && (s.registered == s.gen || s.control.Registering?) ==> s.record.outcomes == [])
  }

  /** Until a connect waits for its answer there is no session to send on. */
  ghost predicate Prepared(s: State) {
    && (Preparing(s.control) ==> s.returned == None)
    && (s.control.Dropped? || s.control.Joining? || s.control.Resetting? || s.control.Registering? ==>
          !s.sendEnabled && !s.pc)
    && (s.control.Registering? ==> !s.flags.track && !s.flags.reported)
  }

  /** No sender holds the track of a session still to come. */
  ghost predicate NoneAhead(s: State) {
    && (s.flags.frame ==> s.record.frameFrom <= s.registered)
    && (s.sender.Holding? || s.sender.Sent? ==> s.sender.from <= s.registered)
  }

  /** On the way into a new session. */
  predicate Preparing(c: Control) {
    c.Resetting? || c.Registering? ||
    (InTeardown(c) && c.next.Reconnect?)
  }

  /** Connect gets past its two waits only with an answer and a connection, so it
      returns kOk, and lets frames be sent, only then. */
  ghost predicate Earned(s: State) {
    && (s.flags.connected ==> s.record.pathUp)
    && (s.control.WaitingIce? || s.control.Enabling? || s.returned == Some(Ok) ==>
          s.record.outcomes != [] && s.record.outcomes[0] == Ok)
    && (s.control.Enabling? || s.returned == Some(Ok) ==> s.record.pathUp)
    && (InTeardown(s.control) && s.control.next.Return? ==> s.control.next.status != Ok)
  }

  ghost predicate SendsAfterOk(s: State) {
    s.sendEnabled ==> s.returned == Some(Ok) || s.control == Bumped(Reconnect)
  }

  ghost predicate Inv(s: State) {
    Fenced(s) && OneWorker(s) && FirstOutcome(s) && OnceEach(s) && OfferFirst(s) && Prepared(s) && NoneAhead(s) &&
    Earned(s) && SendsAfterOk(s)
  }

  lemma ControlKeepsFenced(s: State, timedOut: bool)
    requires Fenced(s)
    ensures Fenced(ControlStep(s, timedOut))
  {
  }

  lemma ControlKeepsWorker(s: State, timedOut: bool)
    requires Fenced(s) && OneWorker(s)
    ensures OneWorker(ControlStep(s, timedOut))
  {
  }

  lemma ControlKeepsOutcome(s: State, timedOut: bool)
    requires FirstOutcome(s)
    ensures FirstOutcome(ControlStep(s, timedOut))
  {
    ControlFlags(s, timedOut);
    ControlResult(s, timedOut);
  }

  lemma ControlResult(s: State, timedOut: bool)
    ensures ControlStep(s, timedOut).result == if s.control.Resetting? then Ok else s.result
  {
  }

  lemma ControlKeepsOnce(s: State, timedOut: bool)
    requires OnceEach(s)
    ensures OnceEach(ControlStep(s, timedOut))
  {
    ControlFlags(s, timedOut);
  }

  lemma ControlFlags(s: State, timedOut: bool)
    ensures var t := ControlStep(s, timedOut);
      if s.control.Resetting? then t.flags == NoFlags() && t.record == NoRecord()
      else t.record == s.record && (t.flags == s.flags || t.flags == s.flags.(connected := false, track := false))
  {
  }

  lemma ControlKeepsOffer(s: State, timedOut: bool)
    requires Fenced(s) && OneWorker(s) && OfferFirst(s)
    ensures OfferFirst(ControlStep(s, timedOut))
  {
  }

  lemma ControlKeepsPrepared(s: State, timedOut: bool)
    requires Fenced(s) && Prepared(s)
    ensures Prepared(ControlStep(s, timedOut))
  {
    ControlFlags(s, timedOut);
  }

  lemma ControlKeepsNoneAhead(s: State, timedOut: bool)
    requires Fenced(s) && NoneAhead(s)
    ensures NoneAhead(ControlStep(s, timedOut))
  {
    ControlFlags(s, timedOut);
  }

  lemma ControlKeepsEarned(s: State, timedOut: bool)
    requires FirstOutcome(s) && Prepared(s) && Earned(s)
    ensures Earned(ControlStep(s, timedOut))
  {
  }

  lemma ControlKeepsSends(s: State, timedOut: bool)
    requires Prepared(s) && SendsAfterOk(s)
    ensures SendsAfterOk(ControlStep(s, timedOut))
  {
  }

  lemma CallbackKeepsEarned(s: State, g: int, c: Callback)
    requires Earned(s) && SendsAfterOk(s)
    ensures Earned(CallbackStep(s, g, c)) && SendsAfterOk(CallbackStep(s, g, c))
  {
  }

  lemma WorkerKeepsEarned(s: State, m: WorkerMove)
    requires Earned(s) && SendsAfterOk(s)
    ensures Earned(WorkerStep(s, m)) && SendsAfterOk(WorkerStep(s, m))
  {
  }

  lemma CallbackKeepsPrepared(s: State, g: int, c: Callback)
    requires Fenced(s) && Prepared(s)
    ensures Prepared(CallbackStep(s, g, c))
  {
  }

  lemma CallbackKeepsNoneAhead(s: State, g: int, c: Callback)
    requires NoneAhead(s)
    ensures NoneAhead(CallbackStep(s, g, c))
  {
  }

  lemma CallbackKeepsOnce(s: State, g: int, c: Callback)
    requires OnceEach(s)
    ensures OnceEach(CallbackStep(s, g, c))
  {
  }

  lemma CallbackKeepsFence(s: State, g: int, c: Callback)
    requires Fenced(s) && OneWorker(s)
    ensures Fenced(CallbackStep(s, g, c)) && OneWorker(CallbackStep(s, g, c))
  {
  }

  lemma CallbackKeepsOutcome(s: State, g: int, c: Callback)
    requires FirstOutcome(s)
    ensures FirstOutcome(CallbackStep(s, g, c))
  {
  }

  lemma CallbackKeepsOffer(s: State, g: int, c: Callback)
    requires OfferFirst(s)
    ensures OfferFirst(CallbackStep(s, g, c))
  {
  }

  lemma ClaimKeepsInv(s: State, g: int, described: bool)
    requires Inv(s)
    ensures Inv(ClaimStep(s, g, described))
  {
  }

  lemma LaunchKeepsInv(s: State, g: int)
    requires Inv(s)
    ensures Inv(LaunchStep(s, g))
  {
  }

  lemma WorkerKeepsFence(s: State, m: WorkerMove)
    requires Fenced(s) && OneWorker(s)
    ensures Fenced(WorkerStep(s, m)) && OneWorker(WorkerStep(s, m))
  {
  }

  lemma WorkerKeepsOnce(s: State, m: WorkerMove)
    requires OnceEach(s)
    ensures OnceEach(WorkerStep(s, m))
  {
  }

  lemma WorkerKeepsPrepared(s: State, m: WorkerMove)
    requires Prepared(s) && NoneAhead(s)
    ensures Prepared(WorkerStep(s, m)) && NoneAhead(WorkerStep(s, m))
  {
  }

  lemma WorkerKeepsOutcome(s: State, m: WorkerMove)
    requires FirstOutcome(s)
    ensures FirstOutcome(WorkerStep(s, m))
  {
  }

  lemma WorkerKeepsOffer(s: State, m: WorkerMove)
    requires OfferFirst(s)
    ensures OfferFirst(WorkerStep(s, m))
  {
  }

  lemma SenderKeepsInv(s: State, m: SenderMove)
    requires Inv(s)
    ensures Inv(SenderStep(s, m))
  {
  }

  lemma StepKeepsInv(s: State, a: Action)
    requires Inv(s)
    ensures Inv(Step(s, a))
  {
    match a
    case ControlGoesOn(t) =>
      ControlKeepsFenced(s, t);
      ControlKeepsWorker(s, t);
      ControlKeepsOutcome(s, t);
      ControlKeepsOnce(s, t);
      ControlKeepsOffer(s, t);
      ControlKeepsPrepared(s, t);
      ControlKeepsNoneAhead(s, t);
      ControlKeepsEarned(s, t);
      ControlKeepsSends(s, t);
    case Calls(g, c) =>
      CallbackKeepsOnce(s, g, c);
      CallbackKeepsFence(s, g, c);
      CallbackKeepsOutcome(s, g, c);
      CallbackKeepsOffer(s, g, c);
      CallbackKeepsPrepared(s, g, c);
      CallbackKeepsNoneAhead(s, g, c);
      CallbackKeepsEarned(s, g, c);
    case Claims(g, d) => ClaimKeepsInv(s, g, d);
    case Launches(g) => LaunchKeepsInv(s, g);
    case WorkerMoves(m) =>
      WorkerKeepsFence(s, m);
      WorkerKeepsOnce(s, m);
      WorkerKeepsPrepared(s, m);
      WorkerKeepsOutcome(s, m);
      WorkerKeepsOffer(s, m);
      WorkerKeepsEarned(s, m);
    case SenderMoves(m) => SenderKeepsInv(s, m);
    case _ =>
  }

  lemma {:induction false} RunKeepsInv(s: State, acts: seq<Action>)
    requires Inv(s)
    ensures Inv(Run(s, acts))
    decreases |acts|
  {
    if acts != [] {
      StepKeepsInv(s, acts[0]);
      RunKeepsInv(Step(s, acts[0]), acts[1..]);
    }
  }

  /** Over every run: each session claims at most one offer and reports
      kStreaming at most once, each generation launches at most one worker, and a
      worker of an older generation is still there only while the teardown that
      will join it is in progress. */
  lemma EveryRun(acts: seq<Action>)
    ensures var s := Run(Init(), acts);
      && s.record.claims <= 1 && s.record.reports <= 1 && s.launches <= 1
      && (s.worker.At? && s.worker.gen != s.gen ==> InTeardown(s.control) || s.control.Deleting?)
  {
    RunKeepsInv(Init(), acts);
  }

  /** When a teardown is over there is no worker, whatever its generation. */
  lemma TeardownLeavesNoWorker(s: State)
    requires Inv(s) && InTeardown(s.control) && !InTeardown(ControlStep(s, false).control)
    ensures ControlStep(s, false).worker.Absent? && Inv(ControlStep(s, false))
  {
    StepKeepsInv(s, ControlGoesOn(false));
  }

  /** A worker is launched only by the callback that claimed the offer in the
      worker's own session. */
  lemma LaunchNeedsClaim(s: State, a: Action)
    requires Inv(s)
    ensures Step(s, a).launches > s.launches ==>
              a == Launches(s.gen) && s.record.claims == 1 && s.registered == s.gen && s.worker.Absent?
  {
    if a.ControlGoesOn? {
      ControlLaunchesNone(s, a.timedOut);
    }
  }

  lemma ControlLaunchesNone(s: State, timedOut: bool)
    requires 0 <= s.launches
    ensures ControlStep(s, timedOut).launches <= s.launches
    ensures s.gen <= ControlStep(s, timedOut).gen
  {
  }

  // ----- Within one generation -----

  lemma GenerationGrows(s: State, a: Action)
    ensures s.gen <= Step(s, a).gen
  {
    if a.ControlGoesOn? {
      ControlBumps(s, a.timedOut);
    }
  }

  lemma ControlBumps(s: State, timedOut: bool)
    ensures s.gen <= ControlStep(s, timedOut).gen
  {
  }

  lemma {:induction false} RunGenerationGrows(s: State, acts: seq<Action>)
    ensures s.gen <= Run(s, acts).gen
    decreases |acts|
  {
    if acts != [] {
      GenerationGrows(s, acts[0]);
      RunGenerationGrows(Step(s, acts[0]), acts[1..]);
    }
  }

  lemma OutcomesOnlyGrow(s: State, a: Action)
    requires Inv(s) && s.registered == s.gen
    ensures s.record.outcomes <= Step(s, a).record.outcomes
    ensures Step(s, a).gen == s.gen ==> Step(s, a).registered == s.registered
  {
    if a.ControlGoesOn? {
      ControlFlags(s, a.timedOut);
      ControlRegisters(s, a.timedOut);
    }
  }

  lemma ControlRegisters(s: State, timedOut: bool)
    ensures ControlStep(s, timedOut).registered == if s.control.Registering? then s.gen else s.registered
  {
  }

  /** The first outcome of a session is never overwritten: whatever the callbacks,
      the worker and the sender do, it stays the result of the connect. */
  lemma {:induction false} OutcomeStands(s: State, acts: seq<Action>)
    requires Inv(s) && s.registered == s.gen && Run(s, acts).gen == s.gen
    ensures var t := Run(s, acts);
      && s.record.outcomes <= t.record.outcomes && t.registered == t.gen
      && (s.record.outcomes != [] ==> t.flags.answer && t.result == s.record.outcomes[0])
    decreases |acts|
  {
    if acts != [] {
      var t := Step(s, acts[0]);
      GenerationGrows(s, acts[0]);
      RunGenerationGrows(t, acts[1..]);
      StepKeepsInv(s, acts[0]);
      OutcomesOnlyGrow(s, acts[0]);
      OutcomeStands(t, acts[1..]);
      RunKeepsInv(t, acts[1..]);
    }
  }

  /** The wait for the answer goes by the first outcome; without one it fails when the
      connection is terminal or the time is up, and otherwise goes on. */
  lemma ConnectGoesByFirstOutcome(s: State, timedOut: bool)
    requires Inv(s) && s.control.WaitingAnswer?
    ensures var c, o := ControlStep(s, timedOut).control, s.record.outcomes;
      && (o != [] && o[0] == Ok ==> c == WaitingIce)
      && (o != [] && o[0] != Ok ==> c == Bumped(Return(o[0])))
      && (o == [] ==> c == if s.flags.terminal then Bumped(Return(NetworkError))
                           else if timedOut then Bumped(Return(Timeout)) else WaitingAnswer)
  {
  }

  /** The wait for the connection: it ends well exactly if the connection is up, with
      kNetworkError exactly if it is terminal and not up, with kTimeout exactly if
      neither and the time is up; otherwise it goes on. */
  lemma ConnectGoesByConnection(s: State, timedOut: bool)
    requires s.control.WaitingIce?
    ensures var c := ControlStep(s, timedOut).control;
      && (c == Enabling <==> s.flags.connected)
      && (c == Bumped(Return(NetworkError)) <==> !s.flags.connected && s.flags.terminal)
      && (c == Bumped(Return(Timeout)) <==> !s.flags.connected && !s.flags.terminal && timedOut)
      && (c == WaitingIce <==> !s.flags.connected && !s.flags.terminal && !timedOut)
  {
  }

  /** In every run: Connect has returned kOk only if the first outcome of its session
      was an answer and PcConnected came in that session; frames can be sent only
      after that; and once it has returned anything else nothing can be sent. */
  lemma ConnectedMeansConnected(acts: seq<Action>)
    ensures var s := Run(Init(), acts);
      && (s.returned == Some(Ok) ==> s.record.outcomes != [] && s.record.outcomes[0] == Ok && s.record.pathUp)
      && (s.sendEnabled ==> s.returned == Some(Ok) || s.control == Bumped(Reconnect))
      && (s.returned.Some? && s.returned != Some(Ok) ==> !s.sendEnabled)
  {
    RunKeepsInv(Init(), acts);
    var s := Run(Init(), acts);
    assert s.control == Bumped(Reconnect) ==> Preparing(s.control);
  }

  /** Connect and Disconnect begin exactly when neither is under way, and Connect only
      with a URL; each begins by fencing off the current session. */
  lemma CallsBeginIff(s: State, hasUrl: bool)
    ensures Step(s, CallConnect(hasUrl)) ==
            if s.control == Idle && hasUrl
            then s.(returned := None, gen := s.gen + 1, launches := 0, control := Bumped(Reconnect)) else s
    ensures Step(s, CallDisconnect) ==
            if s.control == Idle then s.(gen := s.gen + 1, launches := 0, control := Deleting) else s
  {
  }

  /** A Connect that succeeds returns kOk and opens the gate; one that fails returns
      the status its wait ended with, with everything closed and joined. */
  lemma ConnectReturns(s: State, timedOut: bool)
    ensures s.control.Enabling? ==>
              ControlStep(s, timedOut) == s.(control := Idle, sendEnabled := true, returned := Some(Ok))
    ensures s.control.Bumped? && s.control.next.Return? && (s.worker.At? ==> s.worker.stage.Ended?) ==>
              ControlStep(ControlStep(ControlStep(s, timedOut), timedOut), timedOut) ==
              s.(control := Idle, sendEnabled := false, pc := false, worker := Absent,
                 returned := Some(s.control.next.status))
    ensures s.control.Joining? && s.worker.At? && !s.worker.stage.Ended? ==> ControlStep(s, timedOut) == s
  {
    if s.control.Bumped? && s.control.next.Return? && (s.worker.At? ==> s.worker.stage.Ended?) {
      var next := s.control.next;
      var a := s.(control := Dropped(next), sendEnabled := false, pc := false);
      assert ControlStep(s, timedOut) == a;
      assert ControlStep(a, timedOut) == a.(control := Joining(next));
    }
  }

  /** A Disconnect that goes through leaves a new generation, no worker, no
      connection, and nothing that could be sent. */
  lemma DisconnectCloses(s: State)
    requires s.control.Idle? && (s.worker.At? ==> s.worker.stage.Ended?)
    ensures var t := Run(s, [CallDisconnect] + Going(5));
      t == s.(gen := s.gen + 2, launches := 0, sendEnabled := false, pc := false, worker := Absent,
              flags := s.flags.(connected := false, track := false))
  {
    var a := s.(gen := s.gen + 1, launches := 0, control := Deleting);
    var b := s.(gen := s.gen + 2, launches := 0, control := Bumped(SignOff));
    assert ([CallDisconnect] + Going(5))[1..] == Going(5) && Step(s, CallDisconnect) == a;
    GoesOn(a, 5, b);
    SignsOff(b);
  }

  lemma SignsOff(b: State)
    requires b.control == Bumped(SignOff) && (b.worker.At? ==> b.worker.stage.Ended?)
    ensures Run(b, Going(4)) ==
            b.(control := Idle, sendEnabled := false, pc := false, worker := Absent,
               flags := b.flags.(connected := false, track := false))
  {
    var d := b.(sendEnabled := false, pc := false, control := Dropped(SignOff));
    var e := d.(worker := Absent, control := SigningOff);
    GoesOn(b, 4, d);
    GoesOn(d, 3, d.(control := Joining(SignOff)));
    GoesOn(d.(control := Joining(SignOff)), 2, e);
    GoesOn(e, 1, e.(control := Idle, flags := b.flags.(connected := false, track := false)));
  }

  /** The calling thread alone. */
  function Going(n: nat): seq<Action> {
    if n == 0 then [] else [ControlGoesOn(false)] + Going(n - 1)
  }

  lemma GoesOn(s: State, n: nat, t: State)
    requires n > 0 && ControlStep(s, false) == t
    ensures Run(s, Going(n)) == Run(t, Going(n - 1))
    ensures n == 1 ==> Run(s, Going(n)) == t
  {
    assert Going(n)[1..] == Going(n - 1);
    assert n == 1 ==> Going(n - 1) == [];
  }

  // ----- What the other threads do -----

  /** A callback of another generation does nothing. */
  lemma StaleCallbackIsInert(s: State, g: int, c: Callback)
    requires g != s.gen || g != s.registered
    ensures CallbackStep(s, g, c) == s
  {
  }

  /** One of this session says what is up: the connection after PcConnected until it is
      disconnected, failed or closed; the track after it opened until it, or the
      connection, goes; a failed or closed connection is terminal. */
  lemma CallbackSetsPath(s: State, c: Callback)
    requires s.gen == s.registered
    ensures var f, f' := s.flags, CallbackStep(s, s.gen, c).flags;
      && f'.connected == (c == PcConnected || (f.connected && c !in {PcDisconnected, PcFailed, PcClosed}))
      && f'.track == (c == TrackOpened || (f.track && c !in {TrackClosed, PcDisconnected, PcFailed, PcClosed}))
      && f'.terminal == (f.terminal || c == PcFailed || c == PcClosed)
  {
  }

  /** It lets the offer be claimed exactly when gathering is complete, reports
      kStreaming exactly when it opens the track and a frame was sent, and touches
      neither claim nor outcome. */
  lemma CallbackSetsRest(s: State, c: Callback)
    requires s.gen == s.registered
    ensures var t := CallbackStep(s, s.gen, c);
      && t.flags.gathered == (c == GatheringDone || (s.flags.gathered && c != GatheringOther))
      && t.flags.reported == (s.flags.reported || (c == TrackOpened && s.flags.frame))
      && t.pending == s.pending + (if c == GatheringDone || (c == DescriptionReady && s.flags.gathered) then {s.gen} else {})
      && t.flags.offer == s.flags.offer && t.flags.answer == s.flags.answer && t.flags.frame == s.flags.frame
      && t.result == s.result && t.record.outcomes == s.record.outcomes && t.control == s.control && t.worker == s.worker
  {
  }

  /** The offer of a current callback is sent exactly once, by a worker of its own
      generation; a stale one launches nothing. */
  lemma LaunchIff(s: State, g: int)
    requires Inv(s)
    ensures LaunchStep(s, g).launches == s.launches + 1 <==> g in s.sending && g == s.gen && s.worker.Absent?
    ensures LaunchStep(s, g).launches == s.launches + 1 ==> LaunchStep(s, g).worker == At(g, Entering)
    ensures LaunchStep(s, g).launches != s.launches + 1 ==> LaunchStep(s, g).worker == s.worker
  {
  }

  /** An error of the exchange, and an answer that cannot be applied, reach the caller:
      if nothing came before them Connect fails with kNetworkError. */
  lemma ErrorReachesCaller(s: State, timedOut: bool)
    requires Inv(s) && s.control.WaitingAnswer? && s.worker.At? && s.record.outcomes == []
    ensures s.worker.stage.Creating? ==>
              var t := WorkerStep(WorkerStep(s, Error), Fail);
              t.record.outcomes == [NetworkError] && ControlStep(t, timedOut).control == Bumped(Return(NetworkError))
    ensures s.worker.stage.Answering? ==>
              var t := WorkerStep(WorkerStep(s, Apply(false)), Fail);
              t.record.outcomes == [NetworkError] && ControlStep(t, timedOut).control == Bumped(Return(NetworkError))
  {
    WorkerFails(s.(worker := At(s.worker.gen, Failing)), timedOut);
    assert s.worker.stage.Creating? ==> WorkerStep(s, Error) == s.(worker := At(s.worker.gen, Failing));
    assert s.worker.stage.Answering? ==> WorkerStep(s, Apply(false)) == s.(worker := At(s.worker.gen, Failing));
  }

  lemma WorkerFails(s: State, timedOut: bool)
    requires s.control.WaitingAnswer? && s.worker.At? && s.worker.stage.Failing?
    requires FirstOutcome(s) && s.record.outcomes == []
    ensures var t := WorkerStep(s, Fail);
      t.record.outcomes == [NetworkError] && ControlStep(t, timedOut).control == Bumped(Return(NetworkError))
  {
  }

  /** A superseded worker has no effect but to end, whatever the exchange brings,
      unless it was past its check before. */
  lemma SupersededWorkerIsInert(s: State, m: WorkerMove)
    requires s.worker.At? && s.worker.gen != s.gen && (s.worker.stage.Entering? || s.worker.stage.Creating?)
    ensures var t := WorkerStep(s, m);
      t == s.(worker := t.worker) && t.worker.At? && (t.worker.stage == s.worker.stage || t.worker.stage.Ended?)
  {
  }

  /** A frame goes to the track exactly through both gates, and counts as sent exactly
      if the track took it. */
  lemma SenderGates(s: State, ok: bool)
    ensures s.sender.Quiet? ==> (SenderStep(s, Admit).sender == Admitted <==> s.sendEnabled)
    ensures s.sender.Quiet? && !s.sendEnabled ==> SenderStep(s, Admit) == s
    ensures s.sender.Admitted? ==>
              (SenderStep(s, Take).sender.Holding? <==> s.pc && (s.flags.connected || s.flags.track))
    ensures s.sender.Admitted? && SenderStep(s, Take).sender.Holding? ==>
              SenderStep(s, Take).sender.from == s.registered
    ensures s.sender.Holding? ==> (SenderStep(s, Send(ok)).sender == if ok then Sent(s.sender.from) else Quiet)
  {
  }

  // ----- Streaming -----

  /** What its documentation says of kStreaming: this session's track opened, and a
      frame was sent on it. */
  predicate Documented(s: State) {
    s.flags.reported ==> s.record.trackOpened && s.record.frameFrom == s.gen
  }

  /** And that Connect had returned kOk by then. */
  predicate Truthful(s: State) {
    Documented(s) && (s.flags.reported ==> s.returned == Some(Ok))
  }

  ghost predicate AlwaysDocumented(s: State) {
    forall acts :: Run(s, acts).gen == s.gen ==> Documented(Run(s, acts))
  }

  ghost predicate AlwaysTruthful(s: State) {
    forall acts :: Run(s, acts).gen == s.gen ==> Truthful(Run(s, acts))
  }

  /** No frame on its way was handed to the track of an earlier session. */
  ghost predicate OwnFrames(s: State) {
    && s.registered == s.gen
    && (s.flags.frame ==> s.record.frameFrom == s.gen)
    && (s.sender.Holding? || s.sender.Sent? ==> s.sender.from == s.gen)
  }

  /** And no send began before Connect returned. */
  ghost predicate Genuine(s: State) {
    && OwnFrames(s)
    && (s.sendEnabled || s.flags.frame || s.sender.Admitted? || s.sender.Holding? || s.sender.Sent? ==>
          s.returned == Some(Ok))
    && (s.returned == Some(Ok) ==> s.control.Idle?)
  }

  /** The same while the session is still to be registered. */
  ghost predicate OwnFramesToCome(s: State) {
    s.control.Registering? && !s.flags.frame && !s.sender.Holding? && !s.sender.Sent?
  }

  ghost predicate GenuineToCome(s: State) {
    OwnFramesToCome(s) && !s.sender.Admitted?
  }

  lemma ControlKeepsOwn(s: State, timedOut: bool)
    requires Inv(s) && ControlStep(s, timedOut).gen == s.gen
    ensures OwnFrames(s) ==> OwnFrames(ControlStep(s, timedOut))
    ensures OwnFramesToCome(s) ==> OwnFrames(ControlStep(s, timedOut))
  {
  }

  lemma ControlKeepsGenuine(s: State, timedOut: bool)
    requires Inv(s) && ControlStep(s, timedOut).gen == s.gen
    ensures Genuine(s) ==> Genuine(ControlStep(s, timedOut))
    ensures GenuineToCome(s) ==> Genuine(ControlStep(s, timedOut))
  {
  }

  lemma CallbackKeepsOwn(s: State, g: int, c: Callback)
    requires Fenced(s)
    ensures OwnFrames(s) ==> OwnFrames(CallbackStep(s, g, c))
    ensures Genuine(s) ==> Genuine(CallbackStep(s, g, c))
    ensures s.control.Registering? ==> CallbackStep(s, g, c) == s
  {
  }

  lemma WorkerKeepsOwn(s: State, m: WorkerMove)
    ensures OwnFrames(s) ==> OwnFrames(WorkerStep(s, m))
    ensures Genuine(s) ==> Genuine(WorkerStep(s, m))
    ensures OwnFramesToCome(s) ==> OwnFramesToCome(WorkerStep(s, m))
    ensures GenuineToCome(s) ==> GenuineToCome(WorkerStep(s, m))
  {
  }

  lemma SenderKeepsOwn(s: State, m: SenderMove)
    requires Prepared(s)
    ensures OwnFrames(s) ==> OwnFrames(SenderStep(s, m))
    ensures Genuine(s) ==> Genuine(SenderStep(s, m))
    ensures OwnFramesToCome(s) ==> OwnFramesToCome(SenderStep(s, m))
    ensures GenuineToCome(s) ==> GenuineToCome(SenderStep(s, m))
  {
  }

  lemma StepKeepsOwn(s: State, a: Action)
    requires Inv(s) && Step(s, a).gen == s.gen
    requires OwnFrames(s) || OwnFramesToCome(s)
    ensures OwnFrames(Step(s, a)) || OwnFramesToCome(Step(s, a))
  {
    match a
    case ControlGoesOn(timedOut) => ControlKeepsOwn(s, timedOut);
    case Calls(g, c) => CallbackKeepsOwn(s, g, c);
    case WorkerMoves(m) => WorkerKeepsOwn(s, m);
    case SenderMoves(m) => SenderKeepsOwn(s, m);
    case _ =>
  }

  lemma StepKeepsGenuine(s: State, a: Action)
    requires Inv(s) && Step(s, a).gen == s.gen
    requires Genuine(s) || GenuineToCome(s)
    ensures Genuine(Step(s, a)) || GenuineToCome(Step(s, a))
  {
    match a
    case ControlGoesOn(timedOut) => ControlKeepsGenuine(s, timedOut);
    case Calls(g, c) => CallbackKeepsOwn(s, g, c);
    case WorkerMoves(m) => WorkerKeepsOwn(s, m);
    case SenderMoves(m) => SenderKeepsOwn(s, m);
    case _ =>
  }

  lemma {:induction false} RunKeepsOwn(s: State, acts: seq<Action>)
    requires Inv(s) && Run(s, acts).gen == s.gen
    requires OwnFrames(s) || OwnFramesToCome(s)
    ensures Documented(Run(s, acts))
    decreases |acts|
  {
    if acts != [] {
      GenerationGrows(s, acts[0]);
      RunGenerationGrows(Step(s, acts[0]), acts[1..]);
      StepKeepsInv(s, acts[0]);
      StepKeepsOwn(s, acts[0]);
      RunKeepsOwn(Step(s, acts[0]), acts[1..]);
    }
  }

  lemma {:induction false} RunKeepsGenuine(s: State, acts: seq<Action>)
    requires Inv(s) && Run(s, acts).gen == s.gen
    requires Genuine(s) || GenuineToCome(s)
    ensures Truthful(Run(s, acts))
    decreases |acts|
  {
    if acts != [] {
      GenerationGrows(s, acts[0]);
      RunGenerationGrows(Step(s, acts[0]), acts[1..]);
      StepKeepsInv(s, acts[0]);
      StepKeepsGenuine(s, acts[0]);
      RunKeepsGenuine(Step(s, acts[0]), acts[1..]);
    }
  }

  ghost predicate Reaches(s: State, t: State) {
    exists acts :: Run(s, acts) == t
  }

  lemma {:induction false} RunOneMore(s: State, acts: seq<Action>, a: Action)
    ensures Run(s, acts + [a]) == Step(Run(s, acts), a)
    decreases |acts|
  {
    if acts == [] {
      assert Run(Step(s, a), []) == Step(s, a);
    } else {
      RunOneMore(Step(s, acts[0]), acts[1..], a);
      assert (acts + [a])[1..] == acts[1..] + [a];
    }
  }

  lemma Extend(s: State, t: State, a: Action)
    requires Reaches(s, t)
    ensures Reaches(s, Step(t, a))
  {
    var acts :| Run(s, acts) == t;
    RunOneMore(s, acts, a);
  }

  /** `u` is the session that `t` was about to register, with the sender where it was
      and nothing reported. */
  ghost predicate SetUp(t: State, u: State) {
    && u.gen == u.registered == t.gen && u.pc && u.returned == None
    && u.sender == t.sender && u.flags.frame == t.flags.frame && u.record.frameFrom == t.record.frameFrom
    && !u.flags.track && !u.flags.reported
  }

  lemma Gathered(s: State, t: State, u: State) returns (v: State)
    requires Reaches(s, u) && SetUp(t, u)
    ensures Reaches(s, v) && SetUp(t, v) && v.gen in v.pending
    ensures v == u.(flags := u.flags.(gathered := true), pending := u.pending + {u.gen})
  {
    v := CallbackStep(u, u.gen, GatheringDone);
    Extend(s, u, Calls(u.gen, GatheringDone));
  }

  lemma Claimed(s: State, t: State, u: State) returns (v: State)
    requires Reaches(s, u) && SetUp(t, u) && u.gen in u.pending && !u.flags.offer
    ensures Reaches(s, v) && SetUp(t, v) && v.gen in v.sending
    ensures v.worker == u.worker && v.control == u.control && v.result == u.result && v.flags.answer == u.flags.answer
  {
    v := ClaimStep(u, u.gen, true);
    Extend(s, u, Claims(u.gen, true));
  }

  /** The session's offer goes out. */
  lemma OfferGoesOut(s: State, t: State, u: State) returns (v: State)
    requires Reaches(s, u) && SetUp(t, u) && u.worker.Absent? && !u.flags.offer
    ensures Reaches(s, v) && SetUp(t, v) && v.worker == At(v.gen, Entering)
    ensures v.flags.answer == u.flags.answer && v.result == u.result && v.control == u.control
  {
    var a := Gathered(s, t, u);
    var b := Claimed(s, t, a);
    v := LaunchStep(b, b.gen);
    Extend(s, b, Launches(b.gen));
  }

  /** Its answer comes back, and the connection is up. */
  lemma AnswerComesBack(s: State, t: State, u: State) returns (v: State)
    requires Reaches(s, u) && SetUp(t, u) && u.worker == At(u.gen, Entering) && !u.flags.answer && u.result == Ok
    ensures Reaches(s, v) && SetUp(t, v)
    ensures v.flags.answer && v.result == Ok && v.flags.connected && v.control == u.control
  {
    var a := WorkerStep(u, Enter);
    Extend(s, u, WorkerMoves(Enter));
    var b := WorkerStep(a, Ready);
    Extend(s, a, WorkerMoves(Ready));
    var c := WorkerStep(b, Apply(true));
    Extend(s, b, WorkerMoves(Apply(true)));
    v := CallbackStep(c, c.gen, PcConnected);
    Extend(s, c, Calls(c.gen, PcConnected));
  }

  /** The session is registered and its track opens while Connect is waiting. If the
      offer can still be claimed, its answer is applied and the connection up by
      then. */
  lemma TrackUpReached(s: State, t: State) returns (u: State)
    requires Reaches(s, t) && Inv(t) && t.control.Registering?
    ensures Reaches(s, u)
    ensures u.gen == u.registered == t.gen && u.returned == None && u.sender == t.sender && u.pc
    ensures u.flags.track && u.record.trackOpened && u.flags.frame == t.flags.frame
    ensures u.record.frameFrom == t.record.frameFrom && u.flags.reported == t.flags.frame
    ensures u.control.WaitingAnswer?
    ensures !t.flags.offer ==> u.flags.answer && u.result == Ok && u.flags.connected
  {
    u := ControlStep(t, false);
    Extend(s, t, ControlGoesOn(false));
    if !t.flags.offer {
      u := OfferGoesOut(s, t, u);
      u := AnswerComesBack(s, t, u);
    }
    Extend(s, u, Calls(u.gen, TrackOpened));
    u := CallbackStep(u, u.gen, TrackOpened);
  }

  /** A frame that was sent but not yet recorded, in a session with its track up. */
  lemma SentMisleads(s: State, t: State) returns (u: State)
    requires Reaches(s, t) && t.sender.Sent? && t.flags.track && !t.flags.frame && !t.flags.reported
    ensures Reaches(s, u) && u.gen == t.gen && u.flags.reported
    ensures u.record.frameFrom == t.sender.from && u.returned == t.returned
    ensures u.flags == t.flags.(frame := true, reported := true) && u.result == t.result
  {
    Extend(s, t, SenderMoves(Store));
    Extend(s, SenderStep(t, Store), SenderMoves(Mark));
    u := SenderStep(SenderStep(t, Store), Mark);
  }

  lemma AdmittedMisleads(s: State, t: State) returns (u: State)
    requires Reaches(s, t) && t.sender.Admitted? && t.pc && t.flags.track && !t.flags.frame && !t.flags.reported
    ensures Reaches(s, u) && u.gen == t.gen && u.returned == t.returned
    ensures u.flags == t.flags.(frame := true, reported := true) && u.result == t.result
  {
    Extend(s, t, SenderMoves(Take));
    Extend(s, SenderStep(t, Take), SenderMoves(Send(true)));
    u := SentMisleads(s, SenderStep(SenderStep(t, Take), Send(true)));
  }

  /** A sender under way, or a frame it recorded after the reset, can make a
      session report kStreaming while its Connect is still waiting; and unless a
      stale claim has burnt the offer, after its answer and with the connection up. */
  lemma Misleads(s: State) returns (u: State)
    requires Inv(s) && s.control.Registering? && !GenuineToCome(s)
    ensures Reaches(s, u) && u.gen == s.gen && !Truthful(u)
    ensures !OwnFramesToCome(s) ==> !Documented(u)
    ensures !s.flags.offer ==> u.flags.answer && u.result == Ok && u.flags.connected
  {
    assert Run(s, []) == s;
    u := TrackUpReached(s, s);
    if s.flags.frame {
      return;
    }
    if s.sender.Admitted? {
      u := AdmittedMisleads(s, u);
    } else if s.sender.Sent? {
      u := SentMisleads(s, u);
    } else {
      Extend(s, u, SenderMoves(Send(true)));
      u := SentMisleads(s, SenderStep(u, Send(true)));
    }
  }

  /** When a session is registered it is settled whether its kStreaming can be
      trusted. Through every continuation of the session it means what it says, and
      comes only after Connect returned kOk, if and only if no frame is recorded
      yet and the sender is idle or has nothing left but to report. */
  lemma StreamingIsTruthfulIff(s: State)
    requires Inv(s) && s.control.Registering?
    ensures AlwaysTruthful(s) <==> !s.flags.frame && (s.sender.Quiet? || s.sender.Stored?)
  {
    if GenuineToCome(s) {
      forall acts | Run(s, acts).gen == s.gen ensures Truthful(Run(s, acts)) {
        RunKeepsGenuine(s, acts);
      }
    } else {
      var u := Misleads(s);
      var acts :| Run(s, acts) == u;
    }
  }

  /** For the documented part alone a sender that has passed the gate but not yet
      taken the track is harmless too. */
  lemma StreamingIsDocumentedIff(s: State)
    requires Inv(s) && s.control.Registering?
    ensures AlwaysDocumented(s) <==>
            !s.flags.frame && (s.sender.Quiet? || s.sender.Stored? || s.sender.Admitted?)
  {
    if OwnFramesToCome(s) {
      forall acts | Run(s, acts).gen == s.gen ensures Documented(Run(s, acts)) {
        RunKeepsOwn(s, acts);
      }
    } else {
      var u := Misleads(s);
      var acts :| Run(s, acts) == u;
    }
  }

  // ----- An offer claimed in vain -----

  /** The offer is claimed and nobody is going to send it. */
  ghost predicate Burnt(s: State) {
    && s.control.WaitingAnswer? && s.registered == s.gen
    && s.flags.offer && s.gen !in s.sending && s.worker.Absent?
    && !s.flags.answer && s.result == Ok
  }

  /** A claim is in vain exactly when the claimer belongs to an earlier session or
      finds no local description. */
  lemma ClaimBurnsIff(s: State, g: int, described: bool)
    requires Inv(s) && s.control.WaitingAnswer? && !s.flags.offer && s.worker.Absent?
    requires g in s.pending
    ensures Burnt(ClaimStep(s, g, described)) <==> g != s.gen || !described
  {
  }

  lemma ControlLeavesBurnt(s: State, timedOut: bool)
    requires Burnt(s)
    ensures var t := ControlStep(s, timedOut);
      t == s || (t.gen == s.gen + 1 &&
                 (t.control == Bumped(Return(NetworkError)) || t.control == Bumped(Return(Timeout))))
  {
  }

  lemma CallbackLeavesBurnt(s: State, g: int, c: Callback)
    requires Burnt(s)
    ensures Burnt(CallbackStep(s, g, c)) && CallbackStep(s, g, c).gen == s.gen
  {
  }

  lemma SenderLeavesBurnt(s: State, m: SenderMove)
    requires Burnt(s)
    ensures Burnt(SenderStep(s, m)) && SenderStep(s, m).gen == s.gen
  {
  }

  lemma BurntStays(s: State, a: Action)
    requires Burnt(s)
    ensures Step(s, a).gen == s.gen ==> Burnt(Step(s, a))
    ensures Step(s, a).gen != s.gen ==>
              Step(s, a).control == Bumped(Return(NetworkError)) || Step(s, a).control == Bumped(Return(Timeout))
  {
    match a
    case ControlGoesOn(timedOut) => ControlLeavesBurnt(s, timedOut);
    case Calls(g, c) => CallbackLeavesBurnt(s, g, c);
    case SenderMoves(m) => SenderLeavesBurnt(s, m);
    case _ =>
  }

  /** After that the connect cannot succeed, whatever happens: no worker is
      launched and no outcome arrives for as long as Connect waits. */
  lemma {:induction false} BurntClaimIsFatal(s: State, acts: seq<Action>)
    requires Burnt(s)
    ensures Run(s, acts).gen == s.gen ==> Burnt(Run(s, acts))
    decreases |acts|
  {
    if acts != [] {
      GenerationGrows(s, acts[0]);
      RunGenerationGrows(Step(s, acts[0]), acts[1..]);
      BurntStays(s, acts[0]);
      if Step(s, acts[0]).gen == s.gen {
        BurntClaimIsFatal(Step(s, acts[0]), acts[1..]);
      }
    }
  }

  // ----- Two reachable states -----

  ghost predicate Reachable(t: State) {
    Reaches(Init(), t)
  }

  lemma Reach(t: State, a: Action, u: State)
    requires Reachable(t) && Step(t, a) == u
    ensures Reachable(u)
  {
    Extend(Init(), t, a);
  }

  function Fresh(s: State): State {
    s.(gen := s.gen + 1, registered := s.gen + 1, pc := true, sendEnabled := false, flags := NoFlags(), result := Ok,
       control := WaitingAnswer, worker := Absent, launches := 0, record := NoRecord(), returned := None)
  }

  /** Connect up to its wait for the answer. */
  lemma ConnectReaches(s: State)
    requires Reachable(s) && s.control.Idle? && (s.worker.At? ==> s.worker.stage.Ended?)
    ensures Reachable(Fresh(s))
  {
    var b := s.(returned := None, gen := s.gen + 1, launches := 0, control := Bumped(Reconnect));
    Reach(s, CallConnect(true), b);
    var d := b.(sendEnabled := false, pc := false, control := Dropped(Reconnect));
    Reach(b, ControlGoesOn(false), d);
    Reach(d, ControlGoesOn(false), d.(control := Joining(Reconnect)));
    Reach(d.(control := Joining(Reconnect)), ControlGoesOn(false), d.(worker := Absent, control := Resetting));
    var r := d.(worker := Absent, flags := NoFlags(), result := Ok, record := NoRecord(), control := Registering);
    Reach(d.(worker := Absent, control := Resetting), ControlGoesOn(false), r);
    Reach(r, ControlGoesOn(false), r.(registered := r.gen, pc := true, control := WaitingAnswer));
    assert Fresh(s) == r.(registered := r.gen, pc := true, control := WaitingAnswer);
  }

  /** Connect giving up on the answer. */
  function TimedOut(s: State): State {
    s.(gen := s.gen + 1, launches := 0, sendEnabled := false, pc := false, control := Idle, returned := Some(Timeout))
  }

  lemma TimeoutReaches(s: State)
    requires Reachable(s) && s.control.WaitingAnswer? && !s.flags.answer && !s.flags.terminal && s.worker.Absent?
    ensures Reachable(TimedOut(s))
  {
    var b := s.(gen := s.gen + 1, launches := 0, control := Bumped(Return(Timeout)));
    Reach(s, ControlGoesOn(true), b);
    var d := b.(sendEnabled := false, pc := false, control := Dropped(Return(Timeout)));
    Reach(b, ControlGoesOn(false), d);
    Reach(d, ControlGoesOn(false), d.(control := Joining(Return(Timeout))));
    Reach(d.(control := Joining(Return(Timeout))), ControlGoesOn(false), TimedOut(s));
  }

  /** The first session of a backend. */
  lemma FirstReached()
    ensures Reachable(Fresh(Init()))
  {
    assert Run(Init(), []) == Init();
    ConnectReaches(Init());
  }

  /** A callback of the first session that passed its generation check and then
      was overtaken by a reconnect burns the offer of the second session. */
  lemma StaleCallbackBurnsOffer()
    ensures exists s :: Reachable(s) && Burnt(s) && s.registered == 3 && s.pending == {1}
  {
    FirstReached();
    var a := Fresh(Init());
    var b := a.(flags := a.flags.(gathered := true), pending := {1});
    assert {} + {1} == {1};
    Reach(a, Calls(1, GatheringDone), b);
    TimeoutReaches(b);
    ConnectReaches(TimedOut(b));
    var c := Fresh(TimedOut(b));
    var d := ClaimStep(c, 1, true);
    Reach(c, Claims(1, true), d);
    assert Burnt(d) && d.registered == 3 && d.pending == {1};
  }

  /** The first session once its worker has applied the answer and ended. */
  function Answered(): State {
    var a := Fresh(Init());
    a.(flags := a.flags.(gathered := true, offer := true, answer := true), pending := {1},
       worker := At(1, Ended), launches := 1, record := Record(1, 0, [Ok], false, false, -1))
  }

  lemma OfferReached()
    ensures var a := Answered();
      Reachable(a.(worker := At(1, Entering), flags := a.flags.(answer := false), record := Record(1, 0, [], false, false, -1)))
  {
    FirstReached();
    var a := Fresh(Init());
    var b := a.(flags := a.flags.(gathered := true), pending := {1});
    assert {} + {1} == {1} && {1} - {1} == {};
    Reach(a, Calls(1, GatheringDone), b);
    var c := b.(flags := b.flags.(offer := true), record := Record(1, 0, [], false, false, -1), sending := {1});
    Reach(b, Claims(1, true), c);
    Reach(c, Launches(1), c.(sending := {}, worker := At(1, Entering), launches := 1));
  }

  lemma AnswerReached()
    ensures Reachable(Answered())
  {
    OfferReached();
    var a := Answered();
    var b := a.(flags := a.flags.(answer := false), record := Record(1, 0, [], false, false, -1));
    Reach(b.(worker := At(1, Entering)), WorkerMoves(Enter), b.(worker := At(1, Creating)));
    Reach(b.(worker := At(1, Creating)), WorkerMoves(Ready), b.(worker := At(1, Answering)));
    assert [] + [Ok] == [Ok];
    Reach(b.(worker := At(1, Answering)), WorkerMoves(Apply(true)), a.(worker := At(1, Creating)));
    Reach(a.(worker := At(1, Creating)), WorkerMoves(Finish), a);
  }

  /** Connected, with a frame handed to the first session's track. */
  function FrameOut(): State {
    var a := Answered();
    a.(flags := a.flags.(connected := true), record := a.record.(pathUp := true), sendEnabled := true, returned := Some(Ok), control := Idle, sender := Sent(1))
  }

  lemma FrameReached()
    ensures Reachable(FrameOut())
  {
    AnswerReached();
    var a := Answered();
    var b := a.(flags := a.flags.(connected := true), record := a.record.(pathUp := true));
    Reach(a, Calls(1, PcConnected), b);
    Reach(b, ControlGoesOn(false), b.(control := WaitingIce));
    Reach(b.(control := WaitingIce), ControlGoesOn(false), b.(control := Enabling));
    var c := b.(sendEnabled := true, returned := Some(Ok), control := Idle);
    Reach(b.(control := Enabling), ControlGoesOn(false), c);
    Reach(c, SenderMoves(Admit), c.(sender := Admitted));
    Reach(c.(sender := Admitted), SenderMoves(Take), c.(sender := Holding(1)));
    Reach(c.(sender := Holding(1)), SenderMoves(Send(true)), FrameOut());
  }

  /** The second session waiting for its answer, the frame of the first still to be
      recorded. */
  function Second(): State {
    Fresh(FrameOut())
  }

  /** Its offer is out, as that of the first was. */
  function SecondOffered(): State {
    var a := Second();
    a.(flags := a.flags.(gathered := true, offer := true), pending := {1, 2},
       worker := At(2, Entering), launches := 1, record := Record(1, 0, [], false, false, -1))
  }

  lemma SecondOfferReached()
    ensures Reachable(SecondOffered())
  {
    FrameReached();
    ConnectReaches(FrameOut());
    var a := Second();
    assert {1} + {2} == {1, 2} && {} + {2} == {2} && {2} - {2} == {};
    var b := a.(flags := a.flags.(gathered := true), pending := {1, 2});
    Reach(a, Calls(2, GatheringDone), b);
    var c := b.(flags := b.flags.(offer := true), record := Record(1, 0, [], false, false, -1), sending := {2});
    Reach(b, Claims(2, true), c);
    Reach(c, Launches(2), SecondOffered());
  }

  /** Its answer is applied and it is connected. */
  function SecondConnected(): State {
    var a := SecondOffered();
    a.(flags := a.flags.(answer := true, connected := true), worker := At(2, Ended),
       record := Record(1, 0, [Ok], false, true, -1))
  }

  lemma SecondConnectedReached()
    ensures Reachable(SecondConnected())
  {
    SecondOfferReached();
    var a := SecondOffered();
    Reach(a, WorkerMoves(Enter), a.(worker := At(2, Creating)));
    Reach(a.(worker := At(2, Creating)), WorkerMoves(Ready), a.(worker := At(2, Answering)));
    assert [] + [Ok] == [Ok];
    var b := a.(flags := a.flags.(answer := true), worker := At(2, Creating), record := Record(1, 0, [Ok], false, false, -1));
    Reach(a.(worker := At(2, Answering)), WorkerMoves(Apply(true)), b);
    Reach(b, WorkerMoves(Finish), b.(worker := At(2, Ended)));
    Reach(b.(worker := At(2, Ended)), Calls(2, PcConnected), SecondConnected());
  }

  /** Without a quiet sender the report can be wrong: the second session has its
      answer, is connected and opens its track, and then reports kStreaming for a
      frame of the first, recorded after the reset; Connect has yet to return. */
  lemma StaleFrameReportsStreaming()
    ensures exists s :: Reachable(s) && s.flags.reported && s.registered == s.gen == 2 && s.record.frameFrom == 1
                        && s.flags.answer && s.result == Ok && s.flags.connected && s.returned == None
  {
    SecondConnectedReached();
    var a := SecondConnected();
    var b := a.(flags := a.flags.(frame := true), record := a.record.(frameFrom := 1), sender := Stored(1));
    Reach(a, SenderMoves(Store), b);
    var c := CallbackStep(b, 2, TrackOpened);
    Reach(b, Calls(2, TrackOpened), c);
    assert c.flags.reported && c.registered == c.gen == 2 && c.record.frameFrom == 1;
  }

  // ----- The critical sections as methods -----

  /** The members those steps work on. `claims` and `reports` count successes since
      the last reset. */
  class Connection {
    var flags: Flags
    var result: Status
    var claims: nat
    var reports: nat

    /** This object is in state `s` of the protocol. */
    ghost predicate Stands(s: State)
      reads this
    {
      && OnceEach(s)
      && flags == s.flags && result == s.result
      && claims == s.record.claims && reports == s.record.reports
    }

    constructor ()
      ensures Stands(Init())
    {
      flags, result, claims, reports := NoFlags(), Ok, 0, 0;
    }

    /** `ResetConnectState`. */
    method ResetConnectState(ghost s: State)
      requires Stands(s) && s.control.Resetting?
      modifies this
      ensures Stands(ControlStep(s, false))
    {
      flags := NoFlags();
      result := Ok;
      claims, reports := 0, 0;
    }

    /** The compare-exchange on `offer_ready_`: of all callers since the reset
        exactly the first succeeds, and the object is where the claim step of the
        protocol leads. */
    method ClaimOfferSend(ghost s: State, ghost g: int, ghost described: bool) returns (claimed: bool)
      requires Stands(s) && g in s.pending
      modifies this
      ensures Stands(ClaimStep(s, g, described))
      ensures claimed <==> old(claims) == 0
      ensures claims == 1
    {
      claimed := !flags.offer;
      flags := flags.(offer := true);
      if claimed {
        claims := claims + 1;
      }
    }

    /** `FailConnect`: the result is the first outcome, whoever comes later. */
    method Fail(ghost s: State, st: Status)
      requires Stands(s) && FirstOutcome(s)
      modifies this
      ensures Stands(FailConnect(s, st)) && FirstOutcome(FailConnect(s, st))
      ensures result == (s.record.outcomes + [st])[0]
    {
      if !flags.answer {
        result := st;
        flags := flags.(answer := true);
      }
    }

    /** The exchange on `streaming_reported_` lets one caller a session through. */
    method TryMarkStreaming(ghost s: State) returns (notify: bool)
      requires Stands(s)
      modifies this
      ensures Stands(TryMark(s))
      ensures notify <==> old(reports) == 0 && reports == 1
      ensures reports == 1 ==> s.record.trackOpened && flags.frame
    {
      if !flags.track || !flags.frame {
        return false;
      }
      if flags.reported {
        return false;
      }
      flags := flags.(reported := true);
      reports := reports + 1;
      notify := true;
    }
  }
}
