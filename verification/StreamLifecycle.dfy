/** The stream session as a state machine. One user thread calls Init, Start,
    Stop and Release; the backend reports status from its own threads; the
    reconnect worker runs beside both. A run is any interleaving of their steps.

    A step ends wherever another thread can come between: at each lock region of
    `status_mtx_`, and between two accesses to `re_stop_` and `reconnect_armed_`
    if another thread may write the first of them. Three steps hold more than one
    access: `ScheduleReconnect` reads `re_stop_`, which only its own thread writes;
    Init creates the worker, backend and handler before anybody else can see them;
    and the worker reads `reconnect_armed_` and then only its own handler until it
    calls Connect. */
module StreamLifecycle {
  import opened Core

  datatype Phase =
    | Created
    | Configured
    | Connecting
    | Streaming
    | Reconnecting
    | Disconnected
    | Destroyed
    | IceConnected

  /** Where the user thread is in a Stop or Release. */
  datatype Teardown =
    | StopCheck
    | StopSignal
    | StopDisarm
    | StopJoin
    | StopDisconnect
    | ReleaseSignal
    | ReleaseDisarm
    | ReleaseJoin
    | ReleaseEnding

  /** Where the user thread is. In the middle of a call it can only go on. A
      teardown that is `releasing` belongs to a Release. */
  datatype User =
    | Idle
    | InitEnding
    | StartPassed
    | InConnect
    | StartFailed
    | StartArmed
    | StartSucceeded
    | TearingDown(at: Teardown, releasing: bool)

  /** Where the reconnect worker is. `Clearing` and `Reporting` follow a Connect
      that succeeded: before `reconnect_armed_` is cleared, and before the new
      state is published. */
  datatype WorkerAt = Absent | Sleeping | Checked | Trying | Clearing | Reporting | Exited

  /** `arming`: a status callback has seen a drop and no stop, and is about to arm
      the worker. It holds `status_mtx_`. */
  datatype State = State(
    phase: Phase,
    user: User,
    worker: WorkerAt,
    backend: bool,
    handler: bool,
    armed: bool,
    stop: bool,
    arming: bool,
    inits: int,         // times the body of Init ran
    starts: int,        // times Start called Connect
    retries: int,       // times the worker called Connect
    tornDown: bool,     // a Stop or Release went all the way
    released: bool)     // a Release went all the way

  datatype Action =
    | CallInit(valid: bool, found: bool)
    | CallStart
    | CallStop
    | CallRelease
    | UserGoesOn(ok: bool)      // `ok` is the result when Connect returns
    | BackendReports(phase: Phase)
    | ReportGoesOn
    | WorkerGoesOn(yes: bool)   // whether the tick fires, or Connect succeeds

  function Init(): State {
    State(Created, Idle, Absent, false, false, false, false, false, 0, 0, 0, false, false)
  }

  /** The declaration order of the enumeration: kCreated alone is before kConfigured. */
  predicate AtLeastConfigured(p: Phase) { p != Created }

  predicate Active(p: Phase) { p == Streaming || p == Reconnecting }

  /** What a backend ever reports. */
  predicate Reportable(p: Phase) {
    p == Connecting || p == IceConnected || p == Streaming || p == Disconnected || p == Destroyed
  }

  predicate Doing(u: User, at: Teardown) { u.TearingDown? && u.at == at }

  predicate Gone(w: WorkerAt) { w.Absent? || w.Exited? }

  function AfterCall(u: User, ok: bool): User {
    match u
    case InitEnding => Idle
    case StartPassed => InConnect
    case InConnect => if ok then StartSucceeded else StartFailed
    case StartFailed => StartArmed
    case StartArmed => Idle
    case StartSucceeded => Idle
    case _ => u
  }

  /** What the step of Init or Start publishes. */
  function Published(u: User, phase: Phase): Phase {
    match u
    case InitEnding => Configured
    case StartPassed => Connecting
    case StartArmed => Reconnecting
    case StartSucceeded => Streaming
    case _ => phase
  }

  /** The user thread inside Init or Start. */
  function CallGoesOn(s: State, ok: bool): State {
    s.(user := AfterCall(s.user, ok),
       phase := Published(s.user, s.phase),
       starts := s.starts + if s.user.StartPassed? then 1 else 0,
       armed := s.armed || (s.user.StartFailed? && !s.stop))
  }

  /** Where a teardown goes next: joining waits for the worker to be `gone`, and
      the end of a Stop inside Release is the middle of the Release. */
  function AfterTeardown(u: User, active: bool, gone: bool): User
    requires u.TearingDown?
  {
    match u.at
    case StopCheck => if active then u.(at := StopSignal) else StopEnds(u)
    case StopSignal => u.(at := StopDisarm)
    case StopDisarm => u.(at := StopJoin)
    case StopJoin => if gone then u.(at := StopDisconnect) else u
    case StopDisconnect => StopEnds(u)
    case ReleaseSignal => u.(at := ReleaseDisarm)
    case ReleaseDisarm => u.(at := ReleaseJoin)
    case ReleaseJoin => if gone then u.(at := ReleaseEnding) else u
    case ReleaseEnding => Idle
  }

  function StopEnds(u: User): User
    requires u.TearingDown?
  {
    if u.releasing then u.(at := ReleaseSignal) else Idle
  }

  /** The user thread inside Stop or Release. */
  function TeardownGoesOn(s: State): State
    requires s.user.TearingDown?
  {
    var at := s.user.at;
    s.(user := AfterTeardown(s.user, Active(s.phase), Gone(s.worker)),
       stop := s.stop || at.StopSignal? || at.ReleaseSignal?,
       armed := s.armed && !at.StopDisarm? && !at.ReleaseDisarm?,
       handler := s.handler && !(at.ReleaseJoin? && Gone(s.worker)),
       backend := s.backend && !at.ReleaseEnding?,
       phase := if at.StopDisconnect? then Disconnected else if at.ReleaseEnding? then Destroyed else s.phase,
       tornDown := s.tornDown || at.StopDisconnect? || at.ReleaseEnding?,
       released := s.released || at.ReleaseEnding?)
  }

  function UserStep(s: State, ok: bool): State {
    if s.user.TearingDown? then TeardownGoesOn(s) else CallGoesOn(s, ok)
  }

  function CallInitStep(s: State, valid: bool, found: bool): State {
    if AtLeastConfigured(s.phase) then s
    else if !valid || !found then s.(phase := Disconnected)
    else
      s.(backend := true, handler := true, user := InitEnding, inits := s.inits + 1,
         worker := if s.worker.Absent? then Sleeping else s.worker,
         stop := if s.worker.Absent? then false else s.stop,
         armed := if s.worker.Absent? then false else s.armed)
  }

  /** `OnBackendStatusChange` up to its look at the stop flag. What it publishes is
      seen by nobody before it releases the lock. */
  function ReportStep(s: State, p: Phase): State {
    if p == Disconnected && Active(s.phase) && s.handler && !s.stop then
      s.(phase := Reconnecting, arming := true)
    else s.(phase := p)
  }

  /** The exchange on `reconnect_armed_`. */
  function ArmStep(s: State): State {
    if s.arming then s.(armed := true, arming := false) else s
  }

  /** The worker is past its look at the stop flag, finds itself armed, and the
      backoff (module Reconnect) says that a retry is due. */
  predicate Attempts(s: State, yes: bool) {
    s.worker.Checked? && s.armed && s.handler && yes && s.backend
  }

  function AfterWorker(s: State, yes: bool): WorkerAt {
    match s.worker
    case Absent => Absent
    case Exited => Exited
    case Sleeping => if s.stop then Exited else Checked
    case Checked => if Attempts(s, yes) then Trying else Sleeping
    case Trying => if yes then Clearing else Sleeping
    case Clearing => Reporting
    case Reporting => Sleeping
  }

  function WorkerStep(s: State, yes: bool): State {
    s.(worker := AfterWorker(s, yes),
       armed := s.armed && !s.worker.Clearing?,
       phase := if s.worker.Reporting? then Streaming else s.phase,
       retries := s.retries + if Attempts(s, yes) then 1 else 0)
  }

  /** The steps that take `status_mtx_`. */
  predicate TakesLock(s: State, a: Action) {
    match a
    case CallStop => false
    case ReportGoesOn => false
    case UserGoesOn(_) =>
      s.user.InitEnding? || s.user.StartPassed? || s.user.StartArmed? || s.user.StartSucceeded? ||
      Doing(s.user, StopCheck) || Doing(s.user, StopDisconnect) || Doing(s.user, ReleaseEnding)
    case WorkerGoesOn(_) => s.worker.Reporting?
    case _ => true
  }

  function Step(s: State, a: Action): State {
    if s.arming && TakesLock(s, a) then s else FreeStep(s, a)
  }

  function FreeStep(s: State, a: Action): State {
    match a
    case CallInit(valid, found) => if s.user.Idle? then CallInitStep(s, valid, found) else s
    case CallStart => if s.user.Idle? && s.phase.Configured? then s.(user := StartPassed) else s
    case CallStop => if s.user.Idle? then s.(user := TearingDown(StopCheck, false)) else s
    case CallRelease =>
      if s.user.Idle? then s.(user := TearingDown(if Active(s.phase) then StopCheck else ReleaseSignal, true)) else s
    case UserGoesOn(ok) => UserStep(s, ok)
    case BackendReports(p) => if s.backend && Reportable(p) then ReportStep(s, p) else s
    case ReportGoesOn => ArmStep(s)
    case WorkerGoesOn(yes) => WorkerStep(s, yes)
  }

  function Run(s: State, acts: seq<Action>): State
    decreases |acts|
  {
    if acts == [] then s else Run(Step(s, acts[0]), acts[1..])
  }

  // ----- What every run keeps -----

  /** Start connects at most once, and before Init there is nothing to start. */
  ghost predicate Early(s: State) {
    && s.starts <= 1
    && (s.user.InitEnding? || s.phase.Created? || s.phase.Configured? || s.user.StartPassed? ==> s.starts == 0)
    && (s.phase.Created? && !s.user.InitEnding? ==> s.inits == 0 && (s.user.Idle? || s.user.TearingDown?))
  }

  /** The body of Init runs at most once; only it creates the worker, the backend
      and the handler. */
  ghost predicate Once(s: State) {
    && 0 <= s.inits <= 1
    && (s.inits == 0 <==> s.worker.Absent?)
    && (s.inits == 1 ==> s.backend || s.released)
    && (s.backend || s.handler || s.armed || s.arming || s.phase.Configured? ==> s.inits == 1)
    && (s.user.Idle? || s.user.TearingDown? || s.inits == 1)
  }

  /** Without that body there is nothing but a fresh, failed or released stream. */
  ghost predicate NoInit(s: State) {
    s.inits == 0 ==>
      s.starts == 0 && s.retries == 0 && (s.phase.Created? || s.phase.Disconnected? || s.released)
  }

  /** A teardown waits for the worker. */
  ghost predicate Waits(s: State) {
    && (Doing(s.user, StopDisarm) || Doing(s.user, StopJoin) || Doing(s.user, ReleaseDisarm) || Doing(s.user, ReleaseJoin) ==> s.stop)
    && (Doing(s.user, ReleaseEnding) ==> !s.handler)
    && (s.user.TearingDown? && TeardownLeft(s.user.at) <= 4 ==> s.user.releasing)
    && (Doing(s.user, StopDisconnect) || Doing(s.user, ReleaseEnding) || s.tornDown ==>
          Gone(s.worker) && (s.worker.Exited? ==> s.stop))
  }

  /** After a teardown nothing comes back. */
  ghost predicate Final(s: State) {
    && (s.tornDown ==> !s.phase.Created? && !s.phase.Configured? && (s.user.Idle? || s.user.TearingDown?))
    && (s.released ==>
          s.tornDown && s.phase.Destroyed? && !s.backend && !s.handler &&
          !Doing(s.user, StopSignal) && !Doing(s.user, StopDisarm) && !Doing(s.user, StopJoin) && !Doing(s.user, StopDisconnect))
  }

  ghost predicate Inv(s: State) {
    Early(s) && Once(s) && NoInit(s) && Waits(s) && Final(s)
  }

  lemma CallKeepsEarly(s: State, ok: bool)
    requires Early(s) && !s.user.TearingDown?
    ensures Early(CallGoesOn(s, ok))
  {
  }

  lemma CallKeepsOnce(s: State, ok: bool)
    requires Once(s) && !s.user.TearingDown?
    ensures Once(CallGoesOn(s, ok))
  {
  }

  lemma CallKeepsRest(s: State, ok: bool)
    requires Inv(s) && !s.user.TearingDown?
    ensures Waits(CallGoesOn(s, ok)) && Final(CallGoesOn(s, ok)) && NoInit(CallGoesOn(s, ok))
  {
  }

  lemma TeardownKeepsEarly(s: State)
    requires Early(s) && s.user.TearingDown?
    ensures Early(TeardownGoesOn(s))
  {
  }

  lemma TeardownKeepsOnce(s: State)
    requires Once(s) && s.user.TearingDown?
    ensures Once(TeardownGoesOn(s)) && (NoInit(s) ==> NoInit(TeardownGoesOn(s)))
  {
  }

  lemma TeardownKeepsWaits(s: State)
    requires Inv(s) && s.user.TearingDown?
    ensures Waits(TeardownGoesOn(s))
  {
  }

  lemma TeardownKeepsFinal(s: State)
    requires Inv(s) && s.user.TearingDown?
    ensures Final(TeardownGoesOn(s))
  {
  }

  lemma UserKeepsInv(s: State, ok: bool)
    requires Inv(s)
    ensures Inv(UserStep(s, ok))
  {
    if s.user.TearingDown? {
      TeardownKeepsEarly(s);
      TeardownKeepsOnce(s);
      TeardownKeepsWaits(s);
      TeardownKeepsFinal(s);
    } else {
      CallKeepsEarly(s, ok);
      CallKeepsOnce(s, ok);
      CallKeepsRest(s, ok);
    }
  }

  lemma WorkerKeepsInv(s: State, ok: bool)
    requires Inv(s)
    ensures Inv(WorkerStep(s, ok))
  {
  }

  lemma ReportKeepsInv(s: State, p: Phase)
    requires Inv(s) && s.backend && Reportable(p)
    ensures Inv(ReportStep(s, p))
  {
  }

  lemma StepKeepsInv(s: State, a: Action)
    requires Inv(s)
    ensures Inv(Step(s, a))
  {
    match a
    case UserGoesOn(ok) => UserKeepsInv(s, ok);
    case WorkerGoesOn(yes) => WorkerKeepsInv(s, yes);
    case BackendReports(p) => if s.backend && Reportable(p) { ReportKeepsInv(s, p); }
    case _ =>
  }

  lemma {:induction false} RunKeepsInv(s: State, acts: seq<Action>)
    requires Inv(s)
    ensures Inv(Run(s, acts))
    decreases |acts|
  {
    if acts != [] {
      StepKeepsInv(s, acts[0]);
      RunKeepsInv(Step(s, acts[0]), acts[1..]);
    }
  }

  /** Over every run from a fresh stream: the body of Init runs at most once, so
      there is at most one worker; Start connects at most once; and a teardown
      that has completed leaves no worker behind. */
  lemma EveryRun(acts: seq<Action>)
    ensures var s := Run(Init(), acts);
      && s.inits <= 1 && s.starts <= 1
      && (s.tornDown ==> Gone(s.worker))
      && (s.released ==> s.phase.Destroyed? && !s.backend && !s.handler)
  {
    RunKeepsInv(Init(), acts);
  }

  /** Once a Stop that took the teardown path, or a Release, has completed, no
      continuation ever calls Connect again, neither the worker nor Start, and
      kDestroyed after Release is absorbing. */
  lemma {:induction false} TornDownIsFinal(s: State, acts: seq<Action>)
    requires Inv(s) && s.tornDown
    ensures var s' := Run(s, acts);
      && s'.tornDown && s'.retries == s.retries && s'.starts == s.starts && s'.inits == s.inits
      && (s.released ==> s'.released && s'.phase == Destroyed)
    decreases |acts|
  {
    if acts != [] {
      StepKeepsInv(s, acts[0]);
      TornDownStep(s, acts[0]);
      TornDownIsFinal(Step(s, acts[0]), acts[1..]);
    }
  }

  lemma TornDownStep(s: State, a: Action)
    requires Inv(s) && s.tornDown
    ensures var t := Step(s, a);
      && t.tornDown && t.retries == s.retries && t.starts == s.starts && t.inits == s.inits
      && (s.released ==> t.released)
  {
  }

  /** How many of its own steps the worker is from its exit, once told to stop. */
  function StepsLeft(w: WorkerAt): nat {
    match w
    case Absent => 0
    case Exited => 0
    case Sleeping => 1
    case Reporting => 2
    case Clearing => 3
    case Trying => 4
    case Checked => 5
  }

  /** A teardown cannot hang: told to stop, the worker gets nearer its exit with
      each step, whatever Connect returns and whoever arms it. It starts another
      attempt exactly if it was past its look at the stop flag, found itself still
      armed, and a retry was due. */
  lemma WorkerWindsDown(s: State, yes: bool)
    requires s.stop
    ensures var t := WorkerStep(s, yes);
      && t.stop && t.user == s.user
      && (Gone(s.worker) || StepsLeft(t.worker) < StepsLeft(s.worker))
      && t.retries == s.retries + (if s.worker.Checked? && s.armed && s.handler && s.backend && yes then 1 else 0)
    ensures StepsLeft(s.worker) == 0 <==> Gone(s.worker)
  {
  }

  /** What is still to come from the worker after the stop flag is set. */
  function AttemptsLeft(w: WorkerAt): nat { if w.Checked? then 1 else 0 }

  lemma StoppedStep(s: State, a: Action)
    requires Inv(s) && s.stop && !s.worker.Absent?
    ensures var t := Step(s, a);
      && t.stop && !t.worker.Absent?
      && t.retries + AttemptsLeft(t.worker) <= s.retries + AttemptsLeft(s.worker)
  {
    if a.CallInit? {
      assert !s.user.Idle? || AtLeastConfigured(s.phase);
    }
  }

  /** After the stop flag is set no run starts more than one further attempt, and
      none if the worker was not between its look at the flag and the tick. */
  lemma {:induction false} AtMostOneMore(s: State, acts: seq<Action>)
    requires Inv(s) && s.stop && !s.worker.Absent?
    ensures Run(s, acts).retries <= s.retries + AttemptsLeft(s.worker)
    decreases |acts|
  {
    if acts != [] {
      StepKeepsInv(s, acts[0]);
      StoppedStep(s, acts[0]);
      AtMostOneMore(Step(s, acts[0]), acts[1..]);
    }
  }

  /** How many steps a teardown is from its end, once the worker is gone. */
  function TeardownLeft(at: Teardown): nat {
    match at
    case StopCheck => 9
    case StopSignal => 8
    case StopDisarm => 7
    case StopJoin => 6
    case StopDisconnect => 5
    case ReleaseSignal => 4
    case ReleaseDisarm => 3
    case ReleaseJoin => 2
    case ReleaseEnding => 1
  }

  lemma TeardownAdvances(s: State)
    requires s.user.TearingDown? && Gone(s.worker)
    ensures var t := TeardownGoesOn(s);
      && Gone(t.worker)
      && (t.user.TearingDown? ==>
            TeardownLeft(t.user.at) < TeardownLeft(s.user.at) && t.user.releasing == s.user.releasing &&
            t.user.at != StopCheck)
      && (!t.user.TearingDown? ==> t.user.Idle?)
  {
  }

  /** What a teardown has done when it ends; releasing ends only in a Release. */
  lemma TeardownEnds(s: State)
    requires s.user.TearingDown? && TeardownGoesOn(s).user.Idle?
    requires TeardownLeft(s.user.at) <= 4 ==> s.user.releasing
    ensures s.user.releasing ==>
              var t := TeardownGoesOn(s); t.released && t.phase == Destroyed && !t.backend
    ensures !s.user.releasing && !s.user.at.StopCheck? ==> TeardownGoesOn(s).phase == Disconnected
    ensures TeardownGoesOn(s).tornDown || s.user.at.StopCheck?
  {
  }

  /** The user thread alone in a teardown, for at most `n` steps. */
  function UserAlone(s: State, n: nat): State
    decreases n
  {
    if n == 0 || !s.user.TearingDown? then s else UserAlone(TeardownGoesOn(s), n - 1)
  }

  /** With the worker gone every teardown completes within nine steps of its own:
      a Release has released everything and shows kDestroyed, and a Stop past its check
      has torn down and shows kDisconnected. */
  lemma {:induction false} JoinsLetPass(s: State, n: nat)
    requires s.user.TearingDown? && Gone(s.worker) && TeardownLeft(s.user.at) <= n
    requires Inv(s)
    ensures var t := UserAlone(s, n);
      && t.user.Idle?
      && (s.user.releasing ==> t.released && t.phase == Destroyed && !t.backend)
      && (!s.user.releasing && !s.user.at.StopCheck? ==> t.tornDown && t.phase == Disconnected)
    decreases n
  {
    TeardownAdvances(s);
    var t := TeardownGoesOn(s);
    if t.user.TearingDown? {
      UserKeepsInv(s, true);
      JoinsLetPass(t, n - 1);
    } else {
      TeardownEnds(s);
    }
  }

  // ----- What Stop and a drop do not do -----

  /** Stop tears down exactly when the published state is kStreaming or
      kReconnecting; otherwise the whole call changes nothing. */
  lemma StopTearsDownIffActive(s: State, ok: bool)
    requires s.user.Idle? && !s.arming
    ensures var t := UserStep(Step(s, CallStop), ok);
      && (Active(s.phase) ==> t.user == TearingDown(StopSignal, false))
      && (!Active(s.phase) ==> t == s)
  {
  }

  /** Start goes ahead exactly from kConfigured, and a Release stops first exactly what
      is streaming or reconnecting. */
  lemma CallsGoAheadIff(s: State)
    requires !s.arming
    ensures Step(s, CallStart) == (if s.user.Idle? && s.phase == Configured then s.(user := StartPassed) else s)
    ensures s.user.Idle? ==>
              Step(s, CallRelease) ==
              s.(user := TearingDown(if s.phase == Streaming || s.phase == Reconnecting then StopCheck else ReleaseSignal, true))
  {
  }

  /** The worker connects exactly if it is past its look at the stop flag, armed, with
      handler and backend, and a retry is due; a stopped one exits at its next look. */
  lemma WorkerConnectsIff(s: State, yes: bool)
    ensures var t := WorkerStep(s, yes);
      && t.retries == s.retries + (if s.worker.Checked? && s.armed && s.handler && s.backend && yes then 1 else 0)
      && (s.worker.Sleeping? ==> t.worker == if s.stop then Exited else Checked)
      && (s.worker.Checked? && t.retries == s.retries ==> t.worker == Sleeping)
      && (s.worker.Checked? && t.retries != s.retries ==> t.worker == Trying)
  {
  }

  /** What a report makes public: its state, except that a guarded drop of an active
      stream shows as kReconnecting; nothing else, and only with a backend. */
  lemma ReportMeans(s: State, p: Phase)
    requires !s.arming && Reportable(p)
    ensures !s.backend ==> Reported(s, p) == s
    ensures s.backend && p != Disconnected ==> Reported(s, p) == s.(phase := p)
    ensures s.backend && p == Disconnected ==>
              var arms := (s.phase == Streaming || s.phase == Reconnecting) && s.handler && !s.stop;
              Reported(s, p) == s.(phase := if arms then Reconnecting else Disconnected, armed := s.armed || arms)
  {
  }

  /** While a report holds the lock nobody sees or changes the published state. */
  lemma NobodySeesTheMiddle(s: State, a: Action)
    requires s.arming
    ensures Step(s, a).phase == s.phase
    ensures a.UserGoesOn? && Doing(s.user, StopCheck) ==> Step(s, a) == s
    ensures a.ReportGoesOn? ==> Step(s, a) == s.(armed := true, arming := false)
  {
    if a.UserGoesOn? && s.user.TearingDown? {
      assert TakesLock(s, a) || TeardownGoesOn(s).phase == s.phase;
    }
  }

  ghost predicate Reaches(s: State, t: State) {
    exists acts :: Run(s, acts) == t
  }

  lemma {:induction false} RunOneMore(s: State, acts: seq<Action>, a: Action)
    ensures Run(s, acts + [a]) == Step(Run(s, acts), a)
    decreases |acts|
  {
    if acts == [] {
      assert Run(Step(s, a), []) == Step(s, a);
    } else {
      RunOneMore(Step(s, acts[0]), acts[1..], a);
      assert (acts + [a])[1..] == acts[1..] + [a];
    }
  }

  lemma Reach(s: State, t: State, a: Action, u: State)
    requires Reaches(s, t) && Step(t, a) == u
    ensures Reaches(s, u)
  {
    var acts :| Run(s, acts) == t;
    RunOneMore(s, acts, a);
  }

  lemma ReachesItself(s: State)
    ensures Reaches(s, s)
  {
    assert Run(s, []) == s;
  }

  /** A stream that has been initialised and is inside its only Start. */
  function Starting(user: User, phase: Phase): State {
    State(phase, user, Sleeping, true, true, false, false, false, 1, 1, 0, false, false)
  }

  lemma StartingReached()
    ensures Reaches(Init(), Starting(InConnect, Connecting))
  {
    var s := Init().(backend := true, handler := true, user := InitEnding, inits := 1, worker := Sleeping);
    ReachesItself(Init());
    Reach(Init(), Init(), CallInit(true, true), s);
    Reach(Init(), s, UserGoesOn(true), s.(phase := Configured, user := Idle));
    Reach(Init(), s.(phase := Configured, user := Idle), CallStart, s.(phase := Configured, user := StartPassed));
    Reach(Init(), s.(phase := Configured, user := StartPassed), UserGoesOn(true), Starting(InConnect, Connecting));
  }

  /** A failed first Connect arms the worker; its first retry is under way. */
  lemma RetryReached()
    ensures Reaches(Init(), Starting(Idle, Reconnecting).(armed := true, worker := Trying, retries := 1))
  {
    var s := Starting(InConnect, Connecting);
    StartingReached();
    Reach(Init(), s, UserGoesOn(false), s.(user := StartFailed));
    Reach(Init(), s.(user := StartFailed), UserGoesOn(true), s.(user := StartArmed, armed := true));
    var t := Starting(Idle, Reconnecting).(armed := true);
    Reach(Init(), s.(user := StartArmed, armed := true), UserGoesOn(true), t);
    Reach(Init(), t, WorkerGoesOn(true), t.(worker := Checked));
    Reach(Init(), t.(worker := Checked), WorkerGoesOn(true), t.(worker := Trying, retries := 1));
  }

  /** A reachable state in which Stop returns and the worker goes on connecting:
      the retry reported kConnecting and failed, so Stop finds neither kStreaming
      nor kReconnecting. */
  function Unstoppable(): State {
    Starting(Idle, Connecting).(armed := true, retries := 1)
  }

  lemma StopCanBeIgnored()
    ensures Reaches(Init(), Unstoppable())
    ensures Run(Unstoppable(), [CallStop, UserGoesOn(true), WorkerGoesOn(true), WorkerGoesOn(true)]) ==
            Unstoppable().(worker := Trying, retries := 2)
  {
    var s := Starting(Idle, Reconnecting).(armed := true, worker := Trying, retries := 1);
    RetryReached();
    Reach(Init(), s, BackendReports(Connecting), s.(phase := Connecting));
    Reach(Init(), s.(phase := Connecting), WorkerGoesOn(false), Unstoppable());
    StoppedInVain();
  }

  lemma StoppedInVain()
    ensures Run(Unstoppable(), [CallStop, UserGoesOn(true), WorkerGoesOn(true), WorkerGoesOn(true)]) ==
            Unstoppable().(worker := Trying, retries := 2)
  {
    var u := Unstoppable();
    Next(u.(worker := Checked), [WorkerGoesOn(true)], u.(worker := Trying, retries := 2));
    Next(u, [WorkerGoesOn(true), WorkerGoesOn(true)], u.(worker := Checked));
    Next(u.(user := TearingDown(StopCheck, false)), [UserGoesOn(true), WorkerGoesOn(true), WorkerGoesOn(true)], u);
    Next(u, [CallStop, UserGoesOn(true), WorkerGoesOn(true), WorkerGoesOn(true)], u.(user := TearingDown(StopCheck, false)));
  }

  lemma Next(s: State, acts: seq<Action>, t: State)
    requires acts != [] && Step(s, acts[0]) == t
    ensures Run(s, acts) == Run(t, acts[1..])
    ensures |acts| == 1 ==> Run(s, acts) == t
  {
  }

  // ----- Drops -----

  /** A report from its start to its end. */
  function Reported(s: State, p: Phase): State {
    Step(Step(s, BackendReports(p)), ReportGoesOn)
  }

  lemma DropReported(s: State)
    requires s.backend && !s.arming
    ensures var arms := Active(s.phase) && s.handler && !s.stop;
      Reported(s, Disconnected) ==
      s.(phase := if arms then Reconnecting else Disconnected, armed := s.armed || arms)
  {
    ReportMeans(s, Disconnected);
  }

  /** A reported drop arms the worker exactly when the stream was streaming or
      reconnecting, has a handler and is not being stopped. */
  lemma DropArmsIff(s: State)
    requires s.backend && !s.armed && !s.arming
    ensures Reported(s, Disconnected).armed <==> Active(s.phase) && s.handler && !s.stop
  {
  }

  /** An armed worker is disarmed by exactly two things: the clearing store after
      a Connect that succeeded, and the second store of a Stop or Release. */
  lemma DisarmedIff(s: State, a: Action)
    requires Inv(s) && s.armed
    ensures !Step(s, a).armed <==>
            (a.WorkerGoesOn? && s.worker.Clearing?) ||
            (a.UserGoesOn? && (Doing(s.user, StopDisarm) || Doing(s.user, ReleaseDisarm)))
  {
  }

  /** So a reported drop is pursued through every run until a Connect succeeds or
      the user stops: whenever the worker ends up disarmed, one of the two
      happened, at action `k`. */
  lemma {:induction false} ArmedUntilSettled(s: State, acts: seq<Action>) returns (k: nat)
    requires Inv(s) && s.armed && !Run(s, acts).armed
    ensures k < |acts| && Run(s, acts[..k]).armed
    ensures var t := Run(s, acts[..k]);
      || (acts[k].WorkerGoesOn? && t.worker.Clearing?)
      || (acts[k].UserGoesOn? && (Doing(t.user, StopDisarm) || Doing(t.user, ReleaseDisarm)))
    decreases |acts|
  {
    var a := acts[0];
    DisarmedIff(s, a);
    if !Step(s, a).armed {
      assert acts[..0] == [];
      k := 0;
    } else {
      StepKeepsInv(s, a);
      var n := ArmedUntilSettled(Step(s, a), acts[1..]);
      k := n + 1;
      assert acts[..k][0] == a && acts[..k][1..] == acts[1..][..n];
    }
  }

  // What becomes of a drop is settled when both threads are done with what they are
  // in the middle of. A Connect under way may succeed or fail, and either thread may
  // be the first to finish.

  /** The worker done with the attempt it is in, if any; `ok` is the outcome of a
      Connect still under way. */
  function WorkerSettled(s: State, ok: bool): State {
    match s.worker
    case Trying => if ok then Finished(WorkerStep(s, true)) else WorkerStep(s, false)
    case Clearing => Finished(s)
    case Reporting => WorkerStep(s, true)
    case _ => s
  }

  function Finished(s: State): State {
    WorkerStep(WorkerStep(s, true), true)
  }

  /** The user thread done with Init or Start. */
  function UserSettled(s: State, ok: bool): State {
    if s.user.TearingDown? then s
    else CallGoesOn(CallGoesOn(CallGoesOn(CallGoesOn(s, ok), ok), ok), ok)
  }

  function Settled(s: State, workerOk: bool, userOk: bool, workerFirst: bool): State {
    if workerFirst then UserSettled(WorkerSettled(s, workerOk), userOk)
    else WorkerSettled(UserSettled(s, userOk), workerOk)
  }

  /** The worker still has to clear the flag, after a success. */
  predicate WillClear(s: State, ok: bool) {
    s.worker.Clearing? || (s.worker.Trying? && ok)
  }

  predicate WorkerPublishes(s: State, ok: bool) {
    s.worker.Reporting? || WillClear(s, ok)
  }

  /** Start still has to set it, after a failure. */
  predicate WillArm(s: State, ok: bool) {
    !s.stop && (s.user.StartFailed? || ((s.user.InConnect? || s.user.StartPassed?) && !ok))
  }

  /** Start is past, or will get, a Connect that succeeded. */
  predicate StartSucceeds(s: State, ok: bool) {
    s.user.StartSucceeded? || ((s.user.InConnect? || s.user.StartPassed?) && ok)
  }

  lemma FinishedIs(s: State)
    requires s.worker.Clearing?
    ensures Finished(s) == s.(armed := false, phase := Streaming, worker := Sleeping)
  {
  }

  lemma TryingEnds(s: State, ok: bool)
    requires s.worker.Trying?
    ensures WorkerStep(s, ok) == s.(worker := if ok then Clearing else Sleeping)
  {
  }

  lemma WorkerSettles(s: State, ok: bool)
    ensures var t := WorkerSettled(s, ok);
      t == s.(armed := s.armed && !WillClear(s, ok),
              phase := if WorkerPublishes(s, ok) then Streaming else s.phase,
              worker := if s.worker.Trying? || WorkerPublishes(s, ok) then Sleeping else s.worker)
  {
    if s.worker.Trying? {
      TryingEnds(s, ok);
      if ok {
        FinishedIs(WorkerStep(s, ok));
      }
    } else if s.worker.Clearing? {
      FinishedIs(s);
    }
  }

  /** Start succeeds or has just done so. */
  predicate StartWins(s: State, ok: bool) {
    StartSucceeds(s, ok) || (s.user.Idle? && s.phase.Streaming?)
  }

  /** How many steps Init or Start is from its end. */
  function CallLeft(u: User): nat {
    match u
    case InitEnding => 1
    case StartPassed => 4
    case InConnect => 3
    case StartFailed => 2
    case StartArmed => 1
    case StartSucceeded => 1
    case _ => 0
  }

  lemma CallSettles(s: State, ok: bool)
    requires !s.user.TearingDown?
    ensures var t := CallGoesOn(s, ok);
      && !t.user.TearingDown?
      && ((t.armed || WillArm(t, ok)) <==> (s.armed || WillArm(s, ok)))
      && (StartWins(s, ok) ==> StartWins(t, ok))
      && (s.user.Idle? ==> t == s)
      && (CallLeft(s.user) > 0 ==> CallLeft(t.user) < CallLeft(s.user))
      && t.worker == s.worker && t.stop == s.stop
  {
  }

  lemma UserSettles(s: State, ok: bool)
    ensures var t := UserSettled(s, ok);
      && (t.armed <==> s.armed || WillArm(s, ok))
      && (StartSucceeds(s, ok) ==> t.phase == Streaming)
      && (s.user.Idle? ==> t == s)
      && t.worker == s.worker && t.stop == s.stop
      && (if s.user.TearingDown? then t == s else t.user.Idle?)
  {
    if !s.user.TearingDown? {
      var s1 := CallGoesOn(s, ok);
      var s2 := CallGoesOn(s1, ok);
      var s3 := CallGoesOn(s2, ok);
      CallSettles(s, ok);
      CallSettles(s1, ok);
      CallSettles(s2, ok);
      CallSettles(s3, ok);
      assert CallLeft(s.user) <= 4;
    }
  }

  /** The flag in the end: clearing and arming count in the order they come. */
  lemma SettledArmed(s: State, workerOk: bool, userOk: bool, workerFirst: bool)
    ensures Settled(s, workerOk, userOk, workerFirst).armed <==>
            if workerFirst then (s.armed && !WillClear(s, workerOk)) || WillArm(s, userOk)
            else (s.armed || WillArm(s, userOk)) && !WillClear(s, workerOk)
  {
    WorkerSettles(s, workerOk);
    UserSettles(s, userOk);
    WorkerSettles(UserSettled(s, userOk), workerOk);
    UserSettles(WorkerSettled(s, workerOk), userOk);
  }

  /** What is published in the end when a Connect succeeded. */
  lemma SettledPhase(s: State, workerOk: bool, userOk: bool, workerFirst: bool)
    ensures StartSucceeds(s, userOk) || (WorkerPublishes(s, workerOk) && (s.user.Idle? || !workerFirst)) ==>
              Settled(s, workerOk, userOk, workerFirst).phase == Streaming
  {
    WorkerSettles(s, workerOk);
    UserSettles(s, userOk);
    WorkerSettles(UserSettled(s, userOk), workerOk);
    UserSettles(WorkerSettled(s, workerOk), userOk);
  }

  /** A drop of a stream that has not been stopped is pursued by nobody in exactly
      these cases, wherever the threads are, whatever state is published, however
      the Connects under way end and whoever ends first. The worker still clears
      the flag, after a success, and Start does not set it later. Or the flag was
      not set, because the state was not active, and Start does not set it either.
      If a Connect succeeded the stream is then published as streaming, unless the
      tail of a Start publishes after the worker. (A Start that has passed its check
      and not called Connect yet connects after the drop in any case.) */
  lemma DropForgottenIff(s: State, workerOk: bool, userOk: bool, workerFirst: bool)
    requires s.backend && s.handler && !s.stop && !s.arming
    ensures var t := Settled(Reported(s, Disconnected), workerOk, userOk, workerFirst);
      && (!t.armed <==>
            if workerFirst then (WillClear(s, workerOk) || (!Active(s.phase) && !s.armed)) && !WillArm(s, userOk)
            else WillClear(s, workerOk) || (!Active(s.phase) && !s.armed && !WillArm(s, userOk)))
      && (StartSucceeds(s, userOk) || (WorkerPublishes(s, workerOk) && (s.user.Idle? || !workerFirst)) ==>
            t.phase == Streaming)
  {
    DropReported(s);
    SettledArmed(Reported(s, Disconnected), workerOk, userOk, workerFirst);
    SettledPhase(Reported(s, Disconnected), workerOk, userOk, workerFirst);
  }

  /** When other steps come inside the report, it is the exchange that counts. */
  lemma ArmingForgottenIff(s: State, workerOk: bool, userOk: bool, workerFirst: bool)
    requires s.arming
    ensures !Settled(Step(s, ReportGoesOn), workerOk, userOk, workerFirst).armed <==>
            WillClear(s, workerOk) && (!workerFirst || !WillArm(s, userOk))
  {
    SettledArmed(Step(s, ReportGoesOn), workerOk, userOk, workerFirst);
  }

  /** With the user thread idle only the worker matters. */
  lemma DropForgottenByWorker(s: State, ok: bool)
    requires s.backend && s.handler && !s.stop && !s.arming && s.user.Idle?
    ensures var t := WorkerSettled(Reported(s, Disconnected), ok);
      !t.armed <==> s.worker.Clearing? || (s.worker.Trying? && ok) || (!Active(s.phase) && !s.armed)
  {
    DropReported(s);
    WorkerSettles(Reported(s, Disconnected), ok);
  }

  /** And with the worker idle only Start. */
  lemma DropForgottenInStart(s: State, ok: bool)
    requires s.backend && s.handler && !s.stop && !s.arming
    requires s.user.InConnect? || s.user.StartFailed? || s.user.StartSucceeded?
    ensures var t := UserSettled(Reported(s, Disconnected), ok);
      && t.user.Idle?
      && (!t.armed <==> StartSucceeds(s, ok) && !Active(s.phase) && !s.armed)
      && (!t.armed ==> t.phase == Streaming)
  {
    DropReported(s);
    UserSettles(Reported(s, Disconnected), ok);
  }

  /** The first window is reached: a first Connect that fails and a retry that
      succeeds, with the drop reported before the clearing store. */
  lemma DropCanBeForgotten()
    ensures Reaches(Init(), Starting(Idle, Streaming).(retries := 1))
    ensures var s := Starting(Idle, Reconnecting).(armed := true, worker := Clearing, retries := 1);
      && Reaches(Init(), s)
      && WorkerSettled(Reported(s, Disconnected), true) == Starting(Idle, Streaming).(retries := 1)
  {
    var s := Starting(Idle, Reconnecting).(armed := true, worker := Trying, retries := 1);
    RetryReached();
    var t := s.(worker := Clearing);
    Reach(Init(), s, WorkerGoesOn(true), t);
    Reach(Init(), t, BackendReports(Disconnected), t.(arming := true));
    Reach(Init(), t.(arming := true), ReportGoesOn, t);
    Reach(Init(), t, WorkerGoesOn(true), t.(armed := false, worker := Reporting));
    Reach(Init(), t.(armed := false, worker := Reporting), WorkerGoesOn(true), Starting(Idle, Streaming).(retries := 1));
  }

  /** So is the time before Connect returns: the drop comes when the connection is up
      and the retry has yet to say so. */
  lemma DropDuringRetryForgotten()
    ensures var s := Starting(Idle, IceConnected).(armed := true, worker := Trying, retries := 1);
      && Reaches(Init(), s)
      && WorkerSettled(Reported(s, Disconnected), true) == Starting(Idle, Streaming).(retries := 1)
  {
    var s := Starting(Idle, Reconnecting).(armed := true, worker := Trying, retries := 1);
    RetryReached();
    Reach(Init(), s, BackendReports(IceConnected), s.(phase := IceConnected));
    DropReported(s.(phase := IceConnected));
    WorkerSettles(s.(phase := Disconnected), true);
  }

  /** And the same in the first Connect. */
  lemma DropDuringStartForgotten()
    ensures var s := Starting(InConnect, Connecting);
      && Reaches(Init(), s)
      && UserSettled(Reported(s, Disconnected), true) == Starting(Idle, Streaming)
  {
    StartingReached();
    DropReported(Starting(InConnect, Connecting));
  }

  /** The second too: a retry that reports kIceConnected and succeeds, with the drop
      reported after the clearing store. */
  lemma DropCanBeForgottenLater()
    ensures var s := Starting(Idle, IceConnected).(worker := Reporting, retries := 1);
      && Reaches(Init(), s)
      && WorkerSettled(Reported(s, Disconnected), true) == Starting(Idle, Streaming).(retries := 1)
  {
    LateWindowReached();
    var s := Starting(Idle, IceConnected).(worker := Reporting, retries := 1);
    assert Reported(s, Disconnected) == s.(phase := Disconnected);
  }

  lemma LateWindowReached()
    ensures Reaches(Init(), Starting(Idle, IceConnected).(worker := Reporting, retries := 1))
  {
    var s := Starting(Idle, Reconnecting).(armed := true, worker := Trying, retries := 1);
    RetryReached();
    var t := s.(phase := IceConnected);
    Reach(Init(), s, BackendReports(IceConnected), t);
    Reach(Init(), t, WorkerGoesOn(true), t.(worker := Clearing));
    Reach(Init(), t.(worker := Clearing), WorkerGoesOn(true), t.(armed := false, worker := Reporting));
  }

  /** And without any window: the state of a connected WebRTC stream is
      kIceConnected until a frame is sent, and a drop reported then is final. */
  lemma DropBeforeFirstFrame()
    ensures var s := Starting(Idle, IceConnected);
      && Reaches(Init(), s)
      && Reported(s, Disconnected) == Starting(Idle, Disconnected)
  {
    var s := Starting(InConnect, Connecting);
    StartingReached();
    Reach(Init(), s, UserGoesOn(true), s.(user := StartSucceeded));
    Reach(Init(), s.(user := StartSucceeded), UserGoesOn(true), Starting(Idle, Streaming));
    Reach(Init(), Starting(Idle, Streaming), BackendReports(IceConnected), Starting(Idle, IceConnected));
  }

  // ----- A failed Init -----

  ghost predicate Untouched(s: State) {
    s.inits == 0 && s.retries == 0 && s.starts == 0 && s.worker.Absent? && !s.backend && !s.arming
  }

  ghost predicate Over(s: State) {
    (s.phase.Disconnected? || s.phase.Destroyed?) && (s.user.Idle? || s.user.TearingDown?)
  }

  ghost predicate NeverInitialised(s: State) {
    Untouched(s) && Over(s)
  }

  lemma TeardownUntouched(s: State)
    requires Untouched(s) && s.user.TearingDown?
    ensures Untouched(TeardownGoesOn(s))
  {
  }

  lemma TeardownOver(s: State)
    requires Over(s) && s.user.TearingDown?
    ensures Over(TeardownGoesOn(s))
  {
  }

  lemma StaysUninitialised(s: State, a: Action)
    requires NeverInitialised(s)
    ensures NeverInitialised(Step(s, a))
  {
    if a.UserGoesOn? && s.user.TearingDown? {
      TeardownUntouched(s);
      TeardownOver(s);
    }
  }

  /** What Init returns. The order of the two comparisons is that of the source. */
  function InitStatus(s: State, valid: bool, found: bool): Status {
    if AtLeastConfigured(s.phase) then Ok
    else if s.phase.Destroyed? || s.phase.IceConnected? then UnsupportedOperation
    else if !valid then InvalidArgument
    else if !found then BackendUnavailable
    else Ok
  }

  /** Init never refuses a destroyed stream: the first comparison has caught it. */
  lemma InitNeverRefuses(s: State, valid: bool, found: bool)
    ensures InitStatus(s, valid, found) != UnsupportedOperation
    ensures InitStatus(s, valid, found) == Ok <==> !s.phase.Created? || (valid && found)
    ensures InitStatus(s, valid, found) == InvalidArgument <==> s.phase.Created? && !valid
    ensures InitStatus(s, valid, found) == BackendUnavailable <==> s.phase.Created? && valid && !found
  {
  }

  /** Init answers kOk and leaves no backend exactly when the stream is past
      kCreated without one; and that is so exactly after a Release, or after an Init
      that failed, which is what kDisconnected without an Init means. */
  lemma InitInVainIff(s: State, valid: bool, found: bool)
    requires Inv(s) && s.user.Idle? && !s.arming
    ensures InitStatus(s, valid, found) == Ok && !Step(s, CallInit(valid, found)).backend <==>
            !s.backend && !s.phase.Created?
    ensures !s.backend && !s.phase.Created? <==> s.released || (s.inits == 0 && s.phase.Disconnected?)
    ensures s.inits == 0 && s.phase.Disconnected? ==> NeverInitialised(s)
  {
  }

  /** Both are reached. */
  lemma InVainReached()
    ensures Reaches(Init(), Init().(phase := Disconnected))
    ensures Reaches(Init(), Init().(phase := Destroyed, stop := true, tornDown := true, released := true))
  {
    var s := Init();
    ReachesItself(s);
    Reach(s, s, CallInit(false, true), s.(phase := Disconnected));
    Reach(s, s, CallRelease, s.(user := TearingDown(ReleaseSignal, true)));
    var t := s.(stop := true);
    Reach(s, s.(user := TearingDown(ReleaseSignal, true)), UserGoesOn(true), t.(user := TearingDown(ReleaseDisarm, true)));
    Reach(s, t.(user := TearingDown(ReleaseDisarm, true)), UserGoesOn(true), t.(user := TearingDown(ReleaseJoin, true)));
    Reach(s, t.(user := TearingDown(ReleaseJoin, true)), UserGoesOn(true), t.(user := TearingDown(ReleaseEnding, true)));
    Reach(s, t.(user := TearingDown(ReleaseEnding, true)), UserGoesOn(true),
      t.(phase := Destroyed, tornDown := true, released := true));
  }

  /** An Init that fails is final: it leaves kDisconnected, which every later Init
      takes for an initialised stream and answers with kOk, so no backend is ever
      created. */
  lemma {:induction false} FailedInitIsFinal(s: State, acts: seq<Action>, valid: bool, found: bool)
    requires NeverInitialised(s)
    ensures Run(s, acts).inits == 0 && !Run(s, acts).backend
    ensures InitStatus(Run(s, acts), valid, found) == Ok
    decreases |acts|
  {
    if acts != [] {
      StaysUninitialised(s, acts[0]);
      FailedInitIsFinal(Step(s, acts[0]), acts[1..], valid, found);
    }
  }

  lemma FailedInitLeads(valid: bool, found: bool)
    requires !valid || !found
    ensures NeverInitialised(Step(Init(), CallInit(valid, found)))
    ensures InitStatus(Init(), valid, found) != Ok
  {
  }
}
