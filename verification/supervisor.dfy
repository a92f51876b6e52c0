/** The supervisor task (src/supervisor.rs). Its environment (clients, the clock, the child process, probes, RCON
    replies, the shutdown signal) follows an arbitrary script, and may act at every await and every reading of shared
    state. Each observation is one method that asks the environment and records the answer in `run`. `fuel` is the
    number of awaits that are observed: when it runs out a method reports that the task was cut there, so that what is
    proved holds of every finite prefix of every run, and of a task aborted at any await. */
module Supervisor {
  import opened Wrappers
  import opened Lifecycle
  import opened BackendUse
  import opened Ledgers
  import opened Environments
  import opened PlayerCount
  import opened Reconciliation

  /** How one `tokio::select!` ends. The notification of the activity tracker counts as a timer. */
  datatype Arm =
    | ShutdownArm
    | WakeArm(request: Option<WakeRequest>)
    | ChildArm
    | StabilityArm
    | PollArm
    | FutureArm
    | TimerArm
    | CutArm

  /** The branches of one `tokio::select!` besides shutdown: the wake channel, the child's exit, the notification of the
      activity tracker, a future (a probe, a connection attempt, the gate, a command or a cleanup), and timers. */
  datatype Branches = Branches(
    wakes: bool,
    child: bool,
    notified: bool,
    future: bool,
    futureFirst: bool,
    stableAt: Option<Instant>,
    pollAt: Option<Instant>,
    timer: Option<Instant>)

  predicate Reached(timer: Option<Instant>, now: Instant) {
    timer.Some? && now >= timer.value
  }

  /** The first branch that is ready, shutdown and wakes apart. `ready` is what the environment says of those that do
      not depend on the clock; a tracker that no longer shows what was read has notified. */
  function FirstReady(
    branches: Branches, ready: Option<Branch>, now: Instant, shown: Option<Activity>, read: Option<Activity>)
    : Option<Branch>
  {
    if branches.child && ready == Some(ChildBranch) then ready
    else if Reached(branches.stableAt, now) then Some(StabilityBranch)
    else if branches.notified && shown != read then Some(ChangedBranch)
    else if branches.notified && ready == Some(NotifiedBranch) then ready
    else if Reached(branches.pollAt, now) then Some(PollBranch)
    else if branches.future && ready == Some(FutureBranch) then ready
    else if Reached(branches.timer, now) then Some(TimerBranch)
    else None
  }

  /** The branches are those of the situation, and the timers run out when the ledger says. */
  ghost predicate Fits(branches: Branches, read: Option<Activity>, l: Ledger) {
    && branches.wakes == Listens(l) && branches.child == Offered(l, ChildBranch)
    && branches.notified == Offered(l, NotifiedBranch) && branches.future == Offered(l, FutureBranch)
    && branches.futureFirst == l.gate.Probing?
    && (branches.notified ==> read == l.lastRead)
    && branches.stableAt == (if l.book.current.phase == Running && l.book.current.streak > 0
                             then Some(l.book.current.phaseStartedAt + STABILITY_WINDOW) else None)
    && branches.pollAt == (if (l.watch == Polling && l.config.rcon) || (l.book.current.phase == External && !l.gate.Probing?)
                           then Some(l.nextPoll) else None)
    && TimerFits(branches.timer, l)
  }

  ghost predicate TimerFits(timer: Option<Instant>, l: Ledger) {
    if l.watch == Polling then
      timer == (if AnchorFrom(l, l.lastRead).None? then None
                else Some(AnchorFrom(l, l.lastRead).value + l.config.idleTimeout))
    else if l.book.current.phase == Cooldown then timer == l.book.current.retryAt
    else if l.watch == Trying then timer == Some(StartupDeadline(l))
    else if l.watch == Pausing then timer.Some? && timer.value <= StartupDeadline(l)
    else timer.None?
  }

  lemma FitsStill(branches: Branches, read: Option<Activity>, before: Ledger, after: Ledger)
    requires Fits(branches, read, before) && Quietly(before, after)
    ensures Fits(branches, read, after)
  {
  }

  /** Taking the first ready branch is lawful, and so is waiting when there is none. */
  lemma FirstReadyIsLawful(branches: Branches, read: Option<Activity>, script: Script, l: Ledger)
    requires Fits(branches, read, l) && WatchFacts(l) && !l.world.shutdownSent && NobodyCalls(l) && HasWait(l)
    ensures
      var b := FirstReady(branches, script.branch(l.world.length), l.world.now, l.world.activity, read);
      if b.None? then NothingIsDue(l) && Answers(script, l, Waited)
      else MayWake(l, b.value) && Answers(script, l, Woken(b.value))
  {
    hide EffectiveAnchor;
  }

  function ArmOf(b: Branch): Arm {
    match b
    case ChildBranch => ChildArm
    case StabilityBranch => StabilityArm
    case PollBranch => PollArm
    case FutureBranch => FutureArm
    case _ => TimerArm
  }

  lemma FirstReadyMeans(
    branches: Branches, ready: Option<Branch>, now: Instant, shown: Option<Activity>, read: Option<Activity>)
    ensures
      match FirstReady(branches, ready, now, shown, read)
      case Some(ChildBranch) => branches.child
      case Some(StabilityBranch) => Reached(branches.stableAt, now)
      case Some(ChangedBranch) => branches.notified
      case Some(NotifiedBranch) => branches.notified
      case Some(PollBranch) => Reached(branches.pollAt, now)
      case Some(FutureBranch) => branches.future
      case Some(TimerBranch) => Reached(branches.timer, now)
      case Some(ResetBranch) => false
      case None => true
  {
  }

  lemma FutureComesFirst(branches: Branches, read: Option<Activity>, script: Script, l: Ledger)
    requires Fits(branches, read, l) && branches.futureFirst && branches.future && !l.world.shutdownSent
    requires l.book.current.phase in {Reconciling, External} && script.branch(l.world.length) == Some(FutureBranch)
    ensures MayWake(l, FutureBranch) && Answers(script, l, Woken(FutureBranch))
  {
  }

  lemma ListensFits(branches: Branches, read: Option<Activity>, l: Ledger)
    requires Fits(branches, read, l)
    ensures branches.wakes == Listens(l) && branches.futureFirst == l.gate.Probing?
    ensures branches.notified ==> l.watch != Pausing
    ensures branches.futureFirst ==> branches.future
  {
  }

  lemma StillSuspended(before: Ledger, after: Ledger)
    requires MaySuspend(before) && Quietly(before, after)
    ensures HasWait(after)
  {
  }

  // ---- The branches of each `select!`

  lemma CallersFit(l: Ledger)
    requires Facts(l) && l.book.current.phase in {Stopped, Conflict} && l.watch == Absent && l.wakes.demand.None?
    ensures MaySuspend(l) && Fits(ONLY_WAKES, None, l)
  {
    hide EffectiveAnchor;
  }

  lemma ProbeFits(l: Ledger)
    requires l.book.current.phase in {Reconciling, External} && l.watch == Absent && l.gate.Probing? && !l.childLive
    ensures MaySuspend(l) && Fits(ONLY_WAKES.(future := true, futureFirst := true), None, l)
  {
    hide EffectiveAnchor;
  }

  lemma ExternalFits(l: Ledger, nextPoll: Instant)
    requires l.book.current.phase == External && l.watch == Absent && FoundReady(l.gate) && l.nextPoll == nextPoll
    ensures MaySuspend(l) && Fits(ONLY_WAKES.(pollAt := Some(nextPoll)), None, l)
  {
    hide EffectiveAnchor;
  }

  lemma CooldownFits(l: Ledger, retryAt: Instant)
    requires Facts(l) && l.book.current.phase == Cooldown && l.watch == Absent
    requires l.book.current.retryAt == Some(retryAt) && l.world.now < retryAt
    ensures MaySuspend(l) && Fits(ONLY_WAKES.(timer := Some(retryAt)), None, l)
  {
    hide EffectiveAnchor;
  }

  lemma CleanupFits(l: Ledger, latched: bool)
    requires Facts(l) && l.book.current.phase == Stopping && l.watch == Absent && l.childLive
    requires latched <==> l.wakes.demand.Some?
    ensures !l.gate.Probing? && MaySuspend(l) && Fits(ONLY_WAKES.(wakes := !latched, future := true), None, l)
  {
    hide EffectiveAnchor;
  }

  lemma AttemptFits(l: Ledger)
    requires Facts(l) && l.book.current.phase == Starting && l.watch == Trying && l.childLive
    ensures !l.gate.Probing? && MaySuspend(l)
    ensures Fits(ONLY_WAKES.(child := true, future := true, timer := Some(StartupDeadline(l))), None, l)
  {
    hide EffectiveAnchor;
  }

  lemma PauseFits(l: Ledger, retryAt: Instant)
    requires Facts(l) && l.book.current.phase == Starting && l.watch == Pausing && l.childLive
    requires retryAt <= StartupDeadline(l)
    ensures !l.gate.Probing? && MaySuspend(l) && Fits(ONLY_WAKES.(child := true, timer := Some(retryAt)), None, l)
  {
    hide EffectiveAnchor;
  }

  function Stability(m: LifecycleState): Option<Instant> {
    if m.phase == Running && m.streak > 0 then Some(m.phaseStartedAt + STABILITY_WINDOW) else None
  }

  lemma MonitoringFits(l: Ledger)
    requires Facts(l) && l.book.current.phase == Running && l.childLive && l.wakes.demand.None? && l.watch == Polling
    requires !IdleStopDue(l) && l.world.activity == l.lastRead
    ensures !l.gate.Probing? && MaySuspend(l)
    ensures
      var anchor := AnchorNow(l);
      Fits(ONLY_WAKES.(
             child := true, notified := true, stableAt := Stability(l.book.current),
             pollAt := if l.config.rcon then Some(l.nextPoll) else None,
             timer := if anchor.None? then None else Some(anchor.value + l.config.idleTimeout)),
           l.lastRead, l)
  {
    hide EffectiveAnchor;
  }

  lemma QueueFits(l: Ledger)
    requires Facts(l) && l.book.current.phase == Running && l.childLive && l.watch.Due?
    ensures !l.gate.Probing? && MaySuspend(l)
    ensures Fits(ONLY_WAKES.(child := true, notified := true, future := true, stableAt := Stability(l.book.current)),
                 l.lastRead, l)
  {
    hide EffectiveAnchor;
  }

  lemma FinalCheckFits(l: Ledger)
    requires Facts(l) && l.book.current.phase == Running && l.childLive && l.watch.Rechecked?
    ensures !l.gate.Probing? && MaySuspend(l)
    ensures Fits(ONLY_WAKES.(child := true, future := true, stableAt := Stability(l.book.current)), None, l)
  {
    hide EffectiveAnchor;
  }

  const ONLY_WAKES: Branches := Branches(true, false, false, false, false, None, None, None)

  datatype TryReceive = Received(request: WakeRequest) | EmptySlot | Disconnected

  datatype DemandOutcome = Demanded | NoMoreDemand | DemandCut

  datatype ProbeOutcome = ProbeDone(result: ReconciliationResult, startupDemand: bool) | ProbeShutdown | ProbeCut

  datatype StartupOutcome = StartIdle | StartLaunch | StartShutdown | StartCut

  datatype GateOutcome = GateLaunch | GateBlocked | GateShutdown | GateCut

  datatype ExternalOutcome = ExternalReady | ExternalConflict | ExternalShutdown | ExternalCut

  datatype CooldownOutcome = CooldownStopped | CooldownLaunch | CooldownShutdown | CooldownCut

  datatype CleanupEnd = CleanedUp | CleanupShutdown | CleanupFailed | CleanupCut

  datatype ReadinessOutcome =
    | BackendReady
    | StillWaiting
    | StartupTimeout
    | ExitedEarly
    | ProcessWaitFailed
    | ReadinessShutdown
    | ReadinessCut

  datatype MonitorOutcome = Continue | Commit | MonitorShutdown | ChildWait(status: ChildStatus) | MonitorCut

  datatype ExclusiveOutcome =
    | Acquired
    | ActivityChanged
    | ExclusiveShutdown
    | ExclusiveChild(status: ChildStatus)
    | ExclusiveCut

  datatype PlayerCheck = Zero | Veto | CheckShutdown | CheckChild(status: ChildStatus) | CheckCut

  datatype CycleOutcome =
    | CycleStopped
    | CycleRestart
    | CycleFailed(retryAt: Instant, retryPending: bool)
    | CycleShutdown
    | CycleError
    | CycleCut

  datatype RunOutcome = RunFinished | RunError | RunCut

  datatype PlayerInspection =
    | ProxyOnly
    | ConfiguredPlayers(client: bool, nextPoll: Instant, zeroAnchor: Option<Instant>)

  /** `RunningMonitorState`. */
  class RunningMonitor {
    const cycle: u64
    var inspection: PlayerInspection
    const stableAt: Instant
    var stabilityPending: bool

    constructor (config: Config, lifecycle: LifecycleState, cycle: u64, now: Instant)
      requires lifecycle.OwnedRunningCycle() == Some(cycle)
      ensures this.cycle == cycle && stableAt == lifecycle.phaseStartedAt + STABILITY_WINDOW
      ensures stabilityPending <==> lifecycle.streak > 0
      ensures inspection == if config.rcon then ConfiguredPlayers(false, now, None) else ProxyOnly
    {
      this.cycle := cycle;
      inspection := if config.rcon then ConfiguredPlayers(false, now, None) else ProxyOnly;
      stableAt := lifecycle.phaseStartedAt + STABILITY_WINDOW;
      stabilityPending := lifecycle.streak > 0;
    }

    function EffectiveIdleAnchor(activity: Option<Activity>): Option<Instant>
      reads this
    {
      if activity.None? || activity.value.cycle != cycle then None
      else
        var proxyAnchor := activity.value.ProxyIdleAnchor();
        if proxyAnchor.None? then None
        else
          match inspection
          case ProxyOnly => proxyAnchor
          case ConfiguredPlayers(_, _, zeroAnchor) =>
            if zeroAnchor.None? then None
            else Some(if proxyAnchor.value >= zeroAnchor.value then proxyAnchor.value else zeroAnchor.value)
    }
  }

  /** Nothing happened between the two ledgers except in the environment. */
  ghost predicate Quietly(before: Ledger, after: Ledger) {
    && after == before.(world := after.world)
    && before.world.now <= after.world.now
    && before.world.length <= after.world.length
    && (before.world.troubled ==> after.world.troubled)
  }

  lemma QuietlyThen(before: Ledger, middle: Ledger, after: Ledger)
    requires Quietly(before, middle) && Quietly(middle, after)
    ensures Quietly(before, after)
    ensures middle.seen == after.seen && middle.inHand == after.inHand && middle.woken == after.woken
  {
  }

  /** The monitor's fields are those of the ledger. */
  ghost predicate Monitors(
    l: Ledger, lifecycle: LifecycleState, config: Config,
    cycle: u64, inspection: PlayerInspection, stableAt: Instant, stabilityPending: bool)
  {
    && lifecycle.phase == Running && lifecycle.evidence == NoEvidence && lifecycle.generation == cycle
    && l.config == config
    && (inspection.ConfiguredPlayers? <==> config.rcon)
    && (config.rcon ==> inspection.zeroAnchor == l.zeroAnchor && inspection.nextPoll == l.nextPoll)
    && stableAt == lifecycle.phaseStartedAt + STABILITY_WINDOW
    && (stabilityPending <==> lifecycle.streak > 0)
    && l.wakes.demand.None?
  }

  /** The real shared state is the recorded one. */
  ghost predicate Agrees(
    world: World, clock: Instant, shutdownSent: bool, wakesClosed: bool,
    slot: Option<WakeRequest>, activity: Option<Activity>)
  {
    && world.now == clock && world.shutdownSent == shutdownSent && world.wakesClosed == wakesClosed
    && world.slot == slot && world.activity == activity
  }

  class SupervisorControl {
    const config: Config
    const script: Script
    const tracker: ActivityTracker

    // what the supervisor shares with its environment
    var lifecycle: LifecycleState
    var wakeSlot: Option<WakeRequest>
    var wakesClosed: bool
    var shutdownSent: bool
    var childOwned: bool
    var clock: Instant
    var sampled: set<LifecycleState>
    var fuel: nat

    // the run so far
    const openedAt: Instant
    var run: seq<Event>
    ghost var ledger: Ledger

    /** The run has gone on, and every unit of fuel that was spent stands for an event in it. */
    ghost predicate WentOn(before: seq<Event>, budget: nat)
      reads this
    {
      before <= run && fuel <= budget && budget + |before| <= fuel + |run|
    }

    ghost predicate Logged()
      reads this
    {
      && Kept(config, openedAt, run, ledger) && Explains(script, Opening(config, openedAt), run)
      && ledger.world.length == |run| && ledger.config == config
    }

    /** The shared state is what the run says, no wake is left unanswered, and no branch unhandled. */
    ghost predicate Valid()
      reads this, tracker
    {
      Synced() && ledger.inHand.None? && ledger.woken.None?
    }

    /** The supervisor has left a `select!` by this branch and must handle it. */
    ghost predicate Owing(b: Branch)
      reads this, tracker
    {
      Synced() && ledger.inHand.None? && ledger.woken == Some(b)
    }

    /** The supervisor has taken a wake from the slot and must answer it. */
    ghost predicate Holding(wake: WakeRequest)
      reads this, tracker
    {
      Synced() && ledger.inHand == Some(wake) && ledger.woken.None?
    }

    ghost predicate Synced()
      reads this, tracker
    {
      Settled() && ledger.book.current == lifecycle && ledger.book.history == sampled
    }

    /** `Synced`, except that the last publication may not be recorded yet. */
    ghost predicate Settled()
      reads this, tracker
    {
      && Logged()
      && Agrees(ledger.world, clock, shutdownSent, wakesClosed, wakeSlot, tracker.state)
      && ledger.childLive == childOwned
    }

    constructor (config: Config, script: Script, at: Instant, fuel: nat)
      ensures Valid() && this.config == config && this.script == script && this.fuel == fuel
      ensures openedAt == at && run == [] && fresh(tracker) && tracker.state == None
      ensures lifecycle == InitialState(at) && !childOwned
    {
      this.config := config;
      this.script := script;
      tracker := new ActivityTracker();
      lifecycle := InitialState(at);
      wakeSlot := None;
      wakesClosed, shutdownSent, childOwned := false, false, false;
      clock := at;
      sampled := {InitialState(at)};
      this.fuel := fuel;
      openedAt := at;
      run := [];
      ledger := Opening(config, at);
    }

    method Record(e: Event)
      requires Logged() && StepOk(ledger, e) && Answers(script, ledger, e)
      modifies `run, `ledger
      ensures Logged() && run == old(run) + [e] && ledger == Advance(old(ledger), e)
    {
      hide StepOk, Answers, Explains;
      KeepAnother(config, openedAt, run, ledger, e);
      ExplainAnother(script, Opening(config, openedAt), run, e);
      run := run + [e];
      ledger := Advance(ledger, e);
    }

    /** What every lawful run guarantees about its ledger. */
    lemma Known()
      requires Logged()
      ensures Facts(ledger) && ledger.config == config
    {
      KeptFacts(config, openedAt, run, ledger);
    }

    /** Records that a dequeued wake was accepted, or was not, by the place that listens for it. */
    method Answer(wake: WakeRequest, accepted: bool)
      requires Holding(wake) && !ledger.seen && accepted == Accepts(ledger, wake)
      requires ledger.watch !in {Trying, Pausing}
      modifies `run, `ledger
      ensures Valid() && old(run) <= run
      ensures accepted ==>
        Quietly(old(ledger).(inHand := None,
                             wakes := Wakes(old(ledger).wakes.accepted + 1, Some(old(ledger).world.length))), ledger)
      ensures !accepted ==> Quietly(old(ledger).(inHand := None), ledger)
      ensures ledger.world.now == old(ledger).world.now && ledger.world.length > old(ledger).world.length
    {
      hide Kept, Explains;
      Record(if accepted then DemandAccepted(wake) else WakeIgnored(wake));
    }

    method SeeShutdown()
      requires Valid() && !ledger.seen && (shutdownSent || wakesClosed)
      modifies `run, `ledger
      ensures Valid() && old(run) < run && Quietly(old(ledger).(seen := true), ledger)
      ensures ledger.world.shutdownSent == old(ledger).world.shutdownSent
    {
      hide Kept, Explains;
      Record(ShutdownSeen);
    }

    /** A wake dequeued where none is listened for. */
    method Ignore(wake: WakeRequest)
      requires Holding(wake) && !ledger.seen
      requires lifecycle.phase in {Running, External} && ledger.watch !in {Trying, Pausing}
      modifies `run, `ledger
      ensures Valid() && old(run) <= run && Quietly(old(ledger).(inHand := None), ledger)
    {
      hide Kept, Explains;
      Answer(wake, false);
    }

    method StartProbe()
      requires Valid() || (Owing(PollBranch) && lifecycle.phase == External)
      requires !ledger.seen && (lifecycle.phase == External || (lifecycle.phase == Reconciling && ledger.gate == Quiet))
      modifies `run, `ledger
      ensures Valid() && old(run) <= run
      ensures Quietly(old(ledger).(woken := None, gate := Probing(old(ledger).world.length)), ledger)
    {
      hide Kept, Explains;
      Record(ProbeStarted);
    }

    /** The probe's future has completed with its result. */
    method CompleteProbe() returns (result: ReconciliationResult)
      requires Owing(FutureBranch) && !ledger.seen && ledger.gate.Probing?
      modifies `run, `ledger
      ensures Valid() && run == old(run) + [ProbeCompleted(result)]
      ensures Quietly(old(ledger).(woken := None, gate := Probed(old(ledger).gate.started, old(ledger).world.length,
                                                                 result.Classify())), ledger)
    {
      hide Kept, Explains;
      result := script.probe(|run|);
      Record(ProbeCompleted(result));
    }

    /** Records what `Publish` has just stored. */
    method Log(p: Publication, at: Instant)
      requires Settled() && ledger.inHand.None? && PublicationOk(ledger, p, at)
      requires ledger.woken.None? || (ledger.woken == Some(ResetBranch) && p.ResetFailureStreak?)
      requires ledger.seen ==> p.SetStopping? || p.SetStopped?
      requires lifecycle == Apply(ledger.book.current, p, at) && sampled == ledger.book.history + {lifecycle}
      modifies `run, `ledger
      ensures Valid() && run == old(run) + [Published(p, at)]
      ensures ledger.wakes == if p.Decides() then old(ledger).wakes.(demand := None) else old(ledger).wakes
      ensures ledger.gate == Quiet
      ensures ledger.watch == NextWatch(old(ledger), Published(p, at))
      ensures ledger.zeroAnchor == NextZeroAnchor(old(ledger), Published(p, at))
      ensures ledger.seen == old(ledger).seen && ledger.world.length == old(ledger).world.length + 1
      ensures ledger.config == old(ledger).config && ledger.nextPoll == NextPoll(old(ledger), Published(p, at))
      ensures ledger.lastRead == old(ledger).lastRead && ledger.world.now == old(ledger).world.now
      ensures ledger.world.troubled == old(ledger).world.troubled
    {
      hide Kept, Explains;
      Record(Published(p, at));
    }

    // ---- The environment

    /** If the script has something for the outside to do here, it has been done. */
    ghost predicate LetsHappen(before: seq<Event>, start: Ledger)
      reads this
    {
      script.bursts(|before|) > 0 && Happens(start, script.outside(|before|)) ==>
        |before| < |run| && run[|before|] == script.outside(|before|)
    }

    /** As much as the script says happens outside, between two steps of the supervisor. */
    method Elapse()
      requires Synced()
      modifies `clock, `wakeSlot, `wakesClosed, `shutdownSent, `run, `ledger, tracker
      ensures Synced() && old(run) <= run && Quietly(old(ledger), ledger) && LetsHappen(old(run), old(ledger))
    {
      hide Kept, Explains, StepOk, Advance, Happens;
      var burst := script.bursts(|run|);
      for i := 0 to burst
        invariant Synced() && old(run) <= run && Quietly(old(ledger), ledger)
        invariant if i == 0 then run == old(run) && ledger == old(ledger) else LetsHappen(old(run), old(ledger))
      {
        Outside();
      }
    }

    /** Time passes, and shutdown may be requested or every client go; a client fills the wake slot; or a proxied
        session is counted or ends. */
    method Outside()
      requires Synced()
      modifies `clock, `wakeSlot, `wakesClosed, `shutdownSent, `run, `ledger, tracker
      ensures Synced() && old(run) <= run && Quietly(old(ledger), ledger)
      ensures run == old(run) + if Happens(old(ledger), script.outside(|old(run)|)) then [script.outside(|old(run)|)] else []
    {
      hide Kept, Explains, StepOk, Advance;
      var e := script.outside(|run|);
      match e
      case Elapsed(passed, shutdown, closed) => LetTimePass(passed, shutdown, closed);
      case WakeSent(wake) => FillSlot(wake);
      case SessionCounted(cycle) => CountSession(cycle);
      case SessionEnded(cycle) => EndSession(cycle);
      case _ =>
    }

    /** Time can always pass, and sessions be counted and end, as far as the ledger is concerned. */
    method RecordOutside(e: Event)
      requires Logged() && IsOutside(e) && !e.WakeSent? && e == script.outside(|run|)
      modifies `run, `ledger
      ensures Logged() && run == old(run) + [e] && ledger == old(ledger).(world := NextWorld(old(ledger), e))
    {
      hide Kept, Explains, StepOk, Advance, NextWorld, Answers;
      OutsideStep(ledger, e);
      OutsideAnswers(script, ledger, e);
      Record(e);
    }

    method LetTimePass(passed: Duration, shutdown: bool, closed: bool)
      requires Synced() && script.outside(|run|) == Elapsed(passed, shutdown, closed)
      modifies `clock, `wakesClosed, `shutdownSent, `run, `ledger
      ensures Synced() && old(run) <= run && Quietly(old(ledger), ledger)
      ensures run == old(run) + if Happens(old(ledger), Elapsed(passed, shutdown, closed)) then [Elapsed(passed, shutdown, closed)] else []
    {
      hide Kept, Explains, StepOk, Advance, NextWorld, Agrees, Quietly;
      clock, shutdownSent, wakesClosed := clock + passed, shutdownSent || shutdown, wakesClosed || closed;
      RecordTime(passed, shutdown, closed, old(clock), old(shutdownSent), old(wakesClosed));
    }

    method RecordTime(passed: Duration, shutdown: bool, closed: bool,
                      ghost before: Instant, ghost sentBefore: bool, ghost closedBefore: bool)
      requires Logged() && script.outside(|run|) == Elapsed(passed, shutdown, closed)
      requires Agrees(ledger.world, before, sentBefore, closedBefore, wakeSlot, tracker.state)
      requires clock == before + passed
      requires shutdownSent == (sentBefore || shutdown) && wakesClosed == (closedBefore || closed)
      modifies `run, `ledger
      ensures Logged() && run == old(run) + [Elapsed(passed, shutdown, closed)] && Quietly(old(ledger), ledger)
      ensures ledger == old(ledger).(world := ledger.world)
      ensures Agrees(ledger.world, clock, shutdownSent, wakesClosed, wakeSlot, tracker.state)
    {
      hide Kept, Explains, StepOk, Advance;
      RecordOutside(Elapsed(passed, shutdown, closed));
    }

    /** A client's `try_send`: it can send only what it sampled, and only into an empty slot. */
    method FillSlot(wake: WakeRequest)
      requires Synced() && script.outside(|run|) == WakeSent(wake)
      modifies `wakeSlot, `run, `ledger
      ensures Synced() && old(run) <= run && Quietly(old(ledger), ledger)
      ensures run == old(run) + if Happens(old(ledger), WakeSent(wake)) then [WakeSent(wake)] else []
    {
      hide Kept, Explains;
      if wakeSlot.None? && !wakesClosed && wake.observed in sampled && SendsWake(wake.observed.phase) {
        wakeSlot := Some(wake);
        Record(WakeSent(wake));
      }
    }

    /** A client's session is counted. The guard is what `IdleStop` proves of every client. */
    method CountSession(cycle: u64)
      requires Synced() && script.outside(|run|) == SessionCounted(cycle)
      modifies `run, `ledger, tracker
      ensures Synced() && old(run) <= run && Quietly(old(ledger), ledger)
      ensures run == old(run) + if Happens(old(ledger), SessionCounted(cycle)) then [SessionCounted(cycle)] else []
    {
      hide Kept, Explains;
      var activity := tracker.Snapshot();
      if CanEstablish(activity, cycle) ==> activity.value.active < USIZE_MAX {
        RecordOutside(SessionCounted(cycle));
        var _ := tracker.EstablishLoginTransferSession(cycle);
      }
    }

    /** A client's session ends. The guard is what `IdleStop` proves of every session. */
    method EndSession(cycle: u64)
      requires Synced() && script.outside(|run|) == SessionEnded(cycle)
      modifies `run, `ledger, tracker
      ensures Synced() && old(run) <= run && Quietly(old(ledger), ledger)
      ensures run == old(run) + if Happens(old(ledger), SessionEnded(cycle)) then [SessionEnded(cycle)] else []
    {
      hide Kept, Explains;
      var activity := tracker.Snapshot();
      if CanEstablish(activity, cycle) ==> activity.value.active > 0 {
        RecordOutside(SessionEnded(cycle));
        tracker.DropSession(cycle, clock);
      }
    }

    /** One biased `select!`: the shutdown receiver, then the wake channel if it is listened to (or, before it, the
        future), then the first of the other branches that is ready. While none is, the task waits. Polling a completed
        receiver would panic. */
    method Select(branches: Branches, read: Option<Activity>) returns (arm: Arm)
      requires Valid() && !ledger.seen && MaySuspend(ledger) && Fits(branches, read, ledger)
      requires branches.futureFirst ==> lifecycle.phase in {Reconciling, External}
      modifies `clock, `wakeSlot, `wakesClosed, `shutdownSent, `fuel, `run, `ledger, tracker
      ensures WentOn(old(run), old(fuel)) && Left(old(ledger), branches, arm)
      ensures arm.CutArm? || fuel < old(fuel)
      ensures !arm.CutArm? ==> (arm.ShutdownArm? <==> ledger.world.shutdownSent)
      ensures arm.CutArm? ==> fuel == 0 && (old(fuel) > 0 ==> run != [] && run[|run| - 1] == Waited)
    {
      hide Kept, Explains, Agrees, StepOk, Advance, PublicationOk, Fits, Answers, MaySuspend, HasWait, Quietly, Left;
      EnterSelect();
      arm := CutArm;
      while fuel > 0
        invariant Valid() && WentOn(old(run), old(fuel)) && Quietly(old(ledger), ledger) && !ledger.seen
        invariant lifecycle == old(lifecycle) && arm.CutArm?
        invariant fuel < old(fuel) ==> run != [] && run[|run| - 1] == Waited
      {
        fuel := fuel - 1;
        arm := PollOnce(branches, read, old(ledger));
        if !arm.CutArm? {
          return;
        }
        CutIsQuiet(old(ledger), branches);
      }
      StillQuiet(old(ledger), branches);
    }

    /** All branches are polled once, after whatever happened outside. */
    method PollOnce(branches: Branches, read: Option<Activity>, ghost start: Ledger) returns (arm: Arm)
      requires Valid() && Quietly(start, ledger) && !ledger.seen && MaySuspend(start) && Fits(branches, read, start)
      requires branches.futureFirst ==> lifecycle.phase in {Reconciling, External}
      modifies `clock, `wakeSlot, `wakesClosed, `shutdownSent, `run, `ledger, tracker
      ensures old(run) < run && Left(start, branches, arm) && LetsHappen(old(run), old(ledger))
      ensures !arm.CutArm? ==> (arm.ShutdownArm? <==> ledger.world.shutdownSent)
      ensures arm.CutArm? ==> run != [] && run[|run| - 1] == Waited
    {
      hide Kept, Explains, Agrees, StepOk, Advance, PublicationOk, Fits, Answers, MaySuspend, HasWait, Quietly, Left;
      Elapse();
      QuietlyThen(start, old(ledger), ledger);
      FitsStill(branches, read, start, ledger);
      StillSuspended(start, ledger);
      ghost var middle := ledger;
      arm := PollFirst(branches, read);
      if arm.CutArm? {
        arm := PollBranches(branches, read);
      }
      LeftSince(start, middle, branches, arm);
    }

    lemma LeftSince(before: Ledger, middle: Ledger, branches: Branches, arm: Arm)
      requires Quietly(before, middle) && Left(middle, branches, arm)
      ensures Left(before, branches, arm)
    {
    }

    lemma CutIsQuiet(before: Ledger, branches: Branches)
      requires Left(before, branches, CutArm) && !before.seen
      ensures Valid() && Quietly(before, ledger) && !ledger.seen
    {
    }

    lemma StillQuiet(before: Ledger, branches: Branches)
      requires Valid() && Quietly(before, ledger) && !ledger.seen
      ensures Left(before, branches, CutArm)
    {
    }

    /** Shutdown, then the future if it comes first, then the wake channel; `CutArm` means that none is ready. */
    method PollFirst(branches: Branches, read: Option<Activity>) returns (arm: Arm)
      requires Valid() && !ledger.seen && Fits(branches, read, ledger)
      requires branches.futureFirst ==> lifecycle.phase in {Reconciling, External}
      modifies `wakeSlot, `run, `ledger
      ensures old(run) <= run && Left(old(ledger), branches, arm)
      ensures arm.CutArm? ==>
        Valid() && run == old(run) && ledger == old(ledger) && !ledger.world.shutdownSent && NobodyCalls(ledger)
      ensures !arm.CutArm? ==> old(run) < run && (arm.ShutdownArm? <==> ledger.world.shutdownSent)
    {
      hide Kept, Explains, StepOk, Advance, PublicationOk, Fits, Answers, MayWake;
      ListensFits(branches, read, ledger);
      if shutdownSent {
        SeeShutdown();
        return ShutdownArm;
      }
      if branches.futureFirst && branches.future && script.branch(|run|) == Some(FutureBranch) {
        FutureComesFirst(branches, read, script, ledger);
        Leave(FutureBranch);
        return FutureArm;
      }
      if branches.wakes && wakeSlot.Some? {
        DequeueAnswers(script, ledger, wakeSlot.value);
        var wake := TakeWake();
        return WakeArm(Some(wake));
      }
      if branches.wakes && wakesClosed {
        SeeShutdown();
        return WakeArm(None);
      }
      arm := CutArm;
    }

    /** How a `select!` over these branches leaves the ledger. */
    ghost predicate Left(before: Ledger, branches: Branches, arm: Arm)
      reads this, tracker
    {
      match arm
      case ShutdownArm => Valid() && Quietly(before.(seen := true), ledger)
      case WakeArm(None) => branches.wakes && Valid() && Quietly(before.(seen := true), ledger)
      case WakeArm(Some(wake)) =>
        branches.wakes && Holding(wake) && Quietly(before.(inHand := Some(wake)), ledger)
      case ChildArm => branches.child && Owing(ChildBranch) && Quietly(before.(woken := Some(ChildBranch)), ledger)
      case StabilityArm =>
        && Reached(branches.stableAt, clock)
        && Owing(StabilityBranch) && Quietly(before.(woken := Some(StabilityBranch)), ledger)
      case PollArm =>
        && Reached(branches.pollAt, clock)
        && Owing(PollBranch) && Quietly(before.(woken := Some(PollBranch)), ledger)
      case FutureArm => branches.future && Owing(FutureBranch) && Quietly(before.(woken := Some(FutureBranch)), ledger)
      case TimerArm =>
        && (branches.notified || Reached(branches.timer, clock))
        && Valid() && Quietly(before.(watch := if before.watch == Pausing then Absent else before.watch), ledger)
      case CutArm => Valid() && Quietly(before, ledger)
    }

    /** Takes the first branch that is ready; `CutArm` means that there is none, and the task has slept. */
    method PollBranches(branches: Branches, read: Option<Activity>) returns (arm: Arm)
      requires Valid() && !ledger.seen && Fits(branches, read, ledger) && HasWait(ledger)
      requires !ledger.world.shutdownSent && NobodyCalls(ledger)
      modifies `run, `ledger
      ensures old(run) < run && Left(old(ledger), branches, arm) && !arm.ShutdownArm? && !arm.WakeArm?
      ensures arm.CutArm? ==> run != [] && run[|run| - 1] == Waited
      ensures ledger.world.shutdownSent == old(ledger).world.shutdownSent
    {
      hide Kept, Explains, StepOk, Advance, Fits, MayWake, NothingIsDue, FirstReady, Answers, Facts;
      var ready := script.branch(|run|);
      var shown := tracker.Snapshot();
      var b := FirstReady(branches, ready, clock, shown, read);
      KnownWatch();
      FirstReadyIsLawful(branches, read, script, ledger);
      if b.None? {
        Sleep();
        return CutArm;
      }
      FirstReadyMeans(branches, ready, clock, shown, read);
      ListensFits(branches, read, ledger);
      Leave(b.value);
      arm := ArmOf(b.value);
    }

    lemma KnownGate()
      requires Logged()
      ensures ledger.gate.Probing? ==> ledger.book.current.phase in {Reconciling, External}
    {
      Known();
    }

    lemma KnownWatch()
      requires Logged()
      ensures WatchFacts(ledger)
    {
      Known();
    }

    method EnterSelect()
      requires Valid() && !ledger.seen && MaySuspend(ledger)
      modifies `run, `ledger
      ensures Valid() && run == old(run) + [Suspended] && Quietly(old(ledger), ledger) && !ledger.seen
    {
      hide Kept, Explains, MaySuspend;
      Record(Suspended);
    }

    method Sleep()
      requires Valid() && !ledger.seen && HasWait(ledger) && NothingIsDue(ledger) && Answers(script, ledger, Waited)
      modifies `run, `ledger
      ensures Valid() && run == old(run) + [Waited] && Quietly(old(ledger), ledger)
      ensures ledger.world.shutdownSent == old(ledger).world.shutdownSent
    {
      hide Kept, Explains, HasWait, NothingIsDue, Answers;
      Record(Waited);
    }

    method Leave(b: Branch)
      requires Valid() && !ledger.seen && MayWake(ledger, b) && Answers(script, ledger, Woken(b))
      modifies `run, `ledger
      ensures Synced() && ledger.inHand.None? && run == old(run) + [Woken(b)]
      ensures Quietly(old(ledger).(
        woken := if b in {ChangedBranch, NotifiedBranch, TimerBranch} then None else Some(b),
        watch := if old(ledger).watch == Pausing && b == TimerBranch then Absent else old(ledger).watch), ledger)
      ensures ledger.world.shutdownSent == old(ledger).world.shutdownSent
    {
      hide Kept, Explains, MayWake, Answers;
      Record(Woken(b));
    }

    method TakeWake() returns (wake: WakeRequest)
      requires Valid() && !ledger.seen && wakeSlot.Some?
      requires Drains(ledger) || (!shutdownSent && Listens(ledger))
      requires Answers(script, ledger, WakeDequeued(wakeSlot.value))
      modifies `wakeSlot, `run, `ledger
      ensures Holding(wake) && old(run) < run && Quietly(old(ledger).(inHand := Some(wake)), ledger)
      ensures ledger.world.shutdownSent == old(ledger).world.shutdownSent
    {
      hide Kept, Explains;
      wake := wakeSlot.value;
      wakeSlot := None;
      Record(WakeDequeued(wake));
    }

    /** `wake_requests.is_closed()`: closure is terminal even when the wake slot is still occupied. */
    method IsClosed() returns (closed: bool)
      requires Valid() && !ledger.seen
      modifies `clock, `wakeSlot, `wakesClosed, `shutdownSent, `run, `ledger, tracker
      ensures Valid() && old(run) <= run
      ensures Quietly(old(ledger).(seen := closed), ledger) && (closed <==> wakesClosed)
      ensures LetsHappen(old(run), old(ledger))
    {
      hide Kept, Explains, Agrees, StepOk, Advance, PublicationOk;
      Elapse();
      closed := wakesClosed;
      if closed {
        SeeShutdown();
      }
    }

    method ShutdownPending() returns (pending: bool, ghost passed: nat)
      requires Valid() && !ledger.seen
      modifies `clock, `wakeSlot, `wakesClosed, `shutdownSent, `run, `ledger, tracker
      ensures Valid() && old(run) <= run && LetsHappen(old(run), old(ledger))
      ensures pending ==> Quietly(old(ledger).(seen := true), ledger)
      ensures !pending ==>
        && Quietly(old(ledger).(gate := ledger.gate, watch := ledger.watch, nextPoll := ledger.nextPoll), ledger)
        && ledger.nextPoll == (if old(ledger).book.current.phase == External && old(ledger).gate.Probed?
                               then clock + config.pollInterval else old(ledger).nextPoll)
        && ledger.gate == (if old(ledger).gate.Probed?
                           then Cleared(old(ledger).gate.started, old(ledger).gate.done, old(ledger).world.length + passed,
                                        old(ledger).gate.found)
                           else old(ledger).gate)
        && ledger.watch == (if old(ledger).watch.Confirmed? then Vetted(old(ledger).watch.anchor)
                            else old(ledger).watch)
    {
      hide Kept, Explains;
      Elapse();
      passed := ledger.world.length - old(ledger.world.length);
      if wakesClosed {
        SeeShutdown();
        pending := true;
        return;
      }
      if shutdownSent {
        SeeShutdown();
        pending := true;
        return;
      }
      Record(ShutdownNotPending);
      pending := false;
    }

    method TryReceiveWake() returns (r: TryReceive)
      requires Valid() && !ledger.seen && Drains(ledger)
      modifies `clock, `wakeSlot, `wakesClosed, `shutdownSent, `run, `ledger, tracker
      ensures old(run) <= run && (r.Received? ==> old(run) < run)
      ensures !r.Received? ==> Valid() && Quietly(old(ledger).(seen := r.Disconnected?), ledger)
      ensures r.Received? ==> Holding(r.request) && Quietly(old(ledger).(inHand := Some(r.request)), ledger)
      ensures !r.Received? ==> wakeSlot.None? && (r.Disconnected? <==> wakesClosed)
      ensures LetsHappen(old(run), old(ledger))
    {
      hide Kept, Explains, Agrees, StepOk, Advance, PublicationOk;
      Elapse();
      Known();
      if wakeSlot.Some? {
        DequeueAnswers(script, ledger, wakeSlot.value);
        var wake := TakeWake();
        r := Received(wake);
      } else if wakesClosed {
        SeeShutdown();
        r := Disconnected;
      } else {
        r := EmptySlot;
      }
    }

    /** Nothing else is owed than what these two events are for. */
    ghost predicate MayLookAtChild()
      reads this, tracker
    {
      && Synced() && childOwned && ledger.inHand.None?
      && (ledger.woken.Some? ==>
            || ledger.woken.value in {ChildBranch, StabilityBranch}
            || (ledger.woken == Some(FutureBranch) && lifecycle.phase == Stopping && !ledger.gate.Probing?
                && ledger.watch == Absent))
    }

    method Reap()
      requires MayLookAtChild() && Answers(script, ledger, ChildReaped)
      modifies `childOwned, `run, `ledger
      ensures Valid() && run == old(run) + [ChildReaped] && !childOwned
      ensures Quietly(old(ledger).(childLive := false, woken := None), ledger) && ledger.world.now == old(ledger).world.now
    {
      hide Kept, Explains, Answers;
      childOwned := false;
      Record(ChildReaped);
    }

    method SeeAlive()
      requires Synced() && childOwned && ledger.inHand.None? && (ledger.woken.None? || ledger.woken == Some(StabilityBranch))
      requires !ledger.seen && Answers(script, ledger, ChildAlive)
      modifies `run, `ledger
      ensures Synced() && ledger.inHand.None? && old(run) <= run
      ensures Quietly(old(ledger).(watch := ledger.watch,
                                   woken := if old(ledger).woken.None? then None else Some(ResetBranch)), ledger)
      ensures ledger.watch == (if old(ledger).watch.Vetted? then Ledgers.Ready(old(ledger).watch.anchor)
                               else old(ledger).watch)
    {
      hide Kept, Explains, Answers;
      Record(ChildAlive);
    }

    /** Since then the child's handle has failed. */
    ghost predicate Complained(before: seq<Event>)
      reads this
    {
      exists k :: |before| <= k < |run| && run[k].ChildErred?
    }

    /** The child's handle has failed. */
    method Complain(error: ChildError)
      requires MayLookAtChild() && Answers(script, ledger, ChildErred(error))
      requires error == WaitErred || ledger.woken.None? || ledger.woken == Some(FutureBranch)
      modifies `run, `ledger
      ensures Valid() && run == old(run) + [ChildErred(error)] && Quietly(old(ledger).(woken := None), ledger)
      ensures ledger.world.troubled && ledger.world.now == old(ledger).world.now && Complained(old(run))
    {
      hide Kept, Explains, Answers;
      Record(ChildErred(error));
      assert run[|run| - 1].ChildErred?;
    }

    /** `child.wait()` has completed. */
    method WaitedForChild() returns (status: ChildStatus)
      requires MayLookAtChild()
      modifies `childOwned, `run, `ledger
      ensures Valid() && status != Alive && (status == WaitFailed <==> Complained(old(run)))
      ensures run == old(run) + [if status == Exited then ChildReaped else ChildErred(WaitErred)]
      ensures status == Exited <==> script.exits(|old(run)|)
      ensures status == Exited ==> Quietly(old(ledger).(childLive := false, woken := None), ledger)
      ensures status == WaitFailed ==> Quietly(old(ledger).(woken := None), ledger) && ledger.world.troubled
      ensures ledger.world.now == old(ledger).world.now
    {
      hide Kept, Explains, StepOk, Advance;
      if script.exits(|run|) {
        Reap();
        return Exited;
      }
      Complain(WaitErred);
      status := WaitFailed;
    }

    method TryWaitForChild() returns (status: ChildStatus)
      requires Synced() && childOwned && ledger.inHand.None? && (ledger.woken.None? || ledger.woken == Some(StabilityBranch))
      requires !ledger.seen
      modifies `clock, `wakeSlot, `wakesClosed, `shutdownSent, `childOwned, `run, `ledger, tracker
      ensures Synced() && ledger.inHand.None? && old(run) <= run && LetsHappen(old(run), old(ledger))
      ensures status == Exited ==> Quietly(old(ledger).(childLive := false, woken := None), ledger)
      ensures status == WaitFailed ==> Quietly(old(ledger).(woken := None), ledger) && ledger.world.troubled
      ensures status == Alive ==>
        && Quietly(old(ledger).(watch := ledger.watch,
                                woken := if old(ledger).woken.None? then None else Some(ResetBranch)), ledger)
        && ledger.watch == (if old(ledger).watch.Vetted? then Ledgers.Ready(old(ledger).watch.anchor)
                            else old(ledger).watch)
    {
      hide Kept, Explains, StepOk, Advance;
      Elapse();
      status := script.child(|run|);
      match status {
        case Alive => SeeAlive();
        case Exited => Reap();
        case WaitFailed => Complain(WaitErred);
      }
    }

    // ---- Publishing (`SupervisorControl`)

    method Publish(next: LifecycleState)
      requires next.InvariantHolds()
      modifies `lifecycle, `sampled
      ensures lifecycle == next && sampled == old(sampled) + {next}
    {
      lifecycle := next;
      sampled := sampled + {next};
    }

    method RecordLaunchSuccess()
      requires lifecycle.phase == Reconciling && lifecycle.evidence != Positive
      modifies `lifecycle, `sampled
      ensures lifecycle == Apply(old(lifecycle), Publication.RecordLaunchSuccess, clock)
      ensures sampled == old(sampled) + {lifecycle}
    {
      Publish(LifecycleState(Starting, WrappingNext(lifecycle.generation), lifecycle.failure, lifecycle.streak,
                             clock, None, NoEvidence));
    }

    method RecordLaunchFailure() returns (retryAt: Instant)
      requires lifecycle.phase == Reconciling && lifecycle.evidence != Positive
      modifies `lifecycle, `sampled
      ensures lifecycle == Apply(old(lifecycle), Publication.RecordLaunchFailure, clock)
      ensures sampled == old(sampled) + {lifecycle} && lifecycle.retryAt == Some(retryAt)
    {
      var streak := SaturatingNext(lifecycle.streak);
      retryAt := clock + FailureBackoff(streak);
      Publish(LifecycleState(Cooldown, WrappingNext(lifecycle.generation), Some(LaunchFailed), streak,
                             clock, Some(retryAt), NoEvidence));
    }

    method RecordReapedFailure(failure: FailureCategory) returns (retryAt: Instant)
      requires lifecycle.phase in {Starting, Running} && lifecycle.evidence == NoEvidence
      modifies `lifecycle, `sampled
      ensures lifecycle == Apply(old(lifecycle), Publication.RecordReapedFailure(failure), clock)
      ensures sampled == old(sampled) + {lifecycle} && lifecycle.retryAt == Some(retryAt)
    {
      var streak := SaturatingNext(lifecycle.streak);
      retryAt := clock + FailureBackoff(streak);
      Publish(LifecycleState(Cooldown, lifecycle.generation, Some(failure), streak, clock, Some(retryAt), NoEvidence));
    }

    method BeginFailureCleanup(failure: FailureCategory) returns (retryDelay: Duration)
      requires lifecycle.phase == Starting && lifecycle.evidence == NoEvidence
      modifies `lifecycle, `sampled
      ensures lifecycle == Apply(old(lifecycle), Publication.BeginFailureCleanup(failure), clock)
      ensures sampled == old(sampled) + {lifecycle}
      ensures lifecycle.streak > 0 && retryDelay == FailureBackoff(lifecycle.streak)
    {
      var streak := SaturatingNext(lifecycle.streak);
      Publish(LifecycleState(Stopping, lifecycle.generation, Some(failure), streak, clock, None, NoEvidence));
      retryDelay := FailureBackoff(streak);
    }

    method FinishFailureCleanup(retryDelay: Duration) returns (retryAt: Instant)
      requires lifecycle.phase == Stopping && lifecycle.evidence == NoEvidence
      modifies `lifecycle, `sampled
      ensures retryAt == clock + retryDelay
      ensures lifecycle == old(lifecycle).(phase := Cooldown, phaseStartedAt := clock, retryAt := Some(retryAt))
      ensures sampled == old(sampled) + {lifecycle}
    {
      retryAt := clock + retryDelay;
      Publish(LifecycleState(Cooldown, lifecycle.generation, lifecycle.failure, lifecycle.streak,
                             clock, Some(retryAt), NoEvidence));
    }

    method ResetFailureStreak()
      requires lifecycle.phase == Running && lifecycle.evidence == NoEvidence
      modifies `lifecycle, `sampled
      ensures lifecycle == Apply(old(lifecycle), Publication.ResetFailureStreak, clock)
      ensures sampled == old(sampled) + {lifecycle}
    {
      Publish(LifecycleState(lifecycle.phase, lifecycle.generation, None, 0, lifecycle.phaseStartedAt, None, NoEvidence));
    }

    method BeginCycle()
      requires Valid() && !ledger.seen && childOwned && ledger.watch == Reachable && lifecycle.phase == Starting
      modifies `run, `ledger, tracker
      ensures Valid() && old(run) <= run && Quietly(old(ledger).(watch := CycleOpened(clock)), ledger)
      ensures tracker.state == Begun(lifecycle.generation, clock)
    {
      hide Kept, Explains;
      tracker.BeginCycle(lifecycle.generation, clock);
      Record(CycleBegun);
    }

    /** The tracker moves to the new cycle before `Running` can be sampled. */
    method PublishRunning() returns (cycle: u64)
      requires Valid() && !ledger.seen && childOwned && ledger.watch == Reachable
      requires lifecycle.phase == Starting && lifecycle.evidence == NoEvidence
      modifies `lifecycle, `sampled, `run, `ledger, tracker
      ensures Valid() && old(run) <= run
      ensures lifecycle == Apply(old(lifecycle), Publication.PublishRunning, clock)
      ensures lifecycle.OwnedRunningCycle() == Some(cycle) && tracker.state == Begun(cycle, lifecycle.phaseStartedAt)
      ensures ledger.watch == Polling && ledger.zeroAnchor == None && !ledger.seen && ledger.wakes == old(ledger).wakes
      ensures ledger.nextPoll == clock
    {
      hide Kept, Explains, StepOk, Advance;
      var runningSince := clock;
      cycle := lifecycle.generation;
      BeginCycle();
      Publish(LifecycleState(Running, lifecycle.generation, lifecycle.failure, lifecycle.streak,
                             runningSince, None, NoEvidence));
      Log(Publication.PublishRunning, runningSince);
    }

    method BeginIdleStop(cycle: u64)
      requires lifecycle.OwnedRunningCycle() == Some(cycle)
      modifies `lifecycle, `sampled
      ensures lifecycle == Apply(old(lifecycle), Publication.BeginIdleStop, clock)
      ensures sampled == old(sampled) + {lifecycle}
    {
      Publish(LifecycleState(Stopping, lifecycle.generation, None, 0, clock, None, NoEvidence));
    }

    method SetPhase(phase: Phase)
      requires phase in {Stopped, Starting, Running, Stopping, Cooldown}
      requires lifecycle.evidence == NoEvidence
      modifies `lifecycle, `sampled
      ensures lifecycle == old(lifecycle).(phase := phase, phaseStartedAt := clock, retryAt := None)
      ensures sampled == old(sampled) + {lifecycle}
    {
      Publish(LifecycleState(phase, lifecycle.generation, lifecycle.failure, lifecycle.streak, clock, None, NoEvidence));
    }

    /** `set_phase(Stopped)`, where the run calls it. */
    method Stop()
      requires Valid()
      requires || (lifecycle.phase == Stopping && !childOwned && ledger.watch == Absent)
               || (lifecycle.phase == Cooldown && (ledger.seen ||
                     (ledger.wakes.demand.None? && lifecycle.retryAt.Some? && clock >= lifecycle.retryAt.value)))
               || (lifecycle.phase == Stopped && ledger.seen)
      modifies `lifecycle, `sampled, `run, `ledger
      ensures Valid() && run == old(run) + [Published(SetStopped, clock)]
      ensures lifecycle == Apply(old(lifecycle), SetStopped, clock)
      ensures ledger.wakes == old(ledger).wakes && ledger.gate == Quiet && ledger.watch == old(ledger).watch
      ensures lifecycle.phase == Stopped && ledger.seen == old(ledger).seen
      ensures ledger.world.troubled == old(ledger).world.troubled
    {
      hide Kept, Explains;
      Known();
      SetPhase(Stopped);
      Log(SetStopped, clock);
    }

    method BeginReconciliation() returns (prior: Evidence)
      requires lifecycle.phase in {Stopped, Cooldown, Conflict}
      requires lifecycle.phase != Conflict ==> lifecycle.evidence == NoEvidence
      modifies `lifecycle, `sampled
      ensures lifecycle == Apply(old(lifecycle), Publication.BeginReconciliation, clock)
      ensures sampled == old(sampled) + {lifecycle} && prior == old(lifecycle).evidence
    {
      prior := lifecycle.evidence;
      Publish(LifecycleState(Reconciling, lifecycle.generation, lifecycle.failure, lifecycle.streak,
                             clock, lifecycle.retryAt, lifecycle.evidence));
    }

    method PublishStoppedAfterCleanReconciliation()
      requires lifecycle.phase == Reconciling
      modifies `lifecycle, `sampled
      ensures lifecycle == Apply(old(lifecycle), PublishStopped, clock)
      ensures sampled == old(sampled) + {lifecycle}
    {
      Publish(LifecycleState(Stopped, lifecycle.generation, lifecycle.failure, lifecycle.streak, clock, None, NoEvidence));
    }

    method PublishExternal(consumeDemand: bool)
      requires lifecycle.phase in {Reconciling, External}
      modifies `lifecycle, `sampled
      ensures lifecycle == Apply(old(lifecycle), Publication.PublishExternal(consumeDemand), clock)
      ensures sampled == old(sampled) + {lifecycle}
    {
      Publish(LifecycleState(External,
                             if consumeDemand then WrappingNext(lifecycle.generation) else lifecycle.generation,
                             lifecycle.failure, lifecycle.streak, clock, None, Positive));
    }

    method PublishConflict(evidence: Evidence, consumeDemand: bool)
      requires evidence != NoEvidence
      requires lifecycle.phase in {Reconciling, External}
      modifies `lifecycle, `sampled
      ensures lifecycle == Apply(old(lifecycle), Publication.PublishConflict(evidence, consumeDemand), clock)
      ensures sampled == old(sampled) + {lifecycle}
    {
      Publish(LifecycleState(Conflict,
                             if consumeDemand then WrappingNext(lifecycle.generation) else lifecycle.generation,
                             lifecycle.failure, lifecycle.streak, clock, None, evidence));
    }
    // ---- Concluding a reconciliation

    method ConcludeClean()
      requires Valid() && !ledger.seen && lifecycle.phase == Reconciling && lifecycle.evidence == NoEvidence
      requires ledger.gate.Cleared? && ledger.gate.found == Clean && sampled == {lifecycle}
      modifies `lifecycle, `sampled, `run, `ledger
      ensures Valid() && old(run) <= run && !ledger.seen && lifecycle.phase == Stopped
      ensures ledger.wakes == old(ledger).wakes && ledger.watch == old(ledger).watch && ledger.gate == Quiet
    {
      hide Kept, Explains, StepOk;
      PublishStoppedAfterCleanReconciliation();
      Log(PublishStopped, clock);
    }

    /** `publish_external_backend`. */
    method ConcludeExternal(consumeDemand: bool)
      requires Valid() && !ledger.seen && lifecycle.phase == Reconciling
      requires ledger.gate.Cleared? && ledger.gate.found == FullyReady
      requires consumeDemand == ledger.wakes.demand.Some? && (!consumeDemand ==> lifecycle.evidence == NoEvidence)
      modifies `lifecycle, `sampled, `run, `ledger
      ensures Valid() && old(run) <= run && !ledger.seen && lifecycle.phase == External
      ensures ledger.nextPoll == clock + config.pollInterval
      ensures ledger.wakes.demand.None? && ledger.watch == old(ledger).watch && ledger.gate == Quiet
    {
      hide Kept, Explains, StepOk;
      PublishExternal(consumeDemand);
      Log(Publication.PublishExternal(consumeDemand), clock);
    }

    /** `publish_conflict_observation`. */
    method ConcludeConflict(evidence: Evidence, consumeDemand: bool)
      requires Valid() && !ledger.seen && ledger.gate.Cleared?
      requires consumeDemand == ledger.wakes.demand.Some?
      requires || (lifecycle.phase == Reconciling && (!consumeDemand ==> lifecycle.evidence == NoEvidence))
               || (lifecycle.phase == External && !consumeDemand)
      requires if lifecycle.evidence == Positive then evidence == Positive && ledger.gate.found != FullyReady
               else (evidence == Positive && ledger.gate.found == FoundPositive)
                    || (evidence == Inconclusive && ledger.gate.found == FoundInconclusive)
      modifies `lifecycle, `sampled, `run, `ledger
      ensures Valid() && old(run) <= run && !ledger.seen && lifecycle.phase == Conflict
      ensures ledger.wakes.demand.None? && ledger.watch == old(ledger).watch && ledger.gate == Quiet
    {
      hide Kept, Explains, StepOk;
      PublishConflict(evidence, consumeDemand);
      Log(Publication.PublishConflict(evidence, consumeDemand), clock);
    }

    method StartFinalGate() returns (prior: Evidence)
      requires Valid() && !ledger.seen && lifecycle.phase in {Stopped, Cooldown, Conflict} && ledger.wakes.demand.Some?
      requires lifecycle.phase == Cooldown ==> lifecycle.retryAt.Some? && clock >= lifecycle.retryAt.value
      modifies `lifecycle, `sampled, `run, `ledger
      ensures Valid() && old(run) <= run && !ledger.seen && lifecycle.phase == Reconciling
      ensures prior == lifecycle.evidence == old(lifecycle).evidence
      ensures ledger.wakes == old(ledger).wakes && ledger.watch == old(ledger).watch && ledger.gate == Quiet
      ensures ledger.wakes.demand.value < ledger.world.length
    {
      hide Kept, Explains, StepOk;
      Known();
      prior := BeginReconciliation();
      Log(Publication.BeginReconciliation, clock);
      Known();
    }

    // ---- Waiting for demand and reconciling

    /** Waits in `Stopped` or `Conflict` for a wake that is accepted there. */
    method WaitForReconciliationDemand() returns (r: DemandOutcome)
      requires Valid() && !ledger.seen && lifecycle.phase in {Stopped, Conflict} && ledger.wakes.demand.None?
      requires !childOwned && ledger.watch == Absent
      modifies this, tracker
      ensures Valid() && WentOn(old(run), old(fuel))
      ensures r.Demanded? ==> fuel < old(fuel)
      ensures r.Demanded? ==>
        && Quietly(old(ledger).(wakes := ledger.wakes), ledger)
        && ledger.wakes.demand.Some? && ledger.wakes.accepted == old(ledger).wakes.accepted + 1
      ensures r.NoMoreDemand? ==> Quietly(old(ledger).(seen := true), ledger)
      ensures r.DemandCut? ==> fuel == 0
    {
      hide Fits, MaySuspend, Facts, Kept, Explains, StepOk, Advance, PublicationOk, CallSite, Apply, LetsHappen;
      while fuel > 0
        invariant Valid() && WentOn(old(run), old(fuel)) && Quietly(old(ledger), ledger)
      {
        var closed := IsClosed();
        if closed {
          return NoMoreDemand;
        }
        Known();
        CallersFit(ledger);
        var arm := Select(ONLY_WAKES, None);
        match arm {
          case ShutdownArm => return NoMoreDemand;
          case WakeArm(None) => return NoMoreDemand;
          case WakeArm(Some(request)) =>
            if request.CanStart(lifecycle) || request.RequestsConflictReconciliation(lifecycle) {
              Answer(request, true);
              return Demanded;
            }
            Answer(request, false);
          case _ => return DemandCut;
        }
      }
      r := DemandCut;
    }

    /** One probe, during which wakes are drained; the first reconciliation latches one of them. */
    method WaitForReconciliation(latchStartupDemand: bool) returns (r: ProbeOutcome)
      requires Valid() || (Owing(PollBranch) && lifecycle.phase == External)
      requires !ledger.seen && (lifecycle.phase == External || (lifecycle.phase == Reconciling && ledger.gate == Quiet))
      requires !childOwned && ledger.watch == Absent
      requires lifecycle.phase == Reconciling ==> (latchStartupDemand <==> ledger.wakes.demand.None?)
      requires lifecycle.phase == External ==> !latchStartupDemand
      modifies this, tracker
      ensures Valid() && WentOn(old(run), old(fuel))
      ensures r.ProbeDone? ==>
        && fuel < old(fuel)
        && Quietly(old(ledger).(woken := None, gate := ledger.gate, wakes := ledger.wakes), ledger)
        && ledger.gate.Probed? && ledger.gate.started >= old(ledger).world.length && ledger.gate.found == r.result.Classify()
        && (if latchStartupDemand then r.startupDemand <==> ledger.wakes.demand.Some?
            else ledger.wakes == old(ledger).wakes && !r.startupDemand)
        && ledger.wakes.accepted == old(ledger).wakes.accepted + (if r.startupDemand then 1 else 0)
        && (|run| > |old(run)| && run[|run| - 1] == ProbeCompleted(r.result))
      ensures r.ProbeShutdown? ==> ledger.seen && ledger.childLive == old(ledger).childLive && ledger.watch == old(ledger).watch
      ensures r.ProbeCut? ==> fuel == 0
    {
      hide Kept, Explains, Agrees, StepOk, Advance, PublicationOk, CallSite, Apply, Accepts, ClientSent, CountsZero;
      StartProbe();
      var startupDemand := false;
      while fuel > 0
        invariant Valid() && WentOn(old(run), old(fuel))
        invariant Quietly(old(ledger).(woken := None, gate := ledger.gate, wakes := ledger.wakes), ledger)
        invariant ledger.gate == Probing(old(ledger).world.length)
        invariant if latchStartupDemand then startupDemand <==> ledger.wakes.demand.Some?
                  else !startupDemand && ledger.wakes == old(ledger).wakes
        invariant ledger.wakes.accepted == old(ledger).wakes.accepted + (if startupDemand then 1 else 0)
      {
        var ended;
        ended, startupDemand := AwaitProbe(latchStartupDemand, startupDemand);
        if ended.Some? {
          return ended.value;
        }
      }
      r := ProbeCut;
    }

    /** One turn of the wait: `None` means that a wake was dequeued and the probe goes on. */
    method AwaitProbe(latches: bool, latched: bool) returns (r: Option<ProbeOutcome>, startupDemand: bool)
      requires Valid() && !ledger.seen && lifecycle.phase in {Reconciling, External} && ledger.gate.Probing?
      requires !childOwned && ledger.watch == Absent
      requires if latches then lifecycle.phase == Reconciling && (latched <==> ledger.wakes.demand.Some?)
               else !latched && (lifecycle.phase == Reconciling ==> ledger.wakes.demand.Some?)
      modifies this, tracker
      ensures Valid() && WentOn(old(run), old(fuel))
      ensures r.None? ==> fuel < old(fuel) && Quietly(old(ledger).(wakes := ledger.wakes), ledger)
      ensures r.Some? ==> startupDemand == latched
      ensures r.None? ==>
        && (if latches then startupDemand <==> ledger.wakes.demand.Some?
            else !startupDemand && ledger.wakes == old(ledger).wakes)
        && ledger.wakes.accepted == old(ledger).wakes.accepted + (if startupDemand && !latched then 1 else 0)
        && (latched ==> startupDemand)
      ensures r.Some? && r.value.ProbeDone? ==>
        && fuel < old(fuel) && Quietly(old(ledger).(gate := ledger.gate), ledger)
        && ledger.gate.Probed? && ledger.gate.started == old(ledger).gate.started
        && ledger.gate.found == r.value.result.Classify()
        && |run| > |old(run)| && run[|run| - 1] == ProbeCompleted(r.value.result) && r.value.startupDemand == latched
      ensures r == Some(ProbeShutdown) ==>
        ledger.seen && ledger.childLive == old(ledger).childLive && ledger.watch == old(ledger).watch
      ensures r == Some(ProbeCut) ==> fuel == 0
    {
      hide Fits, MaySuspend, Facts, Kept, Explains, Agrees, StepOk, Advance, PublicationOk, CallSite, Apply, Accepts, ClientSent, CountsZero;
      startupDemand := latched;
      var closed := IsClosed();
      if closed {
        r := Some(ProbeShutdown);
        return;
      }
      ProbeFits(ledger);
      var arm := Select(ONLY_WAKES.(future := true, futureFirst := true), None);
      match arm {
        case ShutdownArm => r := Some(ProbeShutdown);
        case FutureArm =>
          var result := CompleteProbe();
          r := Some(ProbeDone(result, latched));
        case WakeArm(None) => r := Some(ProbeShutdown);
        case WakeArm(Some(request)) =>
          startupDemand := LatchStartupDemand(latches, latched, request);
          r := None;
        case _ => r := Some(ProbeCut);
      }
    }

    method LatchStartupDemand(latches: bool, latched: bool, request: WakeRequest) returns (startupDemand: bool)
      requires Holding(request) && !ledger.seen && lifecycle.phase in {Reconciling, External} && ledger.watch == Absent
      requires if latches then lifecycle.phase == Reconciling && (latched <==> ledger.wakes.demand.Some?)
               else !latched && (lifecycle.phase == Reconciling ==> ledger.wakes.demand.Some?)
      modifies `run, `ledger
      ensures Valid() && old(run) <= run
      ensures Quietly(old(ledger).(inHand := None, wakes := ledger.wakes), ledger)
      ensures startupDemand == (latched || (latches && request.observed == lifecycle))
      ensures if latches then startupDemand <==> ledger.wakes.demand.Some? else ledger.wakes == old(ledger).wakes
      ensures ledger.wakes.accepted
           == old(ledger).wakes.accepted + (if startupDemand && !latched then 1 else 0)
    {
      hide Kept, Explains, StepOk, Advance, PublicationOk, CallSite, Apply;
      startupDemand := latched;
      if latches && !latched && request.observed == lifecycle {
        startupDemand := true;
        Answer(request, true);
      } else {
        Answer(request, false);
      }
    }

    method ReconcileStartup() returns (r: StartupOutcome)
      requires Valid() && !ledger.seen && lifecycle.phase == Reconciling && lifecycle.evidence == NoEvidence
      requires ledger.gate == Quiet && ledger.wakes.demand.None? && !childOwned && ledger.watch == Absent
      requires sampled == {lifecycle}
      modifies this, tracker
      ensures Valid() && WentOn(old(run), old(fuel))
      ensures r.StartIdle? && lifecycle.phase == External ==> ledger.nextPoll == clock + config.pollInterval
      ensures r.StartIdle? || r.StartLaunch? ==> ledger.gate == Quiet
      ensures r.StartIdle? ==> !ledger.seen && ledger.wakes.demand.None? && lifecycle.phase in {Stopped, External, Conflict}
      ensures r.StartLaunch? ==> !ledger.seen && ledger.wakes.demand.Some? && lifecycle.phase == Stopped
      ensures r.StartShutdown? ==> ledger.seen
      ensures !r.StartCut? ==> !childOwned && ledger.watch == Absent
      ensures r.StartCut? ==> fuel == 0
    {
      hide Kept, Explains, StepOk, Advance, PublicationOk, CallSite, Apply, LetsHappen, Agrees, Facts;
      var probe := WaitForReconciliation(true);
      if !probe.ProbeDone? {
        return if probe.ProbeCut? then StartCut else StartShutdown;
      }
      var pending, _ := ShutdownPending();
      if pending {
        return StartShutdown;
      }
      match probe.result.Classify() {
        case Clean =>
          ConcludeClean();
          return if probe.startupDemand then StartLaunch else StartIdle;
        case FullyReady =>
          ConcludeExternal(probe.startupDemand);
        case FoundPositive =>
          ConcludeConflict(Positive, probe.startupDemand);
        case FoundInconclusive =>
          ConcludeConflict(Inconclusive, probe.startupDemand);
      }
      r := StartIdle;
    }

    /** The last probe before a launch. Positive evidence can only be confirmed or stay a conflict. */
    method ReconcileFinalGate() returns (r: GateOutcome)
      requires Valid() && !ledger.seen && lifecycle.phase in {Stopped, Cooldown, Conflict}
      requires ledger.wakes.demand.Some? && !childOwned && ledger.watch == Absent
      requires lifecycle.phase == Cooldown ==> lifecycle.retryAt.Some? && clock >= lifecycle.retryAt.value
      modifies this, tracker
      ensures Valid() && WentOn(old(run), old(fuel))
      ensures r.GateLaunch? ==>
        && fuel < old(fuel) && !ledger.seen && lifecycle.phase == Reconciling && lifecycle.evidence != Positive
        && ledger.gate.Cleared? && ledger.gate.found == Clean
        && ledger.wakes.demand.Some? && ledger.wakes.demand.value < ledger.gate.started
      ensures old(lifecycle).evidence == Positive ==> !r.GateLaunch?
      ensures r.GateBlocked? ==> ledger.gate == Quiet
      ensures r.GateBlocked? && lifecycle.phase == External ==> ledger.nextPoll == clock + config.pollInterval
      ensures r.GateBlocked? ==>
        fuel < old(fuel) && !ledger.seen && ledger.wakes.demand.None? && lifecycle.phase in {External, Conflict}
      ensures r.GateShutdown? ==> ledger.seen
      ensures !r.GateCut? ==> !childOwned && ledger.watch == Absent
      ensures r.GateCut? ==> fuel == 0
    {
      hide Kept, Explains, StepOk, Advance, PublicationOk, CallSite, Apply, LetsHappen, Agrees, Facts;
      var prior := StartFinalGate();
      var probe := WaitForReconciliation(false);
      if !probe.ProbeDone? {
        return if probe.ProbeCut? then GateCut else GateShutdown;
      }
      var pending, _ := ShutdownPending();
      if pending {
        return GateShutdown;
      }
      r := PassGate(prior, probe.result.Classify());
    }

    /** What the last probe found decides: a launch, or the demand is answered without one. */
    method PassGate(prior: Evidence, found: Classification) returns (r: GateOutcome)
      requires Valid() && !ledger.seen && lifecycle.phase == Reconciling && lifecycle.evidence == prior
      requires ledger.wakes.demand.Some? && ledger.gate.Cleared? && ledger.gate.found == found
      modifies `lifecycle, `sampled, `run, `ledger
      ensures Valid() && old(run) <= run && !ledger.seen && ledger.watch == old(ledger).watch
      ensures r.GateLaunch? <==> prior != Positive && found == Clean
      ensures r.GateLaunch? ==> ledger == old(ledger) && lifecycle == old(lifecycle)
      ensures !r.GateLaunch? ==>
        && r.GateBlocked? && ledger.wakes.demand.None? && ledger.gate == Quiet
        && (lifecycle.phase == External ==> ledger.nextPoll == clock + config.pollInterval)
        && lifecycle.phase == if found == FullyReady then External else Conflict
    {
      hide Kept, Explains, StepOk, Advance, PublicationOk, CallSite, Apply;
      if prior == Positive {
        if found == FullyReady {
          ConcludeExternal(true);
        } else {
          ConcludeConflict(Positive, true);
        }
        return GateBlocked;
      }
      match found {
        case Clean => return GateLaunch;
        case FullyReady =>
          ConcludeExternal(true);
        case FoundPositive =>
          ConcludeConflict(Positive, true);
        case FoundInconclusive =>
          ConcludeConflict(Inconclusive, true);
      }
      r := GateBlocked;
    }

    /** Polls an external backend until it is no longer fully ready. */
    method MonitorExternalServer() returns (r: ExternalOutcome)
      requires Valid() && !ledger.seen && lifecycle.phase == External && lifecycle.evidence == Positive
      requires ledger.wakes.demand.None? && FoundReady(ledger.gate) && !childOwned && ledger.watch == Absent
      requires ledger.nextPoll == clock + config.pollInterval
      modifies this, tracker
      ensures Valid() && WentOn(old(run), old(fuel))
      ensures r.ExternalConflict? ==>
        !ledger.seen && lifecycle.phase == Conflict && ledger.wakes.demand.None? && ledger.gate == Quiet
      ensures r.ExternalShutdown? ==> ledger.seen
      ensures !r.ExternalCut? ==> !childOwned && ledger.watch == Absent
      ensures !r.ExternalReady?
      ensures r.ExternalCut? ==> fuel == 0
    {
      hide Fits, MaySuspend, Facts, Kept, Explains, StepOk, Advance, PublicationOk, CallSite, Apply, Accepts, ClientSent, CountsZero;
      var nextPoll := clock + config.pollInterval;
      while fuel > 0
        invariant Valid() && WentOn(old(run), old(fuel)) && !ledger.seen
        invariant lifecycle == old(lifecycle) && ledger.wakes == old(ledger).wakes && ledger.watch == Absent
        invariant !childOwned && FoundReady(ledger.gate) && ledger.nextPoll == nextPoll
      {
        var closed := IsClosed();
        if closed {
          return ExternalShutdown;
        }
        ExternalFits(ledger, nextPoll);
        var arm := Select(ONLY_WAKES.(pollAt := Some(nextPoll)), None);
        match arm {
          case ShutdownArm => return ExternalShutdown;
          case WakeArm(None) => return ExternalShutdown;
          case WakeArm(Some(request)) => Ignore(request);
          case PollArm =>
            r := ProbeExternalServer();
            if !r.ExternalReady? {
              return;
            }
            nextPoll := clock + config.pollInterval;
          case _ => return ExternalCut;
        }
      }
      r := ExternalCut;
    }

    method ProbeExternalServer() returns (r: ExternalOutcome)
      requires Owing(PollBranch) && !ledger.seen && lifecycle.phase == External && lifecycle.evidence == Positive
      requires ledger.wakes.demand.None? && !childOwned && ledger.watch == Absent
      modifies this, tracker
      ensures Valid() && WentOn(old(run), old(fuel))
      ensures r.ExternalReady? ==>
        && fuel < old(fuel) && !ledger.seen && lifecycle == old(lifecycle)
        && ledger.wakes == old(ledger).wakes && ledger.gate.Cleared? && ledger.gate.found == FullyReady
        && ledger.nextPoll == clock + config.pollInterval
      ensures r.ExternalConflict? ==>
        !ledger.seen && lifecycle.phase == Conflict && ledger.wakes.demand.None? && ledger.gate == Quiet
      ensures r.ExternalShutdown? ==> ledger.seen
      ensures !r.ExternalCut? ==> !childOwned && ledger.watch == Absent
      ensures r.ExternalCut? ==> fuel == 0
    {
      hide Kept, Explains, StepOk, Advance, PublicationOk, CallSite, Apply, Accepts, ClientSent, CountsZero;
      var probe := WaitForReconciliation(false);
      if !probe.ProbeDone? {
        return if probe.ProbeCut? then ExternalCut else ExternalShutdown;
      }
      var pending, _ := ShutdownPending();
      if pending {
        return ExternalShutdown;
      }
      if probe.result.Classify() == FullyReady {
        return ExternalReady;
      }
      ConcludeConflict(Positive, false);
      r := ExternalConflict;
    }

    /** Waits out a cooldown, during which one wake of the same failure may be latched as a retry. */
    method WaitForCooldown(retryAt: Instant, retryPending: bool) returns (r: CooldownOutcome)
      requires Valid() && !ledger.seen && lifecycle.phase == Cooldown && lifecycle.retryAt == Some(retryAt)
      requires retryPending <==> ledger.wakes.demand.Some?
      requires !childOwned && ledger.watch == Absent
      modifies this, tracker
      ensures Valid() && WentOn(old(run), old(fuel))
      ensures r.CooldownLaunch? ==>
        && !ledger.seen && ledger.wakes.demand.Some? && lifecycle.phase == Cooldown
        && lifecycle.retryAt == Some(retryAt) && clock >= retryAt
      ensures r.CooldownStopped? ==>
        !ledger.seen && ledger.wakes.demand.None? && lifecycle.phase == Stopped && clock >= retryAt
      ensures r.CooldownShutdown? ==> ledger.seen && lifecycle.phase == Stopped
      ensures !r.CooldownCut? ==> !childOwned && ledger.watch == Absent
      ensures r.CooldownCut? ==> fuel == 0
    {
      hide Kept, Explains, Agrees, StepOk, Advance, PublicationOk, CallSite, Apply, Accepts, ClientSent, CountsZero;
      var retrying := retryPending;
      while fuel > 0
        invariant Valid() && WentOn(old(run), old(fuel)) && !ledger.seen
        invariant lifecycle == old(lifecycle) && (retrying <==> ledger.wakes.demand.Some?)
        invariant !childOwned && ledger.watch == Absent
      {
        var pending, _ := ShutdownPending();
        if pending {
          Stop();
          return CooldownShutdown;
        }
        if clock >= retryAt {
          if retrying {
            return CooldownLaunch;
          }
          Stop();
          return CooldownStopped;
        }
        var ended;
        ended, retrying := AwaitRetry(retryAt, retrying);
        if ended.Some? {
          return ended.value;
        }
      }
      r := CooldownCut;
    }

    /** One wait of the cooldown, for a wake or for time to pass. */
    method AwaitRetry(retryAt: Instant, latched: bool) returns (r: Option<CooldownOutcome>, retrying: bool)
      requires Valid() && !ledger.seen && lifecycle.phase == Cooldown && (latched <==> ledger.wakes.demand.Some?)
      requires lifecycle.retryAt == Some(retryAt) && clock < retryAt
      requires !childOwned && ledger.watch == Absent
      modifies this, tracker
      ensures Valid() && WentOn(old(run), old(fuel))
      ensures ledger.childLive == old(ledger).childLive && ledger.watch == old(ledger).watch
      ensures r.None? ==>
        && fuel < old(fuel) && Quietly(old(ledger).(wakes := ledger.wakes), ledger)
        && (retrying <==> ledger.wakes.demand.Some?)
      ensures r.Some? ==> r.value in {CooldownShutdown, CooldownCut}
      ensures r == Some(CooldownShutdown) ==> ledger.seen && lifecycle.phase == Stopped
      ensures r == Some(CooldownCut) ==> fuel == 0
    {
      hide Fits, MaySuspend, Facts, Kept, Explains, StepOk, Advance, PublicationOk, CallSite, Apply, Accepts, ClientSent, CountsZero;
      retrying := latched;
      Known();
      CooldownFits(ledger, retryAt);
      var arm := Select(ONLY_WAKES.(timer := Some(retryAt)), None);
      match arm {
        case ShutdownArm =>
          Stop();
          r := Some(CooldownShutdown);
        case WakeArm(None) =>
          Stop();
          r := Some(CooldownShutdown);
        case WakeArm(Some(request)) =>
          retrying := LatchRetry(request, latched);
          r := None;
        case TimerArm => r := None;
        case _ => r := Some(CooldownCut);
      }
    }

    /** A wake of the same failure asks for a retry; one is enough. */
    method LatchRetry(request: WakeRequest, latched: bool) returns (retrying: bool)
      requires Holding(request) && !ledger.seen && (latched <==> ledger.wakes.demand.Some?) && ledger.watch == Absent
      requires lifecycle.phase == Cooldown || (lifecycle.phase == Stopping && lifecycle.failure.Some? && !latched)
      modifies `run, `ledger
      ensures Valid() && old(run) <= run && Quietly(old(ledger).(inHand := None, wakes := ledger.wakes), ledger)
      ensures retrying == (latched || request.RequestsRetry(lifecycle)) && (retrying <==> ledger.wakes.demand.Some?)
    {
      hide Kept, Explains, StepOk, Advance;
      retrying := latched;
      if request.RequestsRetry(lifecycle) && !latched {
        retrying := true;
        Answer(request, true);
      } else {
        Answer(request, false);
      }
    }

    /** A wake that observed this very stop asks for a restart. */
    method LatchRestart(request: WakeRequest, latched: bool) returns (restart: bool)
      requires Holding(request) && !ledger.seen && (latched <==> ledger.wakes.demand.Some?) && ledger.watch == Absent
      requires lifecycle.phase == Stopping && lifecycle.failure.None?
      modifies `run, `ledger
      ensures Valid() && old(run) <= run && Quietly(old(ledger).(inHand := None, wakes := ledger.wakes), ledger)
      ensures restart == (latched || request.RequestsRestart(lifecycle)) && (restart <==> ledger.wakes.demand.Some?)
    {
      hide Kept, Explains, StepOk, Advance;
      restart := latched;
      if request.RequestsRestart(lifecycle) {
        restart := true;
        Answer(request, true);
      } else {
        Answer(request, false);
      }
    }

    // ---- The owned child

    method Launch() returns (launched: bool)
      requires Valid() && !ledger.seen && lifecycle.phase == Reconciling && lifecycle.evidence != Positive
      requires ledger.gate.Cleared? && ledger.gate.found == Clean && !childOwned
      requires ledger.wakes.demand.Some? && ledger.wakes.demand.value < ledger.gate.started
      modifies `childOwned, `run, `ledger
      ensures Valid() && old(run) <= run && childOwned == launched
      ensures Quietly(old(ledger).(gate := Attempted(launched), childLive := launched), ledger)
    {
      hide Kept, Explains;
      launched := script.launch(|run|);
      Record(LaunchAttempted(launched));
      childOwned := launched;
    }

    /** Reports an already reaped child's exit as a failure and enters the cooldown. */
    method ReapedFailure(failure: FailureCategory) returns (outcome: CycleOutcome)
      requires Valid() && !ledger.seen && !childOwned && ledger.wakes.demand.None? && lifecycle.evidence == NoEvidence
      requires || (lifecycle.phase == Starting && failure == ExitedBeforeReady && ledger.watch in {Absent, Trying, Pausing})
               || (lifecycle.phase == Running && failure == ExitedUnexpectedly
                   && (ledger.watch == Polling || ledger.watch.Due?))
      modifies `lifecycle, `sampled, `run, `ledger
      ensures Valid() && old(run) <= run && CycleEnded(outcome)
    {
      hide Kept, Explains, StepOk, Advance, PublicationOk, CallSite, FailureBackoff, LetsHappen, NextPoll, NextZeroAnchor;
      ReapedFailureIsOk(failure);
      var retryAt := RecordReapedFailure(failure);
      Log(Publication.RecordReapedFailure(failure), clock);
      outcome := CycleFailed(retryAt, false);
    }

    lemma ReapedFailureIsOk(failure: FailureCategory)
      requires Valid() && !childOwned && lifecycle.evidence == NoEvidence
      requires || (lifecycle.phase == Starting && failure == ExitedBeforeReady && ledger.watch in {Absent, Trying, Pausing})
               || (lifecycle.phase == Running && failure == ExitedUnexpectedly
                   && (ledger.watch == Polling || ledger.watch.Due?))
      ensures PublicationOk(ledger, Publication.RecordReapedFailure(failure), clock)
    {
      hide Kept, Explains;
    }

    /** What `run` may rely on when a server cycle returns without an error. */
    ghost predicate CycleEnded(outcome: CycleOutcome)
      reads this
    {
      && (!outcome.CycleCut? && !outcome.CycleError? ==> !childOwned && ledger.watch == Absent)
      && (outcome.CycleStopped? ==>
            !ledger.seen && lifecycle.phase == Stopping && lifecycle.failure.None? && ledger.wakes.demand.None?)
      && (outcome.CycleRestart? ==>
            !ledger.seen && lifecycle.phase == Stopping && lifecycle.failure.None? && ledger.wakes.demand.Some?)
      && (outcome.CycleFailed? ==>
            && !ledger.seen && lifecycle.phase == Cooldown && lifecycle.retryAt == Some(outcome.retryAt)
            && (outcome.retryPending <==> ledger.wakes.demand.Some?))
      && (outcome.CycleShutdown? ==> ledger.seen && lifecycle.phase == Stopping)
      && (outcome.CycleError? ==> ledger.world.troubled && lifecycle.phase in {Stopping, Stopped})
      && (outcome.CycleCut? ==> fuel == 0)
    }

    /** `set_phase(Stopping)` over a live child. */
    method StartStopping()
      requires Valid() && lifecycle.phase in {Starting, Running} && lifecycle.evidence == NoEvidence
      requires ledger.watch in {Absent, Trying, Pausing, Reachable, Polling} || ledger.watch.Due?
      requires ledger.seen || ledger.world.troubled
      modifies `lifecycle, `sampled, `run, `ledger
      ensures Valid() && old(run) <= run
      ensures lifecycle.phase == Stopping && ledger.watch == Absent && ledger.seen == old(ledger).seen
      ensures ledger.gate == Quiet && ledger.world.now == old(ledger).world.now
      ensures ledger.world.troubled == old(ledger).world.troubled
    {
      hide Kept, Explains, StepOk;
      SetPhase(Stopping);
      Log(SetStopping, clock);
    }

    /** Asks the child to stop, terminates it if it does not, and reaps it. The I/O outcomes are the
        environment's; success always means that the child was reaped. */
    method StopAndReap(graceful: bool) returns (ok: bool)
      requires Valid() || Owing(FutureBranch)
      requires childOwned && lifecycle.phase == Stopping && ledger.watch == Absent
      modifies `childOwned, `run, `ledger
      ensures Valid() && old(run) <= run && (if ok then !childOwned else ledger.world.troubled)
      ensures ok <==> !Complained(old(run))
      ensures graceful && script.obeys(|old(run)|) && script.exits(|old(run)|) ==> run == old(run) + [ChildReaped]
      ensures !(graceful && script.obeys(|old(run)|)) ==>
        (ok <==> script.terminates(|old(run)|) && script.timely(|old(run)|) && script.exits(|old(run)|))
      ensures Quietly(old(ledger).(childLive := ledger.childLive, woken := None), ledger)
      ensures ledger.world.now == old(ledger).world.now
    {
      hide Kept, Explains, Agrees, StepOk, Advance;
      KnownGate();
      var waitFailed := false;
      if graceful {
        if script.obeys(|run|) {
          var status := WaitedForChild();
          if status == Exited {
            return true;
          }
          waitFailed := true;
        }
      }
      ok := TerminateAndReap();
      ok := ok && !waitFailed;
    }

    /** The child that has not stopped by itself is terminated, and must then exit in time. */
    method TerminateAndReap() returns (ok: bool)
      requires Valid() || (Owing(FutureBranch) && !ledger.gate.Probing?)
      requires childOwned && lifecycle.phase == Stopping && ledger.watch == Absent
      modifies `childOwned, `run, `ledger
      ensures Valid() && old(run) <= run && (if ok then !childOwned else ledger.world.troubled)
      ensures ok <==> !Complained(old(run))
      ensures ok <==> script.terminates(|old(run)|) && script.timely(|old(run)|) && script.exits(|old(run)|)
      ensures Quietly(old(ledger).(childLive := ledger.childLive, woken := None), ledger)
      ensures ledger.world.now == old(ledger).world.now
    {
      hide Kept, Explains, Agrees, StepOk, Advance;
      var terminated := script.terminates(|run|);
      if !terminated {
        Complain(TerminationErred);
      }
      if !script.timely(|run|) {
        Complain(StopOverdue);
        return false;
      }
      var status := WaitedForChild();
      ok := status == Exited && terminated;
      assert !terminated ==> run[|old(run)|].ChildErred?;
    }

    method ReapAfterWaitError() returns (outcome: CycleOutcome)
      requires Valid() && !ledger.seen && childOwned && lifecycle.phase in {Starting, Running}
      requires lifecycle.evidence == NoEvidence
      requires ledger.watch in {Absent, Trying, Pausing, Reachable, Polling} || ledger.watch.Due?
      requires ledger.world.troubled
      modifies this, tracker
      ensures Valid() && old(run) <= run && fuel == old(fuel)
      ensures outcome == CycleError && CycleEnded(outcome)
      ensures if lifecycle.phase == Stopped then !childOwned else Complained(old(run))
    {
      hide Kept, Explains, StepOk, Advance, PublicationOk, CallSite, Apply;
      StartStopping();
      Elapse();
      var graceful: bool := *;
      var ok := StopAndReap(graceful);
      if ok {
        Stop();
      }
      outcome := CycleError;
    }

    method StopForShutdown() returns (outcome: CycleOutcome)
      requires Valid() && ledger.seen && childOwned && lifecycle.phase in {Starting, Running}
      requires lifecycle.evidence == NoEvidence
      requires ledger.watch in {Absent, Trying, Pausing, Reachable, Polling} || ledger.watch.Due?
      modifies this, tracker
      ensures Valid() && old(run) <= run && fuel == old(fuel)
      ensures outcome in {CycleShutdown, CycleError} && CycleEnded(outcome)
    {
      hide Kept, Explains, StepOk, Advance, PublicationOk, CallSite, Apply;
      StartStopping();
      Elapse();
      var graceful: bool := *;
      var ok := StopAndReap(graceful);
      outcome := if ok then CycleShutdown else CycleError;
    }

    /** A server that missed its startup deadline is stopped while one retry may be latched. */
    method StopFailedServer() returns (outcome: CycleOutcome)
      requires Valid() && !ledger.seen && childOwned && lifecycle.phase == Starting && lifecycle.evidence == NoEvidence
      requires ledger.watch == Absent && ledger.wakes.demand.None? && StartupOver(ledger)
      modifies this, tracker
      ensures Valid() && WentOn(old(run), old(fuel)) && CycleEnded(outcome)
    {
      hide Kept, Explains, StepOk, Advance;
      var retryDelay := BeginFailureCleanup(StartupTimedOut);
      Log(Publication.BeginFailureCleanup(StartupTimedOut), clock);
      outcome := FinishFailedCleanup(retryDelay);
    }

    method FinishFailedCleanup(retryDelay: Duration) returns (outcome: CycleOutcome)
      requires Valid() && !ledger.seen && childOwned && lifecycle.phase == Stopping && lifecycle.failure.Some?
      requires lifecycle.evidence == NoEvidence && ledger.watch == Absent && ledger.wakes.demand.None?
      requires lifecycle.streak > 0 && retryDelay == FailureBackoff(lifecycle.streak)
      modifies this, tracker
      ensures Valid() && WentOn(old(run), old(fuel)) && CycleEnded(outcome)
    {
      hide Kept, Explains, Agrees, StepOk, Advance, PublicationOk, CallSite, Apply, Accepts, ClientSent, CountsZero;
      var graceful: bool := *;
      var end, retryPending := AwaitFailedCleanup(graceful);
      match end {
        case CleanedUp =>
        case CleanupShutdown =>
          var ok := StopAndReap(graceful);
          return if ok then CycleShutdown else CycleError;
        case CleanupFailed => return CycleError;
        case CleanupCut => return CycleCut;
      }
      var pending, _ := ShutdownPending();
      if pending {
        return CycleShutdown;
      }
      outcome := EnterCooldown(retryDelay, retryPending);
    }

    /** While the cleanup runs, one wake of the failure may be latched as a retry. */
    method AwaitFailedCleanup(graceful: bool) returns (end: CleanupEnd, retryPending: bool)
      requires Valid() && !ledger.seen && childOwned && lifecycle.phase == Stopping && lifecycle.failure.Some?
      requires ledger.watch == Absent && ledger.wakes.demand.None?
      modifies this, tracker
      ensures Valid() && WentOn(old(run), old(fuel)) && lifecycle == old(lifecycle) && ledger.watch == Absent
      ensures end.CleanedUp? ==> !ledger.seen && !childOwned && (retryPending <==> ledger.wakes.demand.Some?)
      ensures end.CleanupShutdown? ==> ledger.seen && childOwned
      ensures end.CleanupFailed? ==> ledger.world.troubled
      ensures end.CleanupCut? ==> fuel == 0
    {
      hide Fits, MaySuspend, Facts, Kept, Explains, Agrees, StepOk, Advance, PublicationOk, CallSite, Apply, Accepts, ClientSent, CountsZero;
      retryPending := false;
      while true
        invariant Valid() && WentOn(old(run), old(fuel)) && !ledger.seen && childOwned
        invariant lifecycle == old(lifecycle) && ledger.watch == Absent
        invariant retryPending <==> ledger.wakes.demand.Some?
        decreases fuel
      {
        Known();
        CleanupFits(ledger, retryPending);
        var arm := Select(ONLY_WAKES.(wakes := !retryPending, future := true), None);
        match arm {
          case ShutdownArm =>
            end := CleanupShutdown;
            return;
          case WakeArm(None) =>
            end := CleanupShutdown;
            return;
          case WakeArm(Some(request)) =>
            retryPending := LatchRetry(request, retryPending);
          case FutureArm =>
            var ok := StopAndReap(graceful);
            end := if ok then CleanedUp else CleanupFailed;
            return;
          case _ =>
            end := CleanupCut;
            return;
        }
      }
    }

    method EnterCooldown(retryDelay: Duration, retryPending: bool) returns (outcome: CycleOutcome)
      requires Valid() && !ledger.seen && !childOwned && lifecycle.phase == Stopping && lifecycle.failure.Some?
      requires lifecycle.evidence == NoEvidence && ledger.watch == Absent
      requires lifecycle.streak > 0 && retryDelay == FailureBackoff(lifecycle.streak)
      requires retryPending <==> ledger.wakes.demand.Some?
      modifies `lifecycle, `sampled, `run, `ledger
      ensures Valid() && old(run) <= run && CycleEnded(outcome) && outcome.CycleFailed?
    {
      hide Kept, Explains, StepOk, Advance;
      var retryAt := FinishFailureCleanup(retryDelay);
      Log(Publication.FinishFailureCleanup, clock);
      outcome := CycleFailed(retryAt, retryPending);
    }

    /** A committed idle stop: the child is stopped while wakes that observed this very stop may ask for a
        restart, including one still in the slot afterwards. */
    method StopCommittedIdleServer() returns (outcome: CycleOutcome)
      requires Valid() && !ledger.seen && childOwned && lifecycle.phase == Stopping && ledger.watch == Absent
      requires lifecycle.failure.None? && lifecycle.streak == 0 && ledger.wakes.demand.None?
      modifies this, tracker
      ensures Valid() && WentOn(old(run), old(fuel)) && CycleEnded(outcome)
    {
      hide Kept, Explains, StepOk, Advance, PublicationOk, CallSite, Apply;
      var graceful: bool := *;
      var end, restart := AwaitIdleCleanup(graceful);
      match end {
        case CleanedUp =>
        case CleanupShutdown =>
          var ok := StopAndReap(graceful);
          return if ok then CycleShutdown else CycleError;
        case CleanupFailed => return CycleError;
        case CleanupCut => return CycleCut;
      }
      var pending, _ := ShutdownPending();
      if pending {
        return CycleShutdown;
      }
      outcome := DrainRestartRequests(restart);
    }

    /** While the cleanup runs, one wake that observed this stop may be latched as a restart. */
    method AwaitIdleCleanup(graceful: bool) returns (end: CleanupEnd, restart: bool)
      requires Valid() && !ledger.seen && childOwned && lifecycle.phase == Stopping && lifecycle.failure.None?
      requires ledger.watch == Absent && ledger.wakes.demand.None?
      modifies this, tracker
      ensures Valid() && WentOn(old(run), old(fuel)) && lifecycle == old(lifecycle) && ledger.watch == Absent
      ensures end.CleanedUp? ==> !ledger.seen && !childOwned && (restart <==> ledger.wakes.demand.Some?)
      ensures end.CleanupShutdown? ==> ledger.seen && childOwned
      ensures end.CleanupFailed? ==> ledger.world.troubled
      ensures end.CleanupCut? ==> fuel == 0
    {
      hide Fits, MaySuspend, Facts, Kept, Explains, Agrees, StepOk, Advance, PublicationOk, CallSite, Apply, Accepts, ClientSent, CountsZero;
      restart := false;
      while true
        invariant Valid() && WentOn(old(run), old(fuel)) && !ledger.seen && childOwned
        invariant lifecycle == old(lifecycle) && ledger.watch == Absent
        invariant restart <==> ledger.wakes.demand.Some?
        decreases fuel
      {
        Known();
        CleanupFits(ledger, restart);
        var arm := Select(ONLY_WAKES.(wakes := !restart, future := true), None);
        match arm {
          case ShutdownArm =>
            end := CleanupShutdown;
            return;
          case WakeArm(None) =>
            end := CleanupShutdown;
            return;
          case WakeArm(Some(request)) =>
            restart := LatchRestart(request, restart);
          case FutureArm =>
            var ok := StopAndReap(graceful);
            end := if ok then CleanedUp else CleanupFailed;
            return;
          case _ =>
            end := CleanupCut;
            return;
        }
      }
    }

    method DrainRestartRequests(restarting: bool) returns (outcome: CycleOutcome)
      requires Valid() && !ledger.seen && !childOwned && lifecycle.phase == Stopping && ledger.watch == Absent
      requires lifecycle.failure.None? && (restarting <==> ledger.wakes.demand.Some?)
      modifies this, tracker
      ensures Valid() && WentOn(old(run), old(fuel)) && CycleEnded(outcome)
    {
      hide Kept, Explains, StepOk, Advance, PublicationOk, CallSite, Apply;
      var restart := restarting;
      while fuel > 0
        invariant Valid() && WentOn(old(run), old(fuel)) && !ledger.seen && !childOwned
        invariant lifecycle == old(lifecycle) && ledger.watch == Absent
        invariant restart <==> ledger.wakes.demand.Some?
      {
        var received := TryReceiveWake();
        match received {
          case Received(request) =>
            fuel := fuel - 1;
            restart := LatchRestart(request, restart);
          case EmptySlot => return if restart then CycleRestart else CycleStopped;
          case Disconnected => return CycleShutdown;
        }
      }
      outcome := CycleCut;
    }

    /** A connection attempt, to RCON if it is configured and to the backend otherwise, has completed. */
    method TryConnect() returns (connected: bool)
      requires (Owing(FutureBranch) && ledger.watch == Trying && !ledger.gate.Probing?)
            || (Valid() && ledger.config.rcon && ledger.watch == Polling)
      requires !ledger.seen
      modifies `run, `ledger
      ensures Valid() && run == old(run) + [ConnectionTried(connected)]
      ensures Quietly(old(ledger).(
        woken := None, nextPoll := ledger.nextPoll,
        watch := if old(ledger).watch == Trying then (if connected then Reachable else Pausing) else Polling), ledger)
      ensures ledger.nextPoll == if old(ledger).watch == Trying then old(ledger).nextPoll
                                 else if connected then clock else clock + ledger.config.retryInterval
    {
      hide Kept, Explains;
      connected := script.connect(|run|);
      Record(ConnectionTried(connected));
    }

    method BeginAttempt()
      requires Valid() && !ledger.seen && lifecycle.phase == Starting && ledger.watch == Absent && !StartupOver(ledger)
      modifies `run, `ledger
      ensures Valid() && old(run) <= run && Quietly(old(ledger).(watch := Trying), ledger)
      ensures ledger.world.now == old(ledger).world.now
    {
      hide Kept, Explains;
      Record(AttemptBegun);
    }

    /** The attempt's own timeout ends at the startup deadline. */
    method EndAttempt()
      requires Valid() && !ledger.seen && ledger.watch == Trying && StartupOver(ledger)
      modifies `run, `ledger
      ensures Valid() && old(run) <= run && Quietly(old(ledger).(watch := Pausing), ledger)
    {
      hide Kept, Explains;
      Record(AttemptTimedOut);
    }

    /** A wake that arrives while the server starts is ignored, and the attempt or pause given up. */
    method IgnoreWhileStarting(wake: WakeRequest)
      requires Holding(wake) && !ledger.seen && lifecycle.phase == Starting && ledger.woken.None?
      requires ledger.watch in {Trying, Pausing}
      modifies `run, `ledger
      ensures Valid() && old(run) <= run && Quietly(old(ledger).(inHand := None, watch := Absent), ledger)
    {
      hide Kept, Explains;
      Record(WakeIgnored(wake));
    }

    /** Waits until a connection attempt succeeds, the child exits, or the startup deadline passes. */
    method WaitForReadiness() returns (r: ReadinessOutcome)
      requires Valid() && !ledger.seen && childOwned && lifecycle.phase == Starting && ledger.watch == Absent
      requires clock == lifecycle.phaseStartedAt
      modifies this, tracker
      ensures Valid() && WentOn(old(run), old(fuel)) && lifecycle == old(lifecycle)
      ensures if r.BackendReady? then ledger.watch == Reachable
              else ledger.watch == Absent || (!r.StartupTimeout? && ledger.watch in {Trying, Pausing})
      ensures ledger.wakes == old(ledger).wakes && !r.StillWaiting?
      ensures r.StartupTimeout? ==> StartupOver(ledger)
      ensures r.ReadinessShutdown? <==> ledger.seen
      ensures r.ProcessWaitFailed? ==> ledger.world.troubled
      ensures r.ExitedEarly? <==> !childOwned
      ensures r.ReadinessCut? ==> fuel == 0
    {
      hide Kept, Explains, StepOk, Advance, PublicationOk, CallSite, Apply, Accepts, ClientSent, CountsZero;
      var deadline := clock + config.startupTimeout;
      while fuel > 0
        invariant Valid() && WentOn(old(run), old(fuel)) && !ledger.seen && childOwned
        invariant lifecycle == old(lifecycle) && ledger.watch == Absent && ledger.wakes == old(ledger).wakes
        invariant ledger.config == config && deadline == StartupDeadline(ledger)
      {
        if clock >= deadline {
          var status := TryWaitForChild();
          return match status case Exited => ExitedEarly case Alive => StartupTimeout case WaitFailed => ProcessWaitFailed;
        }
        BeginAttempt();
        var pauses;
        r, pauses := AwaitAttempt(deadline);
        if r.StillWaiting? && pauses {
          r := PauseBeforeRetry(deadline);
        }
        if !r.StillWaiting? {
          return;
        }
      }
      r := ReadinessCut;
    }

    /** One connection attempt, unless a wake interrupts it. */
    method AwaitAttempt(deadline: Instant) returns (r: ReadinessOutcome, pauses: bool)
      requires Valid() && !ledger.seen && childOwned && lifecycle.phase == Starting && ledger.watch == Trying
      requires deadline == StartupDeadline(ledger)
      modifies this, tracker
      ensures Valid() && WentOn(old(run), old(fuel)) && lifecycle == old(lifecycle)
      ensures ledger.wakes == old(ledger).wakes && ledger.config == old(ledger).config
      ensures r in {StillWaiting, BackendReady, ReadinessShutdown, ExitedEarly, ProcessWaitFailed, ReadinessCut}
      ensures if r.BackendReady? then ledger.watch == Reachable
              else if r.StillWaiting? then ledger.watch == (if pauses then Pausing else Absent)
              else ledger.watch == Trying
      ensures r.ReadinessShutdown? <==> ledger.seen
      ensures r.ProcessWaitFailed? ==> ledger.world.troubled
      ensures r.ExitedEarly? <==> !childOwned
      ensures r.ReadinessCut? ==> fuel == 0
      ensures r.StillWaiting? ==> fuel < old(fuel)
    {
      hide Fits, MaySuspend, Facts, Kept, Explains, StepOk, Advance, PublicationOk, CallSite, Apply, Accepts, ClientSent, CountsZero;
      Known();
      AttemptFits(ledger);
      var arm := Select(ONLY_WAKES.(child := true, future := true, timer := Some(deadline)), None);
      pauses := true;
      match arm {
        case ShutdownArm => r := ReadinessShutdown;
        case WakeArm(None) => r := ReadinessShutdown;
        case WakeArm(Some(request)) =>
          IgnoreWhileStarting(request);
          r, pauses := StillWaiting, false;
        case ChildArm =>
          var status := WaitedForChild();
          r := if status == Exited then ExitedEarly else ProcessWaitFailed;
        case FutureArm =>
          var connected := TryConnect();
          r := if connected then BackendReady else StillWaiting;
        case TimerArm =>
          EndAttempt();
          r := StillWaiting;
        case _ => r := ReadinessCut;
      }
    }

    /** The pause between two connection attempts. */
    method PauseBeforeRetry(deadline: Instant) returns (r: ReadinessOutcome)
      requires Valid() && !ledger.seen && childOwned && lifecycle.phase == Starting && ledger.watch == Pausing
      requires deadline == StartupDeadline(ledger)
      modifies this, tracker
      ensures Valid() && WentOn(old(run), old(fuel)) && lifecycle == old(lifecycle)
      ensures ledger.wakes == old(ledger).wakes && ledger.config == old(ledger).config
      ensures r in {StillWaiting, ReadinessShutdown, ExitedEarly, ProcessWaitFailed, ReadinessCut}
      ensures ledger.watch == if r.StillWaiting? then Absent else Pausing
      ensures r.ReadinessShutdown? <==> ledger.seen
      ensures r.ProcessWaitFailed? ==> ledger.world.troubled
      ensures r.ExitedEarly? <==> !childOwned
      ensures r.ReadinessCut? ==> fuel == 0
    {
      hide Fits, MaySuspend, Facts, Kept, Explains, StepOk, Advance, PublicationOk, CallSite, Apply, Accepts, ClientSent, CountsZero;
      Known();
      var retryAt := if clock + config.retryInterval <= deadline then clock + config.retryInterval else deadline;
      PauseFits(ledger, retryAt);
      var arm := Select(ONLY_WAKES.(child := true, timer := Some(retryAt)), None);
      match arm {
        case ShutdownArm => r := ReadinessShutdown;
        case WakeArm(None) => r := ReadinessShutdown;
        case WakeArm(Some(request)) =>
          IgnoreWhileStarting(request);
          r := StillWaiting;
        case ChildArm =>
          var status := WaitedForChild();
          r := if status == Exited then ExitedEarly else ProcessWaitFailed;
        case TimerArm => r := StillWaiting;
        case _ => r := ReadinessCut;
      }
    }

    // ---- Monitoring the running server

    /** The monitor's fields agree with the run, and nothing has been asked of the server since it started. */
    ghost predicate Watches(m: RunningMonitor)
      reads this, m
    {
      Monitors(ledger, lifecycle, config, m.cycle, m.inspection, m.stableAt, m.stabilityPending)
    }

    /** What the activity tracker shows, a moment later. */
    method ActivitySnapshot() returns (snapshot: Option<Activity>)
      requires Valid()
      modifies `clock, `wakeSlot, `wakesClosed, `shutdownSent, `run, `ledger, tracker
      ensures Valid() && old(run) <= run && Quietly(old(ledger), ledger)
      ensures snapshot == tracker.state == ledger.world.activity && LetsHappen(old(run), old(ledger))
    {
      Elapse();
      snapshot := tracker.Snapshot();
    }

    /** The monitor reads the tracker: from an expired idle period on an idle stop is due. */
    method ReadAnchor(m: RunningMonitor, ghost before: Watch) returns (activity: Option<Activity>, anchor: Option<Instant>)
      requires Valid() && !ledger.seen && Watches(m) && (ledger.watch == Polling || ledger.watch.Due?)
      requires before == ledger.watch
      modifies `clock, `wakeSlot, `wakesClosed, `shutdownSent, `run, `ledger, tracker
      ensures Valid() && old(run) <= run && Watches(m) && anchor == AnchorNow(ledger)
      ensures exists k :: |old(run)| <= k < |run| && run[k] == AnchorRead(anchor)
      ensures activity == tracker.state == ledger.lastRead
      ensures Quietly(old(ledger).(watch := ledger.watch, lastRead := ledger.lastRead), ledger)
      ensures ledger.watch ==
        if anchor.Some? && clock >= anchor.value + config.idleTimeout && (before.Due? ==> before.anchor == anchor.value)
        then Due(anchor.value) else Polling
    {
      hide Kept, Explains;
      activity := ActivitySnapshot();
      anchor := m.EffectiveIdleAnchor(activity);
      AnchorsAgree(m, activity);
      NoteAnchor(anchor);
      assert run[|run| - 1] == AnchorRead(anchor);
    }

    lemma AnchorsAgree(m: RunningMonitor, activity: Option<Activity>)
      requires Watches(m) && ledger.book.current == lifecycle
      ensures m.EffectiveIdleAnchor(activity) == AnchorFrom(ledger, activity)
    {
    }

    method NoteAnchor(anchor: Option<Instant>)
      requires Valid() && !ledger.seen && (ledger.watch == Polling || ledger.watch.Due?) && anchor == AnchorNow(ledger)
      modifies `run, `ledger
      ensures Valid() && run == old(run) + [AnchorRead(anchor)]
      ensures Quietly(old(ledger).(watch := NextWatch(old(ledger), AnchorRead(anchor)),
                                   lastRead := old(ledger).world.activity), ledger)
      ensures ledger.world.now == old(ledger).world.now && ledger.world.activity == old(ledger).world.activity
    {
      hide Kept, Explains, AnchorNow;
      Record(AnchorRead(anchor));
    }

    method AcquireExclusive(anchor: Instant)
      requires Owing(FutureBranch) && !ledger.seen && ledger.watch == Due(anchor) && !ledger.gate.Probing?
      modifies `run, `ledger
      ensures Valid() && old(run) <= run && Quietly(old(ledger).(woken := None, watch := Exclusive(anchor)), ledger)
    {
      hide Kept, Explains;
      Record(ExclusiveAcquired(anchor));
    }

    /** Dropping the write guard of the backend-use gate. */
    method ReleaseExclusive()
      requires Valid() && HoldsExclusive(ledger.watch)
      requires ledger.watch.Refused? || ledger.watch.Committed? || ledger.seen || !childOwned || ledger.world.troubled
      modifies `run, `ledger
      ensures Valid() && old(run) <= run
      ensures Quietly(old(ledger).(watch := if old(ledger).watch == Committed then Absent else Polling), ledger)
    {
      hide Kept, Explains;
      Record(ExclusiveReleased);
    }

    method RecheckIdle(snapshot: Activity)
      requires Valid() && !ledger.seen && ledger.watch.Exclusive?
      requires tracker.state == Some(snapshot) && snapshot.cycle == lifecycle.generation
      requires EffectiveAnchor(ledger, snapshot) == Some(ledger.watch.anchor)
      requires clock >= ledger.watch.anchor + ledger.config.idleTimeout
      modifies `run, `ledger
      ensures Valid() && old(run) <= run && Quietly(old(ledger).(watch := Rechecked(old(ledger).watch.anchor)), ledger)
    {
      hide Kept, Explains;
      Record(IdleRechecked(snapshot));
    }

    /** The idle period is over, or another one: this is no time to stop. */
    method NoteIdleOver()
      requires Valid() && !ledger.seen && ledger.watch.Exclusive?
      requires AnchorNow(ledger) != Some(ledger.watch.anchor) || clock < ledger.watch.anchor + ledger.config.idleTimeout
      modifies `run, `ledger
      ensures Valid() && old(run) <= run && Quietly(old(ledger).(watch := Refused), ledger)
    {
      hide Kept, Explains;
      Record(IdleOver);
    }

    /** One observation of the player count, by the reply that arrives in time, if one does. */
    method AskPlayers(underGuard: bool) returns (reply: Option<string>)
      requires !ledger.seen && ledger.config.rcon
      requires if underGuard then Owing(FutureBranch) && ledger.watch.Rechecked? && !ledger.gate.Probing?
               else Owing(PollBranch) && ledger.watch == Polling && lifecycle.phase == Running
      modifies `run, `ledger
      ensures Valid() && run == old(run) + [if underGuard then FinalCheck(reply) else PlayersPolled(reply)]
      ensures !underGuard ==>
        Quietly(old(ledger).(woken := None,
                             nextPoll := clock + (if reply.Some? then ledger.config.pollInterval
                                                  else ledger.config.retryInterval),
                             zeroAnchor := if !CountsZero(reply) then None
                                           else if old(ledger).zeroAnchor.None? then Some(clock)
                                           else old(ledger).zeroAnchor), ledger)
      ensures underGuard ==>
        Quietly(old(ledger).(woken := None,
                             nextPoll := if CountsZero(reply) then old(ledger).nextPoll
                                         else clock + (if reply.Some? then ledger.config.pollInterval
                                                       else ledger.config.retryInterval),
                             zeroAnchor := if CountsZero(reply) then old(ledger).zeroAnchor else None,
                             watch := if CountsZero(reply) then Confirmed(old(ledger).watch.anchor) else Refused), ledger)
    {
      hide Kept, Explains;
      reply := script.reply(|run|);
      Record(if underGuard then FinalCheck(reply) else PlayersPolled(reply));
    }

    /** There is no client to ask: nothing is known about players. */
    method ForgetPlayers()
      requires !ledger.seen && ledger.config.rcon
      requires (Owing(PollBranch) && ledger.watch == Polling && lifecycle.phase == Running)
            || (Valid() && ledger.watch.Rechecked?)
      modifies `run, `ledger
      ensures Valid() && run == old(run) + [PlayersUnknown]
      ensures Quietly(old(ledger).(woken := None, zeroAnchor := None,
                                   nextPoll := if old(ledger).watch == Polling then old(ledger).nextPoll
                                               else clock + ledger.config.retryInterval,
                                   watch := if old(ledger).watch == Polling then Polling else Refused), ledger)
    {
      hide Kept, Explains;
      Record(PlayersUnknown);
    }

    method ConfirmProxyOnly()
      requires Valid() && !ledger.seen && !ledger.config.rcon && ledger.watch.Rechecked?
      modifies `run, `ledger
      ensures Valid() && old(run) <= run && Quietly(old(ledger).(watch := Confirmed(old(ledger).watch.anchor)), ledger)
    {
      hide Kept, Explains;
      Record(ProxyOnlyConfirmed);
    }

    /** After a minute of uninterrupted running the failure streak is forgotten, unless the child is gone. */
    method CompleteStabilityWindow(m: RunningMonitor) returns (status: ChildStatus)
      requires Owing(StabilityBranch) && !ledger.seen && childOwned && Watches(m) && clock >= m.stableAt
      requires (ledger.watch.Polling? || ledger.watch.Due? || ledger.watch.Rechecked?) && !ledger.gate.Probing?
      modifies this, tracker, m
      ensures Valid() && old(run) <= run && fuel == old(fuel) && Watches(m) && !ledger.seen
      ensures !ledger.gate.Probing? && old(ledger).world.now <= ledger.world.now
      ensures ledger.watch == old(ledger).watch && m.inspection == old(m.inspection)
      ensures ledger.lastRead == old(ledger).lastRead
      ensures status == Exited <==> !childOwned
      ensures status == WaitFailed ==> ledger.world.troubled
      ensures status == Alive ==>
        lifecycle == old(lifecycle).(failure := None, streak := 0, retryAt := None) && !m.stabilityPending
      ensures status != Alive ==> lifecycle == old(lifecycle) && m.stabilityPending == old(m.stabilityPending)
    {
      hide Kept, Explains, StepOk, Advance, PublicationOk, CallSite, LetsHappen, Facts;
      status := TryWaitForChild();
      if status == Alive {
        ForgetFailures();
        m.stabilityPending := false;
      }
    }

    method ForgetFailures()
      requires Owing(ResetBranch) && !ledger.seen && childOwned
      requires lifecycle.phase == Running && lifecycle.evidence == NoEvidence
      requires clock >= lifecycle.phaseStartedAt + STABILITY_WINDOW && !ledger.gate.Probing?
      modifies `lifecycle, `sampled, `run, `ledger
      ensures Valid() && old(run) <= run
      ensures lifecycle == old(lifecycle).(failure := None, streak := 0, retryAt := None)
      ensures Quietly(old(ledger).(woken := None, gate := Quiet, book := ledger.book), ledger)
      ensures ledger.world.now == old(ledger).world.now
    {
      hide Kept, Explains, StepOk, Advance, PublicationOk, CallSite;
      ResetIsOk();
      ResetFailureStreak();
      Log(Publication.ResetFailureStreak, clock);
    }

    lemma ResetIsOk()
      requires Synced() && childOwned && lifecycle.phase == Running && lifecycle.evidence == NoEvidence
      requires clock >= lifecycle.phaseStartedAt + STABILITY_WINDOW
      ensures PublicationOk(ledger, Publication.ResetFailureStreak, clock)
    {
      hide Kept, Explains;
    }

    /** The branches that every wait of the monitor shares: shutdown, a wake to ignore, the child's exit, and the
        stability window. `None` means that another branch was taken, which is the caller's to handle. */
    method AwaitWhileMonitoring(m: RunningMonitor, branches: Branches, read: Option<Activity>)
      returns (r: Option<MonitorOutcome>, arm: Arm)
      requires Valid() && !ledger.seen && childOwned && Watches(m) && !ledger.gate.Probing?
      requires ledger.watch.Polling? || ledger.watch.Due? || ledger.watch.Rechecked?
      requires Fits(branches, read, ledger) && MaySuspend(ledger)
      requires branches.stableAt == if m.stabilityPending then Some(m.stableAt) else None
      modifies this, tracker, m
      ensures WentOn(old(run), old(fuel))
      ensures ledger.watch == old(ledger).watch && m.inspection == old(m.inspection) && Watches(m)
      ensures ledger.lastRead == old(ledger).lastRead && !ledger.gate.Probing?
      ensures old(ledger).world.now <= ledger.world.now
      ensures r == Some(MonitorCut) || fuel < old(fuel)
      ensures r.Some? ==> Valid() && r.value in {Continue, MonitorShutdown, MonitorCut, ChildWait(Exited), ChildWait(WaitFailed)}
      ensures r == Some(MonitorShutdown) <==> ledger.seen
      ensures r == Some(ChildWait(Exited)) <==> !childOwned
      ensures r == Some(ChildWait(WaitFailed)) ==> ledger.world.troubled
      ensures r == Some(MonitorCut) ==> fuel == 0
      ensures r.None? ==>
        || (arm.PollArm? && Owing(PollBranch) && branches.pollAt.Some?)
        || (arm.FutureArm? && Owing(FutureBranch) && branches.future)
        || (arm.TimerArm? && Valid() && (branches.notified || Reached(branches.timer, clock)))
    {
      hide Fits, MaySuspend, Facts, Kept, Explains, Agrees, StepOk, Advance, PublicationOk, CallSite, Apply, Accepts, ClientSent, CountsZero, Left;
      ListensFits(branches, read, ledger);
      arm := Select(branches, read);
      r := HandleShared(m, branches, arm, old(ledger));
    }

    method HandleShared(m: RunningMonitor, branches: Branches, arm: Arm, ghost before: Ledger)
      returns (r: Option<MonitorOutcome>)
      requires Left(before, branches, arm) && !before.seen && before.childLive && !before.gate.Probing?
      requires Monitors(before, lifecycle, config, m.cycle, m.inspection, m.stableAt, m.stabilityPending)
      requires before.watch.Polling? || before.watch.Due? || before.watch.Rechecked?
      requires branches.stableAt == if m.stabilityPending then Some(m.stableAt) else None
      requires arm.CutArm? ==> fuel == 0
      modifies this, tracker, m
      ensures old(run) <= run && fuel == old(fuel)
      ensures ledger.watch == before.watch && m.inspection == old(m.inspection) && Watches(m)
      ensures ledger.lastRead == before.lastRead && !ledger.gate.Probing?
      ensures before.world.now <= ledger.world.now
      ensures r.Some? ==> Valid() && r.value in {Continue, MonitorShutdown, MonitorCut, ChildWait(Exited), ChildWait(WaitFailed)}
      ensures r == Some(MonitorShutdown) <==> ledger.seen
      ensures r == Some(ChildWait(Exited)) <==> !childOwned
      ensures r == Some(ChildWait(WaitFailed)) ==> ledger.world.troubled
      ensures r == Some(MonitorCut) <==> arm.CutArm?
      ensures r.None? ==>
        || (arm.PollArm? && Owing(PollBranch) && branches.pollAt.Some?)
        || (arm.FutureArm? && Owing(FutureBranch) && branches.future)
        || (arm.TimerArm? && Valid() && (branches.notified || Reached(branches.timer, clock)))
    {
      hide Kept, Explains, Agrees, StepOk, Advance, PublicationOk, CallSite, Apply, Accepts, ClientSent, CountsZero, Facts;
      match arm {
        case ShutdownArm => r := Some(MonitorShutdown);
        case WakeArm(None) => r := Some(MonitorShutdown);
        case WakeArm(Some(request)) =>
          Ignore(request);
          r := Some(Continue);
        case CutArm => r := Some(MonitorCut);
        case ChildArm =>
          var status := WaitedForChild();
          r := Some(ChildWait(status));
        case StabilityArm =>
          var status := CompleteStabilityWindow(m);
          r := Some(if status == Alive then Continue else ChildWait(status));
        case _ => r := None;
      }
    }

    /** Queues for the write side of the gate for as long as the expired anchor stays what it was. */
    method AcquireIdleExclusive(m: RunningMonitor, expected: Instant) returns (r: ExclusiveOutcome)
      requires Valid() && !ledger.seen && childOwned && Watches(m) && ledger.watch == Due(expected)
      requires clock >= expected + config.idleTimeout
      modifies this, tracker, m
      ensures Valid() && WentOn(old(run), old(fuel)) && Watches(m)
      ensures ledger.watch == if r == Acquired then Exclusive(expected)
                              else if r == ActivityChanged then Polling else Due(expected)
      ensures r.ExclusiveShutdown? <==> ledger.seen
      ensures r.ExclusiveChild? ==> r.status != Alive
      ensures r == ExclusiveChild(Exited) <==> !childOwned
      ensures r == ExclusiveChild(WaitFailed) ==> ledger.world.troubled
      ensures r.ExclusiveCut? ==> fuel == 0
    {
      hide Fits, MaySuspend, Facts, Kept, Explains, StepOk, Advance, PublicationOk, CallSite, Apply, Accepts, ClientSent, CountsZero;
      while fuel > 0
        invariant Valid() && WentOn(old(run), old(fuel)) && Watches(m)
        invariant !ledger.seen && childOwned && ledger.watch == Due(expected)
        invariant ledger.world.now >= expected + config.idleTimeout
      {
        var turn := QueueTurn(m, expected);
        if turn.Some? {
          return turn.value;
        }
      }
      r := ExclusiveCut;
    }

    /** One turn in the queue; `None` means that the anchor is still the expected one. */
    method QueueTurn(m: RunningMonitor, expected: Instant) returns (turn: Option<ExclusiveOutcome>)
      requires Valid() && !ledger.seen && childOwned && Watches(m) && ledger.watch == Due(expected)
      requires ledger.world.now >= expected + config.idleTimeout
      modifies this, tracker, m
      ensures Valid() && WentOn(old(run), old(fuel)) && Watches(m)
      ensures old(ledger).world.now <= ledger.world.now
      ensures turn.None? ==> fuel < old(fuel)
      ensures ledger.watch == if turn == Some(Acquired) then Exclusive(expected)
                              else if turn == Some(ActivityChanged) then Polling else Due(expected)
      ensures turn == Some(ExclusiveShutdown) <==> ledger.seen
      ensures turn.Some? && turn.value.ExclusiveChild? ==> turn.value.status != Alive
      ensures turn == Some(ExclusiveChild(Exited)) <==> !childOwned
      ensures turn == Some(ExclusiveChild(WaitFailed)) ==> ledger.world.troubled
      ensures turn == Some(ExclusiveCut) ==> fuel == 0
    {
      hide Fits, MaySuspend, Facts, Kept, Explains, Agrees, StepOk, Advance, PublicationOk, CallSite, Apply, Accepts, ClientSent,
           CountsZero, AnchorNow;
      var activity;
      turn, activity := EnterQueue(m, expected);
      if turn.Some? {
        return;
      }
      Known();
      var stableAt := if m.stabilityPending then Some(m.stableAt) else None;
      QueueFits(ledger);
      var waited, arm := AwaitWhileMonitoring(
        m, ONLY_WAKES.(child := true, notified := true, future := true, stableAt := stableAt), activity);
      match waited {
        case Some(MonitorShutdown) => turn := Some(ExclusiveShutdown);
        case Some(ChildWait(status)) => turn := Some(ExclusiveChild(status));
        case Some(Continue) => turn := None;
        case Some(_) => turn := Some(ExclusiveCut);
        case None => turn := LeaveQueue(m, expected, arm);
      }
    }

    /** The checks before each wait in the queue. */
    method EnterQueue(m: RunningMonitor, expected: Instant)
      returns (turn: Option<ExclusiveOutcome>, activity: Option<Activity>)
      requires Valid() && !ledger.seen && childOwned && Watches(m) && ledger.watch == Due(expected)
      requires ledger.world.now >= expected + config.idleTimeout
      modifies `clock, `wakeSlot, `wakesClosed, `shutdownSent, `run, `ledger, tracker
      ensures Valid() && old(run) <= run && Watches(m) && old(ledger).world.now <= ledger.world.now
      ensures turn in {None, Some(ExclusiveShutdown), Some(ActivityChanged)}
      ensures turn == Some(ExclusiveShutdown) <==> ledger.seen
      ensures ledger.watch == if turn == Some(ActivityChanged) then Polling else Due(expected)
      ensures turn.None? ==> activity == ledger.lastRead
    {
      hide Kept, Explains, StepOk, Advance, AnchorNow;
      activity := None;
      var closed := IsClosed();
      if closed {
        turn := Some(ExclusiveShutdown);
        return;
      }
      var anchor;
      activity, anchor := ReadAnchor(m, ledger.watch);
      turn := if anchor != Some(expected) then Some(ActivityChanged) else None;
    }

    /** Either the gate has been granted, or the tracker has notified. */
    method LeaveQueue(m: RunningMonitor, expected: Instant, arm: Arm) returns (turn: Option<ExclusiveOutcome>)
      requires (arm.FutureArm? && Owing(FutureBranch)) || (arm.TimerArm? && Valid())
      requires !ledger.seen && childOwned && Watches(m) && ledger.watch == Due(expected) && !ledger.gate.Probing?
      requires ledger.world.now >= expected + config.idleTimeout
      modifies `clock, `wakeSlot, `wakesClosed, `shutdownSent, `run, `ledger, tracker
      ensures Valid() && old(run) <= run && Watches(m) && !ledger.seen && old(ledger).world.now <= ledger.world.now
      ensures turn in {None, Some(ActivityChanged), Some(Acquired)}
      ensures ledger.watch == if turn == Some(Acquired) then Exclusive(expected)
                              else if turn.None? then Due(expected) else Polling
    {
      hide Kept, Explains, StepOk, Advance, AnchorNow;
      if arm.FutureArm? {
        AcquireExclusive(expected);
        return Some(Acquired);
      }
      turn := RereadAnchor(m, expected);
    }

    /** After a notification the anchor is read again. */
    method RereadAnchor(m: RunningMonitor, expected: Instant) returns (turn: Option<ExclusiveOutcome>)
      requires Valid() && !ledger.seen && Watches(m) && ledger.watch == Due(expected)
      requires clock >= expected + config.idleTimeout
      modifies `clock, `wakeSlot, `wakesClosed, `shutdownSent, `run, `ledger, tracker
      ensures Valid() && old(run) <= run && Watches(m) && !ledger.seen && old(clock) <= clock
      ensures turn in {None, Some(ActivityChanged)}
      ensures ledger.watch == if turn.None? then Due(expected) else Polling
    {
      hide Kept, Explains, StepOk, Advance, AnchorNow;
      var _, changed := ReadAnchor(m, ledger.watch);
      turn := if changed != Some(expected) then Some(ActivityChanged) else None;
    }

    /** The player check made under the guard. */
    method FinalRconPlayerCheck(m: RunningMonitor) returns (r: PlayerCheck, keepsClient: bool)
      requires Valid() && !ledger.seen && childOwned && Watches(m) && config.rcon && ledger.watch.Rechecked?
      modifies this, tracker, m
      ensures Valid() && WentOn(old(run), old(fuel))
      ensures m.inspection == old(m.inspection) && lifecycle.OwnedRunningCycle() == Some(m.cycle)
      ensures r != CheckShutdown ==> !ledger.seen
      ensures r == CheckShutdown ==> ledger.seen
      ensures r == CheckChild(Exited) <==> !childOwned
      ensures r == CheckChild(WaitFailed) ==> ledger.world.troubled
      ensures r.CheckChild? ==> r.status != Alive
      ensures r in {Zero, Veto} ==>
        && |run| > |old(run)| && run[|run| - 1].FinalCheck?
        && (r == Zero <==> CountsZero(run[|run| - 1].reply)) && (keepsClient <==> run[|run| - 1].reply.Some?)
      ensures r == Zero ==> Watches(m) && ledger.watch == Confirmed(old(ledger).watch.anchor)
      ensures r == Veto ==>
        && ledger.zeroAnchor == None && ledger.watch == Refused
        && ledger.nextPoll == clock + (if keepsClient then config.pollInterval else config.retryInterval)
        && ledger.config == config && (m.stabilityPending <==> lifecycle.streak > 0)
      ensures lifecycle.evidence == NoEvidence && HoldsExclusive(ledger.watch) && ledger.watch != Committed
      ensures ledger.wakes.demand.None? && m.stableAt == lifecycle.phaseStartedAt + STABILITY_WINDOW
      ensures r.CheckCut? ==> fuel == 0
    {
      hide Fits, MaySuspend, Facts, Kept, Explains, StepOk, Advance, PublicationOk, CallSite, Apply, Accepts, ClientSent, ParsePlayerCount, LetsHappen;
      keepsClient := false;
      while fuel > 0
        invariant Valid() && WentOn(old(run), old(fuel)) && Watches(m)
        invariant !ledger.seen && childOwned && ledger.watch == old(ledger).watch && m.inspection == old(m.inspection)
      {
        var closed := IsClosed();
        if closed {
          r := CheckShutdown;
          return;
        }
        Known();
        var stableAt := if m.stabilityPending then Some(m.stableAt) else None;
        FinalCheckFits(ledger);
        var waited, arm := AwaitWhileMonitoring(m, ONLY_WAKES.(child := true, future := true, stableAt := stableAt), None);
        match waited {
          case Some(MonitorShutdown) =>
            r := CheckShutdown;
            return;
          case Some(ChildWait(status)) =>
            r := CheckChild(status);
            return;
          case Some(Continue) =>
          case Some(_) =>
            r := CheckCut;
            return;
          case None =>
            var reply := AskPlayers(true);
            keepsClient := reply.Some?;
            r := if reply.Some? && ParsePlayerCount(reply.value) == Ok(0) then Zero else Veto;
            return;
        }
      }
      r := CheckCut;
    }

    method ConfirmIdlePlayerState(m: RunningMonitor) returns (r: PlayerCheck)
      requires Valid() && !ledger.seen && childOwned && Watches(m) && ledger.watch.Rechecked?
      modifies this, tracker, m
      ensures Valid() && WentOn(old(run), old(fuel))
      ensures r == CheckShutdown <==> ledger.seen
      ensures r == CheckChild(Exited) <==> !childOwned
      ensures r == CheckChild(WaitFailed) ==> ledger.world.troubled
      ensures r.CheckChild? ==> r.status != Alive
      ensures r == Zero ==> ledger.watch == Confirmed(old(ledger).watch.anchor)
      ensures r == Zero && config.rcon ==>
        |run| > |old(run)| && run[|run| - 1].FinalCheck? && CountsZero(run[|run| - 1].reply)
      ensures !config.rcon ==> r == Zero
      ensures old(m.inspection.ConfiguredPlayers? && !m.inspection.client) ==> r == Veto && ledger.zeroAnchor.None?
      ensures r == Veto ==> ledger.watch == Refused
      ensures r in {Zero, Veto} ==> Watches(m)
      ensures lifecycle.OwnedRunningCycle() == Some(m.cycle) && lifecycle.evidence == NoEvidence
      ensures HoldsExclusive(ledger.watch) && ledger.watch != Committed && ledger.wakes.demand.None?
      ensures r.CheckCut? ==> fuel == 0
    {
      hide Kept, Explains, StepOk, Advance, PublicationOk, CallSite, Apply, Accepts, ClientSent, CountsZero;
      if m.inspection.ProxyOnly? {
        ConfirmProxyOnly();
        return Zero;
      }
      var taken := TakeClient(m);
      if !taken {
        return Veto;
      }
      var keepsClient;
      r, keepsClient := FinalRconPlayerCheck(m);
      if r == Veto {
        ReturnClient(m, keepsClient);
      }
    }

    /** After a veto the client, if it survived, polls again later, and the stretch of zero players starts anew. */
    method ReturnClient(m: RunningMonitor, keepsClient: bool)
      requires Valid() && m.inspection.ConfiguredPlayers?
      modifies m
      ensures m.inspection == ConfiguredPlayers(
        keepsClient, clock + (if keepsClient then config.pollInterval else config.retryInterval), None)
      ensures m.stabilityPending == old(m.stabilityPending)
    {
      m.inspection := ConfiguredPlayers(keepsClient,
                                        clock + (if keepsClient then config.pollInterval else config.retryInterval),
                                        None);
    }

    /** The final check takes the client away; without one there is nothing to check with. */
    method TakeClient(m: RunningMonitor) returns (taken: bool)
      requires Valid() && !ledger.seen && Watches(m) && m.inspection.ConfiguredPlayers? && ledger.watch.Rechecked?
      modifies `run, `ledger, m
      ensures Valid() && old(run) <= run && Watches(m) && taken == old(m.inspection.client)
      ensures !ledger.seen && m.inspection.ConfiguredPlayers? && !m.inspection.client
      ensures taken ==> run == old(run) && ledger == old(ledger)
      ensures !taken ==> ledger.watch == Refused && ledger.zeroAnchor.None? && m.inspection.zeroAnchor.None?
    {
      hide Kept, Explains, StepOk, Advance, PublicationOk, CallSite, Apply, Accepts, ClientSent, CountsZero;
      taken := m.inspection.client;
      if taken {
        m.inspection := ConfiguredPlayers(false, m.inspection.nextPoll, m.inspection.zeroAnchor);
      } else {
        ForgetPlayers();
        m.inspection := ConfiguredPlayers(false, clock + config.retryInterval, None);
      }
    }

    /** Under the guard: everything is checked again, then the players, then shutdown and the child, and only
        then is `Stopping` published. Without that, the run shows the reason: the recheck failed, or the players were
        not confirmed absent. */
    method CommitUnderExclusive(m: RunningMonitor, anchor: Instant) returns (r: MonitorOutcome)
      requires Valid() && !ledger.seen && childOwned && Watches(m) && ledger.watch == Exclusive(anchor)
      modifies this, tracker, m
      ensures Valid() && WentOn(old(run), old(fuel)) && Refereed(m, r)
    {
      hide Kept, Explains, Agrees, StepOk, Advance, PublicationOk, CallSite, Apply, Accepts, ClientSent, CountsZero;
      var still := RecheckUnderExclusive(m, anchor);
      if !still {
        return Continue;
      }
      var pending, _ := ShutdownPending();
      if pending {
        return MonitorShutdown;
      }
      var status := TryWaitForChild();
      if status != Alive {
        return ChildWait(status);
      }
      r := CommitUnlessPlayed(m);
    }

    /** How an attempt to stop ends under the guard: it goes on monitoring only with a reason. */
    ghost predicate Refereed(m: RunningMonitor, r: MonitorOutcome)
      reads this, m
    {
      && (r == MonitorShutdown <==> ledger.seen)
      && (r == ChildWait(Exited) <==> !childOwned)
      && (r == ChildWait(WaitFailed) ==> ledger.world.troubled)
      && (r.ChildWait? ==> r.status != Alive)
      && HoldsExclusive(ledger.watch) && (r == Commit <==> ledger.watch == Committed) && ledger.wakes.demand.None?
      && lifecycle.evidence == NoEvidence
      && (r == Commit ==> lifecycle.phase == Stopping && lifecycle.failure.None? && lifecycle.streak == 0)
      && (r != Commit ==> lifecycle.OwnedRunningCycle() == Some(m.cycle))
      && (r == Continue ==> Watches(m) && ledger.watch == Refused)
      && (r.MonitorCut? ==> fuel == 0)
    }

    /** Reads the tracker again, now that no client can hold a lease: the stop may go on only if the idle period is
        still the one that expired. */
    method RecheckUnderExclusive(m: RunningMonitor, anchor: Instant) returns (still: bool)
      requires Valid() && !ledger.seen && childOwned && Watches(m) && ledger.watch == Exclusive(anchor)
      modifies `clock, `wakeSlot, `wakesClosed, `shutdownSent, `run, `ledger, tracker
      ensures Valid() && old(run) <= run && Watches(m)
      ensures Quietly(old(ledger).(watch := if still then Rechecked(anchor) else Refused), ledger)
      ensures still <==>
        && tracker.state.Some? && tracker.state.value.cycle == m.cycle && tracker.state.value.active == 0
        && m.EffectiveIdleAnchor(tracker.state) == Some(anchor) && clock >= anchor + config.idleTimeout
    {
      hide Kept, Explains, StepOk, Advance, PublicationOk, CallSite, Apply, Accepts, ClientSent, CountsZero;
      var activity := ActivitySnapshot();
      var stillIdleSince := m.EffectiveIdleAnchor(activity);
      AnchorsAgree(m, activity);
      if activity.None? || activity.value.cycle != m.cycle || activity.value.active != 0
         || stillIdleSince != Some(anchor) || clock < anchor + config.idleTimeout
         || lifecycle.OwnedRunningCycle() != Some(m.cycle)
      {
        NoteIdleOver();
        return false;
      }
      RecheckIdle(activity.value);
      still := true;
    }

    /** Nobody plays, by the check made under the guard: the stop may be committed. */
    method CommitUnlessPlayed(m: RunningMonitor) returns (r: MonitorOutcome)
      requires Valid() && !ledger.seen && childOwned && Watches(m) && ledger.watch.Rechecked?
      modifies this, tracker, m
      ensures Valid() && WentOn(old(run), old(fuel)) && Refereed(m, r)
      ensures !config.rcon ==> r != Continue
    {
      hide Kept, Explains, Agrees, StepOk, Advance, PublicationOk, CallSite, Apply, Accepts, ClientSent, CountsZero;
      var players := ConfirmIdlePlayerState(m);
      match players {
        case Zero => r := CommitConfirmed(m);
        case Veto => r := Continue;
        case CheckShutdown => r := MonitorShutdown;
        case CheckChild(waited) => r := ChildWait(waited);
        case CheckCut => r := MonitorCut;
      }
    }

    /** With shutdown not pending and the child alive, a confirmed stop is committed. */
    method CommitConfirmed(m: RunningMonitor) returns (r: MonitorOutcome)
      requires Valid() && !ledger.seen && childOwned && Watches(m) && ledger.watch.Confirmed?
      modifies this, tracker, m
      ensures Valid() && WentOn(old(run), old(fuel)) && Refereed(m, r)
      ensures r != MonitorCut && r != Continue
    {
      hide Kept, Explains, Agrees, StepOk, Advance, PublicationOk, CallSite, Apply, Accepts, ClientSent, CountsZero;
      if lifecycle.OwnedRunningCycle() != Some(m.cycle) {
        return Continue;
      }
      var pending, _ := ShutdownPending();
      if pending {
        return MonitorShutdown;
      }
      var status := TryWaitForChild();
      if status != Alive {
        return ChildWait(status);
      }
      CommitIdleStop(m.cycle);
      r := Commit;
    }

    method CommitIdleStop(cycle: u64)
      requires Valid() && !ledger.seen && childOwned && lifecycle.OwnedRunningCycle() == Some(cycle)
      requires ledger.watch.Ready?
      modifies `lifecycle, `sampled, `run, `ledger
      ensures Valid() && old(run) <= run && !ledger.seen && ledger.watch == Committed
      ensures lifecycle.phase == Stopping && lifecycle.failure.None? && lifecycle.streak == 0
      ensures lifecycle.evidence == NoEvidence && ledger.wakes == old(ledger).wakes
    {
      hide Kept, Explains, StepOk, Advance;
      BeginIdleStop(cycle);
      Log(Publication.BeginIdleStop, clock);
    }

    method AttemptExpiredIdleStop(m: RunningMonitor, anchor: Instant) returns (r: MonitorOutcome)
      requires Valid() && !ledger.seen && childOwned && Watches(m) && ledger.watch == Due(anchor)
      requires clock >= anchor + config.idleTimeout
      modifies this, tracker, m
      ensures Valid() && WentOn(old(run), old(fuel)) && MonitorEnded(m, r)
    {
      hide Kept, Explains, Agrees, StepOk, Advance, PublicationOk, CallSite, Apply, Accepts, ClientSent, CountsZero;
      var acquired := AcquireIdleExclusive(m, anchor);
      match acquired {
        case Acquired =>
          r := CommitUnderExclusive(m, anchor);
          if r != MonitorCut {
            ReleaseExclusive();
          }
        case ActivityChanged => r := Continue;
        case ExclusiveShutdown => r := MonitorShutdown;
        case ExclusiveChild(status) => r := ChildWait(status);
        case ExclusiveCut => r := MonitorCut;
      }
    }

    /** What the monitor loop may rely on after each turn. */
    ghost predicate MonitorEnded(m: RunningMonitor, r: MonitorOutcome)
      reads this, m
    {
      && (r == Continue ==> Watches(m) && !ledger.seen && childOwned && ledger.watch == Polling)
      && (r == Commit ==>
            && !ledger.seen && childOwned && lifecycle.phase == Stopping && ledger.watch == Absent
            && lifecycle.failure.None? && lifecycle.streak == 0 && ledger.wakes.demand.None?)
      && (r == MonitorShutdown ==>
            ledger.seen && childOwned && lifecycle.phase == Running && lifecycle.evidence == NoEvidence
            && (ledger.watch == Polling || ledger.watch.Due?))
      && (r.ChildWait? ==>
            && r.status != Alive && !ledger.seen && (r.status == Exited <==> !childOwned)
            && (r.status == WaitFailed ==> ledger.world.troubled)
            && lifecycle.phase == Running && lifecycle.evidence == NoEvidence
            && (ledger.watch == Polling || ledger.watch.Due?)
            && ledger.wakes.demand.None?)
      && (r == MonitorCut ==> fuel == 0)
    }

    /** One turn: the tracker is read, an expired idle period is acted on at once, and otherwise the monitor waits for
        whatever comes first. */
    method AdvanceRunningMonitor(m: RunningMonitor) returns (r: MonitorOutcome)
      requires Valid() && !ledger.seen && childOwned && Watches(m) && ledger.watch == Polling
      modifies this, tracker, m
      ensures Valid() && WentOn(old(run), old(fuel)) && MonitorEnded(m, r)
      ensures exists k :: |old(run)| <= k < |run| && run[k].AnchorRead?
      ensures r == Continue ==> old(fuel) + |old(run)| < fuel + |run|
    {
      hide Kept, Explains, StepOk, Advance, PublicationOk, CallSite, Apply, Accepts, ClientSent, CountsZero;
      var activity, anchor := ReadAnchor(m, Polling);
      if anchor.Some? && clock >= anchor.value + config.idleTimeout {
        r := AttemptExpiredIdleStop(m, anchor.value);
        return;
      }
      r := AwaitTurn(m, activity, anchor);
    }

    method AwaitTurn(m: RunningMonitor, activity: Option<Activity>, anchor: Option<Instant>) returns (r: MonitorOutcome)
      requires Valid() && !ledger.seen && childOwned && Watches(m) && ledger.watch == Polling
      requires activity == ledger.lastRead == ledger.world.activity && anchor == AnchorNow(ledger)
      requires !IdleStopDue(ledger)
      modifies this, tracker, m
      ensures Valid() && WentOn(old(run), old(fuel)) && MonitorEnded(m, r)
    {
      hide Fits, MaySuspend, Facts, Kept, Explains, Agrees, StepOk, Advance, PublicationOk, CallSite, Apply, Accepts, ClientSent, CountsZero;
      Known();
      var stableAt := if m.stabilityPending then Some(m.stableAt) else None;
      var pollAt := if m.inspection.ConfiguredPlayers? then Some(m.inspection.nextPoll) else None;
      var timer := if anchor.None? then None else Some(anchor.value + config.idleTimeout);
      MonitoringFits(ledger);
      var waited, arm := AwaitWhileMonitoring(
        m, ONLY_WAKES.(child := true, notified := true, stableAt := stableAt, pollAt := pollAt, timer := timer), activity);
      if waited.Some? {
        return waited.value;
      }
      if arm.PollArm? {
        PollPlayerPresence(m);
      }
      r := Continue;
    }

    /** One poll: errors, timeouts and unparseable replies all end the stretch of zero players, and so does being
        without a client, in which case the poll only tries to reconnect. */
    method PollPlayerPresence(m: RunningMonitor)
      requires Owing(PollBranch) && !ledger.seen && childOwned && Watches(m) && ledger.watch == Polling && config.rcon
      modifies this, tracker, m
      ensures Valid() && old(run) <= run && fuel == old(fuel)
      ensures Watches(m) && !ledger.seen && childOwned && ledger.watch == Polling
      ensures |run| > |old(run)|
      ensures old(m.inspection.client) ==>
        && run[|run| - 1].PlayersPolled?
        && var reply := run[|run| - 1].reply;
           m.inspection == ConfiguredPlayers(
             reply.Some?,
             clock + (if reply.Some? then config.pollInterval else config.retryInterval),
             if !CountsZero(reply) then None
             else if old(m.inspection.zeroAnchor).None? then Some(clock)
             else old(m.inspection.zeroAnchor))
      ensures !old(m.inspection.client) ==>
        && run[|run| - 1].ConnectionTried?
        && var connected := run[|run| - 1].connected;
           m.inspection == ConfiguredPlayers(connected, if connected then clock else clock + config.retryInterval, None)
    {
      hide Kept, Explains, StepOk, Advance, PublicationOk, CallSite, Apply, Accepts, ClientSent, ParsePlayerCount;
      if !m.inspection.client {
        ForgetPlayers();
        m.inspection := ConfiguredPlayers(false, m.inspection.nextPoll, None);
        Elapse();
        var connected := TryConnect();
        m.inspection := ConfiguredPlayers(connected, if connected then clock else clock + config.retryInterval, None);
        return;
      }
      Elapse();
      var reply := AskPlayers(false);
      if reply.None? {
        m.inspection := ConfiguredPlayers(false, clock + config.retryInterval, None);
        return;
      }
      var zeroAnchor := if ParsePlayerCount(reply.value) != Ok(0) then None
                        else if m.inspection.zeroAnchor.None? then Some(clock)
                        else m.inspection.zeroAnchor;
      m.inspection := ConfiguredPlayers(true, clock + config.pollInterval, zeroAnchor);
    }

    method MonitorRunningServer(cycle: u64) returns (outcome: CycleOutcome)
      requires Valid() && !ledger.seen && childOwned && lifecycle.OwnedRunningCycle() == Some(cycle)
      requires ledger.watch == Polling && ledger.zeroAnchor == None && ledger.wakes.demand.None?
      requires ledger.nextPoll == clock
      modifies this, tracker
      ensures Valid() && WentOn(old(run), old(fuel)) && CycleEnded(outcome)
    {
      hide Kept, Explains, Agrees, StepOk, Advance, PublicationOk, CallSite, Apply, Accepts, ClientSent, CountsZero, LetsHappen;
      Known();
      var m := new RunningMonitor(config, lifecycle, cycle, clock);
      while fuel > 0
        invariant Valid() && WentOn(old(run), old(fuel))
        invariant Watches(m) && !ledger.seen && childOwned && ledger.watch == Polling
      {
        var r := AdvanceRunningMonitor(m);
        if r != Continue {
          outcome := LeaveMonitor(m, r);
          return;
        }
        fuel := if fuel == 0 then 0 else fuel - 1;
      }
      outcome := CycleCut;
    }

    method LeaveMonitor(m: RunningMonitor, r: MonitorOutcome) returns (outcome: CycleOutcome)
      requires Valid() && MonitorEnded(m, r) && r != Continue
      modifies this, tracker
      ensures Valid() && WentOn(old(run), old(fuel)) && CycleEnded(outcome)
    {
      hide Kept, Explains, Agrees, StepOk, Advance, PublicationOk, CallSite, Apply, Accepts, ClientSent, CountsZero, LetsHappen;
      match r {
        case Commit => outcome := StopCommittedIdleServer();
        case MonitorShutdown => outcome := StopForShutdown();
        case ChildWait(status) =>
          if status == Exited {
            outcome := ReapedFailure(ExitedUnexpectedly);
          } else {
            outcome := ReapAfterWaitError();
          }
        case _ => outcome := CycleCut;
      }
    }

    method RunServerCycle() returns (outcome: CycleOutcome)
      requires Valid() && !ledger.seen && childOwned && lifecycle.phase == Starting && lifecycle.evidence == NoEvidence
      requires ledger.watch == Absent && ledger.wakes.demand.None?
      requires clock == lifecycle.phaseStartedAt
      modifies this, tracker
      ensures Valid() && WentOn(old(run), old(fuel)) && CycleEnded(outcome)
    {
      hide Kept, Explains, StepOk, Advance, PublicationOk, CallSite, Accepts, ClientSent, CountsZero;
      var readiness := WaitForReadiness();
      match readiness {
        case StartupTimeout =>
          outcome := StopFailedServer();
          return;
        case ExitedEarly =>
          outcome := ReapedFailure(ExitedBeforeReady);
          return;
        case ProcessWaitFailed =>
          outcome := ReapAfterWaitError();
          return;
        case ReadinessShutdown =>
          outcome := StopForShutdown();
          return;
        case ReadinessCut => return CycleCut;
        case BackendReady =>
      }
      var pending, _ := ShutdownPending();
      if pending {
        outcome := StopForShutdown();
        return;
      }
      var cycle := PublishRunning();
      outcome := MonitorRunningServer(cycle);
    }

    /** The deadline that the cooldown's log line and its wait rely on. */
    method LogCurrentFailureCooldown()
      requires Valid() && lifecycle.phase == Cooldown
    {
      hide Kept, Explains;
      Known();
      assert lifecycle.failure.Some?;
      assert lifecycle.retryAt.Some?;
    }

    // ---- The run

    /** The supervisor, from its first reconciliation. All it claims to have seen is what the script answered. It
        returns only because shutdown or the end of every
        client was observed, with no child left, or because a child could not be waited for or reaped. */
    method Run() returns (outcome: RunOutcome)
      requires Valid() && run == [] && lifecycle == InitialState(openedAt)
      requires ledger == Opening(config, openedAt) && !childOwned
      modifies this, tracker
      ensures Lawful(Opening(config, openedAt), run)
      ensures ledger == Replay(Opening(config, openedAt), run) && ledger.book.current == lifecycle
      ensures Explains(script, Opening(config, openedAt), run)
      ensures outcome == RunFinished ==> ledger.seen && !ledger.childLive
      ensures outcome == RunError ==> ledger.world.troubled && lifecycle.phase in {Stopping, Stopped}
      ensures outcome == RunCut ==> fuel == 0
      ensures |run| >= old(fuel) - fuel
    {
      hide StepOk, Advance, PublicationOk, CallSite, Accepts, ClientSent, CountsZero;
      var launchPending: bool;
      var startup := ReconcileStartup();
      match startup {
        case StartLaunch => launchPending := true;
        case StartIdle => launchPending := false;
        case StartShutdown => return RunFinished;
        case StartCut => return RunCut;
      }
      while fuel > 0
        invariant Valid() && WentOn(old(run), old(fuel)) && Resting(launchPending)
      {
        var turn;
        turn, launchPending := RunTurn(launchPending);
        if turn.Some? {
          return turn.value;
        }
      }
      outcome := RunCut;
    }

    /** Between two turns of the run there is no child and no shutdown, and a launch is pending exactly when a
        wake has been accepted and not yet answered. */
    ghost predicate Resting(launchPending: bool)
      reads this
    {
      && !ledger.seen && !childOwned && ledger.watch == Absent
      && (launchPending <==> ledger.wakes.demand.Some?)
      && lifecycle.phase in {Stopped, Cooldown, External, Conflict}
      && (lifecycle.phase == Cooldown ==>
            launchPending && lifecycle.retryAt.Some? && clock >= lifecycle.retryAt.value)
      && (lifecycle.phase == External ==> ledger.nextPoll == clock + config.pollInterval && ledger.gate == Quiet)
    }

    method RunTurn(pendingLaunch: bool) returns (turn: Option<RunOutcome>, launchPending: bool)
      requires Valid() && Resting(pendingLaunch)
      modifies this, tracker
      ensures Valid() && WentOn(old(run), old(fuel))
      ensures turn.None? ==> Resting(launchPending) && fuel < old(fuel)
      ensures turn == Some(RunFinished) ==> ledger.seen && !childOwned
      ensures turn == Some(RunCut) ==> fuel == 0
      ensures turn == Some(RunError) ==> ledger.world.troubled && lifecycle.phase in {Stopping, Stopped}
    {
      hide Kept, Explains, StepOk, Advance, PublicationOk, CallSite, Apply, Accepts, ClientSent, CountsZero;
      launchPending := pendingLaunch;
      var demanded := AwaitLaunchDemand(launchPending);
      if demanded.Some? {
        turn := demanded;
        return;
      }
      launchPending := false;
      var pending, _ := ShutdownPending();
      if pending {
        turn := Some(RunFinished);
        return;
      }
      var gate := ReconcileFinalGate();
      match gate {
        case GateLaunch => turn, launchPending := LaunchAndSupervise();
        case GateBlocked => turn := None;
        case GateShutdown => turn := Some(RunFinished);
        case GateCut => turn := Some(RunCut);
      }
    }

    /** Proxies an external backend until it fails, then waits for a wake unless one is pending. */
    method AwaitLaunchDemand(launchPending: bool) returns (turn: Option<RunOutcome>)
      requires Valid() && Resting(launchPending)
      modifies this, tracker
      ensures Valid() && WentOn(old(run), old(fuel))
      ensures turn.None? ==> Resting(true) && lifecycle.phase != External
      ensures turn == Some(RunFinished) ==> ledger.seen && !childOwned
      ensures turn == Some(RunFinished) && old(lifecycle.phase) == Stopped ==>
        run != [] && run[|run| - 1] == Published(SetStopped, clock)
      ensures turn == Some(RunCut) ==> fuel == 0
      ensures turn != Some(RunError)
    {
      hide Kept, Explains, Agrees, StepOk, Advance, PublicationOk, CallSite, Apply, Accepts, ClientSent, CountsZero;
      Known();
      if lifecycle.phase == External {
        var external := MonitorExternalServer();
        if external != ExternalConflict {
          return Some(if external.ExternalShutdown? then RunFinished else RunCut);
        }
      }
      if !launchPending {
        var demand := WaitForReconciliationDemand();
        if demand.NoMoreDemand? {
          if lifecycle.phase == Stopped {
            Stop();
          }
          return Some(RunFinished);
        }
        if demand.DemandCut? {
          return Some(RunCut);
        }
      }
      turn := None;
    }

    method LaunchAndSupervise() returns (turn: Option<RunOutcome>, launchPending: bool)
      requires Valid() && !ledger.seen && lifecycle.phase == Reconciling && lifecycle.evidence != Positive
      requires ledger.gate.Cleared? && ledger.gate.found == Clean && !childOwned && ledger.watch == Absent
      requires ledger.wakes.demand.Some? && ledger.wakes.demand.value < ledger.gate.started
      modifies this, tracker
      ensures Valid() && WentOn(old(run), old(fuel))
      ensures turn.None? ==> Resting(launchPending)
      ensures turn == Some(RunFinished) ==> ledger.seen && !childOwned && lifecycle.phase == Stopped
      ensures turn == Some(RunCut) ==> fuel == 0
      ensures turn == Some(RunError) ==> ledger.world.troubled && lifecycle.phase in {Stopping, Stopped}
    {
      hide Kept, Explains, StepOk, Advance;
      launchPending := false;
      var launched := Launch();
      if launched {
        ReportLaunch();
        turn, launchPending := SuperviseCycle();
      } else {
        var retryAt := ReportLaunchFailure();
        turn, launchPending := CoolDown(retryAt, false);
      }
    }

    method ReportLaunch()
      requires Valid() && !ledger.seen && lifecycle.phase == Reconciling && lifecycle.evidence != Positive
      requires childOwned && ledger.gate == Attempted(true) && ledger.watch == Absent
      modifies `lifecycle, `sampled, `run, `ledger
      ensures Valid() && old(run) <= run && !ledger.seen && ledger.watch == Absent && ledger.wakes.demand.None?
      ensures lifecycle.phase == Starting && lifecycle.evidence == NoEvidence && clock == lifecycle.phaseStartedAt
    {
      hide Kept, Explains, StepOk;
      RecordLaunchSuccess();
      Log(Publication.RecordLaunchSuccess, clock);
    }

    method ReportLaunchFailure() returns (retryAt: Instant)
      requires Valid() && !ledger.seen && lifecycle.phase == Reconciling && lifecycle.evidence != Positive
      requires ledger.gate == Attempted(false) && ledger.watch == Absent
      modifies `lifecycle, `sampled, `run, `ledger
      ensures Valid() && old(run) <= run && !ledger.seen && ledger.watch == Absent && ledger.wakes.demand.None?
      ensures lifecycle.phase == Cooldown && lifecycle.retryAt == Some(retryAt)
    {
      hide Kept, Explains, StepOk;
      retryAt := RecordLaunchFailure();
      Log(Publication.RecordLaunchFailure, clock);
    }

    method SuperviseCycle() returns (turn: Option<RunOutcome>, launchPending: bool)
      requires Valid() && !ledger.seen && childOwned && lifecycle.phase == Starting && lifecycle.evidence == NoEvidence
      requires ledger.watch == Absent && ledger.wakes.demand.None?
      requires clock == lifecycle.phaseStartedAt
      modifies this, tracker
      ensures Valid() && WentOn(old(run), old(fuel))
      ensures turn.None? ==> Resting(launchPending)
      ensures turn == Some(RunFinished) ==> ledger.seen && !childOwned && lifecycle.phase == Stopped
      ensures turn == Some(RunCut) ==> fuel == 0
      ensures turn == Some(RunError) ==> ledger.world.troubled && lifecycle.phase in {Stopping, Stopped}
    {
      hide Kept, Explains, Agrees, StepOk, Advance, PublicationOk, CallSite, Apply, Accepts, ClientSent, CountsZero;
      turn, launchPending := None, false;
      var outcome := RunServerCycle();
      match outcome {
        case CycleStopped =>
          Stop();
        case CycleRestart =>
          Stop();
          launchPending := true;
        case CycleFailed(retryAt, retryPending) =>
          turn, launchPending := CoolDown(retryAt, retryPending);
        case CycleShutdown =>
          Stop();
          turn := Some(RunFinished);
        case CycleError => turn := Some(RunError);
        case CycleCut => turn := Some(RunCut);
      }
    }

    method CoolDown(retryAt: Instant, retryPending: bool) returns (turn: Option<RunOutcome>, launchPending: bool)
      requires Valid() && !ledger.seen && lifecycle.phase == Cooldown && lifecycle.retryAt == Some(retryAt)
      requires (retryPending <==> ledger.wakes.demand.Some?) && !childOwned && ledger.watch == Absent
      modifies this, tracker
      ensures Valid() && WentOn(old(run), old(fuel))
      ensures turn.None? ==> Resting(launchPending)
      ensures turn == Some(RunFinished) ==> ledger.seen && !childOwned && lifecycle.phase == Stopped
      ensures turn == Some(RunCut) ==> fuel == 0
      ensures turn != Some(RunError)
    {
      hide Kept, Explains, Agrees, StepOk, Advance, PublicationOk, CallSite, Apply, Accepts, ClientSent, CountsZero;
      LogCurrentFailureCooldown();
      var cooldown := WaitForCooldown(retryAt, retryPending);
      launchPending := cooldown.CooldownLaunch?;
      turn := match cooldown
              case CooldownLaunch => None
              case CooldownStopped => None
              case CooldownShutdown => Some(RunFinished)
              case CooldownCut => Some(RunCut);
    }
  }
}
