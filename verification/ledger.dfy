/** What one run of the supervisor does, as a sequence of events, and the discipline every run keeps.
    `Ledger` is the bookkeeping that a prefix of a run determines; `Lawful` says that each event was
    allowed by the ledger before it. The supervisor class proves that its runs are lawful; the idle-stop
    protocol interleaves lawful runs with any number of clients. */
module Ledgers {
  import opened Wrappers
  import opened Lifecycle
  import opened BackendUse
  import opened Reconciliation
  import PlayerCount

  datatype Config = Config(
    rcon: bool,
    pollInterval: Duration,
    idleTimeout: Duration,
    startupTimeout: Duration,
    retryInterval: Duration)

  /** Progress of one reconciliation probe. Positions are positions in the run's event sequence. */
  datatype Gate =
    | Quiet
    | Probing(started: nat)
    | Probed(started: nat, done: nat, found: Classification)
    | Cleared(started: nat, done: nat, checked: nat, found: Classification)
    | Attempted(launched: bool)

  /** Where the supervisor is with its child. While the server starts, connection attempts and pauses alternate; while
      it runs, an expired idle period is due until it is stopped or a reason not to stop has been found. From
      `Exclusive` to `Committed` the supervisor holds the write side of the backend-use gate. */
  datatype Watch =
    | Absent
    | Trying
    | Pausing
    | Reachable
    | CycleOpened(since: Instant)
    | Polling
    | Due(anchor: Instant)
    | Exclusive(anchor: Instant)
    | Rechecked(anchor: Instant)
    | Confirmed(anchor: Instant)
    | Vetted(anchor: Instant)
    | Ready(anchor: Instant)
    | Refused
    | Committed

  predicate HoldsExclusive(w: Watch) {
    w.Exclusive? || w.Rechecked? || w.Confirmed? || w.Vetted? || w.Ready? || w.Refused? || w.Committed?
  }

  /** The branches of a `select!` besides shutdown and the wake channel, in their order. `Changed` and `Notified` are
      the activity tracker's notification: after a change since the last reading, or left over from an earlier one. */
  datatype Branch = ChildBranch | StabilityBranch | ChangedBranch | NotifiedBranch | PollBranch | FutureBranch | TimerBranch | ResetBranch

  /** What can go wrong with the child's handle: waiting fails, or terminating it, or it outlives its termination. */
  datatype ChildError = WaitErred | TerminationErred | StopOverdue

  datatype Event =
    // outside: time passes, shutdown may be requested and every wake sender go; a client fills the wake slot, or
    // a session is counted or ends
    | Elapsed(passed: Duration, shutdown: bool, closed: bool)
    | WakeSent(wake: WakeRequest)
    | SessionCounted(cycle: u64)
    | SessionEnded(cycle: u64)
    // observations
    | ShutdownSeen
    | ShutdownNotPending
    | Suspended                    // enters a `select!`
    | Waited                       // nothing is ready: the task sleeps until something is
    | Woken(branch: Branch)        // leaves it by a branch other than shutdown and the wake channel
    | WakeDequeued(wake: WakeRequest)
    | DemandAccepted(wake: WakeRequest)
    | WakeIgnored(wake: WakeRequest)
    | ProbeStarted
    | ProbeCompleted(result: ReconciliationResult)
    | ChildAlive
    | ChildReaped
    | ChildErred(error: ChildError)
    | AttemptBegun
    | AttemptTimedOut
    | ConnectionTried(connected: bool)
    | PlayersUnknown
    | PlayersPolled(reply: Option<string>)
    | FinalCheck(reply: Option<string>)
    | ProxyOnlyConfirmed
    // actions
    | LaunchAttempted(launched: bool)
    | CycleBegun
    | AnchorRead(read: Option<Instant>)
    | ExclusiveAcquired(anchor: Instant)
    | IdleRechecked(snapshot: Activity)
    | IdleOver
    | ExclusiveReleased
    | Published(publication: Publication, at: Instant)

  /** What happens without the supervisor. */
  predicate IsOutside(e: Event) {
    e.Elapsed? || e.WakeSent? || e.SessionCounted? || e.SessionEnded?
  }

  /** What the supervisor shares with the rest of the program. */
  datatype World = World(
    length: nat,                   // events so far
    now: Instant,
    shutdownSent: bool,
    wakesClosed: bool,
    troubled: bool,                // the child's handle has failed
    slot: Option<WakeRequest>,     // the wake channel
    activity: Option<Activity>)    // the activity tracker

  /** What has been published. */
  datatype Book = Book(
    current: LifecycleState,       // the last published value
    history: set<LifecycleState>,  // every value published so far
    bumps: nat,                    // decisions so far: publications that moved to the next generation
    failures: nat)                 // failures since the last stability reset or idle stop

  /** Which wakes have been accepted. */
  datatype Wakes = Wakes(
    accepted: nat,                 // wakes accepted so far
    demand: Option<nat>)           // position of the last wake accepted since the last decision

  datatype Ledger = Ledger(
    config: Config,
    world: World,
    book: Book,
    wakes: Wakes,
    inHand: Option<WakeRequest>,   // a wake taken from the slot and not yet answered
    woken: Option<Branch>,         // the branch that was taken and not yet handled
    seen: bool,                    // the supervisor has observed shutdown or closure
    childLive: bool,
    gate: Gate,
    watch: Watch,
    zeroAnchor: Option<Instant>,   // start of the current stretch of zero-player polls
    nextPoll: Instant,             // of the players, or of an external backend
    lastRead: Option<Activity>)    // what the tracker showed when the monitor last read it

  function Opening(config: Config, at: Instant): Ledger {
    Ledger(config, World(0, at, false, false, false, None, None), Book(InitialState(at), {InitialState(at)}, 0, 0),
           Wakes(0, None), None, None, false, false, Quiet, Absent, None, 0, None)
  }

  /** Clients send only what they sampled, and only in the phases that make them send. */
  predicate ClientSent(l: Ledger, w: WakeRequest) {
    w.observed in l.book.history && SendsWake(w.observed.phase)
  }

  /** The acceptance predicate of the place that listens for wakes in the current phase. */
  predicate Accepts(l: Ledger, w: WakeRequest) {
    match l.book.current.phase
    case Reconciling => w.LatchesStartup(l.book.current) && l.wakes.demand.None?
    case Stopped => w.CanStart(l.book.current)
    case Conflict => w.RequestsConflictReconciliation(l.book.current)
    case Stopping =>
      if l.book.current.failure.None? then w.RequestsRestart(l.book.current) else w.RequestsRetry(l.book.current)
    case Cooldown => w.RequestsRetry(l.book.current) && l.wakes.demand.None?
    case _ => false
  }

  /** The start of the current idle period by both measures, if there is one. */
  function EffectiveAnchor(l: Ledger, activity: Activity): Option<Instant> {
    var proxyAnchor := activity.ProxyIdleAnchor();
    if proxyAnchor.None? || !l.config.rcon then proxyAnchor
    else if l.zeroAnchor.None? then None
    else Some(if proxyAnchor.value >= l.zeroAnchor.value then proxyAnchor.value else l.zeroAnchor.value)
  }

  /** The same for whatever the monitor read: another cycle's tracker gives none. */
  function AnchorFrom(l: Ledger, read: Option<Activity>): Option<Instant> {
    if read.None? || read.value.cycle != l.book.current.generation then None else EffectiveAnchor(l, read.value)
  }

  function AnchorNow(l: Ledger): Option<Instant> {
    AnchorFrom(l, l.world.activity)
  }

  function StartupDeadline(l: Ledger): Instant {
    l.book.current.phaseStartedAt + l.config.startupTimeout
  }

  // ---- What is due

  predicate StabilityDue(l: Ledger) {
    && l.book.current.phase == Running && l.book.current.streak > 0
    && l.world.now >= l.book.current.phaseStartedAt + STABILITY_WINDOW
  }

  predicate PollDue(l: Ledger) {
    && l.world.now >= l.nextPoll
    && ((l.watch == Polling && l.config.rcon) || (l.book.current.phase == External && !l.gate.Probing?))
  }

  predicate IdleStopDue(l: Ledger) {
    l.watch == Polling && AnchorNow(l).Some? && l.world.now >= AnchorNow(l).value + l.config.idleTimeout
  }

  predicate CooldownOver(l: Ledger) {
    l.book.current.phase == Cooldown && l.book.current.retryAt.Some? && l.world.now >= l.book.current.retryAt.value
  }

  predicate StartupOver(l: Ledger) {
    l.book.current.phase == Starting && l.world.now >= StartupDeadline(l)
  }

  /** Once a restart has been accepted the wake channel is no longer listened to until the child is stopped. */
  predicate Listens(l: Ledger) {
    l.book.current.phase == Stopping ==> l.wakes.demand.None?
  }

  predicate NobodyCalls(l: Ledger) {
    Listens(l) ==> l.world.slot.None? && !l.world.wakesClosed
  }

  /** The branches that the `select!` of the current situation has, apart from its timers. */
  predicate Offered(l: Ledger, b: Branch) {
    match b
    case ChildBranch => l.childLive && l.book.current.phase in {Starting, Running}
    case ChangedBranch => l.watch == Polling || l.watch.Due?
    case NotifiedBranch => l.watch == Polling || l.watch.Due?
    case FutureBranch =>
      || l.gate.Probing? || l.watch == Trying || l.watch.Due? || l.watch.Rechecked?
      || (l.book.current.phase == Stopping && l.childLive)
    case _ => false
  }

  /** There is something to wait for, and the checks that the code makes before it waits have been passed. */
  predicate MaySuspend(l: Ledger) {
    !IdleStopDue(l) && !CooldownOver(l) && HasWait(l)
  }

  /** The situations in which the code has a `select!`. */
  predicate HasWait(l: Ledger) {
    match l.book.current.phase
    case Reconciling => l.gate.Probing?
    case Starting => l.watch == Trying || l.watch == Pausing
    case Running => l.watch == Polling || l.watch.Due? || l.watch.Rechecked?
    case Stopping => l.childLive
    case Stopped => l.wakes.demand.None?
    case Conflict => l.wakes.demand.None?
    case External => l.gate.Probing? || FoundReady(l.gate)
    case Cooldown => true
  }

  /** Nothing was probed since the last publication, or everything was found ready. */
  predicate FoundReady(g: Gate) {
    g.Quiet? || (g.Cleared? && g.found == FullyReady)
  }

  /** Nothing that the supervisor must react to has happened. */
  predicate NothingIsDue(l: Ledger) {
    && !l.world.shutdownSent && NobodyCalls(l)
    && !StabilityDue(l) && !PollDue(l) && !IdleStopDue(l) && !CooldownOver(l) && !StartupOver(l)
    && (Offered(l, ChangedBranch) ==> l.world.activity == l.lastRead)
  }

  /** The branch is the first that is ready, in the order of the `select!`: shutdown always comes first, and the wake
      channel next, except while a probe runs. */
  predicate MayWake(l: Ledger, b: Branch) {
    && !l.world.shutdownSent && (NobodyCalls(l) || (b == FutureBranch && l.gate.Probing?))
    && match b
       case ChildBranch => Offered(l, b)
       case StabilityBranch => StabilityDue(l)
       case ChangedBranch => Offered(l, b) && !StabilityDue(l) && l.world.activity != l.lastRead
       case NotifiedBranch => Offered(l, b) && !StabilityDue(l)
       case PollBranch => PollDue(l) && !StabilityDue(l)
       case FutureBranch => Offered(l, b) && !StabilityDue(l)
       case TimerBranch =>
         && !StabilityDue(l) && !PollDue(l)
         && (IdleStopDue(l) || CooldownOver(l) || l.watch == Pausing || (l.watch == Trying && StartupOver(l)))
       case ResetBranch => false
  }

  /** A stopped child's last wakes are taken without waiting. */
  predicate Drains(l: Ledger) {
    l.book.current.phase == Stopping && !l.childLive
  }

  /** What a branch that was taken is for. */
  predicate Handles(l: Ledger, b: Branch, e: Event) {
    match b
    case ChildBranch => e.ChildReaped? || e == ChildErred(WaitErred)
    case StabilityBranch => e.ChildAlive? || e.ChildReaped? || e == ChildErred(WaitErred)
    case ResetBranch => e.Published? && e.publication.ResetFailureStreak?
    case PollBranch => if l.book.current.phase == External then e.ProbeStarted? else e.PlayersPolled? || e.PlayersUnknown?
    case FutureBranch =>
      if l.gate.Probing? then e.ProbeCompleted?
      else if l.watch == Trying then e.ConnectionTried?
      else if l.watch.Due? then e.ExclusiveAcquired?
      else if l.watch.Rechecked? then e.FinalCheck?
      else e.ChildReaped? || e.ChildErred?
    case _ => true
  }

  /** After shutdown was observed only the owned child's cleanup remains. */
  predicate CleansUp(e: Event) {
    || IsOutside(e) || e.ChildReaped? || e.ChildErred? || e.ExclusiveReleased?
    || (e.Published? && (e.publication.SetStopping? || e.publication.SetStopped?))
  }

  predicate PublicationOk(l: Ledger, p: Publication, at: Instant) {
    && CallSite(l.book.current, p)
    && (if p.PublishRunning? then l.watch == CycleOpened(at) else at == l.world.now)
    && match p
       case RecordLaunchSuccess => l.gate == Attempted(true)
       case RecordLaunchFailure => l.gate == Attempted(false)
       case RecordReapedFailure(category) =>
         && !l.childLive
         && (if l.book.current.phase == Starting then category == ExitedBeforeReady && l.watch in {Absent, Trying, Pausing}
             else category == ExitedUnexpectedly && (l.watch == Polling || l.watch.Due?))
       case BeginFailureCleanup(category) =>
         l.childLive && category == StartupTimedOut && l.watch == Absent && StartupOver(l)
       case FinishFailureCleanup => !l.childLive && l.watch == Absent
       case ResetFailureStreak => l.childLive && l.world.now >= l.book.current.phaseStartedAt + STABILITY_WINDOW
       case PublishRunning => l.childLive
       case BeginIdleStop => l.childLive && l.watch.Ready?
       case SetStopping =>
         (l.seen || l.world.troubled) && (l.watch in {Absent, Trying, Pausing, Reachable, Polling} || l.watch.Due?)
       case SetStopped =>
         && (l.book.current.phase == Stopping ==> !l.childLive && l.watch == Absent)
         && (l.book.current.phase == Cooldown ==>
               l.seen || (l.wakes.demand.None? && l.book.current.retryAt.Some? && l.world.now >= l.book.current.retryAt.value))
         && (l.book.current.phase == Stopped ==> l.seen)
       case BeginReconciliation =>
         && l.wakes.demand.Some?
         && (l.book.current.phase == Cooldown ==> l.book.current.retryAt.Some? && l.world.now >= l.book.current.retryAt.value)
       case PublishStopped => l.gate.Cleared? && l.gate.found == Clean && l.book.history == {l.book.current}
       case PublishExternal(consume) => l.gate.Cleared? && l.gate.found == FullyReady && consume == l.wakes.demand.Some?
       case PublishConflict(found, consume) =>
         && l.gate.Cleared?
         && consume == l.wakes.demand.Some?
         && (if l.book.current.evidence == Positive then found == Positive && l.gate.found != FullyReady
             else (found == Positive && l.gate.found == FoundPositive)
                  || (found == Inconclusive && l.gate.found == FoundInconclusive))
  }

  predicate ObservationOk(l: Ledger, e: Event)
    requires !e.Published?
  {
    match e
    case Elapsed(_, _, _) => true
    case WakeSent(w) => l.world.slot.None? && !l.world.wakesClosed && ClientSent(l, w)
    case SessionCounted(_) => true
    case SessionEnded(_) => true
    case ShutdownSeen => l.world.shutdownSent || l.world.wakesClosed
    case ShutdownNotPending => !l.world.shutdownSent && !l.world.wakesClosed
    case Suspended => MaySuspend(l)
    case Waited => HasWait(l) && NothingIsDue(l)
    case Woken(b) => MayWake(l, b)
    case WakeDequeued(w) =>
      && l.world.slot == Some(w)
      && (Drains(l) || (!l.world.shutdownSent && Listens(l)))
    case DemandAccepted(w) => l.inHand == Some(w) && Accepts(l, w)
    case WakeIgnored(w) => l.inHand == Some(w) && !Accepts(l, w)
    case ProbeStarted =>
      l.book.current.phase == External || (l.book.current.phase == Reconciling && l.gate == Quiet)
    case ProbeCompleted(_) => l.gate.Probing? && l.woken == Some(FutureBranch)
    case ChildAlive => l.childLive
    case ChildReaped => l.childLive
    case ChildErred(_) => l.childLive
    case AttemptBegun => l.book.current.phase == Starting && l.watch == Absent && !StartupOver(l)
    case AttemptTimedOut => l.watch == Trying && StartupOver(l)
    case ConnectionTried(_) => (l.watch == Trying && l.woken == Some(FutureBranch)) || (l.config.rcon && l.watch == Polling)
    case PlayersUnknown => l.config.rcon && (l.watch == Polling || l.watch.Rechecked?)
    case PlayersPolled(_) => l.config.rcon && l.watch == Polling
    case FinalCheck(_) => l.config.rcon && l.watch.Rechecked? && l.woken == Some(FutureBranch)
    case ProxyOnlyConfirmed => !l.config.rcon && l.watch.Rechecked?
    case LaunchAttempted(_) =>
      && l.book.current.phase == Reconciling
      && l.book.current.evidence != Positive
      && l.gate.Cleared? && l.gate.found == Clean
      && l.wakes.demand.Some? && l.wakes.demand.value < l.gate.started
      && !l.childLive
    case CycleBegun => l.book.current.phase == Starting && l.childLive && l.watch == Reachable
    case AnchorRead(read) => (l.watch == Polling || l.watch.Due?) && read == AnchorNow(l)
    case ExclusiveAcquired(anchor) => l.watch == Due(anchor) && l.woken == Some(FutureBranch)
    case IdleRechecked(snapshot) =>
      && l.watch.Exclusive?
      && l.world.activity == Some(snapshot)
      && snapshot.cycle == l.book.current.generation
      && EffectiveAnchor(l, snapshot) == Some(l.watch.anchor)
      && l.world.now >= l.watch.anchor + l.config.idleTimeout
    case IdleOver =>
      && l.watch.Exclusive?
      && (AnchorNow(l) != Some(l.watch.anchor) || l.world.now < l.watch.anchor + l.config.idleTimeout)
    case ExclusiveReleased =>
      && HoldsExclusive(l.watch)
      && (l.watch.Refused? || l.watch.Committed? || l.seen || !l.childLive || l.world.troubled)
  }

  /** A wake that was taken from the slot is answered before anything else is done, and a branch that was taken is
      handled. */
  predicate AnswersFirst(l: Ledger, e: Event) {
    && (l.inHand.Some? ==> IsOutside(e) || e == DemandAccepted(l.inHand.value) || e == WakeIgnored(l.inHand.value))
    && (l.woken.Some? ==> IsOutside(e) || Handles(l, l.woken.value, e))
  }

  /** The events that the ledger of the run so far allows next. */
  predicate StepOk(l: Ledger, e: Event) {
    && AnswersFirst(l, e)
    && (l.seen ==> CleansUp(e))
    && (if e.Published? then PublicationOk(l, e.publication, e.at) else ObservationOk(l, e))
  }

  function NextGate(l: Ledger, e: Event): Gate {
    match e
    case ProbeStarted => Probing(l.world.length)
    case ProbeCompleted(result) =>
      if l.gate.Probing? then Probed(l.gate.started, l.world.length, result.Classify()) else Quiet
    case ShutdownNotPending =>
      if l.gate.Probed? then Cleared(l.gate.started, l.gate.done, l.world.length, l.gate.found) else l.gate
    case LaunchAttempted(launched) => Attempted(launched)
    case Published(_, _) => Quiet
    case _ => l.gate
  }

  function NextWatch(l: Ledger, e: Event): Watch {
    match e
    case AttemptBegun => Trying
    case AttemptTimedOut => Pausing
    case ConnectionTried(connected) => if l.watch == Trying then (if connected then Reachable else Pausing) else l.watch
    case WakeIgnored(_) => if l.watch in {Trying, Pausing} then Absent else l.watch
    case Woken(b) => if l.watch == Pausing && b == TimerBranch then Absent else l.watch
    case AnchorRead(read) =>
      if read.Some? && l.world.now >= read.value + l.config.idleTimeout && (l.watch.Due? ==> l.watch.anchor == read.value)
      then Due(read.value) else Polling
    case IdleOver => Refused
    case CycleBegun => CycleOpened(l.world.now)
    case PlayersUnknown => if l.watch.Rechecked? then Refused else l.watch
    case ExclusiveAcquired(anchor) => Exclusive(anchor)
    case IdleRechecked(_) => if l.watch.Exclusive? then Rechecked(l.watch.anchor) else l.watch
    case FinalCheck(reply) =>
      if !l.watch.Rechecked? then l.watch
      else if PlayerCount.CountsZero(reply) then Confirmed(l.watch.anchor)
      else Refused
    case ProxyOnlyConfirmed => if l.watch.Rechecked? then Confirmed(l.watch.anchor) else l.watch
    case ShutdownNotPending => if l.watch.Confirmed? then Vetted(l.watch.anchor) else l.watch
    case ChildAlive => if l.watch.Vetted? then Ready(l.watch.anchor) else l.watch
    case ExclusiveReleased => if l.watch == Committed then Absent else Polling
    case Published(p, _) =>
      (match p
       case PublishRunning => Polling
       case BeginIdleStop => Committed
       case RecordReapedFailure(_) => Absent
       case SetStopping => Absent
       case _ => l.watch)
    case _ => l.watch
  }

  function NextZeroAnchor(l: Ledger, e: Event): Option<Instant> {
    match e
    case PlayersUnknown => None
    case PlayersPolled(reply) =>
      if !PlayerCount.CountsZero(reply) then None else if l.zeroAnchor.None? then Some(l.world.now) else l.zeroAnchor
    case FinalCheck(reply) => if PlayerCount.CountsZero(reply) then l.zeroAnchor else None
    case Published(p, _) => if p.PublishRunning? then None else l.zeroAnchor
    case _ => l.zeroAnchor
  }

  function NextPoll(l: Ledger, e: Event): Instant {
    match e
    case Published(PublishRunning, _) => l.world.now
    case Published(PublishExternal(_), _) => l.world.now + l.config.pollInterval
    case ShutdownNotPending =>
      if l.book.current.phase == External && l.gate.Probed? then l.world.now + l.config.pollInterval else l.nextPoll
    case PlayersPolled(reply) =>
      l.world.now + (if reply.Some? then l.config.pollInterval else l.config.retryInterval)
    case PlayersUnknown => if l.watch.Rechecked? then l.world.now + l.config.retryInterval else l.nextPoll
    case ConnectionTried(connected) =>
      if l.watch != Polling then l.nextPoll else if connected then l.world.now else l.world.now + l.config.retryInterval
    case FinalCheck(reply) =>
      if PlayerCount.CountsZero(reply) then l.nextPoll
      else l.world.now + (if reply.Some? then l.config.pollInterval else l.config.retryInterval)
    case _ => l.nextPoll
  }

  /** A branch is handled by the next thing the supervisor does; a stability window whose child is alive is not over
      before the streak is reset. */
  function NextWoken(l: Ledger, e: Event): Option<Branch> {
    if e.Woken? then (if e.branch in {ChangedBranch, NotifiedBranch, TimerBranch} then None else Some(e.branch))
    else if e.ChildAlive? && l.woken == Some(StabilityBranch) then Some(ResetBranch)
    else if IsOutside(e) then l.woken
    else None
  }

  function NextWorld(l: Ledger, e: Event): World {
    var w := l.world.(length := l.world.length + 1);
    match e
    case Elapsed(passed, shutdown, closed) =>
      w.(now := w.now + passed, shutdownSent := w.shutdownSent || shutdown, wakesClosed := w.wakesClosed || closed)
    case ChildErred(_) => w.(troubled := true)
    case WakeSent(wake) => w.(slot := Some(wake))
    case WakeDequeued(_) => w.(slot := None)
    case SessionCounted(cycle) => w.(activity := Established(w.activity, cycle))
    case SessionEnded(cycle) => w.(activity := Dropped(w.activity, cycle, w.now))
    case CycleBegun => w.(activity := Begun(l.book.current.generation, w.now))
    case _ => w
  }

  function NextBook(b: Book, p: Publication, at: Instant): Book {
    var next := Apply(b.current, p, at);
    Book(next,
         b.history + {next},
         if p.Decides() then b.bumps + 1 else b.bumps,
         if p.CountsFailure() then b.failures + 1 else if p.ClearsFailures() then 0 else b.failures)
  }

  function NextWakes(l: Ledger, e: Event): Wakes {
    if e.DemandAccepted? then Wakes(l.wakes.accepted + 1, Some(l.world.length))
    else if e.Published? && e.publication.Decides() then l.wakes.(demand := None)
    else l.wakes
  }

  function Advance(l: Ledger, e: Event): Ledger {
    Ledger(
      l.config,
      NextWorld(l, e),
      if e.Published? then NextBook(l.book, e.publication, e.at) else l.book,
      NextWakes(l, e),
      if e.WakeDequeued? then Some(e.wake) else if e.DemandAccepted? || e.WakeIgnored? then None else l.inHand,
      NextWoken(l, e),
      l.seen || e.ShutdownSeen?,
      if e.LaunchAttempted? then e.launched else l.childLive && !e.ChildReaped?,
      NextGate(l, e),
      NextWatch(l, e),
      NextZeroAnchor(l, e),
      NextPoll(l, e),
      if e.AnchorRead? then l.world.activity else l.lastRead)
  }

  /** What happens outside changes only what is shared, and time can always pass. */
  lemma OutsideStep(l: Ledger, e: Event)
    requires IsOutside(e)
    ensures Advance(l, e) == l.(world := NextWorld(l, e))
    ensures !e.WakeSent? ==> StepOk(l, e)
  {
  }

  // ---- Runs

  function Replay(start: Ledger, run: seq<Event>): Ledger
    decreases |run|
  {
    if run == [] then start else Advance(Replay(start, run[..|run| - 1]), run[|run| - 1])
  }

  predicate Lawful(start: Ledger, run: seq<Event>)
    decreases |run|
  {
    run != [] ==>
      && Lawful(start, run[..|run| - 1])
      && StepOk(Replay(start, run[..|run| - 1]), run[|run| - 1])
  }

  lemma Extend(start: Ledger, run: seq<Event>, e: Event)
    ensures Replay(start, run + [e]) == Advance(Replay(start, run), e)
    ensures Lawful(start, run + [e]) <==> Lawful(start, run) && StepOk(Replay(start, run), e)
  {
    assert (run + [e])[..|run|] == run;
  }

  lemma {:induction false} PrefixLawful(start: Ledger, run: seq<Event>, n: nat)
    requires Lawful(start, run) && n <= |run|
    ensures Lawful(start, run[..n])
    ensures n < |run| ==> StepOk(Replay(start, run[..n]), run[n])
                          && Replay(start, run[..n + 1]) == Advance(Replay(start, run[..n]), run[n])
    decreases |run|
  {
    if n == |run| {
      assert run[..n] == run;
    } else if n + 1 == |run| {
      assert run[..n + 1] == run;
    } else {
      var shorter := run[..|run| - 1];
      PrefixLawful(start, shorter, n);
      assert shorter[..n] == run[..n] && shorter[..n + 1] == run[..n + 1];
    }
  }

  // ---- What every prefix of a lawful run satisfies

  function Saturated(n: nat): u32 {
    if n < 0x1_0000_0000 then n else U32_MAX
  }

  predicate FailureFacts(b: Book) {
    && b.current.streak == Saturated(b.failures)
    && (b.current.streak > 0 <==> b.current.failure.Some?)
    && (b.current.phase == Cooldown ==>
          b.current.streak > 0
          && b.current.retryAt == Some(b.current.phaseStartedAt + FailureBackoff(b.current.streak)))
    && (b.current.phase !in {Cooldown, Reconciling} ==> b.current.retryAt.None?)
  }

  predicate OrderFacts(b: Book) {
    && b.current in b.history
    && b.current.generation == b.bumps % TWO_64
    && (b.bumps < TWO_64 ==> forall s :: s in b.history ==> Before(s, b.current))
  }

  predicate EvidenceFacts(b: Book) {
    && (forall s :: s in b.history ==> s.InvariantHolds())
    && (b.current.evidence != Positive ==> forall s :: s in b.history ==> s.evidence != Positive)
  }

  /** Every cooldown but the current one has run out. */
  predicate DeadlineFacts(b: Book, now: Instant) {
    forall s :: s in b.history && s.phase == Cooldown ==>
      s == b.current || (s.retryAt.Some? && s.retryAt.value <= now)
  }

  predicate DemandFacts(l: Ledger) {
    && l.wakes.accepted >= l.book.bumps + (if l.wakes.demand.Some? then 1 else 0)
    && (l.wakes.demand.Some? ==> l.wakes.demand.value < l.world.length)
    && (l.gate.Attempted? ==>
          l.wakes.demand.Some? && l.book.current.phase == Reconciling && l.book.current.evidence != Positive)
    && (l.book.current.phase == External ==> l.wakes.demand.None?)
  }

  /** Only clients send wakes: the one in the slot, and the one in hand, observed a published value. */
  predicate WakeFacts(l: Ledger) {
    && (l.world.slot.Some? ==> ClientSent(l, l.world.slot.value))
    && (l.inHand.Some? ==> ClientSent(l, l.inHand.value))
  }

  /** What the first reconciliation, and a phase that ends one without a launch, have behind them. */
  predicate OriginFacts(l: Ledger) {
    && (l.book.current.phase == Reconciling && l.wakes.demand.None? ==> l.book.history == {l.book.current})
    && (l.book.bumps < TWO_64 && l.book.current.phase in {External, Conflict} ==>
          forall s :: s in l.book.history && s.generation == l.book.current.generation ==>
            s.phase in {Reconciling, External, Conflict})
  }

  predicate ChildFacts(l: Ledger) {
    && (l.childLive ==> l.book.current.phase in {Starting, Running, Stopping} || l.gate == Attempted(true))
    && (l.gate == Attempted(false) ==> !l.childLive)
    && (l.gate.Probing? || l.gate.Probed? || l.gate.Cleared? ==> l.book.current.phase in {Reconciling, External})
  }

  predicate Monitoring(w: Watch) {
    w.Polling? || w.Due? || w.Refused? || w.Exclusive? || w.Rechecked? || w.Confirmed? || w.Vetted? || w.Ready?
  }

  predicate WatchFacts(l: Ledger) {
    && (l.watch in {Trying, Pausing, Reachable} ==> l.book.current.phase == Starting)
    && (l.watch.CycleOpened? ==> l.book.current.phase == Starting && l.watch.since <= l.world.now)
    && (l.book.current.phase == Running <==> Monitoring(l.watch))
    && (l.watch.Committed? ==> l.book.current.phase == Stopping)
    && (l.zeroAnchor.Some? ==> l.zeroAnchor.value <= l.world.now)
    && l.book.current.phaseStartedAt <= l.world.now
  }

  predicate Facts(l: Ledger) {
    && FailureFacts(l.book) && OrderFacts(l.book) && EvidenceFacts(l.book)
    && (!l.seen ==> DeadlineFacts(l.book, l.world.now))
    && DemandFacts(l) && WakeFacts(l) && OriginFacts(l) && ChildFacts(l) && WatchFacts(l)
  }

  /** Publications change the streak exactly as they change the failure count. */
  lemma FailureFactsStep(l: Ledger, p: Publication, at: Instant)
    requires FailureFacts(l.book) && CallSite(l.book.current, p)
    ensures FailureFacts(NextBook(l.book, p, at))
  {
    match p
    case RecordLaunchFailure =>
    case RecordReapedFailure(_) =>
    case BeginFailureCleanup(_) =>
    case FinishFailureCleanup =>
    case _ =>
  }

  lemma OrderFactsStep(b: Book, p: Publication, at: Instant)
    requires OrderFacts(b) && EvidenceFacts(b) && CallSite(b.current, p)
    ensures OrderFacts(NextBook(b, p, at))
  {
    var next := NextBook(b, p, at);
    assert next.current.generation == next.bumps % TWO_64;
    if next.bumps < TWO_64 {
      PublishingKeepsOrder(b.current, b.current, p, at);
      forall s | s in b.history
        ensures Before(s, next.current)
      {
        PublishingKeepsOrder(s, b.current, p, at);
      }
    }
  }

  lemma EvidenceFactsStep(b: Book, p: Publication, at: Instant)
    requires EvidenceFacts(b) && b.current in b.history && CallSite(b.current, p)
    ensures EvidenceFacts(NextBook(b, p, at))
  {
    CallSitesMeetAssertions(b.current, p, at);
    assert b.current.evidence == Positive ==> Apply(b.current, p, at).evidence == Positive;
  }

  lemma DeadlineFactsStep(l: Ledger, p: Publication, at: Instant)
    requires DeadlineFacts(l.book, l.world.now) && PublicationOk(l, p, at) && !l.seen
    ensures DeadlineFacts(NextBook(l.book, p, at), l.world.now)
  {
    assert l.book.current.phase == Cooldown ==> p.SetStopped? || p.BeginReconciliation?;
  }

  lemma DemandFactsStep(l: Ledger, e: Event)
    requires DemandFacts(l) && StepOk(l, e)
    ensures DemandFacts(Advance(l, e))
  {
    if e.Published? {
      assert l.gate.Attempted? ==> e.publication.RecordLaunchSuccess? || e.publication.RecordLaunchFailure?;
    }
  }

  lemma WakeFactsStep(l: Ledger, e: Event)
    requires WakeFacts(l) && StepOk(l, e)
    ensures WakeFacts(Advance(l, e))
  {
    assert l.book.history <= Advance(l, e).book.history;
  }

  lemma OriginFactsPublished(l: Ledger, p: Publication, at: Instant)
    requires OriginFacts(l) && OrderFacts(l.book) && PublicationOk(l, p, at)
    ensures OriginFacts(Advance(l, Published(p, at)))
  {
    var next := NextBook(l.book, p, at);
    if next.bumps < TWO_64 && next.current.phase in {External, Conflict} {
      forall s | s in next.history && s.generation == next.current.generation
        ensures s.phase in {Reconciling, External, Conflict}
      {
        assert s == next.current || Before(s, l.book.current);
      }
    }
  }

  lemma OriginFactsStep(l: Ledger, e: Event)
    requires OriginFacts(l) && OrderFacts(l.book) && StepOk(l, e)
    ensures OriginFacts(Advance(l, e))
  {
    if e.Published? {
      OriginFactsPublished(l, e.publication, e.at);
    }
  }

  lemma ChildFactsStep(l: Ledger, e: Event)
    requires ChildFacts(l) && DemandFacts(l) && StepOk(l, e)
    ensures ChildFacts(Advance(l, e))
  {
    if e.Published? {
      assert l.gate.Attempted? ==> e.publication.RecordLaunchSuccess? || e.publication.RecordLaunchFailure?;
    }
  }

  lemma WatchFactsPublished(l: Ledger, p: Publication, at: Instant)
    requires WatchFacts(l) && PublicationOk(l, p, at)
    ensures WatchFacts(Advance(l, Published(p, at)))
  {
    match p
    case PublishRunning =>
    case BeginIdleStop =>
    case ResetFailureStreak =>
    case _ =>
  }

  lemma WatchFactsStep(l: Ledger, e: Event)
    requires WatchFacts(l) && StepOk(l, e)
    ensures WatchFacts(Advance(l, e))
  {
    if e.Published? {
      WatchFactsPublished(l, e.publication, e.at);
    }
  }

  lemma FactsStep(l: Ledger, e: Event)
    requires Facts(l) && StepOk(l, e)
    ensures Facts(Advance(l, e))
  {
    if e.Published? {
      FailureFactsStep(l, e.publication, e.at);
      OrderFactsStep(l.book, e.publication, e.at);
      EvidenceFactsStep(l.book, e.publication, e.at);
      if !l.seen {
        DeadlineFactsStep(l, e.publication, e.at);
      }
    }
    DemandFactsStep(l, e);
    WakeFactsStep(l, e);
    OriginFactsStep(l, e);
    ChildFactsStep(l, e);
    WatchFactsStep(l, e);
  }

  lemma {:induction false} LawfulRunsKeepFacts(start: Ledger, run: seq<Event>)
    requires Facts(start) && Lawful(start, run)
    ensures Facts(Replay(start, run))
    decreases |run|
  {
    if run != [] {
      LawfulRunsKeepFacts(start, run[..|run| - 1]);
      FactsStep(Replay(start, run[..|run| - 1]), run[|run| - 1]);
    }
  }

  /** `ledger` is the bookkeeping of a lawful run from the opening state. */
  ghost predicate Kept(config: Config, at: Instant, run: seq<Event>, ledger: Ledger) {
    var start := Opening(config, at);
    ledger == Replay(start, run) && Lawful(start, run)
  }

  lemma KeepAnother(config: Config, at: Instant, run: seq<Event>, ledger: Ledger, e: Event)
    requires Kept(config, at, run, ledger) && StepOk(ledger, e)
    ensures Kept(config, at, run + [e], Advance(ledger, e))
  {
    Extend(Opening(config, at), run, e);
  }

  lemma KeptFacts(config: Config, at: Instant, run: seq<Event>, ledger: Ledger)
    requires Kept(config, at, run, ledger)
    ensures Facts(ledger) && ledger.config == config
  {
    var start := Opening(config, at);
    LawfulRunsKeepFacts(start, run);
    SettingsNeverChange(start, run);
  }

  lemma {:induction false} SettingsNeverChange(start: Ledger, run: seq<Event>)
    ensures Replay(start, run).config == start.config
    ensures Replay(start, run).world.length == start.world.length + |run|
    decreases |run|
  {
    if run != [] {
      SettingsNeverChange(start, run[..|run| - 1]);
    }
  }
}
