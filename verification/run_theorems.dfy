/** What holds of every run of the supervisor, of any length. `SupervisorControl.Run` proves that its runs are
    lawful; each theorem here is about all lawful runs. */
module RunTheorems {
  import opened Wrappers
  import opened Lifecycle
  import opened Ledgers
  import opened Reconciliation
  import PlayerCount

  /** The ledger before event `n` of a run. */
  function At(start: Ledger, run: seq<Event>, n: nat): Ledger
    requires n <= |run|
  {
    Replay(start, run[..n])
  }

  predicate IsOpening(start: Ledger) {
    start == Opening(start.config, start.world.now)
  }

  /** Everything the induction over runs gives at one position. */
  lemma Position(start: Ledger, run: seq<Event>, n: nat)
    requires IsOpening(start) && Lawful(start, run) && n <= |run|
    ensures Lawful(start, run[..n]) && Facts(At(start, run, n))
    ensures n < |run| ==> StepOk(At(start, run, n), run[n])
                          && At(start, run, n + 1) == Advance(At(start, run, n), run[n])
                          && Facts(At(start, run, n + 1))
  {
    PrefixLawful(start, run, n);
    LawfulRunsKeepFacts(start, run[..n]);
    if n < |run| {
      PrefixLawful(start, run, n + 1);
      LawfulRunsKeepFacts(start, run[..n + 1]);
    }
  }

  // ---- Assertion freedom

  /** No publication of any run fails an assertion of its own function, or publishes an invalid value. */
  lemma PublicationsNeverFail(start: Ledger, run: seq<Event>, n: nat)
    requires IsOpening(start) && Lawful(start, run) && n < |run| && run[n].Published?
    ensures Asserted(At(start, run, n).book.current, run[n].publication)
    ensures At(start, run, n + 1).book.current.InvariantHolds()
  {
    Position(start, run, n);
    CallSitesMeetAssertions(At(start, run, n).book.current, run[n].publication, run[n].at);
  }

  // ---- Sticky positive evidence

  predicate StuckPositive(l: Ledger) {
    l.book.current.evidence == Positive && l.book.current.phase in {Reconciling, External, Conflict}
  }

  lemma PositiveEvidenceStays(l: Ledger, e: Event)
    requires Facts(l) && StepOk(l, e) && l.book.current.evidence == Positive
    ensures StuckPositive(l) && StuckPositive(Advance(l, e)) && !e.LaunchAttempted?
  {
  }

  lemma PositivePhases(l: Ledger)
    requires Facts(l) && l.book.current.evidence == Positive
    ensures StuckPositive(l)
  {
    assert l.book.current in l.book.history;
  }

  /** Once positive evidence has been published it is never dropped, and nothing is launched any more. */
  lemma {:induction false} PositiveEvidenceSticks(start: Ledger, run: seq<Event>, n: nat, later: nat)
    requires IsOpening(start) && Lawful(start, run) && n <= later <= |run|
    requires At(start, run, n).book.current.evidence == Positive
    ensures At(start, run, later).book.current.evidence == Positive
    ensures At(start, run, later).book.current.phase in {Reconciling, External, Conflict}
    ensures later < |run| ==> !run[later].LaunchAttempted?
    decreases later - n
  {
    hide StepOk, Facts, Advance;
    Position(start, run, later);
    if later > n {
      PositiveEvidenceSticks(start, run, n, later - 1);
      Position(start, run, later - 1);
      PositiveEvidenceStays(At(start, run, later - 1), run[later - 1]);
    }
    PositivePhases(At(start, run, later));
    if later < |run| {
      PositiveEvidenceStays(At(start, run, later), run[later]);
    }
  }

  // ---- Shutdown is absorbing

  /** After shutdown was observed the receiver is never polled or checked again, nothing is probed, accepted or
      launched, and only the owned child is cleaned up. */
  lemma {:induction false} ShutdownIsAbsorbing(start: Ledger, run: seq<Event>, n: nat, later: nat)
    requires IsOpening(start) && Lawful(start, run) && n < later < |run|
    requires run[n].ShutdownSeen?
    ensures At(start, run, later).seen && CleansUp(run[later])
    ensures !run[later].ShutdownSeen? && !run[later].ShutdownNotPending? && !run[later].LaunchAttempted?
    ensures !run[later].DemandAccepted? && !run[later].ProbeStarted?
    decreases later - n
  {
    hide StepOk, Facts, Advance;
    Position(start, run, later);
    Position(start, run, later - 1);
    if later > n + 1 {
      ShutdownIsAbsorbing(start, run, n, later - 1);
    }
    ShutdownStays(At(start, run, later - 1), run[later - 1]);
    OnlyCleanup(At(start, run, later), run[later]);
  }

  lemma ShutdownStays(l: Ledger, e: Event)
    requires l.seen || e.ShutdownSeen?
    ensures Advance(l, e).seen
  {
  }

  lemma OnlyCleanup(l: Ledger, e: Event)
    requires l.seen && StepOk(l, e)
    ensures CleansUp(e) && !e.ShutdownSeen? && !e.ShutdownNotPending? && !e.LaunchAttempted?
    ensures !e.DemandAccepted? && !e.ProbeStarted?
  {
  }

  // ---- Requested shutdown comes first

  lemma RequestStays(l: Ledger, e: Event)
    requires l.world.shutdownSent || (e.Elapsed? && e.shutdown)
    ensures Advance(l, e).world.shutdownSent
  {
  }

  lemma RequestComesFirst(l: Ledger, e: Event)
    requires l.world.shutdownSent && StepOk(l, e)
    ensures !e.Waited? && !e.Woken? && !e.ShutdownNotPending?
    ensures e.WakeDequeued? ==> l.book.current.phase == Stopping && !l.childLive
  {
  }

  /** From the request on, `select!` never sleeps and hands out nothing else: no branch, and no wake except those that
      are drained from a stopped child's channel. The final gate does not pass its check either. */
  lemma {:induction false} ShutdownComesFirst(start: Ledger, run: seq<Event>, n: nat, later: nat)
    requires IsOpening(start) && Lawful(start, run) && n < later < |run|
    requires run[n].Elapsed? && run[n].shutdown
    ensures At(start, run, later).world.shutdownSent
    ensures !run[later].Waited? && !run[later].Woken? && !run[later].ShutdownNotPending?
    ensures run[later].WakeDequeued? ==>
      At(start, run, later).book.current.phase == Stopping && !At(start, run, later).childLive
    decreases later - n
  {
    hide StepOk, Facts, Advance;
    Position(start, run, later);
    Position(start, run, later - 1);
    if later > n + 1 {
      ShutdownComesFirst(start, run, n, later - 1);
    }
    RequestStays(At(start, run, later - 1), run[later - 1]);
    RequestComesFirst(At(start, run, later), run[later]);
  }

  // ---- Nothing that is due is slept through

  /** While the supervisor sleeps, nothing it must react to has happened: no shutdown, no wake that it listens for, no
      expired idle period, no stable minute with a streak to forget, no missed startup deadline, no finished cooldown,
      and no poll of the players or of an external backend. */
  lemma SleepsOnlyWithNothingDue(start: Ledger, run: seq<Event>, n: nat)
    requires IsOpening(start) && Lawful(start, run) && n < |run| && run[n].Waited?
    ensures
      var l := At(start, run, n);
      var current, now := l.book.current, l.world.now;
      && !l.world.shutdownSent
      && (!(current.phase == Stopping && l.wakes.demand.Some?) ==> l.world.slot.None? && !l.world.wakesClosed)
      && (l.watch == Polling && AnchorNow(l).Some? ==> now < AnchorNow(l).value + l.config.idleTimeout)
      && (l.watch == Polling && l.config.rcon ==> now < l.nextPoll)
      && (current.phase == External && !l.gate.Probing? ==> now < l.nextPoll)
      && (current.phase == Running && current.streak > 0 ==> now < current.phaseStartedAt + 60 * SECOND)
      && (current.phase == Starting ==> now < current.phaseStartedAt + l.config.startupTimeout)
      && (current.phase == Cooldown && current.retryAt.Some? ==> now < current.retryAt.value)
      && (l.watch == Polling || l.watch.Due? ==> l.world.activity == l.lastRead)
  {
    Position(start, run, n);
  }

  lemma ExternalWaits(l: Ledger, e: Event)
    requires StepOk(l, e) && (e.Suspended? || e.Waited?) && l.book.current.phase == External
    ensures l.gate.Probing? || l.gate.Quiet? || (l.gate.Cleared? && l.gate.found == FullyReady)
  {
  }

  /** While a backend that runs by itself is proxied, the last probe of it, if there was one, found every endpoint
      ready: any other result has ended in `Conflict` before the supervisor waits again. */
  lemma ExternalBackendsAreReady(start: Ledger, run: seq<Event>, n: nat)
    requires IsOpening(start) && Lawful(start, run) && n < |run| && (run[n].Suspended? || run[n].Waited?)
    requires At(start, run, n).book.current.phase == External
    ensures
      var gate := At(start, run, n).gate;
      || gate.Quiet? || gate.Probing?
      || (gate.Cleared? && gate.done < n && run[gate.done].ProbeCompleted?
          && run[gate.done].result.Classify() == FullyReady && UndisturbedSince(run[..n], gate.started))
  {
    hide StepOk, Advance;
    Position(start, run, n);
    RunsRemember(start, run[..n]);
    ExternalWaits(At(start, run, n), run[n]);
  }

  /** A server that was launched has answered its demand, and one that runs by itself has none. */
  predicate DemandIsPlaced(l: Ledger) {
    l.book.current.phase in {Starting, Running, External} ==> l.wakes.demand.None?
  }

  lemma DemandIsPlacedStep(l: Ledger, e: Event)
    requires DemandIsPlaced(l) && StepOk(l, e)
    ensures DemandIsPlaced(Advance(l, e))
  {
  }

  lemma {:induction false} DemandsArePlaced(start: Ledger, run: seq<Event>)
    requires IsOpening(start) && Lawful(start, run)
    ensures DemandIsPlaced(Replay(start, run))
    decreases |run|
  {
    hide StepOk, Advance;
    if run != [] {
      DemandsArePlaced(start, run[..|run| - 1]);
      DemandIsPlacedStep(Replay(start, run[..|run| - 1]), run[|run| - 1]);
    }
  }

  lemma WaitsWithDemand(l: Ledger, e: Event)
    requires StepOk(l, e) && DemandIsPlaced(l) && l.wakes.demand.Some? && (e.Suspended? || e.Waited?)
    ensures || (l.book.current.phase == Reconciling && l.gate.Probing?)
            || (l.book.current.phase == Stopping && l.childLive)
            || (l.book.current.phase == Cooldown
                && (l.book.current.retryAt.Some? ==> l.world.now < l.book.current.retryAt.value))
  {
  }

  /** An accepted wake that has not been decided on is never slept on, but for the probe that its launch needs, the
      end of the child that it restarts, or the cooldown before its retry. */
  lemma DemandsAreNotSleptOn(start: Ledger, run: seq<Event>, n: nat)
    requires IsOpening(start) && Lawful(start, run) && n < |run| && (run[n].Suspended? || run[n].Waited?)
    requires At(start, run, n).wakes.demand.Some?
    ensures
      var l := At(start, run, n);
      || (l.book.current.phase == Reconciling && l.gate.Probing?)
      || (l.book.current.phase == Stopping && l.childLive)
      || (l.book.current.phase == Cooldown && l.book.current.retryAt.Some?
          && l.world.now < l.book.current.retryAt.value)
  {
    hide StepOk, Advance;
    Position(start, run, n);
    DemandsArePlaced(start, run[..n]);
    WaitsWithDemand(At(start, run, n), run[n]);
  }

  /** What a branch of a `select!` that was taken leads to, before anything else but what happens outside. */
  predicate LeadsTo(l: Ledger, b: Branch, e: Event) {
    match b
    case ChildBranch => e.ChildReaped? || e == ChildErred(WaitErred)
    case StabilityBranch => e.ChildAlive? || e.ChildReaped? || e == ChildErred(WaitErred)
    case ResetBranch => e.Published? && e.publication == ResetFailureStreak
    case PollBranch =>
      if l.book.current.phase == External then e.ProbeStarted? else e.PlayersPolled? || e.PlayersUnknown?
    case FutureBranch =>
      e.ProbeCompleted? || e.ConnectionTried? || e.ExclusiveAcquired? || e.FinalCheck? || e.ChildReaped? || e.ChildErred?
    case _ => true
  }

  lemma HandledNext(l: Ledger, e: Event, b: Branch)
    requires StepOk(l, e) && l.woken == Some(b)
    ensures IsOutside(e) || LeadsTo(l, b, e)
    ensures IsOutside(e) ==> Advance(l, e).woken == Some(b)
    ensures b == StabilityBranch && e.ChildAlive? ==> Advance(l, e).woken == Some(ResetBranch)
  {
  }

  lemma {:induction false} TakenBranchesAreHandled(start: Ledger, run: seq<Event>, n: nat, m: nat, b: Branch)
    requires IsOpening(start) && Lawful(start, run) && n < m < |run| && forall k :: n < k < m ==> IsOutside(run[k])
    requires || (run[n] == Woken(b) && b in {ChildBranch, StabilityBranch, PollBranch, FutureBranch})
             || (run[n].ChildAlive? && At(start, run, n).woken == Some(StabilityBranch) && b == ResetBranch)
    ensures At(start, run, m).woken == Some(b)
    ensures IsOutside(run[m]) || LeadsTo(At(start, run, m), b, run[m])
    decreases m - n
  {
    hide StepOk, Facts;
    Position(start, run, m);
    Position(start, run, m - 1);
    if m > n + 1 {
      hide Advance;
      TakenBranchesAreHandled(start, run, n, m - 1, b);
      HandledNext(At(start, run, m - 1), run[m - 1], b);
    }
    HandledNext(At(start, run, m), run[m], b);
  }

  // ---- An expired idle period is acted on

  /** The stop of a server that has been idle since `a` is under way. */
  predicate Pursues(l: Ledger, a: Instant) {
    && l.watch in {Due(a), Exclusive(a), Rechecked(a), Confirmed(a), Vetted(a), Ready(a)}
    && l.book.current.phase == Running && l.childLive && !l.seen && !l.world.troubled
  }

  /** The reasons for which it ends: it is committed; the tracker no longer gives that anchor, or is read under the
      guard and does not; players are there, or cannot be asked, where RCON is configured; shutdown; the child's end. */
  predicate Excuses(l: Ledger, e: Event, a: Instant) {
    || (e.Published? && e.publication.BeginIdleStop?)
    || (e.AnchorRead? && e.read == AnchorNow(l) != Some(a))
    || (e.IdleOver? && AnchorNow(l) != Some(a))
    || (l.config.rcon && e.FinalCheck? && !PlayerCount.CountsZero(e.reply))
    || (l.config.rcon && e.PlayersUnknown?)
    || e.ShutdownSeen? || e.ChildReaped? || e.ChildErred?
  }

  lemma PursuitGoesOn(l: Ledger, e: Event, a: Instant)
    requires StepOk(l, e) && Pursues(l, a) && a + l.config.idleTimeout <= l.world.now
    ensures Excuses(l, e, a) || Pursues(Advance(l, e), a)
    ensures l.world.now <= Advance(l, e).world.now && Advance(l, e).config == l.config
  {
    hide EffectiveAnchor, MaySuspend, NothingIsDue, MayWake, Accepts, ClientSent;
  }

  lemma PursuitBegins(l: Ledger, e: Event, a: Instant)
    requires StepOk(l, e) && Facts(l) && e == AnchorRead(Some(a)) && a + l.config.idleTimeout <= l.world.now
    requires l.childLive && !l.seen && !l.world.troubled && (l.watch.Due? ==> l.watch.anchor == a)
    ensures Pursues(Advance(l, e), a) && Advance(l, e).world.now == l.world.now && Advance(l, e).config == l.config
  {
  }

  /** Once an expired anchor has been read, either the stop is still under way, or one of those reasons stands in the
      run. While it is under way the supervisor waits only for the gate and for the answer to the final player check. */
  lemma {:induction false} ExpiredIdleIsPursued(start: Ledger, run: seq<Event>, n: nat, m: nat, a: Instant)
    requires IsOpening(start) && Lawful(start, run) && n < m <= |run|
    requires run[n] == AnchorRead(Some(a)) && At(start, run, n).world.now >= a + start.config.idleTimeout
    requires At(start, run, n).watch == Polling
    requires At(start, run, n).childLive && !At(start, run, n).seen && !At(start, run, n).world.troubled
    ensures || (exists k :: n < k < m && Excuses(At(start, run, k), run[k], a))
            || (Pursues(At(start, run, m), a) && At(start, run, m).world.now >= a + start.config.idleTimeout
                && At(start, run, m).config == start.config)
    decreases m - n
  {
    hide StepOk, Facts, Advance, Excuses, Pursues;
    Position(start, run, m);
    Position(start, run, m - 1);
    SettingsNeverChange(start, run[..m - 1]);
    if m > n + 1 {
      ExpiredIdleIsPursued(start, run, n, m - 1, a);
      if !exists k :: n < k < m - 1 && Excuses(At(start, run, k), run[k], a) {
        PursuitGoesOn(At(start, run, m - 1), run[m - 1], a);
      }
    } else {
      PursuitBegins(At(start, run, n), run[n], a);
    }
  }

  /** The `select!`s of a stop that is under way. */
  lemma PursuitWaits(l: Ledger, e: Event, a: Instant)
    requires StepOk(l, e) && Facts(l) && Pursues(l, a) && e.Suspended?
    ensures (l.watch == Due(a) || l.watch == Rechecked(a)) && Offered(l, FutureBranch)
  {
  }

  /** What the tracker shows lies in the past. */
  predicate TrackerDates(w: World) {
    w.activity.Some? ==>
      var t := w.activity.value;
      && t.runningSince <= w.now
      && (t.lastFinalDisconnect.Some? ==> t.runningSince <= t.lastFinalDisconnect.value <= w.now)
  }

  /** From the opening of its cycle on it is on that cycle. */
  predicate TrackerCycle(l: Ledger) {
    l.watch.CycleOpened? || l.book.current.phase == Running ==>
      l.world.activity.Some? && l.world.activity.value.cycle == l.book.current.generation
  }

  predicate TrackerFacts(l: Ledger) {
    TrackerDates(l.world) && TrackerCycle(l)
  }

  lemma TrackerDatesStep(l: Ledger, e: Event)
    requires TrackerDates(l.world)
    ensures TrackerDates(NextWorld(l, e))
  {
  }

  lemma TrackerCycleStep(l: Ledger, e: Event)
    requires TrackerCycle(l) && WatchFacts(l) && StepOk(l, e)
    ensures TrackerCycle(Advance(l, e))
  {
    hide EffectiveAnchor, MaySuspend, NothingIsDue, MayWake, Accepts, ClientSent, Handles;
  }

  lemma TrackerFactsStep(l: Ledger, e: Event)
    requires TrackerFacts(l) && WatchFacts(l) && StepOk(l, e)
    ensures TrackerFacts(Advance(l, e))
  {
    hide StepOk;
    TrackerDatesStep(l, e);
    TrackerCycleStep(l, e);
  }

  lemma {:induction false} TrackerIsPast(start: Ledger, run: seq<Event>)
    requires IsOpening(start) && Lawful(start, run)
    ensures TrackerFacts(Replay(start, run))
    decreases |run|
  {
    hide StepOk, Facts, Advance;
    if run != [] {
      TrackerIsPast(start, run[..|run| - 1]);
      LawfulRunsKeepFacts(start, run[..|run| - 1]);
      TrackerFactsStep(Replay(start, run[..|run| - 1]), run[|run| - 1]);
    } else {
      OpeningIsQuiet(start);
    }
  }

  lemma OpeningIsQuiet(start: Ledger)
    requires IsOpening(start)
    ensures TrackerFacts(start) && Facts(start)
  {
  }

  /** Nobody plays: no session of the running cycle is counted, and RCON, where it is configured, has counted zero
      players since a poll. */
  predicate NobodyPlays(l: Ledger) {
    && l.book.current.phase == Running
    && l.world.activity.Some? && l.world.activity.value.cycle == l.book.current.generation
    && l.world.activity.value.active == 0
    && (l.config.rcon ==> l.zeroAnchor.Some?)
  }

  lemma IdleAnchorIsPast(l: Ledger)
    requires TrackerFacts(l) && Facts(l) && NobodyPlays(l)
    ensures AnchorNow(l).Some? && AnchorNow(l).value <= l.world.now
  {
  }

  lemma IdleAnchorStays(l: Ledger, e: Event, since: Instant)
    requires StepOk(l, e) && WatchFacts(l) && NobodyPlays(l) && NobodyPlays(Advance(l, e))
    requires AnchorNow(l).Some? && AnchorNow(l).value <= since
    ensures AnchorNow(Advance(l, e)).Some? && AnchorNow(Advance(l, e)).value <= since
  {
    hide MaySuspend, NothingIsDue, MayWake, Accepts, ClientSent, CallSite, Handles;
  }

  lemma {:induction false} IdleAnchorIsOld(start: Ledger, run: seq<Event>, n: nat, m: nat)
    requires IsOpening(start) && Lawful(start, run) && n <= m <= |run|
    requires forall k :: n <= k <= m ==> NobodyPlays(At(start, run, k))
    ensures AnchorNow(At(start, run, m)).Some? && AnchorNow(At(start, run, m)).value <= At(start, run, n).world.now
    decreases m - n
  {
    hide StepOk, Facts, Advance, NobodyPlays, TrackerFacts, AnchorNow;
    Position(start, run, n);
    Position(start, run, m);
    if m == n {
      TrackerIsPast(start, run[..n]);
      IdleAnchorIsPast(At(start, run, n));
    } else {
      Position(start, run, m - 1);
      IdleAnchorIsOld(start, run, n, m - 1);
      IdleAnchorStays(At(start, run, m - 1), run[m - 1], At(start, run, n).world.now);
    }
  }

  lemma DueIsNotSleptThrough(l: Ledger, e: Event)
    requires StepOk(l, e) && IdleStopDue(l)
    ensures !e.Suspended? && !e.Waited?
    ensures e.AnchorRead? ==> e.read == AnchorNow(l) && Advance(l, e).watch == Due(AnchorNow(l).value)
  {
  }

  /** Over a running server that nobody plays on, from `n` on for the whole idle timeout, the monitor neither enters a
      `select!` nor sleeps before it has read the expired anchor, and this reading makes the stop due. */
  lemma IdleServersAreNotSleptOn(start: Ledger, run: seq<Event>, n: nat, m: nat)
    requires IsOpening(start) && Lawful(start, run) && n <= m < |run|
    requires forall k :: n <= k <= m ==> NobodyPlays(At(start, run, k))
    requires At(start, run, m).world.now >= At(start, run, n).world.now + start.config.idleTimeout
    requires At(start, run, m).watch == Polling
    ensures !run[m].Suspended? && !run[m].Waited?
    ensures run[m].AnchorRead? ==>
      && run[m].read.Some? && run[m].read.value + start.config.idleTimeout <= At(start, run, m).world.now
      && At(start, run, m + 1).watch == Due(run[m].read.value)
  {
    hide StepOk, Facts, Advance, NobodyPlays, AnchorNow;
    Position(start, run, m);
    SettingsNeverChange(start, run[..m]);
    IdleAnchorIsOld(start, run, n, m);
    DueIsNotSleptThrough(At(start, run, m), run[m]);
  }

  // ---- What the positions in a ledger mean

  /** Since position `from` nothing was published, launched or probed anew. */
  predicate UndisturbedSince(run: seq<Event>, from: nat) {
    forall k :: from < k < |run| ==> !run[k].Published? && !run[k].LaunchAttempted? && !run[k].ProbeStarted?
  }

  predicate IsDecision(e: Event) {
    e.Published? && e.publication.Decides()
  }

  /** Shutdown had not been requested, nor every client gone, before position `by`. */
  predicate NotAskedToStop(run: seq<Event>, end: nat)
    requires end <= |run|
  {
    forall k :: 0 <= k < end && run[k].Elapsed? ==> !run[k].shutdown && !run[k].closed
  }

  predicate DemandRemembered(run: seq<Event>, l: Ledger) {
    l.wakes.demand.Some? ==>
      var a := l.wakes.demand.value;
      && a < |run| && run[a].DemandAccepted?
      && run[a].wake.observed.generation == l.book.current.generation
      && forall k :: a < k < |run| ==> !IsDecision(run[k])
  }

  predicate FoundBy(e: Event, found: Classification) {
    e.ProbeCompleted? && e.result.Classify() == found
  }

  predicate GateRemembered(run: seq<Event>, g: Gate) {
    match g
    case Probing(started) => started < |run| && run[started] == ProbeStarted && UndisturbedSince(run, started)
    case Probed(started, done, found) =>
      && started < done < |run| && run[started] == ProbeStarted && FoundBy(run[done], found)
      && UndisturbedSince(run, started)
    case Cleared(started, done, checked, found) =>
      && started < done < checked < |run| && run[started] == ProbeStarted && FoundBy(run[done], found)
      && run[checked] == ShutdownNotPending && NotAskedToStop(run, checked)
      && UndisturbedSince(run, started)
    case _ => true
  }

  predicate WorldRemembered(run: seq<Event>, l: Ledger) {
    && l.world.length == |run|
    && (!l.world.shutdownSent && !l.world.wakesClosed ==> NotAskedToStop(run, |run|))
  }

  predicate Remembered(run: seq<Event>, l: Ledger) {
    WorldRemembered(run, l) && DemandRemembered(run, l) && GateRemembered(run, l.gate)
  }

  lemma RememberNext(run: seq<Event>, l: Ledger, e: Event)
    requires Remembered(run, l) && StepOk(l, e)
    ensures Remembered(run + [e], Advance(l, e))
  {
    RememberDemand(run, l, e);
    RememberGate(run, l, e);
    assert forall k :: 0 <= k < |run| ==> (run + [e])[k] == run[k];
  }

  lemma RememberDemand(run: seq<Event>, l: Ledger, e: Event)
    requires Remembered(run, l) && StepOk(l, e)
    ensures DemandRemembered(run + [e], Advance(l, e))
  {
    var next := Advance(l, e);
    if e.DemandAccepted? {
      assert next.wakes.demand == Some(|run|);
    } else if next.wakes.demand.Some? {
      assert !IsDecision(e) && next.wakes.demand == l.wakes.demand;
      assert next.book.current.generation == l.book.current.generation;
    }
  }

  lemma RememberGate(run: seq<Event>, l: Ledger, e: Event)
    requires GateRemembered(run, l.gate) && WorldRemembered(run, l)
    requires e.ShutdownNotPending? ==> !l.world.shutdownSent && !l.world.wakesClosed
    ensures GateRemembered(run + [e], NextGate(l, e))
  {
    hide GateRemembered;
    match e
    case ProbeStarted => GateOpens(run, e);
    case ProbeCompleted(result) => GateFinds(run, l.gate, result);
    case ShutdownNotPending => GateClears(run, l.gate);
    case LaunchAttempted(_) => GateCloses(run + [e], NextGate(l, e));
    case Published(_, _) => GateCloses(run + [e], NextGate(l, e));
    case _ => GateStays(run, l.gate, e);
  }

  lemma GateCloses(run: seq<Event>, g: Gate)
    requires g.Quiet? || g.Attempted?
    ensures GateRemembered(run, g)
  {
  }

  lemma GateOpens(run: seq<Event>, e: Event)
    requires e.ProbeStarted?
    ensures GateRemembered(run + [e], Probing(|run|))
  {
  }

  lemma GateFinds(run: seq<Event>, g: Gate, result: ReconciliationResult)
    requires GateRemembered(run, g)
    ensures GateRemembered(run + [ProbeCompleted(result)],
                           if g.Probing? then Probed(g.started, |run|, result.Classify()) else Quiet)
  {
    assert forall k :: 0 <= k < |run| ==> (run + [ProbeCompleted(result)])[k] == run[k];
  }

  lemma GateClears(run: seq<Event>, g: Gate)
    requires GateRemembered(run, g) && NotAskedToStop(run, |run|)
    ensures GateRemembered(run + [ShutdownNotPending],
                           if g.Probed? then Cleared(g.started, g.done, |run|, g.found) else g)
  {
    var longer := run + [ShutdownNotPending];
    GateStays(run, g, ShutdownNotPending);
    assert NotAskedToStop(longer, |run|);
  }

  lemma GateStays(run: seq<Event>, g: Gate, e: Event)
    requires GateRemembered(run, g) && !e.Published? && !e.LaunchAttempted? && !e.ProbeStarted?
    ensures GateRemembered(run + [e], g)
  {
    assert forall k :: 0 <= k < |run| ==> (run + [e])[k] == run[k];
  }

  lemma {:induction false} RunsRemember(start: Ledger, run: seq<Event>)
    requires IsOpening(start) && Lawful(start, run)
    ensures Remembered(run, Replay(start, run))
    decreases |run|
  {
    if run != [] {
      var shorter := run[..|run| - 1];
      RunsRemember(start, shorter);
      RememberNext(shorter, Replay(start, shorter), run[|run| - 1]);
      assert shorter + [run[|run| - 1]] == run;
    }
  }

  // ---- Launches

  /** A launch at position `n` was demanded at `accepted`, by a wake that observed the generation being answered;
      after that one probe started, found every endpoint refusing, and was followed by a check that shutdown had
      not been requested; nothing else happened in between, and no cooldown is running. */
  predicate LaunchJustified(start: Ledger, run: seq<Event>, n: nat,
                            accepted: nat, probed: nat, found: nat, checked: nat)
    requires n < |run|
  {
    && accepted < probed < found < checked < n
    && run[accepted].DemandAccepted?
    && run[accepted].wake.observed.generation == At(start, run, n).book.current.generation
    && (forall k :: accepted < k < n ==> !IsDecision(run[k]))
    && run[probed] == ProbeStarted && run[found].ProbeCompleted? && run[found].result.EverythingRefused()
    && run[checked] == ShutdownNotPending
    && (forall k :: probed < k < n ==> !run[k].Published? && !run[k].LaunchAttempted? && !run[k].ProbeStarted?)
    && NotAskedToStop(run, checked)
    && (forall s :: s in At(start, run, n).book.history && s.phase == Cooldown ==>
          s.retryAt.Some? && s.retryAt.value <= At(start, run, n).world.now)
    && !At(start, run, n).childLive
  }

  /** What the ledger shows at a launch. */
  lemma LaunchFacts(l: Ledger, e: Event)
    requires StepOk(l, e) && Facts(l) && e.LaunchAttempted?
    ensures l.wakes.demand.Some? && l.gate.Cleared? && l.gate.found == Clean && !l.childLive
    ensures l.wakes.demand.value < l.gate.started
    ensures forall s :: s in l.book.history && s.phase == Cooldown ==> s.retryAt.Some? && s.retryAt.value <= l.world.now
  {
  }

  lemma EveryLaunchIsJustified(start: Ledger, run: seq<Event>, n: nat)
    returns (accepted: nat, probed: nat, found: nat, checked: nat)
    requires IsOpening(start) && Lawful(start, run) && n < |run| && run[n].LaunchAttempted?
    ensures LaunchJustified(start, run, n, accepted, probed, found, checked)
  {
    hide StepOk, Facts, Advance;
    Position(start, run, n);
    RunsRemember(start, run[..n]);
    var l := At(start, run, n);
    LaunchFacts(l, run[n]);
    ClassificationMeaning(run[l.gate.done].result);
    accepted, probed, found, checked := l.wakes.demand.value, l.gate.started, l.gate.done, l.gate.checked;
    var before := run[..n];
    assert forall k :: 0 <= k < n ==> run[k] == before[k];
  }

  function CountLaunched(run: seq<Event>): nat
    decreases |run|
  {
    if run == [] then 0
    else CountLaunched(run[..|run| - 1]) + (if run[|run| - 1] == LaunchAttempted(true) then 1 else 0)
  }

  function CountReaped(run: seq<Event>): nat
    decreases |run|
  {
    if run == [] then 0 else CountReaped(run[..|run| - 1]) + (if run[|run| - 1].ChildReaped? then 1 else 0)
  }

  /** Children are conserved: at any time at most one launched child has not been reaped. */
  lemma {:induction false} ChildrenAreConserved(start: Ledger, run: seq<Event>)
    requires IsOpening(start) && Lawful(start, run)
    ensures CountLaunched(run) == CountReaped(run) + (if Replay(start, run).childLive then 1 else 0)
    decreases |run|
  {
    if run != [] {
      ChildrenAreConserved(start, run[..|run| - 1]);
    }
  }

  /** At every launch, all children launched before have been reaped. */
  lemma LaunchesFindNoChild(start: Ledger, run: seq<Event>, n: nat)
    requires IsOpening(start) && Lawful(start, run) && n < |run| && run[n].LaunchAttempted?
    ensures CountLaunched(run[..n]) == CountReaped(run[..n])
  {
    Position(start, run, n);
    ChildrenAreConserved(start, run[..n]);
  }

  /** The server was reached at position `n`, and nothing has been published since. */
  predicate ReachedAt(run: seq<Event>, n: nat) {
    n < |run| && run[n] == ConnectionTried(true) && forall k :: n < k < |run| ==> !run[k].Published?
  }

  ghost predicate ReachRemembered(run: seq<Event>, l: Ledger) {
    l.watch == Reachable || l.watch.CycleOpened? ==> exists n: nat :: ReachedAt(run, n)
  }

  lemma ReachMoves(l: Ledger, e: Event)
    requires WatchFacts(l) && StepOk(l, e) && (Advance(l, e).watch == Reachable || Advance(l, e).watch.CycleOpened?)
    ensures e == ConnectionTried(true) || ((l.watch == Reachable || l.watch.CycleOpened?) && !e.Published?)
  {
  }

  lemma {:induction false} ReachesAreRemembered(start: Ledger, run: seq<Event>)
    requires IsOpening(start) && Lawful(start, run)
    ensures ReachRemembered(run, Replay(start, run))
    decreases |run|
  {
    hide StepOk, Advance;
    var l := Replay(start, run);
    if run != [] && (l.watch == Reachable || l.watch.CycleOpened?) {
      var n := |run| - 1;
      var shorter := run[..n];
      ReachesAreRemembered(start, shorter);
      LawfulRunsKeepFacts(start, shorter);
      ReachMoves(Replay(start, shorter), run[n]);
      if run[n] == ConnectionTried(true) {
        assert ReachedAt(run, n);
      } else {
        var k: nat :| ReachedAt(shorter, k);
        assert forall i :: 0 <= i < n ==> run[i] == shorter[i];
        assert ReachedAt(run, k);
      }
    }
  }

  /** `Running` is published only over a live child that a connection attempt has reached since it was started. */
  lemma RunningIsReached(start: Ledger, run: seq<Event>, n: nat) returns (reached: nat)
    requires IsOpening(start) && Lawful(start, run) && n < |run| && run[n].Published? && run[n].publication.PublishRunning?
    ensures reached < n && run[reached] == ConnectionTried(true)
    ensures forall k :: reached < k < n ==> !run[k].Published?
    ensures At(start, run, n).childLive && At(start, run, n).book.current.phase == Starting
  {
    hide Replay, Lawful, Advance, Facts;
    Position(start, run, n);
    ReachesAreRemembered(start, run[..n]);
    assert At(start, run, n).watch.CycleOpened?;
    reached :| ReachedAt(run[..n], reached);
    assert forall k :: 0 <= k < n ==> run[k] == run[..n][k];
  }

  /** The trouble with which a run may end is a failure of the child's handle that the run has seen. */
  lemma {:induction false} TroubleIsSeen(start: Ledger, run: seq<Event>)
    requires IsOpening(start)
    ensures Replay(start, run).world.troubled <==> exists k :: 0 <= k < |run| && run[k].ChildErred?
    decreases |run|
  {
    if run != [] {
      var n := |run| - 1;
      var shorter := run[..n];
      TroubleIsSeen(start, shorter);
      assert forall k :: 0 <= k < n ==> shorter[k] == run[k];
    }
  }

  // ---- Demand accounting

  function CountDecisions(run: seq<Event>): nat
    decreases |run|
  {
    if run == [] then 0 else CountDecisions(run[..|run| - 1]) + (if IsDecision(run[|run| - 1]) then 1 else 0)
  }

  function CountAccepted(run: seq<Event>): nat
    decreases |run|
  {
    if run == [] then 0 else CountAccepted(run[..|run| - 1]) + (if run[|run| - 1].DemandAccepted? then 1 else 0)
  }

  lemma {:induction false} LedgerCounts(start: Ledger, run: seq<Event>)
    requires IsOpening(start)
    ensures Replay(start, run).book.bumps == CountDecisions(run)
    ensures Replay(start, run).wakes.accepted == CountAccepted(run)
    decreases |run|
  {
    if run != [] {
      LedgerCounts(start, run[..|run| - 1]);
    }
  }

  /** Decisions, whether launches, failed launches or blocked gates, never outnumber the wakes accepted, nor these the
      wakes that clients sent. */
  lemma DecisionsAreDemanded(start: Ledger, run: seq<Event>)
    requires IsOpening(start) && Lawful(start, run)
    ensures CountDecisions(run) <= CountAccepted(run) <= CountSent(run)
  {
    LawfulRunsKeepFacts(start, run);
    LedgerCounts(start, run);
    AcceptedAreAnswers(run);
    WakesAreConserved(start, run);
  }

  lemma DecisionsFindDemand(l: Ledger, e: Event)
    requires Facts(l) && StepOk(l, e) && IsDecision(e)
    ensures l.wakes.demand.Some?
  {
  }

  /** Every decision answers a wake of its own generation, accepted since the decision before it. */
  lemma EveryDecisionAnswersAWake(start: Ledger, run: seq<Event>, n: nat) returns (accepted: nat)
    requires IsOpening(start) && Lawful(start, run) && n < |run| && IsDecision(run[n])
    ensures accepted < n && run[accepted].DemandAccepted?
    ensures run[accepted].wake.observed.generation == At(start, run, n).book.current.generation
    ensures forall k :: accepted < k < n ==> !IsDecision(run[k])
  {
    hide StepOk, Facts, Advance;
    Position(start, run, n);
    RunsRemember(start, run[..n]);
    var l := At(start, run, n);
    DecisionsFindDemand(l, run[n]);
    accepted := l.wakes.demand.value;
    var before := run[..n];
    assert forall k :: 0 <= k < n ==> run[k] == before[k];
  }

  lemma {:induction false} DecisionsOnlyGrow(run: seq<Event>, n: nat)
    requires n <= |run|
    ensures CountDecisions(run[..n]) <= CountDecisions(run)
    decreases |run|
  {
    if n == |run| {
      assert run[..n] == run;
    } else {
      var shorter := run[..|run| - 1];
      DecisionsOnlyGrow(shorter, n);
      assert shorter[..n] == run[..n];
    }
  }

  lemma GenerationCountsDecisions(start: Ledger, run: seq<Event>, n: nat)
    requires IsOpening(start) && Lawful(start, run) && n <= |run| && CountDecisions(run) < TWO_64
    ensures At(start, run, n).book.current.generation == CountDecisions(run[..n]) <= CountDecisions(run)
  {
    Position(start, run, n);
    LedgerCounts(start, run[..n]);
    DecisionsOnlyGrow(run, n);
  }

  /** Each generation gets at most one decision, as long as the counter has not wrapped around. */
  lemma GenerationsAreDecidedOnce(start: Ledger, run: seq<Event>, n: nat, later: nat)
    requires IsOpening(start) && Lawful(start, run) && n < later < |run|
    requires IsDecision(run[n]) && IsDecision(run[later]) && CountDecisions(run) < TWO_64
    ensures At(start, run, n).book.current.generation != At(start, run, later).book.current.generation
  {
    hide Lawful, Replay, Facts;
    GenerationCountsDecisions(start, run, n);
    GenerationCountsDecisions(start, run, later);
    assert CountDecisions(run[..n + 1]) == CountDecisions(run[..n]) + 1 by {
      assert run[..n + 1][..n] == run[..n];
    }
    assert CountDecisions(run[..n + 1]) <= CountDecisions(run[..later]) by {
      DecisionsOnlyGrow(run[..later], n + 1);
      assert run[..later][..n + 1] == run[..n + 1];
    }
  }

  // ---- No lost wake

  /** Whether a dequeued wake that observed the current generation is dropped, exactly: where a demand of this
      generation is already latched, where the server turned out to run by itself, and in `Conflict` if it was sent on
      the first `Reconciling` value. It is never dropped in `Stopped` or `Stopping`. */
  lemma NoWakeIsLost(start: Ledger, run: seq<Event>, n: nat)
    requires IsOpening(start) && Lawful(start, run) && n < |run| && IsAnswer(run[n])
    requires CountDecisions(run) < TWO_64
    requires run[n].wake.observed.generation == At(start, run, n).book.current.generation
    ensures
      var l := At(start, run, n);
      var observed := run[n].wake.observed;
      && l.book.current.phase in {Stopped, Stopping, Cooldown, Reconciling, External, Conflict}
      && (run[n].WakeIgnored? <==>
            || (l.book.current.phase in {Reconciling, Cooldown} && l.wakes.demand.Some?)
            || l.book.current.phase == External
            || (l.book.current.phase == Conflict && observed.phase == Reconciling))
  {
    hide Advance, Replay, Lawful;
    Position(start, run, n);
    LedgerCounts(start, run[..n]);
    DecisionsOnlyGrow(run, n);
    AnswerIsExact(At(start, run, n), run[n]);
  }

  lemma AnswerIsExact(l: Ledger, e: Event)
    requires Facts(l) && StepOk(l, e) && IsAnswer(e) && l.book.bumps < TWO_64
    requires e.wake.observed.generation == l.book.current.generation
    ensures l.book.current.phase in {Stopped, Stopping, Cooldown, Reconciling, External, Conflict}
    ensures e.WakeIgnored? <==>
            || (l.book.current.phase in {Reconciling, Cooldown} && l.wakes.demand.Some?)
            || l.book.current.phase == External
            || (l.book.current.phase == Conflict && e.wake.observed.phase == Reconciling)
  {
    assert Before(e.wake.observed, l.book.current);
    CurrentGenerationWakesAreAccepted(e.wake, l.book.current);
  }

  /** A wake that observed another generation is always dropped: with `NoWakeIsLost` this says of every dequeued wake
      whether it is accepted. */
  lemma StaleWakesAreDropped(start: Ledger, run: seq<Event>, n: nat)
    requires IsOpening(start) && Lawful(start, run) && n < |run| && IsAnswer(run[n])
    requires run[n].wake.observed.generation != At(start, run, n).book.current.generation
    ensures run[n].WakeIgnored?
  {
    hide Advance, Replay, Lawful, Facts;
    Position(start, run, n);
    if run[n].DemandAccepted? {
      AcceptedWakesAreCurrent(At(start, run, n), run[n].wake);
    }
  }

  lemma AcceptedWakesAreCurrent(l: Ledger, w: WakeRequest)
    requires Accepts(l, w)
    ensures w.observed.generation == l.book.current.generation
  {
  }

  /** The wake that `NoWakeIsLost` cannot exclude: a client samples the first `Reconciling` value, and sends its wake
      only when the startup probe has been concluded. */
  function StartupProbe(found: BackendProbe): seq<Event> {
    [ProbeStarted, Suspended, Woken(FutureBranch), ProbeCompleted(BackendOnly(found))]
  }

  function LateStartupWake(found: BackendProbe, p: Publication, at: Instant): seq<Event> {
    var wake := WakeRequest(InitialState(at));
    StartupProbe(found) + [ShutdownNotPending, Published(p, at)]
    + [WakeSent(wake), Suspended, WakeDequeued(wake), WakeIgnored(wake)]
  }

  /** It is lost in `Conflict` after an inconclusive probe, and in `External`, in a lawful run and with nothing latched
      although it observed the current generation. */
  lemma LateStartupWakesAreLost(config: Config, at: Instant, found: BackendProbe, p: Publication)
    requires || (found == BackendInconclusive && p == PublishConflict(Inconclusive, false))
             || (found == Connected && p == PublishExternal(false))
    ensures
      var start := Opening(config, at);
      var run := LateStartupWake(found, p, at);
      && Lawful(start, run) && run[9].WakeIgnored?
      && At(start, run, 9).book.current.generation == run[9].wake.observed.generation
      && At(start, run, 9).wakes.demand.None?
  {
    hide Replay, Lawful, Advance;
    var start := Opening(config, at);
    var run := LateStartupWake(found, p, at);
    var concluded := StartupProbe(found) + [ShutdownNotPending, Published(p, at)];
    assert run[..6] == concluded;
    StartupConcludes(config, at, found, p);
    LateWakeIsIgnored(start, run, Replay(start, concluded));
  }

  lemma StartupConcludes(config: Config, at: Instant, found: BackendProbe, p: Publication)
    requires || (found == BackendInconclusive && p == PublishConflict(Inconclusive, false))
             || (found == Connected && p == PublishExternal(false))
    ensures
      var start := Opening(config, at);
      var run := StartupProbe(found) + [ShutdownNotPending, Published(p, at)];
      var l := Replay(start, run);
      && Lawful(start, run)
      && l.book.current == Apply(InitialState(at), p, at) && InitialState(at) in l.book.history
      && l.wakes.demand.None? && l.world.slot.None? && !l.world.wakesClosed && !l.world.shutdownSent
      && l.inHand.None? && l.woken.None? && !l.seen && l.watch == Absent && l.gate == Quiet
  {
    hide Replay, Lawful;
    var start := Opening(config, at);
    var probed := StartupProbe(found);
    StartupProbes(config, at, found);
    var checked := OneMore(start, probed, Replay(start, probed), ShutdownNotPending);
    var l := OneMore(start, probed + [ShutdownNotPending], checked, Published(p, at));
    assert probed + [ShutdownNotPending] + [Published(p, at)] == probed + [ShutdownNotPending, Published(p, at)];
  }

  lemma StartupProbes(config: Config, at: Instant, found: BackendProbe)
    ensures
      var start := Opening(config, at);
      var l := Replay(start, StartupProbe(found));
      && Lawful(start, StartupProbe(found)) && Alike(start, l) && l.woken.None?
      && l.gate.Probed? && l.gate.found == BackendOnly(found).Classify()
  {
    hide Replay, Lawful, StepOk, Advance, Alike, Opening;
    var start := Opening(config, at);
    var probed := ProbeCompleted(BackendOnly(found));
    NothingYet(start);
    OpeningIsUndisturbed(config, at);
    var e1 := FirstProbe(start, start);
    var l1 := OneMore(start, [], start, e1);
    assert [] + [ProbeStarted] == [ProbeStarted];
    var e2 := ProbeAwaited(start, l1);
    var l2 := OneMore(start, [ProbeStarted], l1, e2);
    assert [ProbeStarted] + [Suspended] == [ProbeStarted, Suspended];
    var e3 := ProbeWakes(start, l2);
    var l3 := OneMore(start, [ProbeStarted, Suspended], l2, e3);
    assert [ProbeStarted, Suspended] + [Woken(FutureBranch)] == [ProbeStarted, Suspended, Woken(FutureBranch)];
    var e4 := ProbeEnds(start, l3, BackendOnly(found));
    var l4 := OneMore(start, [ProbeStarted, Suspended, Woken(FutureBranch)], l3, e4);
    assert [ProbeStarted, Suspended, Woken(FutureBranch)] + [probed] == StartupProbe(found);
  }

  /** A ledger in which the first reconciliation goes on undisturbed. */
  predicate Undisturbed(l: Ledger) {
    && l.book.current.phase == Reconciling && l.book.current.evidence == NoEvidence && l.watch == Absent
    && !l.world.shutdownSent && !l.world.wakesClosed && l.world.slot.None? && l.inHand.None? && !l.seen
  }

  predicate Alike(before: Ledger, after: Ledger) {
    && Undisturbed(before) && Undisturbed(after) && after.book == before.book && after.wakes == before.wakes
    && after.world.now == before.world.now
  }

  lemma OpeningIsUndisturbed(config: Config, at: Instant)
    ensures var l := Opening(config, at); Alike(l, l) && l.gate == Quiet && l.woken.None?
  {
  }

  lemma FirstProbe(start: Ledger, l: Ledger) returns (e: Event)
    requires Alike(start, l) && l.gate == Quiet && l.woken.None?
    ensures e == ProbeStarted && StepOk(l, e)
    ensures Alike(start, Advance(l, e)) && Advance(l, e).gate.Probing? && Advance(l, e).woken.None?
  {
    hide EffectiveAnchor;
    e := ProbeStarted;
  }

  lemma ProbeAwaited(start: Ledger, l: Ledger) returns (e: Event)
    requires Alike(start, l) && l.gate.Probing? && l.woken.None?
    ensures e == Suspended && StepOk(l, e)
    ensures Alike(start, Advance(l, e)) && Advance(l, e).gate.Probing? && Advance(l, e).woken.None?
  {
    hide EffectiveAnchor;
    e := Suspended;
  }

  lemma ProbeWakes(start: Ledger, l: Ledger) returns (e: Event)
    requires Alike(start, l) && l.gate.Probing? && l.woken.None?
    ensures e == Woken(FutureBranch) && StepOk(l, e)
    ensures Alike(start, Advance(l, e)) && Advance(l, e).gate.Probing? && Advance(l, e).woken == Some(FutureBranch)
  {
    hide EffectiveAnchor;
    e := Woken(FutureBranch);
  }

  lemma ProbeEnds(start: Ledger, l: Ledger, result: ReconciliationResult) returns (e: Event)
    requires Alike(start, l) && l.gate.Probing? && l.woken == Some(FutureBranch)
    ensures e == ProbeCompleted(result) && StepOk(l, e)
    ensures Alike(start, Advance(l, e)) && Advance(l, e).woken.None?
    ensures Advance(l, e).gate.Probed? && Advance(l, e).gate.found == result.Classify()
  {
    hide EffectiveAnchor;
    e := ProbeCompleted(result);
  }

  lemma NothingYet(start: Ledger)
    ensures Lawful(start, []) && Replay(start, []) == start
  {
  }

  lemma OneMore(start: Ledger, run: seq<Event>, l: Ledger, e: Event) returns (next: Ledger)
    requires Lawful(start, run) && Replay(start, run) == l && StepOk(l, e)
    ensures Lawful(start, run + [e]) && Replay(start, run + [e]) == next == Advance(l, e)
  {
    Extend(start, run, e);
    next := Advance(l, e);
  }

  lemma LateWakeIsIgnored(start: Ledger, run: seq<Event>, l: Ledger)
    requires |run| == 10 && Lawful(start, run[..6]) && Replay(start, run[..6]) == l
    requires run[6].WakeSent? && run[7] == Suspended
    requires run[8] == WakeDequeued(run[6].wake) && run[9] == WakeIgnored(run[6].wake)
    requires ClientSent(l, run[6].wake) && l.world.slot.None? && !l.world.wakesClosed && !l.world.shutdownSent
    requires l.inHand.None? && l.woken.None? && !l.seen && l.watch == Absent && l.wakes.demand.None? && l.gate == Quiet
    requires l.book.current.phase in {Conflict, External} && !Accepts(l, run[6].wake)
    ensures Lawful(start, run)
    ensures At(start, run, 9).book == l.book && At(start, run, 9).wakes == l.wakes
  {
    hide Replay, Lawful, StepOk, Advance;
    LateWakeSent(l, run[6].wake);
    var l1 := OneMore(start, run[..6], l, run[6]);
    assert run[..6] + [run[6]] == run[..7];
    LateWakeAwaited(l1);
    var l2 := OneMore(start, run[..7], l1, run[7]);
    assert run[..7] + [run[7]] == run[..8];
    LateWakeTaken(l2, run[6].wake);
    var l3 := OneMore(start, run[..8], l2, run[8]);
    assert run[..8] + [run[8]] == run[..9];
    LateWakeDropped(l3, run[6].wake);
    var l4 := OneMore(start, run[..9], l3, run[9]);
    assert run[..9] + [run[9]] == run;
  }

  predicate Concluded(l: Ledger) {
    && l.book.current.phase in {Conflict, External} && l.watch == Absent && l.wakes.demand.None?
    && !l.world.wakesClosed && !l.world.shutdownSent && l.woken.None? && !l.seen && l.gate == Quiet
  }

  lemma LateWakeSent(l: Ledger, wake: WakeRequest)
    requires Concluded(l) && l.inHand.None? && l.world.slot.None? && ClientSent(l, wake)
    ensures StepOk(l, WakeSent(wake))
    ensures Advance(l, WakeSent(wake)) == l.(world := l.world.(length := l.world.length + 1, slot := Some(wake)))
  {
    hide EffectiveAnchor;
  }

  lemma LateWakeAwaited(l: Ledger)
    requires Concluded(l) && l.inHand.None?
    ensures StepOk(l, Suspended)
    ensures Advance(l, Suspended) == l.(world := l.world.(length := l.world.length + 1))
  {
    hide EffectiveAnchor;
  }

  lemma LateWakeTaken(l: Ledger, wake: WakeRequest)
    requires Concluded(l) && l.inHand.None? && l.world.slot == Some(wake)
    ensures StepOk(l, WakeDequeued(wake))
    ensures Advance(l, WakeDequeued(wake))
         == l.(inHand := Some(wake), world := l.world.(length := l.world.length + 1, slot := None))
  {
    hide EffectiveAnchor;
  }

  lemma LateWakeDropped(l: Ledger, wake: WakeRequest)
    requires Concluded(l) && l.inHand == Some(wake) && !Accepts(l, wake)
    ensures StepOk(l, WakeIgnored(wake))
  {
    hide EffectiveAnchor;
  }

  // ---- Every wake that was sent

  predicate IsAnswer(e: Event) {
    e.DemandAccepted? || e.WakeIgnored?
  }

  function CountSent(run: seq<Event>): nat
    decreases |run|
  {
    if run == [] then 0 else CountSent(run[..|run| - 1]) + (if run[|run| - 1].WakeSent? then 1 else 0)
  }

  function CountAnswers(run: seq<Event>): nat
    decreases |run|
  {
    if run == [] then 0 else CountAnswers(run[..|run| - 1]) + (if IsAnswer(run[|run| - 1]) then 1 else 0)
  }

  /** Wakes are conserved: each one sent has been answered, or is in the slot, or is in the supervisor's hand. */
  lemma {:induction false} WakesAreConserved(start: Ledger, run: seq<Event>)
    requires IsOpening(start) && Lawful(start, run)
    ensures
      var l := Replay(start, run);
      CountSent(run) == CountAnswers(run) + (if l.world.slot.Some? then 1 else 0) + (if l.inHand.Some? then 1 else 0)
    decreases |run|
  {
    if run != [] {
      WakesAreConserved(start, run[..|run| - 1]);
      WakeMoves(Replay(start, run[..|run| - 1]), run[|run| - 1]);
    }
  }

  lemma WakeMoves(l: Ledger, e: Event)
    requires StepOk(l, e)
    ensures
      var next := Advance(l, e);
      && (next.world.slot.Some? <==> e.WakeSent? || (l.world.slot.Some? && !e.WakeDequeued?))
      && (next.inHand.Some? <==> e.WakeDequeued? || (l.inHand.Some? && !IsAnswer(e)))
      && (e.WakeSent? ==> l.world.slot.None?) && (e.WakeDequeued? ==> l.world.slot.Some? && l.inHand.None?)
      && (IsAnswer(e) ==> l.inHand.Some?)
  {
  }

  lemma {:induction false} AcceptedAreAnswers(run: seq<Event>)
    ensures CountAccepted(run) <= CountAnswers(run)
    decreases |run|
  {
    if run != [] {
      AcceptedAreAnswers(run[..|run| - 1]);
    }
  }

  /** Until a dequeued wake is answered nothing happens but outside, and it is the one that is answered. */
  lemma {:induction false} DequeuedWakesAreAnswered(start: Ledger, run: seq<Event>, n: nat, m: nat)
    requires IsOpening(start) && Lawful(start, run) && n < m < |run| && run[n].WakeDequeued?
    requires forall k :: n < k < m ==> IsOutside(run[k])
    ensures At(start, run, m).inHand == Some(run[n].wake)
    ensures IsOutside(run[m]) || run[m] == DemandAccepted(run[n].wake) || run[m] == WakeIgnored(run[n].wake)
    decreases m - n
  {
    Position(start, run, m);
    Position(start, run, m - 1);
    if m > n + 1 {
      DequeuedWakesAreAnswered(start, run, n, m - 1);
    }
  }

  predicate SlotRemembered(run: seq<Event>, l: Ledger) {
    && (l.world.slot.Some? ==> exists s: nat :: s < |run| && run[s] == WakeSent(l.world.slot.value))
    && (l.inHand.Some? ==>
          exists s: nat, d: nat ::
            s < d < |run| && run[s] == WakeSent(l.inHand.value) && run[d] == WakeDequeued(l.inHand.value))
  }

  lemma RememberSlot(run: seq<Event>, l: Ledger, e: Event)
    requires SlotRemembered(run, l) && StepOk(l, e)
    ensures SlotRemembered(run + [e], Advance(l, e))
  {
    var longer, next := run + [e], Advance(l, e);
    if e.WakeSent? {
      assert longer[|run|] == WakeSent(next.world.slot.value);
    } else if next.world.slot.Some? {
      var s: nat :| s < |run| && run[s] == WakeSent(l.world.slot.value);
      assert longer[s] == WakeSent(next.world.slot.value);
    }
    if e.WakeDequeued? {
      var s: nat :| s < |run| && run[s] == WakeSent(l.world.slot.value);
      assert longer[s] == WakeSent(next.inHand.value) && longer[|run|] == WakeDequeued(next.inHand.value);
    } else if next.inHand.Some? {
      var s: nat, d: nat :| s < d < |run| && run[s] == WakeSent(l.inHand.value) && run[d] == WakeDequeued(l.inHand.value);
      assert longer[s] == WakeSent(next.inHand.value) && longer[d] == WakeDequeued(next.inHand.value);
    }
  }

  lemma {:induction false} SlotsAreRemembered(start: Ledger, run: seq<Event>)
    requires IsOpening(start) && Lawful(start, run)
    ensures SlotRemembered(run, Replay(start, run))
    decreases |run|
  {
    if run != [] {
      var shorter := run[..|run| - 1];
      SlotsAreRemembered(start, shorter);
      RememberSlot(shorter, Replay(start, shorter), run[|run| - 1]);
      assert shorter + [run[|run| - 1]] == run;
    }
  }

  lemma AnswersAreInHand(l: Ledger, e: Event)
    requires StepOk(l, e) && Facts(l) && IsAnswer(e)
    ensures l.inHand == Some(e.wake) && ClientSent(l, e.wake)
  {
  }

  /** An answered wake, accepted or not, was sent by a client and then dequeued. */
  lemma AnsweredWakesWereSent(start: Ledger, run: seq<Event>, n: nat) returns (sent: nat, dequeued: nat)
    requires IsOpening(start) && Lawful(start, run) && n < |run| && IsAnswer(run[n])
    ensures sent < dequeued < n && run[sent] == WakeSent(run[n].wake) && run[dequeued] == WakeDequeued(run[n].wake)
    ensures run[n].wake.observed in At(start, run, n).book.history
    ensures run[n].wake.observed.phase !in {Starting, Running, External}
  {
    hide Advance, StepOk, Facts, Replay, Lawful;
    Position(start, run, n);
    SlotsAreRemembered(start, run[..n]);
    AnswersAreInHand(At(start, run, n), run[n]);
    sent, dequeued :| sent < dequeued < n
      && run[..n][sent] == WakeSent(run[n].wake) && run[..n][dequeued] == WakeDequeued(run[n].wake);
  }

  // ---- Failure streak and cooldowns

  /** Failures since the last stability reset or committed idle stop. */
  function FailuresSinceReset(run: seq<Event>): nat
    decreases |run|
  {
    if run == [] then 0
    else
      var e := run[|run| - 1];
      if e.Published? && e.publication.CountsFailure() then FailuresSinceReset(run[..|run| - 1]) + 1
      else if e.Published? && e.publication.ClearsFailures() then 0
      else FailuresSinceReset(run[..|run| - 1])
  }

  lemma {:induction false} StreakCountsFailures(start: Ledger, run: seq<Event>)
    requires IsOpening(start) && Lawful(start, run)
    ensures
      var current := Replay(start, run).book.current;
      && current.streak == Saturated(FailuresSinceReset(run))
      && (current.streak > 0 <==> current.failure.Some?)
      && (current.phase == Cooldown ==>
            current.streak > 0 && current.retryAt == Some(current.phaseStartedAt + FailureBackoff(current.streak)))
  {
    LawfulRunsKeepFacts(start, run);
    FailuresAreCounted(start, run);
  }

  lemma {:induction false} FailuresAreCounted(start: Ledger, run: seq<Event>)
    requires IsOpening(start)
    ensures Replay(start, run).book.failures == FailuresSinceReset(run)
    decreases |run|
  {
    if run != [] {
      FailuresAreCounted(start, run[..|run| - 1]);
    }
  }

  /** The failure streak is forgotten only by a committed idle stop or after a minute of running. */
  lemma ResetsAreEarned(start: Ledger, run: seq<Event>, n: nat)
    requires IsOpening(start) && Lawful(start, run) && n < |run|
    requires At(start, run, n).book.current.streak > 0 && At(start, run, n + 1).book.current.streak == 0
    ensures run[n].Published?
    ensures
      var l := At(start, run, n);
      && l.book.current.phase == Running && l.childLive
      && (run[n].publication.BeginIdleStop?
          || (run[n].publication.ResetFailureStreak? && l.world.now >= l.book.current.phaseStartedAt + 60 * SECOND))
  {
    Position(start, run, n);
  }
}
