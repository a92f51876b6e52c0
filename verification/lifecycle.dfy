/** The watched lifecycle value, the values the supervisor may publish after it,
    and the wake requests clients send after sampling it (src/supervisor.rs). */
module Lifecycle {
  import opened Wrappers

  const TWO_64: nat := 0x1_0000_0000_0000_0000
  type u64 = n: nat | n < 0x1_0000_0000_0000_0000
  type u32 = n: nat | n < 0x1_0000_0000
  const U32_MAX: u32 := 0xffff_ffff

  /** A reading of the monotone clock, in nanoseconds. */
  type Instant = nat
  type Duration = nat
  const SECOND: Duration := 1_000_000_000
  const STABILITY_WINDOW: Duration := 60 * SECOND

  datatype Phase = Reconciling | Stopped | Starting | Running | Stopping | Cooldown | External | Conflict

  datatype Evidence = NoEvidence | Inconclusive | Positive

  datatype FailureCategory = LaunchFailed | StartupTimedOut | ExitedBeforeReady | ExitedUnexpectedly

  datatype LifecycleState = LifecycleState(
    phase: Phase,
    generation: u64,
    failure: Option<FailureCategory>,
    streak: u32,
    phaseStartedAt: Instant,
    retryAt: Option<Instant>,
    evidence: Evidence)
  {
    predicate InvariantHolds() {
      match phase
      case Reconciling => true
      case External => evidence == Positive
      case Conflict => evidence != NoEvidence
      case _ => evidence == NoEvidence
    }

    /** The backend cycle clients may use: only an owned, running server has one. */
    function OwnedRunningCycle(): Option<u64> {
      if phase == Running then Some(generation) else None
    }
  }

  function InitialState(at: Instant): LifecycleState {
    LifecycleState(Reconciling, 0, None, 0, at, None, NoEvidence)
  }

  /** What a client's wake carries: the lifecycle value it had sampled. */
  datatype WakeRequest = WakeRequest(observed: LifecycleState)
  {
    predicate CanStart(current: LifecycleState) {
      && current.phase == Stopped
      && observed.generation == current.generation
      && observed.phase in {Reconciling, Stopped, Stopping, Cooldown}
    }

    predicate RequestsConflictReconciliation(current: LifecycleState) {
      current.phase == Conflict && observed == current
    }

    predicate RequestsRestart(current: LifecycleState) {
      current.phase == Stopping && current.failure.None? && observed == current
    }

    predicate RequestsRetry(current: LifecycleState) {
      && current.failure.Some?
      && observed.failure == current.failure
      && observed.streak == current.streak
      && observed.generation == current.generation
      && observed.phase in {Stopping, Cooldown}
      && current.phase in {Stopping, Cooldown}
    }

    /** The latch of the first reconciliation (`wait_for_reconciliation`). */
    predicate LatchesStartup(current: LifecycleState) {
      current.phase == Reconciling && observed == current
    }
  }

  /** The phases whose sample makes a Login or Transfer client send a wake (src/runtime.rs). */
  predicate SendsWake(phase: Phase) {
    phase in {Reconciling, Stopped, Stopping, Cooldown, Conflict}
  }

  // ---- Failure backoff

  function FailureBackoff(streak: u32): Duration
    requires streak > 0
  {
    match streak
    case 1 => 5 * SECOND
    case 2 => 10 * SECOND
    case 3 => 20 * SECOND
    case 4 => 40 * SECOND
    case _ => 60 * SECOND
  }

  function Pow2(n: nat): nat {
    if n == 0 then 1 else 2 * Pow2(n - 1)
  }

  lemma {:induction false} Pow2AtLeast16(n: nat)
    requires n >= 4
    ensures Pow2(n) >= 16
  {
    if n == 4 {
      assert Pow2(4) == 2 * Pow2(3) && Pow2(3) == 2 * Pow2(2) && Pow2(2) == 2 * Pow2(1);
    } else {
      Pow2AtLeast16(n - 1);
    }
  }

  /** The table is the exponential backoff 5 * 2^(k-1) seconds, capped at one minute. */
  lemma {:induction false} BackoffIsCappedExponential(streak: u32)
    requires streak > 0
    ensures FailureBackoff(streak) ==
            if 5 * Pow2(streak - 1) <= 60 then 5 * Pow2(streak - 1) * SECOND else 60 * SECOND
  {
    if streak >= 5 {
      Pow2AtLeast16(streak - 1);
    } else {
      assert Pow2(1) == 2 && Pow2(2) == 4 && Pow2(3) == 2 * Pow2(2);
    }
  }

  function SaturatingNext(streak: u32): u32 {
    if streak == U32_MAX then U32_MAX else streak + 1
  }

  function WrappingNext(generation: u64): u64 {
    if generation == TWO_64 - 1 then 0 else generation + 1
  }

  // ---- Publications

  /** The functions of `SupervisorControl` that publish; `set_phase` is split by its argument. */
  datatype Publication =
    | RecordLaunchSuccess
    | RecordLaunchFailure
    | RecordReapedFailure(category: FailureCategory)
    | BeginFailureCleanup(category: FailureCategory)
    | FinishFailureCleanup
    | ResetFailureStreak
    | PublishRunning
    | BeginIdleStop
    | SetStopping
    | SetStopped
    | BeginReconciliation
    | PublishStopped
    | PublishExternal(consume: bool)
    | PublishConflict(found: Evidence, consume: bool)
  {
    /** A publication that answers one demand moves to the next launch generation. */
    predicate Decides() {
      RecordLaunchSuccess? || RecordLaunchFailure?
      || (PublishExternal? && consume) || (PublishConflict? && consume)
    }

    predicate CountsFailure() {
      RecordLaunchFailure? || RecordReapedFailure? || BeginFailureCleanup?
    }

    predicate ClearsFailures() {
      ResetFailureStreak? || BeginIdleStop?
    }
  }

  /** The value each publication stores over `s` at clock reading `at`. */
  function Apply(s: LifecycleState, p: Publication, at: Instant): LifecycleState {
    var failed := SaturatingNext(s.streak);
    match p
    case RecordLaunchSuccess =>
      LifecycleState(Starting, WrappingNext(s.generation), s.failure, s.streak, at, None, NoEvidence)
    case RecordLaunchFailure =>
      LifecycleState(Cooldown, WrappingNext(s.generation), Some(LaunchFailed), failed, at,
                     Some(at + FailureBackoff(failed)), NoEvidence)
    case RecordReapedFailure(category) =>
      LifecycleState(Cooldown, s.generation, Some(category), failed, at, Some(at + FailureBackoff(failed)), NoEvidence)
    case BeginFailureCleanup(category) =>
      LifecycleState(Stopping, s.generation, Some(category), failed, at, None, NoEvidence)
    case FinishFailureCleanup =>
      LifecycleState(Cooldown, s.generation, s.failure, s.streak, at,
                     if s.streak > 0 then Some(at + FailureBackoff(s.streak)) else None, NoEvidence)
    case ResetFailureStreak =>
      LifecycleState(s.phase, s.generation, None, 0, s.phaseStartedAt, None, NoEvidence)
    case PublishRunning =>
      LifecycleState(Running, s.generation, s.failure, s.streak, at, None, NoEvidence)
    case BeginIdleStop =>
      LifecycleState(Stopping, s.generation, None, 0, at, None, NoEvidence)
    case SetStopping =>
      LifecycleState(Stopping, s.generation, s.failure, s.streak, at, None, NoEvidence)
    case SetStopped =>
      LifecycleState(Stopped, s.generation, s.failure, s.streak, at, None, NoEvidence)
    case BeginReconciliation =>
      LifecycleState(Reconciling, s.generation, s.failure, s.streak, at, s.retryAt, s.evidence)
    case PublishStopped =>
      LifecycleState(Stopped, s.generation, s.failure, s.streak, at, None, NoEvidence)
    case PublishExternal(consume) =>
      LifecycleState(External, if consume then WrappingNext(s.generation) else s.generation,
                     s.failure, s.streak, at, None, Positive)
    case PublishConflict(found, consume) =>
      LifecycleState(Conflict, if consume then WrappingNext(s.generation) else s.generation,
                     s.failure, s.streak, at, None, found)
  }

  /** What the publishing function itself asserts about the value it replaces and stores. */
  predicate Asserted(s: LifecycleState, p: Publication) {
    match p
    case RecordLaunchSuccess => s.phase == Reconciling && s.evidence != Positive
    case RecordLaunchFailure => s.phase == Reconciling && s.evidence != Positive
    case RecordReapedFailure(_) => s.phase in {Starting, Running} && s.evidence == NoEvidence
    case BeginFailureCleanup(_) => s.phase == Starting && s.evidence == NoEvidence
    case FinishFailureCleanup => s.phase == Stopping && s.evidence == NoEvidence
    case ResetFailureStreak => s.phase == Running && s.evidence == NoEvidence
    case PublishRunning => s.phase == Starting && s.evidence == NoEvidence
    case BeginIdleStop => s.phase == Running
    case SetStopping => s.evidence == NoEvidence
    case SetStopped => s.evidence == NoEvidence
    case BeginReconciliation => s.phase in {Stopped, Cooldown, Conflict}
    case PublishStopped => s.phase == Reconciling
    case PublishExternal(_) => s.phase in {Reconciling, External}
    case PublishConflict(found, _) => found != NoEvidence && s.phase in {Reconciling, External}
  }

  /** The narrower situations in which the supervisor's run makes each publication. */
  predicate CallSite(s: LifecycleState, p: Publication) {
    match p
    case RecordLaunchSuccess => s.phase == Reconciling && s.evidence != Positive
    case RecordLaunchFailure => s.phase == Reconciling && s.evidence != Positive
    case RecordReapedFailure(_) => s.phase in {Starting, Running}
    case BeginFailureCleanup(_) => s.phase == Starting
    case FinishFailureCleanup => s.phase == Stopping && s.failure.Some?
    case ResetFailureStreak => s.phase == Running
    case PublishRunning => s.phase == Starting
    case BeginIdleStop => s.phase == Running
    case SetStopping => s.phase in {Starting, Running}
    case SetStopped => s.phase in {Stopping, Cooldown, Stopped}
    case BeginReconciliation => s.phase in {Stopped, Cooldown, Conflict}
    case PublishStopped => s.phase == Reconciling && s.evidence == NoEvidence
    case PublishExternal(consume) => s.phase == Reconciling && (!consume ==> s.evidence == NoEvidence)
    case PublishConflict(found, consume) =>
      && found != NoEvidence
      && (s.evidence == Positive ==> found == Positive)
      && ((s.phase == Reconciling && (!consume ==> s.evidence == NoEvidence)) || (s.phase == External && !consume))
  }

  /** Where the run publishes, neither the publishing function's own assertions nor the
      assertion in `publish` can fail. */
  lemma CallSitesMeetAssertions(s: LifecycleState, p: Publication, at: Instant)
    requires s.InvariantHolds() && CallSite(s, p)
    ensures Asserted(s, p) && Apply(s, p, at).InvariantHolds()
  {
  }

  // ---- The order of phases inside one generation

  /** `earlier` was current at or before the time `current` is, in the same generation. */
  predicate SameGenerationOrder(earlier: LifecycleState, current: LifecycleState) {
    match current.phase
    case Starting => earlier == current
    case Running => earlier.phase in {Starting, Running}
    case Stopping => earlier == current || earlier.phase in {Starting, Running}
    case Cooldown =>
      || earlier == current
      || earlier.phase in {Starting, Running}
      || (earlier.phase == Stopping && earlier.failure == current.failure && earlier.streak == current.streak)
    case Stopped => earlier.phase !in {Conflict, External}
    case Reconciling => current.evidence == NoEvidence ==> earlier.phase !in {Conflict, External}
    case External => earlier.phase != Conflict
    case Conflict => earlier.phase == Conflict ==> earlier == current
  }

  predicate Before(earlier: LifecycleState, current: LifecycleState) {
    || earlier.generation < current.generation
    || (earlier.generation == current.generation && SameGenerationOrder(earlier, current))
  }

  lemma PublishingKeepsOrder(earlier: LifecycleState, s: LifecycleState, p: Publication, at: Instant)
    requires s.InvariantHolds() && Before(earlier, s) && CallSite(s, p)
    requires p.Decides() ==> s.generation + 1 < TWO_64
    ensures Before(earlier, Apply(s, p, at))
    ensures Before(Apply(s, p, at), Apply(s, p, at))
  {
  }

  /** A wake sent on a sample of the current generation is accepted wherever it is listened for,
      except in `Conflict`, where only a sample of that very conflict is. */
  lemma CurrentGenerationWakesAreAccepted(w: WakeRequest, current: LifecycleState)
    requires SendsWake(w.observed.phase)
    requires w.observed.generation == current.generation && Before(w.observed, current)
    ensures current.phase == Stopped ==> w.CanStart(current)
    ensures current.phase == Cooldown && current.failure.Some? ==> w.RequestsRetry(current)
    ensures current.phase == Stopping ==> w.RequestsRestart(current) || w.RequestsRetry(current)
    ensures current.phase == Conflict ==> (w.RequestsConflictReconciliation(current) <==> w.observed.phase == Conflict)
  {
  }
}
