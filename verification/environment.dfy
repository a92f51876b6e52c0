/** The supervisor's environment. A script fixes, for every position of a run, what the outside would do there and how
    it would answer. The supervisor knows nothing about it, and what is proved holds of every script. A run is
    explained by a script if each observation in it is the script's answer at that place: nothing was invented. */
module Environments {
  import opened Wrappers
  import opened Lifecycle
  import opened BackendUse
  import opened Ledgers
  import opened Reconciliation

  datatype ChildStatus = Alive | Exited | WaitFailed

  datatype Script = Script(
    bursts: nat -> nat,                          // how much happens outside before the supervisor goes on
    outside: nat -> Event,
    branch: nat -> Option<Branch>,               // the branch of a `select!` that is ready, timers apart
    probe: nat -> ReconciliationResult,
    reply: nat -> Option<string>,                // to the RCON `list` command, if one arrives in time
    connect: nat -> bool,
    launch: nat -> bool,
    child: nat -> ChildStatus,                   // to `try_wait`
    exits: nat -> bool,                          // whether a completed `wait` gives a status
    obeys: nat -> bool,                          // whether a child that was asked to stop ends in time
    terminates: nat -> bool,
    timely: nat -> bool)                         // whether a terminated child exits in time

  /** The event is the script's answer at the position that the ledger has reached. */
  predicate Answers(script: Script, l: Ledger, e: Event) {
    var position := l.world.length;
    match e
    case Waited =>
      forall b :: b in {ChildBranch, NotifiedBranch, FutureBranch} && Offered(l, b) ==> script.branch(position) != Some(b)
    case Woken(b) =>
      && (b in {ChildBranch, NotifiedBranch, FutureBranch} ==> script.branch(position) == Some(b))
      && (Offered(l, ChildBranch) && script.branch(position) == Some(ChildBranch) ==> b == ChildBranch)
    case WakeDequeued(_) => l.gate.Probing? ==> script.branch(position) != Some(FutureBranch)
    case ProbeCompleted(result) => result == script.probe(position)
    case PlayersPolled(reply) => reply == script.reply(position)
    case FinalCheck(reply) => reply == script.reply(position)
    case ConnectionTried(connected) => connected == script.connect(position)
    case LaunchAttempted(launched) => launched == script.launch(position)
    case ChildAlive => script.child(position) == Alive
    case ChildReaped => script.child(position) == Exited || script.exits(position)
    case ChildErred(WaitErred) => script.child(position) == WaitFailed || !script.exits(position)
    case ChildErred(TerminationErred) => !script.terminates(position)
    case ChildErred(StopOverdue) => !script.timely(position)
    case _ => IsOutside(e) ==> e == script.outside(position)
  }

  /** What the script has next for the outside, if it can happen: a client sends only what it sampled and only into an
      empty slot, and `IdleStop` proves that a session is never counted or ended where the tracker would panic. */
  predicate Happens(l: Ledger, e: Event) {
    match e
    case Elapsed(_, _, _) => true
    case WakeSent(wake) => l.world.slot.None? && !l.world.wakesClosed && ClientSent(l, wake)
    case SessionCounted(cycle) => CanEstablish(l.world.activity, cycle) ==> l.world.activity.value.active < USIZE_MAX
    case SessionEnded(cycle) => CanEstablish(l.world.activity, cycle) ==> l.world.activity.value.active > 0
    case _ => false
  }

  lemma OutsideAnswers(script: Script, l: Ledger, e: Event)
    requires IsOutside(e) && e == script.outside(l.world.length)
    ensures Answers(script, l, e)
  {
  }

  lemma DequeueAnswers(script: Script, l: Ledger, wake: WakeRequest)
    requires l.gate.Probing? ==> script.branch(l.world.length) != Some(FutureBranch)
    ensures Answers(script, l, WakeDequeued(wake))
  {
  }

  ghost predicate Explains(script: Script, start: Ledger, run: seq<Event>) {
    forall k :: 0 <= k < |run| ==> Answers(script, Replay(start, run[..k]), run[k])
  }

  lemma ExplainAnother(script: Script, start: Ledger, run: seq<Event>, e: Event)
    requires Explains(script, start, run) && Answers(script, Replay(start, run), e)
    ensures Explains(script, start, run + [e])
  {
    hide Answers, Replay;
    var longer := run + [e];
    assert longer[..|run|] == run;
    forall k | 0 <= k < |longer|
      ensures Answers(script, Replay(start, longer[..k]), longer[k])
    {
      if k < |run| {
        assert longer[..k] == run[..k];
      }
    }
  }
}
