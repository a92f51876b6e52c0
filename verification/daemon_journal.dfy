/** What happens in one daemon (src/coordinator.rs), as a sequence of occurrences: the ends of the tasks it started,
    and what the coordinator did about them. The tally is what a prefix of the journal determines, and with it every
    failure that must have been recorded. The coordinator proves that its journals are orderly. */
module DaemonJournals {
  import opened Wrappers

  /** A daemon failure; texts are kept only as far as they tell failures apart. */
  datatype Failure =
    | SignalListenerFailed
    | WatcherDidNotRequestShutdown
    | WatcherDidNotReport
    | WatcherCrashed
    | RuntimeStoppedEarly(context: nat)
    | RuntimeFailed(context: nat)
    | RuntimePanicked(context: nat)
    | MonitorPanicked(server: Option<nat>)

  datatype WatcherExit = ShutdownRequested | FailureReported | Crashed

  datatype Watcher = Running | Finished(exit: WatcherExit) | Joined

  /** How one complete runtime ends, as its monitor task sees it. */
  datatype RuntimeEnd = EndedOk | EndedErr | EndedPanic

  /** `spawn_runtime`: only a clean end after shutdown was delivered is not a failure. */
  function RuntimeVerdict(end: RuntimeEnd, shutdownDelivered: bool, context: nat): Option<Failure> {
    match end
    case EndedOk => if shutdownDelivered then None else Some(RuntimeStoppedEarly(context))
    case EndedErr => Some(RuntimeFailed(context))
    case EndedPanic => Some(RuntimePanicked(context))
  }

  datatype Occurrence =
    // outside: a runtime ends and its monitor judges it, or the monitor itself panics; the watcher ends, and if it is
    // dutiful it has requested shutdown, or failed and reported that, before
    | RuntimeEnded(task: nat, context: nat, end: RuntimeEnd, delivered: bool)
    | MonitorDied(task: nat, context: nat)
    | WatcherEnded(exit: WatcherExit, dutiful: bool)
    // the coordinator
    | Observed                           // everything that had ended has been joined
    | Checked                            // shutdown was not pending
    | Spawned(task: nat, context: nat)
    | Waited                             // nothing has ended that was not joined
    | RuntimeJoined(task: nat, context: nat, panicked: bool)
    | WatcherJoined(exit: WatcherExit)
    | WatcherCancelled

  predicate IsOutside(o: Occurrence) {
    o.RuntimeEnded? || o.MonitorDied? || o.WatcherEnded?
  }

  datatype TaskState = Active(context: nat) | Ended(context: nat, panicked: bool) | Gone(context: nat)

  datatype Tally = Tally(
    tasks: map<nat, TaskState>,
    activated: seq<nat>,                 // the contexts of the started tasks, in their order
    watcher: Watcher,
    requested: bool,                     // shutdown has been requested
    reported: bool,                      // the watcher has reported its failure
    observed: bool,                      // the last thing the coordinator did was to join what had ended
    allowed: bool,                       // the last thing the coordinator did was to find shutdown not pending
    failures: seq<Failure>)

  const NOTHING: Tally := Tally(map[], [], Running, false, false, false, false, [])

  /** The failures for which an occurrence is to blame: one or none. */
  function Blame(t: Tally, o: Occurrence): (failures: seq<Failure>)
    ensures |failures| <= 1
  {
    match o
    case RuntimeEnded(_, context, end, delivered) =>
      var verdict := RuntimeVerdict(end, delivered, context);
      if verdict.None? then [] else [verdict.value]
    case WatcherEnded(exit, dutiful) => if dutiful && exit == FailureReported then [SignalListenerFailed] else []
    case RuntimeJoined(_, context, panicked) => if panicked then [MonitorPanicked(Some(context))] else []
    case WatcherJoined(ShutdownRequested) => if t.requested then [] else [WatcherDidNotRequestShutdown]
    case WatcherJoined(FailureReported) => if t.reported then [] else [WatcherDidNotReport]
    case WatcherJoined(Crashed) => [WatcherCrashed]
    case _ => []
  }

  predicate Requests(t: Tally, o: Occurrence) {
    o == WatcherEnded(ShutdownRequested, true) || Blame(t, o) != []
  }

  predicate Complete(t: Tally) {
    t.watcher == Joined && forall k :: k in t.tasks ==> t.tasks[k].Gone?
  }

  /** What has ended has been joined. */
  predicate NothingEnded(t: Tally) {
    !t.watcher.Finished? && forall k :: k in t.tasks ==> !t.tasks[k].Ended?
  }

  predicate Possible(t: Tally, o: Occurrence) {
    match o
    case RuntimeEnded(task, context, _, delivered) =>
      task in t.tasks && t.tasks[task] == Active(context) && (delivered ==> t.requested)
    case MonitorDied(task, context) => task in t.tasks && t.tasks[task] == Active(context)
    case WatcherEnded(_, _) => t.watcher == Running
    case Observed => NothingEnded(t)
    case Checked => !t.requested && t.observed
    case Spawned(task, _) => task !in t.tasks && task == |t.activated| && t.allowed
    case RuntimeJoined(task, context, panicked) => task in t.tasks && t.tasks[task] == Ended(context, panicked)
    case WatcherJoined(exit) => t.watcher == Finished(exit)
    case Waited => NothingEnded(t)
    case WatcherCancelled => t.watcher == Running && forall k :: k in t.tasks ==> t.tasks[k].Gone?
  }

  function NextTasks(tasks: map<nat, TaskState>, o: Occurrence): map<nat, TaskState> {
    match o
    case RuntimeEnded(task, context, _, _) => tasks[task := Ended(context, false)]
    case MonitorDied(task, context) => tasks[task := Ended(context, true)]
    case Spawned(task, context) => tasks[task := Active(context)]
    case RuntimeJoined(task, context, _) => tasks[task := Gone(context)]
    case _ => tasks
  }

  function NextWatcher(watcher: Watcher, o: Occurrence): Watcher {
    match o
    case WatcherEnded(exit, _) => Finished(exit)
    case WatcherJoined(_) => Joined
    case WatcherCancelled => Joined
    case _ => watcher
  }

  function Next(t: Tally, o: Occurrence): Tally {
    Tally(
      NextTasks(t.tasks, o),
      if o.Spawned? then t.activated + [o.context] else t.activated,
      NextWatcher(t.watcher, o),
      t.requested || Requests(t, o),
      t.reported || o == WatcherEnded(FailureReported, true),
      o.Observed? || (t.observed && IsOutside(o)),
      o.Checked? || (t.allowed && IsOutside(o)),
      t.failures + Blame(t, o))
  }

  // ---- Journals

  function Account(journal: seq<Occurrence>): Tally
    decreases |journal|
  {
    if journal == [] then NOTHING else Next(Account(journal[..|journal| - 1]), journal[|journal| - 1])
  }

  predicate Orderly(journal: seq<Occurrence>)
    decreases |journal|
  {
    journal != [] ==>
      && Orderly(journal[..|journal| - 1])
      && Possible(Account(journal[..|journal| - 1]), journal[|journal| - 1])
  }

  lemma Extend(journal: seq<Occurrence>, o: Occurrence)
    ensures Account(journal + [o]) == Next(Account(journal), o)
    ensures Orderly(journal + [o]) <==> Orderly(journal) && Possible(Account(journal), o)
  {
    assert (journal + [o])[..|journal|] == journal;
  }

  lemma {:induction false} PrefixOrderly(journal: seq<Occurrence>, n: nat)
    requires Orderly(journal) && n < |journal|
    ensures Orderly(journal[..n]) && Possible(Account(journal[..n]), journal[n])
    ensures Account(journal[..n + 1]) == Next(Account(journal[..n]), journal[n])
    decreases |journal|
  {
    hide Next, Possible;
    if n + 1 == |journal| {
      assert journal[..n + 1] == journal;
    } else {
      var shorter := journal[..|journal| - 1];
      PrefixOrderly(shorter, n);
      assert shorter[..n] == journal[..n] && shorter[..n + 1] == journal[..n + 1];
    }
  }

  /** What the outside would do at each position of the journal, unknown to the coordinator. */
  datatype DaemonScript = DaemonScript(bursts: nat -> nat, outside: nat -> Occurrence)

  ghost predicate Explains(script: DaemonScript, journal: seq<Occurrence>) {
    forall k :: 0 <= k < |journal| && IsOutside(journal[k]) ==> journal[k] == script.outside(k)
  }

  // ---- Failures

  /** How often an occurrence of the journal is to blame for `f`. */
  function CountBlaming(journal: seq<Occurrence>, f: Failure): nat
    decreases |journal|
  {
    if journal == [] then 0
    else
      var n := |journal| - 1;
      CountBlaming(journal[..n], f) + (if Blame(Account(journal[..n]), journal[n]) == [f] then 1 else 0)
  }

  /** The recorded failures are, as often as each, exactly those that something in the journal is to blame for. */
  lemma {:induction false} FailuresAreExact(journal: seq<Occurrence>, f: Failure)
    ensures multiset(Account(journal).failures)[f] == CountBlaming(journal, f)
    decreases |journal|
  {
    hide Blame, NextTasks, NextWatcher, Requests;
    if journal != [] {
      var n := |journal| - 1;
      FailuresAreExact(journal[..n], f);
      OneMoreFailure(Account(journal[..n]).failures, Blame(Account(journal[..n]), journal[n]), f);
    }
  }

  lemma OneMoreFailure(before: seq<Failure>, blame: seq<Failure>, f: Failure)
    requires |blame| <= 1
    ensures multiset(before + blame)[f] == multiset(before)[f] + (if blame == [f] then 1 else 0)
  {
    assert multiset(before + blame) == multiset(before) + multiset(blame);
    assert blame == [] || blame == [blame[0]];
  }

  predicate BlamelessAt(journal: seq<Occurrence>, i: nat)
    requires i < |journal|
  {
    Blame(Account(journal[..i]), journal[i]) == []
  }

  lemma CleanStep(journal: seq<Occurrence>)
    requires journal != []
    ensures
      var n := |journal| - 1;
      && Account(journal) == Next(Account(journal[..n]), journal[n])
      && (Account(journal).failures == [] <==> Account(journal[..n]).failures == [] && BlamelessAt(journal, n))
  {
    hide Blame, Requests;
  }

  lemma BlameOfPrefix(journal: seq<Occurrence>, n: nat, i: nat)
    requires i < n <= |journal|
    ensures BlamelessAt(journal[..n], i) <==> BlamelessAt(journal, i)
  {
    hide Blame, Account;
    assert journal[..n][..i] == journal[..i] && journal[..n][i] == journal[i];
  }

  /** Nothing is recorded exactly if nothing was to blame. */
  lemma {:induction false} CleanMeansBlameless(journal: seq<Occurrence>)
    ensures Account(journal).failures == [] <==> forall i :: 0 <= i < |journal| ==> BlamelessAt(journal, i)
    decreases |journal|
  {
    hide BlamelessAt, Blame, Next;
    if journal != [] {
      hide Account;
      var n := |journal| - 1;
      CleanMeansBlameless(journal[..n]);
      CleanStep(journal);
      forall i | 0 <= i < n
        ensures BlamelessAt(journal[..n], i) <==> BlamelessAt(journal, i)
      {
        BlameOfPrefix(journal, n, i);
      }
    }
  }

  /** No prefix of a clean journal is to blame for anything either. */
  lemma {:induction false} CleanPrefix(journal: seq<Occurrence>, n: nat)
    requires n <= |journal| && Account(journal).failures == []
    ensures Account(journal[..n]).failures == []
    decreases |journal|
  {
    hide Account;
    if n == |journal| {
      assert journal[..n] == journal;
    } else {
      var last := |journal| - 1;
      CleanStep(journal);
      CleanPrefix(journal[..last], n);
      assert journal[..last][..n] == journal[..n];
    }
  }

  // ---- Every task, once

  predicate Ends(o: Occurrence, task: nat) {
    (o.RuntimeEnded? || o.MonitorDied?) && o.task == task
  }

  function CountSpawned(journal: seq<Occurrence>, task: nat): nat
    decreases |journal|
  {
    if journal == [] then 0
    else
      var o := journal[|journal| - 1];
      CountSpawned(journal[..|journal| - 1], task) + (if o.Spawned? && o.task == task then 1 else 0)
  }

  function CountEnded(journal: seq<Occurrence>, task: nat): nat
    decreases |journal|
  {
    if journal == [] then 0
    else CountEnded(journal[..|journal| - 1], task) + (if Ends(journal[|journal| - 1], task) then 1 else 0)
  }

  function CountJoined(journal: seq<Occurrence>, task: nat): nat
    decreases |journal|
  {
    if journal == [] then 0
    else
      var o := journal[|journal| - 1];
      CountJoined(journal[..|journal| - 1], task) + (if o.RuntimeJoined? && o.task == task then 1 else 0)
  }

  lemma {:induction false} TasksAreCounted(journal: seq<Occurrence>, task: nat)
    requires Orderly(journal)
    ensures
      var tasks := Account(journal).tasks;
      && CountSpawned(journal, task) == (if task in tasks then 1 else 0)
      && CountEnded(journal, task) == (if task in tasks && !tasks[task].Active? then 1 else 0)
      && CountJoined(journal, task) == (if task in tasks && tasks[task].Gone? then 1 else 0)
    decreases |journal|
  {
    if journal != [] {
      TasksAreCounted(journal[..|journal| - 1], task);
    }
  }

  /** When a daemon is complete, each task that was started has ended once and been joined once; no other has. */
  lemma CompleteDaemonsJoinAll(journal: seq<Occurrence>, task: nat)
    requires Orderly(journal) && Complete(Account(journal))
    ensures CountSpawned(journal, task) == CountEnded(journal, task) == CountJoined(journal, task) <= 1
  {
    TasksAreCounted(journal, task);
  }

  // ---- Which servers

  /** The contexts with which tasks were started, in the journal's order. */
  function Activated(journal: seq<Occurrence>): seq<nat>
    decreases |journal|
  {
    if journal == [] then []
    else
      var o := journal[|journal| - 1];
      Activated(journal[..|journal| - 1]) + (if o.Spawned? then [o.context] else [])
  }

  lemma {:induction false} ActivatedAsAccounted(journal: seq<Occurrence>)
    ensures Account(journal).activated == Activated(journal)
    decreases |journal|
  {
    if journal != [] {
      ActivatedAsAccounted(journal[..|journal| - 1]);
    }
  }

  predicate TasksAreServers(t: Tally) {
    forall k :: k in t.tasks ==> k < |t.activated| && t.tasks[k].context == t.activated[k]
  }

  lemma TasksAreServersStep(t: Tally, o: Occurrence)
    requires TasksAreServers(t) && Possible(t, o)
    ensures TasksAreServers(Next(t, o)) && t.activated <= Next(t, o).activated
  {
  }

  lemma {:induction false} TasksKeepTheirServer(journal: seq<Occurrence>)
    requires Orderly(journal)
    ensures TasksAreServers(Account(journal))
    decreases |journal|
  {
    if journal != [] {
      var shorter := journal[..|journal| - 1];
      TasksKeepTheirServer(shorter);
      TasksAreServersStep(Account(shorter), journal[|journal| - 1]);
    }
  }

  lemma {:induction false} ActivatedOnlyGrows(journal: seq<Occurrence>, n: nat)
    requires n <= |journal|
    ensures Activated(journal[..n]) <= Activated(journal)
    decreases |journal|
  {
    if n == |journal| {
      assert journal[..n] == journal;
    } else {
      var shorter := journal[..|journal| - 1];
      ActivatedOnlyGrows(shorter, n);
      assert shorter[..n] == journal[..n];
    }
  }

  /** Whatever happens to the k-th task is put down to the k-th activated server, so that a failure of its runtime or
      of its monitor names that server and no other. */
  lemma OccurrencesNameTheirServer(journal: seq<Occurrence>, n: nat)
    requires Orderly(journal) && n < |journal|
    requires journal[n].RuntimeEnded? || journal[n].MonitorDied? || journal[n].RuntimeJoined?
    ensures journal[n].task < |Activated(journal)| && journal[n].context == Activated(journal)[journal[n].task]
  {
    PrefixOrderly(journal, n);
    TasksKeepTheirServer(journal[..n]);
    ActivatedAsAccounted(journal[..n]);
    ActivatedOnlyGrows(journal, n);
  }

  // ---- What a clean result means

  /** A signal has been received, and the watcher has requested shutdown. */
  predicate Signalled(journal: seq<Occurrence>) {
    exists k :: 0 <= k < |journal| && journal[k] == WatcherEnded(ShutdownRequested, true)
  }

  predicate CleanFacts(journal: seq<Occurrence>, t: Tally) {
    && (t.requested <==> Signalled(journal)) && !t.reported
    && (forall i :: 0 <= i < |journal| && journal[i].MonitorDied? ==>
          journal[i].task in t.tasks && t.tasks[journal[i].task].Ended? && t.tasks[journal[i].task].panicked)
  }

  lemma SignalledNext(journal: seq<Occurrence>, o: Occurrence)
    ensures Signalled(journal + [o]) <==> Signalled(journal) || o == WatcherEnded(ShutdownRequested, true)
  {
    var longer := journal + [o];
    if Signalled(journal) {
      var k :| 0 <= k < |journal| && journal[k] == WatcherEnded(ShutdownRequested, true);
      assert longer[k] == journal[k];
    }
    assert longer[|journal|] == o;
  }

  lemma CleanFactsStep(journal: seq<Occurrence>, t: Tally, o: Occurrence)
    requires CleanFacts(journal, t) && Possible(t, o) && Blame(t, o) == []
    ensures CleanFacts(journal + [o], Next(t, o))
  {
    SignalledNext(journal, o);
    assert forall i :: 0 <= i < |journal| ==> (journal + [o])[i] == journal[i];
  }

  lemma {:induction false} CleanJournals(journal: seq<Occurrence>)
    requires Orderly(journal) && Account(journal).failures == []
    ensures CleanFacts(journal, Account(journal))
    decreases |journal|
  {
    hide Next, Blame, Possible, CleanFacts;
    if journal == [] {
      NothingIsClean();
    } else {
      var n := |journal| - 1;
      var shorter := journal[..n];
      CleanStep(journal);
      CleanJournals(shorter);
      CleanFactsStep(shorter, Account(shorter), journal[n]);
      assert shorter + [journal[n]] == journal;
    }
  }

  lemma NothingIsClean()
    ensures CleanFacts([], Account([]))
  {
  }

  /** A complete daemon that recorded nothing: no monitor panicked, every runtime ended without error and only after
      a signal had requested shutdown, and the watcher was joined after such a signal or was cancelled. */
  lemma CleanDaemons(journal: seq<Occurrence>, i: nat)
    requires Orderly(journal) && Complete(Account(journal)) && Account(journal).failures == [] && i < |journal|
    ensures !journal[i].MonitorDied?
    ensures journal[i].RuntimeEnded? ==>
      journal[i].end == EndedOk && journal[i].delivered && Signalled(journal[..i])
    ensures journal[i].WatcherJoined? ==> journal[i].exit == ShutdownRequested && Signalled(journal[..i])
  {
    hide Account, Orderly, Next, Signalled;
    CleanJournals(journal);
    CleanMeansBlameless(journal);
    PrefixOrderly(journal, i);
    CleanPrefix(journal, i);
    CleanJournals(journal[..i]);
    assert BlamelessAt(journal, i);
  }

  // ---- Activation

  /** The last thing that the coordinator did. */
  predicate LastOwn(journal: seq<Occurrence>, o: Occurrence, at: nat) {
    && at < |journal| && journal[at] == o
    && forall k :: at < k < |journal| ==> IsOutside(journal[k])
  }

  lemma {:induction false} AllowedMeansChecked(journal: seq<Occurrence>) returns (c: nat)
    requires Orderly(journal) && Account(journal).allowed
    ensures LastOwn(journal, Checked, c)
    decreases |journal|
  {
    var n := |journal| - 1;
    if journal[n] == Checked {
      c := n;
    } else {
      c := AllowedMeansChecked(journal[..n]);
      assert forall k :: 0 <= k < n ==> journal[..n][k] == journal[k];
    }
  }

  lemma {:induction false} ObservedMeansJoined(journal: seq<Occurrence>) returns (o: nat)
    requires Orderly(journal) && Account(journal).observed
    ensures LastOwn(journal, Observed, o)
    decreases |journal|
  {
    var n := |journal| - 1;
    if journal[n] == Observed {
      o := n;
    } else {
      o := ObservedMeansJoined(journal[..n]);
      assert forall k :: 0 <= k < n ==> journal[..n][k] == journal[k];
    }
  }

  /** Before each activation, and with nothing in between but what happens outside, everything that had ended was
      joined, and then a check of its own found that shutdown was not requested. */
  lemma ActivationsAreChecked(journal: seq<Occurrence>, n: nat) returns (o: nat, c: nat)
    requires Orderly(journal) && n < |journal| && journal[n].Spawned?
    ensures o < c < n && journal[o] == Observed && NothingEnded(Account(journal[..o]))
    ensures journal[c] == Checked && !Account(journal[..c]).requested
    ensures forall k :: o < k < n && k != c ==> IsOutside(journal[k])
  {
    hide Account, Orderly, Next, NothingEnded;
    PrefixOrderly(journal, n);
    c := AllowedMeansChecked(journal[..n]);
    assert forall k :: 0 <= k < n ==> journal[..n][k] == journal[k];
    PrefixOrderly(journal, c);
    o := ObservedMeansJoined(journal[..c]);
    assert forall k :: 0 <= k < c ==> journal[..c][k] == journal[k];
    PrefixOrderly(journal, o);
  }

  // ---- The watcher

  predicate Dutiful(journal: seq<Occurrence>) {
    forall i :: 0 <= i < |journal| && journal[i].WatcherEnded? ==> journal[i].dutiful
  }

  predicate Explained(t: Tally) {
    && (t.watcher == Finished(ShutdownRequested) ==> t.requested)
    && (t.watcher == Finished(FailureReported) ==> t.reported)
    && WatcherDidNotRequestShutdown !in t.failures && WatcherDidNotReport !in t.failures
  }

  lemma DutyIsKept(t: Tally, o: Occurrence)
    requires Explained(t) && Possible(t, o) && (o.WatcherEnded? ==> o.dutiful)
    ensures Explained(Next(t, o))
  {
    hide NothingEnded;
  }

  /** The watcher of the program always does its duty before it ends, and then neither of the two failures that tell
      of an unexplained end can be recorded. */
  lemma {:induction false} DutifulWatchersExplainThemselves(journal: seq<Occurrence>)
    requires Orderly(journal) && Dutiful(journal)
    ensures
      var t := Account(journal);
      && (t.watcher == Finished(ShutdownRequested) ==> t.requested)
      && (t.watcher == Finished(FailureReported) ==> t.reported)
      && WatcherDidNotRequestShutdown !in t.failures && WatcherDidNotReport !in t.failures
    decreases |journal|
  {
    hide Next, Possible;
    if journal != [] {
      var n := |journal| - 1;
      assert forall i :: 0 <= i < n ==> journal[..n][i] == journal[i];
      DutifulWatchersExplainThemselves(journal[..n]);
      DutyIsKept(Account(journal[..n]), journal[n]);
    }
  }
}
