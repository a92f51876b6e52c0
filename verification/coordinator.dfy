/** The daemon coordinator (src/coordinator.rs): it activates one runtime task a server, and returns only when
    every task it started has been joined, with everything that went wrong. What happens outside, the ends of the
    runtime tasks and of the signal watcher, follows an arbitrary script and may happen at every await; `journal` holds
    it together with what the coordinator does. `fuel` counts the awaits that are observed, as in the supervisor: a cut
    run is a prefix of a longer one. */
module Coordinator {
  import opened Wrappers
  import opened DaemonJournals

  datatype DaemonResult = DaemonOk | DaemonFailed(primary: Failure, additional: seq<Failure>) | DaemonCut

  /** What the daemon should report for the failures recorded in this order. */
  function Report(recorded: seq<Failure>): DaemonResult {
    if recorded == [] then DaemonOk else DaemonFailed(recorded[0], recorded[1..])
  }

  class FatalErrors {
    var primary: Option<Failure>
    var additional: seq<Failure>

    ghost predicate Valid()
      reads this
    {
      primary.None? ==> additional == []
    }

    ghost function Contents(): seq<Failure>
      reads this
    {
      if primary.None? then [] else [primary.value] + additional
    }

    constructor ()
      ensures Valid() && Contents() == []
    {
      primary := None;
      additional := [];
    }

    method Record(error: Failure)
      requires Valid()
      modifies this
      ensures Valid() && Contents() == old(Contents()) + [error]
    {
      if primary.None? {
        primary := Some(error);
      } else {
        additional := additional + [error];
      }
    }

    /** `Shutdown::finish`: the record is taken, and the first failure leads. */
    method Finish() returns (r: DaemonResult)
      requires Valid()
      modifies this
      ensures r == Report(old(Contents())) && Contents() == []
    {
      r := if primary.None? then DaemonOk else DaemonFailed(primary.value, additional);
      primary, additional := None, [];
    }
  }

  ghost predicate Written(script: DaemonScript, journal: seq<Occurrence>, tally: Tally) {
    tally == Account(journal) && Orderly(journal) && Explains(script, journal)
  }

  lemma WriteAnother(script: DaemonScript, journal: seq<Occurrence>, tally: Tally, o: Occurrence)
    requires Written(script, journal, tally) && Possible(tally, o)
    requires IsOutside(o) ==> o == script.outside(|journal|)
    ensures Written(script, journal + [o], Next(tally, o))
  {
    hide Account, Orderly, Next, Possible;
    Extend(journal, o);
  }

  /** The contexts are those of the runtimes that have not been joined. */
  ghost predicate TasksAgree(
    tasks: map<nat, TaskState>, unjoined: set<nat>, contexts: map<nat, nat>, exits: map<nat, bool>, nextTask: nat)
  {
    && (forall t :: t in unjoined <==> t in tasks && !tasks[t].Gone?)
    && contexts.Keys == unjoined && (forall t :: t in unjoined ==> contexts[t] == tasks[t].context)
    && (forall t :: t in exits <==> t in tasks && tasks[t].Ended?)
    && (forall t :: t in exits ==> exits[t] == !tasks[t].panicked)
    && (forall t :: t in tasks ==> t < nextTask)
  }

  lemma UnjoinedTasks(
    tasks: map<nat, TaskState>, unjoined: set<nat>, contexts: map<nat, nat>, exits: map<nat, bool>, nextTask: nat,
    task: nat)
    requires TasksAgree(tasks, unjoined, contexts, exits, nextTask) && task in unjoined
    ensures task in contexts && task in tasks
    ensures tasks[task] == if task in exits then Ended(contexts[task], !exits[task]) else Active(contexts[task])
  {
  }

  lemma ActiveTasks(
    tasks: map<nat, TaskState>, unjoined: set<nat>, contexts: map<nat, nat>, exits: map<nat, bool>, nextTask: nat,
    task: nat, context: nat)
    requires TasksAgree(tasks, unjoined, contexts, exits, nextTask)
    ensures task in unjoined && task !in exits && task in contexts && contexts[task] == context
            <==> task in tasks && tasks[task] == Active(context)
    ensures task in unjoined ==> task in contexts
  {
  }

  lemma FinishedTasks(
    tasks: map<nat, TaskState>, unjoined: set<nat>, contexts: map<nat, nat>, exits: map<nat, bool>, nextTask: nat,
    task: nat)
    requires TasksAgree(tasks, unjoined, contexts, exits, nextTask) && task in exits
    ensures task in unjoined
  {
  }

  lemma TaskEnds(
    tasks: map<nat, TaskState>, unjoined: set<nat>, contexts: map<nat, nat>, exits: map<nat, bool>, nextTask: nat,
    task: nat, panicked: bool)
    requires TasksAgree(tasks, unjoined, contexts, exits, nextTask) && task in contexts && task in unjoined
    ensures TasksAgree(tasks[task := Ended(contexts[task], panicked)], unjoined, contexts, exits[task := !panicked],
                       nextTask)
  {
  }

  lemma TaskJoins(
    tasks: map<nat, TaskState>, unjoined: set<nat>, contexts: map<nat, nat>, exits: map<nat, bool>, nextTask: nat,
    task: nat, context: nat)
    requires TasksAgree(tasks, unjoined, contexts, exits, nextTask) && task in exits
    ensures TasksAgree(tasks[task := Gone(context)], unjoined - {task}, contexts - {task}, exits - {task}, nextTask)
  {
  }

  /** What a join changes in the tally. */
  lemma JoinIsTallied(t: Tally, task: nat, context: nat, panicked: bool)
    requires task in t.tasks && t.tasks[task] == Ended(context, panicked)
    ensures Possible(t, RuntimeJoined(task, context, panicked))
    ensures Next(t, RuntimeJoined(task, context, panicked)) == t.(
      tasks := t.tasks[task := Gone(context)], requested := t.requested || panicked, observed := false,
      allowed := false, failures := t.failures + if panicked then [MonitorPanicked(Some(context))] else [])
  {
  }

  /** What the end of a runtime changes in it. */
  lemma EndIsTallied(t: Tally, task: nat, context: nat, end: RuntimeEnd, delivered: bool)
    requires task in t.tasks && t.tasks[task] == Active(context) && (delivered ==> t.requested)
    ensures Possible(t, RuntimeEnded(task, context, end, delivered))
    ensures
      var verdict := RuntimeVerdict(end, delivered, context);
      Next(t, RuntimeEnded(task, context, end, delivered)) == t.(
        tasks := t.tasks[task := Ended(context, false)], requested := t.requested || verdict.Some?,
        failures := t.failures + if verdict.None? then [] else [verdict.value])
  {
  }

  lemma TaskStarts(
    tasks: map<nat, TaskState>, unjoined: set<nat>, contexts: map<nat, nat>, exits: map<nat, bool>, nextTask: nat,
    context: nat)
    requires TasksAgree(tasks, unjoined, contexts, exits, nextTask)
    ensures nextTask !in tasks
    ensures TasksAgree(tasks[nextTask := Active(context)], unjoined + {nextTask}, contexts[nextTask := context], exits,
                       nextTask + 1)
  {
  }

  lemma AllJoined(
    tasks: map<nat, TaskState>, contexts: map<nat, nat>, exits: map<nat, bool>, nextTask: nat)
    requires TasksAgree(tasks, {}, contexts, exits, nextTask)
    ensures contexts == map[] && forall k :: k in tasks ==> tasks[k].Gone?
  {
  }

  /** What the script has next for the outside, if it can happen. */
  predicate Happens(tally: Tally, o: Occurrence) {
    IsOutside(o) && Possible(tally, o)
  }

  ghost predicate WatcherAgrees(
    end: Watcher, reported: bool,
    watcher: Watcher, observed: bool, reports: nat, failureReceived: bool, closed: bool)
  {
    && watcher == end && (observed <==> watcher == Joined)
    && (reported <==> reports > 0 || failureReceived)
    && (closed ==> watcher != Running)
  }

  class Daemon {
    const script: DaemonScript
    // shared with the tasks
    const failures: FatalErrors
    var pending: bool                    // shutdown has been requested
    var reports: nat                     // watcher failure messages not yet received
    // the tasks
    var watcher: Watcher
    var unjoined: set<nat>
    var exits: map<nat, bool>            // finished monitor tasks: whether without a panic
    // the coordinator's own state
    var contexts: map<nat, nat>
    var infrastructureClosed: bool
    var watcherFailureReceived: bool
    var watcherObserved: bool
    var nextTask: nat
    var fuel: nat
    // history
    var journal: seq<Occurrence>
    ghost var tally: Tally

    /** The real state is what the journal says: in particular, the recorded failures are those of the tally. */
    ghost predicate Valid()
      reads this, failures
    {
      && Written(script, journal, tally)
      && failures.Valid() && failures.Contents() == tally.failures && pending == tally.requested
      && TasksAgree(tally.tasks, unjoined, contexts, exits, nextTask) && nextTask == |tally.activated|
      && WatcherAgrees(tally.watcher, tally.reported,
                       watcher, watcherObserved, reports, watcherFailureReceived, infrastructureClosed)
    }

    constructor (script: DaemonScript, fuel: nat)
      ensures Valid() && fresh(failures) && this.script == script && this.fuel == fuel && journal == []
    {
      this.script := script;
      failures := new FatalErrors();
      pending, reports := false, 0;
      watcher, unjoined, exits := Running, {}, map[];
      contexts := map[];
      infrastructureClosed, watcherFailureReceived, watcherObserved := false, false, false;
      nextTask := 0;
      this.fuel := fuel;
      journal, tally := [], NOTHING;
    }

    method Record(o: Occurrence)
      requires Written(script, journal, tally) && Possible(tally, o)
      requires IsOutside(o) ==> o == script.outside(|journal|)
      modifies `journal, `tally
      ensures Written(script, journal, tally) && journal == old(journal) + [o] && tally == Next(old(tally), o)
    {
      hide Written, Next;
      WriteAnother(script, journal, tally, o);
      journal := journal + [o];
      tally := Next(tally, o);
    }

    /** `Shutdown::fail`. */
    method Fail(error: Failure)
      requires failures.Valid()
      modifies `pending, failures
      ensures failures.Valid() && pending && failures.Contents() == old(failures.Contents()) + [error]
    {
      failures.Record(error);
      pending := true;
    }

    // ---- The tasks

    /** If the script has something for the outside to do here, it has been done. */
    ghost predicate LetsHappen(before: seq<Occurrence>, now: Tally)
      reads this
    {
      script.bursts(|before|) > 0 && Happens(now, script.outside(|before|)) ==>
        |before| < |journal| && journal[|before|] == script.outside(|before|)
    }

    /** As much as the script says happens outside before the coordinator goes on. */
    method Elapse()
      requires Valid()
      modifies `pending, `reports, `watcher, `exits, `journal, `tally, failures
      ensures Valid() && old(journal) <= journal && Undisturbed(old(tally), tally)
      ensures Watched(old(watcher), old(reports), watcher, reports) && LetsHappen(old(journal), old(tally))
    {
      hide Written, TasksAgree, WatcherAgrees, Next;
      var burst := script.bursts(|journal|);
      for i := 0 to burst
        invariant Valid() && old(journal) <= journal && Undisturbed(old(tally), tally)
        invariant Watched(old(watcher), old(reports), watcher, reports)
        invariant if i == 0 then journal == old(journal) && tally == old(tally) else LetsHappen(old(journal), old(tally))
      {
        Outside();
      }
    }

    method Outside()
      requires Valid()
      modifies `pending, `reports, `watcher, `exits, `journal, `tally, failures
      ensures Valid() && old(journal) <= journal && Undisturbed(old(tally), tally)
      ensures Watched(old(watcher), old(reports), watcher, reports)
      ensures journal == old(journal)
        + if Happens(old(tally), script.outside(|old(journal)|)) then [script.outside(|old(journal)|)] else []
    {
      hide Written, TasksAgree, Next;
      var o := script.outside(|journal|);
      match o
      case RuntimeEnded(task, context, end, delivered) =>
        ActiveTasks(tally.tasks, unjoined, contexts, exits, nextTask, task, context);
        if task in unjoined && task !in exits && contexts[task] == context && (delivered ==> pending) {
          EndRuntime(task, context, end, delivered);
        }
      case MonitorDied(task, context) =>
        ActiveTasks(tally.tasks, unjoined, contexts, exits, nextTask, task, context);
        if task in unjoined && task !in exits && contexts[task] == context {
          KillMonitor(task, context);
        }
      case WatcherEnded(exit, dutiful) =>
        if watcher == Running {
          EndWatcher(exit, dutiful);
        }
      case _ =>
    }

    /** A runtime ends, and its monitor judges it and ends too. */
    method EndRuntime(task: nat, context: nat, end: RuntimeEnd, delivered: bool)
      requires Valid() && script.outside(|journal|) == RuntimeEnded(task, context, end, delivered)
      requires task in unjoined && task !in exits && contexts[task] == context && (delivered ==> pending)
      modifies `pending, `exits, `journal, `tally, failures
      ensures Valid() && journal == old(journal) + [RuntimeEnded(task, context, end, delivered)]
      ensures Undisturbed(old(tally), tally)
    {
      hide Written, TasksAgree, WatcherAgrees, Possible, Next;
      UnjoinedTasks(tally.tasks, unjoined, contexts, exits, nextTask, task);
      TaskEnds(tally.tasks, unjoined, contexts, exits, nextTask, task, false);
      EndIsTallied(tally, task, context, end, delivered);
      match end {
        case EndedOk =>
          if !delivered {
            Fail(RuntimeStoppedEarly(context));
          }
        case EndedErr => Fail(RuntimeFailed(context));
        case EndedPanic => Fail(RuntimePanicked(context));
      }
      exits := exits[task := true];
      Record(RuntimeEnded(task, context, end, delivered));
    }

    method KillMonitor(task: nat, context: nat)
      requires Valid() && script.outside(|journal|) == MonitorDied(task, context)
      requires task in unjoined && task !in exits && contexts[task] == context
      modifies `exits, `journal, `tally
      ensures Valid() && journal == old(journal) + [MonitorDied(task, context)] && Undisturbed(old(tally), tally)
    {
      hide Written, TasksAgree, WatcherAgrees, RuntimeVerdict, NothingEnded;
      UnjoinedTasks(tally.tasks, unjoined, contexts, exits, nextTask, task);
      TaskEnds(tally.tasks, unjoined, contexts, exits, nextTask, task, true);
      exits := exits[task := false];
      Record(MonitorDied(task, context));
    }

    /** The watcher ends. A dutiful one has requested shutdown after a signal, or has recorded and reported that its
        listener failed. */
    method EndWatcher(exit: WatcherExit, dutiful: bool)
      requires Valid() && script.outside(|journal|) == WatcherEnded(exit, dutiful) && watcher == Running
      modifies `pending, `reports, `watcher, `journal, `tally, failures
      ensures Valid() && journal == old(journal) + [WatcherEnded(exit, dutiful)]
      ensures Undisturbed(old(tally), tally) && watcher != Running
    {
      hide Written, TasksAgree;
      if dutiful && exit == ShutdownRequested {
        pending := true;
      } else if dutiful && exit == FailureReported {
        Fail(SignalListenerFailed);
        reports := reports + 1;
      }
      watcher := Finished(exit);
      Record(WatcherEnded(exit, dutiful));
    }

    // ---- The coordinator

    method DrainInfrastructure()
      requires Valid()
      modifies `reports, `watcherFailureReceived, `infrastructureClosed
      ensures Valid()
      ensures watcherFailureReceived == (old(watcherFailureReceived) || old(reports) > 0) && reports == 0
      ensures infrastructureClosed == (old(infrastructureClosed) || watcher != Running)
    {
      hide Written, TasksAgree;
      while reports > 0
        invariant Valid()
        invariant reports <= old(reports) && infrastructureClosed == old(infrastructureClosed)
        invariant watcherFailureReceived == (old(watcherFailureReceived) || reports < old(reports))
      {
        reports := reports - 1;
        watcherFailureReceived := true;
      }
      if watcher != Running {
        infrastructureClosed := true;
      }
    }

    /** The watcher's handle has completed with `exit`; completing it twice would panic. */
    method ObserveWatcher(exit: WatcherExit)
      requires Valid() && watcher == Finished(exit) && !watcherObserved
      modifies this, failures
      ensures Valid() && watcherObserved && journal == old(journal) + [WatcherJoined(exit)]
      ensures reports == 0 && infrastructureClosed
      ensures tally == Next(old(tally), WatcherJoined(exit)) && SameTasks(old(tally), tally)
      ensures failures.Contents() == old(failures.Contents()) + match exit
        case ShutdownRequested => if old(pending) then [] else [WatcherDidNotRequestShutdown]
        case FailureReported => if old(watcherFailureReceived) || old(reports) > 0 then [] else [WatcherDidNotReport]
        case Crashed => [WatcherCrashed]
      ensures unjoined == old(unjoined) && fuel == old(fuel) && nextTask == old(nextTask)
    {
      hide Written, TasksAgree;
      DrainInfrastructure();
      JudgeWatcher(exit);
      watcher := Joined;
      watcherObserved := true;
      Record(WatcherJoined(exit));
    }

    /** An end that the watcher has not explained is a failure. */
    method JudgeWatcher(exit: WatcherExit)
      requires failures.Valid()
      modifies `pending, failures
      ensures failures.Valid() && pending == (old(pending) || failures.Contents() != old(failures.Contents()))
      ensures failures.Contents() == old(failures.Contents()) + match exit
        case ShutdownRequested => if old(pending) then [] else [WatcherDidNotRequestShutdown]
        case FailureReported => if watcherFailureReceived then [] else [WatcherDidNotReport]
        case Crashed => [WatcherCrashed]
    {
      match exit {
        case ShutdownRequested =>
          if !pending {
            Fail(WatcherDidNotRequestShutdown);
          }
        case FailureReported =>
          if !watcherFailureReceived {
            Fail(WatcherDidNotReport);
          }
        case Crashed => Fail(WatcherCrashed);
      }
    }

    /** One finished monitor task is joined; a panicked one is reported with its server's context. */
    method ObserveRuntime(task: nat)
      requires Valid() && task in exits
      modifies `pending, `contexts, `exits, `unjoined, `journal, `tally, failures
      ensures Valid() && journal == old(journal) + [RuntimeJoined(task, old(contexts)[task], !old(exits)[task])]
      ensures tally == Next(old(tally), journal[|journal| - 1])
      ensures SameTasks(old(tally), tally) && task in old(unjoined)
      ensures unjoined == old(unjoined) - {task} && contexts == old(contexts) - {task}
      ensures failures.Contents() == old(failures.Contents())
        + if old(exits)[task] then [] else [MonitorPanicked(Some(old(contexts)[task]))]
    {
      hide Written, TasksAgree, WatcherAgrees, Possible, Next;
      FinishedTasks(tally.tasks, unjoined, contexts, exits, nextTask, task);
      UnjoinedTasks(tally.tasks, unjoined, contexts, exits, nextTask, task);
      var context, panicked := contexts[task], !exits[task];
      JoinIsTallied(tally, task, context, panicked);
      TaskJoins(tally.tasks, unjoined, contexts, exits, nextTask, task, context);
      if panicked {
        Fail(MonitorPanicked(if task in contexts then Some(contexts[task]) else None));
      }
      contexts := contexts - {task};
      exits := exits - {task};
      unjoined := unjoined - {task};
      Record(RuntimeJoined(task, context, panicked));
    }

    method ObservePendingEvents()
      requires Valid()
      modifies this, failures
      ensures Valid() && old(journal) <= journal && SameTasks(old(tally), tally)
      ensures unjoined <= old(unjoined) && nextTask == old(nextTask) && fuel == old(fuel)
      ensures tally.observed && journal[|journal| - 1] == Observed && LetsHappen(old(journal), old(tally))
      ensures reports == 0 && (watcher != Running ==> infrastructureClosed)
    {
      hide Written, TasksAgree, Next;
      Elapse();
      DrainInfrastructure();
      if !watcherObserved && watcher.Finished? {
        ObserveWatcher(watcher.exit);
      }
      while exits != map[]
        invariant Valid() && old(journal) <= journal && SameTasks(old(tally), tally)
        invariant unjoined <= old(unjoined) && nextTask == old(nextTask) && fuel == old(fuel)
        invariant !watcher.Finished? && LetsHappen(old(journal), old(tally))
        invariant reports == 0 && (watcher != Running ==> infrastructureClosed)
        decreases unjoined
      {
        var task :| task in exits;
        ObserveRuntime(task);
      }
      NoteObserved();
    }

    method NoteObserved()
      requires Valid() && exits == map[] && !watcher.Finished?
      modifies `journal, `tally
      ensures Valid() && journal == old(journal) + [Observed] && SameTasks(old(tally), tally) && tally.observed
    {
      hide Written;
      Record(Observed);
    }

    /** Whether shutdown is pending; if it is not, one server may be activated, whatever happens meanwhile. */
    method CheckPending() returns (requested: bool)
      requires Valid() && tally.observed
      modifies `pending, `reports, `watcher, `exits, `journal, `tally, failures
      ensures Valid() && old(journal) <= journal && SameTasks(old(tally), tally)
      ensures if requested then pending else tally.allowed
      ensures LetsHappen(old(journal), old(tally))
    {
      hide Written, TasksAgree;
      Elapse();
      if pending {
        return true;
      }
      Record(Checked);
      Elapse();
      requested := false;
    }

    /** A bound server becomes a running task. */
    method SpawnRuntime(context: nat)
      requires Valid() && tally.allowed
      modifies `unjoined, `contexts, `nextTask, `journal, `tally
      ensures Valid() && journal == old(journal) + [Spawned(old(nextTask), context)]
      ensures tally.tasks.Keys == old(tally).tasks.Keys + {old(nextTask)} && old(nextTask) !in old(tally).tasks
      ensures unjoined == old(unjoined) + {old(nextTask)} && contexts == old(contexts)[old(nextTask) := context]
      ensures nextTask == old(nextTask) + 1 && tally.activated == old(tally).activated + [context]
    {
      hide Written, TasksAgree, WatcherAgrees, RuntimeVerdict, NothingEnded;
      var task := nextTask;
      TaskStarts(tally.tasks, unjoined, contexts, exits, nextTask, context);
      unjoined := unjoined + {task};
      contexts := contexts[task := context];
      nextTask := nextTask + 1;
      Record(Spawned(task, context));
    }

    /** Waits until every runtime has been joined. It is cut only while it waits for something that has not happened. */
    method JoinAll() returns (cut: bool)
      requires Valid() && tally.observed
      modifies this, failures
      ensures Valid() && old(journal) <= journal && SameTasks(old(tally), tally)
      ensures if cut then fuel == 0 && journal != [] && journal[|journal| - 1] == Waited else unjoined == {}
      ensures |journal| - |old(journal)| >= old(fuel) - fuel
    {
      hide Written, TasksAgree, WatcherAgrees, Next;
      while unjoined != {}
        invariant Valid() && old(journal) <= journal && SameTasks(old(tally), tally)
        invariant fuel <= old(fuel) && |journal| - |old(journal)| >= old(fuel) - fuel
        decreases fuel, unjoined, watcher == Running, reports, !infrastructureClosed, !watcherObserved
      {
        var waited := AwaitAny();
        if waited {
          if fuel == 0 {
            return true;
          }
          fuel := fuel - 1;
        }
      }
      cut := false;
    }

    /** One biased `select!`: a watcher report or its channel's end, then the watcher itself, then a finished runtime. */
    method AwaitAny() returns (waited: bool)
      requires Valid()
      modifies this, failures
      ensures Valid() && old(journal) <= journal && SameTasks(old(tally), tally) && fuel == old(fuel)
      ensures waited ==> old(journal) < journal && journal[|journal| - 1] == Waited
      ensures LetsHappen(old(journal), old(tally))
      ensures unjoined < old(unjoined) || unjoined == old(unjoined)
      ensures watcher == Running ==> old(watcher) == Running
      ensures unjoined == old(unjoined) && !waited && (watcher == Running <==> old(watcher) == Running) ==>
        || reports < old(reports)
        || (reports == old(reports) && infrastructureClosed && !old(infrastructureClosed))
        || (reports == old(reports) && infrastructureClosed == old(infrastructureClosed)
            && watcherObserved && !old(watcherObserved))
    {
      hide Written, TasksAgree, Next;
      waited := false;
      Elapse();
      if !infrastructureClosed && reports > 0 {
        reports := reports - 1;
        watcherFailureReceived := true;
      } else if !infrastructureClosed && watcher != Running {
        infrastructureClosed := true;
      } else if !watcherObserved && watcher.Finished? {
        ObserveWatcher(watcher.exit);
      } else if exits != map[] {
        var task :| task in exits;
        ObserveRuntime(task);
      } else {
        Wait();
        waited := true;
      }
    }

    method Wait()
      requires Valid() && exits == map[] && !watcher.Finished?
      modifies `journal, `tally
      ensures Valid() && journal == old(journal) + [Waited] && SameTasks(old(tally), tally)
    {
      hide Written;
      Record(Waited);
    }

    /** The watcher is joined if it has ended, and otherwise cancelled first. */
    method JoinWatcher()
      requires Valid() && unjoined == {}
      modifies this, failures
      ensures Valid() && old(journal) <= journal && SameTasks(old(tally), tally)
      ensures watcherObserved && unjoined == {}
    {
      hide Written, TasksAgree, Next;
      DrainInfrastructure();
      if !watcherObserved && (watcher.Finished? || infrastructureClosed) {
        ObserveWatcher(watcher.exit);
      }
      if !watcherObserved {
        Elapse();                        // the watcher may still end by itself before the abort reaches it
        if watcher == Running {
          CancelWatcher();
        } else {
          ObserveWatcher(watcher.exit);
        }
      }
    }

    method CancelWatcher()
      requires Valid() && watcher == Running && unjoined == {}
      modifies `watcher, `watcherObserved, `journal, `tally
      ensures Valid() && watcherObserved && journal == old(journal) + [WatcherCancelled]
      ensures SameTasks(old(tally), tally)
    {
      hide Written, TasksAgree;
      AllJoined(tally.tasks, contexts, exits, nextTask);
      watcher := Joined;
      watcherObserved := true;
      Record(WatcherCancelled);
    }

    /** Servers are activated one by one, in their order, until shutdown is requested. */
    method Activate(servers: seq<nat>)
      requires Valid() && Activated(journal) == []
      modifies this, failures
      ensures Valid() && old(journal) <= journal && fuel == old(fuel)
      ensures Activated(journal) <= servers && (!pending ==> Activated(journal) == servers)
    {
      hide Written, TasksAgree, WatcherAgrees, Next, Activated;
      WrittenMeans(script, journal, tally);
      var i := 0;
      while i < |servers|
        invariant 0 <= i <= |servers| && Valid() && old(journal) <= journal && fuel == old(fuel)
        invariant tally.activated == servers[..i]
      {
        ObservePendingEvents();
        var requested := CheckPending();
        if requested {
          break;
        }
        SpawnRuntime(servers[i]);
        i := i + 1;
      }
      WrittenMeans(script, journal, tally);
    }

    /** Runs one daemon over the bound servers. When it returns, each of them has been activated once and in their
        order, unless shutdown was requested; the journal is orderly and complete: every activated runtime and the
        watcher have been joined, and no context is left over. The result is the report of exactly the failures for
        which something in the journal is to blame, the first one first. */
    method ActivateAndRun(servers: seq<nat>) returns (r: DaemonResult)
      requires Valid() && journal == []
      modifies this, failures
      ensures Orderly(journal) && Explains(script, journal)
      ensures Activated(journal) <= servers
      ensures !Account(journal).requested ==> Activated(journal) == servers
      ensures r == DaemonCut ==> fuel == 0 && |journal| >= old(fuel) && journal != [] && journal[|journal| - 1] == Waited
      ensures r != DaemonCut ==>
        Complete(Account(journal)) && unjoined == {} && contexts == map[] && r == Report(Account(journal).failures)
    {
      hide Written, TasksAgree, Account, Orderly, Explains;
      Activate(servers);
      WrittenMeans(script, journal, tally);
      ObservePendingEvents();
      var cut := JoinAll();
      WrittenMeans(script, journal, tally);
      if cut {
        return DaemonCut;
      }
      JoinWatcher();
      WrittenMeans(script, journal, tally);
      AllJoined(tally.tasks, contexts, exits, nextTask);
      DrainInfrastructure();
      r := failures.Finish();
    }
  }

  lemma WrittenMeans(script: DaemonScript, journal: seq<Occurrence>, tally: Tally)
    requires Written(script, journal, tally)
    ensures tally == Account(journal) && Orderly(journal) && Explains(script, journal)
    ensures tally.activated == Activated(journal)
  {
    ActivatedAsAccounted(journal);
  }

  /** No task has been started, and shutdown stays requested. */
  ghost predicate SameTasks(before: Tally, after: Tally) {
    && after.tasks.Keys == before.tasks.Keys && after.activated == before.activated
    && (before.requested ==> after.requested)
  }

  /** Only the end of the watcher makes another report. */
  predicate Watched(before: Watcher, reportsBefore: nat, after: Watcher, reportsAfter: nat) {
    (after == before && reportsAfter == reportsBefore) || (before == Running && after != Running)
  }

  /** What happens outside does not disturb an activation that was allowed either. */
  ghost predicate Undisturbed(before: Tally, after: Tally) {
    SameTasks(before, after) && (before.allowed ==> after.allowed) && (before.observed ==> after.observed)
  }

  /** The report loses nothing and invents nothing: it can be turned back into the recorded failures. */
  lemma ReportIsLossless(a: seq<Failure>, b: seq<Failure>)
    requires Report(a) == Report(b)
    ensures a == b
  {
    if a != [] && b != [] {
      assert a == [a[0]] + a[1..] && b == [b[0]] + b[1..];
    }
  }
}
