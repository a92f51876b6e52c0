/** The idle-stop protocol: one lawful supervisor run interleaved, step by step, with any number of client tasks
    (src/runtime.rs), which share with it the lifecycle value, the activity tracker and the backend-use gate. */
module IdleStop {
  import opened Wrappers
  import opened Lifecycle
  import opened BackendUse
  import opened Ledgers
  import opened PlayerCount

  const MAX_PERMITS: nat := USIZE_MAX / 8    // of a semaphore, and the most that the configuration accepts

  /** Where a client that sampled `Running` is in `proxy_owned_connection`. */
  datatype ClientPc =
    | Waiting         // for the shared lease
    | Leased          // first check of the cycle still to come
    | Connecting
    | Connected       // second check still to come
    | MayReplay
    | Replaying       // writing the handshake to the backend
    | Replayed        // third check still to come
    | MayEstablish
    | InSession       // a counted Login or Transfer session
    | Dropping        // no longer counted, lease not yet released
    | Streaming       // a Status or unknown connection, without a lease
    | Gone

  datatype Client = Client(
    pc: ClientPc,
    sampled: LifecycleState,
    counted: bool,                   // Login or Transfer intent
    established: Option<Instant>,    // when its session was counted
    ended: Option<Instant>)          // when its session was dropped
  {
    function Cycle(): u64 {
      sampled.generation
    }

    predicate InSessionOf(cycle: u64) {
      pc == InSession && Cycle() == cycle
    }

    predicate HoldsLease() {
      pc !in {Waiting, Streaming, Gone}
    }

    /** The counted session was live at instant `t`, its last instant included. */
    predicate LiveAt(t: Instant) {
      established.Some? && established.value <= t && (ended.Some? ==> t <= ended.value)
    }
  }

  /** One observation of the player count, for the history only. */
  datatype Poll = Poll(cycle: u64, at: Instant, reply: Option<string>)

  datatype State = State(
    permits: nat,
    ledger: Ledger,
    authority: bool,                 // the supervisor task still runs
    clients: map<nat, Client>,
    polls: seq<Poll>)

  datatype ClientStep =
    | Arrive(counts: bool)
    | AcquireLease
    | CheckCycle
    | Connect
    | StartReplay
    | FinishReplay
    | Establish
    | EndSession
    | ReleaseLease
    | Fail

  datatype Action =
    | Supervise(event: Event)
    | AuthorityStops
    | Act(id: nat, step: ClientStep)

  function Now(s: State): Instant {
    s.ledger.world.now
  }

  /** The activity tracker. */
  function Tracked(s: State): Option<Activity> {
    s.ledger.world.activity
  }

  predicate NoLeases(s: State) {
    forall k :: k in s.clients ==> !s.clients[k].HoldsLease()
  }

  predicate ExclusiveHeld(s: State) {
    s.authority && HoldsExclusive(s.ledger.watch)
  }

  /** Clients that hold a connection permit. */
  function Live(clients: map<nat, Client>): set<nat> {
    set k | k in clients && clients[k].pc != Gone
  }

  /** The live counted sessions of one cycle. */
  function Sessions(clients: map<nat, Client>, cycle: u64): set<nat> {
    set k | k in clients && clients[k].InSessionOf(cycle)
  }

  /** `ensure_current_owned_cycle`. */
  predicate CycleIsCurrent(s: State, c: Client) {
    s.authority && s.ledger.book.current.OwnedRunningCycle() == Some(c.Cycle())
  }

  /** A read/write lock excludes readers from a writer, and only the clients' own steps count and end sessions. */
  predicate SharedOk(s: State, e: Event) {
    && (e.ExclusiveAcquired? ==> NoLeases(s))
    && !e.SessionCounted? && !e.SessionEnded?
  }

  predicate ClientEnabled(s: State, id: nat, step: ClientStep) {
    if step.Arrive? then
      id !in s.clients && s.ledger.book.current.phase == Running && |Live(s.clients)| < s.permits
    else
      && id in s.clients
      && var pc := s.clients[id].pc;
         match step
         case AcquireLease => pc == Waiting && !ExclusiveHeld(s)
         case CheckCycle => pc in {Leased, Connected, Replayed}
         case Connect => pc == Connecting
         case StartReplay => pc == MayReplay
         case FinishReplay => pc == Replaying
         case Establish => pc == MayEstablish
         case EndSession => pc == InSession
         case ReleaseLease => pc == Dropping
         case _ => pc !in {InSession, Dropping, Gone}
  }

  predicate Enabled(s: State, a: Action) {
    match a
    case Supervise(e) => (s.authority || IsOutside(e)) && StepOk(s.ledger, e) && SharedOk(s, e)
    case AuthorityStops => s.authority
    case Act(id, step) => ClientEnabled(s, id, step)
  }

  function Supervised(s: State, e: Event): State {
    s.(ledger := Advance(s.ledger, e),
       polls := if e.PlayersPolled? || e.FinalCheck? || e.PlayersUnknown?
                then s.polls + [Poll(s.ledger.book.current.generation, Now(s),
                                     if e.PlayersUnknown? then None else e.reply)]
                else s.polls)
  }

  /** Where a client goes next. A failed check, a stale tracker or any failure drops the lease; after the last
      check a Login or Transfer becomes a counted session, and anything else streams without a lease. */
  function NextClient(s: State, id: nat, step: ClientStep): Client
    requires ClientEnabled(s, id, step)
  {
    match step
    case Arrive(counts) => Client(Waiting, s.ledger.book.current, counts, None, None)
    case AcquireLease => s.clients[id].(pc := Leased)
    case CheckCycle =>
      var c := s.clients[id];
      c.(pc := if !CycleIsCurrent(s, c) then Gone
               else if c.pc == Leased then Connecting
               else if c.pc == Connected then MayReplay
               else MayEstablish)
    case Connect => s.clients[id].(pc := Connected)
    case StartReplay => s.clients[id].(pc := Replaying)
    case FinishReplay => s.clients[id].(pc := Replayed)
    case Establish =>
      var c := s.clients[id];
      if !c.counted then c.(pc := Streaming)
      else if CanEstablish(Tracked(s), c.Cycle()) then c.(pc := InSession, established := Some(Now(s)))
      else c.(pc := Gone)
    case EndSession => s.clients[id].(pc := Dropping, ended := Some(Now(s)))
    case ReleaseLease => s.clients[id].(pc := Gone)
    case Fail => s.clients[id].(pc := Gone)
  }

  /** What the supervisor's environment sees of a client's step. */
  function ClientEvents(s: State, id: nat, step: ClientStep): seq<Event>
    requires ClientEnabled(s, id, step)
  {
    if step.Establish? && s.clients[id].counted then [SessionCounted(s.clients[id].Cycle())]
    else if step.EndSession? then [SessionEnded(s.clients[id].Cycle())]
    else []
  }

  function NextLedger(s: State, id: nat, step: ClientStep): Ledger
    requires ClientEnabled(s, id, step)
  {
    var events := ClientEvents(s, id, step);
    if events == [] then s.ledger else Advance(s.ledger, events[0])
  }

  function NextActivity(s: State, id: nat, step: ClientStep): Option<Activity>
    requires ClientEnabled(s, id, step)
  {
    if step.Establish? && s.clients[id].counted then Established(Tracked(s), s.clients[id].Cycle())
    else if step.EndSession? then Dropped(Tracked(s), s.clients[id].Cycle(), Now(s))
    else Tracked(s)
  }

  /** A client's step touches nothing of the ledger but the tracker. */
  lemma ClientsTouchTheTracker(s: State, id: nat, step: ClientStep)
    requires ClientEnabled(s, id, step)
    ensures
      var next := NextLedger(s, id, step);
      next == s.ledger.(world := s.ledger.world.(activity := NextActivity(s, id, step), length := next.world.length))
  {
    if ClientEvents(s, id, step) != [] {
      OutsideStep(s.ledger, ClientEvents(s, id, step)[0]);
    }
  }

  function Do(s: State, a: Action): State
    requires Enabled(s, a)
  {
    match a
    case Supervise(e) => Supervised(s, e)
    case AuthorityStops => s.(authority := false)
    case Act(id, step) =>
      s.(clients := s.clients[id := NextClient(s, id, step)], ledger := NextLedger(s, id, step))
  }

  predicate Init(s: State) {
    && s.ledger == Opening(s.ledger.config, s.ledger.world.now)
    && s.permits <= MAX_PERMITS && s.authority && s.clients == map[] && s.polls == []
  }

  predicate IsRun(states: seq<State>, actions: seq<Action>) {
    && |states| == |actions| + 1
    && Init(states[0])
    && forall i :: 0 <= i < |actions| ==> Enabled(states[i], actions[i]) && states[i + 1] == Do(states[i], actions[i])
  }

  predicate CommitsIdleStop(a: Action) {
    a.Supervise? && a.event.Published? && a.event.publication.BeginIdleStop?
  }

  // ---- The invariant

  predicate ClientOk(c: Client, history: set<LifecycleState>, now: Instant) {
    && c.sampled in history && c.sampled.phase == Running
    && (c.pc == InSession <==> c.established.Some? && c.ended.None?)
    && (c.ended.Some? ==> c.established.Some? && c.ended.value <= now)
    && (c.established.Some? ==> c.established.value <= now && c.pc in {InSession, Dropping, Gone})
  }

  predicate ClientsOk(s: State) {
    forall k :: k in s.clients ==> ClientOk(s.clients[k], s.ledger.book.history, Now(s))
  }

  predicate GateOk(s: State) {
    ExclusiveHeld(s) ==> NoLeases(s)
  }

  predicate Counts(activity: Option<Activity>, clients: map<nat, Client>) {
    activity.Some? ==> activity.value.active == |Sessions(clients, activity.value.cycle)|
  }

  predicate CountOk(s: State) {
    Counts(Tracked(s), s.clients)
  }

  predicate PermitsOk(s: State) {
    |Live(s.clients)| <= s.permits <= MAX_PERMITS
  }

  /** With no live session of the tracked cycle, its last disconnect is no earlier than any session's end. */
  predicate Dates(activity: Option<Activity>, clients: map<nat, Client>) {
    activity.Some? && activity.value.active == 0 ==>
      forall k :: k in clients && clients[k].Cycle() == activity.value.cycle && clients[k].ended.Some? ==>
        activity.value.lastFinalDisconnect.Some?
        && clients[k].ended.value <= activity.value.lastFinalDisconnect.value
  }

  predicate DisconnectOk(s: State) {
    Dates(Tracked(s), s.clients)
  }

  predicate PastRecheck(w: Watch) {
    w.Rechecked? || w.Confirmed? || w.Vetted? || w.Ready?
  }

  /** Once idleness was rechecked under the guard it cannot end before the guard is released. */
  predicate RecheckOk(s: State) {
    s.authority && PastRecheck(s.ledger.watch) ==>
      && Tracked(s).Some? && Tracked(s).value.cycle == s.ledger.book.current.generation
      && Tracked(s).value.active == 0
      && Tracked(s).value.ProxyIdleAnchor().value <= s.ledger.watch.anchor
      && s.ledger.watch.anchor + s.ledger.config.idleTimeout <= Now(s)
      && (s.ledger.config.rcon ==> s.ledger.zeroAnchor.Some? && s.ledger.zeroAnchor.value <= s.ledger.watch.anchor)
  }

  predicate PollsOk(s: State) {
    && (forall p :: p in s.polls ==> p.at <= Now(s))
    && (s.authority && Monitoring(s.ledger.watch) && s.ledger.zeroAnchor.Some? ==>
          forall p :: p in s.polls && p.cycle == s.ledger.book.current.generation && p.at > s.ledger.zeroAnchor.value
            ==> CountsZero(p.reply))
    && (s.authority && s.ledger.config.rcon
        && (s.ledger.watch.Confirmed? || s.ledger.watch.Vetted? || s.ledger.watch.Ready?) ==>
          s.polls != [] && CountsZero(s.polls[|s.polls| - 1].reply)
          && s.polls[|s.polls| - 1].cycle == s.ledger.book.current.generation)
  }

  predicate StartsStretch(p: Poll, cycle: u64, at: Instant) {
    p.cycle == cycle && p.at == at && CountsZero(p.reply)
  }

  /** The stretch of zero players began with a poll that counted zero. */
  predicate StretchOk(s: State) {
    s.authority && Monitoring(s.ledger.watch) && s.ledger.zeroAnchor.Some? ==>
      exists i :: 0 <= i < |s.polls|
        && StartsStretch(s.polls[i], s.ledger.book.current.generation, s.ledger.zeroAnchor.value)
  }

  predicate Inv(s: State) {
    && Facts(s.ledger)
    && ClientsOk(s) && GateOk(s) && CountOk(s) && PermitsOk(s) && DisconnectOk(s) && RecheckOk(s) && PollsOk(s)
    && StretchOk(s)
  }

  predicate Bounded(s: State) {
    s.ledger.book.bumps < TWO_64
  }

  // ---- Each step keeps it

  lemma LedgerGrows(l: Ledger, e: Event)
    requires StepOk(l, e)
    ensures l.book.history <= Advance(l, e).book.history
    ensures l.world.now <= Advance(l, e).world.now
    ensures l.book.bumps <= Advance(l, e).book.bumps
    ensures Advance(l, e).config == l.config
    ensures !e.CycleBegun? && !e.SessionCounted? && !e.SessionEnded? ==>
      Advance(l, e).world.activity == l.world.activity
  {
  }

  lemma NextClientOk(s: State, id: nat, step: ClientStep)
    requires ClientsOk(s) && s.ledger.book.current in s.ledger.book.history && ClientEnabled(s, id, step)
    ensures ClientOk(NextClient(s, id, step), s.ledger.book.history, Now(s))
  {
  }

  lemma ClientsKept(s: State, a: Action)
    requires ClientsOk(s) && s.ledger.book.current in s.ledger.book.history && Enabled(s, a)
    ensures ClientsOk(Do(s, a))
  {
    hide StepOk, Advance, NextClient, NextActivity;
    match a
    case Supervise(e) => LedgerGrows(s.ledger, e);
    case AuthorityStops =>
    case Act(id, step) =>
      ClientsTouchTheTracker(s, id, step);
      NextClientOk(s, id, step);
  }

  lemma GateKept(s: State, a: Action)
    requires GateOk(s) && Enabled(s, a)
    ensures GateOk(Do(s, a))
  {
    match a
    case Supervise(e) => assert HoldsExclusive(NextWatch(s.ledger, e)) && !HoldsExclusive(s.ledger.watch) ==> NoLeases(s);
    case Act(id, step) => ClientsTouchTheTracker(s, id, step);
    case AuthorityStops =>
  }

  /** The generation being started has never run, so no client can be of its cycle. */
  lemma NewCycleIsUnused(s: State)
    requires ClientsOk(s) && OrderFacts(s.ledger.book) && Bounded(s) && s.ledger.book.current.phase == Starting
    ensures forall k :: k in s.clients ==> s.clients[k].Cycle() != s.ledger.book.current.generation
  {
    forall k | k in s.clients
      ensures s.clients[k].Cycle() != s.ledger.book.current.generation
    {
      assert Before(s.clients[k].sampled, s.ledger.book.current);
    }
  }

  lemma SessionsAfter(clients: map<nat, Client>, id: nat, c: Client, cycle: u64)
    ensures Sessions(clients[id := c], cycle) ==
            if c.InSessionOf(cycle) then Sessions(clients, cycle) + {id} else Sessions(clients, cycle) - {id}
  {
  }

  lemma LiveAfter(clients: map<nat, Client>, id: nat, c: Client)
    ensures Live(clients[id := c]) == if c.pc != Gone then Live(clients) + {id} else Live(clients) - {id}
  {
  }

  lemma CycleStartsWithoutSessions(s: State, e: Event)
    requires ClientsOk(s) && OrderFacts(s.ledger.book) && Bounded(s)
    requires e.CycleBegun? && StepOk(s.ledger, e)
    ensures CountOk(Supervised(s, e)) && DisconnectOk(Supervised(s, e))
  {
    NewCycleIsUnused(s);
    assert Sessions(s.clients, s.ledger.book.current.generation) == {};
  }

  lemma ClientsKeepCount(s: State, id: nat, step: ClientStep)
    requires CountOk(s) && ClientsOk(s) && ClientEnabled(s, id, step)
    ensures Counts(NextActivity(s, id, step), s.clients[id := NextClient(s, id, step)])
  {
    if Tracked(s).Some? {
      var cycle := Tracked(s).value.cycle;
      SessionsAfter(s.clients, id, NextClient(s, id, step), cycle);
      assert id in Sessions(s.clients, cycle) <==> id in s.clients && s.clients[id].InSessionOf(cycle);
    }
  }

  lemma CountKept(s: State, a: Action)
    requires ClientsOk(s) && CountOk(s) && OrderFacts(s.ledger.book) && Bounded(s) && Enabled(s, a)
    ensures CountOk(Do(s, a))
  {
    hide StepOk, Advance, NextClient, NextActivity;
    match a
    case Supervise(e) =>
      LedgerGrows(s.ledger, e);
      if e.CycleBegun? {
        CycleStartsWithoutSessions(s, e);
      }
    case AuthorityStops =>
    case Act(id, step) =>
      ClientsTouchTheTracker(s, id, step);
      ClientsKeepCount(s, id, step);
  }

  lemma PermitsKept(s: State, a: Action)
    requires PermitsOk(s) && Enabled(s, a)
    ensures PermitsOk(Do(s, a))
  {
    hide StepOk, Advance, NextActivity;
    match a
    case Supervise(_) =>
    case AuthorityStops =>
    case Act(id, step) =>
      LiveAfter(s.clients, id, NextClient(s, id, step));
      assert !step.Arrive? ==> id in Live(s.clients) || NextClient(s, id, step).pc == Gone;
  }

  lemma ClientsKeepDisconnect(s: State, id: nat, step: ClientStep)
    requires ClientsOk(s) && CountOk(s) && DisconnectOk(s) && ClientEnabled(s, id, step)
    ensures Dates(NextActivity(s, id, step), s.clients[id := NextClient(s, id, step)])
  {
    if step.EndSession? && CanEstablish(Tracked(s), s.clients[id].Cycle()) {
      assert id in Sessions(s.clients, Tracked(s).value.cycle);
    }
  }

  lemma DisconnectKept(s: State, a: Action)
    requires ClientsOk(s) && CountOk(s) && DisconnectOk(s) && OrderFacts(s.ledger.book) && Bounded(s) && Enabled(s, a)
    ensures DisconnectOk(Do(s, a))
  {
    hide StepOk, Advance, NextClient, NextActivity;
    match a
    case Supervise(e) =>
      LedgerGrows(s.ledger, e);
      if e.CycleBegun? {
        CycleStartsWithoutSessions(s, e);
      }
    case AuthorityStops =>
    case Act(id, step) =>
      ClientsTouchTheTracker(s, id, step);
      ClientsKeepDisconnect(s, id, step);
  }

  /** Clients cannot disturb a rechecked idle period: that would take a lease. */
  lemma ClientsKeepRecheck(s: State, a: Action)
    requires RecheckOk(s) && GateOk(s) && Enabled(s, a) && !a.Supervise?
    ensures RecheckOk(Do(s, a))
  {
    hide StepOk, Advance;
    if a.Act? {
      ClientsTouchTheTracker(s, a.id, a.step);
    }
  }

  /** Past the recheck the supervisor's own steps keep what was rechecked. */
  lemma RecheckMoves(l: Ledger, e: Event)
    requires WatchFacts(l) && StepOk(l, e) && PastRecheck(Advance(l, e).watch) && !e.SessionCounted? && !e.SessionEnded?
    ensures
      var next := Advance(l, e);
      && next.book.current.generation == l.book.current.generation && next.config == l.config
      && next.world.activity == l.world.activity && next.zeroAnchor == l.zeroAnchor && l.world.now <= next.world.now
      && (e.IdleRechecked? || PastRecheck(l.watch))
      && (l.watch.Exclusive? || PastRecheck(l.watch)) && next.watch.anchor == l.watch.anchor
  {
    hide EffectiveAnchor, CountsZero;
    if e.Published? {
      assert e.publication.ResetFailureStreak?;
    }
  }

  lemma RecheckedMeans(l: Ledger, snapshot: Activity)
    requires StepOk(l, IdleRechecked(snapshot))
    ensures l.watch.Exclusive? && l.world.activity == Some(snapshot) && snapshot.cycle == l.book.current.generation
    ensures EffectiveAnchor(l, snapshot) == Some(l.watch.anchor)
    ensures l.world.now >= l.watch.anchor + l.config.idleTimeout
  {
  }

  lemma SupervisorKeepsRecheck(s: State, e: Event)
    requires RecheckOk(s) && WatchFacts(s.ledger) && Enabled(s, Supervise(e))
    ensures RecheckOk(Supervised(s, e))
  {
    hide StepOk, Advance, WatchFacts, CountsZero;
    if PastRecheck(Supervised(s, e).ledger.watch) {
      RecheckMoves(s.ledger, e);
      if e.IdleRechecked? {
        RecheckedMeans(s.ledger, e.snapshot);
      }
    }
  }

  lemma PollTimesKept(s: State, e: Event)
    requires PollsOk(s) && Enabled(s, Supervise(e))
    ensures forall p :: p in Supervised(s, e).polls ==> p.at <= Now(Supervised(s, e))
  {
    hide StepOk, Advance;
    LedgerGrows(s.ledger, e);
  }

  /** How polls move the stretch of zero players, and the confirmation that ends it. */
  lemma PollMoves(l: Ledger, e: Event)
    requires WatchFacts(l) && StepOk(l, e) && Monitoring(Advance(l, e).watch) && Advance(l, e).zeroAnchor.Some?
    ensures
      var next := Advance(l, e);
      && next.book.current.generation == l.book.current.generation && Monitoring(l.watch)
      && (l.zeroAnchor.Some? ==> next.zeroAnchor == l.zeroAnchor)
      && (l.zeroAnchor.None? ==> next.zeroAnchor == Some(l.world.now))
      && !e.PlayersUnknown? && (e.PlayersPolled? || e.FinalCheck? ==> CountsZero(e.reply))
  {
    hide EffectiveAnchor, CountsZero;
    if e.Published? {
      assert e.publication.ResetFailureStreak?;
    }
  }

  predicate PastFinalCheck(w: Watch) {
    w.Confirmed? || w.Vetted? || w.Ready?
  }

  lemma FinalCheckMoves(l: Ledger, e: Event)
    requires WatchFacts(l) && StepOk(l, e) && PastFinalCheck(Advance(l, e).watch) && Advance(l, e).config.rcon
    ensures Advance(l, e).book.current.generation == l.book.current.generation && l.config.rcon
    ensures || (e.FinalCheck? && CountsZero(e.reply))
            || (PastFinalCheck(l.watch) && !e.FinalCheck? && !e.PlayersPolled? && !e.PlayersUnknown?)
  {
    hide EffectiveAnchor, CountsZero;
    if e.Published? {
      assert e.publication.ResetFailureStreak?;
    }
  }

  lemma SupervisorKeepsPolls(s: State, e: Event)
    requires PollsOk(s) && WatchFacts(s.ledger) && Enabled(s, Supervise(e))
    ensures PollsOk(Supervised(s, e))
  {
    hide CountsZero, StepOk, Advance, WatchFacts;
    PollTimesKept(s, e);
    var next := Supervised(s, e);
    if Monitoring(next.ledger.watch) && next.ledger.zeroAnchor.Some? {
      PollMoves(s.ledger, e);
    }
    if PastFinalCheck(next.ledger.watch) && next.ledger.config.rcon {
      FinalCheckMoves(s.ledger, e);
    }
  }

  lemma InvKept(s: State, a: Action)
    requires Inv(s) && Bounded(s) && Enabled(s, a)
    ensures Inv(Do(s, a))
  {
    hide StepOk, Advance, Facts, ClientsOk, GateOk, CountOk, PermitsOk, DisconnectOk, RecheckOk, PollsOk, StretchOk;
    FactsGive(s);
    ClientsKept(s, a);
    GateKept(s, a);
    CountKept(s, a);
    PermitsKept(s, a);
    DisconnectKept(s, a);
    if a.Supervise? {
      FactsStep(s.ledger, a.event);
      SupervisorKeepsRecheck(s, a.event);
      SupervisorKeepsPolls(s, a.event);
      SupervisorKeepsStretch(s, a.event);
    } else {
      ClientsKeepFacts(s, a);
      ClientsKeepRecheck(s, a);
      ClientsKeepPolls(s, a);
      ClientsKeepStretch(s, a);
    }
  }

  /** While the server runs, the stretch of zero players goes on, ends, or begins with a poll. */
  lemma StretchMoves(l: Ledger, e: Event)
    requires WatchFacts(l) && StepOk(l, e) && Monitoring(Advance(l, e).watch) && Advance(l, e).zeroAnchor.Some?
    ensures Advance(l, e).book.current.generation == l.book.current.generation && Monitoring(l.watch)
    ensures || Advance(l, e).zeroAnchor == l.zeroAnchor
            || (e.PlayersPolled? && CountsZero(e.reply) && Advance(l, e).zeroAnchor == Some(l.world.now))
  {
    hide CountsZero;
    if e.Published? {
      assert e.publication.ResetFailureStreak?;
    }
  }

  lemma SupervisorKeepsStretch(s: State, e: Event)
    requires StretchOk(s) && WatchFacts(s.ledger) && Enabled(s, Supervise(e))
    ensures StretchOk(Supervised(s, e))
  {
    hide CountsZero, StepOk, Advance, WatchFacts;
    var next := Supervised(s, e);
    if next.authority && Monitoring(next.ledger.watch) && next.ledger.zeroAnchor.Some? {
      StretchMoves(s.ledger, e);
      var cycle := s.ledger.book.current.generation;
      if next.ledger.zeroAnchor == s.ledger.zeroAnchor {
        var i :| 0 <= i < |s.polls| && StartsStretch(s.polls[i], cycle, s.ledger.zeroAnchor.value);
        assert StartsStretch(next.polls[i], cycle, next.ledger.zeroAnchor.value);
      } else {
        assert StartsStretch(next.polls[|s.polls|], cycle, next.ledger.zeroAnchor.value);
      }
    }
  }

  lemma ClientsKeepStretch(s: State, a: Action)
    requires StretchOk(s) && Enabled(s, a) && !a.Supervise?
    ensures StretchOk(Do(s, a))
  {
    hide StepOk, Advance, CountsZero;
    if a.Act? {
      ClientsTouchTheTracker(s, a.id, a.step);
    }
  }

  lemma ClientsKeepPolls(s: State, a: Action)
    requires PollsOk(s) && Enabled(s, a) && !a.Supervise?
    ensures PollsOk(Do(s, a))
  {
    hide StepOk, Advance, CountsZero;
    if a.Act? {
      ClientsTouchTheTracker(s, a.id, a.step);
    }
  }

  lemma ClientsKeepFacts(s: State, a: Action)
    requires Facts(s.ledger) && Enabled(s, a) && !a.Supervise?
    ensures Facts(Do(s, a).ledger)
  {
    hide StepOk, Advance, Facts;
    if a.Act? && ClientEvents(s, a.id, a.step) != [] {
      var e := ClientEvents(s, a.id, a.step)[0];
      OutsideStep(s.ledger, e);
      FactsStep(s.ledger, e);
    }
  }

  lemma FactsGive(s: State)
    requires Facts(s.ledger)
    ensures OrderFacts(s.ledger.book) && WatchFacts(s.ledger) && s.ledger.book.current in s.ledger.book.history
  {
  }

  // ---- Runs

  lemma BumpsGrow(s: State, a: Action)
    requires Enabled(s, a)
    ensures s.ledger.book.bumps <= Do(s, a).ledger.book.bumps
  {
    hide StepOk, Advance;
    match a
    case Supervise(e) => LedgerGrows(s.ledger, e);
    case AuthorityStops =>
    case Act(id, step) => ClientsTouchTheTracker(s, id, step);
  }

  lemma {:induction false} RunsKeepInv(states: seq<State>, actions: seq<Action>, n: nat)
    requires IsRun(states, actions) && n <= |actions| && Bounded(states[n])
    ensures Inv(states[n])
  {
    hide StepOk, Advance, Facts, ClientsOk, GateOk, CountOk, PermitsOk, DisconnectOk, RecheckOk, PollsOk, StretchOk;
    if n == 0 {
      InitialInv(states[0]);
    } else {
      BumpsGrow(states[n - 1], actions[n - 1]);
      RunsKeepInv(states, actions, n - 1);
      InvKept(states[n - 1], actions[n - 1]);
    }
  }

  lemma InitialInv(s: State)
    requires Init(s)
    ensures Inv(s)
  {
    assert Live(s.clients) == {};
  }

  /** What the supervisor and its environment did in one action. */
  function ActionEvents(s: State, a: Action): seq<Event>
    requires Enabled(s, a)
  {
    match a
    case Supervise(e) => [e]
    case AuthorityStops => []
    case Act(id, step) => ClientEvents(s, id, step)
  }

  function Events(states: seq<State>, actions: seq<Action>): seq<Event>
    requires IsRun(states, actions)
    decreases |actions|
  {
    if actions == [] then []
    else
      var n := |actions| - 1;
      Events(states[..n + 1], actions[..n]) + ActionEvents(states[n], actions[n])
  }

  lemma ActionsAreLawful(start: Ledger, run: seq<Event>, s: State, a: Action)
    requires Lawful(start, run) && s.ledger == Replay(start, run) && Enabled(s, a)
    ensures Lawful(start, run + ActionEvents(s, a))
    ensures Do(s, a).ledger == Replay(start, run + ActionEvents(s, a))
  {
    hide StepOk, Advance, Replay, Lawful;
    var events := ActionEvents(s, a);
    if events == [] {
      assert run + events == run;
    } else {
      if a.Act? {
        OutsideStep(s.ledger, events[0]);
      }
      Extend(start, run, events[0]);
      assert events == [events[0]];
    }
  }

  /** The supervisor's part of every run, with what it sees of the clients, is a lawful run, and its ledger is that
      run's ledger. */
  lemma {:induction false} SupervisorRunsAreLawful(states: seq<State>, actions: seq<Action>)
    requires IsRun(states, actions)
    ensures Lawful(states[0].ledger, Events(states, actions))
    ensures states[|actions|].ledger == Replay(states[0].ledger, Events(states, actions))
    decreases |actions|
  {
    hide StepOk, Advance;
    if actions != [] {
      var n := |actions| - 1;
      SupervisorRunsAreLawful(states[..n + 1], actions[..n]);
      ActionsAreLawful(states[0].ledger, Events(states[..n + 1], actions[..n]), states[n], actions[n]);
    }
  }

  // ---- Idle-stop exclusion

  /** When an idle stop is committed no client holds a lease, of any cycle: no connection is being opened or
      replayed, and no counted session is live. */
  lemma CommitIsExclusive(states: seq<State>, actions: seq<Action>, n: nat)
    requires IsRun(states, actions) && n < |actions| && Bounded(states[n])
    requires CommitsIdleStop(actions[n])
    ensures forall k :: k in states[n].clients ==> states[n].clients[k].pc in {Waiting, Streaming, Gone}
  {
    RunsKeepInv(states, actions, n);
    assert ExclusiveHeld(states[n]);
  }

  /** The cycle has been stopped: clients of it can only be refused. */
  predicate Retired(s: State, cycle: u64) {
    && (exists o :: o in s.ledger.book.history && o.generation == cycle && o.phase == Stopping)
    && forall k :: k in s.clients && s.clients[k].Cycle() == cycle ==>
         s.clients[k].pc in {Waiting, Leased, Streaming, Gone}
  }

  lemma RetiredCycleIsNotRunning(s: State, cycle: u64)
    requires Inv(s) && Bounded(s) && Retired(s, cycle)
    ensures s.ledger.book.current.OwnedRunningCycle() != Some(cycle)
  {
    var o :| o in s.ledger.book.history && o.generation == cycle && o.phase == Stopping;
    assert Before(o, s.ledger.book.current);
  }

  lemma RetirementLasts(s: State, a: Action, cycle: u64)
    requires Inv(s) && Bounded(s) && Enabled(s, a) && Retired(s, cycle)
    ensures Retired(Do(s, a), cycle)
  {
    hide StepOk, Advance, Facts;
    RetiredCycleIsNotRunning(s, cycle);
    match a
    case Supervise(e) => LedgerGrows(s.ledger, e);
    case AuthorityStops =>
    case Act(id, step) =>
      ClientsTouchTheTracker(s, id, step);
      RetiredClientsStay(s, id, step, cycle);
  }

  lemma RetiredClientsStay(s: State, id: nat, step: ClientStep, cycle: u64)
    requires ClientEnabled(s, id, step) && Retired(s, cycle)
    requires s.ledger.book.current.OwnedRunningCycle() != Some(cycle)
    ensures NextClient(s, id, step).Cycle() == cycle ==>
      NextClient(s, id, step).pc in {Waiting, Leased, Streaming, Gone}
  {
  }

  lemma {:induction false} CommitRetires(states: seq<State>, actions: seq<Action>, n: nat, later: nat)
    requires IsRun(states, actions) && n < later <= |actions| && Bounded(states[later])
    requires CommitsIdleStop(actions[n])
    ensures Retired(states[later], states[n].ledger.book.current.generation)
    ensures Inv(states[later])
    decreases later
  {
    hide StepOk, Advance, Facts, ClientsOk, GateOk, CountOk, PermitsOk, DisconnectOk, RecheckOk, PollsOk, StretchOk;
    BumpsGrow(states[later - 1], actions[later - 1]);
    RunsKeepInv(states, actions, later - 1);
    RunsKeepInv(states, actions, later);
    if later == n + 1 {
      CommitIsExclusive(states, actions, n);
      CommitRetiresNow(states[n], actions[n]);
    } else {
      CommitRetires(states, actions, n, later - 1);
      RetirementLasts(states[later - 1], actions[later - 1], states[n].ledger.book.current.generation);
    }
  }

  lemma CommitRetiresNow(s: State, a: Action)
    requires Enabled(s, a) && CommitsIdleStop(a)
    requires forall k :: k in s.clients ==> s.clients[k].pc in {Waiting, Streaming, Gone}
    ensures Retired(Do(s, a), s.ledger.book.current.generation)
  {
    var next := Do(s, a);
    assert next.ledger.book.current in next.ledger.book.history;
    assert next.ledger.book.current.phase == Stopping;
  }

  /** After an idle stop of a cycle no client starts a replay for it, and none is counted for it. */
  lemma NothingStartsAfterCommit(states: seq<State>, actions: seq<Action>, n: nat, later: nat)
    requires IsRun(states, actions) && n < later < |actions| && Bounded(states[later])
    requires CommitsIdleStop(actions[n])
    requires actions[later].Act? && (actions[later].step.StartReplay? || actions[later].step.Establish?)
    ensures states[later].clients[actions[later].id].Cycle() != states[n].ledger.book.current.generation
  {
    CommitRetires(states, actions, n, later);
    assert Enabled(states[later], actions[later]);
  }

  // ---- The idle window

  /** An idle stop committed at time `now` ends an interval, longer than the idle timeout or as long, in which no
      counted session of the cycle was live. With RCON it began with a poll that counted zero players, and every poll
      since then, down to the final one made under the guard, was answered by a count of zero. */
  lemma IdleWindow(states: seq<State>, actions: seq<Action>, n: nat)
    requires IsRun(states, actions) && n < |actions| && Bounded(states[n])
    requires CommitsIdleStop(actions[n])
    ensures
      var s := states[n];
      var cycle := s.ledger.book.current.generation;
      && (forall k, t: Instant :: k in s.clients && s.clients[k].Cycle() == cycle && t <= Now(s) < t + s.ledger.config.idleTimeout
            ==> !s.clients[k].LiveAt(t))
      && (s.ledger.config.rcon ==>
            && (forall p :: p in s.polls && p.cycle == cycle && Now(s) < p.at + s.ledger.config.idleTimeout ==> CountsZero(p.reply))
            && (exists i, at: Instant :: 0 <= i < |s.polls| && at + s.ledger.config.idleTimeout <= Now(s)
                  && StartsStretch(s.polls[i], cycle, at)
                  && forall p :: p in s.polls && p.cycle == cycle && p.at > at ==> CountsZero(p.reply))
            && s.polls != [] && s.polls[|s.polls| - 1].cycle == cycle && CountsZero(s.polls[|s.polls| - 1].reply))
  {
    hide CountsZero;
    var s := states[n];
    RunsKeepInv(states, actions, n);
    assert Enabled(s, actions[n]) && s.ledger.watch.Ready?;
    assert Sessions(s.clients, Tracked(s).value.cycle) == {};
    forall k, t: Instant | k in s.clients && s.clients[k].Cycle() == s.ledger.book.current.generation
                  && t <= Now(s) < t + s.ledger.config.idleTimeout
      ensures !s.clients[k].LiveAt(t)
    {
      assert k !in Sessions(s.clients, Tracked(s).value.cycle);
      assert ClientOk(s.clients[k], s.ledger.book.history, Now(s));
    }
  }

  // ---- Session conservation

  /** At every moment the tracked count is the number of live sessions of the tracked cycle, however many
      sessions of earlier cycles are still live. */
  lemma CountIsConserved(states: seq<State>, actions: seq<Action>, n: nat)
    requires IsRun(states, actions) && n <= |actions| && Bounded(states[n])
    ensures Tracked(states[n]).Some? ==>
      Tracked(states[n]).value.active == |Sessions(states[n].clients, Tracked(states[n]).value.cycle)|
  {
    RunsKeepInv(states, actions, n);
  }

  /** Dropping a session of the tracked cycle never underflows the count. */
  lemma DropsNeverUnderflow(states: seq<State>, actions: seq<Action>, n: nat)
    requires IsRun(states, actions) && n < |actions| && Bounded(states[n])
    requires actions[n].Act? && actions[n].step.EndSession?
    ensures
      var s := states[n];
      CanEstablish(Tracked(s), s.clients[actions[n].id].Cycle()) ==> Tracked(s).value.active > 0
  {
    RunsKeepInv(states, actions, n);
    var s := states[n];
    assert Enabled(s, actions[n]);
    if CanEstablish(Tracked(s), s.clients[actions[n].id].Cycle()) {
      assert actions[n].id in Sessions(s.clients, Tracked(s).value.cycle);
    }
  }

  /** Counting a session never overflows: the count stays below the number of connection permits, of which there are
      at most `MAX_PERMITS`. */
  lemma PermitsBoundSessions(states: seq<State>, actions: seq<Action>, n: nat)
    requires IsRun(states, actions) && n < |actions| && Bounded(states[n])
    requires actions[n].Act? && actions[n].step.Establish?
    ensures Tracked(states[n]).Some? ==> Tracked(states[n]).value.active < states[n].permits <= MAX_PERMITS < USIZE_MAX
  {
    RunsKeepInv(states, actions, n);
    var s, id := states[n], actions[n].id;
    assert Enabled(s, actions[n]);
    if Tracked(s).Some? {
      var sessions := Sessions(s.clients, Tracked(s).value.cycle);
      assert id !in sessions && sessions + {id} <= Live(s.clients);
      SubsetIsNoLarger(sessions + {id}, Live(s.clients));
    }
  }

  lemma SubsetIsNoLarger(a: set<nat>, b: set<nat>)
    requires a <= b
    ensures |a| <= |b|
  {
    assert a + (b - a) == b;
  }

  // ---- The checks of the clients

  /** The place of the check that a step comes after. */
  function CheckedAt(step: ClientStep): ClientPc
    requires step in {Connect, StartReplay, Establish}
  {
    match step
    case Connect => Leased
    case StartReplay => Connected
    case Establish => Replayed
  }

  function After(step: ClientStep): ClientPc
    requires step in {Connect, StartReplay, Establish}
  {
    match step
    case Connect => Connecting
    case StartReplay => MayReplay
    case Establish => MayEstablish
  }

  lemma {:induction false} PassedChecksFoundTheCycle(
    states: seq<State>, actions: seq<Action>, n: nat, id: nat, step: ClientStep) returns (j: nat)
    requires IsRun(states, actions) && n < |states| && step in {Connect, StartReplay, Establish}
    requires id in states[n].clients && states[n].clients[id].pc == After(step)
    ensures j < n && actions[j] == Act(id, CheckCycle) && id in states[j].clients
    ensures states[j].clients[id].pc == CheckedAt(step) && CycleIsCurrent(states[j], states[j].clients[id])
    ensures states[j].clients[id].sampled == states[n].clients[id].sampled
    ensures forall k :: j < k < n ==> !(actions[k].Act? && actions[k].id == id)
    decreases n
  {
    hide StepOk, Advance, NextLedger;
    var last := actions[n - 1];
    if last.Act? && last.id == id {
      j := n - 1;
    } else {
      j := PassedChecksFoundTheCycle(states, actions, n - 1, id, step);
    }
  }

  /** A client connects to the backend, replays its handshake, or becomes a session only after a check of its own, the
      last thing it did, had found that the supervisor still ran the very cycle that the client sampled. */
  lemma EachStageIsChecked(states: seq<State>, actions: seq<Action>, i: nat, id: nat, step: ClientStep)
    returns (j: nat)
    requires IsRun(states, actions) && i < |actions| && actions[i] == Act(id, step)
    requires step in {Connect, StartReplay, Establish}
    ensures j < i && actions[j] == Act(id, CheckCycle) && id in states[j].clients && id in states[i].clients
    ensures states[j].authority
    ensures
      var current := states[j].ledger.book.current;
      current.phase == Running && current.generation == states[i].clients[id].sampled.generation
    ensures forall k :: j < k < i ==> !(actions[k].Act? && actions[k].id == id)
  {
    hide StepOk, Advance, NextLedger;
    assert Enabled(states[i], actions[i]);
    j := PassedChecksFoundTheCycle(states, actions, i, id, step);
  }

  /** A check lets a client go on exactly while the supervisor runs the cycle that it sampled. */
  lemma ChecksAreExact(s: State, id: nat)
    requires ClientEnabled(s, id, CheckCycle)
    ensures
      var current, sampled := s.ledger.book.current, s.clients[id].sampled;
      NextClient(s, id, CheckCycle).pc != Gone <==>
        s.authority && current.phase == Running && current.generation == sampled.generation
  {
  }

  /** After its last check a Login or Transfer becomes a counted session exactly if the tracker is on its cycle, and
      then the count grows by one; when it ends the count shrinks by one, and the last one leaves its time. */
  lemma SessionsAreCounted(s: State, id: nat, step: ClientStep)
    requires Inv(s) && ClientEnabled(s, id, step) && (step.Establish? || step.EndSession?) && s.clients[id].counted
    ensures
      var before, after := Tracked(s), Tracked(Do(s, Act(id, step)));
      var tracks := before.Some? && before.value.cycle == s.clients[id].sampled.generation;
      && (step.Establish? ==> (Do(s, Act(id, step)).clients[id].pc == InSession <==> tracks))
      && (!tracks ==> after == before)
      && (tracks && step.Establish? ==> after.Some? && after.value.active == before.value.active + 1)
      && (tracks && step.EndSession? ==>
            && after.Some? && after.value.active == before.value.active - 1
            && (after.value.active == 0 ==> after.value.lastFinalDisconnect == Some(Now(s))))
  {
    hide StepOk, Advance;
    ClientsTouchTheTracker(s, id, step);
    var cycle := s.clients[id].Cycle();
    if step.EndSession? && CanEstablish(Tracked(s), cycle) {
      assert id in Sessions(s.clients, cycle);
    }
  }
}
