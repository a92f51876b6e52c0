/** The activity counter that clients and the supervisor share (src/backend_use.rs). */
module BackendUse {
  import opened Wrappers
  import opened Lifecycle

  const USIZE_MAX: nat := TWO_64 - 1

  /** `ActivityState`, and the snapshot of it: one backend cycle's counted proxy sessions. */
  datatype Activity = Activity(
    cycle: u64,
    active: nat,
    runningSince: Instant,
    lastFinalDisconnect: Option<Instant>)
  {
    /** The start of the current idle period, if no counted session is live. */
    function ProxyIdleAnchor(): Option<Instant> {
      if active == 0
      then Some(if lastFinalDisconnect.Some? then lastFinalDisconnect.value else runningSince)
      else None
    }
  }

  function Begun(cycle: u64, runningSince: Instant): Option<Activity> {
    Some(Activity(cycle, 0, runningSince, None))
  }

  /** A lease of `cycle` may become a counted session only while the tracker is on that cycle. */
  predicate CanEstablish(state: Option<Activity>, cycle: u64) {
    state.Some? && state.value.cycle == cycle
  }

  function Established(state: Option<Activity>, cycle: u64): Option<Activity> {
    if CanEstablish(state, cycle) then Some(state.value.(active := state.value.active + 1)) else state
  }

  /** The tracker after a session of `cycle` is dropped at `now`; other cycles' sessions leave no trace. */
  function Dropped(state: Option<Activity>, cycle: u64, now: Instant): Option<Activity> {
    if !CanEstablish(state, cycle) || state.value.active == 0 then state
    else if state.value.active == 1 then Some(state.value.(active := 0, lastFinalDisconnect := Some(now)))
    else Some(state.value.(active := state.value.active - 1))
  }

  class ActivityTracker {
    var state: Option<Activity>

    constructor ()
      ensures state == None
    {
      state := None;
    }

    method BeginCycle(cycle: u64, runningSince: Instant)
      modifies this
      ensures state == Some(Activity(cycle, 0, runningSince, None))
    {
      state := Some(Activity(cycle, 0, runningSince, None));
    }

    method Snapshot() returns (snapshot: Option<Activity>)
      ensures snapshot == state
    {
      snapshot := state;
    }

    /** `checked_add` panics on overflow; the connection permits exclude that (`PermitsBoundSessions`). */
    method EstablishLoginTransferSession(cycle: u64) returns (established: bool)
      requires CanEstablish(state, cycle) ==> state.value.active < USIZE_MAX
      modifies this
      ensures established <==> old(state).Some? && old(state).value.cycle == cycle
      ensures state == if established then Some(old(state).value.(active := old(state).value.active + 1)) else old(state)
    {
      if state.None? {
        return false;
      }
      var activity := state.value;
      if activity.cycle != cycle {
        return false;
      }
      assert activity.active + 1 <= USIZE_MAX;
      state := Some(activity.(active := activity.active + 1));
      established := true;
    }

    /** `Drop` of a counted session. `checked_sub` panics on underflow; the count equals the number of
        live sessions of the tracked cycle, so it cannot (`CountIsConserved`). */
    method DropSession(cycle: u64, now: Instant)
      requires CanEstablish(state, cycle) ==> state.value.active > 0
      modifies this
      ensures old(state).None? || old(state).value.cycle != cycle ==> state == old(state)
      ensures old(state).Some? && old(state).value.cycle == cycle ==>
        && state.Some?
        && var before, after := old(state).value, state.value;
           && after.cycle == before.cycle && after.runningSince == before.runningSince
           && after.active == before.active - 1
           && after.lastFinalDisconnect == if after.active == 0 then Some(now) else before.lastFinalDisconnect
    {
      if state.None? {
        return;
      }
      var activity := state.value;
      if activity.cycle != cycle {
        return;
      }
      assert activity.active - 1 >= 0;
      activity := activity.(active := activity.active - 1);
      if activity.active == 0 {
        activity := activity.(lastFinalDisconnect := Some(now));
      }
      state := Some(activity);
    }
  }
}
