/**
  The guarded Codex restart: the incident records of `workspace_harbor_bridge.py` with their
  compare-and-set transitions, and the programs that drive them: recover, prepare, resume and
  the restart policy of `serena-bridge-doctor`, and `workspace-harbor-codex-relauncher`.
 */
module Incidents {
  import opened Wrappers

  datatype State =
    | Diagnosing | RestartEligible | RestartPrepared | ResumePending
    | ClosedHealthy | ClosedBlocked | ClosedFreshTaskRequired

  /** ALLOWED_INCIDENT_TRANSITIONS. */
  predicate Allowed(current: State, next: State) {
    match current
    case Diagnosing => next in {RestartEligible, ClosedHealthy, ClosedBlocked}
    case RestartEligible => next in {RestartPrepared, ClosedBlocked}
    case RestartPrepared => next in {ResumePending, ClosedBlocked}
    case ResumePending => next in {ClosedHealthy, ClosedFreshTaskRequired}
    case _ => false
  }

  /** A rank that every allowed transition raises: the transition relation is acyclic. */
  function Rank(s: State): nat {
    match s
    case Diagnosing => 0
    case RestartEligible => 1
    case RestartPrepared => 2
    case ResumePending => 3
    case _ => 4
  }

  lemma TransitionsAreAcyclic(current: State, next: State)
    requires Allowed(current, next)
    ensures Rank(current) < Rank(next)
  {
  }

  type Id = string

  datatype Incident = Incident(root: string, thread: string, state: State, restartAttempted: bool,
                               heartbeat: Option<string>, reason: string, dogfood: bool)

  type Store = map<Id, Incident>

  /** The optional fields that a transition may set. */
  datatype Update = Update(reason: Option<string>, restartAttempted: Option<bool>,
                           heartbeat: Option<string>, dogfood: Option<bool>)

  function Or<T>(o: Option<T>, otherwise: T): T {
    if o.Some? then o.value else otherwise
  }

  /** `transition`: a compare-and-set on the recorded state; any failure leaves the store alone. */
  function Transition(store: Store, id: Id, expected: State, next: State, u: Update): (Store, bool) {
    if !Allowed(expected, next) || id !in store || store[id].state != expected then (store, false)
    else
      var i := store[id];
      (store[id := i.(state := next,
                      reason := if u.reason.Some? && u.reason.value != "" then u.reason.value else i.reason,
                      restartAttempted := Or(u.restartAttempted, i.restartAttempted),
                      heartbeat := if u.heartbeat.Some? then u.heartbeat else i.heartbeat,
                      dogfood := Or(u.dogfood, i.dogfood))], true)
  }

  function Because(reason: string): Update {
    Update(Some(reason), None, None, None)
  }

  /** `_close_blocked`: the failed transition is swallowed and "closed-blocked" reported anyway. */
  function CloseBlocked(store: Store, id: Id, reason: string): Store {
    Transition(store, id, RestartPrepared, ClosedBlocked, Because(reason)).0
  }

  /** The report of `_close_blocked` agrees with the record exactly when the record was prepared, or
      blocked before. */
  lemma CloseBlockedReport(store: Store, id: Id, reason: string)
    ensures
      var after := CloseBlocked(store, id, reason);
      (id in after && after[id].state == ClosedBlocked) <==>
        (id in store && store[id].state in {RestartPrepared, ClosedBlocked})
  {
  }

  predicate EligibleFor(i: Incident, root: string, thread: string) {
    i.root == root && i.thread == thread && i.state == RestartEligible
  }

  /** The first eligible incident of this root and thread in directory order, if any. */
  function FindEligible(store: Store, order: seq<Id>, root: string, thread: string): (found: Option<Id>)
    ensures found.Some? ==> found.value in store && EligibleFor(store[found.value], root, thread)
    ensures found.None? ==> forall id | id in order && id in store :: !EligibleFor(store[id], root, thread)
  {
    if order == [] then None
    else if order[0] in store && EligibleFor(store[order[0]], root, thread) then Some(order[0])
    else FindEligible(store, order[1..], root, thread)
  }

  function NewIncident(root: string, thread: string, reason: string): Incident {
    Incident(root, thread, RestartEligible, false, None, reason, false)
  }

  /** `create_or_reuse_restart`; `newId` is the new random identifier. */
  function CreateOrReuse(store: Store, order: seq<Id>, root: string, thread: string, reason: string, newId: Id): (Store, Id) {
    var found := FindEligible(store, order, root, thread);
    if found.Some? then (store, found.value)
    else (store[newId := NewIncident(root, thread, reason)], newId)
  }

  // ---------------------------------------------------------------------------------
  // The relauncher
  // ---------------------------------------------------------------------------------

  /** What the relauncher observes, one entry per turn of its bounded waits. */
  datatype Observations = Observations(
    doctorAlive: seq<bool>, oldRunning: bool, otherApp: bool, quitOk: bool, stillRunning: seq<bool>,
    launchOk: bool, newApp: seq<bool>, openOk: bool)

  /** Why the relaunch is blocked; nothing when it completes. */
  function Blocker(o: Observations): Option<string> {
    if false !in o.doctorAlive then Some("doctor-exit-timeout")
    else if !o.oldRunning && o.otherApp then Some("codex-identity-changed")
    else if o.oldRunning && !o.quitOk then Some("codex-quit-failed")
    else if o.oldRunning && false !in o.stillRunning then Some("codex-restart-incomplete")
    else if !o.launchOk then Some("codex-relaunch-failed")
    else if true !in o.newApp then Some("codex-readiness-timeout")
    else if !o.openOk then Some("thread-open-failed")
    else None
  }

  /** What a whole relaunch does to the store. */
  function Relaunch(store: Store, id: Id, o: Observations): (Store, bool) {
    var blocker := Blocker(o);
    if blocker.Some? then (CloseBlocked(store, id, blocker.value), false)
    else Transition(store, id, RestartPrepared, ResumePending, Because("codex-relaunched"))
  }

  /** On a prepared record the relauncher's report and the record agree. */
  lemma RelaunchOutcome(store: Store, id: Id, o: Observations)
    requires id in store && store[id].state == RestartPrepared
    ensures
      var (after, ok) := Relaunch(store, id, o);
      && id in after && after[id].state == (if ok then ResumePending else ClosedBlocked)
      && (ok <==> Blocker(o) == None)
  {
  }

  /** A relaunch of a prepared incident succeeds exactly when the doctor has exited, the old app (if it
      still ran) quit and went away, or no other app had taken its place, and then the launch, the new
      app and the thread all came up. */
  lemma RelaunchSucceedsExactly(store: Store, id: Id, o: Observations)
    requires id in store && store[id].state == RestartPrepared
    ensures Relaunch(store, id, o).1 <==>
              && false in o.doctorAlive
              && (if o.oldRunning then o.quitOk && false in o.stillRunning else !o.otherApp)
              && o.launchOk && true in o.newApp && o.openOk
  {
  }

  /** The incident then waits to be resumed; otherwise it is closed as blocked, for the first thing that
      went wrong. Nothing else of it changes, and no other incident. */
  lemma RelaunchRecordsTheFirstFailure(store: Store, id: Id, o: Observations)
    requires id in store && store[id].state == RestartPrepared
    ensures
      var (after, ok) := Relaunch(store, id, o);
      var reason := if id in after then after[id].reason else "";
      var gone := false in o.doctorAlive;
      var away := gone && if o.oldRunning then o.quitOk && false in o.stillRunning else !o.otherApp;
      && after == store[id := store[id].(state := if ok then ResumePending else ClosedBlocked, reason := reason)]
      && (!gone ==> reason == "doctor-exit-timeout")
      && (gone && !o.oldRunning && o.otherApp ==> reason == "codex-identity-changed")
      && (gone && o.oldRunning && !o.quitOk ==> reason == "codex-quit-failed")
      && (gone && o.oldRunning && o.quitOk && false !in o.stillRunning ==> reason == "codex-restart-incomplete")
      && (away && !o.launchOk ==> reason == "codex-relaunch-failed")
      && (away && o.launchOk && true !in o.newApp ==> reason == "codex-readiness-timeout")
      && (away && o.launchOk && true in o.newApp ==> reason == if o.openOk then "codex-relaunched" else "thread-open-failed")
  {
  }

  /** The pairs of states of ALLOWED_INCIDENT_TRANSITIONS. */
  const TRANSITIONS := {
    (Diagnosing, RestartEligible), (Diagnosing, ClosedHealthy), (Diagnosing, ClosedBlocked),
    (RestartEligible, RestartPrepared), (RestartEligible, ClosedBlocked),
    (RestartPrepared, ResumePending), (RestartPrepared, ClosedBlocked),
    (ResumePending, ClosedHealthy), (ResumePending, ClosedFreshTaskRequired)}

  /** A transition takes place exactly from the expected recorded state along an allowed pair. It then
      sets the state and the given fields of that incident, and nothing else. */
  lemma TransitionExactly(store: Store, id: Id, expected: State, next: State, u: Update)
    ensures
      var (after, ok) := Transition(store, id, expected, next, u);
      && (ok <==> id in store && store[id].state == expected && (expected, next) in TRANSITIONS)
      && (!ok ==> after == store)
      && (ok ==>
            && id in after && after == store[id := after[id]]
            && after[id].root == store[id].root && after[id].thread == store[id].thread && after[id].state == next
            && after[id].reason == (if u.reason == None || u.reason == Some("") then store[id].reason else u.reason.value)
            && after[id].restartAttempted == (if u.restartAttempted == None then store[id].restartAttempted
                                              else u.restartAttempted.value)
            && after[id].heartbeat == (if u.heartbeat == None then store[id].heartbeat else u.heartbeat)
            && after[id].dogfood == (if u.dogfood == None then store[id].dogfood else u.dogfood.value))
  {
  }

  /** The `i`th listed incident is restart-eligible for this root and thread. */
  predicate ListedEligible(store: Store, order: seq<Id>, root: string, thread: string, i: nat)
    requires i < |order|
  {
    && order[i] in store && store[order[i]].state == RestartEligible
    && store[order[i]].root == root && store[order[i]].thread == thread
  }

  lemma {:induction false} FirstIsFound(store: Store, order: seq<Id>, root: string, thread: string, i: nat)
    requires i < |order| && ListedEligible(store, order, root, thread, i)
    requires forall j | 0 <= j < i :: !ListedEligible(store, order, root, thread, j)
    ensures FindEligible(store, order, root, thread) == Some(order[i])
  {
    if i > 0 {
      assert !ListedEligible(store, order, root, thread, 0);
      forall j | 0 <= j < i - 1 ensures !ListedEligible(store, order[1..], root, thread, j) {
        assert !ListedEligible(store, order, root, thread, j + 1);
      }
      FirstIsFound(store, order[1..], root, thread, i - 1);
    }
  }

  /** A recovery reuses the first listed eligible incident of its root and thread without touching it,
      and records a fresh one exactly when there is none. */
  lemma {:induction false} RecoveryReusesTheFirst(store: Store, order: seq<Id>, root: string, thread: string,
                                                  reason: string, newId: Id)
    ensures
      var result := CreateOrReuse(store, order, root, thread, reason, newId);
      && (forall i | 0 <= i < |order| && ListedEligible(store, order, root, thread, i)
                     && (forall j | 0 <= j < i :: !ListedEligible(store, order, root, thread, j)) ::
            result == (store, order[i]))
      && ((forall i | 0 <= i < |order| :: !ListedEligible(store, order, root, thread, i)) ==>
            result == (store[newId := Incident(root, thread, RestartEligible, false, None, reason, false)], newId))
  {
    forall i | 0 <= i < |order| && ListedEligible(store, order, root, thread, i)
               && (forall j | 0 <= j < i :: !ListedEligible(store, order, root, thread, j))
      ensures FindEligible(store, order, root, thread) == Some(order[i])
    {
      FirstIsFound(store, order, root, thread, i);
    }
    if found :| FindEligible(store, order, root, thread) == Some(found) {
      FoundIsListed(store, order, root, thread);
    }
  }

  lemma {:induction false} FoundIsListed(store: Store, order: seq<Id>, root: string, thread: string)
    requires FindEligible(store, order, root, thread).Some?
    ensures exists i :: 0 <= i < |order| && ListedEligible(store, order, root, thread, i)
  {
    if order[0] in store && EligibleFor(store[order[0]], root, thread) {
      assert ListedEligible(store, order, root, thread, 0);
    } else {
      FoundIsListed(store, order[1..], root, thread);
      var i :| 0 <= i < |order[1..]| && ListedEligible(store, order[1..], root, thread, i);
      assert ListedEligible(store, order, root, thread, i + 1);
    }
  }

  // ---------------------------------------------------------------------------------
  // The record files as the programs rewrite them
  // ---------------------------------------------------------------------------------

  class IncidentStore {
    var records: Store

    constructor ()
      ensures records == map[]
    {
      records := map[];
    }

    method DoTransition(id: Id, expected: State, next: State, u: Update) returns (ok: bool)
      modifies this
      ensures (records, ok) == Transition(old(records), id, expected, next, u)
    {
      if !Allowed(expected, next) { return false; }
      if id !in records { return false; }
      var current := records[id];
      if current.state != expected { return false; }
      var reason := current.reason;
      if u.reason.Some? && u.reason.value != "" { reason := u.reason.value; }
      records := records[id := Incident(
        current.root, current.thread, next, Or(u.restartAttempted, current.restartAttempted),
        if u.heartbeat.Some? then u.heartbeat else current.heartbeat, reason, Or(u.dogfood, current.dogfood))];
      ok := true;
    }

    /** The scan over the record files of `create_or_reuse_restart`. */
    method DoCreateOrReuse(order: seq<Id>, root: string, thread: string, reason: string, newId: Id) returns (id: Id)
      modifies this
      ensures (records, id) == CreateOrReuse(old(records), order, root, thread, reason, newId)
    {
      for k := 0 to |order|
        invariant FindEligible(records, order[k..], root, thread) == FindEligible(records, order, root, thread)
      {
        assert order[k..] == [order[k]] + order[k + 1..];
        if order[k] in records && EligibleFor(records[order[k]], root, thread) { return order[k]; }
      }
      records := records[newId := NewIncident(root, thread, reason)];
      id := newId;
    }

    method DoCloseBlocked(id: Id, reason: string)
      modifies this
      ensures records == CloseBlocked(old(records), id, reason)
    {
      var _ := DoTransition(id, RestartPrepared, ClosedBlocked, Because(reason));
    }

    /** `perform_relaunch`: bounded waits, each early exit writing one transition. */
    method PerformRelaunch(id: Id, o: Observations) returns (ok: bool)
      modifies this
      ensures (records, ok) == Relaunch(old(records), id, o)
    {
      var i := 0;
      while i < |o.doctorAlive| && o.doctorAlive[i]
        invariant 0 <= i <= |o.doctorAlive| && false !in o.doctorAlive[..i]
      {
        assert o.doctorAlive[..i + 1] == o.doctorAlive[..i] + [o.doctorAlive[i]];
        i := i + 1;
      }
      if i == |o.doctorAlive| {
        assert o.doctorAlive[..i] == o.doctorAlive;
        DoCloseBlocked(id, "doctor-exit-timeout");
        return false;
      }
      if !o.oldRunning && o.otherApp {
        DoCloseBlocked(id, "codex-identity-changed");
        return false;
      }
      if o.oldRunning {
        if !o.quitOk {
          DoCloseBlocked(id, "codex-quit-failed");
          return false;
        }
        i := 0;
        while i < |o.stillRunning| && o.stillRunning[i]
          invariant 0 <= i <= |o.stillRunning| && false !in o.stillRunning[..i]
        {
          assert o.stillRunning[..i + 1] == o.stillRunning[..i] + [o.stillRunning[i]];
          i := i + 1;
        }
        if i == |o.stillRunning| {
          assert o.stillRunning[..i] == o.stillRunning;
          DoCloseBlocked(id, "codex-restart-incomplete");
          return false;
        }
      }
      if !o.launchOk {
        DoCloseBlocked(id, "codex-relaunch-failed");
        return false;
      }
      i := 0;
      while i < |o.newApp| && !o.newApp[i]
        invariant 0 <= i <= |o.newApp| && true !in o.newApp[..i]
      {
        assert o.newApp[..i + 1] == o.newApp[..i] + [o.newApp[i]];
        i := i + 1;
      }
      if i == |o.newApp| {
        assert o.newApp[..i] == o.newApp;
        DoCloseBlocked(id, "codex-readiness-timeout");
        return false;
      }
      if !o.openOk {
        DoCloseBlocked(id, "thread-open-failed");
        return false;
      }
      ok := DoTransition(id, RestartPrepared, ResumePending, Because("codex-relaunched"));
    }
  }
}
