/**
  Runs of the guarded restart: any interleaving of recover, prepare, relaunch, resume and policy
  commands, each a process whose file accesses are separate steps and which may die between any
  two of them. Incidents come only from recover's `create_or_reuse_restart`.
 */
module IncidentRuns {
  import opened Wrappers
  import opened Incidents

  type Pid = nat

  /** A running command, at the point it has reached. */
  datatype Proc =
    | Preparing(id: Id, dogfood: bool)      // incident loaded, eligible, in scope and attested
    | Cleared(id: Id, dogfood: bool)        // policy allows it and the app was identified
    | Starting(id: Id, dogfood: bool)       // compare-and-set done; about to start the relauncher
    | Relaunching(id: Id)                   // the detached relauncher
    | Resuming(id: Id)                      // incident loaded in state resume-pending
    | Enabling(id: Id)                      // a successful dogfood incident was loaded

  datatype Start = Start(id: Id, dogfood: bool)

  /** `starts` logs the relaunchers started; `histories` the states each incident went through. */
  datatype World = World(store: Store, policy: bool, procs: map<Pid, Proc>, starts: seq<Start>,
                         histories: map<Id, seq<State>>)

  const InitialWorld := World(map[], false, map[], [], map[])

  datatype Action =
    | Recover(order: seq<Id>, root: string, thread: string, reason: string, newId: Id)
    | Prepare(p: Pid, id: Id, root: string, thread: string, dogfood: bool, attested: bool)
    | CheckPolicy(p: Pid, identified: bool)
    | Claim(p: Pid, heartbeat: string)
    | StartRelauncher(p: Pid, started: bool, child: Pid)
    | FinishRelaunch(p: Pid, observations: Observations)
    | Resume(p: Pid, id: Id, root: string, thread: string, relaunched: bool)
    | FinishResume(p: Pid, healthy: bool, tools: bool)   // the handshake, and the reported tools
    | DisablePolicy
    | EnablePolicy(p: Pid, id: Id)
    | WritePolicy(p: Pid)
    | Die(p: Pid)

  /** Replaces the store and extends the history of an incident whose state changed. */
  function Record(w: World, store: Store, id: Id): World {
    if id in store && (id !in w.store || w.store[id].state != store[id].state)
    then w.(store := store,
            histories := w.histories[id := (if id in w.histories then w.histories[id] else []) + [store[id].state]])
    else w.(store := store)
  }

  function Become(w: World, p: Pid, proc: Proc): World {
    w.(procs := w.procs[p := proc])
  }

  function Leave(w: World, p: Pid): World {
    w.(procs := w.procs - {p})
  }

  function InScope(store: Store, id: Id, root: string, thread: string, state: State): bool {
    id in store && store[id].state == state && store[id].root == root && store[id].thread == thread
  }

  function ResumeEnd(healthy: bool, tools: bool): (State, string) {
    if !healthy then (ClosedFreshTaskRequired, "post-restart-handshake-failed")
    else if !tools then (ClosedFreshTaskRequired, "task-tools-still-missing")
    else (ClosedHealthy, "task-tools-restored")
  }

  function Act(w: World, a: Action): World {
    match a
    case Recover(order, root, thread, reason, newId) =>
      if newId in w.store || newId in w.histories || !(forall id | id in w.store :: id in order) then w
      else
        var (store, id) := CreateOrReuse(w.store, order, root, thread, reason, newId);
        Record(w, store, id)
    case Prepare(p, id, root, thread, dogfood, attested) =>
      if p in w.procs || !InScope(w.store, id, root, thread, RestartEligible) || !attested then w
      else Become(w, p, Preparing(id, dogfood))
    case CheckPolicy(p, identified) =>
      if !(p in w.procs && w.procs[p].Preparing?) then w
      else if (!w.procs[p].dogfood && !w.policy) || !identified then Leave(w, p)
      else Become(w, p, Cleared(w.procs[p].id, w.procs[p].dogfood))
    case Claim(p, heartbeat) =>
      if !(p in w.procs && w.procs[p].Cleared?) then w
      else
        var Cleared(id, dogfood) := w.procs[p];
        var u := Update(Some("restart-prepared"), Some(true), Some(heartbeat), Some(dogfood));
        var (store, ok) := Transition(w.store, id, RestartEligible, RestartPrepared, u);
        if ok then Become(Record(w, store, id), p, Starting(id, dogfood)) else Leave(w, p)
    case StartRelauncher(p, started, child) =>
      if !(p in w.procs && w.procs[p].Starting?) || child in w.procs then w
      else
        var Starting(id, dogfood) := w.procs[p];
        if started then Become(Leave(w.(starts := w.starts + [Start(id, dogfood)]), p), child, Relaunching(id))
        else
          var (store, _) := Transition(w.store, id, RestartPrepared, ClosedBlocked, Because("relauncher-launch-failed"));
          Leave(Record(w, store, id), p)
    case FinishRelaunch(p, o) =>
      if !(p in w.procs && w.procs[p].Relaunching?) then w
      else Leave(Record(w, Relaunch(w.store, w.procs[p].id, o).0, w.procs[p].id), p)
    case Resume(p, id, root, thread, relaunched) =>
      if p in w.procs || !InScope(w.store, id, root, thread, ResumePending) || !relaunched then w
      else Become(w, p, Resuming(id))
    case FinishResume(p, healthy, tools) =>
      if !(p in w.procs && w.procs[p].Resuming?) then w
      else
        var id := w.procs[p].id;
        var (next, reason) := ResumeEnd(healthy, tools);
        Leave(Record(w, Transition(w.store, id, ResumePending, next, Because(reason)).0, id), p)
    case DisablePolicy => w.(policy := false)
    case EnablePolicy(p, id) =>
      if p in w.procs || id !in w.store || w.store[id].state != ClosedHealthy || !w.store[id].dogfood then w
      else Become(w, p, Enabling(id))
    case WritePolicy(p) =>
      if !(p in w.procs && w.procs[p].Enabling?) then w else Leave(w.(policy := true), p)
    case Die(p) => Leave(w, p)
  }

  function Acts(w: World, actions: seq<Action>): World {
    Fold(Act, w, actions)
  }

  // ---------------------------------------------------------------------------------
  // Invariant
  // ---------------------------------------------------------------------------------

  /** The one life that leads an incident to a state. */
  function Life(s: State): seq<State> {
    match s
    case Diagnosing => []
    case RestartEligible => [RestartEligible]
    case RestartPrepared => [RestartEligible, RestartPrepared]
    case ResumePending => [RestartEligible, RestartPrepared, ResumePending]
    case ClosedHealthy => [RestartEligible, RestartPrepared, ResumePending, ClosedHealthy]
    case ClosedFreshTaskRequired => [RestartEligible, RestartPrepared, ResumePending, ClosedFreshTaskRequired]
    case ClosedBlocked => [RestartEligible, RestartPrepared, ClosedBlocked]
  }

  ghost predicate HistoryInv(w: World) {
    && w.histories.Keys == w.store.Keys
    && forall id | id in w.store :: w.store[id].state != Diagnosing && w.histories[id] == Life(w.store[id].state)
  }

  /** At most one restart-eligible incident per root and thread. */
  ghost predicate UniqueInv(store: Store) {
    forall a, b | a in store && b in store && a != b ::
      !(store[a].state == RestartEligible && store[b].state == RestartEligible
        && store[a].root == store[b].root && store[a].thread == store[b].thread)
  }

  predicate Started(starts: seq<Start>, id: Id) {
    exists i :: 0 <= i < |starts| && starts[i].id == id
  }

  /** A dogfood restart that went all the way: the evidence that the policy asks for. */
  ghost predicate Proven(w: World) {
    exists id :: id in w.store && w.store[id].state == ClosedHealthy && w.store[id].dogfood
  }

  ghost predicate ProcInv(w: World, p: Pid)
    requires p in w.procs
  {
    match w.procs[p]
    case Preparing(id, _) => id in w.store
    case Cleared(id, dogfood) => id in w.store && (!dogfood ==> Proven(w))
    case Starting(id, dogfood) =>
      && id in w.store && w.store[id].state == RestartPrepared && w.store[id].dogfood == dogfood
      && !Started(w.starts, id) && (!dogfood ==> Proven(w))
    case Relaunching(id) => id in w.store && w.store[id].state == RestartPrepared && Started(w.starts, id)
    case Resuming(id) => id in w.store
    case Enabling(_) => Proven(w)
  }

  /** The process that may still move a prepared incident on is unique. */
  ghost predicate MoverInv(w: World) {
    forall p, q | p in w.procs && q in w.procs && p != q ::
      !(Moves(w.procs[p]) && Moves(w.procs[q]) && w.procs[p].id == w.procs[q].id)
  }

  predicate Moves(proc: Proc) {
    proc.Starting? || proc.Relaunching?
  }

  /** The log of started relaunchers: one per incident, after its preparation, with its flag. */
  ghost predicate StartsInv(w: World) {
    && (forall i, j | 0 <= i < j < |w.starts| :: w.starts[i].id != w.starts[j].id)
    && (forall i | 0 <= i < |w.starts| ::
          && w.starts[i].id in w.store && w.store[w.starts[i].id].state != RestartEligible
          && w.store[w.starts[i].id].dogfood == w.starts[i].dogfood)
    && (forall id | id in w.store && w.store[id].state in {ResumePending, ClosedHealthy, ClosedFreshTaskRequired} ::
          Started(w.starts, id))
  }

  /** Every non-dogfood start comes after the start of a dogfood restart that succeeded. */
  ghost predicate PrecedentInv(w: World) {
    && (w.policy ==> Proven(w))
    && (forall i | 0 <= i < |w.starts| && !w.starts[i].dogfood :: Precedent(w, i))
  }

  ghost predicate Precedent(w: World, i: int) {
    exists j :: 0 <= j < i && j < |w.starts| && w.starts[j].dogfood && w.starts[j].id in w.store
      && w.store[w.starts[j].id].state == ClosedHealthy
  }

  ghost predicate Inv(w: World) {
    && HistoryInv(w) && UniqueInv(w.store) && MoverInv(w) && StartsInv(w) && PrecedentInv(w)
    && forall p | p in w.procs :: ProcInv(w, p)
  }

  // ---------------------------------------------------------------------------------
  // Every action keeps the invariant
  // ---------------------------------------------------------------------------------

  /** One incident moved (or appeared), the others as they were. */
  ghost predicate OneMoved(w: World, store: Store, id: Id) {
    && id in store && store.Keys == w.store.Keys + {id}
    && (forall k | k in w.store && k != id :: store[k] == w.store[k])
  }

  lemma PrecedentStays(w: World, w': World, i: int)
    requires Precedent(w, i) && w.starts <= w'.starts
    requires forall k | k in w.store && w.store[k].state == ClosedHealthy :: k in w'.store && w'.store[k] == w.store[k]
    ensures Precedent(w', i)
  {
  }

  lemma LeaveKeepsInv(w: World, p: Pid)
    requires Inv(w)
    ensures Inv(Leave(w, p))
  {
    var w' := Leave(w, p);
    assert Proven(w) ==> Proven(w');
    forall i | 0 <= i < |w.starts| && !w.starts[i].dogfood ensures Precedent(w', i) {
      PrecedentStays(w, w', i);
    }
    forall q | q in w'.procs ensures ProcInv(w', q) {
      assert ProcInv(w, q);
    }
  }

  /** A new process that cannot yet move an incident. */
  lemma BecomeKeepsInv(w: World, p: Pid, proc: Proc)
    requires Inv(w) && !Moves(proc) && ProcInv(Become(w, p, proc), p)
    ensures Inv(Become(w, p, proc))
  {
    var w' := Become(w, p, proc);
    assert Proven(w) ==> Proven(w');
    forall i | 0 <= i < |w.starts| && !w.starts[i].dogfood ensures Precedent(w', i) {
      PrecedentStays(w, w', i);
    }
    forall q | q in w'.procs && q != p ensures ProcInv(w', q) {
      assert ProcInv(w, q);
    }
  }

  /** A process `p` moves the incident `id` from `from` to `next`. */
  ghost predicate MoveOf(w: World, store: Store, id: Id, next: State) {
    && id in w.store && OneMoved(w, store, id)
    && store[id].state == next && Allowed(w.store[id].state, next)
    && store[id].root == w.store[id].root && store[id].thread == w.store[id].thread
    && next != RestartEligible && w.store[id].state != Diagnosing
  }

  /** A successful compare-and-set is such a move. */
  lemma TransitionMoves(w: World, id: Id, expected: State, next: State, u: Update)
    requires Transition(w.store, id, expected, next, u).1
    requires expected != Diagnosing && next != RestartEligible
    ensures MoveOf(w, Transition(w.store, id, expected, next, u).0, id, next) && w.store[id].state == expected
    ensures u.dogfood.None? ==> Transition(w.store, id, expected, next, u).0[id].dogfood == w.store[id].dogfood
  {
  }

  lemma LifeExtends(current: State, next: State)
    requires Allowed(current, next) && current != Diagnosing
    requires current == RestartEligible ==> next == RestartPrepared
    ensures Life(current) + [next] == Life(next)
  {
  }

  lemma RecordMove(w: World, store: Store, id: Id, next: State)
    requires HistoryInv(w) && MoveOf(w, store, id, next)
    requires w.store[id].state == RestartEligible ==> next == RestartPrepared
    ensures HistoryInv(Record(w, store, id)) && Record(w, store, id).store == store
  {
    LifeExtends(w.store[id].state, next);
    assert store[id].state != w.store[id].state;
    assert Record(w, store, id).histories == w.histories[id := Life(next)];
  }

  lemma MoveKeepsUnique(w: World, store: Store, id: Id, next: State)
    requires UniqueInv(w.store) && MoveOf(w, store, id, next)
    ensures UniqueInv(store)
  {
  }

  /** Evidence survives a move, and so do the precedents of the log. */
  lemma MoveKeepsPrecedents(w: World, w': World, id: Id, next: State)
    requires PrecedentInv(w) && MoveOf(w, w'.store, id, next) && w'.starts == w.starts && w'.policy == w.policy
    ensures PrecedentInv(w') && (Proven(w) ==> Proven(w'))
  {
  }

  lemma MoveKeepsStarts(w: World, w': World, id: Id, next: State)
    requires StartsInv(w) && MoveOf(w, w'.store, id, next) && w'.starts == w.starts
    requires w'.store[id].dogfood == w.store[id].dogfood || !Started(w.starts, id)
    requires next in {ResumePending, ClosedHealthy, ClosedFreshTaskRequired} ==> Started(w.starts, id)
    ensures StartsInv(w')
  {
  }

  lemma MoveKeepsProc(w: World, w': World, id: Id, next: State, q: Pid)
    requires q in w.procs && q in w'.procs && w'.procs[q] == w.procs[q] && ProcInv(w, q)
    requires MoveOf(w, w'.store, id, next) && w'.starts == w.starts && (Proven(w) ==> Proven(w'))
    requires Moves(w.procs[q]) ==> w.procs[q].id != id
    ensures ProcInv(w', q)
  {
  }

  /** A move by the one process entitled to it, which then leaves. */
  lemma FinalMoveKeepsInv(w: World, p: Pid, store: Store, id: Id, next: State)
    requires Inv(w) && MoveOf(w, store, id, next) && w.store[id].state in {RestartPrepared, ResumePending}
    requires store[id].dogfood == w.store[id].dogfood
    requires w.store[id].state == ResumePending || next == ResumePending ==> Started(w.starts, id)
    requires forall q | q in w.procs && q != p && Moves(w.procs[q]) :: w.procs[q].id != id
    ensures Inv(Leave(Record(w, store, id), p))
  {
    RecordMove(w, store, id, next);
    MoveKeepsUnique(w, store, id, next);
    var w' := Leave(Record(w, store, id), p);
    MoveKeepsPrecedents(w, w', id, next);
    MoveKeepsStarts(w, w', id, next);
    forall q | q in w'.procs ensures ProcInv(w', q) {
      MoveKeepsProc(w, w', id, next, q);
    }
  }

  /** A new eligible incident leaves the rest of the store alone. */
  ghost predicate Appears(w: World, store: Store, id: Id) {
    && id !in w.store && OneMoved(w, store, id) && store[id].state == RestartEligible
  }

  lemma AppearKeepsPrecedents(w: World, w': World, id: Id)
    requires PrecedentInv(w) && Appears(w, w'.store, id) && w'.starts == w.starts && w'.policy == w.policy
    ensures PrecedentInv(w') && (Proven(w) ==> Proven(w'))
  {
  }

  lemma AppearKeepsStarts(w: World, w': World, id: Id)
    requires StartsInv(w) && Appears(w, w'.store, id) && w'.starts == w.starts
    ensures StartsInv(w')
  {
  }

  lemma AppearKeepsProc(w: World, w': World, id: Id, q: Pid)
    requires q in w.procs && w'.procs == w.procs && ProcInv(w, q)
    requires Appears(w, w'.store, id) && w'.starts == w.starts && (Proven(w) ==> Proven(w'))
    ensures ProcInv(w', q)
  {
  }

  lemma AppearKeepsHistory(w: World, store: Store, id: Id)
    requires HistoryInv(w) && Appears(w, store, id)
    ensures HistoryInv(Record(w, store, id))
  {
  }

  lemma AppearKeepsUnique(w: World, store: Store, id: Id)
    requires UniqueInv(w.store) && Appears(w, store, id)
    requires forall k | k in w.store :: !EligibleFor(w.store[k], store[id].root, store[id].thread)
    ensures UniqueInv(store)
  {
  }

  lemma RecoverKeepsInv(w: World, order: seq<Id>, root: string, thread: string, reason: string, newId: Id)
    requires Inv(w)
    ensures Inv(Act(w, Recover(order, root, thread, reason, newId)))
  {
    var w' := Act(w, Recover(order, root, thread, reason, newId));
    if w' != w && FindEligible(w.store, order, root, thread).None? {
      var store := w.store[newId := NewIncident(root, thread, reason)];
      assert w' == Record(w, store, newId);
      AppearKeepsHistory(w, store, newId);
      AppearKeepsUnique(w, store, newId);
      AppearKeepsPrecedents(w, w', newId);
      AppearKeepsStarts(w, w', newId);
      forall q | q in w'.procs ensures ProcInv(w', q) {
        AppearKeepsProc(w, w', newId, q);
      }
    }
  }

  lemma ClaimedProcs(w: World, w': World, p: Pid, id: Id, dogfood: bool)
    requires p in w.procs && w.procs[p] == Cleared(id, dogfood) && (forall q | q in w.procs :: ProcInv(w, q))
    requires MoveOf(w, w'.store, id, RestartPrepared) && w.store[id].state == RestartEligible
    requires w'.store[id].dogfood == dogfood && w'.procs == w.procs[p := Starting(id, dogfood)]
    requires w'.starts == w.starts && (Proven(w) ==> Proven(w')) && !Started(w.starts, id)
    ensures forall q | q in w'.procs :: ProcInv(w', q)
  {
    assert ProcInv(w, p);
    forall q | q in w'.procs && q != p ensures ProcInv(w', q) {
      MoveKeepsProc(w, w', id, RestartPrepared, q);
    }
  }

  lemma ClaimedMover(w: World, w': World, p: Pid, id: Id, dogfood: bool)
    requires id in w.store && w.store[id].state == RestartEligible
    requires MoverInv(w) && (forall q | q in w.procs :: ProcInv(w, q))
    requires p in w.procs && w'.procs == w.procs[p := Starting(id, dogfood)]
    ensures MoverInv(w')
  {
  }

  lemma ClaimedKeepsInv(w: World, p: Pid, store: Store, id: Id, dogfood: bool)
    requires Inv(w) && p in w.procs && w.procs[p] == Cleared(id, dogfood)
    requires MoveOf(w, store, id, RestartPrepared) && w.store[id].state == RestartEligible
    requires store[id].dogfood == dogfood && !Started(w.starts, id)
    ensures Inv(Become(Record(w, store, id), p, Starting(id, dogfood)))
  {
    var r := Record(w, store, id);
    RecordMove(w, store, id, RestartPrepared);
    MoveKeepsUnique(w, store, id, RestartPrepared);
    MoveKeepsPrecedents(w, r, id, RestartPrepared);
    MoveKeepsStarts(w, r, id, RestartPrepared);
    var w' := Become(r, p, Starting(id, dogfood));
    SameRecords(r, w');
    assert Proven(r) ==> Proven(w');
    ClaimedProcs(w, w', p, id, dogfood);
    ClaimedMover(w, w', p, id, dogfood);
  }

  /** What only speaks of the records does not depend on the processes. */
  lemma SameRecords(w: World, w': World)
    requires w' == w.(procs := w'.procs)
    ensures HistoryInv(w) ==> HistoryInv(w')
    ensures StartsInv(w) ==> StartsInv(w')
    ensures PrecedentInv(w) ==> PrecedentInv(w')
    ensures Proven(w) ==> Proven(w')
  {
  }

  lemma ClaimKeepsInv(w: World, p: Pid, heartbeat: string)
    requires Inv(w)
    ensures Inv(Act(w, Claim(p, heartbeat)))
  {
    if p in w.procs && w.procs[p].Cleared? {
      var Cleared(id, dogfood) := w.procs[p];
      var u := Update(Some("restart-prepared"), Some(true), Some(heartbeat), Some(dogfood));
      var (store, ok) := Transition(w.store, id, RestartEligible, RestartPrepared, u);
      if ok {
        assert !Started(w.starts, id) by {
          assert w.store[id].state == RestartEligible;
        }
        ClaimedKeepsInv(w, p, store, id, dogfood);
      } else {
        LeaveKeepsInv(w, p);
      }
    }
  }

  /** Appending the start of a prepared incident to the log. */
  lemma StartLogged(w: World, w': World, id: Id, dogfood: bool)
    requires StartsInv(w) && !Started(w.starts, id)
    requires id in w.store && w.store[id].state == RestartPrepared && w.store[id].dogfood == dogfood
    requires w'.store == w.store && w'.starts == w.starts + [Start(id, dogfood)]
    ensures StartsInv(w')
  {
    forall k | Started(w.starts, k) ensures Started(w'.starts, k) {
      var i :| 0 <= i < |w.starts| && w.starts[i].id == k;
      assert w'.starts[i].id == k;
    }
    forall i | 0 <= i < |w.starts| ensures w'.starts[i].id != id {
      assert w.starts[i].id != id;
    }
  }

  lemma StartHasPrecedent(w: World, w': World, id: Id, dogfood: bool)
    requires StartsInv(w) && PrecedentInv(w) && (!dogfood ==> Proven(w))
    requires w'.store == w.store && w'.starts == w.starts + [Start(id, dogfood)] && w'.policy == w.policy
    ensures PrecedentInv(w') && (Proven(w) ==> Proven(w'))
  {
    forall i | 0 <= i < |w'.starts| && !w'.starts[i].dogfood ensures Precedent(w', i) {
      if i < |w.starts| {
        PrecedentStays(w, w', i);
      } else {
        var k :| k in w.store && w.store[k].state == ClosedHealthy && w.store[k].dogfood;
        assert Started(w.starts, k);
        var j :| 0 <= j < |w.starts| && w.starts[j].id == k;
        assert w'.starts[j] == w.starts[j];
      }
    }
  }

  lemma OtherProcsIgnoreStart(w: World, w': World, p: Pid, q: Pid, id: Id, dogfood: bool)
    requires p in w.procs && q in w.procs && p != q && w.procs[p] == Starting(id, dogfood) && MoverInv(w)
    requires ProcInv(w, q) && q in w'.procs && w'.procs[q] == w.procs[q]
    requires w'.store == w.store && w'.starts == w.starts + [Start(id, dogfood)] && (Proven(w) ==> Proven(w'))
    ensures ProcInv(w', q)
  {
    if w.procs[q].Relaunching? {
      var i :| 0 <= i < |w.starts| && w.starts[i].id == w.procs[q].id;
      assert w'.starts[i].id == w.procs[q].id;
    }
    if w.procs[q].Starting? {
      forall i | 0 <= i < |w'.starts| ensures w'.starts[i].id != w.procs[q].id {
        assert i < |w.starts| ==> w.starts[i].id != w.procs[q].id;
      }
    }
  }

  lemma StartedProcs(w: World, w': World, p: Pid, child: Pid, id: Id, dogfood: bool)
    requires p in w.procs && w.procs[p] == Starting(id, dogfood) && MoverInv(w) && child !in w.procs
    requires forall q | q in w.procs :: ProcInv(w, q)
    requires w'.procs == (w.procs - {p})[child := Relaunching(id)]
    requires w'.store == w.store && w'.starts == w.starts + [Start(id, dogfood)] && (Proven(w) ==> Proven(w'))
    ensures forall q | q in w'.procs :: ProcInv(w', q)
  {
    forall q | q in w'.procs ensures ProcInv(w', q) {
      if q == child {
        assert ProcInv(w, p);
        assert w'.starts[|w.starts|].id == id;
      } else {
        OtherProcsIgnoreStart(w, w', p, q, id, dogfood);
      }
    }
  }

  lemma StartedMover(w: World, w': World, p: Pid, child: Pid, id: Id, dogfood: bool)
    requires p in w.procs && w.procs[p] == Starting(id, dogfood) && MoverInv(w) && child !in w.procs
    requires w'.procs == (w.procs - {p})[child := Relaunching(id)]
    ensures MoverInv(w')
  {
  }

  lemma StartKeepsInv(w: World, p: Pid, child: Pid)
    requires Inv(w)
    ensures Inv(Act(w, StartRelauncher(p, true, child)))
  {
    if p in w.procs && w.procs[p].Starting? && child !in w.procs {
      var Starting(id, dogfood) := w.procs[p];
      assert ProcInv(w, p);
      var w' := Act(w, StartRelauncher(p, true, child));
      StartLogged(w, w', id, dogfood);
      StartHasPrecedent(w, w', id, dogfood);
      StartedProcs(w, w', p, child, id, dogfood);
      StartedMover(w, w', p, child, id, dogfood);
    }
  }

  lemma FailedStartKeepsInv(w: World, p: Pid, child: Pid)
    requires Inv(w)
    ensures Inv(Act(w, StartRelauncher(p, false, child)))
  {
    if p in w.procs && w.procs[p].Starting? && child !in w.procs {
      var id := w.procs[p].id;
      var u := Because("relauncher-launch-failed");
      TransitionMoves(w, id, RestartPrepared, ClosedBlocked, u);
      FinalMoveKeepsInv(w, p, Transition(w.store, id, RestartPrepared, ClosedBlocked, u).0, id, ClosedBlocked);
    }
  }

  lemma RelauncherMayMove(w: World, p: Pid)
    requires Inv(w) && p in w.procs && w.procs[p].Relaunching?
    ensures w.procs[p].id in w.store && w.store[w.procs[p].id].state == RestartPrepared
    ensures Started(w.starts, w.procs[p].id)
    ensures forall q | q in w.procs && q != p && Moves(w.procs[q]) :: w.procs[q].id != w.procs[p].id
  {
    assert ProcInv(w, p);
  }

  lemma FinishKeepsInv(w: World, p: Pid, o: Observations)
    requires Inv(w)
    ensures Inv(Act(w, FinishRelaunch(p, o)))
  {
    if p in w.procs && w.procs[p].Relaunching? {
      RelauncherMayMove(w, p);
      var id := w.procs[p].id;
      var store := Relaunch(w.store, id, o).0;
      FinalMoveKeepsInv(w, p, store, id, store[id].state);
    }
  }

  lemma ResumedKeepsInv(w: World, p: Pid, id: Id, next: State, u: Update)
    requires Inv(w) && next in {ClosedHealthy, ClosedFreshTaskRequired} && u.dogfood.None?
    ensures Inv(Leave(Record(w, Transition(w.store, id, ResumePending, next, u).0, id), p))
  {
    var (store, ok) := Transition(w.store, id, ResumePending, next, u);
    if ok {
      TransitionMoves(w, id, ResumePending, next, u);
      FinalMoveKeepsInv(w, p, store, id, next);
    } else {
      assert Record(w, store, id) == w;
      LeaveKeepsInv(w, p);
    }
  }

  lemma FinishResumeKeepsInv(w: World, p: Pid, healthy: bool, tools: bool)
    requires Inv(w)
    ensures Inv(Act(w, FinishResume(p, healthy, tools)))
  {
    if p in w.procs && w.procs[p].Resuming? {
      var (next, reason) := ResumeEnd(healthy, tools);
      ResumedKeepsInv(w, p, w.procs[p].id, next, Because(reason));
    }
  }

  lemma PolicyKeepsInv(w: World, policy: bool)
    requires Inv(w) && (policy ==> Proven(w))
    ensures Inv(w.(policy := policy))
  {
    var w' := w.(policy := policy);
    assert Proven(w) ==> Proven(w');
    forall i | 0 <= i < |w.starts| && !w.starts[i].dogfood ensures Precedent(w', i) {
      PrecedentStays(w, w', i);
    }
    forall q | q in w'.procs ensures ProcInv(w', q) {
      assert ProcInv(w, q);
    }
  }

  lemma CheckPolicyKeepsInv(w: World, p: Pid, identified: bool)
    requires Inv(w)
    ensures Inv(Act(w, CheckPolicy(p, identified)))
  {
    if p in w.procs && w.procs[p].Preparing? {
      assert ProcInv(w, p);
      if (!w.procs[p].dogfood && !w.policy) || !identified {
        LeaveKeepsInv(w, p);
      } else {
        var proc := Cleared(w.procs[p].id, w.procs[p].dogfood);
        SameRecords(w, Become(w, p, proc));
        BecomeKeepsInv(w, p, proc);
      }
    }
  }

  lemma WritePolicyKeepsInv(w: World, p: Pid)
    requires Inv(w)
    ensures Inv(Act(w, WritePolicy(p)))
  {
    if p in w.procs && w.procs[p].Enabling? {
      assert ProcInv(w, p);
      PolicyKeepsInv(w, true);
      LeaveKeepsInv(w.(policy := true), p);
    }
  }

  /** A command that does nothing or lets a new process arrive that cannot move an incident yet. */
  ghost predicate Arrives(w: World, next: World, p: Pid, proc: Proc) {
    next == w || (next == Become(w, p, proc) && !Moves(proc) && ProcInv(next, p))
  }

  lemma ArrivalKeepsInv(w: World, next: World, p: Pid, proc: Proc)
    requires Inv(w) && Arrives(w, next, p, proc)
    ensures Inv(next)
  {
    if next != w {
      BecomeKeepsInv(w, p, proc);
    }
  }

  lemma PrepareKeepsInv(w: World, p: Pid, id: Id, root: string, thread: string, dogfood: bool, attested: bool)
    requires Inv(w)
    ensures Inv(Act(w, Prepare(p, id, root, thread, dogfood, attested)))
  {
    ArrivalKeepsInv(w, Act(w, Prepare(p, id, root, thread, dogfood, attested)), p, Preparing(id, dogfood));
  }

  lemma ResumeKeepsInv(w: World, p: Pid, id: Id, root: string, thread: string, relaunched: bool)
    requires Inv(w)
    ensures Inv(Act(w, Resume(p, id, root, thread, relaunched)))
  {
    ArrivalKeepsInv(w, Act(w, Resume(p, id, root, thread, relaunched)), p, Resuming(id));
  }

  lemma StartRelauncherKeepsInv(w: World, p: Pid, started: bool, child: Pid)
    requires Inv(w)
    ensures Inv(Act(w, StartRelauncher(p, started, child)))
  {
    if started {
      StartKeepsInv(w, p, child);
    } else {
      FailedStartKeepsInv(w, p, child);
    }
  }

  lemma EnablePolicyKeepsInv(w: World, p: Pid, id: Id)
    requires Inv(w)
    ensures Inv(Act(w, EnablePolicy(p, id)))
  {
    ArrivalKeepsInv(w, Act(w, EnablePolicy(p, id)), p, Enabling(id));
  }

  lemma ActKeepsInv(w: World, a: Action)
    requires Inv(w)
    ensures Inv(Act(w, a))
  {
    match a
    case Recover(order, root, thread, reason, newId) => RecoverKeepsInv(w, order, root, thread, reason, newId);
    case Prepare(p, id, root, thread, dogfood, attested) => PrepareKeepsInv(w, p, id, root, thread, dogfood, attested);
    case CheckPolicy(p, identified) => CheckPolicyKeepsInv(w, p, identified);
    case Claim(p, heartbeat) => ClaimKeepsInv(w, p, heartbeat);
    case StartRelauncher(p, started, child) => StartRelauncherKeepsInv(w, p, started, child);
    case FinishRelaunch(p, o) => FinishKeepsInv(w, p, o);
    case Resume(p, id, root, thread, relaunched) => ResumeKeepsInv(w, p, id, root, thread, relaunched);
    case FinishResume(p, healthy, tools) => FinishResumeKeepsInv(w, p, healthy, tools);
    case DisablePolicy => PolicyKeepsInv(w, false);
    case EnablePolicy(p, id) => EnablePolicyKeepsInv(w, p, id);
    case WritePolicy(p) => WritePolicyKeepsInv(w, p);
    case Die(p) => LeaveKeepsInv(w, p);
  }

  lemma ActsKeepInv(w: World, actions: seq<Action>)
    requires Inv(w)
    ensures Inv(Acts(w, actions))
  {
    forall v, a | Inv(v) ensures Inv(Act(v, a)) {
      ActKeepsInv(v, a);
    }
    FoldKeeps(Act, Inv, w, actions);
  }

  lemma {:induction false} ReachableInv(actions: seq<Action>)
    ensures Inv(Acts(InitialWorld, actions))
  {
    assert Inv(InitialWorld);
    ActsKeepInv(InitialWorld, actions);
  }

  // ---------------------------------------------------------------------------------
  // What every run guarantees
  // ---------------------------------------------------------------------------------

  lemma LivesAdvance(s: State)
    ensures forall i | 0 <= i < |Life(s)| - 1 :: Allowed(Life(s)[i], Life(s)[i + 1])
    ensures s != Diagnosing ==> Life(s) != [] && Life(s)[0] == RestartEligible
  {
  }

  /** Each incident leads one of six lives, from eligible through ever later states. */
  lemma {:induction false} IncidentsAdvance(actions: seq<Action>, id: Id)
    requires id in Acts(InitialWorld, actions).store
    ensures
      var w := Acts(InitialWorld, actions);
      && id in w.histories && w.histories[id] == Life(w.store[id].state)
      && w.histories[id] != [] && w.histories[id][0] == RestartEligible
      && (forall i | 0 <= i < |w.histories[id]| - 1 :: Allowed(w.histories[id][i], w.histories[id][i + 1]))
  {
    ReachableInv(actions);
    LivesAdvance(Acts(InitialWorld, actions).store[id].state);
  }

  /** The relauncher is started at most once per incident, and only with that incident's mode. */
  lemma {:induction false} OneRelaunchPerIncident(actions: seq<Action>, i: nat, j: nat)
    requires i < j < |Acts(InitialWorld, actions).starts|
    ensures Acts(InitialWorld, actions).starts[i].id != Acts(InitialWorld, actions).starts[j].id
  {
    ReachableInv(actions);
  }

  /** At most one restart-eligible incident per root and thread. */
  lemma {:induction false} OneEligibleIncident(actions: seq<Action>, a: Id, b: Id, root: string, thread: string)
    requires InScope(Acts(InitialWorld, actions).store, a, root, thread, RestartEligible)
    requires InScope(Acts(InitialWorld, actions).store, b, root, thread, RestartEligible)
    ensures a == b
  {
    ReachableInv(actions);
  }

  /** A dogfood incident that was prepared, relaunched, resumed and closed healthy. */
  ghost predicate Succeeded(w: World, id: Id) {
    && id in w.store && w.store[id].dogfood && id in w.histories
    && w.histories[id] == [RestartEligible, RestartPrepared, ResumePending, ClosedHealthy]
  }

  lemma PolicyIsEarned(w: World)
    requires HistoryInv(w) && StartsInv(w) && Proven(w)
    ensures exists id :: Succeeded(w, id) && Started(w.starts, id)
  {
  }

  lemma StartIsEarned(w: World, i: int)
    requires HistoryInv(w) && StartsInv(w) && Precedent(w, i)
    ensures exists j :: 0 <= j < i && j < |w.starts| && w.starts[j].dogfood && Succeeded(w, w.starts[j].id)
  {
  }

  /**
    Automatic restarts must be earned. The policy is only ever enabled after some incident was
    prepared as a dogfood restart, reached resume-pending and closed healthy; and every relauncher
    started without the dogfood flag comes after the start of such a successful dogfood restart.
   */
  lemma {:induction false} AutomaticRestartsAreEarned(actions: seq<Action>)
    ensures
      var w := Acts(InitialWorld, actions);
      && (w.policy ==> exists id :: Succeeded(w, id) && Started(w.starts, id))
      && (forall i | 0 <= i < |w.starts| && !w.starts[i].dogfood ::
            (exists j :: 0 <= j < i && w.starts[j].dogfood && Succeeded(w, w.starts[j].id)))
  {
    ReachableInv(actions);
    var w := Acts(InitialWorld, actions);
    if w.policy {
      PolicyIsEarned(w);
    }
    forall i | 0 <= i < |w.starts| && !w.starts[i].dogfood
      ensures exists j :: 0 <= j < i && w.starts[j].dogfood && Succeeded(w, w.starts[j].id)
    {
      StartIsEarned(w, i);
    }
  }

  /** From its preparation on an incident carries its restart attempt and its heartbeat. */
  ghost predicate Marked(store: Store) {
    forall id | id in store && store[id].state !in {Diagnosing, RestartEligible} ::
      store[id].restartAttempted && store[id].heartbeat.Some?
  }

  lemma TransitionKeepsMarked(store: Store, id: Id, expected: State, next: State, u: Update)
    requires Marked(store)
    requires expected != Diagnosing
    requires if expected == RestartEligible then u.restartAttempted == Some(true) && u.heartbeat.Some?
             else u.restartAttempted.None? && u.heartbeat.None?
    ensures Marked(Transition(store, id, expected, next, u).0)
  {
  }

  lemma RelaunchKeepsMarked(store: Store, id: Id, o: Observations)
    requires Marked(store)
    ensures Marked(Relaunch(store, id, o).0)
  {
  }

  lemma ClaimKeepsMarked(w: World, p: Pid, heartbeat: string)
    requires Marked(w.store)
    ensures Marked(Act(w, Claim(p, heartbeat)).store)
  {
  }

  lemma StartKeepsMarked(w: World, p: Pid, started: bool, child: Pid)
    requires Marked(w.store)
    ensures Marked(Act(w, StartRelauncher(p, started, child)).store)
  {
    if p in w.procs && w.procs[p].Starting? {
      TransitionKeepsMarked(w.store, w.procs[p].id, RestartPrepared, ClosedBlocked, Because("relauncher-launch-failed"));
    }
  }

  lemma FinishResumeKeepsMarked(w: World, p: Pid, healthy: bool, tools: bool)
    requires Marked(w.store)
    ensures Marked(Act(w, FinishResume(p, healthy, tools)).store)
  {
    if p in w.procs && w.procs[p].Resuming? {
      var (next, reason) := ResumeEnd(healthy, tools);
      TransitionKeepsMarked(w.store, w.procs[p].id, ResumePending, next, Because(reason));
    }
  }

  lemma ActKeepsMarked(w: World, a: Action)
    requires Marked(w.store)
    ensures Marked(Act(w, a).store)
  {
    match a
    case Claim(p, heartbeat) => ClaimKeepsMarked(w, p, heartbeat);
    case StartRelauncher(p, started, child) => StartKeepsMarked(w, p, started, child);
    case FinishRelaunch(p, o) =>
      if p in w.procs && w.procs[p].Relaunching? { RelaunchKeepsMarked(w.store, w.procs[p].id, o); }
    case FinishResume(p, healthy, tools) => FinishResumeKeepsMarked(w, p, healthy, tools);
    case _ =>
  }

  lemma {:induction false} ActsKeepMarked(w: World, actions: seq<Action>)
    requires Marked(w.store)
    ensures Marked(Acts(w, actions).store)
    decreases |actions|
  {
    if actions != [] {
      ActKeepsMarked(w, actions[0]);
      ActsKeepMarked(Act(w, actions[0]), actions[1..]);
    }
  }

  /** In every run an incident that was ever prepared says so and names its heartbeat. */
  lemma {:induction false} AttemptsAreRecorded(actions: seq<Action>, id: Id)
    requires id in Acts(InitialWorld, actions).store
    ensures
      var i := Acts(InitialWorld, actions).store[id];
      i.state != RestartEligible ==> i.restartAttempted && i.heartbeat.Some?
  {
    ActsKeepMarked(InitialWorld, actions);
    ReachableInv(actions);
    assert Acts(InitialWorld, actions).store[id].state != Diagnosing;
  }

  lemma RunningRelauncher(actions: seq<Action>, p: Pid)
    requires p in Acts(InitialWorld, actions).procs && Acts(InitialWorld, actions).procs[p].Relaunching?
    ensures
      var w := Acts(InitialWorld, actions);
      w.procs[p].id in w.store && w.store[w.procs[p].id].state == RestartPrepared
  {
    ReachableInv(actions);
    RelauncherMayMove(Acts(InitialWorld, actions), p);
  }

  /** In a run, a relauncher that reports "closed-blocked" has indeed written it: nobody else moves
      a prepared incident whose relauncher was started. */
  lemma {:induction false} RelauncherReportsAreTrue(actions: seq<Action>, p: Pid, o: Observations)
    requires
      var w := Acts(InitialWorld, actions);
      p in w.procs && w.procs[p].Relaunching?
    ensures
      var w := Acts(InitialWorld, actions);
      var id := w.procs[p].id;
      var (after, ok) := Relaunch(w.store, id, o);
      && id in after
      && after[id].state == (if ok then ResumePending else ClosedBlocked)
      && (ok <==> Blocker(o) == None)
  {
    RunningRelauncher(actions, p);
    RelaunchOutcome(Acts(InitialWorld, actions).store, Acts(InitialWorld, actions).procs[p].id, o);
  }

  // ---------------------------------------------------------------------------------
  // What one command decides
  // ---------------------------------------------------------------------------------

  /** A whole `prepare`, from loading the incident to the start of the relauncher. */
  function Preparation(p: Pid, id: Id, root: string, thread: string, dogfood: bool, attested: bool, identified: bool,
                       heartbeat: string, started: bool, child: Pid): seq<Action> {
    [Prepare(p, id, root, thread, dogfood, attested), CheckPolicy(p, identified)]
    + [Claim(p, heartbeat), StartRelauncher(p, started, child)]
  }

  lemma PreparationChecks(w: World, p: Pid, id: Id, root: string, thread: string, dogfood: bool, attested: bool,
                          identified: bool)
    requires p !in w.procs
    ensures
      var checked := Acts(w, [Prepare(p, id, root, thread, dogfood, attested), CheckPolicy(p, identified)]);
      var allowed := && id in w.store && w.store[id].state == RestartEligible
                     && w.store[id].root == root && w.store[id].thread == thread
                     && attested && (dogfood || w.policy) && identified;
      checked == if allowed then Become(w, p, Cleared(id, dogfood)) else w
  {
    FoldTwo(Act, w, Prepare(p, id, root, thread, dogfood, attested), CheckPolicy(p, identified));
    var preparing := Become(w, p, Preparing(id, dogfood));
    assert preparing.procs - {p} == w.procs;
    assert preparing.procs[p := Cleared(id, dogfood)] == w.procs[p := Cleared(id, dogfood)];
  }

  lemma PreparationClaims(w: World, p: Pid, id: Id, dogfood: bool, heartbeat: string)
    requires p !in w.procs && id in w.store && w.store[id].state == RestartEligible
    ensures
      var claimed := Act(Become(w, p, Cleared(id, dogfood)), Claim(p, heartbeat));
      var i := w.store[id].(state := RestartPrepared, reason := "restart-prepared", restartAttempted := true,
                            heartbeat := Some(heartbeat), dogfood := dogfood);
      && claimed == Become(Record(w, w.store[id := i], id), p, Starting(id, dogfood))
  {
    var cleared := Become(w, p, Cleared(id, dogfood));
    assert cleared.procs[p := Starting(id, dogfood)] == w.procs[p := Starting(id, dogfood)];
  }

  lemma NothingClaimed(w: World, p: Pid, heartbeat: string, started: bool, child: Pid)
    requires p !in w.procs
    ensures Act(Act(w, Claim(p, heartbeat)), StartRelauncher(p, started, child)) == w
  {
  }

  lemma PreparationStarts(w: World, p: Pid, id: Id, dogfood: bool, started: bool, child: Pid)
    requires p !in w.procs && child !in w.procs && child != p
    requires id in w.store && w.store[id].state == RestartPrepared
    ensures
      var after := Act(Become(w, p, Starting(id, dogfood)), StartRelauncher(p, started, child));
      && (started ==>
            && after.store == w.store && after.starts == w.starts + [Start(id, dogfood)]
            && after.procs == w.procs[child := Relaunching(id)])
      && (!started ==>
            && after.store == w.store[id := w.store[id].(state := ClosedBlocked, reason := "relauncher-launch-failed")]
            && after.starts == w.starts && after.procs == w.procs)
      && after.policy == w.policy
  {
    var starting := Become(w, p, Starting(id, dogfood));
    assert starting.procs - {p} == w.procs;
  }

  /**
    What an uninterrupted `prepare` does. Unless the incident is restart-eligible for this root and
    thread, attested, allowed by its mode or the policy, and the app was identified, nothing changes.
    Otherwise the incident is prepared with its heartbeat and mode and the relauncher is started, or it
    is closed as blocked when that fails.
   */
  lemma PreparationDecision(w: World, p: Pid, id: Id, root: string, thread: string, dogfood: bool, attested: bool,
                            identified: bool, heartbeat: string, started: bool, child: Pid)
    requires p !in w.procs && child !in w.procs && child != p
    ensures
      var after := Acts(w, Preparation(p, id, root, thread, dogfood, attested, identified, heartbeat, started, child));
      var allowed := && id in w.store && w.store[id].state == RestartEligible
                     && w.store[id].root == root && w.store[id].thread == thread
                     && attested && (dogfood || w.policy) && identified;
      && (!allowed ==> after == w)
      && (allowed ==>
            && after.store == w.store[id := w.store[id].(
                 state := if started then RestartPrepared else ClosedBlocked,
                 reason := if started then "restart-prepared" else "relauncher-launch-failed",
                 restartAttempted := true, heartbeat := Some(heartbeat), dogfood := dogfood)]
            && after.starts == w.starts + (if started then [Start(id, dogfood)] else [])
            && after.procs == (if started then w.procs[child := Relaunching(id)] else w.procs)
            && after.policy == w.policy)
  {
    var checks := [Prepare(p, id, root, thread, dogfood, attested), CheckPolicy(p, identified)];
    FoldJoin(Act, w, checks, [Claim(p, heartbeat), StartRelauncher(p, started, child)]);
    PreparationChecks(w, p, id, root, thread, dogfood, attested, identified);
    FoldTwo(Act, Acts(w, checks), Claim(p, heartbeat), StartRelauncher(p, started, child));
    if Acts(w, checks) == w {
      NothingClaimed(w, p, heartbeat, started, child);
    } else {
      PreparationClaims(w, p, id, dogfood, heartbeat);
      var i := w.store[id].(state := RestartPrepared, reason := "restart-prepared", restartAttempted := true,
                            heartbeat := Some(heartbeat), dogfood := dogfood);
      PreparationStarts(Record(w, w.store[id := i], id), p, id, dogfood, started, child);
    }
  }

  lemma ResumeEnds(w: World, p: Pid, id: Id, healthy: bool, tools: bool)
    requires p !in w.procs && id in w.store && w.store[id].state == ResumePending
    ensures
      var (next, reason) := ResumeEnd(healthy, tools);
      Act(Become(w, p, Resuming(id)), FinishResume(p, healthy, tools))
        == Record(w, w.store[id := w.store[id].(state := next, reason := reason)], id)
  {
    var (next, reason) := ResumeEnd(healthy, tools);
    assert Become(w, p, Resuming(id)).procs - {p} == w.procs;
    assert Transition(w.store, id, ResumePending, next, Because(reason))
      == (w.store[id := w.store[id].(state := next, reason := reason)], true);
  }

  /**
    What an uninterrupted `resume` does: only an incident that waits to be resumed, of this root and
    thread and after a relaunch, is closed, and it closes healthy exactly when the handshake is healthy
    and the task's tools are back.
   */
  lemma ResumeDecision(w: World, p: Pid, id: Id, root: string, thread: string, relaunched: bool, healthy: bool, tools: bool)
    requires p !in w.procs
    ensures
      var after := Acts(w, [Resume(p, id, root, thread, relaunched), FinishResume(p, healthy, tools)]);
      var allowed := && id in w.store && w.store[id].state == ResumePending
                     && w.store[id].root == root && w.store[id].thread == thread && relaunched;
      && (!allowed ==> after == w)
      && (allowed ==>
            && after.store == w.store[id := w.store[id].(
                 state := if healthy && tools then ClosedHealthy else ClosedFreshTaskRequired,
                 reason := if !healthy then "post-restart-handshake-failed"
                           else if tools then "task-tools-restored" else "task-tools-still-missing")]
            && after.procs == w.procs && after.starts == w.starts && after.policy == w.policy)
  {
    FoldTwo(Act, w, Resume(p, id, root, thread, relaunched), FinishResume(p, healthy, tools));
    if Act(w, Resume(p, id, root, thread, relaunched)) != w {
      ResumeEnds(w, p, id, healthy, tools);
    }
  }

  /** Enabling the policy takes a healthily closed dogfood incident; disabling takes nothing. */
  lemma PolicyDecision(w: World, p: Pid, id: Id)
    requires p !in w.procs
    ensures Acts(w, [EnablePolicy(p, id), WritePolicy(p)])
      == w.(policy := w.policy || (id in w.store && w.store[id].state == ClosedHealthy && w.store[id].dogfood))
    ensures Act(w, DisablePolicy) == w.(policy := false)
  {
    FoldTwo(Act, w, EnablePolicy(p, id), WritePolicy(p));
    assert Become(w, p, Enabling(id)).procs - {p} == w.procs;
  }

  // ---------------------------------------------------------------------------------
  // The way to automatic restarts is open
  // ---------------------------------------------------------------------------------

  ghost predicate Reached(w: World) {
    Reachable(Act, InitialWorld, w)
  }

  lemma Reaches(w: World, a: Action, next: World)
    requires Reached(w) && Act(w, a) == next
    ensures Reached(next)
  {
    ReachStep(Act, InitialWorld, w, a);
  }

  /** The world with one incident in a given state and at most one process, numbered 1. */
  function Solo(id: Id, i: Incident, proc: Option<Proc>, starts: seq<Start>): World {
    World(map[id := i], false, if proc.Some? then map[1 := proc.value] else map[], starts, map[id := Life(i.state)])
  }

  lemma SoloRecovers(id: Id, root: string, thread: string, reason: string)
    ensures Reached(Solo(id, NewIncident(root, thread, reason), None, []))
  {
    FirstIsReachable(Act, InitialWorld);
    var next := Solo(id, NewIncident(root, thread, reason), None, []);
    assert FindEligible(map[], [], root, thread) == None;
    assert [] + [RestartEligible] == [RestartEligible];
    assert map[][id := NewIncident(root, thread, reason)] == map[id := NewIncident(root, thread, reason)];
    Reaches(InitialWorld, Recover([], root, thread, reason, id), next);
  }

  lemma SoloPrepares(id: Id, i: Incident)
    requires Reached(Solo(id, i, None, [])) && i.state == RestartEligible
    ensures Reached(Solo(id, i, Some(Cleared(id, true)), []))
  {
    Reaches(Solo(id, i, None, []), Prepare(1, id, i.root, i.thread, true, true), Solo(id, i, Some(Preparing(id, true)), []));
    Reaches(Solo(id, i, Some(Preparing(id, true)), []), CheckPolicy(1, true), Solo(id, i, Some(Cleared(id, true)), []));
  }

  function Claimed(i: Incident, heartbeat: string): Incident {
    i.(state := RestartPrepared, reason := "restart-prepared", restartAttempted := true, heartbeat := Some(heartbeat),
       dogfood := true)
  }

  lemma SoloClaims(id: Id, i: Incident, heartbeat: string)
    requires Reached(Solo(id, i, Some(Cleared(id, true)), [])) && i.state == RestartEligible
    ensures Reached(Solo(id, Claimed(i, heartbeat), Some(Starting(id, true)), []))
  {
    var w := Solo(id, i, Some(Cleared(id, true)), []);
    var claimed := Claimed(i, heartbeat);
    LifeExtends(RestartEligible, RestartPrepared);
    RecordsOneMove(w, id, i, claimed);
    assert w.procs[1 := Starting(id, true)] == map[1 := Starting(id, true)];
    Reaches(w, Claim(1, heartbeat), Solo(id, claimed, Some(Starting(id, true)), []));
  }

  const Smooth := Observations([false], false, false, true, [], true, [true], true)

  /** The relauncher is process 2. */
  function Relaunched(id: Id, i: Incident): World {
    World(map[id := i], false, map[2 := Relaunching(id)], [Start(id, true)], map[id := Life(i.state)])
  }

  lemma SoloStarts(id: Id, i: Incident)
    requires Reached(Solo(id, i, Some(Starting(id, true)), []))
    ensures Reached(Relaunched(id, i))
  {
    var starting := Solo(id, i, Some(Starting(id, true)), []);
    assert [] + [Start(id, true)] == [Start(id, true)];
    assert starting.procs - {1} == map[];
    Reaches(starting, StartRelauncher(1, true, 2), Relaunched(id, i));
  }

  lemma RecordsOneMove(w: World, id: Id, i: Incident, next: Incident)
    requires w.store == map[id := i] && w.histories == map[id := Life(i.state)]
    requires i.state != next.state && Life(i.state) + [next.state] == Life(next.state)
    ensures Record(w, w.store[id := next], id) == w.(store := map[id := next], histories := map[id := Life(next.state)])
  {
  }

  lemma SoloRelaunches(id: Id, i: Incident)
    requires Reached(Relaunched(id, i)) && i.state == RestartPrepared
    ensures Reached(Solo(id, i.(state := ResumePending, reason := "codex-relaunched"), None, [Start(id, true)]))
  {
    var w := Relaunched(id, i);
    var pending := i.(state := ResumePending, reason := "codex-relaunched");
    LifeExtends(RestartPrepared, ResumePending);
    RecordsOneMove(w, id, i, pending);
    assert w.procs - {2} == map[];
    Reaches(w, FinishRelaunch(2, Smooth), Solo(id, pending, None, [Start(id, true)]));
  }

  lemma SoloChecksResume(id: Id, i: Incident, starts: seq<Start>)
    requires Reached(Solo(id, i, None, starts)) && i.state == ResumePending
    ensures Reached(Solo(id, i, Some(Resuming(id)), starts))
  {
    Reaches(Solo(id, i, None, starts), Resume(1, id, i.root, i.thread, true), Solo(id, i, Some(Resuming(id)), starts));
  }

  lemma SoloResumes(id: Id, i: Incident, starts: seq<Start>)
    requires Reached(Solo(id, i, Some(Resuming(id)), starts)) && i.state == ResumePending
    ensures Reached(Solo(id, i.(state := ClosedHealthy, reason := "task-tools-restored"), None, starts))
  {
    var w := Solo(id, i, Some(Resuming(id)), starts);
    var healthy := i.(state := ClosedHealthy, reason := "task-tools-restored");
    LifeExtends(ResumePending, ClosedHealthy);
    RecordsOneMove(w, id, i, healthy);
    assert w.procs - {1} == map[];
    Reaches(w, FinishResume(1, true, true), Solo(id, healthy, None, starts));
  }

  lemma SoloEnables(id: Id, i: Incident)
    requires Reached(Solo(id, i, None, [Start(id, true)])) && i.state == ClosedHealthy && i.dogfood
    ensures Reached(Solo(id, i, None, [Start(id, true)]).(policy := true))
  {
    var done := Solo(id, i, None, [Start(id, true)]);
    var enabling := Solo(id, i, Some(Enabling(id)), [Start(id, true)]);
    Reaches(done, EnablePolicy(1, id), enabling);
    assert enabling.procs - {1} == map[];
    Reaches(enabling, WritePolicy(1), done.(policy := true));
  }

  /** A smooth dogfood restart of any thread does lead to the policy being enabled. */
  lemma AutomaticRestartsCanBeEarned(id: Id, root: string, thread: string, reason: string, heartbeat: string)
    ensures exists actions ::
              (var w := Acts(InitialWorld, actions); w.policy && Succeeded(w, id) && w.starts == [Start(id, true)])
  {
    var i := NewIncident(root, thread, reason);
    SoloRecovers(id, root, thread, reason);
    SoloPrepares(id, i);
    SoloClaims(id, i, heartbeat);
    var prepared := Claimed(i, heartbeat);
    SoloStarts(id, prepared);
    SoloRelaunches(id, prepared);
    var pending := prepared.(state := ResumePending, reason := "codex-relaunched");
    SoloChecksResume(id, pending, [Start(id, true)]);
    SoloResumes(id, pending, [Start(id, true)]);
    var healthy := pending.(state := ClosedHealthy, reason := "task-tools-restored");
    SoloEnables(id, healthy);
    var w := Solo(id, healthy, None, [Start(id, true)]).(policy := true);
    assert Succeeded(w, id);
    var actions :| Fold(Act, InitialWorld, actions) == w;
    assert Acts(InitialWorld, actions) == w;
  }
}
