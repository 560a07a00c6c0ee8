/**
  The opener script `bin/open-codex-project-in-intellij` driving the coordinator: each client
  takes the operation record of its root, then the launch, gives the launch back, waits,
  registers the project, and leaves through `release-all`. Any number of clients interleave,
  and any of them may die between any two locked sections.
 */
module OpenerProtocol {
  import opened Wrappers
  import opened OpenerQueue

  // ---------------------------------------------------------------------------------
  // The per-root operation records
  // ---------------------------------------------------------------------------------

  datatype Operation = Operation(owner: Owner, root: string)

  /** One record per root digest; digests are injective, so the root itself is the key. */
  type Operations = map<string, Operation>

  datatype Claim = Claim(operations: Operations, verdict: Verdict)

  /** One locked pass of `acquire_operation`: take it from nobody or from the dead. */
  function PollOperation(ops: Operations, root: string, o: Owner, probe: Probe): Claim {
    if root !in ops then Claim(ops[root := Operation(o, root)], Granted)
    else match probe.Ask(ops[root].owner.process)
      case Unclear => Claim(ops, Refused)
      case Dead => Claim(ops[root := Operation(o, root)], Granted)
      case Alive =>
        if ops[root].root != root then Claim(ops, Refused)
        else if ops[root].owner == o then Claim(ops, Granted)
        else Claim(ops, Queueing)
  }

  /** The loop of `release_all` over the operation records. */
  function DropOperations(ops: Operations, o: Owner): Operations {
    map r | r in ops && ops[r].owner != o :: ops[r]
  }

  /** The operation records as the coordinator rewrites them. */
  class OperationFiles {
    var records: Operations

    constructor ()
      ensures records == map[]
    {
      records := map[];
    }

    method PassOperation(root: string, o: Owner, probe: Probe) returns (verdict: Verdict)
      modifies this
      ensures Claim(records, verdict) == PollOperation(old(records), root, o, probe)
    {
      if root in records {
        var answer := probe.Ask(records[root].owner.process);
        if answer == Unclear { return Refused; }
        if answer == Alive {
          if records[root].root != root { return Refused; }
          return if records[root].owner == o then Granted else Queueing;
        }
      }
      records := records[root := Operation(o, root)];
      verdict := Granted;
    }

    /** `release_operation`: unlink the record of this root if it is the caller's. */
    method ReleaseOne(root: string, o: Owner)
      modifies this
      ensures records == if root in old(records) && old(records)[root].owner == o then old(records) - {root}
                         else old(records)
    {
      if root in records && records[root].owner == o { records := records - {root}; }
    }

    /** The second half of `release_all`: every record file in turn. */
    method ReleaseEvery(o: Owner)
      modifies this
      ensures records == DropOperations(old(records), o)
    {
      var todo := records.Keys;
      while todo != {}
        invariant todo <= records.Keys <= old(records).Keys
        invariant forall r :: r in records <==> r in old(records) && (r in todo || old(records)[r].owner != o)
        invariant forall r | r in records :: records[r] == old(records)[r]
        decreases |todo|
      {
        var r :| r in todo;
        todo := todo - {r};
        ReleaseOne(r, o);
      }
    }
  }

  // ---------------------------------------------------------------------------------
  // Clients
  // ---------------------------------------------------------------------------------

  /**
    How far a client's script has come: before the operation; holding it; polling for the launch;
    launching; launch given back and waiting for readiness; at `release-all` before its queue
    section; between its queue section and its operation sections; finished.
   */
  datatype Stage = Starting | Operating | Polling | Launched | Settling | Leaving | Dropping | Finished

  datatype Client = Client(root: string, stage: Stage)

  datatype Registration = Registration(client: Owner, root: string, holder: Option<Owner>)

  datatype World = World(
    queue: Queue, ops: Operations, dead: set<Process>, clients: map<Owner, Client>,
    registered: seq<Registration>)

  const InitialWorld := World(EmptyQueue, map[], {}, map[], [])

  datatype Action =
    | Arrive(o: Owner, root: string)
    | TryOperation(o: Owner, unclear: set<Process>)
    | TryLaunch(o: Owner, unclear: set<Process>)
    | GiveBackLaunch(o: Owner)
    | Register(o: Owner)
    | Quit(o: Owner)
    | DropLaunch(o: Owner)
    | DropOperation(o: Owner)
    | Crash(process: Process)

  function Move(w: World, o: Owner, stage: Stage): World
    requires o in w.clients
  {
    w.(clients := w.clients[o := w.clients[o].(stage := stage)])
  }

  predicate At(w: World, o: Owner, stages: set<Stage>) {
    o in w.clients && w.clients[o].stage in stages
  }

  /**
    One action. Nothing but the stage guards it: a dead client's coordinator child may still
    finish its section. `Quit` covers a ready project, an error, a deadline and a signal; only a
    client that never got the operation finishes without `release-all`.
   */
  function Act(w: World, a: Action): World {
    match a
    case Arrive(o, root) =>
      if o in w.clients || !CompleteOwner(o) || !AbsoluteRoot(root) || o.process in w.dead then w
      else w.(clients := w.clients[o := Client(root, Starting)])
    case TryOperation(o, unclear) =>
      if !At(w, o, {Starting}) then w
      else
        var claim := PollOperation(w.ops, w.clients[o].root, o, Probe(w.dead, unclear));
        var stage := match claim.verdict case Granted => Operating case Queueing => Starting case Refused => Finished;
        Move(w.(ops := claim.operations), o, stage)
    case TryLaunch(o, unclear) =>
      if !At(w, o, {Operating, Polling}) then w
      else
        var pass := PollLaunch(w.queue, w.clients[o].root, o, Probe(w.dead, unclear));
        var stage := match pass.verdict case Granted => Launched case Queueing => Polling case Refused => Leaving;
        Move(w.(queue := pass.queue), o, stage)
    case GiveBackLaunch(o) =>
      if !At(w, o, {Launched}) then w
      else Move(w.(queue := ReleaseLaunch(w.queue, o)), o, Settling)
    case Register(o) =>
      if !At(w, o, {Settling}) then w
      else
        var root := w.clients[o].root;
        var holder := if root in w.ops then Some(w.ops[root].owner) else None;
        Move(w.(registered := w.registered + [Registration(o, root, holder)]), o, Leaving)
    case Quit(o) =>
      if At(w, o, {Starting}) then Move(w, o, Finished)
      else if At(w, o, {Operating, Polling, Launched, Settling}) then Move(w, o, Leaving)
      else w
    case DropLaunch(o) =>
      if !At(w, o, {Leaving}) then w
      else Move(w.(queue := ReleaseLaunch(w.queue, o)), o, Dropping)
    case DropOperation(o) =>
      if !At(w, o, {Dropping}) then w
      else Move(w.(ops := DropOperations(w.ops, o)), o, Finished)
    case Crash(p) => w.(dead := w.dead + {p})
  }

  function Acts(w: World, actions: seq<Action>): World {
    Fold(Act, w, actions)
  }

  // ---------------------------------------------------------------------------------
  // The protocol invariant
  // ---------------------------------------------------------------------------------

  predicate Live(w: World, o: Owner) {
    o.process !in w.dead
  }

  /** Stages in which the script believes that it holds its root's operation. */
  predicate Operates(stage: Stage) {
    stage in {Operating, Polling, Launched, Settling, Leaving, Dropping}
  }

  /** Stages in which a record of the client may be in the queue. */
  predicate MayBeListed(stage: Stage) {
    stage in {Polling, Launched, Leaving}
  }

  ghost predicate ClientsInv(w: World) {
    && (forall o | o in w.clients :: CompleteOwner(o) && AbsoluteRoot(w.clients[o].root))
    && (forall r | r in w.ops :: w.ops[r].root == r)
  }

  /** A live client past the operation claim is the recorded owner of its root. */
  ghost predicate OperationInv(w: World) {
    forall o | o in w.clients && Live(w, o) && Operates(w.clients[o].stage) ::
      w.clients[o].root in w.ops && w.ops[w.clients[o].root].owner == o
  }

  /** Every queue record belongs to a client of that root, still entitled to it if alive. */
  ghost predicate RecordInv(w: World) {
    forall e | e in Line(w.queue) ::
      && e.owner in w.clients && w.clients[e.owner].root == e.root
      && (Live(w, e.owner) ==> MayBeListed(w.clients[e.owner].stage))
  }

  /** A live client that believes it may launch is the recorded holder. */
  ghost predicate LaunchInv(w: World) {
    forall o | o in w.clients && Live(w, o) && w.clients[o].stage == Launched ::
      w.queue.holder.Some? && w.queue.holder.value.owner == o
  }

  ghost predicate WorldInv(w: World) {
    QueueInv(w.queue) && ClientsInv(w) && OperationInv(w) && RecordInv(w) && LaunchInv(w)
  }

  ghost predicate Comes(e: Entry, line: seq<Entry>) {
    exists f :: f in line && f.owner == e.owner && f.root == e.root
  }

  lemma DecideRecords(q: Queue, root: string, o: Owner, e: Entry)
    requires e in Line(Decide(q, root, o).queue)
    ensures (e.owner == o && e.root == root) || Comes(e, Line(q))
  {
  }

  /** Records after a pass come from the old line, or are the caller's own. */
  lemma PollRecords(q: Queue, root: string, o: Owner, probe: Probe)
    ensures forall e | e in Line(PollLaunch(q, root, o, probe).queue) ::
      (e.owner == o && e.root == root) || Comes(e, Line(q))
  {
    PruneLine(q, probe);
    SurvivorsMembers(Line(q), probe);
    forall e | e in Line(PollLaunch(q, root, o, probe).queue)
      ensures (e.owner == o && e.root == root) || Comes(e, Line(q))
    {
      if e !in Line(q) {
        DecideRecords(Prune(q, probe), root, o, e);
      }
    }
  }

  lemma ReleaseKeepsInv(w: World, o: Owner, stage: Stage)
    requires WorldInv(w) && o in w.clients && Operates(w.clients[o].stage) && Operates(stage) && stage != Launched
    ensures WorldInv(Move(w.(queue := ReleaseLaunch(w.queue, o)), o, stage))
  {
    ReleaseKeepsInvariant(w.queue, o);
  }

  /** Client `o` has moved on; the deaths are as before. */
  ghost predicate MovedOn(w: World, w': World, o: Owner, stage: Stage) {
    && o in w.clients && w'.dead == w.dead
    && w'.clients == w.clients[o := w.clients[o].(stage := stage)]
  }

  lemma MoveKeepsRecords(w: World, w': World, o: Owner, stage: Stage)
    requires RecordInv(w) && MovedOn(w, w', o, stage) && w'.queue == w.queue
    requires MayBeListed(w.clients[o].stage) ==> MayBeListed(stage)
    ensures RecordInv(w')
  {
    assert forall c | c in w.clients :: c in w'.clients && w'.clients[c].root == w.clients[c].root;
  }

  lemma PassKeepsRecords(w: World, w': World, o: Owner, stage: Stage, probe: Probe)
    requires RecordInv(w) && MovedOn(w, w', o, stage) && MayBeListed(stage)
    requires w'.queue == PollLaunch(w.queue, w.clients[o].root, o, probe).queue
    ensures RecordInv(w')
  {
    PollRecords(w.queue, w.clients[o].root, o, probe);
    forall e | e in Line(w'.queue)
      ensures e.owner in w'.clients && w'.clients[e.owner].root == e.root
      ensures Live(w', e.owner) ==> MayBeListed(w'.clients[e.owner].stage)
    {
      if e.owner != o {
        var f :| f in Line(w.queue) && f.owner == e.owner && f.root == e.root;
        assert w'.clients[f.owner] == w.clients[f.owner];
      }
    }
  }

  lemma PassKeepsLaunch(w: World, w': World, o: Owner, stage: Stage, unclear: set<Process>)
    requires LaunchInv(w) && MovedOn(w, w', o, stage)
    requires w'.queue == PollLaunch(w.queue, w.clients[o].root, o, Probe(w.dead, unclear)).queue
    requires stage == Launched ==> PollLaunch(w.queue, w.clients[o].root, o, Probe(w.dead, unclear)).verdict == Granted
    ensures LaunchInv(w')
  {
    forall c | c in w'.clients && Live(w', c) && w'.clients[c].stage == Launched
      ensures w'.queue.holder.Some? && w'.queue.holder.value.owner == c
    {
      if c != o {
        assert w'.clients[c] == w.clients[c];
      }
    }
  }

  lemma TryLaunchKeepsInv(w: World, o: Owner, unclear: set<Process>)
    requires WorldInv(w)
    ensures WorldInv(Act(w, TryLaunch(o, unclear)))
  {
    if At(w, o, {Operating, Polling}) {
      var w' := Act(w, TryLaunch(o, unclear));
      var stage := w'.clients[o].stage;
      assert MovedOn(w, w', o, stage);
      PollKeepsInvariant(w.queue, w.clients[o].root, o, Probe(w.dead, unclear));
      PassKeepsRecords(w, w', o, stage, Probe(w.dead, unclear));
      PassKeepsLaunch(w, w', o, stage, unclear);
    }
  }

  lemma TryOperationKeepsInv(w: World, o: Owner, unclear: set<Process>)
    requires WorldInv(w)
    ensures WorldInv(Act(w, TryOperation(o, unclear)))
  {
    if At(w, o, {Starting}) {
      var w' := Act(w, TryOperation(o, unclear));
      var stage := w'.clients[o].stage;
      assert MovedOn(w, w', o, stage);
      MoveKeepsRecords(w, w', o, stage);
    }
  }

  lemma DropOperationKeepsInv(w: World, o: Owner)
    requires WorldInv(w)
    ensures WorldInv(Act(w, DropOperation(o)))
  {
    if At(w, o, {Dropping}) {
      var w' := Act(w, DropOperation(o));
      assert MovedOn(w, w', o, Finished);
      MoveKeepsRecords(w, w', o, Finished);
    }
  }

  /** A client that moves on without touching queue or operations. */
  lemma MoveKeepsInv(w: World, o: Owner, stage: Stage)
    requires WorldInv(w) && o in w.clients && stage != Launched
    requires Operates(stage) ==> Operates(w.clients[o].stage)
    requires MayBeListed(w.clients[o].stage) ==> MayBeListed(stage)
    ensures WorldInv(Move(w, o, stage))
  {
    var w' := Move(w, o, stage);
    MoveKeepsRecords(w, w', o, stage);
  }

  lemma ArriveKeepsInv(w: World, o: Owner, root: string)
    requires WorldInv(w)
    ensures WorldInv(Act(w, Arrive(o, root)))
  {
    var w' := Act(w, Arrive(o, root));
    assert ClientsInv(w');
    assert OperationInv(w');
    assert RecordInv(w');
    assert LaunchInv(w');
  }

  lemma RegisterKeepsInv(w: World, o: Owner)
    requires WorldInv(w)
    ensures WorldInv(Act(w, Register(o)))
  {
    if At(w, o, {Settling}) {
      var w' := Act(w, Register(o));
      MoveKeepsInv(w, o, Leaving);
      assert w'.(registered := w.registered) == Move(w, o, Leaving);
      assert QueueInv(w'.queue) && ClientsInv(w') && OperationInv(w') && RecordInv(w') && LaunchInv(w');
    }
  }

  /** Every action of every client, and every crash, keeps the protocol invariant. */
  lemma ActKeepsInv(w: World, a: Action)
    requires WorldInv(w)
    ensures WorldInv(Act(w, a))
  {
    match a
    case Arrive(o, root) => ArriveKeepsInv(w, o, root);
    case TryOperation(o, unclear) => TryOperationKeepsInv(w, o, unclear);
    case TryLaunch(o, unclear) => TryLaunchKeepsInv(w, o, unclear);
    case GiveBackLaunch(o) => if At(w, o, {Launched}) { ReleaseKeepsInv(w, o, Settling); }
    case Register(o) => RegisterKeepsInv(w, o);
    case Quit(o) =>
      if At(w, o, {Starting}) { MoveKeepsInv(w, o, Finished); }
      else if At(w, o, {Operating, Polling, Launched, Settling}) { MoveKeepsInv(w, o, Leaving); }
    case DropLaunch(o) => if At(w, o, {Leaving}) { ReleaseKeepsInv(w, o, Dropping); }
    case DropOperation(o) => DropOperationKeepsInv(w, o);
    case Crash(p) =>
  }

  // ---------------------------------------------------------------------------------
  // What every run guarantees
  // ---------------------------------------------------------------------------------

  lemma ActsKeepInv(w: World, actions: seq<Action>)
    requires WorldInv(w)
    ensures WorldInv(Acts(w, actions))
  {
    forall v, a | WorldInv(v) ensures WorldInv(Act(v, a)) {
      ActKeepsInv(v, a);
    }
    FoldKeeps(Act, WorldInv, w, actions);
  }

  lemma {:induction false} ReachableInv(actions: seq<Action>)
    ensures WorldInv(Acts(InitialWorld, actions))
  {
    assert WorldInv(InitialWorld);
    ActsKeepInv(InitialWorld, actions);
  }

  /** At most one live client is inside the operation of a root. */
  lemma {:induction false} OneOperationPerRoot(actions: seq<Action>, a: Owner, b: Owner)
    requires
      var w := Acts(InitialWorld, actions);
      && a in w.clients && Live(w, a) && Operates(w.clients[a].stage)
      && b in w.clients && Live(w, b) && Operates(w.clients[b].stage)
      && w.clients[a].root == w.clients[b].root
    ensures a == b
  {
    ReachableInv(actions);
  }

  /** At most one live client, over all roots, is launching. */
  lemma {:induction false} OneLaunchAtATime(actions: seq<Action>, a: Owner, b: Owner)
    requires
      var w := Acts(InitialWorld, actions);
      && a in w.clients && Live(w, a) && w.clients[a].stage == Launched
      && b in w.clients && Live(w, b) && w.clients[b].stage == Launched
    ensures a == b
  {
    ReachableInv(actions);
  }

  /** Live queue records belong to the holder of their root's operation, so their roots differ. */
  lemma {:induction false} LiveRecordsHoldTheirRoots(actions: seq<Action>, i: nat, j: nat)
    requires
      var w := Acts(InitialWorld, actions);
      && i < j < |Line(w.queue)|
      && Live(w, Line(w.queue)[i].owner) && Live(w, Line(w.queue)[j].owner)
    ensures
      var w := Acts(InitialWorld, actions);
      var e, f := Line(w.queue)[i], Line(w.queue)[j];
      && e.root in w.ops && w.ops[e.root].owner == e.owner
      && f.root in w.ops && w.ops[f.root].owner == f.owner
      && e.root != f.root
  {
    ReachableInv(actions);
    var w := Acts(InitialWorld, actions);
    assert Line(w.queue)[i] in Line(w.queue) && Line(w.queue)[j] in Line(w.queue);
  }

  /** A live client registers a project only while it holds the operation of that root. */
  lemma {:induction false} RegistrationNeedsTheOperation(actions: seq<Action>, o: Owner)
    requires
      var w := Acts(InitialWorld, actions);
      Live(w, o) && Act(w, Register(o)).registered != w.registered
    ensures
      var w := Acts(InitialWorld, actions);
      && o in w.clients
      && Act(w, Register(o)).registered == w.registered + [Registration(o, w.clients[o].root, Some(o))]
      && w.clients[o].root in w.ops && w.ops[w.clients[o].root].owner == o
  {
    ReachableInv(actions);
  }

  // ---------------------------------------------------------------------------------
  // What one client's script achieves
  // ---------------------------------------------------------------------------------

  /**
    A pass takes the operation exactly of a root without a record, of one whose owner has died, or of
    its own; it fails exactly on a record that cannot be probed or is filed under a wrong root. The
    caller is then recorded, and nothing else changes.
   */
  lemma OperationDecision(ops: Operations, root: string, o: Owner, probe: Probe)
    ensures
      var claim := PollOperation(ops, root, o, probe);
      && (claim.verdict == Granted <==>
            || root !in ops
            || (ops[root].owner.process !in probe.unclear
                && (ops[root].owner.process in probe.dead || ops[root] == Operation(o, root))))
      && (claim.verdict == Refused <==>
            && root in ops
            && (ops[root].owner.process in probe.unclear
                || (ops[root].owner.process !in probe.dead && ops[root].root != root)))
      && claim.operations == if claim.verdict == Granted then ops[root := Operation(o, root)] else ops
  {
  }

  /** In the protocol no record is misfiled, so a claim fails only when it cannot be probed. */
  lemma TryOperationExactly(w: World, o: Owner, unclear: set<Process>)
    requires WorldInv(w) && At(w, o, {Starting})
    ensures
      var root, after := w.clients[o].root, Act(w, TryOperation(o, unclear));
      && o in after.clients
      && (after.clients[o].stage == Operating <==>
            || root !in w.ops
            || (w.ops[root].owner.process !in unclear
                && (w.ops[root].owner.process in w.dead || w.ops[root].owner == o)))
      && (after.clients[o].stage == Finished <==> root in w.ops && w.ops[root].owner.process in unclear)
      && (after.clients[o].stage == Starting <==> after.clients[o].stage !in {Operating, Finished})
      && after.ops == if after.clients[o].stage == Operating then w.ops[root := Operation(o, root)] else w.ops
  {
    OperationDecision(w.ops, w.clients[o].root, o, Probe(w.dead, unclear));
  }

  lemma WaitsForItsRoot(w: World, o: Owner)
    requires RecordInv(w) && o in w.clients
    ensures forall e | e in w.queue.waiting && e.owner == o :: e.root == w.clients[o].root
  {
    assert forall e | e in w.queue.waiting :: e in Line(w.queue);
  }

  /** A launch pass makes the client leave exactly when some record cannot be probed, and lets it
      launch exactly when it then is the recorded holder. */
  lemma TryLaunchExactly(w: World, o: Owner, unclear: set<Process>)
    requires WorldInv(w) && At(w, o, {Operating, Polling})
    ensures
      var after := Act(w, TryLaunch(o, unclear));
      && o in after.clients
      && (after.clients[o].stage == Leaving <==> exists e :: e in Line(w.queue) && e.owner.process in unclear)
      && (after.clients[o].stage == Leaving ==> after.queue == w.queue)
      && (after.clients[o].stage != Leaving ==>
            && after.clients[o].stage in {Launched, Polling}
            && (after.clients[o].stage == Launched <==>
                  after.queue.holder.Some? && after.queue.holder.value.owner == o))
  {
    var root, probe := w.clients[o].root, Probe(w.dead, unclear);
    LaunchStep(w, o, unclear, PollLaunch(w.queue, root, o, probe));
    PassIsRefusedExactly(w.queue, root, o, probe);
    WaitsForItsRoot(w, o);
    if PollLaunch(w.queue, root, o, probe).verdict != Refused {
      PollRefinesFifo(w.queue, root, o, probe);
    }
  }

  /** The script, taking the operation, the launch, and the time to settle. */
  function Script(o: Owner, root: string): seq<Action> {
    Enter(o, root) + (Launch(o) + ([Register(o)] + Exit(o)))
  }

  function Enter(o: Owner, root: string): seq<Action> {
    [Arrive(o, root), TryOperation(o, {})]
  }

  function Launch(o: Owner): seq<Action> {
    [TryLaunch(o, {}), GiveBackLaunch(o)]
  }

  /** `release-all`. */
  function Exit(o: Owner): seq<Action> {
    [DropLaunch(o), DropOperation(o)]
  }

  lemma ExitOfLeaving(w: World, o: Owner)
    requires At(w, o, {Leaving})
    ensures Acts(w, Exit(o)) == w.(queue := ReleaseLaunch(w.queue, o), ops := DropOperations(w.ops, o),
                                   clients := w.clients[o := Client(w.clients[o].root, Finished)])
  {
    FoldTwo(Act, w, DropLaunch(o), DropOperation(o));
    var dropping := Act(w, DropLaunch(o));
    assert dropping.clients[o] == Client(w.clients[o].root, Dropping);
  }

  /** Whatever a client still held, `release-all` takes its records out of the line and its operation
      records away, and leaves all others. */
  lemma LeavingCleansUp(w: World, o: Owner)
    requires WorldInv(w) && At(w, o, {Leaving})
    ensures
      var after := Acts(w, Exit(o));
      && after.clients == w.clients[o := Client(w.clients[o].root, Finished)] && after.registered == w.registered
      && (forall e :: e in Line(after.queue) <==> e in Line(w.queue) && e.owner != o)
      && (forall r :: r in after.ops <==> r in w.ops && w.ops[r].owner != o)
      && (forall r | r in after.ops :: after.ops[r] == w.ops[r])
  {
    ExitOfLeaving(w, o);
    ReleaseKeepsInvariant(w.queue, o);
  }

  /** A client that quits in its operation, ready or not, goes through the same exit; one that never had
      the operation just ends. */
  lemma QuittingCleansUp(w: World, o: Owner)
    requires WorldInv(w)
    ensures At(w, o, {Starting}) ==> Act(w, Quit(o)) == Move(w, o, Finished)
    ensures At(w, o, {Operating, Polling, Launched, Settling}) ==>
              var after := Acts(Act(w, Quit(o)), Exit(o));
              && after.clients == w.clients[o := Client(w.clients[o].root, Finished)] && after.registered == w.registered
              && (forall e :: e in Line(after.queue) <==> e in Line(w.queue) && e.owner != o)
              && (forall r :: r in after.ops <==> r in w.ops && w.ops[r].owner != o)
  {
    if At(w, o, {Operating, Polling, Launched, Settling}) {
      ExitOfLeaving(Act(w, Quit(o)), o);
      ReleaseKeepsInvariant(w.queue, o);
    }
  }

  lemma NobodyLives(q: Queue, dead: set<Process>)
    requires forall e | e in Line(q) :: e.owner.process in dead
    ensures Living(Tickets(Line(q)), Probe(dead, {})) == []
  {
    var living := Living(Tickets(Line(q)), Probe(dead, {}));
    if living != [] {
      LivingHolds(Tickets(Line(q)), Probe(dead, {}), living[0]);
      TicketsHold(Line(q), living[0]);
    }
  }

  /** A pass over a line of dead records takes the launch; giving it back leaves the line empty. */
  lemma LaunchOverTheDead(q: Queue, root: string, o: Owner, dead: set<Process>)
    requires QueueInv(q) && CompleteOwner(o) && AbsoluteRoot(root) && o.process !in dead
    requires forall e | e in Line(q) :: e.owner.process in dead
    ensures
      var pass := PollLaunch(q, root, o, Probe(dead, {}));
      pass.verdict == Granted && QueueInv(pass.queue) && Tickets(Line(pass.queue)) == [Ticket(o, root, q.next)]
  {
    assert forall e | e in q.waiting :: e in Line(q);
    PassIsRefusedExactly(q, root, o, Probe(dead, {}));
    PollRefinesFifo(q, root, o, Probe(dead, {}));
    PollKeepsInvariant(q, root, o, Probe(dead, {}));
    NobodyLives(q, dead);
    assert [] + [Ticket(o, root, q.next)] == [Ticket(o, root, q.next)];
  }

  lemma GivenBack(q: Queue, t: Ticket)
    requires QueueInv(q) && Tickets(Line(q)) == [t]
    ensures QueueInv(ReleaseLaunch(q, t.owner)) && Line(ReleaseLaunch(q, t.owner)) == []
  {
    ReleaseKeepsInvariant(q, t.owner);
    var after := Line(ReleaseLaunch(q, t.owner));
    assert |Line(q)| == |Tickets(Line(q))| == 1 && TicketOf(Line(q)[0]) == Tickets(Line(q))[0];
    assert forall e | e in Line(q) :: e == Line(q)[0];
    assert after == [] by {
      assert forall e :: e !in after;
    }
  }

  lemma ScriptOperates(w: World, o: Owner, root: string)
    requires o !in w.clients && CompleteOwner(o) && AbsoluteRoot(root) && Live(w, o)
    requires root in w.ops ==> !Live(w, w.ops[root].owner)
    ensures Acts(w, Enter(o, root))
      == w.(ops := w.ops[root := Operation(o, root)], clients := w.clients[o := Client(root, Operating)])
  {
    FoldTwo(Act, w, Arrive(o, root), TryOperation(o, {}));
    OperationDecision(w.ops, root, o, Probe(w.dead, {}));
  }

  /** The client's step after a pass. */
  lemma LaunchStep(w: World, o: Owner, unclear: set<Process>, pass: Pass)
    requires At(w, o, {Operating, Polling})
    requires pass == PollLaunch(w.queue, w.clients[o].root, o, Probe(w.dead, unclear))
    ensures Act(w, TryLaunch(o, unclear)) == Move(w.(queue := pass.queue), o,
      match pass.verdict case Granted => Launched case Queueing => Polling case Refused => Leaving)
  {
  }

  lemma GiveBackStep(w: World, o: Owner)
    requires At(w, o, {Launched})
    ensures Act(w, GiveBackLaunch(o)) == Move(w.(queue := ReleaseLaunch(w.queue, o)), o, Settling)
  {
  }

  /** A granted pass, and giving the launch back. */
  lemma LaunchMoves(w: World, o: Owner, pass: Pass)
    requires At(w, o, {Operating}) && pass == PollLaunch(w.queue, w.clients[o].root, o, Probe(w.dead, {}))
    requires pass.verdict == Granted
    ensures Acts(w, Launch(o)) == Move(w.(queue := ReleaseLaunch(pass.queue, o)), o, Settling)
  {
    FoldTwo(Act, w, TryLaunch(o, {}), GiveBackLaunch(o));
    LaunchStep(w, o, {}, pass);
    GiveBackStep(Move(w.(queue := pass.queue), o, Launched), o);
  }

  lemma RegisterStep(w: World, o: Owner)
    requires At(w, o, {Settling}) && w.clients[o].root in w.ops
    ensures
      var root := w.clients[o].root;
      Acts(w, [Register(o)]) == w.(registered := w.registered + [Registration(o, root, Some(w.ops[root].owner))],
                                   clients := w.clients[o := Client(root, Leaving)])
  {
    FoldThen(Act, w, [], Register(o));
    assert [] + [Register(o)] == [Register(o)];
  }

  /** What the script makes of a world, given the queue after the launch is given back. */
  function Registered(w: World, o: Owner, root: string, queue: Queue): World {
    World(queue, w.ops[root := Operation(o, root)], w.dead, w.clients[o := Client(root, Leaving)],
          w.registered + [Registration(o, root, Some(o))])
  }

  function Gone(w: World, o: Owner, root: string, queue: Queue): World {
    World(queue, DropOperations(w.ops[root := Operation(o, root)], o), w.dead, w.clients[o := Client(root, Finished)],
          w.registered + [Registration(o, root, Some(o))])
  }

  lemma ScriptEnds(w: World, o: Owner, root: string, given: Queue)
    requires QueueInv(given) && Line(given) == []
    ensures
      var ops := w.ops[root := Operation(o, root)];
      var settling := w.(queue := given, ops := ops, clients := w.clients[o := Client(root, Settling)]);
      && Acts(settling, [Register(o)]) == Registered(w, o, root, given)
      && Acts(Registered(w, o, root, given), Exit(o)) == Gone(w, o, root, ReleaseLaunch(given, o))
      && Line(ReleaseLaunch(given, o)) == []
  {
    var ops := w.ops[root := Operation(o, root)];
    RegisterStep(w.(queue := given, ops := ops, clients := w.clients[o := Client(root, Settling)]), o);
    ExitOfLeaving(Registered(w, o, root, given), o);
    ReleasedEmpty(given, o);
  }

  lemma ScriptSettles(w: World, ops: Operations, o: Owner, root: string, pass: Pass)
    requires pass == PollLaunch(w.queue, root, o, Probe(w.dead, {})) && pass.verdict == Granted
    ensures Acts(w.(ops := ops, clients := w.clients[o := Client(root, Operating)]), Launch(o))
      == w.(queue := ReleaseLaunch(pass.queue, o), ops := ops, clients := w.clients[o := Client(root, Settling)])
  {
    var operating := w.(ops := ops, clients := w.clients[o := Client(root, Operating)]);
    assert operating.clients[o := Client(root, Settling)] == w.clients[o := Client(root, Settling)];
    LaunchMoves(operating, o, pass);
  }

  lemma ScriptRuns(w: World, o: Owner, root: string, pass: Pass)
    requires o !in w.clients && CompleteOwner(o) && AbsoluteRoot(root) && Live(w, o)
    requires root in w.ops ==> !Live(w, w.ops[root].owner)
    requires pass == PollLaunch(w.queue, root, o, Probe(w.dead, {})) && pass.verdict == Granted
    requires QueueInv(ReleaseLaunch(pass.queue, o)) && Line(ReleaseLaunch(pass.queue, o)) == []
    ensures
      var left := ReleaseLaunch(ReleaseLaunch(pass.queue, o), o);
      Line(left) == [] && Acts(w, Script(o, root)) == Gone(w, o, root, left)
  {
    var ops, given := w.ops[root := Operation(o, root)], ReleaseLaunch(pass.queue, o);
    var w2 := w.(ops := ops, clients := w.clients[o := Client(root, Operating)]);
    var w4 := w.(queue := given, ops := ops, clients := w.clients[o := Client(root, Settling)]);
    ScriptOperates(w, o, root);
    ScriptSettles(w, ops, o, root, pass);
    ScriptEnds(w, o, root, given);
    FoldFour(Act, w, w2, w4, Registered(w, o, root, given), Gone(w, o, root, ReleaseLaunch(given, o)),
             Enter(o, root), Launch(o), [Register(o)], Exit(o));
  }

  lemma LaunchAndBack(q: Queue, root: string, o: Owner, dead: set<Process>, pass: Pass)
    requires QueueInv(q) && CompleteOwner(o) && AbsoluteRoot(root) && o.process !in dead
    requires forall e | e in Line(q) :: e.owner.process in dead
    requires pass == PollLaunch(q, root, o, Probe(dead, {}))
    ensures pass.verdict == Granted
    ensures QueueInv(ReleaseLaunch(pass.queue, o)) && Line(ReleaseLaunch(pass.queue, o)) == []
  {
    LaunchOverTheDead(q, root, o, dead);
    GivenBack(pass.queue, Ticket(o, root, q.next));
  }

  lemma GoneHolds(w: World, o: Owner, root: string, queue: Queue)
    ensures
      var after := Gone(w, o, root, queue);
      forall r :: r in after.ops <==> r in w.ops && r != root && w.ops[r].owner != o
  {
  }

  /**
    An undisturbed script goes through: if nobody alive holds its root or stands in the line, the
    client takes both from the dead, registers its project while it is the recorded holder of the
    root, and leaves nothing behind.
   */
  lemma ScriptGoesThrough(w: World, o: Owner, root: string)
    requires QueueInv(w.queue) && o !in w.clients && CompleteOwner(o) && AbsoluteRoot(root) && Live(w, o)
    requires root in w.ops ==> !Live(w, w.ops[root].owner)
    requires forall e | e in Line(w.queue) :: !Live(w, e.owner)
    ensures
      var after := Acts(w, Script(o, root));
      && after.registered == w.registered + [Registration(o, root, Some(o))]
      && after.clients == w.clients[o := Client(root, Finished)] && Line(after.queue) == []
      && (forall r :: r in after.ops <==> r in w.ops && r != root && w.ops[r].owner != o)
  {
    var pass := PollLaunch(w.queue, root, o, Probe(w.dead, {}));
    LaunchAndBack(w.queue, root, o, w.dead, pass);
    ScriptRuns(w, o, root, pass);
    GoneHolds(w, o, root, ReleaseLaunch(ReleaseLaunch(pass.queue, o), o));
  }

  lemma ReleasedEmpty(q: Queue, o: Owner)
    requires QueueInv(q) && Line(q) == []
    ensures Line(ReleaseLaunch(q, o)) == []
  {
    assert q.waiting == [] && q.holder.None?;
  }

  // ---------------------------------------------------------------------------------
  // The order of release-all
  // ---------------------------------------------------------------------------------

  /** The same script with the two halves of `release_all` exchanged. */
  function ActSwapped(w: World, a: Action): World {
    match a
    case DropOperation(o) =>
      if !At(w, o, {Leaving}) then w
      else Move(w.(ops := DropOperations(w.ops, o)), o, Dropping)
    case DropLaunch(o) =>
      if !At(w, o, {Dropping}) then w
      else Move(w.(queue := ReleaseLaunch(w.queue, o)), o, Finished)
    case _ => Act(w, a)
  }

  function Alone(queue: Queue, ops: Operations, clients: map<Owner, Client>): World {
    World(queue, ops, {}, clients, [])
  }

  lemma Swapped(w: World, a: Action, next: World)
    requires Reachable(ActSwapped, InitialWorld, w) && ActSwapped(w, a) == next
    ensures Reachable(ActSwapped, InitialWorld, next)
  {
    ReachStep(ActSwapped, InitialWorld, w, a);
  }

  function Launcher(o: Owner, root: string): Queue {
    Queue(EmptyQueue.next + 1, Some(Entry(o, root, Launching, EmptyQueue.next)), [])
  }

  lemma FirstPass(o: Owner, root: string)
    ensures PollLaunch(EmptyQueue, root, o, Probe({}, {})) == Pass(Launcher(o, root), Granted, 1)
  {
    var e := Entry(o, root, Queued, EmptyQueue.next);
    assert Accepts(EmptyQueue) && Clear(Line(EmptyQueue), Probe({}, {}));
    assert Prune(EmptyQueue, Probe({}, {})) == EmptyQueue;
    assert [] + [e] == [e] && [e][1..] == [];
  }

  lemma SecondPass(o: Owner, p: Owner, root: string)
    requires CompleteOwner(o) && AbsoluteRoot(root) && o != p
    ensures
      var q := Launcher(o, root);
      var pass := PollLaunch(q, root, p, Probe({}, {}));
      pass.verdict == Queueing && pass.queue == Queue(q.next + 1, q.holder, [Entry(p, root, Queued, q.next)])
  {
    var q := Launcher(o, root);
    assert Line(q) == [q.holder.value];
    assert Accepts(q) && Clear(Line(q), Probe({}, {}));
    assert Prune(q, Probe({}, {})) == q;
    assert [] + [Entry(p, root, Queued, q.next)] == [Entry(p, root, Queued, q.next)];
  }

  lemma SwappedOperates(o: Owner, root: string)
    requires CompleteOwner(o) && AbsoluteRoot(root)
    ensures Reachable(ActSwapped, InitialWorld,
                      Alone(EmptyQueue, map[root := Operation(o, root)], map[o := Client(root, Operating)]))
  {
    FirstIsReachable(ActSwapped, InitialWorld);
    var arrived := Alone(EmptyQueue, map[], map[o := Client(root, Starting)]);
    Swapped(InitialWorld, Arrive(o, root), arrived);
    var operating := Alone(EmptyQueue, map[root := Operation(o, root)], map[o := Client(root, Operating)]);
    Swapped(arrived, TryOperation(o, {}), operating);
  }

  /** A launch pass is the same in both orders. */
  lemma SwappedPass(w: World, o: Owner, pass: Pass)
    requires At(w, o, {Operating, Polling})
    requires pass == PollLaunch(w.queue, w.clients[o].root, o, Probe(w.dead, {})) && pass.verdict != Refused
    ensures ActSwapped(w, TryLaunch(o, {}))
      == Move(w.(queue := pass.queue), o, if pass.verdict == Granted then Launched else Polling)
  {
  }

  lemma SwappedPasses(w: World, o: Owner, pass: Pass)
    requires Reachable(ActSwapped, InitialWorld, w) && At(w, o, {Operating, Polling})
    requires pass == PollLaunch(w.queue, w.clients[o].root, o, Probe(w.dead, {})) && pass.verdict != Refused
    ensures Reachable(ActSwapped, InitialWorld,
                      Move(w.(queue := pass.queue), o, if pass.verdict == Granted then Launched else Polling))
  {
    SwappedPass(w, o, pass);
    Swapped(w, TryLaunch(o, {}), Move(w.(queue := pass.queue), o, if pass.verdict == Granted then Launched else Polling));
  }

  lemma SwappedLaunches(o: Owner, root: string)
    requires CompleteOwner(o) && AbsoluteRoot(root)
    ensures Reachable(ActSwapped, InitialWorld,
                      Alone(Launcher(o, root), map[root := Operation(o, root)], map[o := Client(root, Launched)]))
  {
    var operating := Alone(EmptyQueue, map[root := Operation(o, root)], map[o := Client(root, Operating)]);
    SwappedOperates(o, root);
    FirstPass(o, root);
    SwappedPasses(operating, o, Pass(Launcher(o, root), Granted, 1));
    assert operating.clients[o := Client(root, Launched)] == map[o := Client(root, Launched)];
  }

  lemma SwappedLeaves(o: Owner, root: string)
    requires CompleteOwner(o) && AbsoluteRoot(root)
    ensures Reachable(ActSwapped, InitialWorld, Alone(Launcher(o, root), map[], map[o := Client(root, Dropping)]))
  {
    var q, ops := Launcher(o, root), map[root := Operation(o, root)];
    SwappedLaunches(o, root);
    Swapped(Alone(q, ops, map[o := Client(root, Launched)]), Quit(o), Alone(q, ops, map[o := Client(root, Leaving)]));
    assert DropOperations(ops, o) == map[];
    Swapped(Alone(q, ops, map[o := Client(root, Leaving)]), DropOperation(o), Alone(q, map[], map[o := Client(root, Dropping)]));
  }

  function Both(o: Owner, p: Owner, root: string, stage: Stage): map<Owner, Client> {
    map[o := Client(root, Dropping), p := Client(root, stage)]
  }

  lemma SwappedTakesOver(o: Owner, p: Owner, root: string)
    requires CompleteOwner(o) && CompleteOwner(p) && o != p && AbsoluteRoot(root)
    ensures Reachable(ActSwapped, InitialWorld,
                      Alone(Launcher(o, root), map[root := Operation(p, root)], Both(o, p, root, Operating)))
  {
    var q := Launcher(o, root);
    SwappedLeaves(o, root);
    var arrived := Alone(q, map[], Both(o, p, root, Starting));
    Swapped(Alone(q, map[], map[o := Client(root, Dropping)]), Arrive(p, root), arrived);
    Swapped(arrived, TryOperation(p, {}), Alone(q, map[root := Operation(p, root)], Both(o, p, root, Operating)));
  }

  lemma SwappedOvertakes(o: Owner, p: Owner, root: string, queue: Queue)
    requires CompleteOwner(o) && CompleteOwner(p) && o != p && AbsoluteRoot(root)
    requires queue == PollLaunch(Launcher(o, root), root, p, Probe({}, {})).queue
    ensures Reachable(ActSwapped, InitialWorld,
                      Alone(queue, map[root := Operation(p, root)], Both(o, p, root, Polling)))
  {
    var ops := map[root := Operation(p, root)];
    SwappedTakesOver(o, p, root);
    SecondPass(o, p, root);
    var entering := Alone(Launcher(o, root), ops, Both(o, p, root, Operating));
    SwappedPasses(entering, p, PollLaunch(Launcher(o, root), root, p, Probe({}, {})));
    assert entering.clients[p := Client(root, Polling)] == Both(o, p, root, Polling);
  }

  /** Live records of two clients, both of one root, are the whole line. */
  predicate BothInLine(w: World, o: Owner, p: Owner, root: string) {
    && |Line(w.queue)| == 2 && Live(w, o) && Live(w, p)
    && Line(w.queue)[0].owner == o && Line(w.queue)[1].owner == p
    && Line(w.queue)[0].root == Line(w.queue)[1].root == root
  }

  lemma OvertakenLine(o: Owner, p: Owner, root: string, w: World)
    requires CompleteOwner(o) && AbsoluteRoot(root) && o != p && w.dead == {}
    requires w.queue == PollLaunch(Launcher(o, root), root, p, Probe({}, {})).queue
    ensures BothInLine(w, o, p, root)
  {
    SecondPass(o, p, root);
  }

  /**
    The order of `release_all` matters: were the operation dropped before the launch, then for any two
    clients of one root there is a run after which live records of both stand in the line, which
    `LiveRecordsHoldTheirRoots` excludes for the order of the program.
   */
  lemma DroppingTheOperationFirstBreaksRoots(o: Owner, p: Owner, root: string)
    requires CompleteOwner(o) && CompleteOwner(p) && o != p && AbsoluteRoot(root)
    ensures exists actions: seq<Action> :: BothInLine(Fold(ActSwapped, InitialWorld, actions), o, p, root)
  {
    var queue := PollLaunch(Launcher(o, root), root, p, Probe({}, {})).queue;
    SwappedOvertakes(o, p, root, queue);
    var w := Alone(queue, map[root := Operation(p, root)], Both(o, p, root, Polling));
    OvertakenLine(o, p, root, w);
    var actions :| Fold(ActSwapped, InitialWorld, actions) == w;
  }
}
