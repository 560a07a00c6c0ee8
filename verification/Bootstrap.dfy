/**
  The bootstrap success cache of `workspace_harbor_bootstrap.py`: `bootstrap_status` reads without
  the worktree lock, `run_bootstrap` checks it again under the lock, removes the success record,
  executes the plans and writes the record back. Every read, execution and write is a step of one
  process; processes and the environment interleave freely, and a process may die at any point.
 */
module Bootstrap {
  import opened Wrappers

  /** `id` stands for the plan's place in the order of plan identifiers; no `argv` means ide-managed. */
  datatype Plan = Plan(id: nat, argv: seq<string>, markers: set<string>)

  /** The digest is injective, so it is its own material: the sorted plans and everything else read. */
  datatype Fingerprint = Fingerprint(plans: seq<Plan>, material: nat)

  /** What the processes can read of the repository and the machine. */
  datatype Env = Env(planned: bool, approved: bool, plans: seq<Plan>, material: nat, markers: set<string>, tools: set<string>)

  datatype Execution = Execution(plan: Plan, exit: int)

  // ---------------------------------------------------------------------------------
  // Plans
  // ---------------------------------------------------------------------------------

  function Earlier(): (Plan, Plan) -> bool {
    (a: Plan, b: Plan) => a.id < b.id
  }

  /** `sorted(plans, key=plan_id)`, which is stable. */
  function Sort(plans: seq<Plan>): seq<Plan> {
    SortBy(plans, Earlier())
  }

  predicate Ordered(plans: seq<Plan>) {
    forall i, j | 0 <= i < j < |plans| :: plans[i].id <= plans[j].id
  }

  /** Sorting loses no plan, invents none, and orders them. */
  lemma SortKeeps(plans: seq<Plan>)
    ensures multiset(Sort(plans)) == multiset(plans) && Ordered(Sort(plans))
    ensures forall p :: p in Sort(plans) <==> p in plans
  {
    SortByKeeps(plans, Earlier());
    SameElements(Sort(plans), plans);
    var sorted := Sort(plans);
    forall i, j | 0 <= i < j < |sorted| ensures sorted[i].id <= sorted[j].id {
      assert !Earlier()(sorted[j], sorted[i]);
    }
  }

  /** The plans that start a process. */
  function Commands(plans: seq<Plan>): seq<Plan> {
    if plans == [] then []
    else (if plans[0].argv == [] then [] else [plans[0]]) + Commands(plans[1..])
  }

  lemma {:induction false} CommandsHold(plans: seq<Plan>, p: Plan)
    requires p in plans && p.argv != []
    ensures p in Commands(plans)
  {
    if p != plans[0] {
      CommandsHold(plans[1..], p);
    }
  }

  function PlansOf(done: seq<Execution>): seq<Plan> {
    seq(|done|, i requires 0 <= i < |done| => done[i].plan)
  }

  predicate MarkersFound(plans: seq<Plan>, found: set<string>) {
    forall i | 0 <= i < |plans| :: plans[i].markers <= found
  }

  predicate ToolsFound(plans: seq<Plan>, tools: set<string>) {
    forall i | 0 <= i < |plans| && plans[i].argv != [] :: plans[i].argv[0] in tools
  }

  // ---------------------------------------------------------------------------------
  // Processes
  // ---------------------------------------------------------------------------------

  type Pid = nat

  datatype Phase =
    | Begin(locked: bool)                                                  // before plan_repository
    | Planned(locked: bool, plans: seq<Plan>)                              // before the fingerprint
    | Printed(locked: bool, plans: seq<Plan>, fp: Fingerprint)             // before the record is read
    | Compared(locked: bool, plans: seq<Plan>, fp: Fingerprint, same: bool, run: nat, quiet: bool)
    | Marked(locked: bool, plans: seq<Plan>, fp: Fingerprint, same: bool, run: nat, quiet: bool, markers: set<string>)
    | Queued                                                               // before flock
    | Removing(plans: seq<Plan>, fp: Fingerprint)
    | Executing(plans: seq<Plan>, fp: Fingerprint, todo: seq<Plan>, done: seq<Execution>)
    | Replanning(plans: seq<Plan>, fp: Fingerprint, done: seq<Execution>)
    | Reprinting(plans: seq<Plan>, fp: Fingerprint, done: seq<Execution>, after: seq<Plan>)
    | Seeking(plans: seq<Plan>, fp: Fingerprint, done: seq<Execution>, again: Fingerprint)
    | Writing(plans: seq<Plan>, fp: Fingerprint, done: seq<Execution>, again: Fingerprint, found: set<string>)

  datatype Proc = Proc(force: bool, phase: Phase)

  /** A run that wrote the record, with what it observed on the way. */
  datatype RunLog = RunLog(plans: seq<Plan>, fp: Fingerprint, done: seq<Execution>, again: Fingerprint, found: set<string>)

  /** A reported hit: `run` counts the writes before the record was read, `quiet` says that no run
      was executing at that instant, and the last two are what the status then found. */
  datatype Hit = Hit(plans: seq<Plan>, fp: Fingerprint, run: nat, quiet: bool, markers: set<string>, tools: set<string>)

  datatype World = World(env: Env, record: Option<Fingerprint>, holder: Option<Pid>, procs: map<Pid, Proc>,
                         runs: seq<RunLog>, hits: seq<Hit>, executions: nat)

  datatype Action =
    | Change(env: Env)
    | Start(p: Pid, force: bool)
    | Turn(p: Pid, exit: int)
    | Fail(p: Pid)            // an error that ends the run, or the death of its process

  predicate Locked(phase: Phase) {
    match phase
    case Queued => false
    case Begin(locked) => locked
    case Planned(locked, _) => locked
    case Printed(locked, _, _) => locked
    case Compared(locked, _, _, _, _, _) => locked
    case Marked(locked, _, _, _, _, _, _) => locked
    case _ => true
  }

  /** The record is removed and not yet written back. */
  predicate PastRemoval(phase: Phase) {
    phase.Executing? || phase.Replanning? || phase.Reprinting? || phase.Seeking? || phase.Writing?
  }

  predicate Quiet(w: World) {
    forall p | p in w.procs :: !PastRemoval(w.procs[p].phase)
  }

  function Print(plans: seq<Plan>, env: Env): Fingerprint {
    Fingerprint(Sort(plans), env.material)
  }

  function To(w: World, p: Pid, phase: Phase): World
    requires p in w.procs
  {
    w.(procs := w.procs[p := w.procs[p].(phase := phase)])
  }

  /** The process ends; closing its descriptor releases the lock. */
  function Leave(w: World, p: Pid): World {
    w.(procs := w.procs - {p}, holder := if w.holder == Some(p) then None else w.holder)
  }

  function Decide(w: World, p: Pid): World
    requires p in w.procs && w.procs[p].phase.Marked?
  {
    var Marked(locked, plans, fp, same, run, quiet, markers) := w.procs[p].phase;
    var hit := same && ToolsFound(plans, w.env.tools);
    var w1 := if hit then w.(hits := w.hits + [Hit(plans, fp, run, quiet, markers, w.env.tools)]) else w;
    if hit && !w.procs[p].force then Leave(w1, p)
    else if !locked then To(w1, p, Queued)
    else To(w1, p, Removing(plans, fp))
  }

  function Execute(w: World, p: Pid, exit: int): World
    requires p in w.procs && w.procs[p].phase.Executing?
  {
    var Executing(plans, fp, todo, done) := w.procs[p].phase;
    if todo == [] then To(w, p, Replanning(plans, fp, done))
    else if todo[0].argv == [] then To(w, p, Executing(plans, fp, todo[1..], done))
    else
      var w1 := w.(executions := w.executions + 1);
      if exit != 0 then Leave(w1, p)
      else To(w1, p, Executing(plans, fp, todo[1..], done + [Execution(todo[0], exit)]))
  }

  function Step(w: World, p: Pid, exit: int): World
    requires p in w.procs
  {
    match w.procs[p].phase
    case Begin(locked) =>
      if w.env.planned && w.env.approved then To(w, p, Planned(locked, w.env.plans)) else Leave(w, p)
    case Planned(locked, plans) => To(w, p, Printed(locked, plans, Print(plans, w.env)))
    case Printed(locked, plans, fp) =>
      To(w, p, Compared(locked, plans, fp, w.record == Some(fp), |w.runs|, Quiet(w)))
    case Compared(locked, plans, fp, same, run, quiet) =>
      To(w, p, Marked(locked, plans, fp, same && MarkersFound(plans, w.env.markers), run, quiet, w.env.markers))
    case Marked(_, _, _, _, _, _, _) => Decide(w, p)
    case Queued => if w.holder.None? then To(w, p, Begin(true)).(holder := Some(p)) else w
    case Removing(plans, fp) => To(w, p, Executing(plans, fp, Sort(plans), [])).(record := None)
    case Executing(_, _, _, _) => Execute(w, p, exit)
    case Replanning(plans, fp, done) =>
      if w.env.planned then To(w, p, Reprinting(plans, fp, done, w.env.plans)) else Leave(w, p)
    case Reprinting(plans, fp, done, after) =>
      if Print(after, w.env) == fp then To(w, p, Seeking(plans, fp, done, Print(after, w.env))) else Leave(w, p)
    case Seeking(plans, fp, done, again) =>
      if MarkersFound(plans, w.env.markers) then To(w, p, Writing(plans, fp, done, again, w.env.markers))
      else Leave(w, p)
    case Writing(plans, fp, done, again, found) =>
      Leave(w.(record := Some(fp), runs := w.runs + [RunLog(plans, fp, done, again, found)]), p)
  }

  function Act(w: World, a: Action): World {
    match a
    case Change(env) => w.(env := env)
    case Start(p, force) => if p in w.procs then w else w.(procs := w.procs[p := Proc(force, Begin(false))])
    case Turn(p, exit) => if p in w.procs then Step(w, p, exit) else w
    case Fail(p) => if p in w.procs then Leave(w, p) else w
  }

  function Acts(w: World, actions: seq<Action>): World {
    Fold(Act, w, actions)
  }

  function Initial(env: Env): World {
    World(env, None, None, map[], [], [], 0)
  }

  // ---------------------------------------------------------------------------------
  // Invariant
  // ---------------------------------------------------------------------------------

  predicate AllZero(done: seq<Execution>) {
    forall i | 0 <= i < |done| :: done[i].exit == 0
  }

  /** The run executed all its commands, in order and with exit 0, and saw what it started from. */
  predicate CleanRun(run: RunLog) {
    && run.fp.plans == Sort(run.plans)
    && PlansOf(run.done) == Commands(run.fp.plans) && AllZero(run.done)
    && run.again == run.fp
    && MarkersFound(run.plans, run.found)
  }

  predicate ReadInv(w: World, plans: seq<Plan>, fp: Fingerprint, same: bool, run: nat, quiet: bool) {
    && fp.plans == Sort(plans)
    && (same ==> 0 < run <= |w.runs| && w.runs[run - 1].fp == fp && quiet)
  }

  predicate PhaseInv(w: World, phase: Phase) {
    match phase
    case Printed(_, plans, fp) => fp.plans == Sort(plans)
    case Compared(_, plans, fp, same, run, quiet) => ReadInv(w, plans, fp, same, run, quiet)
    case Marked(_, plans, fp, same, run, quiet, markers) =>
      ReadInv(w, plans, fp, same, run, quiet) && (same ==> MarkersFound(plans, markers))
    case Removing(plans, fp) => fp.plans == Sort(plans)
    case Executing(plans, fp, todo, done) =>
      fp.plans == Sort(plans) && AllZero(done) && PlansOf(done) + Commands(todo) == Commands(fp.plans)
    case Replanning(plans, fp, done) =>
      fp.plans == Sort(plans) && AllZero(done) && PlansOf(done) == Commands(fp.plans)
    case Reprinting(plans, fp, done, _) =>
      fp.plans == Sort(plans) && AllZero(done) && PlansOf(done) == Commands(fp.plans)
    case Seeking(plans, fp, done, again) =>
      fp.plans == Sort(plans) && AllZero(done) && PlansOf(done) == Commands(fp.plans) && again == fp
    case Writing(plans, fp, done, again, found) => CleanRun(RunLog(plans, fp, done, again, found))
    case _ => true
  }

  /** Exactly the lock holder is in a locked phase. */
  ghost predicate LockInv(w: World) {
    && (forall p | p in w.procs && Locked(w.procs[p].phase) :: w.holder == Some(p))
    && (w.holder.Some? ==> w.holder.value in w.procs && Locked(w.procs[w.holder.value].phase))
  }

  /** A record is the last write, and exists only while no run is past its removal. */
  ghost predicate RecordInv(w: World) {
    w.record.Some? ==> Quiet(w) && w.runs != [] && w.runs[|w.runs| - 1].fp == w.record.value
  }

  ghost predicate LogInv(w: World) {
    && (forall i | 0 <= i < |w.runs| :: CleanRun(w.runs[i]))
    && (forall i | 0 <= i < |w.hits| ::
          && ReadInv(w, w.hits[i].plans, w.hits[i].fp, true, w.hits[i].run, w.hits[i].quiet)
          && MarkersFound(w.hits[i].plans, w.hits[i].markers) && ToolsFound(w.hits[i].plans, w.hits[i].tools))
  }

  ghost predicate ProcsInv(w: World) {
    forall p | p in w.procs :: PhaseInv(w, w.procs[p].phase)
  }

  ghost predicate Inv(w: World) {
    LockInv(w) && RecordInv(w) && LogInv(w) && ProcsInv(w)
  }

  lemma LeaveKeepsInv(w: World, p: Pid)
    requires Inv(w)
    ensures Inv(Leave(w, p))
  {
  }

  /** A step to a phase that holds the lock exactly when the one before did. */
  lemma ToKeepsInv(w: World, p: Pid, phase: Phase)
    requires Inv(w) && p in w.procs && PhaseInv(w, phase)
    requires Locked(phase) == Locked(w.procs[p].phase)
    requires PastRemoval(phase) ==> PastRemoval(w.procs[p].phase)
    ensures Inv(To(w, p, phase))
  {
    var w' := To(w, p, phase);
    assert forall q | q in w'.procs && q != p :: w'.procs[q] == w.procs[q];
  }

  lemma HitKeepsInv(w: World, hit: Hit)
    requires Inv(w) && ReadInv(w, hit.plans, hit.fp, true, hit.run, hit.quiet)
    requires MarkersFound(hit.plans, hit.markers) && ToolsFound(hit.plans, hit.tools)
    ensures Inv(w.(hits := w.hits + [hit]))
  {
  }

  lemma CountKeepsInv(w: World, executions: nat)
    requires Inv(w)
    ensures Inv(w.(executions := executions))
  {
  }

  lemma DecideKeepsInv(w: World, p: Pid)
    requires Inv(w) && p in w.procs && w.procs[p].phase.Marked?
    ensures Inv(Decide(w, p))
  {
    var Marked(locked, plans, fp, same, run, quiet, markers) := w.procs[p].phase;
    assert PhaseInv(w, w.procs[p].phase);
    var hit := same && ToolsFound(plans, w.env.tools);
    var w1 := if hit then w.(hits := w.hits + [Hit(plans, fp, run, quiet, markers, w.env.tools)]) else w;
    if hit {
      HitKeepsInv(w, Hit(plans, fp, run, quiet, markers, w.env.tools));
    }
    if hit && !w.procs[p].force {
      LeaveKeepsInv(w1, p);
    } else if !locked {
      ToKeepsInv(w1, p, Queued);
    } else {
      ToKeepsInv(w1, p, Removing(plans, fp));
    }
  }

  lemma DoneExtends(done: seq<Execution>, todo: seq<Plan>, exit: int)
    requires todo != [] && todo[0].argv != []
    ensures PlansOf(done + [Execution(todo[0], exit)]) + Commands(todo[1..]) == PlansOf(done) + Commands(todo)
  {
  }

  lemma ExecuteKeepsInv(w: World, p: Pid, exit: int)
    requires Inv(w) && p in w.procs && w.procs[p].phase.Executing?
    ensures Inv(Execute(w, p, exit))
  {
    var Executing(plans, fp, todo, done) := w.procs[p].phase;
    assert PhaseInv(w, w.procs[p].phase);
    if todo == [] {
      assert PlansOf(done) + Commands(todo) == PlansOf(done);
      ToKeepsInv(w, p, Replanning(plans, fp, done));
    } else if todo[0].argv == [] {
      assert Commands(todo) == [] + Commands(todo[1..]) == Commands(todo[1..]);
      ToKeepsInv(w, p, Executing(plans, fp, todo[1..], done));
    } else {
      var w1 := w.(executions := w.executions + 1);
      CountKeepsInv(w, w.executions + 1);
      if exit != 0 {
        LeaveKeepsInv(w1, p);
      } else {
        DoneExtends(done, todo, exit);
        ToKeepsInv(w1, p, Executing(plans, fp, todo[1..], done + [Execution(todo[0], exit)]));
      }
    }
  }

  /** Only the lock holder removes the record, so no other process is past its removal. */
  lemma RemoveKeepsInv(w: World, p: Pid, plans: seq<Plan>, fp: Fingerprint)
    requires Inv(w) && p in w.procs && w.procs[p].phase == Removing(plans, fp)
    ensures Inv(Step(w, p, 0))
  {
    var w' := Step(w, p, 0);
    assert PhaseInv(w, w.procs[p].phase);
    assert PlansOf([]) + Commands(Sort(plans)) == Commands(Sort(plans));
    assert forall q | q in w'.procs && q != p :: w'.procs[q] == w.procs[q];
  }

  lemma TakeLockKeepsInv(w: World, p: Pid)
    requires Inv(w) && p in w.procs && w.procs[p].phase.Queued? && w.holder.None?
    ensures Inv(Step(w, p, 0))
  {
    var w' := Step(w, p, 0);
    assert forall q | q in w'.procs && q != p :: w'.procs[q] == w.procs[q];
  }

  lemma WriteKeepsInv(w: World, p: Pid)
    requires Inv(w) && p in w.procs && w.procs[p].phase.Writing?
    ensures Inv(Step(w, p, 0))
  {
    var w' := Step(w, p, 0);
    assert PhaseInv(w, w.procs[p].phase);
    forall q | q in w'.procs ensures !PastRemoval(w'.procs[q].phase) {
      assert q != p && w'.procs[q] == w.procs[q];
    }
    assert forall i | 0 <= i < |w.runs| :: w'.runs[i] == w.runs[i];
    assert CleanRun(w'.runs[|w.runs|]);
  }

  lemma ReadKeepsInv(w: World, p: Pid)
    requires Inv(w) && p in w.procs && w.procs[p].phase.Printed?
    ensures Inv(Step(w, p, 0))
  {
    var Printed(locked, plans, fp) := w.procs[p].phase;
    assert PhaseInv(w, w.procs[p].phase);
    ToKeepsInv(w, p, Compared(locked, plans, fp, w.record == Some(fp), |w.runs|, Quiet(w)));
  }

  lemma CheckKeepsInv(w: World, p: Pid)
    requires Inv(w) && p in w.procs
    requires w.procs[p].phase.Replanning? || w.procs[p].phase.Reprinting? || w.procs[p].phase.Seeking?
    ensures Inv(Step(w, p, 0))
  {
    assert PhaseInv(w, w.procs[p].phase);
    match w.procs[p].phase
    case Replanning(plans, fp, done) =>
      if w.env.planned { ToKeepsInv(w, p, Reprinting(plans, fp, done, w.env.plans)); } else { LeaveKeepsInv(w, p); }
    case Reprinting(plans, fp, done, after) =>
      if Print(after, w.env) == fp { ToKeepsInv(w, p, Seeking(plans, fp, done, Print(after, w.env))); }
      else { LeaveKeepsInv(w, p); }
    case Seeking(plans, fp, done, again) =>
      if MarkersFound(plans, w.env.markers) { ToKeepsInv(w, p, Writing(plans, fp, done, again, w.env.markers)); }
      else { LeaveKeepsInv(w, p); }
  }

  lemma StepKeepsInv(w: World, p: Pid, exit: int)
    requires Inv(w) && p in w.procs
    ensures Inv(Step(w, p, exit))
  {
    match w.procs[p].phase
    case Begin(locked) =>
      if w.env.planned && w.env.approved { ToKeepsInv(w, p, Planned(locked, w.env.plans)); } else { LeaveKeepsInv(w, p); }
    case Planned(locked, plans) => ToKeepsInv(w, p, Printed(locked, plans, Print(plans, w.env)));
    case Printed(_, _, _) => ReadKeepsInv(w, p);
    case Compared(locked, plans, fp, same, run, quiet) =>
      assert PhaseInv(w, w.procs[p].phase);
      ToKeepsInv(w, p, Marked(locked, plans, fp, same && MarkersFound(plans, w.env.markers), run, quiet, w.env.markers));
    case Marked(_, _, _, _, _, _, _) => DecideKeepsInv(w, p);
    case Queued => if w.holder.None? { TakeLockKeepsInv(w, p); }
    case Removing(plans, fp) => RemoveKeepsInv(w, p, plans, fp);
    case Executing(_, _, _, _) => ExecuteKeepsInv(w, p, exit);
    case Replanning(_, _, _) => CheckKeepsInv(w, p);
    case Reprinting(_, _, _, _) => CheckKeepsInv(w, p);
    case Seeking(_, _, _, _) => CheckKeepsInv(w, p);
    case Writing(_, _, _, _, _) => WriteKeepsInv(w, p);
  }

  lemma StartKeepsInv(w: World, p: Pid, force: bool)
    requires Inv(w)
    ensures Inv(Act(w, Start(p, force)))
  {
    var w' := Act(w, Start(p, force));
    assert forall q | q in w'.procs && q in w.procs :: w'.procs[q] == w.procs[q];
  }

  lemma ActKeepsInv(w: World, a: Action)
    requires Inv(w)
    ensures Inv(Act(w, a))
  {
    match a
    case Change(env) =>
    case Start(p, force) => StartKeepsInv(w, p, force);
    case Turn(p, exit) => if p in w.procs { StepKeepsInv(w, p, exit); }
    case Fail(p) => if p in w.procs { LeaveKeepsInv(w, p); }
  }

  lemma ActsKeepInv(w: World, actions: seq<Action>)
    requires Inv(w)
    ensures Inv(Acts(w, actions))
  {
    forall v, a | Inv(v) ensures Inv(Act(v, a)) {
      ActKeepsInv(v, a);
    }
    FoldKeeps(Act, Inv, w, actions);
  }

  // ---------------------------------------------------------------------------------
  // What every run guarantees
  // ---------------------------------------------------------------------------------

  /** Every command of the plans was executed with exit 0 by that run, which found all their markers. */
  ghost predicate Earned(run: RunLog, plans: seq<Plan>, fp: Fingerprint) {
    && run.fp == fp && run.again == fp
    && (forall p | p in plans && p.argv != [] :: Execution(p, 0) in run.done)
    && (forall p, m | p in plans && m in p.markers :: m in run.found)
    && AllZero(run.done)
  }

  lemma CleanRunEarns(run: RunLog, plans: seq<Plan>)
    requires CleanRun(run) && run.fp.plans == Sort(plans)
    ensures Earned(run, plans, run.fp)
  {
    forall p | p in plans
      ensures p.argv != [] ==> Execution(p, 0) in run.done
      ensures p.markers <= run.found
    {
      SortKeeps(plans);
      SortKeeps(run.plans);
      if p.argv != [] {
        CommandsHold(run.fp.plans, p);
        assert p in PlansOf(run.done);
        var i :| 0 <= i < |run.done| && run.done[i].plan == p;
        assert run.done[i] == Execution(p, 0);
      }
    }
  }

  /**
    The cache does not lie. Every reported hit rests on a write by a run that executed every command
    of the same plans with exit 0, saw the same fingerprint before and after and found every marker;
    no run was executing at the instant the record was read; and the status itself then found every
    marker and every command.
   */
  lemma {:induction false} HitsAreEarned(env: Env, actions: seq<Action>, i: nat)
    requires i < |Acts(Initial(env), actions).hits|
    ensures
      var w := Acts(Initial(env), actions);
      var hit := w.hits[i];
      && hit.quiet && MarkersFound(hit.plans, hit.markers) && ToolsFound(hit.plans, hit.tools)
      && exists r :: 0 <= r < |w.runs| && Earned(w.runs[r], hit.plans, hit.fp)
  {
    ActsKeepInv(Initial(env), actions);
    var w := Acts(Initial(env), actions);
    var hit := w.hits[i];
    CleanRunEarns(w.runs[hit.run - 1], hit.plans);
  }

  /** While a run executes there is no record to read. */
  lemma {:induction false} NoRecordWhileExecuting(env: Env, actions: seq<Action>, p: Pid)
    requires
      var w := Acts(Initial(env), actions);
      p in w.procs && PastRemoval(w.procs[p].phase)
    ensures
      var w := Acts(Initial(env), actions);
      w.record.None? && w.holder == Some(p)
  {
    ActsKeepInv(Initial(env), actions);
  }

  /** At most one run is past its removal. */
  lemma {:induction false} OneRunExecutes(env: Env, actions: seq<Action>, p: Pid, q: Pid)
    requires
      var w := Acts(Initial(env), actions);
      && p in w.procs && PastRemoval(w.procs[p].phase)
      && q in w.procs && PastRemoval(w.procs[q].phase)
    ensures p == q
  {
    NoRecordWhileExecuting(env, actions, p);
    NoRecordWhileExecuting(env, actions, q);
  }

  /** A run that ends without writing, in any of the ways it can fail. */
  predicate EndsUnwritten(w: World, a: Action, p: Pid) {
    && p in w.procs && p !in Act(w, a).procs
    && (a == Fail(p) || (a.Turn? && a.p == p && !w.procs[p].phase.Writing?))
  }

  /**
    What a failed run leaves behind: nothing exactly when it failed past its removal or there was
    nothing before. A failure before or at the removal, such as a permission error, keeps an older record.
   */
  lemma {:induction false} FailedRunLeavesNoRecord(env: Env, actions: seq<Action>, a: Action, p: Pid)
    requires EndsUnwritten(Acts(Initial(env), actions), a, p)
    ensures
      var w := Acts(Initial(env), actions);
      && Act(w, a).record == w.record
      && (Act(w, a).record.None? <==> (PastRemoval(w.procs[p].phase) || w.record.None?))
  {
    ActsKeepInv(Initial(env), actions);
    var w := Acts(Initial(env), actions);
    assert PastRemoval(w.procs[p].phase) ==> !Quiet(w);
  }

  const Example := Env(true, true, [Plan(0, ["uv"], {})], 0, {}, {"uv"})

  ghost predicate ExampleReaches(w: World) {
    Reachable(Act, Initial(Example), w)
  }

  lemma Reaches(w: World, a: Action)
    requires ExampleReaches(w)
    ensures ExampleReaches(Act(w, a))
  {
    ReachStep(Act, Initial(Example), w, a);
  }

  function At(holder: Option<Pid>, phase: Phase, executions: nat): World {
    World(Example, None, holder, map[1 := Proc(false, phase)], [], [], executions)
  }

  lemma ExamplePrints(locked: bool, holder: Option<Pid>)
    requires ExampleReaches(At(holder, Begin(locked), 0))
    ensures ExampleReaches(At(holder, Printed(locked, Example.plans, Print(Example.plans, Example)), 0))
  {
    Reaches(At(holder, Begin(locked), 0), Turn(1, 0));
    Reaches(At(holder, Planned(locked, Example.plans), 0), Turn(1, 0));
  }

  lemma ExampleReads(locked: bool, holder: Option<Pid>)
    requires ExampleReaches(At(holder, Begin(locked), 0))
    ensures ExampleReaches(At(holder, Marked(locked, Example.plans, Print(Example.plans, Example), false, 0, true, {}), 0))
  {
    var plans, fp := Example.plans, Print(Example.plans, Example);
    ExamplePrints(locked, holder);
    Reaches(At(holder, Printed(locked, plans, fp), 0), Turn(1, 0));
    Reaches(At(holder, Compared(locked, plans, fp, false, 0, true), 0), Turn(1, 0));
  }

  lemma ExampleQueues()
    ensures ExampleReaches(At(Some(1), Begin(true), 0))
  {
    var plans, fp := Example.plans, Print(Example.plans, Example);
    FirstIsReachable(Act, Initial(Example));
    Reaches(Initial(Example), Start(1, false));
    ExampleReads(false, None);
    Reaches(At(None, Marked(false, plans, fp, false, 0, true, {}), 0), Turn(1, 0));
    Reaches(At(None, Queued, 0), Turn(1, 0));
  }

  lemma ExampleDecides()
    ensures ExampleReaches(At(Some(1), Removing(Example.plans, Print(Example.plans, Example)), 0))
  {
    ExampleQueues();
    ExampleReads(true, Some(1));
    Reaches(At(Some(1), Marked(true, Example.plans, Print(Example.plans, Example), false, 0, true, {}), 0), Turn(1, 0));
  }

  lemma ExampleExecutes()
    ensures
      var plans, fp := Example.plans, Print(Example.plans, Example);
      ExampleReaches(At(Some(1), Replanning(plans, fp, [Execution(plans[0], 0)]), 1))
  {
    var plans, fp := Example.plans, Print(Example.plans, Example);
    ExampleDecides();
    Reaches(At(Some(1), Removing(plans, fp), 0), Turn(1, 0));
    assert Sort(plans) == plans;
    Reaches(At(Some(1), Executing(plans, fp, plans, []), 0), Turn(1, 0));
    assert [] + [Execution(plans[0], 0)] == [Execution(plans[0], 0)];
    Reaches(At(Some(1), Executing(plans, fp, [], [Execution(plans[0], 0)]), 1), Turn(1, 0));
  }

  lemma ExampleWrites()
    ensures
      var plans, fp := Example.plans, Print(Example.plans, Example);
      ExampleReaches(At(Some(1), Writing(plans, fp, [Execution(plans[0], 0)], fp, {}), 1))
  {
    var plans, fp := Example.plans, Print(Example.plans, Example);
    var done := [Execution(plans[0], 0)];
    ExampleExecutes();
    Reaches(At(Some(1), Replanning(plans, fp, done), 1), Turn(1, 0));
    Reaches(At(Some(1), Reprinting(plans, fp, done, plans), 1), Turn(1, 0));
    Reaches(At(Some(1), Seeking(plans, fp, done, fp), 1), Turn(1, 0));
  }

  /** An older record does survive a forced run that fails before its removal. */
  lemma FailureBeforeRemovalKeepsTheRecord()
    ensures exists actions ::
              (var w := Acts(Initial(Example), actions);
               EndsUnwritten(w, Fail(2), 2) && Act(w, Fail(2)).record == Some(Print(Example.plans, Example)))
  {
    ExampleWrites();
    var plans, fp := Example.plans, Print(Example.plans, Example);
    var writing := At(Some(1), Writing(plans, fp, [Execution(plans[0], 0)], fp, {}), 1);
    Reaches(writing, Turn(1, 0));
    Reaches(Act(writing, Turn(1, 0)), Start(2, true));
    var w := Act(Act(writing, Turn(1, 0)), Start(2, true));
    var actions :| Fold(Act, Initial(Example), actions) == w;
    assert Acts(Initial(Example), actions) == w;
    assert EndsUnwritten(w, Fail(2), 2);
  }

  // ---------------------------------------------------------------------------------
  // After the first success
  // ---------------------------------------------------------------------------------

  ghost predicate Ready(env: Env) {
    && env.planned && env.approved && MarkersFound(env.plans, env.markers) && ToolsFound(env.plans, env.tools)
  }

  /** A process that will not execute as long as the inputs stay and the record stands. */
  ghost predicate Harmless(env: Env, proc: Proc) {
    && !proc.force
    && match proc.phase
       case Begin(_) => true
       case Queued => true
       case Planned(locked, plans) => locked ==> plans == env.plans
       case Printed(locked, plans, fp) => locked ==> plans == env.plans && fp == Print(env.plans, env)
       case Compared(locked, plans, _, same, _, _) => locked ==> plans == env.plans && same
       case Marked(locked, plans, _, same, _, _, _) => locked ==> plans == env.plans && same
       case _ => false
  }

  ghost predicate Settled(w: World) {
    && Ready(w.env) && w.record == Some(Print(w.env.plans, w.env))
    && forall p | p in w.procs :: Harmless(w.env, w.procs[p])
  }

  /** Unforced runs on unchanged inputs. */
  predicate Calm(a: Action) {
    match a
    case Change(_) => false
    case Start(_, force) => !force
    case _ => true
  }

  /** From a settled state on, nothing is executed any more. */
  lemma {:induction false} SettledRunsExecuteNothing(w: World, actions: seq<Action>)
    requires Settled(w) && forall i | 0 <= i < |actions| :: Calm(actions[i])
    ensures Settled(Acts(w, actions)) && Acts(w, actions).env == w.env
    ensures Acts(w, actions).executions == w.executions && Acts(w, actions).runs == w.runs
    decreases |actions|
  {
    if actions != [] {
      SettledRunsExecuteNothing(Act(w, actions[0]), actions[1..]);
    }
  }

  /**
    Any number of concurrent unforced runs on unchanged inputs execute nothing after the first
    success, wherever the other runs were when it was written.
   */
  lemma {:induction false} FirstSuccessIsEnough(env: Env, actions: seq<Action>, p: Pid, exit: int, later: seq<Action>)
    requires
      var w := Acts(Initial(env), actions);
      && p in w.procs && w.procs[p].phase.Writing? && w.procs[p].phase.plans == w.env.plans
      && w.procs[p].phase.fp == Print(w.env.plans, w.env) && Ready(w.env)
      && (forall q | q in w.procs && q != p :: !w.procs[q].force)
    requires forall i | 0 <= i < |later| :: Calm(later[i])
    ensures
      var written := Act(Acts(Initial(env), actions), Turn(p, exit));
      && Acts(written, later).executions == written.executions
      && Acts(written, later).record == Some(Print(written.env.plans, written.env))
  {
    ActsKeepInv(Initial(env), actions);
    var w := Acts(Initial(env), actions);
    var written := Act(w, Turn(p, exit));
    forall q | q in written.procs ensures Harmless(written.env, written.procs[q]) {
      assert q != p && written.procs[q] == w.procs[q];
      assert w.holder == Some(p);
    }
    SettledRunsExecuteNothing(written, later);
  }

  // ---------------------------------------------------------------------------------
  // The locked part of a run as the program performs it
  // ---------------------------------------------------------------------------------

  /** The executions that succeeded, and whether all did; `exits[i]` answers for `todo[i]`. */
  function Perform(todo: seq<Plan>, exits: seq<int>, done: seq<Execution>): (seq<Execution>, bool)
    requires |exits| == |todo|
  {
    if todo == [] then (done, true)
    else if todo[0].argv == [] then Perform(todo[1..], exits[1..], done)
    else if exits[0] != 0 then (done, false)
    else Perform(todo[1..], exits[1..], done + [Execution(todo[0], exits[0])])
  }

  /** The commands run in order up to the first that fails. */
  lemma {:induction false} PerformStopsAtTheFirstFailure(todo: seq<Plan>, exits: seq<int>, done: seq<Execution>)
    requires |exits| == |todo| && AllZero(done)
    ensures
      var (all, ok) := Perform(todo, exits, done);
      && AllZero(all) && PlansOf(all) <= PlansOf(done) + Commands(todo)
      && (ok <==> forall i | 0 <= i < |todo| && todo[i].argv != [] :: exits[i] == 0)
      && (ok ==> PlansOf(all) == PlansOf(done) + Commands(todo))
  {
    if todo == [] {
      assert PlansOf(done) + Commands(todo) == PlansOf(done);
    } else if todo[0].argv == [] {
      PerformStopsAtTheFirstFailure(todo[1..], exits[1..], done);
      assert Commands(todo) == Commands(todo[1..]);
      assert forall i | 0 < i < |todo| :: todo[i] == todo[1..][i - 1] && exits[i] == exits[1..][i - 1];
    } else if exits[0] == 0 {
      PerformStopsAtTheFirstFailure(todo[1..], exits[1..], done + [Execution(todo[0], exits[0])]);
      DoneExtends(done, todo, exits[0]);
      assert forall i | 0 < i < |todo| :: todo[i] == todo[1..][i - 1] && exits[i] == exits[1..][i - 1];
    }
  }

  /** The turns of a process that nothing interrupts, in an environment that stands still. */
  function Rounds(w: World, p: Pid, exits: seq<int>): World
    decreases |exits|
  {
    if exits == [] then w else Rounds(Act(w, Turn(p, exits[0])), p, exits[1..])
  }

  /** The uninterrupted steps of the machine perform exactly the loop of the program. */
  lemma {:induction false} MachinePerforms(w: World, p: Pid, todo: seq<Plan>, done: seq<Execution>, exits: seq<int>)
    requires p in w.procs && w.procs[p].phase.Executing? && |exits| == |todo|
    requires w.procs[p].phase.todo == todo && w.procs[p].phase.done == done
    ensures
      var (all, ok) := Perform(todo, exits, done);
      var w' := Rounds(w, p, exits);
      && w'.record == w.record && w'.env == w.env && w'.runs == w.runs && (p in w'.procs <==> ok)
      && w'.executions == w.executions + |all| - |done| + (if ok then 0 else 1)
      && (ok ==> w'.procs[p].phase == w.procs[p].phase.(todo := [], done := all))
    decreases |todo|
  {
    if todo != [] {
      var w1 := Act(w, Turn(p, exits[0]));
      if p in w1.procs {
        MachinePerforms(w1, p, todo[1..], w1.procs[p].phase.done, exits[1..]);
      } else {
        GoneStaysGone(w1, p, exits[1..]);
      }
    }
  }

  lemma {:induction false} GoneStaysGone(w: World, p: Pid, exits: seq<int>)
    requires p !in w.procs
    ensures Rounds(w, p, exits) == w
    decreases |exits|
  {
    if exits != [] {
      GoneStaysGone(w, p, exits[1..]);
    }
  }

  lemma {:induction false} RoundsJoin(w: World, p: Pid, a: seq<int>, b: seq<int>)
    ensures Rounds(w, p, a + b) == Rounds(Rounds(w, p, a), p, b)
    decreases |a|
  {
    if a == [] {
      assert a + b == b;
    } else {
      assert (a + b)[0] == a[0] && (a + b)[1..] == a[1..] + b;
      RoundsJoin(Act(w, Turn(p, a[0])), p, a[1..], b);
    }
  }

  lemma Rounds1(w: World, p: Pid, exit: int, rest: seq<int>)
    ensures Rounds(w, p, [exit] + rest) == Rounds(Act(w, Turn(p, exit)), p, rest)
  {
  }

  /** What the second look after the executions asks for. */
  predicate Confirmed(plans: seq<Plan>, fp: Fingerprint, env: Env) {
    env.planned && Print(env.plans, env) == fp && MarkersFound(plans, env.markers)
  }

  /** The steps after the last execution write the record exactly when the second look confirms. */
  lemma MachineConfirms(w: World, p: Pid)
    requires p in w.procs && w.procs[p].phase.Executing? && w.procs[p].phase.todo == []
    ensures
      var Executing(plans, fp, _, done) := w.procs[p].phase;
      var w' := Rounds(w, p, [0, 0, 0, 0, 0]);
      && p !in w'.procs && w'.executions == w.executions
      && (if Confirmed(plans, fp, w.env)
          then w'.record == Some(fp) && w'.runs == w.runs + [RunLog(plans, fp, done, fp, w.env.markers)]
          else w'.record == w.record && w'.runs == w.runs)
  {
    var Executing(plans, fp, _, done) := w.procs[p].phase;
    var w1 := Act(w, Turn(p, 0));
    Rounds1(w, p, 0, [0, 0, 0, 0]);
    assert w1 == To(w, p, Replanning(plans, fp, done));
    var w2 := Act(w1, Turn(p, 0));
    Rounds1(w1, p, 0, [0, 0, 0]);
    if w.env.planned {
      assert p in w2.procs && w2.procs[p].phase == Reprinting(plans, fp, done, w.env.plans);
      var w3 := Act(w2, Turn(p, 0));
      Rounds1(w2, p, 0, [0, 0]);
      if Print(w.env.plans, w.env) == fp {
        assert p in w3.procs && w3.procs[p].phase == Seeking(plans, fp, done, fp);
        MachineWrites(w3, p);
      } else {
        GoneStaysGone(w3, p, [0, 0]);
      }
    } else {
      GoneStaysGone(w2, p, [0, 0, 0]);
    }
  }

  lemma MachineWrites(w: World, p: Pid)
    requires p in w.procs && w.procs[p].phase.Seeking?
    ensures
      var Seeking(plans, fp, done, again) := w.procs[p].phase;
      var w' := Rounds(w, p, [0, 0]);
      && p !in w'.procs && w'.executions == w.executions
      && (if MarkersFound(plans, w.env.markers)
          then w'.record == Some(fp) && w'.runs == w.runs + [RunLog(plans, fp, done, again, w.env.markers)]
          else w'.record == w.record && w'.runs == w.runs)
  {
    var w1 := Act(w, Turn(p, 0));
    Rounds1(w, p, 0, [0]);
    Rounds1(w1, p, 0, []);
  }

  /**
    The locked part of a run that nothing disturbs, as steps of the machine, does what the program's
    method below does: the record is back exactly when every command exits 0 and the second look
    confirms, and the write rests on all of them.
   */
  lemma LockedRunOfTheMachine(w: World, p: Pid, exits: seq<int>)
    requires p in w.procs && w.procs[p].phase.Removing? && |exits| == |Sort(w.procs[p].phase.plans)|
    ensures
      var Removing(plans, fp) := w.procs[p].phase;
      var (done, ok) := Perform(Sort(plans), exits, []);
      var w' := Rounds(w, p, [0] + (exits + [0, 0, 0, 0, 0]));
      && p !in w'.procs && w'.executions == w.executions + |done| + (if ok then 0 else 1)
      && (if ok && Confirmed(plans, fp, w.env)
          then w'.record == Some(fp) && w'.runs == w.runs + [RunLog(plans, fp, done, fp, w.env.markers)]
          else w'.record == None && w'.runs == w.runs)
  {
    var Removing(plans, fp) := w.procs[p].phase;
    var w1 := Act(w, Turn(p, 0));
    Rounds1(w, p, 0, exits + [0, 0, 0, 0, 0]);
    assert w1.procs[p].phase == Executing(plans, fp, Sort(plans), []);
    RoundsJoin(w1, p, exits, [0, 0, 0, 0, 0]);
    MachinePerforms(w1, p, Sort(plans), [], exits);
    var w2 := Rounds(w1, p, exits);
    if p in w2.procs {
      MachineConfirms(w2, p);
    } else {
      GoneStaysGone(w2, p, [0, 0, 0, 0, 0]);
    }
  }

  // ---------------------------------------------------------------------------------
  // A run that nothing disturbs
  // ---------------------------------------------------------------------------------

  /** The executions that succeed are exactly the commands before the first one that fails. */
  lemma {:induction false} PerformExactly(todo: seq<Plan>, exits: seq<int>, done: seq<Execution>, k: nat)
    requires |exits| == |todo| && k <= |todo|
    requires forall i | 0 <= i < k && todo[i].argv != [] :: exits[i] == 0
    requires k < |todo| ==> todo[k].argv != [] && exits[k] != 0
    ensures
      var (all, ok) := Perform(todo, exits, done);
      (ok <==> k == |todo|) && PlansOf(all) == PlansOf(done) + Commands(todo[..k])
    decreases |todo|
  {
    if k == 0 {
      assert todo[..0] == [] && PlansOf(done) + [] == PlansOf(done);
    } else {
      var done1 := if todo[0].argv == [] then done else done + [Execution(todo[0], exits[0])];
      PerformExactly(todo[1..], exits[1..], done1, k - 1);
      assert todo[..k][1..] == todo[1..][..k - 1] && todo[..k][0] == todo[0];
      if todo[0].argv == [] {
        assert Commands(todo[..k]) == Commands(todo[1..][..k - 1]);
      } else {
        DoneExtends(done, todo[..k], exits[0]);
      }
    }
  }

  const FIVE: seq<int> := [0, 0, 0, 0, 0]

  /** What a status check reports, on what the process can read now. */
  predicate Fresh(w: World) {
    && w.record == Some(Fingerprint(Sort(w.env.plans), w.env.material))
    && (forall p | p in w.env.plans :: p.markers <= w.env.markers)
    && (forall p | p in w.env.plans && p.argv != [] :: p.argv[0] in w.env.tools)
  }

  lemma FreshIsAHit(w: World)
    ensures Fresh(w) <==> w.record == Some(Print(w.env.plans, w.env)) && MarkersFound(w.env.plans, w.env.markers)
                          && ToolsFound(w.env.plans, w.env.tools)
  {
    assert forall i | 0 <= i < |w.env.plans| :: w.env.plans[i] in w.env.plans;
  }

  lemma RoundsFive(w: World, w1: World, w2: World, w3: World, w4: World, w5: World, p: Pid)
    requires Act(w, Turn(p, 0)) == w1 && Act(w1, Turn(p, 0)) == w2 && Act(w2, Turn(p, 0)) == w3
    requires Act(w3, Turn(p, 0)) == w4 && Act(w4, Turn(p, 0)) == w5
    ensures Rounds(w, p, FIVE) == w5
  {
    assert FIVE == [0] + [0, 0, 0, 0];
    Rounds1(w, p, 0, [0, 0, 0, 0]);
    Rounds1(w1, p, 0, [0, 0, 0]);
    Rounds1(w2, p, 0, [0, 0]);
    Rounds1(w3, p, 0, [0]);
    Rounds1(w4, p, 0, []);
  }

  lemma ToTwice(w: World, p: Pid, a: Phase, b: Phase)
    requires p in w.procs
    ensures To(To(w, p, a), p, b) == To(w, p, b)
  {
    assert To(w, p, a).procs[p := w.procs[p].(phase := b)] == w.procs[p := w.procs[p].(phase := b)];
  }

  /** The reads of a status check. */
  lemma LookReads(w: World, p: Pid, locked: bool, same: bool)
    requires p in w.procs && w.procs[p].phase == Begin(locked) && w.env.planned && w.env.approved
    requires same == (w.record == Some(Print(w.env.plans, w.env)))
    ensures
      var plans, fp := w.env.plans, Print(w.env.plans, w.env);
      var w1, w2 := To(w, p, Planned(locked, plans)), To(w, p, Printed(locked, plans, fp));
      var w3 := To(w, p, Compared(locked, plans, fp, same, |w.runs|, Quiet(w2)));
      && Act(w, Turn(p, 0)) == w1 && Act(w1, Turn(p, 0)) == w2 && Act(w2, Turn(p, 0)) == w3
      && Act(w3, Turn(p, 0)) == To(w, p, Marked(locked, plans, fp, same && MarkersFound(plans, w.env.markers), |w.runs|,
                                                Quiet(w2), w.env.markers))
  {
    var plans, fp := w.env.plans, Print(w.env.plans, w.env);
    var printed := Printed(locked, plans, fp);
    var quiet := Quiet(To(w, p, printed));
    var compared := Compared(locked, plans, fp, same, |w.runs|, quiet);
    ToTwice(w, p, Planned(locked, plans), printed);
    ToTwice(w, p, printed, compared);
    ToTwice(w, p, compared, Marked(locked, plans, fp, same && MarkersFound(plans, w.env.markers), |w.runs|, quiet,
                                   w.env.markers));
  }

  /** What a run does after a status check: nothing more if its plans are missing or not approved, or if
      it found everything ready and is not forced; otherwise it goes for the lock, or on to the removal. */
  lemma LookDecides(w: World, p: Pid)
    requires p in w.procs && w.procs[p].phase.Begin?
    ensures
      var locked, after := w.procs[p].phase.locked, Rounds(w, p, FIVE);
      && after.record == w.record && after.env == w.env && after.runs == w.runs && after.executions == w.executions
      && (if !w.env.planned || !w.env.approved || (Fresh(w) && !w.procs[p].force)
          then after.procs == w.procs - {p} && after.holder == (if w.holder == Some(p) then None else w.holder)
          else
            && after.holder == w.holder
            && after.procs == w.procs[p := w.procs[p].(
                 phase := if locked then Removing(w.env.plans, Print(w.env.plans, w.env)) else Queued)])
  {
    var locked, force := w.procs[p].phase.locked, w.procs[p].force;
    FreshIsAHit(w);
    if !w.env.planned || !w.env.approved {
      var gone := Leave(w, p);
      RoundsFive(w, gone, gone, gone, gone, gone, p);
    } else {
      var plans, fp, same := w.env.plans, Print(w.env.plans, w.env), w.record == Some(Print(w.env.plans, w.env));
      var w1 := To(w, p, Planned(locked, plans));
      var w2 := To(w, p, Printed(locked, plans, fp));
      var w3 := To(w, p, Compared(locked, plans, fp, same, |w.runs|, Quiet(w2)));
      var w4 := To(w, p, Marked(locked, plans, fp, same && MarkersFound(plans, w.env.markers), |w.runs|, Quiet(w2),
                                w.env.markers));
      LookReads(w, p, locked, same);
      RoundsFive(w, w1, w2, w3, w4, Act(w4, Turn(p, 0)), p);
      LookEnds(w, p, locked, plans, fp, same && MarkersFound(plans, w.env.markers), Quiet(w2));
    }
  }

  lemma LookEnds(w: World, p: Pid, locked: bool, plans: seq<Plan>, fp: Fingerprint, same: bool, quiet: bool)
    requires p in w.procs
    ensures
      var marked := To(w, p, Marked(locked, plans, fp, same, |w.runs|, quiet, w.env.markers));
      var after := Act(marked, Turn(p, 0));
      && after.record == w.record && after.env == w.env && after.runs == w.runs && after.executions == w.executions
      && (if same && ToolsFound(plans, w.env.tools) && !w.procs[p].force
          then after.procs == w.procs - {p} && after.holder == (if w.holder == Some(p) then None else w.holder)
          else after.holder == w.holder && after.procs == w.procs[p := w.procs[p].(
                 phase := if locked then Removing(plans, fp) else Queued)])
  {
    var marked := To(w, p, Marked(locked, plans, fp, same, |w.runs|, quiet, w.env.markers));
    assert marked.procs - {p} == w.procs - {p};
  }

  lemma TakesTheLock(w: World, p: Pid, rest: seq<int>)
    requires p in w.procs && w.procs[p].phase.Queued? && w.holder.None?
    ensures Rounds(w, p, [0] + rest) == Rounds(To(w, p, Begin(true)).(holder := Some(p)), p, rest)
  {
    assert Act(w, Turn(p, 0)) == To(w, p, Begin(true)).(holder := Some(p));
    Rounds1(w, p, 0, rest);
  }

  /** The turns of a run after it has got the lock. */
  function LockedTurns(exits: seq<int>): seq<int> {
    FIVE + ([0] + (exits + FIVE))
  }

  predicate AllSucceed(plans: seq<Plan>, exits: seq<int>)
    requires |exits| == |plans|
  {
    forall i | 0 <= i < |plans| && plans[i].argv != [] :: exits[i] == 0
  }

  lemma RunUnderTheLock(w: World, p: Pid, exits: seq<int>)
    requires p in w.procs && w.procs[p].phase == Begin(true) && |exits| == |Sort(w.env.plans)|
    requires w.env.planned && w.env.approved && (Fresh(w) ==> w.procs[p].force)
    ensures
      var after := Rounds(w, p, LockedTurns(exits));
      && p !in after.procs
      && after.executions == w.executions + |Perform(Sort(w.env.plans), exits, []).0|
                             + (if AllSucceed(Sort(w.env.plans), exits) then 0 else 1)
      && after.record == (if AllSucceed(Sort(w.env.plans), exits) && MarkersFound(w.env.plans, w.env.markers)
                          then Some(Print(w.env.plans, w.env)) else None)
  {
    LookDecides(w, p);
    RoundsJoin(w, p, FIVE, [0] + (exits + FIVE));
    LockedRunOfTheMachine(Rounds(w, p, FIVE), p, exits);
    PerformStopsAtTheFirstFailure(Sort(w.env.plans), exits, []);
  }

  /**
    A run that nothing disturbs: it does nothing if the plans are missing or not approved, or if the
    record, the markers and the tools are all as they should be and it is not forced. Otherwise it
    executes the plans in order, and a record is left exactly if all commands succeed and all markers
    are there: one of what it has just executed.
   */
  lemma UndisturbedRun(w: World, p: Pid, exits: seq<int>)
    requires p in w.procs && w.procs[p].phase == Begin(false) && w.holder.None? && |exits| == |Sort(w.env.plans)|
    ensures
      var after := Rounds(w, p, FIVE + ([0] + LockedTurns(exits)));
      && p !in after.procs
      && (if !w.env.planned || !w.env.approved || (Fresh(w) && !w.procs[p].force)
          then after.record == w.record && after.executions == w.executions
          else
            && after.executions == w.executions + |Perform(Sort(w.env.plans), exits, []).0|
                                   + (if AllSucceed(Sort(w.env.plans), exits) then 0 else 1)
            && after.record == (if AllSucceed(Sort(w.env.plans), exits) && MarkersFound(w.env.plans, w.env.markers)
                                then Some(Print(w.env.plans, w.env)) else None))
  {
    LookDecides(w, p);
    RoundsJoin(w, p, FIVE, [0] + LockedTurns(exits));
    var looked := Rounds(w, p, FIVE);
    if p in looked.procs {
      TakesTheLock(looked, p, LockedTurns(exits));
      RunUnderTheLock(To(looked, p, Begin(true)).(holder := Some(p)), p, exits);
    } else {
      GoneStaysGone(looked, p, [0] + LockedTurns(exits));
    }
  }

  /** As long as nothing is approved, no run executes anything or leaves a record, whatever happens. */
  lemma {:induction false} UnapprovedRunsExecuteNothing(env: Env, actions: seq<Action>)
    requires !env.approved && forall a | a in actions && a.Change? :: !a.env.approved
    ensures Acts(Initial(env), actions).executions == 0 && Acts(Initial(env), actions).record == None
  {
    NothingStarts(Initial(env), actions);
  }

  ghost predicate NothingStarted(w: World) {
    && !w.env.approved && w.executions == 0 && w.record == None
    && forall p | p in w.procs :: w.procs[p].phase.Begin?
  }

  lemma {:induction false} NothingStarts(w: World, actions: seq<Action>)
    requires NothingStarted(w) && forall a | a in actions && a.Change? :: !a.env.approved
    ensures NothingStarted(Acts(w, actions))
    decreases |actions|
  {
    if actions != [] {
      assert actions[0] in actions;
      NothingStarts(Act(w, actions[0]), actions[1..]);
    }
  }

  /** The record file of one worktree. */
  class SuccessRecord {
    var record: Option<Fingerprint>

    /** The part of `run_bootstrap` after its second status check: remove, execute, look again, write. */
    method Run(plans: seq<Plan>, fp: Fingerprint, exits: seq<int>, after: Option<Fingerprint>, found: set<string>)
      returns (done: seq<Execution>, ok: bool)
      requires |exits| == |Sort(plans)|
      modifies this
      ensures done == Perform(Sort(plans), exits, []).0
      ensures ok <==> (Perform(Sort(plans), exits, []).1 && after == Some(fp) && MarkersFound(plans, found))
      ensures record == if ok then Some(fp) else None
    {
      record := None;
      done := [];
      var todo := Sort(plans);
      for i := 0 to |todo|
        invariant record == None
        invariant Perform(todo[i..], exits[i..], done) == Perform(todo, exits, [])
      {
        assert todo[i..][1..] == todo[i + 1..] && exits[i..][1..] == exits[i + 1..];
        if todo[i].argv != [] {
          if exits[i] != 0 { return done, false; }
          done := done + [Execution(todo[i], exits[i])];
        }
      }
      if after != Some(fp) { return done, false; }
      for i := 0 to |plans|
        invariant forall j | 0 <= j < i :: plans[j].markers <= found
      {
        if !(plans[i].markers <= found) { return done, false; }
      }
      record := Some(fp);
      ok := true;
    }
  }
}
