/**
  Runs of the launch queue: any number of clients passing, releasing and dying in any order.
  Safety, first-in first-out grants, bounded overtaking, and the acquire loop with the position
  it reports.
 */
module OpenerRuns {
  import opened Wrappers
  import opened OpenerQueue

  // ---------------------------------------------------------------------------------
  // Runs: any number of clients polling, releasing and dying in any order
  // ---------------------------------------------------------------------------------

  datatype Event =
    | Poll(root: string, caller: Owner, unclear: set<Process>)
    | Release(caller: Owner)
    | Die(process: Process)

  /** `believers` are the clients told "acquired" that have not released since; `grants` logs
      the sequence numbers in the order in which they took the launch. */
  datatype System = System(queue: Queue, dead: set<Process>, believers: set<Owner>, grants: seq<int>)

  const InitialSystem := System(EmptyQueue, {}, {}, [])

  predicate Enabled(e: Event) {
    e.Poll? ==> CompleteOwner(e.caller) && AbsoluteRoot(e.root)
  }

  /** One event. A caller may be dead: a killed script's coordinator child polls on. */
  function Next(s: System, e: Event): System {
    if !Enabled(e) then s
    else match e
      case Poll(root, o, unclear) =>
        var pass := PollLaunch(s.queue, root, o, Probe(s.dead, unclear));
        if pass.verdict != Granted then s.(queue := pass.queue)
        else System(pass.queue, s.dead, s.believers + {o},
                    if Took(s.queue, pass.queue) then s.grants + [pass.queue.holder.value.sequence] else s.grants)
      case Release(o) => s.(queue := ReleaseLaunch(s.queue, o), believers := s.believers - {o})
      case Die(p) => s.(dead := s.dead + {p})
  }

  /** The holder of `after` was not the holder of `before`. */
  predicate Took(before: Queue, after: Queue) {
    after.holder.Some? && (before.holder.None? || before.holder.value.sequence != after.holder.value.sequence)
  }

  function Run(s: System, events: seq<Event>): System
    decreases |events|
  {
    if events == [] then s else Run(Next(s, events[0]), events[1..])
  }

  ghost predicate Ascending(numbers: seq<int>) {
    forall i, j | 0 <= i < j < |numbers| :: numbers[i] < numbers[j]
  }

  /** Launches are granted in ticket order, and the last one granted is the holder's, if any. */
  ghost predicate GrantsInv(q: Queue, grants: seq<int>) {
    && Ascending(grants)
    && (forall n | n in grants :: n < q.next)
    && (forall n, e | n in grants && e in q.waiting :: n < e.sequence)
    && (q.holder.Some? ==> grants != [] && grants[|grants| - 1] == q.holder.value.sequence)
  }

  /** A live client that believes it holds the launch does hold it. */
  ghost predicate BeliefInv(s: System) {
    forall o | o in s.believers && o.process !in s.dead ::
      s.queue.holder.Some? && s.queue.holder.value.owner == o
  }

  ghost predicate SystemInv(s: System) {
    QueueInv(s.queue) && GrantsInv(s.queue, s.grants) && BeliefInv(s)
  }

  lemma PruneKeepsGrants(q: Queue, probe: Probe, grants: seq<int>)
    requires GrantsInv(q, grants)
    ensures GrantsInv(Prune(q, probe), grants)
  {
    SurvivorsMembers(q.waiting, probe);
  }

  lemma TakeKeepsGrants(q: Queue, grants: seq<int>)
    requires GrantsInv(q, grants) && q.holder.None? && q.waiting != []
    requires Increasing(q.waiting) && q.waiting[0].sequence < q.next
    ensures GrantsInv(TakeLaunch(q), grants + [q.waiting[0].sequence])
  {
    var n := q.waiting[0].sequence;
    forall e | e in q.waiting[1..] ensures n < e.sequence {
      var i :| 1 <= i < |q.waiting| && q.waiting[i] == e;
    }
    assert q.waiting[0] in q.waiting;
    assert forall i | 0 <= i < |grants| :: grants[i] in grants;
  }

  lemma FirstInLine(q: Queue, root: string, o: Owner)
    requires QueueInv(q) && CompleteOwner(o) && AbsoluteRoot(root) && q.holder.None?
    ensures
      var joined := Enroll(q, root, o);
      joined.waiting != [] ==> Increasing(joined.waiting) && joined.waiting[0].sequence < joined.next
  {
    EnrollKeepsInvariant(q, root, o);
    var joined := Enroll(q, root, o);
    assert Line(joined) == joined.waiting;
    if joined.waiting != [] {
      assert joined.waiting[0] in Line(joined);
    }
  }

  lemma DecideKeepsGrants(q: Queue, root: string, o: Owner, grants: seq<int>)
    requires QueueInv(q) && GrantsInv(q, grants) && CompleteOwner(o) && AbsoluteRoot(root)
    ensures
      var after := Decide(q, root, o).queue;
      GrantsInv(after, if q.holder.None? && after.holder.Some? then grants + [after.holder.value.sequence] else grants)
  {
    if !(q.holder.Some? && q.holder.value.owner == o) {
      var joined := Enroll(q, root, o);
      if joined.holder.None? && joined.waiting != [] {
        FirstInLine(q, root, o);
        TakeKeepsGrants(joined, grants);
      }
    }
  }

  lemma {:induction false} PollKeepsGrants(s: System, root: string, o: Owner, unclear: set<Process>)
    requires QueueInv(s.queue) && GrantsInv(s.queue, s.grants) && CompleteOwner(o) && AbsoluteRoot(root)
    ensures var s' := Next(s, Poll(root, o, unclear)); GrantsInv(s'.queue, s'.grants)
  {
    var probe := Probe(s.dead, unclear);
    var pruned := Prune(s.queue, probe);
    var pass := PollLaunch(s.queue, root, o, probe);
    if pass.verdict != Refused {
      PruneKeepsInvariant(s.queue, probe);
      PruneKeepsGrants(s.queue, probe, s.grants);
      DecideKeepsGrants(pruned, root, o, s.grants);
      if pruned.holder.None? && pass.queue.holder.Some? {
        var longer := s.grants + [pass.queue.holder.value.sequence];
        assert s.queue.holder.Some? ==> longer[|s.grants| - 1] < longer[|s.grants|];
      }
    }
  }

  lemma PollKeepsBelief(s: System, root: string, o: Owner, unclear: set<Process>)
    requires BeliefInv(s)
    ensures BeliefInv(Next(s, Poll(root, o, unclear)))
  {
  }

  /** Every event keeps the invariant of the queue, of the grant log and of the clients' beliefs. */
  lemma {:induction false} NextKeepsSystemInv(s: System, e: Event)
    requires SystemInv(s)
    ensures SystemInv(Next(s, e))
  {
    match e
    case Poll(root, o, unclear) =>
      if Enabled(e) {
        PollKeepsInvariant(s.queue, root, o, Probe(s.dead, unclear));
        PollKeepsGrants(s, root, o, unclear);
        PollKeepsBelief(s, root, o, unclear);
      }
    case Release(o) => ReleaseKeepsInvariant(s.queue, o);
    case Die(_) =>
  }

  lemma {:induction false} RunKeepsSystemInv(s: System, events: seq<Event>)
    requires SystemInv(s)
    ensures SystemInv(Run(s, events))
    decreases |events|
  {
    if events != [] {
      NextKeepsSystemInv(s, events[0]);
      RunKeepsSystemInv(Next(s, events[0]), events[1..]);
    }
  }

  /**
    Safety over whole runs, under any interleaving of passes, releases and deaths from an absent
    file: the validator accepts every file, sequences increase along the line below `next`, nobody
    is listed twice, launches are granted in ticket order, and two live clients never both believe
    that they hold the launch.
   */
  lemma {:induction false} EveryRunIsSafe(events: seq<Event>)
    ensures
      var s := Run(InitialSystem, events);
      && Accepts(s.queue)
      && GoodLine(Line(s.queue), s.queue.next)
      && Ascending(s.grants)
      && (forall a, b | a in s.believers && b in s.believers && a.process !in s.dead && b.process !in s.dead :: a == b)
  {
    assert SystemInv(InitialSystem);
    RunKeepsSystemInv(InitialSystem, events);
    WrittenQueuesAreAccepted(Run(InitialSystem, events).queue);
  }

  // ---------------------------------------------------------------------------------
  // Bounded overtaking
  // ---------------------------------------------------------------------------------

  function Below(numbers: seq<int>, n: int): nat {
    if numbers == [] then 0 else (if numbers[0] < n then 1 else 0) + Below(numbers[1..], n)
  }

  function WaitingBelow(line: seq<Entry>, n: int): nat {
    if line == [] then 0 else (if line[0].sequence < n then 1 else 0) + WaitingBelow(line[1..], n)
  }

  lemma {:induction false} BelowAppend(numbers: seq<int>, m: int, n: int)
    ensures Below(numbers + [m], n) == Below(numbers, n) + (if m < n then 1 else 0)
  {
    if numbers != [] {
      assert (numbers + [m])[1..] == numbers[1..] + [m];
      BelowAppend(numbers[1..], m, n);
    }
  }

  lemma {:induction false} WaitingBelowAppend(line: seq<Entry>, e: Entry, n: int)
    ensures WaitingBelow(line + [e], n) == WaitingBelow(line, n) + (if e.sequence < n then 1 else 0)
  {
    if line != [] {
      assert (line + [e])[1..] == line[1..] + [e];
      WaitingBelowAppend(line[1..], e, n);
    } else {
      assert line + [e] == [e];
    }
  }

  lemma {:induction false} SurvivorsBelow(line: seq<Entry>, probe: Probe, n: int)
    ensures WaitingBelow(Survivors(line, probe), n) <= WaitingBelow(line, n)
  {
    if line != [] {
      SurvivorsBelow(line[1..], probe, n);
    }
  }

  lemma {:induction false} WithoutBelow(line: seq<Entry>, o: Owner, n: int)
    ensures WaitingBelow(Without(line, o), n) <= WaitingBelow(line, n)
  {
    if line != [] {
      WithoutBelow(line[1..], o, n);
    }
  }

  /** A waiter with `i` records in front of it has exactly `i` waiting sequences below its own. */
  lemma {:induction false} AheadIsBelow(line: seq<Entry>, i: nat)
    requires Increasing(line) && i < |line|
    ensures WaitingBelow(line, line[i].sequence) == i
  {
    var n := line[i].sequence;
    if i > 0 {
      AheadIsBelow(line[1..], i - 1);
    } else {
      NothingBelow(line, n);
    }
  }

  lemma {:induction false} NothingBelow(line: seq<Entry>, n: int)
    requires forall e | e in line :: n <= e.sequence
    ensures WaitingBelow(line, n) == 0
  {
    if line != [] {
      assert line[0] in line;
      NothingBelow(line[1..], n);
    }
  }

  lemma {:induction false} DecidePaysForGrants(q: Queue, root: string, o: Owner, n: int)
    requires n <= q.next
    ensures
      var after := Decide(q, root, o).queue;
      WaitingBelow(after.waiting, n)
        + (if q.holder.None? && after.holder.Some? && after.holder.value.sequence < n then 1 else 0)
        <= WaitingBelow(q.waiting, n)
      && q.next <= after.next
  {
    WaitingBelowAppend(q.waiting, Entry(o, root, Queued, q.next), n);
  }

  /** One event: every launch granted below `n` uses up a waiting record below `n`. */
  lemma {:induction false} NextPaysForGrants(s: System, e: Event, n: int)
    requires SystemInv(s) && n <= s.queue.next
    ensures
      var s' := Next(s, e);
      && n <= s'.queue.next
      && s.grants <= s'.grants
      && Below(s'.grants, n) + WaitingBelow(s'.queue.waiting, n)
           <= Below(s.grants, n) + WaitingBelow(s.queue.waiting, n)
  {
    match e
    case Poll(root, o, unclear) =>
      var probe := Probe(s.dead, unclear);
      SurvivorsBelow(s.queue.waiting, probe, n);
      DecidePaysForGrants(Prune(s.queue, probe), root, o, n);
      var pass := PollLaunch(s.queue, root, o, probe);
      if pass.queue.holder.Some? {
        BelowAppend(s.grants, pass.queue.holder.value.sequence, n);
      }
    case Release(o) => WithoutBelow(s.queue.waiting, o, n);
    case Die(_) =>
  }

  lemma {:induction false} RunPaysForGrants(s: System, events: seq<Event>, n: int)
    requires SystemInv(s) && n <= s.queue.next
    ensures
      var s' := Run(s, events);
      && s.grants <= s'.grants
      && Below(s'.grants, n) + WaitingBelow(s'.queue.waiting, n)
           <= Below(s.grants, n) + WaitingBelow(s.queue.waiting, n)
    decreases |events|
  {
    if events != [] {
      NextKeepsSystemInv(s, events[0]);
      NextPaysForGrants(s, events[0], n);
      RunPaysForGrants(Next(s, events[0]), events[1..], n);
    }
  }

  lemma {:induction false} FirstGrantsBelow(numbers: seq<int>, k: nat, n: int)
    requires k <= |numbers| && forall i | 0 <= i < k :: numbers[i] < n
    ensures k <= Below(numbers, n) <= |numbers|
  {
    if numbers != [] {
      FirstGrantsBelow(numbers[1..], if k == 0 then 0 else k - 1, n);
    }
  }

  lemma WaitingFacts(q: Queue)
    requires QueueInv(q)
    ensures Increasing(q.waiting)
    ensures forall e | e in q.waiting :: e.sequence < q.next
  {
    var h := |Line(q)| - |q.waiting|;
    forall i, j | 0 <= i < j < |q.waiting| ensures q.waiting[i].sequence < q.waiting[j].sequence {
      assert Line(q)[h + i] == q.waiting[i] && Line(q)[h + j] == q.waiting[j];
    }
  }

  lemma {:induction false} OvertakingFrom(s: System, i: nat, events: seq<Event>, k: nat)
    requires SystemInv(s) && i < |s.queue.waiting|
    requires |s.grants| <= k < |Run(s, events).grants|
    requires Run(s, events).grants[k] <= s.queue.waiting[i].sequence
    ensures s.grants <= Run(s, events).grants && k - |s.grants| <= i
  {
    var n := s.queue.waiting[i].sequence;
    var grants := Run(s, events).grants;
    WaitingFacts(s.queue);
    assert s.queue.waiting[i] in s.queue.waiting;
    AheadIsBelow(s.queue.waiting, i);
    RunPaysForGrants(s, events, n);
    RunKeepsSystemInv(s, events);
    FirstGrantsBelow(grants, k, n);
    FirstGrantsBelow(s.grants, 0, n);
  }

  /**
    Bounded overtaking: take any reachable state in which a client waits with `i` records in front
    of it, and any continuation. If the launch is granted to its ticket (or to any smaller one)
    at all, it is after at most `i` further grants.
   */
  lemma {:induction false} GrantsAheadAreBounded(before: seq<Event>, i: nat, events: seq<Event>, k: nat)
    requires i < |Run(InitialSystem, before).queue.waiting|
    requires
      var s := Run(InitialSystem, before);
      |s.grants| <= k < |Run(s, events).grants| && Run(s, events).grants[k] <= s.queue.waiting[i].sequence
    ensures k - |Run(InitialSystem, before).grants| <= i
  {
    assert SystemInv(InitialSystem);
    RunKeepsSystemInv(InitialSystem, before);
    OvertakingFrom(Run(InitialSystem, before), i, events, k);
  }

  // ---------------------------------------------------------------------------------
  // A waiter's position, and the acquire loop that reports its maximum
  // ---------------------------------------------------------------------------------

  predicate Listed(q: Queue, o: Owner) {
    IndexOf(Line(q), o) < |Line(q)|
  }

  /** The events that may take a record of `o` out of the line. */
  predicate Spares(e: Event, o: Owner) {
    (e.Release? ==> e.caller != o) && (e.Die? ==> e.process != o.process)
  }

  lemma {:induction false} SurvivorsIndex(line: seq<Entry>, probe: Probe, o: Owner)
    requires IndexOf(line, o) < |line| && probe.Ask(o.process) == Alive
    ensures IndexOf(Survivors(line, probe), o) <= IndexOf(line, o)
    ensures IndexOf(Survivors(line, probe), o) < |Survivors(line, probe)|
  {
    if line[0].owner != o {
      SurvivorsIndex(line[1..], probe, o);
    }
  }

  lemma {:induction false} WithoutIndex(line: seq<Entry>, p: Owner, o: Owner)
    requires IndexOf(line, o) < |line| && p != o
    ensures IndexOf(Without(line, p), o) <= IndexOf(line, o)
    ensures IndexOf(Without(line, p), o) < |Without(line, p)|
  {
    if line[0].owner != o {
      WithoutIndex(line[1..], p, o);
    }
  }

  lemma DecideIndex(q: Queue, root: string, p: Owner, o: Owner)
    requires Listed(q, o)
    ensures Listed(Decide(q, root, p).queue, o)
    ensures IndexOf(Line(Decide(q, root, p).queue), o) <= IndexOf(Line(q), o)
  {
    var k := IndexOf(Line(q), o);
    var after := Decide(q, root, p).queue;
    assert Line(after)[k].owner == Line(q)[k].owner;
  }

  lemma PollKeepsPosition(s: System, root: string, p: Owner, unclear: set<Process>, o: Owner)
    requires QueueInv(s.queue) && Listed(s.queue, o) && o.process !in s.dead
    requires Clear(Line(s.queue), Probe(s.dead, unclear))
    ensures
      var q' := Decide(Prune(s.queue, Probe(s.dead, unclear)), root, p).queue;
      Listed(q', o) && IndexOf(Line(q'), o) <= IndexOf(Line(s.queue), o)
  {
    var probe := Probe(s.dead, unclear);
    assert Line(s.queue)[IndexOf(Line(s.queue), o)] in Line(s.queue);
    PruneLine(s.queue, probe);
    SurvivorsIndex(Line(s.queue), probe, o);
    DecideIndex(Prune(s.queue, probe), root, p, o);
  }

  /** A live client that does not release never loses its place, and never moves back. */
  lemma PositionNeverGrows(s: System, e: Event, o: Owner)
    requires QueueInv(s.queue) && Listed(s.queue, o) && o.process !in s.dead && Spares(e, o)
    ensures var q' := Next(s, e).queue;
            Listed(q', o) && IndexOf(Line(q'), o) <= IndexOf(Line(s.queue), o)
  {
    match e
    case Poll(root, p, unclear) =>
      var probe := Probe(s.dead, unclear);
      if Enabled(e) && Clear(Line(s.queue), probe) {
        PollKeepsPosition(s, root, p, unclear, o);
      }
    case Release(p) =>
      WrittenQueuesAreAccepted(s.queue);
      WithoutLine(s.queue, p);
      WithoutIndex(Line(s.queue), p, o);
    case Die(_) =>
  }

  lemma {:induction false} PositionNeverGrowsInRun(s: System, events: seq<Event>, o: Owner)
    requires SystemInv(s) && Listed(s.queue, o) && o.process !in s.dead
    requires forall e | e in events :: Spares(e, o)
    ensures var s' := Run(s, events);
            && o.process !in s'.dead && Listed(s'.queue, o)
            && IndexOf(Line(s'.queue), o) <= IndexOf(Line(s.queue), o)
    decreases |events|
  {
    if events != [] {
      assert events[0] in events;
      PositionNeverGrows(s, events[0], o);
      NextKeepsSystemInv(s, events[0]);
      PositionNeverGrowsInRun(Next(s, events[0]), events[1..], o);
    }
  }

  lemma PollLeavesDistinctOwners(q: Queue, root: string, o: Owner, probe: Probe)
    requires QueueInv(q) && CompleteOwner(o) && AbsoluteRoot(root)
    ensures DistinctOwners(Line(PollLaunch(q, root, o, probe).queue))
  {
    PollKeepsInvariant(q, root, o, probe);
  }

  /** The position a pass reports is the caller's index in the line it leaves, plus one. */
  lemma PassPosition(q: Queue, root: string, o: Owner, probe: Probe)
    requires QueueInv(q) && CompleteOwner(o) && AbsoluteRoot(root)
    requires PollLaunch(q, root, o, probe).verdict != Refused
    ensures
      var pass := PollLaunch(q, root, o, probe);
      Listed(pass.queue, o) && pass.position == IndexOf(Line(pass.queue), o) + 1
  {
    PollRefinesFifo(q, root, o, probe);
    PollLeavesDistinctOwners(q, root, o, probe);
  }

  /** What happens in one turn of the loop: the caller's own probe, and everyone else's events
      until the next turn. */
  datatype Turn = Turn(unclear: set<Process>, others: seq<Event>)

  /** Nobody releases the caller's records, and its process lives through the call. */
  predicate Undisturbed(s: System, o: Owner, turns: seq<Turn>) {
    o.process !in s.dead && forall k | 0 <= k < |turns| :: AllSpare(turns[k].others, o)
  }

  predicate AllSpare(events: seq<Event>, o: Owner) {
    forall e | e in events :: Spares(e, o)
  }

  /** How a call ends: the system, the verdict of its last pass, and the maximum position it reports. */
  datatype Outcome = Outcome(after: System, verdict: Verdict, maximum: nat)

  function PassIn(s: System, root: string, o: Owner, t: Turn): Pass {
    PollLaunch(s.queue, root, o, Probe(s.dead, t.unclear))
  }

  function Higher(a: nat, b: nat): nat {
    if a > b then a else b
  }

  /**
    `acquire_launch`: pass, stop when granted or refused, otherwise let the others act and pass
    again. The deadline is the end of `turns`, after which the caller still waits.
   */
  function Acquire(s: System, root: string, o: Owner, turns: seq<Turn>, maximum: nat): Outcome
    decreases |turns|
  {
    if turns == [] then Outcome(s, Queueing, maximum)
    else
      var pass := PassIn(s, root, o, turns[0]);
      var passed := Next(s, Poll(root, o, turns[0].unclear));
      match pass.verdict
      case Refused => Outcome(passed, Refused, maximum)
      case Granted => Outcome(passed, Granted, Higher(pass.position, maximum))
      case Queueing => Acquire(Run(passed, turns[0].others), root, o, turns[1..], Higher(pass.position, maximum))
  }

  /** One turn: a caller whose pass is granted or refused stops at once, so that nobody has acted since;
      otherwise the others act. A granted caller holds the launch, a refused one has written nothing. */
  lemma OneTurn(s: System, root: string, o: Owner, t: Turn, maximum: nat)
    requires SystemInv(s) && CompleteOwner(o) && AbsoluteRoot(root)
    ensures
      var pass, r := PollLaunch(s.queue, root, o, Probe(s.dead, t.unclear)), Acquire(s, root, o, [t], maximum);
      && r.verdict == pass.verdict
      && r.maximum == (if pass.verdict != Refused && pass.position > maximum then pass.position else maximum)
      && (r.verdict == Granted ==>
            r.after.queue == pass.queue && r.after.queue.holder.Some? && r.after.queue.holder.value.owner == o
            && r.after.believers == s.believers + {o})
      && (r.verdict == Refused ==> r.after == s)
      && (r.verdict == Queueing ==> r.after == Run(s.(queue := pass.queue), t.others))
  {
    assert [t][1..] == [];
    if PollLaunch(s.queue, root, o, Probe(s.dead, t.unclear)).verdict == Refused {
      PassIsRefusedExactly(s.queue, root, o, Probe(s.dead, t.unclear));
    } else {
      PollRefinesFifo(s.queue, root, o, Probe(s.dead, t.unclear));
    }
  }

  /** A call goes on exactly as long as it waits, with the highest position so far. */
  lemma {:induction false} AcquireJoin(s: System, root: string, o: Owner, a: seq<Turn>, b: seq<Turn>, maximum: nat)
    ensures
      var first := Acquire(s, root, o, a, maximum);
      Acquire(s, root, o, a + b, maximum)
        == if first.verdict == Queueing then Acquire(first.after, root, o, b, first.maximum) else first
    decreases |a|
  {
    if a == [] {
      assert a + b == b;
    } else {
      assert (a + b)[0] == a[0] && (a + b)[1..] == a[1..] + b;
      var pass := PassIn(s, root, o, a[0]);
      if pass.verdict == Queueing {
        var next := Run(Next(s, Poll(root, o, a[0].unclear)), a[0].others);
        AcquireJoin(next, root, o, a[1..], b, Higher(pass.position, maximum));
      }
    }
  }

  /** What a caller that still waits knows: it is listed, no further back than its first position. */
  ghost predicate Holding(s: System, o: Owner, first: nat) {
    o.process !in s.dead && Listed(s.queue, o) && IndexOf(Line(s.queue), o) < first
  }

  /** A pass of a listed caller reports at most its first position. */
  lemma LaterPass(s: System, root: string, o: Owner, unclear: set<Process>, first: nat)
    requires SystemInv(s) && CompleteOwner(o) && AbsoluteRoot(root) && Holding(s, o, first)
    ensures
      var pass := PollLaunch(s.queue, root, o, Probe(s.dead, unclear));
      pass.verdict != Refused ==> pass.position <= first && Holding(Next(s, Poll(root, o, unclear)), o, first)
  {
    if PollLaunch(s.queue, root, o, Probe(s.dead, unclear)).verdict != Refused {
      PassPosition(s.queue, root, o, Probe(s.dead, unclear));
      PositionNeverGrows(s, Poll(root, o, unclear), o);
    }
  }

  lemma FirstPass(s: System, root: string, o: Owner, unclear: set<Process>)
    requires SystemInv(s) && CompleteOwner(o) && AbsoluteRoot(root) && o.process !in s.dead
    ensures
      var pass := PollLaunch(s.queue, root, o, Probe(s.dead, unclear));
      pass.verdict != Refused ==> pass.position >= 1 && Holding(Next(s, Poll(root, o, unclear)), o, pass.position)
  {
    if PollLaunch(s.queue, root, o, Probe(s.dead, unclear)).verdict != Refused {
      PassPosition(s.queue, root, o, Probe(s.dead, unclear));
    }
  }

  lemma OthersKeepHolding(s: System, o: Owner, others: seq<Event>, first: nat)
    requires SystemInv(s) && Holding(s, o, first) && forall e | e in others :: Spares(e, o)
    ensures Holding(Run(s, others), o, first)
  {
    PositionNeverGrowsInRun(s, others, o);
  }

  lemma {:induction false} AcquireKeepsInv(s: System, root: string, o: Owner, turns: seq<Turn>, maximum: nat)
    requires SystemInv(s) && CompleteOwner(o) && AbsoluteRoot(root)
    ensures SystemInv(Acquire(s, root, o, turns, maximum).after)
    decreases |turns|
  {
    if turns != [] {
      var pass := PassIn(s, root, o, turns[0]);
      var passed := Next(s, Poll(root, o, turns[0].unclear));
      NextKeepsSystemInv(s, Poll(root, o, turns[0].unclear));
      if pass.verdict == Queueing {
        RunKeepsSystemInv(passed, turns[0].others);
        AcquireKeepsInv(Run(passed, turns[0].others), root, o, turns[1..], Higher(pass.position, maximum));
      }
    }
  }

  /** A caller that is listed no further back than `first`, the maximum so far, reports just that. */
  lemma {:induction false} LaterTurns(s: System, root: string, o: Owner, turns: seq<Turn>, first: nat)
    requires SystemInv(s) && CompleteOwner(o) && AbsoluteRoot(root)
    requires Undisturbed(s, o, turns) && Holding(s, o, first)
    ensures
      var r := Acquire(s, root, o, turns, first);
      r.verdict != Refused ==> r.maximum == first && Listed(r.after.queue, o)
    decreases |turns|
  {
    if turns != [] && PassIn(s, root, o, turns[0]).verdict != Refused {
      LaterPass(s, root, o, turns[0].unclear, first);
      TurnsGoOn(s, root, o, turns, first);
    }
  }

  /** After a first or later pass that leaves the caller holding `first`. */
  lemma {:induction false} TurnsGoOn(s: System, root: string, o: Owner, turns: seq<Turn>, first: nat)
    requires SystemInv(s) && CompleteOwner(o) && AbsoluteRoot(root) && turns != [] && Undisturbed(s, o, turns)
    requires PassIn(s, root, o, turns[0]).verdict != Refused && PassIn(s, root, o, turns[0]).position <= first
    requires Holding(Next(s, Poll(root, o, turns[0].unclear)), o, first)
    ensures
      var r := Acquire(s, root, o, turns, first);
      r.verdict != Refused ==> r.maximum == first && Listed(r.after.queue, o)
    decreases |turns|, 0
  {
    var passed := Next(s, Poll(root, o, turns[0].unclear));
    if PassIn(s, root, o, turns[0]).verdict == Queueing {
      assert AllSpare(turns[0].others, o);
      NextKeepsSystemInv(s, Poll(root, o, turns[0].unclear));
      OthersKeepHolding(passed, o, turns[0].others, first);
      RunKeepsSystemInv(passed, turns[0].others);
      assert forall k | 0 <= k < |turns[1..]| :: turns[1..][k] == turns[k + 1];
      LaterTurns(Run(passed, turns[0].others), root, o, turns[1..], first);
    }
  }

  /**
    The maximum position that a call reports is the position of its first pass, and a caller that
    nobody disturbs is listed when the call ends, also after its deadline.
   */
  lemma AcquireReportsTheFirstPosition(s: System, root: string, o: Owner, turns: seq<Turn>)
    requires SystemInv(s) && CompleteOwner(o) && AbsoluteRoot(root)
    requires turns != [] && Undisturbed(s, o, turns) && Acquire(s, root, o, turns, 1).verdict != Refused
    ensures
      var r := Acquire(s, root, o, turns, 1);
      r.maximum == PassIn(s, root, o, turns[0]).position && Listed(r.after.queue, o)
  {
    var first := PassIn(s, root, o, turns[0]).position;
    FirstPass(s, root, o, turns[0].unclear);
    TurnsGoOn(s, root, o, turns, first);
  }

  /** The loop of `acquire_launch`. */
  method AcquireLaunch(s: System, root: string, o: Owner, turns: seq<Turn>)
    returns (after: System, verdict: Verdict, maximum: nat)
    ensures Outcome(after, verdict, maximum) == Acquire(s, root, o, turns, 1)
  {
    after, maximum, verdict := s, 1, Queueing;
    for k := 0 to |turns|
      invariant verdict == Queueing
      invariant Acquire(after, root, o, turns[k..], maximum) == Acquire(s, root, o, turns, 1)
    {
      assert turns[k..][0] == turns[k] && turns[k..][1..] == turns[k + 1..];
      var pass := PassIn(after, root, o, turns[k]);
      after := Next(after, Poll(root, o, turns[k].unclear));
      if pass.verdict == Refused { return after, Refused, maximum; }
      if pass.position > maximum { maximum := pass.position; }
      if pass.verdict == Granted { return after, Granted, maximum; }
      after := Run(after, turns[k].others);
    }
  }
}
