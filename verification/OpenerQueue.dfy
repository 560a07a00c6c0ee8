/**
  The durable launch queue of `bin/workspace_harbor_opener_queue.py`.

  The file `launch-queue.json` is one `Queue` value (an absent file is `EmptyQueue`).
  Each section guarded by the queue's advisory lock is one atomic function from queue to
  queue: `PollLaunch` (one pass of the acquire loop) and `ReleaseLaunch`. A process identity
  (pid and start time) is one token; a section sees one snapshot of the dead processes.
 */
module OpenerQueue {
  import opened Wrappers

  /** `OwnerIdentity`: two records match when all three fields agree. */
  datatype Owner = Owner(request: string, process: Process)

  datatype Phase = Queued | Launching

  datatype Entry = Entry(owner: Owner, root: string, phase: Phase, sequence: int)

  datatype Queue = Queue(next: int, holder: Option<Entry>, waiting: seq<Entry>)

  const EmptyQueue := Queue(1, None, [])

  /** What a process probe can say; `Unclear` is every case in which the probe raises. */
  datatype Answer = Alive | Dead | Unclear

  datatype Probe = Probe(dead: set<Process>, unclear: set<Process>) {
    function Ask(p: Process): Answer {
      if p in unclear then Unclear else if p in dead then Dead else Alive
    }
  }

  datatype Verdict = Granted | Queueing | Refused

  /** Result of one pass: the queue written back, the verdict, and the position computed. */
  datatype Pass = Pass(queue: Queue, verdict: Verdict, position: nat)

  // ---------------------------------------------------------------------------------
  // The state on disk and its validator
  // ---------------------------------------------------------------------------------

  predicate CompleteOwner(o: Owner) {
    o.request != "" && o.process.pid > 0 && o.process.started != ""
  }

  predicate AbsoluteRoot(root: string) {
    root != "" && root[0] == '/'
  }

  /** The holder, then the waiters: the order in which the records are validated. */
  function Line(q: Queue): (line: seq<Entry>)
    ensures |line| == |q.waiting| + (if q.holder.Some? then 1 else 0)
  {
    (if q.holder.Some? then [q.holder.value] else []) + q.waiting
  }

  predicate AcceptableEntry(e: Entry) {
    CompleteOwner(e.owner) && e.sequence >= 1 && AbsoluteRoot(e.root)
  }

  /** Exactly the files that `_load_queue_state` lets through. */
  predicate Accepts(q: Queue) {
    && q.next >= 1
    && (forall i | 0 <= i < |Line(q)| :: AcceptableEntry(Line(q)[i]))
    && (forall i, j | 0 <= i < j < |Line(q)| :: Line(q)[i].sequence != Line(q)[j].sequence)
    && (forall i, j | 0 <= i < j < |q.waiting| :: q.waiting[i].sequence <= q.waiting[j].sequence)
  }

  /** The validator as written: one scan collecting sequence numbers, then the order test. */
  method Validate(q: Queue) returns (ok: bool)
    ensures ok <==> Accepts(q)
  {
    if q.next < 1 { return false; }
    var records := Line(q);
    var seen: set<int> := {};
    for k := 0 to |records|
      invariant forall i | 0 <= i < k :: AcceptableEntry(records[i])
      invariant forall n :: n in seen <==> exists i | 0 <= i < k :: records[i].sequence == n
      invariant forall i, j | 0 <= i < j < k :: records[i].sequence != records[j].sequence
    {
      if !AcceptableEntry(records[k]) || records[k].sequence in seen { return false; }
      seen := seen + {records[k].sequence};
    }
    for k := 0 to |q.waiting|
      invariant forall i, j | 0 <= i < j < k :: q.waiting[i].sequence <= q.waiting[j].sequence
    {
      if k > 0 && q.waiting[k - 1].sequence > q.waiting[k].sequence { return false; }
    }
    ok := true;
  }

  // ---------------------------------------------------------------------------------
  // The locked sections
  // ---------------------------------------------------------------------------------

  predicate Clear(line: seq<Entry>, probe: Probe) {
    forall e | e in line :: probe.Ask(e.owner.process) != Unclear
  }

  /** The records of `line` whose process the probe answers alive, in order. */
  function Survivors(line: seq<Entry>, probe: Probe): (kept: seq<Entry>)
    ensures |kept| <= |line|
  {
    if line == [] then []
    else if probe.Ask(line[0].owner.process) == Alive then [line[0]] + Survivors(line[1..], probe)
    else Survivors(line[1..], probe)
  }

  function Prune(q: Queue, probe: Probe): Queue {
    Queue(q.next,
          if q.holder.Some? && probe.Ask(q.holder.value.owner.process) == Alive then q.holder else None,
          Survivors(q.waiting, probe))
  }

  /** Index of the first record of `o`, or the length of `line` when there is none. */
  function IndexOf(line: seq<Entry>, o: Owner): (k: nat)
    ensures k <= |line|
    ensures k < |line| ==> line[k].owner == o
    ensures forall i | 0 <= i < k :: line[i].owner != o
  {
    if line == [] || line[0].owner == o then 0 else 1 + IndexOf(line[1..], o)
  }

  /** The queue after `o` has been appended with a new ticket, unless it already waits. */
  function Enroll(q: Queue, root: string, o: Owner): Queue {
    if IndexOf(q.waiting, o) < |q.waiting| then q
    else Queue(q.next + 1, q.holder, q.waiting + [Entry(o, root, Queued, q.next)])
  }

  /** What a pass does once the dead have been dropped. */
  function Decide(q: Queue, root: string, o: Owner): Pass {
    if q.holder.Some? && q.holder.value.owner == o then Pass(q, Granted, 1)
    else
      var at := IndexOf(q.waiting, o);
      if at < |q.waiting| && q.waiting[at].root != root then Pass(q, Refused, 0)
      else
        var joined := Enroll(q, root, o);
        var position := (if q.holder.Some? then 1 else 0) + at + 1;
        if position == 1
        then Pass(TakeLaunch(joined), Granted, 1)
        else Pass(joined, Queueing, position)
  }

  /** The head of the waiting records becomes the holder. */
  function TakeLaunch(q: Queue): Queue {
    if q.waiting == [] then q
    else Queue(q.next, Some(q.waiting[0].(phase := Launching)), q.waiting[1..])
  }

  /** One pass of `acquire_launch` under the lock. A refused pass writes nothing. */
  function PollLaunch(q: Queue, root: string, o: Owner, probe: Probe): Pass {
    if !Accepts(q) || !Clear(Line(q), probe) then Pass(q, Refused, 0)
    else
      var pass := Decide(Prune(q, probe), root, o);
      if pass.verdict == Refused then Pass(q, Refused, 0) else pass
  }

  function Without(line: seq<Entry>, o: Owner): (kept: seq<Entry>)
    ensures |kept| <= |line|
  {
    if line == [] then []
    else if line[0].owner == o then Without(line[1..], o)
    else [line[0]] + Without(line[1..], o)
  }

  /** `release_launch`: give up the launch and every waiting record of `o`. */
  function ReleaseLaunch(q: Queue, o: Owner): Queue {
    if !Accepts(q) then q
    else Queue(q.next,
               if q.holder.Some? && q.holder.value.owner == o then None else q.holder,
               Without(q.waiting, o))
  }

  // ---------------------------------------------------------------------------------
  // The invariant of every file the sections write
  // ---------------------------------------------------------------------------------

  ghost predicate Increasing(line: seq<Entry>) {
    forall i, j | 0 <= i < j < |line| :: line[i].sequence < line[j].sequence
  }

  ghost predicate DistinctOwners(line: seq<Entry>) {
    forall i, j | 0 <= i < j < |line| :: line[i].owner != line[j].owner
  }

  ghost predicate GoodLine(line: seq<Entry>, next: int) {
    && (forall e | e in line :: AcceptableEntry(e) && e.sequence < next)
    && Increasing(line)
    && DistinctOwners(line)
  }

  /** The holder's sequence is below all waiting ones, these increase strictly and stay below
      `next`, nobody appears twice, and only the holder is launching. */
  ghost predicate QueueInv(q: Queue) {
    && q.next >= 1
    && GoodLine(Line(q), q.next)
    && (q.holder.Some? ==> q.holder.value.phase == Launching)
    && (forall e | e in q.waiting :: e.phase == Queued)
  }

  /** The validator never rejects a file that satisfies the invariant. */
  lemma WrittenQueuesAreAccepted(q: Queue)
    requires QueueInv(q)
    ensures Accepts(q)
  {
    var h := |Line(q)| - |q.waiting|;
    forall i, j | 0 <= i < j < |q.waiting| ensures q.waiting[i].sequence <= q.waiting[j].sequence {
      assert Line(q)[h + i] == q.waiting[i] && Line(q)[h + j] == q.waiting[j];
    }
  }

  lemma {:induction false} SurvivorsMembers(line: seq<Entry>, probe: Probe)
    ensures forall e :: e in Survivors(line, probe) <==> e in line && probe.Ask(e.owner.process) == Alive
  {
    if line != [] {
      SurvivorsMembers(line[1..], probe);
      assert line == [line[0]] + line[1..];
    }
  }

  lemma {:induction false} WithoutMembers(line: seq<Entry>, o: Owner)
    ensures forall e :: e in Without(line, o) <==> e in line && e.owner != o
  {
    if line != [] {
      WithoutMembers(line[1..], o);
      assert line == [line[0]] + line[1..];
    }
  }

  /** Prepending a record that precedes all others. */
  lemma ConsOrder(e: Entry, rest: seq<Entry>)
    requires Increasing(rest) && forall f | f in rest :: e.sequence < f.sequence
    ensures Increasing([e] + rest)
  {
  }

  lemma ConsDistinct(e: Entry, rest: seq<Entry>)
    requires DistinctOwners(rest) && forall f | f in rest :: e.owner != f.owner
    ensures DistinctOwners([e] + rest)
  {
  }

  lemma {:induction false} SurvivorsKeepOrder(line: seq<Entry>, probe: Probe)
    requires Increasing(line) && DistinctOwners(line)
    ensures Increasing(Survivors(line, probe)) && DistinctOwners(Survivors(line, probe))
  {
    if line != [] {
      SurvivorsKeepOrder(line[1..], probe);
      SurvivorsMembers(line[1..], probe);
      if probe.Ask(line[0].owner.process) == Alive {
        ConsOrder(line[0], Survivors(line[1..], probe));
        ConsDistinct(line[0], Survivors(line[1..], probe));
      }
    }
  }

  lemma {:induction false} WithoutKeepsOrder(line: seq<Entry>, o: Owner)
    requires Increasing(line) && DistinctOwners(line)
    ensures Increasing(Without(line, o)) && DistinctOwners(Without(line, o))
  {
    if line != [] {
      WithoutKeepsOrder(line[1..], o);
      WithoutMembers(line[1..], o);
      if line[0].owner != o {
        ConsOrder(line[0], Without(line[1..], o));
        ConsDistinct(line[0], Without(line[1..], o));
      }
    }
  }

  lemma {:induction false} PruneLine(q: Queue, probe: Probe)
    ensures Line(Prune(q, probe)) == Survivors(Line(q), probe)
  {
    if q.holder.Some? {
      assert Line(q)[0] == q.holder.value && Line(q)[1..] == q.waiting;
    } else {
      assert Line(q) == q.waiting;
    }
  }

  lemma WithoutFirst(first: Entry, rest: seq<Entry>, o: Owner)
    ensures Without([first] + rest, o) == if first.owner == o then Without(rest, o) else [first] + Without(rest, o)
  {
    assert ([first] + rest)[1..] == rest;
  }

  lemma WithoutBoth(next: int, holder: Option<Entry>, waiting: seq<Entry>, o: Owner)
    ensures Line(Queue(next, if holder.Some? && holder.value.owner == o then None else holder, Without(waiting, o)))
      == Without(Line(Queue(next, holder, waiting)), o)
  {
    if holder.Some? {
      assert Line(Queue(next, holder, waiting)) == [holder.value] + waiting;
      WithoutFirst(holder.value, waiting, o);
    } else {
      assert Line(Queue(next, holder, waiting)) == waiting;
    }
  }

  lemma WithoutLine(q: Queue, o: Owner)
    requires Accepts(q)
    ensures Line(ReleaseLaunch(q, o)) == Without(Line(q), o)
  {
    WithoutBoth(q.next, q.holder, q.waiting, o);
  }

  lemma PruneKeepsInvariant(q: Queue, probe: Probe)
    requires QueueInv(q)
    ensures QueueInv(Prune(q, probe))
    ensures forall e :: e in Line(Prune(q, probe)) <==> e in Line(q) && probe.Ask(e.owner.process) == Alive
  {
    PruneLine(q, probe);
    SurvivorsMembers(Line(q), probe);
    SurvivorsMembers(q.waiting, probe);
    SurvivorsKeepOrder(Line(q), probe);
  }

  lemma AppendKeepsGoodLine(line: seq<Entry>, next: int, e: Entry)
    requires GoodLine(line, next) && AcceptableEntry(e) && e.sequence == next
    requires forall f | f in line :: f.owner != e.owner
    ensures GoodLine(line + [e], next + 1)
  {
  }

  lemma MarkingKeepsOrder(line: seq<Entry>, first: Entry)
    requires line != [] && first.owner == line[0].owner && first.sequence == line[0].sequence
    requires Increasing(line) && DistinctOwners(line)
    ensures Increasing([first] + line[1..]) && DistinctOwners([first] + line[1..])
  {
    var marked := [first] + line[1..];
    assert forall i | 0 <= i < |line| :: marked[i].owner == line[i].owner && marked[i].sequence == line[i].sequence;
  }

  lemma LaunchingKeepsGoodLine(line: seq<Entry>, next: int)
    requires GoodLine(line, next) && line != []
    ensures GoodLine([line[0].(phase := Launching)] + line[1..], next)
  {
    var marked := [line[0].(phase := Launching)] + line[1..];
    MarkingKeepsOrder(line, marked[0]);
    assert line[0] in line;
    forall e | e in marked ensures AcceptableEntry(e) && e.sequence < next {
      if e != marked[0] {
        assert e in line[1..];
      }
    }
  }

  /** Where an enrolled caller waits: at its old place, or at the end. */
  lemma EnrollIndex(q: Queue, root: string, o: Owner)
    ensures var joined := Enroll(q, root, o);
            IndexOf(joined.waiting, o) == IndexOf(q.waiting, o) < |joined.waiting|
  {
    var at := IndexOf(q.waiting, o);
    var waiting := Enroll(q, root, o).waiting;
    assert at == |q.waiting| ==> waiting[at].owner == o;
    assert forall i | 0 <= i < at :: waiting[i] == q.waiting[i];
  }

  lemma EnrollKeepsInvariant(q: Queue, root: string, o: Owner)
    requires QueueInv(q) && CompleteOwner(o) && AbsoluteRoot(root)
    requires q.holder.Some? ==> q.holder.value.owner != o
    ensures QueueInv(Enroll(q, root, o))
  {
    var at := IndexOf(q.waiting, o);
    if at == |q.waiting| {
      var e := Entry(o, root, Queued, q.next);
      assert Line(Enroll(q, root, o)) == Line(q) + [e];
      AppendKeepsGoodLine(Line(q), q.next, e);
    }
  }

  lemma GrantKeepsInvariant(q: Queue)
    requires QueueInv(q) && q.holder.None? && q.waiting != []
    ensures QueueInv(TakeLaunch(q))
  {
    assert Line(q) == q.waiting;
    LaunchingKeepsGoodLine(q.waiting, q.next);
  }

  lemma DecideKeepsInvariant(q: Queue, root: string, o: Owner)
    requires QueueInv(q) && CompleteOwner(o) && AbsoluteRoot(root)
    ensures QueueInv(Decide(q, root, o).queue)
  {
    if !(q.holder.Some? && q.holder.value.owner == o) {
      EnrollKeepsInvariant(q, root, o);
      EnrollIndex(q, root, o);
      var joined := Enroll(q, root, o);
      if joined.holder.None? {
        GrantKeepsInvariant(joined);
      }
    }
  }

  /** Every pass of the acquire loop keeps the invariant, also when the caller is already dead. */
  lemma PollKeepsInvariant(q: Queue, root: string, o: Owner, probe: Probe)
    requires QueueInv(q) && CompleteOwner(o) && AbsoluteRoot(root)
    ensures QueueInv(PollLaunch(q, root, o, probe).queue)
  {
    PruneKeepsInvariant(q, probe);
    DecideKeepsInvariant(Prune(q, probe), root, o);
  }

  lemma ReleaseKeepsInvariant(q: Queue, o: Owner)
    requires QueueInv(q)
    ensures QueueInv(ReleaseLaunch(q, o))
    ensures forall e :: e in Line(ReleaseLaunch(q, o)) <==> e in Line(q) && e.owner != o
  {
    WrittenQueuesAreAccepted(q);
    WithoutLine(q, o);
    WithoutMembers(Line(q), o);
    WithoutMembers(q.waiting, o);
    WithoutKeepsOrder(Line(q), o);
  }

  // ---------------------------------------------------------------------------------
  // Refinement: the file implements an ideal first-in first-out line of tickets
  // ---------------------------------------------------------------------------------

  datatype Ticket = Ticket(owner: Owner, root: string, number: int)

  function TicketOf(e: Entry): Ticket {
    Ticket(e.owner, e.root, e.sequence)
  }

  function Tickets(line: seq<Entry>): seq<Ticket> {
    seq(|line|, i requires 0 <= i < |line| => TicketOf(line[i]))
  }

  function Living(tickets: seq<Ticket>, probe: Probe): seq<Ticket> {
    if tickets == [] then []
    else if probe.Ask(tickets[0].owner.process) == Alive then [tickets[0]] + Living(tickets[1..], probe)
    else Living(tickets[1..], probe)
  }

  function Removing(tickets: seq<Ticket>, o: Owner): seq<Ticket> {
    if tickets == [] then []
    else if tickets[0].owner == o then Removing(tickets[1..], o)
    else [tickets[0]] + Removing(tickets[1..], o)
  }

  predicate Stands(tickets: seq<Ticket>, o: Owner) {
    exists i | 0 <= i < |tickets| :: tickets[i].owner == o
  }

  /** Append if absent. */
  function JoinTail(tickets: seq<Ticket>, t: Ticket): seq<Ticket> {
    if Stands(tickets, t.owner) then tickets else tickets + [t]
  }

  lemma {:induction false} LivingTickets(line: seq<Entry>, probe: Probe)
    ensures Tickets(Survivors(line, probe)) == Living(Tickets(line), probe)
  {
    if line != [] {
      LivingTickets(line[1..], probe);
      assert Tickets(line)[1..] == Tickets(line[1..]);
      if probe.Ask(line[0].owner.process) == Alive {
        assert ([line[0]] + Survivors(line[1..], probe))[1..] == Survivors(line[1..], probe);
      }
    }
  }

  lemma {:induction false} RemovingTickets(line: seq<Entry>, o: Owner)
    ensures Tickets(Without(line, o)) == Removing(Tickets(line), o)
  {
    if line != [] {
      RemovingTickets(line[1..], o);
      assert Tickets(line)[1..] == Tickets(line[1..]);
      if line[0].owner != o {
        assert ([line[0]] + Without(line[1..], o))[1..] == Without(line[1..], o);
      }
    }
  }

  /** Enrolling is "append if absent" on the ideal line, and puts the caller at this place. */
  lemma EnrollTickets(q: Queue, root: string, o: Owner)
    requires q.holder.Some? ==> q.holder.value.owner != o
    ensures
      var joined := Enroll(q, root, o);
      var place := (if q.holder.Some? then 1 else 0) + IndexOf(q.waiting, o);
      && Tickets(Line(joined)) == JoinTail(Tickets(Line(q)), Ticket(o, root, q.next))
      && place < |Line(joined)| && Tickets(Line(joined))[place].owner == o
      && forall i | 0 <= i < place :: Tickets(Line(joined))[i].owner != o
  {
    var at := IndexOf(q.waiting, o);
    var h := if q.holder.Some? then 1 else 0;
    var before := Tickets(Line(q));
    assert forall i | h <= i < |Line(q)| :: Line(q)[i] == q.waiting[i - h];
    if at < |q.waiting| {
      assert before[h + at].owner == o;
    } else {
      var e := Entry(o, root, Queued, q.next);
      assert Line(Enroll(q, root, o)) == Line(q) + [e];
      assert Tickets(Line(q) + [e]) == before + [Ticket(o, root, q.next)];
      assert !Stands(before, o);
    }
  }

  /** Taking the launch is invisible on the ideal line. */
  lemma GrantTickets(q: Queue)
    requires q.holder.None? && q.waiting != []
    ensures Tickets(Line(TakeLaunch(q))) == Tickets(Line(q))
  {
  }

  /** The pass of a caller who already holds the launch. */
  lemma HolderTickets(q: Queue, t: Ticket)
    requires q.holder.Some? && q.holder.value.owner == t.owner
    ensures Tickets(Line(q))[0].owner == t.owner
    ensures JoinTail(Tickets(Line(q)), t) == Tickets(Line(q))
  {
  }

  /** `place` is where `o` stands in `tickets`, and holding the launch means standing first. */
  ghost predicate Placed(pass: Pass, o: Owner) {
    var tickets := Tickets(Line(pass.queue));
    && 1 <= pass.position <= |tickets|
    && tickets[pass.position - 1].owner == o
    && (pass.verdict == Granted <==> tickets[0].owner == o)
    && (pass.verdict == Granted <==> pass.position == 1)
    && (pass.verdict == Granted <==> pass.queue.holder.Some? && pass.queue.holder.value.owner == o)
  }

  lemma DecideRefinesFifo(q: Queue, root: string, o: Owner)
    requires Decide(q, root, o).verdict != Refused
    ensures
      var pass := Decide(q, root, o);
      && Tickets(Line(pass.queue)) == JoinTail(Tickets(Line(q)), Ticket(o, root, q.next))
      && Placed(pass, o)
  {
    var t := Ticket(o, root, q.next);
    if q.holder.Some? && q.holder.value.owner == o {
      HolderTickets(q, t);
    } else {
      EnrollTickets(q, root, o);
      EnrollIndex(q, root, o);
      if q.holder.None? && IndexOf(q.waiting, o) == 0 {
        GrantTickets(Enroll(q, root, o));
      }
    }
  }

  /**
    A pass that is not refused acts on the ideal line as "drop the dead, append me if absent";
    taking the launch is a stutter. The pass is granted exactly when the caller then heads the
    line, and the position it computes is the caller's place in it.
   */
  lemma PollRefinesFifo(q: Queue, root: string, o: Owner, probe: Probe)
    requires PollLaunch(q, root, o, probe).verdict != Refused
    ensures
      var pass := PollLaunch(q, root, o, probe);
      && Tickets(Line(pass.queue)) == JoinTail(Living(Tickets(Line(q)), probe), Ticket(o, root, q.next))
      && Placed(pass, o)
  {
    PruneLine(q, probe);
    LivingTickets(Line(q), probe);
    DecideRefinesFifo(Prune(q, probe), root, o);
  }

  /** Releasing acts on the ideal line as "remove mine". */
  lemma ReleaseRefinesFifo(q: Queue, o: Owner)
    requires QueueInv(q)
    ensures Tickets(Line(ReleaseLaunch(q, o))) == Removing(Tickets(Line(q)), o)
  {
    WrittenQueuesAreAccepted(q);
    WithoutLine(q, o);
    RemovingTickets(Line(q), o);
  }

  // ---------------------------------------------------------------------------------
  // What a pass decides, in terms of the probed processes
  // ---------------------------------------------------------------------------------

  /** What the invariant asks for beyond the validator: owners are distinct, the holder's ticket is
      below those of the waiters, all are below the counter, and only the holder is launching. */
  lemma InvariantBeyondTheValidator(q: Queue)
    ensures QueueInv(q) <==>
              && Accepts(q) && DistinctOwners(Line(q)) && (forall e | e in Line(q) :: e.sequence < q.next)
              && (q.holder.Some? ==> forall e | e in q.waiting :: q.holder.value.sequence < e.sequence)
              && (q.holder.Some? ==> q.holder.value.phase == Launching)
              && (forall e | e in q.waiting :: e.phase == Queued)
  {
    var h := |Line(q)| - |q.waiting|;
    assert forall i | 0 <= i < |q.waiting| :: Line(q)[h + i] == q.waiting[i];
    if QueueInv(q) {
      WrittenQueuesAreAccepted(q);
      forall e | q.holder.Some? && e in q.waiting ensures q.holder.value.sequence < e.sequence {
        var i :| 0 <= i < |q.waiting| && q.waiting[i] == e;
        assert Line(q)[0] == q.holder.value && Line(q)[h + i] == e;
      }
    }
  }

  lemma NobodyUnclear(q: Queue, probe: Probe)
    ensures Clear(Line(q), probe) <==> forall e | e in Line(q) :: e.owner.process !in probe.unclear
  {
  }

  /** Two records of one owner are the same. */
  lemma OneRecordEach(q: Queue, e: Entry, f: Entry)
    requires QueueInv(q) && e in Line(q) && f in Line(q) && e.owner == f.owner
    ensures e == f
  {
  }

  /** A living waiting record of the caller is the one that a pass finds. */
  lemma OwnRecordIsFound(q: Queue, o: Owner, probe: Probe, e: Entry)
    requires QueueInv(q) && e in q.waiting && e.owner == o && probe.Ask(o.process) == Alive
    ensures
      var waiting := Prune(q, probe).waiting;
      IndexOf(waiting, o) < |waiting| && waiting[IndexOf(waiting, o)] == e
    ensures !(Prune(q, probe).holder.Some? && Prune(q, probe).holder.value.owner == o)
  {
    var waiting := Prune(q, probe).waiting;
    SurvivorsMembers(q.waiting, probe);
    assert e in waiting && e in Line(q);
    var found := waiting[IndexOf(waiting, o)];
    assert found in waiting;
    OneRecordEach(q, e, found);
  }

  /** After pruning, a pass is refused only for a waiting record of the caller with another root. */
  lemma DecideRefuses(q: Queue, root: string, o: Owner, probe: Probe)
    requires QueueInv(q)
    ensures Decide(Prune(q, probe), root, o).verdict == Refused <==>
              exists e :: e in q.waiting && e.owner == o && e.root != root && probe.Ask(o.process) == Alive
  {
    if e :| e in q.waiting && e.owner == o && e.root != root && probe.Ask(o.process) == Alive {
      OwnRecordIsFound(q, o, probe, e);
    }
    if Decide(Prune(q, probe), root, o).verdict == Refused {
      var waiting := Prune(q, probe).waiting;
      SurvivorsMembers(q.waiting, probe);
      assert waiting[IndexOf(waiting, o)] in waiting;
    }
  }

  /**
    A pass is refused exactly when the process of some record cannot be probed, or the caller already
    waits for another root; it then writes nothing. A dead record never makes it fail.
   */
  lemma PassIsRefusedExactly(q: Queue, root: string, o: Owner, probe: Probe)
    requires QueueInv(q)
    ensures
      var pass := PollLaunch(q, root, o, probe);
      && (pass.verdict == Refused <==>
            || (exists e :: e in Line(q) && e.owner.process in probe.unclear)
            || (exists e :: e in q.waiting && e.owner == o && e.root != root && o.process !in probe.dead))
      && (pass.verdict == Refused ==> pass.queue == q && pass.position == 0)
  {
    WrittenQueuesAreAccepted(q);
    NobodyUnclear(q, probe);
    DecideRefuses(q, root, o, probe);
    assert forall e | e in q.waiting :: e in Line(q);
  }

  lemma {:induction false} LivingHolds(tickets: seq<Ticket>, probe: Probe, t: Ticket)
    ensures t in Living(tickets, probe) <==>
              t in tickets && t.owner.process !in probe.dead && t.owner.process !in probe.unclear
  {
    if tickets != [] {
      LivingHolds(tickets[1..], probe, t);
      assert tickets == [tickets[0]] + tickets[1..];
    }
  }

  lemma TicketsHold(line: seq<Entry>, t: Ticket)
    ensures t in Tickets(line) <==> exists e :: e in line && Ticket(e.owner, e.root, e.sequence) == t
  {
    if t in Tickets(line) {
      var i :| 0 <= i < |line| && Tickets(line)[i] == t;
      assert line[i] in line;
    }
    if e :| e in line && Ticket(e.owner, e.root, e.sequence) == t {
      var i :| 0 <= i < |line| && line[i] == e;
      assert Tickets(line)[i] == t;
    }
  }

  /** The caller stands in the line with a living process. */
  ghost predicate StandsAlive(q: Queue, o: Owner, probe: Probe) {
    o.process !in probe.dead && exists e :: e in Line(q) && e.owner == o
  }

  lemma StandsAmongTheLiving(q: Queue, o: Owner, probe: Probe)
    requires forall e | e in Line(q) :: e.owner.process !in probe.unclear
    ensures Stands(Living(Tickets(Line(q)), probe), o) <==> StandsAlive(q, o, probe)
  {
    var tickets := Living(Tickets(Line(q)), probe);
    if Stands(tickets, o) {
      var i :| 0 <= i < |tickets| && tickets[i].owner == o;
      LivingHolds(Tickets(Line(q)), probe, tickets[i]);
      TicketsHold(Line(q), tickets[i]);
    }
    if StandsAlive(q, o, probe) {
      var e :| e in Line(q) && e.owner == o;
      TicketsHold(Line(q), TicketOf(e));
      LivingHolds(Tickets(Line(q)), probe, TicketOf(e));
      var i :| 0 <= i < |tickets| && tickets[i] == TicketOf(e);
    }
  }

  lemma NotRefusedIsClear(q: Queue, root: string, o: Owner, probe: Probe)
    requires PollLaunch(q, root, o, probe).verdict != Refused
    ensures forall e | e in Line(q) :: e.owner.process !in probe.unclear
  {
  }

  /** After a pass that is not refused exactly the records of the living stand in the line, and the
      caller with the next ticket if it had none. */
  lemma PassLeavesTheLiving(q: Queue, root: string, o: Owner, probe: Probe, t: Ticket)
    requires QueueInv(q) && PollLaunch(q, root, o, probe).verdict != Refused
    ensures
      var after := PollLaunch(q, root, o, probe).queue;
      && (t in Tickets(Line(after)) <==>
            || (t.owner.process !in probe.dead && exists e :: e in Line(q) && Ticket(e.owner, e.root, e.sequence) == t)
            || (t == Ticket(o, root, q.next) && !StandsAlive(q, o, probe)))
      && after.next == q.next + (if StandsAlive(q, o, probe) then 0 else 1)
  {
    NotRefusedIsClear(q, root, o, probe);
    PollRefinesFifo(q, root, o, probe);
    StandsAmongTheLiving(q, o, probe);
    LivingHolds(Tickets(Line(q)), probe, t);
    TicketsHold(Line(q), t);
    NextTicket(q, root, o, probe);
  }

  lemma NoRecordIsFound(q: Queue, o: Owner, probe: Probe)
    requires !StandsAlive(q, o, probe)
    ensures IndexOf(Prune(q, probe).waiting, o) == |Prune(q, probe).waiting|
    ensures !(Prune(q, probe).holder.Some? && Prune(q, probe).holder.value.owner == o)
  {
    SurvivorsMembers(q.waiting, probe);
    var waiting := Prune(q, probe).waiting;
    assert forall e | e in waiting :: e in Line(q);
    assert q.holder.Some? ==> q.holder.value in Line(q);
  }

  lemma NextTicket(q: Queue, root: string, o: Owner, probe: Probe)
    requires QueueInv(q) && PollLaunch(q, root, o, probe).verdict != Refused
    ensures PollLaunch(q, root, o, probe).queue.next == q.next + (if StandsAlive(q, o, probe) then 0 else 1)
  {
    NotRefusedIsClear(q, root, o, probe);
    if StandsAlive(q, o, probe) {
      var e :| e in Line(q) && e.owner == o;
      if !(q.holder.Some? && q.holder.value == e) {
        OwnRecordIsFound(q, o, probe, e);
      }
    } else {
      NoRecordIsFound(q, o, probe);
    }
  }

  /** Releasing gives up the launch and every waiting record of the caller, and leaves the other
      records, the holder and the counter as they are. */
  lemma ReleaseLeavesTheOthers(q: Queue, o: Owner)
    requires QueueInv(q)
    ensures
      var after := ReleaseLaunch(q, o);
      && after.next == q.next
      && after.holder == (if q.holder.Some? && q.holder.value.owner == o then None else q.holder)
      && forall e :: e in after.waiting <==> e in q.waiting && e.owner != o
  {
    WrittenQueuesAreAccepted(q);
    WithoutMembers(q.waiting, o);
  }

  // ---------------------------------------------------------------------------------
  // The file as the coordinator updates it
  // ---------------------------------------------------------------------------------

  lemma SurvivorsStep(line: seq<Entry>, k: nat, probe: Probe)
    requires k < |line|
    ensures Survivors(line[k..], probe)
         == (if probe.Ask(line[k].owner.process) == Alive then [line[k]] else []) + Survivors(line[k + 1..], probe)
  {
  }

  lemma WithoutStep(line: seq<Entry>, k: nat, o: Owner)
    requires k < |line|
    ensures Without(line[k..], o) == (if line[k].owner != o then [line[k]] else []) + Without(line[k + 1..], o)
  {
    assert line[k..][1..] == line[k + 1..];
  }

  /** The pruning loop; a probe that raises abandons it. */
  method KeepLiving(line: seq<Entry>, probe: Probe) returns (kept: seq<Entry>, clear: bool)
    ensures clear <==> Clear(line, probe)
    ensures clear ==> kept == Survivors(line, probe)
  {
    kept, clear := [], false;
    for k := 0 to |line|
      invariant kept + Survivors(line[k..], probe) == Survivors(line, probe)
      invariant forall i | 0 <= i < k :: probe.Ask(line[i].owner.process) != Unclear
    {
      if probe.Ask(line[k].owner.process) == Unclear { return; }
      SurvivorsStep(line, k, probe);
      if probe.Ask(line[k].owner.process) == Alive { kept := kept + [line[k]]; }
    }
    clear := true;
  }

  /** `_prune_dead_queue_entries`. */
  method DropDead(q: Queue, probe: Probe) returns (kept: Queue, clear: bool)
    ensures clear <==> Clear(Line(q), probe)
    ensures clear ==> kept == Prune(q, probe)
  {
    var survivors;
    kept := q;
    survivors, clear := KeepLiving(Line(q), probe);
    if !clear { return; }
    if q.holder.Some? {
      assert Line(q)[0] == q.holder.value && Line(q)[1..] == q.waiting;
      if probe.Ask(q.holder.value.owner.process) == Alive {
        kept := q.(waiting := survivors[1..]);
      } else {
        kept := q.(holder := None, waiting := survivors);
      }
    } else {
      assert Line(q) == q.waiting;
      kept := q.(waiting := survivors);
    }
  }

  /** The rest of a pass: return at once, enroll, take the launch, or keep waiting. */
  method JoinOrTake(q: Queue, root: string, o: Owner) returns (state: Queue, verdict: Verdict, position: nat)
    ensures Pass(state, verdict, position) == Decide(q, root, o)
  {
    state := q;
    if q.holder.Some? && q.holder.value.owner == o { return q, Granted, 1; }
    var at := FindOwner(q.waiting, o);
    if at == |q.waiting| {
      state := Queue(q.next + 1, q.holder, q.waiting + [Entry(o, root, Queued, q.next)]);
    } else if q.waiting[at].root != root {
      return q, Refused, 0;
    }
    position := (if q.holder.Some? then 1 else 0) + at + 1;
    if state.holder.None? && at == 0 {
      state := Queue(state.next, Some(state.waiting[0].(phase := Launching)), state.waiting[1..]);
      verdict := Granted;
    } else {
      verdict := Queueing;
    }
  }

  method FindOwner(line: seq<Entry>, o: Owner) returns (at: nat)
    ensures at == IndexOf(line, o)
  {
    at := 0;
    while at < |line| && line[at].owner != o
      invariant 0 <= at <= |line|
      invariant forall i | 0 <= i < at :: line[i].owner != o
    {
      at := at + 1;
    }
  }

  method DropOwner(line: seq<Entry>, o: Owner) returns (kept: seq<Entry>)
    ensures kept == Without(line, o)
  {
    kept := [];
    for k := 0 to |line|
      invariant kept + Without(line[k..], o) == Without(line, o)
    {
      WithoutStep(line, k, o);
      if line[k].owner != o { kept := kept + [line[k]]; }
    }
  }

  /** `launch-queue.json` under its lock, rewritten section by section. */
  class LaunchQueueFile {
    var queue: Queue

    constructor ()
      ensures queue == EmptyQueue
    {
      queue := EmptyQueue;
    }

    /** One locked pass of `acquire_launch`. */
    method PassLaunch(root: string, o: Owner, probe: Probe) returns (verdict: Verdict, position: nat)
      modifies this
      ensures var pass := PollLaunch(old(queue), root, o, probe);
              queue == pass.queue && verdict == pass.verdict && position == pass.position
    {
      verdict, position := Refused, 0;
      var valid := Validate(queue);
      if !valid { return; }
      var state, clear := DropDead(queue, probe);
      if !clear { return; }
      state, verdict, position := JoinOrTake(state, root, o);
      if verdict != Refused { queue := state; }
    }

    /** `release_launch`; a malformed file makes it fail and stays as it is. */
    method Withdraw(o: Owner) returns (ok: bool)
      modifies this
      ensures queue == ReleaseLaunch(old(queue), o)
      ensures ok <==> Accepts(old(queue))
    {
      ok := Validate(queue);
      if !ok { return; }
      var state := queue;
      if state.holder.Some? && state.holder.value.owner == o { state := state.(holder := None); }
      var waiting := DropOwner(state.waiting, o);
      queue := state.(waiting := waiting);
    }
  }
}
