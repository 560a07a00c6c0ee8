/**
  The close request of `LifecycleHttpServer.java`: concurrent requests for one project root are
  coalesced through a concurrent map from roots to futures. Every map operation, future
  operation and adapter call is one step of one request's thread; threads interleave freely.
  A request creates exactly one future, so the request number names the future as well.
 */
module CloseEndpoint {
  import opened Wrappers

  type Request = nat
  type Root = string

  /** What an adapter call can do; `Throws` is a RuntimeException. */
  datatype Answer = Yes | No | Throws

  datatype Reply = NotFound | Unsafe | Accepted | Protected

  datatype Stage =
    | Claiming                                  // before putIfAbsent
    | Seen(existing: Request)                   // an attempt exists; before openProjects
    | Weighing(existing: Request, open: bool)   // before isDone
    | Asking(existing: Request)                 // it is done and the root is open; before freshDecision
    | Evicting(existing: Request)               // before the conditional remove of the old attempt
    | Joining(existing: Request)                // waiting in join
    | Checking                                  // own attempt: before openProjects
    | Judging                                   // own attempt: before freshDecision
    | Closing                                   // own attempt: inside adapter.close
    | Retiring(reply: Reply)                    // own attempt completed; before its conditional remove
    | Replying                                  // own attempt accepted; before the reply is written
    | Joined(existing: Request, reply: Reply)   // answered with the value of another attempt
    | Answered(reply: Reply)

  datatype Thread = Thread(root: Root, ownedRecovery: bool, stage: Stage)

  /** `claims` is closingRoots; `results` holds the completed futures. */
  datatype Endpoint = Endpoint(claims: map<Root, Request>, results: map<Request, bool>, threads: map<Request, Thread>)

  const Idle := Endpoint(map[], map[], map[])

  datatype Event =
    | Request(r: Request, root: Root, ownedRecovery: bool)
    | Turn(r: Request, answer: Answer)

  function ResultReply(accepted: bool): Reply {
    if accepted then Accepted else Protected
  }

  /** Completing a future that is already complete changes nothing. */
  function Complete(results: map<Request, bool>, r: Request, value: bool): map<Request, bool> {
    if r in results then results else results[r := value]
  }

  /** Removes the mapping only if the root is still mapped to this attempt. */
  function RemoveIf(claims: map<Root, Request>, root: Root, r: Request): map<Root, Request> {
    if root in claims && claims[root] == r then claims - {root} else claims
  }

  function To(s: Endpoint, r: Request, stage: Stage): Endpoint
    requires r in s.threads
  {
    s.(threads := s.threads[r := s.threads[r].(stage := stage)])
  }

  function Retire(s: Endpoint, r: Request, reply: Reply): Endpoint
    requires r in s.threads
  {
    To(s.(results := Complete(s.results, r, false)), r, Retiring(reply))
  }

  /** The next step of the thread of request `r`, given what the adapter answers if it is asked. */
  function Advance(s: Endpoint, r: Request, answer: Answer): Endpoint
    requires r in s.threads
  {
    var root := s.threads[r].root;
    match s.threads[r].stage
    case Claiming =>
      if root in s.claims then To(s, r, Seen(s.claims[root]))
      else To(s.(claims := s.claims[root := r]), r, Checking)
    case Seen(e) =>
      if answer.Throws? then To(s, r, Answered(Protected)) else To(s, r, Weighing(e, answer.Yes?))
    case Weighing(e, open) =>
      if e !in s.results || !open then To(s, r, Joining(e)) else To(s, r, Asking(e))
    case Asking(e) =>
      (match answer
       case Throws => To(s, r, Answered(Protected))
       case Yes => To(s, r, Joining(e))     // the fresh decision still reports "closing"
       case No => To(s, r, Evicting(e)))
    case Evicting(e) => To(s.(claims := RemoveIf(s.claims, root, e)), r, Claiming)
    case Joining(e) => if e in s.results then To(s, r, Joined(e, ResultReply(s.results[e]))) else s
    case Checking =>
      (match answer
       case Throws => Retire(s, r, Protected)
       case No => Retire(s, r, NotFound)
       case Yes => To(s, r, Judging))
    case Judging =>
      (match answer
       case Throws => Retire(s, r, Protected)
       case No => Retire(s, r, Unsafe)
       case Yes => To(s, r, Closing))
    case Closing =>
      (match answer
       case Throws => Retire(s, r, Protected)
       case No => Retire(s, r, Protected)
       case Yes => To(s.(results := Complete(s.results, r, true)), r, Replying))
    case Retiring(reply) => To(s.(claims := RemoveIf(s.claims, root, r)), r, Answered(reply))
    case Replying => if answer.Throws? then Retire(s, r, Protected) else To(s, r, Answered(Accepted))
    case Joined(_, _) => s
    case Answered(_) => s
  }

  function Next(s: Endpoint, e: Event): Endpoint {
    match e
    case Request(r, root, ownedRecovery) =>
      if r in s.threads then s else s.(threads := s.threads[r := Thread(root, ownedRecovery, Claiming)])
    case Turn(r, answer) => if r in s.threads then Advance(s, r, answer) else s
  }

  function Run(s: Endpoint, events: seq<Event>): Endpoint
    decreases |events|
  {
    if events == [] then s else Run(Next(s, events[0]), events[1..])
  }

  // ---------------------------------------------------------------------------------
  // Invariant
  // ---------------------------------------------------------------------------------

  /** The attempt is claimed and its thread is still on its way to completing it. */
  predicate Running(stage: Stage) {
    stage.Checking? || stage.Judging? || stage.Closing?
  }

  /** An attempt that has been entered in the map at some time: unfinished or finished. */
  predicate Started(s: Endpoint, e: Request) {
    e in s.threads && (Running(s.threads[e].stage) || e in s.results)
  }

  predicate ThreadInv(s: Endpoint, r: Request)
    requires r in s.threads
  {
    var root := s.threads[r].root;
    match s.threads[r].stage
    case Claiming => r !in s.results
    case Seen(e) => r !in s.results && Started(s, e) && s.threads[e].root == root
    case Weighing(e, _) => r !in s.results && Started(s, e) && s.threads[e].root == root
    case Asking(e) => r !in s.results && Started(s, e) && s.threads[e].root == root && e in s.results
    case Evicting(e) => r !in s.results && Started(s, e) && s.threads[e].root == root && e in s.results
    case Joining(e) => r !in s.results && Started(s, e) && s.threads[e].root == root
    case Checking => r !in s.results && root in s.claims && s.claims[root] == r
    case Judging => r !in s.results && root in s.claims && s.claims[root] == r
    case Closing => r !in s.results && root in s.claims && s.claims[root] == r
    case Retiring(reply) => r in s.results && reply != Accepted
    case Replying => r in s.results && s.results[r]
    case Joined(e, reply) =>
      && r !in s.results && Started(s, e) && s.threads[e].root == root
      && e in s.results && reply == ResultReply(s.results[e])
    case Answered(reply) => if r in s.results then reply == Accepted ==> s.results[r] else reply == Protected
  }

  ghost predicate Inv(s: Endpoint) {
    && (forall r | r in s.threads :: ThreadInv(s, r))
    && (forall root | root in s.claims :: Started(s, s.claims[root]) && s.threads[s.claims[root]].root == root)
    && (forall r | r in s.results :: r in s.threads)
  }

  /** Results only grow, roots never change, and started attempts stay started. */
  ghost predicate Extends(s: Endpoint, s': Endpoint) {
    && (forall r | r in s.results :: r in s'.results && s'.results[r] == s.results[r])
    && (forall r | r in s.threads :: r in s'.threads && s'.threads[r].root == s.threads[r].root)
    && (forall r | r in s.threads && Started(s, r) :: Started(s', r))
  }

  /** What the map may do at one step: keep the mapping, lose a finished attempt, or gain the
      stepping thread's own. */
  ghost predicate ClaimsStep(s: Endpoint, r: Request, claims: map<Root, Request>)
    requires r in s.threads
  {
    var root := s.threads[r].root;
    || claims == s.claims
    || (root in s.claims && s.claims[root] in s.results && claims == s.claims - {root})
    || (root !in s.claims && s.threads[r].stage.Claiming? && claims == s.claims[root := r])
  }

  ghost predicate ResultsStep(s: Endpoint, r: Request, results: map<Request, bool>) {
    results == s.results || (r !in s.results && r in results && results == s.results[r := results[r]])
  }

  /**
    One step of one thread: only finished attempts leave the map, and a claim is only entered
    where there was none. So a conditional remove never deletes another thread's live claim.
   */
  lemma AdvanceKeepsClaims(s: Endpoint, r: Request, answer: Answer)
    requires r in s.threads && ThreadInv(s, r)
    ensures ClaimsStep(s, r, Advance(s, r, answer).claims)
  {
  }

  lemma AdvanceKeepsResults(s: Endpoint, r: Request, answer: Answer)
    requires r in s.threads && ThreadInv(s, r)
    ensures ResultsStep(s, r, Advance(s, r, answer).results)
  {
  }

  lemma AdvanceMovesOne(s: Endpoint, r: Request, answer: Answer)
    requires r in s.threads
    ensures
      var s' := Advance(s, r, answer);
      r in s'.threads && s'.threads == s.threads[r := s.threads[r].(stage := s'.threads[r].stage)]
  {
    assert s.threads == s.threads[r := s.threads[r]];
    match s.threads[r].stage
    case Claiming =>
    case Seen(_) =>
    case Weighing(_, _) =>
    case Asking(_) =>
    case Evicting(_) =>
    case Joining(_) =>
    case Checking =>
    case Judging =>
    case Closing =>
    case Retiring(_) =>
    case Replying =>
    case Joined(_, _) =>
    case Answered(_) =>
  }

  lemma ExtendsByStep(s: Endpoint, r: Request, s': Endpoint)
    requires Inv(s) && r in s.threads && r in s'.threads
    requires s'.threads == s.threads[r := s.threads[r].(stage := s'.threads[r].stage)]
    requires ResultsStep(s, r, s'.results)
    requires Running(s.threads[r].stage) ==> Running(s'.threads[r].stage) || r in s'.results
    ensures Extends(s, s')
  {
  }

  lemma OthersKeepInv(s: Endpoint, r: Request, s': Endpoint, t: Request)
    requires Inv(s) && r in s.threads && t in s.threads && t != r && Extends(s, s')
    requires s'.threads == s.threads[r := s.threads[r].(stage := s'.threads[r].stage)]
    requires ClaimsStep(s, r, s'.claims) && ResultsStep(s, r, s'.results)
    ensures ThreadInv(s', t)
  {
    assert ThreadInv(s, t);
  }

  ghost predicate ClaimedRoot(s: Endpoint, root: Root) {
    root in s.claims ==> Started(s, s.claims[root]) && s.threads[s.claims[root]].root == root
  }

  /** A thread that does not run an attempt moves on: what it has seen stays started. */
  lemma StartedAfter(s: Endpoint, r: Request, e: Request, s': Endpoint)
    requires r in s.threads && !Started(s, r) && Started(s, e)
    requires r in s'.threads && s'.threads == s.threads[r := s.threads[r].(stage := s'.threads[r].stage)]
    requires s'.results == s.results
    ensures Started(s', e) && s'.threads[e].root == s.threads[e].root
    ensures s'.threads[r].root == s.threads[r].root
  {
  }

  /** The stages before an own attempt, and those that watch another one. */
  predicate Watching(stage: Stage) {
    stage.Claiming? || stage.Seen? || stage.Weighing? || stage.Asking? || stage.Evicting? || stage.Joining?
  }

  lemma StepWatcher(s: Endpoint, r: Request, answer: Answer)
    requires r in s.threads && ThreadInv(s, r) && ClaimedRoot(s, s.threads[r].root)
    requires Watching(s.threads[r].stage) && r in Advance(s, r, answer).threads
    ensures ThreadInv(Advance(s, r, answer), r)
  {
    var s' := Advance(s, r, answer);
    var root := s.threads[r].root;
    AdvanceMovesOne(s, r, answer);
    match s.threads[r].stage
    case Claiming => if root in s.claims { StartedAfter(s, r, s.claims[root], s'); }
    case Seen(e) => StartedAfter(s, r, e, s');
    case Weighing(e, _) => StartedAfter(s, r, e, s');
    case Asking(e) => StartedAfter(s, r, e, s');
    case Evicting(e) =>
    case Joining(e) => StartedAfter(s, r, e, s');
  }

  lemma StepOwner(s: Endpoint, r: Request, answer: Answer)
    requires r in s.threads && ThreadInv(s, r)
    requires !Watching(s.threads[r].stage) && r in Advance(s, r, answer).threads
    ensures ThreadInv(Advance(s, r, answer), r)
  {
    match s.threads[r].stage
    case Joined(_, _) => assert Advance(s, r, answer) == s;
    case Answered(_) => assert Advance(s, r, answer) == s;
    case _ =>
  }

  lemma StepOwnInv(s: Endpoint, r: Request, answer: Answer)
    requires r in s.threads && ThreadInv(s, r) && ClaimedRoot(s, s.threads[r].root)
    requires r in Advance(s, r, answer).threads
    ensures ThreadInv(Advance(s, r, answer), r)
  {
    if Watching(s.threads[r].stage) { StepWatcher(s, r, answer); } else { StepOwner(s, r, answer); }
  }

  lemma AdvanceKeepsInv(s: Endpoint, r: Request, answer: Answer)
    requires Inv(s) && r in s.threads
    ensures Inv(Advance(s, r, answer)) && Extends(s, Advance(s, r, answer))
  {
    var s' := Advance(s, r, answer);
    assert ThreadInv(s, r);
    AdvanceMovesOne(s, r, answer);
    AdvanceKeepsClaims(s, r, answer);
    AdvanceKeepsResults(s, r, answer);
    ExtendsByStep(s, r, s');
    forall t | t in s'.threads ensures ThreadInv(s', t) {
      if t == r { StepOwnInv(s, r, answer); } else { OthersKeepInv(s, r, s', t); }
    }
  }

  lemma NextKeepsInv(s: Endpoint, e: Event)
    requires Inv(s)
    ensures Inv(Next(s, e)) && Extends(s, Next(s, e))
  {
    match e
    case Request(r, root, ownedRecovery) =>
      var s' := Next(s, e);
      forall t | t in s'.threads ensures ThreadInv(s', t) {
        if t in s.threads { assert ThreadInv(s, t); }
      }
    case Turn(r, answer) =>
      if r in s.threads {
        AdvanceKeepsInv(s, r, answer);
      }
  }

  lemma {:induction false} RunKeepsInv(s: Endpoint, events: seq<Event>)
    requires Inv(s)
    ensures Inv(Run(s, events)) && Extends(s, Run(s, events))
    decreases |events|
  {
    if events != [] {
      NextKeepsInv(s, events[0]);
      RunKeepsInv(Next(s, events[0]), events[1..]);
    }
  }

  // ---------------------------------------------------------------------------------
  // What every run guarantees
  // ---------------------------------------------------------------------------------

  /** At most one unfinished attempt per root; in particular adapter.close calls never overlap. */
  lemma {:induction false} OneAttemptPerRoot(events: seq<Event>, a: Request, b: Request)
    requires
      var s := Run(Idle, events);
      && a in s.threads && Running(s.threads[a].stage)
      && b in s.threads && Running(s.threads[b].stage)
      && s.threads[a].root == s.threads[b].root
    ensures a == b
  {
    RunKeepsInv(Idle, events);
    var s := Run(Idle, events);
    assert ThreadInv(s, a) && ThreadInv(s, b);
  }

  /** An unfinished future that anyone can find or wait for belongs to a thread still running it. */
  lemma {:induction false} UnfinishedAttemptsAreRun(events: seq<Event>, r: Request)
    requires
      var s := Run(Idle, events);
      r in s.threads && match s.threads[r].stage
        case Seen(e) => e !in s.results
        case Weighing(e, _) => e !in s.results
        case Joining(e) => e !in s.results
        case _ => s.threads[r].root in s.claims && s.claims[s.threads[r].root] !in s.results
    ensures
      var s := Run(Idle, events);
      var e := match s.threads[r].stage
        case Seen(e) => e
        case Weighing(e, _) => e
        case Joining(e) => e
        case _ => s.claims[s.threads[r].root];
      && e in s.threads && Running(s.threads[e].stage)
      && s.threads[e].root == s.threads[r].root && s.threads[r].root in s.claims && s.claims[s.threads[r].root] == e
  {
    RunKeepsInv(Idle, events);
    var s := Run(Idle, events);
    assert ThreadInv(s, r);
    var e := match s.threads[r].stage
      case Seen(e) => e
      case Weighing(e, _) => e
      case Joining(e) => e
      case _ => s.claims[s.threads[r].root];
    assert ThreadInv(s, e);
  }

  /** Whatever happens next in a reachable state, a mapping that changes was a finished attempt's. */
  lemma {:induction false} OnlyFinishedAttemptsLeave(events: seq<Event>, event: Event, root: Root)
    requires
      var s := Run(Idle, events);
      root in s.claims && !(root in Next(s, event).claims && Next(s, event).claims[root] == s.claims[root])
    ensures
      var s := Run(Idle, events);
      s.claims[root] in s.results && root !in Next(s, event).claims
  {
    RunKeepsInv(Idle, events);
    var s := Run(Idle, events);
    assert ThreadInv(s, event.r);
    AdvanceKeepsClaims(s, event.r, event.answer);
  }

  /** Own steps left until the attempt of `e` is complete. */
  function StepsLeft(s: Endpoint, e: Request): nat
    requires e in s.threads
  {
    match s.threads[e].stage
    case Checking => 3
    case Judging => 2
    case Closing => 1
    case _ => 0    // not running: a started attempt is then complete
  }

  function TurnsOf(events: seq<Event>, r: Request): nat {
    if events == [] then 0
    else (if events[0].Turn? && events[0].r == r then 1 else 0) + TurnsOf(events[1..], r)
  }

  /** One event: an own step of a running attempt brings it nearer, another one leaves it alone. */
  lemma EventProgress(s: Endpoint, e: Request, event: Event)
    requires Started(s, e) && ThreadInv(s, e)
    ensures e in Next(s, event).threads
    ensures StepsLeft(Next(s, event), e) <= StepsLeft(s, e)
    ensures StepsLeft(s, e) > 0 && event.Turn? && event.r == e ==> StepsLeft(Next(s, event), e) < StepsLeft(s, e)
  {
    if event.Turn? && event.r in s.threads {
      if event.r == e {
        OwnStepProgress(s, e, event.answer);
      } else {
        AdvanceMovesOne(s, event.r, event.answer);
      }
    }
  }

  lemma OwnStepProgress(s: Endpoint, e: Request, answer: Answer)
    requires Started(s, e) && ThreadInv(s, e)
    ensures e in Advance(s, e, answer).threads
    ensures StepsLeft(Advance(s, e, answer), e) <= StepsLeft(s, e)
    ensures StepsLeft(s, e) > 0 ==> StepsLeft(Advance(s, e, answer), e) < StepsLeft(s, e)
  {
    match s.threads[e].stage
    case Checking =>
    case Judging =>
    case Closing =>
    case Retiring(_) =>
    case Replying =>
    case Answered(_) =>
    case _ =>
  }

  /** Each own step brings a running attempt nearer to completion; other threads cannot delay it. */
  lemma {:induction false} AttemptsProgress(s: Endpoint, e: Request, events: seq<Event>)
    requires Inv(s) && Started(s, e) && TurnsOf(events, e) >= StepsLeft(s, e)
    ensures e in Run(s, events).results
    decreases |events|
  {
    if StepsLeft(s, e) == 0 {
      RunKeepsInv(s, events);
    } else {
      assert ThreadInv(s, e);
      EventProgress(s, e, events[0]);
      NextKeepsInv(s, events[0]);
      AttemptsProgress(Next(s, events[0]), e, events[1..]);
    }
  }

  /**
    No stranded joiner: if a thread waits for attempt `e` in a reachable state, then after any
    continuation in which the thread of `e` takes at least three steps, whatever the adapter
    answers or throws, `e` is complete and the joiner's next step replies with its value,
    whatever mode either request asked for.
   */
  lemma {:induction false} JoinersAreAnswered(events: seq<Event>, r: Request, more: seq<Event>, answer: Answer)
    requires
      var s := Run(Idle, events);
      && r in s.threads && s.threads[r].stage.Joining?
      && TurnsOf(more, s.threads[r].stage.existing) >= 3 && TurnsOf(more, r) == 0
    ensures
      var e := Run(Idle, events).threads[r].stage.existing;
      var s' := Run(Run(Idle, events), more);
      && e in s'.results && r in s'.threads
      && Next(s', Turn(r, answer)).threads[r].stage == Joined(e, ResultReply(s'.results[e]))
  {
    RunKeepsInv(Idle, events);
    var s := Run(Idle, events);
    assert ThreadInv(s, r);
    AttemptsProgress(s, s.threads[r].stage.existing, more);
    RunKeepsInv(s, more);
    OthersKeepStage(s, r, more);
  }

  lemma {:induction false} OthersKeepStage(s: Endpoint, r: Request, events: seq<Event>)
    requires r in s.threads && TurnsOf(events, r) == 0
    ensures r in Run(s, events).threads && Run(s, events).threads[r] == s.threads[r]
    decreases |events|
  {
    if events != [] {
      OthersKeepStage(Next(s, events[0]), r, events[1..]);
    }
  }

  /** Every reply that came from joining is the joined attempt's final value, for the same root. */
  lemma {:induction false} JoinedRepliesAgree(events: seq<Event>, r: Request)
    requires r in Run(Idle, events).threads && Run(Idle, events).threads[r].stage.Joined?
    ensures
      var s := Run(Idle, events);
      var e := s.threads[r].stage.existing;
      && e in s.results && s.threads[r].stage.reply == ResultReply(s.results[e])
      && e in s.threads && s.threads[e].root == s.threads[r].root
  {
    RunKeepsInv(Idle, events);
    assert ThreadInv(Run(Idle, events), r);
  }

  // ---------------------------------------------------------------------------------
  // One request on its own
  // ---------------------------------------------------------------------------------

  /** The turns of one thread that nobody interrupts. */
  function Turns(s: Endpoint, r: Request, answers: seq<Answer>): Endpoint
    decreases |answers|
  {
    if answers == [] then s else Turns(Next(s, Turn(r, answers[0])), r, answers[1..])
  }

  lemma Turns1(s: Endpoint, r: Request, a: Answer, rest: seq<Answer>)
    ensures Turns(s, r, [a] + rest) == Turns(Next(s, Turn(r, a)), r, rest)
  {
  }

  /** What an own attempt comes to, by what the adapter answers to "open?", "safe?" and "close". */
  function Outcome(open: Answer, safe: Answer, close: Answer): Reply {
    if open.No? then NotFound
    else if open.Throws? then Protected
    else if safe.No? then Unsafe
    else if safe.Throws? then Protected
    else if close.Yes? then Accepted
    else Protected
  }

  /** An own attempt is answered by the first adapter call that does not say yes; its future carries
      whether the close was accepted, and only then its claim stays. */
  lemma AttemptOutcome(s: Endpoint, r: Request, open: Answer, safe: Answer, close: Answer)
    requires r in s.threads && s.threads[r].stage.Checking? && ThreadInv(s, r)
    ensures
      var reply := Outcome(open, safe, close);
      var s3 := Next(Next(Next(s, Turn(r, open)), Turn(r, safe)), Turn(r, close));
      var s4 := Next(s3, Turn(r, Yes));
      && r in s4.threads && s4.threads[r].stage == Answered(reply)
      && r in s4.results && s4.results[r] == (reply == Accepted)
      && s4.claims == (if reply == Accepted then s.claims else s.claims - {s.threads[r].root})
  {
    var s1 := Next(s, Turn(r, open));
    assert r in s1.threads;
    var s2 := Next(s1, Turn(r, safe));
    assert r in s2.threads;
  }

  /** A finished attempt does not block its root for ever: once the project is open again and not
      closing, a new request removes the old claim and enters its own. */
  lemma FinishedAttemptIsReplaced(s: Endpoint, r: Request, answer: Answer)
    requires r in s.threads && s.threads[r].stage.Claiming?
    requires s.threads[r].root in s.claims && s.claims[s.threads[r].root] in s.results
    ensures
      var after := Turns(s, r, [answer, Yes, answer, No, answer, answer]);
      && r in after.threads && after.threads[r].stage == Checking
      && after.claims == s.claims[s.threads[r].root := r]
  {
    var root := s.threads[r].root;
    var e := s.claims[root];
    var s1 := To(s, r, Seen(e));
    Turns1(s, r, answer, [Yes, answer, No, answer, answer]);
    var s2 := To(s1, r, Weighing(e, true));
    Turns1(s1, r, Yes, [answer, No, answer, answer]);
    var s3 := To(s2, r, Asking(e));
    Turns1(s2, r, answer, [No, answer, answer]);
    var s4 := To(s3, r, Evicting(e));
    Turns1(s3, r, No, [answer, answer]);
    var s5 := To(s4.(claims := s4.claims - {root}), r, Claiming);
    Turns1(s4, r, answer, [answer]);
    Turns1(s5, r, answer, []);
    assert (s.claims - {root})[root := r] == s.claims[root := r];
  }

  lemma Turns2(s: Endpoint, r: Request, a: Answer, b: Answer, rest: seq<Answer>)
    ensures Turns(s, r, [a, b] + rest) == Turns(Next(Next(s, Turn(r, a)), Turn(r, b)), r, rest)
  {
    assert [a, b] + rest == [a] + ([b] + rest);
    Turns1(s, r, a, [b] + rest);
    Turns1(Next(s, Turn(r, a)), r, b, rest);
  }

  lemma {:induction false} AnsweredStays(s: Endpoint, r: Request, answers: seq<Answer>)
    requires r in s.threads && (s.threads[r].stage.Answered? || s.threads[r].stage.Joined?)
    ensures Turns(s, r, answers) == s
    decreases |answers|
  {
    if answers != [] {
      AnsweredStays(s, r, answers[1..]);
    }
  }

  /** A request that finds no attempt of its root makes its own, whatever else is claimed. */
  lemma FreeRootIsClaimed(s: Endpoint, r: Request, answer: Answer)
    requires r in s.threads && s.threads[r].stage.Claiming? && s.threads[r].root !in s.claims
    ensures Next(s, Turn(r, answer)) == To(s, r, Checking).(claims := s.claims[s.threads[r].root := r])
  {
  }

  /** A request that meets an unfinished attempt waits for it, whether or not the project is open,
      unless looking that up throws. */
  lemma UnfinishedAttemptIsJoined(s: Endpoint, r: Request, e: Request, open: Answer, answer: Answer)
    requires r in s.threads && s.threads[r].stage.Claiming?
    requires s.threads[r].root in s.claims && s.claims[s.threads[r].root] == e && e !in s.results
    ensures Turns(s, r, [answer, open, answer]) == To(s, r, if open.Throws? then Answered(Protected) else Joining(e))
  {
    var s1 := To(s, r, Seen(e));
    var s2 := if open.Throws? then To(s1, r, Answered(Protected)) else To(s1, r, Weighing(e, open.Yes?));
    assert [answer, open] + [answer] == [answer, open, answer];
    Turns2(s, r, answer, open, [answer]);
    assert [answer][1..] == [];
    assert Next(s2, Turn(r, answer)) == To(s, r, if open.Throws? then Answered(Protected) else Joining(e));
  }

  /** A request that meets a finished attempt, up to the question whether the project still closes. */
  lemma MeetsFinished(s: Endpoint, r: Request, e: Request, open: Answer, answer: Answer)
    requires r in s.threads && s.threads[r].stage.Claiming?
    requires s.threads[r].root in s.claims && s.claims[s.threads[r].root] == e && e in s.results
    ensures Turns(s, r, [answer, open, answer])
      == To(s, r, if open.Throws? then Answered(Protected) else if open.Yes? then Asking(e) else Joining(e))
  {
    var s1 := To(s, r, Seen(e));
    var s2 := if open.Throws? then To(s1, r, Answered(Protected)) else To(s1, r, Weighing(e, open.Yes?));
    assert [answer, open] + [answer] == [answer, open, answer];
    Turns2(s, r, answer, open, [answer]);
    assert [answer][1..] == [];
    assert Next(s2, Turn(r, answer))
      == To(s, r, if open.Throws? then Answered(Protected) else if open.Yes? then Asking(e) else Joining(e));
  }

  lemma {:induction false} TurnsJoin(s: Endpoint, r: Request, a: seq<Answer>, b: seq<Answer>)
    ensures Turns(s, r, a + b) == Turns(Turns(s, r, a), r, b)
    decreases |a|
  {
    if a == [] {
      assert a + b == b;
    } else {
      assert (a + b)[0] == a[0] && (a + b)[1..] == a[1..] + b;
      TurnsJoin(Next(s, Turn(r, a[0])), r, a[1..], b);
    }
  }

  /** What that answer makes of it. */
  lemma AsksWhetherClosing(s: Endpoint, r: Request, e: Request, closing: Answer, answer: Answer)
    requires r in s.threads && s.threads[r].stage == Asking(e) && e in s.results && !closing.No?
    ensures Turns(s, r, [closing, answer]) == To(s, r,
      if closing.Throws? then Answered(Protected) else Joined(e, if s.results[e] then Accepted else Protected))
  {
    Turns2(s, r, closing, answer, []);
    assert [closing, answer] + [] == [closing, answer];
  }

  lemma JoinsFinished(s: Endpoint, r: Request, e: Request, answers: seq<Answer>)
    requires r in s.threads && s.threads[r].stage == Joining(e) && e in s.results && answers != []
    ensures Turns(s, r, answers) == To(s, r, Joined(e, if s.results[e] then Accepted else Protected))
  {
    AnsweredStays(Next(s, Turn(r, answers[0])), r, answers[1..]);
  }

  /**
    A finished attempt keeps its root exactly as long as the project is not open, or is open and still
    closing: the request is then answered with the attempt's result, and nothing is claimed or
    completed. If either question throws, the request is answered "protected" and nothing changes.
    `FinishedAttemptIsReplaced` is the remaining case.
   */
  lemma FinishedAttemptDecision(s: Endpoint, r: Request, e: Request, open: Answer, closing: Answer, answer: Answer)
    requires r in s.threads && s.threads[r].stage.Claiming?
    requires s.threads[r].root in s.claims && s.claims[s.threads[r].root] == e && e in s.results
    requires !(open.Yes? && closing.No?)
    ensures Turns(s, r, [answer, open, answer] + [closing, answer]) == To(s, r,
      if open.Throws? || (open.Yes? && closing.Throws?) then Answered(Protected)
      else Joined(e, if s.results[e] then Accepted else Protected))
  {
    MeetsFinished(s, r, e, open, answer);
    TurnsJoin(s, r, [answer, open, answer], [closing, answer]);
    if open.Throws? {
      AnsweredStays(To(s, r, Answered(Protected)), r, [closing, answer]);
    } else if open.No? {
      JoinsFinished(To(s, r, Joining(e)), r, e, [closing, answer]);
    } else {
      AsksWhetherClosing(To(s, r, Asking(e)), r, e, closing, answer);
    }
  }

  /** When the reply of an accepted attempt cannot be written, its claim is given up although its
      future says "accepted", and the request is answered "protected". */
  lemma ReplyFailure(s: Endpoint, r: Request, answer: Answer)
    requires r in s.threads && s.threads[r].stage.Replying? && ThreadInv(s, r)
    ensures
      var root := s.threads[r].root;
      Turns(s, r, [Throws, answer]) == To(s, r, Answered(Protected)).(
        claims := if root in s.claims && s.claims[root] == r then s.claims - {root} else s.claims)
  {
    Turns2(s, r, Throws, answer, []);
    assert [Throws, answer] + [] == [Throws, answer];
  }

  // ---------------------------------------------------------------------------------
  // The shared objects as the threads change them
  // ---------------------------------------------------------------------------------

  class CloseServer {
    var claims: map<Root, Request>
    var results: map<Request, bool>
    var threads: map<Request, Thread>

    ghost function View(): Endpoint
      reads this
    {
      Endpoint(claims, results, threads)
    }

    constructor ()
      ensures View() == Idle
    {
      claims, results, threads := map[], map[], map[];
    }

    /** ConcurrentHashMap.putIfAbsent. */
    method PutIfAbsent(root: Root, attempt: Request) returns (existing: Option<Request>)
      modifies this`claims
      ensures root in old(claims) ==> existing == Some(old(claims)[root]) && claims == old(claims)
      ensures root !in old(claims) ==> existing == None && claims == old(claims)[root := attempt]
    {
      if root in claims { return Some(claims[root]); }
      claims := claims[root := attempt];
      existing := None;
    }

    /** ConcurrentHashMap.remove(key, value). */
    method Remove(root: Root, attempt: Request)
      modifies this`claims
      ensures claims == RemoveIf(old(claims), root, attempt)
    {
      if root in claims && claims[root] == attempt { claims := claims - {root}; }
    }

    /** CompletableFuture.complete. */
    method CompleteFuture(attempt: Request, value: bool)
      modifies this`results
      ensures results == Complete(old(results), attempt, value)
    {
      if attempt !in results { results := results[attempt := value]; }
    }

    method Goto(r: Request, stage: Stage)
      requires r in threads
      modifies this`threads
      ensures threads == old(threads)[r := old(threads)[r].(stage := stage)]
    {
      threads := threads[r := threads[r].(stage := stage)];
    }

    /** One step of `closeProject` in the thread of `r`. */
    method TakeTurn(r: Request, answer: Answer)
      requires r in threads
      modifies this
      ensures View() == Advance(old(View()), r, answer)
    {
      var root := threads[r].root;
      match threads[r].stage {
        case Claiming =>
          var existing := PutIfAbsent(root, r);
          if existing.Some? { Goto(r, Seen(existing.value)); } else { Goto(r, Checking); }
        case Seen(e) =>
          if answer.Throws? { Goto(r, Answered(Protected)); } else { Goto(r, Weighing(e, answer.Yes?)); }
        case Weighing(e, open) =>
          if e !in results || !open { Goto(r, Joining(e)); } else { Goto(r, Asking(e)); }
        case Asking(e) =>
          if answer.Throws? { Goto(r, Answered(Protected)); }
          else if answer.Yes? { Goto(r, Joining(e)); }
          else { Goto(r, Evicting(e)); }
        case Evicting(e) =>
          Remove(root, e);
          Goto(r, Claiming);
        case Joining(e) =>
          if e in results { Goto(r, Joined(e, ResultReply(results[e]))); }
        case Checking =>
          if answer.Yes? { Goto(r, Judging); }
          else {
            CompleteFuture(r, false);
            Goto(r, Retiring(if answer.No? then NotFound else Protected));
          }
        case Judging =>
          if answer.Yes? { Goto(r, Closing); }
          else {
            CompleteFuture(r, false);
            Goto(r, Retiring(if answer.No? then Unsafe else Protected));
          }
        case Closing =>
          CompleteFuture(r, answer.Yes?);
          if answer.Yes? { Goto(r, Replying); } else { Goto(r, Retiring(Protected)); }
        case Retiring(reply) =>
          Remove(root, r);
          Goto(r, Answered(reply));
        case Replying =>
          if answer.Throws? {
            CompleteFuture(r, false);
            Goto(r, Retiring(Protected));
          } else { Goto(r, Answered(Accepted)); }
        case Joined(_, _) =>
        case Answered(_) =>
      }
    }
  }
}
