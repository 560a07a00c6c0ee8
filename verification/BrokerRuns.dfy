/**
  Runs of the broker: connects, disconnects, cleanups, status and lease queries and repairs in
  any order, at non-decreasing times, with arbitrary answers from the environment.
 */
module BrokerRuns {
  import opened Wrappers
  import opened Broker
  import opened BrokerDecisions
  import opened BrokerSafety

  datatype Event =
    | Connects(request: Request, env: Env, env1: Env, env2: Env)
    | Disconnects(keys: set<Key>, lease: string, env: Env)
    | Cleans(idleSeconds: int, stopIdle: bool, env: Env)   // `cleanup`, and `status` with stopIdle false
    | Lists(env: Env)
    | Repairs(root: string, order: seq<Key>, env: Env)

  datatype System = System(services: Services, clock: int)

  /** Clocks do not run backwards, and a dictionary order lists every recorded key. */
  predicate Enabled(s: System, e: Event) {
    && s.clock <= e.env.now
    && (e.Connects? ==> e.env.now <= e.env1.now <= e.env2.now && Covers(e.request.order, s.services))
    && (e.Repairs? ==> Covers(e.order, s.services))
  }

  function Next(s: System, e: Event): System {
    if !Enabled(s, e) then s
    else match e
      case Connects(r, env, env1, env2) => System(Connect(s.services, r, env, env1, env2).0, env2.now)
      case Disconnects(keys, id, env) => System(Disconnect(s.services, keys, id, env), env.now)
      case Cleans(idleSeconds, stopIdle, env) => System(Cleanup(s.services, idleSeconds, stopIdle, env), env.now)
      case Lists(env) => System(PruneAll(s.services, env), env.now)
      case Repairs(root, order, env) => System(RepairRoot(s.services, order, root, env).services, env.now)
  }

  /** All states of a run, the initial one first. */
  function States(clock: int, events: seq<Event>): (states: seq<System>)
    ensures |states| == |events| + 1
  {
    if events == [] then [System(map[], clock)]
    else
      var past := States(clock, events[..|events| - 1]);
      past + [Next(past[|past| - 1], events[|events| - 1])]
  }

  function Final(clock: int, events: seq<Event>): System {
    States(clock, events)[|events|]
  }

  lemma NextKeepsInv(s: System, e: Event)
    requires Inv(s.services)
    ensures Inv(Next(s, e).services)
  {
    if Enabled(s, e) {
      match e
      case Connects(r, env, env1, env2) => ConnectKeepsInv(s.services, r, env, env1, env2);
      case Disconnects(keys, id, env) =>
        ShrinksKeepsInv(s.services, Disconnect(s.services, keys, id, env));
      case Cleans(idleSeconds, stopIdle, env) =>
        ShrinksKeepsInv(s.services, Cleanup(s.services, idleSeconds, stopIdle, env));
      case Lists(env) =>
        ShrinksKeepsInv(s.services, PruneAll(s.services, env));
      case Repairs(root, order, env) =>
        RepairShrinks(s.services, order, root, env);
        ShrinksKeepsInv(s.services, RepairRoot(s.services, order, root, env).services);
    }
  }

  lemma {:induction false} RunKeepsInv(clock: int, events: seq<Event>)
    ensures Inv(Final(clock, events).services)
  {
    if events == [] {
      forall root: string ensures HasOwner(map[], root) {
        assert OwnedBy(map[], root, Named(""));
      }
    } else {
      RunKeepsInv(clock, events[..|events| - 1]);
      NextKeepsInv(Final(clock, events[..|events| - 1]), events[|events| - 1]);
    }
  }

  /**
    In every reachable state, also after refused connects: any two leases recorded for one root,
    in whatever service and backend, carry the same owner, and distinct services have distinct
    ports in the configured range.
   */
  lemma {:induction false} EveryRunHasSingleOwners(clock: int, events: seq<Event>)
    ensures
      var services := Final(clock, events).services;
      && (forall j, k, a, b |
            && j in services && k in services && services[j].root == services[k].root
            && a in services[j].leases && b in services[k].leases ::
            EffectiveOwner(services[j].leases[a]) == EffectiveOwner(services[k].leases[b]))
      && PortsInv(services)
  {
    RunKeepsInv(clock, events);
    var services := Final(clock, events).services;
    forall j, k, a, b |
        && j in services && k in services && services[j].root == services[k].root
        && a in services[j].leases && b in services[k].leases
      ensures EffectiveOwner(services[j].leases[a]) == EffectiveOwner(services[k].leases[b])
    {
      assert HasOwner(services, services[j].root);
      var o :| OwnedBy(services, services[j].root, o);
    }
  }

  // ---------------------------------------------------------------------------------
  // Whom a dead service lets in
  // ---------------------------------------------------------------------------------

  /** A live lease of another owner is recorded for the root of the request. */
  ghost predicate OthersLiveLease(services: Services, r: Request, env: Env) {
    exists k, id :: k in services && services[k].root == r.key.root && id in services[k].leases
      && services[k].leases[id].process in env.live && EffectiveOwner(services[k].leases[id]) != r.owner
  }

  function FirstEnv(client: Process): Env {
    Env(0, {client}, {}, {}, {}, {PORT_FIRST}, map[])
  }

  function FirstRequest(root: string, owner: OwnerId, client: Process, service: Process): Request {
    Request(Key(root, Lsp, "codex", []), false, "lease", owner, OtherSource, client, [], Up(service), ServiceFails)
  }

  lemma OneEvent(clock: int, e: Event)
    ensures Final(clock, [e]) == Next(System(map[], clock), e)
  {
    assert [e][..0] == [];
    assert States(clock, []) == [System(map[], clock)];
  }

  /** A run after which one owner's client is alive with its lease recorded, and any other owner is
      admitted all the same, because the service process has died. */
  lemma AnotherOwnerIsAdmitted(root: string, a: OwnerId, b: OwnerId, client: Process, other: Process, service: Process)
    requires a != b
    ensures exists events: seq<Event>, r: Request, env: Env ::
              var services := Final(0, events).services;
              r.owner == b && Covers(r.order, services) && OthersLiveLease(services, r, env) && Admit(services, r, env).1
  {
    var first, env1 := FirstRequest(root, a, client, service), FirstEnv(client);
    var e := Connects(first, env1, env1, env1);
    OneEvent(0, e);
    var services := Final(0, [e]).services;
    assert Covers([], map[]) && Enabled(System(map[], 0), e);
    assert services == Connect(map[], first, env1, env1, env1).0;
    var r := FirstRequest(root, b, other, service).(order := [first.key]);
    var env := FirstEnv(client).(now := 1);
    assert first.key in services && "lease" in services[first.key].leases;
    assert OthersLiveLease(services, r, env);
    DeadServicesReleaseTheRoot(services, r, env);
  }

  // ---------------------------------------------------------------------------------
  // The number of services
  // ---------------------------------------------------------------------------------

  lemma {:induction false} DistinctPortsFit(services: Services, keys: set<Key>, ports: set<int>)
    requires keys <= services.Keys && PortsInv(services)
    requires ports == set k | k in keys :: services[k].port
    ensures |keys| == |ports|
  {
    if keys != {} {
      var k :| k in keys;
      var rest := set j | j in keys - {k} :: services[j].port;
      DistinctPortsFit(services, keys - {k}, rest);
      assert ports == rest + {services[k].port};
    }
  }

  function PortsBelow(hi: int): set<int> {
    if hi <= PORT_FIRST then {} else PortsBelow(hi - 1) + {hi - 1}
  }

  lemma {:induction false} PortsBelowHas(hi: int)
    requires PORT_FIRST <= hi
    ensures |PortsBelow(hi)| == hi - PORT_FIRST
    ensures forall p :: p in PortsBelow(hi) <==> PORT_FIRST <= p < hi
    decreases hi
  {
    if PORT_FIRST < hi {
      PortsBelowHas(hi - 1);
    }
  }

  lemma {:induction false} SubsetSize<T>(a: set<T>, b: set<T>)
    requires a <= b
    ensures |a| <= |b|
  {
    if a != {} {
      var x :| x in a;
      SubsetSize(a - {x}, b - {x});
    }
  }

  /** There are never more services than ports in the configured range. */
  lemma {:induction false} ServicesFitTheRange(clock: int, events: seq<Event>)
    ensures |Final(clock, events).services| <= PORT_LAST - PORT_FIRST + 1
  {
    RunKeepsInv(clock, events);
    var services := Final(clock, events).services;
    var ports := set k | k in services.Keys :: services[k].port;
    DistinctPortsFit(services, services.Keys, ports);
    PortsBelowHas(PORT_LAST + 1);
    SubsetSize(ports, PortsBelow(PORT_LAST + 1));
  }

  // ---------------------------------------------------------------------------------
  // Idle timestamps tell the truth
  // ---------------------------------------------------------------------------------

  /** A timestamp in `after` was already there, or is not older than `now`. */
  ghost predicate IdleStep(before: Services, after: Services, now: int) {
    forall k | k in after && after[k].idleSince.Some? ::
      (k in before && before[k].idleSince == after[k].idleSince) || after[k].idleSince.value >= now
  }

  lemma IdleStepTransitive(a: Services, b: Services, c: Services, now: int, later: int)
    requires IdleStep(a, b, now) && IdleStep(b, c, later) && now <= later
    ensures IdleStep(a, c, now)
  {
  }

  lemma MigrateIdleStep(services: Services, order: seq<Key>, root: string, source: Source, o: OwnerId, env: Env)
    ensures IdleStep(services, Migrate(services, order, root, source, o, env).0, env.now)
  {
    ScanPrunes(services, order, root, o, env);
  }

  lemma AdmitIdleStep(services: Services, r: Request, env: Env)
    ensures IdleStep(services, Admit(services, r, env).0, env.now)
  {
    var cleaned := Cleanup(services, 0, false, env);
    var migrated := Migrate(cleaned, r.order, r.key.root, r.source, r.owner, env).0;
    MigrateIdleStep(cleaned, r.order, r.key.root, r.source, r.owner, env);
    IdleStepTransitive(services, cleaned, migrated, env.now, env.now);
    IdleStepTransitive(services, migrated, PruneRoot(migrated, r.key.root, env), env.now, env.now);
  }

  lemma SecondIdleStep(services: Services, key: Key, id: string, lease: Lease, env: Env, launch: Launch)
    ensures
      var (both, up) := StartService(services, key, env, launch);
      IdleStep(services, if up && key in both then InsertLease(both, key, id, lease) else both, env.now)
  {
    var both := StartService(services, key, env, launch).0;
    if key in both {
      IdleStepTransitive(services, both, InsertLease(both, key, id, lease), env.now, env.now);
    }
  }

  lemma ConnectIdleStep(services: Services, r: Request, env: Env, env1: Env, env2: Env)
    requires env.now <= env1.now <= env2.now
    ensures IdleStep(services, Connect(services, r, env, env1, env2).0, env.now)
  {
    AdmitIdleStep(services, r, env);
    var (admitted, allowed) := Admit(services, r, env);
    if allowed {
      var lease := Lease(Some(r.owner), r.client);
      var (started, up) := StartService(admitted, r.key, env1, r.primary);
      SecondIdleStep(admitted, r.key, r.lease, lease, env1, r.primary);
      if up && r.key in started {
        var leased := InsertLease(started, r.key, r.lease, lease);
        IdleStepTransitive(services, admitted, leased, env.now, env1.now);
        if r.hybrid {
          SecondIdleStep(leased, r.key.(backend := Lsp), r.lease, lease, env2, r.secondary);
          IdleStepTransitive(services, leased, Connect(services, r, env, env1, env2).0, env.now, env2.now);
        }
      } else {
        IdleStepTransitive(services, admitted, started, env.now, env1.now);
      }
    }
  }

  lemma {:induction false} FindLeaseIdleStep(services: Services, matches: seq<Key>, env: Env)
    requires forall k | k in matches :: k in services
    ensures IdleStep(services, FindLease(services, matches, env).0, env.now)
  {
    if matches != [] {
      var pruned := services[matches[0] := Prune(services[matches[0]], env)];
      FindLeaseIdleStep(pruned, matches[1..], env);
    }
  }

  lemma {:induction false} DropIdleStep(services: Services, matches: seq<Key>, env: Env)
    ensures IdleStep(services, DropUnhealthy(services, matches, env).services, env.now)
  {
    if matches != [] {
      DropIdleStep(services, matches[1..], env);
      DropIdleStep(services - {matches[0]}, matches[1..], env);
    }
  }

  lemma RepairIdleStep(services: Services, order: seq<Key>, root: string, env: Env)
    ensures IdleStep(services, RepairRoot(services, order, root, env).services, env.now)
  {
    var matches := MatchesOf(services, order, root);
    MatchesAreRecorded(services, order, root);
    FindLeaseIdleStep(services, matches, env);
    DropIdleStep(FindLease(services, matches, env).0, matches, env);
  }

  lemma NextIdleStep(s: System, e: Event)
    ensures Enabled(s, e) ==>
              s.clock <= e.env.now <= Next(s, e).clock && IdleStep(s.services, Next(s, e).services, e.env.now)
  {
    if Enabled(s, e) {
      match e
      case Connects(r, env, env1, env2) => ConnectIdleStep(s.services, r, env, env1, env2);
      case Disconnects(keys, id, env) =>
      case Cleans(idleSeconds, stopIdle, env) =>
      case Lists(env) =>
      case Repairs(root, order, env) => RepairIdleStep(s.services, order, root, env);
    }
  }

  predicate Leased(s: System, k: Key) {
    k in s.services && s.services[k].leases != map[]
  }

  /** The `i`th state of the run was in force at some time later than `t`: it was written then, or
      the section that replaced it began then. */
  predicate InForceAfter(clock: int, events: seq<Event>, i: nat, t: int)
    requires i <= |events|
  {
    var s := States(clock, events)[i];
    s.clock > t || (i < |events| && Enabled(s, events[i]) && events[i].env.now > t)
  }

  lemma EarlierStates(clock: int, events: seq<Event>, i: nat)
    requires 0 < |events| && i < |events|
    ensures States(clock, events)[i] == States(clock, events[..|events| - 1])[i]
  {
  }

  /** No section of the run began after the last state was written. */
  lemma {:induction false} SectionsAreOver(clock: int, events: seq<Event>, i: nat, t: int)
    requires i <= |events| && InForceAfter(clock, events, i, t)
    ensures t < Final(clock, events).clock
  {
    if events != [] {
      var n := |events| - 1;
      NextIdleStep(Final(clock, events[..n]), events[n]);
      if i <= n {
        EarlierStates(clock, events, i);
      }
      if i < n || (i == n && States(clock, events)[i].clock > t) {
        SectionsAreOver(clock, events[..n], i, t);
      }
    }
  }

  /** A timestamp of the last state was there before the last section, or is not older than that. */
  lemma TimestampCameFrom(clock: int, events: seq<Event>, k: Key)
    requires events != []
    requires k in Final(clock, events).services && Final(clock, events).services[k].idleSince.Some?
    ensures
      var n := |events| - 1;
      var before, stamp := Final(clock, events[..n]), Final(clock, events).services[k].idleSince;
      || (k in before.services && before.services[k].idleSince == stamp)
      || (Enabled(before, events[n]) && before.clock <= events[n].env.now <= stamp.value)
  {
    NextIdleStep(Final(clock, events[..|events| - 1]), events[|events| - 1]);
  }

  /** The timestamped record has no lease. */
  lemma NoLeaseNow(clock: int, events: seq<Event>, k: Key)
    requires k in Final(clock, events).services && Final(clock, events).services[k].idleSince.Some?
    ensures !Leased(Final(clock, events), k)
  {
    RunKeepsInv(clock, events);
  }

  lemma StillInForce(clock: int, events: seq<Event>, i: nat, t: int)
    requires i < |events| - 1 && InForceAfter(clock, events, i, t)
    ensures InForceAfter(clock, events[..|events| - 1], i, t)
  {
    EarlierStates(clock, events, i);
  }

  /** Nothing before the last section was in force after it began. */
  lemma OverWhenTheLastBegan(clock: int, events: seq<Event>, i: nat, t: int)
    requires i < |events|
    requires
      var n := |events| - 1;
      Final(clock, events[..n]).clock <= events[n].env.now <= t
    ensures !InForceAfter(clock, events, i, t)
  {
    var n := |events| - 1;
    EarlierStates(clock, events, i);
    if i < n && InForceAfter(clock, events, i, t) {
      StillInForce(clock, events, i, t);
      SectionsAreOver(clock, events[..n], i, t);
    }
  }

  /**
    A set idle timestamp tells the truth: in any run, if a record carries `idle_since == t`, it has
    no lease now, and no state that was still in force after `t` had one.
   */
  lemma {:induction false} IdleMeansLeaseFree(clock: int, events: seq<Event>, k: Key, i: nat)
    requires
      var last := Final(clock, events);
      && k in last.services && last.services[k].idleSince.Some?
      && i <= |events|
      && (i == |events| || InForceAfter(clock, events, i, last.services[k].idleSince.value))
    ensures !Leased(States(clock, events)[i], k)
  {
    if i == |events| {
      NoLeaseNow(clock, events, k);
    } else {
      var n := |events| - 1;
      var t := Final(clock, events).services[k].idleSince.value;
      EarlierStates(clock, events, i);
      TimestampCameFrom(clock, events, k);
      if Final(clock, events[..n]).clock <= events[n].env.now <= t {
        OverWhenTheLastBegan(clock, events, i, t);
      } else {
        if i < n {
          StillInForce(clock, events, i, t);
        }
        IdleMeansLeaseFree(clock, events[..n], k, i);
      }
    }
  }

  /**
    Cleanup signals a service only after it has been lease-free for at least `idleSeconds`: no state
    that was in force during that time, up to the cleanup itself, recorded a lease for it, and its
    process looks owned.
   */
  lemma {:induction false} CleanupSignalsOnlyTheIdle(clock: int, events: seq<Event>, idleSeconds: int, env: Env, k: Key)
    requires
      var last := Final(clock, events);
      last.clock <= env.now && k in CleanupSignals(last.services, idleSeconds, true, env)
    ensures
      && Final(clock, events).services[k].process in env.owned
      && (idleSeconds > 0 ==> !Leased(Final(clock, events), k))
      && forall i | 0 <= i < |events| && InForceAfter(clock, events, i, env.now - idleSeconds) ::
           !Leased(States(clock, events)[i], k)
  {
    RunKeepsInv(clock, events);
    var last := Final(clock, events);
    forall i | 0 <= i < |events| && InForceAfter(clock, events, i, env.now - idleSeconds)
      ensures !Leased(States(clock, events)[i], k)
    {
      SectionsAreOver(clock, events, i, env.now - idleSeconds);
      IdleMeansLeaseFree(clock, events, k, i);
    }
  }

  // ---------------------------------------------------------------------------------
  // Repair stays inside its root
  // ---------------------------------------------------------------------------------

  /** A record of the root has a lease whose process is alive. */
  predicate LiveLeaseRecorded(services: Services, root: string, env: Env) {
    exists k :: k in services && services[k].root == root && LiveLeases(services[k].leases, env.live) != map[]
  }

  lemma {:induction false} FindLeaseFinds(services: Services, matches: seq<Key>, env: Env)
    requires forall k | k in matches :: k in services
    ensures
      var (pruned, leased) := FindLease(services, matches, env);
      && (leased <==> exists k :: k in matches && LiveLeases(services[k].leases, env.live) != map[])
      && (forall k | k in services && k !in matches :: pruned[k] == services[k])
      && (forall k | k in services :: pruned[k] == services[k] || pruned[k] == Prune(services[k], env))
  {
    if matches != [] {
      var first := matches[0];
      var pruned := services[first := Prune(services[first], env)];
      PruneTwice(services[first], env);
      FindLeaseFinds(pruned, matches[1..], env);
      assert LiveLeases(LiveLeases(services[first].leases, env.live), env.live) == LiveLeases(services[first].leases, env.live);
      assert forall k | k in matches :: k == first || k in matches[1..];
    }
  }

  lemma {:induction false} DropUnhealthyIsConfined(services: Services, matches: seq<Key>, env: Env)
    ensures
      var r := DropUnhealthy(services, matches, env);
      && (forall k | k in services && k !in matches :: k in r.services && r.services[k] == services[k])
      && (forall k | k in r.services :: k in services && r.services[k] == services[k])
      && (forall k | k in r.signals :: k in matches && k in services && k !in r.services
            && services[k].process in env.owned && !Healthy(services[k], env))
  {
    if matches != [] {
      DropUnhealthyIsConfined(services, matches[1..], env);
      DropUnhealthyIsConfined(services - {matches[0]}, matches[1..], env);
    }
  }

  /** The lease check of repair answers whether a live lease is recorded for the root. */
  lemma LeaseCheckIsExact(services: Services, order: seq<Key>, root: string, env: Env)
    requires Covers(order, services)
    ensures
      var matches := MatchesOf(services, order, root);
      && (forall k | k in matches :: k in services && services[k].root == root)
      && (FindLease(services, matches, env).1 <==> LiveLeaseRecorded(services, root, env))
  {
    var matches := MatchesOf(services, order, root);
    MatchesAreRecorded(services, order, root);
    MatchesAreComplete(services, order, root);
    FindLeaseFinds(services, matches, env);
  }

  /** Repair leaves every record of another root as it is. */
  lemma RepairSparesOtherRoots(services: Services, order: seq<Key>, root: string, env: Env)
    requires Covers(order, services)
    ensures
      var r := RepairRoot(services, order, root, env);
      forall k | k in services && services[k].root != root :: k in r.services && r.services[k] == services[k]
  {
    var matches := MatchesOf(services, order, root);
    MatchesAreRecorded(services, order, root);
    FindLeaseFinds(services, matches, env);
    var pruned := FindLease(services, matches, env).0;
    DropUnhealthyIsConfined(pruned, matches, env);
    forall k | k in services && services[k].root != root
      ensures k in RepairRoot(services, order, root, env).services
      ensures RepairRoot(services, order, root, env).services[k] == services[k]
    {
      assert k !in matches && pruned[k] == services[k];
    }
  }

  /** Repair signals only unhealthy owned services of its root, and drops those. */
  lemma RepairSignalsTheUnhealthy(services: Services, order: seq<Key>, root: string, env: Env)
    requires Covers(order, services)
    ensures
      var r := RepairRoot(services, order, root, env);
      forall k | k in r.signals ::
        k in services && services[k].root == root && !Healthy(services[k], env) && k !in r.services
  {
    var matches := MatchesOf(services, order, root);
    MatchesAreRecorded(services, order, root);
    FindLeaseFinds(services, matches, env);
    var pruned := FindLease(services, matches, env).0;
    DropUnhealthyIsConfined(pruned, matches, env);
    var r := RepairRoot(services, order, root, env);
    forall k | k in r.signals
      ensures k in services && services[k].root == root && !Healthy(services[k], env) && k !in r.services
    {
      assert k in DropUnhealthy(pruned, matches, env).signals;
      assert k in matches && (pruned[k] == services[k] || pruned[k] == Prune(services[k], env));
    }
  }

  /** While a live lease is recorded for the root, repair answers "protected", signals nothing and
      at most prunes dead leases. */
  lemma RepairRespectsLiveLeases(services: Services, order: seq<Key>, root: string, env: Env)
    requires Covers(order, services) && LiveLeaseRecorded(services, root, env)
    ensures
      var r := RepairRoot(services, order, root, env);
      && r.signals == {} && r.outcome.Protected? && r.services.Keys == services.Keys
      && forall k | k in services :: r.services[k] == services[k] || r.services[k] == Prune(services[k], env)
  {
    var matches := MatchesOf(services, order, root);
    LeaseCheckIsExact(services, order, root, env);
    FindLeaseFinds(services, matches, env);
  }

  /** Stopping the record's process would fail: it looks owned but vanishes first. */
  predicate StopFails(s: Service, env: Env) {
    s.process in env.owned && s.process in env.vanishing
  }

  /** The first record of the pair goes, and the stop of the second then fails. */
  predicate StopsHalfOf(services: Services, a: Key, b: Key, env: Env)
    requires a in services && b in services
  {
    && !Healthy(services[a], env) && !StopFails(services[a], env)
    && !Healthy(services[b], env) && StopFails(services[b], env)
  }

  lemma DropPair(services: Services, a: Key, b: Key, env: Env)
    requires a in services && b in services && a != b
    ensures
      var r := DropUnhealthy(services, [a, b], env);
      && ((r.outcome == Protected("stop-failed") && r.services.Keys != services.Keys) <==> StopsHalfOf(services, a, b, env))
      && (StopsHalfOf(services, a, b, env) ==>
            r.services == services - {a} && r.signals == if services[a].process in env.owned then {a} else {})
  {
    DropTwo(services, a, b, env);
    DropLast(services, b, env);
    DropLast(services - {a}, b, env);
  }

  lemma PrunedHealth(services: Services, matches: seq<Key>, env: Env, k: Key)
    requires (forall m | m in matches :: m in services) && k in services
    ensures
      var pruned := FindLease(services, matches, env).0;
      Healthy(pruned[k], env) == Healthy(services[k], env) && pruned[k].process == services[k].process
  {
    FindLeaseFinds(services, matches, env);
  }

  lemma RepairOfOthers(services: Services, order: seq<Key>, root: string, env: Env)
    requires |MatchesOf(services, order, root)| != 2
    ensures
      var r := RepairRoot(services, order, root, env);
      r.outcome == Protected("stop-failed") ==> r.services.Keys == services.Keys
  {
    var matches := MatchesOf(services, order, root);
    MatchesAreRecorded(services, order, root);
    if |matches| == 1 {
      assert matches == [matches[0]];
      DropLast(FindLease(services, matches, env).0, matches[0], env);
    }
  }

  lemma RepairOfPair(services: Services, order: seq<Key>, root: string, env: Env, a: Key, b: Key)
    requires Covers(order, services) && MatchesOf(services, order, root) == [a, b]
    requires a in services && b in services && Pair(services, [a, b]) && !LiveLeaseRecorded(services, root, env)
    ensures
      var r := RepairRoot(services, order, root, env);
      && ((r.outcome == Protected("stop-failed") && r.services.Keys != services.Keys) <==> StopsHalfOf(services, a, b, env))
      && (StopsHalfOf(services, a, b, env) ==>
            r.services.Keys == services.Keys - {a} && r.signals == if services[a].process in env.owned then {a} else {})
  {
    var matches := [a, b];
    LeaseCheckIsExact(services, order, root, env);
    PrunedHealth(services, matches, env, a);
    PrunedHealth(services, matches, env, b);
    var pruned := FindLease(services, matches, env).0;
    DropPair(pruned, a, b, env);
    assert matches[0] == a && matches[1] == b;
  }

  /**
    "protected: stop-failed" does not mean that nothing was repaired. It is answered although a
    record is gone exactly for a lease-free pair whose first record is unhealthy and can be stopped
    or dropped, and whose second one is unhealthy and vanishes before its stop. The first record is
    then gone, and its service was signalled exactly when its process looked owned.
   */
  lemma StopFailedMayFollowPartialRepair(services: Services, order: seq<Key>, root: string, env: Env)
    requires Covers(order, services)
    ensures
      var matches := MatchesOf(services, order, root);
      var r := RepairRoot(services, order, root, env);
      && (forall k | k in matches :: k in services)
      && ((r.outcome == Protected("stop-failed") && r.services.Keys != services.Keys) <==>
            && |matches| == 2 && Pair(services, matches) && !LiveLeaseRecorded(services, root, env)
            && StopsHalfOf(services, matches[0], matches[1], env))
      && (r.outcome == Protected("stop-failed") && r.services.Keys != services.Keys ==>
            && r.services.Keys == services.Keys - {matches[0]}
            && r.signals == if services[matches[0]].process in env.owned then {matches[0]} else {})
  {
    var matches := MatchesOf(services, order, root);
    LeaseCheckIsExact(services, order, root, env);
    if |matches| != 2 {
      RepairOfOthers(services, order, root, env);
    } else if Pair(services, matches) {
      if LiveLeaseRecorded(services, root, env) {
        RepairRespectsLiveLeases(services, order, root, env);
      } else {
        assert matches == [matches[0], matches[1]];
        RepairOfPair(services, order, root, env, matches[0], matches[1]);
      }
    }
  }
}
