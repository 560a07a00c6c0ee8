/**
  What the broker's sections decide, stated on the recorded fields and on what the environment
  answers: who is admitted and adopted, which services are reused, launched, stopped and dropped.
 */
module BrokerDecisions {
  import opened Wrappers
  import opened Broker
  import opened BrokerSafety

  // ---------------------------------------------------------------------------------
  // Pruning, disconnecting and cleaning up
  // ---------------------------------------------------------------------------------

  predicate NoLiveLease(s: Service, env: Env) {
    forall id | id in s.leases :: s.leases[id].process !in env.live
  }

  /** `after` is `before` without the leases of dead processes, idle from now on if none is left and
      it was not idle before. */
  ghost predicate PrunedTo(before: Service, after: Service, env: Env) {
    && after == before.(leases := after.leases, idleSince := after.idleSince)
    && (forall id :: id in after.leases <==> id in before.leases && before.leases[id].process in env.live)
    && (forall id | id in after.leases :: after.leases[id] == before.leases[id])
    && after.idleSince
      == if NoLiveLease(before, env) && before.idleSince.None? then Some(env.now) else before.idleSince
  }

  lemma PruneExactly(s: Service, env: Env)
    ensures PrunedTo(s, Prune(s, env), env)
    ensures Prune(s, env).leases == map[] <==> NoLiveLease(s, env)
  {
    if !NoLiveLease(s, env) {
      var id :| id in s.leases && s.leases[id].process in env.live;
      assert id in Prune(s, env).leases;
    }
  }

  /** Disconnecting takes the lease out of the leased services and prunes them; listing prunes all. */
  lemma DisconnectExactly(services: Services, keys: set<Key>, lease: string, env: Env, k: Key)
    requires k in services
    ensures
      var after := Disconnect(services, keys, lease, env);
      && after.Keys == services.Keys
      && (if k in keys then PrunedTo(services[k].(leases := services[k].leases - {lease}), after[k], env)
          else after[k] == services[k])
    ensures PruneAll(services, env).Keys == services.Keys && PrunedTo(services[k], PruneAll(services, env)[k], env)
  {
    PruneExactly(services[k].(leases := services[k].leases - {lease}), env);
    PruneExactly(services[k], env);
  }

  /** How long a service without live leases has been idle. */
  function IdleFor(s: Service, env: Env): int {
    if s.idleSince.Some? then env.now - s.idleSince.value else 0
  }

  /**
    Cleanup signals and drops a service exactly when it is told to stop idle ones, the process looks
    owned and does not vanish, no live lease is left and it has been idle for long enough. It drops
    without a signal exactly the services whose process does not look owned, and prunes the rest.
   */
  lemma CleanupExactly(services: Services, idleSeconds: int, stopIdle: bool, env: Env, k: Key)
    requires k in services
    ensures
      var s, after := services[k], Cleanup(services, idleSeconds, stopIdle, env);
      var stopped := stopIdle && s.process in env.owned && s.process !in env.vanishing
                     && NoLiveLease(s, env) && IdleFor(s, env) >= idleSeconds;
      && (k in CleanupSignals(services, idleSeconds, stopIdle, env) <==> stopped)
      && (k in after <==> s.process in env.owned && !stopped)
      && (k in after ==> PrunedTo(s, after[k], env))
  {
    PruneExactly(services[k], env);
  }

  // ---------------------------------------------------------------------------------
  // Starting a service
  // ---------------------------------------------------------------------------------

  /** The port is in the range, can be bound, and no record but that of `key` has it. */
  predicate PortIsFree(services: Services, key: Key, env: Env, port: int) {
    && PORT_FIRST <= port <= PORT_LAST && port in env.bindable
    && forall k | k in services && k != key :: services[k].port != port
  }

  /** A record for the key whose process is owned and whose port listens is reused: with its process,
      its port and its live leases, and no longer idle. */
  lemma ListeningServiceIsReused(services: Services, key: Key, env: Env, launch: Launch)
    requires key in services && services[key].process in env.owned && services[key].port in env.listening
    ensures
      var (after, up) := StartService(services, key, env, launch);
      && up && after.Keys == services.Keys && (forall k | k in services && k != key :: after[k] == services[k])
      && after[key] == services[key].(leases := after[key].leases, idleSince := None)
      && (forall id :: id in after[key].leases <==>
            id in services[key].leases && services[key].leases[id].process in env.live)
      && (forall id | id in after[key].leases :: after[key].leases[id] == services[key].leases[id])
  {
    PruneExactly(services[key], env);
  }

  /**
    In every other case the record goes, and the start succeeds exactly when the IDE opens (if it is
    needed), some port is free and the launch comes up: the new record then carries the launched
    process, no leases and the lowest free port.
   */
  lemma OtherServiceIsLaunched(services: Services, key: Key, env: Env, launch: Launch)
    requires !(key in services && services[key].process in env.owned && services[key].port in env.listening)
    ensures
      var (after, up) := StartService(services, key, env, launch);
      && (up <==> launch.Up? && exists port :: PortIsFree(services, key, env, port))
      && (!up ==> after == services - {key})
      && (up ==>
            && key in after && after == services[key := after[key]]
            && after[key] == Service(key.root, key.backend, launch.process, after[key].port, map[], None)
            && PortIsFree(services, key, env, after[key].port)
            && forall port | PORT_FIRST <= port < after[key].port :: !PortIsFree(services, key, env, port))
  {
    var rest := services - {key};
    UsedPortsAreOthers(services, key);
    var free := FreePort(PORT_FIRST, UsedPorts(rest), env);
    if free.Some? {
      assert PortIsFree(services, key, env, free.value);
      if launch.Up? {
        var record := Service(key.root, key.backend, launch.process, free.value, map[], None);
        assert rest[key := record] == services[key := record];
      }
    }
    if key !in services {
      assert rest == services;
    }
  }

  lemma UsedPortsAreOthers(services: Services, key: Key)
    ensures forall port :: port in UsedPorts(services - {key}) <==>
              exists k :: k in services && k != key && services[k].port == port
  {
    var rest := services - {key};
    forall port | port in UsedPorts(rest) ensures exists k :: k in services && k != key && services[k].port == port {
      var k :| k in rest && rest[k].port == port;
      assert k in services && k != key && services[k].port == port;
    }
    forall k | k in services && k != key ensures services[k].port in UsedPorts(rest) {
      assert k in rest;
    }
  }

  // ---------------------------------------------------------------------------------
  // Adoption and admission
  // ---------------------------------------------------------------------------------

  /** The lease is recorded at the root and its process is alive. */
  predicate LiveAt(services: Services, root: string, env: Env, k: Key, id: string) {
    k in services && services[k].root == root && id in services[k].leases && services[k].leases[id].process in env.live
  }

  predicate OwnedByOwner(l: Lease, o: OwnerId) {
    l.owner == Some(o) || (l.owner == None && o == LegacyPid(l.process.pid))
  }

  /** The lease is the host's, or a process-scoped one of exactly its own process, which is a broker
      connection of that host. */
  predicate OfTheHost(l: Lease, o: OwnerId, env: Env) {
    l.owner == Some(o)
    || (l.owner == Some(ManualPid(l.process.pid)) && l.process in env.hosts && env.hosts[l.process] == o)
  }

  lemma MigratableExactly(s: Service, o: OwnerId, env: Env)
    ensures Migratable(Prune(s, env).leases, o, env) <==>
              forall id | id in s.leases && s.leases[id].process in env.live :: OfTheHost(s.leases[id], o, env)
  {
    PruneExactly(s, env);
    var pruned := Prune(s, env).leases;
    assert forall id | id in pruned ::
        (Settled(pruned[id], o) || Adoptable(pruned[id], o, env)) <==> OfTheHost(s.leases[id], o, env);
  }

  lemma LiveBelong(services: Services, root: string, o: OwnerId, env: Env)
    ensures
      var live := PruneRoot(services, root, env);
      (forall k | k in live && live[k].root == root :: Migratable(live[k].leases, o, env)) <==>
        forall k, id | LiveAt(services, root, env, k, id) :: OfTheHost(services[k].leases[id], o, env)
  {
    var live := PruneRoot(services, root, env);
    forall k | k in live && live[k].root == root
      ensures Migratable(live[k].leases, o, env) <==>
                forall id | LiveAt(services, root, env, k, id) :: OfTheHost(services[k].leases[id], o, env)
    {
      MigratableExactly(services[k], o, env);
    }
    assert forall k | k in services && services[k].root == root :: k in live && live[k].root == root;
  }

  lemma LiveCandidates(services: Services, root: string, o: OwnerId, env: Env)
    ensures HasCandidate(PruneRoot(services, root, env), root, o) <==>
              exists k, id :: LiveAt(services, root, env, k, id) && services[k].leases[id].owner != Some(o)
  {
    var live := PruneRoot(services, root, env);
    if HasCandidate(live, root, o) {
      var k, id :| k in live && live[k].root == root && id in live[k].leases && !Settled(live[k].leases[id], o);
      assert LiveAt(services, root, env, k, id);
    }
    if k, id :| LiveAt(services, root, env, k, id) && services[k].leases[id].owner != Some(o) {
      assert id in live[k].leases && !Settled(live[k].leases[id], o);
    }
  }

  /** Migration adopts exactly for a Codex host to which every live lease of the root belongs, if one
      of them is still process-scoped. Every live lease is then recorded as the host's. */
  lemma MigrationExactly(services: Services, order: seq<Key>, root: string, source: Source, o: OwnerId, env: Env)
    requires Covers(order, services)
    ensures
      var (after, adopted) := Migrate(services, order, root, source, o, env);
      && (adopted <==>
            && source == CodexHost
            && (forall k, id | LiveAt(services, root, env, k, id) :: OfTheHost(services[k].leases[id], o, env))
            && (exists k, id :: LiveAt(services, root, env, k, id) && services[k].leases[id].owner != Some(o)))
      && (forall k, id | LiveAt(services, root, env, k, id) ::
            && k in after && id in after[k].leases
            && after[k].leases[id] == (if adopted then services[k].leases[id].(owner := Some(o)) else services[k].leases[id]))
  {
    MigrationDecision(services, order, root, source, o, env);
    MigrationIsAllOrNothing(services, order, root, source, o, env);
    LiveBelong(services, root, o, env);
    LiveCandidates(services, root, o, env);
  }

  /** A live lease of the root in a service whose process looks owned. */
  predicate InView(services: Services, root: string, env: Env, k: Key, id: string) {
    LiveAt(services, root, env, k, id) && services[k].process in env.owned
  }

  lemma ViewExactly(services: Services, root: string, env: Env)
    ensures
      var view := AdmissionView(services, root, env);
      && (forall k, id :: InView(services, root, env, k, id) <==>
            k in view && view[k].root == root && id in view[k].leases)
      && (forall k, id | InView(services, root, env, k, id) :: view[k].leases[id] == services[k].leases[id])
  {
    forall k | k in services
      ensures Prune(Prune(services[k], env), env) == Prune(services[k], env) && PrunedTo(services[k], Prune(services[k], env), env)
    {
      PruneExactly(services[k], env);
      PruneTwice(services[k], env);
    }
  }

  /**
    Who is admitted: a request whose owner owns every live lease of the root in a service that looks
    owned, or one from a Codex host to which all of these belong.
   */
  lemma AdmissionExactly(services: Services, r: Request, env: Env)
    requires Covers(r.order, services)
    ensures Admit(services, r, env).1 <==>
              || (forall k, id | InView(services, r.key.root, env, k, id) :: OwnedByOwner(services[k].leases[id], r.owner))
              || (r.source == CodexHost
                  && forall k, id | InView(services, r.key.root, env, k, id) ::
                       OfTheHost(services[k].leases[id], r.owner, env))
  {
    var root := r.key.root;
    var view := AdmissionView(services, root, env);
    AdmissionDecision(services, r, env);
    ViewExactly(services, root, env);
    assert forall l: Lease :: EffectiveOwner(l) == r.owner <==> OwnedByOwner(l, r.owner);
    assert forall k, id | InView(services, root, env, k, id) ::
        (Settled(view[k].leases[id], r.owner) || Adoptable(view[k].leases[id], r.owner, env))
          <==> OfTheHost(services[k].leases[id], r.owner, env);
  }

  /** Admission keeps every service whose process looks owned, idle or not, with its process and port;
      those of other roots are just pruned. */
  lemma AdmissionKeepsServices(services: Services, r: Request, env: Env, k: Key)
    requires Covers(r.order, services) && k in services
    ensures
      var after := Admit(services, r, env).0;
      && (k in after <==> services[k].process in env.owned)
      && (k in after ==>
            && after[k] == services[k].(leases := after[k].leases, idleSince := after[k].idleSince)
            && (services[k].root != r.key.root ==> PrunedTo(services[k], after[k], env)))
  {
    var cleaned := Cleanup(services, 0, false, env);
    CleanupExactly(services, 0, false, env, k);
    MigrationIsAllOrNothing(cleaned, r.order, r.key.root, r.source, r.owner, env);
  }

  // ---------------------------------------------------------------------------------
  // Connecting
  // ---------------------------------------------------------------------------------

  /** A start of the service can succeed. */
  ghost predicate Startable(services: Services, key: Key, env: Env, launch: Launch) {
    || (key in services && services[key].process in env.owned && services[key].port in env.listening)
    || (launch.Up? && exists port :: PortIsFree(services, key, env, port))
  }

  lemma StartsExactly(services: Services, key: Key, env: Env, launch: Launch)
    ensures StartService(services, key, env, launch).1 <==> Startable(services, key, env, launch)
    ensures key in StartService(services, key, env, launch).0 <==> Startable(services, key, env, launch)
  {
    if key in services && services[key].process in env.owned && services[key].port in env.listening {
      ListeningServiceIsReused(services, key, env, launch);
    } else {
      OtherServiceIsLaunched(services, key, env, launch);
    }
  }

  /** A connect succeeds exactly when it is admitted and its primary service can start; the
      secondary service of a hybrid connect does not decide it. */
  lemma ConnectSucceedsExactly(services: Services, r: Request, env: Env, env1: Env, env2: Env)
    ensures Connect(services, r, env, env1, env2).1 <==>
              Admit(services, r, env).1 && Startable(Admit(services, r, env).0, r.key, env1, r.primary)
  {
    StartsExactly(Admit(services, r, env).0, r.key, env1, r.primary);
  }

  /** A connect that is refused or fails records its lease nowhere. */
  lemma FailedConnectLeasesNothing(services: Services, r: Request, env: Env, env1: Env, env2: Env)
    requires IdleInv(services) && Covers(r.order, services) && NoLease(services, r.lease)
    requires !Connect(services, r, env, env1, env2).1
    ensures NoLease(Connect(services, r, env, env1, env2).0, r.lease)
  {
    AdmitAddsNoLease(services, r, env);
    var admitted := Admit(services, r, env).0;
    StartAddsNoLease(admitted, r.key, env1, r.primary, r.lease, {});
    StartsExactly(admitted, r.key, env1, r.primary);
  }

  /** The state after the primary service of a successful connect has its lease. */
  function WithLease(services: Services, r: Request, env: Env, env1: Env): Services
    requires r.key in StartService(Admit(services, r, env).0, r.key, env1, r.primary).0
  {
    InsertLease(StartService(Admit(services, r, env).0, r.key, env1, r.primary).0, r.key, r.lease,
                Lease(Some(r.owner), r.client))
  }

  /**
    A successful hybrid connect leases its LSP service as well whenever that one can start, and
    otherwise drops its record. No other record but those two is touched after admission.
   */
  lemma HybridLeasesBoth(services: Services, r: Request, env: Env, env1: Env, env2: Env)
    requires r.hybrid && r.key.backend.JetBrains? && Connect(services, r, env, env1, env2).1
    ensures
      var admitted, second := Admit(services, r, env).0, r.key.(backend := Lsp);
      var after := Connect(services, r, env, env1, env2).0;
      && r.key in StartService(admitted, r.key, env1, r.primary).0
      && (second in after <==> Startable(WithLease(services, r, env, env1), second, env2, r.secondary))
      && (second in after ==>
            && r.lease in after[second].leases && after[second].leases[r.lease] == Lease(Some(r.owner), r.client)
            && after[second].idleSince == None)
      && (forall k | k in admitted && k !in {r.key, second} :: k in after && after[k] == admitted[k])
  {
    var admitted, second := Admit(services, r, env).0, r.key.(backend := Lsp);
    StartsExactly(admitted, r.key, env1, r.primary);
    StartSparesOthers(admitted, r.key, env1, r.primary);
    var leased := WithLease(services, r, env, env1);
    StartsExactly(leased, second, env2, r.secondary);
    StartSparesOthers(leased, second, env2, r.secondary);
  }

  // ---------------------------------------------------------------------------------
  // Repair
  // ---------------------------------------------------------------------------------

  /** A dictionary order lists every record once. */
  predicate ListedOnce(order: seq<Key>, services: Services) {
    Covers(order, services) && forall i, j | 0 <= i < j < |order| :: order[i] != order[j]
  }

  /** `k` is the only record of the root. */
  predicate OnlyRecord(services: Services, root: string, k: Key) {
    k in services && forall j | j in services :: services[j].root == root <==> j == k
  }

  /** `a` and `b` are the records of the root, `a` listed first. */
  ghost predicate TwoRecords(services: Services, order: seq<Key>, root: string, a: Key, b: Key) {
    && a in services && b in services && a != b
    && (forall j | j in services :: services[j].root == root <==> j == a || j == b)
    && exists i, j :: 0 <= i < j < |order| && order[i] == a && order[j] == b
  }

  lemma {:induction false} MatchesOfNone(services: Services, order: seq<Key>, root: string)
    requires forall k | k in order && k in services :: services[k].root != root
    ensures MatchesOf(services, order, root) == []
  {
    if order != [] {
      MatchesOfNone(services, order[1..], root);
    }
  }

  lemma {:induction false} MatchesOfOne(services: Services, order: seq<Key>, root: string, k: Key)
    requires k in services && services[k].root == root && k in order
    requires forall j | j in order && j in services && j != k :: services[j].root != root
    requires forall i, j | 0 <= i < j < |order| :: order[i] != order[j]
    ensures MatchesOf(services, order, root) == [k]
  {
    if order[0] == k {
      MatchesOfNone(services, order[1..], root);
    } else {
      MatchesOfOne(services, order[1..], root, k);
    }
  }

  lemma {:induction false} MatchesOfTwo(services: Services, order: seq<Key>, root: string, a: Key, b: Key)
    requires TwoRecords(services, order, root, a, b)
    requires forall i, j | 0 <= i < j < |order| :: order[i] != order[j]
    ensures MatchesOf(services, order, root) == [a, b]
  {
    var i, j :| 0 <= i < j < |order| && order[i] == a && order[j] == b;
    if i == 0 {
      assert order[1..][j - 1] == b;
      MatchesOfOne(services, order[1..], root, b);
    } else {
      assert order[1..][i - 1] == a && order[1..][j - 1] == b;
      MatchesOfTwo(services, order[1..], root, a, b);
    }
  }

  lemma {:induction false} MatchesAreComplete(services: Services, order: seq<Key>, root: string)
    ensures forall k | k in services && services[k].root == root && k in order :: k in MatchesOf(services, order, root)
  {
    if order != [] {
      MatchesAreComplete(services, order[1..], root);
    }
  }

  /** Repair refuses a root with more than two records. */
  lemma RepairOfManyIsRefused(services: Services, order: seq<Key>, root: string, env: Env, a: Key, b: Key, c: Key)
    requires ListedOnce(order, services) && a != b && b != c && a != c
    requires forall k | k in {a, b, c} :: k in services && services[k].root == root
    ensures RepairRoot(services, order, root, env) == RepairResult(services, Protected("ambiguous-services"), {})
  {
    var matches := MatchesOf(services, order, root);
    MatchesAreComplete(services, order, root);
    assert a in matches && b in matches && c in matches;
    var i :| 0 <= i < |matches| && matches[i] == a;
    var j :| 0 <= j < |matches| && matches[j] == b;
    var k :| 0 <= k < |matches| && matches[k] == c;
    assert |matches| > 2;
  }

  predicate Answers(s: Service, env: Env) {
    s.process in env.owned && s.port in env.listening
  }

  /** Repair of a root without a record, or with two that are no pair, changes nothing. */
  lemma RepairLeavesAlone(services: Services, order: seq<Key>, root: string, env: Env)
    requires ListedOnce(order, services)
    ensures (forall k | k in services :: services[k].root != root) ==>
              RepairRoot(services, order, root, env) == RepairResult(services, Unchanged("no-record"), {})
    ensures forall a, b | TwoRecords(services, order, root, a, b) && services[a].backend == services[b].backend ::
              RepairRoot(services, order, root, env) == RepairResult(services, Protected("ambiguous-services"), {})
  {
    if forall k | k in services :: services[k].root != root {
      MatchesOfNone(services, order, root);
    }
    forall a, b | TwoRecords(services, order, root, a, b) && services[a].backend == services[b].backend
      ensures RepairRoot(services, order, root, env) == RepairResult(services, Protected("ambiguous-services"), {})
    {
      MatchesOfTwo(services, order, root, a, b);
      var backends := {services[a].backend, services[b].backend};
      assert backends == {services[a].backend};
      assert JetBrains in {JetBrains, Lsp} && Lsp in {JetBrains, Lsp};
    }
  }

  /** The unhealthy records of a list with one key: what is left, the answer, and what is signalled. */
  lemma DropLast(services: Services, k: Key, env: Env)
    requires k in services
    ensures DropUnhealthy(services, [k], env) ==
            if Answers(services[k], env) then RepairResult(services, Repaired("repaired-services"), {})
            else if services[k].process !in env.owned then
              RepairResult(services - {k}, Repaired("repaired-services"), {})
            else if services[k].process in env.vanishing then RepairResult(services, Protected("stop-failed"), {})
            else RepairResult(services - {k}, Repaired("repaired-services"), {k})
  {
    assert [k][1..] == [];
    assert DropUnhealthy(services - {k}, [], env) == RepairResult(services - {k}, Repaired("repaired-services"), {});
    assert {} + {k} == {k};
  }

  lemma FindLeaseOfOne(services: Services, k: Key, env: Env)
    requires k in services
    ensures FindLease(services, [k], env) == (services[k := Prune(services[k], env)], !NoLiveLease(services[k], env))
  {
    PruneExactly(services[k], env);
    assert [k][1..] == [];
  }

  /**
    Repair of a root with one record: protected while it has a live lease, unchanged while it
    answers; otherwise stopped and dropped if its process is owned, unless that vanishes first, and
    dropped as stale if it is not.
   */
  lemma RepairOfOne(services: Services, order: seq<Key>, root: string, env: Env, k: Key)
    requires ListedOnce(order, services) && OnlyRecord(services, root, k)
    ensures
      var s, result := services[k], RepairRoot(services, order, root, env);
      if !NoLiveLease(s, env) then result == RepairResult(services[k := Prune(s, env)], Protected("live-lease"), {})
      else if Answers(s, env) then result == RepairResult(services[k := Prune(s, env)], Unchanged("healthy-service"), {})
      else if s.process !in env.owned then
        result == RepairResult(services - {k}, Repaired("removed-stale-record"), {})
      else if s.process in env.vanishing then
        result == RepairResult(services[k := Prune(s, env)], Protected("stop-failed"), {})
      else result == RepairResult(services - {k}, Repaired("stopped-unhealthy-service"), {k})
  {
    var pruned := services[k := Prune(services[k], env)];
    MatchesOfOne(services, order, root, k);
    FindLeaseOfOne(services, k, env);
    DropLast(pruned, k, env);
    assert pruned - {k} == services - {k};
  }

  /** The same for two keys. */
  lemma DropTwo(services: Services, a: Key, b: Key, env: Env)
    requires a in services && b in services && a != b
    ensures DropUnhealthy(services, [a, b], env) ==
            if Answers(services[a], env) then DropUnhealthy(services, [b], env)
            else if services[a].process !in env.owned then DropUnhealthy(services - {a}, [b], env)
            else if services[a].process in env.vanishing then RepairResult(services, Protected("stop-failed"), {})
            else
              var rest := DropUnhealthy(services - {a}, [b], env);
              rest.(signals := rest.signals + {a})
  {
    assert [a, b][1..] == [b];
    var rest := DropUnhealthy(services - {a}, [b], env);
    assert rest.signals + {} == rest.signals;
  }

  /** A stop of the record would fail. */
  predicate Unstoppable(s: Service, env: Env) {
    !Answers(s, env) && s.process in env.owned && s.process in env.vanishing
  }

  function UnhealthyOf(services: Services, keys: set<Key>, env: Env): set<Key> {
    set k | k in keys && k in services && !Answers(services[k], env)
  }

  function OwnedOf(services: Services, keys: set<Key>, env: Env): set<Key> {
    set k | k in keys && k in services && services[k].process in env.owned
  }

  /** The records that a pair of them loses: those that do not answer, up to the first unstoppable one. */
  function DroppedOf(services: Services, a: Key, b: Key, env: Env): set<Key>
    requires a in services && b in services
  {
    UnhealthyOf(services, if Unstoppable(services[a], env) then {}
                          else if Unstoppable(services[b], env) then {a} else {a, b}, env)
  }

  lemma SameDropped(services: Services, pruned: Services, a: Key, b: Key, env: Env)
    requires pruned.Keys == services.Keys && a in services && b in services
    requires forall k | k in services :: pruned[k].process == services[k].process && pruned[k].port == services[k].port
    ensures DroppedOf(pruned, a, b, env) == DroppedOf(services, a, b, env)
    ensures OwnedOf(pruned, DroppedOf(services, a, b, env), env) == OwnedOf(services, DroppedOf(services, a, b, env), env)
  {
  }

  lemma DropPairExactly(services: Services, a: Key, b: Key, env: Env)
    requires a in services && b in services && a != b
    ensures
      var result := DropUnhealthy(services, [a, b], env);
      var dropped := DroppedOf(services, a, b, env);
      && result.services == services - dropped
      && result.signals == OwnedOf(services, dropped, env)
      && result.outcome == (if Unstoppable(services[a], env) || Unstoppable(services[b], env)
                            then Protected("stop-failed") else Repaired("repaired-services"))
  {
    DropTwo(services, a, b, env);
    DropLast(services, b, env);
    DropLast(services - {a}, b, env);
    assert services - {a} - {b} == services - {a, b};
  }

  lemma FindLeaseOfTwo(services: Services, a: Key, b: Key, env: Env)
    requires a in services && b in services && a != b
    ensures
      var pruned := services[a := Prune(services[a], env)];
      FindLease(services, [a, b], env)
        == (if NoLiveLease(services[a], env) then (pruned[b := Prune(services[b], env)], !NoLiveLease(services[b], env))
            else (pruned, true))
  {
    var pruned := services[a := Prune(services[a], env)];
    PruneExactly(services[a], env);
    FindLeaseOfOne(pruned, b, env);
    assert [a, b][1..] == [b];
    assert pruned[b] == services[b];
  }

  lemma RepairOfPairOfMatches(services: Services, order: seq<Key>, root: string, env: Env, a: Key, b: Key)
    requires MatchesOf(services, order, root) == [a, b] && a in services && b in services
    requires services[a].backend != services[b].backend
    ensures
      var (pruned, leased) := FindLease(services, [a, b], env);
      RepairRoot(services, order, root, env)
        == if leased then RepairResult(pruned, Protected("live-lease"), {})
           else if Answers(pruned[a], env) && Answers(pruned[b], env) then
             RepairResult(pruned, Unchanged("healthy-services"), {})
           else DropUnhealthy(pruned, [a, b], env)
  {
    assert {services[a].backend, services[b].backend} == {JetBrains, Lsp};
    assert [a, b][0] == a && [a, b][1] == b;
    assert forall k :: k in [a, b] <==> k == a || k == b;
  }

  /**
    Repair of a root with a JetBrains and an LSP record: protected while either has a live lease,
    unchanged while both answer. Otherwise the records that do not answer are dropped in order, and
    those with an owned process signalled, up to the first that cannot be stopped.
   */
  lemma RepairOfTwo(services: Services, order: seq<Key>, root: string, env: Env, a: Key, b: Key)
    requires ListedOnce(order, services) && TwoRecords(services, order, root, a, b)
    requires services[a].backend != services[b].backend
    ensures
      var result := RepairRoot(services, order, root, env);
      var pruned := services[a := Prune(services[a], env)][b := Prune(services[b], env)];
      if !NoLiveLease(services[a], env) || !NoLiveLease(services[b], env) then
        result.outcome == Protected("live-lease") && result.signals == {} && result.services.Keys == services.Keys
      else if Answers(services[a], env) && Answers(services[b], env) then
        result == RepairResult(pruned, Unchanged("healthy-services"), {})
      else
        var dropped := DroppedOf(services, a, b, env);
        && result.services == pruned - dropped
        && result.signals == OwnedOf(services, dropped, env)
        && result.outcome == (if Unstoppable(services[a], env) || Unstoppable(services[b], env)
                              then Protected("stop-failed") else Repaired("repaired-services"))
  {
    MatchesOfTwo(services, order, root, a, b);
    RepairOfPairOfMatches(services, order, root, env, a, b);
    FindLeaseOfTwo(services, a, b, env);
    var pruned := services[a := Prune(services[a], env)][b := Prune(services[b], env)];
    DropPairExactly(pruned, a, b, env);
    SameDropped(services, pruned, a, b, env);
  }
}
