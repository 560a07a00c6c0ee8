/**
  `services.json` as the broker rewrites it under its lock: the loops of the locked sections,
  each proved equal to the section's function.
 */
module BrokerFile {
  import opened Wrappers
  import opened Broker
  import opened BrokerSafety

  /** The loop of `_prune_dead_leases`. */
  method PruneDeadLeases(s: Service, env: Env) returns (pruned: Service)
    ensures pruned == Prune(s, env)
  {
    var leases := s.leases;
    var todo := s.leases.Keys;
    while todo != {}
      invariant todo <= leases.Keys
      invariant forall id :: id in leases <==> id in s.leases && (id in todo || s.leases[id].process in env.live)
      invariant forall id | id in leases :: leases[id] == s.leases[id]
      decreases |todo|
    {
      var id :| id in todo;
      todo := todo - {id};
      if leases[id].process !in env.live { leases := leases - {id}; }
    }
    assert leases == LiveLeases(s.leases, env.live);
    pruned := s.(leases := leases);
    if leases == map[] && s.idleSince == None { pruned := pruned.(idleSince := Some(env.now)); }
  }

  /** `_free_port`: the lowest port of the range that is neither recorded nor taken. */
  method FindFreePort(used: set<int>, env: Env) returns (port: Option<int>)
    ensures port == FreePort(PORT_FIRST, used, env)
  {
    for p := PORT_FIRST to PORT_LAST + 1
      invariant FreePort(PORT_FIRST, used, env) == FreePort(p, used, env)
    {
      if p in used { continue; }
      if p !in env.bindable { continue; }
      return Some(p);
    }
    port := None;
  }

  lemma ProgressStep(before: Services, now: Services, seen: set<Key>, root: string, env: Env, k: Key)
    requires Progress(before, now, seen, root, env) && k in before && before[k].root == root
    ensures Progress(before, now[k := Prune(now[k], env)], seen + {k}, root, env)
    ensures Prune(now[k], env) == Prune(before[k], env)
    ensures forall j | j in seen :: now[k := Prune(now[k], env)][j] == now[j]
  {
    PruneTwice(before[k], env);
  }

  /** The turn of the scan for one key. */
  lemma ScanTurn(state: Services, k: Key, rest: seq<Key>, root: string, o: OwnerId, env: Env)
    ensures Scan(state, [k] + rest, root, o, env)
      == if k !in state || state[k].root != root then Scan(state, rest, root, o, env)
         else if Migratable(Prune(state[k], env).leases, o, env)
         then Scan(state[k := Prune(state[k], env)], rest, root, o, env)
         else (state[k := Prune(state[k], env)], false)
  {
    assert ([k] + rest)[1..] == rest;
  }

  /** The first loop of `_migrate_legacy_host_leases`: prune and examine record by record. */
  method ScanRecords(services: Services, order: seq<Key>, root: string, o: OwnerId, env: Env)
    returns (state: Services, ok: bool, candidate: bool)
    requires Covers(order, services)
    ensures (state, ok) == Scan(services, order, root, o, env)
    ensures ok ==> (candidate <==> exists k :: k in state && state[k].root == root && Unsettled(state[k], o))
  {
    state, candidate := services, false;
    ghost var seen: set<Key> := {};
    for i := 0 to |order|
      invariant Progress(services, state, seen, root, env)
      invariant forall k | k in services && services[k].root == root && k !in seen :: k in order[i..]
      invariant Scan(state, order[i..], root, o, env) == Scan(services, order, root, o, env)
      invariant candidate <==> exists k :: k in seen && Unsettled(state[k], o)
    {
      var k := order[i];
      assert order[i..] == [k] + order[i + 1..];
      ScanTurn(state, k, order[i + 1..], root, o, env);
      if k in state && state[k].root == root {
        ProgressStep(services, state, seen, root, env, k);
        var s := PruneDeadLeases(state[k], env);
        state := state[k := s];
        seen := seen + {k};
        if !Migratable(s.leases, o, env) { return state, false, false; }
        if Unsettled(s, o) { candidate := true; }
      }
    }
    ok := true;
  }

  /** One turn of the loop of `_root_owners`. */
  method VisitRecord(record: Service, root: string, env: Env) returns (s: Service, owners: set<OwnerId>)
    ensures s == if record.root == root then Prune(record, env) else record
    ensures forall o :: o in owners <==> OwnsIn(s, root, o)
  {
    if record.root != root { return record, {}; }
    s := PruneDeadLeases(record, env);
    owners := set id | id in s.leases :: EffectiveOwner(s.leases[id]);
  }

  /** The loop of `_root_owners` over all records. */
  method CollectOwners(services: Services, root: string, env: Env) returns (state: Services, owners: set<OwnerId>)
    ensures state == PruneRoot(services, root, env)
    ensures Collected(state, {}, root, owners)
  {
    var todo := services.Keys;
    state, owners := services, {};
    while todo != {}
      invariant todo <= services.Keys == state.Keys
      invariant forall k | k in todo :: state[k] == services[k]
      invariant forall k | k in services && k !in todo ::
        state[k] == if services[k].root == root then Prune(services[k], env) else services[k]
      invariant Collected(state, todo, root, owners)
      decreases |todo|
    {
      var k :| k in todo;
      var s, more := VisitRecord(state[k], root, env);
      CollectedOneMore(state, todo, root, owners, k, s, more);
      todo, state, owners := todo - {k}, state[k := s], owners + more;
    }
  }

  /** One turn of the loop of `_cleanup_state`: whether the record stays and its service is stopped. */
  method CleanupRecord(record: Service, idleSeconds: int, stopIdle: bool, env: Env)
    returns (s: Service, keep: bool, stop: bool)
    ensures s == Prune(record, env)
    ensures keep <==> CleanupKeeps(record, idleSeconds, stopIdle, env)
    ensures stop <==> record.process in env.owned && CleanupStops(record, idleSeconds, stopIdle, env)
  {
    s := PruneDeadLeases(record, env);
    if s.process !in env.owned { return s, false, false; }
    if s.leases != map[] || !stopIdle { return s, true, false; }
    if s.idleSince == None || env.now - s.idleSince.value < idleSeconds { return s, true, false; }
    if s.process in env.vanishing { return s, true, false; }
    return s, false, true;
  }

  class StateFile {
    var services: Services

    constructor ()
      ensures services == map[]
    {
      services := map[];
    }

    /** The loop of `_cleanup_state`. */
    method CleanupState(idleSeconds: int, stopIdle: bool, env: Env) returns (signals: set<Key>)
      modifies this
      ensures services == Cleanup(old(services), idleSeconds, stopIdle, env)
      ensures signals == CleanupSignals(old(services), idleSeconds, stopIdle, env)
    {
      var todo := services.Keys;
      signals := {};
      while todo != {}
        invariant todo <= services.Keys <= old(services).Keys
        invariant forall k | k in todo :: services[k] == old(services)[k]
        invariant forall k | k in old(services) && k !in todo ::
          (k in services <==> CleanupKeeps(old(services)[k], idleSeconds, stopIdle, env))
          && (k in services ==> services[k] == Prune(old(services)[k], env))
          && (k in signals <==> CleanupStops(old(services)[k], idleSeconds, stopIdle, env))
        invariant signals <= old(services).Keys - todo
        decreases |todo|
      {
        var k :| k in todo;
        todo := todo - {k};
        var s, keep, stop := CleanupRecord(services[k], idleSeconds, stopIdle, env);
        services := if keep then services[k := s] else services - {k};
        if stop { signals := signals + {k}; }
      }
    }

    /** `_root_owners`: prunes the records of the root and collects the owners of what is left. */
    method RootOwners(root: string, env: Env) returns (owners: set<OwnerId>)
      modifies this
      ensures services == PruneRoot(old(services), root, env)
      ensures owners == RecordedOwners(services, root)
    {
      services, owners := CollectOwners(services, root, env);
    }

    /** `_assert_root_owner`. */
    method AssertRootOwner(root: string, o: OwnerId, env: Env) returns (allowed: bool)
      modifies this
      ensures services == PruneRoot(old(services), root, env)
      ensures allowed <==> OwnerAllowed(old(services), root, o, env)
    {
      var owners := RootOwners(root, env);
      allowed := owners == {} || owners == {o};
    }

    /** `_start_service`. */
    method Start(key: Key, env: Env, launch: Launch) returns (up: bool)
      modifies this
      ensures (services, up) == StartService(old(services), key, env, launch)
    {
      if key in services {
        var s := PruneDeadLeases(services[key], env);
        services := services[key := s];
        if s.process in env.owned && s.port in env.listening {
          services := services[key := s.(idleSince := None)];
          assert services == old(services)[key := s.(idleSince := None)];
          return true;
        }
        services := services - {key};
        assert services == old(services) - {key};
      }
      if key.backend.JetBrains? && launch.OpenerFails? { return false; }
      var port := FindFreePort(UsedPorts(services), env);
      if port == None || !launch.Up? { return false; }
      services := services[key := Service(key.root, key.backend, launch.process, port.value, map[], None)];
      up := true;
    }

    /** `_migrate_legacy_host_leases`: adopt only after every record of the root has passed. */
    method MigrateLegacy(order: seq<Key>, root: string, source: Source, o: OwnerId, env: Env) returns (adopted: bool)
      requires Covers(order, services)
      modifies this
      ensures (services, adopted) == Migrate(old(services), order, root, source, o, env)
    {
      if source != CodexHost { return false; }
      var ok, candidate;
      services, ok, candidate := ScanRecords(services, order, root, o, env);
      if !ok || !candidate { return false; }
      services := map k | k in services ::
        if services[k].root == root then services[k].(leases := Adopt(services[k].leases, o)) else services[k];
      adopted := true;
    }

    /** The locked section of `_connect`. */
    method ConnectSection(r: Request, env: Env, env1: Env, env2: Env) returns (ok: bool)
      requires Covers(r.order, services)
      modifies this
      ensures (services, ok) == Connect(old(services), r, env, env1, env2)
    {
      var _ := CleanupState(0, false, env);
      var _ := MigrateLegacy(r.order, r.key.root, r.source, r.owner, env);
      var allowed := AssertRootOwner(r.key.root, r.owner, env);
      if !allowed { return false; }
      var up := Start(r.key, env1, r.primary);
      if !up || r.key !in services { return false; }
      var lease := Lease(Some(r.owner), r.client);
      services := InsertLease(services, r.key, r.lease, lease);
      if r.hybrid {
        var second := r.key.(backend := Lsp);
        var up2 := Start(second, env2, r.secondary);
        if up2 && second in services { services := InsertLease(services, second, r.lease, lease); }
      }
      ok := true;
    }

    /** The lease cleanup after the proxy has exited: the keys leased by this connection, in turn. */
    method DisconnectSection(keys: seq<Key>, id: string, env: Env)
      requires forall i, j | 0 <= i < j < |keys| :: keys[i] != keys[j]
      modifies this
      ensures services == Disconnect(old(services), (set k | k in keys), id, env)
    {
      for i := 0 to |keys|
        invariant services.Keys == old(services).Keys
        invariant forall k | k in services ::
          services[k] == (if k in keys[..i] then Prune(old(services)[k].(leases := old(services)[k].leases - {id}), env)
                          else old(services)[k])
      {
        var k := keys[i];
        assert k !in keys[..i] && keys[..i + 1] == keys[..i] + [k];
        if k in services {
          var s := PruneDeadLeases(services[k].(leases := services[k].leases - {id}), env);
          services := services[k := s];
        }
      }
      assert keys[..|keys|] == keys;
      assert services == Disconnect(old(services), (set k | k in keys), id, env);
    }

    /** The lease loop of `_repair_root_state`: stop at the first record that keeps a live lease. */
    method PruneUntilLeased(matches: seq<Key>, env: Env) returns (leased: bool)
      requires forall k | k in matches :: k in services
      modifies this
      ensures (services, leased) == FindLease(old(services), matches, env)
    {
      for i := 0 to |matches|
        invariant services.Keys == old(services).Keys
        invariant FindLease(services, matches[i..], env) == FindLease(old(services), matches, env)
      {
        var k := matches[i];
        assert matches[i..] == [k] + matches[i + 1..];
        var s := PruneDeadLeases(services[k], env);
        services := services[k := s];
        if s.leases != map[] { return true; }
      }
      leased := false;
    }

    /** The repair loop: stop or drop the unhealthy records in turn. */
    method DropRecords(matches: seq<Key>, env: Env) returns (outcome: Repair, signals: set<Key>)
      modifies this
      ensures RepairResult(services, outcome, signals) == DropUnhealthy(old(services), matches, env)
    {
      outcome, signals := Repaired("repaired-services"), {};
      for i := 0 to |matches|
        invariant var rest := DropUnhealthy(services, matches[i..], env);
          DropUnhealthy(old(services), matches, env) == rest.(signals := signals + rest.signals)
      {
        var k := matches[i];
        assert matches[i..] == [k] + matches[i + 1..];
        if k !in services || Healthy(services[k], env) { continue; }
        if services[k].process in env.owned {
          if services[k].process in env.vanishing { return Protected("stop-failed"), signals; }
          signals := signals + {k};
        }
        services := services - {k};
      }
    }

    /** `_repair_root_state`. */
    method RepairRootSection(order: seq<Key>, root: string, env: Env) returns (outcome: Repair, signals: set<Key>)
      modifies this
      ensures RepairResult(services, outcome, signals) == RepairRoot(old(services), order, root, env)
    {
      var matches := MatchesOf(services, order, root);
      MatchesAreRecorded(services, order, root);
      if matches == [] { return Unchanged("no-record"), {}; }
      if |matches| > 1 && !Pair(services, matches) { return Protected("ambiguous-services"), {}; }
      var leased := PruneUntilLeased(matches, env);
      if leased { return Protected("live-lease"), {}; }
      if forall k | k in matches :: Healthy(services[k], env) {
        return Unchanged(if |matches| > 1 then "healthy-services" else "healthy-service"), {};
      }
      var stops := services[matches[0]].process in env.owned;
      outcome, signals := DropRecords(matches, env);
      if outcome.Repaired? && |matches| == 1 {
        outcome := Repaired(if stops then "stopped-unhealthy-service" else "removed-stale-record");
      }
    }
  }

  /** Some lease still has to be adopted. */
  predicate Unsettled(s: Service, o: OwnerId) {
    exists id :: id in s.leases && !Settled(s.leases[id], o)
  }

  /** `o` owns a lease of a record of `root`. */
  predicate OwnsIn(s: Service, root: string, o: OwnerId) {
    s.root == root && exists id :: id in s.leases && EffectiveOwner(s.leases[id]) == o
  }

  /** These are the owners of the leases of the root in the records that are not to come. */
  ghost predicate Collected(services: Services, todo: set<Key>, root: string, owners: set<OwnerId>) {
    forall o :: o in owners <==> exists k :: k in services && k !in todo && OwnsIn(services[k], root, o)
  }

  lemma CollectedOneMore(services: Services, todo: set<Key>, root: string, owners: set<OwnerId>, k: Key, s: Service,
                         more: set<OwnerId>)
    requires Collected(services, todo, root, owners) && k in todo && k in services
    requires forall o :: o in more <==> OwnsIn(s, root, o)
    ensures Collected(services[k := s], todo - {k}, root, owners + more)
  {
    var after := services[k := s];
    forall o ensures o in owners + more <==> exists j :: j in after && j !in todo - {k} && OwnsIn(after[j], root, o) {
      if o in owners {
        var j :| j in services && j !in todo && OwnsIn(services[j], root, o);
        assert OwnsIn(after[j], root, o);
      }
      if o in more {
        assert OwnsIn(after[k], root, o);
      }
    }
  }

  /** The scan so far: the records seen are pruned, the others as before. */
  ghost predicate Progress(before: Services, now: Services, seen: set<Key>, root: string, env: Env) {
    && now.Keys == before.Keys
    && (forall k | k in seen :: k in before && before[k].root == root)
    && (forall k | k in before :: now[k] == if k in seen then Prune(before[k], env) else before[k])
  }
}
