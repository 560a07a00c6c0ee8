/**
  What every section of the broker keeps: one owner per root, distinct ports in range, and no
  lease behind a set idle timestamp. Refused connects are included, since the partly changed
  state is written back.
 */
module BrokerSafety {
  import opened Wrappers
  import opened Broker

  ghost predicate KeysInv(services: Services) {
    forall k | k in services :: services[k].root == k.root && services[k].backend == k.backend
  }

  ghost predicate PortsInv(services: Services) {
    && (forall k | k in services :: PORT_FIRST <= services[k].port <= PORT_LAST)
    && (forall j, k | j in services && k in services && j != k :: services[j].port != services[k].port)
  }

  ghost predicate IdleInv(services: Services) {
    forall k | k in services && services[k].idleSince.Some? :: services[k].leases == map[]
  }

  /** All leases recorded for one root, across its services and backends, carry one owner. */
  ghost predicate SingleOwner(services: Services) {
    forall root: string {:trigger HasOwner(services, root)} :: HasOwner(services, root)
  }

  ghost predicate HasOwner(services: Services, root: string) {
    exists o :: OwnedBy(services, root, o)
  }

  ghost predicate Inv(services: Services) {
    KeysInv(services) && PortsInv(services) && IdleInv(services) && SingleOwner(services)
  }

  // ---------------------------------------------------------------------------------
  // Sections that only shrink the records: pruning, cleanup, disconnect, repair
  // ---------------------------------------------------------------------------------

  /** Same records or fewer, each with the same identity and a part of its leases. */
  ghost predicate Shrinks(before: Services, after: Services) {
    forall k | k in after ::
      && k in before
      && after[k].root == before[k].root && after[k].backend == before[k].backend
      && after[k].port == before[k].port && after[k].process == before[k].process
      && (forall id | id in after[k].leases :: id in before[k].leases && after[k].leases[id] == before[k].leases[id])
      && (after[k].idleSince.Some? ==> after[k].leases == map[])
  }

  lemma ShrinksKeepsInv(before: Services, after: Services)
    requires Inv(before) && Shrinks(before, after)
    ensures Inv(after)
  {
    forall root: string ensures HasOwner(after, root) {
      assert HasOwner(before, root);
      var o :| OwnedBy(before, root, o);
      assert OwnedBy(after, root, o);
    }
  }

  lemma ShrinksTransitive(a: Services, b: Services, c: Services)
    requires Shrinks(a, b) && Shrinks(b, c)
    ensures Shrinks(a, c)
  {
  }

  lemma PruneShrinks(s: Service, env: Env)
    requires s.idleSince.Some? ==> s.leases == map[]
    ensures Prune(s, env).idleSince.Some? ==> Prune(s, env).leases == map[]
  {
  }

  lemma {:induction false} FindLeaseShrinks(services: Services, matches: seq<Key>, env: Env)
    requires IdleInv(services) && forall k | k in matches :: k in services
    ensures Shrinks(services, FindLease(services, matches, env).0)
  {
    if matches != [] {
      var pruned := services[matches[0] := Prune(services[matches[0]], env)];
      PruneShrinks(services[matches[0]], env);
      FindLeaseShrinks(pruned, matches[1..], env);
    }
  }

  lemma {:induction false} DropUnhealthyShrinks(services: Services, matches: seq<Key>, env: Env)
    requires IdleInv(services)
    ensures Shrinks(services, DropUnhealthy(services, matches, env).services)
  {
    if matches != [] {
      DropUnhealthyShrinks(services, matches[1..], env);
      DropUnhealthyShrinks(services - {matches[0]}, matches[1..], env);
    }
  }

  lemma RepairShrinks(services: Services, order: seq<Key>, root: string, env: Env)
    requires IdleInv(services)
    ensures Shrinks(services, RepairRoot(services, order, root, env).services)
  {
    var matches := MatchesOf(services, order, root);
    MatchesAreRecorded(services, order, root);
    FindLeaseShrinks(services, matches, env);
    var pruned := FindLease(services, matches, env).0;
    DropUnhealthyShrinks(pruned, matches, env);
    ShrinksTransitive(services, pruned, DropUnhealthy(pruned, matches, env).services);
  }

  // ---------------------------------------------------------------------------------
  // Migration is all-or-nothing
  // ---------------------------------------------------------------------------------

  /** Each key of the records occurs in the dictionary order. */
  predicate Covers(order: seq<Key>, services: Services) {
    forall k | k in services :: k in order
  }

  /** The scan prunes some records of the root and changes nothing else. */
  ghost predicate Pruned(before: Services, after: Services, root: string, env: Env) {
    && after.Keys == before.Keys
    && (forall k | k in before :: after[k] == before[k] || (before[k].root == root && after[k] == Prune(before[k], env)))
  }

  lemma PruneTwice(s: Service, env: Env)
    ensures Prune(Prune(s, env), env) == Prune(s, env)
  {
  }

  lemma {:induction false} ScanPrunes(services: Services, order: seq<Key>, root: string, o: OwnerId, env: Env)
    ensures
      var (scanned, ok) := Scan(services, order, root, o, env);
      && Pruned(services, scanned, root, env)
      && (ok ==> forall k | k in order && k in services && services[k].root == root ::
            scanned[k] == Prune(services[k], env) && Migratable(scanned[k].leases, o, env))
  {
    if order != [] {
      var k := order[0];
      if k !in services || services[k].root != root {
        ScanPrunes(services, order[1..], root, o, env);
      } else {
        PruneTwice(services[k], env);
        ScanPrunes(services[k := Prune(services[k], env)], order[1..], root, o, env);
      }
    }
  }

  /** `after` differs from `before` at most in pruned leases of `root` and, with `adopted`, in
      the owner of its remaining leases, which then is `o`. */
  ghost predicate MigrationEffect(before: Services, after: Services, root: string, o: OwnerId, env: Env, adopted: bool) {
    && after.Keys == before.Keys
    && (forall k | k in before && before[k].root != root :: after[k] == before[k])
    && (forall k | k in before && before[k].root == root ::
          && after[k] == before[k].(leases := after[k].leases, idleSince := after[k].idleSince)
          && (forall id | id in after[k].leases ::
                && id in before[k].leases
                && after[k].leases[id].process == before[k].leases[id].process
                && (if adopted
                    then after[k].leases[id].owner == Some(o)
                         && (Settled(before[k].leases[id], o) || Adoptable(before[k].leases[id], o, env))
                    else after[k].leases[id] == before[k].leases[id]))
          && (forall id | id in before[k].leases && id !in after[k].leases :: before[k].leases[id].process !in env.live))
  }

  /**
    Migration is all-or-nothing. Returning false changes no owner; returning true changes only
    the owner field of adoptable leases of that root. Either way no lease is added, only dead
    ones are dropped, and other roots are untouched.
   */
  lemma MigrationIsAllOrNothing(services: Services, order: seq<Key>, root: string, source: Source, o: OwnerId, env: Env)
    requires Covers(order, services)
    ensures
      var (after, adopted) := Migrate(services, order, root, source, o, env);
      MigrationEffect(services, after, root, o, env, adopted)
  {
    ScanPrunes(services, order, root, o, env);
  }

  /** After a successful migration every lease of the root is the host's, so the ownership
      assertion that follows accepts it. */
  lemma MigrationSatisfiesAssertion(services: Services, order: seq<Key>, root: string, source: Source, o: OwnerId, env: Env)
    requires Covers(order, services) && Migrate(services, order, root, source, o, env).1
    ensures OwnedBy(Migrate(services, order, root, source, o, env).0, root, o)
    ensures OwnerAllowed(Migrate(services, order, root, source, o, env).0, root, o, env)
  {
    var after := Migrate(services, order, root, source, o, env).0;
    MigrationIsAllOrNothing(services, order, root, source, o, env);
    assert OwnedBy(after, root, o);
    assert OwnedBy(PruneRoot(after, root, env), root, o);
    OwnersDecideOwnership(PruneRoot(after, root, env), root, o);
  }

  /** A successful migration has adopted something. */
  lemma MigrationAdopts(services: Services, order: seq<Key>, root: string, source: Source, o: OwnerId, env: Env)
    requires Covers(order, services) && Migrate(services, order, root, source, o, env).1
    ensures source == CodexHost
    ensures exists k, id ::
      && k in services && services[k].root == root && id in services[k].leases
      && !Settled(services[k].leases[id], o) && Adoptable(services[k].leases[id], o, env)
  {
    ScanPrunes(services, order, root, o, env);
    var scanned := Scan(services, order, root, o, env).0;
    var k, id :| k in scanned && scanned[k].root == root && id in scanned[k].leases && !Settled(scanned[k].leases[id], o);
    assert id in services[k].leases && services[k].leases[id] == scanned[k].leases[id];
  }

  /** Migration returns false exactly when the source is no host, when a live lease of the root is
      neither the host's nor adoptable, or when there is nothing to adopt. */
  lemma MigrationDecision(services: Services, order: seq<Key>, root: string, source: Source, o: OwnerId, env: Env)
    requires Covers(order, services)
    ensures
      var live := PruneRoot(services, root, env);
      Migrate(services, order, root, source, o, env).1 <==>
        && source == CodexHost
        && (forall k | k in live && live[k].root == root :: Migratable(live[k].leases, o, env))
        && HasCandidate(live, root, o)
  {
    var live := PruneRoot(services, root, env);
    var (scanned, ok) := Scan(services, order, root, o, env);
    ScanPrunes(services, order, root, o, env);
    ScanRejects(services, order, root, o, env);
    if ok {
      assert scanned == live;
    } else if source == CodexHost {
      var k :| k in services && services[k].root == root && !Migratable(Prune(services[k], env).leases, o, env);
      assert k in live && live[k] == Prune(services[k], env);
    }
  }

  lemma {:induction false} ScanRejects(services: Services, order: seq<Key>, root: string, o: OwnerId, env: Env)
    ensures !Scan(services, order, root, o, env).1 ==>
      exists k :: k in services && services[k].root == root && !Migratable(Prune(services[k], env).leases, o, env)
  {
    if order != [] {
      var k := order[0];
      if k !in services || services[k].root != root {
        ScanRejects(services, order[1..], root, o, env);
      } else if Migratable(Prune(services[k], env).leases, o, env) {
        var pruned := services[k := Prune(services[k], env)];
        ScanRejects(pruned, order[1..], root, o, env);
        if !Scan(pruned, order[1..], root, o, env).1 {
          var j :| j in pruned && pruned[j].root == root && !Migratable(Prune(pruned[j], env).leases, o, env);
          PruneTwice(services[k], env);
          assert j in services && !Migratable(Prune(services[j], env).leases, o, env);
        }
      }
    }
  }

  // ---------------------------------------------------------------------------------
  // Connect
  // ---------------------------------------------------------------------------------

  lemma MigrateKeepsIdle(services: Services, order: seq<Key>, root: string, source: Source, o: OwnerId, env: Env)
    requires IdleInv(services)
    ensures IdleInv(Migrate(services, order, root, source, o, env).0)
  {
    ScanPrunes(services, order, root, o, env);
    forall k | k in services { PruneShrinks(services[k], env); }
    assert Adopt(map[], o) == map[];
  }

  lemma MigrateKeepsOwners(services: Services, after: Services, root: string, o: OwnerId, env: Env, adopted: bool)
    requires SingleOwner(services) && MigrationEffect(services, after, root, o, env, adopted)
    ensures SingleOwner(after)
  {
    forall r: string ensures HasOwner(after, r) {
      if adopted && r == root {
        assert OwnedBy(after, r, o);
      } else {
        assert HasOwner(services, r);
        var p :| OwnedBy(services, r, p);
        assert OwnedBy(after, r, p);
      }
    }
  }

  lemma MigrateKeepsInv(services: Services, order: seq<Key>, root: string, source: Source, o: OwnerId, env: Env)
    requires Inv(services) && Covers(order, services)
    ensures Inv(Migrate(services, order, root, source, o, env).0)
  {
    var (after, adopted) := Migrate(services, order, root, source, o, env);
    MigrationIsAllOrNothing(services, order, root, source, o, env);
    MigrateKeepsIdle(services, order, root, source, o, env);
    MigrateKeepsOwners(services, after, root, o, env, adopted);
    assert forall k | k in after :: after[k] == services[k].(leases := after[k].leases, idleSince := after[k].idleSince);
  }

  lemma OwnersDecideOwnership(services: Services, root: string, o: OwnerId)
    ensures RecordedOwners(services, root) <= {o} <==> OwnedBy(services, root, o)
  {
    forall k, id | k in services && services[k].root == root && id in services[k].leases
      ensures EffectiveOwner(services[k].leases[id]) in RecordedOwners(services, root)
    {
    }
  }

  /** An admitted request finds no live lease of another owner at its root. */
  lemma AdmitKeepsInv(services: Services, r: Request, env: Env)
    requires Inv(services) && Covers(r.order, services)
    ensures Inv(Admit(services, r, env).0)
    ensures Admit(services, r, env).1 ==> OwnedBy(Admit(services, r, env).0, r.key.root, r.owner)
  {
    var cleaned := Cleanup(services, 0, false, env);
    ShrinksKeepsInv(services, cleaned);
    MigrateKeepsInv(cleaned, r.order, r.key.root, r.source, r.owner, env);
    var migrated := Migrate(cleaned, r.order, r.key.root, r.source, r.owner, env).0;
    ShrinksKeepsInv(migrated, PruneRoot(migrated, r.key.root, env));
    OwnersDecideOwnership(PruneRoot(migrated, r.key.root, env), r.key.root, r.owner);
  }

  lemma PrunedAgainIsPruned(before: Services, after: Services, root: string, env: Env)
    requires Pruned(before, after, root, env)
    ensures PruneRoot(after, root, env) == PruneRoot(before, root, env)
  {
    forall k | k in before { PruneTwice(before[k], env); }
  }

  /** The live leases that the admission of a connect request looks at: those recorded in services
      of the root whose process still looks owned. */
  function AdmissionView(services: Services, root: string, env: Env): Services {
    PruneRoot(Cleanup(services, 0, false, env), root, env)
  }

  /**
    The admission decision, exactly: a request is let in if and only if its owner owns all the
    leases in view, or it comes from a Codex host and every lease in view is its own or adoptable.
   */
  lemma AdmissionDecision(services: Services, r: Request, env: Env)
    requires Covers(r.order, services)
    ensures
      var view := AdmissionView(services, r.key.root, env);
      Admit(services, r, env).1 <==>
        || OwnedBy(view, r.key.root, r.owner)
        || (r.source == CodexHost
            && forall k | k in view && view[k].root == r.key.root :: Migratable(view[k].leases, r.owner, env))
  {
    var cleaned := Cleanup(services, 0, false, env);
    var view := AdmissionView(services, r.key.root, env);
    MigrationDecision(cleaned, r.order, r.key.root, r.source, r.owner, env);
    var (migrated, adopted) := Migrate(cleaned, r.order, r.key.root, r.source, r.owner, env);
    if adopted {
      MigrationSatisfiesAssertion(cleaned, r.order, r.key.root, r.source, r.owner, env);
    } else {
      ScanPrunes(cleaned, r.order, r.key.root, r.owner, env);
      PrunedAgainIsPruned(cleaned, migrated, r.key.root, env);
      OwnersDecideOwnership(view, r.key.root, r.owner);
    }
  }

  /**
    Single ownership is about recorded leases only: when no service process of a root looks owned
    any more, anybody is admitted, even while clients of another owner are alive, because cleanup
    drops their records.
   */
  lemma DeadServicesReleaseTheRoot(services: Services, r: Request, env: Env)
    requires Covers(r.order, services)
    requires forall k | k in services && services[k].root == r.key.root :: services[k].process !in env.owned
    ensures Admit(services, r, env).1
  {
    AdmissionDecision(services, r, env);
  }

  /** Every ownership statement about `before` still holds of `after`. */
  ghost predicate KeepsOwners(before: Services, after: Services) {
    forall root, o | OwnedBy(before, root, o) :: OwnedBy(after, root, o)
  }

  lemma KeepsOwnersKeepsSingle(before: Services, after: Services)
    requires SingleOwner(before) && KeepsOwners(before, after)
    ensures SingleOwner(after)
  {
    forall root: string ensures HasOwner(after, root) {
      assert HasOwner(before, root);
      var o :| OwnedBy(before, root, o);
      assert OwnedBy(after, root, o);
    }
  }

  lemma LaunchKeepsInv(services: Services, key: Key, env: Env, launch: Launch)
    requires Inv(services) && key !in services
    ensures var (after, up) := LaunchNew(services, key, env, launch);
      Inv(after) && (up ==> key in after) && KeepsOwners(services, after)
  {
    var after := LaunchNew(services, key, env, launch).0;
    if after != services {
      assert after[key].leases == map[];
      assert forall k | k in services :: services[k].port in UsedPorts(services);
      KeepsOwnersKeepsSingle(services, after);
    }
  }

  lemma StartKeepsInv(services: Services, key: Key, env: Env, launch: Launch)
    requires Inv(services)
    ensures var (after, up) := StartService(services, key, env, launch);
      Inv(after) && (up ==> key in after) && KeepsOwners(services, after)
  {
    if key in services && !Healthy(Prune(services[key], env), env) {
      ShrinksKeepsInv(services, services - {key});
      LaunchKeepsInv(services - {key}, key, env, launch);
      assert KeepsOwners(services, services - {key});
    } else if key in services {
      var after := services[key := Prune(services[key], env).(idleSince := None)];
      assert Shrinks(services, after);
      ShrinksKeepsInv(services, after);
      assert KeepsOwners(services, after);
    } else {
      LaunchKeepsInv(services, key, env, launch);
    }
  }

  lemma InsertKeepsInv(services: Services, key: Key, id: string, lease: Lease)
    requires Inv(services) && key in services && OwnedBy(services, key.root, EffectiveOwner(lease))
    ensures var after := InsertLease(services, key, id, lease);
      Inv(after) && OwnedBy(after, key.root, EffectiveOwner(lease))
  {
    var after := InsertLease(services, key, id, lease);
    assert OwnedBy(after, key.root, EffectiveOwner(lease));
    forall root: string ensures HasOwner(after, root) {
      if root != key.root {
        assert HasOwner(services, root);
        var o :| OwnedBy(services, root, o);
        assert OwnedBy(after, root, o);
      }
    }
  }

  /** The whole connect section keeps the invariant, whether it succeeds, is refused, or fails. */
  lemma ConnectKeepsInv(services: Services, r: Request, env: Env, env1: Env, env2: Env)
    requires Inv(services) && Covers(r.order, services)
    ensures Inv(Connect(services, r, env, env1, env2).0)
  {
    AdmitKeepsInv(services, r, env);
    var (admitted, allowed) := Admit(services, r, env);
    if allowed {
      StartKeepsInv(admitted, r.key, env1, r.primary);
      var (started, up) := StartService(admitted, r.key, env1, r.primary);
      if up {
        var lease := Lease(Some(r.owner), r.client);
        InsertKeepsInv(started, r.key, r.lease, lease);
        if r.hybrid {
          var leased := InsertLease(started, r.key, r.lease, lease);
          var second := r.key.(backend := Lsp);
          StartKeepsInv(leased, second, env2, r.secondary);
          var (both, up2) := StartService(leased, second, env2, r.secondary);
          if up2 {
            InsertKeepsInv(both, second, r.lease, lease);
          }
        }
      }
    }
  }

  lemma StartSparesOthers(services: Services, key: Key, env: Env, launch: Launch)
    ensures var after := StartService(services, key, env, launch).0;
      forall k | k in services && k != key :: k in after && after[k] == services[k]
  {
  }

  /** A successful connect has recorded the lease, and its owner owns every lease of the root. */
  lemma ConnectRecordsTheLease(services: Services, r: Request, env: Env, env1: Env, env2: Env)
    requires Inv(services) && Covers(r.order, services)
    requires r.hybrid ==> r.key.backend.JetBrains?
    requires Connect(services, r, env, env1, env2).1
    ensures
      var after := Connect(services, r, env, env1, env2).0;
      && r.key in after && r.lease in after[r.key].leases
      && after[r.key].leases[r.lease] == Lease(Some(r.owner), r.client) && after[r.key].idleSince == None
      && OwnedBy(after, r.key.root, r.owner)
  {
    AdmitKeepsInv(services, r, env);
    var admitted := Admit(services, r, env).0;
    StartKeepsInv(admitted, r.key, env1, r.primary);
    var started := StartService(admitted, r.key, env1, r.primary).0;
    var lease := Lease(Some(r.owner), r.client);
    InsertKeepsInv(started, r.key, r.lease, lease);
    if r.hybrid {
      var leased := InsertLease(started, r.key, r.lease, lease);
      var second := r.key.(backend := Lsp);
      StartKeepsInv(leased, second, env2, r.secondary);
      StartSparesOthers(leased, second, env2, r.secondary);
      var (both, up2) := StartService(leased, second, env2, r.secondary);
      if up2 { InsertKeepsInv(both, second, r.lease, lease); }
    }
  }

  // ---------------------------------------------------------------------------------
  // What cleanup keeps and what disconnecting undoes
  // ---------------------------------------------------------------------------------

  /** Cleanup neither stops a service whose process looks owned nor takes a lease of it while that
      lease is live. */
  lemma CleanupKeepsLiveLeases(services: Services, idleSeconds: int, stopIdle: bool, env: Env, k: Key, id: string)
    requires IdleInv(services) && k in services
    requires services[k].process in env.owned
    requires id in services[k].leases && services[k].leases[id].process in env.live
    ensures
      var after := Cleanup(services, idleSeconds, stopIdle, env);
      && k in after && id in after[k].leases && after[k].leases[id] == services[k].leases[id]
      && k !in CleanupSignals(services, idleSeconds, stopIdle, env)
  {
    assert id in Prune(services[k], env).leases;
  }

  /** Disconnecting ends the lease in the leased services, keeps every other live lease, starts the
      idle time of a service that has none left, and touches no other record. */
  lemma DisconnectEndsTheLease(services: Services, keys: set<Key>, lease: string, env: Env, k: Key)
    requires IdleInv(services) && k in services
    ensures
      var after := Disconnect(services, keys, lease, env);
      && after.Keys == services.Keys
      && (k !in keys ==> after[k] == services[k])
      && (k in keys ==>
            && lease !in after[k].leases
            && (forall id | id in services[k].leases && id != lease ::
                  id in after[k].leases <==> services[k].leases[id].process in env.live)
            && (after[k].leases == map[] <==> after[k].idleSince.Some?))
  {
  }

  /** No record carries the lease. */
  ghost predicate NoLease(services: Services, lease: string) {
    forall k | k in services :: lease !in services[k].leases
  }

  /** A lease of this name stands at most in the two services of a request. */
  ghost predicate LeaseOnlyAt(services: Services, lease: string, keys: set<Key>) {
    forall k | k in services && k !in keys :: lease !in services[k].leases
  }

  lemma AdmitAddsNoLease(services: Services, r: Request, env: Env)
    requires IdleInv(services) && Covers(r.order, services) && NoLease(services, r.lease)
    ensures NoLease(Admit(services, r, env).0, r.lease)
  {
    var cleaned := Cleanup(services, 0, false, env);
    MigrationIsAllOrNothing(cleaned, r.order, r.key.root, r.source, r.owner, env);
    MigrateKeepsIdle(cleaned, r.order, r.key.root, r.source, r.owner, env);
  }

  lemma StartAddsNoLease(services: Services, key: Key, env: Env, launch: Launch, lease: string, keys: set<Key>)
    requires LeaseOnlyAt(services, lease, keys)
    ensures LeaseOnlyAt(StartService(services, key, env, launch).0, lease, keys)
  {
  }

  /** A connect records its fresh lease only in the services of the request. */
  lemma ConnectLeasesOnlyItsServices(services: Services, r: Request, env: Env, env1: Env, env2: Env)
    requires IdleInv(services) && Covers(r.order, services) && NoLease(services, r.lease)
    ensures LeaseOnlyAt(Connect(services, r, env, env1, env2).0, r.lease, {r.key, r.key.(backend := Lsp)})
  {
    var keys := {r.key, r.key.(backend := Lsp)};
    AdmitAddsNoLease(services, r, env);
    var admitted := Admit(services, r, env).0;
    StartAddsNoLease(admitted, r.key, env1, r.primary, r.lease, keys);
    var (started, up) := StartService(admitted, r.key, env1, r.primary);
    if up && r.key in started {
      var leased := InsertLease(started, r.key, r.lease, Lease(Some(r.owner), r.client));
      StartAddsNoLease(leased, r.key.(backend := Lsp), env2, r.secondary, r.lease, keys);
    }
  }

  /** Disconnecting undoes connecting: afterwards no record carries the lease. */
  lemma DisconnectUndoesConnect(services: Services, r: Request, env: Env, env1: Env, env2: Env, later: Env)
    requires Inv(services) && Covers(r.order, services) && NoLease(services, r.lease)
    ensures
      var after := Connect(services, r, env, env1, env2).0;
      NoLease(Disconnect(after, {r.key, r.key.(backend := Lsp)}, r.lease, later), r.lease)
  {
    ConnectLeasesOnlyItsServices(services, r, env, env1, env2);
    ConnectKeepsInv(services, r, env, env1, env2);
    var after := Connect(services, r, env, env1, env2).0;
    forall k | k in after {
      DisconnectEndsTheLease(after, {r.key, r.key.(backend := Lsp)}, r.lease, later, k);
    }
  }
}
