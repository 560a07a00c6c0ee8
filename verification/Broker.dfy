/**
  The worktree broker `bin/serena-worktree-broker`: the services, leases, ports and idle
  timestamps of `services.json`, and the sections that change them under the state lock.
  A section is a function from the recorded services to the services written back, whether or
  not it raises. What `ps`, sockets and launched programs answer is given by an `Env`.
 */
module Broker {
  import opened Wrappers

  const PORT_FIRST := 24320
  const PORT_LAST := 24419

  datatype Backend = JetBrains | Lsp

  /** The identity that `_service_key` digests; digests are injective. */
  datatype Key = Key(root: string, backend: Backend, context: string, modes: seq<string>)

  /** A logical owner. `ManualPid` is the process-scoped owner that migration may adopt;
      `LegacyPid` stands for a lease recorded without an owner. */
  datatype OwnerId = Named(name: string) | ManualPid(pid: int) | LegacyPid(pid: int)

  datatype Lease = Lease(owner: Option<OwnerId>, process: Process)

  type Leases = map<string, Lease>

  datatype Service = Service(root: string, backend: Backend, process: Process, port: int,
                             leases: Leases, idleSince: Option<int>)

  type Services = map<Key, Service>

  /**
    Answers during one section: the time; the live processes; the processes that look like
    broker-owned services; those that vanish between that check and the stop; the ports that
    accept connections; the ports that can be bound; and, for processes whose command is the
    deployed broker's connect entry point under a trusted Codex host, that host's owner.
   */
  datatype Env = Env(now: int, live: set<Process>, owned: set<Process>, vanishing: set<Process>,
                     listening: set<int>, bindable: set<int>, hosts: map<Process, OwnerId>)

  // ---------------------------------------------------------------------------------
  // Leases and owners
  // ---------------------------------------------------------------------------------

  function LiveLeases(leases: Leases, live: set<Process>): Leases {
    map id | id in leases && leases[id].process in live :: leases[id]
  }

  /** `_prune_dead_leases`. */
  function Prune(s: Service, env: Env): Service {
    var leases := LiveLeases(s.leases, env.live);
    s.(leases := leases,
       idleSince := if leases == map[] && s.idleSince.None? then Some(env.now) else s.idleSince)
  }

  function EffectiveOwner(l: Lease): OwnerId {
    if l.owner.Some? then l.owner.value else LegacyPid(l.process.pid)
  }

  /** The records of one root pruned, the others untouched. */
  function PruneRoot(services: Services, root: string, env: Env): Services {
    map k | k in services :: if services[k].root == root then Prune(services[k], env) else services[k]
  }

  /** Every lease recorded for `root`, in whatever service, is owned by `o`. */
  ghost predicate OwnedBy(services: Services, root: string, o: OwnerId) {
    forall k, id | k in services && services[k].root == root && id in services[k].leases ::
      EffectiveOwner(services[k].leases[id]) == o
  }

  /** `_root_owners` on pruned records. */
  function RecordedOwners(services: Services, root: string): (owners: set<OwnerId>)
    ensures forall o :: o in owners <==>
      exists k, id :: k in services && services[k].root == root && id in services[k].leases
        && EffectiveOwner(services[k].leases[id]) == o
  {
    set k, id | k in services && services[k].root == root && id in services[k].leases ::
      EffectiveOwner(services[k].leases[id])
  }

  /** `_assert_root_owner`: passes when nobody else owns a live lease of the root. */
  predicate OwnerAllowed(services: Services, root: string, o: OwnerId, env: Env) {
    RecordedOwners(PruneRoot(services, root, env), root) <= {o}
  }

  // ---------------------------------------------------------------------------------
  // Cleanup
  // ---------------------------------------------------------------------------------

  predicate Healthy(s: Service, env: Env) {
    s.process in env.owned && s.port in env.listening
  }

  /** Cleanup stops a service that is owned, lease-free and idle for long enough. */
  predicate IdleLongEnough(s: Service, idleSeconds: int, env: Env) {
    && s.process in env.owned && s.leases == map[]
    && s.idleSince.Some? && env.now - s.idleSince.value >= idleSeconds
  }

  predicate CleanupStops(s: Service, idleSeconds: int, stopIdle: bool, env: Env) {
    stopIdle && IdleLongEnough(Prune(s, env), idleSeconds, env) && s.process !in env.vanishing
  }

  predicate CleanupKeeps(s: Service, idleSeconds: int, stopIdle: bool, env: Env) {
    s.process in env.owned && !CleanupStops(s, idleSeconds, stopIdle, env)
  }

  /** `_cleanup_state`. */
  function Cleanup(services: Services, idleSeconds: int, stopIdle: bool, env: Env): Services {
    map k | k in services && CleanupKeeps(services[k], idleSeconds, stopIdle, env) :: Prune(services[k], env)
  }

  /** The services whose process group cleanup signals. */
  function CleanupSignals(services: Services, idleSeconds: int, stopIdle: bool, env: Env): set<Key> {
    set k | k in services && CleanupStops(services[k], idleSeconds, stopIdle, env)
  }

  // ---------------------------------------------------------------------------------
  // Migration of process-scoped leases
  // ---------------------------------------------------------------------------------

  datatype Source = CodexHost | OtherSource

  /** A lease already owned by the host. */
  predicate Settled(l: Lease, o: OwnerId) {
    l.owner == Some(o)
  }

  /** A lease proven to belong to a broker process of this host. */
  predicate Adoptable(l: Lease, o: OwnerId, env: Env) {
    && l.owner.Some? && l.owner.value.ManualPid? && l.owner.value.pid == l.process.pid
    && l.process in env.live
    && l.process in env.hosts && env.hosts[l.process] == o
  }

  predicate Migratable(leases: Leases, o: OwnerId, env: Env) {
    forall id | id in leases :: Settled(leases[id], o) || Adoptable(leases[id], o, env)
  }

  /** The scan over the records in dictionary order: it prunes as it goes and stops at the first
      lease that is neither settled nor adoptable. */
  function Scan(services: Services, order: seq<Key>, root: string, o: OwnerId, env: Env): (Services, bool) {
    if order == [] then (services, true)
    else if order[0] !in services || services[order[0]].root != root then Scan(services, order[1..], root, o, env)
    else
      var pruned := Prune(services[order[0]], env);
      if Migratable(pruned.leases, o, env)
      then Scan(services[order[0] := pruned], order[1..], root, o, env)
      else (services[order[0] := pruned], false)
  }

  function Adopt(leases: Leases, o: OwnerId): Leases {
    map id | id in leases :: leases[id].(owner := Some(o))
  }

  /** Every lease of the root handed to `o`. */
  function AdoptRoot(services: Services, root: string, o: OwnerId): Services {
    map k | k in services :: if services[k].root == root then services[k].(leases := Adopt(services[k].leases, o)) else services[k]
  }

  /** Some lease of the root is not settled yet. */
  predicate HasCandidate(services: Services, root: string, o: OwnerId) {
    exists k, id :: k in services && services[k].root == root && id in services[k].leases
      && !Settled(services[k].leases[id], o)
  }

  /** `_migrate_legacy_host_leases`. */
  function Migrate(services: Services, order: seq<Key>, root: string, source: Source, o: OwnerId, env: Env)
    : (Services, bool)
  {
    if source != CodexHost then (services, false)
    else
      var (scanned, ok) := Scan(services, order, root, o, env);
      if ok && HasCandidate(scanned, root, o) then (AdoptRoot(scanned, root, o), true) else (scanned, false)
  }

  // ---------------------------------------------------------------------------------
  // Starting a service
  // ---------------------------------------------------------------------------------

  /** How the launch of a new service ends. */
  datatype Launch = OpenerFails | ServiceFails | Up(process: Process)

  function UsedPorts(services: Services): set<int> {
    set k | k in services :: services[k].port
  }

  /** `_free_port`, from `port` upwards. */
  function FreePort(port: int, used: set<int>, env: Env): (r: Option<int>)
    ensures r.Some? ==> port <= r.value <= PORT_LAST && r.value !in used && r.value in env.bindable
    ensures r.Some? ==> forall p | port <= p < r.value :: p in used || p !in env.bindable
    ensures r.None? ==> forall p | port <= p <= PORT_LAST :: p in used || p !in env.bindable
    decreases PORT_LAST - port
  {
    if port > PORT_LAST then None
    else if port in used || port !in env.bindable then FreePort(port + 1, used, env)
    else Some(port)
  }

  /** Launching when no usable record is left: the record appears only if the service comes up. */
  function LaunchNew(services: Services, key: Key, env: Env, launch: Launch): (Services, bool) {
    if key.backend.JetBrains? && launch.OpenerFails? then (services, false)
    else
      var port := FreePort(PORT_FIRST, UsedPorts(services), env);
      if port.Some? && launch.Up?
      then (services[key := Service(key.root, key.backend, launch.process, port.value, map[], None)], true)
      else (services, false)
  }

  /** `_start_service`: reuse a healthy record, otherwise stop and drop it and launch anew. */
  function StartService(services: Services, key: Key, env: Env, launch: Launch): (Services, bool) {
    if key in services then
      var pruned := Prune(services[key], env);
      if Healthy(pruned, env) then (services[key := pruned.(idleSince := None)], true)
      else LaunchNew(services - {key}, key, env, launch)
    else LaunchNew(services, key, env, launch)
  }

  function InsertLease(services: Services, key: Key, id: string, lease: Lease): Services
    requires key in services
  {
    var s := services[key];
    services[key := s.(leases := s.leases[id := lease], idleSince := None)]
  }

  // ---------------------------------------------------------------------------------
  // Connect and disconnect
  // ---------------------------------------------------------------------------------

  /** A connect request: what it asks for, who asks, and how its launches would end. */
  datatype Request = Request(
    key: Key, hybrid: bool, lease: string, owner: OwnerId, source: Source, client: Process,
    order: seq<Key>, primary: Launch, secondary: Launch)

  /** The lease section of `_connect` up to and including the ownership assertion. */
  function Admit(services: Services, r: Request, env: Env): (Services, bool) {
    var cleaned := Cleanup(services, 0, false, env);
    var (migrated, _) := Migrate(cleaned, r.order, r.key.root, r.source, r.owner, env);
    (PruneRoot(migrated, r.key.root, env), OwnerAllowed(migrated, r.key.root, r.owner, env))
  }

  /** The whole locked section of `_connect`; a refused connect still writes what it changed. */
  function Connect(services: Services, r: Request, env: Env, env1: Env, env2: Env): (Services, bool) {
    var (admitted, allowed) := Admit(services, r, env);
    if !allowed then (admitted, false)
    else
      var (started, up) := StartService(admitted, r.key, env1, r.primary);
      if !up || r.key !in started then (started, false)
      else
        var lease := Lease(Some(r.owner), r.client);
        var leased := InsertLease(started, r.key, r.lease, lease);
        if !r.hybrid then (leased, true)
        else
          var second := r.key.(backend := Lsp);
          var (both, up2) := StartService(leased, second, env2, r.secondary);
          if up2 && second in both then (InsertLease(both, second, r.lease, lease), true) else (both, true)
  }

  /** The lease cleanup after the proxy has exited. */
  function Disconnect(services: Services, keys: set<Key>, id: string, env: Env): Services {
    map k | k in services ::
      if k in keys then Prune(services[k].(leases := services[k].leases - {id}), env) else services[k]
  }

  /** `leases`: every record pruned. */
  function PruneAll(services: Services, env: Env): Services {
    map k | k in services :: Prune(services[k], env)
  }

  // ---------------------------------------------------------------------------------
  // Repair of one root
  // ---------------------------------------------------------------------------------

  datatype Repair = Unchanged(reason: string) | Protected(reason: string) | Repaired(reason: string)

  datatype RepairResult = RepairResult(services: Services, outcome: Repair, signals: set<Key>)

  function MatchesOf(services: Services, order: seq<Key>, root: string): seq<Key> {
    if order == [] then []
    else (if order[0] in services && services[order[0]].root == root then [order[0]] else [])
         + MatchesOf(services, order[1..], root)
  }

  /** One JetBrains and one LSP record: the only pair that repair accepts. */
  predicate Pair(services: Services, matches: seq<Key>)
    requires forall k | k in matches :: k in services
  {
    |matches| == 2 && {services[matches[0]].backend, services[matches[1]].backend} == {JetBrains, Lsp}
  }

  /** Prunes the matching records in order until one keeps a live lease. */
  function FindLease(services: Services, matches: seq<Key>, env: Env): (r: (Services, bool))
    requires forall k | k in matches :: k in services
    ensures r.0.Keys == services.Keys
  {
    if matches == [] then (services, false)
    else
      var pruned := services[matches[0] := Prune(services[matches[0]], env)];
      if pruned[matches[0]].leases != map[] then (pruned, true) else FindLease(pruned, matches[1..], env)
  }

  /** The unhealthy records stopped or dropped in order; stopping a vanished process fails. */
  function DropUnhealthy(services: Services, matches: seq<Key>, env: Env): RepairResult {
    if matches == [] then RepairResult(services, Repaired("repaired-services"), {})
    else if matches[0] !in services || Healthy(services[matches[0]], env) then DropUnhealthy(services, matches[1..], env)
    else
      var p := services[matches[0]].process;
      if p in env.owned && p in env.vanishing then RepairResult(services, Protected("stop-failed"), {})
      else
        var rest := DropUnhealthy(services - {matches[0]}, matches[1..], env);
        rest.(signals := rest.signals + (if p in env.owned then {matches[0]} else {}))
  }

  /** `_repair_root_state`. */
  function RepairRoot(services: Services, order: seq<Key>, root: string, env: Env): RepairResult {
    var matches := MatchesOf(services, order, root);
    MatchesAreRecorded(services, order, root);
    if matches == [] then RepairResult(services, Unchanged("no-record"), {})
    else if |matches| > 1 && !Pair(services, matches) then RepairResult(services, Protected("ambiguous-services"), {})
    else
      var (pruned, leased) := FindLease(services, matches, env);
      if leased then RepairResult(pruned, Protected("live-lease"), {})
      else if forall k | k in matches :: Healthy(pruned[k], env) then
        RepairResult(pruned, Unchanged(if |matches| > 1 then "healthy-services" else "healthy-service"), {})
      else
        var dropped := DropUnhealthy(pruned, matches, env);
        if dropped.outcome.Repaired? && |matches| == 1 then
          dropped.(outcome := Repaired(if pruned[matches[0]].process in env.owned
                                       then "stopped-unhealthy-service" else "removed-stale-record"))
        else dropped
  }

  lemma {:induction false} MatchesAreRecorded(services: Services, order: seq<Key>, root: string)
    ensures forall k | k in MatchesOf(services, order, root) :: k in services && services[k].root == root && k in order
  {
    if order != [] {
      MatchesAreRecorded(services, order[1..], root);
    }
  }
}
