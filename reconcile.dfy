/**
 * Reconciling the routing table with the cluster (utils.go: sync, syncAll,
 * diff, processECSEventMessage): one service at a time from ECS, all
 * services in turn, the read-only comparison, and the event-driven update.
 */
module Reconcile {
  import opened Types
  import opened Text
  import opened Aws
  import opened Backends
  import opened Store
  import opened Identity
  import opened Inventory

  /** Everything a request reads and writes: the table and the two caches. */
  datatype World = World(store: Snapshot, caches: Caches)

  /** What a request works against: the cluster, EC2, and the retry budget. */
  datatype Env = Env(cluster: Cluster, ec2: Ec2, maxTries: nat)

  function WorldOf(table: Table, cache: IdentityCache): World
    reads table, cache
  {
    World(table.State(), Caches(cache.instanceIds, cache.privateIps))
  }

  // -------------------------------------------------------------------- sync

  /** sync: the service's backend from ECS, written over the stored one. */
  function SyncRun(w: World, env: Env, service: string): (Option<Error>, World)
  {
    var (b, k) := EcsBackend(w.caches, env.cluster, env.ec2, service);
    match b
    case Err(err) => (Some(err), World(w.store, k))
    case Ok(backend) =>
      var run := Upsert(w.store, service, backend, true, env.maxTries);
      (run.err, World(run.after, k))
  }

  method Sync(table: Table, cache: IdentityCache, env: Env, service: string) returns (err: Option<Error>)
    modifies table, cache
    ensures (err, WorldOf(table, cache)) == SyncRun(old(WorldOf(table, cache)), env, service)
  {
    var backend, berr := GetBackendEcs(cache, service, env.cluster, env.ec2);
    if berr.Some? {
      return berr;
    }
    err := table.UpdateBackendDynamoDB(service, backend, true, env.maxTries);
  }

  /** syncAll over `services` from `w`: the error kept, and the world afterwards. */
  function SyncAllRun(w: World, env: Env, services: seq<string>): (Option<Error>, World)
    decreases |services|
  {
    if services == [] then (None, w) else
      var last := services[|services| - 1];
      var (err, w1) := SyncAllRun(w, env, services[..|services| - 1]);
      var (ierr, w2) := SyncRun(w1, env, last);
      if ierr.Some? && !Mentions(ierr.value, NoNetworkBindings) then (Some(Many([(last, ierr.value)])), w2)
      else (err, w2)
  }

  /** syncAll: a failed listing stops everything; otherwise every listed service is synced. */
  function SyncAllAt(w: World, env: Env): (Option<Error>, World)
    requires ServiceArnsNamed(env.cluster)
  {
    if !NoPageFailed(env.cluster.servicePages) then (Some(ApiFailure(Api.ListServices)), w)
    else SyncAllRun(w, env, ServiceNames(env.cluster))
  }

  /** syncAll; the pause between services does not change what is written. */
  method SyncAll(table: Table, cache: IdentityCache, env: Env, milliseconds: int) returns (err: Option<Error>)
    requires ServiceArnsNamed(env.cluster)
    modifies table, cache
    ensures (err, WorldOf(table, cache)) == SyncAllAt(old(WorldOf(table, cache)), env)
  {
    var services, lerr := Inventory.ListServices(env.cluster);
    if lerr.Some? {
      return lerr;
    }
    err := None;
    for i := 0 to |services|
      invariant (err, WorldOf(table, cache)) == SyncAllRun(old(WorldOf(table, cache)), env, services[..i])
    {
      assert services[..i + 1][..i] == services[..i];
      var ierr := Sync(table, cache, env, services[i]);
      if ierr.Some? && !Mentions(ierr.value, NoNetworkBindings) {
        err := Some(Many([(services[i], ierr.value)]));
      }
    }
    assert services[..|services|] == services;
  }

  // -------------------------------------------------------------------- diff

  /** What diff returns: whether the servers agree, and the error that stopped it. */
  datatype DiffResult = DiffResult(inSync: bool, err: Option<Error>)

  /** diff: ECS's servers against the stored ones; a missing record reads as an empty backend. */
  function DiffRun(w: World, env: Env, service: string): (DiffResult, World)
  {
    var (b, k) := EcsBackend(w.caches, env.cluster, env.ec2, service);
    match b
    case Err(err) => (DiffResult(false, Some(err)), World(w.store, k))
    case Ok(live) =>
      var r := GetItemStep(w.store, RecordId(service));
      if r.got.Err? && !Mentions(r.got.error, ItemNotFound) then
        (DiffResult(false, Some(r.got.error)), World(r.after, k))
      else
        var stored := if r.got.Ok? then r.got.value.backend else Backend(None, map[]);
        (DiffResult(live.servers == stored.servers, None), World(r.after, k))
  }

  method Diff(table: Table, cache: IdentityCache, env: Env, service: string)
    returns (inSync: bool, err: Option<Error>)
    modifies table, cache
    ensures (DiffResult(inSync, err), WorldOf(table, cache)) == DiffRun(old(WorldOf(table, cache)), env, service)
  {
    var ecsBackend, berr := GetBackendEcs(cache, service, env.cluster, env.ec2);
    if berr.Some? {
      return false, berr;
    }
    var dynamoBackend, derr := table.GetBackend(service);
    if derr.Some? && !Mentions(derr.value, ItemNotFound) {
      return false, derr;
    }
    if ecsBackend.servers == dynamoBackend.servers {
      return true, None;
    }
    return false, None;
  }

  // ------------------------------------------------------------------ events

  /** What a task state change asks for. */
  datatype Action = Skip | Register | Deregister

  /** Register a running task, deregister one on its way to STOPPED, ignore anything else. */
  function ActionFor(lastStatus: string, desiredStatus: string): (a: Action)
    ensures a == Register <==> lastStatus == Running && desiredStatus == Running
    ensures a == Deregister <==> desiredStatus == Stopped
    ensures a == Skip <==> !(lastStatus == Running && desiredStatus == Running) && desiredStatus != Stopped
  {
    if lastStatus == Running && desiredStatus == Running then Register
    else if desiredStatus == Stopped then Deregister
    else Skip
  }

  /** The event's group names its service after a `:` whenever the event is acted on. */
  predicate EventWellFormed(msg: Detail)
  {
    FirstHostPort(msg.containers).Some? ==> ':' in msg.group
  }

  /** The service of a task group `service:name`: the field after the first `:`. */
  function ServiceOfGroup(group: string): string
    requires ':' in group
  {
    Split(group, ':')[1]
  }

  /** The server key of a task: its instance's IP and its host port. */
  function Endpoint(ip: string, port: int): string
  {
    ip + ":" + Decimal(port)
  }

  /** processECSEventMessage: resolve the instance, then add or remove the task's endpoint. */
  function EventRun(w: World, env: Env, msg: Detail): (Option<Error>, World)
    requires EventWellFormed(msg)
  {
    match FirstHostPort(msg.containers)
    case None => (None, w)
    case Some(port) =>
      var service := ServiceOfGroup(msg.group);
      var arn := msg.containerInstanceArn;
      var k := Caches(IdsAfter(w.caches.ids, env.cluster, arn),
                      IpsAfterResolve(w.caches.ids, w.caches.ips, env.cluster, env.ec2, arn));
      match Resolve(w.caches.ids, w.caches.ips, env.cluster, env.ec2, arn)
      case Err(err) => (Some(err), World(w.store, k))
      case Ok(ip) =>
        var portIP := Endpoint(ip, port);
        match ActionFor(msg.lastStatus, msg.desiredStatus)
        case Register =>
          var run := Upsert(w.store, service, BackendFor([portIP]), false, env.maxTries);
          (run.err, World(run.after, k))
        case Deregister =>
          var run := Remove(w.store, service, portIP, env.maxTries);
          (run.err, World(run.after, k))
        case Skip => (None, World(w.store, k))
  }

  method ProcessEcsEventMessage(table: Table, cache: IdentityCache, env: Env, msg: Detail)
    returns (err: Option<Error>)
    requires EventWellFormed(msg)
    modifies table, cache
    ensures (err, WorldOf(table, cache)) == EventRun(old(WorldOf(table, cache)), env, msg)
  {
    if |msg.containers| < 1 {
      return None;
    }
    if |msg.containers[0].networkBindings| < 1 {
      return None;
    }
    var serviceName := Split(msg.group, ':')[1];
    var ip := cache.GetIp(msg.containerInstanceArn, env.cluster, env.ec2);
    if ip.Err? {
      return Some(ip.error);
    }
    var hostPort := Decimal(msg.containers[0].networkBindings[0].hostPort);
    // the source's test for an empty port can never succeed
    assert hostPort != "";
    var portIP := ip.value + ":" + hostPort;
    if msg.lastStatus == Running && msg.desiredStatus == Running {
      var backend := CreateBackend([portIP]);
      err := table.UpdateBackendDynamoDB(serviceName, backend, false, env.maxTries);
    } else if msg.desiredStatus == Stopped {
      err := table.RemoveServerFromBackendDynamoDB(serviceName, portIP, env.maxTries);
    } else {
      err := None;
    }
  }
}
