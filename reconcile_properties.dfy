/** What reconciliation guarantees, across operations and requests. */
module ReconcileProperties {
  import opened Types
  import opened Text
  import opened Aws
  import opened Backends
  import opened Store
  import opened StoreProperties
  import opened Identity
  import opened Inventory
  import opened Reconcile

  // --------------------------------------------------------------- endpoints

  lemma DecimalHasNoColon(n: int)
    ensures ':' !in Decimal(n)
  {
    var s := Decimal(n);
    if n < 0 {
      assert s == "-" + Natural(-n);
      assert forall k :: 1 <= k < |s| ==> s[k] == Natural(-n)[k - 1];
    }
  }

  /** A server key splits back into the instance IP and the port it was made from. */
  lemma EndpointRoundTrip(ip: string, port: int)
    requires ':' !in ip
    ensures Split(Endpoint(ip, port), ':') == [ip, Decimal(port)]
    ensures ParseDecimal(Split(Endpoint(ip, port), ':')[1]) == port
  {
    DecimalHasNoColon(port);
    var parts := [ip, Decimal(port)];
    assert Join(parts, ':') == Endpoint(ip, port) by {
      assert Join(parts[1..], ':') == Decimal(port);
    }
    JoinSplit(parts, ':');
    DecimalRoundTrip(port);
  }

  /** Distinct (IP, port) pairs get distinct server keys, so removing one never removes another. */
  lemma EndpointInjective(ip1: string, port1: int, ip2: string, port2: int)
    requires ':' !in ip1 && ':' !in ip2
    ensures Endpoint(ip1, port1) == Endpoint(ip2, port2) <==> ip1 == ip2 && port1 == port2
  {
    EndpointRoundTrip(ip1, port1);
    EndpointRoundTrip(ip2, port2);
  }

  // ------------------------------------------------------------------ errors

  /** sync fails only on the task listing, DescribeTasks or the store, never with NoNetworkBindings. */
  lemma SyncErrors(w: World, env: Env, service: string)
    ensures var err := SyncRun(w, env, service).0;
            err.Some? ==>
              (err.value in {ApiFailure(Api.ListTasks), ApiFailure(Api.DescribeTasks)} || StoreError(err.value))
              && !Mentions(err.value, NoNetworkBindings)
  {
    var b := EcsBackend(w.caches, env.cluster, env.ec2, service).0;
    if b.Ok? {
      UpsertErrors(w.store, service, b.value, true, env.maxTries, 0, None);
    }
  }

  /** The services whose sync failed in a syncAll over `services`, in order, with their errors. */
  function SyncFailures(w: World, env: Env, services: seq<string>): seq<(string, Error)>
    decreases |services|
  {
    if services == [] then [] else
      var last := services[|services| - 1];
      var w1 := SyncAllRun(w, env, services[..|services| - 1]).1;
      var ierr := SyncRun(w1, env, last).0;
      SyncFailures(w, env, services[..|services| - 1]) + (if ierr.Some? then [(last, ierr.value)] else [])
  }

  /**
   * syncAll reports an error exactly when some service failed to sync, and
   * then only the last failure: the NoNetworkBindings filter never applies.
   */
  lemma {:induction false} SyncAllKeepsLast(w: World, env: Env, services: seq<string>)
    ensures var failures := SyncFailures(w, env, services);
            SyncAllRun(w, env, services).0
            == if failures == [] then None else Some(Many([failures[|failures| - 1]]))
    decreases |services|
  {
    if services != [] {
      var front := services[..|services| - 1];
      SyncAllKeepsLast(w, env, front);
      SyncErrors(SyncAllRun(w, env, front).1, env, services[|services| - 1]);
    }
  }

  // ------------------------------------------------------------- convergence

  /** A request nobody interferes with: no other writer, no lost call, truthful caches, one try at least. */
  predicate Calm(w: World, env: Env)
  {
    WellKeyed(w.store.items) && Quiet(w.store.script) && CachesAgree(w.caches, env.cluster, env.ec2)
    && env.maxTries >= 1
  }

  /** The servers the table holds for `service`; no record reads as none. */
  function StoredServers(items: map<string, BackendItem>, service: string): Option<map<string, Server>>
  {
    if RecordId(service) in items then items[RecordId(service)].backend.servers else None
  }

  lemma RecordIdInjective(a: string, b: string)
    ensures RecordId(a) == RecordId(b) <==> a == b
  {
    if RecordId(a) == RecordId(b) {
      assert |a| == |b|;
      assert a == RecordId(a)[..|a|] && b == RecordId(b)[..|b|];
    }
  }

  /**
   * A calm sync of a healthy service stores exactly its true servers, keeps
   * the record's hand-set settings, touches no other record, and leaves the
   * request calm.
   */
  lemma SyncCalm(w: World, env: Env, service: string)
    requires Calm(w, env) && Healthy(env.cluster, env.ec2, service)
    ensures var (err, w2) := SyncRun(w, env, service);
            var id := RecordId(service);
            && err == None && Calm(w2, env)
            && StoredServers(w2.store.items, service) == TrueBackend(env.cluster, env.ec2, service).servers
            && id in w2.store.items
            && (id in w.store.items ==> w2.store.items[id].backend.settings == w.store.items[id].backend.settings)
            && SameElsewhere(w.store.items, w2.store.items, id)
  {
    EcsBackendSound(w.caches, env.cluster, env.ec2, service);
    var live := TrueBackend(env.cluster, env.ec2, service);
    UpsertQuiet(w.store, service, live, true, env.maxTries);
    UpsertBoundsAndFrame(w.store, service, live, true, env.maxTries);
  }

  /** Syncing every healthy service, calmly, leaves each one's record holding its true servers. */
  lemma {:induction false} SyncAllConverges(w: World, env: Env, services: seq<string>)
    requires Calm(w, env)
    requires forall k :: 0 <= k < |services| ==> Healthy(env.cluster, env.ec2, services[k])
    ensures var (err, w2) := SyncAllRun(w, env, services);
            && err == None && Calm(w2, env)
            && forall k :: 0 <= k < |services| ==>
                 StoredServers(w2.store.items, services[k])
                 == TrueBackend(env.cluster, env.ec2, services[k]).servers
    decreases |services|
  {
    if services != [] {
      var front := services[..|services| - 1];
      var last := services[|services| - 1];
      assert forall k :: 0 <= k < |front| ==> front[k] == services[k];
      SyncAllConverges(w, env, front);
      var r1 := SyncAllRun(w, env, front);
      var w1 := r1.1;
      SyncCalm(w1, env, last);
      var w2 := SyncRun(w1, env, last).1;
      SyncAllStep(w, env, services);
      KeepsTrueServers(w1.store.items, w2.store.items, env, services);
    }
  }

  /** Writing the last service's record keeps the earlier services' records true. */
  lemma KeepsTrueServers(a: map<string, BackendItem>, b: map<string, BackendItem>, env: Env,
                         services: seq<string>)
    requires services != []
    requires forall k :: 0 <= k < |services| ==> Healthy(env.cluster, env.ec2, services[k])
    requires forall k :: 0 <= k < |services| - 1 ==>
               StoredServers(a, services[k]) == TrueBackend(env.cluster, env.ec2, services[k]).servers
    requires var last := services[|services| - 1];
             StoredServers(b, last) == TrueBackend(env.cluster, env.ec2, last).servers
             && SameElsewhere(a, b, RecordId(last))
    ensures forall k :: 0 <= k < |services| ==>
              StoredServers(b, services[k]) == TrueBackend(env.cluster, env.ec2, services[k]).servers
  {
    var last := services[|services| - 1];
    forall k | 0 <= k < |services|
      ensures StoredServers(b, services[k]) == TrueBackend(env.cluster, env.ec2, services[k]).servers
    {
      RecordIdInjective(services[k], last);
      if services[k] != last {
        StoredElsewhere(a, b, last, services[k]);
      }
    }
  }

  /** One more service in a syncAll: a sync that succeeds keeps the error so far. */
  lemma SyncAllStep(w: World, env: Env, services: seq<string>)
    requires services != []
    ensures var r1 := SyncAllRun(w, env, services[..|services| - 1]);
            var s := SyncRun(r1.1, env, services[|services| - 1]);
            s.0 == None ==> SyncAllRun(w, env, services) == (r1.0, s.1)
  {
  }

  lemma StoredElsewhere(a: map<string, BackendItem>, b: map<string, BackendItem>, written: string, other: string)
    requires SameElsewhere(a, b, RecordId(written)) && RecordId(other) != RecordId(written)
    ensures StoredServers(b, other) == StoredServers(a, other)
  {
    var id := RecordId(other);
    assert id in a.Keys - {RecordId(written)} <==> id in b.Keys - {RecordId(written)};
  }

  /**
   * diff writes nothing and, when the read meets no other writer, reports in
   * sync exactly when the stored servers are the service's true ones.
   */
  lemma DiffMeaning(w: World, env: Env, service: string)
    requires CachesAgree(w.caches, env.cluster, env.ec2) && Healthy(env.cluster, env.ec2, service)
    requires Next(w.store.script) == Deliver
    ensures var (d, w2) := DiffRun(w, env, service);
            && d.err == None
            && (d.inSync <==> StoredServers(w.store.items, service)
                              == TrueBackend(env.cluster, env.ec2, service).servers)
            && w2.store.items == w.store.items
            && CachesAgree(w2.caches, env.cluster, env.ec2)
  {
    EcsBackendSound(w.caches, env.cluster, env.ec2, service);
  }

  /** Right after a calm sync, diff finds the service in sync. */
  lemma DiffAfterSync(w: World, env: Env, service: string)
    requires Calm(w, env) && Healthy(env.cluster, env.ec2, service)
    ensures DiffRun(SyncRun(w, env, service).1, env, service).0 == DiffResult(true, None)
  {
    SyncCalm(w, env, service);
    var w2 := SyncRun(w, env, service).1;
    QuietRest(w2.store.script);
    DiffMeaning(w2, env, service);
  }

  // ------------------------------------------------------------------ events

  /**
   * An event for a task with a host port: an instance with no known address
   * is an error that writes nothing; otherwise, when the lookups answer, the
   * table changes exactly as the action asks for the task's true endpoint.
   * An event without a binding changes nothing at all.
   */
  lemma EventMeaning(w: World, env: Env, msg: Detail)
    requires EventWellFormed(msg) && CachesAgree(w.caches, env.cluster, env.ec2)
    ensures FirstHostPort(msg.containers).None? ==> EventRun(w, env, msg) == (None, w)
    ensures CachesAgree(EventRun(w, env, msg).1.caches, env.cluster, env.ec2)
    ensures var (err, w2) := EventRun(w, env, msg);
            FirstHostPort(msg.containers).Some? && TrueIp(env.cluster, env.ec2, msg.containerInstanceArn).None? ==>
              err.Some? && ResolutionError(err.value) && w2.store == w.store
    ensures var (err, w2) := EventRun(w, env, msg);
            var ip := TrueIp(env.cluster, env.ec2, msg.containerInstanceArn);
            var port := FirstHostPort(msg.containers);
            port.Some? && ip.Some? && LookupsAnswer(env.cluster, env.ec2) ==>
              var service := ServiceOfGroup(msg.group);
              var portIP := Endpoint(ip.value, port.value);
              match ActionFor(msg.lastStatus, msg.desiredStatus)
              case Register =>
                var run := Upsert(w.store, service, BackendFor([portIP]), false, env.maxTries);
                err == run.err && w2.store == run.after
              case Deregister =>
                var run := Remove(w.store, service, portIP, env.maxTries);
                err == run.err && w2.store == run.after
              case Skip => err == None && w2.store == w.store
  {
    ResolveSound(w.caches.ids, w.caches.ips, env.cluster, env.ec2, msg.containerInstanceArn);
    CachesStayTrue(w.caches.ids, w.caches.ips, env.cluster, env.ec2, msg.containerInstanceArn);
  }

  /** The servers a record holds, none when there is no record. */
  function RecordServers(items: map<string, BackendItem>, service: string): map<string, Server>
  {
    if RecordId(service) in items then ServersOf(items[RecordId(service)].backend) else map[]
  }

  /**
   * A calm RUNNING event adds the task's endpoint to the service's servers,
   * creating the record if there is none, and keeps every other server and
   * every hand-set setting.
   */
  lemma StartRegisters(w: World, env: Env, msg: Detail)
    requires Calm(w, env) && EventWellFormed(msg) && FirstHostPort(msg.containers).Some?
    requires msg.lastStatus == Running && msg.desiredStatus == Running
    requires LookupsAnswer(env.cluster, env.ec2) && TrueIp(env.cluster, env.ec2, msg.containerInstanceArn).Some?
    ensures var (err, w2) := EventRun(w, env, msg);
            var service := ServiceOfGroup(msg.group);
            var portIP := Endpoint(TrueIp(env.cluster, env.ec2, msg.containerInstanceArn).value,
                                   FirstHostPort(msg.containers).value);
            && err == None && Calm(w2, env)
            && RecordId(service) in w2.store.items
            && RecordServers(w2.store.items, service) == RecordServers(w.store.items, service)[portIP := ServerFor(portIP)]
            && (RecordId(service) in w.store.items ==>
                  w2.store.items[RecordId(service)].backend.settings
                  == w.store.items[RecordId(service)].backend.settings)
            && SameElsewhere(w.store.items, w2.store.items, RecordId(service))
  {
    EventMeaning(w, env, msg);
    var portIP := Endpoint(TrueIp(env.cluster, env.ec2, msg.containerInstanceArn).value,
                           FirstHostPort(msg.containers).value);
    RegisterQuiet(w.store, ServiceOfGroup(msg.group), portIP, env.maxTries);
  }

  /** With no other writer, merging one endpoint adds exactly that server and touches nothing else. */
  lemma RegisterQuiet(s: Snapshot, service: string, portIP: string, maxTries: nat)
    requires WellKeyed(s.items) && Quiet(s.script) && maxTries >= 1
    ensures var r := Upsert(s, service, BackendFor([portIP]), false, maxTries);
            var id := RecordId(service);
            && r.err == None && WellKeyed(r.after.items) && Quiet(r.after.script)
            && id in r.after.items
            && RecordServers(r.after.items, service) == RecordServers(s.items, service)[portIP := ServerFor(portIP)]
            && (id in s.items ==> r.after.items[id].backend.settings == s.items[id].backend.settings)
            && SameElsewhere(s.items, r.after.items, id)
  {
    var given := BackendFor([portIP]);
    assert ServersOf(given) == map[portIP := ServerFor(portIP)];
    UpsertQuiet(s, service, given, false, maxTries);
    UpsertBoundsAndFrame(s, service, given, false, maxTries);
    var id := RecordId(service);
    if id in s.items {
      MergeContents(s.items[id], given, s.items[id].version + 1);
    }
  }

  /**
   * A calm STOPPED event for the same task, after its RUNNING event, leaves
   * the service's servers as they were before it started (when the endpoint
   * was not already there), settings included.
   */
  lemma StopUndoesStart(w: World, env: Env, start: Detail, stop: Detail)
    requires Calm(w, env) && EventWellFormed(start) && FirstHostPort(start.containers).Some?
    requires start.lastStatus == Running && start.desiredStatus == Running
    requires stop.desiredStatus == Stopped && stop.containers == start.containers
    requires stop.group == start.group && stop.containerInstanceArn == start.containerInstanceArn
    requires LookupsAnswer(env.cluster, env.ec2) && TrueIp(env.cluster, env.ec2, start.containerInstanceArn).Some?
    requires var portIP := Endpoint(TrueIp(env.cluster, env.ec2, start.containerInstanceArn).value,
                                    FirstHostPort(start.containers).value);
             RecordId(ServiceOfGroup(start.group)) in w.store.items
             && portIP !in RecordServers(w.store.items, ServiceOfGroup(start.group))
    ensures var (err1, w1) := EventRun(w, env, start);
            var (err2, w2) := EventRun(w1, env, stop);
            var id := RecordId(ServiceOfGroup(start.group));
            && err1 == None && err2 == None && id in w2.store.items
            && RecordServers(w2.store.items, ServiceOfGroup(start.group))
               == RecordServers(w.store.items, ServiceOfGroup(start.group))
            && w2.store.items[id].backend.settings == w.store.items[id].backend.settings
  {
    var service := ServiceOfGroup(start.group);
    var portIP := Endpoint(TrueIp(env.cluster, env.ec2, start.containerInstanceArn).value,
                           FirstHostPort(start.containers).value);
    StartRegisters(w, env, start);
    var w1 := EventRun(w, env, start).1;
    EventMeaning(w1, env, stop);
    assert ActionFor(stop.lastStatus, stop.desiredStatus) == Deregister;
    var run := Remove(w1.store, service, portIP, env.maxTries);
    assert EventRun(w1, env, stop).0 == run.err && EventRun(w1, env, stop).1.store == run.after;
    DeregisterQuiet(w1.store, service, portIP, env.maxTries);
    assert RecordServers(w1.store.items, service) - {portIP} == RecordServers(w.store.items, service);
  }

  /** With no other writer, removing one endpoint from an existing record drops exactly that server. */
  lemma DeregisterQuiet(s: Snapshot, service: string, portIP: string, maxTries: nat)
    requires WellKeyed(s.items) && Quiet(s.script) && maxTries >= 1 && RecordId(service) in s.items
    ensures var r := Remove(s, service, portIP, maxTries);
            var id := RecordId(service);
            && r.err == None && id in r.after.items
            && RecordServers(r.after.items, service) == RecordServers(s.items, service) - {portIP}
            && r.after.items[id].backend.settings == s.items[id].backend.settings
  {
    RemoveQuiet(s, service, portIP, maxTries);
  }
}
