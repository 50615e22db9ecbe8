/**
 * The entry points a request comes in by (handlers.go): diff one or all
 * services, sync one or all, and apply one SNS-delivered ECS event.
 */
module Handlers {
  import opened Types
  import opened Aws
  import opened Store
  import opened StoreProperties
  import opened Identity
  import opened Inventory
  import opened Reconcile
  import opened ReconcileProperties

  /** HandleDiff: diff one service; an error always comes with "not in sync". */
  method HandleDiff(table: Table, cache: IdentityCache, env: Env, service: string)
    returns (synced: bool, err: Option<Error>)
    modifies table, cache
    ensures (DiffResult(synced, err), WorldOf(table, cache)) == DiffRun(old(WorldOf(table, cache)), env, service)
    ensures err.Some? ==> !synced
  {
    synced, err := Diff(table, cache, env, service);
    if err.Some? {
      return false, err;
    }
  }

  /** The services a diffAll over `services` finds out of sync, the failures, and the world afterwards. */
  function DiffAllRun(w: World, env: Env, services: seq<string>): (seq<string>, seq<(string, Error)>, World)
    decreases |services|
  {
    if services == [] then ([], [], w) else
      var last := services[|services| - 1];
      var (outOfSync, failures, w1) := DiffAllRun(w, env, services[..|services| - 1]);
      var (d, w2) := DiffRun(w1, env, last);
      (outOfSync + (if !d.inSync then [last] else []),
       failures + (if d.err.Some? then [(last, d.err.value)] else []),
       w2)
  }

  lemma DiffAllStep(w: World, env: Env, services: seq<string>)
    requires services != []
    ensures var last := services[|services| - 1];
            var r1 := DiffAllRun(w, env, services[..|services| - 1]);
            var d := DiffRun(r1.2, env, last);
            DiffAllRun(w, env, services)
            == (r1.0 + (if !d.0.inSync then [last] else []),
                r1.1 + (if d.0.err.Some? then [(last, d.0.err.value)] else []),
                d.1)
  {
  }

  datatype DiffAllResult = DiffAllResult(outOfSync: seq<string>, err: Option<Error>)

  /** HandleDiffAll: a failed listing reports nothing out of sync; otherwise every failure is chained. */
  function DiffAllAt(w: World, env: Env): (DiffAllResult, World)
    requires ServiceArnsNamed(env.cluster)
  {
    if !NoPageFailed(env.cluster.servicePages) then (DiffAllResult([], Some(ApiFailure(Api.ListServices))), w)
    else
      var (outOfSync, failures, w2) := DiffAllRun(w, env, ServiceNames(env.cluster));
      (DiffAllResult(outOfSync, if failures == [] then None else Some(Many(failures))), w2)
  }

  method HandleDiffAll(table: Table, cache: IdentityCache, env: Env)
    returns (outOfSync: seq<string>, err: Option<Error>)
    requires ServiceArnsNamed(env.cluster)
    modifies table, cache
    ensures (DiffAllResult(outOfSync, err), WorldOf(table, cache)) == DiffAllAt(old(WorldOf(table, cache)), env)
  {
    outOfSync := [];
    var services, lerr := Inventory.ListServices(env.cluster);
    if lerr.Some? {
      return outOfSync, lerr;
    }
    var failures: seq<(string, Error)> := [];
    ghost var w0 := old(WorldOf(table, cache));
    for i := 0 to |services|
      invariant outOfSync == DiffAllRun(w0, env, services[..i]).0
      invariant failures == DiffAllRun(w0, env, services[..i]).1
      invariant WorldOf(table, cache) == DiffAllRun(w0, env, services[..i]).2
    {
      DiffAllStep(w0, env, services[..i + 1]);
      assert services[..i + 1][..i] == services[..i];
      var inSync, ierr := Diff(table, cache, env, services[i]);
      if ierr.Some? {
        failures := failures + [(services[i], ierr.value)];
      }
      if !inSync {
        outOfSync := outOfSync + [services[i]];
      }
    }
    assert services[..|services|] == services;
    err := if failures == [] then None else Some(Many(failures));
  }

  /** The services diffAll lists are listed services, in order, and every service it failed on is among them. */
  lemma {:induction false} DiffAllReports(w: World, env: Env, services: seq<string>)
    ensures var (outOfSync, failures, _) := DiffAllRun(w, env, services);
            && |outOfSync| <= |services| && |failures| <= |services|
            && (forall s :: s in outOfSync ==> s in services)
            && (forall k :: 0 <= k < |failures| ==> failures[k].0 in outOfSync)
    decreases |services|
  {
    if services != [] {
      var front := services[..|services| - 1];
      DiffAllReports(w, env, front);
      var (o, f, w1) := DiffAllRun(w, env, front);
      var (d, w2) := DiffRun(w1, env, services[|services| - 1]);
      assert d.err.Some? ==> !d.inSync;
      forall s | s in o ensures s in services {
        assert s in front;
      }
    }
  }

  /** diffAll over services whose records are true, with no other writer, finds nothing and writes nothing. */
  lemma {:induction false} DiffAllClean(w: World, env: Env, services: seq<string>)
    requires CachesAgree(w.caches, env.cluster, env.ec2) && Quiet(w.store.script)
    requires forall k :: 0 <= k < |services| ==>
               Healthy(env.cluster, env.ec2, services[k])
               && StoredServers(w.store.items, services[k]) == TrueBackend(env.cluster, env.ec2, services[k]).servers
    ensures var (outOfSync, failures, w2) := DiffAllRun(w, env, services);
            && outOfSync == [] && failures == []
            && w2.store.items == w.store.items && Quiet(w2.store.script)
            && CachesAgree(w2.caches, env.cluster, env.ec2)
    decreases |services|
  {
    if services != [] {
      var front := services[..|services| - 1];
      var last := services[|services| - 1];
      assert forall k :: 0 <= k < |front| ==> front[k] == services[k];
      DiffAllClean(w, env, front);
      var w1 := DiffAllRun(w, env, front).2;
      QuietRest(w1.store.script);
      DiffMeaning(w1, env, last);
      EcsBackendSound(w1.caches, env.cluster, env.ec2, last);
    }
  }

  /**
   * HandleSyncAll followed by HandleDiffAll, on a calm and healthy cluster,
   * reports every service in sync and no error.
   */
  lemma DiffAllAfterSyncAll(w: World, env: Env)
    requires Calm(w, env) && ServiceArnsNamed(env.cluster) && NoPageFailed(env.cluster.servicePages)
    requires forall k :: 0 <= k < |ServiceNames(env.cluster)| ==> Healthy(env.cluster, env.ec2, ServiceNames(env.cluster)[k])
    ensures SyncAllAt(w, env).0 == None
    ensures DiffAllAt(SyncAllAt(w, env).1, env).0 == DiffAllResult([], None)
  {
    var services := ServiceNames(env.cluster);
    SyncAllConverges(w, env, services);
    DiffAllClean(SyncAllAt(w, env).1, env, services);
  }

  /** HandleSync: sync one service. */
  method HandleSync(table: Table, cache: IdentityCache, env: Env, service: string) returns (err: Option<Error>)
    modifies table, cache
    ensures (err, WorldOf(table, cache)) == SyncRun(old(WorldOf(table, cache)), env, service)
  {
    err := Sync(table, cache, env, service);
  }

  /** HandleSyncAll: syncAll with no pause. */
  method HandleSyncAll(table: Table, cache: IdentityCache, env: Env) returns (err: Option<Error>)
    requires ServiceArnsNamed(env.cluster)
    modifies table, cache
    ensures (err, WorldOf(table, cache)) == SyncAllAt(old(WorldOf(table, cache)), env)
  {
    err := SyncAll(table, cache, env, 0);
  }

  /** HandleSyncSlow: syncAll pausing `milliseconds` between services. */
  method HandleSyncSlow(table: Table, cache: IdentityCache, env: Env, milliseconds: int) returns (err: Option<Error>)
    requires ServiceArnsNamed(env.cluster)
    modifies table, cache
    ensures (err, WorldOf(table, cache)) == SyncAllAt(old(WorldOf(table, cache)), env)
  {
    err := SyncAll(table, cache, env, milliseconds);
  }

  /** The Message field of an SNS notification, read as an ECS task event. */
  datatype Message = Event(detail: Detail) | Garbled

  /** An SNS request body. */
  datatype Notification = Notification(message: Message) | Unreadable

  predicate NotificationWellFormed(n: Notification)
  {
    n.Notification? && n.message.Event? ==> EventWellFormed(n.message.detail)
  }

  /** HandleSNS: decode the body, then the message, then apply the event. */
  function SnsRun(w: World, env: Env, n: Notification): (Option<Error>, World)
    requires NotificationWellFormed(n)
  {
    if n.Unreadable? || n.message.Garbled? then (Some(Undecodable), w)
    else EventRun(w, env, n.message.detail)
  }

  method HandleSns(table: Table, cache: IdentityCache, env: Env, n: Notification) returns (err: Option<Error>)
    requires NotificationWellFormed(n)
    modifies table, cache
    ensures (err, WorldOf(table, cache)) == SnsRun(old(WorldOf(table, cache)), env, n)
  {
    if n.Unreadable? {
      return Some(Undecodable);
    }
    if n.message.Garbled? {
      return Some(Undecodable);
    }
    err := ProcessEcsEventMessage(table, cache, env, n.message.detail);
  }

  /** A body that cannot be decoded changes nothing; a decoded event without a binding is a no-op. */
  lemma SnsMeaning(w: World, env: Env, n: Notification)
    requires NotificationWellFormed(n) && CachesAgree(w.caches, env.cluster, env.ec2)
    ensures n.Unreadable? || n.message.Garbled? ==> SnsRun(w, env, n) == (Some(Undecodable), w)
    ensures n.Notification? && n.message.Event? && FirstHostPort(n.message.detail.containers).None? ==>
              SnsRun(w, env, n) == (None, w)
    ensures CachesAgree(SnsRun(w, env, n).1.caches, env.cluster, env.ec2)
  {
    if n.Notification? && n.message.Event? {
      EventMeaning(w, env, n.message.detail);
    }
  }
}
