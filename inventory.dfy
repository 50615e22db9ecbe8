/**
 * Reading the cluster (ecs.go: listServices, getTaskArns, getTasks,
 * getAddressOfTasks, getBackendECS): which services exist and which
 * addresses a service's tasks currently listen on.
 */
module Inventory {
  import opened Types
  import opened Text
  import opened Aws
  import opened Backends
  import opened Identity

  // ---------------------------------------------------------------- services

  predicate NoPageFailed(pages: seq<Page>)
  {
    forall k :: 0 <= k < |pages| ==> pages[k].Page?
  }

  /** The ARNs of all pages, in order. */
  function Concat(pages: seq<Page>): (arns: seq<string>)
    requires NoPageFailed(pages)
    ensures forall a :: a in arns ==> exists k :: 0 <= k < |pages| && a in pages[k].arns
    decreases |pages|
  {
    if pages == [] then [] else
      var front := pages[..|pages| - 1];
      var r := Concat(front);
      assert forall a :: a in r ==> exists k :: 0 <= k < |pages| && a in pages[k].arns by {
        forall a | a in r ensures exists k :: 0 <= k < |pages| && a in pages[k].arns {
          var k :| 0 <= k < |front| && a in front[k].arns;
          assert pages[k] == front[k];
        }
      }
      r + pages[|pages| - 1].arns
  }

  /** Every listed service ARN has a `/`; the source reads the name after the first one. */
  predicate ServiceArnsNamed(c: Cluster)
  {
    forall k, a :: 0 <= k < |c.servicePages| && c.servicePages[k].Page? && a in c.servicePages[k].arns ==> '/' in a
  }

  /** The service name of an ARN: the field after the first `/`. */
  function ServiceName(arn: string): string
    requires '/' in arn
  {
    Split(arn, '/')[1]
  }

  /** An ARN `prefix/name` names the service `name`. */
  lemma ServiceNameOf(prefix: string, name: string)
    requires '/' !in prefix && '/' !in name
    ensures '/' in prefix + "/" + name
    ensures ServiceName(prefix + "/" + name) == name
  {
    var parts := [prefix, name];
    assert Join(parts, '/') == prefix + "/" + name by {
      assert Join(parts[1..], '/') == name;
    }
    JoinSplit(parts, '/');
    assert (prefix + "/" + name)[|prefix|] == '/';
  }

  /** The names of all listed services, in listing order. */
  function ServiceNames(c: Cluster): (names: seq<string>)
    requires ServiceArnsNamed(c) && NoPageFailed(c.servicePages)
    ensures |names| == |Concat(c.servicePages)|
    ensures forall k :: 0 <= k < |names| ==>
              '/' in Concat(c.servicePages)[k] && names[k] == ServiceName(Concat(c.servicePages)[k])
  {
    var arns := Concat(c.servicePages);
    assert forall a :: a in arns ==> '/' in a by {
      forall a | a in arns ensures '/' in a {
        var k :| 0 <= k < |c.servicePages| && a in c.servicePages[k].arns;
      }
    }
    seq(|arns|, k requires 0 <= k < |arns| => ServiceName(arns[k]))
  }

  /** listServices: every page, then the name of each service; empty on any failed page. */
  method ListServices(c: Cluster) returns (names: seq<string>, err: Option<Error>)
    requires ServiceArnsNamed(c)
    ensures !NoPageFailed(c.servicePages) ==> names == [] && err == Some(ApiFailure(Api.ListServices))
    ensures NoPageFailed(c.servicePages) ==> err == None && names == ServiceNames(c)
  {
    var pages := c.servicePages;
    var services: seq<string> := [];
    for k := 0 to |pages|
      invariant NoPageFailed(pages[..k]) && services == Concat(pages[..k])
    {
      assert pages[..k + 1][..k] == pages[..k];
      if pages[k].PageFailed? {
        return [], Some(ApiFailure(Api.ListServices));
      }
      services := services + pages[k].arns;
    }
    assert pages[..|pages|] == pages;
    assert services == Concat(c.servicePages);
    ghost var expected := ServiceNames(c);
    assert forall k :: 0 <= k < |services| ==> '/' in services[k] && ServiceName(services[k]) == expected[k];
    names := [];
    for i := 0 to |services|
      invariant |names| == i && forall j :: 0 <= j < i ==> names[j] == ServiceName(services[j])
    {
      names := names + [ServiceName(services[i])];
    }
    err := None;
  }

  // ------------------------------------------------------------------- tasks

  /**
   * getTaskArns: the ARNs of the first page of ListTasks (the key "" lists the
   * whole cluster). The callback returns `lastPage`, so later pages are never read.
   */
  function TaskArns(c: Cluster, service: string): (r: Result<seq<string>>)
    ensures r.Err? <==> service !in c.taskPages
                        || (c.taskPages[service] != [] && c.taskPages[service][0].PageFailed?)
    ensures r.Err? ==> r.error == ApiFailure(Api.ListTasks)
    ensures r.Ok? && c.taskPages[service] == [] ==> r.value == []
    ensures r.Ok? && c.taskPages[service] != [] ==> r.value == c.taskPages[service][0].arns
  {
    if service !in c.taskPages then Err(ApiFailure(Api.ListTasks))
    else
      var pages := c.taskPages[service];
      if pages == [] then Ok([])
      else if pages[0].PageFailed? then Err(ApiFailure(Api.ListTasks))
      else Ok(pages[0].arns)
  }

  /** A task listed only on the second page is not seen, whatever that page holds. */
  lemma TaskListingStopsAfterFirstPage(c: Cluster, service: string, first: seq<string>, a: string)
    requires service in c.taskPages && |c.taskPages[service]| >= 2
    requires c.taskPages[service][0] == Page(first) && a !in first
    ensures TaskArns(c, service).Ok? && a !in TaskArns(c, service).value
  {
  }

  /** The tasks ECS knows among `arns`, in order. */
  function KnownTasks(tasks: map<string, Task>, arns: seq<string>): (r: seq<Task>)
    ensures |r| <= |arns|
    ensures forall t :: t in r ==> exists a :: a in arns && a in tasks && tasks[a] == t
    decreases |arns|
  {
    if arns == [] then [] else
      var front := arns[..|arns| - 1];
      var last := arns[|arns| - 1];
      var r := KnownTasks(tasks, front);
      assert forall t :: t in r ==> exists a :: a in arns && a in tasks && tasks[a] == t by {
        forall t | t in r ensures exists a :: a in arns && a in tasks && tasks[a] == t {
          var a :| a in front && a in tasks && tasks[a] == t;
          assert a in arns;
        }
      }
      r + (if last in tasks then [tasks[last]] else [])
  }

  /** getTasks: no call at all for no ARNs, else one DescribeTasks. */
  function DescribedTasks(c: Cluster, arns: seq<string>): (r: Result<seq<Task>>)
    ensures arns == [] ==> r == Ok([])
    ensures r.Err? <==> arns != [] && c.describeTasksFails
    ensures r.Ok? ==> forall t :: t in r.value ==> exists a :: a in arns && a in c.tasks && c.tasks[a] == t
  {
    if |arns| == 0 then Ok([])
    else if c.describeTasksFails then Err(ApiFailure(Api.DescribeTasks))
    else Ok(KnownTasks(c.tasks, arns))
  }

  // --------------------------------------------------------------- addresses

  /** The two caches together. */
  datatype Caches = Caches(ids: map<string, string>, ips: map<string, string>)

  predicate CachesAgree(k: Caches, c: Cluster, e: Ec2)
  {
    IdsAgree(k.ids, c) && IpsAgree(k.ips, e)
  }

  /** The host port of a task as text, or "" when it has no binding. */
  function PortOf(t: Task): (port: string)
    ensures port == "" <==> FirstHostPort(t.containers).None?
  {
    match FirstHostPort(t.containers)
    case None => ""
    case Some(p) => Decimal(p)
  }

  /** What getAddressOfTasks does for one task: maybe an address, and the caches afterwards. */
  function AddressStep(k: Caches, c: Cluster, e: Ec2, t: Task): (Option<string>, Caches)
  {
    var port := PortOf(t);
    if port == "" then (None, k) else
      var arn := t.containerInstanceArn;
      var k' := Caches(IdsAfter(k.ids, c, arn), IpsAfterResolve(k.ids, k.ips, c, e, arn));
      match Resolve(k.ids, k.ips, c, e, arn)
      case Err(_) => (None, k')
      case Ok(ip) => (Some(ip + ":" + port), k')
  }

  /** getAddressOfTasks over `tasks`: the addresses found and the caches afterwards. */
  function AddressesOf(k: Caches, c: Cluster, e: Ec2, tasks: seq<Task>): (seq<string>, Caches)
    decreases |tasks|
  {
    if tasks == [] then ([], k) else
      var (front, k1) := AddressesOf(k, c, e, tasks[..|tasks| - 1]);
      var (a, k2) := AddressStep(k1, c, e, tasks[|tasks| - 1]);
      (front + (if a.Some? then [a.value] else []), k2)
  }

  /** The address a task really listens on, if it has a binding and a reachable instance. */
  function TrueAddress(c: Cluster, e: Ec2, t: Task): Option<string>
  {
    match (FirstHostPort(t.containers), TrueIp(c, e, t.containerInstanceArn))
    case (Some(p), Some(ip)) => Some(ip + ":" + Decimal(p))
    case _ => None
  }

  /** The addresses of `tasks` by ECS and EC2's own records, with no cache involved. */
  function TrueAddresses(c: Cluster, e: Ec2, tasks: seq<Task>): seq<string>
    decreases |tasks|
  {
    if tasks == [] then [] else
      var a := TrueAddress(c, e, tasks[|tasks| - 1]);
      TrueAddresses(c, e, tasks[..|tasks| - 1]) + (if a.Some? then [a.value] else [])
  }

  /** One task: a found address is the true one, and the caches keep agreeing with AWS. */
  lemma AddressStepSound(k: Caches, c: Cluster, e: Ec2, t: Task)
    requires CachesAgree(k, c, e)
    ensures CachesAgree(AddressStep(k, c, e, t).1, c, e)
    ensures AddressStep(k, c, e, t).0.Some? ==> AddressStep(k, c, e, t).0 == TrueAddress(c, e, t)
    ensures LookupsAnswer(c, e) ==> AddressStep(k, c, e, t).0 == TrueAddress(c, e, t)
  {
    ResolveSound(k.ids, k.ips, c, e, t.containerInstanceArn);
    CachesStayTrue(k.ids, k.ips, c, e, t.containerInstanceArn);
  }

  /**
   * With caches that agree with AWS, every address getAddressOfTasks returns
   * is a true one, at most one per task, and the caches still agree afterwards.
   */
  lemma {:induction false} AddressesSound(k: Caches, c: Cluster, e: Ec2, tasks: seq<Task>)
    requires CachesAgree(k, c, e)
    ensures CachesAgree(AddressesOf(k, c, e, tasks).1, c, e)
    ensures |AddressesOf(k, c, e, tasks).0| <= |tasks|
    ensures forall a :: a in AddressesOf(k, c, e, tasks).0 ==> a in TrueAddresses(c, e, tasks)
    decreases |tasks|
  {
    if tasks != [] {
      var front := tasks[..|tasks| - 1];
      var last := tasks[|tasks| - 1];
      AddressesSound(k, c, e, front);
      var k1 := AddressesOf(k, c, e, front).1;
      AddressStepSound(k1, c, e, last);
    }
  }

  /** When no lookup call fails, getAddressOfTasks finds exactly the true addresses, in task order. */
  lemma {:induction false} AddressesComplete(k: Caches, c: Cluster, e: Ec2, tasks: seq<Task>)
    requires CachesAgree(k, c, e) && LookupsAnswer(c, e)
    ensures AddressesOf(k, c, e, tasks).0 == TrueAddresses(c, e, tasks)
    decreases |tasks|
  {
    if tasks != [] {
      var front := tasks[..|tasks| - 1];
      AddressesComplete(k, c, e, front);
      AddressesSound(k, c, e, front);
      AddressStepSound(AddressesOf(k, c, e, front).1, c, e, tasks[|tasks| - 1]);
    }
  }

  /** getAddressOfTasks: one address per task that has a binding and whose instance resolves. */
  method GetAddressOfTasks(cache: IdentityCache, tasks: seq<Task>, c: Cluster, e: Ec2)
    returns (addresses: seq<string>)
    modifies cache
    ensures (addresses, Caches(cache.instanceIds, cache.privateIps))
            == AddressesOf(Caches(old(cache.instanceIds), old(cache.privateIps)), c, e, tasks)
  {
    addresses := [];
    for i := 0 to |tasks|
      invariant (addresses, Caches(cache.instanceIds, cache.privateIps))
                == AddressesOf(Caches(old(cache.instanceIds), old(cache.privateIps)), c, e, tasks[..i])
    {
      assert tasks[..i + 1][..i] == tasks[..i];
      var task := tasks[i];
      ghost var before := (addresses, Caches(cache.instanceIds, cache.privateIps));
      ghost var step := AddressStep(before.1, c, e, task);
      var port := "";
      if |task.containers| > 0 && |task.containers[0].networkBindings| > 0 {
        port := Decimal(task.containers[0].networkBindings[0].hostPort);
      }
      assert port == PortOf(task);
      if port != "" {
        var ip := cache.GetIp(task.containerInstanceArn, c, e);
        assert ip == Resolve(before.1.ids, before.1.ips, c, e, task.containerInstanceArn);
        assert step.1 == Caches(cache.instanceIds, cache.privateIps);
        if ip.Ok? {
          assert step.0 == Some(ip.value + ":" + port);
          addresses := addresses + [ip.value + ":" + port];
        } else {
          assert step.0 == None;
        }
      } else {
        assert step == (None, before.1);
      }
      assert addresses == before.0 + (if step.0.Some? then [step.0.value] else []);
      assert Caches(cache.instanceIds, cache.privateIps) == step.1;
    }
    assert tasks[..|tasks|] == tasks;
  }

  // ----------------------------------------------------------------- backend

  /** getBackendECS: the backend a service's tasks make up now, and the caches afterwards. */
  function EcsBackend(k: Caches, c: Cluster, e: Ec2, service: string): (Result<Backend>, Caches)
  {
    match TaskArns(c, service)
    case Err(err) => (Err(err), k)
    case Ok(arns) =>
      match DescribedTasks(c, arns)
      case Err(err) => (Err(err), k)
      case Ok(tasks) =>
        var (addresses, k') := AddressesOf(k, c, e, tasks);
        (Ok(BackendFor(addresses)), k')
  }

  /** Every call serving `service` answers: its task listing, DescribeTasks and the lookups. */
  predicate Healthy(c: Cluster, e: Ec2, service: string)
  {
    TaskArns(c, service).Ok? && !c.describeTasksFails && LookupsAnswer(c, e)
  }

  /** The tasks ECS reports for a healthy service. */
  function ServiceTasks(c: Cluster, e: Ec2, service: string): seq<Task>
    requires Healthy(c, e, service)
  {
    DescribedTasks(c, TaskArns(c, service).value).value
  }

  /** The backend the service should have: one server per true address of its tasks. */
  function TrueBackend(c: Cluster, e: Ec2, service: string): Backend
    requires Healthy(c, e, service)
  {
    BackendFor(TrueAddresses(c, e, ServiceTasks(c, e, service)))
  }

  /**
   * getBackendECS fails only on the task listing or DescribeTasks, its servers
   * are true addresses, it keeps the caches truthful, and a healthy service
   * gets exactly its true backend.
   */
  lemma EcsBackendSound(k: Caches, c: Cluster, e: Ec2, service: string)
    requires CachesAgree(k, c, e)
    ensures CachesAgree(EcsBackend(k, c, e, service).1, c, e)
    ensures EcsBackend(k, c, e, service).0.Err? ==>
              EcsBackend(k, c, e, service).0.error in {ApiFailure(Api.ListTasks), ApiFailure(Api.DescribeTasks)}
    ensures EcsBackend(k, c, e, service).0.Err? <==>
              TaskArns(c, service).Err? || (TaskArns(c, service).value != [] && c.describeTasksFails)
    ensures EcsBackend(k, c, e, service).0.Ok? ==>
              EcsBackend(k, c, e, service).0.value.settings == map[]
              && forall a :: a in ServersOf(EcsBackend(k, c, e, service).0.value) ==>
                   exists t :: t in DescribedTasks(c, TaskArns(c, service).value).value
                               && TrueAddress(c, e, t) == Some(a)
    ensures Healthy(c, e, service) ==> EcsBackend(k, c, e, service).0 == Ok(TrueBackend(c, e, service))
  {
    if TaskArns(c, service).Ok? && DescribedTasks(c, TaskArns(c, service).value).Ok? {
      var tasks := DescribedTasks(c, TaskArns(c, service).value).value;
      AddressesSound(k, c, e, tasks);
      TrueAddressesFrom(c, e, tasks);
      if LookupsAnswer(c, e) {
        AddressesComplete(k, c, e, tasks);
      }
    }
  }

  /** Each true address belongs to one of the tasks. */
  lemma {:induction false} TrueAddressesFrom(c: Cluster, e: Ec2, tasks: seq<Task>)
    ensures forall a :: a in TrueAddresses(c, e, tasks) ==> exists t :: t in tasks && TrueAddress(c, e, t) == Some(a)
    decreases |tasks|
  {
    if tasks != [] {
      var front := tasks[..|tasks| - 1];
      TrueAddressesFrom(c, e, front);
      forall a | a in TrueAddresses(c, e, tasks) ensures exists t :: t in tasks && TrueAddress(c, e, t) == Some(a) {
        if a in TrueAddresses(c, e, front) {
          var t :| t in front && TrueAddress(c, e, t) == Some(a);
          assert t in tasks;
        } else {
          assert TrueAddress(c, e, tasks[|tasks| - 1]) == Some(a);
        }
      }
    }
  }

  /** getBackendECS: the zero backend alongside an error. */
  method GetBackendEcs(cache: IdentityCache, service: string, c: Cluster, e: Ec2)
    returns (backend: Backend, err: Option<Error>)
    modifies cache
    ensures var (r, k) := EcsBackend(Caches(old(cache.instanceIds), old(cache.privateIps)), c, e, service);
            Caches(cache.instanceIds, cache.privateIps) == k
            && (if r.Ok? then backend == r.value && err == None
                else backend == Backend(None, map[]) && err == Some(r.error))
  {
    var taskArns := TaskArns(c, service);
    if taskArns.Err? {
      return Backend(None, map[]), Some(taskArns.error);
    }
    var tasks := DescribedTasks(c, taskArns.value);
    if tasks.Err? {
      return Backend(None, map[]), Some(tasks.error);
    }
    var addresses := GetAddressOfTasks(cache, tasks.value, c, e);
    backend := CreateBackend(addresses);
    err := None;
  }
}
