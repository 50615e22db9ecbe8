# ecs-task-tracker, modelled in Dafny

ecs-task-tracker keeps a traefik routing table in DynamoDB in step with the
tasks of an ECS cluster. Every service has one record, `<service>__backend`,
that holds a traefik backend. The backend's server map has one
`http://ip:port` entry per task that exposes a host port, plus settings that
operators set by hand and the tracker never touches. A record also carries a
version number, which serves as an optimistic lock.

Records change in two ways:

- An ECS task state-change event, delivered through SNS, adds or removes one
  task's endpoint.
- A sync rebuilds a service's server map from what ECS reports.
  Sync runs for one service or for all of them.

A diff compares the stored servers with ECS's view without writing.

Turning a task into an address takes two steps. The container-instance ARN
resolves to an EC2 instance id, and the instance id resolves to a private IP.
Each step is cached in memory for the life of the process.

## Structure

| file | module | models |
|---|---|---|
| `types.dfy` | `Types` | records, events and errors shared by all parts |
| `text.dfy` | `Text` | Go's `strconv.Itoa`/`FormatInt`, `strings.Split`/`Join` |
| `backends.dfy` | `Backends` | building and merging traefik backends |
| `store.dfy` | `Store` | the DynamoDB table (a `Table` class) and the two retry loops |
| `store_properties.dfy` | `StoreProperties` | bounds, frame, conflict and race lemmas for the store |
| `aws.dfy` | `Aws` | what ECS and EC2 answer, as immutable inventory |
| `identity.dfy` | `Identity` | the instance-id and IP caches (an `IdentityCache` class) |
| `inventory.dfy` | `Inventory` | listing services and tasks, collecting addresses, the ECS backend |
| `reconcile.dfy` | `Reconcile` | sync, syncAll, diff and the event handler |
| `reconcile_properties.dfy` | `ReconcileProperties` | endpoints, error kinds, convergence, event lemmas |
| `handlers.dfy` | `Handlers` | the HandleDiff/DiffAll/Sync/SyncAll/SyncSlow/SNS entry points |

### How the model is built

- **The store.** The DynamoDB table is a class whose state is the record map
  plus a script of outcomes the next calls meet:
  - `Deliver`: the call works;
  - `Interleave(rival)`: another writer got in first. If the record exists,
    the rival replaced its backend and bumped the version. If there is no
    record yet, the rival put a new one at version 0 with its backend;
  - `Drop`: the call fails.

  Version conflicts are not chosen arbitrarily. They come out of the
  `#v = :v` condition when a rival got in between. From there:
  - each store method is proved equal to a step function on snapshots;
  - each retry loop is proved equal to a recursive function
    (`Store.UpsertLoop`, `Store.RemoveLoop`);
  - everything the source promises is proved about those functions.
- **The caches.** These are the only other mutable state: a class with two
  map fields. Its methods are proved equal to pure lookups (`Identity.LookupId`,
  `Identity.LookupIp`, `Identity.Resolve`). Those lookups are proved sound
  against the inventory: `Aws.TrueIp` is the address ECS and EC2 really report.
- **The request operations.** Sync, diff, event handling and the handlers take
  the table, the cache and an `Env`. The `Env` holds the cluster, EC2 and the
  retry budget `MaxTries`. Each operation is proved equal to a function of a
  `World`, which is a table snapshot plus the caches. The cross-operation
  properties are lemmas about those functions:
  - sync then diff is in sync;
  - syncAll converges;
  - a STOPPED event undoes its RUNNING event.
- **Errors.** They are a datatype. The source classifies an error by searching
  its text for `ItemNotFound`, `ConditionalCheckFailedException` or
  `NoNetworkBindings`. The model classifies by root kind (`Types.Mentions`): it
  looks through the "tried to update N times" wrapper and no other context.

### Behaviour of the code worth knowing

- **diffAll** chains every per-service failure into its error, in listing
  order (`Many(failures)`).
- **syncAll** keeps only the **last** failing service's error. Each failure
  overwrites the one before (`ReconcileProperties.SyncAllKeepsLast`).
- **The NoNetworkBindings filter in syncAll never applies.** Nothing in the
  code produces that error, so no per-service failure is ever filtered out
  (`ReconcileProperties.SyncErrors`).
- **getTaskArns reads only the first page of ListTasks.** Its callback
  returns `lastPage`, and returning false stops paging. listServices returns
  `!lastPage` and so reads every page
  (`Inventory.TaskListingStopsAfterFirstPage`).
- **MaxTries of 0.** This makes updateBackendDynamoDB return success without
  doing anything, because `errors.Wrap(nil, …)` is nil. The model keeps this.
- **Creating a record is an unconditional put.** Two first-time writers on one
  service both read ItemNotFound and both put a new record at version 0. The
  later put replaces the earlier one, so the earlier writer's endpoint is lost
  even though both calls succeed (`StoreProperties.CreationRaceOverwrites`).

## Model

| member | source | states |
|---|---|---|
| Types.FirstHostPort | src/utils/ecs.go:127-129 | the first container's first binding exists exactly when there is a container with a binding, and the port is that binding's host port |
| Text.Decimal | src/utils/utils.go:198 | a port's text is never empty and starts with '-' exactly for negative numbers |
| Text.DecimalRoundTrip | src/utils/ecs.go:128 | reading a formatted number gives the number back |
| Text.NaturalRoundTrip | src/utils/ecs.go:128 | reading the digits of a natural number gives the number back |
| Text.IndexOf | src/utils/ecs.go:84 | the position found holds the separator and none comes before it |
| Text.Split | src/utils/ecs.go:84 | at least one field, no field holds the separator, and there are two or more exactly when the text holds one |
| Text.SplitJoin | src/utils/ecs.go:84 | joining the fields of a split gives the text back |
| Text.JoinSplit | src/utils/utils.go:191 | splitting joined separator-free fields gives the fields back |
| Backends.CreateBackend | src/utils/utils.go:320-333 | no server map at all for no addresses; otherwise one `http://`-prefixed server per distinct address, and no other settings |
| Backends.CreateBackendItem | src/utils/utils.go:336-347 | a new record keyed `<name>__backend` at version 0 holding the backend |
| Backends.UpdateBackendItemServers | src/utils/utils.go:350-358 | the union of both server maps, the given entry winning; id, name, version and settings unchanged; a nil map becomes a map |
| Store.GetItemStep | src/utils/dynamodb.go:16-37 | a lost call is an API error, a missing record is ItemNotFound, otherwise the record as it is after any rival's write |
| Store.UpdateStep | src/utils/dynamodb.go:63-93 | the write succeeds exactly when the stored version equals the item's; it then sets version+1 and the backend, and otherwise fails with a conditional-check or API error and writes nothing |
| Store.PutStep | src/utils/dynamodb.go:167-185 | an unconditional put of the item unless the call is lost |
| Store.Table.GetItem | src/utils/dynamodb.go:16-37 | the read is the step function's result, and the table moves to its next state |
| Store.Table.GetBackendItem | src/utils/dynamodb.go:40-52 | reads the record `<name>__backend` |
| Store.Table.GetBackend | src/utils/dynamodb.go:54-60 | the backend of the record, or an empty backend beside the error |
| Store.Table.UpdateBackendWithLock | src/utils/dynamodb.go:63-93 | the conditional write, as the step function |
| Store.Table.CreateBackendDynamoDB | src/utils/dynamodb.go:167-185 | the put, as the step function |
| Store.Table.UpdateBackendDynamoDB | src/utils/dynamodb.go:97-141 | the loop's result and the table afterwards are those of the retry function `Upsert` |
| Store.Table.RemoveServerFromBackendDynamoDB | src/utils/dynamodb.go:144-164 | the loop's result and the table afterwards are those of the retry function `Remove` |
| Store.WithServersReplaced | src/utils/dynamodb.go:117-119 | the overwrite replaces only the server map; id, name, version and settings stay |
| Store.WithoutServer | src/utils/dynamodb.go:153 | exactly that address leaves the server map; a nil map stays nil; everything else stays |
| Store.UpsertLoop | src/utils/dynamodb.go:100-140 | the loop from attempt `i` makes at least one more attempt while any are left, and never more than MaxTries in all |
| Store.Upsert | src/utils/dynamodb.go:97-141 | at most MaxTries attempts, none exactly when MaxTries is 0, and then success with nothing written |
| Store.RemoveLoop | src/utils/dynamodb.go:148-163 | the removal loop from attempt `i` makes at least one more attempt while any are left, and never more than MaxTries in all |
| Store.Remove | src/utils/dynamodb.go:144-164 | at most MaxTries attempts, none exactly when MaxTries is 0, and then success with nothing written |
| StoreProperties.UpsertLoopFacts | src/utils/dynamodb.go:100-140 | from any attempt on, the loop stays within MaxTries, keeps record ids right, writes only the service's record, and a conflict error means every attempt was spent |
| StoreProperties.UpsertBoundsAndFrame | src/utils/dynamodb.go:97-141 | at most MaxTries attempts, and none only when MaxTries is 0; no other record is written; the record is never deleted and its version never lowered; giving up on conflicts reports "tried N times" over the conflict |
| StoreProperties.UpsertSuccess | src/utils/dynamodb.go:116-128 | a successful upsert leaves the record in place: exactly the given servers when overwriting, and at least the given entries when merging, whatever rivals did |
| StoreProperties.UpsertQuiet | src/utils/dynamodb.go:100-128 | with no rival and no lost call, one attempt succeeds: a missing record is created at version 0, and an existing one is updated at version+1 |
| StoreProperties.MergeContents | src/utils/utils.go:350-358 | the merged servers are the old ones plus the new ones, the new entry winning a shared address |
| StoreProperties.UpsertReadLost | src/utils/dynamodb.go:102-113 | a lost read ends the upsert at once with that error and writes nothing |
| StoreProperties.UpsertWriteLost | src/utils/dynamodb.go:133-140 | a lost update ends the loop with "tried N times" over the API error |
| StoreProperties.UpsertRace | src/utils/dynamodb.go:100-139 | when a rival writes between the read and the update, the second attempt succeeds on top of the rival's record: the version is 2 up, the rival's settings stay, and overwrite and merge give their servers |
| StoreProperties.SyncTwiceSameServers | src/utils/dynamodb.go:117-119 | repeating an overwrite with the same servers changes only the version |
| StoreProperties.RemoveLoopFacts | src/utils/dynamodb.go:148-163 | from any attempt on, the removal loop stays within MaxTries, never deletes the record, never creates it unless a rival does, and a conflict error means every attempt was spent |
| StoreProperties.RemoveBoundsAndFrame | src/utils/dynamodb.go:144-164 | at most MaxTries attempts; the record is never deleted, and never created unless a rival creates it; no other record is written; giving up on conflicts returns the last conflict unwrapped |
| StoreProperties.RemoveMissing | src/utils/dynamodb.go:149-152 | removing from a service without a record, when no rival creates one first, is ItemNotFound and creates nothing |
| StoreProperties.CreationRaceOverwrites | src/utils/dynamodb.go:102-109 | when a rival creates the record between our read and our put, our unconditional put replaces the rival's record: both succeed at version 0 and the rival's servers are lost |
| StoreProperties.RemoveQuiet | src/utils/dynamodb.go:148-157 | with no rival, the server is gone after one write at version+1; other servers and settings stay; a nil map stays nil |
| StoreProperties.UpsertErrors | src/utils/dynamodb.go:97-141 | the upsert fails only with a store error, never with ItemNotFound |
| StoreProperties.RemoveErrors | src/utils/dynamodb.go:144-164 | the removal fails only with a store error |
| Aws.Known | src/utils/ecs.go:34-44 | DescribeContainerInstances answers at most one pair per requested ARN, each with the instance id ECS holds for it |
| Identity.Uncached | src/utils/ecs.go:22-30 | the ARNs sent to DescribeContainerInstances are requested ones the cache lacks, and with the ids the cache already has they account for every requested ARN |
| Identity.Ids | src/utils/ecs.go:43-44 | one instance id per answered pair, in answer order |
| Identity.LookupId | src/utils/ecs.go:59-65 | a cached id answers first; otherwise ECS's id for the ARN; errors only for an uncached ARN, exactly when the call fails or ECS does not know it; with a truthful cache every id is ECS's |
| Identity.LookupIp | src/utils/ec2.go:12-39 | a cached IP answers first; otherwise EC2's first IP; errors only for an uncached id, exactly when the call fails or EC2 has no instance |
| Identity.Resolve | src/utils/utils.go:152-162 | the IP lookup applied to the id lookup's answer, the id lookup's error passed on, and only resolution errors |
| Identity.LookupAsWritten | src/utils/ecs.go:59-65 | the source panics exactly when the ARN is neither cached nor known to ECS and the call succeeds |
| Identity.UnknownInstancePanics | src/utils/ecs.go:64 | an ARN ECS does not know makes the source index an empty slice |
| Identity.LookupCorrects | src/utils/ecs.go:59-65 | the corrected lookup answers as the source does wherever the source does not panic, and reports UnknownContainerInstance where it does |
| Identity.ResolveSound | src/utils/utils.go:152-162 | with caches that agree with AWS, a returned IP is the instance's real one; no real IP means an error; if the lookups answer, the real IP is found; errors are resolution errors |
| Identity.CachesStayTrue | src/utils/ecs.go:43-55 | the caches only grow, and what they learn agrees with ECS and EC2 |
| Identity.ResolveRemembers | src/utils/ec2.go:15-18 | after one successful resolution the next is answered from memory, whatever AWS answers then |
| Identity.IdentityCache.constructor | src/utils/utils.go:148-149 | both caches start empty |
| Identity.IdentityCache.GetInstanceIds | src/utils/ecs.go:15-57 | cached ids first, then the answered ones; if nothing is missing there is no call; on a failed call, the cached ids and an error with the cache unchanged; otherwise the cache learns the answered pairs |
| Identity.IdentityCache.GetInstanceId | src/utils/ecs.go:59-65 | the corrected lookup's result and cache |
| Identity.IdentityCache.GetInstancePrivateIp | src/utils/ec2.go:12-39 | a cache hit, the API error, "no instances found" for an empty answer, or the first instance's IP, which is then cached |
| Identity.IdentityCache.GetIp | src/utils/utils.go:152-162 | resolves the ARN through both caches, as the pure resolution |
| Inventory.Concat | src/utils/ecs.go:72-76 | every collected ARN comes from some page |
| Inventory.ServiceNames | src/utils/ecs.go:82-85 | one name per listed ARN, the field after its first `/` |
| Inventory.ServiceNameOf | src/utils/ecs.go:84 | an ARN `prefix/name` names the service `name` |
| Inventory.ListServices | src/utils/ecs.go:67-88 | any failed page gives no names and an error; otherwise the names of every ARN of every page, in order |
| Inventory.TaskArns | src/utils/ecs.go:90-103 | an error exactly when the listing fails on its first page; otherwise the ARNs of the first page only |
| Inventory.TaskListingStopsAfterFirstPage | src/utils/ecs.go:98-101 | a task listed only after the first page is never seen |
| Inventory.KnownTasks | src/utils/ecs.go:114-119 | every described task is ECS's record for one of the requested ARNs |
| Inventory.DescribedTasks | src/utils/ecs.go:105-120 | no call and no tasks for no ARNs; an error exactly when the call fails; otherwise ECS's tasks for the ARNs |
| Inventory.PortOf | src/utils/ecs.go:125-133 | the port text is empty exactly when the task has no binding |
| Inventory.AddressStepSound | src/utils/ecs.go:124-140 | for one task, a found address is the true one; if the lookups answer it is found; the caches keep agreeing |
| Inventory.AddressesSound | src/utils/ecs.go:122-142 | every address returned is a true address of one of the tasks, there is at most one per task, and the caches keep agreeing |
| Inventory.AddressesComplete | src/utils/ecs.go:122-142 | when the lookups answer, exactly the true addresses in task order |
| Inventory.TrueAddressesFrom | src/utils/ecs.go:122-142 | each true address belongs to one of the tasks |
| Inventory.GetAddressOfTasks | src/utils/ecs.go:122-142 | the loop's addresses and caches are those of the pure address collection |
| Inventory.EcsBackendSound | src/utils/ecs.go:144-164 | fails exactly on the task listing or DescribeTasks; the servers are true addresses of the service's tasks; the caches keep agreeing; a healthy service gets exactly its true backend |
| Inventory.GetBackendEcs | src/utils/ecs.go:144-164 | the backend or the zero backend beside the error, and the caches, as the pure function |
| Reconcile.Sync | src/utils/utils.go:239-256 | ECS's backend overwrites the stored servers; a listing error stops it before any write |
| Reconcile.SyncAll | src/utils/utils.go:259-285 | a failed listing stops everything; otherwise every listed service is synced in order |
| Reconcile.Diff | src/utils/utils.go:293-317 | in sync exactly when ECS's server map equals the stored one, nil and empty being different; a missing record reads as an empty backend; any other error reports not in sync |
| Reconcile.ActionFor | src/utils/utils.go:204-222 | register exactly when last and desired status are RUNNING, deregister exactly when desired is STOPPED, skip otherwise |
| Reconcile.ProcessEcsEventMessage | src/utils/utils.go:182-224 | no binding is a no-op; the instance's IP is resolved first for every status; then the endpoint `ip:port` is merged in or removed |
| ReconcileProperties.DecimalHasNoColon | src/utils/utils.go:198-202 | a port's text holds no `:` |
| ReconcileProperties.EndpointRoundTrip | src/utils/utils.go:202 | a server key splits back into the IP and the port it came from |
| ReconcileProperties.EndpointInjective | src/utils/utils.go:202 | different IP and port pairs give different server keys |
| ReconcileProperties.SyncErrors | src/utils/utils.go:242-253 | sync fails only on the listing, DescribeTasks or the store, never with NoNetworkBindings |
| ReconcileProperties.SyncAllKeepsLast | src/utils/utils.go:264-284 | syncAll reports an error exactly when some sync failed, and then only the last failure |
| ReconcileProperties.RecordIdInjective | src/utils/dynamodb.go:42 | different services have different record keys |
| ReconcileProperties.SyncCalm | src/utils/utils.go:239-256 | a calm sync of a healthy service stores exactly its true servers, keeps hand-set settings and writes no other record |
| ReconcileProperties.SyncAllConverges | src/utils/utils.go:259-285 | a calm syncAll over healthy services succeeds, and each record afterwards holds its service's true servers |
| ReconcileProperties.KeepsTrueServers | src/utils/utils.go:264-279 | writing one service's record keeps the other services' records true |
| ReconcileProperties.SyncAllStep | src/utils/utils.go:264-279 | a sync that succeeds keeps syncAll's error so far |
| ReconcileProperties.StoredElsewhere | src/utils/dynamodb.go:63-93 | writing one record leaves another service's servers as they were |
| ReconcileProperties.DiffMeaning | src/utils/utils.go:293-317 | diff writes nothing and, with no rival, reports in sync exactly when the stored servers are the true ones |
| ReconcileProperties.DiffAfterSync | src/utils/utils.go:239-317 | right after a calm sync, diff finds the service in sync |
| ReconcileProperties.EventMeaning | src/utils/utils.go:182-224 | an event without a binding changes nothing; an unresolvable instance is an error that writes nothing; otherwise the table changes as the action asks for the true endpoint |
| ReconcileProperties.StartRegisters | src/utils/utils.go:204-212 | a calm RUNNING event adds the task's endpoint, creating the record if needed, and keeps the other servers and settings |
| ReconcileProperties.RegisterQuiet | src/utils/utils.go:204-212 | with no rival, merging one endpoint adds exactly that server, keeps the settings and writes no other record |
| ReconcileProperties.DeregisterQuiet | src/utils/utils.go:213-219 | with no rival, removing one endpoint from an existing record drops exactly that server and keeps the settings |
| ReconcileProperties.StopUndoesStart | src/utils/utils.go:204-219 | on an existing record that did not list the task's endpoint, a STOPPED event after the RUNNING event for the same task restores its servers and settings |
| Handlers.HandleDiff | src/utils/handlers.go:14-27 | the diff's result; an error always comes with "not in sync" |
| Handlers.DiffAllStep | src/utils/handlers.go:38-50 | one more service adds it to the out-of-sync list when its diff says so, and its error to the failures |
| Handlers.HandleDiffAll | src/utils/handlers.go:30-57 | a failed listing reports nothing; otherwise every service is diffed and every failure is reported together |
| Handlers.DiffAllReports | src/utils/handlers.go:38-50 | out-of-sync services are listed services, and every service whose diff failed is reported out of sync |
| Handlers.DiffAllClean | src/utils/handlers.go:38-50 | when every record holds its true servers, diffAll finds nothing out of sync, reports no error and writes nothing |
| Handlers.DiffAllAfterSyncAll | src/utils/handlers.go:30-57 | on a calm, healthy cluster, syncAll succeeds and a diffAll right after finds every service in sync |
| Handlers.HandleSync | src/utils/handlers.go:90-99 | sync of the service |
| Handlers.HandleSyncAll | src/utils/handlers.go:102-112 | syncAll with no pause |
| Handlers.HandleSyncSlow | src/utils/handlers.go:116-126 | syncAll; the pause changes nothing written |
| Handlers.HandleSns | src/utils/handlers.go:61-85 | an undecodable body or message is an error that changes nothing; otherwise the event is applied |
| Handlers.SnsMeaning | src/utils/handlers.go:61-85 | undecodable input and events without a binding change nothing, and the caches keep agreeing with AWS |

## Left out

- Time, logging and the debug switch are left out. This covers `time.Sleep`
  (the pacing of HandleSyncSlow and the 100 ms back-off between conflicting
  attempts), request ids and the `debug`/`log` output. None of them affects
  what is stored or returned.
- Concurrency is left out: the mutex around the caches, and parallel requests.
  Other writers appear only as `Interleave` outcomes in the store's script.
- Store.Arrive: a rival's write to an existing record is modelled only as a
  versioned update, which adds one to the version. In the source, a rival's
  unconditional put can also land on an existing record and set its version
  back to 0; that is not modelled. A rival never deletes a record.
- JSON decoding is left out. An SNS body or message that does not decode is
  the input `Unreadable` or `Garbled`.
- DynamoDB attribute marshalling and its errors are left out. The model stores
  the item as a value.
- Error text is not modelled. Errors are classified by root kind instead of
  substring search. The source's search also sees the context it wraps around
  an error, such as service names: a service whose name contains
  `ItemNotFound` would have an API failure on GetItem taken for a missing
  record. The model does not capture that.
- AWS is modelled as a fixed inventory plus failure flags, one per call or per
  key. Calls not shown (pagination tokens, clusters, regions) are left out.
  DescribeTasks' limit of 100 tasks per call is not modelled.
- The process-wide configuration (`Util`, its clients, the table name) is not
  part of this model. `Env` carries the cluster, EC2 and MaxTries.
  src/main.go, its HTTP routing and the SNS subscription confirmation are not
  part of this model.
- The record version is unbounded. The uint64 wrap-around is not modelled
  because it is never reached.
- Inventory.ListServices: requires every listed ARN to contain `/`, since the
  source panics on one that does not.
- Reconcile.ProcessEcsEventMessage: requires an event that has a binding to
  have a `:` in its group, since the source panics otherwise.
- Identity.Resolve: every caller of getIP is modelled on the corrected
  lookup (see Findings): Inventory.AddressStep, Inventory.AddressesOf,
  Inventory.GetAddressOfTasks, Inventory.EcsBackend, Reconcile.EventRun, and
  through them Reconcile.Sync, Reconcile.SyncAll, Reconcile.Diff,
  Handlers.HandleDiffAll and Handlers.HandleSns. Where the source panics at
  ecs.go:64, the request is aborted and nothing more is written. A panic in
  the background slow sync that src/main.go starts ends the process. The
  model instead skips that task's address (or reports the event's error) and
  carries on.
- Nil fields in AWS answers are not modelled. The source dereferences response
  fields without checking them: the instance's private IP
  (`PrivateIpAddress`), the binding's `HostPort`, the task's
  `ContainerInstanceArn` and the `Ec2InstanceId`. An instance without a
  private IP, for example, makes the source panic. The model takes every such
  field as present.
- Reconcile.ProcessEcsEventMessage: the source's "HostPort doesn't exist"
  error branch is not modelled. A formatted integer is never empty, so the
  branch is unreachable; it appears as an assertion instead.

## Findings

| source | as written | input that shows it | evidently intended | confidence | as-written member | corrected member |
|---|---|---|---|---|---|---|
| src/utils/ecs.go:64 | `getInstanceID` returns `instanceIDs[0]` without checking that DescribeContainerInstances found the instance | a container-instance ARN that is not cached and that ECS does not know (a deregistered instance). The call succeeds and lists it under failures, so `instanceIDs` is empty and the index panics | an error saying the container instance is unknown, the same as any other resolution failure | high, not executed | Identity.LookupAsWritten, Identity.UnknownInstancePanics | Identity.IdentityCache.GetInstanceId, Identity.LookupCorrects |
