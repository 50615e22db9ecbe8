/** The records, events and errors shared by the tracker's components. */
module Types {

  datatype Option<+T> = None | Some(value: T)

  datatype Result<+T> = Ok(value: T) | Err(error: Error)

  /** The AWS calls the tracker makes; an `ApiFailure` names the one that failed. */
  datatype Api =
    | GetItem | UpdateItem | PutItem
    | ListServices | ListTasks | DescribeTasks | DescribeContainerInstances
    | DescribeInstances

  /**
   * The error kinds the tracker tells apart. The source classifies an error by
   * searching its text for a marker; here the marker is the root kind, reached
   * through the two wrappers that carry information of their own.
   */
  datatype Error =
    | ItemNotFound                          // GetItem answered with an empty item
    | ConditionalCheckFailed                // the `#v = :v` condition of UpdateItem did not hold
    | ApiFailure(api: Api)                  // transport or service failure of one call
    | NoInstancesFound                      // DescribeInstances answered without an instance
    | UnknownContainerInstance              // DescribeContainerInstances did not know the ARN
    | NoNetworkBindings                     // the marker syncAll filters on
    | Undecodable                           // the notification or its message is not valid JSON
    | Tried(times: nat, last: Error)        // "tried to update N times"
    | Many(failures: seq<(string, Error)>)  // HandleDiffAll's chain: one entry per failed service

  /** The error beneath the "tried to update N times" wrapper. */
  function Root(e: Error): Error
  {
    if e.Tried? then Root(e.last) else e
  }

  /** The source's `strings.Contains(err.Error(), marker)` for the markers it tests. */
  predicate Mentions(e: Error, marker: Error)
  {
    Root(e) == marker
  }

  const Running: string := "RUNNING"
  const Stopped: string := "STOPPED"

  /** A traefik server entry. */
  datatype Server = Server(url: string, weight: int)

  /**
   * A traefik backend: its server map (absent is Go's nil map, which is not
   * equal to an empty one) and the rest of its configuration, which operators
   * set by hand and the tracker must carry through untouched.
   */
  datatype Backend = Backend(servers: Option<map<string, Server>>, settings: map<string, string>)

  /** The routing record stored under `id`, with its optimistic-lock version. */
  datatype BackendItem = BackendItem(id: string, name: string, version: nat, backend: Backend)

  datatype NetworkBinding = NetworkBinding(hostPort: int)

  datatype Container = Container(containerArn: string, lastStatus: string, name: string,
                                 networkBindings: seq<NetworkBinding>)

  /** The `detail` of an ECS task state-change event. */
  datatype Detail = Detail(clusterArn: string, containerInstanceArn: string, desiredStatus: string,
                           group: string, lastStatus: string, taskArn: string,
                           taskDefinitionArn: string, containers: seq<Container>)

  /** An ECS task as DescribeTasks reports it (the fields the tracker reads). */
  datatype Task = Task(taskArn: string, group: string, containerInstanceArn: string,
                       containers: seq<Container>)

  /** The host port of the first binding of the first container, when there is one. */
  function FirstHostPort(containers: seq<Container>): (p: Option<int>)
    ensures p.Some? <==> |containers| > 0 && |containers[0].networkBindings| > 0
    ensures p.Some? ==> p.value == containers[0].networkBindings[0].hostPort
  {
    if |containers| > 0 && |containers[0].networkBindings| > 0
    then Some(containers[0].networkBindings[0].hostPort)
    else None
  }
}
