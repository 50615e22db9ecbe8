/**
 * The AWS services the tracker reads, as immutable inventory: what ECS and
 * EC2 would answer, and which of their calls fail.
 */
module Aws {
  import opened Types

  /** One page of a paginated listing, or the failure to fetch it. */
  datatype Page = Page(arns: seq<string>) | PageFailed

  datatype Cluster = Cluster(
    servicePages: seq<Page>,                  // ListServices, page by page
    taskPages: map<string, seq<Page>>,        // ListTasks per service filter ("" lists every task)
    tasks: map<string, Task>,                 // DescribeTasks, by task ARN
    describeTasksFails: bool,
    containerInstances: map<string, string>,  // container-instance ARN to EC2 instance id
    describeContainerInstancesFails: bool)

  /** EC2: the reservations DescribeInstances reports per instance id (each a list of
      private IPs), and the ids for which the call fails. */
  datatype Ec2 = Ec2(reservations: map<string, seq<seq<string>>>, refused: set<string>)

  /** DescribeContainerInstances: one (ARN, EC2 id) pair per requested ARN ECS knows, in request order. */
  function Known(c: Cluster, arns: seq<string>): (r: seq<(string, string)>)
    ensures |r| <= |arns|
    ensures forall k :: 0 <= k < |r| ==> r[k].0 in arns && r[k].0 in c.containerInstances
                                         && r[k].1 == c.containerInstances[r[k].0]
  {
    if arns == [] then []
    else (if arns[0] in c.containerInstances then [(arns[0], c.containerInstances[arns[0]])] else [])
         + Known(c, arns[1..])
  }

  /** DescribeInstances for one id: the reservations, or the call's failure. */
  function Reservations(e: Ec2, id: string): Result<seq<seq<string>>>
  {
    if id in e.refused then Err(ApiFailure(DescribeInstances))
    else Ok(if id in e.reservations then e.reservations[id] else [])
  }

  /** The private IP of the first instance of the first reservation, if EC2 has one. */
  function FirstIp(e: Ec2, id: string): Option<string>
  {
    if id in e.reservations && |e.reservations[id]| > 0 && |e.reservations[id][0]| > 0
    then Some(e.reservations[id][0][0])
    else None
  }

  /** The address a container instance really has: ECS's instance id, then EC2's IP for it. */
  function TrueIp(c: Cluster, e: Ec2, arn: string): Option<string>
  {
    if arn in c.containerInstances then FirstIp(e, c.containerInstances[arn]) else None
  }

  /** No lookup call of the two services fails. */
  predicate LookupsAnswer(c: Cluster, e: Ec2)
  {
    !c.describeContainerInstancesFails && e.refused == {}
  }
}
