/**
 * The in-memory caches that resolve a container instance to an address
 * (ecs.go: getInstanceIDs, getInstanceID; ec2.go: getInstancePrivateIP;
 * utils.go: getIP). Both caches live for the whole process and only grow.
 */
module Identity {
  import opened Types
  import opened Aws

  /** The cached instance ids of those `arns` the cache knows, in order. */
  function Cached(arns: seq<string>, m: map<string, string>): (ids: seq<string>)
    ensures |ids| <= |arns|
    decreases |arns|
  {
    if arns == [] then [] else
      var last := arns[|arns| - 1];
      Cached(arns[..|arns| - 1], m) + (if last in m then [m[last]] else [])
  }

  /** The `arns` the cache does not know, in order: the ones sent to DescribeContainerInstances. */
  function Uncached(arns: seq<string>, m: map<string, string>): (missing: seq<string>)
    ensures forall k :: 0 <= k < |missing| ==> missing[k] in arns && missing[k] !in m
    ensures |Cached(arns, m)| + |missing| == |arns|
    decreases |arns|
  {
    if arns == [] then [] else
      var last := arns[|arns| - 1];
      var front := Uncached(arns[..|arns| - 1], m);
      assert forall k :: 0 <= k < |front| ==> front[k] in arns by {
        forall k | 0 <= k < |front| ensures front[k] in arns { assert front[k] in arns[..|arns| - 1]; }
      }
      front + (if last in m then [] else [last])
  }

  /** The instance ids of DescribeContainerInstances' answer, in its order. */
  function Ids(pairs: seq<(string, string)>): (ids: seq<string>)
    ensures |ids| == |pairs| && forall k :: 0 <= k < |pairs| ==> ids[k] == pairs[k].1
    decreases |pairs|
  {
    if pairs == [] then [] else Ids(pairs[..|pairs| - 1]) + [pairs[|pairs| - 1].1]
  }

  /** The id cache after saving each answered pair in turn. */
  function Learned(m: map<string, string>, pairs: seq<(string, string)>): map<string, string>
    decreases |pairs|
  {
    if pairs == [] then m else
      var last := pairs[|pairs| - 1];
      Learned(m, pairs[..|pairs| - 1])[last.0 := last.1]
  }

  /** `b` keeps every entry of `a`. */
  predicate Extends(a: map<string, string>, b: map<string, string>)
  {
    forall k | k in a :: k in b && b[k] == a[k]
  }

  /** What getInstanceID does as written: it returns, or it panics indexing an empty slice. */
  datatype Lookup = Returned(r: Result<string>) | IndexOutOfRange

  /** getInstanceID as the source has it: `instanceIDs[0]` with no check that there is one. */
  function LookupAsWritten(m: map<string, string>, c: Cluster, arn: string): (l: Lookup)
    ensures l.IndexOutOfRange? <==>
              arn !in m && !c.describeContainerInstancesFails && arn !in c.containerInstances
  {
    var missing := Uncached([arn], m);
    assert [arn][..0] == [];
    if missing != [] && c.describeContainerInstancesFails then
      Returned(Err(ApiFailure(DescribeContainerInstances)))
    else
      var ids := Cached([arn], m) + (if missing == [] then [] else Ids(Known(c, missing)));
      if |ids| == 0 then IndexOutOfRange else Returned(Ok(ids[0]))
  }

  /** An ARN that ECS does not know (a deregistered instance, say) makes the source panic. */
  lemma UnknownInstancePanics()
    ensures LookupAsWritten(map[], Cluster([], map[], map[], false, map[], false), "arn:gone")
            == IndexOutOfRange
  {
  }

  /** Every cached id is the one ECS reports for that ARN. */
  predicate IdsAgree(m: map<string, string>, c: Cluster)
  {
    forall a | a in m :: a in c.containerInstances && m[a] == c.containerInstances[a]
  }

  /** Every cached IP is the first one EC2 reports for that instance. */
  predicate IpsAgree(p: map<string, string>, e: Ec2)
  {
    forall i | i in p :: FirstIp(e, i) == Some(p[i])
  }

  /** getInstanceID as intended: the cached id, else ECS's, else an error saying which lookup failed. */
  function LookupId(m: map<string, string>, c: Cluster, arn: string): (r: Result<string>)
    ensures arn in m ==> r == Ok(m[arn])
    ensures r.Ok? && arn !in m ==> arn in c.containerInstances && r.value == c.containerInstances[arn]
    ensures IdsAgree(m, c) && r.Ok? ==> arn in c.containerInstances && r.value == c.containerInstances[arn]
    ensures r.Err? ==> arn !in m && r.error in {ApiFailure(DescribeContainerInstances), UnknownContainerInstance}
    ensures r.Err? <==> arn !in m && (c.describeContainerInstancesFails || arn !in c.containerInstances)
  {
    if arn in m then Ok(m[arn])
    else if c.describeContainerInstancesFails then Err(ApiFailure(DescribeContainerInstances))
    else if arn in c.containerInstances then Ok(c.containerInstances[arn])
    else Err(UnknownContainerInstance)
  }

  /** The id cache after LookupId: it learns the id ECS reported, if it fetched one. */
  function IdsAfter(m: map<string, string>, c: Cluster, arn: string): map<string, string>
  {
    if arn !in m && !c.describeContainerInstancesFails && arn in c.containerInstances
    then m[arn := c.containerInstances[arn]]
    else m
  }

  /** getInstancePrivateIP: the cached IP, else EC2's first one, else the failure. */
  function LookupIp(p: map<string, string>, e: Ec2, id: string): (r: Result<string>)
    ensures id in p ==> r == Ok(p[id])
    ensures r.Ok? && id !in p ==> FirstIp(e, id) == Some(r.value)
    ensures IpsAgree(p, e) && r.Ok? ==> FirstIp(e, id) == Some(r.value)
    ensures r.Err? ==> id !in p && r.error in {ApiFailure(DescribeInstances), NoInstancesFound}
    ensures r.Err? <==> id !in p && (id in e.refused || FirstIp(e, id).None?)
  {
    if id in p then Ok(p[id])
    else if id in e.refused then Err(ApiFailure(DescribeInstances))
    else if FirstIp(e, id).Some? then Ok(FirstIp(e, id).value)
    else Err(NoInstancesFound)
  }

  function IpsAfter(p: map<string, string>, e: Ec2, id: string): map<string, string>
  {
    if id !in p && id !in e.refused && FirstIp(e, id).Some? then p[id := FirstIp(e, id).value] else p
  }

  /** The errors resolving an address can end in. */
  predicate ResolutionError(e: Error)
  {
    e in {ApiFailure(DescribeContainerInstances), UnknownContainerInstance,
          ApiFailure(DescribeInstances), NoInstancesFound}
  }

  /** getIP: container-instance ARN to instance id to private IP. */
  function Resolve(m: map<string, string>, p: map<string, string>, c: Cluster, e: Ec2, arn: string): (r: Result<string>)
    ensures r.Err? ==> ResolutionError(r.error)
    ensures r.Ok? ==> LookupId(m, c, arn).Ok? && LookupIp(p, e, LookupId(m, c, arn).value) == r
    ensures LookupId(m, c, arn).Err? ==> r == Err(LookupId(m, c, arn).error)
  {
    match LookupId(m, c, arn)
    case Err(err) => Err(err)
    case Ok(id) => LookupIp(p, e, id)
  }

  function IpsAfterResolve(m: map<string, string>, p: map<string, string>, c: Cluster, e: Ec2,
                           arn: string): map<string, string>
  {
    match LookupId(m, c, arn)
    case Err(_) => p
    case Ok(id) => IpsAfter(p, e, id)
  }

  /** The corrected lookup answers as the source does wherever the source does not panic. */
  lemma LookupCorrects(m: map<string, string>, c: Cluster, arn: string)
    ensures LookupAsWritten(m, c, arn).Returned? ==> LookupId(m, c, arn) == LookupAsWritten(m, c, arn).r
    ensures LookupAsWritten(m, c, arn).IndexOutOfRange? ==> LookupId(m, c, arn) == Err(UnknownContainerInstance)
  {
    assert [arn][..0] == [];
    if arn !in m && !c.describeContainerInstancesFails && arn in c.containerInstances {
      assert Uncached([arn], m) == [arn];
      assert Known(c, [arn]) == [(arn, c.containerInstances[arn])] by {
        assert [arn][..0] == [];
      }
    }
  }

  /**
   * Resolution against caches that agree with AWS: an address it returns is
   * the instance's real one, it fails when there is none, and it finds it
   * whenever the lookup calls answer.
   */
  lemma ResolveSound(m: map<string, string>, p: map<string, string>, c: Cluster, e: Ec2, arn: string)
    requires IdsAgree(m, c) && IpsAgree(p, e)
    ensures Resolve(m, p, c, e, arn).Ok? ==> TrueIp(c, e, arn) == Some(Resolve(m, p, c, e, arn).value)
    ensures TrueIp(c, e, arn).None? ==> Resolve(m, p, c, e, arn).Err?
    ensures LookupsAnswer(c, e) && TrueIp(c, e, arn).Some? ==> Resolve(m, p, c, e, arn) == Ok(TrueIp(c, e, arn).value)
    ensures Resolve(m, p, c, e, arn).Err? ==> ResolutionError(Resolve(m, p, c, e, arn).error)
  {
  }

  /** The caches only grow, and what they learn is true. */
  lemma CachesStayTrue(m: map<string, string>, p: map<string, string>, c: Cluster, e: Ec2, arn: string)
    requires IdsAgree(m, c) && IpsAgree(p, e)
    ensures Extends(m, IdsAfter(m, c, arn)) && Extends(p, IpsAfterResolve(m, p, c, e, arn))
    ensures IdsAgree(IdsAfter(m, c, arn), c) && IpsAgree(IpsAfterResolve(m, p, c, e, arn), e)
  {
  }

  /** After one successful resolution the next answers from memory, whatever AWS answers then. */
  lemma ResolveRemembers(m: map<string, string>, p: map<string, string>, c: Cluster, e: Ec2, arn: string,
                         c2: Cluster, e2: Ec2)
    requires Resolve(m, p, c, e, arn).Ok?
    ensures Resolve(IdsAfter(m, c, arn), IpsAfterResolve(m, p, c, e, arn), c2, e2, arn)
            == Resolve(m, p, c, e, arn)
  {
  }

  class IdentityCache {
    var instanceIds: map<string, string>   // container-instance ARN to EC2 instance id
    var privateIps: map<string, string>    // EC2 instance id to private IP

    constructor ()
      ensures instanceIds == map[] && privateIps == map[]
    {
      instanceIds := map[];
      privateIps := map[];
    }

    predicate Agrees(c: Cluster, e: Ec2)
      reads this
    {
      IdsAgree(instanceIds, c) && IpsAgree(privateIps, e)
    }

    /** getInstanceIDs: cached ids first, then one DescribeContainerInstances call for the rest. */
    method GetInstanceIds(arns: seq<string>, c: Cluster) returns (ids: seq<string>, err: Option<Error>)
      modifies this
      ensures privateIps == old(privateIps)
      ensures var missing := Uncached(arns, old(instanceIds));
              if missing == [] then
                ids == Cached(arns, old(instanceIds)) && err == None && instanceIds == old(instanceIds)
              else if c.describeContainerInstancesFails then
                ids == Cached(arns, old(instanceIds)) && err == Some(ApiFailure(DescribeContainerInstances))
                && instanceIds == old(instanceIds)
              else
                ids == Cached(arns, old(instanceIds)) + Ids(Known(c, missing)) && err == None
                && instanceIds == Learned(old(instanceIds), Known(c, missing))
    {
      ids := [];
      var missing: seq<string> := [];
      for k := 0 to |arns|
        invariant ids == Cached(arns[..k], instanceIds) && privateIps == old(privateIps)
        invariant missing == Uncached(arns[..k], instanceIds)
      {
        assert arns[..k + 1][..k] == arns[..k];
        if arns[k] in instanceIds {
          ids := ids + [instanceIds[arns[k]]];
        } else {
          missing := missing + [arns[k]];
        }
      }
      assert arns[..|arns|] == arns;
      if |missing| < 1 {
        return ids, None;
      }
      if c.describeContainerInstancesFails {
        return ids, Some(ApiFailure(DescribeContainerInstances));
      }
      var pairs := Known(c, missing);
      ghost var cached := ids;
      for j := 0 to |pairs|
        invariant ids == cached + Ids(pairs[..j])
        invariant instanceIds == Learned(old(instanceIds), pairs[..j]) && privateIps == old(privateIps)
      {
        assert pairs[..j + 1][..j] == pairs[..j];
        ids := ids + [pairs[j].1];
        assert pairs[j].0 in missing;
        if pairs[j].0 in arns {
          instanceIds := instanceIds[pairs[j].0 := pairs[j].1];
        }
      }
      assert pairs[..|pairs|] == pairs;
      err := None;
    }

    /** getInstanceID, reporting UnknownContainerInstance where the source indexes past the end. */
    method GetInstanceId(arn: string, c: Cluster) returns (r: Result<string>)
      modifies this
      ensures r == LookupId(old(instanceIds), c, arn)
      ensures instanceIds == IdsAfter(old(instanceIds), c, arn) && privateIps == old(privateIps)
    {
      ghost var m := instanceIds;
      assert [arn][..0] == [];
      assert Cached([arn], m) == if arn in m then [m[arn]] else [];
      assert Uncached([arn], m) == if arn in m then [] else [arn];
      assert arn !in m ==> Known(c, [arn]) == if arn in c.containerInstances then [(arn, c.containerInstances[arn])] else [];
      var ids, err := GetInstanceIds([arn], c);
      if err.Some? {
        return Err(err.value);
      }
      if |ids| == 0 {
        return Err(UnknownContainerInstance);
      }
      r := Ok(ids[0]);
    }

    /** getInstancePrivateIP: the cached IP, or the first instance of the first reservation. */
    method GetInstancePrivateIp(id: string, e: Ec2) returns (r: Result<string>)
      modifies this
      ensures r == LookupIp(old(privateIps), e, id)
      ensures privateIps == IpsAfter(old(privateIps), e, id) && instanceIds == old(instanceIds)
    {
      if id in privateIps {
        return Ok(privateIps[id]);
      }
      var resp := Reservations(e, id);
      if resp.Err? {
        return Err(resp.error);
      }
      if |resp.value| < 1 || |resp.value[0]| < 1 {
        return Err(NoInstancesFound);
      }
      privateIps := privateIps[id := resp.value[0][0]];
      return Ok(resp.value[0][0]);
    }

    /** getIP: the address of a container instance, through both caches. */
    method GetIp(arn: string, c: Cluster, e: Ec2) returns (r: Result<string>)
      modifies this
      ensures r == Resolve(old(instanceIds), old(privateIps), c, e, arn)
      ensures instanceIds == IdsAfter(old(instanceIds), c, arn)
      ensures privateIps == IpsAfterResolve(old(instanceIds), old(privateIps), c, e, arn)
    {
      var id := GetInstanceId(arn, c);
      if id.Err? {
        return Err(id.error);
      }
      r := GetInstancePrivateIp(id.value, e);
    }
  }
}
