/** What the optimistic-lock protocol of dynamodb.go guarantees. */
module StoreProperties {
  import opened Types
  import opened Backends
  import opened Store

  /** The table's key is the record's `id` attribute. */
  predicate WellKeyed(items: map<string, BackendItem>)
  {
    forall k :: k in items ==> items[k].id == k
  }

  /** Records other than `id` are the same in both tables. */
  predicate SameElsewhere(a: map<string, BackendItem>, b: map<string, BackendItem>, id: string)
  {
    && a.Keys - {id} == b.Keys - {id}
    && (forall k :: k != id && k in a && k in b ==> a[k] == b[k])
  }

  lemma QuietRest(script: seq<Outcome>)
    requires Quiet(script)
    ensures Next(script) == Deliver && Quiet(Rest(script))
  {
  }

  /** `b` is `a` with at most record `id` changed, and that one neither deleted nor set back. */
  /** No call under this script meets a rival writer. */
  predicate NoRival(script: seq<Outcome>)
  {
    forall k :: 0 <= k < |script| ==> !script[k].Interleave?
  }

  lemma NoRivalRest(script: seq<Outcome>)
    requires NoRival(script)
    ensures !Next(script).Interleave? && NoRival(Rest(script))
  {
  }

  predicate Grows(a: map<string, BackendItem>, b: map<string, BackendItem>, id: string)
  {
    && SameElsewhere(a, b, id)
    && (id in a ==> id in b && b[id].version >= a[id].version)
  }

  lemma ReadFrame(s: Snapshot, id: string)
    requires WellKeyed(s.items)
    ensures var r := GetItemStep(s, id);
            && WellKeyed(r.after.items) && Grows(s.items, r.after.items, id)
            && (!Next(s.script).Interleave? ==> (id in r.after.items <==> id in s.items))
            && (r.got.Ok? ==> r.got.value.id == id)
  {
  }

  lemma UpdateFrame(s: Snapshot, item: BackendItem)
    requires WellKeyed(s.items)
    ensures var w := UpdateStep(s, item);
            && WellKeyed(w.after.items) && Grows(s.items, w.after.items, item.id)
            && (!Next(s.script).Interleave? ==> (item.id in w.after.items <==> item.id in s.items))
  {
  }

  lemma PutFrame(s: Snapshot, item: BackendItem)
    requires WellKeyed(s.items) && item.id !in s.items
    ensures var w := PutStep(s, item);
            WellKeyed(w.after.items) && Grows(s.items, w.after.items, item.id)
  {
  }

  /** One upsert attempt writes only record `RecordId(name)`, never drops it and keeps the table well keyed. */
  lemma UpsertAttemptFrame(s: Snapshot, name: string, given: Backend, overwrite: bool)
    requires WellKeyed(s.items)
    ensures var a := UpsertAttempt(s, name, given, overwrite);
            WellKeyed(a.after.items) && Grows(s.items, a.after.items, RecordId(name))
  {
    var id := RecordId(name);
    var r := GetItemStep(s, id);
    ReadFrame(s, id);
    if r.got.Err? {
      if Mentions(r.got.error, ItemNotFound) {
        PutFrame(r.after, CreateBackendItem(name, given));
      }
    } else {
      UpdateFrame(r.after, Updated(r.got.value, given, overwrite));
    }
  }

  /** One removal attempt writes only record `RecordId(name)`; without a rival it neither creates nor drops it. */
  lemma RemoveAttemptFrame(s: Snapshot, name: string, portIP: string)
    requires WellKeyed(s.items)
    ensures var a := RemoveAttempt(s, name, portIP);
            && WellKeyed(a.after.items) && Grows(s.items, a.after.items, RecordId(name))
            && (NoRival(s.script) ==> NoRival(a.after.script)
                                      && (RecordId(name) in s.items <==> RecordId(name) in a.after.items))
  {
    var id := RecordId(name);
    var r := GetItemStep(s, id);
    ReadFrame(s, id);
    if NoRival(s.script) {
      NoRivalRest(s.script);
    }
    if r.got.Ok? {
      UpdateFrame(r.after, WithoutServer(r.got.value, portIP));
      if NoRival(s.script) {
        NoRivalRest(r.after.script);
      }
    }
  }

  lemma GrowsTrans(a: map<string, BackendItem>, b: map<string, BackendItem>, c: map<string, BackendItem>, id: string)
    requires Grows(a, b, id) && Grows(b, c, id)
    ensures Grows(a, c, id)
  {
    forall k | k != id && k in a && k in c
      ensures a[k] == c[k]
    {
      assert k in a.Keys - {id};
    }
  }

  /** Only a failed condition makes an attempt ask for another one; every other error is of another kind. */
  lemma UpsertAttemptVerdict(s: Snapshot, name: string, given: Backend, overwrite: bool)
    ensures var v := UpsertAttempt(s, name, given, overwrite).verdict;
            && (v.Conflicted? ==> v.cause == ConditionalCheckFailed)
            && (v.Broke? ==> !Mentions(v.cause, ConditionalCheckFailed))
            && (v.Settled? && v.err.Some? ==> !Mentions(v.err.value, ConditionalCheckFailed))
  {
  }

  /** One pass of updateBackendDynamoDB's loop: it settles with its facts, or it goes on after a conflict. */
  lemma UpsertLoopOnce(s: Snapshot, name: string, given: Backend, overwrite: bool,
                       maxTries: nat, i: nat, last: Option<Error>)
    requires i < maxTries && WellKeyed(s.items)
    ensures var a := UpsertAttempt(s, name, given, overwrite);
            var r := UpsertLoop(s, name, given, overwrite, maxTries, i, last);
            && WellKeyed(a.after.items) && Grows(s.items, a.after.items, RecordId(name))
            && (a.verdict.Conflicted? ==>
                  r == UpsertLoop(a.after, name, given, overwrite, maxTries, i + 1, Some(ConditionalCheckFailed)))
            && (!a.verdict.Conflicted? ==>
                  && r.attempts == i + 1 && r.after == a.after
                  && (r.err.Some? ==> !Mentions(r.err.value, ConditionalCheckFailed)))
  {
    UpsertAttemptFrame(s, name, given, overwrite);
    UpsertAttemptVerdict(s, name, given, overwrite);
  }

  lemma {:induction false} UpsertLoopFacts(s: Snapshot, name: string, given: Backend, overwrite: bool,
                                           maxTries: nat, i: nat, last: Option<Error>)
    requires i <= maxTries && WellKeyed(s.items)
    requires last.None? || last == Some(ConditionalCheckFailed)
    ensures var r := UpsertLoop(s, name, given, overwrite, maxTries, i, last);
            && i <= r.attempts <= maxTries
            && (i < maxTries ==> r.attempts > i)
            && WellKeyed(r.after.items)
            && Grows(s.items, r.after.items, RecordId(name))
            && (r.err.Some? && Mentions(r.err.value, ConditionalCheckFailed) ==>
                  r.attempts == maxTries && r.err == Some(Tried(maxTries, ConditionalCheckFailed)))
    decreases maxTries - i
  {
    if i < maxTries {
      var a := UpsertAttempt(s, name, given, overwrite);
      UpsertLoopOnce(s, name, given, overwrite, maxTries, i, last);
      if a.verdict.Conflicted? {
        var r := UpsertLoop(s, name, given, overwrite, maxTries, i, last);
        UpsertLoopFacts(a.after, name, given, overwrite, maxTries, i + 1, Some(ConditionalCheckFailed));
        GrowsTrans(s.items, a.after.items, r.after.items, RecordId(name));
      }
    }
  }

  /**
   * updateBackendDynamoDB makes at most `maxTries` attempts and gives up on a
   * conflict only after all of them, reporting "tried to update N times"; it
   * writes no record but the service's, never deletes it and never lowers its version.
   */
  lemma UpsertBoundsAndFrame(s: Snapshot, name: string, given: Backend, overwrite: bool, maxTries: nat)
    requires WellKeyed(s.items)
    ensures var r := Upsert(s, name, given, overwrite, maxTries);
            && r.attempts <= maxTries
            && (r.attempts == 0 <==> maxTries == 0)
            && WellKeyed(r.after.items)
            && Grows(s.items, r.after.items, RecordId(name))
            && (r.err.Some? && Mentions(r.err.value, ConditionalCheckFailed) ==>
                  r.attempts == maxTries && r.err == Some(Tried(maxTries, ConditionalCheckFailed)))
  {
    UpsertLoopFacts(s, name, given, overwrite, maxTries, 0, None);
  }

  /**
   * A successful upsert leaves the record in place with the servers asked
   * for: exactly `given`'s on an overwrite, and at least `given`'s entries on
   * an additive merge, whatever other writers did in between.
   */
  lemma {:induction false} UpsertSuccess(s: Snapshot, name: string, given: Backend, overwrite: bool,
                                         maxTries: nat, i: nat, last: Option<Error>)
    requires i < maxTries && WellKeyed(s.items)
    ensures var r := UpsertLoop(s, name, given, overwrite, maxTries, i, last);
            r.err.None? ==>
              && RecordId(name) in r.after.items
              && (overwrite ==> r.after.items[RecordId(name)].backend.servers == given.servers)
              && (forall k :: k in ServersOf(given) ==>
                    k in ServersOf(r.after.items[RecordId(name)].backend)
                    && ServersOf(r.after.items[RecordId(name)].backend)[k] == ServersOf(given)[k])
    decreases maxTries - i
  {
    var a := UpsertAttempt(s, name, given, overwrite);
    var r := GetItemStep(s, RecordId(name));
    ReadFrame(s, RecordId(name));
    UpsertAttemptFrame(s, name, given, overwrite);
    if a.verdict.Conflicted? && i + 1 < maxTries {
      UpsertSuccess(a.after, name, given, overwrite, maxTries, i + 1, Some(a.verdict.cause));
    }
  }

  /**
   * With no other writer and no lost call, one attempt suffices: a missing
   * record is created at version 0 with `given` as is, an existing one is
   * written back at the next version with its servers replaced or merged and
   * its id, name and other settings untouched.
   */
  lemma UpsertQuiet(s: Snapshot, name: string, given: Backend, overwrite: bool, maxTries: nat)
    requires WellKeyed(s.items) && Quiet(s.script) && maxTries >= 1
    ensures var r := Upsert(s, name, given, overwrite, maxTries);
            var id := RecordId(name);
            && r.err.None? && r.attempts == 1 && Quiet(r.after.script)
            && (id !in s.items ==> r.after.items == s.items[id := BackendItem(id, name, 0, given)])
            && (id in s.items ==> r.after.items == s.items[id := Updated(s.items[id], given, overwrite)
                                                     .(version := s.items[id].version + 1)])
  {
    QuietRest(s.script);
    QuietRest(Rest(s.script));
  }

  /** The merge, spelled out: old servers and new ones, the new entry winning a shared address. */
  lemma MergeContents(item: BackendItem, given: Backend, version: nat)
    ensures var m := ServersOf(Updated(item, given, false).(version := version).backend);
            && m.Keys == ServersOf(item.backend).Keys + ServersOf(given).Keys
            && (forall k :: k in ServersOf(given) ==> m[k] == ServersOf(given)[k])
            && (forall k :: k in ServersOf(item.backend) && k !in ServersOf(given) ==>
                  m[k] == ServersOf(item.backend)[k])
  {
  }

  /** A lost read ends the upsert at once, with that error and nothing written. */
  lemma UpsertReadLost(s: Snapshot, name: string, given: Backend, overwrite: bool, maxTries: nat)
    requires maxTries >= 1 && Next(s.script) == Drop
    ensures var r := Upsert(s, name, given, overwrite, maxTries);
            r.err == Some(ApiFailure(Api.GetItem)) && r.attempts == 1 && r.after.items == s.items
  {
  }

  /** A lost update also ends the loop at once; it is reported under "tried to update N times". */
  lemma UpsertWriteLost(s: Snapshot, name: string, given: Backend, overwrite: bool, maxTries: nat)
    requires maxTries >= 1 && RecordId(name) in s.items
    requires Next(s.script) == Deliver && Next(Rest(s.script)) == Drop
    ensures var r := Upsert(s, name, given, overwrite, maxTries);
            r.err == Some(Tried(maxTries, ApiFailure(Api.UpdateItem))) && r.attempts == 1
            && r.after.items == s.items
  {
  }

  /**
   * Two writers starting from the same version: the other one commits first,
   * ours conflicts once, re-reads and commits on top, so the record ends two
   * versions up holding both writers' servers.
   */
  lemma UpsertRace(s: Snapshot, name: string, given: Backend, rival: Backend, overwrite: bool, maxTries: nat)
    requires WellKeyed(s.items) && RecordId(name) in s.items && maxTries >= 2
    requires s.script == [Deliver, Interleave(rival)]
    ensures var r := Upsert(s, name, given, overwrite, maxTries);
            var id := RecordId(name);
            && r.err.None? && r.attempts == 2 && id in r.after.items
            && r.after.items[id].version == s.items[id].version + 2
            && r.after.items[id].backend.settings == rival.settings
            && (overwrite ==> r.after.items[id].backend.servers == given.servers)
            && (!overwrite ==> ServersOf(r.after.items[id].backend) == ServersOf(rival) + ServersOf(given))
  {
    var id := RecordId(name);
    var v := s.items[id].version;
    var r0 := GetItemStep(s, id);
    assert r0.got == Ok(s.items[id]) && r0.after == Snapshot(s.items, [Interleave(rival)]);
    var w0 := UpdateStep(r0.after, Updated(s.items[id], given, overwrite));
    var rec1 := s.items[id].(version := v + 1, backend := rival);
    assert w0.err == Some(ConditionalCheckFailed) && w0.after == Snapshot(s.items[id := rec1], []);
    var a := UpsertAttempt(s, name, given, overwrite);
    assert a == Attempt(w0.after, Conflicted(ConditionalCheckFailed));
    var r1 := GetItemStep(w0.after, id);
    assert r1.got == Ok(rec1) && r1.after == w0.after;
    var item2 := Updated(rec1, given, overwrite);
    var w1 := UpdateStep(r1.after, item2);
    assert w1.err.None? && w1.after.items[id] == rec1.(version := v + 2, backend := item2.backend);
    var b := UpsertAttempt(w0.after, name, given, overwrite);
    assert b == Attempt(w1.after, Settled(None));
    assert UpsertLoop(w0.after, name, given, overwrite, maxTries, 1, Some(ConditionalCheckFailed))
           == Run(w1.after, None, 2);
    assert Upsert(s, name, given, overwrite, maxTries) == Run(w1.after, None, 2);
  }

  /**
   * Two first-time writers on one service: both read ItemNotFound, the rival's
   * put lands first, and ours, being unconditional, replaces it. We succeed at
   * version 0 and the rival's record, endpoints included, is gone.
   */
  lemma CreationRaceOverwrites(s: Snapshot, name: string, given: Backend, rival: Backend,
                               overwrite: bool, maxTries: nat)
    requires maxTries >= 1 && RecordId(name) !in s.items
    requires s.script == [Deliver, Interleave(rival)]
    ensures RecordId(name) in Arrive(s.items, RecordId(name), Interleave(rival))
    ensures Arrive(s.items, RecordId(name), Interleave(rival))[RecordId(name)] == CreateBackendItem(name, rival)
    ensures var r := Upsert(s, name, given, overwrite, maxTries);
            && r.err.None? && r.attempts == 1
            && r.after.items == s.items[RecordId(name) := CreateBackendItem(name, given)]
  {
    assert Rest(s.script) == [Interleave(rival)];
  }

  /** A full resync repeated with nothing changed in between stores the same servers; only the version moves. */
  lemma SyncTwiceSameServers(s: Snapshot, name: string, live: Backend, maxTries: nat)
    requires WellKeyed(s.items) && Quiet(s.script) && maxTries >= 1
    ensures var r1 := Upsert(s, name, live, true, maxTries);
            var r2 := Upsert(r1.after, name, live, true, maxTries);
            var id := RecordId(name);
            && r1.err.None? && r2.err.None? && id in r1.after.items && id in r2.after.items
            && r2.after.items[id].backend == r1.after.items[id].backend
            && r2.after.items[id].version == r1.after.items[id].version + 1
  {
    UpsertQuiet(s, name, live, true, maxTries);
    var r1 := Upsert(s, name, live, true, maxTries);
    QuietRest(s.script);
    QuietRest(Rest(s.script));
    assert Quiet(r1.after.script);
    UpsertAttemptFrame(s, name, live, true);
    UpsertQuiet(r1.after, name, live, true, maxTries);
  }

  lemma RemoveAttemptVerdict(s: Snapshot, name: string, portIP: string)
    ensures var v := RemoveAttempt(s, name, portIP).verdict;
            && !v.Broke?
            && (v.Conflicted? ==> v.cause == ConditionalCheckFailed)
            && (v.Settled? && v.err.Some? ==> !Mentions(v.err.value, ConditionalCheckFailed))
  {
  }

  lemma {:induction false} RemoveLoopFacts(s: Snapshot, name: string, portIP: string, maxTries: nat,
                                           i: nat, last: Option<Error>)
    requires i <= maxTries && WellKeyed(s.items)
    requires last.None? || last == Some(ConditionalCheckFailed)
    ensures var r := RemoveLoop(s, name, portIP, maxTries, i, last);
            && i <= r.attempts <= maxTries
            && WellKeyed(r.after.items)
            && Grows(s.items, r.after.items, RecordId(name))
            && (NoRival(s.script) ==> (RecordId(name) in s.items <==> RecordId(name) in r.after.items))
            && (i < maxTries ==> r.attempts > i)
            && (r.err.Some? && Mentions(r.err.value, ConditionalCheckFailed) ==>
                  (r.attempts == maxTries || i == maxTries) && r.err == Some(ConditionalCheckFailed))
    decreases maxTries - i
  {
    if i < maxTries {
      var a := RemoveAttempt(s, name, portIP);
      RemoveAttemptFrame(s, name, portIP);
      RemoveAttemptVerdict(s, name, portIP);
      if a.verdict.Conflicted? {
        RemoveLoopFacts(a.after, name, portIP, maxTries, i + 1, Some(a.verdict.cause));
        GrowsTrans(s.items, a.after.items, RemoveLoop(s, name, portIP, maxTries, i, last).after.items,
                   RecordId(name));
      }
    }
  }

  /**
   * removeServerFromBackendDynamoDB never deletes a record and, unless a rival
   * creates it, never brings one into being; it writes no other record, makes at most `maxTries` attempts and, once they
   * are spent on conflicts, returns the last conflict as it is.
   */
  lemma RemoveBoundsAndFrame(s: Snapshot, name: string, portIP: string, maxTries: nat)
    requires WellKeyed(s.items)
    ensures var r := Remove(s, name, portIP, maxTries);
            && r.attempts <= maxTries
            && (r.attempts == 0 <==> maxTries == 0)
            && WellKeyed(r.after.items)
            && Grows(s.items, r.after.items, RecordId(name))
            && (NoRival(s.script) ==> (RecordId(name) in s.items <==> RecordId(name) in r.after.items))
            && (r.err.Some? && Mentions(r.err.value, ConditionalCheckFailed) ==>
                  r.attempts == maxTries && r.err == Some(ConditionalCheckFailed))
  {
    RemoveLoopFacts(s, name, portIP, maxTries, 0, None);
  }

  /** Removing from a service that has no record, with the read arriving alone, is an error, and nothing is created. */
  lemma RemoveMissing(s: Snapshot, name: string, portIP: string, maxTries: nat)
    requires maxTries >= 1 && RecordId(name) !in s.items && Next(s.script) == Deliver
    ensures var r := Remove(s, name, portIP, maxTries);
            r.err == Some(ItemNotFound) && r.after.items == s.items
  {
  }

  /**
   * With no other writer and no lost call the server is gone after one
   * versioned write; every other server and setting stays. An address that
   * was not there still costs a version and succeeds.
   */
  lemma RemoveQuiet(s: Snapshot, name: string, portIP: string, maxTries: nat)
    requires WellKeyed(s.items) && Quiet(s.script) && maxTries >= 1 && RecordId(name) in s.items
    ensures var r := Remove(s, name, portIP, maxTries);
            var id := RecordId(name);
            var old_ := s.items[id];
            && r.err.None? && r.attempts == 1 && id in r.after.items && Quiet(r.after.script)
            && r.after.items == s.items[id := WithoutServer(old_, portIP).(version := old_.version + 1)]
            && ServersOf(r.after.items[id].backend) == ServersOf(old_.backend) - {portIP}
            && r.after.items[id].backend.settings == old_.backend.settings
            && (portIP !in ServersOf(old_.backend) ==>
                  r.after.items[id].backend.servers == old_.backend.servers)
  {
    QuietRest(s.script);
    QuietRest(Rest(s.script));
    var old_ := s.items[RecordId(name)];
    if portIP !in ServersOf(old_.backend) && old_.backend.servers.Some? {
      assert old_.backend.servers.value - {portIP} == old_.backend.servers.value;
    }
  }

  /** The root kinds a store operation can fail with. */
  predicate StoreError(e: Error)
  {
    Root(e) in {ApiFailure(Api.GetItem), ApiFailure(Api.PutItem), ApiFailure(Api.UpdateItem),
                ConditionalCheckFailed, ItemNotFound}
  }

  /** updateBackendDynamoDB fails only with a store error, and never with ItemNotFound (it creates instead). */
  lemma {:induction false} UpsertErrors(s: Snapshot, name: string, given: Backend, overwrite: bool,
                                        maxTries: nat, i: nat, last: Option<Error>)
    requires i <= maxTries
    requires last.None? || last == Some(ConditionalCheckFailed)
    ensures var r := UpsertLoop(s, name, given, overwrite, maxTries, i, last);
            r.err.Some? ==> StoreError(r.err.value) && Root(r.err.value) != ItemNotFound
    decreases maxTries - i
  {
    if i < maxTries {
      var a := UpsertAttempt(s, name, given, overwrite);
      UpsertAttemptVerdict(s, name, given, overwrite);
      if a.verdict.Conflicted? {
        UpsertErrors(a.after, name, given, overwrite, maxTries, i + 1, Some(a.verdict.cause));
      }
    }
  }

  /** removeServerFromBackendDynamoDB fails only with a store error. */
  lemma {:induction false} RemoveErrors(s: Snapshot, name: string, portIP: string, maxTries: nat,
                                        i: nat, last: Option<Error>)
    requires i <= maxTries
    requires last.None? || last == Some(ConditionalCheckFailed)
    ensures var r := RemoveLoop(s, name, portIP, maxTries, i, last);
            r.err.Some? ==> StoreError(r.err.value)
    decreases maxTries - i
  {
    if i < maxTries {
      var a := RemoveAttempt(s, name, portIP);
      RemoveAttemptVerdict(s, name, portIP);
      if a.verdict.Conflicted? {
        RemoveErrors(a.after, name, portIP, maxTries, i + 1, Some(a.verdict.cause));
      }
    }
  }
}
