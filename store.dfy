/**
 * The routing-store client (dynamodb.go). The DynamoDB table is a map from
 * record id to record. What happens to each call on its way to the table comes
 * from a script of outcomes: it arrives alone, it arrives just after another
 * writer committed a versioned update of the same record, or it is lost.
 * Conflicts are not scripted: they follow from the `#v = :v` condition.
 */
module Store {
  import opened Types
  import opened Backends

  datatype Outcome =
    | Deliver                    // the call reaches the table alone
    | Interleave(rival: Backend) // another writer first commits `version + 1` and its backend,
                                 // or creates the missing record at version 0
    | Drop                       // the call fails in transport

  /** The table and the outcomes still to come. */
  datatype Snapshot = Snapshot(items: map<string, BackendItem>, script: seq<Outcome>)

  /** A scripted outcome per call; once the script is used up every call arrives alone. */
  function Next(script: seq<Outcome>): Outcome
  {
    if script == [] then Deliver else script[0]
  }

  function Rest(script: seq<Outcome>): seq<Outcome>
  {
    if script == [] then [] else script[1..]
  }

  /** A script under which every call arrives alone. */
  predicate Quiet(script: seq<Outcome>)
  {
    forall k :: 0 <= k < |script| ==> script[k] == Deliver
  }

  /**
   * The table as a call on record `id` finds it when it arrives. A rival
   * either committed a versioned update of the record, or, when there was no
   * record yet, put the new record it created (createBackendItem's layout).
   */
  function Arrive(items: map<string, BackendItem>, id: string, o: Outcome): (r: map<string, BackendItem>)
    ensures r.Keys == items.Keys + (if o.Interleave? then {id} else {})
    ensures forall k :: k in items && k != id ==> r[k] == items[k]
    ensures o.Interleave? && id !in items ==> r[id] == BackendItem(id, NameOf(id), 0, o.rival)
  {
    if !o.Interleave? then items
    else if id in items then items[id := items[id].(version := items[id].version + 1, backend := o.rival)]
    else items[id := BackendItem(id, NameOf(id), 0, o.rival)]
  }

  datatype Read = Read(after: Snapshot, got: Result<BackendItem>)
  datatype Write = Write(after: Snapshot, err: Option<Error>)

  /** getItem: a consistent point read by id; an empty answer is ItemNotFound. */
  function GetItemStep(s: Snapshot, id: string): (r: Read)
    ensures r.after.script == Rest(s.script)
    ensures r.got == Err(ApiFailure(Api.GetItem)) <==> Next(s.script).Drop?
    ensures r.got == Err(ItemNotFound) <==> Next(s.script) == Deliver && id !in s.items
    ensures r.got.Ok? ==> (id in s.items || Next(s.script).Interleave?)
                          && id in r.after.items && r.after.items[id] == r.got.value
  {
    var o := Next(s.script);
    var items := Arrive(s.items, id, o);
    var after := Snapshot(items, Rest(s.script));
    if o.Drop? then Read(after, Err(ApiFailure(Api.GetItem)))
    else if id !in items then Read(after, Err(ItemNotFound))
    else Read(after, Ok(items[id]))
  }

  /**
   * updateBackendWithLock: commits only if the stored version still equals the
   * item's; then the version goes up by one and the backend is replaced, while
   * the stored id and name stay as they are.
   */
  function UpdateStep(s: Snapshot, item: BackendItem): (r: Write)
    ensures r.after.script == Rest(s.script)
    ensures var arrived := Arrive(s.items, item.id, Next(s.script));
            && (r.err.None? <==> !Next(s.script).Drop? && item.id in arrived
                                  && arrived[item.id].version == item.version)
            && (r.err.None? ==> r.after.items == arrived[item.id := arrived[item.id].(
                                   version := item.version + 1, backend := item.backend)])
            && (r.err.Some? ==> r.after.items == arrived)
    ensures r.err.Some? ==> r.err.value in {ApiFailure(Api.UpdateItem), ConditionalCheckFailed}
    ensures r.err == Some(ApiFailure(Api.UpdateItem)) <==> Next(s.script).Drop?
  {
    var o := Next(s.script);
    var items := Arrive(s.items, item.id, o);
    var rest := Rest(s.script);
    if o.Drop? then Write(Snapshot(items, rest), Some(ApiFailure(Api.UpdateItem)))
    else if item.id in items && items[item.id].version == item.version
    then Write(Snapshot(items[item.id := items[item.id].(version := item.version + 1,
                                                         backend := item.backend)], rest), None)
    else Write(Snapshot(items, rest), Some(ConditionalCheckFailed))
  }

  /** createBackendDynamoDB: an unconditional put of the whole record. */
  function PutStep(s: Snapshot, item: BackendItem): (r: Write)
    ensures r.after.script == Rest(s.script)
    ensures r.err.None? <==> !Next(s.script).Drop?
    ensures r.err.None? ==> r.after.items == Arrive(s.items, item.id, Next(s.script))[item.id := item]
    ensures r.err.Some? ==> r.err == Some(ApiFailure(Api.PutItem)) && r.after.items == s.items
  {
    var o := Next(s.script);
    var items := Arrive(s.items, item.id, o);
    if o.Drop? then Write(Snapshot(items, Rest(s.script)), Some(ApiFailure(Api.PutItem)))
    else Write(Snapshot(items[item.id := item], Rest(s.script)), None)
  }

  /** The overwrite of updateBackendDynamoDB: only the server map is replaced. */
  function WithServersReplaced(item: BackendItem, backend: Backend): (r: BackendItem)
    ensures r.id == item.id && r.name == item.name && r.version == item.version
    ensures r.backend.settings == item.backend.settings && r.backend.servers == backend.servers
  {
    item.(backend := item.backend.(servers := backend.servers))
  }

  /** The `delete` of removeServerFromBackendDynamoDB (a nil map stays nil). */
  function WithoutServer(item: BackendItem, portIP: string): (r: BackendItem)
    ensures r.id == item.id && r.name == item.name && r.version == item.version
    ensures r.backend.settings == item.backend.settings
    ensures r.backend.servers.None? <==> item.backend.servers.None?
    ensures ServersOf(r.backend) == ServersOf(item.backend) - {portIP}
  {
    if item.backend.servers.None? then item
    else item.(backend := item.backend.(servers := Some(item.backend.servers.value - {portIP})))
  }

  /** How one attempt of a retry loop ends. */
  datatype Verdict =
    | Settled(err: Option<Error>) // the loop returns this
    | Broke(cause: Error)         // the loop stops and wraps this
    | Conflicted(cause: Error)    // the loop tries again

  datatype Attempt = Attempt(after: Snapshot, verdict: Verdict)

  /** The record one upsert attempt writes for the record it read. */
  function Updated(item: BackendItem, given: Backend, overwrite: bool): BackendItem
  {
    if overwrite then WithServersReplaced(item, given) else WithServersAdded(item, given)
  }

  /** One pass of the body of updateBackendDynamoDB's loop. */
  function UpsertAttempt(s: Snapshot, name: string, given: Backend, overwrite: bool): Attempt
  {
    var r := GetItemStep(s, RecordId(name));
    if r.got.Err? then
      if Mentions(r.got.error, ItemNotFound) then
        var w := PutStep(r.after, CreateBackendItem(name, given));
        Attempt(w.after, Settled(w.err))
      else Attempt(r.after, Settled(Some(r.got.error)))
    else
      var w := UpdateStep(r.after, Updated(r.got.value, given, overwrite));
      if w.err.None? then Attempt(w.after, Settled(None))
      else if Mentions(w.err.value, ConditionalCheckFailed) then Attempt(w.after, Conflicted(w.err.value))
      else Attempt(w.after, Broke(w.err.value))
  }

  /** One pass of the body of removeServerFromBackendDynamoDB's loop. */
  function RemoveAttempt(s: Snapshot, name: string, portIP: string): Attempt
  {
    var r := GetItemStep(s, RecordId(name));
    if r.got.Err? then Attempt(r.after, Settled(Some(r.got.error)))
    else
      var w := UpdateStep(r.after, WithoutServer(r.got.value, portIP));
      if w.err.None? then Attempt(w.after, Settled(None))
      else if Mentions(w.err.value, ConditionalCheckFailed) then Attempt(w.after, Conflicted(w.err.value))
      else Attempt(w.after, Settled(w.err))
  }

  /** Where a retry loop leaves the table, what it returns and how many attempts it made. */
  datatype Run = Run(after: Snapshot, err: Option<Error>, attempts: nat)

  /** updateBackendDynamoDB's loop from attempt `i` on, `last` being the previous attempt's conflict. */
  function UpsertLoop(s: Snapshot, name: string, given: Backend, overwrite: bool,
                      maxTries: nat, i: nat, last: Option<Error>): (r: Run)
    requires i <= maxTries
    ensures i <= r.attempts <= maxTries && (i < maxTries ==> r.attempts > i)
    decreases maxTries - i
  {
    if i == maxTries then
      // errors.Wrap(nil, ...) is nil: with no attempt at all the call reports success
      Run(s, if last.Some? then Some(Tried(maxTries, last.value)) else None, i)
    else
      var a := UpsertAttempt(s, name, given, overwrite);
      match a.verdict
      case Settled(e) => Run(a.after, e, i + 1)
      case Broke(e) => Run(a.after, Some(Tried(maxTries, e)), i + 1)
      case Conflicted(e) => UpsertLoop(a.after, name, given, overwrite, maxTries, i + 1, Some(e))
  }

  function Upsert(s: Snapshot, name: string, given: Backend, overwrite: bool, maxTries: nat): (r: Run)
    ensures r.attempts <= maxTries && (r.attempts == 0 <==> maxTries == 0)
    ensures maxTries == 0 ==> r == Run(s, None, 0)
  {
    UpsertLoop(s, name, given, overwrite, maxTries, 0, None)
  }

  /** removeServerFromBackendDynamoDB's loop from attempt `i` on. */
  function RemoveLoop(s: Snapshot, name: string, portIP: string, maxTries: nat, i: nat,
                      last: Option<Error>): (r: Run)
    requires i <= maxTries
    ensures i <= r.attempts <= maxTries && (i < maxTries ==> r.attempts > i)
    decreases maxTries - i
  {
    if i == maxTries then Run(s, last, i)
    else
      var a := RemoveAttempt(s, name, portIP);
      match a.verdict
      case Settled(e) => Run(a.after, e, i + 1)
      case Broke(e) => Run(a.after, Some(e), i + 1)
      case Conflicted(e) => RemoveLoop(a.after, name, portIP, maxTries, i + 1, Some(e))
  }

  function Remove(s: Snapshot, name: string, portIP: string, maxTries: nat): (r: Run)
    ensures r.attempts <= maxTries && (r.attempts == 0 <==> maxTries == 0)
    ensures maxTries == 0 ==> r == Run(s, None, 0)
  {
    RemoveLoop(s, name, portIP, maxTries, 0, None)
  }

  /** The DynamoDB table, with the outcomes its next calls will meet. */
  class Table {
    var items: map<string, BackendItem>
    var script: seq<Outcome>

    function State(): Snapshot
      reads this
    {
      Snapshot(items, script)
    }

    constructor (items: map<string, BackendItem>, script: seq<Outcome>)
      ensures State() == Snapshot(items, script)
    {
      this.items := items;
      this.script := script;
    }

    /** The outcome the next call meets. */
    method Take() returns (o: Outcome)
      modifies this
      ensures o == Next(old(script)) && script == Rest(old(script)) && items == old(items)
    {
      o := Next(script);
      script := Rest(script);
    }

    method GetItem(id: string) returns (r: Result<BackendItem>)
      modifies this
      ensures Read(State(), r) == GetItemStep(old(State()), id)
    {
      var o := Take();
      items := Arrive(items, id, o);
      if o.Drop? {
        r := Err(ApiFailure(Api.GetItem));
      } else if id !in items {
        r := Err(ItemNotFound);
      } else {
        r := Ok(items[id]);
      }
    }

    /** getBackendItem: the record of backend `name`. */
    method GetBackendItem(name: string) returns (r: Result<BackendItem>)
      modifies this
      ensures Read(State(), r) == GetItemStep(old(State()), RecordId(name))
    {
      r := GetItem(RecordId(name));
    }

    /** getBackend: the backend of the record, or an empty backend beside the error. */
    method GetBackend(name: string) returns (b: Backend, err: Option<Error>)
      modifies this
      ensures var r := GetItemStep(old(State()), RecordId(name));
              && State() == r.after
              && (r.got.Ok? ==> b == r.got.value.backend && err.None?)
              && (r.got.Err? ==> b == Backend(None, map[]) && err == Some(r.got.error))
    {
      var r := GetBackendItem(name);
      if r.Err? {
        return Backend(None, map[]), Some(r.error);
      }
      return r.value.backend, None;
    }

    method UpdateBackendWithLock(item: BackendItem) returns (err: Option<Error>)
      modifies this
      ensures Write(State(), err) == UpdateStep(old(State()), item)
    {
      var o := Take();
      items := Arrive(items, item.id, o);
      if o.Drop? {
        err := Some(ApiFailure(Api.UpdateItem));
      } else if item.id in items && items[item.id].version == item.version {
        items := items[item.id := items[item.id].(version := item.version + 1, backend := item.backend)];
        err := None;
      } else {
        err := Some(ConditionalCheckFailed);
      }
    }

    method CreateBackendDynamoDB(name: string, item: BackendItem) returns (err: Option<Error>)
      modifies this
      ensures Write(State(), err) == PutStep(old(State()), item)
    {
      var o := Take();
      items := Arrive(items, item.id, o);
      if o.Drop? {
        err := Some(ApiFailure(Api.PutItem));
      } else {
        items := items[item.id := item];
        err := None;
      }
    }

    /** updateBackendDynamoDB: fetch, create or update under the version lock, retry on conflict. */
    method UpdateBackendDynamoDB(name: string, given: Backend, overwrite: bool, maxTries: nat)
      returns (err: Option<Error>)
      modifies this
      ensures var run := Upsert(old(State()), name, given, overwrite, maxTries);
              State() == run.after && err == run.err
    {
      var i := 0;
      var last: Option<Error> := None;
      while i < maxTries
        invariant i <= maxTries
        invariant UpsertLoop(State(), name, given, overwrite, maxTries, i, last)
                  == Upsert(old(State()), name, given, overwrite, maxTries)
        decreases maxTries - i
      {
        var got := GetBackendItem(name);
        if got.Err? {
          if Mentions(got.error, ItemNotFound) {
            var item := CreateBackendDynamoDB(name, CreateBackendItem(name, given));
            return item;
          }
          return Some(got.error);
        }
        var updated: BackendItem;
        if overwrite {
          updated := WithServersReplaced(got.value, given);
        } else {
          updated := UpdateBackendItemServers(got.value, given);
        }
        var uerr := UpdateBackendWithLock(updated);
        if uerr.None? {
          return None;
        }
        if !Mentions(uerr.value, ConditionalCheckFailed) {
          return Some(Tried(maxTries, uerr.value));
        }
        last := uerr;
        i := i + 1;
      }
      err := if last.Some? then Some(Tried(maxTries, last.value)) else None;
    }

    /** removeServerFromBackendDynamoDB: fetch, delete one server, update under the version lock. */
    method RemoveServerFromBackendDynamoDB(name: string, portIP: string, maxTries: nat)
      returns (err: Option<Error>)
      modifies this
      ensures var run := Remove(old(State()), name, portIP, maxTries);
              State() == run.after && err == run.err
    {
      var i := 0;
      err := None;
      while i < maxTries
        invariant i <= maxTries
        invariant RemoveLoop(State(), name, portIP, maxTries, i, err)
                  == Remove(old(State()), name, portIP, maxTries)
        decreases maxTries - i
      {
        var got := GetBackendItem(name);
        if got.Err? {
          return Some(got.error);
        }
        var uerr := UpdateBackendWithLock(WithoutServer(got.value, portIP));
        if uerr.None? {
          return None;
        }
        if !Mentions(uerr.value, ConditionalCheckFailed) {
          return uerr;
        }
        err := uerr;
        i := i + 1;
      }
    }
  }
}
