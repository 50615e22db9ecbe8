/** Building and merging traefik backends (utils.go: createBackend, createBackendItem, updateBackendItemServers). */
module Backends {
  import opened Types

  const RecordSuffix: string := "__backend"

  /** The store key of the record for backend `name`. */
  function RecordId(name: string): string
  {
    name + RecordSuffix
  }

  /** The backend name a record id belongs to (the id itself if it lacks the suffix). */
  function NameOf(id: string): (name: string)
    ensures forall n :: id == RecordId(n) ==> name == n
  {
    if |id| >= |RecordSuffix| && id[|id| - |RecordSuffix|..] == RecordSuffix
    then id[..|id| - |RecordSuffix|] else id
  }

  /** The server entry the tracker writes for an `ip:port` address. */
  function ServerFor(address: string): Server
  {
    Server("http://" + address, 0)
  }

  /** One entry per distinct address (duplicates collapse). */
  function ServersFor(addresses: seq<string>): map<string, Server>
  {
    map a | a in addresses :: ServerFor(a)
  }

  /** What createBackend returns: no server map at all for no addresses, and no other settings. */
  function BackendFor(addresses: seq<string>): Backend
  {
    if addresses == [] then Backend(None, map[]) else Backend(Some(ServersFor(addresses)), map[])
  }

  /** The servers of a backend, reading Go's nil map as empty. */
  function ServersOf(b: Backend): map<string, Server>
  {
    if b.servers.Some? then b.servers.value else map[]
  }

  /** createBackend: fills the server map one address at a time. */
  method CreateBackend(addresses: seq<string>) returns (b: Backend)
    ensures b == BackendFor(addresses)
    ensures b.settings == map[]
    ensures b.servers.None? <==> addresses == []
    ensures b.servers.Some? ==> b.servers.value.Keys == set a | a in addresses
    ensures forall a :: a in addresses ==> a in ServersOf(b) && ServersOf(b)[a].url == "http://" + a
  {
    if |addresses| == 0 {
      return Backend(None, map[]);
    }
    var servers: map<string, Server> := map[];
    for i := 0 to |addresses|
      invariant servers == ServersFor(addresses[..i])
    {
      assert addresses[..i + 1] == addresses[..i] + [addresses[i]];
      servers := servers[addresses[i] := ServerFor(addresses[i])];
    }
    assert addresses[..|addresses|] == addresses;
    b := Backend(Some(servers), map[]);
  }

  /** createBackendItem: a brand-new record, version 0, keyed by the backend's name. */
  function CreateBackendItem(name: string, backend: Backend): (item: BackendItem)
    ensures item.id == RecordId(name) && item.name == name
    ensures item.version == 0 && item.backend == backend
  {
    BackendItem(RecordId(name), name, 0, backend)
  }

  /** The record with `backend`'s servers added to its own; `backend`'s entry wins on a shared key. */
  function WithServersAdded(item: BackendItem, backend: Backend): BackendItem
  {
    item.(backend := item.backend.(servers := Some(ServersOf(item.backend) + ServersOf(backend))))
  }

  /** updateBackendItemServers: writes each of `backend`'s servers into the record's map. */
  method UpdateBackendItemServers(item: BackendItem, backend: Backend) returns (r: BackendItem)
    ensures r == WithServersAdded(item, backend)
    ensures r.id == item.id && r.name == item.name && r.version == item.version
    ensures r.backend.settings == item.backend.settings
    ensures r.backend.servers.Some?
    ensures r.backend.servers.value.Keys == ServersOf(item.backend).Keys + ServersOf(backend).Keys
    ensures forall k :: k in ServersOf(backend) ==> r.backend.servers.value[k] == ServersOf(backend)[k]
    ensures forall k :: k in ServersOf(item.backend) && k !in ServersOf(backend) ==>
                          r.backend.servers.value[k] == ServersOf(item.backend)[k]
  {
    var servers := ServersOf(item.backend);
    var given := ServersOf(backend);
    var todo := given.Keys;
    while todo != {}
      invariant todo <= given.Keys
      invariant servers.Keys == ServersOf(item.backend).Keys + (given.Keys - todo)
      invariant forall k :: k in servers ==>
                  servers[k] == if k in given && k !in todo then given[k] else ServersOf(item.backend)[k]
      decreases todo
    {
      var k :| k in todo;
      servers := servers[k := given[k]];
      todo := todo - {k};
    }
    assert servers == ServersOf(item.backend) + given;
    r := item.(backend := item.backend.(servers := Some(servers)));
  }
}
