/** The persistence gateway used by the bulk routes. It keeps an in-process
    copy of the collection and, when the remote store is enabled (a Redis URL
    is configured and the process runs in production mode), mirrors the
    collection to one fixed key of that store.

    The remote store is reduced to the value its key holds (`remoteValue`);
    whether a connection attempt, a read or a write succeeds is a parameter of
    each call. JSON parsing and serialisation are the identity on `Doc`. */
module DataService {
  import opened ShoppingItems

  /** A JSON value as parsed from the remote key: a list document, or a value
      that is not an object at all (`null`, a number, a string, a boolean), on
      which reading or setting `items` throws. */
  datatype Doc = ListData(items: seq<Item>) | NonObject

  /** The text the remote key holds. */
  datatype Blob =
    | Serialized(doc: Doc) // the JSON text of `doc`
    | EmptyText            // the empty string, which is falsy
    | Malformed            // text on which `JSON.parse` throws

  /** The two places the collection lives: the in-process copy and the
      remote key (`None` when the key is absent). */
  datatype Backing = Backing(localCopy: seq<Item>, remoteValue: Option<Blob>)

  /** The remote gate: `REDIS_URL` is set and non-empty, and `NODE_ENV` is
      `production`. An unset variable is the empty string here. */
  function RemoteGate(redisUrl: string, nodeEnv: string): bool {
    redisUrl != "" && nodeEnv == "production"
  }

  /** What `getData` answers. `reachable` says whether connecting and the
      remote read succeed. The in-process copy is answered when the gate is
      closed, when the remote store cannot be reached and when the stored text
      does not parse; an absent key or empty text gives an empty list. */
  function Load(b: Backing, remoteEnabled: bool, reachable: bool): (d: Doc)
    ensures !(remoteEnabled && reachable) ==> d == ListData(b.localCopy)
    ensures remoteEnabled && reachable && b.remoteValue.Some? && b.remoteValue.value.Serialized? ==>
              d == b.remoteValue.value.doc
    ensures remoteEnabled && reachable && (b.remoteValue.None? || b.remoteValue == Some(EmptyText)) ==>
              d == ListData([])
    ensures remoteEnabled && reachable && b.remoteValue == Some(Malformed) ==>
              d == ListData(b.localCopy)
    ensures d.NonObject? ==> remoteEnabled && b.remoteValue == Some(Serialized(NonObject))
  {
    if remoteEnabled && reachable then
      match b.remoteValue
      case None => ListData([])
      case Some(EmptyText) => ListData([])
      case Some(Malformed) => ListData(b.localCopy)
      case Some(Serialized(doc)) => doc
    else
      ListData(b.localCopy)
  }

  /** What `saveData(data)` leaves behind. `reachable` says whether connecting
      and the remote write succeed. The in-process copy always becomes `data`;
      the remote key changes only when the gate is open and the write goes
      through. */
  function Save(b: Backing, remoteEnabled: bool, reachable: bool, data: seq<Item>): (r: Backing)
    ensures r.localCopy == data
    ensures !(remoteEnabled && reachable) ==> r.remoteValue == b.remoteValue
    ensures remoteEnabled && reachable ==> r.remoteValue == Some(Serialized(ListData(data)))
  {
    if remoteEnabled && reachable then
      Backing(data, Some(Serialized(ListData(data))))
    else
      Backing(data, b.remoteValue)
  }

  /** A Redis client, created for the configured URL. */
  datatype ClientHandle = ClientHandle(url: string)

  class Gateway {
    const redisUrl: string
    const remoteEnabled: bool
    /** The module-level in-process copy of the collection. */
    var localCopy: seq<Item>
    /** What the remote key holds (outside this process). */
    var remoteValue: Option<Blob>
    /** The lazily created client handle. */
    var client: Option<ClientHandle>
    /** How many clients have been created so far. */
    ghost var clientsCreated: nat

    /** At most one client is ever created, it is kept once created, and only
        an open gate creates one. */
    ghost predicate Valid()
      reads this
    {
      && clientsCreated <= 1
      && (client.Some? <==> clientsCreated == 1)
      && (client.Some? ==> remoteEnabled && client.value.url == redisUrl)
    }

    function State(): Backing
      reads this
    {
      Backing(localCopy, remoteValue)
    }

    /** Process start: the in-process copy is an empty list and no client
        exists yet. `stored` is what the remote key already holds. */
    constructor (redisUrl: string, nodeEnv: string, stored: Option<Blob>)
      ensures Valid()
      ensures this.redisUrl == redisUrl && remoteEnabled == RemoteGate(redisUrl, nodeEnv)
      ensures localCopy == [] && remoteValue == stored && client.None?
    {
      this.redisUrl := redisUrl;
      remoteEnabled := RemoteGate(redisUrl, nodeEnv);
      localCopy := [];
      remoteValue := stored;
      client := None;
      clientsCreated := 0;
    }

    /** `getRedisClient`: create the client on first use and connect it; later
        calls answer the same handle and do not connect again. The handle is
        stored before connecting, so it is kept even when that first connection
        fails. `connected` is false exactly when the call throws. */
    method GetRedisClient(connectOk: bool) returns (connected: bool)
      requires Valid() && remoteEnabled
      modifies this`client, this`clientsCreated
      ensures Valid() && client.Some?
      ensures old(client).Some? ==> client == old(client) && clientsCreated == old(clientsCreated) && connected
      ensures old(client).None? ==> connected == connectOk
    {
      if client.None? {
        client := Some(ClientHandle(redisUrl));
        clientsCreated := clientsCreated + 1;
        connected := connectOk;
      } else {
        connected := true;
      }
    }

    /** `getData`. Never throws: a failed connection, a failed read and
        unparsable text all fall back to the in-process copy. */
    method GetData(connectOk: bool, readOk: bool) returns (d: Doc)
      requires Valid()
      modifies this`client, this`clientsCreated
      ensures Valid() && State() == old(State())
      ensures d == Load(old(State()), remoteEnabled, (old(client).Some? || connectOk) && readOk)
      ensures remoteEnabled <==> client.Some?
      ensures old(client).Some? ==> client == old(client) && clientsCreated == old(clientsCreated)
    {
      if remoteEnabled {
        var connected := GetRedisClient(connectOk);
        if connected && readOk {
          match remoteValue
          case None =>
            return ListData([]);
          case Some(EmptyText) =>
            return ListData([]);
          case Some(Malformed) =>
          case Some(Serialized(doc)) =>
            return doc;
        }
      }
      d := ListData(localCopy);
    }

    /** `saveData(data)`. The in-process copy is overwritten first; the remote
        write is attempted only when the gate is open, and its failure is
        swallowed. */
    method SaveData(data: seq<Item>, connectOk: bool, writeOk: bool)
      requires Valid()
      modifies this
      ensures Valid()
      ensures State() == Save(old(State()), remoteEnabled, (old(client).Some? || connectOk) && writeOk, data)
      ensures remoteEnabled <==> client.Some?
      ensures old(client).Some? ==> client == old(client) && clientsCreated == old(clientsCreated)
    {
      localCopy := data;
      if remoteEnabled {
        var connected := GetRedisClient(connectOk);
        if connected && writeOk {
          remoteValue := Some(Serialized(ListData(data)));
        }
      }
    }
  }

  // ---------------------------------------------------------------------
  // Properties of load and save

  /** The gate decides whether the remote store is used at all: closed, a
      load answers the in-process copy and a save leaves the remote key alone,
      whatever the connection does; open and reachable, a load answers what
      the key holds and a save writes the saved list to it. */
  lemma GateDecidesRemoteUse(redisUrl: string, nodeEnv: string, b: Backing, reachable: bool, data: seq<Item>)
    ensures !RemoteGate(redisUrl, nodeEnv) ==>
              && Load(b, RemoteGate(redisUrl, nodeEnv), reachable) == ListData(b.localCopy)
              && Save(b, RemoteGate(redisUrl, nodeEnv), reachable, data).remoteValue == b.remoteValue
    ensures RemoteGate(redisUrl, nodeEnv) && reachable ==>
              && redisUrl != "" && nodeEnv == "production"
              && (b.remoteValue.Some? && b.remoteValue.value.Serialized? ==>
                    Load(b, true, true) == b.remoteValue.value.doc)
              && Save(b, true, true, data).remoteValue == Some(Serialized(ListData(data)))
  {
  }

  /** Without the remote store, a save is read back by the next load. */
  lemma SaveThenLoadLocal(b: Backing, data: seq<Item>, writeOk: bool, readOk: bool)
    ensures Load(Save(b, false, writeOk, data), false, readOk) == ListData(data)
  {
  }

  /** With the remote store, a save whose write went through is read back by
      the next load whose read goes through, and by a next load whose read
      fails too (through the in-process copy). */
  lemma SaveThenLoadRemote(b: Backing, data: seq<Item>, readOk: bool)
    ensures Load(Save(b, true, true, data), true, readOk) == ListData(data)
  {
  }

  /** A swallowed write failure leaves the remote key stale: a later
      successful read answers the old remote list, not what was saved. */
  lemma FailedWriteReadsStale(b: Backing, data: seq<Item>, previous: seq<Item>)
    requires b.remoteValue == Some(Serialized(ListData(previous)))
    ensures Save(b, true, false, data).localCopy == data
    ensures Load(Save(b, true, false, data), true, true) == ListData(previous)
  {
  }

  /** `saveData(getData())` changes nothing when the remote store is off. */
  lemma LoadThenSaveLocalIsNoOp(b: Backing, connectOk: bool)
    ensures Load(b, false, connectOk).ListData?
    ensures Save(b, false, connectOk, Load(b, false, connectOk).items) == b
  {
  }

  /** With the remote store on, `saveData(getData())` changes nothing as long
      as both copies agree and the read and the write go through. */
  lemma LoadThenSaveRemoteIsNoOp(b: Backing)
    requires b.remoteValue == Some(Serialized(ListData(b.localCopy)))
    ensures Load(b, true, true).ListData?
    ensures Save(b, true, true, Load(b, true, true).items) == b
  {
  }

  /** When the remote store cannot be reached, the load answers the
      in-process copy instead of failing. */
  lemma UnreachableFallsBack(b: Backing)
    ensures Load(b, true, false) == ListData(b.localCopy)
  {
  }

  /** An absent key reads as an empty list, even when the in-process copy
      holds items. */
  lemma AbsentKeyReadsEmpty(b: Backing)
    requires b.remoteValue.None?
    ensures Load(b, true, true) == ListData([])
  {
  }

  /** Text that does not parse reads as the in-process copy. */
  lemma MalformedFallsBack(b: Backing)
    requires b.remoteValue == Some(Malformed)
    ensures Load(b, true, true) == ListData(b.localCopy)
  {
  }
}
