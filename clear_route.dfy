/** `DELETE /shopping-list/clear`: load the collection through the gateway,
    empty it and save it. */
module ClearRoute {
  import opened ShoppingItems
  import opened Http
  import opened DataService

  const ClearedMessage: string := "Všechny položky byly smazány"
  const ClearFailedMessage: string := "Chyba při mazání všech položek"

  /** The outcome of one request, as a function of the gateway's state before
      it: the new state and the answer. A loaded value that is not an object
      makes setting `items` throw, which becomes a 500 with nothing saved. */
  function ClearOutcome(b: Backing, remoteEnabled: bool, readReachable: bool, writeReachable: bool)
    : (r: (Backing, Response))
    ensures Load(b, remoteEnabled, readReachable).ListData? ==>
              r.0 == Save(b, remoteEnabled, writeReachable, []) &&
              r.0.localCopy == [] &&
              r.1 == Response(OK, MessageBody(ClearedMessage))
    ensures Load(b, remoteEnabled, readReachable).NonObject? ==>
              r.0 == b && r.1 == Response(ServerError, ErrorBody(ClearFailedMessage))
  {
    match Load(b, remoteEnabled, readReachable)
    case ListData(_) => (Save(b, remoteEnabled, writeReachable, []), Response(OK, MessageBody(ClearedMessage)))
    case NonObject => (b, Response(ServerError, ErrorBody(ClearFailedMessage)))
  }

  method Delete(svc: Gateway, connectOk: bool, readOk: bool, writeOk: bool) returns (resp: Response)
    requires svc.Valid()
    modifies svc
    ensures svc.Valid()
    ensures svc.remoteEnabled <==> svc.client.Some?
    ensures old(svc.client).Some? ==> svc.client == old(svc.client) && svc.clientsCreated == old(svc.clientsCreated)
    ensures (svc.State(), resp) ==
            ClearOutcome(old(svc.State()), svc.remoteEnabled, (old(svc.client).Some? || connectOk) && readOk, writeOk)
  {
    var data := svc.GetData(connectOk, readOk);
    if data.NonObject? {
      return Response(ServerError, ErrorBody(ClearFailedMessage));
    }
    data := data.(items := []);
    svc.SaveData(data.items, connectOk, writeOk);
    resp := Response(OK, MessageBody(ClearedMessage));
  }

  /** Clearing is idempotent: once a clear has been saved (locally, and
      remotely when the remote store is on), a second clear, whatever its read
      and write outcomes, leaves the same state and answers success again. */
  lemma ClearTwice(b: Backing, remoteEnabled: bool, read1: bool, write1: bool, read2: bool, write2: bool)
    requires Load(b, remoteEnabled, read1).ListData?
    requires remoteEnabled ==> write1
    ensures var first := ClearOutcome(b, remoteEnabled, read1, write1);
            ClearOutcome(first.0, remoteEnabled, read2, write2) == first
  {
  }

  /** The guard on the first write matters: when a first clear fell back to
      the in-process copy and its remote write failed, a second clear can read
      the remote value that is not a list and fail with 500. */
  lemma ClearTwiceAfterFailedWrite(b: Backing)
    requires b.remoteValue == Some(Serialized(NonObject))
    ensures ClearOutcome(b, true, false, false).1.status == OK
    ensures ClearOutcome(ClearOutcome(b, true, false, false).0, true, true, true).1.status == ServerError
  {
  }
}
