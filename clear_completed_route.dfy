/** `DELETE /shopping-list/clear-completed`: load the collection through the
    gateway, keep only the items that are not completed and save it. */
module ClearCompletedRoute {
  import opened ShoppingItems
  import opened Http
  import opened DataService

  const ClearedMessage: string := "Dokončené položky byly smazány"
  const ClearFailedMessage: string := "Chyba při mazání dokončených položek"

  /** `items.filter((item) => !item.completed)`. */
  function Pending(items: seq<Item>): seq<Item> {
    Filter(items, (it: Item) => !it.completed)
  }

  /** The outcome of one request, as a function of the gateway's state before
      it: the new state and the answer. A loaded value that is not an object
      makes reading `items` throw, which becomes a 500 with nothing saved. */
  function ClearCompletedOutcome(b: Backing, remoteEnabled: bool, readReachable: bool, writeReachable: bool)
    : (r: (Backing, Response))
    ensures var loaded := Load(b, remoteEnabled, readReachable);
            loaded.ListData? ==>
              r.0 == Save(b, remoteEnabled, writeReachable, Pending(loaded.items)) &&
              r.0.localCopy == Pending(loaded.items) &&
              r.1 == Response(OK, MessageBody(ClearedMessage))
    ensures Load(b, remoteEnabled, readReachable).NonObject? ==>
              r.0 == b && r.1 == Response(ServerError, ErrorBody(ClearFailedMessage))
  {
    match Load(b, remoteEnabled, readReachable)
    case ListData(items) =>
      (Save(b, remoteEnabled, writeReachable, Pending(items)), Response(OK, MessageBody(ClearedMessage)))
    case NonObject => (b, Response(ServerError, ErrorBody(ClearFailedMessage)))
  }

  method Delete(svc: Gateway, connectOk: bool, readOk: bool, writeOk: bool) returns (resp: Response)
    requires svc.Valid()
    modifies svc
    ensures svc.Valid()
    ensures svc.remoteEnabled <==> svc.client.Some?
    ensures old(svc.client).Some? ==> svc.client == old(svc.client) && svc.clientsCreated == old(svc.clientsCreated)
    ensures (svc.State(), resp) ==
            ClearCompletedOutcome(old(svc.State()), svc.remoteEnabled, (old(svc.client).Some? || connectOk) && readOk, writeOk)
  {
    var data := svc.GetData(connectOk, readOk);
    if data.NonObject? {
      return Response(ServerError, ErrorBody(ClearFailedMessage));
    }
    data := data.(items := Pending(data.items));
    svc.SaveData(data.items, connectOk, writeOk);
    resp := Response(OK, MessageBody(ClearedMessage));
  }

  /** Exactly the items that are not completed remain, and none that is. */
  lemma PendingExactly(items: seq<Item>)
    ensures forall it :: it in Pending(items) <==> it in items && !it.completed
    ensures forall i :: 0 <= i < |Pending(items)| ==> !Pending(items)[i].completed
    ensures |Pending(items)| <= |items|
  {
  }

  /** The kept items stay in their original relative order. */
  lemma PendingKeepsOrder(a: seq<Item>, b: seq<Item>)
    ensures Pending(a + b) == Pending(a) + Pending(b)
  {
    FilterAppend(a, b, (it: Item) => !it.completed);
  }

  /** A list with no completed item is left as it is. */
  lemma PendingOfPendingList(items: seq<Item>)
    requires forall i :: 0 <= i < |items| ==> !items[i].completed
    ensures Pending(items) == items
  {
    FilterAllKept(items, (it: Item) => !it.completed);
  }

  /** Running the operation twice gives the same list as running it once. */
  lemma PendingIdempotent(items: seq<Item>)
    ensures Pending(Pending(items)) == Pending(items)
  {
    FilterIdempotent(items, (it: Item) => !it.completed);
  }

  /** `[A (open), B (done), C (done)]` becomes `[A]`. */
  lemma PendingExample(a: Item, b: Item, c: Item)
    requires !a.completed && b.completed && c.completed
    ensures Pending([a, b, c]) == [a]
  {
    var open := (it: Item) => !it.completed;
    assert [a, b, c][1..] == [b, c];
    assert [b, c][1..] == [c];
    assert Filter([c], open) == [];
    assert Filter([b, c], open) == [];
    assert Filter([a, b, c], open) == [a] + Filter([b, c], open);
  }

  /** Running the request twice leaves the same state as running it once,
      once the first run has been saved (remotely too when the remote store is
      on), whatever the second run's read and write outcomes. */
  lemma ClearCompletedTwice(b: Backing, remoteEnabled: bool, read1: bool, write1: bool, read2: bool, write2: bool)
    requires Load(b, remoteEnabled, read1).ListData?
    requires remoteEnabled ==> write1
    ensures var first := ClearCompletedOutcome(b, remoteEnabled, read1, write1);
            ClearCompletedOutcome(first.0, remoteEnabled, read2, write2) == first
  {
    PendingIdempotent(Load(b, remoteEnabled, read1).items);
  }
}
