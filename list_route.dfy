/** The item-level handlers of the list endpoint. POST, PUT and DELETE read
    the whole collection from the list file, change it in memory and write
    the whole collection back; GET only reads it, and the 400 and 404 answers
    write nothing. The file is modelled as the object `ListFile` whose field
    `items` is the collection the file holds. */
module ListRoute {
  import opened ShoppingItems
  import opened Http

  const NotFoundMessage: string := "Položka nenalezena"
  const IdRequiredMessage: string := "ID je povinné"
  const DeletedMessage: string := "Položka smazána"

  /** The fields of a POST body the handler reads. An absent field is `None`. */
  datatype NewItemBody = NewItemBody(
    name: string,
    quantity: Option<int>,
    description: Option<string>)

  /** A PUT body: every item field may be present or absent; present fields
      override the stored item's. `id` is also the lookup key. */
  datatype Patch = Patch(
    id: Option<string>,
    name: Option<string>,
    quantity: Option<int>,
    description: Option<string>,
    completed: Option<bool>,
    createdAt: Option<string>)

  const EmptyPatch: Patch := Patch(None, None, None, None, None, None)

  /** The item POST builds. `now` is the millisecond clock reading that becomes
      the id, `isoNow` the ISO-8601 text of the same moment. A quantity that is
      absent or 0 (falsy) becomes 1, a description that is absent or empty
      becomes the empty string. */
  function NewItem(body: NewItemBody, now: nat, isoNow: string): (it: Item)
    ensures it.id == DecimalString(now) && it.id != ""
    ensures it.name == body.name && it.createdAt == isoNow && !it.completed
    ensures it.quantity != 0
    ensures body.quantity.None? || body.quantity == Some(0) ==> it.quantity == 1
    ensures body.quantity.Some? && body.quantity.value != 0 ==> it.quantity == body.quantity.value
    ensures body.description.Some? ==> it.description == body.description.value
    ensures body.description.None? ==> it.description == ""
  {
    Item(
      DecimalString(now),
      body.name,
      if body.quantity.Some? && body.quantity.value != 0 then body.quantity.value else 1,
      if body.description.Some? then body.description.value else "",
      false,
      isoNow)
  }

  /** The shallow merge `{ ...item, ...patch }`: every field present in the
      patch wins, every absent one keeps the item's value. */
  function Merge(item: Item, patch: Patch): (r: Item)
    ensures patch.id.Some? ==> r.id == patch.id.value
    ensures patch.id.None? ==> r.id == item.id
    ensures patch.name.Some? ==> r.name == patch.name.value
    ensures patch.name.None? ==> r.name == item.name
    ensures patch.quantity.Some? ==> r.quantity == patch.quantity.value
    ensures patch.quantity.None? ==> r.quantity == item.quantity
    ensures patch.description.Some? ==> r.description == patch.description.value
    ensures patch.description.None? ==> r.description == item.description
    ensures patch.completed.Some? ==> r.completed == patch.completed.value
    ensures patch.completed.None? ==> r.completed == item.completed
    ensures patch.createdAt.Some? ==> r.createdAt == patch.createdAt.value
    ensures patch.createdAt.None? ==> r.createdAt == item.createdAt
  {
    Item(
      patch.id.GetOr(item.id),
      patch.name.GetOr(item.name),
      patch.quantity.GetOr(item.quantity),
      patch.description.GetOr(item.description),
      patch.completed.GetOr(item.completed),
      patch.createdAt.GetOr(item.createdAt))
  }

  /** The body of two successive PUTs sent as one: the later one's present
      fields win. */
  function Combine(first: Patch, second: Patch): Patch {
    Patch(
      if second.id.Some? then second.id else first.id,
      if second.name.Some? then second.name else first.name,
      if second.quantity.Some? then second.quantity else first.quantity,
      if second.description.Some? then second.description else first.description,
      if second.completed.Some? then second.completed else first.completed,
      if second.createdAt.Some? then second.createdAt else first.createdAt)
  }

  /** `item.id === body.id`; a body without an id matches no item. */
  predicate Matches(item: Item, id: Option<string>) {
    id == Some(item.id)
  }

  /** `findIndex`: the first index whose item matches, or -1 when none does. */
  function FindIndex(items: seq<Item>, id: Option<string>): (k: int)
    ensures -1 <= k < |items|
    ensures k == -1 <==> forall j :: 0 <= j < |items| ==> !Matches(items[j], id)
    ensures k != -1 ==> Matches(items[k], id)
    ensures k != -1 ==> forall j :: 0 <= j < k ==> !Matches(items[j], id)
  {
    if items == [] then -1
    else if Matches(items[0], id) then 0
    else
      var k := FindIndex(items[1..], id);
      if k == -1 then -1 else k + 1
  }

  /** The items whose id differs from `id`, in their original order. */
  function WithoutId(items: seq<Item>, id: string): seq<Item> {
    Filter(items, (it: Item) => it.id != id)
  }

  /** The query parameter `id` is missing (`null`) or empty: both are falsy. */
  predicate MissingId(idParam: Option<string>) {
    idParam.None? || idParam.value == ""
  }

  class ListFile {
    /** The collection the list file currently holds. */
    var items: seq<Item>

    /** At module load the file is created holding an empty list when it does
        not exist yet; an existing file is left as it is. */
    constructor (existing: Option<seq<Item>>)
      ensures existing.None? ==> items == []
      ensures existing.Some? ==> items == existing.value
    {
      if existing.Some? {
        items := existing.value;
      } else {
        items := [];
      }
    }

    /** GET: the whole collection, unchanged. */
    method Get() returns (resp: Response)
      ensures resp.status == OK && resp.payload == ListBody(items)
    {
      var data := items;
      resp := Response(OK, ListBody(data));
    }

    /** POST: build the new item, append it, write the collection back and
        answer with the new item. */
    method Post(body: NewItemBody, now: nat, isoNow: string) returns (resp: Response)
      modifies this
      ensures |items| == |old(items)| + 1
      ensures items[..|old(items)|] == old(items)
      ensures items[|items| - 1] == NewItem(body, now, isoNow)
      ensures resp == Response(OK, ItemBody(items[|items| - 1]))
    {
      var data := items;
      var newItem := NewItem(body, now, isoNow);
      data := data + [newItem];
      items := data;
      resp := Response(OK, ItemBody(newItem));
    }

    /** PUT: merge the body over the first item with the body's id and write
        the collection back; 404 without writing when no item has that id. */
    method Put(patch: Patch) returns (resp: Response)
      modifies this
      ensures FindIndex(old(items), patch.id) == -1 ==>
                items == old(items) && resp == Response(NotFound, MessageBody(NotFoundMessage))
      ensures var k := FindIndex(old(items), patch.id);
              k != -1 ==>
                && |items| == |old(items)|
                && items[k] == Merge(old(items)[k], patch)
                && (forall j :: 0 <= j < |items| && j != k ==> items[j] == old(items)[j])
                && resp == Response(OK, ItemBody(items[k]))
    {
      var data := items;
      var itemIndex := FindIndex(data, patch.id);
      if itemIndex != -1 {
        data := data[itemIndex := Merge(data[itemIndex], patch)];
        items := data;
        resp := Response(OK, ItemBody(data[itemIndex]));
      } else {
        resp := Response(NotFound, MessageBody(NotFoundMessage));
      }
    }

    /** DELETE: 400 before touching the file when the id parameter is missing
        or empty; otherwise drop every item with that id (none matching is not
        an error) and write the collection back. */
    method Delete(idParam: Option<string>) returns (resp: Response)
      modifies this
      ensures MissingId(idParam) ==>
                items == old(items) && resp == Response(BadRequest, MessageBody(IdRequiredMessage))
      ensures !MissingId(idParam) ==>
                items == WithoutId(old(items), idParam.value) &&
                resp == Response(OK, MessageBody(DeletedMessage))
    {
      if MissingId(idParam) {
        return Response(BadRequest, MessageBody(IdRequiredMessage));
      }
      var data := items;
      data := WithoutId(data, idParam.value);
      items := data;
      resp := Response(OK, MessageBody(DeletedMessage));
    }
  }

  // ---------------------------------------------------------------------
  // Properties of the handlers' specifications

  /** Items posted at different clock readings get different ids. */
  lemma PostIdsDiffer(b1: NewItemBody, b2: NewItemBody, t1: nat, t2: nat, iso1: string, iso2: string)
    requires t1 != t2
    ensures NewItem(b1, t1, iso1).id != NewItem(b2, t2, iso2).id
  {
    DecimalStringInjective(t1, t2);
  }

  /** A body holding only the matched id changes nothing. */
  lemma MergeEmptyPatch(item: Item)
    ensures Merge(item, EmptyPatch.(id := Some(item.id))) == item
  {
  }

  /** Sending the same PUT body twice is the same as sending it once. */
  lemma MergeIdempotent(item: Item, patch: Patch)
    ensures Merge(Merge(item, patch), patch) == Merge(item, patch)
  {
  }

  /** Two successive PUTs to one item equal one PUT whose body is the two
      bodies combined, the later one winning. */
  lemma MergeCombine(item: Item, first: Patch, second: Patch)
    ensures Merge(Merge(item, first), second) == Merge(item, Combine(first, second))
  {
  }

  /** Toggling: a body holding only the id and `completed` changes that field
      and nothing else. */
  lemma ToggleChangesOnlyCompleted(item: Item, done: bool)
    ensures Merge(item, EmptyPatch.(id := Some(item.id), completed := Some(done)))
            == item.(completed := done)
  {
  }

  /** A successful PUT keeps the id of every item, so it never makes the
      collection's ids collide or disappear. */
  lemma PutKeepsIds(items: seq<Item>, patch: Patch)
    requires FindIndex(items, patch.id) != -1
    ensures var k := FindIndex(items, patch.id);
            Ids(items[k := Merge(items[k], patch)]) == Ids(items)
  {
    var k := FindIndex(items, patch.id);
    var after := items[k := Merge(items[k], patch)];
    assert after[k].id == items[k].id;
  }

  /** DELETE leaves exactly the items whose id differs, and no item with the
      deleted id. */
  lemma DeleteRemovesExactly(items: seq<Item>, id: string)
    ensures forall it :: it in WithoutId(items, id) <==> it in items && it.id != id
    ensures forall i :: 0 <= i < |WithoutId(items, id)| ==> WithoutId(items, id)[i].id != id
  {
  }

  /** DELETE of an id no item has leaves the collection unchanged. */
  lemma DeleteAbsentIdIsNoOp(items: seq<Item>, id: string)
    requires forall i :: 0 <= i < |items| ==> items[i].id != id
    ensures WithoutId(items, id) == items
  {
    FilterAllKept(items, (it: Item) => it.id != id);
  }

  /** DELETE of an id some item has makes the collection shorter. */
  lemma DeletePresentIdShrinks(items: seq<Item>, id: string)
    requires exists i :: 0 <= i < |items| && items[i].id == id
    ensures |WithoutId(items, id)| < |items|
  {
    var keep := (it: Item) => it.id != id;
    var i :| 0 <= i < |items| && items[i].id == id;
    assert !keep(items[i]);
    FilterShrinks(items, keep);
  }

  /** Deleting an id twice is deleting it once. */
  lemma DeleteIdempotent(items: seq<Item>, id: string)
    ensures WithoutId(WithoutId(items, id), id) == WithoutId(items, id)
  {
    FilterIdempotent(items, (it: Item) => it.id != id);
  }

  /** DELETE keeps the relative order: deleting from a concatenation deletes
      from each part. */
  lemma DeleteKeepsOrder(a: seq<Item>, b: seq<Item>, id: string)
    ensures WithoutId(a + b, id) == WithoutId(a, id) + WithoutId(b, id)
  {
    FilterAppend(a, b, (it: Item) => it.id != id);
  }
}
