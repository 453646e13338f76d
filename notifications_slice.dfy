/** The notifications slice of the client store: a list of notifications with the status and
    error of the last fetch. Each reducer changes the slice in place, as the draft-mutating reducers
    do; the fetch itself is outside the model and only its three outcomes are. */
module NotificationsSlice {
  import opened Shared
  import opened Lists

  /** A notification as the server sends it, with `id` copied from `mongoId`. */
  datatype Notification = Notification(
    mongoId: string, id: string, kind: Kind, title: string, message: string,
    contactName: string, timestamp: int, isRead: bool, createdAt: string)

  /** The life cycle of the fetch request. */
  datatype Status = Idle | Loading | Succeeded | Failed

  /** `items.find(item => item.id === id)`, as a position: the first item with this id. */
  method FindById(items: seq<Notification>, id: string) returns (r: Option<nat>)
    ensures r.Some? ==> r.value < |items| && items[r.value].id == id
                        && forall j :: 0 <= j < r.value ==> items[j].id != id
    ensures r.None? ==> forall j :: 0 <= j < |items| ==> items[j].id != id
  {
    var i := 0;
    while i < |items|
      invariant 0 <= i <= |items|
      invariant forall j :: 0 <= j < i ==> items[j].id != id
    {
      if items[i].id == id {
        return Some(i);
      }
      i := i + 1;
    }
    return None;
  }

  /** The list after the first item with this id, if any, is marked read. */
  function MarkFirstRead(items: seq<Notification>, id: string): (r: seq<Notification>)
    ensures |r| == |items|
    ensures forall i :: 0 <= i < |items| ==> r[i].(isRead := items[i].isRead) == items[i]
    ensures forall i :: 0 <= i < |items| && r[i] != items[i] ==> items[i].id == id && r[i].isRead
  {
    if items == [] then []
    else if items[0].id == id then [items[0].(isRead := true)] + items[1..]
    else [items[0]] + MarkFirstRead(items[1..], id)
  }

  /** Marking the first match at position `k` changes that one item's `isRead` and nothing else. */
  lemma {:induction false} MarkFirstReadAt(items: seq<Notification>, id: string, k: nat)
    requires k < |items| && items[k].id == id
    requires forall j :: 0 <= j < k ==> items[j].id != id
    ensures MarkFirstRead(items, id) == items[k := items[k].(isRead := true)]
  {
    if k > 0 {
      MarkFirstReadAt(items[1..], id, k - 1);
      assert items[1..][k - 1 := items[k].(isRead := true)] == items[k := items[k].(isRead := true)][1..];
    }
  }

  /** With no item of this id, marking changes nothing. */
  lemma {:induction false} MarkFirstReadNoMatch(items: seq<Notification>, id: string)
    requires forall j :: 0 <= j < |items| ==> items[j].id != id
    ensures MarkFirstRead(items, id) == items
  {
    if items != [] {
      MarkFirstReadNoMatch(items[1..], id);
    }
  }

  /** Marking the same id twice is marking it once. */
  lemma {:induction false} MarkFirstReadIdempotent(items: seq<Notification>, id: string)
    ensures MarkFirstRead(MarkFirstRead(items, id), id) == MarkFirstRead(items, id)
  {
    if items != [] && items[0].id != id {
      MarkFirstReadIdempotent(items[1..], id);
    }
  }

  function WithoutId(id: string): Notification -> bool
  {
    (n: Notification) => n.id != id
  }

  /** The store slice. */
  class Slice {
    var items: seq<Notification>
    var status: Status
    var error: Option<string>

    /** The initial state: no items, no request made, no error. */
    constructor ()
      ensures items == [] && status == Idle && error == None
    {
      items, status, error := [], Idle, None;
    }

    /** `addNotification`: the new notification goes in front. */
    method AddNotification(n: Notification)
      modifies this
      ensures items == [n] + old(items)
      ensures status == old(status) && error == old(error)
    {
      items := [n] + items;
    }

    /** `markAsRead`: the first item with this id becomes read. */
    method MarkAsRead(id: string)
      modifies this
      ensures items == MarkFirstRead(old(items), id)
      ensures status == old(status) && error == old(error)
    {
      var k := FindById(items, id);
      if k.Some? {
        MarkFirstReadAt(items, id, k.value);
        items := items[k.value := items[k.value].(isRead := true)];
      } else {
        MarkFirstReadNoMatch(items, id);
      }
    }

    /** `deleteNotification`: every item with this id goes, the rest keep their order. */
    method DeleteNotification(id: string)
      modifies this
      ensures items == Filter(old(items), WithoutId(id))
      ensures forall i :: 0 <= i < |items| ==> items[i].id != id
      ensures forall i :: 0 <= i < |old(items)| && old(items)[i].id != id ==> old(items)[i] in items
      ensures status == old(status) && error == old(error)
    {
      items := Filter(items, WithoutId(id));
    }

    /** `clearAllNotifications`: no items; status and error stay. */
    method ClearAllNotifications()
      modifies this
      ensures items == []
      ensures status == old(status) && error == old(error)
    {
      items := [];
    }

    /** The fetch has started. */
    method FetchPending()
      modifies this
      ensures status == Loading
      ensures items == old(items) && error == old(error)
    {
      status := Loading;
    }

    /** The fetch delivered `payload`, which replaces the items; an earlier error is kept. */
    method FetchFulfilled(payload: seq<Notification>)
      modifies this
      ensures status == Succeeded && items == payload
      ensures error == old(error)
    {
      status := Succeeded;
      items := payload;
    }

    /** The fetch failed with `payload` as its error value; the items stay. */
    method FetchRejected(payload: Option<string>)
      modifies this
      ensures status == Failed && error == payload
      ensures items == old(items)
    {
      status := Failed;
      error := payload;
    }
  }
}
