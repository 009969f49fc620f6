/** An organizer's own events: the owner filter, the local removal after a
    delete, and the empty-list message (src/pages/MyEvents.jsx). */
module OrganizerEvents {
  import opened Base
  import opened Session

  /** `user.userId || user._id`: a missing or empty userId falls back to the
      id claim, which may itself be absent. */
  function OwnerKey(c: Claims): (k: Option<string>)
    ensures Truthy(c.userId) ==> k == c.userId
    ensures !Truthy(c.userId) ==> k == c.id
  {
    if Truthy(c.userId) then c.userId else c.id
  }

  /** `data.filter(e => e.organizerId === (user.userId || user._id))` */
  function Mine(events: seq<Event>, c: Claims): (r: seq<Event>)
    ensures forall e :: e in r <==> e in events && e.organizerId == OwnerKey(c)
  {
    FilterMembership(events, (e: Event) => e.organizerId == OwnerKey(c));
    Filter(events, (e: Event) => e.organizerId == OwnerKey(c))
  }

  /** The order and multiplicity of the fetched list are kept: the filter
      distributes over concatenation, and a single event is kept exactly
      when it is owned by the key. */
  lemma MineKeepsOrder(a: seq<Event>, b: seq<Event>, x: Event, c: Claims)
    ensures Mine(a + b, c) == Mine(a, c) + Mine(b, c)
    ensures Mine([x], c) == if x.organizerId == OwnerKey(c) then [x] else []
  {
    FilterAppend(a, b, (e: Event) => e.organizerId == OwnerKey(c));
    assert [x][1..] == [];
  }

  /** An event that names no organizer is listed only for a user who has
      neither id claim: both sides are then undefined and compare equal. */
  lemma UnownedEventsNeedAnonymousOwner(events: seq<Event>, c: Claims, e: Event)
    requires e in Mine(events, c) && e.organizerId.None?
    ensures !Truthy(c.userId) && c.id.None?
  {
  }

  /** `events.filter(e => e._id !== id)` */
  function RemoveEvent(events: seq<Event>, id: string): (r: seq<Event>)
    ensures forall e :: e in r <==> e in events && e.id != id
  {
    FilterMembership(events, (e: Event) => e.id != id);
    Filter(events, (e: Event) => e.id != id)
  }

  /** The removed entries are exactly those with the id: what is kept and
      what is dropped add up to the list, and the rest keep their order. */
  lemma RemoveEventSpec(events: seq<Event>, rest: seq<Event>, id: string)
    ensures RemoveEvent(events + rest, id) == RemoveEvent(events, id) + RemoveEvent(rest, id)
    ensures |RemoveEvent(events, id)| + |Filter(events, (e: Event) => e.id == id)| == |events|
  {
    FilterAppend(events, rest, (e: Event) => e.id != id);
    FilterComplementLength(events, (e: Event) => e.id != id, (e: Event) => e.id == id);
  }

  const FetchFailed := "Failed to fetch events"
  const DeleteFailed := "Failed to delete event"

  /** The page's state. */
  class MyEventsPage {
    var events: seq<Event>
    var loading: bool

    constructor ()
      ensures events == [] && loading
    {
      events, loading := [], true;
    }

    /** `fetchMyEvents`: the user's own events replace the list. A failed
        call, or no signed-in user (reading `user.userId` throws), reports a
        fixed message and keeps the list; loading ends either way. */
    method FetchMyEvents(user: Option<SessionUser>, res: Http<seq<Event>>) returns (error: Option<string>)
      modifies this
      ensures res.Ok? && user.Some? ==> events == Mine(res.data, user.value.claims) && error.None?
      ensures !(res.Ok? && user.Some?) ==> events == old(events) && error == Some(FetchFailed)
      ensures !loading
    {
      if res.Ok? && user.Some? {
        events := Mine(res.data, user.value.claims);
        error := None;
      } else {
        error := Some(FetchFailed);
      }
      loading := false;
    }

    /** `handleDelete(id)`: after confirmation a successful delete drops the
        events with that id; a failure keeps the list and reports a fixed
        message. */
    method Delete(id: string, confirmed: bool, res: Http<()>) returns (error: Option<string>)
      modifies this`events
      ensures events == if confirmed && res.Ok? then RemoveEvent(old(events), id) else old(events)
      ensures error == if confirmed && res.Failed? then Some(DeleteFailed) else None
    {
      error := None;
      if !confirmed {
        return;
      }
      if res.Ok? {
        events := RemoveEvent(events, id);
      } else {
        error := Some(DeleteFailed);
      }
    }

    /** "You haven't created any events yet." */
    predicate ShowsNoEventsMessage()
      reads this
    {
      |events| == 0
    }
  }

  /** After a successful fetch the empty-list message shows exactly when no
      fetched event is owned by the signed-in user. */
  lemma NoEventsMessageAfterFetch(page: MyEventsPage, data: seq<Event>, c: Claims)
    requires page.events == Mine(data, c)
    ensures page.ShowsNoEventsMessage() <==> forall e :: e in data ==> e.organizerId != OwnerKey(c)
  {
    if |page.events| > 0 {
      assert page.events[0] in Mine(data, c);
    }
  }
}
