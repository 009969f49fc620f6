/** The bookings dashboard ("My Bookings"): the status shown on each ticket,
    when a ticket may be cancelled, the event selector and its filter, and
    the local removal after a cancel (src/pages/UserDashboard.jsx). */
module Attendee {
  import opened Base
  import opened Session

  /** The status badge of a ticket. */
  datatype TicketStatus = Going | Cancelled | Verified | Expired

  /** The badge text, by priority: CANCELLED, then VERIFIED (attended), then
      EXPIRED (the event started before now), else GOING. Only bookings with
      an event are rendered, so the event is there. */
  function StatusOf(b: Booking, now: int): (st: TicketStatus)
    requires b.event.Some?
    ensures st == Cancelled <==> IsCancelled(b)
    ensures st == Verified <==> !IsCancelled(b) && b.attended
    ensures st == Expired <==> !IsCancelled(b) && !b.attended && Before(b.event.value.date, now)
    ensures st == Going <==> !IsCancelled(b) && !b.attended && !Before(b.event.value.date, now)
  {
    if IsCancelled(b) then Cancelled
    else if b.attended then Verified
    else if Before(b.event.value.date, now) then Expired
    else Going
  }

  /** The badge as the page computes it: `statusText` starts as GOING and is
      overwritten by the first condition that holds. */
  method StatusText(b: Booking, now: int) returns (statusText: TicketStatus)
    requires b.event.Some?
    ensures statusText == StatusOf(b, now)
  {
    var isCancelled := IsCancelled(b);
    var isAttended := b.attended;
    var isExpired := Before(b.event.value.date, now);
    statusText := Going;
    if isCancelled {
      statusText := Cancelled;
    } else if isAttended {
      statusText := Verified;
    } else if isExpired {
      statusText := Expired;
    }
  }

  /** The cancel button: not cancelled, not attended, and the event starts
      strictly after now. */
  predicate OffersCancel(b: Booking, now: int)
    requires b.event.Some?
  {
    !IsCancelled(b) && !b.attended && After(b.event.value.date, now)
  }

  /** Cancel is offered exactly on GOING tickets whose event has a date after
      now; a GOING ticket whose event starts now, or has no valid date, shows
      no cancel button. */
  lemma CancelOnlyOnGoingTickets(b: Booking, now: int)
    requires b.event.Some?
    ensures OffersCancel(b, now) <==> StatusOf(b, now) == Going && After(b.event.value.date, now)
    ensures !IsCancelled(b) && !b.attended && b.event.value.date.None? ==>
              StatusOf(b, now) == Going && !OffersCancel(b, now)
  {
  }

  /** `bookings.filter(b => b._id !== bookingId)` */
  function RemoveBooking(bookings: seq<Booking>, id: string): (r: seq<Booking>)
    ensures forall b :: b in r <==> b in bookings && b.id != id
  {
    FilterMembership(bookings, (b: Booking) => b.id != id);
    Filter(bookings, (b: Booking) => b.id != id)
  }

  /** `filteredBookings`: the selector value `ALL` shows everything, any
      other value the bookings of that event id, in order. An event whose id
      is the string ALL cannot be singled out. */
  function FilterByEvent(bookings: seq<Booking>, selected: string): (r: seq<Booking>)
    ensures selected == "ALL" ==> r == bookings
    ensures selected != "ALL" ==> forall b :: b in r <==> b in bookings && b.eventId == selected
  {
    if selected == "ALL" then bookings
    else
      FilterMembership(bookings, (b: Booking) => b.eventId == selected);
      Filter(bookings, (b: Booking) => b.eventId == selected)
  }

  /** Both filters keep the bookings' order and multiplicity: each
      distributes over concatenation, and a single booking is kept exactly
      when it passes. */
  lemma BookingFiltersKeepOrder(a: seq<Booking>, b: seq<Booking>, x: Booking, id: string, selected: string)
    ensures RemoveBooking(a + b, id) == RemoveBooking(a, id) + RemoveBooking(b, id)
    ensures RemoveBooking([x], id) == if x.id != id then [x] else []
    ensures FilterByEvent(a + b, selected) == FilterByEvent(a, selected) + FilterByEvent(b, selected)
    ensures FilterByEvent([x], selected) == if selected == "ALL" || x.eventId == selected then [x] else []
  {
    FilterAppend(a, b, (y: Booking) => y.id != id);
    assert [x][1..] == [];
    if selected != "ALL" {
      FilterAppend(a, b, (y: Booking) => y.eventId == selected);
    }
  }

  /** The cards rendered: bookings whose event is gone are skipped. */
  function RenderedCards(filtered: seq<Booking>): (r: seq<Booking>)
    ensures forall b :: b in r <==> b in filtered && b.event.Some?
  {
    FilterMembership(filtered, (b: Booking) => b.event.Some?);
    Filter(filtered, (b: Booking) => b.event.Some?)
  }

  /** "No bookings found." is shown when the filtered list is empty; when
      it holds only bookings without an event, neither that message nor any
      card is shown. */
  predicate ShowsNoBookingsMessage(filtered: seq<Booking>)
  {
    |filtered| == 0
  }

  lemma OrphanedBookingsShowNothing(filtered: seq<Booking>)
    requires filtered != [] && forall i :: 0 <= i < |filtered| ==> filtered[i].event.None?
    ensures !ShowsNoBookingsMessage(filtered) && RenderedCards(filtered) == []
  {
    FilterDropsAll(filtered, (b: Booking) => b.event.Some?);
  }

  // ---- The event selector: `new Map(bookings.map(b => [b.eventId, b.event]))`

  /** A JavaScript Map as its entries in insertion order. */
  type EventMap = seq<(string, Option<Event>)>

  function Keys(m: EventMap): (ks: seq<string>)
    ensures |ks| == |m| && forall i :: 0 <= i < |m| ==> ks[i] == m[i].0
  {
    if m == [] then [] else [m[0].0] + Keys(m[1..])
  }

  predicate DistinctKeys(m: EventMap)
  {
    forall i, j :: 0 <= i < j < |m| ==> m[i].0 != m[j].0
  }

  /** `map.get(k)`, None when the key is absent. */
  function Lookup(m: EventMap, k: string): Option<Option<Event>>
  {
    if m == [] then None else if m[0].0 == k then Some(m[0].1) else Lookup(m[1..], k)
  }

  /** `map.set(k, v)`: a present key keeps its place and takes the new value;
      a new key goes at the end. */
  function Put(m: EventMap, k: string, v: Option<Event>): EventMap
  {
    if m == [] then [(k, v)]
    else if m[0].0 == k then [(k, v)] + m[1..]
    else [m[0]] + Put(m[1..], k, v)
  }

  lemma {:induction false} PutKeys(m: EventMap, k: string, v: Option<Event>)
    ensures Keys(Put(m, k, v)) == if k in Keys(m) then Keys(m) else Keys(m) + [k]
  {
    if m != [] && m[0].0 != k {
      PutKeys(m[1..], k, v);
      assert Keys(m) == [m[0].0] + Keys(m[1..]);
      assert k in Keys(m) <==> k in Keys(m[1..]);
    }
  }

  lemma {:induction false} PutLookup(m: EventMap, k: string, v: Option<Event>, j: string)
    ensures Lookup(Put(m, k, v), j) == if j == k then Some(v) else Lookup(m, j)
  {
    if m != [] && m[0].0 != k {
      PutLookup(m[1..], k, v, j);
    }
  }

  lemma {:induction false} PutDistinct(m: EventMap, k: string, v: Option<Event>)
    requires DistinctKeys(m)
    ensures DistinctKeys(Put(m, k, v))
  {
    if m != [] && m[0].0 != k {
      var r := Put(m, k, v);
      assert DistinctKeys(m[1..]) by {
        forall a, b | 0 <= a < b < |m[1..]| ensures m[1..][a].0 != m[1..][b].0 {
          assert m[1..][a] == m[a + 1] && m[1..][b] == m[b + 1];
        }
      }
      PutDistinct(m[1..], k, v);
      PutKeys(m[1..], k, v);
      var t := Put(m[1..], k, v);
      assert m[0].0 !in Keys(m[1..]);
      assert m[0].0 !in Keys(t);
      assert forall j :: 0 <= j < |t| ==> t[j].0 == Keys(t)[j];
      assert r == [m[0]] + t;
    }
  }

  /** The Map built from the bookings, one `set` per booking in order. */
  function EventMapOf(bookings: seq<Booking>): EventMap
  {
    if bookings == [] then []
    else
      var last := bookings[|bookings| - 1];
      Put(EventMapOf(bookings[..|bookings| - 1]), last.eventId, last.event)
  }

  /** The event ids of the bookings, in order. */
  function EventIds(bookings: seq<Booking>): (ids: seq<string>)
    ensures |ids| == |bookings| && forall i :: 0 <= i < |bookings| ==> ids[i] == bookings[i].eventId
  {
    seq(|bookings|, i requires 0 <= i < |bookings| => bookings[i].eventId)
  }

  /** The ids in order of first appearance, each once. */
  function FirstSeen(ids: seq<string>): seq<string>
  {
    if ids == [] then []
    else
      var earlier := FirstSeen(ids[..|ids| - 1]);
      if ids[|ids| - 1] in earlier then earlier else earlier + [ids[|ids| - 1]]
  }

  /** The event of the last booking with event id k; None when no booking
      has that id. */
  function LastEventFor(bookings: seq<Booking>, k: string): Option<Option<Event>>
  {
    if bookings == [] then None
    else if bookings[|bookings| - 1].eventId == k then Some(bookings[|bookings| - 1].event)
    else LastEventFor(bookings[..|bookings| - 1], k)
  }

  /** The Map has one entry per event id, keyed in order of first
      appearance, each holding the event of the last booking with that id. */
  lemma {:induction false} EventMapSpec(bookings: seq<Booking>)
    ensures DistinctKeys(EventMapOf(bookings))
    ensures Keys(EventMapOf(bookings)) == FirstSeen(EventIds(bookings))
    ensures forall k :: Lookup(EventMapOf(bookings), k) == LastEventFor(bookings, k)
  {
    if bookings != [] {
      var n := |bookings|;
      var init, last := bookings[..n - 1], bookings[n - 1];
      EventMapSpec(init);
      var m := EventMapOf(init);
      PutDistinct(m, last.eventId, last.event);
      PutKeys(m, last.eventId, last.event);
      forall k ensures Lookup(EventMapOf(bookings), k) == LastEventFor(bookings, k) {
        PutLookup(m, last.eventId, last.event, k);
      }
      assert EventIds(bookings)[..n - 1] == EventIds(init);
    }
  }

  /** The values of the entries, dropping absent events (`.filter(e => e)`). */
  function PresentValues(m: EventMap): (es: seq<Event>)
    ensures |es| <= |m|
  {
    if m == [] then []
    else (if m[0].1.Some? then [m[0].1.value] else []) + PresentValues(m[1..])
  }

  /** An event is among the present values exactly when some entry holds it. */
  lemma {:induction false} PresentValuesAt(m: EventMap, e: Event)
    ensures e in PresentValues(m) <==> exists i :: 0 <= i < |m| && m[i].1 == Some(e)
  {
    if m != [] {
      PresentValuesAt(m[1..], e);
      assert forall i :: 1 <= i < |m| ==> m[i] == m[1..][i - 1];
      if exists i :: 0 <= i < |m[1..]| && m[1..][i].1 == Some(e) {
        var i :| 0 <= i < |m[1..]| && m[1..][i].1 == Some(e);
        assert m[i + 1].1 == Some(e);
      }
    }
  }

  /** With distinct keys, looking up an entry's key finds that entry. */
  lemma {:induction false} LookupAt(m: EventMap, i: nat)
    requires DistinctKeys(m) && i < |m|
    ensures Lookup(m, m[i].0) == Some(m[i].1)
  {
    if i > 0 {
      assert m[0].0 != m[i].0;
      assert DistinctKeys(m[1..]) by {
        forall a, b | 0 <= a < b < |m[1..]| ensures m[1..][a].0 != m[1..][b].0 {
          assert m[1..][a] == m[a + 1] && m[1..][b] == m[b + 1];
        }
      }
      LookupAt(m[1..], i - 1);
    }
  }

  /** A successful lookup comes from an entry with that key and value. */
  lemma {:induction false} LookupFinds(m: EventMap, k: string)
    requires Lookup(m, k).Some?
    ensures exists i :: 0 <= i < |m| && m[i].0 == k && Some(m[i].1) == Lookup(m, k)
  {
    if m[0].0 != k {
      LookupFinds(m[1..], k);
      var i :| 0 <= i < |m[1..]| && m[1..][i].0 == k && Some(m[1..][i].1) == Lookup(m[1..], k);
      assert m[i + 1] == m[1..][i];
    } else {
      assert m[0].0 == k && Some(m[0].1) == Lookup(m, k);
    }
  }

  lemma PresentValuesMembership(m: EventMap, e: Event)
    requires DistinctKeys(m)
    ensures e in PresentValues(m) <==> exists k :: Lookup(m, k) == Some(Some(e))
  {
    PresentValuesAt(m, e);
    if e in PresentValues(m) {
      var i :| 0 <= i < |m| && m[i].1 == Some(e);
      LookupAt(m, i);
    }
    if exists k :: Lookup(m, k) == Some(Some(e)) {
      var k :| Lookup(m, k) == Some(Some(e));
      LookupFinds(m, k);
    }
  }

  /** `uniqueEvents` */
  function UniqueEvents(bookings: seq<Booking>): (events: seq<Event>)
    ensures |events| <= |FirstSeen(EventIds(bookings))|
  {
    EventMapSpec(bookings);
    PresentValues(EventMapOf(bookings))
  }

  /** An event is offered by the selector exactly when it is the event of
      the last booking for some event id. */
  lemma UniqueEventsMembership(bookings: seq<Booking>, e: Event)
    ensures e in UniqueEvents(bookings) <==> exists k :: LastEventFor(bookings, k) == Some(Some(e))
  {
    EventMapSpec(bookings);
    var m := EventMapOf(bookings);
    PresentValuesMembership(m, e);
    assert UniqueEvents(bookings) == PresentValues(m);
    if e in UniqueEvents(bookings) {
      var k :| Lookup(m, k) == Some(Some(e));
      assert LastEventFor(bookings, k) == Some(Some(e));
    }
    if exists k :: LastEventFor(bookings, k) == Some(Some(e)) {
      var k :| LastEventFor(bookings, k) == Some(Some(e));
      assert Lookup(m, k) == Some(Some(e));
      assert exists k' :: Lookup(m, k') == Some(Some(e));
      assert e in PresentValues(m);
    }
  }

  /** `isOrganizer && uniqueEvents.length > 0` */
  predicate ShowsEventSelector(user: Option<SessionUser>, bookings: seq<Booking>)
  {
    user.Some? && user.value.claims.role == ORGANIZER && |UniqueEvents(bookings)| > 0
  }

  /** The selector is shown to an organizer exactly when, for some event id,
      the last booking with that id still carries its event. */
  lemma EventSelectorShown(user: Option<SessionUser>, bookings: seq<Booking>)
    ensures ShowsEventSelector(user, bookings) <==>
              user.Some? && user.value.claims.role == ORGANIZER
              && exists k :: LastEventFor(bookings, k).Some? && LastEventFor(bookings, k).value.Some?
  {
    if |UniqueEvents(bookings)| > 0 {
      UniqueEventsMembership(bookings, UniqueEvents(bookings)[0]);
    }
    if exists k :: LastEventFor(bookings, k).Some? && LastEventFor(bookings, k).value.Some? {
      var k :| LastEventFor(bookings, k).Some? && LastEventFor(bookings, k).value.Some?;
      var e := LastEventFor(bookings, k).value.value;
      assert LastEventFor(bookings, k) == Some(Some(e));
      UniqueEventsMembership(bookings, e);
      assert e in UniqueEvents(bookings);
    }
  }

  /** A booking whose event is populated is still left out of the selector
      when a later booking for the same event id has lost its event. */
  lemma LaterOrphanHidesEvent(x: Booking, y: Booking)
    requires x.event.Some? && y.eventId == x.eventId && y.event.None?
    ensures UniqueEvents([x, y]) == []
  {
    var bs := [x, y];
    assert bs[..1] == [x] && [x][..0] == [];
    forall k ensures !(LastEventFor(bs, k).Some? && LastEventFor(bs, k).value.Some?) {
      if k != y.eventId {
        assert LastEventFor(bs, k) == LastEventFor([x], k);
        assert LastEventFor([x], k) == LastEventFor([], k);
      }
    }
    EventSelectorShown(Some(SessionUser(Claims(None, None, None, None, ORGANIZER), "")), bs);
  }

  const CancelledMessage := "Registration cancelled successfully."
  const CancelFailedMessage := "Failed to cancel registration"

  /** The dashboard's state. */
  class UserDashboard {
    var bookings: seq<Booking>
    var loading: bool
    var selectedEventId: string

    constructor ()
      ensures bookings == [] && loading && selectedEventId == "ALL"
    {
      bookings, loading, selectedEventId := [], true, "ALL";
    }

    function FilteredBookings(): seq<Booking>
      reads this
    {
      FilterByEvent(bookings, selectedEventId)
    }

    /** `fetchBookings` */
    method FetchBookings(res: Http<seq<Booking>>)
      modifies this
      ensures bookings == if res.Ok? then res.data else old(bookings)
      ensures !loading && selectedEventId == old(selectedEventId)
    {
      if res.Ok? {
        bookings := res.data;
      }
      loading := false;
    }

    /** `handleCancel(bookingId)`: after confirmation, a successful cancel
        removes the booking locally; the alert text is returned. */
    method Cancel(id: string, confirmed: bool, res: Http<()>) returns (alert: Option<string>)
      modifies this
      ensures bookings == if confirmed && res.Ok? then RemoveBooking(old(bookings), id) else old(bookings)
      ensures !confirmed ==> alert.None?
      ensures confirmed && res.Ok? ==> alert == Some(CancelledMessage)
      ensures confirmed && res.Failed? ==> alert == Some(ServerMessage(res, CancelFailedMessage))
      ensures loading == old(loading) && selectedEventId == old(selectedEventId)
    {
      if !confirmed {
        return None;
      }
      if res.Ok? {
        alert := Some(CancelledMessage);
        bookings := RemoveBooking(bookings, id);
      } else {
        alert := Some(ServerMessage(res, CancelFailedMessage));
      }
    }

    /** The event selector's `onChange`. */
    method SelectEvent(id: string)
      modifies this`selectedEventId
      ensures selectedEventId == id
    {
      selectedEventId := id;
    }
  }
}
