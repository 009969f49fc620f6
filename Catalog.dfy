/** The public event list: the split into upcoming and past events, the
    actions each visitor sees on a card, and the registration modal
    (src/pages/EventList.jsx). */
module Catalog {
  import opened Base
  import opened Session
  import opened Access

  /** `events.filter(e => new Date(e.date) > now)` */
  function Upcoming(events: seq<Event>, now: int): (r: seq<Event>)
    ensures forall e :: e in r <==> e in events && After(e.date, now)
  {
    FilterMembership(events, (e: Event) => After(e.date, now));
    Filter(events, (e: Event) => After(e.date, now))
  }

  /** `events.filter(e => new Date(e.date) <= now)` */
  function Past(events: seq<Event>, now: int): (r: seq<Event>)
    ensures forall e :: e in r <==> e in events && AtOrBefore(e.date, now)
  {
    FilterMembership(events, (e: Event) => AtOrBefore(e.date, now));
    Filter(events, (e: Event) => AtOrBefore(e.date, now))
  }

  /** The events with a missing or invalid date. */
  function Undated(events: seq<Event>): (r: seq<Event>)
    ensures forall e :: e in r <==> e in events && e.date.None?
  {
    FilterMembership(events, (e: Event) => e.date.None?);
    Filter(events, (e: Event) => e.date.None?)
  }

  /** No event is both upcoming and past, and an event without a valid date
      is in neither list. */
  lemma UpcomingPastDisjoint(events: seq<Event>, now: int, e: Event)
    ensures !(e in Upcoming(events, now) && e in Past(events, now))
    ensures e.date.None? ==> e !in Upcoming(events, now) && e !in Past(events, now)
  {
  }

  /** Every event is counted in exactly one of upcoming, past and undated. */
  lemma {:induction false} UpcomingPastUndatedCount(events: seq<Event>, now: int)
    ensures |Upcoming(events, now)| + |Past(events, now)| + |Undated(events)| == |events|
  {
    if events != [] {
      UpcomingPastUndatedCount(events[1..], now);
    }
  }

  /** Both lists keep the order of the fetched list: the split of a
      concatenation is the concatenation of the splits. */
  lemma SplitKeepsOrder(a: seq<Event>, b: seq<Event>, now: int)
    ensures Upcoming(a + b, now) == Upcoming(a, now) + Upcoming(b, now)
    ensures Past(a + b, now) == Past(a, now) + Past(b, now)
  {
    FilterAppend(a, b, (e: Event) => After(e.date, now));
    FilterAppend(a, b, (e: Event) => AtOrBefore(e.date, now));
  }

  /** `user && (user.role === 'ADMIN' || user.role === 'ORGANIZER')` */
  predicate IsAdminOrOrganizer(user: Option<SessionUser>)
  {
    user.Some? && (user.value.claims.role == ADMIN || user.value.claims.role == ORGANIZER)
  }

  /** The buttons of an event card. */
  datatype CardAction = RegisterButton | EditViewButton | DeleteButton | ViewDetailsButton

  /** `renderEventCard(event, isPast)`: the buttons, in the order they
      appear. The two Register conditions (role USER; no user) exclude each
      other, so a card has at most one Register button. */
  function CardActions(user: Option<SessionUser>, isPast: bool): (actions: seq<CardAction>)
    ensures RegisterButton in actions <==> !isPast && (user.None? || user.value.claims.role == USER)
    ensures EditViewButton in actions <==> !isPast && IsAdminOrOrganizer(user)
    ensures DeleteButton in actions <==> !isPast && IsAdminOrOrganizer(user)
    ensures ViewDetailsButton in actions <==> isPast && IsAdminOrOrganizer(user)
    ensures |actions| <= 2
  {
    if !isPast then
      (if user.Some? && user.value.claims.role == USER then [RegisterButton] else [])
      + (if user.None? then [RegisterButton] else [])
      + (if IsAdminOrOrganizer(user) then [EditViewButton, DeleteButton] else [])
    else if IsAdminOrOrganizer(user) then [ViewDetailsButton]
    else []
  }

  /** Where a button leads: Register opens the modal (or the login page),
      Edit/View and View Details open `/edit-event/:id`, Delete stays. */
  function ActionTarget(a: CardAction): Option<Path>
  {
    match a
    case EditViewButton => Some(EditEventPath)
    case ViewDetailsButton => Some(EditEventPath)
    case _ => None
  }

  /** A card never offers both registering and managing the event, and the
      management buttons lead to a page the route table lets that visitor
      open. */
  lemma CardActionsAgreeWithRoutes(user: Option<SessionUser>, isPast: bool, a: CardAction)
    requires a in CardActions(user, isPast)
    ensures a == RegisterButton ==> EditViewButton !in CardActions(user, isPast)
    ensures ActionTarget(a).Some? ==> user.Some? && Admission(ActionTarget(a).value, false, user) == Some(Render)
  {
    if ActionTarget(a).Some? {
      EventAuthoringRoutes(user.value);
    }
  }

  /** "Past / Finished Events" is listed only for admins and organizers, and
      only when there are past events. */
  predicate ListsPastSection(user: Option<SessionUser>, past: seq<Event>)
  {
    IsAdminOrOrganizer(user) && |past| > 0
  }

  /** The past section is listed for an admin or organizer exactly when
      some fetched event has a date at or before now. */
  lemma PastSectionListed(user: Option<SessionUser>, events: seq<Event>, now: int)
    ensures ListsPastSection(user, Past(events, now)) <==>
              IsAdminOrOrganizer(user) && exists e :: e in events && AtOrBefore(e.date, now)
  {
    var past := Past(events, now);
    if |past| > 0 {
      assert past[0] in past;
    }
  }

  /** What the page shows for an event: its card in the upcoming section,
      its card in the past section, or nothing. */
  datatype Placement = UpcomingCard | PastCard | NotShown

  function PlacementOf(events: seq<Event>, now: int, user: Option<SessionUser>, e: Event): (p: Placement)
    requires e in events
    ensures p == UpcomingCard <==> After(e.date, now)
    ensures p == PastCard <==> AtOrBefore(e.date, now) && IsAdminOrOrganizer(user)
  {
    if e in Upcoming(events, now) then UpcomingCard
    else if e in Past(events, now) && ListsPastSection(user, Past(events, now)) then PastCard
    else NotShown
  }

  const RegisteredMessage := "Successfully registered for event!"
  const RegistrationFailed := "Registration failed"
  const DeleteFailed := "Failed to delete event"

  /** The request body of a registration: the event id and the form. */
  datatype BookingRequest = BookingRequest(eventId: string, form: AttendeeForm)

  /** The page's state. */
  class EventListPage {
    var events: seq<Event>
    var loading: bool
    var showModal: bool
    var selectedEvent: Option<Event>
    var bookingData: AttendeeForm

    constructor ()
      ensures events == [] && loading && !showModal && selectedEvent.None? && bookingData == EmptyAttendeeForm
    {
      events, loading, showModal, selectedEvent, bookingData := [], true, false, None, EmptyAttendeeForm;
    }

    /** `fetchEvents`: a failure keeps the list; loading ends either way. */
    method FetchEvents(res: Http<seq<Event>>)
      modifies this`events, this`loading
      ensures events == if res.Ok? then res.data else old(events)
      ensures !loading
    {
      if res.Ok? {
        events := res.data;
      }
      loading := false;
    }

    /** `openBookingModal(event)`: an anonymous visitor is sent to `/login`
        and nothing else changes; otherwise the modal opens on the event with
        name and email taken from the session (or empty) and no contact. */
    method OpenBookingModal(user: Option<SessionUser>, event: Event) returns (to: Option<Path>)
      modifies this`showModal, this`selectedEvent, this`bookingData
      ensures user.None? ==> to == Some(LoginPath) && unchanged(this)
      ensures user.Some? ==> to.None? && showModal && selectedEvent == Some(event)
      ensures user.Some? ==> bookingData == AttendeeForm(OrElse(user.value.claims.name, ""), OrElse(user.value.claims.email, ""), "")
    {
      if user.None? {
        return Some(LoginPath);
      }
      selectedEvent := Some(event);
      bookingData := AttendeeForm(OrElse(user.value.claims.name, ""), OrElse(user.value.claims.email, ""), "");
      showModal := true;
      to := None;
    }

    /** An edit of the booking form's name, email or contact field. */
    method EditBookingData(f: AttendeeForm)
      modifies this`bookingData
      ensures bookingData == f
    {
      bookingData := f;
    }

    /** The modal's close button. */
    method CloseModal()
      modifies this`showModal
      ensures !showModal
    {
      showModal := false;
    }

    /** `handleBookingSubmit`: posts the event id with the form. Success
        closes the modal and re-fetches the list (`refetched`); failure keeps
        the modal open and reports the server's message, or
        "Registration failed". Without a selected event the request is never
        made and the failure message is the fixed one. */
    method SubmitBooking(res: Http<()>, refetched: Http<seq<Event>>)
      returns (request: Option<BookingRequest>, alert: Option<string>, error: Option<string>)
      modifies this`showModal, this`events, this`loading
      ensures old(selectedEvent).None? ==>
                request.None? && alert.None? && error == Some(RegistrationFailed) && unchanged(this)
      ensures old(selectedEvent).Some? ==> request == Some(BookingRequest(old(selectedEvent).value.id, old(bookingData)))
      ensures old(selectedEvent).Some? && res.Ok? ==>
                alert == Some(RegisteredMessage) && error.None? && !showModal && !loading
                && events == (if refetched.Ok? then refetched.data else old(events))
      ensures old(selectedEvent).Some? && res.Failed? ==>
                alert.None? && error == Some(ServerMessage(res, RegistrationFailed)) && unchanged(this)
    {
      if selectedEvent.None? {
        return None, None, Some(RegistrationFailed);
      }
      request := Some(BookingRequest(selectedEvent.value.id, bookingData));
      if res.Ok? {
        alert, error := Some(RegisteredMessage), None;
        showModal := false;
        FetchEvents(refetched);
      } else {
        alert, error := None, Some(ServerMessage(res, RegistrationFailed));
      }
    }

    /** `handleDelete(id)`: after confirmation the event id is sent for
        deletion; a successful delete re-fetches the list, a failure reports
        a fixed message. */
    method DeleteEvent(id: string, confirmed: bool, res: Http<()>, refetched: Http<seq<Event>>)
      returns (request: Option<string>, error: Option<string>)
      modifies this`events, this`loading
      ensures request == if confirmed then Some(id) else None
      ensures !confirmed || res.Failed? ==> unchanged(this)
      ensures error == if confirmed && res.Failed? then Some(DeleteFailed) else None
      ensures confirmed && res.Ok? ==> events == (if refetched.Ok? then refetched.data else old(events)) && !loading
    {
      request, error := None, None;
      if !confirmed {
        return;
      }
      request := Some(id);
      if res.Ok? {
        FetchEvents(refetched);
      } else {
        error := Some(DeleteFailed);
      }
    }
  }
}
