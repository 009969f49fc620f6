/** The organizer's event page: the edit form seeded from the event, the
    event's attendee list, and the manual add of an attendee
    (src/pages/EditEvent.jsx). */
module EventEditor {
  import opened Base
  import opened Access

  /** The four editable fields of an event. */
  datatype EventForm = EventForm(title: string, description: string, location: string, seats: int)

  const BlankEventForm := EventForm("", "", "", 0)

  /** The form as filled from a fetched event. */
  function SeedForm(e: Event): (f: EventForm)
    ensures f.title == e.title && f.description == e.description
    ensures f.location == e.location && f.seats == e.seats
  {
    EventForm(e.title, e.description, e.location, e.seats)
  }

  /** Only those four fields are taken: events that agree on them seed the
      same form, whatever their id, date or organizer. */
  lemma SeedTakesNothingElse(a: Event, b: Event)
    requires a.title == b.title && a.description == b.description
    requires a.location == b.location && a.seats == b.seats
    ensures SeedForm(a) == SeedForm(b)
  {
  }

  /** `data.filter(b => b.eventId === id)` */
  function EventBookings(bookings: seq<Booking>, id: string): (r: seq<Booking>)
    ensures forall b :: b in r <==> b in bookings && b.eventId == id
  {
    FilterMembership(bookings, (b: Booking) => b.eventId == id);
    Filter(bookings, (b: Booking) => b.eventId == id)
  }

  /** The attendee list keeps the order of the fetched bookings, and a list
      already made of this event's bookings is kept whole. */
  lemma EventBookingsOrder(a: seq<Booking>, b: seq<Booking>, id: string)
    ensures EventBookings(a + b, id) == EventBookings(a, id) + EventBookings(b, id)
    ensures (forall i :: 0 <= i < |a| ==> a[i].eventId == id) ==> EventBookings(a, id) == a
  {
    FilterAppend(a, b, (x: Booking) => x.eventId == id);
    if forall i :: 0 <= i < |a| ==> a[i].eventId == id {
      FilterKeepsAll(a, (x: Booking) => x.eventId == id);
    }
  }

  const FetchEventFailed := "Failed to fetch event details"
  const UpdatedMessage := "Event updated successfully"
  const UpdateFailed := "Failed to update event"
  const AttendeeAdded := "Attendee added successfully"
  const AddFailed := "Failed to add attendee"

  /** A manual registration: the route's event id with the form. */
  datatype ManualBooking = ManualBooking(eventId: string, form: AttendeeForm)

  /** The page's state for the event id in the route. */
  class EditEventPage {
    const routeId: string
    var loading: bool
    var formData: EventForm
    var bookings: seq<Booking>
    var attendeeForm: AttendeeForm

    constructor (id: string)
      ensures routeId == id && loading && formData == BlankEventForm
      ensures bookings == [] && attendeeForm == EmptyAttendeeForm
    {
      routeId := id;
      loading, formData, bookings, attendeeForm := true, BlankEventForm, [], EmptyAttendeeForm;
    }

    /** `fetchEvent`: success seeds the form; failure reports a fixed
        message and leaves for `/events`. Loading ends either way. */
    method FetchEvent(res: Http<Event>) returns (to: Option<Path>, error: Option<string>)
      modifies this`formData, this`loading
      ensures res.Ok? ==> formData == SeedForm(res.data) && to.None? && error.None?
      ensures res.Failed? ==> formData == old(formData) && to == Some(EventsPath) && error == Some(FetchEventFailed)
      ensures !loading
    {
      if res.Ok? {
        formData := SeedForm(res.data);
        to, error := None, None;
      } else {
        to, error := Some(EventsPath), Some(FetchEventFailed);
      }
      loading := false;
    }

    /** `fetchBookings`: the bookings of this event; a failure keeps the list. */
    method FetchBookings(res: Http<seq<Booking>>)
      modifies this`bookings
      ensures bookings == if res.Ok? then EventBookings(res.data, routeId) else old(bookings)
    {
      if res.Ok? {
        bookings := EventBookings(res.data, routeId);
      }
    }

    /** An edit of the event form. */
    method EditForm(f: EventForm)
      modifies this`formData
      ensures formData == f
    {
      formData := f;
    }

    /** An edit of the attendee form. */
    method EditAttendeeForm(f: AttendeeForm)
      modifies this`attendeeForm
      ensures attendeeForm == f
    {
      attendeeForm := f;
    }

    /** `handleSubmit`: sends the form; success leaves for `/events`,
        failure reports a fixed message. Nothing on the page changes. */
    method SubmitUpdate(res: Http<()>) returns (request: EventForm, alert: Option<string>, to: Option<Path>, error: Option<string>)
      ensures request == formData
      ensures res.Ok? ==> alert == Some(UpdatedMessage) && to == Some(EventsPath) && error.None?
      ensures res.Failed? ==> alert.None? && to.None? && error == Some(UpdateFailed)
    {
      request := formData;
      if res.Ok? {
        alert, to, error := Some(UpdatedMessage), Some(EventsPath), None;
      } else {
        alert, to, error := None, None, Some(UpdateFailed);
      }
    }

    /** `handleAddAttendee`: sends the route's event id with the form. On
        success the form is emptied and the list re-fetched (`refetched`);
        on failure the form and list are kept and the server's message, or
        "Failed to add attendee", is reported. */
    method AddAttendee(res: Http<()>, refetched: Http<seq<Booking>>)
      returns (request: ManualBooking, alert: Option<string>, error: Option<string>)
      modifies this`attendeeForm, this`bookings
      ensures request == ManualBooking(routeId, old(attendeeForm))
      ensures res.Ok? ==> attendeeForm == EmptyAttendeeForm && alert == Some(AttendeeAdded) && error.None?
      ensures res.Ok? ==> bookings == if refetched.Ok? then EventBookings(refetched.data, routeId) else old(bookings)
      ensures res.Failed? ==> attendeeForm == old(attendeeForm) && bookings == old(bookings)
      ensures res.Failed? ==> alert.None? && error == Some(ServerMessage(res, AddFailed))
    {
      request := ManualBooking(routeId, attendeeForm);
      if res.Ok? {
        alert, error := Some(AttendeeAdded), None;
        attendeeForm := EmptyAttendeeForm;
        FetchBookings(refetched);
      } else {
        alert, error := None, Some(ServerMessage(res, AddFailed));
      }
    }

    /** "No attendees yet" */
    predicate ShowsNoAttendees()
      reads this
    {
      |bookings| == 0
    }
  }

  /** After a successful fetch "No attendees yet" shows exactly when no
      fetched booking is for the event being edited. */
  lemma NoAttendeesAfterFetch(page: EditEventPage, data: seq<Booking>)
    requires page.bookings == EventBookings(data, page.routeId)
    ensures page.ShowsNoAttendees() <==> forall b :: b in data ==> b.eventId != page.routeId
  {
    if |page.bookings| > 0 {
      assert page.bookings[0] in EventBookings(data, page.routeId);
    }
  }
}
