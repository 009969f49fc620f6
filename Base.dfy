/** Values shared by the pages of the event-management client: optional
    values, roles, the records the backend returns, the outcome of an HTTP
    call, and the order-preserving `filter` the pages apply to lists. */
module Base {

  datatype Option<+T> = None | Some(value: T)

  /** A role claim as the client compares it. The backend issues USER,
      ORGANIZER and ADMIN; OtherRole stands for any other value and for a
      missing claim, which every `===` comparison in the client treats alike. */
  datatype Role = USER | ORGANIZER | ADMIN | OtherRole

  /** JavaScript truthiness of a string that may be absent. */
  predicate Truthy(s: Option<string>)
  {
    s.Some? && s.value != ""
  }

  /** The JavaScript expression `s || fallback` on a string that may be absent. */
  function OrElse(s: Option<string>, fallback: string): (r: string)
    ensures Truthy(s) ==> r == s.value
    ensures !Truthy(s) ==> r == fallback
    ensures fallback != "" ==> r != ""
  {
    if Truthy(s) then s.value else fallback
  }

  /** An event as the backend returns it. `date` is the parsed start time in
      milliseconds; None when it is missing or does not parse. */
  datatype Event = Event(
    id: string,
    title: string,
    description: string,
    location: string,
    date: Option<int>,
    seats: int,
    organizerId: Option<string>)

  /** `new Date(date) > now`: false for a missing or invalid date. */
  predicate After(date: Option<int>, now: int)
  {
    date.Some? && date.value > now
  }

  /** `new Date(date) <= now`: false for a missing or invalid date. */
  predicate AtOrBefore(date: Option<int>, now: int)
  {
    date.Some? && date.value <= now
  }

  /** `new Date(date) < now`: false for a missing or invalid date. */
  predicate Before(date: Option<int>, now: int)
  {
    date.Some? && date.value < now
  }

  /** A booking (ticket) as the backend returns it; `event` is the populated
      event, absent when the event is gone. */
  datatype Booking = Booking(
    id: string,
    ticketId: string,
    eventId: string,
    event: Option<Event>,
    status: Option<string>,
    attended: bool,
    name: string,
    email: string,
    contact: string)

  /** `booking.status === 'CANCELLED'` */
  predicate IsCancelled(b: Booking)
  {
    b.status == Some("CANCELLED")
  }

  /** The three fields of the attendee forms (self-registration and manual add). */
  datatype AttendeeForm = AttendeeForm(name: string, email: string, contact: string)

  const EmptyAttendeeForm := AttendeeForm("", "", "")

  /** Id and status of a booking, as the verification endpoint discloses them
      for a ticket it refuses. */
  datatype TicketSummary = TicketSummary(id: string, status: string)

  /** The body of an error response: `error.response.data`. */
  datatype ErrorBody = ErrorBody(error: Option<string>, details: Option<TicketSummary>)

  /** The outcome of one call into the API module: the response data, or a
      thrown error whose response body may be absent (no response at all). */
  datatype Http<T> = Ok(data: T) | Failed(body: Option<ErrorBody>)

  /** `error.response?.data?.error || fallback` */
  function ServerMessage<T>(res: Http<T>, fallback: string): (msg: string)
    requires res.Failed?
    ensures fallback != "" ==> msg != ""
    ensures res.body.Some? && Truthy(res.body.value.error) ==> msg == res.body.value.error.value
    ensures !(res.body.Some? && Truthy(res.body.value.error)) ==> msg == fallback
  {
    OrElse(if res.body.Some? then res.body.value.error else None, fallback)
  }

  /** `s.filter(p)`: the elements of `s` that satisfy `p`, in their order. */
  function Filter<T>(s: seq<T>, p: T -> bool): (r: seq<T>)
    ensures |r| <= |s|
    ensures forall i :: 0 <= i < |r| ==> p(r[i]) && r[i] in s
  {
    if s == [] then []
    else (if p(s[0]) then [s[0]] else []) + Filter(s[1..], p)
  }

  /** An element is kept exactly when it occurs and satisfies the predicate. */
  lemma {:induction false} FilterMembership<T>(s: seq<T>, p: T -> bool)
    ensures forall x :: x in Filter(s, p) <==> x in s && p(x)
  {
    if s != [] {
      FilterMembership(s[1..], p);
      assert forall x :: x in s <==> x == s[0] || x in s[1..];
    }
  }

  /** Filtering commutes with concatenation: the relative order of the kept
      elements is that of the input. */
  lemma {:induction false} FilterAppend<T>(a: seq<T>, b: seq<T>, p: T -> bool)
    ensures Filter(a + b, p) == Filter(a, p) + Filter(b, p)
  {
    if a == [] {
      assert a + b == b;
    } else {
      assert (a + b)[0] == a[0];
      assert (a + b)[1..] == a[1..] + b;
      FilterAppend(a[1..], b, p);
    }
  }

  /** A predicate that holds everywhere keeps the whole list. */
  lemma {:induction false} FilterKeepsAll<T>(s: seq<T>, p: T -> bool)
    requires forall i :: 0 <= i < |s| ==> p(s[i])
    ensures Filter(s, p) == s
  {
    if s != [] {
      FilterKeepsAll(s[1..], p);
    }
  }

  /** A predicate that holds nowhere keeps nothing. */
  lemma {:induction false} FilterDropsAll<T>(s: seq<T>, p: T -> bool)
    requires forall i :: 0 <= i < |s| ==> !p(s[i])
    ensures Filter(s, p) == []
  {
    if s != [] {
      FilterDropsAll(s[1..], p);
    }
  }

  /** What a filter keeps and what the opposite filter keeps add up to the list. */
  lemma {:induction false} FilterComplementLength<T>(s: seq<T>, p: T -> bool, q: T -> bool)
    requires forall x :: q(x) == !p(x)
    ensures |Filter(s, p)| + |Filter(s, q)| == |s|
  {
    if s != [] {
      FilterComplementLength(s[1..], p, q);
    }
  }
}
