# Campus Events client — a verified model

This project models, in Dafny, the decision and collection rules of the
React client of a campus event-management system. In that system
attendees register for events, organizers run their events and check
tickets at the door, and admins manage users.

Each component file of the client becomes one module:

- `Access` covers the route guard and the route table.
- `Session` covers the authentication provider and its token decoding.
- `Navbar` covers the role-dependent menu.
- `LoginPage` covers the post-login redirect.
- `Admin` covers the admin dashboard: role filter, 50-per-page paging, local delete and replace.
- `Attendee` covers the bookings dashboard: ticket status, cancel eligibility, event selector, local removal.
- `Catalog` covers the public event list: upcoming/past split, per-role card actions, registration modal.
- `Verification` covers the ticket check and the detail blocks it shows.
- `OrganizerEvents` covers an organizer's own events.
- `EventEditor` covers the event edit page and the manual add of an attendee.

`Base` holds what the pages share:
- roles, events, bookings;
- the outcome of an API call;
- JavaScript's `||` on strings;
- the order-preserving `filter`.

The modelling choices, one per item:
- **Pure rules become functions.** The filters, the slicing, the guard and the menu are functions with named results. Their properties are stated on the function, or as lemmas beside it.
- **Components become classes.** A component's state becomes a class with those fields. Each handler becomes a method whose postcondition gives the whole new state in terms of the old one and the call's outcome.
- **The API call is an input.** Every call into the API module is a parameter `Http<T>`. It is either `Ok(data)` or `Failed(body)`, where `body` is the optional error response (`error`, `details`).
- **So are the outside effects.** `window.confirm` is a boolean parameter. The page `navigate` goes to, and the text of `alert`/`showError`, are returned values.
- **A follow-up fetch is a second outcome.** When a handler re-fetches a list after success, that fetch's outcome is its own parameter.
- **Dates are `Option<int>`.** They are milliseconds, and `None` stands for a missing or unparsable date. As in JavaScript, `None` makes every `<`, `<=` and `>` comparison false.
- **Roles are `USER | ORGANIZER | ADMIN | OtherRole`.** The client only compares roles for equality with role names, whether written out or held in a variable such as the role filter or a route's role list. So any other value, or a missing role, behaves as `OtherRole`.
- **Token decoding is modelled at the string level.** The model has:
  - JavaScript's `split('.')`, written out exactly;
  - the choice of the second segment;
  - the base64url-to-base64 translation.

  The base64/JSON decoding after that is the parameter `decode: string -> Option<Claims>`. A thrown exception, and a falsy result, are both `None`.
- **Storage is one field.** `localStorage` is the provider's `storedToken` field. `setItem` of an absent token stores the string `"undefined"`, as the browser does.

## Model

| member | source | states |
|---|---|---|
| Access.PrivateRoute | src/App.jsx:19-26 | loading shows the placeholder whatever the user and roles; no user goes to `/login` for every role list, omitted or not; a user is let in iff the list is omitted or holds the role, and otherwise goes to `/`, not `/login` |
| Access.MyBookingsDeclarationsAgree | src/App.jsx:59-68 | both `/my-bookings` declarations carry the same guard, so the lookup's answer is that guard |
| Access.AnonymousVisitorsGoToLogin | src/App.jsx:23 | every guarded route of the table sends an anonymous visitor to `/login` |
| Access.AdminRoute | src/App.jsx:53-57 | `/admin` renders for a signed-in user iff the role is ADMIN |
| Access.EventAuthoringRoutes | src/App.jsx:41-51 | `/create-event` and `/edit-event/:id` render iff the role is ORGANIZER or ADMIN |
| Access.MyEventsRoute | src/App.jsx:70-74 | `/my-events` renders iff the role is ORGANIZER (an ADMIN is refused) |
| Access.VerifyTicketRoute | src/App.jsx:76-80 | `/verify-ticket` renders iff the role is ORGANIZER |
| Access.SignedInRoutes | src/App.jsx:59-86 | `/profile` and `/my-bookings` render for every signed-in user |
| Access.PublicRoutes | src/App.jsx:36-39 | `/`, `/events`, `/login`, `/register` render for anybody, loading or not |
| Access.GuardInFirstDeclaration | src/App.jsx:35-87 | the table lookup finds a guard iff the path is declared, and then the guard of its first declaration |
| Access.RouteTableLayout | src/App.jsx:35-87 | the table declares every path pattern, and the unwrapped ones are exactly `/`, `/events`, `/login` and `/register` |
| Access.Admission | src/App.jsx:35-87 | every pattern gives an answer; while loading or signed out exactly the public pages render; a guarded page shows the placeholder while loading and sends a signed-out visitor to `/login` |
| Session.Split | src/context/AuthContext.jsx:10 | `split('.')`: at least one piece, no piece holds a dot, exactly one piece iff the string has no dot |
| Session.JoinSplit | src/context/AuthContext.jsx:10 | re-joining the pieces with dots gives the token back |
| Session.SplitJoin | src/context/AuthContext.jsx:10 | splitting dot-free pieces joined by dots gives the pieces back |
| Session.PayloadSegment | src/context/AuthContext.jsx:10 | `split('.')[1]` is undefined iff the token has no dot; the segment has no dot |
| Session.PayloadSegmentLocation | src/context/AuthContext.jsx:10 | the segment is the text right after the first dot, up to the next dot or the end |
| Session.ReplaceAll | src/context/AuthContext.jsx:11 | a global `replace` of one character: same length, that character replaced at every position, the rest unchanged |
| Session.UrlToStandard | src/context/AuthContext.jsx:11 | every `-` becomes `+`, every `_` becomes `/`, all else unchanged; no `-` or `_` is left |
| Session.DecodeToken | src/context/AuthContext.jsx:8-18 | a token without a dot yields null; a token with one yields exactly the decoder's verdict on its translated second segment |
| Session.DecodeThreeSegmentToken | src/context/AuthContext.jsx:10-15 | a token `header.payload.signature` with a dot-free header and payload decodes to the decoder's verdict on the translated payload |
| Session.DecodeIgnoresHeaderAndSignature | src/context/AuthContext.jsx:10-15 | tokens with the same payload segment decode alike, whatever their other segments |
| Session.Initial | src/context/AuthContext.jsx:22-23 | before the effect runs nobody is signed in and `loading` is true |
| Session.RestoreStep | src/context/AuthContext.jsx:25-36 | no stored token leaves the user as it was; a decodable one signs in its claims with the token; an undecodable one is removed and the user stays as it was (nobody, at mount); `loading` is false in every branch |
| Session.LoginStep | src/context/AuthContext.jsx:38-47 | a failed request throws and changes nothing; otherwise the token is stored before decoding, a decodable token signs in and returns its claims, an undecodable one returns nothing and keeps the previous user |
| Session.DecodeResponseToken | src/context/AuthContext.jsx:43 | a missing token decodes to nothing; claims only come from a token that has a dot |
| Session.StoredFormDecodesAlike | src/context/AuthContext.jsx:40-43 | the string `setItem` stores decodes to what `login` decoded; a missing token is stored as "undefined", which decodes to nothing |
| Session.LogoutStep | src/context/AuthContext.jsx:53-56 | the stored token is removed and nobody is signed in |
| Session.InitialIsConsistent | src/context/AuthContext.jsx:22-23 | the starting state satisfies the invariant "the signed-in user is the decoding of the stored token" |
| Session.RestorePreservesConsistent | src/context/AuthContext.jsx:25-36 | restoring keeps that invariant |
| Session.LogoutPreservesConsistent | src/context/AuthContext.jsx:53-56 | logging out keeps that invariant |
| Session.LoginPreservesConsistent | src/context/AuthContext.jsx:38-47 | logging in keeps it, unless someone is already signed in and the new token does not decode |
| Session.LoginWithUndecodableTokenKeepsStaleUser | src/context/AuthContext.jsx:40-46 | a concrete case of that exception: the old user stays signed in while storage holds the new token |
| Session.ReloadAfterLoginRestoresUser | src/context/AuthContext.jsx:25-47 | after a successful login, a reload restores the same user from storage |
| Session.ReloadAfterLogoutSignsNobodyIn | src/context/AuthContext.jsx:25-56 | after a logout, a reload signs nobody in |
| Session.RestoreRendersChildren | src/context/AuthContext.jsx:35-60 | the children are hidden before the restore and rendered after it, whatever was stored |
| Session.AuthProvider.constructor | src/context/AuthContext.jsx:21-23 | a provider starts with no user, `loading` true and the given storage |
| Session.AuthProvider.RestoreSession | src/context/AuthContext.jsx:25-36 | the new state is the restore step applied to the old one |
| Session.AuthProvider.Login | src/context/AuthContext.jsx:38-47 | the new state and the returned value are the login step's |
| Session.AuthProvider.Logout | src/context/AuthContext.jsx:53-56 | the new state is the logout step's |
| Navbar.Menu | src/components/Navbar.jsx:22-61 | an entry is in the menu iff it is shown to that visitor (Navbar.Shown: no user sees exactly Events, Login, Register; a signed-in user sees Events, My Profile and Logout, Create Event/My Events/Verify Ticket iff ORGANIZER, Admin Dashboard iff ADMIN, My Bookings iff not ADMIN); Events comes first |
| Navbar.Dropdown | src/components/Navbar.jsx:36-51 | the dropdown holds exactly the entries shown to that user other than Events and Logout |
| Navbar.MenuLinksAreAdmitted | src/components/Navbar.jsx:36-51 | every link in a signed-in user's menu leads to a route that lets that user in |
| Navbar.AnonymousMenuIsPublic | src/components/Navbar.jsx:56-61 | every link shown to an anonymous visitor leads to a public route |
| Navbar.AdminMenuOmitsCreateEvent | src/components/Navbar.jsx:37-46 | an ADMIN may open `/create-event` but the menu does not offer it |
| Navbar.HandleLogout | src/components/Navbar.jsx:10-13 | logout clears the session, then the page goes to `/login` |
| LoginPage.RedirectFor | src/pages/Login.jsx:15-21 | ADMIN goes to `/admin`, ORGANIZER to `/profile`, every other role to `/`, each iff |
| LoginPage.SubmitResult | src/pages/Login.jsx:14-24 | a redirect happens iff `login` returned claims, and then by their role |
| LoginPage.UndecodableTokenIsAFailedLogin | src/pages/Login.jsx:13-24 | a failed request and an undecodable token both end without a redirect |
| LoginPage.RedirectIsAdmitted | src/pages/Login.jsx:14-21 | the page a login redirects to lets the newly signed-in user in |
| LoginPage.LoginForm.constructor | src/pages/Login.jsx:7 | the form starts without an error message |
| LoginPage.LoginForm.HandleSubmit | src/pages/Login.jsx:11-25 | the provider takes the login step; the form shows "Invalid email or password" exactly when there is no redirect |
| Admin.FilterByRole | src/pages/AdminDashboard.jsx:62-64 | `ALL` is the identity; a role keeps exactly the users with that role (order: Admin.FilterByRoleKeepsOrder) |
| Admin.FilterByRoleKeepsOrder | src/pages/AdminDashboard.jsx:62-64 | the filter distributes over concatenation and keeps a single user iff it matches, so order and multiplicity are those of the list |
| Admin.Slice | src/pages/AdminDashboard.jsx:67-70 | `Array.slice`: length from the clamped bounds, item i is the item at the clamped start plus i, and in-range bounds give exactly `s[start..end]` |
| Admin.TotalPages | src/pages/AdminDashboard.jsx:66 | the page count is the least number of 50-item pages holding the list: zero iff the list is empty |
| Admin.SliceIndex | src/pages/AdminDashboard.jsx:67-70 | a `slice` index lies within the list and is itself when in range |
| Admin.Page | src/pages/AdminDashboard.jsx:67-70 | for a page p at least 1: at most 50 items; empty past the last page; otherwise exactly items (p-1)*50 up to min(p*50, n) |
| Admin.PagesUpToIsPrefix | src/pages/AdminDashboard.jsx:67-70 | the first k pages together are the first min(50k, n) items |
| Admin.PagesCoverList | src/pages/AdminDashboard.jsx:66-70 | pages 1 to the page count, in order, give back the whole list |
| Admin.ItemPage | src/pages/AdminDashboard.jsx:66-70 | item i is on page i/50+1 at position i mod 50 |
| Admin.PrevPage | src/pages/AdminDashboard.jsx:240 | Previous gives `max(1, p-1)`, never below 1 |
| Admin.NextPage | src/pages/AdminDashboard.jsx:251 | Next gives `min(total, p+1)`, never above the page count |
| Admin.PagingStaysInRange | src/pages/AdminDashboard.jsx:237-254 | from a page in range, Previous and Next stay in range |
| Admin.PageControlsPastOnePage | src/pages/AdminDashboard.jsx:237 | the Previous/Next controls appear exactly when the list holds more than 50 items |
| Admin.RemoveUserSpec | src/pages/AdminDashboard.jsx:40 | a delete keeps exactly the users with another id, in order, and drops exactly those with that id |
| Admin.RemoveUser | src/pages/AdminDashboard.jsx:40 | a user is kept iff it is in the list and has another id |
| Admin.ReplaceUser | src/pages/AdminDashboard.jsx:53 | the same length; each entry with the edited id becomes the returned user, every other stays |
| Admin.ReplaceUserSpec | src/pages/AdminDashboard.jsx:53 | when the server returns the user with the same `_id`: replacing is idempotent, and removing the id afterwards undoes it |
| Admin.RemoveAfterReplace | src/pages/AdminDashboard.jsx:40-53 | when the server returns the user with the same `_id`: removing that id after replacing equals removing it from the original list |
| Admin.StatusLabel | src/pages/AdminDashboard.jsx:125 | a booking without a status reads BOOKED, otherwise its status; never empty |
| Admin.RemoveOfferedOnlyForNonAdmins | src/pages/AdminDashboard.jsx:218 | a Remove button on a shown row belongs to a listed user who is not an ADMIN; under the ADMIN filter no row offers one |
| Admin.AdminDashboard.constructor | src/pages/AdminDashboard.jsx:6-14 | starts empty, loading, filter `ALL`, both lists on page 1 |
| Admin.AdminDashboard.FilteredUsers | src/pages/AdminDashboard.jsx:62-64 | the users the current filter lets through: all of them under `ALL`, else exactly those with the role |
| Admin.AdminDashboard.TotalUserPages | src/pages/AdminDashboard.jsx:66 | the least number of 50-user pages that holds the filtered users |
| Admin.AdminDashboard.PaginatedUsers | src/pages/AdminDashboard.jsx:67-70 | at most 50 users, each a listed user matching the filter |
| Admin.AdminDashboard.TotalBookingPages | src/pages/AdminDashboard.jsx:79 | the least number of 50-booking pages that holds all bookings |
| Admin.AdminDashboard.PaginatedBookings | src/pages/AdminDashboard.jsx:80-83 | at most 50 bookings, each one of the fetched bookings |
| Admin.AdminDashboard.FetchData | src/pages/AdminDashboard.jsx:20-34 | both lists are replaced only when both requests succeed, otherwise "Failed to fetch dashboard data"; loading ends either way |
| Admin.AdminDashboard.DeleteUser | src/pages/AdminDashboard.jsx:36-44 | a confirmed, successful delete removes that id; a failure reports "Failed to delete user"; either way nothing else changes |
| Admin.AdminDashboard.StartEditing | src/pages/AdminDashboard.jsx:213 | the edit form opens on the chosen user |
| Admin.AdminDashboard.CancelEditing | src/pages/AdminDashboard.jsx:266 | the close button (and the Cancel button at line 300) closes the edit form and changes nothing else |
| Admin.AdminDashboard.EditName | src/pages/AdminDashboard.jsx:274 | the name input replaces the edited user's name and nothing else |
| Admin.AdminDashboard.EditRole | src/pages/AdminDashboard.jsx:291 | the role select replaces the edited user's role and nothing else |
| Admin.AdminDashboard.UpdateUser | src/pages/AdminDashboard.jsx:46-59 | sends the edited user's id, name and role; success replaces that id by the returned user and closes the form; failure, or no user being edited, changes nothing and reports "Failed to update user" |
| Admin.AdminDashboard.SetFilterRole | src/pages/AdminDashboard.jsx:72-75 | a new filter value puts the user list back on page 1 |
| Admin.AdminDashboard.PrevUserPage | src/pages/AdminDashboard.jsx:240 | the user page becomes the Previous page |
| Admin.AdminDashboard.NextUserPage | src/pages/AdminDashboard.jsx:251 | the user page becomes the Next page |
| Admin.AdminDashboard.PrevBookingPage | src/pages/AdminDashboard.jsx:141 | the booking page becomes the Previous page |
| Admin.AdminDashboard.NextBookingPage | src/pages/AdminDashboard.jsx:152 | the booking page becomes the Next page |
| Attendee.StatusOf | src/pages/UserDashboard.jsx:112-128 | CANCELLED iff cancelled; VERIFIED iff attended and not cancelled; EXPIRED iff neither and the event started before now; GOING otherwise |
| Attendee.StatusText | src/pages/UserDashboard.jsx:112-128 | the if-chain over `statusText` yields the status of that priority order |
| Attendee.CancelOnlyOnGoingTickets | src/pages/UserDashboard.jsx:148 | the cancel button (OffersCancel) shows iff the ticket is GOING and its event starts strictly after now; a GOING ticket without a valid date offers none |
| Attendee.RemoveBooking | src/pages/UserDashboard.jsx:31 | the list keeps exactly the bookings with another id (order: Attendee.BookingFiltersKeepOrder) |
| Attendee.FilterByEvent | src/pages/UserDashboard.jsx:44-46 | `ALL` is the identity; an id keeps exactly the bookings of that event (order: Attendee.BookingFiltersKeepOrder) |
| Attendee.BookingFiltersKeepOrder | src/pages/UserDashboard.jsx:31-46 | the removal and the event filter each distribute over concatenation and keep a single booking iff it passes, so order and multiplicity are those of the list |
| Attendee.RenderedCards | src/pages/UserDashboard.jsx:77-78 | exactly the bookings whose event is present are rendered |
| Attendee.OrphanedBookingsShowNothing | src/pages/UserDashboard.jsx:71-78 | a non-empty list of bookings without events shows neither a card nor "No bookings found." |
| Attendee.PutKeys | src/pages/UserDashboard.jsx:41 | `Map.set`: a present key keeps its place, a new key goes last |
| Attendee.PutLookup | src/pages/UserDashboard.jsx:41 | after `set`, the key reads the new value and every other key what it read before |
| Attendee.EventMapSpec | src/pages/UserDashboard.jsx:41 | the Map has distinct keys in order of first appearance, each holding the event of the last booking with that id |
| Attendee.PresentValuesAt | src/pages/UserDashboard.jsx:41 | `.filter(e => e)` keeps exactly the present events of the entries |
| Attendee.UniqueEvents | src/pages/UserDashboard.jsx:41 | no more entries than distinct event ids |
| Attendee.UniqueEventsMembership | src/pages/UserDashboard.jsx:41 | an event is offered iff it is the event of the last booking for some event id |
| Attendee.EventSelectorShown | src/pages/UserDashboard.jsx:57 | the selector shows iff the user is an ORGANIZER and, for some event id, the last booking with that id carries its event |
| Attendee.LaterOrphanHidesEvent | src/pages/UserDashboard.jsx:41 | a booking with its event is left out of the selector when a later booking of the same event id has lost its event |
| Attendee.UserDashboard.constructor | src/pages/UserDashboard.jsx:6-7 | starts empty, loading, with selector `ALL` |
| Attendee.UserDashboard.FetchBookings | src/pages/UserDashboard.jsx:13-22 | success replaces the bookings, failure keeps them; loading ends |
| Attendee.UserDashboard.Cancel | src/pages/UserDashboard.jsx:24-35 | a confirmed successful cancel removes exactly that id; failure keeps the list and alerts the server's message or the fixed one; no confirmation does nothing |
| Attendee.UserDashboard.SelectEvent | src/pages/UserDashboard.jsx:60 | the selector takes the chosen id |
| Catalog.Upcoming | src/pages/EventList.jsx:71 | exactly the events dated after now, in order |
| Catalog.Past | src/pages/EventList.jsx:72 | exactly the events dated at or before now, in order |
| Catalog.Undated | src/pages/EventList.jsx:71-72 | exactly the events without a valid date |
| Catalog.UpcomingPastDisjoint | src/pages/EventList.jsx:71-72 | no event is in both lists; an undated event is in neither |
| Catalog.UpcomingPastUndatedCount | src/pages/EventList.jsx:71-72 | upcoming, past and undated together count every event once |
| Catalog.SplitKeepsOrder | src/pages/EventList.jsx:71-72 | the split of a concatenation is the concatenation of the splits |
| Catalog.CardActions | src/pages/EventList.jsx:90-111 | Register iff not past and no user or role USER; Edit/View and Delete iff not past and admin or organizer; View Details iff past and admin or organizer; at most two buttons |
| Catalog.CardActionsAgreeWithRoutes | src/pages/EventList.jsx:99-111 | no card offers both Register and Edit; Edit/View and View Details lead to a page that lets that user in |
| Catalog.PlacementOf | src/pages/EventList.jsx:122-129 | an event has an upcoming card iff dated after now, a past card iff dated at or before now and the visitor is admin or organizer |
| Catalog.PastSectionListed | src/pages/EventList.jsx:125 | the past section is listed iff the visitor is an admin or organizer and some event is dated at or before now |
| Catalog.EventListPage.constructor | src/pages/EventList.jsx:8-14 | starts empty, loading, modal closed, empty form |
| Catalog.EventListPage.FetchEvents | src/pages/EventList.jsx:22-31 | success replaces the list, failure keeps it; loading ends |
| Catalog.EventListPage.OpenBookingModal | src/pages/EventList.jsx:43-52 | no user goes to `/login` and nothing changes; otherwise the modal opens on the event with name and email from the session or empty, and no contact |
| Catalog.EventListPage.CloseModal | src/pages/EventList.jsx:138 | the modal closes |
| Catalog.EventListPage.EditBookingData | src/pages/EventList.jsx:148-166 | an edit of the booking form's fields sets the form to the edited value |
| Catalog.EventListPage.SubmitBooking | src/pages/EventList.jsx:54-67 | sends the event id and the form; success closes the modal and re-fetches; failure keeps all and reports the server's message or "Registration failed" |
| Catalog.EventListPage.DeleteEvent | src/pages/EventList.jsx:33-41 | after confirmation the event id is sent; a successful delete re-fetches; a failure reports "Failed to delete event" and changes nothing |
| Verification.ShapeResult | src/pages/VerifyTicket.jsx:13-19 | success is the response data with `success` true unless the data says otherwise; failure has `success` false, the server's message or "Verification Failed", the server's details, no booking |
| Verification.DetailBlocks | src/pages/VerifyTicket.jsx:43-67 | full details iff a booking came back; never both blocks; a failure never shows full details and shows the limited block iff the server sent details |
| Verification.HeadlineOf | src/pages/VerifyTicket.jsx:41 | "Valid Ticket" iff success, otherwise the error text |
| Verification.FailureHasMessage | src/pages/VerifyTicket.jsx:17-18 | a failed check always shows a non-empty message |
| Verification.VerifyTicketPage.constructor | src/pages/VerifyTicket.jsx:6-7 | no ticket id, no result |
| Verification.VerifyTicketPage.EditTicketId | src/pages/VerifyTicket.jsx:31 | the input takes the typed text |
| Verification.VerifyTicketPage.BeginVerify | src/pages/VerifyTicket.jsx:12-14 | the previous result is cleared and the typed id is sent |
| Verification.VerifyTicketPage.FinishVerify | src/pages/VerifyTicket.jsx:15-18 | the result becomes the shaped outcome |
| Verification.VerifyTicketPage.Verify | src/pages/VerifyTicket.jsx:10-20 | afterwards the result depends on this call alone |
| OrganizerEvents.OwnerKey | src/pages/MyEvents.jsx:23 | `userId` when truthy, else the `_id` claim |
| OrganizerEvents.Mine | src/pages/MyEvents.jsx:23 | exactly the events whose organizer is that key (order and multiplicity: OrganizerEvents.MineKeepsOrder) |
| OrganizerEvents.MineKeepsOrder | src/pages/MyEvents.jsx:23 | the owner filter distributes over concatenation and keeps a single event iff it is owned by the key, so order and multiplicity are those of the fetched list |
| OrganizerEvents.UnownedEventsNeedAnonymousOwner | src/pages/MyEvents.jsx:23 | an event without organizer is listed only for a user with neither id claim |
| OrganizerEvents.RemoveEvent | src/pages/MyEvents.jsx:37 | keeps exactly the events with another id |
| OrganizerEvents.RemoveEventSpec | src/pages/MyEvents.jsx:37 | removal keeps order and drops exactly the events with that id |
| OrganizerEvents.MyEventsPage.constructor | src/pages/MyEvents.jsx:8-9 | starts empty and loading |
| OrganizerEvents.MyEventsPage.FetchMyEvents | src/pages/MyEvents.jsx:18-31 | success with a user shows that user's events; a failure or no user keeps the list and reports "Failed to fetch events"; loading ends |
| OrganizerEvents.MyEventsPage.Delete | src/pages/MyEvents.jsx:33-41 | a confirmed successful delete removes that id; failure keeps the list and reports "Failed to delete event" |
| OrganizerEvents.NoEventsMessageAfterFetch | src/pages/MyEvents.jsx:86 | after a fetch the empty-list message shows iff no fetched event is owned by the user |
| EventEditor.SeedForm | src/pages/EditEvent.jsx:28-33 | the form holds the event's title, description, location and seats |
| EventEditor.SeedTakesNothingElse | src/pages/EditEvent.jsx:28-33 | events that agree on those four fields seed the same form |
| EventEditor.EventBookings | src/pages/EditEvent.jsx:48 | exactly the bookings of the route's event |
| EventEditor.EventBookingsOrder | src/pages/EditEvent.jsx:48 | the fetched order is kept, and a list of this event's bookings is kept whole |
| EventEditor.EditEventPage.constructor | src/pages/EditEvent.jsx:7-18 | a blank form, no attendees, empty attendee form, loading |
| EventEditor.EditEventPage.FetchEvent | src/pages/EditEvent.jsx:25-41 | success seeds the form; failure reports a fixed message and goes to `/events`; loading ends |
| EventEditor.EditEventPage.FetchBookings | src/pages/EditEvent.jsx:43-53 | success shows this event's bookings; failure keeps the list |
| EventEditor.EditEventPage.EditForm | src/pages/EditEvent.jsx:98 | the form takes the edit |
| EventEditor.EditEventPage.EditAttendeeForm | src/pages/EditEvent.jsx:152 | the attendee form takes the edit |
| EventEditor.EditEventPage.SubmitUpdate | src/pages/EditEvent.jsx:55-64 | sends the form; success goes to `/events`; failure reports "Failed to update event" |
| EventEditor.EditEventPage.AddAttendee | src/pages/EditEvent.jsx:66-79 | sends the route's id with the form; success empties the form and re-fetches; failure keeps form and list and reports the server's message or "Failed to add attendee" |
| EventEditor.NoAttendeesAfterFetch | src/pages/EditEvent.jsx:203 | after a fetch "No attendees yet" shows iff no fetched booking is for the edited event |
| Base.ServerMessage | src/pages/EventList.jsx:65 | `error.response?.data?.error || fallback`: the server's message when there is a non-empty one, otherwise the fallback |
| Base.OrElse | src/pages/EventList.jsx:50 | `s || fallback`: `s` when it is a non-empty string, otherwise the fallback |

## Left out

- The booking and ticket ledger: seat counts, ticket ids, idempotent cancel, marking attendance. All of it runs on the server, which is not part of this model; the client only shows and re-fetches what the server returns.
- HTTP, and the `api` module it goes through, is not part of this model. Each call is an input outcome, and a response's shape beyond the fields the pages read is not modelled.
- `localStorage`, `window.confirm`, `alert`, `showError`, `navigator.clipboard` and `console` are I/O. The model reduces them to a field, a boolean parameter and returned values; the clipboard copy on the edit page is not modelled.
- Base64 and JSON decoding (`atob`, `decodeURIComponent`, `JSON.parse`) are library calls, so they are the `decode` parameter.
- Date parsing and formatting (`new Date`, `toLocaleDateString`) are left out; dates are integers, and `now` is a parameter. A caller gives `new Date(null)` as `Some(0)`.
- `ErrorContext`'s auto-clear is timer-driven and is not modelled. As written it does not cancel an earlier timer, so an old timer can clear a newer message.
- `register` in the auth provider is a bare API call and is not modelled, and neither is the registration page.
- The create-event, profile and home pages, the global error banner and the logo are presentation and form plumbing.
- React's rendering and effect timing are left out. So are stale closures in `setUsers(users.filter(...))`, `setUsers(users.map(...))`, `setBookings(bookings.filter(...))` and `setEvents(events.filter(...))`, which read the list of the render the handler was created in, and the one-render lag of the page reset after a filter change; the model applies the reset at once.
- The concurrent request pair in `fetchData` is modelled by its two outcomes, not by its interleaving.
- The `OtherRole` encoding cannot tell apart, say, a missing role from an unknown one. No rule of the client does either.
- `null` and `undefined` are both `None`. A rule that compares the two with `===` (an event with `organizerId: null` shown to a user with no id claim) is not told apart.
- Access.PrivateRoute: the loading branch is modelled as written. Inside the provider it cannot be reached, because the provider renders nothing until loading has ended (Session.RestoreRendersChildren).
- Session.LoginStep: a signed-in user who logs in again and gets an undecodable token stays signed in as the old user, with the new token stored. The model keeps this as written and exhibits it (Session.LoginWithUndecodableTokenKeepsStaleUser); the invariant lemma excludes that one path.
- Admin dashboard page controls are modelled only while they are shown (more than one page), which is when the buttons exist.
- Seat input parsing (`parseInt` on the seats field, which can give NaN) is form plumbing; the model's form holds an integer.
