/** The navigation bar: which menu entries a visitor sees, and the logout
    button (src/components/Navbar.jsx). */
module Navbar {
  import opened Base
  import opened Session
  import opened Access

  datatype MenuItem =
    | EventsLink | LoginLink | RegisterLink
    | CreateEventLink | MyEventsLink | VerifyTicketLink
    | AdminLink | ProfileLink | MyBookingsLink | LogoutButton

  /** Where a menu entry leads; the logout entry is a button, not a link.
      The "Events" link points at `/`. */
  function Target(item: MenuItem): Option<Path>
  {
    match item
    case EventsLink => Some(HomePath)
    case LoginLink => Some(LoginPath)
    case RegisterLink => Some(RegisterPath)
    case CreateEventLink => Some(CreateEventPath)
    case MyEventsLink => Some(MyEventsPath)
    case VerifyTicketLink => Some(VerifyTicketPath)
    case AdminLink => Some(AdminPath)
    case ProfileLink => Some(ProfilePath)
    case MyBookingsLink => Some(MyBookingsPath)
    case LogoutButton => None
  }

  /** Which entries a visitor sees, entry by entry: Events always; Login
      and Register only when signed out; the organizer's three links only
      for ORGANIZER; the admin link only for ADMIN; My Profile and Logout for
      everyone signed in; My Bookings for everyone signed in but ADMIN. */
  predicate Shown(user: Option<SessionUser>, item: MenuItem)
  {
    match item
    case EventsLink => true
    case LoginLink => user.None?
    case RegisterLink => user.None?
    case CreateEventLink => user.Some? && user.value.claims.role == ORGANIZER
    case MyEventsLink => user.Some? && user.value.claims.role == ORGANIZER
    case VerifyTicketLink => user.Some? && user.value.claims.role == ORGANIZER
    case AdminLink => user.Some? && user.value.claims.role == ADMIN
    case ProfileLink => user.Some?
    case MyBookingsLink => user.Some? && user.value.claims.role != ADMIN
    case LogoutButton => user.Some?
  }

  /** The dropdown entries between the user button and Logout. */
  function Dropdown(u: SessionUser): (items: seq<MenuItem>)
    ensures forall x :: x in items <==> Shown(Some(u), x) && x != EventsLink && x != LogoutButton
  {
    var role := u.claims.role;
    var organizer := if role == ORGANIZER then [CreateEventLink, MyEventsLink, VerifyTicketLink] else [];
    var admin := if role == ADMIN then [AdminLink] else [];
    var bookings := if role != ADMIN then [MyBookingsLink] else [];
    assert forall x :: x in organizer + admin + [ProfileLink] + bookings <==>
                       x in organizer || x in admin || x == ProfileLink || x in bookings;
    organizer + admin + [ProfileLink] + bookings
  }

  /** The menu entries, in the order they are rendered: an entry is there
      exactly when it is shown, and Events comes first. */
  function Menu(user: Option<SessionUser>): (items: seq<MenuItem>)
    ensures forall x :: x in items <==> Shown(user, x)
    ensures |items| > 0 && items[0] == EventsLink
    ensures user.None? ==> items == [EventsLink, LoginLink, RegisterLink]
  {
    match user
    case None => [EventsLink, LoginLink, RegisterLink]
    case Some(u) =>
      var middle := Dropdown(u);
      assert forall x :: x in [EventsLink] + middle + [LogoutButton] <==>
                         x == EventsLink || x in middle || x == LogoutButton;
      [EventsLink] + middle + [LogoutButton]
  }

  /** Every link the menu offers a signed-in user leads to a route that lets
      that user in. */
  lemma MenuLinksAreAdmitted(u: SessionUser, item: MenuItem)
    requires item in Menu(Some(u)) && Target(item).Some?
    ensures Admission(Target(item).value, false, Some(u)) == Some(Render)
  {
    PublicRoutes(false, Some(u));
    SignedInRoutes(u);
    AdminRoute(u);
    EventAuthoringRoutes(u);
    MyEventsRoute(u);
    VerifyTicketRoute(u);
  }

  /** Every link offered to an anonymous visitor leads to a public route. */
  lemma AnonymousMenuIsPublic(item: MenuItem)
    requires item in Menu(None)
    ensures Target(item).Some? && Admission(Target(item).value, false, None) == Some(Render)
  {
    PublicRoutes(false, None);
  }

  /** An admin may open `/create-event`, but the menu does not offer it. */
  lemma AdminMenuOmitsCreateEvent(u: SessionUser)
    requires u.claims.role == ADMIN
    ensures CreateEventLink !in Menu(Some(u))
    ensures Admission(CreateEventPath, false, Some(u)) == Some(Render)
  {
    EventAuthoringRoutes(u);
  }

  /** `handleLogout`: log out, then go to `/login`. */
  method HandleLogout(auth: AuthProvider) returns (to: Path)
    modifies auth
    ensures auth.State() == LogoutStep(old(auth.State()))
    ensures auth.user.None? && auth.storedToken.None?
    ensures to == LoginPath
  {
    auth.Logout();
    to := LoginPath;
  }
}
