/** The route guard and the route table of the application shell
    (src/App.jsx). */
module Access {
  import opened Base
  import opened Session

  /** The path patterns the application declares or navigates to. */
  datatype Path =
    | HomePath          // "/"
    | EventsPath        // "/events"
    | LoginPath         // "/login"
    | RegisterPath      // "/register"
    | CreateEventPath   // "/create-event"
    | EditEventPath     // "/edit-event/:id"
    | AdminPath         // "/admin"
    | MyBookingsPath    // "/my-bookings"
    | MyEventsPath      // "/my-events"
    | VerifyTicketPath  // "/verify-ticket"
    | ProfilePath       // "/profile"

  /** What the guard renders: the loading placeholder, a redirect, or the
      protected page. */
  datatype Gate = Loading | Redirect(to: Path) | Render

  /** `PrivateRoute`: `roles` None is the omitted prop. An empty list is still
      a list, so it admits nobody. */
  function PrivateRoute(loading: bool, user: Option<SessionUser>, roles: Option<seq<Role>>): (g: Gate)
    ensures loading ==> g == Loading
    ensures !loading && user.None? ==> g == Redirect(LoginPath)
    ensures !loading && user.Some? ==>
              (g == Render <==> roles.None? || user.value.claims.role in roles.value)
    ensures !loading && user.Some? && g != Render ==> g == Redirect(HomePath)
  {
    if loading then Loading
    else if user.None? then Redirect(LoginPath)
    else if roles.Some? && user.value.claims.role !in roles.value then Redirect(HomePath)
    else Render
  }

  /** How a route is wrapped: not at all, or in a PrivateRoute with a role list
      (None when omitted). */
  datatype Guard = Public | Private(roles: Option<seq<Role>>)

  datatype RouteEntry = RouteEntry(path: Path, guard: Guard)

  /** The route table, in declaration order; `/my-bookings` is declared twice. */
  const RouteTable: seq<RouteEntry> := [
    RouteEntry(HomePath, Public),
    RouteEntry(EventsPath, Public),
    RouteEntry(LoginPath, Public),
    RouteEntry(RegisterPath, Public),
    RouteEntry(CreateEventPath, Private(Some([ORGANIZER, ADMIN]))),
    RouteEntry(EditEventPath, Private(Some([ORGANIZER, ADMIN]))),
    RouteEntry(AdminPath, Private(Some([ADMIN]))),
    RouteEntry(MyBookingsPath, Private(None)),
    RouteEntry(MyBookingsPath, Private(None)),
    RouteEntry(MyEventsPath, Private(Some([ORGANIZER]))),
    RouteEntry(VerifyTicketPath, Private(Some([ORGANIZER]))),
    RouteEntry(ProfilePath, Private(None))
  ]

  /** The guard of the first entry declared for a path pattern, searching
      from index i on. */
  function GuardFrom(table: seq<RouteEntry>, path: Path, i: nat): Option<Guard>
    decreases |table| - i
  {
    if i >= |table| then None
    else if table[i].path == path then Some(table[i].guard)
    else GuardFrom(table, path, i + 1)
  }

  /** The guard of the first entry declared for a path pattern. */
  function GuardIn(table: seq<RouteEntry>, path: Path): Option<Guard>
  {
    GuardFrom(table, path, 0)
  }

  /** Searching from i finds a declaration exactly when one is at i or
      later, and then the first of them. */
  lemma {:induction false} GuardFromFirstDeclaration(table: seq<RouteEntry>, path: Path, i: nat)
    decreases |table| - i
    ensures GuardFrom(table, path, i).None? <==> forall j :: i <= j < |table| ==> table[j].path != path
    ensures GuardFrom(table, path, i).Some? ==>
              exists j :: i <= j < |table| && table[j].path == path && table[j].guard == GuardFrom(table, path, i).value
                          && forall l :: i <= l < j ==> table[l].path != path
  {
    if i < |table| && table[i].path != path {
      GuardFromFirstDeclaration(table, path, i + 1);
    }
  }

  /** GuardIn finds a declaration exactly when there is one, and then the one
      declared first. */
  lemma GuardInFirstDeclaration(table: seq<RouteEntry>, path: Path)
    ensures GuardIn(table, path).None? <==> forall i :: 0 <= i < |table| ==> table[i].path != path
    ensures GuardIn(table, path).Some? ==>
              exists i :: 0 <= i < |table| && table[i].path == path && table[i].guard == GuardIn(table, path).value
                          && forall j :: 0 <= j < i ==> table[j].path != path
  {
    GuardFromFirstDeclaration(table, path, 0);
  }

  /** The declaration at index k decides when no entry from i up to k has
      its path. */
  lemma {:induction false} GuardFromAt(table: seq<RouteEntry>, path: Path, i: nat, k: nat)
    requires i <= k < |table| && table[k].path == path
    requires forall j :: i <= j < k ==> table[j].path != path
    decreases k - i
    ensures GuardFrom(table, path, i) == Some(table[k].guard)
  {
    if i < k {
      GuardFromAt(table, path, i + 1, k);
    }
  }

  lemma GuardInAt(table: seq<RouteEntry>, path: Path, k: nat)
    requires k < |table| && table[k].path == path
    requires forall j :: 0 <= j < k ==> table[j].path != path
    ensures GuardIn(table, path) == Some(table[k].guard)
  {
    GuardFromAt(table, path, 0, k);
  }

  /** The four routes declared without a PrivateRoute. */
  predicate IsPublicPath(path: Path)
  {
    path == HomePath || path == EventsPath || path == LoginPath || path == RegisterPath
  }

  /** The table declares every path pattern, and leaves unwrapped exactly
      the four public ones. */
  lemma RouteTableLayout(path: Path)
    ensures GuardIn(RouteTable, path).Some?
    ensures GuardIn(RouteTable, path) == Some(Public) <==> IsPublicPath(path)
  {
    match path
    case HomePath => GuardInAt(RouteTable, path, 0);
    case EventsPath => GuardInAt(RouteTable, path, 1);
    case LoginPath => GuardInAt(RouteTable, path, 2);
    case RegisterPath => GuardInAt(RouteTable, path, 3);
    case CreateEventPath => GuardInAt(RouteTable, path, 4);
    case EditEventPath => GuardInAt(RouteTable, path, 5);
    case AdminPath => GuardInAt(RouteTable, path, 6);
    case MyBookingsPath => GuardInAt(RouteTable, path, 7);
    case MyEventsPath => GuardInAt(RouteTable, path, 9);
    case VerifyTicketPath => GuardInAt(RouteTable, path, 10);
    case ProfilePath => GuardInAt(RouteTable, path, 11);
  }

  /** What a path pattern of the table shows a visitor; None for a path the
      table does not declare. Every pattern is declared; while the session
      is loading, or nobody is signed in, exactly the public pages render,
      and otherwise a guarded page shows the placeholder (loading) or sends
      the visitor to `/login` (nobody signed in). */
  function Admission(path: Path, loading: bool, user: Option<SessionUser>): (g: Option<Gate>)
    ensures g.Some?
    ensures loading || user.None? ==> (g == Some(Render) <==> IsPublicPath(path))
    ensures !IsPublicPath(path) && loading ==> g == Some(Loading)
    ensures !IsPublicPath(path) && !loading && user.None? ==> g == Some(Redirect(LoginPath))
  {
    RouteTableLayout(path);
    match GuardIn(RouteTable, path)
    case None => None
    case Some(Public) => Some(Render)
    case Some(Private(roles)) => Some(PrivateRoute(loading, user, roles))
  }

  /** Both declarations of `/my-bookings` carry the same guard, so whichever
      the router picks decides alike. */
  lemma MyBookingsDeclarationsAgree()
    ensures forall i :: 0 <= i < |RouteTable| && RouteTable[i].path == MyBookingsPath ==>
              RouteTable[i].guard == Private(None)
    ensures GuardIn(RouteTable, MyBookingsPath) == Some(Private(None))
  {
    GuardInAt(RouteTable, MyBookingsPath, 7);
  }

  /** Every guarded route redirects an anonymous visitor to `/login`. */
  lemma AnonymousVisitorsGoToLogin(path: Path)
    requires GuardIn(RouteTable, path).Some? && GuardIn(RouteTable, path).value.Private?
    ensures Admission(path, false, None) == Some(Redirect(LoginPath))
  {
  }

  /** `/admin` admits ADMIN only. */
  lemma AdminRoute(u: SessionUser)
    ensures GuardIn(RouteTable, AdminPath) == Some(Private(Some([ADMIN])))
    ensures Admission(AdminPath, false, Some(u)) == Some(Render) <==> u.claims.role == ADMIN
  {
    GuardInAt(RouteTable, AdminPath, 6);
  }

  /** `/create-event` and `/edit-event/:id` admit ORGANIZER and ADMIN. */
  lemma EventAuthoringRoutes(u: SessionUser)
    ensures GuardIn(RouteTable, CreateEventPath) == Some(Private(Some([ORGANIZER, ADMIN])))
    ensures GuardIn(RouteTable, EditEventPath) == Some(Private(Some([ORGANIZER, ADMIN])))
    ensures Admission(CreateEventPath, false, Some(u)) == Some(Render) <==> u.claims.role in {ORGANIZER, ADMIN}
    ensures Admission(EditEventPath, false, Some(u)) == Some(Render) <==> u.claims.role in {ORGANIZER, ADMIN}
  {
    GuardInAt(RouteTable, CreateEventPath, 4);
    GuardInAt(RouteTable, EditEventPath, 5);
  }

  /** `/my-events` admits ORGANIZER only (not ADMIN). */
  lemma MyEventsRoute(u: SessionUser)
    ensures GuardIn(RouteTable, MyEventsPath) == Some(Private(Some([ORGANIZER])))
    ensures Admission(MyEventsPath, false, Some(u)) == Some(Render) <==> u.claims.role == ORGANIZER
  {
    GuardInAt(RouteTable, MyEventsPath, 9);
  }

  /** `/verify-ticket` admits ORGANIZER only (not ADMIN). */
  lemma VerifyTicketRoute(u: SessionUser)
    ensures GuardIn(RouteTable, VerifyTicketPath) == Some(Private(Some([ORGANIZER])))
    ensures Admission(VerifyTicketPath, false, Some(u)) == Some(Render) <==> u.claims.role == ORGANIZER
  {
    GuardInAt(RouteTable, VerifyTicketPath, 10);
  }

  /** `/profile` and `/my-bookings` admit every signed-in user. */
  lemma SignedInRoutes(u: SessionUser)
    ensures Admission(ProfilePath, false, Some(u)) == Some(Render)
    ensures Admission(MyBookingsPath, false, Some(u)) == Some(Render)
  {
    GuardInAt(RouteTable, ProfilePath, 11);
    MyBookingsDeclarationsAgree();
  }

  /** The public routes render for anybody, signed in or not. */
  lemma PublicRoutes(loading: bool, user: Option<SessionUser>)
    ensures Admission(HomePath, loading, user) == Some(Render)
    ensures Admission(EventsPath, loading, user) == Some(Render)
    ensures Admission(LoginPath, loading, user) == Some(Render)
    ensures Admission(RegisterPath, loading, user) == Some(Render)
  {
    GuardInAt(RouteTable, HomePath, 0);
    GuardInAt(RouteTable, EventsPath, 1);
    GuardInAt(RouteTable, LoginPath, 2);
    GuardInAt(RouteTable, RegisterPath, 3);
  }
}
