/** The admin dashboard: user management with a role filter, and paginated
    views of the users and of all bookings (src/pages/AdminDashboard.jsx). */
module Admin {
  import opened Base

  /** A user record as the users endpoint returns it. */
  datatype User = User(id: string, name: string, email: string, role: Role)

  /** The role selector: `ALL`, or one of the roles offered. */
  datatype RoleFilter = All | Only(role: Role)

  /** `filteredUsers` */
  function FilterByRole(users: seq<User>, f: RoleFilter): (r: seq<User>)
    ensures f.All? ==> r == users
    ensures f.Only? ==> forall u :: u in r <==> u in users && u.role == f.role
  {
    match f
    case All => users
    case Only(role) =>
      FilterMembership(users, (u: User) => u.role == role);
      Filter(users, (u: User) => u.role == role)
  }

  /** The filter keeps the users' order and multiplicity: it distributes
      over concatenation, and a single user is kept exactly when it matches. */
  lemma FilterByRoleKeepsOrder(a: seq<User>, b: seq<User>, u: User, f: RoleFilter)
    ensures FilterByRole(a + b, f) == FilterByRole(a, f) + FilterByRole(b, f)
    ensures FilterByRole([u], f) == if f.All? || u.role == f.role then [u] else []
  {
    if f.Only? {
      FilterAppend(a, b, (x: User) => x.role == f.role);
      assert [u][1..] == [];
    }
  }

  const ItemsPerPage := 50

  /** `Math.ceil(n / ITEMS_PER_PAGE)` */
  function TotalPages(n: nat): (pages: nat)
    ensures pages * ItemsPerPage >= n
    ensures pages == 0 || (pages - 1) * ItemsPerPage < n
    ensures pages == 0 <==> n == 0
  {
    (n + ItemsPerPage - 1) / ItemsPerPage
  }

  /** The index an argument of `Array.prototype.slice` stands for: negative
      values count from the end, and every value is clamped to the length. */
  function SliceIndex(i: int, n: nat): (k: nat)
    ensures k <= n
    ensures 0 <= i <= n ==> k == i
  {
    if i < 0 then (if n + i < 0 then 0 else n + i)
    else if i > n then n
    else i
  }

  /** `s.slice(start, end)` */
  function Slice<T>(s: seq<T>, start: int, end: int): (r: seq<T>)
    ensures |r| == Max(0, SliceIndex(end, |s|) - SliceIndex(start, |s|))
    ensures forall i :: 0 <= i < |r| ==> r[i] == s[SliceIndex(start, |s|) + i]
    ensures 0 <= start <= end <= |s| ==> r == s[start..end]
  {
    var a, b := SliceIndex(start, |s|), SliceIndex(end, |s|);
    if a < b then s[a..b] else []
  }

  function Min(a: int, b: int): int { if a <= b then a else b }

  function Max(a: int, b: int): int { if a >= b then a else b }

  /** The items shown on page `p`. It holds at most a page's worth, it is
      the run of items the page covers, and past the last page it is empty. */
  function Page<T>(s: seq<T>, p: int): (r: seq<T>)
    ensures p >= 1 ==> |r| <= ItemsPerPage
    ensures forall i :: 0 <= i < |r| ==> r[i] in s
    ensures p >= 1 && p > TotalPages(|s|) ==> r == []
    ensures 1 <= p <= TotalPages(|s|) ==>
              r == s[(p - 1) * ItemsPerPage .. Min(p * ItemsPerPage, |s|)]
  {
    Slice(s, (p - 1) * ItemsPerPage, p * ItemsPerPage)
  }

  /** Pages 1 to k, concatenated in order. */
  function PagesUpTo<T>(s: seq<T>, k: nat): seq<T>
  {
    if k == 0 then [] else PagesUpTo(s, k - 1) + Page(s, k)
  }

  /** The first k pages together are the first k pages' worth of items. */
  lemma {:induction false} PagesUpToIsPrefix<T>(s: seq<T>, k: nat)
    ensures PagesUpTo(s, k) == s[..Min(k * ItemsPerPage, |s|)]
  {
    if k > 0 {
      PagesUpToIsPrefix(s, k - 1);
      var lo := Min((k - 1) * ItemsPerPage, |s|);
      if k <= TotalPages(|s|) {
        assert lo == (k - 1) * ItemsPerPage;
        assert s[..lo] + s[lo..Min(k * ItemsPerPage, |s|)] == s[..Min(k * ItemsPerPage, |s|)];
      } else {
        assert lo == |s|;
      }
    }
  }

  /** Read in order, the pages give back the whole list: every item is on
      exactly one page. */
  lemma PagesCoverList<T>(s: seq<T>)
    ensures PagesUpTo(s, TotalPages(|s|)) == s
  {
    PagesUpToIsPrefix(s, TotalPages(|s|));
    assert s[..|s|] == s;
  }

  /** Item i is on page i / 50 + 1, at position i % 50. */
  lemma ItemPage<T>(s: seq<T>, i: nat)
    requires i < |s|
    ensures var p := i / ItemsPerPage + 1;
            p <= TotalPages(|s|) && i % ItemsPerPage < |Page(s, p)| && Page(s, p)[i % ItemsPerPage] == s[i]
  {
  }

  /** The Previous button: `Math.max(1, p - 1)`. */
  function PrevPage(p: int): (q: int)
    ensures q >= 1
    ensures p > 1 ==> q == p - 1
    ensures p <= 1 ==> q == 1
  {
    Max(1, p - 1)
  }

  /** The Next button: `Math.min(totalPages, p + 1)`. */
  function NextPage(p: int, total: nat): (q: int)
    ensures q <= total
    ensures p < total ==> q == p + 1
    ensures p >= total ==> q == total
  {
    Min(total, p + 1)
  }

  /** The Previous/Next controls are shown only with more than one page. */
  predicate ShowsPageControls(total: nat)
  {
    total > 1
  }

  /** The controls appear exactly when the list does not fit on one page. */
  lemma PageControlsPastOnePage(n: nat)
    ensures ShowsPageControls(TotalPages(n)) <==> n > ItemsPerPage
  {
  }

  /** Paging within the range stays within the range. */
  lemma PagingStaysInRange(p: int, total: nat)
    requires 1 <= p <= total
    ensures 1 <= PrevPage(p) <= total
    ensures 1 <= NextPage(p, total) <= total
  {
  }

  /** `users.filter((u: User) => u._id !== id)` */
  function RemoveUser(users: seq<User>, id: string): (r: seq<User>)
    ensures forall u :: u in r <==> u in users && u.id != id
  {
    FilterMembership(users, (u: User) => u.id != id);
    Filter(users, (u: User) => u.id != id)
  }

  /** A delete loses exactly the entries with that id and keeps the order of
      the rest. */
  lemma RemoveUserSpec(users: seq<User>, id: string, rest: seq<User>)
    ensures forall u :: u in RemoveUser(users, id) <==> u in users && u.id != id
    ensures RemoveUser(users + rest, id) == RemoveUser(users, id) + RemoveUser(rest, id)
    ensures |RemoveUser(users, id)| + |Filter(users, (u: User) => u.id == id)| == |users|
  {
    FilterMembership(users, (u: User) => u.id != id);
    FilterAppend(users, rest, (u: User) => u.id != id);
    FilterComplementLength(users, (u: User) => u.id != id, (u: User) => u.id == id);
  }

  /** `users.map(u => u._id === id ? updated : u)` */
  function ReplaceUser(users: seq<User>, id: string, updated: User): (r: seq<User>)
    ensures |r| == |users|
    ensures forall i :: 0 <= i < |users| ==> r[i] == if users[i].id == id then updated else users[i]
  {
    if users == [] then []
    else [if users[0].id == id then updated else users[0]] + ReplaceUser(users[1..], id, updated)
  }

  /** Replacing by id leaves every other user where it was, and the entries
      it replaced are gone once removed by that id. */
  lemma ReplaceUserSpec(users: seq<User>, id: string, updated: User)
    requires updated.id == id
    ensures RemoveUser(ReplaceUser(users, id, updated), id) == RemoveUser(users, id)
    ensures ReplaceUser(ReplaceUser(users, id, updated), id, updated) == ReplaceUser(users, id, updated)
  {
    RemoveAfterReplace(users, id, updated);
  }

  lemma {:induction false} RemoveAfterReplace(users: seq<User>, id: string, updated: User)
    requires updated.id == id
    ensures RemoveUser(ReplaceUser(users, id, updated), id) == RemoveUser(users, id)
  {
    if users != [] {
      RemoveAfterReplace(users[1..], id, updated);
      var r := ReplaceUser(users, id, updated);
      assert r[1..] == ReplaceUser(users[1..], id, updated);
    }
  }

  /** The Remove action is never offered for an ADMIN. */
  predicate OffersRemove(u: User)
  {
    u.role != ADMIN
  }

  /** A Remove button on a shown row is for a user of the list who is not
      an ADMIN; with the filter set to ADMIN no row offers one. */
  lemma RemoveOfferedOnlyForNonAdmins(users: seq<User>, f: RoleFilter, p: int, u: User)
    requires u in Page(FilterByRole(users, f), p) && OffersRemove(u)
    ensures u in users && u.role != ADMIN
    ensures f.Only? ==> f.role != ADMIN
  {
  }

  /** `booking.status || 'BOOKED'` */
  function StatusLabel(b: Booking): (text: string)
    ensures text != ""
    ensures !Truthy(b.status) ==> text == "BOOKED"
    ensures Truthy(b.status) ==> text == b.status.value
  {
    OrElse(b.status, "BOOKED")
  }

  const FetchFailed := "Failed to fetch dashboard data"
  const DeleteFailed := "Failed to delete user"
  const UpdatedMessage := "User updated successfully"
  const UpdateFailed := "Failed to update user"

  /** The body of a user update: the id in the path, then name and role. */
  datatype UserUpdate = UserUpdate(id: string, name: string, role: Role)

  /** The dashboard's state. The page numbers start at 1 and stay at least 1. */
  class AdminDashboard {
    var users: seq<User>
    var bookings: seq<Booking>
    var loading: bool
    var filterRole: RoleFilter
    var editingUser: Option<User>
    var currentPage: int
    var bookingPage: int

    ghost predicate Valid()
      reads this
    {
      currentPage >= 1 && bookingPage >= 1
    }

    constructor ()
      ensures Valid()
      ensures users == [] && bookings == [] && loading && filterRole == All
      ensures editingUser.None? && currentPage == 1 && bookingPage == 1
    {
      users, bookings, loading := [], [], true;
      filterRole, editingUser := All, None;
      currentPage, bookingPage := 1, 1;
    }

    /** The users the role filter lets through, in their order. */
    function FilteredUsers(): (r: seq<User>)
      reads this
      ensures filterRole.All? ==> r == users
      ensures filterRole.Only? ==> forall u :: u in r <==> u in users && u.role == filterRole.role
    {
      FilterByRole(users, filterRole)
    }

    /** The least number of 50-user pages that holds the filtered users. */
    function TotalUserPages(): (n: nat)
      reads this
      ensures n * ItemsPerPage >= |FilteredUsers()|
      ensures n == 0 || (n - 1) * ItemsPerPage < |FilteredUsers()|
    {
      TotalPages(|FilteredUsers()|)
    }

    /** The least number of 50-booking pages that holds all bookings. */
    function TotalBookingPages(): (n: nat)
      reads this
      ensures n * ItemsPerPage >= |bookings|
      ensures n == 0 || (n - 1) * ItemsPerPage < |bookings|
    {
      TotalPages(|bookings|)
    }

    /** The users shown: at most a page of filtered users. */
    function PaginatedUsers(): (r: seq<User>)
      reads this
      ensures currentPage >= 1 ==> |r| <= ItemsPerPage
      ensures forall i :: 0 <= i < |r| ==> r[i] in users && (filterRole.Only? ==> r[i].role == filterRole.role)
    {
      Page(FilteredUsers(), currentPage)
    }

    /** The bookings shown: at most a page of them. */
    function PaginatedBookings(): (r: seq<Booking>)
      reads this
      ensures bookingPage >= 1 ==> |r| <= ItemsPerPage
      ensures forall i :: 0 <= i < |r| ==> r[i] in bookings
    {
      Page(bookings, bookingPage)
    }

    /** `fetchData`: both lists are set only when both requests succeed;
        otherwise a fixed message is reported. */
    method FetchData(usersRes: Http<seq<User>>, bookingsRes: Http<seq<Booking>>) returns (error: Option<string>)
      requires Valid()
      modifies this
      ensures Valid()
      ensures usersRes.Ok? && bookingsRes.Ok? ==>
                users == usersRes.data && bookings == bookingsRes.data && error.None?
      ensures !(usersRes.Ok? && bookingsRes.Ok?) ==>
                users == old(users) && bookings == old(bookings) && error == Some(FetchFailed)
      ensures !loading
      ensures filterRole == old(filterRole) && editingUser == old(editingUser)
      ensures currentPage == old(currentPage) && bookingPage == old(bookingPage)
    {
      if usersRes.Ok? && bookingsRes.Ok? {
        users := usersRes.data;
        bookings := bookingsRes.data;
        error := None;
      } else {
        error := Some(FetchFailed);
      }
      loading := false;
    }

    /** `handleDeleteUser(id)`: asks for confirmation, then deletes; a
        failure reports a fixed message. */
    method DeleteUser(id: string, confirmed: bool, res: Http<()>) returns (error: Option<string>)
      requires Valid()
      modifies this
      ensures Valid()
      ensures users == if confirmed && res.Ok? then RemoveUser(old(users), id) else old(users)
      ensures error == if confirmed && res.Failed? then Some(DeleteFailed) else None
      ensures bookings == old(bookings) && filterRole == old(filterRole) && loading == old(loading)
      ensures editingUser == old(editingUser)
      ensures currentPage == old(currentPage) && bookingPage == old(bookingPage)
    {
      error := None;
      if confirmed && res.Ok? {
        users := RemoveUser(users, id);
      } else if confirmed {
        error := Some(DeleteFailed);
      }
    }

    /** The Edit button opens the edit form on a user. */
    method StartEditing(u: User)
      requires Valid()
      modifies this
      ensures Valid()
      ensures editingUser == Some(u)
      ensures users == old(users) && bookings == old(bookings) && filterRole == old(filterRole)
      ensures loading == old(loading) && currentPage == old(currentPage) && bookingPage == old(bookingPage)
    {
      editingUser := Some(u);
    }

    /** The edit form's close and Cancel buttons: `setEditingUser(null)`. */
    method CancelEditing()
      requires Valid()
      modifies this
      ensures Valid()
      ensures editingUser.None?
      ensures users == old(users) && bookings == old(bookings) && filterRole == old(filterRole)
      ensures loading == old(loading) && currentPage == old(currentPage) && bookingPage == old(bookingPage)
    {
      editingUser := None;
    }

    /** The name input: `setEditingUser({...editingUser, name})`. The form
        is rendered only while a user is being edited. */
    method EditName(name: string)
      requires Valid() && editingUser.Some?
      modifies this
      ensures Valid()
      ensures editingUser == Some(old(editingUser).value.(name := name))
      ensures users == old(users) && bookings == old(bookings) && filterRole == old(filterRole)
      ensures loading == old(loading) && currentPage == old(currentPage) && bookingPage == old(bookingPage)
    {
      editingUser := Some(editingUser.value.(name := name));
    }

    /** The role select: `setEditingUser({...editingUser, role})`. */
    method EditRole(role: Role)
      requires Valid() && editingUser.Some?
      modifies this
      ensures Valid()
      ensures editingUser == Some(old(editingUser).value.(role := role))
      ensures users == old(users) && bookings == old(bookings) && filterRole == old(filterRole)
      ensures loading == old(loading) && currentPage == old(currentPage) && bookingPage == old(bookingPage)
    {
      editingUser := Some(editingUser.value.(role := role));
    }

    /** `handleUpdateUser`: sends the edited user's name and role. On
        success the returned user replaces the entries with the edited id and
        the form closes; on failure nothing changes and a fixed message is
        reported. With no user being edited, reading its id throws before
        any request, which ends the same way. */
    method UpdateUser(res: Http<User>) returns (request: Option<UserUpdate>, alert: Option<string>, error: Option<string>)
      requires Valid()
      modifies this
      ensures Valid()
      ensures old(editingUser).None? ==>
                request.None? && alert.None? && error == Some(UpdateFailed) && users == old(users) && editingUser.None?
      ensures old(editingUser).Some? ==>
                var e := old(editingUser).value;
                request == Some(UserUpdate(e.id, e.name, e.role))
      ensures old(editingUser).Some? && res.Ok? ==>
                users == ReplaceUser(old(users), old(editingUser).value.id, res.data) && editingUser.None?
                && alert == Some(UpdatedMessage) && error.None?
      ensures old(editingUser).Some? && res.Failed? ==>
                users == old(users) && editingUser == old(editingUser) && alert.None? && error == Some(UpdateFailed)
      ensures bookings == old(bookings) && filterRole == old(filterRole) && loading == old(loading)
      ensures currentPage == old(currentPage) && bookingPage == old(bookingPage)
    {
      if editingUser.None? {
        return None, None, Some(UpdateFailed);
      }
      var e := editingUser.value;
      request := Some(UserUpdate(e.id, e.name, e.role));
      if res.Ok? {
        users := ReplaceUser(users, e.id, res.data);
        editingUser := None;
        alert, error := Some(UpdatedMessage), None;
      } else {
        alert, error := None, Some(UpdateFailed);
      }
    }

    /** Selecting a role filter; the reset effect runs when the value changes
        and puts the user list back on page 1. */
    method SetFilterRole(f: RoleFilter)
      requires Valid()
      modifies this
      ensures Valid()
      ensures filterRole == f
      ensures currentPage == if f != old(filterRole) then 1 else old(currentPage)
      ensures users == old(users) && bookings == old(bookings) && loading == old(loading)
      ensures editingUser == old(editingUser) && bookingPage == old(bookingPage)
    {
      if f != filterRole {
        currentPage := 1;
      }
      filterRole := f;
    }

    /** Previous on the user list (the controls are shown). */
    method PrevUserPage()
      requires Valid() && ShowsPageControls(TotalUserPages())
      modifies this`currentPage
      ensures Valid()
      ensures currentPage == PrevPage(old(currentPage))
    {
      currentPage := PrevPage(currentPage);
    }

    /** Next on the user list (the controls are shown). */
    method NextUserPage()
      requires Valid() && ShowsPageControls(TotalUserPages())
      modifies this`currentPage
      ensures Valid()
      ensures currentPage == NextPage(old(currentPage), TotalUserPages())
    {
      currentPage := NextPage(currentPage, TotalUserPages());
    }

    /** Previous on the booking list (the controls are shown). */
    method PrevBookingPage()
      requires Valid() && ShowsPageControls(TotalBookingPages())
      modifies this`bookingPage
      ensures Valid()
      ensures bookingPage == PrevPage(old(bookingPage))
    {
      bookingPage := PrevPage(bookingPage);
    }

    /** Next on the booking list (the controls are shown). */
    method NextBookingPage()
      requires Valid() && ShowsPageControls(TotalBookingPages())
      modifies this`bookingPage
      ensures Valid()
      ensures bookingPage == NextPage(old(bookingPage), TotalBookingPages())
    {
      bookingPage := NextPage(bookingPage, TotalBookingPages());
    }
  }
}
