/**
 * The navigation bar (components/Navbar.tsx): the signed-in user read
 * from storage, the role-based dashboard link, and logout.
 */
module Navbar {
  import opened Optional
  import opened Login

  /** `dashboardLink()`. */
  function DashboardLink(user: Option<StoredUser>): (href: string)
    ensures user.None? ==> href == "/"
    ensures href != "/" <==> user.Some? && user.value.role in {"SUPER_ADMIN", "ORGANIZER"}
    ensures user.Some? && user.value.role == "SUPER_ADMIN" ==> href == "/dashboard/admin"
    ensures user.Some? && user.value.role == "ORGANIZER" ==> href == "/dashboard/organizer"
  {
    if user.None? then "/"
    else if user.value.role == "SUPER_ADMIN" then "/dashboard/admin"
    else if user.value.role == "ORGANIZER" then "/dashboard/organizer"
    else "/"
  }

  /** The Dashboard entry of the user menu. */
  predicate ShowsDashboardEntry(user: StoredUser) {
    user.role == "SUPER_ADMIN" || user.role == "ORGANIZER"
  }

  /** The menu entry is shown exactly for the users whose link leads to a dashboard. */
  lemma EntryIffDashboard(user: StoredUser)
    ensures ShowsDashboardEntry(user) <==> DashboardLink(Some(user)) != "/"
  {
  }

  /** The initial user: the record under "user" when there is one, otherwise nobody. */
  function InitialUser(storage: Storage): (user: Option<StoredUser>)
    ensures user.Some? <==> UserKey in storage
    ensures user.Some? ==> user.value == storage[UserKey]
  {
    if UserKey in storage then Some(storage[UserKey]) else None
  }

  /**
   * The login page stores an ORGANIZER, so after a successful login the
   * navigation bar, whatever else was stored, shows the Dashboard entry and
   * links it to the organizer dashboard.
   */
  lemma LoginLeadsToOrganizerDashboard(storage: Storage, email: string)
    ensures InitialUser(storage[UserKey := LoggedInUser(email)]).Some?
    ensures DashboardLink(InitialUser(storage[UserKey := LoggedInUser(email)])) == "/dashboard/organizer"
    ensures ShowsDashboardEntry(InitialUser(storage[UserKey := LoggedInUser(email)]).value)
  {
  }

  /** The bar's state, with the browser's storage passed in. */
  class NavigationBar {
    var user: Option<StoredUser>
    var open: bool
    var storage: Storage

    constructor (storage0: Storage)
      ensures user == InitialUser(storage0) && !open && storage == storage0
    {
      user := InitialUser(storage0);
      open := false;
      storage := storage0;
    }

    /** The avatar button: `setOpen((v) => !v)`. */
    method ToggleMenu()
      modifies this`open
      ensures open == !old(open)
    {
      open := !open;
    }

    /** A menu link: following it closes the menu. */
    method CloseMenu()
      modifies this`open
      ensures !open
    {
      open := false;
    }

    /** `logout()`: the stored record goes, nobody is signed in, the menu closes. */
    method Logout()
      modifies this
      ensures storage == old(storage) - {UserKey}
      ensures user == None && !open
      ensures InitialUser(storage) == None
    {
      storage := storage - {UserKey};
      user := None;
      open := false;
    }
  }
}
