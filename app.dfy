// The shell of the operations console: the navigation drawer, the login
// redirect, the notification snackbar and logout
// (enterprise-ai-strategy/operational-layer/web-ui/src/App.tsx).

module App {
  import opened Common
  import opened AuthService

  datatype NavItem = NavItem(text: string, path: string, adminOnly: bool)

  /** The drawer's entries, in order. */
  const NavigationItems: seq<NavItem> := [
    NavItem("Dashboard", "/", false),
    NavItem("AI Agents", "/agents", false),
    NavItem("Jobs", "/jobs", false),
    NavItem("Approvals", "/approvals", false),
    NavItem("Users", "/users", true),
    NavItem("Settings", "/settings", false)
  ]

  /** An administrator or a manager sees the admin-only entries. */
  predicate SeesAdminItems(user: Option<User>)
  {
    user.Some? && (user.value.role == "admin" || user.value.role == "manager")
  }

  function VisibleTo(user: Option<User>): NavItem -> bool
  {
    (item: NavItem) => !item.adminOnly || SeesAdminItems(user)
  }

  /** `filteredNavigationItems`. */
  function FilteredNavigation(items: seq<NavItem>, user: Option<User>): (r: seq<NavItem>)
    ensures forall i :: 0 <= i < |items| && !items[i].adminOnly ==> items[i] in r
    ensures forall i :: 0 <= i < |r| ==> r[i] in items && (r[i].adminOnly ==> SeesAdminItems(user))
  {
    Filter(items, VisibleTo(user))
  }

  function NotAdminOnly(): NavItem -> bool
  {
    (item: NavItem) => !item.adminOnly
  }

  /** Administrators and managers see every entry, in order; anyone else
      sees exactly the entries that are not admin-only. */
  lemma NavigationByRole(items: seq<NavItem>, user: Option<User>)
    ensures SeesAdminItems(user) ==> FilteredNavigation(items, user) == items
    ensures !SeesAdminItems(user) ==> FilteredNavigation(items, user) == Filter(items, NotAdminOnly())
  {
    if SeesAdminItems(user) {
      FilterAll(items, VisibleTo(user));
    } else {
      FilterCongruent(items, VisibleTo(user), NotAdminOnly());
    }
  }

  /** With one admin-only entry, filtering drops exactly that entry. */
  lemma {:induction false} DropsAdminEntry(items: seq<NavItem>, k: nat)
    requires k < |items| && items[k].adminOnly
    requires forall i :: 0 <= i < |items| && i != k ==> !items[i].adminOnly
    ensures Filter(items, NotAdminOnly()) == items[..k] + items[k + 1..]
  {
    var p := NotAdminOnly();
    var front, x, back := items[..k], items[k], items[k + 1..];
    assert items == front + ([x] + back);
    assert Filter([x], p) == [] by {
      assert !p(x);
      assert [x][1..] == [];
    }
    FilterConcat([x], back, p);
    FilterConcat(front, [x] + back, p);
    assert forall i :: 0 <= i < |front| ==> front[i] == items[i];
    assert forall i :: 0 <= i < |back| ==> back[i] == items[k + 1 + i];
    FilterAll(front, p);
    FilterAll(back, p);
    calc {
      Filter(items, p);
      Filter(front, p) + Filter([x] + back, p);
      front + (Filter([x], p) + Filter(back, p));
      front + ([] + back);
      { assert [] + back == back; }
      front + back;
    }
  }

  lemma UsersIsAdminOnly()
    ensures |NavigationItems| == 6 && NavigationItems[4].adminOnly
    ensures forall i :: 0 <= i < |NavigationItems| && i != 4 ==> !NavigationItems[i].adminOnly
  {
  }

  lemma ConsoleEntriesWithoutUsers()
    ensures Filter(NavigationItems, NotAdminOnly()) == NavigationItems[..4] + NavigationItems[5..]
  {
    UsersIsAdminOnly();
    DropsAdminEntry(NavigationItems, 4);
  }

  /** The drawer of the console's own entries: all six for an administrator
      or manager; for everyone else all but Users, in order. */
  lemma ConsoleNavigation(user: Option<User>)
    ensures SeesAdminItems(user) ==> FilteredNavigation(NavigationItems, user) == NavigationItems
    ensures !SeesAdminItems(user) ==>
      FilteredNavigation(NavigationItems, user) == NavigationItems[..4] + NavigationItems[5..]
  {
    NavigationByRole(NavigationItems, user);
    ConsoleEntriesWithoutUsers();
  }

  // ---------------------------------------------------------------------
  // Login redirect

  datatype Screen = LoginScreen | Layout

  /** What the shell renders: the login page for a visitor without a user
      on any path but /login, the layout otherwise. */
  function Render(user: Option<User>, path: string): (r: Screen)
    ensures r == LoginScreen <==> user.None? && path != "/login"
  {
    if user.None? && path != "/login" then LoginScreen else Layout
  }

  /** The effect run on every location change: where it navigates. */
  function Redirect(user: Option<User>, path: string): (r: Option<string>)
    ensures r.Some? <==> user.None? && path != "/login"
    ensures r.Some? ==> r.value == "/login"
  {
    if user.None? && path != "/login" then Some("/login") else None
  }

  /** The redirect fires exactly when the login page is rendered. */
  lemma RedirectMatchesRender(user: Option<User>, path: string)
    ensures Redirect(user, path).Some? <==> Render(user, path) == LoginScreen
  {
  }

  /** After the redirect the visitor is on /login, where the layout holds
      the login route; no further redirect follows. */
  lemma RedirectSettles(user: Option<User>, path: string)
    requires Redirect(user, path).Some?
    ensures Redirect(user, Redirect(user, path).value).None?
  {
  }

  // ---------------------------------------------------------------------
  // Notifications

  datatype Snackbar = Snackbar(open: bool, message: string, severity: Severity)

  const InitialSnackbar := Snackbar(false, "", Info)

  /** `showNotification(message, severity)`. */
  function ShowNotification(s: Snackbar, n: Notice): (r: Snackbar)
    ensures r.open && r.message == n.message && r.severity == n.severity
  {
    Snackbar(true, n.message, n.severity)
  }

  /** `showNotification(message)` without a severity shows it as info. */
  function ShowMessage(s: Snackbar, message: string): (r: Snackbar)
    ensures r == ShowNotification(s, Notice(message, Info))
  {
    Snackbar(true, message, Info)
  }

  /** `handleCloseNotification`: only the open flag is cleared. */
  function CloseNotification(s: Snackbar): (r: Snackbar)
    ensures !r.open && r.message == s.message && r.severity == s.severity
  {
    s.(open := false)
  }

  /** A new notification replaces what an earlier one showed, and closing
      leaves its text in place. */
  lemma NotificationsReplace(s: Snackbar, first: Notice, second: Notice)
    ensures ShowNotification(ShowNotification(s, first), second) == ShowNotification(s, second)
    ensures CloseNotification(ShowNotification(s, second)) == Snackbar(false, second.message, second.severity)
  {
  }

  // ---------------------------------------------------------------------
  // Logout

  /** `handleLogout`: the stored session is cleared, the shell's user
      becomes null and it navigates to /login. */
  method HandleLogout(session: Session) returns (user: Option<User>, navigateTo: string)
    modifies session
    ensures session.storage == old(session.storage) - {TokenKey, UserKey}
    ensures user.None? && navigateTo == "/login"
    ensures !session.IsAuthenticated() && session.CurrentUser().None?
    ensures Render(user, navigateTo) == Layout && Redirect(session.CurrentUser(), "/jobs") == Some("/login")
  {
    session.Logout();
    user := None;
    navigateTo := "/login";
  }
}
