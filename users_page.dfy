// The user-management page of the operations console: the role
// permission table, the user form and its dialog, the list filters, the
// counts behind the tabs and the save button's gate
// (enterprise-ai-strategy/operational-layer/web-ui/src/components/UsersPage.tsx).

module UsersPage {
  import opened Common

  datatype Role = Admin | Manager | Developer | Executive

  function RoleName(r: Role): string
  {
    match r
    case Admin => "admin"
    case Manager => "manager"
    case Developer => "developer"
    case Executive => "executive"
  }

  /** `rolePermissions[value] || []`: the permissions a role name grants. */
  function RolePermissions(role: string): (r: seq<string>)
    ensures role !in {"admin", "manager", "developer", "executive"} ==> r == []
    ensures role in {"admin", "manager", "developer", "executive"} ==> |r| >= 3
  {
    match role
    case "admin" => ["manage_users", "manage_agents", "approve_content", "view_analytics", "system_settings"]
    case "manager" => ["approve_content", "view_analytics", "manage_team", "view_reports"]
    case "developer" => ["execute_agents", "view_jobs", "submit_content"]
    case "executive" => ["view_analytics", "view_reports", "strategic_overview"]
    case _ => []
  }

  /** Only administrators may manage users or change system settings. */
  lemma OnlyAdminsManageUsers(role: string)
    ensures "manage_users" in RolePermissions(role) <==> role == "admin"
    ensures "system_settings" in RolePermissions(role) <==> role == "admin"
  {
  }

  datatype User = User(
    id: string, email: string, name: string, role: Role, department: string,
    isActive: bool, permissions: seq<string>)

  /** The form's six fields; the role is the text the role select sends. */
  datatype UserForm = UserForm(
    email: string, name: string, role: string, department: string,
    isActive: bool, permissions: seq<string>)

  /** The form the page starts with and returns to on closing. */
  const EmptyForm := UserForm("", "", "developer", "", true, [])

  // ---------------------------------------------------------------------
  // The form

  /** One `handleFormChange(field, value)` call. */
  datatype FormChange =
    | SetEmail(email: string)
    | SetName(name: string)
    | SetRole(role: string)
    | SetDepartment(department: string)
    | SetActive(isActive: bool)
    | SetPermissions(permissions: seq<string>)

  /** `handleFormChange`: the named field takes the value; a new role also
      brings that role's permissions. */
  function FormChanged(prev: UserForm, change: FormChange): (r: UserForm)
    ensures change.SetEmail? ==> r == prev.(email := change.email)
    ensures change.SetName? ==> r == prev.(name := change.name)
    ensures change.SetRole? ==> r == prev.(role := change.role, permissions := RolePermissions(change.role))
    ensures change.SetDepartment? ==> r == prev.(department := change.department)
    ensures change.SetActive? ==> r == prev.(isActive := change.isActive)
    ensures change.SetPermissions? ==> r == prev.(permissions := change.permissions)
  {
    var updated := match change
      case SetEmail(v) => prev.(email := v)
      case SetName(v) => prev.(name := v)
      case SetRole(v) => prev.(role := v)
      case SetDepartment(v) => prev.(department := v)
      case SetActive(v) => prev.(isActive := v)
      case SetPermissions(v) => prev.(permissions := v);
    if change.SetRole? then updated.(permissions := RolePermissions(change.role)) else updated
  }

  /** The form's permissions are those of its role. */
  predicate PermissionsFollowRole(f: UserForm)
  {
    f.permissions == RolePermissions(f.role)
  }

  /** Edits through the form's own inputs (every field but the permission
      list, which has no input) keep the permissions in step with the role. */
  lemma FormChangeKeepsPermissions(prev: UserForm, change: FormChange)
    requires PermissionsFollowRole(prev) || change.SetRole?
    requires !change.SetPermissions?
    ensures PermissionsFollowRole(FormChanged(prev, change))
  {
  }

  /** The user dialog and its form. */
  datatype Dialog = Dialog(open: bool, deleteOpen: bool, selected: Option<User>, form: UserForm, editMode: bool)

  const InitialDialog := Dialog(false, false, None, EmptyForm, false)

  /** `handleCreateUser`. */
  function CreateUser(d: Dialog): (r: Dialog)
    ensures r.open && r.selected.None? && !r.editMode
    ensures r.form.role == "developer" && PermissionsFollowRole(r.form)
    ensures r.form.email == "" && r.form.name == "" && r.form.department == "" && r.form.isActive
  {
    d.(open := true, selected := None, form := UserForm("", "", "developer", "", true, RolePermissions("developer")), editMode := false)
  }

  /** The form filled from a user. */
  function FormOf(u: User): UserForm
  {
    UserForm(u.email, u.name, RoleName(u.role), u.department, u.isActive, u.permissions)
  }

  /** `handleEditUser`. */
  function EditUser(d: Dialog, u: User): (r: Dialog)
    ensures r.open && r.selected == Some(u) && r.editMode
    ensures r.form.email == u.email && r.form.name == u.name && r.form.role == RoleName(u.role)
    ensures r.form.department == u.department && r.form.isActive == u.isActive && r.form.permissions == u.permissions
  {
    d.(open := true, selected := Some(u), form := FormOf(u), editMode := true)
  }

  /** `handleCloseUserDialog`: closed, nothing selected, and the empty form,
      whose permission list is empty even though its role is developer. */
  function CloseUserDialog(d: Dialog): (r: Dialog)
    ensures !r.open && r.selected.None? && r.form == EmptyForm
    ensures r.editMode == d.editMode
  {
    d.(open := false, selected := None, form := EmptyForm)
  }

  /** The closed form does not carry the developer permissions that a new
      form starts with. */
  lemma ClosedFormHasNoPermissions(d: Dialog)
    ensures !PermissionsFollowRole(CloseUserDialog(d).form)
    ensures PermissionsFollowRole(CreateUser(d).form)
  {
  }

  /** The save button is enabled. */
  predicate CanSave(f: UserForm)
  {
    f.email != "" && f.name != "" && f.department != ""
  }

  /** A new form cannot be saved until email, name and department are typed
      in; a form opened on a user with all three can be saved at once. */
  lemma SaveGate(d: Dialog, u: User)
    ensures !CanSave(CreateUser(d).form)
    ensures CanSave(EditUser(d, u).form) <==> u.email != "" && u.name != "" && u.department != ""
  {
  }

  datatype SaveKind = UpdateUser(id: string) | CreateNew

  /** `handleSaveUser`: which call it would make (the page leaves both
      calls as comments and only notifies); the dialog then closes. */
  function SaveUser(d: Dialog): (r: (SaveKind, Dialog))
    ensures r.0.UpdateUser? <==> d.editMode && d.selected.Some?
    ensures r.0.UpdateUser? ==> r.0.id == d.selected.value.id
    ensures r.1 == CloseUserDialog(d)
  {
    (if d.editMode && d.selected.Some? then UpdateUser(d.selected.value.id) else CreateNew, CloseUserDialog(d))
  }

  /** The notification a save shows: an update or a creation. */
  function SaveNotice(k: SaveKind): (r: string)
    ensures r == "User updated successfully" <==> k.UpdateUser?
    ensures r == "User created successfully" <==> k.CreateNew?
  {
    match k
      case UpdateUser(_) => "User updated successfully"
      case CreateNew => "User created successfully"
  }

  /** `handleDeleteUser`: the user is selected and the confirmation opens. */
  function DeleteUser(d: Dialog, u: User): (r: Dialog)
    ensures r.deleteOpen && r.selected == Some(u)
    ensures r.open == d.open && r.form == d.form && r.editMode == d.editMode
  {
    d.(deleteOpen := true, selected := Some(u))
  }

  /** `handleConfirmDelete`: with no selection nothing happens; otherwise
      it yields the selected user's id, the one it would delete (the page
      leaves the call as a comment), and the confirmation closes. */
  function ConfirmDelete(d: Dialog): (r: (Option<string>, Dialog))
    ensures d.selected.None? ==> r == (None, d)
    ensures d.selected.Some? ==> r.0 == Some(d.selected.value.id) && !r.1.deleteOpen && r.1.selected.None?
    ensures r.1.form == d.form && r.1.open == d.open
  {
    if d.selected.None? then (None, d)
    else (Some(d.selected.value.id), d.(deleteOpen := false, selected := None))
  }

  /** Confirming a deletion names the user that was asked about. */
  lemma DeleteConfirmsAskedUser(d: Dialog, u: User)
    ensures ConfirmDelete(DeleteUser(d, u)).0 == Some(u.id)
  {
  }

  /** Opening the form for a new user and saving creates a user, even when
      the dialog was last used to edit one. */
  lemma CreateThenSaveCreates(d: Dialog, u: User)
    ensures SaveUser(CreateUser(EditUser(d, u))).0 == CreateNew
  {
  }

  // ---------------------------------------------------------------------
  // The list

  /** The three select boxes; "all" switches a filter off. */
  datatype Filters = Filters(role: string, department: string, status: string)

  function HasRoleName(role: string): User -> bool
  {
    (u: User) => RoleName(u.role) == role
  }

  function InDepartment(dept: string): User -> bool
  {
    (u: User) => u.department == dept
  }

  function ActiveIs(active: bool): User -> bool
  {
    (u: User) => u.isActive == active
  }

  /** A user the filters let through; any status other than "all" and
      "active" selects the inactive users. */
  predicate MatchesFilters(f: Filters, u: User)
  {
    (f.role == "all" || RoleName(u.role) == f.role)
    && (f.department == "all" || u.department == f.department)
    && (f.status == "all" || u.isActive == (f.status == "active"))
  }

  function Matching(f: Filters): User -> bool
  {
    (u: User) => MatchesFilters(f, u)
  }

  function FilterIf(users: seq<User>, on: bool, p: User -> bool): seq<User>
  {
    if on then Filter(users, p) else users
  }

  /** `loadUsers`: the role, department and status filters in turn. */
  function LoadUsers(users: seq<User>, f: Filters): seq<User>
  {
    var byRole := FilterIf(users, f.role != "all", HasRoleName(f.role));
    var byDept := FilterIf(byRole, f.department != "all", InDepartment(f.department));
    FilterIf(byDept, f.status != "all", ActiveIs(f.status == "active"))
  }

  function RoleAndDept(f: Filters): User -> bool
  {
    (u: User) => (f.role == "all" || RoleName(u.role) == f.role) && (f.department == "all" || u.department == f.department)
  }

  lemma {:induction false} FilterIfStep(users: seq<User>, on: bool, p: User -> bool, before: User -> bool, after: User -> bool)
    requires forall u :: after(u) == (before(u) && (!on || p(u)))
    ensures FilterIf(Filter(users, before), on, p) == Filter(users, after)
  {
    if on {
      FilterFilter(users, before, p, after);
    } else {
      FilterCongruent(users, before, after);
    }
  }

  /** The listed users are exactly those all three filters accept, in
      their original order. */
  lemma LoadUsersKeepsMatching(users: seq<User>, f: Filters)
    ensures LoadUsers(users, f) == Filter(users, Matching(f))
  {
    var everyone := (u: User) => true;
    FilterAll(users, everyone);
    FilterIfStep(users, f.role != "all", HasRoleName(f.role), everyone, (u: User) => f.role == "all" || RoleName(u.role) == f.role);
    FilterIfStep(users, f.department != "all", InDepartment(f.department),
      (u: User) => f.role == "all" || RoleName(u.role) == f.role, RoleAndDept(f));
    FilterIfStep(users, f.status != "all", ActiveIs(f.status == "active"), RoleAndDept(f), Matching(f));
  }

  // ---------------------------------------------------------------------
  // Counts and tabs

  function HasRole(r: Role): User -> bool
  {
    (u: User) => u.role == r
  }

  datatype UserCounts = UserCounts(
    all: nat, active: nat, inactive: nat, admin: nat, manager: nat, developer: nat, executive: nat)

  /** `userCounts`. */
  function CountUsers(users: seq<User>): (r: UserCounts)
    ensures r.all == |users|
  {
    UserCounts(|users|, Count(users, ActiveIs(true)), Count(users, ActiveIs(false)),
      Count(users, HasRole(Admin)), Count(users, HasRole(Manager)),
      Count(users, HasRole(Developer)), Count(users, HasRole(Executive)))
  }

  /** Every user is active or inactive, and has exactly one of the four
      roles, so both groups of counts add up to all users. */
  lemma {:induction false} CountsAccount(users: seq<User>)
    ensures var c := CountUsers(users);
      c.active + c.inactive == c.all && c.admin + c.manager + c.developer + c.executive == c.all
  {
    FilterPartition(users, ActiveIs(true), ActiveIs(false));
    if users != [] {
      CountsAccount(users[1..]);
    }
  }

  /** The rows under tab `tab`: all, then the active, then the inactive
      users; any other tab shows all of them. */
  predicate TabShows(tab: nat, u: User)
  {
    if tab == 0 then true else if tab == 1 then u.isActive else if tab == 2 then !u.isActive else true
  }

  function InTab(tab: nat): User -> bool
  {
    (u: User) => TabShows(tab, u)
  }

  function TabRows(users: seq<User>, tab: nat): seq<User>
  {
    Filter(users, InTab(tab))
  }

  /** Each tab shows as many rows as its label counts. */
  lemma TabRowsAgreeWithLabels(users: seq<User>)
    ensures |TabRows(users, 0)| == CountUsers(users).all
    ensures |TabRows(users, 1)| == CountUsers(users).active
    ensures |TabRows(users, 2)| == CountUsers(users).inactive
    ensures |TabRows(users, 1)| + |TabRows(users, 2)| == |TabRows(users, 0)|
  {
    FilterAll(users, InTab(0));
    FilterCongruent(users, InTab(1), ActiveIs(true));
    FilterCongruent(users, InTab(2), ActiveIs(false));
    CountsAccount(users);
  }
}
