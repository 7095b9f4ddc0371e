/** The admin "Manage Users" table: role normalisation, the search and role
    filter, the role-change and delete updates, the rule that adds the
    signed-in admin to the list, and which rows offer controls. */
module ManageUsers {
  import opened Wrappers
  import opened Text
  import opened Seqs
  import opened Roles

  /** A row of the table. A missing role is the empty string: JavaScript's
      `undefined` and `""` are both falsy and normalise alike. */
  datatype User = User(id: int, name: string, email: string, role: string, joinDate: string)

  /** The signed-in user from the authentication context; a missing name or
      role is "". */
  datatype SessionUser = SessionUser(name: string, email: string, role: string)

  datatype UpdateStatus = Succeeded | Failed

  const RolePrefix: string := "role_"
  const DefaultAdminName: string := "Current Admin"

  /** The four users the page loads in place of a server call. */
  function MockUsers(): seq<User> {
    [ User(1, "John Doe", "john@example.com", "user", "2024-01-15"),
      User(2, "Jane Smith", "jane@example.com", "user", "2024-01-20"),
      User(3, "Admin User", "admin@example.com", "admin", "2024-01-01"),
      User(4, "Bob Johnson", "bob@example.com", "user", "2024-01-25") ]
  }

  // ---------------------------------------------------------------------
  // Role normalisation

  /** `normalizeRole`: "" for a missing role; otherwise the lower-cased role
      with a leading "role_" removed. */
  function NormalizeRole(role: string): (r: string)
    ensures role == "" ==> r == ""
    ensures StartsWith(Lower(role), RolePrefix) ==> Lower(role) == RolePrefix + r
    ensures !StartsWith(Lower(role), RolePrefix) ==> r == Lower(role)
    ensures forall k :: 0 <= k < |r| ==> IsLowerChar(r[k])
  {
    LowerIsLower(role);
    if role == "" then ""
    else
      var lowerRole := Lower(role);
      if StartsWith(lowerRole, RolePrefix) then
        assert lowerRole == lowerRole[..|RolePrefix|] + lowerRole[|RolePrefix|..];
        RemoveFirst(lowerRole, RolePrefix)
      else lowerRole
  }

  /** Any spelling of the prefix is removed, and the rest is lower-cased. */
  lemma NormalizeRoleStripsPrefix(prefix: string, rest: string)
    requires Lower(prefix) == RolePrefix
    ensures NormalizeRole(prefix + rest) == Lower(rest)
  {
    LowerAppend(prefix, rest);
    assert Lower(prefix + rest)[..|RolePrefix|] == RolePrefix;
    assert RolePrefix + NormalizeRole(prefix + rest) == RolePrefix + Lower(rest);
  }

  /** "ROLE_ADMIN" and "role_admin" normalise to "admin". */
  lemma NormalizeRolePrefixedAdmin()
    ensures NormalizeRole("ROLE_ADMIN") == AdminRole
    ensures NormalizeRole("role_admin") == AdminRole
  {
    assert "ROLE_ADMIN" == "ROLE_" + "ADMIN";
    NormalizeRoleStripsPrefix("ROLE_", "ADMIN");
    assert "role_admin" == "role_" + "admin";
    NormalizeRoleStripsPrefix("role_", "admin");
  }

  /** "Admin" and "admin" normalise to "admin". */
  lemma NormalizeRoleBareAdmin()
    ensures NormalizeRole("Admin") == AdminRole
    ensures NormalizeRole("admin") == AdminRole
  {
    assert Lower("Admin") == AdminRole;
    assert Lower("admin") == AdminRole;
    assert !StartsWith(AdminRole, RolePrefix) by { assert AdminRole[0] != RolePrefix[0]; }
  }

  /** Only one prefix is removed, so normalising is not idempotent. */
  lemma NormalizeRoleNotIdempotent()
    ensures NormalizeRole("role_role_x") == "role_x"
    ensures NormalizeRole(NormalizeRole("role_role_x")) == "x"
  {
    assert "role_role_x" == "role_" + "role_x";
    NormalizeRoleStripsPrefix("role_", "role_x");
    assert "role_x" == "role_" + "x";
    NormalizeRoleStripsPrefix("role_", "x");
  }

  // ---------------------------------------------------------------------
  // The filtered list

  /** Case-insensitive search on name or e-mail. */
  predicate MatchesSearch(u: User, searchTerm: string) {
    Includes(Lower(u.name), Lower(searchTerm)) || Includes(Lower(u.email), Lower(searchTerm))
  }

  /** An empty filter matches everyone; otherwise the normalised roles agree. */
  predicate MatchesRole(u: User, roleFilter: string) {
    roleFilter == "" || NormalizeRole(u.role) == NormalizeRole(roleFilter)
  }

  predicate IsShown(u: User, searchTerm: string, roleFilter: string) {
    MatchesSearch(u, searchTerm) && MatchesRole(u, roleFilter)
  }

  /** `filteredUsers`: exactly the users that pass both tests, in list order;
      so the "Showing 1 to n of m" count never exceeds the total. */
  function FilteredUsers(users: seq<User>, searchTerm: string, roleFilter: string): (shown: seq<User>)
    ensures IsSubsequence(shown, users)
    ensures |shown| <= |users|
    ensures forall i :: 0 <= i < |shown| ==> shown[i] in users && IsShown(shown[i], searchTerm, roleFilter)
    ensures forall i :: 0 <= i < |users| && IsShown(users[i], searchTerm, roleFilter) ==> users[i] in shown
    ensures forall u: User ::
      multiset(shown)[u] == (if IsShown(u, searchTerm, roleFilter) then multiset(users)[u] else 0)
  {
    var keep := (u: User) => IsShown(u, searchTerm, roleFilter);
    assert forall u: User :: multiset(Filter(users, keep))[u] == if keep(u) then multiset(users)[u] else 0 by {
      forall u: User ensures multiset(Filter(users, keep))[u] == if keep(u) then multiset(users)[u] else 0 {
        FilterCount(users, keep, u);
      }
    }
    Filter(users, keep)
  }

  /** The search matches exactly when the lower-cased term occurs in the
      lower-cased name or e-mail. */
  lemma MatchesSearchIff(u: User, searchTerm: string)
    ensures MatchesSearch(u, searchTerm) <==>
      (exists i :: OccursAt(Lower(u.name), Lower(searchTerm), i)) ||
      (exists i :: OccursAt(Lower(u.email), Lower(searchTerm), i))
  {
    IncludesIffOccurs(Lower(u.name), Lower(searchTerm));
    IncludesIffOccurs(Lower(u.email), Lower(searchTerm));
  }

  /** An empty search term matches every user. */
  lemma EmptySearchMatches(u: User)
    ensures MatchesSearch(u, "")
  {
    IncludesEmpty(Lower(u.name));
  }

  /** With an empty search box and "All Roles" every user is shown, in order. */
  lemma NoFilterShowsAll(users: seq<User>)
    ensures FilteredUsers(users, "", "") == users
  {
    forall i | 0 <= i < |users| ensures IsShown(users[i], "", "") {
      EmptySearchMatches(users[i]);
    }
    FilterKeepsAll(users, u => IsShown(u, "", ""));
  }

  /** Filtering on "ROLE_ADMIN" shows the same rows as filtering on "admin". */
  lemma RoleFilterIgnoresPrefixAndCase(users: seq<User>, searchTerm: string)
    ensures FilteredUsers(users, searchTerm, "ROLE_ADMIN") == FilteredUsers(users, searchTerm, AdminRole)
  {
    NormalizeRolePrefixedAdmin();
    NormalizeRoleBareAdmin();
    FilterCongruent(users, u => IsShown(u, searchTerm, "ROLE_ADMIN"), u => IsShown(u, searchTerm, AdminRole));
  }

  // ---------------------------------------------------------------------
  // Updates of the list

  /** `users.map(...)` in `handleRoleChange`: entries with the id get the new
      role, everything else is kept, length and order included. */
  function WithRole(users: seq<User>, userId: int, newRole: string): (r: seq<User>)
    ensures |r| == |users|
    ensures forall i :: 0 <= i < |users| ==>
      r[i].id == users[i].id && r[i].name == users[i].name &&
      r[i].email == users[i].email && r[i].joinDate == users[i].joinDate &&
      (users[i].id == userId ==> r[i].role == newRole) &&
      (users[i].id != userId ==> r[i] == users[i])
  {
    seq(|users|, i requires 0 <= i < |users| =>
      if users[i].id == userId then users[i].(role := newRole) else users[i])
  }

  /** `handleDeleteUser`: nothing happens unless the dialog is confirmed;
      then exactly the entries with that id go and the rest keep their order. */
  function AfterDelete(users: seq<User>, userId: int, confirmed: bool): (r: seq<User>)
    ensures !confirmed ==> r == users
    ensures IsSubsequence(r, users)
    ensures confirmed ==> forall i :: 0 <= i < |r| ==> r[i].id != userId
    ensures forall i :: 0 <= i < |users| && users[i].id != userId ==> users[i] in r
    ensures confirmed ==> forall u: User :: multiset(r)[u] == if u.id != userId then multiset(users)[u] else 0
  {
    if confirmed then
      var keep := (u: User) => u.id != userId;
      assert forall u: User :: multiset(Filter(users, keep))[u] == if keep(u) then multiset(users)[u] else 0 by {
        forall u: User ensures multiset(Filter(users, keep))[u] == if keep(u) then multiset(users)[u] else 0 {
          FilterCount(users, keep, u);
        }
      }
      Filter(users, keep)
    else
      assert IsSubsequence(users, users) by { SubsequenceOfItself(users); }
      users
  }

  lemma {:induction false} SubsequenceOfItself<T>(xs: seq<T>)
    ensures IsSubsequence(xs, xs)
  {
    if xs != [] {
      SubsequenceOfItself(xs[1..]);
    }
  }

  predicate HasId(users: seq<User>, userId: int) {
    exists i :: 0 <= i < |users| && users[i].id == userId
  }

  /** A delete confirmed while a role change is pending is undone when the
      role change completes: the change maps the list it was started with,
      which still holds the deleted row. */
  lemma PendingRoleChangeRestoresDeleted(users: seq<User>, userId: int, newRole: string, deletedId: int)
    requires HasId(users, deletedId)
    ensures !HasId(AfterDelete(users, deletedId, true), deletedId)
    ensures HasId(WithRole(users, userId, newRole), deletedId)
  {
    var i :| 0 <= i < |users| && users[i].id == deletedId;
    assert WithRole(users, userId, newRole)[i].id == deletedId;
  }

  // ---------------------------------------------------------------------
  // The signed-in admin

  /** `currentUser.role` is truthy and lower-cases to "admin" or "role_admin". */
  predicate IsAdminRole(role: string) {
    role != "" && (Lower(role) == AdminRole || Lower(role) == RolePrefix + AdminRole)
  }

  predicate HasEmail(users: seq<User>, email: string) {
    exists i :: 0 <= i < |users| && users[i].email == email
  }

  /** Whether the loader appends the signed-in user. */
  predicate AddsSessionAdmin(users: seq<User>, session: Option<SessionUser>) {
    session.Some? && IsAdminRole(session.value.role) && !HasEmail(users, session.value.email)
  }

  /** The loaded list: the given users, followed by the signed-in admin when
      the role is an admin role and no entry has that e-mail. The new entry
      takes the next id, the admin role and a default name. */
  function WithSessionAdmin(users: seq<User>, session: Option<SessionUser>, today: string): (r: seq<User>)
    ensures |users| <= |r| <= |users| + 1 && r[..|users|] == users
    ensures |r| == |users| + 1 <==> AddsSessionAdmin(users, session)
    ensures |r| == |users| + 1 ==>
      r[|users|] == User(|users| + 1, session.value.name, session.value.email, AdminRole, today) ||
      (session.value.name == "" &&
       r[|users|] == User(|users| + 1, DefaultAdminName, session.value.email, AdminRole, today))
    ensures |r| == |users| + 1 ==> r[|users|].name != ""
  {
    if AddsSessionAdmin(users, session) then
      var s := session.value;
      users + [User(|users| + 1, if s.name != "" then s.name else DefaultAdminName, s.email, AdminRole, today)]
    else
      users
  }

  /** After loading, an admin session user is always in the list, so loading
      again adds nobody. */
  lemma WithSessionAdminOnce(users: seq<User>, session: Option<SessionUser>, today: string)
    ensures session.Some? && IsAdminRole(session.value.role) ==>
      HasEmail(WithSessionAdmin(users, session, today), session.value.email)
    ensures WithSessionAdmin(WithSessionAdmin(users, session, today), session, today) ==
            WithSessionAdmin(users, session, today)
  {
    var r := WithSessionAdmin(users, session, today);
    if AddsSessionAdmin(users, session) {
      assert r[|users|].email == session.value.email;
    } else if session.Some? && IsAdminRole(session.value.role) {
      var i :| 0 <= i < |users| && users[i].email == session.value.email;
      assert r[i].email == session.value.email;
    }
  }

  // ---------------------------------------------------------------------
  // Row controls

  /** `isCurrentUser`: there is a signed-in user and the e-mails agree. */
  predicate IsCurrentUser(session: Option<SessionUser>, email: string) {
    session.Some? && session.value.email == email
  }

  /** What the Role and Actions cells of a row offer, and whether the role
      selector and the two buttons accept input. */
  datatype RowControls = RowControls(roleSelector: bool, updateButton: bool,
                                     deleteButton: bool, ownAccountNote: bool, enabled: bool)

  /** The row of the signed-in user shows its role read-only and a note instead
      of the role selector and the Update and Delete buttons; every other row
      offers all three, disabled while that row's update is pending. */
  function ControlsFor(session: Option<SessionUser>, updatingUserId: Option<int>, u: User): (c: RowControls)
    ensures c.ownAccountNote <==> IsCurrentUser(session, u.email)
    ensures c.roleSelector <==> !IsCurrentUser(session, u.email)
    ensures c.updateButton == c.roleSelector && c.deleteButton == c.roleSelector
    ensures c.enabled <==> updatingUserId != Some(u.id)
  {
    var own := IsCurrentUser(session, u.email);
    RowControls(!own, !own, !own, own, updatingUserId != Some(u.id))
  }

  /** The entry the loader appends for the signed-in admin offers no controls. */
  lemma AppendedAdminIsLocked(users: seq<User>, session: Option<SessionUser>, today: string,
                              updatingUserId: Option<int>)
    requires AddsSessionAdmin(users, session)
    ensures var r := WithSessionAdmin(users, session, today);
      var c := ControlsFor(session, updatingUserId, r[|users|]);
      !c.roleSelector && !c.updateButton && !c.deleteButton && c.ownAccountNote
  {
  }

  // ---------------------------------------------------------------------
  // The component's state

  /** The state of the page: the list, the loading flag, the two filter
      inputs and the status of the last update. */
  class UserManager {
    const session: Option<SessionUser>
    var users: seq<User>
    var loading: bool
    var searchTerm: string
    var roleFilter: string
    var updateStatus: Option<UpdateStatus>
    var updatingUserId: Option<int>

    constructor (session: Option<SessionUser>)
      ensures this.session == session
      ensures users == [] && loading && searchTerm == "" && roleFilter == ""
      ensures updateStatus == None && updatingUserId == None
    {
      this.session := session;
      users := [];
      loading := true;
      searchTerm := "";
      roleFilter := "";
      updateStatus := None;
      updatingUserId := None;
    }

    /** The rows on screen: the "Showing 1 to n of m" figure never has
        more rows shown than there are users. */
    function Shown(): (shown: seq<User>)
      reads this
      ensures IsSubsequence(shown, users)
      ensures |shown| <= |users|
    {
      FilteredUsers(users, searchTerm, roleFilter)
    }

    /** The end of the simulated load: the mock list, with the signed-in
        admin pushed onto it when the rule says so. */
    method FinishLoading(today: string)
      modifies this
      ensures users == WithSessionAdmin(MockUsers(), session, today) && !loading
      ensures searchTerm == old(searchTerm) && roleFilter == old(roleFilter)
      ensures updateStatus == old(updateStatus) && updatingUserId == old(updatingUserId)
    {
      var mockUsers := MockUsers();
      if session.Some? && session.value.role != "" &&
         (Lower(session.value.role) == AdminRole || Lower(session.value.role) == RolePrefix + AdminRole) &&
         !HasEmail(mockUsers, session.value.email)
      {
        var name := if session.value.name != "" then session.value.name else DefaultAdminName;
        mockUsers := mockUsers + [User(|mockUsers| + 1, name, session.value.email, AdminRole, today)];
      }
      users := mockUsers;
      loading := false;
    }

    method SetSearchTerm(term: string)
      modifies this`searchTerm
      ensures searchTerm == term
    {
      searchTerm := term;
    }

    method SetRoleFilter(filter: string)
      modifies this`roleFilter
      ensures roleFilter == filter
    {
      roleFilter := filter;
    }

    /** The start of `handleRoleChange`: the row is marked pending, and the
        handler holds on to the list of the render it was called from. */
    method BeginRoleChange(userId: int) returns (captured: seq<User>)
      modifies this`updatingUserId
      ensures updatingUserId == Some(userId) && captured == users
    {
      updatingUserId := Some(userId);
      captured := users;
    }

    /** The end of `handleRoleChange`, once its delay has passed: the list
        becomes the held list with the role changed, whatever happened to
        `users` in the meantime. */
    method CompleteRoleChange(captured: seq<User>, userId: int, newRole: string)
      modifies this`users, this`updateStatus
      ensures users == WithRole(captured, userId, newRole) && updateStatus == Some(Succeeded)
    {
      users := WithRole(captured, userId, newRole);
      updateStatus := Some(Succeeded);
    }

    /** `handleRoleChange` with no other event during its delay. */
    method HandleRoleChange(userId: int, newRole: string)
      modifies this`users, this`updatingUserId, this`updateStatus
      ensures users == WithRole(old(users), userId, newRole)
      ensures updatingUserId == Some(userId) && updateStatus == Some(Succeeded)
    {
      var captured := BeginRoleChange(userId);
      CompleteRoleChange(captured, userId, newRole);
    }

    /** `handleDeleteUser`, with the answer of the confirmation dialog. */
    method HandleDeleteUser(userId: int, confirmed: bool)
      modifies this`users
      ensures users == AfterDelete(old(users), userId, confirmed)
    {
      if confirmed {
        users := AfterDelete(users, userId, true);
      }
    }

    /** `handleUpdateUser` once its simulated delay has passed: the list is
        not changed, only the status. */
    method HandleUpdateUser(userId: int)
      modifies this`updatingUserId, this`updateStatus
      ensures updatingUserId == Some(userId) && updateStatus == Some(Succeeded)
    {
      updatingUserId := Some(userId);
      updateStatus := Some(Succeeded);
    }
  }
}
