/**
 * The user slice: the signed-in user and the flag the router's auth gate
 * reads, an ordered table of users, the list of roles, and two scratch fields
 * (a loading flag, an error message). The session pair keeps one invariant:
 * the flag is set exactly when there is a current user.
 * `Reduce` is the slice's reducer on state values; `UserSlice` is the state
 * the reducers change in place, one method per reducer, each proved to leave
 * the state that `Reduce` computes.
 */
module Users {
  import opened Table

  datatype User = User(
    id: string,
    username: string,
    email: string,
    firstName: string,
    lastName: string,
    roleId: string,
    isActive: bool,
    createdAt: string,
    updatedAt: string)

  /** A role's permissions are carried along; no reducer consults them. */
  datatype Role = Role(
    id: string,
    name: string,
    permissions: seq<string>,
    description: string)

  /** The id a user is looked up by. */
  function Key(u: User): string { u.id }

  datatype UserState = UserState(
    currentUser: Option<User>,
    users: seq<User>,
    roles: seq<Role>,
    isAuthenticated: bool,
    loading: bool,
    error: Option<string>)

  const InitialState := UserState(None, [], [], false, false, None)

  /** The slice's actions. */
  datatype Action =
    | SetCurrentUser(user: User)
    | ClearCurrentUser
    | SetUsers(users: seq<User>)
    | AddUser(user: User)
    | UpdateUser(user: User)
    | DeleteUser(id: string)
    | SetRoles(roles: seq<Role>)
    | SetLoading(loading: bool)
    | SetError(error: Option<string>)

  /**
   * The slice's reducer. Each scratch field changes only through its own
   * setter and the roles only through `setRoles`; the user table changes only
   * through the user actions, and only `setUsers`, `addUser` and `deleteUser`
   * change its length or the id held at a position.
   */
  function Reduce(s: UserState, a: Action): (r: UserState)
    ensures !a.SetLoading? ==> r.loading == s.loading
    ensures !a.SetError? ==> r.error == s.error
    ensures !a.SetRoles? ==> r.roles == s.roles
    ensures !a.SetUsers? && !a.AddUser? && !a.UpdateUser? && !a.DeleteUser? ==> r.users == s.users
    ensures !a.SetUsers? && !a.AddUser? && !a.DeleteUser? ==>
      |r.users| == |s.users| &&
      forall j :: 0 <= j < |s.users| ==> r.users[j].id == s.users[j].id
  {
    match a
    case SetCurrentUser(u) => s.(currentUser := Some(u), isAuthenticated := true)
    case ClearCurrentUser => s.(currentUser := None, isAuthenticated := false)
    case SetUsers(list) => s.(users := list)
    case AddUser(u) => s.(users := s.users + [u])
    case UpdateUser(u) => s.(users := ReplaceFirst(s.users, Key, u))
    case DeleteUser(id) => s.(users := RemoveAll(s.users, Key, id))
    case SetRoles(list) => s.(roles := list)
    case SetLoading(b) => s.(loading := b)
    case SetError(e) => s.(error := e)
  }

  /**
   * The state after the actions are dispatched one after another. A run in
   * which nobody signs in or out leaves the session as it was.
   */
  function Run(s: UserState, actions: seq<Action>): (r: UserState)
    ensures (forall i :: 0 <= i < |actions| ==> !actions[i].SetCurrentUser? && !actions[i].ClearCurrentUser?) ==>
      r.currentUser == s.currentUser && r.isAuthenticated == s.isAuthenticated
    decreases |actions|
  {
    if |actions| == 0 then s else Run(Reduce(s, actions[0]), actions[1..])
  }

  /** The session invariant: signed in exactly when there is a current user. */
  predicate SessionConsistent(s: UserState) {
    s.isAuthenticated <==> s.currentUser.Some?
  }

  class UserSlice {
    var currentUser: Option<User>
    var users: seq<User>
    var roles: seq<Role>
    var isAuthenticated: bool
    var loading: bool
    var error: Option<string>

    function State(): UserState
      reads this
    {
      UserState(currentUser, users, roles, isAuthenticated, loading, error)
    }

    ghost predicate Valid()
      reads this
    {
      SessionConsistent(State())
    }

    constructor ()
      ensures State() == InitialState && Valid()
    {
      currentUser, users, roles := None, [], [];
      isAuthenticated, loading, error := false, false, None;
    }

    method SetCurrentUser(user: User)
      modifies this
      ensures State() == Reduce(old(State()), Action.SetCurrentUser(user))
      ensures Valid()
    {
      currentUser := Some(user);
      isAuthenticated := true;
    }

    method ClearCurrentUser()
      modifies this
      ensures State() == Reduce(old(State()), Action.ClearCurrentUser)
      ensures Valid()
    {
      currentUser := None;
      isAuthenticated := false;
    }

    method SetUsers(list: seq<User>)
      modifies this
      ensures State() == Reduce(old(State()), Action.SetUsers(list))
      ensures old(Valid()) ==> Valid()
    {
      users := list;
    }

    method AddUser(user: User)
      modifies this
      ensures State() == Reduce(old(State()), Action.AddUser(user))
      ensures old(Valid()) ==> Valid()
    {
      users := users + [user];
    }

    method UpdateUser(user: User)
      modifies this
      ensures State() == Reduce(old(State()), Action.UpdateUser(user))
      ensures old(Valid()) ==> Valid()
    {
      var index := FirstIndex(users, Key, user.id);
      if index.Some? {
        users := users[index.value := user];
      }
    }

    method DeleteUser(id: string)
      modifies this
      ensures State() == Reduce(old(State()), Action.DeleteUser(id))
      ensures old(Valid()) ==> Valid()
    {
      users := RemoveAll(users, Key, id);
    }

    method SetRoles(list: seq<Role>)
      modifies this
      ensures State() == Reduce(old(State()), Action.SetRoles(list))
      ensures old(Valid()) ==> Valid()
    {
      roles := list;
    }

    method SetLoading(b: bool)
      modifies this
      ensures State() == Reduce(old(State()), Action.SetLoading(b))
      ensures old(Valid()) ==> Valid()
    {
      loading := b;
    }

    method SetError(e: Option<string>)
      modifies this
      ensures State() == Reduce(old(State()), Action.SetError(e))
      ensures old(Valid()) ==> Valid()
    {
      error := e;
    }
  }

  /**
   * `setCurrentUser` signs the user in unconditionally, whatever the state
   * before, and touches nothing but the session pair.
   */
  lemma SetCurrentUserSignsIn(s: UserState, u: User)
    ensures var r := Reduce(s, SetCurrentUser(u));
      r.currentUser == Some(u) && r.isAuthenticated && SessionConsistent(r) &&
      r.users == s.users && r.roles == s.roles && r.loading == s.loading && r.error == s.error
  {
  }

  /** `clearCurrentUser` signs out and touches nothing but the session pair. */
  lemma ClearCurrentUserSignsOut(s: UserState)
    ensures var r := Reduce(s, ClearCurrentUser);
      r.currentUser == None && !r.isAuthenticated && SessionConsistent(r) &&
      r.users == s.users && r.roles == s.roles && r.loading == s.loading && r.error == s.error
  {
  }

  /** Every reducer keeps the session invariant. */
  lemma ReducePreservesSession(s: UserState, a: Action)
    requires SessionConsistent(s)
    ensures SessionConsistent(Reduce(s, a))
  {
  }

  /**
   * From a consistent state, every sequence of dispatched actions leads to a
   * consistent state.
   */
  lemma {:induction false} RunPreservesSession(s: UserState, actions: seq<Action>)
    requires SessionConsistent(s)
    ensures SessionConsistent(Run(s, actions))
    decreases |actions|
  {
    if |actions| > 0 {
      ReducePreservesSession(s, actions[0]);
      RunPreservesSession(Reduce(s, actions[0]), actions[1..]);
    }
  }

  /** The initial state is signed out, and so is consistent; so is every state reachable from it. */
  lemma ReachableSessionConsistent(actions: seq<Action>)
    ensures SessionConsistent(InitialState)
    ensures SessionConsistent(Run(InitialState, actions))
  {
    RunPreservesSession(InitialState, actions);
  }

  /**
   * Only `setCurrentUser` and `clearCurrentUser` move the session pair: every
   * other action, the user-table and role actions included, leaves both
   * fields as they were.
   */
  lemma OnlySessionActionsMoveSession(s: UserState, a: Action)
    requires !a.SetCurrentUser? && !a.ClearCurrentUser?
    ensures Reduce(s, a).currentUser == s.currentUser
    ensures Reduce(s, a).isAuthenticated == s.isAuthenticated
  {
  }

  /**
   * Deleting or replacing the signed-in user's record leaves the session as it
   * was: the current user may then have no record left in the table.
   */
  lemma SessionOutlivesUserRecord(s: UserState, u: User, v: User)
    requires s.currentUser == Some(u) && v.id == u.id
    ensures var r := Reduce(s, DeleteUser(u.id));
      r.currentUser == Some(u) && r.isAuthenticated == s.isAuthenticated &&
      Absent(r.users, Key, u.id)
    ensures var r := Reduce(s, UpdateUser(v));
      r.currentUser == Some(u) && r.isAuthenticated == s.isAuthenticated
  {
  }

  /**
   * `setUsers` replaces the user table verbatim and `setRoles` the role list;
   * each leaves the other collection, the session and the scratch fields.
   */
  lemma SetUsersAndRolesReplace(s: UserState, users: seq<User>, roles: seq<Role>)
    ensures var r := Reduce(s, SetUsers(users));
      r.users == users && r.roles == s.roles &&
      r.currentUser == s.currentUser && r.isAuthenticated == s.isAuthenticated &&
      r.loading == s.loading && r.error == s.error
    ensures var r := Reduce(s, SetRoles(roles));
      r.roles == roles && r.users == s.users &&
      r.currentUser == s.currentUser && r.isAuthenticated == s.isAuthenticated &&
      r.loading == s.loading && r.error == s.error
  {
  }

  /**
   * `addUser` appends without a duplicate check: the table grows by one, the
   * earlier records stay, and if the id was already present, lookups of it
   * still stop at the earlier record.
   */
  lemma AddUserAppends(s: UserState, u: User)
    ensures var r := Reduce(s, AddUser(u));
      |r.users| == |s.users| + 1 &&
      r.users[..|s.users|] == s.users &&
      r.users[|s.users|] == u &&
      r.roles == s.roles && r.currentUser == s.currentUser && r.isAuthenticated == s.isAuthenticated &&
      r.loading == s.loading && r.error == s.error
    ensures var r := Reduce(s, AddUser(u));
      FirstIndex(r.users, Key, u.id) ==
        if FirstIndex(s.users, Key, u.id).Some? then FirstIndex(s.users, Key, u.id)
        else Some(|s.users|)
  {
    FirstIndexAppend(s.users, Key, u, u.id);
  }

  /**
   * `updateUser` replaces the first record with the payload's id by the
   * payload and changes no other position; with the id absent nothing changes.
   */
  lemma UpdateUserReplacesFirst(s: UserState, u: User)
    ensures var r := Reduce(s, UpdateUser(u));
      |r.users| == |s.users| &&
      r.roles == s.roles && r.currentUser == s.currentUser && r.isAuthenticated == s.isAuthenticated &&
      r.loading == s.loading && r.error == s.error
    ensures Absent(s.users, Key, u.id) ==> Reduce(s, UpdateUser(u)) == s
    ensures FirstIndex(s.users, Key, u.id).Some? ==>
      var i := FirstIndex(s.users, Key, u.id).value;
      var r := Reduce(s, UpdateUser(u));
      r.users[i] == u &&
      forall j :: 0 <= j < |s.users| && j != i ==> r.users[j] == s.users[j]
  {
    UpdateFirstAt(s.users, Key, u.id, _ => u);
  }

  /**
   * `deleteUser` keeps exactly the records with another id, in order; it
   * changes nothing exactly when the id is absent, and deleting twice is
   * deleting once.
   */
  lemma DeleteUserFilters(s: UserState, id: string)
    ensures var r := Reduce(s, DeleteUser(id));
      r.users == RemoveAll(s.users, Key, id) &&
      Absent(r.users, Key, id) &&
      r.roles == s.roles && r.currentUser == s.currentUser && r.isAuthenticated == s.isAuthenticated &&
      r.loading == s.loading && r.error == s.error
    ensures Reduce(s, DeleteUser(id)) == s <==> Absent(s.users, Key, id)
    ensures Reduce(Reduce(s, DeleteUser(id)), DeleteUser(id)) == Reduce(s, DeleteUser(id))
  {
    RemoveAllUnchanged(s.users, Key, id);
    RemoveAllIdempotent(s.users, Key, id);
  }

  /** `setLoading` and `setError` each assign their own field and nothing else. */
  lemma ScratchSettersTouchOneField(s: UserState, b: bool, e: Option<string>)
    ensures Reduce(s, SetLoading(b)) == s.(loading := b)
    ensures Reduce(s, SetError(e)) == s.(error := e)
  {
  }
}
