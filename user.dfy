/**
 * The user service's in-memory table and its handlers: get by id, search,
 * create, update, delete, status patch and login.
 */
module UserService {
  import opened Common

  datatype User = User(
    id: string,
    name: string,
    email: string,
    role: string,
    status: string,
    lastLogin: int,
    createdAt: Option<int>,
    updatedAt: Option<int>)

  const UserNotFound: string := "User not found"

  /** The statuses the status patch accepts. */
  predicate IsUserStatus(s: Option<string>) {
    s == Some("active") || s == Some("inactive") || s == Some("suspended")
  }

  /** The search's `query` filter: a case-insensitive substring of the name or the email. */
  predicate QueryMatches(u: User, query: Option<string>) {
    query.Some? && (Contains(Lower(u.name), Lower(query.value)) || Contains(Lower(u.email), Lower(query.value)))
  }

  predicate RoleMatches(u: User, role: Option<string>) {
    role.Some? && EqualsIgnoreCase(u.role, role.value)
  }

  predicate StatusMatches(u: User, status: Option<string>) {
    status.Some? && EqualsIgnoreCase(u.status, status.value)
  }

  /** A user satisfies every search filter that was supplied (truthy); absent filters impose nothing. */
  predicate MatchesSearch(u: User, query: Option<string>, role: Option<string>, status: Option<string>) {
    && (Truthy(query) ==> QueryMatches(u, query))
    && (Truthy(role) ==> RoleMatches(u, role))
    && (Truthy(status) ==> StatusMatches(u, status))
  }

  /** The update's `{ ...user, name: name || user.name, ... }` merge, stamped with `updatedAt`. */
  function Merged(u: User, name: Option<string>, email: Option<string>, role: Option<string>,
                  status: Option<string>, now: int): (m: User)
    ensures m.id == u.id && m.lastLogin == u.lastLogin && m.createdAt == u.createdAt
    ensures Truthy(name) ==> m.name == name.value
    ensures !Truthy(name) ==> m.name == u.name
    ensures Truthy(email) ==> m.email == email.value
    ensures !Truthy(email) ==> m.email == u.email
    ensures Truthy(role) ==> m.role == role.value
    ensures !Truthy(role) ==> m.role == u.role
    ensures Truthy(status) ==> m.status == status.value
    ensures !Truthy(status) ==> m.status == u.status
    ensures m.updatedAt == Some(now)
  {
    u.(name := Or(name, u.name), email := Or(email, u.email), role := Or(role, u.role),
       status := Or(status, u.status), updatedAt := Some(now))
  }

  class Users {
    var users: seq<User>

    /** The two seeded users, with `lastLogin` set to the start-up time. */
    constructor (now: int)
      ensures users == [
        User("1", "John Doe", "john@example.com", "user", "active", now, None, None),
        User("2", "Jane Smith", "jane@example.com", "admin", "active", now, None, None)]
    {
      users := [
        User("1", "John Doe", "john@example.com", "user", "active", now, None, None),
        User("2", "Jane Smith", "jane@example.com", "admin", "active", now, None, None)];
    }

    /** `users.findIndex(u => u.id === id)`. */
    function IndexOf(id: string): (r: Option<nat>)
      reads this
      ensures r.Some? ==> r.value < |users| && users[r.value].id == id
      ensures r.Some? ==> forall j :: 0 <= j < r.value ==> users[j].id != id
      ensures r.None? <==> forall j :: 0 <= j < |users| ==> users[j].id != id
    {
      FindIndex(users, (u: User) => u.id == id)
    }

    /** GET /api/users/:id: the first user with that id, or 404. */
    function Get(id: string): (r: Reply<User>)
      reads this
      ensures r.Ok? <==> exists i :: 0 <= i < |users| && users[i].id == id
      ensures r.Ok? ==> r.status == 200 && r.value.id == id
      ensures r.Ok? ==> exists i :: 0 <= i < |users| && users[i] == r.value && forall j :: 0 <= j < i ==> users[j].id != id
      ensures !r.Ok? ==> r == Fail(404, UserNotFound)
    {
      match IndexOf(id)
      case Some(i) => Ok(200, users[i])
      case None => Fail(404, UserNotFound)
    }

    /** GET /api/users/search: each supplied filter narrows the table in turn. */
    function Search(query: Option<string>, role: Option<string>, status: Option<string>): (r: seq<User>)
      reads this
      ensures r == Filter(users, (u: User) => MatchesSearch(u, query, role, status))
      ensures IsSubsequence(r, users)
      ensures forall i :: 0 <= i < |r| ==> MatchesSearch(r[i], query, role, status)
      ensures forall i :: 0 <= i < |users| && MatchesSearch(users[i], query, role, status) ==> users[i] in r
    {
      var byQuery := (u: User) => QueryMatches(u, query);
      var byRole := (u: User) => RoleMatches(u, role);
      var byStatus := (u: User) => StatusMatches(u, status);
      NarrowThree(users, Truthy(query), byQuery, Truthy(role), byRole, Truthy(status), byStatus,
                  (u: User) => MatchesSearch(u, query, role, status));
      Narrow(Narrow(Narrow(users, Truthy(query), byQuery), Truthy(role), byRole), Truthy(status), byStatus)
    }

    /**
      * POST /api/users. Unless the injected validation failure fires, appends
      * one active user with the fresh id, the role defaulting to 'user'.
      */
    method Create(name: string, email: string, role: Option<string>, injectedFailure: bool,
                  freshId: string, now: int) returns (r: Reply<User>)
      modifies this
      ensures injectedFailure ==> r == Fail(400, "Invalid user data") && users == old(users)
      ensures !injectedFailure ==>
        && r.Ok? && r.status == 201
        && users == old(users) + [r.value]
        && r.value.id == freshId && r.value.name == name && r.value.email == email
        && r.value.role == Or(role, "user") && r.value.status == "active"
        && r.value.createdAt == Some(now) && r.value.lastLogin == now && r.value.updatedAt == None
      ensures !injectedFailure && old(IndexOf(freshId)).None? ==> Get(freshId) == Ok(200, r.value)
    {
      if injectedFailure {
        return Fail(400, "Invalid user data");
      }
      var user := User(freshId, name, email, Or(role, "user"), "active", now, Some(now), None);
      FindIndexAppend(users, user, (u: User) => u.id == freshId);
      users := users + [user];
      r := Ok(201, user);
    }

    /**
      * PUT /api/users/:id. Replaces the first user with that id by its merge
      * with the truthy supplied fields; nothing else changes.
      */
    method Update(id: string, name: Option<string>, email: Option<string>, role: Option<string>,
                  status: Option<string>, now: int) returns (r: Reply<User>)
      modifies this
      ensures old(IndexOf(id)).None? ==> r == Fail(404, UserNotFound) && users == old(users)
      ensures old(IndexOf(id)).Some? ==>
        var i := old(IndexOf(id)).value;
        && users == old(users)[i := Merged(old(users)[i], name, email, role, status, now)]
        && r == Ok(200, users[i])
      ensures forall id' :: IndexOf(id') == old(IndexOf(id'))
    {
      var index := IndexOf(id);
      if index.None? {
        return Fail(404, UserNotFound);
      }
      var i := index.value;
      var updated := Merged(users[i], name, email, role, status, now);
      forall id' ensures FindIndex(users[i := updated], (u: User) => u.id == id') == IndexOf(id') {
        FindIndexReplace(users, i, updated, (u: User) => u.id == id');
      }
      users := users[i := updated];
      r := Ok(200, updated);
    }

    /** DELETE /api/users/:id: removes the first user with that id and returns it. */
    method Delete(id: string) returns (r: Reply<User>)
      modifies this
      ensures old(IndexOf(id)).None? ==> r == Fail(404, UserNotFound) && users == old(users)
      ensures old(IndexOf(id)).Some? ==>
        var i := old(IndexOf(id)).value;
        && users == RemoveAt(old(users), i)
        && r == Ok(200, old(users)[i])
    {
      var index := IndexOf(id);
      if index.None? {
        return Fail(404, UserNotFound);
      }
      var i := index.value;
      r := Ok(200, users[i]);
      users := RemoveAt(users, i);
    }

    /**
      * PATCH /api/users/:id/status. A missing user is reported before the
      * status is checked; only active, inactive and suspended are accepted.
      */
    method PatchStatus(id: string, status: Option<string>) returns (r: Reply<User>)
      modifies this
      ensures old(IndexOf(id)).None? ==> r == Fail(404, UserNotFound) && users == old(users)
      ensures old(IndexOf(id)).Some? && !IsUserStatus(status) ==>
        r == Fail(400, "Invalid status") && users == old(users)
      ensures old(IndexOf(id)).Some? && IsUserStatus(status) ==>
        var i := old(IndexOf(id)).value;
        && users == old(users)[i := old(users)[i].(status := status.value)]
        && r == Ok(200, users[i])
    {
      var index := IndexOf(id);
      if index.None? {
        return Fail(404, UserNotFound);
      }
      if !IsUserStatus(status) {
        return Fail(400, "Invalid status");
      }
      var i := index.value;
      users := users[i := users[i].(status := status.value)];
      r := Ok(200, users[i]);
    }

    /**
      * POST /api/users/:id/login. Only an active user may log in; the login
      * time is recorded on that user alone and returned.
      */
    method Login(id: string, now: int) returns (r: Reply<int>)
      modifies this
      ensures old(IndexOf(id)).None? ==> r == Fail(404, UserNotFound) && users == old(users)
      ensures old(IndexOf(id)).Some? && old(users)[old(IndexOf(id)).value].status != "active" ==>
        r == Fail(403, "User account is not active") && users == old(users)
      ensures old(IndexOf(id)).Some? && old(users)[old(IndexOf(id)).value].status == "active" ==>
        var i := old(IndexOf(id)).value;
        && users == old(users)[i := old(users)[i].(lastLogin := now)]
        && r == Ok(200, now)
    {
      var index := IndexOf(id);
      if index.None? {
        return Fail(404, UserNotFound);
      }
      var i := index.value;
      if users[i].status != "active" {
        return Fail(403, "User account is not active");
      }
      users := users[i := users[i].(lastLogin := now)];
      r := Ok(200, now);
    }
  }
}
