/**
 * Ownership-scoped reads over the two record collections, the room selection, and the
 * fixed-table login check.
 */
module Access {
  import opened Wrappers
  import opened Types
  import opened JsText

  // ------------------------------------------------------ ownership filter

  function ProjectOwner(p: ProjectRecord): string {
    p.clientId
  }

  function RoomOwner(q: RoomRecord): string {
    q.clientId
  }

  /**
   * `s.filter(x => owner(x) === id)`: exactly the elements of `s` owned by `id`, in the
   * order of `s`; an unknown id gives the empty sequence.
   */
  function OwnedBy<T(==, !new)>(s: seq<T>, owner: T -> string, id: string): (r: seq<T>)
    ensures |r| <= |s|
    ensures forall x :: x in r <==> x in s && owner(x) == id
  {
    if s == [] then []
    else (if owner(s[0]) == id then [s[0]] else []) + OwnedBy(s[1..], owner, id)
  }

  /** Filtering distributes over concatenation, so it keeps the store's order. */
  lemma {:induction false} OwnedByConcat<T(!new)>(a: seq<T>, b: seq<T>, owner: T -> string, id: string)
    ensures OwnedBy(a + b, owner, id) == OwnedBy(a, owner, id) + OwnedBy(b, owner, id)
  {
    if a != [] {
      var head := if owner(a[0]) == id then [a[0]] else [];
      assert (a + b)[0] == a[0] && (a + b)[1..] == a[1..] + b;
      assert OwnedBy(a + b, owner, id) == head + OwnedBy(a[1..] + b, owner, id);
      OwnedByConcat(a[1..], b, owner, id);
      assert OwnedBy(a, owner, id) == head + OwnedBy(a[1..], owner, id);
    } else {
      assert a + b == b;
    }
  }

  /** Filtering a collection in which `id` owns nothing gives the empty sequence. */
  lemma {:induction false} NoneOwned<T(!new)>(s: seq<T>, owner: T -> string, id: string)
    requires forall x :: x in s ==> owner(x) != id
    ensures OwnedBy(s, owner, id) == []
  {
    if s != [] {
      assert s[0] in s;
      assert forall x :: x in s[1..] ==> x in s;
      NoneOwned(s[1..], owner, id);
    }
  }

  /** Prepending a record adds it to the front of its owner's view and to no other view. */
  lemma OwnedByPrepend<T(!new)>(x: T, s: seq<T>, owner: T -> string, id: string)
    ensures OwnedBy([x] + s, owner, id) == (if owner(x) == id then [x] + OwnedBy(s, owner, id) else OwnedBy(s, owner, id))
  {
    OwnedByConcat([x], s, owner, id);
    assert OwnedBy([x], owner, id) == (if owner(x) == id then [x] else []) + OwnedBy([], owner, id);
  }

  // ------------------------------------------------------------ admin lookup

  /** The result of an administrator's lookup: `{ projects, rooms }`. */
  datatype LookupResult = LookupResult(projects: seq<ProjectRecord>, rooms: seq<RoomRecord>)

  /**
   * `handleAdminSearch`'s query: the projects and the rooms whose `clientId` is exactly
   * `clientId` (no trimming), in store order.
   */
  function AdminLookup(projects: seq<ProjectRecord>, rooms: seq<RoomRecord>, clientId: string): (r: LookupResult)
    ensures forall p :: p in r.projects <==> p in projects && p.clientId == clientId
    ensures forall q :: q in r.rooms <==> q in rooms && q.clientId == clientId
  {
    LookupResult(OwnedBy(projects, ProjectOwner, clientId), OwnedBy(rooms, RoomOwner, clientId))
  }

  /** A lookup for an id that owns nothing is empty, not an error. */
  lemma UnknownClientLookupIsEmpty(projects: seq<ProjectRecord>, rooms: seq<RoomRecord>, clientId: string)
    requires forall p :: p in projects ==> p.clientId != clientId
    requires forall q :: q in rooms ==> q.clientId != clientId
    ensures AdminLookup(projects, rooms, clientId) == LookupResult([], [])
  {
    NoneOwned(projects, ProjectOwner, clientId);
    NoneOwned(rooms, RoomOwner, clientId);
  }

  /** A new project shows first in its owner's lookup and leaves every other lookup as it was. */
  lemma LookupAfterNewProject(p: ProjectRecord, projects: seq<ProjectRecord>, rooms: seq<RoomRecord>, clientId: string)
    ensures var before := AdminLookup(projects, rooms, clientId);
      AdminLookup([p] + projects, rooms, clientId)
        == if p.clientId == clientId then before.(projects := [p] + before.projects) else before
  {
    OwnedByPrepend(p, projects, ProjectOwner, clientId);
  }

  /** A new room shows first in its owner's lookup and leaves every other lookup as it was. */
  lemma LookupAfterNewRoom(q: RoomRecord, projects: seq<ProjectRecord>, rooms: seq<RoomRecord>, clientId: string)
    ensures var before := AdminLookup(projects, rooms, clientId);
      AdminLookup(projects, [q] + rooms, clientId)
        == if q.clientId == clientId then before.(rooms := [q] + before.rooms) else before
  {
    OwnedByPrepend(q, rooms, RoomOwner, clientId);
  }

  // ---------------------------------------------------------------- registry

  /**
   * The project registry: a client sees exactly their own projects, a developer sees all
   * of them, both in store order.
   */
  function Registry(user: User, projects: seq<ProjectRecord>): (r: seq<ProjectRecord>)
    ensures user.role == Client ==> forall p :: p in r <==> p in projects && p.clientId == user.id
    ensures user.role == Developer ==> r == projects
  {
    if user.role == Client then OwnedBy(projects, ProjectOwner, user.id) else projects
  }

  /** A client's registry is the administrator's lookup of that client's id. */
  lemma ClientRegistryIsOwnLookup(user: User, projects: seq<ProjectRecord>, rooms: seq<RoomRecord>)
    requires user.role == Client
    ensures Registry(user, projects) == AdminLookup(projects, rooms, user.id).projects
  {
  }

  // ---------------------------------------------------------- room selection

  /**
   * `roomHistory.find(r => r.id === selectedRoomId)`: the first room, the most recent one,
   * whose id matches; nothing when no id is selected or none matches.
   */
  function FindRoom(rooms: seq<RoomRecord>, id: Option<string>): (r: Option<RoomRecord>)
    ensures r.Some? <==> id.Some? && exists i :: 0 <= i < |rooms| && rooms[i].id == id.value
    ensures r.Some? ==>
      exists i :: && 0 <= i < |rooms| && rooms[i] == r.value && r.value.id == id.value
                  && forall j :: 0 <= j < i ==> rooms[j].id != id.value
  {
    if id.None? || rooms == [] then None
    else if rooms[0].id == id.value then Some(rooms[0])
    else
      var r := FindRoom(rooms[1..], id);
      assert forall i :: 1 <= i < |rooms| ==> rooms[i] == rooms[1..][i - 1];
      r
  }

  /** A newly prepended room is the one selected by its id, even if an older room shares it. */
  lemma NewestRoomSelected(q: RoomRecord, rooms: seq<RoomRecord>)
    ensures FindRoom([q] + rooms, Some(q.id)) == Some(q)
  {
  }

  // ------------------------------------------------------------------- login

  datatype AuthMode = LoginMode | RegisterMode

  /** The landing page's choice of portal. */
  datatype AuthView = AuthView(role: Role, mode: AuthMode)

  /** `authView?.role || 'CLIENT'`. */
  function LoginRole(authView: Option<AuthView>): Role {
    if authView.Some? then authView.value.role else Client
  }

  /** The only two accepted role / username / password combinations. */
  predicate ValidCredentials(role: Role, username: string, password: string) {
    || (role == Client && username == "client@zerobuild.ai" && password == "123456")
    || (role == Developer && username == "admin@zerobuild.ai" && password == "789000")
  }

  /** The id a signed-in user receives for their role. */
  function RoleUserId(role: Role): string {
    if role == Client then "CLIENT-8293" else "ADMIN-0001"
  }

  /** The ids any signed-in user can have. */
  const KnownUserIds: set<string> := {"CLIENT-8293", "ADMIN-0001"}

  /**
   * `handleLogin`'s check: a user exactly for valid credentials, with the role's id, the
   * username, and as display name the username's text before its first `@`.
   */
  function Authenticate(role: Role, username: string, password: string): (u: Option<User>)
    ensures u.Some? <==> ValidCredentials(role, username, password)
    ensures u.Some? ==>
      && u.value.role == role && u.value.username == username
      && u.value.id in KnownUserIds && (u.value.id == "CLIENT-8293" <==> role == Client)
      && u.value.fullName == BeforeFirst(username, '@')
  {
    if ValidCredentials(role, username, password) then
      Some(User(RoleUserId(role), username, role, BeforeFirst(username, '@')))
    else None
  }

  /** The client account signs in as "client" with the client id. */
  lemma ClientAccount()
    ensures Authenticate(Client, "client@zerobuild.ai", "123456")
         == Some(User("CLIENT-8293", "client@zerobuild.ai", Client, "client"))
  {
    ClientDisplayName();
  }

  /** The administrator account signs in as "admin" with the administrator id. */
  lemma AdminAccount()
    ensures Authenticate(Developer, "admin@zerobuild.ai", "789000")
         == Some(User("ADMIN-0001", "admin@zerobuild.ai", Developer, "admin"))
  {
    AdminDisplayName();
  }

  /** Valid credentials presented under the other role are refused. */
  lemma RoleMustMatch()
    ensures Authenticate(Developer, "client@zerobuild.ai", "123456") == None
    ensures Authenticate(Client, "admin@zerobuild.ai", "789000") == None
  {
    assert "client@zerobuild.ai"[0] != "admin@zerobuild.ai"[0];
  }

  lemma ClientDisplayName()
    ensures BeforeFirst("client@zerobuild.ai", '@') == "client"
  {
    BeforeFirstSeparator("client", "zerobuild.ai", '@');
    assert "client" + ['@'] + "zerobuild.ai" == "client@zerobuild.ai";
  }

  lemma AdminDisplayName()
    ensures BeforeFirst("admin@zerobuild.ai", '@') == "admin"
  {
    BeforeFirstSeparator("admin", "zerobuild.ai", '@');
    assert "admin" + ['@'] + "zerobuild.ai" == "admin@zerobuild.ai";
  }
}
