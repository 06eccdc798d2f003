/**
 The entity store of the demo application: an in-memory record of users,
 groups and patient profiles, each a dict from generated id to record, with
 find-or-create operations. The store is an immutable value; every operation
 returns the store it leaves behind. Persisting it to a JSON file after each
 change is not modelled.
 */
module Models {
  import opened Wrappers
  import opened Tables

  datatype User = User(id: Id, name: string)

  /** `members` keeps insertion order, like the source's list. */
  datatype Group = Group(id: Id, name: string, members: seq<Id>)

  /** The two group fields are stored as given and never read back by the store. */
  datatype PatientProfile = PatientProfile(id: Id, owner: Id, viewerGroup: string, editorGroup: string)

  datatype Store = Store(users: Table<User>, groups: Table<Group>, profiles: Table<PatientProfile>)

  /** The store with no file to load: three empty dicts. */
  function InitialStore(): Store {
    Store(Empty(), Empty(), Empty())
  }

  // ---------------------------------------------------------------------------
  // The match conditions of the find-or-create loops

  function NameIs(name: string): User -> bool {
    (u: User) => u.name == name
  }

  function GroupNameIs(name: string): Group -> bool {
    (g: Group) => g.name == name
  }

  /** Profiles are matched on the owner only; the group arguments are ignored. */
  function OwnerIs(owner: Id): PatientProfile -> bool {
    (p: PatientProfile) => p.owner == owner
  }

  // ---------------------------------------------------------------------------
  // Invariants

  /** No two users share a name. */
  ghost predicate UserNamesDistinct(s: Store) {
    forall a, b :: a in s.users.rows && b in s.users.rows && a != b ==>
      s.users.rows[a].name != s.users.rows[b].name
  }

  /** No two groups share a name. */
  ghost predicate GroupNamesDistinct(s: Store) {
    forall a, b :: a in s.groups.rows && b in s.groups.rows && a != b ==>
      s.groups.rows[a].name != s.groups.rows[b].name
  }

  /** No two profiles share an owner. */
  ghost predicate OwnersDistinct(s: Store) {
    forall a, b :: a in s.profiles.rows && b in s.profiles.rows && a != b ==>
      s.profiles.rows[a].owner != s.profiles.rows[b].owner
  }

  ghost predicate NoDuplicates(xs: seq<Id>) {
    forall i, j :: 0 <= i < j < |xs| ==> xs[i] != xs[j]
  }

  /** No group lists a member twice. */
  ghost predicate MembersDistinct(s: Store) {
    forall g :: g in s.groups.rows ==> NoDuplicates(s.groups.rows[g].members)
  }

  /** Every record's `id` field is the key it is stored under. */
  ghost predicate IdsMatchKeys(s: Store) {
    && (forall k :: k in s.users.rows ==> s.users.rows[k].id == k)
    && (forall k :: k in s.groups.rows ==> s.groups.rows[k].id == k)
    && (forall k :: k in s.profiles.rows ==> s.profiles.rows[k].id == k)
  }

  /** Everything the store operations keep true. */
  ghost predicate Good(s: Store) {
    && UserNamesDistinct(s)
    && GroupNamesDistinct(s)
    && OwnersDistinct(s)
    && MembersDistinct(s)
    && IdsMatchKeys(s)
  }

  // ---------------------------------------------------------------------------
  // Operations

  /**
   `create_user(name)`: the id of the first user (in insertion order) called
   `name`, or else a new user `{id: freshId, name}` stored under `freshId`.
   */
  function CreateUser(s: Store, name: string, freshId: Id): (r: (Store, Id))
    requires freshId !in s.users.rows
    ensures (exists k :: k in s.users.rows && s.users.rows[k].name == name) ==>
      && r.0 == s
      && exists i :: IsFirstMatch(s.users, i, NameIs(name)) && r.1 == s.users.rows[s.users.keys[i]].id
    ensures (forall k :: k in s.users.rows ==> s.users.rows[k].name != name) ==>
      && r.1 == freshId
      && Get(r.0.users, freshId) == Some(User(freshId, name))
      && (forall k :: k != freshId ==> Get(r.0.users, k) == Get(s.users, k))
      && r.0.users.keys == s.users.keys + [freshId]
      && r.0.groups == s.groups
      && r.0.profiles == s.profiles
  {
    match FindFirst(s.users, NameIs(name))
    case Some(u) => (s, u.id)
    case None => (s.(users := Put(s.users, freshId, User(freshId, name))), freshId)
  }

  /**
   `create_group(name)`: the id of the first group called `name`, or else a
   new group `{id: freshId, name, members: []}` stored under `freshId`.
   */
  function CreateGroup(s: Store, name: string, freshId: Id): (r: (Store, Id))
    requires freshId !in s.groups.rows
    ensures (exists k :: k in s.groups.rows && s.groups.rows[k].name == name) ==>
      && r.0 == s
      && exists i :: IsFirstMatch(s.groups, i, GroupNameIs(name)) && r.1 == s.groups.rows[s.groups.keys[i]].id
    ensures (forall k :: k in s.groups.rows ==> s.groups.rows[k].name != name) ==>
      && r.1 == freshId
      && Get(r.0.groups, freshId) == Some(Group(freshId, name, []))
      && (forall k :: k != freshId ==> Get(r.0.groups, k) == Get(s.groups, k))
      && r.0.groups.keys == s.groups.keys + [freshId]
      && r.0.users == s.users
      && r.0.profiles == s.profiles
  {
    match FindFirst(s.groups, GroupNameIs(name))
    case Some(g) => (s, g.id)
    case None => (s.(groups := Put(s.groups, freshId, Group(freshId, name, []))), freshId)
  }

  /**
   `add_user_to_group(user_id, group_id)`: appends the user to the group's
   members unless the group is missing or the user is already a member. The
   user id is not looked up among the users.
   */
  function AddUserToGroup(s: Store, userId: Id, groupId: Id): (r: Store)
    ensures groupId !in s.groups.rows ==> r == s
    ensures groupId in s.groups.rows && userId in s.groups.rows[groupId].members ==> r == s
    ensures groupId in s.groups.rows && userId !in s.groups.rows[groupId].members ==>
      var g := s.groups.rows[groupId];
      && Get(r.groups, groupId) == Some(Group(g.id, g.name, g.members + [userId]))
      && (forall k :: k != groupId ==> Get(r.groups, k) == Get(s.groups, k))
      && r.groups.keys == s.groups.keys
      && r.users == s.users
      && r.profiles == s.profiles
  {
    match Get(s.groups, groupId)
    case None => s
    case Some(g) =>
      if userId in g.members then s
      else s.(groups := Put(s.groups, groupId, g.(members := g.members + [userId])))
  }

  /**
   `create_patient_profile(patient_id, viewer_group, editor_group)`: the id of
   the first profile owned by `owner`, whatever its groups; or else a new
   profile stored under `freshId` holding exactly the given fields.
   */
  function CreatePatientProfile(s: Store, owner: Id, viewerGroup: string, editorGroup: string, freshId: Id): (r: (Store, Id))
    requires freshId !in s.profiles.rows
    ensures (exists k :: k in s.profiles.rows && s.profiles.rows[k].owner == owner) ==>
      && r.0 == s
      && exists i :: IsFirstMatch(s.profiles, i, OwnerIs(owner)) && r.1 == s.profiles.rows[s.profiles.keys[i]].id
    ensures (forall k :: k in s.profiles.rows ==> s.profiles.rows[k].owner != owner) ==>
      && r.1 == freshId
      && Get(r.0.profiles, freshId) == Some(PatientProfile(freshId, owner, viewerGroup, editorGroup))
      && (forall k :: k != freshId ==> Get(r.0.profiles, k) == Get(s.profiles, k))
      && r.0.profiles.keys == s.profiles.keys + [freshId]
      && r.0.users == s.users
      && r.0.groups == s.groups
  {
    match FindFirst(s.profiles, OwnerIs(owner))
    case Some(p) => (s, p.id)
    case None =>
      (s.(profiles := Put(s.profiles, freshId, PatientProfile(freshId, owner, viewerGroup, editorGroup))), freshId)
  }

  /** `get_user(user_id)`: the record, or `None` for an unknown id. */
  function GetUser(s: Store, userId: Id): (r: Option<User>)
    ensures r.Some? <==> userId in s.users.rows
    ensures r.Some? ==> r.value == s.users.rows[userId]
  {
    Get(s.users, userId)
  }

  /** `get_group(group_id)`: the record, or `None` for an unknown id. */
  function GetGroup(s: Store, groupId: Id): (r: Option<Group>)
    ensures r.Some? <==> groupId in s.groups.rows
    ensures r.Some? ==> r.value == s.groups.rows[groupId]
  {
    Get(s.groups, groupId)
  }

  /** `get_patient_profile(profile_id)`: the record, or `None` for an unknown id. */
  function GetPatientProfile(s: Store, profileId: Id): (r: Option<PatientProfile>)
    ensures r.Some? <==> profileId in s.profiles.rows
    ensures r.Some? ==> r.value == s.profiles.rows[profileId]
  {
    Get(s.profiles, profileId)
  }
}
