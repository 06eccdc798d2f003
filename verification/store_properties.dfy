/**
 Properties of the entity store that relate several calls: idempotence of the
 find-or-create operations, the invariants they preserve, and what the getters
 return afterwards.
 */
module StoreProperties {
  import opened Wrappers
  import opened Tables
  import opened Models

  /** The empty store satisfies every invariant and knows no id. */
  lemma InitialStoreGood(id: Id)
    ensures Good(InitialStore())
    ensures GetUser(InitialStore(), id) == None
    ensures GetGroup(InitialStore(), id) == None
    ensures GetPatientProfile(InitialStore(), id) == None
  {
  }

  // ---------------------------------------------------------------------------
  // Users

  /** Creating the same user twice: the second call returns the first id and changes nothing. */
  lemma CreateUserIdempotent(s: Store, name: string, freshId: Id, freshId': Id)
    requires freshId !in s.users.rows
    requires freshId' !in CreateUser(s, name, freshId).0.users.rows
    ensures CreateUser(CreateUser(s, name, freshId).0, name, freshId') == CreateUser(s, name, freshId)
  {
  }

  /** After `create_user(name)` the returned id names a user called `name`. */
  lemma CreateUserFinds(s: Store, name: string, freshId: Id)
    requires freshId !in s.users.rows
    requires IdsMatchKeys(s)
    ensures GetUser(CreateUser(s, name, freshId).0, CreateUser(s, name, freshId).1)
         == Some(User(CreateUser(s, name, freshId).1, name))
  {
  }

  /** A user is only ever added under a name no user has, so names stay distinct. */
  lemma CreateUserPreservesGood(s: Store, name: string, freshId: Id)
    requires freshId !in s.users.rows
    requires Good(s)
    ensures Good(CreateUser(s, name, freshId).0)
  {
  }

  // ---------------------------------------------------------------------------
  // Groups

  /** Creating the same group twice: the second call returns the first id and changes nothing. */
  lemma CreateGroupIdempotent(s: Store, name: string, freshId: Id, freshId': Id)
    requires freshId !in s.groups.rows
    requires freshId' !in CreateGroup(s, name, freshId).0.groups.rows
    ensures CreateGroup(CreateGroup(s, name, freshId).0, name, freshId') == CreateGroup(s, name, freshId)
  {
  }

  /** After `create_group(name)` the returned id names a group called `name`. */
  lemma CreateGroupFinds(s: Store, name: string, freshId: Id)
    requires freshId !in s.groups.rows
    requires IdsMatchKeys(s)
    ensures GetGroup(CreateGroup(s, name, freshId).0, CreateGroup(s, name, freshId).1).Some?
    ensures GetGroup(CreateGroup(s, name, freshId).0, CreateGroup(s, name, freshId).1).value.name == name
  {
  }

  /** A group is only ever added under a name no group has, so names stay distinct. */
  lemma CreateGroupPreservesGood(s: Store, name: string, freshId: Id)
    requires freshId !in s.groups.rows
    requires Good(s)
    ensures Good(CreateGroup(s, name, freshId).0)
  {
  }

  // ---------------------------------------------------------------------------
  // Membership

  /** Adding the same member twice changes nothing the second time. */
  lemma AddUserToGroupIdempotent(s: Store, userId: Id, groupId: Id)
    ensures AddUserToGroup(AddUserToGroup(s, userId, groupId), userId, groupId) == AddUserToGroup(s, userId, groupId)
  {
  }

  /** A member is only ever appended when absent, so member lists stay free of duplicates. */
  lemma AddUserToGroupPreservesGood(s: Store, userId: Id, groupId: Id)
    requires Good(s)
    ensures Good(AddUserToGroup(s, userId, groupId))
  {
  }

  lemma AppendNewKeepsNoDuplicates(xs: seq<Id>, x: Id)
    requires NoDuplicates(xs)
    requires x !in xs
    ensures NoDuplicates(xs + [x])
  {
  }

  /**
   However often a user is added to an existing group, afterwards it is listed
   there exactly once.
   */
  lemma AddUserToGroupMemberOnce(s: Store, userId: Id, groupId: Id)
    requires MembersDistinct(s)
    requires groupId in s.groups.rows
    ensures GetGroup(AddUserToGroup(s, userId, groupId), groupId).Some?
    ensures multiset(GetGroup(AddUserToGroup(s, userId, groupId), groupId).value.members)[userId] == 1
  {
    var s1 := AddUserToGroup(s, userId, groupId);
    var g := s.groups.rows[groupId];
    if userId in g.members {
      OccursOnce(g.members, userId);
    } else {
      assert Get(s1.groups, groupId) == Some(Group(g.id, g.name, g.members + [userId]));
      AppendNewKeepsNoDuplicates(g.members, userId);
      OccursOnce(g.members + [userId], userId);
    }
  }

  /** In a list without duplicates, each listed id occurs exactly once. */
  lemma {:induction false} OccursOnce(xs: seq<Id>, x: Id)
    requires NoDuplicates(xs)
    requires x in xs
    ensures multiset(xs)[x] == 1
  {
    assert xs == [xs[0]] + xs[1..];
    assert NoDuplicates(xs[1..]);
    if xs[0] == x {
      assert x !in xs[1..];
      assert multiset(xs[1..])[x] == 0;
    } else {
      OccursOnce(xs[1..], x);
    }
  }

  // ---------------------------------------------------------------------------
  // Patient profiles

  /**
   A second `create_patient_profile` for the same owner returns the original
   profile id and changes nothing, whatever groups it passes.
   */
  lemma CreatePatientProfileKeyedOnOwner(s: Store, owner: Id, viewerGroup: string, editorGroup: string, freshId: Id,
                                         viewerGroup': string, editorGroup': string, freshId': Id)
    requires freshId !in s.profiles.rows
    requires freshId' !in CreatePatientProfile(s, owner, viewerGroup, editorGroup, freshId).0.profiles.rows
    ensures CreatePatientProfile(CreatePatientProfile(s, owner, viewerGroup, editorGroup, freshId).0,
                                 owner, viewerGroup', editorGroup', freshId')
         == CreatePatientProfile(s, owner, viewerGroup, editorGroup, freshId)
  {
  }

  /** After `create_patient_profile` the returned id names a profile of that owner. */
  lemma CreatePatientProfileFinds(s: Store, owner: Id, viewerGroup: string, editorGroup: string, freshId: Id)
    requires freshId !in s.profiles.rows
    requires IdsMatchKeys(s)
    ensures GetPatientProfile(CreatePatientProfile(s, owner, viewerGroup, editorGroup, freshId).0,
                              CreatePatientProfile(s, owner, viewerGroup, editorGroup, freshId).1).Some?
    ensures GetPatientProfile(CreatePatientProfile(s, owner, viewerGroup, editorGroup, freshId).0,
                              CreatePatientProfile(s, owner, viewerGroup, editorGroup, freshId).1).value.owner == owner
  {
  }

  /** A profile is only ever added for an owner without one, so owners stay distinct. */
  lemma CreatePatientProfilePreservesGood(s: Store, owner: Id, viewerGroup: string, editorGroup: string, freshId: Id)
    requires freshId !in s.profiles.rows
    requires Good(s)
    ensures Good(CreatePatientProfile(s, owner, viewerGroup, editorGroup, freshId).0)
  {
  }
}
