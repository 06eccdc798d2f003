/**
 The two route handlers' pure parts: the ordered relationship tuples that the
 setup route writes, and the request and answer of the check route.
 */
module Routes {
  import opened Wrappers
  import opened Tables
  import opened Refs
  import opened FgaClient
  import opened Models
  import StoreProperties

  /** The ids the setup route holds when it starts writing tuples. */
  datatype SetupIds = SetupIds(alice: Id, bob: Id, chris: Id, viewerGroup: Id, editorGroup: Id,
                               viewerPermission: Id, editorPermission: Id, profile: Id)

  /** One `granted_to` tuple per group id, in list order, from the group's members to the permission. */
  function GrantTuples(groupIds: seq<Id>, permissionId: Id): (r: seq<TupleKey>)
    ensures |r| == |groupIds|
    ensures forall i :: 0 <= i < |r| ==>
      r[i] == TupleKey(GroupMembersRef(groupIds[i]), "granted_to", Ref(PermissionKind, permissionId))
  {
    if |groupIds| == 0 then []
    else
      [TupleKey(GroupMembersRef(groupIds[0]), "granted_to", Ref(PermissionKind, permissionId))]
      + GrantTuples(groupIds[1..], permissionId)
  }

  /**
   The tuples the setup route writes, in order: the owner, the two permission
   attachments, the grants of the viewer permission, the grants of the editor
   permission, and the two memberships.
   */
  function SetupTuples(ids: SetupIds, viewerGrants: seq<Id>, editorGrants: seq<Id>): (r: seq<TupleKey>)
    ensures |r| == 5 + |viewerGrants| + |editorGrants|
    ensures r[0] == TupleKey(Ref(UserKind, ids.alice), "owner", Ref(PatientProfileKind, ids.profile))
    ensures r[1] == TupleKey(Ref(PermissionKind, ids.viewerPermission), "viewer_permission", Ref(PatientProfileKind, ids.profile))
    ensures r[2] == TupleKey(Ref(PermissionKind, ids.editorPermission), "editor_permission", Ref(PatientProfileKind, ids.profile))
    ensures forall i :: 0 <= i < |viewerGrants| ==>
      r[3 + i] == TupleKey(GroupMembersRef(viewerGrants[i]), "granted_to", Ref(PermissionKind, ids.viewerPermission))
    ensures forall i :: 0 <= i < |editorGrants| ==>
      r[3 + |viewerGrants| + i] == TupleKey(GroupMembersRef(editorGrants[i]), "granted_to", Ref(PermissionKind, ids.editorPermission))
    ensures r[|r| - 2] == TupleKey(Ref(UserKind, ids.bob), "member", Ref(GroupKind, ids.viewerGroup))
    ensures r[|r| - 1] == TupleKey(Ref(UserKind, ids.chris), "member", Ref(GroupKind, ids.editorGroup))
  {
    var profile := Ref(PatientProfileKind, ids.profile);
    var attachments :=
      [ TupleKey(Ref(UserKind, ids.alice), "owner", profile),
        TupleKey(Ref(PermissionKind, ids.viewerPermission), "viewer_permission", profile),
        TupleKey(Ref(PermissionKind, ids.editorPermission), "editor_permission", profile) ];
    var grants := GrantTuples(viewerGrants, ids.viewerPermission) + GrantTuples(editorGrants, ids.editorPermission);
    var memberships :=
      [ TupleKey(Ref(UserKind, ids.bob), "member", Ref(GroupKind, ids.viewerGroup)),
        TupleKey(Ref(UserKind, ids.chris), "member", Ref(GroupKind, ids.editorGroup)) ];
    assert forall i :: 0 <= i < |grants| ==> (attachments + grants + memberships)[3 + i] == grants[i];
    attachments + grants + memberships
  }

  // ---------------------------------------------------------------------------
  // Reading the grants back

  /** The groups a tuple sequence grants a permission to, in order. */
  function GrantedGroups(ts: seq<TupleKey>, permissionId: Id): (r: seq<Id>)
  {
    if |ts| == 0 then []
    else
      var rest := GrantedGroups(ts[1..], permissionId);
      if ts[0].relation == "granted_to" && ts[0].obj == Ref(PermissionKind, permissionId) then
        match GroupOfMembersRef(ts[0].user)
        case Some(g) => [g] + rest
        case None => rest
      else rest
  }

  lemma {:induction false} GrantedGroupsAppend(a: seq<TupleKey>, b: seq<TupleKey>, permissionId: Id)
    ensures GrantedGroups(a + b, permissionId) == GrantedGroups(a, permissionId) + GrantedGroups(b, permissionId)
  {
    if |a| == 0 {
      assert a + b == b;
    } else {
      assert (a + b)[1..] == a[1..] + b;
      GrantedGroupsAppend(a[1..], b, permissionId);
    }
  }

  /** Tuples of other relations grant nothing. */
  lemma {:induction false} NoGrantsWithoutGrantedTo(ts: seq<TupleKey>, permissionId: Id)
    requires forall i :: 0 <= i < |ts| ==> ts[i].relation != "granted_to"
    ensures GrantedGroups(ts, permissionId) == []
  {
    if |ts| > 0 {
      NoGrantsWithoutGrantedTo(ts[1..], permissionId);
    }
  }

  /** The grants of a permission read back as exactly the group list they came from. */
  lemma {:induction false} GrantTuplesReadBack(groupIds: seq<Id>, permissionId: Id)
    ensures GrantedGroups(GrantTuples(groupIds, permissionId), permissionId) == groupIds
  {
    if |groupIds| > 0 {
      GroupMembersRoundTrip(groupIds[0]);
      assert GrantTuples(groupIds, permissionId)[1..] == GrantTuples(groupIds[1..], permissionId);
      GrantTuplesReadBack(groupIds[1..], permissionId);
    }
  }

  /** The grants of one permission read back as nothing for another. */
  lemma {:induction false} GrantTuplesOtherPermission(groupIds: seq<Id>, permissionId: Id, other: Id)
    requires other != permissionId
    ensures GrantedGroups(GrantTuples(groupIds, permissionId), other) == []
  {
    RefInjective(PermissionKind, permissionId, other);
    if |groupIds| > 0 {
      assert GrantTuples(groupIds, permissionId)[1..] == GrantTuples(groupIds[1..], permissionId);
      GrantTuplesOtherPermission(groupIds[1..], permissionId, other);
    }
  }

  lemma RefInjective(k: Kind, a: string, b: string)
    requires a != b
    ensures Ref(k, a) != Ref(k, b)
  {
    var n := |KindName(k)| + 1;
    assert Ref(k, a)[n..] == a;
    assert Ref(k, b)[n..] == b;
  }

  /** Of the setup tuples, only the two grant blocks grant anything. */
  lemma SetupGrantsOnlyFromGrantBlocks(ids: SetupIds, viewerGrants: seq<Id>, editorGrants: seq<Id>, p: Id)
    ensures GrantedGroups(SetupTuples(ids, viewerGrants, editorGrants), p)
         == GrantedGroups(GrantTuples(viewerGrants, ids.viewerPermission), p)
          + GrantedGroups(GrantTuples(editorGrants, ids.editorPermission), p)
  {
    var profile := Ref(PatientProfileKind, ids.profile);
    var head := [ TupleKey(Ref(UserKind, ids.alice), "owner", profile),
                  TupleKey(Ref(PermissionKind, ids.viewerPermission), "viewer_permission", profile),
                  TupleKey(Ref(PermissionKind, ids.editorPermission), "editor_permission", profile) ];
    var vt := GrantTuples(viewerGrants, ids.viewerPermission);
    var et := GrantTuples(editorGrants, ids.editorPermission);
    var tail := [ TupleKey(Ref(UserKind, ids.bob), "member", Ref(GroupKind, ids.viewerGroup)),
                  TupleKey(Ref(UserKind, ids.chris), "member", Ref(GroupKind, ids.editorGroup)) ];
    var r := SetupTuples(ids, viewerGrants, editorGrants);
    assert r == head + (vt + et) + tail;
    NoGrantsWithoutGrantedTo(head, p);
    NoGrantsWithoutGrantedTo(tail, p);
    GrantedGroupsAppend(vt, et, p);
    GrantedGroupsAppend(head, vt + et, p);
    GrantedGroupsAppend(head + (vt + et), tail, p);
  }

  /**
   From the setup tuples, the groups granted each permission read back as the
   permission's grant list, provided the two permissions are different.
   */
  lemma SetupGrantsReadBack(ids: SetupIds, viewerGrants: seq<Id>, editorGrants: seq<Id>)
    requires ids.viewerPermission != ids.editorPermission
    ensures GrantedGroups(SetupTuples(ids, viewerGrants, editorGrants), ids.viewerPermission) == viewerGrants
    ensures GrantedGroups(SetupTuples(ids, viewerGrants, editorGrants), ids.editorPermission) == editorGrants
  {
    SetupGrantsOnlyFromGrantBlocks(ids, viewerGrants, editorGrants, ids.viewerPermission);
    SetupGrantsOnlyFromGrantBlocks(ids, viewerGrants, editorGrants, ids.editorPermission);
    GrantTuplesReadBack(viewerGrants, ids.viewerPermission);
    GrantTuplesReadBack(editorGrants, ids.editorPermission);
    GrantTuplesOtherPermission(editorGrants, ids.editorPermission, ids.viewerPermission);
    GrantTuplesOtherPermission(viewerGrants, ids.viewerPermission, ids.editorPermission);
  }

  /**
   Every subject and object the setup route writes carries a namespace:
   subjects are users, permissions or groups, objects are profiles,
   permissions or groups.
   */
  lemma SetupTuplesNamespaced(ids: SetupIds, viewerGrants: seq<Id>, editorGrants: seq<Id>)
    ensures forall t :: t in SetupTuples(ids, viewerGrants, editorGrants) ==>
      && KindOf(t.user) in {Some(UserKind), Some(PermissionKind), Some(GroupKind)}
      && KindOf(t.obj) in {Some(PatientProfileKind), Some(PermissionKind), Some(GroupKind)}
  {
    var r := SetupTuples(ids, viewerGrants, editorGrants);
    forall i | 0 <= i < |r|
      ensures KindOf(r[i].user) in {Some(UserKind), Some(PermissionKind), Some(GroupKind)}
      ensures KindOf(r[i].obj) in {Some(PatientProfileKind), Some(PermissionKind), Some(GroupKind)}
    {
      SetupTupleKinds(ids, viewerGrants, editorGrants, i);
    }
  }

  /** The namespaces of the `i`-th setup tuple, by position. */
  lemma SetupTupleKinds(ids: SetupIds, viewerGrants: seq<Id>, editorGrants: seq<Id>, i: nat)
    requires i < 5 + |viewerGrants| + |editorGrants|
    ensures var t := SetupTuples(ids, viewerGrants, editorGrants)[i];
      && KindOf(t.user) == (if i == 0 || i >= 3 + |viewerGrants| + |editorGrants| then Some(UserKind)
                            else if i < 3 then Some(PermissionKind) else Some(GroupKind))
      && KindOf(t.obj) == (if i < 3 then Some(PatientProfileKind)
                           else if i < 3 + |viewerGrants| + |editorGrants| then Some(PermissionKind)
                           else Some(GroupKind))
  {
    var r := SetupTuples(ids, viewerGrants, editorGrants);
    var n := 3 + |viewerGrants|;
    if i < 3 {
      KindOfRef(PatientProfileKind, ids.profile);
      if i == 0 {
        KindOfRef(UserKind, ids.alice);
      } else {
        KindOfRef(PermissionKind, if i == 1 then ids.viewerPermission else ids.editorPermission);
      }
    } else if i < n {
      assert r[3 + (i - 3)] == r[i];
      GrantKinds(viewerGrants[i - 3], ids.viewerPermission);
    } else if i < n + |editorGrants| {
      assert r[n + (i - n)] == r[i];
      GrantKinds(editorGrants[i - n], ids.editorPermission);
    } else {
      KindOfRef(UserKind, if i == |r| - 2 then ids.bob else ids.chris);
      KindOfRef(GroupKind, if i == |r| - 2 then ids.viewerGroup else ids.editorGroup);
    }
  }

  /** A grant's subject reads back as a group and its object as a permission. */
  lemma GrantKinds(groupId: Id, permissionId: Id)
    ensures KindOf(GroupMembersRef(groupId)) == Some(GroupKind)
    ensures KindOf(Ref(PermissionKind, permissionId)) == Some(PermissionKind)
  {
    assert GroupMembersRef(groupId) == Ref(GroupKind, groupId + "#member");
    KindOfRef(GroupKind, groupId + "#member");
    KindOfRef(PermissionKind, permissionId);
  }

  // ---------------------------------------------------------------------------
  // The check route

  /** The route's answer: the user's name, the action, the profile owner's name and the decision. */
  datatype CheckView = CheckView(user: string, action: string, ownerName: string, allowed: bool)

  /** The tuple key the check route asks about. */
  function CheckQuery(userId: Id, action: string, profileId: Id): (k: TupleKey)
    ensures k.user == NormalizeSubject(userId)
    ensures k.relation == action
    ensures KindOf(k.obj) == Some(PatientProfileKind) && SplitRef(k.obj).value.1 == profileId
  {
    KindOfRef(PatientProfileKind, profileId);
    SplitRefRoundTrip(PatientProfileKind, profileId);
    TupleKey(NormalizeSubject(userId), action, Ref(PatientProfileKind, profileId))
  }

  /**
   `check(user_id, action, profile_id)`: asks about `patient_profile:<profile_id>`
   with the user id and action passed through, then looks up the names to show.
   `None` stands for the route raising: because the check call raised, or
   because the profile, the user or the profile's owner is unknown.
   */
  function CheckRoute(s: Store, userId: Id, action: string, profileId: Id,
                      post: TupleKey -> CheckReply): (r: Option<CheckView>)
    ensures r.Some? <==>
      && CheckDecision(post(CheckQuery(userId, action, profileId))).Some?
      && profileId in s.profiles.rows
      && userId in s.users.rows
      && s.profiles.rows[profileId].owner in s.users.rows
    ensures r.Some? ==>
      && r.value.user == s.users.rows[userId].name
      && r.value.action == action
      && r.value.ownerName == s.users.rows[s.profiles.rows[profileId].owner].name
      && (r.value.allowed <==>
            post(CheckQuery(userId, action, profileId)) == CheckReply(200, JsonObject(Some(true))))
  {
    var call := CheckPermissionRaw(userId, action, Ref(PatientProfileKind, profileId), post);
    match call.decision
    case None => None
    case Some(allowed) =>
      match GetPatientProfile(s, profileId)
      case None => None
      case Some(p) =>
        match (GetUser(s, userId), GetUser(s, p.owner))
        case (Some(u), Some(o)) => Some(CheckView(u.name, action, o.name, allowed))
        case _ => None
  }

  /**
   A user created and then given a profile can ask about that profile: the
   route answers whenever the check call does, and shows the user as both the
   asker and the owner.
   */
  lemma CheckRouteAfterCreate(s: Store, name: string, userId: Id, viewerGroup: string, editorGroup: string,
                              profileId: Id, action: string, post: TupleKey -> CheckReply)
    requires Good(s)
    requires userId !in s.users.rows
    requires profileId !in CreateUser(s, name, userId).0.profiles.rows
    ensures var (s1, a) := CreateUser(s, name, userId);
      var (s2, p) := CreatePatientProfile(s1, a, viewerGroup, editorGroup, profileId);
      var r := CheckRoute(s2, a, action, p, post);
      && (r.Some? <==> CheckDecision(post(CheckQuery(a, action, p))).Some?)
      && (r.Some? ==> r.value.user == name && r.value.ownerName == name)
  {
    var (s1, a) := CreateUser(s, name, userId);
    StoreProperties.CreateUserFinds(s, name, userId);
    StoreProperties.CreateUserPreservesGood(s, name, userId);
    StoreProperties.CreatePatientProfileFinds(s1, a, viewerGroup, editorGroup, profileId);
  }

  /**
   The setup route must write through the raw writer: it sends each setup
   tuple unchanged, whereas the SDK writer would nest the already namespaced
   subject inside a `user:` reference whose id still holds a colon.
   */
  lemma SetupNeedsRawWriter(ids: SetupIds, viewerGrants: seq<Id>, editorGrants: seq<Id>, i: nat,
                            post: TupleKey -> int, write: TupleKey -> bool)
    requires i < 5 + |viewerGrants| + |editorGrants|
    ensures var t := SetupTuples(ids, viewerGrants, editorGrants)[i];
      && AssignTupleRaw(t.user, t.relation, t.obj, post).sent == t
      && KindOf(AssignTuple(t.user, t.relation, t.obj, write).sent.user) == Some(UserKind)
      && ':' in SplitRef(AssignTuple(t.user, t.relation, t.obj, write).sent.user).value.1
  {
    var t := SetupTuples(ids, viewerGrants, editorGrants)[i];
    SetupTupleKinds(ids, viewerGrants, editorGrants, i);
    KindOfRef(UserKind, t.user);
  }
}
