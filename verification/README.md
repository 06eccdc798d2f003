# FGA demo app: entity store, tuple derivation and authorization client

A Dafny model of the core of a small demo application that keeps users, groups
and patient profiles in an in-memory store, derives relationship tuples
`(user, relation, object)` from them for an OpenFGA authorization service, and
asks that service whether a user may act on a patient profile.

- `wrappers.dfy` (`Wrappers`): `Option`, standing for Python's `None`-or-value.
- `tables.dfy` (`Tables`): a Python dict keyed by id, kept as its rows plus its
  keys in insertion order, with `d.get`, `d[k] = v` and the first-match loop
  over `d.values()` that every find-or-create uses.
- `models.dfy` (`Models`): the entity store of `fga_demo_app/models.py` as an
  immutable value of three tables, and its operations as pure functions. Each
  creating operation takes a `freshId`, required not to be a key yet, in place
  of `uuid4()`.
- `store_properties.dfy` (`StoreProperties`): idempotence, preserved
  invariants (distinct names, distinct owners, no duplicate members, ids equal
  to keys) and what the getters return after each operation.
- `refs.dfy` (`Refs`): the four namespaces (`user`, `group`, `permission`,
  `patient_profile`), references `kind:id` and the userset `group:id#member`,
  with a reader that splits at the first colon and round-trip lemmas.
- `fga_client.dfy` (`FgaClient`): the subject rule and the reply decision of
  `check_permission_raw`, the verbatim subject of `assign_tuple_raw`, and the
  unconditional `user:` prefix of the SDK helpers. The remote call of each is a
  function parameter that maps the tuple key sent to the answer received.
- `routes.dfy` (`Routes`): the ordered tuple sequence written by the setup
  route, read back by permission, and the check route's request and answer.

## Model

| member | source | states |
|---|---|---|
| `Tables.FindFirst` | fga_demo_app/models.py:25-27 | the scan over the dict's values yields the first record in insertion order that matches, and nothing exactly when no record matches |
| `Models.CreateUser` | fga_demo_app/models.py:23-32 | with a user of that name present: the store is unchanged and the id of the first such user is returned; otherwise `{id: freshId, name}` is added at the end under `freshId`, `freshId` is returned and every other user, group and profile is unchanged |
| `Models.CreateGroup` | fga_demo_app/models.py:34-43 | the same find-or-create by name for groups; a new group has an empty member list |
| `Models.AddUserToGroup` | fga_demo_app/models.py:45-49 | no change when the group is missing or already lists the user; otherwise the user is appended at the end of that group's members and nothing else changes; the user id is not checked against the users |
| `Models.CreatePatientProfile` | fga_demo_app/models.py:51-70 | find-or-create keyed on the owner only: an existing profile of that owner is returned with the store unchanged; otherwise a profile holding exactly the given id, owner and two group values is added under `freshId` and nothing else changes |
| `Models.GetUser` | fga_demo_app/models.py:74-75 | the stored record when the id is a key, `None` otherwise |
| `Models.GetGroup` | fga_demo_app/models.py:77-78 | the stored record when the id is a key, `None` otherwise |
| `Models.GetPatientProfile` | fga_demo_app/models.py:80-81 | the stored record when the id is a key, `None` otherwise |
| `StoreProperties.InitialStoreGood` | fga_demo_app/models.py:13-17 | the empty store satisfies every store invariant and every getter answers `None` on it |
| `StoreProperties.CreateUserIdempotent` | fga_demo_app/models.py:23-32 | a second `create_user` with the same name returns the first call's id and leaves the store as the first call left it |
| `StoreProperties.CreateUserFinds` | fga_demo_app/models.py:25-32 | when record ids equal their keys, the returned id looks up a user with exactly that id and name |
| `StoreProperties.CreateUserPreservesGood` | fga_demo_app/models.py:23-32 | user names stay pairwise distinct, and every other invariant is kept |
| `StoreProperties.CreateGroupIdempotent` | fga_demo_app/models.py:34-43 | a second `create_group` with the same name returns the first id and changes nothing |
| `StoreProperties.CreateGroupFinds` | fga_demo_app/models.py:36-43 | when record ids equal their keys, the returned id looks up a group of that name |
| `StoreProperties.CreateGroupPreservesGood` | fga_demo_app/models.py:34-43 | group names stay pairwise distinct, and every other invariant is kept |
| `StoreProperties.AddUserToGroupIdempotent` | fga_demo_app/models.py:45-49 | adding the same user to the same group a second time changes nothing |
| `StoreProperties.AddUserToGroupPreservesGood` | fga_demo_app/models.py:46-48 | no group's member list gains a duplicate, and every other invariant is kept |
| `StoreProperties.AddUserToGroupMemberOnce` | fga_demo_app/models.py:46-48 | after the call an existing group lists the user exactly once |
| `StoreProperties.OccursOnce` | fga_demo_app/models.py:47 | an id in a member list without duplicates occurs in it exactly once |
| `StoreProperties.CreatePatientProfileKeyedOnOwner` | fga_demo_app/models.py:53-59 | a second call for the same owner returns the original profile id and leaves the store unchanged, whatever viewer and editor groups it passes |
| `StoreProperties.CreatePatientProfileFinds` | fga_demo_app/models.py:51-70 | when record ids equal their keys, the returned id looks up a profile of that owner |
| `StoreProperties.CreatePatientProfilePreservesGood` | fga_demo_app/models.py:51-70 | profile owners stay pairwise distinct, and every other invariant is kept |
| `Refs.SplitRefRoundTrip` | fga_demo_app/routes.py:39-41 | a reference `kind:id` reads back, split at its first colon, as that kind and id, whatever the id holds |
| `Refs.GroupMembersRoundTrip` | fga_demo_app/routes.py:45 | a `group:<id>#member` userset reads back as its group id |
| `FgaClient.NormalizeSubject` | fga_demo_app/fga_client.py:101-104 | a subject containing a colon is sent unchanged; any other is sent as the user reference `user:<subject>`; the result always has a colon |
| `FgaClient.NormalizeSubjectIdempotent` | fga_demo_app/fga_client.py:101-104 | normalising twice gives the same subject as normalising once |
| `FgaClient.CheckDecision` | fga_demo_app/fga_client.py:121-126 | on any status other than 200 the answer is false whatever the body; on 200 it raises exactly when the body is not a JSON object, and it is true exactly when `allowed` is present and true (absent `allowed` gives false) |
| `FgaClient.CheckPermissionRaw` | fga_demo_app/fga_client.py:99-126 | the check request carries the normalised subject, the relation and the object unchanged; the call raises exactly on a 200 reply whose body is not a JSON object, and answers true exactly on a 200 reply that allows |
| `FgaClient.AssignTupleRaw` | fga_demo_app/fga_client.py:35-66 | the write request carries the user string verbatim; a 200 reply ends as written, any other status is logged and returned, never raised |
| `FgaClient.AssignTuple` | fga_demo_app/fga_client.py:68-84 | the SDK write always sends `user:<user>`, and a failed write is raised |
| `FgaClient.CheckPermission` | fga_demo_app/fga_client.py:86-97 | the SDK check always sends `user:<user>` and returns the SDK's `allowed` |
| `FgaClient.SdkSubjectAgreesOnlyWithoutNamespace` | fga_demo_app/fga_client.py:86-104 | the SDK check and the raw check send the same request exactly when the subject has no colon |
| `FgaClient.SdkDoublePrefix` | fga_demo_app/fga_client.py:74-78 | `user:x` given to the SDK helpers goes out as `user:user:x`, while the raw check sends `user:x` |
| `Routes.GrantTuples` | fga_demo_app/routes.py:44-47 | one `granted_to` tuple per group id, in list order, with subject `group:<id>#member` and object `permission:<permission id>` |
| `Routes.SetupTuples` | fga_demo_app/routes.py:39-50 | the written tuples are, in order, the owner tuple, the viewer and editor permission attachments, the viewer grants, the editor grants, then the memberships of bob and chris; there are 5 plus the two grant counts |
| `Routes.GrantedGroupsAppend` | fga_demo_app/routes.py:44-47 | reading grants back distributes over concatenation of tuple sequences |
| `Routes.NoGrantsWithoutGrantedTo` | fga_demo_app/routes.py:39-41 | tuples of other relations grant nothing |
| `Routes.GrantTuplesReadBack` | fga_demo_app/routes.py:44-45 | the grant tuples of a permission read back as exactly the group list they came from |
| `Routes.GrantTuplesOtherPermission` | fga_demo_app/routes.py:46-47 | the grant tuples of one permission grant nothing on a different permission |
| `Routes.SetupGrantsReadBack` | fga_demo_app/routes.py:39-50 | when the two permissions differ, the setup tuples grant each permission exactly its own group list, in order |
| `Routes.SetupTuplesNamespaced` | fga_demo_app/routes.py:39-50 | every written subject reads back as a user, permission or group reference and every object as a profile, permission or group reference |
| `Routes.SetupTupleKinds` | fga_demo_app/routes.py:39-50 | by position: the owner and membership subjects are users, the attachment subjects permissions, the grant subjects groups; attachment objects are profiles, grant objects permissions, membership objects groups |
| `Routes.CheckQuery` | fga_demo_app/routes.py:59-60 | the route's check asks about the object that reads back as the profile reference of `profile_id`, with the normalised user id and the action as relation |
| `Routes.CheckRoute` | fga_demo_app/routes.py:57-63 | the route answers with the user's name, the action, the owner's name and the decision for its query; it raises exactly when the check call raises or the profile, the user or the owner is unknown |
| `Routes.CheckRouteAfterCreate` | fga_demo_app/routes.py:57-63 | after creating a user and a profile owned by it, checking that profile as that user answers whenever the check call does, naming the user as asker and owner |
| `Routes.SetupNeedsRawWriter` | fga_demo_app/fga_client.py:35-84 | every setup tuple goes out unchanged through the raw writer, while the SDK writer would send a `user:` reference whose id still holds a namespace colon |

## Left out

- Loading the store from `data_store.json` and rewriting it after each change (`fga_demo_app/models.py:9-21`, `save_data`): file I/O with no logic beyond the empty initial store, which is `Models.InitialStore`.
- `uuid4()`: replaced by a caller-supplied `freshId` that is not yet a key of the table being extended.
- A loaded store may break the invariants (a record whose `id` differs from its key, a repeated name); the operations are defined on any store, and the lemmas that need an invariant state it in their `requires`.
- The environment variables, URLs, headers, SDK client configuration and every HTTP or SDK call (`fga_demo_app/fga_client.py:1-26`, `58-59`, `96`, `119-120`): network and foreign library code. Each call is a function parameter; exceptions raised by the transport itself are not modelled, and neither is the text printed to the log beyond which branch printed it.
- `FgaClient.CheckDecision`: models the `allowed` field of a JSON object body as an optional boolean; an `allowed` holding some other JSON value, which Python would return as is, is not modelled. Bodies that are not JSON or not an object are modelled as raising.
- The authorization service's evaluation of relations (whether a member of a granted group may view a profile): opaque and remote, so no "allowed" outcome is derived from the tuples.
- The rest of the setup route (`fga_demo_app/routes.py:8-36` and `52-55`): it calls `create_permission`, `add_group_to_permission` and `get_permission`, which `fga_demo_app/models.py` does not define, and passes `viewer_permission`/`editor_permission` keywords to `create_patient_profile`, whose parameters are `viewer_group`/`editor_group`; as written the route raises before any tuple is written. The tuple sequence it would write is modelled with the two grant lists as inputs.
- The FastAPI application and router wiring, the `/hello` route and the asynchronous scheduling of handlers (`fga_demo_app/main.py`): framework plumbing.
- `Models.AddUserToGroup`: the source's `if group` tests the truthiness of the record; every stored group record is a non-empty dict, so this is modelled as "the group id is a key".

## Notes on the source

- `setup_demo` passes `viewer_permission`/`editor_permission` keywords to `create_patient_profile` (`fga_demo_app/routes.py:32-36`), whose parameters are `viewer_group`/`editor_group` (`fga_demo_app/models.py:51`); the model follows the definition.
- The `raise_for_status()` call in `assign_tuple_raw` is commented out (`fga_demo_app/fga_client.py:66`), so a failed raw write only prints; `FgaClient.AssignTupleRaw` never raises.
- `setup_demo` calls `create_permission`, `add_group_to_permission` and `get_permission` (`fga_demo_app/routes.py:24-29`, `44-46`), which `fga_demo_app/models.py` does not define; the store has no permissions table, so permissions are not part of this model.
