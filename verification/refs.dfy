/**
 Namespaced references `<kind>:<id>` as the authorization service reads them
 (`user:…`, `group:…`, `permission:…`, `patient_profile:…`), and the
 `group:<id>#member` form meaning "any member of the group". Splitting at the
 first colon is the reference reading that the building functions invert.
 */
module Refs {
  import opened Wrappers

  /** The four namespaces of the authorization model. */
  datatype Kind = UserKind | GroupKind | PermissionKind | PatientProfileKind

  function KindName(k: Kind): (r: string)
    ensures ':' !in r
  {
    match k
    case UserKind => "user"
    case GroupKind => "group"
    case PermissionKind => "permission"
    case PatientProfileKind => "patient_profile"
  }

  /** The reference `<kind>:<id>`. */
  function Ref(k: Kind, id: string): string {
    KindName(k) + ":" + id
  }

  /** The userset of all members of a group. */
  function GroupMembersRef(groupId: string): string {
    Ref(GroupKind, groupId) + "#member"
  }

  /** The position of the first `c` in `s`. */
  function IndexOf(s: string, c: char): (r: Option<nat>)
    ensures r.None? <==> c !in s
    ensures r.Some? ==> r.value < |s| && s[r.value] == c && c !in s[..r.value]
  {
    if |s| == 0 then None
    else if s[0] == c then Some(0)
    else match IndexOf(s[1..], c)
      case None => None
      case Some(i) =>
        assert s[..i + 1] == [s[0]] + s[1..][..i];
        Some(i + 1)
  }

  /** A reference read back as (kind, id): split at the first colon. */
  function SplitRef(s: string): (r: Option<(string, string)>)
    ensures r.None? <==> ':' !in s
    ensures r.Some? ==> ':' !in r.value.0 && s == r.value.0 + ":" + r.value.1
  {
    match IndexOf(s, ':')
    case None => None
    case Some(i) =>
      assert s == s[..i] + ":" + s[i + 1..];
      Some((s[..i], s[i + 1..]))
  }

  /** A reference reads back as the kind and id it was built from, whatever the id holds. */
  lemma SplitRefRoundTrip(k: Kind, id: string)
    ensures SplitRef(Ref(k, id)) == Some((KindName(k), id))
  {
    var kind := KindName(k);
    var s := Ref(k, id);
    assert s == kind + (":" + id);
    IndexOfPastPrefix(kind, ":" + id, ':');
    assert s[..|kind|] == kind;
    assert s[|kind| + 1..] == id;
  }

  /** The first `c` of `p + q`, where `p` has none, is the first `c` of `q`, shifted by `|p|`. */
  lemma {:induction false} IndexOfPastPrefix(p: string, q: string, c: char)
    requires c !in p
    requires |q| > 0 && q[0] == c
    ensures IndexOf(p + q, c) == Some(|p|)
  {
    if |p| > 0 {
      assert (p + q)[1..] == p[1..] + q;
      IndexOfPastPrefix(p[1..], q, c);
    }
  }

  /** The namespace a reference reads back as, if it names one of the four kinds. */
  function KindOf(s: string): (r: Option<Kind>)
    ensures r.Some? ==> SplitRef(s).Some? && SplitRef(s).value.0 == KindName(r.value)
  {
    match SplitRef(s)
    case None => None
    case Some((name, _)) =>
      if name == "user" then Some(UserKind)
      else if name == "group" then Some(GroupKind)
      else if name == "permission" then Some(PermissionKind)
      else if name == "patient_profile" then Some(PatientProfileKind)
      else None
  }

  /** A reference of kind `k` reads back as kind `k`. */
  lemma KindOfRef(k: Kind, id: string)
    ensures KindOf(Ref(k, id)) == Some(k)
  {
    SplitRefRoundTrip(k, id);
  }

  /** The group id of a `group:<id>#member` userset, if `s` has that form. */
  function GroupOfMembersRef(s: string): (r: Option<string>)
    ensures r.Some? <==> exists g :: s == GroupMembersRef(g)
    ensures r.Some? ==> s == GroupMembersRef(r.value)
  {
    if |s| >= 13 && s[..6] == "group:" && s[|s| - 7..] == "#member" then
      assert s == GroupMembersRef(s[6..|s| - 7]);
      Some(s[6..|s| - 7])
    else
      GroupMembersRefShape();
      None
  }

  /** Every `group:<id>#member` userset starts with `group:` and ends with `#member`. */
  lemma GroupMembersRefShape()
    ensures forall g :: var s := GroupMembersRef(g);
      |s| >= 13 && s[..6] == "group:" && s[|s| - 7..] == "#member"
  {
  }

  /** A group's userset reads back as that group's id. */
  lemma GroupMembersRoundTrip(groupId: string)
    ensures GroupOfMembersRef(GroupMembersRef(groupId)) == Some(groupId)
  {
  }
}
