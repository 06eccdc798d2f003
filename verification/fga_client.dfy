/**
 The request-building and reply-reading logic of the authorization client.
 The HTTP and SDK calls themselves are function parameters: each takes the
 tuple key that would be sent and gives back what the service answered.
 */
module FgaClient {
  import opened Wrappers
  import opened Refs

  /** One relationship tuple as sent to the service: `{user, relation, object}`. */
  datatype TupleKey = TupleKey(user: string, relation: string, obj: string)

  /**
   The body of a check reply as `response.json()` and `data.get` see it: not
   JSON at all, JSON that is not an object, or an object with or without a
   boolean `allowed` field.
   */
  datatype ReplyBody = NotJson | NotAnObject | JsonObject(allowed: Option<bool>)

  /** The check endpoint's HTTP status and body. */
  datatype CheckReply = CheckReply(status: int, body: ReplyBody)

  /** A check request: the tuple key sent and the decision returned, `None` when the call raised. */
  datatype CheckCall = CheckCall(sent: TupleKey, decision: Option<bool>)

  /**
   How a tuple write ended: it returned after a successful write, it returned
   after logging an error status, or it raised.
   */
  datatype WriteOutcome = Written | LoggedError(status: int) | Raised

  /** A write request: the tuple key sent and how the call ended. */
  datatype WriteCall = WriteCall(sent: TupleKey, outcome: WriteOutcome)

  /**
   The subject rule of `check_permission_raw`: a string that already has a
   namespace (contains a colon) is sent as is, any other is taken as a user id.
   */
  function NormalizeSubject(user: string): (r: string)
    ensures ':' in r
    ensures ':' in user ==> r == user
    ensures ':' !in user ==> SplitRef(r) == Some((KindName(UserKind), user))
  {
    if ':' in user then user
    else
      SplitRefRoundTrip(UserKind, user);
      Ref(UserKind, user)
  }

  /** Normalising an already normalised subject changes nothing. */
  lemma NormalizeSubjectIdempotent(user: string)
    ensures NormalizeSubject(NormalizeSubject(user)) == NormalizeSubject(user)
  {
  }

  /**
   The decision of `check_permission_raw`: on status 200 the body's `allowed`
   field, false when that field is absent, and a raise (`None`) when the body
   is not a JSON object; false on every other status, whatever the body.
   */
  function CheckDecision(reply: CheckReply): (r: Option<bool>)
    ensures r.None? <==> reply.status == 200 && !reply.body.JsonObject?
    ensures r == Some(true) <==> reply == CheckReply(200, JsonObject(Some(true)))
    ensures reply.status != 200 ==> r == Some(false)
  {
    if reply.status != 200 then Some(false)
    else match reply.body
      case JsonObject(allowed) => Some(allowed.GetOr(false))
      case _ => None
  }

  /** `check_permission_raw(user, relation, object_)` against a service answering `post`. */
  function CheckPermissionRaw(user: string, relation: string, obj: string,
                              post: TupleKey -> CheckReply): (r: CheckCall)
    ensures r.sent.user == NormalizeSubject(user)
    ensures r.sent.relation == relation && r.sent.obj == obj
    ensures r.decision.None? <==> post(r.sent).status == 200 && !post(r.sent).body.JsonObject?
    ensures r.decision == Some(true) <==> post(r.sent) == CheckReply(200, JsonObject(Some(true)))
  {
    var key := TupleKey(NormalizeSubject(user), relation, obj);
    CheckCall(key, CheckDecision(post(key)))
  }

  /**
   `assign_tuple_raw(user, relation, object_)` against a service answering
   `post` with a status: the user string goes out verbatim, and an error status
   is only logged, never raised.
   */
  function AssignTupleRaw(user: string, relation: string, obj: string,
                          post: TupleKey -> int): (r: WriteCall)
    ensures r.sent == TupleKey(user, relation, obj)
    ensures r.outcome != Raised
    ensures r.outcome == Written <==> post(r.sent) == 200
    ensures r.outcome.LoggedError? ==> r.outcome.status == post(r.sent)
  {
    var key := TupleKey(user, relation, obj);
    var status := post(key);
    WriteCall(key, if status == 200 then Written else LoggedError(status))
  }

  /**
   `assign_tuple(user, relation, object_)` through the SDK, whose write either
   succeeds or fails (`write` says which): the user is always prefixed with
   `user:`, and a failure is re-raised.
   */
  function AssignTuple(user: string, relation: string, obj: string,
                       write: TupleKey -> bool): (r: WriteCall)
    ensures SplitRef(r.sent.user) == Some((KindName(UserKind), user))
    ensures r.sent.relation == relation && r.sent.obj == obj
    ensures r.outcome == Written <==> write(r.sent)
    ensures r.outcome == Raised <==> !write(r.sent)
  {
    SplitRefRoundTrip(UserKind, user);
    var key := TupleKey(Ref(UserKind, user), relation, obj);
    WriteCall(key, if write(key) then Written else Raised)
  }

  /**
   `check_permission(user, relation, object_)` through the SDK, whose answer
   is `check`: the user is always prefixed with `user:` and the SDK's
   `allowed` is returned as is.
   */
  function CheckPermission(user: string, relation: string, obj: string,
                           check: TupleKey -> bool): (r: CheckCall)
    ensures SplitRef(r.sent.user) == Some((KindName(UserKind), user))
    ensures r.sent.relation == relation && r.sent.obj == obj
    ensures r.decision == Some(check(r.sent))
  {
    SplitRefRoundTrip(UserKind, user);
    var key := TupleKey(Ref(UserKind, user), relation, obj);
    CheckCall(key, Some(check(key)))
  }

  /**
   The SDK helpers and `check_permission_raw` send the same subject exactly
   when the given string has no namespace; otherwise the SDK nests it.
   */
  lemma SdkSubjectAgreesOnlyWithoutNamespace(user: string, relation: string, obj: string,
                                             post: TupleKey -> CheckReply, check: TupleKey -> bool)
    ensures (CheckPermission(user, relation, obj, check).sent
             == CheckPermissionRaw(user, relation, obj, post).sent) <==> ':' !in user
  {
  }

  /** `user:x` given to the SDK helpers goes out as `user:user:x`. */
  lemma SdkDoublePrefix(relation: string, obj: string, write: TupleKey -> bool, check: TupleKey -> bool)
    ensures AssignTuple("user:x", relation, obj, write).sent.user == "user:user:x"
    ensures CheckPermission("user:x", relation, obj, check).sent.user == "user:user:x"
    ensures CheckPermissionRaw("user:x", relation, obj, _ => CheckReply(200, JsonObject(Some(true)))).sent.user == "user:x"
  {
  }
}
