/** Token creation and revocation against the Bitbucket Server (Stash)
    REST API: the requests `create_pat` and `revoke_pat` send, how their
    retry loops classify HTTP status codes, and how a successful creation
    response is checked. The server is an oracle: `server(r)(k)` is the
    response to attempt `k` of request `r`. */
module Stash {
  import opened Values
  import opened Retry
  import opened Text

  /** Status codes of RFC 9110: 200 OK (section 15.3.1), 204 No Content
      (section 15.3.5), 401 Unauthorized (section 15.5.2). */
  const StatusOk := 200
  const StatusNoContent := 204
  const StatusUnauthorized := 401

  /** Exit codes of `create_pat` and `revoke_pat`. */
  const UnexpectedCreateStatus := 63
  const UnexpectedRevokeStatus := 62
  const UndecodableBody := 32
  const MissingToken := 31
  const MissingId := 30

  /** The status Python exits with when an exception is not caught. */
  const UncaughtException := 1

  /** The permissions every token is requested with. */
  const Permissions: seq<string> := ["REPO_WRITE", "PROJECT_WRITE"]

  /** What `PAT` is overwritten with once the token is revoked. */
  const Revoked := "revoked"

  /** A response body: not decodable as JSON, decoded to a JSON object, or
      decoded to any other JSON value (which has no `.get`). */
  datatype Body = Undecodable | Decoded(fields: map<string, Json>) | NotObject(value: Json)

  datatype Response = Response(status: int, body: Body)

  /** The two requests, each with its basic-auth user and password; the PUT
      carries the JSON body `{name, permissions, expiryDays}`. */
  datatype Request =
    | Put(url: string, user: string, password: string, name: string, permissions: seq<string>, expiryDays: int)
    | Delete(url: string, user: string, password: string)

  /** The token `create_pat` stores: the body's `token` and `id`. */
  datatype Token = Token(secret: Json, id: Json)

  /** The request `create_pat` sends on every attempt. */
  function CreateRequest(host: string, uri: string, user: string, password: string,
                         name: string, validDays: int): Request
  {
    Put(TokensUrl(host, uri, user), user, password, name, Permissions, validDays)
  }

  /** The request `revoke_pat` sends on every attempt. */
  function RevokeRequest(host: string, uri: string, user: string, password: string, id: string): Request {
    Delete(TokenUrl(host, uri, user, id), user, password)
  }

  /** `create_pat`'s loop: 200 ends it, 401 is "not yet valid", any other
      status exits 63 at once. */
  function ClassifyCreate(status: int): (s: Step)
    ensures s == Ready <==> status == StatusOk
    ensures s == NotReady <==> status == StatusUnauthorized
    ensures s.Fatal? ==> s.code == UnexpectedCreateStatus
  {
    if status == StatusOk then Ready
    else if status == StatusUnauthorized then NotReady
    else Fatal(UnexpectedCreateStatus)
  }

  /** `revoke_pat`'s loop: 204 ends it, 401 is "not yet valid", any other
      status exits 62 at once. */
  function ClassifyRevoke(status: int): (s: Step)
    ensures s == Ready <==> status == StatusNoContent
    ensures s == NotReady <==> status == StatusUnauthorized
    ensures s.Fatal? ==> s.code == UnexpectedRevokeStatus
  {
    if status == StatusNoContent then Ready
    else if status == StatusUnauthorized then NotReady
    else Fatal(UnexpectedRevokeStatus)
  }

  function CreateSteps(responses: nat -> Response): nat -> Step {
    (k: nat) => ClassifyCreate(responses(k).status)
  }

  function RevokeSteps(responses: nat -> Response): nat -> Step {
    (k: nat) => ClassifyRevoke(responses(k).status)
  }

  /** The checks after a successful creation, in order: an undecodable body
      exits 32, a body that is not an object raises outside any `try` (exit
      1), a missing or false `token` exits 31, a missing or false `id` exits
      30; otherwise the token is the body's `token` and `id`. */
  function Validate(body: Body): (r: Result<Token>)
    ensures r == Fail(UndecodableBody) <==> body.Undecodable?
    ensures r == Fail(UncaughtException) <==> body.NotObject?
    ensures r == Fail(MissingToken) <==> body.Decoded? && !Truthy(Get(body.fields, "token"))
    ensures r == Fail(MissingId) <==>
      body.Decoded? && Truthy(Get(body.fields, "token")) && !Truthy(Get(body.fields, "id"))
    ensures r.Ok? <==>
      body.Decoded? && Truthy(Get(body.fields, "token")) && Truthy(Get(body.fields, "id"))
    ensures r.Ok? ==>
      body.Decoded? && "token" in body.fields && "id" in body.fields &&
      r.value == Token(body.fields["token"], body.fields["id"])
  {
    match body
    case Undecodable => Fail(UndecodableBody)
    case NotObject(_) => Fail(UncaughtException)
    case Decoded(fields) =>
      if !Truthy(Get(fields, "token")) then Fail(MissingToken)
      else if !Truthy(Get(fields, "id")) then Fail(MissingId)
      else Ok(Token(fields["token"], fields["id"]))
  }

  /** What `create_pat` ends with: the loop's exit, or exit 32 when the
      loop ran no attempt (the response is still `None`, so decoding it
      raises), or the checks of the last (200) response. */
  function Issue(responses: nat -> Response, max: int): (r: Result<Token>)
    ensures r.Ok? ==> Truthy(r.value.secret) && Truthy(r.value.id)
  {
    var t := Poll(CreateSteps(responses), max, 0);
    if t.outcome.Exit? then Fail(t.outcome.code)
    else if t.attempts == 0 then Fail(UndecodableBody)
    else Validate(responses(t.attempts - 1).body)
  }

  /** 401 on the first j-1 attempts and 200 on attempt j, within the
      budget: j attempts, j-1 sleeps, and the result is the check of that
      200 response, which is never retried even when it fails. */
  lemma CreateSucceedsAt(responses: nat -> Response, max: int, j: nat)
    requires 1 <= j <= max
    requires forall k :: 0 <= k < j - 1 ==> responses(k).status == StatusUnauthorized
    requires responses(j - 1).status == StatusOk
    ensures Poll(CreateSteps(responses), max, 0) == Tally(j, j - 1, Proceed)
    ensures Issue(responses, max) == Validate(responses(j - 1).body)
  {
    SettlesAt(CreateSteps(responses), max, 0, j);
  }

  /** 401 on the first j-1 attempts and anything but 200 or 401 on attempt
      j: exit 63 on that attempt, with no sleep after it. */
  lemma CreateAbortsAt(responses: nat -> Response, max: int, j: nat)
    requires 1 <= j <= max
    requires forall k :: 0 <= k < j - 1 ==> responses(k).status == StatusUnauthorized
    requires responses(j - 1).status != StatusOk && responses(j - 1).status != StatusUnauthorized
    ensures Poll(CreateSteps(responses), max, 0) == Tally(j, j - 1, Exit(UnexpectedCreateStatus))
    ensures Issue(responses, max) == Fail(UnexpectedCreateStatus)
  {
    SettlesAt(CreateSteps(responses), max, 0, j);
  }

  /** 401 on every attempt of the budget: exit 127 after `max` attempts and
      `max - 1` sleeps. */
  lemma CreateGivesUp(responses: nat -> Response, max: int)
    requires 1 <= max
    requires forall k :: 0 <= k < max ==> responses(k).status == StatusUnauthorized
    ensures Poll(CreateSteps(responses), max, 0) == Tally(max, max - 1, Exit(GiveUp))
    ensures Issue(responses, max) == Fail(GiveUp)
  {
    GivesUp(CreateSteps(responses), max, 0);
  }

  /** A budget of zero or less sends nothing and exits 32. */
  lemma CreateWithoutBudget(responses: nat -> Response, max: int)
    requires max <= 0
    ensures Poll(CreateSteps(responses), max, 0).attempts == 0
    ensures Issue(responses, max) == Fail(UndecodableBody)
  {
  }

  /** `create_pat` ends with a token or one of its five exit codes, or with
      the uncaught exception of a body that is not an object. */
  lemma IssueExitCodes(responses: nat -> Response, max: int)
    ensures var r := Issue(responses, max);
      r.Fail? ==> r.code in {GiveUp, UnexpectedCreateStatus, UndecodableBody, UncaughtException, MissingToken, MissingId}
  {
    if 0 < max {
      var steps := CreateSteps(responses);
      EndsOnLastAttempt(steps, max, 0);
      var last := Poll(steps, max, 0).attempts - 1;
      assert steps(last) == ClassifyCreate(responses(last).status);
    }
  }

  /** 401 on the first j-1 attempts and 204 on attempt j, within the
      budget: j attempts, j-1 sleeps, and no exit. */
  lemma RevokeSucceedsAt(responses: nat -> Response, max: int, j: nat)
    requires 1 <= j <= max
    requires forall k :: 0 <= k < j - 1 ==> responses(k).status == StatusUnauthorized
    requires responses(j - 1).status == StatusNoContent
    ensures Poll(RevokeSteps(responses), max, 0) == Tally(j, j - 1, Proceed)
  {
    SettlesAt(RevokeSteps(responses), max, 0, j);
  }

  /** 401 on the first j-1 attempts and anything but 204 or 401 on attempt
      j: exit 62 on that attempt, with no sleep after it. */
  lemma RevokeAbortsAt(responses: nat -> Response, max: int, j: nat)
    requires 1 <= j <= max
    requires forall k :: 0 <= k < j - 1 ==> responses(k).status == StatusUnauthorized
    requires responses(j - 1).status != StatusNoContent && responses(j - 1).status != StatusUnauthorized
    ensures Poll(RevokeSteps(responses), max, 0) == Tally(j, j - 1, Exit(UnexpectedRevokeStatus))
  {
    SettlesAt(RevokeSteps(responses), max, 0, j);
  }

  /** 401 on every attempt of the budget: exit 127 after `max` attempts and
      `max - 1` sleeps. */
  lemma RevokeGivesUp(responses: nat -> Response, max: int)
    requires 1 <= max
    requires forall k :: 0 <= k < max ==> responses(k).status == StatusUnauthorized
    ensures Poll(RevokeSteps(responses), max, 0) == Tally(max, max - 1, Exit(GiveUp))
  {
    GivesUp(RevokeSteps(responses), max, 0);
  }

  /** `revoke_pat` leaves normally or exits 62 or 127; leaving normally
      means the last request got 204, or no request was sent at all. */
  lemma RevokeOutcomes(responses: nat -> Response, max: int)
    ensures var t := Poll(RevokeSteps(responses), max, 0);
      && (t.outcome == Proceed || t.outcome == Exit(UnexpectedRevokeStatus) || t.outcome == Exit(GiveUp))
      && (t.outcome == Proceed ==> t.attempts == 0 || responses(t.attempts - 1).status == StatusNoContent)
  {
    if 0 < max {
      var steps := RevokeSteps(responses);
      EndsOnLastAttempt(steps, max, 0);
      var last := Poll(steps, max, 0).attempts - 1;
      assert steps(last) == ClassifyRevoke(responses(last).status);
    }
  }
}
