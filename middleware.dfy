/**
 * The authentication and authorization guards of the HTTP handler chain,
 * as the guard test table pins them down: `IsAuthenticated` wraps
 * `IsAuthorized`, which wraps the business handler. The request context
 * carries the subject, the token and the policies; each may be nil.
 *
 * Policy evaluation follows the deny-overrides rule of the policy library:
 * the policies are scanned in order, a matching Deny stops the scan with a
 * refusal, a matching Allow records that access was granted, and nothing
 * matching means refusal. Matching is exact membership of the subject, the
 * resource and the action in the policy's lists.
 */
module Middleware {
  import opened Wrappers

  /** `account.DefaultAccount`: only the id is read. */
  datatype Account = Account(id: string)

  /** `jwt.Token`: only the validity flag is read. */
  datatype Token = Token(valid: bool)

  /** `policy.AllowAccess` / `policy.DenyAccess`. */
  datatype Effect = Allow | Deny

  /** `policy.DefaultPolicy`, field for field. */
  datatype Policy = Policy(
    id: string,
    description: string,
    subjects: seq<string>,
    effect: Effect,
    resources: seq<string>,
    permissions: seq<string>
  )

  /** The triple a guard asks the policies about. */
  datatype AccessRequest = AccessRequest(subject: string, resource: string, action: string)

  /** What `NewContextFromAuthValues` attaches to the request; every part may be nil. */
  datatype RequestContext = RequestContext(
    subject: Option<Account>,
    token: Option<Token>,
    policies: Option<seq<Policy>>
  )

  /** The three outcomes the guard test distinguishes. */
  datatype Status = Unauthorized | Forbidden | OK
  {
    /** The HTTP status code of the outcome. */
    function Code(): (c: int)
      ensures c == 401 <==> this == Unauthorized
      ensures c == 403 <==> this == Forbidden
      ensures c == 200 <==> this == OK
    {
      match this
      case Unauthorized => 401
      case Forbidden => 403
      case OK => 200
    }
  }

  /** A response: its status and the body written to it. */
  datatype Response = Response(status: Status, body: string)

  /** A policy applies to a request when all three of its lists contain the request's parts. */
  predicate Matches(p: Policy, r: AccessRequest)
  {
    r.subject in p.subjects && r.resource in p.resources && r.action in p.permissions
  }

  /** Some policy of `ps` with effect `e` applies to `r`. */
  predicate MatchingWith(ps: seq<Policy>, r: AccessRequest, e: Effect)
  {
    exists i :: 0 <= i < |ps| && Matches(ps[i], r) && ps[i].effect == e
  }

  /**
   * The in-order scan over the policies: a matching Deny refuses at once,
   * a matching Allow sets the `allowed` flag, the flag is the answer at the end.
   */
  function Scan(ps: seq<Policy>, r: AccessRequest, allowed: bool): bool
    decreases |ps|
  {
    if ps == [] then allowed
    else if !Matches(ps[0], r) then Scan(ps[1..], r, allowed)
    else if ps[0].effect == Deny then false
    else Scan(ps[1..], r, true)
  }

  /** The scan grants access iff no matching policy denies and some matching policy (or the flag) allows. */
  lemma {:induction false} ScanIsDenyOverrides(ps: seq<Policy>, r: AccessRequest, allowed: bool)
    ensures Scan(ps, r, allowed) <==> !MatchingWith(ps, r, Deny) && (allowed || MatchingWith(ps, r, Allow))
    decreases |ps|
  {
    if ps != [] {
      var tail := ps[1..];
      ScanIsDenyOverrides(tail, r, allowed || (Matches(ps[0], r) && ps[0].effect == Allow));
      forall e: Effect
        ensures MatchingWith(ps, r, e) <==> (Matches(ps[0], r) && ps[0].effect == e) || MatchingWith(tail, r, e)
      {
        if MatchingWith(ps, r, e) {
          var i :| 0 <= i < |ps| && Matches(ps[i], r) && ps[i].effect == e;
          if i > 0 { assert tail[i - 1] == ps[i]; }
        }
        if MatchingWith(tail, r, e) {
          var j :| 0 <= j < |tail| && Matches(tail[j], r) && tail[j].effect == e;
          assert ps[j + 1] == tail[j];
        }
      }
    }
  }

  /**
   * The authorization decision on the context's policies. A nil policy list
   * is ranged over like an empty one.
   */
  function PoliciesAllow(policies: Option<seq<Policy>>, r: AccessRequest): (ok: bool)
    ensures ok <==> policies.Some? && !MatchingWith(policies.value, r, Deny) && MatchingWith(policies.value, r, Allow)
  {
    match policies
    case None => false
    case Some(ps) => ScanIsDenyOverrides(ps, r, false); Scan(ps, r, false)
  }

  /** The decision depends only on which policies are present, not on their order. */
  lemma OrderIndependent(ps: seq<Policy>, qs: seq<Policy>, r: AccessRequest)
    requires multiset(ps) == multiset(qs)
    ensures PoliciesAllow(Some(ps), r) == PoliciesAllow(Some(qs), r)
  {
    forall e: Effect ensures MatchingWith(ps, r, e) <==> MatchingWith(qs, r, e) {
      SameMatches(ps, qs, r, e);
      SameMatches(qs, ps, r, e);
    }
  }

  /** A matching policy of one list is also in a list with the same elements. */
  lemma SameMatches(ps: seq<Policy>, qs: seq<Policy>, r: AccessRequest, e: Effect)
    requires multiset(ps) == multiset(qs)
    ensures MatchingWith(ps, r, e) ==> MatchingWith(qs, r, e)
  {
    if MatchingWith(ps, r, e) {
      var i :| 0 <= i < |ps| && Matches(ps[i], r) && ps[i].effect == e;
      assert ps[i] in multiset(ps);
      assert ps[i] in qs;
      var j :| 0 <= j < |qs| && qs[j] == ps[i];
    }
  }

  /** Authentication: a subject and a token are present and the token is valid. */
  predicate Authenticated(ctx: RequestContext)
  {
    ctx.subject.Some? && ctx.token.Some? && ctx.token.value.valid
  }

  /** The business handler of the test: writes "ok" and a newline with the default status. */
  function Handler(): Response
  {
    Response(OK, "ok\n")
  }

  /** `IsAuthenticated(next)`: a 401 that does not pass the handler's output through, unless authenticated. */
  function IsAuthenticated(ctx: RequestContext, next: Response): (rsp: Response)
    ensures Authenticated(ctx) ==> rsp == next
    ensures !Authenticated(ctx) ==> rsp.status == Unauthorized && rsp.body == ""
  {
    if Authenticated(ctx) then next else Response(Unauthorized, "")
  }

  /**
   * `IsAuthorized(next, resource, action)`: a 403 that does not pass the handler's output through, unless
   * the policies allow the context's subject to perform `action` on `resource`.
   * Without a subject there is nothing to ask the policies about.
   */
  function IsAuthorized(ctx: RequestContext, resource: string, action: string, next: Response): (rsp: Response)
    ensures ctx.subject.Some? && PoliciesAllow(ctx.policies, AccessRequest(ctx.subject.value.id, resource, action)) ==> rsp == next
    ensures !(ctx.subject.Some? && PoliciesAllow(ctx.policies, AccessRequest(ctx.subject.value.id, resource, action))) ==>
      rsp.status == Forbidden && rsp.body == ""
  {
    if ctx.subject.Some? && PoliciesAllow(ctx.policies, AccessRequest(ctx.subject.value.id, resource, action))
    then next
    else Response(Forbidden, "")
  }

  /**
   * The chain of the test: `IsAuthenticated(IsAuthorized(handler, resource, action))`.
   * The handler's output reaches the client exactly when the status is 200.
   */
  function Serve(ctx: RequestContext, resource: string, action: string): (rsp: Response)
    ensures rsp.status == Unauthorized <==> !Authenticated(ctx)
    ensures rsp.status == OK <==>
      Authenticated(ctx) && PoliciesAllow(ctx.policies, AccessRequest(ctx.subject.value.id, resource, action))
    ensures rsp.body == Handler().body <==> rsp.status == OK
  {
    IsAuthenticated(ctx, IsAuthorized(ctx, resource, action, Handler()))
  }

  /**
   * The outcome for one request: 401 unless a subject and a valid token are
   * present; then 403 unless a matching Allow and no matching Deny exist; else 200.
   */
  function Decide(subject: Option<Account>, token: Option<Token>, policies: Option<seq<Policy>>,
                  resource: string, action: string): (s: Status)
    ensures s == Unauthorized <==> !(subject.Some? && token.Some? && token.value.valid)
    ensures s == OK <==> (
      && subject.Some? && token.Some? && token.value.valid && policies.Some?
      && !MatchingWith(policies.value, AccessRequest(subject.value.id, resource, action), Deny)
      && MatchingWith(policies.value, AccessRequest(subject.value.id, resource, action), Allow))
  {
    Serve(RequestContext(subject, token, policies), resource, action).status
  }

  /** A nil policy list is treated exactly like an empty one. */
  lemma NilPoliciesLikeEmpty(subject: Option<Account>, token: Option<Token>, resource: string, action: string)
    ensures Decide(subject, token, None, resource, action) == Decide(subject, token, Some([]), resource, action)
  {
  }

  // The fixtures of the guard test, one lemma per row.

  /** The policy of the fixtures: `peter` may `create` `/articles/74251`, with the given effect. */
  function PeterPolicy(e: Effect): Policy
  {
    Policy("", "", ["peter"], e, ["/articles/74251"], ["create"])
  }

  /** Row 0: a known subject with an invalid token is not authenticated. */
  lemma InvalidTokenUnauthorized()
    ensures Decide(Some(Account("max")), Some(Token(false)), Some([]), "", "").Code() == 401
  {
  }

  /** Row 1: authenticated, but an empty policy list denies by default. */
  lemma EmptyPoliciesForbidden()
    ensures Decide(Some(Account("max")), Some(Token(true)), Some([]), "", "").Code() == 403
  {
  }

  /** Row 2: a matching Allow policy lets the request through to the handler. */
  lemma MatchingAllowPasses()
    ensures Decide(Some(Account("peter")), Some(Token(true)), Some([PeterPolicy(Allow)]), "/articles/74251", "create").Code() == 200
    ensures Serve(RequestContext(Some(Account("peter")), Some(Token(true)), Some([PeterPolicy(Allow)])),
                  "/articles/74251", "create").body == "ok\n"
  {
    assert Matches(PeterPolicy(Allow), AccessRequest("peter", "/articles/74251", "create"));
  }

  /** Row 3: the same policy with effect Deny refuses. */
  lemma MatchingDenyForbidden()
    ensures Decide(Some(Account("peter")), Some(Token(true)), Some([PeterPolicy(Deny)]), "/articles/74251", "create").Code() == 403
  {
    assert Matches(PeterPolicy(Deny), AccessRequest("peter", "/articles/74251", "create"));
  }

  /** Row 4: a policy for `peter` does not apply to `max`. */
  lemma OtherSubjectForbidden()
    ensures Decide(Some(Account("max")), Some(Token(true)), Some([PeterPolicy(Allow)]), "/articles/74251", "create").Code() == 403
  {
    assert !Matches(PeterPolicy(Allow), AccessRequest("max", "/articles/74251", "create"));
  }

  /** Row 5: without a token the request is refused before any policy is considered. */
  lemma NilTokenUnauthorized()
    ensures Decide(Some(Account("max")), None, Some([PeterPolicy(Allow)]), "/articles/74251", "create").Code() == 401
  {
  }

  /** Authentication dominates: without a token even a fully matching Allow policy gives 401. */
  lemma NilTokenDominatesMatchingAllow()
    ensures Decide(Some(Account("peter")), None, Some([PeterPolicy(Allow)]), "/articles/74251", "create").Code() == 401
    ensures PoliciesAllow(Some([PeterPolicy(Allow)]), AccessRequest("peter", "/articles/74251", "create"))
  {
    assert Matches(PeterPolicy(Allow), AccessRequest("peter", "/articles/74251", "create"));
  }

  /** Row 6: without a subject a valid token is not enough. */
  lemma NilSubjectUnauthorized()
    ensures Decide(None, Some(Token(true)), Some([]), "", "").Code() == 401
  {
  }

  /** Row 7: a nil policy list denies like an empty one. */
  lemma NilPoliciesForbidden()
    ensures Decide(Some(Account("max")), Some(Token(true)), None, "", "").Code() == 403
  {
  }
}
