/** Approval requests and the rules that turn a policy decision into one. */
module ApprovalPolicy {
  import opened Json

  datatype ApprovalState = Created | PendingUser | Approved | Denied | AutoApproved | AutoDenied | Expired

  predicate Terminal(state: ApprovalState) {
    state !in {Created, PendingUser}
  }

  datatype Constraint = Standard | FreshHumanOwner | LegacyUnknown

  datatype ReuseMode = Legacy | Disabled | Exact

  datatype AuthorizationMode = Human | AutoAllow | CacheHit | PersistentGrantMode | OwnerControlPlane

  /** `review` stands for the frozen digests of the change under review. */
  datatype Request = Request(
    toolCallId: string,
    userId: string,
    requestId: string,
    runId: string,
    sessionId: string,
    channel: string,
    toolName: string,
    argsHash: string,
    state: ApprovalState,
    version: int,
    deciderId: Option<string>,
    decision: Option<ApprovalState>,
    reason: Option<string>,
    grantScope: Option<string>,
    constraint: Constraint,
    requiredOwner: Option<string>,
    reuseMode: ReuseMode,
    reuseKey: Option<string>,
    authorization: AuthorizationMode,
    grantReference: Option<string>,
    policyId: string,
    review: string)

  /** The checks every request passes when it is built. */
  predicate ValidRequest(r: Request) {
    && (if r.constraint.FreshHumanOwner? then r.requiredOwner.Some? && r.requiredOwner.value != ""
        else r.requiredOwner.None?)
    && (if r.reuseMode.Exact? then r.reuseKey.Some? && r.reuseKey.value != "" else r.reuseKey.None?)
    && (r.authorization.PersistentGrantMode? <==> r.grantReference.Some?)
  }

  /** Whether the durable request can authorize its exact mutation. */
  predicate Executable(r: Request) {
    match r.constraint
    case LegacyUnknown => false
    case FreshHumanOwner => r.state.Approved? && r.deciderId == r.requiredOwner
    case Standard => r.state in {Approved, AutoApproved}
  }

  predicate ReuseScopeAuthorized(r: Request) {
    && r.grantScope.Some?
    && r.grantScope.value != ""
    && match r.reuseMode
       case Legacy => true
       case Exact => r.grantScope == r.reuseKey
       case Disabled => false
  }

  datatype Decision = Decision(
    autoApprove: bool,
    allowGrant: bool,
    scopeHint: Option<string>,
    grantReference: Option<string>,
    policyId: string)

  /** The decision's reuse fields shaped to the request's reuse mode. */
  function Constrain(r: Request, d: Decision): Decision {
    match r.reuseMode
    case Disabled => d.(allowGrant := false, scopeHint := None, grantReference := None)
    case Exact =>
      var matches := d.scopeHint == r.reuseKey;
      d.(allowGrant := d.allowGrant && matches,
         scopeHint := if matches && (d.allowGrant || d.grantReference.Some?) then d.scopeHint else None,
         grantReference := if matches then d.grantReference else None)
    case Legacy => if !d.allowGrant && d.grantReference.None? then d.(scopeHint := None) else d
  }

  function ApplyDecision(r: Request, decision: Decision): Request {
    var d := Constrain(r, decision);
    var byGrant := d.grantReference.Some?;
    r.(grantScope := d.scopeHint,
       policyId := d.policyId,
       authorization := if byGrant then PersistentGrantMode
                        else if d.autoApprove && r.authorization.Human? then AutoAllow else r.authorization,
       grantReference := if byGrant then d.grantReference else r.grantReference)
  }

  /** Constraining a decision twice changes nothing more. */
  lemma ConstrainIsIdempotent(r: Request, d: Decision)
    requires ValidRequest(r)
    ensures Constrain(r, Constrain(r, d)) == Constrain(r, d)
  {
  }

  /** Exactly when a policy decision authorizes reuse: never for a disabled request, only
      on the exact key for an exact one, and only if the decision granted or used a grant. */
  lemma ReuseAuthorizedIff(r: Request, d: Decision)
    requires ValidRequest(r)
    ensures ReuseScopeAuthorized(ApplyDecision(r, d)) <==>
              && !r.reuseMode.Disabled?
              && (d.allowGrant || d.grantReference.Some?)
              && d.scopeHint.Some? && d.scopeHint.value != ""
              && (r.reuseMode.Exact? ==> d.scopeHint == r.reuseKey)
  {
  }

  /** Applying a decision keeps the request valid, its frozen identity and its decision state. */
  lemma ApplyKeepsIdentity(r: Request, d: Decision)
    requires ValidRequest(r)
    ensures var a := ApplyDecision(r, d);
            && ValidRequest(a)
            && (a.constraint, a.requiredOwner, a.reuseMode, a.reuseKey) == (r.constraint, r.requiredOwner,
                                                                            r.reuseMode, r.reuseKey)
            && (a.state, a.version, a.deciderId, a.argsHash) == (r.state, r.version, r.deciderId, r.argsHash)
            && Executable(a) == Executable(r)
            && (r.reuseMode.Disabled? ==> a.grantReference == r.grantReference)
  {
  }

  /** What applying a decision records: its policy; a grant's use exactly when the request's
      reuse mode lets that grant be used; an automatic approval only over a human one; and the
      scope exactly when it may be reused. */
  lemma AppliedDecision(r: Request, d: Decision)
    requires ValidRequest(r)
    ensures var a := ApplyDecision(r, d);
            var fits := r.reuseMode.Legacy? || (r.reuseMode.Exact? && d.scopeHint == r.reuseKey);
            && a.policyId == d.policyId
            && (if fits && d.grantReference.Some?
                then a.authorization.PersistentGrantMode? && a.grantReference == d.grantReference
                else a.grantReference == r.grantReference
                     && a.authorization ==
                        if d.autoApprove && r.authorization.Human? then AutoAllow else r.authorization)
            && a.grantScope == if fits && (d.allowGrant || d.grantReference.Some?) then d.scopeHint else None
  {
  }
}
