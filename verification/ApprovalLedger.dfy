/** The approval tables and the effect of each write transaction on them.

    A transaction either commits a new ledger or raises and leaves the old one. */
module ApprovalLedger {
  import opened Json
  import opened ApprovalPolicy

  // ------------------------------------------------------------------ tables

  /** The private operands of a captured call. */
  datatype Operands = Operands(prepared: string, context: string, backend: Option<string>, credential: Option<string>)

  datatype Execution =
    | Unclaimed
    | Claimed(token: string, decisionVersion: int)
    | Completed(token: string, decisionVersion: int, result: string)

  datatype Binding = Binding(
    approvalId: string,
    jobId: string,
    toolCallId: string,
    nonce: string,
    tenant: string,
    toolName: string,
    operands: Operands,
    argsHash: string,
    execution: Execution)

  datatype Ref = Ref(toolCallId: string, nonce: string)

  datatype TurnKey = TurnKey(jobId: string, turnId: string)

  datatype RootTurn = RootTurn(tenant: string, authority: string, generation: string, refs: seq<Ref>)

  datatype Vote = Vote(approvalId: string, deciderId: string, decision: ApprovalState)

  datatype Grant = Grant(userId: string, toolName: string, scope: string, via: string, grantedAt: int,
                         expiresAt: Option<int>, revoked: bool)

  datatype Ledger = Ledger(
    requests: map<string, Request>,
    bindings: set<Binding>,
    turns: map<TurnKey, RootTurn>,
    votes: map<string, Vote>,
    grants: map<string, Grant>,
    fences: set<string>)

  const EMPTY_LEDGER := Ledger(map[], {}, map[], map[], map[], {})

  datatype Outcome<+T> = Raised(code: ErrorCode) | Done(value: T)

  datatype ErrorCode =
    | MissingBinding | NonceMismatch | TenantMismatch | CallIdentityMismatch | OperandMismatch
    | DecisionMismatch | OutcomeUnknown | ClaimTokenMismatch | ResultMismatch
    | MissingRootTurn | SnapshotMismatch | TurnLinkMismatch
    | NotFound | VersionChanged | Terminated | IdentityImmutable | DuplicateKey | VoteConflict
    | Fenced | NotPermitted | AlreadyBound

  // ----------------------------------------------------------------- lookups

  predicate ForCall(b: Binding, jobId: string, toolCallId: string) {
    b.jobId == jobId && b.toolCallId == toolCallId
  }

  function RowsForCall(s: Ledger, jobId: string, toolCallId: string): set<Binding> {
    set b | b in s.bindings && ForCall(b, jobId, toolCallId)
  }

  /** Rows a bind for this approval and call would collide with. */
  function Colliding(s: Ledger, approvalId: string, jobId: string, toolCallId: string): set<Binding> {
    set b | b in s.bindings && (b.approvalId == approvalId || ForCall(b, jobId, toolCallId))
  }

  ghost function AnyRow(rows: set<Binding>): (r: Option<Binding>)
    ensures r.None? <==> rows == {}
    ensures r.Some? ==> r.value in rows
  {
    if rows == {} then None else var b :| b in rows; Some(b)
  }

  /** The request still describes the call that was captured. */
  predicate Agrees(b: Binding, r: Request) {
    r.userId == b.tenant && r.toolCallId == b.toolCallId && r.toolName == b.toolName && r.argsHash == b.argsHash
  }

  function IdentityError(b: Binding, r: Request): ErrorCode {
    if r.userId != b.tenant then TenantMismatch
    else if r.toolCallId != b.toolCallId || r.toolName != b.toolName then CallIdentityMismatch
    else OperandMismatch
  }

  /** Root turns of the job that link this call with this nonce. */
  function Linking(s: Ledger, jobId: string, toolCallId: string, nonce: string, tenant: string): set<TurnKey> {
    set k | k in s.turns && k.jobId == jobId && s.turns[k].tenant == tenant && Ref(toolCallId, nonce) in s.turns[k].refs
  }

  // --------------------------------------------------------- state of requests

  /** The one write of a request's state: a terminal request refuses a non-terminal target. */
  function WriteTransition(s: Ledger, id: string, updated: Request): Outcome<Ledger>
    requires id in s.requests
  {
    var r := s.requests[id];
    if !Terminal(updated.state) && Terminal(r.state) then Raised(Terminated)
    else Done(s.(requests := s.requests[id := r.(state := updated.state, version := updated.version,
                                                 deciderId := updated.deciderId, decision := updated.decision,
                                                 reason := updated.reason)]))
  }

  function CreateRequest(s: Ledger, id: string, r: Request): Outcome<Ledger> {
    if !ValidRequest(r) then Raised(NotPermitted)
    else if id in s.requests then Raised(DuplicateKey)
    else Done(s.(requests := s.requests[id := r]))
  }

  function OrElse<T>(a: Option<T>, b: Option<T>): Option<T> {
    if a.Some? then a else b
  }

  function Transition(s: Ledger, id: string, state: ApprovalState, expectedVersion: Option<int>,
                      deciderId: Option<string>, decision: Option<ApprovalState>,
                      reason: Option<string>): Outcome<Ledger> {
    if id !in s.requests then Raised(NotFound)
    else
      var r := s.requests[id];
      if expectedVersion.Some? && expectedVersion.value != r.version then Raised(VersionChanged)
      else
        WriteTransition(s, id, r.(state := state, version := r.version + 1,
                                  deciderId := OrElse(deciderId, r.deciderId),
                                  decision := if decision.None? && Terminal(state) then Some(state) else decision,
                                  reason := OrElse(reason, r.reason)))
  }

  /** The caller's claim about which run owns the request. */
  datatype Owner = Owner(toolCallId: string, userId: string, requestId: string, runId: string, sessionId: string,
                         channel: string)

  predicate Owns(o: Owner, r: Request) {
    && r.toolCallId == o.toolCallId && r.userId == o.userId && r.requestId == o.requestId
    && r.runId == o.runId && r.sessionId == o.sessionId && r.channel == o.channel
  }

  /** Cancellation denies a request that is still pending, and nothing else. */
  function Cancel(s: Ledger, id: string, owner: Owner, deciderId: Option<string>, reason: string): Outcome<Ledger> {
    if id !in s.requests then Raised(NotFound)
    else
      var r := s.requests[id];
      if !Owns(owner, r) || !r.state.PendingUser? then Done(s)
      else WriteTransition(s, id, r.(state := Denied, version := r.version + 1,
                                     deciderId := OrElse(deciderId, r.deciderId),
                                     decision := Some(Denied), reason := Some(reason)))
  }

  function RevokedVia(grants: map<string, Grant>, id: string): map<string, Grant> {
    map g | g in grants :: if grants[g].via == id then grants[g].(revoked := true) else grants[g]
  }

  /** Unwinding an unpublished request denies it if undecided and revokes its grants. */
  function Abort(s: Ledger, id: string, owner: Owner, reason: string): Outcome<Ledger> {
    if id !in s.requests then Raised(NotFound)
    else
      var r := s.requests[id];
      if !Owns(owner, r) then Done(s)
      else
        var denied := if Terminal(r.state) then r
                      else r.(state := Denied, version := r.version + 1, decision := Some(Denied),
                              reason := Some(reason));
        Done(s.(requests := s.requests[id := denied], grants := RevokedVia(s.grants, id)))
  }

  predicate HasVote(s: Ledger, id: string, deciderId: string) {
    exists v :: v in s.votes && s.votes[v].approvalId == id && s.votes[v].deciderId == deciderId
  }

  predicate SameVote(s: Ledger, voteId: string, vote: Vote) {
    voteId in s.votes && s.votes[voteId] == vote
  }

  /** One vote decides; a decided request ignores further votes. */
  function RecordVote(s: Ledger, voteId: string, vote: Vote, reason: Option<string>): Outcome<Ledger> {
    if vote.approvalId !in s.requests then Raised(NotFound)
    else
      var r := s.requests[vote.approvalId];
      if Terminal(r.state) then Done(s)
      else if HasVote(s, vote.approvalId, vote.deciderId) && !SameVote(s, voteId, vote) then Raised(VoteConflict)
      else if !HasVote(s, vote.approvalId, vote.deciderId) && voteId in s.votes then Raised(DuplicateKey)
      else
        WriteTransition(s.(votes := s.votes[voteId := vote]), vote.approvalId,
                        r.(state := vote.decision, version := r.version + 1, deciderId := Some(vote.deciderId),
                           decision := Some(vote.decision), reason := reason))
  }

  predicate SameFrozenIdentity(a: Request, b: Request) {
    && a.constraint == b.constraint && a.requiredOwner == b.requiredOwner
    && a.reuseMode == b.reuseMode && a.reuseKey == b.reuseKey && a.review == b.review
  }

  function RowsForApproval(s: Ledger, id: string): set<Binding> {
    set b | b in s.bindings && b.approvalId == id
  }

  /** Rewrites the descriptive columns; a captured call must still agree with them. */
  function UpdateRequest(s: Ledger, id: string, u: Request): Outcome<Ledger> {
    if !ValidRequest(u) then Raised(NotPermitted)
    else if id !in s.requests then Raised(NotFound)
    else if exists b :: b in RowsForApproval(s, id) && !Agrees(b, u) then Raised(CallIdentityMismatch)
    else if !SameFrozenIdentity(s.requests[id], u) then Raised(IdentityImmutable)
    else
      Done(s.(requests := s.requests[id := s.requests[id].(argsHash := u.argsHash, grantScope := u.grantScope,
                                                           authorization := u.authorization,
                                                           grantReference := u.grantReference,
                                                           policyId := u.policyId)]))
  }

  // ---------------------------------------------------------------- bindings

  datatype Payload = Payload(
    approvalId: string, jobId: string, toolCallId: string, nonce: string, tenant: string, toolName: string,
    operands: Operands)

  predicate ValidPayload(p: Payload) {
    && p.approvalId != "" && p.jobId != "" && p.toolCallId != "" && p.nonce != "" && p.tenant != "" && p.toolName != ""
    && p.operands.credential != Some("")
  }

  function NewBinding(p: Payload, nonce: string, argsHash: string): Binding {
    Binding(p.approvalId, p.jobId, p.toolCallId, nonce, p.tenant, p.toolName, p.operands, argsHash, Unclaimed)
  }

  /** A first bind inserts; a repeated one must be identical. */
  ghost function RecordBinding(s: Ledger, p: Payload): Outcome<Ledger> {
    if !ValidPayload(p) then Raised(CallIdentityMismatch)
    else if p.approvalId !in s.requests then Raised(MissingBinding)
    else
      var b := NewBinding(p, p.nonce, s.requests[p.approvalId].argsHash);
      if !Agrees(b, s.requests[p.approvalId]) then Raised(IdentityError(b, s.requests[p.approvalId]))
      else
        match AnyRow(Colliding(s, p.approvalId, p.jobId, p.toolCallId))
        case None => Done(s.(bindings := s.bindings + {b}))
        case Some(row) =>
          if row.tenant != b.tenant then Raised(TenantMismatch)
          else if row.nonce != b.nonce then Raised(NonceMismatch)
          else if row.approvalId != b.approvalId || !ForCall(row, b.jobId, b.toolCallId)
                  || row.toolName != b.toolName then
            Raised(CallIdentityMismatch)
          else if row.(execution := Unclaimed) != b then Raised(OperandMismatch)
          else Done(s)
  }

  predicate Undecided(r: Request) {
    r.state in {Created, PendingUser}
  }

  /** The one linked root turn was admitted under another policy generation. */
  predicate OtherGeneration(s: Ledger, row: Binding, generation: string) {
    var turns := Linking(s, row.jobId, row.toolCallId, row.nonce, row.tenant);
    |turns| == 1 && forall k :: k in turns ==> s.turns[k].generation != generation
  }

  predicate RowSuperseded(s: Ledger, row: Binding, p: Payload, generation: Option<string>)
    requires row.approvalId in s.requests
  {
    && row.approvalId != p.approvalId
    && generation.Some?
    && s.requests[row.approvalId].state in {Created, PendingUser, Approved}
    && OtherGeneration(s, row, generation.value)
  }

  predicate RowRefuses(s: Ledger, row: Binding, p: Payload, generation: Option<string>)
    requires row.approvalId in s.requests && p.approvalId in s.requests
  {
    || row.tenant != p.tenant
    || row.toolName != p.toolName
    || !row.execution.Unclaimed?
    || (if row.approvalId == p.approvalId then !Undecided(s.requests[p.approvalId])
        else !RowSuperseded(s, row, p, generation)
             && s.requests[row.approvalId].state !in {Denied, AutoDenied, Expired})
  }

  predicate BindingsOwned(s: Ledger) {
    forall b :: b in s.bindings ==> b.approvalId in s.requests
  }

  /** A call that keeps its binding keeps its nonce. */
  predicate RowKeepsNonce(s: Ledger, row: Binding, p: Payload, generation: Option<string>)
    requires row.approvalId in s.requests
  {
    ForCall(row, p.jobId, p.toolCallId) && !RowSuperseded(s, row, p, generation)
  }

  ghost function PublishedNonce(s: Ledger, p: Payload, generation: Option<string>): string
    requires BindingsOwned(s)
  {
    match AnyRow(set b | b in s.bindings && RowKeepsNonce(s, b, p, generation))
    case Some(row) => row.nonce
    case None => p.nonce
  }

  const REISSUED_AS := "approval policy generation changed; re-issued as "

  function ExpiredFor(r: Request, reason: string): Request {
    r.(state := Expired, version := r.version + 1, decision := Some(Expired), reason := Some(reason))
  }

  function SupersededIds(s: Ledger, p: Payload, generation: Option<string>): set<string>
    requires BindingsOwned(s)
  {
    set b | b in Colliding(s, p.approvalId, p.jobId, p.toolCallId) && RowSuperseded(s, b, p, generation) :: b.approvalId
  }

  datatype Parked = Parked(ledger: Ledger, nonce: string)

  /** Bind the call a park is about to publish, moving or superseding what it collides with. */
  ghost function Park(s: Ledger, p: Payload, generation: Option<string>): Outcome<Parked>
    requires BindingsOwned(s)
  {
    if !ValidPayload(p) then Raised(CallIdentityMismatch)
    else if p.approvalId !in s.requests then Raised(MissingBinding)
    else
      var r := s.requests[p.approvalId];
      var rows := Colliding(s, p.approvalId, p.jobId, p.toolCallId);
      if exists b :: b in rows && RowRefuses(s, b, p, generation) then Raised(CallIdentityMismatch)
      else if r.toolCallId != p.toolCallId && !Undecided(r) then Raised(CallIdentityMismatch)
      else
        var moved := r.(toolCallId := p.toolCallId);
        var b := NewBinding(p, PublishedNonce(s, p, generation), r.argsHash);
        if !Agrees(b, moved) then Raised(IdentityError(b, moved))
        else
          var gone := SupersededIds(s, p, generation);
          Done(Parked(
            s.(bindings := s.bindings - rows + {b},
               requests := map id | id in s.requests ::
                 if id == p.approvalId then moved
                 else if id in gone then ExpiredFor(s.requests[id], REISSUED_AS + p.approvalId)
                 else s.requests[id]),
            b.nonce))
  }

  /** A prepared plan replaced by another: its unclaimed binding goes and its request expires. */
  function Supersede(s: Ledger, predecessor: string, successor: string, planPending: bool): Outcome<Ledger> {
    if planPending && (exists b :: b in RowsForApproval(s, predecessor) && !b.execution.Unclaimed?) then
         Raised(AlreadyBound)
    else
      var rest := set b | b in s.bindings && !(b.approvalId == predecessor && b.execution.Unclaimed?);
      if predecessor !in s.requests then Done(s.(bindings := rest))
      else
        var r := s.requests[predecessor];
        if r.state in {Approved, AutoApproved} then Raised(AlreadyBound)
        else Done(s.(bindings := rest,
                     requests := if Undecided(r)
                                 then s.requests[predecessor := ExpiredFor(r, "superseded by " + successor)]
                                 else s.requests))
  }

  // --------------------------------------------------------------- root turns

  function RecordTurn(s: Ledger, k: TurnKey, tenant: string, authority: string, generation: string): Outcome<Ledger> {
    if k in s.turns then
      var t := s.turns[k];
      if t.tenant != tenant then Raised(TenantMismatch)
      else if t.authority != authority || t.generation != generation then Raised(SnapshotMismatch)
      else Done(s)
    else Done(s.(turns := s.turns[k := RootTurn(tenant, authority, generation, [])]))
  }

  predicate HoldsCall(ref: Ref, toolCallId: string, held: Option<string>) {
    ref.toolCallId == toolCallId && (held.None? || ref.nonce == held.value)
  }

  /** Another turn of the job already holds this call. */
  predicate LinkedElsewhere(s: Ledger, k: TurnKey, toolCallId: string, held: Option<string>) {
    exists j :: j in s.turns && j.jobId == k.jobId && j.turnId != k.turnId
                && exists ref :: ref in s.turns[j].refs && HoldsCall(ref, toolCallId, held)
  }

  predicate HasRequestFor(s: Ledger, jobId: string, toolCallId: string, tenant: string) {
    exists id :: id in s.requests && s.requests[id].sessionId == jobId && s.requests[id].toolCallId == toolCallId
                 && s.requests[id].userId == tenant
  }

  ghost function LinkTurn(s: Ledger, k: TurnKey, toolCallId: string, nonce: string, tenant: string): Outcome<Ledger> {
    if k !in s.turns then Raised(MissingRootTurn)
    else if s.turns[k].tenant != tenant then Raised(TenantMismatch)
    else
      var row := AnyRow(RowsForCall(s, k.jobId, toolCallId));
      if row.None? && !HasRequestFor(s, k.jobId, toolCallId, tenant) then Raised(MissingBinding)
      else if row.Some? && row.value.tenant != tenant then Raised(TenantMismatch)
      else if row.Some? && row.value.nonce != nonce then Raised(NonceMismatch)
      else if LinkedElsewhere(s, k, toolCallId, if row.Some? then Some(row.value.nonce) else None) then
                Raised(TurnLinkMismatch)
      else
        var t := s.turns[k];
        var ref := Ref(toolCallId, nonce);
        Done(if ref in t.refs then s else s.(turns := s.turns[k := t.(refs := t.refs + [ref])]))
  }

  // --------------------------------------------------------------- execution

  /** Reading a stored binding by its own identity. */
  ghost function ReadBinding(s: Ledger, jobId: string, toolCallId: string, nonce: string,
                             tenant: string): Outcome<Binding> {
    match AnyRow(RowsForCall(s, jobId, toolCallId))
    case None => Raised(MissingBinding)
    case Some(b) =>
      if b.tenant != tenant then Raised(TenantMismatch)
      else if b.nonce != nonce then Raised(NonceMismatch)
      else if b.approvalId !in s.requests then Raised(MissingBinding)
      else if !Agrees(b, s.requests[b.approvalId]) then Raised(IdentityError(b, s.requests[b.approvalId]))
      else Done(b)
  }

  /** The caller's copy of the binding is exactly the stored one, execution aside. */
  predicate SameCapture(a: Binding, b: Binding) {
    a.(execution := b.execution) == b
  }

  ghost function VerifyAttempt(s: Ledger, b: Binding): Outcome<Binding> {
    match ReadBinding(s, b.jobId, b.toolCallId, b.nonce, b.tenant)
    case Raised(code) => Raised(code)
    case Done(current) => if !SameCapture(current, b) then Raised(OperandMismatch) else Done(current)
  }

  function Replaced(s: Ledger, old_: Binding, execution: Execution): Ledger {
    s.(bindings := s.bindings - {old_} + {old_.(execution := execution)})
  }

  datatype ClaimOutcome = Reserved(ledger: Ledger) | AlreadyCompleted(result: string)

  /** Reserve the one attempt at the call, or read its completed result. */
  ghost function Claim(s: Ledger, b: Binding, decisionVersion: int, token: string): Outcome<ClaimOutcome> {
    if token == "" then Raised(ClaimTokenMismatch)
    else
      match VerifyAttempt(s, b)
      case Raised(code) => Raised(code)
      case Done(current) =>
        match current.execution
        case Completed(_, _, result) => Done(AlreadyCompleted(result))
        case Claimed(_, _) => Raised(OutcomeUnknown)
        case Unclaimed =>
          if current.approvalId !in s.requests then Raised(MissingBinding)
          else
            var r := s.requests[current.approvalId];
            if r.version != decisionVersion || !Executable(r) then Raised(DecisionMismatch)
            else Done(Reserved(Replaced(s, current, Claimed(token, decisionVersion))))
  }

  /** Persist what the claimed attempt returned; a repeat must agree. */
  ghost function Complete(s: Ledger, b: Binding, decisionVersion: int, token: string, result: string): Outcome<Ledger> {
    if token == "" then Raised(ClaimTokenMismatch)
    else
      match VerifyAttempt(s, b)
      case Raised(code) => Raised(code)
      case Done(current) =>
        match current.execution
        case Unclaimed => Raised(ClaimTokenMismatch)
        case Claimed(t, v) =>
          if t != token then Raised(ClaimTokenMismatch)
          else if v != decisionVersion then Raised(DecisionMismatch)
          else Done(Replaced(s, current, Completed(t, v, result)))
        case Completed(t, v, stored) =>
          if t != token then Raised(ClaimTokenMismatch)
          else if v != decisionVersion then Raised(DecisionMismatch)
          else if stored != result then Raised(ResultMismatch)
          else Done(s)
  }

  // ---------------------------------------------------------------- re-issue

  datatype Reissue = Reissue(
    approvalId: string, jobId: string, toolCallId: string, nonce: string, turnId: string, tenant: string,
    generation: string, policyId: string)

  /** Identifiers the re-issue draws; none of them names anything yet. */
  datatype Minted = Minted(approvalId: string, turnId: string, nonce: string)

  datatype Reissued = Reissued(ledger: Ledger, approvalId: string, nonce: string, turnId: string, created: bool)

  ghost function TheTurn(turns: set<TurnKey>): (k: TurnKey)
    requires |turns| == 1
    ensures k in turns
  {
    assert turns != {};
    var k :| k in turns; k
  }

  /** The successor a re-issue expired the predecessor for. */
  ghost function SuccessorOf(s: Ledger, r: Request, q: Reissue): Option<Reissued> {
    match AnyRow(set b | b in RowsForCall(s, q.jobId, q.toolCallId) && b.tenant == q.tenant)
    case None => None
    case Some(b) =>
      var turns := Linking(s, q.jobId, q.toolCallId, b.nonce, q.tenant);
      if r.reason != Some(REISSUED_AS + b.approvalId) || |turns| != 1 then None
      else Some(Reissued(s, b.approvalId, b.nonce, TheTurn(turns).turnId, false))
  }

  function Fresh(r: Request, policyId: string): Request {
    r.(state := Created, version := 0, deciderId := None, decision := None, reason := None, policyId := policyId)
  }

  function SuccessorPayload(q: Reissue, m: Minted, b: Binding): Payload {
    Payload(m.approvalId, q.jobId, q.toolCallId, m.nonce, q.tenant, b.toolName, b.operands)
  }

  /** Request and root turn of the successor, not yet bound. */
  function WithSuccessor(s: Ledger, q: Reissue, m: Minted): Ledger
    requires q.approvalId in s.requests && TurnKey(q.jobId, q.turnId) in s.turns
  {
    var t := s.turns[TurnKey(q.jobId, q.turnId)];
    s.(requests := s.requests[m.approvalId := Fresh(s.requests[q.approvalId], q.policyId)],
       turns := s.turns[TurnKey(q.jobId, m.turnId) := RootTurn(q.tenant, t.authority, q.generation, [])])
  }

  predicate Unused(s: Ledger, q: Reissue, m: Minted) {
    m.approvalId !in s.requests && TurnKey(q.jobId, m.turnId) !in s.turns
  }

  /** Bind the successor to the captured call, link it from its turn and make it pending. */
  ghost function PublishSuccessor(w: Ledger, q: Reissue, m: Minted, b: Binding): Outcome<Reissued>
    requires BindingsOwned(w)
  {
    match Park(w, SuccessorPayload(q, m, b), Some(q.generation))
    case Raised(code) => Raised(code)
    case Done(parked) =>
      match LinkTurn(parked.ledger, TurnKey(q.jobId, m.turnId), q.toolCallId, parked.nonce, q.tenant)
      case Raised(code) => Raised(code)
      case Done(linked) =>
        if m.approvalId !in linked.requests then Raised(NotFound)
        else
          var c := linked.requests[m.approvalId];
          match WriteTransition(linked, m.approvalId, c.(state := PendingUser, version := c.version + 1))
          case Raised(code) => Raised(code)
          case Done(published) => Done(Reissued(published, m.approvalId, parked.nonce, m.turnId, true))
  }

  /** Re-issue an unexecuted parked call under the current policy generation. */
  ghost function ReissueParked(s: Ledger, q: Reissue, m: Minted): Outcome<Reissued>
    requires BindingsOwned(s) && Unused(s, q, m)
  {
    if q.approvalId !in s.requests then Raised(MissingRootTurn)
    else
      var r := s.requests[q.approvalId];
      var issued := if r.state.Expired? then SuccessorOf(s, r, q) else None;
      if issued.Some? then Done(issued.value)
      else
        var k := TurnKey(q.jobId, q.turnId);
        if k !in s.turns || s.turns[k].tenant != q.tenant then Raised(MissingRootTurn)
        else
          match ReadBinding(s, q.jobId, q.toolCallId, q.nonce, q.tenant)
          case Raised(code) => Raised(code)
          case Done(b) =>
            PublishSuccessor(WithSuccessor(s, q, m), q, m, b)
  }

  // ------------------------------------------------------------------ grants

  function CreateGrant(s: Ledger, grantId: string, g: Grant): Outcome<Ledger> {
    if g.via in s.fences then Raised(Fenced)
    else if g.via !in s.requests then Raised(NotPermitted)
    else
      var r := s.requests[g.via];
      if !r.constraint.Standard? || !r.state.Approved? || r.decision != Some(Approved) || r.userId != g.userId
         || r.toolName != g.toolName || r.grantScope != Some(g.scope) || r.reuseMode.Disabled?
         || (r.reuseMode.Exact? && r.reuseKey != Some(g.scope)) then Raised(NotPermitted)
      else if grantId in s.grants then Raised(DuplicateKey)
      else Done(s.(grants := s.grants[grantId := g]))
  }

  function RevokeGrant(s: Ledger, grantId: string): Ledger {
    if grantId in s.grants then s.(grants := s.grants[grantId := s.grants[grantId].(revoked := true)]) else s
  }

  /** Cancellation hides and revokes every grant minted through the approval. */
  function Fence(s: Ledger, id: string, owner: Owner): Outcome<Ledger> {
    if id !in s.requests then Raised(NotFound)
    else if !Owns(owner, s.requests[id]) then Done(s)
    else Done(s.(fences := s.fences + {id}, grants := RevokedVia(s.grants, id)))
  }

  /** The grants a lookup may return. */
  function Findable(s: Ledger, userId: string, toolName: string, scope: string, constraint: Constraint,
                    mode: ReuseMode, key: Option<string>, now: int): set<string> {
    if !constraint.Standard? || mode.Disabled? then {}
    else set g | g in s.grants && s.grants[g].via in s.requests
                 && s.grants[g].userId == userId && s.grants[g].toolName == toolName && s.grants[g].scope == scope
                 && !s.grants[g].revoked && (s.grants[g].expiresAt.Some? ==> s.grants[g].expiresAt.value > now)
                    && s.grants[g].via !in s.fences
                 && s.requests[s.grants[g].via].reuseMode == mode
                 && (mode.Exact? ==> s.requests[s.grants[g].via].reuseKey == key)
  }

  // -------------------------------------------------------------- all writers

  datatype Op =
    | OpCreate(id: string, request: Request)
    | OpTransition(id: string, state: ApprovalState, expected: Option<int>, decider: Option<string>,
                   decision: Option<ApprovalState>, reason: Option<string>)
    | OpCancel(id: string, owner: Owner, decider: Option<string>, why: string)
    | OpAbort(id: string, owner: Owner, why: string)
    | OpVote(voteId: string, vote: Vote, reason: Option<string>)
    | OpUpdate(id: string, request: Request)
    | OpRecord(payload: Payload)
    | OpPark(payload: Payload, generation: Option<string>)
    | OpSupersede(predecessor: string, successor: string, planPending: bool)
    | OpTurn(key: TurnKey, tenant: string, authority: string, policy: string)
    | OpLink(key: TurnKey, toolCallId: string, nonce: string, tenant: string)
    | OpReissue(request_: Reissue, minted: Minted)
    | OpClaim(binding: Binding, version: int, token: string)
    | OpComplete(binding: Binding, version: int, token: string, result: string)
    | OpGrant(grantId: string, grant: Grant)
    | OpRevoke(grantId: string)
    | OpRevokeVia(id: string)
    | OpFence(id: string, owner: Owner)

  function After(s: Ledger, o: Outcome<Ledger>): Ledger {
    match o { case Done(s') => s' case Raised(_) => s }
  }

  /** Votes approve or deny; fresh identifiers are fresh. */
  predicate Legal(s: Ledger, op: Op) {
    && (op.OpVote? ==> op.vote.decision in {Approved, Denied})
    && (op.OpReissue? ==> Unused(s, op.request_, op.minted))
  }

  ghost function Step(s: Ledger, op: Op): Ledger
    requires BindingsOwned(s) && Legal(s, op)
  {
    match op
    case OpCreate(id, r) => After(s, CreateRequest(s, id, r))
    case OpTransition(id, state, expected, decider, decision, reason) =>
      After(s, Transition(s, id, state, expected, decider, decision, reason))
    case OpCancel(id, owner, decider, why) => After(s, Cancel(s, id, owner, decider, why))
    case OpAbort(id, owner, why) => After(s, Abort(s, id, owner, why))
    case OpVote(voteId, vote, reason) => After(s, RecordVote(s, voteId, vote, reason))
    case OpUpdate(id, r) => After(s, UpdateRequest(s, id, r))
    case OpRecord(p) => After(s, RecordBinding(s, p))
    case OpPark(p, generation) => (match Park(s, p, generation) case Done(x) => x.ledger case Raised(_) => s)
    case OpSupersede(a, b, pending) => After(s, Supersede(s, a, b, pending))
    case OpTurn(k, tenant, authority, policy) => After(s, RecordTurn(s, k, tenant, authority, policy))
    case OpLink(k, call, nonce, tenant) => After(s, LinkTurn(s, k, call, nonce, tenant))
    case OpReissue(q, m) => (match ReissueParked(s, q, m) case Done(x) => x.ledger case Raised(_) => s)
    case OpClaim(b, version, token) =>
      (match Claim(s, b, version, token) case Done(Reserved(s')) => s' case _ => s)
    case OpComplete(b, version, token, result) => After(s, Complete(s, b, version, token, result))
    case OpGrant(id, g) => After(s, CreateGrant(s, id, g))
    case OpRevoke(id) => RevokeGrant(s, id)
    case OpRevokeVia(id) => s.(grants := RevokedVia(s.grants, id))
    case OpFence(id, owner) => After(s, Fence(s, id, owner))
  }
}
