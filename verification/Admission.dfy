/** Admission: what authority a child, a resumed job, a message or a handle read gets from
    the context it comes from, and what that means along a whole lineage. */
module Admission {
  import opened Json

  const RUN_AGENT := "run_agent"

  datatype Tenant = Tenant(storageId: string, role: string)

  datatype ResearchBinding = ResearchBinding(fileId: Option<int>, ticker: Option<string>)

  /** The authority a running job may narrow for others; `None` tools or children mean unrestricted. */
  datatype Context = Context(
    tenant: Option<Tenant>,
    binding: ResearchBinding,
    children: Option<set<string>>,
    tools: Option<set<string>>,
    withheld: set<string>,
    handles: set<string>,
    jobId: Option<string>,
    depth: int)

  /** The admitted facts recorded for a child. */
  datatype Admitted = Admitted(
    tenant: Option<Tenant>,
    binding: ResearchBinding,
    children: set<string>,
    grant: set<string>,
    withheld: set<string>,
    handles: set<string>,
    parentJobId: Option<string>,
    depth: int)

  datatype Operation = Operation(
    name: string,
    routeCeiling: set<string>,
    operationRoutes: set<string>,
    routeToolNames: map<string, string>,
    children: set<string>)

  datatype SpawnRequest = SpawnRequest(operation: string, handles: set<string>, binding: Option<ResearchBinding>)

  /** What the runtime supplies to a spawn. `resolved` is what the tool resolver keeps of the
      routes it is offered, or nothing when the operation is unavailable. */
  datatype SpawnOwners = SpawnOwners(
    operation: Operation,
    maxDepth: int,
    identity: Option<Tenant>,
    outputs: set<string>,
    registered: set<string>,
    roleDenied: set<string>,
    resolved: Option<set<string>>)

  datatype Refusal =
    | DepthExceeded | TenantMismatch | GrantExceedsParent | HandleNotGranted | BindingNotGranted | BindingAmbiguous
    | OperationUnavailable | Unauthenticated

  datatype Decision<+T> = Refused(why: Refusal) | Allowed(value: T)

  // ------------------------------------------------------------------- spawn

  function PolicyName(op: Operation, tool: string): string {
    if tool in op.routeToolNames then op.routeToolNames[tool] else tool
  }

  predicate Holds(parent: Context, op: Operation, tool: string) {
    tool in op.operationRoutes || parent.tools.None? || tool in parent.tools.value
  }

  /** Whether one route of the operation's ceiling passes to the child. */
  predicate Passes(parent: Context, o: SpawnOwners, tool: string) {
    && tool in o.registered
    && Holds(parent, o.operation, tool)
    && tool !in parent.withheld
    && PolicyName(o.operation, tool) !in parent.withheld
    && PolicyName(o.operation, tool) !in o.roleDenied
    && (tool == RUN_AGENT ==> o.operation.children != {} && !(o.maxDepth >= 0 && parent.depth + 1 >= o.maxDepth))
  }

  function Granted(parent: Context, o: SpawnOwners): set<string> {
    set tool | tool in o.operation.routeCeiling && Passes(parent, o, tool)
  }

  /** Walk the operation's route ceiling and keep what passes. */
  method GrantRoutes(parent: Context, o: SpawnOwners) returns (granted: set<string>)
    ensures granted == Granted(parent, o)
  {
    granted := {};
    var rest := o.operation.routeCeiling;
    while rest != {}
      invariant rest <= o.operation.routeCeiling
      invariant granted == set tool | tool in o.operation.routeCeiling - rest && Passes(parent, o, tool)
      decreases rest
    {
      var tool :| tool in rest;
      rest := rest - {tool};
      if tool !in o.registered {
        continue;
      }
      var name := PolicyName(o.operation, tool);
      if !Holds(parent, o.operation, tool) || tool in parent.withheld || name in parent.withheld
         || name in o.roleDenied {
        continue;
      }
      if tool == RUN_AGENT && (o.operation.children == {} || (o.maxDepth >= 0 && parent.depth + 1 >= o.maxDepth)) {
        continue;
      }
      granted := granted + {tool};
    }
  }

  function OrElse<T>(a: Option<T>, b: Option<T>): Option<T> {
    if a.Some? then a else b
  }

  /** The child's research binding: its own request over the parent's, which it may not leave. */
  function Rebind(parent: ResearchBinding, requested: Option<ResearchBinding>): Decision<ResearchBinding> {
    match requested
    case None => Allowed(parent)
    case Some(r) =>
      if parent.fileId.Some? && r.fileId.Some? && r.fileId != parent.fileId then Refused(BindingNotGranted)
      else if parent.fileId.Some? && r.fileId.None? && r.ticker.Some? && r.ticker != parent.ticker then
                Refused(BindingAmbiguous)
      else Allowed(ResearchBinding(OrElse(r.fileId, parent.fileId), OrElse(r.ticker, parent.ticker)))
  }

  function AdmitSpawn(q: SpawnRequest, parent: Context, o: SpawnOwners): Decision<Admitted> {
    if o.maxDepth >= 0 && parent.depth >= o.maxDepth then Refused(DepthExceeded)
    else if o.identity.Some? && o.identity != parent.tenant then Refused(TenantMismatch)
    else if parent.children.Some? && q.operation !in parent.children.value then Refused(GrantExceedsParent)
    else if !(q.handles <= parent.handles + o.outputs) then Refused(HandleNotGranted)
    else
      match Rebind(parent.binding, q.binding)
      case Refused(why) => Refused(why)
      case Allowed(binding) =>
        if o.resolved.None? then Refused(OperationUnavailable)
        else Allowed(Admitted(parent.tenant, binding, o.operation.children, Granted(parent, o) * o.resolved.value,
                              parent.withheld, q.handles, parent.jobId, parent.depth + 1))
  }

  /** The context a child's own descendants narrow. */
  function ContextForChild(a: Admitted, jobId: string): Context {
    Context(a.tenant, a.binding, Some(a.children), Some(a.grant), a.withheld, a.handles, Some(jobId), a.depth)
  }

  // ------------------------------------------- continuation, message and read

  /** A durable task: the grant it was admitted with, its readable content, and its journal entry. */
  datatype Task = Task(grant: set<string>, content: set<string>, original: Option<Admitted>)

  function AdmitContinuation(task: Task, parent: Context, binding: ResearchBinding): Decision<Admitted> {
    match task.original
    case None =>
      Allowed(Admitted(parent.tenant, binding, {}, task.grant, parent.withheld, task.content, parent.jobId,
                       parent.depth + 1))
    case Some(original) =>
      if original.tenant != parent.tenant then Refused(TenantMismatch)
      else Allowed(original.(grant := task.grant, withheld := parent.withheld + original.withheld, binding := binding))
  }

  function WithOutputs(c: Context, outputs: set<string>): Context {
    if outputs <= c.handles then c else c.(handles := c.handles + outputs)
  }

  function AdmitMessage(sender: Context, recipient: Option<Tenant>, refs: set<string>,
                        outputs: set<string>): Decision<Context> {
    if sender.tenant.None? || recipient.None? then Refused(Unauthenticated)
    else if sender.tenant != recipient then Refused(TenantMismatch)
    else if !(refs <= WithOutputs(sender, outputs).handles) then Refused(HandleNotGranted)
    else Allowed(WithOutputs(sender, outputs))
  }

  function AdmitHandle(reader: Context, handle: string, outputs: set<string>): Decision<Context> {
    if reader.tenant.None? then Refused(Unauthenticated)
    else if handle !in WithOutputs(reader, outputs).handles then Refused(HandleNotGranted)
    else Allowed(WithOutputs(reader, outputs))
  }

  // ----------------------------------------------------------------- lineages

  /** One admission along a lineage. */
  datatype Move =
    | Spawn(request: SpawnRequest, owners: SpawnOwners, jobId: string)
    | Resume(task: Task, binding: ResearchBinding, jobId: string)
    | Message(recipient: Option<Tenant>, refs: set<string>, outputs: set<string>)
    | Read(handle: string, outputs: set<string>)

  function Child(d: Decision<Admitted>, jobId: string): Decision<Context> {
    match d
    case Refused(why) => Refused(why)
    case Allowed(a) => Allowed(ContextForChild(a, jobId))
  }

  function Advance(c: Context, m: Move): Decision<Context> {
    match m
    case Spawn(q, o, jobId) => Child(AdmitSpawn(q, c, o), jobId)
    case Resume(task, binding, jobId) => Child(AdmitContinuation(task, c, binding), jobId)
    case Message(recipient, refs, outputs) => AdmitMessage(c, recipient, refs, outputs)
    case Read(handle, outputs) => AdmitHandle(c, handle, outputs)
  }

  /** The context at the end of a chain of admissions, unless one was refused. */
  function Lineage(root: Context, moves: seq<Move>): Decision<Context> {
    if moves == [] then Allowed(root)
    else
      match Lineage(root, moves[..|moves| - 1])
      case Refused(why) => Refused(why)
      case Allowed(c) => Advance(c, moves[|moves| - 1])
  }

  /** Every ancestor of an admitted context was itself admitted. */
  lemma {:induction false} AncestorAllowed(root: Context, moves: seq<Move>, i: nat)
    requires i <= |moves| && Lineage(root, moves).Allowed?
    ensures Lineage(root, moves[..i]).Allowed?
    decreases |moves|
  {
    if i == |moves| {
      assert moves[..i] == moves;
    } else {
      hide Advance;
      var before := moves[..|moves| - 1];
      AncestorAllowed(root, before, i);
      assert before[..i] == moves[..i];
    }
  }

  lemma AdvanceWithholds(c: Context, m: Move)
    requires Advance(c, m).Allowed?
    ensures c.withheld <= Advance(c, m).value.withheld
  {
  }

  /** What any ancestor withheld stays withheld, through spawns, resumptions and messages. */
  lemma {:induction false} WithheldOnlyGrows(root: Context, moves: seq<Move>, i: nat)
    requires i <= |moves| && Lineage(root, moves).Allowed?
    ensures Lineage(root, moves[..i]).Allowed?
    ensures Lineage(root, moves[..i]).value.withheld <= Lineage(root, moves).value.withheld
    decreases |moves|
  {
    AncestorAllowed(root, moves, i);
    if i == |moves| {
      assert moves[..i] == moves;
    } else {
      var before := moves[..|moves| - 1];
      WithheldOnlyGrows(root, before, i);
      assert before[..i] == moves[..i];
      AdvanceWithholds(Lineage(root, before).value, moves[|moves| - 1]);
    }
  }

  /** No spawned descendant is granted a route that any ancestor withheld, by route id or by
      the name policy knows it under. */
  lemma SpawnNeverGrantsWithheld(root: Context, moves: seq<Move>, i: nat, tool: string)
    requires 0 < |moves| && moves[|moves| - 1].Spawn? && Lineage(root, moves).Allowed?
    requires i < |moves| && tool in Lineage(root, moves).value.tools.value
    ensures Lineage(root, moves[..i]).Allowed?
    ensures var withheld := Lineage(root, moves[..i]).value.withheld;
            tool !in withheld && PolicyName(moves[|moves| - 1].owners.operation, tool) !in withheld
  {
    var before := moves[..|moves| - 1];
    AncestorAllowed(root, moves, |moves| - 1);
    WithheldOnlyGrows(root, before, i);
    assert before[..i] == moves[..i];
  }

  /** A resumed job keeps its durable grant, withheld routes included; its own children get none
      of those. */
  lemma ResumeKeepsDurableGrant(root: Context, moves: seq<Move>, task: Task, binding: ResearchBinding, jobId: string,
                                tool: string)
    requires Lineage(root, moves + [Resume(task, binding, jobId)]).Allowed?
    ensures Lineage(root, moves).Allowed?
    ensures var c := Lineage(root, moves + [Resume(task, binding, jobId)]).value;
            && c.tools == Some(task.grant)
            && forall q, o, kid |
                 Advance(c, Spawn(q, o, kid)).Allowed? && tool in Lineage(root, moves).value.withheld ::
                 tool !in Advance(c, Spawn(q, o, kid)).value.tools.value
  {
    assert (moves + [Resume(task, binding, jobId)])[..|moves|] == moves;
  }

  /** Everything a lineage could have been handed: outputs shown to it and content of the
      durable tasks it resumed. */
  function Supplied(moves: seq<Move>): set<string> {
    if moves == [] then {}
    else
      Supplied(moves[..|moves| - 1]) +
      match moves[|moves| - 1]
      case Spawn(_, o, _) => o.outputs
      case Resume(task, _, _) => (if task.original.Some? then task.original.value.handles else task.content)
      case Message(_, _, outputs) => outputs
      case Read(_, outputs) => outputs
  }

  /** No handle appears from nowhere: each was the root's or was supplied on the path. */
  lemma {:induction false} HandlesWereSupplied(root: Context, moves: seq<Move>)
    requires Lineage(root, moves).Allowed?
    ensures Lineage(root, moves).value.handles <= root.handles + Supplied(moves)
  {
    if moves == [] {
    } else {
      HandlesWereSupplied(root, moves[..|moves| - 1]);
    }
  }

  /** Routes the operations and durable tasks on the path bring with them. */
  function Introduced(moves: seq<Move>): set<string> {
    if moves == [] then {}
    else
      Introduced(moves[..|moves| - 1]) +
      match moves[|moves| - 1]
      case Spawn(_, o, _) => o.operation.operationRoutes
      case Resume(task, _, _) => task.grant
      case Message(_, _, _) => {}
      case Read(_, _) => {}
  }

  /** No tool appears from nowhere: each was the root's, or an operation or task on the path brought it. */
  lemma {:induction false} ToolsTraceBack(root: Context, moves: seq<Move>, tool: string)
    requires Lineage(root, moves).Allowed? && root.tools.Some?
    requires tool !in root.tools.value + Introduced(moves)
    ensures Lineage(root, moves).value.tools.Some? && tool !in Lineage(root, moves).value.tools.value
  {
    if moves == [] {
    } else {
      ToolsTraceBack(root, moves[..|moves| - 1], tool);
    }
  }

  predicate NoResume(moves: seq<Move>) {
    forall i :: 0 <= i < |moves| ==> !moves[i].Resume?
  }

  /** A bound research file never changes under spawns, and only an explicit file may come
      with another ticker. */
  lemma {:induction false} ResearchFileIsFixed(root: Context, moves: seq<Move>)
    requires NoResume(moves) && root.binding.fileId.Some? && Lineage(root, moves).Allowed?
    ensures Lineage(root, moves).value.binding.fileId == root.binding.fileId
    ensures (forall i :: 0 <= i < |moves| && moves[i].Spawn? && moves[i].request.binding.Some?
                         ==> moves[i].request.binding.value.fileId.None?)
            ==> Lineage(root, moves).value.binding == root.binding
  {
    if moves == [] {
    } else {
      ResearchFileIsFixed(root, moves[..|moves| - 1]);
      assert moves[|moves| - 1] in moves;
    }
  }

  function Spawns(moves: seq<Move>): nat {
    if moves == [] then 0 else Spawns(moves[..|moves| - 1]) + (if moves[|moves| - 1].Spawn? then 1 else 0)
  }

  predicate SameLimit(moves: seq<Move>, maxDepth: int) {
    forall i :: 0 <= i < |moves| && moves[i].Spawn? ==> moves[i].owners.maxDepth == maxDepth
  }

  /** Depth counts spawns exactly, and a lineage under one limit never spawns past it. */
  lemma {:induction false} DepthIsBounded(root: Context, moves: seq<Move>, maxDepth: int)
    requires NoResume(moves) && SameLimit(moves, maxDepth) && Lineage(root, moves).Allowed?
    ensures Lineage(root, moves).value.depth == root.depth + Spawns(moves)
    ensures maxDepth >= 0 && Spawns(moves) > 0 ==> root.depth + Spawns(moves) <= maxDepth
  {
    if moves == [] {
    } else {
      DepthIsBounded(root, moves[..|moves| - 1], maxDepth);
    }
  }

  /** The deepest tier cannot spawn: it is granted no `run_agent`, and a spawn from it is refused. */
  lemma DeepestTierCannotSpawn(root: Context, moves: seq<Move>, maxDepth: int, q: SpawnRequest, o: SpawnOwners)
    requires 0 < |moves| && moves[|moves| - 1].Spawn? && NoResume(moves) && SameLimit(moves, maxDepth)
    requires Lineage(root, moves).Allowed? && maxDepth >= 0 && root.depth + Spawns(moves) >= maxDepth
    requires o.maxDepth == maxDepth
    ensures RUN_AGENT !in Lineage(root, moves).value.tools.value
    ensures AdmitSpawn(q, Lineage(root, moves).value, o) == Refused(DepthExceeded)
  {
    DepthIsBounded(root, moves, maxDepth);
    AncestorAllowed(root, moves, |moves| - 1);
    DepthIsBounded(root, moves[..|moves| - 1], maxDepth);
  }

  /** A lineage never changes tenant. */
  lemma {:induction false} TenantIsFixed(root: Context, moves: seq<Move>)
    requires Lineage(root, moves).Allowed?
    ensures Lineage(root, moves).value.tenant == root.tenant
  {
    if moves == [] {
    } else {
      TenantIsFixed(root, moves[..|moves| - 1]);
    }
  }

  /** What an admission refers to by handle. */
  function Referenced(m: Move): set<string> {
    match m
    case Spawn(q, _, _) => q.handles
    case Resume(_, _, _) => {}
    case Message(_, refs, _) => refs
    case Read(handle, _) => {handle}
  }

  /** Whatever a spawn passes on, a message attaches or a read opens was the root's or was
      supplied on the path. */
  lemma ReferencesWereSupplied(root: Context, moves: seq<Move>, i: nat)
    requires i < |moves| && Lineage(root, moves).Allowed?
    ensures Referenced(moves[i]) <= root.handles + Supplied(moves[..i + 1])
  {
    AncestorAllowed(root, moves, i);
    AncestorAllowed(root, moves, i + 1);
    HandlesWereSupplied(root, moves[..i]);
    assert moves[..i + 1][..i] == moves[..i];
  }

  lemma LastStep(root: Context, moves: seq<Move>, i: nat)
    requires i < |moves| && Lineage(root, moves).Allowed?
    ensures Lineage(root, moves[..i]).Allowed? && Lineage(root, moves[..i + 1]).Allowed?
    ensures Lineage(root, moves[..i + 1]) == Advance(Lineage(root, moves[..i]).value, moves[i])
  {
    AncestorAllowed(root, moves, i);
    AncestorAllowed(root, moves, i + 1);
    assert moves[..i + 1][..i] == moves[..i];
  }

  predicate NoBirths(moves: seq<Move>, i: nat, j: nat)
    requires i <= j <= |moves|
  {
    forall k :: i <= k < j ==> moves[k].Message? || moves[k].Read?
  }

  lemma ReferencesKeepChildren(c: Context, m: Move)
    requires (m.Message? || m.Read?) && Advance(c, m).Allowed?
    ensures Advance(c, m).value.children == c.children
  {
  }

  lemma {:induction false} ChildrenAreKept(root: Context, moves: seq<Move>, i: nat, j: nat)
    requires i <= j <= |moves| && Lineage(root, moves).Allowed? && NoBirths(moves, i, j)
    ensures Lineage(root, moves[..i]).Allowed? && Lineage(root, moves[..j]).Allowed?
    ensures Lineage(root, moves[..j]).value.children == Lineage(root, moves[..i]).value.children
    decreases j
  {
    AncestorAllowed(root, moves, i);
    AncestorAllowed(root, moves, j);
    if i < j {
      hide Lineage;
      hide Advance;
      ChildrenAreKept(root, moves, i, j - 1);
      LastStep(root, moves, j - 1);
      ReferencesKeepChildren(Lineage(root, moves[..j - 1]).value, moves[j - 1]);
    }
  }

  /** Along a lineage each job spawns only operations its own operation declares. */
  lemma SpawnsAreDeclared(root: Context, moves: seq<Move>, i: nat, j: nat)
    requires i < j < |moves| && moves[i].Spawn? && moves[j].Spawn? && Lineage(root, moves).Allowed?
    requires NoBirths(moves, i + 1, j)
    ensures moves[j].request.operation in moves[i].owners.operation.children
  {
    LastStep(root, moves, i);
    LastStep(root, moves, j);
    ChildrenAreKept(root, moves, i + 1, j);
  }

  /** A child identity is admitted only as the tenant the lineage started with. */
  lemma IdentityIsTheTenants(root: Context, moves: seq<Move>, i: nat)
    requires i < |moves| && moves[i].Spawn? && moves[i].owners.identity.Some? && Lineage(root, moves).Allowed?
    ensures moves[i].owners.identity == root.tenant
  {
    LastStep(root, moves, i);
    TenantIsFixed(root, moves[..i]);
  }

  /** A message reaches only an authenticated recipient of the lineage's own tenant. */
  lemma MessagesStayWithTenant(root: Context, moves: seq<Move>, i: nat)
    requires i < |moves| && moves[i].Message? && Lineage(root, moves).Allowed?
    ensures moves[i].recipient.Some? && moves[i].recipient == root.tenant
  {
    LastStep(root, moves, i);
    TenantIsFixed(root, moves[..i]);
  }

  // ------------------------------------------------- exactly what is admitted

  /** What a spawn grants, tool by tool: a registered route of the operation's ceiling that the
      resolver keeps, that the operation brings or the parent holds, withheld from the parent
      neither by id nor by the name policy knows it under, and not denied to the role under that
      name; `run_agent` only for an operation with children above the deepest tier. */
  lemma SpawnGrantIff(root: Context, moves: seq<Move>, tool: string)
    requires 0 < |moves| && moves[|moves| - 1].Spawn? && Lineage(root, moves).Allowed?
    ensures Lineage(root, moves[..|moves| - 1]).Allowed?
    ensures var parent, o := Lineage(root, moves[..|moves| - 1]).value, moves[|moves| - 1].owners;
            var op := o.operation;
            var name := if tool in op.routeToolNames then op.routeToolNames[tool] else tool;
            && o.resolved.Some? && Lineage(root, moves).value.tools.Some?
            && (tool in Lineage(root, moves).value.tools.value <==>
                  && tool in op.routeCeiling && tool in o.registered && tool in o.resolved.value
                  && (tool in op.operationRoutes || parent.tools.None? || tool in parent.tools.value)
                  && tool !in parent.withheld && name !in parent.withheld && name !in o.roleDenied
                  && (tool == "run_agent" ==>
                        op.children != {} && (o.maxDepth < 0 || parent.depth + 1 < o.maxDepth)))
  {
  }

  lemma {:induction false} WithoutResumes(root: Context, moves: seq<Move>)
    requires NoResume(moves) && Lineage(root, moves).Allowed?
    ensures Lineage(root, moves).value.withheld == root.withheld
    ensures Lineage(root, moves).value.depth == root.depth + Spawns(moves)
  {
    if moves != [] {
      WithoutResumes(root, moves[..|moves| - 1]);
    }
  }

  /** The k-th spawn lets the tool through, whoever holds it. */
  predicate LetsThrough(root: Context, moves: seq<Move>, k: nat, tool: string)
    requires k < |moves| && moves[k].Spawn?
  {
    var o := moves[k].owners; var op := o.operation;
    var name := if tool in op.routeToolNames then op.routeToolNames[tool] else tool;
    && tool in op.routeCeiling && tool in o.registered && (o.resolved.Some? ==> tool in o.resolved.value)
    && tool !in root.withheld && name !in root.withheld && name !in o.roleDenied
    && (tool == "run_agent" ==>
          op.children != {} && (o.maxDepth < 0 || root.depth + Spawns(moves[..k]) + 1 < o.maxDepth))
  }

  /** The tool enters at this point: the root had it, or the operation spawned here brings it. */
  predicate Enters(root: Context, moves: seq<Move>, j: nat, tool: string) {
    || (j == 0 && (root.tools.None? || tool in root.tools.value))
    || (j < |moves| && moves[j].Spawn? && tool in moves[j].owners.operation.operationRoutes)
  }

  predicate LetThroughFrom(root: Context, moves: seq<Move>, j: nat, tool: string) {
    forall k | j <= k < |moves| && moves[k].Spawn? :: LetsThrough(root, moves, k, tool)
  }

  lemma LetThroughStep(root: Context, moves: seq<Move>, j: nat, tool: string)
    requires moves != [] && j < |moves|
    ensures LetThroughFrom(root, moves, j, tool) <==>
              LetThroughFrom(root, moves[..|moves| - 1], j, tool)
              && (moves[|moves| - 1].Spawn? ==> LetsThrough(root, moves, |moves| - 1, tool))
  {
    var n := |moves| - 1;
    forall k | 0 <= k < n && moves[k].Spawn?
      ensures LetsThrough(root, moves[..n], k, tool) <==> LetsThrough(root, moves, k, tool)
    {
      assert moves[..n][..k] == moves[..k];
    }
    hide LetsThrough;
    assert forall k :: 0 <= k < n ==> moves[..n][k] == moves[k];
  }

  /** Where a tool comes from, exactly, along every lineage of spawns, messages and reads: a
      job holds it if and only if it entered at some point, as the root's or through a spawned
      operation, and every spawn from there on let it through. */
  lemma {:induction false} HeldIff(root: Context, moves: seq<Move>, tool: string)
    requires NoResume(moves) && Lineage(root, moves).Allowed?
    ensures var tools := Lineage(root, moves).value.tools;
            (tools.None? || tool in tools.value) <==>
              exists j: nat :: j <= |moves| && Enters(root, moves, j, tool) && LetThroughFrom(root, moves, j, tool)
    decreases |moves|
  {
    if moves == [] {
      assert LetThroughFrom(root, moves, 0, tool);
    } else {
      var n := |moves| - 1;
      var before := moves[..n];
      HeldIff(root, before, tool);
      WithoutResumes(root, before);
      var last := moves[n];
      if last.Spawn? {
        SpawnGrantIff(root, moves, tool);
      }
      assert (last.Spawn? && (var tools := Lineage(root, moves).value.tools; tools.None? || tool in tools.value)) ==>
          LetsThrough(root, moves, n, tool);
      HeldByEntry(root, moves, tool);
    }
  }

  /** The entry points of a lineage, one move on. */
  lemma HeldByEntry(root: Context, moves: seq<Move>, tool: string)
    requires moves != []
    ensures (exists j: nat :: j <= |moves| && Enters(root, moves, j, tool) && LetThroughFrom(root, moves, j, tool)) <==>
              var n := |moves| - 1; var before := moves[..n];
              && (moves[n].Spawn? ==> LetsThrough(root, moves, n, tool))
              && (|| (moves[n].Spawn? && tool in moves[n].owners.operation.operationRoutes)
                  || exists j: nat :: j <= n && Enters(root, before, j, tool) && LetThroughFrom(root, before, j, tool))
  {
    var n := |moves| - 1;
    var before := moves[..n];
    forall j: nat | j <= n
      ensures LetThroughFrom(root, moves, j, tool) <==>
                LetThroughFrom(root, before, j, tool) && (moves[n].Spawn? ==> LetsThrough(root, moves, n, tool))
      ensures Enters(root, moves, j, tool) <==>
                Enters(root, before, j, tool)
                || (j == n && moves[n].Spawn? && tool in moves[n].owners.operation.operationRoutes)
    {
      LetThroughStep(root, moves, j, tool);
    }
    assert LetThroughFrom(root, before, n, tool);
    assert !Enters(root, moves, n + 1, tool);
    hide LetThroughFrom;
    hide LetsThrough;
    hide Enters;
  }

  /** The child's binding may be asked for: a bound file is not left, nor its ticker changed
      without naming it. */
  predicate MayRebind(parent: ResearchBinding, wanted: Option<ResearchBinding>) {
    wanted.Some? && parent.fileId.Some? ==>
      (wanted.value.fileId.None? && (wanted.value.ticker.None? || wanted.value.ticker == parent.ticker))
      || wanted.value.fileId == parent.fileId
  }

  /** Exactly when a job of a lineage may spawn, and what its child then records. */
  lemma SpawnIff(root: Context, moves: seq<Move>, q: SpawnRequest, o: SpawnOwners, jobId: string)
    requires Lineage(root, moves).Allowed?
    ensures var c := Lineage(root, moves).value; var next := Lineage(root, moves + [Spawn(q, o, jobId)]);
            && (next.Allowed? <==>
                  && (o.maxDepth < 0 || c.depth < o.maxDepth)
                  && (o.identity.None? || o.identity == root.tenant)
                  && (c.children.None? || q.operation in c.children.value)
                  && (forall h :: h in q.handles ==> h in c.handles || h in o.outputs)
                  && MayRebind(c.binding, q.binding) && o.resolved.Some?)
            && (next.Allowed? ==>
                  var kid := next.value;
                  && kid.tenant == root.tenant && kid.children == Some(o.operation.children) && kid.handles == q.handles
                  && kid.jobId == Some(jobId) && kid.depth == c.depth + 1
                  && AdmitSpawn(q, c, o).value.parentJobId == c.jobId
                  && (q.binding.None? ==> kid.binding == c.binding)
                  && (q.binding.Some? ==>
                        && kid.binding.fileId == (if q.binding.value.fileId.Some? then q.binding.value.fileId
                                                  else c.binding.fileId)
                        && kid.binding.ticker == (if q.binding.value.ticker.Some? then q.binding.value.ticker
                                                  else c.binding.ticker)))
  {
    TenantIsFixed(root, moves);
    assert (moves + [Spawn(q, o, jobId)])[..|moves|] == moves;
    hide Granted;
    hide Lineage;
    assert Lineage(root, moves + [Spawn(q, o, jobId)]) == Advance(Lineage(root, moves).value, Spawn(q, o, jobId)) by {
      LineageStep(root, moves, Spawn(q, o, jobId));
    }
  }

  lemma LineageStep(root: Context, moves: seq<Move>, m: Move)
    requires Lineage(root, moves).Allowed?
    ensures Lineage(root, moves + [m]) == Advance(Lineage(root, moves).value, m)
  {
    assert (moves + [m])[..|moves|] == moves;
  }

  /** Exactly when a job of a lineage may resume a durable task: a journalled one only of its own
      tenant. The resumed job has the task's grant, the binding given, and everything withheld
      from the lineage or from the task. */
  lemma ResumeIff(root: Context, moves: seq<Move>, task: Task, binding: ResearchBinding, jobId: string)
    requires Lineage(root, moves).Allowed?
    ensures var c := Lineage(root, moves).value; var next := Lineage(root, moves + [Resume(task, binding, jobId)]);
            && (next.Allowed? <==> (task.original.Some? ==> task.original.value.tenant == root.tenant))
            && (next.Allowed? ==>
                  var kid := next.value;
                  && kid.tenant == root.tenant && kid.tools == Some(task.grant) && kid.binding == binding
                  && kid.jobId == Some(jobId)
                  && (if task.original.Some?
                      then var a := task.original.value;
                           kid.withheld == c.withheld + a.withheld
                           && (kid.children, kid.handles, kid.depth) == (Some(a.children), a.handles, a.depth)
                      else kid.withheld == c.withheld
                           && (kid.children, kid.handles, kid.depth) == (Some({}), task.content, c.depth + 1)))
  {
    TenantIsFixed(root, moves);
    LineageStep(root, moves, Resume(task, binding, jobId));
  }

  /** Exactly when a message may be sent and a handle read: between authenticated members of the
      lineage's tenant, and for handles granted or just shown; either only adds what was shown. */
  lemma ReferenceIff(root: Context, moves: seq<Move>, recipient: Option<Tenant>, refs: set<string>,
                     outputs: set<string>, handle: string)
    requires Lineage(root, moves).Allowed?
    ensures var c := Lineage(root, moves).value;
            var sent := Lineage(root, moves + [Message(recipient, refs, outputs)]);
            var unlocked := Lineage(root, moves + [Read(handle, outputs)]);
            && (sent.Allowed? <==>
                  root.tenant.Some? && recipient == root.tenant && forall h :: h in refs ==> h in c.handles + outputs)
            && (unlocked.Allowed? <==> root.tenant.Some? && handle in c.handles + outputs)
            && (sent.Allowed? ==> sent.value == c.(handles := c.handles + outputs))
            && (unlocked.Allowed? ==> unlocked.value == c.(handles := c.handles + outputs))
  {
    TenantIsFixed(root, moves);
    LineageStep(root, moves, Message(recipient, refs, outputs));
    LineageStep(root, moves, Read(handle, outputs));
    var c := Lineage(root, moves).value;
    assert outputs <= c.handles ==> c.handles + outputs == c.handles;
  }
}
