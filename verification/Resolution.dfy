/** Acceptance of a workflow: the contract's own checks, and resolution of nodes and ports against a registry. */
module Resolution {
  import opened Names
  import opened Workflows
  import opened Ordering
  import opened Graph
  import Parameters

  // ---------- the contract ----------

  datatype ContractIssue =
    | DuplicateIds | HasCycle | UnknownSource(index: nat) | UnknownTarget(index: nat) | TypesDiffer(index: nat)
    | SelfEdge(index: nat) | InputToUnknown(index: nat) | OutputFromUnknown(index: nat)

  /** What each issue says about the document. */
  ghost predicate Violates(wf: Workflow, x: ContractIssue) {
    match x
    case DuplicateIds => !DistinctIds(wf)
    case HasCycle => DistinctIds(wf) && exists p :: IsCycle(p, NodeIds(wf), KnownLinks(wf.edges, NodeIds(wf)))
    case UnknownSource(i) => i < |wf.edges| && wf.edges[i].src.node !in NodeIds(wf)
    case UnknownTarget(i) => i < |wf.edges| && wf.edges[i].dst.node !in NodeIds(wf)
    case TypesDiffer(i) => i < |wf.edges| && wf.edges[i].src.atype != wf.edges[i].dst.atype
    case SelfEdge(i) => i < |wf.edges| && wf.edges[i].src.node == wf.edges[i].dst.node
    case InputToUnknown(i) => i < |wf.inputs| && wf.inputs[i].node !in NodeIds(wf)
    case OutputFromUnknown(i) => i < |wf.outputs| && wf.outputs[i].node !in NodeIds(wf)
  }

  predicate AboutEdge(x: ContractIssue) {
    x.UnknownSource? || x.UnknownTarget? || x.TypesDiffer? || x.SelfEdge?
  }

  /** A document without issues is exactly one the contract holds for. */
  lemma NoIssueMeansContract(wf: Workflow)
    ensures (forall x :: !Violates(wf, x)) <==> ContractHolds(wf)
  {
    if forall x :: !Violates(wf, x) {
      assert !Violates(wf, DuplicateIds) && !Violates(wf, HasCycle);
      forall i | 0 <= i < |wf.edges| ensures EdgeLawful(wf.edges[i], NodeIds(wf)) {
        assert !Violates(wf, UnknownSource(i)) && !Violates(wf, UnknownTarget(i))
          && !Violates(wf, TypesDiffer(i)) && !Violates(wf, SelfEdge(i));
      }
      forall i | 0 <= i < |wf.inputs| ensures wf.inputs[i].node in NodeIds(wf) {
        assert !Violates(wf, InputToUnknown(i));
      }
      forall i | 0 <= i < |wf.outputs| ensures wf.outputs[i].node in NodeIds(wf) {
        assert !Violates(wf, OutputFromUnknown(i));
      }
      LawfulLinks(wf);
      AcyclicIffNoCycle(NodeIds(wf), Links(wf));
    }
    if ContractHolds(wf) {
      AcceptedLinks(wf);
      AcyclicIffNoCycle(NodeIds(wf), Links(wf));
    }
  }

  function Ids(nodes: seq<Workflows.Node>): set<Name> {
    set i | 0 <= i < |nodes| :: nodes[i].id
  }

  ghost predicate Distinct(nodes: seq<Workflows.Node>) {
    forall i, j :: 0 <= i < j < |nodes| ==> nodes[i].id != nodes[j].id
  }

  lemma IdsSplit(rest: seq<Workflows.Node>, last: Workflows.Node)
    ensures Ids(rest + [last]) == Ids(rest) + {last.id}
  {
    var nodes := rest + [last];
    forall n ensures n in Ids(nodes) <==> n in Ids(rest) + {last.id} {
      if n in Ids(rest) {
        var i :| 0 <= i < |rest| && rest[i].id == n;
        assert nodes[i].id == n;
      }
      if n == last.id { assert nodes[|rest|].id == n; }
    }
  }

  lemma DistinctSplit(rest: seq<Workflows.Node>, last: Workflows.Node)
    ensures Distinct(rest + [last]) <==> Distinct(rest) && last.id !in Ids(rest)
  {
    var nodes := rest + [last];
    if Distinct(nodes) {
      forall i, j | 0 <= i < j < |rest|
        ensures rest[i].id != rest[j].id
      {
        assert nodes[i] == rest[i] && nodes[j] == rest[j];
      }
      forall i | 0 <= i < |rest| ensures rest[i].id != last.id { assert nodes[i] == rest[i] && nodes[|rest|] == last; }
    }
  }

  /** The count of distinct ids is the length of the list exactly when no id repeats. */
  lemma {:induction false} DistinctByCount(nodes: seq<Workflows.Node>)
    ensures |Ids(nodes)| <= |nodes| && (|Ids(nodes)| == |nodes| <==> Distinct(nodes))
  {
    hide Ids, Distinct;
    if nodes == [] {
      NoIds();
    } else {
      var rest, last := nodes[..|nodes| - 1], nodes[|nodes| - 1];
      assert nodes == rest + [last];
      DistinctByCount(rest);
      IdsSplit(rest, last);
      DistinctSplit(rest, last);
    }
  }

  lemma NoIds()
    ensures Ids([]) == {} && Distinct([])
  {
  }

  lemma CountDecides(wf: Workflow)
    ensures Ids(wf.nodes) == NodeIds(wf) && (|Ids(wf.nodes)| == |wf.nodes| <==> DistinctIds(wf))
  {
    DistinctByCount(wf.nodes);
  }

  method EdgeIssues(wf: Workflow, known: set<Name>) returns (issues: seq<ContractIssue>)
    requires known == NodeIds(wf)
    ensures forall x :: x in issues <==> Violates(wf, x) && AboutEdge(x)
  {
    hide NodeIds, DistinctIds, KnownLinks, IsCycle;
    issues := [];
    for i := 0 to |wf.edges|
      invariant forall x {:trigger x in issues} :: x in issues <==> AboutEdge(x) && x.index < i && Violates(wf, x)
    {
      var e := wf.edges[i];
      if e.src.node !in known { issues := issues + [UnknownSource(i)]; }
      if e.dst.node !in known { issues := issues + [UnknownTarget(i)]; }
      if e.src.atype != e.dst.atype { issues := issues + [TypesDiffer(i)]; }
      if e.src.node == e.dst.node { issues := issues + [SelfEdge(i)]; }
    }
  }

  method EndpointIssues(wf: Workflow, known: set<Name>) returns (issues: seq<ContractIssue>)
    requires known == NodeIds(wf)
    ensures forall x :: x in issues <==> Violates(wf, x) && (x.InputToUnknown? || x.OutputFromUnknown?)
  {
    hide NodeIds, DistinctIds, KnownLinks, IsCycle;
    issues := [];
    for i := 0 to |wf.inputs|
      invariant forall x {:trigger x in issues} :: x in issues <==> x.InputToUnknown? && x.index < i && Violates(wf, x)
    {
      if wf.inputs[i].node !in known { issues := issues + [InputToUnknown(i)]; }
    }
    for i := 0 to |wf.outputs|
      invariant forall x {:trigger x in issues} :: x in issues <==>
        (x.InputToUnknown? || (x.OutputFromUnknown? && x.index < i)) && Violates(wf, x)
    {
      if wf.outputs[i].node !in known { issues := issues + [OutputFromUnknown(i)]; }
    }
  }

  /** Every issue the contract raises about a workflow, and no other. */
  method ValidateWorkflow(wf: Workflow) returns (issues: seq<ContractIssue>)
    ensures forall x :: x in issues <==> Violates(wf, x)
    ensures issues == [] <==> ContractHolds(wf)
  {
    hide DistinctIds, KnownLinks, IsCycle, Acyclic, ContractHolds, Ids;
    var known := Ids(wf.nodes);
    CountDecides(wf);
    var duplicates := if |known| == |wf.nodes| then [] else [DuplicateIds];
    var edgeIssues := EdgeIssues(wf, known);
    var endpointIssues := EndpointIssues(wf, known);
    issues := duplicates + edgeIssues + endpointIssues;
    if |known| == |wf.nodes| {
      var cyclic := FindsCycle(known, wf.edges);
      if cyclic {
        issues := issues + [HasCycle];
      }
    }
    NoIssueMeansContract(wf);
    if issues != [] { assert issues[0] in issues; }
  }

  // ---------- resolution against a registry ----------

  datatype Entry = Entry(operations: seq<Operation>, deprecated: bool)

  /** Published capabilities by id and version. */
  type Registry = map<(Name, Name), Entry>

  predicate Offers(registry: Registry, ref: OperationRef) {
    (ref.capability, ref.version) in registry
      && exists j | 0 <= j < |registry[(ref.capability, ref.version)].operations| ::
        registry[(ref.capability, ref.version)].operations[j].id == ref.operation
  }

  function FirstWithId(operations: seq<Operation>, id: Name): Operation
    requires exists j | 0 <= j < |operations| :: operations[j].id == id
  {
    if operations[0].id == id then operations[0] else FirstWithId(operations[1..], id)
  }

  function Offered(registry: Registry, ref: OperationRef): Operation
    requires Offers(registry, ref)
  {
    FirstWithId(registry[(ref.capability, ref.version)].operations, ref.operation)
  }

  lemma {:induction false} FirstIsFirst(operations: seq<Operation>, id: Name) returns (j: nat)
    requires exists j | 0 <= j < |operations| :: operations[j].id == id
    ensures j < |operations| && FirstWithId(operations, id) == operations[j] && operations[j].id == id
    ensures forall i :: 0 <= i < j ==> operations[i].id != id
  {
    if operations[0].id == id {
      j := 0;
    } else {
      var k := FirstIsFirst(operations[1..], id);
      j := k + 1;
    }
  }

  /** A node whose operation is offered runs the first operation of that name in the version it asks for. */
  lemma OfferedIsFirst(registry: Registry, ref: OperationRef) returns (j: nat)
    requires Offers(registry, ref)
    ensures (ref.capability, ref.version) in registry
    ensures var operations := registry[(ref.capability, ref.version)].operations;
      j < |operations| && Offered(registry, ref) == operations[j] && operations[j].id == ref.operation
        && forall i :: 0 <= i < j ==> operations[i].id != ref.operation
  {
    j := FirstIsFirst(registry[(ref.capability, ref.version)].operations, ref.operation);
  }

  /** In an accepted plan an edge joins an output and an input of its type, two edges end in one port only where it
    * takes several artifacts, and what a node requires is fed by an edge or by a workflow input. */
  lemma AcceptedPorts(plan: Plan, i: nat)
    requires Accepted(plan) && i < |plan.wf.edges|
    ensures var e := plan.wf.edges[i];
      && e.src.node in plan.ops && e.dst.node in plan.ops && e.src.node != e.dst.node
      && e.src.port in plan.ops[e.src.node].outputs && e.dst.port in plan.ops[e.dst.node].inputs
      && plan.ops[e.src.node].outputs[e.src.port].atype == plan.ops[e.dst.node].inputs[e.dst.port].atype
      && (!plan.ops[e.dst.node].inputs[e.dst.port].multiple ==>
            forall j :: 0 <= j < |plan.wf.edges| && j != i ==>
              plan.wf.edges[j].dst.node != e.dst.node || plan.wf.edges[j].dst.port != e.dst.port)
    ensures forall n, port :: n in plan.ops && port in plan.ops[n].inputs && plan.ops[n].inputs[port].required ==>
      || (exists j :: 0 <= j < |plan.wf.edges| && plan.wf.edges[j].dst.node == n && plan.wf.edges[j].dst.port == port)
      || (exists j :: 0 <= j < |plan.wf.inputs| && plan.wf.inputs[j].node == n && plan.wf.inputs[j].port == port)
  {
    hide Acyclic, ParametersHold, DistinctIds, IsDocument;
    assert EdgeLawful(plan.wf.edges[i], NodeIds(plan.wf));
  }

  datatype ResolutionIssue =
    | NotOffered(index: nat) | Deprecated(index: nat) | TargetUnsupported(index: nat)
    | BadParameter(index: nat, problem: Parameters.Problem)
    | NoOutputPort(index: nat) | OutputTypeDiffers(index: nat)
    | NoInputPort(index: nat) | InputTypeDiffers(index: nat) | SingleArtifact(index: nat)
    | NoPortForInput(index: nat) | WorkflowInputTypeDiffers(index: nat)
    | NoPortForOutput(index: nat) | WorkflowOutputTypeDiffers(index: nat)
    | NotConnected(node: Name, port: Name)

  /** A node whose operation the registry offers. */
  ghost predicate NodeResolves(wf: Workflow, registry: Registry, i: int) {
    0 <= i < |wf.nodes| && Offers(registry, wf.nodes[i].operation)
  }

  /** `ops` maps each node the registry offers an operation for to that operation. */
  ghost predicate Resolved(wf: Workflow, registry: Registry, ops: map<Name, Operation>) {
    && (forall i {:trigger wf.nodes[i]} :: NodeResolves(wf, registry, i) ==>
      wf.nodes[i].id in ops && ops[wf.nodes[i].id] == Offered(registry, wf.nodes[i].operation))
    && (forall n :: n in ops ==> exists i :: NodeResolves(wf, registry, i) && wf.nodes[i].id == n)
  }

  /** What each issue says about the workflow under the operations its nodes resolved to. */
  ghost predicate Refuses(wf: Workflow, registry: Registry, ops: map<Name, Operation>, x: ResolutionIssue) {
    match x
    case NotOffered(i) => i < |wf.nodes| && !Offers(registry, wf.nodes[i].operation)
    case Deprecated(i) =>
      NodeResolves(wf, registry, i)
        && registry[(wf.nodes[i].operation.capability, wf.nodes[i].operation.version)].deprecated
    case TargetUnsupported(i) =>
      NodeResolves(wf, registry, i) && wf.nodes[i].target.Some?
        && wf.nodes[i].target.value !in Offered(registry, wf.nodes[i].operation).targets
    case BadParameter(i, problem) =>
      NodeResolves(wf, registry, i)
        && Parameters.Objects(Offered(registry, wf.nodes[i].operation).parameters, wf.nodes[i].parameters, problem)
    case NotConnected(n, port) =>
      n in ops && port in ops[n].inputs && ops[n].inputs[port].required && !Connected(wf, n, port)
    case _ => PortRefuses(wf, ops, x)
  }

  ghost predicate PortRefuses(wf: Workflow, ops: map<Name, Operation>, x: ResolutionIssue) {
    match x
    case NoOutputPort(i) => i < |wf.edges| && var e := wf.edges[i].src; e.node in ops && e.port !in ops[e.node].outputs
    case OutputTypeDiffers(i) =>
      i < |wf.edges| && var e := wf.edges[i].src;
        e.node in ops && e.port in ops[e.node].outputs && ops[e.node].outputs[e.port].atype != e.atype
    case NoInputPort(i) => i < |wf.edges| && var e := wf.edges[i].dst; e.node in ops && e.port !in ops[e.node].inputs
    case InputTypeDiffers(i) =>
      i < |wf.edges| && var e := wf.edges[i].dst;
        e.node in ops && e.port in ops[e.node].inputs && ops[e.node].inputs[e.port].atype != e.atype
    case SingleArtifact(i) =>
      i < |wf.edges| && var e := wf.edges[i].dst;
        e.node in ops && e.port in ops[e.node].inputs && !ops[e.node].inputs[e.port].multiple
          && FedBefore(wf, i, e.node, e.port)
    case NoPortForInput(i) => i < |wf.inputs| && var e := wf.inputs[i]; e.node in ops && e.port !in ops[e.node].inputs
    case WorkflowInputTypeDiffers(i) =>
      i < |wf.inputs| && var e := wf.inputs[i];
        e.node in ops && e.port in ops[e.node].inputs && ops[e.node].inputs[e.port].atype != e.atype
    case NoPortForOutput(i) =>
      i < |wf.outputs| && var e := wf.outputs[i]; e.node in ops && e.port !in ops[e.node].outputs
    case WorkflowOutputTypeDiffers(i) =>
      i < |wf.outputs| && var e := wf.outputs[i];
        e.node in ops && e.port in ops[e.node].outputs && ops[e.node].outputs[e.port].atype != e.atype
    case _ => false
  }

  ghost predicate FedBefore(wf: Workflow, i: nat, n: Name, port: Name) {
    exists j :: 0 <= j < i && j < |wf.edges| && wf.edges[j].dst.node == n && wf.edges[j].dst.port == port
  }

  /** Every node's operation is offered, current, runs where the node asks, and fits the parameters it is given. */
  ghost predicate Offerable(wf: Workflow, registry: Registry) {
    forall i {:trigger wf.nodes[i]} :: 0 <= i < |wf.nodes| ==>
      var node := wf.nodes[i];
      && Offers(registry, node.operation) && !registry[(node.operation.capability, node.operation.version)].deprecated
      && (node.target.Some? ==> node.target.value in Offered(registry, node.operation).targets)
      && Parameters.ParametersFit(Offered(registry, node.operation).parameters, node.parameters)
  }

  lemma OfferableResolvesAll(wf: Workflow, registry: Registry, ops: map<Name, Operation>)
    requires Resolved(wf, registry, ops) && Offerable(wf, registry)
    ensures ops.Keys == NodeIds(wf)
  {
    forall n ensures n in ops <==> n in NodeIds(wf) {
      if n in NodeIds(wf) {
        var i :| 0 <= i < |wf.nodes| && wf.nodes[i].id == n;
        assert NodeResolves(wf, registry, i);
      }
      if n in ops {
        var i :| NodeResolves(wf, registry, i) && wf.nodes[i].id == n;
      }
    }
  }

  lemma UnrefusedIsOfferable(wf: Workflow, registry: Registry, ops: map<Name, Operation>)
    requires forall x :: !Refuses(wf, registry, ops, x)
    ensures Offerable(wf, registry)
  {
    hide Parameters.ParametersFit, Parameters.Objects, Offers;
    forall i | 0 <= i < |wf.nodes|
      ensures Offers(registry, wf.nodes[i].operation) && !Refuses(wf, registry, ops, Deprecated(i))
        && !Refuses(wf, registry, ops, TargetUnsupported(i))
      ensures Parameters.ParametersFit(Offered(registry, wf.nodes[i].operation).parameters, wf.nodes[i].parameters)
    {
      assert !Refuses(wf, registry, ops, NotOffered(i));
      assert NodeResolves(wf, registry, i);
      forall problem
        ensures !Parameters.Objects(Offered(registry, wf.nodes[i].operation).parameters, wf.nodes[i].parameters,
          problem)
      {
        assert !Refuses(wf, registry, ops, BadParameter(i, problem));
      }
      Parameters.NoProblemMeansFit(Offered(registry, wf.nodes[i].operation).parameters, wf.nodes[i].parameters);
    }
    forall i | 0 <= i < |wf.nodes| ensures NodeResolves(wf, registry, i) { }
  }

  lemma OfferableFits(wf: Workflow, registry: Registry, ops: map<Name, Operation>)
    requires Resolved(wf, registry, ops) && Offerable(wf, registry)
    ensures ParametersHold(wf, ops)
  {
    hide Parameters.ParametersFit, Offers;
    forall i | 0 <= i < |wf.nodes| ensures NodeResolves(wf, registry, i) { }
  }

  lemma UnrefusedEdge(wf: Workflow, ops: map<Name, Operation>, i: nat)
    requires i < |wf.edges| && EdgeLawful(wf.edges[i], NodeIds(wf)) && ops.Keys == NodeIds(wf)
      && forall x :: !PortRefuses(wf, ops, x)
    ensures HasPort(ops[wf.edges[i].src.node].outputs, wf.edges[i].src.port, wf.edges[i].src.atype)
    ensures HasPort(ops[wf.edges[i].dst.node].inputs, wf.edges[i].dst.port, wf.edges[i].dst.atype)
    ensures FedBefore(wf, i, wf.edges[i].dst.node, wf.edges[i].dst.port) ==>
      ops[wf.edges[i].dst.node].inputs[wf.edges[i].dst.port].multiple
  {
    hide FedBefore, NodeIds;
    assert !PortRefuses(wf, ops, NoOutputPort(i)) && !PortRefuses(wf, ops, OutputTypeDiffers(i))
      && !PortRefuses(wf, ops, NoInputPort(i));
    assert !PortRefuses(wf, ops, InputTypeDiffers(i)) && !PortRefuses(wf, ops, SingleArtifact(i));
  }

  lemma UnrefusedPorts(wf: Workflow, registry: Registry, ops: map<Name, Operation>)
    requires ContractHolds(wf) && ops.Keys == NodeIds(wf) && forall x :: !Refuses(wf, registry, ops, x)
    ensures PortsHold(wf, ops)
  {
    hide Connected, Acyclic, PortRefuses, DistinctIds, Offers;
    forall x ensures !PortRefuses(wf, ops, x) { EachPort(wf, registry, ops, x); }
    forall i | 0 <= i < |wf.edges|
      ensures EdgeLawful(wf.edges[i], NodeIds(wf))
        && HasPort(ops[wf.edges[i].src.node].outputs, wf.edges[i].src.port, wf.edges[i].src.atype)
        && HasPort(ops[wf.edges[i].dst.node].inputs, wf.edges[i].dst.port, wf.edges[i].dst.atype)
    {
      UnrefusedEdge(wf, ops, i);
    }
    forall i, j | 0 <= i < j < |wf.edges| && wf.edges[i].dst.node == wf.edges[j].dst.node
      && wf.edges[i].dst.port == wf.edges[j].dst.port
      ensures ops[wf.edges[j].dst.node].inputs[wf.edges[j].dst.port].multiple
    {
      UnrefusedEdge(wf, ops, j);
      assert FedBefore(wf, j, wf.edges[j].dst.node, wf.edges[j].dst.port);
    }
    forall i | 0 <= i < |wf.inputs|
      ensures HasPort(ops[wf.inputs[i].node].inputs, wf.inputs[i].port, wf.inputs[i].atype)
    {
      UnrefusedInput(wf, ops, i);
    }
    forall i | 0 <= i < |wf.outputs|
      ensures HasPort(ops[wf.outputs[i].node].outputs, wf.outputs[i].port, wf.outputs[i].atype)
    {
      UnrefusedOutput(wf, ops, i);
    }
    forall n, port | n in ops && port in ops[n].inputs && ops[n].inputs[port].required ensures Connected(wf, n, port) {
      assert !Refuses(wf, registry, ops, NotConnected(n, port));
    }
  }

  lemma EachPort(wf: Workflow, registry: Registry, ops: map<Name, Operation>, x: ResolutionIssue)
    requires !Refuses(wf, registry, ops, x)
    ensures !PortRefuses(wf, ops, x)
  {
  }

  lemma UnrefusedInput(wf: Workflow, ops: map<Name, Operation>, i: nat)
    requires i < |wf.inputs| && wf.inputs[i].node in ops && forall x :: !PortRefuses(wf, ops, x)
    ensures HasPort(ops[wf.inputs[i].node].inputs, wf.inputs[i].port, wf.inputs[i].atype)
  {
    assert !PortRefuses(wf, ops, NoPortForInput(i)) && !PortRefuses(wf, ops, WorkflowInputTypeDiffers(i));
  }

  lemma UnrefusedOutput(wf: Workflow, ops: map<Name, Operation>, i: nat)
    requires i < |wf.outputs| && wf.outputs[i].node in ops && forall x :: !PortRefuses(wf, ops, x)
    ensures HasPort(ops[wf.outputs[i].node].outputs, wf.outputs[i].port, wf.outputs[i].atype)
  {
    assert !PortRefuses(wf, ops, NoPortForOutput(i)) && !PortRefuses(wf, ops, WorkflowOutputTypeDiffers(i));
  }

  lemma PortsRefuseNothing(wf: Workflow, registry: Registry, ops: map<Name, Operation>, x: ResolutionIssue)
    requires ContractHolds(wf) && ops.Keys == NodeIds(wf) && Offerable(wf, registry) && PortsHold(wf, ops)
    ensures !Refuses(wf, registry, ops, x)
  {
    hide Connected, Acyclic, Offers, DistinctIds, Parameters.ParametersFit, Parameters.Objects;
    if x.SingleArtifact? && x.index < |wf.edges| {
      assert EdgeLawful(wf.edges[x.index], NodeIds(wf));
    }
    if x.BadParameter? && NodeResolves(wf, registry, x.index) {
      Parameters.NoProblemMeansFit(Offered(registry, wf.nodes[x.index].operation).parameters,
        wf.nodes[x.index].parameters);
    }
  }

  /** Resolution reports nothing exactly when every operation is offered and every port fits. */
  lemma NoRefusalMeansPorts(wf: Workflow, registry: Registry, ops: map<Name, Operation>)
    requires ContractHolds(wf) && Resolved(wf, registry, ops)
    ensures (forall x :: !Refuses(wf, registry, ops, x)) <==>
      Offerable(wf, registry) && ops.Keys == NodeIds(wf) && PortsHold(wf, ops)
  {
    hide Refuses, Offerable, ContractHolds, PortsHold, Resolved;
    if forall x :: !Refuses(wf, registry, ops, x) {
      UnrefusedIsOfferable(wf, registry, ops);
      OfferableResolvesAll(wf, registry, ops);
      UnrefusedPorts(wf, registry, ops);
    }
    if Offerable(wf, registry) && ops.Keys == NodeIds(wf) && PortsHold(wf, ops) {
      forall x ensures !Refuses(wf, registry, ops, x) {
        PortsRefuseNothing(wf, registry, ops, x);
      }
    }
  }

  predicate AboutNode(x: ResolutionIssue) { x.NotOffered? || x.Deprecated? || x.TargetUnsupported? || x.BadParameter? }

  predicate AboutEdgePorts(x: ResolutionIssue) {
    x.NoOutputPort? || x.OutputTypeDiffers? || x.NoInputPort? || x.InputTypeDiffers? || x.SingleArtifact?
  }

  predicate AboutInputPort(x: ResolutionIssue) { x.NoPortForInput? || x.WorkflowInputTypeDiffers? }
  predicate AboutOutputPort(x: ResolutionIssue) { x.NoPortForOutput? || x.WorkflowOutputTypeDiffers? }

  /** The problems of node `i` as issues. */
  function Tagged(i: nat, problems: seq<Parameters.Problem>): seq<ResolutionIssue> {
    seq(|problems|, j requires 0 <= j < |problems| => BadParameter(i, problems[j]))
  }

  lemma TaggedAre(i: nat, problems: seq<Parameters.Problem>)
    ensures forall x :: x in Tagged(i, problems) <==> x.BadParameter? && x.index == i && x.problem in problems
  {
    forall x: ResolutionIssue
      ensures x in Tagged(i, problems) <==> x.BadParameter? && x.index == i && x.problem in problems
    {
      if x.BadParameter? && x.index == i && x.problem in problems {
        var j :| 0 <= j < |problems| && problems[j] == x.problem;
        assert Tagged(i, problems)[j] == x;
      }
    }
  }

  method ResolveNodes(wf: Workflow, registry: Registry)
      returns (resolved: map<Name, Operation>, issues: seq<ResolutionIssue>)
    requires DistinctIds(wf)
    ensures Resolved(wf, registry, resolved)
    ensures forall x :: x in issues <==> AboutNode(x) && Refuses(wf, registry, resolved, x)
  {
    hide Connected, PortRefuses, FirstWithId, Parameters.Objects;
    resolved, issues := map[], [];
    for i := 0 to |wf.nodes|
      invariant forall j ::
        0 <= j < i && NodeResolves(wf, registry, j) ==>
          wf.nodes[j].id in resolved && resolved[wf.nodes[j].id] == Offered(registry, wf.nodes[j].operation)
      invariant forall n :: n in resolved ==> exists j :: j < i && NodeResolves(wf, registry, j) && wf.nodes[j].id == n
      invariant forall x {:trigger x in issues} :: x in issues <==>
        AboutNode(x) && x.index < i && Refuses(wf, registry, map[], x)
    {
      var node := wf.nodes[i];
      if !Offers(registry, node.operation) {
        issues := issues + [NotOffered(i)];
      } else {
        assert NodeResolves(wf, registry, i);
        var operation := Offered(registry, node.operation);
        if registry[(node.operation.capability, node.operation.version)].deprecated { issues := issues
          + [Deprecated(i)]; }
        if node.target.Some? && node.target.value !in operation.targets { issues := issues + [TargetUnsupported(i)]; }
        var problems := Parameters.ParameterProblems(operation.parameters, node.parameters);
        TaggedAre(i, problems);
        issues := issues + Tagged(i, problems);
        resolved := resolved[node.id := operation];
      }
    }
  }

  /** Which ports the first `i` edges feed, of nodes that resolved. */
  ghost predicate FedByEdges(wf: Workflow, ops: map<Name, Operation>, incoming: map<(Name, Name), nat>, i: nat) {
    && (forall n, port :: (n, port) in incoming <==> n in ops && FedBefore(wf, i, n, port))
    && (forall key :: key in incoming ==> incoming[key] >= 1)
  }

  lemma FedOneMore(wf: Workflow, i: nat, n: Name, port: Name)
    requires i < |wf.edges|
    ensures FedBefore(wf, i + 1, n, port) <==>
      FedBefore(wf, i, n, port) || (wf.edges[i].dst.node == n && wf.edges[i].dst.port == port)
  {
    if wf.edges[i].dst.node == n && wf.edges[i].dst.port == port {
      assert i < i + 1;
    }
  }

  method EdgePortIssues(wf: Workflow, resolved: map<Name, Operation>)
      returns (incoming: map<(Name, Name), nat>, issues: seq<ResolutionIssue>)
    ensures FedByEdges(wf, resolved, incoming, |wf.edges|)
    ensures forall x :: x in issues <==> AboutEdgePorts(x) && PortRefuses(wf, resolved, x)
  {
    hide FedBefore;
    incoming, issues := map[], [];
    NothingFed(wf);
    for i := 0 to |wf.edges|
      invariant FedByEdges(wf, resolved, incoming, i)
      invariant forall x {:trigger x in issues} :: x in issues <==>
        AboutEdgePorts(x) && x.index < i && PortRefuses(wf, resolved, x)
    {
      var source, target := wf.edges[i].src, wf.edges[i].dst;
      if source.node in resolved {
        var ports := resolved[source.node].outputs;
        if source.port !in ports { issues := issues + [NoOutputPort(i)]; }
        else if ports[source.port].atype != source.atype { issues := issues + [OutputTypeDiffers(i)]; }
      }
      if target.node in resolved {
        var ports := resolved[target.node].inputs;
        if target.port !in ports { issues := issues + [NoInputPort(i)]; }
        else if ports[target.port].atype != target.atype { issues := issues + [InputTypeDiffers(i)]; }
        var key := (target.node, target.port);
        incoming := incoming[key := (if key in incoming then incoming[key] else 0) + 1];
        if target.port in ports && !ports[target.port].multiple
          && incoming[key] > 1 { issues := issues + [SingleArtifact(i)]; }
      }
      forall n, port
        ensures FedBefore(wf, i + 1, n, port) <==>
          FedBefore(wf, i, n, port) || (target.node == n && target.port == port)
      {
        FedOneMore(wf, i, n, port);
      }
    }
  }

  lemma NothingFed(wf: Workflow)
    ensures forall n, port :: !FedBefore(wf, 0, n, port)
  {
  }

  /** Inputs feed their ports as well, whether or not the port exists. */
  method InputPortIssues(wf: Workflow, resolved: map<Name, Operation>, edgesIn: map<(Name, Name), nat>)
      returns (incoming: map<(Name, Name), nat>, issues: seq<ResolutionIssue>)
    requires FedByEdges(wf, resolved, edgesIn, |wf.edges|)
    ensures forall n, port ::
      n in resolved ==> ((n, port) in incoming && incoming[(n, port)] > 0 <==> Connected(wf, n, port))
    ensures forall x :: x in issues <==> AboutInputPort(x) && PortRefuses(wf, resolved, x)
  {
    incoming, issues := edgesIn, [];
    for i := 0 to |wf.inputs|
      invariant forall key :: key in incoming ==> incoming[key] >= 1
      invariant forall n, port ::
        (n, port) in incoming <==> n in resolved && (FedBefore(wf, |wf.edges|, n, port) || FedByInput(wf, i, n, port))
      invariant forall x {:trigger x in issues} :: x in issues <==>
        AboutInputPort(x) && x.index < i && PortRefuses(wf, resolved, x)
    {
      var input := wf.inputs[i];
      if input.node in resolved {
        var ports := resolved[input.node].inputs;
        if input.port !in ports { issues := issues + [NoPortForInput(i)]; }
        else if ports[input.port].atype != input.atype { issues := issues + [WorkflowInputTypeDiffers(i)]; }
        var key := (input.node, input.port);
        incoming := incoming[key := (if key in incoming then incoming[key] else 0) + 1];
      }
      forall n, port
        ensures FedByInput(wf, i + 1, n, port) <==>
          FedByInput(wf, i, n, port) || (input.node == n && input.port == port)
      {
      }
    }
    forall n, port
      ensures Connected(wf, n, port) <==> FedBefore(wf, |wf.edges|, n, port) || FedByInput(wf, |wf.inputs|, n, port)
    {
    }
  }

  ghost predicate FedByInput(wf: Workflow, i: nat, n: Name, port: Name) {
    exists j :: 0 <= j < i && j < |wf.inputs| && wf.inputs[j].node == n && wf.inputs[j].port == port
  }

  method OutputPortIssues(wf: Workflow, resolved: map<Name, Operation>) returns (issues: seq<ResolutionIssue>)
    ensures forall x :: x in issues <==> AboutOutputPort(x) && PortRefuses(wf, resolved, x)
  {
    issues := [];
    for i := 0 to |wf.outputs|
      invariant forall x {:trigger x in issues} :: x in issues <==>
        AboutOutputPort(x) && x.index < i && PortRefuses(wf, resolved, x)
    {
      var output := wf.outputs[i];
      if output.node in resolved {
        var ports := resolved[output.node].outputs;
        if output.port !in ports { issues := issues + [NoPortForOutput(i)]; }
        else if ports[output.port].atype != output.atype { issues := issues + [WorkflowOutputTypeDiffers(i)]; }
      }
    }
  }

  method UnconnectedIssues(wf: Workflow, resolved: map<Name, Operation>, incoming: map<(Name, Name), nat>)
      returns (issues: seq<ResolutionIssue>)
    requires forall n, port ::
      n in resolved ==> ((n, port) in incoming && incoming[(n, port)] > 0 <==> Connected(wf, n, port))
    ensures forall x :: x in issues <==> x.NotConnected? && Refuses(wf, map[], resolved, x)
  {
    hide Connected, PortRefuses;
    issues := [];
    var nodes := resolved.Keys;
    while nodes != {}
      invariant nodes <= resolved.Keys
      invariant forall x {:trigger x in issues} :: x in issues <==>
        x.NotConnected? && x.node !in nodes && Refuses(wf, map[], resolved, x)
      decreases |nodes|
    {
      var n :| n in nodes;
      var ports := resolved[n].inputs.Keys;
      while ports != {}
        invariant ports <= resolved[n].inputs.Keys
        invariant forall x {:trigger x in issues} :: x in issues <==>
          x.NotConnected? && (x.node !in nodes || (x.node == n && x.port !in ports)) && Refuses(wf, map[], resolved, x)
        decreases |ports|
      {
        var port :| port in ports;
        if resolved[n].inputs[port].required && ((n, port) !in incoming || incoming[(n, port)] == 0) {
          issues := issues + [NotConnected(n, port)];
        }
        ports := ports - {port};
      }
      nodes := nodes - {n};
    }
  }

  /** The contract holds, every operation is offered with fitting parameters, and every port fits. */
  ghost predicate Acceptable(wf: Workflow, registry: Registry) {
    && ContractHolds(wf) && Offerable(wf, registry)
    && exists ops :: Resolved(wf, registry, ops) && ops.Keys == NodeIds(wf) && PortsHold(wf, ops)
  }

  lemma AcceptedIsAcceptable(wf: Workflow, registry: Registry, plan: Plan)
    requires plan.wf == wf && ContractHolds(wf) && Offerable(wf, registry) && Resolved(wf, registry, plan.ops)
    requires Accepted(plan)
    ensures Acceptable(wf, registry)
  {
    hide ContractHolds, Offerable, PortsHold, Resolved;
  }

  /** `resolve_workflow`: a plan comes out exactly when the contract holds, every operation is offered and every port
    * fits; an accepted document makes an accepted plan. */
  method ResolveWorkflow(wf: Workflow, registry: Registry) returns (plan: Option<Plan>)
    ensures plan.Some? ==>
      plan.value.wf == wf && ContractHolds(wf) && Offerable(wf, registry) && Resolved(wf, registry, plan.value.ops)
    ensures plan.Some? && IsDocument(wf) ==> Accepted(plan.value)
    ensures plan.None? ==>
      forall ops ::
        Resolved(wf, registry, ops) && ops.Keys == NodeIds(wf) ==>
          !(Offerable(wf, registry) && ContractHolds(wf) && PortsHold(wf, ops))
  {
    hide ContractHolds, Offerable, PortsHold, ParametersHold, Resolved, PortRefuses, Violates, IsDocument;
    var contract := ValidateWorkflow(wf);
    if contract != [] {
      return None;
    }
    ContractDistinct(wf);
    var resolved, nodeIssues := ResolveNodes(wf, registry);
    var edgesIn, edgeIssues := EdgePortIssues(wf, resolved);
    var incoming, inputIssues := InputPortIssues(wf, resolved, edgesIn);
    var outputIssues := OutputPortIssues(wf, resolved);
    var unconnected := UnconnectedIssues(wf, resolved, incoming);
    var issues := nodeIssues + edgeIssues + inputIssues + outputIssues + unconnected;
    forall x ensures x in issues <==> Refuses(wf, registry, resolved, x) { AboutSomething(wf, registry, resolved, x); }
    NoRefusalMeansPorts(wf, registry, resolved);
    if issues != [] {
      assert issues[0] in issues;
      forall ops | Resolved(wf, registry, ops) && ops.Keys == NodeIds(wf)
        ensures !(Offerable(wf, registry) && PortsHold(wf, ops))
      {
        if Offerable(wf, registry) { ResolvedOnce(wf, registry, ops, resolved); }
      }
      return None;
    }
    OfferableFits(wf, registry, resolved);
    return Some(Plan(wf, resolved));
  }

  lemma AboutSomething(wf: Workflow, registry: Registry, ops: map<Name, Operation>, x: ResolutionIssue)
    ensures !AboutNode(x) && !x.NotConnected? && (AboutEdgePorts(x) || AboutInputPort(x) || AboutOutputPort(x)) ==>
      (Refuses(wf, registry, ops, x) <==> PortRefuses(wf, ops, x))
    ensures x.NotConnected? ==> (Refuses(wf, registry, ops, x) <==> Refuses(wf, map[], ops, x))
  {
  }

  lemma ContractDistinct(wf: Workflow)
    requires ContractHolds(wf)
    ensures DistinctIds(wf)
  {
  }

  lemma ResolvedOnce(wf: Workflow, registry: Registry, ops: map<Name, Operation>, other: map<Name, Operation>)
    requires Resolved(wf, registry, ops) && Resolved(wf, registry, other) && Offerable(wf, registry)
    ensures ops == other
  {
    hide Offerable, Offers, NodeIds;
    OfferableResolvesAll(wf, registry, ops);
    OfferableResolvesAll(wf, registry, other);
    forall n | n in ops ensures ops[n] == other[n] {
      var i :| NodeResolves(wf, registry, i) && wf.nodes[i].id == n;
    }
  }
}
