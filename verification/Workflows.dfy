/** Workflow documents, what makes them acceptable, and what they mean. */
module Workflows {
  import opened Names
  import Graph
  import Parameters

  datatype Endpoint = Endpoint(node: Name, port: Name, atype: Name)
  datatype Edge = Edge(src: Endpoint, dst: Endpoint)
  datatype OperationRef = OperationRef(capability: Name, version: Name, operation: Name)
  datatype Node = Node(id: Name, operation: OperationRef, parameters: Parameters.Supplied,
      target: Option<Name>, class_: Option<Name>)
  datatype WorkflowInput = WorkflowInput(name: Name, atype: Name, required: bool, node: Name, port: Name)
  datatype WorkflowOutput = WorkflowOutput(name: Name, atype: Name, node: Name, port: Name)

  /** `inputs` and `outputs` are the document's dictionaries in iteration order. */
  datatype Workflow = Workflow(nodes: seq<Node>, edges: seq<Edge>, inputs: seq<WorkflowInput>,
      outputs: seq<WorkflowOutput>)

  datatype Port = Port(atype: Name, required: bool, multiple: bool)
  datatype Operation = Operation(id: Name, inputs: map<Name, Port>, outputs: map<Name, Port>,
      parameters: Parameters.Declared, targets: set<Name>)

  /** A stored workflow version: the definition and the operation each node resolved to. */
  datatype Plan = Plan(wf: Workflow, ops: map<Name, Operation>)

  /** An artifact as a runner sees it: its type and its content. */
  datatype Value = Value(atype: Name, content: nat)
  type Values = map<Name, Value>

  /** What a runner is asked to run, apart from its inputs. */
  datatype Invocation = Invocation(op: Operation, parameters: Parameters.Supplied)
  type Runner = (Invocation, Values) -> Values

  // ---------- the graph of a document ----------

  ghost function NodeIds(wf: Workflow): set<Name> {
    set i | 0 <= i < |wf.nodes| :: wf.nodes[i].id
  }

  ghost function Links(wf: Workflow): Graph.Relation {
    set i | 0 <= i < |wf.edges| :: (wf.edges[i].src.node, wf.edges[i].dst.node)
  }

  function Parents(wf: Workflow, n: Name): set<Name> {
    set i | 0 <= i < |wf.edges| && wf.edges[i].dst.node == n :: wf.edges[i].src.node
  }

  // ---------- acceptance ----------

  /** JSON objects have distinct keys and the schema asks for a node. */
  ghost predicate IsDocument(wf: Workflow) {
    && |wf.nodes| >= 1
    && (forall i, j :: 0 <= i < j < |wf.inputs| ==> wf.inputs[i].name != wf.inputs[j].name)
    && (forall i, j :: 0 <= i < j < |wf.outputs| ==> wf.outputs[i].name != wf.outputs[j].name)
  }

  ghost predicate DistinctIds(wf: Workflow) {
    forall i, j :: 0 <= i < j < |wf.nodes| ==> wf.nodes[i].id != wf.nodes[j].id
  }

  ghost predicate EdgeLawful(e: Edge, known: set<Name>) {
    && e.src.node in known && e.dst.node in known
    && e.src.atype == e.dst.atype
    && e.src.node != e.dst.node
  }

  /** What the contract promises of a workflow on its own. */
  ghost predicate ContractHolds(wf: Workflow) {
    && DistinctIds(wf)
    && (forall i :: 0 <= i < |wf.edges| ==> EdgeLawful(wf.edges[i], NodeIds(wf)))
    && (forall i :: 0 <= i < |wf.inputs| ==> wf.inputs[i].node in NodeIds(wf))
    && (forall i :: 0 <= i < |wf.outputs| ==> wf.outputs[i].node in NodeIds(wf))
    && Graph.Acyclic(NodeIds(wf), Links(wf))
  }

  ghost predicate HasPort(ports: map<Name, Port>, port: Name, atype: Name) {
    port in ports && ports[port].atype == atype
  }

  ghost predicate Connected(wf: Workflow, n: Name, port: Name) {
    || (exists i :: 0 <= i < |wf.edges| && wf.edges[i].dst.node == n && wf.edges[i].dst.port == port)
    || (exists i :: 0 <= i < |wf.inputs| && wf.inputs[i].node == n && wf.inputs[i].port == port)
  }

  /** Every port an edge, input or output names exists with that type; single ports get one edge; required ports get
    * something. */
  ghost predicate PortsHold(wf: Workflow, ops: map<Name, Operation>)
    requires ops.Keys == NodeIds(wf) && ContractHolds(wf)
  {
    && (forall i :: 0 <= i < |wf.edges| ==>
          var e := wf.edges[i];
          && HasPort(ops[e.src.node].outputs, e.src.port, e.src.atype)
          && HasPort(ops[e.dst.node].inputs, e.dst.port, e.dst.atype))
    && (forall i, j ::
          (0 <= i < j < |wf.edges|
            && wf.edges[i].dst.node == wf.edges[j].dst.node && wf.edges[i].dst.port == wf.edges[j].dst.port) ==>
          ops[wf.edges[j].dst.node].inputs[wf.edges[j].dst.port].multiple)
    && (forall i :: 0 <= i < |wf.inputs| ==>
          HasPort(ops[wf.inputs[i].node].inputs, wf.inputs[i].port, wf.inputs[i].atype))
    && (forall i :: 0 <= i < |wf.outputs| ==>
          HasPort(ops[wf.outputs[i].node].outputs, wf.outputs[i].port, wf.outputs[i].atype))
    && (forall n, port :: n in ops && port in ops[n].inputs && ops[n].inputs[port].required ==> Connected(wf, n, port))
  }

  /** What every node supplies fits its operation. */
  ghost predicate ParametersHold(wf: Workflow, ops: map<Name, Operation>) {
    forall i {:trigger wf.nodes[i]} :: 0 <= i < |wf.nodes| && wf.nodes[i].id in ops ==>
      Parameters.ParametersFit(ops[wf.nodes[i].id].parameters, wf.nodes[i].parameters)
  }

  ghost predicate Accepted(plan: Plan) {
    && IsDocument(plan.wf)
    && ContractHolds(plan.wf)
    && plan.ops.Keys == NodeIds(plan.wf)
    && PortsHold(plan.wf, plan.ops)
    && ParametersHold(plan.wf, plan.ops)
  }

  // ---------- requests ----------

  /** Workflow inputs reaching node `n`; a later declaration for the same port wins. */
  function FromInputs(inputs: seq<WorkflowInput>, n: Name, given: Values): Values {
    if inputs == [] then map[] else
    var rest, last := FromInputs(inputs[..|inputs| - 1], n, given), inputs[|inputs| - 1];
    if last.node == n && last.name in given then rest[last.port := given[last.name]] else rest
  }

  /** Edges reaching node `n`, on top of `base`; a later edge for the same port wins. */
  function FromEdges(edges: seq<Edge>, n: Name, base: Values, outs: map<Name, Values>): Values {
    if edges == [] then base else
    var rest, last := FromEdges(edges[..|edges| - 1], n, base, outs), edges[|edges| - 1];
    if last.dst.node == n && last.src.node in outs && last.src.port in outs[last.src.node]
    then rest[last.dst.port := outs[last.src.node][last.src.port]] else rest
  }

  /** The artifacts node `n` is handed: workflow inputs first, then edges. */
  function Request(wf: Workflow, n: Name, given: Values, outs: map<Name, Values>): Values {
    FromEdges(wf.edges, n, FromInputs(wf.inputs, n, given), outs)
  }

  /** No edge into `n` asks for an output its parent did not produce. */
  ghost predicate RequestDefined(wf: Workflow, n: Name, outs: map<Name, Values>) {
    forall i :: 0 <= i < |wf.edges| && wf.edges[i].dst.node == n ==>
      wf.edges[i].src.node in outs && wf.edges[i].src.port in outs[wf.edges[i].src.node]
  }

  /** Each value sits on a declared port of exactly its type. */
  ghost predicate TypedBy(vals: Values, ports: map<Name, Port>) {
    forall p :: p in vals ==> HasPort(ports, p, vals[p].atype)
  }

  ghost predicate GivenTyped(wf: Workflow, given: Values) {
    forall i ::
      0 <= i < |wf.inputs| && wf.inputs[i].name in given ==> given[wf.inputs[i].name].atype == wf.inputs[i].atype
  }

  lemma {:induction false} FromInputsTyped(plan: Plan, k: nat, n: Name, given: Values)
    requires Accepted(plan) && k <= |plan.wf.inputs| && n in plan.ops && GivenTyped(plan.wf, given)
    ensures TypedBy(FromInputs(plan.wf.inputs[..k], n, given), plan.ops[n].inputs)
  {
    if k > 0 {
      assert plan.wf.inputs[..k][..k - 1] == plan.wf.inputs[..k - 1];
      FromInputsTyped(plan, k - 1, n, given);
    }
  }

  lemma {:induction false} FromEdgesTyped(plan: Plan, k: nat, n: Name, base: Values, outs: map<Name, Values>)
    requires Accepted(plan) && k <= |plan.wf.edges| && n in plan.ops && TypedBy(base, plan.ops[n].inputs)
    requires forall m :: m in outs && m in plan.ops ==> TypedBy(outs[m], plan.ops[m].outputs)
    ensures TypedBy(FromEdges(plan.wf.edges[..k], n, base, outs), plan.ops[n].inputs)
  {
    hide Connected, Graph.Acyclic, IsDocument, ParametersHold, DistinctIds;
    if k > 0 {
      assert plan.wf.edges[..k][..k - 1] == plan.wf.edges[..k - 1];
      FromEdgesTyped(plan, k - 1, n, base, outs);
      assert EdgeLawful(plan.wf.edges[k - 1], NodeIds(plan.wf));
    }
  }

  /** On an accepted workflow, typed inputs and typed parent outputs make a typed request. */
  lemma RequestTyped(plan: Plan, n: Name, given: Values, outs: map<Name, Values>)
    requires Accepted(plan) && n in plan.ops && GivenTyped(plan.wf, given)
    requires forall m :: m in outs && m in plan.ops ==> TypedBy(outs[m], plan.ops[m].outputs)
    ensures TypedBy(Request(plan.wf, n, given, outs), plan.ops[n].inputs)
  {
    FromInputsTyped(plan, |plan.wf.inputs|, n, given);
    assert plan.wf.inputs[..|plan.wf.inputs|] == plan.wf.inputs;
    FromEdgesTyped(plan, |plan.wf.edges|, n, FromInputs(plan.wf.inputs, n, given), outs);
    assert plan.wf.edges[..|plan.wf.edges|] == plan.wf.edges;
  }

  lemma {:induction false} FromInputsHas(inputs: seq<WorkflowInput>, i: nat, n: Name, given: Values)
    requires i < |inputs| && inputs[i].node == n && inputs[i].name in given
    ensures inputs[i].port in FromInputs(inputs, n, given)
  {
    if i < |inputs| - 1 { FromInputsHas(inputs[..|inputs| - 1], i, n, given); }
  }

  lemma {:induction false} FromEdgesKeeps(edges: seq<Edge>, n: Name, base: Values, outs: map<Name, Values>)
    ensures base.Keys <= FromEdges(edges, n, base, outs).Keys
  {
    if edges != [] { FromEdgesKeeps(edges[..|edges| - 1], n, base, outs); }
  }

  lemma {:induction false} FromEdgesHas(edges: seq<Edge>, i: nat, n: Name, base: Values, outs: map<Name, Values>)
    requires i < |edges| && edges[i].dst.node == n
    requires edges[i].src.node in outs && edges[i].src.port in outs[edges[i].src.node]
    ensures edges[i].dst.port in FromEdges(edges, n, base, outs)
  {
    if i < |edges| - 1 { FromEdgesHas(edges[..|edges| - 1], i, n, base, outs); }
  }

  /** Nothing required is left empty when every edge delivers and every input feeding a required port is supplied. */
  lemma RequestFillsRequired(plan: Plan, n: Name, given: Values, outs: map<Name, Values>)
    requires Accepted(plan) && n in plan.ops && RequestDefined(plan.wf, n, outs)
    requires forall i ::
      0 <= i < |plan.wf.inputs| && plan.wf.inputs[i].node == n
        && plan.ops[n].inputs[plan.wf.inputs[i].port].required ==>
      plan.wf.inputs[i].name in given
    ensures forall p ::
      p in plan.ops[n].inputs && plan.ops[n].inputs[p].required ==> p in Request(plan.wf, n, given, outs)
  {
    var base := FromInputs(plan.wf.inputs, n, given);
    forall p | p in plan.ops[n].inputs && plan.ops[n].inputs[p].required
      ensures p in Request(plan.wf, n, given, outs)
    {
      assert Connected(plan.wf, n, p);
      if i :| 0 <= i < |plan.wf.edges| && plan.wf.edges[i].dst.node == n && plan.wf.edges[i].dst.port == p {
        FromEdgesHas(plan.wf.edges, i, n, base, outs);
      } else {
        var i :| 0 <= i < |plan.wf.inputs| && plan.wf.inputs[i].node == n && plan.wf.inputs[i].port == p;
        FromInputsHas(plan.wf.inputs, i, n, given);
        FromEdgesKeeps(plan.wf.edges, n, base, outs);
      }
    }
  }

  // ---------- who wins a port ----------

  /** The edge ends at this port. */
  predicate Feeds(e: Edge, n: Name, port: Name) {
    e.dst.node == n && e.dst.port == port
  }

  /** The workflow input was supplied and names this port. */
  predicate Supplies(item: WorkflowInput, n: Name, port: Name, given: Values) {
    item.node == n && item.port == port && item.name in given
  }

  lemma {:induction false} EdgesLeave(edges: seq<Edge>, n: Name, base: Values, outs: map<Name, Values>, port: Name)
    requires forall j :: 0 <= j < |edges| ==> !Feeds(edges[j], n, port)
    ensures port in FromEdges(edges, n, base, outs) <==> port in base
    ensures port in base ==> FromEdges(edges, n, base, outs)[port] == base[port]
  {
    if edges != [] { EdgesLeave(edges[..|edges| - 1], n, base, outs, port); }
  }

  /** The last edge into a port decides what the port holds. */
  lemma {:induction false} LastEdgeWins(edges: seq<Edge>, n: Name, base: Values, outs: map<Name, Values>, port: Name)
      returns (j: nat)
    requires exists i :: 0 <= i < |edges| && Feeds(edges[i], n, port)
    requires forall i ::
      0 <= i < |edges| && edges[i].dst.node == n ==>
        edges[i].src.node in outs && edges[i].src.port in outs[edges[i].src.node]
    ensures j < |edges| && Feeds(edges[j], n, port) && port in FromEdges(edges, n, base, outs)
      && forall i :: j < i < |edges| ==> !Feeds(edges[i], n, port)
    ensures FromEdges(edges, n, base, outs)[port] == outs[edges[j].src.node][edges[j].src.port]
  {
    var last := |edges| - 1;
    if Feeds(edges[last], n, port) {
      j := last;
    } else {
      j := LastEdgeWins(edges[..last], n, base, outs, port);
    }
  }

  /** The last supplied input of a port decides what the inputs put there. */
  lemma {:induction false} LastInputWins(inputs: seq<WorkflowInput>, n: Name, given: Values, port: Name)
      returns (k: nat)
    requires exists i :: 0 <= i < |inputs| && Supplies(inputs[i], n, port, given)
    ensures k < |inputs| && Supplies(inputs[k], n, port, given)
      && forall i :: k < i < |inputs| ==> !Supplies(inputs[i], n, port, given)
    ensures port in FromInputs(inputs, n, given) && FromInputs(inputs, n, given)[port] == given[inputs[k].name]
  {
    var last := |inputs| - 1;
    if Supplies(inputs[last], n, port, given) {
      k := last;
    } else {
      k := LastInputWins(inputs[..last], n, given, port);
    }
  }

  lemma {:induction false} InputsLeave(inputs: seq<WorkflowInput>, n: Name, given: Values, port: Name)
    requires forall i :: 0 <= i < |inputs| ==> !Supplies(inputs[i], n, port, given)
    ensures port !in FromInputs(inputs, n, given)
  {
    if inputs != [] { InputsLeave(inputs[..|inputs| - 1], n, given, port); }
  }

  /** A supplied input is what its port holds if and only if no edge feeds the port and no later supplied input names
    * it, where the values in question differ. */
  lemma InputHoldsIff(wf: Workflow, n: Name, given: Values, outs: map<Name, Values>, i: nat)
    requires RequestDefined(wf, n, outs) && i < |wf.inputs| && Supplies(wf.inputs[i], n, wf.inputs[i].port, given)
    requires forall k ::
      i < k < |wf.inputs| && Supplies(wf.inputs[k], n, wf.inputs[i].port, given) ==>
        given[wf.inputs[k].name] != given[wf.inputs[i].name]
    requires forall j ::
      0 <= j < |wf.edges| && Feeds(wf.edges[j], n, wf.inputs[i].port) ==>
        outs[wf.edges[j].src.node][wf.edges[j].src.port] != given[wf.inputs[i].name]
    ensures var port := wf.inputs[i].port;
      && port in Request(wf, n, given, outs)
      && (Request(wf, n, given, outs)[port] == given[wf.inputs[i].name] <==>
            (forall j :: 0 <= j < |wf.edges| ==> !Feeds(wf.edges[j], n, port))
              && (forall k :: i < k < |wf.inputs| ==> !Supplies(wf.inputs[k], n, port, given)))
  {
    var port, base := wf.inputs[i].port, FromInputs(wf.inputs, n, given);
    var k := LastInputWins(wf.inputs, n, given, port);
    if j :| 0 <= j < |wf.edges| && Feeds(wf.edges[j], n, port) {
      var last := LastEdgeWins(wf.edges, n, base, outs, port);
    } else {
      EdgesLeave(wf.edges, n, base, outs, port);
      assert k >= i;
    }
  }

  // ---------- meaning ----------

  ghost function Order(wf: Workflow): seq<Name> {
    Graph.LeastOrder(NodeIds(wf), Links(wf))
  }

  /** The place of a node in the topological order. */
  ghost function Rank(wf: Workflow, n: Name): (i: nat)
    requires ContractHolds(wf) && n in NodeIds(wf)
    ensures i < |Order(wf)| && Order(wf)[i] == n
  {
    Graph.LeastOrderIsTopological(NodeIds(wf), Links(wf));
    assert n in Order(wf);
    var i :| 0 <= i < |Order(wf)| && Order(wf)[i] == n;
    i
  }

  lemma ParentRanksLower(wf: Workflow, n: Name, m: Name)
    requires ContractHolds(wf) && n in NodeIds(wf) && m in Parents(wf, n)
    ensures m in NodeIds(wf) && Rank(wf, m) < Rank(wf, n)
  {
    var i :| 0 <= i < |wf.edges| && wf.edges[i].dst.node == n && wf.edges[i].src.node == m;
    assert EdgeLawful(wf.edges[i], NodeIds(wf));
    assert (m, n) in Links(wf);
    Graph.LeastOrderIsTopological(NodeIds(wf), Links(wf));
  }

  function ParametersOf(nodes: seq<Node>, n: Name): Parameters.Supplied {
    if nodes == [] then map[] else if nodes[0].id == n then nodes[0].parameters else ParametersOf(nodes[1..], n)
  }

  function InvocationOf(plan: Plan, n: Name): Invocation
    requires n in plan.ops
  {
    Invocation(plan.ops[n], Parameters.Merged(plan.ops[n].parameters, ParametersOf(plan.wf.nodes, n)))
  }

  lemma {:induction false} ParametersFound(nodes: seq<Node>, i: nat)
    requires i < |nodes| && forall j, k :: 0 <= j < k < |nodes| ==> nodes[j].id != nodes[k].id
    ensures ParametersOf(nodes, nodes[i].id) == nodes[i].parameters
  {
    if i > 0 {
      ParametersFound(nodes[1..], i - 1);
      assert nodes[0].id != nodes[i].id;
    }
  }

  /** A node of an accepted workflow is asked to run with every required parameter and nothing undeclared, all of the
    * declared types and choices; what the document supplies is passed on and lies within the bounds. */
  lemma InvocationFits(plan: Plan, n: Name)
    requires Accepted(plan) && n in plan.ops && Parameters.DefaultsChecked(plan.ops[n].parameters)
    ensures var declared, given, supplied := plan.ops[n].parameters, InvocationOf(plan, n).parameters,
      ParametersOf(plan.wf.nodes, n);
      && (forall name :: name in declared && declared[name].required ==> name in given)
      && (forall name ::
        name in given ==>
          name in declared && Parameters.OfKind(given[name], declared[name].kind)
            && Parameters.AmongChoices(given[name], declared[name]))
      && (forall name ::
        name in supplied ==>
          name in given && given[name] == supplied[name] && name in declared
            && Parameters.Fits(supplied[name], declared[name]))
  {
    hide PortsHold, Parameters.Merged, Parameters.Fits, Parameters.OfKind, Parameters.AmongChoices,
      Parameters.DefaultsChecked, Parameters.ParametersFit;
    var i :| 0 <= i < |plan.wf.nodes| && plan.wf.nodes[i].id == n;
    ParametersFound(plan.wf.nodes, i);
    Parameters.MergedFit(plan.ops[n].parameters, plan.wf.nodes[i].parameters);
  }

  /** The meaning of a node: run it on the workflow inputs and on the meanings of its parents. */
  ghost function Eval(plan: Plan, given: Values, run: Runner, n: Name): Values
    requires Accepted(plan) && n in plan.ops
    decreases Rank(plan.wf, n)
  {
    var outs := map m | m in Parents(plan.wf, n) :: (ParentRanksLower(plan.wf, n, m); Eval(plan, given, run, m));
    run(InvocationOf(plan, n), Request(plan.wf, n, given, outs))
  }

  lemma ParentsKnown(wf: Workflow, n: Name)
    requires ContractHolds(wf)
    ensures Parents(wf, n) <= NodeIds(wf)
  {
    forall m | m in Parents(wf, n) ensures m in NodeIds(wf) {
      var i :| 0 <= i < |wf.edges| && wf.edges[i].dst.node == n && wf.edges[i].src.node == m;
      assert EdgeLawful(wf.edges[i], NodeIds(wf));
    }
  }

  /** The request a node gets when every parent produced its meaning. */
  ghost function EvalInputs(plan: Plan, given: Values, run: Runner, n: Name): Values
    requires Accepted(plan) && n in plan.ops
  {
    ParentsKnown(plan.wf, n);
    Request(plan.wf, n, given, map m | m in Parents(plan.wf, n) :: Eval(plan, given, run, m))
  }

  lemma EvalUnfolds(plan: Plan, given: Values, run: Runner, n: Name)
    requires Accepted(plan) && n in plan.ops
    ensures Eval(plan, given, run, n) == run(InvocationOf(plan, n), EvalInputs(plan, given, run, n))
  {
    ParentsKnown(plan.wf, n);
  }
}
