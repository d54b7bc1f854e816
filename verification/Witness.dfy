/** A smallest workflow: a run of it that succeeds, and a retry of it that goes wrong. */
module Witness {
  import opened Names
  import opened Workflows
  import opened Store
  import opened Invariant
  import opened RunControl
  import opened Protocol
  import opened World
  import opened History
  import Graph

  const LONE := Name(0)
  const TASK := TaskKey(0, LONE)
  const LEASE := Lease(AttemptKey(TASK, 1), LONE, 0, Leased, None, false)

  /** One node without ports, inputs or outputs. */
  function LonePlan(): Plan {
    Plan(Workflow([Node(LONE, OperationRef(LONE, LONE, LONE), map[], None, None)], [], [], []),
      map[LONE := Operation(LONE, map[], map[], map[], {LONE})])
  }

  lemma LoneGraph()
    ensures NodeIds(LonePlan().wf) == {LONE} && Links(LonePlan().wf) == {} && Graph.Acyclic({LONE}, {})
  {
    assert LonePlan().wf.nodes[0].id == LONE;
    forall S: set<Name> | S != {} && S <= {LONE} ensures exists n :: Graph.IsSource(n, S, {}) {
      var n :| n in S;
      assert Graph.IsSource(n, S, {});
    }
  }

  lemma LoneAccepted()
    ensures Accepted(LonePlan())
  {
    LoneGraph();
  }

  function Registered(): State { Register(EMPTY, 0, LonePlan()) }

  ghost function LoneSubmitted(): State
    requires Accepted(LonePlan())
  {
    Submit(Registered(), 0, 0, map[], LONE, LONE, 0)
  }

  /** The lone task waits in a sound store. */
  lemma LoneWaits()
    ensures Accepted(LonePlan()) && Sound(LoneSubmitted()) && Claimable(LoneSubmitted(), TASK)
    ensures var s := LoneSubmitted();
      s.runs.Keys == {0} && s.runs[0].plan == LonePlan() && s.runs[0].inputs == map[]
        && s.tasks.Keys == {TASK} && s.tasks[TASK].attempt == 0 && s.attempts == map[] && s.nextToken == 0
  {
    LoneAccepted();
    hide Sound, Accepted;
    EmptySound();
    StepKeepsSound(EMPTY, DoRegister(0, LonePlan()));
    StepKeepsSound(Registered(), DoSubmit(0, 0, map[], LONE, LONE, 0));
    assert TargetOf(LonePlan().wf.nodes, LONE, LONE) == LONE;
    assert Submittable(Registered(), LonePlan(), map[], LONE);
    assert Parents(LonePlan().wf, LONE) == {};
  }

  ghost function LoneRunning(): State
    requires Accepted(LonePlan())
  {
    LoneWaits();
    ClaimFresh(LoneSubmitted(), TASK, LONE, 0, 10)
  }

  lemma LoneRuns()
    ensures Accepted(LonePlan()) && Sound(LoneRunning())
    ensures var s := LoneRunning();
      s.runs.Keys == {0} && s.runs[0].plan == LonePlan() && s.runs[0].inputs == map[]
        && s.tasks.Keys == {TASK} && TASK in s.tasks
    ensures var s := LoneRunning();
      s.attempts == map[LEASE.attempt := Attempt(Leased, Some(Hold(LONE, 0, 10)), None, 0, map[])]
        && s.tasks[TASK].state == Running && s.tasks[TASK].hold == Some(TaskHold(0, 10))
    ensures var s := LoneRunning(); s.tasks[TASK].attempt == 1 && s.runs[0].state == RunRunning && s.nextToken == 1
  {
    LoneWaits();
    hide Sound, Accepted, Submit;
    StepKeepsSound(LoneSubmitted(), DoClaimFresh(TASK, LONE, 0, 10));
  }

  /** Retrying a running task breaks the invariant: its attempt stays live under a pending task. */
  lemma RetryOfRunningBreaks()
    ensures Accepted(LonePlan()) && Inv(LoneRunning()) && !Inv(RetryTask(LoneRunning(), 0, LONE))
  {
    LoneRuns();
    LoneGraph();
    var s := LoneRunning();
    assert Inv(s);
    DownstreamCloses(LonePlan().wf, LONE);
    hide Inv, Accepted, Downstream, LoneRunning;
    RetryKeepsIff(s, 0, LONE);
    assert LEASE.attempt in s.attempts && !Terminal(s.attempts[LEASE.attempt].state);
  }

  /** A whole run: register, submit, claim, build the request, complete. */
  ghost function LoneHistory(): seq<World>
    requires Accepted(LonePlan())
  {
    var handed := {Handed(LEASE.attempt, map[])};
    [World(EMPTY, {}), World(Registered(), {}), World(LoneSubmitted(), {}), World(LoneRunning(), {}),
      World(LoneRunning(), handed), World(Complete(LoneRunning(), LEASE, map[]), handed)]
  }

  lemma LoneRequest()
    ensures Accepted(LonePlan()) && TASK.run in LoneRunning().runs && RequestBuilds(LoneRunning(), TASK)
      && RequestOf(LoneRunning(), TASK) == map[] && Completes(LoneRunning(), LEASE, map[])
  {
    LoneRuns();
    hide Sound, Accepted, LoneRunning;
    assert Parents(LonePlan().wf, LONE) == {};
  }

  lemma LoneEnters(run: Runner)
    ensures Accepted(LonePlan()) && Next(World(EMPTY, {}), World(Registered(), {}), run)
      && Next(World(Registered(), {}), World(LoneSubmitted(), {}), run)
  {
    LoneAccepted();
    hide Accepted;
    NextBy(World(EMPTY, {}), World(Registered(), {}), run, Engine(DoRegister(0, LonePlan())));
    NextBy(World(Registered(), {}), World(LoneSubmitted(), {}), run, Engine(DoSubmit(0, 0, map[], LONE, LONE, 0)));
  }

  lemma LoneStarts(run: Runner)
    ensures Accepted(LonePlan()) && Next(World(LoneSubmitted(), {}), World(LoneRunning(), {}), run)
    ensures Next(World(LoneRunning(), {}), World(LoneRunning(), {Handed(LEASE.attempt, map[])}), run)
  {
    LoneWaits();
    LoneRuns();
    LoneRequest();
    hide Sound, Accepted, LoneSubmitted, RequestBuilds, RequestOf, Claimable;
    NextBy(World(LoneSubmitted(), {}), World(LoneRunning(), {}), run, Engine(DoClaimFresh(TASK, LONE, 0, 10)));
    hide LoneRunning;
    NextBy(World(LoneRunning(), {}), World(LoneRunning(), {Handed(LEASE.attempt, map[])}), run, Build(LEASE.attempt));
  }

  lemma LoneEnds(run: Runner)
    requires run(Invocation(LonePlan().ops[LONE], map[]), map[]) == map[]
    ensures Accepted(LonePlan())
    ensures var handed := {Handed(LEASE.attempt, map[])};
      Next(World(LoneRunning(), handed), World(Complete(LoneRunning(), LEASE, map[]), handed), run)
  {
    LoneRuns();
    hide Sound, Accepted, LoneRunning, Completes, Complete;
    assert ParametersOf(LonePlan().wf.nodes, LONE) == map[];
    var handed := {Handed(LEASE.attempt, map[])};
    NextBy(World(LoneRunning(), handed), World(Complete(LoneRunning(), LEASE, map[]), handed), run,
      Engine(DoComplete(LEASE, map[])));
  }

  /** Histories in which something succeeds exist, for every runner that returns nothing where nothing is declared. */
  lemma SomethingSucceeds(run: Runner)
    requires run(Invocation(LonePlan().ops[LONE], map[]), map[]) == map[]
    ensures Accepted(LonePlan()) && Behavior(LoneHistory(), run)
    ensures var s := LoneHistory()[5].db;
      TASK in s.tasks && s.tasks[TASK].state == Succeeded && 0 in s.runs && s.runs[0].state == RunSucceeded
  {
    hide Accepted, LoneRunning, LoneSubmitted, Registered, Complete, Next;
    LoneEnters(run);
    LoneStarts(run);
    LoneEnds(run);
    LoneFinishes();
  }

  lemma NextBy(w: World, w': World, run: Runner, a: WorldAction)
    requires WorldLawful(w, run, a) && w' == WorldStep(w, run, a)
    ensures Next(w, w', run)
  {
  }

  lemma LoneFinishes()
    ensures Accepted(LonePlan()) && var s := Complete(LoneRunning(), LEASE, map[]);
      TASK in s.tasks && s.tasks[TASK].state == Succeeded && 0 in s.runs && s.runs[0].state == RunSucceeded
  {
    LoneRuns();
    hide Sound, Accepted, LoneRunning;
    LoneRequest();
  }

  const FIRST := Name(1)
  const SECOND := Name(2)
  const PORT := Name(3)
  const KIND := Name(4)

  /** A single-artifact port fed by an edge and by two workflow inputs. */
  function SharedPlan(): Plan {
    var edge := Edge(Endpoint(FIRST, PORT, KIND), Endpoint(SECOND, PORT, KIND));
    var inputs := [WorkflowInput(FIRST, KIND, false, SECOND, PORT), WorkflowInput(SECOND, KIND, false, SECOND, PORT)];
    var operation := Operation(LONE, map[PORT := Port(KIND, false, false)],
      map[PORT := Port(KIND, true, false)], map[], {LONE});
    Plan(Workflow([Node(FIRST, OperationRef(LONE, LONE, LONE), map[], None, None),
      Node(SECOND, OperationRef(LONE, LONE, LONE), map[], None, None)], [edge], inputs, []),
         map[FIRST := operation, SECOND := operation])
  }

  lemma SharedGraph()
    ensures NodeIds(SharedPlan().wf) == {FIRST, SECOND} && Links(SharedPlan().wf) == {(FIRST, SECOND)}
      && Graph.Acyclic({FIRST, SECOND}, {(FIRST, SECOND)})
  {
    var wf := SharedPlan().wf;
    assert wf.nodes[0].id == FIRST && wf.nodes[1].id == SECOND;
    assert (wf.edges[0].src.node, wf.edges[0].dst.node) == (FIRST, SECOND);
    forall S: set<Name> | S != {} && S <= {FIRST, SECOND} ensures exists n :: Graph.IsSource(n, S, {(FIRST, SECOND)}) {
      if FIRST in S {
        assert Graph.IsSource(FIRST, S, {(FIRST, SECOND)});
      } else {
        var n :| n in S;
        assert Graph.IsSource(SECOND, S, {(FIRST, SECOND)});
      }
    }
  }

  lemma SharedIsAccepted()
    ensures Accepted(SharedPlan())
  {
    hide Graph.Acyclic, NodeIds, Links;
    SharedGraph();
    assert Connected(SharedPlan().wf, SECOND, PORT) by { assert SharedPlan().wf.edges[0].dst.node == SECOND; }
    assert ContractHolds(SharedPlan().wf);
    assert ParametersHold(SharedPlan().wf, SharedPlan().ops);
  }

  /** Acceptance does not keep a single-artifact port to one artifact: an edge and two inputs may name it, and the
    * edge wins over both. */
  lemma SingleArtifactPortIsShared(given: Values, outs: map<Name, Values>)
    requires FIRST in outs && PORT in outs[FIRST]
    ensures var plan := SharedPlan(); Accepted(plan) && !plan.ops[SECOND].inputs[PORT].multiple
    ensures var wf := SharedPlan().wf;
      Feeds(wf.edges[0], SECOND, PORT)
        && forall i :: 0 <= i < 2 ==> wf.inputs[i].node == SECOND && wf.inputs[i].port == PORT
    ensures PORT in Request(SharedPlan().wf, SECOND, given, outs)
      && Request(SharedPlan().wf, SECOND, given, outs)[PORT] == outs[FIRST][PORT]
  {
    hide Accepted;
    SharedIsAccepted();
    var wf := SharedPlan().wf;
    var j := LastEdgeWins(wf.edges, SECOND, FromInputs(wf.inputs, SECOND, given), outs, PORT)
      by { assert Feeds(wf.edges[0], SECOND, PORT); }
  }
}
