/** The engine together with the requests its workers hold: every interleaving computes the workflow's meaning. */
module World {
  import opened Names
  import opened Workflows
  import opened Store
  import opened Invariant
  import opened RunControl
  import opened Protocol
  import opened Ledger
  import opened Meaning
  import opened Outcomes

  /** A request that was built for an attempt; workers keep it in memory, targets keep it as a job. */
  datatype Handed = Handed(attempt: AttemptKey, inputs: Values)

  datatype World = World(db: State, handed: set<Handed>)

  /** Everything the engine keeps true of its rows. */
  ghost predicate Sound(s: State) {
    Inv(s) && PlansSound(s) && LedgerSound(s) && ArtifactsSound(s) && OutcomesMapped(s)
  }

  lemma MovesKeepSound(s: State, s': State)
    requires Sound(s) && Moves(s, s')
    ensures Sound(s')
  {
    hide Moves, Inv, PlansSound, LedgerSound, ArtifactsSound, OutcomesMapped;
    MovesKeepInv(s, s');
    MovesKeepPlans(s, s');
    MovesKeepLedger(s, s');
    MovesKeepArtifactsSound(s, s');
    MovesKeepOutcomes(s, s');
  }

  lemma StepKeepsSound(s: State, a: Action)
    requires Sound(s) && Lawful(s, a)
    ensures Sound(Step(s, a))
  {
    hide Moves, Inv, PlansSound, LedgerSound, ArtifactsSound, OutcomesMapped, Lawful;
    StepMoves(s, a);
    MovesKeepSound(s, Step(s, a));
  }

  // ---------- the meaning of what is recorded ----------

  /** The outputs of every succeeded task are the node's meaning on the run's inputs. */
  ghost predicate ResultsMean(s: State, run: Runner) {
    forall k {:trigger k in s.tasks} :: k in s.tasks && s.tasks[k].state == Succeeded ==> ResultMeans(s, run, k)
  }

  ghost predicate ResultMeans(s: State, run: Runner, k: TaskKey)
    requires k in s.tasks
  {
    && k.run in s.runs && Accepted(s.runs[k.run].plan) && k.node in s.runs[k.run].plan.ops
    && Resolve(s.artifacts, s.tasks[k].outputs) == Eval(s.runs[k.run].plan, Given(s, k.run), run, k.node)
  }

  /** A request carries the meanings of the node's parents, on ports of exactly their types, and fills the required
    * ones. */
  ghost predicate RequestMeans(s: State, run: Runner, h: Handed) {
    && h.attempt.task in s.tasks && h.attempt.task.run in s.runs
      && Accepted(s.runs[h.attempt.task.run].plan)
      && h.attempt.task.node in s.runs[h.attempt.task.run].plan.ops
    && var plan, n := s.runs[h.attempt.task.run].plan, h.attempt.task.node;
       && h.inputs == EvalInputs(plan, Given(s, h.attempt.task.run), run, n)
       && TypedBy(h.inputs, plan.ops[n].inputs)
       && RequiredFilled(plan, n, s.runs[h.attempt.task.run].inputs, h.inputs)
  }

  /** No required port is left empty, if edges use required outputs only and the inputs feeding required ports are
    * supplied. */
  ghost predicate RequiredFilled(plan: Plan, n: Name, inputs: Outputs, vals: Values)
    requires Accepted(plan) && n in plan.ops
  {
    EdgesUseRequired(plan) && RequiredSupplied(plan, n, inputs) ==>
      forall p :: p in plan.ops[n].inputs && plan.ops[n].inputs[p].required ==> p in vals
  }

  ghost predicate Means(w: World, run: Runner) {
    && Sound(w.db)
    && ResultsMean(w.db, run)
    && forall h {:trigger h in w.handed} :: h in w.handed ==> RequestMeans(w.db, run, h)
  }

  /** What a parent's row resolves to is the parent's meaning, once all parents succeeded. */
  lemma ParentsMean(s: State, run: Runner, k: TaskKey)
    requires ResultsMean(s, run) && k.run in s.runs && Accepted(s.runs[k.run].plan)
      && k.node in s.runs[k.run].plan.ops && ParentsSucceeded(s, k)
    ensures RequestOf(s, k) == EvalInputs(s.runs[k.run].plan, Given(s, k.run), run, k.node)
  {
    hide IsDocument, PortsHold, Eval, Request, Resolve, Given;
    var plan, given := s.runs[k.run].plan, Given(s, k.run);
    ParentsKnown(plan.wf, k.node);
    var outs := map m | m in Parents(plan.wf, k.node) :: Eval(plan, given, run, m);
    forall m | m in Parents(plan.wf, k.node)
      ensures TaskKey(k.run, m) in s.tasks && Resolve(s.artifacts, s.tasks[TaskKey(k.run, m)].outputs) == outs[m]
    {
      assert ResultMeans(s, run, TaskKey(k.run, m));
    }
    assert ParentOutputs(s, k) == outs;
  }

  /** Requests have exactly the declared types. */
  lemma RequestIsTyped(s: State, k: TaskKey)
    requires TasksLinked(s) && PlansSound(s) && ArtifactsSound(s) && k in s.tasks && ParentsSucceeded(s, k)
    ensures TypedBy(RequestOf(s, k), s.runs[k.run].plan.ops[k.node].inputs)
  {
    hide IsDocument, PortsHold, ContractHolds, Request, GivenTyped;
    var plan := s.runs[k.run].plan;
    var outs := ParentOutputs(s, k);
    forall m | m in outs && m in plan.ops ensures TypedBy(outs[m], plan.ops[m].outputs) {
      assert TaskKey(k.run, m) in s.tasks;
      assert OutputsMatch(outs[m], plan.ops[m].outputs);
    }
    assert GivenTyped(plan.wf, Given(s, k.run));
    RequestTyped(plan, k.node, Given(s, k.run), outs);
  }

  /** Every output an edge uses is a required output of its operation. */
  ghost predicate EdgesUseRequired(plan: Plan)
    requires Accepted(plan)
  {
    forall i :: 0 <= i < |plan.wf.edges| ==>
      plan.ops[plan.wf.edges[i].src.node].outputs[plan.wf.edges[i].src.port].required
  }

  /** Every workflow input that feeds a required port of node `n` was supplied. */
  ghost predicate RequiredSupplied(plan: Plan, n: Name, inputs: Outputs)
    requires Accepted(plan) && n in plan.ops
  {
    forall i ::
      0 <= i < |plan.wf.inputs| && plan.wf.inputs[i].node == n
        && plan.ops[n].inputs[plan.wf.inputs[i].port].required ==>
        plan.wf.inputs[i].name in inputs
  }

  /** If edges use required outputs only, and inputs feeding required ports are supplied, a request builds and no
    * required port is empty. */
  lemma RequestIsFull(s: State, k: TaskKey)
    requires TasksLinked(s) && PlansSound(s) && ArtifactsSound(s) && k in s.tasks && ParentsSucceeded(s, k)
    requires EdgesUseRequired(s.runs[k.run].plan) && RequiredSupplied(s.runs[k.run].plan, k.node, s.runs[k.run].inputs)
    ensures RequestBuilds(s, k)
    ensures var ports := s.runs[k.run].plan.ops[k.node].inputs;
      forall p :: p in ports && ports[p].required ==> p in RequestOf(s, k)
  {
    hide IsDocument, Request, OutputsOwned;
    var plan := s.runs[k.run].plan;
    EdgesDeliver(s, k);
    assert Resolves(s.artifacts, s.runs[k.run].inputs);
    RequestFillsRequired(plan, k.node, Given(s, k.run), ParentOutputs(s, k));
  }

  lemma EdgesDeliver(s: State, k: TaskKey)
    requires TasksLinked(s) && PlansSound(s) && ResultsTyped(s) && k in s.tasks && k.run in s.runs
      && ParentsSucceeded(s, k)
    requires EdgesUseRequired(s.runs[k.run].plan)
    ensures RequestBuilds(s, k)
  {
    hide IsDocument;
    var plan, outs := s.runs[k.run].plan, ParentOutputs(s, k);
    forall i | 0 <= i < |plan.wf.edges| && plan.wf.edges[i].dst.node == k.node
      ensures plan.wf.edges[i].src.node in outs && plan.wf.edges[i].src.port in outs[plan.wf.edges[i].src.node]
    {
      var e := plan.wf.edges[i];
      assert e.src.node in Parents(plan.wf, k.node) && EdgeLawful(e, NodeIds(plan.wf));
      assert TaskKey(k.run, e.src.node) in s.tasks;
      assert OutputsMatch(outs[e.src.node], plan.ops[e.src.node].outputs);
    }
  }

  // ---------- steps of the world ----------

  datatype WorldAction = Build(attempt: AttemptKey) | Engine(action: Action)

  /** A worker completes an attempt with what the runner makes of a request built for that attempt. */
  ghost predicate HonestResult(w: World, run: Runner, lease: Lease, outputs: Values) {
    Completes(w.db, lease, outputs) ==>
      var plan := w.db.runs[lease.attempt.task.run].plan;
      exists h ::
        h in w.handed && h.attempt == lease.attempt
          && outputs == run(InvocationOf(plan, lease.attempt.task.node), h.inputs)
  }

  ghost predicate WorldLawful(w: World, run: Runner, a: WorldAction) {
    match a
    case Build(ak) => ak.task in w.db.tasks && ak.task.run in w.db.runs && RequestBuilds(w.db, ak.task)
    case Engine(b) => Lawful(w.db, b) && (b.DoComplete? ==> HonestResult(w, run, b.lease, b.outputs))
  }

  ghost function WorldStep(w: World, run: Runner, a: WorldAction): World
    requires WorldLawful(w, run, a)
  {
    match a
    case Build(ak) => w.(handed := w.handed + {Handed(ak, RequestOf(w.db, ak.task))})
    case Engine(b) => w.(db := Step(w.db, b))
  }

  /** A request whose lookups all succeed is one whose parents all succeeded: only they have outputs. */
  lemma BuildsOnlyWhenReady(s: State, k: TaskKey)
    requires AttemptsNumbered(s) && TasksAgree(s) && k.run in s.runs && RequestBuilds(s, k)
    ensures ParentsSucceeded(s, k)
  {
    var wf, outs := s.runs[k.run].plan.wf, ParentOutputs(s, k);
    forall m | m in Parents(wf, k.node)
      ensures TaskKey(k.run, m) in s.tasks && s.tasks[TaskKey(k.run, m)].state == Succeeded
    {
      var i :| 0 <= i < |wf.edges| && wf.edges[i].dst.node == k.node && wf.edges[i].src.node == m;
      assert m in outs && wf.edges[i].src.port in outs[m];
      assert TaskShaped(s.tasks[TaskKey(k.run, m)]);
    }
  }

  /** A request that builds has the meaning of its node's inputs, under whatever lease it was asked for. */
  lemma BuiltMeans(s: State, run: Runner, ak: AttemptKey)
    requires Sound(s) && ResultsMean(s, run) && ak.task in s.tasks && ak.task.run in s.runs && RequestBuilds(s, ak.task)
    ensures RequestMeans(s, run, Handed(ak, RequestOf(s, ak.task)))
  {
    BuildsOnlyWhenReady(s, ak.task);
    hide Eval, EvalInputs, RequestOf, Accepted, LedgerSound, ArtifactsSound, EdgesUseRequired,
      RequiredSupplied, RequestBuilds;
    ParentsMean(s, run, ak.task);
    RequestIsTyped(s, ak.task);
    var plan := s.runs[ak.task.run].plan;
    if EdgesUseRequired(plan) && RequiredSupplied(plan, ak.task.node, s.runs[ak.task.run].inputs) {
      RequestIsFull(s, ak.task);
    }
  }

  /** Meanings depend on rows no step changes. */
  lemma MeaningStable(s: State, s': State, r: nat)
    requires Sound(s) && RunsFixed(s, s') && ArtifactsKept(s, s') && r in s.runs
    ensures r in s'.runs && s'.runs[r].plan == s.runs[r].plan && Given(s', r) == Given(s, r)
  {
    hide Inv, PlansSound, LedgerSound, OutcomesMapped, OutputsOwned, ResultsTyped;
    GivenStable(s, s', r);
  }

  lemma RowStepSucceedsNothing(s: State, a: Action)
    requires Lawful(s, a) && (a.DoUnderLease? || a.DoExpire? || a.DoClaimFresh? || a.DoClaimRecovered?)
    ensures SuccessOnlyBy(s, Step(s, a), {})
  {
    hide ParentsSucceeded, Recoverable, OpLawful, AttemptAfter, AttemptAfterExpiry;
  }

  lemma ClosingSucceedsNothing(s: State, a: Action)
    requires Lawful(s, a) && (a.DoFail? || (a.DoComplete? && !Completes(s, a.lease, a.outputs)))
    ensures SuccessOnlyBy(s, Step(s, a), {})
  {
    hide Completes;
  }

  lemma EnteringSucceedsNothing(s: State, a: Action)
    requires Lawful(s, a) && (a.DoRegister? || a.DoAddInput? || a.DoSubmit?)
    ensures SuccessOnlyBy(s, Step(s, a), {})
  {
    hide Accepted, Submittable;
  }

  /** Nothing but a completion makes a task succeed. */
  lemma OnlyCompletionSucceeds(s: State, a: Action)
    requires Inv(s) && Lawful(s, a) && !(a.DoComplete? && Completes(s, a.lease, a.outputs))
    ensures SuccessOnlyBy(s, Step(s, a), {})
  {
    hide Inv, Lawful, Completes, RetryLawful;
    match a
    case DoCancelRun(r, order) =>
      assert SuccessOnlyBy(s, s, {});
      if r in s.runs && RunOpen(s.runs[r].state) {
        CancelCancels(s, r, order);
        CancelsSucceed(s, CancelRun(s, r, order), r);
      }
    case DoRetryTask(r, n) =>
      assert SuccessOnlyBy(s, s, {});
      if r in s.runs && TaskKey(r, n) in s.tasks {
        RetrySucceedsNothing(s, r, n);
      }
    case DoUnderLease(_, _) => RowStepSucceedsNothing(s, a);
    case DoExpire(_, _) => RowStepSucceedsNothing(s, a);
    case DoClaimFresh(_, _, _, _) => RowStepSucceedsNothing(s, a);
    case DoClaimRecovered(_, _, _) => RowStepSucceedsNothing(s, a);
    case DoFail(_) => ClosingSucceedsNothing(s, a);
    case DoComplete(_, _) => ClosingSucceedsNothing(s, a);
    case _ => EnteringSucceedsNothing(s, a);
  }

  lemma RetrySucceedsNothing(s: State, r: nat, n: Name)
    requires r in s.runs && TaskKey(r, n) in s.tasks
    ensures SuccessOnlyBy(s, RetryTask(s, r, n), {})
  {
    RetryResets(s, r, n);
  }

  lemma ResultStable(s: State, s': State, run: Runner, k: TaskKey)
    requires Sound(s) && RunsFixed(s, s') && ArtifactsKept(s, s') && k in s.tasks && k in s'.tasks
      && s.tasks[k].state == Succeeded
    requires s'.tasks[k].outputs == s.tasks[k].outputs && ResultMeans(s, run, k)
    ensures ResultMeans(s', run, k)
  {
    hide Inv, PlansSound, LedgerSound, OutcomesMapped, OutputsOwned, InputsTyped, Eval, Accepted, OutputsMatch;
    MeaningStable(s, s', k.run);
    ResolveStable(s.artifacts, s'.artifacts, s.tasks[k].outputs);
  }

  /** A completion with an honest result records the node's meaning. */
  lemma CompletionMeans(w: World, run: Runner, lease: Lease, outputs: Values)
    requires Means(w, run) && Completes(w.db, lease, outputs) && HonestResult(w, run, lease, outputs)
    ensures lease.attempt.task in Complete(w.db, lease, outputs).tasks
      && ResultMeans(Complete(w.db, lease, outputs), run, lease.attempt.task)
  {
    hide Inv, PlansSound, LedgerSound, ArtifactsSound, OutcomesMapped, Eval, EvalInputs, Accepted,
      OutputsMatch, AllSucceeded, RunOutputs, RunOutputsRaise, OutputRows, OutputIds, Closes;
    var s, s', k := w.db, Complete(w.db, lease, outputs), lease.attempt.task;
    assert w.db.runs == s.runs;
    var h :| h in w.handed && h.attempt == lease.attempt
      && outputs == run(InvocationOf(s.runs[k.run].plan, k.node), h.inputs);
    assert RequestMeans(s, run, h);
    EvalUnfolds(s.runs[k.run].plan, Given(s, k.run), run, k.node);
    ResolveNew(s.artifacts, lease.attempt, outputs);
    CompletionKeepsGiven(s, lease, outputs);
  }

  lemma CompletionKeepsGiven(s: State, lease: Lease, outputs: Values)
    requires Sound(s) && Completes(s, lease, outputs)
    ensures var s', r := Complete(s, lease, outputs), lease.attempt.task.run;
      r in s'.runs && s'.runs[r].plan == s.runs[r].plan && Given(s', r) == Given(s, r)
  {
    assert lease.attempt.task.run in s.runs;
    hide Moves, Completes, Inv, PlansSound, LedgerSound, OutcomesMapped, OutputsOwned, ResultsTyped, InputsTyped;
    var s' := Complete(s, lease, outputs);
    CompleteShape(s, lease, outputs);
    KeptByMoves(s, s');
    MeaningStable(s, s', lease.attempt.task.run);
  }

  lemma KeptByMoves(s: State, s': State)
    requires Sound(s) && Moves(s, s')
    ensures RunsFixed(s, s') && ArtifactsKept(s, s')
  {
    hide Moves, Inv, PlansSound, LedgerSound, OutcomesMapped, OutputsOwned, ResultsTyped, InputsTyped;
    MovesFixRuns(s, s');
    MovesKeepArtifacts(s, s');
  }

  lemma EngineStepMeans(w: World, run: Runner, b: Action)
    requires Means(w, run) && WorldLawful(w, run, Engine(b))
    ensures ResultsMean(Step(w.db, b), run)
  {
    hide Moves, Inv, PlansSound, LedgerSound, ArtifactsSound, OutcomesMapped, Lawful, Step, Completes,
      HonestResult, ResultMeans, RunsFixed, ArtifactsKept;
    var s, s' := w.db, Step(w.db, b);
    StepMoves(s, b);
    KeptByMoves(s, s');
    var done := MovesSucceed(s, s');
    var completes := b.DoComplete? && Completes(s, b.lease, b.outputs);
    if completes {
      StepCompletes(w, run, b);
    } else {
      OnlyCompletionSucceeds(s, b);
    }
    forall k | k in s'.tasks && s'.tasks[k].state == Succeeded ensures ResultMeans(s', run, k) {
      if !(completes && k == b.lease.attempt.task) {
        assert k in s.tasks && s.tasks[k].state == Succeeded && s'.tasks[k].outputs == s.tasks[k].outputs;
        ResultStable(s, s', run, k);
      }
    }
  }

  lemma StepCompletes(w: World, run: Runner, b: Action)
    requires Means(w, run) && WorldLawful(w, run, Engine(b)) && b.DoComplete? && Completes(w.db, b.lease, b.outputs)
    ensures SuccessOnlyBy(w.db, Step(w.db, b), {b.lease.attempt.task})
    ensures b.lease.attempt.task in Step(w.db, b).tasks && ResultMeans(Step(w.db, b), run, b.lease.attempt.task)
  {
    hide Inv, PlansSound, LedgerSound, ArtifactsSound, OutcomesMapped, ResultMeans, Completes, HonestResult,
      OutputIds, OutputRows;
    CompletionMeans(w, run, b.lease, b.outputs);
  }

  /** Requests already built keep their meaning. */
  lemma HandedStable(s: State, s': State, run: Runner, h: Handed)
    requires Sound(s) && RunsFixed(s, s') && ArtifactsKept(s, s') && RequestMeans(s, run, h)
      && h.attempt.task in s'.tasks
    ensures RequestMeans(s', run, h)
  {
    hide Inv, PlansSound, LedgerSound, ArtifactsSound, OutcomesMapped, EvalInputs, Accepted, TypedBy, RequiredFilled;
    MeaningStable(s, s', h.attempt.task.run);
  }

  /** Scheduling does not change meaning: every world step keeps it. */
  lemma WorldStepMeans(w: World, run: Runner, a: WorldAction)
    requires Means(w, run) && WorldLawful(w, run, a)
    ensures Means(WorldStep(w, run, a), run)
  {
    hide Moves, Sound, ResultsMean, RequestMeans, RunsFixed, ArtifactsKept;
    match a
    case Build(ak) =>
      BuiltMeans(w.db, run, ak);
    case Engine(b) =>
      var s, s' := w.db, Step(w.db, b);
      EngineStepSound(s, b);
      EngineStepMeans(w, run, b);
      forall h | h in w.handed ensures RequestMeans(s', run, h) {
        HandedStays(s, s', run, h);
        HandedStable(s, s', run, h);
      }
  }

  lemma EngineStepSound(s: State, b: Action)
    requires Sound(s) && Lawful(s, b)
    ensures Sound(Step(s, b)) && RunsFixed(s, Step(s, b)) && ArtifactsKept(s, Step(s, b))
  {
    hide Moves, Inv, PlansSound, LedgerSound, ArtifactsSound, OutcomesMapped, Lawful, Step;
    StepMoves(s, b);
    StepKeepsSound(s, b);
    KeptByMoves(s, Step(s, b));
  }

  lemma HandedStays(s: State, s': State, run: Runner, h: Handed)
    requires Sound(s) && Sound(s') && RunsFixed(s, s') && RequestMeans(s, run, h)
    ensures h.attempt.task in s'.tasks
  {
    hide PlansSound, LedgerSound, ArtifactsSound, EvalInputs, Accepted, TypedBy, RequiredFilled,
      LiveIsCurrent, TasksAgree, AttemptsSound, TokensFresh, CancelSound, RunsSound, DependenciesSound;
    assert TaskKey(h.attempt.task.run, h.attempt.task.node) == h.attempt.task;
  }
}
