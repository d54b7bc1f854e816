/** What holds over whole runs of the engine and its workers, however they interleave. */
module History {
  import opened Workflows
  import opened Store
  import opened Invariant
  import opened Protocol
  import opened Ledger
  import opened Meaning
  import opened Outcomes
  import opened World

  ghost predicate Next(w: World, w': World, run: Runner) {
    exists a :: WorldLawful(w, run, a) && w' == WorldStep(w, run, a)
  }

  /** A run of the system from the empty database: crashes are steps that are never taken. */
  ghost predicate Behavior(b: seq<World>, run: Runner) {
    && |b| >= 1 && b[0] == World(EMPTY, {})
    && forall i {:trigger b[i]} :: 0 <= i < |b| - 1 ==> Next(b[i], b[i + 1], run)
  }

  lemma EmptySound()
    ensures Sound(EMPTY)
  {
    assert Inv(EMPTY);
    assert PlansSound(EMPTY);
    assert ArtifactsSound(EMPTY);
    assert forall k :: Leases(EMPTY.events, k) == 0;
    assert forall ak, kind :: Ends(EMPTY.events, ak, kind) == 0;
  }

  lemma {:induction false} BehaviorMeans(b: seq<World>, run: Runner, i: nat)
    requires Behavior(b, run) && i < |b|
    ensures Means(b[i], run)
  {
    hide Means, Next, WorldStep, WorldLawful;
    if i == 0 {
      InitMeans(run);
    } else {
      BehaviorMeans(b, run, i - 1);
      NextMeans(b[i - 1], b[i - 1 + 1], run);
    }
  }

  lemma InitMeans(run: Runner)
    ensures Means(World(EMPTY, {}), run)
  {
    EmptySound();
  }

  lemma NextMeans(w: World, w': World, run: Runner)
    requires Means(w, run) && Next(w, w', run)
    ensures Means(w', run)
  {
    hide Means, WorldStep, WorldLawful;
    var a :| WorldLawful(w, run, a) && w' == WorldStep(w, run, a);
    WorldStepMeans(w, run, a);
  }

  /** In every reachable state, the outputs recorded for a succeeded task are the meaning of its node on the run's
    * inputs. */
  lemma SchedulingKeepsMeaning(b: seq<World>, run: Runner, i: nat, k: TaskKey)
    requires Behavior(b, run) && i < |b| && k in b[i].db.tasks && b[i].db.tasks[k].state == Succeeded
    ensures k.run in b[i].db.runs && Accepted(b[i].db.runs[k.run].plan) && k.node in b[i].db.runs[k.run].plan.ops
    ensures Resolve(b[i].db.artifacts, b[i].db.tasks[k].outputs) ==
      Eval(b[i].db.runs[k.run].plan, Given(b[i].db, k.run), run, k.node)
  {
    hide Behavior, Sound, Accepted, Eval;
    BehaviorMeans(b, run, i);
    assert ResultMeans(b[i].db, run, k);
  }

  /** In every reachable state, each named output of a succeeded run is the meaning of its node at its port. */
  lemma RunOutputsMean(b: seq<World>, run: Runner, i: nat, r: nat, o: nat)
    requires Behavior(b, run) && i < |b| && r in b[i].db.runs && b[i].db.runs[r].state == RunSucceeded
    requires o < |b[i].db.runs[r].plan.wf.outputs|
    ensures var s := b[i].db; var plan, out := s.runs[r].plan, s.runs[r].plan.wf.outputs[o];
      && Accepted(plan) && out.node in plan.ops && out.name in s.runs[r].outputs
        && s.runs[r].outputs[out.name] in s.artifacts
      && var meaning := Eval(plan, Given(s, r), run, out.node);
         out.port in meaning && s.artifacts[s.runs[r].outputs[out.name]] == meaning[out.port]
  {
    hide Behavior, Eval, RunOutputs, Given;
    BehaviorMeans(b, run, i);
    var s := b[i].db;
    var outs := s.runs[r].plan.wf.outputs;
    SucceededRunFacts(s, r, o);
    RunOutputsAreTaskOutputs(outs, s.tasks, r, o);
    var k := TaskKey(r, outs[o].node);
    SchedulingKeepsMeaning(b, run, i, k);
    assert outs[o].port in Resolve(s.artifacts, s.tasks[k].outputs);
  }

  lemma SucceededRunFacts(s: State, r: nat, o: nat)
    requires Sound(s) && r in s.runs && s.runs[r].state == RunSucceeded && o < |s.runs[r].plan.wf.outputs|
    ensures var plan := s.runs[r].plan; var k := TaskKey(r, plan.wf.outputs[o].node);
      && Accepted(plan) && k.node in plan.ops && k in s.tasks && s.tasks[k].state == Succeeded
        && Resolves(s.artifacts, s.tasks[k].outputs)
      && !RunOutputsRaise(plan.wf.outputs, s.tasks, r) && s.runs[r].outputs == RunOutputs(plan.wf.outputs, s.tasks, r)
      && (forall a, b :: 0 <= a < b < |plan.wf.outputs| ==> plan.wf.outputs[a].name != plan.wf.outputs[b].name)
  {
    hide PortsHold, LedgerSound, LiveIsCurrent, TasksAgree, AttemptsSound, TokensFresh, CancelSound,
      DependenciesSound, RunOutputs;
    assert RunOutputsMapped(s.runs[r], s.tasks, r);
    var k := TaskKey(r, s.runs[r].plan.wf.outputs[o].node);
    assert k.node in s.runs[r].plan.ops && k in s.tasks;
  }

  /** Any two schedules, in any two histories, give a node the same outputs on the same inputs. */
  lemma SchedulesAgree(b: seq<World>, c: seq<World>, run: Runner, i: nat, j: nat, k: TaskKey, l: TaskKey)
    requires Behavior(b, run) && Behavior(c, run) && i < |b| && j < |c|
    requires k in b[i].db.tasks && b[i].db.tasks[k].state == Succeeded && k.run in b[i].db.runs
    requires l in c[j].db.tasks && c[j].db.tasks[l].state == Succeeded && l.run in c[j].db.runs
    requires b[i].db.runs[k.run].plan == c[j].db.runs[l.run].plan
      && Given(b[i].db, k.run) == Given(c[j].db, l.run) && k.node == l.node
    ensures Resolve(b[i].db.artifacts, b[i].db.tasks[k].outputs) == Resolve(c[j].db.artifacts, c[j].db.tasks[l].outputs)
  {
    hide Behavior, Accepted, Eval;
    SchedulingKeepsMeaning(b, run, i, k);
    SchedulingKeepsMeaning(c, run, j, l);
  }

  /** Every request ever built carries the meanings of the node's parents, on ports of exactly the declared types. */
  lemma RequestsGoRight(b: seq<World>, run: Runner, i: nat, h: Handed)
    requires Behavior(b, run) && i < |b| && h in b[i].handed
    ensures RequestMeans(b[i].db, run, h)
  {
    hide Behavior, Sound, RequestMeans, ResultsMean;
    BehaviorMeans(b, run, i);
  }

  /** The master invariant and the ledger hold in every reachable state. */
  lemma ReachableSound(b: seq<World>, run: Runner, i: nat)
    requires Behavior(b, run) && i < |b|
    ensures Sound(b[i].db)
  {
    hide Behavior, Sound, RequestMeans, ResultsMean;
    BehaviorMeans(b, run, i);
  }

  // ---------- between two moments ----------

  /** What any later state owes to an earlier one. */
  ghost predicate Evolves(s: State, s': State) {
    && RunsFixed(s, s')
    && HistoryFrozen(s, s')
    && TokensFenced(s, s')
    && ArtifactsKept(s, s')
    && LogGrows(s, s')
  }

  lemma MovesGrowLog(s: State, s': State)
    requires Moves(s, s')
    ensures LogGrows(s, s')
  {
    hide CellSound, CellStep, ArtifactsFollow, Accepted;
  }

  lemma MovesEvolve(s: State, s': State)
    requires Sound(s) && Moves(s, s')
    ensures Evolves(s, s')
  {
    hide Moves, Sound, RunsFixed, HistoryFrozen, TokensFenced, ArtifactsKept, LogGrows;
    MovesFreeze(s, s');
    MovesFence(s, s');
    KeptByMoves(s, s');
    MovesGrowLog(s, s');
  }

  lemma EvolvesReflexive(s: State)
    ensures Evolves(s, s)
  {
  }

  lemma EvolvesTransitive(s: State, s': State, s'': State)
    requires Evolves(s, s') && Evolves(s', s'')
    ensures Evolves(s, s'')
  {
    assert HistoryFrozen(s, s'') by { assert HistoryFrozen(s, s') && HistoryFrozen(s', s''); }
    assert TokensFenced(s, s'') by { assert TokensFenced(s, s') && TokensFenced(s', s''); }
    assert ArtifactsKept(s, s'') by { assert ArtifactsKept(s, s') && ArtifactsKept(s', s''); }
    assert RunsFixed(s, s'') by { assert RunsFixed(s, s') && RunsFixed(s', s''); }
  }

  lemma NextEvolves(w: World, w': World, run: Runner)
    requires Means(w, run) && Next(w, w', run)
    ensures Evolves(w.db, w'.db)
  {
    hide Sound, Evolves, Step, Lawful, Moves, ResultsMean, HonestResult;
    var a :| WorldLawful(w, run, a) && w' == WorldStep(w, run, a);
    match a
    case Build(_) => EvolvesReflexive(w.db);
    case Engine(act) =>
      StepMoves(w.db, act) by { SoundParts(w.db); }
      MovesEvolve(w.db, w'.db);
  }

  lemma SoundParts(s: State)
    requires Sound(s)
    ensures Inv(s) && PlansSound(s) && LedgerSound(s) && ArtifactsSound(s) && OutcomesMapped(s)
  {
  }

  lemma {:induction false} LaterEvolves(b: seq<World>, run: Runner, i: nat, j: nat)
    requires Behavior(b, run) && i <= j < |b|
    ensures Evolves(b[i].db, b[j].db)
    decreases j - i
  {
    hide Evolves, Next, Means;
    if i == j {
      EvolvesReflexive(b[i].db);
    } else {
      LaterEvolves(b, run, i, j - 1);
      BehaviorMeans(b, run, j - 1);
      NextEvolves(b[j - 1], b[j - 1 + 1], run);
      EvolvesTransitive(b[i].db, b[j - 1].db, b[j].db);
    }
  }

  /** An attempt that has ended never changes in any later step. */
  lemma EndedAttemptsNeverChange(b: seq<World>, run: Runner, i: nat, j: nat, ak: AttemptKey)
    requires Behavior(b, run) && i <= j < |b| && ak in b[i].db.attempts && Terminal(b[i].db.attempts[ak].state)
    ensures ak in b[j].db.attempts && b[j].db.attempts[ak] == b[i].db.attempts[ak]
  {
    hide Behavior, TokensFenced, RunsFixed, ArtifactsKept, LogGrows;
    LaterEvolves(b, run, i, j);
  }

  /** Once an issued token is off its attempt it is never accepted again: every operation with it writes nothing. */
  lemma StaleTokensAreRefused(b: seq<World>, run: Runner, i: nat, j: nat, lease: Lease, op: LeaseOp, outputs: Values)
    requires Behavior(b, run) && i <= j < |b| && lease.token < b[i].db.nextToken
      && !CarriesToken(b[i].db, lease.attempt, lease.token)
    ensures UnderLease(b[j].db, lease, op) == b[j].db
    ensures Complete(b[j].db, lease, outputs) == b[j].db
    ensures Fail(b[j].db, lease) == b[j].db
  {
    hide Behavior, HistoryFrozen, RunsFixed, ArtifactsKept, LogGrows, OutputsMatch;
    LaterEvolves(b, run, i, j);
    assert !CarriesToken(b[j].db, lease.attempt, lease.token);
  }
}
