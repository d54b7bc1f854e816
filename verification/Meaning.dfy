/** Scheduling does not change meaning, and accepted workflows do not go wrong. */
module Meaning {
  import opened Workflows
  import opened Store
  import opened Invariant
  import opened RunControl
  import opened Protocol

  // ---------- artifacts ----------

  /** An output artifact belongs to an attempt that succeeded. */
  ghost predicate OutputsOwned(s: State) {
    forall id {:trigger id in s.artifacts} :: id in s.artifacts && id.OutputArtifact? ==>
      id.attempt in s.attempts && s.attempts[id.attempt].state == AttemptSucceeded
  }

  /** A succeeded task produced every required output, and nothing undeclared or of another type. */
  ghost predicate ResultsTyped(s: State) {
    forall k {:trigger k in s.tasks} :: k in s.tasks && s.tasks[k].state == Succeeded ==>
      && k.run in s.runs && k.node in s.runs[k.run].plan.ops
      && Resolves(s.artifacts, s.tasks[k].outputs)
      && OutputsMatch(Resolve(s.artifacts, s.tasks[k].outputs), s.runs[k.run].plan.ops[k.node].outputs)
  }

  /** A run's inputs resolve to artifacts of the declared types. */
  ghost predicate InputsTyped(s: State) {
    forall r {:trigger r in s.runs} :: r in s.runs ==>
      Resolves(s.artifacts, s.runs[r].inputs) && GivenTyped(s.runs[r].plan.wf, Given(s, r))
  }

  ghost predicate ArtifactsSound(s: State) {
    OutputsOwned(s) && ResultsTyped(s) && InputsTyped(s)
  }

  lemma ResolveStable(artifacts: map<ArtifactId, Value>, artifacts': map<ArtifactId, Value>, outs: Outputs)
    requires Resolves(artifacts, outs)
      && forall id {:trigger id in artifacts} {:trigger artifacts'[id]} :: id in artifacts ==>
      id in artifacts' && artifacts'[id] == artifacts[id]
    ensures Resolves(artifacts', outs) && Resolve(artifacts', outs) == Resolve(artifacts, outs)
  {
    forall p | p in outs ensures outs[p] in artifacts' && artifacts'[outs[p]] == artifacts[outs[p]] { }
  }

  lemma ResolveNew(artifacts: map<ArtifactId, Value>, ak: AttemptKey, outputs: Values)
    ensures var artifacts' := artifacts + OutputRows(ak, outputs);
      Resolves(artifacts', OutputIds(ak, outputs)) && Resolve(artifacts', OutputIds(ak, outputs)) == outputs
  {
    var ids := OutputIds(ak, outputs);
    forall p | p in outputs ensures ids[p] in OutputRows(ak, outputs) && OutputRows(ak, outputs)[ids[p]] == outputs[p] {
      assert ids[p] in ids.Values;
    }
  }

  /** Rows of an attempt that had none yet are new, and keep every other row. */
  lemma AddOutputRows(artifacts: map<ArtifactId, Value>, ak: AttemptKey, outputs: Values)
    requires forall id {:trigger id in artifacts} :: id in artifacts && id.OutputArtifact? ==> id.attempt != ak
    ensures var artifacts' := artifacts + OutputRows(ak, outputs);
      && (forall id {:trigger id in artifacts} {:trigger artifacts'[id]} :: id in artifacts ==>
        id in artifacts' && artifacts'[id] == artifacts[id])
      && (forall id {:trigger id in artifacts'} :: id in artifacts' && id !in artifacts ==>
        id.OutputArtifact? && id.attempt == ak)
  {
    forall id | id in OutputRows(ak, outputs) ensures id.OutputArtifact? && id.attempt == ak { }
  }

  lemma MovedKeepsArtifacts(s: State, s': State, k: TaskKey)
    requires OutputsOwned(s) && Moved(s, s', k)
    ensures ArtifactsKept(s, s') && OutputsOwned(s')
  {
    hide ParentsSucceeded, TaskAgrees, AttemptSound, TokenFollows, LogFollows, AllSucceeded, OutputsMatch, OutputRows;
    var ck := Current(s', k);
    assert ck in s.attempts ==> s.attempts[ck].state != AttemptSucceeded;
    if s'.attempts[ck].state == AttemptSucceeded {
      var outputs: Values :| s'.artifacts == s.artifacts + OutputRows(ck, outputs);
      AddOutputRows(s.artifacts, ck, outputs);
    }
  }

  lemma MovesKeepArtifacts(s: State, s': State)
    requires OutputsOwned(s) && Moves(s, s')
    ensures ArtifactsKept(s, s') && OutputsOwned(s')
  {
    hide Moved, Accepted;
    if k :| Moved(s, s', k) {
      MovedKeepsArtifacts(s, s', k);
    } else if r :| CancelsRun(s, s', r) {
      forall ak | ak in s.attempts && s.attempts[ak].state == AttemptSucceeded
        ensures s'.attempts[ak].state == AttemptSucceeded
      {
        assert s'.attempts[ak] == if ak.task.run == r then CancelAttempt(s.attempts[ak]) else s.attempts[ak];
      }
    }
  }

  /** Which tasks a step may make succeeded: only one that was running, by its own attempt. */
  ghost predicate SuccessOnlyBy(s: State, s': State, done: set<TaskKey>) {
    forall k {:trigger k in s'.tasks} :: k in s'.tasks && s'.tasks[k].state == Succeeded && k !in done ==>
      k in s.tasks && s.tasks[k].state == Succeeded && s'.tasks[k].outputs == s.tasks[k].outputs
  }

  lemma MovedSuccess(s: State, s': State, k: TaskKey)
    requires Inv(s) && Moved(s, s', k)
    ensures SuccessOnlyBy(s, s', {k})
    ensures s.tasks[k].state != Running ==> s'.tasks[k].state != Succeeded
  {
    hide ParentsSucceeded, TokenFollows, LogFollows, AllSucceeded, ArtifactsFollow, TokensFresh, CancelSound,
      RunsSound, DependenciesSound, LiveIsCurrent, AttemptsSound, TasksLinked, RunOutputsMapped;
    assert s.tasks[k].state == Succeeded ==> Terminal(s.attempts[Current(s, k)].state);
  }

  lemma CancelsSucceed(s: State, s': State, r: nat)
    requires CancelsRun(s, s', r)
    ensures SuccessOnlyBy(s, s', {})
  {
    forall k | k in s'.tasks && s'.tasks[k].state == Succeeded
      ensures k in s.tasks && s.tasks[k].state == Succeeded && s'.tasks[k].outputs == s.tasks[k].outputs
    {
      assert s'.tasks[k] == if k.run == r then CancelTask(s.tasks[k]) else s.tasks[k];
    }
  }

  lemma MovesSucceed(s: State, s': State) returns (done: set<TaskKey>)
    requires Inv(s) && Moves(s, s')
    ensures SuccessOnlyBy(s, s', done)
    ensures forall j :: j in done ==> Moved(s, s', j)
  {
    hide Moved, Accepted, Inv;
    done := {};
    if k :| Moved(s, s', k) {
      MovedSuccess(s, s', k);
      done := {k};
    } else if r :| CancelsRun(s, s', r) {
      CancelsSucceed(s, s', r);
    }
  }

  lemma MovedResultTyped(s: State, s': State, k: TaskKey)
    requires Inv(s) && OutputsOwned(s) && Moved(s, s', k) && s'.tasks[k].state == Succeeded
    ensures k.run in s'.runs && k.node in s'.runs[k.run].plan.ops && Resolves(s'.artifacts, s'.tasks[k].outputs)
    ensures OutputsMatch(Resolve(s'.artifacts, s'.tasks[k].outputs), s'.runs[k.run].plan.ops[k.node].outputs)
  {
    hide ParentsSucceeded, TokenFollows, LogFollows, AllSucceeded, OutputsMatch, OutputRows, OutputIds;
    var ck := Current(s', k);
    var outputs: Values :|
      && s'.artifacts == s.artifacts + OutputRows(ck, outputs)
      && s'.tasks[k].outputs == OutputIds(ck, outputs)
      && OutputsMatch(outputs, s.runs[k.run].plan.ops[k.node].outputs);
    ResolveNew(s.artifacts, ck, outputs);
  }

  lemma MovesKeepResults(s: State, s': State)
    requires Inv(s) && OutputsOwned(s) && ResultsTyped(s) && Moves(s, s')
    ensures ResultsTyped(s')
  {
    hide Moves, Moved, Inv, OutputsMatch, Resolves;
    MovesKeepArtifacts(s, s');
    MovesFixRuns(s, s');
    var done := MovesSucceed(s, s');
    forall k | k in s'.tasks && s'.tasks[k].state == Succeeded
      ensures k.run in s'.runs && k.node in s'.runs[k.run].plan.ops && Resolves(s'.artifacts, s'.tasks[k].outputs)
      ensures OutputsMatch(Resolve(s'.artifacts, s'.tasks[k].outputs), s'.runs[k.run].plan.ops[k.node].outputs)
    {
      if k in done {
        MovedResultTyped(s, s', k);
      } else {
        assert k in s.tasks;
        ResolveStable(s.artifacts, s'.artifacts, s.tasks[k].outputs);
      }
    }
  }

  /** A run's inputs resolve to what they resolved to before. */
  lemma GivenStable(s: State, s': State, r: nat)
    requires RunsFixed(s, s') && ArtifactsKept(s, s') && r in s.runs && Resolves(s.artifacts, s.runs[r].inputs)
    ensures Resolves(s'.artifacts, s'.runs[r].inputs) && Given(s', r) == Given(s, r)
  {
    ResolveStable(s.artifacts, s'.artifacts, s.runs[r].inputs);
  }

  lemma MovesKeepInputs(s: State, s': State)
    requires InputsTyped(s) && OutputsOwned(s) && Moves(s, s')
    ensures InputsTyped(s')
  {
    hide Moved, Accepted, GivenTyped;
    MovesKeepArtifacts(s, s');
    MovesFixRuns(s, s');
    forall r | r in s'.runs
      ensures Resolves(s'.artifacts, s'.runs[r].inputs) && GivenTyped(s'.runs[r].plan.wf, Given(s', r))
    {
      if r in s.runs {
        GivenStable(s, s', r);
      } else {
        MovesAddTyped(s, s', r);
      }
    }
  }

  lemma MovesAddTyped(s: State, s': State, r: nat)
    requires Moves(s, s') && r in s'.runs && r !in s.runs
    ensures Resolves(s'.artifacts, s'.runs[r].inputs) && GivenTyped(s'.runs[r].plan.wf, Given(s', r))
  {
    hide Accepted, GivenTyped, CellSound, LogFollows, ArtifactsFollow;
  }

  lemma MovesKeepArtifactsSound(s: State, s': State)
    requires Inv(s) && ArtifactsSound(s) && Moves(s, s')
    ensures ArtifactsSound(s')
  {
    hide Moves, Inv, OutputsOwned, ResultsTyped, InputsTyped;
    MovesKeepArtifacts(s, s');
    MovesKeepResults(s, s');
    MovesKeepInputs(s, s');
  }
}
