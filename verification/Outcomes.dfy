/** Recovery, progress, run outcomes and cancellation. */
module Outcomes {
  import opened Names
  import opened Workflows
  import opened Store
  import opened Invariant
  import opened Protocol
  import Graph

  // ---------- no running task is stranded ----------

  /** The live attempt of a running task is held under the task's own token, or is one `claim_task` recovers. */
  lemma RunningIsNotStranded(s: State, k: TaskKey)
    requires Inv(s) && k in s.tasks && s.tasks[k].state == Running
    ensures Current(s, k) in s.attempts
    ensures var a := s.attempts[Current(s, k)];
      if a.hold.Some?
        then s.tasks[k].hold == Some(TaskHold(a.hold.value.token, a.hold.value.expires))
        else Recoverable(a)
  {
    hide RowsLinked, LiveIsCurrent, AttemptsSound, TokensFresh, CancelSound, RunsSound, DependenciesSound;
    RunningView(s, k);
  }

  lemma RunningView(s: State, k: TaskKey)
    requires Inv(s) && k in s.tasks && s.tasks[k].state == Running
    ensures s.tasks[k].attempt >= 1 && CellFacts(s, k)
  {
    assert TaskShaped(s.tasks[k]);
    CellView(s, k);
  }

  /** Expiry keeps a handle or a submission intent, and otherwise abandons the attempt and makes the task pending. */
  lemma ExpiryKeepsOrAbandons(s: State, k: TaskKey, now: int)
    requires Inv(s) && k in s.tasks && k.run in s.runs && s.tasks[k].state == Running && Expired(s, k, now)
    ensures var s', ck := ExpireRow(s, k, now), Current(s, k);
      && ck in s.attempts && ck in s'.attempts
      && if s.attempts[ck].handle.Some? || s.attempts[ck].state == Submitting
         then s'.attempts[ck] == s.attempts[ck].(hold := None) && s'.tasks[k] == s.tasks[k].(hold := None)
           && Recoverable(s'.attempts[ck])
         else s'.attempts[ck].state == Abandoned && s'.tasks[k].state == Pending
  {
    RunningView(s, k);
    hide Inv;
  }

  /** Once its lease has lapsed, expiry makes a running task recoverable or, in an open run, claimable afresh. */
  lemma LapsedRunningReturns(s: State, k: TaskKey, now: int)
    requires Inv(s) && k in s.tasks && k.run in s.runs && s.tasks[k].state == Running && RunOpen(s.runs[k.run].state)
    requires s.tasks[k].hold.Some? ==> s.tasks[k].hold.value.expires < now
    ensures var s' := ExpireRow(s, k, now);
      (Current(s, k) in s'.attempts && Recoverable(s'.attempts[Current(s, k)])) || Claimable(s', k)
  {
    if Expired(s, k, now) {
      ExpiryKeepsOrAbandons(s, k, now);
      RunningView(s, k);
      hide Inv, CellFacts, Recoverable;
      assert ParentsSucceeded(s, k) by { RunningParents(s, k); }
      ExpiryKeepsParents(s, k, now);
    } else {
      RunningIsNotStranded(s, k);
    }
  }

  lemma RunningParents(s: State, k: TaskKey)
    requires CellFacts(s, k) && s.tasks[k].state == Running
    ensures ParentsSucceeded(s, k)
  {
  }

  lemma ExpiryKeepsParents(s: State, k: TaskKey, now: int)
    requires k in s.tasks && k.run in s.runs && s.tasks[k].state == Running && ParentsSucceeded(s, k)
    ensures var s' := ExpireRow(s, k, now); s'.runs == s.runs && k in s'.tasks && ParentsSucceeded(s', k)
  {
    var s' := ExpireRow(s, k, now);
    forall m | m in Parents(s.runs[k.run].plan.wf, k.node)
      ensures TaskKey(k.run, m) in s'.tasks && s'.tasks[TaskKey(k.run, m)].state == Succeeded
    {
      assert s.tasks[TaskKey(k.run, m)].state == Succeeded;
    }
  }

  // ---------- progress ----------

  /** An open run with no failed or canceled task and some task unfinished has a running or a claimable task. */
  lemma OpenRunProgresses(s: State, r: nat)
    requires TasksLinked(s) && r in s.runs && Accepted(s.runs[r].plan) && RunOpen(s.runs[r].state)
    requires forall k :: k in s.tasks && k.run == r ==> s.tasks[k].state != Failed && s.tasks[k].state != Canceled
    requires exists k :: k in s.tasks && k.run == r && s.tasks[k].state != Succeeded
    ensures exists k :: k in s.tasks && k.run == r && (s.tasks[k].state == Running || Claimable(s, k))
  {
    var plan := s.runs[r].plan;
    var unfinished := set n | n in plan.ops && s.tasks[TaskKey(r, n)].state != Succeeded;
    var k0 :| k0 in s.tasks && k0.run == r && s.tasks[k0].state != Succeeded;
    assert k0 == TaskKey(r, k0.node) && k0.node in unfinished;
    assert unfinished <= NodeIds(plan.wf);
    var n :| Graph.IsSource(n, unfinished, Links(plan.wf));
    var k := TaskKey(r, n);
    forall m | m in Parents(plan.wf, n) ensures TaskKey(r, m) in s.tasks && s.tasks[TaskKey(r, m)].state == Succeeded {
      ParentLinked(plan.wf, n, m);
      assert m in plan.ops && m !in unfinished;
    }
    assert k in s.tasks && (s.tasks[k].state == Running || Claimable(s, k));
  }

  lemma ParentLinked(wf: Workflow, n: Name, m: Name)
    requires ContractHolds(wf) && m in Parents(wf, n)
    ensures (m, n) in Links(wf) && m in NodeIds(wf)
  {
    var i :| 0 <= i < |wf.edges| && wf.edges[i].dst.node == n && wf.edges[i].src.node == m;
    assert EdgeLawful(wf.edges[i], NodeIds(wf));
  }

  // ---------- the outcome of a run ----------

  /** The outputs of a succeeded run are the task outputs its workflow maps them to. */
  ghost predicate OutcomesMapped(s: State) {
    forall r {:trigger r in s.runs} :: r in s.runs && s.runs[r].state == RunSucceeded ==>
      RunOutputsMapped(s.runs[r], s.tasks, r)
  }

  lemma {:induction false} RunOutputsFrame(outs: seq<WorkflowOutput>, tasks: map<TaskKey, Task>,
      tasks': map<TaskKey, Task>, r: nat)
    requires forall k: TaskKey :: k.run == r ==>
      (k in tasks <==> k in tasks') && (k in tasks ==> tasks'[k].outputs == tasks[k].outputs)
    ensures RunOutputs(outs, tasks', r) == RunOutputs(outs, tasks, r)
    ensures RunOutputsRaise(outs, tasks', r) <==> RunOutputsRaise(outs, tasks, r)
  {
    if outs != [] {
      RunOutputsFrame(outs[..|outs| - 1], tasks, tasks', r);
    }
  }

  lemma MovedTaskUnfinished(s: State, s': State, k: TaskKey)
    requires AttemptsNumbered(s) && TasksAgree(s) && Moved(s, s', k)
    ensures s.tasks[k].state != Succeeded
  {
    hide ParentsSucceeded, TokenFollows, LogFollows, ArtifactsFollow, RunOutputs, RunOutputsRaise;
    if s.tasks[k].state == Succeeded {
      assert false;
    }
  }

  /** The tasks of a succeeded run are out of reach of every step about one task. */
  lemma SucceededRunUntouched(s: State, s': State, k: TaskKey)
    requires Inv(s) && Moved(s, s', k)
    ensures s.runs[k.run].state != RunSucceeded
  {
    MovedTaskUnfinished(s, s', k);
    OpenTask(s.tasks, k);
  }

  lemma MovedKeepsOutcomes(s: State, s': State, k: TaskKey)
    requires Inv(s) && OutcomesMapped(s) && Moved(s, s', k)
    ensures OutcomesMapped(s')
  {
    hide Inv, ParentsSucceeded, TokenFollows, LogFollows, ArtifactsFollow, RunOutputs, RunOutputsRaise,
      TaskAgrees, AttemptSound, AllSucceeded;
    SucceededRunUntouched(s, s', k);
    forall r | r in s'.runs && s'.runs[r].state == RunSucceeded ensures RunOutputsMapped(s'.runs[r], s'.tasks, r) {
      if r != k.run {
        RunOutputsFrame(s.runs[r].plan.wf.outputs, s.tasks, s'.tasks, r);
      }
    }
  }

  lemma MovesKeepOutcomes(s: State, s': State)
    requires Inv(s) && OutcomesMapped(s) && Moves(s, s')
    ensures OutcomesMapped(s')
  {
    hide Inv, Moved, Accepted, RunOutputs, RunOutputsRaise;
    if k :| Moved(s, s', k) {
      MovedKeepsOutcomes(s, s', k);
    } else {
      forall r | r in s'.runs && s'.runs[r].state == RunSucceeded ensures RunOutputsMapped(s'.runs[r], s'.tasks, r) {
        assert r in s.runs && s'.runs[r] == s.runs[r];
        RunOutputsFrame(s.runs[r].plan.wf.outputs, s.tasks, s'.tasks, r) by { OutputsElsewhereKept(s, s', r); }
      }
    }
  }

  lemma OutputsElsewhereKept(s: State, s': State, r: nat)
    requires Inv(s) && Moves(s, s') && (forall k :: !Moved(s, s', k)) && r in s.runs && r in s'.runs
      && s'.runs[r].state == RunSucceeded
    ensures forall k: TaskKey :: k.run == r ==>
      (k in s.tasks <==> k in s'.tasks) && (k in s.tasks ==> s'.tasks[k].outputs == s.tasks[k].outputs)
  {
    hide Inv, Moved, Accepted;
  }

  /** Each named output of a succeeded run is the artifact its task recorded. */
  lemma {:induction false} RunOutputsAreTaskOutputs(outs: seq<WorkflowOutput>, tasks: map<TaskKey, Task>,
      r: nat, i: nat)
    requires i < |outs| && (forall a, b :: 0 <= a < b < |outs| ==> outs[a].name != outs[b].name)
    requires !RunOutputsRaise(outs, tasks, r)
    ensures TaskKey(r, outs[i].node) in tasks && outs[i].port in tasks[TaskKey(r, outs[i].node)].outputs
    ensures outs[i].name in RunOutputs(outs, tasks, r)
      && RunOutputs(outs, tasks, r)[outs[i].name] == tasks[TaskKey(r, outs[i].node)].outputs[outs[i].port]
  {
    var rest := outs[..|outs| - 1];
    if i < |rest| {
      RunOutputsAreTaskOutputs(rest, tasks, r, i);
    }
  }
}
