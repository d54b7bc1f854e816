/** What users do to runs: submit, cancel, retry. */
module RunControl {
  import opened Names
  import opened Workflows
  import opened Store
  import opened Invariant
  import Graph

  /** Events are only added, and none starts or ends an attempt. */
  ghost predicate LogsNeutral(s: State, s': State) {
    exists more: seq<Event> :: s'.events == s.events + more
      && forall i :: 0 <= i < |more| ==> !IsEnd(more[i].kind) && more[i].kind != TaskLeased
  }

  // ---------- rows the invariant does not read ----------

  /** Plans, artifacts and events are not part of the master invariant. */
  lemma SameRowsKeep(s: State, s': State)
    requires Inv(s) && s'.tasks == s.tasks && s'.attempts == s.attempts && s'.runs == s.runs
      && s'.nextToken == s.nextToken
    ensures Inv(s')
  {
    assert TasksLinked(s') && AttemptsNumbered(s');
    assert LiveIsCurrent(s') && TasksAgree(s') && AttemptsSound(s') && TokensFresh(s')
      && CancelSound(s') && RunsSound(s');
    forall k | k in s.tasks && k.run in s.runs && ParentsSucceeded(s, k) ensures ParentsSucceeded(s', k) { }
    assert DependenciesSound(s');
  }

  // ---------- submit ----------

  lemma AcceptedHasNode(plan: Plan)
    requires Accepted(plan)
    ensures exists n :: n in plan.ops
  {
    assert plan.wf.nodes[0].id in NodeIds(plan.wf);
  }

  /** Adding a queued run whose tasks are all pending and untried. */
  ghost predicate AddsRun(s: State, s': State, run: nat, plan: Plan) {
    && run !in s.runs
    && s'.attempts == s.attempts && s'.nextToken == s.nextToken && s'.plans == s.plans
      && s'.artifacts == s.artifacts && s'.events == s.events
    && s'.runs.Keys == s.runs.Keys + {run}
    && (forall r {:trigger s.runs[r]} :: r in s.runs ==> s'.runs[r] == s.runs[r])
    && s'.runs[run].plan == plan && s'.runs[run].state == Queued
    && Resolves(s.artifacts, s'.runs[run].inputs) && GivenTyped(plan.wf, Resolve(s.artifacts, s'.runs[run].inputs))
    && (forall k {:trigger k in s.tasks} :: k in s.tasks ==> k in s'.tasks && s'.tasks[k] == s.tasks[k] && k.run != run)
    && (forall k {:trigger k in s'.tasks} :: k in s'.tasks && k !in s.tasks ==>
      k.run == run && k.node in plan.ops && s'.tasks[k].state == Pending && s'.tasks[k].attempt == 0
        && s'.tasks[k].hold.None? && s'.tasks[k].outputs == map[])
    && (forall n {:trigger TaskKey(run, n)} :: n in plan.ops ==> TaskKey(run, n) in s'.tasks)
    && (exists n :: n in plan.ops)
  }

  /** The inputs `submit_run` accepts resolve and have the declared types. */
  lemma SubmitTypesInputs(s: State, plan: Plan, inputs: Outputs, target: Name)
    requires Submittable(s, plan, inputs, target)
    ensures Resolves(s.artifacts, inputs) && GivenTyped(plan.wf, Resolve(s.artifacts, inputs))
  {
    forall name | name in inputs ensures inputs[name] in s.artifacts {
      var i :| 0 <= i < |plan.wf.inputs| && plan.wf.inputs[i].name == name;
    }
  }

  lemma SubmitAdds(s: State, run: nat, id: nat, inputs: Outputs, target: Name, class_: Name, createdAt: int)
    requires TasksLinked(s) && run !in s.runs && id in s.plans && Accepted(s.plans[id])
      && Submittable(s, s.plans[id], inputs, target)
    ensures AddsRun(s, Submit(s, run, id, inputs, target, class_, createdAt), run, s.plans[id])
  {
    hide IsDocument, ContractHolds, PortsHold, Submittable, NewTasks;
    var plan := s.plans[id];
    AcceptedHasNode(plan);
    SubmitTypesInputs(s, plan, inputs, target);
  }

  lemma AddedRows(s: State, s': State, run: nat, plan: Plan)
    requires RowsLinked(s) && AddsRun(s, s', run, plan)
    ensures RowsLinked(s')
  {
    forall k | k in s'.tasks ensures k.run in s'.runs && k.node in s'.runs[k.run].plan.ops {
      if k in s.tasks { assert s'.runs[k.run] == s.runs[k.run]; }
    }
    forall r, n | r in s'.runs && n in s'.runs[r].plan.ops ensures TaskKey(r, n) in s'.tasks {
      if r != run { assert TaskKey(r, n) in s.tasks; }
    }
    forall ak | ak in s'.attempts ensures ak.task in s'.tasks && 1 <= ak.number <= s'.tasks[ak.task].attempt {
      assert ak.task in s.tasks;
    }
  }

  lemma AddedTasks(s: State, s': State, run: nat, plan: Plan)
    requires Inv(s) && AddsRun(s, s', run, plan) && RowsLinked(s')
    ensures LiveIsCurrent(s') && TasksAgree(s') && AttemptsSound(s') && TokensFresh(s')
  {
    forall k | k in s'.tasks
      ensures TaskShaped(s'.tasks[k])
        && (s'.tasks[k].attempt >= 1 ==> TaskAgrees(s'.tasks[k], s'.attempts[Current(s', k)]))
    {
      if k in s.tasks { assert Current(s, k) == Current(s', k); }
    }
    forall ak | ak in s'.attempts && Live(s'.attempts[ak].state)
      ensures ak == Current(s', ak.task) && (s'.tasks[ak.task].state == Running || s'.tasks[ak.task].state == Canceled)
    {
      assert ak in s.attempts && ak.task in s.tasks;
    }
  }

  lemma AddedSuccess(s: State, s': State, run: nat, plan: Plan, r: nat)
    requires RowsLinked(s) && AddsRun(s, s', run, plan)
    ensures r != run ==> (AllSucceeded(s'.tasks, r) <==> AllSucceeded(s.tasks, r))
    ensures !AllSucceeded(s'.tasks, run)
  {
    var n :| n in plan.ops;
    assert TaskKey(run, n) in s'.tasks && TaskKey(run, n) !in s.tasks;
    if r != run {
      assert forall k :: k in s'.tasks && k.run == r ==> k in s.tasks;
      if AllSucceeded(s.tasks, r) { var k :| k in s.tasks && k.run == r; assert k in s'.tasks; }
      if AllSucceeded(s'.tasks, r) {
        forall k | k in s.tasks && k.run == r ensures s.tasks[k].state == Succeeded { assert k in s'.tasks; }
      }
    }
  }

  lemma AddedRuns(s: State, s': State, run: nat, plan: Plan)
    requires RowsLinked(s) && RunsSound(s) && AddsRun(s, s', run, plan)
    ensures RunsSound(s')
  {
    hide AllSucceeded, RowsLinked;
    forall r | r in s'.runs ensures s'.runs[r].state == RunSucceeded <==> AllSucceeded(s'.tasks, r) {
      AddedSuccess(s, s', run, plan, r);
      if r != run {
        assert s'.runs[r] == s.runs[r];
      }
    }
    forall r | r in s'.runs && s'.runs[r].state == RunFailed
      ensures exists k :: k in s'.tasks && k.run == r && s'.tasks[k].state == Failed
    {
      assert s'.runs[r] == s.runs[r];
      var k :| k in s.tasks && k.run == r && s.tasks[k].state == Failed;
      assert k in s'.tasks;
    }
  }

  lemma AddedCancel(s: State, s': State, run: nat, plan: Plan)
    requires RowsLinked(s) && CancelSound(s) && AddsRun(s, s', run, plan)
    ensures CancelSound(s')
  {
    forall ak | ak in s'.attempts && s'.attempts[ak].state == CancelRequested
      ensures ak.task.run in s'.runs && s'.runs[ak.task.run].state == RunCanceled
    {
      assert ak in s.attempts && ak.task in s.tasks && s'.runs[ak.task.run] == s.runs[ak.task.run];
    }
    forall k | k in s'.tasks && k.run in s'.runs && s'.runs[k.run].state == RunCanceled
      ensures s'.tasks[k].state != Pending && s'.tasks[k].state != Running
    {
      if k in s.tasks { assert s'.runs[k.run] == s.runs[k.run]; }
    }
  }

  lemma AddedDependencies(s: State, s': State, run: nat, plan: Plan)
    requires RowsLinked(s) && DependenciesSound(s) && AddsRun(s, s', run, plan)
    ensures DependenciesSound(s')
  {
    forall k | k in s.tasks && k.run in s.runs && ParentsSucceeded(s, k) ensures ParentsSucceeded(s', k) {
      assert s'.runs[k.run] == s.runs[k.run];
    }
    forall ak | ak in s'.attempts && Live(s'.attempts[ak].state)
      ensures ak.task.run in s'.runs && ParentsSucceeded(s', ak.task)
    {
      assert ak in s.attempts && ak.task in s.tasks;
    }
    forall k | k in s'.tasks && (s'.tasks[k].state == Running || s'.tasks[k].state == Succeeded)
      ensures k.run in s'.runs && ParentsSucceeded(s', k)
    {
      assert k in s.tasks;
    }
  }

  lemma SubmitLifts(s: State, s': State, run: nat, plan: Plan)
    requires Inv(s) && AddsRun(s, s', run, plan)
    ensures Inv(s')
  {
    AddedRows(s, s', run, plan);
    AddedTasks(s, s', run, plan);
    AddedRuns(s, s', run, plan);
    AddedCancel(s, s', run, plan);
    AddedDependencies(s, s', run, plan);
  }

  // ---------- cancel ----------

  /** What `cancel_run` does to the rows, key by key. */
  ghost predicate CancelsRun(s: State, s': State, r: nat) {
    && r in s.runs && RunOpen(s.runs[r].state) && s'.nextToken == s.nextToken && s'.plans == s.plans
      && s'.artifacts == s.artifacts
    && LogsNeutral(s, s')
    && s'.tasks.Keys == s.tasks.Keys && s'.attempts.Keys == s.attempts.Keys && s'.runs.Keys == s.runs.Keys
    && (forall q {:trigger s'.runs[q]} :: q in s.runs ==>
      s'.runs[q] == if q == r then s.runs[q].(state := RunCanceled) else s.runs[q])
    && (forall k {:trigger s'.tasks[k]} :: k in s.tasks ==>
      s'.tasks[k] == if k.run == r then CancelTask(s.tasks[k]) else s.tasks[k])
    && (forall ak {:trigger s'.attempts[ak]} :: ak in s.attempts ==>
      s'.attempts[ak] == if ak.task.run == r then CancelAttempt(s.attempts[ak]) else s.attempts[ak])
  }

  lemma CancelKeepsCell(t: Task, a: Attempt)
    ensures AttemptSound(a) ==> AttemptSound(CancelAttempt(a))
    ensures TaskShaped(t) ==> TaskShaped(CancelTask(t))
    ensures TaskAgrees(t, a) ==> TaskAgrees(CancelTask(t), CancelAttempt(a))
    ensures Live(CancelAttempt(a).state) <==> Live(a.state)
  {
  }

  lemma CanceledRows(s: State, s': State, r: nat)
    requires RowsLinked(s) && CancelsRun(s, s', r)
    ensures RowsLinked(s')
  {
    forall q, n | q in s'.runs && n in s'.runs[q].plan.ops ensures TaskKey(q, n) in s'.tasks {
      assert n in s.runs[q].plan.ops;
    }
    forall ak | ak in s'.attempts ensures ak.task in s'.tasks && 1 <= ak.number <= s'.tasks[ak.task].attempt {
      assert ak in s.attempts && s'.tasks[ak.task].attempt == s.tasks[ak.task].attempt;
    }
  }

  lemma CanceledAttempts(s: State, s': State, r: nat)
    requires AttemptsNumbered(s) && AttemptsSound(s) && CancelsRun(s, s', r)
    ensures AttemptsSound(s')
  {
    forall ak | ak in s'.attempts ensures AttemptSound(s'.attempts[ak]) {
      assert ak in s.attempts;
      CancelKeepsCell(s.tasks[ak.task], s.attempts[ak]);
    }
  }

  lemma CanceledTokens(s: State, s': State, r: nat)
    requires TokensFresh(s) && CancelsRun(s, s', r)
    ensures TokensFresh(s')
  {
    forall ak | ak in s'.attempts && s'.attempts[ak].hold.Some? ensures s'.attempts[ak].hold == s.attempts[ak].hold { }
    forall k | k in s'.tasks && s'.tasks[k].hold.Some? ensures s'.tasks[k].hold == s.tasks[k].hold { }
  }

  lemma CanceledLive(s: State, s': State, r: nat)
    requires AttemptsNumbered(s) && LiveIsCurrent(s) && CancelsRun(s, s', r) && AttemptsNumbered(s')
    ensures LiveIsCurrent(s')
  {
    hide LogsNeutral;
    forall ak | ak in s'.attempts && Live(s'.attempts[ak].state)
      ensures ak == Current(s', ak.task) && (s'.tasks[ak.task].state == Running || s'.tasks[ak.task].state == Canceled)
    {
      assert ak in s.attempts;
      CancelKeepsCell(s.tasks[ak.task], s.attempts[ak]);
    }
  }

  lemma CanceledTasks(s: State, s': State, r: nat)
    requires AttemptsNumbered(s) && TasksAgree(s) && CancelsRun(s, s', r) && AttemptsNumbered(s')
    ensures TasksAgree(s')
  {
    forall k | k in s'.tasks
      ensures TaskShaped(s'.tasks[k])
        && (s'.tasks[k].attempt >= 1 ==> TaskAgrees(s'.tasks[k], s'.attempts[Current(s', k)]))
    {
      var ck := Current(s, k);
      assert k in s.tasks && ck == Current(s', k);
      if s.tasks[k].attempt >= 1 {
        CancelKeepsCell(s.tasks[k], s.attempts[ck]);
      }
    }
  }

  lemma CanceledCancel(s: State, s': State, r: nat)
    requires CancelSound(s) && CancelsRun(s, s', r)
    ensures CancelSound(s')
  {
    forall ak | ak in s'.attempts && s'.attempts[ak].state == CancelRequested
      ensures ak.task.run in s'.runs && s'.runs[ak.task.run].state == RunCanceled
    {
      assert ak in s.attempts;
    }
  }

  lemma CanceledSuccess(s: State, s': State, r: nat, q: nat)
    requires CancelsRun(s, s', r)
    ensures AllSucceeded(s'.tasks, q) <==> AllSucceeded(s.tasks, q)
  {
    CanceledStates(s, s', r);
    if AllSucceeded(s.tasks, q) { var k :| k in s.tasks && k.run == q; assert k in s'.tasks; }
    if AllSucceeded(s'.tasks, q) { var k :| k in s'.tasks && k.run == q; assert k in s.tasks; }
  }

  lemma CanceledRuns(s: State, s': State, r: nat)
    requires RunsSound(s) && CancelsRun(s, s', r)
    ensures RunsSound(s')
  {
    hide AllSucceeded;
    forall q | q in s'.runs ensures s'.runs[q].state == RunSucceeded <==> AllSucceeded(s'.tasks, q) {
      CanceledSuccess(s, s', r, q);
    }
    forall q | q in s'.runs && s'.runs[q].state == RunFailed
      ensures exists k :: k in s'.tasks && k.run == q && s'.tasks[k].state == Failed
    {
      var k :| k in s.tasks && k.run == q && s.tasks[k].state == Failed;
      assert k in s'.tasks;
    }
  }

  lemma CanceledStates(s: State, s': State, r: nat)
    requires CancelsRun(s, s', r)
    ensures forall q {:trigger s'.runs[q]} :: q in s.runs ==> s'.runs[q].plan == s.runs[q].plan
    ensures forall k {:trigger s'.tasks[k]} :: k in s.tasks ==>
      (s'.tasks[k].state == Succeeded <==> s.tasks[k].state == Succeeded)
        && (s'.tasks[k].state == Running ==> s.tasks[k].state == Running)
    ensures forall ak {:trigger s'.attempts[ak]} :: ak in s.attempts ==>
      (Live(s'.attempts[ak].state) <==> Live(s.attempts[ak].state))
  {
  }

  /** Dependencies survive a step under which plans stay, nothing leaves success, and nothing starts. */
  lemma DependenciesFrame(s: State, s': State)
    requires DependenciesSound(s) && s'.tasks.Keys == s.tasks.Keys
      && s'.attempts.Keys == s.attempts.Keys && s'.runs.Keys == s.runs.Keys
    requires forall q {:trigger s'.runs[q]} :: q in s.runs ==> s'.runs[q].plan == s.runs[q].plan
    requires forall k {:trigger s'.tasks[k]} :: k in s.tasks ==>
      (s'.tasks[k].state == Succeeded <==> s.tasks[k].state == Succeeded)
        && (s'.tasks[k].state == Running ==> s.tasks[k].state == Running)
    requires forall ak {:trigger s'.attempts[ak]} :: ak in s.attempts ==>
      (Live(s'.attempts[ak].state) <==> Live(s.attempts[ak].state))
    ensures DependenciesSound(s')
  {
    forall k | k in s'.tasks && (s'.tasks[k].state == Running || s'.tasks[k].state == Succeeded)
      ensures k.run in s'.runs && ParentsSucceeded(s', k)
    {
      assert k in s.tasks && ParentsSucceeded(s, k);
    }
    forall ak | ak in s'.attempts && Live(s'.attempts[ak].state)
      ensures ak.task.run in s'.runs && ParentsSucceeded(s', ak.task)
    {
      assert ak in s.attempts && ParentsSucceeded(s, ak.task);
    }
  }

  lemma CancelCancels(s: State, r: nat, order: seq<AttemptKey>)
    requires r in s.runs && RunOpen(s.runs[r].state)
    ensures CancelsRun(s, CancelRun(s, r, order), r)
  {
    assert CancelRun(s, r, order).events == s.events + CancelEvents(order);
  }

  lemma CancelsKeep(s: State, s': State, r: nat)
    requires Inv(s) && CancelsRun(s, s', r)
    ensures Inv(s')
  {
    CanceledRows(s, s', r);
    CanceledAttempts(s, s', r);
    CanceledTokens(s, s', r);
    CanceledLive(s, s', r);
    CanceledTasks(s, s', r);
    CanceledCancel(s, s', r);
    CanceledRuns(s, s', r);
    CanceledStates(s, s', r);
    DependenciesFrame(s, s');
  }

  // ---------- retry ----------

  /** No live attempt on the nodes that will be reset. */
  ghost predicate ResetIdle(s: State, r: nat, n: Name)
    requires r in s.runs
  {
    forall ak {:trigger ak in s.attempts} ::
      ak in s.attempts && ak.task.run == r && ak.task.node in Downstream(s.runs[r].plan.wf, n) ==>
      Terminal(s.attempts[ak].state)
  }

  /** No attempt of the run is waiting to be canceled. */
  ghost predicate NothingCanceling(s: State, r: nat) {
    forall ak {:trigger ak in s.attempts} :: ak in s.attempts && ak.task.run == r ==>
      s.attempts[ak].state != CancelRequested
  }

  ghost predicate RetryLawful(s: State, r: nat, n: Name) {
    r in s.runs && TaskKey(r, n) in s.tasks ==> ResetIdle(s, r, n) && NothingCanceling(s, r)
  }

  ghost predicate ClosedUnderEdges(wf: Workflow, S: set<Name>) {
    forall i :: 0 <= i < |wf.edges| && wf.edges[i].src.node in S ==> wf.edges[i].dst.node in S
  }

  /** The reset set starts at the node and is closed under edges. */
  lemma DownstreamCloses(wf: Workflow, n: Name)
    requires n in NodeIds(wf) && ContractHolds(wf)
    ensures n in Downstream(wf, n)
    ensures ClosedUnderEdges(wf, Downstream(wf, n))
  {
    var p := [n];
    assert Graph.IsWalk(p, NodeIds(wf), Links(wf)) && p[|p| - 1] == n;
    forall i | 0 <= i < |wf.edges| && wf.edges[i].src.node in Downstream(wf, n)
      ensures wf.edges[i].dst.node in Downstream(wf, n)
    {
      var m, m' := wf.edges[i].src.node, wf.edges[i].dst.node;
      assert EdgeLawful(wf.edges[i], NodeIds(wf));
      var q: seq<Name> :| |q| >= 1 && q[0] == n && q[|q| - 1] == m && Graph.IsWalk(q, NodeIds(wf), Links(wf));
      var q' := q + [m'];
      assert (m, m') in Links(wf);
      assert Graph.IsWalk(q', NodeIds(wf), Links(wf)) && q'[0] == n && q'[|q'| - 1] == m';
    }
  }

  /** Whatever contains the node and is closed under edges contains the reset set: it is the least such set. */
  lemma {:induction false} DownstreamIsLeast(wf: Workflow, n: Name, S: set<Name>)
    requires n in S && ClosedUnderEdges(wf, S)
    ensures Downstream(wf, n) <= S
  {
    forall m | m in Downstream(wf, n) ensures m in S {
      var p: seq<Name> :| |p| >= 1 && p[0] == n && p[|p| - 1] == m && Graph.IsWalk(p, NodeIds(wf), Links(wf));
      WalkStays(wf, p, S, |p| - 1);
    }
  }

  lemma {:induction false} WalkStays(wf: Workflow, p: seq<Name>, S: set<Name>, i: nat)
    requires i < |p| && p[0] in S && Graph.IsWalk(p, NodeIds(wf), Links(wf))
    requires ClosedUnderEdges(wf, S)
    ensures p[i] in S
  {
    if i > 0 {
      WalkStays(wf, p, S, i - 1);
      assert (p[i - 1], p[i - 1 + 1]) in Links(wf);
    }
  }

  /** What `retry_task` does to the rows, key by key, when the nodes in `D` are reset. */
  ghost predicate ResetsRun(s: State, s': State, r: nat, D: set<Name>) {
    && r in s.runs && s'.nextToken == s.nextToken && s'.attempts == s.attempts && s'.plans == s.plans
      && s'.artifacts == s.artifacts
    && LogsNeutral(s, s')
    && s'.tasks.Keys == s.tasks.Keys && s'.runs.Keys == s.runs.Keys
    && (forall q {:trigger s'.runs[q]} :: q in s.runs ==>
      s'.runs[q] == if q == r then s.runs[q].(state := Queued, outputs := map[]) else s.runs[q])
    && (forall k {:trigger s'.tasks[k]} :: k in s.tasks ==>
      s'.tasks[k] == if k.run == r && k.node in D then ResetTask(s.tasks[k]) else s.tasks[k])
  }

  lemma ResetLinked(s: State, s': State, r: nat, D: set<Name>)
    requires RowsLinked(s) && ResetsRun(s, s', r, D)
    ensures RowsLinked(s')
  {
    forall q, n | q in s'.runs && n in s'.runs[q].plan.ops ensures TaskKey(q, n) in s'.tasks {
      assert n in s.runs[q].plan.ops;
    }
    forall ak | ak in s'.attempts ensures ak.task in s'.tasks && 1 <= ak.number <= s'.tasks[ak.task].attempt {
      assert ak in s.attempts && s'.tasks[ak.task].attempt == s.tasks[ak.task].attempt;
    }
  }

  lemma ResetLive(s: State, s': State, r: nat, D: set<Name>)
    requires RowsLinked(s) && LiveIsCurrent(s) && ResetsRun(s, s', r, D) && RowsLinked(s')
    requires forall ak {:trigger ak in s.attempts} :: ak in s.attempts && ak.task.run == r && ak.task.node in D ==>
      Terminal(s.attempts[ak].state)
    ensures LiveIsCurrent(s')
  {
    forall ak | ak in s'.attempts && Live(s'.attempts[ak].state)
      ensures ak == Current(s', ak.task) && (s'.tasks[ak.task].state == Running || s'.tasks[ak.task].state == Canceled)
    {
      assert ak in s.attempts && ak.task in s.tasks;
    }
  }

  lemma ResetTasks(s: State, s': State, r: nat, D: set<Name>)
    requires RowsLinked(s) && TasksAgree(s) && ResetsRun(s, s', r, D) && RowsLinked(s')
    requires forall ak {:trigger ak in s.attempts} :: ak in s.attempts && ak.task.run == r && ak.task.node in D ==>
      Terminal(s.attempts[ak].state)
    ensures TasksAgree(s')
  {
    forall k | k in s'.tasks
      ensures TaskShaped(s'.tasks[k])
        && (s'.tasks[k].attempt >= 1 ==> TaskAgrees(s'.tasks[k], s'.attempts[Current(s', k)]))
    {
      assert k in s.tasks && Current(s', k) == Current(s, k);
      if s.tasks[k].attempt >= 1 { assert Current(s, k) in s.attempts; }
    }
  }

  lemma ResetTokens(s: State, s': State, r: nat, D: set<Name>)
    requires AttemptsSound(s) && TokensFresh(s) && ResetsRun(s, s', r, D)
    ensures AttemptsSound(s') && TokensFresh(s')
  {
    forall k | k in s'.tasks && s'.tasks[k].hold.Some? ensures s'.tasks[k].hold == s.tasks[k].hold { }
  }

  lemma ResetCancel(s: State, s': State, r: nat, D: set<Name>)
    requires CancelSound(s) && ResetsRun(s, s', r, D) && NothingCanceling(s, r)
    ensures CancelSound(s')
  {
    forall ak | ak in s'.attempts && s'.attempts[ak].state == CancelRequested
      ensures ak.task.run in s'.runs && s'.runs[ak.task.run].state == RunCanceled
    {
      assert ak in s.attempts;
    }
  }

  lemma ResetRuns(s: State, s': State, r: nat, D: set<Name>, n: Name)
    requires RunsSound(s) && ResetsRun(s, s', r, D) && n in D && TaskKey(r, n) in s.tasks
    ensures RunsSound(s')
  {
    OpenTask(s'.tasks, TaskKey(r, n));
    forall q | q in s'.runs ensures s'.runs[q].state == RunSucceeded <==> AllSucceeded(s'.tasks, q) {
      if q != r {
        assert forall k :: k in s.tasks && k.run == q ==> s'.tasks[k] == s.tasks[k];
        assert AllSucceeded(s'.tasks, q) <==> AllSucceeded(s.tasks, q) by {
          if AllSucceeded(s.tasks, q) { var k :| k in s.tasks && k.run == q; assert k in s'.tasks; }
          if AllSucceeded(s'.tasks, q) { var k :| k in s'.tasks && k.run == q; assert k in s.tasks; }
        }
      }
    }
    forall q | q in s'.runs && s'.runs[q].state == RunFailed
      ensures exists k :: k in s'.tasks && k.run == q && s'.tasks[k].state == Failed
    {
      var k :| k in s.tasks && k.run == q && s.tasks[k].state == Failed;
      assert k in s'.tasks;
    }
  }

  lemma ResetParents(s: State, s': State, r: nat, D: set<Name>, k: TaskKey)
    requires ResetsRun(s, s', r, D) && ClosedUnderEdges(s.runs[r].plan.wf, D)
    requires k.run in s.runs && ParentsSucceeded(s, k) && (k.run != r || k.node !in D)
    ensures ParentsSucceeded(s', k)
  {
    var wf := s.runs[k.run].plan.wf;
    assert s'.runs[k.run].plan == s.runs[k.run].plan;
    forall m | m in Parents(wf, k.node)
      ensures TaskKey(k.run, m) in s'.tasks && s'.tasks[TaskKey(k.run, m)].state == Succeeded
    {
      var i :| 0 <= i < |wf.edges| && wf.edges[i].dst.node == k.node && wf.edges[i].src.node == m;
      assert s'.tasks[TaskKey(k.run, m)] == s.tasks[TaskKey(k.run, m)];
    }
  }

  lemma ResetDependencies(s: State, s': State, r: nat, D: set<Name>)
    requires DependenciesSound(s) && ResetsRun(s, s', r, D)
    requires forall ak {:trigger ak in s.attempts} :: ak in s.attempts && ak.task.run == r && ak.task.node in D ==>
      Terminal(s.attempts[ak].state)
    requires ClosedUnderEdges(s.runs[r].plan.wf, D)
    ensures DependenciesSound(s')
  {
    forall ak | ak in s'.attempts && Live(s'.attempts[ak].state)
      ensures ak.task.run in s'.runs && ParentsSucceeded(s', ak.task)
    {
      assert ak in s.attempts;
      ResetParents(s, s', r, D, ak.task);
    }
    forall k | k in s'.tasks && (s'.tasks[k].state == Running || s'.tasks[k].state == Succeeded)
      ensures k.run in s'.runs && ParentsSucceeded(s', k)
    {
      assert k in s.tasks;
      ResetParents(s, s', r, D, k);
    }
  }

  lemma ResetLifts(s: State, s': State, r: nat, D: set<Name>, n: Name)
    requires Inv(s) && ResetsRun(s, s', r, D) && n in D && TaskKey(r, n) in s.tasks
    requires ClosedUnderEdges(s.runs[r].plan.wf, D) && NothingCanceling(s, r)
    requires forall ak {:trigger ak in s.attempts} :: ak in s.attempts && ak.task.run == r && ak.task.node in D ==>
      Terminal(s.attempts[ak].state)
    ensures Inv(s')
  {
    ResetLinked(s, s', r, D);
    ResetLive(s, s', r, D);
    ResetTasks(s, s', r, D);
    ResetTokens(s, s', r, D);
    ResetCancel(s, s', r, D);
    ResetRuns(s, s', r, D, n);
    ResetDependencies(s, s', r, D);
  }

  lemma RetryResets(s: State, r: nat, n: Name)
    requires r in s.runs && TaskKey(r, n) in s.tasks
    ensures ResetsRun(s, RetryTask(s, r, n), r, Downstream(s.runs[r].plan.wf, n))
  {
    assert RetryTask(s, r, n).events == s.events + RetryEvents(r, Sorted(Downstream(s.runs[r].plan.wf, n)));
  }

  lemma RetryKeeps(s: State, r: nat, n: Name)
    requires Inv(s) && RetryLawful(s, r, n)
    requires r in s.runs ==> Accepted(s.runs[r].plan)
    ensures Inv(RetryTask(s, r, n))
  {
    if r in s.runs && TaskKey(r, n) in s.tasks {
      assert TaskKey(r, n).node in s.runs[r].plan.ops;
      DownstreamCloses(s.runs[r].plan.wf, n);
      RetryResets(s, r, n);
      ResetLifts(s, RetryTask(s, r, n), r, Downstream(s.runs[r].plan.wf, n), n);
    }
  }

  /** If a live attempt is reset, or a canceling one is left in a queued run, the invariant is gone. */
  lemma RetryBreaks(s: State, s': State, r: nat, D: set<Name>)
    requires ResetsRun(s, s', r, D) && RowsLinked(s') && LiveIsCurrent(s') && CancelSound(s')
    ensures NothingCanceling(s, r)
    ensures forall ak {:trigger ak in s.attempts} :: ak in s.attempts && ak.task.run == r && ak.task.node in D ==>
      Terminal(s.attempts[ak].state)
  {
    forall ak | ak in s.attempts && ak.task.run == r && ak.task.node in D ensures Terminal(s.attempts[ak].state) {
      assert ak in s'.attempts && ak.task in s'.tasks && s'.tasks[ak.task].state == Pending;
    }
    forall ak | ak in s.attempts && ak.task.run == r ensures s.attempts[ak].state != CancelRequested {
      assert ak in s'.attempts && s'.runs[r].state == Queued;
    }
  }

  /** Retrying keeps the invariant exactly when nothing live is reset and nothing in the run is being canceled. */
  lemma RetryKeepsIff(s: State, r: nat, n: Name)
    requires Inv(s) && r in s.runs && TaskKey(r, n) in s.tasks && Accepted(s.runs[r].plan)
    ensures Inv(RetryTask(s, r, n)) <==> ResetIdle(s, r, n) && NothingCanceling(s, r)
  {
    if ResetIdle(s, r, n) && NothingCanceling(s, r) {
      RetryKeeps(s, r, n);
    }
    if Inv(RetryTask(s, r, n)) {
      RetryResets(s, r, n);
      RetryBreaks(s, RetryTask(s, r, n), r, Downstream(s.runs[r].plan.wf, n));
    }
  }

  /** A failed node has no live attempt downstream. */
  lemma FailedResetIdle(s: State, r: nat, n: Name)
    requires Inv(s) && r in s.runs && TaskKey(r, n) in s.tasks && s.tasks[TaskKey(r, n)].state == Failed
      && Accepted(s.runs[r].plan)
    ensures ResetIdle(s, r, n)
  {
    var wf := s.runs[r].plan.wf;
    assert TaskKey(r, n).node in s.runs[r].plan.ops;
    var S := set m | m in NodeIds(wf) && (m == n || !ParentsSucceeded(s, TaskKey(r, m)));
    UnreadyCloses(s, r, n, S);
    DownstreamIsLeast(wf, n, S);
    forall ak | ak in s.attempts && ak.task.run == r && ak.task.node in Downstream(wf, n)
      ensures Terminal(s.attempts[ak].state)
    {
      assert ak.task.node in S && ak.task == TaskKey(r, ak.task.node);
      UnreadyIdle(s, n, ak);
    }
  }

  lemma UnreadyIdle(s: State, n: Name, ak: AttemptKey)
    requires RowsLinked(s) && DependenciesSound(s) && LiveIsCurrent(s) && ak in s.attempts && ak.task.run in s.runs
    requires (ak.task.node == n && s.tasks[ak.task].state == Failed) || !ParentsSucceeded(s, ak.task)
    ensures Terminal(s.attempts[ak].state)
  {
  }

  /** A node that has not succeeded keeps every node after it unready. */
  lemma UnreadyCloses(s: State, r: nat, n: Name, S: set<Name>)
    requires RowsLinked(s) && DependenciesSound(s) && r in s.runs && Accepted(s.runs[r].plan)
    requires TaskKey(r, n) in s.tasks && s.tasks[TaskKey(r, n)].state != Succeeded
    requires S == set m | m in NodeIds(s.runs[r].plan.wf) && (m == n || !ParentsSucceeded(s, TaskKey(r, m)))
    ensures ClosedUnderEdges(s.runs[r].plan.wf, S)
  {
    var wf := s.runs[r].plan.wf;
    forall i | 0 <= i < |wf.edges| && wf.edges[i].src.node in S ensures wf.edges[i].dst.node in S {
      var m, m' := wf.edges[i].src.node, wf.edges[i].dst.node;
      assert EdgeLawful(wf.edges[i], NodeIds(wf)) && m in Parents(wf, m');
      assert TaskKey(r, m) in s.tasks;
    }
  }
}
