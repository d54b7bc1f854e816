/** Every transaction of the engine as one step, and what holds over all runs of steps. */
module Protocol {
  import opened Names
  import opened Workflows
  import opened Store
  import opened Invariant
  import opened Frame
  import opened RunControl

  /** The engine's transactions. A claim is its expiry rows, one step each, and then its lease. */
  datatype Action =
    | DoRegister(id: nat, plan: Plan)
    | DoAddInput(input: nat, value: Value)
    | DoSubmit(run: nat, id: nat, inputs: Outputs, target: Name, class_: Name, createdAt: int)
    | DoExpire(key: TaskKey, now: int)
    | DoClaimFresh(key: TaskKey, worker: Name, now: int, expires: int)
    | DoClaimRecovered(attempt: AttemptKey, worker: Name, expires: int)
    | DoUnderLease(lease: Lease, op: LeaseOp)
    | DoComplete(lease: Lease, outputs: Values)
    | DoFail(lease: Lease)
    | DoCancelRun(run: nat, order: seq<AttemptKey>)
    | DoRetryTask(run: nat, node: Name)

  /** Stored plans were accepted, and a run's plan is one. */
  ghost predicate PlansSound(s: State) {
    && (forall id {:trigger id in s.plans} :: id in s.plans ==> Accepted(s.plans[id]))
    && (forall r {:trigger r in s.runs} :: r in s.runs ==> Accepted(s.runs[r].plan))
  }

  /** `order` lists each attempt that `cancel_run` marks, once. */
  ghost predicate ListsCancellable(s: State, r: nat, order: seq<AttemptKey>) {
    && (forall i, j :: 0 <= i < j < |order| ==> order[i] != order[j])
    && (forall ak :: ak in order <==> ak in s.attempts && ak.task.run == r && Cancellable(s.attempts[ak]))
  }

  /** The steps a store can take: any caller, any lease value however stale, within the discipline the callers keep. */
  ghost predicate Lawful(s: State, a: Action) {
    match a
    case DoRegister(id, plan) => Accepted(plan)
    case DoAddInput(input, value) => true
    case DoSubmit(run, id, inputs, target, class_, createdAt) =>
      run !in s.runs && id in s.plans && Accepted(s.plans[id])
    case DoExpire(key, now) => key in s.tasks ==> key.run in s.runs
    case DoClaimFresh(key, worker, now, expires) => Claimable(s, key)
    case DoClaimRecovered(ak, worker, expires) => ak in s.attempts && ak.task in s.tasks && Recoverable(s.attempts[ak])
    case DoUnderLease(lease, op) => OpLawful(s, lease, op)
    case DoComplete(lease, outputs) => true
    case DoFail(lease) => true
    case DoCancelRun(run, order) => ListsCancellable(s, run, order)
    case DoRetryTask(run, node) => RetryLawful(s, run, node)
  }

  ghost function Step(s: State, a: Action): State
    requires Lawful(s, a)
  {
    match a
    case DoRegister(id, plan) => Register(s, id, plan)
    case DoAddInput(input, value) => AddInput(s, input, value)
    case DoSubmit(run, id, inputs, target, class_, createdAt) => Submit(s, run, id, inputs, target, class_, createdAt)
    case DoExpire(key, now) => ExpireRow(s, key, now)
    case DoClaimFresh(key, worker, now, expires) => ClaimFresh(s, key, worker, now, expires)
    case DoClaimRecovered(ak, worker, expires) => ClaimRecovered(s, ak, worker, expires)
    case DoUnderLease(lease, op) => UnderLease(s, lease, op)
    case DoComplete(lease, outputs) => Complete(s, lease, outputs)
    case DoFail(lease) => Fail(s, lease)
    case DoCancelRun(run, order) => CancelRun(s, run, order)
    case DoRetryTask(run, node) => RetryTask(s, run, node)
  }

  // ---------- the five shapes of a step ----------

  /** Only plans, input artifacts and neutral events may be added. */
  ghost predicate Untouched(s: State, s': State) {
    && s'.tasks == s.tasks && s'.attempts == s.attempts && s'.runs == s.runs && s'.nextToken == s.nextToken
    && LogsNeutral(s, s')
    && (forall id {:trigger id in s'.artifacts} :: id in s'.artifacts && id !in s.artifacts ==> id.InputArtifact?)
    && (forall id {:trigger id in s.artifacts} :: id in s.artifacts ==>
      id in s'.artifacts && s'.artifacts[id] == s.artifacts[id])
    && (forall id {:trigger id in s'.plans} :: id in s'.plans ==> Accepted(s'.plans[id]))
  }

  ghost predicate SafeReset(s: State, s': State, r: nat, n: Name, D: set<Name>) {
    && ResetsRun(s, s', r, D) && n in D && TaskKey(r, n) in s.tasks
    && ClosedUnderEdges(s.runs[r].plan.wf, D) && NothingCanceling(s, r)
    && forall ak {:trigger ak in s.attempts} :: ak in s.attempts && ak.task.run == r && ak.task.node in D ==>
      Terminal(s.attempts[ak].state)
  }

  /** Every step but a retry. */
  ghost predicate Forward(s: State, s': State) {
    || Untouched(s, s')
    || (exists k :: Moved(s, s', k))
    || (exists run, plan :: AddsRun(s, s', run, plan) && Accepted(plan))
    || (exists r :: CancelsRun(s, s', r))
  }

  ghost predicate Moves(s: State, s': State) {
    Forward(s, s') || (exists r, n, D :: SafeReset(s, s', r, n, D))
  }

  lemma SelfUntouched(s: State)
    requires PlansSound(s)
    ensures Untouched(s, s)
  {
    assert s.events == s.events + [];
  }

  lemma UnderLeaseShape(s: State, lease: Lease, op: LeaseOp)
    requires Inv(s) && PlansSound(s) && OpLawful(s, lease, op)
    ensures Forward(s, UnderLease(s, lease, op))
  {
    if Holds(s, lease) {
      HeldIsCurrent(s, lease);
      CellView(s, lease.attempt.task);
      UnderLeaseMoves(s, lease, op);
    } else {
      SelfUntouched(s);
    }
  }

  lemma CompleteShape(s: State, lease: Lease, outputs: Values)
    requires Inv(s) && PlansSound(s)
    ensures Forward(s, Complete(s, lease, outputs))
  {
    if Completes(s, lease, outputs) {
      CloserIsCurrent(s, lease);
      CompleteMoves(s, lease, outputs);
    } else {
      SelfUntouched(s);
    }
  }

  lemma FailShape(s: State, lease: Lease)
    requires Inv(s) && PlansSound(s)
    ensures Forward(s, Fail(s, lease))
  {
    if Closes(s, lease) {
      CloserIsCurrent(s, lease);
      FailMoves(s, lease);
    } else {
      SelfUntouched(s);
    }
  }

  lemma ExpiredWasTried(s: State, k: TaskKey, now: int)
    requires AttemptsNumbered(s) && TasksAgree(s) && Expired(s, k, now)
    ensures s.tasks[k].attempt >= 1
  {
    assert k in s.tasks && TaskShaped(s.tasks[k]);
    assert Current(s, k) in s.attempts ==> 1 <= Current(s, k).number;
  }

  lemma ExpireShape(s: State, k: TaskKey, now: int)
    requires Inv(s) && PlansSound(s)
    ensures Forward(s, ExpireRow(s, k, now))
  {
    if Expired(s, k, now) {
      ExpiredWasTried(s, k, now);
      CellView(s, k);
      ExpireMoves(s, k, now);
    } else {
      SelfUntouched(s);
    }
  }

  lemma ClaimShape(s: State, a: Action)
    requires Inv(s) && PlansSound(s) && Lawful(s, a) && (a.DoClaimFresh? || a.DoClaimRecovered?)
    ensures Forward(s, Step(s, a))
  {
    if a.DoClaimFresh? {
      assert a.key in s.tasks && TaskShaped(s.tasks[a.key]);
      assert AttemptKey(a.key, s.tasks[a.key].attempt + 1) !in s.attempts;
      ClaimFreshMoves(s, a.key, a.worker, a.now, a.expires);
      assert Moved(s, Step(s, a), a.key);
    } else {
      RecoverableIsCurrent(s, a.attempt);
      ClaimRecoveredMoves(s, a.attempt, a.worker, a.expires);
      assert Moved(s, Step(s, a), a.attempt.task);
    }
  }

  lemma RegisterShape(s: State, id: nat, plan: Plan)
    requires PlansSound(s) && Accepted(plan)
    ensures Untouched(s, Register(s, id, plan))
  {
    hide Accepted;
    assert s.events == s.events + [];
  }

  lemma AddInputShape(s: State, id: nat, value: Value)
    requires PlansSound(s)
    ensures Untouched(s, AddInput(s, id, value))
  {
    hide Accepted;
    assert s.events == s.events + [];
  }

  lemma RunShape(s: State, a: Action)
    requires Inv(s) && PlansSound(s) && Lawful(s, a) && (a.DoSubmit? || a.DoCancelRun?)
    ensures Forward(s, Step(s, a))
  {
    if a.DoSubmit? && Submittable(s, s.plans[a.id], a.inputs, a.target) {
      SubmitAdds(s, a.run, a.id, a.inputs, a.target, a.class_, a.createdAt);
    } else if a.DoCancelRun? && a.run in s.runs && RunOpen(s.runs[a.run].state) {
      CancelCancels(s, a.run, a.order);
    } else {
      SelfUntouched(s);
    }
  }

  lemma RetryShape(s: State, r: nat, n: Name)
    requires Inv(s) && PlansSound(s) && RetryLawful(s, r, n)
    ensures Untouched(s, RetryTask(s, r, n)) || exists D :: SafeReset(s, RetryTask(s, r, n), r, n, D)
  {
    if r in s.runs && TaskKey(r, n) in s.tasks {
      assert TaskKey(r, n).node in s.runs[r].plan.ops && Accepted(s.runs[r].plan);
      DownstreamCloses(s.runs[r].plan.wf, n);
      RetryResets(s, r, n);
      assert SafeReset(s, RetryTask(s, r, n), r, n, Downstream(s.runs[r].plan.wf, n));
    } else {
      SelfUntouched(s);
    }
  }

  lemma StepMoves(s: State, a: Action)
    requires Inv(s) && PlansSound(s) && Lawful(s, a)
    ensures Moves(s, Step(s, a))
    ensures !a.DoRetryTask? ==> Forward(s, Step(s, a))
    ensures a.DoRetryTask? ==> Untouched(s, Step(s, a)) || exists n, D :: SafeReset(s, Step(s, a), a.run, n, D)
  {
    hide Inv, PlansSound, OpLawful, RetryLawful, Accepted, Moved, AddsRun, CancelsRun, SafeReset, UnderLease,
      Complete, Fail, ExpireRow, ClaimFresh, ClaimRecovered, Submit, CancelRun, RetryTask;
    match a
    case DoUnderLease(lease, op) => UnderLeaseShape(s, lease, op);
    case DoComplete(lease, outputs) => CompleteShape(s, lease, outputs);
    case DoFail(lease) => FailShape(s, lease);
    case DoExpire(key, now) => ExpireShape(s, key, now);
    case DoRetryTask(run, node) => RetryShape(s, run, node);
    case DoClaimFresh(_, _, _, _) => ClaimShape(s, a);
    case DoClaimRecovered(_, _, _) => ClaimShape(s, a);
    case DoSubmit(_, _, _, _, _, _) => RunShape(s, a);
    case DoCancelRun(_, _) => RunShape(s, a);
    case DoRegister(id, plan) => RegisterShape(s, id, plan);
    case DoAddInput(input, value) => AddInputShape(s, input, value);
  }

  // ---------- the invariant is kept ----------

  lemma MovesKeepInv(s: State, s': State)
    requires Inv(s) && Moves(s, s')
    ensures Inv(s')
  {
    hide Inv, Moved, AddsRun, CancelsRun, ResetsRun, Accepted, ClosedUnderEdges, NothingCanceling;
    if Untouched(s, s') {
      SameRowsKeep(s, s');
    } else if k :| Moved(s, s', k) {
      MovedKeeps(s, s', k);
    } else if run, plan :| AddsRun(s, s', run, plan) && Accepted(plan) {
      SubmitLifts(s, s', run, plan);
    } else if r :| CancelsRun(s, s', r) {
      CancelsKeep(s, s', r);
    } else {
      var r, n, D :| SafeReset(s, s', r, n, D);
      ResetLifts(s, s', r, D, n);
    }
  }

  lemma MovesKeepPlans(s: State, s': State)
    requires PlansSound(s) && Moves(s, s')
    ensures PlansSound(s')
  {
    hide Accepted, CellSound, LogFollows, ArtifactsFollow;
    if k :| Moved(s, s', k) {
      assert s'.plans == s.plans && s'.runs[k.run].plan == s.runs[k.run].plan by { MovedPlan(s, s', k); }
    }
  }

  lemma MovedPlan(s: State, s': State, k: TaskKey)
    requires Moved(s, s', k)
    ensures s'.runs == s.runs[k.run := s'.runs[k.run]] && s'.plans == s.plans
    ensures s'.runs[k.run].plan == s.runs[k.run].plan && s'.runs[k.run].inputs == s.runs[k.run].inputs
  {
  }

  // ---------- two-state facts: fencing and frozen history ----------

  /** A run keeps its plan and inputs. */
  ghost predicate RunsFixed(s: State, s': State) {
    forall r {:trigger r in s.runs} {:trigger s'.runs[r]} :: r in s.runs ==>
      r in s'.runs && s'.runs[r].plan == s.runs[r].plan && s'.runs[r].inputs == s.runs[r].inputs
  }

  /** Attempts are never removed, and one that has ended never changes again. */
  ghost predicate HistoryFrozen(s: State, s': State) {
    forall ak {:trigger ak in s.attempts} {:trigger s'.attempts[ak]} :: ak in s.attempts ==>
      ak in s'.attempts && (Terminal(s.attempts[ak].state) ==> s'.attempts[ak] == s.attempts[ak])
  }

  predicate CarriesToken(s: State, ak: AttemptKey, token: nat) {
    ak in s.attempts && s.attempts[ak].hold.Some? && s.attempts[ak].hold.value.token == token
  }

  /** A token that was issued and is not on a row does not come back. */
  ghost predicate TokensFenced(s: State, s': State) {
    && s.nextToken <= s'.nextToken
    && forall ak, token: nat {:trigger CarriesToken(s', ak, token)} ::
      CarriesToken(s', ak, token) && token < s.nextToken ==> CarriesToken(s, ak, token)
  }

  ghost predicate ArtifactsKept(s: State, s': State) {
    forall id {:trigger id in s.artifacts} {:trigger s'.artifacts[id]} :: id in s.artifacts ==>
      id in s'.artifacts && s'.artifacts[id] == s.artifacts[id]
  }

  ghost predicate LogGrows(s: State, s': State) {
    s.events <= s'.events
  }

  lemma MovesFixRuns(s: State, s': State)
    requires Moves(s, s')
    ensures RunsFixed(s, s')
  {
    hide Accepted, CellSound, LogFollows, ArtifactsFollow;
    if k :| Moved(s, s', k) {
      MovedPlan(s, s', k);
    }
  }

  lemma MovesFreeze(s: State, s': State)
    requires Moves(s, s')
    ensures HistoryFrozen(s, s')
  {
    hide Accepted, LogFollows, ArtifactsFollow;
    if r :| CancelsRun(s, s', r) {
      forall ak | ak in s.attempts
        ensures ak in s'.attempts && (Terminal(s.attempts[ak].state) ==> s'.attempts[ak] == s.attempts[ak])
      {
        assert s'.attempts[ak] == if ak.task.run == r then CancelAttempt(s.attempts[ak]) else s.attempts[ak];
      }
    }
  }

  lemma MovedFence(s: State, s': State, k: TaskKey)
    requires Moved(s, s', k)
    ensures TokensFenced(s, s')
  {
    hide LogFollows, ArtifactsFollow, ParentsSucceeded, TaskAgrees, AttemptSound;
    var ck := Current(s', k);
    forall ak, token: nat | CarriesToken(s', ak, token) && token < s.nextToken ensures CarriesToken(s, ak, token) {
      if ak != ck { assert s'.attempts[ak] == s.attempts[ak]; }
    }
  }

  lemma MovesFence(s: State, s': State)
    requires Moves(s, s')
    ensures TokensFenced(s, s')
  {
    hide Accepted, Moved;
    if k :| Moved(s, s', k) {
      MovedFence(s, s', k);
    } else if r :| CancelsRun(s, s', r) {
      forall ak, token: nat | CarriesToken(s', ak, token) && token < s.nextToken ensures CarriesToken(s, ak, token) {
        assert s'.attempts[ak] == if ak.task.run == r then CancelAttempt(s.attempts[ak]) else s.attempts[ak];
      }
    }
  }
}
