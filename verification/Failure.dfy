/** Failure is final until a retry: nothing of a failed run is started any more. */
module Failure {
  import opened Workflows
  import opened Store
  import opened Invariant
  import opened RunControl
  import opened Protocol
  import opened World
  import opened History
  import opened Cancellation
  import opened Cluster
  import opened ClusterHistory

  ghost predicate HasFailed(s: State, r: nat) {
    r in s.runs && s.runs[r].state == RunFailed
  }

  /** Of a failed run, no task can be claimed, and no attempt is added. */
  ghost predicate StaysFailed(s: State, s': State, r: nat) {
    && HasFailed(s', r)
    && (forall k {:trigger k in s'.tasks} :: k in s'.tasks && k.run == r ==> !Claimable(s', k))
    && (forall ak {:trigger ak in s'.attempts} :: ak in s'.attempts && ak.task.run == r ==> ak in s.attempts)
  }

  /** A failure that is accepted fails the task, its attempt and the run. */
  lemma FailureTakesEffect(s: State, lease: Lease)
    requires Closes(s, lease)
    ensures var s', k := Fail(s, lease), lease.attempt.task;
      && HasFailed(s', k.run) && k in s'.tasks && s'.tasks[k].state == Failed && s'.tasks[k].hold.None?
      && lease.attempt in s'.attempts && s'.attempts[lease.attempt].state == AttemptFailed
      && s'.attempts[lease.attempt].hold.None?
  {
  }

  lemma RowStepStaysFailed(s: State, a: Action, r: nat)
    requires Inv(s) && Lawful(s, a) && HasFailed(s, r)
    requires a.DoUnderLease? || a.DoExpire? || a.DoClaimFresh? || a.DoClaimRecovered? || a.DoFail?
    ensures HasFailed(Step(s, a), r)
    ensures forall ak {:trigger ak in Step(s, a).attempts} ::
      ak in Step(s, a).attempts && ak.task.run == r ==> ak in s.attempts
  {
    hide Inv, ParentsSucceeded, AttemptAfter, TaskAfter, AttemptAfterExpiry, TaskAfterExpiry, OpLawful;
  }

  lemma CompletionStaysFailed(s: State, lease: Lease, outputs: Values, r: nat)
    requires Inv(s) && HasFailed(s, r)
    ensures HasFailed(Complete(s, lease, outputs), r)
    ensures Complete(s, lease, outputs).attempts.Keys == s.attempts.Keys
  {
    hide Inv, OutputsMatch, RunOutputs, RunOutputsRaise, OutputRows, OutputIds;
    FailedTask(s, r);
    var j :| j in s.tasks && j.run == r && s.tasks[j].state == Failed;
    if Completes(s, lease, outputs) && lease.attempt.task.run == r {
      assert TasksAfterCompletion(s, lease, outputs)[j].state == Failed;
    }
  }

  lemma FailedTask(s: State, r: nat)
    requires Inv(s) && HasFailed(s, r)
    ensures exists j :: j in s.tasks && j.run == r && s.tasks[j].state == Failed
  {
    hide RowsLinked, LiveIsCurrent, TasksAgree, AttemptsSound, TokensFresh, CancelSound, DependenciesSound;
  }

  lemma RunStepStaysFailed(s: State, a: Action, r: nat)
    requires Lawful(s, a) && HasFailed(s, r)
    requires a.DoRegister? || a.DoAddInput? || a.DoSubmit? || a.DoCancelRun? || (a.DoRetryTask? && a.run != r)
    ensures HasFailed(Step(s, a), r)
    ensures forall ak {:trigger ak in Step(s, a).attempts} ::
      ak in Step(s, a).attempts && ak.task.run == r ==> ak in s.attempts
  {
    hide Accepted, Submittable, NewTasks, Downstream, RetryLawful, ListsCancellable;
  }

  /** No step but a retry of the run brings a failed run back. */
  lemma StepStaysFailed(s: State, a: Action, r: nat)
    requires Inv(s) && Lawful(s, a) && HasFailed(s, r) && !(a.DoRetryTask? && a.run == r)
    ensures StaysFailed(s, Step(s, a), r)
  {
    hide Inv, Lawful, Step, HasFailed;
    match a {
      case DoComplete(lease, outputs) =>
        CompletionStaysFailed(s, lease, outputs, r);
        StepCompletes(s, a);
      case DoUnderLease(_, _) => RowStepStaysFailed(s, a, r);
      case DoExpire(_, _) => RowStepStaysFailed(s, a, r);
      case DoClaimFresh(_, _, _, _) => RowStepStaysFailed(s, a, r);
      case DoClaimRecovered(_, _, _) => RowStepStaysFailed(s, a, r);
      case DoFail(_) => RowStepStaysFailed(s, a, r);
      case _ => RunStepStaysFailed(s, a, r);
    }
    NoneClaimable(Step(s, a), r);
  }

  lemma StepCompletes(s: State, a: Action)
    requires Lawful(s, a) && a.DoComplete?
    ensures Step(s, a) == Complete(s, a.lease, a.outputs)
  {
  }

  lemma NoneClaimable(s: State, r: nat)
    requires HasFailed(s, r)
    ensures forall k {:trigger k in s.tasks} :: k in s.tasks && k.run == r ==> !Claimable(s, k)
  {
    hide ParentsSucceeded;
  }

  // ---------- over whole runs ----------

  lemma NextStaysFailed(w: World, w': World, run: Runner, r: nat)
    requires Inv(w.db) && HasFailed(w.db, r) && NextButNoRetry(w, w', run, r)
    ensures StaysFailed(w.db, w'.db, r)
  {
    hide Inv, Step, Lawful, HonestResult, HasFailed, Claimable;
    var a :| WorldLawful(w, run, a) && w' == WorldStep(w, run, a)
      && !(a.Engine? && a.action.DoRetryTask? && a.action.run == r);
    match a
    case Build(_) => NoneClaimable(w.db, r);
    case Engine(act) => StepStaysFailed(w.db, act, r);
  }

  /** After a failure and until a retry: the run stays failed, none of its tasks can be claimed, and no attempt of it is
    * added. */
  lemma {:induction false} FailureIsFinal(b: seq<World>, run: Runner, i: nat, j: nat, r: nat)
    requires Behavior(b, run) && i <= j < |b| && HasFailed(b[i].db, r)
    requires forall l {:trigger b[l]} :: i <= l < j ==> NextButNoRetry(b[l], b[l + 1], run, r)
    ensures StaysFailed(b[i].db, b[j].db, r)
    decreases j - i
  {
    hide Behavior, NextButNoRetry, Inv, Claimable;
    if i == j {
      NoneClaimable(b[i].db, r);
    } else {
      FailureIsFinal(b, run, i, j - 1, r);
      ReachableKeepsInv(b, run, j - 1);
      NextStaysFailed(b[j - 1], b[j - 1 + 1], run, r);
    }
  }

  lemma ReachableKeepsInv(b: seq<World>, run: Runner, i: nat)
    requires Behavior(b, run) && i < |b|
    ensures Inv(b[i].db)
  {
    hide Behavior, Inv;
    ReachableSound(b, run, i);
  }

  /** The same whatever workers, crashes, disk and scheduler do. */
  lemma ClusterFailureIsFinal(b: seq<Cluster>, run: Runner, i: nat, j: nat, r: nat)
    requires ClusterBehavior(b, run) && i <= j < |b| && HasFailed(b[i].world.db, r)
    requires forall k {:trigger b[k]} :: i <= k < j ==> ClusterNoRetry(b[k], b[k + 1], run, r)
    ensures StaysFailed(b[i].world.db, b[j].world.db, r)
  {
    hide ClusterBehavior, Behavior, Projects, ClusterNoRetry, NextButNoRetry, StaysFailed, HasFailed;
    var w, f := ClusterRefinesWorld(b, run);
    ProjectionAscends(b, w, f, i, j);
    forall l {:trigger w[l]} | f[i] <= l < f[j] ensures NextButNoRetry(w[l], w[l + 1], run, r) {
      var k := ProjectedStep(b, w, f, i, j, l);
      NoRetryRefines(b[k], b[k + 1], run, r);
    }
    FailureIsFinal(w, run, f[i], f[j], r);
  }
}
