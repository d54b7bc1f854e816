/** The asynchronous worker and the batch runner as the programs they are, one call at a time. */
module Workers {
  import opened Names
  import opened Workflows
  import opened Store
  import opened Invariant
  import opened Protocol
  import opened World
  import opened Recovery
  import Cluster
  import opened ClusterSafety
  import opened Transactions
  import opened Engine
  import opened Calls

  /** Submission receipts on disk and the jobs the scheduler has accepted. */
  class SlurmRunner {
    var jobs: map<nat, Cluster.Job>
    var receipts: map<AttemptKey, nat>

    ghost predicate Valid()
      reads this
    {
      JobsOnce(jobs) && ReceiptsAgree(receipts, jobs)
    }

    constructor ()
      ensures Valid() && jobs == map[] && receipts == map[]
    {
      jobs, receipts := map[], map[];
    }

    /** `find_by_name`, for the name made from the attempt. */
    method FindByName(ak: AttemptKey) returns (found: Option<nat>)
      ensures found.Some? ==> IsJobOf(jobs, found.value, ak)
      ensures found.None? ==> !AnyJob(jobs, ak)
    {
      found := None;
      var rest := jobs.Keys;
      while rest != {}
        invariant rest <= jobs.Keys && forall h :: h in jobs && h !in rest ==> jobs[h].attempt != ak
        decreases |rest|
      {
        var h :| h in rest;
        if jobs[h].attempt == ak {
          return Some(h);
        }
        rest := rest - {h};
      }
    }

    /** A job is made: there is no receipt, no job to be found by name, and nothing before `sbatch` raises. */
    predicate Makes(ak: AttemptKey, env: Answers)
      reads this
    {
      env.readable && ak !in receipts && env.staged && !AnyJob(jobs, ak) && env.rendered && env.accepted
    }

    /** `submit` returns: the receipt or the job found by name can be queried, or `sbatch` answers. */
    predicate Submits(ak: AttemptKey, env: Answers)
      reads this
    {
      env.readable && if ak in receipts
        then env.queried
        else env.staged && if AnyJob(jobs, ak) then env.queried else env.rendered && env.accepted && env.answered
    }

    /** `submit`: a receipt or a job found by name is answered; only without either is a job made, and the receipt
      * follows. An `sbatch` whose answer is lost leaves a job without a receipt. */
    method Submit(ak: AttemptKey, inputs: Values, env: Answers) returns (submission: Option<(nat, TargetState)>)
      requires Valid() && env.newJob !in jobs
      modifies this
      ensures Valid()
      ensures submission.Some? <==> old(Submits(ak, env))
      ensures submission.Some? ==>
        IsJobOf(jobs, submission.value.0, ak) && ak in receipts && receipts[ak] == submission.value.0
      ensures submission.Some? ==> submission.value.1 == if AnyJob(old(jobs), ak) then env.status else TargetQueued
      ensures jobs == if old(Makes(ak, env)) then old(jobs)[env.newJob := Cluster.Job(ak, inputs)] else old(jobs)
      ensures SubmissionFits(old(jobs), old(receipts), jobs, ak, inputs, env.newJob, submission)
    {
      if !env.readable {
        return None;
      }
      if ak in receipts {
        assert IsJobOf(jobs, receipts[ak], ak);
        return if env.queried then Some((receipts[ak], env.status)) else None;
      }
      if !env.staged {
        return None;
      }
      var recovered := FindByName(ak);
      if recovered.Some? {
        receipts := receipts[ak := recovered.value];
        return if env.queried then Some((recovered.value, env.status)) else None;
      }
      if !env.rendered || !env.accepted {
        return None;
      }
      jobs := jobs[env.newJob := Cluster.Job(ak, inputs)];
      if !env.answered {
        return None;
      }
      receipts := receipts[ak := env.newJob];
      return Some((env.newJob, TargetQueued));
    }

    /** `_checked_receipt`, which polling, collecting and cancelling start with. */
    predicate Checked(ak: AttemptKey, handle: nat, env: Answers)
      reads this
    {
      env.readable && ak in receipts && receipts[ak] == handle
    }

    method Poll(ak: AttemptKey, handle: nat, env: Answers) returns (status: Option<TargetState>)
      ensures status.Some? <==> Checked(ak, handle, env) && env.queried
      ensures status.Some? ==> status.value == env.status
    {
      return if Checked(ak, handle, env) && env.queried then Some(env.status) else None;
    }

    /** What the job of the attempt left behind. */
    method Collect(ak: AttemptKey, handle: nat, invocation: Invocation, run: Runner, env: Answers)
        returns (outputs: Option<Values>)
      requires Valid()
      ensures outputs.Some? <==> Checked(ak, handle, env) && env.collected
      ensures outputs.Some? ==> IsJobOf(jobs, handle, ak) && outputs.value == run(invocation, jobs[handle].inputs)
    {
      if !Checked(ak, handle, env) || !env.collected {
        return None;
      }
      return Some(run(invocation, jobs[handle].inputs));
    }

    method Cancel(ak: AttemptKey, handle: nat, env: Answers) returns (ok: bool)
      ensures ok <==> Checked(ak, handle, env) && env.canceled
    {
      return Checked(ak, handle, env) && env.canceled;
    }

    /** `finalize` may remove the attempt's directory, and its receipt with it. */
    method Finalize(ak: AttemptKey, env: Answers)
      requires Valid()
      modifies this`receipts
      ensures Valid() && receipts == if env.clean then old(receipts) - {ak} else old(receipts)
    {
      if env.clean {
        receipts := receipts - {ak};
      }
    }
  }

  class AsyncWorker {
    const engine: WorkflowEngine
    const runner: SlurmRunner
    const id: Name

    /** Engine and runner are consistent, and recorded handles are jobs. */
    ghost predicate Valid()
      reads this, engine, runner
    {
      engine.Valid() && runner.Valid() && HandlesAgree(engine.Db(), runner.jobs)
    }

    constructor (engine: WorkflowEngine, runner: SlurmRunner, id: Name)
      requires engine.Valid() && runner.Valid() && HandlesAgree(engine.Db(), runner.jobs)
      ensures Valid() && this.engine == engine && this.runner == runner && this.id == id
    {
      this.engine, this.runner, this.id := engine, runner, id;
    }

    /** `_fail`. */
    method FailAttempt(lease: Lease, env: Answers)
      requires Valid()
      modifies engine, runner
      ensures Valid() && runner.jobs == old(runner.jobs) && engine.Db() == Fail(old(engine.Db()), lease)
        && LetGo(engine.Db(), lease)
    {
      hide Sound, Fail, JobsOnce, ReceiptsAgree, HandlesAgree, LetGo;
      runner.Finalize(lease.attempt, env);
      FailLetsGo(engine.Db(), lease);
      StepAgrees(engine.Db(), DoFail(lease), runner.jobs);
      engine.FailTask(lease);
    }

    /** `_cancel`: a job that could not be canceled leaves the attempt for another try. */
    method CancelAttempt(lease: Lease, handle: nat, env: Answers)
      requires Valid() && Holds(engine.Db(), lease) && engine.attempts[lease.attempt].handle.Some?
      modifies engine, runner
      ensures Valid() && runner.jobs == old(runner.jobs) && !Holds(engine.Db(), lease)
      ensures engine.Db() ==
        CancelOutcome(old(engine.Db()), lease, old(runner.Checked(lease.attempt, handle, env)) && env.canceled)
    {
      hide Sound, UnderLease, JobsOnce, ReceiptsAgree, HandlesAgree;
      var canceled := runner.Cancel(lease.attempt, handle, env);
      EndsLease(engine.Db(), lease);
      if !canceled {
        StepAgrees(engine.Db(), DoUnderLease(lease, Release), runner.jobs);
        var _ := engine.ReleaseLease(lease);
        return;
      }
      runner.Finalize(lease.attempt, env);
      StepAgrees(engine.Db(), DoUnderLease(lease, MarkCanceled), runner.jobs);
      var _ := engine.MarkAttemptCanceled(lease);
    }

    /** `_collect`, and `_fail` when it raises. */
    method CollectAttempt(lease: Lease, handle: nat, run: Runner, env: Answers)
      requires Valid() && Holds(engine.Db(), lease)
      modifies engine, runner
      ensures Valid() && runner.jobs == old(runner.jobs) && LetGo(engine.Db(), lease)
      ensures CollectOutcome(old(engine.Db()), engine.Db(), lease, handle,
        old(runner.Checked(lease.attempt, handle, env)) && env.collected, runner.jobs, run)
    {
      hide Sound, Complete, Completes, Fail, JobsOnce, ReceiptsAgree, HandlesAgree, LetGo;
      TaskHasNode(engine.Db(), lease.attempt.task);
      HeldIsNotDone(engine.Db(), lease);
      var outputs := runner.Collect(lease.attempt, handle,
        InvocationOf(engine.runs[lease.attempt.task.run].plan, lease.attempt.task.node), run, env);
      if outputs.Some? {
        assert OutputsOfJob(engine.Db(), lease.attempt, handle, runner.jobs, run, outputs.value);
        runner.Finalize(lease.attempt, env);
        CompleteLetsGo(engine.Db(), lease, outputs.value);
        StepAgrees(engine.Db(), DoComplete(lease, outputs.value), runner.jobs);
        var ok := engine.CompleteTask(lease, outputs.value);
        if ok {
          return;
        }
        NotCompleting(old(engine.Db()), lease, outputs.value);
      }
      FailAttempt(lease, env);
    }

    /** What follows a recorded status. */
    method FollowStatus(lease: Lease, handle: nat, status: TargetState, run: Runner, env: Answers)
      requires Valid() && Holds(engine.Db(), lease) && engine.attempts[lease.attempt].handle.Some?
      modifies engine, runner
      ensures Valid() && runner.jobs == old(runner.jobs) && LetGo(engine.Db(), lease)
      ensures FollowOutcome(old(engine.Db()), engine.Db(), lease, handle, status,
        old(runner.Checked(lease.attempt, handle, env)) && env.collected, runner.jobs, run)
    {
      hide Sound, UnderLease, Fail, CollectOutcome, JobsOnce, ReceiptsAgree, HandlesAgree;
      match status
      case TargetSucceeded => CollectAttempt(lease, handle, run, env);
      case TargetFailed => FailAttempt(lease, env);
      case TargetCanceled => FailAttempt(lease, env);
      case _ =>
        EndsLease(engine.Db(), lease);
        StepAgrees(engine.Db(), DoUnderLease(lease, Release), runner.jobs);
        var _ := engine.ReleaseLease(lease);
    }

    /** The branch without a handle: declare the intent, submit, record. */
    method SubmitAttempt(lease: Lease, inputs: Values, run: Runner, env: Answers)
        returns (ghost submission: Option<(nat, TargetState)>)
      requires Valid() && Holds(engine.Db(), lease) && engine.attempts[lease.attempt].handle.None?
        && env.newJob !in runner.jobs
      modifies engine, runner
      ensures Valid() && LetGo(engine.Db(), lease)
      ensures submission.Some? <==>
        !MarkSubmittingRaises(old(engine.attempts)[lease.attempt]) && old(runner.Submits(lease.attempt, env))
      ensures SubmitOutcome(old(engine.Db()), engine.Db(), lease, submission, env.collected, env.canceled,
        runner.jobs, run)
      ensures SubmissionFits(old(runner.jobs), old(runner.receipts), runner.jobs, lease.attempt, inputs, env.newJob,
        submission)
      ensures runner.jobs != old(runner.jobs) ==> !MarkSubmittingRaises(old(engine.attempts)[lease.attempt])
    {
      hide Sound, UnderLease, Fail, FollowOutcome, JobsOnce, ReceiptsAgree, HandlesAgree, LetGo, AnyJob, SubmissionFits,
        MarkSubmittingRaises, IsJobOf, CancelOutcome;
      StepAgrees(engine.Db(), DoUnderLease(lease, LeaseOp.MarkSubmitting), runner.jobs);
      KeepsLease(engine.Db(), lease, LeaseOp.MarkSubmitting);
      var declared := engine.MarkSubmitting(lease);
      submission := None;
      NothingSubmitted(runner.jobs, runner.receipts, lease.attempt, inputs, env.newJob);
      if !declared {
        FailAttempt(lease, env);
        return;
      }
      ghost var jobs := runner.jobs;
      var answer := runner.Submit(lease.attempt, inputs, env);
      submission := answer;
      MoreJobsAgree(engine.Db(), jobs, runner.jobs);
      if answer.None? {
        FailAttempt(lease, env);
        return;
      }
      var (handle, status) := answer.value;
      RecordingAgrees(engine.Db(), lease, handle, status, runner.jobs);
      KeepsLease(engine.Db(), lease, LeaseOp.RecordSubmission(handle, status));
      var state := engine.RecordSubmission(lease, handle, status);
      if state == Some(CancelRequested) {
        CancelAttempt(lease, handle, env);
        NotHeldLetsGo(engine.Db(), lease);
      } else {
        FollowStatus(lease, handle, status, run, env);
      }
    }

    /** The branch with a handle: poll, record, follow. */
    method PollAttempt(lease: Lease, handle: nat, run: Runner, env: Answers) returns (ghost status: Option<TargetState>)
      requires Valid() && Holds(engine.Db(), lease) && engine.attempts[lease.attempt].handle.Some?
        && engine.attempts[lease.attempt].state != CancelRequested
      modifies engine, runner
      ensures Valid() && runner.jobs == old(runner.jobs) && LetGo(engine.Db(), lease)
      ensures status == if old(runner.Checked(lease.attempt, handle, env)) && env.queried
        then Some(env.status)
        else None
      ensures PollOutcome(old(engine.Db()), engine.Db(), lease, handle, status, env.collected, runner.jobs, run)
    {
      hide Sound, UnderLease, Fail, FollowOutcome, JobsOnce, ReceiptsAgree, HandlesAgree, LetGo;
      var answer := runner.Poll(lease.attempt, handle, env);
      status := answer;
      if answer.None? {
        FailAttempt(lease, env);
        return;
      }
      StepAgrees(engine.Db(), DoUnderLease(lease, RecordStatus(answer.value)), runner.jobs);
      KeepsLease(engine.Db(), lease, RecordStatus(answer.value));
      var _ := engine.RecordTargetStatus(lease, answer.value);
      FollowStatus(lease, handle, answer.value, run, env);
    }

    /** What `run_once` does with a lease and its request. */
    method Proceed(l: Lease, inputs: Values, run: Runner, env: Answers)
        returns (ghost submission: Option<(nat, TargetState)>)
      requires Valid() && Holds(engine.Db(), l) && engine.attempts[l.attempt].handle == l.handle
        && env.newJob !in runner.jobs
      modifies engine, runner
      ensures Valid() && LetGo(engine.Db(), l)
      ensures Proceeds(old(engine.Db()), engine.Db(), l, old(runner.jobs), old(runner.receipts), runner.jobs, inputs,
        submission, env, run)
      ensures submission.Some? <==>
        l.handle.None? && old(engine.attempts)[l.attempt].state in {Leased, Submitting}
          && old(runner.Submits(l.attempt, env))
    {
      hide Sound, UnderLease, JobsOnce, ReceiptsAgree, HandlesAgree, LetGo, SubmitOutcome, PollOutcome, AnyJob;
      submission := None;
      if engine.attempts[l.attempt].state == CancelRequested {
        if l.handle.Some? {
          CancelAttempt(l, l.handle.value, env);
        } else {
          EndsLease(engine.Db(), l);
          StepAgrees(engine.Db(), DoUnderLease(l, MarkCanceled), runner.jobs);
          var _ := engine.MarkAttemptCanceled(l);
        }
        NotHeldLetsGo(engine.Db(), l);
      } else if l.handle.None? {
        submission := SubmitAttempt(l, inputs, run, env);
      } else {
        ghost var _ := PollAttempt(l, l.handle.value, run, env);
      }
    }

    /** `run_once`: afterwards the worker has let its lease go, and at most one job was made, for an attempt without
      * any. A request that cannot be built raises out of it, and the lease is left to expire. */
    method RunOnce(run: Runner, seconds: int, now: int, targets: Option<set<Name>>,
        classes: Option<set<Name>>, env: Answers)
      returns (worked: bool, raised: bool, ghost lease: Option<Lease>, ghost rows: seq<TaskKey>,
        ghost claimed: State, ghost submission: Option<(nat, TargetState)>)
      requires Valid() && seconds > 0 && env.newJob !in runner.jobs
      modifies engine, runner
      ensures Valid() && TasksLinked(old(engine.Db())) && worked == lease.Some?
      ensures ListsExpired(old(engine.Db()), now, rows)
        && Claimed(ResetRows(old(engine.Db()), rows, now), claimed, lease, id, now, seconds, targets, classes)
      ensures !worked || raised ==> engine.Db() == claimed
      ensures worked ==>
        Holds(claimed, lease.value) && claimed.attempts[lease.value.attempt].handle == lease.value.handle
      ensures raised <==>
        worked && (lease.value.attempt.task.run !in claimed.runs || !RequestBuilds(claimed, lease.value.attempt.task))
      ensures worked && !raised ==> LetGo(engine.Db(), lease.value)
      ensures worked && !raised ==>
        Proceeds(claimed, engine.Db(), lease.value, old(runner.jobs), old(runner.receipts), runner.jobs,
          RequestOf(claimed, lease.value.attempt.task), submission, env, run)
      ensures worked && !raised ==>
        (submission.Some? <==>
         && lease.value.handle.None? && claimed.attempts[lease.value.attempt].state in {Leased, Submitting}
         && old(runner.Submits(lease.value.attempt, env)))
      ensures !worked || raised ==> runner.jobs == old(runner.jobs)
    {
      hide Sound, UnderLease, JobsOnce, ReceiptsAgree, HandlesAgree, LetGo, Claimed, TasksLinked, ResetRows,
        ListsExpired, Proceeds, AnyJob;
      ghost var before := engine.Db();
      SoundLinks(before);
      var claim;
      claim, rows := engine.ClaimTask(id, seconds, now, targets, classes);
      lease, raised, worked, submission, claimed := claim, false, claim.Some?, None, engine.Db();
      ClaimAgrees(before, rows, engine.Db(), claim, id, now, seconds, targets, classes, runner.jobs);
      if claim.None? {
        return;
      }
      var l := claim.value;
      ClaimHolds(ResetRows(before, rows, now), engine.Db(), l, id, now, seconds, targets, classes);
      var request := engine.TaskRequest(l);
      if request.None? {
        raised := true;
        return;
      }
      submission := Proceed(l, request.value, run, env);
    }
  }

  // ---------- handles and jobs ----------

  lemma StepAgrees(s: State, a: Action, jobs: map<nat, Cluster.Job>)
    requires Lawful(s, a) && HandlesAgree(s, jobs) && !(a.DoUnderLease? && a.op.RecordSubmission?)
    ensures HandlesAgree(Step(s, a), jobs)
  {
    hide Lawful, Step, IsJobOf;
    HandlesKept(s, a);
  }

  lemma MoreJobsAgree(s: State, jobs: map<nat, Cluster.Job>, jobs': map<nat, Cluster.Job>)
    requires HandlesAgree(s, jobs) && forall h :: h in jobs ==> h in jobs' && jobs'[h] == jobs[h]
    ensures HandlesAgree(s, jobs')
  {
  }

  lemma RecordingAgrees(s: State, lease: Lease, handle: nat, status: TargetState, jobs: map<nat, Cluster.Job>)
    requires HandlesAgree(s, jobs) && IsJobOf(jobs, handle, lease.attempt)
    ensures HandlesAgree(UnderLease(s, lease, LeaseOp.RecordSubmission(handle, status)), jobs)
  {
  }

  lemma {:induction false} ResetAgrees(s: State, rows: seq<TaskKey>, now: int, jobs: map<nat, Cluster.Job>)
    requires TasksLinked(s) && HandlesAgree(s, jobs)
    ensures HandlesAgree(ResetRows(s, rows, now), jobs)
  {
    hide HandlesAgree, ExpireRow;
    if rows != [] {
      ResetAgrees(s, rows[..|rows| - 1], now, jobs);
      StepAgrees(ResetRows(s, rows[..|rows| - 1], now), DoExpire(rows[|rows| - 1], now), jobs);
    }
  }

  lemma ClaimAgrees(s: State, rows: seq<TaskKey>, s': State, lease: Option<Lease>, worker: Name, now: int,
      seconds: int, targets: Option<set<Name>>, classes: Option<set<Name>>, jobs: map<nat, Cluster.Job>)
    requires TasksLinked(s) && HandlesAgree(s, jobs)
    requires if seconds > 0
      then Claimed(ResetRows(s, rows, now), s', lease, worker, now, seconds, targets, classes)
      else s' == s
    ensures HandlesAgree(s', jobs)
  {
    hide HandlesAgree, ResetRows, ClaimRecovered, ClaimFresh, Claimable, Recoverable;
    ResetAgrees(s, rows, now, jobs);
    if seconds > 0 && lease.Some? {
      var a := if lease.value.recovered
        then DoClaimRecovered(lease.value.attempt, worker, now + seconds)
        else DoClaimFresh(lease.value.attempt.task, worker, now, now + seconds);
      StepAgrees(ResetRows(s, rows, now), a, jobs);
    }
  }
}
