/** What the calls of one undisturbed round of a worker do to the store and to the scheduler's jobs. */
module Calls {
  import opened Names
  import opened Workflows
  import opened Store
  import opened Invariant
  import opened World
  import Cluster
  import opened ClusterSafety
  import opened Transactions

  /** What disk and scheduler answer during one call: whether the registry and the receipt can be read, whether
    * staging and the job listing, a status query, rendering and collecting go through, the status reported, whether
    * `sbatch` accepts the job and whether its answer arrives, the id it gives, whether a cancel goes through, and
    * whether cleanup is due. */
  datatype Answers = Answers(readable: bool, staged: bool, queried: bool, rendered: bool, collected: bool,
      status: TargetState, accepted: bool, answered: bool, newJob: nat, canceled: bool, clean: bool)

  /** The lease is off its attempt, unless the task was canceled over it. */
  ghost predicate LetGo(s: State, lease: Lease) {
    Holds(s, lease) ==> s.tasks[lease.attempt.task].state == Canceled
  }

  /** What a round does to the scheduler's jobs: it makes at most one, for an attempt without any; an answered
    * submission is a job of the attempt, the one its receipt named if there was one, and queued if it is new. */
  ghost predicate SubmissionFits(jobs: map<nat, Cluster.Job>, receipts: map<AttemptKey, nat>,
      jobs': map<nat, Cluster.Job>, ak: AttemptKey, inputs: Values, newJob: nat,
        submission: Option<(nat, TargetState)>) {
    && (jobs' == jobs || (!AnyJob(jobs, ak) && newJob !in jobs && jobs' == jobs[newJob := Cluster.Job(ak, inputs)]))
    && (submission.Some? ==>
          && IsJobOf(jobs', submission.value.0, ak) && (ak in receipts ==> submission.value.0 == receipts[ak])
          && (jobs' != jobs ==> submission.value.1 == TargetQueued))
  }

  /** What the runner makes of the inputs of the attempt's own job. */
  ghost predicate OutputsOfJob(s: State, ak: AttemptKey, handle: nat, jobs: map<nat, Cluster.Job>,
      run: Runner, outputs: Values) {
    && ak.task.run in s.runs && ak.task.node in s.runs[ak.task.run].plan.ops && IsJobOf(jobs, handle, ak)
    && outputs == run(InvocationOf(s.runs[ak.task.run].plan, ak.task.node), jobs[handle].inputs)
  }

  /** The task is completed with those outputs when they can be collected and the engine takes them, and fails
    * otherwise. */
  ghost predicate CollectOutcome(s: State, s': State, lease: Lease, handle: nat, collectable: bool,
      jobs: map<nat, Cluster.Job>, run: Runner) {
    if collectable
      then exists outputs ::
        OutputsOfJob(s, lease.attempt, handle, jobs, run, outputs) && s' == if Completes(s, lease, outputs)
        then Complete(s, lease, outputs)
      else Fail(s, lease)
    else s' == Fail(s, lease)
  }

  /** Success is collected, failure and cancellation fail the task, and anything else lets the lease go until the
    * next poll. */
  ghost predicate FollowOutcome(s: State, s': State, lease: Lease, handle: nat, status: TargetState,
      collectable: bool, jobs: map<nat, Cluster.Job>, run: Runner) {
    match status
    case TargetSucceeded => CollectOutcome(s, s', lease, handle, collectable, jobs, run)
    case TargetFailed => s' == Fail(s, lease)
    case TargetCanceled => s' == Fail(s, lease)
    case _ => s' == UnderLease(s, lease, Release)
  }

  ghost function CancelOutcome(s: State, lease: Lease, canceled: bool): State {
    UnderLease(s, lease, if canceled then MarkCanceled else Release)
  }

  /** The intent is recorded, then the handle; a cancel request that arrived meanwhile is honoured, and otherwise the
    * status is followed. Where `submit` raised, the task fails. */
  ghost predicate SubmitOutcome(s: State, s': State, lease: Lease, submission: Option<(nat, TargetState)>,
      collectable: bool, cancelable: bool, jobs: map<nat, Cluster.Job>, run: Runner) {
    var declared := UnderLease(s, lease, LeaseOp.MarkSubmitting);
    match submission
    case None => s' == Fail(declared, lease)
    case Some((handle, status)) =>
      var recorded := UnderLease(declared, lease, LeaseOp.RecordSubmission(handle, status));
      && lease.attempt in recorded.attempts && recorded.attempts[lease.attempt].handle == Some(handle)
        && IsJobOf(jobs, handle, lease.attempt)
      && if recorded.attempts[lease.attempt].state == CancelRequested
        then s' == CancelOutcome(recorded, lease, cancelable)
        else FollowOutcome(recorded, s', lease, handle, status, collectable, jobs, run)
  }

  /** The status is recorded and followed; where polling raised, the task fails. */
  ghost predicate PollOutcome(s: State, s': State, lease: Lease, handle: nat, status: Option<TargetState>,
      collectable: bool, jobs: map<nat, Cluster.Job>, run: Runner) {
    match status
    case None => s' == Fail(s, lease)
    case Some(st) =>
      FollowOutcome(UnderLease(s, lease, RecordStatus(st)), s', lease, handle, st, collectable, jobs, run)
  }

  /** What `run_once` makes of the store it claimed in: a cancel request is answered, an attempt without handle is
    * submitted, one with a handle is polled. */
  ghost predicate RoundOutcome(s: State, s': State, lease: Lease, submission: Option<(nat, TargetState)>,
      receipt: bool, env: Answers, jobs: map<nat, Cluster.Job>, run: Runner) {
    && Holds(s, lease)
    && if s.attempts[lease.attempt].state == CancelRequested
      then s' == CancelOutcome(s, lease, lease.handle.None? || (env.readable && receipt && env.canceled))
    else if lease.handle.None? then SubmitOutcome(s, s', lease, submission, env.collected, env.canceled, jobs, run)
    else
      var status := if env.readable && receipt && env.queried then Some(env.status) else None;
      PollOutcome(s, s', lease, lease.handle.value, status, env.collected, jobs, run)
  }

  /** The lease's handle is what its receipt names. */
  predicate ReceiptNames(receipts: map<AttemptKey, nat>, lease: Lease) {
    lease.handle.Some? && lease.attempt in receipts && receipts[lease.attempt] == lease.handle.value
  }

  /** Everything a round does with a lease and its request: to the store, and to the scheduler's jobs. */
  ghost predicate Proceeds(s: State, s': State, lease: Lease, jobs: map<nat, Cluster.Job>,
      receipts: map<AttemptKey, nat>, jobs': map<nat, Cluster.Job>, inputs: Values,
      submission: Option<(nat, TargetState)>, env: Answers, run: Runner) {
    && RoundOutcome(s, s', lease, submission, ReceiptNames(receipts, lease), env, jobs', run)
    && SubmissionFits(jobs, receipts, jobs', lease.attempt, inputs, env.newJob, submission)
    && (submission.Some? || jobs' != jobs ==>
          lease.handle.None? && s.attempts[lease.attempt].state in {Leased, Submitting})
  }

  lemma NothingSubmitted(jobs: map<nat, Cluster.Job>, receipts: map<AttemptKey, nat>, ak: AttemptKey, inputs: Values,
      newJob: nat)
    ensures SubmissionFits(jobs, receipts, jobs, ak, inputs, newJob, None)
  {
  }

  // ---------- leases ----------

  /** A lease that is held is the lease of a task that has not succeeded. */
  lemma HeldIsNotDone(s: State, lease: Lease)
    requires Sound(s) && Holds(s, lease)
    ensures s.tasks[lease.attempt.task].state != Succeeded
  {
    HeldTask(s, lease);
  }

  lemma NotHeldLetsGo(s: State, lease: Lease)
    requires !Holds(s, lease)
    ensures LetGo(s, lease)
  {
  }

  lemma EndsLease(s: State, lease: Lease)
    requires Holds(s, lease)
    ensures !Holds(UnderLease(s, lease, Release), lease) && !Holds(UnderLease(s, lease, MarkCanceled), lease)
  {
  }

  /** Declaring, recording and reporting leave the lease in place. */
  lemma KeepsLease(s: State, lease: Lease, op: LeaseOp)
    requires Holds(s, lease) && (op.MarkSubmitting? || op.RecordSubmission? || op.RecordStatus?)
    ensures var s' := UnderLease(s, lease, op);
      Holds(s', lease)
        && (s'.attempts[lease.attempt].handle ==
            if op.RecordSubmission? then Some(op.handle) else s.attempts[lease.attempt].handle)
  {
  }

  /** A failure is refused only over a canceled task. */
  lemma FailLetsGo(s: State, lease: Lease)
    requires Sound(s)
    ensures LetGo(Fail(s, lease), lease)
  {
    if Holds(s, lease) {
      HeldTask(s, lease);
    }
  }

  lemma HeldTask(s: State, lease: Lease)
    requires Sound(s) && Holds(s, lease)
    ensures var t := s.tasks[lease.attempt.task]; t.state == Canceled || (t.state == Running && Closes(s, lease))
  {
    HeldIsCurrent(s, lease);
    assert lease.attempt in s.attempts && TaskAgrees(s.tasks[lease.attempt.task], s.attempts[lease.attempt]);
  }

  lemma CompleteLetsGo(s: State, lease: Lease, outputs: Values)
    requires Sound(s)
    ensures Completes(s, lease, outputs) ==> LetGo(Complete(s, lease, outputs), lease)
    ensures lease.attempt.task in s.tasks && s.tasks[lease.attempt.task].state == Succeeded ==>
      LetGo(Complete(s, lease, outputs), lease)
  {
    hide Sound, OutputsMatch, RunOutputs, RunOutputsRaise, OutputRows, AllSucceeded;
    if Holds(s, lease) {
      HeldTask(s, lease);
    }
  }

  // ---------- what a round leaves in the rows ----------

  /** The attempt, its task and its run have failed, and the lease is gone. */
  ghost predicate HasFailedNow(s: State, ak: AttemptKey) {
    && ak in s.attempts && ak.task in s.tasks && ak.task.run in s.runs
    && s.attempts[ak].state == AttemptFailed && s.attempts[ak].hold.None?
    && s.tasks[ak.task].state == Failed && s.tasks[ak.task].hold.None? && s.runs[ak.task.run].state == RunFailed
  }

  /** The rows once a reported status was acted on; `waiting` is the state an attempt waits in when nothing is known. */
  ghost predicate Followed(s: State, s': State, ak: AttemptKey, status: TargetState, collectable: bool,
      waiting: AttemptState)
    requires ak in s.attempts && ak.task in s.tasks
  {
    && ak in s'.attempts && ak.task in s'.tasks
    && match status
       case TargetSucceeded =>
         HasFailedNow(s', ak)
           || (collectable && s'.tasks[ak.task].state == Succeeded && s'.attempts[ak].state == AttemptSucceeded)
       case TargetFailed => HasFailedNow(s', ak)
       case TargetCanceled => HasFailedNow(s', ak)
       case _ =>
         && s'.tasks[ak.task] == s.tasks[ak.task].(hold := None)
         && s'.attempts[ak].hold.None? && s'.runs == s.runs
         && s'.attempts[ak].state ==
              if status == TargetQueued then Submitted else if status == TargetIsRunning then TargetRunning else waiting
  }

  /** Failing a running task under its lease. */
  lemma FailingMeans(s: State, lease: Lease)
    requires Closes(s, lease)
    ensures HasFailedNow(Fail(s, lease), lease.attempt)
  {
  }

  lemma KeepsClosing(s: State, lease: Lease, op: LeaseOp)
    requires Holds(s, lease) && Closes(s, lease) && (op.MarkSubmitting? || op.RecordSubmission? || op.RecordStatus?)
    ensures Closes(UnderLease(s, lease, op), lease) && UnderLease(s, lease, op).tasks == s.tasks
      && UnderLease(s, lease, op).runs == s.runs
  {
  }

  lemma FollowingMeans(s: State, s': State, lease: Lease, handle: nat, status: TargetState, collectable: bool,
      jobs: map<nat, Cluster.Job>, run: Runner)
    requires Holds(s, lease) && Closes(s, lease)
    requires FollowOutcome(s, s', lease, handle, status, collectable, jobs, run)
    requires match status
      case TargetQueued => s.attempts[lease.attempt].state == Submitted
      case TargetIsRunning => s.attempts[lease.attempt].state == TargetRunning
      case _ => true
    ensures Followed(s, s', lease.attempt, status, collectable, s.attempts[lease.attempt].state)
    ensures status !in {TargetSucceeded, TargetFailed, TargetCanceled} ==>
      s'.attempts[lease.attempt].handle == s.attempts[lease.attempt].handle
  {
    hide OutputsOfJob, Fail, Complete, Completes;
    FailingMeans(s, lease);
    forall outputs | Completes(s, lease, outputs) { CompletionWrites(s, lease, outputs); }
  }

  /** A submission that returned is followed by what its status says. */
  lemma SubmissionMeans(s: State, s': State, lease: Lease, handle: nat, status: TargetState, env: Answers,
      jobs: map<nat, Cluster.Job>, run: Runner)
    requires Holds(s, lease) && Closes(s, lease) && s.attempts[lease.attempt].state != CancelRequested
    requires SubmitOutcome(s, s', lease, Some((handle, status)), env.collected, env.canceled, jobs, run)
    ensures Followed(s, s', lease.attempt, status, env.collected, Submitted)
  {
    hide FollowOutcome, Fail, Followed;
    KeepsLease(s, lease, LeaseOp.MarkSubmitting);
    KeepsClosing(s, lease, LeaseOp.MarkSubmitting);
    var declared := UnderLease(s, lease, LeaseOp.MarkSubmitting);
    KeepsLease(declared, lease, LeaseOp.RecordSubmission(handle, status));
    KeepsClosing(declared, lease, LeaseOp.RecordSubmission(handle, status));
    var recorded := UnderLease(declared, lease, LeaseOp.RecordSubmission(handle, status));
    FollowingMeans(recorded, s', lease, handle, status, env.collected, jobs, run);
    FollowedFrom(s, recorded, s', lease.attempt, status, env.collected, Submitted);
  }

  lemma PollMeans(s: State, s': State, lease: Lease, handle: nat, env: Answers, jobs: map<nat, Cluster.Job>,
      run: Runner)
    requires Holds(s, lease) && Closes(s, lease)
    requires PollOutcome(s, s', lease, handle, Some(env.status), env.collected, jobs, run)
    ensures Followed(s, s', lease.attempt, env.status, env.collected, s.attempts[lease.attempt].state)
  {
    hide FollowOutcome, Fail, Followed;
    KeepsLease(s, lease, RecordStatus(env.status));
    KeepsClosing(s, lease, RecordStatus(env.status));
    var recorded := UnderLease(s, lease, RecordStatus(env.status));
    FollowingMeans(recorded, s', lease, handle, env.status, env.collected, jobs, run);
    FollowedFrom(s, recorded, s', lease.attempt, env.status, env.collected, s.attempts[lease.attempt].state);
  }

  /** What a round leaves in the rows of a running task: an attempt without handle has failed unless it was submitted,
    * one with a handle has failed unless its receipt named the handle and the query went through; a reported success
    * is collected or fails, a reported end fails, and anything else waits, without a lease, in the state reported. */
  lemma RoundMeans(s: State, s': State, lease: Lease, submission: Option<(nat, TargetState)>, receipt: bool,
      env: Answers, jobs: map<nat, Cluster.Job>, run: Runner)
    requires Sound(s) && RoundOutcome(s, s', lease, submission, receipt, env, jobs, run)
    requires s.tasks[lease.attempt.task].state == Running && s.attempts[lease.attempt].state != CancelRequested
    ensures lease.handle.None? && submission.None? ==> HasFailedNow(s', lease.attempt)
    ensures lease.handle.None? && submission.Some? ==>
      Followed(s, s', lease.attempt, submission.value.1, env.collected, Submitted)
    ensures lease.handle.Some? ==>
      if env.readable && receipt && env.queried
        then Followed(s, s', lease.attempt, env.status, env.collected, s.attempts[lease.attempt].state)
        else HasFailedNow(s', lease.attempt)
  {
    hide Sound, FollowOutcome, Fail, Followed, UnderLease, HasFailedNow, Closes;
    HeldTask(s, lease);
    FailingMeans(s, lease);
    if lease.handle.None? {
      KeepsLease(s, lease, LeaseOp.MarkSubmitting);
      KeepsClosing(s, lease, LeaseOp.MarkSubmitting);
      FailingMeans(UnderLease(s, lease, LeaseOp.MarkSubmitting), lease);
      if submission.Some? {
        SubmissionMeans(s, s', lease, submission.value.0, submission.value.1, env, jobs, run);
      }
    } else if env.readable && receipt && env.queried {
      PollMeans(s, s', lease, lease.handle.value, env, jobs, run);
    }
  }

  lemma FollowedFrom(s: State, recorded: State, s': State, ak: AttemptKey, status: TargetState, collectable: bool,
      waiting: AttemptState)
    requires ak in s.attempts && ak.task in s.tasks && ak in recorded.attempts && recorded.tasks == s.tasks
      && recorded.runs == s.runs
    requires Followed(recorded, s', ak, status, collectable, recorded.attempts[ak].state)
    requires status == TargetUnknown ==> recorded.attempts[ak].state == waiting
    ensures Followed(s, s', ak, status, collectable, waiting)
  {
  }

  /** What a round leaves of an attempt that was asked to cancel: it is canceled, or waits for another try. */
  lemma CancelMeans(s: State, s': State, lease: Lease, submission: Option<(nat, TargetState)>, receipt: bool,
      env: Answers, jobs: map<nat, Cluster.Job>, run: Runner)
    requires RoundOutcome(s, s', lease, submission, receipt, env, jobs, run)
    requires s.attempts[lease.attempt].state == CancelRequested
    ensures var ak, a := lease.attempt, s.attempts[lease.attempt];
      && ak in s'.attempts && ak.task in s'.tasks
      && if lease.handle.None? || (env.readable && receipt && env.canceled)
         then s'.attempts[ak] == a.(state := AttemptCanceled, hold := None) && s'.tasks[ak.task].state == Canceled
         else s'.attempts[ak] == a.(hold := None) && s'.tasks[ak.task].state == s.tasks[ak.task].state
  {
    hide SubmitOutcome, PollOutcome;
  }

  lemma ClaimHolds(s: State, s': State, lease: Lease, worker: Name, now: int, seconds: int,
      targets: Option<set<Name>>, classes: Option<set<Name>>)
    requires Claimed(s, s', Some(lease), worker, now, seconds, targets, classes)
    ensures Holds(s', lease) && s'.attempts[lease.attempt].handle == lease.handle
  {
  }
}
