/** An undisturbed round of `AsyncWorker` is a run of the worker's program, statement by statement. */
module Rounds {
  import opened Names
  import opened Workflows
  import opened Store
  import opened Protocol
  import opened World
  import opened Cluster
  import opened ClusterSafety
  import opened ClusterHistory
  import Transactions
  import Calls

  // ---------- statements of one worker ----------

  ghost predicate ActsAlone(c: Cluster, d: Cluster, run: Runner, w: Name) {
    exists m :: WorkerStep(c, d, run, w, m)
  }

  /** Every step is a statement of worker `w`. */
  ghost predicate Alone(cs: seq<Cluster>, run: Runner, w: Name) {
    |cs| >= 1 && forall i {:trigger cs[i]} :: 0 <= i < |cs| - 1 ==> ActsAlone(cs[i], cs[i + 1], run, w)
  }

  /** Worker `w` gets the cluster from `c` to `d` while nobody else acts. */
  ghost predicate Gets(c: Cluster, d: Cluster, run: Runner, w: Name) {
    exists cs :: Alone(cs, run, w) && cs[0] == c && cs[|cs| - 1] == d
  }

  lemma OneGets(c: Cluster, d: Cluster, run: Runner, w: Name, m: Move)
    requires WorkerStep(c, d, run, w, m)
    ensures Gets(c, d, run, w)
  {
    hide WorkerStep;
    assert ActsAlone(c, d, run, w);
    assert Alone([c, d], run, w);
  }

  lemma BothGet(c: Cluster, d: Cluster, e: Cluster, run: Runner, w: Name)
    requires Gets(c, d, run, w) && Gets(d, e, run, w)
    ensures Gets(c, e, run, w)
  {
    hide ActsAlone;
    var cs :| Alone(cs, run, w) && cs[0] == c && cs[|cs| - 1] == d;
    var ds :| Alone(ds, run, w) && ds[0] == d && ds[|ds| - 1] == e;
    var all := cs + ds[1..];
    forall i {:trigger all[i]} | 0 <= i < |all| - 1 ensures ActsAlone(all[i], all[i + 1], run, w) {
      if i < |cs| - 1 {
        assert all[i] == cs[i] && all[i + 1] == cs[i + 1];
      } else {
        assert all[i] == ds[i - |cs| + 1] && all[i + 1] == ds[i - |cs| + 1 + 1];
      }
    }
    assert all[|all| - 1] == e;
  }

  /** The worker stands at `pc` in a sound cluster with these rows, jobs and receipts. */
  ghost predicate At(c: Cluster, run: Runner, w: Name, pc: Pc, db: State, jobs: map<nat, Job>,
      receipts: map<AttemptKey, nat>) {
    && ClusterInv(c, run) && w in c.workers && c.workers[w] == pc
    && c.world.db == db && c.jobs == jobs && c.receipts == receipts
  }

  /** A statement that can be performed is lawful and keeps the cluster sound. */
  lemma Performs(c: Cluster, run: Runner, w: Name, m: Move) returns (d: Cluster)
    requires ClusterInv(c, run) && Enabled(c, w, m)
    ensures TransactionLawful(c, w, m, run) && d == Advance(c, w, m, run)
    ensures ClusterInv(d, run) && Gets(c, d, run, w)
  {
    hide ClusterInv, Enabled, TransactionLawful, Advance;
    AdvanceKeepsInv(c, w, m, run);
    d := Advance(c, w, m, run);
    OneGets(c, d, run, w, m);
  }

  // ---------- single statements ----------

  lemma ReadsReceipt(c: Cluster, run: Runner, w: Name, lease: Lease, inputs: Values, status: TargetState)
    returns (d: Cluster)
    requires At(c, run, w, ReadingReceipt(lease, inputs), c.world.db, c.jobs, c.receipts)
    ensures Gets(c, d, run, w)
    ensures At(d, run, w,
      if lease.attempt in c.receipts
        then Recording(lease, c.receipts[lease.attempt], status)
        else LookingUp(lease, inputs),
      c.world.db, c.jobs, c.receipts)
  {
    hide ClusterInv, Gets;
    d := Performs(c, run, w, ReadReceipt(status));
  }

  lemma FindsJob(c: Cluster, run: Runner, w: Name, lease: Lease, inputs: Values, status: TargetState, handle: nat)
    returns (d: Cluster)
    requires At(c, run, w, LookingUp(lease, inputs), c.world.db, c.jobs, c.receipts)
    requires IsJobOf(c.jobs, handle, lease.attempt)
    ensures Gets(c, d, run, w)
    ensures At(d, run, w, Recording(lease, handle, status), c.world.db, c.jobs, c.receipts[lease.attempt := handle])
  {
    hide ClusterInv, Gets;
    d := Performs(c, run, w, LookUp(status, Some(handle)));
  }

  lemma FindsNone(c: Cluster, run: Runner, w: Name, lease: Lease, inputs: Values) returns (d: Cluster)
    requires At(c, run, w, LookingUp(lease, inputs), c.world.db, c.jobs, c.receipts)
    requires !AnyJob(c.jobs, lease.attempt)
    ensures Gets(c, d, run, w) && At(d, run, w, Sbatching(lease, inputs), c.world.db, c.jobs, c.receipts)
  {
    hide ClusterInv, Gets;
    d := Performs(c, run, w, LookUp(TargetUnknown, None));
  }

  lemma Submits(c: Cluster, run: Runner, w: Name, lease: Lease, inputs: Values, newJob: nat) returns (d: Cluster)
    requires At(c, run, w, Sbatching(lease, inputs), c.world.db, c.jobs, c.receipts) && newJob !in c.jobs
    ensures Gets(c, d, run, w)
    ensures At(d, run, w, WritingReceipt(lease, newJob), c.world.db, c.jobs[newJob := Job(lease.attempt, inputs)],
      c.receipts)
  {
    hide ClusterInv, Gets;
    d := Performs(c, run, w, Sbatch(newJob));
  }

  lemma WritesReceipt(c: Cluster, run: Runner, w: Name, lease: Lease, handle: nat) returns (d: Cluster)
    requires At(c, run, w, WritingReceipt(lease, handle), c.world.db, c.jobs, c.receipts)
    ensures Gets(c, d, run, w)
    ensures At(d, run, w, Recording(lease, handle, TargetQueued), c.world.db, c.jobs,
      c.receipts[lease.attempt := handle])
  {
    hide ClusterInv, Gets;
    d := Performs(c, run, w, WriteReceipt);
  }

  lemma Records(c: Cluster, run: Runner, w: Name, lease: Lease, handle: nat, status: TargetState) returns (d: Cluster)
    requires At(c, run, w, Recording(lease, handle, status), c.world.db, c.jobs, c.receipts)
    requires Holds(c.world.db, lease)
    ensures Gets(c, d, run, w)
    ensures At(d, run, w,
      AfterRecord(lease, handle, StateAfterSubmission(c.world.db.attempts[lease.attempt].state, status), status),
      UnderLease(c.world.db, lease, RecordSubmission(handle, status)), c.jobs, c.receipts)
  {
    hide ClusterInv, Gets, UnderLease, Lawful;
    d := Performs(c, run, w, Record);
  }

  lemma FetchesOutputs(c: Cluster, run: Runner, w: Name, lease: Lease, handle: nat, outputs: Values)
    returns (d: Cluster)
    requires At(c, run, w, Fetching(lease, handle), c.world.db, c.jobs, c.receipts)
    requires lease.attempt in c.receipts && c.receipts[lease.attempt] == handle
    requires Calls.OutputsOfJob(c.world.db, lease.attempt, handle, c.jobs, run, outputs)
    ensures Gets(c, d, run, w) && At(d, run, w, Completing(lease, outputs), c.world.db, c.jobs, c.receipts)
  {
    hide ClusterInv, Gets;
    d := Performs(c, run, w, Collect);
  }

  lemma DeclaresIntent(c: Cluster, run: Runner, w: Name, lease: Lease, inputs: Values) returns (d: Cluster)
    requires At(c, run, w, Intending(lease, inputs), c.world.db, c.jobs, c.receipts)
    requires Holds(c.world.db, lease) && !MarkSubmittingRaises(c.world.db.attempts[lease.attempt])
    ensures Gets(c, d, run, w)
    ensures At(d, run, w, ReadingReceipt(lease, inputs), UnderLease(c.world.db, lease, MarkSubmitting), c.jobs,
      c.receipts)
  {
    hide ClusterInv, Gets, UnderLease, Lawful;
    d := Performs(c, run, w, Intend);
  }

  lemma Polls(c: Cluster, run: Runner, w: Name, lease: Lease, handle: nat, status: TargetState) returns (d: Cluster)
    requires At(c, run, w, Polling(lease, handle), c.world.db, c.jobs, c.receipts) && Holds(c.world.db, lease)
    requires lease.attempt in c.receipts && c.receipts[lease.attempt] == handle
    ensures Gets(c, d, run, w)
    ensures At(d, run, w, AfterReport(lease, handle, status), UnderLease(c.world.db, lease, RecordStatus(status)),
      c.jobs, c.receipts)
  {
    hide ClusterInv, Gets, UnderLease, Lawful;
    var e := Performs(c, run, w, Poll(status));
    d := Performs(e, run, w, Report);
    BothGet(c, e, d, run, w);
  }

  lemma Starts(c: Cluster, run: Runner, w: Name, lease: Lease) returns (d: Cluster)
    requires At(c, run, w, Claimed(lease), c.world.db, c.jobs, c.receipts) && Holds(c.world.db, lease)
    requires lease.attempt.task.run in c.world.db.runs && RequestBuilds(c.world.db, lease.attempt.task)
    ensures Gets(c, d, run, w)
    ensures At(d, run, w,
      AfterCheck(lease, RequestOf(c.world.db, lease.attempt.task), c.world.db.attempts[lease.attempt].state),
      c.world.db, c.jobs, c.receipts)
  {
    hide ClusterInv, Gets, RequestBuilds, RequestOf;
    var e := Performs(c, run, w, BuildRequest);
    d := Performs(e, run, w, CheckState);
    BothGet(c, e, d, run, w);
  }

  // ---------- the ways a round ends ----------

  lemma GivesUp(c: Cluster, run: Runner, w: Name, lease: Lease) returns (d: Cluster)
    requires At(c, run, w, Failing(lease), c.world.db, c.jobs, c.receipts)
    ensures Gets(c, d, run, w) && At(d, run, w, Idle, Fail(c.world.db, lease), c.jobs, c.receipts)
  {
    hide ClusterInv, Gets, Fail, Lawful;
    d := Performs(c, run, w, GiveUp);
  }

  lemma Raises(c: Cluster, run: Runner, w: Name, pc: Pc) returns (d: Cluster)
    requires At(c, run, w, pc, c.world.db, c.jobs, c.receipts) && !pc.Idle? && !pc.Claimed? && !pc.Failing?
    ensures Gets(c, d, run, w) && At(d, run, w, Idle, Fail(c.world.db, pc.lease), c.jobs, c.receipts)
  {
    hide ClusterInv, Gets, Fail, Lawful;
    var e := Performs(c, run, w, Raise);
    d := GivesUp(e, run, w, pc.lease);
    BothGet(c, e, d, run, w);
  }

  lemma LetsGo(c: Cluster, run: Runner, w: Name, lease: Lease) returns (d: Cluster)
    requires At(c, run, w, Releasing(lease), c.world.db, c.jobs, c.receipts) && Holds(c.world.db, lease)
    ensures Gets(c, d, run, w) && At(d, run, w, Idle, UnderLease(c.world.db, lease, Release), c.jobs, c.receipts)
  {
    hide ClusterInv, Gets, UnderLease, Lawful;
    d := Performs(c, run, w, Move.LetGo);
  }

  lemma Marks(c: Cluster, run: Runner, w: Name, lease: Lease) returns (d: Cluster)
    requires At(c, run, w, MarkingCanceled(lease), c.world.db, c.jobs, c.receipts) && Holds(c.world.db, lease)
    ensures Gets(c, d, run, w) && At(d, run, w, Idle, UnderLease(c.world.db, lease, MarkCanceled), c.jobs, c.receipts)
  {
    hide ClusterInv, Gets, UnderLease, Lawful;
    d := Performs(c, run, w, MarkIt);
  }

  lemma CancelsJob(c: Cluster, run: Runner, w: Name, lease: Lease, handle: nat, ok: bool) returns (d: Cluster)
    requires At(c, run, w, CancelingJob(lease, handle), c.world.db, c.jobs, c.receipts) && Holds(c.world.db, lease)
    requires ok ==> lease.attempt in c.receipts && c.receipts[lease.attempt] == handle
    ensures Gets(c, d, run, w)
    ensures At(d, run, w, Idle, Calls.CancelOutcome(c.world.db, lease, ok), c.jobs, c.receipts)
  {
    hide ClusterInv, Gets, UnderLease, Lawful;
    var e := Performs(c, run, w, CancelJob(ok));
    if ok {
      d := Marks(e, run, w, lease);
    } else {
      d := LetsGo(e, run, w, lease);
    }
    BothGet(c, e, d, run, w);
  }

  lemma Collects(c: Cluster, run: Runner, w: Name, lease: Lease, handle: nat, s': State, collectable: bool)
    returns (d: Cluster)
    requires At(c, run, w, Fetching(lease, handle), c.world.db, c.jobs, c.receipts) && Holds(c.world.db, lease)
    requires collectable ==> lease.attempt in c.receipts && c.receipts[lease.attempt] == handle
    requires Calls.CollectOutcome(c.world.db, s', lease, handle, collectable, c.jobs, run)
    ensures Gets(c, d, run, w) && At(d, run, w, Idle, s', c.jobs, c.receipts)
  {
    hide Enabled, TransactionLawful, Advance, WorkerStep, ClusterInv, Gets, Fail, Complete, Completes, Holds,
      Calls.OutputsOfJob;
    if collectable {
      var outputs :| Calls.OutputsOfJob(c.world.db, lease.attempt, handle, c.jobs, run, outputs)
        && s' == CompletedOrFailed(c.world.db, lease, outputs);
      d := CollectsThese(c, run, w, lease, handle, outputs);
    } else {
      d := Raises(c, run, w, Fetching(lease, handle));
    }
  }

  ghost function CompletedOrFailed(s: State, lease: Lease, outputs: Values): State {
    if Completes(s, lease, outputs) then Complete(s, lease, outputs) else Fail(s, lease)
  }

  lemma CollectsThese(c: Cluster, run: Runner, w: Name, lease: Lease, handle: nat, outputs: Values)
    returns (d: Cluster)
    requires At(c, run, w, Fetching(lease, handle), c.world.db, c.jobs, c.receipts) && Holds(c.world.db, lease)
    requires lease.attempt in c.receipts && c.receipts[lease.attempt] == handle
    requires Calls.OutputsOfJob(c.world.db, lease.attempt, handle, c.jobs, run, outputs)
    ensures Gets(c, d, run, w)
    ensures At(d, run, w, Idle, CompletedOrFailed(c.world.db, lease, outputs), c.jobs, c.receipts)
  {
    NotDoneYet(c, run, lease);
    hide Enabled, TransactionLawful, Advance, WorkerStep, ClusterInv, Gets, CompletedOrFailed, Holds,
      AlreadySucceeded, Calls.OutputsOfJob;
    var e := FetchesOutputs(c, run, w, lease, handle, outputs);
    d := Finishes(e, run, w, lease, outputs);
    BothGet(c, e, d, run, w);
  }

  lemma Finishes(c: Cluster, run: Runner, w: Name, lease: Lease, outputs: Values) returns (d: Cluster)
    requires At(c, run, w, Completing(lease, outputs), c.world.db, c.jobs, c.receipts)
    requires !AlreadySucceeded(c.world.db, lease)
    ensures Gets(c, d, run, w)
    ensures At(d, run, w, Idle, CompletedOrFailed(c.world.db, lease, outputs), c.jobs, c.receipts)
  {
    NotCompletes(c.world.db, lease, outputs);
    hide ClusterInv, Gets, Fail, Complete, Completes, Lawful;
    var e := Performs(c, run, w, Finish);
    if Completes(c.world.db, lease, outputs) {
      d := e;
    } else {
      d := GivesUp(e, run, w, lease);
      BothGet(c, e, d, run, w);
    }
  }

  lemma NotCompletes(s: State, lease: Lease, outputs: Values)
    ensures !Completes(s, lease, outputs) ==> Complete(s, lease, outputs) == s
  {
    hide Completes;
  }

  lemma NotDoneYet(c: Cluster, run: Runner, lease: Lease)
    requires ClusterInv(c, run) && Holds(c.world.db, lease)
    ensures !AlreadySucceeded(c.world.db, lease)
  {
    InvIsSound(c, run);
    hide ClusterInv, Sound, Holds;
    Calls.HeldIsNotDone(c.world.db, lease);
  }

  lemma InvIsSound(c: Cluster, run: Runner)
    requires ClusterInv(c, run)
    ensures Sound(c.world.db)
  {
  }

  /** What follows a recorded status. */
  lemma Follows(c: Cluster, run: Runner, w: Name, lease: Lease, handle: nat, status: TargetState, s': State,
      collectable: bool) returns (d: Cluster)
    requires At(c, run, w, AfterReport(lease, handle, status), c.world.db, c.jobs, c.receipts)
    requires Holds(c.world.db, lease)
    requires collectable ==> lease.attempt in c.receipts && c.receipts[lease.attempt] == handle
    requires Calls.FollowOutcome(c.world.db, s', lease, handle, status, collectable, c.jobs, run)
    ensures Gets(c, d, run, w) && At(d, run, w, Idle, s', c.jobs, c.receipts)
  {
    hide ClusterInv, Gets, Fail, UnderLease, Calls.CollectOutcome;
    match status
    case TargetSucceeded => d := Collects(c, run, w, lease, handle, s', collectable);
    case TargetFailed => d := GivesUp(c, run, w, lease);
    case TargetCanceled => d := GivesUp(c, run, w, lease);
    case _ => d := LetsGo(c, run, w, lease);
  }

  // ---------- the branch with a handle ----------

  lemma PollsOut(c: Cluster, run: Runner, w: Name, lease: Lease, handle: nat, status: Option<TargetState>, s': State,
      collectable: bool) returns (d: Cluster)
    requires At(c, run, w, Polling(lease, handle), c.world.db, c.jobs, c.receipts) && Holds(c.world.db, lease)
    requires status.Some? ==> lease.attempt in c.receipts && c.receipts[lease.attempt] == handle
    requires Calls.PollOutcome(c.world.db, s', lease, handle, status, collectable, c.jobs, run)
    ensures Gets(c, d, run, w) && At(d, run, w, Idle, s', c.jobs, c.receipts)
  {
    hide Enabled, TransactionLawful, Advance, WorkerStep, ClusterInv, Gets, Fail, UnderLease,
      Calls.FollowOutcome;
    if status.None? {
      d := Raises(c, run, w, Polling(lease, handle));
    } else {
      var e := Polls(c, run, w, lease, handle, status.value);
      Calls.KeepsLease(c.world.db, lease, RecordStatus(status.value));
      d := Follows(e, run, w, lease, handle, status.value, s', collectable);
      BothGet(c, e, d, run, w);
    }
  }

  // ---------- the branch without a handle ----------

  /** `submit` returns: through the receipt, a job found by name, or a new job. */
  lemma SubmitsOne(c: Cluster, run: Runner, w: Name, lease: Lease, inputs: Values, newJob: nat,
      submission: (nat, TargetState), jobs': map<nat, Job>) returns (d: Cluster, receipts: map<AttemptKey, nat>)
    requires At(c, run, w, ReadingReceipt(lease, inputs), c.world.db, c.jobs, c.receipts)
    requires Calls.SubmissionFits(c.jobs, c.receipts, jobs', lease.attempt, inputs, newJob, Some(submission))
    ensures lease.attempt in receipts && receipts[lease.attempt] == submission.0
    ensures Gets(c, d, run, w)
    ensures At(d, run, w, Recording(lease, submission.0, submission.1), c.world.db, jobs', receipts)
  {
    ReceiptMeansJob(c, run, lease.attempt);
    hide Enabled, TransactionLawful, Advance, WorkerStep, ClusterInv, Gets, IsJobOf;
    var (handle, status) := submission;
    FitsMeans(c.jobs, c.receipts, jobs', lease.attempt, inputs, newJob, handle, status);
    hide Calls.SubmissionFits, AnyJob;
    if lease.attempt in c.receipts {
      receipts := c.receipts;
      d := ReadsReceipt(c, run, w, lease, inputs, status);
    } else {
      receipts := c.receipts[lease.attempt := handle];
      if jobs' == c.jobs {
        d := SubmitsFound(c, run, w, lease, inputs, handle, status);
      } else {
        d := SubmitsNew(c, run, w, lease, inputs, handle);
      }
    }
  }

  lemma FitsMeans(jobs: map<nat, Job>, receipts: map<AttemptKey, nat>, jobs': map<nat, Job>, ak: AttemptKey,
      inputs: Values, newJob: nat, handle: nat, status: TargetState)
    requires Calls.SubmissionFits(jobs, receipts, jobs', ak, inputs, newJob, Some((handle, status)))
    requires ak in receipts ==> AnyJob(jobs, ak)
    ensures ak in receipts ==> jobs' == jobs && handle == receipts[ak]
    ensures jobs' == jobs ==> IsJobOf(jobs, handle, ak)
    ensures jobs' != jobs ==> status == TargetQueued && !AnyJob(jobs, ak)
    ensures jobs' != jobs ==> handle !in jobs && jobs' == jobs[handle := Job(ak, inputs)]
  {
  }

  lemma SubmitsFound(c: Cluster, run: Runner, w: Name, lease: Lease, inputs: Values, handle: nat, status: TargetState)
    returns (d: Cluster)
    requires At(c, run, w, ReadingReceipt(lease, inputs), c.world.db, c.jobs, c.receipts)
    requires lease.attempt !in c.receipts && IsJobOf(c.jobs, handle, lease.attempt)
    ensures Gets(c, d, run, w)
    ensures At(d, run, w, Recording(lease, handle, status), c.world.db, c.jobs, c.receipts[lease.attempt := handle])
  {
    hide Enabled, TransactionLawful, Advance, WorkerStep, ClusterInv, Gets, IsJobOf;
    var e := ReadsReceipt(c, run, w, lease, inputs, status);
    d := FindsJob(e, run, w, lease, inputs, status, handle);
    BothGet(c, e, d, run, w);
  }

  lemma SubmitsNew(c: Cluster, run: Runner, w: Name, lease: Lease, inputs: Values, handle: nat) returns (d: Cluster)
    requires At(c, run, w, ReadingReceipt(lease, inputs), c.world.db, c.jobs, c.receipts)
    requires lease.attempt !in c.receipts && !AnyJob(c.jobs, lease.attempt) && handle !in c.jobs
    ensures Gets(c, d, run, w)
    ensures At(d, run, w, Recording(lease, handle, TargetQueued), c.world.db,
      c.jobs[handle := Job(lease.attempt, inputs)], c.receipts[lease.attempt := handle])
  {
    hide Enabled, TransactionLawful, Advance, WorkerStep, ClusterInv, Gets, AnyJob;
    var e := MakesJob(c, run, w, lease, inputs, handle);
    d := WritesReceipt(e, run, w, lease, handle);
    BothGet(c, e, d, run, w);
  }

  lemma ReceiptMeansJob(c: Cluster, run: Runner, ak: AttemptKey)
    requires ClusterInv(c, run)
    ensures ak in c.receipts ==> AnyJob(c.jobs, ak)
  {
    assert ak in c.receipts ==> IsJobOf(c.jobs, c.receipts[ak], ak);
  }

  lemma MakesJob(c: Cluster, run: Runner, w: Name, lease: Lease, inputs: Values, newJob: nat) returns (d: Cluster)
    requires At(c, run, w, ReadingReceipt(lease, inputs), c.world.db, c.jobs, c.receipts)
    requires lease.attempt !in c.receipts && !AnyJob(c.jobs, lease.attempt) && newJob !in c.jobs
    ensures Gets(c, d, run, w)
    ensures At(d, run, w, WritingReceipt(lease, newJob), c.world.db, c.jobs[newJob := Job(lease.attempt, inputs)],
      c.receipts)
  {
    hide Enabled, TransactionLawful, Advance, WorkerStep, ClusterInv, Gets, AnyJob;
    var e := ReadsReceipt(c, run, w, lease, inputs, TargetUnknown);
    var f := FindsNone(e, run, w, lease, inputs);
    d := Submits(f, run, w, lease, inputs, newJob);
    BothGet(c, e, f, run, w);
    BothGet(c, f, d, run, w);
  }

  /** `submit` raises, with a job left behind or without. */
  lemma SubmitsNone(c: Cluster, run: Runner, w: Name, lease: Lease, inputs: Values, newJob: nat,
      jobs': map<nat, Job>) returns (d: Cluster)
    requires At(c, run, w, ReadingReceipt(lease, inputs), c.world.db, c.jobs, c.receipts)
    requires Calls.SubmissionFits(c.jobs, c.receipts, jobs', lease.attempt, inputs, newJob, None)
    ensures Gets(c, d, run, w) && At(d, run, w, Idle, Fail(c.world.db, lease), jobs', c.receipts)
  {
    ReceiptMeansJob(c, run, lease.attempt);
    hide Enabled, TransactionLawful, Advance, WorkerStep, ClusterInv, Gets, Fail, AnyJob;
    if jobs' == c.jobs {
      d := Raises(c, run, w, ReadingReceipt(lease, inputs));
    } else {
      var e := MakesJob(c, run, w, lease, inputs, newJob);
      d := Raises(e, run, w, WritingReceipt(lease, newJob));
      BothGet(c, e, d, run, w);
    }
  }

  /** Recording the handle, and what follows. */
  lemma RecordsOut(c: Cluster, run: Runner, w: Name, lease: Lease, handle: nat, status: TargetState, s': State,
      collectable: bool, cancelable: bool) returns (d: Cluster)
    requires At(c, run, w, Recording(lease, handle, status), c.world.db, c.jobs, c.receipts)
    requires Holds(c.world.db, lease) && lease.attempt in c.receipts && c.receipts[lease.attempt] == handle
    requires var recorded := UnderLease(c.world.db, lease, RecordSubmission(handle, status));
      && lease.attempt in recorded.attempts
      && if recorded.attempts[lease.attempt].state == CancelRequested
        then s' == Calls.CancelOutcome(recorded, lease, cancelable)
        else Calls.FollowOutcome(recorded, s', lease, handle, status, collectable, c.jobs, run)
    ensures Gets(c, d, run, w) && At(d, run, w, Idle, s', c.jobs, c.receipts)
  {
    RecordedState(c.world.db, lease, handle, status);
    Calls.KeepsLease(c.world.db, lease, RecordSubmission(handle, status));
    hide Enabled, TransactionLawful, Advance, WorkerStep, ClusterInv, Gets, UnderLease, Calls.FollowOutcome,
      Calls.CancelOutcome;
    var e := Records(c, run, w, lease, handle, status);
    if e.world.db.attempts[lease.attempt].state == CancelRequested {
      d := CancelsJob(e, run, w, lease, handle, cancelable);
    } else {
      d := Follows(e, run, w, lease, handle, status, s', collectable);
    }
    BothGet(c, e, d, run, w);
  }

  lemma RecordedState(s: State, lease: Lease, handle: nat, status: TargetState)
    requires Holds(s, lease)
    ensures var recorded := UnderLease(s, lease, RecordSubmission(handle, status));
      lease.attempt in recorded.attempts
        && recorded.attempts[lease.attempt].state == StateAfterSubmission(s.attempts[lease.attempt].state, status)
  {
  }

  /** An intent that raises wrote nothing. */
  lemma RaisingIntent(s: State, lease: Lease)
    requires Holds(s, lease) && MarkSubmittingRaises(s.attempts[lease.attempt])
    ensures UnderLease(s, lease, MarkSubmitting) == s
  {
    assert s.attempts[lease.attempt := s.attempts[lease.attempt]] == s.attempts;
    assert s.tasks[lease.attempt.task := s.tasks[lease.attempt.task]] == s.tasks;
  }

  lemma SubmitsOut(c: Cluster, run: Runner, w: Name, lease: Lease, inputs: Values, newJob: nat,
      submission: Option<(nat, TargetState)>, s': State, jobs': map<nat, Job>, collectable: bool, cancelable: bool)
    returns (d: Cluster)
    requires At(c, run, w, Intending(lease, inputs), c.world.db, c.jobs, c.receipts) && Holds(c.world.db, lease)
    requires Calls.SubmissionFits(c.jobs, c.receipts, jobs', lease.attempt, inputs, newJob, submission)
    requires submission.Some? || jobs' != c.jobs ==> !MarkSubmittingRaises(c.world.db.attempts[lease.attempt])
    requires Calls.SubmitOutcome(c.world.db, s', lease, submission, collectable, cancelable, jobs', run)
    ensures Gets(c, d, run, w) && At(d, run, w, Idle, s', jobs', d.receipts)
  {
    hide Enabled, TransactionLawful, Advance, WorkerStep, ClusterInv, Gets, UnderLease, Fail,
      Calls.FollowOutcome, Calls.CancelOutcome, Calls.SubmissionFits;
    if MarkSubmittingRaises(c.world.db.attempts[lease.attempt]) {
      RaisingIntent(c.world.db, lease);
      d := Raises(c, run, w, Intending(lease, inputs));
    } else {
      var e := DeclaresIntent(c, run, w, lease, inputs);
      Calls.KeepsLease(c.world.db, lease, MarkSubmitting);
      if submission.None? {
        d := SubmitsNone(e, run, w, lease, inputs, newJob, jobs');
      } else {
        var f, receipts := SubmitsOne(e, run, w, lease, inputs, newJob, submission.value, jobs');
        d := RecordsOut(f, run, w, lease, submission.value.0, submission.value.1, s', collectable, cancelable);
        BothGet(e, f, d, run, w);
      }
      BothGet(c, e, d, run, w);
    }
  }

  // ---------- the round ----------

  /** What a round of `AsyncWorker` promises is what some run of the worker's program does, from the claim on: the
    * same store, the same jobs, and the worker idle again. */
  lemma RoundIsProgram(c: Cluster, run: Runner, w: Name, lease: Lease, env: Calls.Answers, s': State,
      jobs': map<nat, Job>, submission: Option<(nat, TargetState)>) returns (d: Cluster)
    requires ClusterInv(c, run) && w in c.workers && c.workers[w] == Claimed(lease)
    requires Holds(c.world.db, lease) && c.world.db.attempts[lease.attempt].handle == lease.handle
    requires lease.attempt.task.run in c.world.db.runs && RequestBuilds(c.world.db, lease.attempt.task)
    requires Calls.Proceeds(c.world.db, s', lease, c.jobs, c.receipts, jobs',
      RequestOf(c.world.db, lease.attempt.task), submission, env, run)
    ensures Gets(c, d, run, w) && At(d, run, w, Idle, s', jobs', d.receipts)
  {
    hide Enabled, TransactionLawful, Advance, WorkerStep, ClusterInv, Gets, UnderLease, RequestBuilds,
      RequestOf, Calls.SubmitOutcome, Calls.PollOutcome, Calls.CancelOutcome, Calls.SubmissionFits;
    var s, inputs := c.world.db, RequestOf(c.world.db, lease.attempt.task);
    var f := Starts(c, run, w, lease);
    if s.attempts[lease.attempt].state == CancelRequested {
      if lease.handle.Some? {
        d := CancelsJob(f, run, w, lease, lease.handle.value,
          env.readable && Calls.ReceiptNames(c.receipts, lease) && env.canceled);
      } else {
        d := MarksUnsubmitted(f, run, w, lease);
      }
    } else if lease.handle.None? {
      d := SubmitsOut(f, run, w, lease, inputs, env.newJob, submission, s', jobs', env.collected, env.canceled);
    } else {
      var status := if env.readable && Calls.ReceiptNames(c.receipts, lease) && env.queried
        then Some(env.status)
        else None;
      d := PollsOut(f, run, w, lease, lease.handle.value, status, s', env.collected);
    }
    BothGet(c, f, d, run, w);
  }

  lemma MarksUnsubmitted(c: Cluster, run: Runner, w: Name, lease: Lease) returns (d: Cluster)
    requires At(c, run, w, MarkingCanceled(lease), c.world.db, c.jobs, c.receipts) && Holds(c.world.db, lease)
    ensures Gets(c, d, run, w)
    ensures At(d, run, w, Idle, Calls.CancelOutcome(c.world.db, lease, true), c.jobs, c.receipts)
  {
    hide ClusterInv, Gets, UnderLease;
    d := Marks(c, run, w, lease);
  }

  /** The claim takes this lease and leaves this store. */
  ghost predicate Takes(s: State, s': State, lease: Lease, w: Name, now: int, expires: int) {
    if lease.recovered then
      && lease.attempt in s.attempts && lease.attempt.task in s.tasks && Recoverable(s.attempts[lease.attempt])
      && s' == ClaimRecovered(s, lease.attempt, w, expires) && lease == RecoveredLease(s, lease.attempt, w)
    else
      && lease.attempt.task in s.tasks && lease.attempt.task.run in s.runs && Claimable(s, lease.attempt.task)
      && s' == ClaimFresh(s, lease.attempt.task, w, now, expires)
      && lease == FreshLease(s, lease.attempt.task, w)
  }

  lemma ClaimsOne(s: State, s': State, lease: Lease, w: Name, now: int, seconds: int, targets: Option<set<Name>>,
      classes: Option<set<Name>>)
    requires Transactions.Claimed(s, s', Some(lease), w, now, seconds, targets, classes)
    ensures Takes(s, s', lease, w, now, now + seconds)
  {
    hide ParentsSucceeded, ClaimFresh, ClaimRecovered;
  }

  lemma ClaimsAgain(c: Cluster, run: Runner, w: Name, ak: AttemptKey, expires: int) returns (d: Cluster)
    requires At(c, run, w, Idle, c.world.db, c.jobs, c.receipts)
    requires ak in c.world.db.attempts && ak.task in c.world.db.tasks && Recoverable(c.world.db.attempts[ak])
    ensures Gets(c, d, run, w)
    ensures At(d, run, w, Claimed(RecoveredLease(c.world.db, ak, w)), ClaimRecovered(c.world.db, ak, w, expires),
      c.jobs, c.receipts)
  {
    hide ClusterInv, Gets, ClaimRecovered, Recoverable;
    d := Performs(c, run, w, ClaimAgain(ak, expires));
  }

  lemma ClaimsFreshly(c: Cluster, run: Runner, w: Name, k: TaskKey, now: int, expires: int) returns (d: Cluster)
    requires At(c, run, w, Idle, c.world.db, c.jobs, c.receipts)
    requires k in c.world.db.tasks && k.run in c.world.db.runs && Claimable(c.world.db, k)
    ensures Gets(c, d, run, w)
    ensures At(d, run, w, Claimed(FreshLease(c.world.db, k, w)), ClaimFresh(c.world.db, k, w, now, expires),
      c.jobs, c.receipts)
  {
    hide ClusterInv, Gets, ClaimFresh, Claimable;
    d := Performs(c, run, w, ClaimFreshly(k, now, expires));
  }

  /** The lease a claim hands out is the lease of the move that takes it. */
  lemma ClaimIsMove(c: Cluster, run: Runner, w: Name, lease: Lease, s': State, now: int, expires: int)
    returns (d: Cluster)
    requires At(c, run, w, Idle, c.world.db, c.jobs, c.receipts) && Takes(c.world.db, s', lease, w, now, expires)
    ensures Gets(c, d, run, w) && At(d, run, w, Claimed(lease), s', c.jobs, c.receipts)
  {
    hide At, Gets, ClaimFresh, ClaimRecovered, Claimable, Recoverable, FreshLease, RecoveredLease;
    if lease.recovered {
      d := ClaimsAgain(c, run, w, lease.attempt, expires);
    } else {
      d := ClaimsFreshly(c, run, w, lease.attempt.task, now, expires);
    }
  }

  lemma ClaimAndRound(c: Cluster, run: Runner, w: Name, lease: Lease, env: Calls.Answers, claimed: State,
      s': State, jobs': map<nat, Job>, submission: Option<(nat, TargetState)>, now: int, expires: int)
    returns (d: Cluster)
    requires At(c, run, w, Idle, c.world.db, c.jobs, c.receipts) && Takes(c.world.db, claimed, lease, w, now, expires)
    requires Holds(claimed, lease) && claimed.attempts[lease.attempt].handle == lease.handle
    requires lease.attempt.task.run in claimed.runs && RequestBuilds(claimed, lease.attempt.task)
    requires Calls.Proceeds(claimed, s', lease, c.jobs, c.receipts, jobs', RequestOf(claimed, lease.attempt.task),
      submission, env, run)
    ensures Gets(c, d, run, w) && At(d, run, w, Idle, s', jobs', d.receipts)
  {
    hide ClusterInv, Gets, Takes, Calls.Proceeds, RequestBuilds, RequestOf, Holds;
    var e := ClaimIsMove(c, run, w, lease, claimed, now, expires);
    d := RoundIsProgram(e, run, w, lease, env, s', jobs', submission);
    BothGet(c, e, d, run, w);
  }

  /** An undisturbed `run_once`, after its expiry: claim, request, and everything that follows. */
  lemma RunOnceIsProgram(c: Cluster, run: Runner, w: Name, lease: Lease, env: Calls.Answers, claimed: State,
      s': State, jobs': map<nat, Job>, submission: Option<(nat, TargetState)>, now: int, seconds: int,
      targets: Option<set<Name>>, classes: Option<set<Name>>) returns (d: Cluster)
    requires At(c, run, w, Idle, c.world.db, c.jobs, c.receipts)
    requires Transactions.Claimed(c.world.db, claimed, Some(lease), w, now, seconds, targets, classes)
    requires lease.attempt.task.run in claimed.runs && RequestBuilds(claimed, lease.attempt.task)
    requires Calls.Proceeds(claimed, s', lease, c.jobs, c.receipts, jobs', RequestOf(claimed, lease.attempt.task),
      submission, env, run)
    ensures Gets(c, d, run, w) && At(d, run, w, Idle, s', jobs', d.receipts)
  {
    hide At, Gets, Transactions.Claimed, Takes, Calls.Proceeds, RequestBuilds, RequestOf, Holds;
    Calls.ClaimHolds(c.world.db, claimed, lease, w, now, seconds, targets, classes);
    ClaimsOne(c.world.db, claimed, lease, w, now, seconds, targets, classes);
    d := ClaimAndRound(c, run, w, lease, env, claimed, s', jobs', submission, now, now + seconds);
  }
}
