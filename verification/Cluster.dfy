/** Asynchronous workers, submission receipts and a batch scheduler around the engine. */
module Cluster {
  import opened Names
  import opened Workflows
  import opened Store
  import opened Protocol
  import opened World

  /** A scheduler job. Its name is made from the attempt alone, injectively, so the attempt stands for the name. */
  datatype Job = Job(attempt: AttemptKey, inputs: Values)

  /** Where a worker is in `AsyncWorker.run_once`, with the variables it holds there. */
  datatype Pc =
    | Idle
    | Claimed(lease: Lease)
    | Requested(lease: Lease, inputs: Values)
    | Intending(lease: Lease, inputs: Values)
    | ReadingReceipt(lease: Lease, inputs: Values)
    | LookingUp(lease: Lease, inputs: Values)
    | Sbatching(lease: Lease, inputs: Values)
    | WritingReceipt(lease: Lease, handle: nat)
    | Recording(lease: Lease, handle: nat, target: TargetState)
    | Polling(lease: Lease, handle: nat)
    | Reporting(lease: Lease, handle: nat, target: TargetState)
    | Fetching(lease: Lease, handle: nat)
    | Completing(lease: Lease, outputs: Values)
    | CancelingJob(lease: Lease, handle: nat)
    | MarkingCanceled(lease: Lease)
    | Releasing(lease: Lease)
    | Failing(lease: Lease)

  /** The stages of `SlurmApptainerRunner.submit`. */
  predicate InSubmit(pc: Pc) {
    pc.ReadingReceipt? || pc.LookingUp? || pc.Sbatching? || pc.WritingReceipt?
  }

  /** `receipts` are the submission files on disk; `jobs` is what the scheduler has ever accepted. */
  datatype Cluster = Cluster(world: World, workers: map<Name, Pc>, jobs: map<nat, Job>, receipts: map<AttemptKey, nat>)

  /** One statement of a worker's program. */
  datatype Move =
    | ClaimFreshly(key: TaskKey, now: int, expires: int)
    | ClaimAgain(attempt: AttemptKey, expires: int)
    | BuildRequest
    | CheckState
    | Intend
    | ReadReceipt(status: TargetState)
    | LookUp(status: TargetState, found: Option<nat>)
    | Sbatch(newHandle: nat)
    | WriteReceipt
    | Record
    | Poll(status: TargetState)
    | Report
    | Collect
    | Finish
    | CancelJob(canceled: bool)
    | MarkIt
    | LetGo
    | GiveUp
    | Raise
    | Crash

  // ---------- the program ----------

  /** `find_by_name` sees every job of the attempt, and answers with any of them. */
  predicate HasJob(c: Cluster, ak: AttemptKey) {
    exists h | h in c.jobs :: c.jobs[h].attempt == ak
  }

  /** The move is the next statement, or the exception or crash that replaces it. */
  ghost predicate Enabled(c: Cluster, w: Name, m: Move) {
    w in c.workers && var pc, s := c.workers[w], c.world.db;
    match m
    case ClaimFreshly(key, now, expires) => pc.Idle? && Claimable(s, key)
    case ClaimAgain(ak, expires) => pc.Idle? && ak in s.attempts && ak.task in s.tasks && Recoverable(s.attempts[ak])
    case BuildRequest =>
      pc.Claimed? && pc.lease.attempt.task in s.tasks && pc.lease.attempt.task.run in s.runs
        && RequestBuilds(s, pc.lease.attempt.task)
    case CheckState => pc.Requested? && Holds(s, pc.lease)
    case Intend => pc.Intending? && Holds(s, pc.lease) && !MarkSubmittingRaises(s.attempts[pc.lease.attempt])
    case ReadReceipt(status) => pc.ReadingReceipt?
    case LookUp(status, found) =>
      pc.LookingUp? && if found.Some?
        then found.value in c.jobs && c.jobs[found.value].attempt == pc.lease.attempt
        else !HasJob(c, pc.lease.attempt)
    case Sbatch(h) => pc.Sbatching? && h !in c.jobs
    case WriteReceipt => pc.WritingReceipt?
    case Record => pc.Recording? && Holds(s, pc.lease)
    case Poll(status) => pc.Polling? && pc.lease.attempt in c.receipts && c.receipts[pc.lease.attempt] == pc.handle
    case Report => pc.Reporting? && Holds(s, pc.lease)
    case Collect =>
      pc.Fetching? && pc.lease.attempt in c.receipts && c.receipts[pc.lease.attempt] == pc.handle
        && pc.handle in c.jobs && pc.lease.attempt.task.run in s.runs
        && pc.lease.attempt.task.node in s.runs[pc.lease.attempt.task.run].plan.ops
    case Finish => pc.Completing?
    case CancelJob(canceled) =>
      pc.CancelingJob? && (canceled ==> pc.lease.attempt in c.receipts && c.receipts[pc.lease.attempt] == pc.handle)
    case MarkIt => pc.MarkingCanceled? && Holds(s, pc.lease)
    case LetGo => pc.Releasing? && Holds(s, pc.lease)
    case GiveUp => pc.Failing?
    case Raise => !pc.Idle? && !pc.Claimed? && !pc.Failing?
    case Crash => true
  }

  /** The engine transaction the move performs, if any. */
  ghost function Transaction(c: Cluster, w: Name, m: Move): Option<WorldAction>
    requires Enabled(c, w, m)
  {
    var pc := c.workers[w];
    match m
    case ClaimFreshly(key, now, expires) => Some(Engine(DoClaimFresh(key, w, now, expires)))
    case ClaimAgain(ak, expires) => Some(Engine(DoClaimRecovered(ak, w, expires)))
    case BuildRequest => Some(Build(pc.lease.attempt))
    case Intend => Some(Engine(DoUnderLease(pc.lease, MarkSubmitting)))
    case Record => Some(Engine(DoUnderLease(pc.lease, RecordSubmission(pc.handle, pc.target))))
    case Report => Some(Engine(DoUnderLease(pc.lease, RecordStatus(pc.target))))
    case Finish => Some(Engine(DoComplete(pc.lease, pc.outputs)))
    case MarkIt => Some(Engine(DoUnderLease(pc.lease, MarkCanceled)))
    case LetGo => Some(Engine(DoUnderLease(pc.lease, Release)))
    case GiveUp => Some(Engine(DoFail(pc.lease)))
    case _ => None
  }

  /** What `run_once` does after recording a submission. */
  function AfterRecord(lease: Lease, handle: nat, recorded: AttemptState, target: TargetState): Pc {
    if recorded == CancelRequested then CancelingJob(lease, handle)
    else match target
      case TargetSucceeded => Fetching(lease, handle)
      case TargetFailed => Failing(lease)
      case TargetCanceled => Failing(lease)
      case _ => Releasing(lease)
  }

  /** What `run_once` does after recording a polled status. */
  function AfterReport(lease: Lease, handle: nat, target: TargetState): Pc {
    match target
    case TargetSucceeded => Fetching(lease, handle)
    case TargetFailed => Failing(lease)
    case TargetCanceled => Failing(lease)
    case _ => Releasing(lease)
  }

  /** What `run_once` does with the state it finds its attempt in. */
  function AfterCheck(lease: Lease, inputs: Values, found: AttemptState): Pc {
    if found == CancelRequested
      then (if lease.handle.Some? then CancelingJob(lease, lease.handle.value) else MarkingCanceled(lease))
    else if lease.handle.Some? then Polling(lease, lease.handle.value)
    else Intending(lease, inputs)
  }

  /** `complete_task` returns without a word. */
  predicate AlreadySucceeded(s: State, lease: Lease) {
    lease.attempt.task in s.tasks && s.tasks[lease.attempt.task].state == Succeeded
  }

  function FreshLease(s: State, key: TaskKey, w: Name): Lease
    requires key in s.tasks
  {
    Lease(AttemptKey(key, s.tasks[key].attempt + 1), w, s.nextToken, Leased, None, false)
  }

  function RecoveredLease(s: State, ak: AttemptKey, w: Name): Lease
    requires ak in s.attempts
  {
    Lease(ak, w, s.nextToken, s.attempts[ak].state, s.attempts[ak].handle, true)
  }

  ghost function PcAfter(c: Cluster, w: Name, m: Move, run: Runner): Pc
    requires Enabled(c, w, m)
  {
    var pc, s := c.workers[w], c.world.db;
    match m
    case ClaimFreshly(key, now, expires) => Claimed(FreshLease(s, key, w))
    case ClaimAgain(ak, expires) => Claimed(RecoveredLease(s, ak, w))
    case BuildRequest => Requested(pc.lease, RequestOf(s, pc.lease.attempt.task))
    case CheckState => AfterCheck(pc.lease, pc.inputs, s.attempts[pc.lease.attempt].state)
    case Intend => ReadingReceipt(pc.lease, pc.inputs)
    case ReadReceipt(status) =>
      if pc.lease.attempt in c.receipts
        then Recording(pc.lease, c.receipts[pc.lease.attempt], status)
        else LookingUp(pc.lease, pc.inputs)
    case LookUp(status, found) =>
      if found.Some? then Recording(pc.lease, found.value, status) else Sbatching(pc.lease, pc.inputs)
    case Sbatch(h) => WritingReceipt(pc.lease, h)
    case WriteReceipt => Recording(pc.lease, pc.handle, TargetQueued)
    case Record =>
      AfterRecord(pc.lease, pc.handle, StateAfterSubmission(s.attempts[pc.lease.attempt].state, pc.target), pc.target)
    case Poll(status) => Reporting(pc.lease, pc.handle, status)
    case Report => AfterReport(pc.lease, pc.handle, pc.target)
    case Collect =>
      Completing(pc.lease, run(InvocationOf(s.runs[pc.lease.attempt.task.run].plan, pc.lease.attempt.task.node),
        c.jobs[pc.handle].inputs))
    case Finish =>
      if Completes(s, pc.lease, pc.outputs) || AlreadySucceeded(s, pc.lease) then Idle else Failing(pc.lease)
    case CancelJob(canceled) => if canceled then MarkingCanceled(pc.lease) else Releasing(pc.lease)
    case MarkIt => Idle
    case LetGo => Idle
    case GiveUp => Idle
    case Raise => Failing(pc.lease)
    case Crash => Idle
  }

  function JobsAfter(c: Cluster, w: Name, m: Move): map<nat, Job> {
    if m.Sbatch? && w in c.workers && c.workers[w].Sbatching?
      then c.jobs[m.newHandle := Job(c.workers[w].lease.attempt, c.workers[w].inputs)]
      else c.jobs
  }

  /** The receipt is written after `sbatch`, and again when a job is found by name. */
  function ReceiptsAfter(c: Cluster, w: Name, m: Move): map<AttemptKey, nat> {
    if w !in c.workers then c.receipts
    else if m.WriteReceipt? && c.workers[w].WritingReceipt?
      then c.receipts[c.workers[w].lease.attempt := c.workers[w].handle]
    else if m.LookUp? && c.workers[w].LookingUp? && m.found.Some?
      then c.receipts[c.workers[w].lease.attempt := m.found.value]
    else c.receipts
  }

  ghost predicate TransactionLawful(c: Cluster, w: Name, m: Move, run: Runner)
    requires Enabled(c, w, m)
  {
    Transaction(c, w, m).Some? ==> WorldLawful(c.world, run, Transaction(c, w, m).value)
  }

  ghost function Advance(c: Cluster, w: Name, m: Move, run: Runner): Cluster
    requires Enabled(c, w, m) && TransactionLawful(c, w, m, run)
  {
    var world := if Transaction(c, w, m).Some? then WorldStep(c.world, run, Transaction(c, w, m).value) else c.world;
    Cluster(world, c.workers[w := PcAfter(c, w, m, run)], JobsAfter(c, w, m), ReceiptsAfter(c, w, m))
  }

  // ---------- what happens around the workers ----------

  /** Users submit, cancel and retry; rows expire; cleanup removes receipts; workers start. */
  datatype Outside = User(action: Action) | Cleanup(attempt: AttemptKey) | Start(worker: Name)

  ghost predicate OutsideLawful(c: Cluster, o: Outside) {
    match o
    case User(a) =>
      && Lawful(c.world.db, a)
      && (a.DoRegister? || a.DoAddInput? || a.DoSubmit? || a.DoCancelRun? || a.DoRetryTask? || a.DoExpire?)
    case Cleanup(ak) => true
    case Start(w) => w !in c.workers
  }

  ghost function Around(c: Cluster, o: Outside): Cluster
    requires OutsideLawful(c, o)
  {
    match o
    case User(a) => c.(world := c.world.(db := Step(c.world.db, a)))
    case Cleanup(ak) => c.(receipts := c.receipts - {ak})
    case Start(w) => c.(workers := c.workers[w := Idle])
  }
}
