/** At most one scheduler job per attempt, whatever crashes, and workers keep the engine's discipline. */
module ClusterSafety {
  import opened Names
  import opened Workflows
  import opened Store
  import opened Invariant
  import opened RunControl
  import opened Protocol
  import opened World
  import opened Cluster

  // ---------- what others can do to a held row ----------

  /** A held row is left alone by everybody else, except that a user can ask it to cancel while it has no handle. */
  ghost predicate RowKept(x: Attempt, y: Attempt) {
    y == x || (x.handle.None? && Cancellable(x) && y == x.(state := CancelRequested))
  }

  /** The action does not use the token of `lease`. */
  ghost predicate Foreign(a: Action, lease: Lease) {
    && (a.DoUnderLease? ==> a.lease.token != lease.token)
    && (a.DoComplete? ==> a.lease.token != lease.token)
    && (a.DoFail? ==> a.lease.token != lease.token)
  }

  lemma ForeignKeepsRow(s: State, a: Action, lease: Lease)
    requires AttemptsNumbered(s) && Lawful(s, a) && Foreign(a, lease) && lease.token < s.nextToken
      && Holds(Step(s, a), lease)
    ensures Holds(s, lease) && RowKept(s.attempts[lease.attempt], Step(s, a).attempts[lease.attempt])
  {
    if a.DoCancelRun? {
      CancelKeepsRow(s, a.run, a.order, lease);
    } else if a.DoComplete? || a.DoFail? {
      CloseKeepsRow(s, a, lease);
    } else {
      hide Accepted, Claimable, Submittable, RetryLawful, Downstream, CancelRun, ResetTask, FreshTask, NewTasks,
        Complete, Fail, EventFor;
    }
  }

  lemma CloseKeepsRow(s: State, a: Action, lease: Lease)
    requires (a.DoComplete? || a.DoFail?) && Foreign(a, lease) && Lawful(s, a) && Holds(Step(s, a), lease)
    ensures Holds(s, lease) && RowKept(s.attempts[lease.attempt], Step(s, a).attempts[lease.attempt])
  {
    hide OutputsMatch, AllSucceeded, RunOutputs, RunOutputsRaise, OutputRows, OutputIds;
  }

  lemma CancelKeepsRow(s: State, r: nat, order: seq<AttemptKey>, lease: Lease)
    requires Holds(CancelRun(s, r, order), lease)
    ensures Holds(s, lease) && RowKept(s.attempts[lease.attempt], CancelRun(s, r, order).attempts[lease.attempt])
  {
  }

  // ---------- the invariant ----------

  predicate IsJobOf(jobs: map<nat, Job>, h: nat, ak: AttemptKey) {
    h in jobs && jobs[h].attempt == ak
  }

  predicate AnyJob(jobs: map<nat, Job>, ak: AttemptKey) {
    exists h | h in jobs :: jobs[h].attempt == ak
  }

  /** Every attempt has at most one job. */
  ghost predicate JobsOnce(jobs: map<nat, Job>) {
    forall g, h {:trigger g in jobs, h in jobs} :: g in jobs && h in jobs && jobs[g].attempt == jobs[h].attempt ==>
      g == h
  }

  /** The outputs are what the runner makes of a request built for the attempt. */
  ghost predicate ResultOfRequest(s: State, handed: set<Handed>, run: Runner, ak: AttemptKey, outputs: Values) {
    && ak.task.run in s.runs && ak.task.node in s.runs[ak.task.run].plan.ops
    && exists h ::
      h in handed && h.attempt == ak && outputs == run(InvocationOf(s.runs[ak.task.run].plan, ak.task.node), h.inputs)
  }

  /** What a worker may rely on where it stands: about its row only while it still holds it, and inside `submit` that
    * the intent was declared. */
  ghost predicate PcSound(s: State, handed: set<Handed>, jobs: map<nat, Job>, run: Runner, pc: Pc) {
    pc.Idle? || (
      var ak := pc.lease.attempt;
      && pc.lease.token < s.nextToken
      && (InSubmit(pc) ==> ak in s.attempts && s.attempts[ak].state != Leased && s.attempts[ak].state != Abandoned)
      && match pc
         case Claimed(lease) => Holds(s, lease) ==> s.attempts[ak].handle == lease.handle
         case Requested(lease, inputs) =>
           Handed(ak, inputs) in handed && (Holds(s, lease) ==> s.attempts[ak].handle == lease.handle)
         case Intending(lease, inputs) =>
           Handed(ak, inputs) in handed && (Holds(s, lease) ==> s.attempts[ak].handle.None?)
         case ReadingReceipt(lease, inputs) => Handed(ak, inputs) in handed
         case LookingUp(lease, inputs) => Handed(ak, inputs) in handed
         case Sbatching(lease, inputs) => Handed(ak, inputs) in handed
         case WritingReceipt(lease, h) => IsJobOf(jobs, h, ak)
         case Recording(lease, h, target) => IsJobOf(jobs, h, ak)
         case Polling(lease, h) =>
           IsJobOf(jobs, h, ak)
             && (Holds(s, lease) ==> s.attempts[ak].handle.Some? && s.attempts[ak].state != CancelRequested)
         case Reporting(lease, h, target) =>
           IsJobOf(jobs, h, ak)
             && (Holds(s, lease) ==> s.attempts[ak].handle.Some? && s.attempts[ak].state != CancelRequested)
         case Fetching(lease, h) => IsJobOf(jobs, h, ak)
         case Completing(lease, outputs) => ResultOfRequest(s, handed, run, ak, outputs)
         case CancelingJob(lease, h) =>
           Holds(s, lease) ==> s.attempts[ak].handle.Some? && s.attempts[ak].state == CancelRequested
         case MarkingCanceled(lease) => Holds(s, lease) ==> s.attempts[ak].state == CancelRequested
         case Releasing(lease) => Holds(s, lease) ==> s.attempts[ak].handle.Some?
         case Failing(lease) => true)
  }

  /** A job belongs to an attempt that declared its intent to submit, never to an abandoned one, and runs a request
    * built for it. */
  ghost predicate JobsGrounded(s: State, handed: set<Handed>, jobs: map<nat, Job>) {
    forall h {:trigger h in jobs} :: h in jobs ==>
      jobs[h].attempt in s.attempts && s.attempts[jobs[h].attempt].state != Leased
        && s.attempts[jobs[h].attempt].state != Abandoned
      && Handed(jobs[h].attempt, jobs[h].inputs) in handed
  }

  /** The handle recorded for an attempt is its job. */
  ghost predicate HandlesAgree(s: State, jobs: map<nat, Job>) {
    forall ak {:trigger ak in s.attempts} :: ak in s.attempts && s.attempts[ak].handle.Some? ==>
      IsJobOf(jobs, s.attempts[ak].handle.value, ak)
  }

  /** The receipt of an attempt names its job. */
  ghost predicate ReceiptsAgree(receipts: map<AttemptKey, nat>, jobs: map<nat, Job>) {
    forall ak {:trigger ak in receipts} :: ak in receipts ==> IsJobOf(jobs, receipts[ak], ak)
  }

  /** No two workers hold leases with the same token. */
  ghost predicate LeasesApart(workers: map<Name, Pc>) {
    forall v, w {:trigger workers[v], workers[w]} ::
      v in workers && w in workers && v != w && !workers[v].Idle? && !workers[w].Idle? ==>
      workers[v].lease.token != workers[w].lease.token
  }

  ghost predicate WorkersSound(c: Cluster, run: Runner) {
    forall w {:trigger w in c.workers} :: w in c.workers ==>
      PcSound(c.world.db, c.world.handed, c.jobs, run, c.workers[w])
  }

  ghost predicate ClusterInv(c: Cluster, run: Runner) {
    && Means(c.world, run)
    && LeasesApart(c.workers)
    && WorkersSound(c, run)
    && JobsGrounded(c.world.db, c.world.handed, c.jobs)
    && HandlesAgree(c.world.db, c.jobs)
    && ReceiptsAgree(c.receipts, c.jobs)
  }

  /** What a worker relies on survives a step in which its row is kept or lost, intents stand, and nothing is taken
    * away. */
  lemma PcStable(s: State, s': State, handed: set<Handed>, handed': set<Handed>, jobs: map<nat, Job>,
      jobs': map<nat, Job>, run: Runner, pc: Pc)
    requires PcSound(s, handed, jobs, run, pc) && !pc.Idle?
    requires handed <= handed' && s.nextToken <= s'.nextToken && RunsFixed(s, s') && IntentKept(s, s')
    requires forall h {:trigger h in jobs} :: h in jobs ==> h in jobs' && jobs'[h] == jobs[h]
    requires Holds(s', pc.lease) ==>
      Holds(s, pc.lease) && RowKept(s.attempts[pc.lease.attempt], s'.attempts[pc.lease.attempt])
    ensures PcSound(s', handed', jobs', run, pc)
  {
  }

  // ---------- a worker's statement keeps the engine's discipline ----------

  lemma AdvanceIsLawful(c: Cluster, w: Name, m: Move, run: Runner)
    requires ClusterInv(c, run) && Enabled(c, w, m)
    ensures TransactionLawful(c, w, m, run)
  {
    hide Means, LeasesApart, JobsGrounded, HandlesAgree, ReceiptsAgree, Claimable, RequestBuilds, Completes;
    assert PcSound(c.world.db, c.world.handed, c.jobs, run, c.workers[w]);
  }

  // ---------- what a world step does to rows ----------

  /** Attempts stay, and none that declared its intent to submit is ever leased or abandoned again. */
  ghost predicate IntentKept(s: State, s': State) {
    forall ak {:trigger ak in s.attempts} {:trigger s'.attempts[ak]} :: ak in s.attempts ==>
      ak in s'.attempts
        && (s.attempts[ak].state != Leased && s.attempts[ak].state != Abandoned ==>
          s'.attempts[ak].state != Leased && s'.attempts[ak].state != Abandoned)
  }

  lemma MovesKeepIntent(s: State, s': State)
    requires Moves(s, s')
    ensures IntentKept(s, s') && s.nextToken <= s'.nextToken
  {
    hide Accepted, LogFollows, ArtifactsFollow, RunOutputsMapped, AllSucceeded, ParentsSucceeded,
      TokenFollows, TaskAgrees, AttemptSound;
    if r :| CancelsRun(s, s', r) {
      forall ak | ak in s.attempts
        ensures ak in s'.attempts && (s'.attempts[ak] == s.attempts[ak] || s'.attempts[ak].state == CancelRequested)
      {
        assert s'.attempts[ak] == if ak.task.run == r then CancelAttempt(s.attempts[ak]) else s.attempts[ak];
      }
    }
  }

  lemma WorldMoves(w: World, run: Runner, a: WorldAction)
    requires Means(w, run) && WorldLawful(w, run, a)
    ensures var w' := WorldStep(w, run, a);
      && Means(w', run) && w.handed <= w'.handed && RunsFixed(w.db, w'.db) && IntentKept(w.db, w'.db)
        && w.db.nextToken <= w'.db.nextToken
  {
    hide Means, Sound, Lawful, Step, Moves, HonestResult, IntentKept;
    WorldStepMeans(w, run, a);
    if a.Engine? {
      MeansParts(w, run);
      StepMoves(w.db, a.action);
      MovesFixRuns(w.db, WorldStep(w, run, a).db);
      MovesKeepIntent(w.db, WorldStep(w, run, a).db);
    } else {
      SameIntent(w.db);
    }
  }

  lemma SameIntent(s: State)
    ensures IntentKept(s, s) && RunsFixed(s, s)
  {
  }

  lemma MeansParts(w: World, run: Runner)
    requires Means(w, run)
    ensures Inv(w.db) && PlansSound(w.db) && AttemptsNumbered(w.db)
  {
  }

  /** No attempt of `after` has a handle that `before` does not show. */
  ghost predicate NoNewHandle(before: map<AttemptKey, Attempt>, after: map<AttemptKey, Attempt>) {
    forall ak {:trigger ak in after} :: ak in after && after[ak].handle.Some? ==>
      ak in before && before[ak].handle == after[ak].handle
  }

  lemma RowStepKeepsHandles(s: State, a: Action)
    requires Lawful(s, a) && (a.DoExpire? || (a.DoUnderLease? && !a.op.RecordSubmission?))
    ensures NoNewHandle(s.attempts, Step(s, a).attempts)
  {
    hide TaskAfter, TaskAfterExpiry, EventFor, OpLawful;
  }

  lemma ClaimKeepsHandles(s: State, a: Action)
    requires Lawful(s, a) && (a.DoClaimFresh? || a.DoClaimRecovered? || a.DoCancelRun?)
    ensures NoNewHandle(s.attempts, Step(s, a).attempts)
  {
    hide ParentsSucceeded, Recoverable, ListsCancellable, CancelTask;
  }

  lemma CloseKeepsHandles(s: State, a: Action)
    requires Lawful(s, a) && (a.DoComplete? || a.DoFail?)
    ensures NoNewHandle(s.attempts, Step(s, a).attempts)
  {
    hide OutputsMatch, AllSucceeded, RunOutputs, RunOutputsRaise, OutputRows, OutputIds;
  }

  /** Only recording a submission gives an attempt a handle. */
  lemma HandlesKept(s: State, a: Action)
    requires Lawful(s, a) && !(a.DoUnderLease? && a.op.RecordSubmission?)
    ensures NoNewHandle(s.attempts, Step(s, a).attempts)
  {
    hide Lawful, ExpireRow, UnderLease, ClaimFresh, ClaimRecovered, CancelRun, Complete, Fail, Accepted,
      Submittable, Downstream;
    if a.DoUnderLease? || a.DoExpire? {
      RowStepKeepsHandles(s, a);
    } else if a.DoClaimFresh? || a.DoClaimRecovered? || a.DoCancelRun? {
      ClaimKeepsHandles(s, a);
    } else if a.DoComplete? || a.DoFail? {
      CloseKeepsHandles(s, a);
    } else {
      OthersKeepAttempts(s, a);
    }
  }

  lemma OthersKeepAttempts(s: State, a: Action)
    requires Lawful(s, a) && (a.DoRegister? || a.DoAddInput? || a.DoSubmit? || a.DoRetryTask?)
    ensures Step(s, a).attempts == s.attempts
  {
    hide Accepted, Submittable, Downstream, RetryLawful;
  }

  // ---------- the other workers ----------

  /** A foreign step leaves what another worker relies on. */
  lemma OtherWorkerStable(w: World, run: Runner, a: WorldAction, jobs: map<nat, Job>, jobs': map<nat, Job>, pc: Pc)
    requires Means(w, run) && WorldLawful(w, run, a) && PcSound(w.db, w.handed, jobs, run, pc) && !pc.Idle?
    requires a.Engine? ==> Foreign(a.action, pc.lease)
    requires forall h {:trigger h in jobs} :: h in jobs ==> h in jobs' && jobs'[h] == jobs[h]
    ensures PcSound(WorldStep(w, run, a).db, WorldStep(w, run, a).handed, jobs', run, pc)
  {
    hide Means, Lawful, Step, Moves, HonestResult, IntentKept, RowKept, Foreign, Holds, Inv, PlansSound, PcSound;
    var w' := WorldStep(w, run, a);
    WorldMoves(w, run, a);
    MeansParts(w, run);
    if a.Engine? {
      if Holds(w'.db, pc.lease) {
        TokenKnown(w, run, jobs, pc);
        ForeignKeepsRow(w.db, a.action, pc.lease);
      }
    } else if Holds(w.db, pc.lease) {
      SameRowKept(w.db, pc.lease);
    }
    PcStable(w.db, w'.db, w.handed, w'.handed, jobs, jobs', run, pc);
  }

  lemma TokenKnown(w: World, run: Runner, jobs: map<nat, Job>, pc: Pc)
    requires PcSound(w.db, w.handed, jobs, run, pc) && !pc.Idle?
    ensures pc.lease.token < w.db.nextToken
  {
  }

  lemma SameRowKept(s: State, lease: Lease)
    requires Holds(s, lease)
    ensures lease.attempt in s.attempts && RowKept(s.attempts[lease.attempt], s.attempts[lease.attempt])
  {
  }

  // ---------- the worker that moves ----------

  ghost predicate OwnSound(c: Cluster, w: Name, m: Move, run: Runner)
    requires Enabled(c, w, m) && TransactionLawful(c, w, m, run)
  {
    var d := Advance(c, w, m, run);
    PcSound(d.world.db, d.world.handed, d.jobs, run, d.workers[w])
  }

  lemma OwnClaim(c: Cluster, w: Name, m: Move, run: Runner)
    requires Enabled(c, w, m) && TransactionLawful(c, w, m, run) && (m.ClaimFreshly? || m.ClaimAgain?)
    ensures OwnSound(c, w, m, run)
  {
    hide Claimable, Recoverable;
  }

  lemma OwnBuild(c: Cluster, w: Name, m: Move, run: Runner)
    requires Enabled(c, w, m) && TransactionLawful(c, w, m, run) && (m.BuildRequest? || m.CheckState?)
    requires PcSound(c.world.db, c.world.handed, c.jobs, run, c.workers[w]) && HandlesAgree(c.world.db, c.jobs)
    ensures OwnSound(c, w, m, run)
  {
    hide RequestBuilds, RequestOf;
  }

  lemma OwnSubmit(c: Cluster, w: Name, m: Move, run: Runner)
    requires Enabled(c, w, m) && TransactionLawful(c, w, m, run)
      && (m.ReadReceipt? || m.LookUp? || m.Sbatch? || m.WriteReceipt?)
    requires PcSound(c.world.db, c.world.handed, c.jobs, run, c.workers[w]) && ReceiptsAgree(c.receipts, c.jobs)
    ensures OwnSound(c, w, m, run)
  {
  }

  lemma OwnIntend(c: Cluster, w: Name, m: Move, run: Runner)
    requires Enabled(c, w, m) && TransactionLawful(c, w, m, run) && m.Intend?
    requires PcSound(c.world.db, c.world.handed, c.jobs, run, c.workers[w])
    ensures OwnSound(c, w, m, run)
  {
  }

  lemma OwnRecord(c: Cluster, w: Name, m: Move, run: Runner)
    requires Enabled(c, w, m) && TransactionLawful(c, w, m, run) && m.Record?
    requires PcSound(c.world.db, c.world.handed, c.jobs, run, c.workers[w])
    ensures OwnSound(c, w, m, run)
  {
    var s, lease := c.world.db, c.workers[w].lease;
    var s' := Advance(c, w, m, run).world.db;
    assert s'.attempts[lease.attempt] ==
      AttemptAfter(s.attempts[lease.attempt], RecordSubmission(c.workers[w].handle, c.workers[w].target));
  }

  lemma OwnReport(c: Cluster, w: Name, m: Move, run: Runner)
    requires Enabled(c, w, m) && TransactionLawful(c, w, m, run) && m.Report?
    requires PcSound(c.world.db, c.world.handed, c.jobs, run, c.workers[w])
    ensures OwnSound(c, w, m, run)
  {
    var s, lease := c.world.db, c.workers[w].lease;
    var s' := Advance(c, w, m, run).world.db;
    assert s'.attempts[lease.attempt] == AttemptAfter(s.attempts[lease.attempt], RecordStatus(c.workers[w].target));
  }

  lemma OwnRest(c: Cluster, w: Name, m: Move, run: Runner)
    requires Enabled(c, w, m) && TransactionLawful(c, w, m, run)
    requires m.Poll? || m.Collect? || m.CancelJob? || m.Raise? || m.Crash?
    requires PcSound(c.world.db, c.world.handed, c.jobs, run, c.workers[w])
      && JobsGrounded(c.world.db, c.world.handed, c.jobs)
    ensures OwnSound(c, w, m, run)
  {
  }

  lemma OwnWorker(c: Cluster, w: Name, m: Move, run: Runner)
    requires ClusterInv(c, run) && Enabled(c, w, m) && TransactionLawful(c, w, m, run)
    ensures OwnSound(c, w, m, run)
  {
    hide Enabled, TransactionLawful, PcSound, Means, LeasesApart, JobsGrounded, HandlesAgree, ReceiptsAgree;
    WorkerIsSound(c, w, m, run);
    match m
    case ClaimFreshly(_, _, _) => OwnClaim(c, w, m, run);
    case ClaimAgain(_, _) => OwnClaim(c, w, m, run);
    case BuildRequest => OwnBuild(c, w, m, run);
    case CheckState => OwnBuild(c, w, m, run);
    case Intend => OwnIntend(c, w, m, run);
    case ReadReceipt(_) => OwnSubmit(c, w, m, run);
    case LookUp(_, _) => OwnSubmit(c, w, m, run);
    case Sbatch(_) => OwnSubmit(c, w, m, run);
    case WriteReceipt => OwnSubmit(c, w, m, run);
    case Record => OwnRecord(c, w, m, run);
    case Report => OwnReport(c, w, m, run);
    case Poll(_) => OwnRest(c, w, m, run);
    case Collect => OwnRest(c, w, m, run);
    case CancelJob(_) => OwnRest(c, w, m, run);
    case Raise => OwnRest(c, w, m, run);
    case Crash => OwnRest(c, w, m, run);
    case _ => OwnEnd(c, w, m, run);
  }

  lemma WorkerIsSound(c: Cluster, w: Name, m: Move, run: Runner)
    requires WorkersSound(c, run) && Enabled(c, w, m)
    ensures w in c.workers && PcSound(c.world.db, c.world.handed, c.jobs, run, c.workers[w])
  {
  }

  lemma OwnEnd(c: Cluster, w: Name, m: Move, run: Runner)
    requires Means(c.world, run) && Enabled(c, w, m) && TransactionLawful(c, w, m, run)
      && (m.Finish? || m.MarkIt? || m.LetGo? || m.GiveUp?)
    requires PcSound(c.world.db, c.world.handed, c.jobs, run, c.workers[w])
    ensures OwnSound(c, w, m, run)
  {
    hide Means, WorldStep, Completes, WorldLawful, AttemptsNumbered, HonestResult, Lawful;
    WorldMoves(c.world, run, Transaction(c, w, m).value);
  }

  // ---------- jobs, handles and receipts ----------

  lemma AdvanceJobs(c: Cluster, w: Name, m: Move, run: Runner)
    requires ClusterInv(c, run) && Enabled(c, w, m)
    ensures forall h {:trigger h in c.jobs} :: h in c.jobs ==>
      h in JobsAfter(c, w, m) && JobsAfter(c, w, m)[h] == c.jobs[h]
    ensures ReceiptsAgree(ReceiptsAfter(c, w, m), JobsAfter(c, w, m))
  {
    hide Means, LeasesApart, JobsGrounded, HandlesAgree, Claimable, Completes, RequestBuilds, Holds;
    WorkerIsSound(c, w, m, run);
  }

  lemma AdvanceGrounded(c: Cluster, w: Name, m: Move, run: Runner)
    requires ClusterInv(c, run) && Enabled(c, w, m) && TransactionLawful(c, w, m, run)
    ensures var d := Advance(c, w, m, run); JobsGrounded(d.world.db, d.world.handed, d.jobs)
  {
    hide Means, LeasesApart, JobsGrounded, ReceiptsAgree, HandlesAgree, Advance, PcAfter, Transaction,
      WorldStep, WorldLawful, TransactionLawful, WorkersSound, Enabled, IntentKept, RunsFixed, ReceiptsAfter;
    var d := Advance(c, w, m, run);
    SettledWorld(c, w, m, run);
    JobsStayGrounded(c.world.db, d.world.db, c.world.handed, d.world.handed, c.jobs);
    if m.Sbatch? {
      WorkerIsSound(c, w, m, run);
      NewJobGrounded(c, w, m, run);
    }
  }

  /** The world after a worker's move, whether or not it performed a transaction. */
  lemma SettledWorld(c: Cluster, w: Name, m: Move, run: Runner)
    requires Means(c.world, run) && Enabled(c, w, m) && TransactionLawful(c, w, m, run)
    ensures var d := Advance(c, w, m, run);
      && Means(d.world, run) && c.world.handed <= d.world.handed && RunsFixed(c.world.db, d.world.db)
        && IntentKept(c.world.db, d.world.db)
      && c.world.db.nextToken <= d.world.db.nextToken
      && d.jobs == JobsAfter(c, w, m) && d.receipts == ReceiptsAfter(c, w, m)
        && d.workers == c.workers[w := PcAfter(c, w, m, run)]
      && (Transaction(c, w, m).None? ==> d.world == c.world)
  {
    hide Means, WorldStep, WorldLawful, Enabled, PcAfter, RunsFixed, IntentKept;
    SameIntent(c.world.db);
    if Transaction(c, w, m).Some? {
      WorldMoves(c.world, run, Transaction(c, w, m).value);
    }
  }

  lemma JobsStayGrounded(s: State, s': State, handed: set<Handed>, handed': set<Handed>, jobs: map<nat, Job>)
    requires JobsGrounded(s, handed, jobs) && IntentKept(s, s') && handed <= handed'
    ensures JobsGrounded(s', handed', jobs)
  {
  }

  lemma NewJobGrounded(c: Cluster, w: Name, m: Move, run: Runner)
    requires Enabled(c, w, m) && m.Sbatch?
      && PcSound(c.world.db, c.world.handed, c.jobs, run, c.workers[w])
      && JobsGrounded(c.world.db, c.world.handed, c.jobs)
    ensures JobsGrounded(c.world.db, c.world.handed, JobsAfter(c, w, m)) && Transaction(c, w, m).None?
  {
  }

  lemma AdvanceHandles(c: Cluster, w: Name, m: Move, run: Runner)
    requires ClusterInv(c, run) && Enabled(c, w, m) && TransactionLawful(c, w, m, run)
    ensures var d := Advance(c, w, m, run); HandlesAgree(d.world.db, d.jobs)
  {
    hide Means, LeasesApart, JobsGrounded, ReceiptsAgree, HandlesAgree, PcAfter, WorldStep, WorldLawful,
      WorkersSound, IntentKept, RunsFixed, ReceiptsAfter, JobsAfter, PcSound, Inv, PlansSound, AttemptsNumbered,
        Enabled;
    WorkerIsSound(c, w, m, run);
    MeansParts(c.world, run);
    if m.Record? {
      RecordAgrees(c, w, m, run);
    } else if Transaction(c, w, m).Some? && Transaction(c, w, m).value.Engine? {
      TransactionKeepsHandles(c, w, m, run);
    } else {
      QuietKeepsHandles(c, w, m, run);
    }
  }

  lemma QuietKeepsHandles(c: Cluster, w: Name, m: Move, run: Runner)
    requires Enabled(c, w, m) && TransactionLawful(c, w, m, run)
      && (Transaction(c, w, m).Some? ==> Transaction(c, w, m).value.Build?)
    requires HandlesAgree(c.world.db, c.jobs)
    ensures HandlesAgree(Advance(c, w, m, run).world.db, JobsAfter(c, w, m))
  {
    hide PcAfter, Lawful, Step, HonestResult;
  }

  lemma TransactionKeepsHandles(c: Cluster, w: Name, m: Move, run: Runner)
    requires Enabled(c, w, m) && TransactionLawful(c, w, m, run) && !m.Record?
      && Transaction(c, w, m).Some? && Transaction(c, w, m).value.Engine?
    requires AttemptsNumbered(c.world.db) && HandlesAgree(c.world.db, c.jobs)
    ensures HandlesAgree(Advance(c, w, m, run).world.db, JobsAfter(c, w, m))
  {
    hide Step, Lawful, HonestResult, AttemptsNumbered;
    HandlesKept(c.world.db, Transaction(c, w, m).value.action);
  }

  lemma RecordAgrees(c: Cluster, w: Name, m: Move, run: Runner)
    requires Enabled(c, w, m) && TransactionLawful(c, w, m, run) && m.Record?
    requires PcSound(c.world.db, c.world.handed, c.jobs, run, c.workers[w]) && HandlesAgree(c.world.db, c.jobs)
    ensures HandlesAgree(Advance(c, w, m, run).world.db, JobsAfter(c, w, m))
  {
  }

  // ---------- the invariant is kept ----------

  lemma AdvanceOthers(c: Cluster, w: Name, m: Move, run: Runner, v: Name)
    requires ClusterInv(c, run) && Enabled(c, w, m) && TransactionLawful(c, w, m, run) && v in c.workers
      && v != w && !c.workers[v].Idle?
    ensures var d := Advance(c, w, m, run); PcSound(d.world.db, d.world.handed, d.jobs, run, c.workers[v])
  {
    hide Means, JobsGrounded, ReceiptsAgree, HandlesAgree, PcAfter, PcSound, ReceiptsAfter, JobsAfter,
      WorldStep, WorldLawful;
    assert PcSound(c.world.db, c.world.handed, c.jobs, run, c.workers[v]);
    AdvanceJobs(c, w, m, run);
    var jobs', pc := JobsAfter(c, w, m), c.workers[v];
    if Transaction(c, w, m).Some? {
      TransactionIsForeign(c, w, m, run, v);
      OtherWorkerStable(c.world, run, Transaction(c, w, m).value, c.jobs, jobs', pc);
    } else {
      JobsOnlyStable(c.world.db, c.world.handed, c.jobs, jobs', run, pc);
    }
  }

  lemma JobsOnlyStable(s: State, handed: set<Handed>, jobs: map<nat, Job>, jobs': map<nat, Job>, run: Runner, pc: Pc)
    requires PcSound(s, handed, jobs, run, pc) && !pc.Idle?
    requires forall h {:trigger h in jobs} :: h in jobs ==> h in jobs' && jobs'[h] == jobs[h]
    ensures PcSound(s, handed, jobs', run, pc)
  {
  }

  lemma TransactionIsForeign(c: Cluster, w: Name, m: Move, run: Runner, v: Name)
    requires LeasesApart(c.workers) && Enabled(c, w, m) && v in c.workers && v != w
      && !c.workers[v].Idle? && Transaction(c, w, m).Some?
    ensures var a := Transaction(c, w, m).value;
      a.Engine? ==> Foreign(a.action, c.workers[v].lease) && !a.action.DoExpire?
  {
  }

  /** A move keeps the worker's lease, drops it, or takes one with the next token. */
  lemma MoveKeepsToken(c: Cluster, w: Name, m: Move, run: Runner)
    requires Enabled(c, w, m)
    ensures w in c.workers
    ensures var pc, pc' := c.workers[w], PcAfter(c, w, m, run);
      pc'.Idle? || pc'.lease.token == c.world.db.nextToken || (!pc.Idle? && pc'.lease.token == pc.lease.token)
  {
    hide Claimable, RequestBuilds, RequestOf, Completes, HasJob, Holds;
  }

  lemma AdvanceLeases(c: Cluster, w: Name, m: Move, run: Runner)
    requires ClusterInv(c, run) && Enabled(c, w, m)
    ensures LeasesApart(c.workers[w := PcAfter(c, w, m, run)])
  {
    hide Means, JobsGrounded, ReceiptsAgree, HandlesAgree, Enabled, PcAfter;
    MoveKeepsToken(c, w, m, run);
    forall v | v in c.workers && !c.workers[v].Idle? ensures c.workers[v].lease.token < c.world.db.nextToken {
      assert PcSound(c.world.db, c.world.handed, c.jobs, run, c.workers[v]);
    }
    hide PcSound;
  }

  /** A worker's move keeps everything. */
  lemma AdvanceKeepsInv(c: Cluster, w: Name, m: Move, run: Runner)
    requires ClusterInv(c, run) && Enabled(c, w, m)
    ensures TransactionLawful(c, w, m, run) && ClusterInv(Advance(c, w, m, run), run)
  {
    AdvanceIsLawful(c, w, m, run);
    hide Means, JobsGrounded, ReceiptsAgree, HandlesAgree, LeasesApart, PcSound, Enabled, TransactionLawful,
      PcAfter, Transaction, JobsAfter, ReceiptsAfter, RunsFixed, IntentKept, Advance;
    var d := Advance(c, w, m, run);
    SettledWorld(c, w, m, run);
    AdvanceJobs(c, w, m, run);
    AdvanceGrounded(c, w, m, run);
    AdvanceHandles(c, w, m, run);
    AdvanceLeases(c, w, m, run);
    forall v | v in d.workers ensures PcSound(d.world.db, d.world.handed, d.jobs, run, d.workers[v]) {
      EachWorkerSound(c, w, m, run, v);
    }
  }

  lemma EachWorkerSound(c: Cluster, w: Name, m: Move, run: Runner, v: Name)
    requires ClusterInv(c, run) && Enabled(c, w, m) && TransactionLawful(c, w, m, run)
      && v in Advance(c, w, m, run).workers
    ensures var d := Advance(c, w, m, run); PcSound(d.world.db, d.world.handed, d.jobs, run, d.workers[v])
  {
    hide Means, JobsGrounded, ReceiptsAgree, HandlesAgree, LeasesApart, PcSound, Enabled, TransactionLawful,
      PcAfter, Transaction, JobsAfter, ReceiptsAfter;
    if v == w {
      OwnWorker(c, w, m, run);
    } else if c.workers[v].Idle? {
      var d := Advance(c, w, m, run);
      IdleSound(d.world.db, d.world.handed, d.jobs, run);
    } else {
      AdvanceOthers(c, w, m, run, v);
    }
  }

  lemma IdleSound(s: State, handed: set<Handed>, jobs: map<nat, Job>, run: Runner)
    ensures PcSound(s, handed, jobs, run, Idle)
  {
  }

  lemma UserIsForeign(c: Cluster, o: Outside, w: Name)
    requires OutsideLawful(c, o) && o.User? && w in c.workers && !c.workers[w].Idle?
    ensures Foreign(o.action, c.workers[w].lease)
    ensures !(o.action.DoUnderLease? && o.action.op.RecordSubmission?)
  {
  }

  lemma UserLawful(c: Cluster, o: Outside, run: Runner)
    requires OutsideLawful(c, o) && o.User?
    ensures WorldLawful(c.world, run, Engine(o.action)) && !o.action.DoUnderLease?
  {
  }

  /** Users, expiry, cleanup and new workers keep everything. */
  lemma AroundKeepsInv(c: Cluster, o: Outside, run: Runner)
    requires ClusterInv(c, run) && OutsideLawful(c, o)
    ensures ClusterInv(Around(c, o), run)
  {
    hide Means, JobsGrounded, HandlesAgree, PcSound, RunsFixed, IntentKept, Lawful, Step, WorldLawful;
    match o
    case User(a) => UserKeepsInv(c, o, run);
    case Cleanup(ak) =>
    case Start(w) => IdleSound(c.world.db, c.world.handed, c.jobs, run);
  }

  lemma UserKeepsInv(c: Cluster, o: Outside, run: Runner)
    requires ClusterInv(c, run) && OutsideLawful(c, o) && o.User?
    ensures ClusterInv(Around(c, o), run)
  {
    hide Means, JobsGrounded, HandlesAgree, PcSound, RunsFixed, IntentKept, Lawful, Step, WorldLawful,
      OutsideLawful, LeasesApart, ReceiptsAgree, AttemptsNumbered, Inv, PlansSound;
    var d := Around(c, o);
    UserLawful(c, o, run);
    UserAround(c, o, run);
    WorldMoves(c.world, run, Engine(o.action));
    MeansParts(c.world, run);
    JobsStayGrounded(c.world.db, d.world.db, c.world.handed, d.world.handed, c.jobs);
    UserKeepsHandles(c, o);
    forall w | w in d.workers ensures PcSound(d.world.db, d.world.handed, d.jobs, run, d.workers[w]) {
      if c.workers[w].Idle? {
        IdleSound(d.world.db, d.world.handed, d.jobs, run);
      } else {
        UserIsForeign(c, o, w);
        OtherWorkerStable(c.world, run, Engine(o.action), c.jobs, c.jobs, c.workers[w]);
      }
    }
  }

  lemma UserAround(c: Cluster, o: Outside, run: Runner)
    requires OutsideLawful(c, o) && o.User? && WorldLawful(c.world, run, Engine(o.action))
    ensures Around(c, o) == c.(world := WorldStep(c.world, run, Engine(o.action)))
  {
  }

  lemma UserKeepsHandles(c: Cluster, o: Outside)
    requires OutsideLawful(c, o) && o.User? && AttemptsNumbered(c.world.db) && HandlesAgree(c.world.db, c.jobs)
    ensures HandlesAgree(Around(c, o).world.db, c.jobs)
  {
    hide Step, Lawful, AttemptsNumbered;
    HandlesKept(c.world.db, o.action);
  }
}
