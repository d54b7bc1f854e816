/** An attempt whose run was canceled while it was being submitted, and whose holder is gone. */
module Stranding {
  import opened Names
  import opened Workflows
  import opened Store
  import opened Invariant
  import opened RunControl
  import opened Protocol
  import opened World
  import opened History
  import opened Cluster
  import opened ClusterSafety
  import opened ClusterHistory

  /** A live attempt being submitted under this token, whose task was canceled over it. */
  ghost predicate Stranded(s: State, ak: AttemptKey, token: nat) {
    && ak in s.attempts && s.attempts[ak].state == Submitting
    && s.attempts[ak].hold.Some? && s.attempts[ak].hold.value.token == token
    && ak.task in s.tasks && s.tasks[ak.task].state == Canceled
  }

  /** The holder records its submission, or gives the attempt up. */
  predicate EndsStranding(s: State, a: Action, ak: AttemptKey) {
    a.DoUnderLease? && a.lease.attempt == ak && Holds(s, a.lease) && (a.op.RecordSubmission? || a.op.MarkCanceled?)
  }

  /** Neither expiry nor recovery selects a stranded attempt, at any time. */
  lemma StrandedIsUnreachable(s: State, ak: AttemptKey, token: nat)
    requires Inv(s) && Stranded(s, ak, token)
    ensures ak == Current(s, ak.task) && !Recoverable(s.attempts[ak]) && forall now :: !Expired(s, ak.task, now)
  {
    hide AttemptsSound, TokensFresh, CancelSound, RunsSound, DependenciesSound, TasksAgree, TasksLinked;
  }

  // ---------- one step ----------

  lemma LeaseLeavesStranded(s: State, lease: Lease, op: LeaseOp, ak: AttemptKey, token: nat)
    requires Inv(s) && Stranded(s, ak, token) && OpLawful(s, lease, op)
    ensures Stranded(UnderLease(s, lease, op), ak, token) <==> !EndsStranding(s, DoUnderLease(lease, op), ak)
  {
    hide AttemptsSound, TokensFresh, CancelSound, RunsSound, DependenciesSound, TasksAgree, TasksLinked;
    if Holds(s, lease) {
      HeldIsCurrent(s, lease);
      assert s.attempts[ak].handle.None? by { StrandedHasNoHandle(s, ak, token); }
    }
  }

  lemma StrandedHasNoHandle(s: State, ak: AttemptKey, token: nat)
    requires AttemptsSound(s) && Stranded(s, ak, token)
    ensures s.attempts[ak].handle.None?
  {
  }

  lemma ClosingLeavesStranded(s: State, a: Action, ak: AttemptKey, token: nat)
    requires Stranded(s, ak, token) && Lawful(s, a) && (a.DoComplete? || a.DoFail?)
    requires a.lease.attempt.task in s.tasks && Closes(s, a.lease) ==> a.lease.attempt.task != ak.task
    ensures Stranded(Step(s, a), ak, token)
  {
    hide OutputsMatch, RunOutputs, RunOutputsRaise, AllSucceeded, OutputRows, OutputIds;
  }

  lemma RowLeavesStranded(s: State, a: Action, ak: AttemptKey, token: nat)
    requires Stranded(s, ak, token) && Lawful(s, a) && (a.DoExpire? || a.DoClaimFresh? || a.DoClaimRecovered?)
    requires ak == Current(s, ak.task)
    requires a.DoClaimRecovered? ==> a.attempt == Current(s, a.attempt.task)
    ensures Stranded(Step(s, a), ak, token)
  {
    hide ParentsSucceeded, AttemptAfterExpiry, TaskAfterExpiry, ExpiryOf;
  }

  lemma RunLeavesStranded(s: State, a: Action, ak: AttemptKey, token: nat)
    requires Inv(s) && Stranded(s, ak, token) && Lawful(s, a)
    requires a.DoCancelRun? || a.DoRetryTask? || a.DoSubmit? || a.DoRegister? || a.DoAddInput?
    ensures Stranded(Step(s, a), ak, token)
  {
    hide AttemptsSound, TokensFresh, CancelSound, RunsSound, DependenciesSound, TasksAgree, AttemptsNumbered,
      Accepted, Submittable, NothingCanceling, Downstream, ListsCancellable;
    if a.DoSubmit? {
      assert ak.task.run in s.runs;
    }
  }

  /** A stranded attempt stays so through every step but its own holder's, whoever acts and whatever the clock says. */
  lemma StepLeavesStranded(s: State, a: Action, ak: AttemptKey, token: nat)
    requires Inv(s) && Stranded(s, ak, token) && Lawful(s, a)
    ensures Stranded(Step(s, a), ak, token) <==> !EndsStranding(s, a, ak)
  {
    hide Inv, Lawful, Stranded, Closes;
    match a
    case DoUnderLease(lease, op) => LawfulOp(s, a); LeaseLeavesStranded(s, lease, op, ak, token);
    case DoComplete(_, _) => ClosesElsewhere(s, a, ak, token); ClosingLeavesStranded(s, a, ak, token);
    case DoFail(_) => ClosesElsewhere(s, a, ak, token); ClosingLeavesStranded(s, a, ak, token);
    case DoExpire(_, _) => StrandedIsUnreachable(s, ak, token); RowLeavesStranded(s, a, ak, token);
    case DoClaimFresh(_, _, _, _) => StrandedIsUnreachable(s, ak, token); RowLeavesStranded(s, a, ak, token);
    case DoClaimRecovered(_, _, _) =>
      StrandedIsUnreachable(s, ak, token);
      RecoveredIsCurrent(s, a);
      RowLeavesStranded(s, a, ak, token);
    case _ => RunLeavesStranded(s, a, ak, token);
  }

  lemma LawfulOp(s: State, a: Action)
    requires Lawful(s, a) && a.DoUnderLease?
    ensures OpLawful(s, a.lease, a.op)
  {
  }

  lemma RecoveredIsCurrent(s: State, a: Action)
    requires Inv(s) && Lawful(s, a) && a.DoClaimRecovered?
    ensures a.attempt.task in s.tasks && a.attempt == Current(s, a.attempt.task)
  {
    RecoverableIsCurrent(s, a.attempt);
  }

  /** A canceled task cannot be closed. */
  lemma ClosesElsewhere(s: State, a: Action, ak: AttemptKey, token: nat)
    requires Stranded(s, ak, token) && (a.DoComplete? || a.DoFail?)
    ensures Closes(s, a.lease) ==> a.lease.attempt.task in s.tasks && a.lease.attempt.task != ak.task
  {
  }

  // ---------- over histories of the engine ----------

  /** A step other than the holder's recording or giving up. */
  ghost predicate NextWithoutHolder(w: World, w': World, run: Runner, ak: AttemptKey) {
    exists a ::
      WorldLawful(w, run, a) && w' == WorldStep(w, run, a) && !(a.Engine? && EndsStranding(w.db, a.action, ak))
  }

  lemma NextLeavesStranded(w: World, w': World, run: Runner, ak: AttemptKey, token: nat)
    requires Inv(w.db) && Stranded(w.db, ak, token) && NextWithoutHolder(w, w', run, ak)
    ensures Stranded(w'.db, ak, token)
  {
    hide Inv, Stranded, Lawful, Step, HonestResult, EndsStranding;
    var a :| WorldLawful(w, run, a) && w' == WorldStep(w, run, a)
      && !(a.Engine? && EndsStranding(w.db, a.action, ak));
    if a.Engine? {
      StepLeavesStranded(w.db, a.action, ak, token);
    }
  }

  /** Until its holder acts, a stranded attempt stays as it is, and no expiry and no recovery selects it. */
  lemma {:induction false} StrandedUntilHolderActs(b: seq<World>, run: Runner, i: nat, j: nat,
      ak: AttemptKey, token: nat)
    requires Behavior(b, run) && i <= j < |b| && Stranded(b[i].db, ak, token)
    requires forall l {:trigger b[l]} :: i <= l < j ==> NextWithoutHolder(b[l], b[l + 1], run, ak)
    ensures Stranded(b[j].db, ak, token) && !Recoverable(b[j].db.attempts[ak])
    ensures forall now :: !Expired(b[j].db, ak.task, now)
    decreases j - i
  {
    hide Behavior, NextWithoutHolder, Inv, Sound, Expired, Recoverable;
    if i < j {
      StrandedUntilHolderActs(b, run, i, j - 1, ak, token);
      ReachableInv(b, run, j - 1);
      NextLeavesStranded(b[j - 1], b[j - 1 + 1], run, ak, token);
    }
    ReachableInv(b, run, j);
    StrandedIsUnreachable(b[j].db, ak, token);
  }

  lemma ReachableInv(b: seq<World>, run: Runner, i: nat)
    requires Behavior(b, run) && i < |b|
    ensures Inv(b[i].db)
  {
    hide Behavior, Inv;
    ReachableSound(b, run, i);
  }

  // ---------- over histories of workers, disk and scheduler ----------

  /** No worker is left that holds the stranded attempt's lease. */
  ghost predicate Orphaned(c: Cluster, ak: AttemptKey, token: nat) {
    && Stranded(c.world.db, ak, token)
    && forall w {:trigger c.workers[w]} :: w in c.workers && !c.workers[w].Idle? ==> c.workers[w].lease.token != token
  }

  /** A worker acts under its own lease only. */
  lemma WorkerActsUnderItsLease(c: Cluster, w: Name, m: Move, ak: AttemptKey, token: nat)
    requires Enabled(c, w, m) && Orphaned(c, ak, token) && Transaction(c, w, m).Some?
    requires Transaction(c, w, m).value.Engine?
    ensures !EndsStranding(c.world.db, Transaction(c, w, m).value.action, ak)
  {
    hide RequestBuilds, Claimable, Recoverable, HasJob;
    assert !c.workers[w].Idle? ==> c.workers[w].lease.token != token;
  }

  lemma MoveLeavesOrphaned(c: Cluster, run: Runner, w: Name, m: Move, ak: AttemptKey, token: nat)
    requires Inv(c.world.db) && Enabled(c, w, m) && TransactionLawful(c, w, m, run) && Orphaned(c, ak, token)
    ensures Orphaned(Advance(c, w, m, run), ak, token)
  {
    hide Inv, Enabled, Stranded, Transaction, PcAfter, Lawful, HonestResult, Step, EndsStranding, JobsAfter,
      ReceiptsAfter;
    MoveKeepsToken(c, w, m, run);
    StrandedTokenIssued(c.world.db, ak, token);
    if Transaction(c, w, m).Some? && Transaction(c, w, m).value.Engine? {
      WorkerActsUnderItsLease(c, w, m, ak, token);
      StepLeavesStranded(c.world.db, Transaction(c, w, m).value.action, ak, token);
    }
  }

  lemma StrandedTokenIssued(s: State, ak: AttemptKey, token: nat)
    requires Inv(s) && Stranded(s, ak, token)
    ensures token < s.nextToken
  {
  }

  lemma OutsideLeavesOrphaned(c: Cluster, o: Outside, ak: AttemptKey, token: nat)
    requires Inv(c.world.db) && OutsideLawful(c, o) && Orphaned(c, ak, token)
    ensures Orphaned(Around(c, o), ak, token)
  {
    hide Inv, Stranded, Lawful, Step;
    if o.User? {
      StepLeavesStranded(c.world.db, o.action, ak, token);
    }
  }

  lemma NextLeavesOrphaned(c: Cluster, d: Cluster, run: Runner, ak: AttemptKey, token: nat)
    requires Inv(c.world.db) && ClusterNext(c, d, run) && Orphaned(c, ak, token)
    ensures Orphaned(d, ak, token) && forall h :: IsJobOf(c.jobs, h, ak) ==> IsJobOf(d.jobs, h, ak)
  {
    hide Inv, Enabled, TransactionLawful, Advance, Around, OutsideLawful, Orphaned;
    if w, m :| WorkerStep(c, d, run, w, m) {
      MoveLeavesOrphaned(c, run, w, m, ak, token);
      MoveKeepsJobs(c, run, w, m);
    } else {
      var o :| OutsideStep(c, d, o);
      OutsideLeavesOrphaned(c, o, ak, token);
      OutsideKeepsJobs(c, o);
    }
  }

  lemma MoveKeepsJobs(c: Cluster, run: Runner, w: Name, m: Move)
    requires Enabled(c, w, m) && TransactionLawful(c, w, m, run)
    ensures forall h :: h in c.jobs ==> h in Advance(c, w, m, run).jobs && Advance(c, w, m, run).jobs[h] == c.jobs[h]
  {
    hide TransactionLawful, WorldStep, PcAfter, ReceiptsAfter, Transaction;
  }

  lemma OutsideKeepsJobs(c: Cluster, o: Outside)
    requires OutsideLawful(c, o)
    ensures Around(c, o).jobs == c.jobs
  {
    hide Step;
  }

  /** An orphaned attempt is orphaned for good, as the protocol's retries spare live attempts: no expiry and no recovery
    * ever selects it, no worker ever holds it again, and jobs it has stay with the scheduler. */
  lemma {:induction false} OrphanedForGood(b: seq<Cluster>, run: Runner, i: nat, j: nat, ak: AttemptKey, token: nat)
    requires ClusterBehavior(b, run) && i <= j < |b| && Orphaned(b[i], ak, token)
    ensures Orphaned(b[j], ak, token) && !Recoverable(b[j].world.db.attempts[ak])
    ensures forall now :: !Expired(b[j].world.db, ak.task, now)
    ensures forall h :: IsJobOf(b[i].jobs, h, ak) ==> IsJobOf(b[j].jobs, h, ak)
    decreases j - i
  {
    hide ClusterBehavior, ClusterNext, Inv, Orphaned, Expired, Recoverable, IsJobOf;
    if i < j {
      OrphanedForGood(b, run, i, j - 1, ak, token);
      ClusterStepsNext(b, run, j - 1);
      ReachableClusterInv(b, run, j - 1);
      NextLeavesOrphaned(b[j - 1], b[j], run, ak, token);
    }
    ReachableClusterInv(b, run, j);
    OrphanedIsStranded(b[j], ak, token);
    StrandedIsUnreachable(b[j].world.db, ak, token);
  }

  lemma OrphanedIsStranded(c: Cluster, ak: AttemptKey, token: nat)
    requires Orphaned(c, ak, token)
    ensures Stranded(c.world.db, ak, token)
  {
  }

  lemma ClusterStepsNext(b: seq<Cluster>, run: Runner, i: nat)
    requires ClusterBehavior(b, run) && i + 1 < |b|
    ensures ClusterNext(b[i], b[i + 1], run)
  {
    hide ClusterNext;
  }

  lemma ReachableClusterInv(b: seq<Cluster>, run: Runner, i: nat)
    requires ClusterBehavior(b, run) && i < |b|
    ensures Inv(b[i].world.db)
  {
    hide ClusterBehavior, Inv, ResultsMean, PcSound;
    ReachableCluster(b, run, i);
  }
}
