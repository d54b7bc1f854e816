/** What can go wrong when a lease lapses while its holder is inside `submit`, or while its run is canceled. */
module Races {
  import opened Names
  import opened Workflows
  import opened Store
  import opened Protocol
  import opened World
  import opened Witness
  import opened Cluster
  import opened ClusterSafety
  import opened ClusterHistory
  import opened Stranding
  import opened Invariant

  const OTHER := Name(1)
  const AK := LEASE.attempt
  const RETAKEN := Lease(AK, OTHER, 1, Submitting, None, true)
  const HANDED := {Handed(AK, map[])}
  const NOTHING: Values := map[]

  /** The lone task after its holder declared the intent to submit. */
  ghost function Intended(): State
    requires Accepted(LonePlan())
  {
    UnderLease(LoneRunning(), LEASE, MarkSubmitting)
  }

  /** The same after the lease lapsed: the intent is kept. */
  ghost function Lapsed(): State
    requires Accepted(LonePlan())
  {
    LoneIntends();
    ExpireRow(Intended(), TASK, 11)
  }

  /** The same after a second worker recovered the attempt. */
  ghost function Retaken(): State
    requires Accepted(LonePlan())
  {
    LoneLapses();
    ClaimRecovered(Lapsed(), AK, OTHER, 30)
  }

  /** Rows of the lone run: its attempt in this state under this hold, and the token to be issued next. */
  ghost predicate LoneRows(s: State, a: AttemptState, worker: Option<Name>, token: nat, expires: int, next: nat) {
    && s.runs.Keys == {0} && s.runs[0].plan == LonePlan() && s.runs[0].inputs == map[] && s.runs[0].state == RunRunning
    && s.tasks.Keys == {TASK} && s.tasks[TASK].state == TaskState.Running && s.tasks[TASK].attempt == 1
    && s.tasks[TASK].hold == (if worker.Some? then Some(TaskHold(token, expires)) else None)
    && s.attempts ==
      map[AK := Attempt(a, if worker.Some? then Some(Hold(worker.value, token, expires)) else None, None, 0, map[])]
    && s.nextToken == next
  }

  lemma LoneHolds()
    ensures Accepted(LonePlan()) && Sound(LoneRunning()) && LoneRows(LoneRunning(), Leased, Some(LONE), 0, 10, 1)
  {
    LoneRuns();
    hide Sound, Accepted;
  }

  lemma LoneIntends()
    ensures Accepted(LonePlan()) && LoneRows(Intended(), Submitting, Some(LONE), 0, 10, 1)
  {
    LoneHolds();
    hide Sound, Accepted, LoneRunning;
  }

  lemma LoneLapses()
    ensures Accepted(LonePlan()) && TASK.run in Intended().runs
      && LoneRows(Lapsed(), Submitting, None, 0, 0, 1) && AK in Lapsed().attempts
      && AK.task in Lapsed().tasks
  {
    LoneIntends();
    hide Accepted, Intended;
  }

  lemma LoneRetakes()
    ensures Accepted(LonePlan()) && LoneRows(Retaken(), Submitting, Some(OTHER), 1, 30, 2)
  {
    LoneLapses();
    hide Accepted, Lapsed, LoneRows;
    RetakenRows(Lapsed());
  }

  lemma RetakenRows(s: State)
    requires LoneRows(s, Submitting, None, 0, 0, 1)
    ensures AK in s.attempts && AK.task in s.tasks
      && LoneRows(ClaimRecovered(s, AK, OTHER, 30), Submitting, Some(OTHER), 1, 30, 2)
  {
    hide LonePlan;
  }

  /** A request of the lone task is empty and always builds. */
  lemma LoneBuilds(s: State)
    requires 0 in s.runs && s.runs[0].plan == LonePlan() && s.runs[0].inputs == map[] && TASK in s.tasks
    ensures RequestBuilds(s, TASK) && RequestOf(s, TASK) == NOTHING
  {
    assert Parents(LonePlan().wf, LONE) == {};
  }

  // ---------- two jobs for one attempt ----------

  lemma Extend(b: seq<Cluster>, run: Runner, d: Cluster) returns (b': seq<Cluster>)
    requires ClusterBehavior(b, run) && ClusterNext(b[|b| - 1], d, run)
    ensures ClusterBehavior(b', run) && |b'| >= 1 && b'[|b'| - 1] == d
  {
    hide ClusterNext;
    b' := b + [d];
  }

  lemma ByWorker(c: Cluster, run: Runner, w: Name, m: Move)
    requires Enabled(c, w, m) && TransactionLawful(c, w, m, run)
    ensures ClusterNext(c, Advance(c, w, m, run), run)
  {
    assert WorkerStep(c, Advance(c, w, m, run), run, w, m);
  }

  lemma ByOutside(c: Cluster, run: Runner, o: Outside)
    requires OutsideLawful(c, o)
    ensures ClusterNext(c, Around(c, o), run)
  {
    assert OutsideStep(c, Around(c, o), o);
  }

  /** Two workers, no receipts. */
  ghost function Pair(db: State, handed: set<Handed>, v: Pc, w: Pc, jobs: map<nat, Job>): Cluster {
    Cluster(World(db, handed), map[LONE := v, OTHER := w], jobs, map[])
  }

  lemma Opening(run: Runner) returns (b: seq<Cluster>)
    ensures Accepted(LonePlan()) && ClusterBehavior(b, run) && |b| >= 1
      && b[|b| - 1] == Pair(LoneSubmitted(), {}, Idle, Idle, map[])
  {
    LoneAccepted();
    hide Accepted, Submit;
    var c0 := Cluster(World(EMPTY, {}), map[], map[], map[]);
    b := [c0];
    var c1 := Cluster(World(Registered(), {}), map[], map[], map[]);
    ByOutside(c0, run, User(DoRegister(0, LonePlan())));
    b := Extend(b, run, c1);
    var c2 := Cluster(World(LoneSubmitted(), {}), map[], map[], map[]);
    ByOutside(c1, run, User(DoSubmit(0, 0, map[], LONE, LONE, 0)));
    b := Extend(b, run, c2);
    var c3 := Cluster(World(LoneSubmitted(), {}), map[LONE := Idle], map[], map[]);
    ByOutside(c2, run, Start(LONE));
    b := Extend(b, run, c3);
    ByOutside(c3, run, Start(OTHER));
    b := Extend(b, run, Pair(LoneSubmitted(), {}, Idle, Idle, map[]));
  }

  /** The worker's place after a move that leaves jobs and receipts alone. */
  ghost function Arrived(c: Cluster, w: Name, db: State, handed: set<Handed>, pc: Pc): Cluster {
    Cluster(World(db, handed), c.workers[w := pc], c.jobs, c.receipts)
  }

  lemma Builds(c: Cluster, run: Runner, w: Name, lease: Lease)
    requires w in c.workers && c.workers[w] == Claimed(lease) && lease.attempt == AK
    requires var s := c.world.db;
      0 in s.runs && s.runs[0].plan == LonePlan() && s.runs[0].inputs == map[] && TASK in s.tasks
    ensures ClusterNext(c, Arrived(c, w, c.world.db, c.world.handed + HANDED, Requested(lease, NOTHING)), run)
  {
    LoneBuilds(c.world.db);
    hide RequestBuilds, RequestOf;
    ByWorker(c, run, w, BuildRequest);
  }

  lemma Checks(c: Cluster, run: Runner, w: Name, lease: Lease)
    requires w in c.workers && c.workers[w] == Requested(lease, NOTHING) && lease.handle.None?
    requires Holds(c.world.db, lease) && c.world.db.attempts[lease.attempt].state != CancelRequested
    ensures ClusterNext(c, Arrived(c, w, c.world.db, c.world.handed, Intending(lease, NOTHING)), run)
  {
    ByWorker(c, run, w, CheckState);
  }

  lemma Intends(c: Cluster, run: Runner, w: Name, lease: Lease)
    requires w in c.workers && c.workers[w] == Intending(lease, NOTHING) && Holds(c.world.db, lease)
      && !MarkSubmittingRaises(c.world.db.attempts[lease.attempt])
    ensures ClusterNext(c, Arrived(c, w, UnderLease(c.world.db, lease, MarkSubmitting), c.world.handed,
      ReadingReceipt(lease, NOTHING)), run)
  {
    ByWorker(c, run, w, Intend);
  }

  lemma FindsNoReceipt(c: Cluster, run: Runner, w: Name, lease: Lease)
    requires w in c.workers && c.workers[w] == ReadingReceipt(lease, NOTHING) && lease.attempt !in c.receipts
    ensures ClusterNext(c, Arrived(c, w, c.world.db, c.world.handed, LookingUp(lease, NOTHING)), run)
  {
    ByWorker(c, run, w, ReadReceipt(TargetUnknown));
  }

  lemma FindsNoJob(c: Cluster, run: Runner, w: Name, lease: Lease)
    requires w in c.workers && c.workers[w] == LookingUp(lease, NOTHING) && !HasJob(c, lease.attempt)
    ensures ClusterNext(c, Arrived(c, w, c.world.db, c.world.handed, Sbatching(lease, NOTHING)), run)
  {
    ByWorker(c, run, w, LookUp(TargetUnknown, None));
  }

  lemma Makes(c: Cluster, run: Runner, w: Name, lease: Lease, h: nat)
    requires w in c.workers && c.workers[w] == Sbatching(lease, NOTHING) && h !in c.jobs
    ensures ClusterNext(c, Cluster(c.world, c.workers[w := WritingReceipt(lease, h)],
      c.jobs[h := Job(lease.attempt, NOTHING)], c.receipts), run)
  {
    ByWorker(c, run, w, Sbatch(h));
  }

  /** From a claim into `submit`, with nobody else moving. */
  lemma Enters(b: seq<Cluster>, run: Runner, w: Name, lease: Lease) returns (b': seq<Cluster>)
    requires ClusterBehavior(b, run) && |b| >= 1
    requires var c := b[|b| - 1]; var s := c.world.db;
      && w in c.workers && c.workers[w] == Claimed(lease) && lease.attempt == AK && lease.handle.None?
      && 0 in s.runs && s.runs[0].plan == LonePlan() && s.runs[0].inputs == map[] && TASK in s.tasks
      && Holds(s, lease) && (s.attempts[AK].state == Leased || s.attempts[AK].state == Submitting)
    ensures ClusterBehavior(b', run) && |b'| >= 1
    ensures var c := b[|b| - 1];
      b'[|b'| - 1] ==
        Arrived(c, w, UnderLease(c.world.db, lease, MarkSubmitting), c.world.handed + HANDED,
              ReadingReceipt(lease, NOTHING))
  {
    hide ClusterBehavior, ClusterNext, UnderLease;
    var c0 := b[|b| - 1];
    var handed := c0.world.handed + HANDED;
    Builds(c0, run, w, lease);
    var c1 := Arrived(c0, w, c0.world.db, handed, Requested(lease, NOTHING));
    b' := Extend(b, run, c1);
    Checks(c1, run, w, lease);
    var c2 := Arrived(c1, w, c1.world.db, handed, Intending(lease, NOTHING));
    b' := Extend(b', run, c2);
    Intends(c2, run, w, lease);
    var c3 := Arrived(c2, w, UnderLease(c0.world.db, lease, MarkSubmitting), handed, ReadingReceipt(lease, NOTHING));
    b' := Extend(b', run, c3);
    assert c3.workers == c0.workers[w := ReadingReceipt(lease, NOTHING)];
  }

  /** From a claim to the door of `sbatch`, with nobody else moving. */
  lemma Approach(b: seq<Cluster>, run: Runner, w: Name, lease: Lease) returns (b': seq<Cluster>)
    requires ClusterBehavior(b, run) && |b| >= 1
    requires var c := b[|b| - 1]; var s := c.world.db;
      && w in c.workers && c.workers[w] == Claimed(lease) && lease.attempt == AK && lease.handle.None?
      && c.receipts == map[] && c.jobs == map[]
      && 0 in s.runs && s.runs[0].plan == LonePlan() && s.runs[0].inputs == map[] && TASK in s.tasks
      && Holds(s, lease) && (s.attempts[AK].state == Leased || s.attempts[AK].state == Submitting)
    ensures ClusterBehavior(b', run) && |b'| >= 1
    ensures var c := b[|b| - 1];
      b'[|b'| - 1] ==
        Arrived(c, w, UnderLease(c.world.db, lease, MarkSubmitting), c.world.handed + HANDED, Sbatching(lease, NOTHING))
  {
    hide ClusterBehavior, ClusterNext, UnderLease, Holds;
    var c0 := b[|b| - 1];
    b' := Enters(b, run, w, lease);
    var c3 := b'[|b'| - 1];
    FindsNoReceipt(c3, run, w, lease);
    var c4 := Arrived(c3, w, c3.world.db, c3.world.handed, LookingUp(lease, NOTHING));
    b' := Extend(b', run, c4);
    FindsNoJob(c4, run, w, lease);
    var c5 := Arrived(c4, w, c4.world.db, c4.world.handed, Sbatching(lease, NOTHING));
    b' := Extend(b', run, c5);
    assert c5.workers == c0.workers[w := Sbatching(lease, NOTHING)];
  }

  lemma Claims(run: Runner)
    ensures Accepted(LonePlan())
      && ClusterNext(Pair(LoneSubmitted(), {}, Idle, Idle, map[]),
        Pair(LoneRunning(), {}, Claimed(LEASE), Idle, map[]), run)
  {
    LoneWaits();
    hide Accepted, Sound, LoneSubmitted, Claimable;
    var c := Pair(LoneSubmitted(), {}, Idle, Idle, map[]);
    ByWorker(c, run, LONE, ClaimFreshly(TASK, 0, 10));
    assert Advance(c, LONE, ClaimFreshly(TASK, 0, 10), run).workers == map[LONE := Claimed(LEASE), OTHER := Idle];
  }

  lemma Lapses(run: Runner)
    ensures Accepted(LonePlan())
      && ClusterNext(Pair(Intended(), HANDED, Sbatching(LEASE, NOTHING), Idle, map[]),
        Pair(Lapsed(), HANDED, Sbatching(LEASE, NOTHING), Idle, map[]), run)
  {
    LoneIntends();
    hide Accepted, Intended;
    ByOutside(Pair(Intended(), HANDED, Sbatching(LEASE, NOTHING), Idle, map[]), run, User(DoExpire(TASK, 11)));
  }

  lemma Recovers(s: State, run: Runner)
    requires LoneRows(s, Submitting, None, 0, 0, 1)
    ensures AK in s.attempts && AK.task in s.tasks
    ensures ClusterNext(Pair(s, HANDED, Sbatching(LEASE, NOTHING), Idle, map[]),
      Pair(ClaimRecovered(s, AK, OTHER, 30), HANDED, Sbatching(LEASE, NOTHING), Claimed(RETAKEN), map[]), run)
  {
    hide LonePlan, ClaimRecovered;
    var c := Pair(s, HANDED, Sbatching(LEASE, NOTHING), Idle, map[]);
    assert Recoverable(s.attempts[AK]) && RecoveredLease(s, AK, OTHER) == RETAKEN;
    ByWorker(c, run, OTHER, ClaimAgain(AK, 30));
    assert c.workers[OTHER := Claimed(RETAKEN)] == map[LONE := Sbatching(LEASE, NOTHING), OTHER := Claimed(RETAKEN)];
  }

  /** The first worker stands at `sbatch` having found no job. */
  lemma FirstArrives(run: Runner) returns (b: seq<Cluster>)
    ensures Accepted(LonePlan()) && ClusterBehavior(b, run) && |b| >= 1
      && b[|b| - 1] == Pair(Intended(), HANDED, Sbatching(LEASE, NOTHING), Idle, map[])
  {
    LoneHolds();
    IntendedIs();
    hide Accepted, Sound, LoneRunning, Intended, LoneSubmitted, ClusterBehavior, ClusterNext, UnderLease, LonePlan;
    b := Opening(run);
    Claims(run);
    var c := Pair(LoneRunning(), {}, Claimed(LEASE), Idle, map[]);
    b := Extend(b, run, c);
    b := Approach(b, run, LONE, LEASE);
    assert c.world.handed + HANDED == HANDED
      && c.workers[LONE := Sbatching(LEASE, NOTHING)] == map[LONE := Sbatching(LEASE, NOTHING), OTHER := Idle];
  }

  /** A lease that lapses inside `submit` can make two jobs of one attempt: the holder looks up and finds nothing,
    * its lease lapses, a second worker recovers the attempt and finds nothing either, and both submit. */
  lemma LapseMakesTwoJobs(run: Runner) returns (b: seq<Cluster>)
    ensures ClusterBehavior(b, run) && |b| >= 1 && !JobsOnce(b[|b| - 1].jobs)
  {
    LoneLapses();
    LoneRetakes();
    hide Accepted, Sound, Intended, Lapsed, Retaken, ClusterBehavior, ClusterNext, UnderLease, ClaimRecovered, LonePlan;
    b := FirstArrives(run);
    Lapses(run);
    b := Extend(b, run, Pair(Lapsed(), HANDED, Sbatching(LEASE, NOTHING), Idle, map[]));
    Recovers(Lapsed(), run);
    RetakenIs();
    b := Extend(b, run, Pair(Retaken(), HANDED, Sbatching(LEASE, NOTHING), Claimed(RETAKEN), map[]));
    b := Approach(b, run, OTHER, RETAKEN);
    b := Doubles(b, run);
  }

  lemma RetakenIs()
    ensures Accepted(LonePlan()) && AK in Lapsed().attempts && AK.task in Lapsed().tasks
      && Retaken() == ClaimRecovered(Lapsed(), AK, OTHER, 30)
  {
    LoneLapses();
    hide LoneRows;
  }

  lemma IntendedIs()
    ensures Accepted(LonePlan()) && Intended() == UnderLease(LoneRunning(), LEASE, MarkSubmitting)
  {
    LoneAccepted();
  }

  /** Two workers at `sbatch` for one attempt without a job. */
  lemma Doubles(b: seq<Cluster>, run: Runner) returns (b': seq<Cluster>)
    requires ClusterBehavior(b, run) && |b| >= 1 && b[|b| - 1].jobs == map[]
    requires var c := b[|b| - 1];
      LONE in c.workers && OTHER in c.workers && c.workers[LONE] == Sbatching(LEASE, NOTHING)
        && c.workers[OTHER] == Sbatching(RETAKEN, NOTHING)
    ensures ClusterBehavior(b', run) && |b'| >= 1 && !JobsOnce(b'[|b'| - 1].jobs)
  {
    hide ClusterBehavior, ClusterNext;
    var c := b[|b| - 1];
    Makes(c, run, LONE, LEASE, 0);
    var d := Cluster(c.world, c.workers[LONE := WritingReceipt(LEASE, 0)], c.jobs[0 := Job(AK, NOTHING)], c.receipts);
    b' := Extend(b, run, d);
    Makes(d, run, OTHER, RETAKEN, 1);
    b' := Extend(b', run, Cluster(d.world, d.workers[OTHER := WritingReceipt(RETAKEN, 1)],
      d.jobs[1 := Job(AK, NOTHING)], d.receipts));
    var jobs := b'[|b'| - 1].jobs;
    assert 0 in jobs && 1 in jobs && jobs[0].attempt == jobs[1].attempt;
  }

  // ---------- a job nobody comes back for ----------

  /** The run was canceled while its attempt was being submitted: nothing is marked. */
  ghost function CanceledOver(): State
    requires Accepted(LonePlan())
  {
    CancelRun(Intended(), 0, [])
  }

  lemma CancelsOver(s: State)
    requires LoneRows(s, Submitting, Some(LONE), 0, 10, 1)
    ensures ListsCancellable(s, 0, []) && Stranded(CancelRun(s, 0, []), AK, 0)
  {
    hide LonePlan;
    forall ak | ak in s.attempts ensures !Cancellable(s.attempts[ak]) {
      assert ak == AK;
    }
  }

  lemma Crashes(c: Cluster, run: Runner, w: Name)
    requires w in c.workers
    ensures ClusterNext(c, Cluster(c.world, c.workers[w := Idle], c.jobs, c.receipts), run)
  {
    ByWorker(c, run, w, Crash);
  }

  lemma CancelsRunBy(c: Cluster, run: Runner, order: seq<AttemptKey>)
    requires ListsCancellable(c.world.db, 0, order)
    ensures ClusterNext(c, c.(world := c.world.(db := CancelRun(c.world.db, 0, order))), run)
  {
    hide ListsCancellable, CancelRun;
    ByOutside(c, run, User(DoCancelRun(0, order)));
  }

  /** A history that leaves a job to nobody: the holder submits, the run is canceled, and the holder dies before it
    * records the handle. `Stranding.OrphanedForGood` says it stays so in every continuation. */
  lemma CanceledWhileSubmittingOrphans(run: Runner) returns (b: seq<Cluster>)
    ensures ClusterBehavior(b, run) && |b| >= 1
      && Orphaned(b[|b| - 1], AK, LEASE.token) && IsJobOf(b[|b| - 1].jobs, 0, AK)
  {
    LoneIntends();
    hide Accepted, Intended, ClusterBehavior, ClusterNext, LonePlan, LoneRows, CancelRun, ListsCancellable, Stranded;
    b := FirstArrives(run);
    CancelsOver(Intended());
    var c := Pair(Intended(), HANDED, Sbatching(LEASE, NOTHING), Idle, map[]);
    Makes(c, run, LONE, LEASE, 0);
    var d := Cluster(c.world, c.workers[LONE := WritingReceipt(LEASE, 0)], c.jobs[0 := Job(AK, NOTHING)], c.receipts);
    b := Extend(b, run, d);
    CancelsRunBy(d, run, []);
    var e := d.(world := d.world.(db := CanceledOver()));
    b := Extend(b, run, e);
    Crashes(e, run, LONE);
    b := Extend(b, run, Cluster(e.world, e.workers[LONE := Idle], e.jobs, e.receipts));
  }

  // ---------- a job of a canceled attempt ----------

  /** An attempt asked to cancel is ended by expiry exactly when a lease of it lapsed before it had a handle. */
  lemma RequestExpiresIff(s: State, ak: AttemptKey, now: int)
    requires Inv(s) && ak in s.attempts && s.attempts[ak].state == CancelRequested
    ensures ak.task in s.tasks && ak.task.run in s.runs
    ensures ak in ExpireRow(s, ak.task, now).attempts
    ensures ExpireRow(s, ak.task, now).attempts[ak].state == AttemptCanceled <==>
      s.attempts[ak].handle.None?
        && (HoldLapsed(s.attempts[ak].hold, now) || TaskHoldLapsed(s.tasks[ak.task].hold, now))
  {
    hide AttemptsSound, TokensFresh, RunsSound, DependenciesSound, TasksAgree;
    assert ak == Current(s, ak.task);
  }

  /** The lone run canceled over its leased attempt, which is in this state under this hold. */
  ghost predicate MarkedRows(s: State, a: AttemptState, hold: Option<Hold>) {
    && s.runs.Keys == {0} && s.runs[0].state == RunCanceled
    && s.tasks.Keys == {TASK} && s.tasks[TASK].state == TaskState.Canceled && s.tasks[TASK].attempt == 1
    && s.tasks[TASK].hold == None
    && s.attempts == map[AK := Attempt(a, hold, None, 0, map[])]
  }

  lemma CancelMarks(s: State)
    requires LoneRows(s, Leased, Some(LONE), 0, 10, 1)
    ensures ListsCancellable(s, 0, [AK]) && MarkedRows(CancelRun(s, 0, [AK]), CancelRequested, Some(Hold(LONE, 0, 10)))
  {
    hide LonePlan;
  }

  lemma IntentIsNothingNew(s: State)
    requires MarkedRows(s, CancelRequested, Some(Hold(LONE, 0, 10)))
    ensures Holds(s, LEASE) && !MarkSubmittingRaises(s.attempts[AK]) && UnderLease(s, LEASE, MarkSubmitting) == s
  {
    assert s.attempts[AK := s.attempts[AK]] == s.attempts && s.tasks[TASK := s.tasks[TASK]] == s.tasks;
  }

  lemma MarkedExpires(s: State)
    requires MarkedRows(s, CancelRequested, Some(Hold(LONE, 0, 10)))
    ensures TASK.run in s.runs && MarkedRows(ExpireRow(s, TASK, 11), AttemptCanceled, None)
  {
  }

  /** The holder has checked its attempt and is about to declare its intent. */
  lemma Checked(run: Runner) returns (b: seq<Cluster>)
    ensures Accepted(LonePlan()) && ClusterBehavior(b, run) && |b| >= 1
      && b[|b| - 1] == Pair(LoneRunning(), HANDED, Intending(LEASE, NOTHING), Idle, map[])
  {
    LoneHolds();
    hide Accepted, Sound, LoneRunning, LoneSubmitted, ClusterBehavior, ClusterNext, LonePlan;
    b := Opening(run);
    Claims(run);
    var c := Pair(LoneRunning(), {}, Claimed(LEASE), Idle, map[]);
    b := Extend(b, run, c);
    Builds(c, run, LONE, LEASE);
    var d := Arrived(c, LONE, c.world.db, c.world.handed + HANDED, Requested(LEASE, NOTHING));
    b := Extend(b, run, d);
    Checks(d, run, LONE, LEASE);
    var e := Arrived(d, LONE, d.world.db, d.world.handed, Intending(LEASE, NOTHING));
    b := Extend(b, run, e);
    assert c.world.handed + HANDED == HANDED
      && e.workers == map[LONE := Intending(LEASE, NOTHING), OTHER := Idle];
  }

  /** From the intent to `sbatch` when a cancel request came first. */
  lemma SubmitsMarked(b: seq<Cluster>, run: Runner) returns (b': seq<Cluster>)
    requires ClusterBehavior(b, run) && |b| >= 1
    requires var c := b[|b| - 1];
      && LONE in c.workers && c.workers[LONE] == Intending(LEASE, NOTHING) && c.receipts == map[] && c.jobs == map[]
      && MarkedRows(c.world.db, CancelRequested, Some(Hold(LONE, 0, 10)))
    ensures ClusterBehavior(b', run) && |b'| >= 1
    ensures var c := b[|b| - 1];
      b'[|b'| - 1] == Cluster(c.world, c.workers[LONE := Sbatching(LEASE, NOTHING)], map[], map[])
  {
    hide ClusterBehavior, ClusterNext, UnderLease, MarkedRows;
    var c := b[|b| - 1];
    IntentIsNothingNew(c.world.db);
    Intends(c, run, LONE, LEASE);
    var d := Arrived(c, LONE, c.world.db, c.world.handed, ReadingReceipt(LEASE, NOTHING));
    b' := Extend(b, run, d);
    FindsNoReceipt(d, run, LONE, LEASE);
    var e := Arrived(d, LONE, d.world.db, d.world.handed, LookingUp(LEASE, NOTHING));
    b' := Extend(b', run, e);
    FindsNoJob(e, run, LONE, LEASE);
    b' := Extend(b', run, Arrived(e, LONE, e.world.db, e.world.handed, Sbatching(LEASE, NOTHING)));
    assert b'[|b'| - 1].workers == c.workers[LONE := Sbatching(LEASE, NOTHING)];
  }

  /** A history in which a job is made for an attempt that has been canceled: the cancel request arrives before the
    * intent, which `mark_submitting` lets pass, and the lease lapses before `sbatch`. */
  lemma CanceledAttemptGetsJob(run: Runner) returns (b: seq<Cluster>)
    ensures ClusterBehavior(b, run) && |b| >= 1 && IsJobOf(b[|b| - 1].jobs, 0, AK)
    ensures AK in b[|b| - 1].world.db.attempts && b[|b| - 1].world.db.attempts[AK].state == AttemptCanceled
  {
    LoneHolds();
    hide Accepted, Sound, LoneRunning, ClusterBehavior, ClusterNext, LonePlan, LoneRows, CancelRun, ListsCancellable,
      ExpireRow;
    b := Checked(run);
    var c := b[|b| - 1];
    CancelMarks(LoneRunning());
    CancelsRunBy(c, run, [AK]);
    var d := c.(world := c.world.(db := CancelRun(c.world.db, 0, [AK])));
    b := Extend(b, run, d);
    b := SubmitsMarked(b, run);
    var e := b[|b| - 1];
    MarkedExpires(e.world.db);
    ByOutside(e, run, User(DoExpire(TASK, 11)));
    var f := e.(world := e.world.(db := ExpireRow(e.world.db, TASK, 11)));
    b := Extend(b, run, f);
    Makes(f, run, LONE, LEASE, 0);
    b := Extend(b, run, Cluster(f.world, f.workers[LONE := WritingReceipt(LEASE, 0)],
      f.jobs[0 := Job(AK, NOTHING)], f.receipts));
  }
}
