/** What holds over whole runs of workers, users, disk and scheduler. */
module ClusterHistory {
  import opened Names
  import opened Workflows
  import opened Store
  import opened Protocol
  import opened World
  import opened History
  import opened Cancellation
  import opened Cluster
  import opened ClusterSafety

  ghost predicate WorkerStep(c: Cluster, d: Cluster, run: Runner, w: Name, m: Move) {
    Enabled(c, w, m) && TransactionLawful(c, w, m, run) && d == Advance(c, w, m, run)
  }

  ghost predicate OutsideStep(c: Cluster, d: Cluster, o: Outside) {
    OutsideLawful(c, o) && d == Around(c, o)
  }

  ghost predicate ClusterNext(c: Cluster, d: Cluster, run: Runner) {
    (exists w, m :: WorkerStep(c, d, run, w, m)) || (exists o :: OutsideStep(c, d, o))
  }

  /** Any interleaving of workers' statements, crashes, users, expiry and cleanup, from nothing. */
  ghost predicate ClusterBehavior(b: seq<Cluster>, run: Runner) {
    && |b| >= 1 && b[0] == Cluster(World(EMPTY, {}), map[], map[], map[])
    && forall i {:trigger b[i]} :: 0 <= i < |b| - 1 ==> ClusterNext(b[i], b[i + 1], run)
  }

  lemma ClusterNextKeeps(c: Cluster, d: Cluster, run: Runner)
    requires ClusterInv(c, run) && ClusterNext(c, d, run)
    ensures ClusterInv(d, run)
  {
    hide ClusterInv, Enabled, TransactionLawful, Advance, Around, OutsideLawful;
    if w, m :| WorkerStep(c, d, run, w, m) {
      AdvanceKeepsInv(c, w, m, run);
    } else {
      var o :| OutsideStep(c, d, o);
      AroundKeepsInv(c, o, run);
    }
  }

  lemma InitCluster(run: Runner)
    ensures ClusterInv(Cluster(World(EMPTY, {}), map[], map[], map[]), run)
  {
    hide Means, PcSound;
    InitMeans(run);
  }

  lemma {:induction false} ReachableCluster(b: seq<Cluster>, run: Runner, i: nat)
    requires ClusterBehavior(b, run) && i < |b|
    ensures ClusterInv(b[i], run)
  {
    hide ClusterInv, ClusterNext;
    if i == 0 {
      InitCluster(run);
    } else {
      ReachableCluster(b, run, i - 1);
      ClusterNextKeeps(b[i - 1], b[i - 1 + 1], run);
    }
  }

  // ---------- jobs, handles and receipts ----------

  /** Without any assumption: recorded handles and receipts are jobs of their attempt, and a leased or abandoned
    * attempt has none. */
  lemma RecordsAreJobs(b: seq<Cluster>, run: Runner, i: nat, ak: AttemptKey)
    requires ClusterBehavior(b, run) && i < |b| && ak in b[i].world.db.attempts
    ensures var a := b[i].world.db.attempts[ak];
      && (a.handle.Some? ==> IsJobOf(b[i].jobs, a.handle.value, ak))
      && (ak in b[i].receipts ==> IsJobOf(b[i].jobs, b[i].receipts[ak], ak))
      && (a.state == Leased || a.state == Abandoned ==> !AnyJob(b[i].jobs, ak))
  {
    hide ClusterBehavior, Means, PcSound, LeasesApart;
    ReachableCluster(b, run, i);
  }

  /** The attempt has at most one job, and none while a worker is about to make one. */
  ghost predicate OnceFor(c: Cluster, ak: AttemptKey) {
    && (forall g, h :: IsJobOf(c.jobs, g, ak) && IsJobOf(c.jobs, h, ak) ==> g == h)
    && (forall w {:trigger c.workers[w]} :: w in c.workers && SbatchingFor(c.workers[w], ak) ==> !AnyJob(c.jobs, ak))
  }

  predicate SbatchingFor(pc: Pc, ak: AttemptKey) {
    pc.Sbatching? && pc.lease.attempt == ak
  }

  /** No two workers are at `sbatch` for the attempt, both having looked it up and seen no job. */
  ghost predicate ApartFor(c: Cluster, ak: AttemptKey) {
    forall v, w {:trigger c.workers[v], c.workers[w]} ::
      (v in c.workers && w in c.workers && SbatchingFor(c.workers[v], ak) && SbatchingFor(c.workers[w], ak)) ==>
      v == w
  }

  lemma WorkerKeepsOnce(c: Cluster, run: Runner, w: Name, m: Move, ak: AttemptKey)
    requires Enabled(c, w, m) && TransactionLawful(c, w, m, run) && OnceFor(c, ak) && ApartFor(c, ak)
    ensures OnceFor(Advance(c, w, m, run), ak)
  {
    hide Transaction, TransactionLawful, WorldStep, Holds, RequestBuilds, RequestOf, Claimable, Recoverable,
      Completes, ReceiptsAfter;
    var jobs, pc := JobsAfter(c, w, m), PcAfter(c, w, m, run);
    if m.Sbatch? && c.workers[w].lease.attempt == ak {
      assert SbatchingFor(c.workers[w], ak);
      forall g | IsJobOf(jobs, g, ak) ensures g == m.newHandle {
        assert g == m.newHandle || g in c.jobs;
      }
      forall v | v in c.workers && v != w ensures !SbatchingFor(c.workers[v], ak) {
        assert SbatchingFor(c.workers[w], ak);
      }
    } else {
      assert forall g :: IsJobOf(jobs, g, ak) <==> IsJobOf(c.jobs, g, ak);
      assert AnyJob(jobs, ak) ==> AnyJob(c.jobs, ak);
      assert SbatchingFor(pc, ak) ==> !HasJob(c, ak);
    }
  }

  lemma NextKeepsOnce(c: Cluster, d: Cluster, run: Runner, ak: AttemptKey)
    requires ClusterNext(c, d, run) && OnceFor(c, ak) && ApartFor(c, ak)
    ensures OnceFor(d, ak)
  {
    hide Enabled, TransactionLawful, Advance, ApartFor;
    if w, m :| WorkerStep(c, d, run, w, m) {
      WorkerKeepsOnce(c, run, w, m, ak);
    } else {
      var o :| OutsideStep(c, d, o);
      OutsideKeepsOnce(c, o, ak);
    }
  }

  lemma OutsideKeepsOnce(c: Cluster, o: Outside, ak: AttemptKey)
    requires OutsideLawful(c, o) && OnceFor(c, ak)
    ensures OnceFor(Around(c, o), ak)
  {
    hide Step, Lawful;
  }

  lemma {:induction false} ReachableOnce(b: seq<Cluster>, run: Runner, i: nat, ak: AttemptKey)
    requires ClusterBehavior(b, run) && i < |b| && forall j {:trigger b[j]} :: 0 <= j < i ==> ApartFor(b[j], ak)
    ensures OnceFor(b[i], ak)
  {
    hide ClusterNext, ApartFor;
    if i > 0 {
      ReachableOnce(b, run, i - 1, ak);
      NextKeepsOnce(b[i - 1], b[i - 1 + 1], run, ak);
    }
  }

  /** At most one scheduler job per attempt, through a crash at any point, unless two workers were at `sbatch` for it
    * together. */
  lemma OneJobPerAttempt(b: seq<Cluster>, run: Runner, i: nat, g: nat, h: nat)
    requires ClusterBehavior(b, run) && i < |b| && g in b[i].jobs && h in b[i].jobs
      && b[i].jobs[g].attempt == b[i].jobs[h].attempt
    requires forall j {:trigger b[j]} :: 0 <= j < i ==> ApartFor(b[j], b[i].jobs[g].attempt)
    ensures g == h
  {
    hide ClusterBehavior, ApartFor;
    ReachableOnce(b, run, i, b[i].jobs[g].attempt);
    assert IsJobOf(b[i].jobs, g, b[i].jobs[g].attempt) && IsJobOf(b[i].jobs, h, b[i].jobs[g].attempt);
  }

  /** On the same condition the recorded handle, the receipt and the job of an attempt are one. */
  lemma RecordsAgree(b: seq<Cluster>, run: Runner, i: nat, ak: AttemptKey)
    requires ClusterBehavior(b, run) && i < |b| && ak in b[i].world.db.attempts && ak in b[i].receipts
    requires forall j {:trigger b[j]} :: 0 <= j < i ==> ApartFor(b[j], ak)
    ensures b[i].world.db.attempts[ak].handle.Some? ==> b[i].world.db.attempts[ak].handle.value == b[i].receipts[ak]
  {
    hide ClusterBehavior, ApartFor;
    RecordsAreJobs(b, run, i, ak);
    ReachableOnce(b, run, i, ak);
  }

  // ---------- when a second job is made ----------

  /** A worker at `sbatch` keeps jobs single exactly when its attempt has none at that moment. */
  lemma SbatchKeepsOnceIff(c: Cluster, run: Runner, w: Name, h: nat)
    requires w in c.workers && c.workers[w].Sbatching? && h !in c.jobs && JobsOnce(c.jobs)
    ensures Enabled(c, w, Sbatch(h)) && TransactionLawful(c, w, Sbatch(h), run)
    ensures JobsOnce(Advance(c, w, Sbatch(h), run).jobs) <==> !AnyJob(c.jobs, c.workers[w].lease.attempt)
  {
    var jobs := Advance(c, w, Sbatch(h), run).jobs;
    if g :| g in c.jobs && c.jobs[g].attempt == c.workers[w].lease.attempt {
      assert g in jobs && h in jobs && jobs[g].attempt == jobs[h].attempt;
    }
  }

  /** A worker reaches `sbatch` only by a lookup that saw no job. */
  lemma LookupSawNone(c: Cluster, d: Cluster, run: Runner, w: Name)
    requires ClusterNext(c, d, run) && w in d.workers && d.workers[w].Sbatching?
      && !(w in c.workers && c.workers[w].Sbatching?)
    ensures !AnyJob(d.jobs, d.workers[w].lease.attempt)
  {
    hide Transaction, TransactionLawful, WorldStep, Holds, RequestBuilds, RequestOf, Claimable, Recoverable,
      Completes, Lawful, Step;
  }

  /** The step is the `sbatch` of a worker other than `w` for the attempt. */
  ghost predicate AnotherSubmits(c: Cluster, d: Cluster, run: Runner, w: Name, ak: AttemptKey) {
    exists v, h :: v != w && v in c.workers && SbatchingFor(c.workers[v], ak) && WorkerStep(c, d, run, v, Sbatch(h))
  }

  ghost predicate AtSbatch(c: Cluster, w: Name, ak: AttemptKey) {
    w in c.workers && SbatchingFor(c.workers[w], ak)
  }

  lemma OtherMovesMakeNone(c: Cluster, d: Cluster, run: Runner, v: Name, m: Move, ak: AttemptKey)
    requires WorkerStep(c, d, run, v, m) && !(m.Sbatch? && SbatchingFor(c.workers[v], ak))
    ensures AnyJob(d.jobs, ak) <==> AnyJob(c.jobs, ak)
  {
    hide TransactionLawful, WorldStep, PcAfter, ReceiptsAfter, Transaction;
    assert forall h :: h in c.jobs ==> h in d.jobs && d.jobs[h] == c.jobs[h];
    assert forall h :: h in d.jobs && d.jobs[h].attempt == ak ==> h in c.jobs;
  }

  lemma SbatchMakesOne(c: Cluster, d: Cluster, run: Runner, v: Name, h: nat, ak: AttemptKey)
    requires WorkerStep(c, d, run, v, Sbatch(h)) && SbatchingFor(c.workers[v], ak)
    ensures AnyJob(d.jobs, ak) && v in d.workers && !d.workers[v].Sbatching?
  {
    hide TransactionLawful, WorldStep, ReceiptsAfter, Transaction;
    assert h in d.jobs && d.jobs[h].attempt == ak;
  }

  lemma OutsideMakesNone(c: Cluster, d: Cluster, o: Outside, ak: AttemptKey)
    requires OutsideStep(c, d, o)
    ensures d.jobs == c.jobs
  {
    hide Lawful, Step;
  }

  /** While a worker stays at `sbatch`, its attempt has a job after a step exactly when it had one before or the step
    * is another worker's `sbatch` for it. */
  lemma StayedAtSbatch(c: Cluster, d: Cluster, run: Runner, w: Name, ak: AttemptKey)
    requires ClusterNext(c, d, run) && AtSbatch(c, w, ak) && AtSbatch(d, w, ak)
    ensures AnyJob(d.jobs, ak) <==> AnyJob(c.jobs, ak) || AnotherSubmits(c, d, run, w, ak)
  {
    hide WorkerStep, OutsideStep, AnyJob;
    if AnotherSubmits(c, d, run, w, ak) {
      var v, h :| v != w && v in c.workers && SbatchingFor(c.workers[v], ak) && WorkerStep(c, d, run, v, Sbatch(h));
      SbatchMakesOne(c, d, run, v, h, ak);
    } else if v, m :| WorkerStep(c, d, run, v, m) {
      MoverIsWorker(c, d, run, v, m);
      if m.Sbatch? && SbatchingFor(c.workers[v], ak) {
        SbatchMakesOne(c, d, run, v, m.newHandle, ak);
        assert v != w && WorkerStep(c, d, run, v, Sbatch(m.newHandle));
      } else {
        OtherMovesMakeNone(c, d, run, v, m, ak);
      }
    } else {
      var o :| OutsideStep(c, d, o);
      OutsideMakesNone(c, d, o, ak);
    }
  }

  lemma MoverIsWorker(c: Cluster, d: Cluster, run: Runner, v: Name, m: Move)
    requires WorkerStep(c, d, run, v, m)
    ensures v in c.workers
  {
    hide TransactionLawful, Advance;
  }

  /** Between moments `i` and `j` another worker's `sbatch` for the attempt went through. */
  ghost predicate Overtaken(b: seq<Cluster>, run: Runner, i: nat, j: nat, w: Name, ak: AttemptKey)
    requires i <= j < |b|
  {
    exists k {:trigger b[k]} :: i <= k < j && AnotherSubmits(b[k], b[k + 1], run, w, ak)
  }

  ghost predicate StaysAtSbatch(b: seq<Cluster>, i: nat, j: nat, w: Name, ak: AttemptKey)
    requires i <= j < |b|
  {
    forall k {:trigger b[k]} :: i <= k <= j ==> AtSbatch(b[k], w, ak)
  }

  lemma OvertakenOneMore(b: seq<Cluster>, run: Runner, i: nat, j: nat, w: Name, ak: AttemptKey)
    requires i < j < |b|
    ensures Overtaken(b, run, i, j, w, ak) <==>
      Overtaken(b, run, i, j - 1, w, ak) || AnotherSubmits(b[j - 1], b[j], run, w, ak)
  {
    hide AnotherSubmits;
    if AnotherSubmits(b[j - 1], b[j], run, w, ak) {
      assert b[j - 1 + 1] == b[j];
    }
  }

  /** While a worker stays at `sbatch`, its attempt comes to a job exactly by another worker's `sbatch`. */
  lemma {:induction false} JobsAppearIff(b: seq<Cluster>, run: Runner, i: nat, j: nat, w: Name, ak: AttemptKey)
    requires ClusterBehavior(b, run) && i <= j < |b| && StaysAtSbatch(b, i, j, w, ak) && !AnyJob(b[i].jobs, ak)
    ensures AnyJob(b[j].jobs, ak) <==> Overtaken(b, run, i, j, w, ak)
    decreases j - i
  {
    hide ClusterNext, AnyJob, AtSbatch, AnotherSubmits, Overtaken;
    if i == j {
      NobodyOvertakes(b, run, i, w, ak);
    } else {
      assert ClusterNext(b[j - 1], b[j - 1 + 1], run);
      JobsAppearIff(b, run, i, j - 1, w, ak);
      StayedAtSbatch(b[j - 1], b[j], run, w, ak);
      OvertakenOneMore(b, run, i, j, w, ak);
    }
  }

  lemma NobodyOvertakes(b: seq<Cluster>, run: Runner, i: nat, w: Name, ak: AttemptKey)
    requires i < |b|
    ensures !Overtaken(b, run, i, i, w, ak)
  {
    hide AnotherSubmits;
  }

  /** A worker that looked its attempt up at moment `i` and calls `sbatch` at moment `j` makes a second job exactly
    * when another worker's `sbatch` for that attempt went through in between. */
  lemma SecondJobIff(b: seq<Cluster>, run: Runner, i: nat, j: nat, w: Name, ak: AttemptKey, h: nat)
    requires ClusterBehavior(b, run) && 0 < i <= j < |b| && StaysAtSbatch(b, i, j, w, ak)
    requires !(w in b[i - 1].workers && b[i - 1].workers[w].Sbatching?) && h !in b[j].jobs && JobsOnce(b[j].jobs)
    ensures Enabled(b[j], w, Sbatch(h)) && TransactionLawful(b[j], w, Sbatch(h), run)
    ensures !JobsOnce(Advance(b[j], w, Sbatch(h), run).jobs) <==> Overtaken(b, run, i, j, w, ak)
  {
    assert AtSbatch(b[i], w, ak) && AtSbatch(b[j], w, ak);
    hide ClusterNext, AnyJob, Advance, JobsOnce, Enabled, TransactionLawful, Overtaken, StaysAtSbatch;
    LookupSawNone(b[i - 1], b[i - 1 + 1], run, w);
    SbatchKeepsOnceIff(b[j], run, w, h);
    JobsAppearIff(b, run, i, j, w, ak);
  }

  // ---------- refinement ----------

  /** A step of workers, disk and scheduler is a step of the engine and its requests, or leaves them alone. */
  lemma NextRefines(c: Cluster, d: Cluster, run: Runner)
    requires ClusterNext(c, d, run)
    ensures d.world == c.world || Next(c.world, d.world, run)
  {
    hide Enabled, PcAfter, JobsAfter, ReceiptsAfter, Lawful, Step, HonestResult;
    if w, m :| WorkerStep(c, d, run, w, m) {
      if Transaction(c, w, m).Some? {
        assert WorldLawful(c.world, run, Transaction(c, w, m).value);
      }
    } else {
      var o :| OutsideStep(c, d, o);
      if o.User? {
        assert WorldLawful(c.world, run, Engine(o.action));
      }
    }
  }

  /** `w` is what `b` does to the engine, without the steps that leave it alone; moment `i` of `b` is moment `f[i]`
    * of `w`. */
  ghost predicate Projects(b: seq<Cluster>, w: seq<World>, f: seq<nat>) {
    && |f| == |b| >= 1 && f[0] == 0 && f[|f| - 1] == |w| - 1
    && (forall i {:trigger f[i]} :: 0 <= i < |b| ==> f[i] < |w| && b[i].world == w[f[i]])
    && (forall i {:trigger f[i]} :: 0 <= i < |b| - 1 ==>
      f[i + 1] == f[i] || (f[i + 1] == f[i] + 1 && b[i + 1].world != b[i].world))
  }

  lemma ProjectsMore(b: seq<Cluster>, w: seq<World>, f: seq<nat>, d: Cluster)
    requires Projects(b, w, f)
    ensures d.world == b[|b| - 1].world ==> Projects(b + [d], w, f + [|w| - 1])
    ensures d.world != b[|b| - 1].world ==> Projects(b + [d], w + [d.world], f + [|w|])
  {
  }

  lemma BehaviorMore(w: seq<World>, run: Runner, v: World)
    requires Behavior(w, run) && Next(w[|w| - 1], v, run)
    ensures Behavior(w + [v], run)
  {
    hide Next;
  }

  /** Every history of the cluster projects onto a history of the engine: what holds of those holds here. */
  lemma {:induction false} ClusterRefinesWorld(b: seq<Cluster>, run: Runner) returns (w: seq<World>, f: seq<nat>)
    requires ClusterBehavior(b, run)
    ensures Behavior(w, run) && Projects(b, w, f)
    decreases |b|
  {
    hide ClusterNext, Next;
    if |b| == 1 {
      w, f := [b[0].world], [0];
    } else {
      var rest, last := b[..|b| - 1], b[|b| - 1];
      assert b == rest + [last];
      assert forall i {:trigger rest[i]} :: 0 <= i < |rest| - 1 ==> rest[i] == b[i] && rest[i + 1] == b[i + 1];
      w, f := ClusterRefinesWorld(rest, run);
      hide Behavior;
      var c := rest[|rest| - 1];
      assert c == b[|b| - 2] && c.world == w[|w| - 1];
      assert ClusterNext(b[|b| - 2], b[|b| - 2 + 1], run);
      NextRefines(c, last, run);
      ProjectsMore(rest, w, f, last);
      if last.world == c.world {
        f := f + [|w| - 1];
      } else {
        BehaviorMore(w, run, last.world);
        f := f + [|w|];
        w := w + [last.world];
      }
    }
  }

  lemma ProjectsAt(b: seq<Cluster>, w: seq<World>, f: seq<nat>, i: nat)
    requires Projects(b, w, f) && i < |b|
    ensures |f| == |b| && f[i] < |w| && b[i].world == w[f[i]]
    ensures i + 1 < |b| ==>
      f[i + 1] < |w| && b[i + 1].world == w[f[i + 1]]
        && (f[i + 1] == f[i] || (f[i + 1] == f[i] + 1 && b[i + 1].world != b[i].world))
  {
  }

  /** The projection is monotone. */
  lemma {:induction false} ProjectionAscends(b: seq<Cluster>, w: seq<World>, f: seq<nat>, i: nat, j: nat)
    requires Projects(b, w, f) && i <= j < |b|
    ensures |f| == |b| && f[i] <= f[j] < |w| && b[i].world == w[f[i]] && b[j].world == w[f[j]]
    decreases j - i
  {
    hide Projects;
    ProjectsAt(b, w, f, i);
    if i < j {
      ProjectionAscends(b, w, f, i, j - 1);
      ProjectsAt(b, w, f, j - 1);
    }
  }

  /** Every step of the projection is a step of the cluster. */
  lemma {:induction false} ProjectedStep(b: seq<Cluster>, w: seq<World>, f: seq<nat>, i: nat, j: nat, l: nat)
      returns (k: nat)
    requires Projects(b, w, f) && i <= j < |b| && |f| == |b| && f[i] <= l < f[j]
    ensures i <= k < j && l + 1 < |w| && b[k].world == w[l] && b[k + 1].world == w[l + 1]
      && b[k + 1].world != b[k].world
    decreases j - i
  {
    hide Projects;
    if i == j {
      assert false;
    }
    ProjectsAt(b, w, f, j - 1);
    if f[j - 1] <= l {
      k := j - 1;
    } else {
      k := ProjectedStep(b, w, f, i, j - 1, l);
    }
  }

  // ---------- what holds of engines holds of clusters ----------

  /** In every reachable cluster the recorded outputs are the workflow's meaning. */
  lemma ClusterKeepsMeaning(b: seq<Cluster>, run: Runner, i: nat, k: TaskKey)
    requires ClusterBehavior(b, run) && i < |b| && k in b[i].world.db.tasks && b[i].world.db.tasks[k].state == Succeeded
    ensures ResultMeans(b[i].world.db, run, k)
  {
    hide ClusterBehavior, PcSound, LeasesApart, JobsGrounded, HandlesAgree, ReceiptsAgree, Sound, ResultMeans,
      RequestMeans;
    ReachableCluster(b, run, i);
  }

  /** A token that left its attempt is refused at every later moment of the cluster. */
  lemma ClusterRefusesStaleTokens(b: seq<Cluster>, run: Runner, i: nat, j: nat, lease: Lease, op: LeaseOp,
      outputs: Values)
    requires ClusterBehavior(b, run) && i <= j < |b|
    requires lease.token < b[i].world.db.nextToken && !CarriesToken(b[i].world.db, lease.attempt, lease.token)
    ensures var s := b[j].world.db;
      UnderLease(s, lease, op) == s && Complete(s, lease, outputs) == s && Fail(s, lease) == s
  {
    hide ClusterBehavior, Behavior, Projects, UnderLease, Complete, Fail, CarriesToken;
    var w, f := ClusterRefinesWorld(b, run);
    ProjectionAscends(b, w, f, i, j);
    StaleTokensAreRefused(w, run, f[i], f[j], lease, op, outputs);
  }

  /** The step is no retry of the run. */
  ghost predicate ClusterNoRetry(c: Cluster, d: Cluster, run: Runner, r: nat) {
    (exists w, m :: WorkerStep(c, d, run, w, m))
      || (exists o :: OutsideStep(c, d, o) && !(o.User? && o.action.DoRetryTask? && o.action.run == r))
  }

  lemma NoRetryRefines(c: Cluster, d: Cluster, run: Runner, r: nat)
    requires ClusterNoRetry(c, d, run, r)
    ensures d.world == c.world || NextButNoRetry(c.world, d.world, run, r)
  {
    hide Enabled, PcAfter, JobsAfter, ReceiptsAfter, Lawful, Step, HonestResult;
    if w, m :| WorkerStep(c, d, run, w, m) {
      if Transaction(c, w, m).Some? {
        assert WorldLawful(c.world, run, Transaction(c, w, m).value);
      }
    } else {
      var o :| OutsideStep(c, d, o) && !(o.User? && o.action.DoRetryTask? && o.action.run == r);
      if o.User? {
        assert WorldLawful(c.world, run, Engine(o.action));
      }
    }
  }

  /** Until a retry, a canceled run stays canceled whatever workers, crashes, disk and scheduler do. */
  lemma ClusterCancellationIsFinal(b: seq<Cluster>, run: Runner, i: nat, j: nat, r: nat)
    requires ClusterBehavior(b, run) && i <= j < |b| && IsCanceled(b[i].world.db, r)
    requires forall k {:trigger b[k]} :: i <= k < j ==> ClusterNoRetry(b[k], b[k + 1], run, r)
    ensures StaysCanceled(b[i].world.db, b[j].world.db, r)
  {
    hide ClusterBehavior, Behavior, Projects, ClusterNoRetry, NextButNoRetry, StaysCanceled, IsCanceled;
    var w, f := ClusterRefinesWorld(b, run);
    ProjectionAscends(b, w, f, i, j);
    forall l {:trigger w[l]} | f[i] <= l < f[j] ensures NextButNoRetry(w[l], w[l + 1], run, r) {
      var k := ProjectedStep(b, w, f, i, j, l);
      NoRetryRefines(b[k], b[k + 1], run, r);
    }
    if f[i] == f[j] {
      ReachableSound(w, run, f[i]);
      StaysReflexive(w[f[i]].db, r);
    } else {
      CancellationIsFinal(w, run, f[i], f[j], r);
    }
  }
}
