/** Cancellation is final until a retry, and no cancel request is forgotten. */
module Cancellation {
  import opened Names
  import opened Workflows
  import opened Store
  import opened Invariant
  import opened RunControl
  import opened Protocol
  import opened Ledger
  import opened Meaning
  import opened World
  import opened Outcomes
  import opened History

  /** The attempt was asked to cancel, or has been canceled since. */
  predicate Canceling(a: Attempt) {
    a.state == CancelRequested || a.state == AttemptCanceled
  }

  ghost predicate IsCanceled(s: State, r: nat) {
    r in s.runs && s.runs[r].state == RunCanceled
  }

  /** Of a canceled run's tasks, none is pending or running, none newly succeeds, and none is tried again. */
  ghost predicate TasksStayCanceled(s: State, s': State, r: nat) {
    forall k {:trigger k in s'.tasks} :: k in s'.tasks && k.run == r ==>
      && k in s.tasks && s'.tasks[k].attempt == s.tasks[k].attempt
      && s'.tasks[k].state != Pending && s'.tasks[k].state != Running
      && (s'.tasks[k].state == Succeeded ==> s.tasks[k].state == Succeeded)
  }

  /** No attempt is added, and a cancel request leads to nothing but canceled. */
  ghost predicate AttemptsStayCanceled(s: State, s': State, r: nat) {
    && (forall ak {:trigger ak in s'.attempts} :: ak in s'.attempts && ak.task.run == r ==> ak in s.attempts)
    && (forall ak {:trigger ak in s.attempts} :: ak in s.attempts && ak.task.run == r && Canceling(s.attempts[ak]) ==>
      ak in s'.attempts && Canceling(s'.attempts[ak]))
  }

  ghost predicate NoArtifactAdded(s: State, s': State, r: nat) {
    forall id {:trigger id in s'.artifacts} :: id in s'.artifacts && id.OutputArtifact? && id.attempt.task.run == r ==>
      id in s.artifacts
  }

  ghost predicate StaysCanceled(s: State, s': State, r: nat) {
    && IsCanceled(s', r)
    && TasksStayCanceled(s, s', r)
    && AttemptsStayCanceled(s, s', r)
    && NoArtifactAdded(s, s', r)
  }

  /** A step that is no retry of run `r`. */
  ghost predicate MovesButNoRetry(s: State, s': State, r: nat) {
    Forward(s, s') || exists q, n, D :: q != r && SafeReset(s, s', q, n, D)
  }

  lemma MovedStaysCanceled(s: State, s': State, r: nat, k: TaskKey)
    requires Inv(s) && IsCanceled(s, r) && Moved(s, s', k)
    ensures StaysCanceled(s, s', r)
  {
    hide Moved, RunsSound, DependenciesSound, TokensFresh;
    MovedCanceledTasks(s, s', r, k);
    MovedCanceledAttempts(s, s', r, k);
    MovedCanceledArtifacts(s, s', r, k);
  }

  lemma MovedCanceledTasks(s: State, s': State, r: nat, k: TaskKey)
    requires CancelSound(s) && TasksLinked(s) && IsCanceled(s, r) && Moved(s, s', k)
    ensures IsCanceled(s', r) && TasksStayCanceled(s, s', r)
  {
    hide ParentsSucceeded, TokenFollows, LogFollows, ArtifactsFollow, RunOutputsMapped, AllSucceeded,
      TaskAgrees, AttemptSound;
    forall j | j in s'.tasks && j.run == r
      ensures j in s.tasks && s'.tasks[j].attempt == s.tasks[j].attempt && s'.tasks[j].state != Pending
        && s'.tasks[j].state != Running
      ensures s'.tasks[j].state == Succeeded ==> s.tasks[j].state == Succeeded
    {
      assert j in s.tasks && s.tasks[j].state != Pending && s.tasks[j].state != Running;
    }
  }

  lemma MovedCanceledAttempts(s: State, s': State, r: nat, k: TaskKey)
    requires CancelSound(s) && AttemptsNumbered(s) && IsCanceled(s, r) && Moved(s, s', k)
    ensures AttemptsStayCanceled(s, s', r)
  {
    hide ParentsSucceeded, TokenFollows, LogFollows, ArtifactsFollow, RunOutputsMapped, AllSucceeded,
      TaskAgrees, AttemptSound;
    var ck := Current(s', k);
    if k.run == r {
      assert s.tasks[k].state != Pending;
      assert ck == Current(s, k) && ck in s.attempts;
    }
  }

  /** No attempt of a canceled run succeeds. */
  lemma MovedNoSuccess(s: State, s': State, k: TaskKey)
    requires Inv(s) && IsCanceled(s, k.run) && Moved(s, s', k)
    ensures s'.attempts[Current(s', k)].state != AttemptSucceeded
  {
    hide ParentsSucceeded, TokenFollows, LogFollows, ArtifactsFollow, RunOutputsMapped, AllSucceeded,
      AttemptSound, TaskAgrees;
    MovedTaskUnfinished(s, s', k);
    assert s.tasks[k].state != Running;
  }

  lemma MovedCanceledArtifacts(s: State, s': State, r: nat, k: TaskKey)
    requires Inv(s) && IsCanceled(s, r) && Moved(s, s', k)
    ensures NoArtifactAdded(s, s', r)
  {
    hide Inv, CellSound, CellStep, LogFollows, OutputRows, OutputsMatch;
    if k.run == r {
      MovedNoSuccess(s, s', k);
    } else if s'.attempts[Current(s', k)].state == AttemptSucceeded {
      var outputs: Values :| s'.artifacts == s.artifacts + OutputRows(Current(s', k), outputs);
      forall id | id in OutputRows(Current(s', k), outputs)
        ensures id.OutputArtifact? && id.attempt == Current(s', k)
      {
        OutputRowsOwned(Current(s', k), outputs, id);
      }
    }
  }

  lemma OutputRowsOwned(ak: AttemptKey, outputs: Values, id: ArtifactId)
    requires id in OutputRows(ak, outputs)
    ensures id.OutputArtifact? && id.attempt == ak
  {
  }

  /** No step but a retry of the run brings a canceled run back. */
  lemma MovesStayCanceled(s: State, s': State, r: nat)
    requires Inv(s) && IsCanceled(s, r) && MovesButNoRetry(s, s', r)
    ensures StaysCanceled(s, s', r)
  {
    hide Inv, Moved, Accepted, StaysCanceled, Untouched, AddsRun, CancelsRun, SafeReset, IsCanceled;
    if k :| Moved(s, s', k) {
      MovedStaysCanceled(s, s', r, k);
    } else {
      CanceledFacts(s, r);
      if q :| CancelsRun(s, s', q) {
        CancelElsewhere(s, s', r, q);
      } else if q, n, D :| q != r && SafeReset(s, s', q, n, D) {
        ResetElsewhere(s, s', r, q, n, D);
      } else {
        OtherwiseStays(s, s', r);
      }
    }
  }

  lemma CanceledFacts(s: State, r: nat)
    requires Inv(s) && IsCanceled(s, r)
    ensures forall k {:trigger k in s.tasks} :: k in s.tasks && k.run == r ==>
      s.tasks[k].state != Pending && s.tasks[k].state != Running
    ensures forall k {:trigger k in s.tasks} :: k in s.tasks ==> k.run in s.runs
    ensures forall ak {:trigger ak in s.attempts} :: ak in s.attempts ==> ak.task in s.tasks
  {
  }

  lemma OtherwiseStays(s: State, s': State, r: nat)
    requires IsCanceled(s, r) && (Untouched(s, s') || exists run, plan :: AddsRun(s, s', run, plan) && Accepted(plan))
    requires forall k {:trigger k in s.tasks} :: k in s.tasks && k.run == r ==>
      s.tasks[k].state != Pending && s.tasks[k].state != Running
    requires forall k {:trigger k in s.tasks} :: k in s.tasks ==> k.run in s.runs
    ensures StaysCanceled(s, s', r)
  {
    hide Accepted, LogsNeutral, GivenTyped;
  }

  lemma CancelElsewhere(s: State, s': State, r: nat, q: nat)
    requires IsCanceled(s, r) && CancelsRun(s, s', q)
    requires forall k {:trigger k in s.tasks} :: k in s.tasks && k.run == r ==>
      s.tasks[k].state != Pending && s.tasks[k].state != Running
    ensures StaysCanceled(s, s', r)
  {
    forall k | k in s'.tasks && k.run == r ensures k in s.tasks && s'.tasks[k] == s.tasks[k] { }
    forall ak | ak in s.attempts && ak.task.run == r ensures ak in s'.attempts && s'.attempts[ak] == s.attempts[ak] { }
  }

  lemma ResetElsewhere(s: State, s': State, r: nat, q: nat, n: Name, D: set<Name>)
    requires IsCanceled(s, r) && q != r && SafeReset(s, s', q, n, D)
    requires forall k {:trigger k in s.tasks} :: k in s.tasks && k.run == r ==>
      s.tasks[k].state != Pending && s.tasks[k].state != Running
    ensures StaysCanceled(s, s', r)
  {
    forall k | k in s'.tasks && k.run == r ensures k in s.tasks && s'.tasks[k] == s.tasks[k] { }
  }

  // ---------- over whole runs ----------

  ghost predicate NextButNoRetry(w: World, w': World, run: Runner, r: nat) {
    exists a ::
      WorldLawful(w, run, a) && w' == WorldStep(w, run, a) && !(a.Engine? && a.action.DoRetryTask? && a.action.run == r)
  }

  lemma NextStaysCanceled(w: World, w': World, run: Runner, r: nat)
    requires Sound(w.db) && IsCanceled(w.db, r) && NextButNoRetry(w, w', run, r)
    ensures StaysCanceled(w.db, w'.db, r)
  {
    hide Step, Lawful, Forward, SafeReset, HonestResult, LedgerSound, ArtifactsSound, PlansSound, OutcomesMapped, Inv;
    var a :| WorldLawful(w, run, a) && w' == WorldStep(w, run, a)
      && !(a.Engine? && a.action.DoRetryTask? && a.action.run == r);
    match a
    case Build(_) => CanceledFacts(w.db, r);
    case Engine(act) =>
      StepMoves(w.db, act);
      UntouchedIsForward(w.db, w'.db);
      MovesStayCanceled(w.db, w'.db, r);
  }

  lemma UntouchedIsForward(s: State, s': State)
    ensures Untouched(s, s') ==> Forward(s, s')
  {
  }

  lemma StaysReflexive(s: State, r: nat)
    requires Sound(s) && IsCanceled(s, r)
    ensures StaysCanceled(s, s, r)
  {
    CanceledFacts(s, r);
  }

  lemma StaysTransitive(s: State, s': State, s'': State, r: nat)
    requires StaysCanceled(s, s', r) && StaysCanceled(s', s'', r)
    ensures StaysCanceled(s, s'', r)
  {
  }

  /** After a cancellation and until a retry: the run stays canceled, nothing of it runs, succeeds or is added, and
    * requests only turn into canceled. */
  lemma {:induction false} CancellationIsFinal(b: seq<World>, run: Runner, i: nat, j: nat, r: nat)
    requires Behavior(b, run) && i < j < |b| && IsCanceled(b[i].db, r)
    requires forall l {:trigger b[l]} :: i <= l < j ==> NextButNoRetry(b[l], b[l + 1], run, r)
    ensures StaysCanceled(b[i].db, b[j].db, r)
    decreases j - i
  {
    hide Behavior, StaysCanceled, NextButNoRetry, Sound;
    ReachableSound(b, run, j - 1);
    if i == j - 1 {
      NextStaysCanceled(b[i], b[i + 1], run, r);
    } else {
      CancellationIsFinal(b, run, i, j - 1, r);
      assert IsCanceled(b[j - 1].db, r) by { StayedIsCanceled(b[i].db, b[j - 1].db, r); }
      NextStaysCanceled(b[j - 1], b[j - 1 + 1], run, r);
      StaysTransitive(b[i].db, b[j - 1].db, b[j].db, r);
    }
  }

  lemma StayedIsCanceled(s: State, s': State, r: nat)
    requires StaysCanceled(s, s', r)
    ensures IsCanceled(s', r)
  {
  }

  /** `cancel_run` asks every listed attempt to cancel, and takes the token of each that has a handle. */
  lemma CancelTakesEffect(s: State, r: nat, order: seq<AttemptKey>, ak: AttemptKey, lease: Lease,
      op: LeaseOp, outputs: Values)
    requires r in s.runs && RunOpen(s.runs[r].state) && ak in s.attempts && ak.task.run == r
      && Cancellable(s.attempts[ak])
    ensures var s' := CancelRun(s, r, order);
      && IsCanceled(s', r) && s'.attempts[ak].state == CancelRequested
        && s'.attempts[ak].handle == s.attempts[ak].handle
      && (s.attempts[ak].handle.Some? && lease.attempt == ak ==>
            UnderLease(s', lease, op) == s' && Complete(s', lease, outputs) == s' && Fail(s', lease) == s')
  {
    hide OutputsMatch;
    CancelCancels(s, r, order);
  }
}
