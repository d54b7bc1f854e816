/** Expiry of all lapsed leases at once, and the order in which `claim_task` serves attempts and tasks. */
module Recovery {
  import opened Names
  import opened Workflows
  import opened Store
  import opened Invariant
  import opened Protocol
  import opened World
  import opened Outcomes

  // ---------- resetting expired leases ----------

  lemma ExpireKeepsLinks(s: State, k: TaskKey, now: int)
    requires TasksLinked(s)
    ensures TasksLinked(ExpireRow(s, k, now))
  {
  }

  /** The rows of `_reset_expired_leases`, one after the other. */
  function ResetRows(s: State, rows: seq<TaskKey>, now: int): (r: State)
    requires TasksLinked(s)
    ensures TasksLinked(r)
  {
    if rows == [] then s else
    var r := ResetRows(s, rows[..|rows| - 1], now);
    ExpireKeepsLinks(r, rows[|rows| - 1], now);
    ExpireRow(r, rows[|rows| - 1], now)
  }

  /** `rows` lists every expired row once. */
  ghost predicate ListsExpired(s: State, now: int, rows: seq<TaskKey>) {
    && (forall i, j :: 0 <= i < j < |rows| ==> rows[i] != rows[j])
    && (forall k :: k in rows <==> Expired(s, k, now))
  }

  /** Two stores agree on everything an expiry of task `k` reads. */
  ghost predicate SameCell(s: State, s': State, k: TaskKey) {
    && s'.runs == s.runs
    && (k in s'.tasks <==> k in s.tasks) && (k in s.tasks ==> s'.tasks[k] == s.tasks[k])
    && (forall i: nat {:trigger AttemptKey(k, i)} ::
          && (AttemptKey(k, i) in s'.attempts <==> AttemptKey(k, i) in s.attempts)
          && (AttemptKey(k, i) in s.attempts ==> s'.attempts[AttemptKey(k, i)] == s.attempts[AttemptKey(k, i)]))
  }

  lemma ExpireElsewhere(s: State, j: TaskKey, now: int, k: TaskKey)
    requires TasksLinked(s) && j != k
    ensures SameCell(s, ExpireRow(s, j, now), k)
  {
  }

  /** A row not listed is left alone. */
  lemma {:induction false} ResetElsewhere(s: State, rows: seq<TaskKey>, now: int, k: TaskKey)
    requires TasksLinked(s) && k !in rows
    ensures SameCell(s, ResetRows(s, rows, now), k)
  {
    if rows != [] {
      ResetElsewhere(s, rows[..|rows| - 1], now, k);
      ExpireElsewhere(ResetRows(s, rows[..|rows| - 1], now), rows[|rows| - 1], now, k);
    }
  }

  /** Resetting all listed rows does to each of them what resetting it alone does. */
  lemma {:induction false} ResetAt(s: State, rows: seq<TaskKey>, now: int, k: TaskKey)
    requires TasksLinked(s) && k in rows && forall i, j :: 0 <= i < j < |rows| ==> rows[i] != rows[j]
    ensures SameCell(ExpireRow(s, k, now), ResetRows(s, rows, now), k)
    decreases |rows|
  {
    var init, last := rows[..|rows| - 1], rows[|rows| - 1];
    var r := ResetRows(s, init, now);
    if k == last {
      ResetElsewhere(s, init, now, k);
      SameCellExpires(s, r, k, now);
    } else {
      ResetAt(s, init, now, k);
      ExpireElsewhere(r, last, now, k);
    }
  }

  lemma TaskHasRun(s: State, k: TaskKey)
    requires TasksLinked(s) && k in s.tasks
    ensures k.run in s.runs
  {
  }

  lemma SameCellExpires(s: State, r: State, k: TaskKey, now: int)
    requires TasksLinked(s) && TasksLinked(r) && SameCell(s, r, k)
    ensures SameCell(ExpireRow(s, k, now), ExpireRow(r, k, now), k)
  {
    hide TasksLinked, AttemptAfterExpiry, TaskAfterExpiry, ExpiryOf, ExpiryEvent;
    if k in s.tasks {
      assert k.run in s.runs by { TaskHasRun(s, k); }
      assert Current(s, k) == AttemptKey(k, s.tasks[k].attempt);
    }
  }

  lemma {:induction false} ResetKeepsSound(s: State, rows: seq<TaskKey>, now: int)
    requires Sound(s) && TasksLinked(s)
    ensures Sound(ResetRows(s, rows, now))
  {
    hide Sound;
    if rows != [] {
      ResetKeepsSound(s, rows[..|rows| - 1], now);
      StepKeepsSound(ResetRows(s, rows[..|rows| - 1], now), DoExpire(rows[|rows| - 1], now));
    }
  }

  // ---------- admission and order ----------

  /** A worker's filters; none admits everything. */
  predicate Admits(t: Task, targets: Option<set<Name>>, classes: Option<set<Name>>) {
    (targets.Some? ==> t.target in targets.value) && (classes.Some? ==> t.class_ in classes.value)
  }

  predicate RecoverableFor(s: State, ak: AttemptKey, targets: Option<set<Name>>, classes: Option<set<Name>>) {
    ak in s.attempts && ak.task in s.tasks && Recoverable(s.attempts[ak]) && Admits(s.tasks[ak.task], targets, classes)
  }

  predicate ClaimableFor(s: State, k: TaskKey, targets: Option<set<Name>>, classes: Option<set<Name>>) {
    Claimable(s, k) && Admits(s.tasks[k], targets, classes)
  }

  /** Attempts to cancel come first, then earlier starts, then lower sequence numbers. */
  predicate RecoversBefore(s: State, a: AttemptKey, b: AttemptKey)
    requires a in s.attempts && b in s.attempts && a.task in s.tasks && b.task in s.tasks
  {
    var x, y := s.attempts[a], s.attempts[b];
    var p, q := if x.state == CancelRequested then 0 else 1, if y.state == CancelRequested then 0 else 1;
    p < q
      || (p == q && (x.startedAt < y.startedAt
        || (x.startedAt == y.startedAt && s.tasks[a.task].sequence < s.tasks[b.task].sequence)))
  }

  /** Earlier runs come first, then lower sequence numbers. */
  predicate ClaimsBefore(s: State, a: TaskKey, b: TaskKey)
    requires a in s.tasks && b in s.tasks && a.run in s.runs && b.run in s.runs
  {
    s.runs[a.run].createdAt < s.runs[b.run].createdAt
    || (s.runs[a.run].createdAt == s.runs[b.run].createdAt && s.tasks[a].sequence < s.tasks[b].sequence)
  }

  /** The attempt is one the recovery query may put first. */
  ghost predicate FirstRecoverable(s: State, ak: AttemptKey, targets: Option<set<Name>>, classes: Option<set<Name>>) {
    RecoverableFor(s, ak, targets, classes)
      && forall b :: RecoverableFor(s, b, targets, classes) ==> !RecoversBefore(s, b, ak)
  }

  /** The task is one the candidate query may put first among those that can start. */
  ghost predicate FirstClaimable(s: State, k: TaskKey, targets: Option<set<Name>>, classes: Option<set<Name>>) {
    ClaimableFor(s, k, targets, classes) && forall j :: ClaimableFor(s, j, targets, classes) ==> !ClaimsBefore(s, j, k)
  }

  /** A live attempt whose lease has lapsed is out of reach of expiry, and so of recovery, exactly when its task was
    * canceled over it without asking it to cancel. */
  lemma LapsedIsStrandedIff(s: State, ak: AttemptKey, now: int)
    requires Inv(s) && ak in s.attempts && Live(s.attempts[ak].state) && HoldLapsed(s.attempts[ak].hold, now)
    ensures ak.task in s.tasks && !Recoverable(s.attempts[ak])
    ensures !Expired(s, ak.task, now) <==> s.tasks[ak.task].state == Canceled && s.attempts[ak].state != CancelRequested
  {
    hide AttemptsSound, TokensFresh, CancelSound, RunsSound, DependenciesSound, TasksLinked;
    assert ak == Current(s, ak.task);
  }

  /** Once leases have lapsed, an open run with a running task has something an unrestricted claim returns. */
  lemma LapsedRunIsServed(s: State, rows: seq<TaskKey>, now: int, k: TaskKey)
    requires Inv(s) && ListsExpired(s, now, rows) && k in s.tasks && k.run in s.runs
      && s.tasks[k].state == Running && RunOpen(s.runs[k.run].state)
    requires s.tasks[k].hold.Some? ==> s.tasks[k].hold.value.expires < now
    ensures var s' := ResetRows(s, rows, now);
      (exists ak :: RecoverableFor(s', ak, None, None)) || (exists j :: ClaimableFor(s', j, None, None))
  {
    hide Inv, Recoverable, ExpireRow, Expired, ParentsSucceeded, ResetRows, TasksLinked;
    InvLinks(s);
    ResetHere(s, rows, now, k);
    LapsedRunningReturns(s, k, now);
    RunningReady(s, k);
    ParentsStay(s, rows, now, k);
    ServedAfter(ExpireRow(s, k, now), ResetRows(s, rows, now), s, k);
  }

  lemma InvLinks(s: State)
    requires Inv(s)
    ensures TasksLinked(s)
  {
  }

  lemma RunningReady(s: State, k: TaskKey)
    requires Inv(s) && k in s.tasks && s.tasks[k].state == Running
    ensures k.run in s.runs && ParentsSucceeded(s, k)
  {
  }

  lemma ResetHere(s: State, rows: seq<TaskKey>, now: int, k: TaskKey)
    requires TasksLinked(s) && ListsExpired(s, now, rows) && k in s.tasks
    ensures SameCell(ExpireRow(s, k, now), ResetRows(s, rows, now), k) && k in ExpireRow(s, k, now).tasks
  {
    hide ResetRows, TasksLinked;
    ExpireHere(s, k, now);
    if k in rows {
      ResetAt(s, rows, now, k);
    } else {
      ResetElsewhere(s, rows, now, k);
    }
  }

  /** What expiry made of the cell alone is what a claim finds after all rows were reset. */
  lemma ServedAfter(x: State, s': State, s: State, k: TaskKey)
    requires SameCell(x, s', k) && k in x.tasks && k in s.tasks && k.run in s.runs && s'.runs == s.runs
      && RunOpen(s.runs[k.run].state) && ParentsSucceeded(s', k)
    requires (Current(s, k) in x.attempts && Recoverable(x.attempts[Current(s, k)])) || Claimable(x, k)
    ensures (exists ak :: RecoverableFor(s', ak, None, None)) || (exists j :: ClaimableFor(s', j, None, None))
  {
    hide Recoverable, ParentsSucceeded;
    var ck := AttemptKey(k, s.tasks[k].attempt);
    if ck in x.attempts && Recoverable(x.attempts[ck]) {
      assert RecoverableFor(s', ck, None, None);
    } else {
      assert ClaimableFor(s', k, None, None);
    }
  }

  lemma SucceededIsNotExpired(s: State, k: TaskKey, now: int)
    requires AttemptsNumbered(s) && TasksAgree(s) && k in s.tasks && s.tasks[k].state == Succeeded
    ensures !Expired(s, k, now)
  {
    assert TaskShaped(s.tasks[k]);
    assert s.tasks[k].attempt >= 1 ==> AttemptKey(k, s.tasks[k].attempt) in s.attempts;
  }

  lemma ParentsStay(s: State, rows: seq<TaskKey>, now: int, k: TaskKey)
    requires Inv(s) && ListsExpired(s, now, rows) && k in s.tasks && ParentsSucceeded(s, k)
    ensures var s' := ResetRows(s, rows, now); s'.runs == s.runs && k.run in s'.runs && ParentsSucceeded(s', k)
  {
    var s' := ResetRows(s, rows, now);
    RunsStay(s, rows, now);
    hide ResetRows, LiveIsCurrent, AttemptsSound, TokensFresh, CancelSound, RunsSound, DependenciesSound;
    forall m | m in Parents(s.runs[k.run].plan.wf, k.node)
      ensures TaskKey(k.run, m) in s'.tasks && s'.tasks[TaskKey(k.run, m)].state == Succeeded
    {
      SucceededIsNotExpired(s, TaskKey(k.run, m), now);
      ResetElsewhere(s, rows, now, TaskKey(k.run, m));
    }
  }

  lemma {:induction false} RunsStay(s: State, rows: seq<TaskKey>, now: int)
    requires TasksLinked(s)
    ensures ResetRows(s, rows, now).runs == s.runs
  {
    if rows != [] {
      RunsStay(s, rows[..|rows| - 1], now);
    }
  }

  lemma ExpireHere(s: State, k: TaskKey, now: int)
    requires TasksLinked(s) && k in s.tasks
    ensures k in ExpireRow(s, k, now).tasks && (!Expired(s, k, now) ==> ExpireRow(s, k, now) == s)
  {
  }
}
