/** The master invariant of the lease protocol. */
module Invariant {
  import opened Names
  import opened Workflows
  import opened Store

  /** Tasks are exactly the nodes of the runs. */
  ghost predicate TasksLinked(s: State) {
    && (forall k {:trigger k in s.tasks} :: k in s.tasks ==> k.run in s.runs && k.node in s.runs[k.run].plan.ops)
    && (forall r, n {:trigger TaskKey(r, n)} :: r in s.runs && n in s.runs[r].plan.ops ==> TaskKey(r, n) in s.tasks)
  }

  /** The attempts of a task are numbered 1 to the task's counter, with no gap. */
  ghost predicate AttemptsNumbered(s: State) {
    && (forall ak {:trigger ak in s.attempts} :: ak in s.attempts ==>
      ak.task in s.tasks && 1 <= ak.number <= s.tasks[ak.task].attempt)
    && (forall k, i {:trigger AttemptKey(k, i)} :: k in s.tasks && 1 <= i <= s.tasks[k].attempt ==>
      AttemptKey(k, i) in s.attempts)
  }

  ghost predicate RowsLinked(s: State) {
    TasksLinked(s) && AttemptsNumbered(s)
  }

  /** A live attempt is the highest numbered of its task, so there is at most one. */
  ghost predicate LiveIsCurrent(s: State)
    requires AttemptsNumbered(s)
  {
    forall ak {:trigger ak in s.attempts} :: ak in s.attempts && Live(s.attempts[ak].state) ==>
      ak == Current(s, ak.task) && (s.tasks[ak.task].state == Running || s.tasks[ak.task].state == Canceled)
  }

  predicate SameHold(t: Option<TaskHold>, a: Option<Hold>) {
    if t.Some? && a.Some?
      then t.value.token == a.value.token && t.value.expires == a.value.expires
      else t.None? && a.None?
  }

  /** A task row and its latest attempt tell the same story. */
  ghost predicate TaskAgrees(t: Task, a: Attempt) {
    match t.state
    case Running =>
      (a.state.Leased? || a.state.Submitting? || a.state.Submitted? || a.state.TargetRunning? || a.state.Collecting?)
        && SameHold(t.hold, a.hold)
    case Succeeded => a.state == AttemptSucceeded && a.outputs == t.outputs && t.hold.None?
    case Failed => a.state == AttemptFailed && t.hold.None?
    case Pending => Terminal(a.state) && t.hold.None?
    case Canceled => true
  }

  ghost predicate TaskShaped(t: Task) {
    && (t.attempt == 0 ==> t.hold.None? && (t.state == Pending || t.state == Canceled))
    && (t.state != Succeeded ==> t.outputs == map[])
  }

  ghost predicate TasksAgree(s: State)
    requires AttemptsNumbered(s)
  {
    forall k {:trigger k in s.tasks} :: k in s.tasks ==>
      TaskShaped(s.tasks[k]) && (s.tasks[k].attempt >= 1 ==> TaskAgrees(s.tasks[k], s.attempts[Current(s, k)]))
  }

  /** Terminal attempts carry no token, and a live attempt without a token is one `claim_task` can recover. */
  predicate AttemptSound(a: Attempt) {
    && (Terminal(a.state) ==> a.hold.None?)
    && (a.state.Submitted? || a.state.TargetRunning? || a.state.Collecting? ==> a.handle.Some?)
    && (a.state.Leased? || a.state.Submitting? ==> a.handle.None?)
    && (Live(a.state) && a.hold.None? ==> Recoverable(a))
  }

  ghost predicate AttemptsSound(s: State) {
    forall ak {:trigger ak in s.attempts} :: ak in s.attempts ==> AttemptSound(s.attempts[ak])
  }

  /** Tokens in rows have been issued, and no two attempts share one. */
  ghost predicate TokensFresh(s: State) {
    && (forall ak {:trigger ak in s.attempts} :: ak in s.attempts && s.attempts[ak].hold.Some? ==>
      s.attempts[ak].hold.value.token < s.nextToken)
    && (forall k {:trigger k in s.tasks} :: k in s.tasks && s.tasks[k].hold.Some? ==>
      s.tasks[k].hold.value.token < s.nextToken)
    && (forall a, b {:trigger a in s.attempts, b in s.attempts} ::
          (a in s.attempts && b in s.attempts && a != b
            && s.attempts[a].hold.Some? && s.attempts[b].hold.Some?) ==>
          s.attempts[a].hold.value.token != s.attempts[b].hold.value.token)
  }

  /** A canceled run has no pending or running task, and only its attempts are asked to cancel. */
  ghost predicate CancelSound(s: State) {
    && (forall k {:trigger k in s.tasks} :: k in s.tasks && k.run in s.runs && s.runs[k.run].state == RunCanceled ==>
      s.tasks[k].state != Pending && s.tasks[k].state != Running)
    && (forall ak {:trigger ak in s.attempts} :: ak in s.attempts && s.attempts[ak].state == CancelRequested ==>
      ak.task.run in s.runs && s.runs[ak.task.run].state == RunCanceled)
  }

  /** A run is succeeded if and only if all its tasks are; a failed run shows a failed task. */
  ghost predicate RunsSound(s: State) {
    && (forall r {:trigger r in s.runs} :: r in s.runs ==>
      (s.runs[r].state == RunSucceeded <==> AllSucceeded(s.tasks, r)))
    && (forall r {:trigger r in s.runs} :: r in s.runs && s.runs[r].state == RunFailed ==>
      exists k :: k in s.tasks && k.run == r && s.tasks[k].state == Failed)
  }

  /** Nothing runs, has succeeded, or is still live at a target before all its parents succeeded. */
  ghost predicate DependenciesSound(s: State) {
    && (forall k {:trigger k in s.tasks} ::
          k in s.tasks && (s.tasks[k].state == Running || s.tasks[k].state == Succeeded) ==>
          k.run in s.runs && ParentsSucceeded(s, k))
    && (forall ak {:trigger ak in s.attempts} :: ak in s.attempts && Live(s.attempts[ak].state) ==>
      ak.task.run in s.runs && ParentsSucceeded(s, ak.task))
  }

  ghost predicate Inv(s: State) {
    && RowsLinked(s)
    && LiveIsCurrent(s)
    && TasksAgree(s)
    && AttemptsSound(s)
    && TokensFresh(s)
    && CancelSound(s)
    && RunsSound(s)
    && DependenciesSound(s)
  }

  // ---------- steps that touch one task and its latest attempt ----------

  /** `s'` rewrites task `k`, its latest attempt and its run's row, and nothing else the invariant reads. */
  ghost predicate CellStep(s: State, s': State, k: TaskKey, t: Task, a: Attempt, run: Run) {
    && k in s.tasks && k.run in s.runs
    && s'.tasks == s.tasks[k := t]
    && s'.attempts == s.attempts[AttemptKey(k, t.attempt) := a]
    && s'.runs == s.runs[k.run := run]
    && s.nextToken <= s'.nextToken
    && s'.plans == s.plans
  }

  ghost predicate TokenFollows(s: State, next: nat, k: TaskKey, t: Task, a: Attempt)
    requires k in s.tasks
  {
    && (a.hold.Some? ==>
          || (AttemptKey(k, t.attempt) in s.attempts && s.attempts[AttemptKey(k, t.attempt)].hold.Some?
            && s.attempts[AttemptKey(k, t.attempt)].hold.value.token == a.hold.value.token)
          || s.nextToken == a.hold.value.token < next)
    && (t.hold.Some? ==>
          || t.hold == s.tasks[k].hold
          || (a.hold.Some? && t.hold.value.token == a.hold.value.token))
  }

  /** The run's outputs are the task outputs its workflow maps them to, and every mapped port was produced. */
  ghost predicate RunOutputsMapped(run: Run, tasks: map<TaskKey, Task>, r: nat) {
    run.outputs == RunOutputs(run.plan.wf.outputs, tasks, r) && !RunOutputsRaise(run.plan.wf.outputs, tasks, r)
  }

  /** The rewritten rows are sound on their own and against the rest of the store. */
  ghost predicate CellSound(s: State, next: nat, k: TaskKey, t: Task, a: Attempt, run: Run)
    requires k in s.tasks && k.run in s.runs
  {
    var t0, run0 := s.tasks[k], s.runs[k.run];
    && run.plan == run0.plan && run.inputs == run0.inputs
    && 1 <= t.attempt
    && (AttemptKey(k, t.attempt) in s.attempts ==> Live(s.attempts[AttemptKey(k, t.attempt)].state))
    && (t.attempt == t0.attempt || (t.attempt == t0.attempt + 1 && t0.state == Pending))
    && TaskShaped(t) && TaskAgrees(t, a) && AttemptSound(a)
    && (Live(a.state) ==> t.state == Running || t.state == Canceled)
    && TokenFollows(s, next, k, t, a)
    && (a.state == CancelRequested ==> run.state == RunCanceled)
    && (run.state == RunCanceled <==> run0.state == RunCanceled)
    && (run.state == RunCanceled ==> t.state != Pending && t.state != Running)
    && (t.state == Running || t.state == Succeeded || Live(a.state) ==> ParentsSucceeded(s, k))
    && (t0.state == Succeeded ==> t.state == Succeeded)
    && (t0.state == Failed ==> t.state == Failed)
    && (t.state == Succeeded ==> t0.state == Running || t0.state == Succeeded)
    && (a.state == AttemptSucceeded ==> t.state == Succeeded)
    && (AttemptKey(k, t.attempt) in s.attempts && s.attempts[AttemptKey(k, t.attempt)].state != Leased ==>
      a.state != Leased && a.state != Abandoned)
    && (AttemptKey(k, t.attempt) in s.attempts && s.attempts[AttemptKey(k, t.attempt)].state == CancelRequested ==>
          a.state == CancelRequested || a.state == AttemptCanceled)
    && (run.state == RunSucceeded <==> AllSucceeded(s.tasks[k := t], k.run))
    && (run.state == RunFailed ==> t.state == Failed || run0.state == RunFailed)
    && (run.state == RunSucceeded ==> RunOutputsMapped(run, s.tasks[k := t], k.run))
  }

  /** What one step may append to the log: nothing, or one event about this attempt that tells what happened to it. */
  ghost predicate LogFollows(s: State, s': State, k: TaskKey, t: Task, a: Attempt)
    requires k in s.tasks
  {
    if s'.events == s.events then t.attempt == s.tasks[k].attempt && Live(a.state)
    else
      && s'.events != []
      && var e := s'.events[|s'.events| - 1];
         && s'.events == s.events + [e] && e.task == k && e.number == Some(t.attempt)
         && (e.kind == TaskLeased <==> t.attempt == s.tasks[k].attempt + 1)
         && (if Terminal(a.state) then e.kind == EndEvent(a.state) else !IsEnd(e.kind))
  }

  /** Artifacts are added only by an attempt that succeeds, under its own key. */
  ghost predicate ArtifactsFollow(s: State, s': State, k: TaskKey, t: Task, a: Attempt) {
    if a.state == AttemptSucceeded
    then
      && k.run in s.runs && k.node in s.runs[k.run].plan.ops
      && exists outputs: Values ::
           && s'.artifacts == s.artifacts + OutputRows(AttemptKey(k, t.attempt), outputs)
           && t.outputs == OutputIds(AttemptKey(k, t.attempt), outputs)
           && OutputsMatch(outputs, s.runs[k.run].plan.ops[k.node].outputs)
    else s'.artifacts == s.artifacts
  }

  /** A sound step of one task: every transaction about a single task is one. */
  ghost predicate Moved(s: State, s': State, k: TaskKey) {
    && k in s.tasks && k.run in s.runs && k in s'.tasks && k.run in s'.runs && Current(s', k) in s'.attempts
    && var t, a, run := s'.tasks[k], s'.attempts[Current(s', k)], s'.runs[k.run];
       && CellStep(s, s', k, t, a, run)
       && CellSound(s, s'.nextToken, k, t, a, run)
       && LogFollows(s, s', k, t, a)
       && ArtifactsFollow(s, s', k, t, a)
  }

  // ---------- what the invariant says of one cell ----------

  /** The invariant, read at a task that has an attempt. */
  ghost predicate CellFacts(s: State, k: TaskKey) {
    && k in s.tasks && k.run in s.runs && Current(s, k) in s.attempts
    && var t, a, run := s.tasks[k], s.attempts[Current(s, k)], s.runs[k.run];
       && 1 <= t.attempt
       && TaskShaped(t) && TaskAgrees(t, a) && AttemptSound(a)
       && (Live(a.state) ==> t.state == Running || t.state == Canceled)
       && (a.state == CancelRequested ==> run.state == RunCanceled)
       && (run.state == RunCanceled ==> t.state != Pending && t.state != Running)
       && (t.state == Running || t.state == Succeeded || Live(a.state) ==> ParentsSucceeded(s, k))
       && (t.state != Succeeded ==> run.state != RunSucceeded)
  }

  lemma CellView(s: State, k: TaskKey)
    requires Inv(s) && k in s.tasks && s.tasks[k].attempt >= 1
    ensures CellFacts(s, k)
  {
    assert Current(s, k) in s.attempts;
  }

  /** A held attempt is the current one of its task. */
  lemma HeldIsCurrent(s: State, lease: Lease)
    requires Inv(s) && Holds(s, lease)
    ensures lease.attempt.task in s.tasks && lease.attempt == Current(s, lease.attempt.task)
      && s.tasks[lease.attempt.task].attempt >= 1
    ensures Live(s.attempts[lease.attempt].state)
  {
    assert lease.attempt in s.attempts && AttemptSound(s.attempts[lease.attempt]);
  }

  lemma OpenTask(tasks: map<TaskKey, Task>, k: TaskKey)
    requires k in tasks && tasks[k].state != Succeeded
    ensures !AllSucceeded(tasks, k.run)
  {
  }

  // ---------- every transaction about one task is a sound step ----------

  lemma UnderLeaseRows(t: Task, a: Attempt, token: nat, op: LeaseOp)
    requires a.hold.Some? && a.hold.value.token == token && Live(a.state)
    requires TaskShaped(t) && TaskAgrees(t, a) && AttemptSound(a) && (t.state == Running || t.state == Canceled)
    requires op.Release? ==> a.handle.Some?
    requires op.RecordStatus? ==> a.handle.Some? && a.state != CancelRequested
    ensures var t', a' := TaskAfter(t, token, op), AttemptAfter(a, op);
      && TaskShaped(t') && TaskAgrees(t', a') && AttemptSound(a')
      && (t'.state == t.state || t'.state == Canceled) && t'.attempt == t.attempt
      && (a'.hold.Some? ==> a'.hold.value.token == token)
      && (t'.hold.Some? ==> t'.hold == t.hold || (a'.hold.Some? && t'.hold.value.token == token))
      && (a'.state == CancelRequested ==> a.state == CancelRequested)
      && (a.state == CancelRequested ==> a'.state == CancelRequested || a'.state == AttemptCanceled)
      && (a.state != Leased ==> a'.state != Leased && a'.state != Abandoned)
      && (Terminal(a'.state) ==> a'.state == AttemptCanceled && EventFor(a, op) == Some(TaskCanceled))
      && (Live(a'.state) && EventFor(a, op).Some? ==> !IsEnd(EventFor(a, op).value))
      && (EventFor(a, op).Some? ==> EventFor(a, op).value != TaskLeased)
      && a'.state != AttemptSucceeded
  {
  }

  /** The worker's discipline: it releases only once a handle is recorded, and reports only on an attempt with a
    * handle and no cancel request. */
  predicate OpLawful(s: State, lease: Lease, op: LeaseOp) {
    Holds(s, lease) ==>
      && (op.Release? ==> s.attempts[lease.attempt].handle.Some?)
      && (op.RecordStatus? ==>
            s.attempts[lease.attempt].handle.Some? && s.attempts[lease.attempt].state != CancelRequested)
  }

  lemma UnderLeaseMoves(s: State, lease: Lease, op: LeaseOp)
    requires Holds(s, lease) && CellFacts(s, lease.attempt.task) && lease.attempt == Current(s, lease.attempt.task)
    requires Live(s.attempts[lease.attempt].state) && OpLawful(s, lease, op)
    ensures Moved(s, UnderLease(s, lease, op), lease.attempt.task)
  {
    var s', k := UnderLease(s, lease, op), lease.attempt.task;
    UnderLeaseRows(s.tasks[k], s.attempts[lease.attempt], lease.token, op);
    OpenTask(s.tasks[k := s'.tasks[k]], k);
  }

  /** A lease that can close its task names the task's current attempt. */
  lemma CloserIsCurrent(s: State, lease: Lease)
    requires Inv(s) && Closes(s, lease)
    ensures lease.attempt == Current(s, lease.attempt.task) && CellFacts(s, lease.attempt.task)
  {
    assert lease.attempt in s.attempts && AttemptSound(s.attempts[lease.attempt]);
    CellView(s, lease.attempt.task);
  }

  lemma FailMoves(s: State, lease: Lease)
    requires Closes(s, lease) && CellFacts(s, lease.attempt.task) && lease.attempt == Current(s, lease.attempt.task)
    ensures Moved(s, Fail(s, lease), lease.attempt.task)
  {
    var s', k := Fail(s, lease), lease.attempt.task;
    OpenTask(s.tasks[k := s'.tasks[k]], k);
  }

  lemma CompleteMoves(s: State, lease: Lease, outputs: Values)
    requires Completes(s, lease, outputs) && CellFacts(s, lease.attempt.task)
      && lease.attempt == Current(s, lease.attempt.task)
    ensures Moved(s, Complete(s, lease, outputs), lease.attempt.task)
  {
  }

  lemma ExpireRows(t: Task, a: Attempt, run: RunState)
    requires TaskShaped(t) && TaskAgrees(t, a) && AttemptSound(a) && t.attempt >= 1
    requires t.state == Running || a.state == CancelRequested
    requires a.state == CancelRequested ==> run == RunCanceled && t.state == Canceled
    requires run == RunCanceled ==> t.state != Running
    ensures var x := ExpiryOf(run, a); var t', a' := TaskAfterExpiry(t, x), AttemptAfterExpiry(a, x);
      && TaskShaped(t') && TaskAgrees(t', a') && AttemptSound(a')
      && (t'.state == t.state || (t'.state == Pending && t.state == Running)) && t'.attempt == t.attempt
      && (Live(a'.state) ==> t'.state == t.state)
      && a'.hold.None? && t'.hold.None?
      && (a'.state == CancelRequested ==> a.state == CancelRequested)
      && (a.state == CancelRequested ==> a'.state == CancelRequested || a'.state == AttemptCanceled)
      && (a.state != Leased ==> a'.state != Leased && a'.state != Abandoned)
      && (if Terminal(a'.state) then EndEvent(a'.state) == ExpiryEvent(x) else !IsEnd(ExpiryEvent(x)))
      && a'.state != AttemptSucceeded
  {
  }

  lemma ExpireMoves(s: State, k: TaskKey, now: int)
    requires CellFacts(s, k) && Expired(s, k, now)
    ensures Moved(s, ExpireRow(s, k, now), k)
  {
    var s' := ExpireRow(s, k, now);
    ExpireRows(s.tasks[k], s.attempts[Current(s, k)], s.runs[k.run].state);
    OpenTask(s.tasks[k := s'.tasks[k]], k);
  }

  lemma ClaimRecoveredMoves(s: State, ak: AttemptKey, worker: Name, expires: int)
    requires CellFacts(s, ak.task) && ak == Current(s, ak.task) && Recoverable(s.attempts[ak])
    ensures Moved(s, ClaimRecovered(s, ak, worker, expires), ak.task)
  {
    var s', k := ClaimRecovered(s, ak, worker, expires), ak.task;
    OpenTask(s.tasks[k := s'.tasks[k]], k);
  }

  lemma RecoverableIsCurrent(s: State, ak: AttemptKey)
    requires Inv(s) && ak in s.attempts && Recoverable(s.attempts[ak])
    ensures ak.task in s.tasks && ak == Current(s, ak.task) && CellFacts(s, ak.task)
  {
    CellView(s, ak.task);
  }

  lemma ClaimFreshMoves(s: State, k: TaskKey, worker: Name, now: int, expires: int)
    requires Claimable(s, k) && TaskShaped(s.tasks[k]) && AttemptKey(k, s.tasks[k].attempt + 1) !in s.attempts
    ensures Moved(s, ClaimFresh(s, k, worker, now, expires), k)
  {
    var s' := ClaimFresh(s, k, worker, now, expires);
    OpenTask(s.tasks[k := s'.tasks[k]], k);
  }

}
