/** A sound step of one task keeps the invariant of all of them. */
module Frame {
  import opened Store
  import opened Invariant

  lemma CellTasks(s: State, s': State, k: TaskKey, t: Task, a: Attempt, run: Run)
    requires TasksLinked(s) && CellStep(s, s', k, t, a, run) && run.plan == s.runs[k.run].plan
    ensures TasksLinked(s')
  {
  }

  lemma CellNumbers(s: State, s': State, k: TaskKey, t: Task, a: Attempt, run: Run)
    requires AttemptsNumbered(s) && CellStep(s, s', k, t, a, run)
    requires 1 <= t.attempt && (t.attempt == s.tasks[k].attempt || t.attempt == s.tasks[k].attempt + 1)
    ensures AttemptsNumbered(s')
  {
  }

  lemma CellLive(s: State, s': State, k: TaskKey, t: Task, a: Attempt, run: Run)
    requires AttemptsNumbered(s) && LiveIsCurrent(s) && CellStep(s, s', k, t, a, run) && AttemptsNumbered(s')
    requires t.attempt == s.tasks[k].attempt || s.tasks[k].state == Pending
    requires Live(a.state) ==> t.state == Running || t.state == Canceled
    ensures LiveIsCurrent(s')
  {
    forall ak | ak in s'.attempts && Live(s'.attempts[ak].state)
      ensures ak == Current(s', ak.task) && (s'.tasks[ak.task].state == Running || s'.tasks[ak.task].state == Canceled)
    {
      if ak != AttemptKey(k, t.attempt) { assert ak in s.attempts; }
    }
  }

  lemma CellAttempts(s: State, s': State, k: TaskKey, t: Task, a: Attempt, run: Run)
    requires AttemptsSound(s) && CellStep(s, s', k, t, a, run) && AttemptSound(a)
    ensures AttemptsSound(s')
  {
  }

  lemma CellAgree(s: State, s': State, k: TaskKey, t: Task, a: Attempt, run: Run)
    requires AttemptsNumbered(s) && TasksAgree(s) && CellStep(s, s', k, t, a, run) && AttemptsNumbered(s')
    requires TaskShaped(t) && TaskAgrees(t, a)
    ensures TasksAgree(s')
  {
    forall j | j in s'.tasks
      ensures TaskShaped(s'.tasks[j])
        && (s'.tasks[j].attempt >= 1 ==> TaskAgrees(s'.tasks[j], s'.attempts[Current(s', j)]))
    {
      if j != k { assert j in s.tasks && Current(s', j) == Current(s, j); }
    }
  }

  lemma CellTokens(s: State, s': State, k: TaskKey, t: Task, a: Attempt, run: Run)
    requires TokensFresh(s) && CellStep(s, s', k, t, a, run) && TokenFollows(s, s'.nextToken, k, t, a)
    ensures TokensFresh(s')
  {
    var ck := AttemptKey(k, t.attempt);
    assert a.hold.Some? ==> a.hold.value.token < s'.nextToken by {
      if ck in s.attempts { assert s'.nextToken >= s.nextToken; }
    }
    forall x, y | x in s'.attempts && y in s'.attempts && x != y && s'.attempts[x].hold.Some?
      && s'.attempts[y].hold.Some?
      ensures s'.attempts[x].hold.value.token != s'.attempts[y].hold.value.token
    {
      if x != ck { assert x in s.attempts; }
      if y != ck { assert y in s.attempts; }
    }
  }

  lemma CellCancel(s: State, s': State, k: TaskKey, t: Task, a: Attempt, run: Run)
    requires CancelSound(s) && CellStep(s, s', k, t, a, run)
    requires a.state == CancelRequested ==> run.state == RunCanceled
    requires run.state == RunCanceled <==> s.runs[k.run].state == RunCanceled
    requires run.state == RunCanceled ==> t.state != Pending && t.state != Running
    ensures CancelSound(s')
  {
    forall ak | ak in s'.attempts && s'.attempts[ak].state == CancelRequested
      ensures ak.task.run in s'.runs && s'.runs[ak.task.run].state == RunCanceled
    {
      if ak != AttemptKey(k, t.attempt) { assert ak in s.attempts; }
    }
  }

  lemma CellRuns(s: State, s': State, k: TaskKey, t: Task, a: Attempt, run: Run)
    requires RunsSound(s) && CellStep(s, s', k, t, a, run)
    requires run.state == RunSucceeded <==> AllSucceeded(s.tasks[k := t], k.run)
    requires run.state == RunFailed ==> t.state == Failed || s.runs[k.run].state == RunFailed
    requires s.tasks[k].state == Failed ==> t.state == Failed
    ensures RunsSound(s')
  {
    forall r | r in s'.runs ensures s'.runs[r].state == RunSucceeded <==> AllSucceeded(s'.tasks, r) {
      if r != k.run { AllSucceededElsewhere(s.tasks, k, t, r); }
    }
    forall r | r in s'.runs && s'.runs[r].state == RunFailed
      ensures exists j :: j in s'.tasks && j.run == r && s'.tasks[j].state == Failed
    {
      if t.state == Failed && k.run == r {
        assert k in s'.tasks;
      } else {
        var j :| j in s.tasks && j.run == r && s.tasks[j].state == Failed;
        assert j in s'.tasks;
      }
    }
  }

  lemma AllSucceededElsewhere(tasks: map<TaskKey, Task>, k: TaskKey, t: Task, r: nat)
    requires k in tasks && k.run != r
    ensures AllSucceeded(tasks[k := t], r) <==> AllSucceeded(tasks, r)
  {
    var tasks' := tasks[k := t];
    assert forall j :: j in tasks' <==> j in tasks;
    forall j | j in tasks && j.run == r ensures tasks'[j] == tasks[j] { }
  }

  lemma CellDependencies(s: State, s': State, k: TaskKey, t: Task, a: Attempt, run: Run)
    requires DependenciesSound(s) && CellStep(s, s', k, t, a, run)
    requires run.plan == s.runs[k.run].plan
    requires t.state == Running || t.state == Succeeded || Live(a.state) ==> ParentsSucceeded(s, k)
    requires s.tasks[k].state == Succeeded ==> t.state == Succeeded
    ensures DependenciesSound(s')
  {
    forall j | j in s'.tasks && (s'.tasks[j].state == Running || s'.tasks[j].state == Succeeded)
      ensures j.run in s'.runs && ParentsSucceeded(s', j)
    {
      assert j in s.tasks && ParentsSucceeded(s, j);
    }
    forall ak | ak in s'.attempts && Live(s'.attempts[ak].state)
      ensures ak.task.run in s'.runs && ParentsSucceeded(s', ak.task)
    {
      if ak != AttemptKey(k, t.attempt) { assert ak in s.attempts; }
      assert ParentsSucceeded(s, ak.task);
    }
  }

  lemma MovedKeeps(s: State, s': State, k: TaskKey)
    requires Inv(s) && Moved(s, s', k)
    ensures Inv(s')
  {
    var t, a, run := s'.tasks[k], s'.attempts[Current(s', k)], s'.runs[k.run];
    CellTasks(s, s', k, t, a, run);
    CellNumbers(s, s', k, t, a, run);
    CellLive(s, s', k, t, a, run);
    CellAttempts(s, s', k, t, a, run);
    CellAgree(s, s', k, t, a, run);
    CellTokens(s, s', k, t, a, run);
    CellCancel(s, s', k, t, a, run);
    CellRuns(s, s', k, t, a, run);
    CellDependencies(s, s', k, t, a, run);
  }
}
