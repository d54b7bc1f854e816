/** Running until idle: from whatever a crash left once leases have lapsed, one worker that admits everything finishes
  * all that can be finished. */
module Idle {
  import opened Names
  import opened Workflows
  import opened Store
  import opened Invariant
  import opened Protocol
  import opened Meaning
  import opened Outcomes
  import opened World
  import opened Recovery
  import opened Ledger

  /** A runner as the engine sees it: it returns outputs, or raises. */
  type Executor = (Invocation, Values) -> Option<Values>

  /** Exactly the declared ports, each of the declared type. */
  predicate Delivers(outputs: Values, ports: map<Name, Port>) {
    outputs.Keys == ports.Keys && forall p | p in outputs :: p in ports && outputs[p].atype == ports[p].atype
  }

  ghost predicate Total(execute: Executor) {
    forall inv, inputs {:trigger execute(inv, inputs)} ::
      execute(inv, inputs).Some? && Delivers(execute(inv, inputs).value, inv.op.outputs)
  }

  predicate IsUnfinished(t: Task) {
    t.state == Pending || t.state == Running
  }

  /** The tasks that have not ended in any way. */
  ghost function Unfinished(s: State): set<TaskKey> {
    set k | k in s.tasks && IsUnfinished(s.tasks[k])
  }

  /** The run has a task that has not ended. */
  ghost predicate Working(s: State, r: nat) {
    exists k {:trigger k in s.tasks} :: k in s.tasks && k.run == r && IsUnfinished(s.tasks[k])
  }

  /** Where a run still has work, every succeeded task recorded all the outputs its operation declares. */
  ghost predicate Delivered(s: State) {
    forall k {:trigger k in s.tasks} ::
      k in s.tasks && s.tasks[k].state == Succeeded && Working(s, k.run) ==> HasDelivered(s, k)
  }

  ghost predicate HasDelivered(s: State, k: TaskKey)
    requires k in s.tasks
  {
    k.run in s.runs && k.node in s.runs[k.run].plan.ops ==>
      s.runs[k.run].plan.ops[k.node].outputs.Keys <= s.tasks[k].outputs.Keys
  }

  /** Nothing that was canceled is still in flight: a live attempt belongs to a running task. */
  ghost predicate LiveRuns(s: State) {
    forall ak {:trigger ak in s.attempts} :: ak in s.attempts && Live(s.attempts[ak].state) ==>
      ak.task in s.tasks && s.tasks[ak.task].state == Running
  }

  /** Every lease has lapsed by then. */
  ghost predicate AllLapsed(s: State, now: int) {
    forall ak {:trigger ak in s.attempts} :: ak in s.attempts && s.attempts[ak].hold.Some? ==>
      s.attempts[ak].hold.value.expires < now
  }

  ghost predicate NothingHeld(s: State) {
    forall ak {:trigger ak in s.attempts} :: ak in s.attempts ==> s.attempts[ak].hold.None?
  }

  /** An open run in which nothing has failed or been canceled. */
  ghost predicate Healthy(s: State, r: nat) {
    && r in s.runs && RunOpen(s.runs[r].state)
    && forall k {:trigger k in s.tasks} :: k in s.tasks && k.run == r ==>
      s.tasks[k].state != Failed && s.tasks[k].state != Canceled
  }

  // ---------- what rounds leave ----------

  /** Ended runs keep their rows, open ones stay open or succeed, unfinished tasks at most succeed, and the others stay
    * as they are, as do tasks that wait in ended runs. */
  ghost predicate Carries(s: State, s': State) {
    && s'.runs.Keys == s.runs.Keys && s'.tasks.Keys == s.tasks.Keys
    && (forall r {:trigger s'.runs[r]} :: r in s.runs ==> RunCarries(s.runs[r], s'.runs[r]))
    && (forall k {:trigger s'.tasks[k]} :: k in s.tasks && k.run in s.runs ==>
          TaskCarries(s.tasks[k], s'.tasks[k], s.runs[k.run].state))
  }

  predicate RunCarries(run: Run, run': Run) {
    if RunOpen(run.state)
      then run'.plan == run.plan && run'.inputs == run.inputs && (RunOpen(run'.state) || run'.state == RunSucceeded)
      else run' == run
  }

  predicate TaskCarries(t: Task, t': Task, run: RunState) {
    if t.state == Running || (t.state == Pending && RunOpen(run))
      then IsUnfinished(t') || t'.state == Succeeded
      else t' == t
  }

  lemma CarriesReflexive(s: State)
    ensures Carries(s, s)
  {
  }

  lemma CarriesTransitive(s: State, s': State, s'': State)
    requires TasksLinked(s) && Carries(s, s') && Carries(s', s'')
    ensures Carries(s, s'')
  {
    hide RunCarries, TaskCarries;
    forall r | r in s.runs ensures RunCarries(s.runs[r], s''.runs[r]) {
      RunCarriesOn(s.runs[r], s'.runs[r], s''.runs[r]);
    }
    forall k | k in s.tasks && k.run in s.runs ensures TaskCarries(s.tasks[k], s''.tasks[k], s.runs[k.run].state) {
      TaskCarriesOn(s.tasks[k], s'.tasks[k], s''.tasks[k], s.runs[k.run], s'.runs[k.run]);
    }
  }

  lemma RunCarriesOn(run: Run, run': Run, run'': Run)
    requires RunCarries(run, run') && RunCarries(run', run'')
    ensures RunCarries(run, run'')
  {
  }

  lemma TaskCarriesOn(t: Task, t': Task, t'': Task, run: Run, run': Run)
    requires RunCarries(run, run') && TaskCarries(t, t', run.state) && TaskCarries(t', t'', run'.state)
    ensures TaskCarries(t, t'', run.state)
  {
  }

  /** What carries on has no more work than before, and tells from its tasks what got done. */
  lemma CarriedWork(s: State, s': State)
    requires TasksLinked(s) && Carries(s, s')
    ensures Unfinished(s') <= Unfinished(s) && forall r :: Working(s', r) ==> Working(s, r)
    ensures Unfinished(s) - Unfinished(s') == set k | k in Unfinished(s) && k in s'.tasks
      && s'.tasks[k].state == Succeeded
  {
    forall k | k in s.tasks ensures k.run in s.runs && TaskCarries(s.tasks[k], s'.tasks[k], s.runs[k.run].state) { }
  }

  // ---------- expiry ----------

  /** What expiry does where nothing canceled is in flight: leases go, and running tasks may wait again. */
  ghost predicate Relaxes(s: State, s': State) {
    && s'.runs == s.runs && s'.artifacts == s.artifacts
    && s'.tasks.Keys == s.tasks.Keys && s'.attempts.Keys == s.attempts.Keys
    && (forall k {:trigger s'.tasks[k]} :: k in s.tasks ==> TaskRelaxes(s.tasks[k], s'.tasks[k]))
    && (forall ak {:trigger s'.attempts[ak]} :: ak in s.attempts && Live(s'.attempts[ak].state) ==>
          Live(s.attempts[ak].state))
  }

  predicate TaskRelaxes(t: Task, t': Task) {
    t' == t || (t.state == Running && IsUnfinished(t') && t'.outputs == t.outputs)
  }

  lemma RowRelaxes(s: State, k: TaskKey, now: int)
    requires Sound(s) && LiveRuns(s) && (k in s.tasks ==> k.run in s.runs)
    ensures Relaxes(s, ExpireRow(s, k, now))
  {
    hide LedgerSound, ArtifactsSound, OutcomesMapped, PlansSound, LiveIsCurrent, TokensFresh, CancelSound, RunsSound,
      DependenciesSound, AttemptsSound, TasksLinked;
    if Expired(s, k, now) {
      ExpiredRuns(s, k, now);
    }
  }

  lemma ExpiredRuns(s: State, k: TaskKey, now: int)
    requires AttemptsNumbered(s) && TasksAgree(s) && LiveRuns(s) && Expired(s, k, now)
    ensures s.tasks[k].state == Running && Current(s, k) in s.attempts
  {
    assert TaskShaped(s.tasks[k]);
  }

  lemma RelaxesTransitive(s: State, s': State, s'': State)
    requires Relaxes(s, s') && Relaxes(s', s'')
    ensures Relaxes(s, s'')
  {
    hide TaskRelaxes;
    forall k | k in s.tasks ensures TaskRelaxes(s.tasks[k], s''.tasks[k]) {
      TaskRelaxesOn(s.tasks[k], s'.tasks[k], s''.tasks[k]);
    }
    forall ak | ak in s.attempts && Live(s''.attempts[ak].state) ensures Live(s.attempts[ak].state) {
      assert Live(s'.attempts[ak].state);
    }
  }

  lemma TaskRelaxesOn(t: Task, t': Task, t'': Task)
    requires TaskRelaxes(t, t') && TaskRelaxes(t', t'')
    ensures TaskRelaxes(t, t'')
  {
  }

  lemma RelaxedLiveRuns(s: State, s': State)
    requires Sound(s') && LiveRuns(s) && Relaxes(s, s')
    ensures LiveRuns(s')
  {
    hide LedgerSound, ArtifactsSound, OutcomesMapped, PlansSound, TasksAgree, TokensFresh, CancelSound, RunsSound,
      DependenciesSound, AttemptsSound, TasksLinked;
    forall ak | ak in s'.attempts && Live(s'.attempts[ak].state)
      ensures ak.task in s'.tasks && s'.tasks[ak.task].state == Running
    {
      assert ak in s.attempts && s.tasks[ak.task].state == Running;
      assert TaskRelaxes(s.tasks[ak.task], s'.tasks[ak.task]);
    }
  }

  lemma {:induction false} ResetRelaxes(s: State, rows: seq<TaskKey>, now: int)
    requires Sound(s) && LiveRuns(s) && TasksLinked(s)
    ensures var r := ResetRows(s, rows, now); Sound(r) && Relaxes(s, r) && LiveRuns(r)
  {
    hide Sound, LiveRuns, Relaxes, TasksLinked;
    ResetKeepsSound(s, rows, now);
    if rows == [] {
      SameRelaxes(s);
    } else {
      var init, last := rows[..|rows| - 1], rows[|rows| - 1];
      var r := ResetRows(s, init, now);
      ResetRelaxes(s, init, now);
      RowsLinkedTo(r, last);
      RowRelaxes(r, last, now);
      RelaxesTransitive(s, r, ResetRows(s, rows, now));
    }
    RelaxedLiveRuns(s, ResetRows(s, rows, now));
  }

  lemma SameRelaxes(s: State)
    ensures Relaxes(s, s)
  {
  }

  lemma RowsLinkedTo(s: State, k: TaskKey)
    requires TasksLinked(s)
    ensures k in s.tasks ==> k.run in s.runs
  {
  }

  /** Once every lease has lapsed, expiry takes them all. */
  lemma ResetFrees(s: State, rows: seq<TaskKey>, now: int)
    requires Sound(s) && LiveRuns(s) && TasksLinked(s) && ListsExpired(s, now, rows) && AllLapsed(s, now)
    ensures NothingHeld(ResetRows(s, rows, now))
  {
    var r := ResetRows(s, rows, now);
    ResetRelaxes(s, rows, now);
    hide Sound, LiveRuns, Relaxes, TasksLinked, ResetRows, ListsExpired, AllLapsed;
    forall ak | ak in r.attempts ensures r.attempts[ak].hold.None? {
      if Live(r.attempts[ak].state) {
        LiveIsFreed(s, rows, now, ak);
      } else {
        EndedIsFree(r, ak);
      }
    }
  }

  lemma EndedIsFree(s: State, ak: AttemptKey)
    requires Sound(s) && ak in s.attempts && Terminal(s.attempts[ak].state)
    ensures s.attempts[ak].hold.None?
  {
  }

  lemma LiveIsFreed(s: State, rows: seq<TaskKey>, now: int, ak: AttemptKey)
    requires Sound(s) && LiveRuns(s) && TasksLinked(s) && ListsExpired(s, now, rows) && AllLapsed(s, now)
    requires var r := ResetRows(s, rows, now); Relaxes(s, r) && ak in r.attempts && Live(r.attempts[ak].state)
    ensures ResetRows(s, rows, now).attempts[ak].hold.None?
  {
    var r := ResetRows(s, rows, now);
    assert ak in s.attempts && Live(s.attempts[ak].state);
    LiveCell(s, ak);
    hide Sound, LiveRuns, Relaxes, TasksLinked, ResetRows, ListsExpired;
    ResetHere(s, rows, now, ak.task);
    assert s.attempts[ak].hold.Some? ==> Expired(s, ak.task, now);
    ExpiryFrees(s, ak, now);
    assert AttemptKey(ak.task, ak.number) in r.attempts;
  }

  lemma LiveCell(s: State, ak: AttemptKey)
    requires Sound(s) && LiveRuns(s) && ak in s.attempts && Live(s.attempts[ak].state)
    ensures ak.task in s.tasks && ak.task.run in s.runs && ak == Current(s, ak.task)
      && s.tasks[ak.task].state == Running
    ensures SameHold(s.tasks[ak.task].hold, s.attempts[ak].hold)
  {
    hide LedgerSound, ArtifactsSound, OutcomesMapped, PlansSound, TokensFresh, CancelSound, RunsSound,
      DependenciesSound, AttemptsSound;
    assert TaskShaped(s.tasks[ak.task]);
  }

  lemma ExpiryFrees(s: State, ak: AttemptKey, now: int)
    requires ak in s.attempts && ak.task in s.tasks && ak.task.run in s.runs && ak == Current(s, ak.task)
    requires s.attempts[ak].hold.None? || Expired(s, ak.task, now)
    ensures ak in ExpireRow(s, ak.task, now).attempts && ExpireRow(s, ak.task, now).attempts[ak].hold.None?
  {
  }

  lemma RelaxedCarries(s: State, r: State)
    requires TasksLinked(s) && Relaxes(s, r)
    ensures Carries(s, r)
  {
    forall k | k in s.tasks ensures TaskRelaxes(s.tasks[k], r.tasks[k]) { }
  }

  lemma RelaxedUnfinished(s: State, r: State)
    requires Relaxes(s, r)
    ensures Unfinished(r) == Unfinished(s)
  {
    forall k | k in s.tasks ensures TaskRelaxes(s.tasks[k], r.tasks[k]) { }
  }

  lemma RelaxedDelivered(s: State, r: State)
    requires TasksLinked(s) && Relaxes(s, r) && Delivered(s)
    ensures Delivered(r)
  {
    RelaxedCarries(s, r);
    CarriedWork(s, r);
    hide Working, Carries;
    forall k | k in r.tasks && r.tasks[k].state == Succeeded && Working(r, k.run) ensures HasDelivered(r, k) {
      assert TaskRelaxes(s.tasks[k], r.tasks[k]) && HasDelivered(s, k);
    }
  }

  // ---------- a lease taken where nothing is held ----------

  /** What a claim leaves, recovered or fresh. */
  ghost predicate Taken(s: State, s': State, k: TaskKey, lease: Lease) {
    && k in s.tasks && k.run in s.runs && k == lease.attempt.task && ParentsSucceeded(s, k)
    && (s.tasks[k].state == Running || (s.tasks[k].state == Pending && RunOpen(s.runs[k.run].state)))
    && (lease.attempt in s.attempts ==> Live(s.attempts[lease.attempt].state))
    && (s.tasks[k].state == Running ==> lease.attempt in s.attempts)
    && lease.attempt in s'.attempts && s'.attempts == s.attempts[lease.attempt := s'.attempts[lease.attempt]]
    && s'.attempts[lease.attempt].hold.Some?
    && s'.attempts[lease.attempt].hold.value.worker == lease.worker
    && s'.attempts[lease.attempt].hold.value.token == lease.token
    && k in s'.tasks && s'.tasks == s.tasks[k := s'.tasks[k]] && s'.tasks[k].state == Running
    && s'.tasks[k].hold.Some? && s'.tasks[k].hold.value.token == lease.token
    && k.run in s'.runs && s'.runs == s.runs[k.run := s'.runs[k.run]] && RunCarries(s.runs[k.run], s'.runs[k.run])
    && s'.runs[k.run].plan == s.runs[k.run].plan && s'.runs[k.run].state != RunSucceeded
    && s'.artifacts == s.artifacts
  }

  lemma FreshIsTaken(s: State, k: TaskKey, worker: Name, now: int, expires: int)
    requires AttemptsNumbered(s) && Claimable(s, k)
    ensures Taken(s, ClaimFresh(s, k, worker, now, expires), k,
      Lease(AttemptKey(k, s.tasks[k].attempt + 1), worker, s.nextToken, Leased, None, false))
  {
    hide ParentsSucceeded;
  }

  lemma RecoveryIsTaken(s: State, ak: AttemptKey, worker: Name, expires: int)
    requires Sound(s) && LiveRuns(s) && ak in s.attempts && ak.task in s.tasks && Recoverable(s.attempts[ak])
    ensures Taken(s, ClaimRecovered(s, ak, worker, expires), ak.task,
      Lease(ak, worker, s.nextToken, s.attempts[ak].state, s.attempts[ak].handle, true))
  {
    hide ParentsSucceeded, Sound, LiveRuns, Recoverable;
    RecoveredParents(s, ak);
  }

  lemma RecoveredParents(s: State, ak: AttemptKey)
    requires Sound(s) && LiveRuns(s) && ak in s.attempts && ak.task in s.tasks && Recoverable(s.attempts[ak])
    ensures ak.task.run in s.runs && ParentsSucceeded(s, ak.task) && s.tasks[ak.task].state == Running
      && s.runs[ak.task.run].state != RunSucceeded && Live(s.attempts[ak].state)
  {
    hide LedgerSound, ArtifactsSound, OutcomesMapped, PlansSound, TokensFresh, CancelSound, TasksAgree,
      AttemptsSound, ParentsSucceeded;
  }

  lemma TakenWorks(s: State, s': State, k: TaskKey, lease: Lease)
    requires Taken(s, s', k, lease)
    ensures Working(s, k.run)
  {
    hide ParentsSucceeded;
  }

  /** Everything an edge into a task under work asks for was produced. */
  lemma EdgeDelivers(s: State, k: TaskKey, i: nat)
    requires PlansSound(s) && TasksLinked(s) && ResultsTyped(s) && Delivered(s) && Working(s, k.run) && k.run in s.runs
      && ParentsSucceeded(s, k)
    requires i < |s.runs[k.run].plan.wf.edges| && s.runs[k.run].plan.wf.edges[i].dst.node == k.node
    ensures var e := s.runs[k.run].plan.wf.edges[i].src;
      TaskKey(k.run, e.node) in s.tasks && e.port in s.tasks[TaskKey(k.run, e.node)].outputs
        && s.tasks[TaskKey(k.run, e.node)].outputs[e.port] in s.artifacts
  {
    hide OutputsMatch, IsDocument, Working;
    var plan := s.runs[k.run].plan;
    var e := plan.wf.edges[i].src;
    assert e.node in Parents(plan.wf, k.node);
    assert EdgeLawful(plan.wf.edges[i], NodeIds(plan.wf)) && HasPort(plan.ops[e.node].outputs, e.port, e.atype);
    assert HasDelivered(s, TaskKey(k.run, e.node));
  }

  lemma TakenKeeps(s: State, s': State, k: TaskKey, lease: Lease)
    requires Taken(s, s', k, lease)
    ensures k.run in s.runs && k.run in s'.runs && s'.runs[k.run].plan == s.runs[k.run].plan
      && s'.artifacts == s.artifacts && ParentsSucceeded(s, k)
    ensures forall j {:trigger j in s.tasks} {:trigger j in s'.tasks} :: j in s.tasks && j != k ==>
      j in s'.tasks && s'.tasks[j] == s.tasks[j]
  {
    hide ParentsSucceeded;
  }

  lemma SoundRows(s: State)
    requires Sound(s)
    ensures PlansSound(s) && TasksLinked(s) && ResultsTyped(s) && AttemptsNumbered(s)
  {
  }

  lemma TakenRequestBuilds(s: State, s': State, k: TaskKey, lease: Lease)
    requires Sound(s) && Delivered(s) && Taken(s, s', k, lease)
    ensures k.run in s'.runs && RequestBuilds(s', k)
  {
    hide Sound, Accepted, OutputsMatch, ParentsSucceeded, Delivered, Working, Taken, ResultsTyped, PlansSound,
      TasksLinked, AttemptsNumbered;
    SoundRows(s);
    TakenWorks(s, s', k, lease);
    TakenKeeps(s, s', k, lease);
    var edges := s.runs[k.run].plan.wf.edges;
    var outs := ParentOutputs(s', k);
    forall i | 0 <= i < |edges| && edges[i].dst.node == k.node
      ensures edges[i].src.node in outs && edges[i].src.port in outs[edges[i].src.node]
    {
      EdgeDelivers(s, k, i);
      ParentIsOther(s, k, i);
      assert edges[i].src.node in Parents(s'.runs[k.run].plan.wf, k.node);
    }
  }

  lemma ParentIsOther(s: State, k: TaskKey, i: nat)
    requires PlansSound(s) && k.run in s.runs && i < |s.runs[k.run].plan.wf.edges|
      && s.runs[k.run].plan.wf.edges[i].dst.node == k.node
    ensures s.runs[k.run].plan.wf.edges[i].src.node != k.node
  {
    assert EdgeLawful(s.runs[k.run].plan.wf.edges[i], NodeIds(s.runs[k.run].plan.wf));
  }

  lemma TakenCloses(s: State, s': State, k: TaskKey, lease: Lease)
    requires TasksLinked(s) && Taken(s, s', k, lease)
    ensures Closes(s', lease) && Holds(s', lease) && s'.tasks.Keys == s.tasks.Keys && k in s'.tasks
    ensures k.run in s'.runs && s'.runs[k.run].plan == s.runs[k.run].plan && k.node in s.runs[k.run].plan.ops
  {
    hide ParentsSucceeded;
  }

  lemma DeliveryMatches(outputs: Values, ports: map<Name, Port>)
    requires Delivers(outputs, ports)
    ensures OutputsMatch(outputs, ports)
  {
  }

  /** When a run finishes, none of its mapped outputs is missing. */
  lemma NoOutputMissing(s: State, tasks: map<TaskKey, Task>, r: nat)
    requires PlansSound(s) && r in s.runs && AllSucceeded(tasks, r)
      && (forall n :: n in s.runs[r].plan.ops ==> TaskKey(r, n) in tasks)
    requires forall n ::
      n in s.runs[r].plan.ops && TaskKey(r, n) in tasks ==>
        s.runs[r].plan.ops[n].outputs.Keys <= tasks[TaskKey(r, n)].outputs.Keys
    ensures !RunOutputsRaise(s.runs[r].plan.wf.outputs, tasks, r)
  {
    var plan := s.runs[r].plan;
    forall i | 0 <= i < |plan.wf.outputs|
      ensures TaskKey(r, plan.wf.outputs[i].node) in tasks
        && plan.wf.outputs[i].port in tasks[TaskKey(r, plan.wf.outputs[i].node)].outputs
    {
      assert HasPort(plan.ops[plan.wf.outputs[i].node].outputs, plan.wf.outputs[i].port, plan.wf.outputs[i].atype);
    }
  }

  /** What the tasks of working runs show after the completion. */
  lemma LaterDelivered(s: State, s': State, k: TaskKey, lease: Lease, outputs: Values)
    requires TasksLinked(s) && Delivered(s) && Taken(s, s', k, lease)
      && k.node in s.runs[k.run].plan.ops && Delivers(outputs, s.runs[k.run].plan.ops[k.node].outputs)
    ensures var tasks := TasksAfterCompletion(s', lease, outputs);
      forall j {:trigger j in tasks} ::
        (j in tasks && tasks[j].state == Succeeded && j.run in s.runs && Working(s, j.run)
          && j.node in s.runs[j.run].plan.ops) ==>
        s.runs[j.run].plan.ops[j.node].outputs.Keys <= tasks[j].outputs.Keys
  {
    hide Working, ParentsSucceeded;
    var tasks := TasksAfterCompletion(s', lease, outputs);
    forall j | j in tasks && tasks[j].state == Succeeded && j.run in s.runs && Working(s, j.run)
        && j.node in s.runs[j.run].plan.ops
      ensures s.runs[j.run].plan.ops[j.node].outputs.Keys <= tasks[j].outputs.Keys
    {
      if j != k {
        assert j in s.tasks && HasDelivered(s, j);
      }
    }
  }

  lemma TakenCompletes(s: State, s': State, k: TaskKey, lease: Lease, outputs: Values)
    requires Sound(s) && Delivered(s) && Taken(s, s', k, lease)
      && k.node in s.runs[k.run].plan.ops && Delivers(outputs, s.runs[k.run].plan.ops[k.node].outputs)
    ensures Completes(s', lease, outputs)
  {
    TakenFacts(s, s', k, lease);
    hide Sound, Accepted, OutputsMatch, Delivers, Taken, Delivered, RunOutputsRaise, Closes, Working, PlansSound,
      ResultsTyped, AttemptsNumbered;
    SoundRows(s);
    TakenWorks(s, s', k, lease);
    TakenCloses(s, s', k, lease);
    DeliveryMatches(outputs, s.runs[k.run].plan.ops[k.node].outputs);
    LaterDelivered(s, s', k, lease, outputs);
    var tasks := TasksAfterCompletion(s', lease, outputs);
    if AllSucceeded(tasks, k.run) {
      NoOutputMissing(s, tasks, k.run);
    }
  }

  lemma TakenFacts(s: State, s': State, k: TaskKey, lease: Lease)
    requires Taken(s, s', k, lease)
    ensures k in s.tasks && k.run in s.runs && k == lease.attempt.task && k in s'.tasks && k.run in s'.runs
  {
    hide ParentsSucceeded;
  }

  // ---------- the completion ----------

  /** The rows a completion leaves, apart from artifacts and events: a run turns succeeded only when all its tasks
    * have. */
  ghost predicate CompletionRows(s': State, done: State, lease: Lease, outputs: Values) {
    && lease.attempt in s'.attempts && lease.attempt.task in s'.tasks && lease.attempt.task.run in s'.runs
    && done.tasks == TasksAfterCompletion(s', lease, outputs)
    && done.attempts.Keys == s'.attempts.Keys
    && done.attempts == s'.attempts[lease.attempt := done.attempts[lease.attempt]]
    && done.attempts[lease.attempt].state == AttemptSucceeded && done.attempts[lease.attempt].hold.None?
    && done.runs.Keys == s'.runs.Keys
    && done.runs == s'.runs[lease.attempt.task.run := done.runs[lease.attempt.task.run]]
    && var was, now := s'.runs[lease.attempt.task.run], done.runs[lease.attempt.task.run];
       now.plan == was.plan && now.inputs == was.inputs
         && (now == was || (now.state == RunSucceeded && AllSucceeded(done.tasks, lease.attempt.task.run)))
  }

  lemma CompletedRows(s': State, lease: Lease, outputs: Values)
    requires Completes(s', lease, outputs)
    ensures CompletionRows(s', Complete(s', lease, outputs), lease, outputs)
  {
    hide OutputsMatch, RunOutputs, RunOutputsRaise, OutputRows, OutputIds, AllSucceeded;
  }

  /** A run that ended with work left has a failed task. */
  lemma EndedWithWorkFailed(s: State, k: TaskKey)
    requires Sound(s) && k in s.tasks && IsUnfinished(s.tasks[k]) && k.run in s.runs && !RunOpen(s.runs[k.run].state)
    ensures exists j :: j in s.tasks && j.run == k.run && s.tasks[j].state == Failed
  {
    hide LedgerSound, ArtifactsSound, OutcomesMapped, PlansSound, TokensFresh, TasksAgree, AttemptsSound,
      LiveIsCurrent, DependenciesSound, TasksLinked;
  }

  lemma DoneKeepsEnded(s: State, s': State, done: State, k: TaskKey, lease: Lease, outputs: Values)
    requires Sound(s) && Taken(s, s', k, lease) && CompletionRows(s', done, lease, outputs)
    ensures k.run in s.runs && k.run in done.runs && RunCarries(s.runs[k.run], done.runs[k.run])
  {
    hide Sound, ParentsSucceeded, OutputIds;
    if !RunOpen(s.runs[k.run].state) {
      EndedWithWorkFailed(s, k);
      var j :| j in s.tasks && j.run == k.run && s.tasks[j].state == Failed;
      assert j != k && done.tasks[j].state == Failed;
    }
  }

  lemma DoneCarries(s: State, s': State, done: State, k: TaskKey, lease: Lease, outputs: Values)
    requires Sound(s) && Taken(s, s', k, lease) && CompletionRows(s', done, lease, outputs)
    ensures Carries(s, done)
  {
    hide Sound, ParentsSucceeded, OutputIds, AllSucceeded, RunCarries;
    DoneKeepsEnded(s, s', done, k, lease, outputs);
    forall r | r in s.runs ensures RunCarries(s.runs[r], done.runs[r]) {
      if r != k.run { SameRunCarries(s.runs[r]); }
    }
    forall j | j in s.tasks && j.run in s.runs ensures TaskCarries(s.tasks[j], done.tasks[j], s.runs[j.run].state) {
      assert j != k ==> done.tasks[j] == s.tasks[j];
    }
  }

  lemma SameRunCarries(run: Run)
    ensures RunCarries(run, run)
  {
  }

  lemma DoneUnfinished(s: State, s': State, done: State, k: TaskKey, lease: Lease, outputs: Values)
    requires Taken(s, s', k, lease) && CompletionRows(s', done, lease, outputs)
    ensures k in Unfinished(s) && Unfinished(done) == Unfinished(s) - {k}
  {
    hide ParentsSucceeded, OutputIds, AllSucceeded;
    forall j ensures j in Unfinished(done) <==> j in Unfinished(s) - {k} {
      if j in s.tasks && j != k { assert done.tasks[j] == s.tasks[j]; }
    }
  }

  lemma DoneLiveRuns(s: State, s': State, done: State, k: TaskKey, lease: Lease, outputs: Values)
    requires Sound(s) && LiveRuns(s) && Taken(s, s', k, lease) && CompletionRows(s', done, lease, outputs)
    requires NothingHeld(s)
    ensures LiveRuns(done) && NothingHeld(done)
  {
    hide LedgerSound, ArtifactsSound, OutcomesMapped, PlansSound, TokensFresh, TasksAgree, AttemptsSound, CancelSound,
      RunsSound, DependenciesSound, TasksLinked, ParentsSucceeded, OutputIds, AllSucceeded;
    forall ak | ak in done.attempts ensures done.attempts[ak].hold.None? {
      if ak != lease.attempt { assert done.attempts[ak] == s.attempts[ak]; }
    }
    forall ak | ak in done.attempts && Live(done.attempts[ak].state)
      ensures ak.task in done.tasks && done.tasks[ak.task].state == Running
    {
      assert ak != lease.attempt && ak in s.attempts && done.attempts[ak] == s.attempts[ak];
      assert s.tasks[ak.task].state == Running && ak == Current(s, ak.task);
    }
  }

  lemma DoneDelivered(s: State, s': State, done: State, k: TaskKey, lease: Lease, outputs: Values)
    requires TasksLinked(s) && Taken(s, s', k, lease) && CompletionRows(s', done, lease, outputs) && Carries(s, done)
    requires forall j {:trigger j in done.tasks} ::
        (j in done.tasks && done.tasks[j].state == Succeeded && j.run in s.runs && Working(s, j.run)
          && j.node in s.runs[j.run].plan.ops) ==>
        s.runs[j.run].plan.ops[j.node].outputs.Keys <= done.tasks[j].outputs.Keys
    ensures Delivered(done)
  {
    CarriedWork(s, done);
    hide Working, Carries, ParentsSucceeded, TasksAfterCompletion, AllSucceeded;
    forall j | j in done.tasks && done.tasks[j].state == Succeeded && Working(done, j.run)
      ensures HasDelivered(done, j)
    {
      assert j.run in done.runs ==> j.run in s.runs && done.runs[j.run].plan == s.runs[j.run].plan;
    }
  }

  /** One completion later everything is as before the claim, with one task fewer to do. */
  lemma CompletionDoesOne(s: State, s': State, k: TaskKey, lease: Lease, outputs: Values)
    requires Sound(s) && LiveRuns(s) && NothingHeld(s) && Delivered(s) && Taken(s, s', k, lease)
    requires TasksLinked(s) && k.node in s.runs[k.run].plan.ops
      && Delivers(outputs, s.runs[k.run].plan.ops[k.node].outputs)
    ensures var done := Complete(s', lease, outputs);
      && Completes(s', lease, outputs) && LiveRuns(done) && NothingHeld(done) && Delivered(done) && Carries(s, done)
      && k in Unfinished(s) && Unfinished(done) == Unfinished(s) - {k}
  {
    TakenFacts(s, s', k, lease);
    TakenCompletes(s, s', k, lease, outputs);
    hide Completes, Delivers, Taken, Delivered, Complete, TasksLinked, Unfinished, Sound, LiveRuns,
      NothingHeld, Carries,
      TasksAfterCompletion, AllSucceeded, Working;
    var done := Complete(s', lease, outputs);
    CompletedRows(s', lease, outputs);
    LaterDelivered(s, s', k, lease, outputs);
    DoneCarries(s, s', done, k, lease, outputs);
    DoneUnfinished(s, s', done, k, lease, outputs);
    DoneLiveRuns(s, s', done, k, lease, outputs);
    DoneDelivered(s, s', done, k, lease, outputs);
  }

  // ---------- when nothing is left ----------

  /** Where nothing is held, a running task can be recovered. */
  lemma RunningIsRecoverable(s: State, k: TaskKey)
    requires Sound(s) && NothingHeld(s) && k in s.tasks && s.tasks[k].state == Running
    ensures RecoverableFor(s, Current(s, k), None, None)
  {
    hide LedgerSound, ArtifactsSound, OutcomesMapped, PlansSound, TokensFresh, CancelSound, RunsSound,
      DependenciesSound, TasksLinked, LiveIsCurrent;
    assert TaskShaped(s.tasks[k]) && Current(s, k) in s.attempts;
    assert AttemptSound(s.attempts[Current(s, k)]);
  }

  lemma ClaimableForAll(s: State, k: TaskKey)
    requires Claimable(s, k)
    ensures ClaimableFor(s, k, None, None)
  {
  }

  /** With nothing held, recoverable or claimable, no run is open with nothing failed or canceled. */
  lemma NothingLeft(s: State)
    requires Sound(s) && NothingHeld(s)
    requires (forall ak :: !RecoverableFor(s, ak, None, None)) && (forall k :: !ClaimableFor(s, k, None, None))
    ensures forall r :: !Healthy(s, r)
  {
    hide NothingHeld, RecoverableFor, ClaimableFor, Sound, Healthy;
    forall r ensures !Healthy(s, r) {
      if Healthy(s, r) {
        HealthyWorks(s, r);
        HealthyProgresses(s, r);
        var k :| k in s.tasks && k.run == r && (s.tasks[k].state == Running || Claimable(s, k));
        if s.tasks[k].state == Running {
          RunningIsRecoverable(s, k);
        } else {
          ClaimableForAll(s, k);
        }
      }
    }
  }

  lemma HealthyWorks(s: State, r: nat)
    requires Sound(s) && Healthy(s, r)
    ensures exists k :: k in s.tasks && k.run == r && s.tasks[k].state != Succeeded
  {
    hide LedgerSound, ArtifactsSound, OutcomesMapped, LiveIsCurrent, TasksAgree, AttemptsSound, TokensFresh,
      CancelSound, DependenciesSound, ContractHolds, PortsHold;
    var n := s.runs[r].plan.wf.nodes[0].id;
    assert n in NodeIds(s.runs[r].plan.wf) && n in s.runs[r].plan.ops && TaskKey(r, n) in s.tasks;
  }

  lemma HealthyProgresses(s: State, r: nat)
    requires Sound(s) && Healthy(s, r) && exists k :: k in s.tasks && k.run == r && s.tasks[k].state != Succeeded
    ensures exists k :: k in s.tasks && k.run == r && (s.tasks[k].state == Running || Claimable(s, k))
  {
    hide Accepted, ParentsSucceeded, LedgerSound, ArtifactsSound, OutcomesMapped, LiveIsCurrent, TasksAgree,
      AttemptsSound, TokensFresh, CancelSound, RunsSound, DependenciesSound;
    OpenRunProgresses(s, r);
  }

  /** When no healthy run is left, every run that was healthy has succeeded with all its tasks. */
  lemma HealthySucceeded(s: State, done: State, r: nat)
    requires TasksLinked(s) && Carries(s, done) && Sound(done) && (forall q :: !Healthy(done, q)) && Healthy(s, r)
    ensures r in done.runs && done.runs[r].state == RunSucceeded
    ensures forall k :: k in done.tasks && k.run == r ==> done.tasks[k].state == Succeeded
  {
    StaysHealthy(s, done, r);
    hide Carries, Healthy, LedgerSound, ArtifactsSound, OutcomesMapped, LiveIsCurrent, TasksAgree, AttemptsSound,
      TokensFresh, CancelSound, DependenciesSound, PlansSound;
  }

  lemma StaysHealthy(s: State, done: State, r: nat)
    requires TasksLinked(s) && Carries(s, done) && Healthy(s, r)
    ensures r in done.runs && (done.runs[r].state == RunSucceeded || Healthy(done, r))
  {
    forall k | k in done.tasks && k.run == r ensures done.tasks[k].state != Failed && done.tasks[k].state != Canceled {
      assert k in s.tasks && TaskCarries(s.tasks[k], done.tasks[k], s.runs[k.run].state);
    }
    assert RunCarries(s.runs[r], done.runs[r]);
  }

  /** The work that is gone is the work that succeeded. */
  lemma WorkDone(s: State, done: State)
    requires TasksLinked(s) && Carries(s, done)
    ensures |Unfinished(s)| ==
      |Unfinished(done)| + |set k | k in Unfinished(s) && k in done.tasks && done.tasks[k].state == Succeeded|
  {
    hide Carries, TasksLinked, Unfinished;
    CarriedWork(s, done);
    assert Unfinished(s) == Unfinished(done) + (Unfinished(s) - Unfinished(done));
  }

  lemma FreeIsLapsed(s: State, now: int)
    requires NothingHeld(s)
    ensures AllLapsed(s, now)
  {
  }

  // ---------- submissions and stores in which everything ended ----------

  /** A submission adds a healthy run and puts nothing in flight. */
  lemma SubmitAddsHealthy(s: State, run: nat, id: nat, inputs: Outputs, target: Name, class_: Name, createdAt: int)
    requires Sound(s) && LiveRuns(s) && Delivered(s) && run !in s.runs && id in s.plans && Accepted(s.plans[id])
    ensures var s' := Submit(s, run, id, inputs, target, class_, createdAt);
      && LiveRuns(s') && Delivered(s') && s'.attempts == s.attempts
      && (Submittable(s, s.plans[id], inputs, target) ==> Healthy(s', run))
      && forall r :: Healthy(s, r) ==> Healthy(s', r)
  {
    hide Sound, Accepted, Submittable, LiveRuns, Delivered, Healthy, TasksLinked;
    SoundRows(s);
    SubmittedLive(s, run, id, inputs, target, class_, createdAt);
    SubmittedDelivered(s, run, id, inputs, target, class_, createdAt);
    SubmittedHealthy(s, run, id, inputs, target, class_, createdAt);
  }

  lemma SubmittedLive(s: State, run: nat, id: nat, inputs: Outputs, target: Name, class_: Name, createdAt: int)
    requires TasksLinked(s) && LiveRuns(s) && run !in s.runs && id in s.plans && Accepted(s.plans[id])
    ensures LiveRuns(Submit(s, run, id, inputs, target, class_, createdAt))
  {
    hide Accepted, Submittable, NewTasks;
    var s' := Submit(s, run, id, inputs, target, class_, createdAt);
    forall ak | ak in s'.attempts && Live(s'.attempts[ak].state)
      ensures ak.task in s'.tasks && s'.tasks[ak.task].state == Running
    {
      assert ak.task in s.tasks && ak.task.run != run;
    }
  }

  lemma SubmittedDelivered(s: State, run: nat, id: nat, inputs: Outputs, target: Name, class_: Name, createdAt: int)
    requires Delivered(s) && TasksLinked(s) && run !in s.runs && id in s.plans && Accepted(s.plans[id])
    ensures Delivered(Submit(s, run, id, inputs, target, class_, createdAt))
  {
    hide Accepted, Submittable, NewTasks;
    var s' := Submit(s, run, id, inputs, target, class_, createdAt);
    forall k | k in s'.tasks && s'.tasks[k].state == Succeeded && Working(s', k.run) ensures HasDelivered(s', k) {
      assert k in s.tasks && k.run != run && s'.tasks[k] == s.tasks[k];
      var j :| j in s'.tasks && j.run == k.run && IsUnfinished(s'.tasks[j]);
      assert j in s.tasks && s'.tasks[j] == s.tasks[j];
      assert HasDelivered(s, k);
    }
  }

  lemma SubmittedHealthy(s: State, run: nat, id: nat, inputs: Outputs, target: Name, class_: Name, createdAt: int)
    requires TasksLinked(s) && run !in s.runs && id in s.plans && Accepted(s.plans[id])
    ensures var s' := Submit(s, run, id, inputs, target, class_, createdAt);
      && (Submittable(s, s.plans[id], inputs, target) ==> Healthy(s', run))
      && forall r :: Healthy(s, r) ==> Healthy(s', r)
  {
    hide Accepted, Submittable, NewTasks;
    var s' := Submit(s, run, id, inputs, target, class_, createdAt);
    forall r | Healthy(s, r) ensures Healthy(s', r) {
      forall k | k in s'.tasks && k.run == r ensures k in s.tasks && s'.tasks[k] == s.tasks[k] { }
    }
  }

  /** In a store in which every attempt has ended nothing is held and nothing canceled is in flight, whenever one
    * looks. */
  lemma EndedIsCalm(s: State)
    requires Sound(s) && forall ak {:trigger ak in s.attempts} :: ak in s.attempts ==> Terminal(s.attempts[ak].state)
    ensures LiveRuns(s) && NothingHeld(s) && forall now :: AllLapsed(s, now)
  {
    hide LedgerSound, ArtifactsSound, OutcomesMapped, PlansSound, TokensFresh, TasksAgree, CancelSound,
      RunsSound, DependenciesSound, TasksLinked, LiveIsCurrent;
  }
}
