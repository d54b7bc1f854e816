/** Meaning without any discipline: retries over live attempts, and releases and reports at any time, included. */
module Unguarded {
  import opened Names
  import opened Workflows
  import opened Store
  import opened Protocol
  import opened Meaning
  import opened World
  import opened History

  /** Any operation under any lease and any retry, and the other transactions as before. */
  ghost predicate Allowed(s: State, a: Action) {
    a.DoUnderLease? || a.DoRetryTask? || Lawful(s, a)
  }

  ghost function FreeStep(s: State, a: Action): State
    requires Allowed(s, a)
  {
    match a
    case DoUnderLease(lease, op) => UnderLease(s, lease, op)
    case DoRetryTask(r, n) => RetryTask(s, r, n)
    case _ => Step(s, a)
  }

  // ---------- what is left of the invariant ----------

  ghost predicate RowsNamed(s: State) {
    && (forall k {:trigger k in s.tasks} :: k in s.tasks ==> k.run in s.runs && k.node in s.runs[k.run].plan.ops)
    && (forall ak {:trigger ak in s.attempts} :: ak in s.attempts ==>
          ak.task in s.tasks && ak.number <= s.tasks[ak.task].attempt)
  }

  /** An attempt that has ended carries no token. */
  ghost predicate EndedLetGo(s: State) {
    forall ak {:trigger ak in s.attempts} :: ak in s.attempts && Terminal(s.attempts[ak].state) ==>
      s.attempts[ak].hold.None?
  }

  /** Output artifacts belong to attempts that have ended. */
  ghost predicate OutputsEnded(s: State) {
    forall id {:trigger id in s.artifacts} :: id in s.artifacts && id.OutputArtifact? ==>
      id.attempt in s.attempts && Terminal(s.attempts[id.attempt].state)
  }

  ghost predicate InputsResolve(s: State) {
    forall r {:trigger r in s.runs} :: r in s.runs ==> Resolves(s.artifacts, s.runs[r].inputs)
  }

  ghost predicate Loose(s: State) {
    PlansSound(s) && RowsNamed(s) && EndedLetGo(s) && OutputsEnded(s) && InputsResolve(s)
  }

  /** Outputs shown by a row, whatever its state, are the meaning of its node. */
  ghost predicate RowMeans(s: State, run: Runner, k: TaskKey)
    requires k in s.tasks
  {
    && k.run in s.runs && Accepted(s.runs[k.run].plan) && k.node in s.runs[k.run].plan.ops
    && Resolves(s.artifacts, s.tasks[k].outputs)
    && Resolve(s.artifacts, s.tasks[k].outputs) == Eval(s.runs[k.run].plan, Given(s, k.run), run, k.node)
  }

  predicate ShowsOutputs(t: Task) {
    t.state == Succeeded || t.outputs != map[]
  }

  ghost predicate RowsMean(s: State, run: Runner) {
    forall k {:trigger k in s.tasks} :: k in s.tasks && ShowsOutputs(s.tasks[k]) ==> RowMeans(s, run, k)
  }

  /** A request that was built is the request of the evaluation. */
  ghost predicate HandedMeans(s: State, run: Runner, h: Handed) {
    && h.attempt.task.run in s.runs && Accepted(s.runs[h.attempt.task.run].plan)
    && h.attempt.task.node in s.runs[h.attempt.task.run].plan.ops
    && h.inputs ==
      EvalInputs(s.runs[h.attempt.task.run].plan, Given(s, h.attempt.task.run), run, h.attempt.task.node)
  }

  ghost predicate FreelyMeans(w: World, run: Runner) {
    && Loose(w.db) && RowsMean(w.db, run)
    && forall h {:trigger h in w.handed} :: h in w.handed ==> HandedMeans(w.db, run, h)
  }

  // ---------- what a step leaves ----------

  /** Tasks outside `done` show no outputs they did not show before. */
  ghost predicate ShowsNoMore(s: State, s': State, done: set<TaskKey>) {
    forall k {:trigger k in s'.tasks} :: k in s'.tasks && k !in done && ShowsOutputs(s'.tasks[k]) ==>
      k in s.tasks && ShowsOutputs(s.tasks[k]) && s'.tasks[k].outputs == s.tasks[k].outputs
  }

  /** Steps that add no artifact but inputs. */
  ghost predicate Tame(s: State, s': State) {
    && Loose(s') && RunsFixed(s, s') && ArtifactsKept(s, s')
  }

  /** No row is added but a next attempt, none ended is revived, and none shows more. */
  ghost predicate RowsTurn(s: State, s': State) {
    && s'.plans == s.plans && s'.artifacts == s.artifacts
    && s'.runs.Keys == s.runs.Keys && RunsFixed(s, s') && s'.tasks.Keys == s.tasks.Keys
    && (forall k {:trigger s'.tasks[k]} :: k in s.tasks ==> TaskTurns(s.tasks[k], s'.tasks[k]))
    && (forall ak {:trigger ak in s'.attempts} :: ak in s'.attempts ==> AttemptTurns(s, s', ak))
    && s.attempts.Keys <= s'.attempts.Keys
  }

  predicate TaskTurns(t: Task, t': Task) {
    t.attempt <= t'.attempt && (ShowsOutputs(t') ==> ShowsOutputs(t) && t'.outputs == t.outputs)
  }

  ghost predicate AttemptTurns(s: State, s': State, ak: AttemptKey)
    requires ak in s'.attempts && s'.tasks.Keys == s.tasks.Keys
  {
    && ak.task in s.tasks && ak.number <= s'.tasks[ak.task].attempt
    && (Terminal(s'.attempts[ak].state) ==> s'.attempts[ak].hold.None?)
    && (ak in s.attempts && Terminal(s.attempts[ak].state) ==> Terminal(s'.attempts[ak].state))
  }

  lemma TurnIsTame(s: State, s': State)
    requires Loose(s) && RowsTurn(s, s')
    ensures Tame(s, s') && ShowsNoMore(s, s', {})
  {
    hide Accepted, Resolves;
    assert RowsNamed(s') && EndedLetGo(s') by { hide PlansSound, InputsResolve, OutputsEnded; }
    assert OutputsEnded(s') by { hide PlansSound, InputsResolve, RowsNamed, EndedLetGo; }
    assert InputsResolve(s') by { hide PlansSound, OutputsEnded, RowsNamed, EndedLetGo; }
  }

  /** One task row and one attempt row of it are rewritten. */
  lemma OneRowTurns(s: State, s': State, ak: AttemptKey)
    requires RowsNamed(s) && EndedLetGo(s) && s'.plans == s.plans && s'.artifacts == s.artifacts
    requires s'.runs.Keys == s.runs.Keys && RunsFixed(s, s') && ak.task in s.tasks && ak.task in s'.tasks
    requires s'.tasks == s.tasks[ak.task := s'.tasks[ak.task]]
    requires ak in s'.attempts ==> s'.attempts == s.attempts[ak := s'.attempts[ak]] && AttemptTurns(s, s', ak)
    requires ak !in s'.attempts ==> s'.attempts == s.attempts
    requires TaskTurns(s.tasks[ak.task], s'.tasks[ak.task])
    ensures RowsTurn(s, s')
  {
    hide ShowsOutputs;
    forall k | k in s.tasks ensures TaskTurns(s.tasks[k], s'.tasks[k]) { }
    forall j | j in s'.attempts ensures AttemptTurns(s, s', j) {
      assert j != ak ==> j in s.attempts && s'.attempts[j] == s.attempts[j];
    }
  }

  lemma RowFacts(s: State, ak: AttemptKey)
    requires RowsNamed(s) && EndedLetGo(s) && ak in s.attempts
    ensures ak.task in s.tasks && ak.task.run in s.runs && ak.number <= s.tasks[ak.task].attempt
    ensures s.attempts[ak].hold.Some? ==> !Terminal(s.attempts[ak].state)
  {
  }

  lemma LeaseTurns(s: State, lease: Lease, op: LeaseOp)
    requires RowsNamed(s) && EndedLetGo(s)
    ensures RowsTurn(s, UnderLease(s, lease, op))
  {
    hide RowsTurn, RowsNamed, EndedLetGo;
    if Holds(s, lease) {
      RowFacts(s, lease.attempt);
      OneRowTurns(s, UnderLease(s, lease, op), lease.attempt);
    } else {
      SameTurns(s);
    }
  }

  lemma SameTurns(s: State)
    requires RowsNamed(s) && EndedLetGo(s)
    ensures RowsTurn(s, s)
  {
  }

  lemma AttemptExpires(a: Attempt, x: Expiry)
    ensures AttemptAfterExpiry(a, x).hold.None? && (Terminal(a.state) ==> Terminal(AttemptAfterExpiry(a, x).state))
  {
  }

  lemma ExpiryTurns(s: State, k: TaskKey, now: int)
    requires RowsNamed(s) && EndedLetGo(s) && (k in s.tasks ==> k.run in s.runs)
    ensures RowsTurn(s, ExpireRow(s, k, now))
  {
    hide RowsTurn, RowsNamed, EndedLetGo;
    if Expired(s, k, now) {
      if Current(s, k) in s.attempts {
        RowFacts(s, Current(s, k));
        AttemptExpires(s.attempts[Current(s, k)], ExpiryOf(s.runs[k.run].state, s.attempts[Current(s, k)]));
      }
      hide AttemptAfterExpiry, ExpiryOf;
      OneRowTurns(s, ExpireRow(s, k, now), Current(s, k));
    } else {
      SameTurns(s);
    }
  }

  lemma FreshRows(s: State, k: TaskKey, worker: Name, now: int, expires: int)
    requires k in s.tasks && k.run in s.runs && s.tasks[k].state == Pending
    ensures var s', ak := ClaimFresh(s, k, worker, now, expires), AttemptKey(k, s.tasks[k].attempt + 1);
      && s'.plans == s.plans && s'.artifacts == s.artifacts && s'.runs.Keys == s.runs.Keys && RunsFixed(s, s')
      && k in s'.tasks && s'.tasks == s.tasks[k := s'.tasks[k]] && TaskTurns(s.tasks[k], s'.tasks[k])
      && s'.tasks[k].attempt == s.tasks[k].attempt + 1
      && ak in s'.attempts && s'.attempts == s.attempts[ak := s'.attempts[ak]] && s'.attempts[ak].state == Leased
  {
  }

  lemma FreshTurns(s: State, k: TaskKey, worker: Name, now: int, expires: int)
    requires RowsNamed(s) && EndedLetGo(s) && k in s.tasks && k.run in s.runs && s.tasks[k].state == Pending
    ensures RowsTurn(s, ClaimFresh(s, k, worker, now, expires))
  {
    assert AttemptKey(k, s.tasks[k].attempt + 1) !in s.attempts;
    FreshRows(s, k, worker, now, expires);
    hide RowsTurn, RowsNamed, EndedLetGo, ClaimFresh, RunsFixed, TaskTurns;
    OneRowTurns(s, ClaimFresh(s, k, worker, now, expires), AttemptKey(k, s.tasks[k].attempt + 1));
  }

  lemma RecoveryTurns(s: State, ak: AttemptKey, worker: Name, expires: int)
    requires RowsNamed(s) && EndedLetGo(s) && ak in s.attempts && ak.task in s.tasks && Recoverable(s.attempts[ak])
    ensures RowsTurn(s, ClaimRecovered(s, ak, worker, expires))
  {
    RowFacts(s, ak);
    hide RowsTurn, RowsNamed, EndedLetGo;
    OneRowTurns(s, ClaimRecovered(s, ak, worker, expires), ak);
  }

  lemma FailTurns(s: State, lease: Lease)
    requires RowsNamed(s) && EndedLetGo(s)
    ensures RowsTurn(s, Fail(s, lease))
  {
    hide RowsTurn, RowsNamed, EndedLetGo;
    if Closes(s, lease) {
      RowFacts(s, lease.attempt);
      OneRowTurns(s, Fail(s, lease), lease.attempt);
    } else {
      SameTurns(s);
    }
  }

  lemma CancelTurns(s: State, r: nat, order: seq<AttemptKey>)
    requires RowsNamed(s) && EndedLetGo(s)
    ensures RowsTurn(s, CancelRun(s, r, order))
  {
    if r in s.runs && RunOpen(s.runs[r].state) {
      var s' := CancelRun(s, r, order);
      CanceledRowsAre(s, r, order);
      hide CancelRun, RowsNamed, EndedLetGo, CancelTask, CancelAttempt, ShowsOutputs;
      forall k | k in s.tasks ensures TaskTurns(s.tasks[k], s'.tasks[k]) {
        CanceledTurn(s.tasks[k]);
      }
      forall ak | ak in s'.attempts ensures AttemptTurns(s, s', ak) {
        RowFacts(s, ak);
        CanceledTurn(s.tasks[ak.task]);
        MarkedTurn(s.attempts[ak]);
      }
    } else {
      SameTurns(s);
    }
  }

  lemma CanceledTurn(t: Task)
    ensures TaskTurns(t, CancelTask(t)) && CancelTask(t).attempt == t.attempt && TaskTurns(t, t)
  {
  }

  lemma MarkedTurn(a: Attempt)
    requires a.hold.Some? ==> !Terminal(a.state)
    ensures Terminal(CancelAttempt(a).state) ==> CancelAttempt(a).hold.None?
    ensures Terminal(a.state) ==> Terminal(CancelAttempt(a).state)
  {
  }

  lemma CanceledRowsAre(s: State, r: nat, order: seq<AttemptKey>)
    requires r in s.runs && RunOpen(s.runs[r].state)
    ensures var s' := CancelRun(s, r, order);
      && s'.plans == s.plans && s'.artifacts == s.artifacts && s'.runs.Keys == s.runs.Keys && RunsFixed(s, s')
      && s'.tasks.Keys == s.tasks.Keys && s'.attempts.Keys == s.attempts.Keys
      && (forall k {:trigger s'.tasks[k]} :: k in s.tasks ==>
            s'.tasks[k] == if k.run == r then CancelTask(s.tasks[k]) else s.tasks[k])
      && (forall ak {:trigger s'.attempts[ak]} :: ak in s.attempts ==>
            s'.attempts[ak] == if ak.task.run == r then CancelAttempt(s.attempts[ak]) else s.attempts[ak])
  {
    hide CancelTask, CancelAttempt;
  }

  lemma RetryTurns(s: State, r: nat, n: Name)
    requires RowsNamed(s) && EndedLetGo(s)
    ensures RowsTurn(s, RetryTask(s, r, n))
  {
    hide Downstream;
    if r in s.runs && TaskKey(r, n) in s.tasks {
      var s' := RetryTask(s, r, n);
      hide RetryTask, RowsNamed, EndedLetGo;
      RetriedRowsAre(s, r, n);
      forall k | k in s.tasks ensures TaskTurns(s.tasks[k], s'.tasks[k]) { }
      forall ak | ak in s'.attempts ensures AttemptTurns(s, s', ak) {
        RowFacts(s, ak);
        assert TaskTurns(s.tasks[ak.task], s'.tasks[ak.task]);
      }
    } else {
      SameTurns(s);
    }
  }

  lemma RetriedRowsAre(s: State, r: nat, n: Name)
    requires r in s.runs && TaskKey(r, n) in s.tasks
    ensures var s' := RetryTask(s, r, n);
      && s'.plans == s.plans && s'.artifacts == s.artifacts && s'.runs.Keys == s.runs.Keys && RunsFixed(s, s')
      && s'.tasks.Keys == s.tasks.Keys && s'.attempts == s.attempts
      && (forall k {:trigger s'.tasks[k]} :: k in s.tasks ==>
            s'.tasks[k] == s.tasks[k] || s'.tasks[k] == ResetTask(s.tasks[k]))
  {
    hide Downstream, ResetTask;
  }

  lemma InputIsTame(s: State, id: nat, value: Value)
    requires Loose(s)
    ensures Tame(s, AddInput(s, id, value)) && ShowsNoMore(s, AddInput(s, id, value), {})
  {
    hide PlansSound, RowsNamed, EndedLetGo;
    assert InputsResolve(AddInput(s, id, value)) by { hide OutputsEnded; }
    assert OutputsEnded(AddInput(s, id, value)) by { hide InputsResolve; }
    LooseByRows(s, AddInput(s, id, value));
  }

  lemma LooseByRows(s: State, s': State)
    requires Loose(s) && s'.tasks == s.tasks && s'.attempts == s.attempts && s'.runs == s.runs && s'.plans == s.plans
    ensures PlansSound(s') && RowsNamed(s') && EndedLetGo(s')
  {
    hide Accepted;
  }

  lemma RegisterIsTame(s: State, id: nat, plan: Plan)
    requires Loose(s) && Accepted(plan)
    ensures Tame(s, Register(s, id, plan)) && ShowsNoMore(s, Register(s, id, plan), {})
  {
    hide Accepted, Resolves;
    assert PlansSound(Register(s, id, plan));
    hide PlansSound;
    assert RowsNamed(Register(s, id, plan)) && EndedLetGo(Register(s, id, plan));
  }

  /** A run enters with fresh rows. */
  ghost predicate RunEnters(s: State, s': State, run: nat) {
    && s'.plans == s.plans && s'.artifacts == s.artifacts && s'.attempts == s.attempts
    && run !in s.runs && run in s'.runs && s'.runs == s.runs[run := s'.runs[run]]
    && Accepted(s'.runs[run].plan) && Resolves(s.artifacts, s'.runs[run].inputs)
    && (forall k {:trigger k in s'.tasks} :: k in s'.tasks ==>
          k in s.tasks || (k.run == run && k.node in s'.runs[run].plan.ops && !ShowsOutputs(s'.tasks[k])))
    && (forall k {:trigger k in s.tasks} :: k in s.tasks ==> k in s'.tasks && s'.tasks[k] == s.tasks[k])
  }

  lemma EntryIsTame(s: State, s': State, run: nat)
    requires Loose(s) && RunEnters(s, s', run)
    ensures Tame(s, s') && ShowsNoMore(s, s', {})
  {
    hide Accepted, Resolves;
    EntryKeepsPlans(s, s', run);
    EntryKeepsRows(s, s', run);
    EntryKeepsInputs(s, s', run);
    hide PlansSound, RowsNamed, InputsResolve;
  }

  lemma EntryKeepsPlans(s: State, s': State, run: nat)
    requires PlansSound(s) && RunEnters(s, s', run)
    ensures PlansSound(s')
  {
    hide Accepted, Resolves;
  }

  lemma EntryKeepsRows(s: State, s': State, run: nat)
    requires RowsNamed(s) && RunEnters(s, s', run)
    ensures RowsNamed(s')
  {
    hide Accepted, Resolves, ShowsOutputs;
  }

  lemma EntryKeepsInputs(s: State, s': State, run: nat)
    requires InputsResolve(s) && RunEnters(s, s', run)
    ensures InputsResolve(s')
  {
    hide Accepted, ShowsOutputs;
  }

  lemma SubmitIsTame(s: State, run: nat, id: nat, inputs: Outputs, target: Name, class_: Name, createdAt: int)
    requires Loose(s) && run !in s.runs && id in s.plans && Accepted(s.plans[id])
    ensures Tame(s, Submit(s, run, id, inputs, target, class_, createdAt))
    ensures ShowsNoMore(s, Submit(s, run, id, inputs, target, class_, createdAt), {})
  {
    hide Loose, Tame, ShowsNoMore, Submittable, Accepted, RunEnters;
    if Submittable(s, s.plans[id], inputs, target) {
      SubmittedInputs(s, s.plans[id], inputs, target);
      SubmitEnters(s, run, id, inputs, target, class_, createdAt);
      EntryIsTame(s, Submit(s, run, id, inputs, target, class_, createdAt), run);
    } else {
      SameIsTame(s);
    }
  }

  lemma SameIsTame(s: State)
    requires Loose(s)
    ensures Tame(s, s) && ShowsNoMore(s, s, {})
  {
    hide Loose;
  }

  lemma NamedRuns(s: State)
    requires Loose(s)
    ensures forall k {:trigger k in s.tasks} :: k in s.tasks ==> k.run in s.runs
  {
  }

  lemma SubmitEnters(s: State, run: nat, id: nat, inputs: Outputs, target: Name, class_: Name, createdAt: int)
    requires Loose(s) && run !in s.runs && id in s.plans && Accepted(s.plans[id])
    requires Submittable(s, s.plans[id], inputs, target) && Resolves(s.artifacts, inputs)
    ensures RunEnters(s, Submit(s, run, id, inputs, target, class_, createdAt), run)
  {
    NamedRuns(s);
    SubmittedRows(s, run, id, inputs, target, class_, createdAt);
    hide Loose, Accepted, Submittable, Resolves, Submit, RunEnters;
    RowsEnter(s, Submit(s, run, id, inputs, target, class_, createdAt), run, s.plans[id], inputs, target, createdAt);
  }

  lemma RowsEnter(s: State, s': State, run: nat, plan: Plan, inputs: Outputs, target: Name, createdAt: int)
    requires s'.plans == s.plans && s'.artifacts == s.artifacts && s'.attempts == s.attempts
    requires run !in s.runs && s'.runs == s.runs[run := Run(plan, inputs, target, Queued, createdAt, map[])]
    requires Accepted(plan) && Resolves(s.artifacts, inputs)
    requires forall k {:trigger k in s'.tasks} :: k in s'.tasks ==>
      k in s.tasks || (k.run == run && k.node in plan.ops && !ShowsOutputs(s'.tasks[k]))
    requires forall k {:trigger k in s.tasks} :: k in s.tasks ==> k in s'.tasks && s'.tasks[k] == s.tasks[k]
    ensures RunEnters(s, s', run)
  {
    hide Accepted, Resolves, ShowsOutputs;
  }

  lemma SubmittedRows(s: State, run: nat, id: nat, inputs: Outputs, target: Name, class_: Name, createdAt: int)
    requires id in s.plans && run !in s.runs && Accepted(s.plans[id]) && Submittable(s, s.plans[id], inputs, target)
    requires forall k {:trigger k in s.tasks} :: k in s.tasks ==> k.run != run
    ensures var s', plan := Submit(s, run, id, inputs, target, class_, createdAt), s.plans[id];
      && s'.plans == s.plans && s'.artifacts == s.artifacts && s'.attempts == s.attempts
      && s'.runs == s.runs[run := Run(plan, inputs, target, Queued, createdAt, map[])]
      && (forall k {:trigger k in s'.tasks} :: k in s'.tasks ==>
            k in s.tasks || (k.run == run && k.node in plan.ops && !ShowsOutputs(s'.tasks[k])))
      && (forall k {:trigger k in s.tasks} :: k in s.tasks ==> k in s'.tasks && s'.tasks[k] == s.tasks[k])
  {
    hide Accepted, NewTasks, Submittable;
  }

  lemma SubmittedInputs(s: State, plan: Plan, inputs: Outputs, target: Name)
    requires Submittable(s, plan, inputs, target)
    ensures Resolves(s.artifacts, inputs)
  {
    hide TargetOf;
  }

  /** A completion adds artifacts of its own attempt only. */
  lemma CompletionAdds(s: State, lease: Lease, outputs: Values)
    requires OutputsEnded(s) && EndedLetGo(s) && Completes(s, lease, outputs)
    ensures var s' := Complete(s, lease, outputs);
      ArtifactsKept(s, s') && forall id {:trigger id in s'.artifacts} :: id in s'.artifacts && id !in s.artifacts ==>
        id.OutputArtifact? && id.attempt == lease.attempt
  {
    hide OutputsMatch, AllSucceeded, RunOutputs, RunOutputsRaise, OutputRows, OutputIds;
    AddOutputRows(s.artifacts, lease.attempt, outputs);
  }

  /** The rows a completion leaves. */
  ghost predicate RowCompletes(s: State, s': State, ak: AttemptKey) {
    && ak in s.attempts && ak in s'.attempts && ak.task in s.tasks && ak.task in s'.tasks && s'.plans == s.plans
    && s'.runs.Keys == s.runs.Keys && RunsFixed(s, s')
    && s'.tasks == s.tasks[ak.task := s'.tasks[ak.task]] && s'.tasks[ak.task].attempt == s.tasks[ak.task].attempt
    && s'.attempts == s.attempts[ak := s'.attempts[ak]]
    && s'.attempts[ak].state == AttemptSucceeded && s'.attempts[ak].hold.None?
  }

  lemma CompletedRowsAre(s: State, lease: Lease, outputs: Values)
    requires Completes(s, lease, outputs)
    ensures RowCompletes(s, Complete(s, lease, outputs), lease.attempt)
  {
    hide OutputsMatch, AllSucceeded, RunOutputs, RunOutputsRaise, OutputRows, OutputIds;
  }

  lemma CompletionKeepsNames(s: State, s': State, ak: AttemptKey)
    requires RowsNamed(s) && EndedLetGo(s) && PlansSound(s) && RowCompletes(s, s', ak)
    ensures RowsNamed(s') && EndedLetGo(s') && PlansSound(s')
  {
    hide Accepted;
    assert PlansSound(s') by { hide RowsNamed, EndedLetGo; }
    assert RowsNamed(s') by { hide PlansSound, EndedLetGo; }
  }

  lemma CompletionKeepsOwners(s: State, s': State, ak: AttemptKey)
    requires OutputsEnded(s) && RowCompletes(s, s', ak) && forall id {:trigger id in s'.artifacts} ::
        id in s'.artifacts && id !in s.artifacts ==> id.OutputArtifact? && id.attempt == ak
    ensures OutputsEnded(s')
  {
    hide RunsFixed;
  }

  lemma CompletedShows(s: State, s': State, ak: AttemptKey)
    requires RowCompletes(s, s', ak)
    ensures ShowsNoMore(s, s', {ak.task}) && s'.runs.Keys == s.runs.Keys && RunsFixed(s, s')
  {
  }

  lemma CompletionIsTame(s: State, lease: Lease, outputs: Values)
    requires Loose(s)
    ensures Tame(s, Complete(s, lease, outputs))
    ensures ShowsNoMore(s, Complete(s, lease, outputs),
      if Completes(s, lease, outputs) then {lease.attempt.task} else {})
  {
    if Completes(s, lease, outputs) {
      var s' := Complete(s, lease, outputs);
      CompletedRowsAre(s, lease, outputs);
      hide Complete, Completes, PlansSound, RowsNamed, EndedLetGo, OutputsEnded, InputsResolve, ArtifactsKept,
        RunsFixed, RowCompletes, ShowsNoMore;
      CompletedShows(s, s', lease.attempt);
      CompletionAdds(s, lease, outputs);
      CompletionKeepsNames(s, s', lease.attempt);
      CompletionKeepsOwners(s, s', lease.attempt);
      StillResolves(s, s');
    } else {
      SameIsTame(s);
    }
  }

  lemma StillResolves(s: State, s': State)
    requires InputsResolve(s) && ArtifactsKept(s, s') && s'.runs.Keys == s.runs.Keys && RunsFixed(s, s')
    ensures InputsResolve(s')
  {
  }

  lemma StepIsTame(s: State, a: Action)
    requires Loose(s) && Allowed(s, a)
    ensures Tame(s, FreeStep(s, a))
    ensures ShowsNoMore(s, FreeStep(s, a),
      if a.DoComplete? && Completes(s, a.lease, a.outputs) then {a.lease.attempt.task} else {})
  {
    hide PlansSound, OutputsEnded, InputsResolve, RowsNamed, EndedLetGo, Tame, ShowsNoMore, Completes, RowsTurn;
    match a
    case DoComplete(lease, outputs) => CompletionIsTame(s, lease, outputs);
    case DoRegister(id, plan) => RegisterIsTame(s, id, plan);
    case DoAddInput(id, value) => InputIsTame(s, id, value);
    case DoSubmit(run, id, inputs, target, class_, createdAt) =>
      SubmitIsTame(s, run, id, inputs, target, class_, createdAt);
    case _ =>
      StepTurns(s, a);
      TurnIsTame(s, FreeStep(s, a));
  }

  lemma StepTurns(s: State, a: Action)
    requires RowsNamed(s) && EndedLetGo(s) && Allowed(s, a)
    requires !a.DoComplete? && !a.DoRegister? && !a.DoAddInput? && !a.DoSubmit?
    ensures RowsTurn(s, FreeStep(s, a))
  {
    hide RowsNamed, EndedLetGo, RowsTurn;
    match a
    case DoUnderLease(lease, op) => LeaseTurns(s, lease, op);
    case DoExpire(k, now) => ExpiryTurns(s, k, now);
    case DoFail(lease) => FailTurns(s, lease);
    case DoCancelRun(r, order) => CancelTurns(s, r, order);
    case DoRetryTask(r, n) => RetryTurns(s, r, n);
    case DoClaimFresh(k, worker, now, expires) => FreshTurns(s, k, worker, now, expires);
    case DoClaimRecovered(ak, worker, expires) => RecoveryTurns(s, ak, worker, expires);
  }

  // ---------- meaning ----------

  lemma RowStable(s: State, s': State, run: Runner, k: TaskKey)
    requires Loose(s) && RunsFixed(s, s') && ArtifactsKept(s, s') && k in s.tasks && k in s'.tasks
    requires s'.tasks[k].outputs == s.tasks[k].outputs && RowMeans(s, run, k)
    ensures RowMeans(s', run, k)
  {
    hide Accepted, Eval, PlansSound, OutputsEnded, EndedLetGo, RowsNamed;
    GivenStable(s, s', k.run);
    ResolveStable(s.artifacts, s'.artifacts, s.tasks[k].outputs);
  }

  lemma FreelyHandedStable(s: State, s': State, run: Runner, h: Handed)
    requires Loose(s) && RunsFixed(s, s') && ArtifactsKept(s, s') && HandedMeans(s, run, h)
    ensures HandedMeans(s', run, h)
  {
    hide Accepted, EvalInputs, PlansSound, OutputsEnded, EndedLetGo, RowsNamed;
    GivenStable(s, s', h.attempt.task.run);
  }

  ghost predicate ParentsMeaning(s: State, run: Runner, k: TaskKey)
    requires k.run in s.runs && Accepted(s.runs[k.run].plan) && k.node in s.runs[k.run].plan.ops
  {
    forall m {:trigger TaskKey(k.run, m)} :: m in Parents(s.runs[k.run].plan.wf, k.node) ==>
      && TaskKey(k.run, m) in s.tasks && m in s.runs[k.run].plan.ops
      && Resolve(s.artifacts, s.tasks[TaskKey(k.run, m)].outputs) ==
        Eval(s.runs[k.run].plan, Given(s, k.run), run, m)
  }

  lemma ParentsShowMeaning(s: State, run: Runner, k: TaskKey)
    requires RowsMean(s, run) && k.run in s.runs && RequestBuilds(s, k)
    requires Accepted(s.runs[k.run].plan) && k.node in s.runs[k.run].plan.ops
    ensures ParentsMeaning(s, run, k)
  {
    hide Accepted, Eval, RequestBuilds, ShowsOutputs, RowMeans, Resolve, Given;
    forall m | m in Parents(s.runs[k.run].plan.wf, k.node)
      ensures TaskKey(k.run, m) in s.tasks && m in s.runs[k.run].plan.ops
      ensures Resolve(s.artifacts, s.tasks[TaskKey(k.run, m)].outputs) ==
        Eval(s.runs[k.run].plan, Given(s, k.run), run, m)
    {
      ParentShows(s, k, m);
      RowMeaning(s, run, TaskKey(k.run, m));
    }
  }

  lemma MeaningMakesRequest(s: State, run: Runner, k: TaskKey)
    requires k.run in s.runs && Accepted(s.runs[k.run].plan) && k.node in s.runs[k.run].plan.ops
    requires ParentsMeaning(s, run, k)
    ensures RequestOf(s, k) == EvalInputs(s.runs[k.run].plan, Given(s, k.run), run, k.node)
  {
    hide IsDocument, PortsHold, ParametersHold, Eval, Request, Resolve, Given;
    var plan, given := s.runs[k.run].plan, Given(s, k.run);
    ParentsKnown(plan.wf, k.node);
    var outs := map m | m in Parents(plan.wf, k.node) :: Eval(plan, given, run, m);
    forall m | m in Parents(plan.wf, k.node)
      ensures TaskKey(k.run, m) in s.tasks && Resolve(s.artifacts, s.tasks[TaskKey(k.run, m)].outputs) == outs[m]
    {
    }
    assert ParentOutputs(s, k) == outs;
  }

  /** A request that builds sees only parents that show their meaning. */
  lemma FreelyBuiltMeans(s: State, run: Runner, ak: AttemptKey)
    requires Loose(s) && RowsMean(s, run) && ak.task in s.tasks && ak.task.run in s.runs && RequestBuilds(s, ak.task)
    ensures HandedMeans(s, run, Handed(ak, RequestOf(s, ak.task)))
  {
    hide Loose, RowsMean, Accepted, RequestBuilds, RequestOf, EvalInputs, ParentsMeaning, Given;
    SoundPlan(s, ak.task);
    ParentsShowMeaning(s, run, ak.task);
    MeaningMakesRequest(s, run, ak.task);
  }

  lemma SoundPlan(s: State, k: TaskKey)
    requires Loose(s) && k in s.tasks
    ensures k.run in s.runs && Accepted(s.runs[k.run].plan) && k.node in s.runs[k.run].plan.ops
  {
    hide Accepted;
  }

  lemma RowMeaning(s: State, run: Runner, k: TaskKey)
    requires k in s.tasks && RowMeans(s, run, k)
    ensures k.run in s.runs && Accepted(s.runs[k.run].plan) && k.node in s.runs[k.run].plan.ops
    ensures Resolve(s.artifacts, s.tasks[k].outputs) == Eval(s.runs[k.run].plan, Given(s, k.run), run, k.node)
  {
    hide Accepted, Eval;
  }

  lemma ParentShows(s: State, k: TaskKey, m: Name)
    requires k.run in s.runs && RequestBuilds(s, k) && m in Parents(s.runs[k.run].plan.wf, k.node)
    ensures TaskKey(k.run, m) in s.tasks && ShowsOutputs(s.tasks[TaskKey(k.run, m)])
  {
    var wf, outs := s.runs[k.run].plan.wf, ParentOutputs(s, k);
    var i :| 0 <= i < |wf.edges| && wf.edges[i].dst.node == k.node && wf.edges[i].src.node == m;
    assert m in outs && wf.edges[i].src.port in outs[m];
  }

  /** A completion with an honest result shows the node's meaning, even under a lease that a retry should have ended. */
  lemma FreeCompletionMeans(w: World, run: Runner, lease: Lease, outputs: Values)
    requires FreelyMeans(w, run) && Completes(w.db, lease, outputs) && HonestResult(w, run, lease, outputs)
    ensures lease.attempt.task in Complete(w.db, lease, outputs).tasks
      && RowMeans(Complete(w.db, lease, outputs), run, lease.attempt.task)
  {
    hide Loose, RowsMean, Eval, EvalInputs, Accepted, OutputsMatch, AllSucceeded, RunOutputs, RunOutputsRaise,
      OutputRows, OutputIds, Closes, RunsFixed, ArtifactsKept, InputsResolve;
    var s, s', k := w.db, Complete(w.db, lease, outputs), lease.attempt.task;
    var h :| h in w.handed && h.attempt == lease.attempt
      && outputs == run(InvocationOf(s.runs[k.run].plan, k.node), h.inputs);
    assert HandedMeans(s, run, h);
    EvalUnfolds(s.runs[k.run].plan, Given(s, k.run), run, k.node);
    ResolveNew(s.artifacts, lease.attempt, outputs);
    CompletionIsTame(s, lease, outputs);
    LooseGiven(s, s', k.run);
  }

  lemma LooseGiven(s: State, s': State, r: nat)
    requires Loose(s) && RunsFixed(s, s') && ArtifactsKept(s, s') && r in s.runs
    ensures r in s'.runs && s'.runs[r].plan == s.runs[r].plan && Given(s', r) == Given(s, r)
  {
    hide PlansSound, OutputsEnded, EndedLetGo, RowsNamed;
    GivenStable(s, s', r);
  }

  // ---------- every interleaving ----------

  ghost predicate FreelyLawful(w: World, run: Runner, a: WorldAction) {
    match a
    case Build(ak) => ak.task in w.db.tasks && ak.task.run in w.db.runs && RequestBuilds(w.db, ak.task)
    case Engine(b) => Allowed(w.db, b) && (b.DoComplete? ==> HonestResult(w, run, b.lease, b.outputs))
  }

  ghost function FreeWorldStep(w: World, run: Runner, a: WorldAction): World
    requires FreelyLawful(w, run, a)
  {
    match a
    case Build(ak) => w.(handed := w.handed + {Handed(ak, RequestOf(w.db, ak.task))})
    case Engine(b) => w.(db := FreeStep(w.db, b))
  }

  ghost predicate FreeNext(w: World, w': World, run: Runner) {
    exists a :: FreelyLawful(w, run, a) && w' == FreeWorldStep(w, run, a)
  }

  /** Any interleaving of transactions from the empty database, with retries whenever a user asks for them. */
  ghost predicate FreeBehavior(b: seq<World>, run: Runner) {
    && |b| >= 1 && b[0] == World(EMPTY, {})
    && forall i {:trigger b[i]} :: 0 <= i < |b| - 1 ==> FreeNext(b[i], b[i + 1], run)
  }

  lemma FreeStepMeans(w: World, run: Runner, a: WorldAction)
    requires FreelyMeans(w, run) && FreelyLawful(w, run, a)
    ensures FreelyMeans(FreeWorldStep(w, run, a), run)
  {
    hide Loose, RowMeans, HandedMeans, FreeStep, Allowed, HonestResult, Completes, RunsFixed, ArtifactsKept;
    match a
    case Build(ak) => FreelyBuiltMeans(w.db, run, ak);
    case Engine(b) =>
      var s, s' := w.db, FreeStep(w.db, b);
      StepIsTame(s, b);
      var completes := b.DoComplete? && Completes(s, b.lease, b.outputs);
      if completes {
        FreeStepCompletes(w, run, b);
      }
      forall k | k in s'.tasks && ShowsOutputs(s'.tasks[k]) ensures RowMeans(s', run, k) {
        if !(completes && k == b.lease.attempt.task) {
          RowStable(s, s', run, k);
        }
      }
      forall h | h in w.handed ensures HandedMeans(s', run, h) {
        FreelyHandedStable(s, s', run, h);
      }
  }

  lemma FreeStepCompletes(w: World, run: Runner, b: Action)
    requires FreelyMeans(w, run) && FreelyLawful(w, run, Engine(b)) && b.DoComplete?
    requires Completes(w.db, b.lease, b.outputs)
    ensures b.lease.attempt.task in FreeStep(w.db, b).tasks
      && RowMeans(FreeStep(w.db, b), run, b.lease.attempt.task)
  {
    hide FreelyMeans, RowMeans, Completes, HonestResult, Complete;
    FreeCompletionMeans(w, run, b.lease, b.outputs);
  }

  lemma {:induction false} FreeBehaviorMeans(b: seq<World>, run: Runner, i: nat)
    requires FreeBehavior(b, run) && i < |b|
    ensures FreelyMeans(b[i], run)
  {
    hide FreelyMeans, FreeNext;
    if i == 0 {
      NothingYet(run);
    } else {
      FreeBehaviorMeans(b, run, i - 1);
      FreeNextMeans(b[i - 1], b[i - 1 + 1], run);
    }
  }

  lemma NothingYet(run: Runner)
    ensures FreelyMeans(World(EMPTY, {}), run)
  {
  }

  lemma FreeNextMeans(w: World, w': World, run: Runner)
    requires FreelyMeans(w, run) && FreeNext(w, w', run)
    ensures FreelyMeans(w', run)
  {
    hide FreelyMeans, FreelyLawful, FreeWorldStep;
    var a :| FreelyLawful(w, run, a) && w' == FreeWorldStep(w, run, a);
    FreeStepMeans(w, run, a);
  }

  /** Whatever the schedule and whenever nodes are retried, what a succeeded task recorded is the meaning of its node
    * on the run's inputs. */
  lemma RetriesKeepMeaning(b: seq<World>, run: Runner, i: nat, k: TaskKey)
    requires FreeBehavior(b, run) && i < |b| && k in b[i].db.tasks && b[i].db.tasks[k].state == Succeeded
    ensures k.run in b[i].db.runs && Accepted(b[i].db.runs[k.run].plan) && k.node in b[i].db.runs[k.run].plan.ops
    ensures Resolve(b[i].db.artifacts, b[i].db.tasks[k].outputs) ==
      Eval(b[i].db.runs[k.run].plan, Given(b[i].db, k.run), run, k.node)
  {
    hide FreeBehavior, Loose, Accepted, Eval, HandedMeans;
    FreeBehaviorMeans(b, run, i);
    assert RowMeans(b[i].db, run, k);
  }

  /** The disciplined histories are among these. */
  lemma BehaviorsAreFree(b: seq<World>, run: Runner)
    requires Behavior(b, run)
    ensures FreeBehavior(b, run)
  {
    hide Next, FreeNext;
    forall i | 0 <= i < |b| - 1 ensures FreeNext(b[i], b[i + 1], run) {
      NextIsFree(b[i], b[i + 1], run);
    }
  }

  lemma NextIsFree(w: World, w': World, run: Runner)
    requires Next(w, w', run)
    ensures FreeNext(w, w', run)
  {
    hide HonestResult, RequestBuilds, Lawful;
    var a :| WorldLawful(w, run, a) && w' == WorldStep(w, run, a);
    assert FreelyLawful(w, run, a);
    assert w' == FreeWorldStep(w, run, a);
  }
}
