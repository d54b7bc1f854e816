/** The engine itself: rows in fields, one method per transaction. */
module Engine {
  import opened Names
  import opened Workflows
  import opened Store
  import opened Invariant
  import opened RunControl
  import opened Protocol
  import opened World
  import opened History
  import opened Recovery
  import opened Idle
  import opened Ordering
  import opened Resolution
  import opened Transactions

  class WorkflowEngine {
    var plans: map<nat, Plan>
    var runs: map<nat, Run>
    var tasks: map<TaskKey, Task>
    var attempts: map<AttemptKey, Attempt>
    var artifacts: map<ArtifactId, Value>
    var events: seq<Event>
    var nextToken: nat

    /** The database as a value. */
    function Db(): State
      reads this
    {
      State(plans, runs, tasks, attempts, artifacts, events, nextToken)
    }

    ghost predicate Valid()
      reads this
    {
      Sound(Db())
    }

    constructor ()
      ensures Valid() && Db() == EMPTY
    {
      plans, runs, tasks, attempts, artifacts, events, nextToken := map[], map[], map[], map[], map[], [], 0;
      new;
      EmptySound();
    }

    method AppendEvent(kind: EventKind, task: TaskKey, number: Option<nat>)
      modifies this`events
      ensures Db() == Log(old(Db()), kind, task, number)
    {
      events := events + [Event(kind, task, number)];
    }

    // ---------- registration and submission ----------

    /** `register_workflow`: what is stored was accepted, and a stored version never changes. */
    method RegisterWorkflow(id: nat, wf: Workflow, registry: Registry) returns (ok: bool)
      requires Valid() && IsDocument(wf)
      modifies this
      ensures Valid() && Db() == old(Db()).(plans := plans)
      ensures !ok ==> Db() == old(Db())
      ensures ok ==>
        id in plans && plans[id].wf == wf && Accepted(plans[id]) && Db() == Register(old(Db()), id, plans[id])
      ensures ok <==> Acceptable(wf, registry) && (id in old(plans) ==> old(plans)[id].wf == wf)
      ensures ok && id !in old(plans) ==> Resolved(wf, registry, plans[id].ops)
      ensures forall i :: i in old(plans) ==> i in plans && plans[i] == old(plans)[i]
    {
      hide Sound, Accepted, ContractHolds, Offerable, Resolved, PortsHold;
      var plan := ResolveWorkflow(wf, registry);
      if plan.None? || (id in plans && plans[id].wf != wf) {
        return false;
      }
      StoredAreAccepted(Db(), id);
      AcceptedIsAcceptable(wf, registry, plan.value);
      if id !in plans {
        RegisterKeepsSound(Db(), id, plan.value);
        plans := plans[id := plan.value];
      }
      return true;
    }

    method RegisterArtifact(id: nat, value: Value)
      requires Valid()
      modifies this
      ensures Valid() && Db() == AddInput(old(Db()), id, value)
      ensures InputArtifact(id) in artifacts && forall a :: a in old(artifacts) ==> artifacts[a] == old(artifacts)[a]
      ensures InputArtifact(id) !in old(artifacts) ==> artifacts == old(artifacts)[InputArtifact(id) := value]
    {
      hide Sound;
      AddInputKeepsSound(Db(), id, value);
      if InputArtifact(id) !in artifacts {
        artifacts := artifacts[InputArtifact(id) := value];
      }
    }

    /** The checks of `submit_run` on the inputs it is given: none unknown, none missing, each of the declared type. */
    method InputsFit(plan: Plan, inputs: Outputs) returns (ok: bool)
      ensures ok <==> InputsMatch(Db(), plan, inputs)
    {
      var declared := set i | 0 <= i < |plan.wf.inputs| :: plan.wf.inputs[i].name;
      if !(inputs.Keys <= declared) {
        var name :| name in inputs && name !in declared;
        return false;
      }
      for i := 0 to |plan.wf.inputs|
        invariant forall j :: 0 <= j < i ==> InputFits(Db(), plan.wf.inputs[j], inputs)
      {
        var item := plan.wf.inputs[i];
        if item.required && item.name !in inputs {
          return false;
        }
        if item.name in inputs
          && (inputs[item.name] !in artifacts || artifacts[inputs[item.name]].atype != item.atype) {
          return false;
        }
      }
      forall name | name in inputs ensures exists i :: 0 <= i < |plan.wf.inputs| && plan.wf.inputs[i].name == name {
        assert name in declared;
      }
      return true;
    }

    /** The loop of `submit_run` that inserts the task rows in topological order; it raises on a target the operation
      * does not support. */
    method InsertTasks(run: nat, plan: Plan, target: Name, class_: Name) returns (rows: Option<map<TaskKey, Task>>)
      requires Accepted(plan)
      ensures rows.Some? <==> forall n :: n in plan.ops ==> TargetOf(plan.wf.nodes, n, target) in plan.ops[n].targets
      ensures rows.Some? ==> rows.value == NewTasks(run, plan, target, class_)
    {
      hide Order, TargetOf, ClassOf, Accepted, ContractHolds, NodeIds, ListsForward, NoLater;
      AcceptedContract(plan);
      var ordered := TopologicalNodes(plan.wf);
      OrderListsNodes(plan);
      var added: map<TaskKey, Task> := map[];
      for i := 0 to |ordered|
        invariant forall k :: k in added <==> k.run == run && k.node in ordered[..i]
        invariant forall k :: k in added ==> added[k] == FreshTask(plan, k.node, target, class_)
        invariant forall n :: n in ordered[..i] ==> TargetOf(plan.wf.nodes, n, target) in plan.ops[n].targets
      {
        var node := ordered[i];
        assert ordered[..i + 1] == ordered[..i] + [node];
        RankIsPlace(plan, i);
        if TargetOf(plan.wf.nodes, node, target) !in plan.ops[node].targets {
          return None;
        }
        added := added[TaskKey(run, node) := Task(Pending, 0, None, map[], i,
          TargetOf(plan.wf.nodes, node, target), ClassOf(plan.wf.nodes, node, class_))];
      }
      assert ordered[..|ordered|] == ordered;
      assert added == NewTasks(run, plan, target, class_);
      return Some(added);
    }

    /** `submit_run` under a fresh run id; when anything raises nothing is written. */
    method SubmitRun(run: nat, id: nat, inputs: Outputs, target: Name, class_: Name, createdAt: int) returns (ok: bool)
      requires Valid() && run !in runs
      modifies this
      ensures Valid() && (id in old(plans) ==> Accepted(old(plans)[id]))
      ensures ok <==> id in old(plans) && Submittable(old(Db()), old(plans)[id], inputs, target)
      ensures Db() == if id in old(plans)
        then Submit(old(Db()), run, id, inputs, target, class_, createdAt)
        else old(Db())
      ensures ok <==> id in plans && var plan := plans[id];
        && (forall name :: name in inputs ==> exists i :: 0 <= i < |plan.wf.inputs| && plan.wf.inputs[i].name == name)
        && (forall i :: 0 <= i < |plan.wf.inputs| && plan.wf.inputs[i].required ==> plan.wf.inputs[i].name in inputs)
        && (forall i :: 0 <= i < |plan.wf.inputs| && plan.wf.inputs[i].name in inputs ==>
              inputs[plan.wf.inputs[i].name] in artifacts
                && artifacts[inputs[plan.wf.inputs[i].name]].atype == plan.wf.inputs[i].atype)
        && (forall i :: 0 <= i < |plan.wf.nodes| ==>
              && plan.wf.nodes[i].id in plan.ops
              && (if plan.wf.nodes[i].target.Some? then plan.wf.nodes[i].target.value else target)
                in plan.ops[plan.wf.nodes[i].id].targets)
      ensures ok ==> runs == old(runs)[run := Run(plans[id], inputs, target, Queued, createdAt, map[])]
      ensures ok ==> forall i :: 0 <= i < |plans[id].wf.nodes| ==>
        var node, k := plans[id].wf.nodes[i], TaskKey(run, plans[id].wf.nodes[i].id);
        && k in tasks && tasks[k].state == Pending && tasks[k].attempt == 0 && tasks[k].hold.None?
          && tasks[k].outputs == map[]
        && tasks[k].target == (if node.target.Some? then node.target.value else target)
        && tasks[k].class_ == (if node.class_.Some? then node.class_.value else class_)
      ensures ok ==> forall e :: 0 <= e < |plans[id].wf.edges| ==>
        var k, l := TaskKey(run, plans[id].wf.edges[e].src.node), TaskKey(run, plans[id].wf.edges[e].dst.node);
        k in tasks && l in tasks && tasks[k].sequence < tasks[l].sequence
      ensures ok ==> forall k :: k in old(tasks) ==> k in tasks && tasks[k] == old(tasks)[k]
      ensures ok ==> forall k :: k in tasks && k !in old(tasks) ==>
        k.run == run && exists i :: 0 <= i < |plans[id].wf.nodes| && plans[id].wf.nodes[i].id == k.node
      ensures Db() == old(Db()).(runs := runs, tasks := tasks) && (!ok ==> Db() == old(Db()))
    {
      hide Sound, Accepted, NewTasks, Submittable, InputsMatch;
      if id in plans {
        StoredAreAccepted(Db(), id);
        SubmittableRaw(Db(), plans[id], inputs, target);
        SubmitWrites(Db(), run, id, inputs, target, class_, createdAt);
        SubmitOrders(Db(), run, id, inputs, target, class_, createdAt);
      }
      if id !in plans {
        return false;
      }
      StoredAreAccepted(Db(), id);
      SubmitKeepsSound(Db(), run, id, inputs, target, class_, createdAt);
      SubmittableParts(Db(), plans[id], inputs, target);
      var fit := InputsFit(plans[id], inputs);
      if !fit {
        return false;
      }
      var rows := InsertTasks(run, plans[id], target, class_);
      if rows.None? {
        return false;
      }
      runs := runs[run := Run(plans[id], inputs, target, Queued, createdAt, map[])];
      tasks := tasks + rows.value;
      return true;
    }

    // ---------- under a lease: each starts with `_assert_lease` ----------

    method RenewLease(lease: Lease, seconds: int, now: int) returns (renewed: Option<Lease>)
      requires Valid()
      modifies this
      ensures Valid()
      ensures renewed.Some? <==> seconds > 0 && old(Holds(Db(), lease))
      ensures Db() == if seconds > 0 then UnderLease(old(Db()), lease, Renew(now + seconds)) else old(Db())
      ensures renewed.Some? ==>
        lease.attempt in attempts
          && renewed.value == lease.(state := attempts[lease.attempt].state, handle := attempts[lease.attempt].handle)
      ensures renewed.Some? ==> var ak, k := lease.attempt, lease.attempt.task;
        && ak in old(attempts) && k in old(tasks)
        && attempts ==
             old(attempts)[ak := old(attempts)[ak].(hold := Some(Hold(lease.worker, lease.token, now + seconds)))]
        && if old(tasks)[k].hold.Some? && old(tasks)[k].hold.value.token == lease.token
          then tasks == old(tasks)[k := old(tasks)[k].(hold := Some(TaskHold(lease.token, now + seconds)))]
          else tasks == old(tasks)
      ensures Db() == old(Db()).(attempts := attempts, tasks := tasks)
      ensures renewed.None? ==> Db() == old(Db())
    {
      hide Sound;
      if seconds <= 0 || !Holds(Db(), lease) {
        return None;
      }
      LeasedStep(Db(), lease, Renew(now + seconds));
      var ak, k := lease.attempt, lease.attempt.task;
      attempts := attempts[ak := attempts[ak].(hold := Some(attempts[ak].hold.value.(expires := now + seconds)))];
      if tasks[k].hold.Some? && tasks[k].hold.value.token == lease.token {
        tasks := tasks[k := tasks[k].(hold := Some(TaskHold(lease.token, now + seconds)))];
      }
      return Some(lease.(state := attempts[ak].state, handle := attempts[ak].handle));
    }

    method RecordStage(lease: Lease) returns (ok: bool)
      requires Valid()
      modifies this
      ensures Valid()
      ensures ok == old(Holds(Db(), lease)) && Db() == UnderLease(old(Db()), lease, LeaseOp.RecordStage)
      ensures ok <==>
        && lease.attempt in attempts && attempts[lease.attempt].hold.Some?
        && attempts[lease.attempt].hold.value.worker == lease.worker
        && attempts[lease.attempt].hold.value.token == lease.token
      ensures Db() == old(Db()).(events := if ok
        then old(events) + [Event(StageCompleted, lease.attempt.task, Some(lease.attempt.number))]
        else old(events))
    {
      hide Sound;
      AttemptHasTask(Db(), lease.attempt);
      if !Holds(Db(), lease) {
        return false;
      }
      LeasedStep(Db(), lease, LeaseOp.RecordStage);
      AppendEvent(StageCompleted, lease.attempt.task, Some(lease.attempt.number));
      return true;
    }

    method MarkSubmitting(lease: Lease) returns (ok: bool)
      requires Valid()
      modifies this
      ensures Valid()
      ensures ok <==> old(Holds(Db(), lease)) && !MarkSubmittingRaises(old(attempts)[lease.attempt])
      ensures Db() == UnderLease(old(Db()), lease, LeaseOp.MarkSubmitting)
    {
      hide Sound;
      if !Holds(Db(), lease) {
        return false;
      }
      LeasedStep(Db(), lease, LeaseOp.MarkSubmitting);
      var ak := lease.attempt;
      var current := attempts[ak].state;
      if current == CancelRequested {
        return true;
      }
      if current != Leased && current != Submitting {
        return false;
      }
      attempts := attempts[ak := attempts[ak].(state := Submitting)];
      if current != Submitting {
        AppendEvent(SubmitIntent, ak.task, Some(ak.number));
      }
      return true;
    }

    /** Returns the attempt's state, which stays `cancel_requested` if a cancellation came first. */
    method RecordSubmission(lease: Lease, handle: nat, reported: TargetState) returns (state: Option<AttemptState>)
      requires Valid()
      modifies this
      ensures Valid()
      ensures state.Some? <==> old(Holds(Db(), lease))
      ensures Db() == UnderLease(old(Db()), lease, LeaseOp.RecordSubmission(handle, reported))
      ensures state.Some? ==> lease.attempt in attempts && state.value == attempts[lease.attempt].state
      ensures state.Some? ==>
        state.value ==
          if old(attempts)[lease.attempt].state == CancelRequested then CancelRequested
          else if reported == TargetIsRunning then TargetRunning
          else if reported == TargetSucceeded then Collecting
          else Submitted
    {
      hide Sound;
      var attemptState :=
        match reported
        case TargetIsRunning => TargetRunning
        case TargetSucceeded => Collecting
        case _ => Submitted;
      if !Holds(Db(), lease) {
        return None;
      }
      LeasedStep(Db(), lease, LeaseOp.RecordSubmission(handle, reported));
      var ak := lease.attempt;
      if attempts[ak].state == CancelRequested {
        attemptState := CancelRequested;
      }
      attempts := attempts[ak := attempts[ak].(state := attemptState, handle := Some(handle))];
      AppendEvent(TargetSubmitted, ak.task, Some(ak.number));
      return Some(attemptState);
    }

    method RecordTargetStatus(lease: Lease, reported: TargetState) returns (ok: bool)
      requires Valid()
      modifies this
      ensures old(OpLawful(Db(), lease, RecordStatus(reported))) ==> Valid()
      ensures ok == old(Holds(Db(), lease)) && Db() == UnderLease(old(Db()), lease, RecordStatus(reported))
      ensures ok ==> lease.attempt in attempts
      ensures ok ==>
        attempts[lease.attempt].state ==
          if reported == TargetQueued then Submitted
          else if reported == TargetIsRunning then TargetRunning
          else if reported == TargetSucceeded then Collecting
          else old(attempts)[lease.attempt].state
      ensures Db() == if !ok then old(Db()) else old(Db()).(
        attempts := old(attempts)[lease.attempt :=
          old(attempts)[lease.attempt].(state := attempts[lease.attempt].state)],
        events := old(events) + [Event(TargetReported, lease.attempt.task, Some(lease.attempt.number))])
    {
      hide Sound;
      if !Holds(Db(), lease) {
        return false;
      }
      LeasedStep(Db(), lease, RecordStatus(reported));
      var ak := lease.attempt;
      var attemptState := attempts[ak].state;
      if reported == TargetQueued {
        attemptState := Submitted;
      } else if reported == TargetIsRunning {
        attemptState := TargetRunning;
      } else if reported == TargetSucceeded {
        attemptState := Collecting;
      }
      attempts := attempts[ak := attempts[ak].(state := attemptState)];
      AppendEvent(TargetReported, ak.task, Some(ak.number));
      return true;
    }

    method ReleaseLease(lease: Lease) returns (ok: bool)
      requires Valid()
      modifies this
      ensures old(OpLawful(Db(), lease, Release)) ==> Valid()
      ensures ok == old(Holds(Db(), lease)) && Db() == UnderLease(old(Db()), lease, Release)
      ensures Db() == old(Db()).(attempts := attempts, tasks := tasks) && (!ok ==> Db() == old(Db()))
      ensures ok ==> var ak, k := lease.attempt, lease.attempt.task;
        && ak in old(attempts) && k in old(tasks)
        && attempts == old(attempts)[ak := old(attempts)[ak].(hold := None)]
        && if old(tasks)[k].hold.Some? && old(tasks)[k].hold.value.token == lease.token
          then tasks == old(tasks)[k := old(tasks)[k].(hold := None)]
          else tasks == old(tasks)
    {
      hide Sound;
      if !Holds(Db(), lease) {
        return false;
      }
      LeasedStep(Db(), lease, Release);
      var ak, k := lease.attempt, lease.attempt.task;
      attempts := attempts[ak := attempts[ak].(hold := None)];
      if tasks[k].hold.Some? && tasks[k].hold.value.token == lease.token {
        tasks := tasks[k := tasks[k].(hold := None)];
      }
      return true;
    }

    /** The task row is overwritten whatever it says. */
    method MarkAttemptCanceled(lease: Lease) returns (ok: bool)
      requires Valid()
      modifies this
      ensures Valid()
      ensures ok == old(Holds(Db(), lease)) && Db() == UnderLease(old(Db()), lease, MarkCanceled)
      ensures ok ==> lease.attempt in old(attempts) && lease.attempt.task in old(tasks)
      ensures Db() == if !ok then old(Db()) else old(Db()).(
        attempts := old(attempts)[lease.attempt := old(attempts)[lease.attempt].(state := AttemptCanceled,
          hold := None)],
        tasks := old(tasks)[lease.attempt.task := old(tasks)[lease.attempt.task].(state := Canceled, hold := None)],
        events := old(events) + [Event(TaskCanceled, lease.attempt.task, Some(lease.attempt.number))])
    {
      hide Sound;
      if !Holds(Db(), lease) {
        return false;
      }
      LeasedStep(Db(), lease, MarkCanceled);
      var ak, k := lease.attempt, lease.attempt.task;
      attempts := attempts[ak := attempts[ak].(state := AttemptCanceled, hold := None)];
      tasks := tasks[k := tasks[k].(state := Canceled, hold := None)];
      AppendEvent(TaskCanceled, k, Some(ak.number));
      return true;
    }

    // ---------- expiry and claims ----------

    /** The body of the loop of `_reset_expired_leases`, for a task that has an attempt row. */
    method ExpireLease(k: TaskKey, now: int)
      requires Expired(Db(), k, now) && k.run in runs && Current(Db(), k) in attempts
      modifies this
      ensures Db() == ExpireRow(old(Db()), k, now)
      ensures k in old(tasks) && AttemptKey(k, old(tasks)[k].attempt) in old(attempts)
      ensures var ak := AttemptKey(k, old(tasks)[k].attempt);
        var a, t := old(attempts)[ak], old(tasks)[k];
        if old(runs)[k.run].state == RunCanceled && a.handle.None? then
          Db() == old(Db()).(attempts := old(attempts)[ak := a.(state := AttemptCanceled, hold := None)],
            tasks := old(tasks)[k := t.(hold := None)],
            events := old(events) + [Event(TaskCanceled, k, Some(ak.number))])
        else if a.handle.Some? || a.state == Submitting then
          Db() == old(Db()).(attempts := old(attempts)[ak := a.(hold := None)],
            tasks := old(tasks)[k := t.(hold := None)],
            events := old(events) + [Event(LeaseExpiredKept, k, Some(ak.number))])
        else
          Db() == old(Db()).(attempts := old(attempts)[ak := a.(state := Abandoned, hold := None)],
            tasks := old(tasks)[k := t.(state := Pending, hold := None)],
            events := old(events) + [Event(LeaseExpiredAbandoned, k, Some(ak.number))])
    {
      hide Expired;
      ExpiredHasRow(Db(), k, now);
      var ak := Current(Db(), k);
      var a := attempts[ak];
      if runs[k.run].state == RunCanceled && a.handle.None? {
        attempts := attempts[ak := a.(state := AttemptCanceled, hold := None)];
        AppendEvent(TaskCanceled, k, Some(ak.number));
        tasks := tasks[k := tasks[k].(hold := None)];
        return;
      }
      if a.handle.Some? || a.state == Submitting {
        attempts := attempts[ak := a.(hold := None)];
        tasks := tasks[k := tasks[k].(hold := None)];
        AppendEvent(LeaseExpiredKept, k, Some(ak.number));
        return;
      }
      attempts := attempts[ak := a.(state := Abandoned, hold := None)];
      AppendEvent(LeaseExpiredAbandoned, k, Some(ak.number));
      tasks := tasks[k := tasks[k].(state := Pending, hold := None)];
    }

    /** `_reset_expired_leases`: the rows in the order the query returned them. */
    method ResetExpiredLeases(now: int) returns (ghost rows: seq<TaskKey>)
      requires Valid()
      modifies this
      ensures Valid() && TasksLinked(old(Db()))
      ensures ListsExpired(old(Db()), now, rows) && Db() == ResetRows(old(Db()), rows, now)
      ensures forall k ::
        k in rows <==> k in old(tasks) && var t, ak := old(tasks)[k], AttemptKey(k, old(tasks)[k].attempt);
        && ((t.hold.Some? && t.hold.value.expires < now)
            || (ak in old(attempts) && old(attempts)[ak].hold.Some? && old(attempts)[ak].hold.value.expires < now))
        && (t.state == Running || (ak in old(attempts) && old(attempts)[ak].state == CancelRequested))
    {
      hide Sound, Expired, ExpireRow, Current, TasksLinked, Listing, ListsExpired, ResetRows;
      ghost var before := Db();
      SoundLinks(before);
      var expired := set k | k in tasks && Expired(Db(), k, now);
      rows := [];
      NothingListed(before, now, expired);
      while expired != {}
        invariant Sound(Db()) && Db() == ResetRows(before, rows, now)
        invariant Listing(before, now, rows, expired)
        decreases |expired|
      {
        var k :| k in expired;
        ListingNext(before, now, rows, expired, k);
        StillExpired(before, rows, now, k);
        ExpiredTried(Db(), k, now);
        ExpireKeepsSound(Db(), k, now);
        ResetOneMore(before, rows, now, k);
        ExpireLease(k, now);
        rows := rows + [k];
        expired := expired - {k};
      }
      AllListed(before, now, rows);
      ListedRaw(before, now, rows);
    }

    /** The best row of the recovery query that the worker admits. */
    method FindRecoverable(targets: Option<set<Name>>, classes: Option<set<Name>>) returns (best: Option<AttemptKey>)
      ensures best.None? <==> forall ak :: !RecoverableFor(Db(), ak, targets, classes)
      ensures best.Some? ==> FirstRecoverable(Db(), best.value, targets, classes)
      ensures best.Some? ==>
        && LeftBehind(Db(), best.value) && (targets.Some? ==> tasks[best.value.task].target in targets.value)
        && (classes.Some? ==> tasks[best.value.task].class_ in classes.value)
    {
      hide Recoverable, Admits, LeftBehind;
      best := None;
      var rest := attempts.Keys;
      while rest != {}
        invariant rest <= attempts.Keys
        invariant best.None? ==> forall b :: b in attempts && b !in rest ==> !RecoverableFor(Db(), b, targets, classes)
        invariant best.Some? ==> RecoverableFor(Db(), best.value, targets, classes)
        invariant best.Some? ==>
          forall b ::
            b in attempts && b !in rest && RecoverableFor(Db(), b, targets, classes) ==>
              !RecoversBefore(Db(), b, best.value)
        decreases |rest|
      {
        var ak :| ak in rest;
        if RecoverableFor(Db(), ak, targets, classes) && (best.None? || RecoversBefore(Db(), ak, best.value)) {
          best := Some(ak);
        }
        rest := rest - {ak};
      }
      if best.Some? {
        LeftBehindRecovers(Db(), best.value);
        AdmitsOnly(tasks[best.value.task], targets, classes);
      }
    }

    /** The best row of the candidate query that the worker admits and whose parents have succeeded. */
    method FindClaimable(targets: Option<set<Name>>, classes: Option<set<Name>>) returns (best: Option<TaskKey>)
      ensures best.None? <==> forall k :: !ClaimableFor(Db(), k, targets, classes)
      ensures best.Some? ==> FirstClaimable(Db(), best.value, targets, classes)
      ensures best.Some? ==>
        && CanStart(Db(), best.value) && (targets.Some? ==> tasks[best.value].target in targets.value)
        && (classes.Some? ==> tasks[best.value].class_ in classes.value)
    {
      hide Admits, ParentsSucceeded, CanStart;
      best := None;
      var rest := tasks.Keys;
      while rest != {}
        invariant rest <= tasks.Keys
        invariant best.None? ==> forall j :: j in tasks && j !in rest ==> !ClaimableFor(Db(), j, targets, classes)
        invariant best.Some? ==> ClaimableFor(Db(), best.value, targets, classes)
        invariant best.Some? ==>
          forall j ::
            j in tasks && j !in rest && ClaimableFor(Db(), j, targets, classes) ==> !ClaimsBefore(Db(), j, best.value)
        decreases |rest|
      {
        var k :| k in rest;
        if ClaimableFor(Db(), k, targets, classes) && (best.None? || ClaimsBefore(Db(), k, best.value)) {
          best := Some(k);
        }
        rest := rest - {k};
      }
      if best.Some? {
        CanStartIsClaimable(Db(), best.value);
        AdmitsOnly(tasks[best.value], targets, classes);
      }
    }

    method LeaseRecovered(ak: AttemptKey, worker: Name, expires: int) returns (lease: Lease)
      requires ak in attempts && ak.task in tasks
      modifies this
      ensures Db() == ClaimRecovered(old(Db()), ak, worker, expires)
      ensures lease == Lease(ak, worker, old(nextToken), old(attempts)[ak].state, old(attempts)[ak].handle, true)
      ensures Db() == old(Db()).(nextToken := old(nextToken) + 1,
        attempts := old(attempts)[ak := old(attempts)[ak].(hold := Some(Hold(worker, lease.token, expires)))],
        tasks := old(tasks)[ak.task := old(tasks)[ak.task].(hold := Some(TaskHold(lease.token, expires)))],
        events := old(events) + [Event(LeaseAcquired, ak.task, Some(ak.number))])
    {
      var token := nextToken;
      nextToken := nextToken + 1;
      attempts := attempts[ak := attempts[ak].(hold := Some(Hold(worker, token, expires)))];
      tasks := tasks[ak.task := tasks[ak.task].(hold := Some(TaskHold(token, expires)))];
      AppendEvent(LeaseAcquired, ak.task, Some(ak.number));
      lease := Lease(ak, worker, token, attempts[ak].state, attempts[ak].handle, true);
    }

    method LeaseFresh(k: TaskKey, worker: Name, now: int, expires: int) returns (lease: Lease)
      requires k in tasks && k.run in runs
      modifies this
      ensures Db() == ClaimFresh(old(Db()), k, worker, now, expires)
      ensures lease == Lease(AttemptKey(k, old(tasks)[k].attempt + 1), worker, old(nextToken), Leased, None, false)
      ensures Db() == old(Db()).(nextToken := old(nextToken) + 1,
        attempts := old(attempts)[lease.attempt :=
          Attempt(Leased, Some(Hold(worker, lease.token, expires)), None, now, map[])],
        tasks := old(tasks)[k := old(tasks)[k].(state := Running, attempt := old(tasks)[k].attempt + 1,
          hold := Some(TaskHold(lease.token, expires)))],
        runs := old(runs)[k.run := old(runs)[k.run].(state := RunRunning)],
        events := old(events) + [Event(TaskLeased, k, Some(lease.attempt.number))])
    {
      var token := nextToken;
      nextToken := nextToken + 1;
      var ak := AttemptKey(k, tasks[k].attempt + 1);
      tasks := tasks[k := tasks[k].(state := Running, attempt := tasks[k].attempt + 1,
        hold := Some(TaskHold(token, expires)))];
      attempts := attempts[ak := Attempt(Leased, Some(Hold(worker, token, expires)), None, now, map[])];
      runs := runs[k.run := runs[k.run].(state := RunRunning)];
      AppendEvent(TaskLeased, k, Some(ak.number));
      lease := Lease(ak, worker, token, Leased, None, false);
    }

    /** `claim_task`: recovery comes first, then a fresh attempt; nothing is returned only when nothing qualifies. */
    method ClaimTask(worker: Name, seconds: int, now: int, targets: Option<set<Name>>, classes: Option<set<Name>>)
      returns (lease: Option<Lease>, ghost rows: seq<TaskKey>)
      requires Valid()
      modifies this
      ensures Valid() && TasksLinked(old(Db()))
      ensures seconds <= 0 ==> lease.None? && Db() == old(Db())
      ensures seconds > 0 ==>
        ListsExpired(old(Db()), now, rows)
          && Claimed(ResetRows(old(Db()), rows, now), Db(), lease, worker, now, seconds, targets, classes)
      ensures lease.Some? ==>
        && lease.value.attempt.task in tasks
        && (targets.Some? ==> tasks[lease.value.attempt.task].target in targets.value)
        && (classes.Some? ==> tasks[lease.value.attempt.task].class_ in classes.value)
      ensures lease.Some? ==>
        && lease.value.attempt in attempts
        && attempts[lease.value.attempt].hold == Some(Hold(worker, lease.value.token, now + seconds))
        && tasks[lease.value.attempt.task].hold == Some(TaskHold(lease.value.token, now + seconds))
        && lease.value == Lease(lease.value.attempt, worker, lease.value.token, attempts[lease.value.attempt].state,
             attempts[lease.value.attempt].handle, lease.value.recovered)
      ensures seconds > 0 && (lease.None? || !lease.value.recovered) ==>
        forall ak :: LeftBehind(Db(), ak) ==>
          (targets.Some? && tasks[ak.task].target !in targets.value)
            || (classes.Some? && tasks[ak.task].class_ !in classes.value)
      ensures seconds > 0 && lease.None? ==>
        forall k :: CanStart(Db(), k) ==>
          (targets.Some? && tasks[k].target !in targets.value) || (classes.Some? && tasks[k].class_ !in classes.value)
      ensures lease.Some? && lease.value.recovered ==> lease.value.attempt in attempts
      ensures lease.Some? && lease.value.recovered ==>
        forall b ::
          (LeftBehind(Db(), b) && (targets.Some? ==> tasks[b.task].target in targets.value)
            && (classes.Some? ==> tasks[b.task].class_ in classes.value)) ==>
          var x, a := attempts[b], attempts[lease.value.attempt];
          || (a.state == CancelRequested && x.state != CancelRequested)
          || ((a.state == CancelRequested <==> x.state == CancelRequested)
              && (a.startedAt < x.startedAt || (a.startedAt == x.startedAt
                  && tasks[lease.value.attempt.task].sequence <= tasks[b.task].sequence)))
      ensures lease.Some? && !lease.value.recovered ==> lease.value.attempt.task.run in runs
      ensures lease.Some? && !lease.value.recovered ==>
        forall j ::
          (CanStart(Db(), j) && (targets.Some? ==> tasks[j].target in targets.value)
            && (classes.Some? ==> tasks[j].class_ in classes.value)) ==>
          var at, first := runs[j.run].createdAt, runs[lease.value.attempt.task.run].createdAt;
          first < at || (first == at && tasks[lease.value.attempt.task].sequence <= tasks[j].sequence)
    {
      hide Sound, FirstRecoverable, FirstClaimable, ResetRows, ListsExpired, TasksLinked, ParentsSucceeded,
        ClaimRecovered, ClaimFresh, RecoverableFor, ClaimableFor, LeftBehind, CanStart;
      SoundLinks(Db());
      rows := [];
      lease := None;
      if seconds <= 0 {
        return;
      }
      rows := ResetExpiredLeases(now);
      ghost var s := Db();
      var recovered := FindRecoverable(targets, classes);
      if recovered.Some? {
        RecoveredStep(s, recovered.value, targets, classes, worker, now + seconds);
        var l := LeaseRecovered(recovered.value, worker, now + seconds);
        lease := Some(l);
        RecoveryServed(s, Db(), l, worker, now, seconds, targets, classes);
        return;
      }
      var candidate := FindClaimable(targets, classes);
      if candidate.Some? {
        FreshStep(s, candidate.value, targets, classes, worker, now, now + seconds);
        var l := LeaseFresh(candidate.value, worker, now, now + seconds);
        lease := Some(l);
        FreshServed(s, Db(), l, worker, now, seconds, targets, classes);
      } else {
        assert Db() == s && (forall ak :: !RecoverableFor(s, ak, targets, classes));
        NoneLeftBehind(s, targets, classes);
        NoneCanStart(s, targets, classes);
      }
    }

    // ---------- requests and results ----------

    /** The first loop of `_task_request`: workflow inputs that reach the node. */
    method InputArtifacts(k: TaskKey) returns (inputs: Values)
      requires k.run in runs && Resolves(artifacts, runs[k.run].inputs)
      ensures inputs == FromInputs(runs[k.run].plan.wf.inputs, k.node, Given(Db(), k.run))
    {
      var items, given := runs[k.run].plan.wf.inputs, runs[k.run].inputs;
      inputs := map[];
      for i := 0 to |items|
        invariant inputs == FromInputs(items[..i], k.node, Given(Db(), k.run))
      {
        assert items[..i + 1][..i] == items[..i];
        if items[i].node == k.node && items[i].name in given {
          inputs := inputs[items[i].port := artifacts[given[items[i].name]]];
        }
      }
      assert items[..|items|] == items;
    }

    /** `_task_request`: workflow inputs first, then the outputs of the parents; None when a lookup raises. */
    method BuildRequest(k: TaskKey) returns (request: Option<Values>)
      requires Valid() && k in tasks && k.run in runs
      ensures request == if RequestBuilds(Db(), k) then Some(RequestOf(Db(), k)) else None
    {
      hide Sound, FromEdges, FromInputs, ParentOutputs, Given, Resolve;
      var edges := runs[k.run].plan.wf.edges;
      InputsResolve(Db(), k.run);
      var inputs := InputArtifacts(k);
      ghost var base, outs := inputs, ParentOutputs(Db(), k);
      FromEdgesSplit(edges, 0, k.node, base, outs);
      for i := 0 to |edges|
        invariant inputs == FromEdges(edges[..i], k.node, base, outs)
        invariant forall j ::
          0 <= j < i && edges[j].dst.node == k.node ==>
            edges[j].src.node in outs && edges[j].src.port in outs[edges[j].src.node]
      {
        FromEdgesSplit(edges, i, k.node, base, outs);
        if edges[i].dst.node == k.node {
          EdgeSees(Db(), k, i);
          var parent := TaskKey(k.run, edges[i].src.node);
          if parent !in tasks || edges[i].src.port !in tasks[parent].outputs
            || tasks[parent].outputs[edges[i].src.port] !in artifacts {
            return None;
          }
          inputs := inputs[edges[i].dst.port := artifacts[tasks[parent].outputs[edges[i].src.port]]];
        }
      }
      assert edges[..|edges|] == edges;
      return Some(inputs);
    }

    /** `task_request` raises on a lease that is no longer current. */
    method TaskRequest(lease: Lease) returns (request: Option<Values>)
      requires Valid()
      ensures Holds(Db(), lease) ==> lease.attempt.task.run in runs
      ensures request == if Holds(Db(), lease) && RequestBuilds(Db(), lease.attempt.task)
        then Some(RequestOf(Db(), lease.attempt.task))
        else None
    {
      hide Sound;
      if !Holds(Db(), lease) {
        return None;
      }
      SoundLinks(Db());
      request := BuildRequest(lease.attempt.task);
    }

    /** The loop of `_complete` that inserts one artifact per output; it raises on an output of another type. */
    method StoreOutputs(ak: AttemptKey, outputs: Values, declared: map<Name, Port>)
        returns (ok: bool, stored: map<ArtifactId, Value>, ids: Outputs)
      requires outputs.Keys <= declared.Keys
      ensures ok <==> forall p :: p in outputs ==> outputs[p].atype == declared[p].atype
      ensures ok ==> stored == artifacts + OutputRows(ak, outputs) && ids == OutputIds(ak, outputs)
    {
      hide OutputRows, OutputIds;
      ok, stored, ids := true, artifacts, map[];
      var rest := outputs.Keys;
      ghost var done: Values := map[];
      NoRows(artifacts, ak);
      while rest != {}
        invariant rest <= outputs.Keys && done.Keys == outputs.Keys - rest
          && forall p :: p in done ==> done[p] == outputs[p] && outputs[p].atype == declared[p].atype
        invariant stored == artifacts + OutputRows(ak, done) && ids == OutputIds(ak, done)
        decreases |rest|
      {
        var port :| port in rest;
        if outputs[port].atype != declared[port].atype {
          return false, artifacts, map[];
        }
        OneMoreRow(artifacts, ak, done, port, outputs[port]);
        stored := stored[OutputArtifact(ak, port) := outputs[port]];
        ids := ids[port := OutputArtifact(ak, port)];
        done := done[port := outputs[port]];
        rest := rest - {port};
      }
      assert done == outputs;
    }

    /** The loop of `_finish_run_if_terminal` that maps task outputs to run outputs; it raises on a missing one. */
    method CollectRunOutputs(outs: seq<WorkflowOutput>, rows: map<TaskKey, Task>, r: nat)
        returns (collected: Option<Outputs>)
      ensures collected == if RunOutputsRaise(outs, rows, r) then None else Some(RunOutputs(outs, rows, r))
    {
      var found: Outputs := map[];
      for i := 0 to |outs|
        invariant found == RunOutputs(outs[..i], rows, r)
        invariant forall j ::
          0 <= j < i ==> TaskKey(r, outs[j].node) in rows && outs[j].port in rows[TaskKey(r, outs[j].node)].outputs
      {
        assert outs[..i + 1][..i] == outs[..i];
        var k := TaskKey(r, outs[i].node);
        if k !in rows || outs[i].port !in rows[k].outputs {
          return None;
        }
        found := found[outs[i].name := rows[k].outputs[outs[i].port]];
      }
      assert outs[..|outs|] == outs;
      return Some(found);
    }

    /** `_finish_run_if_terminal`, for the rows a completion would leave. */
    method FinishRunIfTerminal(r: nat, rows: map<TaskKey, Task>) returns (finished: Option<map<nat, Run>>)
      requires r in runs
      ensures finished.None? <==> AllSucceeded(rows, r) && RunOutputsRaise(runs[r].plan.wf.outputs, rows, r)
      ensures finished.Some? ==> finished.value == FinishRun(Db().(tasks := rows), r).runs
    {
      hide RunOutputs, RunOutputsRaise, AllSucceeded;
      if !AllSucceeded(rows, r) {
        return Some(runs);
      }
      var collected := CollectRunOutputs(runs[r].plan.wf.outputs, rows, r);
      if collected.None? {
        return None;
      }
      return Some(runs[r := runs[r].(state := RunSucceeded, outputs := collected.value)]);
    }

    /** `_complete`: nothing is written when anything raises, up to the outputs of a finished run. */
    method CompleteTask(lease: Lease, outputs: Values) returns (ok: bool)
      requires Valid()
      modifies this
      ensures Valid() && Db() == Complete(old(Db()), lease, outputs)
      ensures ok <==>
        old(Completes(Db(), lease, outputs))
          || (lease.attempt.task in old(tasks) && old(tasks)[lease.attempt.task].state == Succeeded)
      ensures !ok || old(tasks)[lease.attempt.task].state == Succeeded ==> Db() == old(Db())
      ensures ok && old(tasks)[lease.attempt.task].state != Succeeded ==>
        var ak, k := lease.attempt, lease.attempt.task;
        && ak in old(attempts) && k in tasks && tasks[k].outputs.Keys == outputs.Keys
        && tasks == old(tasks)[k := old(tasks)[k].(state := Succeeded, outputs := tasks[k].outputs, hold := None)]
        && events == old(events) + [Event(TaskSucceeded, k, Some(ak.number))]
    {
      hide Sound, OutputRows, OutputIds, RunOutputs, RunOutputsRaise, AllSucceeded, Complete, FinishRun,
        LogAttempt, OutputsMatch;
      ghost var s := Db();
      NotCompleting(s, lease, outputs);
      CompleteKeepsSound(s, lease, outputs);
      IdsOfOutputs(lease.attempt, outputs);
      var ak, k := lease.attempt, lease.attempt.task;
      if k in tasks && tasks[k].state == Succeeded {
        return true;
      }
      if !Closes(Db(), lease) {
        return false;
      }
      TaskHasNode(s, k);
      var declared := runs[k.run].plan.ops[k.node].outputs;
      MatchingParts(outputs, declared);
      if !(forall p | p in declared :: declared[p].required ==> p in outputs) || !(outputs.Keys <= declared.Keys) {
        return false;
      }
      var typed, stored, ids := StoreOutputs(ak, outputs, declared);
      if !typed {
        return false;
      }
      var tasks' := tasks[k := tasks[k].(state := Succeeded, outputs := ids, hold := None)];
      var finished := FinishRunIfTerminal(k.run, tasks');
      if finished.None? {
        return false;
      }
      artifacts, tasks, runs := stored, tasks', finished.value;
      attempts := attempts[ak := attempts[ak].(state := AttemptSucceeded, outputs := ids, hold := None)];
      CompletingWrites(s, lease, outputs);
      AppendEvent(TaskSucceeded, k, Some(ak.number));
      return true;
    }

    /** `_fail`: a task that is no longer running under this token is left alone. */
    method FailTask(lease: Lease)
      requires Valid()
      modifies this
      ensures Valid() && Db() == Fail(old(Db()), lease)
      ensures var ak, k := lease.attempt, lease.attempt.task;
        if k in old(tasks) && k.run in old(runs) && ak in old(attempts) && old(tasks)[k].state == Running
          && old(tasks)[k].hold.Some? && old(tasks)[k].hold.value.token == lease.token
          && old(attempts)[ak].hold.Some? && old(attempts)[ak].hold.value.token == lease.token
        then Db() == old(Db()).(tasks := old(tasks)[k := old(tasks)[k].(state := Failed, hold := None)],
          runs := old(runs)[k.run := old(runs)[k.run].(state := RunFailed)],
          attempts := old(attempts)[ak := old(attempts)[ak].(state := AttemptFailed, hold := None)],
          events := old(events) + [Event(TaskFailed, k, Some(ak.number))])
        else Db() == old(Db())
    {
      hide Sound;
      ghost var s := Db();
      FailKeepsSound(s, lease);
      var k := lease.attempt.task;
      if k !in tasks || k.run !in runs || tasks[k].state != Running || tasks[k].hold.None?
        || tasks[k].hold.value.token != lease.token {
        return;
      }
      if lease.attempt !in attempts || attempts[lease.attempt].hold.None?
        || attempts[lease.attempt].hold.value.token != lease.token {
        return;
      }
      tasks := tasks[k := tasks[k].(state := Failed, hold := None)];
      runs := runs[k.run := runs[k.run].(state := RunFailed)];
      attempts := attempts[lease.attempt := attempts[lease.attempt].(state := AttemptFailed, hold := None)];
      AppendEvent(TaskFailed, k, Some(lease.attempt.number));
    }

    // ---------- runs ----------

    method AskToCancel(ak: AttemptKey)
      requires ak in attempts && Cancellable(attempts[ak])
      modifies this`attempts, this`events
      ensures attempts == old(attempts)[ak := CancelAttempt(old(attempts)[ak])]
      ensures attempts == old(attempts)[ak := old(attempts)[ak].(state := CancelRequested,
        hold := if old(attempts)[ak].handle.Some? then None else old(attempts)[ak].hold)]
      ensures events == old(events) + [Event(CancelAsked, ak.task, Some(ak.number))]
    {
      attempts := attempts[ak := attempts[ak].(state := CancelRequested)];
      if attempts[ak].handle.Some? {
        attempts := attempts[ak := attempts[ak].(hold := None)];
      }
      AppendEvent(CancelAsked, ak.task, Some(ak.number));
    }

    /** The loop of `cancel_run`: ask each active attempt to cancel, and take the token of one that has a handle. */
    method CancelAttempts(r: nat) returns (ghost order: seq<AttemptKey>)
      modifies this`attempts, this`events
      ensures ListsCancellable(old(Db()), r, order)
      ensures attempts ==
        (map ak | ak in old(attempts) ::
           if ak.task.run == r then CancelAttempt(old(attempts)[ak]) else old(attempts)[ak])
      ensures events == old(events) + CancelEvents(order)
    {
      hide CancelAttempt, Cancellable, CancelEvents;
      ghost var was, log := attempts, events;
      NothingAsked();
      var active := set ak | ak in attempts && ak.task.run == r && Cancellable(attempts[ak]);
      ghost var all := active;
      order := [];
      while active != {}
        invariant active <= all && (forall ak :: ak in order <==> ak in all && ak !in active)
        invariant forall i, j :: 0 <= i < j < |order| ==> order[i] != order[j]
        invariant attempts.Keys == was.Keys && forall ak {:trigger attempts[ak]} :: ak in was ==>
          attempts[ak] == if ak in all && ak !in active then CancelAttempt(was[ak]) else was[ak]
        invariant events == log + CancelEvents(order)
        decreases |active|
      {
        var ak :| ak in active;
        AskToCancel(ak);
        CancelEventsGrow(order, ak);
        order := order + [ak];
        active := active - {ak};
      }
      UnmarkedStay(was);
    }

    /** `cancel_run`: a run that has ended is left alone. */
    method CancelRun(r: nat) returns (found: bool, ghost order: seq<AttemptKey>)
      requires Valid()
      modifies this
      ensures Valid() && (found <==> r in old(runs))
      ensures r in old(runs) && RunOpen(old(runs)[r].state) ==> ListsCancellable(old(Db()), r, order)
      ensures Db() == Store.CancelRun(old(Db()), r, order)
      ensures r !in old(runs) || old(runs)[r].state !in {Queued, RunRunning} ==> Db() == old(Db())
      ensures r in old(runs) && old(runs)[r].state in {Queued, RunRunning} ==>
        && runs == old(runs)[r := old(runs)[r].(state := RunCanceled)]
        && tasks.Keys == old(tasks).Keys && attempts.Keys == old(attempts).Keys
        && |events| == |old(events)| + |order| && (forall i :: 0 <= i < |order| ==>
              events[|old(events)| + i] == Event(CancelAsked, order[i].task, Some(order[i].number)))
      ensures r in old(runs) && old(runs)[r].state in {Queued, RunRunning} ==> forall k :: k in old(tasks) ==>
        tasks[k] == if k.run == r && old(tasks)[k].state in {Pending, Running}
          then old(tasks)[k].(state := Canceled, hold := None)
          else old(tasks)[k]
      ensures r in old(runs) && old(runs)[r].state in {Queued, RunRunning} ==> forall ak :: ak in old(attempts) ==>
        var a := old(attempts)[ak];
        attempts[ak] == if ak.task.run == r
          && a.state in {Leased, Submitted, TargetRunning, Collecting, CancelRequested}
          then a.(state := CancelRequested, hold := if a.handle.Some? then None else a.hold)
          else a
    {
      hide Sound, ListsCancellable, CancelAttempt, CancelTask, CancelEvents, Store.CancelRun;
      ghost var s := Db();
      found, order := r in runs, [];
      CancelOfEnded(s, r, order);
      if r !in runs || !RunOpen(runs[r].state) {
        return;
      }
      order := CancelAttempts(r);
      CancelKeepsSound(s, r, order);
      CancelWrites(s, r, order);
      tasks := map k | k in tasks :: if k.run == r then CancelTask(tasks[k]) else tasks[k];
      runs := runs[r := runs[r].(state := RunCanceled)];
    }

    method LogRetries(r: nat, nodes: seq<Name>)
      modifies this`events
      ensures events == old(events) + RetryEvents(r, nodes)
    {
      ghost var log := events;
      for i := 0 to |nodes|
        invariant events == log + RetryEvents(r, nodes[..i])
      {
        AppendEvent(RetryAsked, TaskKey(r, nodes[i]), None);
        assert nodes[..i + 1] == nodes[..i] + [nodes[i]];
        RetryEventsGrow(r, nodes[..i], nodes[i]);
      }
      assert nodes[..|nodes|] == nodes;
    }

    /** `retry_task`: the node and everything reachable from it become pending again, whatever their attempts are
      * doing. */
    method RetryTask(r: nat, n: Name) returns (ok: bool)
      requires Valid()
      modifies this
      ensures ok <==> r in old(runs) && TaskKey(r, n) in old(tasks)
      ensures Db() == Store.RetryTask(old(Db()), r, n)
      ensures old(RetryLawful(Db(), r, n)) ==> Valid()
    {
      hide Sound, RetryLawful, Downstream, Sorted, ResetTask, RetryEvents;
      ghost var s := Db();
      if r !in runs || TaskKey(r, n) !in tasks {
        return false;
      }
      RetryKeepsSound(s, r, n);
      TaskPlanned(s, TaskKey(r, n));
      var reset := Descendants(runs[r].plan.wf, n);
      tasks := map k | k in tasks :: if k.run == r && k.node in reset then ResetTask(tasks[k]) else tasks[k];
      var nodes := Sort(reset);
      LogRetries(r, nodes);
      runs := runs[r := runs[r].(state := Queued, outputs := map[])];
      return true;
    }

    // ---------- the embedded worker ----------

    /** What `run_once` does after its claim: run the request, complete, and fail the task if any of that raises. */
    method Execute(lease: Lease, execute: Executor)
      requires Valid() && lease.attempt.task in tasks
      modifies this
      ensures Valid() && TasksPlanned(old(Db())) && Db() == Executed(old(Db()), lease, execute)
      ensures old(Closes(Db(), lease)) ==>
        lease.attempt.task in tasks && tasks[lease.attempt.task].state in {Succeeded, Failed}
      ensures old(Closes(Db(), lease)) ==> var s, k := old(Db()), lease.attempt.task;
        tasks[k].state == Succeeded <==>
          Holds(s, lease) && RequestBuilds(s, k)
            && var result := execute(InvocationOf(s.runs[k.run].plan, k.node), RequestOf(s, k));
               result.Some? && Completes(s, lease, result.value)
    {
      hide Sound, Holds, RequestBuilds, Completes, Complete, Fail, RequestOf, TasksPlanned, Closes;
      SoundPlanned(Db());
      ExecutionEnds(Db(), lease, execute);
      TaskHasNode(Db(), lease.attempt.task);
      var request := TaskRequest(lease);
      if request.Some? {
        var result := execute(InvocationOf(runs[lease.attempt.task.run].plan, lease.attempt.task.node), request.value);
        if result.Some? {
          var ok := CompleteTask(lease, result.value);
          if ok {
            return;
          }
          NotCompleting(old(Db()), lease, result.value);
        }
      }
      FailTask(lease);
    }

    /** `run_once`: claim, execute, and report whether there was anything to claim. */
    method RunOnce(execute: Executor, worker: Name, seconds: int, now: int, targets: Option<set<Name>>,
        classes: Option<set<Name>>)
      returns (worked: bool, ghost lease: Option<Lease>, ghost rows: seq<TaskKey>, ghost s: State)
      requires Valid()
      modifies this
      ensures Valid() && TasksLinked(old(Db())) && worked == lease.Some?
      ensures seconds <= 0 ==> !worked && Db() == old(Db())
      ensures seconds > 0 ==>
        ListsExpired(old(Db()), now, rows)
          && Claimed(ResetRows(old(Db()), rows, now), s, lease, worker, now, seconds, targets, classes)
      ensures worked ==>
        TasksPlanned(s) && lease.value.attempt.task in s.tasks && Db() == Executed(s, lease.value, execute)
      ensures !worked ==> s == Db()
    {
      hide Sound, Claimed, ListsExpired, ResetRows, TasksLinked, Executed, TasksPlanned;
      var claim;
      claim, rows := ClaimTask(worker, seconds, now, targets, classes);
      lease, s := claim, Db();
      if claim.None? {
        return false, lease, rows, s;
      }
      SoundPlanned(Db());
      ClaimedTask(ResetRows(old(Db()), rows, now), Db(), claim, worker, now, seconds, targets, classes);
      Execute(claim.value, execute);
      worked := true;
    }

    /** `run_until_idle` with a total runner and a worker that admits everything, once every lease has lapsed and
      * nothing canceled is still in flight, whatever attempts a crash left behind: each completion finishes one task,
      * and every open run in which nothing had failed or been canceled succeeds. */
    method RunUntilIdle(execute: Executor, worker: Name, seconds: int, clock: nat -> int) returns (completed: nat)
      requires Valid() && LiveRuns(Db()) && AllLapsed(Db(), clock(0)) && Delivered(Db()) && Total(execute)
        && seconds > 0
      modifies this
      ensures Valid() && Carries(old(Db()), Db())
      ensures completed == |set k | k in old(Unfinished(Db())) && k in tasks && tasks[k].state == Succeeded|
      ensures forall r :: Healthy(old(Db()), r) ==> r in runs && runs[r].state == RunSucceeded
      ensures forall k :: k in tasks && Healthy(old(Db()), k.run) ==> tasks[k].state == Succeeded
    {
      hide Sound, LiveRuns, NothingHeld, AllLapsed, Delivered, Total, Unfinished, Healthy, Executed, Claimed,
        ListsExpired,
        ResetRows, Carries, TasksLinked;
      completed := 0;
      var more := true;
      ghost var start := Db();
      SoundLinks(start);
      CarriesReflexive(start);
      while more
        invariant Sound(Db()) && LiveRuns(Db()) && Delivered(Db()) && AllLapsed(Db(), clock(completed))
        invariant Carries(start, Db()) && completed + |Unfinished(Db())| == |Unfinished(start)|
        invariant !more ==> forall r :: !Healthy(Db(), r)
        decreases |Unfinished(Db())|, more
      {
        ghost var before := Db();
        ghost var lease, rows, s;
        more, lease, rows, s := RunOnce(execute, worker, seconds, clock(completed), None, None);
        IdleRound(before, s, lease, rows, worker, clock(completed), seconds, execute);
        CarriesTransitive(start, before, Db());
        if more {
          completed := completed + 1;
        }
        FreeIsLapsed(Db(), clock(completed));
      }
      WorkDone(start, Db());
      forall r | Healthy(start, r)
        ensures r in runs && runs[r].state == RunSucceeded
        ensures forall k :: k in tasks && k.run == r ==> tasks[k].state == Succeeded
      {
        HealthySucceeded(start, Db(), r);
      }
    }
  }
}
