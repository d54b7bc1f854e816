/** The rows of the engine's database and the transactions over them, as functions from store to store. */
module Store {
  import opened Names
  import opened Workflows
  import Graph

  datatype TaskKey = TaskKey(run: nat, node: Name)
  /** Attempts are identified by the table's unique key (run, node, number). */
  datatype AttemptKey = AttemptKey(task: TaskKey, number: nat)
  /** Artifacts are inputs, or outputs identified by the table's unique key (attempt, port). */
  datatype ArtifactId = InputArtifact(id: nat) | OutputArtifact(attempt: AttemptKey, port: Name)

  datatype RunState = Queued | RunRunning | RunSucceeded | RunFailed | RunCanceled
  datatype TaskState = Pending | Running | Succeeded | Failed | Canceled
  datatype AttemptState =
    | Leased | Submitting | Submitted | TargetRunning | Collecting | CancelRequested | AttemptSucceeded
    | AttemptFailed | AttemptCanceled | Abandoned
  datatype TargetState =
    | TargetQueued | TargetIsRunning | TargetSucceeded | TargetFailed | TargetCanceled | TargetUnknown

  type Outputs = map<Name, ArtifactId>

  /** A lease as written in a row: the holder, the fencing token, and the expiry. */
  datatype Hold = Hold(worker: Name, token: nat, expires: int)
  datatype TaskHold = TaskHold(token: nat, expires: int)

  datatype Run = Run(plan: Plan, inputs: Outputs, target: Name, state: RunState, createdAt: int, outputs: Outputs)
  datatype Task = Task(state: TaskState, attempt: nat, hold: Option<TaskHold>, outputs: Outputs,
      sequence: nat, target: Name, class_: Name)
  datatype Attempt = Attempt(state: AttemptState, hold: Option<Hold>, handle: Option<nat>, startedAt: int,
      outputs: Outputs)

  datatype EventKind =
    | TaskLeased | LeaseAcquired | LeaseExpiredKept | LeaseExpiredAbandoned | SubmitIntent | TargetSubmitted
    | TargetReported | TaskSucceeded | TaskFailed | TaskCanceled | CancelAsked | RetryAsked | StageCompleted
  datatype Event = Event(kind: EventKind, task: TaskKey, number: Option<nat>)

  /** What `claim_task` hands to a worker. */
  datatype Lease = Lease(attempt: AttemptKey, worker: Name, token: nat, state: AttemptState,
      handle: Option<nat>, recovered: bool)

  datatype State = State(
    plans: map<nat, Plan>, runs: map<nat, Run>, tasks: map<TaskKey, Task>, attempts: map<AttemptKey, Attempt>,
    artifacts: map<ArtifactId, Value>, events: seq<Event>, nextToken: nat)

  const EMPTY := State(map[], map[], map[], map[], map[], [], 0)

  // ---------- readings ----------

  predicate Terminal(a: AttemptState) {
    a == AttemptSucceeded || a == AttemptFailed || a == AttemptCanceled || a == Abandoned
  }

  predicate Live(a: AttemptState) { !Terminal(a) }

  predicate RunOpen(r: RunState) { r == Queued || r == RunRunning }

  function Current(s: State, k: TaskKey): AttemptKey
    requires k in s.tasks
  {
    AttemptKey(k, s.tasks[k].attempt)
  }

  /** The guard of every leased operation: the row still carries this worker and this token. */
  predicate Holds(s: State, lease: Lease) {
    && lease.attempt in s.attempts && lease.attempt.task in s.tasks
    && var hold := s.attempts[lease.attempt].hold;
       hold.Some? && hold.value.worker == lease.worker && hold.value.token == lease.token
  }

  /** The artifacts a row of outputs refers to. */
  function Resolve(artifacts: map<ArtifactId, Value>, outs: Outputs): Values {
    map p | p in outs && outs[p] in artifacts :: artifacts[outs[p]]
  }

  /** Every reference resolves. */
  ghost predicate Resolves(artifacts: map<ArtifactId, Value>, outs: Outputs) {
    forall p {:trigger p in outs} :: p in outs ==> outs[p] in artifacts
  }

  function Given(s: State, r: nat): Values
    requires r in s.runs
  {
    Resolve(s.artifacts, s.runs[r].inputs)
  }

  function ParentOutputs(s: State, k: TaskKey): map<Name, Values>
    requires k.run in s.runs
  {
    map m | m in Parents(s.runs[k.run].plan.wf, k.node) && TaskKey(k.run, m) in s.tasks ::
      Resolve(s.artifacts, s.tasks[TaskKey(k.run, m)].outputs)
  }

  /** What `_task_request` puts in front of the runner. */
  function RequestOf(s: State, k: TaskKey): Values
    requires k.run in s.runs
  {
    Request(s.runs[k.run].plan.wf, k.node, Given(s, k.run), ParentOutputs(s, k))
  }

  ghost predicate RequestBuilds(s: State, k: TaskKey)
    requires k.run in s.runs
  {
    RequestDefined(s.runs[k.run].plan.wf, k.node, ParentOutputs(s, k))
  }

  predicate ParentsSucceeded(s: State, k: TaskKey)
    requires k.run in s.runs
  {
    forall m | m in Parents(s.runs[k.run].plan.wf, k.node) ::
      TaskKey(k.run, m) in s.tasks && s.tasks[TaskKey(k.run, m)].state == Succeeded
  }

  predicate HoldLapsed(hold: Option<Hold>, now: int) { hold.Some? && hold.value.expires < now }
  predicate TaskHoldLapsed(hold: Option<TaskHold>, now: int) { hold.Some? && hold.value.expires < now }

  /** The rows `_reset_expired_leases` selects. */
  predicate Expired(s: State, k: TaskKey, now: int) {
    && k in s.tasks
    && var t, ak := s.tasks[k], Current(s, k);
       && (TaskHoldLapsed(t.hold, now) || (ak in s.attempts && HoldLapsed(s.attempts[ak].hold, now)))
       && (t.state == Running || (ak in s.attempts && s.attempts[ak].state == CancelRequested))
  }

  /** The attempts the recovery query of `claim_task` selects. */
  predicate Recoverable(a: Attempt) {
    && a.hold.None?
    && (if a.handle.Some?
        then a.state == Submitted || a.state == TargetRunning || a.state == Collecting || a.state == CancelRequested
        else a.state == Submitting)
  }

  /** The tasks `claim_task` may lease afresh. */
  predicate Claimable(s: State, k: TaskKey) {
    && k in s.tasks && k.run in s.runs
    && s.tasks[k].state == Pending
    && RunOpen(s.runs[k.run].state)
    && ParentsSucceeded(s, k)
  }

  // ---------- row updates ----------

  function Log(s: State, kind: EventKind, task: TaskKey, number: Option<nat>): State {
    s.(events := s.events + [Event(kind, task, number)])
  }

  function LogAttempt(s: State, kind: EventKind, ak: AttemptKey): State {
    Log(s, kind, ak.task, Some(ak.number))
  }

  /** The event that records how an attempt ended. */
  function EndEvent(a: AttemptState): EventKind
    requires Terminal(a)
  {
    match a
    case AttemptSucceeded => TaskSucceeded
    case AttemptFailed => TaskFailed
    case AttemptCanceled => TaskCanceled
    case Abandoned => LeaseExpiredAbandoned
  }

  predicate IsEnd(kind: EventKind) {
    kind.TaskSucceeded? || kind.TaskFailed? || kind.TaskCanceled? || kind.LeaseExpiredAbandoned?
  }

  // ---------- transactions ----------

  function Register(s: State, id: nat, plan: Plan): State {
    if id in s.plans then s else s.(plans := s.plans[id := plan])
  }

  function AddInput(s: State, id: nat, value: Value): State {
    if InputArtifact(id) in s.artifacts then s else s.(artifacts := s.artifacts[InputArtifact(id) := value])
  }

  function TargetOf(nodes: seq<Node>, n: Name, default: Name): Name {
    if nodes == [] then default
    else if nodes[0].id == n then (if nodes[0].target.Some? then nodes[0].target.value else default)
    else TargetOf(nodes[1..], n, default)
  }

  function ClassOf(nodes: seq<Node>, n: Name, default: Name): Name {
    if nodes == [] then default
    else if nodes[0].id == n then (if nodes[0].class_.Some? then nodes[0].class_.value else default)
    else ClassOf(nodes[1..], n, default)
  }

  /** The conditions under which `submit_run` raises nothing. */
  ghost predicate Submittable(s: State, plan: Plan, inputs: Outputs, target: Name) {
    && (forall name :: name in inputs ==> exists i :: 0 <= i < |plan.wf.inputs| && plan.wf.inputs[i].name == name)
    && (forall i :: 0 <= i < |plan.wf.inputs| && plan.wf.inputs[i].required ==> plan.wf.inputs[i].name in inputs)
    && (forall i :: 0 <= i < |plan.wf.inputs| && plan.wf.inputs[i].name in inputs ==>
          var id := inputs[plan.wf.inputs[i].name];
          id in s.artifacts && s.artifacts[id].atype == plan.wf.inputs[i].atype)
    && (forall n :: n in plan.ops ==> TargetOf(plan.wf.nodes, n, target) in plan.ops[n].targets)
  }

  ghost function FreshTask(plan: Plan, n: Name, target: Name, class_: Name): Task
    requires Accepted(plan) && n in plan.ops
  {
    Task(Pending, 0, None, map[], Rank(plan.wf, n), TargetOf(plan.wf.nodes, n, target),
      ClassOf(plan.wf.nodes, n, class_))
  }

  ghost function Submit(s: State, run: nat, id: nat, inputs: Outputs, target: Name, class_: Name, createdAt: int): State
    requires run !in s.runs && id in s.plans && Accepted(s.plans[id])
  {
    var plan := s.plans[id];
    if !Submittable(s, plan, inputs, target) then s else
    s.(runs := s.runs[run := Run(plan, inputs, target, Queued, createdAt, map[])],
       tasks := s.tasks + NewTasks(run, plan, target, class_))
  }

  /** The task rows of a new run, one per node. */
  ghost function NewTasks(run: nat, plan: Plan, target: Name, class_: Name): (tasks: map<TaskKey, Task>)
    requires Accepted(plan)
    ensures forall k :: k in tasks <==> k.run == run && k.node in plan.ops
    ensures forall k ::
      k in tasks ==>
        tasks[k].state == Pending && tasks[k].attempt == 0 && tasks[k].hold.None? && tasks[k].outputs == map[]
  {
    map k | k in KeysOf(run, plan) :: FreshTask(plan, k.node, target, class_)
  }

  function KeysOf(run: nat, plan: Plan): set<TaskKey> {
    set n | n in plan.ops :: TaskKey(run, n)
  }

  /** What an expired lease does to its attempt: cancels it, keeps what reached the target, or abandons it. */
  datatype Expiry = Cancels | Keeps | Abandons

  function ExpiryOf(run: RunState, a: Attempt): Expiry {
    if run == RunCanceled && a.handle.None? then Cancels
    else if a.handle.Some? || a.state == Submitting then Keeps
    else Abandons
  }

  function AttemptAfterExpiry(a: Attempt, x: Expiry): Attempt {
    match x
    case Cancels => a.(state := AttemptCanceled, hold := None)
    case Keeps => a.(hold := None)
    case Abandons => a.(state := Abandoned, hold := None)
  }

  function TaskAfterExpiry(t: Task, x: Expiry): Task {
    if x == Abandons then t.(state := Pending, hold := None) else t.(hold := None)
  }

  function ExpiryEvent(x: Expiry): EventKind {
    match x
    case Cancels => TaskCanceled
    case Keeps => LeaseExpiredKept
    case Abandons => LeaseExpiredAbandoned
  }

  /** One row of `_reset_expired_leases`; a task without an attempt row is treated as having nothing at a target. */
  function ExpireRow(s: State, k: TaskKey, now: int): State
    requires k in s.tasks ==> k.run in s.runs
  {
    if !Expired(s, k, now) then s else
    var t, ak, run := s.tasks[k], Current(s, k), s.runs[k.run].state;
    if ak in s.attempts then
      var x := ExpiryOf(run, s.attempts[ak]);
      LogAttempt(s.(attempts := s.attempts[ak := AttemptAfterExpiry(s.attempts[ak], x)],
        tasks := s.tasks[k := TaskAfterExpiry(t, x)]), ExpiryEvent(x), ak)
    else
      s.(tasks := s.tasks[k := TaskAfterExpiry(t, if run == RunCanceled then Cancels else Abandons)])
  }

  /** The recovery branch of `claim_task`. */
  function ClaimRecovered(s: State, ak: AttemptKey, worker: Name, expires: int): State
    requires ak in s.attempts && ak.task in s.tasks
  {
    LogAttempt(s.(attempts := s.attempts[ak := s.attempts[ak].(hold := Some(Hold(worker, s.nextToken, expires)))],
                  tasks := s.tasks[ak.task := s.tasks[ak.task].(hold := Some(TaskHold(s.nextToken, expires)))],
                  nextToken := s.nextToken + 1),
               LeaseAcquired, ak)
  }

  /** The fresh-attempt branch of `claim_task`. */
  function ClaimFresh(s: State, k: TaskKey, worker: Name, now: int, expires: int): State
    requires k in s.tasks && k.run in s.runs
  {
    var t := s.tasks[k];
    var ak := AttemptKey(k, t.attempt + 1);
    var attempt := Attempt(Leased, Some(Hold(worker, s.nextToken, expires)), None, now, map[]);
    var claimed := t.(state := Running, attempt := t.attempt + 1, hold := Some(TaskHold(s.nextToken, expires)));
    LogAttempt(s.(tasks := s.tasks[k := claimed],
                  attempts := s.attempts[ak := attempt],
                  runs := s.runs[k.run := s.runs[k.run].(state := RunRunning)],
                  nextToken := s.nextToken + 1),
               TaskLeased, ak)
  }

  // ---------- operations under a lease: each starts with `_assert_lease` ----------

  datatype LeaseOp =
    | Renew(expires: int) | RecordStage | MarkSubmitting | RecordSubmission(handle: nat, submitted: TargetState)
    | RecordStatus(reported: TargetState) | Release | MarkCanceled

  function StateAfterSubmission(current: AttemptState, target: TargetState): AttemptState {
    if current == CancelRequested then CancelRequested
    else match target
      case TargetIsRunning => TargetRunning
      case TargetSucceeded => Collecting
      case _ => Submitted
  }

  function StateAfterStatus(current: AttemptState, target: TargetState): AttemptState {
    match target
    case TargetQueued => Submitted
    case TargetIsRunning => TargetRunning
    case TargetSucceeded => Collecting
    case _ => current
  }

  function AttemptAfter(a: Attempt, op: LeaseOp): Attempt
    requires a.hold.Some?
  {
    match op
    case Renew(expires) => a.(hold := Some(a.hold.value.(expires := expires)))
    case RecordStage => a
    case MarkSubmitting => if a.state == Leased then a.(state := Submitting) else a
    case RecordSubmission(handle, target) => a.(state := StateAfterSubmission(a.state, target), handle := Some(handle))
    case RecordStatus(target) => a.(state := StateAfterStatus(a.state, target))
    case Release => a.(hold := None)
    case MarkCanceled => a.(state := AttemptCanceled, hold := None)
  }

  /** Renewal and release touch the task row only while it carries the same token; cancellation always does. */
  function TaskAfter(t: Task, token: nat, op: LeaseOp): Task {
    var same := t.hold.Some? && t.hold.value.token == token;
    match op
    case Renew(expires) => if same then t.(hold := Some(TaskHold(token, expires))) else t
    case Release => if same then t.(hold := None) else t
    case MarkCanceled => t.(state := Canceled, hold := None)
    case _ => t
  }

  function EventFor(a: Attempt, op: LeaseOp): Option<EventKind> {
    match op
    case Renew(_) => None
    case RecordStage => Some(StageCompleted)
    case MarkSubmitting => if a.state == Leased then Some(SubmitIntent) else None
    case RecordSubmission(_, _) => Some(TargetSubmitted)
    case RecordStatus(_) => Some(TargetReported)
    case Release => None
    case MarkCanceled => Some(TaskCanceled)
  }

  /** The operation raises and nothing is written unless the attempt row carries this worker and this token. */
  function UnderLease(s: State, lease: Lease, op: LeaseOp): State {
    if !Holds(s, lease) then s else
    var ak, k := lease.attempt, lease.attempt.task;
    var a, t := s.attempts[ak], s.tasks[k];
    s.(attempts := s.attempts[ak := AttemptAfter(a, op)],
       tasks := s.tasks[k := TaskAfter(t, lease.token, op)],
       events := if EventFor(a, op).Some?
         then s.events + [Event(EventFor(a, op).value, k, Some(ak.number))]
         else s.events)
  }

  /** `mark_submitting` raises on a held lease too. */
  predicate MarkSubmittingRaises(a: Attempt) {
    !a.state.Leased? && !a.state.Submitting? && !a.state.CancelRequested?
  }

  /** The task is running under this token, and the token is this attempt's: shared by completion and failure. */
  predicate Closes(s: State, lease: Lease) {
    && lease.attempt.task in s.tasks && lease.attempt.task.run in s.runs
    && s.tasks[lease.attempt.task].state == Running
    && s.tasks[lease.attempt.task].hold.Some? && s.tasks[lease.attempt.task].hold.value.token == lease.token
    && lease.attempt in s.attempts
    && s.attempts[lease.attempt].hold.Some? && s.attempts[lease.attempt].hold.value.token == lease.token
  }

  /** Every required output is there, and nothing undeclared or of another type. */
  predicate OutputsMatch(outputs: Values, ports: map<Name, Port>) {
    && (forall p | p in ports :: ports[p].required ==> p in outputs)
    && (forall p | p in outputs :: p in ports && outputs[p].atype == ports[p].atype)
  }

  /** The run has tasks and all of them succeeded. */
  predicate AllSucceeded(tasks: map<TaskKey, Task>, r: nat) {
    && (exists k | k in tasks :: k.run == r)
    && (forall k | k in tasks && k.run == r :: tasks[k].state == Succeeded)
  }

  function RunOutputs(outs: seq<WorkflowOutput>, tasks: map<TaskKey, Task>, r: nat): Outputs {
    if outs == [] then map[] else
    var rest, last := RunOutputs(outs[..|outs| - 1], tasks, r), outs[|outs| - 1];
    var k := TaskKey(r, last.node);
    if k in tasks && last.port in tasks[k].outputs then rest[last.name := tasks[k].outputs[last.port]] else rest
  }

  /** Looking up the run's outputs raises: some mapped port was not produced. */
  predicate RunOutputsRaise(outs: seq<WorkflowOutput>, tasks: map<TaskKey, Task>, r: nat) {
    exists i | 0 <= i < |outs| ::
      TaskKey(r, outs[i].node) !in tasks || outs[i].port !in tasks[TaskKey(r, outs[i].node)].outputs
  }

  function OutputIds(ak: AttemptKey, outputs: Values): Outputs {
    map p | p in outputs :: OutputArtifact(ak, p)
  }

  function OutputRows(ak: AttemptKey, outputs: Values): map<ArtifactId, Value> {
    map id | id in OutputIds(ak, outputs).Values && id.OutputArtifact? && id.port in outputs :: outputs[id.port]
  }

  function TasksAfterCompletion(s: State, lease: Lease, outputs: Values): map<TaskKey, Task>
    requires lease.attempt.task in s.tasks
  {
    var k := lease.attempt.task;
    s.tasks[k := s.tasks[k].(state := Succeeded, outputs := OutputIds(lease.attempt, outputs), hold := None)]
  }

  /** `_complete` raises nothing and writes. */
  predicate Completes(s: State, lease: Lease, outputs: Values) {
    && Closes(s, lease)
    && var r := lease.attempt.task.run;
       var plan := s.runs[r].plan;
       && lease.attempt.task.node in plan.ops
       && OutputsMatch(outputs, plan.ops[lease.attempt.task.node].outputs)
       && var tasks := TasksAfterCompletion(s, lease, outputs);
          AllSucceeded(tasks, r) ==> !RunOutputsRaise(plan.wf.outputs, tasks, r)
  }

  function FinishRun(s: State, r: nat): State
    requires r in s.runs
  {
    if !AllSucceeded(s.tasks, r) then s else
    s.(runs := s.runs[r := s.runs[r].(state := RunSucceeded,
      outputs := RunOutputs(s.runs[r].plan.wf.outputs, s.tasks, r))])
  }

  function Complete(s: State, lease: Lease, outputs: Values): State {
    if !Completes(s, lease, outputs) then s else
    var a, ids := s.attempts[lease.attempt], OutputIds(lease.attempt, outputs);
    FinishRun(LogAttempt(s.(artifacts := s.artifacts + OutputRows(lease.attempt, outputs),
                            tasks := TasksAfterCompletion(s, lease, outputs),
                            attempts := s.attempts[lease.attempt := a.(state := AttemptSucceeded, outputs := ids,
                              hold := None)]),
                         TaskSucceeded, lease.attempt),
              lease.attempt.task.run)
  }

  function Fail(s: State, lease: Lease): State {
    if !Closes(s, lease) then s else
    var a, k := s.attempts[lease.attempt], lease.attempt.task;
    LogAttempt(s.(tasks := s.tasks[k := s.tasks[k].(state := Failed, hold := None)],
                  runs := s.runs[k.run := s.runs[k.run].(state := RunFailed)],
                  attempts := s.attempts[lease.attempt := a.(state := AttemptFailed, hold := None)]),
               TaskFailed, lease.attempt)
  }

  /** The attempts `cancel_run` marks. An attempt in state submitting is not among them. */
  predicate Cancellable(a: Attempt) {
    a.state.Leased? || a.state.Submitted? || a.state.TargetRunning? || a.state.Collecting? || a.state.CancelRequested?
  }

  function CancelAttempt(a: Attempt): Attempt {
    if !Cancellable(a) then a
    else a.(state := CancelRequested, hold := if a.handle.Some? then None else a.hold)
  }

  function CancelTask(t: Task): Task {
    if t.state == Pending || t.state == Running then t.(state := Canceled, hold := None) else t
  }

  function CancelEvents(order: seq<AttemptKey>): seq<Event> {
    seq(|order|, i requires 0 <= i < |order| => Event(CancelAsked, order[i].task, Some(order[i].number)))
  }

  /** `order` lists the marked attempts once each, in the order the query returned them. */
  function CancelRun(s: State, r: nat, order: seq<AttemptKey>): State {
    if r !in s.runs || !RunOpen(s.runs[r].state) then s else
    s.(attempts := map ak | ak in s.attempts ::
         if ak.task.run == r then CancelAttempt(s.attempts[ak]) else s.attempts[ak],
       tasks := map k | k in s.tasks :: if k.run == r then CancelTask(s.tasks[k]) else s.tasks[k],
       runs := s.runs[r := s.runs[r].(state := RunCanceled)],
       events := s.events + CancelEvents(order))
  }

  /** `n` and everything reachable from it. */
  ghost function Downstream(wf: Workflow, n: Name): set<Name> {
    set m | m in NodeIds(wf) && Reaches(wf, n, m)
  }

  ghost predicate Reaches(wf: Workflow, n: Name, m: Name) {
    exists p: seq<Name> :: |p| >= 1 && p[0] == n && p[|p| - 1] == m && Graph.IsWalk(p, NodeIds(wf), Links(wf))
  }

  function ResetTask(t: Task): Task {
    t.(state := Pending, hold := None, outputs := map[])
  }

  function RetryEvents(r: nat, nodes: seq<Name>): seq<Event> {
    seq(|nodes|, i requires 0 <= i < |nodes| => Event(RetryAsked, TaskKey(r, nodes[i]), None))
  }

  ghost function RetryTask(s: State, r: nat, n: Name): State {
    if r !in s.runs || TaskKey(r, n) !in s.tasks then s else
    var reset := Downstream(s.runs[r].plan.wf, n);
    s.(tasks := map k | k in s.tasks :: if k.run == r && k.node in reset then ResetTask(s.tasks[k]) else s.tasks[k],
       runs := s.runs[r := s.runs[r].(state := Queued, outputs := map[])],
       events := s.events + RetryEvents(r, Sorted(reset)))
  }
}
