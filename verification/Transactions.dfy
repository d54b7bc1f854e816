/** Steps of the engine's methods: what each leaves in the rows, and that it keeps the store sound. */
module Transactions {
  import opened Names
  import opened Workflows
  import opened Store
  import opened Invariant
  import opened RunControl
  import opened Protocol
  import opened World
  import opened Recovery
  import opened Idle
  import Graph

  /** An operation under a lease keeps the engine sound; rows it does not write it writes back as they are. */
  lemma LeasedStep(s: State, lease: Lease, op: LeaseOp)
    requires Sound(s) && Holds(s, lease)
    ensures OpLawful(s, lease, op) ==> Sound(UnderLease(s, lease, op))
    ensures s.attempts[lease.attempt := s.attempts[lease.attempt]] == s.attempts
    ensures s.tasks[lease.attempt.task := s.tasks[lease.attempt.task]] == s.tasks
  {
    hide Sound, UnderLease;
    if OpLawful(s, lease, op) {
      StepKeepsSound(s, DoUnderLease(lease, op));
    }
  }

  /** Declaring the intent is refused in later states, and writes once, to an attempt that was just leased; nothing else
    * of the store changes. */
  lemma IntentWrites(s: State, lease: Lease)
    requires Holds(s, lease)
    ensures MarkSubmittingRaises(s.attempts[lease.attempt]) <==>
      s.attempts[lease.attempt].state !in {Leased, Submitting, CancelRequested}
    ensures var ak, a := lease.attempt, s.attempts[lease.attempt];
      UnderLease(s, lease, LeaseOp.MarkSubmitting) ==
        if a.state == Leased
          then s.(attempts := s.attempts[ak := a.(state := Submitting)],
            events := s.events + [Event(SubmitIntent, ak.task, Some(ak.number))])
          else s
  {
    assert s.tasks == s.tasks[lease.attempt.task := s.tasks[lease.attempt.task]];
  }

  /** Recording a submission writes the handle, and the state that the target's state stands for unless the attempt was
    * asked to cancel; nothing else of the store changes but the log. */
  lemma SubmissionWrites(s: State, lease: Lease, handle: nat, reported: TargetState)
    requires Holds(s, lease)
    ensures var ak, a := lease.attempt, s.attempts[lease.attempt];
      UnderLease(s, lease, LeaseOp.RecordSubmission(handle, reported)) ==
        s.(attempts := s.attempts[ak := a.(handle := Some(handle), state :=
             if a.state == CancelRequested then CancelRequested
             else if reported == TargetIsRunning then TargetRunning
             else if reported == TargetSucceeded then Collecting
             else Submitted)],
           events := s.events + [Event(TargetSubmitted, ak.task, Some(ak.number))])
  {
    assert s.tasks == s.tasks[lease.attempt.task := s.tasks[lease.attempt.task]];
  }

  lemma AttemptHasTask(s: State, ak: AttemptKey)
    requires Sound(s)
    ensures ak in s.attempts ==> ak.task in s.tasks
  {
  }

  lemma ExpiredHasRow(s: State, k: TaskKey, now: int)
    requires Expired(s, k, now)
    ensures k in s.tasks
  {
  }

  lemma SoundLinks(s: State)
    requires Sound(s)
    ensures TasksLinked(s)
  {
  }

  /** The rows reset so far, and those the query returned that are still to come. */
  ghost predicate Listing(s: State, now: int, rows: seq<TaskKey>, expired: set<TaskKey>) {
    && (forall i, j :: 0 <= i < j < |rows| ==> rows[i] != rows[j])
    && (forall k :: k in rows || k in expired <==> Expired(s, k, now))
    && (forall k :: k in rows ==> k !in expired)
  }

  lemma NothingListed(s: State, now: int, expired: set<TaskKey>)
    requires TasksLinked(s) && expired == set k | k in s.tasks && Expired(s, k, now)
    ensures Listing(s, now, [], expired) && ResetRows(s, [], now) == s
  {
  }

  lemma ListingNext(s: State, now: int, rows: seq<TaskKey>, expired: set<TaskKey>, k: TaskKey)
    requires Listing(s, now, rows, expired) && k in expired
    ensures Expired(s, k, now) && k !in rows && Listing(s, now, rows + [k], expired - {k})
  {
    hide Expired;
  }

  lemma AllListed(s: State, now: int, rows: seq<TaskKey>)
    requires Listing(s, now, rows, {})
    ensures ListsExpired(s, now, rows)
  {
    hide Expired;
  }

  /** What the expiry query asks of a row. */
  lemma ListedRaw(s: State, now: int, rows: seq<TaskKey>)
    requires ListsExpired(s, now, rows)
    ensures forall k :: k in rows <==> k in s.tasks && var t, ak := s.tasks[k], AttemptKey(k, s.tasks[k].attempt);
      && ((t.hold.Some? && t.hold.value.expires < now)
          || (ak in s.attempts && s.attempts[ak].hold.Some? && s.attempts[ak].hold.value.expires < now))
      && (t.state == Running || (ak in s.attempts && s.attempts[ak].state == CancelRequested))
  {
  }

  /** Every expired row has its run and its attempt. */
  lemma ExpiredTried(s: State, k: TaskKey, now: int)
    requires Sound(s) && Expired(s, k, now)
    ensures k in s.tasks && k.run in s.runs && Current(s, k) in s.attempts
  {
    ExpiredWasTried(s, k, now);
  }

  lemma ExpireKeepsSound(s: State, k: TaskKey, now: int)
    requires Sound(s) && k.run in s.runs
    ensures Sound(ExpireRow(s, k, now))
  {
    hide Sound, ExpireRow;
    StepKeepsSound(s, DoExpire(k, now));
  }

  lemma ResetOneMore(s: State, rows: seq<TaskKey>, now: int, k: TaskKey)
    requires TasksLinked(s)
    ensures TasksLinked(ResetRows(s, rows, now))
      && ResetRows(s, rows + [k], now) == ExpireRow(ResetRows(s, rows, now), k, now)
  {
    assert (rows + [k])[..|rows|] == rows;
  }

  /** Expiring other rows does not un-expire this one. */
  lemma StillExpired(s: State, rows: seq<TaskKey>, now: int, k: TaskKey)
    requires TasksLinked(s) && Expired(s, k, now) && k !in rows
    ensures Expired(ResetRows(s, rows, now), k, now)
  {
    hide ResetRows;
    ResetElsewhere(s, rows, now, k);
  }

  /** What `claim_task` does to the store `s` its expiry left, and what it hands out. */
  ghost predicate Claimed(s: State, s': State, lease: Option<Lease>, worker: Name, now: int, seconds: int,
      targets: Option<set<Name>>, classes: Option<set<Name>>) {
    match lease
    case None =>
      s' == s && (forall ak :: !RecoverableFor(s, ak, targets, classes))
        && (forall k :: !ClaimableFor(s, k, targets, classes))
    case Some(l) =>
      if l.recovered then
        && FirstRecoverable(s, l.attempt, targets, classes) && s' == ClaimRecovered(s, l.attempt, worker, now + seconds)
        && l == Lease(l.attempt, worker, s.nextToken, s.attempts[l.attempt].state, s.attempts[l.attempt].handle, true)
      else
        && (forall ak :: !RecoverableFor(s, ak, targets, classes))
        && FirstClaimable(s, l.attempt.task, targets, classes)
          && s' == ClaimFresh(s, l.attempt.task, worker, now, now + seconds)
        && l == Lease(AttemptKey(l.attempt.task, s.tasks[l.attempt.task].attempt + 1), worker, s.nextToken,
          Leased, None, false)
  }

  /** An attempt without a token that has a job to come back to, or declared that it would make one. */
  ghost predicate LeftBehind(s: State, ak: AttemptKey) {
    && ak in s.attempts && ak.task in s.tasks && s.attempts[ak].hold.None?
    && if s.attempts[ak].handle.Some?
      then s.attempts[ak].state in {Submitted, TargetRunning, Collecting, CancelRequested}
      else s.attempts[ak].state == Submitting
  }

  /** A pending task of a queued or running run, with the source of every edge into it succeeded. */
  ghost predicate CanStart(s: State, k: TaskKey) {
    && k in s.tasks && k.run in s.runs && s.tasks[k].state == Pending && s.runs[k.run].state in {Queued, RunRunning}
    && forall e :: 0 <= e < |s.runs[k.run].plan.wf.edges| && s.runs[k.run].plan.wf.edges[e].dst.node == k.node ==>
      var parent := TaskKey(k.run, s.runs[k.run].plan.wf.edges[e].src.node);
      parent in s.tasks && s.tasks[parent].state == Succeeded
  }

  lemma LeftBehindRecovers(s: State, ak: AttemptKey)
    ensures LeftBehind(s, ak) <==> ak in s.attempts && ak.task in s.tasks && Recoverable(s.attempts[ak])
  {
  }

  lemma CanStartIsClaimable(s: State, k: TaskKey)
    ensures CanStart(s, k) <==> Claimable(s, k)
  {
    if CanStart(s, k) {
      forall m | m in Parents(s.runs[k.run].plan.wf, k.node)
        ensures TaskKey(k.run, m) in s.tasks && s.tasks[TaskKey(k.run, m)].state == Succeeded
      {
      }
    }
    if Claimable(s, k) {
      forall e | 0 <= e < |s.runs[k.run].plan.wf.edges| && s.runs[k.run].plan.wf.edges[e].dst.node == k.node
        ensures var parent := TaskKey(k.run, s.runs[k.run].plan.wf.edges[e].src.node);
          parent in s.tasks && s.tasks[parent].state == Succeeded
      {
        assert s.runs[k.run].plan.wf.edges[e].src.node in Parents(s.runs[k.run].plan.wf, k.node);
      }
    }
  }

  lemma AdmitsOnly(t: Task, targets: Option<set<Name>>, classes: Option<set<Name>>)
    ensures Admits(t, targets, classes) ==>
      (targets.Some? ==> t.target in targets.value) && (classes.Some? ==> t.class_ in classes.value)
  {
  }

  lemma NoneLeftBehind(s: State, targets: Option<set<Name>>, classes: Option<set<Name>>)
    requires forall ak :: !RecoverableFor(s, ak, targets, classes)
    ensures forall ak :: LeftBehind(s, ak) ==>
      (targets.Some? && s.tasks[ak.task].target !in targets.value)
        || (classes.Some? && s.tasks[ak.task].class_ !in classes.value)
  {
    hide LeftBehind, Recoverable;
    forall ak | LeftBehind(s, ak)
      ensures ak.task in s.tasks && !Admits(s.tasks[ak.task], targets, classes)
    {
      LeftBehindRecovers(s, ak);
      assert !RecoverableFor(s, ak, targets, classes);
    }
  }

  lemma NoneCanStart(s: State, targets: Option<set<Name>>, classes: Option<set<Name>>)
    requires forall k :: !ClaimableFor(s, k, targets, classes)
    ensures forall k :: CanStart(s, k) ==>
      (targets.Some? && s.tasks[k].target !in targets.value) || (classes.Some? && s.tasks[k].class_ !in classes.value)
  {
    hide CanStart, Claimable;
    forall k | CanStart(s, k) ensures k in s.tasks && !Admits(s.tasks[k], targets, classes) {
      CanStartIsClaimable(s, k);
      ClaimableHasRow(s, k);
      assert !ClaimableFor(s, k, targets, classes);
    }
  }

  lemma ClaimableHasRow(s: State, k: TaskKey)
    requires Claimable(s, k)
    ensures k in s.tasks && k.run in s.runs
  {
  }

  /** What a claim serves before an attempt it recovers: cancel requests, then earlier starts, then lower sequence
    * numbers. */
  lemma RecoveryServed(s: State, s': State, lease: Lease, worker: Name, now: int, seconds: int,
      targets: Option<set<Name>>, classes: Option<set<Name>>)
    requires Claimed(s, s', Some(lease), worker, now, seconds, targets, classes) && lease.recovered
    ensures lease.attempt in s'.attempts && lease.attempt.task in s'.tasks
    ensures (targets.Some? ==> s'.tasks[lease.attempt.task].target in targets.value)
      && (classes.Some? ==> s'.tasks[lease.attempt.task].class_ in classes.value)
    ensures forall b ::
      (LeftBehind(s', b)
        && (targets.Some? ==> s'.tasks[b.task].target in targets.value)
        && (classes.Some? ==> s'.tasks[b.task].class_ in classes.value)) ==>
      var x, a := s'.attempts[b], s'.attempts[lease.attempt];
      || (a.state == CancelRequested && x.state != CancelRequested)
      || ((a.state == CancelRequested <==> x.state == CancelRequested)
          && (a.startedAt < x.startedAt || (a.startedAt == x.startedAt
              && s'.tasks[lease.attempt.task].sequence <= s'.tasks[b.task].sequence)))
  {
    forall b | LeftBehind(s', b)
      && (targets.Some? ==> s'.tasks[b.task].target in targets.value)
      && (classes.Some? ==> s'.tasks[b.task].class_ in classes.value)
      ensures RecoverableFor(s, b, targets, classes) && !RecoversBefore(s, b, lease.attempt)
      ensures b != lease.attempt && s'.attempts[b] == s.attempts[b]
    {
      LeftBehindRecovers(s', b);
    }
  }

  /** A fresh attempt is served only when nothing can be recovered, earlier runs first, then lower sequence numbers. */
  lemma FreshServed(s: State, s': State, lease: Lease, worker: Name, now: int, seconds: int,
      targets: Option<set<Name>>, classes: Option<set<Name>>)
    requires Claimed(s, s', Some(lease), worker, now, seconds, targets, classes) && !lease.recovered
    ensures lease.attempt.task in s'.tasks && lease.attempt.task.run in s'.runs
    ensures (targets.Some? ==> s'.tasks[lease.attempt.task].target in targets.value)
      && (classes.Some? ==> s'.tasks[lease.attempt.task].class_ in classes.value)
    ensures forall b :: LeftBehind(s', b) ==>
      (targets.Some? && s'.tasks[b.task].target !in targets.value)
        || (classes.Some? && s'.tasks[b.task].class_ !in classes.value)
    ensures forall j ::
      (CanStart(s', j)
        && (targets.Some? ==> s'.tasks[j].target in targets.value)
        && (classes.Some? ==> s'.tasks[j].class_ in classes.value)) ==>
      var at, first := s'.runs[j.run].createdAt, s'.runs[lease.attempt.task.run].createdAt;
      first < at || (first == at && s'.tasks[lease.attempt.task].sequence <= s'.tasks[j].sequence)
  {
    var k := lease.attempt.task;
    hide ParentsSucceeded, CanStart, Recoverable, LeftBehind;
    FreshRows(s, s', lease, worker, now, seconds, targets, classes);
    forall b | LeftBehind(s', b) ensures b.task in s'.tasks && !Admits(s'.tasks[b.task], targets, classes) {
      LeftBehindRecovers(s', b);
      StillLeftBehind(s, s', lease, b);
      assert !RecoverableFor(s, b, targets, classes);
    }
    forall j | CanStart(s', j) && j in s'.tasks
      && (targets.Some? ==> s'.tasks[j].target in targets.value)
      && (classes.Some? ==> s'.tasks[j].class_ in classes.value)
      ensures ClaimableFor(s, j, targets, classes) && !ClaimsBefore(s, j, k) && j in s'.tasks
        && s'.tasks[j] == s.tasks[j]
      ensures j.run in s'.runs && s'.runs[j.run].createdAt == s.runs[j.run].createdAt
    {
      StillCanStart(s, s', lease, j);
    }
    forall j | CanStart(s', j) ensures j in s'.tasks { StillCanStart(s, s', lease, j); }
  }

  /** A fresh claim rewrites one pending task, adds one held attempt, and touches the state of one run. */
  ghost predicate FreshRowsOnly(s: State, s': State, lease: Lease) {
    var ak, k := lease.attempt, lease.attempt.task;
    && k in s.tasks && k in s'.tasks && s'.tasks == s.tasks[k := s'.tasks[k]] && s.tasks[k].state == Pending
    && s'.tasks[k].state == Running && s'.tasks[k].sequence == s.tasks[k].sequence
    && s'.tasks[k].target == s.tasks[k].target && s'.tasks[k].class_ == s.tasks[k].class_
    && ak in s'.attempts && s'.attempts == s.attempts[ak := s'.attempts[ak]] && s'.attempts[ak].hold.Some?
    && k.run in s.runs && RunOpen(s.runs[k.run].state)
    && s'.runs == s.runs[k.run := s.runs[k.run].(state := RunRunning)]
  }

  lemma FreshRows(s: State, s': State, lease: Lease, worker: Name, now: int, seconds: int,
      targets: Option<set<Name>>, classes: Option<set<Name>>)
    requires Claimed(s, s', Some(lease), worker, now, seconds, targets, classes) && !lease.recovered
    ensures FreshRowsOnly(s, s', lease)
  {
    hide ParentsSucceeded;
  }

  lemma StillLeftBehind(s: State, s': State, lease: Lease, b: AttemptKey)
    requires FreshRowsOnly(s, s', lease) && b in s'.attempts && b.task in s'.tasks && Recoverable(s'.attempts[b])
    ensures b in s.attempts && s.attempts[b] == s'.attempts[b] && b.task in s.tasks
    ensures s.tasks[b.task].target == s'.tasks[b.task].target && s.tasks[b.task].class_ == s'.tasks[b.task].class_
  {
  }

  lemma StillCanStart(s: State, s': State, lease: Lease, j: TaskKey)
    requires FreshRowsOnly(s, s', lease) && CanStart(s', j)
    ensures Claimable(s, j) && j in s'.tasks && s'.tasks[j] == s.tasks[j]
    ensures j.run in s'.runs && s'.runs[j.run].createdAt == s.runs[j.run].createdAt
  {
    forall e | 0 <= e < |s.runs[j.run].plan.wf.edges| && s.runs[j.run].plan.wf.edges[e].dst.node == j.node
      ensures var parent := TaskKey(j.run, s.runs[j.run].plan.wf.edges[e].src.node);
        parent in s.tasks && s.tasks[parent].state == Succeeded
    {
    }
    CanStartIsClaimable(s, j);
  }

  lemma RecoveredStep(s: State, ak: AttemptKey, targets: Option<set<Name>>, classes: Option<set<Name>>,
      worker: Name, expires: int)
    requires Sound(s) && FirstRecoverable(s, ak, targets, classes)
    ensures ak in s.attempts && ak.task in s.tasks && Sound(ClaimRecovered(s, ak, worker, expires))
  {
    hide Sound, ClaimRecovered;
    StepKeepsSound(s, DoClaimRecovered(ak, worker, expires));
  }

  lemma FreshStep(s: State, k: TaskKey, targets: Option<set<Name>>, classes: Option<set<Name>>,
      worker: Name, now: int, expires: int)
    requires Sound(s) && FirstClaimable(s, k, targets, classes)
    ensures k in s.tasks && k.run in s.runs && Sound(ClaimFresh(s, k, worker, now, expires))
  {
    hide Sound, ClaimFresh;
    StepKeepsSound(s, DoClaimFresh(k, worker, now, expires));
  }

  lemma InputsResolve(s: State, r: nat)
    requires Sound(s) && r in s.runs
    ensures Resolves(s.artifacts, s.runs[r].inputs)
  {
  }

  lemma FailKeepsSound(s: State, lease: Lease)
    requires Sound(s)
    ensures Sound(Fail(s, lease))
  {
    hide Sound, Fail;
    StepKeepsSound(s, DoFail(lease));
  }

  /** What an edge finds is what the parent's output row refers to. */
  lemma EdgeSees(s: State, k: TaskKey, i: nat)
    requires k.run in s.runs && i < |s.runs[k.run].plan.wf.edges| && s.runs[k.run].plan.wf.edges[i].dst.node == k.node
    ensures var src, outs := s.runs[k.run].plan.wf.edges[i].src, ParentOutputs(s, k);
      var parent := TaskKey(k.run, src.node);
      && (src.node in outs <==> parent in s.tasks)
      && (parent in s.tasks ==>
            (src.port in outs[src.node] <==>
             src.port in s.tasks[parent].outputs && s.tasks[parent].outputs[src.port] in s.artifacts))
      && (parent in s.tasks && src.port in outs[src.node] ==>
        outs[src.node][src.port] == s.artifacts[s.tasks[parent].outputs[src.port]])
  {
    assert s.runs[k.run].plan.wf.edges[i].src.node in Parents(s.runs[k.run].plan.wf, k.node);
  }

  /** A request builds exactly when every edge into the node finds its port in what the parent recorded. */
  lemma RequestBuildsIff(s: State, k: TaskKey)
    requires Sound(s) && k.run in s.runs
    ensures RequestBuilds(s, k) <==>
      forall i :: 0 <= i < |s.runs[k.run].plan.wf.edges| && s.runs[k.run].plan.wf.edges[i].dst.node == k.node ==>
        var src := s.runs[k.run].plan.wf.edges[i].src;
        TaskKey(k.run, src.node) in s.tasks && src.port in s.tasks[TaskKey(k.run, src.node)].outputs
  {
    hide Sound, ParentOutputs, Resolve;
    SoundResolves(s);
    var edges := s.runs[k.run].plan.wf.edges;
    forall i | 0 <= i < |edges| && edges[i].dst.node == k.node
      ensures var src := edges[i].src;
        (src.node in ParentOutputs(s, k) && src.port in ParentOutputs(s, k)[src.node])
        <==> (TaskKey(k.run, src.node) in s.tasks && src.port in s.tasks[TaskKey(k.run, src.node)].outputs)
    {
      EdgeSees(s, k, i);
    }
  }

  lemma SoundResolves(s: State)
    requires Sound(s)
    ensures forall k {:trigger s.tasks[k]} :: k in s.tasks ==> Resolves(s.artifacts, s.tasks[k].outputs)
  {
  }

  /** What a request carries: on each port the artifact that the parent of the last edge into it recorded; without an
    * edge, the artifact of the last supplied input that names it; without either, nothing. */
  lemma RequestReads(s: State, k: TaskKey, port: Name)
    requires k.run in s.runs && RequestBuilds(s, k)
    ensures var wf := s.runs[k.run].plan.wf;
      port in RequestOf(s, k) <==>
        || (exists i :: 0 <= i < |wf.edges| && Feeds(wf.edges[i], k.node, port))
        || (exists i :: 0 <= i < |wf.inputs| && Supplies(wf.inputs[i], k.node, port, Given(s, k.run)))
    ensures forall i :: LastEdge(s.runs[k.run].plan.wf.edges, i, k.node, port) ==>
      var src := s.runs[k.run].plan.wf.edges[i].src;
      && TaskKey(k.run, src.node) in s.tasks && src.port in s.tasks[TaskKey(k.run, src.node)].outputs
      && s.tasks[TaskKey(k.run, src.node)].outputs[src.port] in s.artifacts
      && port in RequestOf(s, k)
      && RequestOf(s, k)[port] == s.artifacts[s.tasks[TaskKey(k.run, src.node)].outputs[src.port]]
    ensures forall i :: LastInput(s, k, i, port) ==>
      var name := s.runs[k.run].plan.wf.inputs[i].name;
      && name in s.runs[k.run].inputs && s.runs[k.run].inputs[name] in s.artifacts && port in RequestOf(s, k)
      && RequestOf(s, k)[port] == s.artifacts[s.runs[k.run].inputs[name]]
  {
    hide ParentOutputs, FromEdges, FromInputs;
    var wf, outs, given := s.runs[k.run].plan.wf, ParentOutputs(s, k), Given(s, k.run);
    var base := FromInputs(wf.inputs, k.node, given);
    if exists i :: 0 <= i < |wf.edges| && Feeds(wf.edges[i], k.node, port) {
      var j := LastEdgeWins(wf.edges, k.node, base, outs, port);
      EdgeSees(s, k, j);
      forall i | LastEdge(wf.edges, i, k.node, port) ensures i == j { }
    } else {
      EdgesLeave(wf.edges, k.node, base, outs, port);
      if exists i :: 0 <= i < |wf.inputs| && Supplies(wf.inputs[i], k.node, port, given) {
        var j := LastInputWins(wf.inputs, k.node, given, port);
        forall i | LastInput(s, k, i, port) ensures i == j { }
      } else {
        InputsLeave(wf.inputs, k.node, given, port);
      }
    }
  }

  ghost predicate LastEdge(edges: seq<Edge>, i: int, n: Name, port: Name) {
    && 0 <= i < |edges| && edges[i].dst.node == n && edges[i].dst.port == port
    && forall j :: i < j < |edges| && edges[j].dst.node == n ==> edges[j].dst.port != port
  }

  /** No edge feeds the port, and this is the last input naming it that was supplied with an artifact. */
  ghost predicate LastInput(s: State, k: TaskKey, i: int, port: Name)
    requires k.run in s.runs
  {
    var wf, given := s.runs[k.run].plan.wf, s.runs[k.run].inputs;
    && (forall j :: 0 <= j < |wf.edges| ==> wf.edges[j].dst.node != k.node || wf.edges[j].dst.port != port)
    && 0 <= i < |wf.inputs| && wf.inputs[i].node == k.node && wf.inputs[i].port == port
    && wf.inputs[i].name in given && given[wf.inputs[i].name] in s.artifacts
    && forall j :: i < j < |wf.inputs| && wf.inputs[j].node == k.node && wf.inputs[j].port == port ==>
      wf.inputs[j].name !in given || given[wf.inputs[j].name] !in s.artifacts
  }

  lemma FromEdgesSplit(edges: seq<Edge>, i: nat, n: Name, base: Values, outs: map<Name, Values>)
    requires i <= |edges|
    ensures i == 0 ==> FromEdges(edges[..i], n, base, outs) == base
    ensures i < |edges| ==> var e, rest := edges[i], FromEdges(edges[..i], n, base, outs);
      FromEdges(edges[..i + 1], n, base, outs) == if e.dst.node == n && e.src.node in outs
        && e.src.port in outs[e.src.node]
        then rest[e.dst.port := outs[e.src.node][e.src.port]]
        else rest
  {
    if i < |edges| { assert edges[..i + 1][..i] == edges[..i]; }
  }

  lemma NoRows(artifacts: map<ArtifactId, Value>, ak: AttemptKey)
    ensures artifacts == artifacts + OutputRows(ak, map[]) && OutputIds(ak, map[]) == map[]
  {
  }

  lemma OneMoreRow(artifacts: map<ArtifactId, Value>, ak: AttemptKey, done: Values, port: Name, value: Value)
    ensures artifacts + OutputRows(ak, done[port := value]) ==
      (artifacts + OutputRows(ak, done))[OutputArtifact(ak, port) := value]
    ensures OutputIds(ak, done[port := value]) == OutputIds(ak, done)[port := OutputArtifact(ak, port)]
  {
    RowsAreOutputs(ak, done);
    RowsAreOutputs(ak, done[port := value]);
  }

  lemma RowsAreOutputs(ak: AttemptKey, outputs: Values)
    ensures forall id :: id in OutputRows(ak, outputs) <==> id.OutputArtifact? && id.attempt == ak && id.port in outputs
  {
    forall p | p in outputs ensures OutputArtifact(ak, p) in OutputIds(ak, outputs).Values {
      assert OutputIds(ak, outputs)[p] == OutputArtifact(ak, p);
    }
  }

  lemma CompleteKeepsSound(s: State, lease: Lease, outputs: Values)
    requires Sound(s)
    ensures Sound(Complete(s, lease, outputs))
  {
    hide Sound, Complete;
    StepKeepsSound(s, DoComplete(lease, outputs));
  }

  lemma TaskHasNode(s: State, k: TaskKey)
    requires Sound(s) && k in s.tasks
    ensures k.run in s.runs && k.node in s.runs[k.run].plan.ops
  {
  }

  lemma CancelEventsGrow(order: seq<AttemptKey>, ak: AttemptKey)
    ensures CancelEvents(order + [ak]) == CancelEvents(order) + [Event(CancelAsked, ak.task, Some(ak.number))]
  {
  }

  lemma CancelOfEnded(s: State, r: nat, order: seq<AttemptKey>)
    ensures r !in s.runs || s.runs[r].state !in {Queued, RunRunning} ==> Store.CancelRun(s, r, order) == s
    ensures r in s.runs ==> (RunOpen(s.runs[r].state) <==> s.runs[r].state in {Queued, RunRunning})
  {
  }

  /** What a cancellation writes, row by row. */
  lemma CancelWrites(s: State, r: nat, order: seq<AttemptKey>)
    requires r in s.runs && RunOpen(s.runs[r].state)
    ensures var s' := Store.CancelRun(s, r, order);
      && s' == s.(tasks := s'.tasks, attempts := s'.attempts, runs := s.runs[r := s.runs[r].(state := RunCanceled)],
            events := s.events + CancelEvents(order))
      && s'.tasks == (map k | k in s.tasks :: if k.run == r then CancelTask(s.tasks[k]) else s.tasks[k])
      && s'.attempts == (map ak | ak in s.attempts ::
           if ak.task.run == r then CancelAttempt(s.attempts[ak]) else s.attempts[ak])
      && |s'.events| == |s.events| + |order|
      && (forall i :: 0 <= i < |order| ==>
           s'.events[|s.events| + i] == Event(CancelAsked, order[i].task, Some(order[i].number)))
      && s'.tasks.Keys == s.tasks.Keys && s'.attempts.Keys == s.attempts.Keys
      && (forall k :: k in s.tasks ==>
           s'.tasks[k] ==
           if k.run == r && s.tasks[k].state in {Pending, Running}
             then s.tasks[k].(state := Canceled, hold := None)
             else s.tasks[k])
      && (forall ak :: ak in s.attempts ==>
           s'.attempts[ak] ==
           if ak.task.run == r
             && s.attempts[ak].state in {Leased, Submitted, TargetRunning, Collecting, CancelRequested}
             then s.attempts[ak].(state := CancelRequested,
               hold := if s.attempts[ak].handle.Some? then None else s.attempts[ak].hold)
             else s.attempts[ak])
  {
    forall k | k in s.tasks
      ensures CancelTask(s.tasks[k]) == if s.tasks[k].state in {Pending, Running}
        then s.tasks[k].(state := Canceled, hold := None)
        else s.tasks[k]
    {
    }
  }

  lemma CancelKeepsSound(s: State, r: nat, order: seq<AttemptKey>)
    requires Sound(s) && ListsCancellable(s, r, order)
    ensures Sound(Store.CancelRun(s, r, order))
  {
    hide Sound, Store.CancelRun, ListsCancellable;
    StepKeepsSound(s, DoCancelRun(r, order));
  }

  lemma RetryEventsGrow(r: nat, nodes: seq<Name>, n: Name)
    ensures RetryEvents(r, nodes + [n]) == RetryEvents(r, nodes) + [Event(RetryAsked, TaskKey(r, n), None)]
  {
  }

  /** What a retry writes, row by row. */
  lemma RetryWrites(s: State, r: nat, n: Name)
    requires r in s.runs && TaskKey(r, n) in s.tasks
    ensures var s' := Store.RetryTask(s, r, n);
      && s'.runs == s.runs[r := s.runs[r].(state := Queued, outputs := map[])]
      && s'.tasks.Keys == s.tasks.Keys && s'.attempts == s.attempts
      && (forall k :: k in s.tasks ==>
           s'.tasks[k] == if k.run == r && k.node in Downstream(s.runs[r].plan.wf, n)
             then s.tasks[k].(state := Pending, hold := None, outputs := map[])
             else s.tasks[k])
  {
    hide Downstream, Sorted, RetryEvents;
  }

  lemma RetryKeepsSound(s: State, r: nat, n: Name)
    requires Sound(s)
    ensures RetryLawful(s, r, n) ==> Sound(Store.RetryTask(s, r, n))
  {
    hide Sound, Store.RetryTask, RetryLawful;
    if RetryLawful(s, r, n) {
      StepKeepsSound(s, DoRetryTask(r, n));
    }
  }

  lemma TaskPlanned(s: State, k: TaskKey)
    requires Sound(s) && k in s.tasks
    ensures k.run in s.runs && Accepted(s.runs[k.run].plan) && k.node in NodeIds(s.runs[k.run].plan.wf)
  {
    hide ContractHolds, PortsHold;
  }

  /** The fixpoint loop of `retry_task`: it stops because each round adds a node of the workflow. */
  method Descendants(wf: Workflow, n: Name) returns (descendants: set<Name>)
    requires ContractHolds(wf) && n in NodeIds(wf)
    ensures descendants == Downstream(wf, n)
  {
    hide ContractHolds, Downstream, NodeIds;
    DownstreamCloses(wf, n);
    DownstreamInside(wf, n);
    descendants := {n};
    var changed := true;
    while changed
      invariant n in descendants && descendants <= Downstream(wf, n)
      invariant !changed ==> ClosedUnderEdges(wf, descendants)
      decreases |NodeIds(wf) - descendants|, changed
    {
      changed := false;
      ghost var before := descendants;
      for i := 0 to |wf.edges|
        invariant before <= descendants <= Downstream(wf, n) && (changed <==> before != descendants)
        invariant !changed ==>
          forall j :: 0 <= j < i && wf.edges[j].src.node in descendants ==> wf.edges[j].dst.node in descendants
      {
        if wf.edges[i].src.node in descendants && wf.edges[i].dst.node !in descendants {
          descendants := descendants + {wf.edges[i].dst.node};
          changed := true;
        }
      }
      if changed {
        FewerLeft(NodeIds(wf), before, descendants);
      }
    }
    DownstreamIsLeast(wf, n, descendants);
  }

  lemma DownstreamInside(wf: Workflow, n: Name)
    ensures Downstream(wf, n) <= NodeIds(wf)
  {
  }

  lemma FewerLeft(all: set<Name>, before: set<Name>, after: set<Name>)
    requires before < after <= all
    ensures |all - after| < |all - before|
  {
    var m :| m in after && m !in before;
    assert all - after <= (all - before) - {m};
    SubsetSize(all - after, (all - before) - {m});
  }

  lemma NothingAsked()
    ensures CancelEvents([]) == []
  {
  }

  lemma UnmarkedStay(attempts: map<AttemptKey, Attempt>)
    ensures forall ak :: ak in attempts && !Cancellable(attempts[ak]) ==> CancelAttempt(attempts[ak]) == attempts[ak]
  {
  }

  lemma StoredAreAccepted(s: State, id: nat)
    requires Sound(s)
    ensures id in s.plans ==> Accepted(s.plans[id])
  {
  }

  lemma RegisterKeepsSound(s: State, id: nat, plan: Plan)
    requires Sound(s) && Accepted(plan)
    ensures Sound(Register(s, id, plan))
  {
    hide Sound, Accepted, Register;
    StepKeepsSound(s, DoRegister(id, plan));
  }

  lemma AddInputKeepsSound(s: State, id: nat, value: Value)
    requires Sound(s)
    ensures Sound(AddInput(s, id, value))
  {
    hide Sound, AddInput;
    StepKeepsSound(s, DoAddInput(id, value));
  }

  lemma SubmitKeepsSound(s: State, run: nat, id: nat, inputs: Outputs, target: Name, class_: Name, createdAt: int)
    requires Sound(s) && run !in s.runs && id in s.plans && Accepted(s.plans[id])
    ensures Sound(Submit(s, run, id, inputs, target, class_, createdAt))
  {
    hide Sound, Accepted, Submit;
    StepKeepsSound(s, DoSubmit(run, id, inputs, target, class_, createdAt));
  }

  ghost predicate InputFits(s: State, item: WorkflowInput, inputs: Outputs) {
    && (item.required ==> item.name in inputs)
    && (item.name in inputs ==> inputs[item.name] in s.artifacts && s.artifacts[inputs[item.name]].atype == item.atype)
  }

  ghost predicate InputsMatch(s: State, plan: Plan, inputs: Outputs) {
    && (forall name :: name in inputs ==> exists i :: 0 <= i < |plan.wf.inputs| && plan.wf.inputs[i].name == name)
    && (forall i :: 0 <= i < |plan.wf.inputs| ==> InputFits(s, plan.wf.inputs[i], inputs))
  }

  lemma SubmittableParts(s: State, plan: Plan, inputs: Outputs, target: Name)
    ensures Submittable(s, plan, inputs, target) <==>
      InputsMatch(s, plan, inputs)
        && forall n :: n in plan.ops ==> TargetOf(plan.wf.nodes, n, target) in plan.ops[n].targets
  {
    hide TargetOf;
    if Submittable(s, plan, inputs, target) {
      forall i | 0 <= i < |plan.wf.inputs| ensures InputFits(s, plan.wf.inputs[i], inputs) { }
    }
    if InputsMatch(s, plan, inputs) {
      forall i | 0 <= i < |plan.wf.inputs| ensures InputFits(s, plan.wf.inputs[i], inputs) { }
    }
  }

  lemma {:induction false} TargetFound(nodes: seq<Workflows.Node>, i: nat, default: Name)
    requires i < |nodes| && forall j, k :: 0 <= j < k < |nodes| ==> nodes[j].id != nodes[k].id
    ensures TargetOf(nodes, nodes[i].id, default) == if nodes[i].target.Some? then nodes[i].target.value else default
  {
    if i > 0 {
      TargetFound(nodes[1..], i - 1, default);
      assert nodes[0].id != nodes[i].id;
    }
  }

  /** A node's own execution class comes before the default. */
  lemma {:induction false} ClassFound(nodes: seq<Workflows.Node>, i: nat, default: Name)
    requires i < |nodes| && forall j, k :: 0 <= j < k < |nodes| ==> nodes[j].id != nodes[k].id
    ensures ClassOf(nodes, nodes[i].id, default) == if nodes[i].class_.Some? then nodes[i].class_.value else default
  {
    if i > 0 {
      ClassFound(nodes[1..], i - 1, default);
      assert nodes[0].id != nodes[i].id;
    }
  }

  /** What a submission asks, said of the document. */
  lemma SubmittableRaw(s: State, plan: Plan, inputs: Outputs, target: Name)
    requires Accepted(plan)
    ensures Submittable(s, plan, inputs, target) <==>
      && (forall name :: name in inputs ==> exists i :: 0 <= i < |plan.wf.inputs| && plan.wf.inputs[i].name == name)
      && (forall i :: 0 <= i < |plan.wf.inputs| && plan.wf.inputs[i].required ==> plan.wf.inputs[i].name in inputs)
      && (forall i :: 0 <= i < |plan.wf.inputs| && plan.wf.inputs[i].name in inputs ==>
            inputs[plan.wf.inputs[i].name] in s.artifacts
              && s.artifacts[inputs[plan.wf.inputs[i].name]].atype == plan.wf.inputs[i].atype)
      && (forall i :: 0 <= i < |plan.wf.nodes| ==>
            && plan.wf.nodes[i].id in plan.ops
            && (if plan.wf.nodes[i].target.Some? then plan.wf.nodes[i].target.value else target)
              in plan.ops[plan.wf.nodes[i].id].targets)
  {
    hide TargetOf, Accepted;
    TargetsRaw(plan, target);
  }

  lemma TargetsRaw(plan: Plan, target: Name)
    requires Accepted(plan)
    ensures (forall n :: n in plan.ops ==> TargetOf(plan.wf.nodes, n, target) in plan.ops[n].targets) <==>
      (forall i :: 0 <= i < |plan.wf.nodes| ==>
        && plan.wf.nodes[i].id in plan.ops
        && (if plan.wf.nodes[i].target.Some? then plan.wf.nodes[i].target.value else target)
          in plan.ops[plan.wf.nodes[i].id].targets)
  {
    hide TargetOf, PortsHold, ParametersHold, Graph.Acyclic, IsDocument;
    forall i | 0 <= i < |plan.wf.nodes|
      ensures plan.wf.nodes[i].id in plan.ops
      ensures TargetOf(plan.wf.nodes, plan.wf.nodes[i].id, target) ==
        if plan.wf.nodes[i].target.Some? then plan.wf.nodes[i].target.value else target
    {
      TargetFound(plan.wf.nodes, i, target);
      assert plan.wf.nodes[i].id in NodeIds(plan.wf);
    }
    forall n | n in plan.ops ensures exists i :: 0 <= i < |plan.wf.nodes| && plan.wf.nodes[i].id == n {
      assert n in NodeIds(plan.wf);
    }
  }

  /** What a submission writes: the task of each node, and no other. */
  lemma SubmitWrites(s: State, run: nat, id: nat, inputs: Outputs, target: Name, class_: Name, createdAt: int)
    requires Sound(s) && run !in s.runs && id in s.plans && Accepted(s.plans[id])
    ensures Submittable(s, s.plans[id], inputs, target) ==>
      var s', plan := Submit(s, run, id, inputs, target, class_, createdAt), s.plans[id];
      && (forall i :: 0 <= i < |plan.wf.nodes| ==>
            var node, k := plan.wf.nodes[i], TaskKey(run, plan.wf.nodes[i].id);
            && k in s'.tasks && s'.tasks[k].state == Pending && s'.tasks[k].attempt == 0 && s'.tasks[k].hold.None?
            && s'.tasks[k].outputs == map[]
            && s'.tasks[k].target == (if node.target.Some? then node.target.value else target)
            && s'.tasks[k].class_ == (if node.class_.Some? then node.class_.value else class_))
      && (forall k :: k in s.tasks ==> k in s'.tasks && s'.tasks[k] == s.tasks[k])
      && (forall k :: k in s'.tasks && k !in s.tasks ==>
            k.run == run && exists i :: 0 <= i < |plan.wf.nodes| && plan.wf.nodes[i].id == k.node)
  {
    hide Sound, Accepted, Submittable, Submit, NewTasks;
    if Submittable(s, s.plans[id], inputs, target) {
      SubmittedKeys(s, run, id, inputs, target, class_, createdAt);
      var s', plan := Submit(s, run, id, inputs, target, class_, createdAt), s.plans[id];
      forall i | 0 <= i < |plan.wf.nodes|
        ensures var node, k := plan.wf.nodes[i], TaskKey(run, plan.wf.nodes[i].id);
          && k in s'.tasks && s'.tasks[k].state == Pending && s'.tasks[k].attempt == 0 && s'.tasks[k].hold.None?
          && s'.tasks[k].outputs == map[]
          && s'.tasks[k].target == (if node.target.Some? then node.target.value else target)
          && s'.tasks[k].class_ == (if node.class_.Some? then node.class_.value else class_)
      {
        NodeRowIs(run, plan, target, class_, i);
      }
    }
  }

  /** The rows of a new run are numbered along its edges. */
  lemma SubmitOrders(s: State, run: nat, id: nat, inputs: Outputs, target: Name, class_: Name, createdAt: int)
    requires Sound(s) && run !in s.runs && id in s.plans && Accepted(s.plans[id])
    ensures Submittable(s, s.plans[id], inputs, target) ==>
      var s', plan := Submit(s, run, id, inputs, target, class_, createdAt), s.plans[id];
      forall e :: 0 <= e < |plan.wf.edges| ==>
        var k, l := TaskKey(run, plan.wf.edges[e].src.node), TaskKey(run, plan.wf.edges[e].dst.node);
        k in s'.tasks && l in s'.tasks && s'.tasks[k].sequence < s'.tasks[l].sequence
  {
    hide Sound, Accepted, Submittable, Submit, NewTasks;
    if Submittable(s, s.plans[id], inputs, target) {
      SubmittedKeys(s, run, id, inputs, target, class_, createdAt);
      var s', plan := Submit(s, run, id, inputs, target, class_, createdAt), s.plans[id];
      forall e | 0 <= e < |plan.wf.edges|
        ensures var k, l := TaskKey(run, plan.wf.edges[e].src.node), TaskKey(run, plan.wf.edges[e].dst.node);
          k in s'.tasks && l in s'.tasks && s'.tasks[k].sequence < s'.tasks[l].sequence
      {
        EdgeRowsAre(run, plan, target, class_, e);
      }
    }
  }

  ghost predicate NodeRow(run: nat, plan: Plan, target: Name, class_: Name, i: int)
    requires Accepted(plan) && 0 <= i < |plan.wf.nodes|
  {
    var tasks, node, k := NewTasks(run, plan, target, class_), plan.wf.nodes[i], TaskKey(run, plan.wf.nodes[i].id);
    && k in tasks && tasks[k].state == Pending && tasks[k].attempt == 0 && tasks[k].hold.None?
    && tasks[k].outputs == map[]
    && tasks[k].target == (if node.target.Some? then node.target.value else target)
    && tasks[k].class_ == (if node.class_.Some? then node.class_.value else class_)
  }

  ghost predicate EdgeRows(run: nat, plan: Plan, target: Name, class_: Name, e: int)
    requires Accepted(plan) && 0 <= e < |plan.wf.edges|
  {
    var tasks := NewTasks(run, plan, target, class_);
    var k, l := TaskKey(run, plan.wf.edges[e].src.node), TaskKey(run, plan.wf.edges[e].dst.node);
    k in tasks && l in tasks && tasks[k].sequence < tasks[l].sequence
  }

  lemma NodeRowIs(run: nat, plan: Plan, target: Name, class_: Name, i: nat)
    requires Accepted(plan) && i < |plan.wf.nodes|
    ensures NodeRow(run, plan, target, class_, i)
  {
    AcceptedContract(plan);
    hide Accepted, TargetOf, ClassOf, Rank;
    TargetFound(plan.wf.nodes, i, target);
    ClassFound(plan.wf.nodes, i, class_);
    assert plan.wf.nodes[i].id in NodeIds(plan.wf);
  }

  lemma EdgeRowsAre(run: nat, plan: Plan, target: Name, class_: Name, e: nat)
    requires Accepted(plan) && e < |plan.wf.edges|
    ensures EdgeRows(run, plan, target, class_, e)
  {
    AcceptedContract(plan);
    hide Accepted, TargetOf, ClassOf, Rank;
    assert EdgeLawful(plan.wf.edges[e], NodeIds(plan.wf));
    assert plan.wf.edges[e].src.node in Parents(plan.wf, plan.wf.edges[e].dst.node);
    ParentRanksLower(plan.wf, plan.wf.edges[e].dst.node, plan.wf.edges[e].src.node);
  }

  /** A submission adds the new rows under a run that had none. */
  lemma SubmittedKeys(s: State, run: nat, id: nat, inputs: Outputs, target: Name, class_: Name, createdAt: int)
    requires Sound(s) && run !in s.runs && id in s.plans && Accepted(s.plans[id])
    requires Submittable(s, s.plans[id], inputs, target)
    ensures var s', plan := Submit(s, run, id, inputs, target, class_, createdAt), s.plans[id];
      var rows := NewTasks(run, plan, target, class_);
      && s'.tasks == s.tasks + rows && (forall k :: k in s.tasks ==> k !in rows)
      && forall k :: k in rows ==> k.run == run && exists i :: 0 <= i < |plan.wf.nodes| && plan.wf.nodes[i].id == k.node
  {
    AcceptedContract(s.plans[id]);
    SoundLinks(s);
    hide Sound, Accepted, Submittable, NewTasks, ContractHolds;
    forall k | k in NewTasks(run, s.plans[id], target, class_)
      ensures exists i :: 0 <= i < |s.plans[id].wf.nodes| && s.plans[id].wf.nodes[i].id == k.node
    {
      assert k.node in NodeIds(s.plans[id].wf);
    }
  }

  lemma AcceptedContract(plan: Plan)
    requires Accepted(plan)
    ensures ContractHolds(plan.wf) && plan.ops.Keys == NodeIds(plan.wf)
  {
  }

  lemma OrderListsNodes(plan: Plan)
    requires ContractHolds(plan.wf) && plan.ops.Keys == NodeIds(plan.wf)
    ensures forall n :: n in Order(plan.wf) <==> n in plan.ops
  {
    Graph.LeastOrderIsTopological(NodeIds(plan.wf), Links(plan.wf));
  }

  /** The sequence number a task gets is the node's place in the order. */
  lemma RankIsPlace(plan: Plan, i: nat)
    requires ContractHolds(plan.wf) && plan.ops.Keys == NodeIds(plan.wf) && i < |Order(plan.wf)|
    ensures Order(plan.wf)[i] in plan.ops && Order(plan.wf)[i] in NodeIds(plan.wf)
      && Rank(plan.wf, Order(plan.wf)[i]) == i
  {
    hide ContractHolds;
    OrderListsNodes(plan);
    AcceptedOrder(plan.wf);
    assert Order(plan.wf)[i] in Order(plan.wf);
  }

  lemma AcceptedOrder(wf: Workflow)
    requires ContractHolds(wf)
    ensures forall i, j :: 0 <= i < j < |Order(wf)| ==> Order(wf)[i] != Order(wf)[j]
  {
    Graph.LeastOrderIsTopological(NodeIds(wf), Links(wf));
  }

  ghost predicate TasksPlanned(s: State) {
    forall k {:trigger k in s.tasks} :: k in s.tasks ==> k.run in s.runs && k.node in s.runs[k.run].plan.ops
  }

  lemma SoundPlanned(s: State)
    requires Sound(s)
    ensures TasksPlanned(s)
  {
  }

  /** The store after a lease was executed: completed with what the runner returned, or failed. */
  ghost function Executed(s: State, lease: Lease, execute: Executor): State
    requires TasksPlanned(s) && lease.attempt.task in s.tasks
  {
    var k := lease.attempt.task;
    if !Holds(s, lease) || !RequestBuilds(s, k) then Fail(s, lease) else
    var result := execute(InvocationOf(s.runs[k.run].plan, k.node), RequestOf(s, k));
    if result.Some? && (Completes(s, lease, result.value) || s.tasks[k].state == Succeeded)
      then Complete(s, lease, result.value)
      else Fail(s, lease)
  }

  /** A task whose lease closes it ends: succeeded exactly when request, runner and completion raise nothing. */
  lemma ExecutionEnds(s: State, lease: Lease, execute: Executor)
    requires TasksPlanned(s) && lease.attempt.task in s.tasks
    ensures Closes(s, lease) ==> var s', k := Executed(s, lease, execute), lease.attempt.task;
      && k in s'.tasks && s'.tasks[k].state in {Succeeded, Failed}
      && (s'.tasks[k].state == Succeeded <==>
            Holds(s, lease) && RequestBuilds(s, k)
              && var result := execute(InvocationOf(s.runs[k.run].plan, k.node), RequestOf(s, k));
                 result.Some? && Completes(s, lease, result.value))
  {
    hide RequestBuilds, RequestOf, OutputsMatch, RunOutputs, RunOutputsRaise, AllSucceeded, OutputRows, OutputIds;
  }

  lemma ClaimedTask(s: State, s': State, lease: Option<Lease>, worker: Name, now: int, seconds: int,
      targets: Option<set<Name>>, classes: Option<set<Name>>)
    requires Claimed(s, s', lease, worker, now, seconds, targets, classes) && lease.Some?
    ensures lease.value.attempt.task in s'.tasks
  {
  }

  lemma NotCompleting(s: State, lease: Lease, outputs: Values)
    ensures !Completes(s, lease, outputs) ==> Complete(s, lease, outputs) == s
  {
  }

  /** What a completion that raises nothing writes. */
  lemma CompletingWrites(s: State, lease: Lease, outputs: Values)
    requires Completes(s, lease, outputs)
    ensures var ak, k, ids, rows := lease.attempt, lease.attempt.task, OutputIds(lease.attempt, outputs),
      TasksAfterCompletion(s, lease, outputs);
      Complete(s, lease, outputs) ==
        s.(artifacts := s.artifacts + OutputRows(ak, outputs), tasks := rows,
          runs := FinishRun(s.(tasks := rows), k.run).runs,
        attempts := s.attempts[ak := s.attempts[ak].(state := AttemptSucceeded, outputs := ids, hold := None)],
          events := s.events + [Event(TaskSucceeded, k, Some(ak.number))])
  {
    hide OutputIds, OutputRows, RunOutputs, RunOutputsRaise, AllSucceeded, OutputsMatch;
  }

  /** When a completion raises nothing: the task runs under the lease's token, every required output is there, nothing
    * is undeclared or of another type, and if it is the last task to succeed, every output of the run was produced. */
  lemma CompletesIff(s: State, lease: Lease, outputs: Values)
    ensures var ak, k := lease.attempt, lease.attempt.task;
      Completes(s, lease, outputs) <==>
        && k in s.tasks && k.run in s.runs && ak in s.attempts && k.node in s.runs[k.run].plan.ops
        && s.tasks[k].state == Running && s.tasks[k].hold.Some? && s.tasks[k].hold.value.token == lease.token
        && s.attempts[ak].hold.Some? && s.attempts[ak].hold.value.token == lease.token
        && var plan := s.runs[k.run].plan; var declared := plan.ops[k.node].outputs;
           && (forall p :: p in declared && declared[p].required ==> p in outputs)
           && (forall p :: p in outputs ==> p in declared && outputs[p].atype == declared[p].atype)
           && (LastOf(s, k) ==> forall i :: 0 <= i < |plan.wf.outputs| ==>
                 var j := TaskKey(k.run, plan.wf.outputs[i].node);
                 if j == k then plan.wf.outputs[i].port in outputs
                 else j in s.tasks && plan.wf.outputs[i].port in s.tasks[j].outputs)
  {
    if lease.attempt.task in s.tasks {
      LastSucceeds(s, lease, outputs);
    }
  }

  /** Every other task of its run has succeeded. */
  ghost predicate LastOf(s: State, k: TaskKey) {
    forall j :: j in s.tasks && j.run == k.run && j != k ==> s.tasks[j].state == Succeeded
  }

  lemma LastSucceeds(s: State, lease: Lease, outputs: Values)
    requires lease.attempt.task in s.tasks
    ensures AllSucceeded(TasksAfterCompletion(s, lease, outputs), lease.attempt.task.run) <==>
      LastOf(s, lease.attempt.task)
  {
    var rows := TasksAfterCompletion(s, lease, outputs);
    assert lease.attempt.task in rows;
  }

  /** What a completion writes, row by row. */
  lemma CompletionWrites(s: State, lease: Lease, outputs: Values)
    requires Completes(s, lease, outputs)
    ensures var ak, k, s' := lease.attempt, lease.attempt.task, Complete(s, lease, outputs);
      && k in s'.tasks && s'.tasks[k].outputs.Keys == outputs.Keys
      && s'.tasks == s.tasks[k := s.tasks[k].(state := Succeeded, outputs := s'.tasks[k].outputs, hold := None)]
      && s'.attempts == s.attempts[ak := s.attempts[ak].(state := AttemptSucceeded, outputs := s'.tasks[k].outputs,
           hold := None)]
      && s'.events == s.events + [Event(TaskSucceeded, k, Some(ak.number))]
      && s'.plans == s.plans && s'.nextToken == s.nextToken
    ensures forall p :: p in outputs ==>
      Complete(s, lease, outputs).tasks[lease.attempt.task].outputs[p] == OutputArtifact(lease.attempt, p)
    ensures forall id :: id in Complete(s, lease, outputs).artifacts <==>
      id in s.artifacts || (id.OutputArtifact? && id.attempt == lease.attempt && id.port in outputs)
    ensures forall id :: id in Complete(s, lease, outputs).artifacts ==>
      Complete(s, lease, outputs).artifacts[id] ==
        if id.OutputArtifact? && id.attempt == lease.attempt && id.port in outputs
          then outputs[id.port]
          else s.artifacts[id]
  {
    CompletingWrites(s, lease, outputs);
    RowsAreOutputs(lease.attempt, outputs);
    hide Complete, AllSucceeded, FinishRun, RunOutputsRaise, OutputsMatch;
  }

  /** When the last task has succeeded the run has, and each of its named outputs is what the last entry of that name
    * maps it to; otherwise the run is left alone. */
  lemma CompletionEndsRun(s: State, lease: Lease, outputs: Values)
    requires Completes(s, lease, outputs)
    ensures var k, s' := lease.attempt.task, Complete(s, lease, outputs);
      && k.run in s'.runs
      && (!LastOf(s, k) ==> s'.runs == s.runs)
      && (LastOf(s, k) ==>
        && s'.runs == s.runs[k.run := s.runs[k.run].(state := RunSucceeded, outputs := s'.runs[k.run].outputs)]
        && var outs := s.runs[k.run].plan.wf.outputs;
           && (forall name :: name in s'.runs[k.run].outputs ==> exists i :: 0 <= i < |outs| && outs[i].name == name)
           && forall i :: 0 <= i < |outs| && (forall j :: i < j < |outs| ==> outs[j].name != outs[i].name) ==>
             && TaskKey(k.run, outs[i].node) in s'.tasks
             && outs[i].port in s'.tasks[TaskKey(k.run, outs[i].node)].outputs
             && outs[i].name in s'.runs[k.run].outputs
             && s'.runs[k.run].outputs[outs[i].name] == s'.tasks[TaskKey(k.run, outs[i].node)].outputs[outs[i].port])
  {
    hide AllSucceeded, RunOutputs, Complete, OutputsMatch, OutputIds, OutputRows, LastOf;
    CompletingWrites(s, lease, outputs);
    LastSucceeds(s, lease, outputs);
    var k, rows := lease.attempt.task, TasksAfterCompletion(s, lease, outputs);
    var runs := FinishRun(s.(tasks := rows), k.run).runs;
    if LastOf(s, k) {
      RunOutputsAre(s.runs[k.run].plan.wf.outputs, rows, k.run);
      assert runs[k.run].outputs == RunOutputs(s.runs[k.run].plan.wf.outputs, rows, k.run);
    } else {
      assert runs == s.runs;
    }
  }

  lemma {:induction false} RunOutputsAre(outs: seq<WorkflowOutput>, rows: map<TaskKey, Task>, r: nat)
    requires !RunOutputsRaise(outs, rows, r)
    ensures var found := RunOutputs(outs, rows, r);
      && (forall name :: name in found ==> exists i :: 0 <= i < |outs| && outs[i].name == name)
      && forall i :: 0 <= i < |outs| && (forall j :: i < j < |outs| ==> outs[j].name != outs[i].name) ==>
        && TaskKey(r, outs[i].node) in rows && outs[i].port in rows[TaskKey(r, outs[i].node)].outputs
        && outs[i].name in found && found[outs[i].name] == rows[TaskKey(r, outs[i].node)].outputs[outs[i].port]
  {
    forall name | name in RunOutputs(outs, rows, r) ensures exists i :: 0 <= i < |outs| && outs[i].name == name {
      var i := OutputNamed(outs, rows, r, name);
    }
    forall i | 0 <= i < |outs| && (forall j :: i < j < |outs| ==> outs[j].name != outs[i].name)
      ensures TaskKey(r, outs[i].node) in rows && outs[i].port in rows[TaskKey(r, outs[i].node)].outputs
        && outs[i].name in RunOutputs(outs, rows, r)
        && RunOutputs(outs, rows, r)[outs[i].name] == rows[TaskKey(r, outs[i].node)].outputs[outs[i].port]
    {
      LastNamedWins(outs, rows, r, i);
    }
  }

  lemma {:induction false} OutputNamed(outs: seq<WorkflowOutput>, rows: map<TaskKey, Task>, r: nat, name: Name)
      returns (i: nat)
    requires name in RunOutputs(outs, rows, r)
    ensures i < |outs| && outs[i].name == name
  {
    i := |outs| - 1;
    if outs[i].name != name {
      i := OutputNamed(outs[..i], rows, r, name);
    }
  }

  lemma {:induction false} LastNamedWins(outs: seq<WorkflowOutput>, rows: map<TaskKey, Task>, r: nat, i: nat)
    requires i < |outs| && TaskKey(r, outs[i].node) in rows && outs[i].port in rows[TaskKey(r, outs[i].node)].outputs
    requires forall j :: i < j < |outs| ==> outs[j].name != outs[i].name
    ensures outs[i].name in RunOutputs(outs, rows, r)
      && RunOutputs(outs, rows, r)[outs[i].name] == rows[TaskKey(r, outs[i].node)].outputs[outs[i].port]
  {
    if i < |outs| - 1 {
      LastNamedWins(outs[..|outs| - 1], rows, r, i);
    }
  }

  lemma IdsOfOutputs(ak: AttemptKey, outputs: Values)
    ensures OutputIds(ak, outputs).Keys == outputs.Keys
  {
  }

  lemma MatchingParts(outputs: Values, ports: map<Name, Port>)
    ensures OutputsMatch(outputs, ports) <==>
      (forall p :: p in ports && ports[p].required ==> p in outputs) && outputs.Keys <= ports.Keys
        && forall p :: p in outputs && p in ports ==> outputs[p].atype == ports[p].atype
  {
  }

  lemma TotalDelivers(execute: Executor, inv: Invocation, inputs: Values)
    requires Total(execute)
    ensures execute(inv, inputs).Some? && Delivers(execute(inv, inputs).value, inv.op.outputs)
  {
  }

  lemma SoundNumbers(s: State)
    requires Sound(s)
    ensures AttemptsNumbered(s) && TasksLinked(s)
  {
  }

  /** What is taken where nothing is held is completed. */
  lemma TakenIsExecuted(s: State, s': State, k: TaskKey, lease: Lease, execute: Executor)
    requires Sound(s) && LiveRuns(s) && NothingHeld(s) && Delivered(s) && Total(execute) && Taken(s, s', k, lease)
    requires TasksPlanned(s') && lease.attempt.task in s'.tasks
    ensures var done := Executed(s', lease, execute);
      && LiveRuns(done) && NothingHeld(done) && Delivered(done) && Carries(s, done)
      && k in Unfinished(s) && Unfinished(done) == Unfinished(s) - {k}
  {
    hide Sound, LiveRuns, NothingHeld, Delivered, Total, Taken, RequestBuilds, RequestOf, Completes, Complete, Fail,
      Delivers, Holds, Closes, TasksLinked, AttemptsNumbered, Carries, Unfinished;
    SoundNumbers(s);
    TakenFacts(s, s', k, lease);
    TakenCloses(s, s', k, lease);
    TakenRequestBuilds(s, s', k, lease);
    var inv, inputs := InvocationOf(s'.runs[k.run].plan, k.node), RequestOf(s', k);
    TotalDelivers(execute, inv, inputs);
    CompletionDoesOne(s, s', k, lease, execute(inv, inputs).value);
  }

  /** What a claim hands out is taken. */
  lemma ClaimTakes(s: State, s': State, lease: Lease, worker: Name, now: int, seconds: int)
    requires Sound(s) && LiveRuns(s) && Claimed(s, s', Some(lease), worker, now, seconds, None, None)
    ensures Taken(s, s', lease.attempt.task, lease)
  {
    hide Sound, LiveRuns, Claimable, Recoverable, ClaimFresh, ClaimRecovered, Taken, AttemptsNumbered, TasksLinked;
    SoundNumbers(s);
    if lease.recovered {
      RecoveryIsTaken(s, lease.attempt, worker, now + seconds);
    } else {
      FreshIsTaken(s, lease.attempt.task, worker, now, now + seconds);
    }
  }

  /** One round of `run_until_idle` after leases lapsed: one task done, or nothing left that could be. */
  lemma IdleRound(s: State, s': State, lease: Option<Lease>, rows: seq<TaskKey>, worker: Name, now: int, seconds: int,
      execute: Executor)
    requires Sound(s) && LiveRuns(s) && Delivered(s) && AllLapsed(s, now) && Total(execute) && TasksLinked(s)
    requires ListsExpired(s, now, rows) && Claimed(ResetRows(s, rows, now), s', lease, worker, now, seconds, None, None)
    ensures lease.None? ==>
      && LiveRuns(s') && NothingHeld(s') && Delivered(s') && Carries(s, s')
      && Unfinished(s') == Unfinished(s) && forall r :: !Healthy(s', r)
    ensures lease.Some? && TasksPlanned(s') && lease.value.attempt.task in s'.tasks ==>
      var done := Executed(s', lease.value, execute);
      && LiveRuns(done) && NothingHeld(done) && Delivered(done) && Carries(s, done)
      && |Unfinished(done)| == |Unfinished(s)| - 1
  {
    hide Sound, LiveRuns, NothingHeld, Delivered, AllLapsed, Total, Claimed, Executed, ResetRows, Unfinished, Healthy,
      ListsExpired, TasksPlanned, TasksLinked, Carries, Relaxes, Taken;
    var r := ResetRows(s, rows, now);
    ResetRelaxes(s, rows, now);
    ResetFrees(s, rows, now);
    RelaxedCarries(s, r);
    RelaxedUnfinished(s, r);
    RelaxedDelivered(s, r);
    if lease.None? {
      ClaimsNothing(r, s', worker, now, seconds);
      NothingLeft(r);
    } else {
      ClaimTakes(r, s', lease.value, worker, now, seconds);
      if TasksPlanned(s') && lease.value.attempt.task in s'.tasks {
        TakenIsExecuted(r, s', lease.value.attempt.task, lease.value, execute);
        CarriesTransitive(s, r, Executed(s', lease.value, execute));
      }
    }
  }

  lemma ClaimsNothing(s: State, s': State, worker: Name, now: int, seconds: int)
    requires Claimed(s, s', None, worker, now, seconds, None, None)
    ensures s' == s && (forall ak :: !RecoverableFor(s, ak, None, None))
      && (forall k :: !ClaimableFor(s, k, None, None))
  {
    hide RecoverableFor, ClaimableFor;
  }

  /** Why nothing canceled may be in flight: executing an attempt that was asked to cancel changes nothing, and once its
    * lease lapsed it is recovered again. */
  lemma CanceledIsServedAgain(s: State, lease: Lease, execute: Executor, now: int)
    requires Sound(s) && Holds(s, lease) && s.attempts[lease.attempt].state == CancelRequested
    requires s.attempts[lease.attempt].handle.Some? && HoldLapsed(s.attempts[lease.attempt].hold, now)
    ensures lease.attempt.task.run in s.runs && TasksPlanned(s) && Executed(s, lease, execute) == s
    ensures var s' := ExpireRow(s, lease.attempt.task, now);
      lease.attempt in s'.attempts && s'.attempts[lease.attempt].state == CancelRequested
        && Recoverable(s'.attempts[lease.attempt])
  {
    hide Sound, RequestBuilds, RequestOf, OutputsMatch, RunOutputsRaise, AllSucceeded;
    SoundPlanned(s);
    RequestedTask(s, lease.attempt);
  }

  lemma RequestedTask(s: State, ak: AttemptKey)
    requires Sound(s) && ak in s.attempts && s.attempts[ak].state == CancelRequested
    ensures ak.task in s.tasks && ak.task.run in s.runs && ak.task.node in s.runs[ak.task.run].plan.ops
    ensures ak == Current(s, ak.task) && s.tasks[ak.task].state == Canceled
  {
    hide Sound, Inv, TasksLinked, CancelSound, LiveIsCurrent, AttemptsNumbered;
    SoundInv(s);
    InvariantParts(s);
    RequestedRows(s, ak);
  }

  lemma SoundInv(s: State)
    requires Sound(s)
    ensures Inv(s)
  {
    hide Inv;
  }

  lemma InvariantParts(s: State)
    requires Inv(s)
    ensures TasksLinked(s) && AttemptsNumbered(s) && LiveIsCurrent(s) && CancelSound(s)
  {
    hide TasksLinked, AttemptsNumbered, LiveIsCurrent, CancelSound;
  }

  lemma RequestedRows(s: State, ak: AttemptKey)
    requires TasksLinked(s) && AttemptsNumbered(s) && LiveIsCurrent(s) && CancelSound(s)
    requires ak in s.attempts && s.attempts[ak].state == CancelRequested
    ensures ak.task in s.tasks && ak.task.run in s.runs && ak.task.node in s.runs[ak.task.run].plan.ops
    ensures ak == Current(s, ak.task) && s.tasks[ak.task].state == Canceled
  {
  }
}
