/** The event log is a faithful ledger of attempts. */
module Ledger {
  import opened Names
  import opened Workflows
  import opened Store
  import opened Invariant
  import opened RunControl
  import opened Protocol

  /** How many times task `k` was leased afresh, according to the log. */
  function Leases(events: seq<Event>, k: TaskKey): nat {
    if events == [] then 0 else
    var e := events[|events| - 1];
    Leases(events[..|events| - 1], k) + if e.kind == TaskLeased && e.task == k then 1 else 0
  }

  /** How many times the log says attempt `ak` ended with event `kind`. */
  function Ends(events: seq<Event>, ak: AttemptKey, kind: EventKind): nat {
    if events == [] then 0 else
    var e := events[|events| - 1];
    Ends(events[..|events| - 1], ak, kind) + if e.kind == kind && e.task == ak.task && e.number == Some(ak.number)
      then 1
      else 0
  }

  /** One fresh lease per attempt of a task. */
  ghost predicate LeasesRecorded(s: State) {
    forall k {:trigger Leases(s.events, k)} :: Leases(s.events, k) == if k in s.tasks then s.tasks[k].attempt else 0
  }

  function EndsOf(attempts: map<AttemptKey, Attempt>, ak: AttemptKey, kind: EventKind): nat {
    if ak in attempts && Terminal(attempts[ak].state) && EndEvent(attempts[ak].state) == kind then 1 else 0
  }

  /** One terminal event per ended attempt, saying how it ended, and none for a live one. */
  ghost predicate EndsRecorded(s: State) {
    forall ak, kind {:trigger Ends(s.events, ak, kind)} :: IsEnd(kind) ==>
      Ends(s.events, ak, kind) == EndsOf(s.attempts, ak, kind)
  }

  ghost predicate LedgerSound(s: State) {
    LeasesRecorded(s) && EndsRecorded(s)
  }

  lemma {:induction false} NeutralCounts(events: seq<Event>, more: seq<Event>, k: TaskKey, ak: AttemptKey,
      kind: EventKind)
    requires forall i :: 0 <= i < |more| ==> !IsEnd(more[i].kind) && more[i].kind != TaskLeased
    ensures Leases(events + more, k) == Leases(events, k)
    ensures IsEnd(kind) ==> Ends(events + more, ak, kind) == Ends(events, ak, kind)
  {
    if more == [] {
      assert events + more == events;
    } else {
      NeutralCounts(events, more[..|more| - 1], k, ak, kind);
      assert (events + more)[..|events + more| - 1] == events + more[..|more| - 1];
    }
  }

  lemma NeutralKeepsLedger(s: State, s': State)
    requires LedgerSound(s) && LogsNeutral(s, s')
    requires forall k ::
      (k in s'.tasks ==> (if k in s.tasks then s'.tasks[k].attempt == s.tasks[k].attempt else s'.tasks[k].attempt == 0))
        && (k in s.tasks ==> k in s'.tasks)
    requires forall ak, kind :: EndsOf(s'.attempts, ak, kind) == EndsOf(s.attempts, ak, kind)
    ensures LedgerSound(s')
  {
    var more: seq<Event> :| s'.events == s.events + more
      && forall i :: 0 <= i < |more| ==> !IsEnd(more[i].kind) && more[i].kind != TaskLeased;
    forall k ensures Leases(s'.events, k) == if k in s'.tasks then s'.tasks[k].attempt else 0 {
      NeutralCounts(s.events, more, k, AttemptKey(k, 0), TaskSucceeded);
    }
    forall ak, kind | IsEnd(kind) ensures Ends(s'.events, ak, kind) == EndsOf(s'.attempts, ak, kind) {
      NeutralCounts(s.events, more, ak.task, ak, kind);
    }
  }

  lemma AppendCounts(events: seq<Event>, e: Event, k: TaskKey, ak: AttemptKey, kind: EventKind)
    ensures Leases(events + [e], k) == Leases(events, k) + (if e.kind == TaskLeased && e.task == k then 1 else 0)
    ensures Ends(events + [e], ak, kind) ==
      Ends(events, ak, kind) + (if e.kind == kind && e.task == ak.task && e.number == Some(ak.number) then 1 else 0)
  {
    assert (events + [e])[..|events + [e]| - 1] == events;
  }

  lemma MovedLeases(s: State, s': State, k: TaskKey)
    requires LeasesRecorded(s) && Moved(s, s', k)
    ensures LeasesRecorded(s')
  {
    hide ParentsSucceeded, TaskAgrees, AttemptSound, TokenFollows, ArtifactsFollow, AllSucceeded;
    forall j ensures Leases(s'.events, j) == if j in s'.tasks then s'.tasks[j].attempt else 0 {
      if s'.events != s.events {
        AppendCounts(s.events, s'.events[|s'.events| - 1], j, AttemptKey(j, 0), TaskSucceeded);
      }
    }
  }

  lemma MovedEnds(s: State, s': State, k: TaskKey)
    requires EndsRecorded(s) && Moved(s, s', k)
    ensures EndsRecorded(s')
  {
    hide ParentsSucceeded, TaskAgrees, AttemptSound, TokenFollows, ArtifactsFollow, AllSucceeded;
    var ck := Current(s', k);
    forall ak, kind | IsEnd(kind) ensures Ends(s'.events, ak, kind) == EndsOf(s'.attempts, ak, kind) {
      if s'.events != s.events {
        AppendCounts(s.events, s'.events[|s'.events| - 1], k, ak, kind);
      }
      assert Ends(s.events, ak, kind) == EndsOf(s.attempts, ak, kind);
      assert ak != ck ==> EndsOf(s'.attempts, ak, kind) == EndsOf(s.attempts, ak, kind);
      assert EndsOf(s.attempts, ck, kind) == 0;
    }
  }

  lemma CancelsKeepLedger(s: State, s': State, r: nat)
    requires LedgerSound(s) && CancelsRun(s, s', r)
    ensures LedgerSound(s')
  {
    hide LedgerSound;
    forall ak, kind ensures EndsOf(s'.attempts, ak, kind) == EndsOf(s.attempts, ak, kind) {
      if ak in s.attempts {
        assert s'.attempts[ak] == if ak.task.run == r then CancelAttempt(s.attempts[ak]) else s.attempts[ak];
      }
    }
    NeutralKeepsLedger(s, s');
  }

  lemma MovesKeepLedger(s: State, s': State)
    requires LedgerSound(s) && Moves(s, s')
    ensures LedgerSound(s')
  {
    hide Moved, LedgerSound, Accepted, CancelsRun;
    if Untouched(s, s') {
      NeutralKeepsLedger(s, s');
    } else if k :| Moved(s, s', k) {
      MovedKeepsLedger(s, s', k);
    } else if run, plan :| AddsRun(s, s', run, plan) && Accepted(plan) {
      assert s'.events == s.events + [];
      NeutralKeepsLedger(s, s');
    } else if r :| CancelsRun(s, s', r) {
      CancelsKeepLedger(s, s', r);
    } else {
      var r, n, D :| SafeReset(s, s', r, n, D);
      NeutralKeepsLedger(s, s');
    }
  }

  lemma MovedKeepsLedger(s: State, s': State, k: TaskKey)
    requires LedgerSound(s) && Moved(s, s', k)
    ensures LedgerSound(s')
  {
    MovedLeases(s, s', k);
    MovedEnds(s, s', k);
  }
}
