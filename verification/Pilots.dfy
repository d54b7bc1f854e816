/** The warm-pilot store: capacity, reservations, health and expiry draining, and the lifecycle of a pilot. */
module Pilots {
  import opened Names

  datatype Lifecycle = Requested | Starting | Ready | Draining | TerminationRequested | Terminated

  /** What a pilot was allocated for: profile id, version and digest, and the execution target. */
  datatype ProfileKey = ProfileKey(id: Name, version: Name, digest: nat, target: Name)

  datatype Allocation = Allocation(capacity: nat, maxLifetime: int, healthTimeout: int,
      drainBeforeExpiry: int, idleTimeout: int)
  datatype Resources = Resources(cpu: int, memory: int, gpu: int, walltime: int)
  datatype Profile = Profile(key: ProfileKey, active: bool, allocation: Allocation, operations: set<nat>,
      runtimes: set<nat>, limits: Resources, rejects: bool)

  /** The resources a request asks for; what it leaves out has a default. */
  datatype Asked = Asked(cpu: Option<int>, memory: Option<int>, gpu: Option<int>, walltime: Option<int>)

  function OrElse(asked: Option<int>, default: int): int { if asked.Some? then asked.value else default }

  function Filled(a: Asked): Resources {
    Resources(OrElse(a.cpu, 1), OrElse(a.memory, 1024), OrElse(a.gpu, 0), OrElse(a.walltime, 600))
  }

  datatype Request = Request(target: Name, operation: nat, runtime: nat, asked: Asked, attempt: nat)

  datatype Pilot = Pilot(profile: ProfileKey, state: Lifecycle, handle: Option<nat>, capacity: nat,
      reserved: nat, readyAt: int, expiresAt: int, heartbeat: Option<int>, lastActivity: int)
  datatype Reservation = Reservation(pilot: nat, attempt: nat, active: bool)

  datatype EventKind =
    | WasRequested | WasSubmitted | WasReady | WasDrained | TerminationAsked | WasTerminated | CapacityReserved
    | CapacityReleased
  datatype Event = Event(kind: EventKind, pilot: nat)

  datatype Pool = Pool(pilots: map<nat, Pilot>, reservations: map<nat, Reservation>, events: seq<Event>)

  const EMPTY := Pool(map[], map[], [])

  datatype Reason = TargetMismatch | NotAllowlisted | NotPrewarmed | ExceedsLimit | NoReadyCapacity
  datatype Decision =
    | Granted(pilot: nat) | Batch(reason: Reason) | Unavailable(reason: Reason) | Inactive | AlreadyReserved

  // ---------- transactions ----------

  function Log(pool: Pool, p: nat, pilot: Pilot, kind: EventKind): Pool {
    pool.(pilots := pool.pilots[p := pilot], events := pool.events + [Event(kind, p)])
  }

  datatype Action =
    | Allocate(pilot: nat, profile: Profile, now: int)
    | Assign(pilot: nat, handle: nat)
    | MarkReady(pilot: nat, now: int)
    | Heartbeat(pilot: nat, now: int)
    | Take(pilot: nat, reservation: nat, attempt: nat, now: int)
    | Release(reservation: nat, now: int)
    | Drain(pilot: nat)
    | Judge(pilot: nat, profile: Profile, now: int)
    | MarkTerminated(pilot: nat)

  /** Ids are fresh, and a reservation is inserted only on a pilot the query selected and for an attempt without an
    * active one. */
  ghost predicate Lawful(pool: Pool, a: Action) {
    match a
    case Allocate(p, profile, now) => p !in pool.pilots
    case Take(p, r, attempt, now) =>
      && p in pool.pilots && pool.pilots[p].state == Ready && pool.pilots[p].reserved < pool.pilots[p].capacity
      && r !in pool.reservations && !HasActive(pool, attempt)
    case _ => true
  }

  predicate HasActive(pool: Pool, attempt: nat) {
    exists r | r in pool.reservations :: pool.reservations[r].active && pool.reservations[r].attempt == attempt
  }

  predicate Unhealthy(pilot: Pilot, profile: Profile, now: int) {
    pilot.heartbeat.None? || now - pilot.heartbeat.value > profile.allocation.healthTimeout
  }

  predicate Expiring(pilot: Pilot, profile: Profile, now: int) {
    pilot.expiresAt - now <= profile.allocation.drainBeforeExpiry
  }

  predicate IdleTooLong(pilot: Pilot, profile: Profile, now: int) {
    pilot.reserved == 0 && now - pilot.lastActivity >= profile.allocation.idleTimeout
  }

  /** The body of the loop of `_reconcile`: drain what should not serve any more, then terminate what drained dry. */
  function Judged(pilot: Pilot, profile: Profile, now: int): Pilot {
    var drained := if pilot.state == Ready
      && (Unhealthy(pilot, profile, now) || Expiring(pilot, profile, now) || IdleTooLong(pilot, profile, now))
      then pilot.(state := Draining)
      else pilot;
    if drained.state == Draining && drained.reserved == 0 then drained.(state := TerminationRequested) else drained
  }

  function JudgeEvents(p: nat, pilot: Pilot, profile: Profile, now: int): seq<Event> {
    var next := Judged(pilot, profile, now);
    (if pilot.state == Ready && next.state != Ready then [Event(WasDrained, p)] else [])
      + (if next.state == TerminationRequested
        && pilot.state != TerminationRequested then [Event(TerminationAsked, p)] else [])
  }

  function Step(pool: Pool, a: Action): Pool {
    match a
    case Allocate(p, profile, now) =>
      Log(pool, p, Pilot(profile.key, Requested, None, profile.allocation.capacity, 0, 0, now
        + profile.allocation.maxLifetime, None, now), WasRequested)
    case Assign(p, handle) =>
      if p !in pool.pilots || (pool.pilots[p].state != Requested && pool.pilots[p].state != Starting) then pool
      else Log(pool, p, pool.pilots[p].(state := Starting, handle := Some(handle)), WasSubmitted)
    case MarkReady(p, now) =>
      if p !in pool.pilots || pool.pilots[p].state != Starting || pool.pilots[p].handle.None? then pool
      else Log(pool, p, pool.pilots[p].(state := Ready, readyAt := now, heartbeat := Some(now),
        lastActivity := now), WasReady)
    case Heartbeat(p, now) =>
      if p !in pool.pilots || (pool.pilots[p].state != Ready && pool.pilots[p].state != Draining) then pool
      else pool.(pilots := pool.pilots[p := pool.pilots[p].(heartbeat := Some(now))])
    case Take(p, r, attempt, now) =>
      if p !in pool.pilots then pool else
      Log(pool.(reservations := pool.reservations[r := Reservation(p, attempt, true)]), p,
          pool.pilots[p].(reserved := pool.pilots[p].reserved + 1, lastActivity := now), CapacityReserved)
    case Release(r, now) =>
      if r !in pool.reservations || !pool.reservations[r].active
        || pool.reservations[r].pilot !in pool.pilots then pool else
      var p := pool.reservations[r].pilot;
      Log(pool.(reservations := pool.reservations[r := pool.reservations[r].(active := false)]), p,
          pool.pilots[p].(reserved := if pool.pilots[p].reserved == 0 then 0 else pool.pilots[p].reserved - 1,
            lastActivity := now), CapacityReleased)
    case Drain(p) =>
      if p !in pool.pilots || pool.pilots[p].state == Draining
        || pool.pilots[p].state == TerminationRequested || pool.pilots[p].state == Terminated
        then pool
      else Log(pool, p, pool.pilots[p].(state := Draining), WasDrained)
    case Judge(p, profile, now) =>
      if p !in pool.pilots then pool
      else pool.(pilots := pool.pilots[p := Judged(pool.pilots[p], profile, now)], events := pool.events
        + JudgeEvents(p, pool.pilots[p], profile, now))
    case MarkTerminated(p) =>
      if p !in pool.pilots || pool.pilots[p].reserved != 0 then pool
      else Log(pool, p, pool.pilots[p].(state := Terminated), WasTerminated)
  }

  // ---------- what holds over every run of the store ----------

  function Active(reservations: map<nat, Reservation>, p: nat): set<nat> {
    set r | r in reservations && reservations[r].active && reservations[r].pilot == p
  }

  /** Reservations granted on a pilot, less those given back, by the event log. */
  function Net(events: seq<Event>, p: nat): int {
    if events == [] then 0 else
    var last := events[|events| - 1];
    Net(events[..|events| - 1], p) + if last.pilot != p
      then 0
      else if last.kind == CapacityReserved then 1 else if last.kind == CapacityReleased then -1 else 0
  }

  /** The counter, the active reservations and the event log say the same, within the capacity. */
  ghost predicate Conserved(pool: Pool) {
    && (forall p {:trigger p in pool.pilots} :: p in pool.pilots ==>
          pool.pilots[p].reserved == |Active(pool.reservations, p)| == Net(pool.events, p)
            && pool.pilots[p].reserved <= pool.pilots[p].capacity)
    && (forall p {:trigger p in pool.pilots} :: p !in pool.pilots ==> Net(pool.events, p) == 0)
  }

  /** Active reservations sit on ready or draining pilots, one per attempt at most. */
  ghost predicate Placed(pool: Pool) {
    && (forall r {:trigger r in pool.reservations} :: r in pool.reservations ==>
      pool.reservations[r].pilot in pool.pilots)
    && (forall r {:trigger r in pool.reservations} :: r in pool.reservations && pool.reservations[r].active ==>
          pool.pilots[pool.reservations[r].pilot].state == Ready
            || pool.pilots[pool.reservations[r].pilot].state == Draining)
    && (forall r, q {:trigger r in pool.reservations, q in pool.reservations} ::
          (r in pool.reservations && q in pool.reservations
            && pool.reservations[r].active && pool.reservations[q].active && r != q) ==>
          pool.reservations[r].attempt != pool.reservations[q].attempt)
  }

  ghost predicate PoolInv(pool: Pool) {
    Conserved(pool) && Placed(pool)
  }

  function Stage(state: Lifecycle): nat {
    match state
    case Requested => 0
    case Starting => 1
    case Ready => 2
    case Draining => 3
    case TerminationRequested => 4
    case Terminated => 5
  }

  /** Pilots only move forward and keep what they were allocated with; a reservation is only ever given back; the log
    * only grows. */
  ghost predicate Advances(pool: Pool, pool': Pool) {
    && (forall p {:trigger p in pool.pilots} :: p in pool.pilots ==>
      p in pool'.pilots && PilotAdvances(pool.pilots[p], pool'.pilots[p]))
    && (forall r {:trigger r in pool.reservations} :: r in pool.reservations ==>
          r in pool'.reservations
            && (pool'.reservations[r] == pool.reservations[r]
              || pool'.reservations[r] == pool.reservations[r].(active := false)))
    && pool.events <= pool'.events
  }

  ghost predicate PilotAdvances(x: Pilot, y: Pilot) {
    Stage(x.state) <= Stage(y.state) && y.profile == x.profile && y.capacity == x.capacity && y.expiresAt == x.expiresAt
  }

  lemma StepAdvances(pool: Pool, a: Action)
    requires Lawful(pool, a)
    ensures Advances(pool, Step(pool, a))
  {
    hide HasActive, Lawful, Step;
    forall p | p in pool.pilots
      ensures p in Step(pool, a).pilots && PilotAdvances(pool.pilots[p], Step(pool, a).pilots[p])
    {
      PilotStepAdvances(pool, a, p);
    }
    ReservationsAdvance(pool, a);
    AddedIsShort(pool, a);
  }

  lemma PilotStepAdvances(pool: Pool, a: Action, p: nat)
    requires Lawful(pool, a) && p in pool.pilots
    ensures p in Step(pool, a).pilots && PilotAdvances(pool.pilots[p], Step(pool, a).pilots[p])
  {
    hide HasActive, JudgeEvents;
  }

  lemma ReservationsAdvance(pool: Pool, a: Action)
    requires Lawful(pool, a)
    ensures forall r {:trigger r in pool.reservations} :: r in pool.reservations ==>
      r in Step(pool, a).reservations
        && (Step(pool, a).reservations[r] == pool.reservations[r]
          || Step(pool, a).reservations[r] == pool.reservations[r].(active := false))
  {
    hide HasActive, JudgeEvents, Judged;
  }

  lemma NetGrows(events: seq<Event>, e: Event, p: nat)
    ensures Net(events + [e], p) == Net(events, p) + if e.pilot != p
      then 0
      else if e.kind == CapacityReserved then 1 else if e.kind == CapacityReleased then -1 else 0
  {
    assert (events + [e])[..|events|] == events;
  }

  lemma NetNeutral(events: seq<Event>, more: seq<Event>, p: nat)
    requires |more| <= 2 && forall e :: e in more ==> e.kind != CapacityReserved && e.kind != CapacityReleased
    ensures Net(events + more, p) == Net(events, p)
  {
    if |more| == 1 {
      assert more == [more[0]];
      NetGrows(events, more[0], p);
    } else if |more| == 2 {
      assert events + more == (events + [more[0]]) + [more[1]];
      NetGrows(events, more[0], p);
      NetGrows(events + [more[0]], more[1], p);
    } else {
      assert events + more == events;
    }
  }

  /** What a step adds to the log. */
  function Added(pool: Pool, a: Action): seq<Event> {
    Step(pool, a).events[|pool.events|..]
  }

  lemma AddedIsShort(pool: Pool, a: Action)
    ensures Step(pool, a).events == pool.events + Added(pool, a) && |Added(pool, a)| <= 2
    ensures !a.Take? && !a.Release? ==>
      forall e :: e in Added(pool, a) ==> e.kind != CapacityReserved && e.kind != CapacityReleased
    ensures a.Take? || a.Release? ==>
      forall e ::
        e in Added(pool, a) ==>
          Added(pool, a) == [e] && e.kind == if a.Take? then CapacityReserved else CapacityReleased
  {
  }

  lemma ActiveGrows(reservations: map<nat, Reservation>, r: nat, x: Reservation, p: nat)
    requires r !in reservations && x.active
    ensures |Active(reservations[r := x], p)| == |Active(reservations, p)| + if x.pilot == p then 1 else 0
  {
    assert r !in Active(reservations, p);
    assert Active(reservations[r := x], p) == Active(reservations, p) + if x.pilot == p then {r} else {};
  }

  lemma ActiveShrinks(reservations: map<nat, Reservation>, r: nat, p: nat)
    requires r in reservations && reservations[r].active
    ensures |Active(reservations[r := reservations[r].(active := false)], p)| ==
      |Active(reservations, p)| - if reservations[r].pilot == p
      then 1
      else 0
    ensures |Active(reservations, reservations[r].pilot)| >= 1
  {
    assert r in Active(reservations, reservations[r].pilot);
    assert Active(reservations[r := reservations[r].(active := false)], p) ==
      Active(reservations, p) - if reservations[r].pilot == p
      then {r}
      else {};
  }

  /** Taking and releasing keep counter, reservations and log together; the clamp at zero is never reached. */
  lemma TakeConserves(pool: Pool, a: Action)
    requires PoolInv(pool) && Lawful(pool, a) && a.Take?
    ensures Conserved(Step(pool, a))
  {
    hide Net, Active, Placed, HasActive;
    forall p
      ensures Net(pool.events + [Event(CapacityReserved, a.pilot)], p) == Net(pool.events, p) + if p == a.pilot
        then 1
        else 0
    {
      NetGrows(pool.events, Event(CapacityReserved, a.pilot), p);
    }
    var x := Reservation(a.pilot, a.attempt, true);
    forall p
      ensures |Active(pool.reservations[a.reservation := x], p)| == |Active(pool.reservations, p)| + if p == a.pilot
        then 1
        else 0
    {
      ActiveGrows(pool.reservations, a.reservation, x, p);
    }
  }

  lemma ReleaseConserves(pool: Pool, a: Action)
    requires PoolInv(pool) && a.Release?
    ensures Conserved(Step(pool, a))
    ensures a.reservation in pool.reservations && pool.reservations[a.reservation].active ==>
      pool.pilots[pool.reservations[a.reservation].pilot].reserved >= 1
  {
    hide Net, Active;
    if a.reservation in pool.reservations && pool.reservations[a.reservation].active {
      var q := pool.reservations[a.reservation].pilot;
      forall p
        ensures Net(pool.events + [Event(CapacityReleased, q)], p) == Net(pool.events, p) - if p == q then 1 else 0
      {
        NetGrows(pool.events, Event(CapacityReleased, q), p);
      }
      var after := pool.reservations[a.reservation := pool.reservations[a.reservation].(active := false)];
      ActiveShrinks(pool.reservations, a.reservation, q);
      forall p ensures |Active(after, p)| == |Active(pool.reservations, p)| - if p == q then 1 else 0 {
        ActiveShrinks(pool.reservations, a.reservation, p);
      }
    }
  }

  /** Any other step leaves reservations, counters and capacities alone, and a pilot it adds starts with a counter at
    * zero. */
  lemma OtherKeepsCounters(pool: Pool, a: Action)
    requires Lawful(pool, a) && !a.Take? && !a.Release?
    ensures Step(pool, a).reservations == pool.reservations
    ensures forall p {:trigger p in pool.pilots} :: p in pool.pilots ==>
      p in Step(pool, a).pilots && Step(pool, a).pilots[p].reserved == pool.pilots[p].reserved
        && Step(pool, a).pilots[p].capacity == pool.pilots[p].capacity
    ensures forall p {:trigger p in Step(pool, a).pilots} :: p in Step(pool, a).pilots && p !in pool.pilots ==>
      Step(pool, a).pilots[p].reserved == 0
  {
    hide JudgeEvents;
  }

  lemma OtherKeepsNet(pool: Pool, a: Action, p: nat)
    requires !a.Take? && !a.Release?
    ensures Net(Step(pool, a).events, p) == Net(pool.events, p)
  {
    hide Net, Step;
    AddedIsShort(pool, a);
    NetNeutral(pool.events, Added(pool, a), p);
  }

  lemma UnknownHasNone(pool: Pool, p: nat)
    requires Placed(pool) && p !in pool.pilots
    ensures Active(pool.reservations, p) == {}
  {
    forall r ensures r !in Active(pool.reservations, p) {
      assert r in pool.reservations ==> pool.reservations[r].pilot in pool.pilots;
    }
  }

  lemma OtherConserves(pool: Pool, a: Action)
    requires PoolInv(pool) && Lawful(pool, a) && !a.Take? && !a.Release?
    ensures Conserved(Step(pool, a))
  {
    hide Net, Active, Step, Placed, Lawful;
    OtherKeepsCounters(pool, a);
    var pool' := Step(pool, a);
    forall p ensures Net(pool'.events, p) == Net(pool.events, p) {
      OtherKeepsNet(pool, a, p);
    }
    forall p | p in pool'.pilots
      ensures pool'.pilots[p].reserved == |Active(pool'.reservations, p)| == Net(pool'.events, p)
        && pool'.pilots[p].reserved <= pool'.pilots[p].capacity
    {
      if p !in pool.pilots {
        UnknownHasNone(pool, p);
        assert Net(pool.events, p) == 0;
      }
    }
    forall p | p !in pool'.pilots ensures Net(pool'.events, p) == 0 {
      assert p !in pool.pilots;
    }
  }

  /** A pilot that serves a reservation goes on serving. */
  lemma ServingStays(pool: Pool, a: Action, p: nat)
    requires Lawful(pool, a) && p in pool.pilots && (pool.pilots[p].state == Ready || pool.pilots[p].state == Draining)
    requires pool.pilots[p].reserved >= 1
    ensures p in Step(pool, a).pilots
    ensures Step(pool, a).pilots[p].state == Ready || Step(pool, a).pilots[p].state == Draining
  {
    hide JudgeEvents, HasActive;
  }

  /** A step adds one reservation, ends one, or leaves them all. */
  lemma ReservationsAfter(pool: Pool, a: Action)
    requires Lawful(pool, a)
    ensures Step(pool, a).reservations == pool.reservations
      || (a.Take? && Step(pool, a).reservations ==
            pool.reservations[a.reservation := Reservation(a.pilot, a.attempt, true)])
      || (a.Release? && a.reservation in pool.reservations && Step(pool, a).reservations ==
            pool.reservations[a.reservation := pool.reservations[a.reservation].(active := false)])
    ensures pool.pilots.Keys <= Step(pool, a).pilots.Keys
    ensures a.Take? ==> a.pilot in pool.pilots && Step(pool, a).pilots[a.pilot].state == Ready
  {
    hide Judged, JudgeEvents, HasActive;
  }

  lemma ActiveMeansReserved(pool: Pool, r: nat)
    requires PoolInv(pool) && r in pool.reservations && pool.reservations[r].active
    ensures pool.reservations[r].pilot in pool.pilots && pool.pilots[pool.reservations[r].pilot].reserved >= 1
  {
    assert r in Active(pool.reservations, pool.reservations[r].pilot);
  }

  lemma StepPlaces(pool: Pool, a: Action)
    requires PoolInv(pool) && Lawful(pool, a)
    ensures Placed(Step(pool, a))
  {
    hide Step, Conserved;
    ReservationsAfter(pool, a);
    forall r | r in pool.reservations && pool.reservations[r].active
      ensures var p := pool.reservations[r].pilot;
        p in Step(pool, a).pilots
          && (Step(pool, a).pilots[p].state == Ready || Step(pool, a).pilots[p].state == Draining)
    {
      ActiveMeansReserved(pool, r);
      ServingStays(pool, a, pool.reservations[r].pilot);
    }
  }

  /** Every transaction keeps the store consistent. */
  lemma StepKeepsPool(pool: Pool, a: Action)
    requires PoolInv(pool) && Lawful(pool, a)
    ensures PoolInv(Step(pool, a))
  {
    hide Lawful, Step, Conserved, Placed;
    StepPlaces(pool, a);
    if a.Take? {
      TakeConserves(pool, a);
    } else if a.Release? {
      ReleaseConserves(pool, a);
    } else {
      OtherConserves(pool, a);
    }
  }

  // ---------- reconciling ----------

  /** The rows `_reconcile` selects: ready or draining pilots of this profile id, whatever version they were
    * allocated for. */
  predicate Selected(pilot: Pilot, profile: Profile) {
    pilot.profile.id == profile.key.id && (pilot.state == Ready || pilot.state == Draining)
  }

  ghost predicate ListsSelected(pool: Pool, profile: Profile, order: seq<nat>) {
    && (forall i, j :: 0 <= i < j < |order| ==> order[i] != order[j])
    && (forall p :: p in order <==> p in pool.pilots && Selected(pool.pilots[p], profile))
  }

  /** `_reconcile`, row after row. */
  function Reconciled(pool: Pool, profile: Profile, now: int, order: seq<nat>): Pool {
    if order == []
      then pool
      else Step(Reconciled(pool, profile, now, order[..|order| - 1]), Judge(order[|order| - 1], profile, now))
  }

  lemma {:induction false} ReconciledIs(pool: Pool, profile: Profile, now: int, order: seq<nat>)
    requires forall i, j :: 0 <= i < j < |order| ==> order[i] != order[j]
    requires forall p :: p in order ==> p in pool.pilots
    ensures var pool' := Reconciled(pool, profile, now, order);
      && pool'.reservations == pool.reservations && pool'.pilots.Keys == pool.pilots.Keys
      && forall p :: p in pool.pilots ==>
        pool'.pilots[p] == if p in order then Judged(pool.pilots[p], profile, now) else pool.pilots[p]
  {
    if order != [] {
      ReconciledIs(pool, profile, now, order[..|order| - 1]);
    }
  }

  lemma {:induction false} ReconciledKeeps(pool: Pool, profile: Profile, now: int, order: seq<nat>)
    requires PoolInv(pool)
    ensures PoolInv(Reconciled(pool, profile, now, order)) && Advances(pool, Reconciled(pool, profile, now, order))
  {
    hide PoolInv, Step, Advances;
    if order == [] {
      AdvancesReflexive(pool);
    } else {
      var before, a := Reconciled(pool, profile, now, order[..|order| - 1]), Judge(order[|order| - 1], profile, now);
      ReconciledKeeps(pool, profile, now, order[..|order| - 1]);
      StepKeepsPool(before, a);
      StepAdvances(before, a);
      AdvancesTransitive(pool, before, Step(before, a));
    }
  }

  lemma AdvancesReflexive(pool: Pool)
    ensures Advances(pool, pool)
  {
  }

  lemma AdvancesTransitive(x: Pool, y: Pool, z: Pool)
    requires Advances(x, y) && Advances(y, z)
    ensures Advances(x, z)
  {
  }

  /** No pilot of the profile id is ready while unhealthy, expiring or idle too long, and none drains while empty. */
  ghost predicate Settled(pool: Pool, profile: Profile, now: int) {
    forall p {:trigger p in pool.pilots} :: p in pool.pilots && pool.pilots[p].profile.id == profile.key.id ==>
      var pilot := pool.pilots[p];
      && (pilot.state == Ready ==>
            !Unhealthy(pilot, profile, now) && !Expiring(pilot, profile, now) && !IdleTooLong(pilot, profile, now))
      && (pilot.state == Draining ==> pilot.reserved > 0)
  }

  lemma ReconcileSettles(pool: Pool, profile: Profile, now: int, order: seq<nat>)
    requires ListsSelected(pool, profile, order)
    ensures Settled(Reconciled(pool, profile, now, order), profile, now)
  {
    ReconciledIs(pool, profile, now, order);
  }

  /** A settled store is a fixed point: nothing is judged differently, and nothing is logged. */
  lemma {:induction false} SettledStays(pool: Pool, profile: Profile, now: int, order: seq<nat>)
    requires Settled(pool, profile, now)
      && forall p :: p in order ==> p in pool.pilots && Selected(pool.pilots[p], profile)
    ensures Reconciled(pool, profile, now, order) == pool
  {
    if order != [] {
      SettledStays(pool, profile, now, order[..|order| - 1]);
      var p := order[|order| - 1];
      assert pool.pilots[p := Judged(pool.pilots[p], profile, now)] == pool.pilots
        && JudgeEvents(p, pool.pilots[p], profile, now) == [];
    }
  }

  /** Reconciling twice at the same instant is reconciling once, in whatever order the rows come. */
  lemma ReconcileIsIdempotent(pool: Pool, profile: Profile, now: int, order: seq<nat>, again: seq<nat>)
    requires ListsSelected(pool, profile, order) && ListsSelected(Reconciled(pool, profile, now, order), profile, again)
    ensures Reconciled(Reconciled(pool, profile, now, order), profile, now, again) == Reconciled(pool,
      profile, now, order)
  {
    ReconcileSettles(pool, profile, now, order);
    SettledStays(Reconciled(pool, profile, now, order), profile, now, again);
  }

  // ---------- runs of the store ----------

  /** Any sequence of transactions from the empty store. */
  ghost predicate History(b: seq<Pool>) {
    |b| >= 1 && b[0] == EMPTY && forall i {:trigger b[i]} :: 0 <= i < |b| - 1 ==> Follows(b[i], b[i + 1])
  }

  ghost predicate Follows(pool: Pool, pool': Pool) {
    exists a :: Lawful(pool, a) && pool' == Step(pool, a)
  }

  /** Capacity is conserved in every reachable store. */
  lemma {:induction false} CapacityIsConserved(b: seq<Pool>, i: nat)
    requires History(b) && i < |b|
    ensures PoolInv(b[i])
  {
    if i > 0 {
      CapacityIsConserved(b, i - 1);
      assert Follows(b[i - 1], b[i - 1 + 1]);
      var a :| Lawful(b[i - 1], a) && b[i] == Step(b[i - 1], a);
      StepKeepsPool(b[i - 1], a);
    }
  }

  lemma StepsFollow(b: seq<Pool>, i: nat, j: nat)
    requires History(b) && i <= j < |b|
    ensures i < j ==> Follows(b[j - 1], b[j])
  {
    if i < j { assert Follows(b[j - 1], b[j - 1 + 1]); }
  }

  /** Over any stretch of a run pilots only move forward and releases are final. */
  lemma {:induction false} LifecycleIsForward(b: seq<Pool>, i: nat, j: nat)
    requires History(b) && i <= j < |b|
    ensures Advances(b[i], b[j])
    decreases j - i
  {
    hide Advances, Step, Lawful, History;
    StepsFollow(b, i, j);
    if i == j {
      AdvancesReflexive(b[i]);
    } else {
      LifecycleIsForward(b, i, j - 1);
      var a :| Lawful(b[j - 1], a) && b[j] == Step(b[j - 1], a);
      StepAdvances(b[j - 1], a);
      AdvancesTransitive(b[i], b[j - 1], b[j]);
    }
  }

  /** Giving a reservation back a second time does nothing. */
  lemma ReleaseIsIdempotent(pool: Pool, r: nat, now: int, later: int)
    requires PoolInv(pool)
    ensures Step(Step(pool, Release(r, now)), Release(r, later)) == Step(pool, Release(r, now))
  {
    hide Conserved;
  }

  // ---------- the store ----------

  predicate Fits(resources: Resources, limits: Resources) {
    resources.cpu <= limits.cpu && resources.memory <= limits.memory && resources.gpu <= limits.gpu
      && resources.walltime <= limits.walltime
  }

  /** The first reason `reserve` has against a request, before it looks at any pilot. */
  function Ineligible(profile: Profile, request: Request): Option<Reason> {
    if request.target != profile.key.target then Some(TargetMismatch)
    else if request.operation !in profile.operations then Some(NotAllowlisted)
    else if request.runtime !in profile.runtimes then Some(NotPrewarmed)
    else if !Fits(Filled(request.asked), profile.limits) then Some(ExceedsLimit)
    else None
  }

  /** The pilots `reserve` may use: allocated for exactly this profile, ready, with room, healthy, and with more than
    * the drain margin left. */
  predicate Usable(pilot: Pilot, profile: Profile, now: int) {
    && pilot.profile == profile.key && pilot.state == Ready && pilot.reserved < pilot.capacity
    && pilot.expiresAt > now + profile.allocation.drainBeforeExpiry
    && pilot.heartbeat.Some? && pilot.heartbeat.value >= now - profile.allocation.healthTimeout
  }

  /** The order of the query: by time of readiness, then by id. */
  predicate Earlier(pool: Pool, p: nat, q: nat)
    requires p in pool.pilots && q in pool.pilots
  {
    pool.pilots[p].readyAt < pool.pilots[q].readyAt || (pool.pilots[p].readyAt == pool.pilots[q].readyAt && p < q)
  }

  ghost predicate Chosen(pool: Pool, p: nat, profile: Profile, now: int) {
    p in pool.pilots && Usable(pool.pilots[p], profile, now)
      && forall q :: q in pool.pilots && Usable(pool.pilots[q], profile, now) ==> !Earlier(pool, q, p)
  }

  /** What `reserve` decides, and what it leaves in the store: only a granted pilot or a batch fallback commits the
    * reconciliation. */
  ghost predicate Decided(pool: Pool, pool': Pool, decision: Decision, profile: Profile, request: Request,
      requirePilot: bool, now: int, order: seq<nat>, r: nat) {
    var reconciled := Reconciled(pool, profile, now, order);
    var strict := requirePilot || profile.rejects;
    var none := forall p :: p in reconciled.pilots ==> !Usable(reconciled.pilots[p], profile, now);
    match decision
    case Inactive => !profile.active && pool' == pool
    case Granted(p) =>
      profile.active && Ineligible(profile, request).None? && Chosen(reconciled, p, profile, now)
        && !HasActive(reconciled, request.attempt)
        && pool' == Step(reconciled, Take(p, r, request.attempt, now))
    case AlreadyReserved =>
      profile.active && Ineligible(profile, request).None? && !none
        && HasActive(reconciled, request.attempt) && pool' == pool
    case Batch(reason) =>
      profile.active && !strict && if reason == NoReadyCapacity
        then Ineligible(profile, request).None? && none && pool' == reconciled
        else Ineligible(profile, request) == Some(reason) && pool' == pool
    case Unavailable(reason) =>
      profile.active && strict && pool' == pool && if reason == NoReadyCapacity
        then Ineligible(profile, request).None? && none
        else Ineligible(profile, request) == Some(reason)
  }

  /** A pilot that can serve: allocated for exactly this profile, ready, with room, heard of within the health timeout,
    * with more than the drain margin left, and not idle for too long. */
  predicate CanServe(pilot: Pilot, profile: Profile, now: int) {
    && pilot.profile.id == profile.key.id && pilot.profile.version == profile.key.version
    && pilot.profile.digest == profile.key.digest && pilot.profile.target == profile.key.target
    && pilot.state == Ready && pilot.reserved < pilot.capacity
    && pilot.heartbeat.Some? && now - pilot.heartbeat.value <= profile.allocation.healthTimeout
    && pilot.expiresAt - now > profile.allocation.drainBeforeExpiry
    && (pilot.reserved > 0 || now - pilot.lastActivity < profile.allocation.idleTimeout)
  }

  /** The request's target, operation and runtime are the profile's, and what it asks for is within the limits, where it
    * asks for one core, 1024 megabytes, no accelerator and 600 seconds unless it says otherwise. */
  predicate Allowed(profile: Profile, request: Request) {
    && request.target == profile.key.target && request.operation in profile.operations
    && request.runtime in profile.runtimes
    && (if request.asked.cpu.Some? then request.asked.cpu.value else 1) <= profile.limits.cpu
    && (if request.asked.memory.Some? then request.asked.memory.value else 1024) <= profile.limits.memory
    && (if request.asked.gpu.Some? then request.asked.gpu.value else 0) <= profile.limits.gpu
    && (if request.asked.walltime.Some? then request.asked.walltime.value else 600) <= profile.limits.walltime
  }

  class PilotStore {
    var pilots: map<nat, Pilot>
    var reservations: map<nat, Reservation>
    var events: seq<Event>

    function Db(): Pool
      reads this
    {
      Pool(pilots, reservations, events)
    }

    ghost predicate Valid()
      reads this
    {
      PoolInv(Db())
    }

    constructor ()
      ensures Valid() && Db() == EMPTY
    {
      pilots, reservations, events := map[], map[], [];
    }

    method RecordEvent(p: nat, kind: EventKind)
      modifies this`events
      ensures events == old(events) + [Event(kind, p)]
    {
      events := events + [Event(kind, p)];
    }

    method RequestAllocation(p: nat, profile: Profile, now: int) returns (ok: bool)
      requires Valid() && p !in pilots
      modifies this
      ensures Valid() && ok == profile.active
      ensures Db() == if ok then Step(old(Db()), Allocate(p, profile, now)) else old(Db())
      ensures ok ==> events == old(events) + [Event(WasRequested, p)] && reservations == old(reservations)
      ensures ok ==> pilots == old(pilots)[p := Pilot(profile.key, Requested, None, profile.allocation.capacity, 0, 0,
        now + profile.allocation.maxLifetime, None, now)]
    {
      hide PoolInv;
      if !profile.active {
        return false;
      }
      StepKeepsPool(Db(), Allocate(p, profile, now));
      pilots := pilots[p := Pilot(profile.key, Requested, None, profile.allocation.capacity, 0, 0, now
        + profile.allocation.maxLifetime, None, now)];
      RecordEvent(p, WasRequested);
      return true;
    }

    method AssignSchedulerHandle(p: nat, handle: nat) returns (ok: bool)
      requires Valid()
      modifies this
      ensures Valid() && Db() == Step(old(Db()), Assign(p, handle))
      ensures ok <==> p in old(pilots) && old(pilots)[p].state in {Requested, Starting}
      ensures Db() == if !ok then old(Db()) else
        Pool(old(pilots)[p := old(pilots)[p].(state := Starting, handle := Some(handle))], old(reservations),
          old(events) + [Event(WasSubmitted, p)])
    {
      hide PoolInv;
      StepKeepsPool(Db(), Assign(p, handle));
      if p !in pilots || (pilots[p].state != Requested && pilots[p].state != Starting) {
        return false;
      }
      pilots := pilots[p := pilots[p].(state := Starting, handle := Some(handle))];
      RecordEvent(p, WasSubmitted);
      return true;
    }

    method BecomeReady(p: nat, now: int) returns (ok: bool)
      requires Valid()
      modifies this
      ensures Valid() && Db() == Step(old(Db()), MarkReady(p, now))
      ensures ok <==> p in old(pilots) && old(pilots)[p].state == Starting && old(pilots)[p].handle.Some?
      ensures Db() == if !ok then old(Db()) else
        Pool(old(pilots)[p := old(pilots)[p].(state := Ready, readyAt := now, heartbeat := Some(now),
          lastActivity := now)],
          old(reservations), old(events) + [Event(WasReady, p)])
    {
      hide PoolInv;
      StepKeepsPool(Db(), MarkReady(p, now));
      if p !in pilots || pilots[p].state != Starting || pilots[p].handle.None? {
        return false;
      }
      pilots := pilots[p := pilots[p].(state := Ready, readyAt := now, heartbeat := Some(now), lastActivity := now)];
      RecordEvent(p, WasReady);
      return true;
    }

    method Beat(p: nat, now: int) returns (ok: bool)
      requires Valid()
      modifies this
      ensures Valid() && Db() == Step(old(Db()), Heartbeat(p, now))
      ensures ok <==> p in old(pilots) && (old(pilots)[p].state == Ready || old(pilots)[p].state == Draining)
      ensures Db() == if !ok then old(Db()) else
        old(Db()).(pilots := old(pilots)[p := old(pilots)[p].(heartbeat := Some(now))])
    {
      hide PoolInv;
      StepKeepsPool(Db(), Heartbeat(p, now));
      if p !in pilots || (pilots[p].state != Ready && pilots[p].state != Draining) {
        return false;
      }
      pilots := pilots[p := pilots[p].(heartbeat := Some(now))];
      return true;
    }

    /** `_set_draining`: nothing happens to a pilot that drains or is done. */
    method SetDraining(p: nat)
      requires p in pilots
      modifies this`pilots, this`events
      ensures Db() == Step(old(Db()), Drain(p))
      ensures Db() == if old(pilots)[p].state in {Draining, TerminationRequested, Terminated} then old(Db()) else
        Pool(old(pilots)[p := old(pilots)[p].(state := Draining)], old(reservations), old(events)
          + [Event(WasDrained, p)])
    {
      if pilots[p].state == Draining || pilots[p].state == TerminationRequested || pilots[p].state == Terminated {
        return;
      }
      pilots := pilots[p := pilots[p].(state := Draining)];
      RecordEvent(p, WasDrained);
    }

    method StartDraining(p: nat) returns (ok: bool)
      requires Valid()
      modifies this
      ensures Valid() && Db() == Step(old(Db()), Drain(p)) && ok == (p in old(pilots))
      ensures ok ==> p in pilots && pilots[p].state in {Draining, TerminationRequested, Terminated}
    {
      hide PoolInv;
      StepKeepsPool(Db(), Drain(p));
      if p !in pilots {
        return false;
      }
      SetDraining(p);
      return true;
    }

    /** The body of the loop of `_reconcile`. */
    method JudgePilot(p: nat, profile: Profile, now: int)
      requires p in pilots && Selected(pilots[p], profile)
      modifies this`pilots, this`events
      ensures Db() == Step(old(Db()), Judge(p, profile, now))
      ensures reservations == old(reservations) && p in pilots
        && pilots == old(pilots)[p := old(pilots)[p].(state := pilots[p].state)]
      ensures var q := old(pilots)[p];
        var leaves := q.state == Ready
          && (q.heartbeat.None? || now - q.heartbeat.value > profile.allocation.healthTimeout
          || q.expiresAt - now <= profile.allocation.drainBeforeExpiry
          || (q.reserved == 0 && now - q.lastActivity >= profile.allocation.idleTimeout));
        && pilots[p].state == (if !leaves && q.state == Ready then Ready
          else if q.reserved == 0 then TerminationRequested else Draining)
        && events == old(events) + (if leaves then [Event(WasDrained, p)] else [])
          + (if pilots[p].state == TerminationRequested then [Event(TerminationAsked, p)] else [])
    {
      if pilots[p].state == Ready {
        var due := false;
        if pilots[p].heartbeat.None? || now - pilots[p].heartbeat.value > profile.allocation.healthTimeout {
          due := true;
        } else if pilots[p].expiresAt - now <= profile.allocation.drainBeforeExpiry {
          due := true;
        } else if pilots[p].reserved == 0 && now - pilots[p].lastActivity >= profile.allocation.idleTimeout {
          due := true;
        }
        if due {
          SetDraining(p);
        }
      }
      if pilots[p].state == Draining && pilots[p].reserved == 0 {
        pilots := pilots[p := pilots[p].(state := TerminationRequested)];
        RecordEvent(p, TerminationAsked);
      }
    }

    /** `_reconcile`: the rows in the order the query returned them. */
    method Reconcile(profile: Profile, now: int) returns (ghost order: seq<nat>)
      requires Valid()
      modifies this
      ensures Valid() && ListsSelected(old(Db()), profile, order) && Db() == Reconciled(old(Db()), profile, now, order)
      ensures Settled(Db(), profile, now)
    {
      hide PoolInv, Judged, Step, Remaining, ListsSelected, Settled, Reconciled, Selected;
      ghost var before := Db();
      var rest := set p | p in pilots && Selected(pilots[p], profile);
      order := [];
      AllRemain(before, profile, now, rest);
      while rest != {}
        invariant Remaining(before, profile, order, rest)
        invariant Db() == Reconciled(before, profile, now, order)
        decreases |rest|
      {
        var p :| p in rest;
        RemainingNext(before, profile, now, order, rest, p);
        JudgePilot(p, profile, now);
        order := order + [p];
        rest := rest - {p};
      }
      NoneRemain(before, profile, order);
      ReconciledKeeps(before, profile, now, order);
      ReconcileSettles(before, profile, now, order);
    }

    method FindUsable(profile: Profile, now: int) returns (best: Option<nat>)
      ensures best.None? ==> forall p :: p in pilots ==> !Usable(pilots[p], profile, now)
      ensures best.Some? ==> Chosen(Db(), best.value, profile, now)
    {
      best := None;
      var rest := pilots.Keys;
      while rest != {}
        invariant rest <= pilots.Keys
        invariant best.None? ==> forall q :: q in pilots && q !in rest ==> !Usable(pilots[q], profile, now)
        invariant best.Some? ==> best.value in pilots && Usable(pilots[best.value], profile, now)
        invariant best.Some? ==>
          forall q :: q in pilots && q !in rest && Usable(pilots[q], profile, now) ==> !Earlier(Db(), q, best.value)
        decreases |rest|
      {
        var p :| p in rest;
        if Usable(pilots[p], profile, now) && (best.None? || Earlier(Db(), p, best.value)) {
          best := Some(p);
        }
        rest := rest - {p};
      }
    }

    method Fallback(profile: Profile, reason: Reason, requirePilot: bool) returns (decision: Decision)
      ensures decision == if requirePilot || profile.rejects then Unavailable(reason) else Batch(reason)
    {
      if requirePilot || profile.rejects {
        return Unavailable(reason);
      }
      return Batch(reason);
    }

    /** `reserve`: an exception rolls the reconciliation back, a returned decision commits it. */
    method Reserve(profile: Profile, request: Request, requirePilot: bool, now: int, r: nat)
        returns (decision: Decision, ghost order: seq<nat>)
      requires Valid() && r !in reservations
      modifies this
      ensures Valid() && Advances(old(Db()), Db())
      ensures (profile.active && Ineligible(profile, request).None?) ==> ListsSelected(old(Db()), profile, order)
      ensures Decided(old(Db()), Db(), decision, profile, request, requirePilot, now, order, r)
      ensures decision.Granted? ==> profile.active && Allowed(profile, request) && decision.pilot in old(pilots)
      ensures decision.Granted? ==> var q := old(pilots)[decision.pilot];
        && q.profile == profile.key && q.state == Ready && q.reserved < q.capacity
        && q.heartbeat.Some? && now - q.heartbeat.value <= profile.allocation.healthTimeout
        && q.expiresAt - now > profile.allocation.drainBeforeExpiry
        && (q.reserved > 0 || now - q.lastActivity < profile.allocation.idleTimeout)
      ensures decision.Granted? ==> forall p :: p in old(pilots) && CanServe(old(pilots)[p], profile, now) ==>
        old(pilots)[decision.pilot].readyAt < old(pilots)[p].readyAt
          || (old(pilots)[decision.pilot].readyAt == old(pilots)[p].readyAt && decision.pilot <= p)
      ensures decision in {Batch(NoReadyCapacity), Unavailable(NoReadyCapacity)} ==>
        forall p :: p in old(pilots) ==> !CanServe(old(pilots)[p], profile, now)
      ensures decision.Granted? ==>
        && reservations == old(reservations)[r := Reservation(decision.pilot, request.attempt, true)]
        && decision.pilot in pilots && pilots[decision.pilot].reserved == old(pilots)[decision.pilot].reserved + 1
        && forall x ::
          x in old(reservations) && old(reservations)[x].active ==> old(reservations)[x].attempt != request.attempt
      ensures !decision.Granted? ==> reservations == old(reservations)
      ensures decision == AlreadyReserved ==>
        exists x ::
          x in old(reservations) && old(reservations)[x].active && old(reservations)[x].attempt == request.attempt
      ensures decision == Inactive <==> !profile.active
      ensures decision.Batch? || decision.Unavailable? ==>
        && (decision.Batch? <==> !requirePilot && !profile.rejects)
        && (decision.reason == NoReadyCapacity <==> Allowed(profile, request))
        && (decision.reason == TargetMismatch <==> request.target != profile.key.target)
        && (decision.reason == NotAllowlisted <==>
          request.target == profile.key.target && request.operation !in profile.operations)
        && (decision.reason == NotPrewarmed <==>
          request.target == profile.key.target && request.operation in profile.operations
            && request.runtime !in profile.runtimes)
    {
      hide PoolInv, Usable, Advances, Step, ListsSelected, Reconciled, Settled, Chosen, HasActive, CanServe, Allowed,
        Ineligible;
      AllowedIff(profile, request);
      order := [];
      ghost var before := Db();
      AdvancesReflexive(before);
      if !profile.active {
        return Inactive, order;
      }
      var reason := Ineligible(profile, request);
      if reason.Some? {
        decision := Fallback(profile, reason.value, requirePilot);
        return;
      }
      var savedPilots, savedEvents := pilots, events;
      order := Reconcile(profile, now);
      ReconciledKeeps(before, profile, now, order);
      SameReservations(before, profile, now, order);
      ServesIff(before, profile, now, order);
      var found := FindUsable(profile, now);
      if found.None? {
        decision := Fallback(profile, NoReadyCapacity, requirePilot);
        if decision.Unavailable? {
          pilots, events := savedPilots, savedEvents;
        }
        return;
      }
      ChosenServes(before, profile, now, order, found.value);
      ActiveIsHeld(Db(), request.attempt);
      if HasActive(Db(), request.attempt) {
        pilots, events := savedPilots, savedEvents;
        return AlreadyReserved, order;
      }
      if pilots[found.value].state != Ready || pilots[found.value].reserved >= pilots[found.value].capacity {
        // The conditional update of the row the query selected cannot miss: the transaction holds the write lock.
        assert false;
      }
      TakeStep(before, Db(), found.value, profile, now, r, request.attempt);
      CanServeIff(before.pilots[found.value], profile, now);
      TakeRow(found.value, r, request.attempt, now);
      return Granted(found.value), order;
    }

    method TakeRow(p: nat, r: nat, attempt: nat, now: int)
      requires p in pilots
      modifies this
      ensures Db() == Step(old(Db()), Take(p, r, attempt, now))
      ensures Db() == Pool(old(pilots)[p := old(pilots)[p].(reserved := old(pilots)[p].reserved + 1,
        lastActivity := now)],
        old(reservations)[r := Reservation(p, attempt, true)], old(events) + [Event(CapacityReserved, p)])
    {
      pilots := pilots[p := pilots[p].(reserved := pilots[p].reserved + 1, lastActivity := now)];
      reservations := reservations[r := Reservation(p, attempt, true)];
      RecordEvent(p, CapacityReserved);
    }

    /** `release`: a second release, or an unknown reservation, changes nothing. */
    method GiveBack(r: nat, now: int) returns (found: bool)
      requires Valid()
      modifies this
      ensures Valid() && Db() == Step(old(Db()), Release(r, now)) && found == (r in old(reservations))
      ensures found && old(reservations)[r].active ==>
        reservations[r].pilot in pilots
          && pilots[reservations[r].pilot].reserved == old(pilots)[reservations[r].pilot].reserved - 1
          && pilots[reservations[r].pilot].lastActivity == now
      ensures !found || !old(reservations)[r].active ==> Db() == old(Db())
      ensures found && old(reservations)[r].active ==> var p := old(reservations)[r].pilot;
        && p in old(pilots) && reservations == old(reservations)[r := old(reservations)[r].(active := false)]
        && pilots == old(pilots)[p := old(pilots)[p].(reserved := pilots[p].reserved, lastActivity := now)]
        && events == old(events) + [Event(CapacityReleased, p)]
    {
      hide Net, Active;
      StepKeepsPool(Db(), Release(r, now));
      ReleaseConserves(Db(), Release(r, now));
      if r !in reservations {
        return false;
      }
      if !reservations[r].active {
        return true;
      }
      var p := reservations[r].pilot;
      reservations := reservations[r := reservations[r].(active := false)];
      var less := if pilots[p].reserved - 1 > 0 then pilots[p].reserved - 1 else 0;
      pilots := pilots[p := pilots[p].(reserved := less, lastActivity := now)];
      RecordEvent(p, CapacityReleased);
      return true;
    }

    method Terminate(p: nat) returns (ok: bool)
      requires Valid()
      modifies this
      ensures Valid() && Db() == Step(old(Db()), MarkTerminated(p))
      ensures ok <==>
        p in old(pilots) && forall r :: r in reservations && reservations[r].active ==> reservations[r].pilot != p
      ensures Db() == if !ok then old(Db()) else
        Pool(old(pilots)[p := old(pilots)[p].(state := Terminated)], old(reservations), old(events)
          + [Event(WasTerminated, p)])
    {
      hide Net, Step;
      StepKeepsPool(Db(), MarkTerminated(p));
      if p in pilots {
        EmptyMeansNone(Db(), p);
      }
      TerminateRow(p);
      return p in pilots && pilots[p].reserved == 0;
    }

    method TerminateRow(p: nat)
      modifies this
      ensures Db() == Step(old(Db()), MarkTerminated(p)) && reservations == old(reservations)
        && pilots.Keys == old(pilots.Keys)
      ensures p in pilots ==> pilots[p].reserved == old(pilots)[p].reserved
      ensures Db() == if p !in old(pilots) || old(pilots)[p].reserved != 0 then old(Db()) else
        Pool(old(pilots)[p := old(pilots)[p].(state := Terminated)], old(reservations), old(events)
          + [Event(WasTerminated, p)])
    {
      if p !in pilots || pilots[p].reserved != 0 {
        return;
      }
      pilots := pilots[p := pilots[p].(state := Terminated)];
      RecordEvent(p, WasTerminated);
    }
  }

  /** The rows judged so far, and those the query returned that are still to come. */
  ghost predicate Remaining(pool: Pool, profile: Profile, order: seq<nat>, rest: set<nat>) {
    && (forall i, j :: 0 <= i < j < |order| ==> order[i] != order[j])
    && (forall p :: p in order || p in rest <==> p in pool.pilots && Selected(pool.pilots[p], profile))
    && (forall p :: p in order ==> p !in rest)
  }

  lemma AllRemain(pool: Pool, profile: Profile, now: int, rest: set<nat>)
    requires rest == set p | p in pool.pilots && Selected(pool.pilots[p], profile)
    ensures Remaining(pool, profile, [], rest) && Reconciled(pool, profile, now, []) == pool
  {
  }

  lemma RemainingNext(pool: Pool, profile: Profile, now: int, order: seq<nat>, rest: set<nat>, p: nat)
    requires Remaining(pool, profile, order, rest) && p in rest
    ensures Remaining(pool, profile, order + [p], rest - {p})
    ensures var done := Reconciled(pool, profile, now, order);
      p in done.pilots && Selected(done.pilots[p], profile)
        && Reconciled(pool, profile, now, order + [p]) == Step(done, Judge(p, profile, now))
  {
    hide Step, Judged, Selected;
    assert (order + [p])[..|order|] == order;
    ReconciledIs(pool, profile, now, order);
  }

  lemma NoneRemain(pool: Pool, profile: Profile, order: seq<nat>)
    requires Remaining(pool, profile, order, {})
    ensures ListsSelected(pool, profile, order)
  {
  }

  lemma SameReservations(pool: Pool, profile: Profile, now: int, order: seq<nat>)
    requires ListsSelected(pool, profile, order)
    ensures Reconciled(pool, profile, now, order).reservations == pool.reservations
  {
    ReconciledIs(pool, profile, now, order);
  }

  /** The reasons against a request that are found before any pilot is looked at. */
  lemma AllowedIff(profile: Profile, request: Request)
    ensures Ineligible(profile, request).None? <==> Allowed(profile, request)
    ensures Ineligible(profile, request) == Some(TargetMismatch) <==> request.target != profile.key.target
    ensures Ineligible(profile, request) == Some(NotAllowlisted) <==>
      request.target == profile.key.target && request.operation !in profile.operations
    ensures Ineligible(profile, request) == Some(NotPrewarmed) <==>
      request.target == profile.key.target && request.operation in profile.operations
        && request.runtime !in profile.runtimes
    ensures Ineligible(profile, request) != Some(NoReadyCapacity)
  {
  }

  /** A pilot that the query may select after it was judged is one that could serve before. */
  lemma JudgedServes(pilot: Pilot, profile: Profile, now: int)
    ensures Selected(pilot, profile) ==>
      (Usable(Judged(pilot, profile, now), profile, now) <==> CanServe(pilot, profile, now))
    ensures !Selected(pilot, profile) ==> !Usable(pilot, profile, now) && !CanServe(pilot, profile, now)
    ensures Judged(pilot, profile, now) == pilot.(state := Judged(pilot, profile, now).state)
  {
  }

  /** The query after reconciling selects the pilots that could serve before it. */
  lemma ServesIff(pool: Pool, profile: Profile, now: int, order: seq<nat>)
    requires ListsSelected(pool, profile, order)
    ensures var done := Reconciled(pool, profile, now, order);
      && done.pilots.Keys == pool.pilots.Keys
      && forall p {:trigger p in pool.pilots} :: p in pool.pilots ==>
        && (Usable(done.pilots[p], profile, now) <==> CanServe(pool.pilots[p], profile, now))
        && done.pilots[p] == pool.pilots[p].(state := done.pilots[p].state)
  {
    hide Usable, CanServe, Judged, Selected, Reconciled;
    ReconciledIs(pool, profile, now, order);
    var done := Reconciled(pool, profile, now, order);
    forall p | p in pool.pilots
      ensures (Usable(done.pilots[p], profile, now) <==> CanServe(pool.pilots[p], profile, now))
        && done.pilots[p] == pool.pilots[p].(state := done.pilots[p].state)
    {
      JudgedServes(pool.pilots[p], profile, now);
    }
  }

  /** The pilot taken is ready before and after reconciling, and no pilot that can serve comes before it. */
  lemma ChosenServes(pool: Pool, profile: Profile, now: int, order: seq<nat>, p: nat)
    requires ListsSelected(pool, profile, order) && Chosen(Reconciled(pool, profile, now, order), p, profile, now)
    ensures p in Reconciled(pool, profile, now, order).pilots
    ensures var pilot := Reconciled(pool, profile, now, order).pilots[p];
      pilot.state == Ready && pilot.reserved < pilot.capacity
    ensures p in pool.pilots && CanServe(pool.pilots[p], profile, now)
    ensures Reconciled(pool, profile, now, order).pilots[p].reserved == pool.pilots[p].reserved
    ensures forall q :: q in pool.pilots && CanServe(pool.pilots[q], profile, now) ==>
      pool.pilots[p].readyAt < pool.pilots[q].readyAt || (pool.pilots[p].readyAt == pool.pilots[q].readyAt && p <= q)
  {
    hide Reconciled, ListsSelected, CanServe;
    ServesIff(pool, profile, now, order);
    var done := Reconciled(pool, profile, now, order);
    forall q | q in pool.pilots && CanServe(pool.pilots[q], profile, now)
      ensures pool.pilots[p].readyAt < pool.pilots[q].readyAt
        || (pool.pilots[p].readyAt == pool.pilots[q].readyAt && p <= q)
    {
      assert !Earlier(done, q, p);
    }
  }

  lemma ActiveIsHeld(pool: Pool, attempt: nat)
    ensures HasActive(pool, attempt) <==>
      exists x :: x in pool.reservations && pool.reservations[x].active && pool.reservations[x].attempt == attempt
  {
  }

  /** A pilot can serve exactly under the conditions of the query and while it is not idle for too long. */
  lemma CanServeIff(pilot: Pilot, profile: Profile, now: int)
    ensures CanServe(pilot, profile, now) <==>
      && pilot.profile == profile.key && pilot.state == Ready && pilot.reserved < pilot.capacity
      && pilot.heartbeat.Some? && now - pilot.heartbeat.value <= profile.allocation.healthTimeout
      && pilot.expiresAt - now > profile.allocation.drainBeforeExpiry
      && (pilot.reserved > 0 || now - pilot.lastActivity < profile.allocation.idleTimeout)
  {
  }

  lemma TakeStep(pool: Pool, reconciled: Pool, p: nat, profile: Profile, now: int, r: nat, attempt: nat)
    requires PoolInv(reconciled) && Advances(pool, reconciled) && Chosen(reconciled, p, profile, now)
      && r !in reconciled.reservations && !HasActive(reconciled, attempt)
    ensures var a := Take(p, r, attempt, now); PoolInv(Step(reconciled, a)) && Advances(pool, Step(reconciled, a))
  {
    var a := Take(p, r, attempt, now);
    assert Lawful(reconciled, a);
    hide PoolInv, Advances, Step, Lawful;
    StepKeepsPool(reconciled, a);
    StepAdvances(reconciled, a);
    AdvancesTransitive(pool, reconciled, Step(reconciled, a));
  }

  /** A counter at zero means no active reservation at all. */
  lemma EmptyMeansNone(pool: Pool, p: nat)
    requires PoolInv(pool) && p in pool.pilots
    ensures pool.pilots[p].reserved == 0 <==>
      forall r :: r in pool.reservations && pool.reservations[r].active ==> pool.reservations[r].pilot != p
  {
    if pool.pilots[p].reserved == 0 {
      forall r | r in pool.reservations && pool.reservations[r].active ensures pool.reservations[r].pilot != p {
        assert r !in Active(pool.reservations, p);
      }
    } else {
      var r :| r in Active(pool.reservations, p);
    }
  }
}
