/** With a clock that does not go backwards, no scheduler and no inbound claim ever refuses its transaction. */
module SchedulerClocks {
  import opened Common
  import H = Heartbeat
  import A = Autonomy
  import AP = AutonomyProofs
  import Reflection
  import R = ReflectionSchedule
  import RI = ReflectionInvariant
  import RR = ReflectionRuns
  import E = Exploration
  import EI = ExplorationInvariant
  import ES = ExplorationSteps
  import ER = ExplorationRuns
  import N = Ingestion
  import NI = IngestionInvariant
  import Deduplication

  // ---- Heartbeat ----

  ghost predicate HeartbeatBy(db: A.Db, clock: Time) {
    db.state.Some? ==> db.state.value.anchorAt <= clock
  }

  lemma HeartbeatEnsures(db: A.Db, clock: Time, now: Time, spare: Id)
    requires A.Inv(db) && HeartbeatBy(db, clock) && clock <= now && spare !in db.wakes
    ensures A.Ensure(db, now, spare).Ok?
    ensures A.Inv(A.Ensure(db, now, spare).value) && HeartbeatBy(A.Ensure(db, now, spare).value, now)
    ensures A.Ensure(db, now, spare).value.cycles == db.cycles
  {
    hide A.Inv, A.Accepted, A.Desired, A.SnapshotOf, A.HasActive, H.Policy.Clamp, H.Policy.Least;
    AP.EnsureKeepsInv(db, now, spare);
  }

  lemma HeartbeatFinishes(db: A.Db, c: Id, failed: bool, activity: bool, clock: Time, now: Time, spare: Id)
    requires A.Inv(db) && HeartbeatBy(db, clock) && clock <= now && A.IsActive(db.cycles, c) && spare !in db.wakes
    ensures var r := A.Outcome(A.Closed(db, c, failed, activity, now), c, now, spare);
      && r.Ok? && A.Inv(r.value) && HeartbeatBy(r.value, now)
      && r.value.cycles == A.Closed(db, c, failed, activity, now).cycles
      && (A.Governing(db).Some? ==> A.CountOf(r.value.events, c) == 1)
  {
    var closed := A.Closed(db, c, failed, activity, now);
    AP.ClosedSettles(db, c, failed, activity, now);
    assert spare !in closed.wakes;
    AP.OutcomeKeeps(closed, c, now, spare);
    AP.FinishKeepsInv(db, c, failed, activity, now, spare);
    HeartbeatAccounted(closed, c, now, spare);
    hide A.Inv, AP.Settled, A.Outcome;
  }

  lemma HeartbeatAccounted(db: A.Db, c: Id, now: Time, spare: Id)
    requires A.Outcome(db, c, now, spare).Ok?
    ensures var after := A.Outcome(db, c, now, spare).value;
      after.cycles == db.cycles && (after.state == db.state || (after.state.Some? && after.state.value.anchorAt == now))
  {
    hide A.Accepted, A.Desired, A.SnapshotOf, A.HasActive, A.Accounted, A.Governing, H.Policy.NextInterval, A.IsAutonomous;
  }

  // ---- Reflection ----

  ghost predicate ReviewsBy(db: R.Db, clock: Time) {
    && (forall w :: w in db.batches ==> db.batches[w].selectedAt <= clock)
    && (forall c :: c in db.cycles && db.cycles[c].completedAt.Some? ==> db.cycles[c].completedAt.value <= clock)
    && (db.state.Some? && db.state.value.lastCycle.None? ==> db.state.value.nextReview <= clock)
  }

  lemma ReviewsClock(db: R.Db, s: R.State, clock: Time, now: Time)
    requires ReviewsBy(db, clock) && clock <= now && db.state == Some(s)
    ensures R.ClockOk(db, s, now)
  {
  }

  lemma ReleasedBy(db: R.Db, s: R.State, clock: Time, now: Time)
    requires ReviewsBy(db, clock) && clock <= now && db.state == Some(s) && (s.managed.Some? ==> s.managed.value in db.wakes)
    ensures var after := R.Release(db, s, now);
      && ReviewsBy(after, now) && ReviewsBy(after.(state := Some(s.(managed := None, pending := false))), now)
      && after.cycles == db.cycles && after.batches == db.batches && after.state == Some(s.(managed := None))
  {
  }

  lemma ScheduledBy(db: R.Db, s: R.State, due: Time, now: Time, spare: Id, selected: seq<Reflection.Candidate>)
    requires ReviewsBy(db, now) && db.state == Some(s.(managed := None))
    ensures var after := R.Schedule(db, s, due, now, spare, selected); ReviewsBy(after, now) && after.cycles == db.cycles && after.state.Some?
  {
    hide R.NextQuery;
  }

  lemma ReconciledBy(db: R.Db, s: R.State, clock: Time, now: Time, spare: Id, selected: seq<Reflection.Candidate>)
    requires ReviewsBy(db, clock) && clock <= now && db.state == Some(s) && (s.managed.Some? ==> s.managed.value in db.wakes)
    requires R.Reconcile(db, s, now, spare, selected).Ok?
    ensures var after := R.Reconcile(db, s, now, spare, selected).value.db;
      ReviewsBy(after, now) && after.cycles == db.cycles && after.state.Some?
  {
    ReleasedBy(db, s, clock, now);
    assert ReviewsBy(db, now);
    hide ReviewsBy, R.Stands, R.NextQuery, R.Earliest, R.Release, R.Schedule;
    if R.NextDue(db.rows, s, now).Some? {
      ScheduledBy(R.Release(db, s, now), s, R.NextDue(db.rows, s, now).value, now, spare, selected);
    }
  }

  lemma ReviewsEnsure(db: R.Db, clock: Time, now: Time, spare: Id, selected: seq<Reflection.Candidate>)
    requires RI.Inv(db) && ReviewsBy(db, clock) && clock <= now && R.NewId(db, spare)
    requires R.Selects(db.rows, if db.state.Some? then db.state.value else R.Fresh(now), now, selected)
    ensures var r := R.Ensure(db, now, spare, selected);
      r.Ok? && RI.Inv(r.value) && ReviewsBy(r.value, now) && r.value.cycles == db.cycles
  {
    hide RI.Inv, R.Validated, R.Selects, R.Reconcile, R.NewId, R.Earliest, R.HasActive;
    RR.EnsureKeepsInv(db, now, spare, selected);
    RI.ManagedStored(db);
    if db.state.Some? {
      RR.EnsureStored(db, now, spare, selected);
      ReviewsClock(db, db.state.value, clock, now);
      hide R.ClockOk;
      ReconciledBy(db, db.state.value, clock, now, spare, selected);
    } else {
      RR.EnsureFirst(db, now, spare, selected);
      RR.FirstReconcile(db, now, spare, selected);
      assert ReviewsBy(db.(state := Some(R.Fresh(now))), now);
      ReconciledBy(db.(state := Some(R.Fresh(now))), R.Fresh(now), now, now, spare, selected);
    }
  }

  lemma RecordedBy(db: R.Db, c: Id, failed: bool, clock: Time, now: Time)
    requires ReviewsBy(db, clock) && clock <= now && c in db.cycles
    requires db.state.Some? && db.state.value.managed.Some? && db.state.value.managed.value in db.batches
    ensures ReviewsBy(RR.Recorded(db, c, failed, now), now)
    ensures RR.Recorded(db, c, failed, now).cycles == R.Closed(db, c, failed, now).cycles
  {
    hide R.AdvanceOver, R.Cadence;
  }

  lemma ReviewFinishes(db: R.Db, c: Id, failed: bool, clock: Time, now: Time, spare: Id, selected: seq<Reflection.Candidate>, w: Id)
    requires RI.Inv(db) && ReviewsBy(db, clock) && clock <= now && R.IsActive(db.cycles, c) && w in db.cycles[c].members
    requires R.NewId(db, spare) && R.SelectsNext(db, c, now, selected)
    ensures var r := R.Outcome(R.Closed(db, c, failed, now), c, now, spare, selected);
      r.Ok? && ReviewsBy(r.value, now) && r.value.cycles == R.Closed(db, c, failed, now).cycles
  {
    RR.FinishingMember(db, c, w);
    var closed := R.Closed(db, c, failed, now);
    FinishingClock(db, c, failed, clock, now, w);
    RR.ClosedAccepted(db, c, failed, now, w);
    RR.RecordedInv(db, c, failed, now, w);
    RR.RecordedFrame(db, c, failed, now, spare, selected);
    RecordedBy(db, c, failed, clock, now);
    var recorded := RR.Recorded(db, c, failed, now);
    RI.ReconcileKeepsInv(recorded, recorded.state.value, now, spare, selected);
    ReconciledBy(recorded, recorded.state.value, now, now, spare, selected);
    OutcomeInTime(closed, c, now, spare, selected, w);
    assert recorded == closed.(events := closed.events + [R.CompletedEvent(w, c, now)],
                               state := Some(R.Completing(closed.state.value, c, closed.batches[w].selected, now)));
    hide RI.Inv, R.Outcome, R.Reconcile, R.ClockOk, R.Validated, ReviewsBy;
  }

  lemma FinishingClock(db: R.Db, c: Id, failed: bool, clock: Time, now: Time, w: Id)
    requires ReviewsBy(db, clock) && clock <= now && c in db.cycles && db.state.Some? && db.state.value.managed == Some(w)
    ensures R.ClockOk(R.Closed(db, c, failed, now), db.state.value, now)
  {
  }

  lemma OutcomeInTime(db: R.Db, c: Id, now: Time, spare: Id, selected: seq<Reflection.Candidate>, w: Id)
    requires R.Validated(db, true) && c in db.cycles && db.cycles[c].status != R.Active && db.cycles[c].completedAt == Some(now)
    requires db.cycles[c].members == {w} && db.state.Some? && db.state.value.managed == Some(w)
    requires w in db.wakes && w in db.batches && db.wakes[w].status == R.Consumed && db.wakes[w].consumedAt == Some(now)
    requires forall e :: e in db.events && e.CompletedEvent? ==> e.cycle != c
    requires R.ClockOk(db, db.state.value, now)
    ensures var s := R.Completing(db.state.value, c, db.batches[w].selected, now);
      var recorded := db.(events := db.events + [R.CompletedEvent(w, c, now)], state := Some(s));
      R.Outcome(db, c, now, spare, selected) ==
        if db.allowed && db.configured && !R.HasActive(db.cycles)
        then (match R.Reconcile(recorded, s, now, spare, selected) case Err(e) => Err(e) case Ok(r) => Ok(r.db))
        else Ok(recorded)
  {
    hide R.Validated, R.ClockOk, R.HasActive, R.Reconcile, R.Completing;
  }

  lemma ReviewsFinish(db: R.Db, c: Id, failed: bool, clock: Time, now: Time, spare: Id, selected: seq<Reflection.Candidate>)
    requires RI.Inv(db) && ReviewsBy(db, clock) && clock <= now && R.IsActive(db.cycles, c)
    requires R.NewId(db, spare) && R.SelectsNext(db, c, now, selected)
    ensures var r := R.Outcome(R.Closed(db, c, failed, now), c, now, spare, selected);
      r.Ok? && RI.Inv(r.value) && ReviewsBy(r.value, now) && r.value.cycles == R.Closed(db, c, failed, now).cycles
  {
    hide RI.Inv, R.Outcome, ReviewsBy, R.NewId, R.SelectsNext, R.Closed;
    if w :| w in db.cycles[c].members {
      RR.FinishKeepsInv(db, c, failed, now, spare, selected);
      ReviewFinishes(db, c, failed, clock, now, spare, selected, w);
    } else {
      OthersFinish(db, c, failed, clock, now, spare, selected);
    }
  }

  lemma OthersFinish(db: R.Db, c: Id, failed: bool, clock: Time, now: Time, spare: Id, selected: seq<Reflection.Candidate>)
    requires RI.Inv(db) && ReviewsBy(db, clock) && clock <= now && R.IsActive(db.cycles, c) && db.cycles[c].members == {}
    requires R.NewId(db, spare) && R.SelectsNext(db, c, now, selected)
    ensures var r := R.Outcome(R.Closed(db, c, failed, now), c, now, spare, selected);
      r.Ok? && RI.Inv(r.value) && ReviewsBy(r.value, now) && r.value.cycles == R.Closed(db, c, failed, now).cycles
  {
    hide RI.Inv, R.Outcome, R.NewId, R.SelectsNext;
    RR.FinishKeepsInv(db, c, failed, now, spare, selected);
    RR.FinishEmptyKeepsInv(db, c, failed, now, spare, selected);
  }

  // ---- Exploration ----

  ghost predicate AllowancesBy(db: E.Db, clock: Time) {
    && (forall i :: 0 <= i < |db.events| ==> db.events[i].at <= clock)
    && (forall w :: w in db.grants ==> db.grants[w].createdAt <= clock)
    && (forall c :: c in db.cycles ==> db.cycles[c].startedAt <= clock)
    && (db.state.Some? && db.state.value.lastOutcome.None? ==> db.state.value.nextEligible <= clock)
  }

  lemma AllowancesClock(db: E.Db, s: E.State, clock: Time, now: Time)
    requires AllowancesBy(db, clock) && clock <= now && db.state == Some(s)
    ensures E.ClockOk(db, s, now)
  {
  }

  lemma MaterializedBy(db: E.Db, s: E.State, clock: Time, now: Time, enabled: bool, spare: Id)
    requires AllowancesBy(db, clock) && clock <= now && db.state == Some(s) && (s.managed.Some? ==> s.managed.value in db.wakes)
    ensures var after := E.Materialize(db, s, now, enabled, spare);
      AllowancesBy(after, now) && after.cycles == db.cycles
  {
    hide E.Release, E.Schedule, AllowancesBy;
    AllowancesLater(db, clock, now);
    var released := if s.managed.Some? then E.Release(db, s, now) else db;
    if s.managed.Some? {
      AllowanceReleased(db, s, now);
    }
    AllowanceScheduled(released, released.state.value, now, spare);
  }

  lemma AllowanceReleased(db: E.Db, s: E.State, now: Time)
    requires AllowancesBy(db, now) && db.state == Some(s) && s.managed.Some? && s.managed.value in db.wakes
    ensures var after := E.Release(db, s, now);
      AllowancesBy(after, now) && after.cycles == db.cycles && after.state.Some?
  {
    hide E.Cadence, E.CancelledBefore;
  }

  lemma AllowanceScheduled(db: E.Db, s: E.State, now: Time, spare: Id)
    requires AllowancesBy(db, now) && db.state == Some(s)
    ensures var after := E.Schedule(db, s, now, spare); AllowancesBy(after, now) && after.cycles == db.cycles
    ensures AllowancesBy(db.(state := Some(s.(pending := false))), now)
  {
  }

  lemma AllowancesEnsure(db: E.Db, clock: Time, now: Time, spare: Id)
    requires EI.Inv(db) && AllowancesBy(db, clock) && clock <= now && ES.Unused(db, spare)
    ensures var r := E.Ensure(db, now, spare);
      r.Ok? && EI.Inv(r.value) && AllowancesBy(r.value, now) && r.value.cycles == db.cycles
  {
    hide EI.Inv, E.Validated, E.Materialize, E.HasActive, E.ClockOk, ES.Unused, AllowancesBy;
    ES.EnsureKeepsInv(db, now, spare);
    if db.state.Some? {
      ES.PointerStored(db);
      AllowancesClock(db, db.state.value, clock, now);
      MaterializedBy(db, db.state.value, clock, now, db.policy == E.EnabledPolicy, spare);
    } else {
      FirstAllowance(db, clock, now, spare);
    }
    AllowancesLater(db, clock, now);
  }

  lemma AllowancesLater(db: E.Db, clock: Time, now: Time)
    requires AllowancesBy(db, clock) && clock <= now
    ensures AllowancesBy(db, now)
  {
  }

  lemma FirstAllowance(db: E.Db, clock: Time, now: Time, spare: Id)
    requires AllowancesBy(db, clock) && clock <= now && db.state.None?
    ensures var after := E.Materialize(db, E.State(now, None, None, None, true, 1), now, db.policy == E.EnabledPolicy, spare);
      AllowancesBy(after, now) && after.cycles == db.cycles
  {
    var s := E.State(now, None, None, None, true, 1);
    var initialized := db.(state := Some(s));
    assert AllowancesBy(initialized, now);
    MaterializedBy(initialized, s, now, now, db.policy == E.EnabledPolicy, spare);
    assert E.Materialize(initialized, s, now, db.policy == E.EnabledPolicy, spare) == E.Materialize(db, s, now, db.policy == E.EnabledPolicy, spare);
    hide AllowancesBy;
  }

  lemma AllowanceFinishes(db: E.Db, c: Id, failed: bool, clock: Time, now: Time, spare: Id, w: Id)
    requires EI.Inv(db) && AllowancesBy(db, clock) && clock <= now && E.IsActive(db.cycles, c) && w in db.cycles[c].members
    requires ES.Unused(db, spare)
    ensures var r := E.Outcome(E.Closed(db, c, failed, now), c, now, spare);
      r.Ok? && AllowancesBy(r.value, now) && r.value.cycles == E.Closed(db, c, failed, now).cycles
  {
    hide EI.Inv, E.Outcome, E.Materialize, E.Cadence, E.ClockOk, AllowancesBy;
    ES.FinishOutcome(db, c, failed, now, spare, w);
    AllowancesClock(db, db.state.value, clock, now);
    ES.FinishingMember(db, c, w);
    var closed := E.Closed(db, c, failed, now);
    var recorded := ES.Recorded(closed, db.state.value, c, w, now);
    AllowanceRecorded(db, c, failed, clock, now, w);
    assert w in closed.wakes;
    MaterializedBy(recorded, recorded.state.value, now, now, db.policy == E.EnabledPolicy, spare);
  }

  lemma AllowanceRecorded(db: E.Db, c: Id, failed: bool, clock: Time, now: Time, w: Id)
    requires AllowancesBy(db, clock) && clock <= now && c in db.cycles && db.state.Some?
    ensures AllowancesBy(ES.Recorded(E.Closed(db, c, failed, now), db.state.value, c, w, now), now)
  {
    hide E.Cadence;
    ClosedBy(db, c, failed, clock, now);
  }

  lemma AllowancesFinish(db: E.Db, c: Id, failed: bool, clock: Time, now: Time, spare: Id)
    requires EI.Inv(db) && AllowancesBy(db, clock) && clock <= now <= H.MAX_TIME && E.IsActive(db.cycles, c) && ES.Unused(db, spare)
    ensures var r := E.Outcome(E.Closed(db, c, failed, now), c, now, spare);
      r.Ok? && EI.Inv(r.value) && AllowancesBy(r.value, now) && r.value.cycles == E.Closed(db, c, failed, now).cycles
  {
    hide EI.Inv, E.Outcome, AllowancesBy, E.Closed;
    StartedBefore(db, clock, c);
    ES.FinishKeepsInv(db, c, failed, now, spare);
    EnabledFinish(db, c, failed, now, spare);
    if w :| w in db.cycles[c].members {
      AllowanceFinishes(db, c, failed, clock, now, spare, w);
    } else {
      ER.OrdinaryFinishKeepsState(db, c, failed, now, spare);
      ClosedBy(db, c, failed, clock, now);
    }
  }

  lemma StartedBefore(db: E.Db, clock: Time, c: Id)
    requires AllowancesBy(db, clock) && c in db.cycles
    ensures db.cycles[c].startedAt <= clock
  {
  }

  lemma EnabledFinish(db: E.Db, c: Id, failed: bool, now: Time, spare: Id)
    requires E.Enabled(db, E.Finish(c, failed, now, spare))
    ensures var r := E.Outcome(E.Closed(db, c, failed, now), c, now, spare);
      r.Ok? ==> E.Step(db, E.Finish(c, failed, now, spare)) == r.value
  {
    hide E.Outcome, E.Closed;
  }

  lemma ClosedBy(db: E.Db, c: Id, failed: bool, clock: Time, now: Time)
    requires AllowancesBy(db, clock) && clock <= now && c in db.cycles
    ensures AllowancesBy(E.Closed(db, c, failed, now), now)
  {
  }

  // ---- Inbound groups ----

  ghost predicate SealedBy(groups: map<Id, N.Group>, clock: Time) {
    forall w :: w in groups && groups[w].sealedAt.Some? ==> groups[w].sealedAt.value <= clock
  }

  ghost predicate InboundBy(s: N.Source, clock: Time) {
    && s.binding.updatedAt <= clock
    && SealedBy(s.groups, clock)
    && (forall c :: c in s.cycles ==> s.cycles[c].startedAt <= clock)
  }

  /** A pending group can always be claimed. */
  lemma InboundClaims(s: N.Source, w: Id, c: Id, clock: Time, now: Time)
    requires NI.Inv(s) && InboundBy(s, clock) && clock <= now && N.Enabled(s, N.ClaimGroup(w, c, now))
    requires w in s.groups && s.groups[w].stage == N.Pending
    ensures N.Claim(s, w, c, now).Ok?
    ensures NI.Inv(N.Claim(s, w, c, now).value) && InboundBy(N.Claim(s, w, c, now).value, now)
    ensures N.Claim(s, w, c, now).value.cycles == s.cycles[c := N.CycleRow(now, None)]
  {
    hide NI.Inv, N.GroupValid, N.Enabled;
    NI.ClaimKeepsInv(s, w, c, now);
    CreatedBefore(s, w);
  }

  lemma CreatedBefore(s: N.Source, w: Id)
    requires NI.Inv(s) && w in s.groups
    ensures s.groups[w].createdAt <= s.binding.updatedAt
  {
    hide NI.ChainOk, NI.CountsOk, NI.GroupsOk, NI.OrderOk, NI.IsolatedOk, NI.Identities, N.StoredItems, Deduplication.KeysDistinct;
  }

  lemma InboundFinishes(s: N.Source, c: Id, clock: Time, now: Time)
    requires NI.Inv(s) && InboundBy(s, clock) && clock <= now && c in s.cycles
    ensures NI.Inv(N.Finish(s, c, now)) && InboundBy(N.Finish(s, c, now), now)
  {
    hide NI.Inv;
    NI.FinishKeepsInv(s, c, now);
  }

  lemma PlaceBy(d: N.Draft, item: Deduplication.Item, k: nat, names: N.Names, observedAt: Time, now: Time)
    requires k < |names.events| && k < |names.wakes| && k < |names.markers| && N.PendingStored(d)
    requires SealedBy(d.groups, now)
    ensures SealedBy(N.Place(d, item, k, names, observedAt, now).groups, now)
  {
  }

  lemma {:induction false} PlacedBy(d: N.Draft, items: seq<Deduplication.Item>, names: N.Names, observedAt: Time, now: Time)
    requires N.PendingStored(d) && |items| <= |names.events| && |items| <= |names.wakes| && |items| <= |names.markers|
    requires SealedBy(d.groups, now)
    ensures SealedBy(N.PlaceAll(d, items, names, observedAt, now).groups, now)
  {
    if items != [] {
      var n := |items| - 1;
      PlacedBy(d, items[..n], names, observedAt, now);
      var before := N.PlaceAll(d, items[..n], names, observedAt, now);
      PlaceBy(before, items[n], n, names, observedAt, now);
    }
  }

  /** Ingesting a page or changing enablement at `now`. */
  lemma InboundStepBy(s: N.Source, a: N.Action, clock: Time)
    requires NI.Inv(s) && InboundBy(s, clock) && clock <= a.now && (a.PersistPage? || a.Enable?)
    ensures NI.Inv(N.Step(s, a)) && InboundBy(N.Step(s, a), a.now) && N.Step(s, a).cycles == s.cycles
  {
    hide NI.Inv, N.PlaceAll, N.Fresh, N.StoredItems, N.Persist;
    NI.StepKeepsInv(s, a);
    if a.PersistPage? && N.Enabled(s, a) {
      PersistedBy(s, a, clock);
    }
  }

  lemma PersistedBy(s: N.Source, a: N.Action, clock: Time)
    requires InboundBy(s, clock) && a.PersistPage? && clock <= a.now && N.Enabled(s, a)
    ensures InboundBy(N.Step(s, a), a.now) && N.Step(s, a).cycles == s.cycles
  {
    hide N.PlaceAll, N.StoredItems, N.CheckpointAgrees, N.OpenAgrees;
    var known := Deduplication.Known(N.StoredItems(s.observations));
    hide Deduplication.Known;
    match Deduplication.Screen(known, a.page.items)
    case Conflict =>
    case Screened(items, _, _) =>
      if N.Admission(s, a.epoch, a.snapshot, a.page, a.now).None? && |items| <= |a.page.items| {
        PlacedBy(N.Draft(s.observations, s.groups, s.creation, s.binding.pendingWake), items, a.names, a.page.observedAt, a.now);
      }
  }
}
