/** What exploration promises over whole runs: one at a time, one outcome each, never within a week. */
module ExplorationRuns {
  import opened Common
  import H = Heartbeat
  import opened Exploration
  import opened ExplorationInvariant
  import opened ExplorationSteps

  /** At most one allowance is live, and it is the one the state points to. */
  lemma OneLiveAllowance(actions: seq<Action>, v: Id, w: Id)
    requires Live(Run(EMPTY, actions).wakes, v) && Live(Run(EMPTY, actions).wakes, w)
    ensures v == w && ManagedOf(Run(EMPTY, actions)) == Some(v)
  {
    RunKeepsInv(actions);
    hide Run, GrantsOk, CountsOk, LinksOk, SpacedOk, AlternateOk, AccountedOk, LatestOutcome, LatestCompletion;
  }

  lemma {:induction false} TwoOutcomes(events: seq<Event>, w: Id, i: nat, j: nat)
    requires i < j < |events| && IsOutcome(events[i]) && IsOutcome(events[j]) && events[i].wake == w && events[j].wake == w
    ensures OutcomesOf(events, w) >= 2
  {
    var n := |events| - 1;
    if j < n {
      TwoOutcomes(events[..n], w, i, j);
    } else {
      SomeOutcome(events[..n], w, i);
    }
  }

  lemma {:induction false} SomeOutcome(events: seq<Event>, w: Id, i: nat)
    requires i < |events| && IsOutcome(events[i]) && events[i].wake == w
    ensures OutcomesOf(events, w) >= 1
  {
    if i < |events| - 1 {
      SomeOutcome(events[..|events| - 1], w, i);
    }
  }

  /** A consumed allowance has one outcome, the completion of its cycle; a released cancelled one has one cancellation. */
  lemma ExactlyOneOutcome(actions: seq<Action>, w: Id)
    requires w in Run(EMPTY, actions).wakes
    ensures var db := Run(EMPTY, actions);
      && (db.wakes[w].status == Consumed ==>
            && OutcomesOf(db.events, w) == 1 && db.wakes[w].cycle.Some? && db.wakes[w].consumedAt.Some?
            && CompletedEvent(w, db.wakes[w].cycle.value, db.wakes[w].consumedAt.value) in db.events)
      && (db.wakes[w].status in {Cancelled, Superseded} && ManagedOf(db) != Some(w) ==> OutcomesOf(db.events, w) == 1)
      && (Live(db.wakes, w) ==> OutcomesOf(db.events, w) == 0)
  {
    RunKeepsInv(actions);
    var db := Run(EMPTY, actions);
    hide Run, GrantsOk, LinksOk, SpacedOk, AlternateOk, LatestOutcome, LatestCompletion, OutcomesOf;
  }

  /** The retained validation never fires, and every exploration cycle stays within its allowance. */
  lemma NeverInvalid(actions: seq<Action>)
    ensures var db := Run(EMPTY, actions);
      && Validated(db, false)
      && forall w :: w in db.wakes && db.wakes[w].status in {Claimed, Consumed} ==>
           && w in db.grants && db.wakes[w].cycle.Some? && db.wakes[w].cycle.value in db.cycles
           && InBounds(db.cycles[db.wakes[w].cycle.value], w, db.grants[w])
  {
    RunKeepsInv(actions);
    var db := Run(EMPTY, actions);
    Accepted(db, false);
    hide Run, Validated, InBounds, GrantsOk, CountsOk, SpacedOk, AlternateOk, LatestOutcome, LatestCompletion;
    forall w | w in db.wakes && db.wakes[w].status in {Claimed, Consumed}
      ensures LinkOk(db.wakes[w], w, db.grants, db.cycles)
    {
    }
  }

  predicate ScheduledAt(events: seq<Event>, w: Id, j: nat) {
    j < |events| && events[j].Scheduled? && events[j].wake == w
  }

  /**
   * Whenever a cycle starts, in any run, a week has passed since every outcome recorded so far,
   * or time has reached its end.
   */
  lemma CadenceHolds(actions: seq<Action>, start: Action, i: nat)
    requires start.StartExploration? && Enabled(Run(EMPTY, actions), start)
    requires i < |Run(EMPTY, actions).events| && IsOutcome(Run(EMPTY, actions).events[i])
    requires Run(EMPTY, actions).events[i].at <= H.MAX_TIME
    ensures start.now >= Min(H.MAX_TIME, Run(EMPTY, actions).events[i].at + CADENCE_SECONDS * H.SECOND)
    ensures Step(Run(EMPTY, actions), start).cycles[start.cycle].startedAt == start.now
  {
    RunKeepsInv(actions);
    var db := Run(EMPTY, actions);
    hide Run, GrantsOk, CountsOk, LinksOk, AlternateOk, AccountedOk, LatestOutcome, LatestCompletion, Cadence;
    assert Live(db.wakes, db.state.value.managed.value);
    CadenceIs(db.events[i].at);
  }

  /** A cycle never starts within a week of any outcome recorded before its allowance was scheduled. */
  lemma CadenceAfterScheduling(actions: seq<Action>, w: Id, i: nat, j: nat)
    requires var db := Run(EMPTY, actions);
      && w in db.wakes && db.wakes[w].status in {Claimed, Consumed}
      && ScheduledAt(db.events, w, j) && i < j && IsOutcome(db.events[i]) && db.events[i].at <= H.MAX_TIME
    ensures var db := Run(EMPTY, actions);
      && db.wakes[w].cycle.Some? && db.wakes[w].cycle.value in db.cycles
      && db.cycles[db.wakes[w].cycle.value].startedAt >= Min(H.MAX_TIME, db.events[i].at + CADENCE_SECONDS * H.SECOND)
  {
    NeverInvalid(actions);
    RunKeepsInv(actions);
    var db := Run(EMPTY, actions);
    hide Run, Validated, GrantsOk, CountsOk, LinksOk, SpacedOk, AlternateOk, AnchorsOk, AccountedOk, Cadence;
    WaitsForCadence(EligibleOf(db), db.grants, db.events, i, j);
    CadenceIs(db.events[i].at);
  }

  lemma WaitsForCadence(eligible: Option<Time>, grants: map<Id, Grant>, events: seq<Event>, i: nat, j: nat)
    requires SpacedOk(eligible, grants, events) && i < j < |events| && IsOutcome(events[i]) && events[j].Scheduled?
    ensures events[j].wake in grants && grants[events[j].wake].notBefore >= Cadence(events[i].at)
  {
    hide Cadence;
    assert Scheduling(events[j], grants, events[i].at);
  }

  /** Two exploration cycles in a row: the later starts at least a week after the earlier one ended. */
  lemma AWeekBetweenCycles(actions: seq<Action>, v: Id, w: Id, i: nat, j: nat)
    requires var db := Run(EMPTY, actions);
      && v in db.wakes && db.wakes[v].status == Consumed && db.wakes[v].consumedAt.Some? && db.wakes[v].consumedAt.value <= H.MAX_TIME
      && w in db.wakes && db.wakes[w].status in {Claimed, Consumed}
      && ScheduledAt(db.events, v, i) && ScheduledAt(db.events, w, j) && i < j
    ensures var db := Run(EMPTY, actions);
      && db.wakes[w].cycle.Some? && db.wakes[w].cycle.value in db.cycles
      && db.cycles[db.wakes[w].cycle.value].startedAt
           >= Min(H.MAX_TIME, db.wakes[v].consumedAt.value + CADENCE_SECONDS * H.SECOND)
  {
    var db := Run(EMPTY, actions);
    ExactlyOneOutcome(actions, v);
    var done := CompletedEvent(v, db.wakes[v].cycle.value, db.wakes[v].consumedAt.value);
    var d :| 0 <= d < |db.events| && db.events[d] == done;
    EndedBefore(actions, v, i, j, d);
    CadenceAfterScheduling(actions, w, d, j);
  }

  lemma EndedBefore(actions: seq<Action>, v: Id, i: nat, j: nat, d: nat)
    requires var db := Run(EMPTY, actions);
      && ScheduledAt(db.events, v, i) && i < j < |db.events| && db.events[j].Scheduled?
      && OutcomesOf(db.events, v) == 1 && d < |db.events| && IsOutcome(db.events[d]) && db.events[d].wake == v
    ensures d < j
  {
    RunKeepsInv(actions);
    var db := Run(EMPTY, actions);
    hide Run, GrantsOk, CountsOk, LinksOk, SpacedOk, BegunOk, AnchorsOk, AccountedOk;
    assert HasEnded(db.events, i, j);
    var k: nat :| EndsBetween(db.events, i, j, k);
    if k < d {
      TwoOutcomes(db.events, v, k, d);
    } else if d < k {
      TwoOutcomes(db.events, v, d, k);
    }
  }

  // ---- Eligibility never moves forward ----

  lemma MaterializeDefers(db: Db, s: State, now: Time, enabled: bool, spare: Id)
    requires s.managed.Some? ==> s.managed.value in db.wakes
    ensures Materialize(db, s, now, enabled, spare).state.Some?
    ensures Materialize(db, s, now, enabled, spare).state.value.nextEligible >= s.nextEligible
  {
    hide Release;
    if s.managed.Some? {
      ReleaseDefers(db, s, now);
    }
  }

  lemma ReleaseDefers(db: Db, s: State, now: Time)
    requires s.managed.Some? && s.managed.value in db.wakes
    ensures Release(db, s, now).state.Some?
    ensures Release(db, s, now).state.value.nextEligible >= s.nextEligible
  {
    hide Cadence, CancelledBefore;
  }

  lemma FinishDefers(db: Db, c: Id, failed: bool, now: Time, spare: Id, w: Id)
    requires Inv(db) && Enabled(db, Finish(c, failed, now, spare)) && w in db.cycles[c].members
    ensures var after := Step(db, Finish(c, failed, now, spare));
      db.state.Some? && after.state.Some? && db.state.value.nextEligible <= after.state.value.nextEligible
  {
    hide Inv, Outcome, Materialize, ClockOk, Cadence, Closed;
    FinishOutcome(db, c, failed, now, spare, w);
    FinishingMember(db, c, w);
    CadenceMonotone(now, now);
    EligibleBeforeStart(db, c, w);
    var recorded := Recorded(Closed(db, c, failed, now), db.state.value, c, w, now);
    PointerStays(db, c, failed, now, w);
    MaterializeDefers(recorded, recorded.state.value, now, db.policy == EnabledPolicy, spare);
  }

  lemma PointerStays(db: Db, c: Id, failed: bool, now: Time, w: Id)
    requires c in db.cycles && w in db.wakes
    ensures w in Closed(db, c, failed, now).wakes
  {
  }

  lemma EligibleBeforeStart(db: Db, c: Id, w: Id)
    requires Inv(db) && IsActive(db.cycles, c) && w in db.cycles[c].members
    ensures db.state.Some? && db.state.value.nextEligible <= db.cycles[c].startedAt
  {
    FinishingMember(db, c, w);
    hide GrantsOk, CountsOk, SpacedOk, AlternateOk, AccountedOk, LatestOutcome, LatestCompletion;
    assert LinkOk(db.wakes[w], w, db.grants, db.cycles);
    assert Live(db.wakes, w);
  }

  /** Whatever happens, cancelling included, the next eligible time never comes closer. */
  lemma EligibilityNeverAdvances(db: Db, a: Action)
    requires Inv(db) && db.state.Some?
    ensures Step(db, a).state.Some? && db.state.value.nextEligible <= Step(db, a).state.value.nextEligible
  {
    hide Inv, Outcome, Materialize, ClockOk, Validated;
    PointerStored(db);
    if Enabled(db, a) {
      match a
      case EnsureExploration(now, spare) =>
        MaterializeDefers(db, db.state.value, now, db.policy == EnabledPolicy, spare);
      case StartExploration(_, _, _, _, _) =>
      case StartOrdinary(_, _) =>
      case Finish(c, failed, now, spare) =>
        if w :| w in db.cycles[c].members {
          FinishDefers(db, c, failed, now, spare, w);
        } else {
          OrdinaryFinishKeepsState(db, c, failed, now, spare);
        }
      case Replay(c, spare) => ReplayChangesNothing(db, c, spare);
      case Withdraw(_, _) =>
      case SetPolicy(_) =>
      case SetLifecycle(_, _) =>
    }
  }

  lemma OrdinaryFinishKeepsState(db: Db, c: Id, failed: bool, now: Time, spare: Id)
    requires Inv(db) && IsActive(db.cycles, c) && db.cycles[c].members == {}
    ensures Outcome(Closed(db, c, failed, now), c, now, spare) == Ok(Closed(db, c, failed, now))
  {
    ClosedAccepted(db, c, failed, now);
    hide Validated, Inv;
  }
}
