/** Every step of the exploration protocol keeps its invariant, in any interleaving. */
module ExplorationSteps {
  import opened Common
  import H = Heartbeat
  import opened Exploration
  import opened ExplorationInvariant

  // ---- The cadence ----

  lemma CadenceIs(at: Time)
    requires at <= H.MAX_TIME
    ensures Cadence(at) == Min(H.MAX_TIME, at + CADENCE_SECONDS * H.SECOND)
  {
    H.AddSecondsIsCutOffSum(at, CADENCE_SECONDS as real);
    H.FloorOf((CADENCE_SECONDS * H.SECOND) as real, CADENCE_SECONDS * H.SECOND);
  }

  // ---- One more event ----

  lemma OutcomesAppend(events: seq<Event>, e: Event, w: Id)
    ensures OutcomesOf(events + [e], w) == OutcomesOf(events, w) + if IsOutcome(e) && e.wake == w then 1 else 0
  {
    assert (events + [e])[..|events|] == events;
  }

  lemma LatestAppend(events: seq<Event>, e: Event)
    ensures LatestOutcome(events + [e]) == if IsOutcome(e) then Some(|events|) else LatestOutcome(events)
    ensures LatestCompletion(events + [e]) == if e.CompletedEvent? then Some(|events|) else LatestCompletion(events)
  {
    assert (events + [e])[..|events|] == events;
  }

  /** Nothing recorded so far is later than a clock that is not behind the last outcome. */
  lemma ClockAfterAll(db: Db, s: State, now: Time)
    requires SpacedOk(EligibleOf(db), db.grants, db.events) && s.lastOutcome == LatestOutcome(db.events) && ClockOk(db, s, now)
    ensures forall i :: 0 <= i < |db.events| && IsOutcome(db.events[i]) ==> db.events[i].at <= now
  {
    LatestOutcomeIsLast(db.events);
  }

  lemma AppendOutcomeSpaced(events: seq<Event>, e: Event, grants: map<Id, Grant>, before: Time, after: Time)
    requires SpacedOk(Some(before), grants, events) && IsOutcome(e)
    requires forall i :: 0 <= i < |events| && IsOutcome(events[i]) ==> events[i].at <= e.at
    requires after >= Cadence(e.at) && forall i :: 0 <= i < |events| && IsOutcome(events[i]) ==> after >= Cadence(events[i].at)
    ensures SpacedOk(Some(after), grants, events + [e])
  {
    hide Cadence;
  }

  lemma StillBegun(events: seq<Event>, e: Event, k: nat)
    requires HasBegun(events, k)
    ensures HasBegun(events + [e], k)
  {
    var i :| Begins(events, k, i);
    assert Begins(events + [e], k, i);
  }

  lemma StillEnded(events: seq<Event>, e: Event, i: nat, j: nat)
    requires HasEnded(events, i, j)
    ensures HasEnded(events + [e], i, j)
  {
    var k :| EndsBetween(events, i, j, k);
    assert EndsBetween(events + [e], i, j, k);
  }

  lemma AppendKeepsBegun(events: seq<Event>, e: Event)
    requires BegunOk(events) && (IsOutcome(e) ==> exists b :: b in events && b.Scheduled? && b.wake == e.wake)
    ensures BegunOk(events + [e])
  {
    var after := events + [e];
    forall k | 0 <= k < |after| && IsOutcome(after[k])
      ensures HasBegun(after, k)
    {
      if k < |events| {
        StillBegun(events, e, k);
      } else {
        var b :| b in events && b.Scheduled? && b.wake == e.wake;
        var i :| 0 <= i < |events| && events[i] == b;
        assert Begins(after, k, i);
      }
    }
  }

  lemma AppendKeepsEnded(events: seq<Event>, e: Event)
    requires EndedOk(events)
    requires e.Scheduled? ==> forall i :: 0 <= i < |events| && events[i].Scheduled? ==> HasEnded(events + [e], i, |events|)
    ensures EndedOk(events + [e])
  {
    hide HasEnded;
    var after := events + [e];
    forall i, j | 0 <= i < j < |after| && after[i].Scheduled? && after[j].Scheduled?
      ensures HasEnded(after, i, j)
    {
      if j < |events| {
        assert HasEnded(events, i, j);
        StillEnded(events, e, i, j);
      }
    }
  }

  lemma AppendOutcomeGrants(wakes: map<Id, Wake>, grants: map<Id, Grant>, events: seq<Event>, wakes': map<Id, Wake>, e: Event)
    requires GrantsOk(wakes, grants, events) && IsOutcome(e) && e.wake in wakes
    requires wakes'.Keys == wakes.Keys && forall w :: w in wakes ==> wakes'[w].dueAt == wakes[w].dueAt
    ensures GrantsOk(wakes', grants, events + [e])
  {
  }

  // ---- Cancelling ----

  lemma CancelKeepsInv(db: Db, s: State, w: Id, now: Time)
    requires Inv(db) && db.state == Some(s) && s.managed == Some(w) && w in db.wakes && ClockOk(db, s, now)
    requires db.wakes[w].status in {Pending, Cancelled, Superseded}
    ensures Inv(Cancel(db, s, w, now)) && Cancel(db, s, w, now).state.value.managed.None?
    ensures ClockOk(Cancel(db, s, w, now), Cancel(db, s, w, now).state.value, now)
  {
    hide GrantsOk, CountsOk, LinksOk, SpacedOk, BegunOk, EndedOk, Cadence, LatestOutcome, LatestCompletion;
    hide AnchorsOk;
    var e := CancelledEvent(w, now);
    var after := Cancel(db, s, w, now);
    AppendOutcomeGrants(db.wakes, db.grants, db.events, after.wakes, e);
    CancelKeepsCounts(db, s, w, now);
    CancelKeepsLinks(db, s, w, now);
    CancelKeepsAnchors(db, s, w, now);
    CancelKeepsSpacing(db, s, w, now);
    ScheduledOnce(db, w);
    AppendKeepsBegun(db.events, e);
    AppendKeepsEnded(db.events, e);
  }

  lemma CancelKeepsAnchors(db: Db, s: State, w: Id, now: Time)
    requires AnchorsOk(db.state, db.wakes, db.grants, db.events) && db.state == Some(s) && s.managed == Some(w) && w in db.wakes
    ensures var after := Cancel(db, s, w, now); AnchorsOk(after.state, after.wakes, after.grants, after.events)
  {
    hide Cadence, LatestOutcome, LatestCompletion;
    LatestAppend(db.events, CancelledEvent(w, now));
  }

  lemma ScheduledOnce(db: Db, w: Id)
    requires GrantsOk(db.wakes, db.grants, db.events) && w in db.wakes
    ensures w in db.grants && Scheduled(w, db.grants[w].createdAt) in db.events
  {
  }

  lemma CancelKeepsSpacing(db: Db, s: State, w: Id, now: Time)
    requires SpacedOk(EligibleOf(db), db.grants, db.events) && AnchorsOk(db.state, db.wakes, db.grants, db.events)
    requires db.state == Some(s) && w in db.wakes && ClockOk(db, s, now)
    ensures var after := Cancel(db, s, w, now); SpacedOk(EligibleOf(after), after.grants, after.events)
  {
    hide Cadence, LatestOutcome, LatestCompletion;
    ClockAfterAll(db, s, now);
    AppendOutcomeSpaced(db.events, CancelledEvent(w, now), db.grants, s.nextEligible, Cancel(db, s, w, now).state.value.nextEligible);
  }

  lemma CancelKeepsCounts(db: Db, s: State, w: Id, now: Time)
    requires CountsOk(db.wakes, Some(w), db.events) && s.managed == Some(w) && w in db.wakes
    requires db.wakes[w].status in {Pending, Cancelled, Superseded}
    ensures var after := Cancel(db, s, w, now); CountsOk(after.wakes, None, after.events)
  {
    hide OutcomesOf, Cadence;
    forall x { OutcomesAppend(db.events, CancelledEvent(w, now), x); }
  }

  lemma CancelKeepsLinks(db: Db, s: State, w: Id, now: Time)
    requires LinksOk(db.wakes, db.grants, db.cycles, db.events) && w in db.wakes
    requires db.wakes[w].status in {Pending, Cancelled, Superseded}
    ensures var after := Cancel(db, s, w, now); LinksOk(after.wakes, after.grants, after.cycles, after.events)
  {
    hide Cadence, InBounds;
    var after := Cancel(db, s, w, now);
    forall x | x in after.wakes
      ensures LinkOk(after.wakes[x], x, after.grants, after.cycles)
    {
      assert LinkOk(db.wakes[x], x, db.grants, db.cycles);
    }
    forall i | 0 <= i < |after.events| && after.events[i].CompletedEvent?
      ensures Completes(after.wakes, after.events[i])
    {
      assert after.events[i] == db.events[i] && Completes(db.wakes, db.events[i]);
    }
  }

  // ---- Scheduling ----

  lemma ScheduleKeepsInv(db: Db, s: State, now: Time, spare: Id)
    requires Inv(db) && db.state == Some(s) && s.managed.None?
    requires spare !in db.wakes && spare !in db.grants && forall e :: e in db.events ==> e.wake != spare
    ensures Inv(Schedule(db, s, now, spare))
  {
    hide GrantsOk, CountsOk, LinksOk, SpacedOk, AlternateOk, Cadence, LatestOutcome, LatestCompletion;
    LatestAppend(db.events, Scheduled(spare, now));
    ScheduleKeepsGrants(db, s, now, spare);
    ScheduleKeepsCounts(db, s, now, spare);
    ScheduleKeepsLinks(db, s, now, spare);
    ScheduleKeepsSpacing(db, s, now, spare);
    ScheduleAlternates(db, now, spare);
  }

  lemma ScheduleKeepsGrants(db: Db, s: State, now: Time, spare: Id)
    requires GrantsOk(db.wakes, db.grants, db.events) && spare !in db.wakes && forall e :: e in db.events ==> e.wake != spare
    ensures var after := Schedule(db, s, now, spare); GrantsOk(after.wakes, after.grants, after.events)
  {
    var after := Schedule(db, s, now, spare);
    assert Scheduled(spare, now) in after.events;
    OnceMore(db.events, spare, now);
    forall i | 0 <= i < |after.events|
      ensures after.events[i].wake in after.wakes
    {
      assert i < |db.events| ==> db.events[i].wake in db.wakes;
    }
  }

  lemma OnceMore(events: seq<Event>, spare: Id, now: Time)
    requires forall e :: e in events ==> e.wake != spare
    requires forall i, j :: 0 <= i < j < |events| && events[i].Scheduled? && events[j].Scheduled? ==> events[i].wake != events[j].wake
    ensures var later := events + [Scheduled(spare, now)];
      forall i, j :: 0 <= i < j < |later| && later[i].Scheduled? && later[j].Scheduled? ==> later[i].wake != later[j].wake
  {
    assert forall i :: 0 <= i < |events| ==> events[i] in events;
  }

  lemma ScheduleKeepsCounts(db: Db, s: State, now: Time, spare: Id)
    requires CountsOk(db.wakes, None, db.events) && spare !in db.wakes && forall e :: e in db.events ==> e.wake != spare
    ensures var after := Schedule(db, s, now, spare); CountsOk(after.wakes, Some(spare), after.events)
  {
    forall x { OutcomesAppend(db.events, Scheduled(spare, now), x); }
    NoOutcomes(db.events, spare);
    hide OutcomesOf;
  }

  lemma {:induction false} NoOutcomes(events: seq<Event>, w: Id)
    requires forall e :: e in events ==> e.wake != w
    ensures OutcomesOf(events, w) == 0
  {
    if events != [] {
      assert events[|events| - 1] in events;
      NoOutcomes(events[..|events| - 1], w);
    }
  }

  lemma ScheduleKeepsLinks(db: Db, s: State, now: Time, spare: Id)
    requires LinksOk(db.wakes, db.grants, db.cycles, db.events) && spare !in db.wakes && spare !in db.grants
    ensures var after := Schedule(db, s, now, spare); LinksOk(after.wakes, after.grants, after.cycles, after.events)
  {
    hide InBounds;
    var after := Schedule(db, s, now, spare);
    forall x | x in after.wakes
      ensures LinkOk(after.wakes[x], x, after.grants, after.cycles)
    {
      if x != spare {
        assert LinkOk(db.wakes[x], x, db.grants, db.cycles);
      }
    }
    forall i | 0 <= i < |after.events| && after.events[i].CompletedEvent?
      ensures Completes(after.wakes, after.events[i])
    {
      assert after.events[i] == db.events[i] && Completes(db.wakes, db.events[i]);
    }
  }

  lemma ScheduleKeepsSpacing(db: Db, s: State, now: Time, spare: Id)
    requires SpacedOk(Some(s.nextEligible), db.grants, db.events) && spare !in db.grants
    ensures var after := Schedule(db, s, now, spare); SpacedOk(Some(s.nextEligible), after.grants, after.events)
  {
    hide Cadence;
    var after := Schedule(db, s, now, spare);
    forall i, j | 0 <= i < j < |after.events| && IsOutcome(after.events[i])
      ensures Scheduling(after.events[j], after.grants, after.events[i].at)
    {
      if j < |db.events| {
        assert Scheduling(db.events[j], db.grants, db.events[i].at);
      }
    }
  }

  lemma {:induction false} OutcomeExists(events: seq<Event>, w: Id)
    requires OutcomesOf(events, w) >= 1
    ensures exists k :: 0 <= k < |events| && IsOutcome(events[k]) && events[k].wake == w
  {
    var n := |events| - 1;
    if !(IsOutcome(events[n]) && events[n].wake == w) {
      OutcomeExists(events[..n], w);
      var k :| 0 <= k < n && IsOutcome(events[..n][k]) && events[..n][k].wake == w;
      assert events[k] == events[..n][k];
    }
  }

  /** Every allowance scheduled before has ended before the next one begins. */
  lemma ScheduleAlternates(db: Db, now: Time, spare: Id)
    requires AlternateOk(db.events) && GrantsOk(db.wakes, db.grants, db.events) && CountsOk(db.wakes, None, db.events)
    requires forall w: Id :: !Live(db.wakes, w)
    ensures AlternateOk(db.events + [Scheduled(spare, now)])
  {
    hide GrantsOk, CountsOk, HasBegun, HasEnded;
    var e := Scheduled(spare, now);
    forall i | 0 <= i < |db.events| && db.events[i].Scheduled?
      ensures HasEnded(db.events + [e], i, |db.events|)
    {
      EndedAfterBegin(db, e, i);
    }
    AppendKeepsBegun(db.events, e);
    AppendKeepsEnded(db.events, e);
  }

  lemma EndedAfterBegin(db: Db, e: Event, i: nat)
    requires BegunOk(db.events) && GrantsOk(db.wakes, db.grants, db.events) && CountsOk(db.wakes, None, db.events)
    requires forall w: Id :: !Live(db.wakes, w)
    requires i < |db.events| && db.events[i].Scheduled?
    ensures HasEnded(db.events + [e], i, |db.events|)
  {
    var w := db.events[i].wake;
    EndedHasOutcome(db, w, i);
    OutcomeExists(db.events, w);
    var k :| 0 <= k < |db.events| && IsOutcome(db.events[k]) && db.events[k].wake == w;
    assert HasBegun(db.events, k);
    var b :| Begins(db.events, k, b);
    SameBeginning(db, b, i);
    assert EndsBetween(db.events + [e], i, |db.events|, k);
  }

  lemma EndedHasOutcome(db: Db, w: Id, i: nat)
    requires GrantsOk(db.wakes, db.grants, db.events) && CountsOk(db.wakes, None, db.events)
    requires forall x: Id :: !Live(db.wakes, x)
    requires i < |db.events| && db.events[i].wake == w
    ensures OutcomesOf(db.events, w) == 1
  {
    hide OutcomesOf;
    assert w in db.wakes && !Live(db.wakes, w);
  }

  lemma SameBeginning(db: Db, a: nat, b: nat)
    requires GrantsOk(db.wakes, db.grants, db.events) && a < |db.events| && b < |db.events|
    requires db.events[a].Scheduled? && db.events[b].Scheduled? && db.events[a].wake == db.events[b].wake
    ensures a == b
  {
  }

  // ---- Materializing ----

  lemma CountAsExpected(db: Db, w: Id)
    requires CountsOk(db.wakes, ManagedOf(db), db.events) && w in db.wakes
    ensures OutcomesOf(db.events, w) == Expected(db.wakes[w].status, ManagedOf(db) == Some(w))
  {
  }

  lemma {:induction false} NoCancellation(events: seq<Event>, w: Id)
    requires OutcomesOf(events, w) == 0
    ensures forall e :: e in events && IsOutcome(e) ==> e.wake != w
  {
    if events != [] {
      NoCancellation(events[..|events| - 1], w);
      assert events == events[..|events| - 1] + [events[|events| - 1]];
    }
  }

  lemma ReleaseKeepsInv(db: Db, s: State, now: Time)
    requires Inv(db) && db.state == Some(s) && s.managed.Some? && s.managed.value in db.wakes && ClockOk(db, s, now)
    requires db.wakes[s.managed.value].status != Claimed
    ensures var after := Release(db, s, now);
      Inv(after) && after.state.Some? && after.state.value.managed.None? && after.wakes.Keys == db.wakes.Keys
      && after.grants == db.grants && (forall e :: e in after.events ==> e in db.events || e.wake == s.managed.value)
  {
    hide GrantsOk, CountsOk, LinksOk, SpacedOk, AlternateOk, Cadence, LatestOutcome, LatestCompletion, OutcomesOf;
    var w := s.managed.value;
    CountAsExpected(db, w);
    if db.wakes[w].status == Consumed {
      UnpointKeepsCounts(db, w);
    } else {
      NoCancellation(db.events, w);
      CancelKeepsInv(db, s, w, now);
    }
  }

  lemma UnpointKeepsCounts(db: Db, w: Id)
    requires CountsOk(db.wakes, Some(w), db.events) && w in db.wakes && db.wakes[w].status == Consumed
    ensures CountsOk(db.wakes, None, db.events)
  {
    hide OutcomesOf;
  }

  ghost predicate Unused(db: Db, spare: Id) {
    spare !in db.wakes && spare !in db.grants && forall e :: e in db.events ==> e.wake != spare
  }

  lemma SettleFlag(db: Db, s: State)
    requires Inv(db) && db.state == Some(s) && s.managed.None?
    ensures Inv(db.(state := Some(s.(pending := false))))
  {
    hide GrantsOk, CountsOk, LinksOk, SpacedOk, AlternateOk, LatestOutcome, LatestCompletion;
  }

  lemma MaterializeKeepsInv(db: Db, s: State, now: Time, enabled: bool, spare: Id)
    requires Inv(db) && db.state == Some(s) && ClockOk(db, s, now) && Unused(db, spare)
    requires s.managed.Some? ==> s.managed.value in db.wakes
    ensures Inv(Materialize(db, s, now, enabled, spare))
  {
    hide Inv, Release, Schedule, ClockOk;
    var kept := s.managed.Some? && (db.wakes[s.managed.value].status == Claimed || (db.wakes[s.managed.value].status == Pending && enabled));
    if !kept {
      if s.managed.Some? {
        ReleaseKeepsInv(db, s, now);
      }
      var released := if s.managed.Some? then Release(db, s, now) else db.(state := Some(s));
      if enabled {
        ScheduleKeepsInv(released, released.state.value, now, spare);
      } else {
        SettleFlag(released, released.state.value);
      }
    }
  }

  /** Ensuring never finds its own state invalid; it fails only for a clock behind its anchor. */
  lemma EnsureKeepsInv(db: Db, now: Time, spare: Id)
    requires Inv(db) && Unused(db, spare)
    ensures var result := Ensure(db, now, spare);
      && (result.Err? ==> result.error == ClockBeforeAnchor && db.state.Some? && !ClockOk(db, db.state.value, now))
      && (result.Ok? ==> Inv(result.value))
  {
    hide GrantsOk, CountsOk, LinksOk, SpacedOk, AlternateOk, AccountedOk, Validated, Materialize, ClockOk;
    hide LatestOutcome, LatestCompletion;
    Accepted(db, false);
    if db.state.Some? {
      if ClockOk(db, db.state.value, now) {
        MaterializeKeepsInv(db, db.state.value, now, db.policy == EnabledPolicy, spare);
      }
    } else {
      FirstState(db, now);
      var s := State(now, None, None, None, true, 1);
      MaterializeKeepsInv(db.(state := Some(s)), s, now, db.policy == EnabledPolicy, spare);
      SameMaterialize(db, s, now, db.policy == EnabledPolicy, spare);
    }
  }

  lemma SameMaterialize(db: Db, s: State, now: Time, enabled: bool, spare: Id)
    requires s.managed.None?
    ensures Materialize(db.(state := Some(s)), s, now, enabled, spare) == Materialize(db, s, now, enabled, spare)
  {
  }

  lemma FirstState(db: Db, now: Time)
    requires Inv(db) && db.state.None?
    ensures var s := State(now, None, None, None, true, 1);
      Inv(db.(state := Some(s))) && ClockOk(db.(state := Some(s)), s, now)
  {
  }

  // ---- Finishing a cycle ----

  lemma CadenceMonotone(a: Time, b: Time)
    requires a <= b <= H.MAX_TIME
    ensures b <= Cadence(b) && Cadence(a) <= Cadence(b)
  {
    CadenceIs(a);
    CadenceIs(b);
  }

  /** The allowance a finishing exploration cycle runs on: its one member, still claimed and pointed to. */
  lemma FinishingMember(db: Db, c: Id, w: Id)
    requires Inv(db) && IsActive(db.cycles, c) && w in db.cycles[c].members
    ensures w in db.wakes && db.wakes[w].status == Claimed && db.wakes[w].cycle == Some(c)
    ensures db.cycles[c].members == {w} && db.state.Some? && db.state.value.managed == Some(w)
  {
    hide GrantsOk, CountsOk, SpacedOk, AlternateOk, AccountedOk, LatestOutcome, LatestCompletion;
    assert LinkOk(db.wakes[w], w, db.grants, db.cycles);
    assert Live(db.wakes, w);
  }

  lemma ClosedKeepsLinks(db: Db, c: Id, failed: bool, now: Time)
    requires LinksOk(db.wakes, db.grants, db.cycles, db.events) && IsActive(db.cycles, c)
    ensures var after := Closed(db, c, failed, now); LinksOk(after.wakes, after.grants, after.cycles, after.events)
  {
    hide Deadline;
    var after := Closed(db, c, failed, now);
    forall x | x in after.wakes
      ensures LinkOk(after.wakes[x], x, after.grants, after.cycles)
    {
      assert LinkOk(db.wakes[x], x, db.grants, db.cycles);
    }
    forall i | 0 <= i < |after.events| && after.events[i].CompletedEvent?
      ensures Completes(after.wakes, after.events[i])
    {
      assert Completes(db.wakes, db.events[i]);
    }
    assert forall x: Id :: IsActive(after.cycles, x) ==> IsActive(db.cycles, x);
  }

  /** Between consuming the wake and accounting for it everything but the accounting itself is in place. */
  lemma ClosedAccepted(db: Db, c: Id, failed: bool, now: Time)
    requires Inv(db) && IsActive(db.cycles, c)
    ensures Validated(Closed(db, c, failed, now), true)
  {
    hide CountsOk, LinksOk, SpacedOk, AlternateOk, AccountedOk, Validated, LatestOutcome, LatestCompletion;
    var after := Closed(db, c, failed, now);
    ClosedKeepsLinks(db, c, failed, now);
    assert forall x: Id :: Live(after.wakes, x) ==> Live(db.wakes, x);
    Accepted(after, true);
  }

  /** What accounting writes for the one exploration wake of a finished cycle. */
  function Recorded(db: Db, s: State, c: Id, w: Id, now: Time): Db {
    db.(events := db.events + [CompletedEvent(w, c, now)],
        state := Some(s.(nextEligible := Cadence(now), lastTerminal := Some(c), pending := true,
                         lastOutcome := Some(|db.events|), revision := s.revision + 1)))
  }

  lemma RecordedKeepsCounts(wakes: map<Id, Wake>, wakes': map<Id, Wake>, events: seq<Event>, c: Id, w: Id, now: Time)
    requires CountsOk(wakes, Some(w), events) && w in wakes && wakes[w].status == Claimed
    requires wakes'.Keys == wakes.Keys && wakes'[w].status == Consumed && forall x :: x in wakes && x != w ==> wakes'[x] == wakes[x]
    ensures CountsOk(wakes', Some(w), events + [CompletedEvent(w, c, now)])
  {
    hide OutcomesOf;
    forall x { OutcomesAppend(events, CompletedEvent(w, c, now), x); }
  }

  lemma RecordedKeepsLinks(db: Db, c: Id, w: Id, now: Time)
    requires LinksOk(db.wakes, db.grants, db.cycles, db.events)
    requires w in db.wakes && db.wakes[w].status == Consumed && db.wakes[w].cycle == Some(c) && db.wakes[w].consumedAt == Some(now)
    ensures LinksOk(db.wakes, db.grants, db.cycles, db.events + [CompletedEvent(w, c, now)])
  {
    hide InBounds, LinkOk;
  }

  lemma RecordedKeepsSpacing(db: Db, s: State, e: Event)
    requires SpacedOk(EligibleOf(db), db.grants, db.events) && db.state == Some(s) && s.lastOutcome == LatestOutcome(db.events)
    requires ClockOk(db, s, e.at) && e.at <= H.MAX_TIME && IsOutcome(e)
    ensures SpacedOk(Some(Cadence(e.at)), db.grants, db.events + [e])
  {
    ClockAfterAll(db, s, e.at);
    forall i | 0 <= i < |db.events| && IsOutcome(db.events[i])
      ensures Cadence(e.at) >= Cadence(db.events[i].at)
    {
      CadenceMonotone(db.events[i].at, e.at);
    }
    AppendOutcomeSpaced(db.events, e, db.grants, s.nextEligible, Cadence(e.at));
  }

  lemma RecordedKeepsInv(db: Db, c: Id, failed: bool, now: Time, w: Id)
    requires Inv(db) && IsActive(db.cycles, c) && w in db.cycles[c].members && now <= H.MAX_TIME
    requires db.state.Some? && ClockOk(db, db.state.value, now)
    ensures var after := Recorded(Closed(db, c, failed, now), db.state.value, c, w, now);
      Inv(after) && ClockOk(after, after.state.value, now)
  {
    hide GrantsOk, CountsOk, LinksOk, SpacedOk, BegunOk, EndedOk, Cadence, LatestOutcome, LatestCompletion;
    FinishingMember(db, c, w);
    var s, e := db.state.value, CompletedEvent(w, c, now);
    RecordedRows(db, c, failed, now, w);
    LatestAppend(db.events, e);
    RecordedKeepsSpacing(db, s, e);
    ScheduledOnce(db, w);
    AppendKeepsBegun(db.events, e);
    AppendKeepsEnded(db.events, e);
    RecordedAccounts(db, Closed(db, c, failed, now), w, c, now);
  }

  lemma RecordedRows(db: Db, c: Id, failed: bool, now: Time, w: Id)
    requires Inv(db) && IsActive(db.cycles, c) && w in db.cycles[c].members && db.state.Some?
    ensures var after := Recorded(Closed(db, c, failed, now), db.state.value, c, w, now);
      && GrantsOk(after.wakes, after.grants, after.events)
      && CountsOk(after.wakes, ManagedOf(after), after.events)
      && LinksOk(after.wakes, after.grants, after.cycles, after.events)
  {
    hide GrantsOk, CountsOk, LinksOk, SpacedOk, AnchorsOk, AccountedOk, AlternateOk, Cadence;
    FinishingMember(db, c, w);
    var closed := Closed(db, c, failed, now);
    AppendOutcomeGrants(db.wakes, db.grants, db.events, closed.wakes, CompletedEvent(w, c, now));
    RecordedKeepsCounts(db.wakes, closed.wakes, db.events, c, w, now);
    ClosedKeepsLinks(db, c, failed, now);
    RecordedKeepsLinks(closed, c, w, now);
  }

  lemma RecordedAccounts(db: Db, closed: Db, w: Id, c: Id, now: Time)
    requires AccountedOk(db.state, db.wakes, db.events) && db.state.Some? && w in closed.wakes
    requires closed.wakes.Keys == db.wakes.Keys && forall x :: x in db.wakes && x != w ==> closed.wakes[x] == db.wakes[x]
    requires closed.wakes[w].cycle == Some(c) && closed.wakes[w].consumedAt == Some(now)
    ensures var after := Recorded(closed, db.state.value, c, w, now);
      closed.events == db.events ==> AccountedOk(after.state, closed.wakes, after.events)
  {
    hide Cadence;
  }

  lemma OrdinaryFinish(db: Db, c: Id, failed: bool, now: Time)
    requires Inv(db) && IsActive(db.cycles, c) && db.cycles[c].members == {}
    ensures Inv(Closed(db, c, failed, now))
  {
    hide GrantsOk, CountsOk, LinksOk, SpacedOk, AlternateOk, AccountedOk, LatestOutcome, LatestCompletion;
    ClosedKeepsLinks(db, c, failed, now);
    assert Closed(db, c, failed, now).wakes == db.wakes;
  }

  /** What accounting amounts to for a cycle that ran the current allowance and is not accounted yet. */
  lemma OutcomeIs(db: Db, c: Id, now: Time, spare: Id, w: Id)
    requires c in db.cycles && db.cycles[c].status != Active && db.cycles[c].completedAt == Some(now)
    requires Validated(db, true) && WithinGrant(db, c, w) && !HasActive(db.cycles)
    requires db.state.Some? && db.state.value.managed == Some(w)
    requires db.wakes[w].status == Consumed && db.wakes[w].consumedAt == Some(now)
    requires forall e :: e in db.events && e.CompletedEvent? ==> e.wake != w
    ensures var recorded := Recorded(db, db.state.value, c, w, now);
      Outcome(db, c, now, spare) ==
        if !ClockOk(db, db.state.value, now) then Err(ClockBeforeAnchor)
        else if db.allowed && db.policy != InvalidPolicy && db.configured
        then Ok(Materialize(recorded, recorded.state.value, now, db.policy == EnabledPolicy, spare))
        else Ok(recorded)
  {
    hide Validated, Materialize, ClockOk, HasActive, Cadence, GrantValid;
    assert w in db.cycles[c].members;
  }

  lemma FinishOutcome(db: Db, c: Id, failed: bool, now: Time, spare: Id, w: Id)
    requires Inv(db) && IsActive(db.cycles, c) && w in db.cycles[c].members
    ensures db.state.Some?
    ensures var closed, s := Closed(db, c, failed, now), db.state.value;
      var recorded := Recorded(closed, s, c, w, now);
      Outcome(closed, c, now, spare) ==
        if !ClockOk(db, s, now) then Err(ClockBeforeAnchor)
        else if db.allowed && db.policy != InvalidPolicy && db.configured
        then Ok(Materialize(recorded, recorded.state.value, now, db.policy == EnabledPolicy, spare))
        else Ok(recorded)
  {
    FinishingMember(db, c, w);
    ClosedAccepted(db, c, failed, now);
    FinishingIsNew(db, c, w);
    FinishingWithinGrant(db, c, failed, now, w);
    NoOtherActive(db, c, failed, now);
    var closed := Closed(db, c, failed, now);
    hide Inv, Validated, Materialize, ClockOk, HasActive, Cadence, WithinGrant, Recorded, Outcome;
    SameClock(db, closed, db.state.value, now);
    OutcomeIs(closed, c, now, spare, w);
  }

  lemma SameClock(db: Db, closed: Db, s: State, now: Time)
    requires closed.events == db.events && closed.grants == db.grants
    ensures ClockOk(closed, s, now) == ClockOk(db, s, now)
  {
  }

  lemma FinishingIsNew(db: Db, c: Id, w: Id)
    requires Inv(db) && w in db.wakes && db.wakes[w].status == Claimed
    ensures forall e :: e in db.events && e.CompletedEvent? ==> e.wake != w
  {
    hide GrantsOk, LinksOk, SpacedOk, AlternateOk, AccountedOk, AnchorsOk, OutcomesOf;
    CountAsExpected(db, w);
    NoCancellation(db.events, w);
  }

  lemma FinishingWithinGrant(db: Db, c: Id, failed: bool, now: Time, w: Id)
    requires Inv(db) && IsActive(db.cycles, c) && w in db.cycles[c].members && w in db.wakes && db.wakes[w].status == Claimed
    ensures WithinGrant(Closed(db, c, failed, now), c, w)
  {
    hide CountsOk, SpacedOk, AlternateOk, AccountedOk, LatestOutcome, LatestCompletion;
    assert LinkOk(db.wakes[w], w, db.grants, db.cycles);
  }

  lemma NoOtherActive(db: Db, c: Id, failed: bool, now: Time)
    requires LinksOk(db.wakes, db.grants, db.cycles, db.events) && IsActive(db.cycles, c)
    ensures !HasActive(Closed(db, c, failed, now).cycles)
  {
    var after := Closed(db, c, failed, now);
    forall x: Id | IsActive(after.cycles, x)
      ensures false
    {
      assert IsActive(db.cycles, x);
    }
  }

  lemma FinishKeepsInv(db: Db, c: Id, failed: bool, now: Time, spare: Id)
    requires Inv(db) && Enabled(db, Finish(c, failed, now, spare))
    ensures Inv(Step(db, Finish(c, failed, now, spare)))
  {
    hide Inv, Materialize, ClockOk;
    var closed := Closed(db, c, failed, now);
    if w :| w in db.cycles[c].members {
      FinishOutcome(db, c, failed, now, spare, w);
      if ClockOk(db, db.state.value, now) {
        RecordedKeepsInv(db, c, failed, now, w);
        var recorded := Recorded(closed, db.state.value, c, w, now);
        PointerStored(recorded);
        RecordedUnused(db, closed, c, w, now, spare);
        MaterializeKeepsInv(recorded, recorded.state.value, now, db.policy == EnabledPolicy, spare);
      }
    } else {
      OrdinaryFinish(db, c, failed, now);
      ClosedAccepted(db, c, failed, now);
    }
  }

  lemma PointerStored(db: Db)
    requires Inv(db) && db.state.Some?
    ensures db.state.value.managed.Some? ==> db.state.value.managed.value in db.wakes
  {
    hide GrantsOk, CountsOk, LinksOk, SpacedOk, AlternateOk, AccountedOk, LatestOutcome, LatestCompletion;
  }

  lemma RecordedUnused(db: Db, closed: Db, c: Id, w: Id, now: Time, spare: Id)
    requires Unused(db, spare) && db.state.Some? && w in db.wakes
    requires closed.wakes.Keys == db.wakes.Keys && closed.grants == db.grants && closed.events == db.events
    ensures Unused(Recorded(closed, db.state.value, c, w, now), spare)
  {
    hide Cadence;
  }

  // ---- The other steps ----

  lemma StartKeepsInv(db: Db, a: Action)
    requires Inv(db) && a.StartExploration? && Enabled(db, a)
    ensures Inv(Step(db, a))
  {
    hide Ensure, Outcome, Closed;
    hide IsActive;
    hide GrantsOk, LinksOk, SpacedOk, AlternateOk, LatestOutcome, LatestCompletion, OutcomesOf;
    var w := db.state.value.managed.value;
    var after := Step(db, a);
    ClaimKeepsGrants(db, w, after.wakes);
    StartKeepsLinks(db, a, w);
    assert forall x: Id :: Live(after.wakes, x) <==> Live(db.wakes, x);
  }

  lemma ClaimKeepsGrants(db: Db, w: Id, wakes: map<Id, Wake>)
    requires GrantsOk(db.wakes, db.grants, db.events)
    requires wakes.Keys == db.wakes.Keys && forall x :: x in wakes ==> wakes[x].dueAt == db.wakes[x].dueAt
    ensures GrantsOk(wakes, db.grants, db.events)
  {
  }

  lemma StartInBounds(db: Db, a: Action, w: Id)
    requires a.StartExploration? && Enabled(db, a) && db.state.value.managed == Some(w)
    ensures InBounds(Step(db, a).cycles[a.cycle], w, db.grants[w])
  {
    var span := Min(a.seconds, MAX_SECONDS);
    H.AddSecondsIsCutOffSum(a.now, MAX_SECONDS as real);
    H.FloorOf((MAX_SECONDS * H.SECOND) as real, MAX_SECONDS * H.SECOND);
  }

  lemma StartKeepsLinks(db: Db, a: Action, w: Id)
    requires LinksOk(db.wakes, db.grants, db.cycles, db.events)
    requires a.StartExploration? && Enabled(db, a) && db.state.value.managed == Some(w)
    ensures var after := Step(db, a); LinksOk(after.wakes, after.grants, after.cycles, after.events)
  {
    hide InBounds, Deadline;
    var after := Step(db, a);
    StartInBounds(db, a, w);
    assert forall x: Id :: !IsActive(db.cycles, x);
    forall x | x in after.wakes
      ensures LinkOk(after.wakes[x], x, after.grants, after.cycles)
    {
      assert LinkOk(db.wakes[x], x, db.grants, db.cycles);
    }
    forall i | 0 <= i < |after.events| && after.events[i].CompletedEvent?
      ensures Completes(after.wakes, after.events[i])
    {
      assert Completes(db.wakes, db.events[i]);
    }
  }

  lemma OrdinaryKeepsInv(db: Db, c: Id, now: Time)
    requires Inv(db) && Enabled(db, StartOrdinary(c, now))
    ensures Inv(Step(db, StartOrdinary(c, now)))
  {
    hide GrantsOk, CountsOk, SpacedOk, AlternateOk, AccountedOk, LatestOutcome, LatestCompletion, InBounds;
    var after := Step(db, StartOrdinary(c, now));
    assert forall x: Id :: !IsActive(db.cycles, x);
    forall x | x in after.wakes
      ensures LinkOk(after.wakes[x], x, after.grants, after.cycles)
    {
      assert LinkOk(db.wakes[x], x, db.grants, db.cycles);
    }
  }

  lemma WithdrawKeepsInv(db: Db, w: Id, status: WakeStatus)
    requires Inv(db) && Enabled(db, Withdraw(w, status))
    ensures Inv(Step(db, Withdraw(w, status)))
  {
    hide Ensure, Outcome, Started, ClockOk;
    hide GrantsOk, LinksOk, SpacedOk, AlternateOk, LatestOutcome, LatestCompletion, OutcomesOf;
    var after := Step(db, Withdraw(w, status));
    assert Live(db.wakes, w);
    ClaimKeepsGrants(db, w, after.wakes);
    WithdrawKeepsLinks(db, w, after.wakes);
    assert forall x: Id :: Live(after.wakes, x) ==> Live(db.wakes, x);
  }

  lemma WithdrawKeepsLinks(db: Db, w: Id, wakes: map<Id, Wake>)
    requires LinksOk(db.wakes, db.grants, db.cycles, db.events) && w in db.wakes && db.wakes[w].status == Pending
    requires wakes.Keys == db.wakes.Keys && (forall x :: x in wakes && x != w ==> wakes[x] == db.wakes[x])
    requires wakes[w].status in {Cancelled, Superseded}
    ensures LinksOk(wakes, db.grants, db.cycles, db.events)
  {
    hide InBounds;
    forall x | x in wakes
      ensures LinkOk(wakes[x], x, db.grants, db.cycles)
    {
      assert LinkOk(db.wakes[x], x, db.grants, db.cycles);
    }
    forall i | 0 <= i < |db.events| && db.events[i].CompletedEvent?
      ensures Completes(wakes, db.events[i])
    {
      assert Completes(db.wakes, db.events[i]);
    }
  }

  /** Accounting for a finished cycle again changes nothing. */
  lemma ReplayChangesNothing(db: Db, c: Id, spare: Id)
    requires Inv(db) && Enabled(db, Replay(c, spare))
    ensures Step(db, Replay(c, spare)) == db
  {
    hide GrantsOk, CountsOk, SpacedOk, AlternateOk, LatestOutcome, LatestCompletion, Materialize, Validated;
    Accepted(db, false);
    FinishingAccepted(db);
    if w :| w in db.cycles[c].members {
      assert LinkOk(db.wakes[w], w, db.grants, db.cycles);
      assert CompletedEvent(w, c, db.wakes[w].consumedAt.value) in db.events;
    }
  }

  lemma FinishingAccepted(db: Db)
    requires Validated(db, false)
    ensures Validated(db, true)
  {
    hide LiveValid, AnchorsValid, GrantValid, WithinGrant;
  }

  lemma StepKeepsInv(db: Db, a: Action)
    requires Inv(db)
    ensures Inv(Step(db, a))
  {
    hide GrantsOk, CountsOk, LinksOk, SpacedOk, AlternateOk, AccountedOk, AnchorsOk, Ensure, Outcome;
    if Enabled(db, a) {
      match a
      case EnsureExploration(now, spare) => EnsureKeepsInv(db, now, spare);
      case StartExploration(_, _, _, _, _) => StartKeepsInv(db, a);
      case StartOrdinary(c, now) => OrdinaryKeepsInv(db, c, now);
      case Finish(c, failed, now, spare) => FinishKeepsInv(db, c, failed, now, spare);
      case Replay(c, spare) => ReplayChangesNothing(db, c, spare);
      case Withdraw(w, status) => WithdrawKeepsInv(db, w, status);
      case SetPolicy(_) =>
      case SetLifecycle(_, _) =>
    }
  }

  lemma EmptyOk()
    ensures Inv(EMPTY)
  {
  }

  /** In every run, over any mix of enabling, disabling, pausing, claiming and finishing. */
  lemma {:induction false} RunKeepsInv(actions: seq<Action>)
    ensures Inv(Run(EMPTY, actions))
  {
    hide Inv, Step;
    if actions == [] {
      EmptyOk();
    } else {
      RunKeepsInv(actions[..|actions| - 1]);
      StepKeepsInv(Run(EMPTY, actions[..|actions| - 1]), actions[|actions| - 1]);
    }
  }
}
