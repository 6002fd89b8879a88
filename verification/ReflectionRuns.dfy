/** What reflection promises over whole runs: one batch at a time, one accounting each, nobody left waiting. */
module ReflectionRuns {
  import opened Common
  import H = Heartbeat
  import opened Reflection
  import opened ReflectionSchedule
  import opened ReflectionInvariant

  // ---- Ensuring ----

  lemma FirstReconcile(db: Db, now: Time, spare: Id, selected: seq<Candidate>)
    ensures Reconcile(db.(state := Some(Fresh(now))), Fresh(now), now, spare, selected) == Reconcile(db, Fresh(now), now, spare, selected)
  {
  }

  lemma AcceptedInv(db: Db)
    requires Inv(db)
    ensures Validated(db, false) && Validated(db, true)
  {
    Accepted(db, false);
    Accepted(db, true);
    hide RowsOk, BatchesOk, LinksOk, AccountedOk, StateOk, CursorsOk, Validated;
  }

  lemma EnsureStored(db: Db, now: Time, spare: Id, selected: seq<Candidate>)
    requires Inv(db) && db.state.Some? && NewId(db, spare) && Selects(db.rows, db.state.value, now, selected)
    requires db.state.value.managed.Some? ==> db.state.value.managed.value in db.wakes
    ensures Reconcile(db, db.state.value, now, spare, selected).Ok?
    ensures var after := Reconcile(db, db.state.value, now, spare, selected).value.db;
      && Inv(after) && after.state.Some?
      && Inv(after.(state := Some(after.state.value.(revision := after.state.value.revision + 1))))
  {
    hide *;
    ReconcileKeepsInv(db, db.state.value, now, spare, selected);
    RevisionKeepsInv(Reconcile(db, db.state.value, now, spare, selected).value.db);
  }

  lemma EnsureFirst(db: Db, now: Time, spare: Id, selected: seq<Candidate>)
    requires Inv(db) && db.state.None? && NewId(db, spare) && Selects(db.rows, Fresh(now), now, selected)
    ensures Fresh(now).managed.None?
    ensures Reconcile(db, Fresh(now), now, spare, selected).Ok? && Inv(Reconcile(db, Fresh(now), now, spare, selected).value.db)
  {
    var initialized := db.(state := Some(Fresh(now)));
    FreshKeepsInv(db, now);
    FirstReconcile(db, now, spare, selected);
    SameNewId(db, initialized, spare);
    hide Inv, Reconcile, Selects, NewId;
    ReconcileKeepsInv(initialized, Fresh(now), now, spare, selected);
  }

  /** Ensuring fails only for a clock behind its anchor, and keeps the rows sound. */
  lemma EnsureKeepsInv(db: Db, now: Time, spare: Id, selected: seq<Candidate>)
    requires Inv(db) && NewId(db, spare)
    requires Selects(db.rows, if db.state.Some? then db.state.value else Fresh(now), now, selected)
    ensures Ensure(db, now, spare, selected).Ok? || Ensure(db, now, spare, selected) == Err(ClockBeforeAnchor)
    ensures Inv(Kept(db, Ensure(db, now, spare, selected)))
  {
    hide Inv, Validated, Ensure, Selects, Reconcile, NewId, Fresh;
    AcceptedInv(db);
    ManagedStored(db);
    if db.state.Some? {
      EnsureStored(db, now, spare, selected);
    } else {
      EnsureFirst(db, now, spare, selected);
    }
    EnsureUnfolds(db, now, spare, selected);
  }

  lemma EnsureUnfolds(db: Db, now: Time, spare: Id, selected: seq<Candidate>)
    requires Validated(db, false)
    requires var s := if db.state.Some? then db.state.value else Fresh(now);
      && (s.managed.Some? ==> s.managed.value in db.wakes)
      && Reconcile(db, s, now, spare, selected).Ok?
    ensures var s := if db.state.Some? then db.state.value else Fresh(now);
      var r := Ensure(db, now, spare, selected);
      var after := Reconcile(db, s, now, spare, selected).value.db;
      || r == Err(ClockBeforeAnchor) || r == Ok(db) || r == Ok(after)
      || (after.state.Some? && db.state.Some? && r == Ok(after.(state := Some(after.state.value.(revision := after.state.value.revision + 1)))))
  {
    hide Validated, ClockOk, HasActive, Reconcile, Earliest, Fresh;
  }

  lemma SameNewId(db: Db, other: Db, spare: Id)
    requires NewId(db, spare) && other.wakes == db.wakes && other.events == db.events
    ensures NewId(other, spare)
  {
  }

  // ---- Claiming and finishing ----

  lemma StartedLive(db: Db, c: Id, now: Time, members: set<Id>)
    requires forall w :: w in members ==> w in db.wakes && db.wakes[w].status == Pending
    ensures forall w: Id :: Live(Started(db, c, now, members).wakes, w) <==> Live(db.wakes, w)
    ensures Started(db, c, now, members).wakes.Keys == db.wakes.Keys
  {
  }

  lemma StartKeepsLinks(db: Db, c: Id, now: Time, members: set<Id>)
    requires LinksOk(db.wakes, db.cycles) && StateOk(db.state, db.wakes, db.cycles, db.events)
    requires Enabled(db, Start(c, now, members))
    ensures var after := Started(db, c, now, members);
      LinksOk(after.wakes, after.cycles)
  {
    hide Cadence, LinkOk;
    assert forall w :: w in members ==> Live(db.wakes, w);
    var after := Started(db, c, now, members);
    forall w | w in after.wakes
      ensures LinkOk(after.wakes[w], w, after.cycles)
    {
      StartedLink(db, c, now, members, w);
    }
  }

  lemma StartedLink(db: Db, c: Id, now: Time, members: set<Id>, w: Id)
    requires LinksOk(db.wakes, db.cycles) && Enabled(db, Start(c, now, members)) && w in Started(db, c, now, members).wakes
    ensures var after := Started(db, c, now, members); LinkOk(after.wakes[w], w, after.cycles)
  {
    assert LinkOk(db.wakes[w], w, db.cycles);
  }

  lemma StartKeepsRest(db: Db, c: Id, now: Time, members: set<Id>)
    requires AccountedOk(db.wakes, db.events) && StateOk(db.state, db.wakes, db.cycles, db.events)
    requires Enabled(db, Start(c, now, members))
    ensures var after := Started(db, c, now, members);
      AccountedOk(after.wakes, db.events) && StateOk(db.state, after.wakes, after.cycles, db.events)
  {
    StartedLive(db, c, now, members);
    hide Cadence, HasCompleted, Completions;
    var after := Started(db, c, now, members);
    forall e | e in db.events
      ensures Completes(after.wakes, e)
    {
      assert Completes(db.wakes, e);
    }
  }

  lemma StartKeepsInv(db: Db, c: Id, now: Time, members: set<Id>)
    requires Inv(db) && Enabled(db, Start(c, now, members))
    ensures Inv(Started(db, c, now, members))
  {
    hide RowsOk, BatchesOk, LinksOk, AccountedOk, StateOk, CursorsOk;
    var after := Started(db, c, now, members);
    StartKeepsLinks(db, c, now, members);
    StartKeepsRest(db, c, now, members);
    StartedLive(db, c, now, members);
    FewerLiveKeepsCursors(db, after.wakes);
    SameKeysKeepBatches(db, after.wakes);
  }

  lemma NotCompleted(wakes: map<Id, Wake>, cycles: map<Id, Cycle>, events: seq<Event>, c: Id, w: Id)
    requires LinksOk(wakes, cycles) && AccountedOk(wakes, events)
    requires IsActive(cycles, c) && w in cycles[c].members
    ensures forall e :: e in events && e.CompletedEvent? ==> e.cycle != c && e.wake != w
  {
    hide HasCompleted, Completions;
    assert LinkOk(wakes[w], w, cycles);
    forall e | e in events && e.CompletedEvent?
      ensures e.cycle != c && e.wake != w
    {
      assert Completes(wakes, e);
      assert LinkOk(wakes[e.wake], e.wake, cycles);
    }
  }

  /** A finishing cycle with a batch reviewed the live, managed one. */
  lemma FinishingMember(db: Db, c: Id, w: Id)
    requires Inv(db) && IsActive(db.cycles, c) && w in db.cycles[c].members
    ensures db.cycles[c].members == {w} && w in db.wakes && w in db.batches && w in db.queries
    ensures db.wakes[w].status == Claimed && db.wakes[w].cycle == Some(c)
    ensures db.state.Some? && db.state.value.managed == Some(w)
    ensures forall e :: e in db.events && e.CompletedEvent? ==> e.cycle != c && e.wake != w
  {
    hide RowsOk, BatchesOk, AccountedOk, StateOk, CursorsOk;
    KeysOfBatches(db);
    NotCompleted(db.wakes, db.cycles, db.events, c, w);
    LiveIsManaged(db);
    assert LinkOk(db.wakes[w], w, db.cycles);
    assert Live(db.wakes, w);
  }

  lemma CloseKeepsLinks(db: Db, c: Id, failed: bool, now: Time)
    requires LinksOk(db.wakes, db.cycles) && IsActive(db.cycles, c)
    ensures var closed := Closed(db, c, failed, now);
      LinksOk(closed.wakes, closed.cycles) && closed.wakes.Keys == db.wakes.Keys
  {
    hide LinkOk;
    var closed := Closed(db, c, failed, now);
    forall w | w in closed.wakes
      ensures LinkOk(closed.wakes[w], w, closed.cycles)
    {
      ClosedLink(db, c, failed, now, w);
    }
    forall x, w | x in closed.cycles && w in closed.cycles[x].members
      ensures w in closed.wakes && closed.wakes[w].cycle == Some(x) && closed.wakes[w].status in {Claimed, Consumed}
    {
      ClosedMember(db, c, failed, now, x, w);
    }
    assert forall a :: IsActive(closed.cycles, a) ==> IsActive(db.cycles, a);
  }

  lemma ClosedLink(db: Db, c: Id, failed: bool, now: Time, w: Id)
    requires LinksOk(db.wakes, db.cycles) && IsActive(db.cycles, c) && w in Closed(db, c, failed, now).wakes
    ensures var closed := Closed(db, c, failed, now); LinkOk(closed.wakes[w], w, closed.cycles)
  {
    assert LinkOk(db.wakes[w], w, db.cycles);
  }

  lemma ClosedMember(db: Db, c: Id, failed: bool, now: Time, x: Id, w: Id)
    requires LinksOk(db.wakes, db.cycles) && IsActive(db.cycles, c)
    requires var closed := Closed(db, c, failed, now); x in closed.cycles && w in closed.cycles[x].members
    ensures var closed := Closed(db, c, failed, now);
      w in closed.wakes && closed.wakes[w].cycle == Some(x) && closed.wakes[w].status in {Claimed, Consumed}
  {
    hide LinkOk;
    assert x in db.cycles && w in db.cycles[x].members;
  }

  lemma CloseEmptyKeepsInv(db: Db, c: Id, failed: bool, now: Time)
    requires Inv(db) && IsActive(db.cycles, c) && db.cycles[c].members == {}
    ensures Inv(Closed(db, c, failed, now)) && Closed(db, c, failed, now).wakes == db.wakes
  {
    hide RowsOk, BatchesOk, LinksOk, AccountedOk, StateOk, CursorsOk;
    var closed := Closed(db, c, failed, now);
    CloseKeepsLinks(db, c, failed, now);
    assert closed.wakes == db.wakes;
    CloseKeepsState(db, c, failed, now);
  }

  lemma CloseKeepsState(db: Db, c: Id, failed: bool, now: Time)
    requires StateOk(db.state, db.wakes, db.cycles, db.events) && IsActive(db.cycles, c)
    ensures StateOk(db.state, db.wakes, Closed(db, c, failed, now).cycles, db.events)
  {
    hide Cadence;
  }

  lemma CloseKeepsAnchor(db: Db, c: Id, failed: bool, now: Time)
    requires StateOk(db.state, db.wakes, db.cycles, db.events) && IsActive(db.cycles, c) && db.state.Some?
    ensures AnchorValid(Closed(db, c, failed, now), db.state.value) && db.state.value.revision >= 1
  {
    hide Cadence;
  }

  /** The rows right after the batch's cycle has ended pass the validation for finishing. */
  lemma ClosedAccepted(db: Db, c: Id, failed: bool, now: Time, w: Id)
    requires Inv(db) && IsActive(db.cycles, c) && w in db.cycles[c].members
    ensures Validated(Closed(db, c, failed, now), true)
  {
    hide RowsOk, BatchesOk, AccountedOk, StateOk, CursorsOk, ScopeValid, AnchorValid, Live;
    var closed := Closed(db, c, failed, now);
    FinishingMember(db, c, w);
    CloseKeepsLinks(db, c, failed, now);
    SameKeysKeepBatches(db, closed.wakes);
    ScopeAccepted(closed, w);
    CloseKeepsAnchor(db, c, failed, now);
    LiveIsManaged(db);
    ClosedLive(db, c, failed, now);
    assert closed.wakes[w].status == Consumed && !Live(closed.wakes, w) by { ConsumedIsNotLive(closed.wakes, w); }
    assert LinkOk(closed.wakes[w], w, closed.cycles);
  }

  lemma ConsumedIsNotLive(wakes: map<Id, Wake>, w: Id)
    requires w in wakes && wakes[w].status == Consumed
    ensures !Live(wakes, w)
  {
  }

  lemma ClosedLive(db: Db, c: Id, failed: bool, now: Time)
    requires c in db.cycles
    ensures forall v: Id :: Live(Closed(db, c, failed, now).wakes, v) ==> Live(db.wakes, v)
  {
  }

  ghost function Recorded(db: Db, c: Id, failed: bool, now: Time): Db
    requires c in db.cycles && db.state.Some? && db.state.value.managed.Some? && db.state.value.managed.value in db.batches
  {
    var w := db.state.value.managed.value;
    var closed := Closed(db, c, failed, now);
    closed.(events := db.events + [CompletedEvent(w, c, now)],
            state := Some(Completing(db.state.value, c, db.batches[w].selected, now)))
  }

  lemma {:induction false} CompletionsIn(events: seq<Event>, w: Id)
    requires w in Completions(events)
    ensures exists e :: e in events && e.CompletedEvent? && e.wake == w
  {
    var front, last := events[..|events| - 1], events[|events| - 1];
    assert events == front + [last];
    if w in Completions(front) {
      CompletionsIn(front, w);
    } else {
      assert last in events;
    }
  }

  lemma RecordedAccounts(db: Db, c: Id, failed: bool, now: Time, w: Id)
    requires Inv(db) && IsActive(db.cycles, c) && db.cycles[c].members == {w} && w in db.wakes
    requires db.wakes[w].cycle == Some(c) && db.wakes[w].status == Claimed
    requires forall e :: e in db.events && e.CompletedEvent? ==> e.cycle != c && e.wake != w
    ensures AccountedOk(Closed(db, c, failed, now).wakes, db.events + [CompletedEvent(w, c, now)])
  {
    hide RowsOk, BatchesOk, LinksOk, StateOk, CursorsOk, HasCompleted, Completions;
    var closed, e := Closed(db, c, failed, now), CompletedEvent(w, c, now);
    var events := db.events + [e];
    CompletionsAppend(db.events, e);
    if w in Completions(db.events) {
      CompletionsIn(db.events, w);
    }
    forall x | x in events
      ensures Completes(closed.wakes, x)
    {
      if x in db.events {
        assert Completes(db.wakes, x);
      }
    }
    forall v | v in closed.wakes && closed.wakes[v].status == Consumed
      ensures HasCompleted(events, v, closed.wakes[v].cycle)
    {
      if v == w {
        CompletedNow(db.events, e);
      } else {
        CompletedInEvents(db.events, v, db.wakes[v].cycle, e);
      }
    }
  }

  lemma CompletedNow(events: seq<Event>, e: Event)
    requires e.CompletedEvent?
    ensures HasCompleted(events + [e], e.wake, Some(e.cycle))
  {
    assert e in events + [e];
  }

  lemma RecordedState(db: Db, c: Id, failed: bool, now: Time, w: Id)
    requires StateOk(db.state, db.wakes, db.cycles, db.events) && IsActive(db.cycles, c) && db.cycles[c].members == {w}
    requires w in db.wakes && db.state.Some? && db.state.value.managed == Some(w) && w in db.batches
    ensures var after := Recorded(db, c, failed, now);
      StateOk(after.state, after.wakes, after.cycles, after.events) && forall v: Id :: !Live(after.wakes, v)
  {
    hide Cadence, AdvanceOver;
    forall v: Id
      ensures !Live(Recorded(db, c, failed, now).wakes, v)
    {
      assert v != w && Live(Recorded(db, c, failed, now).wakes, v) ==> Live(db.wakes, v);
    }
  }

  lemma ChainAppend(batches: map<Id, Batch>, queries: map<Id, Query>, done: seq<Id>, w: Id)
    requires ChainOk(batches, queries, done) && w in batches && w in queries
    requires queries[w].cursors == CursorsAfter(batches, queries, done)
    ensures ChainOk(batches, queries, done + [w])
    ensures CursorsAfter(batches, queries, done + [w]) == AdvanceOver(queries[w].cursors, batches[w].selected)
  {
    hide AdvanceOver;
    var more := done + [w];
    forall i | 0 <= i < |more|
      ensures more[i] in batches && more[i] in queries && queries[more[i]].cursors == CursorsAfter(batches, queries, more[..i])
    {
      assert more[..i] == done[..i];
      assert done[..|done|] == done;
    }
  }

  lemma RecordedCursors(db: Db, c: Id, failed: bool, now: Time, w: Id)
    requires CursorsOk(db.state, db.wakes, db.batches, db.queries, db.events) && IsActive(db.cycles, c)
    requires w in db.wakes && w in db.batches && w in db.queries && db.wakes[w].status == Claimed
    requires db.state.Some? && db.state.value.managed == Some(w)
    requires forall v: Id :: !Live(Recorded(db, c, failed, now).wakes, v)
    ensures var after := Recorded(db, c, failed, now);
      CursorsOk(after.state, after.wakes, after.batches, after.queries, after.events)
  {
    assert Live(db.wakes, w);
    CompletionsAppend(db.events, CompletedEvent(w, c, now));
    ChainAppend(db.batches, db.queries, Completions(db.events), w);
    hide ChainOk, CursorsAfter, Completions, AdvanceOver, Cadence, Live;
  }

  /** A finished review is accounted in the same transaction: its cursors move on, and it stays sound. */
  lemma RecordedInv(db: Db, c: Id, failed: bool, now: Time, w: Id)
    requires Inv(db) && IsActive(db.cycles, c) && w in db.cycles[c].members
    ensures db.state.Some? && db.state.value.managed == Some(w) && w in db.batches
    ensures Inv(Recorded(db, c, failed, now))
  {
    FinishingMember(db, c, w);
    var closed := Closed(db, c, failed, now);
    CloseKeepsLinks(db, c, failed, now);
    RecordedAccounts(db, c, failed, now, w);
    RecordedState(db, c, failed, now, w);
    RecordedCursors(db, c, failed, now, w);
    EventKeepsBatches(db, CompletedEvent(w, c, now));
    SameKeysKeepBatches(db.(events := db.events + [CompletedEvent(w, c, now)]), closed.wakes);
    hide RowsOk, BatchesOk, LinksOk, AccountedOk, StateOk, CursorsOk;
  }

  lemma OutcomeUnfolds(db: Db, c: Id, now: Time, spare: Id, selected: seq<Candidate>, w: Id)
    requires Validated(db, true) && c in db.cycles && db.cycles[c].status != Active && db.cycles[c].completedAt == Some(now)
    requires db.cycles[c].members == {w} && db.state.Some? && db.state.value.managed == Some(w)
    requires w in db.wakes && w in db.batches && db.wakes[w].status == Consumed && db.wakes[w].consumedAt == Some(now)
    requires forall e :: e in db.events && e.CompletedEvent? ==> e.cycle != c
    ensures var outcome := Outcome(db, c, now, spare, selected);
      var s := Completing(db.state.value, c, db.batches[w].selected, now);
      var recorded := db.(events := db.events + [CompletedEvent(w, c, now)], state := Some(s));
      || outcome == Err(ClockBeforeAnchor)
      || outcome == Ok(recorded)
      || outcome == (match Reconcile(recorded, s, now, spare, selected)
                     case Err(e) => Err(e)
                     case Ok(r) => Ok(r.db))
  {
    hide Validated, ClockOk, HasActive, Reconcile, Completing;
  }

  lemma FinishIsRecorded(db: Db, c: Id, failed: bool, now: Time, spare: Id, selected: seq<Candidate>, w: Id)
    requires Inv(db) && IsActive(db.cycles, c) && w in db.cycles[c].members
    requires db.state.Some? && db.state.value.managed == Some(w) && w in db.batches
    ensures var outcome, recorded := Outcome(Closed(db, c, failed, now), c, now, spare, selected), Recorded(db, c, failed, now);
      || outcome == Err(ClockBeforeAnchor)
      || outcome == Ok(recorded)
      || outcome == (match Reconcile(recorded, recorded.state.value, now, spare, selected)
                     case Err(e) => Err(e)
                     case Ok(r) => Ok(r.db))
  {
    hide Inv, Validated, Outcome, Reconcile, Completing;
    FinishingMember(db, c, w);
    ClosedAccepted(db, c, failed, now, w);
    OutcomeUnfolds(Closed(db, c, failed, now), c, now, spare, selected, w);
  }

  lemma FinishMemberKeepsInv(db: Db, c: Id, failed: bool, now: Time, spare: Id, selected: seq<Candidate>, w: Id)
    requires Inv(db) && IsActive(db.cycles, c) && w in db.cycles[c].members
    requires NewId(db, spare) && SelectsNext(db, c, now, selected)
    ensures var outcome := Outcome(Closed(db, c, failed, now), c, now, spare, selected);
      (outcome.Ok? && Inv(outcome.value)) || outcome == Err(ClockBeforeAnchor)
  {
    FinishingMember(db, c, w);
    RecordedInv(db, c, failed, now, w);
    FinishIsRecorded(db, c, failed, now, spare, selected, w);
    RecordedFrame(db, c, failed, now, spare, selected);
    hide *;
    var recorded := Recorded(db, c, failed, now);
    ReconcileKeepsInv(recorded, recorded.state.value, now, spare, selected);
  }

  lemma FinishEmptyKeepsInv(db: Db, c: Id, failed: bool, now: Time, spare: Id, selected: seq<Candidate>)
    requires Inv(db) && IsActive(db.cycles, c) && db.cycles[c].members == {}
    ensures Outcome(Closed(db, c, failed, now), c, now, spare, selected) == Ok(Closed(db, c, failed, now))
    ensures Inv(Closed(db, c, failed, now))
  {
    CloseEmptyKeepsInv(db, c, failed, now);
    AcceptedInv(Closed(db, c, failed, now));
    hide Inv, Validated, Reconcile, Completing, ClockOk, HasActive;
  }

  lemma FinishKeepsInv(db: Db, c: Id, failed: bool, now: Time, spare: Id, selected: seq<Candidate>)
    requires Inv(db) && IsActive(db.cycles, c) && NewId(db, spare) && SelectsNext(db, c, now, selected)
    ensures Outcome(Closed(db, c, failed, now), c, now, spare, selected).Ok?
         || Outcome(Closed(db, c, failed, now), c, now, spare, selected) == Err(ClockBeforeAnchor)
    ensures Inv(Kept(db, Outcome(Closed(db, c, failed, now), c, now, spare, selected)))
  {
    hide Inv, Outcome, Closed, NewId, SelectsNext;
    if w :| w in db.cycles[c].members {
      FinishMemberKeepsInv(db, c, failed, now, spare, selected, w);
    } else {
      FinishEmptyKeepsInv(db, c, failed, now, spare, selected);
    }
  }

  lemma RecordedFrame(db: Db, c: Id, failed: bool, now: Time, spare: Id, selected: seq<Candidate>)
    requires c in db.cycles && db.state.Some? && db.state.value.managed.Some? && db.state.value.managed.value in db.batches
    requires NewId(db, spare) && SelectsNext(db, c, now, selected) && db.state.value.managed.value in db.wakes
    ensures var recorded := Recorded(db, c, failed, now);
      && recorded.state.Some? && (recorded.state.value.managed.Some? ==> recorded.state.value.managed.value in recorded.wakes)
      && NewId(recorded, spare) && Selects(recorded.rows, recorded.state.value, now, selected)
      && recorded.queries == db.queries && recorded.batches == db.batches && recorded.rows == db.rows
  {
    hide Selects, AdvanceOver, Cadence;
    assert Closed(db, c, failed, now).wakes.Keys == db.wakes.Keys;
  }

  /** Accounting a cycle again, whatever has changed meanwhile, changes nothing. */
  lemma ReplayChangesNothing(db: Db, c: Id, spare: Id, selected: seq<Candidate>)
    requires Inv(db) && c in db.cycles && db.cycles[c].completedAt.Some?
    ensures Outcome(db, c, db.cycles[c].completedAt.value, spare, selected) == Ok(db)
  {
    AcceptedInv(db);
    MembersAreAccounted(db, c);
    hide Inv, Validated, Reconcile, Completing, ClockOk, HasActive;
  }

  lemma MembersAreAccounted(db: Db, c: Id)
    requires Inv(db) && c in db.cycles && db.cycles[c].completedAt.Some?
    ensures db.cycles[c].status != Active
    ensures db.cycles[c].members == {} || exists e :: e in db.events && e.CompletedEvent? && e.cycle == c
  {
    hide RowsOk, BatchesOk, StateOk, CursorsOk, Completions, Completes;
    if w :| w in db.cycles[c].members {
      assert LinkOk(db.wakes[w], w, db.cycles);
      assert HasCompleted(db.events, w, db.wakes[w].cycle);
    }
  }

  // ---- Runs ----

  lemma PersonalKeepsInv(db: Db, rows: Tables, allowed: bool, configured: bool)
    requires Inv(db) && RowsOk(rows)
    ensures Inv(db.(rows := rows)) && Inv(db.(allowed := allowed, configured := configured))
  {
    hide RowsOk, BatchesOk, LinksOk, AccountedOk, StateOk, CursorsOk;
  }

  lemma StepKeepsInv(db: Db, a: Action)
    requires Inv(db)
    ensures Inv(Step(db, a))
  {
    hide Inv, Ensure, Outcome, Started, Closed, Selects, SelectsNext, NewId, HasActive;
    if Enabled(db, a) {
      match a
      case EnsureReflection(now, spare, selected) => EnsureKeepsInv(db, now, spare, selected);
      case Start(c, now, members) => StartKeepsInv(db, c, now, members);
      case Finish(c, failed, now, spare, selected) => FinishKeepsInv(db, c, failed, now, spare, selected);
      case Replay(c, spare, selected) => ReplayChangesNothing(db, c, spare, selected);
      case Withdraw(w, status) => EndKeeps(db, w, db.wakes[w].(status := status, revision := db.wakes[w].revision + 1));
      case Develop(rows) => PersonalKeepsInv(db, rows, db.allowed, db.configured);
      case SetLifecycle(allowed, configured) =>
        RowsOfInv(db);
        PersonalKeepsInv(db, db.rows, allowed, configured);
    }
  }

  lemma EmptyInv()
    ensures Inv(EMPTY)
  {
    assert Completions([]) == [];
  }

  /** Whatever is interleaved, the rows of every run are sound. */
  lemma {:induction false} RunKeepsInv(actions: seq<Action>)
    ensures Inv(Run(EMPTY, actions))
  {
    hide Inv, Step;
    if actions == [] {
      EmptyInv();
    } else {
      RunKeepsInv(actions[..|actions| - 1]);
      StepKeepsInv(Run(EMPTY, actions[..|actions| - 1]), actions[|actions| - 1]);
    }
  }

  /** The retained validation accepts every reachable state, and at most one batch is live. */
  lemma NeverInvalid(actions: seq<Action>, v: Id, w: Id)
    ensures var db := Run(EMPTY, actions);
      && Validated(db, false)
      && (Live(db.wakes, v) && Live(db.wakes, w) ==> v == w && db.state.Some? && db.state.value.managed == Some(v))
  {
    RunKeepsInv(actions);
    AcceptedInv(Run(EMPTY, actions));
    LiveIsManaged(Run(EMPTY, actions));
    hide Run, Inv, Validated;
  }

  /** A batch is accounted when its cycle ends, once: nothing else is accounted, and nothing twice. */
  lemma ExactlyOneAccounting(actions: seq<Action>, w: Id)
    requires w in Run(EMPTY, actions).wakes
    ensures var db := Run(EMPTY, actions);
      && (db.wakes[w].status == Consumed <==> w in Completions(db.events))
      && Distinct(Completions(db.events))
  {
    RunKeepsInv(actions);
    var db := Run(EMPTY, actions);
    hide Run, RowsOk, BatchesOk, LinksOk, StateOk, CursorsOk;
    if db.wakes[w].status == Consumed {
      assert HasCompleted(db.events, w, db.wakes[w].cycle);
      var i :| 0 <= i < |db.events| && db.events[i].CompletedEvent? && db.events[i].wake == w;
      InCompletions(db.events, i);
    }
    if w in Completions(db.events) {
      CompletionsIn(db.events, w);
      var e :| e in db.events && e.CompletedEvent? && e.wake == w;
      assert Completes(db.wakes, e);
    }
  }

  lemma {:induction false} InCompletions(events: seq<Event>, i: nat)
    requires i < |events| && events[i].CompletedEvent?
    ensures events[i].wake in Completions(events)
  {
    if i < |events| - 1 {
      InCompletions(events[..|events| - 1], i);
    }
  }

  lemma CadenceIs(at: Time)
    requires at <= H.MAX_TIME
    ensures Cadence(at) == Min(H.MAX_TIME, at + CADENCE_SECONDS * H.SECOND)
  {
    H.AddSecondsIsCutOffSum(at, CADENCE_SECONDS as real);
    H.FloorOf((CADENCE_SECONDS * H.SECOND) as real, CADENCE_SECONDS * H.SECOND);
  }

  /** Whenever a cycle takes up a batch, in any run, a day has passed since the latest completed review. */
  lemma ADayBetweenReviews(actions: seq<Action>, start: Action, w: Id)
    requires start.Start? && Enabled(Run(EMPTY, actions), start) && w in start.members
    ensures var db := Run(EMPTY, actions);
      && db.state.Some?
      && (db.state.value.lastCycle.Some? ==>
            && db.state.value.lastCycle.value in db.cycles
            && db.cycles[db.state.value.lastCycle.value].completedAt.Some?
            && start.now >= Cadence(db.cycles[db.state.value.lastCycle.value].completedAt.value))
      && Step(db, start).cycles[start.cycle].startedAt == start.now
  {
    RunKeepsInv(actions);
    var db := Run(EMPTY, actions);
    hide Run, RowsOk, BatchesOk, LinksOk, AccountedOk, CursorsOk, Cadence;
    assert Live(db.wakes, w);
  }

  // ---- Fairness ----

  lemma {:induction false} AdvanceIsAdvanced(before: Marks, selected: seq<Candidate>)
    ensures Advanced(AsCursors(before), selected, AsCursors(AdvanceOver(before, selected)))
  {
    if selected != [] {
      var front, last := selected[..|selected| - 1], selected[|selected| - 1];
      AdvanceIsAdvanced(before, front);
      assert selected == front + [last];
      forall k: Family
        ensures AsCursors(AdvanceOver(before, selected))[k] ==
          var rows := OfFamily(selected, k); if rows == [] then AsCursors(before)[k] else Some(rows[|rows| - 1].id)
      {
        OfFamilyAppend(front, last, k);
      }
    }
  }

  ghost function Histories(db: Db, done: seq<Id>, from: nat, to: nat): (history: seq<Cursors>)
    requires from <= to <= |done|
    ensures |history| == to - from + 1
    ensures forall j :: 0 <= j <= to - from ==> history[j] == AsCursors(CursorsAfter(db.batches, db.queries, done[..from + j]))
  {
    if from == to then [AsCursors(CursorsAfter(db.batches, db.queries, done[..to]))]
    else Histories(db, done, from, to - 1) + [AsCursors(CursorsAfter(db.batches, db.queries, done[..to]))]
  }

  /** What the completed batches in a row amount to: each selected behind the cursors the one before it left. */
  lemma CompletedRow(db: Db, from: nat, to: nat) returns (rounds: seq<Round>, history: seq<Cursors>)
    requires Inv(db) && from <= to <= |Completions(db.events)|
    ensures ReviewRun(rounds, history) && |rounds| == to - from
    ensures forall j :: 0 <= j < |rounds| ==>
      var w := Completions(db.events)[from + j];
      w in db.queries && w in db.batches && rounds[j] == Round.Round(AsPools(db.queries[w].eligible), db.batches[w].selected)
  {
    hide BatchesOk, RowsOk, LinksOk, AccountedOk, StateOk, FairBatch, Completions, Reviewed, CursorsAfter;
    var done := Completions(db.events);
    assert ChainOk(db.batches, db.queries, done);
    forall j | 0 <= j < |done|
      ensures done[j] in db.batches && done[j] in db.queries && FairBatch(db.batches[done[j]], db.queries[done[j]])
    {
      IsFair(db, done[j]);
    }
    hide ChainOk;
    rounds := seq(to - from, j requires 0 <= j < to - from => Round.Round(AsPools(db.queries[done[from + j]].eligible), db.batches[done[from + j]].selected));
    history := Histories(db, done, from, to);
    forall j | 0 <= j < |rounds|
      ensures Reviewed(rounds, history, j)
    {
      CompletedReviewed(db, done, from + j, rounds, history, j);
    }
  }

  lemma IsFair(db: Db, w: Id)
    requires BatchesOk(db.wakes, db.batches, db.queries, db.events) && w in db.batches
    ensures w in db.queries && FairBatch(db.batches[w], db.queries[w])
  {
    hide FairBatch;
  }

  lemma CompletedReviewed(db: Db, done: seq<Id>, at: nat, rounds: seq<Round>, history: seq<Cursors>, j: nat)
    requires ChainOk(db.batches, db.queries, done) && at < |done| && FairBatch(db.batches[done[at]], db.queries[done[at]])
    requires j < |rounds| < |history|
    requires rounds[j] == Round.Round(AsPools(db.queries[done[at]].eligible), db.batches[done[at]].selected)
    requires history[j] == AsCursors(CursorsAfter(db.batches, db.queries, done[..at]))
    requires history[j + 1] == AsCursors(CursorsAfter(db.batches, db.queries, done[..at + 1]))
    ensures Reviewed(rounds, history, j)
  {
    var w := done[at];
    assert done[..at + 1][|done[..at + 1]| - 1] == w;
    AdvanceIsAdvanced(db.queries[w].cursors, db.batches[w].selected);
    hide Advanced, Offered, AdvanceOver, RowsOk;
  }

  /**
   * The `j`-th completed batch was selected while the target was eligible, among rows whose identities
   * all belong to `ever`.
   */
  ghost predicate EligibleAt(db: Db, k: Family, x: Id, ever: set<Id>, j: nat) {
    && j < |Completions(db.events)| && Completions(db.events)[j] in db.queries
    && var rows := db.queries[Completions(db.events)[j]].eligible.Get(k);
       HasRow(rows, x) && forall row :: row in rows ==> row.id in ever
  }

  ghost predicate ReviewedAt(db: Db, k: Family, x: Id, j: nat) {
    && j < |Completions(db.events)| && Completions(db.events)[j] in db.batches
    && Reviews(db.batches[Completions(db.events)[j]].selected, k, x)
  }

  /**
   * Bounded waiting, in every run: a target that was eligible for each of ceil(n / 2) consecutively
   * completed batches was reviewed in one of them, where n counts the identities of its family that
   * were eligible for any of these batches. Rows may come, go and change meanwhile.
   */
  lemma EveryTargetIsReviewed(actions: seq<Action>, k: Family, x: Id, ever: set<Id>, from: nat, to: nat)
    requires from < to && |ever| <= 2 * (to - from)
    requires forall j :: from <= j < to ==> EligibleAt(Run(EMPTY, actions), k, x, ever, j)
    ensures exists j :: from <= j < to && ReviewedAt(Run(EMPTY, actions), k, x, j)
  {
    RunKeepsInv(actions);
    hide Run, Inv;
    ReviewedBetween(Run(EMPTY, actions), k, x, ever, from, to);
  }

  lemma ReviewedBetween(db: Db, k: Family, x: Id, ever: set<Id>, from: nat, to: nat)
    requires Inv(db) && from < to && |ever| <= 2 * (to - from)
    requires forall j :: from <= j < to ==> EligibleAt(db, k, x, ever, j)
    ensures exists j :: from <= j < to && ReviewedAt(db, k, x, j)
  {
    hide Inv, ReviewRun, Completions, Reviews, HasRow, ByIdentity;
    assert EligibleAt(db, k, x, ever, to - 1);
    var rounds, history := CompletedRow(db, from, to);
    forall r | r in rounds
      ensures ByIdentity(r.eligible[k]) && HasRow(r.eligible[k], x) && forall row :: row in r.eligible[k] ==> row.id in ever
    {
      var j :| 0 <= j < |rounds| && rounds[j] == r;
      assert EligibleAt(db, k, x, ever, from + j);
      QueryByIdentity(db, Completions(db.events)[from + j], k);
    }
    EveryTargetReviewed(rounds, history, k, x, ever);
    var r :| r in rounds && Reviews(r.selected, k, x);
    var j :| 0 <= j < |rounds| && rounds[j] == r;
    assert ReviewedAt(db, k, x, from + j);
  }

  lemma QueryByIdentity(db: Db, w: Id, k: Family)
    requires Inv(db) && w in db.queries
    ensures ByIdentity(AsPools(db.queries[w].eligible)[k]) && AsPools(db.queries[w].eligible)[k] == db.queries[w].eligible.Get(k)
  {
    KeysOfInv(db);
    IsFair(db, w);
    PoolsByIdentity(db.queries[w].eligible);
    hide BatchesOk, LinksOk, AccountedOk, StateOk, CursorsOk, ByIdentity;
  }

  // ---- What the selections look at ----

  /** A new batch was selected from the rows eligible when it is due; others are as they were. */
  ghost predicate NewQuery(before: Db, after: Db, spare: Id) {
    || (after.queries == before.queries && after.batches == before.batches)
    || (&& spare in after.wakes && spare in after.queries && spare in after.batches
        && after.queries == before.queries[spare := after.queries[spare]] && after.batches == before.batches[spare := after.batches[spare]]
        && after.queries[spare].eligible == EligibleBy(before.rows, after.wakes[spare].dueAt))
  }

  lemma ReconcileQueries(db: Db, s: State, now: Time, spare: Id, selected: seq<Candidate>)
    requires s.managed.Some? ==> s.managed.value in db.wakes
    ensures Reconcile(db, s, now, spare, selected).Ok? ==> NewQuery(db, Reconcile(db, s, now, spare, selected).value.db, spare)
  {
    hide EligibleBy, Stands, NextDue, Release;
    ReleaseQueries(db, s, now);
  }

  lemma ReleaseQueries(db: Db, s: State, now: Time)
    requires s.managed.Some? ==> s.managed.value in db.wakes
    ensures Release(db, s, now).queries == db.queries && Release(db, s, now).batches == db.batches && Release(db, s, now).rows == db.rows
  {
  }

  lemma EnsureQueries(db: Db, now: Time, spare: Id, selected: seq<Candidate>)
    requires Inv(db) && NewId(db, spare)
    requires Selects(db.rows, if db.state.Some? then db.state.value else Fresh(now), now, selected)
    ensures NewQuery(db, Kept(db, Ensure(db, now, spare, selected)), spare)
  {
    hide Inv, Validated, Ensure, Selects, Reconcile, NewId, Fresh, EligibleBy;
    AcceptedInv(db);
    ManagedStored(db);
    if db.state.Some? {
      EnsureStored(db, now, spare, selected);
      ReconcileQueries(db, db.state.value, now, spare, selected);
    } else {
      EnsureFirst(db, now, spare, selected);
      ReconcileQueries(db, Fresh(now), now, spare, selected);
    }
    EnsureUnfolds(db, now, spare, selected);
  }

  lemma FinishMemberQueries(db: Db, c: Id, failed: bool, now: Time, spare: Id, selected: seq<Candidate>, w: Id)
    requires Inv(db) && IsActive(db.cycles, c) && w in db.cycles[c].members
    requires NewId(db, spare) && SelectsNext(db, c, now, selected)
    ensures NewQuery(db, Kept(db, Outcome(Closed(db, c, failed, now), c, now, spare, selected)), spare)
  {
    hide Inv, Outcome, Reconcile, Recorded, Closed, Selects, NewId, SelectsNext, EligibleBy;
    FinishingMember(db, c, w);
    FinishIsRecorded(db, c, failed, now, spare, selected, w);
    RecordedFrame(db, c, failed, now, spare, selected);
    ReconcileQueries(Recorded(db, c, failed, now), Recorded(db, c, failed, now).state.value, now, spare, selected);
  }

  lemma FinishQueries(db: Db, c: Id, failed: bool, now: Time, spare: Id, selected: seq<Candidate>)
    requires Inv(db) && IsActive(db.cycles, c) && NewId(db, spare) && SelectsNext(db, c, now, selected)
    ensures NewQuery(db, Kept(db, Outcome(Closed(db, c, failed, now), c, now, spare, selected)), spare)
  {
    hide Inv, Outcome, NewId, SelectsNext;
    if w :| w in db.cycles[c].members {
      FinishMemberQueries(db, c, failed, now, spare, selected, w);
    } else {
      FinishEmptyKeepsInv(db, c, failed, now, spare, selected);
    }
  }

  function SpareOf(a: Action): Id {
    match a
    case EnsureReflection(_, spare, _) => spare
    case Finish(_, _, _, spare, _) => spare
    case _ => 0
  }

  lemma StepQueries(db: Db, a: Action)
    requires Inv(db)
    ensures NewQuery(db, Step(db, a), SpareOf(a))
    ensures (Step(db, a).queries == db.queries && Step(db, a).batches == db.batches) || NewId(db, SpareOf(a))
  {
    hide Inv, Ensure, Outcome, Closed, Started, Selects, SelectsNext, HasActive, EligibleBy, NewId;
    if Enabled(db, a) {
      match a
      case EnsureReflection(now, spare, selected) => EnsureQueries(db, now, spare, selected);
      case Start(c, now, members) => StartQueries(db, c, now, members);
      case Finish(c, failed, now, spare, selected) => FinishQueries(db, c, failed, now, spare, selected);
      case Replay(c, spare, selected) => ReplayChangesNothing(db, c, spare, selected);
      case _ =>
    }
  }

  lemma StartQueries(db: Db, c: Id, now: Time, members: set<Id>)
    ensures Started(db, c, now, members).queries == db.queries && Started(db, c, now, members).batches == db.batches
  {
  }

  /** Each batch is selected, once and for all, from the rows eligible when it is due. */
  lemma BatchLooksAtTables(db: Db, a: Action, w: Id)
    requires Inv(db) && w in Step(db, a).queries
    ensures w in db.queries ==>
      w in db.batches && w in Step(db, a).batches && Step(db, a).queries[w] == db.queries[w] && Step(db, a).batches[w] == db.batches[w]
    ensures w !in db.queries ==>
      w in Step(db, a).wakes && Step(db, a).queries[w].eligible == EligibleBy(db.rows, Step(db, a).wakes[w].dueAt)
  {
    hide Inv, Step, EligibleBy;
    KeysOfInv(db);
    StepQueries(db, a);
  }

  lemma KeysOfInv(db: Db)
    requires Inv(db)
    ensures db.wakes.Keys == db.batches.Keys == db.queries.Keys
  {
    KeysOfBatches(db);
    hide BatchesOk;
  }
}
