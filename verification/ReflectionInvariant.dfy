/** What holds of the reflection rows in every run, and that their own validation accepts it. */
module ReflectionInvariant {
  import opened Common
  import opened Reflection
  import opened ReflectionSchedule

  /** The wakes whose batches were completed, in order. */
  function Completions(events: seq<Event>): seq<Id> {
    if events == [] then []
    else
      var last := events[|events| - 1];
      Completions(events[..|events| - 1]) + if last.CompletedEvent? then [last.wake] else []
  }

  ghost predicate RowsOk(rows: Tables) {
    forall k: Family :: ByIdentity(rows.Get(k))
  }

  /** A batch is what a fair offer yields for the rows and cursors it was selected from. */
  ghost predicate FairBatch(b: Batch, q: Query) {
    RowsOk(q.eligible) && b.selected != [] && OfferedFrom(q, b.selected)
  }

  ghost predicate BatchesOk(wakes: map<Id, Wake>, batches: map<Id, Batch>, queries: map<Id, Query>, events: seq<Event>) {
    && wakes.Keys == batches.Keys == queries.Keys
    && (forall w :: w in batches && w in queries ==> FairBatch(batches[w], queries[w]))
    && (forall w :: w in batches ==> Scheduled(w, batches[w].selectedAt) in events)
    && (forall e :: e in events ==> e.wake in wakes)
  }

  /** A claimed wake belongs to the active cycle, a consumed one to its finished cycle. */
  ghost predicate LinkOk(wake: Wake, w: Id, cycles: map<Id, Cycle>) {
    wake.status in {Claimed, Consumed} ==>
      && wake.cycle.Some? && wake.cycle.value in cycles && w in cycles[wake.cycle.value].members
      && (wake.status == Claimed <==> IsActive(cycles, wake.cycle.value))
      && (wake.status == Consumed ==> wake.consumedAt.Some? && cycles[wake.cycle.value].completedAt == wake.consumedAt)
  }

  ghost predicate LinksOk(wakes: map<Id, Wake>, cycles: map<Id, Cycle>) {
    && (forall w :: w in wakes ==> LinkOk(wakes[w], w, cycles))
    && (forall a, b :: IsActive(cycles, a) && IsActive(cycles, b) ==> a == b)
    && (forall c :: c in cycles ==> (cycles[c].completedAt.Some? <==> cycles[c].status != Active))
    && (forall c, w :: c in cycles && w in cycles[c].members ==>
          w in wakes && wakes[w].cycle == Some(c) && wakes[w].status in {Claimed, Consumed})
    && (forall c, v, w :: c in cycles && v in cycles[c].members && w in cycles[c].members ==> v == w)
  }

  predicate Completes(wakes: map<Id, Wake>, e: Event) {
    e.CompletedEvent? ==>
      e.wake in wakes && wakes[e.wake].status == Consumed && wakes[e.wake].cycle == Some(e.cycle) && wakes[e.wake].consumedAt == Some(e.at)
  }

  /** A consumed batch has its one completion on record. */
  ghost predicate AccountedOk(wakes: map<Id, Wake>, events: seq<Event>) {
    && (forall e :: e in events ==> Completes(wakes, e))
    && (forall w :: w in wakes && wakes[w].status == Consumed ==> HasCompleted(events, w, wakes[w].cycle))
    && Distinct(Completions(events))
  }

  ghost predicate HasCompleted(events: seq<Event>, w: Id, c: Option<Id>) {
    exists e :: e in events && e.CompletedEvent? && e.wake == w && Some(e.cycle) == c
  }

  ghost predicate StateOk(state: Option<State>, wakes: map<Id, Wake>, cycles: map<Id, Cycle>, events: seq<Event>) {
    match state
    case None => wakes == map[] && events == []
    case Some(s) =>
      && s.revision >= 1
      && (forall w: Id :: Live(wakes, w) ==> s.managed == Some(w))
      && (s.managed.Some? ==>
            && s.managed.value in wakes
            && (Live(wakes, s.managed.value) ==> wakes[s.managed.value].dueAt >= s.nextReview)
            && (wakes[s.managed.value].status == Consumed ==> s.pending))
      && (s.lastCycle.Some? ==>
            && s.lastCycle.value in cycles && cycles[s.lastCycle.value].status != Active
            && cycles[s.lastCycle.value].completedAt.Some?
            && s.nextReview == Cadence(cycles[s.lastCycle.value].completedAt.value))
  }

  const NO_CURSORS: Marks := PerFamily(None, None, None)

  /** The cursors that the completed batches leave behind. */
  ghost function CursorsAfter(batches: map<Id, Batch>, queries: map<Id, Query>, done: seq<Id>): Marks {
    if done == [] || done[|done| - 1] !in batches || done[|done| - 1] !in queries then NO_CURSORS
    else AdvanceOver(queries[done[|done| - 1]].cursors, batches[done[|done| - 1]].selected)
  }

  /** Every completed batch was selected behind the cursors the completed one before it left. */
  ghost predicate ChainOk(batches: map<Id, Batch>, queries: map<Id, Query>, done: seq<Id>) {
    forall i :: 0 <= i < |done| ==>
      done[i] in batches && done[i] in queries && queries[done[i]].cursors == CursorsAfter(batches, queries, done[..i])
  }

  ghost predicate CursorsOk(state: Option<State>, wakes: map<Id, Wake>, batches: map<Id, Batch>, queries: map<Id, Query>, events: seq<Event>) {
    && ChainOk(batches, queries, Completions(events))
    && (state.Some? ==>
          && state.value.cursors == CursorsAfter(batches, queries, Completions(events))
          && (state.value.managed.Some? && Live(wakes, state.value.managed.value) && state.value.managed.value in queries ==>
                queries[state.value.managed.value].cursors == state.value.cursors))
  }

  ghost predicate Inv(db: Db) {
    && RowsOk(db.rows)
    && BatchesOk(db.wakes, db.batches, db.queries, db.events)
    && LinksOk(db.wakes, db.cycles)
    && AccountedOk(db.wakes, db.events)
    && StateOk(db.state, db.wakes, db.cycles, db.events)
    && CursorsOk(db.state, db.wakes, db.batches, db.queries, db.events)
  }

  // ---- The retained validation accepts every such state ----

  lemma {:induction false} OfFamilyIndex(selected: seq<Candidate>, k: Family, i: nat)
    requires i < |selected| && selected[i].family == k
    ensures selected[i].row in OfFamily(selected, k)
  {
    OfFamilyMember(selected, k, selected[i].row);
    assert selected[i] == Candidate(k, selected[i].row);
  }

  lemma OfferedRow(q: Query, selected: seq<Candidate>, i: nat)
    requires RowsOk(q.eligible) && OfferedFrom(q, selected) && i < |selected|
    ensures selected[i].row in q.eligible.Get(selected[i].family)
  {
    var k := selected[i].family;
    var rows, cursor := AsPools(q.eligible)[k], AsCursors(q.cursors)[k];
    var pools := PoolsOf(AsPools(q.eligible), AsCursors(q.cursors));
    assert rows == q.eligible.Get(k);
    OfFamilyIndex(selected, k, i);
    ShareOf(pools, selected, k);
    PoolRotates(rows, cursor);
    hide Offered, OfFamily, Pool, ByIdentity;
    var j :| 0 <= j < |OfFamily(selected, k)| && OfFamily(selected, k)[j] == selected[i].row;
    assert pools[k] == Pool(rows, cursor);
    assert pools[k][j] == rows[Around(Passed(rows, cursor), j, |rows|)];
  }

  lemma IdentityDistinct(rows: seq<Row>, a: Row, b: Row)
    requires ByIdentity(rows) && a in rows && b in rows && a.id == b.id
    ensures a == b
  {
    var i :| 0 <= i < |rows| && rows[i] == a;
    var j :| 0 <= j < |rows| && rows[j] == b;
  }

  lemma PoolsByIdentity(t: Tables)
    requires RowsOk(t)
    ensures forall k: Family :: ByIdentity(AsPools(t)[k])
  {
    hide ByIdentity;
    forall k: Family
      ensures ByIdentity(AsPools(t)[k])
    {
      assert AsPools(t)[k] == t.Get(k);
    }
  }

  /** A fair batch has one to eight distinct targets. */
  lemma FairIsValid(b: Batch, q: Query)
    requires FairBatch(b, q)
    ensures BatchValid(b)
  {
    PoolsByIdentity(q.eligible);
    BatchIsFullAndDistinct(AsPools(q.eligible), AsCursors(q.cursors), b.selected);
    forall i, j | 0 <= i < j < |b.selected|
      ensures !SameTarget(b.selected[i], b.selected[j])
    {
      if SameTarget(b.selected[i], b.selected[j]) {
        OfferedRow(q, b.selected, i);
        OfferedRow(q, b.selected, j);
        IdentityDistinct(q.eligible.Get(b.selected[i].family), b.selected[i].row, b.selected[j].row);
      }
    }
  }

  lemma ScopeAccepted(db: Db, w: Id)
    requires BatchesOk(db.wakes, db.batches, db.queries, db.events) && w in db.wakes
    ensures ScopeValid(db, w)
  {
    hide FairBatch, BatchValid;
    FairIsValid(db.batches[w], db.queries[w]);
  }

  lemma Accepted(db: Db, finishing: bool)
    requires BatchesOk(db.wakes, db.batches, db.queries, db.events) && LinksOk(db.wakes, db.cycles)
    requires AccountedOk(db.wakes, db.events) && StateOk(db.state, db.wakes, db.cycles, db.events)
    ensures Validated(db, finishing)
  {
    hide BatchesOk, ScopeValid, Completions;
    if db.state.Some? && db.state.value.managed.Some? {
      ScopeAccepted(db, db.state.value.managed.value);
      assert LinkOk(db.wakes[db.state.value.managed.value], db.state.value.managed.value, db.cycles);
    }
  }

  // ---- Selecting ----

  lemma {:induction false} EarliestPending(rows: seq<Row>)
    ensures EarliestIn(rows).Some? ==> exists r :: r in rows && r.pending && r.eligibleAt == EarliestIn(rows).value
  {
    if rows != [] {
      var front, last := rows[..|rows| - 1], rows[|rows| - 1];
      assert rows == front + [last];
      EarliestPending(front);
    }
  }

  lemma EligibleFound(rows: seq<Row>, due: Time)
    requires EarliestIn(rows).Some? && EarliestIn(rows).value <= due
    ensures Eligible(rows, due) != []
  {
    EarliestPending(rows);
    var r :| r in rows && r.pending && r.eligibleAt == EarliestIn(rows).value;
    assert r in Eligible(rows, due);
  }

  lemma SomethingEligible(rows: Tables, due: Time)
    requires Earliest(rows).Some? && Earliest(rows).value <= due
    ensures Total(AsPools(EligibleBy(rows, due))) > 0
  {
    hide Eligible, EarliestIn;
    if Earliest(rows) == EarliestIn(rows.interest) {
      EligibleFound(rows.interest, due);
    } else if Earliest(rows) == EarliestIn(rows.preference) {
      EligibleFound(rows.preference, due);
    } else {
      EligibleFound(rows.selfState, due);
    }
  }

  lemma EligibleRowsOk(rows: Tables, due: Time)
    requires RowsOk(rows)
    ensures RowsOk(EligibleBy(rows, due))
  {
    assert rows.Get(0) == rows.interest && rows.Get(1) == rows.preference && rows.Get(2) == rows.selfState;
    EligibleSorted(rows.interest, due);
    EligibleSorted(rows.preference, due);
    EligibleSorted(rows.selfState, due);
    hide Eligible, ByIdentity;
  }

  /** The error that candidates disappeared cannot happen: whatever waits is eligible when it is due. */
  lemma SelectionIsFair(rows: Tables, s: State, now: Time, selected: seq<Candidate>)
    requires RowsOk(rows) && NextDue(rows, s, now).Some? && Selects(rows, s, now, selected)
    ensures FairBatch(Batch(now, selected), NextQuery(rows, s, NextDue(rows, s, now).value))
  {
    hide Offered, EligibleBy, Earliest, RowsOk, PoolsOf, Total, ByIdentity;
    var due := NextDue(rows, s, now).value;
    EligibleRowsOk(rows, due);
    PoolsByIdentity(EligibleBy(rows, due));
    SomethingEligible(rows, due);
    BatchIsFullAndDistinct(AsPools(EligibleBy(rows, due)), AsCursors(s.cursors), selected);
  }

  // ---- The writers ----

  lemma CompletionsAppend(events: seq<Event>, e: Event)
    ensures Completions(events + [e]) == Completions(events) + if e.CompletedEvent? then [e.wake] else []
  {
    assert (events + [e])[..|events|] == events;
  }

  lemma CompletedInEvents(events: seq<Event>, w: Id, c: Option<Id>, e: Event)
    requires HasCompleted(events, w, c)
    ensures HasCompleted(events + [e], w, c)
  {
    var x :| x in events && x.CompletedEvent? && x.wake == w && Some(x.cycle) == c;
    assert x in events + [e];
  }

  /** Another event of a known wake that completes nothing. */
  lemma QuietEvent(db: Db, e: Event)
    requires AccountedOk(db.wakes, db.events) && !e.CompletedEvent?
    ensures AccountedOk(db.wakes, db.events + [e]) && Completions(db.events + [e]) == Completions(db.events)
  {
    CompletionsAppend(db.events, e);
    hide Completions, Completes, HasCompleted;
    assert Completions(db.events) + [] == Completions(db.events);
    forall w | w in db.wakes && db.wakes[w].status == Consumed
      ensures HasCompleted(db.events + [e], w, db.wakes[w].cycle)
    {
      CompletedInEvents(db.events, w, db.wakes[w].cycle, e);
    }
    forall x | x in db.events + [e]
      ensures Completes(db.wakes, x)
    {
      if x !in db.events {
        assert x == e;
        OnlyCompletions(db.wakes, e);
      }
    }
  }

  lemma OnlyCompletions(wakes: map<Id, Wake>, e: Event)
    requires !e.CompletedEvent?
    ensures Completes(wakes, e)
  {
  }

  lemma EndKeepsLinks(wakes: map<Id, Wake>, cycles: map<Id, Cycle>, w: Id, wake: Wake)
    requires LinksOk(wakes, cycles) && w in wakes && wakes[w].status == Pending && wake.status in {Cancelled, Superseded}
    ensures LinksOk(wakes[w := wake], cycles)
  {
    assert forall c :: c in cycles ==> w !in cycles[c].members;
  }

  lemma EndKeepsAccounts(wakes: map<Id, Wake>, events: seq<Event>, w: Id, wake: Wake)
    requires AccountedOk(wakes, events) && w in wakes && wakes[w].status == Pending && wake.status in {Cancelled, Superseded}
    ensures AccountedOk(wakes[w := wake], events)
  {
    hide HasCompleted, Completions;
    forall e | e in events
      ensures Completes(wakes[w := wake], e)
    {
      assert Completes(wakes, e);
    }
  }

  lemma EndKeepsState(db: Db, w: Id, wake: Wake)
    requires StateOk(db.state, db.wakes, db.cycles, db.events) && w in db.wakes && db.wakes[w].status == Pending
    requires wake.status in {Cancelled, Superseded}
    ensures StateOk(db.state, db.wakes[w := wake], db.cycles, db.events)
  {
    EndedIsNotLive(db.wakes, w, wake);
    hide Cadence, Live;
  }

  lemma EndedIsNotLive(wakes: map<Id, Wake>, w: Id, wake: Wake)
    requires w in wakes && wake.status in {Cancelled, Superseded}
    ensures forall v: Id :: Live(wakes[w := wake], v) ==> Live(wakes, v) && v != w
  {
    forall v: Id | Live(wakes[w := wake], v)
      ensures Live(wakes, v) && v != w
    {
    }
  }

  lemma FewerLiveKeepsCursors(db: Db, wakes: map<Id, Wake>)
    requires CursorsOk(db.state, db.wakes, db.batches, db.queries, db.events)
    requires forall w: Id :: Live(wakes, w) ==> Live(db.wakes, w)
    ensures CursorsOk(db.state, wakes, db.batches, db.queries, db.events)
  {
    hide ChainOk, CursorsAfter, Completions;
  }

  /** Ending an unclaimed wake without consuming it. */
  lemma EndKeeps(db: Db, w: Id, wake: Wake)
    requires Inv(db) && w in db.wakes && db.wakes[w].status == Pending
    requires wake.status in {Cancelled, Superseded}
    ensures Inv(db.(wakes := db.wakes[w := wake]))
  {
    hide RowsOk, BatchesOk, LinksOk, AccountedOk, StateOk, CursorsOk;
    EndKeepsLinks(db.wakes, db.cycles, w, wake);
    EndKeepsAccounts(db.wakes, db.events, w, wake);
    EndKeepsState(db, w, wake);
    EndedIsNotLive(db.wakes, w, wake);
    FewerLiveKeepsCursors(db, db.wakes[w := wake]);
    SameKeysKeepBatches(db, db.wakes[w := wake]);
  }

  lemma SameKeysKeepBatches(db: Db, wakes: map<Id, Wake>)
    requires BatchesOk(db.wakes, db.batches, db.queries, db.events) && wakes.Keys == db.wakes.Keys
    ensures BatchesOk(wakes, db.batches, db.queries, db.events)
  {
    hide FairBatch;
  }

  lemma EventKeepsBatches(db: Db, e: Event)
    requires BatchesOk(db.wakes, db.batches, db.queries, db.events) && e.wake in db.wakes
    ensures BatchesOk(db.wakes, db.batches, db.queries, db.events + [e])
  {
    hide FairBatch;
  }

  lemma EventKeepsState(db: Db, e: Event)
    requires StateOk(db.state, db.wakes, db.cycles, db.events) && e.wake in db.wakes
    ensures StateOk(db.state, db.wakes, db.cycles, db.events + [e])
  {
    hide Cadence;
  }

  lemma SameCompletionsKeepCursors(db: Db, events: seq<Event>)
    requires CursorsOk(db.state, db.wakes, db.batches, db.queries, db.events) && Completions(events) == Completions(db.events)
    ensures CursorsOk(db.state, db.wakes, db.batches, db.queries, events)
  {
    hide ChainOk, CursorsAfter, Completions;
  }

  lemma QuietEventKeepsInv(db: Db, e: Event)
    requires Inv(db) && !e.CompletedEvent? && e.wake in db.wakes
    ensures Inv(db.(events := db.events + [e]))
  {
    QuietEvent(db, e);
    EventKeepsBatches(db, e);
    EventKeepsState(db, e);
    SameCompletionsKeepCursors(db, db.events + [e]);
    hide RowsOk, BatchesOk, LinksOk, AccountedOk, StateOk, CursorsOk;
  }

  lemma DropManaged(db: Db)
    requires Inv(db) && db.state.Some? && forall w: Id :: !Live(db.wakes, w)
    ensures Inv(db.(state := Some(db.state.value.(managed := None))))
  {
    hide RowsOk, BatchesOk, LinksOk, AccountedOk, CursorsAfter, ChainOk, Completions, Cadence;
  }

  lemma CancelKeepsInv(db: Db, w: Id, now: Time)
    requires Inv(db) && w in db.wakes && db.wakes[w].status == Pending
    ensures Inv(Cancel(db, w, now))
    ensures forall v: Id :: Live(Cancel(db, w, now).wakes, v) ==> Live(db.wakes, v) && v != w
  {
    hide Inv, Live;
    var ended := db.(wakes := Cancel(db, w, now).wakes);
    EndedIsNotLive(db.wakes, w, ended.wakes[w]);
    EndKeeps(db, w, ended.wakes[w]);
    QuietEventKeepsInv(ended, CancelledEvent(w, now));
  }

  lemma ReleaseKeepsInv(db: Db, s: State, now: Time)
    requires Inv(db) && db.state == Some(s) && !Stands(db, s)
    ensures Inv(Release(db, s, now)) && forall w: Id :: !Live(Release(db, s, now).wakes, w)
  {
    hide Inv, Live;
    LiveIsManaged(db);
    if s.managed.Some? && db.wakes[s.managed.value].status == Pending {
      CancelKeepsInv(db, s.managed.value, now);
      DropManaged(Cancel(db, s.managed.value, now));
    } else {
      NoneLive(db, s);
      DropManaged(db);
    }
  }

  lemma NoneLive(db: Db, s: State)
    requires db.state == Some(s) && !Stands(db, s)
    requires forall w: Id :: Live(db.wakes, w) ==> s.managed == Some(w) && w in db.batches
    requires s.managed.Some? ==> s.managed.value in db.wakes && db.wakes[s.managed.value].status != Pending
    ensures forall w: Id :: !Live(db.wakes, w)
  {
    hide StillPending;
  }

  lemma LiveIsManaged(db: Db)
    requires Inv(db)
    ensures forall w: Id :: Live(db.wakes, w) ==> db.state.Some? && db.state.value.managed == Some(w) && w in db.batches
    ensures db.state.Some? && db.state.value.managed.Some? ==> db.state.value.managed.value in db.wakes && db.state.value.managed.value in db.batches
  {
    hide RowsOk, FairBatch, LinksOk, AccountedOk, CursorsOk, Cadence;
  }

  lemma FreshQuery(batches: map<Id, Batch>, queries: map<Id, Query>, done: seq<Id>, spare: Id, b: Batch, q: Query)
    requires ChainOk(batches, queries, done) && spare !in batches && spare !in queries
    ensures ChainOk(batches[spare := b], queries[spare := q], done)
    ensures CursorsAfter(batches[spare := b], queries[spare := q], done) == CursorsAfter(batches, queries, done)
  {
    forall i | 0 <= i < |done|
      ensures queries[spare := q][done[i]].cursors == CursorsAfter(batches[spare := b], queries[spare := q], done[..i])
    {
      assert forall j :: 0 <= j < i ==> done[j] in batches && done[j] != spare;
    }
    assert forall j :: 0 <= j < |done| ==> done[j] != spare;
  }

  lemma ScheduleKeepsState(db: Db, s: State, due: Time, now: Time, spare: Id, selected: seq<Candidate>)
    requires StateOk(db.state, db.wakes, db.cycles, db.events) && db.state.Some? && s.(managed := None) == db.state.value
    requires (forall w: Id :: !Live(db.wakes, w)) && due >= s.nextReview
    ensures var after := Schedule(db, s, due, now, spare, selected);
      StateOk(after.state, after.wakes, after.cycles, after.events)
  {
    hide Cadence;
    assert forall w: Id :: w != spare && Live(Schedule(db, s, due, now, spare, selected).wakes, w) ==> Live(db.wakes, w);
  }

  lemma ScheduleKeepsCursors(db: Db, s: State, due: Time, now: Time, spare: Id, selected: seq<Candidate>)
    requires CursorsOk(db.state, db.wakes, db.batches, db.queries, db.events) && db.state.Some? && s.(managed := None) == db.state.value
    requires spare !in db.batches && spare !in db.queries
    ensures var after := Schedule(db, s, due, now, spare, selected);
      CursorsOk(after.state, after.wakes, after.batches, after.queries, after.events)
  {
    var after := Schedule(db, s, due, now, spare, selected);
    CompletionsAppend(db.events, Scheduled(spare, now));
    assert Completions(db.events) + [] == Completions(db.events);
    FreshQuery(db.batches, db.queries, Completions(db.events), spare, after.batches[spare], after.queries[spare]);
    hide ChainOk, CursorsAfter, Completions;
  }

  lemma ScheduleKeepsInv(db: Db, s: State, due: Time, now: Time, spare: Id, selected: seq<Candidate>)
    requires Inv(db) && db.state.Some? && s.(managed := None) == db.state.value && NewId(db, spare)
    requires forall w: Id :: !Live(db.wakes, w)
    requires FairBatch(Batch(now, selected), NextQuery(db.rows, s, due)) && due >= s.nextReview
    ensures Inv(Schedule(db, s, due, now, spare, selected))
  {
    var wake := Schedule(db, s, due, now, spare, selected).wakes[spare];
    QuietEvent(db, Scheduled(spare, now));
    ScheduleKeepsState(db, s, due, now, spare, selected);
    KeysOfBatches(db);
    ScheduleKeepsCursors(db, s, due, now, spare, selected);
    ScheduleKeepsBatches(db, s, due, now, spare, selected);
    ScheduleKeepsLinks(db.wakes, db.cycles, db.events, spare, wake, Scheduled(spare, now));
    hide RowsOk, BatchesOk, LinksOk, AccountedOk, StateOk, CursorsOk;
  }

  lemma KeysOfBatches(db: Db)
    requires BatchesOk(db.wakes, db.batches, db.queries, db.events)
    ensures db.wakes.Keys == db.batches.Keys == db.queries.Keys
  {
    hide FairBatch;
  }

  lemma ScheduleKeepsBatches(db: Db, s: State, due: Time, now: Time, spare: Id, selected: seq<Candidate>)
    requires BatchesOk(db.wakes, db.batches, db.queries, db.events)
    requires FairBatch(Batch(now, selected), NextQuery(db.rows, s, due))
    ensures var after := Schedule(db, s, due, now, spare, selected);
      NewId(db, spare) ==> BatchesOk(after.wakes, after.batches, after.queries, after.events)
  {
    hide FairBatch;
  }

  lemma ScheduleKeepsLinks(wakes: map<Id, Wake>, cycles: map<Id, Cycle>, events: seq<Event>, spare: Id, wake: Wake, e: Event)
    requires LinksOk(wakes, cycles) && spare !in wakes && wake.status == Pending
    requires AccountedOk(wakes, events + [e]) && !e.CompletedEvent?
    ensures LinksOk(wakes[spare := wake], cycles) && AccountedOk(wakes[spare := wake], events + [e])
  {
    hide HasCompleted, Completions;
    var after := wakes[spare := wake];
    assert forall w :: w in wakes ==> after[w] == wakes[w];
    forall x | x in events + [e]
      ensures Completes(after, x)
    {
      assert Completes(wakes, x);
    }
  }

  /** Reconciling always succeeds and leaves sound rows, whether it keeps, replaces or drops the batch. */
  lemma ReconcileKeepsInv(db: Db, s: State, now: Time, spare: Id, selected: seq<Candidate>)
    requires Inv(db) && db.state == Some(s) && NewId(db, spare) && Selects(db.rows, s, now, selected)
    ensures Reconcile(db, s, now, spare, selected).Ok?
    ensures var after := Reconcile(db, s, now, spare, selected).value.db;
      Inv(after) && after.state.Some?
  {
    hide Inv, StillPending, OfferedFrom, Cadence;
    ManagedStored(db);
    if !Stands(db, s) {
      ReleaseKeepsInv(db, s, now);
      var released := Release(db, s, now);
      ReleaseFrame(db, s, now, spare);
      RowsOfInv(db);
      hide Release, Stands, RowsOk, FairBatch;
      if NextDue(db.rows, s, now).Some? {
        SelectionIsFair(db.rows, s, now, selected);
        NotEmpty(Batch(now, selected), NextQuery(db.rows, s, NextDue(db.rows, s, now).value));
        ScheduleKeepsInv(released, s, NextDue(db.rows, s, now).value, now, spare, selected);
      } else {
        NotPending(released, released.state.value.(pending := false));
      }
    }
  }

  lemma NotEmpty(b: Batch, q: Query)
    requires FairBatch(b, q)
    ensures b.selected != []
  {
  }

  lemma RowsOfInv(db: Db)
    requires Inv(db)
    ensures RowsOk(db.rows)
  {
    hide RowsOk;
  }

  lemma ManagedStored(db: Db)
    requires Inv(db)
    ensures db.state.Some? && db.state.value.managed.Some? ==> db.state.value.managed.value in db.wakes
  {
    hide RowsOk, BatchesOk, LinksOk, AccountedOk, CursorsOk;
  }

  lemma ReleaseFrame(db: Db, s: State, now: Time, spare: Id)
    requires db.state == Some(s) && (s.managed.Some? ==> s.managed.value in db.wakes)
    ensures var released := Release(db, s, now);
      && released.rows == db.rows && released.state == Some(s.(managed := None))
      && (NewId(db, spare) ==> NewId(released, spare))
  {
  }

  lemma NotPending(db: Db, s: State)
    requires Inv(db) && db.state.Some? && db.state.value.managed.None? && s == db.state.value.(pending := false)
    ensures Inv(db.(state := Some(s)))
  {
    hide RowsOk, BatchesOk, LinksOk, AccountedOk, CursorsAfter, ChainOk, Cadence;
  }

  lemma RevisionKeepsInv(db: Db)
    requires Inv(db) && db.state.Some?
    ensures Inv(db.(state := Some(db.state.value.(revision := db.state.value.revision + 1))))
  {
    hide RowsOk, BatchesOk, LinksOk, AccountedOk, CursorsAfter, ChainOk, Cadence;
  }

  lemma FreshKeepsInv(db: Db, now: Time)
    requires Inv(db) && db.state.None?
    ensures Inv(db.(state := Some(Fresh(now))))
  {
    hide RowsOk, BatchesOk, LinksOk, AccountedOk, Cadence;
    assert Completions(db.events) == [];
  }
}
