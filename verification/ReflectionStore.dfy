/** The reflection rows, updated in place by the scheduler. */
module ReflectionStore {
  import opened Common
  import S = ReflectionSchedule
  import opened Reflection
  import opened ReflectionSchedule

  class Reviews {
    var state: Option<State>
    var wakes: map<Id, Wake>
    var batches: map<Id, Batch>
    var queries: map<Id, Query>
    var cycles: map<Id, Cycle>
    var events: seq<Event>
    var rows: Tables
    var allowed: bool
    var configured: bool

    function Rows(): Db
      reads this
    {
      Db(state, wakes, batches, queries, cycles, events, rows, allowed, configured)
    }

    /** Lets go of a batch that does not stand, cancelling it if nothing is left to review. */
    method Release(now: Time)
      requires state.Some? && (state.value.managed.Some? ==> state.value.managed.value in wakes)
      modifies `state, `wakes, `events
      ensures Rows() == S.Release(old(Rows()), old(state).value, now)
    {
      if state.value.managed.Some? && wakes[state.value.managed.value].status == Pending {
        var w := state.value.managed.value;
        wakes := wakes[w := wakes[w].(status := Cancelled, revision := wakes[w].revision + 1)];
        events := events + [CancelledEvent(w, now)];
      }
      state := Some(state.value.(managed := None));
    }

    /** The candidates for a batch due at `due`. */
    method Choose(due: Time) returns (selected: seq<Candidate>)
      requires state.Some?
      ensures OfferedFrom(NextQuery(rows, state.value, due), selected)
    {
      hide Offered;
      selected := SelectCandidates(PoolsOf(AsPools(EligibleBy(rows, due)), AsCursors(state.value.cursors)));
    }

    method ScheduleNext(due: Time, now: Time, spare: Id, selected: seq<Candidate>)
      requires state.Some?
      modifies `state, `wakes, `batches, `queries, `events
      ensures Rows() == Schedule(old(Rows()), old(state).value, due, now, spare, selected)
    {
      hide EligibleBy;
      queries := queries[spare := NextQuery(rows, state.value, due)];
      wakes := wakes[spare := Wake(Pending, due, None, None, 1)];
      batches := batches[spare := Batch(now, selected)];
      events := events + [Scheduled(spare, now)];
      state := Some(state.value.(managed := Some(spare), pending := false));
    }

    /** Keeps a batch that stands; otherwise lets go of it and selects the next one, if anything waits. */
    method Reconcile(now: Time, spare: Id) returns (changed: bool, error: Option<Error>, selected: seq<Candidate>)
      requires state.Some? && (state.value.managed.Some? ==> state.value.managed.value in wakes)
      modifies `state, `wakes, `batches, `queries, `events
      ensures !Stands(old(Rows()), old(state).value) ==> Selects(rows, old(state).value, now, selected)
      ensures match S.Reconcile(old(Rows()), old(state).value, now, spare, selected)
        case Ok(r) => error.None? && Rows() == r.db && changed == r.changed
        case Err(e) => error == Some(e)
    {
      hide StillPending, Earliest, EligibleBy, Offered;
      selected := [];
      if Stands(Rows(), state.value) {
        return false, None, selected;
      }
      ghost var s := state.value;
      changed := state.value.managed.Some?;
      Release(now);
      var due := NextDue(rows, state.value, now);
      SameDue(rows, s, now);
      if due.None? {
        changed := changed || state.value.pending;
        state := Some(state.value.(pending := false));
        return changed, None, selected;
      }
      selected := Choose(due.value);
      if selected == [] {
        return false, Some(NoCandidates), selected;
      }
      ScheduleReleased(S.Release(old(Rows()), s, now), s, due.value, now, spare, selected);
      ScheduleNext(due.value, now, spare, selected);
      return true, None, selected;
    }

    /**
     * The scheduler's operation. `selected` is what the selection returned, if it was needed; an error
     * leaves it to the transaction to roll back.
     */
    method EnsureReflection(now: Time, spare: Id) returns (error: Option<Error>, selected: seq<Candidate>)
      modifies this
      ensures match Ensure(old(Rows()), now, spare, selected)
        case Ok(after) => error.None? && Rows() == after
        case Err(e) => error == Some(e)
    {
      hide Validated, ClockOk, HasActive, S.Reconcile, Earliest, Selects;
      selected := [];
      if !allowed {
        return None, selected;
      }
      if !Validated(Rows(), false) {
        return Some(Invalid), selected;
      }
      if state.Some? && !ClockOk(Rows(), state.value, now) {
        return Some(ClockBeforeAnchor), selected;
      }
      if !configured || HasActive(cycles) {
        return None, selected;
      }
      ValidPointer(Rows());
      var initialized := state.None?;
      if initialized {
        if Earliest(rows).None? {
          return None, selected;
        }
        state := Some(Fresh(now));
      }
      var changed;
      ghost var before := Rows();
      changed, error, selected := Reconcile(now, spare);
      SameReconcile(old(Rows()), before, before.state.value, now, spare, selected);
      if error.None? && changed && !initialized && state.Some? {
        state := Some(state.value.(revision := state.value.revision + 1));
      }
    }

    /** Moves each family's cursor to the last of its reviewed targets. */
    method Advance(selected: seq<Candidate>)
      requires state.Some?
      modifies `state
      ensures state == Some(old(state).value.(cursors := AdvanceOver(old(state).value.cursors, selected)))
    {
      var cursors := state.value.cursors;
      for i := 0 to |selected|
        invariant cursors == AdvanceOver(old(state).value.cursors, selected[..i])
      {
        assert selected[..i + 1][..i] == selected[..i];
        var id := Some(selected[i].row.id);
        if selected[i].family == 0 {
          cursors := cursors.(interest := id);
        } else if selected[i].family == 1 {
          cursors := cursors.(preference := id);
        } else {
          cursors := cursors.(selfState := id);
        }
      }
      assert selected[..|selected|] == selected;
      state := Some(state.value.(cursors := cursors));
    }

    /** Accounts for a terminal cycle that reviewed a batch. */
    method RecordOutcome(c: Id, now: Time, spare: Id) returns (error: Option<Error>, selected: seq<Candidate>)
      modifies this
      ensures match Outcome(old(Rows()), c, now, spare, selected)
        case Ok(after) => error.None? && Rows() == after
        case Err(e) => error == Some(e)
    {
      hide Validated, ClockOk, HasActive, S.Reconcile, Earliest, Selects, Cadence, AdvanceOver;
      selected := [];
      if c !in cycles || cycles[c].status == Active || cycles[c].completedAt != Some(now) {
        return Some(NotTerminal), selected;
      }
      if !Validated(Rows(), true) {
        return Some(Invalid), selected;
      }
      if exists e :: e in events && e.CompletedEvent? && e.cycle == c {
        return None, selected;
      }
      if cycles[c].members == {} {
        return None, selected;
      }
      if state.None? || state.value.managed.None? || cycles[c].members != {state.value.managed.value} {
        return Some(Invalid), selected;
      }
      ValidPointer(Rows());
      var w := state.value.managed.value;
      if wakes[w].status != Consumed || wakes[w].consumedAt != Some(now) {
        return Some(Invalid), selected;
      }
      if !ClockOk(Rows(), state.value, now) {
        return Some(ClockBeforeAnchor), selected;
      }
      Advance(batches[w].selected);
      state := Some(state.value.(lastCycle := Some(c), nextReview := Cadence(now), pending := true, revision := state.value.revision + 1));
      events := events + [CompletedEvent(w, c, now)];
      error := None;
      if allowed && configured && !HasActive(cycles) {
        var changed;
        changed, error, selected := Reconcile(now, spare);
      }
    }
  }

  // ---- What the transactions read does not depend on what they have already written ----

  lemma SameDue(rows: Tables, s: State, now: Time)
    ensures NextDue(rows, s.(managed := None), now) == NextDue(rows, s, now)
    ensures forall due :: NextQuery(rows, s.(managed := None), due) == NextQuery(rows, s, due)
  {
    hide Earliest, EligibleBy;
  }

  lemma ScheduleReleased(db: Db, s: State, due: Time, now: Time, spare: Id, selected: seq<Candidate>)
    ensures Schedule(db, s.(managed := None), due, now, spare, selected) == Schedule(db, s, due, now, spare, selected)
  {
    hide EligibleBy;
  }

  lemma SameReconcile(db: Db, other: Db, s: State, now: Time, spare: Id, selected: seq<Candidate>)
    requires other == db.(state := Some(s)) && (s.managed.Some? ==> s.managed.value in db.wakes)
    ensures S.Reconcile(other, s, now, spare, selected) == S.Reconcile(db, s, now, spare, selected)
  {
    hide StillPending, Earliest, EligibleBy;
  }

  /** A validated state refers to a stored wake and its batch. */
  lemma ValidPointer(db: Db)
    requires Validated(db, false) || Validated(db, true)
    ensures db.state.Some? && db.state.value.managed.Some? ==>
      db.state.value.managed.value in db.wakes && db.state.value.managed.value in db.batches
  {
    hide BatchValid, AnchorValid;
  }
}
