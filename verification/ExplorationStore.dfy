/** The exploration rows, updated in place by the scheduler. */
module ExplorationStore {
  import opened Common
  import E = Exploration
  import opened Exploration

  class Allowances {
    var state: Option<State>
    var wakes: map<Id, Wake>
    var grants: map<Id, Grant>
    var cycles: map<Id, Cycle>
    var events: seq<Event>
    var policy: Policy
    var allowed: bool
    var configured: bool

    function Rows(): Db
      reads this
    {
      Db(state, wakes, grants, cycles, events, policy, allowed, configured)
    }

    method Cancel(w: Id, now: Time)
      requires state.Some? && w in wakes
      modifies `state, `wakes, `events
      ensures Rows() == E.Cancel(old(Rows()), old(state).value, w, now)
    {
      hide Cadence;
      var s, wake := state.value, wakes[w];
      wakes := wakes[w := wake.(status := Cancelled, revision := wake.revision + 1)];
      s := s.(nextEligible := Max(s.nextEligible, Max(wake.dueAt, Cadence(now))), lastOutcome := Some(|events|));
      events := events + [CancelledEvent(w, now)];
      state := Some(s.(managed := None, pending := false, revision := s.revision + 1));
    }

    /** Releases an ended or withdrawn allowance, then schedules the next one if exploration is enabled. */
    method Materialize(now: Time, enabled: bool, spare: Id)
      requires state.Some? && (state.value.managed.Some? ==> state.value.managed.value in wakes)
      modifies `state, `wakes, `grants, `events
      ensures Rows() == E.Materialize(old(Rows()), old(state).value, now, enabled, spare)
    {
      hide E.Cancel, CancelledBefore;
      if state.value.managed.Some? {
        var w := state.value.managed.value;
        var status := wakes[w].status;
        if status == Claimed {
          return;
        }
        if status == Pending {
          if enabled {
            return;
          }
          Cancel(w, now);
        } else if status in {Cancelled, Superseded} {
          if !CancelledBefore(events, w) {
            Cancel(w, now);
          } else {
            state := Some(state.value.(managed := None));
          }
        } else {
          state := Some(state.value.(managed := None));
        }
      }
      assert Rows() == if old(state).value.managed.Some? then Release(old(Rows()), old(state).value, now) else old(Rows());
      Released(old(Rows()), old(state).value, now);
      if !enabled {
        state := Some(state.value.(pending := false));
        return;
      }
      ScheduleNext(now, spare);
    }

    method ScheduleNext(now: Time, spare: Id)
      requires state.Some?
      modifies `state, `wakes, `grants, `events
      ensures Rows() == Schedule(old(Rows()), old(state).value, now, spare)
    {
      var notBefore := Max(now, state.value.nextEligible);
      wakes := wakes[spare := Wake(Pending, notBefore, None, None, 1)];
      grants := grants[spare := Grant(now, notBefore)];
      events := events + [Scheduled(spare, now)];
      state := Some(state.value.(managed := Some(spare), pending := false, revision := state.value.revision + 1));
    }

    method EnsureExploration(now: Time, spare: Id) returns (error: Option<Error>)
      modifies this
      ensures match Ensure(old(Rows()), now, spare)
        case Ok(after) => error.None? && Rows() == after
        case Err(e) => error == Some(e) && Rows() == old(Rows())
    {
      hide Validated, ClockOk, HasActive, E.Materialize;
      if !Validated(Rows(), false) {
        return Some(Invalid);
      }
      if state.Some? && !ClockOk(Rows(), state.value, now) {
        return Some(ClockBeforeAnchor);
      }
      if !allowed || policy == InvalidPolicy || HasActive(cycles) || !configured {
        return None;
      }
      if state.None? {
        if policy != EnabledPolicy {
          return None;
        }
        state := Some(State(now, None, None, None, true, 1));
        FirstMaterialize(old(Rows()), state.value, now, policy == EnabledPolicy, spare);
      }
      ValidPointer(old(Rows()));
      Materialize(now, policy == EnabledPolicy, spare);
      error := None;
    }

    method RecordOutcome(c: Id, now: Time, spare: Id) returns (error: Option<Error>)
      modifies this
      ensures match Outcome(old(Rows()), c, now, spare)
        case Ok(after) => error.None? && Rows() == after
        case Err(e) => error == Some(e) && Rows() == old(Rows())
    {
      hide Validated, ClockOk, HasActive, E.Materialize, GrantValid, Cadence;
      if c !in cycles || cycles[c].status == Active || cycles[c].completedAt != Some(now) {
        return Some(NotTerminal);
      }
      if !Validated(Rows(), true) {
        return Some(Invalid);
      }
      if cycles[c].members == {} {
        return None;
      }
      if !exists w :: w in cycles[c].members && WithinGrant(Rows(), c, w) {
        return Some(Invalid);
      }
      var w :| w in cycles[c].members && WithinGrant(Rows(), c, w);
      if exists e :: e in events && e.CompletedEvent? && e.wake == w && e.cycle == c {
        return None;
      }
      if state.None? || state.value.managed != Some(w) {
        return Some(PointerDiffers);
      }
      WithinGrantStored(Rows(), c, w);
      if wakes[w].status != Consumed || wakes[w].consumedAt != Some(now) {
        return Some(Invalid);
      }
      if !ClockOk(Rows(), state.value, now) {
        return Some(ClockBeforeAnchor);
      }
      state := Some(state.value.(
        nextEligible := Cadence(now), lastTerminal := Some(c), pending := true,
        lastOutcome := Some(|events|), revision := state.value.revision + 1));
      events := events + [CompletedEvent(w, c, now)];
      if allowed && policy != InvalidPolicy && configured && !HasActive(cycles) {
        Materialize(now, policy == EnabledPolicy, spare);
      }
      error := None;
    }
  }

  lemma Released(db: Db, s: State, now: Time)
    requires db.state == Some(s) && (s.managed.Some? ==> s.managed.value in db.wakes)
    ensures (if s.managed.Some? then Release(db, s, now) else db).state.Some?
  {
  }

  lemma FirstMaterialize(db: Db, s: State, now: Time, enabled: bool, spare: Id)
    requires s.managed.None?
    ensures E.Materialize(db.(state := Some(s)), s, now, enabled, spare) == E.Materialize(db, s, now, enabled, spare)
  {
  }

  lemma ValidPointer(db: Db)
    requires Validated(db, false)
    ensures db.state.Some? && db.state.value.managed.Some? ==> db.state.value.managed.value in db.wakes
  {
  }

  lemma WithinGrantStored(db: Db, c: Id, w: Id)
    requires c in db.cycles && WithinGrant(db, c, w)
    ensures w in db.wakes
  {
  }
}
