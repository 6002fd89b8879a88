/** The scheduler's row and wakes, updated in place. */
module AutonomyStore {
  import opened Common
  import opened Heartbeat
  import A = Autonomy
  import opened Autonomy

  class Scheduler {
    var state: Option<State>
    var wakes: map<Id, Wake>
    var cycles: map<Id, Cycle>
    var events: seq<Update>
    var configs: map<Id, Policy>
    var active: Option<Id>
    var commitments: seq<Commitment>
    var allowed: bool

    function Rows(): Db
      reads this
    {
      Db(state, wakes, cycles, events, configs, active, commitments, allowed)
    }

    /** Creates or reschedules the managed heartbeat of a row that is about to be stored. */
    method Materialize(s: State, policy: Policy, spare: Id) returns (result: Result<State, Error>, changed: bool)
      modifies `wakes
      ensures match A.Materialize(s, old(wakes), policy, commitments, spare)
        case Ok(m) => result == Ok(m.state) && wakes == m.wakes && changed == m.changed
        case Err(e) => result == Err(e) && wakes == old(wakes)
    {
      hide Desired;
      var (due, refs) := Desired(s, policy, commitments);
      changed := false;
      var next := s;
      if s.managed.None? || s.managed.value !in wakes || wakes[s.managed.value].status in {Consumed, Cancelled, Superseded} {
        wakes := wakes[spare := Wake(Pending, due, refs, None, 1)];
        next, changed := next.(managed := Some(spare)), true;
      } else {
        var w := wakes[s.managed.value];
        if w.status != Pending {
          return Err(ClaimedManaged), false;
        }
        if w.dueAt != due || w.refs != refs {
          wakes := wakes[s.managed.value := w.(dueAt := due, refs := refs, revision := w.revision + 1)];
          changed := true;
        }
      }
      result := Ok(next.(pending := false));
    }

    /** Stores the row and appends an update event if anything visible changed. */
    method Record(before: Option<Snapshot>, s: State, update: Update, materialized: bool)
      modifies this
      ensures Rows() == A.Record(old(Rows()), before, s, old(wakes), update, materialized)
    {
      state := Some(s);
      if before == Some(SnapshotOf(s, wakes)) {
        return;
      }
      if before.Some? {
        state := Some(s.(revision := s.revision + 1));
      }
      var event := |events|;
      events := events + [update];
      if materialized && s.managed.Some? && s.managed.value in wakes {
        wakes := wakes[s.managed.value := wakes[s.managed.value].(cause := Some(event))];
      }
    }

    method EnsureHeartbeat(now: Time, spare: Id) returns (error: Option<Error>)
      modifies this
      ensures match A.Ensure(old(Rows()), now, spare)
        case Ok(after) => error.None? && Rows() == after
        case Err(e) => error == Some(e) && Rows() == old(Rows())
    {
      hide A.Materialize, A.Record, Accepted, SnapshotOf, HasActive;
      if !allowed {
        return None;
      }
      if !Accepted(Rows(), false) {
        return Some(InvalidState);
      }
      if active.None? || active.value !in configs {
        return None;
      }
      var config, policy := active.value, configs[active.value];
      var before := Before(Rows());
      var s := if state.Some? then state.value else Fresh(policy, config, now);
      if now < s.anchorAt {
        return Some(ClockBeforeAnchor);
      }
      if HasActive(cycles) {
        Record(before, s, Update("initialize_active_cycle", None), false);
        return None;
      }
      s := s.(config := config, interval := policy.Clamp(s.interval));
      var reason := if state.Some? then "reconcile" else "initialize";
      var result, changed := Materialize(s, policy, spare);
      if result.Err? {
        return Some(result.error);
      }
      MaterializedRecord(old(Rows()), wakes, before, result.value, Update(reason, None), changed);
      Record(before, result.value, Update(reason, None), changed);
      error := None;
    }

    method RecordCycleOutcome(c: Id, now: Time, spare: Id) returns (error: Option<Error>)
      modifies this
      ensures match A.Outcome(old(Rows()), c, now, spare)
        case Ok(after) => error.None? && Rows() == after
        case Err(e) => error == Some(e) && Rows() == old(Rows())
    {
      hide A.Materialize, A.Record, Accepted, SnapshotOf, HasActive, IsAutonomous, Policy.NextInterval, Accounted;
      if c !in cycles || cycles[c].status == Active || cycles[c].completedAt != Some(now) {
        return Some(NotTerminal);
      }
      if !Accepted(Rows(), true) {
        return Some(InvalidState);
      }
      if Accounted(Rows(), c) {
        return None;
      }
      var governing := Governing(Rows());
      if governing.None? || governing.value !in configs {
        return None;
      }
      var config, policy, row := governing.value, configs[governing.value], cycles[c];
      var before := Before(Rows());
      var s := if state.Some? then state.value else Fresh(policy, config, now);
      if now < s.anchorAt {
        return Some(ClockBeforeAnchor);
      }
      if !policy.Valid() {
        return Some(InvalidState);
      }
      s := s.(interval := policy.NextInterval(s.interval, IsAutonomous(row.kinds), row.activity),
              anchorAt := now, lastCycle := Some(c), config := config, pending := true);
      var changed := false;
      if allowed && active.Some? && active.value in configs && !HasActive(cycles) {
        var result;
        result, changed := Materialize(s, policy, spare);
        if result.Err? {
          return Some(result.error);
        }
        s := result.value;
      }
      MaterializedRecord(old(Rows()), wakes, before, s, Update("cycle_outcome", Some(c)), changed);
      Record(before, s, Update("cycle_outcome", Some(c)), changed);
      error := None;
    }
  }

  /** Recording does not look at the wakes stored before materialization. */
  lemma MaterializedRecord(db: Db, wakes: map<Id, Wake>, before: Option<Snapshot>, s: State, update: Update, changed: bool)
    ensures A.Record(db.(wakes := wakes), before, s, wakes, update, changed) == A.Record(db, before, s, wakes, update, changed)
  {
    hide SnapshotOf;
  }
}
