/** The heartbeat row stays valid in every run, one opportunity is live at most, and accounting happens once. */
module AutonomyProofs {
  import opened Common
  import opened Heartbeat
  import opened Autonomy

  // ---- Building blocks ----

  /** The row about to be materialized: valid timing, and a managed heartbeat that is not claimed. */
  ghost predicate Ready(s: State, wakes: map<Id, Wake>) {
    && (forall w: Id :: Live(wakes, w) ==> s.managed == Some(w) && wakes[w].status == Pending)
    && (s.managed.Some? ==> s.managed.value in wakes)
  }

  /** Afterwards exactly one heartbeat is live: the managed one, due when it should be. */
  lemma MaterializeFacts(s: State, wakes: map<Id, Wake>, policy: Policy, rows: seq<Commitment>, spare: Id)
    requires Ready(s, wakes) && spare !in wakes
    ensures var result := Materialize(s, wakes, policy, rows, spare);
      && result.Ok?
      && var m := result.value;
         && m.state == s.(managed := m.state.managed, pending := false)
         && m.state.managed.Some? && m.state.managed.value in m.wakes
         && m.wakes[m.state.managed.value].status == Pending
         && (m.wakes[m.state.managed.value].dueAt, m.wakes[m.state.managed.value].refs) == Desired(s, policy, rows)
         && (forall w: Id :: Live(m.wakes, w) ==> m.state.managed == Some(w))
         && wakes.Keys <= m.wakes.Keys
         && (forall w :: w in wakes && m.state.managed != Some(w) ==> m.wakes[w] == wakes[w])
         && (!m.changed ==> m.wakes == wakes)
  {
    hide Desired;
  }

  lemma RecordFacts(db: Db, before: Option<Snapshot>, s: State, wakes: map<Id, Wake>, update: Update, materialized: bool)
    ensures var after := Record(db, before, s, wakes, update, materialized);
      && after.state.Some? && after.state.value == s.(revision := after.state.value.revision) && after.state.value.revision >= s.revision
      && after.wakes.Keys == wakes.Keys
      && (forall w :: w in wakes ==> after.wakes[w] == wakes[w].(cause := after.wakes[w].cause))
      && after == db.(state := after.state, wakes := after.wakes, events := after.events)
      && (after.events == db.events || after.events == db.events + [update])
      && (before != Some(SnapshotOf(s, wakes)) <==> after.events == db.events + [update])
  {
  }

  lemma CountAppend(events: seq<Update>, u: Update, c: Id)
    ensures CountOf(events + [u], c) == CountOf(events, c) + if u.cycle == Some(c) then 1 else 0
  {
    assert (events + [u])[..|events|] == events;
  }

  lemma {:induction false} CountFinds(events: seq<Update>, c: Id)
    ensures CountOf(events, c) >= 1 <==> exists e :: e in events && e.cycle == Some(c)
  {
    if events != [] {
      var front, last := events[..|events| - 1], events[|events| - 1];
      CountFinds(front, c);
      assert events == front + [last];
      if e :| e in events && e.cycle == Some(c) {
        assert e in front || e == last;
      }
    }
  }

  /** Only a change of the recorded fields or of the events matters for the wakes' demands. */
  lemma RecordedWakesOk(managed: Option<Id>, wakes: map<Id, Wake>, wakes': map<Id, Wake>, cycles: map<Id, Cycle>)
    requires WakesOk(managed, wakes, cycles) && wakes'.Keys == wakes.Keys
    requires forall w :: w in wakes ==> wakes'[w].status == wakes[w].status
    ensures WakesOk(managed, wakes', cycles)
  {
    assert forall w: Id :: Live(wakes', w) <==> Live(wakes, w);
  }

  // ---- Ensuring ----

  lemma NoneActive(db: Db)
    requires Inv(db) && !HasActive(db.cycles)
    ensures forall w: Id :: w in db.wakes ==> db.wakes[w].status != Claimed
    ensures db.state.Some? ==> Ready(db.state.value, db.wakes)
  {
    assert forall w: Id :: !Owned(db.cycles, w);
  }

  /** Ensuring never fails on a reachable row except for a clock before its anchor, and keeps the row valid. */
  lemma EnsureKeepsInv(db: Db, now: Time, spare: Id)
    requires Inv(db) && spare !in db.wakes
    ensures var result := Ensure(db, now, spare);
      && (result.Err? ==> result.error == ClockBeforeAnchor && db.state.Some? && now < db.state.value.anchorAt)
      && (result.Ok? ==> Inv(result.value))
  {
    hide Materialize, Record, SnapshotOf;
    if db.allowed && db.active.Some? {
      var config, policy := db.active.value, db.configs[db.active.value];
      var s := if db.state.Some? then db.state.value else Fresh(policy, config, now);
      ClampBounds(policy, s.interval);
      ClampBounds(policy, policy.Least());
      if now >= s.anchorAt {
        if HasActive(db.cycles) {
          EnsureDuringCycle(db, s, policy);
        } else {
          EnsureBetweenCycles(db, s.(config := config, interval := policy.Clamp(s.interval)), policy, spare, if db.state.Some? then "reconcile" else "initialize");
        }
      }
    }
  }

  lemma EnsureDuringCycle(db: Db, s: State, policy: Policy)
    requires Inv(db) && TimingOk(s, db.configs) && AnchorOk(s, db.cycles) && ManagedOk(s, db.wakes, db.cycles, false)
    requires db.state == Some(s) || (db.state.None? && s.managed.None? && s.lastCycle.None?)
    ensures Inv(Record(db, Before(db), s, db.wakes, Update("initialize_active_cycle", None), false))
  {
    hide SnapshotOf, EventsOk, ConfigsOk, CyclesOk;
    RecordFacts(db, Before(db), s, db.wakes, Update("initialize_active_cycle", None), false);
    var after := Record(db, Before(db), s, db.wakes, Update("initialize_active_cycle", None), false);
    hide Record;
    RecordedWakesOk(s.managed, db.wakes, after.wakes, db.cycles);
    QuietEvents(db, s, after, Update("initialize_active_cycle", None));
  }

  /** An update that belongs to no cycle leaves the accounting as it is. */
  lemma QuietEvents(db: Db, s: State, after: Db, u: Update)
    requires EventsOk(db.state, db.events, db.cycles) && u.cycle.None? && after.cycles == db.cycles
    requires after.state.Some? && after.state.value.lastCycle == s.lastCycle
    requires s.lastCycle == if db.state.Some? then db.state.value.lastCycle else None
    requires after.events == db.events || after.events == db.events + [u]
    ensures EventsOk(after.state, after.events, after.cycles)
  {
    forall c { CountAppend(db.events, u, c); }
  }

  lemma EnsureBetweenCycles(db: Db, s: State, policy: Policy, spare: Id, reason: string)
    requires Inv(db) && !HasActive(db.cycles) && spare !in db.wakes
    requires TimingOk(s, db.configs) && AnchorOk(s, db.cycles)
    requires if db.state.Some? then s.managed == db.state.value.managed && s.lastCycle == db.state.value.lastCycle else s.managed.None? && s.lastCycle.None?
    ensures var m := Materialize(s, db.wakes, policy, db.commitments, spare);
      && m.Ok?
      && Inv(Record(db, Before(db), m.value.state, m.value.wakes, Update(reason, None), m.value.changed))
  {
    hide EventsOk, ConfigsOk, CyclesOk, SnapshotOf;
    NoneActive(db);
    MaterializeFacts(s, db.wakes, policy, db.commitments, spare);
    var m := Materialize(s, db.wakes, policy, db.commitments, spare).value;
    hide Materialize;
    MaterializedWakesOk(db, m);
    ReconciledOk(db, m, Update(reason, None));
  }

  lemma ReconciledOk(db: Db, m: Materialized, u: Update)
    requires CyclesOk(db.cycles) && EventsOk(db.state, db.events, db.cycles) && ConfigsOk(db.configs, db.active)
    requires WakesOk(m.state.managed, m.wakes, db.cycles) && u.cycle.None?
    requires TimingOk(m.state, db.configs) && AnchorOk(m.state, db.cycles) && ManagedOk(m.state, m.wakes, db.cycles, false)
    requires m.state.lastCycle == if db.state.Some? then db.state.value.lastCycle else None
    ensures Inv(Record(db, Before(db), m.state, m.wakes, u, m.changed))
  {
    hide EventsOk, ConfigsOk, CyclesOk, SnapshotOf, WakesOk;
    RecordFacts(db, Before(db), m.state, m.wakes, u, m.changed);
    var after := Record(db, Before(db), m.state, m.wakes, u, m.changed);
    hide Record;
    RecordedWakesOk(m.state.managed, m.wakes, after.wakes, db.cycles);
    QuietEvents(db, m.state, after, u);
  }

  lemma MaterializedWakesOk(db: Db, m: Materialized)
    requires WakesOk(ManagedBy(db.state), db.wakes, db.cycles) && !HasActive(db.cycles)
    requires forall w: Id :: Live(m.wakes, w) ==> m.state.managed == Some(w)
    requires m.state.managed.Some? && m.state.managed.value in m.wakes && m.wakes[m.state.managed.value].status == Pending
    ensures WakesOk(m.state.managed, m.wakes, db.cycles)
  {
    forall w | w in m.wakes && m.wakes[w].status == Claimed
      ensures false
    {
      assert Live(m.wakes, w);
    }
    assert forall c: Id :: !IsActive(db.cycles, c);
  }

  // ---- Accounting ----

  /** The demands at the moment a cycle's end is accounted, when its heartbeat may just have been consumed. */
  ghost predicate Settled(db: Db) {
    && Accepted(db, true) && CyclesOk(db.cycles) && WakesOk(ManagedBy(db.state), db.wakes, db.cycles)
    && EventsOk(db.state, db.events, db.cycles) && ConfigsOk(db.configs, db.active)
  }

  predicate Terminal(db: Db, c: Id, now: Time) {
    c in db.cycles && db.cycles[c].status != Active && db.cycles[c].completedAt == Some(now)
  }

  function Next(db: Db, c: Id, now: Time, s: State, config: Id): State
    requires c in db.cycles && config in db.configs && db.configs[config].Valid()
  {
    s.(interval := db.configs[config].NextInterval(s.interval, IsAutonomous(db.cycles[c].kinds), db.cycles[c].activity),
       anchorAt := now, lastCycle := Some(c), config := config, pending := true)
  }

  lemma NextInRange(p: Policy, interval: real, autonomous: bool, activity: bool)
    requires p.Valid()
    ensures p.Least() <= p.NextInterval(interval, autonomous, activity) <= p.Most()
    ensures p.Clamp(p.NextInterval(interval, autonomous, activity)) == p.NextInterval(interval, autonomous, activity) >= 1.0
  {
    ClampBounds(p, interval);
    if autonomous && !activity {
      BackoffIsCutOffProduct(p, interval);
      ScaleUp(1.0, p.factor, p.Clamp(interval));
    }
  }

  /** One accounting adds one event for the cycle, whose earlier count was zero. */
  lemma AccountEvents(db: Db, c: Id, now: Time, after: Db)
    requires EventsOk(db.state, db.events, db.cycles) && Terminal(db, c, now) && !Accounted(db, c)
    requires after.events == db.events + [Update("cycle_outcome", Some(c))] && after.cycles == db.cycles
    requires after.state.Some? && after.state.value.lastCycle == Some(c)
    ensures EventsOk(after.state, after.events, after.cycles) && CountOf(after.events, c) == 1
  {
    CountFinds(db.events, c);
    forall x { CountAppend(db.events, Update("cycle_outcome", Some(c)), x); }
  }

  lemma AccountKeeps(db: Db, c: Id, now: Time, s: State, wakes: map<Id, Wake>, changed: bool)
    requires Settled(db) && Terminal(db, c, now) && !Accounted(db, c)
    requires s.lastCycle == Some(c) && s.anchorAt == now && TimingOk(s, db.configs) && ManagedOk(s, wakes, db.cycles, false)
    requires WakesOk(s.managed, wakes, db.cycles)
    ensures var after := Record(db, Before(db), s, wakes, Update("cycle_outcome", Some(c)), changed);
      && Inv(after) && CountOf(after.events, c) == 1
  {
    hide EventsOk, CyclesOk, ConfigsOk, WakesOk;
    var u := Update("cycle_outcome", Some(c));
    assert Before(db) != Some(SnapshotOf(s, wakes));
    RecordFacts(db, Before(db), s, wakes, u, changed);
    var after := Record(db, Before(db), s, wakes, u, changed);
    hide Record, Accounted, SnapshotOf;
    RecordedWakesOk(s.managed, wakes, after.wakes, db.cycles);
    AccountEvents(db, c, now, after);
  }

  /** Same managed wake and pending materialization: the row's wakes stay as demanded. */
  lemma DeferredOk(db: Db, s: State)
    requires Settled(db) && s.pending
    requires s.managed == ManagedBy(db.state)
    ensures ManagedOk(s, db.wakes, db.cycles, false) && WakesOk(s.managed, db.wakes, db.cycles)
  {
    if db.state.Some? {
      assert ManagedOk(db.state.value, db.wakes, db.cycles, true);
      if s.managed.Some? {
        assert Claimed == db.wakes[s.managed.value].status ==> Owned(db.cycles, s.managed.value);
      }
    }
  }

  lemma SettledReady(db: Db, s: State)
    requires Settled(db) && !HasActive(db.cycles)
    requires s.managed == ManagedBy(db.state)
    ensures Ready(s, db.wakes)
  {
    assert forall w: Id :: !Owned(db.cycles, w);
  }

  /**
   * Accounting of a terminal cycle fails only for a clock before the anchor. If it happens, the
   * cycle has exactly one event afterwards; if it had one before, nothing changes at all.
   */
  lemma OutcomeKeeps(db: Db, c: Id, now: Time, spare: Id)
    requires Settled(db) && Terminal(db, c, now) && spare !in db.wakes
    ensures var result := Outcome(db, c, now, spare);
      && (result.Err? ==> result.error == ClockBeforeAnchor && db.state.Some? && now < db.state.value.anchorAt)
      && (result.Ok? ==> result.value == db || Inv(result.value))
      && (result.Ok? && Governing(db).Some? ==> CountOf(result.value.events, c) == 1)
      && (Accounted(db, c) ==> result == Ok(db))
  {
    hide EventsOk, CyclesOk, WakesOk, Materialize, Record, SnapshotOf, Accounted, HasActive, IsAutonomous, Policy.NextInterval;
    if Accounted(db, c) {
      AccountedCount(db, c);
    } else if Governing(db).Some? {
      var config := Governing(db).value;
      var policy := db.configs[config];
      var s := if db.state.Some? then db.state.value else Fresh(policy, config, now);
      var next := Next(db, c, now, s, config);
      NextInRange(policy, s.interval, IsAutonomous(db.cycles[c].kinds), db.cycles[c].activity);
      DeferredOk(db, next);
      if now >= s.anchorAt {
        if db.allowed && db.active.Some? && !HasActive(db.cycles) {
          SettledReady(db, next);
          MaterializeFacts(next, db.wakes, policy, db.commitments, spare);
          var m := Materialize(next, db.wakes, policy, db.commitments, spare).value;
          MaterializedWakesOk(db, m);
          AccountKeeps(db, c, now, m.state, m.wakes, m.changed);
        } else {
          AccountKeeps(db, c, now, next, db.wakes, false);
        }
      }
    }
  }

  lemma AccountedCount(db: Db, c: Id)
    requires EventsOk(db.state, db.events, db.cycles)
    ensures Accounted(db, c) <==> CountOf(db.events, c) == 1
  {
    CountFinds(db.events, c);
    assert CountOf(db.events, c) <= 1;
  }

  // ---- The steps ----

  lemma OpenKeepsInv(db: Db, c: Id, members: set<Id>, kinds: seq<string>)
    requires Inv(db) && Enabled(db, Open(c, members, kinds))
    ensures Inv(Step(db, Open(c, members, kinds)))
  {
    var after := Step(db, Open(c, members, kinds));
    assert forall x :: IsActive(after.cycles, x) <==> x == c || IsActive(db.cycles, x);
    OpenedWakes(db, c, members, after);
    OpenedEvents(db, c, members, kinds);
  }

  lemma OpenedEvents(db: Db, c: Id, members: set<Id>, kinds: seq<string>)
    requires EventsOk(db.state, db.events, db.cycles) && c !in db.cycles
    ensures EventsOk(db.state, db.events, db.cycles[c := Cycle(Active, None, members, kinds, false)])
  {
  }

  lemma OpenedWakes(db: Db, c: Id, members: set<Id>, after: Db)
    requires WakesOk(ManagedBy(db.state), db.wakes, db.cycles) && !HasActive(db.cycles) && c !in db.cycles
    requires forall w :: w in members && w in db.wakes ==> db.wakes[w].status == Pending
    requires after.wakes == Moved(db.wakes, members, Claimed) && after.state == db.state
    requires c in after.cycles && after.cycles == db.cycles[c := after.cycles[c]] && after.cycles[c].status == Active && after.cycles[c].members == members
    ensures WakesOk(ManagedBy(after.state), after.wakes, after.cycles)
  {
    assert forall x: Id :: !IsActive(db.cycles, x);
    assert forall w: Id :: !Owned(db.cycles, w);
    assert IsActive(after.cycles, c);
    assert forall w: Id :: Live(after.wakes, w) ==> Live(db.wakes, w);
  }

  lemma ClosedSettles(db: Db, c: Id, failed: bool, activity: bool, now: Time)
    requires Inv(db) && IsActive(db.cycles, c)
    ensures Settled(Closed(db, c, failed, activity, now)) && Terminal(Closed(db, c, failed, activity, now), c, now)
    ensures CountOf(db.events, c) == 0
  {
    var after := Closed(db, c, failed, activity, now);
    forall x: Id | IsActive(after.cycles, x)
      ensures false
    {
      assert IsActive(db.cycles, x);
    }
    forall w: Id | w in after.wakes
      ensures after.wakes[w].status != Claimed
    {
      if db.wakes[w].status == Claimed {
        assert Owned(db.cycles, w);
        assert w in db.cycles[c].members;
      }
    }
    assert forall w: Id :: Live(after.wakes, w) ==> Live(db.wakes, w);
  }

  lemma FinishKeepsInv(db: Db, c: Id, failed: bool, activity: bool, now: Time, spare: Id)
    requires Inv(db) && Enabled(db, Finish(c, failed, activity, now, spare))
    ensures Inv(Step(db, Finish(c, failed, activity, now, spare)))
  {
    hide EventsOk, CyclesOk, WakesOk, Accepted, Outcome;
    ClosedSettles(db, c, failed, activity, now);
    var closed := Closed(db, c, failed, activity, now);
    OutcomeKeeps(closed, c, now, spare);
    var result := Outcome(closed, c, now, spare);
    if result == Ok(closed) {
      UnaccountedHasNoState(closed, c, now, spare);
    }
  }

  /** Right after a cycle ends, leaving everything unchanged means there is no row to leave stale. */
  lemma UnaccountedHasNoState(db: Db, c: Id, now: Time, spare: Id)
    requires Settled(db) && Terminal(db, c, now) && spare !in db.wakes && Outcome(db, c, now, spare) == Ok(db)
    requires CountOf(db.events, c) == 0
    ensures Inv(db)
  {
    hide EventsOk, CyclesOk, WakesOk, Outcome;
    OutcomeKeeps(db, c, now, spare);
    assert Governing(db).None?;
  }

  /** Every transaction keeps the row valid and the accounting single. */
  lemma StepKeepsInv(db: Db, a: Action)
    requires Inv(db)
    ensures Inv(Step(db, a))
  {
    hide EventsOk, CyclesOk, WakesOk, Ensure, Outcome;
    if Enabled(db, a) {
      match a
      case EnsureHeartbeat(now, spare) => EnsureKeepsInv(db, now, spare);
      case Open(c, members, kinds) => OpenKeepsInv(db, c, members, kinds);
      case Finish(c, failed, activity, now, spare) => FinishKeepsInv(db, c, failed, activity, now, spare);
      case Replay(c, spare) => ReplayKeepsInv(db, c, spare);
      case Configure(config, policy) =>
      case Deactivate =>
      case Commitments(rows) =>
      case Allow(allowed) =>
    }
  }

  lemma ReplayKeepsInv(db: Db, c: Id, spare: Id)
    requires Inv(db) && Enabled(db, Replay(c, spare))
    ensures Inv(Step(db, Replay(c, spare)))
  {
    hide EventsOk, WakesOk, Outcome;
    OutcomeKeeps(db, c, db.cycles[c].completedAt.value, spare);
  }

  lemma EmptyKeepsInv(rows: seq<Commitment>, allowed: bool)
    ensures Inv(Db(None, map[], map[], [], map[], None, rows, allowed))
  {
  }

  /** Whatever is interleaved, every reachable row passes its validation. */
  lemma {:induction false} RunKeepsInv(rows: seq<Commitment>, allowed: bool, actions: seq<Action>)
    ensures Inv(Run(Db(None, map[], map[], [], map[], None, rows, allowed), actions))
  {
    hide Inv, Step;
    var db := Db(None, map[], map[], [], map[], None, rows, allowed);
    if actions == [] {
      EmptyKeepsInv(rows, allowed);
    } else {
      RunKeepsInv(rows, allowed, actions[..|actions| - 1]);
      StepKeepsInv(Run(db, actions[..|actions| - 1]), actions[|actions| - 1]);
    }
  }

  // ---- What the invariant gives ----

  /** At no moment of any run are two scheduled heartbeats live, and the scheduler row refers to the live one. */
  lemma OneLiveHeartbeat(rows: seq<Commitment>, allowed: bool, actions: seq<Action>, v: Id, w: Id)
    requires var db := Run(Db(None, map[], map[], [], map[], None, rows, allowed), actions);
      Live(db.wakes, v) && Live(db.wakes, w)
    ensures var db := Run(Db(None, map[], map[], [], map[], None, rows, allowed), actions);
      v == w && db.state.Some? && db.state.value.managed == Some(v)
  {
    RunKeepsInv(rows, allowed, actions);
    hide Run;
  }

  /** Accounting a cycle again, however often and whatever has changed meanwhile, changes nothing. */
  lemma ReplayChangesNothing(db: Db, c: Id, spare: Id)
    requires Inv(db) && CountOf(db.events, c) == 1
    ensures Step(db, Replay(c, spare)) == db
  {
    hide WakesOk, Outcome;
    AccountedCount(db, c);
    if Enabled(db, Replay(c, spare)) {
      OutcomeKeeps(db, c, db.cycles[c].completedAt.value, spare);
    }
  }

  /** A cycle that ends while any configuration exists is accounted in the same transaction, exactly once. */
  lemma FinishAccounts(db: Db, c: Id, failed: bool, activity: bool, now: Time, spare: Id)
    requires Inv(db) && Enabled(db, Finish(c, failed, activity, now, spare)) && Governing(db).Some?
    ensures var after := Step(db, Finish(c, failed, activity, now, spare));
      && (CountOf(after.events, c) == 1 || after == db)
      && (after == db ==> db.state.Some? && now < db.state.value.anchorAt)
  {
    hide WakesOk, EventsOk, CyclesOk, Accepted, Outcome, CountOf;
    ClosedSettles(db, c, failed, activity, now);
    var closed := Closed(db, c, failed, activity, now);
    OutcomeKeeps(closed, c, now, spare);
  }

  /** Nothing takes an accounting back. */
  lemma CountsStay(db: Db, a: Action, c: Id)
    requires Inv(db)
    ensures CountOf(db.events, c) <= CountOf(Step(db, a).events, c) <= 1
  {
    StepKeepsInv(db, a);
    EventsOnlyGrow(db, a);
    hide Step, Inv;
    if Step(db, a).events != db.events {
      var u := Step(db, a).events[|db.events|];
      assert Step(db, a).events == db.events + [u];
      CountAppend(db.events, u, c);
    }
    assert Inv(Step(db, a));
    CountAtMostOne(Step(db, a), c);
  }

  lemma CountAtMostOne(db: Db, c: Id)
    requires Inv(db)
    ensures CountOf(db.events, c) <= 1
  {
  }

  lemma EventsOnlyGrow(db: Db, a: Action)
    ensures var after := Step(db, a).events;
      after == db.events || (|after| == |db.events| + 1 && db.events <= after)
  {
    hide Accepted, Materialize, SnapshotOf, Before, Fresh, HasActive, Accounted, Policy.NextInterval;
  }

  /** The managed heartbeat is pending and already due when it should be, under the active configuration. */
  ghost predicate UpToDate(s: State, wakes: map<Id, Wake>, config: Id, policy: Policy, rows: seq<Commitment>) {
    && s.config == config && policy.Clamp(s.interval) == s.interval && !s.pending
    && s.managed.Some? && s.managed.value in wakes && wakes[s.managed.value].status == Pending
    && (wakes[s.managed.value].dueAt, wakes[s.managed.value].refs) == Desired(s, policy, rows)
  }

  lemma UpToDatePollsQuietly(db: Db, now: Time, spare: Id)
    requires Accepted(db, false) && db.state.Some? && db.active.Some? && db.active.value in db.configs
    requires db.state.value.anchorAt <= now
    requires HasActive(db.cycles) || UpToDate(db.state.value, db.wakes, db.active.value, db.configs[db.active.value], db.commitments)
    ensures Ensure(db, now, spare) == Ok(db)
  {
    hide Desired, Accepted, SnapshotOf, HasActive, Policy.Clamp;
    var s, config, policy := db.state.value, db.active.value, db.configs[db.active.value];
    if !HasActive(db.cycles) {
      assert s.(config := config, interval := policy.Clamp(s.interval)) == s;
      assert Materialize(s, db.wakes, policy, db.commitments, spare) == Ok(Materialized(s, db.wakes, false));
    }
  }

  lemma RecordedUpToDate(s: State, wakes: map<Id, Wake>, s': State, wakes': map<Id, Wake>, config: Id, policy: Policy, rows: seq<Commitment>)
    requires UpToDate(s, wakes, config, policy, rows) && s' == s.(revision := s'.revision) && wakes'.Keys == wakes.Keys
    requires forall w :: w in wakes ==> wakes'[w] == wakes[w].(cause := wakes'[w].cause)
    ensures UpToDate(s', wakes', config, policy, rows)
  {
  }

  lemma EnsureLeavesUpToDate(db: Db, now: Time, spare: Id)
    requires Inv(db) && spare !in db.wakes && Ensure(db, now, spare).Ok? && db.allowed && db.active.Some? && !HasActive(db.cycles)
    ensures var after := Ensure(db, now, spare).value;
      && after.state.Some? && after.state.value.anchorAt <= now
      && after == db.(state := after.state, wakes := after.wakes, events := after.events)
      && UpToDate(after.state.value, after.wakes, db.active.value, db.configs[db.active.value], db.commitments)
  {
    hide EventsOk, CyclesOk, SnapshotOf;
    var config, policy := db.active.value, db.configs[db.active.value];
    var s := if db.state.Some? then db.state.value else Fresh(policy, config, now);
    var next := s.(config := config, interval := policy.Clamp(s.interval));
    NoneActive(db);
    ClampBounds(policy, s.interval);
    MaterializeFacts(next, db.wakes, policy, db.commitments, spare);
    var m := Materialize(next, db.wakes, policy, db.commitments, spare).value;
    var u := Update(if db.state.Some? then "reconcile" else "initialize", None);
    RecordFacts(db, Before(db), m.state, m.wakes, u, m.changed);
    hide Materialize, WakesOk, Accepted, Record;
    SameDesired(next, m.state, policy, db.commitments);
    var after := Ensure(db, now, spare).value;
    RecordedUpToDate(m.state, m.wakes, after.state.value, after.wakes, config, policy, db.commitments);
  }

  lemma SameDesired(s: State, s': State, policy: Policy, rows: seq<Commitment>)
    requires s'.anchorAt == s.anchorAt && s'.interval == s.interval
    ensures Desired(s', policy, rows) == Desired(s, policy, rows)
  {
  }

  lemma EnsureDuringCycleIs(db: Db, now: Time, spare: Id)
    requires Inv(db) && Ensure(db, now, spare).Ok? && db.allowed && db.active.Some? && HasActive(db.cycles)
    ensures var after := Ensure(db, now, spare).value;
      && after.state.Some? && after.state.value.anchorAt <= now
      && after == db.(state := after.state, wakes := after.wakes, events := after.events)
  {
    hide EventsOk, CyclesOk, SnapshotOf, WakesOk;
  }

  /** Polling again with unchanged inputs alters no row, no revision and no event. */
  lemma EnsureIsIdempotent(db: Db, now: Time, spare: Id, later: Time, other: Id)
    requires Inv(db) && spare !in db.wakes && Ensure(db, now, spare).Ok? && now <= later
    ensures Ensure(Ensure(db, now, spare).value, later, other) == Ok(Ensure(db, now, spare).value)
  {
    EnsureKeepsInv(db, now, spare);
    hide EventsOk, CyclesOk, WakesOk, ConfigsOk, UpToDate;
    var after := Ensure(db, now, spare).value;
    if db.allowed && db.active.Some? {
      if HasActive(db.cycles) {
        EnsureDuringCycleIs(db, now, spare);
      } else {
        EnsureLeavesUpToDate(db, now, spare);
      }
      ActiveIsStored(db);
      hide Ensure;
      UpToDatePollsQuietly(after, later, other);
    }
  }

  lemma ActiveIsStored(db: Db)
    requires ConfigsOk(db.configs, db.active)
    ensures db.active.Some? ==> db.active.value in db.configs && db.configs[db.active.value].Valid()
  {
  }

  lemma OutcomeSetsInterval(db: Db, c: Id, now: Time, spare: Id)
    requires Settled(db) && Terminal(db, c, now) && spare !in db.wakes && !Accounted(db, c)
    requires Outcome(db, c, now, spare).Ok? && db.state.Some? && db.active.Some?
    ensures var after := Outcome(db, c, now, spare).value;
      && after.state.Some? && after.state.value.anchorAt == now && after.state.value.lastCycle == Some(c)
      && after.state.value.interval ==
           db.configs[db.active.value].NextInterval(db.state.value.interval, IsAutonomous(db.cycles[c].kinds), db.cycles[c].activity)
  {
    hide EventsOk, CyclesOk, WakesOk, Accounted, SnapshotOf, HasActive, IsAutonomous, Policy.NextInterval, Desired;
  }

  /** Each idle autonomous cycle moves the interval one place along the cut-off geometric sequence. */
  lemma IdleCycleBacksOff(db: Db, c: Id, failed: bool, now: Time, spare: Id, k: nat)
    requires Inv(db) && Enabled(db, Finish(c, failed, false, now, spare)) && IsAutonomous(db.cycles[c].kinds)
    requires db.state.Some? && db.active.Some? && db.state.value.anchorAt <= now
    requires var policy := db.configs[db.active.value];
      policy.Valid() && db.state.value.interval == IdleInterval(policy, k)
    ensures var after, policy := Step(db, Finish(c, failed, false, now, spare)), db.configs[db.active.value];
      && after.state.Some?
      && after.state.value.interval == IdleInterval(policy, k + 1)
  {
    hide EventsOk, CyclesOk, WakesOk, Accepted, Outcome, IsAutonomous, Policy.NextInterval;
    ClosedSettles(db, c, failed, false, now);
    var closed := Closed(db, c, failed, false, now);
    OutcomeKeeps(closed, c, now, spare);
    NotYetAccounted(closed, c);
    OutcomeSetsInterval(closed, c, now, spare);
  }

  lemma NotYetAccounted(db: Db, c: Id)
    requires EventsOk(db.state, db.events, db.cycles) && CountOf(db.events, c) == 0
    ensures !Accounted(db, c)
  {
    AccountedCount(db, c);
  }
}
