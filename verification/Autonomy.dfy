/** Durable heartbeat bookkeeping: one managed opportunity, one accounting per finished cycle. */
module Autonomy {
  import opened Common
  import opened H = Heartbeat

  datatype WakeStatus = Pending | Claimed | Consumed | Cancelled | Superseded

  datatype Wake = Wake(status: WakeStatus, dueAt: Time, refs: seq<Id>, cause: Option<nat>, revision: nat)

  datatype CycleStatus = Active | Completed | Failed

  /** `kinds` lists the kinds of all its wakes; `activity` says whether it applied a personal operation. */
  datatype Cycle = Cycle(status: CycleStatus, completedAt: Option<Time>, members: set<Id>, kinds: seq<string>, activity: bool)

  datatype State = State(
    interval: real,
    anchorAt: Time,
    managed: Option<Id>,
    lastCycle: Option<Id>,
    config: Id,
    pending: bool,
    revision: nat)

  datatype Commitment = Commitment(id: Id, dueAt: Option<Time>, open: bool)

  datatype Update = Update(reason: string, cycle: Option<Id>)

  /** `wakes` holds the heartbeats the scheduler created, `events` its updates in order. */
  datatype Db = Db(
    state: Option<State>,
    wakes: map<Id, Wake>,
    cycles: map<Id, Cycle>,
    events: seq<Update>,
    configs: map<Id, Policy>,
    active: Option<Id>,
    commitments: seq<Commitment>,
    allowed: bool)

  datatype Error = ClockBeforeAnchor | InvalidState | ClaimedManaged | NotTerminal

  const AUTONOMOUS_KINDS: set<string> := {"heartbeat", "self_scheduled", "reflection", "goal_review", "routine", "maintenance"}

  predicate IsAutonomous(kinds: seq<string>) {
    kinds != [] && forall k :: k in kinds ==> k in AUTONOMOUS_KINDS
  }

  // ---- What the stored state must satisfy ----

  predicate IsActive(cycles: map<Id, Cycle>, c: Id) {
    c in cycles && cycles[c].status == Active
  }

  predicate HasActive(cycles: map<Id, Cycle>) {
    exists c :: c in cycles && IsActive(cycles, c)
  }

  predicate Owned(cycles: map<Id, Cycle>, w: Id) {
    exists c :: c in cycles && IsActive(cycles, c) && w in cycles[c].members
  }

  predicate TimingOk(s: State, configs: map<Id, Policy>) {
    && s.interval >= 1.0 && s.revision >= 1
    && s.config in configs && configs[s.config].Clamp(s.interval) == s.interval
  }

  predicate AnchorOk(s: State, cycles: map<Id, Cycle>) {
    s.lastCycle.Some? ==>
      && s.lastCycle.value in cycles && cycles[s.lastCycle.value].status != Active
      && cycles[s.lastCycle.value].completedAt == Some(s.anchorAt)
  }

  predicate ManagedOk(s: State, wakes: map<Id, Wake>, cycles: map<Id, Cycle>, finishing: bool) {
    match s.managed
    case None => s.pending
    case Some(w) =>
      && w in wakes
      && (wakes[w].status == Consumed ==> s.pending || finishing)
      && (wakes[w].status == Claimed ==> Owned(cycles, w))
  }

  /** The validation every reader makes of the stored row. */
  predicate Accepted(db: Db, finishing: bool) {
    db.state.Some? ==>
      TimingOk(db.state.value, db.configs) && AnchorOk(db.state.value, db.cycles) && ManagedOk(db.state.value, db.wakes, db.cycles, finishing)
  }

  // ---- Scheduling ----

  predicate Sooner(a: Commitment, b: Commitment)
    requires a.dueAt.Some? && b.dueAt.Some?
  {
    a.dueAt.value < b.dueAt.value || (a.dueAt.value == b.dueAt.value && a.id < b.id)
  }

  /** The earliest open commitment due after the anchor. */
  function Deadline(rows: seq<Commitment>, anchor: Time): (found: Option<Commitment>)
    ensures found.Some? ==> found.value in rows && found.value.open && found.value.dueAt.Some? && found.value.dueAt.value > anchor
    ensures forall c :: c in rows && c.open && c.dueAt.Some? && c.dueAt.value > anchor ==> found.Some? && !Sooner(c, found.value)
  {
    if rows == [] then None
    else
      var last, rest := rows[|rows| - 1], Deadline(rows[..|rows| - 1], anchor);
      assert rows == rows[..|rows| - 1] + [last];
      if last.open && last.dueAt.Some? && last.dueAt.value > anchor && (rest.None? || Sooner(last, rest.value)) then Some(last) else rest
  }

  function Desired(s: State, policy: Policy, rows: seq<Commitment>): (Time, seq<Id>) {
    var deadline := Deadline(rows, s.anchorAt);
    var (due, shortened) := policy.Schedule(s.anchorAt, s.interval, if deadline.None? then None else deadline.value.dueAt);
    (due, if deadline.None? || !shortened then [] else [deadline.value.id])
  }

  datatype Materialized = Materialized(state: State, wakes: map<Id, Wake>, changed: bool)

  function Materialize(s: State, wakes: map<Id, Wake>, policy: Policy, rows: seq<Commitment>, spare: Id): Result<Materialized, Error> {
    var (due, refs) := Desired(s, policy, rows);
    if s.managed.None? || s.managed.value !in wakes || wakes[s.managed.value].status in {Consumed, Cancelled, Superseded} then
      Ok(Materialized(s.(managed := Some(spare), pending := false), wakes[spare := Wake(Pending, due, refs, None, 1)], true))
    else
      var w := wakes[s.managed.value];
      if w.status != Pending then Err(ClaimedManaged)
      else if w.dueAt != due || w.refs != refs then
        Ok(Materialized(s.(pending := false), wakes[s.managed.value := w.(dueAt := due, refs := refs, revision := w.revision + 1)], true))
      else Ok(Materialized(s.(pending := false), wakes, false))
  }

  /** What an update event compares: everything but the revision counters. */
  datatype Snapshot = Snapshot(
    interval: real, anchorAt: Time, managed: Option<Id>, lastCycle: Option<Id>, config: Id, pending: bool,
    wake: Option<(WakeStatus, Time, seq<Id>)>)

  function SnapshotOf(s: State, wakes: map<Id, Wake>): Snapshot {
    Snapshot(s.interval, s.anchorAt, s.managed, s.lastCycle, s.config, s.pending,
             if s.managed.Some? && s.managed.value in wakes
             then Some((wakes[s.managed.value].status, wakes[s.managed.value].dueAt, wakes[s.managed.value].refs))
             else None)
  }

  /** Writes the row and, if anything visible changed, one update event. */
  function Record(db: Db, before: Option<Snapshot>, s: State, wakes: map<Id, Wake>, update: Update, materialized: bool): Db {
    if before == Some(SnapshotOf(s, wakes)) then db.(state := Some(s), wakes := wakes)
    else
      db.(
        state := Some(if before.Some? then s.(revision := s.revision + 1) else s),
        wakes := if materialized && s.managed.Some? && s.managed.value in wakes
                 then wakes[s.managed.value := wakes[s.managed.value].(cause := Some(|db.events|))] else wakes,
        events := db.events + [update])
  }

  function Fresh(policy: Policy, config: Id, now: Time): State {
    State(policy.Least(), now, None, None, config, true, 1)
  }

  function Before(db: Db): Option<Snapshot> {
    if db.state.None? then None else Some(SnapshotOf(db.state.value, db.wakes))
  }

  /** Ensures one eligible opportunity. */
  function Ensure(db: Db, now: Time, spare: Id): Result<Db, Error> {
    if !db.allowed then Ok(db)
    else if !Accepted(db, false) then Err(InvalidState)
    else if db.active.None? || db.active.value !in db.configs then Ok(db)
    else
      var config, policy := db.active.value, db.configs[db.active.value];
      var s := if db.state.Some? then db.state.value else Fresh(policy, config, now);
      if now < s.anchorAt then Err(ClockBeforeAnchor)
      else if HasActive(db.cycles) then Ok(Record(db, Before(db), s, db.wakes, Update("initialize_active_cycle", None), false))
      else
        match Materialize(s.(config := config, interval := policy.Clamp(s.interval)), db.wakes, policy, db.commitments, spare)
        case Err(e) => Err(e)
        case Ok(m) =>
          Ok(Record(db, Before(db), m.state, m.wakes, Update(if db.state.Some? then "reconcile" else "initialize", None), m.changed))
  }

  predicate Accounted(db: Db, c: Id) {
    || (db.state.Some? && db.state.value.lastCycle == Some(c))
    || (exists e :: e in db.events && e.cycle == Some(c))
  }

  /** The configuration that governs an accounting: the active one, or the one retained. */
  function Governing(db: Db): Option<Id> {
    if db.active.Some? && db.active.value in db.configs then db.active
    else if db.state.Some? then Some(db.state.value.config)
    else None
  }

  /** Accounts for one terminal cycle. */
  function Outcome(db: Db, c: Id, now: Time, spare: Id): Result<Db, Error> {
    if c !in db.cycles || db.cycles[c].status == Active || db.cycles[c].completedAt != Some(now) then Err(NotTerminal)
    else if !Accepted(db, true) then Err(InvalidState)
    else if Accounted(db, c) then Ok(db)
    else
      var governing := Governing(db);
      if governing.None? || governing.value !in db.configs then Ok(db)
      else
        var config, policy, row := governing.value, db.configs[governing.value], db.cycles[c];
        var s := if db.state.Some? then db.state.value else Fresh(policy, config, now);
        if now < s.anchorAt then Err(ClockBeforeAnchor)
        else if !policy.Valid() then Err(InvalidState)
        else
          var next := s.(
            interval := policy.NextInterval(s.interval, IsAutonomous(row.kinds), row.activity),
            anchorAt := now, lastCycle := Some(c), config := config, pending := true);
          if db.allowed && db.active.Some? && db.active.value in db.configs && !HasActive(db.cycles) then
            match Materialize(next, db.wakes, policy, db.commitments, spare)
            case Err(e) => Err(e)
            case Ok(m) => Ok(Record(db, Before(db), m.state, m.wakes, Update("cycle_outcome", Some(c)), m.changed))
          else Ok(Record(db, Before(db), next, db.wakes, Update("cycle_outcome", Some(c)), false))
  }

  // ---- Runs ----

  datatype Action =
    | EnsureHeartbeat(now: Time, spare: Id)
    | Open(cycle: Id, members: set<Id>, kinds: seq<string>)
    | Finish(cycle: Id, failed: bool, activity: bool, now: Time, spare: Id)
    | Replay(cycle: Id, spare: Id)
    | Configure(config: Id, policy: Policy)
    | Deactivate
    | Commitments(rows: seq<Commitment>)
    | Allow(allowed: bool)

  ghost predicate Enabled(db: Db, a: Action) {
    match a
    case EnsureHeartbeat(_, spare) => spare !in db.wakes
    case Open(c, members, _) =>
      && c !in db.cycles && !HasActive(db.cycles)
      && (forall w :: w in members && w in db.wakes ==> db.wakes[w].status == Pending)
    case Finish(c, _, _, _, spare) => IsActive(db.cycles, c) && spare !in db.wakes
    case Replay(c, spare) => c in db.cycles && db.cycles[c].completedAt.Some? && spare !in db.wakes
    case Configure(config, policy) => config !in db.configs && policy.Valid()
    case _ => true
  }

  function Moved(wakes: map<Id, Wake>, members: set<Id>, status: WakeStatus): map<Id, Wake> {
    map w | w in wakes :: if w in members then wakes[w].(status := status, revision := wakes[w].revision + 1) else wakes[w]
  }

  function Closed(db: Db, c: Id, failed: bool, activity: bool, now: Time): Db
    requires c in db.cycles
  {
    db.(
      cycles := db.cycles[c := db.cycles[c].(status := if failed then Failed else Completed, completedAt := Some(now), activity := activity)],
      wakes := Moved(db.wakes, db.cycles[c].members, Consumed))
  }

  /** One committed transaction; one that raises is rolled back. */
  ghost function Step(db: Db, a: Action): Db {
    if !Enabled(db, a) then db
    else match a
      case EnsureHeartbeat(now, spare) => (match Ensure(db, now, spare) case Ok(after) => after case Err(_) => db)
      case Open(c, members, kinds) =>
        db.(cycles := db.cycles[c := Cycle(Active, None, members, kinds, false)], wakes := Moved(db.wakes, members, Claimed))
      case Finish(c, failed, activity, now, spare) =>
        (match Outcome(Closed(db, c, failed, activity, now), c, now, spare) case Ok(after) => after case Err(_) => db)
      case Replay(c, spare) => (match Outcome(db, c, db.cycles[c].completedAt.value, spare) case Ok(after) => after case Err(_) => db)
      case Configure(config, policy) => db.(configs := db.configs[config := policy], active := Some(config))
      case Deactivate => db.(active := None)
      case Commitments(rows) => db.(commitments := rows)
      case Allow(allowed) => db.(allowed := allowed)
  }

  ghost function Run(db: Db, actions: seq<Action>): Db {
    if actions == [] then db else Step(Run(db, actions[..|actions| - 1]), actions[|actions| - 1])
  }

  // ---- The invariant ----

  predicate Live(wakes: map<Id, Wake>, w: Id) {
    w in wakes && wakes[w].status in {Pending, Claimed}
  }

  ghost predicate CyclesOk(cycles: map<Id, Cycle>) {
    && (forall a, b :: IsActive(cycles, a) && IsActive(cycles, b) ==> a == b)
    && (forall c :: c in cycles ==> (cycles[c].completedAt.Some? <==> cycles[c].status != Active))
  }

  function ManagedBy(state: Option<State>): Option<Id> {
    if state.None? then None else state.value.managed
  }

  /** Only the managed heartbeat can be live, and a claimed one belongs to an active cycle. */
  ghost predicate WakesOk(managed: Option<Id>, wakes: map<Id, Wake>, cycles: map<Id, Cycle>) {
    && (forall w: Id :: Live(wakes, w) ==> managed == Some(w))
    && (forall w :: w in wakes && wakes[w].status == Claimed ==> Owned(cycles, w))
    && (forall c, w :: IsActive(cycles, c) && w in cycles[c].members && w in wakes ==> wakes[w].status == Claimed)
  }

  function CountOf(events: seq<Update>, c: Id): nat {
    if events == [] then 0 else CountOf(events[..|events| - 1], c) + if events[|events| - 1].cycle == Some(c) then 1 else 0
  }

  /** Each cycle is accounted at most once, and only once it has ended. */
  ghost predicate EventsOk(state: Option<State>, events: seq<Update>, cycles: map<Id, Cycle>) {
    && (forall c :: CountOf(events, c) <= 1)
    && (forall c :: CountOf(events, c) == 1 ==> c in cycles && cycles[c].status != Active)
    && (state.Some? && state.value.lastCycle.Some? ==> CountOf(events, state.value.lastCycle.value) == 1)
  }

  ghost predicate ConfigsOk(configs: map<Id, Policy>, active: Option<Id>) {
    && (forall c :: c in configs ==> configs[c].Valid())
    && (active.Some? ==> active.value in configs)
  }

  ghost predicate Inv(db: Db) {
    && Accepted(db, false) && CyclesOk(db.cycles) && WakesOk(ManagedBy(db.state), db.wakes, db.cycles)
    && EventsOk(db.state, db.events, db.cycles) && ConfigsOk(db.configs, db.active)
  }
}
