/** Durable review batches: at most one live, each accounted once, cursors moved only by completed ones. */
module ReflectionSchedule {
  import opened Common
  import H = Heartbeat
  import opened Reflection

  /** One value for each family. */
  datatype PerFamily<+T> = PerFamily(interest: T, preference: T, selfState: T) {
    function Get(k: Family): T {
      if k == 0 then interest else if k == 1 then preference else selfState
    }

  }

  type Tables = PerFamily<seq<Row>>

  type Marks = PerFamily<Option<Id>>

  function AsPools(t: Tables): Pools {
    [t.interest, t.preference, t.selfState]
  }

  function AsCursors(m: Marks): Cursors {
    [m.interest, m.preference, m.selfState]
  }

  const CADENCE_SECONDS: int := 86400

  datatype WakeStatus = Pending | Claimed | Consumed | Cancelled | Superseded

  /** A managed reflection wake with its cycle, if it was claimed. */
  datatype Wake = Wake(status: WakeStatus, dueAt: Time, consumedAt: Option<Time>, cycle: Option<Id>, revision: nat)

  /** The immutable targets behind a wake. */
  datatype Batch = Batch(selectedAt: Time, selected: seq<Candidate>)

  /** What a selection looked at; kept for the proofs, the program stores only what was selected. */
  datatype Query = Query(eligible: Tables, cursors: Marks)

  datatype CycleStatus = Active | Completed | Failed

  /** `members` lists the managed reflection wakes of the cycle. */
  datatype Cycle = Cycle(status: CycleStatus, startedAt: Time, completedAt: Option<Time>, members: set<Id>)

  datatype Event =
    | Scheduled(wake: Id, at: Time)
    | CancelledEvent(wake: Id, at: Time)
    | CompletedEvent(wake: Id, cycle: Id, at: Time)

  datatype State = State(
    nextReview: Time,
    cursors: Marks,
    managed: Option<Id>,
    lastCycle: Option<Id>,
    pending: bool,
    revision: nat)

  /** `rows` are the three tables of review targets, each in primary-key order. */
  datatype Db = Db(
    state: Option<State>,
    wakes: map<Id, Wake>,
    batches: map<Id, Batch>,
    queries: map<Id, Query>,
    cycles: map<Id, Cycle>,
    events: seq<Event>,
    rows: Tables,
    allowed: bool,
    configured: bool)

  datatype Error = Invalid | ClockBeforeAnchor | NotTerminal | NoCandidates

  /** A day after a completed review, cut off at the last instant. */
  function Cadence(at: Time): Time {
    H.Policy(CADENCE_SECONDS as real, CADENCE_SECONDS as real, 1.0).Schedule(at, CADENCE_SECONDS as real, None).0
  }

  predicate IsActive(cycles: map<Id, Cycle>, c: Id) {
    c in cycles && cycles[c].status == Active
  }

  predicate HasActive(cycles: map<Id, Cycle>) {
    exists c :: c in cycles && IsActive(cycles, c)
  }

  predicate Live(wakes: map<Id, Wake>, w: Id) {
    w in wakes && wakes[w].status in {Pending, Claimed}
  }

  // ---- Validation of the retained state ----

  predicate SameTarget(a: Candidate, b: Candidate) {
    a.family == b.family && a.row.id == b.row.id
  }

  predicate BatchValid(b: Batch) {
    1 <= |b.selected| <= BATCH_LIMIT && forall i, j :: 0 <= i < j < |b.selected| ==> !SameTarget(b.selected[i], b.selected[j])
  }

  /** The managed scope of a wake: its batch, its marker event and valid targets. */
  predicate ScopeValid(db: Db, w: Id) {
    w in db.wakes && w in db.batches && Scheduled(w, db.batches[w].selectedAt) in db.events && BatchValid(db.batches[w])
  }

  predicate LiveValid(db: Db) {
    forall w :: w in db.wakes && Live(db.wakes, w) ==> db.state.Some? && db.state.value.managed == Some(w)
  }

  predicate AnchorValid(db: Db, s: State) {
    s.lastCycle.Some? ==>
      && s.lastCycle.value in db.cycles && db.cycles[s.lastCycle.value].status != Active
      && db.cycles[s.lastCycle.value].completedAt.Some?
      && s.nextReview == Cadence(db.cycles[s.lastCycle.value].completedAt.value)
  }

  predicate ManagedValid(db: Db, s: State, finishing: bool) {
    s.managed.Some? ==>
      var w := s.managed.value;
      && ScopeValid(db, w)
      && (Live(db.wakes, w) ==> db.wakes[w].dueAt >= s.nextReview)
      && (db.wakes[w].status == Consumed ==> s.pending || finishing)
      && (db.wakes[w].status == Claimed ==> db.wakes[w].cycle.Some? && IsActive(db.cycles, db.wakes[w].cycle.value))
      && (db.wakes[w].status == Consumed ==>
            && db.wakes[w].cycle.Some? && db.wakes[w].cycle.value in db.cycles && !IsActive(db.cycles, db.wakes[w].cycle.value)
            && db.wakes[w].consumedAt.Some? && db.cycles[db.wakes[w].cycle.value].completedAt == db.wakes[w].consumedAt
            && (!finishing ==> exists e :: e in db.events && e.CompletedEvent? && e.wake == w && Some(e.cycle) == db.wakes[w].cycle))
  }

  /** The validation every reader and writer starts with. */
  predicate Validated(db: Db, finishing: bool) {
    && LiveValid(db)
    && (db.state.Some? ==>
          db.state.value.revision >= 1 && AnchorValid(db, db.state.value) && ManagedValid(db, db.state.value, finishing))
  }

  // ---- Choosing what to review ----

  function Sooner(a: Option<Time>, b: Option<Time>): Option<Time> {
    if a.None? then b else if b.None? then a else Some(Min(a.value, b.value))
  }

  function EarliestIn(rows: seq<Row>): Option<Time> {
    if rows == [] then None
    else
      var last := rows[|rows| - 1];
      Sooner(EarliestIn(rows[..|rows| - 1]), if last.pending then Some(last.eligibleAt) else None)
  }

  /** The earliest eligibility of any pending target, mature or not. */
  function Earliest(rows: Tables): Option<Time> {
    Sooner(EarliestIn(rows.interest), Sooner(EarliestIn(rows.preference), EarliestIn(rows.selfState)))
  }

  function EligibleBy(rows: Tables, cutoff: Time): Tables {
    PerFamily(Eligible(rows.interest, cutoff), Eligible(rows.preference, cutoff), Eligible(rows.selfState, cutoff))
  }

  /** When the next batch would be due, if anything waits for review. */
  function NextDue(rows: Tables, s: State, now: Time): Option<Time> {
    if Earliest(rows).None? then None else Some(Max(Max(now, Earliest(rows).value), s.nextReview))
  }

  function NextQuery(rows: Tables, s: State, due: Time): Query {
    Query(EligibleBy(rows, due), s.cursors)
  }

  ghost predicate OfferedFrom(q: Query, selected: seq<Candidate>) {
    Offered(PoolsOf(AsPools(q.eligible), AsCursors(q.cursors)), selected)
  }

  /** `selected` is what the selection returns for a batch scheduled now. */
  ghost predicate Selects(rows: Tables, s: State, now: Time, selected: seq<Candidate>) {
    NextDue(rows, s, now).Some? ==>
      OfferedFrom(NextQuery(rows, s, NextDue(rows, s, now).value), selected)
  }

  predicate TargetPending(rows: Tables, c: Candidate) {
    exists r :: r in rows.Get(c.family) && r.id == c.row.id && r.pending
  }

  predicate StillPending(rows: Tables, selected: seq<Candidate>) {
    exists c :: c in selected && TargetPending(rows, c)
  }

  // ---- The writers ----

  function Cancel(db: Db, w: Id, now: Time): Db
    requires w in db.wakes
  {
    db.(
      wakes := db.wakes[w := db.wakes[w].(status := Cancelled, revision := db.wakes[w].revision + 1)],
      events := db.events + [CancelledEvent(w, now)])
  }

  function Schedule(db: Db, s: State, due: Time, now: Time, spare: Id, selected: seq<Candidate>): Db {
    db.(
      wakes := db.wakes[spare := Wake(Pending, due, None, None, 1)],
      batches := db.batches[spare := Batch(now, selected)],
      queries := db.queries[spare := NextQuery(db.rows, s, due)],
      events := db.events + [Scheduled(spare, now)],
      state := Some(s.(managed := Some(spare), pending := false)))
  }

  /** Whether the managed batch still stands: claimed, or pending with a target left to review. */
  predicate Stands(db: Db, s: State) {
    s.managed.Some? && s.managed.value in db.wakes && s.managed.value in db.batches
    && (|| db.wakes[s.managed.value].status == Claimed
        || (db.wakes[s.managed.value].status == Pending && StillPending(db.rows, db.batches[s.managed.value].selected)))
  }

  /** Lets go of a batch that does not stand, cancelling it if nothing is left to review. */
  function Release(db: Db, s: State, now: Time): Db
    requires s.managed.Some? ==> s.managed.value in db.wakes
  {
    var released := if s.managed.Some? && db.wakes[s.managed.value].status == Pending then Cancel(db, s.managed.value, now) else db;
    released.(state := Some(s.(managed := None)))
  }

  datatype Reconciled = Reconciled(db: Db, changed: bool)

  /** Keeps, replaces or drops the managed batch, and says whether anything changed. */
  function Reconcile(db: Db, s: State, now: Time, spare: Id, selected: seq<Candidate>): Result<Reconciled, Error>
    requires s.managed.Some? ==> s.managed.value in db.wakes
  {
    if Stands(db, s) then Ok(Reconciled(db.(state := Some(s)), false))
    else
      var released := Release(db, s, now);
      match NextDue(db.rows, s, now)
      case None => Ok(Reconciled(released.(state := Some(s.(managed := None, pending := false))), s.managed.Some? || s.pending))
      case Some(due) =>
        if selected == [] then Err(NoCandidates)
        else Ok(Reconciled(Schedule(released, s, due, now, spare, selected), true))
  }

  function ClockOk(db: Db, s: State, now: Time): bool {
    && (match s.lastCycle
        case None => now >= s.nextReview
        case Some(c) => c in db.cycles && db.cycles[c].completedAt.Some? ==> now >= db.cycles[c].completedAt.value)
    && (s.managed.Some? && s.managed.value in db.batches ==> now >= db.batches[s.managed.value].selectedAt)
  }

  function Fresh(now: Time): State {
    State(now, PerFamily(None, None, None), None, None, true, 1)
  }

  function Ensure(db: Db, now: Time, spare: Id, selected: seq<Candidate>): Result<Db, Error> {
    if !db.allowed then Ok(db)
    else if !Validated(db, false) then Err(Invalid)
    else if db.state.Some? && !ClockOk(db, db.state.value, now) then Err(ClockBeforeAnchor)
    else if !db.configured || HasActive(db.cycles) then Ok(db)
    else if db.state.None? && Earliest(db.rows).None? then Ok(db)
    else
      match Reconcile(db, if db.state.Some? then db.state.value else Fresh(now), now, spare, selected)
      case Err(e) => Err(e)
      case Ok(Reconciled(after, changed)) =>
        Ok(if changed && db.state.Some? && after.state.Some?
           then after.(state := Some(after.state.value.(revision := after.state.value.revision + 1))) else after)
  }

  /** Each family's cursor moves to the last of its targets in the batch. */
  function AdvanceOver(before: Marks, selected: seq<Candidate>): Marks {
    if selected == [] then before
    else
      var front, last := AdvanceOver(before, selected[..|selected| - 1]), selected[|selected| - 1];
      var id := Some(last.row.id);
      if last.family == 0 then front.(interest := id)
      else if last.family == 1 then front.(preference := id)
      else front.(selfState := id)
  }

  function Completing(s: State, c: Id, selected: seq<Candidate>, now: Time): State {
    s.(cursors := AdvanceOver(s.cursors, selected), lastCycle := Some(c), nextReview := Cadence(now), pending := true,
       revision := s.revision + 1)
  }

  /** Accounts for a terminal cycle that reviewed a batch. */
  function Outcome(db: Db, c: Id, now: Time, spare: Id, selected: seq<Candidate>): Result<Db, Error> {
    if c !in db.cycles || db.cycles[c].status == Active || db.cycles[c].completedAt != Some(now) then Err(NotTerminal)
    else if !Validated(db, true) then Err(Invalid)
    else if exists e :: e in db.events && e.CompletedEvent? && e.cycle == c then Ok(db)
    else if db.cycles[c].members == {} then Ok(db)
    else if db.state.None? || db.state.value.managed.None? || db.cycles[c].members != {db.state.value.managed.value} then Err(Invalid)
    else
      var w := db.state.value.managed.value;
      if db.wakes[w].status != Consumed || db.wakes[w].consumedAt != Some(now) then Err(Invalid)
      else if !ClockOk(db, db.state.value, now) then Err(ClockBeforeAnchor)
      else
        var s := Completing(db.state.value, c, db.batches[w].selected, now);
        var recorded := db.(events := db.events + [CompletedEvent(w, c, now)], state := Some(s));
        if db.allowed && db.configured && !HasActive(db.cycles) then
          match Reconcile(recorded, s, now, spare, selected)
          case Err(e) => Err(e)
          case Ok(r) => Ok(r.db)
        else Ok(recorded)
  }

  // ---- Runs ----

  datatype Action =
    | EnsureReflection(now: Time, spare: Id, selected: seq<Candidate>)
    | Start(cycle: Id, now: Time, members: set<Id>)
    | Finish(cycle: Id, failed: bool, now: Time, spare: Id, selected: seq<Candidate>)
    | Replay(cycle: Id, spare: Id, selected: seq<Candidate>)
    | Withdraw(wake: Id, status: WakeStatus)
    | Develop(rows: Tables)
    | SetLifecycle(allowed: bool, configured: bool)

  ghost predicate NewId(db: Db, spare: Id) {
    spare !in db.wakes && forall e :: e in db.events ==> e.wake != spare
  }

  /** The selection for the batch that may follow the one the cycle reviewed. */
  ghost predicate SelectsNext(db: Db, c: Id, now: Time, selected: seq<Candidate>) {
    db.state.Some? && db.state.value.managed.Some? && db.state.value.managed.value in db.batches ==>
      Selects(db.rows, Completing(db.state.value, c, db.batches[db.state.value.managed.value].selected, now), now, selected)
  }

  ghost predicate Enabled(db: Db, a: Action) {
    match a
    case EnsureReflection(now, spare, selected) =>
      NewId(db, spare) && Selects(db.rows, if db.state.Some? then db.state.value else Fresh(now), now, selected)
    case Start(c, now, members) =>
      && c !in db.cycles && !HasActive(db.cycles)
      && (forall w :: w in members ==> w in db.wakes && db.wakes[w].status == Pending && db.wakes[w].dueAt <= now)
    case Finish(c, _, now, spare, selected) => IsActive(db.cycles, c) && NewId(db, spare) && SelectsNext(db, c, now, selected)
    case Replay(c, spare, selected) =>
      c in db.cycles && db.cycles[c].completedAt.Some? && NewId(db, spare) && SelectsNext(db, c, db.cycles[c].completedAt.value, selected)
    case Withdraw(w, status) => w in db.wakes && db.wakes[w].status == Pending && status in {Cancelled, Superseded}
    case Develop(rows) => forall k: Family :: ByIdentity(rows.Get(k))
    case SetLifecycle(_, _) => true
  }

  function Started(db: Db, c: Id, now: Time, members: set<Id>): Db {
    db.(
      cycles := db.cycles[c := Cycle(Active, now, None, members)],
      wakes := map w | w in db.wakes ::
        if w in members then db.wakes[w].(status := Claimed, cycle := Some(c), revision := db.wakes[w].revision + 1) else db.wakes[w])
  }

  function Closed(db: Db, c: Id, failed: bool, now: Time): Db
    requires c in db.cycles
  {
    db.(
      cycles := db.cycles[c := db.cycles[c].(status := if failed then Failed else Completed, completedAt := Some(now))],
      wakes := map w | w in db.wakes ::
        if w in db.cycles[c].members
        then db.wakes[w].(status := Consumed, consumedAt := Some(now), revision := db.wakes[w].revision + 1)
        else db.wakes[w])
  }

  function Kept(db: Db, r: Result<Db, Error>): Db {
    match r
    case Ok(after) => after
    case Err(_) => db
  }

  /** One committed transaction; one that raises is rolled back. */
  ghost function Step(db: Db, a: Action): Db {
    if !Enabled(db, a) then db
    else match a
      case EnsureReflection(now, spare, selected) => Kept(db, Ensure(db, now, spare, selected))
      case Start(c, now, members) => Started(db, c, now, members)
      case Finish(c, failed, now, spare, selected) => Kept(db, Outcome(Closed(db, c, failed, now), c, now, spare, selected))
      case Replay(c, spare, selected) => Kept(db, Outcome(db, c, db.cycles[c].completedAt.value, spare, selected))
      case Withdraw(w, status) =>
        db.(wakes := db.wakes[w := db.wakes[w].(status := status, revision := db.wakes[w].revision + 1)])
      case Develop(rows) => db.(rows := rows)
      case SetLifecycle(allowed, configured) => db.(allowed := allowed, configured := configured)
  }

  ghost function Run(db: Db, actions: seq<Action>): Db {
    if actions == [] then db else Step(Run(db, actions[..|actions| - 1]), actions[|actions| - 1])
  }

  const EMPTY: Db := Db(None, map[], map[], map[], map[], [], PerFamily([], [], []), true, true)
}
