/** Opt-in exploration allowances: at most one live, one outcome each, a week between them. */
module Exploration {
  import opened Common
  import H = Heartbeat

  const CADENCE_SECONDS: int := 604800
  const MAX_TURNS: nat := 1
  const MAX_ATTEMPTS: nat := 2
  const MAX_SECONDS: int := 120
  const MAX_WAKES: nat := 1

  datatype WakeStatus = Pending | Claimed | Consumed | Cancelled | Superseded

  /** An exploration wake with its cycle, if it was claimed. */
  datatype Wake = Wake(status: WakeStatus, dueAt: Time, consumedAt: Option<Time>, cycle: Option<Id>, revision: nat)

  /** The immutable allowance behind a wake. */
  datatype Grant = Grant(createdAt: Time, notBefore: Time)

  datatype CycleStatus = Active | Completed | Failed

  /** `members` lists the exploration wakes of the cycle; `others` says whether it has any other wake. */
  datatype Cycle = Cycle(
    status: CycleStatus,
    startedAt: Time,
    deadlineAt: Time,
    completedAt: Option<Time>,
    maxTurns: nat,
    maxAttempts: nat,
    maxWakes: nat,
    members: set<Id>,
    others: bool)

  datatype Event =
    | Scheduled(wake: Id, at: Time)
    | CancelledEvent(wake: Id, at: Time)
    | CompletedEvent(wake: Id, cycle: Id, at: Time)

  datatype State = State(
    nextEligible: Time,
    managed: Option<Id>,
    lastTerminal: Option<Id>,
    lastOutcome: Option<nat>,
    pending: bool,
    revision: nat)

  datatype Policy = EnabledPolicy | DisabledPolicy | InvalidPolicy

  datatype Db = Db(
    state: Option<State>,
    wakes: map<Id, Wake>,
    grants: map<Id, Grant>,
    cycles: map<Id, Cycle>,
    events: seq<Event>,
    policy: Policy,
    allowed: bool,
    configured: bool)

  datatype Error = Invalid | ClockBeforeAnchor | NotTerminal | PointerDiffers

  /** A week after an outcome, cut off at the last instant. */
  function Cadence(at: Time): Time {
    H.AddSeconds(at, CADENCE_SECONDS as real)
  }

  function Deadline(startedAt: Time): Time {
    H.AddSeconds(startedAt, MAX_SECONDS as real)
  }

  predicate IsOutcome(e: Event) {
    !e.Scheduled?
  }

  function LatestOutcome(events: seq<Event>): (i: Option<nat>)
    ensures i.Some? ==> i.value < |events| && IsOutcome(events[i.value])
  {
    if events == [] then None
    else if IsOutcome(events[|events| - 1]) then Some(|events| - 1)
    else LatestOutcome(events[..|events| - 1])
  }

  function LatestCompletion(events: seq<Event>): (i: Option<nat>)
    ensures i.Some? ==> i.value < |events| && events[i.value].CompletedEvent?
  {
    if events == [] then None
    else if events[|events| - 1].CompletedEvent? then Some(|events| - 1)
    else LatestCompletion(events[..|events| - 1])
  }

  predicate IsActive(cycles: map<Id, Cycle>, c: Id) {
    c in cycles && cycles[c].status == Active
  }

  predicate HasActive(cycles: map<Id, Cycle>) {
    exists c :: c in cycles && IsActive(cycles, c)
  }

  predicate Live(wakes: map<Id, Wake>, w: Id) {
    w in wakes && wakes[w].status in {Pending, Claimed}
  }

  // ---- Validation of the retained state ----

  predicate Marked(db: Db, w: Id) {
    w in db.grants && Scheduled(w, db.grants[w].createdAt) in db.events
  }

  /** One allowance agrees with its wake and its creation event; a live one waits for the cadence. */
  predicate GrantValid(db: Db, w: Id) {
    && w in db.wakes && Marked(db, w)
    && db.wakes[w].dueAt == db.grants[w].notBefore && db.grants[w].createdAt <= db.grants[w].notBefore
    && (Live(db.wakes, w) && db.state.Some? && db.state.value.managed == Some(w) ==>
          db.state.value.nextEligible <= db.grants[w].notBefore)
  }

  predicate LiveValid(db: Db) {
    && (forall w :: w in db.wakes && Live(db.wakes, w) ==> db.state.Some? && db.state.value.managed == Some(w))
    && (forall w :: w in db.wakes && Live(db.wakes, w) ==> GrantValid(db, w))
  }

  predicate InBounds(cycle: Cycle, w: Id, grant: Grant) {
    && cycle.members == {w} && !cycle.others
    && 1 <= cycle.maxTurns <= MAX_TURNS && 1 <= cycle.maxAttempts <= MAX_ATTEMPTS && cycle.maxWakes == MAX_WAKES
    && grant.notBefore <= cycle.startedAt < cycle.deadlineAt <= Deadline(cycle.startedAt)
  }

  /** The cycle holds exactly one exploration wake and stays within its allowance. */
  predicate WithinGrant(db: Db, c: Id, w: Id)
    requires c in db.cycles
  {
    GrantValid(db, w) && InBounds(db.cycles[c], w, db.grants[w])
  }

  predicate TerminalValid(db: Db, c: Id) {
    && c in db.cycles && db.cycles[c].status != Active && db.cycles[c].completedAt.Some?
    && (exists w :: w in db.wakes && WithinGrant(db, c, w) && db.wakes[w].status == Consumed
          && db.wakes[w].consumedAt == db.cycles[c].completedAt
          && CompletedEvent(w, c, db.cycles[c].completedAt.value) in db.events)
  }

  predicate AnchorsValid(db: Db, s: State) {
    && s.revision >= 1
    && s.lastOutcome == LatestOutcome(db.events)
    && (match LatestCompletion(db.events)
        case None => s.lastTerminal.None?
        case Some(i) =>
          && s.lastTerminal == Some(db.events[i].cycle) && TerminalValid(db, db.events[i].cycle)
          && db.cycles[db.events[i].cycle].completedAt == Some(db.events[i].at))
    && (s.lastOutcome.Some? ==>
          && s.nextEligible >= Cadence(db.events[s.lastOutcome.value].at)
          && GrantValid(db, db.events[s.lastOutcome.value].wake))
  }

  predicate ManagedValid(db: Db, s: State, finishing: bool) {
    s.managed.Some? ==>
      var w := s.managed.value;
      && GrantValid(db, w)
      && (db.wakes[w].status in {Claimed, Consumed} ==>
            db.wakes[w].cycle.Some? && db.wakes[w].cycle.value in db.cycles && WithinGrant(db, db.wakes[w].cycle.value, w))
      && (db.wakes[w].status == Claimed ==> IsActive(db.cycles, db.wakes[w].cycle.value))
      && (db.wakes[w].status == Consumed ==>
            && !IsActive(db.cycles, db.wakes[w].cycle.value)
            && db.wakes[w].consumedAt.Some? && db.cycles[db.wakes[w].cycle.value].completedAt == db.wakes[w].consumedAt
            && (!finishing ==> s.pending && CompletedEvent(w, db.wakes[w].cycle.value, db.wakes[w].consumedAt.value) in db.events))
  }

  /** The validation every reader and writer starts with. */
  predicate Validated(db: Db, finishing: bool) {
    && LiveValid(db)
    && match db.state
       case None => db.grants == map[] && forall e :: e in db.events ==> !e.Scheduled?
       case Some(s) => AnchorsValid(db, s) && ManagedValid(db, s, finishing)
  }

  // ---- The writers ----

  function ClockOk(db: Db, s: State, now: Time): bool {
    && (match s.lastOutcome
        case None => now >= s.nextEligible
        case Some(i) => i < |db.events| ==> now >= db.events[i].at)
    && (s.managed.Some? && s.managed.value in db.grants ==> now >= db.grants[s.managed.value].createdAt)
  }

  /** Ends a live or withdrawn allowance; eligibility only ever moves back. */
  function Cancel(db: Db, s: State, w: Id, now: Time): Db
    requires w in db.wakes
  {
    var wake := db.wakes[w];
    db.(
      wakes := db.wakes[w := wake.(status := Cancelled, revision := wake.revision + 1)],
      state := Some(s.(
        nextEligible := Max(s.nextEligible, Max(wake.dueAt, Cadence(now))),
        lastOutcome := Some(|db.events|), managed := None, pending := false, revision := s.revision + 1)),
      events := db.events + [CancelledEvent(w, now)])
  }

  function Schedule(db: Db, s: State, now: Time, spare: Id): Db {
    var notBefore := Max(now, s.nextEligible);
    db.(
      wakes := db.wakes[spare := Wake(Pending, notBefore, None, None, 1)],
      grants := db.grants[spare := Grant(now, notBefore)],
      events := db.events + [Scheduled(spare, now)],
      state := Some(s.(managed := Some(spare), pending := false, revision := s.revision + 1)))
  }

  predicate CancelledBefore(events: seq<Event>, w: Id) {
    exists e :: e in events && e.CancelledEvent? && e.wake == w
  }

  /** Lets go of an allowance that has ended, cancelling it first if that was not recorded. */
  function Release(db: Db, s: State, now: Time): Db
    requires s.managed.Some? && s.managed.value in db.wakes
  {
    var w := s.managed.value;
    if db.wakes[w].status == Consumed || (db.wakes[w].status != Pending && CancelledBefore(db.events, w))
    then db.(state := Some(s.(managed := None)))
    else Cancel(db, s, w, now)
  }

  function Materialize(db: Db, s: State, now: Time, enabled: bool, spare: Id): Db
    requires s.managed.Some? ==> s.managed.value in db.wakes
  {
    if s.managed.Some? && (db.wakes[s.managed.value].status == Claimed || (db.wakes[s.managed.value].status == Pending && enabled))
    then db.(state := Some(s))
    else
      var released := if s.managed.Some? then Release(db, s, now) else db.(state := Some(s));
      if enabled then Schedule(released, released.state.value, now, spare)
      else released.(state := Some(released.state.value.(pending := false)))
  }

  function Ensure(db: Db, now: Time, spare: Id): Result<Db, Error> {
    if !Validated(db, false) then Err(Invalid)
    else if db.state.Some? && !ClockOk(db, db.state.value, now) then Err(ClockBeforeAnchor)
    else if !db.allowed || db.policy == InvalidPolicy || HasActive(db.cycles) || !db.configured then Ok(db)
    else if db.state.None? && db.policy != EnabledPolicy then Ok(db)
    else
      var s := if db.state.Some? then db.state.value else State(now, None, None, None, true, 1);
      Ok(Materialize(db, s, now, db.policy == EnabledPolicy, spare))
  }

  /** Accounts for a terminal cycle that ran an exploration. */
  function Outcome(db: Db, c: Id, now: Time, spare: Id): Result<Db, Error> {
    if c !in db.cycles || db.cycles[c].status == Active || db.cycles[c].completedAt != Some(now) then Err(NotTerminal)
    else if !Validated(db, true) then Err(Invalid)
    else if db.cycles[c].members == {} then Ok(db)
    else if !exists w :: w in db.cycles[c].members && WithinGrant(db, c, w) then Err(Invalid)
    else
      var w :| w in db.cycles[c].members && WithinGrant(db, c, w);
      if exists e :: e in db.events && e.CompletedEvent? && e.wake == w && e.cycle == c then Ok(db)
      else if db.state.None? || db.state.value.managed != Some(w) then Err(PointerDiffers)
      else if db.wakes[w].status != Consumed || db.wakes[w].consumedAt != Some(now) then Err(Invalid)
      else if !ClockOk(db, db.state.value, now) then Err(ClockBeforeAnchor)
      else
        var s := db.state.value.(
          nextEligible := Cadence(now), lastTerminal := Some(c), pending := true,
          lastOutcome := Some(|db.events|), revision := db.state.value.revision + 1);
        var recorded := db.(events := db.events + [CompletedEvent(w, c, now)], state := Some(s));
        if db.allowed && db.policy != InvalidPolicy && db.configured && !HasActive(db.cycles)
        then Ok(Materialize(recorded, s, now, db.policy == EnabledPolicy, spare))
        else Ok(recorded)
  }

  // ---- Runs ----

  datatype Action =
    | EnsureExploration(now: Time, spare: Id)
    | StartExploration(cycle: Id, now: Time, maxTurns: nat, maxAttempts: nat, seconds: int)
    | StartOrdinary(cycle: Id, now: Time)
    | Finish(cycle: Id, failed: bool, now: Time, spare: Id)
    | Replay(cycle: Id, spare: Id)
    | Withdraw(wake: Id, status: WakeStatus)
    | SetPolicy(policy: Policy)
    | SetLifecycle(allowed: bool, configured: bool)

  /** The pending allowance may start a cycle: policy, lifecycle, configuration and time permit. */
  predicate Eligible(db: Db, w: Id, now: Time) {
    && db.state.Some? && db.state.value.managed == Some(w) && w in db.wakes && w in db.grants
    && db.wakes[w].status == Pending && db.policy == EnabledPolicy && db.allowed && db.configured
    && db.grants[w].notBefore <= now
  }

  ghost predicate Enabled(db: Db, a: Action) {
    match a
    case EnsureExploration(_, spare) => spare !in db.wakes && spare !in db.grants && forall e :: e in db.events ==> e.wake != spare
    case StartExploration(c, now, maxTurns, maxAttempts, seconds) =>
      && c !in db.cycles && !HasActive(db.cycles) && maxTurns >= 1 && maxAttempts >= 1 && seconds >= 1
      && db.state.Some? && db.state.value.managed.Some? && Eligible(db, db.state.value.managed.value, now)
      && now + Min(seconds, MAX_SECONDS) * H.SECOND <= H.MAX_TIME
    case StartOrdinary(c, _) => c !in db.cycles && !HasActive(db.cycles)
    case Finish(c, _, now, spare) =>
      && IsActive(db.cycles, c) && db.cycles[c].startedAt <= now <= H.MAX_TIME
      && spare !in db.wakes && spare !in db.grants && forall e :: e in db.events ==> e.wake != spare
    case Replay(c, spare) =>
      && c in db.cycles && db.cycles[c].completedAt.Some?
      && spare !in db.wakes && spare !in db.grants && forall e :: e in db.events ==> e.wake != spare
    case Withdraw(w, status) => w in db.wakes && db.wakes[w].status == Pending && status in {Cancelled, Superseded}
    case _ => true
  }

  function Started(db: Db, w: Id, c: Id, now: Time, maxTurns: nat, maxAttempts: nat, seconds: int): Db
    requires w in db.wakes
  {
    db.(
      cycles := db.cycles[c := Cycle(Active, now, now + Min(seconds, MAX_SECONDS) * H.SECOND, None,
                                     Min(maxTurns, MAX_TURNS), Min(maxAttempts, MAX_ATTEMPTS), MAX_WAKES, {w}, false)],
      wakes := db.wakes[w := db.wakes[w].(status := Claimed, cycle := Some(c), revision := db.wakes[w].revision + 1)])
  }

  function Closed(db: Db, c: Id, failed: bool, now: Time): Db
    requires c in db.cycles
  {
    db.(
      cycles := db.cycles[c := db.cycles[c].(status := if failed then Failed else Completed, completedAt := Some(now))],
      wakes := map w | w in db.wakes ::
        if w in db.cycles[c].members
        then db.wakes[w].(status := Consumed, consumedAt := Some(now), revision := db.wakes[w].revision + 1)
        else db.wakes[w])
  }

  /** One committed transaction; one that raises is rolled back. */
  ghost function Step(db: Db, a: Action): Db {
    if !Enabled(db, a) then db
    else match a
      case EnsureExploration(now, spare) => (match Ensure(db, now, spare) case Ok(after) => after case Err(_) => db)
      case StartExploration(c, now, maxTurns, maxAttempts, seconds) =>
        Started(db, db.state.value.managed.value, c, now, maxTurns, maxAttempts, seconds)
      case StartOrdinary(c, now) => db.(cycles := db.cycles[c := Cycle(Active, now, now, None, 1, 1, 1, {}, true)])
      case Finish(c, failed, now, spare) =>
        (match Outcome(Closed(db, c, failed, now), c, now, spare) case Ok(after) => after case Err(_) => db)
      case Replay(c, spare) => (match Outcome(db, c, db.cycles[c].completedAt.value, spare) case Ok(after) => after case Err(_) => db)
      case Withdraw(w, status) => db.(wakes := db.wakes[w := db.wakes[w].(status := status, revision := db.wakes[w].revision + 1)])
      case SetPolicy(policy) => db.(policy := policy)
      case SetLifecycle(allowed, configured) => db.(allowed := allowed, configured := configured)
  }

  ghost function Run(db: Db, actions: seq<Action>): Db {
    if actions == [] then db else Step(Run(db, actions[..|actions| - 1]), actions[|actions| - 1])
  }

  const EMPTY: Db := Db(None, map[], map[], map[], [], DisabledPolicy, false, false)
}
