/** All schedulers and the inbound source of one individual, on shared cycles and one clock. */
module Schedulers {
  import opened Common
  import H = Heartbeat
  import Reflection
  import A = Autonomy
  import AP = AutonomyProofs
  import R = ReflectionSchedule
  import RI = ReflectionInvariant
  import RR = ReflectionRuns
  import E = Exploration
  import EI = ExplorationInvariant
  import ES = ExplorationSteps
  import N = Ingestion
  import NI = IngestionInvariant
  import opened SchedulerClocks

  /** `raised` records that a transaction ended in an exception of a scheduler or an inbound claim. */
  datatype World = World(
    heartbeat: A.Db, reviews: R.Db, allowances: E.Db, inbound: N.Source, clock: Time, raised: bool)

  /** Fresh identities for what the schedulers may create, and the review targets selected meanwhile. */
  datatype Names = Names(heartbeat: Id, review: Id, allowance: Id, selected: seq<Reflection.Candidate>)

  datatype Exploring = Exploring(maxTurns: nat, maxAttempts: nat, seconds: int)

  datatype Action =
    | Prepare(now: Time, names: Names)
    | Open(cycle: Id, now: Time, heartbeats: set<Id>, kinds: seq<string>, reviewed: set<Id>,
           exploring: Option<Exploring>, group: Option<Id>)
    | Finish(cycle: Id, failed: bool, activity: bool, now: Time, names: Names)
    | Configuring(heartbeat: A.Action)
    | Developing(review: R.Action)
    | Governing(allowance: E.Action)
    | Receiving(inbound: N.Action)

  function ExplorationStart(a: Action): E.Action
    requires a.Open?
  {
    match a.exploring
    case None => E.StartOrdinary(a.cycle, a.now)
    case Some(x) => E.StartExploration(a.cycle, a.now, x.maxTurns, x.maxAttempts, x.seconds)
  }

  ghost predicate NewNames(w: World, names: Names) {
    names.heartbeat !in w.heartbeat.wakes && R.NewId(w.reviews, names.review) && ES.Unused(w.allowances, names.allowance)
  }

  ghost predicate Openable(w: World, a: Action)
    requires a.Open?
  {
    && A.Enabled(w.heartbeat, A.Open(a.cycle, a.heartbeats, a.kinds))
    && R.Enabled(w.reviews, R.Start(a.cycle, a.now, a.reviewed))
    && E.Enabled(w.allowances, ExplorationStart(a))
    && (a.group.Some? ==>
          && N.Enabled(w.inbound, N.ClaimGroup(a.group.value, a.cycle, a.now))
          && a.group.value in w.inbound.groups && w.inbound.groups[a.group.value].stage == N.Pending)
  }

  /** The clock does not go backwards, identities are new, and cycles take only what is pending. */
  ghost predicate Enabled(w: World, a: Action) {
    match a
    case Prepare(now, names) =>
      && w.clock <= now && NewNames(w, names)
      && R.Selects(w.reviews.rows, if w.reviews.state.Some? then w.reviews.state.value else R.Fresh(now), now, names.selected)
    case Open(_, now, _, _, _, _, _) => w.clock <= now && Openable(w, a)
    case Finish(c, _, _, now, names) =>
      && w.clock <= now <= H.MAX_TIME && A.IsActive(w.heartbeat.cycles, c) && NewNames(w, names)
      && R.SelectsNext(w.reviews, c, now, names.selected)
    case Configuring(x) => x.Configure? || x.Deactivate? || x.Commitments? || x.Allow?
    case Developing(x) => x.Withdraw? || x.Develop? || x.SetLifecycle?
    case Governing(x) => x.Withdraw? || x.SetPolicy? || x.SetLifecycle?
    case Receiving(x) => (x.PersistPage? || x.Enable?) && w.clock <= x.now
  }

  /** The three operations that every run begins with, in one transaction. */
  function PrepareAll(w: World, now: Time, names: Names): World {
    var h, r, e := A.Ensure(w.heartbeat, now, names.heartbeat),
                   R.Ensure(w.reviews, now, names.review, names.selected),
                   E.Ensure(w.allowances, now, names.allowance);
    if h.Err? || r.Err? || e.Err? then w.(raised := true)
    else w.(heartbeat := h.value, reviews := r.value, allowances := e.value, clock := now)
  }

  ghost function OpenAll(w: World, a: Action): World
    requires a.Open?
  {
    var i := if a.group.Some? then N.Claim(w.inbound, a.group.value, a.cycle, a.now) else Ok(w.inbound);
    if i.Err? then w.(raised := true)
    else
      w.(heartbeat := A.Step(w.heartbeat, A.Open(a.cycle, a.heartbeats, a.kinds)),
         reviews := R.Step(w.reviews, R.Start(a.cycle, a.now, a.reviewed)),
         allowances := E.Step(w.allowances, ExplorationStart(a)),
         inbound := i.value, clock := a.now)
  }

  /** Ending a cycle accounts for it in every scheduler, or is rolled back. */
  ghost function FinishAll(w: World, a: Action): World
    requires a.Finish? && a.cycle in w.heartbeat.cycles && a.cycle in w.reviews.cycles && a.cycle in w.allowances.cycles
  {
    var h, r, e := A.Outcome(A.Closed(w.heartbeat, a.cycle, a.failed, a.activity, a.now), a.cycle, a.now, a.names.heartbeat),
                   R.Outcome(R.Closed(w.reviews, a.cycle, a.failed, a.now), a.cycle, a.now, a.names.review, a.names.selected),
                   E.Outcome(E.Closed(w.allowances, a.cycle, a.failed, a.now), a.cycle, a.now, a.names.allowance);
    if h.Err? || r.Err? || e.Err? then w.(raised := true)
    else
      w.(heartbeat := h.value, reviews := r.value, allowances := e.value,
         inbound := if a.cycle in w.inbound.cycles then N.Finish(w.inbound, a.cycle, a.now) else w.inbound, clock := a.now)
  }

  ghost function Step(w: World, a: Action): World {
    if !Enabled(w, a) then w
    else match a
      case Prepare(now, names) => PrepareAll(w, now, names)
      case Open(_, _, _, _, _, _, _) => OpenAll(w, a)
      case Finish(c, _, _, _, _) =>
        if c in w.heartbeat.cycles && c in w.reviews.cycles && c in w.allowances.cycles then FinishAll(w, a) else w.(raised := true)
      case Configuring(x) => w.(heartbeat := A.Step(w.heartbeat, x))
      case Developing(x) => w.(reviews := R.Step(w.reviews, x))
      case Governing(x) => w.(allowances := E.Step(w.allowances, x))
      case Receiving(x) => w.(inbound := N.Step(w.inbound, x), clock := x.now)
  }

  ghost function Run(w: World, actions: seq<Action>): World {
    if actions == [] then w else Step(Run(w, actions[..|actions| - 1]), actions[|actions| - 1])
  }

  // ---- What every run keeps ----

  /** The schedulers agree on which cycle is active. */
  ghost predicate Agree(w: World) {
    && (forall c: Id :: A.IsActive(w.heartbeat.cycles, c) <==> R.IsActive(w.reviews.cycles, c))
    && (forall c: Id :: A.IsActive(w.heartbeat.cycles, c) <==> E.IsActive(w.allowances.cycles, c))
  }

  ghost predicate Sound(w: World) {
    A.Inv(w.heartbeat) && RI.Inv(w.reviews) && EI.Inv(w.allowances) && NI.Inv(w.inbound)
  }

  ghost predicate InTime(w: World) {
    HeartbeatBy(w.heartbeat, w.clock) && ReviewsBy(w.reviews, w.clock) && AllowancesBy(w.allowances, w.clock) && InboundBy(w.inbound, w.clock)
  }

  ghost predicate Inv(w: World) {
    Sound(w) && InTime(w) && Agree(w) && !w.raised
  }

  lemma PrepareKeepsInv(w: World, now: Time, names: Names)
    requires Inv(w) && Enabled(w, Prepare(now, names))
    ensures Inv(PrepareAll(w, now, names))
    ensures PrepareAll(w, now, names).heartbeat.cycles == w.heartbeat.cycles && PrepareAll(w, now, names).clock == now
  {
    hide A.Inv, RI.Inv, EI.Inv, NI.Inv, HeartbeatBy, ReviewsBy, AllowancesBy, InboundBy, A.Ensure, R.Ensure, E.Ensure;
    hide R.Selects;
    HeartbeatEnsures(w.heartbeat, w.clock, now, names.heartbeat);
    ReviewsEnsure(w.reviews, w.clock, now, names.review, names.selected);
    AllowancesEnsure(w.allowances, w.clock, now, names.allowance);
    InboundLater(w.inbound, w.clock, now);
  }

  lemma InboundLater(s: N.Source, clock: Time, now: Time)
    requires InboundBy(s, clock) && clock <= now
    ensures InboundBy(s, now)
  {
  }

  lemma OpenedInTime(w: World, a: Action)
    requires InTime(w) && a.Open? && w.clock <= a.now && Openable(w, a)
    ensures HeartbeatBy(A.Step(w.heartbeat, A.Open(a.cycle, a.heartbeats, a.kinds)), a.now)
    ensures ReviewsBy(R.Step(w.reviews, R.Start(a.cycle, a.now, a.reviewed)), a.now)
    ensures AllowancesBy(E.Step(w.allowances, ExplorationStart(a)), a.now)
  {
    hide HeartbeatBy, ReviewsBy, AllowancesBy, InboundBy, A.Enabled, R.Enabled, E.Enabled, A.Step, R.Step, E.Step;
    HeartbeatOpens(w.heartbeat, A.Open(a.cycle, a.heartbeats, a.kinds), w.clock, a.now);
    ReviewStarts(w.reviews, R.Start(a.cycle, a.now, a.reviewed), w.clock, a.now);
    AllowanceStarts(w.allowances, ExplorationStart(a), w.clock, a.now);
  }

  lemma HeartbeatOpens(db: A.Db, x: A.Action, clock: Time, now: Time)
    requires HeartbeatBy(db, clock) && clock <= now && x.Open?
    ensures HeartbeatBy(A.Step(db, x), now)
  {
    hide A.Moved;
  }

  lemma ReviewStarts(db: R.Db, x: R.Action, clock: Time, now: Time)
    requires ReviewsBy(db, clock) && clock <= now && x.Start? && x.now == now
    ensures ReviewsBy(R.Step(db, x), now)
  {
  }

  lemma AllowanceStarts(db: E.Db, x: E.Action, clock: Time, now: Time)
    requires AllowancesBy(db, clock) && clock <= now && (x.StartExploration? || x.StartOrdinary?) && x.now == now
    ensures AllowancesBy(E.Step(db, x), now)
  {
  }

  lemma OpenedAgree(w: World, a: Action)
    requires Agree(w) && a.Open? && Openable(w, a)
    ensures forall c: Id ::
      A.IsActive(A.Step(w.heartbeat, A.Open(a.cycle, a.heartbeats, a.kinds)).cycles, c)
      <==> R.IsActive(R.Step(w.reviews, R.Start(a.cycle, a.now, a.reviewed)).cycles, c)
    ensures forall c: Id ::
      A.IsActive(A.Step(w.heartbeat, A.Open(a.cycle, a.heartbeats, a.kinds)).cycles, c)
      <==> E.IsActive(E.Step(w.allowances, ExplorationStart(a)).cycles, c)
  {
  }

  lemma OpenedSound(w: World, a: Action)
    requires Sound(w) && a.Open? && Openable(w, a)
    ensures A.Inv(A.Step(w.heartbeat, A.Open(a.cycle, a.heartbeats, a.kinds)))
    ensures RI.Inv(R.Step(w.reviews, R.Start(a.cycle, a.now, a.reviewed)))
    ensures EI.Inv(E.Step(w.allowances, ExplorationStart(a)))
  {
    hide A.Inv, RI.Inv, EI.Inv, A.Step, R.Step, E.Step;
    AP.StepKeepsInv(w.heartbeat, A.Open(a.cycle, a.heartbeats, a.kinds));
    RR.StepKeepsInv(w.reviews, R.Start(a.cycle, a.now, a.reviewed));
    ES.StepKeepsInv(w.allowances, ExplorationStart(a));
  }

  lemma OpenKeepsInv(w: World, a: Action)
    requires Inv(w) && a.Open? && Enabled(w, a)
    ensures Inv(OpenAll(w, a))
  {
    hide A.Inv, RI.Inv, EI.Inv, NI.Inv, HeartbeatBy, ReviewsBy, AllowancesBy, InboundBy, A.Step, R.Step, E.Step, N.Claim;
    hide A.Enabled, R.Enabled, E.Enabled, A.IsActive, R.IsActive, E.IsActive;
    OpenedSound(w, a);
    OpenedInTime(w, a);
    OpenedAgree(w, a);
    if a.group.Some? {
      InboundClaims(w.inbound, a.group.value, a.cycle, w.clock, a.now);
    } else {
      InboundLater(w.inbound, w.clock, a.now);
    }
  }

  lemma ClosedAgree(w: World, a: Action)
    requires Agree(w) && a.Finish? && A.IsActive(w.heartbeat.cycles, a.cycle)
    ensures R.IsActive(w.reviews.cycles, a.cycle) && E.IsActive(w.allowances.cycles, a.cycle)
    ensures forall c: Id ::
      A.IsActive(A.Closed(w.heartbeat, a.cycle, a.failed, a.activity, a.now).cycles, c)
      <==> R.IsActive(R.Closed(w.reviews, a.cycle, a.failed, a.now).cycles, c)
    ensures forall c: Id ::
      A.IsActive(A.Closed(w.heartbeat, a.cycle, a.failed, a.activity, a.now).cycles, c)
      <==> E.IsActive(E.Closed(w.allowances, a.cycle, a.failed, a.now).cycles, c)
    ensures !A.IsActive(A.Closed(w.heartbeat, a.cycle, a.failed, a.activity, a.now).cycles, a.cycle)
  {
    assert A.IsActive(w.heartbeat.cycles, a.cycle);
    forall c: Id
      ensures A.IsActive(A.Closed(w.heartbeat, a.cycle, a.failed, a.activity, a.now).cycles, c) <==> c != a.cycle && A.IsActive(w.heartbeat.cycles, c)
      ensures R.IsActive(R.Closed(w.reviews, a.cycle, a.failed, a.now).cycles, c) <==> c != a.cycle && R.IsActive(w.reviews.cycles, c)
      ensures E.IsActive(E.Closed(w.allowances, a.cycle, a.failed, a.now).cycles, c) <==> c != a.cycle && E.IsActive(w.allowances.cycles, c)
    {
    }
    hide A.IsActive, R.IsActive, E.IsActive, A.Closed, R.Closed, E.Closed;
  }

  /** No accounting refuses: the cycle ends in all schedulers at once, and each is left sound. */
  lemma FinishKeepsInv(w: World, a: Action)
    requires Inv(w) && a.Finish? && Enabled(w, a)
    ensures a.cycle in w.heartbeat.cycles && a.cycle in w.reviews.cycles && a.cycle in w.allowances.cycles
    ensures Inv(FinishAll(w, a)) && !A.IsActive(FinishAll(w, a).heartbeat.cycles, a.cycle)
    ensures FinishAll(w, a).heartbeat.cycles == A.Closed(w.heartbeat, a.cycle, a.failed, a.activity, a.now).cycles
    ensures A.Governing(w.heartbeat).Some? ==> A.CountOf(FinishAll(w, a).heartbeat.events, a.cycle) == 1
  {
    hide Openable;
    hide A.Inv, RI.Inv, EI.Inv, NI.Inv, HeartbeatBy, ReviewsBy, AllowancesBy, InboundBy;
    hide A.Outcome, R.Outcome, E.Outcome, A.Closed, R.Closed, E.Closed, N.Finish, A.CountOf, A.Governing, R.SelectsNext;
    ClosedAgree(w, a);
    HeartbeatFinishes(w.heartbeat, a.cycle, a.failed, a.activity, w.clock, a.now, a.names.heartbeat);
    ReviewsFinish(w.reviews, a.cycle, a.failed, w.clock, a.now, a.names.review, a.names.selected);
    AllowancesFinish(w.allowances, a.cycle, a.failed, w.clock, a.now, a.names.allowance);
    if a.cycle in w.inbound.cycles {
      InboundFinishes(w.inbound, a.cycle, w.clock, a.now);
    } else {
      InboundLater(w.inbound, w.clock, a.now);
    }
  }

  lemma ConfiguringKeepsInv(w: World, x: A.Action)
    requires Inv(w) && Enabled(w, Configuring(x))
    ensures Inv(w.(heartbeat := A.Step(w.heartbeat, x)))
  {
    hide A.Inv, RI.Inv, EI.Inv, NI.Inv, ReviewsBy, AllowancesBy, InboundBy, A.Step;
    AP.StepKeepsInv(w.heartbeat, x);
    ConfiguringFrame(w.heartbeat, x);
  }

  lemma ConfiguringFrame(db: A.Db, x: A.Action)
    requires x.Configure? || x.Deactivate? || x.Commitments? || x.Allow?
    ensures A.Step(db, x).state == db.state && A.Step(db, x).cycles == db.cycles
  {
  }

  lemma DevelopingKeepsInv(w: World, x: R.Action)
    requires Inv(w) && Enabled(w, Developing(x))
    ensures Inv(w.(reviews := R.Step(w.reviews, x)))
  {
    hide A.Inv, RI.Inv, EI.Inv, NI.Inv, HeartbeatBy, AllowancesBy, InboundBy, R.Step;
    RR.StepKeepsInv(w.reviews, x);
    DevelopingFrame(w.reviews, x);
  }

  lemma DevelopingFrame(db: R.Db, x: R.Action)
    requires x.Withdraw? || x.Develop? || x.SetLifecycle?
    ensures R.Step(db, x).state == db.state && R.Step(db, x).cycles == db.cycles && R.Step(db, x).batches == db.batches
  {
  }

  lemma GoverningKeepsInv(w: World, x: E.Action)
    requires Inv(w) && Enabled(w, Governing(x))
    ensures Inv(w.(allowances := E.Step(w.allowances, x)))
  {
    hide A.Inv, RI.Inv, EI.Inv, NI.Inv, HeartbeatBy, ReviewsBy, InboundBy, E.Step;
    ES.StepKeepsInv(w.allowances, x);
    GoverningFrame(w.allowances, x);
  }

  lemma GoverningFrame(db: E.Db, x: E.Action)
    requires x.Withdraw? || x.SetPolicy? || x.SetLifecycle?
    ensures var after := E.Step(db, x);
      after.state == db.state && after.cycles == db.cycles && after.events == db.events && after.grants == db.grants
  {
  }

  lemma ReceivingKeepsInv(w: World, x: N.Action)
    requires Inv(w) && Enabled(w, Receiving(x))
    ensures Inv(w.(inbound := N.Step(w.inbound, x), clock := x.now))
  {
    hide A.Inv, RI.Inv, EI.Inv, NI.Inv, HeartbeatBy, ReviewsBy, AllowancesBy, InboundBy, N.Step;
    InboundStepBy(w.inbound, x, w.clock);
    OthersLater(w, x.now);
  }

  lemma OthersLater(w: World, now: Time)
    requires InTime(w) && w.clock <= now
    ensures HeartbeatBy(w.heartbeat, now) && ReviewsBy(w.reviews, now) && AllowancesBy(w.allowances, now)
  {
    hide InboundBy;
  }

  lemma StepKeepsInv(w: World, a: Action)
    requires Inv(w)
    ensures Inv(Step(w, a))
  {
    hide Inv, Enabled, PrepareAll, OpenAll, FinishAll, A.Step, R.Step, E.Step, N.Step;
    if Enabled(w, a) {
      match a
      case Prepare(now, names) => PrepareKeepsInv(w, now, names);
      case Open(_, _, _, _, _, _, _) => OpenKeepsInv(w, a);
      case Finish(_, _, _, _, _) => FinishKeepsInv(w, a);
      case Configuring(x) => ConfiguringKeepsInv(w, x);
      case Developing(x) => DevelopingKeepsInv(w, x);
      case Governing(x) => GoverningKeepsInv(w, x);
      case Receiving(x) => ReceivingKeepsInv(w, x);
    }
  }

  function Initial(commitments: seq<A.Commitment>, allowed: bool, enabled: bool, now: Time): World {
    World(A.Db(None, map[], map[], [], map[], None, commitments, allowed), R.EMPTY, E.EMPTY, N.Create(enabled, now), now, false)
  }

  lemma InitialInv(commitments: seq<A.Commitment>, allowed: bool, enabled: bool, now: Time)
    ensures Inv(Initial(commitments, allowed, enabled, now))
  {
    hide A.Inv, RI.Inv, EI.Inv, NI.Inv;
    AP.EmptyKeepsInv(commitments, allowed);
    RR.EmptyInv();
    ES.RunKeepsInv([]);
    assert E.Run(E.EMPTY, []) == E.EMPTY;
    NI.CreateOk(enabled, now);
  }

  /**
   * While the clock does not go backwards, no transaction of any run raises on account of a scheduler
   * or an inbound claim: preparing, opening and ending cycles always commit, and all rows stay sound.
   */
  lemma {:induction false} RunNeverRaises(commitments: seq<A.Commitment>, allowed: bool, enabled: bool, start: Time, actions: seq<Action>)
    ensures Inv(Run(Initial(commitments, allowed, enabled, start), actions))
    ensures !Run(Initial(commitments, allowed, enabled, start), actions).raised
  {
    hide Step, Inv;
    var w := Initial(commitments, allowed, enabled, start);
    if actions == [] {
      InitialInv(commitments, allowed, enabled, start);
    } else {
      RunNeverRaises(commitments, allowed, enabled, start, actions[..|actions| - 1]);
      StepKeepsInv(Run(w, actions[..|actions| - 1]), actions[|actions| - 1]);
    }
    NotRaised(Run(w, actions));
  }

  lemma NotRaised(w: World)
    requires Inv(w)
    ensures !w.raised
  {
  }

  /** In every run, ending a cycle always takes effect: it is over in every scheduler, and its heartbeat accounted once. */
  lemma EveryEndIsAccounted(commitments: seq<A.Commitment>, allowed: bool, enabled: bool, start: Time, actions: seq<Action>, finish: Action)
    requires finish.Finish? && Enabled(Run(Initial(commitments, allowed, enabled, start), actions), finish)
    ensures var before := Run(Initial(commitments, allowed, enabled, start), actions);
      var after := Step(before, finish);
      && !after.raised && after.clock == finish.now
      && !A.IsActive(after.heartbeat.cycles, finish.cycle) && !R.IsActive(after.reviews.cycles, finish.cycle)
      && !E.IsActive(after.allowances.cycles, finish.cycle)
      && (A.Governing(before.heartbeat).Some? ==> A.CountOf(after.heartbeat.events, finish.cycle) == 1)
  {
    hide Run, Sound, InTime, A.Outcome, R.Outcome, E.Outcome, A.Closed, R.Closed, E.Closed, A.CountOf, A.Governing;
    RunNeverRaises(commitments, allowed, enabled, start, actions);
    var before := Run(Initial(commitments, allowed, enabled, start), actions);
    FinishKeepsInv(before, finish);
  }
}
