/** The cognition protocol and the schedulers in the same transactions: nothing raises in any run of both. */
module JointRuns {
  import opened Common
  import H = Heartbeat
  import C = Cognition
  import CI = CognitionInvariant
  import CS = CognitionSteps
  import A = Autonomy
  import R = ReflectionSchedule
  import E = Exploration
  import N = Ingestion
  import S = Schedulers

  datatype Joint = Joint(sys: C.Sys, world: S.World)

  /** What a newly opened cycle takes from the schedulers' own rows. */
  datatype Taken = Taken(heartbeats: set<Id>, kinds: seq<string>, reviewed: set<Id>, exploring: Option<S.Exploring>, group: Option<Id>)

  /**
   * A transaction of the protocol with the scheduler operations it calls, or a change of the schedulers'
   * rows from outside. `before` names what ensuring may create, `after` what accounting may create.
   */
  datatype Move =
    | Transaction(action: C.Action, before: S.Names, taken: Taken, activity: bool, after: S.Names)
    | Elsewhere(change: S.Action)

  function Now(a: C.Action): Option<Time> {
    match a
    case Begin(now, _, _, _, _) => Some(now)
    case Head(now, _, _) => Some(now)
    case Compile(now, _) => Some(now)
    case Start(now, _, _) => Some(now)
    case Answer(now, _) => Some(now)
    case _ => None
  }

  /** A run's first transaction, which ensures the three schedulers before it claims. */
  predicate Prepares(sys: C.Sys, a: C.Action) {
    a.Begin? && sys.process.Down? && sys.flags.allowed
  }

  function OpenAction(a: C.Action, taken: Taken): S.Action
    requires a.Begin?
  {
    S.Open(a.cycleId, a.now, taken.heartbeats, taken.kinds, taken.reviewed, taken.exploring, taken.group)
  }

  function FinishAction(sys: C.Sys, c: Id, now: Time, m: Move): S.Action
    requires m.Transaction? && c in sys.db.cycles
  {
    S.Finish(c, sys.db.cycles[c].status == C.Failed, m.activity, now, m.after)
  }

  /** The cycle that the step ends, if it does. */
  predicate Ended(before: C.Sys, after: C.Sys, c: Id) {
    C.IsActive(before.db.cycles, c) && c in after.db.cycles && !C.IsActive(after.db.cycles, c)
  }

  ghost function Ending(before: C.Sys, after: C.Sys): (c: Id)
    requires exists c :: Ended(before, after, c)
    ensures Ended(before, after, c)
  {
    var c :| Ended(before, after, c);
    c
  }

  predicate Opened(before: C.Sys, after: C.Sys, a: C.Action) {
    a.Begin? && C.IsActive(after.db.cycles, a.cycleId) && !C.IsActive(before.db.cycles, a.cycleId)
  }

  /** The schedulers' side of a transaction whose protocol side leads from `before` to `after`. */
  ghost function Scheduled(w: S.World, before: C.Sys, after: C.Sys, m: Move): S.World
    requires m.Transaction?
  {
    hide S.PrepareAll, S.OpenAll, S.FinishAll;
    var prepared := if Prepares(before, m.action) then S.PrepareAll(w, m.action.now, m.before) else w;
    if Opened(before, after, m.action) then S.OpenAll(prepared, OpenAction(m.action, m.taken))
    else if Now(m.action).Some? && exists c :: Ended(before, after, c) then
      var c := Ending(before, after);
      if c in w.heartbeat.cycles && c in w.reviews.cycles && c in w.allowances.cycles
      then S.FinishAll(w, FinishAction(after, c, Now(m.action).value, m))
      else w.(raised := true)
    else prepared
  }

  /**
   * The clock does not go backwards, identities are new, and a cycle takes from the schedulers only
   * what is pending in their rows.
   */
  ghost predicate Enabled(j: Joint, m: Move) {
    hide C.Step, C.Enabled, S.Enabled, S.PrepareAll, S.Openable, S.NewNames, R.SelectsNext;
    match m
    case Elsewhere(x) => !x.Prepare? && !x.Open? && !x.Finish? && S.Enabled(j.world, x)
    case Transaction(a, before, taken, activity, after) =>
      var next := C.Step(j.sys, a);
      && C.Enabled(j.sys, a)
      && (Now(a).Some? ==> j.world.clock <= Now(a).value <= H.MAX_TIME)
      && (Prepares(j.sys, a) ==> S.Enabled(j.world, S.Prepare(a.now, before)))
      && (Opened(j.sys, next, a) ==>
            Prepares(j.sys, a) && S.Openable(S.PrepareAll(j.world, a.now, before), OpenAction(a, taken)))
      && (forall c :: Ended(j.sys, next, c) && Now(a).Some? ==>
            S.NewNames(j.world, after) && R.SelectsNext(j.world.reviews, c, Now(a).value, after.selected))
  }

  /** Both sides commit together; if either raises, the transaction is rolled back and the exception recorded. */
  ghost function Step(j: Joint, m: Move): Joint {
    hide Enabled, Scheduled, C.Step, S.Step;
    if !Enabled(j, m) then j
    else match m
      case Elsewhere(x) => j.(world := S.Step(j.world, x))
      case Transaction(a, _, _, _, _) =>
        var next := C.Step(j.sys, a);
        var world := Scheduled(j.world, j.sys, next, m);
        if next.raised || world.raised then Joint(j.sys.(process := C.Down, raised := true), j.world.(raised := true))
        else Joint(next, world)
  }

  ghost function Run(j: Joint, moves: seq<Move>): Joint {
    hide Step;
    if moves == [] then j else Step(Run(j, moves[..|moves| - 1]), moves[|moves| - 1])
  }

  // ---- How the protocol changes cycles ----

  /** Every other cycle stays as it is, and `c` stays or ends. */
  ghost predicate EndsOnly(before: map<Id, C.Cycle>, after: map<Id, C.Cycle>, c: Id) {
    after == before || (c in before && c in after && after == before[c := after[c]] && after[c].status != C.Active)
  }

  lemma FinishEndsOnly(db: C.Db, c: Id, now: Time, reason: string, failed: bool)
    requires c in db.cycles
    ensures EndsOnly(db.cycles, C.FinishCycle(db, c, now, reason, failed).cycles, c)
  {
  }

  lemma FailEndsOnly(db: C.Db, c: Id, t: Id, now: Time, reason: string)
    requires c in db.cycles && t in db.turns
    ensures EndsOnly(db.cycles, C.FailTurn(db, c, t, now, reason).cycles, c)
  {
    hide C.FinishCycle;
    FinishEndsOnly(C.EndTurn(db, t, C.TurnFailed, now), c, now, reason, true);
  }

  lemma SettleEndsOnly(db: C.Db, flags: C.Flags, c: Id, t: Id, now: Time)
    requires c in db.cycles && t in db.turns
    ensures EndsOnly(db.cycles, C.Settle(db, flags, c, t, now).0.cycles, c)
  {
    hide C.FailTurn, C.Exhausted, C.AbandonStarted;
    var settled := db.(calls := C.AbandonStarted(db.calls, t, now));
    if reason :| C.Exhausted(settled, flags, c, t, now) == Some(reason) {
      FailEndsOnly(settled, c, t, now, reason);
    }
  }

  lemma ApplyEndsOnly(db: C.Db, c: Id, t: Id, now: Time, verdict: C.Verdict, n: Id)
    requires c in db.cycles && t in db.turns && db.turns[t].decision.Some?
    ensures EndsOnly(db.cycles, C.ApplyDecision(db, c, t, now, verdict, n).cycles, c)
  {
    hide C.FinishCycle, C.Acceptable, C.ScheduleAll, C.DispositionName;
    var d := db.turns[t].decision.value;
    FinishEndsOnly(C.EndTurn(db, t, C.Rejected, now), c, now, "decision_rejected", true);
    var done := C.EndTurn(C.TakeEffect(db, t, d, now, db.cycles[c].minWakeDelay), t, C.Applied, now);
    FinishEndsOnly(done, c, now, C.DispositionName(d.disposition), false);
    FinishEndsOnly(done, c, now, "turn_limit", false);
    FinishEndsOnly(done, c, now, "deadline", false);
  }

  lemma FailCallEndsOnly(db: C.Db, c: Id, t: Id, i: Id, now: Time, error: string)
    requires c in db.cycles && t in db.turns && i in db.calls
    ensures EndsOnly(db.cycles, C.FailCall(db, i, now, error).cycles, c)
    ensures EndsOnly(db.cycles, C.FailTurn(C.FailCall(db, i, now, error), c, t, now, error).cycles, c)
  {
    hide C.FailTurn;
    FailEndsOnly(C.FailCall(db, i, now, error), c, t, now, error);
  }

  lemma RecordEndsOnly(db: C.Db, c: Id, t: Id, i: Id, request: C.Request, result: C.ModelResult, now: Time)
    requires c in db.cycles && t in db.turns && i in db.calls
    ensures EndsOnly(db.cycles, C.RecordResult(db, c, t, i, request, result, now).cycles, c)
  {
    hide C.FailTurn, C.FailCall, C.DecisionKnown;
    FailCallEndsOnly(db, c, t, i, now, "request_id_mismatch");
    FailCallEndsOnly(db, c, t, i, now, "protocol_mismatch");
    FailCallEndsOnly(db, c, t, i, now, "refused");
    FailCallEndsOnly(db, c, t, i, now, "failed");
    FailCallEndsOnly(db, c, t, i, now, "duplicate_decision_id");
  }

  lemma HeadEndsOnly(s: C.Sys, a: C.Action) returns (c: Id)
    requires CI.Inv(s) && a.Head?
    ensures EndsOnly(s.db.cycles, C.HeadStep(s, a).db.cycles, c)
  {
    hide CI.Inv, C.ApplyDecision, C.Settle, EndsOnly;
    SameCycles(s.db.cycles, 0);
    c := if s.process.Looping? then s.process.cycleId else 0;
    SameCycles(s.db.cycles, c);
    if s.process.Looping? && C.IsActive(s.db.cycles, c) && s.flags.allowed && exists t :: C.IsLatest(s.db.turns, c, t) {
      forall t | C.IsLatest(s.db.turns, c, t)
        ensures EndsOnly(s.db.cycles, C.Settle(s.db, s.flags, c, t, a.now).0.cycles, c)
        ensures s.db.turns[t].decision.Some? ==>
          EndsOnly(s.db.cycles, C.ApplyDecision(s.db, c, t, a.now, a.verdict, a.nextTurn).cycles, c)
      {
        SettleEndsOnly(s.db, s.flags, c, t, a.now);
        if s.db.turns[t].decision.Some? {
          ApplyEndsOnly(s.db, c, t, a.now, a.verdict, a.nextTurn);
        }
      }
    }
  }

  lemma SameCycles(cycles: map<Id, C.Cycle>, c: Id)
    ensures EndsOnly(cycles, cycles, c)
  {
  }

  lemma CallEndsOnly(s: C.Sys, a: C.Action) returns (c: Id)
    requires a.Compile? || a.Start? || a.Answer?
    ensures EndsOnly(s.db.cycles, C.Step(s, a).db.cycles, c)
  {
    hide C.FailTurn, C.FailCall, C.RecordResult, C.Settle, EndsOnly, C.Enabled, C.BeginStep, C.HeadStep, C.AddWakeStep;
    c := if s.process.Down? then 0 else s.process.cycleId;
    SameCycles(s.db.cycles, c);
    if !s.process.Down? && !s.process.Looping? && c in s.db.cycles && s.process.turnId in s.db.turns {
      var t := s.process.turnId;
      match a
      case Compile(now, _) =>
        FailEndsOnly(s.db, c, t, now, "missing_configuration");
        FailEndsOnly(s.db, c, t, now, "context_budget");
      case Start(now, _, _) => SettleEndsOnly(s.db, s.flags, c, t, now);
      case Answer(now, reply) =>
        if s.process.Calling? && s.process.callId in s.db.calls {
          FailCallEndsOnly(s.db, c, t, s.process.callId, now, "provider_error");
          FailCallEndsOnly(s.db, c, t, s.process.callId, now, "invalid_result");
          if reply.Result? && t in s.db.contexts {
            RecordEndsOnly(s.db, c, t, s.process.callId, s.db.contexts[t], reply.result, now);
          }
        }
    }
  }

  /** Beginning leaves cycles alone or adds the one it opens. */
  lemma BeginOpensOnly(s: C.Sys, a: C.Action)
    requires CI.Inv(s) && a.Begin? && C.Enabled(s, a)
    ensures var after := C.Step(s, a).db.cycles;
      || after == s.db.cycles
      || (&& Prepares(s, a) && !C.HasActive(s.db.cycles) && a.cycleId in after
          && after == s.db.cycles[a.cycleId := after[a.cycleId]] && after[a.cycleId].status == C.Active)
  {
    hide CI.Inv, C.Choose, C.RecoverOrphans, C.HeadStep, C.CompileStep, C.StartStep, C.AnswerStep, C.AddWakeStep;
    NoOrphansOf(s, a);
  }

  lemma NoOrphansOf(s: C.Sys, a: C.Action)
    requires CI.Inv(s) && a.Begin?
    ensures CI.LinksOk(s.db.wakes, s.db.links, s.db.cycles)
  {
    hide CI.TurnsOk, CI.NumbersOk, CI.StagesOk, CI.DecisionsOk, CI.EffectsOk, CI.LinksOk, CI.ScopeOk, CI.GrantsOk;
  }

  // ---- What every joint run keeps ----

  /** The protocol and the schedulers agree on which cycle is active. */
  ghost predicate Coupled(cycles: map<Id, C.Cycle>, heartbeats: map<Id, A.Cycle>) {
    forall c: Id :: C.IsActive(cycles, c) <==> A.IsActive(heartbeats, c)
  }

  ghost predicate Inv(j: Joint) {
    CI.Inv(j.sys) && S.Inv(j.world) && Coupled(j.sys.db.cycles, j.world.heartbeat.cycles)
  }

  lemma EndsCoupled(before: map<Id, C.Cycle>, after: map<Id, C.Cycle>, c: Id, heartbeats: map<Id, A.Cycle>)
    requires Coupled(before, heartbeats) && EndsOnly(before, after, c) && !(exists x :: C.IsActive(before, x) && !C.IsActive(after, x))
    ensures Coupled(after, heartbeats)
  {
  }

  lemma ClosedCoupled(before: map<Id, C.Cycle>, after: map<Id, C.Cycle>, c: Id, x: Id, db: A.Db, failed: bool, activity: bool, now: Time)
    requires Coupled(before, db.cycles) && EndsOnly(before, after, c)
    requires C.IsActive(before, x) && x in after && !C.IsActive(after, x) && x in db.cycles
    ensures Coupled(after, A.Closed(db, x, failed, activity, now).cycles)
  {
    assert x == c;
    forall y: Id
      ensures C.IsActive(after, y) <==> A.IsActive(A.Closed(db, x, failed, activity, now).cycles, y)
    {
      assert C.IsActive(before, y) <==> A.IsActive(db.cycles, y);
    }
  }

  lemma OpenedCoupled(before: map<Id, C.Cycle>, after: map<Id, C.Cycle>, c: Id, heartbeats: map<Id, A.Cycle>, row: A.Cycle)
    requires Coupled(before, heartbeats) && c in after && after == before[c := after[c]] && after[c].status == C.Active
    requires row.status == A.Active
    ensures Coupled(after, heartbeats[c := row])
  {
    forall y: Id
      ensures C.IsActive(after, y) <==> A.IsActive(heartbeats[c := row], y)
    {
      assert C.IsActive(before, y) <==> A.IsActive(heartbeats, y);
    }
  }

  // ---- Transactions ----

  lemma PreparedInv(w: S.World, now: Time, names: S.Names)
    requires S.Inv(w) && S.Enabled(w, S.Prepare(now, names))
    ensures var prepared := S.PrepareAll(w, now, names);
      S.Inv(prepared) && prepared.heartbeat.cycles == w.heartbeat.cycles && prepared.clock == now
  {
    hide S.Inv, S.PrepareAll, S.Enabled;
    S.PrepareKeepsInv(w, now, names);
  }

  lemma OpenedInv(w: S.World, x: S.Action)
    requires S.Inv(w) && x.Open? && w.clock <= x.now && S.Openable(w, x)
    ensures var later := S.OpenAll(w, x);
      && S.Inv(later) && x.cycle in later.heartbeat.cycles && later.heartbeat.cycles[x.cycle].status == A.Active
      && later.heartbeat.cycles == w.heartbeat.cycles[x.cycle := later.heartbeat.cycles[x.cycle]]
  {
    hide S.Inv, S.OpenAll, S.Openable;
    S.OpenKeepsInv(w, x);
    S.NotRaised(S.OpenAll(w, x));
    OpenedHeartbeat(w, x);
  }

  lemma OpenedHeartbeat(w: S.World, x: S.Action)
    requires x.Open? && w.clock <= x.now && S.Openable(w, x) && !S.OpenAll(w, x).raised
    ensures var later := S.OpenAll(w, x);
      && x.cycle in later.heartbeat.cycles && later.heartbeat.cycles[x.cycle].status == A.Active
      && later.heartbeat.cycles == w.heartbeat.cycles[x.cycle := later.heartbeat.cycles[x.cycle]]
  {
    hide R.Step, E.Step, R.Enabled, E.Enabled, A.Moved;
  }

  lemma FinishedInv(w: S.World, x: S.Action)
    requires S.Inv(w) && x.Finish? && S.Enabled(w, x)
    ensures x.cycle in w.heartbeat.cycles && x.cycle in w.reviews.cycles && x.cycle in w.allowances.cycles
    ensures var finished := S.FinishAll(w, x);
      && S.Inv(finished) && finished.heartbeat.cycles == A.Closed(w.heartbeat, x.cycle, x.failed, x.activity, x.now).cycles
      && (A.Governing(w.heartbeat).Some? ==> A.CountOf(finished.heartbeat.events, x.cycle) == 1)
  {
    hide S.Inv, S.Enabled, S.FinishAll, A.Closed, A.CountOf, A.Governing;
    S.FinishKeepsInv(w, x);
  }

  /** The schedulers' side of a transaction is sound and agrees with the protocol's side. */
  ghost predicate KeepsBoth(j: Joint, m: Move) {
    hide C.Step, Scheduled, S.Inv, Coupled;
    m.Transaction? &&
    var next := C.Step(j.sys, m.action);
    var w := Scheduled(j.world, j.sys, next, m);
    S.Inv(w) && Coupled(next.db.cycles, w.heartbeat.cycles)
  }

  /** A transaction that begins a run: preparing, then resuming, opening or claiming nothing. */
  lemma BeginJoint(j: Joint, m: Move)
    requires m.Transaction? && m.action.Begin? && Inv(j) && Enabled(j, m)
    ensures KeepsBoth(j, m)
  {
    hide CI.Inv, S.Inv, C.Step, S.PrepareAll, S.OpenAll, S.Openable, S.Enabled, C.Enabled, R.SelectsNext, S.NewNames;
    var a := m.action;
    BeginOpensOnly(j.sys, a);
    NothingEnds(j.sys, C.Step(j.sys, a), a);
    var prepared := if Prepares(j.sys, a) then S.PrepareAll(j.world, a.now, m.before) else j.world;
    if Prepares(j.sys, a) {
      PreparedInv(j.world, a.now, m.before);
    }
    if Opened(j.sys, C.Step(j.sys, a), a) {
      OpenedInv(prepared, OpenAction(a, m.taken));
      OpenedCoupled(j.sys.db.cycles, C.Step(j.sys, a).db.cycles, a.cycleId, prepared.heartbeat.cycles,
                    S.OpenAll(prepared, OpenAction(a, m.taken)).heartbeat.cycles[a.cycleId]);
    } else {
      NotOpened(j.sys, C.Step(j.sys, a), a);
    }
  }

  lemma NothingEnds(before: C.Sys, after: C.Sys, a: C.Action)
    requires a.Begin? && C.Enabled(before, a)
    requires after.db.cycles == before.db.cycles
          || (a.cycleId in after.db.cycles && after.db.cycles == before.db.cycles[a.cycleId := after.db.cycles[a.cycleId]])
    ensures !exists c :: Ended(before, after, c)
  {
  }

  lemma NotOpened(before: C.Sys, after: C.Sys, a: C.Action)
    requires a.Begin? && C.Enabled(before, a) && !Opened(before, after, a)
    requires after.db.cycles == before.db.cycles
          || (a.cycleId in after.db.cycles && after.db.cycles == before.db.cycles[a.cycleId := after.db.cycles[a.cycleId]]
              && after.db.cycles[a.cycleId].status == C.Active)
    ensures after.db.cycles == before.db.cycles
  {
  }

  lemma LaterEndsOnly(s: C.Sys, a: C.Action) returns (c: Id)
    requires CI.Inv(s) && !a.Begin?
    ensures EndsOnly(s.db.cycles, C.Step(s, a).db.cycles, c)
    ensures Now(a).None? ==> C.Step(s, a).db.cycles == s.db.cycles
  {
    hide CI.Inv, EndsOnly, C.HeadStep, C.CompileStep, C.StartStep, C.AnswerStep, C.Enabled;
    SameCycles(s.db.cycles, 0);
    if a.Head? {
      c := HeadEndsOnly(s, a);
      SameCycles(s.db.cycles, c);
    } else if a.Compile? || a.Start? || a.Answer? {
      c := CallEndsOnly(s, a);
    } else {
      c := 0;
    }
  }

  /** Any other transaction: if it ends the cycle, every scheduler accounts for it at once. */
  lemma LaterJoint(j: Joint, m: Move)
    requires m.Transaction? && !m.action.Begin? && Inv(j) && Enabled(j, m)
    ensures KeepsBoth(j, m)
  {
    hide CI.Inv, S.Inv, C.Step, S.PrepareAll, S.OpenAll, S.FinishAll, S.Openable, S.Enabled, C.Enabled, EndsOnly;
    hide S.NewNames, R.SelectsNext, Coupled, A.Closed;
    var a, next := m.action, C.Step(j.sys, m.action);
    var c := LaterEndsOnly(j.sys, a);
    if Now(a).Some? && exists x :: Ended(j.sys, next, x) {
      var x := Ending(j.sys, next);
      var finish := FinishAction(next, x, Now(a).value, m);
      FinishEnabled(j, m, x);
      FinishedInv(j.world, finish);
      ClosedCoupled(j.sys.db.cycles, next.db.cycles, c, x, j.world.heartbeat, finish.failed, finish.activity, finish.now);
    } else {
      NoneEnded(j.sys, next, c);
      EndsCoupled(j.sys.db.cycles, next.db.cycles, c, j.world.heartbeat.cycles);
    }
  }

  lemma NoneEnded(before: C.Sys, after: C.Sys, c: Id)
    requires EndsOnly(before.db.cycles, after.db.cycles, c)
    requires after.db.cycles == before.db.cycles || !exists x :: Ended(before, after, x)
    ensures !(exists x :: C.IsActive(before.db.cycles, x) && !C.IsActive(after.db.cycles, x))
  {
    forall x: Id | C.IsActive(before.db.cycles, x)
      ensures C.IsActive(after.db.cycles, x)
    {
      assert !Ended(before, after, x) || after.db.cycles == before.db.cycles;
    }
  }

  lemma FinishEnabled(j: Joint, m: Move, x: Id)
    requires m.Transaction? && Enabled(j, m) && !m.action.Begin? && Now(m.action).Some?
    requires Ended(j.sys, C.Step(j.sys, m.action), x) && Coupled(j.sys.db.cycles, j.world.heartbeat.cycles)
    ensures S.Enabled(j.world, FinishAction(C.Step(j.sys, m.action), x, Now(m.action).value, m))
  {
    hide C.Step, C.Enabled, S.NewNames, R.SelectsNext, S.Openable;
  }

  /** No transaction of both sides raises, and both stay sound and agree on the active cycle. */
  lemma StepKeepsInv(j: Joint, m: Move)
    requires Inv(j)
    ensures Inv(Step(j, m))
  {
    hide CI.Inv, S.Inv, C.Step, S.Step, Scheduled, Coupled, S.Enabled, C.Enabled, S.PrepareAll, S.Openable, S.NewNames, R.SelectsNext;
    if Enabled(j, m) {
      match m
      case Elsewhere(x) => ElsewhereKeepsInv(j, x);
      case Transaction(a, _, _, _, _) =>
        CS.StepKeepsInv(j.sys, a);
        ProtocolQuiet(C.Step(j.sys, a));
        if a.Begin? {
          BeginJoint(j, m);
        } else {
          LaterJoint(j, m);
        }
        S.NotRaised(Scheduled(j.world, j.sys, C.Step(j.sys, a), m));
    }
  }

  lemma ProtocolQuiet(s: C.Sys)
    requires CI.Inv(s)
    ensures !s.raised
  {
    hide CI.DbOk, CI.ProcessOk;
  }

  lemma ElsewhereKeepsInv(j: Joint, x: S.Action)
    requires Inv(j) && !x.Prepare? && !x.Open? && !x.Finish? && S.Enabled(j.world, x)
    ensures Inv(j.(world := S.Step(j.world, x)))
  {
    hide CI.Inv, S.Inv, S.Step, S.Enabled;
    S.StepKeepsInv(j.world, x);
    ElsewhereFrame(j.world, x);
  }

  lemma ElsewhereFrame(w: S.World, x: S.Action)
    requires !x.Prepare? && !x.Open? && !x.Finish? && S.Enabled(w, x)
    ensures S.Step(w, x).heartbeat.cycles == w.heartbeat.cycles
  {
    hide A.Step, R.Step, E.Step, N.Step, S.PrepareAll, S.OpenAll, S.FinishAll, S.Openable, S.NewNames, R.SelectsNext;
    if x.Configuring? {
      S.ConfiguringFrame(w.heartbeat, x.heartbeat);
    }
  }

  // ---- Runs ----

  function Initial(flags: C.Flags, commitments: seq<A.Commitment>, allowed: bool, enabled: bool, now: Time): Joint {
    Joint(CS.Initial(flags), S.Initial(commitments, allowed, enabled, now))
  }

  lemma InitialInv(flags: C.Flags, commitments: seq<A.Commitment>, allowed: bool, enabled: bool, now: Time)
    ensures Inv(Initial(flags, commitments, allowed, enabled, now))
  {
    CS.InitialOk(flags);
    S.InitialInv(commitments, allowed, enabled, now);
    hide CI.Inv, S.Inv;
  }

  /**
   * In every run of both sides, interrupted anywhere and with a clock that does not go backwards, no
   * transaction raises: not the protocol, not the three ensuring operations, not the claim of an inbound
   * group and not the accounting when a cycle ends.
   */
  lemma {:induction false} RunNeverRaises(flags: C.Flags, commitments: seq<A.Commitment>, allowed: bool, enabled: bool, start: Time, moves: seq<Move>)
    ensures var j := Run(Initial(flags, commitments, allowed, enabled, start), moves);
      Inv(j) && !j.sys.raised && !j.world.raised
  {
    hide Inv, Step;
    var j := Initial(flags, commitments, allowed, enabled, start);
    if moves == [] {
      InitialInv(flags, commitments, allowed, enabled, start);
    } else {
      RunNeverRaises(flags, commitments, allowed, enabled, start, moves[..|moves| - 1]);
      StepKeepsInv(Run(j, moves[..|moves| - 1]), moves[|moves| - 1]);
    }
    NoneRaised(Run(j, moves));
  }

  lemma NoneRaised(j: Joint)
    requires Inv(j)
    ensures !j.sys.raised && !j.world.raised
  {
    hide CI.Inv, S.Inv;
    ProtocolQuiet(j.sys);
    S.NotRaised(j.world);
  }

  /** The protocol's side of a move, alone. */
  ghost function Alone(sys: C.Sys, m: Move): C.Sys {
    if m.Transaction? then C.Step(sys, m.action) else sys
  }

  /** The protocol's tables change in a joint run exactly as they would alone. */
  lemma ProtocolUnaffected(j: Joint, m: Move)
    requires Inv(j) && Enabled(j, m)
    ensures Step(j, m).sys == Alone(j.sys, m)
  {
    hide Inv, Enabled, Step, Alone;
    StepKeepsInv(j, m);
    NoneRaised(Step(j, m));
    CommitsOrRaises(j, m);
  }

  lemma CommitsOrRaises(j: Joint, m: Move)
    requires Enabled(j, m)
    ensures Step(j, m).sys.raised || Step(j, m).sys == Alone(j.sys, m)
  {
    hide Enabled, C.Step, S.Step, Scheduled;
  }

  /** The protocol's steps in a joint run, without those that were not enabled. */
  ghost function Actions(j: Joint, moves: seq<Move>): seq<C.Action> {
    hide Run, Enabled;
    if moves == [] then []
    else
      var front, last := moves[..|moves| - 1], moves[|moves| - 1];
      Actions(j, front) + if Enabled(Run(j, front), last) && last.Transaction? then [last.action] else []
  }

  /** So whatever holds of every run of the protocol holds of the protocol's side of every joint run. */
  lemma {:induction false} RunProjects(j: Joint, moves: seq<Move>)
    requires Inv(j)
    ensures Inv(Run(j, moves)) && Run(j, moves).sys == C.Run(j.sys, Actions(j, moves))
  {
    hide Inv, Step, Enabled, C.Step;
    if moves != [] {
      var front, last := moves[..|moves| - 1], moves[|moves| - 1];
      var before := Run(j, front);
      RunProjects(j, front);
      StepKeepsInv(before, last);
      if Enabled(before, last) {
        ProtocolUnaffected(before, last);
        if last.Transaction? {
          assert (Actions(j, front) + [last.action])[..|Actions(j, front)|] == Actions(j, front);
        } else {
          assert Actions(j, front) + [] == Actions(j, front);
        }
      } else {
        NotEnabled(before, last);
        assert Actions(j, front) + [] == Actions(j, front);
      }
    }
  }

  lemma NotEnabled(j: Joint, m: Move)
    requires !Enabled(j, m)
    ensures Step(j, m) == j
  {
    hide Enabled, Scheduled, C.Step, S.Step;
  }

  /** A cycle that the protocol ends is over in every scheduler after the same transaction. */
  lemma EndIsShared(j: Joint, m: Move, c: Id)
    requires Inv(j) && C.IsActive(j.sys.db.cycles, c) && !C.IsActive(Step(j, m).sys.db.cycles, c)
    ensures OverFor(Step(j, m).world, c)
  {
    hide Inv, Step, OverFor;
    StepKeepsInv(j, m);
    CoupledEnd(Step(j, m), c);
  }

  /** No scheduler has the cycle active. */
  predicate OverFor(w: S.World, c: Id) {
    !A.IsActive(w.heartbeat.cycles, c) && !R.IsActive(w.reviews.cycles, c) && !E.IsActive(w.allowances.cycles, c)
  }

  lemma CoupledEnd(j: Joint, c: Id)
    requires Inv(j) && !C.IsActive(j.sys.db.cycles, c)
    ensures OverFor(j.world, c)
  {
    hide CI.Inv, S.Sound, S.InTime, C.IsActive, A.IsActive, R.IsActive, E.IsActive;
  }
}
