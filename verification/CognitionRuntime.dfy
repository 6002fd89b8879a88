/** The owning process: one run's transactions in order, each a step of the protocol, and why the run ends. */
module CognitionRuntime {
  import opened Common
  import W = Wakes
  import C = Cognition
  import opened Cognition
  import opened CognitionInvariant
  import opened CognitionSteps
  import opened CognitionStore
  import R = CognitionRuns

  // ---- What is left to spend on a cycle ----

  /** Remaining turns, whether a decision is still wanted, remaining attempts; compared in this order. */
  datatype Budget = Budget(turns: nat, stage: nat, attempts: nat) {
    predicate LessThan(other: Budget) {
      || turns < other.turns
      || (turns == other.turns && stage < other.stage)
      || (turns == other.turns && stage == other.stage && attempts < other.attempts)
    }
  }

  const SPENT := Budget(0, 0, 0)

  function BudgetAt(cycle: Cycle, turn: Turn, made: nat): Budget {
    Budget(Max(0, cycle.maxTurns + 1 - turn.ordinal), if turn.decision.Some? then 0 else 1, Max(0, cycle.maxAttempts - made))
  }

  ghost function Remaining(db: Db, c: Id): Budget {
    if IsActive(db.cycles, c) && exists t :: IsLatest(db.turns, c, t) then
      var t :| IsLatest(db.turns, c, t);
      BudgetAt(db.cycles[c], db.turns[t], |Attempts(db.calls, t)|)
    else SPENT
  }

  lemma RemainingAt(db: Db, c: Id, t: Id)
    requires TurnsOk(db.cycles, db.turns) && OnTurn(db, c, t) && Unfinished(db.turns[t])
    ensures IsLatest(db.turns, c, t)
    ensures Remaining(db, c) == BudgetAt(db.cycles[c], db.turns[t], |Attempts(db.calls, t)|)
    ensures SPENT.LessThan(Remaining(db, c)) && Remaining(db, c).turns >= 1
  {
    LatestIsUnfinished(db.cycles, db.turns, c);
    assert IsLatest(db.turns, c, t);
  }

  lemma EndedHasNothingLeft(db: Db, c: Id)
    requires !IsActive(db.cycles, c)
    ensures Remaining(db, c) == SPENT
  {
  }

  /** Ending the cycle spends everything. */
  lemma FailSpends(db: Db, c: Id, t: Id, now: Time, reason: string)
    requires TurnsOk(db.cycles, db.turns) && OnTurn(db, c, t) && Unfinished(db.turns[t])
    ensures Remaining(FailTurn(db, c, t, now, reason), c).LessThan(Remaining(db, c))
  {
    hide TurnsOk;
    RemainingAt(db, c, t);
    EndedHasNothingLeft(FailTurn(db, c, t, now, reason), c);
  }

  lemma SettleSpends(db: Db, flags: Flags, c: Id, t: Id, now: Time)
    requires DbOk(db) && OnTurn(db, c, t) && Invocable(db.turns[t].status)
    ensures var (after, spent) := Settle(db, flags, c, t, now);
      if spent then Remaining(after, c).LessThan(Remaining(db, c)) else Remaining(after, c) == Remaining(db, c)
  {
    hide TurnsOk, NumbersOk, StagesOk, DecisionsOk, EffectsOk, LinksOk, ScopeOk, GrantsOk, W.KeysUnique;
    hide Remaining, EndTurn, FinishCycle;
    var settled := db.(calls := AbandonStarted(db.calls, t, now));
    AbandonSame(db.calls, t, now, t);
    RemainingAt(db, c, t);
    RemainingAt(settled, c, t);
    if Exhausted(settled, flags, c, t, now).Some? {
      FailSpends(settled, c, t, now, Exhausted(settled, flags, c, t, now).value);
    }
  }

  lemma FinishedIsInactive(db: Db, c: Id, now: Time, reason: string, failed: bool)
    requires c in db.cycles
    ensures !IsActive(FinishCycle(db, c, now, reason, failed).cycles, c)
  {
  }

  /** Applying either ends the cycle or hands over to the next turn. */
  lemma ApplyOutcome(db: Db, c: Id, t: Id, now: Time, verdict: Verdict, n: Id)
    requires IsActive(db.cycles, c) && t in db.turns && db.turns[t].decision.Some? && n !in db.turns
    ensures var after := ApplyDecision(db, c, t, now, verdict, n);
      IsActive(after.cycles, c) ==>
        && after.cycles == db.cycles && n in after.turns && after.turns[n] == NewTurn(c, db.turns[t].ordinal + 1)
  {
    hide Acceptable, TakeEffect, FinishCycle;
    forall done: Db, reason, failed | c in done.cycles
      ensures !IsActive(FinishCycle(done, c, now, reason, failed).cycles, c)
    {
      FinishedIsInactive(done, c, now, reason, failed);
    }
    R.EffectFrame(db, t, db.turns[t].decision.value, now, db.cycles[c].minWakeDelay);
  }

  lemma ApplySpends(db: Db, c: Id, t: Id, now: Time, verdict: Verdict, n: Id)
    requires DbOk(db) && OnTurn(db, c, t) && db.turns[t].status == Decided && db.turns[t].decision.Some?
    requires n !in db.turns
    ensures Remaining(ApplyDecision(db, c, t, now, verdict, n), c).LessThan(Remaining(db, c))
  {
    hide TurnsOk, NumbersOk, StagesOk, DecisionsOk, EffectsOk, LinksOk, ScopeOk, GrantsOk, W.KeysUnique;
    hide ApplyDecision, Remaining;
    ApplyOk(db, c, t, now, verdict, n);
    ApplyOutcome(db, c, t, now, verdict, n);
    RemainingAt(db, c, t);
    var after := ApplyDecision(db, c, t, now, verdict, n);
    if IsActive(after.cycles, c) {
      RemainingAt(after, c, n);
    } else {
      EndedHasNothingLeft(after, c);
    }
  }

  lemma StartSpends(db: Db, flags: Flags, c: Id, t: Id, now: Time, i: Id)
    requires DbOk(db) && OnTurn(db, c, t) && Invocable(db.turns[t].status) && t in db.contexts && i !in db.calls
    ensures Remaining(StartCall(db, flags, c, t, now, i).0, c).LessThan(Remaining(db, c))
  {
    hide TurnsOk, NumbersOk, StagesOk, DecisionsOk, EffectsOk, LinksOk, ScopeOk, GrantsOk, W.KeysUnique;
    hide Remaining;
    SettleSpends(db, flags, c, t, now);
    SettleOk(db, flags, c, t, now);
    StartOk(db, flags, c, t, now, i);
    var (settled, spent) := Settle(db, flags, c, t, now);
    if !spent {
      var after := StartCall(db, flags, c, t, now, i).0;
      hide Settle;
      RemainingAt(settled, c, t);
      RemainingAt(after, c, t);
      AttemptsGrow(settled.calls, i, after.calls[i], t);
    }
  }

  /** A call that merely failed leaves the budget as it is; any other answer spends more. */
  ghost predicate NotMore(after: Db, before: Db, c: Id) {
    Remaining(after, c) == Remaining(before, c) || Remaining(after, c).LessThan(Remaining(before, c))
  }

  lemma FailCallSpends(db: Db, c: Id, t: Id, i: Id, now: Time, error: string)
    requires DbOk(db) && ProcessOk(db, Calling(c, t, i))
    ensures Remaining(FailCall(db, i, now, error), c) == Remaining(db, c)
    ensures NotMore(FailCall(db, i, now, error), db, c)
  {
    hide TurnsOk, NumbersOk, StagesOk, DecisionsOk, EffectsOk, LinksOk, ScopeOk, GrantsOk, W.KeysUnique;
    hide Remaining;
    RemainingAt(db, c, t);
    RemainingAt(FailCall(db, i, now, error), c, t);
    assert Attempts(FailCall(db, i, now, error).calls, t) == Attempts(db.calls, t);
  }

  lemma FailThenEndSpends(db: Db, failed: Db, c: Id, t: Id, now: Time, reason: string)
    requires failed.cycles == db.cycles && failed.turns == db.turns && Remaining(failed, c) == Remaining(db, c)
    requires TurnsOk(db.cycles, db.turns) && OnTurn(db, c, t) && Unfinished(db.turns[t])
    ensures NotMore(FailTurn(failed, c, t, now, reason), db, c)
  {
    hide TurnsOk, Remaining, FailTurn;
    FailSpends(failed, c, t, now, reason);
  }

  lemma FailBothSpends(db: Db, c: Id, t: Id, i: Id, now: Time, error: string) returns (failed: Db, ended: Db)
    requires i in db.calls && c in db.cycles && t in db.turns && DbOk(db) && ProcessOk(db, Calling(c, t, i))
    ensures failed == FailCall(db, i, now, error) && ended == FailTurn(failed, c, t, now, error)
    ensures NotMore(failed, db, c) && NotMore(ended, db, c)
  {
    hide TurnsOk, NumbersOk, StagesOk, DecisionsOk, EffectsOk, LinksOk, ScopeOk, GrantsOk, W.KeysUnique;
    hide Remaining, FailTurn, NotMore;
    failed := FailCall(db, i, now, error);
    ended := FailTurn(failed, c, t, now, error);
    FailCallSpends(db, c, t, i, now, error);
    FailThenEndSpends(db, failed, c, t, now, error);
  }

  /** Recording a decision leaves only its application to do on this turn. */
  lemma DecideSpends(db: Db, c: Id, t: Id, i: Id, call: Call, d: Decision)
    requires DbOk(db) && ProcessOk(db, Calling(c, t, i)) && call.turn == t
    ensures NotMore(db.(calls := db.calls[i := call], turns := db.turns[t := db.turns[t].(status := Decided, decision := Some(d))]), db, c)
  {
    hide NumbersOk, StagesOk, DecisionsOk, EffectsOk, LinksOk, ScopeOk, GrantsOk, W.KeysUnique;
    hide TurnsOk, Remaining;
    TurnFacts(db, t);
    var after := db.(calls := db.calls[i := call], turns := db.turns[t := db.turns[t].(status := Decided, decision := Some(d))]);
    SameStageKeepsTurns(db.cycles, db.turns, t, after.turns[t]);
    RemainingAt(db, c, t);
    RemainingAt(after, c, t);
  }

  lemma RecordSpends(db: Db, c: Id, t: Id, i: Id, request: Request, result: ModelResult, now: Time)
    requires DbOk(db) && ProcessOk(db, Calling(c, t, i)) && db.contexts[t] == request
    ensures NotMore(RecordResult(db, c, t, i, request, result, now), db, c)
  {
    hide TurnsOk, NumbersOk, StagesOk, DecisionsOk, EffectsOk, LinksOk, ScopeOk, GrantsOk, W.KeysUnique;
    hide NotMore, FailTurn, DecisionKnown;
    var failed, ended;
    failed, ended := FailBothSpends(db, c, t, i, now, "request_id_mismatch");
    failed, ended := FailBothSpends(db, c, t, i, now, "protocol_mismatch");
    failed, ended := FailBothSpends(db, c, t, i, now, "refused");
    failed, ended := FailBothSpends(db, c, t, i, now, "failed");
    failed, ended := FailBothSpends(db, c, t, i, now, "duplicate_decision_id");
    if result.outcome.Completion? {
      var d := result.outcome.decision;
      DecideSpends(db, c, t, i, db.calls[i].(status := CallCompleted, completedAt := Some(now), decision := Some(d)), d);
    }
  }

  /** The loop's head either ends the run, or spends some budget, or leaves it for the call to spend. */
  lemma HeadProgress(s: Sys, a: Action, c: Id)
    requires Inv(s) && a.Head? && Enabled(s, a) && s.process == Looping(c)
    ensures var after := Step(s, a);
      && (after.process.Looping? ==> Remaining(after.db, c).LessThan(Remaining(s.db, c)))
      && (after.process.Captured? ==> Remaining(after.db, c) == Remaining(s.db, c))
  {
    hide TurnsOk, NumbersOk, StagesOk, DecisionsOk, EffectsOk, LinksOk, ScopeOk, GrantsOk, W.KeysUnique;
    hide Remaining, ApplyDecision, Settle;
    if IsActive(s.db.cycles, c) && s.flags.allowed {
      LatestIsUnfinished(s.db.cycles, s.db.turns, c);
      var t :| IsLatest(s.db.turns, c, t);
      TurnFacts(s.db, t);
      if s.db.turns[t].status == Decided {
        ApplySpends(s.db, c, t, a.now, a.verdict, a.nextTurn);
      } else {
        SettleSpends(s.db, s.flags, c, t, a.now);
      }
    }
  }

  lemma CompileProgress(s: Sys, a: Action, c: Id)
    requires Inv(s) && a.Compile? && s.process.Captured? && s.process.cycleId == c
    ensures var after := Step(s, a);
      && (after.process.Looping? ==> Remaining(after.db, c).LessThan(Remaining(s.db, c)))
      && (after.process.Ready? ==> Remaining(after.db, c) == Remaining(s.db, c))
  {
    hide TurnsOk, NumbersOk, StagesOk, DecisionsOk, EffectsOk, LinksOk, ScopeOk, GrantsOk, W.KeysUnique;
    hide FailTurn, Remaining;
    var t := s.process.turnId;
    if t !in s.db.contexts {
      FailSpends(s.db, c, t, a.now, "missing_configuration");
      FailSpends(s.db, c, t, a.now, "context_budget");
      if a.compiled.Compiled? {
        RemainingAt(s.db, c, t);
        RemainingAt(Step(s, a).db, c, t);
      }
    }
  }

  lemma StartProgress(s: Sys, a: Action, c: Id)
    requires Inv(s) && a.Start? && Enabled(s, a) && s.process.Ready? && s.process.cycleId == c
    ensures var after := Step(s, a);
      !after.process.Down? ==> Remaining(after.db, c).LessThan(Remaining(s.db, c))
  {
    hide TurnsOk, NumbersOk, StagesOk, DecisionsOk, EffectsOk, LinksOk, ScopeOk, GrantsOk, W.KeysUnique;
    hide StartCall, Remaining;
    if s.flags.allowed && a.available {
      StartSpends(s.db, s.flags, c, s.process.turnId, a.now, a.callId);
    }
  }

  lemma AnswerProgress(s: Sys, a: Action, c: Id)
    requires Inv(s) && a.Answer? && s.process.Calling? && s.process.cycleId == c
    ensures NotMore(Step(s, a).db, s.db, c)
  {
    hide TurnsOk, NumbersOk, StagesOk, DecisionsOk, EffectsOk, LinksOk, ScopeOk, GrantsOk, W.KeysUnique;
    hide RecordResult, FailCall, NotMore;
    var t, i := s.process.turnId, s.process.callId;
    FailCallSpends(s.db, c, t, i, a.now, "provider_error");
    FailCallSpends(s.db, c, t, i, a.now, "invalid_result");
    if a.reply.Result? {
      RecordSpends(s.db, c, t, i, s.db.contexts[t], a.reply.result, a.now);
    }
  }

  // ---- The transactions of a run ----

  ghost function At(store: Store, flags: Flags, process: Process): Sys
    reads store
  {
    Sys(store.Tables(), flags, process, false)
  }

  method Begin(store: Store, flags: Flags, limits: Limits, now: Time) returns (process: Process, ghost action: Action)
    requires Inv(At(store, flags, Down)) && limits.Valid()
    modifies store
    ensures action.Begin? && Enabled(old(At(store, flags, Down)), action) && action.now == now && action.limits == limits
    ensures At(store, flags, process) == Step(old(At(store, flags, Down)), action)
    ensures process.Down? || process.Looping?
    ensures process.Down? && flags.allowed ==> !HasActive(store.cycles)
  {
    hide TurnsOk, NumbersOk, StagesOk, DecisionsOk, EffectsOk, LinksOk, ScopeOk, GrantsOk, W.KeysUnique;
    var cycleId := NewId(store.cycles.Keys);
    var turnId := NewId(store.turns.Keys);
    var spare := NewIds(store.wakes.Keys, limits.maxWakes);
    action := C.Action.Begin(now, limits, cycleId, turnId, spare);
    if !flags.allowed {
      return Down, action;
    }
    var cycle := store.ClaimOrResume(flags, now, limits, cycleId, turnId, spare);
    process := if cycle.Some? then Looping(cycle.value) else Down;
  }

  /** The turn with the highest ordinal. */
  method LatestTurn(turns: map<Id, Turn>, c: Id) returns (latest: Id)
    requires exists t :: IsLatest(turns, c, t)
    ensures IsLatest(turns, c, latest)
  {
    var rest := set t | t in turns && turns[t].cycle == c;
    ghost var all := rest;
    ghost var known :| IsLatest(turns, c, known);
    assert known in rest;
    latest :| latest in rest;
    while rest != {}
      invariant rest <= all && latest in all
      invariant forall t :: t in all - rest ==> turns[t].ordinal <= turns[latest].ordinal
      decreases rest
    {
      var t :| t in rest;
      if turns[t].ordinal > turns[latest].ordinal {
        latest := t;
      }
      rest := rest - {t};
    }
  }

  method Head(store: Store, flags: Flags, c: Id, now: Time, verdict: Verdict) returns (process: Process, ghost action: Action)
    requires Inv(At(store, flags, Looping(c)))
    modifies store
    ensures action.Head? && Enabled(old(At(store, flags, Looping(c))), action)
    ensures At(store, flags, process) == Step(old(At(store, flags, Looping(c))), action)
    ensures process.Down? ==> c in store.cycles && (store.cycles[c].status != Active || !flags.allowed)
    ensures process in {Down, Looping(c)} || (process.Captured? && process.cycleId == c)
  {
    hide TurnsOk, NumbersOk, StagesOk, DecisionsOk, EffectsOk, LinksOk, ScopeOk, GrantsOk, W.KeysUnique;
    hide C.ApplyDecision, C.Settle;
    var nextTurn := NewId(store.turns.Keys);
    action := C.Action.Head(now, verdict, nextTurn);
    if store.cycles[c].status != Active || !flags.allowed {
      return Down, action;
    }
    LatestIsUnfinished(store.cycles, store.turns, c);
    var t := LatestTurn(store.turns, c);
    var status := store.turns[t].status;
    TurnFacts(store.Tables(), t);
    if status == Decided {
      store.ApplyDecision(c, t, now, verdict, nextTurn);
      return Looping(c), action;
    }
    var spent := store.Settle(flags, c, t, now);
    process := if spent then Looping(c) else Captured(c, t, status);
  }

  method Compile(store: Store, flags: Flags, at: Process, now: Time, compiled: Compiled) returns (process: Process, ghost action: Action)
    requires at.Captured? && Inv(At(store, flags, at))
    modifies store
    ensures action.Compile?
    ensures At(store, flags, process) == Step(old(At(store, flags, at)), action)
    ensures process == Looping(at.cycleId) || process == Ready(at.cycleId, at.turnId, at.status)
  {
    hide TurnsOk, NumbersOk, StagesOk, DecisionsOk, EffectsOk, LinksOk, ScopeOk, GrantsOk, W.KeysUnique;
    hide C.FailTurn;
    var c, t := at.cycleId, at.turnId;
    action := C.Action.Compile(now, compiled);
    if t !in store.contexts {
      match compiled
      case MissingConfiguration =>
        store.FailTurn(c, t, now, "missing_configuration");
        return Looping(c), action;
      case OverBudget =>
        store.FailTurn(c, t, now, "context_budget");
        return Looping(c), action;
      case Compiled(request) =>
        store.contexts := store.contexts[t := request];
    }
    process := Ready(c, t, at.status);
  }

  method Start(store: Store, flags: Flags, at: Process, now: Time, available: bool) returns (process: Process, ghost action: Action)
    requires at.Ready? && Inv(At(store, flags, at))
    modifies store
    ensures action.Start? && Enabled(old(At(store, flags, at)), action)
    ensures At(store, flags, process) == Step(old(At(store, flags, at)), action)
    ensures process in {Down, Looping(at.cycleId)} || (process.Calling? && process.cycleId == at.cycleId)
    ensures process.Down? <==> !flags.allowed || !available
    ensures process.Down? ==> store.Tables() == old(store.Tables())
  {
    hide TurnsOk, NumbersOk, StagesOk, DecisionsOk, EffectsOk, LinksOk, ScopeOk, GrantsOk, W.KeysUnique;
    hide C.StartCall;
    var callId := NewId(store.calls.Keys);
    action := C.Action.Start(now, available, callId);
    if !flags.allowed || !available {
      return Down, action;
    }
    var call := store.StartCall(flags, at.cycleId, at.turnId, now, callId);
    process := if call.Some? then Calling(at.cycleId, at.turnId, call.value) else Looping(at.cycleId);
  }

  method Answer(store: Store, flags: Flags, at: Process, now: Time, reply: Reply) returns (process: Process, ghost action: Action)
    requires at.Calling? && Inv(At(store, flags, at))
    modifies store
    ensures action.Answer?
    ensures At(store, flags, process) == Step(old(At(store, flags, at)), action)
    ensures process == Looping(at.cycleId)
  {
    hide TurnsOk, NumbersOk, StagesOk, DecisionsOk, EffectsOk, LinksOk, ScopeOk, GrantsOk, W.KeysUnique;
    hide C.RecordResult;
    action := C.Action.Answer(now, reply);
    match reply {
      case ProviderError => store.FailCall(at.callId, now, "provider_error");
      case InvalidResult => store.FailCall(at.callId, now, "invalid_result");
      case Result(result) =>
        store.RecordResult(at.cycleId, at.turnId, at.callId, store.contexts[at.turnId], result, now);
    }
    process := Looping(at.cycleId);
  }

  // ---- The whole run ----

  /** What the outside answers at the n-th transaction. */
  datatype World = World(
    flags: nat -> Flags,
    clock: nat -> Time,
    compiled: nat -> Compiled,
    available: nat -> bool,
    reply: nat -> Reply,
    verdict: nat -> Verdict)

  datatype Outcome = Idle | Blocked | Ended(cycle: Id, status: CycleStatus, reason: string)

  /** The recorded actions lead from `first` to these tables with the process at `process`. */
  ghost predicate Reached(first: Sys, actions: seq<Action>, db: Db, process: Process) {
    Run(first, actions).db == db && Run(first, actions).process == process && Inv(Run(first, actions))
  }

  lemma Advance(first: Sys, actions: seq<Action>, db: Db, process: Process, flags: Flags, a: Action, db': Db, process': Process)
    requires Reached(first, actions, db, process)
    requires Sys(db', flags, process', false) == Step(Sys(db, flags, process, false), a)
    ensures Reached(first, actions + [Administer(flags), a], db', process')
  {
    hide DbOk, ProcessOk, BeginStep, HeadStep, CompileStep, StartStep, AnswerStep;
    var one, two := actions + [Administer(flags)], actions + [Administer(flags), a];
    assert one[..|actions|] == actions && two[..|one|] == one;
    assert Run(first, one) == Step(Run(first, actions), Administer(flags)) == Sys(db, flags, process, false);
    StepKeepsInv(Run(first, one), a);
  }

  /** One pass of the loop: it ends the run or spends part of what remains of the cycle. */
  method Pass(store: Store, world: World, from: nat, c: Id, ghost first: Sys, ghost done: seq<Action>)
    returns (process: Process, n: nat, ghost actions: seq<Action>)
    requires Reached(first, done, store.Tables(), Looping(c))
    modifies store
    ensures Reached(first, actions, store.Tables(), process)
    ensures process in {Down, Looping(c)}
    ensures process.Looping? ==> Remaining(store.Tables(), c).LessThan(Remaining(old(store.Tables()), c))
    ensures process.Down? ==> c in store.cycles
    ensures process.Down? && store.cycles[c].status == Active ==> !world.flags(n).allowed || !world.available(n)
  {
    hide DbOk, Step, Run, Remaining, IsActive, Enabled;
    n := from;
    ghost var db, before, action := store.Tables(), Looping(c), Crash;
    process, action := Head(store, world.flags(n), c, world.clock(n), world.verdict(n));
    HeadProgress(Sys(db, world.flags(n), before, false), action, c);
    Advance(first, done, db, before, world.flags(n), action, store.Tables(), process);
    actions := done + [Administer(world.flags(n)), action];
    if process.Captured? {
      n, db, before := n + 1, store.Tables(), process;
      process, action := Compile(store, world.flags(n), process, world.clock(n), world.compiled(n));
      CompileProgress(Sys(db, world.flags(n), before, false), action, c);
      Advance(first, actions, db, before, world.flags(n), action, store.Tables(), process);
      actions := actions + [Administer(world.flags(n)), action];
      if process.Ready? {
        var at := process;
        process, n, actions := CallModel(store, world, n + 1, at, first, actions);
      }
    }
  }

  method CallModel(store: Store, world: World, from: nat, at: Process, ghost first: Sys, ghost done: seq<Action>)
    returns (process: Process, n: nat, ghost actions: seq<Action>)
    requires at.Ready? && Reached(first, done, store.Tables(), at)
    modifies store
    ensures Reached(first, actions, store.Tables(), process)
    ensures process in {Down, Looping(at.cycleId)}
    ensures process.Looping? ==> Remaining(store.Tables(), at.cycleId).LessThan(Remaining(old(store.Tables()), at.cycleId))
    ensures process.Down? ==> at.cycleId in store.cycles && (!world.flags(n).allowed || !world.available(n))
  {
    hide DbOk, Step, Run, Remaining, Enabled;
    n := from;
    var c := at.cycleId;
    ghost var db, before, action := store.Tables(), at, Crash;
    process, action := Start(store, world.flags(n), at, world.clock(n), world.available(n));
    StartProgress(Sys(db, world.flags(n), at, false), action, c);
    Advance(first, done, db, at, world.flags(n), action, store.Tables(), process);
    actions := done + [Administer(world.flags(n)), action];
    if process.Calling? {
      n, db, before := n + 1, store.Tables(), process;
      process, action := Answer(store, world.flags(n), process, world.clock(n), world.reply(n));
      AnswerProgress(Sys(db, world.flags(n), before, false), action, c);
      Advance(first, actions, db, before, world.flags(n), action, store.Tables(), process);
      actions := actions + [Administer(world.flags(n)), action];
    }
  }

  /**
   * One bounded run. It is a run of the protocol, keeps every demand, and ends: each pass of the
   * loop spends some of the remaining turns, stages or attempts.
   */
  method RunOnce(store: Store, limits: Limits, world: World) returns (outcome: Outcome, ghost actions: seq<Action>)
    requires limits.Valid() && DbOk(store.Tables())
    modifies store
    ensures Reached(Sys(old(store.Tables()), world.flags(0), Down, false), actions, store.Tables(), Down)
    ensures outcome.Ended? ==>
      && outcome.cycle in store.cycles && store.cycles[outcome.cycle].status == outcome.status != Active
      && store.cycles[outcome.cycle].reason == outcome.reason
    ensures outcome.Idle? ==> !HasActive(store.cycles)
    ensures outcome.Blocked? ==> exists n :: !world.flags(n).allowed || !world.available(n)
  {
    hide DbOk, Step, Remaining, Enabled;
    ghost var first := Sys(store.Tables(), world.flags(0), Down, false);
    assert Reached(first, [], store.Tables(), Down);
    var process;
    ghost var action;
    process, action := Begin(store, world.flags(0), limits, world.clock(0));
    Advance(first, [], first.db, Down, world.flags(0), action, store.Tables(), process);
    actions := [] + [Administer(world.flags(0)), action];
    if process.Down? {
      return if world.flags(0).allowed then Idle else Blocked, actions;
    }
    hide Run, Reached;
    var c, n := process.cycleId, 0;
    while process.Looping?
      invariant process in {Down, Looping(c)}
      invariant Reached(first, actions, store.Tables(), process)
      invariant process.Down? ==> c in store.cycles
      invariant process.Down? && store.cycles[c].status == Active ==> !world.flags(n).allowed || !world.available(n)
      decreases process.Looping?, Remaining(store.Tables(), c).turns, Remaining(store.Tables(), c).stage, Remaining(store.Tables(), c).attempts
    {
      process, n, actions := Pass(store, world, n + 1, c, first, actions);
    }
    outcome := if store.cycles[c].status == Active then Blocked else Ended(c, store.cycles[c].status, store.cycles[c].reason);
  }
}
