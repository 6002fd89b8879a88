/** Every step of the runtime, and every interruption, keeps the inspector's demands. */
module CognitionSteps {
  import opened Common
  import W = Wakes
  import opened Cognition
  import opened CognitionInvariant

  /** What the demands say about one turn. */
  lemma TurnFacts(db: Db, t: Id)
    requires DbOk(db) && t in db.turns
    ensures db.turns[t].decision.Some? <==> db.turns[t].status in {Decided, Applied, Rejected}
    ensures db.turns[t].decision.Some? ==> t in db.contexts && db.contexts[t].protocol == db.turns[t].decision.value.protocol
    ensures db.turns[t].status != Invoking ==> NoStarted(db.calls, t)
    ensures db.turns[t].cycle in db.cycles && 1 <= db.turns[t].ordinal <= db.cycles[db.turns[t].cycle].maxTurns
  {
    hide EffectsOk, LinksOk, ScopeOk, GrantsOk, W.KeysUnique;
  }

  lemma EndCycleOk(db: Db, c: Id, t: Id, status: TurnStatus, now: Time, reason: string, failed: bool)
    requires DbOk(db) && OnTurn(db, c, t) && Unfinished(db.turns[t]) && NoStarted(db.calls, t)
    requires status == if db.turns[t].decision.Some? then Rejected else TurnFailed
    ensures DbOk(FinishCycle(EndTurn(db, t, status, now), c, now, reason, failed))
  {
    hide TurnsOk, NumbersOk, StagesOk, DecisionsOk, EffectsOk, LinksOk, ScopeOk, GrantsOk, W.KeysUnique;
    var ended := EndTurn(db, t, status, now);
    var after := FinishCycle(ended, c, now, reason, failed);
    EndTurnKeepsTurns(db.cycles, db.turns, c, t, after.cycles[c], ended.turns[t]);
    CycleKeepsNumbers(db.cycles, db.turns, db.calls, c, after.cycles[c]);
    TurnStageKeepsNumbers(after.cycles, db.turns, db.calls, t, ended.turns[t]);
    TurnStageKeepsStages(db.turns, db.contexts, db.calls, t, ended.turns[t]);
    StageKeepsDecisions(db.turns, db.contexts, t, ended.turns[t]);
    StageKeepsEffects(db.turns, db.applied, db.effects, t, ended.turns[t]);
    FinishKeepsWakes(ended, c, now, reason, failed);
  }

  lemma FinishKeepsWakes(db: Db, c: Id, now: Time, reason: string, failed: bool)
    requires IsActive(db.cycles, c)
    requires LinksOk(db.wakes, db.links, db.cycles) && W.KeysUnique(db.wakes) && ScopeOk(db.wakes, db.links, db.inbound, db.grants)
    requires GrantsOk(db.links, db.cycles, db.grants)
    ensures var after := FinishCycle(db, c, now, reason, failed);
      && LinksOk(after.wakes, after.links, after.cycles) && W.KeysUnique(after.wakes) && ScopeOk(after.wakes, after.links, after.inbound, after.grants)
      && GrantsOk(after.links, after.cycles, after.grants)
  {
    hide TurnsOk, NumbersOk, StagesOk, DecisionsOk, EffectsOk, LinksOk, ScopeOk, GrantsOk, W.KeysUnique;
    var after := FinishCycle(db, c, now, reason, failed);
    ConsumeKeepsLinks(db.wakes, db.links, db.cycles, c, now, after.cycles[c]);
    ConsumeKeepsKeys(db.wakes, db.links, c, now);
    FinishKeepsGrants(db.links, db.cycles, db.grants, c, after.cycles[c]);
    ConsumeKeepsScope(db.wakes, db.links, db.inbound, db.grants, c, now);
  }

  ghost predicate Unspent(db: Db, after: Db, c: Id, t: Id) {
    && OnTurn(after, c, t) && after.turns == db.turns && NoStarted(after.calls, t)
    && after.contexts == db.contexts && after.cycles == db.cycles && after.calls.Keys == db.calls.Keys
    && |Attempts(after.calls, t)| < after.cycles[c].maxAttempts
  }

  lemma SettleOk(db: Db, flags: Flags, c: Id, t: Id, now: Time)
    requires DbOk(db) && OnTurn(db, c, t) && Invocable(db.turns[t].status)
    ensures var (after, spent) := Settle(db, flags, c, t, now);
      && DbOk(after)
      && (spent ==> c in after.cycles)
      && (!spent ==> Unspent(db, after, c, t))
  {
    hide TurnsOk, NumbersOk, StagesOk, DecisionsOk, EffectsOk, LinksOk, ScopeOk, GrantsOk, W.KeysUnique;
    var settled := db.(calls := AbandonStarted(db.calls, t, now));
    TurnFacts(db, t);
    AbandonKeepsNumbers(db.cycles, db.turns, db.calls, t, now);
    AbandonKeepsStages(db.turns, db.contexts, db.calls, t, now);
    if Exhausted(settled, flags, c, t, now).Some? {
      EndCycleOk(settled, c, t, TurnFailed, now, Exhausted(settled, flags, c, t, now).value, true);
    }
  }

  lemma StartOk(db: Db, flags: Flags, c: Id, t: Id, now: Time, i: Id)
    requires DbOk(db) && OnTurn(db, c, t) && Invocable(db.turns[t].status) && t in db.contexts && i !in db.calls
    ensures var (after, call) := StartCall(db, flags, c, t, now, i);
      DbOk(after) && ProcessOk(after, if call.Some? then Calling(c, t, call.value) else Looping(c))
  {
    hide TurnsOk, NumbersOk, StagesOk, DecisionsOk, EffectsOk, LinksOk, ScopeOk, GrantsOk, W.KeysUnique;
    SettleOk(db, flags, c, t, now);
    var (settled, spent) := Settle(db, flags, c, t, now);
    if !spent {
      TurnFacts(settled, t);
      var (after, call) := StartCall(db, flags, c, t, now, i);
      assert i !in settled.calls;
      StartKeepsNumbers(settled.cycles, settled.turns, settled.calls, i, after.calls[i]);
      TurnStageKeepsNumbers(settled.cycles, settled.turns, after.calls, t, after.turns[t]);
      StartKeepsStages(settled.turns, settled.contexts, settled.calls, i, after.calls[i], after.turns[t]);
      SameStageKeepsTurns(settled.cycles, settled.turns, t, after.turns[t]);
      StageKeepsDecisions(settled.turns, settled.contexts, t, after.turns[t]);
      StageKeepsEffects(settled.turns, settled.applied, settled.effects, t, after.turns[t]);
    }
  }

  lemma FailCallOk(db: Db, c: Id, t: Id, i: Id, now: Time, error: string)
    requires DbOk(db) && OnTurn(db, c, t) && i in db.calls && db.calls[i].turn == t && db.calls[i].status == Started
    ensures var after := FailCall(db, i, now, error);
      DbOk(after) && OnTurn(after, c, t) && NoStarted(after.calls, t) && after.turns == db.turns
  {
    hide TurnsOk, NumbersOk, StagesOk, DecisionsOk, EffectsOk, LinksOk, ScopeOk, GrantsOk, W.KeysUnique;
    var after := FailCall(db, i, now, error);
    CallStageKeepsNumbers(db.cycles, db.turns, db.calls, i, after.calls[i]);
    CallStageKeepsStages(db.turns, db.contexts, db.calls, i, after.calls[i]);
  }

  lemma FailBothOk(db: Db, c: Id, t: Id, i: Id, now: Time, error: string) returns (failed: Db, ended: Db)
    requires i in db.calls && c in db.cycles && t in db.turns && DbOk(db) && ProcessOk(db, Calling(c, t, i))
    ensures failed == FailCall(db, i, now, error) && ended == FailTurn(failed, c, t, now, error)
    ensures DbOk(failed) && DbOk(ended) && c in ended.cycles
  {
    hide TurnsOk, NumbersOk, StagesOk, DecisionsOk, EffectsOk, LinksOk, ScopeOk, GrantsOk, W.KeysUnique;
    failed := FailCall(db, i, now, error);
    ended := FailTurn(failed, c, t, now, error);
    TurnFacts(db, t);
    FailCallOk(db, c, t, i, now, error);
    EndCycleOk(failed, c, t, TurnFailed, now, error, true);
  }

  lemma RecordOk(db: Db, c: Id, t: Id, i: Id, request: Request, result: ModelResult, now: Time)
    requires DbOk(db) && ProcessOk(db, Calling(c, t, i)) && db.contexts[t] == request
    ensures DbOk(RecordResult(db, c, t, i, request, result, now))
    ensures c in RecordResult(db, c, t, i, request, result, now).cycles
  {
    hide TurnsOk, NumbersOk, StagesOk, DecisionsOk, EffectsOk, LinksOk, ScopeOk, GrantsOk, W.KeysUnique;
    hide FailTurn, DbOk, DecisionKnown;
    var failed, ended;
    failed, ended := FailBothOk(db, c, t, i, now, "request_id_mismatch");
    failed, ended := FailBothOk(db, c, t, i, now, "protocol_mismatch");
    failed, ended := FailBothOk(db, c, t, i, now, "refused");
    failed, ended := FailBothOk(db, c, t, i, now, "failed");
    failed, ended := FailBothOk(db, c, t, i, now, "duplicate_decision_id");
    if result.outcome.Completion? {
      var d := result.outcome.decision;
      if d.protocol == request.protocol && !DecisionKnown(db.turns, d.id) {
        RecordDecisionOk(db, c, t, i, d, now, db.(
          calls := db.calls[i := db.calls[i].(status := CallCompleted, completedAt := Some(now), decision := Some(d))],
          turns := db.turns[t := db.turns[t].(status := Decided, decision := Some(d))]));
      }
    }
  }

  lemma RecordDecisionOk(db: Db, c: Id, t: Id, i: Id, d: Decision, now: Time, after: Db)
    requires t in db.turns && t in db.contexts && i in db.calls
    requires d.protocol == db.contexts[t].protocol && !DecisionKnown(db.turns, d.id)
    requires after == db.(
               calls := db.calls[i := db.calls[i].(status := CallCompleted, completedAt := Some(now), decision := Some(d))],
               turns := db.turns[t := db.turns[t].(status := Decided, decision := Some(d))])
    requires DbOk(db) && ProcessOk(db, Calling(c, t, i))
    ensures DbOk(after)
  {
    hide TurnsOk, NumbersOk, StagesOk, DecisionsOk, EffectsOk, LinksOk, ScopeOk, GrantsOk, W.KeysUnique;
    TurnFacts(db, t);
    CallStageKeepsNumbers(db.cycles, db.turns, db.calls, i, after.calls[i]);
    TurnStageKeepsNumbers(db.cycles, db.turns, after.calls, t, after.turns[t]);
    DecideKeepsStages(db.turns, db.contexts, db.calls, i, after.calls[i], after.turns[t]);
    SameStageKeepsTurns(db.cycles, db.turns, t, after.turns[t]);
    DecideKeepsDecisions(db.turns, db.contexts, t, d);
    StageKeepsEffects(db.turns, db.applied, db.effects, t, after.turns[t]);
  }

  // ---- Applying ----

  /** The parts of an accepted application that do not depend on how the cycle goes on. */
  lemma EffectOk(db: Db, c: Id, t: Id, now: Time, verdict: Verdict)
    requires DbOk(db) && OnTurn(db, c, t) && db.turns[t].status == Decided && db.turns[t].decision.Some?
    requires Acceptable(db, c, t, db.turns[t].decision.value, verdict)
    ensures var done := EndTurn(TakeEffect(db, t, db.turns[t].decision.value, now, db.cycles[c].minWakeDelay), t, Applied, now);
      && NumbersOk(db.cycles, done.turns, db.calls) && StagesOk(done.turns, db.contexts, db.calls)
      && DecisionsOk(done.turns, db.contexts) && EffectsOk(done.turns, done.applied, done.effects)
      && LinksOk(done.wakes, db.links, db.cycles) && W.KeysUnique(done.wakes) && ScopeOk(done.wakes, done.links, done.inbound, done.grants)
  {
    hide WakeIds;
    hide TurnsOk, NumbersOk, StagesOk, DecisionsOk, EffectsOk, LinksOk, ScopeOk, GrantsOk, W.KeysUnique;
    var d := db.turns[t].decision.value;
    var taken := TakeEffect(db, t, d, now, db.cycles[c].minWakeDelay);
    var done := EndTurn(taken, t, Applied, now);
    var turn := done.turns[t];
    assert forall op :: op in WakeIds(d.wakeRequests) ==> op in Operations(d);
    assert Distinct(WakeIds(d.wakeRequests)) by {
      forall x, y | 0 <= x < y < |WakeIds(d.wakeRequests)|
        ensures WakeIds(d.wakeRequests)[x] != WakeIds(d.wakeRequests)[y]
      {
        assert Operations(d)[|d.personalOps| + x] != Operations(d)[|d.personalOps| + y];
      }
    }
    ScheduleExtends(db.wakes, d.wakeRequests, now, db.cycles[c].minWakeDelay);
    ExtendsKeepsLinks(db.wakes, taken.wakes, db.links, db.cycles);
    ExtendsKeepsScope(db.wakes, taken.wakes, db.links, db.inbound, db.grants);
    TurnFacts(db, t);
    TurnStageKeepsNumbers(db.cycles, db.turns, db.calls, t, turn);
    TurnStageKeepsStages(db.turns, db.contexts, db.calls, t, turn);
    StageKeepsDecisions(db.turns, db.contexts, t, turn);
    ApplyKeepsEffects(db.turns, db.applied, db.effects, t, turn);
  }

  lemma ApplyOk(db: Db, c: Id, t: Id, now: Time, verdict: Verdict, n: Id)
    requires DbOk(db) && OnTurn(db, c, t) && db.turns[t].status == Decided && db.turns[t].decision.Some?
    requires n !in db.turns
    ensures DbOk(ApplyDecision(db, c, t, now, verdict, n))
    ensures c in ApplyDecision(db, c, t, now, verdict, n).cycles
  {
    hide TurnsOk, NumbersOk, StagesOk, DecisionsOk, EffectsOk, LinksOk, ScopeOk, GrantsOk, W.KeysUnique;
    var d := db.turns[t].decision.value;
    if !Acceptable(db, c, t, d, verdict) {
      TurnFacts(db, t);
      EndCycleOk(db, c, t, Rejected, now, "decision_rejected", true);
    } else {
      EffectOk(db, c, t, now, verdict);
      var done := EndTurn(TakeEffect(db, t, d, now, db.cycles[c].minWakeDelay), t, Applied, now);
      var after := ApplyDecision(db, c, t, now, verdict, n);
      if d.disposition == Continue && db.turns[t].ordinal < db.cycles[c].maxTurns && now < db.cycles[c].deadlineAt {
        NextTurnKeepsTurns(db.cycles, db.turns, c, t, done.turns[t], n);
        NewTurnKeepsNumbers(db.cycles, done.turns, db.calls, n, after.turns[n]);
        NewTurnKeepsStages(done.turns, db.contexts, db.calls, n, after.turns[n]);
        NewTurnKeepsDecisions(done.turns, db.contexts, n, c, db.turns[t].ordinal + 1);
        StageKeepsEffects(done.turns, done.applied, done.effects, n, after.turns[n]);
      } else {
        FinishAppliedOk(db, done, c, t, now, after.cycles[c].reason);
      }
    }
  }

  lemma FinishAppliedOk(db: Db, done: Db, c: Id, t: Id, now: Time, reason: string)
    requires DbOk(db) && OnTurn(db, c, t) && Unfinished(db.turns[t])
    requires done.cycles == db.cycles && done.calls == db.calls && done.contexts == db.contexts
    requires done.links == db.links && done.grants == db.grants
    requires t in done.turns && done.turns == db.turns[t := done.turns[t]] && done.turns[t].status == Applied
    requires done.turns[t].cycle == c && done.turns[t].ordinal == db.turns[t].ordinal
    requires NumbersOk(db.cycles, done.turns, db.calls) && StagesOk(done.turns, db.contexts, db.calls)
    requires DecisionsOk(done.turns, db.contexts) && EffectsOk(done.turns, done.applied, done.effects)
    requires LinksOk(done.wakes, db.links, db.cycles) && W.KeysUnique(done.wakes) && ScopeOk(done.wakes, done.links, done.inbound, done.grants)
    ensures DbOk(FinishCycle(done, c, now, reason, false))
  {
    hide TurnsOk, NumbersOk, StagesOk, DecisionsOk, EffectsOk, LinksOk, ScopeOk, GrantsOk, W.KeysUnique;
    var after := FinishCycle(done, c, now, reason, false);
    EndTurnKeepsTurns(db.cycles, db.turns, c, t, after.cycles[c], done.turns[t]);
    CycleKeepsNumbers(db.cycles, db.turns, db.calls, c, after.cycles[c]);
    TurnStageKeepsNumbers(after.cycles, db.turns, db.calls, t, done.turns[t]);
    FinishKeepsWakes(done, c, now, reason, false);
  }

  // ---- The steps ----

  lemma BeginOk(s: Sys, a: Action)
    requires Inv(s) && Enabled(s, a) && a.Begin?
    ensures Inv(Step(s, a))
  {
    hide TurnsOk, NumbersOk, StagesOk, DecisionsOk, EffectsOk, LinksOk, ScopeOk, GrantsOk, W.KeysUnique;
    if s.process.Down? && s.flags.allowed {
      NoOrphans(s.db, a.limits.maxWakes, a.replacements);
      if !HasActive(s.db.cycles) {
        var claim := Choose(s.db, s.flags, a.now, a.limits);
        if claim.Claim? && claim.wakes != [] {
          ChooseIsSound(s.db, s.flags, a.now, a.limits);
          OpenOk(s.db, a.cycleId, a.turnId, claim, a.now);
        }
      }
    }
  }

  lemma OpenOk(db: Db, c: Id, t: Id, claim: Claim, now: Time)
    requires DbOk(db) && !HasActive(db.cycles) && SoundClaim(db, claim, now) && c !in db.cycles && t !in db.turns
    ensures DbOk(OpenCycle(db, c, t, claim, now))
  {
    hide TurnsOk, NumbersOk, StagesOk, DecisionsOk, EffectsOk, LinksOk, ScopeOk, GrantsOk, W.KeysUnique;
    var after := OpenCycle(db, c, t, claim, now);
    OpenKeepsTurns(db.cycles, db.turns, c, t, after.cycles[c]);
    CycleKeepsNumbers(db.cycles, db.turns, db.calls, c, after.cycles[c]);
    NewTurnKeepsNumbers(after.cycles, db.turns, db.calls, t, after.turns[t]);
    NewTurnKeepsStages(db.turns, db.contexts, db.calls, t, after.turns[t]);
    NewTurnKeepsDecisions(db.turns, db.contexts, t, c, 1);
    StageKeepsEffects(db.turns, db.applied, db.effects, t, after.turns[t]);
    OpenKeepsLinks(db, c, t, claim, now);
    OpenKeepsKeys(db, c, t, claim, now);
    OpenKeepsScope(db, c, t, claim, now);
    OpenKeepsGrants(db, c, t, claim, now);
  }

  /** The latest turn of an active cycle exists and is its unfinished one. */
  lemma LatestIsUnfinished(cycles: map<Id, Cycle>, turns: map<Id, Turn>, c: Id)
    requires TurnsOk(cycles, turns) && IsActive(cycles, c)
    ensures exists t :: IsLatest(turns, c, t)
    ensures forall t :: IsLatest(turns, c, t) ==> Unfinished(turns[t])
    ensures forall t, u :: IsLatest(turns, c, t) && IsLatest(turns, c, u) ==> t == u
  {
    assert HasUnfinished(turns, c);
    var u :| u in turns && turns[u].cycle == c && Unfinished(turns[u]);
    assert IsLatest(turns, c, u);
  }

  lemma HeadOk(s: Sys, a: Action)
    requires Inv(s) && Enabled(s, a) && a.Head?
    ensures Inv(Step(s, a))
  {
    hide TurnsOk, NumbersOk, StagesOk, DecisionsOk, EffectsOk, LinksOk, ScopeOk, GrantsOk, W.KeysUnique;
    if s.process.Looping? && IsActive(s.db.cycles, s.process.cycleId) && s.flags.allowed {
      var c := s.process.cycleId;
      LatestIsUnfinished(s.db.cycles, s.db.turns, c);
      var t :| IsLatest(s.db.turns, c, t);
      TurnFacts(s.db, t);
      if s.db.turns[t].status == Decided {
        ApplyOk(s.db, c, t, a.now, a.verdict, a.nextTurn);
      } else {
        SettleOk(s.db, s.flags, c, t, a.now);
      }
    }
  }

  lemma CompileOk(s: Sys, a: Action)
    requires Inv(s) && a.Compile?
    ensures Inv(CompileStep(s, a))
  {
    hide TurnsOk, NumbersOk, StagesOk, DecisionsOk, EffectsOk, LinksOk, ScopeOk, GrantsOk, W.KeysUnique;
    if s.process.Captured? && s.process.turnId !in s.db.contexts {
      var c, t := s.process.cycleId, s.process.turnId;
      TurnFacts(s.db, t);
      match a.compiled
      case MissingConfiguration =>
        EndCycleOk(s.db, c, t, TurnFailed, a.now, "missing_configuration", true);
      case OverBudget =>
        EndCycleOk(s.db, c, t, TurnFailed, a.now, "context_budget", true);
      case Compiled(request) =>
        var db := s.db.(contexts := s.db.contexts[t := request]);
        FreezeKeepsStages(s.db.turns, s.db.contexts, s.db.calls, t, request);
        FreezeKeepsDecisions(s.db.turns, s.db.contexts, t, request);
    }
  }

  lemma AnswerOk(s: Sys, a: Action)
    requires Inv(s) && a.Answer?
    ensures Inv(AnswerStep(s, a))
  {
    hide TurnsOk, NumbersOk, StagesOk, DecisionsOk, EffectsOk, LinksOk, ScopeOk, GrantsOk, W.KeysUnique;
    if s.process.Calling? {
      var c, t, i := s.process.cycleId, s.process.turnId, s.process.callId;
      match a.reply
      case ProviderError => FailCallOk(s.db, c, t, i, a.now, "provider_error");
      case InvalidResult => FailCallOk(s.db, c, t, i, a.now, "invalid_result");
      case Result(result) => RecordOk(s.db, c, t, i, s.db.contexts[t], result, a.now);
    }
  }

  lemma OtherWritersOk(s: Sys, a: Action)
    requires Inv(s) && Enabled(s, a) && (a.AddWake? || a.EditWake?)
    ensures Inv(Step(s, a))
  {
    hide TurnsOk, NumbersOk, StagesOk, DecisionsOk, EffectsOk, LinksOk, ScopeOk, GrantsOk, W.KeysUnique;
    var db := s.db;
    if a.AddWake? {
      AddKeepsLinks(db.wakes, db.links, db.cycles, a.wakeId, a.wake);
      AddKeepsKeys(db.wakes, a.wakeId, a.wake);
      AddKeepsScope(db, a.wakeId, a.wake, a.scope);
      AddKeepsGrants(db, a.wakeId, a.wake, a.scope);
    } else {
      EditKeepsWakes(db.wakes, db.links, db.cycles, db.inbound, db.grants, a.wakeId, a.wake);
    }
  }

  /** The inspector accepts the tables after every step, and no step raises. */
  lemma StepKeepsInv(s: Sys, a: Action)
    requires Inv(s)
    ensures Inv(Step(s, a))
  {
    hide TurnsOk, NumbersOk, StagesOk, DecisionsOk, EffectsOk, LinksOk, ScopeOk, GrantsOk, W.KeysUnique;
    if Enabled(s, a) {
      match a
      case Crash =>
      case Administer(_) =>
      case AddWake(_, _, _) => OtherWritersOk(s, a);
      case EditWake(_, _) => OtherWritersOk(s, a);
      case Begin(_, _, _, _, _) => BeginOk(s, a);
      case Head(_, _, _) => HeadOk(s, a);
      case Compile(_, _) => CompileOk(s, a);
      case Start(_, _, _) =>
        if s.process.Ready? && s.flags.allowed && a.available {
          StartOk(s.db, s.flags, s.process.cycleId, s.process.turnId, a.now, a.callId);
        }
      case Answer(_, _) => AnswerOk(s, a);
    }
  }

  const EMPTY: Db := Db(map[], map[], {}, map[], map[], map[], map[], map[], map[], [])

  /** A new individual: empty tables, no process. */
  function Initial(flags: Flags): Sys {
    Sys(EMPTY, flags, Down, false)
  }

  lemma InitialOk(flags: Flags)
    ensures Inv(Initial(flags))
  {
    hide TurnsOk, NumbersOk, StagesOk, DecisionsOk, EffectsOk, LinksOk, ScopeOk, GrantsOk, W.KeysUnique;
    EmptyTurnsOk();
    EmptyWakesOk();
  }

  lemma EmptyTurnsOk()
    ensures TurnsOk(map[], map[]) && NumbersOk(map[], map[], map[]) && StagesOk(map[], map[], map[])
    ensures DecisionsOk(map[], map[]) && EffectsOk(map[], map[], [])
  {
    hide EffectsOk, TurnsOk, NumbersOk, StagesOk, DecisionsOk;
    NoTurnsOk();
    NoCallsOk();
    NoEffectsOk();
  }

  lemma NoCallsOk()
    ensures NumbersOk(map[], map[], map[]) && StagesOk(map[], map[], map[]) && DecisionsOk(map[], map[])
  {
    hide NumbersOk, DecisionsOk;
    NoAttemptsOk();
    NoDecisionsOk();
  }

  lemma NoAttemptsOk()
    ensures NumbersOk(map[], map[], map[])
  {
  }

  lemma NoDecisionsOk()
    ensures DecisionsOk(map[], map[])
  {
  }

  lemma NoTurnsOk()
    ensures TurnsOk(map[], map[])
  {
  }

  lemma NoEffectsOk()
    ensures EffectsOk(map[], map[], [])
  {
    assert forall t :: !IsApplied(map[], t);
  }

  lemma EmptyWakesOk()
    ensures LinksOk(map[], map[], map[]) && W.KeysUnique(map[]) && ScopeOk(map[], map[], {}, map[]) && GrantsOk(map[], map[], map[])
  {
  }

  /** In every run, interrupted anywhere and resumed any number of times, the tables are sound and nothing raised. */
  lemma {:induction false} RunKeepsInv(flags: Flags, actions: seq<Action>)
    ensures Inv(Run(Initial(flags), actions))
  {
    hide Step, Inv;
    if actions == [] {
      InitialOk(flags);
    } else {
      RunKeepsInv(flags, actions[..|actions| - 1]);
      StepKeepsInv(Run(Initial(flags), actions[..|actions| - 1]), actions[|actions| - 1]);
    }
  }
}
