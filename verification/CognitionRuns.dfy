/** What holds over whole runs: budgets, decisions applied once, claim order. */
module CognitionRuns {
  import opened Common
  import W = Wakes
  import opened Cognition
  import opened CognitionInvariant
  import opened CognitionSteps

  // ---- The model is called a bounded number of times per cycle ----

  ghost function CallsUpTo(db: Db, c: Id, ordinal: nat): set<Id> {
    set i | i in db.calls && db.calls[i].turn in db.turns
      && db.turns[db.calls[i].turn].cycle == c && db.turns[db.calls[i].turn].ordinal <= ordinal
  }

  ghost function CallsOfCycle(db: Db, c: Id): set<Id> {
    set i | i in db.calls && db.calls[i].turn in db.turns && db.turns[db.calls[i].turn].cycle == c
  }

  lemma UnionBound<T>(a: set<T>, b: set<T>)
    ensures |a + b| <= |a| + |b|
  {
    assert a + b == a + (b - a);
    SubsetCardinality(b - a, b);
  }

  lemma OrdinalAddsOneBudget(db: Db, c: Id, ordinal: nat)
    requires TurnsOk(db.cycles, db.turns) && NumbersOk(db.cycles, db.turns, db.calls) && c in db.cycles && ordinal >= 1
    ensures |CallsUpTo(db, c, ordinal)| <= |CallsUpTo(db, c, ordinal - 1)| + db.cycles[c].maxAttempts
  {
    hide NumbersOk;
    var before := CallsUpTo(db, c, ordinal - 1);
    if t :| t in db.turns && db.turns[t].cycle == c && db.turns[t].ordinal == ordinal {
      OneTurnPerOrdinal(db, c, ordinal, t);
      hide TurnsOk;
      AttemptsWithinBudget(db, t);
      UnionBound(before, Attempts(db.calls, t));
    } else {
      assert CallsUpTo(db, c, ordinal) == before;
    }
  }

  lemma OneTurnPerOrdinal(db: Db, c: Id, ordinal: nat, t: Id)
    requires TurnsOk(db.cycles, db.turns) && ordinal >= 1
    requires t in db.turns && db.turns[t].cycle == c && db.turns[t].ordinal == ordinal
    ensures CallsUpTo(db, c, ordinal) == CallsUpTo(db, c, ordinal - 1) + Attempts(db.calls, t)
  {
    assert forall u :: u in db.turns && db.turns[u].cycle == c && db.turns[u].ordinal == ordinal ==> u == t;
    hide TurnsOk;
  }

  lemma AttemptsWithinBudget(db: Db, t: Id)
    requires NumbersOk(db.cycles, db.turns, db.calls) && t in db.turns && db.turns[t].cycle in db.cycles
    ensures |Attempts(db.calls, t)| <= db.cycles[db.turns[t].cycle].maxAttempts
  {
  }

  lemma {:induction false} CallsUpToBound(db: Db, c: Id, ordinal: nat)
    requires TurnsOk(db.cycles, db.turns) && NumbersOk(db.cycles, db.turns, db.calls) && c in db.cycles
    ensures |CallsUpTo(db, c, ordinal)| <= ordinal * db.cycles[c].maxAttempts
  {
    hide NumbersOk;
    if ordinal == 0 {
      NoOrdinalZero(db, c);
    } else {
      hide TurnsOk;
      CallsUpToBound(db, c, ordinal - 1);
      OrdinalAddsOneBudget(db, c, ordinal);
      assert ordinal * db.cycles[c].maxAttempts == (ordinal - 1) * db.cycles[c].maxAttempts + db.cycles[c].maxAttempts;
    }
  }

  lemma NoOrdinalZero(db: Db, c: Id)
    requires TurnsOk(db.cycles, db.turns)
    ensures CallsUpTo(db, c, 0) == {}
  {
  }

  /** Over all interruptions and resumptions, one cycle makes at most turns times attempts calls. */
  lemma CallBudget(flags: Flags, actions: seq<Action>, c: Id)
    requires c in Run(Initial(flags), actions).db.cycles
    ensures var db := Run(Initial(flags), actions).db;
      |CallsOfCycle(db, c)| <= db.cycles[c].maxTurns * db.cycles[c].maxAttempts
  {
    RunKeepsInv(flags, actions);
    var db := Run(Initial(flags), actions).db;
    hide Run, StagesOk, DecisionsOk, EffectsOk, LinksOk, ScopeOk, GrantsOk, W.KeysUnique;
    CallsUpToBound(db, c, db.cycles[c].maxTurns);
    assert CallsOfCycle(db, c) == CallsUpTo(db, c, db.cycles[c].maxTurns);
  }

  // ---- History only grows ----

  /** A finished turn is final, and a recorded decision is never replaced. */
  predicate TurnGrows(before: Turn, after: Turn) {
    && after.cycle == before.cycle && after.ordinal == before.ordinal
    && (!Unfinished(before) ==> after == before)
    && (before.decision.Some? ==> after.decision == before.decision)
  }

  ghost predicate TurnsGrow(before: map<Id, Turn>, after: map<Id, Turn>) {
    forall t :: t in before ==> t in after && TurnGrows(before[t], after[t])
  }

  /** Once a turn is decided, no further call is made for it. */
  ghost predicate CallsGrow(before: Db, after: Db) {
    && before.calls.Keys <= after.calls.Keys
    && (forall t :: t in before.turns && before.turns[t].decision.Some? ==> Attempts(after.calls, t) == Attempts(before.calls, t))
  }

  ghost predicate EffectsGrow(before: Db, after: Db) {
    && (forall op :: op in before.applied ==> op in after.applied && after.applied[op] == before.applied[op])
    && before.effects <= after.effects
  }

  ghost predicate CyclesGrow(before: Db, after: Db) {
    && (forall c :: c in before.cycles ==> c in after.cycles)
    && (forall c :: c in before.cycles && c in after.cycles && before.cycles[c].status != Active ==> after.cycles[c] == before.cycles[c])
    && (forall w :: w in before.links ==> w in after.links && after.links[w] == before.links[w])
  }

  ghost predicate Grows(before: Db, after: Db) {
    && TurnsGrow(before.turns, after.turns)
    && CallsGrow(before, after)
    && EffectsGrow(before, after)
    && CyclesGrow(before, after)
  }

  lemma GrowsTrans(a: Db, b: Db, c: Db)
    requires Grows(a, b) && Grows(b, c)
    ensures Grows(a, c)
  {
    forall t | t in a.turns && a.turns[t].decision.Some?
      ensures Attempts(c.calls, t) == Attempts(a.calls, t)
    {
      assert TurnGrows(a.turns[t], b.turns[t]);
    }
    forall t | t in a.turns
      ensures t in c.turns && TurnGrows(a.turns[t], c.turns[t])
    {
      assert TurnGrows(a.turns[t], b.turns[t]) && TurnGrows(b.turns[t], c.turns[t]);
    }
  }

  lemma EndGrows(db: Db, c: Id, t: Id, status: TurnStatus, now: Time, reason: string, failed: bool)
    requires c in db.cycles && t in db.turns && Unfinished(db.turns[t])
    ensures Grows(db, FinishCycle(EndTurn(db, t, status, now), c, now, reason, failed))
  {
    EndFrame(db, c, t, status, now, reason, failed);
    hide FinishCycle, EndTurn, Attempts;
  }

  lemma EndFrame(db: Db, c: Id, t: Id, status: TurnStatus, now: Time, reason: string, failed: bool)
    requires c in db.cycles && t in db.turns
    ensures var after := FinishCycle(EndTurn(db, t, status, now), c, now, reason, failed);
      && after.turns == db.turns[t := db.turns[t].(status := status, completedAt := Some(now))]
      && after.calls == db.calls && after.applied == db.applied && after.effects == db.effects && after.links == db.links
      && c in after.cycles && after.cycles == db.cycles[c := after.cycles[c]]
      && (db.cycles[c].status != Active ==> after.cycles == db.cycles)
  {
  }

  lemma SettleGrows(db: Db, flags: Flags, c: Id, t: Id, now: Time)
    requires c in db.cycles && t in db.turns && Unfinished(db.turns[t])
    ensures Grows(db, Settle(db, flags, c, t, now).0)
  {
    var settled := db.(calls := AbandonStarted(db.calls, t, now));
    forall u { AbandonSame(db.calls, t, now, u); }
    assert Grows(db, settled);
    if Exhausted(settled, flags, c, t, now).Some? {
      EndGrows(settled, c, t, TurnFailed, now, Exhausted(settled, flags, c, t, now).value, true);
      GrowsTrans(db, settled, Settle(db, flags, c, t, now).0);
    }
  }

  lemma StartGrows(db: Db, flags: Flags, c: Id, t: Id, now: Time, i: Id)
    requires c in db.cycles && t in db.turns && Unfinished(db.turns[t]) && db.turns[t].decision.None? && i !in db.calls
    ensures Grows(db, StartCall(db, flags, c, t, now, i).0)
  {
    hide Unfinished, FailTurn;
    SettleGrows(db, flags, c, t, now);
    var (settled, spent) := Settle(db, flags, c, t, now);
    if !spent {
      var after := StartCall(db, flags, c, t, now, i).0;
      assert i !in settled.calls;
      forall u | u != t
        ensures Attempts(after.calls, u) == Attempts(settled.calls, u)
      {
      }
      assert Grows(settled, after);
      GrowsTrans(db, settled, after);
    }
  }

  lemma FailCallGrows(db: Db, i: Id, now: Time, error: string)
    requires i in db.calls
    ensures Grows(db, FailCall(db, i, now, error))
  {
    var after := FailCall(db, i, now, error);
    forall u
      ensures Attempts(after.calls, u) == Attempts(db.calls, u)
    {
    }
  }

  lemma RecordGrows(db: Db, c: Id, t: Id, i: Id, request: Request, result: ModelResult, now: Time)
    requires c in db.cycles && t in db.turns && Unfinished(db.turns[t]) && db.turns[t].decision.None? && i in db.calls
    requires db.calls[i].turn == t
    ensures Grows(db, RecordResult(db, c, t, i, request, result, now))
  {
    hide Grows, EndTurn, FinishCycle, DecisionKnown;
    forall error { FailCallGrows(db, i, now, error); }
    forall error, reason
      ensures Grows(db, FailTurn(FailCall(db, i, now, error), c, t, now, reason))
    {
      EndGrows(FailCall(db, i, now, error), c, t, TurnFailed, now, reason, true);
      GrowsTrans(db, FailCall(db, i, now, error), FailTurn(FailCall(db, i, now, error), c, t, now, reason));
    }
    if result.outcome.Completion? {
      DecideGrows(db, t, i, result.outcome.decision, now);
    }
  }

  lemma DecideGrows(db: Db, t: Id, i: Id, d: Decision, now: Time)
    requires t in db.turns && Unfinished(db.turns[t]) && db.turns[t].decision.None? && i in db.calls && db.calls[i].turn == t
    ensures Grows(db, db.(
              calls := db.calls[i := db.calls[i].(status := CallCompleted, completedAt := Some(now), decision := Some(d))],
              turns := db.turns[t := db.turns[t].(status := Decided, decision := Some(d))]))
  {
    var calls := db.calls[i := db.calls[i].(status := CallCompleted, completedAt := Some(now), decision := Some(d))];
    forall u { AttemptsSame(db.calls, i, calls[i], u); }
  }

  lemma AttemptsSame(calls: map<Id, Call>, i: Id, call: Call, u: Id)
    requires i in calls && call.turn == calls[i].turn
    ensures Attempts(calls[i := call], u) == Attempts(calls, u)
  {
  }

  lemma FinishGrows(db: Db, c: Id, now: Time, reason: string, failed: bool)
    requires c in db.cycles
    ensures Grows(db, FinishCycle(db, c, now, reason, failed))
  {
    hide ConsumeLinked;
  }

  lemma EffectGrows(db: Db, t: Id, d: Decision, now: Time, delay: Time)
    requires t in db.turns && Unfinished(db.turns[t])
    requires forall op :: op in Operations(d) ==> op !in db.applied
    ensures Grows(db, EndTurn(TakeEffect(db, t, d, now, delay), t, Applied, now))
  {
    hide ScheduleAll;
  }

  lemma NextTurnGrows(db: Db, n: Id, turn: Turn)
    requires n !in db.turns
    ensures Grows(db, db.(turns := db.turns[n := turn]))
  {
  }

  lemma ApplyGrows(db: Db, c: Id, t: Id, now: Time, verdict: Verdict, n: Id)
    requires c in db.cycles && t in db.turns && Unfinished(db.turns[t]) && db.turns[t].decision.Some? && n !in db.turns
    ensures Grows(db, ApplyDecision(db, c, t, now, verdict, n))
  {
    hide Grows, FinishCycle, TakeEffect, Acceptable;
    var d := db.turns[t].decision.value;
    EndGrows(db, c, t, Rejected, now, "decision_rejected", true);
    if Acceptable(db, c, t, d, verdict) {
      var delay := db.cycles[c].minWakeDelay;
      EffectFrame(db, t, d, now, delay);
      var done := EndTurn(TakeEffect(db, t, d, now, delay), t, Applied, now);
      AcceptableIsNew(db, c, t, d, verdict);
      EffectGrows(db, t, d, now, delay);
      var after := ApplyDecision(db, c, t, now, verdict, n);
      forall reason { FinishGrows(done, c, now, reason, false); }
      NextTurnGrows(done, n, NewTurn(c, db.turns[t].ordinal + 1));
      GrowsTrans(db, done, after);
    }
  }

  lemma EffectFrame(db: Db, t: Id, d: Decision, now: Time, delay: Time)
    requires t in db.turns
    ensures var taken := TakeEffect(db, t, d, now, delay);
      taken.turns == db.turns && taken.cycles == db.cycles && taken.calls == db.calls && taken.contexts == db.contexts
  {
    hide ScheduleAll;
  }

  lemma AcceptableIsNew(db: Db, c: Id, t: Id, d: Decision, verdict: Verdict)
    requires Acceptable(db, c, t, d, verdict)
    ensures forall op :: op in Operations(d) ==> op !in db.applied
  {
  }

  lemma BeginGrows(s: Sys, a: Action)
    requires Inv(s) && Enabled(s, a) && a.Begin?
    ensures Grows(s.db, Step(s, a).db)
  {
    hide Choose, HeadStep, CompileStep, StartStep, AnswerStep, AddWakeStep;
    hide TurnsOk, NumbersOk, StagesOk, DecisionsOk, EffectsOk, LinksOk, ScopeOk, GrantsOk, W.KeysUnique;
    if s.process.Down? && s.flags.allowed {
      NoOrphans(s.db, a.limits.maxWakes, a.replacements);
      if !HasActive(s.db.cycles) {
        var claim := Choose(s.db, s.flags, a.now, a.limits);
        if claim.Claim? && claim.wakes != [] {
          ChooseIsSound(s.db, s.flags, a.now, a.limits);
          PendingNotLinked(s.db, claim.wakes);
        }
      }
    }
  }

  lemma PendingNotLinked(db: Db, wakes: seq<Id>)
    requires LinksOk(db.wakes, db.links, db.cycles)
    requires forall w :: w in wakes ==> w in db.wakes && db.wakes[w].status == W.Pending
    ensures forall w :: w in wakes ==> w !in db.links
  {
  }

  lemma HeadGrows(s: Sys, a: Action)
    requires Inv(s) && Enabled(s, a) && a.Head?
    ensures Grows(s.db, HeadStep(s, a).db)
  {
    hide TurnsOk, NumbersOk, StagesOk, DecisionsOk, EffectsOk, LinksOk, ScopeOk, GrantsOk, W.KeysUnique;
    hide Grows, ApplyDecision, Settle;
    GrowsRefl(s.db);
    if s.process.Looping? && IsActive(s.db.cycles, s.process.cycleId) && s.flags.allowed {
      var c := s.process.cycleId;
      LatestIsUnfinished(s.db.cycles, s.db.turns, c);
      var t :| IsLatest(s.db.turns, c, t);
      TurnFacts(s.db, t);
      if s.db.turns[t].status == Decided {
        ApplyGrows(s.db, c, t, a.now, a.verdict, a.nextTurn);
      } else {
        SettleGrows(s.db, s.flags, c, t, a.now);
      }
    }
  }

  lemma CompileGrows(s: Sys, a: Action)
    requires Inv(s) && a.Compile?
    ensures Grows(s.db, CompileStep(s, a).db)
  {
    hide TurnsOk, NumbersOk, StagesOk, DecisionsOk, EffectsOk, LinksOk, ScopeOk, GrantsOk, W.KeysUnique;
    hide EndTurn, FinishCycle;
    if s.process.Captured? {
      forall reason { EndGrows(s.db, s.process.cycleId, s.process.turnId, TurnFailed, a.now, reason, true); }
    }
  }

  lemma AnswerGrows(s: Sys, a: Action)
    requires Inv(s) && a.Answer?
    ensures Grows(s.db, AnswerStep(s, a).db)
  {
    hide TurnsOk, NumbersOk, StagesOk, DecisionsOk, EffectsOk, LinksOk, ScopeOk, GrantsOk, W.KeysUnique;
    hide Grows, RecordResult, FailCall;
    GrowsRefl(s.db);
    if s.process.Calling? {
      TurnFacts(s.db, s.process.turnId);
      forall error { FailCallGrows(s.db, s.process.callId, a.now, error); }
      if a.reply.Result? {
        RecordGrows(s.db, s.process.cycleId, s.process.turnId, s.process.callId, s.db.contexts[s.process.turnId], a.reply.result, a.now);
      }
    }
  }

  lemma StepGrows(s: Sys, a: Action)
    requires Inv(s)
    ensures Grows(s.db, Step(s, a).db)
  {
    hide TurnsOk, NumbersOk, StagesOk, DecisionsOk, EffectsOk, LinksOk, ScopeOk, GrantsOk, W.KeysUnique;
    hide BeginStep, HeadStep, CompileStep, AnswerStep, StartCall;
    if Enabled(s, a) {
      match a
      case Crash =>
      case Administer(_) =>
      case AddWake(_, _, _) =>
      case EditWake(_, _) =>
      case Begin(_, _, _, _, _) => BeginGrows(s, a);
      case Head(_, _, _) => HeadGrows(s, a);
      case Compile(_, _) => CompileGrows(s, a);
      case Start(_, _, _) =>
        if s.process.Ready? {
          TurnFacts(s.db, s.process.turnId);
          StartGrows(s.db, s.flags, s.process.cycleId, s.process.turnId, a.now, a.callId);
        }
      case Answer(_, _) => AnswerGrows(s, a);
    }
  }

  lemma {:induction false} RunGrows(flags: Flags, actions: seq<Action>, i: nat)
    requires i <= |actions|
    ensures Grows(Run(Initial(flags), actions[..i]).db, Run(Initial(flags), actions).db)
  {
    hide Step, Inv;
    if i == |actions| {
      assert actions[..i] == actions;
      GrowsRefl(Run(Initial(flags), actions).db);
    } else {
      hide Grows;
      var front := actions[..|actions| - 1];
      assert front[..i] == actions[..i];
      RunGrows(flags, front, i);
      RunKeepsInv(flags, front);
      StepGrows(Run(Initial(flags), front), actions[|actions| - 1]);
      GrowsTrans(Run(Initial(flags), actions[..i]).db, Run(Initial(flags), front).db, Run(Initial(flags), actions).db);
    }
  }

  lemma GrowsRefl(db: Db)
    ensures Grows(db, db)
  {
  }

  /**
   * From the moment a turn holds a decision, every continuation of the run keeps that decision,
   * makes no further call for the turn, and lets it take effect at most once: all its operations
   * are recorded exactly when its turn is applied, and none otherwise.
   */
  lemma DecisionAppliedOnce(flags: Flags, actions: seq<Action>, i: nat, t: Id)
    requires i <= |actions|
    requires var earlier := Run(Initial(flags), actions[..i]).db; t in earlier.turns && earlier.turns[t].decision.Some?
    ensures var earlier, later := Run(Initial(flags), actions[..i]).db, Run(Initial(flags), actions).db;
      && t in later.turns && later.turns[t].decision == earlier.turns[t].decision
      && Attempts(later.calls, t) == Attempts(earlier.calls, t)
      && Distinct(later.effects)
      && (t in later.effects <==> later.turns[t].status == Applied)
      && (later.turns[t].status == Applied ==>
            forall op :: op in Operations(later.turns[t].decision.value) ==> op in later.applied && later.applied[op] == t)
      && (later.turns[t].status != Applied ==> forall op :: op in later.applied ==> later.applied[op] != t)
      && (t in earlier.effects ==> t in later.effects)
  {
    RunGrows(flags, actions, i);
    RunKeepsInv(flags, actions);
    hide Run, TurnsOk, NumbersOk, StagesOk, DecisionsOk, EffectsOk, LinksOk, ScopeOk, GrantsOk, W.KeysUnique;
    var earlier, later := Run(Initial(flags), actions[..i]).db, Run(Initial(flags), actions).db;
    assert TurnGrows(earlier.turns[t], later.turns[t]);
    EffectFacts(later, t);
  }

  lemma EffectFacts(db: Db, t: Id)
    requires EffectsOk(db.turns, db.applied, db.effects) && t in db.turns && db.turns[t].decision.Some?
    ensures Distinct(db.effects)
    ensures t in db.effects <==> db.turns[t].status == Applied
    ensures db.turns[t].status == Applied ==>
      forall op :: op in Operations(db.turns[t].decision.value) ==> op in db.applied && db.applied[op] == t
    ensures db.turns[t].status != Applied ==> forall op :: op in db.applied ==> db.applied[op] != t
  {
    assert db.turns[t].status == Applied ==> IsApplied(db.turns, t);
  }

  // ---- Permission ----

  /** Neither a decision nor a call nor a claim is new. */
  ghost predicate NothingNew(before: Db, after: Db) {
    && after.effects == before.effects && after.applied == before.applied
    && after.calls.Keys == before.calls.Keys && after.cycles.Keys == before.cycles.Keys && after.links == before.links
  }

  lemma FailAddsNothing(db: Db, c: Id, t: Id, now: Time, reason: string)
    requires c in db.cycles && t in db.turns
    ensures NothingNew(db, FailTurn(db, c, t, now, reason))
  {
  }

  lemma FailBothAddsNothing(db: Db, c: Id, t: Id, i: Id, now: Time, error: string)
    requires c in db.cycles && t in db.turns && i in db.calls
    ensures NothingNew(db, FailCall(db, i, now, error))
    ensures NothingNew(db, FailTurn(FailCall(db, i, now, error), c, t, now, error))
  {
    FailAddsNothing(FailCall(db, i, now, error), c, t, now, error);
    hide FailTurn;
  }

  lemma RecordAddsNothing(db: Db, c: Id, t: Id, i: Id, request: Request, result: ModelResult, now: Time)
    requires c in db.cycles && t in db.turns && i in db.calls
    ensures NothingNew(db, RecordResult(db, c, t, i, request, result, now))
  {
    FailBothAddsNothing(db, c, t, i, now, "request_id_mismatch");
    FailBothAddsNothing(db, c, t, i, now, "protocol_mismatch");
    FailBothAddsNothing(db, c, t, i, now, "refused");
    FailBothAddsNothing(db, c, t, i, now, "failed");
    FailBothAddsNothing(db, c, t, i, now, "duplicate_decision_id");
    hide FailTurn, FailCall, DecisionKnown;
  }

  lemma CompileAddsNothing(s: Sys, a: Action)
    requires a.Compile?
    ensures NothingNew(s.db, CompileStep(s, a).db)
  {
    hide FailTurn;
    if s.process.Captured? && s.process.cycleId in s.db.cycles && s.process.turnId in s.db.turns {
      forall reason { FailAddsNothing(s.db, s.process.cycleId, s.process.turnId, a.now, reason); }
    }
  }

  lemma AnswerAddsNothing(s: Sys, a: Action)
    requires a.Answer?
    ensures NothingNew(s.db, AnswerStep(s, a).db)
  {
    hide RecordResult;
    if s.process.Calling? {
      var c, t, i := s.process.cycleId, s.process.turnId, s.process.callId;
      if c in s.db.cycles && t in s.db.turns && i in s.db.calls && t in s.db.contexts && a.reply.Result? {
        RecordAddsNothing(s.db, c, t, i, s.db.contexts[t], a.reply.result, a.now);
      }
    }
  }

  /** New work starts and decisions take effect only while the individual is active and unblocked. */
  lemma OnlyWhileAllowed(s: Sys, a: Action)
    requires !s.flags.allowed
    ensures NothingNew(s.db, Step(s, a).db)
  {
    hide Enabled, CompileStep, AnswerStep, ClaimOrResume, IsLatest, ApplyDecision, Settle, StartCall;
    if a.Compile? {
      CompileAddsNothing(s, a);
    } else if a.Answer? {
      AnswerAddsNothing(s, a);
    }
  }

  predicate ByOthers(a: Action) {
    a.Administer? || a.AddWake? || a.EditWake?
  }

  /** What others do leaves the process and the tables of the protocol alone. */
  lemma {:induction false} OthersLeaveCalls(s: Sys, between: seq<Action>)
    requires forall a :: a in between ==> ByOthers(a)
    ensures var after := Run(s, between);
      && after.process == s.process && after.raised == s.raised
      && after.db == s.db.(wakes := after.db.wakes, inbound := after.db.inbound, grants := after.db.grants)
  {
    if between != [] {
      var front, last := between[..|between| - 1], between[|between| - 1];
      assert ByOthers(last);
      OthersLeaveCalls(s, front);
      hide Run, Enabled;
    }
  }

  /**
   * A call once started may be answered at any time: whatever administration, pauses included, and
   * other writers do meanwhile, a fitting decision is recorded for its turn.
   */
  lemma InFlightResultIsRecorded(flags: Flags, before: seq<Action>, start: Action, between: seq<Action>, now: Time, result: ModelResult)
    requires start.Start? && Run(Initial(flags), before + [start]).process.Calling?
    requires forall a :: a in between ==> ByOthers(a)
    requires var s := Run(Initial(flags), before + [start]);
      && s.process.turnId in s.db.contexts
      && var request := s.db.contexts[s.process.turnId];
      && result.requestId == request.requestId && result.protocol == request.protocol && result.outcome.Completion?
      && result.outcome.decision.protocol == request.protocol && !DecisionKnown(s.db.turns, result.outcome.decision.id)
    ensures var s := Run(Initial(flags), before + [start]);
      var after := Step(Run(s, between), Answer(now, Result(result)));
      && s.process.turnId in after.db.turns
      && after.db.turns[s.process.turnId].status == Decided
      && after.db.turns[s.process.turnId].decision == Some(result.outcome.decision)
      && !after.raised
  {
    hide TurnsOk, NumbersOk, StagesOk, DecisionsOk, EffectsOk, LinksOk, ScopeOk, GrantsOk, W.KeysUnique;
    hide Step, ByOthers, DecisionKnown;
    RunKeepsInv(flags, before + [start]);
    var s := Run(Initial(flags), before + [start]);
    OthersLeaveCalls(s, between);
    var meanwhile := Run(s, between);
    hide Run;
    AnswerDecides(meanwhile, now, result);
  }

  lemma AnswerDecides(s: Sys, now: Time, result: ModelResult)
    requires s.process.Calling? && !s.raised
    requires var (c, t, i) := (s.process.cycleId, s.process.turnId, s.process.callId);
      c in s.db.cycles && t in s.db.turns && t in s.db.contexts && i in s.db.calls && s.db.calls[i].status == Started
    requires var request := s.db.contexts[s.process.turnId];
      && result.requestId == request.requestId && result.protocol == request.protocol && result.outcome.Completion?
      && result.outcome.decision.protocol == request.protocol && !DecisionKnown(s.db.turns, result.outcome.decision.id)
    ensures var after := Step(s, Answer(now, Result(result)));
      && s.process.turnId in after.db.turns
      && after.db.turns[s.process.turnId].status == Decided
      && after.db.turns[s.process.turnId].decision == Some(result.outcome.decision)
      && !after.raised
  {
    hide FailTurn, FailCall, BeginStep, HeadStep, CompileStep, StartStep, DecisionKnown;
    var answer := Answer(now, Result(result));
    assert Step(s, answer) == AnswerStep(s, answer);
  }

  // ---- Which wakes a new cycle takes ----

  /** The step opens a cycle. */
  ghost predicate Opens(s: Sys, a: Action) {
    a.Begin? && Enabled(s, a) && s.process.Down? && s.flags.allowed && !HasActive(s.db.cycles)
    && Choose(s.db, s.flags, a.now, a.limits).Claim? && Choose(s.db, s.flags, a.now, a.limits).wakes != []
  }

  function Taken(db: Db, c: Id): set<Id> {
    set w | w in db.links && db.links[w] == c
  }

  lemma OpensWith(s: Sys, a: Action)
    requires Inv(s) && Opens(s, a)
    ensures var claim := Choose(s.db, s.flags, a.now, a.limits);
      && SoundClaim(s.db, claim, a.now)
      && Step(s, a).db == OpenCycle(s.db, a.cycleId, a.turnId, claim, a.now)
      && Taken(Step(s, a).db, a.cycleId) == Elements(claim.wakes)
      && (forall w :: w in claim.wakes ==> w !in s.db.links)
  {
    hide TurnsOk, NumbersOk, StagesOk, DecisionsOk, EffectsOk, ScopeOk, GrantsOk, W.KeysUnique, Choose;
    NoOrphans(s.db, a.limits.maxWakes, a.replacements);
    var claim := Choose(s.db, s.flags, a.now, a.limits);
    ChooseIsSound(s.db, s.flags, a.now, a.limits);
    PendingNotLinked(s.db, claim.wakes);
    LinkedBefore(s.db, a.cycleId);
  }

  lemma LinkedBefore(db: Db, c: Id)
    requires LinksOk(db.wakes, db.links, db.cycles) && c !in db.cycles
    ensures forall w :: w in db.links ==> db.links[w] != c
  {
  }

  /** The wakes of `s` that are in `taken` come first in claim order, as many as `limit` allows. */
  ghost predicate EarliestOf(wakes: W.Table, s: set<Id>, taken: set<Id>, limit: nat)
    requires s <= wakes.Keys
  {
    && taken <= s && |taken| == Min(limit, |s|)
    && forall x, y :: x in taken && y in s - taken ==> W.Before(wakes, x, y)
  }

  lemma InOrderIsEarliest(wakes: W.Table, s: set<Id>, limit: nat)
    requires s <= wakes.Keys
    ensures EarliestOf(wakes, s, Elements(W.InOrder(wakes, s, limit)), limit)
  {
    var rows := W.InOrder(wakes, s, limit);
    W.InOrderMembers(wakes, s, limit);
    DistinctCardinality(rows);
    forall x, y | x in Elements(rows) && y in s - Elements(rows)
      ensures W.Before(wakes, x, y)
    {
      W.InOrderTakesEarliest(wakes, s, limit, x, y);
    }
  }

  lemma OrdinaryChoice(db: Db, flags: Flags, now: Time, limits: Limits)
    requires Due(db, now) != {} && limits.maxWakes >= 1
    ensures var due, first, claim := Due(db, now), W.Least(db.wakes, Due(db, now)), Choose(db, flags, now, limits);
      && claim.Claim? && first in claim.wakes
      && (first in db.inbound ==> claim.wakes == [first])
      && (first !in db.inbound ==> EarliestOf(db.wakes, due - db.inbound, Elements(claim.wakes), limits.maxWakes))
  {
    var due, first := Due(db, now), W.Least(db.wakes, Due(db, now));
    if first !in db.inbound {
      var rest := due - db.inbound;
      InOrderIsEarliest(db.wakes, rest, limits.maxWakes);
      LeastOfPart(db.wakes, due, rest);
      assert W.InOrder(db.wakes, rest, limits.maxWakes)[0] == first;
    }
  }

  /**
   * What a new cycle takes: the earliest due ordinary wake is always in it; an inbound group and an
   * exploration allowance travel alone; other ordinary work is the earliest that fits the limit;
   * and exploration starts only when no ordinary work is due.
   */
  lemma NewCycleTakes(s: Sys, a: Action)
    requires Inv(s) && Opens(s, a)
    ensures var due, taken := Due(s.db, a.now), Taken(Step(s, a).db, a.cycleId);
      && (due != {} ==> W.Least(s.db.wakes, due) in taken)
      && (due != {} && W.Least(s.db.wakes, due) !in s.db.inbound ==>
            EarliestOf(s.db.wakes, due - s.db.inbound, taken, a.limits.maxWakes))
      && (forall x, y :: x in taken && y in taken && Special(s.db.inbound, s.db.grants, x) ==> x == y)
      && ((exists w :: w in taken && w in s.db.grants) ==> due == {})
  {
    OpensWith(s, a);
    hide Inv, Step;
    var due, claim := Due(s.db, a.now), Choose(s.db, s.flags, a.now, a.limits);
    if due != {} {
      OrdinaryChoice(s.db, s.flags, a.now, a.limits);
      OrdinaryIsUnmanaged(s.db, a.now, claim.wakes);
      hide Choose, EarliestOf;
      assert forall w :: w in claim.wakes <==> w in Elements(claim.wakes);
    }
  }

  lemma OrdinaryIsUnmanaged(db: Db, now: Time, wakes: seq<Id>)
    requires Due(db, now) != {}
    requires var first := W.Least(db.wakes, Due(db, now));
      wakes == [first] || Elements(wakes) <= Due(db, now)
    ensures forall w :: w in wakes ==> w in Due(db, now) && w !in db.grants
  {
    assert forall w :: w in wakes ==> w in Elements(wakes);
  }

  lemma LeastOfPart(wakes: W.Table, s: set<Id>, part: set<Id>)
    requires s <= wakes.Keys && part <= s && s != {} && W.Least(wakes, s) in part
    ensures W.Least(wakes, part) == W.Least(wakes, s)
  {
  }

  // ---- Bounded waiting for ordinary work ----

  predicate Waiting(db: Db, w: Id) {
    w in db.wakes && db.wakes[w].status == W.Pending && w !in db.grants
  }

  /** The waiting ordinary wakes that precede `w` in claim order. */
  function Ahead(db: Db, w: Id): set<Id>
    requires w in db.wakes
  {
    set v | v in db.wakes && Waiting(db, v) && v != w && W.Before(db.wakes, v, w)
  }

  lemma OpeningLeavesFewer(db: Db, after: Db, c: Id, t: Id, claim: Claim, now: Time, w: Id, first: Id)
    requires claim.Claim? && Elements(claim.wakes) <= db.wakes.Keys && after == OpenCycle(db, c, t, claim, now)
    requires Waiting(db, w) && w !in claim.wakes
    requires first in claim.wakes && Waiting(db, first) && first != w && W.Before(db.wakes, first, w)
    ensures Waiting(after, w) && after.wakes[w] == db.wakes[w] && Ahead(after, w) < Ahead(db, w)
  {
    assert first in Ahead(db, w) && first !in Ahead(after, w);
  }

  /** Opening a cycle while `w` is due takes `w` itself or something ahead of it. */
  lemma OpeningApproaches(s: Sys, a: Action, w: Id)
    requires Inv(s) && Opens(s, a) && Waiting(s.db, w) && s.db.wakes[w].dueAt <= a.now
    ensures var after := Step(s, a).db;
      && w in after.wakes
      && (w in after.links || (Waiting(after, w) && after.wakes[w] == s.db.wakes[w] && Ahead(after, w) < Ahead(s.db, w)))
  {
    OpensWith(s, a);
    hide Inv, Step, SoundClaim;
    var due, claim := Due(s.db, a.now), Choose(s.db, s.flags, a.now, a.limits);
    assert w in due;
    OrdinaryChoice(s.db, s.flags, a.now, a.limits);
    hide Choose, EarliestOf;
    var first := W.Least(s.db.wakes, due);
    ClaimIsStored(s.db, claim, a.now);
    if w !in claim.wakes {
      OpeningLeavesFewer(s.db, Step(s, a).db, a.cycleId, a.turnId, claim, a.now, w, first);
    }
  }

  lemma ClaimIsStored(db: Db, claim: Claim, now: Time)
    requires SoundClaim(db, claim, now)
    ensures claim.Claim? && Elements(claim.wakes) <= db.wakes.Keys
  {
  }

  /** Whether a wake due at `due` would be ahead of `w`. */
  predicate WouldPrecede(db: Db, id: Id, due: Time, w: Id)
    requires w in db.wakes
  {
    due < db.wakes[w].dueAt || (due == db.wakes[w].dueAt && id < w)
  }

  /**
   * Nobody brings work due earlier than `w`, withdraws or postpones it, and cycles open once it is
   * due. Only other writers, claims and the wake requests of a decision are restricted.
   */
  ghost predicate Undisturbed(s: Sys, a: Action, w: Id) {
    Waiting(s.db, w) ==>
    match a
    case AddWake(id, wake, scope) => scope.Exploration? || !WouldPrecede(s.db, id, wake.dueAt, w)
    case EditWake(id, wake) =>
      if id == w then wake.status == W.Pending && wake.dueAt <= s.db.wakes[w].dueAt
      else wake.status == W.Cancelled || id in Ahead(s.db, w) || !WouldPrecede(s.db, id, wake.dueAt, w)
    case Begin(now, _, _, _, _) => s.db.wakes[w].dueAt <= now
    case Head(now, _, _) =>
      forall t :: t in s.db.turns && s.db.turns[t].status == Decided ==> RequestsWait(s.db, t, now, s.db.wakes[w].dueAt)
    case _ => true
  }

  /** The wakes that the decision of `t` asks for would be due later than `due`. */
  predicate RequestsWait(db: Db, t: Id, now: Time, due: Time)
    requires t in db.turns
  {
    db.turns[t].decision.Some? && db.turns[t].cycle in db.cycles ==>
      RequestsAfter(db.turns[t].decision.value.wakeRequests, now, db.cycles[db.turns[t].cycle].minWakeDelay, due)
  }

  predicate RequestsAfter(requests: seq<WakeRequest>, now: Time, delay: Time, due: Time) {
    forall r :: r in requests ==> SelfScheduled(r, now, delay).dueAt > due
  }

  /** `w` still waits, no later than before and behind no one new. */
  ghost predicate KeepsPlace(db: Db, after: Db, w: Id)
    requires w in db.wakes
  {
    Waiting(after, w) && after.wakes[w].dueAt <= db.wakes[w].dueAt && Ahead(after, w) <= Ahead(db, w)
  }

  /** The same wakes are pending, unchanged. */
  ghost predicate SamePending(db: Db, after: Db) {
    && after.grants == db.grants
    && (forall v :: v in db.wakes && db.wakes[v].status == W.Pending ==> v in after.wakes && after.wakes[v] == db.wakes[v])
    && (forall v :: v in after.wakes && after.wakes[v].status == W.Pending ==> v in db.wakes && after.wakes[v] == db.wakes[v])
  }

  lemma SamePendingKeepsPlace(db: Db, after: Db, w: Id)
    requires Waiting(db, w) && SamePending(db, after)
    ensures KeepsPlace(db, after, w)
  {
  }

  lemma FinishSamePending(db: Db, c: Id, now: Time, reason: string, failed: bool)
    requires c in db.cycles
    ensures SamePending(db, FinishCycle(db, c, now, reason, failed))
  {
    hide ConsumeLinked;
    ConsumedPending(db.wakes, db.links, c, now);
  }

  lemma ConsumedPending(wakes: W.Table, links: map<Id, Id>, c: Id, now: Time)
    ensures forall v: Id :: v in wakes && wakes[v].status == W.Pending ==>
      v in ConsumeLinked(wakes, links, c, now) && ConsumeLinked(wakes, links, c, now)[v] == wakes[v]
    ensures forall v: Id :: v in ConsumeLinked(wakes, links, c, now) && ConsumeLinked(wakes, links, c, now)[v].status == W.Pending ==>
      v in wakes && ConsumeLinked(wakes, links, c, now)[v] == wakes[v]
  {
  }

  lemma FailSamePending(db: Db, c: Id, t: Id, now: Time, reason: string)
    requires c in db.cycles && t in db.turns
    ensures SamePending(db, FailTurn(db, c, t, now, reason))
  {
    FinishSamePending(EndTurn(db, t, TurnFailed, now), c, now, reason, true);
    hide FinishCycle;
  }

  lemma SettleSamePending(db: Db, flags: Flags, c: Id, t: Id, now: Time)
    requires c in db.cycles && t in db.turns
    ensures SamePending(db, Settle(db, flags, c, t, now).0)
  {
    hide FailTurn, Exhausted, AbandonStarted;
    var settled := db.(calls := AbandonStarted(db.calls, t, now));
    forall reason
      ensures SamePending(settled, FailTurn(settled, c, t, now, reason))
    {
      FailSamePending(settled, c, t, now, reason);
    }
  }

  lemma FailBothSamePending(db: Db, c: Id, t: Id, i: Id, now: Time, error: string)
    requires c in db.cycles && t in db.turns && i in db.calls
    ensures SamePending(db, FailCall(db, i, now, error))
    ensures SamePending(db, FailTurn(FailCall(db, i, now, error), c, t, now, error))
  {
    FailSamePending(FailCall(db, i, now, error), c, t, now, error);
    hide FailTurn;
  }

  lemma RecordSamePending(db: Db, c: Id, t: Id, i: Id, request: Request, result: ModelResult, now: Time)
    requires c in db.cycles && t in db.turns && i in db.calls
    ensures SamePending(db, RecordResult(db, c, t, i, request, result, now))
  {
    FailBothSamePending(db, c, t, i, now, "request_id_mismatch");
    FailBothSamePending(db, c, t, i, now, "protocol_mismatch");
    FailBothSamePending(db, c, t, i, now, "refused");
    FailBothSamePending(db, c, t, i, now, "failed");
    FailBothSamePending(db, c, t, i, now, "duplicate_decision_id");
    hide FailTurn, FailCall, DecisionKnown;
  }

  /** Freezing a request, starting a call and recording an answer leave the queue alone. */
  lemma CompileSamePending(s: Sys, a: Action)
    requires a.Compile?
    ensures SamePending(s.db, CompileStep(s, a).db)
  {
    hide FailTurn;
    if s.process.Captured? && s.process.cycleId in s.db.cycles && s.process.turnId in s.db.turns {
      FailSamePending(s.db, s.process.cycleId, s.process.turnId, a.now, "missing_configuration");
      FailSamePending(s.db, s.process.cycleId, s.process.turnId, a.now, "context_budget");
    }
  }

  lemma StartSamePending(s: Sys, a: Action)
    requires a.Start?
    ensures SamePending(s.db, StartStep(s, a).db)
  {
    hide Settle;
    if s.process.Ready? && s.process.cycleId in s.db.cycles && s.process.turnId in s.db.turns {
      SettleSamePending(s.db, s.flags, s.process.cycleId, s.process.turnId, a.now);
    }
  }

  lemma AnswerSamePending(s: Sys, a: Action)
    requires a.Answer?
    ensures SamePending(s.db, AnswerStep(s, a).db)
  {
    hide FailTurn, FailCall, RecordResult;
    if s.process.Calling? && s.process.cycleId in s.db.cycles && s.process.turnId in s.db.turns && s.process.callId in s.db.calls {
      var c, t, i := s.process.cycleId, s.process.turnId, s.process.callId;
      match a.reply
      case ProviderError => FailBothSamePending(s.db, c, t, i, a.now, "provider_error");
      case InvalidResult => FailBothSamePending(s.db, c, t, i, a.now, "invalid_result");
      case Result(result) =>
        if t in s.db.contexts {
          RecordSamePending(s.db, c, t, i, s.db.contexts[t], result, a.now);
        }
    }
  }

  lemma CallStepsSamePending(s: Sys, a: Action)
    requires a.Compile? || a.Start? || a.Answer?
    ensures SamePending(s.db, Step(s, a).db)
  {
    hide BeginStep, HeadStep, CompileStep, StartStep, AnswerStep, AddWakeStep, Enabled;
    match a
    case Compile(_, _) => CompileSamePending(s, a);
    case Start(_, _, _) => StartSamePending(s, a);
    case Answer(_, _) => AnswerSamePending(s, a);
  }

  /** Requests that are due after `w` neither move it nor come ahead of it. */
  lemma {:induction false} ScheduleKeepsPlace(db: Db, requests: seq<WakeRequest>, now: Time, delay: Time, w: Id)
    requires Waiting(db, w) && RequestsAfter(requests, now, delay, db.wakes[w].dueAt) && w !in WakeIds(requests)
    ensures KeepsPlace(db, db.(wakes := ScheduleAll(db.wakes, requests, now, delay)), w)
    ensures ScheduleAll(db.wakes, requests, now, delay)[w].dueAt == db.wakes[w].dueAt
  {
    if requests != [] {
      var front, last := requests[..|requests| - 1], requests[|requests| - 1];
      assert WakeIds(front) == WakeIds(requests)[..|front|];
      assert WakeIds(requests)[|front|] == last.operationId;
      ScheduleKeepsPlace(db, front, now, delay, w);
      var before := db.(wakes := ScheduleAll(db.wakes, front, now, delay));
      OneRequestKeepsPlace(before, last.operationId, SelfScheduled(last, now, delay), w);
    }
  }

  lemma OneRequestKeepsPlace(db: Db, id: Id, wake: W.Wake, w: Id)
    requires Waiting(db, w) && wake.dueAt > db.wakes[w].dueAt && id != w
    ensures var after := db.(wakes := W.CreateOrMerge(db.wakes, id, wake));
      KeepsPlace(db, after, w) && after.wakes[w].dueAt == db.wakes[w].dueAt
  {
    var after := db.(wakes := W.CreateOrMerge(db.wakes, id, wake));
    forall v | v in Ahead(after, w)
      ensures v in Ahead(db, w)
    {
    }
  }

  lemma KeepsPlaceTrans(a: Db, b: Db, c: Db, w: Id)
    requires w in a.wakes && w in b.wakes && KeepsPlace(a, b, w) && KeepsPlace(b, c, w)
    ensures KeepsPlace(a, c, w)
  {
  }

  lemma ApplyKeepsPlace(db: Db, c: Id, t: Id, now: Time, verdict: Verdict, n: Id, w: Id)
    requires c in db.cycles && t in db.turns && db.turns[t].decision.Some? && Waiting(db, w)
    requires RequestsAfter(db.turns[t].decision.value.wakeRequests, now, db.cycles[c].minWakeDelay, db.wakes[w].dueAt)
    ensures KeepsPlace(db, ApplyDecision(db, c, t, now, verdict, n), w)
  {
    hide FinishCycle, Acceptable, KeepsPlace, DispositionName, ScheduleAll, RequestsAfter;
    if Acceptable(db, c, t, db.turns[t].decision.value, verdict) {
      EffectKeepsPlace(db, c, t, now, verdict, n, w);
    } else {
      var ended := EndTurn(db, t, Rejected, now);
      StillKeepsPlace(db, w);
      SameWakesKeepPlace(db, db, ended, w);
      FinishKeepsPlace(db, ended, c, now, "decision_rejected", true, w);
    }
  }

  lemma EffectKeepsPlace(db: Db, c: Id, t: Id, now: Time, verdict: Verdict, n: Id, w: Id)
    requires c in db.cycles && t in db.turns && db.turns[t].decision.Some? && Waiting(db, w)
    requires RequestsAfter(db.turns[t].decision.value.wakeRequests, now, db.cycles[c].minWakeDelay, db.wakes[w].dueAt)
    requires Acceptable(db, c, t, db.turns[t].decision.value, verdict)
    ensures KeepsPlace(db, ApplyDecision(db, c, t, now, verdict, n), w)
  {
    hide FinishCycle, Acceptable, KeepsPlace, DispositionName, ScheduleAll, RequestsAfter;
    var d, delay := db.turns[t].decision.value, db.cycles[c].minWakeDelay;
    NotRequested(db, c, t, d, verdict, w);
    ScheduleKeepsPlace(db, d.wakeRequests, now, delay, w);
    var done := EndTurn(TakeEffect(db, t, d, now, delay), t, Applied, now);
    SameWakesKeepPlace(db, db.(wakes := done.wakes), done, w);
    FinishKeepsPlace(db, done, c, now, DispositionName(d.disposition), false, w);
    FinishKeepsPlace(db, done, c, now, "turn_limit", false, w);
    FinishKeepsPlace(db, done, c, now, "deadline", false, w);
    SameWakesKeepPlace(db, done, done.(turns := done.turns[n := NewTurn(c, db.turns[t].ordinal + 1)]), w);
  }

  lemma NotRequested(db: Db, c: Id, t: Id, d: Decision, verdict: Verdict, w: Id)
    requires Acceptable(db, c, t, d, verdict) && w in db.wakes
    ensures w !in WakeIds(d.wakeRequests)
  {
  }

  lemma StillKeepsPlace(db: Db, w: Id)
    requires Waiting(db, w)
    ensures KeepsPlace(db, db, w)
  {
  }

  lemma SameWakesKeepPlace(db: Db, after: Db, other: Db, w: Id)
    requires w in db.wakes && KeepsPlace(db, after, w) && other.wakes == after.wakes && other.grants == after.grants
    ensures KeepsPlace(db, other, w)
  {
  }

  lemma FinishKeepsPlace(db: Db, done: Db, c: Id, now: Time, reason: string, failed: bool, w: Id)
    requires w in db.wakes && KeepsPlace(db, done, w) && c in done.cycles
    ensures KeepsPlace(db, FinishCycle(done, c, now, reason, failed), w)
  {
    hide FinishCycle;
    FinishSamePending(done, c, now, reason, failed);
    SamePendingKeepsPlace(done, FinishCycle(done, c, now, reason, failed), w);
    KeepsPlaceTrans(db, done, FinishCycle(done, c, now, reason, failed), w);
  }

  lemma HeadKeepsPlace(s: Sys, a: Action, w: Id)
    requires Inv(s) && a.Head? && Enabled(s, a) && Waiting(s.db, w) && Undisturbed(s, a, w)
    ensures KeepsPlace(s.db, Step(s, a).db, w)
  {
    hide TurnsOk, NumbersOk, StagesOk, DecisionsOk, EffectsOk, LinksOk, ScopeOk, GrantsOk, W.KeysUnique;
    hide ApplyDecision, Settle, KeepsPlace, RequestsAfter, SamePending;
    StillKeepsPlace(s.db, w);
    if s.process.Looping? && IsActive(s.db.cycles, s.process.cycleId) && s.flags.allowed {
      var c := s.process.cycleId;
      LatestIsUnfinished(s.db.cycles, s.db.turns, c);
      var t :| IsLatest(s.db.turns, c, t);
      TurnFacts(s.db, t);
      if s.db.turns[t].status == Decided {
        ApplyKeepsPlace(s.db, c, t, a.now, a.verdict, a.nextTurn, w);
      } else {
        SettleSamePending(s.db, s.flags, c, t, a.now);
        SamePendingKeepsPlace(s.db, Settle(s.db, s.flags, c, t, a.now).0, w);
      }
    }
  }

  /** Beginning without opening a cycle only resumes, or claims nothing. */
  lemma BeginWithoutOpening(s: Sys, a: Action)
    requires Inv(s) && a.Begin? && !Opens(s, a)
    ensures Step(s, a).db == s.db
  {
    hide TurnsOk, NumbersOk, StagesOk, DecisionsOk, EffectsOk, LinksOk, ScopeOk, GrantsOk, W.KeysUnique, Choose;
    if Enabled(s, a) {
      NoOrphans(s.db, a.limits.maxWakes, a.replacements);
    }
  }

  lemma OthersKeepPlace(s: Sys, a: Action, w: Id)
    requires Waiting(s.db, w) && Undisturbed(s, a, w) && Enabled(s, a) && (a.AddWake? || a.EditWake?)
    requires ScopeOk(s.db.wakes, s.db.links, s.db.inbound, s.db.grants)
    ensures KeepsPlace(s.db, Step(s, a).db, w)
  {
    var after := Step(s, a).db;
    forall v | v in Ahead(after, w)
      ensures v in Ahead(s.db, w)
    {
    }
  }

  /** Every step leaves `w` its place, and opening a cycle brings it closer. */
  lemma StepKeepsPlace(s: Sys, a: Action, w: Id)
    requires Inv(s) && Waiting(s.db, w) && Undisturbed(s, a, w)
    ensures var after := Step(s, a).db;
      w in after.links || (KeepsPlace(s.db, after, w) && (Opens(s, a) ==> Ahead(after, w) < Ahead(s.db, w)))
  {
    hide Inv, Step, Opens, KeepsPlace;
    if a.Compile? || a.Start? || a.Answer? {
      CallStepsSamePending(s, a);
      SamePendingKeepsPlace(s.db, Step(s, a).db, w);
      OnlyBeginOpens(s, a);
    } else if a.Begin? {
      if Opens(s, a) {
        OpeningKeepsPlace(s, a, w);
      } else {
        BeginWithoutOpening(s, a);
        StillKeepsPlace(s.db, w);
      }
    } else {
      OnlyBeginOpens(s, a);
      StillKeepsPlace(s.db, w);
      QuietSteps(s, a);
      if Enabled(s, a) {
        if a.Head? {
          HeadKeepsPlace(s, a, w);
        } else if a.AddWake? || a.EditWake? {
          ScopeOfInv(s);
          OthersKeepPlace(s, a, w);
        }
      }
    }
  }

  lemma QuietSteps(s: Sys, a: Action)
    ensures !Enabled(s, a) || a.Crash? || a.Administer? ==> Step(s, a).db == s.db
  {
  }

  lemma ScopeOfInv(s: Sys)
    requires Inv(s)
    ensures ScopeOk(s.db.wakes, s.db.links, s.db.inbound, s.db.grants)
  {
    hide TurnsOk, NumbersOk, StagesOk, DecisionsOk, EffectsOk, LinksOk, ScopeOk, GrantsOk, W.KeysUnique;
  }

  lemma OnlyBeginOpens(s: Sys, a: Action)
    requires !a.Begin?
    ensures !Opens(s, a)
  {
  }

  lemma OpeningKeepsPlace(s: Sys, a: Action, w: Id)
    requires Inv(s) && Waiting(s.db, w) && Undisturbed(s, a, w) && Opens(s, a)
    ensures var after := Step(s, a).db;
      w in after.links || (KeepsPlace(s.db, after, w) && Ahead(after, w) < Ahead(s.db, w))
  {
    hide Inv, Step;
    assert a.Begin?;
    OpeningApproaches(s, a, w);
  }

  ghost function Openings(s: Sys, actions: seq<Action>): nat {
    if actions == [] then 0
    else
      Openings(s, actions[..|actions| - 1])
      + if Opens(Run(s, actions[..|actions| - 1]), actions[|actions| - 1]) then 1 else 0
  }

  /**
   * A due wake with k waiting predecessors is claimed by the time k + 1 cycles have opened,
   * if nothing due earlier arrives meanwhile.
   */
  lemma {:induction false} ClaimedWithinPredecessors(s: Sys, actions: seq<Action>, w: Id)
    requires Inv(s) && Waiting(s.db, w)
    requires forall i :: 0 <= i < |actions| ==> Undisturbed(Run(s, actions[..i]), actions[i], w)
    ensures Inv(Run(s, actions))
    ensures var end := Run(s, actions).db;
      w in end.links || (Waiting(end, w) && Openings(s, actions) + |Ahead(end, w)| <= |Ahead(s.db, w)|)
    ensures Openings(s, actions) > |Ahead(s.db, w)| ==> w in Run(s, actions).db.links
  {
    hide Ahead, Inv, HeadStep;
    if actions != [] {
      var front, last := actions[..|actions| - 1], actions[|actions| - 1];
      assert forall i :: 0 <= i < |front| ==> front[..i] == actions[..i];
      ClaimedWithinPredecessors(s, front, w);
      var before := Run(s, front);
      StepKeepsInv(before, last);
      StepGrows(before, last);
      assert Run(s, actions) == Step(before, last);
      assert Undisturbed(before, last, w);
      hide Inv, Step, Run, Opens, Undisturbed;
      if w !in before.db.links && w !in Run(s, actions).db.links {
        StepKeepsPlace(before, last, w);
        SubsetCardinality(Ahead(Run(s, actions).db, w), Ahead(before.db, w));
      }
    }
  }
}
