/** A run interrupted any number of times decides and applies what the same run does when left alone. */
module CognitionInterruptions {
  import opened Common
  import W = Wakes
  import opened Cognition
  import opened CognitionInvariant
  import opened CognitionSteps

  // ---- Two runs side by side ----

  /** A step of both runs, or one that only the interrupted run makes: an interruption or a repetition. */
  datatype Move = Both(action: Action) | Again(action: Action)

  function Alone(moves: seq<Move>): seq<Action> {
    if moves == [] then []
    else Alone(moves[..|moves| - 1]) + if moves[|moves| - 1].Both? then [moves[|moves| - 1].action] else []
  }

  function Interrupted(moves: seq<Move>): seq<Action> {
    seq(|moves|, i requires 0 <= i < |moves| => moves[i].action)
  }

  /** Calls the interrupted run had to make again. */
  function Repeated(moves: seq<Move>): nat {
    if moves == [] then 0
    else Repeated(moves[..|moves| - 1]) + if moves[|moves| - 1].Again? && moves[|moves| - 1].action.Start? then 1 else 0
  }

  /** The interrupted process is where the other one is, or on the way back there. */
  predicate Behind(p: Process, q: Process) {
    || q == p || q.Down?
    || match p
       case Down => false
       case Looping(c) => false
       case Captured(c, t, status) => q == Looping(c)
       case Ready(c, t, status) => q == Looping(c) || q == Captured(c, t, status)
       case Calling(c, t, i) =>
         || q == Looping(c) || q == Captured(c, t, Invoking) || q == Ready(c, t, Invoking)
         || (q.Calling? && q.cycleId == c && q.turnId == t)
  }

  predicate Level(p: Process, q: Process) {
    Behind(p, q) && Rank(p) == Rank(q)
  }

  function Rank(p: Process): nat {
    match p
    case Down => 0
    case Looping(_) => 1
    case Captured(_, _, _) => 2
    case Ready(_, _, _) => 3
    case Calling(_, _, _) => 4
  }

  predicate CallsKept(a: map<Id, Call>, b: map<Id, Call>) {
    forall i :: i in a ==> i in b && b[i].turn == a[i].turn
  }

  /**
   * The tables agree except for calls, and every call of the run left alone was also made by the
   * interrupted one.
   */
  ghost predicate Shadows(a: Sys, b: Sys) {
    && b.db == a.db.(calls := b.db.calls) && CallsKept(a.db.calls, b.db.calls)
    && b.flags == a.flags && Behind(a.process, b.process)
  }

  ghost predicate AttemptLeft(db: Db, t: Id) {
    t in db.turns && db.turns[t].cycle in db.cycles && |Attempts(db.calls, t)| < db.cycles[db.turns[t].cycle].maxAttempts
  }

  /** The turn that the process would settle next. */
  ghost predicate Settles(s: Sys, t: Id) {
    match s.process
    case Looping(c) => IsLatest(s.db.turns, c, t) && Invocable(s.db.turns[t].status)
    case Ready(_, turn, _) => t == turn
    case _ => false
  }

  /** Repeated calls have not used up a budget that the run left alone still has. */
  ghost predicate Room(a: Sys, b: Sys) {
    forall t :: Settles(b, t) && AttemptLeft(a.db, t) ==> AttemptLeft(b.db, t)
  }

  /** Nothing but the number of attempts could end the cycle now. */
  predicate InTime(s: Sys, c: Id, now: Time) {
    c in s.db.cycles && now < s.db.cycles[c].deadlineAt && (IsExploration(s.db, c) ==> s.flags.denial.None?)
  }

  /** The interrupted process, behind on an active cycle, makes the next step of its way back. */
  ghost predicate CatchesUp(a: Sys, b: Sys, x: Action) {
    && Rank(b.process) < Rank(a.process) && IsActive(a.db.cycles, a.process.cycleId)
    && b.flags.allowed && Enabled(b, x)
    && match b.process
       case Down => x.Begin?
       case Looping(c) => x.Head? && InTime(b, c, x.now) && forall t :: Settles(b, t) ==> AttemptLeft(b.db, t)
       case Captured(_, _, _) => x.Compile?
       case Ready(c, t, _) => x.Start? && x.available && InTime(b, c, x.now) && AttemptLeft(b.db, t)
       case Calling(_, _, _) => false
  }

  predicate Outside(x: Action) {
    x.Crash? || x.Administer? || x.AddWake? || x.EditWake?
  }

  /** The run left alone stops by itself while the interrupted process is down. */
  ghost predicate StopsToo(a: Sys, b: Sys, x: Action) {
    b.process.Down? && !x.Begin? && Step(a, x) == a.(process := Down)
  }

  ghost predicate Allowed(a: Sys, b: Sys, m: Move) {
    match m
    case Both(x) =>
      || Outside(x)
      || StopsToo(a, b, x)
      || (Level(a.process, b.process) && Room(a, b) && (Enabled(a, x) ==> Enabled(b, x)))
    case Again(x) => x.Crash? || CatchesUp(a, b, x)
  }

  // ---- Calls are looked at for the budget only ----

  lemma FinishIgnoresCalls(db: Db, calls: map<Id, Call>, c: Id, now: Time, reason: string, failed: bool)
    requires c in db.cycles
    ensures FinishCycle(db.(calls := calls), c, now, reason, failed) == FinishCycle(db, c, now, reason, failed).(calls := calls)
    ensures FinishCycle(db, c, now, reason, failed).calls == db.calls
  {
  }

  lemma FailIgnoresCalls(db: Db, calls: map<Id, Call>, c: Id, t: Id, now: Time, reason: string)
    requires c in db.cycles && t in db.turns
    ensures FailTurn(db.(calls := calls), c, t, now, reason) == FailTurn(db, c, t, now, reason).(calls := calls)
    ensures FailTurn(db, c, t, now, reason).calls == db.calls
  {
    FinishIgnoresCalls(EndTurn(db, t, TurnFailed, now), calls, c, now, reason, true);
    hide FinishCycle;
  }

  lemma AcceptableIgnoresCalls(db: Db, calls: map<Id, Call>, c: Id, t: Id, d: Decision, verdict: Verdict)
    ensures Acceptable(db.(calls := calls), c, t, d, verdict) == Acceptable(db, c, t, d, verdict)
  {
    assert IsExploration(db.(calls := calls), c) == IsExploration(db, c);
  }

  lemma EffectIgnoresCalls(db: Db, calls: map<Id, Call>, t: Id, d: Decision, now: Time, delay: Time)
    requires t in db.turns
    ensures t in TakeEffect(db, t, d, now, delay).turns && t in TakeEffect(db.(calls := calls), t, d, now, delay).turns
    ensures var done := EndTurn(TakeEffect(db, t, d, now, delay), t, Applied, now);
      && EndTurn(TakeEffect(db.(calls := calls), t, d, now, delay), t, Applied, now) == done.(calls := calls)
      && done.calls == db.calls && done.cycles == db.cycles
  {
    hide ScheduleAll;
  }

  lemma ApplyIgnoresCalls(db: Db, calls: map<Id, Call>, c: Id, t: Id, now: Time, verdict: Verdict, n: Id)
    requires c in db.cycles && t in db.turns && db.turns[t].decision.Some?
    ensures ApplyDecision(db.(calls := calls), c, t, now, verdict, n) == ApplyDecision(db, c, t, now, verdict, n).(calls := calls)
    ensures ApplyDecision(db, c, t, now, verdict, n).calls == db.calls
  {
    hide Acceptable, TakeEffect, FinishCycle, DispositionName;
    var d := db.turns[t].decision.value;
    var delay := db.cycles[c].minWakeDelay;
    AcceptableIgnoresCalls(db, calls, c, t, d, verdict);
    if Acceptable(db, c, t, d, verdict) {
      EffectIgnoresCalls(db, calls, t, d, now, delay);
      var done := EndTurn(TakeEffect(db, t, d, now, delay), t, Applied, now);
      FinishIgnoresCalls(done, calls, c, now, DispositionName(d.disposition), false);
      FinishIgnoresCalls(done, calls, c, now, "turn_limit", false);
      FinishIgnoresCalls(done, calls, c, now, "deadline", false);
    } else {
      FinishIgnoresCalls(EndTurn(db, t, Rejected, now), calls, c, now, "decision_rejected", true);
    }
  }

  lemma SettleIgnoresCalls(db: Db, other: Db, flags: Flags, c: Id, t: Id, now: Time)
    requires c in db.cycles && t in db.turns && db.turns[t].cycle == c && other == db.(calls := other.calls)
    requires AttemptLeft(db, t) <==> AttemptLeft(other, t)
    ensures Settle(other, flags, c, t, now).1 == Settle(db, flags, c, t, now).1
    ensures Settle(other, flags, c, t, now).0 == Settle(db, flags, c, t, now).0.(calls := AbandonStarted(other.calls, t, now))
    ensures Settle(db, flags, c, t, now).0.calls == AbandonStarted(db.calls, t, now)
  {
    AbandonSame(db.calls, t, now, t);
    AbandonSame(other.calls, t, now, t);
    var settled := db.(calls := AbandonStarted(db.calls, t, now));
    var settled' := other.(calls := AbandonStarted(other.calls, t, now));
    assert IsExploration(settled', c) == IsExploration(settled, c);
    assert Exhausted(settled, flags, c, t, now) == Exhausted(settled', flags, c, t, now);
    if reason :| Exhausted(settled, flags, c, t, now) == Some(reason) {
      FailIgnoresCalls(settled, settled'.calls, c, t, now, reason);
    }
    hide FailTurn, Exhausted;
  }

  lemma FailBothIgnoresCalls(a: Db, b: Db, c: Id, t: Id, i: Id, j: Id, now: Time, error: string)
    requires b == a.(calls := b.calls) && c in a.cycles && t in a.turns && i in a.calls && j in b.calls
    ensures AlikeBut(a, b, FailCall(a, i, now, error), FailCall(b, j, now, error))
    ensures AlikeBut(a, b, FailTurn(FailCall(a, i, now, error), c, t, now, error), FailTurn(FailCall(b, j, now, error), c, t, now, error))
  {
    FailIgnoresCalls(FailCall(a, i, now, error), FailCall(b, j, now, error).calls, c, t, now, error);
    hide FailTurn;
  }

  /** Both sides changed alike, and neither added or moved a call. */
  ghost predicate AlikeBut(a: Db, b: Db, after: Db, after': Db) {
    after' == after.(calls := after'.calls) && SameCallRows(a.calls, after.calls) && SameCallRows(b.calls, after'.calls)
  }

  lemma RecordIgnoresCalls(a: Db, b: Db, c: Id, t: Id, i: Id, j: Id, request: Request, result: ModelResult, now: Time)
    requires b == a.(calls := b.calls) && c in a.cycles && t in a.turns && i in a.calls && j in b.calls
    ensures AlikeBut(a, b, RecordResult(a, c, t, i, request, result, now), RecordResult(b, c, t, j, request, result, now))
  {
    hide FailTurn, FailCall, DecisionKnown, AlikeBut;
    if result.requestId != request.requestId {
      FailBothIgnoresCalls(a, b, c, t, i, j, now, "request_id_mismatch");
    } else if result.protocol != request.protocol
              || (result.outcome.Completion? && result.outcome.decision.protocol != request.protocol) {
      FailBothIgnoresCalls(a, b, c, t, i, j, now, "protocol_mismatch");
    } else {
      match result.outcome
      case Refusal => FailBothIgnoresCalls(a, b, c, t, i, j, now, "refused");
      case Failure(_) => FailBothIgnoresCalls(a, b, c, t, i, j, now, "failed");
      case Completion(decision) =>
        FailBothIgnoresCalls(a, b, c, t, i, j, now, "duplicate_decision_id");
        DecideIgnoresCalls(a, b, t, i, j, decision, now);
    }
  }

  lemma DecideIgnoresCalls(a: Db, b: Db, t: Id, i: Id, j: Id, d: Decision, now: Time)
    requires b == a.(calls := b.calls) && t in a.turns && i in a.calls && j in b.calls
    ensures AlikeBut(a, b, Decide(a, t, i, d, now), Decide(b, t, j, d, now))
  {
  }

  function Decide(db: Db, t: Id, i: Id, d: Decision, now: Time): Db
    requires t in db.turns && i in db.calls
  {
    db.(
      calls := db.calls[i := db.calls[i].(status := CallCompleted, completedAt := Some(now), decision := Some(d))],
      turns := db.turns[t := db.turns[t].(status := Decided, decision := Some(d))])
  }

  /** The same calls, for the same turns. */
  predicate SameCallRows(a: map<Id, Call>, b: map<Id, Call>) {
    a.Keys == b.Keys && forall i :: i in a ==> b[i].turn == a[i].turn
  }

  // ---- What each move keeps ----

  lemma KeptAttempts(a: Sys, b: Sys, t: Id)
    requires Shadows(a, b)
    ensures |Attempts(a.db.calls, t)| <= |Attempts(b.db.calls, t)|
    ensures AttemptLeft(b.db, t) ==> AttemptLeft(a.db, t)
  {
    SubsetCardinality(Attempts(a.db.calls, t), Attempts(b.db.calls, t));
  }

  lemma AbandonRows(calls: map<Id, Call>, t: Id, now: Time)
    ensures SameCallRows(calls, AbandonStarted(calls, t, now))
  {
  }

  lemma OutsideShadows(a: Sys, b: Sys, x: Action)
    requires Shadows(a, b) && Outside(x)
    ensures Shadows(Step(a, x), Step(b, x))
    ensures Step(a, x).db.calls == a.db.calls && Step(b, x).db.calls == b.db.calls
  {
    assert Managed(b.db) == Managed(a.db);
    assert Enabled(a, x) == Enabled(b, x);
  }

  lemma ChooseIgnoresCalls(a: Db, b: Db, flags: Flags, now: Time, limits: Limits)
    requires b == a.(calls := b.calls) && ScopeOk(a.wakes, a.links, a.inbound, a.grants)
    ensures Choose(b, flags, now, limits) == Choose(a, flags, now, limits)
  {
    assert Managed(b) == Managed(a);
    assert Due(b, now) == Due(a, now);
    forall w
      ensures ExplorationEligible(b, flags, now, w) == ExplorationEligible(a, flags, now, w)
      ensures ExplorationEligible(a, flags, now, w) ==> w in a.grants && Live(a.wakes, w)
    {
    }
  }

  lemma ClaimIgnoresCalls(a: Db, b: Db, flags: Flags, now: Time, limits: Limits, c: Id, t: Id, spare: seq<Id>)
    requires b == a.(calls := b.calls) && DbOk(a) && |spare| >= limits.maxWakes
    ensures ClaimOrResume(b, flags, now, limits, c, t, spare).1 == ClaimOrResume(a, flags, now, limits, c, t, spare).1
    ensures ClaimOrResume(b, flags, now, limits, c, t, spare).0
         == ClaimOrResume(a, flags, now, limits, c, t, spare).0.(calls := b.calls)
    ensures ClaimOrResume(a, flags, now, limits, c, t, spare).0.calls == a.calls
  {
    hide TurnsOk, NumbersOk, StagesOk, DecisionsOk, EffectsOk, LinksOk, ScopeOk, GrantsOk, W.KeysUnique;
    NoOrphans(a, limits.maxWakes, spare);
    NoOrphans(b, limits.maxWakes, spare);
    ChooseIgnoresCalls(a, b, flags, now, limits);
    hide Choose;
  }

  lemma BothBegin(a: Sys, b: Sys, x: Action)
    requires Shadows(a, b) && Inv(a) && x.Begin? && Level(a.process, b.process)
    ensures Shadows(Step(a, x), Step(b, x))
    ensures Step(a, x).db.calls == a.db.calls && Step(b, x).db.calls == b.db.calls
  {
    hide TurnsOk, NumbersOk, StagesOk, DecisionsOk, EffectsOk, LinksOk, ScopeOk, GrantsOk, W.KeysUnique;
    if Enabled(a, x) && a.process.Down? && a.flags.allowed {
      ClaimIgnoresCalls(a.db, b.db, a.flags, x.now, x.limits, x.cycleId, x.turnId, x.replacements);
      hide ClaimOrResume;
    }
  }

  lemma AlikeShadows(a: Sys, b: Sys, after: Db, after': Db, p: Process)
    requires Shadows(a, b) && AlikeBut(a.db, b.db, after, after')
    ensures Shadows(a.(db := after, process := p), b.(db := after', process := p))
    ensures after.calls.Keys == a.db.calls.Keys && after'.calls.Keys == b.db.calls.Keys
  {
  }

  lemma SettleAlike(a: Db, b: Db, flags: Flags, c: Id, t: Id, now: Time)
    requires b == a.(calls := b.calls) && c in a.cycles && t in a.turns && a.turns[t].cycle == c
    requires AttemptLeft(a, t) <==> AttemptLeft(b, t)
    ensures Settle(b, flags, c, t, now).1 == Settle(a, flags, c, t, now).1
    ensures AlikeBut(a, b, Settle(a, flags, c, t, now).0, Settle(b, flags, c, t, now).0)
  {
    SettleIgnoresCalls(a, b, flags, c, t, now);
    AbandonRows(a.calls, t, now);
    AbandonRows(b.calls, t, now);
    hide Settle, AbandonStarted, AttemptLeft;
  }

  lemma ApplyAlike(a: Db, b: Db, c: Id, t: Id, now: Time, verdict: Verdict, n: Id)
    requires b == a.(calls := b.calls) && c in a.cycles && t in a.turns && a.turns[t].decision.Some?
    ensures AlikeBut(a, b, ApplyDecision(a, c, t, now, verdict, n), ApplyDecision(b, c, t, now, verdict, n))
  {
    ApplyIgnoresCalls(a, b.calls, c, t, now, verdict, n);
    hide ApplyDecision;
  }

  lemma BothHead(a: Sys, b: Sys, x: Action)
    requires Shadows(a, b) && Inv(a) && Inv(b) && x.Head? && Level(a.process, b.process) && Room(a, b)
    ensures Shadows(Step(a, x), Step(b, x))
    ensures Step(a, x).db.calls.Keys == a.db.calls.Keys && Step(b, x).db.calls.Keys == b.db.calls.Keys
  {
    hide TurnsOk, NumbersOk, StagesOk, DecisionsOk, EffectsOk, LinksOk, ScopeOk, GrantsOk, W.KeysUnique;
    hide BeginStep, CompileStep, StartStep, AnswerStep, AddWakeStep;
    hide ApplyDecision, Settle, AlikeBut, AttemptLeft, Attempts;
    if Enabled(a, x) && a.process.Looping? && IsActive(a.db.cycles, a.process.cycleId) && a.flags.allowed {
      var c := a.process.cycleId;
      LatestIsUnfinished(a.db.cycles, a.db.turns, c);
      var t :| IsLatest(a.db.turns, c, t);
      TurnFacts(a.db, t);
      if a.db.turns[t].status == Decided {
        ApplyAlike(a.db, b.db, c, t, x.now, x.verdict, x.nextTurn);
      } else {
        assert Settles(b, t);
        KeptAttempts(a, b, t);
        SettleAlike(a.db, b.db, a.flags, c, t, x.now);
      }
      AlikeShadows(a, b, Step(a, x).db, Step(b, x).db, Step(a, x).process);
    }
  }

  lemma BothCompile(a: Sys, b: Sys, x: Action)
    requires Shadows(a, b) && x.Compile? && Level(a.process, b.process)
    ensures Shadows(Step(a, x), Step(b, x))
    ensures Step(a, x).db.calls == a.db.calls && Step(b, x).db.calls == b.db.calls
  {
    hide FailTurn, BeginStep, HeadStep, StartStep, AnswerStep, AddWakeStep;
    if a.process.Captured? {
      assert b.process == a.process;
      var c, t := a.process.cycleId, a.process.turnId;
      if t in a.db.turns && c in a.db.cycles && t !in a.db.contexts && !x.compiled.Compiled? {
        var reason := if x.compiled.MissingConfiguration? then "missing_configuration" else "context_budget";
        FailIgnoresCalls(a.db, b.db.calls, c, t, x.now, reason);
      }
    }
  }

  lemma BothStart(a: Sys, b: Sys, x: Action)
    requires Shadows(a, b) && Inv(a) && Inv(b) && x.Start? && Level(a.process, b.process) && Room(a, b)
    requires Enabled(a, x) ==> Enabled(b, x)
    ensures Shadows(Step(a, x), Step(b, x))
    ensures |Step(b, x).db.calls| - |b.db.calls| == |Step(a, x).db.calls| - |a.db.calls|
  {
    hide TurnsOk, NumbersOk, StagesOk, DecisionsOk, EffectsOk, LinksOk, ScopeOk, GrantsOk, W.KeysUnique;
    hide StartCall, BeginStep, HeadStep, CompileStep, AnswerStep, AddWakeStep;
    if Enabled(b, x) && a.process.Ready? && a.flags.allowed && x.available {
      var c, t := a.process.cycleId, a.process.turnId;
      assert Settles(b, t);
      KeptAttempts(a, b, t);
      StartIgnoresCalls(a.db, b.db, a.flags, c, t, x.now, x.callId);
      hide StartCall, Room, AttemptLeft;
    }
  }

  lemma StartIgnoresCalls(a: Db, b: Db, flags: Flags, c: Id, t: Id, now: Time, i: Id)
    requires b == a.(calls := b.calls) && CallsKept(a.calls, b.calls) && c in a.cycles && t in a.turns && a.turns[t].cycle == c
    requires AttemptLeft(a, t) <==> AttemptLeft(b, t)
    requires i !in a.calls && i !in b.calls
    ensures var (after, call) := StartCall(a, flags, c, t, now, i);
      var (after', call') := StartCall(b, flags, c, t, now, i);
      && call' == call && after' == after.(calls := after'.calls) && CallsKept(after.calls, after'.calls)
      && |after'.calls| - |b.calls| == |after.calls| - |a.calls|
  {
    hide Settle, AttemptLeft, Attempts, CallsKept, SameCallRows;
    SettleAlike(a, b, flags, c, t, now);
    SettledTurns(a, flags, c, t, now);
    var (settled, spent) := Settle(a, flags, c, t, now);
    var settled' := Settle(b, flags, c, t, now).0;
    assert settled'.turns == settled.turns;
    CallsStayKept(a.calls, settled.calls, b.calls, settled'.calls);
    if !spent {
      var call, call' := StartCall(a, flags, c, t, now, i).0.calls[i], StartCall(b, flags, c, t, now, i).0.calls[i];
      CallAdded(a.calls, settled.calls, b.calls, settled'.calls, i, call, call');
    }
  }

  lemma CallsStayKept(a: map<Id, Call>, after: map<Id, Call>, b: map<Id, Call>, after': map<Id, Call>)
    requires CallsKept(a, b) && SameCallRows(a, after) && SameCallRows(b, after')
    ensures CallsKept(after, after') && |after| == |a| && |after'| == |b|
  {
    SameSize(a, after);
    SameSize(b, after');
  }

  lemma CallAdded(
    a: map<Id, Call>, after: map<Id, Call>, b: map<Id, Call>, after': map<Id, Call>, i: Id, call: Call, call': Call)
    requires CallsKept(a, b) && SameCallRows(a, after) && SameCallRows(b, after')
    requires i !in a && i !in b && call'.turn == call.turn
    ensures CallsKept(after[i := call], after'[i := call'])
    ensures |after[i := call]| == |a| + 1 && |after'[i := call']| == |b| + 1
  {
    CallsStayKept(a, after, b, after');
  }

  lemma SettledTurns(db: Db, flags: Flags, c: Id, t: Id, now: Time)
    requires c in db.cycles && t in db.turns
    ensures t in Settle(db, flags, c, t, now).0.turns
  {
  }

  lemma SameSize(a: map<Id, Call>, b: map<Id, Call>)
    requires a.Keys == b.Keys
    ensures |a| == |b|
  {
    assert |a| == |a.Keys| && |b| == |b.Keys|;
  }

  lemma BothAnswer(a: Sys, b: Sys, x: Action)
    requires Shadows(a, b) && Inv(a) && Inv(b) && x.Answer? && Level(a.process, b.process)
    ensures Shadows(Step(a, x), Step(b, x))
    ensures Step(a, x).db.calls.Keys == a.db.calls.Keys && Step(b, x).db.calls.Keys == b.db.calls.Keys
  {
    hide TurnsOk, NumbersOk, StagesOk, DecisionsOk, EffectsOk, LinksOk, ScopeOk, GrantsOk, W.KeysUnique;
    hide BeginStep, HeadStep, CompileStep, StartStep, AddWakeStep;
    hide RecordResult, FailCall, FailTurn, AlikeBut;
    if a.process.Calling? {
      var c, t, i, j := a.process.cycleId, a.process.turnId, a.process.callId, b.process.callId;
      match x.reply {
        case ProviderError => FailBothIgnoresCalls(a.db, b.db, c, t, i, j, x.now, "provider_error");
        case InvalidResult => FailBothIgnoresCalls(a.db, b.db, c, t, i, j, x.now, "invalid_result");
        case Result(result) => RecordIgnoresCalls(a.db, b.db, c, t, i, j, a.db.contexts[t], result, x.now);
      }
      AlikeShadows(a, b, Step(a, x).db, Step(b, x).db, Looping(c));
      hide Shadows;
    }
  }

  /** Each repetition brings the interrupted process one place closer to where the other one is. */
  lemma RepeatShadows(a: Sys, b: Sys, x: Action)
    requires Shadows(a, b) && Inv(a) && Inv(b) && CatchesUp(a, b, x)
    ensures Shadows(a, Step(b, x)) && Rank(Step(b, x).process) == Rank(b.process) + 1
    ensures |Step(b, x).db.calls| == |b.db.calls| + if x.Start? then 1 else 0
  {
    hide TurnsOk, NumbersOk, StagesOk, DecisionsOk, EffectsOk, LinksOk, ScopeOk, GrantsOk, W.KeysUnique;
    hide HeadStep, StartStep, AnswerStep, AddWakeStep;
    match x
    case Begin(_, _, _, _, _) =>
      NoOrphans(b.db, x.limits.maxWakes, x.replacements);
      OneActive(b.db, a.process.cycleId);
    case Head(_, _, _) => RepeatHead(a, b, x);
    case Compile(_, _) =>
    case Start(_, _, _) => RepeatStart(a, b, x);
  }

  lemma OneActive(db: Db, c: Id)
    requires TurnsOk(db.cycles, db.turns) && IsActive(db.cycles, c)
    ensures HasActive(db.cycles) && ActiveCycle(db.cycles) == c
  {
  }

  lemma RepeatHead(a: Sys, b: Sys, x: Action)
    requires Shadows(a, b) && Inv(a) && Inv(b) && x.Head? && CatchesUp(a, b, x)
    ensures Shadows(a, Step(b, x)) && SameCallRows(b.db.calls, Step(b, x).db.calls) && Step(b, x).process.Captured?
  {
    hide TurnsOk, NumbersOk, StagesOk, DecisionsOk, EffectsOk, LinksOk, ScopeOk, GrantsOk, W.KeysUnique;
    hide Settle, BeginStep, CompileStep, StartStep, AnswerStep, AddWakeStep;
    var c, t := a.process.cycleId, a.process.turnId;
    LatestIsUnfinished(a.db.cycles, a.db.turns, c);
    UnfinishedIsLatest(a.db, c, t);
    assert Settles(b, t);
    AbandonRows(b.db.calls, t, x.now);
    SettleInTime(b, c, t, x.now);

  }

  lemma UnfinishedIsLatest(db: Db, c: Id, t: Id)
    requires TurnsOk(db.cycles, db.turns) && OnTurn(db, c, t) && Unfinished(db.turns[t])
    ensures IsLatest(db.turns, c, t)
  {
  }

  /** With time and an attempt left, settling only abandons interrupted calls. */
  lemma SettleInTime(s: Sys, c: Id, t: Id, now: Time)
    requires InTime(s, c, now) && AttemptLeft(s.db, t) && s.db.turns[t].cycle == c
    ensures Settle(s.db, s.flags, c, t, now) == (s.db.(calls := AbandonStarted(s.db.calls, t, now)), false)
  {
    AbandonSame(s.db.calls, t, now, t);
    var settled := s.db.(calls := AbandonStarted(s.db.calls, t, now));
    assert IsExploration(settled, c) == IsExploration(s.db, c);
  }

  lemma RepeatStart(a: Sys, b: Sys, x: Action)
    requires Shadows(a, b) && Inv(a) && Inv(b) && x.Start? && CatchesUp(a, b, x)
    ensures Shadows(a, Step(b, x)) && |Step(b, x).db.calls| == |b.db.calls| + 1 && Step(b, x).process.Calling?
  {
    hide TurnsOk, NumbersOk, StagesOk, DecisionsOk, EffectsOk, LinksOk, ScopeOk, GrantsOk, W.KeysUnique;
    hide Settle, AbandonStarted, BeginStep, HeadStep, CompileStep, AnswerStep, AddWakeStep;
    var c, t := a.process.cycleId, a.process.turnId;
    AbandonRows(b.db.calls, t, x.now);
    SettleInTime(b, c, t, x.now);
    var after := Step(b, x);
    assert after.db.turns == b.db.turns;
  }

  // ---- Whole runs ----

  lemma MoveShadows(a: Sys, b: Sys, m: Move)
    requires Shadows(a, b) && Inv(a) && Inv(b) && Allowed(a, b, m)
    ensures Shadows(if m.Both? then Step(a, m.action) else a, Step(b, m.action))
    ensures |Step(b, m.action).db.calls| - |b.db.calls|
      == (if m.Both? then |Step(a, m.action).db.calls| - |a.db.calls| else if m.action.Start? then 1 else 0)
  {
    hide Inv, Shadows, Step, CatchesUp, StopsToo, Room;
    var x := m.action;
    if m.Again? {
      if x.Crash? {
        CrashShadows(a, b);
      } else {
        RepeatShadows(a, b, x);
      }
    } else if Outside(x) {
      OutsideShadows(a, b, x);
    } else if StopsToo(a, b, x) {
      StopShadows(a, b, x);
    } else {
      BothShadow(a, b, x);
    }
  }

  lemma CrashShadows(a: Sys, b: Sys)
    requires Shadows(a, b)
    ensures Shadows(a, Step(b, Crash)) && Step(b, Crash).db == b.db
  {
  }

  lemma StopShadows(a: Sys, b: Sys, x: Action)
    requires Shadows(a, b) && StopsToo(a, b, x) && !Outside(x)
    ensures Shadows(Step(a, x), Step(b, x)) && Step(b, x) == b && Step(a, x).db == a.db
  {
  }

  lemma BothShadow(a: Sys, b: Sys, x: Action)
    requires Shadows(a, b) && Inv(a) && Inv(b) && !Outside(x)
    requires Level(a.process, b.process) && Room(a, b) && (Enabled(a, x) ==> Enabled(b, x))
    ensures Shadows(Step(a, x), Step(b, x))
    ensures |Step(b, x).db.calls| - |b.db.calls| == |Step(a, x).db.calls| - |a.db.calls|
  {
    hide Inv, Shadows, Step, Room, Enabled, Level;
    match x
    case Begin(_, _, _, _, _) => BothBegin(a, b, x);
    case Head(_, _, _) =>
      BothHead(a, b, x);
      SameSize(a.db.calls, Step(a, x).db.calls);
      SameSize(b.db.calls, Step(b, x).db.calls);
    case Compile(_, _) => BothCompile(a, b, x);
    case Start(_, _, _) => BothStart(a, b, x);
    case Answer(_, _) =>
      BothAnswer(a, b, x);
      SameSize(a.db.calls, Step(a, x).db.calls);
      SameSize(b.db.calls, Step(b, x).db.calls);
  }

  /** Every move is allowed where it is made. */
  ghost predicate Possible(flags: Flags, moves: seq<Move>) {
    forall i :: 0 <= i < |moves| ==>
      Allowed(Run(Initial(flags), Alone(moves[..i])), Run(Initial(flags), Interrupted(moves[..i])), moves[i])
  }

  lemma NoMoves(flags: Flags)
    ensures Shadows(Run(Initial(flags), Alone([])), Run(Initial(flags), Interrupted([])))
    ensures |Run(Initial(flags), Interrupted([])).db.calls| == |Run(Initial(flags), Alone([])).db.calls| + Repeated([])
  {
    assert Interrupted([]) == [];
  }

  lemma LastMove(flags: Flags, front: seq<Move>, last: Move)
    ensures Run(Initial(flags), Interrupted(front + [last])) == Step(Run(Initial(flags), Interrupted(front)), last.action)
    ensures var a := Run(Initial(flags), Alone(front));
      Run(Initial(flags), Alone(front + [last])) == if last.Both? then Step(a, last.action) else a
    ensures Repeated(front + [last]) == Repeated(front) + if last.Again? && last.action.Start? then 1 else 0
  {
    hide Step, Initial;
    assert (front + [last])[..|front|] == front;
    assert Interrupted(front + [last]) == Interrupted(front) + [last.action];
    RunLast(Initial(flags), Interrupted(front), last.action);
    RunLast(Initial(flags), Alone(front), last.action);
    assert Alone(front) + [] == Alone(front);
  }

  lemma PossibleFront(flags: Flags, front: seq<Move>, last: Move)
    requires Possible(flags, front + [last])
    ensures Possible(flags, front)
    ensures Allowed(Run(Initial(flags), Alone(front)), Run(Initial(flags), Interrupted(front)), last)
  {
    hide Step, Inv, Allowed, Run, Initial, Alone, Interrupted;
    var moves := front + [last];
    assert moves[..|front|] == front && moves[|front|] == last;
    forall i | 0 <= i < |front|
      ensures Allowed(Run(Initial(flags), Alone(front[..i])), Run(Initial(flags), Interrupted(front[..i])), front[i])
    {
      assert front[..i] == moves[..i] && front[i] == moves[i];
    }
  }

  lemma {:induction false} RunsShadow(flags: Flags, moves: seq<Move>)
    requires Possible(flags, moves)
    ensures Shadows(Run(Initial(flags), Alone(moves)), Run(Initial(flags), Interrupted(moves)))
    ensures |Run(Initial(flags), Interrupted(moves)).db.calls|
      == |Run(Initial(flags), Alone(moves)).db.calls| + Repeated(moves)
  {
    hide *;
    if moves == [] {
      NoMoves(flags);
    } else {
      var front, last := moves[..|moves| - 1], moves[|moves| - 1];
      assert moves == front + [last];
      PossibleFront(flags, front, last);
      RunsShadow(flags, front);
      RunKeepsInv(flags, Alone(front));
      RunKeepsInv(flags, Interrupted(front));
      MoveShadows(Run(Initial(flags), Alone(front)), Run(Initial(flags), Interrupted(front)), last);
      LastMove(flags, front, last);
    }
  }

  lemma RunLast(s: Sys, front: seq<Action>, last: Action)
    ensures Run(s, front + [last]) == Step(Run(s, front), last)
  {
    hide Step;
    assert (front + [last])[..|front| + 1 - 1] == front;
  }

  /**
   * However often a run is interrupted, between any two of its transactions and again on the way
   * back, at every moment it has decided the same turns the same way, applied the same operations
   * and left the same tables as the run left alone. Only calls differ: one more for each repetition.
   */
  lemma InterruptedRunsAgree(flags: Flags, moves: seq<Move>)
    requires Possible(flags, moves)
    ensures var alone, interrupted := Run(Initial(flags), Alone(moves)).db, Run(Initial(flags), Interrupted(moves)).db;
      && interrupted.turns == alone.turns && interrupted.contexts == alone.contexts
      && interrupted.applied == alone.applied && interrupted.effects == alone.effects
      && interrupted.cycles == alone.cycles && interrupted.links == alone.links && interrupted.wakes == alone.wakes
      && (forall i :: i in alone.calls ==> i in interrupted.calls && interrupted.calls[i].turn == alone.calls[i].turn)
      && |interrupted.calls| == |alone.calls| + Repeated(moves)
  {
    RunsShadow(flags, moves);
    hide Run;
  }

  /**
   * The budget condition cannot be weakened: where time is left, settling a turn after repeated calls
   * goes on as it does in the run left alone exactly if an attempt is left for it.
   */
  lemma RoomIsNeeded(a: Sys, b: Sys, x: Action)
    requires Shadows(a, b) && Inv(a) && Inv(b) && x.Head? && Enabled(a, x) && a.flags.allowed
    requires a.process.Looping? && b.process == a.process
    requires IsActive(a.db.cycles, a.process.cycleId) && InTime(a, a.process.cycleId, x.now)
    ensures Room(a, b) <==> Step(b, x).db == Step(a, x).db.(calls := Step(b, x).db.calls)
  {
    hide TurnsOk, NumbersOk, StagesOk, DecisionsOk, EffectsOk, LinksOk, ScopeOk, GrantsOk, W.KeysUnique;
    hide Settle, BeginStep, CompileStep, StartStep, AnswerStep, AddWakeStep;
    if Room(a, b) {
      BothHead(a, b, x);
    } else {
      LatestIsUnfinished(a.db.cycles, a.db.turns, a.process.cycleId);
      var t :| Settles(b, t) && AttemptLeft(a.db, t) && !AttemptLeft(b.db, t);
      SettlesApart(a, b, t, x);
    }
  }

  lemma SettlesApart(a: Sys, b: Sys, t: Id, x: Action)
    requires Shadows(a, b) && x.Head? && Enabled(a, x) && a.flags.allowed
    requires a.process.Looping? && b.process == a.process
    requires IsActive(a.db.cycles, a.process.cycleId) && InTime(a, a.process.cycleId, x.now)
    requires forall u :: IsLatest(a.db.turns, a.process.cycleId, u) ==> u == t
    requires Settles(b, t) && AttemptLeft(a.db, t) && !AttemptLeft(b.db, t)
    ensures Step(b, x).db != Step(a, x).db.(calls := Step(b, x).db.calls)
  {
    hide Settle, AttemptLeft, InTime, BeginStep, CompileStep, StartStep, AnswerStep, AddWakeStep;
    SettleInTime(a, a.process.cycleId, t, x.now);
    SettleSpent(b, a.process.cycleId, t, x.now);
  }

  /** Without an attempt left, settling fails the turn and its cycle. */
  lemma SettleSpent(s: Sys, c: Id, t: Id, now: Time)
    requires IsActive(s.db.cycles, c) && t in s.db.turns && s.db.turns[t].cycle == c && !AttemptLeft(s.db, t)
    ensures var lost := s.db.(calls := AbandonStarted(s.db.calls, t, now));
      Settle(s.db, s.flags, c, t, now) == (FailTurn(lost, c, t, now, "attempt_limit"), true)
    ensures !IsActive(Settle(s.db, s.flags, c, t, now).0.cycles, c)
  {
    AbandonSame(s.db.calls, t, now, t);
  }

  // ---- The way back from each position ----

  lemma {:induction false} RunAppend(s: Sys, a: seq<Action>, b: seq<Action>)
    ensures Run(s, a + b) == Run(Run(s, a), b)
    decreases |b|
  {
    hide Step;
    if b == [] {
      assert a + b == a;
    } else {
      var front, last := b[..|b| - 1], b[|b| - 1];
      assert b == front + [last] && a + b == (a + front) + [last];
      RunAppend(s, a, front);
      RunLast(s, a + front, last);
      RunLast(Run(s, a), front, last);
    }
  }

  /** Back to where the process stood: a new claim, and the transactions of the pass that led there. */
  ghost predicate WayBack(s: Sys, back: seq<Action>) {
    && 1 <= Rank(s.process) <= 3 && |back| == Rank(s.process) + 1
    && IsActive(s.db.cycles, s.process.cycleId) && s.flags.allowed
    && back[0].Crash? && back[1].Begin? && Enabled(s, back[1])
    && (|back| >= 3 ==>
          back[2].Head? && Enabled(s, back[2]) && InTime(s, s.process.cycleId, back[2].now) && AttemptLeft(s.db, s.process.turnId))
    && (|back| >= 4 ==> back[3].Compile?)
  }

  lemma NothingToAbandon(calls: map<Id, Call>, t: Id, now: Time)
    requires NoStarted(calls, t)
    ensures AbandonStarted(calls, t, now) == calls
  {
  }

  lemma BeginResumes(s: Sys, begin: Action, c: Id)
    requires Inv(s) && begin.Begin? && Enabled(s, begin) && s.flags.allowed && IsActive(s.db.cycles, c)
    ensures Step(Step(s, Crash), begin) == s.(process := Looping(c))
  {
    hide NumbersOk, StagesOk, DecisionsOk, EffectsOk, LinksOk, ScopeOk, GrantsOk, W.KeysUnique;
    NoOrphans(s.db, begin.limits.maxWakes, begin.replacements);
  }

  /** Where a process stands after settling its turn on the tables `db`: with the turn captured, or with the cycle failed. */
  function AfterSettling(s: Sys, db: Db, c: Id, t: Id, status: TurnStatus, now: Time): Sys
    requires c in db.cycles && t in db.turns
  {
    match Exhausted(db, s.flags, c, t, now)
    case Some(reason) => s.(db := FailTurn(db, c, t, now, reason), process := Looping(c))
    case None => s.(db := db, process := Captured(c, t, status))
  }

  /** Settling ends the cycle exactly without an attempt left, past the deadline, or with exploration denied. */
  lemma WhenSettlingEnds(s: Sys, db: Db, c: Id, t: Id, now: Time)
    requires t in s.db.turns && s.db.turns[t].cycle == c && c in s.db.cycles
    requires db == s.db.(calls := db.calls) && Attempts(db.calls, t) == Attempts(s.db.calls, t)
    ensures Exhausted(db, s.flags, c, t, now).None? <==> AttemptLeft(s.db, t) && InTime(s, c, now)
    ensures !AttemptLeft(s.db, t) ==> Exhausted(db, s.flags, c, t, now) == Some("attempt_limit")
    ensures AttemptLeft(s.db, t) && now >= s.db.cycles[c].deadlineAt ==> Exhausted(db, s.flags, c, t, now) == Some("deadline")
    ensures AttemptLeft(s.db, t) && now < s.db.cycles[c].deadlineAt && IsExploration(s.db, c) ==>
      Exhausted(db, s.flags, c, t, now) == s.flags.denial
  {
    assert IsExploration(db, c) == IsExploration(s.db, c);
  }

  /** The loop's head, on an unfinished turn that is not decided, abandons its started calls and settles it. */
  lemma HeadSettles(s: Sys, c: Id, t: Id, head: Action)
    requires DbOk(s.db) && OnTurn(s.db, c, t) && Invocable(s.db.turns[t].status) && s.flags.allowed
    requires head.Head? && Enabled(s, head) && s.process == Looping(c)
    ensures Step(s, head) ==
      AfterSettling(s, s.db.(calls := AbandonStarted(s.db.calls, t, head.now)), c, t, s.db.turns[t].status, head.now)
  {
    hide TurnsOk, NumbersOk, StagesOk, DecisionsOk, EffectsOk, LinksOk, ScopeOk, GrantsOk, W.KeysUnique;
    hide Exhausted, AbandonStarted, FailTurn, ApplyDecision, Enabled;
    LatestIsUnfinished(s.db.cycles, s.db.turns, c);
    UnfinishedIsLatest(s.db, c, t);
  }

  lemma ThreeSteps(s: Sys, x: Action, y: Action, z: Action)
    ensures Run(s, [x, y]) == Step(Step(s, x), y)
    ensures Run(s, [x, y, z]) == Step(Step(Step(s, x), y), z)
  {
    hide Step;
    assert Run(s, []) == s;
    RunLast(s, [], x);
    RunLast(s, [x], y);
    RunLast(s, [x, y], z);
    assert [] + [x] == [x] && [x] + [y] == [x, y] && [x, y] + [z] == [x, y, z];
  }

  lemma ComesBack(s: Sys, back: seq<Action>)
    requires Inv(s) && WayBack(s, back)
    ensures Run(s, back) == s
  {
    hide Inv, Step, Run, Enabled;
    if |back| == 2 {
      BackToCycle(s, back[0], back[1]);
      assert back == [back[0], back[1]];
    } else {
      BackToTurn(s, back);
      BackToReady(s, back);
    }
  }

  lemma BackToCycle(s: Sys, crash: Action, begin: Action)
    requires Inv(s) && 1 <= Rank(s.process) && IsActive(s.db.cycles, s.process.cycleId) && s.flags.allowed
    requires crash.Crash? && begin.Begin? && Enabled(s, begin)
    ensures Run(s, [crash, begin]) == s.(process := Looping(s.process.cycleId))
  {
    BeginResumes(s, begin, s.process.cycleId);
    ThreeSteps(s, crash, begin, begin);
    hide Step, Run;
  }

  /** Claiming again and settling, from any place within a pass. */
  lemma BackToSettling(s: Sys, crash: Action, begin: Action, head: Action)
    requires Inv(s) && 2 <= Rank(s.process) && s.flags.allowed && crash.Crash?
    requires begin.Begin? && Enabled(s, begin) && head.Head? && Enabled(s, head)
    ensures OnTurn(s.db, s.process.cycleId, s.process.turnId)
    ensures Run(s, [crash, begin, head]) == Settling(s, s.process.cycleId, s.process.turnId, head.now)
  {
    hide Inv, DbOk, Step, Run, Settling, Enabled;
    var c, t := s.process.cycleId, s.process.turnId;
    WithinPass(s);
    BeginResumes(s, begin, c);
    LoopingSettles(s, c, t, head);
    ThreeSteps(s, crash, begin, head);
  }

  /** The turn's started calls abandoned, and the turn settled. */
  function Settling(s: Sys, c: Id, t: Id, now: Time): Sys
    requires OnTurn(s.db, c, t)
  {
    AfterSettling(s, s.db.(calls := AbandonStarted(s.db.calls, t, now)), c, t, s.db.turns[t].status, now)
  }

  lemma LoopingSettles(s: Sys, c: Id, t: Id, head: Action)
    requires DbOk(s.db) && OnTurn(s.db, c, t) && Invocable(s.db.turns[t].status) && s.flags.allowed
    requires head.Head? && Enabled(s, head)
    ensures Step(s.(process := Looping(c)), head) == Settling(s, c, t, head.now)
  {
    hide DbOk, Step, AbandonStarted, Exhausted, FailTurn, Enabled;
    SameEnabled(s, c, head);
    HeadSettles(s.(process := Looping(c)), c, t, head);
  }

  /** What a process carries within a pass. */
  lemma WithinPass(s: Sys)
    requires Inv(s) && 2 <= Rank(s.process)
    ensures var c, t := s.process.cycleId, s.process.turnId;
      && DbOk(s.db) && OnTurn(s.db, c, t) && Invocable(s.db.turns[t].status) && IsActive(s.db.cycles, c)
      && (s.process.Calling? ==> s.db.turns[t].status == Invoking && s.process.callId in s.db.calls)
      && (!s.process.Calling? ==> NoStarted(s.db.calls, t) && s.db.turns[t].status == s.process.status)
      && (s.process.Ready? ==> t in s.db.contexts)
  {
    hide TurnsOk, NumbersOk, StagesOk, DecisionsOk, EffectsOk, LinksOk, ScopeOk, GrantsOk, W.KeysUnique;
  }

  lemma BackToTurn(s: Sys, back: seq<Action>)
    requires Inv(s) && WayBack(s, back) && |back| >= 3
    ensures Run(s, back[..3]) == s.(process := Captured(s.process.cycleId, s.process.turnId, s.process.status))
    ensures s.process.turnId in s.db.turns && (s.process.Ready? ==> s.process.turnId in s.db.contexts)
  {
    hide Inv, DbOk, Step, Run, AbandonStarted, Enabled, FailTurn, InTime, AttemptLeft;
    WithinPass(s);
    SettlesInPlace(s, back[0], back[1], back[2]);
    assert back[..3] == [back[0], back[1], back[2]];
  }

  /**
   * Before a call is started, claiming again and settling leads back to the captured turn exactly if an
   * attempt, time and the exploration's permission are left.
   */
  lemma SettlesInPlace(s: Sys, crash: Action, begin: Action, head: Action)
    requires Inv(s) && (s.process.Captured? || s.process.Ready?) && s.flags.allowed && crash.Crash?
    requires begin.Begin? && Enabled(s, begin) && head.Head? && Enabled(s, head)
    ensures var c, t := s.process.cycleId, s.process.turnId;
      Run(s, [crash, begin, head]) == s.(process := Captured(c, t, s.process.status))
      <==> InTime(s, c, head.now) && AttemptLeft(s.db, t)
  {
    hide Inv, DbOk, Step, Run, AbandonStarted, Enabled, Exhausted, FailTurn, InTime, AttemptLeft, Attempts;
    var c, t := s.process.cycleId, s.process.turnId;
    WithinPass(s);
    BackToSettling(s, crash, begin, head);
    NothingToAbandon(s.db.calls, t, head.now);
    WhenSettlingEnds(s, s.db, c, t, head.now);
  }

  lemma SameEnabled(s: Sys, c: Id, x: Action)
    ensures Enabled(s.(process := Looping(c)), x) == Enabled(s, x)
  {
  }

  lemma BackToReady(s: Sys, back: seq<Action>)
    requires WayBack(s, back) && |back| >= 3
    requires s.process.turnId in s.db.turns && (s.process.Ready? ==> s.process.turnId in s.db.contexts)
    requires Run(s, back[..3]) == s.(process := Captured(s.process.cycleId, s.process.turnId, s.process.status))
    ensures Run(s, back) == s
  {
    hide BeginStep, HeadStep, StartStep, AnswerStep, AddWakeStep;
    if |back| == 3 {
      assert back[..3] == back;
    }
  }

  /**
   * An interruption between two transactions leaves no trace: with the steps of the way back inserted
   * anywhere before a call is started, the run ends in the same tables and at the same place.
   */
  lemma ResumptionIsTransparent(flags: Flags, before: seq<Action>, back: seq<Action>, after: seq<Action>)
    requires WayBack(Run(Initial(flags), before), back)
    ensures Run(Initial(flags), before + back + after) == Run(Initial(flags), before + after)
  {
    RunKeepsInv(flags, before);
    ComesBack(Run(Initial(flags), before), back);
    RunAppend(Initial(flags), before, back);
    RunAppend(Initial(flags), before + back, after);
    RunAppend(Initial(flags), before, after);
  }

  /** The tables with the call of an interrupted process abandoned, and nothing else changed. */
  function LostCall(db: Db, i: Id, now: Time): Db
    requires i in db.calls
  {
    db.(calls := db.calls[i := db.calls[i].(status := Abandoned, completedAt := Some(now), error := "interrupted")])
  }

  /**
   * Interrupted while the model is called, exactly that call is lost: it is abandoned, nothing else
   * changes, and the turn is open for its next attempt; or, if none is left, the deadline has passed or
   * the exploration was denied, the cycle fails for that reason (`WhenCallIsLost`).
   */
  lemma OnlyTheCallIsLost(s: Sys, begin: Action, head: Action)
    requires Inv(s) && s.process.Calling? && s.flags.allowed
    requires begin.Begin? && Enabled(s, begin) && head.Head? && Enabled(s, head)
    ensures s.process.callId in s.db.calls && s.process.cycleId in s.db.cycles && s.process.turnId in s.db.turns
    ensures Run(s, [Crash, begin, head]) ==
      AfterSettling(s, LostCall(s.db, s.process.callId, head.now), s.process.cycleId, s.process.turnId, Invoking, head.now)
  {
    hide Inv, DbOk, Step, Run, AbandonStarted, Enabled, Exhausted, FailTurn;
    WithinPass(s);
    BackToSettling(s, Crash, begin, head);
    OneCallAbandoned(s, head.now);
  }

  /** The reasons why a cycle fails after its call was lost, and the condition under which it goes on. */
  lemma WhenCallIsLost(s: Sys, now: Time)
    requires Inv(s) && s.process.Calling?
    ensures s.process.callId in s.db.calls && s.process.cycleId in s.db.cycles && s.process.turnId in s.db.turns
    ensures var (c, t, lost) := (s.process.cycleId, s.process.turnId, LostCall(s.db, s.process.callId, now));
      && (Exhausted(lost, s.flags, c, t, now).None? <==> AttemptLeft(s.db, t) && InTime(s, c, now))
      && (!AttemptLeft(s.db, t) ==> Exhausted(lost, s.flags, c, t, now) == Some("attempt_limit"))
      && (AttemptLeft(s.db, t) && now >= s.db.cycles[c].deadlineAt ==> Exhausted(lost, s.flags, c, t, now) == Some("deadline"))
      && (AttemptLeft(s.db, t) && now < s.db.cycles[c].deadlineAt && IsExploration(s.db, c) ==>
            Exhausted(lost, s.flags, c, t, now) == s.flags.denial)
  {
    hide Inv, DbOk, Exhausted, InTime, AttemptLeft;
    WithinPass(s);
    SameAttempts(s.db.calls, s.process.callId, now, s.process.turnId);
    WhenSettlingEnds(s, LostCall(s.db, s.process.callId, now), s.process.cycleId, s.process.turnId, now);
  }

  lemma SameAttempts(calls: map<Id, Call>, i: Id, now: Time, t: Id)
    requires i in calls
    ensures Attempts(calls[i := calls[i].(status := Abandoned, completedAt := Some(now), error := "interrupted")], t) == Attempts(calls, t)
  {
  }

  lemma OneCallAbandoned(s: Sys, now: Time)
    requires Inv(s) && s.process.Calling?
    ensures s.process.callId in s.db.calls
    ensures s.db.(calls := AbandonStarted(s.db.calls, s.process.turnId, now)) == LostCall(s.db, s.process.callId, now)
  {
    hide TurnsOk, NumbersOk, DecisionsOk, EffectsOk, LinksOk, ScopeOk, GrantsOk, W.KeysUnique;
  }
}
