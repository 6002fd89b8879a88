/** The linked tables of the cognition protocol and its transactions, one function each. */
module Cognition {
  import opened Common
  import W = Wakes

  datatype Disposition = Continue | Wait | Sleep

  function DispositionName(d: Disposition): string {
    match d
    case Continue => "continue"
    case Wait => "wait"
    case Sleep => "sleep"
  }

  datatype WakeRequest = WakeRequest(
    operationId: Id,
    notBefore: Time,
    purpose: string,
    refs: seq<Ref>,
    key: Option<string>)

  datatype Decision = Decision(
    id: Id,
    cycleId: Id,
    turnId: Id,
    protocol: nat,
    disposition: Disposition,
    personalOps: seq<Id>,
    wakeRequests: seq<WakeRequest>)

  datatype Limits = Limits(
    maxTurns: nat,
    maxAttempts: nat,
    maxWakes: nat,
    maxDuration: Time,
    minWakeDelay: Time)
  {
    /** What the constructor of cycle limits checks. */
    predicate Valid() {
      maxTurns >= 1 && maxAttempts >= 1 && maxWakes >= 1 && maxDuration > 0 && minWakeDelay >= 0
    }
  }

  /** An exploration allowance: the bounds its one cycle must stay in. */
  datatype Grant = Grant(maxTurns: nat, maxAttempts: nat, maxWakes: nat, maxDuration: Time, notBefore: Time) {
    predicate Valid() {
      maxTurns >= 1 && maxAttempts >= 1 && maxWakes == 1 && maxDuration > 0
    }
  }

  datatype CycleStatus = Active | Completed | Failed

  datatype Cycle = Cycle(
    status: CycleStatus,
    startedAt: Time,
    completedAt: Option<Time>,
    reason: string,
    maxTurns: nat,
    maxAttempts: nat,
    maxWakes: nat,
    deadlineAt: Time,
    minWakeDelay: Time,
    revision: nat)

  datatype TurnStatus = Prepared | Invoking | Decided | Applied | Rejected | TurnFailed

  datatype Turn = Turn(
    cycle: Id,
    ordinal: nat,
    status: TurnStatus,
    completedAt: Option<Time>,
    decision: Option<Decision>)

  datatype CallStatus = Started | CallCompleted | CallFailed | Abandoned

  datatype Call = Call(
    turn: Id,
    attempt: nat,
    status: CallStatus,
    startedAt: Time,
    completedAt: Option<Time>,
    decision: Option<Decision>,
    error: string)

  datatype Request = Request(requestId: Id, protocol: nat)

  /** `effects` lists the turns whose personal operations took effect, in order. */
  datatype Db = Db(
    wakes: W.Table,
    links: map<Id, Id>,
    inbound: set<Id>,
    grants: map<Id, Grant>,
    cycles: map<Id, Cycle>,
    turns: map<Id, Turn>,
    contexts: map<Id, Request>,
    calls: map<Id, Call>,
    applied: map<Id, Id>,
    effects: seq<Id>)

  // ---- Claiming work ----

  predicate Live(wakes: W.Table, w: Id) {
    w in wakes && wakes[w].status in {W.Pending, W.Claimed}
  }

  /** Managed exploration wakes, which ordinary claiming must not see. */
  function Managed(db: Db): set<Id> {
    set w | w in db.grants && Live(db.wakes, w)
  }

  function Due(db: Db, now: Time): set<Id> {
    set w | w in db.wakes && db.wakes[w].status == W.Pending && db.wakes[w].dueAt <= now && w !in Managed(db)
  }

  function Orphans(db: Db): set<Id> {
    set w | w in db.wakes && db.wakes[w].status == W.Claimed && w !in db.links
  }

  function Replacement(wake: W.Wake, orphan: Id): W.Wake {
    W.Wake(wake.kind, W.Pending, wake.dueAt, wake.purpose, wake.cause, wake.refs + [Ref("wake", orphan)],
           wake.key, None, None, 1)
  }

  function Supersede(wakes: W.Table, orphan: Id): W.Table
    requires orphan in wakes
  {
    wakes[orphan := wakes[orphan].(status := W.Superseded, revision := wakes[orphan].revision + 1)]
  }

  ghost function RecoverOrphan(wakes: W.Table, orphan: Id, spare: Id): W.Table
    requires orphan in wakes
  {
    W.CreateOrMerge(Supersede(wakes, orphan), spare, Replacement(wakes[orphan], orphan))
  }

  ghost function RecoverOrphans(wakes: W.Table, orphans: seq<Id>, spare: seq<Id>): W.Table
    requires Elements(orphans) <= wakes.Keys && |orphans| <= |spare|
    decreases |orphans|
  {
    if orphans == [] then wakes
    else
      assert orphans[0] in orphans;
      RecoverOrphans(RecoverOrphan(wakes, orphans[0], spare[0]), orphans[1..], spare[1..])
  }

  predicate IsActive(cycles: map<Id, Cycle>, c: Id) {
    c in cycles && cycles[c].status == Active
  }

  ghost predicate HasActive(cycles: map<Id, Cycle>) {
    exists c :: IsActive(cycles, c)
  }

  ghost function ActiveCycle(cycles: map<Id, Cycle>): (c: Id)
    requires HasActive(cycles)
    ensures IsActive(cycles, c)
  {
    var c :| IsActive(cycles, c); c
  }

  datatype Flags = Flags(allowed: bool, configured: bool, denial: Option<string>)

  /** The pending allowance exploration may start on, if policy, configuration and time permit. */
  predicate ExplorationEligible(db: Db, flags: Flags, now: Time, w: Id) {
    && w in db.grants && w in db.wakes && db.wakes[w].status == W.Pending
    && flags.denial.None? && flags.configured && flags.allowed
    && db.grants[w].notBefore <= now
  }

  function Capped(limits: Limits, grant: Grant): Limits {
    limits.(maxTurns := Min(limits.maxTurns, grant.maxTurns),
            maxAttempts := Min(limits.maxAttempts, grant.maxAttempts),
            maxWakes := Min(limits.maxWakes, grant.maxWakes),
            maxDuration := Min(limits.maxDuration, grant.maxDuration))
  }

  datatype Claim = Nothing | Claim(wakes: seq<Id>, limits: Limits)

  /** Which wakes the next cycle takes: the earliest inbound group alone, or ordinary work, or exploration. */
  ghost function Choose(db: Db, flags: Flags, now: Time, limits: Limits): Claim {
    var due := Due(db, now);
    if due != {} then
      var first := W.Least(db.wakes, due);
      if first in db.inbound then Claim([first], limits)
      else Claim(W.InOrder(db.wakes, due - db.inbound, limits.maxWakes), limits)
    else if exists w :: ExplorationEligible(db, flags, now, w) then
      var w :| ExplorationEligible(db, flags, now, w);
      Claim([w], Capped(limits, db.grants[w]))
    else Nothing
  }

  function ClaimWake(wake: W.Wake, now: Time): W.Wake {
    wake.(status := W.Claimed, claimedAt := Some(now), revision := wake.revision + 1)
  }

  function NewTurn(cycle: Id, ordinal: nat): Turn {
    Turn(cycle, ordinal, Prepared, None, None)
  }

  function ClaimAll(wakes: W.Table, claimed: seq<Id>, now: Time): W.Table {
    map w | w in wakes :: if w in claimed then ClaimWake(wakes[w], now) else wakes[w]
  }

  /** Each of the given identities now belongs to `owner`. */
  function Assign(table: map<Id, Id>, ids: seq<Id>, owner: Id): map<Id, Id> {
    table + map x | x in ids :: owner
  }

  function OpenCycle(db: Db, cycleId: Id, turnId: Id, claim: Claim, now: Time): Db
    requires claim.Claim? && Elements(claim.wakes) <= db.wakes.Keys
  {
    var limits := claim.limits;
    db.(
      wakes := ClaimAll(db.wakes, claim.wakes, now),
      links := Assign(db.links, claim.wakes, cycleId),
      cycles := db.cycles[cycleId := Cycle(Active, now, None, "", limits.maxTurns, limits.maxAttempts, limits.maxWakes,
                                           now + limits.maxDuration, limits.minWakeDelay, 1)],
      turns := db.turns[turnId := NewTurn(cycleId, 1)])
  }

  lemma ChooseClaimsStored(db: Db, flags: Flags, now: Time, limits: Limits)
    ensures Choose(db, flags, now, limits).Claim? ==>
      Elements(Choose(db, flags, now, limits).wakes) <= db.wakes.Keys
  {
    var due := Due(db, now);
    if due != {} && W.Least(db.wakes, due) !in db.inbound {
      W.InOrderMembers(db.wakes, due - db.inbound, limits.maxWakes);
    }
  }

  ghost function ClaimOrResume(db: Db, flags: Flags, now: Time, limits: Limits, cycleId: Id, turnId: Id, spare: seq<Id>): (Db, Option<Id>)
    requires |spare| >= limits.maxWakes
  {
    W.InOrderMembers(db.wakes, Orphans(db), limits.maxWakes);
    var db := db.(wakes := RecoverOrphans(db.wakes, W.InOrder(db.wakes, Orphans(db), limits.maxWakes), spare));
    if HasActive(db.cycles) then (db, Some(ActiveCycle(db.cycles)))
    else
      ChooseClaimsStored(db, flags, now, limits);
      var claim := Choose(db, flags, now, limits);
      if claim.Nothing? || claim.wakes == [] then (db, None)
      else (OpenCycle(db, cycleId, turnId, claim, now), Some(cycleId))
  }

  // ---- Ending a turn and its cycle ----

  function ConsumeLinked(wakes: W.Table, links: map<Id, Id>, cycleId: Id, now: Time): W.Table {
    map w | w in wakes ::
      if w in links && links[w] == cycleId && wakes[w].status == W.Claimed
      then wakes[w].(status := W.Consumed, consumedAt := Some(now), revision := wakes[w].revision + 1)
      else wakes[w]
  }

  function FinishCycle(db: Db, cycleId: Id, now: Time, reason: string, failed: bool): Db
    requires cycleId in db.cycles
  {
    if db.cycles[cycleId].status != Active then db
    else
      var row := db.cycles[cycleId];
      db.(
        cycles := db.cycles[cycleId := row.(status := if failed then Failed else Completed, completedAt := Some(now),
                                            reason := reason, revision := row.revision + 1)],
        wakes := ConsumeLinked(db.wakes, db.links, cycleId, now))
  }

  function EndTurn(db: Db, turnId: Id, status: TurnStatus, now: Time): Db
    requires turnId in db.turns
  {
    db.(turns := db.turns[turnId := db.turns[turnId].(status := status, completedAt := Some(now))])
  }

  function FailTurn(db: Db, cycleId: Id, turnId: Id, now: Time, reason: string): Db
    requires cycleId in db.cycles && turnId in db.turns
  {
    FinishCycle(EndTurn(db, turnId, TurnFailed, now), cycleId, now, reason, true)
  }

  // ---- Invocations ----

  function Attempts(calls: map<Id, Call>, turnId: Id): set<Id> {
    set i | i in calls && calls[i].turn == turnId
  }

  function AbandonStarted(calls: map<Id, Call>, turnId: Id, now: Time): map<Id, Call> {
    map i | i in calls ::
      if calls[i].turn == turnId && calls[i].status == Started
      then calls[i].(status := Abandoned, completedAt := Some(now), error := "interrupted")
      else calls[i]
  }

  predicate IsExploration(db: Db, cycleId: Id) {
    exists w :: w in db.links && db.links[w] == cycleId && w in db.grants
  }

  /** Why the turn's budget is spent, if it is. */
  function Exhausted(db: Db, flags: Flags, cycleId: Id, turnId: Id, now: Time): Option<string>
    requires cycleId in db.cycles
  {
    if |Attempts(db.calls, turnId)| >= db.cycles[cycleId].maxAttempts then Some("attempt_limit")
    else if now >= db.cycles[cycleId].deadlineAt then Some("deadline")
    else if IsExploration(db, cycleId) then flags.denial
    else None
  }

  predicate Invocable(status: TurnStatus) {
    status == Prepared || status == Invoking
  }

  /** Abandons interrupted calls, then ends the cycle if nothing is left to spend on the turn. */
  function Settle(db: Db, flags: Flags, cycleId: Id, turnId: Id, now: Time): (Db, bool)
    requires cycleId in db.cycles && turnId in db.turns
  {
    var settled := db.(calls := AbandonStarted(db.calls, turnId, now));
    match Exhausted(settled, flags, cycleId, turnId, now)
    case Some(reason) => (FailTurn(settled, cycleId, turnId, now, reason), true)
    case None => (settled, false)
  }

  function StartCall(db: Db, flags: Flags, cycleId: Id, turnId: Id, now: Time, callId: Id): (Db, Option<Id>)
    requires cycleId in db.cycles && turnId in db.turns
  {
    var (settled, spent) := Settle(db, flags, cycleId, turnId, now);
    if spent then (settled, None)
    else
      (settled.(
         calls := settled.calls[callId := Call(turnId, |Attempts(settled.calls, turnId)| + 1, Started, now, None, None, "")],
         turns := settled.turns[turnId := settled.turns[turnId].(status := Invoking)]),
       Some(callId))
  }

  function FailCall(db: Db, callId: Id, now: Time, error: string): Db
    requires callId in db.calls
  {
    db.(calls := db.calls[callId := db.calls[callId].(status := CallFailed, completedAt := Some(now), error := error)])
  }

  datatype Outcome = Completion(decision: Decision) | Refusal | Failure(retryable: Option<bool>)

  datatype ModelResult = ModelResult(requestId: Id, protocol: nat, outcome: Outcome)

  predicate DecisionKnown(turns: map<Id, Turn>, decisionId: Id) {
    exists t :: t in turns && turns[t].decision.Some? && turns[t].decision.value.id == decisionId
  }

  function RecordResult(db: Db, cycleId: Id, turnId: Id, callId: Id, request: Request, result: ModelResult, now: Time): Db
    requires cycleId in db.cycles && turnId in db.turns && callId in db.calls
  {
    if result.requestId != request.requestId then FailCall(db, callId, now, "request_id_mismatch")
    else if result.protocol != request.protocol
         || (result.outcome.Completion? && result.outcome.decision.protocol != request.protocol)
    then FailCall(db, callId, now, "protocol_mismatch")
    else match result.outcome
      case Refusal => FailTurn(FailCall(db, callId, now, "refused"), cycleId, turnId, now, "refused")
      case Failure(retryable) =>
        if retryable == Some(true) then FailCall(db, callId, now, "failed")
        else FailTurn(FailCall(db, callId, now, "failed"), cycleId, turnId, now, "failed")
      case Completion(decision) =>
        if DecisionKnown(db.turns, decision.id)
        then FailTurn(FailCall(db, callId, now, "duplicate_decision_id"), cycleId, turnId, now, "duplicate_decision_id")
        else
          db.(
            calls := db.calls[callId := db.calls[callId].(status := CallCompleted, completedAt := Some(now),
                                                          decision := Some(decision))],
            turns := db.turns[turnId := db.turns[turnId].(status := Decided, decision := Some(decision))])
  }

  // ---- Applying a recorded decision ----

  function WakeIds(requests: seq<WakeRequest>): seq<Id> {
    seq(|requests|, i requires 0 <= i < |requests| => requests[i].operationId)
  }

  function Operations(d: Decision): seq<Id> {
    d.personalOps + WakeIds(d.wakeRequests)
  }

  /** What the reference lookup and the personal-state validation report about a decision. */
  datatype Verdict = Verdict(refsKnown: bool, personalValid: bool)

  /** The whole proposal is acceptable; any single finding rejects all of it. */
  ghost predicate Acceptable(db: Db, cycleId: Id, turnId: Id, d: Decision, verdict: Verdict) {
    && d.cycleId == cycleId && d.turnId == turnId
    && Distinct(Operations(d))
    && verdict.refsKnown
    && |d.wakeRequests| <= 16 && |Operations(d)| <= 64
    && (d.wakeRequests != [] ==> !IsExploration(db, cycleId))
    && (d.personalOps != [] ==> verdict.personalValid && forall op :: op in Operations(d) ==> op !in db.applied)
    && (forall op :: op in WakeIds(d.wakeRequests) ==> op !in db.applied && op !in db.wakes)
  }

  function SelfScheduled(r: WakeRequest, now: Time, delay: Time): W.Wake {
    W.Wake("self_scheduled", W.Pending, Max(r.notBefore, now + delay), r.purpose, None, r.refs, r.key, None, None, 1)
  }

  ghost function ScheduleAll(wakes: W.Table, requests: seq<WakeRequest>, now: Time, delay: Time): W.Table {
    if requests == [] then wakes
    else
      var last := requests[|requests| - 1];
      W.CreateOrMerge(ScheduleAll(wakes, requests[..|requests| - 1], now, delay), last.operationId,
                      SelfScheduled(last, now, delay))
  }

  ghost function TakeEffect(db: Db, turnId: Id, d: Decision, now: Time, delay: Time): Db {
    db.(
      wakes := ScheduleAll(db.wakes, d.wakeRequests, now, delay),
      applied := Assign(db.applied, Operations(d), turnId),
      effects := db.effects + [turnId])
  }

  ghost function ApplyDecision(db: Db, cycleId: Id, turnId: Id, now: Time, verdict: Verdict, nextTurn: Id): Db
    requires cycleId in db.cycles && turnId in db.turns && db.turns[turnId].decision.Some?
  {
    var cycle, d := db.cycles[cycleId], db.turns[turnId].decision.value;
    var ordinal := db.turns[turnId].ordinal;
    if !Acceptable(db, cycleId, turnId, d, verdict)
    then FinishCycle(EndTurn(db, turnId, Rejected, now), cycleId, now, "decision_rejected", true)
    else
      var done := EndTurn(TakeEffect(db, turnId, d, now, cycle.minWakeDelay), turnId, Applied, now);
      if d.disposition != Continue then FinishCycle(done, cycleId, now, DispositionName(d.disposition), false)
      else if ordinal >= cycle.maxTurns then FinishCycle(done, cycleId, now, "turn_limit", false)
      else if now >= cycle.deadlineAt then FinishCycle(done, cycleId, now, "deadline", false)
      else done.(turns := done.turns[nextTurn := NewTurn(cycleId, ordinal + 1)])
  }

  ghost predicate IsLatest(turns: map<Id, Turn>, cycleId: Id, t: Id) {
    && t in turns && turns[t].cycle == cycleId
    && forall other :: other in turns && turns[other].cycle == cycleId ==> turns[other].ordinal <= turns[t].ordinal
  }

  // ---- The runtime process and its steps ----

  /** Where the owning process stands between two transactions, with the records it carries. */
  datatype Process =
    | Down
    | Looping(cycleId: Id)
    | Captured(cycleId: Id, turnId: Id, status: TurnStatus)
    | Ready(cycleId: Id, turnId: Id, status: TurnStatus)
    | Calling(cycleId: Id, turnId: Id, callId: Id)

  /** `raised` records that some transaction ended in an exception instead of an outcome. */
  datatype Sys = Sys(db: Db, flags: Flags, process: Process, raised: bool)

  datatype Compiled = MissingConfiguration | OverBudget | Compiled(request: Request)

  datatype Reply = ProviderError | InvalidResult | Result(result: ModelResult)

  datatype Scope = Ordinary | Inbound | Exploration(grant: Grant)

  datatype Action =
    | Crash
    | Administer(flags: Flags)
    | AddWake(wakeId: Id, wake: W.Wake, scope: Scope)
    | EditWake(wakeId: Id, wake: W.Wake)
    | Begin(now: Time, limits: Limits, cycleId: Id, turnId: Id, replacements: seq<Id>)
    | Head(now: Time, verdict: Verdict, nextTurn: Id)
    | Compile(now: Time, compiled: Compiled)
    | Start(now: Time, available: bool, callId: Id)
    | Answer(now: Time, reply: Reply)

  /** New identities are fresh, and other writers only add, reschedule or cancel pending wakes. */
  ghost predicate Enabled(s: Sys, a: Action) {
    match a
    case Crash => true
    case Administer(_) => true
    case AddWake(id, wake, scope) =>
      && id !in s.db.wakes && id !in s.db.links && wake.status == W.Pending
      && (scope.Ordinary? ==> !W.HasHolder(s.db.wakes, wake.key))
      && (!scope.Ordinary? ==> wake.key.None?)
      && (scope.Exploration? ==> scope.grant.Valid() && Managed(s.db) == {})
    case EditWake(id, wake) =>
      && id in s.db.wakes && s.db.wakes[id].status == W.Pending
      && wake.status in {W.Pending, W.Cancelled} && wake.key == s.db.wakes[id].key
    case Begin(_, limits, cycleId, turnId, replacements) =>
      && limits.Valid() && cycleId !in s.db.cycles && turnId !in s.db.turns && |replacements| >= limits.maxWakes
    case Head(_, _, nextTurn) => nextTurn !in s.db.turns
    case Compile(_, _) => true
    case Start(_, _, callId) => callId !in s.db.calls
    case Answer(_, _) => true
  }

  ghost function BeginStep(s: Sys, a: Action): Sys
    requires a.Begin? && Enabled(s, a)
  {
    if !s.process.Down? || !s.flags.allowed then s
    else
      var (db, cycle) := ClaimOrResume(s.db, s.flags, a.now, a.limits, a.cycleId, a.turnId, a.replacements);
      s.(db := db, process := if cycle.Some? then Looping(cycle.value) else Down)
  }

  ghost function Raise(s: Sys): Sys {
    s.(process := Down, raised := true)
  }

  ghost function HeadStep(s: Sys, a: Action): Sys
    requires a.Head?
  {
    if !s.process.Looping? then s
    else
      var c := s.process.cycleId;
      if c !in s.db.cycles then Raise(s)
      else if s.db.cycles[c].status != Active || !s.flags.allowed then s.(process := Down)
      else if !exists t :: IsLatest(s.db.turns, c, t) then Raise(s)
      else
        var t :| IsLatest(s.db.turns, c, t);
        var turn := s.db.turns[t];
        if turn.status == Decided then
          if turn.decision.None? || t !in s.db.contexts || s.db.contexts[t].protocol != turn.decision.value.protocol
          then Raise(s)
          else s.(db := ApplyDecision(s.db, c, t, a.now, a.verdict, a.nextTurn))
        else if !Invocable(turn.status) then Raise(s)
        else
          var (db, spent) := Settle(s.db, s.flags, c, t, a.now);
          s.(db := db, process := if spent then Looping(c) else Captured(c, t, turn.status))
  }

  ghost function CompileStep(s: Sys, a: Action): Sys
    requires a.Compile?
  {
    if !s.process.Captured? then s
    else
      var c, t, status := s.process.cycleId, s.process.turnId, s.process.status;
      if t !in s.db.turns || c !in s.db.cycles then Raise(s)
      else if t in s.db.contexts then s.(process := Ready(c, t, status))
      else match a.compiled
        case MissingConfiguration =>
          s.(db := FailTurn(s.db, c, t, a.now, "missing_configuration"), process := Looping(c))
        case OverBudget => s.(db := FailTurn(s.db, c, t, a.now, "context_budget"), process := Looping(c))
        case Compiled(request) =>
          s.(db := s.db.(contexts := s.db.contexts[t := request]), process := Ready(c, t, status))
  }

  ghost function StartStep(s: Sys, a: Action): Sys
    requires a.Start?
  {
    if !s.process.Ready? then s
    else
      var c, t := s.process.cycleId, s.process.turnId;
      if !s.flags.allowed || !a.available then s.(process := Down)
      else if !Invocable(s.process.status) || t !in s.db.turns || c !in s.db.cycles then Raise(s)
      else
        var (db, call) := StartCall(s.db, s.flags, c, t, a.now, a.callId);
        s.(db := db, process := if call.Some? then Calling(c, t, call.value) else Looping(c))
  }

  ghost function AnswerStep(s: Sys, a: Action): Sys
    requires a.Answer?
  {
    if !s.process.Calling? then s
    else
      var c, t, i := s.process.cycleId, s.process.turnId, s.process.callId;
      if i !in s.db.calls || s.db.calls[i].status != Started || t !in s.db.turns || c !in s.db.cycles || t !in s.db.contexts
      then Raise(s)
      else
        var db := match a.reply
          case ProviderError => FailCall(s.db, i, a.now, "provider_error")
          case InvalidResult => FailCall(s.db, i, a.now, "invalid_result")
          case Result(result) => RecordResult(s.db, c, t, i, s.db.contexts[t], result, a.now);
        s.(db := db, process := Looping(c))
  }

  ghost function AddWakeStep(db: Db, id: Id, wake: W.Wake, scope: Scope): Db {
    db.(
      wakes := db.wakes[id := wake],
      inbound := if scope.Inbound? then db.inbound + {id} else db.inbound,
      grants := if scope.Exploration? then db.grants[id := scope.grant] else db.grants)
  }

  /** One committed step, or an interruption between two of them. */
  ghost function Step(s: Sys, a: Action): Sys {
    if !Enabled(s, a) then s
    else match a
      case Crash => s.(process := Down)
      case Administer(flags) => s.(flags := flags)
      case AddWake(id, wake, scope) => s.(db := AddWakeStep(s.db, id, wake, scope))
      case EditWake(id, wake) => s.(db := s.db.(wakes := s.db.wakes[id := wake]))
      case Begin(_, _, _, _, _) => BeginStep(s, a)
      case Head(_, _, _) => HeadStep(s, a)
      case Compile(_, _) => CompileStep(s, a)
      case Start(_, _, _) => StartStep(s, a)
      case Answer(_, _) => AnswerStep(s, a)
  }

  ghost function Run(s: Sys, actions: seq<Action>): Sys {
    if actions == [] then s else Step(Run(s, actions[..|actions| - 1]), actions[|actions| - 1])
  }
}
