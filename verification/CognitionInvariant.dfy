/** What the database inspector demands of the cognition tables, and that every step keeps it. */
module CognitionInvariant {
  import opened Common
  import W = Wakes
  import opened Cognition

  // ---- The five groups of demands ----

  predicate Unfinished(turn: Turn) {
    turn.status == Prepared || turn.status == Invoking || turn.status == Decided
  }

  /** One active cycle at most; an active cycle has exactly one unfinished turn, its latest. */
  ghost predicate TurnsOk(cycles: map<Id, Cycle>, turns: map<Id, Turn>) {
    && (forall a, b :: IsActive(cycles, a) && IsActive(cycles, b) ==> a == b)
    && (forall t :: t in turns ==>
          turns[t].cycle in cycles && 1 <= turns[t].ordinal <= cycles[turns[t].cycle].maxTurns)
    && (forall a, b :: a in turns && b in turns && turns[a].cycle == turns[b].cycle && turns[a].ordinal == turns[b].ordinal ==> a == b)
    && (forall t :: t in turns && Unfinished(turns[t]) ==> IsActive(cycles, turns[t].cycle))
    && (forall c :: IsActive(cycles, c) ==> HasUnfinished(turns, c))
    && (forall a, b :: a in turns && b in turns && turns[a].cycle == turns[b].cycle && Unfinished(turns[a]) ==>
          turns[b].ordinal <= turns[a].ordinal)
  }

  ghost predicate HasUnfinished(turns: map<Id, Turn>, c: Id) {
    exists t :: t in turns && turns[t].cycle == c && Unfinished(turns[t])
  }

  /** Attempts of a turn are numbered 1..k, with k within the cycle's budget. */
  ghost predicate NumbersOk(cycles: map<Id, Cycle>, turns: map<Id, Turn>, calls: map<Id, Call>) {
    && (forall i :: i in calls ==> calls[i].turn in turns && 1 <= calls[i].attempt <= |Attempts(calls, calls[i].turn)|)
    && (forall a, b :: a in calls && b in calls && calls[a].turn == calls[b].turn && calls[a].attempt == calls[b].attempt ==> a == b)
    && (forall t :: t in turns && turns[t].cycle in cycles ==>
          |Attempts(calls, t)| <= cycles[turns[t].cycle].maxAttempts)
  }

  /** A started call belongs to an invoking turn, a completed one delivered its turn's decision. */
  ghost predicate StagesOk(turns: map<Id, Turn>, contexts: map<Id, Request>, calls: map<Id, Call>) {
    && (forall t :: t in contexts ==> t in turns)
    && (forall i :: i in calls ==> calls[i].turn in contexts)
    && (forall i :: i in calls && calls[i].status == Started && calls[i].turn in turns ==>
          turns[calls[i].turn].status == Invoking)
    && (forall a, b :: a in calls && b in calls && calls[a].turn == calls[b].turn && calls[a].status == Started && calls[b].status == Started ==> a == b)
    && (forall i :: i in calls && calls[i].status == CallCompleted && calls[i].turn in turns ==>
          calls[i].decision.Some? && turns[calls[i].turn].decision == calls[i].decision)
  }

  /** A decision is present exactly from the decided stage on, is unique, and answers the frozen request. */
  ghost predicate DecisionsOk(turns: map<Id, Turn>, contexts: map<Id, Request>) {
    && (forall t :: t in turns ==> (turns[t].decision.Some? <==> turns[t].status in {Decided, Applied, Rejected}))
    && (forall a, b :: a in turns && b in turns && SameDecision(turns[a], turns[b]) ==> a == b)
    && (forall t :: t in turns && turns[t].decision.Some? ==>
          t in contexts && contexts[t].protocol == turns[t].decision.value.protocol)
    && (forall t :: t in turns && turns[t].status == Applied && turns[t].decision.Some? ==>
          turns[t].decision.value.cycleId == turns[t].cycle && turns[t].decision.value.turnId == t)
  }

  predicate SameDecision(a: Turn, b: Turn) {
    a.decision.Some? && b.decision.Some? && a.decision.value.id == b.decision.value.id
  }

  ghost predicate IsApplied(turns: map<Id, Turn>, t: Id) {
    t in turns && turns[t].status == Applied && turns[t].decision.Some?
  }

  /** Exactly the operations of applied decisions are recorded, each turn took effect once. */
  ghost predicate EffectsOk(turns: map<Id, Turn>, applied: map<Id, Id>, effects: seq<Id>) {
    && (forall op :: op in applied ==>
          IsApplied(turns, applied[op]) && op in Operations(turns[applied[op]].decision.value))
    && (forall t, op :: IsApplied(turns, t) && op in Operations(turns[t].decision.value) ==>
          op in applied && applied[op] == t)
    && Distinct(effects)
    && (forall t :: t in effects <==> IsApplied(turns, t))
  }

  predicate Special(inbound: set<Id>, grants: map<Id, Grant>, w: Id) {
    w in inbound || w in grants
  }

  /** A claimed wake belongs to exactly one active cycle, a consumed one to a finished cycle. */
  ghost predicate LinksOk(wakes: W.Table, links: map<Id, Id>, cycles: map<Id, Cycle>) {
    && (forall w :: w in links ==> w in wakes && links[w] in cycles)
    && (forall w :: w in links && w in wakes && links[w] in cycles ==>
          wakes[w].status == if cycles[links[w]].status == Active then W.Claimed else W.Consumed)
    && (forall w :: w in wakes && wakes[w].status == W.Claimed ==> w in links)
  }

  /** Inbound and exploration wakes are never coalesced and are alone in their cycle. */
  ghost predicate ScopeOk(wakes: W.Table, links: map<Id, Id>, inbound: set<Id>, grants: map<Id, Grant>) {
    && (forall w :: Special(inbound, grants, w) ==> w in wakes && wakes[w].key.None?)
    && (forall a, b :: a in links && b in links && links[a] == links[b] && Special(inbound, grants, a) ==> a == b)
    && (forall a, b :: a in grants && b in grants && Live(wakes, a) && Live(wakes, b) ==> a == b)
  }

  /** An exploration cycle stays within the bounds of its allowance. */
  ghost predicate GrantsOk(links: map<Id, Id>, cycles: map<Id, Cycle>, grants: map<Id, Grant>) {
    && (forall w :: w in grants ==> grants[w].Valid())
    && (forall w :: w in grants && w in links && links[w] in cycles ==> WithinGrant(cycles[links[w]], grants[w]))
  }

  predicate WithinGrant(cycle: Cycle, grant: Grant) {
    && 1 <= cycle.maxTurns <= grant.maxTurns
    && 1 <= cycle.maxAttempts <= grant.maxAttempts
    && cycle.maxWakes == 1
    && grant.notBefore <= cycle.startedAt < cycle.deadlineAt <= cycle.startedAt + grant.maxDuration
  }

  ghost predicate DbOk(db: Db) {
    && TurnsOk(db.cycles, db.turns)
    && NumbersOk(db.cycles, db.turns, db.calls)
    && StagesOk(db.turns, db.contexts, db.calls)
    && DecisionsOk(db.turns, db.contexts)
    && EffectsOk(db.turns, db.applied, db.effects)
    && LinksOk(db.wakes, db.links, db.cycles)
    && W.KeysUnique(db.wakes)
    && ScopeOk(db.wakes, db.links, db.inbound, db.grants)
    && GrantsOk(db.links, db.cycles, db.grants)
  }

  ghost predicate NoStarted(calls: map<Id, Call>, t: Id) {
    forall i :: i in calls && calls[i].turn == t ==> calls[i].status != Started
  }

  predicate OnTurn(db: Db, c: Id, t: Id) {
    IsActive(db.cycles, c) && t in db.turns && db.turns[t].cycle == c
  }

  /** The records a process carries between transactions still describe the stored rows. */
  ghost predicate ProcessOk(db: Db, process: Process) {
    match process
    case Down => true
    case Looping(c) => c in db.cycles
    case Captured(c, t, status) =>
      OnTurn(db, c, t) && Invocable(status) && db.turns[t].status == status && NoStarted(db.calls, t)
    case Ready(c, t, status) =>
      OnTurn(db, c, t) && Invocable(status) && db.turns[t].status == status && NoStarted(db.calls, t) && t in db.contexts
    case Calling(c, t, i) =>
      OnTurn(db, c, t) && db.turns[t].status == Invoking && i in db.calls && db.calls[i].turn == t
      && db.calls[i].status == Started && t in db.contexts
  }

  ghost predicate Inv(s: Sys) {
    DbOk(s.db) && ProcessOk(s.db, s.process) && !s.raised
  }

  // ---- Turns ----

  lemma EndTurnKeepsTurns(cycles: map<Id, Cycle>, turns: map<Id, Turn>, c: Id, t: Id, row: Cycle, turn: Turn)
    requires TurnsOk(cycles, turns) && IsActive(cycles, c)
    requires t in turns && turns[t].cycle == c && Unfinished(turns[t])
    requires turn.cycle == c && turn.ordinal == turns[t].ordinal && !Unfinished(turn)
    requires row.status != Active && row.maxTurns == cycles[c].maxTurns
    ensures TurnsOk(cycles[c := row], turns[t := turn])
  {
    var cycles', turns' := cycles[c := row], turns[t := turn];
    forall a | IsActive(cycles', a)
      ensures false
    {
      assert IsActive(cycles, a);
    }
    assert forall u :: u in turns && u != t ==> !Unfinished(turns[u]);
  }

  lemma NextTurnKeepsTurns(cycles: map<Id, Cycle>, turns: map<Id, Turn>, c: Id, t: Id, turn: Turn, n: Id)
    requires TurnsOk(cycles, turns) && IsActive(cycles, c)
    requires t in turns && turns[t].cycle == c && Unfinished(turns[t]) && n !in turns
    requires turn.cycle == c && turn.ordinal == turns[t].ordinal < cycles[c].maxTurns && !Unfinished(turn)
    ensures TurnsOk(cycles, turns[t := turn][n := NewTurn(c, turn.ordinal + 1)])
  {
    var turns' := turns[t := turn][n := NewTurn(c, turn.ordinal + 1)];
    assert Unfinished(turns'[n]);
    assert forall u :: u in turns && u != t ==> !Unfinished(turns[u]);
    forall u | u in turns' && turns'[u].cycle == c && u != n
      ensures turns'[u].ordinal <= turn.ordinal
    {
      assert u in turns && turns[u].cycle == c;
    }
    forall x | IsActive(cycles, x)
      ensures HasUnfinished(turns', x)
    {
      assert x == c;
    }
  }

  lemma SameStageKeepsTurns(cycles: map<Id, Cycle>, turns: map<Id, Turn>, t: Id, turn: Turn)
    requires TurnsOk(cycles, turns) && t in turns && Unfinished(turns[t])
    requires turn.cycle == turns[t].cycle && turn.ordinal == turns[t].ordinal && Unfinished(turn)
    ensures TurnsOk(cycles, turns[t := turn])
  {
    var turns' := turns[t := turn];
    forall x | IsActive(cycles, x)
      ensures HasUnfinished(turns', x)
    {
      assert HasUnfinished(turns, x);
      var u :| u in turns && turns[u].cycle == x && Unfinished(turns[u]);
      assert u in turns' && turns'[u].cycle == x && Unfinished(turns'[u]);
    }
  }

  lemma OpenKeepsTurns(cycles: map<Id, Cycle>, turns: map<Id, Turn>, c: Id, t: Id, row: Cycle)
    requires TurnsOk(cycles, turns) && !HasActive(cycles) && c !in cycles && t !in turns
    requires row.maxTurns >= 1 && row.status == Active
    ensures TurnsOk(cycles[c := row], turns[t := NewTurn(c, 1)])
  {
    var cycles', turns' := cycles[c := row], turns[t := NewTurn(c, 1)];
    assert Unfinished(turns'[t]);
    forall x | IsActive(cycles', x)
      ensures x == c
    {
      assert !IsActive(cycles, x);
    }
    assert turns'[t].cycle == c && HasUnfinished(turns', c);
    assert forall u :: u in turns ==> turns[u].cycle in cycles && !IsActive(cycles, turns[u].cycle);
    assert forall u :: u in turns ==> turns[u].cycle != c && !Unfinished(turns[u]);
    assert forall u :: u in turns' && turns'[u].cycle == c ==> u == t;
  }

  // ---- Calls ----

  /** Changing the stage of a call, but not its turn or number. */
  lemma CallStageKeepsNumbers(cycles: map<Id, Cycle>, turns: map<Id, Turn>, calls: map<Id, Call>, i: Id, call: Call)
    requires NumbersOk(cycles, turns, calls)
    requires i in calls && call.turn == calls[i].turn && call.attempt == calls[i].attempt
    ensures NumbersOk(cycles, turns, calls[i := call])
  {
    forall t
      ensures Attempts(calls[i := call], t) == Attempts(calls, t)
    {
    }
  }

  lemma CallStageKeepsStages(turns: map<Id, Turn>, contexts: map<Id, Request>, calls: map<Id, Call>, i: Id, call: Call)
    requires StagesOk(turns, contexts, calls)
    requires i in calls && call.turn == calls[i].turn && (call.status == CallFailed || call.status == Abandoned)
    ensures StagesOk(turns, contexts, calls[i := call])
    ensures calls[i].status == Started ==> NoStarted(calls[i := call], call.turn)
  {
  }

  lemma AbandonSame(calls: map<Id, Call>, t: Id, now: Time, u: Id)
    ensures Attempts(AbandonStarted(calls, t, now), u) == Attempts(calls, u)
  {
  }

  lemma AbandonKeepsNumbers(cycles: map<Id, Cycle>, turns: map<Id, Turn>, calls: map<Id, Call>, t: Id, now: Time)
    requires NumbersOk(cycles, turns, calls)
    ensures NumbersOk(cycles, turns, AbandonStarted(calls, t, now))
  {
    hide Attempts;
    forall u { AbandonSame(calls, t, now, u); }
    var after := AbandonStarted(calls, t, now);
    assert forall i :: i in after ==> after[i].turn == calls[i].turn && after[i].attempt == calls[i].attempt;
  }

  lemma AbandonKeepsStages(turns: map<Id, Turn>, contexts: map<Id, Request>, calls: map<Id, Call>, t: Id, now: Time)
    requires StagesOk(turns, contexts, calls)
    ensures StagesOk(turns, contexts, AbandonStarted(calls, t, now))
    ensures NoStarted(AbandonStarted(calls, t, now), t)
  {
  }

  lemma TurnStageKeepsNumbers(cycles: map<Id, Cycle>, turns: map<Id, Turn>, calls: map<Id, Call>, t: Id, turn: Turn)
    requires NumbersOk(cycles, turns, calls)
    requires t in turns && turn.cycle == turns[t].cycle
    ensures NumbersOk(cycles, turns[t := turn], calls)
  {
  }

  lemma TurnStageKeepsStages(turns: map<Id, Turn>, contexts: map<Id, Request>, calls: map<Id, Call>, t: Id, turn: Turn)
    requires StagesOk(turns, contexts, calls) && t in turns && turn.decision == turns[t].decision
    requires NoStarted(calls, t)
    ensures StagesOk(turns[t := turn], contexts, calls)
  {
  }

  lemma NewTurnKeepsNumbers(cycles: map<Id, Cycle>, turns: map<Id, Turn>, calls: map<Id, Call>, t: Id, turn: Turn)
    requires NumbersOk(cycles, turns, calls) && t !in turns
    ensures NumbersOk(cycles, turns[t := turn], calls)
  {
    assert Attempts(calls, t) == {};
  }

  lemma NewTurnKeepsStages(turns: map<Id, Turn>, contexts: map<Id, Request>, calls: map<Id, Call>, t: Id, turn: Turn)
    requires StagesOk(turns, contexts, calls) && t !in turns
    ensures StagesOk(turns[t := turn], contexts, calls)
  {
  }

  lemma CycleKeepsNumbers(cycles: map<Id, Cycle>, turns: map<Id, Turn>, calls: map<Id, Call>, c: Id, row: Cycle)
    requires NumbersOk(cycles, turns, calls) && TurnsOk(cycles, turns)
    requires c in cycles ==> row.maxAttempts == cycles[c].maxAttempts
    ensures NumbersOk(cycles[c := row], turns, calls)
  {
    assert forall t :: t in turns ==> turns[t].cycle in cycles;
  }

  lemma AttemptsGrow(calls: map<Id, Call>, i: Id, call: Call, u: Id)
    requires i !in calls
    ensures |Attempts(calls[i := call], u)| == |Attempts(calls, u)| + if u == call.turn then 1 else 0
  {
    assert Attempts(calls[i := call], u) == Attempts(calls, u) + if u == call.turn then {i} else {};
  }

  /** The next attempt takes the next number, within the budget just checked. */
  lemma StartKeepsNumbers(cycles: map<Id, Cycle>, turns: map<Id, Turn>, calls: map<Id, Call>, i: Id, call: Call)
    requires NumbersOk(cycles, turns, calls) && call.turn in turns && i !in calls
    requires call.attempt == |Attempts(calls, call.turn)| + 1
    requires turns[call.turn].cycle in cycles && |Attempts(calls, call.turn)| < cycles[turns[call.turn].cycle].maxAttempts
    ensures NumbersOk(cycles, turns, calls[i := call])
  {
    forall u { AttemptsGrow(calls, i, call, u); }
    assert forall j :: j in calls && calls[j].turn == call.turn ==> calls[j].attempt < call.attempt;
  }

  lemma StartKeepsStages(turns: map<Id, Turn>, contexts: map<Id, Request>, calls: map<Id, Call>, i: Id, call: Call, turn: Turn)
    requires StagesOk(turns, contexts, calls) && i !in calls && NoStarted(calls, call.turn)
    requires call.turn in turns && call.turn in contexts && call.status == Started
    requires turn.decision == turns[call.turn].decision && turn.status == Invoking
    ensures StagesOk(turns[call.turn := turn], contexts, calls[i := call])
  {
  }

  /** A recorded decision completes its one started call. */
  lemma DecideKeepsStages(turns: map<Id, Turn>, contexts: map<Id, Request>, calls: map<Id, Call>, i: Id, call: Call, turn: Turn)
    requires StagesOk(turns, contexts, calls) && i in calls && call.turn in turns
    requires calls[i].turn == call.turn && calls[i].status == Started && turns[call.turn].decision.None?
    requires call.status == CallCompleted && call.decision.Some? && turn.decision == call.decision
    ensures StagesOk(turns[call.turn := turn], contexts, calls[i := call])
  {
  }

  // ---- Wakes ----

  lemma ConsumeKeepsLinks(wakes: W.Table, links: map<Id, Id>, cycles: map<Id, Cycle>, c: Id, now: Time, row: Cycle)
    requires LinksOk(wakes, links, cycles) && IsActive(cycles, c) && row.status != Active
    ensures LinksOk(ConsumeLinked(wakes, links, c, now), links, cycles[c := row])
  {
  }

  lemma ConsumeKeepsKeys(wakes: W.Table, links: map<Id, Id>, c: Id, now: Time)
    requires W.KeysUnique(wakes)
    ensures W.KeysUnique(ConsumeLinked(wakes, links, c, now))
  {
    var after := ConsumeLinked(wakes, links, c, now);
    forall a, b | a in after && b in after && W.Holds(after[a], after[b].key) && W.Holds(after[b], after[b].key)
      ensures a == b
    {
      assert W.Holds(wakes[a], wakes[b].key) && W.Holds(wakes[b], wakes[b].key);
    }
  }

  lemma ConsumeKeepsScope(wakes: W.Table, links: map<Id, Id>, inbound: set<Id>, grants: map<Id, Grant>, c: Id, now: Time)
    requires ScopeOk(wakes, links, inbound, grants)
    ensures ScopeOk(ConsumeLinked(wakes, links, c, now), links, inbound, grants)
  {
    assert forall w :: Live(ConsumeLinked(wakes, links, c, now), w) ==> Live(wakes, w);
  }

  lemma FinishKeepsGrants(links: map<Id, Id>, cycles: map<Id, Cycle>, grants: map<Id, Grant>, c: Id, row: Cycle)
    requires GrantsOk(links, cycles, grants) && c in cycles
    requires row.maxTurns == cycles[c].maxTurns && row.maxAttempts == cycles[c].maxAttempts && row.maxWakes == cycles[c].maxWakes
    requires row.startedAt == cycles[c].startedAt && row.deadlineAt == cycles[c].deadlineAt
    ensures GrantsOk(links, cycles[c := row], grants)
  {
  }

  // ---- Wakes written by others ----

  lemma AddKeepsLinks(wakes: W.Table, links: map<Id, Id>, cycles: map<Id, Cycle>, id: Id, wake: W.Wake)
    requires LinksOk(wakes, links, cycles) && id !in wakes && wake.status == W.Pending
    ensures LinksOk(wakes[id := wake], links, cycles)
  {
  }

  lemma AddKeepsKeys(wakes: W.Table, id: Id, wake: W.Wake)
    requires W.KeysUnique(wakes) && id !in wakes && !W.HasHolder(wakes, wake.key)
    ensures W.KeysUnique(wakes[id := wake])
  {
    assert forall w :: w in wakes ==> !W.Holds(wakes[w], wake.key);
  }

  lemma AddKeepsScope(db: Db, id: Id, wake: W.Wake, scope: Scope)
    requires ScopeOk(db.wakes, db.links, db.inbound, db.grants) && id !in db.wakes && id !in db.links
    requires !scope.Ordinary? ==> wake.key.None?
    requires scope.Exploration? ==> Managed(db) == {}
    ensures var after := AddWakeStep(db, id, wake, scope);
      ScopeOk(after.wakes, after.links, after.inbound, after.grants)
  {
    var after := AddWakeStep(db, id, wake, scope);
    assert forall w :: Special(db.inbound, db.grants, w) ==> w in db.wakes;
    assert forall w :: w in db.grants && Live(after.wakes, w) ==> w in Managed(db);
    assert forall w :: Special(after.inbound, after.grants, w) && w != id ==> Special(db.inbound, db.grants, w);
  }

  lemma AddKeepsGrants(db: Db, id: Id, wake: W.Wake, scope: Scope)
    requires GrantsOk(db.links, db.cycles, db.grants) && id !in db.links
    requires scope.Exploration? ==> scope.grant.Valid()
    ensures GrantsOk(db.links, db.cycles, AddWakeStep(db, id, wake, scope).grants)
  {
  }

  lemma EditKeepsWakes(wakes: W.Table, links: map<Id, Id>, cycles: map<Id, Cycle>, inbound: set<Id>, grants: map<Id, Grant>, id: Id, wake: W.Wake)
    requires LinksOk(wakes, links, cycles) && W.KeysUnique(wakes) && ScopeOk(wakes, links, inbound, grants)
    requires id in wakes && wakes[id].status == W.Pending && wake.status in {W.Pending, W.Cancelled}
    requires wake.key == wakes[id].key
    ensures LinksOk(wakes[id := wake], links, cycles)
    ensures W.KeysUnique(wakes[id := wake])
    ensures ScopeOk(wakes[id := wake], links, inbound, grants)
  {
    assert forall w :: Live(wakes[id := wake], w) ==> Live(wakes, w);
  }

  // ---- Decisions and effects ----

  lemma StageKeepsDecisions(turns: map<Id, Turn>, contexts: map<Id, Request>, t: Id, turn: Turn)
    requires DecisionsOk(turns, contexts) && t in turns && turn.decision == turns[t].decision
    requires turn.decision.Some? <==> turn.status in {Decided, Applied, Rejected}
    requires turn.status == Applied ==> turn.decision.value.cycleId == turn.cycle && turn.decision.value.turnId == t
    ensures DecisionsOk(turns[t := turn], contexts)
  {
  }

  lemma NewTurnKeepsDecisions(turns: map<Id, Turn>, contexts: map<Id, Request>, t: Id, cycle: Id, ordinal: nat)
    requires DecisionsOk(turns, contexts) && t !in turns
    ensures DecisionsOk(turns[t := NewTurn(cycle, ordinal)], contexts)
  {
  }

  lemma FreezeKeepsStages(turns: map<Id, Turn>, contexts: map<Id, Request>, calls: map<Id, Call>, t: Id, request: Request)
    requires StagesOk(turns, contexts, calls) && t in turns
    ensures StagesOk(turns, contexts[t := request], calls)
  {
  }

  lemma FreezeKeepsDecisions(turns: map<Id, Turn>, contexts: map<Id, Request>, t: Id, request: Request)
    requires DecisionsOk(turns, contexts) && t in turns && turns[t].decision.None?
    ensures DecisionsOk(turns, contexts[t := request])
  {
  }

  lemma DecideKeepsDecisions(turns: map<Id, Turn>, contexts: map<Id, Request>, t: Id, d: Decision)
    requires DecisionsOk(turns, contexts) && t in turns && t in contexts && !DecisionKnown(turns, d.id)
    requires contexts[t].protocol == d.protocol
    ensures DecisionsOk(turns[t := turns[t].(status := Decided, decision := Some(d))], contexts)
  {
    assert forall u :: u in turns && turns[u].decision.Some? ==> turns[u].decision.value.id != d.id;
  }

  lemma StageKeepsEffects(turns: map<Id, Turn>, applied: map<Id, Id>, effects: seq<Id>, t: Id, turn: Turn)
    requires EffectsOk(turns, applied, effects)
    requires !IsApplied(turns, t) && turn.status != Applied
    ensures EffectsOk(turns[t := turn], applied, effects)
  {
    forall u
      ensures IsApplied(turns[t := turn], u) <==> IsApplied(turns, u)
      ensures IsApplied(turns, u) ==> turns[t := turn][u] == turns[u]
    {
    }
  }

  /** Applying records every operation of the decision, once, under this turn. */
  lemma ApplyKeepsEffects(turns: map<Id, Turn>, applied: map<Id, Id>, effects: seq<Id>, t: Id, turn: Turn)
    requires EffectsOk(turns, applied, effects) && t in turns && !IsApplied(turns, t)
    requires turn.status == Applied && turn.decision.Some?
    requires forall op :: op in Operations(turn.decision.value) ==> op !in applied
    ensures EffectsOk(turns[t := turn], Assign(applied, Operations(turn.decision.value), t), effects + [t])
  {
    var turns', applied' := turns[t := turn], Assign(applied, Operations(turn.decision.value), t);
    forall u
      ensures IsApplied(turns', u) <==> u == t || IsApplied(turns, u)
    {
    }
    forall op | op in applied'
      ensures IsApplied(turns', applied'[op]) && op in Operations(turns'[applied'[op]].decision.value)
    {
      if op !in Operations(turn.decision.value) {
        assert IsApplied(turns, applied[op]);
      }
    }
    forall u, op | IsApplied(turns', u) && op in Operations(turns'[u].decision.value)
      ensures op in applied' && applied'[op] == u
    {
      AppliedTo(turns, applied, effects, t, turn, u, op);
    }
    assert t !in effects;
  }

  lemma AppliedTo(turns: map<Id, Turn>, applied: map<Id, Id>, effects: seq<Id>, t: Id, turn: Turn, u: Id, op: Id)
    requires EffectsOk(turns, applied, effects) && turn.decision.Some?
    requires forall o :: o in Operations(turn.decision.value) ==> o !in applied
    requires IsApplied(turns[t := turn], u) && op in Operations(turns[t := turn][u].decision.value)
    ensures var applied' := Assign(applied, Operations(turn.decision.value), t); op in applied' && applied'[op] == u
  {
    if u != t {
      assert IsApplied(turns, u);
      assert op in applied && applied[op] == u;
    }
  }

  // ---- Scheduling the wakes a decision asks for ----

  /** Stored wakes keep their stage and key; those without a key, or already claimed, do not change at all. */
  ghost predicate Extends(before: W.Table, after: W.Table) {
    && (forall w :: w in before ==>
          w in after && after[w].status == before[w].status && after[w].key == before[w].key
          && (before[w].key.None? || before[w].status != W.Pending ==> after[w] == before[w]))
    && (forall w :: w in after && w !in before ==> after[w].status == W.Pending)
  }

  lemma {:induction false} ScheduleExtends(wakes: W.Table, requests: seq<WakeRequest>, now: Time, delay: Time)
    requires W.KeysUnique(wakes) && Distinct(WakeIds(requests))
    requires forall op :: op in WakeIds(requests) ==> op !in wakes
    ensures W.KeysUnique(ScheduleAll(wakes, requests, now, delay))
    ensures Extends(wakes, ScheduleAll(wakes, requests, now, delay))
    ensures ScheduleAll(wakes, requests, now, delay).Keys <= wakes.Keys + Elements(WakeIds(requests))
  {
    if requests != [] {
      var front, last := requests[..|requests| - 1], requests[|requests| - 1];
      assert WakeIds(front) == WakeIds(requests)[..|front|];
      assert WakeIds(requests)[|front|] == last.operationId;
      ScheduleExtends(wakes, front, now, delay);
      var before := ScheduleAll(wakes, front, now, delay);
      assert last.operationId !in Elements(WakeIds(front));
      W.CreateOrMergeKeepsKeys(before, last.operationId, SelfScheduled(last, now, delay));
    }
  }

  lemma ExtendsKeepsLinks(before: W.Table, after: W.Table, links: map<Id, Id>, cycles: map<Id, Cycle>)
    requires LinksOk(before, links, cycles) && Extends(before, after)
    ensures LinksOk(after, links, cycles)
  {
  }

  lemma ExtendsKeepsScope(before: W.Table, after: W.Table, links: map<Id, Id>, inbound: set<Id>, grants: map<Id, Grant>)
    requires ScopeOk(before, links, inbound, grants) && Extends(before, after)
    ensures ScopeOk(after, links, inbound, grants)
  {
    assert forall w :: w in grants && Live(after, w) ==> Special(inbound, grants, w) && Live(before, w);
  }

  // ---- Opening a cycle ----

  /** Under the invariant nothing is left for orphan recovery to do. */
  lemma NoOrphans(db: Db, limit: nat, spare: seq<Id>)
    requires LinksOk(db.wakes, db.links, db.cycles)
    ensures Orphans(db) == {}
    ensures W.InOrder(db.wakes, Orphans(db), limit) == []
    ensures RecoverOrphans(db.wakes, [], spare) == db.wakes
  {
  }

  /** A claim takes due pending wakes, and a managed wake only alone and within its bounds. */
  ghost predicate SoundClaim(db: Db, claim: Claim, now: Time) {
    && claim.Claim? && claim.limits.Valid() && Elements(claim.wakes) <= db.wakes.Keys
    && (forall w :: w in claim.wakes ==> db.wakes[w].status == W.Pending)
    && (forall a, b :: a in claim.wakes && b in claim.wakes && Special(db.inbound, db.grants, a) ==> a == b)
    && (forall w :: w in claim.wakes && w in db.grants ==>
          && claim.limits.maxTurns <= db.grants[w].maxTurns && claim.limits.maxAttempts <= db.grants[w].maxAttempts
          && claim.limits.maxWakes == 1 && claim.limits.maxDuration <= db.grants[w].maxDuration
          && db.grants[w].notBefore <= now)
  }

  lemma ChooseIsSound(db: Db, flags: Flags, now: Time, limits: Limits)
    requires ScopeOk(db.wakes, db.links, db.inbound, db.grants) && GrantsOk(db.links, db.cycles, db.grants) && limits.Valid()
    requires Choose(db, flags, now, limits).Claim?
    ensures SoundClaim(db, Choose(db, flags, now, limits), now)
  {
    var due := Due(db, now);
    var claim := Choose(db, flags, now, limits);
    ChooseClaimsStored(db, flags, now, limits);
    if due != {} {
      var first := W.Least(db.wakes, due);
      if first !in db.inbound {
        W.InOrderMembers(db.wakes, due - db.inbound, limits.maxWakes);
        assert forall w :: w in claim.wakes ==> w in Elements(claim.wakes);
      }
      assert forall w :: w in claim.wakes ==> w in due && w !in db.grants;
    } else {
      assert exists w :: ExplorationEligible(db, flags, now, w) && claim == Claim([w], Capped(limits, db.grants[w]));
    }
  }

  lemma OpenKeepsLinks(db: Db, cycleId: Id, turnId: Id, claim: Claim, now: Time)
    requires LinksOk(db.wakes, db.links, db.cycles) && SoundClaim(db, claim, now) && cycleId !in db.cycles
    ensures var after := OpenCycle(db, cycleId, turnId, claim, now);
      LinksOk(after.wakes, after.links, after.cycles)
  {
    var after := OpenCycle(db, cycleId, turnId, claim, now);
    forall w | w in after.links
      ensures w in after.wakes && after.links[w] in after.cycles
      ensures after.wakes[w].status == if after.cycles[after.links[w]].status == Active then W.Claimed else W.Consumed
    {
      OpenedLink(db, cycleId, turnId, claim, now, w);
    }
  }

  lemma OpenedLink(db: Db, cycleId: Id, turnId: Id, claim: Claim, now: Time, w: Id)
    requires LinksOk(db.wakes, db.links, db.cycles) && SoundClaim(db, claim, now) && cycleId !in db.cycles
    requires w in OpenCycle(db, cycleId, turnId, claim, now).links
    ensures var after := OpenCycle(db, cycleId, turnId, claim, now);
      && w in after.wakes && after.links[w] in after.cycles
      && after.wakes[w].status == if after.cycles[after.links[w]].status == Active then W.Claimed else W.Consumed
  {
    if w in claim.wakes {
      assert w in Elements(claim.wakes) && w !in db.links;
    } else {
      assert w in db.links;
    }
  }

  lemma OpenKeepsKeys(db: Db, cycleId: Id, turnId: Id, claim: Claim, now: Time)
    requires W.KeysUnique(db.wakes) && SoundClaim(db, claim, now)
    ensures W.KeysUnique(OpenCycle(db, cycleId, turnId, claim, now).wakes)
  {
    var after := OpenCycle(db, cycleId, turnId, claim, now).wakes;
    forall a, b | a in after && b in after && W.Holds(after[a], after[b].key) && W.Holds(after[b], after[b].key)
      ensures a == b
    {
      assert W.Holds(db.wakes[a], db.wakes[b].key) && W.Holds(db.wakes[b], db.wakes[b].key);
    }
  }

  lemma OpenKeepsScope(db: Db, cycleId: Id, turnId: Id, claim: Claim, now: Time)
    requires LinksOk(db.wakes, db.links, db.cycles) && ScopeOk(db.wakes, db.links, db.inbound, db.grants) && SoundClaim(db, claim, now) && cycleId !in db.cycles
    ensures var after := OpenCycle(db, cycleId, turnId, claim, now);
      ScopeOk(after.wakes, after.links, after.inbound, after.grants)
  {
    var after := OpenCycle(db, cycleId, turnId, claim, now);
    assert forall w :: Live(after.wakes, w) ==> Live(db.wakes, w);
    forall a, b | a in after.links && b in after.links && after.links[a] == after.links[b] && Special(db.inbound, db.grants, a)
      ensures a == b
    {
      OpenedAlone(db, cycleId, turnId, claim, now, a, b);
    }
  }

  lemma OpenedAlone(db: Db, cycleId: Id, turnId: Id, claim: Claim, now: Time, a: Id, b: Id)
    requires LinksOk(db.wakes, db.links, db.cycles) && ScopeOk(db.wakes, db.links, db.inbound, db.grants) && SoundClaim(db, claim, now) && cycleId !in db.cycles
    requires var links := OpenCycle(db, cycleId, turnId, claim, now).links;
      a in links && b in links && links[a] == links[b] && Special(db.inbound, db.grants, a)
    ensures a == b
  {
    hide Special, Elements;
    var links := Assign(db.links, claim.wakes, cycleId);
    assert forall w | w in {a, b} :: if w in claim.wakes then links[w] == cycleId else w in db.links && links[w] == db.links[w];
  }

  lemma OpenKeepsGrants(db: Db, cycleId: Id, turnId: Id, claim: Claim, now: Time)
    requires LinksOk(db.wakes, db.links, db.cycles) && GrantsOk(db.links, db.cycles, db.grants)
    requires SoundClaim(db, claim, now) && cycleId !in db.cycles
    ensures var after := OpenCycle(db, cycleId, turnId, claim, now);
      GrantsOk(after.links, after.cycles, after.grants)
  {
    hide Special, Elements;
    assert forall w :: w in db.links ==> db.links[w] != cycleId;
  }
}
