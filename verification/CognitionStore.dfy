/** The stored tables and the transactions that update them in place. */
module CognitionStore {
  import opened Common
  import W = Wakes
  import C = Cognition
  import opened Cognition
  import opened CognitionInvariant

  /** A fresh identity for a table. */
  method NewId(used: set<Id>) returns (id: Id)
    ensures id !in used
  {
    id := 0;
    ghost var passed: set<Id> := {};
    while id in used
      invariant passed <= used && (forall x: Id :: x in passed <==> x < id)
      decreases |used - passed|
    {
      passed := passed + {id};
      id := id + 1;
    }
  }

  method NewIds(used: set<Id>, count: nat) returns (ids: seq<Id>)
    ensures |ids| == count && Distinct(ids) && Elements(ids) !! used
  {
    ids := [];
    while |ids| < count
      invariant |ids| <= count && Distinct(ids) && Elements(ids) !! used
    {
      var id := NewId(used + set x | x in ids);
      assert id !in Elements(ids);
      ids := ids + [id];
    }
  }

  class Store {
    var wakes: W.Table
    var links: map<Id, Id>
    var inbound: set<Id>
    var grants: map<Id, Grant>
    var cycles: map<Id, Cycle>
    var turns: map<Id, Turn>
    var contexts: map<Id, Request>
    var calls: map<Id, Call>
    var applied: map<Id, Id>
    var effects: seq<Id>

    constructor ()
      ensures Tables() == Db(map[], map[], {}, map[], map[], map[], map[], map[], map[], [])
    {
      wakes, links, inbound, grants, cycles := map[], map[], {}, map[], map[];
      turns, contexts, calls, applied, effects := map[], map[], map[], map[], [];
    }

    function Tables(): Db
      reads this
    {
      Db(wakes, links, inbound, grants, cycles, turns, contexts, calls, applied, effects)
    }

    method FinishCycle(cycleId: Id, now: Time, reason: string, failed: bool)
      requires cycleId in cycles
      modifies this
      ensures Tables() == C.FinishCycle(old(Tables()), cycleId, now, reason, failed)
    {
      var row := cycles[cycleId];
      if row.status != Active {
        return;
      }
      cycles := cycles[cycleId := row.(status := if failed then Failed else Completed, completedAt := Some(now),
                                       reason := reason, revision := row.revision + 1)];
      ConsumeWakes(cycleId, now);
    }

    method ConsumeWakes(cycleId: Id, now: Time)
      modifies `wakes
      ensures wakes == ConsumeLinked(old(wakes), links, cycleId, now)
    {
      var rest := set w | w in links && links[w] == cycleId && w in wakes;
      ghost var before := wakes;
      while rest != {}
        invariant rest <= before.Keys == wakes.Keys
        invariant forall w :: w in rest ==> w in links && links[w] == cycleId && wakes[w] == before[w]
        invariant forall w :: w in before && w !in rest ==>
          wakes[w] == ConsumeLinked(before, links, cycleId, now)[w]
        decreases rest
      {
        var w :| w in rest;
        if wakes[w].status == W.Claimed {
          wakes := wakes[w := wakes[w].(status := W.Consumed, consumedAt := Some(now), revision := wakes[w].revision + 1)];
        }
        rest := rest - {w};
      }
      assert wakes == ConsumeLinked(before, links, cycleId, now);
    }

    method FailTurn(cycleId: Id, turnId: Id, now: Time, reason: string)
      requires cycleId in cycles && turnId in turns
      modifies this
      ensures Tables() == C.FailTurn(old(Tables()), cycleId, turnId, now, reason)
    {
      turns := turns[turnId := turns[turnId].(status := TurnFailed, completedAt := Some(now))];
      FinishCycle(cycleId, now, reason, true);
    }

    /** Settles spent work before anything else can block recovery. */
    method Settle(flags: Flags, cycleId: Id, turnId: Id, now: Time) returns (spent: bool)
      requires cycleId in cycles && turnId in turns
      modifies this
      ensures (Tables(), spent) == C.Settle(old(Tables()), flags, cycleId, turnId, now)
    {
      AbandonCalls(turnId, now);
      var reason := Exhausted(Tables(), flags, cycleId, turnId, now);
      spent := reason.Some?;
      if spent {
        FailTurn(cycleId, turnId, now, reason.value);
      }
    }

    method AbandonCalls(turnId: Id, now: Time)
      modifies `calls
      ensures Tables() == old(Tables()).(calls := AbandonStarted(old(calls), turnId, now))
    {
      var attempts := Attempts(calls, turnId);
      var rest := attempts;
      ghost var before := calls;
      while rest != {}
        invariant rest <= attempts && calls.Keys == before.Keys
        invariant forall i :: i in before && i !in attempts - rest ==> calls[i] == before[i]
        invariant forall i :: i in attempts - rest ==> calls[i] == AbandonStarted(before, turnId, now)[i]
        decreases rest
      {
        var i :| i in rest;
        if calls[i].status == Started {
          calls := calls[i := calls[i].(status := Abandoned, completedAt := Some(now), error := "interrupted")];
        }
        rest := rest - {i};
      }
      assert calls == AbandonStarted(before, turnId, now);
    }

    method StartCall(flags: Flags, cycleId: Id, turnId: Id, now: Time, callId: Id) returns (started: Option<Id>)
      requires cycleId in cycles && turnId in turns
      modifies this
      ensures (Tables(), started) == C.StartCall(old(Tables()), flags, cycleId, turnId, now, callId)
    {
      var spent := Settle(flags, cycleId, turnId, now);
      if spent {
        return None;
      }
      calls := calls[callId := Call(turnId, |Attempts(calls, turnId)| + 1, Started, now, None, None, "")];
      turns := turns[turnId := turns[turnId].(status := Invoking)];
      started := Some(callId);
    }

    method FailCall(callId: Id, now: Time, error: string)
      requires callId in calls
      modifies `calls
      ensures Tables() == C.FailCall(old(Tables()), callId, now, error)
    {
      calls := calls[callId := calls[callId].(status := CallFailed, completedAt := Some(now), error := error)];
    }

    method RecordResult(cycleId: Id, turnId: Id, callId: Id, request: Request, result: ModelResult, now: Time)
      requires cycleId in cycles && turnId in turns && callId in calls
      modifies this
      ensures Tables() == C.RecordResult(old(Tables()), cycleId, turnId, callId, request, result, now)
    {
      if result.requestId != request.requestId {
        FailCall(callId, now, "request_id_mismatch");
        return;
      }
      if result.protocol != request.protocol
         || (result.outcome.Completion? && result.outcome.decision.protocol != request.protocol) {
        FailCall(callId, now, "protocol_mismatch");
        return;
      }
      match result.outcome
      case Refusal =>
        FailCall(callId, now, "refused");
        FailTurn(cycleId, turnId, now, "refused");
      case Failure(retryable) =>
        FailCall(callId, now, "failed");
        if retryable != Some(true) {
          FailTurn(cycleId, turnId, now, "failed");
        }
      case Completion(decision) =>
        if DecisionKnown(turns, decision.id) {
          FailCall(callId, now, "duplicate_decision_id");
          FailTurn(cycleId, turnId, now, "duplicate_decision_id");
        } else {
          calls := calls[callId := calls[callId].(status := CallCompleted, completedAt := Some(now), decision := Some(decision))];
          turns := turns[turnId := turns[turnId].(status := Decided, decision := Some(decision))];
        }
    }

    /** Collects the findings against a recorded decision; none means it may be applied. */
    method Findings(cycleId: Id, turnId: Id, d: Decision, verdict: Verdict) returns (errors: seq<string>)
      ensures |errors| == 0 <==> Acceptable(Tables(), cycleId, turnId, d, verdict)
    {
      errors := BatchFindings(cycleId, turnId, d, verdict);
      var more := RequestFindings(d.wakeRequests);
      errors := errors + more;
    }

    method BatchFindings(cycleId: Id, turnId: Id, d: Decision, verdict: Verdict) returns (errors: seq<string>)
      ensures |errors| == 0 <==> BatchAcceptable(Tables(), cycleId, turnId, d, verdict)
    {
      hide C.Operations, IsExploration, Distinct, Elements, Note;
      var ids := Operations(d);
      DistinctByCount(ids);
      var explored := IsExploration(Tables(), cycleId);
      var repeated := exists op :: op in ids && op in applied;
      errors := Note(d.cycleId != cycleId, "cycle_id_mismatch");
      errors := errors + Note(d.turnId != turnId, "turn_id_mismatch");
      errors := errors + Note(|Elements(ids)| != |ids|, "duplicate_operation_id");
      errors := errors + Note(!verdict.refsKnown, "unknown_ref");
      errors := errors + Note(|d.wakeRequests| > 16, "too_many_wake_requests");
      errors := errors + Note(|ids| > 64, "too_many_operations");
      errors := errors + Note(d.wakeRequests != [] && explored, "internal_exploration_wake_requests_forbidden");
      errors := errors + Note(d.personalOps != [] && !verdict.personalValid, "invalid_personal_operations");
      errors := errors + Note(d.personalOps != [] && repeated, "operation_id_already_applied");
    }

    method RequestFindings(requests: seq<WakeRequest>) returns (errors: seq<string>)
      ensures |errors| == 0 <==> forall op :: op in WakeIds(requests) ==> op !in applied && op !in wakes
    {
      errors := [];
      for i := 0 to |requests|
        invariant |errors| == 0 <==> forall j :: 0 <= j < i ==> WakeIds(requests)[j] !in applied && WakeIds(requests)[j] !in wakes
      {
        assert WakeIds(requests)[i] == requests[i].operationId;
        errors := errors + Note(requests[i].operationId in applied, "operation_id_already_applied");
        errors := errors + Note(requests[i].operationId in wakes, "wake_id_already_exists");
      }
    }

    // ---- Claiming ----

    /** Replaces claims that belong to no cycle, in claim order. */
    method RecoverOrphans(limit: nat, spare: seq<Id>)
      requires W.KeysUnique(wakes) && ScopeOk(wakes, links, inbound, grants)
      requires |spare| >= limit && Distinct(spare) && Elements(spare) !! wakes.Keys
      modifies `wakes
      ensures (W.InOrderMembers(old(wakes), Orphans(old(Tables())), limit);
        wakes == C.RecoverOrphans(old(wakes), W.InOrder(old(wakes), Orphans(old(Tables())), limit), spare))
      ensures W.KeysUnique(wakes) && ScopeOk(wakes, links, inbound, grants)
    {
      hide W.KeysUnique;
      hide ScopeOk;
      var orphans := W.Select(wakes, Orphans(Tables()), limit);
      W.InOrderMembers(wakes, Orphans(Tables()), limit);
      ghost var before := wakes;
      for i := 0 to |orphans|
        invariant W.KeysUnique(wakes) && ScopeOk(wakes, links, inbound, grants)
        invariant Elements(orphans) <= wakes.Keys && Elements(spare[i..]) !! wakes.Keys
        invariant Elements(orphans[i..]) <= wakes.Keys
        invariant C.RecoverOrphans(wakes, orphans[i..], spare[i..]) == C.RecoverOrphans(before, orphans, spare)
      {
        var orphan := orphans[i];
        assert orphan in Elements(orphans) && spare[i] in Elements(spare[i..]);
        RecoverKeepsKeys(wakes, orphan, spare[i]);
        RecoverKeepsScope(Tables(), orphan, spare[i]);
        SpareStaysFresh(wakes, orphan, spare, i);
        assert orphans[i..][1..] == orphans[i + 1..] && spare[i..][1..] == spare[i + 1..];
        var row, carrier := W.CreateOrMergePending(Supersede(wakes, orphan), spare[i], Replacement(wakes[orphan], orphan));
        assert Elements(orphans[i + 1..]) <= Elements(orphans);
        wakes := row;
      }
    }

    /** Takes the earliest inbound group alone, or ordinary work, or exploration; nothing if none is due. */
    method Choose(flags: Flags, now: Time, limits: Limits) returns (claim: Claim)
      requires limits.Valid() && ScopeOk(wakes, links, inbound, grants)
      ensures claim == C.Choose(Tables(), flags, now, limits)
    {
      var due := Due(Tables(), now);
      if due != {} {
        var rows := W.Select(wakes, due, 1);
        if rows[0] in inbound {
          return Claim(rows, limits);
        }
        rows := W.Select(wakes, due - inbound, limits.maxWakes);
        return Claim(rows, limits);
      }
      if w :| w in grants && ExplorationEligible(Tables(), flags, now, w) {
        assert forall v :: ExplorationEligible(Tables(), flags, now, v) ==> v in grants && Live(wakes, v);
        assert Live(wakes, w);
        return Claim([w], Capped(limits, grants[w]));
      }
      claim := Nothing;
    }

    method OpenCycle(cycleId: Id, turnId: Id, claim: Claim, now: Time)
      requires claim.Claim? && Elements(claim.wakes) <= wakes.Keys && Distinct(claim.wakes)
      modifies this
      ensures Tables() == C.OpenCycle(old(Tables()), cycleId, turnId, claim, now)
    {
      var limits := claim.limits;
      cycles := cycles[cycleId := Cycle(Active, now, None, "", limits.maxTurns, limits.maxAttempts, limits.maxWakes,
                                        now + limits.maxDuration, limits.minWakeDelay, 1)];
      turns := turns[turnId := NewTurn(cycleId, 1)];
      ClaimWakes(claim.wakes, cycleId, now);
    }

    method ClaimWakes(ids: seq<Id>, cycleId: Id, now: Time)
      requires Elements(ids) <= wakes.Keys && Distinct(ids)
      modifies `wakes, `links
      ensures wakes == ClaimAll(old(wakes), ids, now) && links == Assign(old(links), ids, cycleId)
    {
      ghost var before := wakes;
      for i := 0 to |ids|
        invariant wakes == ClaimAll(before, ids[..i], now)
        invariant links == Assign(old(links), ids[..i], cycleId)
      {
        var w := ids[i];
        assert w in Elements(ids);
        ClaimStep(before, ids, i, now);
        AssignStep(old(links), ids, i, cycleId);
        wakes := wakes[w := ClaimWake(wakes[w], now)];
        links := links[w := cycleId];
      }
      assert ids[..|ids|] == ids;
    }

    /**
     * Recovers orphaned claims, then resumes the active cycle, or opens one over the work that is due.
     * Claims need not be sound beforehand.
     */
    method ClaimOrResume(flags: Flags, now: Time, limits: Limits, cycleId: Id, turnId: Id, spare: seq<Id>)
      returns (cycle: Option<Id>)
      requires TurnsOk(cycles, turns) && W.KeysUnique(wakes) && ScopeOk(wakes, links, inbound, grants)
      requires limits.Valid() && |spare| >= limits.maxWakes && Distinct(spare) && Elements(spare) !! wakes.Keys
      modifies this
      ensures (Tables(), cycle) == C.ClaimOrResume(old(Tables()), flags, now, limits, cycleId, turnId, spare)
    {
      hide TurnsOk, ScopeOk, W.KeysUnique;
      hide Due, C.OpenCycle, C.Choose, C.RecoverOrphans;
      RecoverOrphans(limits.maxWakes, spare);
      if c :| c in cycles && IsActive(cycles, c) {
        OneActive(cycles, turns, c);
        return Some(c);
      }
      var claim := Choose(flags, now, limits);
      ChooseClaimsStored(Tables(), flags, now, limits);
      if claim.Nothing? || claim.wakes == [] {
        return None;
      }
      ChosenOnce(Tables(), flags, now, limits);
      OpenCycle(cycleId, turnId, claim, now);
      cycle := Some(cycleId);
    }

    // ---- Applying ----

    method ScheduleRequests(requests: seq<WakeRequest>, now: Time, delay: Time)
      requires W.KeysUnique(wakes) && Distinct(WakeIds(requests))
      requires forall op :: op in WakeIds(requests) ==> op !in wakes
      modifies `wakes
      ensures wakes == ScheduleAll(old(wakes), requests, now, delay)
    {
      ghost var before := wakes;
      for i := 0 to |requests|
        invariant wakes == ScheduleAll(before, requests[..i], now, delay)
      {
        assert WakeIds(requests[..i]) == WakeIds(requests)[..i];
        ScheduleExtends(before, requests[..i], now, delay);
        assert requests[..i + 1][..i] == requests[..i];
        var carrier;
        wakes, carrier := W.CreateOrMergePending(wakes, requests[i].operationId, SelfScheduled(requests[i], now, delay));
      }
      assert requests[..|requests|] == requests;
    }

    /** Writes the decision's operations under the turn, all together. */
    method TakeEffect(turnId: Id, d: Decision, now: Time, delay: Time)
      requires W.KeysUnique(wakes) && Distinct(WakeIds(d.wakeRequests))
      requires forall op :: op in WakeIds(d.wakeRequests) ==> op !in wakes
      modifies this
      ensures Tables() == C.TakeEffect(old(Tables()), turnId, d, now, delay)
    {
      ScheduleRequests(d.wakeRequests, now, delay);
      RecordOperations(Operations(d), turnId);
      effects := effects + [turnId];
    }

    method RecordOperations(ids: seq<Id>, turnId: Id)
      modifies `applied
      ensures applied == Assign(old(applied), ids, turnId)
    {
      for i := 0 to |ids|
        invariant applied == Assign(old(applied), ids[..i], turnId)
      {
        AssignStep(old(applied), ids, i, turnId);
        applied := applied[ids[i] := turnId];
      }
      assert ids[..|ids|] == ids;
    }

    method ApplyDecision(cycleId: Id, turnId: Id, now: Time, verdict: Verdict, nextTurn: Id)
      requires cycleId in cycles && turnId in turns && turns[turnId].decision.Some? && W.KeysUnique(wakes)
      modifies this
      ensures Tables() == C.ApplyDecision(old(Tables()), cycleId, turnId, now, verdict, nextTurn)
    {
      hide W.KeysUnique;
      var cycle, turn := cycles[cycleId], turns[turnId];
      var d := turn.decision.value;
      var errors := Findings(cycleId, turnId, d, verdict);
      if |errors| != 0 {
        turns := turns[turnId := turn.(status := Rejected, completedAt := Some(now))];
        FinishCycle(cycleId, now, "decision_rejected", true);
        return;
      }
      AcceptedRequests(Tables(), cycleId, turnId, d, verdict);
      TakeEffect(turnId, d, now, cycle.minWakeDelay);
      turns := turns[turnId := turn.(status := Applied, completedAt := Some(now))];
      if d.disposition != Continue {
        FinishCycle(cycleId, now, DispositionName(d.disposition), false);
      } else if turn.ordinal >= cycle.maxTurns {
        FinishCycle(cycleId, now, "turn_limit", false);
      } else if now >= cycle.deadlineAt {
        FinishCycle(cycleId, now, "deadline", false);
      } else {
        turns := turns[nextTurn := NewTurn(cycleId, turn.ordinal + 1)];
      }
    }
  }

  // ---- Recovering wakes claimed without a cycle ----

  lemma RecoverKeepsKeys(wakes: W.Table, orphan: Id, spare: Id)
    requires W.KeysUnique(wakes) && orphan in wakes && spare !in wakes
    ensures W.KeysUnique(Supersede(wakes, orphan))
    ensures W.KeysUnique(RecoverOrphan(wakes, orphan, spare))
    ensures wakes.Keys <= RecoverOrphan(wakes, orphan, spare).Keys <= wakes.Keys + {spare}
  {
    var superseded := Supersede(wakes, orphan);
    assert forall w, k :: w in wakes && W.Holds(superseded[w], k) ==> W.Holds(wakes[w], k) && superseded[w] == wakes[w];
    W.CreateOrMergeKeepsKeys(superseded, spare, Replacement(wakes[orphan], orphan));
  }

  lemma RecoverKeepsScope(db: Db, orphan: Id, spare: Id)
    requires ScopeOk(db.wakes, db.links, db.inbound, db.grants) && W.KeysUnique(db.wakes)
    requires orphan in db.wakes && spare !in db.wakes
    ensures ScopeOk(RecoverOrphan(db.wakes, orphan, spare), db.links, db.inbound, db.grants)
  {
    hide W.Holds;
    var after := RecoverOrphan(db.wakes, orphan, spare);
    assert forall w :: Special(db.inbound, db.grants, w) ==> w != spare && after[w].key == db.wakes[w].key;
    assert forall w :: w in db.grants && Live(after, w) ==> Live(db.wakes, w);
  }

  /** What the demands say about links, without the one that every claim belongs to a cycle. */
  ghost predicate LinkedOk(db: Db) {
    && (forall w :: w in db.links ==> w in db.wakes && db.links[w] in db.cycles)
    && (forall w :: w in db.links && w in db.wakes && db.links[w] in db.cycles ==>
          db.wakes[w].status == if db.cycles[db.links[w]].status == Active then W.Claimed else W.Consumed)
  }

  lemma RecoverOne(db: Db, orphan: Id, spare: Id)
    requires LinkedOk(db) && W.KeysUnique(db.wakes) && orphan in Orphans(db) && spare !in db.wakes
    ensures var after := db.(wakes := RecoverOrphan(db.wakes, orphan, spare));
      LinkedOk(after) && Orphans(after) == Orphans(db) - {orphan} && W.KeysUnique(after.wakes)
      && forall w :: w in Orphans(after) ==> after.wakes[w] == db.wakes[w]
  {
    hide RecoverOrphan, W.KeysUnique;
    RecoverKeepsKeys(db.wakes, orphan, spare);
    var carrier := RecoverRows(db.wakes, orphan, spare);
    RecoverLinks(db, orphan, carrier, RecoverOrphan(db.wakes, orphan, spare));
  }

  /** Recovery ends the orphan, leaves a pending wake and touches nothing else. */
  ghost predicate Recovered(before: W.Table, after: W.Table, orphan: Id, carrier: Id) {
    && orphan in after && after[orphan].status == W.Superseded && carrier != orphan
    && carrier in after && after[carrier].status == W.Pending
    && (carrier in before ==> before[carrier].status == W.Pending)
    && (forall w :: w in before && w != orphan && w != carrier ==> w in after && after[w] == before[w])
    && after.Keys == before.Keys + {carrier}
  }

  lemma RecoverRows(wakes: W.Table, orphan: Id, spare: Id) returns (carrier: Id)
    requires W.KeysUnique(wakes) && orphan in wakes && wakes[orphan].status == W.Claimed && spare !in wakes
    ensures Recovered(wakes, RecoverOrphan(wakes, orphan, spare), orphan, carrier)
  {
    RecoveryCarriesScope(wakes, orphan, spare);
    carrier := W.Carrier(Supersede(wakes, orphan), spare, Replacement(wakes[orphan], orphan));
  }

  lemma RecoverLinks(db: Db, orphan: Id, carrier: Id, after: W.Table)
    requires LinkedOk(db) && orphan in Orphans(db) && Recovered(db.wakes, after, orphan, carrier)
    ensures LinkedOk(db.(wakes := after)) && Orphans(db.(wakes := after)) == Orphans(db) - {orphan}
    ensures forall w :: w in Orphans(db.(wakes := after)) ==> w in db.wakes && after[w] == db.wakes[w]
  {
    hide LinkedOk;
    RecoveredLinks(db, orphan, carrier, after);
  }

  lemma RecoveredLinks(db: Db, orphan: Id, carrier: Id, after: W.Table)
    requires LinkedOk(db) && orphan in Orphans(db) && Recovered(db.wakes, after, orphan, carrier)
    ensures LinkedOk(db.(wakes := after))
  {
  }

  /**
   * Whatever claims were orphaned, if there are no more than the limit, recovering them leaves every
   * claim with its cycle.
   */
  lemma {:induction false} RecoveryRestoresLinks(db: Db, orphans: seq<Id>, spare: seq<Id>)
    requires LinkedOk(db) && W.KeysUnique(db.wakes) && |orphans| <= |spare|
    requires Distinct(orphans) && Elements(orphans) == Orphans(db)
    requires Distinct(spare) && Elements(spare) !! db.wakes.Keys
    ensures LinksOk(C.RecoverOrphans(db.wakes, orphans, spare), db.links, db.cycles)
    decreases |orphans|
  {
    if orphans == [] {
      assert forall w :: w in db.wakes && db.wakes[w].status == W.Claimed && w !in db.links ==> w in Orphans(db);
    } else {
      assert orphans[0] in Elements(orphans) && spare[0] in Elements(spare);
      RecoverOne(db, orphans[0], spare[0]);
      var after := db.(wakes := RecoverOrphan(db.wakes, orphans[0], spare[0]));
      assert spare[0..] == spare;
      SpareStaysFresh(db.wakes, orphans[0], spare, 0);
      RestIsOrphaned(orphans);
      RecoveryRestoresLinks(after, orphans[1..], spare[1..]);
    }
  }

  lemma RestIsOrphaned(orphans: seq<Id>)
    requires orphans != [] && Distinct(orphans)
    ensures Distinct(orphans[1..]) && Elements(orphans[1..]) == Elements(orphans) - {orphans[0]}
  {
    assert orphans == [orphans[0]] + orphans[1..];
  }

  lemma SpareStaysFresh(wakes: W.Table, orphan: Id, spare: seq<Id>, i: nat)
    requires W.KeysUnique(wakes) && orphan in wakes && i < |spare| && Distinct(spare)
    requires Elements(spare[i..]) !! wakes.Keys && spare[i] !in wakes
    ensures Elements(spare[i + 1..]) !! RecoverOrphan(wakes, orphan, spare[i]).Keys
  {
    RecoverKeepsKeys(wakes, orphan, spare[i]);
    forall x | x in spare[i + 1..]
      ensures x !in wakes && x != spare[i]
    {
      var j :| i + 1 <= j < |spare| && spare[j] == x;
      assert spare[i..][j - i] == x;
      assert x in Elements(spare[i..]);
    }
  }

  /** A recovered claim is superseded, and a pending wake carries its scope, its cause and a link back to it. */
  lemma RecoveryCarriesScope(wakes: W.Table, orphan: Id, spare: Id)
    requires W.KeysUnique(wakes) && orphan in wakes && wakes[orphan].status == W.Claimed && spare !in wakes
    ensures var after := RecoverOrphan(wakes, orphan, spare);
      var carrier := W.Carrier(Supersede(wakes, orphan), spare, Replacement(wakes[orphan], orphan));
      && after[orphan] == wakes[orphan].(status := W.Superseded, revision := wakes[orphan].revision + 1)
      && carrier in after && after[carrier].status == W.Pending && after[carrier].key == wakes[orphan].key
      && W.Carries(after[carrier], wakes[orphan]) && Ref("wake", orphan) in after[carrier].refs
      && (forall w :: w in wakes && w != orphan && w != carrier ==> w in after && after[w] == wakes[w])
  {
    var superseded := Supersede(wakes, orphan);
    var replacement := Replacement(wakes[orphan], orphan);
    var carrier := W.Carrier(superseded, spare, replacement);
    assert carrier != orphan;
    if W.HasHolder(superseded, replacement.key) {
      W.MergeCarriesBoth(superseded[carrier], replacement);
    }
    assert Ref("wake", orphan) in replacement.refs;
  }

  lemma ClaimStep(wakes: W.Table, ids: seq<Id>, i: nat, now: Time)
    requires Distinct(ids) && i < |ids| && ids[i] in wakes
    ensures ClaimAll(wakes, ids[..i], now)[ids[i]] == wakes[ids[i]]
    ensures ClaimAll(wakes, ids[..i + 1], now) == ClaimAll(wakes, ids[..i], now)[ids[i] := ClaimWake(wakes[ids[i]], now)]
  {
    assert ids[..i + 1] == ids[..i] + [ids[i]];
    assert ids[i] !in ids[..i];
  }

  lemma AssignStep(table: map<Id, Id>, ids: seq<Id>, i: nat, owner: Id)
    requires i < |ids|
    ensures Assign(table, ids[..i + 1], owner) == Assign(table, ids[..i], owner)[ids[i] := owner]
  {
    assert ids[..i + 1] == ids[..i] + [ids[i]];
  }

  lemma OneActive(cycles: map<Id, Cycle>, turns: map<Id, Turn>, c: Id)
    requires TurnsOk(cycles, turns) && IsActive(cycles, c)
    ensures HasActive(cycles) && ActiveCycle(cycles) == c
  {
  }

  lemma ChosenOnce(db: Db, flags: Flags, now: Time, limits: Limits)
    requires C.Choose(db, flags, now, limits).Claim?
    ensures Distinct(C.Choose(db, flags, now, limits).wakes)
  {
    if Due(db, now) != {} {
      W.InOrderMembers(db.wakes, Due(db, now) - db.inbound, limits.maxWakes);
    }
  }

  lemma AcceptedRequests(db: Db, c: Id, t: Id, d: Decision, verdict: Verdict)
    requires Acceptable(db, c, t, d, verdict)
    ensures Distinct(WakeIds(d.wakeRequests))
    ensures forall op :: op in WakeIds(d.wakeRequests) ==> op !in db.wakes
  {
    var ids := WakeIds(d.wakeRequests);
    forall x, y | 0 <= x < y < |ids|
      ensures ids[x] != ids[y]
    {
      assert Operations(d)[|d.personalOps| + x] != Operations(d)[|d.personalOps| + y];
    }
  }

  /** The findings that do not depend on a single wake request. */
  ghost predicate BatchAcceptable(db: Db, cycleId: Id, turnId: Id, d: Decision, verdict: Verdict) {
    && d.cycleId == cycleId && d.turnId == turnId
    && Distinct(Operations(d))
    && verdict.refsKnown
    && |d.wakeRequests| <= 16 && |Operations(d)| <= 64
    && (d.wakeRequests != [] ==> !IsExploration(db, cycleId))
    && (d.personalOps != [] ==> verdict.personalValid && forall op :: op in Operations(d) ==> op !in db.applied)
  }

  lemma {:induction false} DistinctByCount(s: seq<Id>)
    ensures |Elements(s)| == |s| <==> Distinct(s)
    ensures |Elements(s)| <= |s|
  {
    if s != [] {
      var front, last := s[..|s| - 1], s[|s| - 1];
      DistinctByCount(front);
      assert Elements(s) == Elements(front) + {last};
      if last in front {
        assert Elements(s) == Elements(front);
        var i :| 0 <= i < |front| && front[i] == last;
        assert s[i] == s[|s| - 1];
      } else {
        assert Distinct(s) <==> Distinct(front);
      }
    }
  }
}
