/** What holds of the exploration rows in every run, and that their own validation accepts it. */
module ExplorationInvariant {
  import opened Common
  import opened Exploration

  function OutcomesOf(events: seq<Event>, w: Id): nat {
    if events == [] then 0
    else OutcomesOf(events[..|events| - 1], w) + if IsOutcome(events[|events| - 1]) && events[|events| - 1].wake == w then 1 else 0
  }

  /** Every allowance has its wake and its creation event, once. */
  ghost predicate GrantsOk(wakes: map<Id, Wake>, grants: map<Id, Grant>, events: seq<Event>) {
    && wakes.Keys == grants.Keys
    && (forall w :: w in grants ==> Scheduled(w, grants[w].createdAt) in events)
    && (forall w :: w in grants && w in wakes ==> wakes[w].dueAt == grants[w].notBefore && grants[w].createdAt <= grants[w].notBefore)
    && (forall i :: 0 <= i < |events| ==> events[i].wake in wakes)
    && (forall i, j :: 0 <= i < j < |events| && events[i].Scheduled? && events[j].Scheduled? ==> events[i].wake != events[j].wake)
  }

  function Expected(status: WakeStatus, isManaged: bool): nat {
    match status
    case Pending => 0
    case Claimed => 0
    case Consumed => 1
    case _ => if isManaged then 0 else 1
  }

  /** An ended allowance has exactly one outcome, a live one none; a withdrawn one gets its own when it is released. */
  ghost predicate CountsOk(wakes: map<Id, Wake>, managed: Option<Id>, events: seq<Event>) {
    forall w :: w in wakes ==> OutcomesOf(events, w) == Expected(wakes[w].status, managed == Some(w))
  }

  /** A claimed wake belongs to the active cycle, a consumed one to its finished cycle, within bounds. */
  ghost predicate LinkOk(wake: Wake, w: Id, grants: map<Id, Grant>, cycles: map<Id, Cycle>) {
    wake.status in {Claimed, Consumed} ==>
      && w in grants && wake.cycle.Some? && wake.cycle.value in cycles && InBounds(cycles[wake.cycle.value], w, grants[w])
      && (wake.status == Claimed ==> IsActive(cycles, wake.cycle.value))
      && (wake.status == Consumed ==>
            && !IsActive(cycles, wake.cycle.value) && wake.consumedAt.Some?
            && cycles[wake.cycle.value].completedAt == wake.consumedAt)
  }

  ghost predicate LinksOk(wakes: map<Id, Wake>, grants: map<Id, Grant>, cycles: map<Id, Cycle>, events: seq<Event>) {
    && (forall w :: w in wakes ==> LinkOk(wakes[w], w, grants, cycles))
    && (forall a, b :: IsActive(cycles, a) && IsActive(cycles, b) ==> a == b)
    && (forall c :: c in cycles ==> (cycles[c].completedAt.Some? <==> cycles[c].status != Active))
    && (forall c, w :: c in cycles && w in cycles[c].members ==>
          w in wakes && wakes[w].cycle == Some(c) && wakes[w].status in {Claimed, Consumed})
    && (forall i :: 0 <= i < |events| && events[i].CompletedEvent? ==> Completes(wakes, events[i]))
  }

  predicate Completes(wakes: map<Id, Wake>, e: Event) {
    e.CompletedEvent? && e.wake in wakes && wakes[e.wake].status == Consumed && wakes[e.wake].cycle == Some(e.cycle)
      && wakes[e.wake].consumedAt == Some(e.at)
  }

  ghost predicate AnchorsOk(state: Option<State>, wakes: map<Id, Wake>, grants: map<Id, Grant>, events: seq<Event>) {
    match state
    case None => wakes == map[] && grants == map[] && events == []
    case Some(s) =>
      && s.revision >= 1
      && s.lastOutcome == LatestOutcome(events)
      && s.lastTerminal == (match LatestCompletion(events) case None => None case Some(i) => Some(events[i].cycle))
      && (forall w: Id :: Live(wakes, w) ==> s.managed == Some(w))
      && (s.managed.Some? ==>
            && s.managed.value in wakes && s.managed.value in grants
            && (Live(wakes, s.managed.value) ==> s.nextEligible <= grants[s.managed.value].notBefore))
  }

  /** A consumed allowance has its completion on record, and while still pointed to awaits materialization. */
  ghost predicate AccountedOk(state: Option<State>, wakes: map<Id, Wake>, events: seq<Event>) {
    forall w :: w in wakes && wakes[w].status == Consumed ==>
      && wakes[w].cycle.Some? && wakes[w].consumedAt.Some?
      && CompletedEvent(w, wakes[w].cycle.value, wakes[w].consumedAt.value) in events
      && (state.Some? && state.value.managed == Some(w) ==> state.value.pending)
  }

  predicate Scheduling(e: Event, grants: map<Id, Grant>, at: Time) {
    e.Scheduled? ==> e.wake in grants && grants[e.wake].notBefore >= Cadence(at)
  }

  /** Outcomes follow one another in time; whatever is scheduled after one waits for its cadence. */
  ghost predicate SpacedOk(nextEligible: Option<Time>, grants: map<Id, Grant>, events: seq<Event>) {
    && (forall i, j :: 0 <= i < j < |events| && IsOutcome(events[i]) && IsOutcome(events[j]) ==> events[i].at <= events[j].at)
    && (forall i, j :: 0 <= i < j < |events| && IsOutcome(events[i]) ==> Scheduling(events[j], grants, events[i].at))
    && (forall i :: 0 <= i < |events| && IsOutcome(events[i]) ==> nextEligible.Some? && nextEligible.value >= Cadence(events[i].at))
  }

  predicate EndsBetween(events: seq<Event>, i: nat, j: nat, k: nat) {
    i < k < j < |events| && IsOutcome(events[k]) && events[k].wake == events[i].wake
  }

  predicate Begins(events: seq<Event>, k: nat, i: nat) {
    i < k < |events| && events[i].Scheduled? && events[i].wake == events[k].wake
  }

  /** An outcome follows the scheduling of its allowance. */
  ghost predicate BegunOk(events: seq<Event>) {
    forall k :: 0 <= k < |events| && IsOutcome(events[k]) ==> HasBegun(events, k)
  }

  ghost predicate HasBegun(events: seq<Event>, k: nat) {
    exists i :: Begins(events, k, i)
  }

  /** An allowance has its outcome before the next one is scheduled. */
  ghost predicate EndedOk(events: seq<Event>) {
    forall i, j :: 0 <= i < j < |events| && events[i].Scheduled? && events[j].Scheduled? ==> HasEnded(events, i, j)
  }

  ghost predicate HasEnded(events: seq<Event>, i: nat, j: nat) {
    exists k :: EndsBetween(events, i, j, k)
  }

  ghost predicate AlternateOk(events: seq<Event>) {
    BegunOk(events) && EndedOk(events)
  }

  function ManagedOf(db: Db): Option<Id> {
    if db.state.None? then None else db.state.value.managed
  }

  function EligibleOf(db: Db): Option<Time> {
    if db.state.None? then None else Some(db.state.value.nextEligible)
  }

  ghost predicate Inv(db: Db) {
    && GrantsOk(db.wakes, db.grants, db.events)
    && CountsOk(db.wakes, ManagedOf(db), db.events)
    && LinksOk(db.wakes, db.grants, db.cycles, db.events)
    && AnchorsOk(db.state, db.wakes, db.grants, db.events)
    && AccountedOk(db.state, db.wakes, db.events)
    && SpacedOk(EligibleOf(db), db.grants, db.events)
    && AlternateOk(db.events)
  }

  // ---- The retained validation accepts every such state ----

  lemma {:induction false} LatestOutcomeIsLast(events: seq<Event>)
    ensures LatestOutcome(events).None? ==> forall i :: 0 <= i < |events| ==> !IsOutcome(events[i])
    ensures LatestOutcome(events).Some? ==> forall i :: LatestOutcome(events).value < i < |events| ==> !IsOutcome(events[i])
  {
    if events != [] && !IsOutcome(events[|events| - 1]) {
      LatestOutcomeIsLast(events[..|events| - 1]);
    }
  }

  lemma GrantsValid(db: Db)
    requires GrantsOk(db.wakes, db.grants, db.events) && AnchorsOk(db.state, db.wakes, db.grants, db.events)
    ensures forall w :: w in db.wakes ==> GrantValid(db, w)
  {
    hide LatestOutcome, LatestCompletion;
  }

  lemma LiveAccepted(db: Db)
    requires GrantsOk(db.wakes, db.grants, db.events) && AnchorsOk(db.state, db.wakes, db.grants, db.events)
    ensures LiveValid(db)
  {
    GrantsValid(db);
    hide GrantsOk, GrantValid, LatestOutcome, LatestCompletion;
  }

  lemma TerminalAccepted(db: Db, i: nat)
    requires GrantsOk(db.wakes, db.grants, db.events) && LinksOk(db.wakes, db.grants, db.cycles, db.events)
    requires forall w :: w in db.wakes ==> GrantValid(db, w)
    requires i < |db.events| && db.events[i].CompletedEvent?
    ensures TerminalValid(db, db.events[i].cycle)
    ensures db.cycles[db.events[i].cycle].completedAt == Some(db.events[i].at)
  {
    hide GrantsOk, GrantValid;
    var e := db.events[i];
    assert Completes(db.wakes, e);
    assert LinkOk(db.wakes[e.wake], e.wake, db.grants, db.cycles);
    assert WithinGrant(db, e.cycle, e.wake);
  }

  lemma ManagedAccepted(db: Db, s: State, finishing: bool)
    requires LinksOk(db.wakes, db.grants, db.cycles, db.events) && AnchorsOk(Some(s), db.wakes, db.grants, db.events)
    requires !finishing ==> AccountedOk(Some(s), db.wakes, db.events)
    requires forall w :: w in db.wakes ==> GrantValid(db, w)
    ensures ManagedValid(db, s, finishing)
  {
    hide GrantValid, LatestOutcome, LatestCompletion;
    if s.managed.Some? {
      assert LinkOk(db.wakes[s.managed.value], s.managed.value, db.grants, db.cycles);
    }
  }

  lemma AnchorsAccepted(db: Db, s: State)
    requires GrantsOk(db.wakes, db.grants, db.events) && LinksOk(db.wakes, db.grants, db.cycles, db.events)
    requires AnchorsOk(db.state, db.wakes, db.grants, db.events) && SpacedOk(EligibleOf(db), db.grants, db.events)
    requires db.state == Some(s) && (forall w :: w in db.wakes ==> GrantValid(db, w))
    ensures AnchorsValid(db, s)
  {
    hide GrantValid, LatestOutcome, LatestCompletion, TerminalValid, LinksOk;
    if LatestCompletion(db.events).Some? {
      TerminalAccepted(db, LatestCompletion(db.events).value);
    }
  }

  lemma Accepted(db: Db, finishing: bool)
    requires GrantsOk(db.wakes, db.grants, db.events) && LinksOk(db.wakes, db.grants, db.cycles, db.events)
    requires AnchorsOk(db.state, db.wakes, db.grants, db.events) && SpacedOk(EligibleOf(db), db.grants, db.events)
    requires !finishing ==> AccountedOk(db.state, db.wakes, db.events)
    ensures Validated(db, finishing)
  {
    hide SpacedOk, LiveValid, AnchorsValid, ManagedValid, LinksOk, GrantsOk, AccountedOk;
    LiveAccepted(db);
    GrantsValid(db);
    if db.state.Some? {
      AnchorsAccepted(db, db.state.value);
      ManagedAccepted(db, db.state.value, finishing);
    }
  }
}
