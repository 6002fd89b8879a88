/** One source's ingestion rows, and the transactions that write them, one function each. */
module Ingestion {
  import opened Common
  import opened D = Deduplication

  const MAX_INBOUND_REFS: nat := 8

  type Cursor = string

  datatype Page = Page(items: seq<Item>, nextCursor: Option<Cursor>, observedAt: Time)

  datatype Binding = Binding(
    enabled: bool,
    cursor: Option<Cursor>,
    cursorRevision: nat,
    revision: nat,
    pendingWake: Option<Id>,
    latestReceipt: Option<Id>,
    createdAt: Time,
    updatedAt: Time)

  datatype Receipt = Receipt(
    id: Id,
    previous: Option<Id>,
    beforeCursor: Option<Cursor>,
    afterCursor: Option<Cursor>,
    beforeRevision: nat,
    afterRevision: nat,
    authorizingRevision: nat,
    observedAt: Time,
    recordedAt: Time,
    itemCount: nat,
    newCount: nat,
    duplicateCount: nat)

  datatype Observation = Observation(id: Id, item: Item, group: Id, receipt: Id, observedAt: Time, recordedAt: Time)

  datatype Stage = Pending | Claimed | Consumed

  /** An inbound wake together with its grouping row. */
  datatype Group = Group(
    marker: Id,
    createdAt: Time,
    sealedAt: Option<Time>,
    refs: seq<Id>,
    stage: Stage,
    claimedAt: Option<Time>,
    consumedAt: Option<Time>,
    cycle: Option<Id>,
    revision: nat)

  datatype CycleRow = CycleRow(startedAt: Time, completedAt: Option<Time>)

  /** `receipts`, `observations` and `creation` follow the order in which their events were appended. */
  datatype Source = Source(
    binding: Binding,
    receipts: seq<Receipt>,
    observations: seq<Observation>,
    groups: map<Id, Group>,
    creation: seq<Id>,
    cycles: map<Id, CycleRow>)

  /** Lifecycle and governance epochs that a snapshot also pins. */
  datatype Epoch = Epoch(active: bool, revision: nat)

  datatype Snapshot = Snapshot(enabled: bool, cursor: Option<Cursor>, cursorRevision: nat, revision: nat, epoch: Epoch)

  function Current(b: Binding, epoch: Epoch): Snapshot {
    Snapshot(b.enabled, b.cursor, b.cursorRevision, b.revision, epoch)
  }

  datatype Refusal =
    | ClockBeforeObservation
    | StaleOrBlocked
    | ClockBeforeBinding
    | Corrupt
    | ConflictingIdentity
    | RevisionChanged
    | NotPending

  datatype Ingested = Ingested(created: seq<Id>, duplicates: nat, wakes: seq<Id>, cursorRevision: nat, receipt: Option<Id>)

  // ---- The writers' own validation before they write ----

  predicate Precedes(prior: Receipt, next: Receipt) {
    && next.previous == Some(prior.id)
    && prior.afterRevision == next.beforeRevision && prior.afterCursor == next.beforeCursor
    && prior.recordedAt <= next.recordedAt
  }

  predicate CheckpointAgrees(b: Binding, receipts: seq<Receipt>) {
    if receipts == [] then b.latestReceipt.None? && b.cursorRevision == 0 && b.cursor.None?
    else
      var last := receipts[|receipts| - 1];
      && b.latestReceipt == Some(last.id) && b.cursor == last.afterCursor && b.cursorRevision == last.afterRevision
      && (if last.previous.None? then last.beforeRevision == 0 && last.beforeCursor.None?
          else exists prior :: prior in receipts && Precedes(prior, last))
  }

  function OpenGroups(groups: map<Id, Group>): set<Id> {
    set w | w in groups && groups[w].sealedAt.None?
  }

  function Members(observations: seq<Observation>, group: Id): seq<Id> {
    if observations == [] then []
    else
      var last := observations[|observations| - 1];
      Members(observations[..|observations| - 1], group) + if last.group == group then [last.id] else []
  }

  predicate LifecycleValid(g: Group, cycles: map<Id, CycleRow>) {
    match g.stage
    case Pending => g.cycle.None? && g.claimedAt.None? && g.consumedAt.None?
    case Claimed =>
      && g.sealedAt.Some? && g.claimedAt.Some? && g.cycle.Some? && g.cycle.value in cycles
      && cycles[g.cycle.value].startedAt == g.claimedAt.value && g.sealedAt.value <= g.claimedAt.value
      && cycles[g.cycle.value].completedAt.None? && g.consumedAt.None?
    case Consumed =>
      && g.sealedAt.Some? && g.claimedAt.Some? && g.cycle.Some? && g.cycle.value in cycles
      && cycles[g.cycle.value].startedAt == g.claimedAt.value && g.sealedAt.value <= g.claimedAt.value
      && cycles[g.cycle.value].completedAt.Some? && g.consumedAt == cycles[g.cycle.value].completedAt
      && cycles[g.cycle.value].startedAt <= cycles[g.cycle.value].completedAt.value
  }

  /** Timing of one member within its group. */
  predicate Timed(g: Group, o: Observation) {
    g.createdAt <= o.recordedAt && (g.sealedAt.Some? ==> o.recordedAt <= g.sealedAt.value)
  }

  /** The validation of one inbound wake. */
  predicate GroupValid(pending: Option<Id>, observations: seq<Observation>, cycles: map<Id, CycleRow>, w: Id, g: Group) {
    && 1 <= |g.refs| <= MAX_INBOUND_REFS
    && g.refs == Members(observations, w)
    && (forall o :: o in observations && o.group == w ==> Timed(g, o))
    && (if g.sealedAt.None? then g.stage == Pending && |g.refs| < MAX_INBOUND_REFS && pending == Some(w)
        else g.createdAt <= g.sealedAt.value && pending != Some(w))
    && LifecycleValid(g, cycles)
  }

  predicate OpenAgrees(s: Source) {
    && OpenGroups(s.groups) == (if s.binding.pendingWake.None? then {} else {s.binding.pendingWake.value})
    && (s.binding.pendingWake.Some? ==>
          GroupValid(s.binding.pendingWake, s.observations, s.cycles, s.binding.pendingWake.value, s.groups[s.binding.pendingWake.value]))
  }

  // ---- Ingesting a page ----

  /** Fresh identities: one receipt, and an event, wake and marker for every item. */
  datatype Names = Names(receipt: Id, events: seq<Id>, wakes: seq<Id>, markers: seq<Id>)

  /** The rows that grow while the new items of one page are written. */
  datatype Draft = Draft(observations: seq<Observation>, groups: map<Id, Group>, creation: seq<Id>, pending: Option<Id>)

  function NewGroup(marker: Id, now: Time): Group {
    Group(marker, now, None, [], Pending, None, None, None, 1)
  }

  /** Appends one reference, and seals the group when that fills it. */
  function Joined(g: Group, event: Id, now: Time): Group {
    g.(refs := g.refs + [event], revision := g.revision + 1,
       sealedAt := if |g.refs| + 1 == MAX_INBOUND_REFS then Some(now) else g.sealedAt)
  }

  function Place(d: Draft, item: Item, k: nat, names: Names, observedAt: Time, now: Time): Draft
    requires k < |names.events| && k < |names.wakes| && k < |names.markers|
    requires d.pending.Some? ==> d.pending.value in d.groups
  {
    var w := if d.pending.Some? then d.pending.value else names.wakes[k];
    var g := Joined(if d.pending.Some? then d.groups[w] else NewGroup(names.markers[k], now), names.events[k], now);
    Draft(
      d.observations + [Observation(names.events[k], item, w, names.receipt, observedAt, now)],
      d.groups[w := g],
      if d.pending.Some? then d.creation else d.creation + [w],
      if |g.refs| == MAX_INBOUND_REFS then None else Some(w))
  }

  predicate PendingStored(d: Draft) {
    d.pending.Some? ==> d.pending.value in d.groups
  }

  function PlaceAll(d: Draft, items: seq<Item>, names: Names, observedAt: Time, now: Time): (r: Draft)
    requires PendingStored(d) && |items| <= |names.events| && |items| <= |names.wakes| && |items| <= |names.markers|
    ensures PendingStored(r) && |r.observations| == |d.observations| + |items|
  {
    if items == [] then d
    else
      var n := |items| - 1;
      Place(PlaceAll(d, items[..n], names, observedAt, now), items[n], n, names, observedAt, now)
  }

  function StoredItems(observations: seq<Observation>): seq<Item> {
    seq(|observations|, i requires 0 <= i < |observations| => observations[i].item)
  }

  /** The groups that received a member, in the order they did, each once. */
  function Touched(added: seq<Observation>): seq<Id> {
    if added == [] then []
    else
      var front, w := Touched(added[..|added| - 1]), added[|added| - 1].group;
      if w in front then front else front + [w]
  }

  function Admission(s: Source, epoch: Epoch, snapshot: Snapshot, page: Page, now: Time): (refusal: Option<Refusal>)
    ensures refusal.None? && s.binding.pendingWake.Some? ==> s.binding.pendingWake.value in s.groups
  {
    if now < page.observedAt then Some(ClockBeforeObservation)
    else if Current(s.binding, epoch) != snapshot || !snapshot.enabled || !snapshot.epoch.active then Some(StaleOrBlocked)
    else if now < s.binding.updatedAt || page.observedAt < s.binding.createdAt then Some(ClockBeforeBinding)
    else if !CheckpointAgrees(s.binding, s.receipts) || !OpenAgrees(s) then Some(Corrupt)
    else None
  }

  function Persist(s: Source, epoch: Epoch, snapshot: Snapshot, page: Page, now: Time, names: Names): Result<(Source, Ingested), Refusal>
    requires |page.items| <= |names.events| && |page.items| <= |names.wakes| && |page.items| <= |names.markers|
  {
    var refusal := Admission(s, epoch, snapshot, page, now);
    if refusal.Some? then Err(refusal.value)
    else
      match Screen(Known(StoredItems(s.observations)), page.items)
      case Conflict => Err(ConflictingIdentity)
      case Screened(items, duplicates, _) =>
        if items == [] && page.nextCursor == snapshot.cursor
        then Ok((s, Ingested([], duplicates, [], snapshot.cursorRevision, None)))
        else
          assert PendingStored(Draft(s.observations, s.groups, s.creation, s.binding.pendingWake));
          Ok(Commit(s, snapshot, page, items, duplicates, now, names))
  }

  function Commit(s: Source, snapshot: Snapshot, page: Page, items: seq<Item>, duplicates: nat, now: Time, names: Names): (Source, Ingested)
    requires |items| <= |names.events| && |items| <= |names.wakes| && |items| <= |names.markers|
    requires s.binding.pendingWake.Some? ==> s.binding.pendingWake.value in s.groups
  {
    var d := PlaceAll(Draft(s.observations, s.groups, s.creation, s.binding.pendingWake), items, names, page.observedAt, now);
    var receipt := Receipt(
      names.receipt, s.binding.latestReceipt, snapshot.cursor, page.nextCursor,
      snapshot.cursorRevision, snapshot.cursorRevision + 1, snapshot.revision,
      page.observedAt, now, |page.items|, |items|, duplicates);
    var binding := s.binding.(
      cursor := page.nextCursor, cursorRevision := snapshot.cursorRevision + 1, latestReceipt := Some(names.receipt),
      pendingWake := d.pending, revision := snapshot.revision + 1, updatedAt := now);
    (Source(binding, s.receipts + [receipt], d.observations, d.groups, d.creation, s.cycles),
     Ingested(names.events[..|items|], duplicates, Touched(d.observations[|s.observations|..]),
              snapshot.cursorRevision + 1, Some(names.receipt)))
  }

  // ---- The other steps on a source ----

  /** A claim seals the group's scope, then takes it into a cycle of its own. */
  function Claim(s: Source, w: Id, cycle: Id, now: Time): Result<Source, Refusal> {
    if w !in s.groups || s.groups[w].stage != Pending then Err(NotPending)
    else
      var g := s.groups[w];
      if !GroupValid(s.binding.pendingWake, s.observations, s.cycles, w, g) then Err(Corrupt)
      else if g.sealedAt.Some? && now < g.sealedAt.value then Err(ClockBeforeBinding)
      else if g.sealedAt.None? && now < Max(g.createdAt, s.binding.updatedAt) then Err(ClockBeforeBinding)
      else
        var binding :=
          if g.sealedAt.Some? then s.binding
          else s.binding.(pendingWake := None, revision := s.binding.revision + 1, updatedAt := now);
        var claimed := g.(
          sealedAt := if g.sealedAt.Some? then g.sealedAt else Some(now),
          stage := Claimed, claimedAt := Some(now), cycle := Some(cycle), revision := g.revision + 1);
        Ok(s.(binding := binding, groups := s.groups[w := claimed], cycles := s.cycles[cycle := CycleRow(now, None)]))
  }

  /** Ending the cycle consumes the claimed group. */
  function Finish(s: Source, cycle: Id, now: Time): Source
    requires cycle in s.cycles
  {
    if s.cycles[cycle].completedAt.Some? then s
    else
      s.(cycles := s.cycles[cycle := s.cycles[cycle].(completedAt := Some(now))],
         groups := map w | w in s.groups ::
           if s.groups[w].cycle == Some(cycle) && s.groups[w].stage == Claimed
           then s.groups[w].(stage := Consumed, consumedAt := Some(now), revision := s.groups[w].revision + 1)
           else s.groups[w])
  }

  function SetEnabled(s: Source, enabled: bool, now: Time, expected: Option<nat>): Result<Source, Refusal> {
    if expected.Some? && s.binding.revision != expected.value then Err(RevisionChanged)
    else if now < s.binding.createdAt || now < s.binding.updatedAt then Err(ClockBeforeBinding)
    else Ok(s.(binding := s.binding.(enabled := enabled, revision := s.binding.revision + 1, updatedAt := now)))
  }

  function Create(enabled: bool, now: Time): Source {
    Source(Binding(enabled, None, 0, 1, None, None, now, now), [], [], map[], [], map[])
  }

  // ---- Runs ----

  datatype Action =
    | PersistPage(epoch: Epoch, snapshot: Snapshot, page: Page, now: Time, names: Names)
    | ClaimGroup(wake: Id, cycle: Id, now: Time)
    | FinishCycle(cycle: Id, now: Time)
    | Enable(enabled: bool, now: Time, expected: Option<nat>)

  /** Generated identities are new. */
  ghost predicate Fresh(s: Source, names: Names, count: nat) {
    && count <= |names.events| && count <= |names.wakes| && count <= |names.markers|
    && Distinct(names.events) && Distinct(names.wakes)
    && (forall r :: r in s.receipts ==> r.id != names.receipt)
    && (forall o :: o in s.observations ==> o.id !in names.events && o.receipt != names.receipt)
    && (forall w :: w in names.wakes ==> w !in s.groups && w !in s.creation && forall o :: o in s.observations ==> o.group != w)
  }

  ghost predicate Enabled(s: Source, a: Action) {
    match a
    case PersistPage(_, _, page, _, names) => Fresh(s, names, |page.items|)
    case ClaimGroup(_, cycle, _) => cycle !in s.cycles && forall w :: w in s.groups ==> s.groups[w].cycle != Some(cycle)
    case FinishCycle(cycle, now) => cycle in s.cycles && s.cycles[cycle].startedAt <= now
    case Enable(_, _, _) => true
  }

  /** One committed transaction; a refused one changes nothing. */
  ghost function Step(s: Source, a: Action): Source {
    if !Enabled(s, a) then s
    else match a
      case PersistPage(epoch, snapshot, page, now, names) =>
        (match Persist(s, epoch, snapshot, page, now, names) case Ok(r) => r.0 case Err(_) => s)
      case ClaimGroup(w, cycle, now) => (match Claim(s, w, cycle, now) case Ok(r) => r case Err(_) => s)
      case FinishCycle(cycle, now) => Finish(s, cycle, now)
      case Enable(enabled, now, expected) => (match SetEnabled(s, enabled, now, expected) case Ok(r) => r case Err(_) => s)
  }

  ghost function Run(s: Source, actions: seq<Action>): Source {
    if actions == [] then s else Step(Run(s, actions[..|actions| - 1]), actions[|actions| - 1])
  }
}
