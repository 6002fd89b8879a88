/** One source's rows, updated in place by the ingestion transactions. */
module IngestionStore {
  import opened Common
  import opened Deduplication
  import I = Ingestion
  import opened Ingestion

  class Connector {
    var binding: Binding
    var receipts: seq<Receipt>
    var observations: seq<Observation>
    var groups: map<Id, Group>
    var creation: seq<Id>
    var cycles: map<Id, CycleRow>

    constructor (enabled: bool, now: Time)
      ensures Rows() == Create(enabled, now)
    {
      binding := Binding(enabled, None, 0, 1, None, None, now, now);
      receipts, observations, groups, creation, cycles := [], [], map[], [], map[];
    }

    function Rows(): Source
      reads this
    {
      Source(binding, receipts, observations, groups, creation, cycles)
    }

    /** Writes the new items of a page, opening and sealing groups as they fill up. */
    method WriteItems(items: seq<Item>, names: Names, observedAt: Time, now: Time)
      returns (pending: Option<Id>, added: seq<Observation>, wakes: seq<Id>)
      requires |items| <= |names.events| && |items| <= |names.wakes| && |items| <= |names.markers|
      requires binding.pendingWake.Some? ==> binding.pendingWake.value in groups
      modifies `groups, `creation
      ensures Draft(observations + added, groups, creation, pending)
           == PlaceAll(old(Draft(observations, groups, creation, binding.pendingWake)), items, names, observedAt, now)
      ensures wakes == Touched(added)
    {
      hide Place, PlaceAll, Touched;
      pending, added, wakes := binding.pendingWake, [], [];
      ghost var d := Draft(observations, groups, creation, pending);
      NothingPlaced(d, names, observedAt, now);
      for i := 0 to |items|
        invariant pending.Some? ==> pending.value in groups
        invariant Draft(observations + added, groups, creation, pending) == PlaceAll(d, items[..i], names, observedAt, now)
        invariant wakes == Touched(added)
      {
        ghost var before := Draft(observations + added, groups, creation, pending);
        PlaceNext(d, items, i, names, observedAt, now);
        if pending.None? {
          var w := names.wakes[i];
          groups, creation := groups[w := NewGroup(names.markers[i], now)], creation + [w];
          pending := Some(w);
        }
        var w := pending.value;
        var o := Observation(names.events[i], items[i], w, names.receipt, observedAt, now);
        TouchedNext(added, o);
        if w !in wakes {
          wakes := wakes + [w];
        }
        ghost var group := groups[w];
        assert observations + (added + [o]) == (observations + added) + [o];
        added := added + [o];
        var g := groups[w].(refs := groups[w].refs + [names.events[i]], revision := groups[w].revision + 1);
        if |g.refs| == MAX_INBOUND_REFS {
          g := g.(sealedAt := Some(now));
          pending := None;
        }
        assert g == Joined(group, names.events[i], now);
        PlacedAs(before, items[i], i, names, observedAt, now, w, g);
        groups := groups[w := g];
      }
      assert items[..|items|] == items;
    }

    /** Preflights the whole page, then writes it; a refusal writes nothing. */
    method PersistPage(epoch: Epoch, snapshot: Snapshot, page: Page, now: Time, names: Names)
      returns (result: Result<Ingested, Refusal>)
      requires |page.items| <= |names.events| && |page.items| <= |names.wakes| && |page.items| <= |names.markers|
      modifies this
      ensures match Persist(old(Rows()), epoch, snapshot, page, now, names)
        case Ok(r) => Rows() == r.0 && result == Ok(r.1)
        case Err(refusal) => Rows() == old(Rows()) && result == Err(refusal)
    {
      hide Admission, Screen, Known, PlaceAll, Touched, StoredItems;
      var refusal := Admission(Rows(), epoch, snapshot, page, now);
      if refusal.Some? {
        return Err(refusal.value);
      }
      var screened := ScreenPage(Known(StoredItems(observations)), page.items);
      if screened.Conflict? {
        return Err(ConflictingIdentity);
      }
      if screened.novel == [] && page.nextCursor == snapshot.cursor {
        return Ok(Ingested([], screened.duplicates, [], snapshot.cursorRevision, None));
      }
      var pending, added, wakes := WriteItems(screened.novel, names, page.observedAt, now);
      assert (observations + added)[|observations|..] == added;
      receipts := receipts + [Receipt(
        names.receipt, binding.latestReceipt, snapshot.cursor, page.nextCursor,
        snapshot.cursorRevision, snapshot.cursorRevision + 1, snapshot.revision,
        page.observedAt, now, |page.items|, |screened.novel|, screened.duplicates)];
      observations := observations + added;
      binding := binding.(
        cursor := page.nextCursor, cursorRevision := snapshot.cursorRevision + 1, latestReceipt := Some(names.receipt),
        pendingWake := pending, revision := snapshot.revision + 1, updatedAt := now);
      result := Ok(Ingested(names.events[..|screened.novel|], screened.duplicates, wakes, snapshot.cursorRevision + 1, Some(names.receipt)));
    }

    method Claim(w: Id, cycle: Id, now: Time) returns (refusal: Option<Refusal>)
      modifies this
      ensures match I.Claim(old(Rows()), w, cycle, now)
        case Ok(s) => Rows() == s && refusal.None?
        case Err(e) => Rows() == old(Rows()) && refusal == Some(e)
    {
      if w !in groups || groups[w].stage != Pending {
        return Some(NotPending);
      }
      var g := groups[w];
      if !GroupValid(binding.pendingWake, observations, cycles, w, g) {
        return Some(Corrupt);
      }
      if g.sealedAt.Some? {
        if now < g.sealedAt.value {
          return Some(ClockBeforeBinding);
        }
      } else {
        if now < Max(g.createdAt, binding.updatedAt) {
          return Some(ClockBeforeBinding);
        }
        g := g.(sealedAt := Some(now));
        binding := binding.(pendingWake := None, revision := binding.revision + 1, updatedAt := now);
      }
      groups := groups[w := g.(stage := Claimed, claimedAt := Some(now), cycle := Some(cycle), revision := g.revision + 1)];
      cycles := cycles[cycle := CycleRow(now, None)];
      refusal := None;
    }

    method Finish(cycle: Id, now: Time)
      requires cycle in cycles
      modifies `groups, `cycles
      ensures Rows() == I.Finish(old(Rows()), cycle, now)
    {
      if cycles[cycle].completedAt.Some? {
        return;
      }
      ghost var after := I.Finish(Rows(), cycle, now);
      FinishedGroups(Rows(), cycle, now);
      cycles := cycles[cycle := cycles[cycle].(completedAt := Some(now))];
      ConsumeGroups(cycle, now, after.groups);
    }

    /** Consumes the groups claimed by the cycle, one after another. */
    method ConsumeGroups(cycle: Id, now: Time, ghost after: map<Id, Group>)
      requires groups.Keys == after.Keys
      requires forall w :: w in groups ==> after[w] == if ClaimedBy(groups[w], cycle) then Consume(groups[w], now) else groups[w]
      modifies `groups
      ensures groups == after
    {
      var rest := set w | w in groups && ClaimedBy(groups[w], cycle);
      ghost var before := groups;
      while rest != {}
        invariant groups.Keys == before.Keys && rest <= before.Keys
        invariant forall w :: w in rest ==> groups[w] == before[w] && ClaimedBy(before[w], cycle)
        invariant forall w :: w in groups && w !in rest ==> groups[w] == after[w]
        decreases rest
      {
        var w :| w in rest;
        groups := groups[w := Consume(groups[w], now)];
        rest := rest - {w};
      }
    }

    method SetEnabled(enabled: bool, now: Time, expected: Option<nat>) returns (refusal: Option<Refusal>)
      modifies `binding
      ensures match I.SetEnabled(old(Rows()), enabled, now, expected)
        case Ok(s) => Rows() == s && refusal.None?
        case Err(e) => Rows() == old(Rows()) && refusal == Some(e)
    {
      if expected.Some? && binding.revision != expected.value {
        return Some(RevisionChanged);
      }
      if now < binding.createdAt || now < binding.updatedAt {
        return Some(ClockBeforeBinding);
      }
      binding := binding.(enabled := enabled, revision := binding.revision + 1, updatedAt := now);
      refusal := None;
    }
  }

  predicate ClaimedBy(group: Group, cycle: Id) {
    group.cycle == Some(cycle) && group.stage == Claimed
  }

  function Consume(group: Group, now: Time): Group {
    group.(stage := Consumed, consumedAt := Some(now), revision := group.revision + 1)
  }

  /** Exactly the groups claimed by the cycle are consumed. */
  lemma FinishedGroups(s: Source, cycle: Id, now: Time)
    requires cycle in s.cycles && s.cycles[cycle].completedAt.None?
    ensures var after := I.Finish(s, cycle, now);
      && after == s.(cycles := s.cycles[cycle := s.cycles[cycle].(completedAt := Some(now))], groups := after.groups)
      && after.groups.Keys == s.groups.Keys
      && forall w: Id :: w in s.groups ==>
           after.groups[w] == if ClaimedBy(s.groups[w], cycle) then Consume(s.groups[w], now) else s.groups[w]
  {
  }

  // ---- One item at a time ----

  lemma NothingPlaced(d: Draft, names: Names, observedAt: Time, now: Time)
    requires PendingStored(d)
    ensures PlaceAll(d, [], names, observedAt, now) == d && Touched([]) == []
  {
  }

  lemma PlaceNext(d: Draft, items: seq<Item>, i: nat, names: Names, observedAt: Time, now: Time)
    requires PendingStored(d) && i < |items| && |items| <= |names.events| && |items| <= |names.wakes| && |items| <= |names.markers|
    ensures PlaceAll(d, items[..i + 1], names, observedAt, now)
         == Place(PlaceAll(d, items[..i], names, observedAt, now), items[i], i, names, observedAt, now)
  {
    hide Place;
    assert items[..i + 1][..i] == items[..i];
  }

  lemma TouchedNext(added: seq<Observation>, o: Observation)
    ensures Touched(added + [o]) == if o.group in Touched(added) then Touched(added) else Touched(added) + [o.group]
  {
    assert (added + [o])[..|added|] == added;
  }

  /** Placing an item in the open group, or in a new one that is opened for it; a full group is closed. */
  lemma PlacedAs(d: Draft, item: Item, k: nat, names: Names, observedAt: Time, now: Time, w: Id, g: Group)
    requires k < |names.events| && k < |names.wakes| && k < |names.markers| && PendingStored(d)
    requires w == if d.pending.Some? then d.pending.value else names.wakes[k]
    requires g == Joined(if d.pending.Some? then d.groups[w] else NewGroup(names.markers[k], now), names.events[k], now)
    ensures Place(d, item, k, names, observedAt, now) == Draft(
              d.observations + [Observation(names.events[k], item, w, names.receipt, observedAt, now)],
              d.groups[w := g],
              if d.pending.Some? then d.creation else d.creation + [w],
              if |g.refs| == MAX_INBOUND_REFS then None else Some(w))
    ensures d.groups[w := NewGroup(names.markers[k], now)][w := g] == d.groups[w := g]
  {
    hide Joined;
  }
}
