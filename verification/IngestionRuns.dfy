/** What ingestion promises over pages and whole runs: first occurrences, idempotence, groups that split history. */
module IngestionRuns {
  import opened Common
  import opened Deduplication
  import opened Ingestion
  import opened IngestionInvariant

  // ---- One page ----

  /** A reachable source refuses a page only for its clock, its snapshot or a contradicted identity. */
  lemma RefusedExactlyWhen(s: Source, epoch: Epoch, snapshot: Snapshot, page: Page, now: Time, names: Names)
    requires Inv(s) && Fresh(s, names, |page.items|)
    ensures Persist(s, epoch, snapshot, page, now, names).Ok? <==>
      && now >= page.observedAt && now >= s.binding.updatedAt && page.observedAt >= s.binding.createdAt
      && snapshot == Current(s.binding, epoch) && s.binding.enabled && epoch.active
      && Agree(StoredItems(s.observations) + page.items)
    ensures Persist(s, epoch, snapshot, page, now, names) != Err(Corrupt)
  {
    hide Inv, OpenAgrees, CheckpointAgrees, Commit, Agree, Screen, Known, Extends, KeysDistinct;
    StoredFacts(s);
    ScreenMeaning(StoredItems(s.observations), page.items);
  }

  /** What an accepted page stores, and what it reports. */
  lemma PageOutcome(s: Source, epoch: Epoch, snapshot: Snapshot, page: Page, now: Time, names: Names)
    requires Inv(s) && Fresh(s, names, |page.items|) && Persist(s, epoch, snapshot, page, now, names).Ok?
    ensures var (s', report) := Persist(s, epoch, snapshot, page, now, names).value;
      && StoredItems(s'.observations) == FirstOf(StoredItems(s.observations) + page.items)
      && |report.created| + report.duplicates == |page.items|
      && |s'.observations| == |s.observations| + |report.created|
      && s'.binding.cursor == page.nextCursor
      && (s' == s <==> report.receipt.None?)
      && (report.receipt.None? <==> report.created == [] && page.nextCursor == s.binding.cursor)
  {
    hide Inv, OpenAgrees, CheckpointAgrees, Admitted;
    var stored := StoredItems(s.observations);
    StoredFacts(s);
    ScreenMeaning(stored, page.items);
    PersistAdmits(s, epoch, snapshot, page, now, names);
    var result := Screen(Known(stored), page.items);
    if result.novel != [] || page.nextCursor != snapshot.cursor {
      CommitKeepsInv(s, snapshot, page, result.novel, result.duplicates, now, names);
      var s' := Commit(s, snapshot, page, result.novel, result.duplicates, now, names).0;
      assert |s'.observations| == |StoredItems(s'.observations)| == |s.observations| + |result.novel|;
      assert |s'.receipts| == |s.receipts| + 1;
    }
  }

  /** Ingesting again what is already stored adds no observation, whatever the order or overlap. */
  lemma SeenPageAddsNothing(s: Source, epoch: Epoch, snapshot: Snapshot, page: Page, now: Time, names: Names)
    requires Inv(s) && Fresh(s, names, |page.items|) && Persist(s, epoch, snapshot, page, now, names).Ok?
    requires forall x :: x in page.items ==> x.key in Keys(StoredItems(s.observations))
    ensures var (s', report) := Persist(s, epoch, snapshot, page, now, names).value;
      && report.created == [] && report.duplicates == |page.items|
      && |s'.observations| == |s.observations|
      && (page.nextCursor == s.binding.cursor ==> s' == s)
  {
    hide Inv, Persist;
    PageOutcome(s, epoch, snapshot, page, now, names);
    StoredFacts(s);
    KnownAddNothing(StoredItems(s.observations), page.items);
    assert |FirstOf(StoredItems(s.observations) + page.items)| == |s.observations|;
  }

  lemma {:induction false} KnownAddNothing(stored: seq<Item>, items: seq<Item>)
    requires FirstOf(stored) == stored
    requires forall x :: x in items ==> x.key in Keys(stored)
    ensures FirstOf(stored + items) == stored
    decreases |items|
  {
    hide FirstOf;
    if items == [] {
      assert stored + items == stored;
    } else {
      var front, last := items[..|items| - 1], items[|items| - 1];
      KnownAddNothing(stored, front);
      assert stored + items == (stored + front) + [last];
      var y :| y in stored && y.key == last.key;
      assert y in stored + front;
      FirstOfAppend(stored + front, last);
    }
  }

  // ---- Whole runs ----

  /** The items of all accepted pages, in order of acceptance. */
  ghost function Accepted(s: Source, actions: seq<Action>): seq<Item> {
    if actions == [] then []
    else
      var front, last := actions[..|actions| - 1], actions[|actions| - 1];
      Accepted(s, front) + Contribution(Run(s, front), last)
  }

  ghost function Contribution(s: Source, a: Action): seq<Item> {
    if a.PersistPage? && Enabled(s, a) && Persist(s, a.epoch, a.snapshot, a.page, a.now, a.names).Ok? then a.page.items else []
  }

  lemma StepStores(s: Source, a: Action)
    requires Inv(s)
    ensures StoredItems(Step(s, a).observations) == FirstOf(StoredItems(s.observations) + Contribution(s, a))
    ensures Agree(StoredItems(s.observations) + Contribution(s, a))
  {
    hide Inv, Persist, Agree, FirstOf;
    StoredFacts(s);
    assert StoredItems(s.observations) + [] == StoredItems(s.observations);
    if a.PersistPage? && Enabled(s, a) {
      PageStores(s, a);
    }
  }

  lemma PageStores(s: Source, a: Action)
    requires Inv(s) && a.PersistPage? && Enabled(s, a)
    ensures StoredItems(Step(s, a).observations) == FirstOf(StoredItems(s.observations) + Contribution(s, a))
    ensures Agree(StoredItems(s.observations) + Contribution(s, a))
  {
    hide Inv, Persist, Agree, FirstOf;
    StoredFacts(s);
    assert StoredItems(s.observations) + [] == StoredItems(s.observations);
    if Persist(s, a.epoch, a.snapshot, a.page, a.now, a.names).Ok? {
      RefusedExactlyWhen(s, a.epoch, a.snapshot, a.page, a.now, a.names);
      PageOutcome(s, a.epoch, a.snapshot, a.page, a.now, a.names);
    }
  }

  /**
   * However pages repeat and overlap, and whatever happens to the source in between, the store
   * holds exactly the first occurrence of each key among all accepted items, in order.
   */
  lemma {:induction false} RunStoresFirstOccurrences(enabled: bool, created: Time, actions: seq<Action>)
    ensures var s := Create(enabled, created);
      && StoredItems(Run(s, actions).observations) == FirstOf(Accepted(s, actions))
      && Agree(Accepted(s, actions))
  {
    hide Inv, Step, Contribution, Agree, FirstOf;
    var s := Create(enabled, created);
    if actions == [] {
      NothingStored();
    } else {
      var front, last := actions[..|actions| - 1], actions[|actions| - 1];
      RunStoresFirstOccurrences(enabled, created, front);
      RunKeepsInv(enabled, created, front);
      StepStores(Run(s, front), last);
      FirstOfPages(Accepted(s, front), Contribution(Run(s, front), last));
      AgreePages(Accepted(s, front), Contribution(Run(s, front), last));
    }
  }

  lemma NothingStored()
    ensures FirstOf([]) == [] && Agree([])
  {
  }

  /** In every run the groups, in creation order, split the observation sequence into pieces of one to eight. */
  lemma GroupsSplitHistory(enabled: bool, created: Time, actions: seq<Action>)
    ensures var s := Run(Create(enabled, created), actions);
      && Concat(s.groups, s.creation) == Identities(s.observations)
      && Distinct(s.creation) && Elements(s.creation) == s.groups.Keys
      && (forall w :: w in s.groups ==> 1 <= |s.groups[w].refs| <= MAX_INBOUND_REFS)
      && (forall i :: 0 <= i < |s.creation| - 1 ==> s.creation[i] in s.groups && s.groups[s.creation[i]].sealedAt.Some?)
      && (forall v, w :: v in OpenGroups(s.groups) && w in OpenGroups(s.groups) ==> v == w)
  {
    RunKeepsInv(enabled, created, actions);
    var s := Run(Create(enabled, created), actions);
    hide Run, ChainOk, CountsOk, TimesOk, IsolatedOk;
    forall w | w in s.groups
      ensures 1 <= |s.groups[w].refs| <= MAX_INBOUND_REFS
      ensures s.groups[w].sealedAt.None? ==> s.binding.pendingWake == Some(w)
    {
      assert GroupValid(s.binding.pendingWake, s.observations, s.cycles, w, s.groups[w]);
    }
    forall i | 0 <= i < |s.creation| - 1
      ensures s.creation[i] in s.groups && s.groups[s.creation[i]].sealedAt.Some?
    {
      assert s.creation[i] in Elements(s.creation);
      assert s.creation[i] != s.creation[|s.creation| - 1];
    }
  }

  // ---- A claimed scope never grows ----

  /** Groups only grow while open: a sealed scope is final, an earlier member stays in place. */
  ghost predicate ScopesGrow(before: map<Id, Group>, after: map<Id, Group>) {
    forall w :: w in before ==>
      && w in after && before[w].refs <= after[w].refs
      && (before[w].sealedAt.Some? ==> after[w].refs == before[w].refs && after[w].sealedAt == before[w].sealedAt)
  }

  lemma {:induction false} PlaceAllGrows(d: Draft, items: seq<Item>, names: Names, observedAt: Time, now: Time, cycles: map<Id, CycleRow>)
    requires DraftOk(d, cycles, now) && PendingStored(d)
    requires |items| <= |names.events| && |items| <= |names.wakes| && |items| <= |names.markers|
    requires Distinct(names.wakes) && (forall w :: w in names.wakes ==> w !in d.groups)
    ensures ScopesGrow(d.groups, PlaceAll(d, items, names, observedAt, now).groups)
  {
    if items != [] {
      var n := |items| - 1;
      PlaceAllGrows(d, items[..n], names, observedAt, now, cycles);
      PlaceAllOk(d, cycles, items[..n], names, observedAt, now);
      var d1 := PlaceAll(d, items[..n], names, observedAt, now);
      NextNameIsNew(d.groups.Keys, d1.groups.Keys, names.wakes, n);
      PlaceGrows(d1, items[n], n, names, observedAt, now, cycles);
    }
  }

  lemma PlaceGrows(d: Draft, item: Item, k: nat, names: Names, observedAt: Time, now: Time, cycles: map<Id, CycleRow>)
    requires DraftOk(d, cycles, now) && PendingStored(d)
    requires k < |names.events| && k < |names.wakes| && k < |names.markers| && names.wakes[k] !in d.groups
    ensures ScopesGrow(d.groups, Place(d, item, k, names, observedAt, now).groups)
  {
  }

  lemma PersistGrowsScopes(s: Source, epoch: Epoch, snapshot: Snapshot, page: Page, now: Time, names: Names)
    requires Inv(s) && Fresh(s, names, |page.items|) && Persist(s, epoch, snapshot, page, now, names).Ok?
    ensures ScopesGrow(s.groups, Persist(s, epoch, snapshot, page, now, names).value.0.groups)
  {
    StoredFacts(s);
    RefusedExactlyWhen(s, epoch, snapshot, page, now, names);
    hide CountsOk, ChainOk, GroupsOk, OrderOk, IsolatedOk, TimesOk, OpenAgrees, CheckpointAgrees, Screen, Known, ScopesGrow, PlaceAll;
    var result := Screen(Known(StoredItems(s.observations)), page.items);
    Unchanged(s.groups);
    if result.novel != [] || page.nextCursor != snapshot.cursor {
      var d := Draft(s.observations, s.groups, s.creation, s.binding.pendingWake);
      PlaceAllGrows(d, result.novel, names, page.observedAt, now, s.cycles) by {
        LaterTimesOk(s.observations, s.groups, s.binding.updatedAt, now);
      }
    }
  }

  lemma LaterTimesOk(observations: seq<Observation>, groups: map<Id, Group>, earlier: Time, now: Time)
    requires TimesOk(observations, groups, earlier) && earlier <= now
    ensures TimesOk(observations, groups, now)
  {
  }

  lemma Unchanged(groups: map<Id, Group>)
    ensures ScopesGrow(groups, groups)
  {
  }

  /** Whatever happens, what a claim has sealed stays exactly what it was. */
  lemma StepGrowsScopes(s: Source, a: Action)
    requires Inv(s)
    ensures ScopesGrow(s.groups, Step(s, a).groups)
  {
    hide Inv, Persist;
    Unchanged(s.groups);
    if Enabled(s, a) && a.PersistPage? && Persist(s, a.epoch, a.snapshot, a.page, a.now, a.names).Ok? {
      PersistGrowsScopes(s, a.epoch, a.snapshot, a.page, a.now, a.names);
    }
  }

  lemma ScopesGrowTrans(a: map<Id, Group>, b: map<Id, Group>, c: map<Id, Group>)
    requires ScopesGrow(a, b) && ScopesGrow(b, c)
    ensures ScopesGrow(a, c)
  {
  }

  lemma {:induction false} RunGrowsScopes(enabled: bool, created: Time, actions: seq<Action>, i: nat)
    requires i <= |actions|
    ensures ScopesGrow(Run(Create(enabled, created), actions[..i]).groups, Run(Create(enabled, created), actions).groups)
  {
    hide Inv, Step, ScopesGrow;
    var s := Create(enabled, created);
    if i == |actions| {
      assert actions[..i] == actions;
      Unchanged(Run(s, actions).groups);
    } else {
      var front := actions[..|actions| - 1];
      assert front[..i] == actions[..i];
      RunGrowsScopes(enabled, created, front, i);
      RunKeepsInv(enabled, created, front);
      StepGrowsScopes(Run(s, front), actions[|actions| - 1]);
      ScopesGrowTrans(Run(s, actions[..i]).groups, Run(s, front).groups, Run(s, actions).groups);
    }
  }
}
