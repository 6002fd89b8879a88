/** What the inspector demands of one source's rows, and that every step keeps it. */
module IngestionInvariant {
  import opened Common
  import opened Deduplication
  import opened Ingestion

  // ---- The receipt chain ----

  /** Receipts carry revisions 1..n, each continuing where the previous one stopped. */
  ghost predicate ReceiptOk(b: Binding, receipts: seq<Receipt>, i: nat)
    requires i < |receipts|
  {
    var r := receipts[i];
    && r.beforeRevision == i && r.afterRevision == i + 1
    && (if i == 0 then r.previous.None? && r.beforeCursor.None? else Precedes(receipts[i - 1], r))
    && b.createdAt <= r.observedAt <= r.recordedAt <= b.updatedAt
    && r.authorizingRevision < b.revision
    && r.itemCount == r.newCount + r.duplicateCount
    && (r.newCount == 0 ==> r.beforeCursor != r.afterCursor)
  }

  ghost predicate ChainOk(b: Binding, receipts: seq<Receipt>) {
    && (forall i :: 0 <= i < |receipts| ==> ReceiptOk(b, receipts, i))
    && b.cursorRevision == |receipts|
    && (if receipts == [] then b.cursor.None? && b.latestReceipt.None?
        else b.cursor == receipts[|receipts| - 1].afterCursor && b.latestReceipt == Some(receipts[|receipts| - 1].id))
    && b.createdAt <= b.updatedAt && b.revision >= 1
  }

  function CountFor(observations: seq<Observation>, receipt: Id): nat {
    if observations == [] then 0
    else CountFor(observations[..|observations| - 1], receipt) + if observations[|observations| - 1].receipt == receipt then 1 else 0
  }

  ghost predicate FromReceipt(receipts: seq<Receipt>, o: Observation) {
    exists r :: r in receipts && r.id == o.receipt && r.observedAt == o.observedAt && r.recordedAt == o.recordedAt
  }

  /** Every observation belongs to a receipt, and every receipt counts exactly its observations. */
  ghost predicate CountsOk(receipts: seq<Receipt>, observations: seq<Observation>) {
    && (forall o :: o in observations ==> FromReceipt(receipts, o))
    && (forall r :: r in receipts ==> CountFor(observations, r.id) == r.newCount)
  }

  // ---- Groups ----

  function Concat(groups: map<Id, Group>, creation: seq<Id>): seq<Id> {
    if creation == [] then []
    else
      var w := creation[|creation| - 1];
      Concat(groups, creation[..|creation| - 1]) + if w in groups then groups[w].refs else []
  }

  function Identities(observations: seq<Observation>): seq<Id> {
    seq(|observations|, i requires 0 <= i < |observations| => observations[i].id)
  }

  /** Every group passes its validation, and an open one is the one the binding points to. */
  ghost predicate GroupsOk(pending: Option<Id>, observations: seq<Observation>, cycles: map<Id, CycleRow>, groups: map<Id, Group>) {
    && (forall w :: w in groups ==> GroupValid(pending, observations, cycles, w, groups[w]))
    && (forall o :: o in observations ==> o.group in groups)
    && (pending.Some? ==> pending.value in groups && groups[pending.value].sealedAt.None?)
  }

  /** The groups, in creation order, split the observation sequence. */
  ghost predicate OrderOk(pending: Option<Id>, observations: seq<Observation>, groups: map<Id, Group>, creation: seq<Id>) {
    && Concat(groups, creation) == Identities(observations)
    && Distinct(creation) && Elements(creation) == groups.Keys
    && (pending.Some? ==> creation != [] && creation[|creation| - 1] == pending.value)
  }

  ghost predicate TimesOk(observations: seq<Observation>, groups: map<Id, Group>, now: Time) {
    && (forall o :: o in observations ==> o.recordedAt <= now)
    && (forall w :: w in groups ==> groups[w].createdAt <= now)
  }

  /** No two groups share a cycle. */
  ghost predicate IsolatedOk(groups: map<Id, Group>) {
    forall v, w :: v in groups && w in groups && groups[v].cycle.Some? && groups[v].cycle == groups[w].cycle ==> v == w
  }

  ghost predicate Inv(s: Source) {
    && ChainOk(s.binding, s.receipts)
    && CountsOk(s.receipts, s.observations)
    && KeysDistinct(StoredItems(s.observations)) && Distinct(Identities(s.observations))
    && GroupsOk(s.binding.pendingWake, s.observations, s.cycles, s.groups)
    && OrderOk(s.binding.pendingWake, s.observations, s.groups, s.creation)
    && TimesOk(s.observations, s.groups, s.binding.updatedAt)
    && IsolatedOk(s.groups)
  }

  // ---- The writers' validation accepts what the inspector accepts ----

  lemma CheckpointAccepted(b: Binding, receipts: seq<Receipt>)
    requires ChainOk(b, receipts)
    ensures CheckpointAgrees(b, receipts)
  {
    if receipts != [] {
      var n := |receipts| - 1;
      assert ReceiptOk(b, receipts, n);
      if n > 0 {
        assert receipts[n - 1] in receipts;
      }
    }
  }

  lemma OpenAccepted(s: Source)
    requires GroupsOk(s.binding.pendingWake, s.observations, s.cycles, s.groups)
    ensures OpenAgrees(s)
  {
    var pending := s.binding.pendingWake;
    forall w | w in OpenGroups(s.groups)
      ensures pending == Some(w)
    {
      assert GroupValid(pending, s.observations, s.cycles, w, s.groups[w]);
    }
  }

  // ---- One new item ----

  ghost predicate DraftOk(d: Draft, cycles: map<Id, CycleRow>, now: Time) {
    && GroupsOk(d.pending, d.observations, cycles, d.groups)
    && OrderOk(d.pending, d.observations, d.groups, d.creation)
    && TimesOk(d.observations, d.groups, now)
    && IsolatedOk(d.groups)
  }

  lemma {:induction false} MembersNone(observations: seq<Observation>, w: Id)
    requires forall o :: o in observations ==> o.group != w
    ensures Members(observations, w) == []
  {
    if observations != [] {
      MembersNone(observations[..|observations| - 1], w);
      assert observations[|observations| - 1] in observations;
    }
  }

  lemma MembersAppend(observations: seq<Observation>, o: Observation, w: Id)
    ensures Members(observations + [o], w) == Members(observations, w) + if o.group == w then [o.id] else []
  {
    assert (observations + [o])[..|observations|] == observations;
  }

  lemma {:induction false} ConcatFrame(groups: map<Id, Group>, creation: seq<Id>, w: Id, g: Group)
    requires w !in creation
    ensures Concat(groups[w := g], creation) == Concat(groups, creation)
  {
    if creation != [] {
      ConcatFrame(groups, creation[..|creation| - 1], w, g);
      assert creation[|creation| - 1] != w;
    }
  }

  lemma ConcatAppend(groups: map<Id, Group>, creation: seq<Id>, w: Id)
    requires w in groups
    ensures Concat(groups, creation + [w]) == Concat(groups, creation) + groups[w].refs
  {
    assert (creation + [w])[..|creation|] == creation;
  }

  /** The group a new item joins: the open one, or one just created. */
  predicate Target(d: Draft, w: Id, before: Group, now: Time) {
    if d.pending.Some? then w == d.pending.value && w in d.groups && before == d.groups[w]
    else
      && w !in d.groups && w !in d.creation && before.refs == [] && before.sealedAt.None? && before.createdAt <= now
      && before.stage == Pending && before.cycle.None?
  }

  lemma PlaceKeepsGroups(d: Draft, d': Draft, cycles: map<Id, CycleRow>, w: Id, before: Group, o: Observation, now: Time)
    requires GroupsOk(d.pending, d.observations, cycles, d.groups) && TimesOk(d.observations, d.groups, now)
    requires Target(d, w, before, now) && LifecycleValid(before, cycles)
    requires o.group == w && o.recordedAt == now
    requires d'.observations == d.observations + [o] && d'.groups == d.groups[w := Joined(before, o.id, now)]
    requires d'.pending == if Joined(before, o.id, now).sealedAt.Some? then None else Some(w)
    ensures GroupsOk(d'.pending, d'.observations, cycles, d'.groups)
  {
    var g := Joined(before, o.id, now);
    MembersAppend(d.observations, o, w);
    if d.pending.None? {
      MembersNone(d.observations, w);
    } else {
      assert GroupValid(d.pending, d.observations, cycles, w, before);
    }
    forall x | x in d'.groups
      ensures GroupValid(d'.pending, d'.observations, cycles, x, d'.groups[x])
    {
      if x != w {
        assert GroupValid(d.pending, d.observations, cycles, x, d.groups[x]);
        MembersAppend(d.observations, o, x);
      }
    }
  }

  lemma PlaceKeepsOrder(d: Draft, d': Draft, w: Id, before: Group, o: Observation, now: Time)
    requires OrderOk(d.pending, d.observations, d.groups, d.creation) && Target(d, w, before, now)
    requires d'.observations == d.observations + [o] && d'.groups == d.groups[w := Joined(before, o.id, now)]
    requires d'.pending == None || d'.pending == Some(w)
    requires d'.creation == if d.pending.Some? then d.creation else d.creation + [w]
    ensures OrderOk(d'.pending, d'.observations, d'.groups, d'.creation)
  {
    hide OrderOk, Target, Joined;
    if d.pending.Some? {
      JoinKeepsOrder(d, d', w, before, o, now);
    } else {
      NewKeepsOrder(d, d', w, before, o, now);
    }
  }

  lemma IdentitiesAppend(observations: seq<Observation>, o: Observation)
    ensures Identities(observations + [o]) == Identities(observations) + [o.id]
  {
  }

  /** A member of the pending group, which is the last one created. */
  lemma JoinKeepsOrder(d: Draft, d': Draft, w: Id, before: Group, o: Observation, now: Time)
    requires OrderOk(d.pending, d.observations, d.groups, d.creation) && Target(d, w, before, now) && d.pending.Some?
    requires d'.observations == d.observations + [o] && d'.groups == d.groups[w := Joined(before, o.id, now)]
    requires d'.pending == None || d'.pending == Some(w)
    requires d'.creation == d.creation
    ensures OrderOk(d'.pending, d'.observations, d'.groups, d'.creation)
  {
    var front := d.creation[..|d.creation| - 1];
    assert d.creation == front + [w] && w !in front;
    IdentitiesAppend(d.observations, o);
    ConcatFrame(d.groups, front, w, Joined(before, o.id, now));
    ConcatAppend(d'.groups, front, w);
    ConcatAppend(d.groups, front, w);
    hide Concat, Identities;
    assert w in Elements(d.creation);
  }

  /** The first member of a new group. */
  lemma NewKeepsOrder(d: Draft, d': Draft, w: Id, before: Group, o: Observation, now: Time)
    requires OrderOk(d.pending, d.observations, d.groups, d.creation) && Target(d, w, before, now) && d.pending.None?
    requires d'.observations == d.observations + [o] && d'.groups == d.groups[w := Joined(before, o.id, now)]
    requires d'.pending == None || d'.pending == Some(w)
    requires d'.creation == d.creation + [w]
    ensures OrderOk(d'.pending, d'.observations, d'.groups, d'.creation)
  {
    assert w !in d.creation by { assert w !in Elements(d.creation); }
    IdentitiesAppend(d.observations, o);
    ConcatFrame(d.groups, d.creation, w, Joined(before, o.id, now));
    ConcatAppend(d'.groups, d.creation, w);
    hide Concat, Identities;
    assert Elements(d'.creation) == Elements(d.creation) + {w};
  }

  lemma PlaceOk(d: Draft, cycles: map<Id, CycleRow>, item: Item, k: nat, names: Names, observedAt: Time, now: Time)
    requires DraftOk(d, cycles, now)
    requires k < |names.events| && k < |names.wakes| && k < |names.markers|
    requires names.wakes[k] !in d.groups && names.wakes[k] !in d.creation
    ensures DraftOk(Place(d, item, k, names, observedAt, now), cycles, now)
  {
    hide GroupsOk, OrderOk;
    PendingIsStored(d, cycles);
    var d' := Place(d, item, k, names, observedAt, now);
    var w := if d.pending.Some? then d.pending.value else names.wakes[k];
    var before := if d.pending.Some? then d.groups[w] else NewGroup(names.markers[k], now);
    var o := d'.observations[|d.observations|];
    PlaceKeepsGroups(d, d', cycles, w, before, o, now);
    PlaceKeepsOrder(d, d', w, before, o, now);
  }

  lemma PendingIsStored(d: Draft, cycles: map<Id, CycleRow>)
    requires GroupsOk(d.pending, d.observations, cycles, d.groups)
    ensures PendingStored(d)
    ensures d.pending.Some? ==> var g := d.groups[d.pending.value]; LifecycleValid(g, cycles) && g.cycle.None? && g.sealedAt.None?
  {
    if d.pending.Some? {
      assert GroupValid(d.pending, d.observations, cycles, d.pending.value, d.groups[d.pending.value]);
    }
  }

  // ---- All new items of a page ----

  /** The observations added so far are the page's new items, in order, under the page's receipt. */
  ghost predicate Adds(before: seq<Observation>, after: seq<Observation>, items: seq<Item>, names: Names, observedAt: Time, now: Time)
    requires |items| <= |names.events|
  {
    && |after| == |before| + |items| && before <= after
    && (forall i :: 0 <= i < |items| ==> AddedAt(after[|before| + i], items[i], names.events[i], names.receipt, observedAt, now))
  }

  predicate AddedAt(o: Observation, item: Item, id: Id, receipt: Id, observedAt: Time, now: Time) {
    o.item == item && o.id == id && o.receipt == receipt && o.observedAt == observedAt && o.recordedAt == now
  }

  lemma {:induction false} PlaceAllOk(d: Draft, cycles: map<Id, CycleRow>, items: seq<Item>, names: Names, observedAt: Time, now: Time)
    requires DraftOk(d, cycles, now) && PendingStored(d)
    requires |items| <= |names.events| && |items| <= |names.wakes| && |items| <= |names.markers|
    requires Distinct(names.wakes) && (forall w :: w in names.wakes ==> w !in d.groups)
    ensures var d' := PlaceAll(d, items, names, observedAt, now);
      && DraftOk(d', cycles, now)
      && Adds(d.observations, d'.observations, items, names, observedAt, now)
      && d'.groups.Keys <= d.groups.Keys + Elements(names.wakes[..|items|])
  {
    hide GroupsOk, OrderOk, TimesOk, IsolatedOk;
    if items != [] {
      var n := |items| - 1;
      PlaceAllOk(d, cycles, items[..n], names, observedAt, now);
      var d1 := PlaceAll(d, items[..n], names, observedAt, now);
      hide Adds;
      NextNameIsNew(d.groups.Keys, d1.groups.Keys, names.wakes, n);
      CreationIsStored(d1, cycles, now);
      PlaceOk(d1, cycles, items[n], n, names, observedAt, now);
      AddsOne(d.observations, d1, items, names, observedAt, now);
    }
  }

  lemma NextNameIsNew(before: set<Id>, known: set<Id>, wakes: seq<Id>, n: nat)
    requires n < |wakes| && Distinct(wakes) && (forall w :: w in wakes ==> w !in before)
    requires known <= before + Elements(wakes[..n])
    ensures wakes[n] !in known
    ensures Elements(wakes[..n + 1]) == Elements(wakes[..n]) + {wakes[n]}
  {
    assert wakes[n] in wakes && wakes[n] !in wakes[..n];
    assert wakes[..n + 1] == wakes[..n] + [wakes[n]];
  }

  lemma CreationIsStored(d: Draft, cycles: map<Id, CycleRow>, now: Time)
    requires DraftOk(d, cycles, now)
    ensures forall w :: w in d.creation ==> w in d.groups
  {
    assert forall w :: w in d.creation ==> w in Elements(d.creation);
  }

  lemma AddsOne(before: seq<Observation>, d: Draft, items: seq<Item>, names: Names, observedAt: Time, now: Time)
    requires items != [] && PendingStored(d)
    requires |items| <= |names.events| && |items| <= |names.wakes| && |items| <= |names.markers|
    requires Adds(before, d.observations, items[..|items| - 1], names, observedAt, now)
    ensures Adds(before, Place(d, items[|items| - 1], |items| - 1, names, observedAt, now).observations, items, names, observedAt, now)
  {
  }

  // ---- Committing the page ----

  lemma {:induction false} CountAdditive(a: seq<Observation>, b: seq<Observation>, receipt: Id)
    ensures CountFor(a + b, receipt) == CountFor(a, receipt) + CountFor(b, receipt)
  {
    if b == [] {
      assert a + b == a;
    } else {
      CountAdditive(a, b[..|b| - 1], receipt);
      assert (a + b)[..|a + b| - 1] == a + b[..|b| - 1];
    }
  }

  lemma {:induction false} CountUniform(added: seq<Observation>, receipt: Id, other: Id)
    requires forall o :: o in added ==> o.receipt == receipt
    ensures CountFor(added, other) == if other == receipt then |added| else 0
  {
    if added != [] {
      assert added[|added| - 1] in added;
      CountUniform(added[..|added| - 1], receipt, other);
    }
  }

  lemma {:induction false} CountUnknown(observations: seq<Observation>, receipt: Id)
    requires forall o :: o in observations ==> o.receipt != receipt
    ensures CountFor(observations, receipt) == 0
  {
    if observations != [] {
      assert observations[|observations| - 1] in observations;
      CountUnknown(observations[..|observations| - 1], receipt);
    }
  }

  lemma AddedKeepsCounts(receipts: seq<Receipt>, r: Receipt, before: seq<Observation>, added: seq<Observation>)
    requires CountsOk(receipts, before)
    requires forall o :: o in added ==> o.receipt == r.id && o.observedAt == r.observedAt && o.recordedAt == r.recordedAt
    requires forall o :: o in before ==> o.receipt != r.id
    requires forall x :: x in receipts ==> x.id != r.id
    requires r.newCount == |added|
    ensures CountsOk(receipts + [r], before + added)
  {
    forall x | x in receipts + [r]
      ensures CountFor(before + added, x.id) == x.newCount
    {
      CountAdditive(before, added, x.id);
      CountUniform(added, r.id, x.id);
      if x !in receipts {
        CountUnknown(before, r.id);
      }
    }
    forall o | o in before + added
      ensures FromReceipt(receipts + [r], o)
    {
      if o in before {
        var x :| x in receipts && x.id == o.receipt && x.observedAt == o.observedAt && x.recordedAt == o.recordedAt;
        assert x in receipts + [r];
      } else {
        assert r in receipts + [r];
      }
    }
  }

  lemma AppendKeepsChain(b: Binding, receipts: seq<Receipt>, b': Binding, r: Receipt)
    requires ChainOk(b, receipts)
    requires r.beforeRevision == b.cursorRevision && r.afterRevision == b.cursorRevision + 1
    requires r.previous == b.latestReceipt && r.beforeCursor == b.cursor
    requires b.createdAt <= r.observedAt <= r.recordedAt && b.updatedAt <= r.recordedAt
    requires r.authorizingRevision == b.revision && r.itemCount == r.newCount + r.duplicateCount
    requires r.newCount == 0 ==> r.beforeCursor != r.afterCursor
    requires b'.cursor == r.afterCursor && b'.cursorRevision == b.cursorRevision + 1 && b'.latestReceipt == Some(r.id)
    requires b'.revision == b.revision + 1 && b'.createdAt == b.createdAt && b'.updatedAt == r.recordedAt
    ensures ChainOk(b', receipts + [r])
  {
    forall i | 0 <= i < |receipts + [r]|
      ensures ReceiptOk(b', receipts + [r], i)
    {
      if i < |receipts| {
        assert ReceiptOk(b, receipts, i);
      } else if i > 0 {
        assert ReceiptOk(b, receipts, i - 1);
      }
    }
  }

  lemma AddsAsConcat(before: seq<Observation>, after: seq<Observation>, items: seq<Item>, names: Names, observedAt: Time, now: Time)
    requires |items| <= |names.events| && Adds(before, after, items, names, observedAt, now)
    ensures after == before + after[|before|..]
    ensures forall o :: o in after[|before|..] ==> o.receipt == names.receipt && o.observedAt == observedAt && o.recordedAt == now
    ensures StoredItems(after) == StoredItems(before) + items
    ensures Identities(after) == Identities(before) + names.events[..|items|]
  {
    var added := after[|before|..];
    assert forall i :: 0 <= i < |items| ==> AddedAt(added[i], items[i], names.events[i], names.receipt, observedAt, now) by {
      assert forall i :: 0 <= i < |items| ==> added[i] == after[|before| + i];
    }
    forall o | o in added
      ensures o.receipt == names.receipt && o.observedAt == observedAt && o.recordedAt == now
    {
      var i :| 0 <= i < |added| && added[i] == o;
    }
  }

  lemma IdentitiesStayDistinct(observations: seq<Observation>, names: Names, n: nat)
    requires Distinct(Identities(observations)) && Distinct(names.events) && n <= |names.events|
    requires forall o :: o in observations ==> o.id !in names.events
    ensures Distinct(Identities(observations) + names.events[..n])
  {
    var ids := Identities(observations);
    forall i, j | 0 <= i < |ids| && 0 <= j < n
      ensures ids[i] != names.events[j]
    {
      assert observations[i] in observations && names.events[j] in names.events;
    }
  }

  lemma StoredAgree(items: seq<Item>)
    requires KeysDistinct(items)
    ensures Agree(items) && FirstOf(items) == items
  {
    FirstOfDistinct(items);
  }

  /** What a persisted page must meet before anything is written. */
  ghost predicate Admitted(s: Source, snapshot: Snapshot, page: Page, items: seq<Item>, duplicates: nat, now: Time, names: Names) {
    && Fresh(s, names, |items|) && |items| + duplicates == |page.items|
    && snapshot.cursor == s.binding.cursor && snapshot.cursorRevision == s.binding.cursorRevision
    && snapshot.revision == s.binding.revision
    && s.binding.createdAt <= page.observedAt <= now && s.binding.updatedAt <= now
    && (items == [] ==> page.nextCursor != snapshot.cursor)
    && KeysDistinct(StoredItems(s.observations) + items)
  }

  lemma CommitKeepsInv(s: Source, snapshot: Snapshot, page: Page, items: seq<Item>, duplicates: nat, now: Time, names: Names)
    requires s.binding.pendingWake.Some? ==> s.binding.pendingWake.value in s.groups
    requires Admitted(s, snapshot, page, items, duplicates, now, names) && Inv(s)
    ensures Inv(Commit(s, snapshot, page, items, duplicates, now, names).0)
    ensures StoredItems(Commit(s, snapshot, page, items, duplicates, now, names).0.observations) == StoredItems(s.observations) + items
  {
    hide ChainOk, CountsOk, GroupsOk, OrderOk, IsolatedOk;
    var d := Draft(s.observations, s.groups, s.creation, s.binding.pendingWake);
    PlaceAllOk(d, s.cycles, items, names, page.observedAt, now);
    var s' := Commit(s, snapshot, page, items, duplicates, now, names).0;
    var d' := PlaceAll(d, items, names, page.observedAt, now);
    AddsAsConcat(s.observations, d'.observations, items, names, page.observedAt, now);
    AddedKeepsCounts(s.receipts, s'.receipts[|s.receipts|], s.observations, d'.observations[|s.observations|..]);
    AppendKeepsChain(s.binding, s.receipts, s'.binding, s'.receipts[|s.receipts|]);
    IdentitiesStayDistinct(s.observations, names, |items|);
  }

  lemma PersistAdmits(s: Source, epoch: Epoch, snapshot: Snapshot, page: Page, now: Time, names: Names)
    requires Inv(s) && Fresh(s, names, |page.items|)
    requires Admission(s, epoch, snapshot, page, now).None? && Agree(StoredItems(s.observations) + page.items)
    ensures var result := Screen(Known(StoredItems(s.observations)), page.items);
      && Extends(StoredItems(s.observations), page.items, result)
      && (result.novel != [] || page.nextCursor != snapshot.cursor ==>
            Admitted(s, snapshot, page, result.novel, result.duplicates, now, names))
  {
    hide GroupsOk, OrderOk, IsolatedOk, TimesOk, CountsOk, OpenAgrees, CheckpointAgrees, KeysDistinct, FirstOf, Agree, Known, Screen;
    var stored := StoredItems(s.observations);
    StoredAgree(stored);
    ScreenMeaning(stored, page.items);
    FirstOfKeepsKeys(stored + page.items);
  }

  /** Persisting a page keeps every demand. */
  lemma PersistKeepsInv(s: Source, epoch: Epoch, snapshot: Snapshot, page: Page, now: Time, names: Names)
    requires Inv(s) && Fresh(s, names, |page.items|)
    ensures var result := Persist(s, epoch, snapshot, page, now, names); result.Ok? ==> Inv(result.value.0)
  {
    hide Inv, OpenAgrees, CheckpointAgrees, Admitted, Commit;
    var stored := StoredItems(s.observations);
    StoredFacts(s);
    ScreenMeaning(stored, page.items);
    if Admission(s, epoch, snapshot, page, now).None? && Agree(stored + page.items) {
      PersistAdmits(s, epoch, snapshot, page, now, names);
      var result := Screen(Known(stored), page.items);
      if result.novel != [] || page.nextCursor != snapshot.cursor {
        CommitKeepsInv(s, snapshot, page, result.novel, result.duplicates, now, names);
      }
    }
  }

  lemma StoredFacts(s: Source)
    requires Inv(s)
    ensures Agree(StoredItems(s.observations)) && FirstOf(StoredItems(s.observations)) == StoredItems(s.observations)
    ensures s.binding.pendingWake.Some? ==> s.binding.pendingWake.value in s.groups
    ensures CheckpointAgrees(s.binding, s.receipts) && OpenAgrees(s)
  {
    hide CountsOk, OrderOk, IsolatedOk, TimesOk, OpenAgrees, CheckpointAgrees, ChainOk;
    StoredAgree(StoredItems(s.observations));
    CheckpointAccepted(s.binding, s.receipts);
    OpenAccepted(s);
  }

  // ---- The other steps ----

  lemma ClaimKeepsInv(s: Source, w: Id, cycle: Id, now: Time)
    requires Inv(s) && Enabled(s, ClaimGroup(w, cycle, now))
    ensures var result := Claim(s, w, cycle, now);
      && (result.Ok? ==> Inv(result.value))
      && (result.Err? ==> !result.error.Corrupt?)
  {
    hide GroupValid;
    hide CountsOk, ChainOk, OrderOk;
    var result := Claim(s, w, cycle, now);
    if w in s.groups {
      assert GroupValid(s.binding.pendingWake, s.observations, s.cycles, w, s.groups[w]);
    }
    if result.Ok? {
      var s' := result.value;
      ClaimKeepsGroups(s, w, cycle, now);
      TouchKeepsChain(s.binding, s'.binding, s.receipts);
      RestageKeepsOrder(s.binding.pendingWake, s'.binding.pendingWake, s.observations, s.groups, s'.groups, s.creation);
    }
  }

  /** Changing the binding without ingesting keeps the chain, as long as its clock and revision move on. */
  lemma TouchKeepsChain(b: Binding, b': Binding, receipts: seq<Receipt>)
    requires ChainOk(b, receipts)
    requires b'.cursor == b.cursor && b'.cursorRevision == b.cursorRevision && b'.latestReceipt == b.latestReceipt
    requires b'.createdAt == b.createdAt && b.updatedAt <= b'.updatedAt && b.revision <= b'.revision
    ensures ChainOk(b', receipts)
  {
    forall i | 0 <= i < |receipts|
      ensures ReceiptOk(b', receipts, i)
    {
      assert ReceiptOk(b, receipts, i);
    }
  }

  lemma {:induction false} SameRefsSameConcat(groups: map<Id, Group>, groups': map<Id, Group>, creation: seq<Id>)
    requires groups'.Keys == groups.Keys && forall w :: w in groups ==> groups'[w].refs == groups[w].refs
    ensures Concat(groups', creation) == Concat(groups, creation)
  {
    if creation != [] {
      SameRefsSameConcat(groups, groups', creation[..|creation| - 1]);
    }
  }

  lemma RestageKeepsOrder(pending: Option<Id>, pending': Option<Id>, observations: seq<Observation>, groups: map<Id, Group>, groups': map<Id, Group>, creation: seq<Id>)
    requires OrderOk(pending, observations, groups, creation) && pending' in {None, pending}
    requires groups'.Keys == groups.Keys && forall w :: w in groups ==> groups'[w].refs == groups[w].refs
    ensures OrderOk(pending', observations, groups', creation)
  {
    SameRefsSameConcat(groups, groups', creation);
  }

  lemma ClaimKeepsGroups(s: Source, w: Id, cycle: Id, now: Time)
    requires GroupsOk(s.binding.pendingWake, s.observations, s.cycles, s.groups) && TimesOk(s.observations, s.groups, s.binding.updatedAt)
    requires Enabled(s, ClaimGroup(w, cycle, now)) && Claim(s, w, cycle, now).Ok?
    ensures var s' := Claim(s, w, cycle, now).value;
      GroupsOk(s'.binding.pendingWake, s'.observations, s'.cycles, s'.groups)
  {
    hide Members;
    var s' := Claim(s, w, cycle, now).value;
    forall x | x in s'.groups
      ensures GroupValid(s'.binding.pendingWake, s'.observations, s'.cycles, x, s'.groups[x])
    {
      assert GroupValid(s.binding.pendingWake, s.observations, s.cycles, x, s.groups[x]);
    }
  }

  lemma FinishKeepsGroups(s: Source, cycle: Id, now: Time)
    requires Inv(s) && Enabled(s, FinishCycle(cycle, now))
    ensures var s' := Finish(s, cycle, now);
      && GroupsOk(s'.binding.pendingWake, s'.observations, s'.cycles, s'.groups)
      && IsolatedOk(s'.groups) && TimesOk(s'.observations, s'.groups, s'.binding.updatedAt)
  {
    hide CountsOk, ChainOk, OrderOk, Members, GroupValid, Finish, Identities, StoredItems;
    var s' := Finish(s, cycle, now);
    FinishFrame(s, cycle, now);
    forall x | x in s'.groups
      ensures GroupValid(s'.binding.pendingWake, s'.observations, s'.cycles, x, s'.groups[x])
    {
      FinishGroup(s, cycle, now, x);
    }
  }

  lemma FinishGroup(s: Source, cycle: Id, now: Time, x: Id)
    requires cycle in s.cycles && s.cycles[cycle].startedAt <= now && x in s.groups
    requires GroupValid(s.binding.pendingWake, s.observations, s.cycles, x, s.groups[x])
    ensures var s' := Finish(s, cycle, now);
      && x in s'.groups
      && GroupValid(s'.binding.pendingWake, s'.observations, s'.cycles, x, s'.groups[x])
  {
    hide Members;
  }

  lemma FinishKeepsInv(s: Source, cycle: Id, now: Time)
    requires Inv(s) && Enabled(s, FinishCycle(cycle, now))
    ensures Inv(Finish(s, cycle, now))
  {
    FinishKeepsGroups(s, cycle, now);
    FinishFrame(s, cycle, now);
    hide CountsOk, ChainOk, OrderOk, GroupsOk, TimesOk, IsolatedOk;
    RestageKeepsOrder(s.binding.pendingWake, s.binding.pendingWake, s.observations, s.groups, Finish(s, cycle, now).groups, s.creation);
  }

  lemma FinishFrame(s: Source, cycle: Id, now: Time)
    requires cycle in s.cycles
    ensures var s' := Finish(s, cycle, now);
      && s'.groups.Keys == s.groups.Keys && s'.observations == s.observations && s'.binding == s.binding
      && s'.receipts == s.receipts && s'.creation == s.creation
      && forall x :: x in s.groups ==>
           && s'.groups[x].refs == s.groups[x].refs && s'.groups[x].sealedAt == s.groups[x].sealedAt
           && s'.groups[x].createdAt == s.groups[x].createdAt && s'.groups[x].cycle == s.groups[x].cycle
  {
  }

  /** Finishing the cycle of a claimed group keeps the demands exactly if the clock is not behind its start. */
  lemma FinishNeedsClock(s: Source, w: Id, cycle: Id, now: Time)
    requires Inv(s) && w in s.groups && s.groups[w].stage == Claimed && s.groups[w].cycle == Some(cycle)
    ensures cycle in s.cycles && s.cycles[cycle].completedAt.None?
    ensures Inv(Finish(s, cycle, now)) <==> s.cycles[cycle].startedAt <= now
  {
    hide CountsOk, ChainOk, OrderOk, TimesOk, IsolatedOk;
    assert GroupValid(s.binding.pendingWake, s.observations, s.cycles, w, s.groups[w]);
    if s.cycles[cycle].startedAt <= now {
      FinishKeepsInv(s, cycle, now);
    } else {
      var after := Finish(s, cycle, now);
      assert !GroupValid(after.binding.pendingWake, after.observations, after.cycles, w, after.groups[w]);
    }
  }

  lemma EnableKeepsInv(s: Source, enabled: bool, now: Time, expected: Option<nat>)
    requires Inv(s)
    ensures var result := SetEnabled(s, enabled, now, expected); result.Ok? ==> Inv(result.value)
  {
    hide CountsOk, ChainOk, OrderOk, GroupsOk, IsolatedOk;
    var result := SetEnabled(s, enabled, now, expected);
    if result.Ok? {
      TouchKeepsChain(s.binding, result.value.binding, s.receipts);
    }
  }

  /** Every transaction keeps the inspector's demands. */
  lemma StepKeepsInv(s: Source, a: Action)
    requires Inv(s)
    ensures Inv(Step(s, a))
  {
    hide Inv, Persist, Claim, Finish, SetEnabled;
    if Enabled(s, a) {
      match a
      case PersistPage(epoch, snapshot, page, now, names) => PersistKeepsInv(s, epoch, snapshot, page, now, names);
      case ClaimGroup(w, cycle, now) => ClaimKeepsInv(s, w, cycle, now);
      case FinishCycle(cycle, now) => FinishKeepsInv(s, cycle, now);
      case Enable(enabled, now, expected) => EnableKeepsInv(s, enabled, now, expected);
    }
  }

  lemma CreateOk(enabled: bool, now: Time)
    ensures Inv(Create(enabled, now))
  {
  }

  lemma {:induction false} RunKeepsInv(enabled: bool, now: Time, actions: seq<Action>)
    ensures Inv(Run(Create(enabled, now), actions))
  {
    hide Inv, Step;
    if actions == [] {
      CreateOk(enabled, now);
    } else {
      RunKeepsInv(enabled, now, actions[..|actions| - 1]);
      StepKeepsInv(Run(Create(enabled, now), actions[..|actions| - 1]), actions[|actions| - 1]);
    }
  }
}
