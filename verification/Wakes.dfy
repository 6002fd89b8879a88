/** Attention opportunities: one row per wake, and coalescing of pending requests under a key. */
module Wakes {
  import opened Common

  datatype Status = Pending | Claimed | Consumed | Superseded | Cancelled

  datatype Wake = Wake(
    kind: string,
    status: Status,
    dueAt: Time,
    purpose: string,
    cause: Option<Id>,
    refs: seq<Ref>,
    key: Option<string>,
    claimedAt: Option<Time>,
    consumedAt: Option<Time>,
    revision: nat)

  type Table = map<Id, Wake>

  /** The partial unique index: at most one pending wake holds a coalesce key. */
  ghost predicate KeysUnique(wakes: Table) {
    forall a, b :: a in wakes && b in wakes && Holds(wakes[a], wakes[b].key) && Holds(wakes[b], wakes[b].key) ==> a == b
  }

  predicate Holds(wake: Wake, key: Option<string>) {
    wake.status == Pending && key.Some? && wake.key == key
  }

  function Incoming(existing: Wake, wake: Wake): seq<Ref> {
    if wake.cause.Some? && wake.cause != existing.cause
    then wake.refs + [Ref("event", wake.cause.value)]
    else wake.refs
  }

  function Merge(existing: Wake, wake: Wake): Wake {
    existing.(
      refs := UnionRefs(existing.refs, Incoming(existing, wake)),
      dueAt := Min(existing.dueAt, wake.dueAt),
      purpose := if wake.purpose != existing.purpose then existing.purpose + "\n" + wake.purpose else existing.purpose,
      revision := existing.revision + 1)
  }

  ghost predicate HasHolder(wakes: Table, key: Option<string>) {
    exists id :: id in wakes && Holds(wakes[id], key)
  }

  ghost function Holder(wakes: Table, key: Option<string>): (id: Id)
    requires HasHolder(wakes, key)
    ensures id in wakes && Holds(wakes[id], key)
  {
    var id :| id in wakes && Holds(wakes[id], key); id
  }

  /** The wake that now carries the request: the existing holder of its key, or itself. */
  ghost function Carrier(wakes: Table, id: Id, wake: Wake): Id {
    if HasHolder(wakes, wake.key) then Holder(wakes, wake.key) else id
  }

  ghost function CreateOrMerge(wakes: Table, id: Id, wake: Wake): Table {
    if HasHolder(wakes, wake.key)
    then wakes[Holder(wakes, wake.key) := Merge(wakes[Holder(wakes, wake.key)], wake)]
    else wakes[id := wake]
  }

  /** Coalescing keeps one pending wake per key and never touches any other wake. */
  lemma CreateOrMergeKeepsKeys(wakes: Table, id: Id, wake: Wake)
    requires KeysUnique(wakes) && id !in wakes && wake.status == Pending
    ensures KeysUnique(CreateOrMerge(wakes, id, wake))
    ensures forall other :: other in wakes && other != Carrier(wakes, id, wake) ==>
      other in CreateOrMerge(wakes, id, wake) && CreateOrMerge(wakes, id, wake)[other] == wakes[other]
    ensures forall other :: other in wakes && wakes[other].key.None? ==>
      other in CreateOrMerge(wakes, id, wake) && CreateOrMerge(wakes, id, wake)[other] == wakes[other]
  {
  }

  // ---- Claim order ----

  /** Claim order: due time first, then identity. */
  predicate Before(wakes: Table, a: Id, b: Id)
    requires a in wakes && b in wakes
  {
    wakes[a].dueAt < wakes[b].dueAt || (wakes[a].dueAt == wakes[b].dueAt && a < b)
  }

  ghost predicate IsLeast(wakes: Table, s: set<Id>, x: Id)
    requires s <= wakes.Keys
  {
    x in s && forall y :: y in s && y != x ==> Before(wakes, x, y)
  }

  lemma {:induction false} LeastExists(wakes: Table, s: set<Id>)
    requires s != {} && s <= wakes.Keys
    ensures exists x :: IsLeast(wakes, s, x)
    decreases |s|
  {
    var x :| x in s;
    if s == {x} {
      assert IsLeast(wakes, s, x);
    } else {
      LeastExists(wakes, s - {x});
      var y :| IsLeast(wakes, s - {x}, y);
      var least := if Before(wakes, x, y) then x else y;
      forall z | z in s && z != least
        ensures Before(wakes, least, z)
      {
        if z != x && z != y {
          assert Before(wakes, y, z);
        }
      }
      assert IsLeast(wakes, s, least);
    }
  }

  ghost function Least(wakes: Table, s: set<Id>): (x: Id)
    requires s != {} && s <= wakes.Keys
    ensures IsLeast(wakes, s, x)
  {
    LeastExists(wakes, s);
    var x :| IsLeast(wakes, s, x); x
  }

  /** The first `limit` members of `s` in claim order. */
  ghost function InOrder(wakes: Table, s: set<Id>, limit: nat): seq<Id>
    requires s <= wakes.Keys
    decreases limit
  {
    if limit == 0 || s == {} then []
    else [Least(wakes, s)] + InOrder(wakes, s - {Least(wakes, s)}, limit - 1)
  }

  lemma FirstOfAll(x: Id, rest: seq<Id>, s: set<Id>)
    requires x in s && Elements(rest) <= s - {x} && Distinct(rest)
    ensures Elements([x] + rest) <= s && Distinct([x] + rest)
  {
    assert Elements([x] + rest) == {x} + Elements(rest);
    assert forall y :: y in rest ==> y in Elements(rest);
  }

  lemma {:induction false} InOrderMembers(wakes: Table, s: set<Id>, limit: nat)
    requires s <= wakes.Keys
    ensures Elements(InOrder(wakes, s, limit)) <= s
    ensures Distinct(InOrder(wakes, s, limit))
    ensures |InOrder(wakes, s, limit)| == Min(limit, |s|)
    decreases limit
  {
    if limit > 0 && s != {} {
      hide Before;
      var x := Least(wakes, s);
      var rest := InOrder(wakes, s - {x}, limit - 1);
      InOrderMembers(wakes, s - {x}, limit - 1);
      assert |s - {x}| == |s| - 1;
      hide InOrder, IsLeast;
      FirstOfAll(x, rest, s);
    }
  }

  /** Whatever the limit leaves out comes after everything it takes. */
  lemma {:induction false} InOrderTakesEarliest(wakes: Table, s: set<Id>, limit: nat, taken: Id, left: Id)
    requires s <= wakes.Keys
    requires taken in s && taken in InOrder(wakes, s, limit) && left in s && left !in InOrder(wakes, s, limit)
    ensures Before(wakes, taken, left)
    decreases limit
  {
    var x := Least(wakes, s);
    if taken != x {
      InOrderMembers(wakes, s - {x}, limit - 1);
      assert taken in Elements(InOrder(wakes, s - {x}, limit - 1));
      InOrderTakesEarliest(wakes, s - {x}, limit - 1, taken, left);
    }
  }

  lemma LessThanAll(wakes: Table, s: set<Id>, x: Id, y: Id)
    requires s <= wakes.Keys && x in wakes && y in wakes && y != x && Before(wakes, y, x)
    requires forall z :: z in s && z != x ==> Before(wakes, x, z)
    ensures forall z :: z in s && z != y ==> Before(wakes, y, z)
  {
    forall z | z in s && z != y
      ensures Before(wakes, y, z)
    {
      if z != x {
        assert Before(wakes, x, z);
      }
    }
  }

  /** The query that selects rows in claim order, one least row after another. */
  method Select(wakes: Table, s: set<Id>, limit: nat) returns (rows: seq<Id>)
    requires s <= wakes.Keys
    ensures rows == InOrder(wakes, s, limit)
  {
    rows := [];
    var rest, room := s, limit;
    while room > 0 && rest != {}
      invariant rest <= s && 0 <= room <= limit
      invariant rows + InOrder(wakes, rest, room) == InOrder(wakes, s, limit)
      decreases room
    {
      var x :| x in rest;
      var others := rest - {x};
      while others != {}
        invariant x in rest && others <= rest
        invariant forall y :: y in rest - others && y != x ==> Before(wakes, x, y)
        decreases others
      {
        var y :| y in others;
        if y != x && Before(wakes, y, x) {
          LessThanAll(wakes, rest - others, x, y);
          x := y;
        }
        others := others - {y};
      }
      assert IsLeast(wakes, rest, x) && x == Least(wakes, rest);
      assert rows + InOrder(wakes, rest, room) == rows + [x] + InOrder(wakes, rest - {x}, room - 1);
      rows := rows + [x];
      rest, room := rest - {x}, room - 1;
    }
  }

  // ---- A whole sequence of requests, under any keys ----

  datatype Request = Request(id: Id, wake: Wake)

  ghost function AllRequests(wakes: Table, requests: seq<Request>): Table {
    if requests == [] then wakes
    else CreateOrMerge(AllRequests(wakes, requests[..|requests| - 1]), requests[|requests| - 1].id, requests[|requests| - 1].wake)
  }

  /** The identities are new and differ from one another. */
  ghost predicate NewRequests(wakes: Table, requests: seq<Request>) {
    && KeysUnique(wakes)
    && (forall i :: 0 <= i < |requests| ==> requests[i].id !in wakes && requests[i].wake.status == Pending)
    && (forall i, j :: 0 <= i < j < |requests| ==> requests[i].id != requests[j].id)
  }

  function Under(requests: seq<Request>, key: string): seq<Wake> {
    if requests == [] then []
    else
      var last := requests[|requests| - 1].wake;
      Under(requests[..|requests| - 1], key) + if last.key == Some(key) then [last] else []
  }

  /** What is asked for under a key: the wake that holds it already, if any, then the requests. */
  ghost function Asked(wakes: Table, requests: seq<Request>, key: string): seq<Wake> {
    (if HasHolder(wakes, Some(key)) then [wakes[Holder(wakes, Some(key))]] else []) + Under(requests, key)
  }

  function Earliest(asked: seq<Wake>): Time
    requires asked != []
  {
    var last := asked[|asked| - 1].dueAt;
    if |asked| == 1 then last else Min(Earliest(asked[..|asked| - 1]), last)
  }

  ghost predicate Carries(carrier: Wake, wake: Wake) {
    && (forall r :: r in wake.refs ==> r in carrier.refs)
    && (wake.cause.Some? ==> carrier.cause == wake.cause || Ref("event", wake.cause.value) in carrier.refs)
    && carrier.dueAt <= wake.dueAt
  }

  /** Merging loses nothing of either side, and only the earlier due time survives. */
  lemma MergeCarriesBoth(existing: Wake, wake: Wake)
    ensures Carries(Merge(existing, wake), wake)
    ensures forall other :: Carries(existing, other) ==> Carries(Merge(existing, wake), other)
    ensures existing.refs <= Merge(existing, wake).refs
    ensures forall r :: r in Merge(existing, wake).refs ==>
      r in existing.refs || r in wake.refs || (wake.cause.Some? && r == Ref("event", wake.cause.value))
  {
    UnionKeepsBoth(existing.refs, Incoming(existing, wake));
  }

  /** One pending wake carries everything asked for under the key, due at the earliest time asked for. */
  ghost predicate CarriesAll(carrier: Wake, asked: seq<Wake>, key: string)
    requires asked != []
  {
    && Holds(carrier, Some(key)) && carrier.dueAt == Earliest(asked)
    && asked[0].refs <= carrier.refs && carrier.cause == asked[0].cause
    && (forall i :: 0 <= i < |asked| ==> Carries(carrier, asked[i]))
  }

  ghost predicate Coalesced(asked: seq<Wake>, key: string, after: Table) {
    && KeysUnique(after)
    && (HasHolder(after, Some(key)) <==> asked != [])
    && (asked != [] ==> CarriesAll(after[Holder(after, Some(key))], asked, key))
  }

  lemma FirstCarries(wake: Wake, key: string)
    requires Holds(wake, Some(key))
    ensures CarriesAll(wake, [wake], key)
  {
  }

  lemma MergedCarries(carrier: Wake, asked: seq<Wake>, key: string, wake: Wake)
    requires asked != [] && CarriesAll(carrier, asked, key)
    ensures CarriesAll(Merge(carrier, wake), asked + [wake], key)
  {
    MergeCarriesBoth(carrier, wake);
    var more := asked + [wake];
    assert more[..|asked|] == asked && more[0] == asked[0];
    forall i | 0 <= i < |more|
      ensures Carries(Merge(carrier, wake), more[i])
    {
      if i < |asked| {
        assert Carries(carrier, asked[i]);
      }
    }
  }

  lemma RequestCoalesces(before: Table, asked: seq<Wake>, key: string, last: Request)
    requires Coalesced(asked, key, before) && last.id !in before && last.wake.status == Pending
    ensures Coalesced(if last.wake.key == Some(key) then asked + [last.wake] else asked, key, CreateOrMerge(before, last.id, last.wake))
  {
    hide CarriesAll;
    var after := CreateOrMerge(before, last.id, last.wake);
    CreateOrMergeKeepsKeys(before, last.id, last.wake);
    if last.wake.key == Some(key) {
      var carrier := Carrier(before, last.id, last.wake);
      assert Holds(after[carrier], Some(key)) && Holder(after, Some(key)) == carrier;
      if asked == [] {
        assert !HasHolder(before, last.wake.key) && asked + [last.wake] == [last.wake];
        FirstCarries(last.wake, key);
      } else {
        MergedCarries(before[carrier], asked, key, last.wake);
      }
    } else if asked != [] {
      var holder := Holder(before, Some(key));
      assert after[holder] == before[holder] && Holder(after, Some(key)) == holder;
    } else {
      assert forall w :: w in before ==> !Holds(before[w], Some(key));
    }
  }

  lemma {:induction false} KeysOfRequests(wakes: Table, requests: seq<Request>)
    requires NewRequests(wakes, requests)
    ensures KeysUnique(AllRequests(wakes, requests))
    ensures forall w :: w in AllRequests(wakes, requests) ==> w in wakes || exists i :: 0 <= i < |requests| && requests[i].id == w
  {
    if requests != [] {
      var front, last := requests[..|requests| - 1], requests[|requests| - 1];
      KeysOfRequests(wakes, front);
      CreateOrMergeKeepsKeys(AllRequests(wakes, front), last.id, last.wake);
    }
  }

  /**
   * Any requests, in any order and under any keys, leave for each key that was asked for exactly one
   * pending wake: due at the earliest time asked for under it, with the first references in front and
   * every later reference and cause kept. A wake that held the key before is the first to ask.
   */
  lemma {:induction false} RequestsCoalesce(wakes: Table, requests: seq<Request>, key: string)
    requires NewRequests(wakes, requests)
    ensures Coalesced(Asked(wakes, requests, key), key, AllRequests(wakes, requests))
  {
    if requests == [] {
      if HasHolder(wakes, Some(key)) {
        FirstCarries(wakes[Holder(wakes, Some(key))], key);
      }
    } else {
      var front, last := requests[..|requests| - 1], requests[|requests| - 1];
      RequestsCoalesce(wakes, front, key);
      KeysOfRequests(wakes, front);
      hide Coalesced;
      RequestCoalesces(AllRequests(wakes, front), Asked(wakes, front, key), key, last);
      if last.wake.key == Some(key) {
        assert Asked(wakes, requests, key) == Asked(wakes, front, key) + [last.wake];
      } else {
        assert Asked(wakes, requests, key) == Asked(wakes, front, key);
      }
    }
  }

  /** Wakes without a key, wakes no longer pending, and wakes under other keys are left as they were. */
  lemma {:induction false} RequestsLeaveOthers(wakes: Table, requests: seq<Request>, w: Id)
    requires NewRequests(wakes, requests) && w in wakes
    requires forall i :: 0 <= i < |requests| ==> !Holds(wakes[w], requests[i].wake.key)
    ensures w in AllRequests(wakes, requests) && AllRequests(wakes, requests)[w] == wakes[w]
  {
    if requests != [] {
      var front, last := requests[..|requests| - 1], requests[|requests| - 1];
      RequestsLeaveOthers(wakes, front, w);
      KeysOfRequests(wakes, front);
      CreateOrMergeKeepsKeys(AllRequests(wakes, front), last.id, last.wake);
    }
  }

  // ---- The stored operations ----

  method AppendMissing(known: seq<Ref>, incoming: seq<Ref>) returns (refs: seq<Ref>)
    ensures refs == UnionRefs(known, incoming)
  {
    refs := known;
    for i := 0 to |incoming|
      invariant UnionRefs(refs, incoming[i..]) == UnionRefs(known, incoming)
    {
      if incoming[i] !in refs {
        refs := refs + [incoming[i]];
      }
      assert incoming[i..][1..] == incoming[i + 1..];
    }
  }

  method CreateOrMergePending(wakes: Table, id: Id, wake: Wake) returns (after: Table, carrier: Id)
    requires KeysUnique(wakes)
    ensures after == CreateOrMerge(wakes, id, wake) && carrier == Carrier(wakes, id, wake)
  {
    if existing :| existing in wakes && Holds(wakes[existing], wake.key) {
      assert existing == Holder(wakes, wake.key);
      var row := wakes[existing];
      var refs := AppendMissing(row.refs, Incoming(row, wake));
      row := row.(refs := refs, dueAt := Min(row.dueAt, wake.dueAt));
      if wake.purpose != row.purpose {
        row := row.(purpose := row.purpose + "\n" + wake.purpose);
      }
      return wakes[existing := row.(revision := row.revision + 1)], existing;
    }
    return wakes[id := wake], id;
  }
}
