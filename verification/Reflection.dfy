/** Review targets for reflection: pools that rotate behind durable cursors, eight shared slots. */
module Reflection {
  import opened Common

  const BATCH_LIMIT: nat := 8

  /** 0 interest, 1 preference, 2 self state, in the order slots are offered. */
  type Family = k: nat | k < 3

  datatype Row = Row(id: Id, revision: nat, pending: bool, eligibleAt: Time)

  datatype Candidate = Candidate(family: Family, row: Row)

  /** A family's table in primary-key order. */
  ghost predicate ByIdentity(rows: seq<Row>) {
    forall i, j :: 0 <= i < j < |rows| ==> rows[i].id < rows[j].id
  }

  function Take<T>(s: seq<T>, n: nat): seq<T> {
    if |s| <= n then s else s[..n]
  }

  function Eligible(rows: seq<Row>, cutoff: Time): (e: seq<Row>)
    ensures forall r :: r in e <==> r in rows && r.pending && r.eligibleAt <= cutoff
  {
    if rows == [] then []
    else
      var last := rows[|rows| - 1];
      assert rows == rows[..|rows| - 1] + [last];
      Eligible(rows[..|rows| - 1], cutoff) + if last.pending && last.eligibleAt <= cutoff then [last] else []
  }

  lemma {:induction false} EligibleSorted(rows: seq<Row>, cutoff: Time)
    requires ByIdentity(rows)
    ensures ByIdentity(Eligible(rows, cutoff))
  {
    if rows != [] {
      var front, last := rows[..|rows| - 1], rows[|rows| - 1];
      EligibleSorted(front, cutoff);
      forall r | r in Eligible(front, cutoff)
        ensures r.id < last.id
      {
        var i :| 0 <= i < |front| && front[i] == r;
      }
    }
  }

  /** The rows of a query restricted to identities above, or not above, the cursor. */
  function Above(rows: seq<Row>, cursor: Id): seq<Row> {
    if rows == [] then []
    else (if rows[0].id > cursor then [rows[0]] else []) + Above(rows[1..], cursor)
  }

  function UpTo(rows: seq<Row>, cursor: Id): seq<Row> {
    if rows == [] then []
    else (if rows[0].id <= cursor then [rows[0]] else []) + UpTo(rows[1..], cursor)
  }

  function Pool(rows: seq<Row>, cursor: Option<Id>): seq<Row> {
    match cursor
    case None => Take(rows, BATCH_LIMIT)
    case Some(c) =>
      var after := Take(Above(rows, c), BATCH_LIMIT);
      if |after| < BATCH_LIMIT then after + Take(UpTo(rows, c), BATCH_LIMIT) else after
  }

  /** How many rows the cursor has passed. */
  ghost function Passed(rows: seq<Row>, cursor: Option<Id>): nat {
    if rows == [] || cursor.None? || rows[0].id > cursor.value then 0 else 1 + Passed(rows[1..], cursor)
  }

  lemma {:induction false} NothingPassed(rows: seq<Row>, c: Id)
    requires forall r :: r in rows ==> r.id > c
    ensures Passed(rows, Some(c)) == 0 && Above(rows, c) == rows && UpTo(rows, c) == []
  {
    if rows != [] {
      NothingPassed(rows[1..], c);
      assert rows == [rows[0]] + rows[1..];
    }
  }

  lemma {:induction false} CursorSplits(rows: seq<Row>, c: Id)
    requires ByIdentity(rows)
    ensures Passed(rows, Some(c)) <= |rows|
    ensures Above(rows, c) == rows[Passed(rows, Some(c))..]
    ensures UpTo(rows, c) == rows[..Passed(rows, Some(c))]
  {
    if rows != [] {
      var rest := rows[1..];
      CursorSplits(rest, c);
      var p := Passed(rest, Some(c));
      if rows[0].id > c {
        NothingPassed(rows, c);
      } else {
        assert rows[p + 1..] == rest[p..];
        assert rows[..p + 1] == [rows[0]] + rest[..p];
      }
    }
  }

  /** A pool is a contiguous cyclic run that starts right behind its cursor. */
  lemma PoolRotates(rows: seq<Row>, cursor: Option<Id>)
    requires ByIdentity(rows)
    ensures Passed(rows, cursor) <= |rows|
    ensures Min(BATCH_LIMIT, |rows|) <= |Pool(rows, cursor)| <= |rows|
    ensures forall j :: 0 <= j < |Pool(rows, cursor)| ==>
      Pool(rows, cursor)[j] == rows[Around(Passed(rows, cursor), j, |rows|)]
  {
    if cursor.Some? {
      var p := Passed(rows, cursor);
      CursorSplits(rows, cursor.value);
      PoolAround(rows, p, Take(rows[p..], BATCH_LIMIT), Take(rows[..p], BATCH_LIMIT));
    }
  }

  lemma PoolAround(rows: seq<Row>, p: nat, after: seq<Row>, wrapped: seq<Row>)
    requires p <= |rows| && after == Take(rows[p..], BATCH_LIMIT) && wrapped == Take(rows[..p], BATCH_LIMIT)
    ensures var pool := if |after| < BATCH_LIMIT then after + wrapped else after;
      && Min(BATCH_LIMIT, |rows|) <= |pool| <= |rows|
      && forall j :: 0 <= j < |pool| ==> pool[j] == rows[Around(p, j, |rows|)]
  {
  }

  /** The position `j` steps past `start` on a ring of `n` places. */
  function Around(start: nat, j: nat, n: nat): (i: nat)
    requires start <= n && j < n
    ensures i < n
  {
    if start + j < n then start + j else start + j - n
  }

  /** How many steps past `start` the ring reaches place `i`. */
  function Distance(start: nat, i: nat, n: nat): (d: nat)
    requires start <= n && i < n
    ensures d < n && Around(start, d, n) == i
  {
    if start <= i then i - start else i - start + n
  }

  // ---- Eight slots, one per family and round ----

  type Pools = p: seq<seq<Row>> | |p| == 3 witness [[], [], []]

  function Taken(pools: Pools, k: Family, round: nat, next: nat): nat {
    Min(|pools[k]|, if k < next then round + 1 else round)
  }

  /** How many offers precede family `next` in `round`. */
  function Rank(pools: Pools, next: nat, round: nat): nat {
    Taken(pools, 0, round, next) + Taken(pools, 1, round, next) + Taken(pools, 2, round, next)
  }

  function Total(pools: Pools): nat {
    |pools[0]| + |pools[1]| + |pools[2]|
  }

  function OfFamily(selected: seq<Candidate>, k: Family): seq<Row> {
    if selected == [] then []
    else
      var last := selected[|selected| - 1];
      OfFamily(selected[..|selected| - 1], k) + if last.family == k then [last.row] else []
  }

  lemma OfFamilyAppend(selected: seq<Candidate>, c: Candidate, k: Family)
    ensures OfFamily(selected + [c], k) == OfFamily(selected, k) + if c.family == k then [c.row] else []
  {
    assert (selected + [c])[..|selected|] == selected;
  }

  lemma {:induction false} OfFamilyMember(selected: seq<Candidate>, k: Family, row: Row)
    ensures row in OfFamily(selected, k) <==> Candidate(k, row) in selected
  {
    if selected != [] {
      var front, last := selected[..|selected| - 1], selected[|selected| - 1];
      assert selected == front + [last];
      OfFamilyMember(front, k, row);
    }
  }

  /** The batch a fair offer yields: full, and the `r`-th row of a family sits at its own rank. */
  ghost predicate Offered(pools: Pools, selected: seq<Candidate>) {
    && |selected| == Min(BATCH_LIMIT, Total(pools))
    && (forall k: Family, r: nat :: r < |pools[k]| && Rank(pools, k, r) < BATCH_LIMIT ==>
          Rank(pools, k, r) < |selected| && selected[Rank(pools, k, r)] == Candidate(k, pools[k][r]))
    && (forall k: Family :: Share(selected, k) <= |pools[k]| && OfFamily(selected, k) == pools[k][..Share(selected, k)])
  }

  function Share(selected: seq<Candidate>, k: Family): nat {
    |OfFamily(selected, k)|
  }

  /** Offers so far: every family has given the same number of rounds, up to the one being made. */
  ghost predicate Partial(pools: Pools, selected: seq<Candidate>, next: nat, round: nat) {
    && next <= 3
    && |selected| == Rank(pools, next, round)
    && (forall k: Family, r: nat :: r < Taken(pools, k, round, next) ==>
          Rank(pools, k, r) < |selected| && selected[Rank(pools, k, r)] == Candidate(k, pools[k][r]))
    && (forall k: Family :: OfFamily(selected, k) == pools[k][..Taken(pools, k, round, next)])
  }

  /** The rows still waiting once `next` families have had their turn in `round`. */
  ghost predicate Waiting(pools: Pools, queues: Pools, next: nat, round: nat) {
    forall k: Family :: queues[k] == pools[k][Taken(pools, k, round, next)..]
  }

  lemma TakenStep(pools: Pools, next: Family, round: nat)
    requires round < |pools[next]|
    ensures forall k: Family :: Taken(pools, k, round, next + 1) == Taken(pools, k, round, next) + if k == next then 1 else 0
    ensures forall k: Family :: Taken(pools, k, round, next + 1) <= |pools[k]|
    ensures Taken(pools, next, round, next) == round
    ensures Rank(pools, next + 1, round) == Rank(pools, next, round) + 1
  {
  }

  lemma OfferRow(pools: Pools, selected: seq<Candidate>, next: Family, round: nat)
    requires Partial(pools, selected, next, round) && round < |pools[next]|
    ensures Partial(pools, selected + [Candidate(next, pools[next][round])], next + 1, round)
  {
    hide Taken, Rank, OfFamily;
    var c := Candidate(next, pools[next][round]);
    var more := selected + [c];
    TakenStep(pools, next, round);
    forall k: Family, r: nat | r < Taken(pools, k, round, next + 1)
      ensures Rank(pools, k, r) < |more| && more[Rank(pools, k, r)] == Candidate(k, pools[k][r])
    {
      if r < Taken(pools, k, round, next) {
        assert Rank(pools, k, r) < |selected| && selected[Rank(pools, k, r)] == Candidate(k, pools[k][r]);
      } else {
        assert k == next && r == round;
      }
    }
    forall k: Family
      ensures OfFamily(more, k) == pools[k][..Taken(pools, k, round, next + 1)]
    {
      OfFamilyAppend(selected, c, k);
      var taken := Taken(pools, k, round, next);
      assert OfFamily(selected, k) == pools[k][..taken];
      if k == next {
        assert pools[k][..taken + 1] == pools[k][..taken] + [pools[k][taken]];
      }
    }
  }

  lemma SameTurn(pools: Pools, selected: seq<Candidate>, next: nat, round: nat, next': nat, round': nat)
    requires Partial(pools, selected, next, round) && next' <= 3
    requires forall k: Family :: Taken(pools, k, round', next') == Taken(pools, k, round, next)
    ensures Partial(pools, selected, next', round')
  {
  }

  lemma RankMonotone(pools: Pools, k: Family, r: nat, next: nat, round: nat)
    requires Taken(pools, k, round, next) <= r < |pools[k]|
    ensures Rank(pools, next, round) <= Rank(pools, k, r)
  {
  }

  lemma PartialIsOffered(pools: Pools, selected: seq<Candidate>, next: nat, round: nat)
    requires Partial(pools, selected, next, round) && |selected| <= BATCH_LIMIT
    requires |selected| == BATCH_LIMIT || forall k: Family :: Taken(pools, k, round, next) == |pools[k]|
    ensures Offered(pools, selected)
  {
    forall k: Family, r: nat | r < |pools[k]| && Rank(pools, k, r) < BATCH_LIMIT
      ensures r < Taken(pools, k, round, next)
    {
      if r >= Taken(pools, k, round, next) {
        RankMonotone(pools, k, r, next, round);
      }
    }
    forall k: Family
      ensures Share(selected, k) <= |pools[k]| && OfFamily(selected, k) == pools[k][..Share(selected, k)]
    {
      assert OfFamily(selected, k) == pools[k][..Taken(pools, k, round, next)];
    }
    assert Rank(pools, next, round) <= Total(pools);
    if |selected| < BATCH_LIMIT {
      assert Taken(pools, 0, round, next) == |pools[0]| && Taken(pools, 1, round, next) == |pools[1]|;
    }
  }

  /** One family's turn: its next waiting row, if it has one. */
  method Offer(pools: Pools, queues: Pools, selected: seq<Candidate>, k: Family, ghost round: nat)
    returns (queues': Pools, selected': seq<Candidate>)
    requires Partial(pools, selected, k, round) && Waiting(pools, queues, k, round)
    ensures Partial(pools, selected', k + 1, round) && Waiting(pools, queues', k + 1, round)
    ensures |selected'| == |selected| + if queues[k] == [] then 0 else 1
    ensures forall j: Family :: j != k ==> queues'[j] == queues[j]
  {
    hide Partial;
    queues', selected' := queues, selected;
    if queues[k] != [] {
      OfferRow(pools, selected, k, round);
      selected' := selected + [Candidate(k, queues[k][0])];
      queues' := queues[k := queues[k][1..]];
    } else {
      SameTurn(pools, selected, k, round, k + 1, round);
    }
  }

  /** One slot to each family in turn, unless the batch fills up first. */
  method OfferRound(pools: Pools, queues: Pools, selected: seq<Candidate>, ghost round: nat)
    returns (queues': Pools, selected': seq<Candidate>, next: nat)
    requires Partial(pools, selected, 0, round) && Waiting(pools, queues, 0, round)
    requires |selected| < BATCH_LIMIT
    ensures Partial(pools, selected', next, round) && Waiting(pools, queues', next, round)
    ensures |selected'| < BATCH_LIMIT ==> next == 3
    ensures |selected| <= |selected'| <= BATCH_LIMIT
    ensures |selected'| == |selected| ==> next == 3 && forall k: Family :: queues[k] == []
  {
    queues', selected', next := queues, selected, 0;
    while next < 3 && |selected'| < BATCH_LIMIT
      invariant next <= 3 && |selected| <= |selected'| <= BATCH_LIMIT
      invariant Partial(pools, selected', next, round) && Waiting(pools, queues', next, round)
      invariant forall j: Family :: next <= j ==> queues'[j] == queues[j]
      invariant |selected| == |selected'| ==> forall j: Family :: j < next ==> queues[j] == []
    {
      queues', selected' := Offer(pools, queues', selected', next, round);
      next := next + 1;
    }
  }

  lemma NoneWaiting(pools: Pools, queues: Pools, next: nat, round: nat)
    requires Waiting(pools, queues, next, round) && queues[0] == [] && queues[1] == [] && queues[2] == []
    ensures forall k: Family :: Taken(pools, k, round, next) == |pools[k]|
  {
    forall k: Family
      ensures Taken(pools, k, round, next) == |pools[k]|
    {
      assert queues[k] == pools[k][Taken(pools, k, round, next)..];
      assert queues[k] == [];
    }
  }

  lemma NextRound(pools: Pools, queues: Pools, selected: seq<Candidate>, round: nat)
    requires Partial(pools, selected, 3, round) && Waiting(pools, queues, 3, round)
    ensures Partial(pools, selected, 0, round + 1) && Waiting(pools, queues, 0, round + 1)
  {
    SameTurn(pools, selected, 3, round, 0, round + 1);
  }

  /** Round after round, until eight slots are filled or every pool is empty. */
  method SelectCandidates(pools: Pools) returns (selected: seq<Candidate>)
    ensures Offered(pools, selected)
  {
    hide Offered;
    selected := [];
    var queues := pools;
    var next := 0;
    ghost var round := 0;
    while |selected| < BATCH_LIMIT && (queues[0] != [] || queues[1] != [] || queues[2] != [])
      invariant |selected| < BATCH_LIMIT ==> next == 0
      invariant |selected| <= BATCH_LIMIT
      invariant Partial(pools, selected, next, round) && Waiting(pools, queues, next, round)
      decreases BATCH_LIMIT - |selected|
    {
      queues, selected, next := OfferRound(pools, queues, selected, round);
      if |selected| < BATCH_LIMIT {
        NextRound(pools, queues, selected, round);
        round, next := round + 1, 0;
      }
    }
    if |selected| < BATCH_LIMIT {
      NoneWaiting(pools, queues, next, round);
    }
    PartialIsOffered(pools, selected, next, round);
  }

  /** Every family gets two of the eight slots, or as many as it can use. */
  lemma FairShare(pools: Pools, selected: seq<Candidate>, k: Family)
    requires Offered(pools, selected)
    ensures Share(selected, k) >= Min(2, |pools[k]|)
  {
    if |pools[k]| >= 2 {
      OfferedDepth(pools, selected, k, 1);
    } else if |pools[k]| == 1 {
      OfferedDepth(pools, selected, k, 0);
    }
  }

  lemma OfferedDepth(pools: Pools, selected: seq<Candidate>, k: Family, r: nat)
    requires Offered(pools, selected) && r < |pools[k]| && Rank(pools, k, r) < BATCH_LIMIT
    ensures r < Share(selected, k)
  {
    ShareCounts(pools, selected, k, r, Rank(pools, k, r) + 1);
    SharePrefix(selected, k, Rank(pools, k, r) + 1);
  }

  lemma OfferedAt(pools: Pools, selected: seq<Candidate>, k: Family, r: nat)
    requires Offered(pools, selected) && r < |pools[k]| && Rank(pools, k, r) < BATCH_LIMIT
    ensures Rank(pools, k, r) < |selected| && selected[Rank(pools, k, r)] == Candidate(k, pools[k][r])
    ensures r > 0 ==> Rank(pools, k, r - 1) < Rank(pools, k, r)
  {
    hide Total;
  }

  lemma ShareAt(selected: seq<Candidate>, k: Family, at: nat, n: nat)
    requires at < n <= |selected| && selected[at].family == k
    ensures Share(selected[..n], k) >= Share(selected[..at], k) + 1
  {
    assert selected[..at + 1] == selected[..at] + [selected[at]];
    OfFamilyAppend(selected[..at], selected[at], k);
    assert selected[..n][..at + 1] == selected[..at + 1];
    SharePrefix(selected[..n], k, at + 1);
  }

  /** Among the first `n` offers there are at least `r + 1` of the family once its `r`-th row is offered. */
  lemma {:induction false} ShareCounts(pools: Pools, selected: seq<Candidate>, k: Family, r: nat, n: nat)
    requires Offered(pools, selected) && r < |pools[k]|
    requires Rank(pools, k, r) < n <= |selected| && Rank(pools, k, r) < BATCH_LIMIT
    ensures Share(selected[..n], k) >= r + 1
  {
    hide Offered, Rank, Share;
    var at := Rank(pools, k, r);
    OfferedAt(pools, selected, k, r);
    ShareAt(selected, k, at, n);
    if r > 0 {
      ShareCounts(pools, selected, k, r - 1, at);
    }
  }

  lemma {:induction false} SharePrefix(selected: seq<Candidate>, k: Family, n: nat)
    requires n <= |selected|
    ensures Share(selected[..n], k) <= Share(selected, k)
    decreases |selected|
  {
    if n < |selected| {
      var front := selected[..|selected| - 1];
      assert front[..n] == selected[..n];
      SharePrefix(front, k, n);
    } else {
      assert selected[..n] == selected;
    }
  }

  lemma {:induction false} OfFamilyCount(selected: seq<Candidate>, k: Family, i: nat, j: nat)
    requires i < j < |selected| && selected[i] == selected[j] && selected[i].family == k
    ensures !Distinct(OfFamily(selected, k))
    decreases |selected|
  {
    var front, last := selected[..|selected| - 1], selected[|selected| - 1];
    var rows := OfFamily(front, k);
    if j < |selected| - 1 {
      OfFamilyCount(front, k, i, j);
      var a, b :| 0 <= a < b < |rows| && rows[a] == rows[b];
      assert OfFamily(selected, k)[a] == OfFamily(selected, k)[b];
    } else {
      OfFamilyMember(front, k, last.row);
      assert front[i] == Candidate(k, last.row);
      var a :| 0 <= a < |rows| && rows[a] == last.row;
      assert OfFamily(selected, k)[a] == OfFamily(selected, k)[|rows|];
    }
  }

  /** A batch never offers a target twice, and fills every slot the eligible rows can fill. */
  lemma BatchIsFullAndDistinct(eligible: Pools, cursors: Cursors, selected: seq<Candidate>)
    requires forall k: Family :: ByIdentity(eligible[k])
    requires Offered(PoolsOf(eligible, cursors), selected)
    ensures Distinct(selected)
    ensures |selected| == Min(BATCH_LIMIT, Total(eligible))
  {
    var pools := PoolsOf(eligible, cursors);
    forall k: Family
      ensures Min(BATCH_LIMIT, |eligible[k]|) <= |pools[k]| <= |eligible[k]|
      ensures Distinct(OfFamily(selected, k))
    {
      PoolRotates(eligible[k], cursors[k]);
      assert pools[k] == Pool(eligible[k], cursors[k]);
      RingDistinct(eligible[k], pools[k], Passed(eligible[k], cursors[k]));
      assert OfFamily(selected, k) == pools[k][..Share(selected, k)];
    }
    forall i, j | 0 <= i < j < |selected|
      ensures selected[i] != selected[j]
    {
      if selected[i] == selected[j] {
        OfFamilyCount(selected, selected[i].family, i, j);
      }
    }
  }

  lemma RingDistinct(rows: seq<Row>, pool: seq<Row>, start: nat)
    requires ByIdentity(rows) && start <= |rows| && |pool| <= |rows|
    requires forall j :: 0 <= j < |pool| ==> pool[j] == rows[Around(start, j, |rows|)]
    ensures Distinct(pool)
  {
    forall i, j | 0 <= i < j < |pool|
      ensures pool[i] != pool[j]
    {
      var a, b := Around(start, i, |rows|), Around(start, j, |rows|);
      assert a != b;
      assert if a < b then rows[a].id < rows[b].id else rows[b].id < rows[a].id;
    }
  }

  // ---- Rotation over completed batches ----

  type Cursors = c: seq<Option<Id>> | |c| == 3 witness [None, None, None]

  /** What a completed batch leaves behind: each family's cursor on its last reviewed row. */
  ghost predicate Advanced(before: Cursors, selected: seq<Candidate>, after: Cursors) {
    forall k: Family ::
      after[k] == var rows := OfFamily(selected, k); if rows == [] then before[k] else Some(rows[|rows| - 1].id)
  }

  method AdvanceCursors(before: Cursors, selected: seq<Candidate>) returns (after: Cursors)
    ensures Advanced(before, selected, after)
  {
    after := before;
    for i := 0 to |selected|
      invariant Advanced(before, selected[..i], after)
    {
      assert selected[..i + 1] == selected[..i] + [selected[i]];
      forall k: Family { OfFamilyAppend(selected[..i], selected[i], k); }
      after := after[selected[i].family := Some(selected[i].row.id)];
    }
    assert selected[..|selected|] == selected;
  }

  /** One consumed batch: the eligible rows of each family when it was selected, and the batch. */
  datatype Round = Round(eligible: Pools, selected: seq<Candidate>)

  function PoolsOf(eligible: Pools, cursors: Cursors): Pools {
    [Pool(eligible[0], cursors[0]), Pool(eligible[1], cursors[1]), Pool(eligible[2], cursors[2])]
  }

  /** `history[i]` holds the cursors the `i`-th batch was selected with. */
  ghost predicate ReviewRun(rounds: seq<Round>, history: seq<Cursors>) {
    && |history| == |rounds| + 1
    && (forall i :: 0 <= i < |rounds| ==> Reviewed(rounds, history, i))
  }

  ghost predicate Reviewed(rounds: seq<Round>, history: seq<Cursors>, i: nat)
    requires i < |rounds| < |history|
  {
    && Offered(PoolsOf(rounds[i].eligible, history[i]), rounds[i].selected)
    && Advanced(history[i], rounds[i].selected, history[i + 1])
  }

  // ---- How far a cursor is from a target ----

  /** Going round from behind the cursor, `u` comes no later than `x`. */
  predicate OnTheWay(cursor: Option<Id>, u: Id, x: Id) {
    match cursor
    case None => u <= x
    case Some(c) => if c < x then c < u <= x else c < u || u <= x
  }

  /** The identities of `ever` that the rotation meets up to and including `x`. */
  function Ahead(ever: set<Id>, cursor: Option<Id>, x: Id): set<Id> {
    set u | u in ever && OnTheWay(cursor, u, x)
  }

  ghost predicate Reviews(selected: seq<Candidate>, k: Family, x: Id) {
    exists row :: Candidate(k, row) in selected && row.id == x
  }

  ghost predicate HasRow(rows: seq<Row>, x: Id) {
    exists row :: row in rows && row.id == x
  }

  /** Every row of a share that stops short of `x` lies on the way to `x`, and the last one leaves them all behind. */
  lemma ShareOnTheWay(rows: seq<Row>, cursor: Option<Id>, pool: seq<Row>, share: seq<Row>, i: nat)
    requires ByIdentity(rows) && i < |rows| && pool == Pool(rows, cursor) && share <= pool && share != []
    requires forall r :: r in share ==> r.id != rows[i].id
    ensures var x, last := rows[i].id, Some(share[|share| - 1].id);
      forall j :: 0 <= j < |share| ==>
        share[j] in rows && OnTheWay(cursor, share[j].id, x) && !OnTheWay(last, share[j].id, x)
  {
    var p, n := Passed(rows, cursor), |rows|;
    PoolRotates(rows, cursor);
    CursorBounds(rows, cursor);
    ShareStops(rows, p, pool, share, i);
    hide Pool, Passed;
    forall j | 0 <= j < |share|
      ensures share[j] in rows && OnTheWay(cursor, share[j].id, rows[i].id)
      ensures !OnTheWay(Some(share[|share| - 1].id), share[j].id, rows[i].id)
    {
      assert share[j] == pool[j] == rows[Around(p, j, n)];
      assert share[|share| - 1] == pool[|share| - 1] == rows[Around(p, |share| - 1, n)];
      PlaceOnTheWay(rows, cursor, p, i, j, |share| - 1);
    }
  }

  /** The rows a cursor has passed are those up to it. */
  lemma CursorBounds(rows: seq<Row>, cursor: Option<Id>)
    requires ByIdentity(rows)
    ensures Passed(rows, cursor) <= |rows| && (cursor.None? ==> Passed(rows, cursor) == 0)
    ensures cursor.Some? ==> forall j :: 0 <= j < |rows| ==> (rows[j].id <= cursor.value <==> j < Passed(rows, cursor))
  {
    if cursor.Some? {
      CursorSplits(rows, cursor.value);
      CursorMembers(rows, cursor.value);
      hide Above, UpTo, Passed;
      var p := Passed(rows, cursor);
      forall j | 0 <= j < |rows|
        ensures rows[j].id <= cursor.value <==> j < p
      {
        if j < p {
          assert rows[..p][j] == rows[j];
        } else {
          assert rows[p..][j - p] == rows[j];
        }
      }
    }
  }

  lemma {:induction false} CursorMembers(rows: seq<Row>, c: Id)
    ensures forall r :: r in Above(rows, c) ==> r.id > c
    ensures forall r :: r in UpTo(rows, c) ==> r.id <= c
  {
    if rows != [] {
      CursorMembers(rows[1..], c);
    }
  }

  lemma ShareStops(rows: seq<Row>, p: nat, pool: seq<Row>, share: seq<Row>, i: nat)
    requires i < |rows| && p <= |rows| && share <= pool && |pool| <= |rows|
    requires forall j :: 0 <= j < |pool| ==> pool[j] == rows[Around(p, j, |rows|)]
    requires forall r :: r in share ==> r.id != rows[i].id
    ensures |share| <= Distance(p, i, |rows|)
  {
    var d := Distance(p, i, |rows|);
    assert forall j :: 0 <= j < |share| ==> share[j] in share && share[j] == pool[j];
    assert d < |pool| ==> pool[d] == rows[i];
  }

  /** Places before `i` on the ring, seen from the cursor and from a later one of them. */
  lemma PlaceOnTheWay(rows: seq<Row>, cursor: Option<Id>, p: nat, i: nat, j: nat, m: nat)
    requires ByIdentity(rows) && i < |rows| && p <= |rows| && (cursor.None? ==> p == 0)
    requires cursor.Some? ==> forall q :: 0 <= q < |rows| ==> (rows[q].id <= cursor.value <==> q < p)
    requires j <= m < Distance(p, i, |rows|)
    ensures var n, x := |rows|, rows[i].id;
      && OnTheWay(cursor, rows[Around(p, j, n)].id, x)
      && !OnTheWay(Some(rows[Around(p, m, n)].id), rows[Around(p, j, n)].id, x)
  {
    var n := |rows|;
    var at, last := Around(p, j, n), Around(p, m, n);
    assert at != i && last != i;
    assert rows[at].id < rows[i].id <==> at < i;
    assert rows[last].id < rows[i].id <==> last < i;
    assert rows[at].id <= rows[last].id <==> at <= last;
  }

  /** From a row on the way, the rest of the way to `x` is part of it. */
  lemma WayShortens(cursor: Option<Id>, last: Id, u: Id, x: Id)
    requires OnTheWay(cursor, last, x) && last != x && OnTheWay(Some(last), u, x)
    ensures OnTheWay(cursor, u, x)
  {
  }

  lemma TwoFewer(small: set<Id>, large: set<Id>, a: Id, b: Id)
    requires small <= large && a in large && b in large && a !in small && b !in small && a != b
    ensures |small| + 2 <= |large|
  {
    SubsetCardinality(small, large - {a, b});
  }

  /**
   * One completed batch reviews a given target, or its family's cursor afterwards has at least two
   * fewer of the identities that are ever eligible on its way to the target.
   */
  lemma OneRound(round: Round, cursors: Cursors, after: Cursors, k: Family, x: Id, ever: set<Id>)
    requires Offered(PoolsOf(round.eligible, cursors), round.selected)
    requires Advanced(cursors, round.selected, after)
    requires ByIdentity(round.eligible[k]) && HasRow(round.eligible[k], x)
    requires forall row :: row in round.eligible[k] ==> row.id in ever
    ensures Reviews(round.selected, k, x) || |Ahead(ever, after[k], x)| + 2 <= |Ahead(ever, cursors[k], x)|
  {
    hide Pool, ByIdentity, Ahead, PoolsOf, Offered, Rank, Total;
    var rows, share := round.eligible[k], OfFamily(round.selected, k);
    FamilyShare(round, cursors, k);
    if forall r :: r in share ==> r.id != x {
      CursorApproaches(rows, cursors[k], share, x, ever);
      AdvancedTo(cursors, round.selected, after, k);
    } else {
      var r :| r in share && r.id == x;
      OfFamilyMember(round.selected, k, r);
    }
  }

  /** A family's share of a batch is the front of its pool, and two rows if it has two. */
  lemma FamilyShare(round: Round, cursors: Cursors, k: Family)
    requires Offered(PoolsOf(round.eligible, cursors), round.selected) && ByIdentity(round.eligible[k])
    ensures var share := OfFamily(round.selected, k);
      share <= Pool(round.eligible[k], cursors[k]) && |share| >= Min(2, |round.eligible[k]|)
  {
    var pools := PoolsOf(round.eligible, cursors);
    assert pools[k] == Pool(round.eligible[k], cursors[k]);
    hide PoolsOf, Pool;
    PoolRotates(round.eligible[k], cursors[k]);
    FairShare(pools, round.selected, k);
    ShareOf(pools, round.selected, k);
    hide Offered, OfFamily;
  }

  lemma AdvancedTo(before: Cursors, selected: seq<Candidate>, after: Cursors, k: Family)
    requires Advanced(before, selected, after) && OfFamily(selected, k) != []
    ensures after[k] == Some(OfFamily(selected, k)[|OfFamily(selected, k)| - 1].id)
  {
    hide OfFamily;
  }

  /** A share that stops short of `x` brings the cursor past at least two identities on the way to it. */
  lemma CursorApproaches(rows: seq<Row>, cursor: Option<Id>, share: seq<Row>, x: Id, ever: set<Id>)
    requires ByIdentity(rows) && HasRow(rows, x) && share <= Pool(rows, cursor) && |share| >= Min(2, |rows|)
    requires forall row :: row in rows ==> row.id in ever
    requires forall r :: r in share ==> r.id != x
    ensures share != [] && |Ahead(ever, Some(share[|share| - 1].id), x)| + 2 <= |Ahead(ever, cursor, x)|
  {
    var i :| 0 <= i < |rows| && rows[i].id == x;
    hide Pool;
    assert share != [];
    ShareOnTheWay(rows, cursor, Pool(rows, cursor), share, i);
    ShareIsPair(rows, share, i);
    ShareDiffers(rows, cursor, share);
    hide ByIdentity;
    var last := share[|share| - 1].id;
    assert share[|share| - 1] in share;
    forall u | u in Ahead(ever, Some(last), x)
      ensures u in Ahead(ever, cursor, x)
    {
      WayShortens(cursor, last, u, x);
    }
    TwoFewer(Ahead(ever, Some(last), x), Ahead(ever, cursor, x), share[0].id, share[1].id);
  }

  lemma ShareDiffers(rows: seq<Row>, cursor: Option<Id>, share: seq<Row>)
    requires ByIdentity(rows) && share <= Pool(rows, cursor) && |share| >= 2
    ensures share[0].id != share[1].id
  {
    var p, n := Passed(rows, cursor), |rows|;
    PoolRotates(rows, cursor);
    hide Pool, Passed;
    assert share[0] == rows[Around(p, 0, n)] && share[1] == rows[Around(p, 1, n)];
    assert Around(p, 0, n) < Around(p, 1, n) || Around(p, 1, n) < Around(p, 0, n);
  }

  lemma ShareOf(pools: Pools, selected: seq<Candidate>, k: Family)
    requires Offered(pools, selected)
    ensures OfFamily(selected, k) <= pools[k]
  {
  }

  /** A share without `x` holds two different rows, since `x` would have been the only one. */
  lemma ShareIsPair(rows: seq<Row>, share: seq<Row>, i: nat)
    requires ByIdentity(rows) && i < |rows| && |share| >= Min(2, |rows|)
    requires forall j :: 0 <= j < |share| ==> share[j] in rows
    requires forall r :: r in share ==> r.id != rows[i].id
    ensures |share| >= 2
  {
    assert share[0] in share && share[0] in rows;
    var q :| 0 <= q < |rows| && rows[q] == share[0];
    assert q != i;
  }

  /** In every batch the target is eligible, among rows whose identities all belong to `ever`. */
  ghost predicate AlwaysEligible(rounds: seq<Round>, k: Family, x: Id, ever: set<Id>) {
    forall r :: r in rounds ==>
      && ByIdentity(r.eligible[k]) && HasRow(r.eligible[k], x)
      && forall row :: row in r.eligible[k] ==> row.id in ever
  }

  /**
   * Bounded waiting: a target that stays eligible is reviewed within the next ceil(n / 2) completed
   * batches, where n counts the identities of its family that are eligible at any time meanwhile;
   * rows may come, go and change, and the other families may do anything.
   */
  lemma {:induction false} EveryTargetReviewed(rounds: seq<Round>, history: seq<Cursors>, k: Family, x: Id, ever: set<Id>)
    requires ReviewRun(rounds, history) && rounds != []
    requires AlwaysEligible(rounds, k, x, ever) && |ever| <= 2 * |rounds|
    ensures exists r :: r in rounds && Reviews(r.selected, k, x)
  {
    SubsetCardinality(Ahead(ever, history[0][k], x), ever);
    Approach(rounds, history, k, x, ever);
  }

  lemma {:induction false} Approach(rounds: seq<Round>, history: seq<Cursors>, k: Family, x: Id, ever: set<Id>)
    requires ReviewRun(rounds, history) && rounds != []
    requires AlwaysEligible(rounds, k, x, ever) && |Ahead(ever, history[0][k], x)| <= 2 * |rounds|
    ensures exists r :: r in rounds && Reviews(r.selected, k, x)
    decreases |rounds|
  {
    hide Offered;
    hide Reviews, Ahead, HasRow, ByIdentity;
    assert rounds[0] in rounds;
    assert Reviewed(rounds, history, 0);
    OneRound(rounds[0], history[0], history[1], k, x, ever);
    if !Reviews(rounds[0].selected, k, x) {
      var rest, later := rounds[1..], history[1..];
      assert forall r :: r in rest ==> r in rounds;
      if rest == [] {
        TargetIsAhead(rounds[0], history[1][k], k, x, ever);
      } else {
        forall j | 0 <= j < |rest|
          ensures Reviewed(rest, later, j)
        {
          assert Reviewed(rounds, history, j + 1);
        }
        Approach(rest, later, k, x, ever);
      }
    }
  }

  /** The target itself is always still ahead. */
  lemma TargetIsAhead(round: Round, cursor: Option<Id>, k: Family, x: Id, ever: set<Id>)
    requires HasRow(round.eligible[k], x) && forall row :: row in round.eligible[k] ==> row.id in ever
    ensures |Ahead(ever, cursor, x)| >= 1
  {
    var row :| row in round.eligible[k] && row.id == x;
    assert x in Ahead(ever, cursor, x);
    SubsetCardinality({x}, Ahead(ever, cursor, x));
  }
}
