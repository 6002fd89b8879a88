/** Fair interleaving of candidate families: one item from each before any family gives its next. */
module ContextPools {
  import opened Common
  import opened CandidateOrder

  // ---- Families in a fixed order ----

  ghost predicate Ascending(kinds: seq<string>) {
    forall i, j :: 0 <= i < j < |kinds| ==> TextLess(kinds[i], kinds[j])
  }

  function InsertKind(kinds: seq<string>, k: string): seq<string> {
    if kinds == [] || TextLess(kinds[|kinds| - 1], k) then kinds + [k]
    else if kinds[|kinds| - 1] == k then kinds
    else InsertKind(kinds[..|kinds| - 1], k) + [kinds[|kinds| - 1]]
  }

  /** The kinds that occur, each once, in text order. */
  function KindsOf(candidates: seq<Candidate>): seq<string> {
    if candidates == [] then []
    else InsertKind(KindsOf(candidates[..|candidates| - 1]), candidates[|candidates| - 1].section.kind)
  }

  lemma {:induction false} InsertKindKeeps(kinds: seq<string>, k: string)
    requires Ascending(kinds)
    ensures Ascending(InsertKind(kinds, k))
    ensures forall x :: x in InsertKind(kinds, k) <==> x == k || x in kinds
  {
    hide TextLess;
    if kinds != [] {
      var front, last := kinds[..|kinds| - 1], kinds[|kinds| - 1];
      assert kinds == front + [last];
      TextTrichotomy(last, k);
      if TextLess(last, k) {
        forall i | 0 <= i < |front|
          ensures TextLess(kinds[i], k)
        {
          TextTransitive(kinds[i], last, k);
        }
      } else if last != k {
        InsertKindKeeps(front, k);
        var inserted := InsertKind(front, k);
        forall i | 0 <= i < |inserted|
          ensures TextLess(inserted[i], last)
        {
          assert inserted[i] in inserted;
          if inserted[i] != k {
            var j :| 0 <= j < |front| && front[j] == inserted[i];
            assert kinds[j] == inserted[i];
          }
        }
      }
    }
  }

  lemma {:induction false} KindsAscend(candidates: seq<Candidate>)
    ensures Ascending(KindsOf(candidates))
    ensures forall k :: k in KindsOf(candidates) <==> exists c :: c in candidates && c.section.kind == k
  {
    if candidates != [] {
      var front, last := candidates[..|candidates| - 1], candidates[|candidates| - 1];
      assert candidates == front + [last];
      KindsAscend(front);
      InsertKindKeeps(KindsOf(front), last.section.kind);
    }
  }

  function OfKind(candidates: seq<Candidate>, k: string): seq<Candidate> {
    if candidates == [] then []
    else
      var front, last := candidates[..|candidates| - 1], candidates[|candidates| - 1];
      OfKind(front, k) + if last.section.kind == k then [last] else []
  }

  type Pools = seq<seq<Candidate>>

  function PoolsOf(candidates: seq<Candidate>): Pools {
    var kinds := KindsOf(candidates);
    seq(|kinds|, i requires 0 <= i < |kinds| => OfKind(candidates, kinds[i]))
  }

  // ---- Interleaving ----

  function Total(pools: Pools): nat {
    if pools == [] then 0 else Total(pools[..|pools| - 1]) + |pools[|pools| - 1]|
  }

  function Heads(pools: Pools): seq<Candidate> {
    if pools == [] then []
    else
      var last := pools[|pools| - 1];
      Heads(pools[..|pools| - 1]) + if last == [] then [] else [last[0]]
  }

  function Tails(pools: Pools): Pools {
    seq(|pools|, i requires 0 <= i < |pools| => if pools[i] == [] then [] else pools[i][1..])
  }

  predicate AllEmpty(pools: Pools) {
    forall i :: 0 <= i < |pools| ==> pools[i] == []
  }

  lemma {:induction false} TailsShrink(pools: Pools)
    ensures Total(Tails(pools)) + |Heads(pools)| == Total(pools)
    ensures Heads(pools) == [] <==> AllEmpty(pools)
  {
    if pools != [] {
      var front, last := pools[..|pools| - 1], pools[|pools| - 1];
      TailsShrink(front);
      assert Tails(pools)[..|pools| - 1] == Tails(front);
      assert AllEmpty(pools) <==> AllEmpty(front) && last == [] by {
        assert forall i :: 0 <= i < |front| ==> front[i] == pools[i];
      }
    }
  }

  function RoundRobin(pools: Pools): seq<Candidate>
    decreases Total(pools)
  {
    TailsShrink(pools);
    if AllEmpty(pools) then [] else Heads(pools) + RoundRobin(Tails(pools))
  }

  /** Item `r` of pool `p` stands at position `at` of the interleaving. */
  ghost predicate StandsAt(pools: Pools, p: nat, r: nat, at: nat) {
    p < |pools| && r < |pools[p]| && at < |RoundRobin(pools)| && RoundRobin(pools)[at] == pools[p][r]
  }

  /** How many offers precede item `r` of pool `p`: every pool's first `r`, and the `r`-th of earlier pools. */
  function Before(pools: Pools, p: nat, r: nat): nat
    requires p <= |pools|
    decreases |pools|
  {
    if pools == [] then 0
    else
      var n := |pools| - 1;
      if p == |pools| then Before(pools[..n], n, r) + Min(|pools[n]|, r + 1)
      else Before(pools[..n], p, r) + Min(|pools[n]|, r)
  }

  lemma {:induction false} BeforeFirst(pools: Pools, p: nat)
    requires p <= |pools|
    ensures Before(pools, p, 0) == |Heads(pools[..p])|
    ensures p < |pools| && pools[p] != [] ==> |Heads(pools[..p])| < |Heads(pools)| && Heads(pools)[|Heads(pools[..p])|] == pools[p][0]
    decreases |pools|
  {
    if pools != [] {
      var n := |pools| - 1;
      var front := pools[..n];
      if p == |pools| {
        BeforeFirst(front, n);
        assert front[..n] == front && pools[..p] == pools;
      } else {
        BeforeFirst(front, p);
        assert front[..p] == pools[..p];
        if p < n {
          assert front[p] == pools[p];
        } else {
          assert front[..p] == front;
        }
      }
    }
  }

  lemma {:induction false} BeforeLater(pools: Pools, p: nat, r: nat)
    requires p <= |pools| && r > 0
    ensures Before(pools, p, r) == |Heads(pools)| + Before(Tails(pools), p, r - 1)
    decreases |pools|
  {
    if pools != [] {
      var n := |pools| - 1;
      var front := pools[..n];
      assert Tails(pools)[..n] == Tails(front);
      if p == |pools| {
        BeforeLater(front, n, r);
      } else {
        BeforeLater(front, p, r);
      }
    }
  }

  /** Each item stands exactly behind the offers that precede it. */
  lemma {:induction false} RoundRobinPlaces(pools: Pools, p: nat, r: nat)
    requires p < |pools| && r < |pools[p]|
    ensures StandsAt(pools, p, r, Before(pools, p, r))
    decreases r
  {
    TailsShrink(pools);
    assert !AllEmpty(pools);
    if r == 0 {
      BeforeFirst(pools, p);
    } else {
      RoundRobinPlaces(Tails(pools), p, r - 1);
      BeforeLater(pools, p, r);
    }
  }

  lemma {:induction false} RoundRobinLength(pools: Pools)
    ensures |RoundRobin(pools)| == Total(pools)
    decreases Total(pools)
  {
    TailsShrink(pools);
    if AllEmpty(pools) {
      assert Heads(pools) == [];
      NoneLeft(pools);
    } else {
      RoundRobinLength(Tails(pools));
    }
  }

  lemma {:induction false} NoneLeft(pools: Pools)
    requires AllEmpty(pools)
    ensures Total(pools) == 0
  {
    if pools != [] {
      NoneLeft(pools[..|pools| - 1]);
    }
  }

  lemma {:induction false} BeforeMonotone(pools: Pools, p: nat, q: nat, r: nat, later: nat)
    requires p <= |pools| && q <= |pools| && r < later
    ensures Before(pools, p, r) <= Before(pools, q, later)
    decreases |pools|
  {
    if pools != [] {
      var n := |pools| - 1;
      BeforeMonotone(pools[..n], Min(p, n), Min(q, n), r, later);
    }
  }

  /** Fairness: nobody's later item comes before anybody's earlier item. */
  lemma EarlierRoundsFirst(pools: Pools, p: nat, r: nat, q: nat, later: nat)
    requires p < |pools| && r < |pools[p]| && q < |pools| && later < |pools[q]| && r < later
    ensures StandsAt(pools, p, r, Before(pools, p, r)) && StandsAt(pools, q, later, Before(pools, q, later))
    ensures Before(pools, p, r) < Before(pools, q, later)
  {
    RoundRobinPlaces(pools, p, r);
    RoundRobinPlaces(pools, q, later);
    StrictlyBefore(pools, p, q, r, later);
  }

  lemma {:induction false} StrictlyBefore(pools: Pools, p: nat, q: nat, r: nat, later: nat)
    requires p < |pools| && r < |pools[p]| && q <= |pools| && r < later
    ensures Before(pools, p, r) < Before(pools, q, later)
    decreases |pools|
  {
    var n := |pools| - 1;
    if p < n {
      StrictlyBefore(pools[..n], p, Min(q, n), r, later);
    } else {
      BeforeMonotone(pools[..n], n, Min(q, n), r, later);
    }
  }

  /** Pops one item from each nonempty pool. */
  method TakeRound(pools: Pools) returns (heads: seq<Candidate>, rest: Pools)
    ensures heads == Heads(pools) && rest == Tails(pools)
  {
    heads, rest := [], pools;
    for i := 0 to |pools|
      invariant |rest| == |pools| && heads == Heads(pools[..i])
      invariant forall j :: 0 <= j < |rest| ==> rest[j] == if j < i then Tails(pools)[j] else pools[j]
    {
      assert pools[..i + 1][..i] == pools[..i];
      if rest[i] != [] {
        heads := heads + [rest[i][0]];
        rest := rest[i := rest[i][1..]];
      }
    }
    assert pools[..|pools|] == pools;
  }

  method Interleave(pools: Pools) returns (order: seq<Candidate>)
    ensures order == RoundRobin(pools)
  {
    order := [];
    var rest := pools;
    while exists i :: 0 <= i < |rest| && rest[i] != []
      invariant order + RoundRobin(rest) == RoundRobin(pools)
      decreases Total(rest)
    {
      TailsShrink(rest);
      ghost var before := rest;
      var heads;
      heads, rest := TakeRound(rest);
      hide Heads, Tails, Total;
      assert order + RoundRobin(before) == (order + heads) + RoundRobin(rest);
      order := order + heads;
    }
  }
}
