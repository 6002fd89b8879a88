/** What a compiled context promises: within budget, nothing mandatory missing, nothing more would fit. */
module ContextGuarantees {
  import opened Common
  import opened CandidateOrder
  import opened ContextPools
  import opened ContextPacker

  // ---- Nothing is lost between deduplication and packing ----

  function Content(pools: Pools): multiset<Candidate> {
    if pools == [] then multiset{} else Content(pools[..|pools| - 1]) + multiset(pools[|pools| - 1])
  }

  lemma {:induction false} RoundContent(pools: Pools)
    ensures multiset(Heads(pools)) + Content(Tails(pools)) == Content(pools)
  {
    if pools != [] {
      var front, last := pools[..|pools| - 1], pools[|pools| - 1];
      RoundContent(front);
      assert Tails(pools)[..|pools| - 1] == Tails(front);
      FirstAndRest(last);
    }
  }

  lemma FirstAndRest(pool: seq<Candidate>)
    ensures multiset(if pool == [] then [] else [pool[0]]) + multiset(if pool == [] then [] else pool[1..]) == multiset(pool)
  {
    if pool != [] {
      assert pool == [pool[0]] + pool[1..];
    }
  }

  lemma {:induction false} EmptyContent(pools: Pools)
    requires AllEmpty(pools)
    ensures Content(pools) == multiset{}
  {
    if pools != [] {
      EmptyContent(pools[..|pools| - 1]);
    }
  }

  lemma {:induction false} RoundRobinKeeps(pools: Pools)
    ensures multiset(RoundRobin(pools)) == Content(pools)
    decreases Total(pools)
  {
    TailsShrink(pools);
    if AllEmpty(pools) {
      EmptyContent(pools);
    } else {
      RoundRobinKeeps(Tails(pools));
      RoundContent(pools);
    }
  }

  function PoolsFor(kinds: seq<string>, s: seq<Candidate>): Pools {
    seq(|kinds|, i requires 0 <= i < |kinds| => OfKind(s, kinds[i]))
  }

  ghost predicate KindsDistinct(kinds: seq<string>) {
    forall i, j :: 0 <= i < j < |kinds| ==> kinds[i] != kinds[j]
  }

  function OfKinds(s: seq<Candidate>, kinds: set<string>): seq<Candidate> {
    if s == [] then []
    else OfKinds(s[..|s| - 1], kinds) + if s[|s| - 1].section.kind in kinds then [s[|s| - 1]] else []
  }

  lemma {:induction false} OneMoreKind(s: seq<Candidate>, kinds: set<string>, k: string)
    requires k !in kinds
    ensures multiset(OfKinds(s, kinds + {k})) == multiset(OfKinds(s, kinds)) + multiset(OfKind(s, k))
  {
    if s != [] {
      OneMoreKind(s[..|s| - 1], kinds, k);
    }
  }

  lemma {:induction false} AllKinds(s: seq<Candidate>, kinds: set<string>)
    requires forall c :: c in s ==> c.section.kind in kinds
    ensures OfKinds(s, kinds) == s
  {
    if s != [] {
      AllKinds(s[..|s| - 1], kinds);
      assert s == s[..|s| - 1] + [s[|s| - 1]];
    }
  }

  lemma {:induction false} NoKinds(s: seq<Candidate>)
    ensures OfKinds(s, {}) == []
  {
    if s != [] {
      NoKinds(s[..|s| - 1]);
    }
  }

  /** The pools of distinct kinds hold exactly the candidates of those kinds. */
  lemma {:induction false} PoolsContent(kinds: seq<string>, s: seq<Candidate>)
    requires KindsDistinct(kinds)
    ensures Content(PoolsFor(kinds, s)) == multiset(OfKinds(s, Elements(kinds)))
    decreases |kinds|
  {
    hide OfKinds, OfKind;
    if kinds == [] {
      NoKinds(s);
      assert Elements(kinds) == {};
    } else {
      var front, k := kinds[..|kinds| - 1], kinds[|kinds| - 1];
      PoolsContent(front, s);
      assert PoolsFor(kinds, s)[..|front|] == PoolsFor(front, s);
      assert kinds == front + [k] && k !in front;
      assert Elements(kinds) == Elements(front) + {k};
      OneMoreKind(s, Elements(front), k);
    }
  }

  lemma FamiliesKeep(s: seq<Candidate>)
    ensures multiset(RoundRobin(PoolsOf(s))) == multiset(s)
  {
    RoundRobinKeeps(PoolsOf(s));
    KindsAscend(s);
    var kinds := KindsOf(s);
    forall i, j | 0 <= i < j < |kinds|
      ensures kinds[i] != kinds[j]
    {
      TextTrichotomy(kinds[i], kinds[j]);
    }
    PoolsContent(kinds, s);
    AllKinds(s, Elements(kinds));
    assert PoolsOf(s) == PoolsFor(kinds, s);
  }

  lemma {:induction false} BucketsKeep(s: seq<Candidate>)
    ensures multiset(InBucket(s, Direct)) + multiset(InBucket(s, Lexical)) + multiset(InBucket(s, Recent)) == multiset(s)
  {
    if s != [] {
      var front, last := s[..|s| - 1], s[|s| - 1];
      assert s == front + [last];
      BucketsKeep(front);
    }
  }

  /** The packing order is a rearrangement of the deduplicated candidates. */
  lemma OrderKeeps(unique: seq<Candidate>)
    ensures multiset(PackingOrder(unique)) == multiset(unique) && |PackingOrder(unique)| == |unique|
  {
    FamiliesKeep(InBucket(unique, Lexical));
    FamiliesKeep(InBucket(unique, Recent));
    BucketsKeep(unique);
    assert |multiset(PackingOrder(unique))| == |multiset(unique)|;
  }

  // ---- The compiled context ----

  /**
   * A compiled context is within its budget with its final counters; the counters account for
   * every candidate; every mandatory one is in it; and no omitted one could be added to it.
   */
  lemma CompiledContext(r: Request, summary: Summary, all: seq<Candidate>)
    ensures Compile(r, summary, all) != Err(FinalTooLarge)
    ensures Compile(r, summary, all).Ok? ==>
      var c, unique := Compile(r, summary, all).value, Candidates(all);
      && Estimate(c.request) <= r.budget
      && |c.selected| + |c.omitted| == |unique|
      && multiset(c.selected) + multiset(c.omitted) == multiset(unique)
      && (forall m :: m in unique && m.mandatory ==> m in c.selected)
      && (forall o :: o in c.omitted ==> !Fits(With(Reserved(r, summary, |unique|), c.selected + [o])))
  {
    hide Sort, Unique, PackingOrder, Pack, Rankable;
    var unique := Candidates(all);
    var reserved := Reserved(r, summary, |unique|);
    var packed := Pack(reserved, PackingOrder(unique));
    OrderKeeps(unique);
    if packed.Packed? && Fits(reserved) {
      PackIsGood(reserved, PackingOrder(unique));
      FinalFits(r, summary, |unique|, packed);
      MandatorySelected(unique, packed);
    }
  }

  lemma MandatorySelected(unique: seq<Candidate>, p: Packed)
    requires p.Packed? && multiset(p.selected) + multiset(p.omitted) == multiset(unique)
    requires forall c :: c in p.omitted ==> !c.mandatory
    ensures forall m :: m in unique && m.mandatory ==> m in p.selected
  {
    assert forall m :: m in multiset(unique) ==> m in p.selected || m in p.omitted;
    assert forall m :: m in unique ==> m in multiset(unique);
  }

  // ---- Optional context cannot crowd out mandatory context ----

  function MandatoryOf(s: seq<Candidate>): seq<Candidate> {
    if s == [] then []
    else MandatoryOf(s[..|s| - 1]) + if s[|s| - 1].mandatory then [s[|s| - 1]] else []
  }

  predicate AllMandatory(s: seq<Candidate>) {
    forall c :: c in s ==> c.mandatory
  }

  predicate NoneMandatory(s: seq<Candidate>) {
    forall c :: c in s ==> !c.mandatory
  }

  lemma MandatoryBefore(s: seq<Candidate>, i: nat, j: nat)
    requires Ordered(s) && i < j < |s| && s[j].mandatory
    ensures s[i].mandatory
  {
    assert !Less(s[j], s[i]);
  }

  lemma {:induction false} MandatoryAll(s: seq<Candidate>)
    requires forall i :: 0 <= i < |s| ==> s[i].mandatory
    ensures MandatoryOf(s) == s
  {
    if s != [] {
      MandatoryAll(s[..|s| - 1]);
      assert s == s[..|s| - 1] + [s[|s| - 1]];
    }
  }

  lemma BucketAppend(s: seq<Candidate>, c: Candidate, k: Bucket)
    ensures InBucket(s + [c], k) == InBucket(s, k) + if BucketOf(c) == k then [c] else []
  {
    assert (s + [c])[..|s|] == s;
  }

  lemma PackingParts(s: seq<Candidate>)
    ensures PackingOrder(s) == InBucket(s, Direct) + RoundRobin(PoolsOf(InBucket(s, Lexical))) + RoundRobin(PoolsOf(InBucket(s, Recent)))
  {
    hide InBucket, RoundRobin, PoolsOf;
  }

  lemma {:induction false} BucketMembers(s: seq<Candidate>, k: Bucket)
    ensures forall c :: c in InBucket(s, k) <==> c in s && BucketOf(c) == k
  {
    if s != [] {
      BucketMembers(s[..|s| - 1], k);
      assert s == s[..|s| - 1] + [s[|s| - 1]];
    }
  }

  lemma SameMembers(a: seq<Candidate>, b: seq<Candidate>)
    requires multiset(a) == multiset(b)
    ensures forall c :: c in a <==> c in b
  {
    forall c
      ensures c in a <==> c in b
    {
      assert c in a <==> c in multiset(a);
      assert c in b <==> c in multiset(b);
    }
  }

  lemma {:induction false} PackMandatory(r: Request, m: seq<Candidate>)
    requires AllMandatory(m) && Fits(r)
    ensures Pack(r, m).Packed? <==> Fits(With(r, m))
    ensures Pack(r, m).Packed? ==> Pack(r, m) == Packed(m, [])
  {
    hide Fits;
    if m == [] {
      assert With(r, m) == r;
    } else {
      var front, last := m[..|m| - 1], m[|m| - 1];
      assert m == front + [last];
      PackMandatory(r, front);
      if Fits(With(r, m)) {
        FitsLess(r, front, [last]);
      }
    }
  }

  lemma FitsLess(r: Request, s: seq<Candidate>, more: seq<Candidate>)
    requires Fits(With(r, s + more))
    ensures Fits(With(r, s))
  {
    MoreIsLonger(r, s, more);
  }

  lemma {:induction false} PackOptional(r: Request, m: seq<Candidate>, rest: seq<Candidate>)
    requires NoneMandatory(rest)
    ensures Pack(r, m + rest).Overflow? <==> Pack(r, m).Overflow?
    decreases |rest|
  {
    if rest == [] {
      assert m + rest == m;
    } else {
      var front, last := rest[..|rest| - 1], rest[|rest| - 1];
      assert rest == front + [last];
      PackOptional(r, m, front);
      assert (m + rest)[..|m + rest| - 1] == m + front;
    }
  }
}
