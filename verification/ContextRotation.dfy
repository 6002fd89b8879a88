/** Exactly when a mandatory candidate is packed behind an optional one. */
module ContextRotation {
  import opened Common
  import opened CandidateOrder
  import opened ContextPools
  import opened ContextPacker
  import opened ContextGuarantees

  /** No optional candidate is packed ahead of a mandatory one. */
  ghost predicate MandatoryLead(order: seq<Candidate>) {
    forall i, j :: 0 <= i < j < |order| && order[j].mandatory ==> order[i].mandatory
  }

  // ---- Every position of an interleaving belongs to one item ----

  lemma {:induction false} HeadPlace(pools: Pools, at: nat) returns (p: nat)
    requires at < |Heads(pools)|
    ensures p < |pools| && pools[p] != [] && |Heads(pools[..p])| == at
  {
    var n := |pools| - 1;
    if at < |Heads(pools[..n])| {
      p := HeadPlace(pools[..n], at);
      assert pools[..n][..p] == pools[..p];
    } else {
      p := n;
    }
  }

  lemma {:induction false} EveryPlace(pools: Pools, at: nat) returns (p: nat, r: nat)
    requires at < |RoundRobin(pools)|
    ensures StandsAt(pools, p, r, at) && at == ContextPools.Before(pools, p, r)
    decreases Total(pools)
  {
    TailsShrink(pools);
    if at < |Heads(pools)| {
      p := HeadPlace(pools, at);
      r := 0;
      BeforeFirst(pools, p);
    } else {
      p, r := EveryPlace(Tails(pools), at - |Heads(pools)|);
      r := r + 1;
      BeforeLater(pools, p, r);
    }
    RoundRobinPlaces(pools, p, r);
  }

  lemma {:induction false} SameRound(pools: Pools, p: nat, q: nat, r: nat)
    requires p < q <= |pools| && r < |pools[p]|
    ensures ContextPools.Before(pools, p, r) < ContextPools.Before(pools, q, r)
    decreases |pools|
  {
    var n := |pools| - 1;
    if p < n {
      SameRound(pools[..n], p, Min(q, n), r);
    }
  }

  /** The interleaving visits items by round, and by family within a round. */
  lemma PlaceOrder(pools: Pools, p: nat, r: nat, q: nat, s: nat)
    requires p < |pools| && r < |pools[p]| && q < |pools| && s < |pools[q]|
    ensures ContextPools.Before(pools, p, r) < ContextPools.Before(pools, q, s) <==> r < s || (r == s && p < q)
  {
    hide ContextPools.Before;
    if r < s {
      StrictlyBefore(pools, p, q, r, s);
    } else if s < r {
      StrictlyBefore(pools, q, p, s, r);
    } else if p < q {
      SameRound(pools, p, q, r);
    } else if q < p {
      SameRound(pools, q, p, r);
    }
  }

  // ---- When the interleaving keeps mandatory candidates in front ----

  /** Family `p` has an optional candidate whose turn comes before the last mandatory one of family `q`. */
  predicate Overtakes(pools: Pools, p: nat, q: nat) {
    && p < |pools| && q < |pools|
    && var optionalFrom, mandatoryUpTo := |MandatoryOf(pools[p])|, |MandatoryOf(pools[q])|;
       && optionalFrom < |pools[p]|
       && (optionalFrom + 1 < mandatoryUpTo || (optionalFrom + 1 == mandatoryUpTo && p < q))
  }

  ghost predicate RotationOvertakes(pools: Pools) {
    exists p, q :: Overtakes(pools, p, q)
  }

  lemma {:induction false} LeadCount(s: seq<Candidate>, i: nat)
    requires MandatoryLead(s) && i < |s|
    ensures s[i].mandatory <==> i < |MandatoryOf(s)|
  {
    var front, last := s[..|s| - 1], s[|s| - 1];
    assert MandatoryLead(front) by {
      assert forall k :: 0 <= k < |front| ==> front[k] == s[k];
    }
    MandatoryFew(front);
    if last.mandatory {
      assert forall k :: 0 <= k < |front| ==> front[k] == s[k] && s[k].mandatory;
      MandatoryAll(front);
    } else if i < |front| {
      LeadCount(front, i);
    }
  }

  lemma {:induction false} MandatoryFew(s: seq<Candidate>)
    ensures |MandatoryOf(s)| <= |s|
  {
    if s != [] {
      MandatoryFew(s[..|s| - 1]);
    }
  }

  lemma OvertakenPlaces(pools: Pools, p: nat, q: nat)
    requires forall x :: 0 <= x < |pools| ==> MandatoryLead(pools[x])
    requires Overtakes(pools, p, q)
    ensures !MandatoryLead(RoundRobin(pools))
  {
    hide RoundRobin, ContextPools.Before, MandatoryOf;
    var r, s := |MandatoryOf(pools[p])|, |MandatoryOf(pools[q])| - 1;
    MandatoryFew(pools[q]);
    RoundRobinPlaces(pools, p, r);
    RoundRobinPlaces(pools, q, s);
    PlaceOrder(pools, p, r, q, s);
    LeadCount(pools[p], r);
    LeadCount(pools[q], s);
    hide MandatoryLead;
    var i, j := ContextPools.Before(pools, p, r), ContextPools.Before(pools, q, s);
    assert !RoundRobin(pools)[i].mandatory && RoundRobin(pools)[j].mandatory;
    NotLead(RoundRobin(pools), i, j);
  }

  lemma NotLead(order: seq<Candidate>, i: nat, j: nat)
    requires i < j < |order| && order[j].mandatory && !order[i].mandatory
    ensures !MandatoryLead(order)
  {
  }

  lemma PlacesOvertaken(pools: Pools, i: nat, j: nat)
    requires forall x :: 0 <= x < |pools| ==> MandatoryLead(pools[x])
    requires i < j < |RoundRobin(pools)| && RoundRobin(pools)[j].mandatory && !RoundRobin(pools)[i].mandatory
    ensures RotationOvertakes(pools)
  {
    hide RoundRobin, ContextPools.Before, MandatoryOf;
    var p, r := EveryPlace(pools, i);
    var q, s := EveryPlace(pools, j);
    PlaceOrder(pools, p, r, q, s);
    LeadCount(pools[p], r);
    LeadCount(pools[q], s);
    hide MandatoryLead;
    assert Overtakes(pools, p, q);
  }

  /** Interleaving families that each put mandatory candidates first. */
  lemma RotationLeads(pools: Pools)
    requires forall p :: 0 <= p < |pools| ==> MandatoryLead(pools[p])
    ensures MandatoryLead(RoundRobin(pools)) <==> !RotationOvertakes(pools)
  {
    hide RoundRobin, Overtakes;
    if RotationOvertakes(pools) {
      var p, q :| Overtakes(pools, p, q);
      OvertakenPlaces(pools, p, q);
    } else if !MandatoryLead(RoundRobin(pools)) {
      var i, j :| 0 <= i < j < |RoundRobin(pools)| && RoundRobin(pools)[j].mandatory && !RoundRobin(pools)[i].mandatory;
      PlacesOvertaken(pools, i, j);
    }
  }

  // ---- When the packing order does ----

  lemma OrderedLeads(s: seq<Candidate>)
    requires Ordered(s)
    ensures MandatoryLead(s)
  {
    forall i, j | 0 <= i < j < |s| && s[j].mandatory
      ensures s[i].mandatory
    {
      MandatoryBefore(s, i, j);
    }
  }

  lemma LeadAppend(s: seq<Candidate>, c: Candidate)
    requires MandatoryLead(s) && (c.mandatory ==> AllMandatory(s))
    ensures MandatoryLead(s + [c])
  {
  }

  lemma LeadFront(s: seq<Candidate>)
    requires MandatoryLead(s) && s != []
    ensures MandatoryLead(s[..|s| - 1])
    ensures s[|s| - 1].mandatory ==> AllMandatory(s[..|s| - 1])
  {
  }

  lemma {:induction false} BucketLeads(s: seq<Candidate>, k: Bucket)
    requires MandatoryLead(s)
    ensures MandatoryLead(InBucket(s, k))
  {
    if s != [] {
      var front, last := s[..|s| - 1], s[|s| - 1];
      LeadFront(s);
      BucketLeads(front, k);
      BucketMembers(front, k);
      hide InBucket, MandatoryLead;
      assert s == front + [last];
      BucketAppend(front, last, k);
      if BucketOf(last) == k {
        LeadAppend(InBucket(front, k), last);
      } else {
        assert InBucket(s, k) == InBucket(front, k);
      }
    }
  }

  lemma {:induction false} KindLeads(s: seq<Candidate>, k: string)
    requires MandatoryLead(s)
    ensures MandatoryLead(OfKind(s, k))
    ensures AllMandatory(s) ==> AllMandatory(OfKind(s, k))
  {
    if s != [] {
      var front, last := s[..|s| - 1], s[|s| - 1];
      LeadFront(s);
      KindLeads(front, k);
      hide MandatoryLead;
      if last.section.kind == k {
        LeadAppend(OfKind(front, k), last);
      } else {
        assert OfKind(s, k) == OfKind(front, k) + [];
      }
    }
  }

  /** Three parts in a row, the last without mandatory candidates. */
  lemma PartsLead(a: seq<Candidate>, b: seq<Candidate>, c: seq<Candidate>)
    requires MandatoryLead(a) && NoneMandatory(c)
    ensures MandatoryLead(a + b + c) <==>
      MandatoryLead(b) && !((exists x :: x in a && !x.mandatory) && (exists y :: y in b && y.mandatory))
  {
    var s := a + b + c;
    assert forall i :: 0 <= i < |a| ==> s[i] == a[i];
    assert forall i :: 0 <= i < |b| ==> s[|a| + i] == b[i];
    assert forall i :: 0 <= i < |c| ==> s[|a| + |b| + i] == c[i] && c[i] in c;
    if MandatoryLead(s) {
      forall x, y | x in a && !x.mandatory && y in b && y.mandatory
        ensures false
      {
      }
      forall i, j | 0 <= i < j < |b| && b[j].mandatory
        ensures b[i].mandatory
      {
        assert s[|a| + i] == b[i] && s[|a| + j] == b[j];
      }
    } else {
      var i, j :| 0 <= i < j < |s| && s[j].mandatory && !s[i].mandatory;
      assert j < |a| + |b|;
      if |a| <= i {
        assert b[i - |a|] == s[i] && b[j - |a|] == s[j];
      } else {
        assert a[i] == s[i] && |a| <= j && b[j - |a|] == s[j];
        assert s[i] in a && s[j] in b;
      }
    }
  }

  /**
   * Some optional candidate is packed ahead of a mandatory one: a lexical match survives as mandatory
   * although an optional direct candidate survives too, or the turns of the lexical families put an
   * optional match before it.
   */
  ghost predicate Crowdable(unique: seq<Candidate>) {
    || ((exists x :: x in unique && BucketOf(x) == Direct && !x.mandatory) && (exists y :: y in unique && IsLexical(y) && y.mandatory))
    || RotationOvertakes(PoolsOf(InBucket(unique, Lexical)))
  }

  lemma PoolsLead(s: seq<Candidate>)
    requires MandatoryLead(s)
    ensures MandatoryLead(RoundRobin(PoolsOf(s))) <==> !RotationOvertakes(PoolsOf(s))
  {
    forall k { KindLeads(s, k); }
    hide MandatoryLead, OfKind;
    RotationLeads(PoolsOf(s));
  }

  lemma FamilyMembers(s: seq<Candidate>, k: Bucket)
    ensures forall c :: c in RoundRobin(PoolsOf(InBucket(s, k))) <==> c in s && BucketOf(c) == k
  {
    hide InBucket, RoundRobin, PoolsOf;
    BucketMembers(s, k);
    FamiliesKeep(InBucket(s, k));
    SameMembers(RoundRobin(PoolsOf(InBucket(s, k))), InBucket(s, k));
  }

  lemma LeadExactly(unique: seq<Candidate>)
    requires Ordered(unique)
    ensures MandatoryLead(PackingOrder(unique)) <==> !Crowdable(unique)
  {
    hide InBucket, RoundRobin, PoolsOf, MandatoryLead, Ordered, RotationOvertakes;
    OrderedLeads(unique);
    BucketLeads(unique, Direct);
    BucketLeads(unique, Lexical);
    BucketMembers(unique, Direct);
    FamilyMembers(unique, Lexical);
    FamilyMembers(unique, Recent);
    PoolsLead(InBucket(unique, Lexical));
    PartsLead(InBucket(unique, Direct), RoundRobin(PoolsOf(InBucket(unique, Lexical))), RoundRobin(PoolsOf(InBucket(unique, Recent))));
    PackingParts(unique);
  }
}
