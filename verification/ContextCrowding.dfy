/** Exactly when optional context can crowd out mandatory context, whatever the budget. */
module ContextCrowding {
  import opened Common
  import opened JsonText
  import opened CandidateOrder
  import opened ContextPools
  import opened ContextPacker
  import opened ContextGuarantees
  import opened ContextRotation

  /** Packing fails exactly when the mandatory candidates do not fit by themselves. */
  ghost predicate DecidedByMandatory(r: Request, order: seq<Candidate>) {
    Pack(r, order).Overflow? <==> !Fits(With(r, MandatoryOf(order)))
  }

  // ---- What a selection costs ----

  function Cost(s: seq<Candidate>): nat {
    if s == [] then 0 else Cost(s[..|s| - 1]) + |s[|s| - 1].section.text| + 1
  }

  lemma CostAppend(s: seq<Candidate>, c: Candidate)
    ensures Cost(s + [c]) == Cost(s) + |c.section.text| + 1
  {
    assert (s + [c])[..|s|] == s;
  }

  lemma {:induction false} EstimateIsCost(r: Request, s: seq<Candidate>)
    requires r.sections != []
    ensures Estimate(With(r, s)) == Estimate(r) + Cost(s)
  {
    if s == [] {
      assert With(r, s) == r;
    } else {
      var front, last := s[..|s| - 1], s[|s| - 1];
      EstimateIsCost(r, front);
      hide Join;
      assert s == front + [last];
      TextsAppend(front, last);
      JoinAppend(r.sections + Texts(front), last.section.text);
      assert r.sections + Texts(s) == (r.sections + Texts(front)) + [last.section.text];
    }
  }

  lemma MandatoryAppend(s: seq<Candidate>, c: Candidate)
    ensures MandatoryOf(s + [c]) == MandatoryOf(s) + if c.mandatory then [c] else []
  {
    assert (s + [c])[..|s|] == s;
  }

  // ---- Leading mandatory candidates decide ----

  lemma {:induction false} LeadSplits(order: seq<Candidate>)
    requires MandatoryLead(order)
    ensures MandatoryOf(order) <= order && NoneMandatory(order[|MandatoryOf(order)|..])
  {
    if order != [] {
      var front, last := order[..|order| - 1], order[|order| - 1];
      assert order == front + [last];
      assert MandatoryLead(front) by {
        assert forall i :: 0 <= i < |front| ==> front[i] == order[i];
      }
      LeadSplits(front);
      var m := |MandatoryOf(front)|;
      if last.mandatory {
        assert forall i :: 0 <= i < |front| ==> front[i] == order[i] && order[i].mandatory;
        MandatoryAll(front);
      } else {
        assert order[m..] == front[m..] + [last];
      }
    }
  }

  lemma {:induction false} OnlyMandatory(s: seq<Candidate>)
    ensures AllMandatory(MandatoryOf(s))
  {
    if s != [] {
      OnlyMandatory(s[..|s| - 1]);
    }
  }

  lemma LeadDecides(r: Request, order: seq<Candidate>)
    requires MandatoryLead(order) && Fits(r)
    ensures DecidedByMandatory(r, order)
  {
    hide Fits, Pack;
    var m := MandatoryOf(order);
    LeadSplits(order);
    assert order == m + order[|m|..];
    OnlyMandatory(order);
    PackMandatory(r, m);
    PackOptional(r, m, order[|m|..]);
  }

  // ---- Otherwise some budget lets an optional candidate in and leaves a mandatory one out ----

  /** Whatever is packed after an optional candidate that was taken, all mandatory ones come on top of it. */
  lemma {:induction false} PackedCost(r: Request, taken: seq<Candidate>, more: seq<Candidate>)
    requires Pack(r, taken) == Packed(taken, []) && Pack(r, taken + more).Packed?
    ensures Cost(Pack(r, taken + more).selected) >= Cost(taken) + Cost(MandatoryOf(more))
    decreases |more|
  {
    hide Pack, Cost, MandatoryOf;
    if more == [] {
      assert taken + more == taken;
      NothingCosts();
    } else {
      var front, last := more[..|more| - 1], more[|more| - 1];
      assert more == front + [last];
      assert (taken + more)[..|taken + more| - 1] == taken + front;
      PackLast(r, taken + more);
      PackedCost(r, taken, front);
      MandatoryAppend(front, last);
      assert MandatoryOf(front) + [] == MandatoryOf(front);
      CostAppend(MandatoryOf(front), last);
      CostAppend(Pack(r, taken + front).selected, last);
    }
  }

  lemma NothingCosts()
    ensures Cost([]) == 0 && MandatoryOf([]) == []
  {
  }

  /** The last candidate is taken or, being optional, left out. */
  lemma PackLast(r: Request, order: seq<Candidate>)
    requires order != [] && Pack(r, order).Packed?
    ensures var before, last := Pack(r, order[..|order| - 1]), order[|order| - 1];
      && before.Packed?
      && (Pack(r, order).selected == before.selected + [last] || (!last.mandatory && Pack(r, order).selected == before.selected))
  {
    hide Fits;
  }

  lemma {:induction false} FirstOptional(order: seq<Candidate>) returns (i: nat)
    requires !MandatoryLead(order)
    ensures i < |order| && AllMandatory(order[..i]) && !order[i].mandatory && MandatoryOf(order[i + 1..]) != []
  {
    hide MandatoryOf;
    var a, b :| 0 <= a < b < |order| && order[b].mandatory && !order[a].mandatory;
    i := 0;
    while order[i].mandatory
      invariant 0 <= i <= a && forall k :: 0 <= k < i ==> order[k].mandatory
      decreases a - i
    {
      i := i + 1;
    }
    assert order[i + 1..][b - i - 1] == order[b];
    HasMandatory(order[i + 1..], b - i - 1);
  }

  lemma {:induction false} HasMandatory(s: seq<Candidate>, i: nat)
    requires i < |s| && s[i].mandatory
    ensures MandatoryOf(s) != []
  {
    if i < |s| - 1 {
      HasMandatory(s[..|s| - 1], i);
    }
  }

  lemma {:induction false} MandatoryConcat(a: seq<Candidate>, b: seq<Candidate>)
    ensures MandatoryOf(a + b) == MandatoryOf(a) + MandatoryOf(b)
    decreases |b|
  {
    if b == [] {
      assert a + b == a;
    } else {
      var front, last := b[..|b| - 1], b[|b| - 1];
      MandatoryConcat(a, front);
      assert b == front + [last] && a + b == (a + front) + [last];
      MandatoryAppend(front, last);
      MandatoryAppend(a + front, last);
    }
  }

  lemma {:induction false} CostConcat(a: seq<Candidate>, b: seq<Candidate>)
    ensures Cost(a + b) == Cost(a) + Cost(b)
    ensures b != [] ==> Cost(b) >= 1
    decreases |b|
  {
    if b == [] {
      assert a + b == a;
    } else {
      var front, last := b[..|b| - 1], b[|b| - 1];
      CostConcat(a, front);
      assert b == front + [last] && a + b == (a + front) + [last];
      CostAppend(front, last);
      CostAppend(a + front, last);
    }
  }

  lemma {:induction false} PackPrefix(r: Request, s: seq<Candidate>)
    requires Fits(With(r, s))
    ensures Pack(r, s) == Packed(s, [])
  {
    hide Fits;
    if s != [] {
      var front, last := s[..|s| - 1], s[|s| - 1];
      assert s == front + [last];
      FitsLess(r, front, [last]);
      PackPrefix(r, front);
    }
  }

  /** The budget that fits the mandatory candidates, or the leading ones with the optional one, but not both. */
  lemma Crowded(r: Request, a: seq<Candidate>, o: Candidate, rest: seq<Candidate>)
    requires r.sections != [] && AllMandatory(a) && !o.mandatory && MandatoryOf(rest) != []
    requires r.budget == Estimate(r) + Max(Cost(a + [o]), Cost(a + MandatoryOf(rest)))
    ensures Fits(r) && Fits(With(r, a + MandatoryOf(rest))) && Pack(r, a + [o] + rest).Overflow?
  {
    var m := MandatoryOf(rest);
    EstimateIsCost(r, a + m);
    EstimateIsCost(r, a + [o]);
    PackPrefix(r, a + [o]);
    CostConcat(a, m);
    CostAppend(a, o);
    if Pack(r, a + [o] + rest).Packed? {
      PackedCost(r, a + [o], rest);
      PackIsGood(r, a + [o] + rest);
      EstimateIsCost(r, Pack(r, a + [o] + rest).selected);
    }
  }

  /**
   * The mandatory candidates decide at every budget if and only if none of them is packed behind an
   * optional one.
   */
  lemma CrowdingExactly(r: Request, order: seq<Candidate>)
    requires r.sections != []
    ensures MandatoryLead(order) <==>
      forall budget :: Fits(r.(budget := budget)) ==> DecidedByMandatory(r.(budget := budget), order)
  {
    if MandatoryLead(order) {
      forall budget | Fits(r.(budget := budget))
        ensures DecidedByMandatory(r.(budget := budget), order)
      {
        LeadDecides(r.(budget := budget), order);
      }
    } else {
      var i := FirstOptional(order);
      CrowdedAt(r, order, i);
    }
  }

  lemma CrowdedAt(r: Request, order: seq<Candidate>, i: nat)
    requires r.sections != [] && i < |order|
    requires AllMandatory(order[..i]) && !order[i].mandatory && MandatoryOf(order[i + 1..]) != []
    ensures exists budget :: Fits(r.(budget := budget)) && !DecidedByMandatory(r.(budget := budget), order)
  {
    hide Pack, Fits, Cost, MandatoryOf;
    var a, o, rest := order[..i], order[i], order[i + 1..];
    var budget := Estimate(r) + Max(Cost(a + [o]), Cost(a + MandatoryOf(rest)));
    assert order == a + [o] + rest;
    MandatoryConcat(a + [o], rest);
    MandatoryAppend(a, o);
    MandatoryAll(a);
    Crowded(r.(budget := budget), a, o, rest);
    assert MandatoryOf(order) == a + MandatoryOf(rest);
    assert !DecidedByMandatory(r.(budget := budget), order);
  }

  // ---- Compiling ----

  lemma CostWithout(s: seq<Candidate>, i: nat)
    requires i < |s|
    ensures Cost(s) == Cost(s[..i] + s[i + 1..]) + |s[i].section.text| + 1
    ensures multiset(s[..i] + s[i + 1..]) == multiset(s) - multiset{s[i]}
  {
    hide Cost;
    assert s == s[..i] + [s[i]] + s[i + 1..];
    CostConcat(s[..i], s[i + 1..]);
    CostAppend(s[..i], s[i]);
    CostConcat(s[..i] + [s[i]], s[i + 1..]);
  }

  lemma {:induction false} CostPermutes(a: seq<Candidate>, b: seq<Candidate>)
    requires multiset(a) == multiset(b)
    ensures Cost(a) == Cost(b)
  {
    hide Cost;
    if a == [] {
      assert |b| == |multiset(b)|;
      assert b == [];
    } else {
      var k := |a| - 1;
      assert a[k] in multiset(b);
      var i :| 0 <= i < |b| && b[i] == a[k];
      CostWithout(a, k);
      CostWithout(b, i);
      assert a[..k] + a[k + 1..] == a[..k];
      CostPermutes(a[..k], b[..i] + b[i + 1..]);
    }
  }

  lemma {:induction false} MandatoryContent(s: seq<Candidate>)
    ensures forall c :: multiset(MandatoryOf(s))[c] == if c.mandatory then multiset(s)[c] else 0
  {
    if s != [] {
      var front, last := s[..|s| - 1], s[|s| - 1];
      assert s == front + [last];
      MandatoryContent(front);
    }
  }

  /** The mandatory candidates take the same room in any order. */
  lemma MandatoryRoom(r: Request, a: seq<Candidate>, b: seq<Candidate>)
    requires r.sections != [] && multiset(a) == multiset(b)
    ensures Fits(With(r, MandatoryOf(a))) <==> Fits(With(r, MandatoryOf(b)))
  {
    MandatoryContent(a);
    MandatoryContent(b);
    assert multiset(MandatoryOf(a)) == multiset(MandatoryOf(b));
    CostPermutes(MandatoryOf(a), MandatoryOf(b));
    EstimateIsCost(r, MandatoryOf(a));
    EstimateIsCost(r, MandatoryOf(b));
  }

  /** Compiling fails for lack of room exactly when the mandatory candidates alone have none. */
  ghost predicate MandatoryAlone(r: Request, summary: Summary, all: seq<Candidate>) {
    var unique := Candidates(all);
    var reserved := Reserved(r, summary, |unique|);
    Fits(reserved) ==> (Compile(r, summary, all) == Err(MandatoryTooLarge) <==> !Fits(With(reserved, MandatoryOf(unique))))
  }

  lemma CompilePacks(r: Request, summary: Summary, all: seq<Candidate>)
    requires forall c :: c in all ==> Rankable(c)
    ensures var unique := Candidates(all);
      var reserved := Reserved(r, summary, |unique|);
      Fits(reserved) ==> (MandatoryAlone(r, summary, all) <==> DecidedByMandatory(reserved, PackingOrder(unique)))
  {
    hide Pack, PackingOrder, Fits, Sort, Unique, Rankable, MandatoryOf;
    var unique := Candidates(all);
    var reserved := Reserved(r, summary, |unique|);
    CompiledContext(r, summary, all);
    OrderKeeps(unique);
    MandatoryRoom(reserved, PackingOrder(unique), unique);
  }

  /**
   * Whether compiling fails for lack of room is decided by the mandatory candidates alone, at every
   * budget, if and only if no surviving optional candidate is packed ahead of a mandatory one.
   */
  lemma MandatoryDecides(r: Request, summary: Summary, all: seq<Candidate>)
    requires forall c :: c in all ==> Rankable(c)
    ensures !Crowdable(Candidates(all)) <==> forall budget :: MandatoryAlone(r.(budget := budget), summary, all)
  {
    hide Pack, PackingOrder, Fits, Sort, Unique, Rankable, MandatoryOf, Crowdable, Ordered, MandatoryLead;
    var unique := Candidates(all);
    var order := PackingOrder(unique);
    var reserved := Reserved(r, summary, |unique|);
    SortSorts(all);
    UniqueKeeps(Sort(all));
    LeadExactly(unique);
    CrowdingExactly(reserved, order);
    forall budget
      ensures MandatoryAlone(r.(budget := budget), summary, all)
        <==> (Fits(reserved.(budget := budget)) ==> DecidedByMandatory(reserved.(budget := budget), order))
    {
      CompilePacks(r.(budget := budget), summary, all);
      assert reserved.(budget := budget) == Reserved(r.(budget := budget), summary, |unique|);
    }
    hide DecidedByMandatory, MandatoryAlone;
  }

  /** Candidates none of whose mandatory ones is a lexical match, as selection provides them, never crowd. */
  lemma LexicalFreeLeads(all: seq<Candidate>)
    requires forall c :: c in all && c.mandatory ==> !IsLexical(c)
    ensures !Crowdable(Candidates(all))
  {
    var unique := Candidates(all);
    SortSorts(all);
    hide Sort, Unique;
    var lexical := InBucket(unique, Lexical);
    BucketMembers(unique, Lexical);
    hide InBucket;
    forall k { NoMandatoryKind(lexical, k); }
  }

  lemma {:induction false} NoMandatoryKind(s: seq<Candidate>, k: string)
    requires NoneMandatory(s)
    ensures NoneMandatory(OfKind(s, k)) && MandatoryOf(OfKind(s, k)) == []
  {
    if s != [] {
      var front, last := s[..|s| - 1], s[|s| - 1];
      assert s == front + [last] && !last.mandatory;
      NoMandatoryKind(front, k);
      MandatoryAppend(OfKind(front, k), last);
      if last.section.kind != k {
        assert OfKind(s, k) == OfKind(front, k);
      }
    }
  }

  // ---- A list that crowds ----

  const OPTIONAL := Candidate(Section("goal", "a", "goal"), LinkedReference, false, None, 0, 0)
  const REQUIRED := Candidate(Section("goal", "b", "need"), LexicalMatch, true, Some(1.0), 0, 0)
  const BLANK := Request("", [], "", 0)
  const COUNTERS := Summary("", "", "", "")

  lemma ExampleSorted()
    ensures Sort([OPTIONAL, REQUIRED]) == [REQUIRED, OPTIONAL]
  {
    var all := [OPTIONAL, REQUIRED];
    assert Less(REQUIRED, OPTIONAL);
    hide Less;
    assert [OPTIONAL][..0] == [] && Sort([OPTIONAL]) == [OPTIONAL];
    assert all[..1] == [OPTIONAL] && Insert([], REQUIRED) == [REQUIRED];
    assert Insert([OPTIONAL], REQUIRED) == [REQUIRED, OPTIONAL];
  }

  lemma ExampleOrder()
    ensures Candidates([OPTIONAL, REQUIRED]) == [REQUIRED, OPTIONAL]
    ensures PackingOrder([REQUIRED, OPTIONAL]) == [OPTIONAL, REQUIRED]
    ensures Crowdable([REQUIRED, OPTIONAL])
  {
    ExampleSorted();
    ExampleFamilies();
    hide Sort, PackingOrder, RotationOvertakes;
    assert [REQUIRED][..0] == [] && Unique([REQUIRED]) == [REQUIRED];
    assert [REQUIRED, OPTIONAL][..1] == [REQUIRED];
    assert Unique([REQUIRED, OPTIONAL]) == [REQUIRED, OPTIONAL];
    hide Unique;
    assert OPTIONAL in [REQUIRED, OPTIONAL] && REQUIRED in [REQUIRED, OPTIONAL];
    assert BucketOf(OPTIONAL) == Direct && IsLexical(REQUIRED);
  }

  lemma ExampleBucket(k: Bucket)
    ensures InBucket([REQUIRED, OPTIONAL], k) == match k case Direct => [OPTIONAL] case Lexical => [REQUIRED] case Recent => []
  {
    assert [REQUIRED, OPTIONAL] == [REQUIRED] + [OPTIONAL] && [REQUIRED] == [] + [REQUIRED];
    BucketAppend([], REQUIRED, k);
    BucketAppend([REQUIRED], OPTIONAL, k);
  }

  lemma ExampleFamilies()
    ensures PackingOrder([REQUIRED, OPTIONAL]) == [OPTIONAL, REQUIRED]
  {
    var unique := [REQUIRED, OPTIONAL];
    ExampleBucket(Direct);
    ExampleBucket(Lexical);
    ExampleBucket(Recent);
    FamiliesKeep([REQUIRED]);
    FamiliesKeep([]);
    hide InBucket, RoundRobin, PoolsOf;
    assert RoundRobin(PoolsOf([REQUIRED])) == [REQUIRED] by {
      var order := RoundRobin(PoolsOf([REQUIRED]));
      assert |order| == |multiset(order)| == 1;
      assert order[0] in multiset(order);
    }
    assert RoundRobin(PoolsOf([])) == [] by {
      assert |RoundRobin(PoolsOf([]))| == |multiset(RoundRobin(PoolsOf([])))| == 0;
    }
  }

  /**
   * With 264 tokens the mandatory candidate fits by itself behind the reserved summary, but the
   * optional one is packed first and compiling fails.
   */
  lemma ExampleCrowds()
    ensures var r, all := BLANK.(budget := 264), [OPTIONAL, REQUIRED];
      && Crowdable(Candidates(all))
      && Compile(r, COUNTERS, all) == Err(MandatoryTooLarge)
      && Fits(With(Reserved(r, COUNTERS, |Candidates(all)|), [REQUIRED]))
      && !MandatoryAlone(r, COUNTERS, all)
  {
    hide Sort, Unique, PackingOrder, Crowdable, Pack, Fits, Digits, SummaryText, Cost, Estimate, Join;
    ExampleOrder();
    var r := BLANK.(budget := 264);
    ExamplePacks(Reserved(r, COUNTERS, 2));
    MandatoryAppend([], REQUIRED);
    MandatoryAppend([REQUIRED], OPTIONAL);
    assert [REQUIRED] + [OPTIONAL] == [REQUIRED, OPTIONAL] && [] + [REQUIRED] == [REQUIRED];
    assert MandatoryOf([REQUIRED, OPTIONAL]) == [REQUIRED];
  }

  /** The required candidate fits alone, but not behind the optional one. */
  lemma ExamplePacks(reserved: Request)
    requires reserved == Reserved(BLANK.(budget := 264), COUNTERS, 2)
    ensures Pack(reserved, [OPTIONAL, REQUIRED]) == Overflow && Fits(reserved) && Fits(With(reserved, [REQUIRED]))
  {
    assert Digits(2) == "2" && SummaryText(COUNTERS, 2, 2, 2) == "222";
    assert reserved.sections == ["222"];
    assert Estimate(reserved) == 259;
    hide Digits, SummaryText, Cost, Estimate, Join;
    EstimateIsCost(reserved, [OPTIONAL]);
    EstimateIsCost(reserved, [REQUIRED]);
    EstimateIsCost(reserved, [OPTIONAL, REQUIRED]);
    ExampleCosts();
    PackPrefix(reserved, [OPTIONAL]);
    assert [OPTIONAL, REQUIRED][..1] == [OPTIONAL] && [] + [OPTIONAL] == [OPTIONAL] && [OPTIONAL] + [REQUIRED] == [OPTIONAL, REQUIRED];
  }

  lemma ExampleCosts()
    ensures Cost([OPTIONAL]) == 5 && Cost([REQUIRED]) == 5 && Cost([OPTIONAL, REQUIRED]) == 10
  {
    CostAppend([], OPTIONAL);
    CostAppend([], REQUIRED);
    CostAppend([OPTIONAL], REQUIRED);
    assert [] + [OPTIONAL] == [OPTIONAL] && [] + [REQUIRED] == [REQUIRED] && [OPTIONAL] + [REQUIRED] == [OPTIONAL, REQUIRED];
  }
}
