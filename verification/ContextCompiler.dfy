/** The compilation loops: bucketing, interleaving and greedy packing against the specification. */
module ContextCompiler {
  import opened Common
  import opened CandidateOrder
  import opened ContextPools
  import opened ContextPacker

  method Partition(unique: seq<Candidate>) returns (direct: seq<Candidate>, lexical: seq<Candidate>, recent: seq<Candidate>)
    ensures direct == InBucket(unique, Direct) && lexical == InBucket(unique, Lexical) && recent == InBucket(unique, Recent)
  {
    direct, lexical, recent := [], [], [];
    for i := 0 to |unique|
      invariant direct == InBucket(unique[..i], Direct)
      invariant lexical == InBucket(unique[..i], Lexical)
      invariant recent == InBucket(unique[..i], Recent)
    {
      assert unique[..i + 1][..i] == unique[..i];
      var c := unique[i];
      if c.reason == LexicalMatch {
        lexical := lexical + [c];
      } else if c.reason in {RecentPersonal, RecentEvidence} && !c.mandatory {
        recent := recent + [c];
      } else {
        direct := direct + [c];
      }
    }
    assert unique[..|unique|] == unique;
  }

  function QueueOf(byKind: map<string, seq<Candidate>>, k: string): seq<Candidate> {
    if k in byKind then byKind[k] else []
  }

  ghost predicate QueuesHold(byKind: map<string, seq<Candidate>>, candidates: seq<Candidate>) {
    forall k :: QueueOf(byKind, k) == OfKind(candidates, k)
  }

  lemma QueueStep(byKind: map<string, seq<Candidate>>, candidates: seq<Candidate>, c: Candidate)
    requires QueuesHold(byKind, candidates)
    ensures QueuesHold(byKind[c.section.kind := QueueOf(byKind, c.section.kind) + [c]], candidates + [c])
  {
    forall k
      ensures OfKind(candidates + [c], k) == OfKind(candidates, k) + if c.section.kind == k then [c] else []
    {
      assert (candidates + [c])[..|candidates|] == candidates;
    }
    hide OfKind;
  }

  /** One pass fills a queue per kind; the queues are then taken in the order of their kinds. */
  method Queues(candidates: seq<Candidate>) returns (pools: Pools)
    ensures pools == PoolsOf(candidates)
  {
    hide OfKind;
    var byKind: map<string, seq<Candidate>> := map[];
    EmptyQueues();
    for i := 0 to |candidates|
      invariant QueuesHold(byKind, candidates[..i])
    {
      var c := candidates[i];
      assert candidates[..i + 1] == candidates[..i] + [c];
      QueueStep(byKind, candidates[..i], c);
      byKind := byKind[c.section.kind := QueueOf(byKind, c.section.kind) + [c]];
    }
    assert candidates[..|candidates|] == candidates;
    var kinds := KindsOf(candidates);
    pools := seq(|kinds|, i requires 0 <= i < |kinds| => QueueOf(byKind, kinds[i]));
  }

  lemma EmptyQueues()
    ensures QueuesHold(map[], [])
  {
  }

  method PackAll(r: Request, order: seq<Candidate>) returns (packed: Packed)
    ensures packed == Pack(r, order)
  {
    hide Fits;
    var selected, omitted := [], [];
    for i := 0 to |order|
      invariant Pack(r, order[..i]) == Packed(selected, omitted)
    {
      assert order[..i + 1][..i] == order[..i];
      var c := order[i];
      if Fits(With(r, selected + [c])) {
        selected := selected + [c];
      } else if c.mandatory {
        OverflowStays(r, order, i + 1);
        return Overflow;
      } else {
        omitted := omitted + [c];
      }
    }
    assert order[..|order|] == order;
    packed := Packed(selected, omitted);
  }

  lemma {:induction false} OverflowStays(r: Request, order: seq<Candidate>, n: nat)
    requires n <= |order| && Pack(r, order[..n]).Overflow?
    ensures Pack(r, order).Overflow?
    decreases |order|
  {
    if n == |order| {
      assert order[..n] == order;
    } else {
      assert order[..|order| - 1][..n] == order[..n];
      OverflowStays(r, order[..|order| - 1], n);
    }
  }

  method CompileContext(r: Request, summary: Summary, all: seq<Candidate>) returns (result: Result<Compiled, Error>)
    ensures result == Compile(r, summary, all)
  {
    hide Pack, Fits, Sort, Unique, InBucket, PoolsOf, RoundRobin, Rankable;
    if exists c :: c in all && !Rankable(c) {
      return Err(InvalidCandidate);
    }
    var unique := Deduplicate(Sort(all));
    var direct, lexical, recent := Partition(unique);
    var pools := Queues(lexical);
    var order := Interleave(pools);
    var priority := direct + order;
    pools := Queues(recent);
    order := Interleave(pools);
    priority := priority + order;
    var reserved := Reserved(r, summary, |unique|);
    if !Fits(reserved) {
      return Err(SummaryTooLarge);
    }
    var packed := PackAll(reserved, priority);
    if packed.Overflow? {
      return Err(MandatoryTooLarge);
    }
    var final := Final(r, summary, |unique|, packed);
    if !Fits(final) {
      return Err(FinalTooLarge);
    }
    result := Ok(Compiled(final, packed.selected, packed.omitted));
  }
}
