/** Packing ranked context into a byte budget, with room reserved for counters known only at the end. */
module ContextPacker {
  import opened Common
  import opened JsonText
  import opened CandidateOrder
  import opened ContextPools

  const FRAMING_RESERVE_TOKENS: nat := 256

  // ---- The rendered request ----

  /** The rendering of a request: fixed text around the comma-joined renderings of its sections. */
  datatype Request = Request(head: string, sections: seq<string>, tail: string, budget: nat)

  function Render(r: Request): string {
    r.head + Join(r.sections) + r.tail
  }

  function Estimate(r: Request): nat {
    |Render(r)| + FRAMING_RESERVE_TOKENS
  }

  predicate Fits(r: Request) {
    Estimate(r) <= r.budget
  }

  /** The fixed text of the summary section around its three counters, in key order. */
  datatype Summary = Summary(start: string, afterOmitted: string, afterCount: string, end: string)

  function SummaryText(s: Summary, omitted: nat, count: nat, selected: nat): string {
    s.start + Digits(omitted) + s.afterOmitted + Digits(count) + s.afterCount + Digits(selected) + s.end
  }

  /** Counters that add up to the count are no longer than the count written twice. */
  lemma SummaryShrinks(s: Summary, omitted: nat, count: nat, selected: nat)
    requires omitted <= count && selected <= count
    ensures |SummaryText(s, omitted, count, selected)| <= |SummaryText(s, count, count, count)|
  {
    DigitsMonotone(omitted, count);
    DigitsMonotone(selected, count);
  }

  // ---- The order of packing ----

  predicate IsLexical(c: Candidate) {
    c.reason == LexicalMatch
  }

  predicate IsRecent(c: Candidate) {
    !IsLexical(c) && c.reason in {RecentPersonal, RecentEvidence} && !c.mandatory
  }

  datatype Bucket = Direct | Lexical | Recent

  function BucketOf(c: Candidate): Bucket {
    if IsLexical(c) then Lexical else if IsRecent(c) then Recent else Direct
  }

  function InBucket(s: seq<Candidate>, b: Bucket): seq<Candidate> {
    if s == [] then []
    else
      var front, last := s[..|s| - 1], s[|s| - 1];
      InBucket(front, b) + if BucketOf(last) == b then [last] else []
  }

  /** Direct candidates by rank, then lexical families in turn, then recent families in turn. */
  function PackingOrder(unique: seq<Candidate>): seq<Candidate> {
    InBucket(unique, Direct) + RoundRobin(PoolsOf(InBucket(unique, Lexical))) + RoundRobin(PoolsOf(InBucket(unique, Recent)))
  }

  // ---- Greedy packing ----

  datatype Packed = Overflow | Packed(selected: seq<Candidate>, omitted: seq<Candidate>)

  function Texts(s: seq<Candidate>): seq<string> {
    seq(|s|, i requires 0 <= i < |s| => s[i].section.text)
  }

  function With(r: Request, s: seq<Candidate>): Request {
    r.(sections := r.sections + Texts(s))
  }

  /** Takes what still fits; a mandatory candidate that does not fit is fatal. */
  function Pack(r: Request, order: seq<Candidate>): Packed {
    if order == [] then Packed([], [])
    else
      var last := order[|order| - 1];
      match Pack(r, order[..|order| - 1])
      case Overflow => Overflow
      case Packed(selected, omitted) =>
        if Fits(With(r, selected + [last])) then Packed(selected + [last], omitted)
        else if last.mandatory then Overflow
        else Packed(selected, omitted + [last])
  }

  datatype Error = InvalidCandidate | SummaryTooLarge | MandatoryTooLarge | FinalTooLarge

  datatype Compiled = Compiled(request: Request, selected: seq<Candidate>, omitted: seq<Candidate>)

  function Candidates(all: seq<Candidate>): seq<Candidate> {
    Unique(Sort(all))
  }

  function Reserved(r: Request, summary: Summary, count: nat): Request {
    r.(sections := r.sections + [SummaryText(summary, count, count, count)])
  }

  function Final(r: Request, summary: Summary, count: nat, p: Packed): Request
    requires p.Packed?
  {
    r.(sections := r.sections + [SummaryText(summary, |p.omitted|, count, |p.selected|)] + Texts(p.selected))
  }

  function Compile(r: Request, summary: Summary, all: seq<Candidate>): Result<Compiled, Error> {
    if exists c :: c in all && !Rankable(c) then Err(InvalidCandidate)
    else
      var unique := Candidates(all);
      var reserved := Reserved(r, summary, |unique|);
      if !Fits(reserved) then Err(SummaryTooLarge)
      else
        match Pack(reserved, PackingOrder(unique))
        case Overflow => Err(MandatoryTooLarge)
        case Packed(selected, omitted) =>
          var final := Final(r, summary, |unique|, Packed(selected, omitted));
          if !Fits(final) then Err(FinalTooLarge) else Ok(Compiled(final, selected, omitted))
  }

  // ---- Sizes ----

  lemma TextsAppend(s: seq<Candidate>, c: Candidate)
    ensures Texts(s + [c]) == Texts(s) + [c.section.text]
  {
  }

  lemma TextsConcat(s: seq<Candidate>, t: seq<Candidate>)
    ensures Texts(s + t) == Texts(s) + Texts(t)
  {
  }

  lemma MoreTexts(r: Request, before: seq<string>, more: seq<string>)
    ensures Estimate(r.(sections := before)) <= Estimate(r.(sections := before + more))
  {
    hide Join;
    JoinPrefix(before, more);
  }

  /** Adding candidates never makes the request shorter. */
  lemma MoreIsLonger(r: Request, s: seq<Candidate>, more: seq<Candidate>)
    ensures Estimate(With(r, s)) <= Estimate(With(r, s + more))
  {
    hide Texts;
    TextsConcat(s, more);
    assert r.sections + Texts(s + more) == (r.sections + Texts(s)) + Texts(more);
    MoreTexts(r, r.sections + Texts(s), Texts(more));
  }

  lemma NoRoomBehind(r: Request, before: seq<string>, more: seq<string>, x: string)
    requires !Fits(r.(sections := before + [x]))
    ensures !Fits(r.(sections := before + more + [x]))
  {
    hide Join;
    JoinPrefix(before, more);
    JoinAppend(before, x);
    JoinAppend(before + more, x);
  }

  /** One candidate costs the same behind a shorter selection, so what did not fit then does not fit later. */
  lemma NoRoomLater(r: Request, s: seq<Candidate>, more: seq<Candidate>, c: Candidate)
    requires !Fits(With(r, s + [c]))
    ensures !Fits(With(r, s + more + [c]))
  {
    hide Fits;
    TextsAppend(s, c);
    TextsAppend(s + more, c);
    TextsConcat(s, more);
    hide Texts;
    var x := c.section.text;
    assert r.sections + Texts(s + [c]) == r.sections + Texts(s) + [x];
    assert r.sections + Texts(s + more + [c]) == r.sections + Texts(s) + Texts(more) + [x];
    NoRoomBehind(r, r.sections + Texts(s), Texts(more), x);
  }

  // ---- What packing leaves ----

  /** Both lists keep the packing order, nothing is lost, and what was omitted does not fit behind what is selected. */
  ghost predicate PackedWell(r: Request, order: seq<Candidate>, p: Packed) {
    && p.Packed?
    && |p.selected| + |p.omitted| == |order|
    && multiset(p.selected) + multiset(p.omitted) == multiset(order)
    && (Fits(r) ==> Fits(With(r, p.selected)))
    && (forall c :: c in p.omitted ==> !c.mandatory && !Fits(With(r, p.selected + [c])))
  }

  lemma {:induction false} PackIsGood(r: Request, order: seq<Candidate>)
    requires Pack(r, order).Packed?
    ensures PackedWell(r, order, Pack(r, order))
  {
    hide Fits;
    if order == [] {
      assert With(r, []) == r;
    } else {
      var front, last := order[..|order| - 1], order[|order| - 1];
      assert order == front + [last];
      PackIsGood(r, front);
      PackStep(r, front, last, Pack(r, front), Pack(r, order));
    }
  }

  lemma PackStep(r: Request, front: seq<Candidate>, last: Candidate, before: Packed, after: Packed)
    requires PackedWell(r, front, before) && after.Packed?
    requires if Fits(With(r, before.selected + [last])) then after == Packed(before.selected + [last], before.omitted)
             else !last.mandatory && after == Packed(before.selected, before.omitted + [last])
    ensures PackedWell(r, front + [last], after)
  {
    hide Fits;
    if Fits(With(r, before.selected + [last])) {
      forall c | c in before.omitted
        ensures !Fits(With(r, after.selected + [c]))
      {
        NoRoomLater(r, before.selected, [last], c);
      }
    }
  }

  /** The final counters take no more room than was reserved for them. */
  lemma FinalFits(r: Request, summary: Summary, count: nat, p: Packed)
    requires p.Packed? && |p.selected| <= count && |p.omitted| <= count
    requires Fits(With(Reserved(r, summary, count), p.selected))
    ensures Fits(Final(r, summary, count, p))
  {
    SummaryShrinks(summary, |p.omitted|, count, |p.selected|);
    JoinReplace(r.sections, SummaryText(summary, count, count, count),
                SummaryText(summary, |p.omitted|, count, |p.selected|), Texts(p.selected));
  }
}
