/** The order attention candidates are considered in, and their deduplication by primary reference. */
module CandidateOrder {
  import opened Common

  datatype Reason =
    | UrgentCommitment
    | WakeCause
    | WakeReference
    | ContextReference
    | FocusReference
    | LinkedReference
    | LexicalMatch
    | RecentPersonal
    | RecentEvidence

  /** `kind` and `key` identify the first reference of the section, `text` is its rendering. */
  datatype Section = Section(kind: string, key: string, text: string)

  /** `statusOrder` and `timeOrder` are what the section's item contributes to the sort key. */
  datatype Candidate = Candidate(
    section: Section,
    reason: Reason,
    mandatory: bool,
    searchRank: Option<real>,
    statusOrder: int,
    timeOrder: int)

  function Priority(r: Reason): nat {
    match r
    case UrgentCommitment => 0
    case WakeCause => 1
    case WakeReference => 2
    case ContextReference => 2
    case FocusReference => 3
    case LinkedReference => 4
    case LexicalMatch => 5
    case RecentPersonal => 6
    case RecentEvidence => 6
  }

  function Rank(c: Candidate): int {
    if c.mandatory then -1 else Priority(c.reason)
  }

  predicate Rankable(c: Candidate) {
    c.reason == LexicalMatch ==> c.searchRank.Some? && c.searchRank.value >= 0.0
  }

  function SearchOrder(c: Candidate): real {
    if c.reason == LexicalMatch && c.searchRank.Some? then -c.searchRank.value else 0.0
  }

  // ---- Text order ----

  predicate TextLess(a: string, b: string) {
    b != "" && (a == "" || a[0] < b[0] || (a[0] == b[0] && TextLess(a[1..], b[1..])))
  }

  lemma {:induction false} TextTrichotomy(a: string, b: string)
    ensures TextLess(a, b) || TextLess(b, a) || a == b
    ensures !(TextLess(a, b) && TextLess(b, a)) && !(a == b && TextLess(a, b))
  {
    if a != "" && b != "" && a[0] == b[0] {
      TextTrichotomy(a[1..], b[1..]);
      assert a == [a[0]] + a[1..] && b == [b[0]] + b[1..];
    }
  }

  lemma {:induction false} TextTransitive(a: string, b: string, c: string)
    requires TextLess(a, b) && TextLess(b, c)
    ensures TextLess(a, c)
  {
    if a != "" && a[0] == b[0] == c[0] {
      TextTransitive(a[1..], b[1..], c[1..]);
    }
  }

  // ---- Candidate order ----

  predicate NamedLess(a: Section, b: Section) {
    TextLess(a.key, b.key) || (a.key == b.key && TextLess(a.text, b.text))
  }

  /** Rank first, then status, search rank, time, reference and rendering. */
  predicate Less(a: Candidate, b: Candidate) {
    || Rank(a) < Rank(b)
    || (Rank(a) == Rank(b) && (
          || a.statusOrder < b.statusOrder
          || (a.statusOrder == b.statusOrder && (
                || SearchOrder(a) < SearchOrder(b)
                || (SearchOrder(a) == SearchOrder(b) && (
                      || a.timeOrder < b.timeOrder
                      || (a.timeOrder == b.timeOrder && NamedLess(a.section, b.section))))))))
  }

  lemma NamedOrder(a: Section, b: Section, c: Section)
    ensures !(NamedLess(a, b) && NamedLess(b, a))
    ensures NamedLess(a, b) && NamedLess(b, c) ==> NamedLess(a, c)
    ensures !NamedLess(b, a) && !NamedLess(c, b) ==> !NamedLess(c, a)
  {
    TextTrichotomy(a.key, b.key);
    TextTrichotomy(b.key, c.key);
    TextTrichotomy(a.text, b.text);
    TextTrichotomy(b.text, c.text);
    if TextLess(a.key, b.key) && TextLess(b.key, c.key) { TextTransitive(a.key, b.key, c.key); }
    if TextLess(a.text, b.text) && TextLess(b.text, c.text) { TextTransitive(a.text, b.text, c.text); }
    TextTrichotomy(a.key, c.key);
    TextTrichotomy(a.text, c.text);
  }

  lemma LessOrder(a: Candidate, b: Candidate, c: Candidate)
    ensures !(Less(a, b) && Less(b, a))
    ensures !Less(b, a) && !Less(c, b) ==> !Less(c, a)
  {
    NamedOrder(a.section, b.section, c.section);
    hide NamedLess;
  }

  function Insert(sorted: seq<Candidate>, x: Candidate): seq<Candidate> {
    if sorted == [] || !Less(x, sorted[|sorted| - 1]) then sorted + [x]
    else Insert(sorted[..|sorted| - 1], x) + [sorted[|sorted| - 1]]
  }

  /** A stable sort: equal candidates keep their order. */
  function Sort(candidates: seq<Candidate>): seq<Candidate> {
    if candidates == [] then []
    else Insert(Sort(candidates[..|candidates| - 1]), candidates[|candidates| - 1])
  }

  ghost predicate Ordered(s: seq<Candidate>) {
    forall i, j :: 0 <= i < j < |s| ==> !Less(s[j], s[i])
  }

  lemma {:induction false} InsertKeeps(sorted: seq<Candidate>, x: Candidate)
    requires Ordered(sorted)
    ensures Ordered(Insert(sorted, x))
    ensures forall c :: c in Insert(sorted, x) <==> c == x || c in sorted
    ensures multiset(Insert(sorted, x)) == multiset(sorted) + multiset{x}
  {
    hide Less;
    if sorted == [] {
    } else {
      var front, last := sorted[..|sorted| - 1], sorted[|sorted| - 1];
      assert sorted == front + [last];
      if Less(x, last) {
        InsertKeeps(front, x);
        LastStays(front, last, x);
      } else {
        GoesLast(sorted, x);
      }
    }
  }

  lemma GoesLast(sorted: seq<Candidate>, x: Candidate)
    requires Ordered(sorted) && sorted != [] && !Less(x, sorted[|sorted| - 1])
    ensures Ordered(sorted + [x])
  {
    hide Less;
    forall i | 0 <= i < |sorted|
      ensures !Less(x, sorted[i])
    {
      LessOrder(sorted[i], sorted[|sorted| - 1], x);
    }
  }

  lemma LastStays(front: seq<Candidate>, last: Candidate, x: Candidate)
    requires Ordered(front + [last]) && Ordered(Insert(front, x)) && Less(x, last)
    requires forall c :: c in Insert(front, x) <==> c == x || c in front
    ensures Ordered(Insert(front, x) + [last])
  {
    var s := Insert(front, x);
    forall i | 0 <= i < |s|
      ensures !Less(last, s[i])
    {
      assert s[i] in s;
      if s[i] != x {
        var k :| 0 <= k < |front| && front[k] == s[i];
        assert (front + [last])[k] == s[i] && (front + [last])[|front|] == last;
      } else {
        LessOrder(x, last, x);
      }
    }
  }

  lemma {:induction false} SortSorts(candidates: seq<Candidate>)
    ensures Ordered(Sort(candidates)) && multiset(Sort(candidates)) == multiset(candidates)
    ensures forall c :: c in Sort(candidates) <==> c in candidates
  {
    if candidates != [] {
      var front, last := candidates[..|candidates| - 1], candidates[|candidates| - 1];
      assert candidates == front + [last];
      SortSorts(front);
      InsertKeeps(Sort(front), last);
    }
  }

  // ---- Deduplication ----

  function KeysOf(s: seq<Candidate>): set<string> {
    set c | c in s :: c.section.key
  }

  /** The first candidate for each primary reference. */
  function Unique(s: seq<Candidate>): (u: seq<Candidate>)
    ensures forall c :: c in u ==> c in s
  {
    if s == [] then []
    else
      var front, last := s[..|s| - 1], s[|s| - 1];
      assert s == front + [last];
      Unique(front) + if last.section.key in KeysOf(front) then [] else [last]
  }

  ghost predicate KeysDistinct(s: seq<Candidate>) {
    forall i, j :: 0 <= i < j < |s| ==> s[i].section.key != s[j].section.key
  }

  lemma KeysAppend(s: seq<Candidate>, x: Candidate)
    ensures KeysOf(s + [x]) == KeysOf(s) + {x.section.key}
    ensures KeysDistinct(s) && x.section.key !in KeysOf(s) ==> KeysDistinct(s + [x])
  {
  }

  lemma OrderedAppend(s: seq<Candidate>, x: Candidate)
    requires Ordered(s) && forall c :: c in s ==> !Less(x, c)
    ensures Ordered(s + [x])
  {
    hide Less;
  }

  lemma {:induction false} UniqueKeeps(s: seq<Candidate>)
    ensures KeysOf(Unique(s)) == KeysOf(s) && KeysDistinct(Unique(s))
    ensures Ordered(s) ==> Ordered(Unique(s))
  {
    hide Less, KeysOf, KeysDistinct;
    if s == [] {
      EmptyKeys();
    } else {
      var front, last := s[..|s| - 1], s[|s| - 1];
      assert s == front + [last];
      UniqueKeeps(front);
      KeysAppend(front, last);
      KeysAppend(Unique(front), last);
      LastIsLatest(front, last);
      hide Ordered;
      if last.section.key in KeysOf(front) {
        assert Unique(s) == Unique(front);
        assert KeysOf(s) == KeysOf(front);
      } else {
        assert Unique(s) == Unique(front) + [last];
        if Ordered(s) {
          OrderedAppend(Unique(front), last);
        }
      }
    }
  }

  lemma EmptyKeys()
    ensures KeysDistinct([]) && KeysOf([]) == {}
  {
  }

  /** What survives for a reference is the least candidate that has it. */
  lemma {:induction false} UniqueIsLeast(s: seq<Candidate>, c: Candidate, u: Candidate)
    requires Ordered(s) && c in s && u in Unique(s) && c.section.key == u.section.key
    ensures !Less(c, u)
  {
    var front, last := s[..|s| - 1], s[|s| - 1];
    assert s == front + [last];
    LastIsLatest(front, last);
    LessOrder(c, c, c);
    hide Less;
    assert forall x :: x in front ==> x.section.key in KeysOf(front);
    if last.section.key in KeysOf(front) || u != last {
      assert u in Unique(front);
      if c == last && c !in front {
        assert !Less(last, u);
      } else {
        UniqueIsLeast(front, c, u);
      }
    }
  }

  lemma LastIsLatest(front: seq<Candidate>, last: Candidate)
    ensures Ordered(front + [last]) ==> Ordered(front) && forall c :: c in front ==> !Less(last, c)
    ensures forall c :: c in Unique(front) ==> c.section.key in KeysOf(front)
  {
    if Ordered(front + [last]) {
      forall c | c in front
        ensures !Less(last, c)
      {
        var k :| 0 <= k < |front| && front[k] == c;
        assert (front + [last])[k] == c && (front + [last])[|front|] == last;
      }
      assert forall i, j :: 0 <= i < j < |front| ==> (front + [last])[i] == front[i] && (front + [last])[j] == front[j];
    }
  }

  /** A mandatory candidate always wins its reference over an optional one. */
  lemma MandatoryWins(candidates: seq<Candidate>, m: Candidate, u: Candidate)
    requires m in candidates && m.mandatory && u in Unique(Sort(candidates)) && u.section.key == m.section.key
    ensures u.mandatory
  {
    SortSorts(candidates);
    UniqueIsLeast(Sort(candidates), m, u);
    hide Sort, Unique;
    assert !u.mandatory ==> Less(m, u);
  }

  method Deduplicate(sorted: seq<Candidate>) returns (unique: seq<Candidate>)
    ensures unique == Unique(sorted)
  {
    hide KeysOf;
    EmptyKeys();
    unique := [];
    var seen: set<string> := {};
    for i := 0 to |sorted|
      invariant unique == Unique(sorted[..i]) && seen == KeysOf(sorted[..i])
    {
      assert sorted[..i + 1][..i] == sorted[..i];
      assert sorted[..i + 1] == sorted[..i] + [sorted[i]];
      KeysAppend(sorted[..i], sorted[i]);
      if sorted[i].section.key !in seen {
        unique := unique + [sorted[i]];
        seen := seen + {sorted[i].section.key};
      }
    }
    assert sorted[..|sorted|] == sorted;
  }
}
