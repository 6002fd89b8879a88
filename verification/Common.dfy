/** Vocabulary shared by every component of the model. */
module Common {

  /** A UUID. Only equality and the total order the store's queries sort by matter. */
  type Id = nat

  /** An instant, in microseconds. */
  type Time = int

  /** A typed reference to a stored object. */
  datatype Ref = Ref(kind: string, id: Id)

  datatype Option<+T> = None | Some(value: T)

  datatype Result<+T, +E> = Ok(value: T) | Err(error: E)

  ghost predicate Distinct<T>(s: seq<T>) {
    forall i, j :: 0 <= i < j < |s| ==> s[i] != s[j]
  }

  function Min(a: int, b: int): int {
    if a <= b then a else b
  }

  function Max(a: int, b: int): int {
    if a >= b then a else b
  }

  function Elements<T(==)>(s: seq<T>): set<T> {
    set x | x in s
  }

  lemma {:induction false} DistinctCardinality<T>(s: seq<T>)
    requires Distinct(s)
    ensures |Elements(s)| == |s|
  {
    if s != [] {
      var rest := s[..|s| - 1];
      var last := s[|s| - 1];
      DistinctCardinality(rest);
      assert s == rest + [last];
      assert last !in Elements(rest);
      assert Elements(s) == Elements(rest) + {last};
    }
  }

  lemma SubsetCardinality<T>(a: set<T>, b: set<T>)
    requires a <= b
    ensures |a| <= |b|
    ensures |a| == |b| ==> a == b
  {
    assert b == a + (b - a);
  }

  /** Appends each incoming reference that is not there yet. */
  function UnionRefs<T(==)>(known: seq<T>, incoming: seq<T>): seq<T>
    decreases |incoming|
  {
    if incoming == [] then known
    else UnionRefs(if incoming[0] in known then known else known + [incoming[0]], incoming[1..])
  }

  /** Earlier references stay in front, every incoming one is present, and nothing is invented. */
  lemma {:induction false} UnionKeepsBoth<T>(known: seq<T>, incoming: seq<T>)
    ensures known <= UnionRefs(known, incoming)
    ensures forall r :: r in UnionRefs(known, incoming) <==> r in known || r in incoming
    ensures Distinct(known) ==> Distinct(UnionRefs(known, incoming))
    decreases |incoming|
  {
    if incoming != [] {
      var next := if incoming[0] in known then known else known + [incoming[0]];
      assert incoming == [incoming[0]] + incoming[1..];
      UnionKeepsBoth(next, incoming[1..]);
    }
  }

  // ---- Findings ----

  /** A finding, if there is one; a batch is acceptable when no finding remains. */
  function Note(found: bool, reason: string): (errors: seq<string>)
    ensures |errors| == 0 <==> !found
  {
    if found then [reason] else []
  }

  predicate Blank(text: string) {
    forall c :: c in text ==> c in {' ', '\t', '\n', '\r'}
  }
}
