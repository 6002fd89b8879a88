/** Which items of a page are new: the first occurrence of each deduplication key. */
module Deduplication {

  /** `key` and `fingerprint` stand for the digests of an item's identity and of its content. */
  datatype Item = Item(key: string, fingerprint: string)

  function Keys(items: seq<Item>): set<string> {
    set x | x in items :: x.key
  }

  /** One identity never comes with two contents. */
  ghost predicate Agree(items: seq<Item>) {
    forall x, y :: x in items && y in items && x.key == y.key ==> x.fingerprint == y.fingerprint
  }

  ghost predicate KeysDistinct(items: seq<Item>) {
    forall i, j :: 0 <= i < j < |items| ==> items[i].key != items[j].key
  }

  /** The items whose key has not occurred before them, in order. */
  function FirstOf(items: seq<Item>): seq<Item> {
    if items == [] then []
    else
      var front, last := items[..|items| - 1], items[|items| - 1];
      FirstOf(front) + if last.key in Keys(front) then [] else [last]
  }

  lemma FirstOfAppend(items: seq<Item>, x: Item)
    ensures FirstOf(items + [x]) == FirstOf(items) + if x.key in Keys(items) then [] else [x]
  {
    assert (items + [x])[..|items|] == items;
  }

  /** Every key survives, exactly once, with the item that came first. */
  lemma {:induction false} FirstOfKeepsKeys(items: seq<Item>)
    ensures Keys(FirstOf(items)) == Keys(items)
    ensures KeysDistinct(FirstOf(items))
    ensures forall x :: x in FirstOf(items) ==> x in items
  {
    if items != [] {
      var front, last := items[..|items| - 1], items[|items| - 1];
      FirstOfKeepsKeys(front);
      assert items == front + [last];
      assert Keys(items) == Keys(front) + {last.key};
      var kept := FirstOf(front);
      forall i | 0 <= i < |kept|
        ensures kept[i].key in Keys(front)
      {
        assert kept[i] in front;
      }
    }
  }

  ghost predicate NewAt(items: seq<Item>, p: nat) {
    p < |items| && items[p].key !in Keys(items[..p])
  }

  /** Where the kept items stood: each is the first with its key, in order, and none is skipped. */
  ghost predicate FirstPositions(items: seq<Item>, positions: seq<nat>) {
    && (forall i, j :: 0 <= i < j < |positions| ==> positions[i] < positions[j])
    && (forall p: nat :: NewAt(items, p) <==> p in positions)
  }

  lemma NewAtAppend(items: seq<Item>, x: Item, p: nat)
    ensures NewAt(items + [x], p) <==> NewAt(items, p) || (p == |items| && x.key !in Keys(items))
  {
    if p < |items| {
      assert (items + [x])[..p] == items[..p];
    } else if p == |items| {
      assert (items + [x])[..p] == items;
    }
  }

  lemma {:induction false} FirstOfInOrder(items: seq<Item>) returns (positions: seq<nat>)
    ensures FirstPositions(items, positions) && |positions| == |FirstOf(items)|
    ensures forall i :: 0 <= i < |positions| ==> positions[i] < |items| && FirstOf(items)[i] == items[positions[i]]
  {
    positions := [];
    if items != [] {
      var front, last := items[..|items| - 1], items[|items| - 1];
      var before := FirstOfInOrder(front);
      assert items == front + [last];
      FirstOfAppend(front, last);
      positions := before + if last.key in Keys(front) then [] else [|front|];
      forall p: nat { NewAtAppend(front, last, p); }
      hide NewAt, FirstOf, Keys;
      assert forall i :: 0 <= i < |before| ==> before[i] in before && items[before[i]] == front[before[i]];
    }
  }

  // ---- Screening a page against what is stored ----

  function Known(items: seq<Item>): map<string, string> {
    if items == [] then map[]
    else Known(items[..|items| - 1])[items[|items| - 1].key := items[|items| - 1].fingerprint]
  }

  lemma {:induction false} KnownFinds(items: seq<Item>)
    requires Agree(items)
    ensures Known(items).Keys == Keys(items)
    ensures forall x :: x in items ==> Known(items)[x.key] == x.fingerprint
  {
    if items != [] {
      var front, last := items[..|items| - 1], items[|items| - 1];
      assert items == front + [last];
      KnownFinds(front);
      assert Keys(items) == Keys(front) + {last.key};
    }
  }

  datatype Screened = Conflict | Screened(novel: seq<Item>, duplicates: nat, seen: map<string, string>)

  function Next(before: Screened, x: Item): Screened
    requires before.Screened?
  {
    if x.key in before.seen then
      if before.seen[x.key] != x.fingerprint then Conflict else before.(duplicates := before.duplicates + 1)
    else before.(novel := before.novel + [x], seen := before.seen[x.key := x.fingerprint])
  }

  function Screen(seen: map<string, string>, items: seq<Item>): (result: Screened)
    ensures result.Screened? ==> |result.novel| + result.duplicates == |items|
  {
    if items == [] then Screened([], 0, seen)
    else
      match Screen(seen, items[..|items| - 1])
      case Conflict => Conflict
      case Screened(_, _, _) => Next(Screen(seen, items[..|items| - 1]), items[|items| - 1])
  }

  /** What the screening has established after some items: the new ones extend the stored ones. */
  ghost predicate Extends(stored: seq<Item>, items: seq<Item>, result: Screened) {
    && result.Screened?
    && FirstOf(stored + items) == stored + result.novel
    && Agree(stored + items)
    && |result.novel| + result.duplicates == |items|
    && result.seen == Known(stored + result.novel)
  }

  lemma KnownAppend(items: seq<Item>, x: Item)
    ensures Known(items + [x]) == Known(items)[x.key := x.fingerprint]
  {
    assert (items + [x])[..|items|] == items;
  }

  lemma NextExtends(stored: seq<Item>, items: seq<Item>, x: Item, result: Screened)
    requires Extends(stored, items, result)
    ensures Agree(stored + (items + [x])) <==> Next(result, x).Screened?
    ensures Next(result, x).Screened? ==> Extends(stored, items + [x], Next(result, x))
  {
    hide FirstOf, Agree, Known, Keys;
    var all := stored + items;
    assert stored + (items + [x]) == all + [x];
    FirstOfAppend(all, x);
    AgreeAppend(all, x);
    KnownAppend(stored + result.novel, x);
    assert stored + (result.novel + [x]) == (stored + result.novel) + [x];
  }

  lemma KeptAgree(items: seq<Item>)
    requires Agree(items)
    ensures Agree(FirstOf(items))
  {
    FirstOfKeepsKeys(items);
  }

  /** What the lookup by key decides: whether one more item would contradict an earlier one. */
  lemma AgreeAppend(items: seq<Item>, x: Item)
    requires Agree(items)
    ensures Known(FirstOf(items)).Keys == Keys(items)
    ensures Agree(items + [x]) <==> (x.key in Keys(items) ==> Known(FirstOf(items))[x.key] == x.fingerprint)
  {
    FirstOfKeepsKeys(items);
    KeptAgree(items);
    KnownFinds(FirstOf(items));
    if x.key in Keys(items) {
      var y :| y in FirstOf(items) && y.key == x.key;
      assert y in items && x in items + [x];
      if Known(FirstOf(items))[x.key] == x.fingerprint {
        assert forall z :: z in items && z.key == x.key ==> z.fingerprint == y.fingerprint;
      } else {
        assert y in items + [x];
      }
    }
  }

  /**
   * The screening refuses a page exactly when some item contradicts a stored one or an earlier one
   * of the page; otherwise it keeps the first occurrence of every key not stored yet, in order.
   */
  lemma {:induction false} ScreenMeaning(stored: seq<Item>, items: seq<Item>)
    requires FirstOf(stored) == stored && Agree(stored)
    ensures Screen(Known(stored), items).Screened? <==> Agree(stored + items)
    ensures Agree(stored + items) ==> Extends(stored, items, Screen(Known(stored), items))
  {
    if items == [] {
      assert stored + items == stored;
    } else {
      var front, last := items[..|items| - 1], items[|items| - 1];
      assert items == front + [last];
      ScreenMeaning(stored, front);
      if Agree(stored + front) {
        NextExtends(stored, front, last, Screen(Known(stored), front));
      } else {
        var x, y :| x in stored + front && y in stored + front && x.key == y.key && x.fingerprint != y.fingerprint;
        assert x in stored + items && y in stored + items;
      }
    }
  }

  method ScreenPage(seen: map<string, string>, items: seq<Item>) returns (result: Screened)
    ensures result == Screen(seen, items)
  {
    var known, novel, duplicates := seen, [], 0;
    for i := 0 to |items|
      invariant Screen(seen, items[..i]) == Screened(novel, duplicates, known)
    {
      var x := items[i];
      assert items[..i + 1][..i] == items[..i];
      if x.key in known {
        if known[x.key] != x.fingerprint {
          ConflictStays(seen, items, i + 1);
          return Conflict;
        }
        duplicates := duplicates + 1;
      } else {
        novel := novel + [x];
        known := known[x.key := x.fingerprint];
      }
    }
    assert items[..|items|] == items;
    result := Screened(novel, duplicates, known);
  }

  lemma {:induction false} ConflictStays(seen: map<string, string>, items: seq<Item>, n: nat)
    requires n <= |items| && Screen(seen, items[..n]).Conflict?
    ensures Screen(seen, items).Conflict?
    decreases |items|
  {
    if n == |items| {
      assert items[..n] == items;
    } else {
      assert items[..|items| - 1][..n] == items[..n];
      ConflictStays(seen, items[..|items| - 1], n);
    }
  }

  // ---- Pages one after another ----

  /** Deduplicating page by page gives the same as deduplicating everything received at once. */
  lemma {:induction false} FirstOfPages(earlier: seq<Item>, items: seq<Item>)
    ensures FirstOf(FirstOf(earlier) + items) == FirstOf(earlier + items)
  {
    FirstOfKeepsKeys(earlier);
    if items == [] {
      assert FirstOf(earlier) + items == FirstOf(earlier) && earlier + items == earlier;
      FirstOfDistinct(FirstOf(earlier));
    } else {
      var front, last := items[..|items| - 1], items[|items| - 1];
      FirstOfPages(earlier, front);
      assert FirstOf(earlier) + items == (FirstOf(earlier) + front) + [last];
      assert earlier + items == (earlier + front) + [last];
      FirstOfAppend(FirstOf(earlier) + front, last);
      FirstOfAppend(earlier + front, last);
      FirstOfKeepsKeys(earlier + front);
      FirstOfKeepsKeys(FirstOf(earlier) + front);
    }
  }

  lemma {:induction false} FirstOfDistinct(items: seq<Item>)
    requires KeysDistinct(items)
    ensures FirstOf(items) == items
  {
    if items != [] {
      var front, last := items[..|items| - 1], items[|items| - 1];
      FirstOfDistinct(front);
      assert items == front + [last];
      assert last.key !in Keys(front);
    }
  }

  lemma AgreePages(earlier: seq<Item>, items: seq<Item>)
    requires Agree(earlier)
    ensures Agree(FirstOf(earlier) + items) <==> Agree(earlier + items)
  {
    var kept := FirstOf(earlier);
    FirstOfKeepsKeys(earlier);
    if Agree(kept + items) {
      forall x, y | x in earlier + items && y in earlier + items && x.key == y.key
        ensures x.fingerprint == y.fingerprint
      {
        var x', y' := Kept(earlier, items, x), Kept(earlier, items, y);
      }
    }
  }

  ghost function Kept(earlier: seq<Item>, items: seq<Item>, x: Item): (k: Item)
    requires Agree(earlier) && x in earlier + items
    ensures k in FirstOf(earlier) + items && k.key == x.key && k.fingerprint == x.fingerprint
  {
    FirstOfKeepsKeys(earlier);
    if x in items then x
    else
      assert x.key in Keys(FirstOf(earlier));
      var k :| k in FirstOf(earlier) && k.key == x.key; k
  }
}
