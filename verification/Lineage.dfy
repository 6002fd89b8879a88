/** The lineage check of the database inspector: which individuals sit on a parent cycle. */
module Lineage {
  import opened Common

  type Parents = map<Id, Option<Id>>

  function Parent(parents: Parents, x: Id): Option<Id> {
    if x in parents then parents[x] else None
  }

  /** The individual reached from `x` by following `k` parent edges, if the edges exist. */
  ghost function Ancestor(parents: Parents, x: Id, k: nat): Option<Id> {
    if k == 0 then Some(x)
    else match Ancestor(parents, x, k - 1)
      case None => None
      case Some(y) => Parent(parents, y)
  }

  /** `x` lies on a cycle of at least two individuals; a bare self-parent does not count. */
  ghost predicate OnCycle(parents: Parents, x: Id) {
    && x in parents
    && parents[x] != Some(x)
    && exists k: nat :: 1 <= k && Ancestor(parents, x, k) == Some(x)
  }

  /** Parent edges never leave `d`, except to an unknown individual or to none. */
  ghost predicate Closed(parents: Parents, d: set<Id>) {
    forall x :: x in d ==> Inside(parents, d, Parent(parents, x))
  }

  ghost predicate Inside(parents: Parents, d: set<Id>, y: Option<Id>) {
    y.None? || y.value !in parents || y.value in d
  }

  lemma {:induction false} AncestorAdd(parents: Parents, x: Id, a: nat, b: nat)
    requires Ancestor(parents, x, a).Some?
    ensures Ancestor(parents, x, a + b) == Ancestor(parents, Ancestor(parents, x, a).value, b)
  {
    if b > 0 {
      AncestorAdd(parents, x, a, b - 1);
    }
  }

  lemma {:induction false} Periodic(parents: Parents, x: Id, k: nat, m: nat)
    requires Ancestor(parents, x, k) == Some(x)
    ensures Ancestor(parents, x, k * m) == Some(x)
  {
    if m > 0 {
      Periodic(parents, x, k, m - 1);
      assert k * m == k + k * (m - 1);
      AncestorAdd(parents, x, k, k * (m - 1));
    }
  }

  lemma {:induction false} StaysInside(parents: Parents, x: Id, d: set<Id>, j: nat, n: nat)
    requires Closed(parents, d) && j <= n
    requires Inside(parents, d, Ancestor(parents, x, j))
    ensures Inside(parents, d, Ancestor(parents, x, n))
  {
    if j < n {
      StaysInside(parents, x, d, j, n - 1);
    }
  }

  /** A walk that enters a closed set without its start never returns to its start. */
  lemma EscapedNotOnCycle(parents: Parents, x: Id, d: set<Id>, j: nat)
    requires Closed(parents, d) && x !in d && 1 <= j
    requires Inside(parents, d, Ancestor(parents, x, j))
    ensures !OnCycle(parents, x)
  {
    if OnCycle(parents, x) {
      var k: nat :| 1 <= k && Ancestor(parents, x, k) == Some(x);
      Periodic(parents, x, k, j);
      assert j <= k * j;
      StaysInside(parents, x, d, j, k * j);
      assert false;
    }
  }

  /** The parent of the `i`-th individual of a walk is the next one. */
  ghost predicate Linked(parents: Parents, path: seq<Id>, current: Option<Id>, i: nat)
    requires i < |path|
  {
    Parent(parents, path[i]) == if i + 1 < |path| then Some(path[i + 1]) else current
  }

  /** `path` follows parent edges and `current` is the next individual of the walk. */
  ghost predicate Walk(parents: Parents, path: seq<Id>, current: Option<Id>) {
    && (forall i :: 0 <= i < |path| ==> path[i] in parents)
    && (forall i :: 0 <= i < |path| ==> Linked(parents, path, current, i))
  }

  lemma {:induction false} WalkAncestor(parents: Parents, path: seq<Id>, current: Option<Id>, i: nat, j: nat)
    requires Walk(parents, path, current) && i <= j <= |path| && i < |path|
    ensures Ancestor(parents, path[i], j - i) == if j < |path| then Some(path[j]) else current
  {
    if i < j {
      WalkAncestor(parents, path, current, i, j - 1);
      assert Linked(parents, path, current, j - 1);
    }
  }

  /** A walk that ends in a closed set `d` it has not met passes through no cycle. */
  lemma OpenWalk(parents: Parents, path: seq<Id>, current: Option<Id>, d: set<Id>)
    requires Walk(parents, path, current) && Closed(parents, d)
    requires Inside(parents, d, current)
    ensures forall x :: x in path && x !in d ==> !OnCycle(parents, x)
  {
    forall x | x in path && x !in d
      ensures !OnCycle(parents, x)
    {
      var i :| 0 <= i < |path| && path[i] == x;
      WalkAncestor(parents, path, current, i, |path|);
      EscapedNotOnCycle(parents, x, d, |path| - i);
    }
  }

  /** Each individual from the return point on comes back to itself. */
  lemma CycleMember(parents: Parents, path: seq<Id>, p: nat, i: nat)
    requires p <= i < |path| && Walk(parents, path, Some(path[p])) && Distinct(path)
    ensures OnCycle(parents, path[i]) <==> |path| - p > 1
  {
    var current := Some(path[p]);
    var a, b := |path| - i, i - p;
    WalkAncestor(parents, path, current, i, |path|);
    WalkAncestor(parents, path, current, p, i);
    AncestorAdd(parents, path[i], a, b);
    assert Ancestor(parents, path[i], a + b) == Some(path[i]);
    assert Linked(parents, path, current, i);
  }

  /** A walk that returns to `path[p]` has found exactly one cycle, `path[p..]`. */
  lemma ClosedWalk(parents: Parents, path: seq<Id>, p: nat)
    requires p < |path| && Walk(parents, path, Some(path[p])) && Distinct(path)
    ensures forall x :: x in path ==> (OnCycle(parents, x) <==> x in path[p..] && |path| - p > 1)
  {
    var cycle := path[p..];
    var current := Some(path[p]);
    assert cycle[0] == path[p];
    assert Closed(parents, Elements(cycle)) by {
      forall x | x in cycle
        ensures Inside(parents, Elements(cycle), Parent(parents, x))
      {
        var i :| 0 <= i < |cycle| && cycle[i] == x;
        assert Linked(parents, path, current, p + i);
        if p + i + 1 < |path| {
          assert cycle[i + 1] == path[p + i + 1];
        }
      }
    }
    OpenWalk(parents, path, current, Elements(cycle));
    forall x | x in path
      ensures OnCycle(parents, x) <==> x in cycle && |path| - p > 1
    {
      var i :| 0 <= i < |path| && path[i] == x;
      if i >= p {
        assert cycle[i - p] == x;
        CycleMember(parents, path, p, i);
      }
    }
  }

  lemma ClosedAfter(parents: Parents, path: seq<Id>, current: Option<Id>, visited: set<Id>)
    requires Walk(parents, path, current) && Closed(parents, visited)
    requires current.None? || current.value !in parents || current.value in visited || current.value in path
    ensures Closed(parents, visited + Elements(path))
  {
    var d := visited + Elements(path);
    forall x | x in d
      ensures Inside(parents, d, Parent(parents, x))
    {
      if x in visited {
        assert Inside(parents, visited, Parent(parents, x));
      } else {
        var i :| 0 <= i < |path| && path[i] == x;
        assert Linked(parents, path, current, i);
      }
    }
  }

  lemma WalkStep(parents: Parents, path: seq<Id>, here: Id)
    requires Walk(parents, path, Some(here)) && here in parents
    ensures Walk(parents, path + [here], parents[here])
  {
    var longer := path + [here];
    forall i | 0 <= i < |longer|
      ensures Linked(parents, longer, parents[here], i)
    {
      if i < |path| {
        assert Linked(parents, path, Some(here), i);
      }
    }
  }

  /** What one walk has recorded: distinct unvisited individuals and where each stands. */
  ghost predicate Recorded(parents: Parents, path: seq<Id>, positions: map<Id, nat>, visited: set<Id>) {
    && Distinct(path)
    && Elements(path) !! visited
    && positions.Keys == Elements(path)
    && (forall x :: x in positions ==> positions[x] < |path| && path[positions[x]] == x)
    && |path| <= |parents|
  }

  lemma RecordStep(parents: Parents, path: seq<Id>, positions: map<Id, nat>, visited: set<Id>, here: Id)
    requires Walk(parents, path, Some(here)) && Recorded(parents, path, positions, visited)
    requires here in parents && here !in visited && here !in positions
    ensures Walk(parents, path + [here], parents[here])
    ensures Recorded(parents, path + [here], positions[here := |path|], visited)
    ensures |path| < |parents|
  {
    hide Linked;
    WalkStep(parents, path, here);
    PathGrows(parents, path, here);
    assert Elements(path + [here]) == Elements(path) + {here};
    assert positions[here := |path|].Keys == Elements(path) + {here};
  }

  /** A walk through known individuals that meets a new one has not yet met them all. */
  lemma PathGrows(parents: Parents, path: seq<Id>, here: Id)
    requires Distinct(path) && Elements(path) <= parents.Keys
    requires here in parents && here !in Elements(path)
    ensures Distinct(path + [here]) && |path| < |parents|
  {
    DistinctCardinality(path);
    SubsetCardinality(Elements(path) + {here}, parents.Keys);
  }

  /** One walk from `identity`, stopped by the shared `visited` set or by its own path. */
  method Follow(parents: Parents, identity: Id, visited: set<Id>)
    returns (path: seq<Id>, cycle: seq<Id>)
    requires visited <= parents.Keys && Closed(parents, visited)
    requires identity in parents
    ensures Distinct(path) && Elements(path) !! visited && Elements(path) <= parents.Keys
    ensures identity in visited || identity in path
    ensures Closed(parents, visited + Elements(path))
    ensures Distinct(cycle)
    ensures forall x :: x in cycle <==> x in path && OnCycle(parents, x)
  {
    path, cycle := [], [];
    var positions: map<Id, nat> := map[];
    var current := Some(identity);
    while current.Some? && current.value in parents && current.value !in visited && current.value !in positions
      invariant Recorded(parents, path, positions, visited)
      invariant Walk(parents, path, current)
      invariant if path == [] then current == Some(identity) else path[0] == identity
      decreases |parents| - |path|
    {
      var here := current.value;
      RecordStep(parents, path, positions, visited, here);
      positions := positions[here := |path|];
      path := path + [here];
      current := parents[here];
    }
    ClosedAfter(parents, path, current, visited);
    if current.Some? && current.value in positions {
      var p := positions[current.value];
      ClosedWalk(parents, path, p);
      if |path[p..]| > 1 {
        cycle := path[p..];
      }
    } else {
      OpenWalk(parents, path, current, visited);
    }
  }

  lemma CombineFindings(parents: Parents, visited: set<Id>, path: seq<Id>, findings: seq<Id>, cycle: seq<Id>)
    requires Distinct(findings) && Distinct(cycle) && Elements(path) !! visited
    requires forall x :: x in findings <==> x in visited && OnCycle(parents, x)
    requires forall x :: x in cycle <==> x in path && OnCycle(parents, x)
    ensures Distinct(findings + cycle)
    ensures forall x :: x in findings + cycle <==> x in visited + Elements(path) && OnCycle(parents, x)
  {
    forall i, j | 0 <= i < |findings| && 0 <= j < |cycle|
      ensures findings[i] != cycle[j]
    {
      assert findings[i] in findings && cycle[j] in cycle;
      assert cycle[j] in Elements(path);
    }
  }

  /** Reports every individual on a cycle once. `followed` counts the parent edges read. */
  method LineageCycles(parents: Parents, order: seq<Id>) returns (findings: seq<Id>, ghost followed: nat)
    requires Distinct(order) && Elements(order) == parents.Keys
    ensures Distinct(findings)
    ensures forall x :: x in findings <==> OnCycle(parents, x)
    ensures followed == |parents|
  {
    findings, followed := [], 0;
    var visited: set<Id> := {};
    for n := 0 to |order|
      invariant visited <= parents.Keys && Closed(parents, visited)
      invariant forall i :: 0 <= i < n ==> order[i] in visited
      invariant Distinct(findings)
      invariant forall x :: x in findings <==> x in visited && OnCycle(parents, x)
      invariant followed == |visited|
    {
      var path, cycle := Follow(parents, order[n], visited);
      DistinctCardinality(path);
      CombineFindings(parents, visited, path, findings, cycle);
      findings := findings + cycle;
      visited := visited + set x | x in path;
      followed := followed + |path|;
    }
    assert visited == parents.Keys;
  }
}
