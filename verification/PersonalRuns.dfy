/** Batches and whole sequences of batches: all or nothing, histories complete, endings final, no supersession cycle. */
module PersonalRuns {
  import opened Common
  import opened PersonalRows
  import opened Executive
  import opened Personal
  import opened PersonalHistory

  // ---- No target is touched twice ----

  function TargetsOf(ops: seq<Operation>): seq<Target> {
    if ops == [] then [] else TargetsOf(ops[..|ops| - 1]) + Touches(ops[|ops| - 1])
  }

  /** The entities that new relationships are about, in order. */
  function NewEntities(ops: seq<Operation>): seq<Id> {
    if ops == [] then []
    else NewEntities(ops[..|ops| - 1]) + EntityOf(ops[|ops| - 1])
  }

  function EntityOf(op: Operation): seq<Id> {
    if NewEntity(op).Some? then [NewEntity(op).value] else []
  }

  lemma {:induction false} TouchMeaning(p: Planning, targets: seq<Target>)
    ensures Touch(p, targets).plans == p.plans && Touch(p, targets).touched == p.touched + Elements(targets)
    ensures Touch(p, targets).entities == p.entities
    ensures |Touch(p, targets).errors| == 0 <==> |p.errors| == 0 && Distinct(targets) && Elements(targets) !! p.touched
    decreases |targets|
  {
    if targets != [] {
      var next := p.(errors := p.errors + Note(targets[0] in p.touched, "duplicate_personal_target"), touched := p.touched + {targets[0]});
      TouchMeaning(next, targets[1..]);
      SplitFirst(targets, p.touched);
    }
  }

  lemma SplitFirst(targets: seq<Target>, touched: set<Target>)
    requires targets != []
    ensures Elements(targets) == {targets[0]} + Elements(targets[1..])
    ensures Distinct(targets) && Elements(targets) !! touched <==>
      targets[0] !in touched && Distinct(targets[1..]) && Elements(targets[1..]) !! touched + {targets[0]}
  {
    assert targets == [targets[0]] + targets[1..];
  }

  lemma DistinctConcat<T>(a: seq<T>, b: seq<T>)
    ensures Elements(a + b) == Elements(a) + Elements(b)
    ensures Distinct(a + b) <==> Distinct(a) && Distinct(b) && Elements(a) !! Elements(b)
  {
    if Distinct(a + b) {
      assert Distinct(a) by {
        assert forall i :: 0 <= i < |a| ==> (a + b)[i] == a[i];
      }
      assert Distinct(b) by {
        assert forall j :: 0 <= j < |b| ==> (a + b)[|a| + j] == b[j];
      }
      forall x | x in a
        ensures x !in b
      {
        var i :| 0 <= i < |a| && a[i] == x;
        assert forall j :: 0 <= j < |b| ==> (a + b)[i] != (a + b)[|a| + j] && (a + b)[|a| + j] == b[j];
      }
    }
    if Distinct(a) && Distinct(b) && Elements(a) !! Elements(b) {
      forall i, j | 0 <= i < |a| && 0 <= j < |b|
        ensures a[i] != b[j]
      {
        assert a[i] in Elements(a) && b[j] in Elements(b);
      }
    }
  }

  lemma PlanNextMeaning(db: Db, p: Planning, op: Operation, now: Time)
    requires Coherent(op)
    ensures var next := PlanNext(db, p, op, now);
      && next.touched == p.touched + Elements(Touches(op)) && next.entities == p.entities + Elements(EntityOf(op))
      && (|next.errors| == 0 <==>
            && |p.errors| == 0 && Distinct(Touches(op)) && Elements(Touches(op)) !! p.touched
            && Elements(EntityOf(op)) !! p.entities && |PlanOne(db, op, now).errors| == 0)
  {
    hide PlanOne, Touches, NewEntity;
    TouchMeaning(p, Touches(op));
  }

  /**
   * A batch plans without findings exactly when its targets are distinct, no two of its new
   * relationships are about the same entity, and each operation is valid by itself.
   */
  lemma {:induction false} PlanAllMeaning(db: Db, ops: seq<Operation>, now: Time)
    requires AllCoherent(ops)
    ensures PlanAll(db, ops, now).touched == Elements(TargetsOf(ops)) && PlanAll(db, ops, now).entities == Elements(NewEntities(ops))
    ensures |PlanAll(db, ops, now).errors| == 0 <==> ValidBatch(db, ops, now)
  {
    hide PlanOne, Touches, Coherent, EntityOf;
    if ops != [] {
      var front, last := ops[..|ops| - 1], ops[|ops| - 1];
      PlanAllMeaning(db, front, now);
      PlanNextMeaning(db, PlanAll(db, front, now), last, now);
      DistinctConcat(TargetsOf(front), Touches(last));
      DistinctConcat(NewEntities(front), EntityOf(last));
      OneEntity(last);
      hide PlanNext;
      assert forall i :: 0 <= i < |front| ==> front[i] == ops[i];
    }
  }

  lemma OneEntity(op: Operation)
    ensures Distinct(EntityOf(op))
  {
  }

  // ---- Writing the batch ----

  function IdsOf(ops: seq<Operation>): seq<Id> {
    seq(|ops|, i requires 0 <= i < |ops| => ops[i].id)
  }

  lemma IdsAppend(ops: seq<Operation>)
    requires ops != []
    ensures Elements(IdsOf(ops)) == Elements(IdsOf(ops[..|ops| - 1])) + {ops[|ops| - 1].id}
  {
    assert IdsOf(ops) == IdsOf(ops[..|ops| - 1]) + [ops[|ops| - 1].id];
  }

  ghost predicate ValidBatch(db: Db, ops: seq<Operation>, now: Time)
    requires AllCoherent(ops)
  {
    && Distinct(TargetsOf(ops)) && Distinct(NewEntities(ops))
    && forall i :: 0 <= i < |ops| ==> |PlanOne(db, ops[i], now).errors| == 0
  }

  /**
   * The plans stay valid while they are written: snapshots taken before the first write still
   * describe the rows, because no target is declared twice.
   */
  lemma {:induction false} BatchKeepsInv(db: Db, ops: seq<Operation>, now: Time)
    requires AllCoherent(ops) && Inv(db) && ValidBatch(db, ops, now)
    ensures var after := WriteAll(db, PlanAll(db, ops, now).plans);
      && Inv(after) && after.others == db.others
      && (forall t :: t !in TargetsOf(ops) ==> Lookup(after.rows, t) == Lookup(db.rows, t))
      && after.applied == db.applied + Elements(IdsOf(ops))
      && (forall e: Id :: Related(after.rows, e) ==> Related(db.rows, e) || e in NewEntities(ops))
  {
    hide Coherent, PlanOne, PlanNext, WriteChanges, Inv;
    if ops != [] {
      var front, last := ops[..|ops| - 1], ops[|ops| - 1];
      hide Inv, PlanOne, Touches, Coherent, WriteChanges, PlanNext, IdsOf, ValidBatch, EntityOf, Related;
      ValidFront(db, ops, now);
      BatchKeepsInv(db, front, now);
      LastPlan(db, ops, now);
      IdsAppend(ops);
      var plans := PlanAll(db, front, now).plans;
      var before := WriteAll(db, plans);
      var plan := Plan(last.id, PlanOne(db, last, now).changes);
      NextOperation(db, before, ops, now);
      hide PlanAll;
      assert (plans + [plan])[..|plans|] == plans;
    }
  }

  lemma ValidFront(db: Db, ops: seq<Operation>, now: Time)
    requires AllCoherent(ops) && ops != [] && ValidBatch(db, ops, now)
    ensures ValidBatch(db, ops[..|ops| - 1], now)
  {
    hide PlanOne, Touches, Coherent, EntityOf;
    var front := ops[..|ops| - 1];
    DistinctConcat(TargetsOf(front), Touches(ops[|ops| - 1]));
    DistinctConcat(NewEntities(front), EntityOf(ops[|ops| - 1]));
    assert forall i :: 0 <= i < |front| ==> front[i] == ops[i];
  }

  /** The plans of a batch are those of its front followed by the last operation's. */
  lemma LastPlan(db: Db, ops: seq<Operation>, now: Time)
    requires AllCoherent(ops) && ops != [] && Inv(db) && |PlanOne(db, ops[|ops| - 1], now).errors| == 0
    ensures var front, last := ops[..|ops| - 1], ops[|ops| - 1];
      PlanAll(db, ops, now).plans == PlanAll(db, front, now).plans + [Plan(last.id, PlanOne(db, last, now).changes)]
  {
    var front, last := ops[..|ops| - 1], ops[|ops| - 1];
    hide PlanOne, Touches, Coherent, HistoryOk, SupersessionOk, EvidenceOk, RelationshipsOk;
    TouchMeaning(PlanAll(db, front, now), Touches(last));
    ValidOperation(db, last, now);
  }

  lemma NextOperation(db: Db, before: Db, ops: seq<Operation>, now: Time)
    requires AllCoherent(ops) && ops != [] && Inv(db) && Inv(before) && ValidBatch(db, ops, now)
    requires forall t :: t !in TargetsOf(ops[..|ops| - 1]) ==> Lookup(before.rows, t) == Lookup(db.rows, t)
    requires forall e: Id :: Related(before.rows, e) ==> Related(db.rows, e) || e in NewEntities(ops[..|ops| - 1])
    ensures var last := ops[|ops| - 1];
      var changes := PlanOne(db, last, now).changes;
      var after := WriteChanges(before.(applied := before.applied + {last.id}), changes, last.id);
      && Inv(after) && after.others == before.others && after.applied == before.applied + {last.id}
      && (forall t :: t !in Touches(last) ==> Lookup(after.rows, t) == Lookup(before.rows, t))
      && (forall e: Id :: Related(after.rows, e) ==> Related(before.rows, e) || e in EntityOf(last))
  {
    hide PlanOne, Touches, Coherent, WriteChanges, HistoryOk, SupersessionOk, EvidenceOk, RelationshipsOk;
    hide OpPlanned, Related;
    var front, last := ops[..|ops| - 1], ops[|ops| - 1];
    var changes := PlanOne(db, last, now).changes;
    var marked := before.(applied := before.applied + {last.id});
    DistinctConcat(TargetsOf(front), Touches(last));
    ValidOperation(db, last, now);
    assert forall t :: t in Touches(last) ==> t in Elements(Touches(last));
    assert forall t :: t in TargetsOf(front) ==> t in Elements(TargetsOf(front));
    DistinctConcat(NewEntities(front), EntityOf(last));
    EntityIsNew(db, before.rows, front, last, now);
    StillPlanned(db.rows, before.rows, last, changes);
    OperationKeepsInv(marked, last, changes);
    WritesFrame(marked, changes, last.id);
    OperationTouchesOnly(marked, last, changes);
  }

  /** The entity of a new relationship has none yet when it is written, either. */
  lemma EntityIsNew(db: Db, rows: map<Target, Row>, front: seq<Operation>, last: Operation, now: Time)
    requires Coherent(last) && OpPlanned(db.rows, last, PlanOne(db, last, now).changes)
    requires Elements(NewEntities(front)) !! Elements(EntityOf(last))
    requires forall e: Id :: Related(rows, e) ==> Related(db.rows, e) || e in NewEntities(front)
    ensures NewEntity(last).Some? ==> !Related(rows, NewEntity(last).value)
  {
    hide PlanOne, PlannedWell, Final, Related;
    assert forall e :: e in NewEntities(front) ==> e in Elements(NewEntities(front));
    if NewEntity(last).Some? {
      assert NewEntity(last).value in EntityOf(last);
      assert NewEntity(last).value in Elements(EntityOf(last));
    }
  }

  lemma OperationTouchesOnly(db: Db, op: Operation, changes: seq<Change>)
    requires OpPlanned(db.rows, op, changes)
    ensures forall t :: t !in Touches(op) ==> Lookup(WriteChanges(db, changes, op.id).rows, t) == Lookup(db.rows, t)
  {
    hide Touches, WriteChanges, Current, BeliefPlanned, Final;
    forall t | t !in Touches(op)
      ensures Lookup(WriteChanges(db, changes, op.id).rows, t) == Lookup(db.rows, t)
    {
      forall i | 0 <= i < |changes|
        ensures changes[i].target != t
      {
        assert changes[i].target == Touches(op)[i];
      }
      WritesTouchOnly(db, changes, op.id, t);
    }
  }

  // ---- Applying ----

  /**
   * A batch is applied exactly when it has no finding and is what was recorded for its decided turn;
   * then every demand still holds and its operations are recorded.
   */
  lemma ApplyKeepsInv(db: Db, ops: seq<Operation>, now: Time, turn: Turn)
    requires AllCoherent(ops) && Inv(db)
    ensures var result := Apply(db, ops, now, turn);
      && (result.Ok? <==>
            && |ops| <= 64 && ValidBatch(db, ops, now) && OperationsNew(db, ops)
            && turn.owned && turn.decided && turn.active && turn.recorded == ops)
      && (result.Ok? ==>
            && Inv(result.value)
            && (forall t :: t !in TargetsOf(ops) ==> Lookup(result.value.rows, t) == Lookup(db.rows, t))
            && result.value.applied == db.applied + Elements(IdsOf(ops)))
  {
    hide ValidBatch, AllCoherent, Touches;
    hide Inv, PlanAll, WriteAll, PlanOne;
    PlanAllMeaning(db, ops, now);
    if ValidBatch(db, ops, now) {
      BatchKeepsInv(db, ops, now);
    }
  }

  predicate OperationsNew(db: Db, ops: seq<Operation>) {
    && (forall i, j :: 0 <= i < j < |ops| ==> ops[i].id != ops[j].id)
    && (forall i :: 0 <= i < |ops| ==> ops[i].id !in db.applied)
  }

  /** A proposal, its turn, and the events that qualify as anchors by then. */
  datatype Batch = Batch(ops: seq<Operation>, now: Time, turn: Turn, events: map<Id, Time>)

  /** A sequence of decisions; a rejected batch changes nothing. */
  ghost function Run(db: Db, batches: seq<Batch>): Db
    requires forall i :: 0 <= i < |batches| ==> AllCoherent(batches[i].ops)
  {
    if batches == [] then db
    else
      var before, last := Run(db, batches[..|batches| - 1]), batches[|batches| - 1];
      match Apply(before.(events := last.events), last.ops, last.now, last.turn)
      case Ok(after) => after
      case Err(_) => before
  }

  function Empty(others: set<Ref>): Db {
    Db(map[], [], {}, map[], others)
  }

  /**
   * After any sequence of decisions every object has its complete history, beliefs form proper chains,
   * and no entity has two relationships.
   */
  lemma {:induction false} RunKeepsInv(others: set<Ref>, batches: seq<Batch>)
    requires forall i :: 0 <= i < |batches| ==> AllCoherent(batches[i].ops)
    ensures Inv(Run(Empty(others), batches))
  {
    hide Inv, Apply, AllCoherent;
    if batches == [] {
      EmptyOk(others);
    } else {
      var front, last := batches[..|batches| - 1], batches[|batches| - 1];
      assert forall i :: 0 <= i < |front| ==> front[i] == batches[i];
      RunKeepsInv(others, front);
      var before := Run(Empty(others), front);
      OtherEvents(before, last.events);
      ApplyKeepsInv(before.(events := last.events), last.ops, last.now, last.turn);
    }
  }

  lemma OtherEvents(db: Db, events: map<Id, Time>)
    requires Inv(db)
    ensures Inv(db.(events := events))
  {
    hide HistoryOk, TypesOk, SupersessionOk, EvidenceOk, RelationshipsOk;
  }

  lemma EmptyOk(others: set<Ref>)
    ensures Inv(Empty(others))
  {
  }

  // ---- Endings are final ----

  lemma FinalUntouched(db: Db, ops: seq<Operation>, now: Time, t: Target)
    requires AllCoherent(ops) && Inv(db) && ValidBatch(db, ops, now) && t in db.rows && Final(db.rows[t])
    ensures t !in TargetsOf(ops)
  {
    if t in TargetsOf(ops) {
      var i := TouchedBy(ops, t);
      assert Coherent(ops[i]) && |PlanOne(db, ops[i], now).errors| == 0;
      hide PlanOne, HistoryOk, SupersessionOk, EvidenceOk, RelationshipsOk, Coherent;
      ValidOperation(db, ops[i], now);
      OpenTargets(db.rows, ops[i], PlanOne(db, ops[i], now).changes, t);
      assert false;
    }
  }

  lemma OpenTargets(rows: map<Target, Row>, op: Operation, changes: seq<Change>, t: Target)
    requires OpPlanned(rows, op, changes) && t in Touches(op) && t in rows
    ensures !Final(rows[t])
  {
    hide PlannedWell;
    if t != Subject(op) {
      assert op.BeliefOp? && op.action == Supersede && t == Target(Belief, op.supersedes.value);
    }
  }

  lemma {:induction false} TouchedBy(ops: seq<Operation>, t: Target) returns (i: nat)
    requires t in TargetsOf(ops)
    ensures i < |ops| && t in Touches(ops[i])
  {
    var front, last := ops[..|ops| - 1], ops[|ops| - 1];
    if t in Touches(last) {
      i := |ops| - 1;
    } else {
      i := TouchedBy(front, t);
      assert front[i] == ops[i];
    }
  }

  /**
   * Ended goals, commitments, projects and threads, withdrawn and superseded beliefs, retired interests
   * and preferences, and episodes never change again.
   */
  lemma EndingsAreFinal(db: Db, ops: seq<Operation>, now: Time, turn: Turn, t: Target)
    requires AllCoherent(ops) && Inv(db) && t in db.rows && Final(db.rows[t]) && Apply(db, ops, now, turn).Ok?
    ensures Lookup(Apply(db, ops, now, turn).value.rows, t) == Some(db.rows[t])
  {
    ApplyKeepsInv(db, ops, now, turn);
    hide Apply, ValidBatch;
    FinalUntouched(db, ops, now, t);
  }

  // ---- Chains of superseded beliefs ----

  /** Following what a belief supersedes, `k` times. */
  ghost function Predecessor(rows: map<Target, Row>, b: Id, k: nat): Option<Id> {
    if k == 0 then Some(b)
    else match Predecessor(rows, b, k - 1)
      case None => None
      case Some(x) => var t := Target(Belief, x); if t in rows && rows[t].BeliefRow? then rows[t].supersedes else None
  }

  lemma {:induction false} OlderEachStep(rows: map<Target, Row>, history: seq<Revision>, b: Id, k: nat)
    requires SupersessionOk(rows, history) && Predecessor(rows, b, k).Some? && k > 0
    ensures Born(history, Target(Belief, Predecessor(rows, b, k).value)) < Born(history, Target(Belief, b))
  {
    var x := Predecessor(rows, b, k - 1).value;
    assert Supersedes(rows, x, Predecessor(rows, b, k).value);
    if k > 1 {
      OlderEachStep(rows, history, b, k - 1);
    }
  }

  /** No belief supersedes itself, however long the chain. */
  lemma NoSupersessionCycle(others: set<Ref>, batches: seq<Batch>, b: Id, k: nat)
    requires forall i :: 0 <= i < |batches| ==> AllCoherent(batches[i].ops)
    requires k > 0
    ensures Predecessor(Run(Empty(others), batches).rows, b, k) != Some(b)
  {
    RunKeepsInv(others, batches);
    var db := Run(Empty(others), batches);
    hide Run, HistoryOk, TypesOk, EvidenceOk, SupersessionOk, RelationshipsOk;
    if Predecessor(db.rows, b, k) == Some(b) {
      OlderEachStep(db.rows, db.history, b, k);
    }
  }
}
