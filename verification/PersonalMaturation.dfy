/** In every run, the stored history of an interest, preference or self-state is one that maturation allows. */
module PersonalMaturation {
  import opened Common
  import D = Development
  import opened PersonalRows
  import opened Executive
  import opened Maturation
  import opened Personal
  import opened PersonalHistory
  import opened PersonalRuns

  predicate IsGradual(k: Kind) {
    k == Interest || k == Preference
  }

  function FamilyOf(k: Kind): D.Family {
    if k == Interest then D.Interest else D.Preference
  }

  function LayerOf(id: Id): D.Layer {
    if id == 0 then D.CurrentIdentity else if id == 1 then D.SelfBelief else if id == 2 then D.CurrentValue else D.Narrative
  }

  /** The accepted operations `h` left exactly the rows that the revisions record. */
  ghost predicate GradualTold(f: D.Family, chain: seq<Revision>, h: seq<D.GradualStep>) {
    && |h| == |chain| && D.GradualHistory(f, h)
    && (forall i :: 0 <= i < |h| ==> chain[i].after.GradualRow? && chain[i].after.gradual == h[i].row)
  }

  ghost predicate SelfTold(layer: D.Layer, chain: seq<Revision>, h: seq<D.SelfStep>) {
    && |h| == |chain| && D.SelfHistory(layer, h)
    && (forall i :: 0 <= i < |h| ==> chain[i].after.SelfRow? && chain[i].after.state == h[i].row)
  }

  ghost predicate GradualAllowed(t: Target, chain: seq<Revision>) {
    exists h :: GradualTold(FamilyOf(t.kind), chain, h)
  }

  ghost predicate SelfAllowed(t: Target, chain: seq<Revision>) {
    exists h :: SelfTold(LayerOf(t.id), chain, h)
  }

  ghost predicate StoriesOk(history: seq<Revision>) {
    && (forall t: Target :: IsGradual(t.kind) ==> GradualAllowed(t, Chain(history, t)))
    && (forall t: Target :: t.kind == SelfModel ==> SelfAllowed(t, Chain(history, t)))
  }

  // ---- One more accepted operation ----

  lemma GradualExtends(f: D.Family, chain: seq<Revision>, h: seq<D.GradualStep>, step: D.GradualStep, r: Revision)
    requires GradualTold(f, chain, h) && r.after.GradualRow? && r.after.gradual == step.row
    requires var plan := D.PlanGradual(f, if chain == [] then None else Some(h[|h| - 1].row), step.op, step.world, step.at);
      |plan.0| == 0 && plan.1 == Some(step.row)
    ensures GradualTold(f, chain + [r], h + [step])
  {
    hide D.PlanGradual;
    var more := h + [step];
    forall i | 0 <= i < |more|
      ensures D.GradualAccepted(f, more, i)
    {
      if i < |h| {
        assert D.GradualAccepted(f, h, i);
      }
    }
  }

  lemma SelfExtends(layer: D.Layer, chain: seq<Revision>, h: seq<D.SelfStep>, step: D.SelfStep, r: Revision)
    requires SelfTold(layer, chain, h) && r.after.SelfRow? && r.after.state == step.row
    requires var plan := D.PlanSelf(layer, D.Previous(h, |h|), step.op, step.world, step.at);
      |plan.0| == 0 && plan.1 == step.row
    ensures SelfTold(layer, chain + [r], h + [step])
  {
    hide D.PlanSelf;
    var more := h + [step];
    forall i | 0 <= i < |more|
      ensures D.SelfAccepted(layer, more, i)
    {
      assert D.Previous(more, i) == D.Previous(h, i);
      if i < |h| {
        assert D.SelfAccepted(layer, h, i);
      }
    }
  }

  // ---- What a valid operation writes ----

  /** The assignment planned for an interest or preference leaves exactly the row its rules lead to. */
  lemma GradualWrites(db: Db, rows: map<Target, Row>, op: Operation, now: Time)
    requires TypesOk(db.rows) && op.GradualOp? && Coherent(op) && |PlanGradual(db, op, now).errors| == 0
    requires Lookup(rows, Subject(op)) == Lookup(db.rows, Subject(op))
    ensures var t, row := Subject(op), StoredGradual(db.rows, Subject(op));
      var (errors, planned) := D.PlanGradual(op.family, row, op.step, WorldOf(db, op.step.refs, op.attention), now);
      && |errors| == 0 && planned.Some? && |PlanGradual(db, op, now).changes| == 1
      && PlanGradual(db, op, now).changes[0].target == t
      && Written(rows, PlanGradual(db, op, now).changes[0]).GradualRow?
      && Written(rows, PlanGradual(db, op, now).changes[0]).gradual == planned.value
  {
    hide Coherent, Note, D.EstablishErrors;
    hide WorldOf, D.Anchors, D.Separated, D.Novel, D.CommonErrors, UnionRefs;
  }

  lemma SelfWrites(db: Db, rows: map<Target, Row>, op: Operation, now: Time)
    requires TypesOk(db.rows) && op.SelfOp? && |PlanSelf(db, op, now).errors| == 0
    requires Lookup(rows, Subject(op)) == Lookup(db.rows, Subject(op))
    ensures var t, row := Subject(op), StoredSelf(db.rows, Subject(op));
      var (errors, after) := D.PlanSelf(op.layer, row, op.proposal, WorldOf(db, op.proposal.refs, op.attention), now);
      && |errors| == 0 && |PlanSelf(db, op, now).changes| == 1 && PlanSelf(db, op, now).changes[0].target == t
      && Written(rows, PlanSelf(db, op, now).changes[0]).SelfRow?
      && Written(rows, PlanSelf(db, op, now).changes[0]).state == after
  {
    hide Subject, Note;
    hide WorldOf, D.Anchors, D.Separated, D.Novel, D.CommonErrors, UnionRefs, SelfKnown;
  }

  lemma {:induction false} WritesKeepChain(db: Db, changes: seq<Change>, operation: Id, t: Target)
    requires forall i :: 0 <= i < |changes| ==> changes[i].target != t
    ensures Chain(WriteChanges(db, changes, operation).history, t) == Chain(db.history, t)
  {
    if changes != [] {
      hide Written;
      var front := changes[..|changes| - 1];
      WritesKeepChain(db, front, operation, t);
      var before, after := WriteChanges(db, front, operation), WriteChanges(db, changes, operation);
      ChainAppend(before.history, after.history[|before.history|], t);
      assert Chain(before.history, t) + [] == Chain(before.history, t);
    }
  }

  lemma OneWriteExtends(db: Db, changes: seq<Change>, operation: Id) returns (r: Revision)
    requires |changes| == 1
    ensures r.after == Written(db.rows, changes[0])
    ensures Chain(WriteChanges(db, changes, operation).history, changes[0].target) == Chain(db.history, changes[0].target) + [r]
  {
    OneWrite(db, changes, operation);
    hide Written;
    r := WriteChange(db, changes[0], Some(operation)).history[|db.history|];
    ChainAppend(db.history, r, changes[0].target);
  }

  /** The stored row is where the story so far has led. */
  lemma GradualSoFar(rows: map<Target, Row>, history: seq<Revision>, t: Target, h: seq<D.GradualStep>)
    requires HistoryOk(rows, history) && GradualTold(FamilyOf(t.kind), Chain(history, t), h)
    ensures StoredGradual(rows, t) == if Chain(history, t) == [] then None else Some(h[|h| - 1].row)
  {
    hide D.GradualHistory;
    assert ChainOk(Chain(history, t), Lookup(rows, t));
  }

  lemma SelfSoFar(rows: map<Target, Row>, history: seq<Revision>, t: Target, h: seq<D.SelfStep>)
    requires HistoryOk(rows, history) && SelfTold(LayerOf(t.id), Chain(history, t), h)
    ensures StoredSelf(rows, t) == D.Previous(h, |h|)
  {
    hide D.SelfHistory;
    assert ChainOk(Chain(history, t), Lookup(rows, t));
  }

  lemma SameStored(a: map<Target, Row>, b: map<Target, Row>, op: Operation)
    requires Lookup(a, Subject(op)) == Lookup(b, Subject(op))
    ensures StoredGradual(a, Subject(op)) == StoredGradual(b, Subject(op)) && StoredSelf(a, Subject(op)) == StoredSelf(b, Subject(op))
    ensures op.GradualOp? ==> FamilyOf(Subject(op).kind) == op.family
    ensures op.SelfOp? ==> LayerOf(Subject(op).id) == op.layer
  {
  }

  lemma GradualContinues(db: Db, before: Db, op: Operation, now: Time)
    requires TypesOk(db.rows) && op.GradualOp? && Coherent(op) && |PlanGradual(db, op, now).errors| == 0
    requires HistoryOk(before.rows, before.history) && Lookup(before.rows, Subject(op)) == Lookup(db.rows, Subject(op))
    requires GradualAllowed(Subject(op), Chain(before.history, Subject(op)))
    ensures GradualAllowed(Subject(op), Chain(WriteChanges(before, PlanGradual(db, op, now).changes, op.id).history, Subject(op)))
  {
    hide HistoryOk, TypesOk, PlanGradual, D.PlanGradual, Written, GradualTold, WriteChanges, WorldOf, StoredGradual, Subject, Chain;
    var t, changes := Subject(op), PlanGradual(db, op, now).changes;
    SameStored(db.rows, before.rows, op);
    GradualWrites(db, before.rows, op, now);
    var h :| GradualTold(FamilyOf(t.kind), Chain(before.history, t), h);
    GradualSoFar(before.rows, before.history, t, h);
    var r := OneWriteExtends(before, changes, op.id);
    GradualExtends(op.family, Chain(before.history, t), h,
                   D.GradualStep(op.step, WorldOf(db, op.step.refs, op.attention), now, r.after.gradual), r);
  }

  lemma SelfContinues(db: Db, before: Db, op: Operation, now: Time)
    requires TypesOk(db.rows) && op.SelfOp? && |PlanSelf(db, op, now).errors| == 0
    requires HistoryOk(before.rows, before.history) && Lookup(before.rows, Subject(op)) == Lookup(db.rows, Subject(op))
    requires SelfAllowed(Subject(op), Chain(before.history, Subject(op)))
    ensures SelfAllowed(Subject(op), Chain(WriteChanges(before, PlanSelf(db, op, now).changes, op.id).history, Subject(op)))
  {
    hide HistoryOk, TypesOk, PlanSelf, D.PlanSelf, Written, SelfTold, WriteChanges, WorldOf, StoredSelf, Subject, Chain;
    var t, changes := Subject(op), PlanSelf(db, op, now).changes;
    SameStored(db.rows, before.rows, op);
    SelfWrites(db, before.rows, op, now);
    var h :| SelfTold(LayerOf(t.id), Chain(before.history, t), h);
    SelfSoFar(before.rows, before.history, t, h);
    var r := OneWriteExtends(before, changes, op.id);
    SelfExtends(op.layer, Chain(before.history, t), h,
                D.SelfStep(op.proposal, WorldOf(db, op.proposal.refs, op.attention), now, r.after.state), r);
  }

  lemma KindsOfTouches(op: Operation, t: Target)
    requires t in Touches(op)
    ensures IsGradual(t.kind) ==> op.GradualOp? && t == Subject(op)
    ensures t.kind == SelfModel ==> op.SelfOp? && t == Subject(op)
  {
  }

  /** Writing one valid operation tells at most one story further. */
  lemma OperationKeepsStories(db: Db, before: Db, op: Operation, now: Time)
    requires TypesOk(db.rows) && Coherent(op) && |PlanOne(db, op, now).errors| == 0
    requires HistoryOk(before.rows, before.history) && StoriesOk(before.history)
    requires forall t :: t in Touches(op) ==> Lookup(before.rows, t) == Lookup(db.rows, t)
    ensures StoriesOk(WriteChanges(before, PlanOne(db, op, now).changes, op.id).history)
  {
    hide D.PlanSelf, PlanGradual, PlanSelf;
    hide WriteChanges, Touches, OpPlanned, GradualAllowed, SelfAllowed, TypesOk, HistoryOk, Chain;
    var changes := PlanOne(db, op, now).changes;
    var after := WriteChanges(before, changes, op.id);
    ValidOperation(db, op, now);
    ChangesAreTouches(db.rows, op, changes);
    SubjectIsTouched(op);
    hide PlanGradual, PlanSelf, Subject;
    if op.GradualOp? {
      GradualContinues(db, before, op, now);
    } else if op.SelfOp? {
      SelfContinues(db, before, op, now);
    }
    hide PlanOne, Lookup;
    forall t: Target | IsGradual(t.kind) || t.kind == SelfModel
      ensures Chain(after.history, t) == Chain(before.history, t) || ((op.GradualOp? || op.SelfOp?) && t == Subject(op))
    {
      if t in Touches(op) {
        KindsOfTouches(op, t);
      } else {
        WritesKeepChain(before, changes, op.id, t);
      }
    }
    SubjectKind(op);
  }

  lemma SubjectIsTouched(op: Operation)
    ensures Subject(op) in Touches(op)
  {
  }

  lemma SubjectKind(op: Operation)
    ensures op.GradualOp? ==> Subject(op).kind != SelfModel
    ensures op.SelfOp? ==> !IsGradual(Subject(op).kind)
  {
  }

  lemma ChangesAreTouches(rows: map<Target, Row>, op: Operation, changes: seq<Change>)
    requires OpPlanned(rows, op, changes)
    ensures forall i :: 0 <= i < |changes| ==> changes[i].target in Touches(op)
  {
    hide Touches, Current, BeliefPlanned, RelationshipPlanned, Final;
  }

  // ---- Batches and runs ----

  lemma {:induction false} BatchKeepsStories(db: Db, ops: seq<Operation>, now: Time)
    requires AllCoherent(ops) && Inv(db) && ValidBatch(db, ops, now) && StoriesOk(db.history)
    ensures StoriesOk(WriteAll(db, PlanAll(db, ops, now).plans).history)
  {
    hide PlanOne, PlanNext, WriteChanges, GradualAllowed, SelfAllowed;
    if ops != [] {
      var front, last := ops[..|ops| - 1], ops[|ops| - 1];
      hide Inv, PlanOne, Touches, Coherent, WriteChanges, PlanNext, StoriesOk, ValidBatch, EntityOf, Related;
      ValidFront(db, ops, now);
      BatchKeepsStories(db, front, now);
      BatchKeepsInv(db, front, now);
      LastIsValid(db, ops, now);
      LastPlan(db, ops, now);
      var plans := PlanAll(db, front, now).plans;
      var plan := Plan(last.id, PlanOne(db, last, now).changes);
      hide PlanAll;
      assert (plans + [plan])[..|plans|] == plans;
      var before := WriteAll(db, plans);
      HistoryOfInv(before);
      HistoryOfInv(db);
      OperationKeepsStories(db, before.(applied := before.applied + {last.id}), last, now);
    }
  }

  lemma HistoryOfInv(db: Db)
    requires Inv(db)
    ensures HistoryOk(db.rows, db.history) && TypesOk(db.rows)
  {
    hide HistoryOk, TypesOk, SupersessionOk, EvidenceOk, RelationshipsOk;
  }

  lemma LastIsValid(db: Db, ops: seq<Operation>, now: Time)
    requires AllCoherent(ops) && ops != [] && ValidBatch(db, ops, now)
    ensures var last := ops[|ops| - 1];
      && Coherent(last) && |PlanOne(db, last, now).errors| == 0
      && forall t :: t in Touches(last) ==> t !in TargetsOf(ops[..|ops| - 1])
  {
    hide PlanOne, Touches, Coherent;
    var front, last := ops[..|ops| - 1], ops[|ops| - 1];
    DistinctConcat(TargetsOf(front), Touches(last));
    assert forall t :: t in Touches(last) ==> t in Elements(Touches(last));
    assert forall t :: t in TargetsOf(front) ==> t in Elements(TargetsOf(front));
  }

  lemma {:induction false} RunKeepsStories(others: set<Ref>, batches: seq<Batch>)
    requires forall i :: 0 <= i < |batches| ==> AllCoherent(batches[i].ops)
    ensures StoriesOk(Run(Empty(others), batches).history)
  {
    hide Inv, AllCoherent;
    if batches == [] {
      NoStories();
    } else {
      var front, last := batches[..|batches| - 1], batches[|batches| - 1];
      assert forall i :: 0 <= i < |front| ==> front[i] == batches[i];
      RunKeepsStories(others, front);
      RunKeepsInv(others, front);
      var before := Run(Empty(others), front);
      OtherEvents(before, last.events);
      ApplyKeepsStories(before.(events := last.events), last.ops, last.now, last.turn);
      hide StoriesOk, Apply;
    }
  }

  lemma ApplyKeepsStories(db: Db, ops: seq<Operation>, now: Time, turn: Turn)
    requires AllCoherent(ops) && Inv(db) && StoriesOk(db.history)
    ensures Apply(db, ops, now, turn).Ok? ==> StoriesOk(Apply(db, ops, now, turn).value.history)
  {
    hide Inv, PlanAll, WriteAll, PlanOne, StoriesOk, ValidBatch;
    ApplyKeepsInv(db, ops, now, turn);
    if ValidBatch(db, ops, now) {
      BatchKeepsStories(db, ops, now);
    }
  }

  lemma NoStories()
    ensures StoriesOk([])
  {
    forall t: Target
      ensures GradualAllowed(t, Chain([], t)) && SelfAllowed(t, Chain([], t))
    {
      assert GradualTold(FamilyOf(t.kind), [], []);
      assert SelfTold(LayerOf(t.id), [], []);
    }
  }

  // ---- What that means for every run ----

  /** Every interest or preference that was ever established had matured: a day old, two anchors a day apart. */
  lemma EstablishedInEveryRun(others: set<Ref>, batches: seq<Batch>, t: Target, i: nat) returns (h: seq<D.GradualStep>, j: nat)
    requires forall n :: 0 <= n < |batches| ==> AllCoherent(batches[n].ops)
    requires IsGradual(t.kind)
    requires var chain := Chain(Run(Empty(others), batches).history, t);
      i < |chain| && chain[i].after.GradualRow? && chain[i].after.gradual.status in {D.Established, D.Dormant}
    ensures GradualTold(FamilyOf(t.kind), Chain(Run(Empty(others), batches).history, t), h)
    ensures j <= i && D.Matured(h, j)
  {
    RunKeepsStories(others, batches);
    var chain := Chain(Run(Empty(others), batches).history, t);
    hide Run, Chain, D.GradualHistory, D.Matured;
    assert GradualAllowed(t, chain);
    h :| GradualTold(FamilyOf(t.kind), chain, h);
    j := D.EstablishedHasMatured(FamilyOf(t.kind), h, i);
  }

  /** Staged self-state content, whenever it changed, had been the same pending content for a day, with its own anchors. */
  lemma PromotedInEveryRun(others: set<Ref>, batches: seq<Batch>, t: Target, i: nat) returns (h: seq<D.SelfStep>, j: nat)
    requires forall n :: 0 <= n < |batches| ==> AllCoherent(batches[n].ops)
    requires t.kind == SelfModel && D.Staged(LayerOf(t.id))
    requires var chain := Chain(Run(Empty(others), batches).history, t);
      && i < |chain| && chain[i].after.SelfRow? && chain[i].after.state.content.Some?
      && (i > 0 ==> chain[i - 1].after.SelfRow? && chain[i].after.state.content != chain[i - 1].after.state.content)
    ensures SelfTold(LayerOf(t.id), Chain(Run(Empty(others), batches).history, t), h)
    ensures j < i < |h| && D.PendingSince(h, j, i - 1, h[i].row.content.value)
    ensures h[i].at >= h[j].at + D.DAY && h[i].world.attention
    ensures D.Separated(D.Anchors(h[i].world, h[i].row.evidence, h[i].at))
  {
    RunKeepsStories(others, batches);
    var chain := Chain(Run(Empty(others), batches).history, t);
    hide Run, Chain, D.SelfHistory, D.PendingSince, D.Separated, D.Anchors;
    assert SelfAllowed(t, chain);
    h :| SelfTold(LayerOf(t.id), chain, h);
    j := D.PromotionWaited(LayerOf(t.id), h, i);
  }

  /** An established preference or a dormant interest was retired a week after it became so at the earliest. */
  lemma RetiredInEveryRun(others: set<Ref>, batches: seq<Batch>, t: Target, i: nat) returns (h: seq<D.GradualStep>)
    requires forall n :: 0 <= n < |batches| ==> AllCoherent(batches[n].ops)
    requires IsGradual(t.kind)
    requires var chain := Chain(Run(Empty(others), batches).history, t);
      && 0 < i < |chain| && chain[i].after.GradualRow? && chain[i].after.gradual.status == D.Retired
      && chain[i - 1].after.GradualRow? && chain[i - 1].after.gradual.status != D.Initial
    ensures GradualTold(FamilyOf(t.kind), Chain(Run(Empty(others), batches).history, t), h)
    ensures i < |h| && h[i].at >= h[i - 1].at + D.WEEK && h[i].world.attention
  {
    RunKeepsStories(others, batches);
    var chain := Chain(Run(Empty(others), batches).history, t);
    hide Run, Chain, D.GradualHistory, D.Novel;
    assert GradualAllowed(t, chain);
    h :| GradualTold(FamilyOf(t.kind), chain, h);
    D.RetirementWaits(FamilyOf(t.kind), h, i);
  }
}
