/** Complete revision histories, final statuses and belief supersession, over any sequence of batches. */
module PersonalHistory {
  import opened Common
  import D = Development
  import opened PersonalRows
  import opened Executive
  import opened Maturation
  import opened Personal

  // ---- What the inspector demands ----

  function Chain(history: seq<Revision>, t: Target): seq<Revision> {
    if history == [] then []
    else
      var last := history[|history| - 1];
      Chain(history[..|history| - 1], t) + if last.target == t then [last] else []
  }

  /** Revisions 1..n, each starting from what the previous one left, the last one being the stored row. */
  ghost predicate ChainOk(chain: seq<Revision>, row: Option<Row>) {
    && (forall i :: 0 <= i < |chain| ==> LinkOk(chain, i))
    && (row.Some? ==> chain != [] && chain[|chain| - 1].after == row.value && Number(row.value) == |chain|)
    && (row.None? ==> chain == [])
  }

  predicate LinkOk(chain: seq<Revision>, i: nat)
    requires i < |chain|
  {
    && chain[i].revision == i + 1 && Number(chain[i].after) == i + 1
    && chain[i].before == if i == 0 then None else Some(chain[i - 1].after)
  }

  ghost predicate HistoryOk(rows: map<Target, Row>, history: seq<Revision>) {
    forall t :: ChainOk(Chain(history, t), Lookup(rows, t))
  }

  predicate Typed(t: Target, row: Row) {
    match t.kind
    case Goal => row.GoalRow?
    case Commitment => row.CommitmentRow?
    case Belief => row.BeliefRow?
    case Episode => row.EpisodeRow?
    case Entity => row.EntityRow?
    case Project => row.ProjectRow?
    case Relationship => row.RelationshipRow?
    case Thread => row.ThreadRow?
    case Interest => row.GradualRow?
    case Preference => row.GradualRow?
    case SelfModel => row.SelfRow?
  }

  ghost predicate TypesOk(rows: map<Target, Row>) {
    forall t :: t in rows ==> Typed(t, rows[t])
  }

  /** Position of the first revision of a target. */
  function Born(history: seq<Revision>, t: Target): (i: nat)
    ensures i <= |history|
  {
    if history == [] then 0
    else
      var front := Born(history[..|history| - 1], t);
      if front < |history| - 1 || history[|history| - 1].target == t then front else |history|
  }

  predicate Supersedes(rows: map<Target, Row>, b: Id, p: Id) {
    var t := Target(Belief, b);
    t in rows && rows[t].BeliefRow? && rows[t].supersedes == Some(p)
  }

  predicate IsSuperseded(rows: map<Target, Row>, p: Id) {
    var t := Target(Belief, p);
    t in rows && rows[t].BeliefRow? && rows[t].beliefStatus == Superseded
  }

  /** A superseded belief is older than its successor and has no other; nothing else is marked superseded. */
  ghost predicate SupersessionOk(rows: map<Target, Row>, history: seq<Revision>) {
    && (forall b, p :: Supersedes(rows, b, p) ==> IsSuperseded(rows, p) && Born(history, Target(Belief, p)) < Born(history, Target(Belief, b)))
    && (forall a, b, p :: Supersedes(rows, a, p) && Supersedes(rows, b, p) ==> a == b)
    && (forall p :: IsSuperseded(rows, p) ==> exists b :: Supersedes(rows, b, p))
  }

  predicate Evidenced(row: Row) {
    row.BeliefRow? ==> (row.beliefStatus == Accepted ==> row.supporting != []) && (row.beliefStatus == Disputed ==> row.contradicting != [])
  }

  ghost predicate EvidenceOk(rows: map<Target, Row>) {
    forall t :: t in rows ==> Evidenced(rows[t])
  }

  /** An individual has at most one relationship with an entity. */
  ghost predicate RelationshipsOk(rows: map<Target, Row>) {
    forall s, t :: s in rows && t in rows && SameEntity(rows[s], rows[t]) ==> s == t
  }

  predicate SameEntity(a: Row, b: Row) {
    a.RelationshipRow? && b.RelationshipRow? && a.entity == b.entity
  }

  ghost predicate Inv(db: Db) {
    && HistoryOk(db.rows, db.history) && TypesOk(db.rows)
    && SupersessionOk(db.rows, db.history) && EvidenceOk(db.rows) && RelationshipsOk(db.rows)
  }

  // ---- Writing one change ----

  /** A change that was planned against the row as it still is. */
  ghost predicate Current(rows: map<Target, Row>, c: Change) {
    && c.Before() == Lookup(rows, c.target)
    && Typed(c.target, Written(rows, c))
    && Number(Written(rows, c)) == if c.Before().Some? then Number(c.Before().value) + 1 else 1
  }

  lemma ChainAppend(history: seq<Revision>, r: Revision, t: Target)
    ensures Chain(history + [r], t) == Chain(history, t) + if r.target == t then [r] else []
  {
    assert (history + [r])[..|history|] == history;
  }

  lemma ExtendChain(chain: seq<Revision>, r: Revision, row: Option<Row>)
    requires ChainOk(chain, row) && r.before == row && r.revision == Number(r.after)
    requires Number(r.after) == if row.Some? then Number(row.value) + 1 else 1
    ensures ChainOk(chain + [r], Some(r.after))
  {
    forall i | 0 <= i < |chain + [r]|
      ensures LinkOk(chain + [r], i)
    {
      if i < |chain| {
        assert LinkOk(chain, i);
      }
    }
  }

  /** Writing a current change extends its target's history by one revision and touches no other. */
  lemma WriteKeepsHistory(db: Db, c: Change, operation: Option<Id>)
    requires HistoryOk(db.rows, db.history) && Current(db.rows, c)
    ensures var after := WriteChange(db, c, operation); HistoryOk(after.rows, after.history)
  {
    hide ChainOk, Typed, Written;
    var after := WriteChange(db, c, operation);
    var r := after.history[|db.history|];
    forall t
      ensures ChainOk(Chain(after.history, t), Lookup(after.rows, t))
    {
      ChainAppend(db.history, r, t);
      assert ChainOk(Chain(db.history, t), Lookup(db.rows, t));
      assert Chain(db.history, t) + [] == Chain(db.history, t);
      if t == c.target {
        ExtendChain(Chain(db.history, t), r, Lookup(db.rows, t));
      }
    }
  }

  // ---- What a valid operation plans ----

  /** The changes of an operation are made against the stored rows, one per declared target. */
  ghost predicate PlannedWell(rows: map<Target, Row>, op: Operation, changes: seq<Change>) {
    && |changes| == |Touches(op)|
    && (forall i :: 0 <= i < |changes| ==> changes[i].target == Touches(op)[i] && Current(rows, changes[i]))
  }

  lemma GoalPlan(db: Db, op: Operation, now: Time)
    requires TypesOk(db.rows) && op.GoalOp? && Coherent(op) && |PlanGoal(db, op, now).errors| == 0
    ensures PlannedWell(db.rows, op, PlanGoal(db, op, now).changes)
    ensures Subject(op) in db.rows ==> db.rows[Subject(op)].GoalRow? && db.rows[Subject(op)].goalStatus !in {GoalCompleted, GoalAbandoned}
  {
    hide AllKnown, Linked, BlankText, NoOp;
  }

  lemma CommitmentPlan(db: Db, op: Operation, now: Time)
    requires TypesOk(db.rows) && op.CommitmentOp? && Coherent(op) && |PlanCommitment(db, op, now).errors| == 0
    ensures PlannedWell(db.rows, op, PlanCommitment(db, op, now).changes)
    ensures Subject(op) in db.rows ==> db.rows[Subject(op)].CommitmentRow? && db.rows[Subject(op)].commitmentStatus !in {Fulfilled, Released, Broken}
  {
    hide AllKnown, Linked, BlankText, NoOp;
  }

  lemma EpisodePlan(db: Db, op: Operation, now: Time)
    requires op.EpisodeOp? && |PlanEpisode(db, op, now).errors| == 0
    ensures PlannedWell(db.rows, op, PlanEpisode(db, op, now).changes) && Subject(op) !in db.rows
  {
    hide AllKnown;
  }

  lemma EntityPlan(db: Db, op: Operation, now: Time)
    requires TypesOk(db.rows) && op.EntityOp? && Coherent(op) && |PlanEntity(db, op, now).errors| == 0
    ensures PlannedWell(db.rows, op, PlanEntity(db, op, now).changes)
  {
    hide AllKnown, BlankText, NoOp;
  }

  lemma ProjectPlan(db: Db, op: Operation, now: Time)
    requires TypesOk(db.rows) && op.ProjectOp? && Coherent(op) && |PlanProject(db, op, now).errors| == 0
    ensures PlannedWell(db.rows, op, PlanProject(db, op, now).changes)
    ensures Subject(op) in db.rows ==> !Final(db.rows[Subject(op)])
  {
    hide PlannedWell, TypesOk, AllKnown, BlankText, RevisedErrors, ProjectValues;
    if op.change == Create {
      OneCreation(db, op, PlanProject(db, op, now).changes[0].row);
    } else {
      ProjectOpen(db, op, now);
      hide PlanProject, Coherent;
      OneUpdate(db, op, ProjectValues(op), now);
    }
  }

  lemma ProjectOpen(db: Db, op: Operation, now: Time)
    requires TypesOk(db.rows) && op.ProjectOp? && Coherent(op) && op.change != Create && |PlanProject(db, op, now).errors| == 0
    ensures var t := Subject(op);
      && t in db.rows && db.rows[t].ProjectRow? && !Final(db.rows[t])
      && PlanProject(db, op, now).changes == [Updated(t, db.rows[t], ProjectValues(op), now, Number(db.rows[t]) + 1)]
      && Typed(t, Assign(ProjectValues(op), db.rows[t], now, Number(db.rows[t]) + 1))
      && Number(Assign(ProjectValues(op), db.rows[t], now, Number(db.rows[t]) + 1)) == Number(db.rows[t]) + 1
  {
    hide AllKnown, BlankText, RevisedErrors;
  }

  /** A new relationship is about an entity that has none yet; a revised one stays about its entity. */
  ghost predicate RelationshipPlanned(rows: map<Target, Row>, op: Operation, changes: seq<Change>)
    requires op.RelationshipOp?
  {
    && |changes| == 1
    && (if op.create then
          changes[0].Created? && changes[0].row.RelationshipRow? && op.entity == Some(changes[0].row.entity) && !Related(rows, changes[0].row.entity)
        else
          Subject(op) in rows && SameEntity(Written(rows, changes[0]), rows[Subject(op)]))
  }

  lemma RelationshipPlan(db: Db, op: Operation, now: Time)
    requires TypesOk(db.rows) && op.RelationshipOp? && Coherent(op) && |PlanRelationship(db, op, now).errors| == 0
    ensures PlannedWell(db.rows, op, PlanRelationship(db, op, now).changes)
    ensures RelationshipPlanned(db.rows, op, PlanRelationship(db, op, now).changes)
  {
    hide PlannedWell, TypesOk, AllKnown, BlankText, RevisedErrors, Linked, Related;
    if op.create {
      OneCreation(db, op, PlanRelationship(db, op, now).changes[0].row);
    } else {
      OneUpdate(db, op, RelationshipSet(op.narrative, op.rationale, op.evidence), now);
    }
  }

  lemma ThreadPlan(db: Db, op: Operation, now: Time)
    requires TypesOk(db.rows) && op.ThreadOp? && Coherent(op) && |PlanThread(db, op, now).errors| == 0
    ensures PlannedWell(db.rows, op, PlanThread(db, op, now).changes)
    ensures Subject(op) in db.rows ==> !Final(db.rows[Subject(op)])
  {
    hide TypesOk, PlanThread, PlannedWell, Final;
    if op.change == Create {
      ThreadCreated(db, op, now);
    } else {
      ThreadChanged(db, op, now);
    }
  }

  lemma ThreadCreated(db: Db, op: Operation, now: Time)
    requires op.ThreadOp? && Coherent(op) && op.change == Create && |PlanThread(db, op, now).errors| == 0
    ensures Subject(op) !in db.rows && PlannedWell(db.rows, op, PlanThread(db, op, now).changes)
  {
    hide AllKnown, Linked, BlankText, NoOp, ParentKnown, RevisedErrors, ThreadValues, Assign;
  }

  lemma ThreadChanged(db: Db, op: Operation, now: Time)
    requires TypesOk(db.rows) && op.ThreadOp? && Coherent(op) && op.change != Create && |PlanThread(db, op, now).errors| == 0
    ensures Subject(op) in db.rows && !Final(db.rows[Subject(op)])
    ensures PlannedWell(db.rows, op, PlanThread(db, op, now).changes)
  {
    hide PlanThread, TypesOk, Coherent, PlannedWell, ThreadValues;
    ThreadOpen(db, op, now);
    OneUpdate(db, op, ThreadValues(op), now);
  }

  /** A thread that changes is stored and open, and its one change is an assignment to its row. */
  lemma ThreadOpen(db: Db, op: Operation, now: Time)
    requires TypesOk(db.rows) && op.ThreadOp? && Coherent(op) && op.change != Create && |PlanThread(db, op, now).errors| == 0
    ensures var t := Subject(op);
      && t in db.rows && db.rows[t].ThreadRow? && !Final(db.rows[t])
      && Typed(t, Assign(ThreadValues(op), db.rows[t], now, Number(db.rows[t]) + 1))
      && Number(Assign(ThreadValues(op), db.rows[t], now, Number(db.rows[t]) + 1)) == Number(db.rows[t]) + 1
      && PlanThread(db, op, now).changes == [Updated(t, db.rows[t], ThreadValues(op), now, Number(db.rows[t]) + 1)]
  {
    hide AllKnown, Linked, BlankText, ParentKnown, RevisedErrors;
  }

  /** One assignment to the stored row of the operation's target is planned well if it keeps the row's family. */
  lemma OneUpdate(db: Db, op: Operation, values: Values, now: Time)
    requires !op.BeliefOp? && Subject(op) in db.rows
    requires var row := Assign(values, db.rows[Subject(op)], now, Number(db.rows[Subject(op)]) + 1);
      Typed(Subject(op), row) && Number(row) == Number(db.rows[Subject(op)]) + 1
    ensures PlannedWell(db.rows, op, [Updated(Subject(op), db.rows[Subject(op)], values, now, Number(db.rows[Subject(op)]) + 1)])
  {
    hide Assign, Typed, Number, Subject;
  }

  lemma OneCreation(db: Db, op: Operation, row: Row)
    requires !op.BeliefOp? && Subject(op) !in db.rows && Typed(Subject(op), row) && Number(row) == 1
    ensures PlannedWell(db.rows, op, [Created(Subject(op), row)])
  {
    hide Typed, Number, Subject;
  }

  /** What the rules of maturation leave has the next number, and nothing follows a retirement. */
  lemma GradualNumbers(f: D.Family, row: Option<D.Gradual>, step: D.GradualOp, w: D.World, now: Time)
    requires |D.PlanGradual(f, row, step, w, now).0| == 0
    ensures D.PlanGradual(f, row, step, w, now).1.Some?
    ensures D.PlanGradual(f, row, step, w, now).1.value.revision == if row.Some? then row.value.revision + 1 else 1
    ensures row.Some? ==> row.value.status != D.Retired
  {
    hide D.Separated, D.Anchors, D.Novel, D.CommonErrors, UnionRefs;
  }

  lemma GradualPlan(db: Db, op: Operation, now: Time)
    requires TypesOk(db.rows) && op.GradualOp? && Coherent(op) && |PlanGradual(db, op, now).errors| == 0
    ensures PlannedWell(db.rows, op, PlanGradual(db, op, now).changes)
    ensures Subject(op) in db.rows ==> !Final(db.rows[Subject(op)])
  {
    hide WorldOf, D.PlanGradual, PlannedWell, Coherent;
    var t := Subject(op);
    var row, w := StoredGradual(db.rows, t), WorldOf(db, op.step.refs, op.attention);
    GradualNumbers(op.family, row, op.step, w, now);
    assert t in db.rows ==> Typed(t, db.rows[t]);
    var after := D.PlanGradual(op.family, row, op.step, w, now).1.value;
    hide TypesOk;
    if row.None? {
      OneCreation(db, op, GradualRow(after, now));
    } else {
      OneUpdate(db, op, GradualSet(after.status, after.rationale, after.evidence, after.retirementNotBefore), now);
    }
  }

  lemma SelfNumbers(layer: D.Layer, row: Option<D.SelfState>, op: D.Proposal, w: D.World, now: Time)
    ensures D.PlanSelf(layer, row, op, w, now).1.revision == if row.Some? then row.value.revision + 1 else 1
  {
    hide D.Separated, D.Anchors, D.CommonErrors, UnionRefs;
  }

  lemma SelfPlan(db: Db, op: Operation, now: Time)
    requires TypesOk(db.rows) && op.SelfOp? && |PlanSelf(db, op, now).errors| == 0
    ensures PlannedWell(db.rows, op, PlanSelf(db, op, now).changes)
  {
    hide WorldOf, D.PlanSelf, PlannedWell, SelfKnown;
    var t := Subject(op);
    var row, w := StoredSelf(db.rows, t), WorldOf(db, op.proposal.refs, op.attention);
    SelfNumbers(op.layer, row, op.proposal, w, now);
    assert t in db.rows ==> Typed(t, db.rows[t]);
    var after := D.PlanSelf(op.layer, row, op.proposal, w, now).1;
    hide TypesOk;
    if row.None? {
      OneCreation(db, op, SelfRow(op.id, after, now));
    } else {
      OneUpdate(db, op, SelfSet(after), now);
    }
  }

  /** A belief operation creates a belief, moves an open one, or replaces an open one by a new one. */
  ghost predicate BeliefPlanned(rows: map<Target, Row>, op: Operation, changes: seq<Change>)
    requires op.BeliefOp?
  {
    var t := Subject(op);
    match op.action
    case SetBelief =>
      && t in rows && rows[t].BeliefRow? && rows[t].beliefStatus !in {Superseded, Withdrawn}
      && |changes| == 1 && changes[0].Updated? && changes[0].values.BeliefSet? && changes[0].values.belief != Superseded
      && Evidenced(Written(rows, changes[0]))
    case CreateBelief =>
      && t !in rows && |changes| == 1 && changes[0].Created? && changes[0].row.BeliefRow?
      && changes[0].row.supersedes.None? && changes[0].row.beliefStatus != Superseded && Evidenced(changes[0].row)
    case Supersede =>
      && t !in rows && |changes| == 2 && changes[0].Created? && changes[0].row.BeliefRow? && changes[1].Updated?
      && changes[0].row.supersedes == op.supersedes && op.supersedes.Some? && changes[0].row.beliefStatus != Superseded
      && Evidenced(changes[0].row)
      && changes[1].target == Target(Belief, op.supersedes.value) && changes[1].target in rows
      && rows[changes[1].target].BeliefRow? && rows[changes[1].target].beliefStatus !in {Superseded, Withdrawn}
      && changes[1].values == BeliefSet(Superseded, None, None)
  }

  lemma BeliefMoves(db: Db, op: Operation, now: Time)
    requires TypesOk(db.rows) && op.BeliefOp? && op.action == SetBelief && Coherent(op) && |PlanBelief(db, op, now).errors| == 0
    ensures PlannedWell(db.rows, op, PlanBelief(db, op, now).changes)
    ensures BeliefPlanned(db.rows, op, PlanBelief(db, op, now).changes)
  {
    hide AllKnown, Linked, BlankText, UnionRefs;
  }

  lemma BeliefAppears(db: Db, op: Operation, now: Time)
    requires TypesOk(db.rows) && op.BeliefOp? && op.action == CreateBelief && Coherent(op) && |PlanBelief(db, op, now).errors| == 0
    ensures PlannedWell(db.rows, op, PlanBelief(db, op, now).changes)
    ensures BeliefPlanned(db.rows, op, PlanBelief(db, op, now).changes)
  {
    hide AllKnown, Linked, BlankText, UnionRefs;
  }

  lemma BeliefReplaces(db: Db, op: Operation, now: Time)
    requires TypesOk(db.rows) && op.BeliefOp? && op.action == Supersede && Coherent(op) && |PlanBelief(db, op, now).errors| == 0
    ensures PlannedWell(db.rows, op, PlanBelief(db, op, now).changes)
    ensures BeliefPlanned(db.rows, op, PlanBelief(db, op, now).changes)
  {
    hide AllKnown, Linked, BlankText, UnionRefs;
  }

  lemma BeliefPlan(db: Db, op: Operation, now: Time)
    requires TypesOk(db.rows) && op.BeliefOp? && Coherent(op) && |PlanBelief(db, op, now).errors| == 0
    ensures PlannedWell(db.rows, op, PlanBelief(db, op, now).changes)
    ensures BeliefPlanned(db.rows, op, PlanBelief(db, op, now).changes)
  {
    hide TypesOk, Coherent, PlanBelief, PlannedWell, BeliefPlanned;
    match op.action
    case SetBelief => BeliefMoves(db, op, now);
    case CreateBelief => BeliefAppears(db, op, now);
    case Supersede => BeliefReplaces(db, op, now);
  }

  /** What an error-free plan means for any operation. */
  ghost predicate OpPlanned(rows: map<Target, Row>, op: Operation, changes: seq<Change>) {
    && PlannedWell(rows, op, changes) && changes != []
    && (op.BeliefOp? ==> BeliefPlanned(rows, op, changes))
    && (!op.BeliefOp? ==> |changes| == 1 && Subject(op).kind != Belief)
    && (op.RelationshipOp? ==> RelationshipPlanned(rows, op, changes))
    && (Subject(op) in rows ==> !Final(rows[Subject(op)]))
  }

  predicate Final(row: Row) {
    match row
    case GoalRow(_, _, _, status, _, _, _, _, _, _) => status in {GoalCompleted, GoalAbandoned}
    case CommitmentRow(_, _, _, _, status, _, _, _, _, _) => status in {Fulfilled, Released, Broken}
    case BeliefRow(_, _, _, status, _, _, _, _, _, _, _) => status in {Superseded, Withdrawn}
    case EpisodeRow(_, _, _, _, _, _) => true
    case EntityRow(_, _, _, _, _) => false
    case ProjectRow(_, _, status, _, _, _, _, _) => status in {GoalCompleted, GoalAbandoned}
    case RelationshipRow(_, _, _, _, _, _, _) => false
    case ThreadRow(_, _, _, _, status, _, _, _, _, _) => status != Open
    case GradualRow(gradual, _) => gradual.status == D.Retired
    case SelfRow(_, _, _) => false
  }

  lemma ValidOperation(db: Db, op: Operation, now: Time)
    requires TypesOk(db.rows) && Coherent(op) && |PlanOne(db, op, now).errors| == 0
    ensures OpPlanned(db.rows, op, PlanOne(db, op, now).changes)
  {
    hide PlannedWell, BeliefPlanned, RelationshipPlanned, TypesOk;
    hide PlanGoal, PlanCommitment, PlanBelief, PlanEpisode, PlanEntity, PlanProject, PlanRelationship, PlanThread, PlanGradual, PlanSelf;
    match op
    case GoalOp(_, _, _, _, _, _, _, _, _, _) => GoalPlan(db, op, now); OneTarget(db, op, now);
    case CommitmentOp(_, _, _, _, _, _, _, _, _, _) => CommitmentPlan(db, op, now); OneTarget(db, op, now);
    case BeliefOp(_, _, _, _, _, _, _, _, _, _, _) => BeliefPlan(db, op, now); BeliefOpen(db, op, now);
    case EpisodeOp(_, _, _, _, _, _) => EpisodePlan(db, op, now); OneTarget(db, op, now);
    case EntityOp(_, _, _, _, _, _, _) => EntityPlan(db, op, now); OneTarget(db, op, now); NeverFinal(db, op);
    case ProjectOp(_, _, _, _, _, _, _, _) => ProjectPlan(db, op, now); OneTarget(db, op, now);
    case RelationshipOp(_, _, _, _, _, _, _) => RelationshipPlan(db, op, now); OneTarget(db, op, now); NeverFinal(db, op);
    case ThreadOp(_, _, _, _, _, _, _, _, _, _) => ThreadPlan(db, op, now); OneTarget(db, op, now);
    case GradualOp(_, _, _, _, _) => GradualPlan(db, op, now); OneTarget(db, op, now);
    case SelfOp(_, _, _, _) => SelfPlan(db, op, now); OneTarget(db, op, now); NeverFinal(db, op);
  }

  lemma NeverFinal(db: Db, op: Operation)
    requires TypesOk(db.rows) && (op.EntityOp? || op.RelationshipOp? || op.SelfOp?)
    ensures Subject(op) in db.rows ==> !Final(db.rows[Subject(op)])
  {
  }

  lemma OneTarget(db: Db, op: Operation, now: Time)
    requires Coherent(op) && !op.BeliefOp? && PlannedWell(db.rows, op, PlanOne(db, op, now).changes)
    ensures |PlanOne(db, op, now).changes| == 1 && Subject(op).kind != Belief
  {
    hide PlanOne;
  }

  lemma BeliefOpen(db: Db, op: Operation, now: Time)
    requires Coherent(op) && op.BeliefOp? && BeliefPlanned(db.rows, op, PlanBelief(db, op, now).changes)
    ensures PlanBelief(db, op, now).changes != []
    ensures Subject(op) in db.rows ==> !Final(db.rows[Subject(op)])
  {
    hide PlanBelief;
  }

  // ---- Writing one operation ----

  /** The rows an operation was planned against are still there when it is written. */
  ghost predicate Agree(a: map<Target, Row>, b: map<Target, Row>, targets: seq<Target>) {
    forall t :: t in targets ==> Lookup(a, t) == Lookup(b, t)
  }

  lemma StillPlanned(planned: map<Target, Row>, rows: map<Target, Row>, op: Operation, changes: seq<Change>)
    requires OpPlanned(planned, op, changes) && Agree(planned, rows, Touches(op))
    requires NewEntity(op).Some? ==> !Related(rows, NewEntity(op).value)
    ensures OpPlanned(rows, op, changes)
  {
    forall i | 0 <= i < |changes|
      ensures Current(rows, changes[i])
    {
      assert changes[i].target in Touches(op);
      assert Lookup(planned, changes[i].target) == Lookup(rows, changes[i].target);
    }
    assert Subject(op) == Touches(op)[0] && Subject(op) in Touches(op);
    if op.BeliefOp? && op.action == Supersede {
      assert Touches(op)[1] in Touches(op);
      assert changes[1].target == Touches(op)[1];
    }
    if op.RelationshipOp? {
      assert changes[0].target == Subject(op) && Lookup(planned, Subject(op)) == Lookup(rows, Subject(op));
    }
    hide Current, Typed, Final, Related;
  }

  /** Rows after writing: exactly the declared targets change. */
  lemma {:induction false} WritesTouchOnly(db: Db, changes: seq<Change>, operation: Id, t: Target)
    requires forall i :: 0 <= i < |changes| ==> changes[i].target != t
    ensures Lookup(WriteChanges(db, changes, operation).rows, t) == Lookup(db.rows, t)
  {
    if changes != [] {
      hide Written;
      WritesTouchOnly(db, changes[..|changes| - 1], operation, t);
    }
  }

  lemma {:induction false} WritesFrame(db: Db, changes: seq<Change>, operation: Id)
    ensures var after := WriteChanges(db, changes, operation);
      after.others == db.others && after.applied == db.applied
  {
    if changes != [] {
      hide Written;
      WritesFrame(db, changes[..|changes| - 1], operation);
    }
  }

  lemma {:induction false} WritesKeepHistory(db: Db, changes: seq<Change>, operation: Id)
    requires HistoryOk(db.rows, db.history) && TypesOk(db.rows)
    requires forall i :: 0 <= i < |changes| ==> Current(db.rows, changes[i])
    requires forall i, j :: 0 <= i < j < |changes| ==> changes[i].target != changes[j].target
    ensures var after := WriteChanges(db, changes, operation);
      HistoryOk(after.rows, after.history) && TypesOk(after.rows)
  {
    if changes != [] {
      var front, last := changes[..|changes| - 1], changes[|changes| - 1];
      hide HistoryOk, Typed;
      WritesKeepHistory(db, front, operation);
      var before := WriteChanges(db, front, operation);
      WritesTouchOnly(db, front, operation, last.target);
      CurrentOnlyLooksAtTarget(db.rows, before.rows, last);
      WriteKeepsHistory(before, last, if |changes| == 1 then Some(operation) else None);
      hide Written;
    }
  }

  lemma CurrentOnlyLooksAtTarget(a: map<Target, Row>, b: map<Target, Row>, c: Change)
    requires Current(a, c) && Lookup(a, c.target) == Lookup(b, c.target)
    ensures Current(b, c) && Written(b, c) == Written(a, c)
  {
  }

  // ---- Births ----

  lemma BornAppend(history: seq<Revision>, r: Revision, t: Target)
    ensures Born(history + [r], t) ==
      if Born(history, t) < |history| then Born(history, t) else if r.target == t then |history| else |history| + 1
  {
    assert (history + [r])[..|history|] == history;
  }

  lemma {:induction false} ChainBorn(history: seq<Revision>, t: Target)
    ensures Chain(history, t) != [] <==> Born(history, t) < |history|
  {
    if history != [] {
      ChainBorn(history[..|history| - 1], t);
    }
  }

  lemma StoredIsBorn(rows: map<Target, Row>, history: seq<Revision>, t: Target)
    requires HistoryOk(rows, history)
    ensures t in rows <==> Born(history, t) < |history|
  {
    ChainBorn(history, t);
    assert ChainOk(Chain(history, t), Lookup(rows, t));
  }

  lemma {:induction false} WritesKeepBirths(db: Db, changes: seq<Change>, operation: Id, t: Target)
    ensures var after := WriteChanges(db, changes, operation);
      && db.history <= after.history
      && (Born(db.history, t) < |db.history| ==> Born(after.history, t) == Born(db.history, t))
      && (Born(db.history, t) == |db.history| ==> Born(after.history, t) >= |db.history|)
  {
    if changes != [] {
      hide Written;
      WritesKeepBirths(db, changes[..|changes| - 1], operation, t);
      var before := WriteChanges(db, changes[..|changes| - 1], operation);
      var after := WriteChanges(db, changes, operation);
      BornAppend(before.history, after.history[|before.history|], t);
    }
  }

  // ---- Supersession ----

  ghost predicate BirthsStay(rows: map<Target, Row>, history: seq<Revision>, later: seq<Revision>) {
    && |history| <= |later|
    && (forall t :: t in rows ==> Born(history, t) < |history| && Born(later, t) == Born(history, t))
    && (forall t :: t !in rows ==> Born(later, t) >= |history|)
  }

  lemma SupersessionFrame(rows: map<Target, Row>, history: seq<Revision>, rows': map<Target, Row>, history': seq<Revision>)
    requires SupersessionOk(rows, history) && BirthsStay(rows, history, history')
    requires forall b, p :: Supersedes(rows', b, p) <==> Supersedes(rows, b, p)
    requires forall p :: IsSuperseded(rows', p) <==> IsSuperseded(rows, p)
    ensures SupersessionOk(rows', history')
  {
    hide Born;
    forall p | IsSuperseded(rows', p)
      ensures exists b :: Supersedes(rows', b, p)
    {
      var b :| Supersedes(rows, b, p);
      assert Supersedes(rows', b, p);
    }
  }

  /** A new belief and the belief it replaces become a new link at the end of their chain. */
  lemma SupersessionExtends(rows: map<Target, Row>, history: seq<Revision>, rows': map<Target, Row>, history': seq<Revision>, b: Id, p: Id)
    requires SupersessionOk(rows, history) && BirthsStay(rows, history, history')
    requires Target(Belief, b) !in rows && Target(Belief, p) in rows && !IsSuperseded(rows, p)
    requires forall x, q :: Supersedes(rows', x, q) <==> Supersedes(rows, x, q) || (x == b && q == p)
    requires forall q :: IsSuperseded(rows', q) <==> IsSuperseded(rows, q) || q == p
    ensures SupersessionOk(rows', history')
  {
    hide Born;
    assert Supersedes(rows', b, p);
    forall q | IsSuperseded(rows', q)
      ensures exists x :: Supersedes(rows', x, q)
    {
      if q != p {
        var x :| Supersedes(rows, x, q);
        assert Supersedes(rows', x, q);
      }
    }
    assert forall x :: !Supersedes(rows, x, p);
  }

  lemma WritesBirths(db: Db, changes: seq<Change>, operation: Id)
    requires HistoryOk(db.rows, db.history)
    ensures BirthsStay(db.rows, db.history, WriteChanges(db, changes, operation).history)
  {
    hide HistoryOk;
    forall t
      ensures t in db.rows <==> Born(db.history, t) < |db.history|
    {
      StoredIsBorn(db.rows, db.history, t);
    }
    forall t { WritesKeepBirths(db, changes, operation, t); }
    hide Born, WriteChanges;
  }

  lemma OneWrite(db: Db, changes: seq<Change>, operation: Id)
    requires |changes| == 1
    ensures WriteChanges(db, changes, operation) == WriteChange(db, changes[0], Some(operation))
  {
    assert changes[..0] == [];
    hide Written;
  }

  lemma TwoWrites(db: Db, changes: seq<Change>, operation: Id)
    requires |changes| == 2 && changes[0].target != changes[1].target
    ensures WriteChanges(db, changes, operation).rows ==
      db.rows[changes[0].target := Written(db.rows, changes[0])][changes[1].target := Written(db.rows, changes[1])]
  {
    OneWrite(db, changes[..1], operation);
    WrittenElsewhere(db.rows, changes[0].target, Written(db.rows, changes[0]), changes[1]);
    hide Written;
  }

  lemma WrittenElsewhere(rows: map<Target, Row>, t: Target, row: Row, c: Change)
    requires c.target != t
    ensures Written(rows[t := row], c) == Written(rows, c)
  {
  }

  lemma OtherKindsKeep(db: Db, op: Operation, changes: seq<Change>)
    requires SupersessionOk(db.rows, db.history) && EvidenceOk(db.rows) && HistoryOk(db.rows, db.history)
    requires OpPlanned(db.rows, op, changes) && !op.BeliefOp?
    ensures var after := WriteChanges(db, changes, op.id); SupersessionOk(after.rows, after.history) && EvidenceOk(after.rows)
  {
    hide HistoryOk, SupersessionOk, Born, WriteChanges, BirthsStay, Final, Number;
    WritesBirths(db, changes, op.id);
    OneWrite(db, changes, op.id);
    var after := WriteChange(db, changes[0], Some(op.id));
    assert changes[0].target == Touches(op)[0];
    assert Current(db.rows, changes[0]);
    SupersessionFrame(db.rows, db.history, after.rows, after.history);
  }

  lemma SetBeliefKeeps(db: Db, op: Operation, changes: seq<Change>)
    requires SupersessionOk(db.rows, db.history) && EvidenceOk(db.rows) && HistoryOk(db.rows, db.history)
    requires OpPlanned(db.rows, op, changes) && op.BeliefOp? && op.action == SetBelief
    ensures var after := WriteChanges(db, changes, op.id); SupersessionOk(after.rows, after.history) && EvidenceOk(after.rows)
  {
    hide HistoryOk, SupersessionOk, Born, WriteChanges, BirthsStay, Final;
    WritesBirths(db, changes, op.id);
    OneWrite(db, changes, op.id);
    var after := WriteChange(db, changes[0], Some(op.id));
    assert changes[0].target == Touches(op)[0];
    assert Current(db.rows, changes[0]);
    SupersessionFrame(db.rows, db.history, after.rows, after.history);
  }

  lemma CreateBeliefKeeps(db: Db, op: Operation, changes: seq<Change>)
    requires SupersessionOk(db.rows, db.history) && EvidenceOk(db.rows) && HistoryOk(db.rows, db.history)
    requires OpPlanned(db.rows, op, changes) && op.BeliefOp? && op.action == CreateBelief
    ensures var after := WriteChanges(db, changes, op.id); SupersessionOk(after.rows, after.history) && EvidenceOk(after.rows)
  {
    WritesBirths(db, changes, op.id);
    OneWrite(db, changes, op.id);
    hide HistoryOk, SupersessionOk, Born, WriteChanges, BirthsStay, Final;
    var after := WriteChange(db, changes[0], Some(op.id));
    assert changes[0].target == Touches(op)[0];
    SupersessionFrame(db.rows, db.history, after.rows, after.history);
  }

  lemma SupersedeKeeps(db: Db, op: Operation, changes: seq<Change>)
    requires SupersessionOk(db.rows, db.history) && EvidenceOk(db.rows) && HistoryOk(db.rows, db.history)
    requires OpPlanned(db.rows, op, changes) && op.BeliefOp? && op.action == Supersede
    ensures var after := WriteChanges(db, changes, op.id); SupersessionOk(after.rows, after.history) && EvidenceOk(after.rows)
  {
    hide HistoryOk, SupersessionOk, Born, BirthsStay, Final, WriteChanges;
    WritesBirths(db, changes, op.id);
    var t, p := Subject(op), op.supersedes.value;
    assert changes[0].target == Touches(op)[0] == t && changes[1].target == Touches(op)[1];
    assert Current(db.rows, changes[0]) && Current(db.rows, changes[1]);
    TwoWrites(db, changes, op.id);
    var after := WriteChanges(db, changes, op.id);
    SupersessionExtends(db.rows, db.history, after.rows, after.history, t.id, p);
  }

  // ---- Relationships ----

  ghost predicate SameRelationships(rows: map<Target, Row>, rows': map<Target, Row>) {
    && (forall t :: t in rows && rows[t].RelationshipRow? ==> t in rows' && SameEntity(rows[t], rows'[t]))
    && (forall t :: t in rows' && rows'[t].RelationshipRow? ==> t in rows && SameEntity(rows[t], rows'[t]))
  }

  /** What a new relationship adds. */
  ghost predicate RelatedOnly(rows: map<Target, Row>, rows': map<Target, Row>, entity: Option<Id>) {
    forall e: Id :: Related(rows', e) ==> Related(rows, e) || entity == Some(e)
  }

  lemma SameRelationshipsKeep(rows: map<Target, Row>, rows': map<Target, Row>)
    requires RelationshipsOk(rows) && SameRelationships(rows, rows')
    ensures RelationshipsOk(rows') && RelatedOnly(rows, rows', None)
  {
    forall s, t | s in rows' && t in rows' && SameEntity(rows'[s], rows'[t])
      ensures s == t
    {
      assert SameEntity(rows[s], rows[t]);
    }
    forall e: Id | Related(rows', e)
      ensures Related(rows, e)
    {
      var t :| t in rows' && rows'[t].RelationshipRow? && rows'[t].entity == e;
      assert t in rows && rows[t].RelationshipRow? && rows[t].entity == e;
    }
  }

  lemma OtherFamiliesKeep(db: Db, op: Operation, changes: seq<Change>)
    requires RelationshipsOk(db.rows) && TypesOk(db.rows) && OpPlanned(db.rows, op, changes) && !op.RelationshipOp?
    requires TypesOk(WriteChanges(db, changes, op.id).rows)
    ensures RelationshipsOk(WriteChanges(db, changes, op.id).rows)
    ensures RelatedOnly(db.rows, WriteChanges(db, changes, op.id).rows, None)
  {
    var after := WriteChanges(db, changes, op.id).rows;
    hide Current, BeliefPlanned, WriteChanges, Final, RelationshipsOk, RelatedOnly;
    forall t: Target | t.kind == Relationship
      ensures Lookup(after, t) == Lookup(db.rows, t)
    {
      forall i | 0 <= i < |changes|
        ensures changes[i].target != t
      {
        assert changes[i].target == Touches(op)[i] && Touches(op)[i].kind != Relationship;
      }
      WritesTouchOnly(db, changes, op.id, t);
    }
    forall t | t in after && after[t].RelationshipRow?
      ensures t in db.rows && db.rows[t] == after[t]
    {
      assert Typed(t, after[t]) && t.kind == Relationship;
      assert Lookup(after, t) == Lookup(db.rows, t);
    }
    forall t | t in db.rows && db.rows[t].RelationshipRow?
      ensures t in after && db.rows[t] == after[t]
    {
      assert Typed(t, db.rows[t]) && t.kind == Relationship;
      assert Lookup(after, t) == Lookup(db.rows, t);
    }
    SameRelationshipsKeep(db.rows, after);
  }

  /** A relationship is created with an entity that has none, or stays with its entity. */
  lemma RelationshipKeeps(db: Db, op: Operation, changes: seq<Change>)
    requires RelationshipsOk(db.rows) && OpPlanned(db.rows, op, changes) && op.RelationshipOp?
    ensures RelationshipsOk(WriteChanges(db, changes, op.id).rows)
    ensures RelatedOnly(db.rows, WriteChanges(db, changes, op.id).rows, NewEntity(op))
  {
    OneWrite(db, changes, op.id);
    hide WriteChanges, Typed, Final;
    var after := WriteChange(db, changes[0], Some(op.id)).rows;
    assert changes[0].target == Touches(op)[0] == Subject(op);
    assert Current(db.rows, changes[0]);
    if op.create {
      OneRelationshipMore(db.rows, Subject(op), changes[0].row);
    } else {
      assert SameRelationships(db.rows, after);
      SameRelationshipsKeep(db.rows, after);
    }
  }

  lemma OneRelationshipMore(rows: map<Target, Row>, t: Target, row: Row)
    requires RelationshipsOk(rows) && t !in rows && row.RelationshipRow? && !Related(rows, row.entity)
    ensures RelationshipsOk(rows[t := row]) && RelatedOnly(rows, rows[t := row], Some(row.entity))
  {
    forall e: Id | Related(rows[t := row], e) && e != row.entity
      ensures Related(rows, e)
    {
      var u :| u in rows[t := row] && rows[t := row][u].RelationshipRow? && rows[t := row][u].entity == e;
      assert u in rows && rows[u].entity == e;
    }
  }

  lemma BeliefsKeep(db: Db, op: Operation, changes: seq<Change>)
    requires SupersessionOk(db.rows, db.history) && EvidenceOk(db.rows) && HistoryOk(db.rows, db.history)
    requires OpPlanned(db.rows, op, changes)
    ensures var after := WriteChanges(db, changes, op.id); SupersessionOk(after.rows, after.history) && EvidenceOk(after.rows)
  {
    hide HistoryOk, SupersessionOk, EvidenceOk, WriteChanges, BeliefPlanned, RelationshipPlanned, Current;
    if op.BeliefOp? {
      match op.action
      case SetBelief => SetBeliefKeeps(db, op, changes);
      case CreateBelief => CreateBeliefKeeps(db, op, changes);
      case Supersede => SupersedeKeeps(db, op, changes);
    } else {
      OtherKindsKeep(db, op, changes);
    }
  }

  /** Writing one valid operation keeps everything the inspector demands. */
  lemma OperationKeepsInv(db: Db, op: Operation, changes: seq<Change>)
    requires Inv(db) && OpPlanned(db.rows, op, changes) && Distinct(Touches(op))
    ensures Inv(WriteChanges(db, changes, op.id))
    ensures RelatedOnly(db.rows, WriteChanges(db, changes, op.id).rows, NewEntity(op))
  {
    hide HistoryOk, SupersessionOk, EvidenceOk, TypesOk, RelationshipsOk, RelatedOnly, WriteChanges;
    TargetsDiffer(op, changes, db.rows);
    WritesKeepHistory(db, changes, op.id);
    BeliefsKeep(db, op, changes);
    hide OpPlanned;
    if op.RelationshipOp? {
      RelationshipKeeps(db, op, changes);
    } else {
      OtherFamiliesKeep(db, op, changes);
    }
  }

  lemma TargetsDiffer(op: Operation, changes: seq<Change>, rows: map<Target, Row>)
    requires PlannedWell(rows, op, changes) && Distinct(Touches(op))
    ensures forall i, j :: 0 <= i < j < |changes| ==> changes[i].target != changes[j].target
    ensures forall i :: 0 <= i < |changes| ==> Current(rows, changes[i])
  {
    hide Current;
  }

  lemma LastRevisionNumber(rows: map<Target, Row>, history: seq<Revision>, t: Target)
    requires HistoryOk(rows, history) && Chain(history, t) != []
    ensures Chain(history, t)[|Chain(history, t)| - 1].revision == |Chain(history, t)|
  {
    var chain := Chain(history, t);
    assert ChainOk(chain, Lookup(rows, t));
    assert LinkOk(chain, |chain| - 1);
  }

  /** Why a target may be touched only once: a second change planned on the same row always breaks its history. */
  lemma SecondChangeBreaksHistory(db: Db, first: Change, second: Change, operation: Option<Id>, other: Option<Id>)
    requires HistoryOk(db.rows, db.history) && first.Updated? && second.Updated? && first.target == second.target
    requires Current(db.rows, first) && Current(db.rows, second) && second.revision == first.revision
    requires Number(Written(WriteChange(db, first, operation).rows, second)) == second.revision
    ensures var after := WriteChange(WriteChange(db, first, operation), second, other);
      !HistoryOk(after.rows, after.history)
  {
    hide HistoryOk, Chain, Typed;
    var t := first.target;
    var middle := WriteChange(db, first, operation);
    var after := WriteChange(middle, second, other);
    WriteKeepsHistory(db, first, operation);
    ChainAppend(db.history, middle.history[|db.history|], t);
    ChainAppend(middle.history, after.history[|middle.history|], t);
    LastRevisionNumber(middle.rows, middle.history, t);
    if HistoryOk(after.rows, after.history) {
      LastRevisionNumber(after.rows, after.history, t);
    }
  }
}
