/** Personal objects and their revision history: a whole batch is planned first, then written. */
module Personal {
  import opened Common
  import opened PersonalRows
  import opened Executive
  import opened Maturation

  // ---- Planning one operation ----

  function GoalValues(op: Operation): Values
    requires op.GoalOp?
  {
    if op.change == SetStatus then GoalSet(None, None, None, op.goal, op.rationale, op.evidence)
    else GoalSet(op.title, op.desired, op.project, None, op.rationale, op.evidence)
  }

  function PlanGoal(db: Db, op: Operation, now: Time): Planned
    requires op.GoalOp? && Coherent(op)
  {
    var t := Subject(op);
    var common := Note(!AllKnown(db, op.evidence + Linked("project", op.project)), "unknown_ref")
                  + Note(BlankText(op.title) || BlankText(op.desired), "empty_personal_content");
    if op.change == Create then
      var status := Or(op.goal, GoalActive);
      Planned(
        common + Note(t in db.rows, "personal_id_collision")
        + Note(status !in {GoalActive, GoalPaused, GoalBlocked}, "invalid_goal_transition"),
        [Created(t, GoalRow(op.title.value, op.desired.value, op.project, status, Or(op.origin, "self_generated"),
                                     op.rationale, op.evidence, now, now, 1))])
    else if t !in db.rows || !db.rows[t].GoalRow? then Planned(common + ["unknown_personal_target"], [])
    else
      var row := db.rows[t];
      var values := GoalValues(op);
      Planned(
        common + Note(op.origin.Some?, "incompatible_operation_fields")
        + (if op.change == SetStatus
           then Note(op.title.Some? || op.desired.Some? || op.project.Some?, "incompatible_operation_fields")
                + Note(op.goal.value !in GoalNext(row.goalStatus), "invalid_goal_transition")
           else Note(op.goal.Some?, "incompatible_operation_fields")
                + Note(row.goalStatus in {GoalCompleted, GoalAbandoned}, "invalid_goal_transition"))
        + Note(NoOp(values, row), "no_op_personal_revision"),
        [Updated(t, row, values, now, row.revision + 1)])
  }

  function CommitmentValues(op: Operation): Values
    requires op.CommitmentOp?
  {
    if op.change == SetStatus then CommitmentSet(None, None, None, None, op.commitment, op.rationale, op.evidence)
    else CommitmentSet(op.title, op.terms, op.counterparty, op.dueAt, None, op.rationale, op.evidence)
  }

  function PlanCommitment(db: Db, op: Operation, now: Time): Planned
    requires op.CommitmentOp? && Coherent(op)
  {
    var t := Subject(op);
    var common := Note(!AllKnown(db, op.evidence + Linked("entity", op.counterparty)), "unknown_ref")
                  + Note(BlankText(op.title) || BlankText(op.terms), "empty_personal_content");
    if op.change == Create then
      var status := Or(op.commitment, Proposed);
      Planned(
        common + Note(t in db.rows, "personal_id_collision")
        + Note(status !in {Proposed, Active}, "invalid_commitment_transition"),
        [Created(t, CommitmentRow(op.title.value, op.terms.value, op.counterparty, op.dueAt, status,
                                           op.rationale, op.evidence, now, now, 1))])
    else if t !in db.rows || !db.rows[t].CommitmentRow? then Planned(common + ["unknown_personal_target"], [])
    else
      var row := db.rows[t];
      var values := CommitmentValues(op);
      Planned(
        common
        + (if op.change == SetStatus
           then Note(op.title.Some? || op.terms.Some? || op.counterparty.Some? || op.dueAt.Some?, "incompatible_operation_fields")
                + Note(op.commitment.value !in CommitmentNext(row.commitmentStatus), "invalid_commitment_transition")
           else Note(op.commitment.Some?, "incompatible_operation_fields")
                + Note(row.commitmentStatus in {Fulfilled, Released, Broken}, "invalid_commitment_transition"))
        + Note(NoOp(values, row), "no_op_personal_revision"),
        [Updated(t, row, values, now, row.revision + 1)])
  }

  function EvidenceErrors(status: BeliefStatus, supporting: seq<Ref>, contradicting: seq<Ref>): (errors: seq<string>)
    ensures |errors| == 0 <==> (status == Accepted ==> supporting != []) && (status == Disputed ==> contradicting != [])
  {
    Note((status == Accepted && supporting == []) || (status == Disputed && contradicting == []), "belief_evidence_required")
  }

  function PlanBelief(db: Db, op: Operation, now: Time): Planned
    requires op.BeliefOp? && Coherent(op)
  {
    var t := Subject(op);
    var common := Note(!AllKnown(db, op.supporting + op.contradicting + Linked("entity", op.subject)), "unknown_ref")
                  + Note(BlankText(op.proposition), "empty_personal_content");
    if op.action == SetBelief then
      if t !in db.rows || !db.rows[t].BeliefRow? then Planned(common + ["unknown_personal_target"], [])
      else
        var row := db.rows[t];
        var supporting, contradicting := UnionRefs(row.supporting, op.supporting), UnionRefs(row.contradicting, op.contradicting);
        Planned(
          common + Note(op.proposition.Some? || op.subject.Some? || op.topic.Some? || op.supersedes.Some?, "incompatible_operation_fields")
          + Note(op.belief.value !in BeliefNext(row.beliefStatus), "invalid_belief_transition")
          + EvidenceErrors(op.belief.value, supporting, contradicting),
          [Updated(t, row, BeliefSet(op.belief.value, Some((supporting, contradicting)), Some(op.rationale)), now, row.revision + 1)])
    else
      var status := Or(op.belief, Tentative);
      var created := Created(t, BeliefRow(op.proposition.value, op.subject, op.topic, status, op.supporting, op.contradicting,
                                                   op.supersedes, op.rationale, now, now, 1));
      var errors := common + Note(t in db.rows, "personal_id_collision")
                    + Note(status in {Superseded, Withdrawn}, "invalid_belief_transition")
                    + EvidenceErrors(status, op.supporting, op.contradicting);
      if op.action == CreateBelief then
        Planned(errors + Note(op.supersedes.Some?, "incompatible_operation_fields"), [created])
      else
        var p := Target(Belief, op.supersedes.value);
        var required := Note(op.supporting == [] && op.contradicting == [], "belief_evidence_required");
        if p !in db.rows || !db.rows[p].BeliefRow? then Planned(errors + required + ["unknown_personal_target"], [created])
        else if db.rows[p].beliefStatus in {Superseded, Withdrawn} then Planned(errors + required + ["invalid_belief_transition"], [created])
        else
          Planned(errors + required,
                  [created, Updated(p, db.rows[p], BeliefSet(Superseded, None, None), now, db.rows[p].revision + 1)])
  }

  function PlanEpisode(db: Db, op: Operation, now: Time): Planned
    requires op.EpisodeOp?
  {
    var t := Subject(op);
    Planned(
      Note(t in db.rows, "personal_id_collision")
      + Note(!AllKnown(db, op.evidence + op.links), "unknown_ref")
      + Note(op.evidence == [], "episode_evidence_required")
      + Note((op.startsAt.Some? && op.startsAt.value > now) || (op.endsAt.Some? && op.endsAt.value > now), "episode_future_span"),
      [Created(t, EpisodeRow(op.summary, op.startsAt, op.endsAt, op.evidence, now, 1))])
  }

  function PlanOne(db: Db, op: Operation, now: Time): Planned
    requires Coherent(op)
  {
    match op
    case GoalOp(_, _, _, _, _, _, _, _, _, _) => PlanGoal(db, op, now)
    case CommitmentOp(_, _, _, _, _, _, _, _, _, _) => PlanCommitment(db, op, now)
    case BeliefOp(_, _, _, _, _, _, _, _, _, _, _) => PlanBelief(db, op, now)
    case EpisodeOp(_, _, _, _, _, _) => PlanEpisode(db, op, now)
    case EntityOp(_, _, _, _, _, _, _) => PlanEntity(db, op, now)
    case ProjectOp(_, _, _, _, _, _, _, _) => PlanProject(db, op, now)
    case RelationshipOp(_, _, _, _, _, _, _) => PlanRelationship(db, op, now)
    case ThreadOp(_, _, _, _, _, _, _, _, _, _) => PlanThread(db, op, now)
    case GradualOp(_, _, _, _, _) => PlanGradual(db, op, now)
    case SelfOp(_, _, _, _) => PlanSelf(db, op, now)
  }

  // ---- Planning a batch ----

  /** `entities` are those that relationships created by the batch are about. */
  datatype Planning = Planning(errors: seq<string>, plans: seq<Plan>, touched: set<Target>, entities: set<Id>)

  function NewEntity(op: Operation): Option<Id> {
    if op.RelationshipOp? && op.create then op.entity else None
  }

  /** Declares targets one after another; the second declaration of a target is an error. */
  function Touch(p: Planning, targets: seq<Target>): Planning
    decreases |targets|
  {
    if targets == [] then p
    else
      Touch(p.(errors := p.errors + Note(targets[0] in p.touched, "duplicate_personal_target"),
               touched := p.touched + {targets[0]}), targets[1..])
  }

  function PlanNext(db: Db, p: Planning, op: Operation, now: Time): Planning
    requires Coherent(op)
  {
    var touched, one, entity := Touch(p, Touches(op)), PlanOne(db, op, now), NewEntity(op);
    touched.(errors := touched.errors + one.errors + Note(entity.Some? && entity.value in p.entities, "relationship_already_exists"),
             plans := if one.changes == [] then touched.plans else touched.plans + [Plan(op.id, one.changes)],
             entities := if entity.Some? then p.entities + {entity.value} else p.entities)
  }

  predicate AllCoherent(ops: seq<Operation>) {
    forall i :: 0 <= i < |ops| ==> Coherent(ops[i])
  }

  /** What the turn of a decision says: whose it is, how far it is, and what was recorded for it. */
  datatype Turn = Turn(owned: bool, decided: bool, active: bool, recorded: seq<Operation>)

  function BatchErrors(db: Db, ops: seq<Operation>, turn: Turn): seq<string> {
    Note(exists i, j :: 0 <= i < j < |ops| && ops[i].id == ops[j].id, "duplicate_operation_id")
    + Note(exists i :: 0 <= i < |ops| && ops[i].id in db.applied, "operation_id_already_applied")
    + Note(!turn.owned, "invalid_personal_turn")
  }

  function PlanAll(db: Db, ops: seq<Operation>, now: Time): Planning
    requires AllCoherent(ops)
  {
    if ops == [] then Planning([], [], {}, {})
    else PlanNext(db, PlanAll(db, ops[..|ops| - 1], now), ops[|ops| - 1], now)
  }

  // ---- Writing ----

  function Written(rows: map<Target, Row>, c: Change): Row {
    match c
    case Created(_, row) => row
    case Updated(t, snapshot, values, at, revision) => Assign(values, if t in rows then rows[t] else snapshot, at, revision)
  }

  function WriteChange(db: Db, c: Change, operation: Option<Id>): Db {
    var after := Written(db.rows, c);
    db.(rows := db.rows[c.target := after],
        history := db.history + [Revision(c.target, Number(after), operation, c.Before(), after)])
  }

  function WriteChanges(db: Db, changes: seq<Change>, operation: Id): Db {
    if changes == [] then db
    else WriteChange(WriteChanges(db, changes[..|changes| - 1], operation), changes[|changes| - 1],
                     if |changes| == 1 then Some(operation) else None)
  }

  function WriteAll(db: Db, plans: seq<Plan>): Db {
    if plans == [] then db
    else
      var before, plan := WriteAll(db, plans[..|plans| - 1]), plans[|plans| - 1];
      WriteChanges(before.(applied := before.applied + {plan.operation}), plan.changes, plan.operation)
  }

  /** Everything takes effect or nothing does, and only what was recorded for a decided turn does. */
  function Apply(db: Db, ops: seq<Operation>, now: Time, turn: Turn): Result<Db, seq<string>>
    requires AllCoherent(ops)
  {
    if |ops| > 64 then Err(["too_many_operations"])
    else
      var planning := PlanAll(db, ops, now);
      var errors := BatchErrors(db, ops, turn) + planning.errors;
      if |errors| != 0 then Err(errors)
      else if !turn.decided || !turn.active || turn.recorded != ops then Err(["unrecorded_personal_decision"])
      else Ok(WriteAll(db, planning.plans))
  }
}
