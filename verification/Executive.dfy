/** Planning operations on entities, projects, relationships and their threads. */
module Executive {
  import opened Common
  import opened PersonalRows

  /** What every revision of these families must do: not go back in time, and change something. */
  function RevisedErrors(row: Row, values: Values, now: Time): seq<string>
    requires row.EntityRow? || row.ProjectRow? || row.RelationshipRow? || row.ThreadRow?
  {
    Note(now < row.updatedAt, "retrograde_personal_revision") + Note(NoOp(values, row), "no_op_personal_revision")
  }

  function PlanEntity(db: Db, op: Operation, now: Time): Planned
    requires op.EntityOp? && Coherent(op)
  {
    var t := Subject(op);
    var common := Note(!AllKnown(db, op.evidence), "unknown_ref")
                  + Note(BlankText(op.kind) || BlankText(op.name) || Blank(op.rationale), "empty_personal_content");
    if op.create then
      Planned(common + Note(t in db.rows, "personal_id_collision"), [Created(t, EntityRow(op.kind.value, op.name.value, now, now, 1))])
    else if t !in db.rows || !db.rows[t].EntityRow? then Planned(common + ["unknown_personal_target"], [])
    else
      var row, values := db.rows[t], EntitySet(op.name);
      Planned(common + Note(op.kind.Some?, "incompatible_operation_fields") + RevisedErrors(row, values, now),
              [Updated(t, row, values, now, row.revision + 1)])
  }

  function ProjectValues(op: Operation): Values
    requires op.ProjectOp?
  {
    if op.change == SetStatus then ProjectSet(None, None, op.goal, op.rationale, op.evidence)
    else ProjectSet(op.title, op.desired, None, op.rationale, op.evidence)
  }

  function PlanProject(db: Db, op: Operation, now: Time): Planned
    requires op.ProjectOp? && Coherent(op)
  {
    var t := Subject(op);
    var common := Note(!AllKnown(db, op.evidence), "unknown_ref")
                  + Note(BlankText(op.title) || BlankText(op.desired) || Blank(op.rationale), "empty_personal_content");
    if op.change == Create then
      var status := Or(op.goal, GoalActive);
      Planned(
        common + Note(t in db.rows, "personal_id_collision")
        + Note(status !in {GoalActive, GoalPaused, GoalBlocked}, "invalid_project_transition"),
        [Created(t, ProjectRow(op.title.value, op.desired.value, status, op.rationale, op.evidence, now, now, 1))])
    else if t !in db.rows || !db.rows[t].ProjectRow? then Planned(common + ["unknown_personal_target"], [])
    else
      var row, values := db.rows[t], ProjectValues(op);
      Planned(
        common
        + (if op.change == SetStatus
           then Note(op.title.Some? || op.desired.Some?, "incompatible_operation_fields")
                + Note(op.goal.value !in GoalNext(row.projectStatus), "invalid_project_transition")
           else Note(op.goal.Some?, "incompatible_operation_fields")
                + Note(row.projectStatus in {GoalCompleted, GoalAbandoned}, "invalid_project_transition"))
        + RevisedErrors(row, values, now),
        [Updated(t, row, values, now, row.revision + 1)])
  }

  predicate Related(rows: map<Target, Row>, entity: Id) {
    exists t :: t in rows && rows[t].RelationshipRow? && rows[t].entity == entity
  }

  function PlanRelationship(db: Db, op: Operation, now: Time): Planned
    requires op.RelationshipOp? && Coherent(op)
  {
    var t := Subject(op);
    var common := Note(!AllKnown(db, op.evidence), "unknown_ref")
                  + Note(op.evidence == [], "missing_relationship_evidence")
                  + Note(BlankText(op.narrative) || Blank(op.rationale), "empty_personal_content");
    if op.create then
      Planned(
        common + Note(t in db.rows, "personal_id_collision")
        + Note(!AllKnown(db, Linked("entity", op.entity)), "unknown_ref")
        + Note(Related(db.rows, op.entity.value), "relationship_already_exists"),
        [Created(t, RelationshipRow(op.entity.value, op.narrative.value, op.rationale, op.evidence, now, now, 1))])
    else if t !in db.rows || !db.rows[t].RelationshipRow? then Planned(common + ["unknown_personal_target"], [])
    else
      var row, values := db.rows[t], RelationshipSet(op.narrative, op.rationale, op.evidence);
      Planned(
        common + Note(op.entity.Some?, "incompatible_operation_fields")
        + Note(!AllKnown(db, Linked("entity", Some(row.entity))), "unknown_ref")
        + RevisedErrors(row, values, now),
        [Updated(t, row, values, now, row.revision + 1)])
  }

  /** The parent relationship of a thread exists, and so does the entity it is about. */
  predicate ParentKnown(db: Db, relationship: Id) {
    var t := Target(Relationship, relationship);
    t in db.rows && (db.rows[t].RelationshipRow? ==> AllKnown(db, Linked("entity", Some(db.rows[t].entity))))
  }

  function ThreadValues(op: Operation): Values
    requires op.ThreadOp?
  {
    if op.change == SetStatus then ThreadSet(None, None, None, op.thread, op.rationale, op.evidence)
    else ThreadSet(op.title, op.about, op.commits, None, op.rationale, op.evidence)
  }

  function PlanThread(db: Db, op: Operation, now: Time): Planned
    requires op.ThreadOp? && Coherent(op)
  {
    var t := Subject(op);
    var common := Note(!AllKnown(db, op.evidence + Linked("commitment", op.commits)), "unknown_ref")
                  + Note(op.evidence == [], "missing_relationship_evidence")
                  + Note(BlankText(op.title) || BlankText(op.about) || Blank(op.rationale), "empty_personal_content");
    if op.change == Create then
      Planned(
        common + Note(t in db.rows, "personal_id_collision") + Note(!ParentKnown(db, op.relationship.value), "unknown_ref")
        + Note(op.thread.Some? && op.thread.value != Open, "invalid_relationship_thread_transition"),
        [Created(t, ThreadRow(op.relationship.value, op.title.value, op.about.value, op.commits, Open,
                              op.rationale, op.evidence, now, now, 1))])
    else if t !in db.rows || !db.rows[t].ThreadRow? then Planned(common + ["unknown_personal_target"], [])
    else
      var row, values := db.rows[t], ThreadValues(op);
      Planned(
        common + Note(op.relationship.Some?, "incompatible_operation_fields")
        + Note(!ParentKnown(db, row.relationship) || !AllKnown(db, Linked("commitment", OrKeep(op.commits, row.commitment))), "unknown_ref")
        + Note(row.threadStatus != Open, "invalid_relationship_thread_transition")
        + (if op.change == SetStatus
           then Note(op.title.Some? || op.about.Some? || op.commits.Some?, "incompatible_operation_fields")
                + Note(op.thread.value !in {Resolved, Dropped}, "invalid_relationship_thread_transition")
           else Note(op.thread.Some?, "incompatible_operation_fields"))
        + RevisedErrors(row, values, now),
        [Updated(t, row, values, now, row.revision + 1)])
  }
}
