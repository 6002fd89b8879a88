/** Planning development operations against the stored personal rows. */
module Maturation {
  import opened Common
  import D = Development
  import opened PersonalRows

  /** The evidence of each stored episode, which its references expand to. */
  function Episodes(rows: map<Target, Row>): map<Id, seq<Ref>> {
    map t | t in rows && t.kind == Episode && rows[t].EpisodeRow? :: t.id := rows[t].evidence
  }

  function WorldOf(db: Db, refs: seq<Ref>, attention: bool): D.World {
    D.World(db.events, Episodes(db.rows), AllKnown(db, refs), attention)
  }

  function StoredGradual(rows: map<Target, Row>, t: Target): Option<D.Gradual> {
    if t in rows && rows[t].GradualRow? then Some(rows[t].gradual) else None
  }

  function PlanGradual(db: Db, op: Operation, now: Time): Planned
    requires op.GradualOp?
  {
    var t := Subject(op);
    var row := StoredGradual(db.rows, t);
    var (errors, planned) := D.PlanGradual(op.family, row, op.step, WorldOf(db, op.step.refs, op.attention), now);
    match planned
    case None => Planned(errors, [])
    case Some(after) =>
      if row.None? then Planned(errors, [Created(t, GradualRow(after, now))])
      else
        Planned(errors, [Updated(t, db.rows[t], GradualSet(after.status, after.rationale, after.evidence, after.retirementNotBefore),
                                 now, after.revision)])
  }

  function StoredSelf(rows: map<Target, Row>, t: Target): Option<D.SelfState> {
    if t in rows && rows[t].SelfRow? then Some(rows[t].state) else None
  }

  function PlanSelf(db: Db, op: Operation, now: Time): Planned
    requires op.SelfOp?
  {
    var t := Subject(op);
    var row := StoredSelf(db.rows, t);
    var (errors, after) := D.PlanSelf(op.layer, row, op.proposal, WorldOf(db, op.proposal.refs, op.attention), now);
    if row.None? then
      Planned(errors + Note(SelfKnown(db.rows, op.id), "personal_id_collision"), [Created(t, SelfRow(op.id, after, now))])
    else Planned(errors, [Updated(t, db.rows[t], SelfSet(after), now, after.revision)])
  }
}
