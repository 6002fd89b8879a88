/** The personal rows, their revisions, and what a proposal may ask of them. */
module PersonalRows {
  import opened Common
  import D = Development

  datatype Kind =
    | Goal | Commitment | Belief | Episode
    | Entity | Project | Relationship | Thread
    | Interest | Preference | SelfModel

  /** Self-states are identified by their layer, of which an individual has one row each. */
  datatype Target = Target(kind: Kind, id: Id)

  datatype GoalStatus = GoalActive | GoalPaused | GoalBlocked | GoalCompleted | GoalAbandoned

  datatype CommitmentStatus = Proposed | Active | Fulfilled | Released | Broken | DisputedCommitment

  datatype BeliefStatus = Tentative | Accepted | Disputed | Superseded | Withdrawn

  datatype ThreadStatus = Open | Resolved | Dropped

  datatype Row =
    | GoalRow(title: string, desired: string, project: Option<Id>, goalStatus: GoalStatus, origin: string,
              rationale: string, evidence: seq<Ref>, createdAt: Time, updatedAt: Time, revision: nat)
    | CommitmentRow(title: string, terms: string, counterparty: Option<Id>, dueAt: Option<Time>, commitmentStatus: CommitmentStatus,
                    rationale: string, evidence: seq<Ref>, createdAt: Time, updatedAt: Time, revision: nat)
    | BeliefRow(proposition: string, subject: Option<Id>, topic: Option<string>, beliefStatus: BeliefStatus,
                supporting: seq<Ref>, contradicting: seq<Ref>, supersedes: Option<Id>,
                rationale: string, createdAt: Time, updatedAt: Time, revision: nat)
    | EpisodeRow(summary: string, startsAt: Option<Time>, endsAt: Option<Time>, evidence: seq<Ref>, createdAt: Time, revision: nat)
    | EntityRow(entityKind: string, name: string, createdAt: Time, updatedAt: Time, revision: nat)
    | ProjectRow(title: string, desired: string, projectStatus: GoalStatus,
                 rationale: string, evidence: seq<Ref>, createdAt: Time, updatedAt: Time, revision: nat)
    | RelationshipRow(entity: Id, narrative: string,
                      rationale: string, evidence: seq<Ref>, createdAt: Time, updatedAt: Time, revision: nat)
    | ThreadRow(relationship: Id, title: string, summary: string, commitment: Option<Id>, threadStatus: ThreadStatus,
                rationale: string, evidence: seq<Ref>, createdAt: Time, updatedAt: Time, revision: nat)
    | GradualRow(gradual: D.Gradual, createdAt: Time)
    | SelfRow(selfId: Id, state: D.SelfState, createdAt: Time)

  function Number(row: Row): nat {
    match row
    case GoalRow(_, _, _, _, _, _, _, _, _, revision) => revision
    case CommitmentRow(_, _, _, _, _, _, _, _, _, revision) => revision
    case BeliefRow(_, _, _, _, _, _, _, _, _, _, revision) => revision
    case EpisodeRow(_, _, _, _, _, revision) => revision
    case EntityRow(_, _, _, _, revision) => revision
    case ProjectRow(_, _, _, _, _, _, _, revision) => revision
    case RelationshipRow(_, _, _, _, _, _, revision) => revision
    case ThreadRow(_, _, _, _, _, _, _, _, _, revision) => revision
    case GradualRow(gradual, _) => gradual.revision
    case SelfRow(_, state, _) => state.revision
  }

  /** `operation` is set on the first revision an operation writes. */
  datatype Revision = Revision(target: Target, revision: nat, operation: Option<Id>, before: Option<Row>, after: Row)

  /**
   * `events` holds the original events that qualify as anchors, `others` the references to objects
   * that these operations only look up.
   */
  datatype Db = Db(rows: map<Target, Row>, history: seq<Revision>, applied: set<Id>, events: map<Id, Time>, others: set<Ref>)

  function Lookup(rows: map<Target, Row>, t: Target): Option<Row> {
    if t in rows then Some(rows[t]) else None
  }

  // ---- Status tables ----

  function GoalNext(s: GoalStatus): set<GoalStatus> {
    match s
    case GoalActive => {GoalPaused, GoalBlocked, GoalCompleted, GoalAbandoned}
    case GoalPaused => {GoalActive, GoalBlocked, GoalCompleted, GoalAbandoned}
    case GoalBlocked => {GoalActive, GoalPaused, GoalCompleted, GoalAbandoned}
    case GoalCompleted => {}
    case GoalAbandoned => {}
  }

  function CommitmentNext(s: CommitmentStatus): set<CommitmentStatus> {
    match s
    case Proposed => {Active, Released}
    case Active => {Fulfilled, Released, Broken, DisputedCommitment}
    case DisputedCommitment => {Active, Released, Broken, Fulfilled}
    case Fulfilled => {}
    case Released => {}
    case Broken => {}
  }

  function BeliefNext(s: BeliefStatus): set<BeliefStatus> {
    match s
    case Tentative => {Accepted, Disputed, Withdrawn}
    case Accepted => {Tentative, Disputed, Withdrawn}
    case Disputed => {Tentative, Accepted, Withdrawn}
    case Superseded => {}
    case Withdrawn => {}
  }

  // ---- Operations ----

  datatype Change3 = Create | Revise | SetStatus

  datatype BeliefAction = CreateBelief | SetBelief | Supersede

  /** `attention` says whether the wakes of the cycle qualify the target for development. */
  datatype Operation =
    | GoalOp(id: Id, change: Change3, existing: Option<Id>, title: Option<string>, desired: Option<string>,
             project: Option<Id>, goal: Option<GoalStatus>, origin: Option<string>, rationale: string, evidence: seq<Ref>)
    | CommitmentOp(id: Id, change: Change3, existing: Option<Id>, title: Option<string>, terms: Option<string>,
                   counterparty: Option<Id>, dueAt: Option<Time>, commitment: Option<CommitmentStatus>, rationale: string, evidence: seq<Ref>)
    | BeliefOp(id: Id, action: BeliefAction, existing: Option<Id>, proposition: Option<string>, subject: Option<Id>, topic: Option<string>,
               belief: Option<BeliefStatus>, supporting: seq<Ref>, contradicting: seq<Ref>, supersedes: Option<Id>, rationale: string)
    | EpisodeOp(id: Id, summary: string, startsAt: Option<Time>, endsAt: Option<Time>, evidence: seq<Ref>, links: seq<Ref>)
    | EntityOp(id: Id, create: bool, existing: Option<Id>, kind: Option<string>, name: Option<string>, rationale: string, evidence: seq<Ref>)
    | ProjectOp(id: Id, change: Change3, existing: Option<Id>, title: Option<string>, desired: Option<string>,
                goal: Option<GoalStatus>, rationale: string, evidence: seq<Ref>)
    | RelationshipOp(id: Id, create: bool, existing: Option<Id>, entity: Option<Id>, narrative: Option<string>,
                     rationale: string, evidence: seq<Ref>)
    | ThreadOp(id: Id, change: Change3, existing: Option<Id>, relationship: Option<Id>, title: Option<string>, about: Option<string>,
               commits: Option<Id>, thread: Option<ThreadStatus>, rationale: string, evidence: seq<Ref>)
    | GradualOp(id: Id, family: D.Family, existing: Option<Id>, step: D.GradualOp, attention: bool)
    | SelfOp(id: Id, layer: D.Layer, proposal: D.Proposal, attention: bool)

  /** What the schema of a proposal already guarantees. */
  predicate Coherent(op: Operation) {
    match op
    case GoalOp(_, change, existing, title, desired, _, goal, _, _, _) =>
      (if change == Create then title.Some? && desired.Some? else existing.Some?) && (change == SetStatus ==> goal.Some?)
    case CommitmentOp(_, change, existing, title, terms, _, _, commitment, _, _) =>
      (if change == Create then title.Some? && terms.Some? else existing.Some?) && (change == SetStatus ==> commitment.Some?)
    case BeliefOp(_, action, existing, proposition, _, _, belief, _, _, supersedes, _) =>
      && (if action == SetBelief then existing.Some? && belief.Some? else proposition.Some?)
      && (action == Supersede ==> supersedes.Some?)
    case EpisodeOp(_, _, _, _, _, _) => true
    case EntityOp(_, create, existing, kind, name, _, _) => if create then kind.Some? && name.Some? else existing.Some?
    case ProjectOp(_, change, existing, title, desired, goal, _, _) =>
      (if change == Create then title.Some? && desired.Some? else existing.Some?) && (change == SetStatus ==> goal.Some?)
    case RelationshipOp(_, create, existing, entity, narrative, _, _) =>
      if create then entity.Some? && narrative.Some? else existing.Some?
    case ThreadOp(_, change, existing, relationship, title, about, _, thread, _, _) =>
      && (if change == Create then relationship.Some? && title.Some? && about.Some? else existing.Some?)
      && (change == SetStatus ==> thread.Some?)
    case GradualOp(_, _, existing, step, _) => step.Create? || existing.Some?
    case SelfOp(_, _, _, _) => true
  }

  function LayerId(layer: D.Layer): Id {
    match layer
    case CurrentIdentity => 0
    case SelfBelief => 1
    case CurrentValue => 2
    case Narrative => 3
  }

  function GradualKind(f: D.Family): Kind {
    if f == D.Interest then Interest else Preference
  }

  function Subject(op: Operation): Target {
    match op
    case GoalOp(id, _, existing, _, _, _, _, _, _, _) => Target(Goal, Or(existing, id))
    case CommitmentOp(id, _, existing, _, _, _, _, _, _, _) => Target(Commitment, Or(existing, id))
    case BeliefOp(id, _, existing, _, _, _, _, _, _, _, _) => Target(Belief, Or(existing, id))
    case EpisodeOp(id, _, _, _, _, _) => Target(Episode, id)
    case EntityOp(id, _, existing, _, _, _, _) => Target(Entity, Or(existing, id))
    case ProjectOp(id, _, existing, _, _, _, _, _) => Target(Project, Or(existing, id))
    case RelationshipOp(id, _, existing, _, _, _, _) => Target(Relationship, Or(existing, id))
    case ThreadOp(id, _, existing, _, _, _, _, _, _, _) => Target(Thread, Or(existing, id))
    case GradualOp(id, family, existing, _, _) => Target(GradualKind(family), Or(existing, id))
    case SelfOp(_, layer, _, _) => Target(SelfModel, LayerId(layer))
  }

  /** The targets an operation declares, in order. */
  function Touches(op: Operation): seq<Target> {
    [Subject(op)] + if op.BeliefOp? && op.action == Supersede && op.supersedes.Some? then [Target(Belief, op.supersedes.value)] else []
  }

  // ---- Planned changes ----

  /** A partial assignment of columns; `None` leaves a column alone. */
  datatype Values =
    | GoalSet(title: Option<string>, desired: Option<string>, project: Option<Id>, goal: Option<GoalStatus>,
              why: string, evidence: seq<Ref>)
    | CommitmentSet(title: Option<string>, terms: Option<string>, counterparty: Option<Id>, dueAt: Option<Time>,
                    commitment: Option<CommitmentStatus>, why: string, evidence: seq<Ref>)
    | BeliefSet(belief: BeliefStatus, evidenceSets: Option<(seq<Ref>, seq<Ref>)>, reason: Option<string>)
    | EntitySet(name: Option<string>)
    | ProjectSet(title: Option<string>, desired: Option<string>, goal: Option<GoalStatus>, why: string, evidence: seq<Ref>)
    | RelationshipSet(narrative: Option<string>, why: string, evidence: seq<Ref>)
    | ThreadSet(title: Option<string>, about: Option<string>, commits: Option<Id>, thread: Option<ThreadStatus>,
                why: string, evidence: seq<Ref>)
    | GradualSet(status: D.Status, why: string, evidence: seq<Ref>, retirement: Option<Time>)
    | SelfSet(state: D.SelfState)

  /** `snapshot` is taken while planning; the assignment itself runs on the row as it is when written. */
  datatype Change =
    | Created(target: Target, row: Row)
    | Updated(target: Target, snapshot: Row, values: Values, at: Time, revision: nat)
  {
    function Before(): Option<Row> {
      if Created? then None else Some(snapshot)
    }
  }

  datatype Plan = Plan(operation: Id, changes: seq<Change>)

  function Or<T>(value: Option<T>, default: T): T {
    if value.Some? then value.value else default
  }

  function OrKeep<T>(value: Option<T>, default: Option<T>): Option<T> {
    if value.Some? then value else default
  }

  function Assign(v: Values, row: Row, at: Time, revision: nat): Row {
    match (v, row)
    case (GoalSet(title, desired, project, goal, why, evidence), GoalRow(_, _, _, _, _, _, _, _, _, _)) =>
      row.(title := Or(title, row.title), desired := Or(desired, row.desired), project := OrKeep(project, row.project),
           goalStatus := Or(goal, row.goalStatus), rationale := why, evidence := evidence, updatedAt := at, revision := revision)
    case (CommitmentSet(title, terms, counterparty, dueAt, commitment, why, evidence), CommitmentRow(_, _, _, _, _, _, _, _, _, _)) =>
      row.(title := Or(title, row.title), terms := Or(terms, row.terms), counterparty := OrKeep(counterparty, row.counterparty),
           dueAt := OrKeep(dueAt, row.dueAt), commitmentStatus := Or(commitment, row.commitmentStatus),
           rationale := why, evidence := evidence, updatedAt := at, revision := revision)
    case (BeliefSet(belief, sets, reason), BeliefRow(_, _, _, _, _, _, _, _, _, _, _)) =>
      row.(beliefStatus := belief, supporting := if sets.Some? then sets.value.0 else row.supporting,
           contradicting := if sets.Some? then sets.value.1 else row.contradicting,
           rationale := Or(reason, row.rationale), updatedAt := at, revision := revision)
    case (EntitySet(name), EntityRow(_, _, _, _, _)) => row.(name := Or(name, row.name), updatedAt := at, revision := revision)
    case (ProjectSet(title, desired, goal, why, evidence), ProjectRow(_, _, _, _, _, _, _, _)) =>
      row.(title := Or(title, row.title), desired := Or(desired, row.desired), projectStatus := Or(goal, row.projectStatus),
           rationale := why, evidence := evidence, updatedAt := at, revision := revision)
    case (RelationshipSet(narrative, why, evidence), RelationshipRow(_, _, _, _, _, _, _)) =>
      row.(narrative := Or(narrative, row.narrative), rationale := why, evidence := evidence, updatedAt := at, revision := revision)
    case (ThreadSet(title, about, commits, thread, why, evidence), ThreadRow(_, _, _, _, _, _, _, _, _, _)) =>
      row.(title := Or(title, row.title), summary := Or(about, row.summary), commitment := OrKeep(commits, row.commitment),
           threadStatus := Or(thread, row.threadStatus), rationale := why, evidence := evidence, updatedAt := at, revision := revision)
    case (GradualSet(status, why, evidence, retirement), GradualRow(_, _)) =>
      row.(gradual := row.gradual.(status := status, rationale := why, evidence := evidence, retirementNotBefore := retirement,
                                   updatedAt := at, revision := revision))
    case (SelfSet(state), SelfRow(_, _, _)) => row.(state := state.(updatedAt := at, revision := revision))
    case _ => row
  }

  // ---- What planning looks up ----

  function KindOf(name: string): Option<Kind> {
    if name == "goal" then Some(Goal)
    else if name == "commitment" then Some(Commitment)
    else if name == "belief" then Some(Belief)
    else if name == "episode" then Some(Episode)
    else if name == "entity" then Some(Entity)
    else if name == "project" then Some(Project)
    else if name == "relationship" then Some(Relationship)
    else if name == "relationship_thread" then Some(Thread)
    else if name == "interest" then Some(Interest)
    else if name == "preference" then Some(Preference)
    else None
  }

  predicate SelfKnown(rows: map<Target, Row>, id: Id) {
    exists t :: t in rows && rows[t].SelfRow? && rows[t].selfId == id
  }

  predicate Known(db: Db, r: Ref) {
    if KindOf(r.kind).Some? then Target(KindOf(r.kind).value, r.id) in db.rows
    else if r.kind == "self_state" then SelfKnown(db.rows, r.id)
    else r in db.others
  }

  predicate AllKnown(db: Db, refs: seq<Ref>) {
    forall r :: r in refs ==> Known(db, r)
  }

  function Linked(kind: string, id: Option<Id>): seq<Ref> {
    if id.Some? then [Ref(kind, id.value)] else []
  }

  predicate BlankText(text: Option<string>) {
    text.Some? && Blank(text.value)
  }

  /** The findings against one operation, and its changes. */
  datatype Planned = Planned(errors: seq<string>, changes: seq<Change>)

  /** Whether an assignment leaves everything but the clock and the revision as it is. */
  predicate NoOp(v: Values, row: Row) {
    (row.GoalRow? || row.CommitmentRow? || row.EntityRow? || row.ProjectRow? || row.RelationshipRow? || row.ThreadRow?)
    && Assign(v, row, row.updatedAt, row.revision) == row
  }
}
