/** Gradual maturation of interests, preferences and self-states: age gates, separated anchors, final retirement. */
module Development {
  import opened Common

  const DAY: int := 86400000000
  const WEEK: int := 604800000000

  /** What one operation finds: qualifying original events, episodes, whether its references are known, qualifying attention. */
  datatype World = World(events: map<Id, Time>, episodes: map<Id, seq<Ref>>, known: bool, attention: bool)

  function Direct(refs: seq<Ref>): set<Id> {
    set r | r in refs && r.kind == "event" :: r.id
  }

  /** Events named directly or by an episode, one level deep. */
  function Named(w: World, refs: seq<Ref>): set<Id> {
    Direct(refs) + set r, e | r in refs && r.kind == "episode" && r.id in w.episodes && e in Direct(w.episodes[r.id]) :: e
  }

  /** The qualifying events among them that are not in the future, with their recording times. */
  function Anchors(w: World, refs: seq<Ref>, now: Time): map<Id, Time> {
    map e | e in Named(w, refs) && e in w.events && w.events[e] <= now :: w.events[e]
  }

  /** Two anchors at least a day apart. */
  predicate Separated(anchors: map<Id, Time>) {
    exists a, b :: a in anchors && b in anchors && anchors[b] - anchors[a] >= DAY
  }

  predicate Novel(w: World, known: seq<Ref>, incoming: seq<Ref>, now: Time) {
    exists e :: e in Anchors(w, incoming, now) && e !in Anchors(w, known, now)
  }

  // ---- Interests and preferences ----

  datatype Family = Interest | Preference

  datatype Status = Initial | Established | Dormant | Retired

  /** A candidate interest or a tentative preference starts `Initial`; `title` and `body` are its two content fields. */
  datatype Gradual = Gradual(
    status: Status,
    title: string,
    body: string,
    rationale: string,
    evidence: seq<Ref>,
    promotionNotBefore: Time,
    retirementNotBefore: Option<Time>,
    updatedAt: Time,
    revision: nat)

  datatype GradualOp =
    | Create(title: string, body: string, refs: seq<Ref>, rationale: string)
    | Establish(refs: seq<Ref>, rationale: string)
    | SetDormant(refs: seq<Ref>, rationale: string)
    | Retire(refs: seq<Ref>, rationale: string)

  function CommonErrors(w: World, rationale: string): seq<string> {
    Note(!w.known, "unknown_ref") + Note(Blank(rationale), "development_rationale_required")
  }

  function Revised(row: Gradual, op: GradualOp, now: Time): Gradual {
    row.(rationale := op.rationale, evidence := UnionRefs(row.evidence, op.refs), updatedAt := now, revision := row.revision + 1)
  }

  function EstablishErrors(f: Family, row: Gradual, op: GradualOp, w: World, now: Time): seq<string> {
    if row.status == Initial then
      Note(now < row.promotionNotBefore, "development_not_yet_eligible")
      + Note(!w.attention, "development_reflection_required")
      + Note(!Separated(Anchors(w, UnionRefs(row.evidence, op.refs), now)), "development_grounding_required")
    else if f == Interest && row.status == Dormant then
      Note(!w.attention, "development_reflection_required")
      + Note(!Novel(w, row.evidence, op.refs, now), "development_new_anchor_required")
    else ["invalid_development_transition"]
  }

  function RetireErrors(f: Family, row: Gradual, op: GradualOp, w: World, now: Time): seq<string> {
    if row.status == Initial then []
    else
      Note(row.status != if f == Interest then Dormant else Established, "invalid_development_transition")
      + Note(row.retirementNotBefore.None? || now < row.retirementNotBefore.value, "development_not_yet_eligible")
      + Note(!w.attention, "development_reflection_required")
      + Note(f == Preference && !Separated(Anchors(w, UnionRefs(row.evidence, op.refs), now)), "development_grounding_required")
      + Note(!Novel(w, row.evidence, op.refs, now), "development_new_anchor_required")
  }

  /** The findings against an operation on one interest or preference, and the row it would leave. */
  function PlanGradual(f: Family, row: Option<Gradual>, op: GradualOp, w: World, now: Time): (seq<string>, Option<Gradual>) {
    var common := CommonErrors(w, op.rationale);
    match op
    case Create(title, body, refs, rationale) =>
      (common + Note(row.Some?, "personal_id_collision") + Note(Blank(title) || Blank(body), "empty_personal_content"),
       Some(Gradual(Initial, title, body, rationale, refs, now + DAY, None, now, 1)))
    case Establish(_, _) =>
      if row.None? then (common + ["unknown_personal_target"], None)
      else
        (common + EstablishErrors(f, row.value, op, w, now),
         Some(Revised(row.value, op, now).(status := Established, retirementNotBefore := if f == Interest then None else Some(now + WEEK))))
    case SetDormant(refs, _) =>
      if row.None? then (common + ["unknown_personal_target"], None)
      else
        (common + Note(f != Interest || row.value.status != Established, "invalid_development_transition")
         + Note(refs == [], "development_evidence_required"),
         Some(Revised(row.value, op, now).(status := Dormant, retirementNotBefore := Some(now + WEEK))))
    case Retire(_, _) =>
      if row.None? then (common + ["unknown_personal_target"], None)
      else (common + RetireErrors(f, row.value, op, w, now), Some(Revised(row.value, op, now).(status := Retired)))
  }

  // ---- Self-states ----

  datatype Layer = CurrentIdentity | SelfBelief | CurrentValue | Narrative

  predicate Staged(layer: Layer) {
    layer == SelfBelief || layer == CurrentValue
  }

  datatype SelfState = SelfState(
    content: Option<string>,
    evidence: seq<Ref>,
    pending: Option<string>,
    pendingEvidence: seq<Ref>,
    pendingNotBefore: Option<Time>,
    rationale: string,
    updatedAt: Time,
    revision: nat)

  datatype Proposal = Proposal(content: string, refs: seq<Ref>, rationale: string)

  function Base(row: Option<SelfState>, op: Proposal, now: Time): SelfState {
    if row.None? then SelfState(None, [], None, [], None, op.rationale, now, 1)
    else row.value.(rationale := op.rationale, updatedAt := now, revision := row.value.revision + 1)
  }

  predicate AlreadyCurrent(row: Option<SelfState>, content: string) {
    row.Some? && row.value.content == Some(content) && row.value.pending.None?
  }

  function Presented(row: SelfState, content: string, evidence: seq<Ref>): SelfState {
    row.(content := Some(content), evidence := evidence, pending := None, pendingEvidence := [], pendingNotBefore := None)
  }

  function PlanSelf(layer: Layer, row: Option<SelfState>, op: Proposal, w: World, now: Time): (seq<string>, SelfState) {
    var common := CommonErrors(w, op.rationale) + Note(Blank(op.content), "empty_personal_content");
    var base := Base(row, op, now);
    if !Staged(layer) then
      (common + Note(layer == Narrative && op.refs == [], "development_evidence_required")
       + Note(AlreadyCurrent(row, op.content), "no_op_personal_revision"),
       Presented(base, op.content, op.refs))
    else if row.Some? && row.value.pending == Some(op.content) then
      var combined := UnionRefs(row.value.pendingEvidence, op.refs);
      if row.value.pendingNotBefore.Some? && now < row.value.pendingNotBefore.value then
        (common + Note(combined == row.value.pendingEvidence, "no_op_personal_revision"), base.(pendingEvidence := combined))
      else
        (common + Note(!w.attention, "development_reflection_required")
         + Note(!Separated(Anchors(w, combined, now)), "development_grounding_required"),
         Presented(base, op.content, combined))
    else
      (common + Note(AlreadyCurrent(row, op.content), "no_op_personal_revision"),
       base.(pending := Some(op.content), pendingEvidence := op.refs, pendingNotBefore := Some(now + DAY)))
  }

  // ---- Histories ----

  /** One accepted operation on one interest or preference. */
  datatype GradualStep = GradualStep(op: GradualOp, world: World, at: Time, row: Gradual)

  ghost predicate GradualHistory(f: Family, h: seq<GradualStep>) {
    forall i :: 0 <= i < |h| ==> GradualAccepted(f, h, i)
  }

  ghost predicate GradualAccepted(f: Family, h: seq<GradualStep>, i: nat)
    requires i < |h|
  {
    var plan := PlanGradual(f, if i == 0 then None else Some(h[i - 1].row), h[i].op, h[i].world, h[i].at);
    |plan.0| == 0 && plan.1 == Some(h[i].row)
  }

  /** The step at `j` left the initial status for the established one, at least a day after creation and with separated anchors. */
  ghost predicate Matured(h: seq<GradualStep>, j: nat) {
    && 0 < j < |h| && h[j].row.status == Established && h[j - 1].row.status == Initial
    && h[j].at >= h[0].at + DAY && h[j].world.attention
    && Separated(Anchors(h[j].world, h[j].row.evidence, h[j].at))
  }

  lemma {:induction false} InitialSinceCreation(f: Family, h: seq<GradualStep>, i: nat)
    requires GradualHistory(f, h) && i < |h| && h[i].row.status == Initial
    ensures i == 0 && h[0].op.Create? && h[0].row.promotionNotBefore == h[0].at + DAY
  {
    assert GradualAccepted(f, h, i);
  }

  /** Whatever is or was established first matured through the age gate and the anchors. */
  lemma {:induction false} EstablishedHasMatured(f: Family, h: seq<GradualStep>, i: nat) returns (j: nat)
    requires GradualHistory(f, h) && i < |h| && h[i].row.status in {Established, Dormant}
    ensures j <= i && Matured(h, j)
  {
    hide GradualAccepted, Matured;
    var status := ReachedFrom(f, h, i);
    if status == Initial {
      j := i;
    } else {
      j := EstablishedHasMatured(f, h, i - 1);
    }
  }

  /** The status that an established or dormant row had before the step at `i`. */
  lemma ReachedFrom(f: Family, h: seq<GradualStep>, i: nat) returns (status: Status)
    requires GradualHistory(f, h) && i < |h| && h[i].row.status in {Established, Dormant}
    ensures 0 < i && status == h[i - 1].row.status && status in {Initial, Established, Dormant}
    ensures status == Initial ==> Matured(h, i)
  {
    hide Separated, Novel, Anchors, UnionRefs, CommonErrors;
    assert GradualAccepted(f, h, i);
    status := h[i - 1].row.status;
    if status == Initial {
      InitialSinceCreation(f, h, i - 1);
    }
  }

  /** An established preference or a dormant interest retires a week after entering that status at the earliest. */
  lemma RetirementWaits(f: Family, h: seq<GradualStep>, i: nat)
    requires GradualHistory(f, h) && 0 < i < |h| && h[i].row.status == Retired && h[i - 1].row.status != Initial
    ensures h[i - 1].row.status == if f == Interest then Dormant else Established
    ensures h[i].at >= h[i - 1].at + WEEK && h[i].world.attention
    ensures Novel(h[i].world, h[i - 1].row.evidence, h[i].op.refs, h[i].at)
  {
    hide Separated, Novel, Anchors, UnionRefs, CommonErrors;
    assert GradualAccepted(f, h, i);
    assert GradualAccepted(f, h, i - 1);
  }

  /** No accepted operation follows a retirement. */
  lemma RetiredIsFinal(f: Family, h: seq<GradualStep>, i: nat)
    requires GradualHistory(f, h) && i + 1 < |h|
    ensures h[i].row.status != Retired
  {
    hide Separated, Novel, Anchors, UnionRefs, CommonErrors;
    assert GradualAccepted(f, h, i + 1);
  }

  /** One accepted proposal for one layer. */
  datatype SelfStep = SelfStep(op: Proposal, world: World, at: Time, row: SelfState)

  function Previous(h: seq<SelfStep>, i: nat): Option<SelfState>
    requires i <= |h|
  {
    if i == 0 then None else Some(h[i - 1].row)
  }

  ghost predicate SelfAccepted(layer: Layer, h: seq<SelfStep>, i: nat)
    requires i < |h|
  {
    var plan := PlanSelf(layer, Previous(h, i), h[i].op, h[i].world, h[i].at);
    |plan.0| == 0 && plan.1 == h[i].row
  }

  ghost predicate SelfHistory(layer: Layer, h: seq<SelfStep>) {
    forall i :: 0 <= i < |h| ==> SelfAccepted(layer, h, i)
  }

  /** The references supplied for one uninterrupted pending content, from step `j` up to and including step `i`. */
  function Gathered(h: seq<SelfStep>, j: nat, i: nat): seq<Ref>
    requires j <= i < |h|
    decreases i
  {
    if j == i then h[j].op.refs else UnionRefs(Gathered(h, j, i - 1), h[i].op.refs)
  }

  /** From `j` to `i` the same content was pending, with the deadline set at `j` and only its own references. */
  ghost predicate PendingSince(h: seq<SelfStep>, j: nat, i: nat, content: string) {
    && j <= i < |h|
    && (forall k :: j <= k <= i ==> h[k].row.pending == Some(content) && h[k].row.pendingNotBefore == Some(h[j].at + DAY))
    && h[i].row.pendingEvidence == Gathered(h, j, i)
  }

  lemma {:induction false} PendingBegan(layer: Layer, h: seq<SelfStep>, i: nat, content: string) returns (j: nat)
    requires SelfHistory(layer, h) && Staged(layer) && i < |h| && h[i].row.pending == Some(content)
    ensures PendingSince(h, j, i, content)
  {
    hide Separated, Anchors, UnionRefs, CommonErrors;
    assert SelfAccepted(layer, h, i);
    if i > 0 && h[i - 1].row.pending == Some(content) {
      j := PendingBegan(layer, h, i - 1, content);
    } else {
      j := i;
    }
  }

  /**
   * Content of a staged layer changes only by promotion: exactly that content was pending without
   * interruption for at least a day, the references gathered for it since then contain two anchors
   * a day apart, and nothing gathered for other content counts.
   */
  lemma PromotionWaited(layer: Layer, h: seq<SelfStep>, i: nat) returns (j: nat)
    requires SelfHistory(layer, h) && Staged(layer) && i < |h| && h[i].row.content.Some?
    requires i == 0 || h[i].row.content != h[i - 1].row.content
    ensures j < i && PendingSince(h, j, i - 1, h[i].row.content.value)
    ensures h[i].at >= h[j].at + DAY && h[i].world.attention
    ensures h[i].row.evidence == UnionRefs(Gathered(h, j, i - 1), h[i].op.refs)
    ensures Separated(Anchors(h[i].world, h[i].row.evidence, h[i].at))
  {
    hide SelfAccepted, Separated, Anchors, UnionRefs;
    PromotedFrom(layer, h, i);
    j := PendingBegan(layer, h, i - 1, h[i].row.content.value);
  }

  /** A new content is the one that was pending just before, past its deadline. */
  lemma PromotedFrom(layer: Layer, h: seq<SelfStep>, i: nat)
    requires SelfHistory(layer, h) && Staged(layer) && i < |h| && h[i].row.content.Some?
    requires i == 0 || h[i].row.content != h[i - 1].row.content
    ensures 0 < i && h[i - 1].row.pending == h[i].row.content
    ensures h[i - 1].row.pendingNotBefore.Some? ==> h[i].at >= h[i - 1].row.pendingNotBefore.value
    ensures h[i].row.evidence == UnionRefs(h[i - 1].row.pendingEvidence, h[i].op.refs)
    ensures h[i].world.attention && Separated(Anchors(h[i].world, h[i].row.evidence, h[i].at))
  {
    hide Separated, Anchors, UnionRefs, CommonErrors;
    assert SelfAccepted(layer, h, i);
  }
}
