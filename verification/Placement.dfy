/**
  Where a project stands, over every run of creates, moves, reassignments and edits of the graphs: its
  own graph, when it has one, owns the state it stands on; only an edge changes the state's code; and
  the audit trail tells the code it is on.
*/
module Placement {
  import opened Prelude
  import opened Catalog
  import opened Envelopes
  import opened Engine
  import opened Activity
  import opened Codes
  import opened Workflows

  const VERB_CREATED := "CREATED"
  const VERB_STATE_CHANGED := "STATE_CHANGED"
  const VERB_WORKFLOW_ASSIGNED := "WORKFLOW_ASSIGNED"
  const STATE_KEY := "state"

  /** The columns of a project that place it. */
  datatype Project = Project(code: string, engagement: nat, workflow: Option<nat>, state: nat)

  /** What a caller asks for, by business codes; days are counted from a fixed one. */
  datatype CreateProjectCommand = CreateProjectCommand(
    code: string,
    name: string,
    client: string,
    engagement: string,
    projectType: Option<string>,
    stage: Option<string>,
    owner: Option<string>,
    start: Option<int>,
    target: Option<int>,
    businessValue: Option<real>,
    currency: string)

  /** The tables a project refers to: the names of clients and people, the keys of engagement types. */
  datatype Directory = Directory(
    clients: map<string, string>,
    engagements: map<string, nat>,
    projectTypes: set<string>,
    stages: set<string>,
    owners: map<string, string>,
    currencies: set<string>)

  datatype PlacementError =
    | ProjectNotFound(code: string)
    | DuplicateProjectCode(code: string)
    | InvalidDateWindow(start: int, target: int)
    | NegativeBusinessValue(amount: real)
    | EngagementTypeNotFound(code: string)
    | ClientNotFound(code: string)
    | ProjectTypeNotFound(code: string)
    | StageNotFound(code: string)
    | OwnerNotFound(code: string)
    | CurrencyNotFound(code: string)
    | Refused(reason: WorkflowError)

  // --- The invariant --------------------------------------------------------------------------------

  /** The project stands on a state that exists, and of its own graph when it names one. */
  ghost predicate WellPlaced(g: Graph, p: Project) {
    && StateWith(g, p.state).Some?
    && (p.workflow.Some? ==>
          WorkflowWith(g, p.workflow.value).Some? && StateWith(g, p.state).value.workflow == p.workflow.value)
  }

  ghost predicate AllPlaced(g: Graph, projects: map<string, Project>) {
    forall code :: code in projects ==> projects[code].code == code && WellPlaced(g, projects[code])
  }

  function StandsOn(g: Graph, p: Project): string {
    match StateWith(g, p.state) case Some(s) => s.code case None => ""
  }

  // --- The trail ------------------------------------------------------------------------------------

  /** Where a strict reader of the trail believes a project stands. */
  datatype Whereabouts = Unheard | At(code: string) | Contradicted

  function Hear(w: Whereabouts, r: Record): Whereabouts {
    if r.verb == VERB_CREATED then
      if w.Unheard? && r.fromValue == "" then At(r.toValue) else Contradicted
    else if r.verb == VERB_STATE_CHANGED then
      if w == At(r.fromValue) then At(r.toValue) else Contradicted
    else if r.verb == VERB_WORKFLOW_ASSIGNED then
      if w.At? && STATE_KEY in r.metadata && r.metadata[STATE_KEY] == JText(w.code) then w else Contradicted
    else w
  }

  function Heard(records: seq<Record>, code: string): Whereabouts {
    if records == [] then Unheard else
      var before := Heard(records[..|records| - 1], code);
      var last := records[|records| - 1];
      if last.entityKind == ENTITY_PROJECT && last.entityId == code then Hear(before, last) else before
  }

  ghost predicate TrailTells(g: Graph, projects: map<string, Project>, records: seq<Record>) {
    forall code :: Heard(records, code) == if code in projects then At(StandsOn(g, projects[code])) else Unheard
  }

  function About(code: string, verb: string, origin: string, before: string, after: string, reason: string,
                 metadata: map<string, Json>, edit: Edit): Record
  {
    Record(ENTITY_PROJECT, code, verb, origin, edit.actor, before, after, reason, metadata,
           edit.now, edit.correlationId)
  }

  function CreatedRecord(code: string, c: CreateProjectCommand, state: string, edit: Edit): Record {
    About(code, VERB_CREATED, ORIGIN_SYSTEM, "", state, "",
          map["engagement_type" := JText(c.engagement), "owner" := JText(OrEmpty(c.owner)),
              "has_target_date" := JBool(c.target.Some?)], edit)
  }

  function CategoryOf(g: Graph, state: nat): string {
    match StateWith(g, state) case Some(s) => s.category case None => ""
  }

  function CodeOf(g: Graph, state: nat): string {
    match StateWith(g, state) case Some(s) => s.code case None => ""
  }

  /** The move along an edge; a reason that says something marks it as a justified decision. */
  function MovedRecord(g: Graph, code: string, e: Edge, reason: string, edit: Edit): Record {
    About(code, VERB_STATE_CHANGED, if Says(reason) then ORIGIN_MANUAL else ORIGIN_SYSTEM,
          CodeOf(g, e.fromState), CodeOf(g, e.toState), reason,
          map["transition_id" := JInt(e.id), "to_category" := JText(CategoryOf(g, e.toState)),
              "guard" := JText(e.guard)],
          edit)
  }

  function MovedPayload(g: Graph, e: Edge, reason: string): map<string, Json> {
    var (from, to) := (CodeOf(g, e.fromState), CodeOf(g, e.toState));
    map["from" := JText(from), "to" := JText(to),
        "from_category" := JText(CategoryOf(g, e.fromState)), "to_category" := JText(CategoryOf(g, e.toState)),
        "transition" := JText(from + "__" + to), "reason" := if reason == "" then JNull else JText(reason)]
  }

  function EventAbout(topic: Topic, code: string, payload: map<string, Json>, edit: Edit): Draft {
    Draft(topic, edit.now, edit.actor, Some(edit.correlationId), EntityRef(ENTITY_PROJECT, code), payload, 1)
  }

  function TextOrNull(value: Option<string>): Json {
    match value case Some(text) => JText(text) case None => JNull
  }

  function CreatedPayload(d: Directory, c: CreateProjectCommand, state: string): map<string, Json>
    requires c.client in d.clients && (c.owner.Some? ==> c.owner.value in d.owners)
  {
    map["name" := JText(c.name), "client_alias" := JText(d.clients[c.client]),
        "engagement_type" := JText(c.engagement), "project_type" := TextOrNull(c.projectType),
        "stage" := TextOrNull(c.stage), STATE_KEY := JText(state),
        "owner_alias" := match c.owner case Some(owner) => JText(d.owners[owner]) case None => JNull,
        "target_date" := match c.target case Some(day) => JInt(day) case None => JNull,
        "business_value" := match c.businessValue case Some(amount) => JReal(amount) case None => JNull,
        "currency" := JText(c.currency)]
  }

  // --- Which projects may be created ----------------------------------------------------------------

  /** The graph a project of this engagement type inherits. */
  function Inherited(g: Graph, engagement: nat): Result<Workflow, WorkflowError> {
    Resolve(g, PROJECT, Some(engagement), None)
  }

  /** The active entry node a new project of this engagement type starts on. */
  function StartOf(g: Graph, engagement: nat): Result<State, WorkflowError> {
    match Inherited(g, engagement)
    case Ok(w) => EntryState(g, w.id)
    case Err(e) => Err(e)
  }

  /** There is a graph to inherit, and it has an active entry node. */
  ghost predicate HasStart(g: Graph, engagement: nat) {
    Inherited(g, engagement).Ok? && exists s :: IsEntry(g, Inherited(g, engagement).value.id, s)
  }

  /** A start exists exactly when that graph has an active entry node, and then it is that node. */
  lemma StartsExactlyWhen(g: Graph, engagement: nat)
    ensures StartOf(g, engagement).Ok? <==> HasStart(g, engagement)
    ensures WellFormed(g) ==>
              forall s :: StartOf(g, engagement) == Ok(s)
                          <==> Inherited(g, engagement).Ok? && IsEntry(g, Inherited(g, engagement).value.id, s)
  {
  }

  predicate DatesAgree(c: CreateProjectCommand) {
    c.start.None? || c.target.None? || c.start.value <= c.target.value
  }

  predicate Known(code: Option<string>, table: set<string>) {
    code.Some? ==> code.value in table
  }

  predicate ReferencesResolve(d: Directory, c: CreateProjectCommand) {
    && c.client in d.clients && Known(c.projectType, d.projectTypes) && Known(c.stage, d.stages)
    && Known(c.owner, d.owners.Keys) && c.currency in d.currencies
  }

  /** Every rule a new project has to meet. */
  ghost predicate Creatable(g: Graph, taken: set<string>, d: Directory, c: CreateProjectCommand) {
    && (c.code == "" || c.code !in taken)
    && DatesAgree(c) && (c.businessValue.Some? ==> c.businessValue.value >= 0.0)
    && c.engagement in d.engagements && HasStart(g, d.engagements[c.engagement])
    && ReferencesResolve(d, c)
  }

  /** The reference that fails first, when one does. */
  function ReferenceRefusal(d: Directory, c: CreateProjectCommand): (r: Option<PlacementError>)
    ensures r.None? <==> ReferencesResolve(d, c)
  {
    if c.client !in d.clients then Some(ClientNotFound(c.client))
    else if !Known(c.projectType, d.projectTypes) then Some(ProjectTypeNotFound(c.projectType.value))
    else if !Known(c.stage, d.stages) then Some(StageNotFound(c.stage.value))
    else if !Known(c.owner, d.owners.Keys) then Some(OwnerNotFound(c.owner.value))
    else if c.currency !in d.currencies then Some(CurrencyNotFound(c.currency))
    else None
  }

  /** What refuses a creation under this code: the rules in the order they are checked. */
  function CreationRefusal(g: Graph, taken: set<string>, d: Directory, c: CreateProjectCommand,
                           code: string): (r: Option<PlacementError>)
    ensures (c.code == "" ==> code !in taken) && (c.code != "" ==> code == c.code) ==>
              (r.None? <==> Creatable(g, taken, d, c))
  {
    if code in taken then Some(DuplicateProjectCode(code))
    else if !DatesAgree(c) then Some(InvalidDateWindow(c.start.value, c.target.value))
    else if c.businessValue.Some? && c.businessValue.value < 0.0 then Some(NegativeBusinessValue(c.businessValue.value))
    else if c.engagement !in d.engagements then Some(EngagementTypeNotFound(c.engagement))
    else match StartOf(g, d.engagements[c.engagement])
      case Err(e) => Some(Refused(e))
      case Ok(_) => ReferenceRefusal(d, c)
  }

  /** The rules in the order they are checked: each refuses what the ones before it let through. */
  lemma RulesAreCheckedInOrder(g: Graph, taken: set<string>, d: Directory, c: CreateProjectCommand, code: string)
    requires code !in taken
    ensures var r := CreationRefusal(g, taken, d, c, code);
            && (c.start.Some? && c.target.Some? && c.target.value < c.start.value ==>
                  r == Some(InvalidDateWindow(c.start.value, c.target.value)))
            && (DatesAgree(c) && c.businessValue.Some? && c.businessValue.value < 0.0 ==>
                  r == Some(NegativeBusinessValue(c.businessValue.value)))
            && (DatesAgree(c) && (c.businessValue.Some? ==> c.businessValue.value >= 0.0) ==>
                  && (c.engagement !in d.engagements ==> r == Some(EngagementTypeNotFound(c.engagement)))
                  && (c.engagement in d.engagements && !HasStart(g, d.engagements[c.engagement]) ==>
                        r == Some(Refused(WorkflowNotConfigured)))
                  && (c.engagement in d.engagements && HasStart(g, d.engagements[c.engagement]) ==>
                        r == ReferenceRefusal(d, c)))
  {
  }

  lemma ReferencesAreCheckedInOrder(d: Directory, c: CreateProjectCommand)
    ensures var r := ReferenceRefusal(d, c);
            && (c.client !in d.clients <==> r == Some(ClientNotFound(c.client)))
            && (c.client in d.clients ==>
                  && (!Known(c.projectType, d.projectTypes)
                      <==> c.projectType.Some? && r == Some(ProjectTypeNotFound(c.projectType.value)))
                  && (Known(c.projectType, d.projectTypes) && !Known(c.stage, d.stages)
                      <==> c.stage.Some? && r == Some(StageNotFound(c.stage.value)))
                  && (Known(c.projectType, d.projectTypes) && Known(c.stage, d.stages) && !Known(c.owner, d.owners.Keys)
                      <==> c.owner.Some? && r == Some(OwnerNotFound(c.owner.value))))
            && (r == Some(CurrencyNotFound(c.currency)) ==> c.currency !in d.currencies)
  {
  }

  function AssignedRecord(code: string, before: string, after: string, state: string, direct: bool,
                        edit: Edit): Record {
    About(code, VERB_WORKFLOW_ASSIGNED, ORIGIN_SYSTEM, before, after, "",
          map["source" := JText(if direct then "DIRECT" else "INHERITED"), STATE_KEY := JText(state)], edit)
  }

  /** The change as every edit of a project announces it, by field. */
  function AssignedPayload(r: Record): map<string, Json> {
    map["changes" := JObject(map["workflow" := JObject(map["from" := JText(r.fromValue), "to" := JText(r.toValue)])])]
  }

  function AssignedEvent(r: Record, edit: Edit): Draft {
    EventAbout(TOPIC_PROJECT_UPDATED, r.entityId, AssignedPayload(r), edit)
  }

  function GraphCode(g: Graph, id: nat): string {
    match WorkflowWith(g, id) case Some(w) => w.code case None => ""
  }

  /** The graph it stood in, the graph it stands in now, and the state that did not change. */
  function AssignmentRecord(g: Graph, p: Project, workflowCode: Option<string>, edit: Edit): Record {
    var from := match StateWith(g, p.state) case Some(s) => GraphCode(g, s.workflow) case None => "";
    var to := match TargetOf(g, p, workflowCode) case Ok(w) => w.code case Err(_) => "";
    AssignedRecord(p.code, from, to, StandsOn(g, p), workflowCode.Some?, edit)
  }

  lemma VerbsDiffer()
    ensures VERB_CREATED != VERB_STATE_CHANGED && VERB_CREATED != VERB_WORKFLOW_ASSIGNED
    ensures VERB_STATE_CHANGED != VERB_WORKFLOW_ASSIGNED
  {
  }

  /** A record about one project, heard the way `now` says, keeps the trail true of all of them. */
  lemma TrailKeptTrue(g: Graph, projects: map<string, Project>, records: seq<Record>, r: Record, p: Project)
    requires TrailTells(g, projects, records)
    requires r.entityKind == ENTITY_PROJECT && r.entityId == p.code
    requires Hear(Heard(records, p.code), r) == At(StandsOn(g, p))
    ensures TrailTells(g, projects[p.code := p], records + [r])
  {
  }

  lemma PlacedOneMore(g: Graph, projects: map<string, Project>, p: Project)
    requires AllPlaced(g, projects) && WellPlaced(g, p)
    ensures AllPlaced(g, projects[p.code := p])
  {
  }

  /** Authoring keeps every state a project may stand on: states are retired, never deleted, moved or re-coded. */
  ghost predicate KeepsStates(g: Graph, h: Graph) {
    && (forall s :: s in g.states ==>
          var t := StateWith(h, s.id); t.Some? && t.value.workflow == s.workflow && t.value.code == s.code)
    && (forall w :: w in g.workflows ==> WorkflowWith(h, w.id).Some?)
  }

  lemma ReshapingKeepsPlace(g: Graph, h: Graph, p: Project)
    requires WellFormed(g) && WellFormed(h) && KeepsStates(g, h) && WellPlaced(g, p)
    ensures WellPlaced(h, p) && StandsOn(h, p) == StandsOn(g, p)
  {
  }

  lemma ReshapingKeepsPlaces(g: Graph, h: Graph, projects: map<string, Project>, records: seq<Record>)
    requires WellFormed(g) && WellFormed(h) && KeepsStates(g, h)
    requires AllPlaced(g, projects) && TrailTells(g, projects, records)
    ensures AllPlaced(h, projects) && TrailTells(h, projects, records)
  {
    forall code | code in projects
      ensures WellPlaced(h, projects[code]) && StandsOn(h, projects[code]) == StandsOn(g, projects[code])
    {
      ReshapingKeepsPlace(g, h, projects[code]);
    }
  }

  // --- The two decisions ------------------------------------------------------------------------------

  /** `_workflow_named`: no code names no graph; a code must name one. */
  function WorkflowNamed(g: Graph, code: Option<string>): (r: Result<Option<Workflow>, WorkflowError>)
    ensures code.None? ==> r == Ok(None)
    ensures r.Ok? && code.Some? ==> r.value.Some? && r.value.value in g.workflows && r.value.value.code == code.value
    ensures r.Err? <==> code.Some? && forall w :: w in g.workflows ==> w.code != code.value
  {
    if code.None? then Ok(None) else
      match First((w: Workflow) => w.code == code.value, g.workflows)
      case Some(w) => Ok(Some(w))
      case None => Err(WorkflowNotFound(code.value))
  }

  /** A row is found again by its primary key. */
  lemma FoundByKey(g: Graph)
    requires WellFormed(g)
    ensures forall s :: s in g.states ==> StateWith(g, s.id) == Some(s)
    ensures forall w :: w in g.workflows ==> WorkflowWith(g, w.id) == Some(w)
  {
  }

  /** The state the project stands on. */
  function Ground(g: Graph, p: Project): State
    requires StateWith(g, p.state).Some?
  {
    StateWith(g, p.state).value
  }

  function Outcome(decision: Result<Project, WorkflowError>): Result<Project, PlacementError> {
    match decision case Ok(p) => Ok(p) case Err(e) => Err(Refused(e))
  }

  /** The edge a move takes, when it takes one. */
  function EdgeTaken(g: Graph, p: Project, to: string, reasonGiven: bool, filled: set<string>, guard: GuardAnswer):
    Result<Edge, WorkflowError>
    requires StateWith(g, p.state).Some?
  {
    ValidateTransition(g, Ground(g, p), to, reasonGiven, filled, guard)
  }

  /** Where `transition_project` would put the project. */
  function Move(g: Graph, p: Project, to: string, reasonGiven: bool, filled: set<string>, guard: GuardAnswer):
    Result<Project, WorkflowError>
    requires StateWith(g, p.state).Some?
  {
    match EdgeTaken(g, p, to, reasonGiven, filled, guard)
    case Ok(edge) => Ok(p.(state := edge.toState))
    case Err(e) => Err(e)
  }

  /** A move follows an active edge of the graph the project stands in, and arrives where it was asked to. */
  lemma MovesFollowEdges(g: Graph, p: Project, to: string, reasonGiven: bool, filled: set<string>, guard: GuardAnswer)
    requires WellFormed(g) && WellPlaced(g, p) && Move(g, p, to, reasonGiven, filled, guard).Ok?
    ensures var q := Move(g, p, to, reasonGiven, filled, guard).value;
            && WellPlaced(g, q) && StandsOn(g, q) == to && q == p.(state := q.state)
            && Ground(g, q).workflow == Ground(g, p).workflow
            && var e := EdgeTaken(g, p, to, reasonGiven, filled, guard).value;
            && e in g.edges && e.active && e.fromState == p.state && e.toState == q.state
            && CodeOf(g, e.fromState) == StandsOn(g, p) && CodeOf(g, e.toState) == to
  {
  }

  lemma MoveArrives(g: Graph, p: Project, to: string, reasonGiven: bool, filled: set<string>, guard: GuardAnswer)
    requires WellFormed(g) && WellPlaced(g, p)
    ensures var e := EdgeTaken(g, p, to, reasonGiven, filled, guard);
            e.Ok? ==> e.value.fromState == p.state && WellPlaced(g, p.(state := e.value.toState))
  {
    if EdgeTaken(g, p, to, reasonGiven, filled, guard).Ok? {
      MovesFollowEdges(g, p, to, reasonGiven, filled, guard);
    }
  }

  /** The graph an assignment leads to: the one named, or the one the project would inherit. */
  function TargetOf(g: Graph, p: Project, workflowCode: Option<string>): Result<Workflow, WorkflowError> {
    match WorkflowNamed(g, workflowCode)
    case Ok(named) => Resolve(g, PROJECT, Some(p.engagement), named)
    case Err(e) => Err(e)
  }

  function PinnedBy(g: Graph, workflowCode: Option<string>): Option<nat>
    requires WorkflowNamed(g, workflowCode).Ok?
  {
    match WorkflowNamed(g, workflowCode).value case Some(w) => Some(w.id) case None => None
  }

  /** Where `assign_project_workflow` would put the project. */
  function Reassign(g: Graph, p: Project, workflowCode: Option<string>): Result<Project, WorkflowError>
    requires StateWith(g, p.state).Some?
  {
    match WorkflowNamed(g, workflowCode)
    case Err(e) => Err(e)
    case Ok(named) =>
      if p.workflow == PinnedBy(g, workflowCode) then Ok(p) else
        match TargetOf(g, p, workflowCode)
        case Err(e) => Err(e)
        case Ok(target) =>
          match ValidateReassignment(g, Ground(g, p), target, PROJECT)
          case Err(e) => Err(e)
          case Ok(landing) => Ok(p.(workflow := PinnedBy(g, workflowCode), state := landing.id))
  }

  /** The graph an assignment asks for: the one with this code, or the one the project's engagement type inherits. */
  ghost predicate AsksFor(g: Graph, p: Project, workflowCode: Option<string>, w: Workflow) {
    if workflowCode.Some? then w in g.workflows && w.code == workflowCode.value else Inherited(g, p.engagement) == Ok(w)
  }

  lemma TargetIsAskedFor(g: Graph, p: Project, workflowCode: Option<string>)
    requires WellFormed(g)
    ensures forall w :: TargetOf(g, p, workflowCode) == Ok(w) <==> AsksFor(g, p, workflowCode, w)
    ensures WorkflowNamed(g, workflowCode).Err? ==> forall w :: !AsksFor(g, p, workflowCode, w)
  {
  }

  /** An assignment changes the graph and never the state code, and lands on a state of the graph it asks for. */
  lemma AssignmentKeepsTheState(g: Graph, p: Project, workflowCode: Option<string>)
    requires WellFormed(g) && WellPlaced(g, p) && Reassign(g, p, workflowCode).Ok?
    ensures var q := Reassign(g, p, workflowCode).value;
            && WellPlaced(g, q) && StandsOn(g, q) == StandsOn(g, p)
            && q.workflow == PinnedBy(g, workflowCode) && (q.workflow.Some? <==> workflowCode.Some?)
            && (q.workflow == p.workflow ==> q == p)
            && (q != p ==> Ground(g, q).active
                           && forall w :: AsksFor(g, p, workflowCode, w) ==> Ground(g, q).workflow == w.id)
  {
    FoundByKey(g);
    TargetIsAskedFor(g, p, workflowCode);
    if p.workflow != PinnedBy(g, workflowCode) {
      LandingIsTheEquivalentNode(g, Ground(g, p), TargetOf(g, p, workflowCode).value, PROJECT);
    }
  }

  /** The project is assigned so already: the graph it names is the one with this code, or it names none. */
  ghost predicate AssignedAlready(g: Graph, p: Project, workflowCode: Option<string>) {
    if workflowCode.None? then p.workflow.None?
    else exists w :: w in g.workflows && w.code == workflowCode.value && p.workflow == Some(w.id)
  }

  /**
    Exactly when an assignment goes through: it changes nothing, or the graph it asks for is one of projects,
    in service or the one the project stands in, and has an active state with the code of the current one.
  */
  lemma AssignedExactlyWhen(g: Graph, p: Project, workflowCode: Option<string>)
    requires WellFormed(g) && WellPlaced(g, p)
    ensures Reassign(g, p, workflowCode).Ok? <==>
            AssignedAlready(g, p, workflowCode)
            || exists w :: AsksFor(g, p, workflowCode, w) && w.kind == PROJECT
                           && (w.active || w.id == Ground(g, p).workflow)
                           && Ground(g, p).code in ActiveCodes(g, w.id)
  {
    TargetIsAskedFor(g, p, workflowCode);
    if WorkflowNamed(g, workflowCode).Ok? {
      AlreadyIsPinned(g, p, workflowCode);
      var target := TargetOf(g, p, workflowCode);
      if target.Ok? {
        assert AsksFor(g, p, workflowCode, target.value);
        LandingIsTheEquivalentNode(g, Ground(g, p), target.value, PROJECT);
      }
    }
  }

  lemma AlreadyIsPinned(g: Graph, p: Project, workflowCode: Option<string>)
    requires WellFormed(g) && WorkflowNamed(g, workflowCode).Ok?
    ensures AssignedAlready(g, p, workflowCode) <==> p.workflow == PinnedBy(g, workflowCode)
  {
  }

  // --- The use cases ----------------------------------------------------------------------------------

  /** The columns, the trail and the outbox, which change together. */
  datatype Books = Books(projects: map<string, Project>, records: seq<Record>, outbox: seq<Draft>)

  function Entered(b: Books, p: Project, r: Record, event: Draft): Books {
    Books(b.projects[p.code := p], b.records + [r], b.outbox + [event])
  }

  ghost predicate Sound(g: Graph, b: Books) {
    WellFormed(g) && AllPlaced(g, b.projects) && TrailTells(g, b.projects, b.records)
  }

  /** A creation, with its record and its event. */
  function EnteredNew(b: Books, p: Project, d: Directory, c: CreateProjectCommand, state: string, edit: Edit): Books
    requires c.client in d.clients && (c.owner.Some? ==> c.owner.value in d.owners)
  {
    Entered(b, p, CreatedRecord(p.code, c, state, edit),
            EventAbout(TOPIC_PROJECT_CREATED, p.code, CreatedPayload(d, c, state), edit))
  }

  /** A move along an edge, with its record and its event. */
  function EnteredMove(g: Graph, b: Books, p: Project, e: Edge, reason: string, edit: Edit): Books {
    Entered(b, p.(state := e.toState), MovedRecord(g, p.code, e, reason, edit),
            EventAbout(TOPIC_PROJECT_STATE_CHANGED, p.code, MovedPayload(g, e, reason), edit))
  }

  /** An assignment, with its record and its event; nothing when it changes nothing. */
  function EnteredAssignment(g: Graph, b: Books, before: Project, after: Project, workflowCode: Option<string>,
                             edit: Edit): Books
  {
    if after.workflow == before.workflow then b else
      var record := AssignmentRecord(g, before, workflowCode, edit);
      Entered(b, after, record, AssignedEvent(record, edit))
  }

  /** The trail accepts the record, and it tells where the project stands. */
  ghost predicate MayEnter(g: Graph, b: Books, p: Project, r: Record) {
    && WellPlaced(g, p) && r.entityKind == ENTITY_PROJECT && r.entityId == p.code && Refusal(r).None?
    && Hear(Heard(b.records, p.code), r) == At(StandsOn(g, p))
  }

  lemma CreationMayEnter(g: Graph, b: Books, p: Project, c: CreateProjectCommand, d: Directory, edit: Edit)
    requires Sound(g, b) && p.code !in b.projects && c.engagement in d.engagements
    requires var start := StartOf(g, d.engagements[c.engagement]);
             start.Ok? && p.workflow.None? && p.state == start.value.id
    ensures MayEnter(g, b, p, CreatedRecord(p.code, c, StartOf(g, d.engagements[c.engagement]).value.code, edit))
  {
    FoundByKey(g);
    CreationIsHeard(b.records, p.code, c, StartOf(g, d.engagements[c.engagement]).value.code, edit);
  }

  lemma MoveMayEnter(g: Graph, b: Books, p: Project, e: Edge, reason: string, edit: Edit)
    requires Sound(g, b) && p.code in b.projects && b.projects[p.code] == p
    requires e.fromState == p.state && WellPlaced(g, p.(state := e.toState))
    ensures MayEnter(g, b, p.(state := e.toState), MovedRecord(g, p.code, e, reason, edit))
  {
    MoveIsHeard(b.records, g, p, e, reason, edit);
  }

  lemma AssignmentMayEnter(g: Graph, b: Books, p: Project, q: Project, workflowCode: Option<string>, edit: Edit)
    requires Sound(g, b) && p.code in b.projects && b.projects[p.code] == p
    requires WellPlaced(g, p) && Reassign(g, p, workflowCode) == Ok(q)
    ensures MayEnter(g, b, q, AssignmentRecord(g, p, workflowCode, edit))
  {
    AssignmentKeepsTheState(g, p, workflowCode);
    AssignmentIsHeard(b.records, g, p, workflowCode, edit);
    KeepsItsCode(g, p, workflowCode);
  }

  lemma KeepsItsCode(g: Graph, p: Project, workflowCode: Option<string>)
    requires StateWith(g, p.state).Some? && Reassign(g, p, workflowCode).Ok?
    ensures Reassign(g, p, workflowCode).value.code == p.code
  {
  }

  lemma EntryKeepsSound(g: Graph, b: Books, p: Project, r: Record, event: Draft)
    requires Sound(g, b) && MayEnter(g, b, p, r)
    ensures Sound(g, Entered(b, p, r, event))
  {
    TrailKeptTrue(g, b.projects, b.records, r, p);
    PlacedOneMore(g, b.projects, p);
  }

  class Portfolio {
    var graph: Graph
    var projects: map<string, Project>
    var outbox: seq<Draft>
    const trail: ActivityTrail

    function Held(): Books
      reads this, trail
    {
      Books(projects, trail.records, outbox)
    }

    ghost predicate Valid()
      reads this, trail
    {
      Sound(graph, Held())
    }

    constructor (graph: Graph)
      requires WellFormed(graph)
      ensures Valid() && this.graph == graph && Held() == Books(map[], [], []) && fresh(trail)
    {
      this.graph := graph;
      projects := map[];
      outbox := [];
      trail := new ActivityTrail();
    }

    /** An operator edits the graphs. */
    method Reshape(graph: Graph)
      requires Valid() && WellFormed(graph) && KeepsStates(this.graph, graph)
      modifies this`graph
      ensures Valid() && this.graph == graph
    {
      ReshapingKeepsPlaces(this.graph, graph, projects, trail.records);
      this.graph := graph;
    }

    /** The row, the record and the event. */
    method Append(p: Project, r: Record, event: Draft)
      requires Refusal(r).None?
      modifies this`projects, this`outbox, trail
      ensures graph == old(graph) && Held() == Entered(old(Held()), p, r, event)
    {
      projects := projects[p.code := p];
      var error := trail.Write(r);
      outbox := outbox + [event];
    }

    /** The new place of a project, its record and its event, in one transaction. */
    method Save(p: Project, r: Record, event: Draft)
      requires Valid() && MayEnter(graph, Held(), p, r)
      modifies this`projects, this`outbox, trail
      ensures Valid() && graph == old(graph) && Held() == Entered(old(Held()), p, r, event)
    {
      EntryKeepsSound(graph, Held(), p, r, event);
      Append(p, r, event);
    }

    /**
      A new project stands on the active entry node of the graph its engagement type resolves to, and
      names no graph of its own.  `present` is the codes in use, as the database lists them.
    */
    method CreateProject(c: CreateProjectCommand, d: Directory, present: seq<string>, edit: Edit)
      returns (r: Result<Project, PlacementError>)
      requires Valid() && forall code :: code in present <==> code in projects
      modifies this, trail
      ensures Valid() && graph == old(graph)
      ensures r.Err? ==> Held() == old(Held())
      ensures r.Ok? <==> Creatable(graph, old(projects).Keys, d, c)
      ensures r.Err? ==> forall code | if c.code != "" then code == c.code else code !in old(projects) ::
                           CreationRefusal(graph, old(projects).Keys, d, c, code) == Some(r.error)
      ensures r.Ok? ==>
                var p, entry := r.value, StartOf(graph, d.engagements[c.engagement]).value;
                && p == Project(p.code, d.engagements[c.engagement], None, entry.id)
                && IsEntry(graph, Inherited(graph, d.engagements[c.engagement]).value.id, entry)
                && p.code !in old(projects) && (c.code != "" ==> p.code == c.code)
                && (c.code == "" ==> forall code :: code in old(projects) ==>
                      NumberIn(PROJECT_CODE_PREFIX, code) < NumberIn(PROJECT_CODE_PREFIX, p.code))
                && Held() == EnteredNew(old(Held()), p, d, c, entry.code, edit)
    {
      var code := c.code;
      if code == "" {
        code := NextCode(PROJECT_CODE_PREFIX, PROJECT_CODE_DIGITS, present);
      }
      var refusal := Examine(c, d, code);
      if refusal.Some? {
        return Err(refusal.value);
      }
      var project := Establish(c, d, code, edit);
      r := Ok(project);
    }

    /** The row, its record and its event, once nothing refuses them. */
    method Establish(c: CreateProjectCommand, d: Directory, code: string, edit: Edit) returns (project: Project)
      requires Valid() && CreationRefusal(graph, projects.Keys, d, c, code).None?
      modifies this`projects, this`outbox, trail
      ensures Valid() && graph == old(graph)
      ensures var entry := StartOf(graph, d.engagements[c.engagement]).value;
              && project == Project(code, d.engagements[c.engagement], None, entry.id)
              && Held() == EnteredNew(old(Held()), project, d, c, entry.code, edit)
    {
      var entry := StartOf(graph, d.engagements[c.engagement]).value;
      project := Project(code, d.engagements[c.engagement], None, entry.id);
      CreationMayEnter(graph, Held(), project, c, d, edit);
      Save(project, CreatedRecord(code, c, entry.code, edit),
           EventAbout(TOPIC_PROJECT_CREATED, code, CreatedPayload(d, c, entry.code), edit));
    }

    /** The rules, one after the other. */
    method Examine(c: CreateProjectCommand, d: Directory, code: string) returns (refusal: Option<PlacementError>)
      ensures refusal == CreationRefusal(graph, projects.Keys, d, c, code)
    {
      if code in projects {
        return Some(DuplicateProjectCode(code));
      }
      if c.start.Some? && c.target.Some? && c.start.value > c.target.value {
        return Some(InvalidDateWindow(c.start.value, c.target.value));
      }
      if c.businessValue.Some? && c.businessValue.value < 0.0 {
        return Some(NegativeBusinessValue(c.businessValue.value));
      }
      if c.engagement !in d.engagements {
        return Some(EngagementTypeNotFound(c.engagement));
      }
      var resolved := Resolve(graph, PROJECT, Some(d.engagements[c.engagement]), None);
      if resolved.Err? {
        return Some(Refused(resolved.error));
      }
      var entry := EntryState(graph, resolved.value.id);
      if entry.Err? {
        return Some(Refused(entry.error));
      }
      refusal := ReferenceRefusal(d, c);
    }

    method SaveMove(before: Project, e: Edge, reason: string, edit: Edit)
      requires Valid() && before.code in projects && projects[before.code] == before
      requires e.fromState == before.state && WellPlaced(graph, before.(state := e.toState))
      modifies this`projects, this`outbox, trail
      ensures Valid() && graph == old(graph) && Held() == EnteredMove(graph, old(Held()), before, e, reason, edit)
    {
      MoveMayEnter(graph, Held(), before, e, reason, edit);
      Save(before.(state := e.toState), MovedRecord(graph, before.code, e, reason, edit),
           EventAbout(TOPIC_PROJECT_STATE_CHANGED, before.code, MovedPayload(graph, e, reason), edit));
    }

    method SaveAssignment(before: Project, after: Project, record: Record, edit: Edit)
      requires Valid() && MayEnter(graph, Held(), after, record)
      modifies this`projects, this`outbox, trail
      ensures Valid() && graph == old(graph)
      ensures Held() == if after.workflow == before.workflow then old(Held())
                        else Entered(old(Held()), after, record, AssignedEvent(record, edit))
    {
      if after.workflow != before.workflow {
        Save(after, record, AssignedEvent(record, edit));
      }
    }

    /** An accepted assignment. */
    method Follow(before: Project, after: Project, workflowCode: Option<string>, edit: Edit)
      requires Valid() && before.code in projects && projects[before.code] == before
      requires WellPlaced(graph, before) && Reassign(graph, before, workflowCode) == Ok(after)
      modifies this`projects, this`outbox, trail
      ensures Valid() && graph == old(graph)
      ensures Held() == EnteredAssignment(graph, old(Held()), before, after, workflowCode, edit)
    {
      AssignmentMayEnter(graph, Held(), before, after, workflowCode, edit);
      SaveAssignment(before, after, AssignmentRecord(graph, before, workflowCode, edit), edit);
    }

    /**
      The only way a project's state code changes: an active edge of the graph it stands in, with its
      reason, its required fields and its guard satisfied.
    */
    method TransitionProject(code: string, to: string, reason: string, filled: set<string>,
                        guard: GuardAnswer, edit: Edit)
      returns (r: Result<Project, PlacementError>)
      requires Valid()
      modifies this, trail
      ensures Valid() && graph == old(graph)
      ensures code !in old(projects) ==> r == Err(ProjectNotFound(code))
      ensures code in old(projects) ==>
                r == Outcome(Move(graph, old(projects)[code], to, Says(reason), filled, guard))
      ensures r.Err? ==> Held() == old(Held())
      ensures r.Ok? ==>
                var before := old(projects)[code];
                var e := EdgeTaken(graph, before, to, Says(reason), filled, guard).value;
                r.value == before.(state := e.toState)
                && Held() == EnteredMove(graph, old(Held()), before, e, reason, edit)
    {
      if code !in projects {
        return Err(ProjectNotFound(code));
      }
      r := TransitionKnown(projects[code], to, reason, filled, guard, edit);
    }

    method TransitionKnown(project: Project, to: string, reason: string, filled: set<string>,
                        guard: GuardAnswer, edit: Edit)
      returns (r: Result<Project, PlacementError>)
      requires Valid() && project.code in projects && projects[project.code] == project && WellPlaced(graph, project)
      modifies this`projects, this`outbox, trail
      ensures Valid() && graph == old(graph) && r == Outcome(Move(graph, project, to, Says(reason), filled, guard))
      ensures r.Err? ==> Held() == old(Held())
      ensures r.Ok? ==>
                var e := EdgeTaken(graph, project, to, Says(reason), filled, guard).value;
                r.value == project.(state := e.toState)
                && Held() == EnteredMove(graph, old(Held()), project, e, reason, edit)
    {
      MoveArrives(graph, project, to, Says(reason), filled, guard);
      match EdgeTaken(graph, project, to, Says(reason), filled, guard) {
        case Err(error) =>
          r := Err(Refused(error));
        case Ok(edge) =>
          SaveMove(project, edge, reason, edit);
          r := Ok(project.(state := edge.toState));
      }
    }

    /**
      Puts a project on a named graph, or back on the one it inherits.  An assignment that changes
      nothing writes nothing.
    */
    method AssignProjectWorkflow(code: string, workflowCode: Option<string>, edit: Edit)
      returns (r: Result<Project, PlacementError>)
      requires Valid()
      modifies this, trail
      ensures Valid() && graph == old(graph)
      ensures code !in old(projects) ==> r == Err(ProjectNotFound(code))
      ensures code in old(projects) ==>
                r == Outcome(Reassign(graph, old(projects)[code], workflowCode))
      ensures r.Err? ==> Held() == old(Held())
      ensures r.Ok? ==>
                Held() == EnteredAssignment(graph, old(Held()), old(projects)[code], r.value, workflowCode, edit)
    {
      if code !in projects {
        return Err(ProjectNotFound(code));
      }
      r := AssignKnown(projects[code], workflowCode, edit);
    }

    method AssignKnown(project: Project, workflowCode: Option<string>, edit: Edit)
      returns (r: Result<Project, PlacementError>)
      requires Valid() && project.code in projects && projects[project.code] == project && WellPlaced(graph, project)
      modifies this`projects, this`outbox, trail
      ensures Valid() && graph == old(graph) && r == Outcome(Reassign(graph, project, workflowCode))
      ensures r.Err? ==> Held() == old(Held())
      ensures r.Ok? ==> Held() == EnteredAssignment(graph, old(Held()), project, r.value, workflowCode, edit)
    {
      var placed := Reassign(graph, project, workflowCode);
      r := Outcome(placed);
      if placed.Ok? {
        Follow(project, placed.value, workflowCode, edit);
      }
    }
  }

  lemma CreationIsHeard(records: seq<Record>, code: string, c: CreateProjectCommand, state: string, edit: Edit)
    requires Heard(records, code).Unheard?
    ensures Hear(Heard(records, code), CreatedRecord(code, c, state, edit)) == At(state)
    ensures Refusal(CreatedRecord(code, c, state, edit)).None?
  {
  }

  lemma MoveIsHeard(records: seq<Record>, g: Graph, p: Project, e: Edge, reason: string, edit: Edit)
    requires Heard(records, p.code) == At(StandsOn(g, p)) && e.fromState == p.state
    ensures var r := MovedRecord(g, p.code, e, reason, edit);
            Hear(Heard(records, p.code), r) == At(StandsOn(g, p.(state := e.toState))) && Refusal(r).None?
  {
  }

  lemma AssignmentIsHeard(records: seq<Record>, g: Graph, p: Project, workflowCode: Option<string>, edit: Edit)
    requires Heard(records, p.code) == At(StandsOn(g, p))
    ensures var r := AssignmentRecord(g, p, workflowCode, edit);
            Hear(Heard(records, p.code), r) == At(StandsOn(g, p)) && Refusal(r).None?
  {
  }

  // --- What the trail and the bus are told ------------------------------------------------------------

  /** The record and the event are about one project, by one actor, at one instant, under one decision. */
  predicate Together(code: string, r: Record, event: Draft, edit: Edit) {
    && r.entityKind == event.entity.kind == ENTITY_PROJECT && r.entityId == event.entity.id == code
    && r.actor == event.actor == edit.actor && r.at == event.occurredAt == edit.now
    && r.correlationId == edit.correlationId && event.correlationId == Some(edit.correlationId)
    && event.version == 1
  }

  /** A move is told by the states the project stood and stands on, and by the edge between them. */
  lemma MoveIsTold(g: Graph, p: Project, e: Edge, reason: string, edit: Edit)
    requires e.fromState == p.state && StateWith(g, e.fromState).Some? && StateWith(g, e.toState).Some?
    ensures var q := p.(state := e.toState);
            var r, event := MovedRecord(g, p.code, e, reason, edit),
                            EventAbout(TOPIC_PROJECT_STATE_CHANGED, p.code, MovedPayload(g, e, reason), edit);
            && Together(p.code, r, event, edit) && event.topic == TOPIC_PROJECT_STATE_CHANGED
            && r.verb == VERB_STATE_CHANGED && r.reason == reason
            && r.fromValue == Ground(g, p).code && r.toValue == Ground(g, q).code
            && (r.origin == ORIGIN_MANUAL <==> Says(reason)) && (r.origin == ORIGIN_SYSTEM <==> !Says(reason))
            && Has(r.metadata, "to_category", JText(Ground(g, q).category))
            && Has(r.metadata, "transition_id", JInt(e.id)) && Has(r.metadata, "guard", JText(e.guard))
  {
  }

  lemma MoveIsAnnounced(g: Graph, p: Project, e: Edge, reason: string)
    requires e.fromState == p.state && StateWith(g, e.fromState).Some? && StateWith(g, e.toState).Some?
    ensures var payload, from, to := MovedPayload(g, e, reason), Ground(g, p), Ground(g, p.(state := e.toState));
            && Has(payload, "from", JText(from.code)) && Has(payload, "to", JText(to.code))
            && Has(payload, "from_category", JText(from.category)) && Has(payload, "to_category", JText(to.category))
            && Has(payload, "transition", JText(from.code + "__" + to.code))
            && Has(payload, "reason", if reason == "" then JNull else JText(reason))
  {
  }

  /** An assignment is told by the graphs the project stood and stands in. */
  lemma AssignmentIsTold(g: Graph, p: Project, workflowCode: Option<string>, edit: Edit)
    requires WellFormed(g) && WellPlaced(g, p) && Reassign(g, p, workflowCode).Ok?
    requires Reassign(g, p, workflowCode).value != p
    ensures var q, r := Reassign(g, p, workflowCode).value, AssignmentRecord(g, p, workflowCode, edit);
            && StateWith(g, q.state).Some?
            && WorkflowWith(g, Ground(g, p).workflow).Some? && WorkflowWith(g, Ground(g, q).workflow).Some?
            && r.fromValue == WorkflowWith(g, Ground(g, p).workflow).value.code
            && r.toValue == WorkflowWith(g, Ground(g, q).workflow).value.code
  {
    AssignmentKeepsTheState(g, p, workflowCode);
    TargetIsAskedFor(g, p, workflowCode);
    FoundByKey(g);
  }

  /** And by the state that stayed, and by whether a graph was named. */
  lemma AssignmentIsExplained(g: Graph, p: Project, workflowCode: Option<string>, edit: Edit)
    requires WellFormed(g) && WellPlaced(g, p) && Reassign(g, p, workflowCode).Ok?
    ensures var q, r := Reassign(g, p, workflowCode).value, AssignmentRecord(g, p, workflowCode, edit);
            && r.verb == VERB_WORKFLOW_ASSIGNED && r.origin == ORIGIN_SYSTEM && r.reason == ""
            && Has(r.metadata, "state", JText(StandsOn(g, q)))
            && Has(r.metadata, "source", JText(if q.workflow.Some? then "DIRECT" else "INHERITED"))
  {
    AssignmentKeepsTheState(g, p, workflowCode);
  }

  /** The event repeats the record's two graphs as the one field that changed. */
  lemma AssignmentIsAnnounced(g: Graph, p: Project, workflowCode: Option<string>, edit: Edit)
    ensures var r := AssignmentRecord(g, p, workflowCode, edit);
            var event := AssignedEvent(r, edit);
            && Together(p.code, r, event, edit) && event.topic == TOPIC_PROJECT_UPDATED
            && event.payload.Keys == { "changes" } && event.payload["changes"].JObject?
            && var changes := event.payload["changes"].fields;
            && changes.Keys == { "workflow" } && changes["workflow"].JObject?
            && Has(changes["workflow"].fields, "from", JText(r.fromValue))
            && Has(changes["workflow"].fields, "to", JText(r.toValue))
  {
  }

  /** A creation is told by the entry state and by what the caller asked for, with names looked up. */
  lemma CreationIsTold(d: Directory, c: CreateProjectCommand, code: string, state: string, edit: Edit)
    requires ReferencesResolve(d, c)
    ensures var r := CreatedRecord(code, c, state, edit);
            var event := EventAbout(TOPIC_PROJECT_CREATED, code, CreatedPayload(d, c, state), edit);
            && Together(code, r, event, edit) && event.topic == TOPIC_PROJECT_CREATED
            && r.verb == VERB_CREATED && r.origin == ORIGIN_SYSTEM && r.fromValue == "" && r.toValue == state
            && Has(r.metadata, "owner", JText(if c.owner.Some? then c.owner.value else ""))
            && Has(r.metadata, "engagement_type", JText(c.engagement))
            && Has(r.metadata, "has_target_date", JBool(c.target.Some?))
  {
  }

  lemma CreationIsAnnounced(d: Directory, c: CreateProjectCommand, state: string)
    requires ReferencesResolve(d, c)
    ensures var payload := CreatedPayload(d, c, state);
            && Has(payload, "name", JText(c.name)) && Has(payload, "client_alias", JText(d.clients[c.client]))
            && Has(payload, "engagement_type", JText(c.engagement)) && Has(payload, "state", JText(state))
            && Has(payload, "project_type", if c.projectType.Some? then JText(c.projectType.value) else JNull)
            && Has(payload, "stage", if c.stage.Some? then JText(c.stage.value) else JNull)
            && Has(payload, "owner_alias", if c.owner.Some? then JText(d.owners[c.owner.value]) else JNull)
            && Has(payload, "target_date", if c.target.Some? then JInt(c.target.value) else JNull)
            && Has(payload, "business_value", if c.businessValue.Some? then JReal(c.businessValue.value) else JNull)
            && Has(payload, "currency", JText(c.currency))
  {
  }
}
