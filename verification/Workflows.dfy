/**
  Workflow graphs: resolving the graph a record follows, its entry node, the edge a move takes, and the
  node a record lands on when it is put on another graph.  Tables are sequences in their default order,
  as the queries read them.
*/
module Workflows {
  import opened Prelude

  datatype Kind = PROJECT | TASK

  datatype Workflow = Workflow(id: nat, code: string, kind: Kind, isDefault: bool, active: bool)

  datatype State = State(id: nat, workflow: nat, code: string, category: string, initial: bool, active: bool)

  datatype Edge = Edge(
    id: nat,
    workflow: nat,
    fromState: nat,
    toState: nat,
    active: bool,
    requiresReason: bool,
    requiredFields: seq<string>,
    guard: string)

  datatype Binding = Binding(workflow: nat, kind: Kind, engagement: Option<nat>, active: bool)

  datatype Graph = Graph(workflows: seq<Workflow>, states: seq<State>, edges: seq<Edge>, bindings: seq<Binding>)

  datatype WorkflowError =
    | WorkflowNotFound(code: string)
    | WorkflowNotConfigured
    | WorkflowKindMismatch(code: string)
    | WorkflowRetired(code: string)
    | IncompatibleWorkflowState(state: string, available: seq<string>)
    | TransitionNotAllowed(fromState: string, toState: string, allowed: seq<string>)
    | ReasonRequired
    | RequiredFieldMissing(field: string)
    | GuardNotRegistered(guard: string)
    | GuardRejected(guard: string)

  /** `.filter(...).first()`. */
  function First<T(!new)>(p: T -> bool, xs: seq<T>): (r: Option<T>)
    ensures r.Some? ==> r.value in xs && p(r.value)
    ensures r.None? ==> forall x :: x in xs ==> !p(x)
  {
    if xs == [] then None else if p(xs[0]) then Some(xs[0]) else First(p, xs[1..])
  }

  lemma {:induction false} FirstAt<T(!new)>(p: T -> bool, xs: seq<T>, i: nat)
    requires i < |xs| && p(xs[i]) && forall j :: 0 <= j < i ==> !p(xs[j])
    ensures First(p, xs) == Some(xs[i])
  {
    if i > 0 {
      FirstAt(p, xs[1..], i - 1);
    }
  }

  function WorkflowWith(g: Graph, id: nat): Option<Workflow> {
    First((w: Workflow) => w.id == id, g.workflows)
  }

  function StateWith(g: Graph, id: nat): Option<State> {
    First((s: State) => s.id == id, g.states)
  }

  // --- The constraints ------------------------------------------------------------------------------

  function StateCoded(g: Graph, workflow: nat, code: string): Option<State> {
    First((s: State) => s.workflow == workflow && s.code == code, g.states)
  }

  function EdgeBetween(g: Graph, from: nat, to: nat): Option<Edge> {
    First((e: Edge) => e.fromState == from && e.toState == to, g.edges)
  }

  lemma KeysFindTheirRows(g: Graph, id: nat)
    ensures var w := WorkflowWith(g, id);
            if w.Some? then w.value in g.workflows && w.value.id == id else forall v :: v in g.workflows ==> v.id != id
    ensures var s := StateWith(g, id);
            if s.Some? then s.value in g.states && s.value.id == id else forall t :: t in g.states ==> t.id != id
  {
  }

  lemma ColumnsFindTheirRows(g: Graph, workflow: nat, code: string, from: nat, to: nat)
    ensures var s := StateCoded(g, workflow, code);
            if s.Some? then s.value.workflow == workflow && s.value.code == code
            else forall t :: t in g.states ==> !(t.workflow == workflow && t.code == code)
    ensures var e := EdgeBetween(g, from, to);
            if e.Some? then e.value.fromState == from && e.value.toState == to
            else forall f :: f in g.edges ==> !(f.fromState == from && f.toState == to)
  {
  }

  /** Every row is the one its primary key finds. */
  ghost predicate KeysHold(g: Graph) {
    && (forall w :: w in g.workflows ==> WorkflowWith(g, w.id) == Some(w))
    && (forall s :: s in g.states ==> StateWith(g, s.id) == Some(s))
  }

  /** Every row is the one its unique columns find. */
  ghost predicate UniquenessHolds(g: Graph) {
    && (forall s :: s in g.states ==> StateCoded(g, s.workflow, s.code) == Some(s))
    && (forall e :: e in g.edges ==> EdgeBetween(g, e.fromState, e.toState) == Some(e))
    && (forall s, t :: s in g.states && t in g.states && s.initial && t.initial && s.workflow == t.workflow ==> s == t)
    && (forall v, w :: v in g.workflows && w in g.workflows && v.isDefault && w.isDefault && v.kind == w.kind ==>
          v == w)
    && (forall v, w :: v in g.workflows && w in g.workflows && v.code == w.code ==> v == w)
  }

  /** References lead to rows that exist; an edge stays inside its graph, and a binding agrees with its graph's kind. */
  ghost predicate ReferencesAgree(g: Graph) {
    && (forall s :: s in g.states ==> WorkflowWith(g, s.workflow).Some?)
    && (forall e :: e in g.edges ==>
          Inside(StateWith(g, e.fromState), e.workflow) && Inside(StateWith(g, e.toState), e.workflow))
    && (forall b :: b in g.bindings ==> var w := WorkflowWith(g, b.workflow); w.Some? && w.value.kind == b.kind)
  }

  predicate Inside(s: Option<State>, workflow: nat) {
    s.Some? && s.value.workflow == workflow
  }

  ghost predicate WellFormed(g: Graph) {
    KeysHold(g) && UniquenessHolds(g) && ReferencesAgree(g)
  }

  // --- Resolution -----------------------------------------------------------------------------------

  /** A binding in service, through a graph in service, for this kind and this engagement type or for any. */
  predicate Usable(g: Graph, b: Binding, kind: Kind, engagement: Option<nat>) {
    b.active && b.kind == kind && (b.engagement == engagement || b.engagement.None?)
    && var w := WorkflowWith(g, b.workflow); w.Some? && w.value.active
  }

  /** The most specific answer first: the record's own graph, a binding, the per-kind binding, the default graph. */
  function Resolve(g: Graph, kind: Kind, engagement: Option<nat>,
                   pinned: Option<Workflow>): Result<Workflow, WorkflowError> {
    if pinned.Some? then Ok(pinned.value) else
      var specific := First((b: Binding) => Usable(g, b, kind, engagement) && b.engagement.Some?, g.bindings);
      if specific.Some? then Ok(WorkflowWith(g, specific.value.workflow).value) else
        var general := First((b: Binding) => Usable(g, b, kind, engagement) && b.engagement.None?, g.bindings);
        if general.Some? then Ok(WorkflowWith(g, general.value.workflow).value) else
          match First((w: Workflow) => w.active && w.kind == kind && w.isDefault, g.workflows)
          case Some(w) => Ok(w)
          case None => Err(WorkflowNotConfigured)
  }

  /** An inherited graph is always in service and of the kind asked for. */
  lemma InheritedGraphIsUsable(g: Graph, kind: Kind, engagement: Option<nat>)
    requires WellFormed(g) && Resolve(g, kind, engagement, None).Ok?
    ensures var w := Resolve(g, kind, engagement, None).value;
            w in g.workflows && w.active && w.kind == kind
  {
  }

  /** Nothing answers exactly when no usable binding and no active default exists. */
  lemma UnconfiguredExactlyWhen(g: Graph, kind: Kind, engagement: Option<nat>)
    ensures Resolve(g, kind, engagement, None).Err? <==>
            (forall b :: b in g.bindings ==> !Usable(g, b, kind, engagement))
            && (forall w :: w in g.workflows ==> !(w.active && w.kind == kind && w.isDefault))
  {
  }

  /** In service, and says where records of this kind and of exactly this engagement type, or of none, go. */
  predicate Offers(g: Graph, b: Binding, kind: Kind, engagement: Option<nat>) {
    && b.active && b.kind == kind && b.engagement == engagement
    && WorkflowWith(g, b.workflow).Some? && WorkflowWith(g, b.workflow).value.active
  }

  ghost predicate FirstOffer(g: Graph, i: int, kind: Kind, engagement: Option<nat>) {
    && 0 <= i < |g.bindings| && Offers(g, g.bindings[i], kind, engagement)
    && forall j :: 0 <= j < i ==> !Offers(g, g.bindings[j], kind, engagement)
  }

  ghost predicate NoOffer(g: Graph, kind: Kind, engagement: Option<nat>) {
    forall b :: b in g.bindings ==> !Offers(g, b, kind, engagement)
  }

  predicate LastResort(w: Workflow, kind: Kind) {
    w.active && w.kind == kind && w.isDefault
  }

  /** The record's own graph wins, retired or not; then the first binding for its engagement type. */
  lemma MostSpecificWins(g: Graph, kind: Kind, engagement: Option<nat>, pinned: Option<Workflow>, i: nat)
    ensures pinned.Some? ==> Resolve(g, kind, engagement, pinned) == Ok(pinned.value)
    ensures engagement.Some? && FirstOffer(g, i, kind, engagement) ==>
              Resolve(g, kind, engagement, None) == Ok(WorkflowWith(g, g.bindings[i].workflow).value)
  {
    if engagement.Some? && FirstOffer(g, i, kind, engagement) {
      FirstAt((b: Binding) => Usable(g, b, kind, engagement) && b.engagement.Some?, g.bindings, i);
    }
  }

  /** Without one, the first binding for every engagement type; without that, the default graph. */
  lemma GeneralWinsNext(g: Graph, kind: Kind, engagement: Option<nat>, i: nat)
    requires engagement.None? || NoOffer(g, kind, engagement)
    ensures FirstOffer(g, i, kind, None) ==>
              Resolve(g, kind, engagement, None) == Ok(WorkflowWith(g, g.bindings[i].workflow).value)
    ensures NoOffer(g, kind, None) && i < |g.workflows| && LastResort(g.workflows[i], kind)
            && (forall j :: 0 <= j < i ==> !LastResort(g.workflows[j], kind)) ==>
              Resolve(g, kind, engagement, None) == Ok(g.workflows[i])
  {
    if FirstOffer(g, i, kind, None) {
      FirstAt((b: Binding) => Usable(g, b, kind, engagement) && b.engagement.None?, g.bindings, i);
    } else if i < |g.workflows| && LastResort(g.workflows[i], kind)
              && (forall j :: 0 <= j < i ==> !LastResort(g.workflows[j], kind)) {
      FirstAt((w: Workflow) => w.active && w.kind == kind && w.isDefault, g.workflows, i);
    }
  }

  /** An entry node of this graph, in service. */
  predicate IsEntry(g: Graph, workflow: nat, s: State) {
    s in g.states && s.workflow == workflow && s.active && s.initial
  }

  /** The active entry node of a graph. */
  function EntryState(g: Graph, workflow: nat): (r: Result<State, WorkflowError>)
    ensures r.Ok? ==> IsEntry(g, workflow, r.value)
    ensures r.Ok? <==> exists s :: IsEntry(g, workflow, s)
    ensures r.Err? ==> r.error == WorkflowNotConfigured
  {
    match First((s: State) => s.workflow == workflow && s.active && s.initial, g.states)
    case Some(s) => assert IsEntry(g, workflow, s); Ok(s)
    case None => Err(WorkflowNotConfigured)
  }

  // --- Moves ------------------------------------------------------------------------------------------

  /** An active edge out of the state, to a state with this code in the same graph. */
  predicate Selects(g: Graph, e: Edge, fromState: nat, code: string) {
    e.active && e.fromState == fromState
    && var from := StateWith(g, e.fromState);
       var to := StateWith(g, e.toState);
       from.Some? && to.Some? && to.value.code == code && to.value.workflow == from.value.workflow
  }

  /** However many rows the table holds, a move has at most one edge to take. */
  lemma AtMostOneEdge(g: Graph, e: Edge, f: Edge, fromState: nat, code: string)
    requires WellFormed(g) && e in g.edges && f in g.edges
    requires Selects(g, e, fromState, code) && Selects(g, f, fromState, code)
    ensures e == f
  {
  }

  /** The codes the active edges out of a state lead to, in the order of the edges. */
  function TargetCodes(g: Graph, edges: seq<Edge>, fromState: nat): seq<string> {
    if edges == [] then [] else
      var rest, e := TargetCodes(g, edges[1..], fromState), edges[0];
      if e.active && e.fromState == fromState && StateWith(g, e.toState).Some?
      then [StateWith(g, e.toState).value.code] + rest else rest
  }

  lemma {:induction false} CodesAreTargets(g: Graph, edges: seq<Edge>, fromState: nat)
    ensures forall code :: code in TargetCodes(g, edges, fromState) <==>
              exists e :: e in edges && e.active && e.fromState == fromState
                          && StateWith(g, e.toState).Some? && StateWith(g, e.toState).value.code == code
  {
    if edges != [] {
      CodesAreTargets(g, edges[1..], fromState);
      assert edges == [edges[0]] + edges[1..];
    }
  }

  /** A move refused for want of an edge names the moves that are legal, and the one asked for is none of them. */
  lemma RefusalListsTheMoves(g: Graph, current: State, code: string, reasonGiven: bool, filled: set<string>,
                             guard: GuardAnswer)
    requires WellFormed(g) && current in g.states
    ensures var r := ValidateTransition(g, current, code, reasonGiven, filled, guard);
            r.Err? && r.error.TransitionNotAllowed? ==>
              && code !in r.error.allowed
              && forall other :: other in r.error.allowed <==>
                   exists e :: e in g.edges && Selects(g, e, current.id, other)
  {
    CodesAreTargets(g, g.edges, current.id);
    forall e | e in g.edges && e.active && e.fromState == current.id
      ensures StateWith(g, e.fromState) == Some(current)
      ensures forall other :: Selects(g, e, current.id, other) <==>
                StateWith(g, e.toState).Some? && StateWith(g, e.toState).value.code == other
    {
    }
  }

  /** What a registered guard answers, when the edge names one. */
  datatype GuardAnswer = Unregistered | Allows | Refuses

  function FirstEmpty(fields: seq<string>, filled: set<string>): Option<string> {
    First((f: string) => f !in filled, fields)
  }

  /** `validate_transition`: the edge, its reason, its required fields, its guard, in that order. */
  function ValidateTransition(g: Graph, current: State, code: string, reasonGiven: bool, filled: set<string>,
                        guard: GuardAnswer):
    Result<Edge, WorkflowError>
  {
    match First((e: Edge) => Selects(g, e, current.id, code), g.edges)
    case None => Err(TransitionNotAllowed(current.code, code, TargetCodes(g, g.edges, current.id)))
    case Some(e) =>
      if e.requiresReason && !reasonGiven then Err(ReasonRequired)
      else match FirstEmpty(e.requiredFields, filled)
        case Some(field) => Err(RequiredFieldMissing(field))
        case None =>
          if e.guard != "" && guard.Unregistered? then Err(GuardNotRegistered(e.guard))
          else if e.guard != "" && guard.Refuses? then Err(GuardRejected(e.guard))
          else Ok(e)
  }

  /** A move is accepted exactly along an active edge of the current graph whose demands are met. */
  lemma MovesAlongAnEdge(g: Graph, current: State, code: string, reasonGiven: bool, filled: set<string>,
                        guard: GuardAnswer)
    requires WellFormed(g) && current in g.states
    ensures ValidateTransition(g, current, code, reasonGiven, filled, guard).Ok? <==>
            exists e :: e in g.edges && Selects(g, e, current.id, code)
                        && (e.requiresReason ==> reasonGiven)
                        && (forall f :: f in e.requiredFields ==> f in filled)
                        && (e.guard != "" ==> guard.Allows?)
    ensures ValidateTransition(g, current, code, reasonGiven, filled, guard).Ok? ==>
              var e := ValidateTransition(g, current, code, reasonGiven, filled, guard).value;
              var to := StateWith(g, e.toState);
              && e in g.edges && e.active && e.fromState == current.id
              && to.Some? && to.value in g.states && to.value.code == code && to.value.workflow == current.workflow
  {
    var found := First((e: Edge) => Selects(g, e, current.id, code), g.edges);
    if e :| e in g.edges && Selects(g, e, current.id, code) && (e.requiresReason ==> reasonGiven)
            && (forall f :: f in e.requiredFields ==> f in filled) && (e.guard != "" ==> guard.Allows?)
    {
      AtMostOneEdge(g, e, found.value, current.id, code);
    }
  }

  /** What an edge still demands is said in order: the reason, the first empty field, the guard. */
  lemma DemandsInOrder(g: Graph, current: State, code: string, reasonGiven: bool, filled: set<string>,
                       guard: GuardAnswer, e: Edge, i: nat)
    requires WellFormed(g) && current in g.states && e in g.edges && Selects(g, e, current.id, code)
    ensures var r := ValidateTransition(g, current, code, reasonGiven, filled, guard);
            && (e.requiresReason && !reasonGiven ==> r == Err(ReasonRequired))
            && ((e.requiresReason ==> reasonGiven) ==>
                  && (i < |e.requiredFields| && e.requiredFields[i] !in filled
                      && (forall j :: 0 <= j < i ==> e.requiredFields[j] in filled) ==>
                        r == Err(RequiredFieldMissing(e.requiredFields[i])))
                  && ((forall f :: f in e.requiredFields ==> f in filled) && e.guard != "" ==>
                        && (guard.Unregistered? ==> r == Err(GuardNotRegistered(e.guard)))
                        && (guard.Refuses? ==> r == Err(GuardRejected(e.guard)))))
  {
    var found := First((e: Edge) => Selects(g, e, current.id, code), g.edges);
    AtMostOneEdge(g, e, found.value, current.id, code);
    if i < |e.requiredFields| && e.requiredFields[i] !in filled
       && (forall j :: 0 <= j < i ==> e.requiredFields[j] in filled) {
      FirstAt((f: string) => f !in filled, e.requiredFields, i);
    }
  }

  // --- Reassignment -----------------------------------------------------------------------------------

  function ActiveCodes(g: Graph, workflow: nat): seq<string> {
    CodesOf(g.states, workflow)
  }

  function CodesOf(states: seq<State>, workflow: nat): seq<string> {
    if states == [] then [] else
      var rest := CodesOf(states[1..], workflow);
      if states[0].workflow == workflow && states[0].active then [states[0].code] + rest else rest
  }

  lemma {:induction false} CodesAreOffered(states: seq<State>, workflow: nat)
    ensures forall c :: c in CodesOf(states, workflow)
                        <==> exists s :: s in states && s.workflow == workflow && s.active && s.code == c
  {
    if states != [] {
      CodesAreOffered(states[1..], workflow);
      assert states == [states[0]] + states[1..];
    }
  }

  /** `validate_reassignment`: where a record on `current` lands in `target`. */
  function ValidateReassignment(g: Graph, current: State, target: Workflow,
                        kind: Kind): Result<State, WorkflowError> {
    if target.kind != kind then Err(WorkflowKindMismatch(target.code))
    else if !target.active && target.id != current.workflow then Err(WorkflowRetired(target.code))
    else match First((s: State) => s.workflow == target.id && s.active && s.code == current.code, g.states)
      case Some(landing) => Ok(landing)
      case None => Err(IncompatibleWorkflowState(current.code, ActiveCodes(g, target.id)))
  }

  /** A landing is the equivalent node of the target; a refusal for want of one lists what the target does offer. */
  lemma LandingIsTheEquivalentNode(g: Graph, current: State, target: Workflow, kind: Kind)
    ensures var r := ValidateReassignment(g, current, target, kind);
            && (r.Ok? ==> r.value in g.states && r.value.workflow == target.id && r.value.active
                          && r.value.code == current.code)
            && (r.Err? && r.error.IncompatibleWorkflowState? ==> current.code !in r.error.available)
            && (r.Ok? <==> target.kind == kind && (target.active || target.id == current.workflow)
                           && current.code in ActiveCodes(g, target.id))
  {
    CodesAreOffered(g.states, target.id);
  }

  /** A graph of the wrong kind is refused first, then one out of service that the record does not stand in. */
  lemma ReassignmentRefusedInOrder(g: Graph, current: State, target: Workflow, kind: Kind)
    ensures var r := ValidateReassignment(g, current, target, kind);
            && (target.kind != kind <==> r == Err(WorkflowKindMismatch(target.code)))
            && (target.kind == kind && !target.active && target.id != current.workflow
                <==> r == Err(WorkflowRetired(target.code)))
  {
  }
}
