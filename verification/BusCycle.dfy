/**
  What would happen if the engine consumed what it emits.  Two pending events that show it one project in
  two ways keep the bus busy for ever, each finding the other's score stored; and nothing less does.
*/
module BusCycle {
  import opened Prelude
  import opened Catalog
  import opened Envelopes
  import opened Registry
  import opened Outbox
  import opened Engine
  import opened Scoring
  import opened Decimals
  import opened Protocol
  import opened BusInvariants
  import opened BusFailures
  import opened BusTermination
  import opened BusRecovery
  import opened BusScoring
  import opened BusQuiet

  // --- Draining one row ------------------------------------------------------------------------------

  /** An event about a project that the engine consumes. */
  ghost predicate Token(c: Config, rows: map<EventId, Row>, e: EventId) {
    && e in rows && rows[e].env.id == e && rows[e].env.entity.kind == ENTITY_PROJECT
    && rows[e].env.topic != TOPIC_CLOCK_TICKED
    && Subscribed(c.registry, rows[e].env.topic, PRIORITY_RECALCULATOR)
  }

  predicate Idle(s: State) {
    s.drainers == map[] && s.jobs == map[]
  }

  predicate OnlyUnpublished(rows: map<EventId, Row>, e: EventId) {
    e in rows && rows[e].publishedAt.None? && forall x :: x in rows && x != e ==> rows[x].publishedAt.Some?
  }

  function EngineDelivery(e: EventId): Delivery {
    Delivery(Pair(e, PRIORITY_RECALCULATOR), 1)
  }

  /** Since `s`, rows have been published and messages queued, and nothing else. */
  ghost predicate Drained(s: State, t: State) {
    && t.jobs == map[] && t.claims == s.claims && s.queued <= t.queued
    && t.rows.Keys == s.rows.Keys
    && forall x :: x in t.rows ==> t.rows[x].env == s.rows[x].env && t.rows[x].publishedAt.Some?
  }

  predicate AllDrain(steps: seq<Step>) {
    forall i :: 0 <= i < |steps| ==> steps[i].Drain? && Autonomous(steps[i])
  }

  ghost predicate DrainRoute(c: Config, s: State, t: State, steps: seq<Step>) {
    AllDrain(steps) && Legal(c, s, steps) && Final(c, s, steps) == t
  }

  /** The drain of the row ends here, with the engine's delivery queued. */
  ghost predicate DrainEnds(c: Config, s: State, u: State, e: EventId, t: State, steps: seq<Step>) {
    DrainRoute(c, u, t, steps) && Drained(s, t) && t.drainers == map[] && EngineDelivery(e) in t.queued
  }

  lemma DrainFirst(c: Config, s: State, u: State, step: Step, e: EventId, t: State, steps: seq<Step>)
    requires Enabled(c, u, step) && step.Drain? && Autonomous(step)
    requires DrainEnds(c, s, Apply(c, u, step), e, t, steps)
    ensures DrainEnds(c, s, u, e, t, [step] + steps)
  {
    assert ([step] + steps)[1..] == steps;
  }

  /** The last hooks, the engine's among them or already run. */
  ghost predicate Handing(s: State, u: State, limit: nat, full: bool, pending: seq<Pair>, e: EventId) {
    && Drained(s, u) && u.drainers == map[0 := Dispatching(limit, full, pending)]
    && (EngineDelivery(e).pair in pending || EngineDelivery(e) in u.queued)
  }

  lemma {:induction false} HooksRun(c: Config, s: State, u: State, limit: nat, full: bool, pending: seq<Pair>,
                                    e: EventId)
    returns (t: State, steps: seq<Step>)
    requires Handing(s, u, limit, full, pending, e)
    ensures DrainEnds(c, s, u, e, t, steps)
    decreases |pending|
  {
    if pending == [] {
      HooksEnd(c, s, u, limit, full, e);
      t := Apply(c, u, Drain(0, Finish(false)));
      assert DrainRoute(c, t, t, []);
      DrainFirst(c, s, u, Drain(0, Finish(false)), e, t, []);
      steps := [Drain(0, Finish(false))] + [];
    } else {
      HookRuns(c, s, u, limit, full, pending, e);
      t, steps := HooksRun(c, s, Apply(c, u, Drain(0, DrainMove.Queue)), limit, full, pending[1..], e);
      DrainFirst(c, s, u, Drain(0, DrainMove.Queue), e, t, steps);
      steps := [Drain(0, DrainMove.Queue)] + steps;
    }
  }

  lemma HooksEnd(c: Config, s: State, u: State, limit: nat, full: bool, e: EventId)
    requires Handing(s, u, limit, full, [], e)
    ensures Enabled(c, u, Drain(0, Finish(false)))
    ensures var t := Apply(c, u, Drain(0, Finish(false)));
            Drained(s, t) && t.drainers == map[] && EngineDelivery(e) in t.queued
  {
  }

  lemma HookRuns(c: Config, s: State, u: State, limit: nat, full: bool, pending: seq<Pair>, e: EventId)
    requires Handing(s, u, limit, full, pending, e) && pending != []
    ensures Enabled(c, u, Drain(0, DrainMove.Queue))
    ensures Handing(s, Apply(c, u, Drain(0, DrainMove.Queue)), limit, full, pending[1..], e)
  {
    var t, p := Apply(c, u, Drain(0, DrainMove.Queue)), EngineDelivery(e).pair;
    assert t.drainers == map[0 := Dispatching(limit, full, pending[1..])];
    assert t.queued == u.queued + multiset{Delivery(pending[0], 1)};
    assert p in pending ==> p == pending[0] || p in pending[1..];
  }

  lemma ClaimsTheRow(c: Config, s: State, e: EventId)
    requires Idle(s) && OnlyUnpublished(s.rows, e) && c.batchSize in s.drainTasks && c.batchSize > 0
    ensures Enabled(c, s, Drain(0, Claim(c.batchSize, [e])))
    ensures Apply(c, s, Drain(0, Claim(c.batchSize, [e])))
            == s.(drainTasks := s.drainTasks - multiset{c.batchSize}, drainers := map[0 := Claiming(c.batchSize, [e])])
  {
    assert forall x :: !Locked(s, x);
    assert IsClaim(s, c.batchSize, [e]);
  }

  lemma PublishesTheRow(c: Config, s: State, u: State, e: EventId)
    requires Idle(s) && OnlyUnpublished(s.rows, e) && Token(c, s.rows, e)
    requires u.drainers == map[0 := Claiming(c.batchSize, [e])]
    requires u.rows == s.rows && u.jobs == s.jobs && u.claims == s.claims && u.queued == s.queued
    ensures Enabled(c, u, Drain(0, Publish(0)))
    ensures Handing(s, Apply(c, u, Drain(0, Publish(0))), c.batchSize, 1 == c.batchSize, Dispatch(c, s.rows, [e]), e)
  {
    assert DrainEnabled(c, u, 0, Publish(0));
    DispatchReachesSubscribers(c, s.rows, [e], EngineDelivery(e).pair);
  }

  /** An idle bus with one unpublished row and a drain message publishes it and queues its deliveries. */
  lemma RowIsDrained(c: Config, s: State, e: EventId) returns (t: State, steps: seq<Step>)
    requires Idle(s) && OnlyUnpublished(s.rows, e) && Token(c, s.rows, e)
    requires c.batchSize in s.drainTasks && c.batchSize > 0
    ensures DrainEnds(c, s, s, e, t, steps) && steps != []
  {
    var claim, publish := Drain(0, Claim(c.batchSize, [e])), Drain(0, Publish(0));
    ClaimsTheRow(c, s, e);
    var u := Apply(c, s, claim);
    PublishesTheRow(c, s, u, e);
    var v := Apply(c, u, publish);
    t, steps := HooksRun(c, s, v, c.batchSize, 1 == c.batchSize, Dispatch(c, s.rows, [e]), e);
    DrainFirst(c, s, u, publish, e, t, steps);
    DrainFirst(c, s, s, claim, e, t, [publish] + steps);
    steps := [claim] + ([publish] + steps);
  }

  // --- Paths of scenes ---------------------------------------------------------------------------------

  ghost predicate Path(c: Config, m: Criterion, x: Scene, acts: seq<Act>)
    decreases |acts|
  {
    acts == [] || (Can(c, m, x, acts[0]) && Path(c, m, Next(c, m, x, acts[0]), acts[1..]))
  }

  ghost function End(c: Config, m: Criterion, x: Scene, acts: seq<Act>): Scene
    requires Path(c, m, x, acts)
    decreases |acts|
  {
    if acts == [] then x else End(c, m, Next(c, m, x, acts[0]), acts[1..])
  }

  ghost predicate Leads(c: Config, m: Criterion, x: Scene, y: Scene, acts: seq<Act>) {
    Path(c, m, x, acts) && End(c, m, x, acts) == y
  }

  lemma ActFirst(c: Config, m: Criterion, x: Scene, a: Act, y: Scene, acts: seq<Act>)
    requires Can(c, m, x, a) && Leads(c, m, Next(c, m, x, a), y, acts)
    ensures Leads(c, m, x, y, [a] + acts)
  {
    assert ([a] + acts)[1..] == acts;
  }

  lemma RestLeads(c: Config, m: Criterion, x: Scene, y: Scene, acts: seq<Act>)
    requires Leads(c, m, x, y, acts) && acts != []
    ensures Can(c, m, x, acts[0]) && Leads(c, m, Next(c, m, x, acts[0]), y, acts[1..])
  {
  }

  lemma JoinFirst(c: Config, m: Criterion, x: Scene, a: Act, z: Scene, rest: seq<Act>, second: seq<Act>)
    requires Can(c, m, x, a) && Leads(c, m, Next(c, m, x, a), z, rest + second)
    ensures Leads(c, m, x, z, ([a] + rest) + second)
  {
    ActFirst(c, m, x, a, z, rest + second);
    assert [a] + (rest + second) == ([a] + rest) + second;
  }

  lemma {:induction false} PathsJoin(c: Config, m: Criterion, x: Scene, y: Scene, z: Scene,
                                     first: seq<Act>, second: seq<Act>)
    requires Leads(c, m, x, y, first) && Leads(c, m, y, z, second)
    ensures Leads(c, m, x, z, first + second)
    decreases |first|
  {
    if first == [] {
      assert first + second == second;
    } else {
      RestLeads(c, m, x, y, first);
      PathsJoin(c, m, Next(c, m, x, first[0]), y, z, first[1..], second);
      JoinFirst(c, m, x, first[0], z, first[1..], second);
      assert [first[0]] + first[1..] == first;
    }
  }

  function Plain(steps: seq<Step>): seq<Act> {
    seq(|steps|, i requires 0 <= i < |steps| => Act(steps[i], []))
  }

  /** A drain leaves the scores alone. */
  lemma {:induction false} DrainsLift(c: Config, m: Criterion, x: Scene, steps: seq<Step>)
    requires AllDrain(steps) && Legal(c, x.bus, steps)
    ensures Leads(c, m, x, Scene(Final(c, x.bus, steps), x.scores, x.open), Plain(steps))
    decreases |steps|
  {
    if steps != [] {
      var a := Act(steps[0], []);
      var y := Next(c, m, x, a);
      DrainsLift(c, m, y, steps[1..]);
      ActFirst(c, m, x, a, Scene(Final(c, x.bus, steps), x.scores, x.open), Plain(steps[1..]));
      assert [a] + Plain(steps[1..]) == Plain(steps);
    }
  }

  // --- Two events on one project -------------------------------------------------------------------------

  function ViewAt(m: Criterion, rows: map<EventId, Row>, e: EventId): Option<Assessment>
    requires e in rows
  {
    View(m, rows[e].env.entity.id, rows[e].env.occurredAt)
  }

  /** Both are pending, they show one project in two ways, and what the first shows is not stored. */
  ghost predicate Pairing(c: Config, m: Criterion, rows: map<EventId, Row>, claims: set<Pair>, scores: Table,
                          b: EventId, e: EventId) {
    && Token(c, rows, b) && Token(c, rows, e) && b != e && rows[b].env.entity == rows[e].env.entity
    && ViewAt(m, rows, b).Some? && ViewAt(m, rows, e).Some? && ViewAt(m, rows, b) != ViewAt(m, rows, e)
    && (forall q :: q in claims ==> q.event in rows && q.event != b && q.event != e)
    && !Known(m, scores, rows[b].env.entity.id, rows[b].env.occurredAt)
  }

  /** One of them is queued, the other is all there is to drain. */
  ghost predicate Turning(c: Config, m: Criterion, x: Scene, b: EventId, e: EventId) {
    && Idle(x.bus) && c.batchSize in x.bus.drainTasks && OnlyUnpublished(x.bus.rows, e)
    && EngineDelivery(b) in x.bus.queued && Pairing(c, m, x.bus.rows, x.bus.claims, x.scores, b, e)
  }

  ghost predicate Looping(c: Config, m: Criterion, x: Scene) {
    exists b, e :: Turning(c, m, x, b, e)
  }

  /** The engine consumes the topic it emits, and its assessments fit the payload's schema. */
  ghost predicate Echoing(c: Config, m: Criterion) {
    !Acyclic(c) && c.batchSize > 0 && Presents(m)
  }

  predicate Fits(a: Assessment) {
    forall s :: s in a.breakdown.signals ==> s.caption != "" && s.reason != "" && 0.0 <= s.raw <= 1.0
  }

  ghost predicate Presents(m: Criterion) {
    forall f :: Fits(m.Assess(f))
  }

  /** Both deliveries are queued. */
  ghost predicate Ready(c: Config, m: Criterion, x: Scene, b: EventId, e: EventId) {
    && Idle(x.bus) && EngineDelivery(b) in x.bus.queued && Waiting(c, m, x, b, e)
  }

  /** Everything is published, and the second delivery is queued. */
  ghost predicate Waiting(c: Config, m: Criterion, x: Scene, b: EventId, e: EventId) {
    && EngineDelivery(e) in x.bus.queued && (forall r :: r in x.bus.rows ==> x.bus.rows[r].publishedAt.Some?)
    && Pairing(c, m, x.bus.rows, x.bus.claims, x.scores, b, e)
  }

  lemma TurnDrains(c: Config, m: Criterion, x: Scene, b: EventId, e: EventId) returns (y: Scene, acts: seq<Act>)
    requires Echoing(c, m) && Turning(c, m, x, b, e)
    ensures Leads(c, m, x, y, acts) && acts != [] && Ready(c, m, y, b, e)
  {
    var t, steps := RowIsDrained(c, x.bus, e);
    DrainsLift(c, m, x, steps);
    y, acts := Scene(t, x.scores, x.open), Plain(steps);
    assert |acts| == |steps|;
  }

  // --- The engine's answer -------------------------------------------------------------------------

  /** The project the row is about, at the row's instant. */
  function Asked(env: Envelope): seq<Affected> {
    [Affected(env.entity.id, env.occurredAt)]
  }

  /** What the engine writes on it. */
  function Answer(m: Criterion, scores: Table, env: Envelope): Output {
    AnnouncementsOf(env, News(Asked(env), ScoresOf(m, scores)))
  }

  /** A view that is not stored is announced, once, and stored. */
  lemma AnswerIsOneAnnouncement(c: Config, m: Criterion, scores: Table, env: Envelope)
    requires Presents(m) && env.entity.kind == ENTITY_PROJECT && env.topic != TOPIC_CLOCK_TICKED
    requires View(m, env.entity.id, env.occurredAt).Some? && !Known(m, scores, env.entity.id, env.occurredAt)
    ensures Affects(env, c.iso, Asked(env)) && AllScored(Asked(env), ScoresOf(m, scores))
    ensures Known(m, scores + Writes(m, scores, Asked(env)), env.entity.id, env.occurredAt)
    ensures var out := Answer(m, scores, env);
            && |out.drafts| == 1 && EngineOutput(env, c.iso, out)
            && out.drafts[0].topic == TOPIC_PROJECT_PRIORITY_RECALCULATED
            && out.drafts[0].entity == env.entity && out.drafts[0].occurredAt == env.occurredAt
  {
    var asked, recomputed := Asked(env), ScoresOf(m, scores);
    ChangedExactlyWhen(m, scores, env.entity.id, env.occurredAt);
    FitsIsPresentable(m, scores, env.entity.id, env.occurredAt);
    assert asked[..0] == [] && News([], recomputed) == [] && Writes(m, scores, []) == map[];
    assert |News(asked, recomputed)| == 1;
    EachIsAnnounced(env, News(asked, recomputed));
    AffectedNewsIsTheEngines(env, c.iso, asked, recomputed);
    SecondRecomputeIsQuiet(m, scores, env.entity.id, env.occurredAt);
    assert Announces(env, Answer(m, scores, env).trail[0], Answer(m, scores, env).drafts[0]);
    assert Writes(m, scores, asked) == map[] + Written(m, scores, env.entity.id, env.occurredAt);
  }

  lemma FitsIsPresentable(m: Criterion, scores: Table, project: string, at: Instant)
    requires Presents(m) && View(m, project, at).Some?
    ensures Presentable(Recomputed(m, scores, project, at).value)
  {
    var f := m.fingerprint(project, at).value;
    assert Fits(m.Assess(f));
    ClampedIsInScale(m.findings(f).hundredths);
    if project in scores {
      ClampedIsInScale(m.findings(scores[project]).hundredths);
    }
  }

  /** The engine is on the first delivery. */
  ghost predicate Engaged(c: Config, m: Criterion, x: Scene, b: EventId, e: EventId, phase: Phase) {
    && x.bus.drainers == map[] && x.bus.jobs == map[0 := Job(EngineDelivery(b), phase)] && Waiting(c, m, x, b, e)
  }

  /** Its transaction holds the announcement and the score. */
  ghost predicate Answered(c: Config, m: Criterion, x: Scene, b: EventId, e: EventId) {
    && b in x.bus.rows && Engaged(c, m, x, b, e, Ran(Answer(m, x.scores, x.bus.rows[b].env)))
    && 0 in x.open && x.open[0] == Writes(m, x.scores, Asked(x.bus.rows[b].env))
  }

  /** The announcement is all there is to drain, and what it shows is stored. */
  ghost predicate Emitted(c: Config, m: Criterion, x: Scene, b: EventId, e: EventId, f: EventId, kicks: nat) {
    && x.bus.drainers == map[] && x.bus.jobs == map[0 := Job(EngineDelivery(b), Committed(kicks))]
    && EngineDelivery(e) in x.bus.queued && OnlyUnpublished(x.bus.rows, f)
    && Pairing(c, m, x.bus.rows, x.bus.claims, x.scores, e, f)
  }

  lemma EngineTakes(c: Config, m: Criterion, x: Scene, b: EventId, e: EventId)
    requires Ready(c, m, x, b, e)
    ensures var a := Act(Deliver(0, Take(EngineDelivery(b))), []);
            Can(c, m, x, a) && Engaged(c, m, Next(c, m, x, a), b, e, Started)
  {
  }

  lemma EngineInserts(c: Config, m: Criterion, x: Scene, b: EventId, e: EventId)
    requires Engaged(c, m, x, b, e, Started)
    ensures var a := Act(Deliver(0, Insert), []);
            Can(c, m, x, a) && Engaged(c, m, Next(c, m, x, a), b, e, Inserted)
  {
  }

  lemma EngineRuns(c: Config, m: Criterion, x: Scene, b: EventId, e: EventId)
    requires Echoing(c, m) && Engaged(c, m, x, b, e, Inserted)
    ensures var env := x.bus.rows[b].env;
            var a := Act(Deliver(0, Run(Answer(m, x.scores, env))), Asked(env));
            Can(c, m, x, a) && Answered(c, m, Next(c, m, x, a), b, e)
  {
    var env := x.bus.rows[b].env;
    var a := Act(Deliver(0, Run(Answer(m, x.scores, env))), Asked(env));
    AnswerIsOneAnnouncement(c, m, x.scores, env);
    EngineMayRun(c, x.bus, b, Answer(m, x.scores, env));
    RunScene(c, m, x, b, Asked(env), Answer(m, x.scores, env));
    AnsweredAfter(c, m, x, Next(c, m, x, a), b, e);
  }

  lemma RunScene(c: Config, m: Criterion, x: Scene, b: EventId, asked: seq<Affected>, out: Output)
    requires JobEnabled(c, x.bus, 0, Run(out)) && x.bus.jobs[0].delivery == EngineDelivery(b)
    requires Scored(c, m, x.bus, x.scores, 0, asked, out)
    ensures var a := Act(Deliver(0, Run(out)), asked);
            && Can(c, m, x, a) && Next(c, m, x, a).bus == JobApply(c, x.bus, 0, Run(out))
            && Next(c, m, x, a).scores == x.scores
            && Next(c, m, x, a).open == x.open[0 := Writes(m, x.scores, asked)]
  {
  }

  lemma AnsweredAfter(c: Config, m: Criterion, x: Scene, y: Scene, b: EventId, e: EventId)
    requires Waiting(c, m, x, b, e) && y.scores == x.scores && y.bus.drainers == map[]
    requires y.bus.rows == x.bus.rows && y.bus.claims == x.bus.claims && y.bus.queued == x.bus.queued
    requires y.bus.jobs == map[0 := Job(EngineDelivery(b), Ran(Answer(m, x.scores, x.bus.rows[b].env)))]
    requires 0 in y.open && y.open[0] == Writes(m, x.scores, Asked(x.bus.rows[b].env))
    ensures Answered(c, m, y, b, e)
  {
  }

  lemma EngineMayRun(c: Config, s: State, b: EventId, out: Output)
    requires s.jobs == map[0 := Job(EngineDelivery(b), Inserted)] && b in s.rows
    requires EngineOutput(s.rows[b].env, c.iso, out)
    ensures JobEnabled(c, s, 0, Run(out))
    ensures var t := JobApply(c, s, 0, Run(out));
            && t.rows == s.rows && t.claims == s.claims && t.queued == s.queued && t.drainers == s.drainers
            && t.jobs == map[0 := Job(EngineDelivery(b), Ran(out))]
  {
  }

  lemma OneDraftCommits(c: Config, s: State, b: EventId, out: Output, f: EventId)
    requires s.jobs == map[0 := Job(EngineDelivery(b), Ran(out))] && |out.drafts| == 1 && f !in s.rows
    ensures JobEnabled(c, s, 0, Commit([f]))
    ensures var t := JobApply(c, s, 0, Commit([f]));
            && t.rows == s.rows[f := NewRow(Seal(out.drafts[0], f))]
            && t.claims == s.claims + {EngineDelivery(b).pair} && t.queued == s.queued
            && t.drainers == s.drainers && t.jobs == map[0 := Job(EngineDelivery(b), Committed(1))]
  {
    OneDraftSealed(out.drafts, f);
    OneCommitMoves(c, s, b, out, f);
  }

  lemma OneDraftSealed(drafts: seq<Draft>, f: EventId)
    requires |drafts| == 1
    ensures SealAll(drafts, [f]) == map[f := NewRow(Seal(drafts[0], f))]
  {
    SealedRows(drafts, [f]);
  }

  lemma OneCommitMoves(c: Config, s: State, b: EventId, out: Output, f: EventId)
    requires s.jobs == map[0 := Job(EngineDelivery(b), Ran(out))] && |out.drafts| == 1 && f !in s.rows
    ensures JobEnabled(c, s, 0, Commit([f]))
    ensures var t := JobApply(c, s, 0, Commit([f]));
            && t.rows == s.rows + SealAll(out.drafts, [f])
            && t.claims == s.claims + {EngineDelivery(b).pair} && t.queued == s.queued
            && t.drainers == s.drainers && t.jobs == s.jobs[0 := Job(EngineDelivery(b), Committed(1))]
  {
  }

  lemma EngineCommits(c: Config, m: Criterion, x: Scene, b: EventId, e: EventId, f: EventId)
    requires Echoing(c, m) && Answered(c, m, x, b, e) && f !in x.bus.rows
    ensures var a := Act(Deliver(0, Commit([f])), []);
            Can(c, m, x, a) && Emitted(c, m, Next(c, m, x, a), b, e, f, 1)
  {
    var env := x.bus.rows[b].env;
    AnswerIsOneAnnouncement(c, m, x.scores, env);
    OneDraftCommits(c, x.bus, b, Answer(m, x.scores, env), f);
    CommittedScene(c, m, x, b, f);
    EmittedAfter(c, m, x, Next(c, m, x, Act(Deliver(0, Commit([f])), [])), b, e, f, Answer(m, x.scores, env).drafts[0]);
  }

  lemma CommittedScene(c: Config, m: Criterion, x: Scene, b: EventId, f: EventId)
    requires JobEnabled(c, x.bus, 0, Commit([f])) && x.bus.jobs[0].delivery == EngineDelivery(b) && 0 in x.open
    ensures var a := Act(Deliver(0, Commit([f])), []);
            && Can(c, m, x, a) && Next(c, m, x, a).bus == JobApply(c, x.bus, 0, Commit([f]))
            && Next(c, m, x, a).scores == x.scores + x.open[0]
  {
  }

  lemma EmittedAfter(c: Config, m: Criterion, x: Scene, y: Scene, b: EventId, e: EventId, f: EventId, draft: Draft)
    requires Echoing(c, m) && Waiting(c, m, x, b, e) && f !in x.bus.rows
    requires y.bus.rows == x.bus.rows[f := NewRow(Seal(draft, f))] && y.bus.queued == x.bus.queued
    requires y.bus.claims == x.bus.claims + {EngineDelivery(b).pair}
    requires draft.topic == TOPIC_PROJECT_PRIORITY_RECALCULATED
    requires draft.entity == x.bus.rows[b].env.entity && draft.occurredAt == x.bus.rows[b].env.occurredAt
    requires Known(m, y.scores, draft.entity.id, draft.occurredAt)
    requires y.bus.drainers == map[] && y.bus.jobs == map[0 := Job(EngineDelivery(b), Committed(1))]
    ensures Emitted(c, m, y, b, e, f, 1)
  {
  }

  lemma EngineKicks(c: Config, m: Criterion, x: Scene, b: EventId, e: EventId, f: EventId)
    requires Emitted(c, m, x, b, e, f, 1)
    ensures var a := Act(Deliver(0, Kick(true)), []);
            && Can(c, m, x, a)
            && Emitted(c, m, Next(c, m, x, a), b, e, f, 0) && c.batchSize in Next(c, m, x, a).bus.drainTasks
  {
  }

  lemma EngineAcknowledges(c: Config, m: Criterion, x: Scene, b: EventId, e: EventId, f: EventId)
    requires Emitted(c, m, x, b, e, f, 0) && c.batchSize in x.bus.drainTasks
    ensures var a := Act(Deliver(0, Ack), []);
            Can(c, m, x, a) && Turning(c, m, Next(c, m, x, a), e, f)
  {
  }

  lemma EmittedTurns(c: Config, m: Criterion, x: Scene, b: EventId, e: EventId, f: EventId)
    returns (y: Scene, acts: seq<Act>)
    requires Emitted(c, m, x, b, e, f, 1)
    ensures Leads(c, m, x, y, acts) && Looping(c, m, y)
  {
    var kick, ack := Act(Deliver(0, Kick(true)), []), Act(Deliver(0, Ack), []);
    EngineKicks(c, m, x, b, e, f);
    var x1 := Next(c, m, x, kick);
    EngineAcknowledges(c, m, x1, b, e, f);
    y := Next(c, m, x1, ack);
    assert Leads(c, m, y, y, []);
    ActFirst(c, m, x1, ack, y, []);
    ActFirst(c, m, x, kick, y, [ack] + []);
    acts := [kick] + ([ack] + []);
    assert Turning(c, m, y, e, f);
  }

  /** Once the first is applied, its announcement takes its place and the two have changed roles. */
  lemma CommitTurns(c: Config, m: Criterion, x: Scene, b: EventId, e: EventId) returns (y: Scene, acts: seq<Act>)
    requires Echoing(c, m) && Answered(c, m, x, b, e)
    ensures Leads(c, m, x, y, acts) && Looping(c, m, y)
  {
    var f := AboveAll(x.bus.rows.Keys);
    var commit := Act(Deliver(0, Commit([f])), []);
    EngineCommits(c, m, x, b, e, f);
    y, acts := EmittedTurns(c, m, Next(c, m, x, commit), b, e, f);
    ActFirst(c, m, x, commit, y, acts);
    acts := [commit] + acts;
  }

  lemma InsertedTurns(c: Config, m: Criterion, x: Scene, b: EventId, e: EventId) returns (y: Scene, acts: seq<Act>)
    requires Echoing(c, m) && Engaged(c, m, x, b, e, Inserted)
    ensures Leads(c, m, x, y, acts) && Looping(c, m, y)
  {
    EngineRuns(c, m, x, b, e);
    var env := x.bus.rows[b].env;
    var run := Act(Deliver(0, Run(Answer(m, x.scores, env))), Asked(env));
    y, acts := CommitTurns(c, m, Next(c, m, x, run), b, e);
    ActFirst(c, m, x, run, y, acts);
    acts := [run] + acts;
  }

  lemma ReadyTurns(c: Config, m: Criterion, x: Scene, b: EventId, e: EventId) returns (y: Scene, acts: seq<Act>)
    requires Echoing(c, m) && Ready(c, m, x, b, e)
    ensures Leads(c, m, x, y, acts) && Looping(c, m, y)
  {
    var take, insert := Act(Deliver(0, Take(EngineDelivery(b))), []), Act(Deliver(0, Insert), []);
    EngineTakes(c, m, x, b, e);
    var x1 := Next(c, m, x, take);
    EngineInserts(c, m, x1, b, e);
    y, acts := InsertedTurns(c, m, Next(c, m, x1, insert), b, e);
    ActFirst(c, m, x1, insert, y, acts);
    ActFirst(c, m, x, take, y, [insert] + acts);
    acts := [take] + ([insert] + acts);
  }

  // --- For ever ------------------------------------------------------------------------------------

  /** The acts take the scene through at least one step to where it can turn again. */
  ghost predicate TurnsBy(c: Config, m: Criterion, x: Scene, acts: seq<Act>) {
    acts != [] && Path(c, m, x, acts) && Looping(c, m, End(c, m, x, acts))
  }

  /** Two pending events on one project, assessed in two ways, are followed by two such events. */
  lemma OneTurn(c: Config, m: Criterion, x: Scene)
    requires Echoing(c, m) && Looping(c, m, x)
    ensures exists acts :: TurnsBy(c, m, x, acts)
  {
    var b, e :| Turning(c, m, x, b, e);
    var u, first := TurnDrains(c, m, x, b, e);
    var y, second := ReadyTurns(c, m, u, b, e);
    PathsJoin(c, m, x, u, y, first, second);
    TurnsWhenLed(c, m, x, y, first + second);
  }

  lemma TurnsWhenLed(c: Config, m: Criterion, x: Scene, y: Scene, acts: seq<Act>)
    requires Leads(c, m, x, y, acts) && acts != [] && Looping(c, m, y)
    ensures TurnsBy(c, m, x, acts)
  {
  }

  /** Some acts of a turn. */
  ghost function Plan(c: Config, m: Criterion, x: Scene): (acts: seq<Act>)
    requires Echoing(c, m) && Looping(c, m, x)
    ensures TurnsBy(c, m, x, acts)
  {
    OneTurn(c, m, x);
    var acts :| TurnsBy(c, m, x, acts);
    acts
  }

  /** A scene of the endless run, and what is left of its current turn. */
  datatype Place = Place(at: Scene, plan: seq<Act>)

  lemma TurnGoesOn(c: Config, m: Criterion, x: Scene, plan: seq<Act>)
    requires TurnsBy(c, m, x, plan)
    ensures Can(c, m, x, plan[0])
    ensures var y := Next(c, m, x, plan[0]);
            if plan[1..] == [] then Looping(c, m, y) else TurnsBy(c, m, y, plan[1..])
  {
    assert Path(c, m, Next(c, m, x, plan[0]), plan[1..]);
    assert End(c, m, x, plan) == End(c, m, Next(c, m, x, plan[0]), plan[1..]);
  }

  ghost function Onward(c: Config, m: Criterion, p: Place): (q: Place)
    requires Echoing(c, m) && TurnsBy(c, m, p.at, p.plan)
    ensures TurnsBy(c, m, q.at, q.plan)
    ensures Can(c, m, p.at, p.plan[0]) && q.at == Next(c, m, p.at, p.plan[0])
  {
    TurnGoesOn(c, m, p.at, p.plan);
    var y := Next(c, m, p.at, p.plan[0]);
    Place(y, if p.plan[1..] == [] then Plan(c, m, y) else p.plan[1..])
  }

  ghost function Orbit(c: Config, m: Criterion, x: Scene, n: nat): (p: Place)
    requires Echoing(c, m) && Looping(c, m, x)
    ensures TurnsBy(c, m, p.at, p.plan)
    ensures n == 0 ==> p.at == x
  {
    if n == 0 then Place(x, Plan(c, m, x)) else Onward(c, m, Orbit(c, m, x, n - 1))
  }

  /** From such a scene the bus left to itself need never stop. */
  lemma LoopingNeverStops(c: Config, m: Criterion, x: Scene) returns (run: nat -> Scene, acts: nat -> Act)
    requires Echoing(c, m) && Looping(c, m, x)
    ensures run(0) == x && !Settles(c, m, run, acts)
  {
    run := (n: nat) => Orbit(c, m, x, n).at;
    acts := (n: nat) => Orbit(c, m, x, n).plan[0];
    forall n: nat ensures Unfolds(c, m, run, acts, n) {
      assert Orbit(c, m, x, n + 1) == Onward(c, m, Orbit(c, m, x, n));
    }
  }

  // --- Exactly when ----------------------------------------------------------------------------------

  /** No project is assessed in two ways at two instants. */
  ghost predicate Steady(m: Criterion) {
    forall p, a, b :: SameView(m, p, a, b)
  }

  /** Producers outside the engine write something it consumes. */
  ghost predicate Fed(c: Config) {
    exists topic :: Feeds(c, topic)
  }

  ghost predicate Feeds(c: Config, topic: Topic) {
    topic !in { TOPIC_CLOCK_TICKED, TOPIC_PROJECT_PRIORITY_RECALCULATED }
    && Subscribed(c.registry, topic, PRIORITY_RECALCULATOR)
  }

  /** Whatever producers outside the engine wrote and whatever is stored, the bus left to itself stops. */
  ghost predicate AlwaysSettles(c: Config, m: Criterion) {
    forall history, run, acts | FromOutside(history) && GoesOnFrom(c, history, run) :: Settles(c, m, run, acts)
  }

  function Outside(topic: Topic, project: string, at: Instant): Draft {
    Draft(topic, at, SYSTEM_ACTOR, None, EntityRef(ENTITY_PROJECT, project), map[], 1)
  }

  function OneRow(c: Config, draft: Draft): State {
    EMPTY.(rows := map[1 := NewRow(Seal(draft, 1))], periods := multiset{1}, drainTasks := multiset{c.batchSize})
  }

  lemma FirstEvent(c: Config, draft: Draft)
    ensures ReachedBy(c, [Produce(1, draft, true)], OneRow(c, draft))
  {
    var step := Produce(1, draft, true);
    assert Legal(c, EMPTY, []) && Final(c, EMPTY, []) == EMPTY;
    assert Apply(c, EMPTY, step) == OneRow(c, draft);
    Extend(c, [], EMPTY, step);
    assert [] + [step] == [step];
  }

  /** Two events about one project, the first drained and the second not: two outside writes do it. */
  lemma TwoEventsLoop(c: Config, m: Criterion, topic: Topic, p: string, a: Instant, b: Instant)
    returns (history: seq<Step>)
    requires Echoing(c, m) && Feeds(c, topic) && !SameView(m, p, a, b)
    ensures FromOutside(history) && Legal(c, EMPTY, history)
    ensures Looping(c, m, Scene(Final(c, EMPTY, history), map[], map[]))
  {
    var first, second := Outside(topic, p, a), Outside(topic, p, b);
    var t;
    t, history := FirstIsDrained(c, first);
    SecondEvent(c, m, OneRow(c, first), t, first, second);
    Extend(c, history, t, Produce(0, second, true));
    history := history + [Produce(0, second, true)];
  }

  lemma FirstIsDrained(c: Config, first: Draft) returns (t: State, history: seq<Step>)
    requires c.batchSize > 0 && first.entity.kind == ENTITY_PROJECT && Feeds(c, first.topic)
    ensures FromOutside(history) && ReachedBy(c, history, t)
    ensures Drained(OneRow(c, first), t) && t.drainers == map[] && EngineDelivery(1) in t.queued
  {
    var s, produce := OneRow(c, first), [Produce(1, first, true)];
    var steps;
    FirstEvent(c, first);
    t, steps := RowIsDrained(c, s, 1);
    RunsCompose(c, EMPTY, produce, steps);
    history := produce + steps;
  }

  lemma SecondEvent(c: Config, m: Criterion, s: State, t: State, first: Draft, second: Draft)
    requires s == OneRow(c, first) && Drained(s, t) && t.drainers == map[] && EngineDelivery(1) in t.queued
    requires first.entity == second.entity && first.entity.kind == ENTITY_PROJECT && first.topic == second.topic
    requires Feeds(c, first.topic) && !SameView(m, first.entity.id, first.occurredAt, second.occurredAt)
    ensures 0 !in t.rows && Turning(c, m, Scene(Apply(c, t, Produce(0, second, true)), map[], map[]), 1, 0)
  {
  }

  lemma UnsteadyNeverSettles(c: Config, m: Criterion)
    requires Echoing(c, m) && Fed(c) && !Steady(m)
    ensures !AlwaysSettles(c, m)
  {
    var topic :| Feeds(c, topic);
    var p, a, b :| !SameView(m, p, a, b);
    var history := TwoEventsLoop(c, m, topic, p, a, b);
    var run, acts := LoopingNeverStops(c, m, Scene(Final(c, EMPTY, history), map[], map[]));
    assert GoesOnFrom(c, history, run);
  }

  lemma ZeroBatchNeverSettles(c: Config, m: Criterion)
    requires c.batchSize == 0
    ensures !AlwaysSettles(c, m)
  {
    var run: nat -> Scene := (n: nat) => Scene(Round()(n), map[], map[]);
    var acts: nat -> Act := (n: nat) => Act(RoundSteps()(n), []);
    ZeroBatchNeverStops(c);
    forall n: nat ensures Unfolds(c, m, run, acts, n) {
      RoundGoesOn(c, n);
    }
    assert GoesOnFrom(c, [Sweep], run) && FromOutside([Sweep]) && !Settles(c, m, run, acts);
  }

  lemma AcyclicSettles(c: Config, m: Criterion, history: seq<Step>, run: nat -> Scene, acts: nat -> Act)
    requires Acyclic(c) && c.batchSize > 0 && GoesOnFrom(c, history, run)
    ensures Settles(c, m, run, acts)
  {
    var states, steps := (k: nat) => run(k).bus, (k: nat) => acts(k).step;
    CascadeTerminates(c, history, states, steps);
    var n :| !Follows(c, states, steps, n);
    if Unfolds(c, m, run, acts, n) {
      UnfoldingFollows(c, m, run, acts, n);
    }
  }

  /**
    The bus left to itself always stops, exactly when the batch size is positive and either the engine does
    not consume what it emits or no project is ever assessed in two ways.
  */
  lemma CascadeEndsExactlyWhen(c: Config, m: Criterion)
    requires Fed(c) && Presents(m)
    ensures AlwaysSettles(c, m) <==> c.batchSize > 0 && (Acyclic(c) || Steady(m))
  {
    if c.batchSize == 0 {
      ZeroBatchNeverSettles(c, m);
    } else if !Acyclic(c) && !Steady(m) {
      UnsteadyNeverSettles(c, m);
    } else {
      forall history, run, acts | FromOutside(history) && GoesOnFrom(c, history, run) ensures Settles(c, m, run, acts) {
        if Acyclic(c) {
          AcyclicSettles(c, m, history, run, acts);
        } else {
          AgreedCascadeSettles(c, m, history, run, acts);
        }
      }
    }
  }

  /** The deployed registry, whatever the scores do. */
  lemma DeployedEndsExactlyWhen(c: Config)
    requires c.registry == DEPLOYED
    ensures AlwaysStops(c) <==> c.batchSize > 0
  {
    DeployedIsAcyclic(c);
    if c.batchSize == 0 {
      ZeroBatchNeverStops(c);
    } else {
      PositiveBatchStops(c);
    }
  }

  /** The deployed registry with the engine subscribed to its own topic as well. */
  const ECHO: seq<Registration> :=
    [Registration(PRIORITY_RECALCULATOR, ENGINE_TOPICS + {TOPIC_PROJECT_PRIORITY_RECALCULATED}, 0),
     DEPLOYED[1], DEPLOYED[2]]

  lemma EchoEndsExactlyWhen(c: Config, m: Criterion)
    requires c.registry == ECHO && Presents(m)
    ensures AlwaysSettles(c, m) <==> c.batchSize > 0 && Steady(m)
  {
    assert ECHO[0] in c.registry;
    assert Subscribed(c.registry, TOPIC_PROJECT_PRIORITY_RECALCULATED, PRIORITY_RECALCULATOR);
    assert Feeds(c, TOPIC_NOTE_ADDED);
    CascadeEndsExactlyWhen(c, m);
  }
}
