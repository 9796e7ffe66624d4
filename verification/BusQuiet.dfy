/**
  The cascade dies out although the engine be subscribed to what it emits: a project that its pending
  events show in one way is announced at most once by each of them, because the stored score then says
  so already.
*/
module BusQuiet {
  import opened Prelude
  import opened Catalog
  import opened Envelopes
  import opened Outbox
  import opened Engine
  import opened Scoring
  import opened Protocol
  import opened BusInvariants
  import opened BusSafety
  import opened BusTermination
  import opened BusScoring

  // --- Pending events that agree ---------------------------------------------------------------------

  /** The engine is subscribed to the row and has not applied it. */
  ghost predicate Live(c: Config, s: State, e: EventId) {
    Wants(c, s, Pair(e, PRIORITY_RECALCULATOR)) && Pair(e, PRIORITY_RECALCULATOR) !in s.claims
  }

  /** Applying the row may rescore the project: any project for a tick, its own otherwise. */
  predicate Concerns(c: Config, s: State, e: EventId, project: string) {
    && e in s.rows && AppliedAt(s.rows[e].env, c.iso).Ok?
    && (s.rows[e].env.topic == TOPIC_CLOCK_TICKED || ProjectCodeOf(s.rows[e].env) == Ok(project))
  }

  function InstantOf(c: Config, s: State, e: EventId): Instant
    requires e in s.rows && AppliedAt(s.rows[e].env, c.iso).Ok?
  {
    AppliedAt(s.rows[e].env, c.iso).value
  }

  ghost predicate LiveOn(c: Config, s: State, e: EventId, project: string) {
    Live(c, s, e) && Concerns(c, s, e, project)
  }

  predicate SameView(m: Criterion, project: string, a: Instant, b: Instant) {
    View(m, project, a).Some? && View(m, project, b).Some? ==> View(m, project, a) == View(m, project, b)
  }

  /** Any two pending events show the engine a project in the same way. */
  ghost predicate Agreed(c: Config, m: Criterion, s: State) {
    forall e, f, p :: LiveOn(c, s, e, p) && LiveOn(c, s, f, p) ==>
      SameView(m, p, InstantOf(c, s, e), InstantOf(c, s, f))
  }

  /** A row the engine writes shows what its trigger showed. */
  lemma LiveComesFrom(c: Config, s: State, step: Step, f: EventId, p: string) returns (e: EventId)
    requires Enabled(c, s, step) && Autonomous(step) && Inv(c, s) && LiveOn(c, Apply(c, s, step), f, p)
    ensures LiveOn(c, s, e, p) && InstantOf(c, s, e) == InstantOf(c, Apply(c, s, step), f)
    ensures f in s.rows ==> e == f
    ensures f !in s.rows ==> step.Deliver? && step.act.Commit? && e == s.jobs[step.w].delivery.pair.event
  {
    var t := Apply(c, s, step);
    StepKeepsRows(c, s, step);
    ClaimsOnlyGrow(c, s, step);
    if f in s.rows {
      e := f;
    } else {
      e := WrittenComesFrom(c, s, step, f, p);
    }
  }

  lemma ClaimsOnlyGrow(c: Config, s: State, step: Step)
    requires Enabled(c, s, step)
    ensures s.claims <= Apply(c, s, step).claims
  {
    if step.Deliver? && step.act.Commit? {
      JobCommits(c, s, step.w, step.act);
    } else {
      OnlyCommitsWriteTheTrail(c, s, step);
    }
  }

  /** A committing engine's trigger is pending, and its output is one the engine may write. */
  lemma CommitterIsLive(c: Config, s: State, w: Worker, ids: seq<EventId>)
    requires JobEnabled(c, s, w, Commit(ids)) && Inv(c, s) && OnEngine(s, w)
    ensures var e := s.jobs[w].delivery.pair.event;
            Live(c, s, e) && EngineOutput(s.rows[e].env, c.iso, s.jobs[w].phase.out)
  {
    var d := s.jobs[w].delivery;
    assert WellAimed(c, s, d);
    assert Holds(s, w, d.pair);
    assert d.pair == Pair(d.pair.event, PRIORITY_RECALCULATOR);
  }

  lemma WrittenComesFrom(c: Config, s: State, step: Step, f: EventId, p: string) returns (e: EventId)
    requires Enabled(c, s, step) && Autonomous(step) && Inv(c, s)
    requires f !in s.rows && Concerns(c, Apply(c, s, step), f, p)
    ensures step.Deliver? && step.act.Commit? && e == s.jobs[step.w].delivery.pair.event
    ensures LiveOn(c, s, e, p) && InstantOf(c, s, e) == InstantOf(c, Apply(c, s, step), f)
  {
    if step.Drain? {
      DrainWritesNoRow(c, s, step.w, step.move);
    } else {
      JobWritesUnpublishedRows(c, s, step.w, step.act, f);
      e := s.jobs[step.w].delivery.pair.event;
      var i := WrittenRow(c, s, step.w, step.act.ids, f);
      CommitterIsLive(c, s, step.w, step.act.ids);
      DraftConcerns(c, s, e, s.jobs[step.w].phase.out, i, p);
    }
  }

  lemma WrittenRow(c: Config, s: State, w: Worker, ids: seq<EventId>, f: EventId) returns (i: nat)
    requires JobEnabled(c, s, w, Commit(ids)) && OutputsProduced(c, s) && f in ids
    ensures OnEngine(s, w) && i < |ids| == |s.jobs[w].phase.out.drafts|
    ensures var t := JobApply(c, s, w, Commit(ids));
            f in t.rows && t.rows[f] == NewRow(Seal(s.jobs[w].phase.out.drafts[i], f))
  {
    SealedRows(s.jobs[w].phase.out.drafts, ids);
    i :| 0 <= i < |ids| && ids[i] == f;
  }

  /** What the engine announces it announces of a project its trigger concerns, at the same instant. */
  lemma DraftConcerns(c: Config, s: State, e: EventId, out: Output, i: nat, p: string)
    requires e in s.rows && EngineOutput(s.rows[e].env, c.iso, out) && i < |out.drafts|
    requires p == out.drafts[i].entity.id
    ensures Concerns(c, s, e, p) && out.drafts[i].occurredAt == InstantOf(c, s, e)
  {
    assert Announces(s.rows[e].env, out.trail[i], out.drafts[i]);
  }

  lemma StepKeepsAgreed(c: Config, m: Criterion, s: State, step: Step)
    requires Enabled(c, s, step) && Autonomous(step) && Inv(c, s) && Agreed(c, m, s)
    ensures Agreed(c, m, Apply(c, s, step))
  {
    var t := Apply(c, s, step);
    forall e, f, p | LiveOn(c, t, e, p) && LiveOn(c, t, f, p)
      ensures SameView(m, p, InstantOf(c, t, e), InstantOf(c, t, f))
    {
      var a := LiveComesFrom(c, s, step, e, p);
      var b := LiveComesFrom(c, s, step, f, p);
    }
  }

  // --- Transactions opened on older facts ---------------------------------------------------------------

  predicate EngineRan(s: State, w: Worker) {
    OnEngine(s, w) && s.jobs[w].phase.Ran?
  }

  /** The open transaction writes what the facts now say, for every project it announces. */
  ghost predicate Current(c: Config, m: Criterion, x: Scene, w: Worker)
    requires EngineRan(x.bus, w)
  {
    var e := x.bus.jobs[w].delivery.pair.event;
    && w in x.open
    && (forall p :: p in x.open[w] ==> Shows(c, m, x.bus, e, p, x.open[w][p]))
    && Covers(x.bus.jobs[w].phase.out.drafts, x.open[w])
  }

  ghost predicate Shows(c: Config, m: Criterion, s: State, e: EventId, p: string, f: Fingerprint) {
    Concerns(c, s, e, p) && m.fingerprint(p, InstantOf(c, s, e)) == Ok(f)
  }

  predicate Covers(drafts: seq<Draft>, written: Table) {
    forall i :: 0 <= i < |drafts| ==> drafts[i].entity.id in written
  }

  ghost function Outdated(c: Config, m: Criterion, x: Scene): set<Worker> {
    set w | w in x.bus.jobs && EngineRan(x.bus, w) && !Current(c, m, x, w)
  }

  /** Every project rescored is one the event concerns, and its write what the facts say of it. */
  lemma {:induction false} WritesShow(c: Config, m: Criterion, s: State, e: EventId, table: Table,
                                      affected: seq<Affected>, p: string)
    requires e in s.rows && Routable(s.rows[e].env, c.iso) && p in Writes(m, table, affected)
    requires forall a :: a in affected ==> Concerns(c, s, e, a.project) && a.at == InstantOf(c, s, e)
    ensures Shows(c, m, s, e, p, Writes(m, table, affected)[p])
  {
    var front, last := affected[..|affected| - 1], affected[|affected| - 1];
    assert last in affected;
    if p !in Written(m, table, last.project, last.at) {
      WritesShow(c, m, s, e, table, front, p);
    }
  }

  /** Whatever is news is written. */
  lemma {:induction false} NewsIsWritten(m: Criterion, table: Table, affected: seq<Affected>)
    ensures forall n :: n in News(affected, ScoresOf(m, table)) ==> n.0.project in Writes(m, table, affected)
  {
    if affected != [] {
      NewsIsWritten(m, table, affected[..|affected| - 1]);
    }
  }

  lemma AffectedIsConcerned(c: Config, s: State, e: EventId, affected: seq<Affected>)
    requires e in s.rows && Affects(s.rows[e].env, c.iso, affected)
    ensures forall a :: a in affected ==> Concerns(c, s, e, a.project) && a.at == InstantOf(c, s, e)
  {
  }

  lemma RunIsCurrent(c: Config, m: Criterion, x: Scene, a: Act)
    requires Can(c, m, x, a) && RunsEngine(x.bus, a.step)
    ensures var y := Next(c, m, x, a); EngineRan(y.bus, a.step.w) && Current(c, m, y, a.step.w)
  {
    var y, w := Next(c, m, x, a), a.step.w;
    var e := x.bus.jobs[w].delivery.pair.event;
    PhaseMoves(c, x.bus, w, a.step.act);
    JobMoves(c, x.bus, w, a.step.act, w);
    JobWrites(c, x.bus, w, a.step.act);
    AffectedIsConcerned(c, x.bus, e, a.affected);
    forall p | p in y.open[w] ensures Shows(c, m, y.bus, e, p, y.open[w][p]) {
      WritesShow(c, m, x.bus, e, x.scores, a.affected, p);
    }
    NewsIsWritten(m, x.scores, a.affected);
    NewsIsCovered(m, x.scores, EnvelopeAt(x.bus, w), a.affected);
  }

  lemma NewsIsCovered(m: Criterion, table: Table, env: Envelope, affected: seq<Affected>)
    ensures Covers(AnnouncementsOf(env, News(affected, ScoresOf(m, table))).drafts, Writes(m, table, affected))
  {
    var news := News(affected, ScoresOf(m, table));
    NewsIsWritten(m, table, affected);
    EachIsAnnounced(env, news);
    forall i | 0 <= i < |news| ensures AnnouncementsOf(env, news).drafts[i].entity.id in Writes(m, table, affected) {
      assert news[i] in news;
    }
  }

  /** Whoever has run and not committed ran before this step, or runs in it on the facts as they are. */
  lemma RanBefore(c: Config, m: Criterion, x: Scene, a: Act, w: Worker)
    requires Can(c, m, x, a) && EngineRan(Next(c, m, x, a).bus, w)
    ensures (RunsEngine(x.bus, a.step) && w == a.step.w)
            || (EngineRan(x.bus, w) && Next(c, m, x, a).bus.jobs[w] == x.bus.jobs[w]
                && !(a.step.Deliver? && a.step.w == w))
  {
    if a.step.Deliver? {
      JobMoves(c, x.bus, a.step.w, a.step.act, w);
      if w == a.step.w && !a.step.act.Take? && !a.step.act.Ack? {
        PhaseMoves(c, x.bus, w, a.step.act);
      }
    } else {
      DrainLeaves(c, x.bus, a.step.w, a.step.move);
    }
  }

  lemma OutdatedShrinks(c: Config, m: Criterion, x: Scene, a: Act)
    requires Can(c, m, x, a)
    ensures Outdated(c, m, Next(c, m, x, a)) <= Outdated(c, m, x)
    ensures CommitsEngine(x.bus, a.step) ==> a.step.w !in Outdated(c, m, Next(c, m, x, a))
  {
    var y := Next(c, m, x, a);
    StepKeepsRows(c, x.bus, a.step);
    forall w | w in Outdated(c, m, y)
      ensures w in Outdated(c, m, x) && !(CommitsEngine(x.bus, a.step) && w == a.step.w)
    {
      RanBefore(c, m, x, a, w);
      if RunsEngine(x.bus, a.step) && w == a.step.w {
        RunIsCurrent(c, m, x, a);
      } else {
        CurrentStays(c, m, x, y, w);
      }
    }
  }

  lemma CurrentStays(c: Config, m: Criterion, x: Scene, y: Scene, w: Worker)
    requires EngineRan(x.bus, w) && EngineRan(y.bus, w) && y.bus.jobs[w] == x.bus.jobs[w]
    requires w in x.open ==> w in y.open && y.open[w] == x.open[w]
    requires RowsPersist(x.bus, y.bus)
    ensures Current(c, m, x, w) ==> Current(c, m, y, w)
  {
  }

  // --- Events that may still be news ---------------------------------------------------------------------

  /** A worker has run the engine on the row with news, and not committed. */
  ghost predicate NewsOpen(s: State, e: EventId) {
    exists w :: NewsAt(s, w, e)
  }

  predicate NewsAt(s: State, w: Worker, e: EventId) {
    EngineRan(s, w) && s.jobs[w].delivery.pair.event == e && s.jobs[w].phase.out.drafts != []
  }

  /** Applying the row now would be news for its project. */
  predicate Newsworthy(c: Config, m: Criterion, x: Scene, e: EventId) {
    && e in x.bus.rows && AppliedAt(x.bus.rows[e].env, c.iso).Ok? && ProjectCodeOf(x.bus.rows[e].env).Ok?
    && var p := ProjectCodeOf(x.bus.rows[e].env).value;
       View(m, p, InstantOf(c, x.bus, e)).Some? && !Known(m, x.scores, p, InstantOf(c, x.bus, e))
  }

  ghost predicate Hot(c: Config, m: Criterion, x: Scene, e: EventId) {
    && Live(c, x.bus, e)
    && (x.bus.rows[e].env.topic == TOPIC_CLOCK_TICKED || NewsOpen(x.bus, e) || Newsworthy(c, m, x, e))
  }

  ghost function HotSet(c: Config, m: Criterion, x: Scene): set<EventId> {
    set e | e in x.bus.rows && Hot(c, m, x, e)
  }

  /** News is opened only where there was some. */
  lemma NewsWasHot(c: Config, m: Criterion, x: Scene, a: Act, e: EventId)
    requires Can(c, m, x, a) && Inv(c, x.bus) && e in x.bus.rows && Live(c, Next(c, m, x, a).bus, e)
    requires NewsOpen(Next(c, m, x, a).bus, e)
    ensures Hot(c, m, x, e)
  {
    var y := Next(c, m, x, a);
    StepKeepsRows(c, x.bus, a.step);
    ClaimsOnlyGrow(c, x.bus, a.step);
    var w :| NewsAt(y.bus, w, e);
    RanBefore(c, m, x, a, w);
    if RunsEngine(x.bus, a.step) && w == a.step.w {
      PhaseMoves(c, x.bus, w, a.step.act);
      JobMoves(c, x.bus, w, a.step.act, w);
      RunWithNews(c, m, x, a);
    } else {
      assert NewsAt(x.bus, w, e);
    }
  }

  lemma RunWithNews(c: Config, m: Criterion, x: Scene, a: Act)
    requires Can(c, m, x, a) && RunsEngine(x.bus, a.step) && a.step.act.out.drafts != []
    ensures var e := x.bus.jobs[a.step.w].delivery.pair.event;
            x.bus.rows[e].env.topic == TOPIC_CLOCK_TICKED || Newsworthy(c, m, x, e)
  {
    var env := EnvelopeAt(x.bus, a.step.w);
    if env.topic != TOPIC_CLOCK_TICKED {
      OneProjectNews(m, x.scores, env, c.iso, a.affected);
    }
  }

  lemma OneProjectNews(m: Criterion, table: Table, env: Envelope, iso: string -> IsoReading, affected: seq<Affected>)
    requires Affects(env, iso, affected) && env.topic != TOPIC_CLOCK_TICKED
    requires AnnouncementsOf(env, News(affected, ScoresOf(m, table))).drafts != []
    ensures var p := ProjectCodeOf(env).value;
            View(m, p, env.occurredAt).Some? && !Known(m, table, p, env.occurredAt)
  {
    var scores, only := ScoresOf(m, table), affected[0];
    EachIsAnnounced(env, News(affected, scores));
    OneIsNews(only, scores);
    assert affected == [only];
    ChangedExactlyWhen(m, table, only.project, only.at);
  }

  lemma OneIsNews(only: Affected, scores: Scores)
    ensures News([only], scores) != [] ==>
              scores(only.project, only.at).Ok? && scores(only.project, only.at).value.changed
  {
    assert [only][..0] == [] && News([], scores) == [];
  }

  /** The act commits what the engine made of older facts. */
  ghost predicate CommitsOutdated(c: Config, m: Criterion, x: Scene, a: Act) {
    CommitsEngine(x.bus, a.step) && a.step.w in Outdated(c, m, x)
  }

  lemma CommitterIsCurrent(c: Config, m: Criterion, x: Scene, a: Act)
    requires Can(c, m, x, a) && CommitsEngine(x.bus, a.step) && !CommitsOutdated(c, m, x, a)
    ensures EngineRan(x.bus, a.step.w) && Current(c, m, x, a.step.w) && a.step.w in x.open
    ensures Next(c, m, x, a).scores == x.scores + x.open[a.step.w]
  {
  }

  /** A row the engine writes is no news any more: the same transaction stores its score. */
  lemma WrittenIsCold(c: Config, m: Criterion, x: Scene, a: Act, f: EventId)
    requires Can(c, m, x, a) && Inv(c, x.bus) && !CommitsOutdated(c, m, x, a)
    requires f !in x.bus.rows && f in Next(c, m, x, a).bus.rows
    ensures !Hot(c, m, Next(c, m, x, a), f)
  {
    var y := Next(c, m, x, a);
    if a.step.Drain? {
      DrainWritesNoRow(c, x.bus, a.step.w, a.step.move);
    } else {
      JobWritesUnpublishedRows(c, x.bus, a.step.w, a.step.act, f);
      var i := WrittenRow(c, x.bus, a.step.w, a.step.act.ids, f);
      CommitterIsCurrent(c, m, x, a);
      WrittenIsNotNews(c, m, x, a, f, i);
      forall w ensures !NewsAt(y.bus, w, f) {
        JobMoves(c, x.bus, a.step.w, a.step.act, w);
        assert w in x.bus.jobs ==> WellAimed(c, x.bus, x.bus.jobs[w].delivery);
      }
    }
  }

  lemma WrittenIsNotNews(c: Config, m: Criterion, x: Scene, a: Act, f: EventId, i: nat)
    requires Can(c, m, x, a) && Inv(c, x.bus) && CommitsEngine(x.bus, a.step) && f !in x.bus.rows
    requires EngineRan(x.bus, a.step.w) && Current(c, m, x, a.step.w) && i < |x.bus.jobs[a.step.w].phase.out.drafts|
    requires var y := Next(c, m, x, a);
             && y.scores == x.scores + x.open[a.step.w] && f in y.bus.rows
             && y.bus.rows[f] == NewRow(Seal(x.bus.jobs[a.step.w].phase.out.drafts[i], f))
    ensures !Newsworthy(c, m, Next(c, m, x, a), f)
    ensures Next(c, m, x, a).bus.rows[f].env.topic != TOPIC_CLOCK_TICKED
  {
    var w := a.step.w;
    var e, out := x.bus.jobs[w].delivery.pair.event, x.bus.jobs[w].phase.out;
    var p := out.drafts[i].entity.id;
    CommitterIsLive(c, x.bus, w, a.step.act.ids);
    DraftConcerns(c, x.bus, e, out, i, p);
    assert Announces(x.bus.rows[e].env, out.trail[i], out.drafts[i]);
    assert Shows(c, m, x.bus, e, p, x.open[w][p]);
  }

  /** What a current transaction commits is what every pending event on the project shows. */
  lemma CommitMakesKnown(c: Config, m: Criterion, x: Scene, a: Act, e: EventId, p: string)
    requires Can(c, m, x, a) && Inv(c, x.bus) && Agreed(c, m, x.bus)
    requires CommitsEngine(x.bus, a.step) && EngineRan(x.bus, a.step.w) && Current(c, m, x, a.step.w)
    requires LiveOn(c, x.bus, e, p) && p in x.open[a.step.w] && View(m, p, InstantOf(c, x.bus, e)).Some?
    ensures Known(m, x.scores + x.open[a.step.w], p, InstantOf(c, x.bus, e))
  {
    var w := a.step.w;
    var d := x.bus.jobs[w].delivery.pair.event;
    CommitterIsLive(c, x.bus, w, a.step.act.ids);
    assert Shows(c, m, x.bus, d, p, x.open[w][p]);
    assert LiveOn(c, x.bus, d, p);
  }

  /** News does not appear where there was none. */
  lemma NewsworthyBefore(c: Config, m: Criterion, x: Scene, a: Act, e: EventId)
    requires Can(c, m, x, a) && Inv(c, x.bus) && Agreed(c, m, x.bus) && !CommitsOutdated(c, m, x, a)
    requires e in x.bus.rows && Live(c, x.bus, e) && Newsworthy(c, m, Next(c, m, x, a), e)
    ensures Newsworthy(c, m, x, e)
  {
    var y := Next(c, m, x, a);
    StepKeepsRows(c, x.bus, a.step);
    var p := ProjectCodeOf(x.bus.rows[e].env).value;
    if CommitsEngine(x.bus, a.step) {
      CommitterIsCurrent(c, m, x, a);
      assert LiveOn(c, x.bus, e, p);
      if p in x.open[a.step.w] {
        CommitMakesKnown(c, m, x, a, e, p);
      }
    }
  }

  lemma HotBefore(c: Config, m: Criterion, x: Scene, a: Act, e: EventId)
    requires Can(c, m, x, a) && Inv(c, x.bus) && Agreed(c, m, x.bus) && !CommitsOutdated(c, m, x, a)
    requires e in Next(c, m, x, a).bus.rows && Hot(c, m, Next(c, m, x, a), e)
    ensures e in x.bus.rows && Hot(c, m, x, e)
  {
    var y := Next(c, m, x, a);
    StepKeepsRows(c, x.bus, a.step);
    ClaimsOnlyGrow(c, x.bus, a.step);
    if e !in x.bus.rows {
      WrittenIsCold(c, m, x, a, e);
    } else if NewsOpen(y.bus, e) {
      NewsWasHot(c, m, x, a, e);
    } else if y.bus.rows[e].env.topic != TOPIC_CLOCK_TICKED {
      NewsworthyBefore(c, m, x, a, e);
    }
  }

  /** Announcing takes the trigger out of the events that may still be news, and puts none in. */
  lemma HotShrinks(c: Config, m: Criterion, x: Scene, a: Act)
    requires Can(c, m, x, a) && Inv(c, x.bus) && Agreed(c, m, x.bus) && !CommitsOutdated(c, m, x, a)
    ensures HotSet(c, m, Next(c, m, x, a)) <= HotSet(c, m, x)
    ensures CommitsEngine(x.bus, a.step) && x.bus.jobs[a.step.w].phase.out.drafts != [] ==>
              HotSet(c, m, Next(c, m, x, a)) < HotSet(c, m, x)
  {
    var y := Next(c, m, x, a);
    forall e | e in HotSet(c, m, y) ensures e in HotSet(c, m, x) {
      HotBefore(c, m, x, a, e);
    }
    if CommitsEngine(x.bus, a.step) && x.bus.jobs[a.step.w].phase.out.drafts != [] {
      CommitterCools(c, m, x, a);
    }
  }

  lemma CommitterCools(c: Config, m: Criterion, x: Scene, a: Act)
    requires Can(c, m, x, a) && Inv(c, x.bus)
    requires CommitsEngine(x.bus, a.step) && x.bus.jobs[a.step.w].phase.out.drafts != []
    ensures var e := x.bus.jobs[a.step.w].delivery.pair.event;
            e in HotSet(c, m, x) && e !in HotSet(c, m, Next(c, m, x, a))
  {
    var e := x.bus.jobs[a.step.w].delivery.pair.event;
    CommitterIsLive(c, x.bus, a.step.w, a.step.act.ids);
    JobCommits(c, x.bus, a.step.w, a.step.act);
    assert x.bus.jobs[a.step.w].delivery.pair == Pair(e, PRIORITY_RECALCULATOR);
    assert NewsAt(x.bus, a.step.w, e);
  }

  // --- The measure ---------------------------------------------------------------------------------------

  /** All rows in one class. */
  ghost const EVERYTHING: Class := iset e: EventId | true

  lemma SilentCommitLowers(c: Config, s: State, w: Worker, ids: seq<EventId>)
    requires JobEnabled(c, s, w, Commit(ids)) && DeliveriesAimed(c, s) && s.jobs[w].phase.out.drafts == []
    ensures Lower(c, EVERYTHING, s, JobApply(c, s, w, Commit(ids)))
  {
    SilentCommitRows(c, s, w, ids);
    JobWrites(c, s, w, Commit(ids));
    DeliveryWork(c, EVERYTHING, true, s, w, Commit(ids));
    DeliveryWork(c, EVERYTHING, false, s, w, Commit(ids));
  }

  lemma SilentCommitRows(c: Config, s: State, w: Worker, ids: seq<EventId>)
    requires JobEnabled(c, s, w, Commit(ids)) && s.jobs[w].phase.out.drafts == []
    ensures JobApply(c, s, w, Commit(ids)).rows == s.rows
  {
    assert SealAll([], []) == map[];
  }

  /** A step that announces nothing leaves less work. */
  lemma SilentStepLowers(c: Config, s: State, step: Step)
    requires Enabled(c, s, step) && Autonomous(step) && Inv(c, s) && PositiveLimits(c, s)
    requires !(CommitsEngine(s, step) && s.jobs[step.w].phase.out.drafts != [])
    ensures Lower(c, EVERYTHING, s, Apply(c, s, step))
  {
    if step.Drain? {
      DrainLowers(c, EVERYTHING, s, step.w, step.move);
    } else if step.act.Commit? {
      SilentCommitLowers(c, s, step.w, step.act.ids);
    } else if step.act.Kick? {
      KickLowers(c, EVERYTHING, s, step.w, step.act.reached);
    } else {
      PlainDeliveryLowers(c, EVERYTHING, s, step.w, step.act);
    }
  }

  lemma {:induction false} Dwindle(c: Config, m: Criterion, run: nat -> Scene, acts: nat -> Act, n: nat)
    returns (stop: nat)
    requires Inv(c, run(n).bus) && PositiveLimits(c, run(n).bus) && Agreed(c, m, run(n).bus)
    ensures !Unfolds(c, m, run, acts, stop)
    decreases |Outdated(c, m, run(n))|, |HotSet(c, m, run(n))|, Work(c, EVERYTHING, true, run(n).bus),
              Work(c, EVERYTHING, false, run(n).bus), Upkeep(run(n).bus)
  {
    if Unfolds(c, m, run, acts, n) {
      var x, a := run(n), acts(n);
      StepKeepsInv(c, x.bus, a.step);
      StepKeepsLimits(c, x.bus, a.step);
      StepKeepsAgreed(c, m, x.bus, a.step);
      Dwindles(c, m, x, a);
      stop := Dwindle(c, m, run, acts, n + 1);
    } else {
      stop := n;
    }
  }

  /** Transactions on older facts, then events that may be news, then work. */
  lemma Dwindles(c: Config, m: Criterion, x: Scene, a: Act)
    requires Can(c, m, x, a) && Inv(c, x.bus) && PositiveLimits(c, x.bus) && Agreed(c, m, x.bus)
    ensures var y := Next(c, m, x, a);
            || |Outdated(c, m, y)| < |Outdated(c, m, x)|
            || (|Outdated(c, m, y)| == |Outdated(c, m, x)| && |HotSet(c, m, y)| < |HotSet(c, m, x)|)
            || (|Outdated(c, m, y)| == |Outdated(c, m, x)| && |HotSet(c, m, y)| == |HotSet(c, m, x)|
                && Lower(c, EVERYTHING, x.bus, y.bus))
  {
    var y := Next(c, m, x, a);
    OutdatedShrinks(c, m, x, a);
    SmallerSet(Outdated(c, m, y), Outdated(c, m, x));
    if !CommitsOutdated(c, m, x, a) {
      HotShrinks(c, m, x, a);
      SmallerSet(HotSet(c, m, y), HotSet(c, m, x));
      if !(CommitsEngine(x.bus, a.step) && x.bus.jobs[a.step.w].phase.out.drafts != []) {
        SilentStepLowers(c, x.bus, a.step);
      }
    }
  }

  lemma SmallerSet<T>(small: set<T>, large: set<T>)
    requires small <= large
    ensures |small| <= |large| && (small < large ==> |small| < |large|)
  {
    assert large == small + (large - small);
  }

  /**
    From any state a run can reach, with any scores stored: if the pending events show the engine each
    project in one way, the bus left to itself stops, whatever the engine is subscribed to.
  */
  lemma AgreedCascadeSettles(c: Config, m: Criterion, history: seq<Step>, run: nat -> Scene, acts: nat -> Act)
    requires c.batchSize > 0 && GoesOnFrom(c, history, run) && Agreed(c, m, run(0).bus)
    ensures Settles(c, m, run, acts)
  {
    EmptyIsGood(c);
    RunKeepsInv(c, EMPTY, history);
    RunKeepsLimits(c, EMPTY, history);
    var stop := Dwindle(c, m, run, acts, 0);
  }

  /** One pending event agrees with itself: a lone announcement, or a lone tick, dies out. */
  lemma LoneEventDiesOut(c: Config, m: Criterion, history: seq<Step>, run: nat -> Scene, acts: nat -> Act,
                         only: EventId)
    requires c.batchSize > 0 && GoesOnFrom(c, history, run)
    requires forall e :: Live(c, run(0).bus, e) ==> e == only
    ensures Settles(c, m, run, acts)
  {
    AgreedCascadeSettles(c, m, history, run, acts);
  }
}
