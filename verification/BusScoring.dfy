/**
  The bus with the scores the engine reads and writes.  A scene is a state of the bus, the stored scores
  and what the open transactions of the engine have written to them; no outside writer is at work, so the
  facts do not change.
*/
module BusScoring {
  import opened Catalog
  import opened Envelopes
  import opened Engine
  import opened Scoring
  import opened Protocol
  import opened BusTermination

  datatype Scene = Scene(bus: State, scores: Table, open: map<Worker, Table>)

  /** A step, and when it runs the engine the projects it rescores. */
  datatype Act = Act(step: Step, affected: seq<Affected>)

  /** The worker is on a delivery to the engine. */
  predicate OnEngine(s: State, w: Worker) {
    w in s.jobs && s.jobs[w].delivery.pair.handler == PRIORITY_RECALCULATOR
  }

  predicate RunsEngine(s: State, step: Step) {
    step.Deliver? && step.act.Run? && OnEngine(s, step.w)
  }

  predicate CommitsEngine(s: State, step: Step) {
    step.Deliver? && step.act.Commit? && OnEngine(s, step.w)
  }

  function EnvelopeAt(s: State, w: Worker): Envelope
    requires w in s.jobs && s.jobs[w].delivery.pair.event in s.rows
  {
    s.rows[s.jobs[w].delivery.pair.event].env
  }

  /** The engine's output is what the recomputations over the stored scores make it. */
  ghost predicate Scored(c: Config, m: Criterion, s: State, table: Table, w: Worker, affected: seq<Affected>,
                         out: Output)
    requires w in s.jobs && s.jobs[w].delivery.pair.event in s.rows
  {
    var env, scores := EnvelopeAt(s, w), ScoresOf(m, table);
    && Affects(env, c.iso, affected) && AllScored(affected, scores)
    && out == AnnouncementsOf(env, News(affected, scores))
  }

  ghost predicate Can(c: Config, m: Criterion, x: Scene, a: Act) {
    && Enabled(c, x.bus, a.step) && Autonomous(a.step)
    && (RunsEngine(x.bus, a.step) ==> Scored(c, m, x.bus, x.scores, a.step.w, a.affected, a.step.act.out))
  }

  function OpenAfter(m: Criterion, x: Scene, a: Act): map<Worker, Table> {
    if RunsEngine(x.bus, a.step) then x.open[a.step.w := Writes(m, x.scores, a.affected)]
    else if a.step.Deliver? then Without(x.open, a.step.w) else x.open
  }

  function ScoresAfter(x: Scene, a: Act): Table {
    if CommitsEngine(x.bus, a.step) && a.step.w in x.open then x.scores + x.open[a.step.w] else x.scores
  }

  ghost function Next(c: Config, m: Criterion, x: Scene, a: Act): Scene
    requires Can(c, m, x, a)
  {
    Scene(Apply(c, x.bus, a.step), ScoresAfter(x, a), OpenAfter(m, x, a))
  }

  // --- Runs ------------------------------------------------------------------------------------------

  /** The bus is left to itself, as far as the run goes. */
  ghost predicate Unfolds(c: Config, m: Criterion, run: nat -> Scene, acts: nat -> Act, n: nat) {
    Can(c, m, run(n), acts(n)) && run(n + 1) == Next(c, m, run(n), acts(n))
  }

  ghost predicate Settles(c: Config, m: Criterion, run: nat -> Scene, acts: nat -> Act) {
    exists n :: !Unfolds(c, m, run, acts, n)
  }

  /** Producers outside the engine do not announce scores. */
  predicate FromOutside(history: seq<Step>) {
    forall i :: 0 <= i < |history| ==>
      !(history[i].Produce? && history[i].draft.topic == TOPIC_PROJECT_PRIORITY_RECALCULATED)
  }

  /** The run goes on from where the history ends, with any scores stored. */
  ghost predicate GoesOnFrom(c: Config, history: seq<Step>, run: nat -> Scene) {
    Legal(c, EMPTY, history) && run(0).bus == Final(c, EMPTY, history)
  }

  /** What the bus alone does in such a run. */
  lemma UnfoldingFollows(c: Config, m: Criterion, run: nat -> Scene, acts: nat -> Act, n: nat)
    requires Unfolds(c, m, run, acts, n)
    ensures Follows(c, (k: nat) => run(k).bus, (k: nat) => acts(k).step, n)
  {
  }
}
