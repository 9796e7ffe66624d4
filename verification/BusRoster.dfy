/** Roster events on the bus: what the roster writes stays free of projects in every run. */
module BusRoster {
  import opened Catalog
  import opened Envelopes
  import opened Protocol
  import opened BusInvariants
  import opened BusSafety
  import opened BusFailures
  import opened BusTermination
  import opened Roster

  /** Whoever produces a roster event produces it as the roster does. */
  ghost predicate RosterProduces(steps: seq<Step>) {
    forall i :: 0 <= i < |steps| && steps[i].Produce? && steps[i].draft.topic in MEMBER_TOPICS ==>
      IsRosterEvent(steps[i].draft)
  }

  lemma CommitsEmitNoRosterEvent(c: Config, s: State, w: Worker, ids: seq<EventId>, e: EventId)
    requires JobEnabled(c, s, w, Commit(ids)) && OutputsProduced(c, s)
    requires e !in s.rows && e in JobApply(c, s, w, Commit(ids)).rows
    ensures JobApply(c, s, w, Commit(ids)).rows[e].env.topic !in MEMBER_TOPICS
  {
    NewRowsAreEmitted(c, s, Deliver(w, Commit(ids)), e);
  }

  lemma StepKeepsRosterRows(c: Config, s: State, step: Step)
    requires Enabled(c, s, step) && OutputsProduced(c, s) && RosterProduces([step])
    requires RosterRowsCarryNoProject(s)
    ensures RosterRowsCarryNoProject(Apply(c, s, step))
  {
    var t := Apply(c, s, step);
    StepKeepsRows(c, s, step);
    forall e | e in t.rows && e !in s.rows && t.rows[e].env.topic in MEMBER_TOPICS
      ensures t.rows[e].env.entity.kind == ENTITY_MEMBER && PROJECT_CODE_FIELD !in t.rows[e].env.payload
    {
      if step.Deliver? {
        JobWritesUnpublishedRows(c, s, step.w, step.act, e);
        CommitsEmitNoRosterEvent(c, s, step.w, step.act.ids, e);
      } else if step.Drain? {
        DrainWritesNoRow(c, s, step.w, step.move);
      } else {
        assert step.Produce? && e == step.id && [step][0] == step;
      }
    }
  }

  /** Every run whose roster events come from the roster keeps its roster rows free of projects. */
  lemma {:induction false} RosterRunsCarryNoProject(c: Config, s: State, steps: seq<Step>)
    requires Legal(c, s, steps) && OutputsProduced(c, s) && RosterProduces(steps)
    requires RosterRowsCarryNoProject(s)
    ensures RosterRowsCarryNoProject(Final(c, s, steps))
    decreases |steps|
  {
    if steps != [] {
      assert RosterProduces([steps[0]]) && RosterProduces(steps[1..]);
      StepKeepsOutputs(c, s, steps[0]);
      StepKeepsRosterRows(c, s, steps[0]);
      RosterRunsCarryNoProject(c, Apply(c, s, steps[0]), steps[1..]);
    }
  }

  /** So in none of them is a roster event ever applied by the snapshot builder. */
  lemma RosterEventsAreNeverSnapshot(c: Config, steps: seq<Step>, e: EventId)
    requires Legal(c, EMPTY, steps) && RosterProduces(steps)
    requires var s := Final(c, EMPTY, steps); e in s.rows && s.rows[e].env.topic in MEMBER_TOPICS
    ensures Pair(e, SNAPSHOT_BUILDER) !in Final(c, EMPTY, steps).claims
  {
    RosterRunsCarryNoProject(c, EMPTY, steps);
    RosterEventsNeverReachTheSnapshot(c, steps, e);
  }
}
