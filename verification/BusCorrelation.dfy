/** What belongs to one decision: every row carries the correlation id of the event its chain of causes began with. */
module BusCorrelation {
  import opened Envelopes
  import opened Engine
  import opened Protocol
  import opened BusInvariants
  import opened BusSafety

  ghost predicate Triggered(s: State, e: EventId, trigger: EventId) {
    e in s.rows && e in s.causes && s.causes[e] == trigger
  }

  /** From an event through its trigger, and that one's trigger, to an event nothing triggered. */
  ghost predicate Chain(s: State, path: seq<EventId>) {
    && path != [] && path[|path| - 1] in s.rows && path[|path| - 1] !in s.causes
    && forall i :: 0 <= i < |path| - 1 ==> Triggered(s, path[i], path[i + 1])
  }

  /** A row carries its trigger's correlation id. */
  ghost predicate CausesCorrelate(s: State) {
    forall e :: e in s.causes ==>
      && e in s.rows && s.causes[e] in s.rows
      && s.rows[e].env.correlationId == s.rows[s.causes[e]].env.correlationId
  }

  /** Each row the engine wrote carries its trigger's, because the record beside it does. */
  lemma AgreementCorrelates(s: State)
    requires TrailAgrees(s)
    ensures CausesCorrelate(s)
  {
    forall e | e in s.causes
      ensures e in s.rows && s.causes[e] in s.rows
              && s.rows[e].env.correlationId == s.rows[s.causes[e]].env.correlationId
    {
      assert Explained(s, e);
      var i :| Companion(s, i, e);
      assert TriggerOf(s.trail[i]).Some?;
    }
  }

  lemma {:induction false} ChainCorrelates(s: State, path: seq<EventId>)
    requires CausesCorrelate(s) && Chain(s, path)
    ensures path[0] in s.rows
    ensures s.rows[path[0]].env.correlationId == s.rows[path[|path| - 1]].env.correlationId
  {
    if |path| > 1 {
      var rest := path[1..];
      forall i | 0 <= i < |rest| - 1 ensures Triggered(s, rest[i], rest[i + 1]) {
        assert rest[i] == path[i + 1] && rest[i + 1] == path[i + 2];
      }
      ChainCorrelates(s, rest);
    }
  }

  // --- Every chain ends ------------------------------------------------------------------------------

  ghost predicate HasRoot(s: State, e: EventId) {
    exists path :: Chain(s, path) && path[0] == e
  }

  /** Triggers stay what they were, and an event without one stays without one. */
  ghost predicate CausesGrow(s: State, t: State) {
    && RowsPersist(s, t)
    && (forall e :: e in s.causes ==> e in t.causes && t.causes[e] == s.causes[e])
    && forall e :: e in s.rows && e !in s.causes ==> e !in t.causes
  }

  lemma StepGrowsCauses(c: Config, s: State, step: Step)
    requires Enabled(c, s, step) && CausesCorrelate(s)
    ensures CausesGrow(s, Apply(c, s, step))
  {
    StepKeepsRows(c, s, step);
    if !(step.Deliver? && step.act.Commit?) {
      OnlyCommitsWriteTheTrail(c, s, step);
    }
  }

  lemma ChainStays(s: State, t: State, path: seq<EventId>)
    requires CausesGrow(s, t) && Chain(s, path)
    ensures Chain(t, path)
  {
  }

  /** A new row is the start of a chain of its own or goes on its trigger's. */
  lemma NewRows(c: Config, s: State, step: Step, e: EventId)
    requires Enabled(c, s, step) && e in Apply(c, s, step).rows && e !in s.rows
    requires CausesCorrelate(s) && OutputsProduced(c, s)
    ensures var t := Apply(c, s, step);
            if step.Produce? then e == step.id && e !in t.causes
            else e in t.causes && t.causes[e] in s.rows
  {
    if step.Deliver? && step.act.Commit? {
      SealedRows(s.jobs[step.w].phase.out.drafts, step.act.ids);
    } else if step.Deliver? {
      JobWrites(c, s, step.w, step.act);
    } else if step.Drain? {
      DrainWritesNoRow(c, s, step.w, step.move);
    } else {
    }
  }

  lemma ChainGrows(s: State, e: EventId, path: seq<EventId>)
    requires Chain(s, path) && Triggered(s, e, path[0])
    ensures Chain(s, [e] + path)
  {
    var longer := [e] + path;
    forall i | 0 <= i < |longer| - 1 ensures Triggered(s, longer[i], longer[i + 1]) {
      assert i > 0 ==> longer[i] == path[i - 1] && longer[i + 1] == path[i];
    }
  }

  lemma RootStays(s: State, t: State, e: EventId)
    requires CausesGrow(s, t) && HasRoot(s, e)
    ensures HasRoot(t, e)
  {
    var path :| Chain(s, path) && path[0] == e;
    ChainStays(s, t, path);
  }

  lemma RootGrows(s: State, e: EventId, trigger: EventId)
    requires HasRoot(s, trigger) && Triggered(s, e, trigger)
    ensures HasRoot(s, e)
  {
    var path :| Chain(s, path) && path[0] == trigger;
    ChainGrows(s, e, path);
    assert ([e] + path)[0] == e;
  }

  lemma RootKept(s: State, t: State, e: EventId)
    requires CausesGrow(s, t) && e in t.rows
    requires forall f :: f in s.rows ==> HasRoot(s, f)
    requires e !in s.rows && e in t.causes ==> t.causes[e] in s.rows
    ensures HasRoot(t, e)
  {
    if e in s.rows {
      RootStays(s, t, e);
    } else if e in t.causes {
      RootStays(s, t, t.causes[e]);
      RootGrows(t, e, t.causes[e]);
    } else {
      assert Chain(t, [e]) && [e][0] == e;
    }
  }

  lemma StepKeepsRoots(c: Config, s: State, step: Step)
    requires Enabled(c, s, step) && CausesCorrelate(s) && OutputsProduced(c, s)
    requires forall e :: e in s.rows ==> HasRoot(s, e)
    ensures forall e :: e in Apply(c, s, step).rows ==> HasRoot(Apply(c, s, step), e)
  {
    StepGrowsCauses(c, s, step);
    forall e | e in Apply(c, s, step).rows ensures HasRoot(Apply(c, s, step), e) {
      if e !in s.rows {
        NewRows(c, s, step, e);
      }
      RootKept(s, Apply(c, s, step), e);
    }
  }

  lemma {:induction false} RunKeepsRoots(c: Config, s: State, steps: seq<Step>)
    requires Legal(c, s, steps) && Inv(c, s) && forall e :: e in s.rows ==> HasRoot(s, e)
    ensures forall e :: e in Final(c, s, steps).rows ==> HasRoot(Final(c, s, steps), e)
    decreases |steps|
  {
    if steps != [] {
      AgreementCorrelates(s);
      StepKeepsRoots(c, s, steps[0]);
      StepKeepsInv(c, s, steps[0]);
      RunKeepsRoots(c, Apply(c, s, steps[0]), steps[1..]);
    }
  }

  // --- Where a decision starts -------------------------------------------------------------------------

  /** Some step of the run produced the event from a draft that says so. */
  ghost predicate Started(steps: seq<Step>, e: EventId, env: Envelope) {
    exists i :: 0 <= i < |steps| && steps[i].Produce? && steps[i].id == e && Carries(env, steps[i].draft, e)
  }

  lemma StartedLater(steps: seq<Step>, e: EventId, env: Envelope)
    requires steps != [] && Started(steps[1..], e, env)
    ensures Started(steps, e, env)
  {
    var i :| 0 <= i < |steps[1..]| && steps[1..][i].Produce? && steps[1..][i].id == e
             && Carries(env, steps[1..][i].draft, e);
    assert steps[i + 1] == steps[1..][i];
  }

  /** An event without a trigger that a step adds is produced by it. */
  lemma RootOfStep(c: Config, s: State, step: Step, e: EventId)
    requires Enabled(c, s, step) && CausesCorrelate(s) && OutputsProduced(c, s)
    requires e in Apply(c, s, step).rows && e !in Apply(c, s, step).causes
    ensures var env := Apply(c, s, step).rows[e].env;
            if e in s.rows then s.rows[e].env == env
            else step.Produce? && step.id == e && Carries(env, step.draft, e)
  {
    StepGrowsCauses(c, s, step);
    if e !in s.rows {
      NewRows(c, s, step, e);
    }
  }

  /** An event without a trigger was there before the run or was produced in it. */
  lemma {:induction false} RootsAreProduced(c: Config, s: State, steps: seq<Step>, e: EventId)
    requires Legal(c, s, steps) && Inv(c, s)
    requires e in Final(c, s, steps).rows && e !in Final(c, s, steps).causes
    ensures var env := Final(c, s, steps).rows[e].env;
            (e in s.rows && s.rows[e].env == env) || Started(steps, e, env)
    decreases |steps|
  {
    if steps != [] {
      var t, env := Apply(c, s, steps[0]), Final(c, s, steps).rows[e].env;
      StepKeepsInv(c, s, steps[0]);
      RootsAreProduced(c, t, steps[1..], e);
      if e in t.rows && t.rows[e].env == env {
        RunGrowsCauses(c, t, steps[1..]);
        AgreementCorrelates(s);
        RootOfStep(c, s, steps[0], e);
      } else {
        StartedLater(steps, e, env);
      }
    }
  }

  lemma {:induction false} RunGrowsCauses(c: Config, s: State, steps: seq<Step>)
    requires Legal(c, s, steps) && Inv(c, s)
    ensures CausesGrow(s, Final(c, s, steps))
    decreases |steps|
  {
    if steps != [] {
      AgreementCorrelates(s);
      StepKeepsInv(c, s, steps[0]);
      StepGrowsCauses(c, s, steps[0]);
      RunGrowsCauses(c, Apply(c, s, steps[0]), steps[1..]);
    }
  }

  /** Who began the decision: the caller's correlation id, or the event's own id when it gave none. */
  ghost predicate Begins(steps: seq<Step>, root: EventId, correlation: EventId) {
    exists i :: 0 <= i < |steps| && steps[i].Produce? && steps[i].id == root
                && if steps[i].draft.correlationId.Some? then correlation == steps[i].draft.correlationId.value
                   else correlation == root
  }

  lemma StartedBegins(steps: seq<Step>, root: EventId, env: Envelope)
    requires Started(steps, root, env)
    ensures Begins(steps, root, env.correlationId)
  {
    var i :| 0 <= i < |steps| && steps[i].Produce? && steps[i].id == root && Carries(env, steps[i].draft, root);
  }

  lemma ChainBegins(c: Config, steps: seq<Step>, path: seq<EventId>)
    requires Legal(c, EMPTY, steps) && Chain(Final(c, EMPTY, steps), path)
    ensures path[0] in Final(c, EMPTY, steps).rows
    ensures Begins(steps, path[|path| - 1], Final(c, EMPTY, steps).rows[path[0]].env.correlationId)
  {
    var s, root := Final(c, EMPTY, steps), path[|path| - 1];
    EmptyIsGood(c);
    RunKeepsInv(c, EMPTY, steps);
    AgreementCorrelates(s);
    ChainCorrelates(s, path);
    RootsAreProduced(c, EMPTY, steps, root);
    StartedBegins(steps, root, s.rows[root].env);
  }

  /**
    One decision, one correlation id: in every run, the chain of causes of every event leads to an event
    produced in the run, and every event on it carries that one's correlation id, which is the one its
    producer gave or, failing that, its own id.
  */
  lemma DecisionsCorrelate(c: Config, steps: seq<Step>, e: EventId)
    requires Legal(c, EMPTY, steps) && e in Final(c, EMPTY, steps).rows
    ensures HasRoot(Final(c, EMPTY, steps), e)
    ensures forall path :: Chain(Final(c, EMPTY, steps), path) && path[0] == e ==>
              Begins(steps, path[|path| - 1], Final(c, EMPTY, steps).rows[e].env.correlationId)
  {
    EmptyIsGood(c);
    RunKeepsInv(c, EMPTY, steps);
    RunKeepsRoots(c, EMPTY, steps);
    forall path | Chain(Final(c, EMPTY, steps), path) && path[0] == e
      ensures Begins(steps, path[|path| - 1], Final(c, EMPTY, steps).rows[e].env.correlationId)
    {
      ChainBegins(c, steps, path);
    }
  }
}
