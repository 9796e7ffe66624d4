/**
  Which deliveries can still be made.  From any reachable state, a delivery that its handler can apply
  has a continuation that applies it, unless nothing concerns its row any more.
*/
module BusRescue {
  import opened Envelopes
  import opened Protocol
  import opened BusInvariants
  import opened BusSafety
  import opened BusFailures
  import opened BusTermination
  import opened BusRecovery

  /** Some continuation ends with the pair applied. */
  ghost predicate Recoverable(c: Config, s: State, p: Pair) {
    exists steps :: Legal(c, s, steps) && p in Final(c, s, steps).claims
  }

  /** What the continuations below need of the state, and every step keeps. */
  ghost predicate Open(c: Config, s: State, p: Pair) {
    && Inv(c, s) && PositiveLimits(c, s) && Acyclic(c)
    && Wants(c, s, p) && Applicable(c, p.handler, s.rows[p.event].env)
  }

  lemma StepKeepsOpen(c: Config, s: State, step: Step, p: Pair)
    requires Enabled(c, s, step) && Open(c, s, p)
    ensures Open(c, Apply(c, s, step), p)
  {
    StepKeepsInv(c, s, step);
    StepKeepsLimits(c, s, step);
    StepKeepsRows(c, s, step);
  }

  lemma RecoveredAfter(c: Config, s: State, step: Step, p: Pair)
    requires Enabled(c, s, step) && Recoverable(c, Apply(c, s, step), p)
    ensures Recoverable(c, s, p)
  {
    var rest :| Legal(c, Apply(c, s, step), rest) && p in Final(c, Apply(c, s, step), rest).claims;
    var steps := [step] + rest;
    assert steps[1..] == rest;
    assert Legal(c, s, steps) && Final(c, s, steps) == Final(c, Apply(c, s, step), rest);
  }

  lemma {:induction false} HealthyRunKeepsComing(c: Config, s: State, steps: seq<Step>, p: Pair)
    requires HealthyRun(c, s, steps) && Legal(c, s, steps) && Open(c, s, p) && Coming(s, p)
    ensures Coming(Final(c, s, steps), p)
    decreases |steps|
  {
    if steps != [] {
      HealthyKeepsComing(c, s, steps[0], p);
      StepKeepsOpen(c, s, steps[0], p);
      HealthyRunKeepsComing(c, Apply(c, s, steps[0]), steps[1..], p);
    }
  }

  lemma Sweeping(c: Config, s: State, p: Pair)
    requires Open(c, s, p) && Unpublished(s, p.event)
    ensures var t := Apply(c, s, Sweep); Open(c, t, p) && Announced(t) && Coming(t, p)
  {
    StepKeepsOpen(c, s, Sweep, p);
    assert c.batchSize in Apply(c, s, Sweep).drainTasks;
  }

  lemma RestApplies(s: State, p: Pair)
    requires Quiet(s) && Announced(s) && Coming(s, p)
    ensures p in s.claims
  {
    QuietLeavesNothingUnpublished(s, p.event);
  }

  lemma UnpublishedIsRecoverable(c: Config, s: State, p: Pair)
    requires Open(c, s, p) && Unpublished(s, p.event)
    ensures Recoverable(c, s, p)
  {
    var t := Apply(c, s, Sweep);
    Sweeping(c, s, p);
    var rest := CanSettle(c, EngineRows(c, t), t);
    HealthyRunKeeps(c, t, rest);
    HealthyRunKeepsComing(c, t, rest, p);
    RestApplies(Final(c, t, rest), p);
    RecoveredAfter(c, s, Sweep, p);
  }

  lemma SelectedIsRecoverable(c: Config, s: State, p: Pair)
    requires Open(c, s, p) && !Locked(s, p.event) && p.event in s.selected
    ensures Recoverable(c, s, p)
  {
    StepKeepsOpen(c, s, Requeue(p.event), p);
    UnpublishedIsRecoverable(c, Apply(c, s, Requeue(p.event)), p);
    RecoveredAfter(c, s, Requeue(p.event), p);
  }

  /** A published row is not locked: claims lock unpublished rows only. */
  lemma LockedIsUnpublished(s: State, e: EventId)
    requires LocksExclusive(s) && Locked(s, e)
    ensures Unpublished(s, e)
  {
    var w :| w in s.drainers && s.drainers[w].Claiming? && e in s.drainers[w].batch;
    assert HoldsLock(s, w, e);
  }

  lemma DeadIsRecoverable(c: Config, s: State, p: Pair)
    requires Open(c, s, p) && Dead(s, p.event)
    ensures Recoverable(c, s, p)
  {
    if Unpublished(s, p.event) {
      UnpublishedIsRecoverable(c, s, p);
    } else {
      var step := Select({p.event});
      Selecting(c, s, p.event);
      StepKeepsOpen(c, s, step, p);
      if Locked(Apply(c, s, step), p.event) { LockedIsUnpublished(Apply(c, s, step), p.event); }
      SelectedIsRecoverable(c, Apply(c, s, step), p);
      RecoveredAfter(c, s, step, p);
    }
  }

  // --- Failing a delivery until its row is dead-lettered --------------------------------------------

  lemma Recording(c: Config, s: State, w: Worker, p: Pair)
    requires Open(c, s, p) && JobEnabled(c, s, w, Record("", 0)) && s.jobs[w].delivery.pair.event == p.event
    ensures var d, t := s.jobs[w].delivery, Apply(c, s, Deliver(w, Record("", 0)));
            && Open(c, t, p)
            && if d.attempt >= c.maxAttempts then Dead(t, p.event) else w in t.jobs && t.jobs[w] == Job(d, Recorded)
  {
    StepKeepsOpen(c, s, Deliver(w, Record("", 0)), p);
  }

  lemma FailedIsRecoverable(c: Config, s: State, w: Worker, p: Pair)
    requires Open(c, s, p) && w in s.jobs && s.jobs[w].delivery.pair.event == p.event && s.jobs[w].phase.RolledBack?
    ensures Recoverable(c, s, p)
    decreases c.maxAttempts - s.jobs[w].delivery.attempt, 2
  {
    if Unpublished(s, p.event) {
      UnpublishedIsRecoverable(c, s, p);
    } else {
      if Locked(s, p.event) { LockedIsUnpublished(s, p.event); }
      var step := Deliver(w, Record("", 0));
      Recording(c, s, w, p);
      if s.jobs[w].delivery.attempt >= c.maxAttempts {
        DeadIsRecoverable(c, Apply(c, s, step), p);
      } else {
        RecordedIsRecoverable(c, Apply(c, s, step), w, p);
      }
      RecoveredAfter(c, s, step, p);
    }
  }

  lemma Retrying(c: Config, s: State, w: Worker)
    requires w in s.jobs && s.jobs[w].phase.Recorded?
    ensures var d, step := s.jobs[w].delivery, Deliver(w, Retry);
            Enabled(c, s, step) && Delivery(d.pair, d.attempt + 1) in Apply(c, s, step).queued
  {
    RetryMoves(c, s, w);
  }

  lemma RecordedIsRecoverable(c: Config, s: State, w: Worker, p: Pair)
    requires Open(c, s, p) && w in s.jobs && s.jobs[w].delivery.pair.event == p.event && s.jobs[w].phase.Recorded?
    ensures Recoverable(c, s, p)
    decreases c.maxAttempts - s.jobs[w].delivery.attempt, 1
  {
    var d := s.jobs[w].delivery;
    Retrying(c, s, w);
    StepKeepsOpen(c, s, Deliver(w, Retry), p);
    QueuedIsRecoverable(c, Apply(c, s, Deliver(w, Retry)), Delivery(d.pair, d.attempt + 1), p);
    RecoveredAfter(c, s, Deliver(w, Retry), p);
  }

  lemma QueuedIsRecoverable(c: Config, s: State, d: Delivery, p: Pair)
    requires Open(c, s, p) && d in s.queued && d.pair.event == p.event
    ensures Recoverable(c, s, p)
    decreases c.maxAttempts - d.attempt, 3
  {
    var bound := AboveAll(s.jobs.Keys);
    assert bound !in s.jobs;
    var take, fail := Deliver(bound, Take(d)), Deliver(bound, Fail);
    StepKeepsOpen(c, s, take, p);
    var t := Apply(c, s, take);
    JobMoves(c, s, bound, take.act, bound);
    StepKeepsOpen(c, t, fail, p);
    JobMoves(c, t, bound, Fail, bound);
    PhaseMoves(c, t, bound, Fail);
    FailedIsRecoverable(c, Apply(c, t, fail), bound, p);
    RecoveredAfter(c, t, fail, p);
    RecoveredAfter(c, s, take, p);
  }

  lemma RunningIsRecoverable(c: Config, s: State, w: Worker, p: Pair)
    requires Open(c, s, p) && w in s.jobs && s.jobs[w].delivery.pair.event == p.event
    ensures Recoverable(c, s, p)
  {
    var crash := Deliver(w, Crash);
    StepKeepsOpen(c, s, crash, p);
    assert s.jobs[w].delivery in Apply(c, s, crash).queued;
    QueuedIsRecoverable(c, Apply(c, s, crash), s.jobs[w].delivery, p);
    RecoveredAfter(c, s, crash, p);
  }

  lemma {:induction false} HookIsRecoverable(c: Config, s: State, w: Worker, q: Pair, p: Pair)
    requires Open(c, s, p) && PendingHook(s, w, q) && q.event == p.event
    ensures Recoverable(c, s, p)
    decreases |s.drainers[w].pending|
  {
    var step := Drain(w, DrainMove.Queue);
    var t := Apply(c, s, step);
    var d := s.drainers[w];
    StepKeepsOpen(c, s, step, p);
    assert t.drainers[w] == d.(pending := d.pending[1..]);
    if d.pending[0] == q {
      assert Delivery(q, 1) in t.queued;
      QueuedIsRecoverable(c, t, Delivery(q, 1), p);
    } else {
      assert PendingHook(t, w, q);
      HookIsRecoverable(c, t, w, q, p);
    }
    RecoveredAfter(c, s, step, p);
  }

  lemma NotAbandonedIsRecoverable(c: Config, s: State, p: Pair)
    requires Open(c, s, p) && !Abandoned(s, p.event)
    ensures Recoverable(c, s, p)
  {
    var e := p.event;
    if Unpublished(s, e) {
      UnpublishedIsRecoverable(c, s, p);
    } else if Dead(s, e) {
      DeadIsRecoverable(c, s, p);
    } else if e in s.selected {
      if Locked(s, e) { LockedIsUnpublished(s, e); }
      SelectedIsRecoverable(c, s, p);
    } else if w, h :| PendingHook(s, w, Pair(e, h)) {
      HookIsRecoverable(c, s, w, Pair(e, h), p);
    } else if d :| d in s.queued && d.pair.event == e {
      QueuedIsRecoverable(c, s, d, p);
    } else {
      var w :| w in s.jobs && s.jobs[w].delivery.pair.event == e;
      RunningIsRecoverable(c, s, w, p);
    }
  }

  lemma {:induction false} RunKeepsRows(c: Config, s: State, steps: seq<Step>)
    requires Legal(c, s, steps)
    ensures RowsPersist(s, Final(c, s, steps))
    decreases |steps|
  {
    if steps != [] {
      StepKeepsRows(c, s, steps[0]);
      RunKeepsRows(c, Apply(c, s, steps[0]), steps[1..]);
    }
  }

  lemma ClaimedNeedsApplicable(c: Config, s: State, steps: seq<Step>, p: Pair)
    requires Legal(c, s, steps) && RunsWereApplicable(c, s) && Wants(c, s, p)
    requires p in Final(c, s, steps).claims
    ensures Applicable(c, p.handler, s.rows[p.event].env)
  {
    RunKeepsRows(c, s, steps);
    ClaimsWereApplicable(c, s, steps);
  }

  /**
    Exactly when a delivery is, or can still be, applied, from any state a run can reach: when its handler
    can apply it and its row is unpublished, dead-lettered or selected, or some hook, message or worker
    still concerns it.
  */
  lemma RecoverableExactlyWhen(c: Config, history: seq<Step>, p: Pair)
    requires Acyclic(c) && c.batchSize > 0 && Legal(c, EMPTY, history)
    requires Wants(c, Final(c, EMPTY, history), p)
    ensures var s := Final(c, EMPTY, history);
            Recoverable(c, s, p) <==>
            p in s.claims || (Applicable(c, p.handler, s.rows[p.event].env) && !Abandoned(s, p.event))
  {
    var s := Final(c, EMPTY, history);
    EmptyIsGood(c);
    RunKeepsInv(c, EMPTY, history);
    RunKeepsLimits(c, EMPTY, history);
    ClaimsWereApplicable(c, EMPTY, history);
    if p in s.claims {
      assert Legal(c, s, []) && Final(c, s, []) == s;
    } else if !Applicable(c, p.handler, s.rows[p.event].env) {
      forall steps | Legal(c, s, steps) ensures p !in Final(c, s, steps).claims {
        if p in Final(c, s, steps).claims { ClaimedNeedsApplicable(c, s, steps, p); }
      }
    } else if Abandoned(s, p.event) {
      forall steps | Legal(c, s, steps) ensures p !in Final(c, s, steps).claims {
        LostForever(c, s, steps, p);
      }
    } else {
      NotAbandonedIsRecoverable(c, s, p);
    }
  }
}
