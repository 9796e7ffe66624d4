/** Safety of the bus over every run: no event is lost, no effect is applied twice. */
module BusSafety {
  import opened Prelude
  import opened Catalog
  import opened Envelopes
  import opened Registry
  import opened Protocol
  import opened BusInvariants

  // --- Nothing is lost -------------------------------------------------------------------------

  ghost predicate Queued(s: State, p: Pair) {
    exists a: nat :: Delivery(p, a) in s.queued
  }

  predicate RunningAt(s: State, w: Worker, p: Pair) {
    w in s.jobs && s.jobs[w].delivery.pair == p && !s.jobs[w].phase.Finished? && !s.jobs[w].phase.Committed?
  }

  /** A delivery of the pair is in a pending hook, queued or running. */
  ghost predicate InFlight(s: State, p: Pair) {
    (exists w :: PendingHook(s, w, p)) || Queued(s, p) || exists w :: RunningAt(s, w, p)
  }

  ghost predicate Safe(s: State, p: Pair) {
    Unpublished(s, p.event) || Dead(s, p.event) || p in s.claims || InFlight(s, p)
  }

  /** For every row and every handler subscribed to its topic, the pair is safe. */
  ghost predicate NothingLost(c: Config, s: State) {
    forall p :: Wants(c, s, p) ==> Safe(s, p)
  }

  /** Losing worker `w` loses the only thing that still stood for the pair. */
  ghost predicate Strands(s: State, w: Worker, p: Pair) {
    && PendingHook(s, w, p)
    && !Unpublished(s, p.event) && !Dead(s, p.event) && p !in s.claims
    && (forall v :: PendingHook(s, v, p) ==> v == w)
    && !Queued(s, p)
    && (forall v :: !RunningAt(s, v, p))
  }

  lemma PublishKeepsSafe(c: Config, s: State, w: Worker, at: Instant, p: Pair)
    requires DrainEnabled(c, s, w, Publish(at)) && LocksExclusive(s)
    requires Wants(c, s, p) && Safe(s, p)
    ensures Safe(DrainApply(c, s, w, Publish(at)), p)
  {
    var t := DrainApply(c, s, w, Publish(at));
    DispatchReachesSubscribers(c, s.rows, s.drainers[w].batch, p);
    if p.event in s.drainers[w].batch {
      assert PendingHook(t, w, p);
    } else if exists v :: PendingHook(s, v, p) {
      var v :| PendingHook(s, v, p);
      assert v != w;
      assert PendingHook(t, v, p);
    } else if Queued(s, p) {
      assert Queued(t, p);
    } else if exists v :: RunningAt(s, v, p) {
      var v :| RunningAt(s, v, p);
      assert RunningAt(t, v, p);
    } else {
    }
  }

  lemma QueueKeepsSafe(c: Config, s: State, w: Worker, p: Pair)
    requires DrainEnabled(c, s, w, DrainMove.Queue)
    requires Wants(c, s, p) && Safe(s, p)
    ensures Safe(DrainApply(c, s, w, DrainMove.Queue), p)
  {
    var t := DrainApply(c, s, w, DrainMove.Queue);
    if exists v :: PendingHook(s, v, p) {
      var v :| PendingHook(s, v, p);
      if v == w && s.drainers[w].pending[0] == p {
        assert Delivery(p, 1) in t.queued;
      } else {
        assert PendingHook(t, v, p);
      }
    } else if Queued(s, p) {
      var a: nat :| Delivery(p, a) in s.queued;
      assert Delivery(p, a) in t.queued;
    } else if exists v :: RunningAt(s, v, p) {
      var v :| RunningAt(s, v, p);
      assert RunningAt(t, v, p);
    } else {
    }
  }

  /** A drain move that stops or starts a worker, other than one that strands the pair. */
  lemma OtherDrainKeepsSafe(c: Config, s: State, w: Worker, move: DrainMove, p: Pair)
    requires DrainEnabled(c, s, w, move) && !move.Publish? && !move.Queue?
    requires Safe(s, p) && !(move.Lose? && Strands(s, w, p))
    ensures Safe(DrainApply(c, s, w, move), p)
  {
    var t := DrainApply(c, s, w, move);
    assert t.rows == s.rows && t.claims == s.claims && t.queued == s.queued && t.jobs == s.jobs;
    if Unpublished(s, p.event) || Dead(s, p.event) || p in s.claims {
    } else if Queued(s, p) {
      assert Queued(t, p);
    } else if exists v :: RunningAt(s, v, p) {
      var v :| RunningAt(s, v, p);
      assert RunningAt(t, v, p);
    } else {
      var u :| PendingHook(s, u, p) && (move.Lose? ==> u != w);
      assert PendingHook(t, u, p);
    }
  }

  lemma JobKeepsSafe(c: Config, s: State, w: Worker, act: JobMove, p: Pair)
    requires JobEnabled(c, s, w, act)
    requires Wants(c, s, p) && Safe(s, p)
    ensures Safe(JobApply(c, s, w, act), p)
  {
    var t := JobApply(c, s, w, act);
    JobWrites(c, s, w, act);
    if Unpublished(s, p.event) || Dead(s, p.event) {
      JobKeepsUnpublishedAndDead(c, s, w, act, p.event);
    } else if p in s.claims {
      assert p in t.claims;
    } else if exists v :: PendingHook(s, v, p) {
      var v :| PendingHook(s, v, p);
      assert PendingHook(t, v, p);
    } else if Queued(s, p) {
      QueuedGoesOn(c, s, w, act, p);
    } else {
      var v :| RunningAt(s, v, p);
      if v != w {
        RunningElsewhere(c, s, w, act, v, p);
      } else {
        RunningGoesOn(c, s, w, act, p);
      }
    }
  }

  lemma JobKeepsUnpublishedAndDead(c: Config, s: State, w: Worker, act: JobMove, e: EventId)
    requires JobEnabled(c, s, w, act)
    ensures Unpublished(s, e) ==> Unpublished(JobApply(c, s, w, act), e)
    ensures Dead(s, e) ==> Dead(JobApply(c, s, w, act), e)
    ensures e in s.rows && !Unpublished(s, e) ==> !Unpublished(JobApply(c, s, w, act), e)
  {
    if act.Commit? {
      SealedRows(s.jobs[w].phase.out.drafts, act.ids);
    }
  }

  lemma QueuedGoesOn(c: Config, s: State, w: Worker, act: JobMove, p: Pair)
    requires JobEnabled(c, s, w, act) && Queued(s, p)
    ensures InFlight(JobApply(c, s, w, act), p)
  {
    var t := JobApply(c, s, w, act);
    var a: nat :| Delivery(p, a) in s.queued;
    if act.Take? && act.d == Delivery(p, a) {
      assert RunningAt(t, w, p);
    } else {
      assert Delivery(p, a) in t.queued;
    }
  }

  lemma RunningElsewhere(c: Config, s: State, w: Worker, act: JobMove, v: Worker, p: Pair)
    requires JobEnabled(c, s, w, act) && v != w && RunningAt(s, v, p)
    ensures InFlight(JobApply(c, s, w, act), p)
  {
    assert RunningAt(JobApply(c, s, w, act), v, p);
  }

  /** A running delivery goes on running, is queued again, dead-letters its row or commits its claim. */
  lemma RunningGoesOn(c: Config, s: State, w: Worker, act: JobMove, p: Pair)
    requires JobEnabled(c, s, w, act) && RunningAt(s, w, p)
    ensures Safe(JobApply(c, s, w, act), p)
  {
    var t := JobApply(c, s, w, act);
    if act.Retry? {
      assert Delivery(p, s.jobs[w].delivery.attempt + 1) in t.queued;
    } else if act.Crash? {
      assert Delivery(p, s.jobs[w].delivery.attempt) in t.queued by {
        assert s.jobs[w].delivery == Delivery(p, s.jobs[w].delivery.attempt);
      }
    } else if act.Record? {
      if s.jobs[w].delivery.attempt >= c.maxAttempts {
        assert Dead(t, p.event);
      } else {
        assert RunningAt(t, w, p);
      }
    } else if act.Insert? {
      assert p in t.claims || RunningAt(t, w, p);
    } else if act.Commit? {
      assert p in t.claims;
    } else {
      assert act.Run? || act.Fail?;
      assert RunningAt(t, w, p);
    }
  }

  lemma OutsideKeepsRowSafe(c: Config, s: State, step: Step, e: EventId)
    requires Enabled(c, s, step) && !step.Deliver? && !step.Drain?
    ensures Unpublished(s, e) ==> Unpublished(Apply(c, s, step), e)
    ensures Dead(s, e) ==> Dead(Apply(c, s, step), e) || Unpublished(Apply(c, s, step), e)
  {
    match step
    case Produce(_, _, _) =>
    case Sweep =>
    case Select(_) =>
    case Requeue(_) =>
  }

  lemma SafeCarries(s: State, t: State, p: Pair)
    requires t.drainers == s.drainers && t.jobs == s.jobs && t.queued == s.queued && t.claims == s.claims
    requires Unpublished(s, p.event) ==> Unpublished(t, p.event)
    requires Dead(s, p.event) ==> Dead(t, p.event) || Unpublished(t, p.event)
    requires Safe(s, p)
    ensures Safe(t, p)
  {
    assert forall v :: PendingHook(s, v, p) ==> PendingHook(t, v, p);
    assert forall v :: RunningAt(s, v, p) ==> RunningAt(t, v, p);
    assert Queued(s, p) ==> Queued(t, p);
  }

  /** The steps outside both kinds of worker. */
  lemma OutsideKeepsSafe(c: Config, s: State, step: Step, p: Pair)
    requires Enabled(c, s, step) && !step.Deliver? && !step.Drain?
    requires Safe(s, p)
    ensures Safe(Apply(c, s, step), p)
  {
    OutsideLeaves(c, s, step);
    OutsideKeepsRowSafe(c, s, step, p.event);
    SafeCarries(s, Apply(c, s, step), p);
  }

  lemma LosingStrands(c: Config, s: State, w: Worker, again: bool, p: Pair)
    requires DrainEnabled(c, s, w, Lose(again)) && Strands(s, w, p)
    ensures !Safe(DrainApply(c, s, w, Lose(again)), p)
  {
    var t := DrainApply(c, s, w, Lose(again));
    assert forall v :: PendingHook(t, v, p) ==> PendingHook(s, v, p) && v != w;
    assert forall v :: RunningAt(t, v, p) <==> RunningAt(s, v, p);
    assert t.queued == s.queued;
  }

  /**
    Exactly when a step loses a delivery: never, except where a drain worker is lost after its
    transaction committed and before its hook for the pair ran, with nothing else standing for it.
  */
  lemma LostExactlyWhen(c: Config, s: State, step: Step, p: Pair)
    requires Enabled(c, s, step) && LocksExclusive(s)
    requires Wants(c, s, p) && Safe(s, p)
    ensures Safe(Apply(c, s, step), p) <==> !(step.Drain? && step.move.Lose? && Strands(s, step.w, p))
  {
    if step.Deliver? {
      JobKeepsSafe(c, s, step.w, step.act, p);
    } else if step.Drain? {
      match step.move {
        case Publish(at) => PublishKeepsSafe(c, s, step.w, at, p);
        case Queue => QueueKeepsSafe(c, s, step.w, p);
        case Lose(again) =>
          if Strands(s, step.w, p) {
            LosingStrands(c, s, step.w, again, p);
          } else {
            OtherDrainKeepsSafe(c, s, step.w, step.move, p);
          }
        case _ => OtherDrainKeepsSafe(c, s, step.w, step.move, p);
      }
    } else {
      OutsideKeepsSafe(c, s, step, p);
    }
  }

  /** The step strands some wanted pair. */
  ghost predicate Strand(c: Config, s: State, step: Step) {
    step.Drain? && step.move.Lose? && exists p :: Wants(c, s, p) && Strands(s, step.w, p)
  }

  lemma JobWritesUnpublishedRows(c: Config, s: State, w: Worker, act: JobMove, e: EventId)
    requires JobEnabled(c, s, w, act) && e !in s.rows && e in JobApply(c, s, w, act).rows
    ensures Unpublished(JobApply(c, s, w, act), e) && act.Commit? && e in act.ids
  {
    if act.Commit? {
      SealedRows(s.jobs[w].phase.out.drafts, act.ids);
    }
  }

  lemma OutsideWritesUnpublishedRows(c: Config, s: State, step: Step, e: EventId)
    requires Enabled(c, s, step) && !step.Deliver? && !step.Drain?
    requires e !in s.rows && e in Apply(c, s, step).rows
    ensures Unpublished(Apply(c, s, step), e)
  {
  }

  lemma NewRowsAreUnpublished(c: Config, s: State, step: Step, e: EventId)
    requires Enabled(c, s, step) && e !in s.rows && e in Apply(c, s, step).rows
    ensures Unpublished(Apply(c, s, step), e)
  {
    if step.Deliver? {
      JobWritesUnpublishedRows(c, s, step.w, step.act, e);
    } else if step.Drain? {
      DrainWritesNoRow(c, s, step.w, step.move);
    } else {
      OutsideWritesUnpublishedRows(c, s, step, e);
    }
  }

  lemma StepLosesNothing(c: Config, s: State, step: Step)
    requires Enabled(c, s, step) && LocksExclusive(s) && NothingLost(c, s)
    ensures NothingLost(c, Apply(c, s, step)) <==> !Strand(c, s, step)
  {
    var t := Apply(c, s, step);
    StepKeepsRows(c, s, step);
    WantsPersist(c, s, t);
    if Strand(c, s, step) {
      var p :| Wants(c, s, p) && Strands(s, step.w, p);
      LostExactlyWhen(c, s, step, p);
      assert Wants(c, t, p) && !Safe(t, p);
    } else {
      forall p | Wants(c, t, p) ensures Safe(t, p) {
        if p.event in s.rows {
          assert Wants(c, s, p);
          LostExactlyWhen(c, s, step, p);
        } else {
          NewRowsAreUnpublished(c, s, step, p.event);
        }
      }
    }
  }

  // --- Dispatched once per unpublished period ----------------------------------------------------

  /** Every period in which a row was unpublished has ended in one dispatch, or has not ended. */
  ghost predicate PeriodsBalance(s: State) {
    forall e :: s.dispatches[e] + (if Unpublished(s, e) then 1 else 0) == s.periods[e]
  }

  lemma {:induction false} CountInBatch(batch: seq<EventId>, e: EventId)
    requires NoRepeats(batch)
    ensures multiset(batch)[e] == if e in batch then 1 else 0
  {
    if batch != [] {
      var front, last := batch[..|batch| - 1], batch[|batch| - 1];
      CountInBatch(front, e);
      assert batch == front + [last];
    }
  }

  lemma DrainKeepsBalance(c: Config, s: State, w: Worker, move: DrainMove)
    requires DrainEnabled(c, s, w, move) && LocksExclusive(s) && PeriodsBalance(s)
    ensures PeriodsBalance(DrainApply(c, s, w, move))
  {
    if move.Publish? {
      PublishKeepsBalance(c, s, w, move.at);
    }
  }

  lemma PublishKeepsBalance(c: Config, s: State, w: Worker, at: Instant)
    requires DrainEnabled(c, s, w, Publish(at)) && LocksExclusive(s) && PeriodsBalance(s)
    ensures PeriodsBalance(DrainApply(c, s, w, Publish(at)))
  {
    var t, batch := DrainApply(c, s, w, Publish(at)), s.drainers[w].batch;
    forall e ensures t.dispatches[e] + (if Unpublished(t, e) then 1 else 0) == t.periods[e] {
      CountInBatch(batch, e);
      assert e in batch ==> HoldsLock(s, w, e);
      assert e in batch ==> Unpublished(s, e) && !Unpublished(t, e);
      assert e !in batch ==> (Unpublished(s, e) <==> Unpublished(t, e));
    }
  }

  lemma CommitKeepsBalance(c: Config, s: State, w: Worker, ids: seq<EventId>)
    requires JobEnabled(c, s, w, Commit(ids)) && PeriodsBalance(s)
    ensures PeriodsBalance(JobApply(c, s, w, Commit(ids)))
  {
    var t := JobApply(c, s, w, Commit(ids));
    SealedRows(s.jobs[w].phase.out.drafts, ids);
    forall e ensures t.dispatches[e] + (if Unpublished(t, e) then 1 else 0) == t.periods[e] {
      CountInBatch(ids, e);
      assert e in ids ==> !Unpublished(s, e) && Unpublished(t, e);
      assert e !in ids ==> (Unpublished(s, e) <==> Unpublished(t, e));
    }
  }

  lemma StepKeepsBalance(c: Config, s: State, step: Step)
    requires Enabled(c, s, step) && LocksExclusive(s) && PeriodsBalance(s)
    ensures PeriodsBalance(Apply(c, s, step))
  {
    if step.Deliver? && step.act.Commit? {
      CommitKeepsBalance(c, s, step.w, step.act.ids);
    } else if step.Deliver? {
      OtherJobsKeepBalance(c, s, step.w, step.act);
    } else if step.Drain? {
      DrainKeepsBalance(c, s, step.w, step.move);
    } else {
    }
  }

  lemma OtherJobsKeepBalance(c: Config, s: State, w: Worker, act: JobMove)
    requires JobEnabled(c, s, w, act) && !act.Commit? && PeriodsBalance(s)
    ensures PeriodsBalance(JobApply(c, s, w, act))
  {
  }

  // --- What the browser sees -------------------------------------------------------------------

  predicate PublishedFrame(s: State, w: Worker, e: EventId) {
    w in s.jobs && s.jobs[w].phase.Ran? && s.jobs[w].delivery.pair == Pair(e, SSE_FANOUT_HANDLER)
  }

  /** One if a fan-out of the row has published and is neither committed nor rolled back. */
  ghost function OpenFrames(s: State, e: EventId): nat {
    if exists w :: PublishedFrame(s, w, e) then 1 else 0
  }

  /**
    Frames on the SSE channel are at least once, not exactly once: publishing is not undone by a
    rollback, so every frame is a committed run, a run still open, or a run that was rolled back.
  */
  ghost predicate FramesAccounted(s: State) {
    forall e :: FrameBalance(s, e)
  }

  ghost predicate FrameBalance(s: State, e: EventId) {
    s.frames[e] == s.effects[Pair(e, SSE_FANOUT_HANDLER)] + s.wasted[e] + OpenFrames(s, e)
  }

  /** A move by a worker on another pair changes nothing about the row's frames. */
  lemma OtherPairsLeaveFrames(c: Config, s: State, w: Worker, act: JobMove, e: EventId)
    requires JobEnabled(c, s, w, act) && !act.Take?
    requires s.jobs[w].delivery.pair != Pair(e, SSE_FANOUT_HANDLER)
    ensures var t := JobApply(c, s, w, act);
            t.frames[e] == s.frames[e] && t.wasted[e] == s.wasted[e]
            && t.effects[Pair(e, SSE_FANOUT_HANDLER)] == s.effects[Pair(e, SSE_FANOUT_HANDLER)]
            && forall v :: PublishedFrame(t, v, e) <==> PublishedFrame(s, v, e)
  {
    match act
    case Run(_) =>
    case Commit(_) =>
    case Fail =>
    case Crash =>
    case Record(_, _) =>
    case _ =>
  }

  lemma TakingLeavesFrames(c: Config, s: State, w: Worker, act: JobMove, e: EventId)
    requires JobEnabled(c, s, w, act) && act.Take?
    ensures var t := JobApply(c, s, w, act);
            t.frames == s.frames && t.wasted == s.wasted && t.effects == s.effects
            && forall v :: PublishedFrame(t, v, e) <==> PublishedFrame(s, v, e)
  {
  }

  /** Publishing, committing and rolling back move one frame between the three accounts. */
  lemma OwnPairMovesFrames(c: Config, s: State, w: Worker, act: JobMove, e: EventId)
    requires JobEnabled(c, s, w, act) && !act.Take?
    requires s.jobs[w].delivery.pair == Pair(e, SSE_FANOUT_HANDLER)
    ensures var t := JobApply(c, s, w, act);
            var ran := s.jobs[w].phase.Ran?;
            && t.frames[e] == s.frames[e] + (if act.Run? then 1 else 0)
            && t.effects[Pair(e, SSE_FANOUT_HANDLER)] == s.effects[Pair(e, SSE_FANOUT_HANDLER)]
               + (if act.Commit? then 1 else 0)
            && t.wasted[e] == s.wasted[e] + (if ran && !act.Commit? then 1 else 0)
            && (PublishedFrame(s, w, e) <==> ran)
            && (PublishedFrame(t, w, e) <==> act.Run?)
            && (act.Run? ==> s.jobs[w].phase.Inserted?)
  {
  }

  lemma OthersKeepFrames(c: Config, s: State, w: Worker, act: JobMove, e: EventId)
    requires JobEnabled(c, s, w, act)
    ensures forall v :: v != w ==> (PublishedFrame(JobApply(c, s, w, act), v, e) <==> PublishedFrame(s, v, e))
  {
  }

  lemma JobKeepsFrames(c: Config, s: State, w: Worker, act: JobMove, e: EventId)
    requires JobEnabled(c, s, w, act) && ExactlyOnce(s) && FrameBalance(s, e)
    ensures FrameBalance(JobApply(c, s, w, act), e)
  {
    var p := Pair(e, SSE_FANOUT_HANDLER);
    if act.Take? {
      TakingLeavesFrames(c, s, w, act, e);
    } else if s.jobs[w].delivery.pair != p {
      OtherPairsLeaveFrames(c, s, w, act, e);
    } else {
      OwnPairMovesFrames(c, s, w, act, e);
      OthersKeepFrames(c, s, w, act, e);
      OwnFramesBalance(s, JobApply(c, s, w, act), w, act.Run?, act.Commit?, e);
    }
  }

  lemma OwnFramesBalance(s: State, t: State, w: Worker, run: bool, commit: bool, e: EventId)
    requires ExactlyOnce(s) && FrameBalance(s, e)
    requires w in s.jobs && s.jobs[w].delivery.pair == Pair(e, SSE_FANOUT_HANDLER)
    requires forall v :: v != w ==> (PublishedFrame(t, v, e) <==> PublishedFrame(s, v, e))
    requires PublishedFrame(t, w, e) <==> run
    requires run ==> s.jobs[w].phase.Inserted?
    requires commit ==> s.jobs[w].phase.Ran?
    requires t.frames[e] == s.frames[e] + (if run then 1 else 0)
    requires t.effects[Pair(e, SSE_FANOUT_HANDLER)] == s.effects[Pair(e, SSE_FANOUT_HANDLER)]
             + (if commit then 1 else 0)
    requires t.wasted[e] == s.wasted[e] + (if s.jobs[w].phase.Ran? && !commit then 1 else 0)
    ensures FrameBalance(t, e)
  {
    var p := Pair(e, SSE_FANOUT_HANDLER);
    assert forall v :: PublishedFrame(s, v, e) ==> Holds(s, v, p);
    if s.jobs[w].phase.Ran? {
      assert PublishedFrame(s, w, e) && Holds(s, w, p);
    } else if run {
      assert Holds(s, w, p) && !PublishedFrame(s, w, e);
      assert PublishedFrame(t, w, e);
    } else {
      assert !PublishedFrame(s, w, e);
      assert forall v :: PublishedFrame(t, v, e) <==> PublishedFrame(s, v, e);
    }
  }

  lemma StepKeepsFrames(c: Config, s: State, step: Step)
    requires Enabled(c, s, step) && ExactlyOnce(s) && FramesAccounted(s)
    ensures FramesAccounted(Apply(c, s, step))
  {
    forall e ensures FrameBalance(Apply(c, s, step), e) {
      assert FrameBalance(s, e);
      if step.Deliver? {
        JobKeepsFrames(c, s, step.w, step.act, e);
      } else {
        OnlyDeliveriesTouch(c, s, step);
        assert forall v :: PublishedFrame(Apply(c, s, step), v, e) <==> PublishedFrame(s, v, e);
      }
    }
  }

  // --- All of it, over every run -----------------------------------------------------------------

  ghost predicate Inv(c: Config, s: State) {
    && IdsMatch(s) && LocksExclusive(s) && DeliveriesAimed(c, s)
    && ExactlyOnce(s) && OutputsProduced(c, s) && TrailAgrees(s)
    && PeriodsBalance(s) && FramesAccounted(s)
  }

  lemma StepKeepsInv(c: Config, s: State, step: Step)
    requires Enabled(c, s, step) && Inv(c, s)
    ensures Inv(c, Apply(c, s, step))
  {
    StepKeepsRows(c, s, step);
    StepKeepsLocks(c, s, step);
    StepKeepsAim(c, s, step);
    StepKeepsExactlyOnce(c, s, step);
    StepKeepsOutputs(c, s, step);
    StepKeepsTrail(c, s, step);
    StepKeepsBalance(c, s, step);
    StepKeepsFrames(c, s, step);
  }

  lemma {:induction false} RunKeepsInv(c: Config, s: State, steps: seq<Step>)
    requires Inv(c, s) && Legal(c, s, steps)
    ensures Inv(c, Final(c, s, steps))
    decreases |steps|
  {
    if steps != [] {
      StepKeepsInv(c, s, steps[0]);
      RunKeepsInv(c, Apply(c, s, steps[0]), steps[1..]);
    }
  }

  /** The run contains no step that strands a delivery. */
  ghost predicate Lossless(c: Config, s: State, steps: seq<Step>)
    requires Legal(c, s, steps)
    decreases |steps|
  {
    steps == [] || (!Strand(c, s, steps[0]) && Lossless(c, Apply(c, s, steps[0]), steps[1..]))
  }

  lemma {:induction false} LosslessRunLosesNothing(c: Config, s: State, steps: seq<Step>)
    requires Inv(c, s) && NothingLost(c, s) && Legal(c, s, steps) && Lossless(c, s, steps)
    ensures NothingLost(c, Final(c, s, steps))
    decreases |steps|
  {
    if steps != [] {
      StepKeepsInv(c, s, steps[0]);
      StepLosesNothing(c, s, steps[0]);
      LosslessRunLosesNothing(c, Apply(c, s, steps[0]), steps[1..]);
    }
  }

  predicate LosesNoDispatcher(steps: seq<Step>) {
    forall i :: 0 <= i < |steps| ==> !(steps[i].Drain? && steps[i].move.Lose?)
  }

  lemma {:induction false} NoLostDispatcherIsLossless(c: Config, s: State, steps: seq<Step>)
    requires Legal(c, s, steps) && LosesNoDispatcher(steps)
    ensures Lossless(c, s, steps)
    decreases |steps|
  {
    if steps != [] {
      NoLostDispatcherIsLossless(c, Apply(c, s, steps[0]), steps[1..]);
    }
  }

  lemma EmptyIsGood(c: Config)
    ensures Inv(c, EMPTY) && NothingLost(c, EMPTY)
  {
  }

  /**
    The outbox guarantee, over every interleaving of producers, drains, deliveries, retries, rolled
    back and killed transactions, redeliveries and requeues: as long as no drain worker is lost
    between its commit and its hooks, every subscribed pair of every row is still unpublished, or
    dead-lettered for an operator, or applied, or on its way.
  */
  lemma NoEventIsLost(c: Config, steps: seq<Step>)
    requires Legal(c, EMPTY, steps) && LosesNoDispatcher(steps)
    ensures NothingLost(c, Final(c, EMPTY, steps))
  {
    EmptyIsGood(c);
    NoLostDispatcherIsLossless(c, EMPTY, steps);
    LosslessRunLosesNothing(c, EMPTY, steps);
  }

  /** Exactly-once effect, over every run whatsoever. */
  lemma EffectsExactlyOnce(c: Config, steps: seq<Step>, p: Pair)
    requires Legal(c, EMPTY, steps)
    ensures Final(c, EMPTY, steps).effects[p] <= 1
    ensures Final(c, EMPTY, steps).effects[p] == 1 <==> p in Final(c, EMPTY, steps).claims
  {
    EmptyIsGood(c);
    RunKeepsInv(c, EMPTY, steps);
  }

  /** The `missing` outcome and an unknown handler name never occur, and no attempt exceeds the budget. */
  lemma DeliveriesAreAimed(c: Config, steps: seq<Step>, w: Worker)
    requires Legal(c, EMPTY, steps) && w in Final(c, EMPTY, steps).jobs
    ensures var s := Final(c, EMPTY, steps);
            var d := s.jobs[w].delivery;
            d.pair.event in s.rows
            && Lookup(c.registry, d.pair.handler).Some?
            && 1 <= d.attempt <= Budget(c)
  {
    EmptyIsGood(c);
    RunKeepsInv(c, EMPTY, steps);
    LookupFinds(c.registry, Final(c, EMPTY, steps).jobs[w].delivery.pair.handler);
  }

  /** Concurrent drains hold disjoint batches, and a row is dispatched once per unpublished period. */
  lemma DrainsNeverOverlap(c: Config, steps: seq<Step>, w: Worker, v: Worker, e: EventId)
    requires Legal(c, EMPTY, steps)
    ensures var s := Final(c, EMPTY, steps);
            HoldsLock(s, w, e) && HoldsLock(s, v, e) ==> w == v
    ensures var s := Final(c, EMPTY, steps);
            s.dispatches[e] + (if Unpublished(s, e) then 1 else 0) == s.periods[e]
  {
    EmptyIsGood(c);
    RunKeepsInv(c, EMPTY, steps);
  }

  /** The engine's records and events correspond one to one, one per (trigger, project), in every run. */
  lemma TrailAndBusAgree(c: Config, steps: seq<Step>)
    requires Legal(c, EMPTY, steps)
    ensures TrailAgrees(Final(c, EMPTY, steps))
  {
    EmptyIsGood(c);
    RunKeepsInv(c, EMPTY, steps);
  }

  /**
    A claimed fan-out has put at least one frame on the channel, and exactly one unless a run was rolled
    back after publishing.
  */
  lemma FramesAtLeastOnce(c: Config, steps: seq<Step>, e: EventId)
    requires Legal(c, EMPTY, steps) && Pair(e, SSE_FANOUT_HANDLER) in Final(c, EMPTY, steps).claims
    ensures var s := Final(c, EMPTY, steps);
            s.frames[e] >= 1 && (s.frames[e] == 1 <==> s.wasted[e] == 0)
  {
    EmptyIsGood(c);
    RunKeepsInv(c, EMPTY, steps);
    var s := Final(c, EMPTY, steps);
    assert FrameBalance(s, e);
    assert forall w :: PublishedFrame(s, w, e) ==> Holds(s, w, Pair(e, SSE_FANOUT_HANDLER));
  }
}
