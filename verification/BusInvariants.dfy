/** What every step of the bus keeps. */
module BusInvariants {
  import opened Prelude
  import opened Catalog
  import opened Envelopes
  import opened Registry
  import opened Outbox
  import opened Engine
  import Activity
  import opened Protocol

  // --- Rows ------------------------------------------------------------------------------------

  ghost predicate IdsMatch(s: State) {
    forall e :: e in s.rows ==> s.rows[e].env.id == e
  }

  /** Rows are never deleted and what they state never changes. */
  ghost predicate RowsPersist(s: State, t: State) {
    forall e :: e in s.rows ==> e in t.rows && t.rows[e].env == s.rows[e].env
  }

  lemma {:induction false} SealedRows(drafts: seq<Draft>, ids: seq<EventId>)
    requires |drafts| == |ids|
    requires forall i, j :: 0 <= i < j < |ids| ==> ids[i] != ids[j]
    ensures forall e :: e in SealAll(drafts, ids) <==> e in ids
    ensures forall i :: 0 <= i < |ids| ==>
                          ids[i] in SealAll(drafts, ids)
                          && SealAll(drafts, ids)[ids[i]] == NewRow(Seal(drafts[i], ids[i]))
  {
    if ids != [] {
      SealedRows(drafts[..|ids| - 1], ids[..|ids| - 1]);
    }
  }

  lemma JobKeepsRows(c: Config, s: State, w: Worker, act: JobMove)
    requires JobEnabled(c, s, w, act)
    ensures RowsPersist(s, JobApply(c, s, w, act))
    ensures IdsMatch(s) ==> IdsMatch(JobApply(c, s, w, act))
  {
    if act.Commit? {
      SealedRows(s.jobs[w].phase.out.drafts, act.ids);
    }
  }

  lemma DrainKeepsRows(c: Config, s: State, w: Worker, move: DrainMove)
    requires DrainEnabled(c, s, w, move)
    ensures RowsPersist(s, DrainApply(c, s, w, move))
    ensures IdsMatch(s) ==> IdsMatch(DrainApply(c, s, w, move))
  {
  }

  lemma DrainWritesNoRow(c: Config, s: State, w: Worker, move: DrainMove)
    requires DrainEnabled(c, s, w, move)
    ensures DrainApply(c, s, w, move).rows.Keys == s.rows.Keys
  {
  }

  lemma StepKeepsRows(c: Config, s: State, step: Step)
    requires Enabled(c, s, step)
    ensures RowsPersist(s, Apply(c, s, step))
    ensures IdsMatch(s) ==> IdsMatch(Apply(c, s, step))
  {
    if step.Deliver? {
      JobKeepsRows(c, s, step.w, step.act);
    } else if step.Drain? {
      DrainKeepsRows(c, s, step.w, step.move);
    } else {
    }
  }

  /** What a drain worker never touches. */
  lemma DrainLeaves(c: Config, s: State, w: Worker, move: DrainMove)
    requires DrainEnabled(c, s, w, move)
    ensures var t := DrainApply(c, s, w, move);
            && t.jobs == s.jobs && t.claims == s.claims && t.effects == s.effects
            && t.trail == s.trail && t.causes == s.causes && t.selected == s.selected
            && t.frames == s.frames && t.wasted == s.wasted && t.periods == s.periods
  {
    match move
    case Publish(_) =>
    case Queue =>
    case _ =>
  }

  /** What a delivery worker writes: durable facts only when it commits, rows also when it records a failure. */
  lemma JobWrites(c: Config, s: State, w: Worker, act: JobMove)
    requires JobEnabled(c, s, w, act)
    ensures var t := JobApply(c, s, w, act);
            && t.drainers == s.drainers && t.selected == s.selected && t.dispatches == s.dispatches
            && (!act.Commit? ==> t.trail == s.trail && t.causes == s.causes && t.claims == s.claims
                                 && t.effects == s.effects && t.periods == s.periods)
            && (!act.Commit? && !act.Record? ==> t.rows == s.rows)
  {
    match act
    case Commit(ids) =>
    case Record(_, _) =>
    case _ =>
  }

  /** A worker touches no job but its own, and its own keeps its delivery until the worker stops. */
  lemma JobMoves(c: Config, s: State, w: Worker, act: JobMove, v: Worker)
    requires JobEnabled(c, s, w, act)
    ensures var t := JobApply(c, s, w, act);
            if v != w then (v in t.jobs <==> v in s.jobs) && (v in s.jobs ==> t.jobs[v] == s.jobs[v])
            else if act.Take? then v in t.jobs && t.jobs[v] == Job(act.d, Started)
            else if act.Ack? || act.Crash? then v !in t.jobs
            else v in t.jobs && t.jobs[v].delivery == s.jobs[v].delivery && t.jobs[v].phase != s.jobs[v].phase
  {
    match act
    case Take(_) =>
    case Ack =>
    case Crash =>
    case Commit(_) =>
    case Record(_, _) =>
    case _ =>
  }

  /** How a worker's own job moves on. */
  lemma PhaseMoves(c: Config, s: State, w: Worker, act: JobMove)
    requires JobEnabled(c, s, w, act) && !act.Take? && !act.Ack? && !act.Crash?
    ensures var t := JobApply(c, s, w, act);
            w in t.jobs && t.jobs[w].phase ==
            match act
            case Insert => if s.jobs[w].delivery.pair in s.claims then Finished else Inserted
            case Run(out) => Ran(out)
            case Commit(ids) => Committed(|ids|)
            case Kick(_) => Committed(s.jobs[w].phase.kicks - 1)
            case Fail => RolledBack
            case Record(_, _) => if s.jobs[w].delivery.attempt >= c.maxAttempts then Finished else Recorded
            case Retry => Finished
            case _ => t.jobs[w].phase
  {
  }

  /** What only the delivery workers touch. */
  lemma OnlyDeliveriesTouch(c: Config, s: State, step: Step)
    requires Enabled(c, s, step) && !step.Deliver?
    ensures var t := Apply(c, s, step);
            && t.jobs == s.jobs && t.claims == s.claims && t.effects == s.effects
            && t.trail == s.trail && t.causes == s.causes
            && t.frames == s.frames && t.wasted == s.wasted
  {
    if step.Drain? {
      DrainLeaves(c, s, step.w, step.move);
    } else {
    }
  }

  // --- Claiming transactions -------------------------------------------------------------------

  ghost predicate HoldsLock(s: State, w: Worker, e: EventId) {
    w in s.drainers && s.drainers[w].Claiming? && e in s.drainers[w].batch
  }

  /** Every row a claiming transaction holds is unpublished, and no two transactions hold one row. */
  ghost predicate LocksExclusive(s: State) {
    && (forall w, e :: HoldsLock(s, w, e) ==> Unpublished(s, e))
    && (forall w :: w in s.drainers && s.drainers[w].Claiming? ==> NoRepeats(s.drainers[w].batch))
    && (forall w, v, e :: HoldsLock(s, w, e) && HoldsLock(s, v, e) ==> w == v)
  }

  lemma ClaimTakesFreeRows(s: State, limit: nat, batch: seq<EventId>, e: EventId)
    requires IsClaim(s, limit, batch) && e in batch
    ensures Unpublished(s, e) && forall u :: !HoldsLock(s, u, e)
    ensures NoRepeats(batch)
  {
  }

  lemma ClaimKeepsLocks(c: Config, s: State, w: Worker, limit: nat, batch: seq<EventId>)
    requires DrainEnabled(c, s, w, Claim(limit, batch)) && LocksExclusive(s)
    ensures LocksExclusive(DrainApply(c, s, w, Claim(limit, batch)))
  {
    var t := DrainApply(c, s, w, Claim(limit, batch));
    forall e | e in batch ensures Unpublished(s, e) && NoRepeats(batch) && forall u :: !HoldsLock(s, u, e) {
      ClaimTakesFreeRows(s, limit, batch, e);
    }
    ClaimMovesLocks(s, t, w, limit, batch);
  }

  /** A new open claim on rows nobody holds. */
  lemma ClaimMovesLocks(s: State, t: State, w: Worker, limit: nat, batch: seq<EventId>)
    requires LocksExclusive(s) && t.rows == s.rows && t.drainers == s.drainers[w := Claiming(limit, batch)]
    requires forall e :: e in batch ==> Unpublished(s, e) && NoRepeats(batch) && forall u :: !HoldsLock(s, u, e)
    ensures LocksExclusive(t)
  {
    assert batch == [] ==> NoRepeats(batch);
    assert batch != [] ==> batch[0] in batch;
    assert forall v, e :: HoldsLock(t, v, e) <==> if v == w then e in batch else HoldsLock(s, v, e);
  }

  lemma PublishKeepsLocks(c: Config, s: State, w: Worker, at: Instant)
    requires DrainEnabled(c, s, w, Publish(at)) && LocksExclusive(s)
    ensures LocksExclusive(DrainApply(c, s, w, Publish(at)))
  {
    var t := DrainApply(c, s, w, Publish(at));
    assert forall v, e :: HoldsLock(t, v, e) ==> v != w && HoldsLock(s, v, e);
    assert forall e :: e in s.drainers[w].batch ==> HoldsLock(s, w, e);
    PublishMovesLocks(s, t, w);
  }

  lemma PublishMovesLocks(s: State, t: State, w: Worker)
    requires LocksExclusive(s) && w in s.drainers && s.drainers[w].Claiming?
    requires forall v, e :: HoldsLock(t, v, e) ==> v != w && HoldsLock(s, v, e)
    requires forall v :: v in t.drainers && v != w ==> v in s.drainers && t.drainers[v] == s.drainers[v]
    requires w in t.drainers && !t.drainers[w].Claiming?
    requires forall e :: Unpublished(s, e) && !HoldsLock(s, w, e) ==> Unpublished(t, e)
    ensures LocksExclusive(t)
  {
  }

  lemma FewerLocks(s: State, t: State)
    requires LocksExclusive(s) && t.rows == s.rows
    requires forall v :: v in t.drainers && t.drainers[v].Claiming? ==>
             v in s.drainers && s.drainers[v] == t.drainers[v]
    ensures LocksExclusive(t)
  {
    assert forall v, e :: HoldsLock(t, v, e) ==> HoldsLock(s, v, e);
  }

  lemma DrainKeepsLocks(c: Config, s: State, w: Worker, move: DrainMove)
    requires DrainEnabled(c, s, w, move) && LocksExclusive(s)
    ensures LocksExclusive(DrainApply(c, s, w, move))
  {
    match move
    case Claim(limit, batch) => ClaimKeepsLocks(c, s, w, limit, batch);
    case Publish(at) => PublishKeepsLocks(c, s, w, at);
    case _ => FewerLocks(s, DrainApply(c, s, w, move));
  }

  lemma JobKeepsLocks(c: Config, s: State, w: Worker, act: JobMove)
    requires JobEnabled(c, s, w, act) && LocksExclusive(s)
    ensures LocksExclusive(JobApply(c, s, w, act))
  {
    var t := JobApply(c, s, w, act);
    assert forall v, e :: HoldsLock(t, v, e) <==> HoldsLock(s, v, e);
    if act.Commit? {
      SealedRows(s.jobs[w].phase.out.drafts, act.ids);
    }
  }

  lemma StepKeepsLocks(c: Config, s: State, step: Step)
    requires Enabled(c, s, step) && LocksExclusive(s)
    ensures LocksExclusive(Apply(c, s, step))
  {
    if step.Deliver? {
      JobKeepsLocks(c, s, step.w, step.act);
    } else if step.Drain? {
      DrainKeepsLocks(c, s, step.w, step.move);
    } else {
      var t := Apply(c, s, step);
      assert forall v, e :: HoldsLock(t, v, e) <==> HoldsLock(s, v, e);
    }
  }

  // --- Deliveries ------------------------------------------------------------------------------

  ghost predicate WellAimed(c: Config, s: State, d: Delivery) {
    Wants(c, s, d.pair) && 1 <= d.attempt <= Budget(c)
  }

  ghost predicate PendingHook(s: State, w: Worker, p: Pair) {
    w in s.drainers && s.drainers[w].Dispatching? && p in s.drainers[w].pending
  }

  /** Every message and hook names an existing row and a handler subscribed to its topic. */
  ghost predicate DeliveriesAimed(c: Config, s: State) {
    && (forall w, p :: PendingHook(s, w, p) ==> Wants(c, s, p))
    && (forall d :: d in s.queued ==> WellAimed(c, s, d))
    && (forall w :: w in s.jobs ==> WellAimed(c, s, s.jobs[w].delivery))
    && (forall w :: w in s.jobs && s.jobs[w].phase.Recorded? ==> s.jobs[w].delivery.attempt < c.maxAttempts)
  }

  lemma DispatchOfNames(regs: seq<Registration>, e: EventId, p: Pair)
    ensures p in DispatchOf(regs, e) <==> p.event == e && exists r :: r in regs && r.name == p.handler
  {
    if p.event == e && exists r :: r in regs && r.name == p.handler {
      var r :| r in regs && r.name == p.handler;
      var i :| 0 <= i < |regs| && regs[i] == r;
      assert DispatchOf(regs, e)[i] == p;
    }
  }

  lemma DispatchOfSubscribers(regs: seq<Registration>, topic: Topic, e: EventId, p: Pair)
    ensures p in DispatchOf(HandlersFor(regs, topic), e) <==> p.event == e && Subscribed(regs, topic, p.handler)
  {
    DispatchOfNames(HandlersFor(regs, topic), e, p);
    DispatchedExactlyTheSubscribers(regs, topic);
  }

  /** A batch is dispatched to exactly the subscribers of its rows. */
  lemma {:induction false} DispatchReachesSubscribers(c: Config, rows: map<EventId, Row>,
          batch: seq<EventId>, p: Pair)
    requires forall i :: 0 <= i < |batch| ==> batch[i] in rows
    ensures p in Dispatch(c, rows, batch) <==>
            p.event in batch && Subscribed(c.registry, rows[p.event].env.topic, p.handler)
  {
    if batch != [] {
      var front, last := batch[..|batch| - 1], batch[|batch| - 1];
      DispatchReachesSubscribers(c, rows, front, p);
      DispatchOfSubscribers(c.registry, rows[last].env.topic, last, p);
      assert batch == front + [last];
    }
  }

  lemma WantsPersist(c: Config, s: State, t: State)
    requires RowsPersist(s, t)
    ensures forall p :: Wants(c, s, p) ==> Wants(c, t, p)
  {
  }

  lemma HooksStayAimed(c: Config, s: State, w: Worker, move: DrainMove, v: Worker, p: Pair)
    requires DrainEnabled(c, s, w, move) && DeliveriesAimed(c, s)
    requires PendingHook(DrainApply(c, s, w, move), v, p)
    ensures Wants(c, s, p)
  {
    if move.Publish? && v == w {
      DispatchReachesSubscribers(c, s.rows, s.drainers[w].batch, p);
    } else {
      assert PendingHook(s, v, p);
    }
  }

  lemma DrainMessagesAimed(c: Config, s: State, w: Worker, move: DrainMove, d: Delivery)
    requires DrainEnabled(c, s, w, move) && DeliveriesAimed(c, s)
    requires d in DrainApply(c, s, w, move).queued
    ensures WellAimed(c, s, d)
  {
    if move.Queue? {
      assert PendingHook(s, w, s.drainers[w].pending[0]);
    }
  }

  lemma DrainKeepsAim(c: Config, s: State, w: Worker, move: DrainMove)
    requires DrainEnabled(c, s, w, move) && DeliveriesAimed(c, s)
    ensures DeliveriesAimed(c, DrainApply(c, s, w, move))
  {
    DrainKeepsRows(c, s, w, move);
    DrainLeaves(c, s, w, move);
    DrainAimCarried(c, s, w, move, DrainApply(c, s, w, move));
  }

  lemma DrainAimCarried(c: Config, s: State, w: Worker, move: DrainMove, t: State)
    requires DrainEnabled(c, s, w, move) && DeliveriesAimed(c, s)
    requires t == DrainApply(c, s, w, move) && RowsPersist(s, t) && t.jobs == s.jobs
    ensures DeliveriesAimed(c, t)
  {
    WantsPersist(c, s, t);
    forall v, p | PendingHook(t, v, p) ensures Wants(c, s, p) { HooksStayAimed(c, s, w, move, v, p); }
    forall d | d in t.queued ensures WellAimed(c, s, d) { DrainMessagesAimed(c, s, w, move, d); }
  }

  lemma JobMessagesAimed(c: Config, s: State, w: Worker, act: JobMove, d: Delivery)
    requires JobEnabled(c, s, w, act) && DeliveriesAimed(c, s)
    requires d in JobApply(c, s, w, act).queued
    ensures WellAimed(c, s, d)
  {
  }

  lemma JobsAimed(c: Config, s: State, w: Worker, act: JobMove, v: Worker)
    requires JobEnabled(c, s, w, act) && DeliveriesAimed(c, s)
    requires v in JobApply(c, s, w, act).jobs
    ensures var job := JobApply(c, s, w, act).jobs[v];
            WellAimed(c, s, job.delivery) && (job.phase.Recorded? ==> job.delivery.attempt < c.maxAttempts)
  {
    JobMoves(c, s, w, act, v);
    if v == w && !act.Take? {
      PhaseMoves(c, s, w, act);
    }
  }

  lemma JobKeepsAim(c: Config, s: State, w: Worker, act: JobMove)
    requires JobEnabled(c, s, w, act) && DeliveriesAimed(c, s)
    ensures DeliveriesAimed(c, JobApply(c, s, w, act))
  {
    JobKeepsRows(c, s, w, act);
    JobWrites(c, s, w, act);
    JobAimCarried(c, s, w, act, JobApply(c, s, w, act));
  }

  lemma JobAimCarried(c: Config, s: State, w: Worker, act: JobMove, t: State)
    requires JobEnabled(c, s, w, act) && DeliveriesAimed(c, s)
    requires t == JobApply(c, s, w, act) && RowsPersist(s, t) && t.drainers == s.drainers
    ensures DeliveriesAimed(c, t)
  {
    forall d | d in t.queued ensures WellAimed(c, s, d) { JobMessagesAimed(c, s, w, act, d); }
    forall v | v in t.jobs
      ensures WellAimed(c, s, t.jobs[v].delivery)
              && (t.jobs[v].phase.Recorded? ==> t.jobs[v].delivery.attempt < c.maxAttempts)
    {
      JobsAimed(c, s, w, act, v);
    }
    AimCarried(c, s, t);
  }

  lemma AimCarried(c: Config, s: State, t: State)
    requires RowsPersist(s, t) && DeliveriesAimed(c, s) && t.drainers == s.drainers
    requires forall d :: d in t.queued ==> WellAimed(c, s, d)
    requires forall v :: v in t.jobs ==> WellAimed(c, s, t.jobs[v].delivery)
                                         && (t.jobs[v].phase.Recorded? ==> t.jobs[v].delivery.attempt < c.maxAttempts)
    ensures DeliveriesAimed(c, t)
  {
    WantsPersist(c, s, t);
    assert forall v, p :: PendingHook(t, v, p) ==> PendingHook(s, v, p);
  }

  lemma StepKeepsAim(c: Config, s: State, step: Step)
    requires Enabled(c, s, step) && DeliveriesAimed(c, s)
    ensures DeliveriesAimed(c, Apply(c, s, step))
  {
    if step.Deliver? {
      JobKeepsAim(c, s, step.w, step.act);
    } else if step.Drain? {
      DrainKeepsAim(c, s, step.w, step.move);
    } else {
      StepKeepsRows(c, s, step);
      OutsideLeaves(c, s, step);
      AimCarried(c, s, Apply(c, s, step));
    }
  }

  lemma OutsideLeaves(c: Config, s: State, step: Step)
    requires Enabled(c, s, step) && !step.Deliver? && !step.Drain?
    ensures var t := Apply(c, s, step);
            t.jobs == s.jobs && t.drainers == s.drainers && t.queued == s.queued && t.claims == s.claims
  {
    match step
    case Produce(_, _, _) =>
    case Sweep =>
    case Select(_) =>
    case Requeue(_) =>
  }

  // --- Exactly once ----------------------------------------------------------------------------

  /**
    The committed effect count of a pair is one exactly when its claim is committed; a claim held by
    an open transaction is not committed, and no two open transactions hold the same claim.
  */
  ghost predicate ExactlyOnce(s: State) {
    && (forall p :: s.effects[p] == if p in s.claims then 1 else 0)
    && (forall w, p :: Holds(s, w, p) ==> p !in s.claims)
    && (forall w, v, p :: Holds(s, w, p) && Holds(s, v, p) ==> w == v)
  }

  /** Only an insert starts holding a claim, and a commit stops. */
  lemma HoldsComeFrom(c: Config, s: State, w: Worker, act: JobMove, v: Worker, p: Pair)
    requires JobEnabled(c, s, w, act) && Holds(JobApply(c, s, w, act), v, p)
    ensures Holds(s, v, p) || (act.Insert? && v == w && s.jobs[w].delivery.pair == p && p !in s.claims)
    ensures act.Commit? ==> v != w
  {
  }

  lemma JobKeepsExactlyOnce(c: Config, s: State, w: Worker, act: JobMove)
    requires JobEnabled(c, s, w, act) && ExactlyOnce(s)
    ensures ExactlyOnce(JobApply(c, s, w, act))
  {
    JobWrites(c, s, w, act);
    JobCommits(c, s, w, act);
    HeldOnce(c, s, w, act, JobApply(c, s, w, act));
  }

  lemma JobCommits(c: Config, s: State, w: Worker, act: JobMove)
    requires JobEnabled(c, s, w, act)
    ensures act.Commit? ==> var t, p := JobApply(c, s, w, act), s.jobs[w].delivery.pair;
            t.claims == s.claims + {p} && t.effects == s.effects + multiset{p} && Holds(s, w, p)
  {
  }

  lemma HeldOnce(c: Config, s: State, w: Worker, act: JobMove, t: State)
    requires JobEnabled(c, s, w, act) && ExactlyOnce(s) && t == JobApply(c, s, w, act)
    requires !act.Commit? ==> t.claims == s.claims && t.effects == s.effects
    requires act.Commit? ==> var p := s.jobs[w].delivery.pair;
                             t.claims == s.claims + {p} && t.effects == s.effects + multiset{p} && Holds(s, w, p)
    ensures ExactlyOnce(t)
  {
    forall v, p | Holds(t, v, p)
      ensures Holds(s, v, p) || (act.Insert? && v == w && s.jobs[w].delivery.pair == p && p !in s.claims)
      ensures act.Commit? ==> v != w
    {
      HoldsComeFrom(c, s, w, act, v, p);
    }
  }

  lemma StepKeepsExactlyOnce(c: Config, s: State, step: Step)
    requires Enabled(c, s, step) && ExactlyOnce(s)
    ensures ExactlyOnce(Apply(c, s, step))
  {
    if step.Deliver? {
      JobKeepsExactlyOnce(c, s, step.w, step.act);
    } else {
      OnlyDeliveriesTouch(c, s, step);
      assert forall v, p :: Holds(Apply(c, s, step), v, p) <==> Holds(s, v, p);
    }
  }

  // --- The trail and the bus -------------------------------------------------------------------

  /** The row the engine wrote beside the record `s.trail[i]`. */
  predicate Companion(s: State, i: int, e: EventId) {
    && 0 <= i < |s.trail| && e in s.rows && e in s.causes
    && TriggerOf(s.trail[i]) == Some(s.causes[e])
    && s.rows[e].env.topic == TOPIC_PROJECT_PRIORITY_RECALCULATED
    && s.rows[e].env.entity == EntityRef(ENTITY_PROJECT, s.trail[i].entityId)
    && s.rows[e].env.correlationId == s.trail[i].correlationId
    && s.rows[e].env.occurredAt == s.trail[i].at
    && s.rows[e].env.actor == s.trail[i].actor
  }

  ghost predicate HasCompanion(s: State, i: int) {
    exists e :: Companion(s, i, e)
  }

  ghost predicate Explained(s: State, e: EventId) {
    exists i :: Companion(s, i, e)
  }

  /** Every record names a trigger the engine has claimed, and carries the trigger's correlation id. */
  ghost predicate RecordsTraced(s: State) {
    forall i :: 0 <= i < |s.trail| ==>
      && TriggerOf(s.trail[i]).Some?
      && var trigger := TriggerOf(s.trail[i]).value;
      && Pair(trigger, PRIORITY_RECALCULATOR) in s.claims && trigger in s.rows
      && s.trail[i].correlationId == s.rows[trigger].env.correlationId
  }

  /** At most one record per trigger and project. */
  ghost predicate RecordsDistinct(s: State) {
    forall i, j :: 0 <= i < j < |s.trail| ==>
      !(TriggerOf(s.trail[i]) == TriggerOf(s.trail[j]) && s.trail[i].entityId == s.trail[j].entityId)
  }

  /** The engine's records and the engine's rows are in bijection. */
  ghost predicate Bijection(s: State) {
    && (forall i :: 0 <= i < |s.trail| ==> HasCompanion(s, i))
    && (forall e :: e in s.causes ==> e in s.rows && Explained(s, e))
    && CompanionsUnique(s)
  }

  ghost predicate CompanionsUnique(s: State) {
    && (forall e, f, i :: Companion(s, i, e) && Companion(s, i, f) ==> e == f)
    && (forall e, i, j :: Companion(s, i, e) && Companion(s, j, e) ==> i == j)
  }

  ghost predicate TrailAgrees(s: State) {
    RecordsTraced(s) && RecordsDistinct(s) && Bijection(s)
  }

  /** A job that has run holds an output its handler can produce. */
  ghost predicate OutputsProduced(c: Config, s: State) {
    forall w :: w in s.jobs && s.jobs[w].phase.Ran? ==>
      var p := s.jobs[w].delivery.pair;
      p.event in s.rows && Produces(c, p.handler, s.rows[p.event].env, s.jobs[w].phase.out)
  }

  lemma JobKeepsOutputs(c: Config, s: State, w: Worker, act: JobMove)
    requires JobEnabled(c, s, w, act) && OutputsProduced(c, s)
    ensures OutputsProduced(c, JobApply(c, s, w, act))
  {
    JobKeepsRows(c, s, w, act);
    forall v | v in JobApply(c, s, w, act).jobs && JobApply(c, s, w, act).jobs[v].phase.Ran?
      ensures (v in s.jobs && s.jobs[v] == JobApply(c, s, w, act).jobs[v])
              || (act.Run? && v == w && JobApply(c, s, w, act).jobs[v] == Job(s.jobs[w].delivery, Ran(act.out)))
    {
      JobMoves(c, s, w, act, v);
      if v == w {
        PhaseMoves(c, s, w, act);
      }
    }
  }

  lemma StepKeepsOutputs(c: Config, s: State, step: Step)
    requires Enabled(c, s, step) && OutputsProduced(c, s)
    ensures OutputsProduced(c, Apply(c, s, step))
  {
    if step.Deliver? {
      JobKeepsOutputs(c, s, step.w, step.act);
    } else {
      StepKeepsRows(c, s, step);
      OnlyDeliveriesTouch(c, s, step);
    }
  }

  /** What a commit appends, told without its job: `k` records and `k` fresh rows for one trigger. */
  ghost predicate Appends(s: State, t: State, trigger: EventId, records: seq<Activity.Record>,
                        drafts: seq<Draft>, ids: seq<EventId>) {
    && |records| == |drafts| == |ids|
    && Fresh(s.rows, ids)
    && t.trail == s.trail + records
    && (forall e :: e in t.causes <==> e in s.causes || e in ids)
    && (forall e :: e in s.causes && e !in ids ==> t.causes[e] == s.causes[e])
    && (forall i :: 0 <= i < |ids| ==>
          && ids[i] in t.causes && t.causes[ids[i]] == trigger
          && ids[i] in t.rows && t.rows[ids[i]] == NewRow(Seal(drafts[i], ids[i])))
    && (forall e :: e in s.rows ==> e in t.rows && t.rows[e] == s.rows[e])
  }

  /** Nothing before the append belongs to the trigger. */
  ghost predicate Unseen(s: State, env: Envelope, records: seq<Activity.Record>, drafts: seq<Draft>) {
    && |records| == |drafts|
    && (forall i :: 0 <= i < |records| ==> Announces(env, records[i], drafts[i]))
    && (forall i, j :: 0 <= i < j < |records| ==> records[i].entityId != records[j].entityId)
    && (forall i :: 0 <= i < |s.trail| ==> TriggerOf(s.trail[i]) != Some(env.id))
    && (forall e :: e in s.causes ==> e in s.rows && s.causes[e] != env.id)
  }

  lemma AppendedIds(s: State, t: State, env: Envelope, records: seq<Activity.Record>, drafts: seq<Draft>,
                    ids: seq<EventId>, e: EventId)
    requires Appends(s, t, env.id, records, drafts, ids)
    ensures e in ids ==> e !in s.rows && e in t.causes && t.causes[e] == env.id
    ensures e in s.rows ==> e !in ids
  {
  }

  lemma OldCompanion(s: State, t: State, env: Envelope, records: seq<Activity.Record>, drafts: seq<Draft>,
                     ids: seq<EventId>, i: int, e: EventId)
    requires Appends(s, t, env.id, records, drafts, ids) && Unseen(s, env, records, drafts)
    requires i < |s.trail|
    ensures Companion(t, i, e) <==> Companion(s, i, e)
  {
  }

  lemma NewCompanion(s: State, t: State, env: Envelope, records: seq<Activity.Record>, drafts: seq<Draft>,
                     ids: seq<EventId>, i: int, e: EventId)
    requires Appends(s, t, env.id, records, drafts, ids) && Unseen(s, env, records, drafts)
    requires |s.trail| <= i < |t.trail|
    ensures Companion(t, i, e) <==> e == ids[i - |s.trail|]
  {
  }

  lemma AppendKeepsUnique(s: State, t: State, env: Envelope, records: seq<Activity.Record>, drafts: seq<Draft>,
                        ids: seq<EventId>)
    requires Appends(s, t, env.id, records, drafts, ids) && Unseen(s, env, records, drafts)
    requires CompanionsUnique(s)
    ensures CompanionsUnique(t)
  {
    forall e, i | Companion(t, i, e)
      ensures i < |s.trail| ==> Companion(s, i, e) && e in s.rows
      ensures i >= |s.trail| ==> e == ids[i - |s.trail|] && e !in s.rows
    {
      AppendedIds(s, t, env, records, drafts, ids, e);
      if i < |s.trail| {
        OldCompanion(s, t, env, records, drafts, ids, i, e);
      } else {
        NewCompanion(s, t, env, records, drafts, ids, i, e);
      }
    }
  }

  lemma AppendKeepsBijection(s: State, t: State, env: Envelope, records: seq<Activity.Record>,
                        drafts: seq<Draft>, ids: seq<EventId>)
    requires Appends(s, t, env.id, records, drafts, ids) && Unseen(s, env, records, drafts)
    requires Bijection(s)
    ensures Bijection(t)
  {
    forall i | 0 <= i < |t.trail| ensures HasCompanion(t, i) {
      if i < |s.trail| {
        assert HasCompanion(s, i);
        var e :| Companion(s, i, e);
        OldCompanion(s, t, env, records, drafts, ids, i, e);
      } else {
        NewCompanion(s, t, env, records, drafts, ids, i, ids[i - |s.trail|]);
      }
    }
    forall e | e in t.causes ensures e in t.rows && Explained(t, e) {
      if e in s.causes {
        assert Explained(s, e);
        var i :| Companion(s, i, e);
        OldCompanion(s, t, env, records, drafts, ids, i, e);
      } else {
        var k :| 0 <= k < |ids| && ids[k] == e;
        NewCompanion(s, t, env, records, drafts, ids, |s.trail| + k, ids[k]);
      }
    }
    AppendKeepsUnique(s, t, env, records, drafts, ids);
  }

  lemma AppendKeepsTrail(s: State, t: State, env: Envelope, records: seq<Activity.Record>, drafts: seq<Draft>,
                        ids: seq<EventId>)
    requires Appends(s, t, env.id, records, drafts, ids) && Unseen(s, env, records, drafts)
    requires RecordsTraced(s) && RecordsDistinct(s)
    requires env.id in s.rows && s.rows[env.id].env == env
    requires t.claims == s.claims + {Pair(env.id, PRIORITY_RECALCULATOR)}
    ensures RecordsTraced(t) && RecordsDistinct(t)
  {
  }

  lemma SameCompanions(s: State, t: State)
    requires RowsPersist(s, t) && t.trail == s.trail && t.causes == s.causes
    requires forall e :: e in s.causes ==> e in s.rows
    ensures forall i, e :: Companion(t, i, e) <==> Companion(s, i, e)
  {
  }

  lemma SameUnique(s: State, t: State)
    requires CompanionsUnique(s)
    requires forall i, e :: Companion(t, i, e) <==> Companion(s, i, e)
    ensures CompanionsUnique(t)
  {
  }

  lemma SameBijection(s: State, t: State)
    requires Bijection(s) && RowsPersist(s, t) && t.trail == s.trail && t.causes == s.causes
    requires forall i, e :: Companion(t, i, e) <==> Companion(s, i, e)
    ensures Bijection(t)
  {
    SameUnique(s, t);
    forall i | 0 <= i < |t.trail| ensures HasCompanion(t, i) {
      assert HasCompanion(s, i);
      var e :| Companion(s, i, e);
      assert Companion(t, i, e);
    }
    forall e | e in t.causes ensures Explained(t, e) {
      assert Explained(s, e);
      var i :| Companion(s, i, e);
      assert Companion(t, i, e);
    }
  }

  /** A step that touches neither the trail nor what rows state keeps the agreement. */
  lemma UntouchedTrail(s: State, t: State)
    requires TrailAgrees(s) && RowsPersist(s, t)
    requires t.trail == s.trail && t.causes == s.causes && s.claims <= t.claims
    ensures TrailAgrees(t)
  {
    SameCompanions(s, t);
    SameBijection(s, t);
  }

  /** A trigger whose claim is not committed has left nothing on the trail or the bus. */
  lemma UnclaimedUnseen(s: State, env: Envelope, records: seq<Activity.Record>, drafts: seq<Draft>)
    requires TrailAgrees(s) && Pair(env.id, PRIORITY_RECALCULATOR) !in s.claims
    requires |records| == |drafts|
    requires forall i :: 0 <= i < |records| ==> Announces(env, records[i], drafts[i])
    requires forall i, j :: 0 <= i < j < |records| ==> records[i].entityId != records[j].entityId
    ensures Unseen(s, env, records, drafts)
  {
  }

  lemma CommitAppends(c: Config, s: State, w: Worker, ids: seq<EventId>)
    requires JobEnabled(c, s, w, Commit(ids)) && OutputsProduced(c, s)
    requires forall e :: e in s.causes ==> e in s.rows
    ensures var job := s.jobs[w];
            Appends(s, JobApply(c, s, w, Commit(ids)), job.delivery.pair.event,
                    job.phase.out.trail, job.phase.out.drafts, ids)
  {
    SealedRows(s.jobs[w].phase.out.drafts, ids);
  }

  lemma SilentCommit(c: Config, s: State, w: Worker, ids: seq<EventId>)
    requires JobEnabled(c, s, w, Commit(ids)) && OutputsProduced(c, s)
    requires s.jobs[w].delivery.pair.handler != PRIORITY_RECALCULATOR
    ensures var t := JobApply(c, s, w, Commit(ids));
            t.trail == s.trail && t.causes == s.causes && s.claims <= t.claims
  {
  }

  lemma CommitKeepsTrail(c: Config, s: State, w: Worker, ids: seq<EventId>)
    requires JobEnabled(c, s, w, Commit(ids))
    requires IdsMatch(s) && ExactlyOnce(s) && OutputsProduced(c, s) && TrailAgrees(s)
    ensures TrailAgrees(JobApply(c, s, w, Commit(ids)))
  {
    var t := JobApply(c, s, w, Commit(ids));
    var pair := s.jobs[w].delivery.pair;
    var out := s.jobs[w].phase.out;
    CommitAppends(c, s, w, ids);
    assert Holds(s, w, pair);
    if pair.handler == PRIORITY_RECALCULATOR {
      var env := s.rows[pair.event].env;
      UnclaimedUnseen(s, env, out.trail, out.drafts);
      AppendKeepsTrail(s, t, env, out.trail, out.drafts, ids);
      AppendKeepsBijection(s, t, env, out.trail, out.drafts, ids);
    } else {
      JobKeepsRows(c, s, w, Commit(ids));
      SilentCommit(c, s, w, ids);
      UntouchedTrail(s, t);
    }
  }

  lemma OnlyCommitsWriteTheTrail(c: Config, s: State, step: Step)
    requires Enabled(c, s, step) && !(step.Deliver? && step.act.Commit?)
    ensures var t := Apply(c, s, step);
            t.trail == s.trail && t.causes == s.causes && t.claims == s.claims
  {
    if step.Deliver? {
      JobWrites(c, s, step.w, step.act);
    } else {
      OnlyDeliveriesTouch(c, s, step);
    }
  }

  lemma StepKeepsTrail(c: Config, s: State, step: Step)
    requires Enabled(c, s, step)
    requires IdsMatch(s) && ExactlyOnce(s) && OutputsProduced(c, s) && TrailAgrees(s)
    ensures TrailAgrees(Apply(c, s, step))
  {
    if step.Deliver? && step.act.Commit? {
      CommitKeepsTrail(c, s, step.w, step.act.ids);
    } else {
      StepKeepsRows(c, s, step);
      OnlyCommitsWriteTheTrail(c, s, step);
      UntouchedTrail(s, Apply(c, s, step));
    }
  }
}
