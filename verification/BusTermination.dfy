/**
  The cascade ends.  With no outside producer, tick, sweep, crash or re-queue, every step of a drain
  or a delivery lowers a lexicographic measure: the work on rows the engine consumes, then the work on
  all other rows, then the drain messages and kicks.
*/
module BusTermination {
  import opened Prelude
  import opened Sums
  import opened Catalog
  import opened Envelopes
  import opened Registry
  import opened Outbox
  import opened Engine
  import opened Protocol
  import opened BusInvariants
  import opened BusSafety

  /** No registration of the engine's name consumes the topic the engine emits. */
  ghost predicate Acyclic(c: Config) {
    !Subscribed(c.registry, TOPIC_PROJECT_PRIORITY_RECALCULATED, PRIORITY_RECALCULATOR)
  }

  /** The deployed registry. */
  const DEPLOYED: seq<Registration> :=
    [Registration(PRIORITY_RECALCULATOR, ENGINE_TOPICS, 0),
     Registration(SNAPSHOT_BUILDER, SNAPSHOT_TOPICS, 1),
     Registration(SSE_FANOUT_HANDLER, SSE_ALLOWLIST_TOPICS, 2)]

  lemma DeployedIsAcyclic(c: Config)
    requires c.registry == DEPLOYED
    ensures ValidConfig(c) && Acyclic(c)
  {
  }

  // --- The measure -----------------------------------------------------------------------------

  /** Which rows the engine consumes, as a fixed set of event ids. */
  type Class = iset<EventId>

  /** `hi` classifies the existing rows, and ids not drawn yet as low. */
  ghost predicate Classifies(c: Config, hi: Class, s: State) {
    forall e :: e in hi <==> Wants(c, s, Pair(e, PRIORITY_RECALCULATOR))
  }

  /** Eight units for every attempt left after this one. */
  function Base(c: Config, attempt: nat): nat {
    if attempt >= Budget(c) then 0 else 8 * (Budget(c) - attempt)
  }

  function PhaseWork(c: Config, j: Job): nat {
    match j.phase
    case Started => Base(c, j.delivery.attempt) + 7
    case Inserted => Base(c, j.delivery.attempt) + 6
    case Ran(_) => Base(c, j.delivery.attempt) + 5
    case RolledBack => Base(c, j.delivery.attempt) + 4
    case Recorded => Base(c, j.delivery.attempt) + 3
    case Committed(_) => 2
    case Finished => 1
  }

  function HookWork(c: Config): nat {
    Base(c, 1) + 9
  }

  function RowWork(c: Config, row: Row): nat {
    if row.publishedAt.None? then 1 + |c.registry| * HookWork(c) else 0
  }

  ghost function RowTerm(c: Config, hi: Class, b: bool): Row -> nat {
    (row: Row) => if (row.env.id in hi) == b then RowWork(c, row) else 0
  }

  ghost function MessageTerm(c: Config, hi: Class, b: bool): Delivery -> nat {
    (d: Delivery) => if (d.pair.event in hi) == b then Base(c, d.attempt) + 8 else 0
  }

  ghost function JobTerm(c: Config, hi: Class, b: bool): Job -> nat {
    (j: Job) => if (j.delivery.pair.event in hi) == b then PhaseWork(c, j) else 0
  }

  ghost function HookTerm(c: Config, hi: Class, b: bool): Pair -> nat {
    (p: Pair) => if (p.event in hi) == b then HookWork(c) else 0
  }

  ghost function DrainerTerm(c: Config, hi: Class, b: bool): Drainer -> nat {
    (d: Drainer) =>
      match d
      case Claiming(_, _) => 0
      case Dispatching(_, _, pending) => SumSeq(HookTerm(c, hi, b), pending)
  }

  /** The delivery work left on the rows of one class. */
  ghost function Work(c: Config, hi: Class, b: bool, s: State): nat {
    SumMap(RowTerm(c, hi, b), s.rows) + SumBag(MessageTerm(c, hi, b), s.queued)
    + SumMap(JobTerm(c, hi, b), s.jobs) + SumMap(DrainerTerm(c, hi, b), s.drainers)
  }

  ghost function DrainerUpkeep(): Drainer -> nat {
    (d: Drainer) => match d case Claiming(_, _) => 3 case Dispatching(_, full, _) => if full then 7 else 2
  }

  ghost function KickUpkeep(): Job -> nat {
    (j: Job) => if j.phase.Committed? then 5 * j.phase.kicks else 0
  }

  /** Drain messages, drain workers and pending kicks. */
  ghost function Upkeep(s: State): nat {
    4 * |s.drainTasks| + SumMap(DrainerUpkeep(), s.drainers) + SumMap(KickUpkeep(), s.jobs)
  }

  /** The measure went down. */
  ghost predicate Lower(c: Config, hi: Class, s: State, t: State) {
    || Work(c, hi, true, t) < Work(c, hi, true, s)
    || (Work(c, hi, true, t) == Work(c, hi, true, s)
        && (Work(c, hi, false, t) < Work(c, hi, false, s)
            || (Work(c, hi, false, t) == Work(c, hi, false, s) && Upkeep(t) < Upkeep(s))))
  }

  /** Steps the bus takes on its own, handler failures, retries and dead letters included. */
  predicate Autonomous(step: Step) {
    (step.Drain? && (step.move.Claim? || step.move.Publish? || step.move.Queue? || step.move.Finish?))
    || (step.Deliver? && !step.act.Crash?)
  }

  /** No drain message or worker has a batch size of zero. */
  ghost predicate PositiveLimits(c: Config, s: State) {
    && c.batchSize > 0
    && (forall n :: n in s.drainTasks ==> n > 0)
    && (forall w :: w in s.drainers ==> s.drainers[w].limit > 0)
  }

  lemma DrainKeepsLimits(c: Config, s: State, w: Worker, move: DrainMove)
    requires DrainEnabled(c, s, w, move) && PositiveLimits(c, s)
    ensures PositiveLimits(c, DrainApply(c, s, w, move))
  {
    match move
    case Publish(_) =>
    case Queue =>
    case _ =>
  }

  lemma StepKeepsLimits(c: Config, s: State, step: Step)
    requires Enabled(c, s, step) && PositiveLimits(c, s)
    ensures PositiveLimits(c, Apply(c, s, step))
  {
    if step.Drain? {
      DrainKeepsLimits(c, s, step.w, step.move);
    } else if step.Deliver? {
      JobWrites(c, s, step.w, step.act);
      JobKeepsTasks(c, s, step.w, step.act);
    } else {
    }
  }

  lemma JobKeepsTasks(c: Config, s: State, w: Worker, act: JobMove)
    requires JobEnabled(c, s, w, act)
    ensures JobApply(c, s, w, act).drainTasks
            == if act.Kick? && act.reached then s.drainTasks + multiset{c.batchSize} else s.drainTasks
  {
  }

  // --- Delivery steps --------------------------------------------------------------------------

  /** Every delivery step but a commit leaves the rows' share of the work alone. */
  lemma RowsWorkKept(c: Config, hi: Class, b: bool, s: State, w: Worker, act: JobMove)
    requires JobEnabled(c, s, w, act) && !act.Commit?
    ensures SumMap(RowTerm(c, hi, b), JobApply(c, s, w, act).rows) == SumMap(RowTerm(c, hi, b), s.rows)
  {
    JobWrites(c, s, w, act);
    if act.Record? {
      var e := s.jobs[w].delivery.pair.event;
      var row := AfterFailure(c, s.rows[e], s.jobs[w].delivery.attempt, act.error, act.now);
      assert row.publishedAt == s.rows[e].publishedAt && row.env == s.rows[e].env;
      assert JobApply(c, s, w, act).rows == s.rows[e := row];
      SumMapPut(RowTerm(c, hi, b), s.rows, e, row);
    }
  }

  /** The work on messages and jobs of one class. */
  ghost function InHand(c: Config, hi: Class, b: bool, s: State): nat {
    SumBag(MessageTerm(c, hi, b), s.queued) + SumMap(JobTerm(c, hi, b), s.jobs)
  }

  function RowOf(s: State, w: Worker, act: JobMove): EventId
    requires act.Take? || w in s.jobs
  {
    if act.Take? then act.d.pair.event else s.jobs[w].delivery.pair.event
  }

  lemma TakeWork(c: Config, hi: Class, b: bool, s: State, w: Worker, d: Delivery)
    requires JobEnabled(c, s, w, Take(d))
    ensures var t := JobApply(c, s, w, Take(d));
            InHand(c, hi, b, t) + (if (d.pair.event in hi) == b then 1 else 0) == InHand(c, hi, b, s)
  {
    SumBagRemove(MessageTerm(c, hi, b), s.queued, d);
    SumMapPut(JobTerm(c, hi, b), s.jobs, w, Job(d, Started));
  }

  lemma RetryMoves(c: Config, s: State, w: Worker)
    requires JobEnabled(c, s, w, Retry)
    ensures var t, d := JobApply(c, s, w, Retry), s.jobs[w].delivery;
            t.queued == s.queued + multiset{Delivery(d.pair, d.attempt + 1)}
            && t.jobs == s.jobs[w := Job(d, Finished)] && s.jobs[w] == Job(d, Recorded)
  {
  }

  lemma AttemptCosts(c: Config, attempt: nat)
    requires attempt < Budget(c)
    ensures Base(c, attempt) == Base(c, attempt + 1) + 8
  {
  }

  /** A retried job and its new message, told without the step. */
  lemma RetryInHand(c: Config, hi: Class, b: bool, s: State, t: State, w: Worker, d: Delivery)
    requires w in s.jobs && s.jobs[w] == Job(d, Recorded) && d.attempt < Budget(c)
    requires t.queued == s.queued + multiset{Delivery(d.pair, d.attempt + 1)}
    requires t.jobs == s.jobs[w := Job(d, Finished)]
    ensures InHand(c, hi, b, t) + (if (d.pair.event in hi) == b then 2 else 0) == InHand(c, hi, b, s)
  {
    var mine := if (d.pair.event in hi) == b then 1 else 0;
    SumBagAdd(MessageTerm(c, hi, b), s.queued, Delivery(d.pair, d.attempt + 1));
    assert SumBag(MessageTerm(c, hi, b), t.queued)
        == SumBag(MessageTerm(c, hi, b), s.queued) + if mine == 1 then Base(c, d.attempt + 1) + 8 else 0;
    SumMapPut(JobTerm(c, hi, b), s.jobs, w, Job(d, Finished));
    assert SumMap(JobTerm(c, hi, b), t.jobs) + (if mine == 1 then Base(c, d.attempt) + 3 else 0)
        == SumMap(JobTerm(c, hi, b), s.jobs) + (if mine == 1 then 1 else 0);
    AttemptCosts(c, d.attempt);
  }

  lemma RetryWork(c: Config, hi: Class, b: bool, s: State, w: Worker)
    requires JobEnabled(c, s, w, Retry) && s.jobs[w].delivery.attempt < Budget(c)
    ensures var t := JobApply(c, s, w, Retry);
            InHand(c, hi, b, t) + (if (s.jobs[w].delivery.pair.event in hi) == b then 2 else 0) == InHand(c, hi, b, s)
  {
    RetryMoves(c, s, w);
    RetryInHand(c, hi, b, s, JobApply(c, s, w, Retry), w, s.jobs[w].delivery);
  }

  lemma AckWork(c: Config, hi: Class, b: bool, s: State, w: Worker)
    requires JobEnabled(c, s, w, Ack)
    ensures var t := JobApply(c, s, w, Ack);
            InHand(c, hi, b, t) + (if (s.jobs[w].delivery.pair.event in hi) == b then PhaseWork(c, s.jobs[w]) else 0)
            == InHand(c, hi, b, s)
  {
    var t := JobApply(c, s, w, Ack);
    SumMapDrop(JobTerm(c, hi, b), s.jobs, t.jobs, w);
  }

  lemma PhaseFalls(c: Config, s: State, w: Worker, act: JobMove)
    requires JobEnabled(c, s, w, act)
    requires !act.Take? && !act.Ack? && !act.Crash? && !act.Retry?
    ensures var t := JobApply(c, s, w, act);
            w in t.jobs && (if act.Kick? then PhaseWork(c, t.jobs[w]) == PhaseWork(c, s.jobs[w])
                            else PhaseWork(c, t.jobs[w]) < PhaseWork(c, s.jobs[w]))
  {
  }

  lemma MoveWork(c: Config, hi: Class, b: bool, s: State, w: Worker, act: JobMove)
    requires JobEnabled(c, s, w, act)
    requires !act.Take? && !act.Ack? && !act.Crash? && !act.Retry?
    ensures var t := JobApply(c, s, w, act);
            if (s.jobs[w].delivery.pair.event in hi) == b && !act.Kick?
            then InHand(c, hi, b, t) < InHand(c, hi, b, s) else InHand(c, hi, b, t) == InHand(c, hi, b, s)
  {
    PhaseFalls(c, s, w, act);
    JobMovesOnly(c, s, w, act);
    SumMapPut(JobTerm(c, hi, b), s.jobs, w, JobApply(c, s, w, act).jobs[w]);
  }

  /** A delivery step lowers the work in hand on the class of its own row, and on no other. */
  lemma DeliveryWork(c: Config, hi: Class, b: bool, s: State, w: Worker, act: JobMove)
    requires JobEnabled(c, s, w, act) && DeliveriesAimed(c, s) && !act.Crash?
    ensures var t := JobApply(c, s, w, act);
            if (RowOf(s, w, act) in hi) == b && !act.Kick?
            then InHand(c, hi, b, t) < InHand(c, hi, b, s) else InHand(c, hi, b, t) == InHand(c, hi, b, s)
  {
    match act
    case Take(d) => TakeWork(c, hi, b, s, w, d);
    case Retry => RetryWork(c, hi, b, s, w);
    case Ack => AckWork(c, hi, b, s, w);
    case _ => MoveWork(c, hi, b, s, w, act);
  }

  lemma JobMovesOnly(c: Config, s: State, w: Worker, act: JobMove)
    requires JobEnabled(c, s, w, act) && !act.Take? && !act.Ack? && !act.Crash? && !act.Retry?
    ensures var t := JobApply(c, s, w, act);
            w in t.jobs && t.jobs == s.jobs[w := t.jobs[w]] && t.queued == s.queued
            && t.jobs[w].delivery == s.jobs[w].delivery
  {
  }

  /** A delivery step that commits nothing and kicks nothing. */
  lemma PlainDeliveryLowers(c: Config, hi: Class, s: State, w: Worker, act: JobMove)
    requires JobEnabled(c, s, w, act) && DeliveriesAimed(c, s)
    requires !act.Crash? && !act.Commit? && !act.Kick?
    ensures Lower(c, hi, s, JobApply(c, s, w, act))
  {
    JobWrites(c, s, w, act);
    RowsWorkKept(c, hi, true, s, w, act);
    RowsWorkKept(c, hi, false, s, w, act);
    DeliveryWork(c, hi, true, s, w, act);
    DeliveryWork(c, hi, false, s, w, act);
  }

  lemma KickLowers(c: Config, hi: Class, s: State, w: Worker, reached: bool)
    requires JobEnabled(c, s, w, Kick(reached)) && DeliveriesAimed(c, s)
    ensures Lower(c, hi, s, JobApply(c, s, w, Kick(reached)))
  {
    var act := Kick(reached);
    var t := JobApply(c, s, w, act);
    JobWrites(c, s, w, act);
    JobKeepsTasks(c, s, w, act);
    RowsWorkKept(c, hi, true, s, w, act);
    RowsWorkKept(c, hi, false, s, w, act);
    DeliveryWork(c, hi, true, s, w, act);
    DeliveryWork(c, hi, false, s, w, act);
    PhaseMoves(c, s, w, act);
    JobMovesOnly(c, s, w, act);
    SumMapPut(KickUpkeep(), s.jobs, w, t.jobs[w]);
  }

  lemma MergePut(rows: map<EventId, Row>, more: map<EventId, Row>, e: EventId, row: Row)
    ensures rows + more[e := row] == (rows + more)[e := row]
  {
  }

  lemma SealOneMore(rows: map<EventId, Row>, drafts: seq<Draft>, ids: seq<EventId>)
    requires |drafts| == |ids| && ids != [] && Fresh(rows, ids)
    ensures var n := |ids| - 1;
            var some := rows + SealAll(drafts[..n], ids[..n]);
            ids[n] !in some && rows + SealAll(drafts, ids) == some[ids[n] := NewRow(Seal(drafts[n], ids[n]))]
  {
    var n := |ids| - 1;
    var sealed := SealAll(drafts[..n], ids[..n]);
    SealedRows(drafts[..n], ids[..n]);
    assert ids[n] !in sealed;
    MergePut(rows, sealed, ids[n], NewRow(Seal(drafts[n], ids[n])));
  }

  /** Rows drawn under fresh ids weigh nothing on the engine's class. */
  lemma {:induction false} FreshRowsAreLow(c: Config, hi: Class, rows: map<EventId, Row>, drafts: seq<Draft>,
          ids: seq<EventId>)
    requires |drafts| == |ids| && Fresh(rows, ids)
    requires forall i :: 0 <= i < |ids| ==> ids[i] !in hi
    ensures SumMap(RowTerm(c, hi, true), rows + SealAll(drafts, ids)) == SumMap(RowTerm(c, hi, true), rows)
  {
    if ids == [] {
      assert rows + SealAll(drafts, ids) == rows;
    } else {
      var n := |ids| - 1;
      FreshRowsAreLow(c, hi, rows, drafts[..n], ids[..n]);
      SealOneMore(rows, drafts, ids);
      SumMapPut(RowTerm(c, hi, true), rows + SealAll(drafts[..n], ids[..n]), ids[n], NewRow(Seal(drafts[n], ids[n])));
    }
  }

  lemma LowRowsCommitSilently(c: Config, hi: Class, s: State, w: Worker, ids: seq<EventId>)
    requires JobEnabled(c, s, w, Commit(ids)) && DeliveriesAimed(c, s) && OutputsProduced(c, s)
    requires Classifies(c, hi, s) && s.jobs[w].delivery.pair.event !in hi
    ensures JobApply(c, s, w, Commit(ids)).rows == s.rows
  {
  }

  lemma CommittedRows(c: Config, hi: Class, s: State, w: Worker, ids: seq<EventId>)
    requires JobEnabled(c, s, w, Commit(ids)) && Classifies(c, hi, s)
    ensures SumMap(RowTerm(c, hi, true), JobApply(c, s, w, Commit(ids)).rows) == SumMap(RowTerm(c, hi, true), s.rows)
  {
    FreshRowsAreLow(c, hi, s.rows, s.jobs[w].phase.out.drafts, ids);
    assert JobApply(c, s, w, Commit(ids)).rows == s.rows + SealAll(s.jobs[w].phase.out.drafts, ids);
  }

  lemma CommitLowers(c: Config, hi: Class, s: State, w: Worker, ids: seq<EventId>)
    requires JobEnabled(c, s, w, Commit(ids)) && DeliveriesAimed(c, s) && OutputsProduced(c, s)
    requires Classifies(c, hi, s)
    ensures Lower(c, hi, s, JobApply(c, s, w, Commit(ids)))
  {
    JobWrites(c, s, w, Commit(ids));
    DeliveryWork(c, hi, true, s, w, Commit(ids));
    DeliveryWork(c, hi, false, s, w, Commit(ids));
    CommittedRows(c, hi, s, w, ids);
    if s.jobs[w].delivery.pair.event !in hi {
      LowRowsCommitSilently(c, hi, s, w, ids);
    }
  }

  lemma DeliveryLowers(c: Config, hi: Class, s: State, w: Worker, act: JobMove)
    requires JobEnabled(c, s, w, act) && DeliveriesAimed(c, s) && OutputsProduced(c, s)
    requires Classifies(c, hi, s) && !act.Crash?
    ensures Lower(c, hi, s, JobApply(c, s, w, act))
  {
    match act
    case Commit(ids) => CommitLowers(c, hi, s, w, ids);
    case Kick(reached) => KickLowers(c, hi, s, w, reached);
    case _ => PlainDeliveryLowers(c, hi, s, w, act);
  }

  // --- Drain steps -----------------------------------------------------------------------------

  /** How many rows of the batch are of class `b`. */
  ghost function OfClass(hi: Class, b: bool, batch: seq<EventId>): nat {
    SumSeq((e: EventId) => if (e in hi) == b then 1 else 0, batch)
  }

  lemma {:induction false} HooksOfRow(c: Config, hi: Class, b: bool, regs: seq<Registration>, e: EventId)
    ensures SumSeq(HookTerm(c, hi, b), DispatchOf(regs, e)) == if (e in hi) == b then |regs| * HookWork(c) else 0
  {
    var hooks := DispatchOf(regs, e);
    if regs != [] {
      var n := |regs| - 1;
      assert hooks[..n] == DispatchOf(regs[..n], e);
      HooksOfRow(c, hi, b, regs[..n], e);
      assert hooks[n] == Pair(e, regs[n].name);
      assert |regs| * HookWork(c) == n * HookWork(c) + HookWork(c);
    }
  }

  lemma PublishAllGrows(rows: map<EventId, Row>, batch: seq<EventId>, at: Instant)
    requires batch != [] && batch[|batch| - 1] in rows && NoRepeats(batch)
    ensures var e := batch[|batch| - 1];
            var some := PublishAll(rows, batch[..|batch| - 1], at);
            e in some && some[e] == rows[e] && PublishAll(rows, batch, at) == some[e := Published(rows[e], at)]
  {
  }

  lemma DispatchedHooks(c: Config, hi: Class, b: bool, rows: map<EventId, Row>, batch: seq<EventId>)
    requires batch != [] && forall i :: 0 <= i < |batch| ==> batch[i] in rows
    ensures var e := batch[|batch| - 1];
            SumSeq(HookTerm(c, hi, b), Dispatch(c, rows, batch))
            <= SumSeq(HookTerm(c, hi, b), Dispatch(c, rows, batch[..|batch| - 1]))
               + if (e in hi) == b then |c.registry| * HookWork(c) else 0
  {
    var e := batch[|batch| - 1];
    var regs := HandlersFor(c.registry, rows[e].env.topic);
    SumSeqConcat(HookTerm(c, hi, b), Dispatch(c, rows, batch[..|batch| - 1]), DispatchOf(regs, e));
    HooksOfRow(c, hi, b, regs, e);
    DispatchedExactlyTheSubscribers(c.registry, rows[e].env.topic);
    ScaledLe(|regs|, |c.registry|, HookWork(c));
  }

  lemma ScaledLe(m: nat, n: nat, k: nat)
    requires m <= n
    ensures m * k <= n * k
  {
  }

  /** Publishing turns the weight of each row of the batch into at least one unit less of hooks. */
  lemma {:induction false} PublishingPays(c: Config, hi: Class, b: bool, rows: map<EventId, Row>,
          batch: seq<EventId>, at: Instant)
    requires forall i :: 0 <= i < |batch| ==>
             batch[i] in rows && rows[batch[i]].publishedAt.None? && rows[batch[i]].env.id == batch[i]
    requires NoRepeats(batch)
    ensures SumMap(RowTerm(c, hi, b), PublishAll(rows, batch, at))
            + SumSeq(HookTerm(c, hi, b), Dispatch(c, rows, batch)) + OfClass(hi, b, batch)
            <= SumMap(RowTerm(c, hi, b), rows)
  {
    if batch == [] {
      assert PublishAll(rows, batch, at) == rows;
    } else {
      var n := |batch| - 1;
      var front, e := batch[..n], batch[n];
      PublishingPays(c, hi, b, rows, front, at);
      PublishAllGrows(rows, batch, at);
      SumMapPut(RowTerm(c, hi, b), PublishAll(rows, front, at), e, Published(rows[e], at));
      DispatchedHooks(c, hi, b, rows, batch);
    }
  }

  lemma {:induction false} BatchHasAClass(hi: Class, batch: seq<EventId>)
    ensures OfClass(hi, true, batch) + OfClass(hi, false, batch) == |batch|
  {
    if batch != [] {
      BatchHasAClass(hi, batch[..|batch| - 1]);
    }
  }

  lemma PublishWork(c: Config, hi: Class, b: bool, s: State, w: Worker, at: Instant)
    requires DrainEnabled(c, s, w, Publish(at)) && LocksExclusive(s) && IdsMatch(s)
    ensures Work(c, hi, b, DrainApply(c, s, w, Publish(at))) + OfClass(hi, b, s.drainers[w].batch) <= Work(c, hi, b, s)
  {
    var t := DrainApply(c, s, w, Publish(at));
    var batch := s.drainers[w].batch;
    forall i | 0 <= i < |batch| ensures Unpublished(s, batch[i]) {
      assert HoldsLock(s, w, batch[i]);
    }
    PublishingPays(c, hi, b, s.rows, batch, at);
    SumMapPut(DrainerTerm(c, hi, b), s.drainers, w, t.drainers[w]);
  }

  lemma PublishLowers(c: Config, hi: Class, s: State, w: Worker, at: Instant)
    requires DrainEnabled(c, s, w, Publish(at)) && LocksExclusive(s) && IdsMatch(s) && PositiveLimits(c, s)
    ensures Lower(c, hi, s, DrainApply(c, s, w, Publish(at)))
  {
    var t := DrainApply(c, s, w, Publish(at));
    PublishWork(c, hi, true, s, w, at);
    PublishWork(c, hi, false, s, w, at);
    BatchHasAClass(hi, s.drainers[w].batch);
    if s.drainers[w].batch == [] {
      SumMapPut(DrainerUpkeep(), s.drainers, w, t.drainers[w]);
    }
  }

  lemma ClaimLowers(c: Config, hi: Class, s: State, w: Worker, limit: nat, batch: seq<EventId>)
    requires DrainEnabled(c, s, w, Claim(limit, batch))
    ensures Lower(c, hi, s, DrainApply(c, s, w, Claim(limit, batch)))
  {
    var d := Claiming(limit, batch);
    SumMapPut(DrainerTerm(c, hi, true), s.drainers, w, d);
    SumMapPut(DrainerTerm(c, hi, false), s.drainers, w, d);
    SumMapPut(DrainerUpkeep(), s.drainers, w, d);
    assert |s.drainTasks - multiset{limit}| == |s.drainTasks| - 1;
  }

  lemma QueueWorkMoves(c: Config, hi: Class, b: bool, s: State, w: Worker)
    requires DrainEnabled(c, s, w, DrainMove.Queue)
    ensures Work(c, hi, b, DrainApply(c, s, w, DrainMove.Queue))
            == Work(c, hi, b, s) - if (s.drainers[w].pending[0].event in hi) == b then 1 else 0
  {
    var t := DrainApply(c, s, w, DrainMove.Queue);
    var p := s.drainers[w].pending[0];
    SumSeqHead(HookTerm(c, hi, b), s.drainers[w].pending);
    SumMapPut(DrainerTerm(c, hi, b), s.drainers, w, t.drainers[w]);
    SumMapHas(DrainerTerm(c, hi, b), s.drainers, w);
    SumBagAdd(MessageTerm(c, hi, b), s.queued, Delivery(p, 1));
  }

  lemma FinishLowers(c: Config, hi: Class, s: State, w: Worker, requeued: bool)
    requires DrainEnabled(c, s, w, Finish(requeued))
    ensures Lower(c, hi, s, DrainApply(c, s, w, Finish(requeued)))
  {
    var t := DrainApply(c, s, w, Finish(requeued));
    SumMapDrop(DrainerTerm(c, hi, true), s.drainers, t.drainers, w);
    SumMapDrop(DrainerTerm(c, hi, false), s.drainers, t.drainers, w);
    SumMapDrop(DrainerUpkeep(), s.drainers, t.drainers, w);
    assert SumSeq(HookTerm(c, hi, true), []) == 0 == SumSeq(HookTerm(c, hi, false), []);
    assert |s.drainTasks + multiset{s.drainers[w].limit}| == |s.drainTasks| + 1;
  }

  lemma DrainLowers(c: Config, hi: Class, s: State, w: Worker, move: DrainMove)
    requires DrainEnabled(c, s, w, move) && Autonomous(Drain(w, move))
    requires LocksExclusive(s) && IdsMatch(s) && PositiveLimits(c, s)
    ensures Lower(c, hi, s, DrainApply(c, s, w, move))
  {
    match move
    case Claim(limit, batch) => ClaimLowers(c, hi, s, w, limit, batch);
    case Publish(at) => PublishLowers(c, hi, s, w, at);
    case Queue =>
      QueueWorkMoves(c, hi, true, s, w);
      QueueWorkMoves(c, hi, false, s, w);
    case Finish(requeued) => FinishLowers(c, hi, s, w, requeued);
  }

  /** Every step the bus takes on its own lowers the measure. */
  lemma StepLowers(c: Config, hi: Class, s: State, step: Step)
    requires Enabled(c, s, step) && Autonomous(step)
    requires Inv(c, s) && PositiveLimits(c, s) && Classifies(c, hi, s)
    ensures Lower(c, hi, s, Apply(c, s, step))
  {
    if step.Deliver? {
      DeliveryLowers(c, hi, s, step.w, step.act);
    } else {
      DrainLowers(c, hi, s, step.w, step.move);
    }
  }

  // --- Endless runs ----------------------------------------------------------------------------

  /** The classification never changes: what the engine writes it does not consume. */
  lemma ClassesPersist(c: Config, hi: Class, s: State, step: Step)
    requires Enabled(c, s, step) && Autonomous(step) && Acyclic(c)
    requires Inv(c, s) && Classifies(c, hi, s)
    ensures Classifies(c, hi, Apply(c, s, step))
  {
    var t := Apply(c, s, step);
    StepKeepsRows(c, s, step);
    forall e ensures e in hi <==> Wants(c, t, Pair(e, PRIORITY_RECALCULATOR)) {
      if e in s.rows {
      } else if e in t.rows {
        NewRowsAreEmitted(c, s, step, e);
      }
    }
  }

  lemma NewRowsAreEmitted(c: Config, s: State, step: Step, e: EventId)
    requires Enabled(c, s, step) && Autonomous(step) && OutputsProduced(c, s)
    requires e !in s.rows && e in Apply(c, s, step).rows
    ensures Apply(c, s, step).rows[e].env.topic == TOPIC_PROJECT_PRIORITY_RECALCULATED
  {
    if step.Deliver? {
      JobWritesUnpublishedRows(c, s, step.w, step.act, e);
      var out := s.jobs[step.w].phase.out;
      SealedRows(out.drafts, step.act.ids);
      var i :| 0 <= i < |step.act.ids| && step.act.ids[i] == e;
      assert Announces(s.rows[s.jobs[step.w].delivery.pair.event].env, out.trail[i], out.drafts[i]);
    } else {
      DrainWritesNoRow(c, s, step.w, step.move);
    }
  }

  /** With a positive batch size no run ever queues a drain of size zero. */
  lemma {:induction false} RunKeepsLimits(c: Config, s: State, steps: seq<Step>)
    requires PositiveLimits(c, s) && Legal(c, s, steps)
    ensures PositiveLimits(c, Final(c, s, steps))
    decreases |steps|
  {
    if steps != [] {
      StepKeepsLimits(c, s, steps[0]);
      RunKeepsLimits(c, Apply(c, s, steps[0]), steps[1..]);
    }
  }

  /** A run in which the bus is left to itself, as far as it goes. */
  ghost predicate Follows(c: Config, run: nat -> State, steps: nat -> Step, n: nat) {
    Enabled(c, run(n), steps(n)) && Autonomous(steps(n)) && run(n + 1) == Apply(c, run(n), steps(n))
  }

  lemma {:induction false} Descend(c: Config, hi: Class, run: nat -> State, steps: nat -> Step,
                        n: nat) returns (stop: nat)
    requires Inv(c, run(n)) && PositiveLimits(c, run(n)) && Classifies(c, hi, run(n)) && Acyclic(c)
    ensures !Follows(c, run, steps, stop)
    decreases Work(c, hi, true, run(n)), Work(c, hi, false, run(n)), Upkeep(run(n))
  {
    if Follows(c, run, steps, n) {
      StepLowers(c, hi, run(n), steps(n));
      StepKeepsInv(c, run(n), steps(n));
      StepKeepsLimits(c, run(n), steps(n));
      ClassesPersist(c, hi, run(n), steps(n));
      stop := Descend(c, hi, run, steps, n + 1);
    } else {
      stop := n;
    }
  }

  ghost function EngineRows(c: Config, s: State): Class {
    iset e: EventId | Wants(c, s, Pair(e, PRIORITY_RECALCULATOR))
  }

  /**
    The cascade terminates: from any state a run can reach, the bus left to itself stops, whatever
    order the workers take their steps in and however often handlers fail.
  */
  lemma CascadeTerminates(c: Config, history: seq<Step>, run: nat -> State, steps: nat -> Step)
    requires Acyclic(c) && Legal(c, EMPTY, history)
    requires run(0) == Final(c, EMPTY, history) && c.batchSize > 0
    ensures exists stop :: !Follows(c, run, steps, stop)
  {
    EmptyIsGood(c);
    RunKeepsInv(c, EMPTY, history);
    RunKeepsLimits(c, EMPTY, history);
    var stop := Descend(c, EngineRows(c, run(0)), run, steps, 0);
  }
}
