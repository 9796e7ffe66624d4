/**
  The event bus as a step machine.  Any number of producers, drain workers, delivery workers and
  operators interleave; a step is one database commit, one statement outside a transaction, one
  message taken from or put on the broker, or one worker lost.  All nondeterminism is in the step's
  arguments, so `Apply` is a function.
*/
module Protocol {
  import opened Catalog
  import opened Envelopes
  import opened Registry
  import opened Outbox
  import opened Engine
  import Activity

  type Worker = nat

  /** The settings and the registry, fixed for a run. */
  datatype Config = Config(
    registry: seq<Registration>,
    maxAttempts: int,
    batchSize: nat,
    iso: string -> IsoReading)

  /** The idempotency key. */
  datatype Pair = Pair(event: EventId, handler: string)

  /** One `handle_event` message; `attempt` is the retry count plus one. */
  datatype Delivery = Delivery(pair: Pair, attempt: nat)

  /** Where a delivery worker stands. */
  datatype Phase =
    | Started                   // the row has been read
    | Inserted                  // the claim row is inserted, not committed
    | Ran(out: Output)          // the handler has returned, nothing is committed
    | Committed(kicks: nat)     // claim and writes are durable; drain kicks are pending on-commit hooks
    | RolledBack                // the handler raised and took the claim with it
    | Recorded                  // the failure is on the row; the retry is not queued yet
    | Finished                  // only the acknowledgement is left

  datatype Job = Job(delivery: Delivery, phase: Phase)

  /** A drain worker: inside its claiming transaction, or running the hooks the commit released. */
  datatype Drainer =
    | Claiming(limit: nat, batch: seq<EventId>)
    | Dispatching(limit: nat, full: bool, pending: seq<Pair>)

  /** `selected` counts, for each row, the operators who read it as dead-lettered and have yet to save it. */
  datatype State = State(
    rows: map<EventId, Row>,
    claims: set<Pair>,
    drainers: map<Worker, Drainer>,
    drainTasks: multiset<nat>,
    queued: multiset<Delivery>,
    jobs: map<Worker, Job>,
    selected: multiset<EventId>,
    trail: seq<Activity.Record>,
    // History, read by no step: committed handler runs per pair, dispatches and unpublished periods
    // per row, frames put on the SSE channel, those whose run was rolled back, and the trigger of
    // every row the engine wrote.
    effects: multiset<Pair>,
    dispatches: multiset<EventId>,
    periods: multiset<EventId>,
    frames: multiset<EventId>,
    wasted: multiset<EventId>,
    causes: map<EventId, EventId>)

  const EMPTY: State :=
    State(map[], {}, map[], multiset{}, multiset{}, map[], multiset{}, [],
          multiset{}, multiset{}, multiset{}, multiset{}, multiset{}, map[])

  /** What a drain worker does next. */
  datatype DrainMove =
    | Claim(limit: nat, batch: seq<EventId>)  // take a drain message, open the transaction, lock the batch
    | Abort(redelivered: bool)                // the transaction rolls back
    | Publish(at: Instant)                    // the transaction commits with the batch marked published
    | Queue                                   // the next on-commit hook queues its delivery
    | Lose(redelivered: bool)                 // killed, or refused by the broker, with the rest of the hooks
    | Finish(requeued: bool)                  // every hook has run; a full batch queues another drain

  /** What a delivery worker does next. */
  datatype JobMove =
    | Take(d: Delivery)                       // take a message and read its row
    | Insert                                  // insert the claim row, waiting for any open insert of it
    | Run(out: Output)                        // the handler returns
    | Commit(ids: seq<EventId>)               // claim, trail and outbox rows become durable together
    | Kick(reached: bool)                     // one on-commit drain kick, which a dead broker swallows
    | Fail                                    // anything raises inside the transaction
    | Record(error: string, now: Instant)     // the failure, or the dead letter, is saved on the row
    | Retry                                   // the retry is queued
    | Ack
    | Crash                                   // killed; late acknowledgement returns the message

  datatype Step =
    | Produce(id: EventId, draft: Draft, kicked: bool)
    | Sweep
    | Drain(w: Worker, move: DrainMove)
    | Deliver(w: Worker, act: JobMove)
    | Select(chosen: set<EventId>)
    | Requeue(e: EventId)

  ghost predicate ValidConfig(c: Config) {
    DistinctNames(c.registry)
  }

  /** The number of attempts one delivery gets. */
  function Budget(c: Config): nat {
    if c.maxAttempts < 1 then 1 else c.maxAttempts
  }

  predicate Unpublished(s: State, e: EventId) {
    e in s.rows && s.rows[e].publishedAt.None?
  }

  predicate Dead(s: State, e: EventId) {
    e in s.rows && s.rows[e].deadLetteredAt.Some?
  }

  ghost predicate Wants(c: Config, s: State, p: Pair) {
    p.event in s.rows && Subscribed(c.registry, s.rows[p.event].env.topic, p.handler)
  }

  /** Can the handler ever apply this envelope, or does it raise on every attempt? */
  predicate Applicable(c: Config, handler: string, env: Envelope) {
    if handler == PRIORITY_RECALCULATOR then Routable(env, c.iso)
    else if handler == SNAPSHOT_BUILDER then ProjectCodeOf(env).Ok?
    else true
  }

  /** What one successful run of a handler may write: only the engine writes anything to the bus. */
  ghost predicate Produces(c: Config, handler: string, env: Envelope, out: Output) {
    if handler == PRIORITY_RECALCULATOR then EngineOutput(env, c.iso, out) else out == NOTHING
  }

  // --- The claim query -------------------------------------------------------------------------

  /** A row lock held by a claiming transaction. */
  ghost predicate Locked(s: State, e: EventId) {
    exists w :: w in s.drainers && s.drainers[w].Claiming? && e in s.drainers[w].batch
  }

  ghost predicate Claimable(s: State, e: EventId) {
    Unpublished(s, e) && !Locked(s, e)
  }

  /** `ORDER BY occurred_at, id`. */
  predicate Before(rows: map<EventId, Row>, a: EventId, b: EventId)
    requires a in rows && b in rows
  {
    rows[a].env.occurredAt < rows[b].env.occurredAt
    || (rows[a].env.occurredAt == rows[b].env.occurredAt && a < b)
  }

  /** `SELECT ... FOR UPDATE SKIP LOCKED ... LIMIT limit`: the oldest claimable rows, oldest first. */
  ghost predicate IsClaim(s: State, limit: nat, batch: seq<EventId>) {
    && |batch| <= limit
    && (forall i :: 0 <= i < |batch| ==> Claimable(s, batch[i]))
    && (forall i, j :: 0 <= i < j < |batch| ==> Before(s.rows, batch[i], batch[j]))
    && (forall e :: Claimable(s, e) && e !in batch ==>
          |batch| == limit && forall i :: 0 <= i < |batch| ==> Before(s.rows, batch[i], e))
  }

  /** The deliveries a batch is dispatched as: rows in claim order, handlers in name order. */
  function DispatchOf(regs: seq<Registration>, e: EventId): seq<Pair> {
    seq(|regs|, i requires 0 <= i < |regs| => Pair(e, regs[i].name))
  }

  function Dispatch(c: Config, rows: map<EventId, Row>, batch: seq<EventId>): seq<Pair>
    requires forall i :: 0 <= i < |batch| ==> batch[i] in rows
  {
    if batch == [] then []
    else Dispatch(c, rows, batch[..|batch| - 1])
         + DispatchOf(HandlersFor(c.registry, rows[batch[|batch| - 1]].env.topic), batch[|batch| - 1])
  }

  function PublishAll(rows: map<EventId, Row>, batch: seq<EventId>, at: Instant): map<EventId, Row> {
    map e | e in rows :: if e in batch then Published(rows[e], at) else rows[e]
  }

  // --- The unique key --------------------------------------------------------------------------

  /** The worker's open transaction holds an uncommitted claim on the pair. */
  predicate Holds(s: State, w: Worker, p: Pair) {
    w in s.jobs && (s.jobs[w].phase.Inserted? || s.jobs[w].phase.Ran?) && s.jobs[w].delivery.pair == p
  }

  function SealAll(drafts: seq<Draft>, ids: seq<EventId>): map<EventId, Row>
    requires |drafts| == |ids|
  {
    if ids == [] then map[]
    else SealAll(drafts[..|ids| - 1], ids[..|ids| - 1])
         [ids[|ids| - 1] := NewRow(Seal(drafts[|ids| - 1], ids[|ids| - 1]))]
  }

  predicate Fresh(rows: map<EventId, Row>, ids: seq<EventId>) {
    && (forall i :: 0 <= i < |ids| ==> ids[i] !in rows)
    && (forall i, j :: 0 <= i < j < |ids| ==> ids[i] != ids[j])
  }

  /** Publishing on the SSE channel is the fan-out handler's effect, and no rollback takes it back. */
  function FramesOf(p: Pair): multiset<EventId> {
    if p.handler == SSE_FANOUT_HANDLER then multiset{p.event} else multiset{}
  }

  function WastedBy(j: Job): multiset<EventId> {
    if j.phase.Ran? then FramesOf(j.delivery.pair) else multiset{}
  }

  /** The worker stops. */
  function Without<V>(m: map<Worker, V>, w: Worker): map<Worker, V> {
    map k | k in m && k != w :: m[k]
  }

  // --- Steps -----------------------------------------------------------------------------------

  ghost predicate DrainEnabled(c: Config, s: State, w: Worker, move: DrainMove) {
    match move
    case Claim(limit, batch) => w !in s.drainers && limit in s.drainTasks && IsClaim(s, limit, batch)
    case Abort(_) => w in s.drainers && s.drainers[w].Claiming?
    case Publish(_) => w in s.drainers && s.drainers[w].Claiming?
                       && forall i :: 0 <= i < |s.drainers[w].batch| ==> s.drainers[w].batch[i] in s.rows
    case Queue => w in s.drainers && s.drainers[w].Dispatching? && s.drainers[w].pending != []
    case Lose(_) => w in s.drainers && s.drainers[w].Dispatching?
    case Finish(requeued) => w in s.drainers && s.drainers[w].Dispatching? && s.drainers[w].pending == []
                             && (requeued ==> s.drainers[w].full)
  }

  function Redelivered(tasks: multiset<nat>, limit: nat, again: bool): multiset<nat> {
    if again then tasks + multiset{limit} else tasks
  }

  ghost function DrainApply(c: Config, s: State, w: Worker, move: DrainMove): State
    requires DrainEnabled(c, s, w, move)
  {
    match move
    case Claim(limit, batch) =>
      s.(drainTasks := s.drainTasks - multiset{limit}, drainers := s.drainers[w := Claiming(limit, batch)])
    case Abort(again) =>
      s.(drainers := Without(s.drainers, w), drainTasks := Redelivered(s.drainTasks, s.drainers[w].limit, again))
    case Publish(at) =>
      var d := s.drainers[w];
      s.(rows := PublishAll(s.rows, d.batch, at),
         dispatches := s.dispatches + multiset(d.batch),
         drainers := s.drainers[w := Dispatching(d.limit, |d.batch| == d.limit, Dispatch(c, s.rows, d.batch))])
    case Queue =>
      var d := s.drainers[w];
      s.(queued := s.queued + multiset{Delivery(d.pending[0], 1)},
         drainers := s.drainers[w := d.(pending := d.pending[1..])])
    case Lose(again) =>
      s.(drainers := Without(s.drainers, w), drainTasks := Redelivered(s.drainTasks, s.drainers[w].limit, again))
    case Finish(requeued) =>
      s.(drainers := Without(s.drainers, w), drainTasks := Redelivered(s.drainTasks, s.drainers[w].limit, requeued))
  }

  ghost predicate JobEnabled(c: Config, s: State, w: Worker, act: JobMove) {
    if act.Take? then
      w !in s.jobs && act.d in s.queued
    else
      w in s.jobs && (
      var job := s.jobs[w];
      var pair := job.delivery.pair;
      match act
      case Take(_) => false
      case Insert => job.phase.Started? && forall v :: !Holds(s, v, pair)
      case Run(out) => job.phase.Inserted? && pair.event in s.rows
                       && Applicable(c, pair.handler, s.rows[pair.event].env)
                       && Produces(c, pair.handler, s.rows[pair.event].env, out)
      case Commit(ids) => job.phase.Ran? && |ids| == |job.phase.out.drafts| && Fresh(s.rows, ids)
      case Kick(_) => job.phase.Committed? && job.phase.kicks > 0
      case Fail => job.phase.Started? || job.phase.Inserted? || job.phase.Ran?
      case Record(_, _) => job.phase.RolledBack? && pair.event in s.rows && !Locked(s, pair.event)
      case Retry => job.phase.Recorded?
      case Ack => job.phase.Finished? || job.phase == Committed(0)
      case Crash => true)
  }

  /** `record_failure` while attempts remain, `mark_dead_lettered` once the budget is spent. */
  function AfterFailure(c: Config, row: Row, attempt: nat, error: string, now: Instant): Row {
    if attempt >= c.maxAttempts then DeadLettered(row, error, attempt, now) else FailureRecorded(row, error, attempt)
  }

  ghost function JobApply(c: Config, s: State, w: Worker, act: JobMove): State
    requires JobEnabled(c, s, w, act)
  {
    if act.Take? then
      s.(queued := s.queued - multiset{act.d}, jobs := s.jobs[w := Job(act.d, Started)])
    else
      var job := s.jobs[w];
      var pair := job.delivery.pair;
      match act
      case Take(_) => s
      case Insert =>
        s.(jobs := s.jobs[w := job.(phase := if pair in s.claims then Finished else Inserted)])
      case Run(out) =>
        s.(jobs := s.jobs[w := job.(phase := Ran(out))], frames := s.frames + FramesOf(pair))
      case Commit(ids) =>
        s.(rows := s.rows + SealAll(job.phase.out.drafts, ids),
           trail := s.trail + job.phase.out.trail,
           claims := s.claims + {pair},
           effects := s.effects + multiset{pair},
           periods := s.periods + multiset(ids),
           causes := s.causes + (map e | e in ids :: pair.event),
           jobs := s.jobs[w := job.(phase := Committed(|ids|))])
      case Kick(reached) =>
        s.(jobs := s.jobs[w := job.(phase := Committed(job.phase.kicks - 1))],
           drainTasks := Redelivered(s.drainTasks, c.batchSize, reached))
      case Fail =>
        s.(jobs := s.jobs[w := job.(phase := RolledBack)], wasted := s.wasted + WastedBy(job))
      case Record(error, now) =>
        s.(rows := s.rows[pair.event := AfterFailure(c, s.rows[pair.event], job.delivery.attempt, error, now)],
           jobs := s.jobs[w := job.(phase := if job.delivery.attempt >= c.maxAttempts then Finished else Recorded)])
      case Retry =>
        s.(queued := s.queued + multiset{Delivery(pair, job.delivery.attempt + 1)},
           jobs := s.jobs[w := job.(phase := Finished)])
      case Ack =>
        s.(jobs := Without(s.jobs, w))
      case Crash =>
        s.(jobs := Without(s.jobs, w),
           queued := s.queued + multiset{job.delivery},
           wasted := s.wasted + WastedBy(job))
  }

  ghost predicate Enabled(c: Config, s: State, step: Step) {
    match step
    case Produce(id, _, _) => id !in s.rows
    case Sweep => true
    case Drain(w, move) => DrainEnabled(c, s, w, move)
    case Deliver(w, act) => JobEnabled(c, s, w, act)
    case Select(chosen) => forall e :: e in chosen ==> Dead(s, e)
    case Requeue(e) => e in s.selected && e in s.rows && !Locked(s, e)
  }

  ghost function Apply(c: Config, s: State, step: Step): State
    requires Enabled(c, s, step)
  {
    match step
    case Produce(id, draft, kicked) =>
      s.(rows := s.rows[id := NewRow(Seal(draft, id))],
         periods := s.periods + multiset{id},
         drainTasks := Redelivered(s.drainTasks, c.batchSize, kicked))
    case Sweep =>
      s.(drainTasks := s.drainTasks + multiset{c.batchSize})
    case Drain(w, move) => DrainApply(c, s, w, move)
    case Deliver(w, act) => JobApply(c, s, w, act)
    case Select(chosen) =>
      s.(selected := s.selected + multiset(chosen))
    case Requeue(e) =>
      s.(rows := s.rows[e := Requeued(s.rows[e])],
         selected := s.selected - multiset{e},
         periods := if s.rows[e].publishedAt.Some? then s.periods + multiset{e} else s.periods)
  }

  // --- Runs ------------------------------------------------------------------------------------

  /** Every step of the run is enabled where it is taken. */
  ghost predicate Legal(c: Config, s: State, steps: seq<Step>)
    decreases |steps|
  {
    steps == [] || (Enabled(c, s, steps[0]) && Legal(c, Apply(c, s, steps[0]), steps[1..]))
  }

  ghost function Final(c: Config, s: State, steps: seq<Step>): State
    requires Legal(c, s, steps)
    decreases |steps|
  {
    if steps == [] then s else Final(c, Apply(c, s, steps[0]), steps[1..])
  }

  lemma RunOn(c: Config, s: State, step: Step, t: State, rest: seq<Step>, steps: seq<Step>)
    requires Enabled(c, s, step) && t == Apply(c, s, step) && Legal(c, t, rest)
    requires |steps| == 1 + |rest| && steps[0] == step && forall i :: 0 <= i < |rest| ==> steps[1 + i] == rest[i]
    ensures Legal(c, s, steps) && Final(c, s, steps) == Final(c, t, rest)
  {
    assert steps[1..] == rest;
  }

  lemma {:induction false} RunsCompose(c: Config, s: State, first: seq<Step>, second: seq<Step>)
    requires Legal(c, s, first) && Legal(c, Final(c, s, first), second)
    ensures Legal(c, s, first + second)
    ensures Final(c, s, first + second) == Final(c, Final(c, s, first), second)
    decreases |first|
  {
    if first == [] {
      assert first + second == second;
    } else {
      var t := Apply(c, s, first[0]);
      RunsCompose(c, t, first[1..], second);
      RunOn(c, s, first[0], t, first[1..] + second, first + second);
    }
  }

  /** The run leads to this state. */
  ghost predicate ReachedBy(c: Config, log: seq<Step>, s: State) {
    Legal(c, EMPTY, log) && s == Final(c, EMPTY, log)
  }

  lemma Extend(c: Config, log: seq<Step>, s: State, step: Step)
    requires ReachedBy(c, log, s) && Enabled(c, s, step)
    ensures ReachedBy(c, log + [step], Apply(c, s, step))
  {
    assert [step][1..] == [];
    assert Legal(c, Apply(c, s, step), []);
    assert Legal(c, s, [step]) && Final(c, s, [step]) == Apply(c, s, step);
    RunsCompose(c, EMPTY, log, [step]);
  }
}
