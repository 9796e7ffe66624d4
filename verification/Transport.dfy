/**
  The transport as the tasks and the write port run it, over mutable tables and queues: enqueueing, a
  drain pass, the whole drain of a backlog, and one delivery.  `Valid` says that the tables are a state
  the step machine reaches, so everything proved about its runs holds of them.
*/
module Transport {
  import opened Prelude
  import opened Text
  import opened Catalog
  import opened Envelopes
  import opened Registry
  import opened Outbox
  import opened Engine
  import Activity
  import opened Protocol
  import opened BusInvariants
  import opened BusSafety
  import opened BusDrain

  datatype EnqueueError = UnknownTopic(topic: Topic) | InvalidEnvelope

  predicate Fits(text: string, width: nat) {
    1 <= |text| <= width
  }

  /** What the envelope's own schema demands. */
  predicate WellFormedDraft(d: Draft) {
    && Fits(d.topic, 64) && Fits(d.actor, 32) && Fits(d.entity.kind, 16) && Fits(d.entity.id, 32)
    && d.version >= 1
  }

  /** Every topic of the catalogue fits, so an accepted topic's envelope is refused for its other columns alone. */
  lemma InvalidExactlyWhen(d: Draft)
    requires d.topic in ALL_TOPICS
    ensures !WellFormedDraft(d) <==>
            d.actor == "" || |d.actor| > 32 || d.entity.kind == "" || |d.entity.kind| > 16
            || d.entity.id == "" || |d.entity.id| > 32 || d.version == 0
  {
  }

  /** What one execution of `handle_event` ends in. */
  datatype Outcome = Applied | Duplicate | Retried | DeadLetter

  /** `handle_event` finds its row and its handler: the missing and unregistered outcomes do not occur. */
  lemma MessagesAreAimed(c: Config, log: seq<Step>, s: State, d: Delivery)
    requires ReachedBy(c, log, s) && d in s.queued
    ensures d.pair.event in s.rows && Lookup(c.registry, d.pair.handler).Some? && d.attempt >= 1
  {
    EmptyIsGood(c);
    RunKeepsInv(c, EMPTY, log);
    assert WellAimed(c, s, d);
    LookupFinds(c.registry, d.pair.handler);
  }

  // --- Dispatching batch after batch ---------------------------------------------------------------

  function Messages(pairs: seq<Pair>): seq<Delivery> {
    seq(|pairs|, i requires 0 <= i < |pairs| => Delivery(pairs[i], 1))
  }

  /** The rows tell the same stories. */
  ghost predicate SameEnvelopes(rows: map<EventId, Row>, others: map<EventId, Row>) {
    rows.Keys == others.Keys && forall e :: e in rows ==> rows[e].env == others[e].env
  }

  ghost predicate AllIn(batch: seq<EventId>, rows: map<EventId, Row>) {
    forall i :: 0 <= i < |batch| ==> batch[i] in rows
  }

  lemma DispatchLast(c: Config, rows: map<EventId, Row>, front: seq<EventId>, e: EventId)
    requires AllIn(front, rows) && e in rows
    ensures AllIn(front + [e], rows)
    ensures Dispatch(c, rows, front + [e])
            == Dispatch(c, rows, front) + DispatchOf(HandlersFor(c.registry, rows[e].env.topic), e)
  {
  }

  lemma {:induction false} DispatchJoins(c: Config, rows: map<EventId, Row>, first: seq<EventId>,
          second: seq<EventId>)
    requires AllIn(first, rows) && AllIn(second, rows)
    ensures AllIn(first + second, rows)
    ensures Dispatch(c, rows, first + second) == Dispatch(c, rows, first) + Dispatch(c, rows, second)
  {
    if second == [] {
      assert first + second == first;
    } else {
      var front, e := second[..|second| - 1], second[|second| - 1];
      assert second == front + [e] && first + second == (first + front) + [e];
      DispatchJoins(c, rows, first, front);
      DispatchLast(c, rows, front, e);
      DispatchLast(c, rows, first + front, e);
      Regroup(Dispatch(c, rows, first), Dispatch(c, rows, front),
              DispatchOf(HandlersFor(c.registry, rows[e].env.topic), e));
    }
  }

  /** One row is dispatched to its handlers in name order, to none twice. */
  lemma RowIsDispatchedInNameOrder(c: Config, rows: map<EventId, Row>, e: EventId, i: nat, j: nat)
    requires ValidConfig(c) && e in rows && i < j < |Dispatch(c, rows, [e])|
    ensures var (first, second) := (Dispatch(c, rows, [e])[i], Dispatch(c, rows, [e])[j]);
            && first.event == second.event == e && TextLe(first.handler, second.handler)
            && first.handler != second.handler
  {
    var regs := HandlersFor(c.registry, rows[e].env.topic);
    assert [e][..0] == [] && Dispatch(c, rows, [e]) == [] + DispatchOf(regs, e);
    DispatchIsOrderedAndDistinct(c.registry, rows[e].env.topic);
    assert ByName(regs[i], regs[j]);
  }

  lemma {:induction false} DispatchReadsTopics(c: Config, rows: map<EventId, Row>, others: map<EventId, Row>,
          batch: seq<EventId>)
    requires SameEnvelopes(rows, others) && AllIn(batch, rows)
    ensures AllIn(batch, others) && Dispatch(c, rows, batch) == Dispatch(c, others, batch)
  {
    if batch != [] {
      DispatchReadsTopics(c, rows, others, batch[..|batch| - 1]);
      assert batch[|batch| - 1] in rows;
    }
  }

  lemma TakeFirst<T>(queue: seq<T>)
    requires queue != []
    ensures queue[0] in multiset(queue) && multiset(queue) - multiset{queue[0]} == multiset(queue[1..])
  {
    assert queue == [queue[0]] + queue[1..];
  }

  /** The drain messages `n` kicks leave on the broker. */
  function Kicks(c: Config, n: nat, reached: bool): seq<nat> {
    if reached then seq(n, _ => c.batchSize) else []
  }

  lemma OneMoreKick(c: Config, n: nat, reached: bool)
    ensures Kicks(c, n + 1, reached) == Kicks(c, n, reached) + (if reached then [c.batchSize] else [])
  {
  }

  /** What one pass does: the oldest rows are published, their deliveries appended to the queue. */
  ghost predicate OnePass(c: Config, s: State, before: seq<Delivery>, limit: nat, now: Instant,
                          rows: map<EventId, Row>, after: seq<Delivery>, dispatched: nat)
  {
    var batch := Prefix(Pending(s), limit);
    && dispatched == |batch| && AllIn(batch, s.rows)
    && rows == PublishAll(s.rows, batch, now)
    && after == before + Messages(Dispatch(c, s.rows, batch))
  }

  lemma ProduceMoves(c: Config, log: seq<Step>, s: State, draft: Draft, id: EventId, kicked: bool)
    returns (t: State, longer: seq<Step>)
    requires ReachedBy(c, log, s) && id !in s.rows
    ensures ReachedBy(c, longer, t) && log <= longer
    ensures t == s.(rows := s.rows[id := NewRow(Seal(draft, id))], drainTasks := t.drainTasks, periods := t.periods)
    ensures t.drainTasks == if kicked then s.drainTasks + multiset{c.batchSize} else s.drainTasks
  {
    var step := Produce(id, draft, kicked);
    Extend(c, log, s, step);
    t, longer := Apply(c, s, step), log + [step];
  }

  // --- The tables ------------------------------------------------------------------------------------

  class Bus {
    const config: Config
    var rows: map<EventId, Row>
    var claims: set<Pair>
    var trail: seq<Activity.Record>
    var drainTasks: seq<nat>
    var queued: seq<Delivery>
    ghost var model: State
    ghost var log: seq<Step>

    /** The model is what the logged run leads to. */
    ghost predicate Reached()
      reads this
    {
      ReachedBy(config, log, model)
    }

    /** The tables and the delivery queue hold what the model holds; `tasks` and `drainers` say where a drain stands. */
    ghost predicate Coupled(tasks: multiset<nat>, drainers: map<Worker, Drainer>)
      reads this
    {
      && Reached() && model.jobs == map[]
      && model.rows == rows && model.claims == claims && model.trail == trail
      && model.queued == multiset(queued)
      && model.drainTasks == tasks && model.drainers == drainers
    }

    /** Between two tasks nobody is working. */
    ghost predicate Valid()
      reads this
    {
      Coupled(multiset(drainTasks), map[])
    }

    constructor (config: Config)
      ensures Valid() && this.config == config && log == []
    {
      this.config := config;
      rows := map[];
      claims := {};
      trail := [];
      drainTasks := [];
      queued := [];
      model := EMPTY;
      log := [];
    }

    /** The row and the kick, once the envelope is accepted. */
    method AppendRow(draft: Draft, id: EventId, brokerUp: bool)
      requires Valid() && id !in rows
      modifies this`rows, this`drainTasks, this`model, this`log
      ensures Valid() && old(log) <= log
      ensures rows == old(rows)[id := NewRow(Seal(draft, id))]
      ensures drainTasks == if brokerUp then old(drainTasks) + [config.batchSize] else old(drainTasks)
    {
      model, log := ProduceMoves(config, log, model, draft, id, brokerUp);
      rows := rows[id := NewRow(Seal(draft, id))];
      if brokerUp {
        drainTasks := drainTasks + [config.batchSize];
      }
    }

    /** `enqueue_event` and its on-commit kick, which a dead broker swallows; a refused event leaves no trace. */
    method EnqueueEvent(draft: Draft, id: EventId, brokerUp: bool) returns (r: Result<Envelope, EnqueueError>)
      requires Valid() && id !in rows
      modifies this
      ensures Valid() && old(log) <= log
      ensures claims == old(claims) && trail == old(trail) && queued == old(queued)
      ensures draft.topic !in ALL_TOPICS ==> r == Err(UnknownTopic(draft.topic))
      ensures draft.topic in ALL_TOPICS && !WellFormedDraft(draft) ==> r == Err(InvalidEnvelope)
      ensures r.Err? ==> rows == old(rows) && drainTasks == old(drainTasks) && log == old(log)
      ensures draft.topic in ALL_TOPICS && WellFormedDraft(draft) ==>
                && r.Ok? && Carries(r.value, draft, id)
                && rows == old(rows)[id := Row(r.value, None, None, 0, "")]
                && drainTasks == if brokerUp then old(drainTasks) + [config.batchSize] else old(drainTasks)
    {
      if draft.topic !in ALL_TOPICS {
        return Err(UnknownTopic(draft.topic));
      }
      if !WellFormedDraft(draft) {
        return Err(InvalidEnvelope);
      }
      r := Ok(Seal(draft, id));
      AppendRow(draft, id, brokerUp);
    }

    /** The claim query against tables no other worker has locked. */
    method ClaimBatch(limit: nat) returns (batch: seq<EventId>)
      requires Valid()
      ensures IsClaim(model, limit, batch)
      ensures batch == Prefix(Pending(model), limit)
    {
      batch := OldestUnpublished(limit);
      assert forall e :: Claimable(model, e) <==> e in rows && rows[e].publishedAt.None?;
      ClaimTakesTheOldest(model, limit, batch);
    }

    /** `ORDER BY occurred_at, id LIMIT limit` over the unpublished rows. */
    method OldestUnpublished(limit: nat) returns (batch: seq<EventId>)
      ensures |batch| <= limit && InOrder(rows, batch)
      ensures forall i :: 0 <= i < |batch| ==> rows[batch[i]].publishedAt.None?
      ensures forall e :: e in rows && rows[e].publishedAt.None? && e !in batch ==>
                |batch| == limit && forall i :: 0 <= i < |batch| ==> Before(rows, batch[i], e)
    {
      var pool := set e | e in rows && rows[e].publishedAt.None?;
      batch := [];
      while |batch| < limit && pool != {}
        invariant |batch| <= limit && pool <= rows.Keys && InOrder(rows, batch)
        invariant forall e :: e in pool <==> e in rows && rows[e].publishedAt.None? && e !in batch
        invariant forall i :: 0 <= i < |batch| ==> rows[batch[i]].publishedAt.None?
        invariant forall i, e :: 0 <= i < |batch| && e in pool ==> Before(rows, batch[i], e)
        decreases |pool|
      {
        var e := OldestIn(pool);
        batch := batch + [e];
        pool := pool - {e};
      }
    }

    method OldestIn(pool: set<EventId>) returns (least: EventId)
      requires pool != {} && pool <= rows.Keys
      ensures Oldest(rows, pool, least)
    {
      least :| least in pool;
      var rest := pool - {least};
      while rest != {}
        invariant rest <= pool && least in pool
        invariant forall x :: x in pool && x !in rest && x != least ==> Before(rows, least, x)
        decreases |rest|
      {
        var x :| x in rest;
        if x != least && Before(rows, x, least) {
          least := x;
        }
        rest := rest - {x};
      }
    }

    /** The loop of `_claim_and_dispatch`: the batch is marked under one timestamp, its hooks registered in order. */
    method MarkBatch(batch: seq<EventId>, now: Instant) returns (hooks: seq<Pair>)
      requires AllIn(batch, rows)
      modifies this`rows
      ensures rows == PublishAll(old(rows), batch, now)
      ensures hooks == Dispatch(config, old(rows), batch)
    {
      ghost var before := rows;
      hooks := [];
      for i := 0 to |batch|
        invariant rows == PublishAll(before, batch[..i], now)
        invariant hooks == Dispatch(config, before, batch[..i])
      {
        var e := batch[i];
        MarkOneMore(before, batch, i, now);
        assert batch[..i + 1][..i] == batch[..i];
        var handlers := HandlersFor(config.registry, rows[e].env.topic);
        hooks := HooksForRow(hooks, handlers, e);
        rows := rows[e := Published(rows[e], now)];
      }
      assert batch[..|batch|] == batch;
    }

    /** `_queue_delivery`. */
    method RunHook(limit: nat, full: bool, hooks: seq<Pair>, ghost tasks: multiset<nat>)
      requires hooks != [] && Coupled(tasks, map[0 := Dispatching(limit, full, hooks)])
      modifies this`queued, this`model, this`log
      ensures Coupled(tasks, map[0 := Dispatching(limit, full, hooks[1..])]) && old(log) <= log
      ensures queued == old(queued) + [Delivery(hooks[0], 1)]
    {
      model, log := QueueMoves(config, log, model, limit, full, hooks);
      queued := queued + [Delivery(hooks[0], 1)];
    }

    /** The on-commit hooks: one delivery queued for each, in the order they were registered. */
    method RunHooks(limit: nat, full: bool, hooks: seq<Pair>, ghost tasks: multiset<nat>)
      requires Coupled(tasks, map[0 := Dispatching(limit, full, hooks)])
      modifies this`queued, this`model, this`log
      ensures Coupled(tasks, map[0 := Dispatching(limit, full, [])]) && old(log) <= log
      ensures queued == old(queued) + Messages(hooks)
    {
      for k := 0 to |hooks|
        invariant Coupled(tasks, map[0 := Dispatching(limit, full, hooks[k..])]) && old(log) <= log
        invariant queued == old(queued) + Messages(hooks[..k])
      {
        RunHook(limit, full, hooks[k..], tasks);
        assert hooks[k..][1..] == hooks[k + 1..];
        assert Messages(hooks[..k + 1]) == Messages(hooks[..k]) + [Delivery(hooks[k], 1)];
      }
      assert hooks[..|hooks|] == hooks && hooks[|hooks|..] == [];
    }

    /** The claiming transaction opens. */
    method OpenClaim(limit: nat) returns (batch: seq<EventId>)
      requires Valid() && limit in model.drainTasks
      modifies this`model, this`log
      ensures Coupled(multiset(drainTasks) - multiset{limit}, map[0 := Claiming(limit, batch)]) && old(log) <= log
      ensures batch == Prefix(Pending(old(model)), limit) && AllIn(batch, rows)
    {
      batch := ClaimBatch(limit);
      model, log := ClaimMoves(config, log, model, limit, batch);
    }

    /** It commits with the batch marked published. */
    method CommitClaim(limit: nat, batch: seq<EventId>, now: Instant,
                       ghost tasks: multiset<nat>) returns (hooks: seq<Pair>)
      requires Coupled(tasks, map[0 := Claiming(limit, batch)]) && AllIn(batch, rows)
      modifies this`rows, this`model, this`log
      ensures Coupled(tasks, map[0 := Dispatching(limit, |batch| == limit, hooks)]) && old(log) <= log
      ensures rows == PublishAll(old(rows), batch, now)
      ensures hooks == Dispatch(config, old(rows), batch)
    {
      hooks := MarkBatch(batch, now);
      model, log := PublishMoves(config, log, model, limit, batch, now);
    }

    /** `_claim_and_dispatch` and the hooks its commit releases. */
    method ClaimAndDispatch(limit: nat, now: Instant) returns (dispatched: nat)
      requires Valid() && limit in model.drainTasks
      modifies this`rows, this`queued, this`model, this`log
      ensures Coupled(multiset(drainTasks) - multiset{limit}, map[0 := Dispatching(limit, dispatched == limit, [])])
      ensures old(log) <= log
      ensures OnePass(config, old(model), old(queued), limit, now, rows, queued, dispatched)
    {
      ghost var tasks := multiset(drainTasks) - multiset{limit};
      var batch := OpenClaim(limit);
      var hooks := CommitClaim(limit, batch, now, tasks);
      RunHooks(limit, |batch| == limit, hooks, tasks);
      dispatched := |batch|;
    }

    /** One on-commit hook per subscribed handler. */
    static method HooksForRow(hooks: seq<Pair>, handlers: seq<Registration>, e: EventId) returns (more: seq<Pair>)
      ensures more == hooks + DispatchOf(handlers, e)
    {
      more := hooks;
      for j := 0 to |handlers|
        invariant more == hooks + DispatchOf(handlers[..j], e)
      {
        more := more + [Pair(e, handlers[j].name)];
        assert DispatchOf(handlers[..j + 1], e) == DispatchOf(handlers[..j], e) + [Pair(e, handlers[j].name)];
      }
      assert handlers[..|handlers|] == handlers;
    }

    /** A full batch, and only a full batch, queues the next pass. */
    method FinishPass(limit: nat, full: bool)
      requires drainTasks != [] && drainTasks[0] == limit
      requires Coupled(multiset(drainTasks[1..]), map[0 := Dispatching(limit, full, [])])
      modifies this`drainTasks, this`model, this`log
      ensures Valid() && old(log) <= log
      ensures drainTasks == old(drainTasks)[1..] + (if full then [limit] else [])
    {
      model, log := FinishMoves(config, log, model, limit, full);
      drainTasks := drainTasks[1..] + if full then [limit] else [];
    }

    /** `drain_outbox`: one pass, and a drain message for the next one exactly when the batch was full. */
    method DrainOutbox(now: Instant) returns (dispatched: nat)
      requires Valid() && drainTasks != []
      modifies this
      ensures Valid() && old(log) <= log
      ensures claims == old(claims) && trail == old(trail)
      ensures OnePass(config, old(model), old(queued), old(drainTasks)[0], now, rows, queued, dispatched)
      ensures Pending(old(model)) == Prefix(Pending(old(model)), old(drainTasks)[0]) + Pending(model)
      ensures drainTasks == old(drainTasks)[1..]
              + (if dispatched == old(drainTasks)[0] then [old(drainTasks)[0]] else [])
    {
      var limit := drainTasks[0];
      TakeFirst(drainTasks);
      ghost var before := model;
      dispatched := ClaimAndDispatch(limit, now);
      FinishPass(limit, dispatched == limit);
      BacklogAfterOnePass(config, before, old(queued), limit, now, model, queued, dispatched);
    }

    /** One pass of a drain that began at `start` and has dispatched `done` since. */
    method NextPass(limit: nat, now: Instant, passes: nat,
                    ghost start: State, ghost first: seq<Delivery>, ghost done: seq<EventId>)
      requires Valid() && drainTasks == [limit] && limit > 0
      requires PassesAgree(start, model, done, limit, passes, true)
      requires SentSoFar(config, start.rows, rows, first, queued, done)
      modifies this
      ensures Valid() && old(log) <= log && claims == old(claims) && trail == old(trail)
      ensures drainTasks == [] || (drainTasks == [limit] && |Pending(model)| < |Pending(old(model))|)
      ensures |Pending(model)| <= |Pending(old(model))|
      ensures var gone := done + Prefix(Pending(old(model)), limit);
              && PassesAgree(start, model, gone, limit, passes + 1, drainTasks != [])
              && SentSoFar(config, start.rows, rows, first, queued, gone)
    {
      ghost var before, sent := model, queued;
      var dispatched := DrainOutbox(now);
      OneMorePass(start, before, model, done, limit, passes);
      OneMoreSent(config, start.rows, before, rows, first, sent, queued, done, limit, now, dispatched);
    }

    /**
      A drain left to itself: it goes on until a pass is not full, and then the whole backlog has been
      published and queued, in one pass's order, in `n / limit + 1` passes.
    */
    method DrainBacklog(limit: nat, clock: nat -> Instant) returns (passes: nat)
      requires Valid() && drainTasks == [limit] && limit > 0
      modifies this
      ensures Valid() && old(log) <= log && drainTasks == []
      ensures claims == old(claims) && trail == old(trail)
      ensures passes == |Pending(old(model))| / limit + 1 && Pending(model) == []
      ensures SentSoFar(config, old(rows), rows, old(queued), queued, Pending(old(model)))
    {
      ghost var start, first := model, queued;
      ghost var done: seq<EventId> := [];
      passes := 0;
      while drainTasks != []
        invariant Valid() && old(log) <= log && claims == old(claims) && trail == old(trail)
        invariant drainTasks == [] || drainTasks == [limit]
        invariant PassesAgree(start, model, done, limit, passes, drainTasks != [])
        invariant SentSoFar(config, start.rows, rows, first, queued, done)
        decreases |Pending(model)|, |drainTasks|
      {
        ghost var batch := Prefix(Pending(model), limit);
        NextPass(limit, clock(passes), passes, start, first, done);
        done := done + batch;
        passes := passes + 1;
      }
      assert done + [] == done;
    }

    // --- One delivery ------------------------------------------------------------------------------

    /** Inside a task: the one worker is on `job`. */
    ghost predicate Working(job: Job)
      reads this
    {
      && Reached() && model.jobs == map[0 := job] && model.drainers == map[]
      && model.rows == rows && model.claims == claims && model.trail == trail
      && model.queued == multiset(queued) && model.drainTasks == multiset(drainTasks)
    }

    /** The task message is taken and its row read: the row is there, and so is the handler. */
    method TakeNext() returns (d: Delivery)
      requires Valid() && queued != []
      modifies this`queued, this`model, this`log
      ensures Working(Job(d, Started)) && old(log) <= log
      ensures d == old(queued)[0] && queued == old(queued)[1..]
      ensures d.pair.event in rows && Lookup(config.registry, d.pair.handler).Some? && d.attempt >= 1
    {
      d := queued[0];
      assert d in queued;
      MessagesAreAimed(config, log, model, d);
      model, log := TakeMoves(config, log, model, queued);
      queued := queued[1..];
    }

    /** One step of the worker that touches nothing but its own phase. */
    ghost method Advance(d: Delivery, before: Phase, act: JobMove, after: Phase)
      requires Working(Job(d, before)) && OwnMove(config, model, d, before, act, after)
      modifies this`model, this`log
      ensures Working(Job(d, after)) && old(log) <= log
    {
      model, log := OwnMoveApplies(config, log, model, d, before, act, after);
    }

    ghost method Acknowledge(d: Delivery)
      requires Working(Job(d, Finished)) || Working(Job(d, Committed(0)))
      modifies this`model, this`log
      ensures Valid() && old(log) <= log
    {
      model, log := AckMoves(config, log, model);
    }

    /** Claim, handler writes and outbox rows commit together. */
    method CommitEffect(d: Delivery, out: Output, ids: seq<EventId>)
      requires Working(Job(d, Ran(out))) && |ids| == |out.drafts| && Fresh(rows, ids)
      modifies this`rows, this`claims, this`trail, this`model, this`log
      ensures Working(Job(d, Committed(|ids|))) && old(log) <= log
      ensures claims == old(claims) + {d.pair} && trail == old(trail) + out.trail
      ensures rows == old(rows) + SealAll(out.drafts, ids)
    {
      model, log := CommitMoves(config, log, model, d, out, ids);
      rows := rows + SealAll(out.drafts, ids);
      claims := claims + {d.pair};
      trail := trail + out.trail;
    }

    /** `_kick_drain`. */
    method KickDrain(d: Delivery, kicks: nat, reached: bool)
      requires kicks > 0 && Working(Job(d, Committed(kicks)))
      modifies this`drainTasks, this`model, this`log
      ensures Working(Job(d, Committed(kicks - 1))) && old(log) <= log
      ensures drainTasks == old(drainTasks) + (if reached then [config.batchSize] else [])
    {
      model, log := KickMoves(config, log, model, d, kicks, reached);
      if reached {
        drainTasks := drainTasks + [config.batchSize];
      }
    }

    /** One on-commit drain kick per row written. */
    method KickDrains(d: Delivery, kicks: nat, reached: bool)
      requires Working(Job(d, Committed(kicks)))
      modifies this`drainTasks, this`model, this`log
      ensures Working(Job(d, Committed(0))) && old(log) <= log
      ensures drainTasks == old(drainTasks) + Kicks(config, kicks, reached)
    {
      for k := 0 to kicks
        invariant Working(Job(d, Committed(kicks - k))) && old(log) <= log
        invariant drainTasks == old(drainTasks) + Kicks(config, k, reached)
      {
        KickDrain(d, kicks - k, reached);
        OneMoreKick(config, k, reached);
      }
    }

    /** The failure is saved on the row: counted while attempts remain, dead-lettered after. */
    method SaveFailure(d: Delivery, error: string, now: Instant)
      requires Working(Job(d, RolledBack)) && d.pair.event in rows
      modifies this`rows, this`model, this`log
      ensures Working(Job(d, if d.attempt >= config.maxAttempts then Finished else Recorded)) && old(log) <= log
      ensures FailureSaved(old(rows), rows, d, error, if d.attempt >= config.maxAttempts then Some(now) else None)
    {
      model, log := RecordMoves(config, log, model, d, error, now);
      var row := rows[d.pair.event];
      rows := rows[d.pair.event := AfterFailure(config, row, d.attempt, error, now)];
    }

    method QueueRetry(d: Delivery)
      requires Working(Job(d, Recorded))
      modifies this`queued, this`model, this`log
      ensures Working(Job(d, Finished)) && old(log) <= log
      ensures queued == old(queued) + [Delivery(d.pair, d.attempt + 1)]
    {
      model, log := RetryMoves(config, log, model, d);
      queued := queued + [Delivery(d.pair, d.attempt + 1)];
    }

    /** The handler has returned. */
    method ApplyDelivery(d: Delivery, out: Output, ids: seq<EventId>, reached: bool)
      requires Working(Job(d, Inserted)) && d.pair.event in rows
      requires |ids| == |out.drafts| && Fresh(rows, ids) && CanReturn(config, rows, d.pair, out)
      modifies this`rows, this`claims, this`trail, this`drainTasks, this`model, this`log
      ensures Valid() && old(log) <= log
      ensures claims == old(claims) + {d.pair} && trail == old(trail) + out.trail
      ensures rows == old(rows) + SealAll(out.drafts, ids)
      ensures drainTasks == old(drainTasks) + Kicks(config, |ids|, reached)
    {
      Advance(d, Inserted, Run(out), Ran(out));
      CommitEffect(d, out, ids);
      KickDrains(d, |ids|, reached);
      Acknowledge(d);
    }

    /** The handler has raised: the failure is recorded, and retried while attempts remain. */
    method FailDelivery(d: Delivery, before: Phase, error: string, now: Instant) returns (outcome: Outcome)
      requires Working(Job(d, before)) && (before.Started? || before.Inserted?) && d.pair.event in rows
      modifies this`rows, this`queued, this`model, this`log
      ensures Valid() && old(log) <= log
      ensures outcome == if d.attempt >= config.maxAttempts then DeadLetter else Retried
      ensures FailureSaved(old(rows), rows, d, error, if outcome.DeadLetter? then Some(now) else None)
      ensures queued == old(queued) + (if outcome.DeadLetter? then [] else [Delivery(d.pair, d.attempt + 1)])
    {
      Advance(d, before, Fail, RolledBack);
      SaveFailure(d, error, now);
      if d.attempt >= config.maxAttempts {
        outcome := DeadLetter;
      } else {
        QueueRetry(d);
        outcome := Retried;
      }
      Acknowledge(d);
    }

    /** The insert hits the unique key. */
    method SkipDuplicate(d: Delivery)
      requires Working(Job(d, Started)) && d.pair in claims
      modifies this`model, this`log
      ensures Valid() && old(log) <= log
    {
      Advance(d, Started, Insert, Finished);
      Acknowledge(d);
    }

    /** The handler is run under the claim just inserted. */
    method RunClaimed(d: Delivery, result: Result<Output, string>, ids: seq<EventId>, reached: bool, now: Instant)
      returns (outcome: Outcome)
      requires Working(Job(d, Inserted)) && d.pair.event in rows
      requires result.Ok? ==> |ids| == |result.value.drafts| && Fresh(rows, ids)
      requires result.Ok? ==> CanReturn(config, rows, d.pair, result.value)
      modifies this
      ensures Valid() && old(log) <= log
      ensures outcome == (if result.Ok? then Applied
                          else if d.attempt >= config.maxAttempts then DeadLetter else Retried)
      ensures outcome.Applied? ==>
                && claims == old(claims) + {d.pair} && trail == old(trail) + result.value.trail
                && rows == old(rows) + SealAll(result.value.drafts, ids)
                && drainTasks == old(drainTasks) + Kicks(config, |ids|, reached)
      ensures !outcome.Applied? ==>
                && claims == old(claims) && trail == old(trail) && drainTasks == old(drainTasks)
                && FailureSaved(old(rows), rows, d, result.error, if outcome.DeadLetter? then Some(now) else None)
      ensures queued == old(queued) + (if outcome.Retried? then [Delivery(d.pair, d.attempt + 1)] else [])
    {
      match result {
        case Ok(out) =>
          ApplyDelivery(d, out, ids, reached);
          outcome := Applied;
        case Err(error) =>
          outcome := FailDelivery(d, Inserted, error, now);
      }
    }

    /** `apply_once` on a delivery already taken, and what its failure leads to. */
    method AttemptDelivery(d: Delivery, result: Result<Output, string>, ids: seq<EventId>, reached: bool, now: Instant)
      returns (outcome: Outcome)
      requires Working(Job(d, Started)) && d.pair.event in rows
      requires result.Ok? ==> |ids| == |result.value.drafts| && Fresh(rows, ids)
      requires result.Ok? ==> CanReturn(config, rows, d.pair, result.value)
      modifies this
      ensures Valid() && old(log) <= log
      ensures outcome == (if d.pair in old(claims) then Duplicate else if result.Ok? then Applied
                          else if d.attempt >= config.maxAttempts then DeadLetter else Retried)
      ensures outcome.Applied? ==>
                && claims == old(claims) + {d.pair} && trail == old(trail) + result.value.trail
                && rows == old(rows) + SealAll(result.value.drafts, ids)
                && drainTasks == old(drainTasks) + Kicks(config, |ids|, reached)
      ensures !outcome.Applied? ==> claims == old(claims) && trail == old(trail) && drainTasks == old(drainTasks)
      ensures queued == old(queued) + (if outcome.Retried? then [Delivery(d.pair, d.attempt + 1)] else [])
      ensures outcome.Duplicate? ==> rows == old(rows)
      ensures outcome.Retried? || outcome.DeadLetter? ==>
                FailureSaved(old(rows), rows, d, result.error, if outcome.DeadLetter? then Some(now) else None)
    {
      if d.pair in claims {
        SkipDuplicate(d);
        return Duplicate;
      }
      Advance(d, Started, Insert, Inserted);
      outcome := RunClaimed(d, result, ids, reached, now);
    }

    /** The attempt, unless something breaks before it. */
    method DeliverTaken(d: Delivery, broken: Option<string>, result: Result<Output, string>, ids: seq<EventId>,
                        reached: bool, now: Instant)
      returns (outcome: Outcome)
      requires Working(Job(d, Started)) && d.pair.event in rows
      requires result.Ok? ==> |ids| == |result.value.drafts| && Fresh(rows, ids)
      requires result.Ok? ==> CanReturn(config, rows, d.pair, result.value)
      modifies this
      ensures Valid() && old(log) <= log
      ensures outcome == (if broken.None? && d.pair in old(claims) then Duplicate
                          else if broken.None? && result.Ok? then Applied
                          else if d.attempt >= config.maxAttempts then DeadLetter else Retried)
      ensures outcome.Applied? ==>
                && claims == old(claims) + {d.pair} && trail == old(trail) + result.value.trail
                && rows == old(rows) + SealAll(result.value.drafts, ids)
                && drainTasks == old(drainTasks) + Kicks(config, |ids|, reached)
      ensures !outcome.Applied? ==> claims == old(claims) && trail == old(trail) && drainTasks == old(drainTasks)
      ensures queued == old(queued) + (if outcome.Retried? then [Delivery(d.pair, d.attempt + 1)] else [])
      ensures outcome.Duplicate? ==> rows == old(rows)
      ensures outcome.Retried? || outcome.DeadLetter? ==>
                var error := if broken.Some? then broken.value else result.error;
                FailureSaved(old(rows), rows, d, error, if outcome.DeadLetter? then Some(now) else None)
    {
      if broken.Some? {
        outcome := FailDelivery(d, Started, broken.value, now);
      } else {
        outcome := AttemptDelivery(d, result, ids, reached, now);
      }
    }

    /**
      `handle_event`: the first message is delivered.  `broken` is an error raised before the handler is
      reached, by anything but the claim's unique key; `result` is what the handler does when it is run,
      and an error in it may as well come from the commit.  A pair already claimed never runs it.
    */
    method HandleEvent(broken: Option<string>, result: Result<Output, string>, ids: seq<EventId>, reached: bool,
                       now: Instant)
      returns (outcome: Outcome)
      requires Valid() && queued != []
      requires result.Ok? ==> |ids| == |result.value.drafts| && Fresh(rows, ids)
      requires result.Ok? ==> CanReturn(config, rows, queued[0].pair, result.value)
      modifies this
      ensures Valid() && old(log) <= log
      ensures var d := old(queued)[0];
              && d.pair.event in old(rows)
              && outcome == (if broken.None? && d.pair in old(claims) then Duplicate
                             else if broken.None? && result.Ok? then Applied
                             else if d.attempt >= config.maxAttempts then DeadLetter else Retried)
      ensures outcome.Applied? ==>
                && claims == old(claims) + {old(queued)[0].pair} && trail == old(trail) + result.value.trail
                && rows == old(rows) + SealAll(result.value.drafts, ids)
                && drainTasks == old(drainTasks) + Kicks(config, |ids|, reached)
      ensures !outcome.Applied? ==> claims == old(claims) && trail == old(trail) && drainTasks == old(drainTasks)
      ensures var d := old(queued)[0];
              queued == old(queued)[1..] + (if outcome.Retried? then [Delivery(d.pair, d.attempt + 1)] else [])
      ensures outcome.Duplicate? ==> rows == old(rows)
      ensures outcome.Retried? || outcome.DeadLetter? ==>
                var d, error := old(queued)[0], if broken.Some? then broken.value else result.error;
                FailureSaved(old(rows), rows, d, error, if outcome.DeadLetter? then Some(now) else None)
    {
      var d := TakeNext();
      outcome := DeliverTaken(d, broken, result, ids, reached, now);
    }
  }

  /** The delivery's row, and no other, has the failure saved on it. */
  ghost predicate FailureSaved(rows: map<EventId, Row>, after: map<EventId, Row>, d: Delivery, error: string,
                               deadAt: Option<Instant>)
  {
    && d.pair.event in rows && d.pair.event in after && after == rows[d.pair.event := after[d.pair.event]]
    && SavesFailure(rows[d.pair.event], after[d.pair.event], error, d.attempt, deadAt)
  }

  /** The handler may return this output for the event. */
  ghost predicate CanReturn(c: Config, rows: map<EventId, Row>, p: Pair, out: Output) {
    p.event in rows ==>
      Applicable(c, p.handler, rows[p.event].env) && Produces(c, p.handler, rows[p.event].env, out)
  }

  // --- What the delivery steps do to a state with one worker --------------------------------------------

  /** A step that changes nothing but the phase, seen from the tables. */
  ghost predicate OwnMove(c: Config, s: State, d: Delivery, before: Phase, act: JobMove, after: Phase) {
    match act
    case Insert => before.Started? && after == if d.pair in s.claims then Finished else Inserted
    case Run(out) => before.Inserted? && after == Ran(out) && d.pair.event in s.rows
                     && Applicable(c, d.pair.handler, s.rows[d.pair.event].env)
                     && Produces(c, d.pair.handler, s.rows[d.pair.event].env, out)
    case Fail => (before.Started? || before.Inserted?) && after.RolledBack?
    case _ => false
  }

  lemma OwnMoveApplies(c: Config, log: seq<Step>, s: State, d: Delivery, before: Phase, act: JobMove, after: Phase)
    returns (t: State, longer: seq<Step>)
    requires ReachedBy(c, log, s) && s.jobs == map[0 := Job(d, before)] && OwnMove(c, s, d, before, act, after)
    ensures ReachedBy(c, longer, t) && log <= longer
    ensures t.jobs == map[0 := Job(d, after)] && SameTables(s, t) && SameQueues(s, t)
  {
    assert s.jobs[0] == Job(d, before);
    assert s.jobs[0 := Job(d, after)] == map[0 := Job(d, after)];
    Extend(c, log, s, Deliver(0, act));
    t, longer := JobApply(c, s, 0, act), log + [Deliver(0, act)];
  }

  ghost predicate SameTables(s: State, t: State) {
    t.rows == s.rows && t.claims == s.claims && t.trail == s.trail && t.drainers == s.drainers
  }

  ghost predicate SameQueues(s: State, t: State) {
    t.queued == s.queued && t.drainTasks == s.drainTasks
  }

  lemma TakeMoves(c: Config, log: seq<Step>, s: State, queue: seq<Delivery>) returns (t: State, longer: seq<Step>)
    requires ReachedBy(c, log, s) && s.jobs == map[] && queue != [] && s.queued == multiset(queue)
    ensures ReachedBy(c, longer, t) && log <= longer
    ensures t.jobs == map[0 := Job(queue[0], Started)] && SameTables(s, t)
    ensures t.queued == multiset(queue[1..]) && t.drainTasks == s.drainTasks
  {
    TakeFirst(queue);
    Extend(c, log, s, Deliver(0, Take(queue[0])));
    t, longer := JobApply(c, s, 0, Take(queue[0])), log + [Deliver(0, Take(queue[0]))];
  }

  lemma AckMoves(c: Config, log: seq<Step>, s: State) returns (t: State, longer: seq<Step>)
    requires ReachedBy(c, log, s) && 0 in s.jobs && s.jobs == map[0 := s.jobs[0]]
    requires s.jobs[0].phase.Finished? || s.jobs[0].phase == Committed(0)
    ensures ReachedBy(c, longer, t) && log <= longer
    ensures t.jobs == map[] && SameTables(s, t) && SameQueues(s, t)
  {
    assert Without(s.jobs, 0) == map[];
    Extend(c, log, s, Deliver(0, Ack));
    t, longer := JobApply(c, s, 0, Ack), log + [Deliver(0, Ack)];
  }

  lemma CommitMoves(c: Config, log: seq<Step>, s: State, d: Delivery, out: Output, ids: seq<EventId>)
    returns (t: State, longer: seq<Step>)
    requires ReachedBy(c, log, s) && s.jobs == map[0 := Job(d, Ran(out))]
    requires |ids| == |out.drafts| && Fresh(s.rows, ids)
    ensures ReachedBy(c, longer, t) && log <= longer
    ensures t.jobs == map[0 := Job(d, Committed(|ids|))] && t.drainers == s.drainers && SameQueues(s, t)
    ensures t.rows == s.rows + SealAll(out.drafts, ids) && t.claims == s.claims + {d.pair}
    ensures t.trail == s.trail + out.trail
  {
    assert s.jobs[0] == Job(d, Ran(out));
    assert s.jobs[0 := Job(d, Committed(|ids|))] == map[0 := Job(d, Committed(|ids|))];
    Extend(c, log, s, Deliver(0, Commit(ids)));
    t, longer := JobApply(c, s, 0, Commit(ids)), log + [Deliver(0, Commit(ids))];
  }

  lemma KickMoves(c: Config, log: seq<Step>, s: State, d: Delivery, kicks: nat, reached: bool)
    returns (t: State, longer: seq<Step>)
    requires ReachedBy(c, log, s) && s.jobs == map[0 := Job(d, Committed(kicks))] && kicks > 0
    ensures ReachedBy(c, longer, t) && log <= longer
    ensures t.jobs == map[0 := Job(d, Committed(kicks - 1))] && SameTables(s, t) && t.queued == s.queued
    ensures t.drainTasks == Redelivered(s.drainTasks, c.batchSize, reached)
  {
    assert s.jobs[0] == Job(d, Committed(kicks));
    assert s.jobs[0 := Job(d, Committed(kicks - 1))] == map[0 := Job(d, Committed(kicks - 1))];
    Extend(c, log, s, Deliver(0, Kick(reached)));
    t, longer := JobApply(c, s, 0, Kick(reached)), log + [Deliver(0, Kick(reached))];
  }

  lemma RecordMoves(c: Config, log: seq<Step>, s: State, d: Delivery, error: string, now: Instant)
    returns (t: State, longer: seq<Step>)
    requires ReachedBy(c, log, s) && s.jobs == map[0 := Job(d, RolledBack)] && s.drainers == map[]
             && d.pair.event in s.rows
    ensures ReachedBy(c, longer, t) && log <= longer
    ensures t.jobs == map[0 := Job(d, if d.attempt >= c.maxAttempts then Finished else Recorded)]
    ensures t.rows == s.rows[d.pair.event := AfterFailure(c, s.rows[d.pair.event], d.attempt, error, now)]
    ensures t.claims == s.claims && t.trail == s.trail && t.drainers == s.drainers && SameQueues(s, t)
  {
    assert s.jobs[0] == Job(d, RolledBack);
    var after := Job(d, if d.attempt >= c.maxAttempts then Finished else Recorded);
    assert s.jobs[0 := after] == map[0 := after];
    Extend(c, log, s, Deliver(0, Record(error, now)));
    t, longer := JobApply(c, s, 0, Record(error, now)), log + [Deliver(0, Record(error, now))];
  }

  lemma RetryMoves(c: Config, log: seq<Step>, s: State, d: Delivery) returns (t: State, longer: seq<Step>)
    requires ReachedBy(c, log, s) && s.jobs == map[0 := Job(d, Recorded)]
    ensures ReachedBy(c, longer, t) && log <= longer
    ensures t.jobs == map[0 := Job(d, Finished)] && SameTables(s, t) && t.drainTasks == s.drainTasks
    ensures t.queued == s.queued + multiset{Delivery(d.pair, d.attempt + 1)}
  {
    assert s.jobs[0] == Job(d, Recorded);
    assert s.jobs[0 := Job(d, Finished)] == map[0 := Job(d, Finished)];
    Extend(c, log, s, Deliver(0, Retry));
    t, longer := JobApply(c, s, 0, Retry), log + [Deliver(0, Retry)];
  }

  // --- Counting passes ------------------------------------------------------------------------------------

  lemma MessagesJoin(first: seq<Pair>, second: seq<Pair>)
    ensures Messages(first + second) == Messages(first) + Messages(second)
  {
  }

  /** The deliveries queued so far are those of `done`, whatever the timestamps of the passes. */
  ghost predicate SentSoFar(c: Config, start: map<EventId, Row>, rows: map<EventId, Row>,
                            first: seq<Delivery>, queue: seq<Delivery>, done: seq<EventId>)
  {
    && AllIn(done, start) && SameEnvelopes(start, rows)
    && queue == first + Messages(Dispatch(c, start, done))
  }

  lemma OneMoreSent(c: Config, start: map<EventId, Row>, s: State, rows: map<EventId, Row>,
                    first: seq<Delivery>, before: seq<Delivery>, after: seq<Delivery>,
                    done: seq<EventId>, limit: nat, now: Instant, dispatched: nat)
    requires SentSoFar(c, start, s.rows, first, before, done)
    requires OnePass(c, s, before, limit, now, rows, after, dispatched)
    ensures SentSoFar(c, start, rows, first, after, done + Prefix(Pending(s), limit))
  {
    var batch := Prefix(Pending(s), limit);
    DispatchReadsTopics(c, s.rows, start, batch);
    DispatchJoins(c, start, done, batch);
    var sent, more := Dispatch(c, start, done), Dispatch(c, start, batch);
    MessagesJoin(sent, more);
    Regroup(first, Messages(sent), Messages(more));
  }

  /** After `passes` passes `done` has been dispatched; `more` says another pass is queued. */
  ghost predicate PassesAgree(start: State, s: State, done: seq<EventId>, limit: nat, passes: nat, more: bool)
    requires limit > 0
  {
    && done + Pending(s) == Pending(start)
    && if more then passes + |Pending(s)| / limit + 1 == |Pending(start)| / limit + 1
       else Pending(s) == [] && passes == |Pending(start)| / limit + 1
  }

  lemma OneMorePass(start: State, s: State, t: State, done: seq<EventId>, limit: nat, passes: nat)
    requires limit > 0 && PassesAgree(start, s, done, limit, passes, true)
    requires Pending(s) == Prefix(Pending(s), limit) + Pending(t)
    ensures var batch := Prefix(Pending(s), limit);
            PassesAgree(start, t, done + batch, limit, passes + 1, |batch| == limit)
  {
    Regroup(done, Prefix(Pending(s), limit), Pending(t));
    Quotient(|Pending(s)|, limit);
  }

  // --- What the drain steps do to a state with one worker ------------------------------------------------

  lemma ClaimMoves(c: Config, log: seq<Step>, s: State, limit: nat, batch: seq<EventId>)
    returns (t: State, longer: seq<Step>)
    requires ReachedBy(c, log, s) && s.drainers == map[] && limit in s.drainTasks && IsClaim(s, limit, batch)
    ensures ReachedBy(c, longer, t) && log <= longer && AllIn(batch, s.rows)
    ensures t == s.(drainTasks := s.drainTasks - multiset{limit}, drainers := map[0 := Claiming(limit, batch)])
  {
    Extend(c, log, s, Drain(0, Claim(limit, batch)));
    t, longer := DrainApply(c, s, 0, Claim(limit, batch)), log + [Drain(0, Claim(limit, batch))];
  }

  lemma PublishMoves(c: Config, log: seq<Step>, s: State, limit: nat, batch: seq<EventId>, at: Instant)
    returns (t: State, longer: seq<Step>)
    requires ReachedBy(c, log, s) && s.drainers == map[0 := Claiming(limit, batch)] && AllIn(batch, s.rows)
    ensures ReachedBy(c, longer, t) && log <= longer
    ensures t.rows == PublishAll(s.rows, batch, at)
    ensures t.drainers == map[0 := Dispatching(limit, |batch| == limit, Dispatch(c, s.rows, batch))]
    ensures t.jobs == s.jobs && t.claims == s.claims && t.trail == s.trail && SameQueues(s, t)
  {
    assert s.drainers[0] == Claiming(limit, batch);
    var d := Dispatching(limit, |batch| == limit, Dispatch(c, s.rows, batch));
    assert s.drainers[0 := d] == map[0 := d];
    Extend(c, log, s, Drain(0, Publish(at)));
    t, longer := DrainApply(c, s, 0, Publish(at)), log + [Drain(0, Publish(at))];
  }

  lemma QueueMoves(c: Config, log: seq<Step>, s: State, limit: nat, full: bool, hooks: seq<Pair>)
    returns (t: State, longer: seq<Step>)
    requires ReachedBy(c, log, s) && s.drainers == map[0 := Dispatching(limit, full, hooks)] && hooks != []
    ensures ReachedBy(c, longer, t) && log <= longer
    ensures t == s.(queued := s.queued + multiset{Delivery(hooks[0], 1)},
                    drainers := map[0 := Dispatching(limit, full, hooks[1..])])
  {
    Extend(c, log, s, Drain(0, DrainMove.Queue));
    t, longer := DrainApply(c, s, 0, DrainMove.Queue), log + [Drain(0, DrainMove.Queue)];
  }

  lemma FinishMoves(c: Config, log: seq<Step>, s: State, limit: nat, full: bool) returns (t: State, longer: seq<Step>)
    requires ReachedBy(c, log, s) && s.drainers == map[0 := Dispatching(limit, full, [])]
    ensures ReachedBy(c, longer, t) && log <= longer
    ensures t == s.(drainers := map[], drainTasks := Redelivered(s.drainTasks, limit, full))
  {
    assert Without(s.drainers, 0) == map[];
    Extend(c, log, s, Drain(0, Finish(full)));
    t, longer := DrainApply(c, s, 0, Finish(full)), log + [Drain(0, Finish(full))];
  }

  lemma MarkOneMore(rows: map<EventId, Row>, batch: seq<EventId>, i: nat, at: Instant)
    requires i < |batch| && AllIn(batch, rows)
    ensures var some := PublishAll(rows, batch[..i], at);
            && batch[i] in some && some[batch[i]].env == rows[batch[i]].env
            && PublishAll(rows, batch[..i + 1], at) == some[batch[i] := Published(some[batch[i]], at)]
  {
  }

  lemma PoolAfterPass(s: State, t: State, batch: seq<EventId>, at: Instant, e: EventId)
    requires s.drainers == map[] && t.drainers == map[]
    requires t.rows == PublishAll(s.rows, batch, at)
    ensures e in Pool(t) <==> e in Pool(s) && e !in batch
  {
  }

  lemma RestOfBacklog(s: State, batch: seq<EventId>, rest: seq<EventId>, e: EventId)
    requires Pending(s) == batch + rest
    ensures e in rest <==> e in Pool(s) && e !in batch
  {
    BacklogSorted(s.rows, Pool(s));
    var all := Pending(s);
    assert e in all <==> e in batch || e in rest;
    forall i, j | 0 <= i < |batch| && 0 <= j < |rest| ensures batch[i] != rest[j] {
      assert Before(s.rows, all[i], all[|batch| + j]);
    }
  }

  lemma BacklogAfterPass(s: State, t: State, batch: seq<EventId>, at: Instant)
    requires s.drainers == map[] && t.drainers == map[]
    requires t.rows == PublishAll(s.rows, batch, at) && batch <= Pending(s)
    ensures Pending(s) == batch + Pending(t)
  {
    var rest := Pending(s)[|batch|..];
    assert Pending(s) == batch + rest;
    forall e ensures e in rest <==> e in Pool(t) {
      RestOfBacklog(s, batch, rest, e);
      PoolAfterPass(s, t, batch, at, e);
    }
    RestInOrder(s, batch, rest);
    PublishingKeepsOrder(s.rows, batch, at, rest);
    BacklogUnique(t.rows, Pool(t), rest);
  }

  lemma BacklogAfterOnePass(c: Config, s: State, before: seq<Delivery>, limit: nat, now: Instant,
                            t: State, after: seq<Delivery>, dispatched: nat)
    requires s.drainers == map[] && t.drainers == map[]
    requires OnePass(c, s, before, limit, now, t.rows, after, dispatched)
    ensures Pending(s) == Prefix(Pending(s), limit) + Pending(t)
  {
    BacklogAfterPass(s, t, Prefix(Pending(s), limit), now);
  }

  lemma RestInOrder(s: State, batch: seq<EventId>, rest: seq<EventId>)
    requires Pending(s) == batch + rest
    ensures InOrder(s.rows, rest)
  {
    BacklogSorted(s.rows, Pool(s));
    forall i | 0 <= i < |rest| ensures Pending(s)[|batch| + i] == rest[i] {}
  }

  lemma PublishingKeepsOrder(rows: map<EventId, Row>, batch: seq<EventId>, at: Instant, xs: seq<EventId>)
    requires InOrder(rows, xs)
    ensures InOrder(PublishAll(rows, batch, at), xs)
  {
  }
}
