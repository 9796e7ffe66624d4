/**
  A re-queue undone.  A worker dead-letters a row, is killed before it acknowledges, and its message
  comes back; while that delivery's failure is still unrecorded, an operator re-queues the row.  The
  dead letter written then marks the row again, although every subscriber can apply it.
*/
module BusUndone {
  import opened Catalog
  import opened Envelopes
  import opened Registry
  import opened Outbox
  import opened Engine
  import opened Protocol
  import opened BusFailures
  import opened BusTermination
  import opened BusRecovery

  function Letter(name: string): Delivery {
    Delivery(Pair(0, name), 1)
  }

  function DeadRow(): Row {
    DeadLettered(Published(NoteRow(), 1), "", 1, 2)
  }

  /** The one delivery of the one row is queued. */
  function Handed(name: string): State {
    CommittedBatch(name).(drainers := map[], queued := multiset{Letter(name)})
  }

  function Working(name: string, phase: Phase): State {
    Handed(name).(queued := multiset{}, jobs := map[0 := Job(Letter(name), phase)])
  }

  /** The same, with the row dead-lettered. */
  function Buried(s: State): State {
    s.(rows := map[0 := DeadRow()])
  }

  function LastHookRun(name: string): State {
    CommittedBatch(name).(drainers := map[0 := Dispatching(100, false, [])], queued := multiset{Letter(name)})
  }

  lemma Queueing(c: Config, name: string)
    ensures var s, step := CommittedBatch(name), Drain(0, DrainMove.Queue);
            Enabled(c, s, step) && Apply(c, s, step) == LastHookRun(name)
  {
    assert [Pair(0, name)][1..] == [];
  }

  lemma Finishing(c: Config, name: string)
    ensures var s, step := LastHookRun(name), Drain(0, Finish(false));
            Enabled(c, s, step) && Apply(c, s, step) == Handed(name)
  {
  }

  lemma Dispatched(c: Config, name: string, log: seq<Step>) returns (longer: seq<Step>)
    requires ReachedBy(c, log, CommittedBatch(name))
    ensures ReachedBy(c, longer, Handed(name))
  {
    Queueing(c, name);
    Finishing(c, name);
    Extend(c, log, CommittedBatch(name), Drain(0, DrainMove.Queue));
    longer := log + [Drain(0, DrainMove.Queue)];
    Extend(c, longer, LastHookRun(name), Drain(0, Finish(false)));
    longer := longer + [Drain(0, Finish(false))];
  }

  lemma Taking(c: Config, name: string, rows: map<EventId, Row>)
    ensures var s, step := Handed(name).(rows := rows), Deliver(0, Take(Letter(name)));
            Enabled(c, s, step) && Apply(c, s, step) == Working(name, Started).(rows := rows)
  {
  }

  lemma Failing(c: Config, name: string, rows: map<EventId, Row>)
    ensures var s, step := Working(name, Started).(rows := rows), Deliver(0, Fail);
            Enabled(c, s, step) && Apply(c, s, step) == Working(name, RolledBack).(rows := rows)
  {
    var s, t := Working(name, Started).(rows := rows), Working(name, RolledBack).(rows := rows);
    assert WastedBy(s.jobs[0]) == multiset{} && s.wasted + multiset{} == t.wasted;
    assert s.jobs[0 := Job(Letter(name), RolledBack)] == t.jobs;
  }

  /** Taking the delivery and failing it, whatever the row says by then. */
  lemma TakenAndFailed(c: Config, name: string, log: seq<Step>, rows: map<EventId, Row>) returns (longer: seq<Step>)
    requires ReachedBy(c, log, Handed(name).(rows := rows))
    ensures ReachedBy(c, longer, Working(name, RolledBack).(rows := rows))
  {
    Taking(c, name, rows);
    Failing(c, name, rows);
    Extend(c, log, Handed(name).(rows := rows), Deliver(0, Take(Letter(name))));
    longer := log + [Deliver(0, Take(Letter(name)))];
    Extend(c, longer, Working(name, Started).(rows := rows), Deliver(0, Fail));
    longer := longer + [Deliver(0, Fail)];
  }

  lemma Burying(c: Config, name: string)
    requires c.maxAttempts == 1
    ensures var s, step := Working(name, RolledBack), Deliver(0, Record("", 2));
            Enabled(c, s, step) && Apply(c, s, step) == Buried(Working(name, Finished))
  {
    var row := Published(NoteRow(), 1);
    assert AfterFailure(c, row, 1, "", 2) == DeadRow();
    assert (map[0 := row])[0 := DeadRow()] == map[0 := DeadRow()];
  }

  lemma Killing(c: Config, name: string)
    ensures var s, step := Buried(Working(name, Finished)), Deliver(0, Crash);
            Enabled(c, s, step) && Apply(c, s, step) == Buried(Handed(name))
  {
  }

  /** With one attempt allowed, the failure dead-letters the row; then the worker is killed. */
  lemma BuriedAndKilled(c: Config, name: string, log: seq<Step>) returns (longer: seq<Step>)
    requires c.maxAttempts == 1 && ReachedBy(c, log, Working(name, RolledBack))
    ensures ReachedBy(c, longer, Buried(Handed(name)))
  {
    Burying(c, name);
    Killing(c, name);
    Extend(c, log, Working(name, RolledBack), Deliver(0, Record("", 2)));
    longer := log + [Deliver(0, Record("", 2))];
    Extend(c, longer, Buried(Working(name, Finished)), Deliver(0, Crash));
    longer := longer + [Deliver(0, Crash)];
  }

  lemma FirstPass(name: string, iso: string -> IsoReading) returns (log: seq<Step>)
    ensures ReachedBy(SingleHandler(name, 1, iso), log, CommittedBatch(name))
  {
    var c := SingleHandler(name, 1, iso);
    log := LossySteps()[..3];
    LossyProduce(c);
    LossyClaim(c);
    LossyCommit(name, 1, iso);
    RunOf3(c, EMPTY, log, Produced(), ClaimedBatch(), CommittedBatch(name));
  }

  function Undone(name: string): State {
    Buried(Working(name, RolledBack))
  }

  lemma UndoneIsOpen(c: Config, name: string)
    requires c.registry == [Registration(name, {TOPIC_NOTE_ADDED}, 0)] && c.maxAttempts == 1
    ensures Exposed(c, Undone(name))
  {
    assert DoomsAt(c, Undone(name), 0, 0);
    assert DeadRow().env == Seal(NOTE_DRAFT, 0);
  }

  /** The row is dead-lettered, can be re-queued and applied by all, with an older delivery's failure open. */
  ghost predicate Exposed(c: Config, s: State) {
    Dead(s, 0) && !Locked(s, 0) && AllApply(c, s, 0) && LastFailureOpen(c, s, 0)
  }

  /** The re-queue goes through, and the healthy run after it ends with the row applied by all and dead-lettered. */
  ghost predicate UndoneBy(c: Config, s: State, rest: seq<Step>) {
    && Legal(c, s, RequeueAndSweep(0))
    && var mid := Final(c, s, RequeueAndSweep(0));
    && HealthyRun(c, mid, rest) && Legal(c, mid, rest) && Quiet(Final(c, mid, rest))
    && AppliedByAll(c, Final(c, mid, rest), 0) && Dead(Final(c, mid, rest), 0)
  }

  /** Such a state is reachable, and re-queueing from it is undone. */
  lemma RequeueIsUndone(name: string, iso: string -> IsoReading) returns (history: seq<Step>, rest: seq<Step>)
    ensures var c := SingleHandler(name, 1, iso);
            && Legal(c, EMPTY, history)
            && var s := Final(c, EMPTY, history); Exposed(c, s) && UndoneBy(c, s, rest)
  {
    var c := SingleHandler(name, 1, iso);
    history := FirstPass(name, iso);
    history := Dispatched(c, name, history);
    history := TakenAndFailed(c, name, history, Handed(name).rows);
    history := BuriedAndKilled(c, name, history);
    history := TakenAndFailed(c, name, history, Buried(Handed(name)).rows);
    UndoneIsOpen(c, name);
    rest := Settled(c, history);
  }

  lemma Settled(c: Config, history: seq<Step>) returns (rest: seq<Step>)
    requires Acyclic(c) && c.batchSize > 0 && Legal(c, EMPTY, history) && Exposed(c, Final(c, EMPTY, history))
    ensures UndoneBy(c, Final(c, EMPTY, history), rest)
  {
    var s := Final(c, EMPTY, history);
    RequeueRecovers(c, history, 0, []);
    var mid := Final(c, s, RequeueAndSweep(0));
    rest :| HealthyRun(c, mid, rest) && Legal(c, mid, rest) && Quiet(Final(c, mid, rest));
    RequeueRecovers(c, history, 0, rest);
  }
}
