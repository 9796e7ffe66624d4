/**
  Recovery.  A bus whose broker is up, whose workers are not killed and whose handlers succeed where
  they can always comes to rest, and at rest nothing is outstanding; so re-queueing a dead-lettered row
  applies every subscriber exactly once, or dead-letters the row again, exactly according to whether
  its subscribers can apply it.
*/
module BusRecovery {
  import opened Catalog
  import opened Envelopes
  import opened Registry
  import opened Outbox
  import opened Engine
  import opened Protocol
  import opened BusInvariants
  import opened BusSafety
  import opened BusFailures
  import opened BusDrain
  import opened BusTermination

  // --- Healthy steps -----------------------------------------------------------------------------

  predicate CanApply(c: Config, s: State, w: Worker) {
    w in s.jobs && var p := s.jobs[w].delivery.pair;
    p.event in s.rows && Applicable(c, p.handler, s.rows[p.event].env)
  }

  /** The broker is up, nobody is killed, and a handler raises only on what it can never apply. */
  ghost predicate Healthy(c: Config, s: State, step: Step) {
    && Autonomous(step)
    && (step.Drain? && step.move.Finish? && step.w in s.drainers && s.drainers[step.w].Dispatching? ==>
          step.move.requeued == s.drainers[step.w].full)
    && (step.Deliver? && step.act.Kick? ==> step.act.reached)
    && (step.Deliver? && step.act.Fail? ==> !CanApply(c, s, step.w))
  }

  ghost predicate HealthyRun(c: Config, s: State, steps: seq<Step>)
    decreases |steps|
  {
    steps == [] || (Enabled(c, s, steps[0]) && Healthy(c, s, steps[0])
                    && HealthyRun(c, Apply(c, s, steps[0]), steps[1..]))
  }

  /** Nothing is queued and nobody is working. */
  ghost predicate Quiet(s: State) {
    s.drainers == map[] && s.jobs == map[] && s.queued == multiset{} && s.drainTasks == multiset{}
  }

  // --- Whatever can be claimed has a drain coming --------------------------------------------------

  ghost predicate Driver(s: State, w: Worker) {
    || (w in s.drainers && IsFull(s.drainers[w]))
    || (w in s.jobs && s.jobs[w].phase.Committed? && s.jobs[w].phase.kicks > 0)
  }

  ghost predicate Backed(s: State) {
    s.drainTasks != multiset{} || exists w :: Driver(s, w)
  }

  ghost predicate Announced(s: State) {
    forall e :: Claimable(s, e) ==> Backed(s)
  }

  lemma ClaimKeepsAnnounced(c: Config, s: State, w: Worker, limit: nat, batch: seq<EventId>, e: EventId)
    requires DrainEnabled(c, s, w, Claim(limit, batch)) && LocksExclusive(s)
    requires Claimable(DrainApply(c, s, w, Claim(limit, batch)), e)
    ensures Backed(DrainApply(c, s, w, Claim(limit, batch)))
  {
    var t := DrainApply(c, s, w, Claim(limit, batch));
    SteadyDrains(c, s, w, Claim(limit, batch), e);
    assert t.drainers[w] == Claiming(limit, batch);
    assert Driver(t, w);
  }

  lemma DrainKeepsBacked(c: Config, s: State, w: Worker, move: DrainMove)
    requires DrainEnabled(c, s, w, move) && Healthy(c, s, Drain(w, move)) && !move.Claim? && Backed(s)
    ensures Backed(DrainApply(c, s, w, move))
  {
    var t := DrainApply(c, s, w, move);
    DrainLeaves(c, s, w, move);
    if s.drainTasks == multiset{} {
      var v :| Driver(s, v);
      if v != w || !move.Finish? {
        assert Driver(t, v);
      } else if v in s.jobs && s.jobs[v].phase.Committed? && s.jobs[v].phase.kicks > 0 {
        assert Driver(t, v);
      }
    }
  }

  lemma JobKeepsBacked(c: Config, s: State, w: Worker, act: JobMove)
    requires JobEnabled(c, s, w, act) && Healthy(c, s, Deliver(w, act)) && Backed(s)
    ensures Backed(JobApply(c, s, w, act))
  {
    var t := JobApply(c, s, w, act);
    JobWrites(c, s, w, act);
    JobKeepsTasks(c, s, w, act);
    if s.drainTasks == multiset{} && !act.Kick? {
      var v :| Driver(s, v);
      JobMoves(c, s, w, act, v);
      assert Driver(t, v);
    }
  }

  lemma CommitKeepsAnnounced(c: Config, s: State, w: Worker, ids: seq<EventId>, e: EventId)
    requires JobEnabled(c, s, w, Commit(ids)) && ids != []
    ensures Backed(JobApply(c, s, w, Commit(ids)))
  {
    PhaseMoves(c, s, w, Commit(ids));
    assert Driver(JobApply(c, s, w, Commit(ids)), w);
  }

  lemma StepKeepsAnnounced(c: Config, s: State, step: Step)
    requires Enabled(c, s, step) && Healthy(c, s, step) && LocksExclusive(s) && Announced(s)
    ensures Announced(Apply(c, s, step))
  {
    forall e | Claimable(Apply(c, s, step), e) ensures Backed(Apply(c, s, step)) {
      if step.Deliver? {
        if step.act.Commit? && step.act.ids != [] {
          CommitKeepsAnnounced(c, s, step.w, step.act.ids, e);
        } else {
          SteadyDeliveries(c, s, step.w, step.act, e);
          JobKeepsBacked(c, s, step.w, step.act);
        }
      } else if step.move.Claim? {
        ClaimKeepsAnnounced(c, s, step.w, step.move.limit, step.move.batch, e);
      } else {
        SteadyDrains(c, s, step.w, step.move, e);
        DrainKeepsBacked(c, s, step.w, step.move);
      }
    }
  }

  lemma QuietLeavesNothingUnpublished(s: State, e: EventId)
    requires Quiet(s) && Announced(s)
    ensures !Unpublished(s, e)
  {
    assert !Locked(s, e);
    assert !Backed(s);
    assert Unpublished(s, e) ==> Claimable(s, e);
  }

  // --- A bus that is not quiet can move ------------------------------------------------------------

  lemma {:induction false} AboveAll(ids: set<EventId>) returns (bound: EventId)
    ensures forall e :: e in ids ==> e < bound
    decreases |ids|
  {
    if ids == {} {
      bound := 0;
    } else {
      var e :| e in ids;
      var rest := AboveAll(ids - {e});
      bound := if e < rest then rest else e + 1;
      assert forall x :: x in ids ==> x == e || x in ids - {e};
    }
  }

  lemma FreshIdsExist(rows: map<EventId, Row>, n: nat) returns (ids: seq<EventId>)
    ensures |ids| == n && Fresh(rows, ids)
  {
    var bound := AboveAll(rows.Keys);
    ids := seq(n, i requires 0 <= i < n => bound + i);
  }

  lemma DrainerMoves(c: Config, s: State, w: Worker) returns (move: DrainMove)
    requires LocksExclusive(s) && w in s.drainers
    ensures DrainEnabled(c, s, w, move) && Healthy(c, s, Drain(w, move))
  {
    match s.drainers[w]
    case Claiming(limit, batch) =>
      forall i | 0 <= i < |batch| ensures batch[i] in s.rows {
        assert HoldsLock(s, w, batch[i]);
      }
      move := Publish(0);
    case Dispatching(limit, full, pending) =>
      move := if pending != [] then DrainMove.Queue else Finish(full);
  }

  /** The worker can move, unless its insert waits for another worker's open claim. */
  lemma JobMovesOn(c: Config, s: State, w: Worker) returns (act: JobMove)
    requires DeliveriesAimed(c, s) && w in s.jobs && s.drainers == map[]
    requires !(s.jobs[w].phase.Started? && exists v :: Holds(s, v, s.jobs[w].delivery.pair))
    ensures JobEnabled(c, s, w, act) && Healthy(c, s, Deliver(w, act))
  {
    var job := s.jobs[w];
    assert WellAimed(c, s, job.delivery);
    match job.phase
    case Started => act := Insert;
    case Inserted =>
      if CanApply(c, s, w) {
        act := Run(NOTHING);
      } else {
        act := Fail;
      }
    case Ran(out) =>
      var ids := FreshIdsExist(s.rows, |out.drafts|);
      act := Commit(ids);
    case Committed(kicks) =>
      act := if kicks > 0 then Kick(true) else Ack;
    case RolledBack =>
      act := Record("", 0);
    case Recorded => act := Retry;
    case Finished => act := Ack;
  }

  lemma SomeJobMoves(c: Config, s: State) returns (w: Worker, act: JobMove)
    requires DeliveriesAimed(c, s) && s.jobs != map[] && s.drainers == map[]
    ensures JobEnabled(c, s, w, act) && Healthy(c, s, Deliver(w, act))
  {
    w :| w in s.jobs;
    var pair := s.jobs[w].delivery.pair;
    if s.jobs[w].phase.Started? && exists v :: Holds(s, v, pair) {
      w :| Holds(s, w, pair);
    }
    act := JobMovesOn(c, s, w);
  }

  /** No reachable state is stuck: while anything is outstanding, some healthy step is enabled. */
  lemma ProgressIsPossible(c: Config, s: State) returns (step: Step)
    requires Inv(c, s) && !Quiet(s)
    ensures Enabled(c, s, step) && Healthy(c, s, step)
  {
    if s.drainers != map[] {
      var w :| w in s.drainers;
      var move := DrainerMoves(c, s, w);
      step := Drain(w, move);
    } else if s.jobs != map[] {
      var w, act := SomeJobMoves(c, s);
      step := Deliver(w, act);
    } else if s.queued != multiset{} {
      var d :| d in s.queued;
      step := Deliver(0, Take(d));
    } else {
      var limit :| limit in s.drainTasks;
      PrefixIsClaim(s, limit);
      step := Drain(0, Claim(limit, Prefix(Pending(s), limit)));
    }
  }

  lemma HealthyCons(c: Config, s: State, step: Step, rest: seq<Step>)
    requires Enabled(c, s, step) && Healthy(c, s, step)
    requires HealthyRun(c, Apply(c, s, step), rest) && Legal(c, Apply(c, s, step), rest)
    ensures HealthyRun(c, s, [step] + rest) && Legal(c, s, [step] + rest)
    ensures Final(c, s, [step] + rest) == Final(c, Apply(c, s, step), rest)
  {
  }

  /** From every such state a healthy run comes to rest. */
  lemma {:induction false} CanSettle(c: Config, hi: Class, s: State) returns (steps: seq<Step>)
    requires Inv(c, s) && PositiveLimits(c, s) && Classifies(c, hi, s) && Acyclic(c)
    ensures HealthyRun(c, s, steps) && Legal(c, s, steps) && Quiet(Final(c, s, steps))
    decreases Work(c, hi, true, s), Work(c, hi, false, s), Upkeep(s)
  {
    if Quiet(s) {
      steps := [];
    } else {
      var step := ProgressIsPossible(c, s);
      var t := Apply(c, s, step);
      StepLowers(c, hi, s, step);
      StepKeepsInv(c, s, step);
      StepKeepsLimits(c, s, step);
      ClassesPersist(c, hi, s, step);
      var rest := CanSettle(c, hi, t);
      steps := [step] + rest;
      HealthyCons(c, s, step, rest);
    }
  }

  lemma {:induction false} HealthyRunKeeps(c: Config, s: State, steps: seq<Step>)
    requires HealthyRun(c, s, steps) && Legal(c, s, steps)
    requires Inv(c, s) && Announced(s)
    ensures Inv(c, Final(c, s, steps)) && Announced(Final(c, s, steps))
    decreases |steps|
  {
    if steps != [] {
      StepKeepsInv(c, s, steps[0]);
      StepKeepsAnnounced(c, s, steps[0]);
      HealthyRunKeeps(c, Apply(c, s, steps[0]), steps[1..]);
    }
  }

  // --- A delivery on its way to success -------------------------------------------------------------

  /** A worker is on the pair and its attempt has not failed. */
  predicate ActiveAt(s: State, w: Worker, p: Pair) {
    w in s.jobs && s.jobs[w].delivery.pair == p
    && (s.jobs[w].phase.Started? || s.jobs[w].phase.Inserted? || s.jobs[w].phase.Ran?)
  }

  /** Unlike `Safe`, this does not count a dead letter, or an attempt that has already failed. */
  ghost predicate Coming(s: State, p: Pair) {
    || Unpublished(s, p.event) || p in s.claims || Queued(s, p)
    || (exists w :: PendingHook(s, w, p)) || (exists w :: ActiveAt(s, w, p))
  }

  lemma DrainKeepsComing(c: Config, s: State, w: Worker, move: DrainMove, p: Pair)
    requires DrainEnabled(c, s, w, move) && !move.Lose? && LocksExclusive(s)
    requires Wants(c, s, p) && Coming(s, p)
    ensures Coming(DrainApply(c, s, w, move), p)
  {
    var t := DrainApply(c, s, w, move);
    DrainLeaves(c, s, w, move);
    if exists v :: ActiveAt(s, v, p) {
      var v :| ActiveAt(s, v, p);
      assert ActiveAt(t, v, p);
    } else if p in s.claims {
    } else if Queued(s, p) {
      DrainKeepsQueued(c, s, w, move, p);
    } else if exists v :: PendingHook(s, v, p) {
      var v :| PendingHook(s, v, p);
      HookGoesOn(c, s, w, move, v, p);
    } else if move.Publish? {
      DispatchReachesSubscribers(c, s.rows, s.drainers[w].batch, p);
      assert p.event in s.drainers[w].batch ==> PendingHook(t, w, p);
    } else {
      assert t.rows == s.rows;
    }
  }

  lemma DrainKeepsQueued(c: Config, s: State, w: Worker, move: DrainMove, p: Pair)
    requires DrainEnabled(c, s, w, move) && Queued(s, p)
    ensures Queued(DrainApply(c, s, w, move), p)
  {
  }

  lemma HookGoesOn(c: Config, s: State, w: Worker, move: DrainMove, v: Worker, p: Pair)
    requires DrainEnabled(c, s, w, move) && !move.Lose? && PendingHook(s, v, p)
    ensures Coming(DrainApply(c, s, w, move), p)
  {
    var t := DrainApply(c, s, w, move);
    if v != w {
      assert PendingHook(t, v, p);
    } else {
      assert move.Queue?;
      if s.drainers[w].pending[0] == p {
        assert Delivery(p, 1) in t.queued;
      } else {
        assert PendingHook(t, w, p);
      }
    }
  }

  lemma JobKeepsComing(c: Config, s: State, w: Worker, act: JobMove, p: Pair)
    requires JobEnabled(c, s, w, act)
    requires Coming(s, p) && !(act.Fail? && s.jobs[w].delivery.pair == p)
    ensures Coming(JobApply(c, s, w, act), p)
  {
    var t := JobApply(c, s, w, act);
    JobWrites(c, s, w, act);
    JobCommits(c, s, w, act);
    if Unpublished(s, p.event) {
      JobKeepsUnpublishedAndDead(c, s, w, act, p.event);
    } else if p in s.claims {
    } else if exists v :: PendingHook(s, v, p) {
      var v :| PendingHook(s, v, p);
      assert PendingHook(t, v, p);
    } else if Queued(s, p) {
      QueuedComes(c, s, w, act, p);
    } else {
      var v :| ActiveAt(s, v, p);
      ActiveComes(c, s, w, act, v, p);
    }
  }

  lemma QueuedComes(c: Config, s: State, w: Worker, act: JobMove, p: Pair)
    requires JobEnabled(c, s, w, act) && Queued(s, p)
    ensures Coming(JobApply(c, s, w, act), p)
  {
    var t := JobApply(c, s, w, act);
    var a: nat :| Delivery(p, a) in s.queued;
    if act.Take? && act.d == Delivery(p, a) {
      assert ActiveAt(t, w, p);
    } else {
      assert Delivery(p, a) in t.queued;
    }
  }

  lemma ActiveComes(c: Config, s: State, w: Worker, act: JobMove, v: Worker, p: Pair)
    requires JobEnabled(c, s, w, act) && ActiveAt(s, v, p)
    requires !(act.Fail? && s.jobs[w].delivery.pair == p)
    ensures Coming(JobApply(c, s, w, act), p)
  {
    var t := JobApply(c, s, w, act);
    JobMoves(c, s, w, act, v);
    JobCommits(c, s, w, act);
    if v != w {
      assert ActiveAt(t, v, p);
    } else if act.Crash? {
      assert Delivery(p, s.jobs[w].delivery.attempt) == s.jobs[w].delivery;
      assert Delivery(p, s.jobs[w].delivery.attempt) in t.queued;
    } else if act.Commit? {
      assert p in t.claims;
    } else {
      PhaseMoves(c, s, w, act);
      JobWrites(c, s, w, act);
      assert p in t.claims || ActiveAt(t, w, p);
    }
  }

  lemma HealthyKeepsComing(c: Config, s: State, step: Step, p: Pair)
    requires Enabled(c, s, step) && Healthy(c, s, step) && LocksExclusive(s)
    requires Wants(c, s, p) && Coming(s, p) && Applicable(c, p.handler, s.rows[p.event].env)
    ensures Coming(Apply(c, s, step), p)
  {
    if step.Deliver? {
      JobKeepsComing(c, s, step.w, step.act, p);
    } else {
      DrainKeepsComing(c, s, step.w, step.move, p);
    }
  }

  // --- Re-queueing ----------------------------------------------------------------------------------

  /** Every handler subscribed to the row's topic can apply it. */
  ghost predicate AllApply(c: Config, s: State, e: EventId) {
    e in s.rows && forall h :: Subscribed(c.registry, s.rows[e].env.topic, h) ==> Applicable(c, h, s.rows[e].env)
  }

  ghost predicate AllComing(c: Config, s: State, e: EventId) {
    forall h :: Wants(c, s, Pair(e, h)) ==> Coming(s, Pair(e, h))
  }

  ghost predicate AllSafe(c: Config, s: State, e: EventId) {
    forall h :: Wants(c, s, Pair(e, h)) ==> Safe(s, Pair(e, h))
  }

  /** The worker's last attempt on the row has failed, and the dead letter is still to be recorded. */
  predicate DoomsAt(c: Config, s: State, w: Worker, e: EventId) {
    w in s.jobs && s.jobs[w].delivery.pair.event == e
    && s.jobs[w].phase.RolledBack? && s.jobs[w].delivery.attempt >= c.maxAttempts
  }

  ghost predicate LastFailureOpen(c: Config, s: State, e: EventId) {
    exists w :: DoomsAt(c, s, w, e)
  }

  ghost predicate Doomed(c: Config, s: State, e: EventId) {
    Dead(s, e) || LastFailureOpen(c, s, e)
  }

  /** While every subscriber can apply the row, nothing new dooms it. */
  lemma HealthyJobDoomsNothing(c: Config, s: State, w: Worker, act: JobMove, e: EventId)
    requires JobEnabled(c, s, w, act) && Healthy(c, s, Deliver(w, act)) && DeliveriesAimed(c, s)
    requires AllApply(c, s, e) && !Doomed(c, s, e)
    ensures !Doomed(c, JobApply(c, s, w, act), e)
  {
    var t := JobApply(c, s, w, act);
    forall v ensures !DoomsAt(c, t, v, e) {
      JobMoves(c, s, w, act, v);
      if v == w && w in s.jobs && w in t.jobs && !act.Take? {
        PhaseMoves(c, s, w, act);
        assert WellAimed(c, s, s.jobs[w].delivery);
      }
      assert !DoomsAt(c, s, v, e);
    }
    JobKeepsAlive(c, s, w, act, e);
  }

  lemma JobKeepsAlive(c: Config, s: State, w: Worker, act: JobMove, e: EventId)
    requires JobEnabled(c, s, w, act) && !Doomed(c, s, e) && e in s.rows
    ensures !Dead(JobApply(c, s, w, act), e)
  {
    JobWrites(c, s, w, act);
    if act.Commit? {
      SealedRows(s.jobs[w].phase.out.drafts, act.ids);
    }
    assert !DoomsAt(c, s, w, e);
  }

  lemma HealthyDoomsNothing(c: Config, s: State, step: Step, e: EventId)
    requires Enabled(c, s, step) && Healthy(c, s, step) && DeliveriesAimed(c, s)
    requires AllApply(c, s, e) && !Doomed(c, s, e)
    ensures !Doomed(c, Apply(c, s, step), e)
  {
    if step.Deliver? {
      HealthyJobDoomsNothing(c, s, step.w, step.act, e);
    } else {
      DrainLeaves(c, s, step.w, step.move);
      assert forall v :: DoomsAt(c, Apply(c, s, step), v, e) <==> DoomsAt(c, s, v, e);
    }
  }

  /** And nothing but an operator saves a doomed row. */
  lemma HealthyKeepsDoomed(c: Config, s: State, step: Step, e: EventId)
    requires Enabled(c, s, step) && Healthy(c, s, step) && Doomed(c, s, e) && e in s.rows
    ensures Doomed(c, Apply(c, s, step), e)
  {
    var t := Apply(c, s, step);
    if step.Deliver? {
      JobKeepsUnpublishedAndDead(c, s, step.w, step.act, e);
      if !Dead(s, e) {
        var v :| DoomsAt(c, s, v, e);
        JobMoves(c, s, step.w, step.act, v);
        assert v == step.w ==> step.act.Record?;
        assert Dead(t, e) || DoomsAt(c, t, v, e);
      }
    } else {
      DrainLeaves(c, s, step.w, step.move);
      if !Dead(s, e) {
        var v :| DoomsAt(c, s, v, e);
        assert DoomsAt(c, t, v, e);
      }
    }
  }

  lemma HealthyKeepsSafe(c: Config, s: State, step: Step, e: EventId)
    requires Enabled(c, s, step) && Healthy(c, s, step) && LocksExclusive(s)
    requires e in s.rows && AllSafe(c, s, e)
    ensures AllSafe(c, Apply(c, s, step), e)
  {
    StepKeepsRows(c, s, step);
    forall h | Wants(c, Apply(c, s, step), Pair(e, h)) ensures Safe(Apply(c, s, step), Pair(e, h)) {
      assert Wants(c, s, Pair(e, h));
      LostExactlyWhen(c, s, step, Pair(e, h));
    }
  }

  lemma HealthyKeepsAllComing(c: Config, s: State, step: Step, e: EventId)
    requires Enabled(c, s, step) && Healthy(c, s, step) && LocksExclusive(s)
    requires AllApply(c, s, e) && AllComing(c, s, e)
    ensures AllComing(c, Apply(c, s, step), e) && AllApply(c, Apply(c, s, step), e)
  {
    StepKeepsRows(c, s, step);
    forall h | Wants(c, Apply(c, s, step), Pair(e, h)) ensures Coming(Apply(c, s, step), Pair(e, h)) {
      assert Wants(c, s, Pair(e, h));
      HealthyKeepsComing(c, s, step, Pair(e, h));
    }
  }

  lemma {:induction false} HealthyRunDelivers(c: Config, s: State, steps: seq<Step>, e: EventId)
    requires HealthyRun(c, s, steps) && Legal(c, s, steps) && Inv(c, s)
    requires AllApply(c, s, e) && AllComing(c, s, e)
    ensures var t := Final(c, s, steps); AllComing(c, t, e) && (Doomed(c, t, e) <==> Doomed(c, s, e))
    decreases |steps|
  {
    if steps != [] {
      StepKeepsInv(c, s, steps[0]);
      HealthyKeepsAllComing(c, s, steps[0], e);
      if Doomed(c, s, e) {
        HealthyKeepsDoomed(c, s, steps[0], e);
      } else {
        HealthyDoomsNothing(c, s, steps[0], e);
      }
      HealthyRunDelivers(c, Apply(c, s, steps[0]), steps[1..], e);
    }
  }

  lemma {:induction false} HealthyRunStaysSafe(c: Config, s: State, steps: seq<Step>, e: EventId)
    requires HealthyRun(c, s, steps) && Legal(c, s, steps) && Inv(c, s)
    requires e in s.rows && AllSafe(c, s, e)
    ensures var t := Final(c, s, steps); AllSafe(c, t, e) && e in t.rows && t.rows[e].env == s.rows[e].env
    decreases |steps|
  {
    if steps != [] {
      StepKeepsInv(c, s, steps[0]);
      StepKeepsRows(c, s, steps[0]);
      HealthyKeepsSafe(c, s, steps[0], e);
      HealthyRunStaysSafe(c, Apply(c, s, steps[0]), steps[1..], e);
    }
  }

  /** The row is published and every subscriber has applied it, once. */
  ghost predicate AppliedByAll(c: Config, s: State, e: EventId) {
    && e in s.rows && s.rows[e].publishedAt.Some?
    && forall h :: Subscribed(c.registry, s.rows[e].env.topic, h) ==> s.effects[Pair(e, h)] == 1
  }

  lemma QuietApplied(c: Config, s: State, e: EventId)
    requires Inv(c, s) && Announced(s) && Quiet(s) && e in s.rows && AllComing(c, s, e)
    ensures AppliedByAll(c, s, e) && (Doomed(c, s, e) <==> Dead(s, e))
  {
    QuietLeavesNothingUnpublished(s, e);
    forall h | Subscribed(c.registry, s.rows[e].env.topic, h) ensures s.effects[Pair(e, h)] == 1 {
      assert Wants(c, s, Pair(e, h));
      assert Coming(s, Pair(e, h));
    }
  }

  /** At rest, a row somebody cannot apply is dead-lettered. */
  lemma QuietDeadLettered(c: Config, s: State, e: EventId)
    requires Inv(c, s) && Announced(s) && Quiet(s) && RunsWereApplicable(c, s)
    requires e in s.rows && AllSafe(c, s, e) && !AllApply(c, s, e)
    ensures Dead(s, e)
  {
    QuietLeavesNothingUnpublished(s, e);
    var h :| Subscribed(c.registry, s.rows[e].env.topic, h) && !Applicable(c, h, s.rows[e].env);
    assert Wants(c, s, Pair(e, h)) && Safe(s, Pair(e, h));
    assert Pair(e, h) !in s.claims;
  }

  /** The operator selects the dead-lettered row and re-queues it; the next sweep queues a drain. */
  function RequeueAndSweep(e: EventId): seq<Step> {
    [Select({e}), Requeue(e), Sweep]
  }

  ghost function SweptState(c: Config, s: State, e: EventId): State
    requires e in s.rows
  {
    s.(rows := s.rows[e := Requeued(s.rows[e])],
       selected := s.selected,
       periods := if s.rows[e].publishedAt.Some? then s.periods + multiset{e} else s.periods,
       drainTasks := s.drainTasks + multiset{c.batchSize})
  }

  lemma RequeueSteps(c: Config, s: State, e: EventId)
    requires Dead(s, e) && !Locked(s, e)
    ensures Legal(c, s, RequeueAndSweep(e)) && Final(c, s, RequeueAndSweep(e)) == SweptState(c, s, e)
  {
    var s1 := s.(selected := s.selected + multiset{e});
    Selecting(c, s, e);
    assert Locked(s1, e) <==> Locked(s, e);
    Requeueing(c, s1, e);
    assert s.selected + multiset{e} - multiset{e} == s.selected;
    RunOf3(c, s, RequeueAndSweep(e), s1, RequeuedState(s1, e), SweptState(c, s, e));
  }

  lemma SweptIsReady(c: Config, s: State, e: EventId)
    requires Dead(s, e) && PositiveLimits(c, s)
    ensures var t := SweptState(c, s, e);
            && Unpublished(t, e) && !Dead(t, e) && AllComing(c, t, e) && AllSafe(c, t, e)
            && Announced(t) && PositiveLimits(c, t) && t.rows[e].env == s.rows[e].env
            && t.jobs == s.jobs && t.claims == s.claims && t.effects == s.effects
  {
  }

  /**
    Re-queueing a dead-lettered row, from any state any run can reach: a healthy run to rest exists, and
    at the end of every one the row has been applied exactly once by every subscriber if all of them can
    apply it, and is dead-lettered again if one cannot — or if, when it was re-queued, the last attempt
    of an older delivery of it had failed and only its dead letter was still to be written.
  */
  lemma RequeueRecovers(c: Config, history: seq<Step>, e: EventId, rest: seq<Step>)
    requires Acyclic(c) && c.batchSize > 0 && Legal(c, EMPTY, history)
    requires var s := Final(c, EMPTY, history); Dead(s, e) && !Locked(s, e)
    ensures var s := Final(c, EMPTY, history);
            && Legal(c, s, RequeueAndSweep(e))
            && var mid := Final(c, s, RequeueAndSweep(e));
            && (exists r :: HealthyRun(c, mid, r) && Legal(c, mid, r) && Quiet(Final(c, mid, r)))
            && (HealthyRun(c, mid, rest) && Legal(c, mid, rest) && Quiet(Final(c, mid, rest)) ==>
                  var t := Final(c, mid, rest);
                  && (AllApply(c, s, e) ==> AppliedByAll(c, t, e))
                  && (Dead(t, e) <==> !AllApply(c, s, e) || LastFailureOpen(c, s, e)))
  {
    var s := Final(c, EMPTY, history);
    EmptyIsGood(c);
    RunKeepsInv(c, EMPTY, history);
    RunKeepsLimits(c, EMPTY, history);
    ClaimsWereApplicable(c, EMPTY, history);
    RequeueSteps(c, s, e);
    SweptIsReady(c, s, e);
    var mid := Final(c, s, RequeueAndSweep(e));
    RunKeepsInv(c, s, RequeueAndSweep(e));
    ClaimsWereApplicable(c, s, RequeueAndSweep(e));
    var r := CanSettle(c, EngineRows(c, mid), mid);
    assert forall w :: DoomsAt(c, mid, w, e) <==> DoomsAt(c, s, w, e);
    if HealthyRun(c, mid, rest) && Legal(c, mid, rest) && Quiet(Final(c, mid, rest)) {
      SettledAfterRequeue(c, mid, rest, e);
    }
  }

  lemma SettledAfterRequeue(c: Config, s: State, rest: seq<Step>, e: EventId)
    requires Inv(c, s) && Announced(s) && RunsWereApplicable(c, s)
    requires e in s.rows && AllComing(c, s, e) && AllSafe(c, s, e) && !Dead(s, e)
    requires HealthyRun(c, s, rest) && Legal(c, s, rest) && Quiet(Final(c, s, rest))
    ensures var t := Final(c, s, rest);
            && (AllApply(c, s, e) ==> AppliedByAll(c, t, e))
            && (Dead(t, e) <==> !AllApply(c, s, e) || LastFailureOpen(c, s, e))
  {
    HealthyRunKeeps(c, s, rest);
    HealthyRunStaysSafe(c, s, rest, e);
    ClaimsWereApplicable(c, s, rest);
    if AllApply(c, s, e) {
      HealthyRunDelivers(c, s, rest, e);
      QuietApplied(c, Final(c, s, rest), e);
    } else {
      QuietDeadLettered(c, Final(c, s, rest), e);
    }
  }

  /** A re-queue held up by a drain's row lock is held up only until that drain publishes its batch. */
  lemma LockedRowIsReleased(c: Config, s: State, e: EventId) returns (step: Step)
    requires Inv(c, s) && Dead(s, e) && Locked(s, e)
    ensures Enabled(c, s, step) && Healthy(c, s, step)
    ensures Dead(Apply(c, s, step), e) && !Locked(Apply(c, s, step), e)
  {
    LockedIsHeld(s, e);
    var w :| HoldsLock(s, w, e);
    forall i | 0 <= i < |s.drainers[w].batch| ensures s.drainers[w].batch[i] in s.rows {
      assert HoldsLock(s, w, s.drainers[w].batch[i]);
    }
    step := Drain(w, Publish(0));
    PublishReleases(c, s, w, e);
  }

  lemma PublishReleases(c: Config, s: State, w: Worker, e: EventId)
    requires DrainEnabled(c, s, w, Publish(0)) && LocksExclusive(s) && HoldsLock(s, w, e) && Dead(s, e)
    ensures Dead(DrainApply(c, s, w, Publish(0)), e) && !Locked(DrainApply(c, s, w, Publish(0)), e)
  {
    var t := DrainApply(c, s, w, Publish(0));
    LockedIsHeld(t, e);
    assert forall v :: HoldsLock(t, v, e) ==> HoldsLock(s, v, e) && v != w;
  }

  // --- Consequences ---------------------------------------------------------------------------------

  lemma ClaimsGrow(c: Config, s: State, step: Step)
    requires Enabled(c, s, step)
    ensures s.claims <= Apply(c, s, step).claims
  {
  }

  /** A handler that has applied an event never applies it again, whatever is re-queued or redelivered. */
  lemma {:induction false} ClaimedNeverReapplied(c: Config, s: State, steps: seq<Step>, p: Pair)
    requires Inv(c, s) && Legal(c, s, steps) && p in s.claims
    ensures Final(c, s, steps).effects[p] == s.effects[p] == 1 && p in Final(c, s, steps).claims
    decreases |steps|
  {
    if steps != [] {
      StepKeepsInv(c, s, steps[0]);
      ClaimsGrow(c, s, steps[0]);
      ClaimedNeverReapplied(c, Apply(c, s, steps[0]), steps[1..], p);
    }
  }

  lemma {:induction false} HealthyRunLosesNothing(c: Config, s: State, steps: seq<Step>)
    requires HealthyRun(c, s, steps) && Legal(c, s, steps) && Inv(c, s) && NothingLost(c, s)
    ensures NothingLost(c, Final(c, s, steps))
    decreases |steps|
  {
    if steps != [] {
      StepKeepsInv(c, s, steps[0]);
      StepLosesNothing(c, s, steps[0]);
      HealthyRunLosesNothing(c, Apply(c, s, steps[0]), steps[1..]);
    }
  }

  lemma SettledPair(c: Config, s: State, rest: seq<Step>, p: Pair)
    requires Inv(c, s) && NothingLost(c, s) && Announced(s)
    requires HealthyRun(c, s, rest) && Legal(c, s, rest) && Quiet(Final(c, s, rest))
    requires Wants(c, Final(c, s, rest), p)
    ensures Final(c, s, rest).effects[p] == 1 || Dead(Final(c, s, rest), p.event)
  {
    HealthyRunKeeps(c, s, rest);
    HealthyRunLosesNothing(c, s, rest);
    QuietLeavesNothingUnpublished(Final(c, s, rest), p.event);
    assert Safe(Final(c, s, rest), p);
  }

  /**
    Whatever went wrong before, short of a lost dispatcher: once a sweep runs and the bus is left to
    work in health until it rests, every subscriber of every row has applied it exactly once, or the
    row is dead-lettered where an operator can see it.
  */
  lemma EverythingSettles(c: Config, history: seq<Step>, rest: seq<Step>, p: Pair)
    requires Legal(c, EMPTY, history) && LosesNoDispatcher(history)
    requires var mid := Apply(c, Final(c, EMPTY, history), Sweep);
             HealthyRun(c, mid, rest) && Legal(c, mid, rest) && Quiet(Final(c, mid, rest))
    ensures var t := Final(c, Apply(c, Final(c, EMPTY, history), Sweep), rest);
            Wants(c, t, p) ==> t.effects[p] == 1 || Dead(t, p.event)
  {
    var s := Final(c, EMPTY, history);
    var mid := Apply(c, s, Sweep);
    EmptyIsGood(c);
    RunKeepsInv(c, EMPTY, history);
    NoEventIsLost(c, history);
    StepKeepsInv(c, s, Sweep);
    StepLosesNothing(c, s, Sweep);
    assert c.batchSize in mid.drainTasks;
    if Wants(c, Final(c, mid, rest), p) {
      SettledPair(c, mid, rest, p);
    }
  }

  /** Which rows the three deployed handlers can all apply. */
  lemma DeployedApplies(c: Config, s: State, e: EventId)
    requires c.registry == DEPLOYED && e in s.rows && s.rows[e].env.topic in ALL_TOPICS
    requires RosterRowsCarryNoProject(s)
    ensures var env := s.rows[e].env;
            AllApply(c, s, e) <==>
            env.topic !in MEMBER_TOPICS
            && if env.topic == TOPIC_CLOCK_TICKED then TickAtOf(env, c.iso).Ok? else ProjectCodeOf(env).Ok?
  {
    var env := s.rows[e].env;
    HandlerNamesDiffer();
    EmittedTopicIsNotConsumed();
    assert DEPLOYED[0] in c.registry && DEPLOYED[1] in c.registry && DEPLOYED[2] in c.registry;
    if env.topic in MEMBER_TOPICS {
      MemberTopicsReachTheSnapshotBuilder(env.topic);
      SnapshotBuilderCannotApplyRosterEvents(c, env);
      assert Subscribed(c.registry, env.topic, SNAPSHOT_BUILDER);
    } else if env.topic == TOPIC_CLOCK_TICKED {
      assert Subscribed(c.registry, env.topic, PRIORITY_RECALCULATOR);
    } else {
      assert Subscribed(c.registry, env.topic, SNAPSHOT_BUILDER);
    }
  }

  /** Re-queueing a dead-lettered roster event never helps: it is dead-lettered again every time. */
  lemma RosterRowsAreDeadLetteredAgain(c: Config, history: seq<Step>, e: EventId, rest: seq<Step>)
    requires c.registry == DEPLOYED && c.batchSize > 0 && Legal(c, EMPTY, history)
    requires var s := Final(c, EMPTY, history);
             Dead(s, e) && !Locked(s, e)
             && s.rows[e].env.topic in MEMBER_TOPICS && RosterRowsCarryNoProject(s)
    requires var s := Final(c, EMPTY, history);
             Legal(c, s, RequeueAndSweep(e))
             && var mid := Final(c, s, RequeueAndSweep(e));
             HealthyRun(c, mid, rest) && Legal(c, mid, rest) && Quiet(Final(c, mid, rest))
    ensures Dead(Final(c, Final(c, Final(c, EMPTY, history), RequeueAndSweep(e)), rest), e)
  {
    DeployedIsAcyclic(c);
    DeployedApplies(c, Final(c, EMPTY, history), e);
    RequeueRecovers(c, history, e, rest);
  }
}
