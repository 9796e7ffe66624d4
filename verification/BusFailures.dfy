/** Where the bus falls short of what it documents: runs that show it, and how far the damage goes. */
module BusFailures {
  import opened Prelude
  import opened Catalog
  import opened Envelopes
  import opened Registry
  import opened Outbox
  import opened Engine
  import opened Protocol
  import opened BusInvariants
  import opened BusSafety
  import opened BusTermination

  // --- A delivery lost between commit and hook ---------------------------------------------------

  const NOTE_DRAFT: Draft :=
    Draft(TOPIC_NOTE_ADDED, 0, SYSTEM_ACTOR, None, EntityRef(ENTITY_PROJECT, "PRJ-01"), map[], 1)

  /** One handler, subscribed to one topic. */
  function SingleHandler(name: string, attempts: nat, iso: string -> IsoReading): Config {
    Config([Registration(name, {TOPIC_NOTE_ADDED}, 0)], attempts, 100, iso)
  }

  lemma SingleDispatch(name: string, attempts: nat, iso: string -> IsoReading, rows: map<EventId, Row>, e: EventId)
    requires e in rows && rows[e].env.topic == TOPIC_NOTE_ADDED
    ensures Dispatch(SingleHandler(name, attempts, iso), rows, [e]) == [Pair(e, name)]
  {
  }

  /** One event is produced, drained and committed; then its drain worker is killed. */
  function LossySteps(): seq<Step> {
    [Produce(0, NOTE_DRAFT, true), Drain(0, Claim(100, [0])), Drain(0, Publish(1)), Drain(0, Lose(true))]
  }

  function NoteRow(): Row {
    NewRow(Seal(NOTE_DRAFT, 0))
  }

  /** The state after each of the four steps. */
  function Produced(): State {
    EMPTY.(rows := map[0 := NoteRow()], periods := multiset{0}, drainTasks := multiset{100})
  }

  function ClaimedBatch(): State {
    Produced().(drainTasks := multiset{}, drainers := map[0 := Claiming(100, [0])])
  }

  function CommittedBatch(name: string): State {
    ClaimedBatch().(rows := map[0 := Published(NoteRow(), 1)], dispatches := multiset{0},
                    drainers := map[0 := Dispatching(100, false, [Pair(0, name)])])
  }

  function Stranded(name: string): State {
    CommittedBatch(name).(drainers := map[], drainTasks := multiset{100})
  }

  lemma LossyProduce(c: Config)
    requires c.batchSize == 100
    ensures Enabled(c, EMPTY, LossySteps()[0]) && Apply(c, EMPTY, LossySteps()[0]) == Produced()
  {
  }

  lemma LossyClaim(c: Config)
    ensures Enabled(c, Produced(), LossySteps()[1]) && Apply(c, Produced(), LossySteps()[1]) == ClaimedBatch()
  {
  }

  lemma LossyCommit(name: string, attempts: nat, iso: string -> IsoReading)
    ensures var c := SingleHandler(name, attempts, iso);
            && Enabled(c, ClaimedBatch(), LossySteps()[2])
            && Apply(c, ClaimedBatch(), LossySteps()[2]) == CommittedBatch(name)
  {
    var c, s := SingleHandler(name, attempts, iso), ClaimedBatch();
    assert DrainEnabled(c, s, 0, Publish(1));
    SingleDispatch(name, attempts, iso, s.rows, 0);
    assert PublishAll(s.rows, [0], 1) == map[0 := Published(NoteRow(), 1)];
    assert multiset([0]) == multiset{0};
    assert DrainApply(c, s, 0, Publish(1)) == CommittedBatch(name);
  }

  lemma LossyKill(c: Config, name: string)
    ensures Enabled(c, CommittedBatch(name), LossySteps()[3])
    ensures Apply(c, CommittedBatch(name), LossySteps()[3]) == Stranded(name)
  {
  }

  /**
    The documented promise that a drain "can never dispatch zero times" fails: a worker killed after
    its transaction commits and before the hooks run leaves a published row nobody was told about.
  */
  lemma KilledDispatcherLosesTheEvent(name: string, attempts: nat, iso: string -> IsoReading)
    ensures var c := SingleHandler(name, attempts, iso);
            Legal(c, EMPTY, LossySteps())
            && var s := Final(c, EMPTY, LossySteps());
               && Wants(c, s, Pair(0, name)) && !Safe(s, Pair(0, name)) && !NothingLost(c, s)
               && Abandoned(s, 0) && Pair(0, name) !in s.claims
  {
    var c, t := SingleHandler(name, attempts, iso), Stranded(name);
    LossyProduce(c);
    LossyClaim(c);
    LossyCommit(name, attempts, iso);
    LossyKill(c, name);
    RunOf4(c, EMPTY, LossySteps(), Produced(), ClaimedBatch(), CommittedBatch(name), t);
    StrandedIsUnsafe(c, name);
  }

  lemma StrandedIsUnsafe(c: Config, name: string)
    requires Registration(name, {TOPIC_NOTE_ADDED}, 0) in c.registry
    ensures Wants(c, Stranded(name), Pair(0, name)) && !Safe(Stranded(name), Pair(0, name))
    ensures Abandoned(Stranded(name), 0) && Pair(0, name) !in Stranded(name).claims
  {
  }

  lemma RunOf3(c: Config, s: State, steps: seq<Step>, s1: State, s2: State, s3: State)
    requires |steps| == 3
    requires Enabled(c, s, steps[0]) && s1 == Apply(c, s, steps[0])
    requires Enabled(c, s1, steps[1]) && s2 == Apply(c, s1, steps[1])
    requires Enabled(c, s2, steps[2]) && s3 == Apply(c, s2, steps[2])
    ensures Legal(c, s, steps) && Final(c, s, steps) == s3
  {
    var r1, r2 := steps[1..], steps[2..];
    assert r1[1..] == r2 && r2[1..] == [];
    assert Legal(c, s3, []) && Final(c, s3, []) == s3;
    assert Legal(c, s2, r2) && Final(c, s2, r2) == s3;
    assert Legal(c, s1, r1) && Final(c, s1, r1) == s3;
  }

  lemma RunOf4(c: Config, s: State, steps: seq<Step>, s1: State, s2: State, s3: State, s4: State)
    requires |steps| == 4
    requires Enabled(c, s, steps[0]) && s1 == Apply(c, s, steps[0])
    requires Enabled(c, s1, steps[1]) && s2 == Apply(c, s1, steps[1])
    requires Enabled(c, s2, steps[2]) && s3 == Apply(c, s2, steps[2])
    requires Enabled(c, s3, steps[3]) && s4 == Apply(c, s3, steps[3])
    ensures Legal(c, s, steps) && Final(c, s, steps) == s4
  {
    RunOf3(c, s1, steps[1..], s2, s3, s4);
  }

  /** Nothing on the broker, in a worker or in the admin's hands concerns the row any more. */
  ghost predicate Abandoned(s: State, e: EventId) {
    && e in s.rows && !Unpublished(s, e) && !Dead(s, e) && e !in s.selected
    && (forall w, h :: !PendingHook(s, w, Pair(e, h)))
    && (forall d :: d in s.queued ==> d.pair.event != e)
    && (forall w :: w in s.jobs ==> s.jobs[w].delivery.pair.event != e)
  }

  lemma DrainKeepsAbandoned(c: Config, s: State, w: Worker, move: DrainMove, e: EventId)
    requires DrainEnabled(c, s, w, move) && LocksExclusive(s) && Abandoned(s, e)
    ensures Abandoned(DrainApply(c, s, w, move), e)
  {
    var t := DrainApply(c, s, w, move);
    if move.Publish? {
      assert e !in s.drainers[w].batch by { assert !HoldsLock(s, w, e); }
      forall v, h ensures !PendingHook(t, v, Pair(e, h)) {
        DispatchReachesSubscribers(c, s.rows, s.drainers[w].batch, Pair(e, h));
        assert !PendingHook(s, v, Pair(e, h));
      }
    } else {
      forall v, h ensures !PendingHook(t, v, Pair(e, h)) {
        assert !PendingHook(s, v, Pair(e, h));
      }
      if move.Queue? {
        assert PendingHook(s, w, Pair(s.drainers[w].pending[0].event, s.drainers[w].pending[0].handler));
      }
    }
  }

  lemma JobKeepsAbandoned(c: Config, s: State, w: Worker, act: JobMove, e: EventId)
    requires JobEnabled(c, s, w, act) && Abandoned(s, e)
    ensures Abandoned(JobApply(c, s, w, act), e)
    ensures forall h :: Pair(e, h) in JobApply(c, s, w, act).claims <==> Pair(e, h) in s.claims
  {
    var t := JobApply(c, s, w, act);
    JobWrites(c, s, w, act);
    JobKeepsUnpublishedAndDead(c, s, w, act, e);
    JobOnOtherRow(c, s, w, act, e);
    forall v, h ensures !PendingHook(t, v, Pair(e, h)) {
      assert !PendingHook(s, v, Pair(e, h));
    }
  }

  lemma JobOnOtherRow(c: Config, s: State, w: Worker, act: JobMove, e: EventId)
    requires JobEnabled(c, s, w, act) && Abandoned(s, e)
    ensures var t := JobApply(c, s, w, act);
            && !Dead(t, e) && e in t.rows && t.selected == s.selected
            && (forall d :: d in t.queued ==> d.pair.event != e)
            && (forall v :: v in t.jobs ==> t.jobs[v].delivery.pair.event != e)
            && (forall h :: Pair(e, h) in t.claims <==> Pair(e, h) in s.claims)
  {
    JobWrites(c, s, w, act);
    JobCommits(c, s, w, act);
    forall v | v in JobApply(c, s, w, act).jobs ensures JobApply(c, s, w, act).jobs[v].delivery.pair.event != e {
      JobMoves(c, s, w, act, v);
    }
    JobKeepsOtherAlive(c, s, w, act, e);
  }

  lemma JobKeepsOtherAlive(c: Config, s: State, w: Worker, act: JobMove, e: EventId)
    requires JobEnabled(c, s, w, act) && Abandoned(s, e)
    ensures !Dead(JobApply(c, s, w, act), e) && e in JobApply(c, s, w, act).rows
  {
    JobWrites(c, s, w, act);
    if act.Commit? {
      SealedRows(s.jobs[w].phase.out.drafts, act.ids);
    }
  }

  lemma StepKeepsAbandoned(c: Config, s: State, step: Step, e: EventId)
    requires Enabled(c, s, step) && LocksExclusive(s) && Abandoned(s, e)
    ensures Abandoned(Apply(c, s, step), e)
    ensures forall h :: Pair(e, h) in Apply(c, s, step).claims <==> Pair(e, h) in s.claims
  {
    if step.Deliver? {
      JobKeepsAbandoned(c, s, step.w, step.act, e);
    } else if step.Drain? {
      DrainKeepsAbandoned(c, s, step.w, step.move, e);
    } else {
      var t := Apply(c, s, step);
      forall v, h ensures !PendingHook(t, v, Pair(e, h)) {
        assert !PendingHook(s, v, Pair(e, h));
      }
    }
  }

  /**
    A stranded delivery is beyond recovery: once nothing else concerns its row, no continuation
    whatsoever — sweeps, other events, the operator's re-queue, which only reaches dead-lettered
    rows — ever applies it.
  */
  lemma {:induction false} LostForever(c: Config, s: State, steps: seq<Step>, p: Pair)
    requires Inv(c, s) && Abandoned(s, p.event) && p !in s.claims
    requires Legal(c, s, steps)
    ensures p !in Final(c, s, steps).claims && Final(c, s, steps).effects[p] == 0
    decreases |steps|
  {
    if steps != [] {
      StepKeepsAbandoned(c, s, steps[0], p.event);
      StepKeepsInv(c, s, steps[0]);
      assert p == Pair(p.event, p.handler);
      LostForever(c, Apply(c, s, steps[0]), steps[1..], p);
    }
  }

  // --- A drain of batch size zero ---------------------------------------------------------------

  /** One drain pass with nothing else going on: claim, commit, hooks, self re-queue. */
  function EmptyPass(w: Worker): seq<Step> {
    [Drain(w, Claim(0, [])), Drain(w, Publish(0)), Drain(w, Finish(true))]
  }

  /** With a batch size of zero every pass is "full": it changes nothing and queues itself again. */
  lemma ZeroBatchLoops(c: Config, s: State, w: Worker)
    requires 0 in s.drainTasks && w !in s.drainers
    ensures Legal(c, s, EmptyPass(w)) && Final(c, s, EmptyPass(w)) == s
  {
    var s1 := s.(drainTasks := s.drainTasks - multiset{0}, drainers := s.drainers[w := Claiming(0, [])]);
    var s2 := s1.(drainers := s.drainers[w := Dispatching(0, true, [])]);
    EmptyClaim(c, s, w, s1);
    EmptyCommit(c, s, w, s1, s2);
    EmptyFinish(c, s, w, s2);
    RunOf3(c, s, EmptyPass(w), s1, s2, s);
  }

  lemma EmptyClaim(c: Config, s: State, w: Worker, t: State)
    requires 0 in s.drainTasks && w !in s.drainers
    requires t == s.(drainTasks := s.drainTasks - multiset{0}, drainers := s.drainers[w := Claiming(0, [])])
    ensures Enabled(c, s, EmptyPass(w)[0]) && Apply(c, s, EmptyPass(w)[0]) == t
  {
  }

  lemma EmptyCommit(c: Config, s: State, w: Worker, s1: State, s2: State)
    requires s1 == s.(drainTasks := s.drainTasks - multiset{0}, drainers := s.drainers[w := Claiming(0, [])])
    requires s2 == s1.(drainers := s.drainers[w := Dispatching(0, true, [])])
    ensures Enabled(c, s1, EmptyPass(w)[1]) && Apply(c, s1, EmptyPass(w)[1]) == s2
  {
    assert DrainEnabled(c, s1, w, Publish(0));
    assert Dispatch(c, s1.rows, []) == [];
    assert PublishAll(s1.rows, [], 0) == s1.rows;
    assert s1.drainers[w := Dispatching(0, true, [])] == s.drainers[w := Dispatching(0, true, [])];
    assert DrainApply(c, s1, w, Publish(0)) == s2;
  }

  lemma EmptyFinish(c: Config, s: State, w: Worker, s2: State)
    requires 0 in s.drainTasks && w !in s.drainers
    requires s2 == s.(drainTasks := s.drainTasks - multiset{0}, drainers := s.drainers[w := Dispatching(0, true, [])])
    ensures Enabled(c, s2, EmptyPass(w)[2]) && Apply(c, s2, EmptyPass(w)[2]) == s
  {
  }

  /** The states and steps of that pass, round and round, after one sweep of an empty table. */
  function RoundState(k: nat): State {
    if k == 0 then EMPTY.(drainTasks := multiset{0})
    else if k == 1 then EMPTY.(drainers := map[0 := Claiming(0, [])])
    else EMPTY.(drainers := map[0 := Dispatching(0, true, [])])
  }

  function Round(): nat -> State {
    (n: nat) => RoundState(n % 3)
  }

  function RoundSteps(): nat -> Step {
    (n: nat) => EmptyPass(0)[n % 3]
  }

  /** One step of the pass. */
  ghost predicate RoundMoves(c: Config, k: nat, l: nat)
    requires k < 3
  {
    && Enabled(c, RoundState(k), EmptyPass(0)[k]) && Autonomous(EmptyPass(0)[k])
    && RoundState(l) == Apply(c, RoundState(k), EmptyPass(0)[k])
  }

  lemma RoundClaims(c: Config)
    ensures RoundMoves(c, 0, 1)
  {
    assert multiset{0} - multiset{0} == multiset{};
    EmptyClaim(c, RoundState(0), 0, RoundState(1));
  }

  lemma RoundCommits(c: Config)
    ensures RoundMoves(c, 1, 2)
  {
    assert multiset{0} - multiset{0} == multiset{};
    EmptyCommit(c, RoundState(0), 0, RoundState(1), RoundState(2));
  }

  lemma RoundFinishes(c: Config)
    ensures RoundMoves(c, 2, 0)
  {
    assert multiset{0} - multiset{0} == multiset{};
    EmptyFinish(c, RoundState(0), 0, RoundState(2));
  }

  lemma RoundGoesOn(c: Config, n: nat)
    ensures Follows(c, Round(), RoundSteps(), n)
  {
    EachRoundMoves(c, n % 3);
    assert (n + 1) % 3 == if n % 3 == 2 then 0 else n % 3 + 1;
  }

  lemma EachRoundMoves(c: Config, k: nat)
    requires k < 3
    ensures RoundMoves(c, k, if k == 2 then 0 else k + 1)
  {
    RoundClaims(c);
    RoundCommits(c);
    RoundFinishes(c);
  }

  /** The run stops somewhere. */
  ghost predicate Stops(c: Config, run: nat -> State, steps: nat -> Step) {
    exists n :: !Follows(c, run, steps, n)
  }

  /** The run goes on from where the history ends. */
  ghost predicate Continues(c: Config, history: seq<Step>, run: nat -> State) {
    Legal(c, EMPTY, history) && run(0) == Final(c, EMPTY, history)
  }

  /** From every reachable state, the bus left to itself stops. */
  ghost predicate AlwaysStops(c: Config) {
    forall history, run, steps | Continues(c, history, run) :: Stops(c, run, steps)
  }

  lemma ZeroBatchNeverStops(c: Config)
    requires c.batchSize == 0
    ensures Continues(c, [Sweep], Round()) && !Stops(c, Round(), RoundSteps())
  {
    assert [Sweep][1..] == [];
    assert Legal(c, Apply(c, EMPTY, Sweep), []);
    assert Apply(c, EMPTY, Sweep) == Round()(0);
    forall n ensures Follows(c, Round(), RoundSteps(), n) {
      RoundGoesOn(c, n);
    }
  }

  lemma PositiveBatchStops(c: Config)
    requires Acyclic(c) && c.batchSize > 0
    ensures AlwaysStops(c)
  {
    forall history, run, steps | Continues(c, history, run) ensures Stops(c, run, steps) {
      CascadeTerminates(c, history, run, steps);
    }
  }

  // --- Two operators with one selection ------------------------------------------------------------

  /** What the action promises: the rows it will touch are dead-lettered. */
  ghost predicate SelectedAreDead(s: State) {
    forall e :: e in s.selected ==> Dead(s, e)
  }

  /** A re-queue of a row that a second operator has selected as well. */
  predicate LeavesASelection(s: State, step: Step) {
    step.Requeue? && s.selected[step.e] >= 2
  }

  /** Only dead-lettered rows stay selected until an operator re-queues a row that another has selected too. */
  lemma StepKeepsSelectedDead(c: Config, s: State, step: Step)
    requires Enabled(c, s, step) && SelectedAreDead(s)
    ensures SelectedAreDead(Apply(c, s, step)) <==> !LeavesASelection(s, step)
  {
    if step.Requeue? {
      RequeueingLeaves(s, Apply(c, s, step), step.e);
    } else if !step.Select? {
      WorkKeepsSelected(c, s, step);
    }
  }

  lemma RequeueingLeaves(s: State, t: State, e: EventId)
    requires SelectedAreDead(s) && e in s.selected && e in s.rows
    requires t.selected == s.selected - multiset{e} && t.rows == s.rows[e := Requeued(s.rows[e])]
    ensures SelectedAreDead(t) <==> s.selected[e] < 2
  {
    assert !Dead(t, e);
    assert forall x :: x != e ==> (Dead(t, x) <==> Dead(s, x)) && t.selected[x] == s.selected[x];
  }

  /** Work on the bus leaves the selections and their rows as they are. */
  lemma WorkKeepsSelected(c: Config, s: State, step: Step)
    requires Enabled(c, s, step) && SelectedAreDead(s) && !step.Select? && !step.Requeue?
    ensures Apply(c, s, step).selected == s.selected && SelectedAreDead(Apply(c, s, step))
  {
    var t := Apply(c, s, step);
    if step.Deliver? {
      JobWrites(c, s, step.w, step.act);
    } else if step.Drain? {
      DrainLeaves(c, s, step.w, step.move);
    }
    assert t.selected == s.selected;
    forall e | e in s.selected ensures Dead(t, e) {
      WorkKeepsDead(c, s, step, e);
    }
  }

  /** Every selected row is dead-lettered, and one operator's. */
  ghost predicate SelectionsFresh(s: State) {
    SelectedAreDead(s) && forall e :: e in s.selected ==> s.selected[e] == 1
  }

  /** An operator selects a row that another has selected and not re-queued yet. */
  ghost predicate Overlaps(s: State, step: Step) {
    step.Select? && exists e :: e in step.chosen && e in s.selected
  }

  /** And no row is anybody's second until two selections overlap. */
  lemma StepKeepsSelections(c: Config, s: State, step: Step)
    requires Enabled(c, s, step) && SelectionsFresh(s)
    ensures SelectionsFresh(Apply(c, s, step)) <==> !Overlaps(s, step)
  {
    if step.Select? {
      SelectingKeepsFresh(s, Apply(c, s, step), step.chosen);
    } else {
      StepKeepsSelectedDead(c, s, step);
      if !step.Requeue? {
        WorkKeepsSelected(c, s, step);
      }
    }
  }

  lemma SelectingKeepsFresh(s: State, t: State, chosen: set<EventId>)
    requires SelectionsFresh(s) && t == s.(selected := s.selected + multiset(chosen))
    requires forall e :: e in chosen ==> Dead(s, e)
    ensures SelectionsFresh(t) <==> !exists e :: e in chosen && e in s.selected
  {
    forall e ensures Dead(t, e) == Dead(s, e) && t.selected[e] == s.selected[e] + if e in chosen then 1 else 0 {
    }
    if e :| e in chosen && e in s.selected {
      assert t.selected[e] == 2;
    }
  }

  lemma WorkKeepsDead(c: Config, s: State, step: Step, e: EventId)
    requires Enabled(c, s, step) && !step.Requeue? && Dead(s, e)
    ensures Dead(Apply(c, s, step), e)
  {
    if step.Deliver? {
      JobKeepsUnpublishedAndDead(c, s, step.w, step.act, e);
    } else if step.Drain? {
      DrainKeepsDead(c, s, step.w, step.move, e);
    }
  }

  lemma DrainKeepsDead(c: Config, s: State, w: Worker, move: DrainMove, e: EventId)
    requires DrainEnabled(c, s, w, move)
    ensures Dead(s, e) ==> Dead(DrainApply(c, s, w, move), e)
  {
  }

  lemma Selecting(c: Config, s: State, e: EventId)
    requires Dead(s, e)
    ensures Enabled(c, s, Select({e})) && Apply(c, s, Select({e})) == s.(selected := s.selected + multiset{e})
  {
  }

  function RequeuedState(s: State, e: EventId): State
    requires e in s.rows
  {
    s.(rows := s.rows[e := Requeued(s.rows[e])],
       selected := s.selected - multiset{e},
       periods := if s.rows[e].publishedAt.Some? then s.periods + multiset{e} else s.periods)
  }

  lemma Requeueing(c: Config, s: State, e: EventId)
    requires e in s.rows && e in s.selected && !Locked(s, e)
    ensures Enabled(c, s, Requeue(e))
    ensures Apply(c, s, Requeue(e)) == RequeuedState(s, e)
  {
  }

  /** Then the second re-queue takes a row that is no longer dead-lettered. */
  lemma SecondRequeueTakesAHealthyRow(c: Config, s: State, e: EventId)
    requires Dead(s, e) && !Locked(s, e)
    ensures var steps := [Select({e}), Select({e}), Requeue(e)];
            && Legal(c, s, steps)
            && var t := Final(c, s, steps); !Dead(t, e) && Enabled(c, t, Requeue(e))
  {
    var s1 := s.(selected := s.selected + multiset{e});
    var s2 := s1.(selected := s1.selected + multiset{e});
    Selecting(c, s, e);
    Selecting(c, s1, e);
    assert Locked(s2, e) <==> Locked(s, e);
    Requeueing(c, s2, e);
    var t := Apply(c, s2, Requeue(e));
    assert Locked(t, e) <==> Locked(s, e);
    RunOf3(c, s, [Select({e}), Select({e}), Requeue(e)], s1, s2, t);
  }

  // --- Roster events -----------------------------------------------------------------------------

  /** Every roster row is about a member and its payload carries no project code. */
  ghost predicate RosterRowsCarryNoProject(s: State) {
    forall e :: e in s.rows && s.rows[e].env.topic in MEMBER_TOPICS ==>
      s.rows[e].env.entity.kind == ENTITY_MEMBER && PROJECT_CODE_FIELD !in s.rows[e].env.payload
  }

  /** The snapshot builder raises on every attempt at a roster event. */
  lemma SnapshotBuilderCannotApplyRosterEvents(c: Config, env: Envelope)
    requires env.entity.kind == ENTITY_MEMBER && PROJECT_CODE_FIELD !in env.payload
    ensures !Applicable(c, SNAPSHOT_BUILDER, env)
  {
  }

  /** No job is past the handler for an envelope its handler cannot apply. */
  ghost predicate RunsWereApplicable(c: Config, s: State) {
    && (forall p :: p in s.claims ==> p.event in s.rows && Applicable(c, p.handler, s.rows[p.event].env))
    && (forall w :: w in s.jobs && s.jobs[w].phase.Ran? ==>
          var p := s.jobs[w].delivery.pair;
          p.event in s.rows && Applicable(c, p.handler, s.rows[p.event].env))
  }

  lemma JobKeepsApplicable(c: Config, s: State, w: Worker, act: JobMove)
    requires JobEnabled(c, s, w, act) && RunsWereApplicable(c, s)
    ensures RunsWereApplicable(c, JobApply(c, s, w, act))
  {
    var t := JobApply(c, s, w, act);
    JobKeepsRows(c, s, w, act);
    ClaimsKeepApplicable(c, s, w, act);
    forall v | v in t.jobs && t.jobs[v].phase.Ran?
      ensures var p := t.jobs[v].delivery.pair; p.event in s.rows && Applicable(c, p.handler, s.rows[p.event].env)
    {
      JobMoves(c, s, w, act, v);
      if v == w {
        PhaseMoves(c, s, w, act);
      }
    }
  }

  lemma ClaimsKeepApplicable(c: Config, s: State, w: Worker, act: JobMove)
    requires JobEnabled(c, s, w, act) && RunsWereApplicable(c, s)
    ensures forall p :: p in JobApply(c, s, w, act).claims ==>
                          p.event in s.rows && Applicable(c, p.handler, s.rows[p.event].env)
  {
    JobWrites(c, s, w, act);
    JobCommits(c, s, w, act);
  }

  lemma {:induction false} ClaimsWereApplicable(c: Config, s: State, steps: seq<Step>)
    requires Legal(c, s, steps) && RunsWereApplicable(c, s)
    ensures RunsWereApplicable(c, Final(c, s, steps))
    decreases |steps|
  {
    if steps != [] {
      var t := Apply(c, s, steps[0]);
      if steps[0].Deliver? {
        JobKeepsApplicable(c, s, steps[0].w, steps[0].act);
      } else {
        StepKeepsRows(c, s, steps[0]);
        OnlyDeliveriesTouch(c, s, steps[0]);
      }
      ClaimsWereApplicable(c, t, steps[1..]);
    }
  }

  /** In no run is a roster event ever applied by the snapshot builder. */
  lemma RosterEventsNeverReachTheSnapshot(c: Config, steps: seq<Step>, e: EventId)
    requires Legal(c, EMPTY, steps) && e in Final(c, EMPTY, steps).rows
    requires RosterRowsCarryNoProject(Final(c, EMPTY, steps))
    requires Final(c, EMPTY, steps).rows[e].env.topic in MEMBER_TOPICS
    ensures Pair(e, SNAPSHOT_BUILDER) !in Final(c, EMPTY, steps).claims
  {
    ClaimsWereApplicable(c, EMPTY, steps);
    SnapshotBuilderCannotApplyRosterEvents(c, Final(c, EMPTY, steps).rows[e].env);
  }
}
