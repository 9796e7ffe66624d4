/** Draining in batches, by any number of workers at once, is one pass over the sorted backlog. */
module BusDrain {
  import opened Prelude
  import opened Envelopes
  import opened Outbox
  import opened Protocol
  import opened BusInvariants
  import opened BusSafety

  // --- The sorted backlog ------------------------------------------------------------------------

  ghost predicate InOrder(rows: map<EventId, Row>, xs: seq<EventId>) {
    && (forall i :: 0 <= i < |xs| ==> xs[i] in rows)
    && (forall i, j :: 0 <= i < j < |xs| ==> Before(rows, xs[i], xs[j]))
  }

  ghost predicate Lists(xs: seq<EventId>, pool: set<EventId>) {
    forall e :: e in xs <==> e in pool
  }

  ghost predicate Oldest(rows: map<EventId, Row>, pool: set<EventId>, m: EventId)
    requires pool <= rows.Keys
  {
    m in pool && forall x :: x in pool && x != m ==> Before(rows, m, x)
  }

  lemma {:induction false} OldestExists(rows: map<EventId, Row>, pool: set<EventId>)
    requires pool != {} && pool <= rows.Keys
    ensures exists m :: Oldest(rows, pool, m)
    decreases |pool|
  {
    var p :| p in pool;
    if pool == {p} {
      assert Oldest(rows, pool, p);
    } else {
      OldestExists(rows, pool - {p});
      var m :| Oldest(rows, pool - {p}, m);
      if Before(rows, p, m) {
        forall x | x in pool && x != p ensures Before(rows, p, x) {
          assert x != m ==> Before(rows, m, x);
        }
        assert Oldest(rows, pool, p);
      } else {
        assert Oldest(rows, pool, m);
      }
    }
  }

  /** The rows of the pool, oldest first. */
  ghost function Backlog(rows: map<EventId, Row>, pool: set<EventId>): seq<EventId>
    requires pool <= rows.Keys
    decreases |pool|
  {
    if pool == {} then [] else
      OldestExists(rows, pool);
      var m :| Oldest(rows, pool, m);
      [m] + Backlog(rows, pool - {m})
  }

  lemma BacklogHead(rows: map<EventId, Row>, pool: set<EventId>) returns (rest: seq<EventId>)
    requires pool != {} && pool <= rows.Keys
    ensures var b := Backlog(rows, pool);
            b != [] && Oldest(rows, pool, b[0]) && b == [b[0]] + rest && rest == Backlog(rows, pool - {b[0]})
  {
    OldestExists(rows, pool);
    var m :| Oldest(rows, pool, m) && Backlog(rows, pool) == [m] + Backlog(rows, pool - {m});
    rest := Backlog(rows, pool - {m});
  }

  lemma OldestFirst(rows: map<EventId, Row>, pool: set<EventId>, m: EventId, rest: seq<EventId>)
    requires pool <= rows.Keys && Oldest(rows, pool, m)
    requires InOrder(rows, rest) && Lists(rest, pool - {m})
    ensures InOrder(rows, [m] + rest) && Lists([m] + rest, pool)
  {
    forall j | 0 <= j < |rest| ensures Before(rows, m, rest[j]) {
      assert rest[j] in pool - {m};
    }
  }

  lemma {:induction false} BacklogSorted(rows: map<EventId, Row>, pool: set<EventId>)
    requires pool <= rows.Keys
    ensures InOrder(rows, Backlog(rows, pool)) && Lists(Backlog(rows, pool), pool)
    decreases |pool|
  {
    if pool != {} {
      var rest := BacklogHead(rows, pool);
      var m := Backlog(rows, pool)[0];
      BacklogSorted(rows, pool - {m});
      OldestFirst(rows, pool, m, rest);
    }
  }

  /** There is one way to list a pool in order. */
  lemma {:induction false} BacklogUnique(rows: map<EventId, Row>, pool: set<EventId>, xs: seq<EventId>)
    requires pool <= rows.Keys && InOrder(rows, xs) && Lists(xs, pool)
    ensures xs == Backlog(rows, pool)
    decreases |pool|
  {
    if xs == [] {
      assert pool == {};
    } else {
      assert xs[0] in pool;
      var rest := BacklogHead(rows, pool);
      var m := Backlog(rows, pool)[0];
      HeadIsOldest(rows, pool, xs, m);
      BacklogUnique(rows, pool - {m}, xs[1..]);
      assert xs == [xs[0]] + xs[1..];
    }
  }

  lemma HeadIsOldest(rows: map<EventId, Row>, pool: set<EventId>, xs: seq<EventId>, m: EventId)
    requires pool <= rows.Keys && InOrder(rows, xs) && Lists(xs, pool) && Oldest(rows, pool, m)
    ensures xs != [] && xs[0] == m && InOrder(rows, xs[1..]) && Lists(xs[1..], pool - {m})
  {
    var i :| 0 <= i < |xs| && xs[i] == m;
    assert xs[0] in pool;
    assert xs[0] == m;
    assert xs == [m] + xs[1..];
    forall e | e in xs[1..] ensures e in pool - {m} {
      var j :| 0 < j < |xs| && xs[j] == e;
      assert Before(rows, xs[0], xs[j]);
    }
  }

  /** What a claiming transaction may take now. */
  ghost function Pool(s: State): set<EventId> {
    set e | e in s.rows && Claimable(s, e)
  }

  ghost function Pending(s: State): seq<EventId> {
    Backlog(s.rows, Pool(s))
  }

  function Prefix<T>(xs: seq<T>, n: nat): seq<T> {
    if n <= |xs| then xs[..n] else xs
  }

  lemma ClaimThenRest(s: State, limit: nat, batch: seq<EventId>)
    requires IsClaim(s, limit, batch)
    ensures var rest := Backlog(s.rows, Pool(s) - (set e | e in batch));
            Pending(s) == batch + rest && (|batch| < limit ==> rest == [])
  {
    var others := Pool(s) - (set e | e in batch);
    var rest := Backlog(s.rows, others);
    BacklogSorted(s.rows, others);
    forall i | 0 <= i < |rest| ensures Claimable(s, rest[i]) && rest[i] !in batch {
      assert rest[i] in others;
    }
    forall i | 0 <= i < |batch| ensures batch[i] in Pool(s) {
      assert Claimable(s, batch[i]);
    }
    assert InOrder(s.rows, batch + rest);
    assert Lists(batch + rest, Pool(s));
    BacklogUnique(s.rows, Pool(s), batch + rest);
  }

  lemma PrefixIsClaim(s: State, limit: nat)
    ensures IsClaim(s, limit, Prefix(Pending(s), limit))
  {
    var all := Pending(s);
    var batch := Prefix(all, limit);
    BacklogSorted(s.rows, Pool(s));
    forall i | 0 <= i < |batch| ensures Claimable(s, batch[i]) {
      assert all[i] in Pool(s);
    }
    forall e | Claimable(s, e) && e !in batch
      ensures |batch| == limit && forall i :: 0 <= i < |batch| ==> Before(s.rows, batch[i], e)
    {
      assert e in Pool(s);
      BeyondThePrefix(s.rows, all, limit, e);
    }
  }

  lemma BeyondThePrefix(rows: map<EventId, Row>, all: seq<EventId>, limit: nat, e: EventId)
    requires InOrder(rows, all) && e in all && e !in Prefix(all, limit)
    ensures |Prefix(all, limit)| == limit
    ensures forall i :: 0 <= i < limit ==> Before(rows, Prefix(all, limit)[i], e)
  {
    var j: nat :| j < |all| && all[j] == e;
    InThePrefix(all, limit, j);
  }

  lemma InThePrefix<T>(all: seq<T>, limit: nat, j: nat)
    requires j < |all|
    ensures j < limit ==> all[j] in Prefix(all, limit)
  {
    assert j < limit ==> Prefix(all, limit)[j] == all[j];
  }

  /** The claim query returns exactly the first `limit` rows of the sorted backlog. */
  lemma ClaimTakesTheOldest(s: State, limit: nat, batch: seq<EventId>)
    ensures IsClaim(s, limit, batch) <==> batch == Prefix(Pending(s), limit)
  {
    PrefixIsClaim(s, limit);
    if IsClaim(s, limit, batch) {
      ClaimThenRest(s, limit, batch);
    }
  }

  // --- One pass ----------------------------------------------------------------------------------

  /** Steps that make no row claimable: no new row, no re-queue, no rolled-back claim. */
  predicate Steady(step: Step) {
    match step
    case Produce(_, _, _) => false
    case Requeue(_) => false
    case Drain(_, move) => !move.Abort?
    case Deliver(_, act) => !act.Commit? || act.ids == []
    case _ => true
  }

  function ClaimedIn(step: Step): seq<EventId> {
    if step.Drain? && step.move.Claim? then step.move.batch else []
  }

  /** The batches of a run, in the order they were claimed. */
  function Claimed(steps: seq<Step>): seq<EventId> {
    if steps == [] then [] else ClaimedIn(steps[0]) + Claimed(steps[1..])
  }

  lemma SteadyDeliveries(c: Config, s: State, w: Worker, act: JobMove, e: EventId)
    requires JobEnabled(c, s, w, act) && (act.Commit? ==> act.ids == [])
    ensures Claimable(JobApply(c, s, w, act), e) <==> Claimable(s, e)
  {
  }

  lemma LockedIsHeld(s: State, e: EventId)
    ensures Locked(s, e) <==> exists v :: HoldsLock(s, v, e)
  {
    if Locked(s, e) {
      var v :| v in s.drainers && s.drainers[v].Claiming? && e in s.drainers[v].batch;
      assert HoldsLock(s, v, e);
    }
  }

  lemma SteadyDrains(c: Config, s: State, w: Worker, move: DrainMove, e: EventId)
    requires DrainEnabled(c, s, w, move) && !move.Abort? && LocksExclusive(s)
    ensures Claimable(DrainApply(c, s, w, move), e) <==> Claimable(s, e) && !(move.Claim? && e in move.batch)
  {
    var t := DrainApply(c, s, w, move);
    forall v ensures HoldsLock(t, v, e) <==>
                     if v == w then move.Claim? && e in move.batch else HoldsLock(s, v, e)
    {}
    LockedIsHeld(s, e);
    LockedIsHeld(t, e);
    if move.Publish? {
      assert Unpublished(t, e) <==> Unpublished(s, e) && !HoldsLock(s, w, e);
    } else {
      assert Unpublished(t, e) <==> Unpublished(s, e);
      assert !HoldsLock(s, w, e);
      if move.Claim? && e in move.batch {
        assert HoldsLock(t, w, e);
      }
    }
  }

  lemma SteadyPool(c: Config, s: State, step: Step, e: EventId)
    requires Enabled(c, s, step) && Steady(step) && LocksExclusive(s)
    ensures Claimable(Apply(c, s, step), e) <==> Claimable(s, e) && e !in ClaimedIn(step)
  {
    if step.Deliver? {
      SteadyDeliveries(c, s, step.w, step.act, e);
    } else if step.Drain? {
      SteadyDrains(c, s, step.w, step.move, e);
    } else {
      assert Locked(Apply(c, s, step), e) <==> Locked(s, e);
    }
  }

  lemma SameOrder(s: State, t: State, xs: seq<EventId>)
    requires RowsPersist(s, t) && InOrder(s.rows, xs)
    ensures InOrder(t.rows, xs)
  {
  }

  /** A steady step takes its batch off the front of the backlog and leaves the rest as it was. */
  lemma StepDrains(c: Config, s: State, step: Step)
    requires Enabled(c, s, step) && Steady(step) && LocksExclusive(s)
    ensures Pending(s) == ClaimedIn(step) + Pending(Apply(c, s, step))
  {
    var t := Apply(c, s, step);
    var batch := ClaimedIn(step);
    var others := Pool(s) - (set e | e in batch);
    var rest := Backlog(s.rows, others);
    StepKeepsRows(c, s, step);
    if step.Drain? && step.move.Claim? {
      ClaimThenRest(s, step.move.limit, batch);
    } else {
      assert others == Pool(s);
    }
    BacklogSorted(s.rows, others);
    SameOrder(s, t, rest);
    PoolAfter(c, s, step);
    BacklogUnique(t.rows, Pool(t), rest);
  }

  lemma PoolAfter(c: Config, s: State, step: Step)
    requires Enabled(c, s, step) && Steady(step) && LocksExclusive(s)
    ensures Pool(Apply(c, s, step)) == Pool(s) - (set e | e in ClaimedIn(step))
  {
    forall e ensures e in Pool(Apply(c, s, step)) <==> e in Pool(s) && e !in ClaimedIn(step) {
      SteadyPool(c, s, step, e);
    }
  }

  /**
    Any number of drain workers, interleaved in any way with each other and with deliveries, claim
    exactly the rows of the sorted backlog, in its order: the batches in claim order and what is
    still claimable afterwards are the backlog they started from.
  */
  lemma {:induction false} ConcurrentDrainsAreOnePass(c: Config, s: State, steps: seq<Step>)
    requires Inv(c, s) && Legal(c, s, steps)
    requires forall i :: 0 <= i < |steps| ==> Steady(steps[i])
    ensures Claimed(steps) + Pending(Final(c, s, steps)) == Pending(s)
    decreases |steps|
  {
    if steps != [] {
      var t := Apply(c, s, steps[0]);
      StepDrains(c, s, steps[0]);
      StepKeepsInv(c, s, steps[0]);
      ConcurrentDrainsAreOnePass(c, t, steps[1..]);
      Regroup(ClaimedIn(steps[0]), Claimed(steps[1..]), Pending(Final(c, t, steps[1..])));
    }
  }

  // --- How many passes a lone drain needs ----------------------------------------------------------

  /** `drain_outbox` with nobody else around: a full batch, and only a full batch, queues the next pass. */
  ghost predicate LoneStep(s: State, step: Step) {
    && step.Drain? && (step.move.Claim? || step.move.Publish? || step.move.Queue? || step.move.Finish?)
    && (step.move.Finish? && step.w in s.drainers && s.drainers[step.w].Dispatching? ==>
          step.move.requeued == s.drainers[step.w].full)
  }

  ghost predicate LoneRun(c: Config, s: State, steps: seq<Step>)
    requires Legal(c, s, steps)
    decreases |steps|
  {
    steps == [] || (LoneStep(s, steps[0]) && LoneRun(c, Apply(c, s, steps[0]), steps[1..]))
  }

  function Claims(steps: seq<Step>): nat {
    if steps == [] then 0
    else (if steps[0].Drain? && steps[0].move.Claim? then 1 else 0) + Claims(steps[1..])
  }

  predicate IsFull(d: Drainer) {
    match d case Claiming(limit, batch) => |batch| == limit case Dispatching(_, full, _) => full
  }

  /** One drain message or one drain worker; once neither will be followed by another, nothing is left. */
  ghost predicate Alone(s: State, limit: nat) {
    || (s.drainers == map[] && s.drainTasks == multiset{limit})
    || (s.drainTasks == multiset{} && exists w :: AloneAt(s, limit, w))
    || Drained(s)
  }

  ghost predicate AloneAt(s: State, limit: nat, w: Worker) {
    s.drainers.Keys == {w} && s.drainers[w].limit == limit && (!IsFull(s.drainers[w]) ==> Pending(s) == [])
  }

  ghost predicate Drained(s: State) {
    s.drainTasks == multiset{} && s.drainers == map[] && Pending(s) == []
  }

  /** The passes still to come. */
  ghost function PassesLeft(s: State, limit: nat): nat
    requires limit > 0
  {
    if s.drainTasks != multiset{} || (exists w :: w in s.drainers && IsFull(s.drainers[w]))
    then |Pending(s)| / limit + 1 else 0
  }

  lemma Multiple(a: int, k: nat)
    ensures a >= 1 ==> a * k >= k
    ensures a <= -1 ==> a * k + k <= 0
  {
  }

  /** A quotient is determined by its remainder. */
  lemma QuotientIs(n: nat, k: nat, q: int, r: nat)
    requires k > 0 && r < k && n == q * k + r
    ensures n / k == q
  {
    var d := n / k - q;
    assert n == (n / k) * k + n % k;
    assert d * k == (n / k) * k - q * k;
    Multiple(d, k);
  }

  lemma Quotient(n: nat, k: nat)
    requires k > 0
    ensures n < k ==> n / k == 0
    ensures n >= k ==> n / k == (n - k) / k + 1
  {
    if n < k {
      QuotientIs(n, k, 0, n);
    } else {
      var q := n / k;
      assert n - k == (q - 1) * k + n % k;
      QuotientIs(n - k, k, q - 1, n % k);
    }
  }

  lemma PassesAt(s: State, limit: nat, w: Worker)
    requires limit > 0 && AloneAt(s, limit, w) && s.drainTasks == multiset{}
    ensures PassesLeft(s, limit) == if IsFull(s.drainers[w]) then |Pending(s)| / limit + 1 else 0
  {
  }

  lemma ClaimStarts(c: Config, s: State, w: Worker, limit: nat, batch: seq<EventId>)
    requires s.drainers == map[] && s.drainTasks == multiset{limit}
    requires DrainEnabled(c, s, w, Claim(limit, batch)) && LocksExclusive(s)
    ensures var t := DrainApply(c, s, w, Claim(limit, batch));
            && t.drainTasks == multiset{} && AloneAt(t, limit, w)
            && Pending(s) == batch + Pending(t) && |batch| <= limit
            && IsFull(t.drainers[w]) == (|batch| == limit)
  {
    var t := DrainApply(c, s, w, Claim(limit, batch));
    var step := Drain(w, Claim(limit, batch));
    StepDrains(c, s, step);
    ClaimThenRest(s, limit, batch);
    assert t.drainers == map[w := Claiming(limit, batch)];
  }

  lemma ClaimPass(c: Config, s: State, step: Step, limit: nat)
    requires limit > 0 && LocksExclusive(s) && Alone(s, limit)
    requires Enabled(c, s, step) && step.Drain? && step.move.Claim?
    ensures Alone(Apply(c, s, step), limit)
    ensures PassesLeft(s, limit) == 1 + PassesLeft(Apply(c, s, step), limit)
  {
    var t := Apply(c, s, step);
    assert s.drainTasks == multiset{limit} && step.move.limit == limit;
    ClaimStarts(c, s, step.w, limit, step.move.batch);
    PassesAt(t, limit, step.w);
    Quotient(|Pending(s)|, limit);
  }

  /** A pass between its claim and its end. */
  lemma PassGoesOn(c: Config, s: State, step: Step, limit: nat)
    requires step.Drain? && LocksExclusive(s) && AloneAt(s, limit, step.w) && s.drainTasks == multiset{}
    requires Enabled(c, s, step) && LoneStep(s, step) && (step.move.Publish? || step.move.Queue?)
    requires Pending(Apply(c, s, step)) == Pending(s)
    ensures var t := Apply(c, s, step);
            AloneAt(t, limit, step.w) && t.drainTasks == multiset{}
            && IsFull(t.drainers[step.w]) == IsFull(s.drainers[step.w])
  {
  }

  lemma PassEnds(c: Config, s: State, step: Step, limit: nat)
    requires step.Drain? && LocksExclusive(s) && AloneAt(s, limit, step.w) && s.drainTasks == multiset{}
    requires Enabled(c, s, step) && LoneStep(s, step) && step.move.Finish?
    ensures var t := Apply(c, s, step);
            t.drainers == map[] && t.drainTasks == if IsFull(s.drainers[step.w]) then multiset{limit} else multiset{}
  {
  }

  lemma OtherPass(c: Config, s: State, step: Step, limit: nat)
    requires limit > 0 && LocksExclusive(s) && Alone(s, limit)
    requires Enabled(c, s, step) && LoneStep(s, step) && !step.move.Claim?
    ensures Alone(Apply(c, s, step), limit)
    ensures PassesLeft(s, limit) == PassesLeft(Apply(c, s, step), limit)
  {
    StepDrains(c, s, step);
    assert step.w in s.drainers;
    assert AloneAt(s, limit, step.w);
    if step.move.Finish? {
      LastOfPass(c, s, step, limit);
    } else {
      SamePasses(c, s, step, limit);
    }
  }

  lemma LastOfPass(c: Config, s: State, step: Step, limit: nat)
    requires limit > 0 && step.Drain? && LocksExclusive(s) && AloneAt(s, limit, step.w) && s.drainTasks == multiset{}
    requires Enabled(c, s, step) && LoneStep(s, step) && step.move.Finish?
    requires Pending(Apply(c, s, step)) == Pending(s)
    ensures Alone(Apply(c, s, step), limit)
    ensures PassesLeft(s, limit) == PassesLeft(Apply(c, s, step), limit)
  {
    PassesAt(s, limit, step.w);
    PassEnds(c, s, step, limit);
  }

  lemma SamePasses(c: Config, s: State, step: Step, limit: nat)
    requires limit > 0 && step.Drain? && LocksExclusive(s) && AloneAt(s, limit, step.w) && s.drainTasks == multiset{}
    requires Enabled(c, s, step) && LoneStep(s, step) && (step.move.Publish? || step.move.Queue?)
    requires Pending(Apply(c, s, step)) == Pending(s)
    ensures Alone(Apply(c, s, step), limit)
    ensures PassesLeft(s, limit) == PassesLeft(Apply(c, s, step), limit)
  {
    PassGoesOn(c, s, step, limit);
    PassesAt(s, limit, step.w);
    PassesAt(Apply(c, s, step), limit, step.w);
  }

  lemma {:induction false} PassesCount(c: Config, s: State, steps: seq<Step>, limit: nat)
    requires limit > 0 && Inv(c, s) && Alone(s, limit)
    requires Legal(c, s, steps) && LoneRun(c, s, steps)
    ensures PassesLeft(s, limit) == Claims(steps) + PassesLeft(Final(c, s, steps), limit)
    ensures Alone(Final(c, s, steps), limit)
    decreases |steps|
  {
    if steps != [] {
      if steps[0].move.Claim? {
        ClaimPass(c, s, steps[0], limit);
      } else {
        OtherPass(c, s, steps[0], limit);
      }
      StepKeepsInv(c, s, steps[0]);
      PassesCount(c, Apply(c, s, steps[0]), steps[1..], limit);
    }
  }

  lemma {:induction false} LoneRunsAreSteady(c: Config, s: State, steps: seq<Step>)
    requires Legal(c, s, steps) && LoneRun(c, s, steps)
    ensures forall i :: 0 <= i < |steps| ==> Steady(steps[i])
    decreases |steps|
  {
    if steps != [] {
      LoneRunsAreSteady(c, Apply(c, s, steps[0]), steps[1..]);
      assert steps == [steps[0]] + steps[1..];
    }
  }

  /**
    A lone drain of batch size `limit` on `n` claimable rows makes exactly `n / limit + 1` passes and
    claims exactly those rows, in (occurred_at, id) order.
  */
  lemma LoneDrainPasses(c: Config, s: State, steps: seq<Step>, limit: nat)
    requires limit > 0 && Inv(c, s)
    requires s.drainers == map[] && s.drainTasks == multiset{limit}
    requires Legal(c, s, steps) && LoneRun(c, s, steps)
    requires Final(c, s, steps).drainers == map[] && Final(c, s, steps).drainTasks == multiset{}
    ensures Claims(steps) == |Pending(s)| / limit + 1
    ensures Claimed(steps) == Pending(s)
  {
    PassesCount(c, s, steps, limit);
    LoneRunsAreSteady(c, s, steps);
    ConcurrentDrainsAreOnePass(c, s, steps);
  }
}
