/** The three columns of a row are its history: what they show is what the run did to it last. */
module BusBookkeeping {
  import opened Prelude
  import opened Envelopes
  import opened Outbox
  import opened Protocol
  import opened BusInvariants

  /** A failed attempt. */
  datatype Failure = Failure(error: string, attempt: nat)

  /** When the row was published and dead-lettered, and its last failure, since it was last put back. */
  datatype Account = Account(publishedAt: Option<Instant>, deadAt: Option<Instant>, failure: Option<Failure>)

  const BLANK: Account := Account(None, None, None)

  /** The step saves a failure of the row. */
  predicate Fails(s: State, step: Step, e: EventId) {
    && step.Deliver? && step.act.Record? && step.w in s.jobs
    && s.jobs[step.w].delivery.pair.event == e
  }

  predicate Publishes(s: State, step: Step, e: EventId) {
    && step.Drain? && step.move.Publish? && step.w in s.drainers && s.drainers[step.w].Claiming?
    && e in s.drainers[step.w].batch
  }

  /** What one step adds to a row's account. */
  function Booked(c: Config, s: State, step: Step, e: EventId, a: Account): Account {
    if Publishes(s, step, e) then a.(publishedAt := Some(step.move.at))
    else if Fails(s, step, e) then
      var n := s.jobs[step.w].delivery.attempt;
      Account(a.publishedAt, if n >= c.maxAttempts then Some(step.act.now) else a.deadAt,
              Some(Failure(step.act.error, n)))
    else if step == Step.Requeue(e) then BLANK
    else a
  }

  /** The account after a run. */
  ghost function AccountOf(c: Config, s: State, steps: seq<Step>, e: EventId, a: Account): Account
    requires Legal(c, s, steps)
    decreases |steps|
  {
    if steps == [] then a
    else AccountOf(c, Apply(c, s, steps[0]), steps[1..], e, Booked(c, s, steps[0], e, a))
  }

  /** The row shows exactly the account: a row that has not failed shows no attempt and no error. */
  predicate ShowsAccount(row: Row, a: Account) {
    && row.publishedAt == a.publishedAt && row.deadLetteredAt == a.deadAt
    && match a.failure
       case None => row.attempts == 0 && row.lastError == ""
       case Some(f) => Shows(row, f.error, f.attempt)
  }

  /** A row not yet written has a blank account. */
  predicate KeepsBooks(s: State, e: EventId, a: Account) {
    if e in s.rows then ShowsAccount(s.rows[e], a) else a == BLANK
  }

  lemma JobKeepsBooks(c: Config, s: State, w: Worker, act: JobMove, e: EventId, a: Account)
    requires JobEnabled(c, s, w, act) && KeepsBooks(s, e, a)
    ensures KeepsBooks(JobApply(c, s, w, act), e, Booked(c, s, Deliver(w, act), e, a))
  {
    if act.Commit? {
      SealedRows(s.jobs[w].phase.out.drafts, act.ids);
    } else if !act.Record? {
      JobWrites(c, s, w, act);
    }
  }

  lemma DrainKeepsBooks(c: Config, s: State, w: Worker, move: DrainMove, e: EventId, a: Account)
    requires DrainEnabled(c, s, w, move) && KeepsBooks(s, e, a)
    ensures KeepsBooks(DrainApply(c, s, w, move), e, Booked(c, s, Drain(w, move), e, a))
  {
  }

  lemma StepKeepsBooks(c: Config, s: State, step: Step, e: EventId, a: Account)
    requires Enabled(c, s, step) && KeepsBooks(s, e, a)
    ensures KeepsBooks(Apply(c, s, step), e, Booked(c, s, step, e, a))
  {
    match step
    case Deliver(w, act) => JobKeepsBooks(c, s, w, act, e, a);
    case Drain(w, move) => DrainKeepsBooks(c, s, w, move, e, a);
    case _ =>
  }

  lemma {:induction false} RunKeepsBooks(c: Config, s: State, steps: seq<Step>, e: EventId, a: Account)
    requires Legal(c, s, steps) && KeepsBooks(s, e, a)
    ensures KeepsBooks(Final(c, s, steps), e, AccountOf(c, s, steps, e, a))
    decreases |steps|
  {
    if steps != [] {
      StepKeepsBooks(c, s, steps[0], e, a);
      RunKeepsBooks(c, Apply(c, s, steps[0]), steps[1..], e, Booked(c, s, steps[0], e, a));
    }
  }

  /** After any run every row shows exactly what the run did to it since it was last put back. */
  lemma RowsShowTheirHistory(c: Config, steps: seq<Step>, e: EventId)
    requires Legal(c, EMPTY, steps) && e in Final(c, EMPTY, steps).rows
    ensures ShowsAccount(Final(c, EMPTY, steps).rows[e], AccountOf(c, EMPTY, steps, e, BLANK))
  {
    RunKeepsBooks(c, EMPTY, steps, e, BLANK);
  }

  // --- The last failure ------------------------------------------------------------------------------

  /** No step of the run saves a failure of the row or puts it back. */
  ghost predicate LeftAlone(c: Config, s: State, steps: seq<Step>, e: EventId)
    requires Legal(c, s, steps)
    decreases |steps|
  {
    steps == []
    || (!Fails(s, steps[0], e) && steps[0] != Step.Requeue(e)
        && LeftAlone(c, Apply(c, s, steps[0]), steps[1..], e))
  }

  /** The row shows this failure, and the dead letter it led to. */
  predicate Stands(s: State, e: EventId, error: string, attempt: int, deadAt: Option<Instant>) {
    && e in s.rows && Shows(s.rows[e], error, attempt)
    && (deadAt.Some? ==> s.rows[e].deadLetteredAt == deadAt)
  }

  lemma FailureIsShown(c: Config, s: State, w: Worker, error: string, now: Instant)
    requires JobEnabled(c, s, w, Record(error, now))
    ensures var d := s.jobs[w].delivery;
            var deadAt := if d.attempt >= c.maxAttempts then Some(now) else None;
            && Stands(JobApply(c, s, w, Record(error, now)), d.pair.event, error, d.attempt, deadAt)
  {
  }

  lemma FailureStays(c: Config, s: State, step: Step, e: EventId, error: string, attempt: int, deadAt: Option<Instant>)
    requires Enabled(c, s, step) && Stands(s, e, error, attempt, deadAt)
    requires !Fails(s, step, e) && step != Step.Requeue(e)
    ensures Stands(Apply(c, s, step), e, error, attempt, deadAt)
  {
    if step.Deliver? {
      JobKeepsFailures(c, s, step.w, step.act, e);
    } else if step.Drain? {
      DrainKeepsFailures(c, s, step.w, step.move, e);
    } else {
    }
  }

  /** The columns about failures. */
  predicate SameFailure(s: State, t: State, e: EventId) {
    e in s.rows ==>
      && e in t.rows && t.rows[e].attempts == s.rows[e].attempts && t.rows[e].lastError == s.rows[e].lastError
      && t.rows[e].deadLetteredAt == s.rows[e].deadLetteredAt
  }

  lemma JobKeepsFailures(c: Config, s: State, w: Worker, act: JobMove, e: EventId)
    requires JobEnabled(c, s, w, act) && !Fails(s, Deliver(w, act), e)
    ensures SameFailure(s, JobApply(c, s, w, act), e)
  {
    if act.Commit? {
      SealedRows(s.jobs[w].phase.out.drafts, act.ids);
    } else if !act.Record? {
      JobWrites(c, s, w, act);
    }
  }

  lemma DrainKeepsFailures(c: Config, s: State, w: Worker, move: DrainMove, e: EventId)
    requires DrainEnabled(c, s, w, move)
    ensures SameFailure(s, DrainApply(c, s, w, move), e)
  {
  }

  lemma {:induction false} FailureStands(c: Config, s: State, steps: seq<Step>, e: EventId, error: string,
                                         attempt: int, deadAt: Option<Instant>)
    requires Legal(c, s, steps) && LeftAlone(c, s, steps, e) && Stands(s, e, error, attempt, deadAt)
    ensures Stands(Final(c, s, steps), e, error, attempt, deadAt)
    decreases |steps|
  {
    if steps != [] {
      FailureStays(c, s, steps[0], e, error, attempt, deadAt);
      FailureStands(c, Apply(c, s, steps[0]), steps[1..], e, error, attempt, deadAt);
    }
  }

  /**
    Until the next failure or re-queue of its row, and whatever else happens meanwhile, a saved failure is
    what the row shows: the attempt, the error as far as the column holds it, and the dead letter if the
    budget was spent.
  */
  lemma LastFailureIsShown(c: Config, s: State, w: Worker, error: string, now: Instant, rest: seq<Step>)
    requires Enabled(c, s, Deliver(w, Record(error, now)))
    requires var t := Apply(c, s, Deliver(w, Record(error, now)));
             Legal(c, t, rest) && LeftAlone(c, t, rest, s.jobs[w].delivery.pair.event)
    ensures var d := s.jobs[w].delivery;
            var deadAt := if d.attempt >= c.maxAttempts then Some(now) else None;
            Stands(Final(c, Apply(c, s, Deliver(w, Record(error, now))), rest), d.pair.event, error, d.attempt, deadAt)
  {
    var d := s.jobs[w].delivery;
    var deadAt := if d.attempt >= c.maxAttempts then Some(now) else None;
    FailureIsShown(c, s, w, error, now);
    FailureStands(c, Apply(c, s, Deliver(w, Record(error, now))), rest, d.pair.event, error, d.attempt, deadAt);
  }
}
