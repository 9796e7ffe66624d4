/** One outbox row and the four ways its delivery bookkeeping changes. */
module Outbox {
  import opened Prelude
  import opened Envelopes

  const ERROR_COLUMN_LIMIT: nat := 500

  datatype Row = Row(
    env: Envelope,
    publishedAt: Option<Instant>,
    deadLetteredAt: Option<Instant>,
    attempts: int,
    lastError: string)

  function NewRow(env: Envelope): Row {
    Row(env, None, None, 0, "")
  }

  function Truncated(error: string): string {
    if |error| <= ERROR_COLUMN_LIMIT then error else error[..ERROR_COLUMN_LIMIT]
  }

  function Published(row: Row, at: Instant): Row {
    row.(publishedAt := Some(at))
  }

  function FailureRecorded(row: Row, error: string, attempt: int): Row {
    row.(attempts := attempt, lastError := Truncated(error))
  }

  function DeadLettered(row: Row, error: string, attempt: int, at: Instant): Row {
    row.(attempts := attempt, lastError := Truncated(error), deadLetteredAt := Some(at))
  }

  function Requeued(row: Row): Row {
    row.(publishedAt := None, deadLetteredAt := None, attempts := 0, lastError := "")
  }

  /** The row shows the attempt that failed and as much of its error as the column holds. */
  predicate Shows(row: Row, error: string, attempt: int) {
    && row.attempts == attempt && row.lastError <= error
    && |row.lastError| == if |error| < ERROR_COLUMN_LIMIT then |error| else ERROR_COLUMN_LIMIT
  }

  /** Saving a failure touches only the three columns about failures, the dead letter's only when there is one. */
  predicate SavesFailure(was: Row, row: Row, error: string, attempt: int, deadAt: Option<Instant>) {
    && Shows(row, error, attempt) && row.env == was.env && row.publishedAt == was.publishedAt
    && row.deadLetteredAt == if deadAt.Some? then deadAt else was.deadLetteredAt
  }

  /** The stored row, updated in place. */
  class OutboxEvent {
    const env: Envelope
    var publishedAt: Option<Instant>
    var deadLetteredAt: Option<Instant>
    var attempts: int
    var lastError: string

    function Value(): Row
      reads this
    {
      Row(env, publishedAt, deadLetteredAt, attempts, lastError)
    }

    constructor (env: Envelope)
      ensures Value() == NewRow(env) == Row(env, None, None, 0, "")
    {
      this.env := env;
      publishedAt := None;
      deadLetteredAt := None;
      attempts := 0;
      lastError := "";
    }

    method MarkPublished(at: Instant)
      modifies this`publishedAt
      ensures Value() == Published(old(Value()), at) == old(Value()).(publishedAt := Some(at))
    {
      publishedAt := Some(at);
    }

    method RecordFailure(error: string, attempt: int)
      modifies this`attempts, this`lastError
      ensures Value() == FailureRecorded(old(Value()), error, attempt)
      ensures SavesFailure(old(Value()), Value(), error, attempt, None)
    {
      attempts := attempt;
      lastError := Truncated(error);
    }

    method MarkDeadLettered(error: string, attempt: int, now: Instant)
      modifies this`attempts, this`lastError, this`deadLetteredAt
      ensures Value() == DeadLettered(old(Value()), error, attempt, now)
      ensures SavesFailure(old(Value()), Value(), error, attempt, Some(now))
    {
      attempts := attempt;
      lastError := Truncated(error);
      deadLetteredAt := Some(now);
    }

    method Requeue()
      modifies this
      ensures Value() == Requeued(old(Value())) == NewRow(env)
    {
      publishedAt := None;
      deadLetteredAt := None;
      attempts := 0;
      lastError := "";
    }
  }

  /** Which of the rows are dead-lettered. */
  function DeadAmong(rows: seq<Row>): set<nat> {
    set i: nat | i < |rows| && rows[i].deadLetteredAt.Some?
  }

  lemma OneMoreRow(rows: seq<Row>, k: nat)
    requires k < |rows|
    ensures DeadAmong(rows[..k + 1]) == DeadAmong(rows[..k]) + if rows[k].deadLetteredAt.Some? then {k} else {}
    ensures |DeadAmong(rows[..k + 1])| == |DeadAmong(rows[..k])| + if rows[k].deadLetteredAt.Some? then 1 else 0
  {
    var before, after := DeadAmong(rows[..k]), DeadAmong(rows[..k + 1]);
    assert after == before + if rows[k].deadLetteredAt.Some? then {k} else {};
    assert k !in before;
  }

  function PutBack(row: Row): Row {
    if row.deadLetteredAt.Some? then Requeued(row) else row
  }

  function Values(selection: seq<OutboxEvent>): seq<Row>
    reads selection
  {
    seq(|selection|, i requires 0 <= i < |selection| reads selection => selection[i].Value())
  }

  /** The admin action: exactly the dead-lettered rows of the selection are put back, and counted. */
  method RequeueDeadLettered(selection: seq<OutboxEvent>) returns (requeued: nat)
    requires forall i, j :: 0 <= i < j < |selection| ==> selection[i] != selection[j]
    modifies selection
    ensures forall i :: 0 <= i < |selection| ==>
                          var was := old(Values(selection))[i];
                          selection[i].Value()
                          == if was.deadLetteredAt.Some? then Row(was.env, None, None, 0, "") else was
    ensures requeued == |DeadAmong(old(Values(selection)))|
  {
    requeued := 0;
    ghost var before := Values(selection);
    for k := 0 to |selection|
      invariant forall i :: k <= i < |selection| ==> selection[i].Value() == before[i]
      invariant forall i :: 0 <= i < k ==> selection[i].Value() == PutBack(before[i])
      invariant requeued == |DeadAmong(before[..k])|
    {
      OneMoreRow(before, k);
      assert selection[k].Value() == before[k];
      if selection[k].deadLetteredAt.Some? {
        selection[k].Requeue();
        requeued := requeued + 1;
      }
    }
    assert before[..|selection|] == before;
  }
}
