/**
  The stored scores: one row per project, the fingerprint of the facts and the policy it was computed
  from.  Between two writes from outside the facts are a function of the project and the instant.
*/
module Scoring {
  import opened Prelude
  import opened Envelopes
  import opened Engine
  import opened Decimals

  /** The input hash and the policy version together. */
  type Fingerprint = nat

  /** What a pass over the facts finds; `rest` is what the stored document holds beyond the payload. */
  datatype Findings = Findings(
    hundredths: int,
    policyVersion: string,
    signals: seq<Signal>,
    modifiers: seq<Modifier>,
    flags: seq<string>,
    rest: Json)

  /** The breakdown and the rest of the document, as far as two computations are compared by them. */
  datatype Assessment = Assessment(breakdown: Breakdown, rest: Json)

  /** The facts as they stand and the active policy: the same fingerprint is assessed the same way. */
  datatype Criterion = Criterion(
    fingerprint: (string, Instant) -> Result<Fingerprint, string>,
    findings: Fingerprint -> Findings,
    origin: (string, Instant) -> string)
  {
    /** `compute_breakdown`: the value is clamped. */
    function Assess(f: Fingerprint): Assessment {
      var found := findings(f);
      Assessment(Breakdown(Clamped(found.hundredths), found.policyVersion, found.signals, found.modifiers, found.flags),
                 found.rest)
    }
  }

  type Table = map<string, Fingerprint>

  /** The value column of a project's row. */
  function StoredScore(m: Criterion, table: Table, project: string): Option<Decimal> {
    if project in table then Some(Stored(m.Assess(table[project]).breakdown.value)) else None
  }

  /** What `recompute_for_project` reports. */
  function Recomputed(m: Criterion, table: Table, project: string, at: Instant): Result<Recompute, string> {
    match m.fingerprint(project, at)
    case Err(message) => Err(message)
    case Ok(f) =>
      var found, previous := m.Assess(f).breakdown, StoredScore(m, table, project);
      var same := project in table && table[project] == f;
      var moved := project !in table || m.Assess(table[project]) != m.Assess(f);
      var value := if same then previous.value else found.value;
      Ok(Recompute(!same && moved, value, previous, found, m.origin(project, at)))
  }

  /** What it writes: nothing when the stored row has this fingerprint. */
  function Written(m: Criterion, table: Table, project: string, at: Instant): Table {
    match m.fingerprint(project, at)
    case Err(_) => map[]
    case Ok(f) => if project in table && table[project] == f then map[] else map[project := f]
  }

  /** What the facts say of a project at an instant. */
  function View(m: Criterion, project: string, at: Instant): Option<Assessment> {
    match m.fingerprint(project, at) case Ok(f) => Some(m.Assess(f)) case Err(_) => None
  }

  function ScoresOf(m: Criterion, table: Table): Scores {
    (project, at) => Recomputed(m, table, project, at)
  }

  /** What the transaction writes, project after project. */
  function Writes(m: Criterion, table: Table, affected: seq<Affected>): Table {
    if affected == [] then map[] else
      var last := affected[|affected| - 1];
      Writes(m, table, affected[..|affected| - 1]) + Written(m, table, last.project, last.at)
  }

  /** The stored row says so already. */
  predicate Known(m: Criterion, table: Table, project: string, at: Instant) {
    project in table && View(m, project, at) == Some(m.Assess(table[project]))
  }

  /** A recomputation is news exactly when the stored row does not say so already. */
  lemma ChangedExactlyWhen(m: Criterion, table: Table, project: string, at: Instant)
    ensures Recomputed(m, table, project, at).Ok? <==> View(m, project, at).Some?
    ensures Recomputed(m, table, project, at).Ok? ==>
              (Recomputed(m, table, project, at).value.changed <==> !Known(m, table, project, at))
  {
  }

  /** What is reported of the number: the one stored before, and the one stored after. */
  lemma ReportsTheStoredScores(m: Criterion, table: Table, project: string, at: Instant)
    requires Recomputed(m, table, project, at).Ok?
    ensures var r, after := Recomputed(m, table, project, at).value, table + Written(m, table, project, at);
            && r.previous == StoredScore(m, table, project) && (r.previous.None? <==> project !in table)
            && StoredScore(m, after, project) == Some(Stored(r.value))
            && InCents(r.value) == InCents(r.breakdown.value)
            && r.breakdown == View(m, project, at).value.breakdown && r.origin == m.origin(project, at)
            && (r.changed ==> r.value == r.breakdown.value)
  {
  }

  /** Under duplicate delivery the second arrival is no news and writes nothing. */
  lemma SecondRecomputeIsQuiet(m: Criterion, table: Table, project: string, at: Instant)
    requires View(m, project, at).Some?
    ensures var after := table + Written(m, table, project, at);
            && Known(m, after, project, at) && Written(m, after, project, at) == map[]
            && !Recomputed(m, after, project, at).value.changed
  {
  }

  /** The table, updated in place. */
  class PriorityScores {
    var rows: Table

    constructor ()
      ensures rows == map[]
    {
      rows := map[];
    }

    method RecomputeForProject(m: Criterion, project: string, now: Instant) returns (r: Result<Recompute, string>)
      modifies this
      ensures r == Recomputed(m, old(rows), project, now)
      ensures rows == old(rows) + Written(m, old(rows), project, now)
      ensures r.Ok? ==> Known(m, rows, project, now)
    {
      var collected := m.fingerprint(project, now);
      if collected.Err? {
        return Err(collected.error);
      }
      var f := collected.value;
      var found, origin := m.Assess(f), m.origin(project, now);
      var value := found.breakdown.value;
      if project !in rows {
        rows := rows[project := f];
        return Ok(Recompute(true, value, None, found.breakdown, origin));
      }
      var stored := m.Assess(rows[project]);
      var previous := Stored(stored.breakdown.value);
      if rows[project] == f {
        return Ok(Recompute(false, previous, Some(previous), found.breakdown, origin));
      }
      rows := rows[project := f];
      r := Ok(Recompute(stored != found, value, Some(previous), found.breakdown, origin));
    }
  }
}
