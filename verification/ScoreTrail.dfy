/**
  The audit trail beside the stored scores.  The engine records what it rescores; an operator's rebuild
  rescores without a record.  Facts and overrides may be other ones in every pass.
*/
module ScoreTrail {
  import opened Prelude
  import opened Catalog
  import opened Envelopes
  import opened Decimals
  import opened Activity
  import opened Engine
  import opened Scoring

  /** One transaction that rescores: the engine on an event, or one project of a rebuild. */
  datatype Pass =
    | Engine(env: Envelope, stale: Instant -> seq<string>, m: Criterion)
    | Rebuild(project: string, at: Instant, m: Criterion)

  datatype Books = Books(scores: Table, trail: seq<Record>)

  const NO_BOOKS: Books := Books(map[], [])

  /** What the fingerprints stand for is fixed; so is how instants are read. */
  datatype Setting = Setting(findings: Fingerprint -> Findings, iso: string -> IsoReading)

  ghost predicate InSetting(x: Setting, pass: Pass) {
    && pass.m.findings == x.findings
    && (pass.Engine? ==> forall at :: NoRepeats(pass.stale(at)))
  }

  /** The engine's transaction commits: the event names its projects, and none raises. */
  ghost predicate Succeeds(x: Setting, b: Books, pass: Pass)
    requires pass.Engine?
  {
    var affected := AffectedBy(pass.env, x.iso, pass.stale);
    affected.Ok? && AllScored(affected.value, ScoresOf(pass.m, b.scores))
  }

  /** A pass that raises leaves nothing behind. */
  ghost function After(x: Setting, b: Books, pass: Pass): Books {
    match pass
    case Rebuild(project, at, m) => b.(scores := b.scores + Written(m, b.scores, project, at))
    case Engine(env, stale, m) =>
      if !Succeeds(x, b, pass) then b else
        var affected := AffectedBy(env, x.iso, stale).value;
        Books(b.scores + Writes(m, b.scores, affected),
              b.trail + AnnouncementsOf(env, News(affected, ScoresOf(m, b.scores))).trail)
  }

  // --- A reader of the trail -------------------------------------------------------------------------

  /** What the records told so far say the score is; a record that does not follow on is not believed. */
  datatype Story = Untold | Told(cents: nat) | Broken

  predicate IsAbout(r: Record, project: string) {
    && r.entityKind == ENTITY_PROJECT && r.entityId == project
    && r.verb == VERB_PRIORITY_CHANGED && r.origin == ORIGIN_POLICY
  }

  function Tell(s: Story, r: Record): Story {
    if ReadCents(r.toValue).None? then Broken
    else if (s.Untold? && r.fromValue == "") || (s.Told? && ReadCents(r.fromValue) == Some(s.cents)) then
      Told(ReadCents(r.toValue).value)
    else Broken
  }

  function StoryOf(trail: seq<Record>, project: string): Story {
    if trail == [] then Untold else
      var before, last := StoryOf(trail[..|trail| - 1], project), trail[|trail| - 1];
      if IsAbout(last, project) then Tell(before, last) else before
  }

  function ScoreCents(x: Setting, scores: Table, project: string): Story {
    if project !in scores then Untold else Told(CentsOf(x, scores[project]))
  }

  /** The number a fingerprint is scored at. */
  function CentsOf(x: Setting, f: Fingerprint): nat {
    var count := x.findings(f).hundredths;
    if count < 0 then 0 else if count > 10000 then 10000 else count
  }

  /** The trail tells the stored score. */
  predicate Agree(x: Setting, b: Books, project: string) {
    StoryOf(b.trail, project) == ScoreCents(x, b.scores, project)
  }

  // --- One project in one pass -------------------------------------------------------------------------

  /** What a pass does for one project: nothing, or a recomputation that is stored and, if news, recorded. */
  function Change(m: Criterion, scores: Table, project: string, at: Instant): Option<Recompute> {
    match Recomputed(m, scores, project, at) case Ok(r) => (if r.changed then Some(r) else None) case Err(_) => None
  }

  lemma ScoreIsCents(x: Setting, m: Criterion, f: Fingerprint)
    requires m.findings == x.findings
    ensures InCents(m.Assess(f).breakdown.value) == CentsOf(x, f)
    ensures ReadCents(Shown(m.Assess(f).breakdown.value)) == Some(CentsOf(x, f))
    ensures Shown(Stored(m.Assess(f).breakdown.value)) != ""
    ensures ReadCents(Shown(Stored(m.Assess(f).breakdown.value))) == Some(CentsOf(x, f))
  {
    var value := m.Assess(f).breakdown.value;
    ClampedIsInScale(x.findings(f).hundredths);
    ShownReadsBack(value);
    ShownReadsBack(Stored(value));
  }

  /** A recomputation that is no news leaves the number where it was. */
  lemma NoNewsMovesNothing(x: Setting, m: Criterion, scores: Table, project: string, at: Instant)
    requires m.findings == x.findings && m.fingerprint(project, at).Ok?
    requires Change(m, scores, project, at).None?
    ensures ScoreCents(x, scores + Written(m, scores, project, at), project) == ScoreCents(x, scores, project)
  {
    ScoreIsCents(x, m, m.fingerprint(project, at).value);
    ScoreIsCents(x, m, scores[project]);
  }

  /** What is news ends at the score now stored and starts from the one stored before. */
  lemma NewsIsStored(x: Setting, m: Criterion, scores: Table, project: string, at: Instant)
    requires m.findings == x.findings && m.fingerprint(project, at).Ok?
    requires Change(m, scores, project, at).Some?
    ensures var r, f := Change(m, scores, project, at).value, m.fingerprint(project, at).value;
            && ReadCents(Shown(r.value)) == Some(CentsOf(x, f)) && (r.previous.None? <==> project !in scores)
            && (r.previous.Some? ==> Shown(r.previous.value) != ""
                                     && ReadCents(Shown(r.previous.value)) == Some(CentsOf(x, scores[project])))
            && ScoreCents(x, scores + Written(m, scores, project, at), project) == Told(CentsOf(x, f))
  {
    ScoreIsCents(x, m, m.fingerprint(project, at).value);
    if project in scores {
      ScoreIsCents(x, m, scores[project]);
    }
  }

  /** The record of one that is news follows on what was stored and ends at what is. */
  lemma NewsFollowsOn(x: Setting, m: Criterion, scores: Table, project: string, at: Instant, r: Record)
    requires m.findings == x.findings && m.fingerprint(project, at).Ok?
    requires Change(m, scores, project, at).Some?
    requires var news := Change(m, scores, project, at).value; TellsMove(r, news.previous, news.value)
    ensures Tell(ScoreCents(x, scores, project), r)
            == ScoreCents(x, scores + Written(m, scores, project, at), project)
  {
    NewsIsStored(x, m, scores, project, at);
    MoveIsTold(ScoreCents(x, scores, project), r, Change(m, scores, project, at).value);
  }

  lemma MoveIsTold(s: Story, r: Record, news: Recompute)
    requires TellsMove(r, news.previous, news.value) && ReadCents(Shown(news.value)).Some?
    requires if news.previous.None? then s.Untold?
             else s.Told? && ReadCents(Shown(news.previous.value)) == Some(s.cents)
    ensures Tell(s, r) == Told(ReadCents(Shown(news.value)).value)
  {
  }

  lemma {:induction false} WritesOnlyAffected(m: Criterion, scores: Table, affected: seq<Affected>, project: string)
    requires forall i :: 0 <= i < |affected| ==> affected[i].project != project
    ensures project !in Writes(m, scores, affected)
  {
    if affected != [] {
      WritesOnlyAffected(m, scores, affected[..|affected| - 1], project);
    }
  }

  /** The books once the engine has rescored the first projects of its selection. */
  function Rescored(b: Books, m: Criterion, env: Envelope, affected: seq<Affected>): Books {
    Books(b.scores + Writes(m, b.scores, affected),
          b.trail + AnnouncementsOf(env, News(affected, ScoresOf(m, b.scores))).trail)
  }

  lemma OneMoreWrite(m: Criterion, scores: Table, front: seq<Affected>, last: Affected)
    ensures Writes(m, scores, front + [last])
            == Writes(m, scores, front) + Written(m, scores, last.project, last.at)
  {
    assert (front + [last])[..|front|] == front;
  }

  lemma OneMorePieceOfNews(env: Envelope, scores: Scores, front: seq<Affected>, last: Affected)
    requires scores(last.project, last.at).Ok?
    ensures var r := scores(last.project, last.at).value;
            AnnouncementsOf(env, News(front + [last], scores)).trail
            == AnnouncementsOf(env, News(front, scores)).trail + if r.changed then [RecordOf(env, last, r)] else []
  {
    var affected := front + [last];
    assert affected[..|front|] == front && affected[..|front| + 1] == affected;
    OneMoreScore(env, affected, scores, |front|);
  }

  /** One project more. */
  lemma OneMoreRescored(b: Books, m: Criterion, env: Envelope, front: seq<Affected>, last: Affected)
    requires m.fingerprint(last.project, last.at).Ok?
    ensures var before, after := Rescored(b, m, env, front), Rescored(b, m, env, front + [last]);
            var change := Change(m, b.scores, last.project, last.at);
            && after.scores == before.scores + Written(m, b.scores, last.project, last.at)
            && after.trail == before.trail + if change.Some? then [RecordOf(env, last, change.value)] else []
  {
    var written := Written(m, b.scores, last.project, last.at);
    OneMoreWrite(m, b.scores, front, last);
    UpdatesRegroup(b.scores, Writes(m, b.scores, front), written);
    OneMorePieceOfNews(env, ScoresOf(m, b.scores), front, last);
    var change := Change(m, b.scores, last.project, last.at);
    var more := if change.Some? then [RecordOf(env, last, change.value)] else [];
    Regroup(b.trail, AnnouncementsOf(env, News(front, ScoresOf(m, b.scores))).trail, more);
  }

  lemma UpdatesRegroup(a: Table, b: Table, c: Table)
    ensures a + (b + c) == (a + b) + c
  {
  }

  lemma OneMoreTold(trail: seq<Record>, r: Record, project: string)
    ensures StoryOf(trail + [r], project)
            == if IsAbout(r, project) then Tell(StoryOf(trail, project), r) else StoryOf(trail, project)
  {
    assert (trail + [r])[..|trail + [r]| - 1] == trail;
  }

  lemma OtherProjectRescored(x: Setting, b: Books, m: Criterion, env: Envelope, front: seq<Affected>, last: Affected,
                             project: string)
    requires last.project != project && m.fingerprint(last.project, last.at).Ok?
    requires Agree(x, Rescored(b, m, env, front), project)
    ensures Agree(x, Rescored(b, m, env, front + [last]), project)
  {
    OneMoreRescored(b, m, env, front, last);
    var change := Change(m, b.scores, last.project, last.at);
    if change.Some? {
      OneMoreTold(Rescored(b, m, env, front).trail, RecordOf(env, last, change.value), project);
    }
  }

  /** What is stored for a project is not touched while others are rescored. */
  lemma NotYetRescored(x: Setting, b: Books, m: Criterion, env: Envelope, front: seq<Affected>, last: Affected)
    requires forall i :: 0 <= i < |front| ==> front[i].project != last.project
    ensures var before, written := Rescored(b, m, env, front).scores, Written(m, b.scores, last.project, last.at);
            && ScoreCents(x, before, last.project) == ScoreCents(x, b.scores, last.project)
            && ScoreCents(x, before + written, last.project) == ScoreCents(x, b.scores + written, last.project)
  {
    WritesOnlyAffected(m, b.scores, front, last.project);
  }

  lemma ProjectRescored(x: Setting, b: Books, m: Criterion, env: Envelope, front: seq<Affected>, last: Affected)
    requires m.findings == x.findings && m.fingerprint(last.project, last.at).Ok?
    requires forall i :: 0 <= i < |front| ==> front[i].project != last.project
    requires Agree(x, Rescored(b, m, env, front), last.project)
    ensures Agree(x, Rescored(b, m, env, front + [last]), last.project)
  {
    OneMoreRescored(b, m, env, front, last);
    NotYetRescored(x, b, m, env, front, last);
    var change := Change(m, b.scores, last.project, last.at);
    if change.Some? {
      var r := RecordOf(env, last, change.value);
      PairAnnounces(env, last, change.value);
      OneMoreTold(Rescored(b, m, env, front).trail, r, last.project);
      NewsFollowsOn(x, m, b.scores, last.project, last.at, r);
    } else {
      NoNewsMovesNothing(x, m, b.scores, last.project, last.at);
    }
  }

  /** The engine's pass keeps the trail telling every score. */
  lemma {:induction false} RescoringAgrees(x: Setting, b: Books, m: Criterion, env: Envelope,
                                           affected: seq<Affected>, project: string)
    requires m.findings == x.findings && AllScored(affected, ScoresOf(m, b.scores)) && Agree(x, b, project)
    requires forall i, j :: 0 <= i < j < |affected| ==> affected[i].project != affected[j].project
    ensures Agree(x, Rescored(b, m, env, affected), project)
  {
    if affected == [] {
      NothingRescored(b, m, env);
    } else {
      var front, last := affected[..|affected| - 1], affected[|affected| - 1];
      assert affected == front + [last];
      RescoringAgrees(x, b, m, env, front, project);
      assert Announceable(ScoresOf(m, b.scores)(last.project, last.at));
      if last.project == project {
        ProjectRescored(x, b, m, env, front, last);
      } else {
        OtherProjectRescored(x, b, m, env, front, last, project);
      }
    }
  }

  // --- Runs --------------------------------------------------------------------------------------------

  /** A rebuild scores the project at another number than the stored one, or for the first time. */
  predicate MovesSilently(x: Setting, b: Books, pass: Pass, project: string) {
    && pass.Rebuild? && pass.project == project
    && var f := pass.m.fingerprint(project, pass.at);
       f.Ok? && (project in b.scores ==> CentsOf(x, b.scores[project]) != CentsOf(x, f.value))
  }

  lemma EngineKeepsAgreement(x: Setting, b: Books, pass: Pass, project: string)
    requires InSetting(x, pass) && pass.Engine? && Agree(x, b, project)
    ensures Agree(x, After(x, b, pass), project)
  {
    if Succeeds(x, b, pass) {
      RescoringAgrees(x, b, pass.m, pass.env, AffectedBy(pass.env, x.iso, pass.stale).value, project);
    }
  }

  /** A pass leaves the trail telling the project's score exactly when it is no rebuild that moves it. */
  lemma ToldExactlyWhen(x: Setting, b: Books, pass: Pass, project: string)
    requires InSetting(x, pass) && Agree(x, b, project)
    ensures Agree(x, After(x, b, pass), project) <==> !MovesSilently(x, b, pass, project)
  {
    if pass.Engine? {
      EngineKeepsAgreement(x, b, pass, project);
    }
  }

  ghost function AfterAll(x: Setting, b: Books, passes: seq<Pass>): Books {
    if passes == [] then b else After(x, AfterAll(x, b, passes[..|passes| - 1]), passes[|passes| - 1])
  }

  /** No rebuild of the run moves the project's score. */
  ghost predicate NeverSilent(x: Setting, passes: seq<Pass>, project: string) {
    forall n :: 0 <= n < |passes| ==>
      InSetting(x, passes[n]) && !MovesSilently(x, AfterAll(x, NO_BOOKS, passes[..n]), passes[n], project)
  }

  /**
    Whatever events the engine is run on and however the facts change between them, a project's records read
    one after the other lead from nothing to its stored score, as long as no rebuild moves it.
  */
  lemma {:induction false} TrailTellsTheScore(x: Setting, passes: seq<Pass>, project: string)
    requires NeverSilent(x, passes, project)
    ensures Agree(x, AfterAll(x, NO_BOOKS, passes), project)
  {
    if passes != [] {
      var front := passes[..|passes| - 1];
      assert forall n :: 0 <= n < |front| ==> passes[..n] == front[..n];
      TrailTellsTheScore(x, front, project);
      ToldExactlyWhen(x, AfterAll(x, NO_BOOKS, front), passes[|passes| - 1], project);
    }
  }

  // --- The records by their text -----------------------------------------------------------------------

  /** The record ends at a score as it was computed, and starts from one as it was stored or from none. */
  predicate ShownInFull(r: Record) {
    && (exists count :: 0 <= count <= 10000 && r.toValue == Shown(Clamped(count)))
    && (r.fromValue == "" || exists count :: 0 <= count <= 10000 && r.fromValue == Shown(Hundredths(count)))
  }

  lemma MoveIsShownInFull(m: Criterion, scores: Table, project: string, at: Instant, r: Record)
    requires Change(m, scores, project, at).Some?
    requires var news := Change(m, scores, project, at).value; TellsMove(r, news.previous, news.value)
    ensures ShownInFull(r)
  {
    var count := m.findings(m.fingerprint(project, at).value).hundredths;
    ClampedIsInScale(count);
    assert Clamped(count) == Clamped(InCents(Clamped(count)));
    if project in scores {
      ClampedIsInScale(m.findings(scores[project]).hundredths);
    }
  }

  lemma EngineShowsInFull(x: Setting, b: Books, pass: Pass)
    requires pass.Engine? && Succeeds(x, b, pass)
    requires forall r :: r in b.trail ==> ShownInFull(r)
    ensures forall r :: r in After(x, b, pass).trail ==> ShownInFull(r)
  {
    var scores, affected := ScoresOf(pass.m, b.scores), AffectedBy(pass.env, x.iso, pass.stale).value;
    var news := News(affected, scores);
    NewsNamesAffected(affected, scores);
    EachIsAnnounced(pass.env, news);
    forall i | 0 <= i < |news| ensures ShownInFull(AnnouncementsOf(pass.env, news).trail[i]) {
      assert news[i] in news;
      MoveIsShownInFull(pass.m, b.scores, news[i].0.project, news[i].0.at, AnnouncementsOf(pass.env, news).trail[i]);
    }
  }

  lemma {:induction false} RecordsAreShownInFull(x: Setting, passes: seq<Pass>)
    ensures forall r :: r in AfterAll(x, NO_BOOKS, passes).trail ==> ShownInFull(r)
  {
    if passes != [] {
      var b, last := AfterAll(x, NO_BOOKS, passes[..|passes| - 1]), passes[|passes| - 1];
      RecordsAreShownInFull(x, passes[..|passes| - 1]);
      if last.Engine? && Succeeds(x, b, last) {
        EngineShowsInFull(x, b, last);
      }
    }
  }

  /** The project's last record before `n`. */
  ghost predicate LastBefore(trail: seq<Record>, project: string, i: int, n: int) {
    && 0 <= i < n <= |trail| && IsAbout(trail[i], project)
    && forall k :: i < k < n ==> !IsAbout(trail[k], project)
  }

  /** A story that is told has ended where the last record does. */
  lemma {:induction false} StoryEndsAtTheLast(trail: seq<Record>, project: string, i: int)
    requires LastBefore(trail, project, i, |trail|) && !StoryOf(trail, project).Broken?
    ensures StoryOf(trail, project).Told? && ReadCents(trail[i].toValue) == Some(StoryOf(trail, project).cents)
  {
    if i < |trail| - 1 {
      StoryEndsAtTheLast(trail[..|trail| - 1], project, i);
    }
  }

  lemma {:induction false} StoryStaysBroken(trail: seq<Record>, project: string, n: nat)
    requires n <= |trail| && !StoryOf(trail, project).Broken?
    ensures !StoryOf(trail[..n], project).Broken?
  {
    if n < |trail| {
      assert trail[..|trail| - 1][..n] == trail[..n];
      StoryStaysBroken(trail[..|trail| - 1], project, n);
    } else {
      assert trail[..n] == trail;
    }
  }

  /** In a told story each record starts from the number the one before it ended at. */
  lemma RecordsFollowOn(trail: seq<Record>, project: string, i: int, j: int)
    requires !StoryOf(trail, project).Broken?
    requires j < |trail| && LastBefore(trail, project, i, j) && IsAbout(trail[j], project)
    ensures ReadCents(trail[j].fromValue).Some? && ReadCents(trail[j].fromValue) == ReadCents(trail[i].toValue)
  {
    StoryStaysBroken(trail, project, j + 1);
    StoryStaysBroken(trail, project, j);
    assert trail[..j + 1][..j] == trail[..j];
    StoryEndsAtTheLast(trail[..j], project, i);
  }

  /**
    Each record about a project starts from the score its last record ended at.  As text the two are the
    same exactly when the score lies strictly between the bounds: a bound is recorded as "0" or "100" and
    read back as "0.00" or "100.00".
  */
  lemma RecordsChain(x: Setting, passes: seq<Pass>, project: string, i: int, j: int)
    requires NeverSilent(x, passes, project)
    requires var trail := AfterAll(x, NO_BOOKS, passes).trail;
             j < |trail| && LastBefore(trail, project, i, j) && IsAbout(trail[j], project)
    ensures var trail := AfterAll(x, NO_BOOKS, passes).trail;
            var cents := ReadCents(trail[i].toValue);
            && cents.Some? && ReadCents(trail[j].fromValue) == cents
            && (trail[j].fromValue == trail[i].toValue <==> 0 < cents.value < 10000)
  {
    var trail := AfterAll(x, NO_BOOKS, passes).trail;
    TrailTellsTheScore(x, passes, project);
    RecordsFollowOn(trail, project, i, j);
    RecordsAreShownInFull(x, passes);
    assert trail[i] in trail && trail[j] in trail;
    TextsAgreeExactlyWhen(trail[i], trail[j]);
  }

  lemma TextsAgreeExactlyWhen(r: Record, next: Record)
    requires ShownInFull(r) && ShownInFull(next)
    requires ReadCents(next.fromValue).Some? && ReadCents(next.fromValue) == ReadCents(r.toValue)
    ensures next.fromValue == r.toValue <==> 0 < ReadCents(r.toValue).value < 10000
  {
    var count :| 0 <= count <= 10000 && r.toValue == Shown(Clamped(count));
    ClampedIsInScale(count);
    ShownReadsBack(Clamped(count));
    var from :| 0 <= from <= 10000 && next.fromValue == Shown(Hundredths(from));
    ShownReadsBack(Hundredths(from));
    StoredShownExactlyWhen(count);
  }

  // --- Two runs that show it ---------------------------------------------------------------------------

  const PROJECT := "PRJ-01"

  /** Two states of the facts, scored zero and fifty. */
  function ZeroAndFifty(): Setting {
    Setting((f: Fingerprint) => Findings(if f == 0 then 0 else 5000, "", [], [], [], JNull), (text: string) => NotIso)
  }

  function FactsSay(f: Fingerprint): Criterion {
    Criterion((project: string, at: Instant) => Ok(f), ZeroAndFifty().findings,
              (project: string, at: Instant) => ORIGIN_POLICY)
  }

  function NoteOn(id: EventId): Envelope {
    Envelope(id, TOPIC_NOTE_ADDED, 0, "", id, EntityRef(ENTITY_PROJECT, PROJECT), map[], 1)
  }

  function NoteWhen(f: Fingerprint): Pass {
    Engine(NoteOn(f), (at: Instant) => [], FactsSay(f))
  }

  lemma NoteIsNews(scores: Table, f: Fingerprint)
    requires f <= 1 && (PROJECT in scores ==> scores[PROJECT] == 1 - f)
    ensures Announceable(Recomputed(FactsSay(f), scores, PROJECT, 0))
    ensures Recomputed(FactsSay(f), scores, PROJECT, 0).value.changed
    ensures scores + Written(FactsSay(f), scores, PROJECT, 0) == scores[PROJECT := f]
  {
    ClampedIsInScale(FactsSay(f).findings(f).hundredths);
    ClampedIsInScale(FactsSay(f).findings(1 - f).hundredths);
    assert FactsSay(f).Assess(f).breakdown.value != FactsSay(f).Assess(1 - f).breakdown.value;
  }

  lemma NoteAffects(f: Fingerprint)
    ensures AffectedBy(NoteOn(f), ZeroAndFifty().iso, NoteWhen(f).stale) == Ok([Affected(PROJECT, 0)])
  {
  }

  /** The engine on a note, when the project is not scored as the facts say. */
  lemma NoteIsRecorded(b: Books, f: Fingerprint)
    requires f <= 1 && (PROJECT in b.scores ==> b.scores[PROJECT] == 1 - f)
    ensures var r := Recomputed(FactsSay(f), b.scores, PROJECT, 0);
            && r.Ok? && After(ZeroAndFifty(), b, NoteWhen(f))
                        == Books(b.scores[PROJECT := f],
                                 b.trail + [RecordOf(NoteOn(f), Affected(PROJECT, 0), r.value)])
  {
    var m, only, pass := FactsSay(f), Affected(PROJECT, 0), NoteWhen(f);
    NoteIsNews(b.scores, f);
    NoteAffects(f);
    assert Succeeds(ZeroAndFifty(), b, pass);
    assert After(ZeroAndFifty(), b, pass) == Rescored(b, m, NoteOn(f), [only]);
    OneMoreRescored(b, m, NoteOn(f), [], only);
    NothingRescored(b, m, NoteOn(f));
    assert [] + [only] == [only];
  }

  lemma NothingRescored(b: Books, m: Criterion, env: Envelope)
    ensures Rescored(b, m, env, []) == b
  {
  }

  lemma TwoPasses(x: Setting, first: Pass, second: Pass)
    ensures AfterAll(x, NO_BOOKS, [first, second]) == After(x, After(x, NO_BOOKS, first), second)
  {
    var passes := [first, second];
    assert passes[..1] == [first] && [first][..0] == [];
    assert AfterAll(x, NO_BOOKS, [first]) == After(x, NO_BOOKS, first);
  }

  /** How the record of a note reads. */
  lemma NoteReads(scores: Table, f: Fingerprint)
    requires f <= 1 && (PROJECT in scores ==> scores[PROJECT] == 1 - f)
    ensures Recomputed(FactsSay(f), scores, PROJECT, 0).Ok?
    ensures var r := RecordOf(NoteOn(f), Affected(PROJECT, 0), Recomputed(FactsSay(f), scores, PROJECT, 0).value);
            && r.toValue == Shown(Clamped(if f == 0 then 0 else 5000))
            && r.fromValue == if PROJECT in scores then Shown(Stored(Clamped(if f == 0 then 5000 else 0))) else ""
  {
    NoteIsNews(scores, f);
    PairAnnounces(NoteOn(f), Affected(PROJECT, 0), Recomputed(FactsSay(f), scores, PROJECT, 0).value);
  }

  /** A score of zero is recorded as "0" and the next record reads from "0.00". */
  lemma BoundsDoNotJoin()
    ensures var trail := AfterAll(ZeroAndFifty(), NO_BOOKS, [NoteWhen(0), NoteWhen(1)]).trail;
            |trail| == 2 && trail[0].toValue == "0" && trail[1].fromValue == "0.00" && trail[1].toValue == "50.00"
  {
    TwoPasses(ZeroAndFifty(), NoteWhen(0), NoteWhen(1));
    NoteIsRecorded(NO_BOOKS, 0);
    NoteIsRecorded(After(ZeroAndFifty(), NO_BOOKS, NoteWhen(0)), 1);
    NoteReads(map[], 0);
    NoteReads(map[PROJECT := 0], 1);
    ShownScores();
  }

  /** A rebuild leaves a score the trail does not tell. */
  lemma RebuildIsUntold()
    ensures var b := After(ZeroAndFifty(), NO_BOOKS, Rebuild(PROJECT, 0, FactsSay(1)));
            && PROJECT in b.scores && b.trail == [] && !Agree(ZeroAndFifty(), b, PROJECT)
  {
  }
}
