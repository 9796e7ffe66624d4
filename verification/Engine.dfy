/**
  The one handler that emits: rescoring the projects an event affects, and announcing those that
  moved.  What a recomputation answers per project and instant is a parameter here; `Scoring` says how
  `recompute_for_project` answers from the stored scores.
*/
module Engine {
  import opened Prelude
  import opened Catalog
  import opened Envelopes
  import opened Activity
  import opened Decimals

  const VERB_PRIORITY_CHANGED := "PRIORITY_CHANGED"
  const ORIGIN_POLICY := "POLICY"
  const TRIGGER_KEY := "trigger_event_id"

  datatype Signal = Signal(code: string, caption: string, raw: real, weight: real, contribution: real, reason: string)

  datatype Modifier = Modifier(code: string, factor: real)

  datatype Breakdown = Breakdown(
    value: Decimal,
    policyVersion: string,
    signals: seq<Signal>,
    modifiers: seq<Modifier>,
    flags: seq<string>)

  /** What the recomputation reports: did anything move, from what to what, and why. */
  datatype Recompute = Recompute(
    changed: bool,
    value: Decimal,
    previous: Option<Decimal>,
    breakdown: Breakdown,
    origin: string)

  datatype HandlerError = Unroutable(reason: RoutingError) | Raised(message: string)

  /** An event handed to the outbox, before an id is drawn for it. */
  datatype Draft = Draft(
    topic: Topic,
    occurredAt: Instant,
    actor: string,
    correlationId: Option<EventId>,
    entity: EntityRef,
    payload: map<string, Json>,
    version: nat)

  /** `enqueue_event` builds the envelope; an event that starts a decision correlates with itself. */
  function Seal(d: Draft, id: EventId): Envelope {
    Envelope(id, d.topic, d.occurredAt, d.actor,
             match d.correlationId case Some(c) => c case None => id,
             d.entity, d.payload, d.version)
  }

  /** The envelope says what the draft says, under its own id, and correlates as told or with itself. */
  predicate Carries(env: Envelope, d: Draft, id: EventId) {
    && env.id == id && env.topic == d.topic && env.occurredAt == d.occurredAt && env.actor == d.actor
    && env.entity == d.entity && env.payload == d.payload && env.version == d.version
    && (d.correlationId.Some? ==> env.correlationId == d.correlationId.value)
    && (d.correlationId.None? ==> env.correlationId == id)
  }

  /** Everything one handler run writes inside its transaction. */
  datatype Output = Output(trail: seq<Record>, drafts: seq<Draft>)

  const NOTHING := Output([], [])

  function AsText(value: Option<Decimal>): string {
    match value case Some(v) => Shown(v) case None => ""
  }

  /** A project the event affects and the instant it is applied at. */
  datatype Affected = Affected(project: string, at: Instant)

  /** `_affected`: one project for a data event, every expired score for a tick. */
  function AffectedBy(env: Envelope, iso: string -> IsoReading, stale: Instant -> seq<string>):
    Result<seq<Affected>, RoutingError>
  {
    if env.topic != TOPIC_CLOCK_TICKED then
      match ProjectCodeOf(env)
      case Ok(code) => Ok([Affected(code, env.occurredAt)])
      case Err(e) => Err(e)
    else
      match TickAtOf(env, iso)
      case Ok(at) => Ok(seq(|stale(at)|, i requires 0 <= i < |stale(at)| => Affected(stale(at)[i], at)))
      case Err(e) => Err(e)
  }

  predicate Routable(env: Envelope, iso: string -> IsoReading) {
    if env.topic != TOPIC_CLOCK_TICKED then ProjectCodeOf(env).Ok? else TickAtOf(env, iso).Ok?
  }

  /** The instant the engine applies an event at: never the clock's. */
  function AppliedAt(env: Envelope, iso: string -> IsoReading): Result<Instant, RoutingError> {
    if env.topic != TOPIC_CLOCK_TICKED then Ok(env.occurredAt) else TickAtOf(env, iso)
  }

  /** The projects `_affected` may yield for an event, whatever scores are stale. */
  ghost predicate Affects(env: Envelope, iso: string -> IsoReading, affected: seq<Affected>) {
    && Routable(env, iso)
    && (forall a :: a in affected ==> Ok(a.at) == AppliedAt(env, iso))
    && (forall i, j :: 0 <= i < j < |affected| ==> affected[i].project != affected[j].project)
    && (env.topic != TOPIC_CLOCK_TICKED ==> affected == [Affected(ProjectCodeOf(env).value, env.occurredAt)])
  }

  /** The event a record of the engine names as its trigger. */
  function TriggerOf(record: Record): Option<EventId> {
    if TRIGGER_KEY in record.metadata && record.metadata[TRIGGER_KEY].JId? then Some(record.metadata[TRIGGER_KEY].id)
    else None
  }

  /** One announcement: the record and the event say the same thing and carry the trigger's correlation. */
  predicate Announces(env: Envelope, record: Record, draft: Draft) {
    && record.verb == VERB_PRIORITY_CHANGED && record.origin == ORIGIN_POLICY
    && TriggerOf(record) == Some(env.id)
    && draft.topic == TOPIC_PROJECT_PRIORITY_RECALCULATED
    && record.entityKind == draft.entity.kind == ENTITY_PROJECT
    && record.entityId == draft.entity.id
    && record.actor == draft.actor == SYSTEM_ACTOR
    && record.at == draft.occurredAt
    && record.correlationId == env.correlationId
    && draft.correlationId == Some(env.correlationId)
  }

  /** What any run of the engine on `env` may leave behind, whatever the scores were. */
  ghost predicate EngineOutput(env: Envelope, iso: string -> IsoReading, out: Output) {
    && Routable(env, iso)
    && |out.trail| == |out.drafts|
    && (forall i :: 0 <= i < |out.trail| ==> Announces(env, out.trail[i], out.drafts[i]))
    && (forall i :: 0 <= i < |out.drafts| ==> Ok(out.drafts[i].occurredAt) == AppliedAt(env, iso))
    && (forall i, j :: 0 <= i < j < |out.trail| ==> out.trail[i].entityId != out.trail[j].entityId)
    && (env.topic != TOPIC_CLOCK_TICKED ==>
          |out.trail| <= 1 && (|out.trail| == 1 ==> Ok(out.trail[0].entityId) == ProjectCodeOf(env)))
  }

  /** The signal contributing most; of several, the first. */
  function DominantAt(signals: seq<Signal>): (i: nat)
    requires signals != []
    ensures FirstGreatest(signals, i)
  {
    var last := |signals| - 1;
    if last == 0 then 0 else
      var before := DominantAt(signals[..last]);
      if signals[before].contribution < signals[last].contribution then last else before
  }

  function Dominant(signals: seq<Signal>): Option<Signal> {
    if signals == [] then None else Some(signals[DominantAt(signals)])
  }

  ghost predicate FirstGreatest(signals: seq<Signal>, i: int) {
    && 0 <= i < |signals|
    && (forall j :: 0 <= j < |signals| ==> signals[j].contribution <= signals[i].contribution)
    && (forall j :: 0 <= j < i ==> signals[j].contribution < signals[i].contribution)
  }

  /** `_movement`: why the number moved, and what caused it. */
  function Movement(env: Envelope, r: Recompute): map<string, Json> {
    var dominant := Dominant(r.breakdown.signals);
    map["origin" := JText(ORIGIN_POLICY),
        "policy_version" := JText(r.breakdown.policyVersion),
        "signal" := match dominant case Some(s) => JText(s.code) case None => JNull,
        "contribution" := match dominant case Some(s) => JReal(s.contribution) case None => JNull,
        "delta" := match r.previous case Some(p) => JReal(Amount(r.breakdown.value) - Amount(p)) case None => JNull,
        "trigger_topic" := JText(env.topic),
        TRIGGER_KEY := JId(env.id)]
  }

  function Line(s: Signal): Json {
    JObject(map["code" := JText(s.code), "label" := JText(s.caption), "raw" := JReal(s.raw),
                "weight" := JReal(s.weight), "contribution" := JReal(s.contribution), "reason" := JText(s.reason)])
  }

  function Lines(signals: seq<Signal>): seq<Json> {
    seq(|signals|, i requires 0 <= i < |signals| => Line(signals[i]))
  }

  /** Two modifiers with one code leave the later factor. */
  function Factors(modifiers: seq<Modifier>): map<string, Json> {
    if modifiers == [] then map[] else
      var last := modifiers[|modifiers| - 1];
      Factors(modifiers[..|modifiers| - 1])[last.code := JReal(last.factor)]
  }

  function PayloadOf(r: Recompute): map<string, Json> {
    var b := r.breakdown;
    map["value" := JReal(Amount(b.value)),
        "previous_value" := match r.previous case Some(p) => JReal(Amount(p)) case None => JNull,
        "policy_version" := JText(b.policyVersion),
        "origin" := JText(r.origin),
        "breakdown" := JList(Lines(b.signals)),
        "modifiers" := JObject(Factors(b.modifiers)),
        "flags" := JTexts(b.flags)]
  }

  predicate InScale(value: Decimal) {
    0.0 <= Amount(value) <= 100.0
  }

  /** What the payload's schema accepts. */
  predicate Presentable(r: Recompute) {
    && InScale(r.breakdown.value) && (r.previous.Some? ==> InScale(r.previous.value))
    && forall s :: s in r.breakdown.signals ==> s.caption != "" && s.reason != "" && 0.0 <= s.raw <= 1.0
  }

  function RecordOf(env: Envelope, a: Affected, r: Recompute): Record {
    Record(ENTITY_PROJECT, a.project, VERB_PRIORITY_CHANGED, ORIGIN_POLICY, SYSTEM_ACTOR,
           AsText(r.previous), Shown(r.value), "", Movement(env, r), a.at, env.correlationId)
  }

  function DraftOf(env: Envelope, a: Affected, r: Recompute): Draft {
    Draft(TOPIC_PROJECT_PRIORITY_RECALCULATED, a.at, SYSTEM_ACTOR, Some(env.correlationId),
          EntityRef(ENTITY_PROJECT, a.project), PayloadOf(r), 1)
  }

  lemma MovementFields(env: Envelope, r: Recompute)
    ensures var m, dominant := Movement(env, r), Dominant(r.breakdown.signals);
            && { "policy_version", "signal", "contribution", "delta" } <= m.Keys
            && m["policy_version"] == JText(r.breakdown.policyVersion)
            && m["signal"] == (if dominant.Some? then JText(dominant.value.code) else JNull)
            && m["contribution"] == (if dominant.Some? then JReal(dominant.value.contribution) else JNull)
            && m["delta"] == (if r.previous.Some? then JReal(Amount(r.breakdown.value) - Amount(r.previous.value))
                              else JNull)
  {
  }

  lemma PayloadFields(r: Recompute)
    ensures var m, b := PayloadOf(r), r.breakdown;
            && { "value", "previous_value", "policy_version", "breakdown" } <= m.Keys
            && m["value"] == JReal(Amount(b.value)) && m["policy_version"] == JText(b.policyVersion)
            && m["previous_value"] == (if r.previous.Some? then JReal(Amount(r.previous.value)) else JNull)
            && m["breakdown"] == JList(Lines(b.signals))
  {
  }

  /** The values the two sides of an announcement carry under different names. */
  ghost predicate OneStory(metadata: map<string, Json>, payload: map<string, Json>, lines: seq<Json>) {
    && { "policy_version", "signal", "contribution", "delta" } <= metadata.Keys
    && { "value", "previous_value", "policy_version", "breakdown" } <= payload.Keys
    && payload["breakdown"] == JList(lines) && metadata["policy_version"] == payload["policy_version"]
    && DeltaOf(payload["value"], payload["previous_value"]) == metadata["delta"]
    && if lines == [] then metadata["signal"] == metadata["contribution"] == JNull
       else exists i :: Heaviest(lines, i) && lines[i].fields["code"] == metadata["signal"]
                        && lines[i].fields["contribution"] == metadata["contribution"]
  }

  function DeltaOf(value: Json, previous: Json): Json {
    if value.JReal? && previous.JReal? then JReal(value.x - previous.x) else JNull
  }

  predicate IsLine(line: Json) {
    line.JObject? && { "code", "contribution" } <= line.fields.Keys && line.fields["contribution"].JReal?
  }

  /** No line of the breakdown contributes more than this one. */
  ghost predicate Heaviest(lines: seq<Json>, i: int) {
    && 0 <= i < |lines| && (forall j :: 0 <= j < |lines| ==> IsLine(lines[j]))
    && forall j :: 0 <= j < |lines| ==> lines[j].fields["contribution"].x <= lines[i].fields["contribution"].x
  }

  lemma LineFields(s: Signal)
    ensures IsLine(Line(s)) && Line(s).fields["code"] == JText(s.code)
    ensures Line(s).fields["contribution"] == JReal(s.contribution)
    ensures Has(Line(s).fields, "label", JText(s.caption)) && Has(Line(s).fields, "raw", JReal(s.raw))
    ensures Has(Line(s).fields, "weight", JReal(s.weight)) && Has(Line(s).fields, "reason", JText(s.reason))
  {
  }

  /** The modifier that is in force for a code: the last one. */
  lemma {:induction false} LastFactorCounts(modifiers: seq<Modifier>, i: nat)
    requires i < |modifiers| && forall j :: i < j < |modifiers| ==> modifiers[j].code != modifiers[i].code
    ensures Has(Factors(modifiers), modifiers[i].code, JReal(modifiers[i].factor))
    ensures forall code :: code in Factors(modifiers) ==> exists m :: m in modifiers && m.code == code
  {
    if |modifiers| > 1 {
      var last := |modifiers| - 1;
      if i < last {
        LastFactorCounts(modifiers[..last], i);
      } else {
        FactorsAreGiven(modifiers[..last]);
      }
    }
  }

  lemma {:induction false} FactorsAreGiven(modifiers: seq<Modifier>)
    ensures forall code :: code in Factors(modifiers) ==> exists m :: m in modifiers && m.code == code
  {
    if modifiers != [] {
      FactorsAreGiven(modifiers[..|modifiers| - 1]);
      assert modifiers[|modifiers| - 1] in modifiers;
    }
  }

  /** What else the two sides say: why, by what, and in the engine's or somebody's name. */
  lemma RestOfTheStory(env: Envelope, a: Affected, r: Recompute)
    ensures var m, p := RecordOf(env, a, r).metadata, DraftOf(env, a, r).payload;
            && Has(m, "origin", JText(ORIGIN_POLICY)) && Has(m, "trigger_topic", JText(env.topic))
            && Has(m, TRIGGER_KEY, JId(env.id)) && Has(p, "origin", JText(r.origin))
            && Has(p, "modifiers", JObject(Factors(r.breakdown.modifiers)))
            && Has(p, "flags", JTexts(r.breakdown.flags)) && DraftOf(env, a, r).version == 1
  {
  }

  predicate OnTheScale(value: Json) {
    value.JReal? && 0.0 <= value.x <= 100.0
  }

  predicate AcceptedLine(line: Json) {
    && line.JObject? && { "label", "reason", "raw" } <= line.fields.Keys
    && line.fields["label"].JText? && line.fields["label"].text != ""
    && line.fields["reason"].JText? && line.fields["reason"].text != ""
    && line.fields["raw"].JReal? && 0.0 <= line.fields["raw"].x <= 1.0
  }

  /** What the schema asks of a payload. */
  predicate AcceptedPayload(payload: map<string, Json>) {
    && { "value", "previous_value", "breakdown" } <= payload.Keys
    && OnTheScale(payload["value"]) && (payload["previous_value"].JNull? || OnTheScale(payload["previous_value"]))
    && payload["breakdown"].JList?
    && forall line :: line in payload["breakdown"].elements ==> AcceptedLine(line)
  }

  /** News can be announced exactly when the schema accepts its payload. */
  lemma PresentableExactlyWhen(r: Recompute)
    ensures Presentable(r) <==> AcceptedPayload(PayloadOf(r))
  {
    PayloadFields(r);
    forall i | 0 <= i < |r.breakdown.signals|
      ensures var s := r.breakdown.signals[i];
              AcceptedLine(Line(s)) <==> s.caption != "" && s.reason != "" && 0.0 <= s.raw <= 1.0
    {
      LineFields(r.breakdown.signals[i]);
    }
    LinesAccepted(r.breakdown.signals);
  }

  lemma LinesAccepted(signals: seq<Signal>)
    ensures (forall line :: line in Lines(signals) ==> AcceptedLine(line))
            <==> forall s :: s in signals ==> AcceptedLine(Line(s))
  {
    forall s | s in signals ensures Line(s) in Lines(signals) {
      var i :| 0 <= i < |signals| && signals[i] == s;
      assert Lines(signals)[i] == Line(s);
    }
  }

  lemma DominantIsHeaviest(signals: seq<Signal>)
    requires signals != []
    ensures var i, lines := DominantAt(signals), Lines(signals);
            && Heaviest(lines, i) && lines[i].fields["code"] == JText(signals[i].code)
            && lines[i].fields["contribution"] == JReal(signals[i].contribution)
  {
    forall j | 0 <= j < |signals|
      ensures var line := Lines(signals)[j];
              IsLine(line) && line.fields["code"] == JText(signals[j].code)
              && line.fields["contribution"] == JReal(signals[j].contribution)
    {
      LineFields(signals[j]);
    }
  }

  /**
    The record and the event tell one story: the delta is the difference of the announced values, and the
    signal the record names is a line of the announced breakdown that no other outweighs.
  */
  lemma RecordAndEventTellOneStory(env: Envelope, a: Affected, r: Recompute)
    ensures OneStory(RecordOf(env, a, r).metadata, DraftOf(env, a, r).payload, Lines(r.breakdown.signals))
  {
    MovementFields(env, r);
    PayloadFields(r);
    StoryAgrees(Movement(env, r), PayloadOf(r), r);
  }

  lemma StoryAgrees(m: map<string, Json>, p: map<string, Json>, r: Recompute)
    requires { "policy_version", "signal", "contribution", "delta" } <= m.Keys
    requires { "value", "previous_value", "policy_version", "breakdown" } <= p.Keys
    requires m["policy_version"] == p["policy_version"]
    requires var dominant := Dominant(r.breakdown.signals);
             && m["signal"] == (if dominant.Some? then JText(dominant.value.code) else JNull)
             && m["contribution"] == (if dominant.Some? then JReal(dominant.value.contribution) else JNull)
    requires p["breakdown"] == JList(Lines(r.breakdown.signals))
             && m["delta"] == DeltaOf(p["value"], p["previous_value"])
    ensures OneStory(m, p, Lines(r.breakdown.signals))
  {
    if r.breakdown.signals != [] {
      DominantIsHeaviest(r.breakdown.signals);
    }
  }

  type Scores = (string, Instant) -> Result<Recompute, string>

  /** The affected projects whose recomputation is news, in order. */
  function News(affected: seq<Affected>, scores: Scores): seq<(Affected, Recompute)> {
    if affected == [] then [] else
      var rest := News(affected[..|affected| - 1], scores);
      var last := affected[|affected| - 1];
      match scores(last.project, last.at)
      case Ok(r) => if r.changed then rest + [(last, r)] else rest
      case Err(_) => rest
  }

  /** No recomputation raises, and whatever is news can be announced. */
  predicate AllScored(affected: seq<Affected>, scores: Scores) {
    forall i :: 0 <= i < |affected| ==> Announceable(scores(affected[i].project, affected[i].at))
  }

  predicate Announceable(score: Result<Recompute, string>) {
    score.Ok? && (score.value.changed ==> Presentable(score.value))
  }

  lemma {:induction false} NewsNamesAffected(affected: seq<Affected>, scores: Scores)
    ensures |News(affected, scores)| <= |affected|
    ensures forall n :: n in News(affected, scores) <==>
              n.0 in affected && scores(n.0.project, n.0.at) == Ok(n.1) && n.1.changed
    ensures (forall i, j :: 0 <= i < j < |affected| ==> affected[i].project != affected[j].project) ==>
              forall i, j :: 0 <= i < j < |News(affected, scores)| ==>
                News(affected, scores)[i].0.project != News(affected, scores)[j].0.project
  {
    if affected != [] {
      NewsNamesAffected(affected[..|affected| - 1], scores);
    }
  }

  /** One record and one event for each piece of news, in order. */
  function AnnouncementsOf(env: Envelope, news: seq<(Affected, Recompute)>): Output {
    if news == [] then NOTHING else
      var before := AnnouncementsOf(env, news[..|news| - 1]);
      var (a, r) := news[|news| - 1];
      Announce(env, before, a, r)
  }

  function Announce(env: Envelope, out: Output, a: Affected, r: Recompute): Output {
    Output(out.trail + [RecordOf(env, a, r)], out.drafts + [DraftOf(env, a, r)])
  }

  lemma OneMoreScore(env: Envelope, affected: seq<Affected>, scores: Scores, i: nat)
    requires i < |affected| && scores(affected[i].project, affected[i].at).Ok?
    ensures var a, out := affected[i], AnnouncementsOf(env, News(affected[..i], scores));
            var r := scores(a.project, a.at).value;
            AnnouncementsOf(env, News(affected[..i + 1], scores)) == if r.changed then Announce(env, out, a, r) else out
  {
    var before := News(affected[..i], scores);
    assert affected[..i + 1][..i] == affected[..i];
    var more := before + [(affected[i], scores(affected[i].project, affected[i].at).value)];
    assert more[..|more| - 1] == before;
  }

  /** The record reads from the stored score, or from nothing where there was none, to the one computed. */
  predicate TellsMove(record: Record, previous: Option<Decimal>, value: Decimal) {
    && record.toValue == Shown(value)
    && (previous.None? ==> record.fromValue == "")
    && (previous.Some? ==> record.fromValue == Shown(previous.value))
  }

  /** The record and the event of one piece of news. */
  predicate Announced(env: Envelope, a: Affected, r: Recompute, record: Record, draft: Draft) {
    && Announces(env, record, draft) && record.entityId == a.project && draft.occurredAt == a.at
    && TellsMove(record, r.previous, r.value) && Refusal(record).None?
    && record == RecordOf(env, a, r) && draft == DraftOf(env, a, r)
  }

  lemma PairAnnounces(env: Envelope, a: Affected, r: Recompute)
    ensures Announced(env, a, r, RecordOf(env, a, r), DraftOf(env, a, r))
  {
  }

  /** Each piece of news has its record and its event at its own place. */
  lemma {:induction false} EachIsAnnounced(env: Envelope, news: seq<(Affected, Recompute)>)
    ensures var out := AnnouncementsOf(env, news);
            && |out.trail| == |out.drafts| == |news|
            && forall i :: 0 <= i < |news| ==> Announced(env, news[i].0, news[i].1, out.trail[i], out.drafts[i])
  {
    if news != [] {
      EachIsAnnounced(env, news[..|news| - 1]);
      PairAnnounces(env, news[|news| - 1].0, news[|news| - 1].1);
    }
  }

  /**
    The handler as a whole: it fails exactly when the event names no project (or the tick no instant), a
    recomputation raises or its news is off the scale of the payload's schema, and otherwise writes one
    record and one event per project that moved, in the order the projects were selected.
  */
  method RecalculatePriority(env: Envelope, iso: string -> IsoReading,
                             stale: Instant -> seq<string>, scores: Scores)
    returns (result: Result<Output, HandlerError>)
    requires forall at :: NoRepeats(stale(at))
    ensures result.Ok? <==> AffectedBy(env, iso, stale).Ok? && AllScored(AffectedBy(env, iso, stale).value, scores)
    ensures result.Err? ==> (result.error.Unroutable? <==> AffectedBy(env, iso, stale).Err?)
    ensures result.Ok? ==> result.value == AnnouncementsOf(env, News(AffectedBy(env, iso, stale).value, scores))
    ensures result.Ok? ==> EngineOutput(env, iso, result.value)
  {
    var selection := AffectedBy(env, iso, stale);
    if selection.Err? {
      return Err(Unroutable(selection.error));
    }
    NewsIsTheEngines(env, iso, stale, scores);
    result := RescoreAll(env, selection.value, scores);
  }

  /** The loop over the affected projects. */
  method RescoreAll(env: Envelope, affected: seq<Affected>, scores: Scores)
    returns (result: Result<Output, HandlerError>)
    ensures result.Ok? <==> AllScored(affected, scores)
    ensures result.Err? ==> result.error.Raised?
    ensures result.Ok? ==> result.value == AnnouncementsOf(env, News(affected, scores))
  {
    var out := NOTHING;
    for i := 0 to |affected|
      invariant AllScored(affected[..i], scores)
      invariant out == AnnouncementsOf(env, News(affected[..i], scores))
    {
      var rescored := Rescore(env, affected[i], scores(affected[i].project, affected[i].at), out);
      if rescored.Err? {
        return Err(rescored.error);
      }
      OneMoreScore(env, affected, scores, i);
      out := rescored.value;
    }
    assert affected[..|affected|] == affected;
    result := Ok(out);
  }

  /** `_rescore`: nothing unless the recomputation is news, which the payload's schema may still refuse. */
  method Rescore(env: Envelope, a: Affected, score: Result<Recompute, string>, out: Output)
    returns (result: Result<Output, HandlerError>)
    ensures result.Ok? <==> Announceable(score)
    ensures result.Err? ==> result.error.Raised?
    ensures result.Ok? ==> result.value == if score.value.changed then Announce(env, out, a, score.value) else out
  {
    match score
    case Err(message) =>
      result := Err(Raised(message));
    case Ok(r) =>
      if !r.changed {
        result := Ok(out);
      } else if !Presentable(r) {
        result := Err(Raised("ValidationError"));
      } else {
        result := Ok(Announce(env, out, a, r));
      }
  }

  lemma NewsIsTheEngines(env: Envelope, iso: string -> IsoReading, stale: Instant -> seq<string>, scores: Scores)
    requires forall at :: NoRepeats(stale(at))
    requires AffectedBy(env, iso, stale).Ok?
    ensures EngineOutput(env, iso, AnnouncementsOf(env, News(AffectedBy(env, iso, stale).value, scores)))
  {
    var affected := AffectedBy(env, iso, stale).value;
    assert env.topic == TOPIC_CLOCK_TICKED ==> NoRepeats(stale(TickAtOf(env, iso).value));
    AffectedNewsIsTheEngines(env, iso, affected, scores);
  }

  lemma AffectedNewsIsTheEngines(env: Envelope, iso: string -> IsoReading, affected: seq<Affected>, scores: Scores)
    requires Affects(env, iso, affected)
    ensures EngineOutput(env, iso, AnnouncementsOf(env, News(affected, scores)))
  {
    var news := News(affected, scores);
    NewsNamesAffected(affected, scores);
    EachIsAnnounced(env, news);
    AnnouncedIsTheEngines(env, iso, affected, news, AnnouncementsOf(env, news));
  }

  lemma AnnouncedIsTheEngines(env: Envelope, iso: string -> IsoReading, affected: seq<Affected>,
                              news: seq<(Affected, Recompute)>, out: Output)
    requires Affects(env, iso, affected) && |out.trail| == |out.drafts| == |news| <= |affected|
    requires forall n :: n in news ==> n.0 in affected
    requires forall i, j :: 0 <= i < j < |news| ==> news[i].0.project != news[j].0.project
    requires forall i :: 0 <= i < |news| ==>
               && Announces(env, out.trail[i], out.drafts[i]) && out.trail[i].entityId == news[i].0.project
               && out.drafts[i].occurredAt == news[i].0.at
    ensures EngineOutput(env, iso, out)
  {
    forall i | 0 <= i < |news| ensures news[i].0 in affected {
      assert news[i] in news;
    }
  }
}
