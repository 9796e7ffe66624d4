/** The event envelope and the two questions every project-scoped handler asks of it. */
module Envelopes {
  import opened Prelude
  import opened Catalog

  type EventId = nat
  type Instant = int

  /** A payload or metadata value; an event's id is printed as text by the repository. */
  datatype Json =
    | JNull
    | JBool(b: bool)
    | JInt(n: int)
    | JReal(x: real)
    | JText(text: string)
    | JId(id: EventId)
    | JTexts(items: seq<string>)
    | JList(elements: seq<Json>)
    | JObject(fields: map<string, Json>)

  predicate Has(document: map<string, Json>, key: string, value: Json) {
    key in document && document[key] == value
  }

  datatype EntityRef = EntityRef(kind: string, id: string)

  datatype Envelope = Envelope(
    id: EventId,
    topic: Topic,
    occurredAt: Instant,
    actor: string,
    correlationId: EventId,
    entity: EntityRef,
    payload: map<string, Json>,
    version: nat)

  datatype RoutingError = EventNamesNoProject | MalformedTick

  /** What `datetime.fromisoformat` makes of a string. */
  datatype IsoReading = NotIso | Naive(local: Instant) | Aware(at: Instant)

  const PROJECT_CODE_FIELD := "project_code"
  const TICK_AT_FIELD := "tick_at"

  function ProjectCodeOf(e: Envelope): Result<string, RoutingError> {
    if e.entity.kind == ENTITY_PROJECT then Ok(e.entity.id)
    else if PROJECT_CODE_FIELD !in e.payload then Err(EventNamesNoProject)
    else match e.payload[PROJECT_CODE_FIELD]
      case JText(code) => if code == "" then Err(EventNamesNoProject) else Ok(code)
      case _ => Err(EventNamesNoProject)
  }

  function TickAtOf(e: Envelope, iso: string -> IsoReading): Result<Instant, RoutingError> {
    if TICK_AT_FIELD !in e.payload then Err(MalformedTick)
    else match e.payload[TICK_AT_FIELD]
      case JText(raw) => (match iso(raw) case Aware(at) => Ok(at) case _ => Err(MalformedTick))
      case _ => Err(MalformedTick)
  }
}
