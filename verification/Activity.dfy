/** The write port of the audit trail: the closed vocabularies it accepts, and the only append. */
module Activity {
  import opened Prelude
  import opened Envelopes

  const ENTITY_TYPES: set<string> := { "project", "task", "blocker", "member", "role", "workflow" }

  const VERBS: set<string> :=
    { "CREATED", "STATE_CHANGED", "PRIORITY_CHANGED", "BLOCKER_RAISED", "BLOCKER_RESOLVED", "OWNER_CHANGED",
      "NEXT_STEP_SET", "TASK_ADDED", "TASK_REMOVED", "TASK_RESTORED", "DEPENDENCIES_CHANGED", "NOTE_ADDED",
      "SEEDED", "RENAMED", "ROLE_CHANGED", "CAPACITY_CHANGED", "DEACTIVATED", "REACTIVATED", "PASSWORD_RESET",
      "STATE_ADDED", "STATE_EDITED", "STATE_RETIRED", "TRANSITION_ADDED", "TRANSITION_EDITED",
      "TRANSITION_RETIRED", "WORKFLOW_ASSIGNED" }

  const ORIGINS: set<string> := { "MANUAL", "POLICY", "SYSTEM" }
  const ORIGIN_MANUAL := "MANUAL"
  const ORIGIN_SYSTEM := "SYSTEM"

  /** Who changes something, under which decision, and when. */
  datatype Edit = Edit(actor: string, correlationId: EventId, now: Instant)

  /** One fact of the trail. */
  datatype Record = Record(
    entityKind: string,
    entityId: string,
    verb: string,
    origin: string,
    actor: string,
    fromValue: string,
    toValue: string,
    reason: string,
    metadata: map<string, Json>,
    at: Instant,
    correlationId: EventId)

  datatype ActivityError =
    | UnknownEntityType(kind: string)
    | UnknownActivityVerb(verb: string)
    | UnknownActivityOrigin(origin: string)
    | ReasonRequiredForManualActivity(verb: string, entityId: string)

  /** The ASCII characters `str.strip` removes. */
  predicate IsBlank(c: char) {
    c == ' ' || '\t' <= c <= '\r' || '\U{1c}' <= c <= '\U{1f}'
  }

  predicate Says(reason: string) {
    exists i :: 0 <= i < |reason| && !IsBlank(reason[i])
  }

  /** Why the trail refuses a record, in the order it checks. */
  function Refusal(r: Record): Option<ActivityError> {
    if r.entityKind !in ENTITY_TYPES then Some(UnknownEntityType(r.entityKind))
    else if r.verb !in VERBS then Some(UnknownActivityVerb(r.verb))
    else if r.origin !in ORIGINS then Some(UnknownActivityOrigin(r.origin))
    else if r.origin == ORIGIN_MANUAL && !Says(r.reason) then Some(ReasonRequiredForManualActivity(r.verb, r.entityId))
    else None
  }

  /** The vocabularies are checked in order, and only a manual record needs a reason that says something. */
  lemma RefusedInOrder(r: Record)
    ensures r.entityKind !in ENTITY_TYPES <==> Refusal(r) == Some(UnknownEntityType(r.entityKind))
    ensures r.entityKind in ENTITY_TYPES && r.verb !in VERBS <==> Refusal(r) == Some(UnknownActivityVerb(r.verb))
    ensures r.entityKind in ENTITY_TYPES && r.verb in VERBS && r.origin !in { "MANUAL", "POLICY", "SYSTEM" }
            <==> Refusal(r) == Some(UnknownActivityOrigin(r.origin))
    ensures Refusal(r).None? <==>
            && r.entityKind in ENTITY_TYPES && r.verb in VERBS && r.origin in { "MANUAL", "POLICY", "SYSTEM" }
            && (r.origin == "MANUAL" ==> exists c :: c in r.reason && !IsBlank(c))
  {
    if Says(r.reason) {
      var i :| 0 <= i < |r.reason| && !IsBlank(r.reason[i]);
      assert r.reason[i] in r.reason;
    }
  }

  class ActivityTrail {
    var records: seq<Record>

    constructor ()
      ensures records == []
    {
      records := [];
    }

    method Write(r: Record) returns (error: Option<ActivityError>)
      modifies this
      ensures error == Refusal(r)
      ensures records == if error.None? then old(records) + [r] else old(records)
    {
      if r.entityKind !in ENTITY_TYPES {
        return Some(UnknownEntityType(r.entityKind));
      }
      if r.verb !in VERBS {
        return Some(UnknownActivityVerb(r.verb));
      }
      if r.origin !in ORIGINS {
        return Some(UnknownActivityOrigin(r.origin));
      }
      if r.origin == ORIGIN_MANUAL {
        var i := 0;
        while i < |r.reason| && IsBlank(r.reason[i])
          invariant 0 <= i <= |r.reason| && forall j :: 0 <= j < i ==> IsBlank(r.reason[j])
        {
          i := i + 1;
        }
        if i == |r.reason| {
          return Some(ReasonRequiredForManualActivity(r.verb, r.entityId));
        }
      }
      records := records + [r];
      error := None;
    }
  }
}
