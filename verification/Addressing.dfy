/** The events the repository's producers write are addressed as the routing and the filter expect. */
module Addressing {
  import opened Catalog
  import opened Envelopes
  import opened Engine
  import opened Activity
  import opened Workflows
  import opened Placement
  import opened Text
  import opened MemberCodes
  import opened Roster
  import opened RoutingFilter

  lemma AboutProject(d: Draft, id: EventId, n: Serial)
    requires d.entity == EntityRef(ENTITY_PROJECT, ProjectCode(n)) && PROJECT_CODE_FIELD !in d.payload
    ensures WellAddressed(Seal(d, id))
  {
    assert ProjectEvent(Seal(d, id), n);
  }

  lemma PortfolioPayloadsNameNoProject(d: Directory, c: CreateProjectCommand, state: string,
                        g: Graph, e: Edge, reason: string, r: Record)
    requires c.client in d.clients && (c.owner.Some? ==> c.owner.value in d.owners)
    ensures PROJECT_CODE_FIELD !in CreatedPayload(d, c, state)
    ensures PROJECT_CODE_FIELD !in MovedPayload(g, e, reason)
    ensures PROJECT_CODE_FIELD !in AssignedPayload(r)
  {
  }

  lemma ScorePayloadsNameNoProject(r: Recompute)
    ensures PROJECT_CODE_FIELD !in PayloadOf(r)
  {
  }

  /** The engine's announcements are addressed by the code of a project. */
  lemma EngineEventsAreWellAddressed(env: Envelope, a: Affected, r: Recompute, id: EventId, n: Serial)
    requires a.project == ProjectCode(n)
    ensures WellAddressed(Seal(DraftOf(env, a, r), id))
  {
    ScorePayloadsNameNoProject(r);
    AboutProject(DraftOf(env, a, r), id, n);
  }

  /** So are the portfolio's, for a project under a minted code. */
  lemma PortfolioEventsAreWellAddressed(d: Directory, c: CreateProjectCommand, state: string,
                        g: Graph, e: Edge, reason: string, r: Record,
                        edit: Edit, id: EventId, n: Serial)
    requires c.client in d.clients && (c.owner.Some? ==> c.owner.value in d.owners)
    requires r.entityId == ProjectCode(n)
    ensures WellAddressed(Seal(EventAbout(TOPIC_PROJECT_CREATED, ProjectCode(n),
                                                    CreatedPayload(d, c, state), edit), id))
    ensures WellAddressed(Seal(EventAbout(TOPIC_PROJECT_STATE_CHANGED, ProjectCode(n),
                                                    MovedPayload(g, e, reason), edit), id))
    ensures WellAddressed(Seal(AssignedEvent(r, edit), id))
  {
    PortfolioPayloadsNameNoProject(d, c, state, g, e, reason, r);
    var code := ProjectCode(n);
    AboutProject(EventAbout(TOPIC_PROJECT_CREATED, code, CreatedPayload(d, c, state), edit), id, n);
    AboutProject(EventAbout(TOPIC_PROJECT_STATE_CHANGED, code, MovedPayload(g, e, reason), edit),
                 id, n);
    AboutProject(AssignedEvent(r, edit), id, n);
  }

  /** And a roster event concerns no project, whatever the person's code. */
  lemma RosterEventsAreWellAddressed(d: Draft, id: EventId)
    requires IsRosterEvent(d)
    ensures WellAddressed(Seal(d, id))
  {
    assert UnscopedEvent(Seal(d, id));
  }

  // --- The codes people get ---------------------------------------------------------------------------

  predicate UpperCase(c: char) {
    'A' <= c <= 'Z'
  }

  predicate NoUpperCase(text: string) {
    forall i :: 0 <= i < |text| ==> !UpperCase(text[i])
  }

  lemma {:induction false} TrimmingKeepsCase(s: string)
    requires NoUpperCase(s)
    ensures NoUpperCase(TrimLeft(s)) && NoUpperCase(TrimRight(s))
    decreases |s|
  {
    if s != [] {
      TrimmingKeepsCase(s[1..]);
      TrimmingKeepsCase(s[..|s| - 1]);
    }
  }

  lemma {:induction false} PartsKeepCase(s: string)
    requires NoUpperCase(s)
    ensures NoUpperCase(FirstPart(s)) && NoUpperCase(LastPart(s))
    decreases |s|
  {
    if s != [] {
      PartsKeepCase(s[1..]);
      PartsKeepCase(s[..|s| - 1]);
    }
  }

  lemma BaseKeepsCase(slug: string)
    requires NoUpperCase(slug)
    ensures NoUpperCase(Base(slug))
  {
    var dotted := Dotted(slug);
    TrimmingKeepsCase(dotted);
    TrimmingKeepsCase(TrimLeft(dotted));
    PartsKeepCase(Stem(slug));
  }

  lemma NumbersHaveNoCase(n: nat)
    ensures NoUpperCase(PrintNumber(n))
  {
    assert IsNumber(PrintNumber(n));
  }

  /** A slug is in lower case, so a derived code never stands in the way of a project's filter. */
  lemma AllocatedCodesExtendNoProject(code: string, slug: string, p: Serial)
    requires NoUpperCase(slug) && Allocated(code, slug)
    ensures !Extends(code, ProjectCode(p))
  {
    BaseKeepsCase(slug);
    BaseIsNotEmpty(slug);
    if n: nat :| code == Numbered(Base(slug), n) {
      NumbersHaveNoCase(n);
    }
    assert ProjectCode(p)[0] == 'P' && !UpperCase(code[0]);
  }

  /** For such a person the filter agrees with the routing on every event of theirs and for every project. */
  lemma AllocatedPeopleAgree(d: Draft, id: EventId, slug: string, p: Serial)
    requires IsRosterEvent(d) && NoUpperCase(slug) && Allocated(d.entity.id, slug)
    ensures Agrees(Seal(d, id), ProjectCode(p))
  {
    RosterEventsAreWellAddressed(d, id);
    AllocatedCodesExtendNoProject(d.entity.id, slug, p);
    FilterAgreesWithRouting(Seal(d, id), p);
  }

  /** A code pinned to a project's breaks the agreement for that project's filter. */
  lemma PinnedPeopleDisagree(d: Draft, id: EventId, p: Serial)
    requires IsRosterEvent(d) && Extends(d.entity.id, ProjectCode(p))
    ensures !Agrees(Seal(d, id), ProjectCode(p))
  {
    RosterEventsAreWellAddressed(d, id);
    FilterAgreesWithRouting(Seal(d, id), p);
  }
}
