/**
  People and roles, and the audit trail their edits write.  The trail replays to the present: folding
  the records about a person, strictly, from nothing, gives the person as the table holds them.
*/
module Roster {
  import opened Prelude
  import opened Text
  import opened Catalog
  import opened Envelopes
  import opened Engine
  import opened Activity
  import opened MemberCodes

  const ENTITY_ROLE := "role"
  const FIELD_LABEL := "label"
  const FIELD_ROLE := "role"
  const FIELD_CAPACITY := "weekly_capacity_points"
  const FIELD_ACTIVE := "is_active"
  const FIELD_PASSWORD := "has_password"

  datatype Member = Member(
    code: string,
    alias: string,
    role: Option<string>,
    capacity: nat,
    active: bool,
    hasPassword: bool)

  datatype Role = Role(code: string, alias: string, order: int, active: bool)

  /** A field of a partial edit: not sent, or sent with a value that may be null. */
  datatype Field<T> = Absent | Sent(value: Option<T>)

  datatype CreateMemberCommand = CreateMemberCommand(code: string, alias: string, role: Option<string>, capacity: nat)

  datatype UpdateMemberCommand = UpdateMemberCommand(
    code: string,
    alias: Field<string>,
    role: Field<string>,
    capacity: Field<nat>,
    active: Field<bool>)

  datatype UpdateRoleCommand = UpdateRoleCommand(code: string, alias: Field<string>, active: Field<bool>)

  /** What the password validators made of the credential, if one was sent. */
  datatype PasswordCheck = NoPassword | Accepted | Rejected

  datatype RosterError =
    | MemberNotFound(code: string)
    | RoleNotFound(code: string)
    | DuplicateMemberCode(code: string)
    | DuplicateRoleCode(code: string)
    | CannotDeactivateSelf(code: string)
    | PasswordRejected

  // --- What an edit asks for ----------------------------------------------------------------------

  function Requested<T>(field: Field<T>, current: T): T {
    match field case Sent(Some(v)) => v case _ => current
  }

  /** An explicit null unclassifies the person; for every other field null means untouched. */
  function Edited(m: Member, c: UpdateMemberCommand): Member {
    m.(alias := Requested(c.alias, m.alias),
       role := match c.role case Absent => m.role case Sent(role) => role,
       capacity := Requested(c.capacity, m.capacity),
       active := Requested(c.active, m.active))
  }

  function EditedRole(r: Role, c: UpdateRoleCommand): Role {
    r.(alias := Requested(c.alias, r.alias), active := Requested(c.active, r.active))
  }

  function UpdateRefusal(members: map<string, Member>, roles: map<string, Role>, c: UpdateMemberCommand,
                        actor: string):
    Option<RosterError>
  {
    if c.code !in members then Some(MemberNotFound(c.code))
    else if c.active == Sent(Some(false)) && c.code == actor then Some(CannotDeactivateSelf(c.code))
    else match c.role
      case Sent(Some(role)) => if role in roles then None else Some(RoleNotFound(role))
      case _ => None
  }

  // --- What the trail says ------------------------------------------------------------------------

  function RoleNamed(text: string): Option<string> {
    if text == "" then None else Some(text)
  }

  function BoolText(b: bool): string {
    if b then "true" else "false"
  }

  function Moved(kind: string, code: string, verb: string, before: string, after: string,
                 metadata: map<string, Json>, edit: Edit): Record {
    Record(kind, code, verb, ORIGIN_SYSTEM, edit.actor, before, after, "", metadata, edit.now, edit.correlationId)
  }

  function AboutField(field: string): map<string, Json> {
    map["field" := JText(field)]
  }

  /** A moved attribute, with its values as the trail prints them. */
  datatype Change = Change(field: string, before: string, after: string)

  function AliasChange(a: Member, b: Member): seq<Change> {
    if a.alias == b.alias then [] else [Change(FIELD_LABEL, a.alias, b.alias)]
  }

  function RoleChange(a: Member, b: Member): seq<Change> {
    if a.role == b.role then [] else [Change(FIELD_ROLE, OrEmpty(a.role), OrEmpty(b.role))]
  }

  function CapacityChange(a: Member, b: Member): seq<Change> {
    if a.capacity == b.capacity then []
    else [Change(FIELD_CAPACITY, PrintNumber(a.capacity), PrintNumber(b.capacity))]
  }

  /** One change per attribute that differs, in the order the attributes are examined. */
  function Changes(a: Member, b: Member): seq<Change> {
    AliasChange(a, b) + RoleChange(a, b) + CapacityChange(a, b)
  }

  function VerbOf(field: string): string {
    if field == FIELD_LABEL then "RENAMED" else if field == FIELD_ROLE then "ROLE_CHANGED" else "CAPACITY_CHANGED"
  }

  function ChangeRecord(code: string, c: Change, edit: Edit): Record {
    Moved(ENTITY_MEMBER, code, VerbOf(c.field), c.before, c.after, AboutField(c.field), edit)
  }

  function ChangeRecords(code: string, changes: seq<Change>, edit: Edit): seq<Record> {
    seq(|changes|, i requires 0 <= i < |changes| => ChangeRecord(code, changes[i], edit))
  }

  function ChangedFields(changes: seq<Change>): seq<string> {
    seq(|changes|, i requires 0 <= i < |changes| => changes[i].field)
  }

  function ActivationVerb(active: bool): string {
    if active then "REACTIVATED" else "DEACTIVATED"
  }

  function ActivationRecords(kind: string, code: string, a: bool, b: bool, metadata: map<string, Json>,
                        edit: Edit): seq<Record> {
    if a == b then [] else [Moved(kind, code, ActivationVerb(b), BoolText(a), BoolText(b), metadata, edit)]
  }

  function MemberDiff(a: Member, b: Member, edit: Edit): seq<Record> {
    ChangeRecords(a.code, Changes(a, b), edit)
        + ActivationRecords(ENTITY_MEMBER, a.code, a.active, b.active, AboutField(FIELD_ACTIVE), edit)
  }

  function RoleDiff(a: Role, b: Role, edit: Edit): seq<Record> {
    (if a.alias == b.alias then [] else [Moved(ENTITY_ROLE, a.code, "RENAMED", a.alias, b.alias, map[], edit)])
    + ActivationRecords(ENTITY_ROLE, a.code, a.active, b.active, map[], edit)
  }

  function MemberCreated(m: Member, edit: Edit): Record {
    Moved(ENTITY_MEMBER, m.code, "CREATED", "", m.alias,
          map[FIELD_ROLE := JText(OrEmpty(m.role)), FIELD_CAPACITY := JInt(m.capacity),
              FIELD_PASSWORD := JBool(m.hasPassword)],
          edit)
  }

  /** The credential was replaced, and by whom; never the value. */
  function PasswordRecord(code: string, edit: Edit): Record {
    Moved(ENTITY_MEMBER, code, "PASSWORD_RESET", "", "", map["self_service" := JBool(edit.actor == code)], edit)
  }

  function RoleCreated(r: Role, edit: Edit): Record {
    Moved(ENTITY_ROLE, r.code, "CREATED", "", r.alias, map[], edit)
  }

  // --- Replaying it -------------------------------------------------------------------------------

  /** What a strict reader of the trail knows; `Broken` as soon as a record contradicts the story so far. */
  datatype Story<T> = Nobody | Present(value: T) | Broken

  function TellMember(s: Story<Member>, r: Record): Story<Member> {
    if r.verb == "CREATED" then
      if s.Nobody? && r.fromValue == ""
         && FIELD_ROLE in r.metadata && r.metadata[FIELD_ROLE].JText?
         && FIELD_CAPACITY in r.metadata && r.metadata[FIELD_CAPACITY].JInt? && r.metadata[FIELD_CAPACITY].n >= 0
         && FIELD_PASSWORD in r.metadata && r.metadata[FIELD_PASSWORD].JBool?
      then Present(Member(r.entityId, r.toValue, RoleNamed(r.metadata[FIELD_ROLE].text),
                          r.metadata[FIELD_CAPACITY].n, true, r.metadata[FIELD_PASSWORD].b))
      else Broken
    else if !s.Present? then Broken
    else if r.verb == "RENAMED" && r.fromValue == s.value.alias then
      Present(s.value.(alias := r.toValue))
    else if r.verb == "ROLE_CHANGED" && r.fromValue == OrEmpty(s.value.role) then
      Present(s.value.(role := RoleNamed(r.toValue)))
    else if r.verb == "CAPACITY_CHANGED" && r.fromValue == PrintNumber(s.value.capacity) && IsNumber(r.toValue) then
      Present(s.value.(capacity := ReadNumber(r.toValue)))
    else if r.verb == "PASSWORD_RESET" then
      Present(s.value.(hasPassword := true))
    else if IsActivation(r, s.value.active) then
      Present(s.value.(active := !s.value.active))
    else Broken
  }

  /** A record that flips the flag it finds. */
  predicate IsActivation(r: Record, active: bool) {
    r.verb == ActivationVerb(!active) && r.fromValue == BoolText(active) && r.toValue == BoolText(!active)
  }

  /** What the trail keeps of a role: its label and whether it is offered. */
  datatype RoleFacts = RoleFacts(alias: string, active: bool)

  function TellRole(s: Story<RoleFacts>, r: Record): Story<RoleFacts> {
    if r.verb == "CREATED" then
      if s.Nobody? && r.fromValue == "" then Present(RoleFacts(r.toValue, true)) else Broken
    else if !s.Present? then Broken
    else if r.verb == "RENAMED" && r.fromValue == s.value.alias then Present(s.value.(alias := r.toValue))
    else if IsActivation(r, s.value.active) then Present(s.value.(active := !s.value.active))
    else Broken
  }

  function MemberStory(s: Story<Member>, records: seq<Record>, code: string): Story<Member> {
    if records == [] then s else
      var before := MemberStory(s, records[..|records| - 1], code);
      var last := records[|records| - 1];
      if last.entityKind == ENTITY_MEMBER && last.entityId == code then TellMember(before, last) else before
  }

  function RoleStory(s: Story<RoleFacts>, records: seq<Record>, code: string): Story<RoleFacts> {
    if records == [] then s else
      var before := RoleStory(s, records[..|records| - 1], code);
      var last := records[|records| - 1];
      if last.entityKind == ENTITY_ROLE && last.entityId == code then TellRole(before, last) else before
  }

  lemma KindsDiffer()
    ensures ENTITY_ROLE != ENTITY_MEMBER
  {
  }

  lemma {:induction false} StoryGoesOn(s: Story<Member>, a: seq<Record>, b: seq<Record>, code: string)
    ensures MemberStory(s, a + b, code) == MemberStory(MemberStory(s, a, code), b, code)
  {
    if b == [] {
      assert a + b == a;
    } else {
      assert (a + b)[..|a + b| - 1] == a + b[..|b| - 1];
      StoryGoesOn(s, a, b[..|b| - 1], code);
    }
  }

  lemma {:induction false} RoleStoryGoesOn(s: Story<RoleFacts>, a: seq<Record>, b: seq<Record>, code: string)
    ensures RoleStory(s, a + b, code) == RoleStory(RoleStory(s, a, code), b, code)
  {
    if b == [] {
      assert a + b == a;
    } else {
      assert (a + b)[..|a + b| - 1] == a + b[..|b| - 1];
      RoleStoryGoesOn(s, a, b[..|b| - 1], code);
    }
  }

  ghost predicate About(records: seq<Record>, kind: string, code: string) {
    forall i :: 0 <= i < |records| ==> records[i].entityKind == kind && records[i].entityId == code
  }

  /** Records about somebody else, or about something that is not a person, are no part of the story. */
  lemma {:induction false} OtherStories(s: Story<Member>, records: seq<Record>, kind: string, id: string,
                        code: string)
    requires About(records, kind, id) && !(kind == ENTITY_MEMBER && id == code)
    ensures MemberStory(s, records, code) == s
  {
    if records != [] {
      OtherStories(s, records[..|records| - 1], kind, id, code);
    }
  }

  lemma {:induction false} OtherRoleStories(s: Story<RoleFacts>, records: seq<Record>, kind: string,
          id: string, code: string)
    requires About(records, kind, id) && !(kind == ENTITY_ROLE && id == code)
    ensures RoleStory(s, records, code) == s
  {
    if records != [] {
      OtherRoleStories(s, records[..|records| - 1], kind, id, code);
    }
  }

  // --- One record at a time -------------------------------------------------------------------------

  lemma VerbsDiffer()
    ensures "CREATED" != "RENAMED" && "CREATED" != "ROLE_CHANGED" && "CREATED" != "CAPACITY_CHANGED"
    ensures "CREATED" != "DEACTIVATED" && "CREATED" != "REACTIVATED"
    ensures "RENAMED" != "ROLE_CHANGED" && "RENAMED" != "CAPACITY_CHANGED"
    ensures "RENAMED" != "DEACTIVATED" && "RENAMED" != "REACTIVATED"
    ensures "ROLE_CHANGED" != "CAPACITY_CHANGED" && "ROLE_CHANGED" != "DEACTIVATED" && "ROLE_CHANGED" != "REACTIVATED"
    ensures "CAPACITY_CHANGED" != "DEACTIVATED" && "CAPACITY_CHANGED" != "REACTIVATED"
    ensures "PASSWORD_RESET"
            !in { "CREATED", "RENAMED", "ROLE_CHANGED", "CAPACITY_CHANGED", "DEACTIVATED", "REACTIVATED" }
  {
  }

  lemma OneRecord(s: Story<Member>, r: Record, code: string)
    requires r.entityKind == ENTITY_MEMBER && r.entityId == code
    ensures MemberStory(s, [r], code) == TellMember(s, r)
  {
  }

  lemma OneRoleRecord(s: Story<RoleFacts>, r: Record, code: string)
    requires r.entityKind == ENTITY_ROLE && r.entityId == code
    ensures RoleStory(s, [r], code) == TellRole(s, r)
  {
  }

  predicate Classified(m: Member) {
    m.role != Some("")
  }

  lemma FieldsDiffer()
    ensures FIELD_LABEL != FIELD_ROLE && FIELD_LABEL != FIELD_CAPACITY && FIELD_ROLE != FIELD_CAPACITY
  {
  }

  lemma NoRecords(s: Story<Member>, code: string, edit: Edit)
    ensures MemberStory(s, ChangeRecords(code, [], edit), code) == s
  {
  }

  lemma OneChange(s: Story<Member>, code: string, c: Change, edit: Edit)
    ensures MemberStory(s, ChangeRecords(code, [c], edit), code) == TellMember(s, ChangeRecord(code, c, edit))
  {
  }

  lemma AliasReplays(a: Member, b: Member, edit: Edit)
    ensures MemberStory(Present(a), ChangeRecords(a.code, AliasChange(a, b), edit), a.code)
            == Present(a.(alias := b.alias))
  {
  }

  lemma RoleReplays(a: Member, b: Member, edit: Edit)
    requires Classified(b)
    ensures MemberStory(Present(a), ChangeRecords(a.code, RoleChange(a, b), edit), a.code)
            == Present(a.(role := b.role))
  {
  }

  lemma CapacityReplays(a: Member, b: Member, edit: Edit)
    ensures MemberStory(Present(a), ChangeRecords(a.code, CapacityChange(a, b), edit), a.code)
            == Present(a.(capacity := b.capacity))
  {
    VerbsDiffer();
    FieldsDiffer();
    ReadPrinted(b.capacity);
    NoRecords(Present(a), a.code, edit);
    OneChange(Present(a), a.code, Change(FIELD_CAPACITY, PrintNumber(a.capacity), PrintNumber(b.capacity)), edit);
  }

  lemma ActivationReplays(m: Member, active: bool, metadata: map<string, Json>, edit: Edit)
    ensures MemberStory(Present(m), ActivationRecords(ENTITY_MEMBER, m.code, m.active, active, metadata, edit), m.code)
            == Present(m.(active := active))
  {
  }

  lemma ChangeRecordsJoin(code: string, x: seq<Change>, y: seq<Change>, edit: Edit)
    ensures ChangeRecords(code, x + y, edit) == ChangeRecords(code, x, edit) + ChangeRecords(code, y, edit)
  {
  }

  /** The records an edit writes take the reader from the person before it to the person after it. */
  lemma MemberDiffReplays(a: Member, b: Member, edit: Edit)
    requires a.code == b.code && a.hasPassword == b.hasPassword && Classified(b)
    ensures MemberStory(Present(a), MemberDiff(a, b, edit), a.code) == Present(b)
  {
    var m1 := a.(alias := b.alias);
    var m2 := m1.(role := b.role);
    var m3 := m2.(capacity := b.capacity);
    AliasReplays(a, b, edit);
    RoleReplays(m1, b, edit);
    CapacityReplays(m2, b, edit);
    ActivationReplays(m3, b.active, AboutField(FIELD_ACTIVE), edit);
    var r1, r2 := ChangeRecords(a.code, AliasChange(a, b), edit), ChangeRecords(a.code, RoleChange(m1, b), edit);
    var r3 := ChangeRecords(a.code, CapacityChange(m2, b), edit);
    var r4 := ActivationRecords(ENTITY_MEMBER, a.code, a.active, b.active, AboutField(FIELD_ACTIVE), edit);
    FourStories(Present(a), r1, r2, r3, r4, a.code);
    ChangeRecordsJoin(a.code, AliasChange(a, b), RoleChange(a, b), edit);
    ChangeRecordsJoin(a.code, AliasChange(a, b) + RoleChange(a, b), CapacityChange(a, b), edit);
    assert r2 == ChangeRecords(a.code, RoleChange(a, b), edit)
           && r3 == ChangeRecords(a.code, CapacityChange(a, b), edit);
  }

  lemma FourStories(s: Story<Member>, r1: seq<Record>, r2: seq<Record>, r3: seq<Record>, r4: seq<Record>,
                    code: string)
    ensures MemberStory(s, ((r1 + r2) + r3) + r4, code)
            == MemberStory(MemberStory(MemberStory(MemberStory(s, r1, code), r2, code), r3, code), r4, code)
  {
    StoryGoesOn(s, r1, r2, code);
    StoryGoesOn(s, r1 + r2, r3, code);
    StoryGoesOn(s, (r1 + r2) + r3, r4, code);
  }

  /** An edit writes nothing exactly when it changes nothing. */
  lemma NoOpWritesNothing(a: Member, b: Member, edit: Edit)
    requires a.code == b.code && a.hasPassword == b.hasPassword
    ensures MemberDiff(a, b, edit) == [] <==> a == b
  {
  }

  lemma RoleDiffReplays(a: Role, b: Role, edit: Edit)
    requires a.code == b.code
    ensures RoleStory(Present(RoleFacts(a.alias, a.active)), RoleDiff(a, b, edit), a.code)
            == Present(RoleFacts(b.alias, b.active))
    ensures RoleDiff(a, b, edit) == [] <==> a.alias == b.alias && a.active == b.active
  {
    VerbsDiffer();
    var s0: Story<RoleFacts> := Present(RoleFacts(a.alias, a.active));
    var s1: Story<RoleFacts> := Present(RoleFacts(b.alias, a.active));
    var renamed := Moved(ENTITY_ROLE, a.code, "RENAMED", a.alias, b.alias, map[], edit);
    var flipped := Moved(ENTITY_ROLE, a.code, ActivationVerb(b.active), BoolText(a.active), BoolText(b.active),
                         map[], edit);
    var r1 := if a.alias == b.alias then [] else [renamed];
    var r2 := if a.active == b.active then [] else [flipped];
    OneRoleRecord(s0, renamed, a.code);
    OneRoleRecord(s1, flipped, a.code);
    assert RoleStory(s0, r1, a.code) == s1;
    RoleStoryGoesOn(s0, r1, r2, a.code);
    assert RoleDiff(a, b, edit) == r1 + r2;
  }

  // --- Events -----------------------------------------------------------------------------------------

  function RoleJson(role: Option<string>): Json {
    match role case Some(code) => JText(code) case None => JNull
  }

  function Announcement(topic: Topic, code: string, payload: map<string, Json>, edit: Edit): Draft {
    Draft(topic, edit.now, edit.actor, Some(edit.correlationId), EntityRef(ENTITY_MEMBER, code), payload, 1)
  }

  function CreatedEvent(m: Member, edit: Edit): Draft {
    Announcement(TOPIC_MEMBER_CREATED, m.code,
                 map["label" := JText(m.alias), "role" := RoleJson(m.role),
                     "weekly_capacity_points" := JInt(m.capacity), "is_active" := JBool(m.active)], edit)
  }

  function UpdatedEvent(m: Member, changed: seq<Change>, edit: Edit): Draft {
    Announcement(TOPIC_MEMBER_UPDATED, m.code,
                 map["label" := JText(m.alias), "role" := RoleJson(m.role),
                     "weekly_capacity_points" := JInt(m.capacity), "changed" := JTexts(ChangedFields(changed))], edit)
  }

  function ActivationEvent(m: Member, edit: Edit): Draft {
    Announcement(TOPIC_MEMBER_ACTIVATION_CHANGED, m.code,
                 map["label" := JText(m.alias), "is_active" := JBool(m.active)], edit)
  }

  /** One event for all moved attributes together, and one for a retirement or a restoration. */
  function Announcements(a: Member, b: Member, edit: Edit): seq<Draft> {
    (if Changes(a, b) == [] then [] else [UpdatedEvent(b, Changes(a, b), edit)])
    + (if a.active == b.active then [] else [ActivationEvent(b, edit)])
  }

  /** A roster event is about a person and names no project. */
  ghost predicate IsRosterEvent(d: Draft) {
    d.topic in MEMBER_TOPICS && d.entity.kind == ENTITY_MEMBER && PROJECT_CODE_FIELD !in d.payload
  }

  lemma AnnouncementsAreRosterEvents(a: Member, b: Member, edit: Edit)
    ensures forall d :: d in Announcements(a, b, edit) ==> IsRosterEvent(d)
    ensures IsRosterEvent(CreatedEvent(b, edit))
  {
  }

  /** The event was caused by this edit of this person. */
  predicate Caused(d: Draft, code: string, edit: Edit) {
    && d.entity == EntityRef(ENTITY_MEMBER, code) && d.actor == edit.actor && d.occurredAt == edit.now
    && d.correlationId == Some(edit.correlationId) && d.version == 1
  }

  /** The event shows the person as they now stand. */
  predicate ShowsMember(payload: map<string, Json>, m: Member) {
    && Has(payload, "label", JText(m.alias))
    && Has(payload, "role", if m.role.Some? then JText(m.role.value) else JNull)
    && Has(payload, "weekly_capacity_points", JInt(m.capacity))
  }

  /** The attributes that moved are named, and only those, in one order. */
  lemma ChangedNamesTheMoved(a: Member, b: Member)
    ensures var names := ChangedFields(Changes(a, b));
            && ("label" in names <==> a.alias != b.alias) && ("role" in names <==> a.role != b.role)
            && ("weekly_capacity_points" in names <==> a.capacity != b.capacity)
            && (forall name :: name in names ==> name in { "label", "role", "weekly_capacity_points" })
            && NoRepeats(names)
  {
    FieldsDiffer();
    var changes := Changes(a, b);
    assert forall i :: 0 <= i < |changes| ==> ChangedFields(changes)[i] == changes[i].field;
    assert a.alias != b.alias ==> changes[0].field == FIELD_LABEL;
    assert a.role != b.role ==> changes[|AliasChange(a, b)|].field == FIELD_ROLE;
    assert a.capacity != b.capacity ==> changes[|changes| - 1].field == FIELD_CAPACITY;
  }

  /** What an edit announces: that attributes moved, with all three as they now are, and that somebody came or went. */
  lemma AnnouncementsTell(a: Member, b: Member, edit: Edit)
    ensures var sent := Announcements(a, b, edit);
            var moved := a.alias != b.alias || a.role != b.role || a.capacity != b.capacity;
            && |sent| == (if moved then 1 else 0) + (if a.active != b.active then 1 else 0)
            && (moved ==> && sent[0].topic == TOPIC_MEMBER_UPDATED && Caused(sent[0], b.code, edit)
                          && ShowsMember(sent[0].payload, b)
                          && Has(sent[0].payload, "changed", JTexts(ChangedFields(Changes(a, b)))))
            && (a.active != b.active ==>
                  var last := sent[|sent| - 1];
                  && last.topic == TOPIC_MEMBER_ACTIVATION_CHANGED && Caused(last, b.code, edit)
                  && Has(last.payload, "label", JText(b.alias)) && Has(last.payload, "is_active", JBool(b.active)))
  {
  }

  /** What a registration announces. */
  lemma CreationTells(m: Member, edit: Edit)
    ensures var event := CreatedEvent(m, edit);
            && event.topic == TOPIC_MEMBER_CREATED && Caused(event, m.code, edit)
            && ShowsMember(event.payload, m) && Has(event.payload, "is_active", JBool(m.active))
  {
  }

  /** The record is about this person or role, and signed by whoever made the edit. */
  predicate Signed(r: Record, kind: string, code: string, edit: Edit) {
    && r.entityKind == kind && r.entityId == code && r.actor == edit.actor && r.at == edit.now
    && r.correlationId == edit.correlationId && r.origin == ORIGIN_SYSTEM && r.reason == ""
  }

  /** The field a verb tells of. */
  function FieldOf(verb: string): string {
    match verb
    case "RENAMED" => "label"
    case "ROLE_CHANGED" => "role"
    case "CAPACITY_CHANGED" => "weekly_capacity_points"
    case _ => "is_active"
  }

  lemma ChangeRecordsAreSigned(code: string, changes: seq<Change>, edit: Edit)
    requires forall c :: c in changes ==> c.field in { FIELD_LABEL, FIELD_ROLE, FIELD_CAPACITY }
    ensures forall r :: r in ChangeRecords(code, changes, edit) ==>
              Signed(r, ENTITY_MEMBER, code, edit) && r.metadata == AboutField(FieldOf(r.verb))
  {
    VerbsDiffer();
    FieldsDiffer();
  }

  lemma ActivationRecordsAreSigned(kind: string, code: string, a: bool, b: bool, metadata: map<string, Json>,
                                   edit: Edit)
    ensures forall r :: r in ActivationRecords(kind, code, a, b, metadata, edit) ==>
              Signed(r, kind, code, edit) && r.metadata == metadata && FieldOf(r.verb) == FIELD_ACTIVE
  {
    VerbsDiffer();
  }

  /** A retirement reads from "true" to "false", a restoration the other way round. */
  lemma ActivationIsTold(kind: string, code: string, a: bool, b: bool, metadata: map<string, Json>, edit: Edit)
    requires a != b
    ensures var records := ActivationRecords(kind, code, a, b, metadata, edit);
            && |records| == 1
            && (records[0].verb, records[0].fromValue, records[0].toValue)
               == if b then ("REACTIVATED", "false", "true") else ("DEACTIVATED", "true", "false")
  {
  }

  /** Every record is signed, and those about an edited person name the field that moved. */
  lemma RecordsAreSigned(a: Member, b: Member, edit: Edit)
    ensures forall r :: r in MemberDiff(a, b, edit) ==>
              Signed(r, ENTITY_MEMBER, a.code, edit) && r.metadata == map["field" := JText(FieldOf(r.verb))]
  {
    var changes := Changes(a, b);
    ChangeRecordsAreSigned(a.code, changes, edit);
    ActivationRecordsAreSigned(ENTITY_MEMBER, a.code, a.active, b.active, AboutField(FIELD_ACTIVE), edit);
  }

  lemma OtherRecordsAreSigned(m: Member, a: Role, b: Role, edit: Edit)
    ensures Signed(MemberCreated(m, edit), ENTITY_MEMBER, m.code, edit)
    ensures Signed(PasswordRecord(m.code, edit), ENTITY_MEMBER, m.code, edit)
    ensures var r := PasswordRecord(m.code, edit);
            r.fromValue == r.toValue == "" && r.metadata == map["self_service" := JBool(edit.actor == m.code)]
    ensures Signed(RoleCreated(a, edit), ENTITY_ROLE, a.code, edit)
    ensures forall r :: r in RoleDiff(a, b, edit) ==> Signed(r, ENTITY_ROLE, a.code, edit)
  {
  }

  // --- What a command does --------------------------------------------------------------------------

  /** A field not sent, or sent as null, is left alone, but for the role, which null takes away. */
  lemma EditsDoWhatIsAsked(m: Member, c: UpdateMemberCommand)
    ensures var b := Edited(m, c);
            && b.code == m.code && b.hasPassword == m.hasPassword
            && (forall v :: c.alias == Sent(Some(v)) ==> b.alias == v)
            && (c.alias.Absent? || c.alias.value.None? ==> b.alias == m.alias)
            && (forall v :: c.capacity == Sent(Some(v)) ==> b.capacity == v)
            && (c.capacity.Absent? || c.capacity.value.None? ==> b.capacity == m.capacity)
            && (forall v :: c.active == Sent(Some(v)) ==> b.active == v)
            && (c.active.Absent? || c.active.value.None? ==> b.active == m.active)
            && (c.role.Absent? ==> b.role == m.role) && (c.role.Sent? ==> b.role == c.role.value)
  {
  }

  lemma RoleEditsDoWhatIsAsked(r: Role, c: UpdateRoleCommand)
    ensures var b := EditedRole(r, c);
            && b.code == r.code && b.order == r.order
            && (forall v :: c.alias == Sent(Some(v)) ==> b.alias == v)
            && (c.alias.Absent? || c.alias.value.None? ==> b.alias == r.alias)
            && (forall v :: c.active == Sent(Some(v)) ==> b.active == v)
            && (c.active.Absent? || c.active.value.None? ==> b.active == r.active)
  {
  }

  /** Exactly when an edit is refused, and by which rule first: nobody retires their own account. */
  lemma EditRefusedExactlyWhen(members: map<string, Member>, roles: map<string, Role>, c: UpdateMemberCommand,
                               actor: string)
    ensures var refusal := UpdateRefusal(members, roles, c, actor);
            && (c.code !in members <==> refusal == Some(MemberNotFound(c.code)))
            && (c.code in members && c.code == actor && c.active.Sent? && c.active.value == Some(false)
                <==> refusal == Some(CannotDeactivateSelf(c.code)))
            && (refusal.None? ==> c.code in members && forall role :: c.role == Sent(Some(role)) ==> role in roles)
            && (refusal.Some? && refusal.value.RoleNotFound? ==>
                  c.role == Sent(Some(refusal.value.code)) && refusal.value.code !in roles)
            && (refusal.Some? ==> refusal.value.MemberNotFound? || refusal.value.CannotDeactivateSelf?
                                  || refusal.value.RoleNotFound?)
  {
  }

  lemma RolesPrintApart(a: Option<string>, b: Option<string>)
    requires a != Some("") && b != Some("")
    ensures OrEmpty(a) == OrEmpty(b) <==> a == b
  {
  }

  // --- The tables ---------------------------------------------------------------------------------------

  function Standing<T>(table: map<string, T>, code: string): Story<T> {
    if code in table then Present(table[code]) else Nobody
  }

  function RoleStanding(table: map<string, Role>, code: string): Story<RoleFacts> {
    if code in table then Present(RoleFacts(table[code].alias, table[code].active)) else Nobody
  }

  /** The trail, read strictly from its beginning, tells of every code exactly what the tables hold. */
  ghost predicate Replays(records: seq<Record>, members: map<string, Member>, roles: map<string, Role>) {
    && (forall code :: MemberStory(Nobody, records, code) == Standing(members, code))
    && (forall code :: RoleStory(Nobody, records, code) == RoleStanding(roles, code))
  }

  ghost predicate Keyed(members: map<string, Member>, roles: map<string, Role>) {
    && (forall code :: code in members ==>
          members[code].code == code && (members[code].role.Some? ==> members[code].role.value in roles))
    && (forall code :: code in roles ==> roles[code].code == code && code != "")
  }

  lemma MemberEditReplays(records: seq<Record>, members: map<string, Member>, roles: map<string, Role>,
                        b: Member, edit: Edit)
    requires Replays(records, members, roles) && Keyed(members, roles)
    requires b.code in members && members[b.code].hasPassword == b.hasPassword && Classified(b)
    ensures Replays(records + MemberDiff(members[b.code], b, edit), members[b.code := b], roles)
  {
    var diff := MemberDiff(members[b.code], b, edit);
    assert About(diff, ENTITY_MEMBER, b.code);
    KindsDiffer();
    forall code ensures MemberStory(Nobody, records + diff, code) == Standing(members[b.code := b], code) {
      StoryGoesOn(Nobody, records, diff, code);
      if code == b.code {
        MemberDiffReplays(members[b.code], b, edit);
      } else {
        OtherStories(Standing(members, code), diff, ENTITY_MEMBER, b.code, code);
      }
    }
    forall code ensures RoleStory(Nobody, records + diff, code) == RoleStanding(roles, code) {
      RoleStoryGoesOn(Nobody, records, diff, code);
      OtherRoleStories(RoleStanding(roles, code), diff, ENTITY_MEMBER, b.code, code);
    }
  }

  lemma PasswordResetReplays(records: seq<Record>, members: map<string, Member>, roles: map<string, Role>,
                        who: string, edit: Edit)
    requires Replays(records, members, roles) && who in members && members[who].code == who
    ensures Replays(records + [PasswordRecord(who, edit)], members[who := members[who].(hasPassword := true)], roles)
  {
    var r, b := PasswordRecord(who, edit), members[who].(hasPassword := true);
    KindsDiffer();
    VerbsDiffer();
    assert About([r], ENTITY_MEMBER, who);
    forall code ensures MemberStory(Nobody, records + [r], code) == Standing(members[who := b], code) {
      StoryGoesOn(Nobody, records, [r], code);
      if code == who {
        OneRecord(Present(members[who]), r, who);
      } else {
        OtherStories(Standing(members, code), [r], ENTITY_MEMBER, who, code);
      }
    }
    forall code ensures RoleStory(Nobody, records + [r], code) == RoleStanding(roles, code) {
      RoleStoryGoesOn(Nobody, records, [r], code);
      OtherRoleStories(RoleStanding(roles, code), [r], ENTITY_MEMBER, who, code);
    }
  }

  lemma MemberCreationReplays(records: seq<Record>, members: map<string, Member>, roles: map<string, Role>,
                        m: Member, edit: Edit)
    requires Replays(records, members, roles) && m.code !in members && m.active && Classified(m)
    ensures Replays(records + [MemberCreated(m, edit)], members[m.code := m], roles)
  {
    var r := MemberCreated(m, edit);
    KindsDiffer();
    assert About([r], ENTITY_MEMBER, m.code);
    forall code ensures MemberStory(Nobody, records + [r], code) == Standing(members[m.code := m], code) {
      StoryGoesOn(Nobody, records, [r], code);
      if code == m.code {
        MetadataKeysDiffer();
        OneRecord(Nobody, r, code);
      } else {
        OtherStories(Standing(members, code), [r], ENTITY_MEMBER, m.code, code);
      }
    }
    forall code ensures RoleStory(Nobody, records + [r], code) == RoleStanding(roles, code) {
      RoleStoryGoesOn(Nobody, records, [r], code);
      OtherRoleStories(RoleStanding(roles, code), [r], ENTITY_MEMBER, m.code, code);
    }
  }

  lemma MetadataKeysDiffer()
    ensures FIELD_ROLE != FIELD_CAPACITY && FIELD_ROLE != FIELD_PASSWORD && FIELD_CAPACITY != FIELD_PASSWORD
  {
  }

  lemma RoleEditReplays(records: seq<Record>, members: map<string, Member>, roles: map<string, Role>,
                        b: Role, edit: Edit)
    requires Replays(records, members, roles) && Keyed(members, roles) && b.code in roles
    ensures Replays(records + RoleDiff(roles[b.code], b, edit), members, roles[b.code := b])
  {
    var diff := RoleDiff(roles[b.code], b, edit);
    assert About(diff, ENTITY_ROLE, b.code);
    KindsDiffer();
    forall code ensures RoleStory(Nobody, records + diff, code) == RoleStanding(roles[b.code := b], code) {
      RoleStoryGoesOn(Nobody, records, diff, code);
      if code == b.code {
        RoleDiffReplays(roles[b.code], b, edit);
      } else {
        OtherRoleStories(RoleStanding(roles, code), diff, ENTITY_ROLE, b.code, code);
      }
    }
    forall code ensures MemberStory(Nobody, records + diff, code) == Standing(members, code) {
      StoryGoesOn(Nobody, records, diff, code);
      OtherStories(Standing(members, code), diff, ENTITY_ROLE, b.code, code);
    }
  }

  lemma RoleCreationReplays(records: seq<Record>, members: map<string, Member>, roles: map<string, Role>,
                        r: Role, edit: Edit)
    requires Replays(records, members, roles) && r.code !in roles && r.active
    ensures Replays(records + [RoleCreated(r, edit)], members, roles[r.code := r])
  {
    var created := RoleCreated(r, edit);
    KindsDiffer();
    assert About([created], ENTITY_ROLE, r.code);
    forall code ensures RoleStory(Nobody, records + [created], code) == RoleStanding(roles[r.code := r], code) {
      RoleStoryGoesOn(Nobody, records, [created], code);
      if code == r.code {
        OneRoleRecord(Nobody, created, code);
      } else {
        OtherRoleStories(RoleStanding(roles, code), [created], ENTITY_ROLE, r.code, code);
      }
    }
    forall code ensures MemberStory(Nobody, records + [created], code) == Standing(members, code) {
      StoryGoesOn(Nobody, records, [created], code);
      OtherStories(Standing(members, code), [created], ENTITY_ROLE, r.code, code);
    }
  }

  class RosterTables {
    var members: map<string, Member>
    var roles: map<string, Role>
    var outbox: seq<Draft>
    const trail: ActivityTrail

    ghost predicate Valid()
      reads this, trail
    {
      && Keyed(members, roles)
      && Replays(trail.records, members, roles)
      && forall d :: d in outbox ==> IsRosterEvent(d)
    }

    constructor ()
      ensures Valid() && members == map[] && roles == map[] && fresh(trail)
    {
      members := map[];
      roles := map[];
      outbox := [];
      trail := new ActivityTrail();
    }

    /** Appends records the trail cannot refuse: an open vocabulary and no manual origin. */
    method WriteAll(records: seq<Record>)
      requires forall r :: r in records ==> Refusal(r).None?
      modifies trail
      ensures trail.records == old(trail.records) + records
    {
      for i := 0 to |records|
        invariant trail.records == old(trail.records) + records[..i]
      {
        var error := trail.Write(records[i]);
        assert records[..i + 1] == records[..i] + [records[i]];
      }
      assert records[..|records|] == records;
    }

    method CreateMember(command: CreateMemberCommand, slug: string, password: PasswordCheck, edit: Edit)
      returns (r: Result<Member, RosterError>)
      requires Valid()
      modifies this, trail
      ensures Valid() && roles == old(roles)
      ensures r.Err? ==> members == old(members) && outbox == old(outbox) && trail.records == old(trail.records)
      ensures r.Ok? ==>
                var m := r.value;
                && m.code !in old(members)
                && (if command.code != "" then m.code == command.code else Allocated(m.code, slug))
                && m == Member(m.code, command.alias, command.role, command.capacity, true, password.Accepted?)
                && members == old(members)[m.code := m]
                && trail.records == old(trail.records) + [MemberCreated(m, edit)]
                && outbox == old(outbox) + [CreatedEvent(m, edit)]
      ensures r.Ok? <==> !(command.code != "" && command.code in old(members))
                         && (command.role.Some? ==> command.role.value in old(roles)) && !password.Rejected?
      ensures command.code != "" && command.code in old(members) ==> r == Err(DuplicateMemberCode(command.code))
      ensures r.Err? && (command.code == "" || command.code !in old(members)) ==>
                r.error == if command.role.Some? && command.role.value !in old(roles)
                           then RoleNotFound(command.role.value) else PasswordRejected
    {
      var code := command.code;
      if code == "" {
        code := AllocateCode(members.Keys, slug);
      }
      if code in members {
        return Err(DuplicateMemberCode(code));
      }
      if command.role.Some? && command.role.value !in roles {
        return Err(RoleNotFound(command.role.value));
      }
      if password.Rejected? {
        return Err(PasswordRejected);
      }
      var member := Member(code, command.alias, command.role, command.capacity, true, password.Accepted?);
      MemberCreationReplays(trail.records, members, roles, member, edit);
      AnnouncementsAreRosterEvents(member, member, edit);
      members := members[code := member];
      WriteAll([MemberCreated(member, edit)]);
      outbox := outbox + [CreatedEvent(member, edit)];
      r := Ok(member);
    }

    /** `_apply_attributes`: what the command asks for, and what that moves. */
    method ApplyAttributes(before: Member, command: UpdateMemberCommand)
      returns (r: Result<Member, RosterError>, changed: seq<Change>)
      requires Keyed(members, roles) && before.code in members && members[before.code] == before
      ensures var missing := command.role.Sent? && command.role.value.Some? && command.role.value.value !in roles;
              r == if missing then Err(RoleNotFound(command.role.value.value))
                   else Ok(Edited(before, command).(active := before.active))
      ensures r.Ok? ==> changed == Changes(before, r.value)
    {
      var member := before;
      changed := [];
      if command.alias.Sent? && command.alias.value.Some? && command.alias.value.value != member.alias {
        changed := changed + [Change(FIELD_LABEL, member.alias, command.alias.value.value)];
        member := member.(alias := command.alias.value.value);
      }
      assert member == before.(alias := Requested(command.alias, before.alias));
      assert changed == AliasChange(before, member);
      if command.role.Sent? {
        var role := command.role.value;
        if role.Some? && role.value !in roles {
          return Err(RoleNotFound(role.value)), [];
        }
        RolesPrintApart(member.role, role);
        if OrEmpty(member.role) != OrEmpty(role) {
          changed := changed + [Change(FIELD_ROLE, OrEmpty(member.role), OrEmpty(role))];
          member := member.(role := role);
        }
      }
      assert member.role == Edited(before, command).role;
      assert changed == AliasChange(before, member) + RoleChange(before, member);
      if command.capacity.Sent? && command.capacity.value.Some? && command.capacity.value.value != member.capacity {
        var points := command.capacity.value.value;
        changed := changed + [Change(FIELD_CAPACITY, PrintNumber(member.capacity), PrintNumber(points))];
        member := member.(capacity := points);
      }
      r := Ok(member);
    }

    /** `_record_attribute_changes`: one record per moved attribute, one event for the set. */
    method RecordAttributeChanges(member: Member, changed: seq<Change>, edit: Edit)
      modifies this`outbox, trail
      ensures trail.records == old(trail.records) + ChangeRecords(member.code, changed, edit)
      ensures outbox == old(outbox) + [UpdatedEvent(member, changed, edit)]
    {
      WriteAll(ChangeRecords(member.code, changed, edit));
      outbox := outbox + [UpdatedEvent(member, changed, edit)];
    }

    /** `_record_activation_change`. */
    method RecordActivationChange(member: Member, edit: Edit)
      modifies this`outbox, trail
      ensures trail.records == old(trail.records)
                               + ActivationRecords(ENTITY_MEMBER, member.code, !member.active, member.active,
                                                   AboutField(FIELD_ACTIVE), edit)
      ensures outbox == old(outbox) + [ActivationEvent(member, edit)]
    {
      WriteAll([Moved(ENTITY_MEMBER, member.code, ActivationVerb(member.active),
                      BoolText(!member.active), BoolText(member.active), AboutField(FIELD_ACTIVE), edit)]);
      outbox := outbox + [ActivationEvent(member, edit)];
    }

    /** The row, one record per moved fact, and the events; nothing at all when nothing moved. */
    method SaveEdit(ghost before: Member, member: Member, changed: seq<Change>, activationChanged: bool, edit: Edit)
      requires member.code == before.code && member.hasPassword == before.hasPassword && member.code in members
               && members[member.code] == before
      requires changed == Changes(before, member) && activationChanged == (before.active != member.active)
      modifies this`members, this`outbox, trail
      ensures members == old(members)[member.code := member]
      ensures trail.records == old(trail.records) + MemberDiff(before, member, edit)
      ensures outbox == old(outbox) + Announcements(before, member, edit)
    {
      if changed == [] && !activationChanged {
        assert member == before;
        assert members[member.code := member] == members;
        return;
      }
      members := members[member.code := member];
      if changed != [] {
        RecordAttributeChanges(member, changed, edit);
      }
      if activationChanged {
        RecordActivationChange(member, edit);
      }
    }

    /** The edit as a whole keeps the tables told by their trail. */
    method StoreEdit(ghost before: Member, member: Member, changed: seq<Change>, activationChanged: bool, edit: Edit)
      requires Valid() && before.code in members && members[before.code] == before
      requires member.code == before.code && member.hasPassword == before.hasPassword
      requires member.role.Some? ==> member.role.value in roles
      requires changed == Changes(before, member) && activationChanged == (before.active != member.active)
      modifies this`members, this`outbox, trail
      ensures Valid() && members == old(members)[before.code := member]
      ensures trail.records == old(trail.records) + MemberDiff(before, member, edit)
      ensures outbox == old(outbox) + Announcements(before, member, edit)
    {
      MemberEditReplays(trail.records, members, roles, member, edit);
      AnnouncementsAreRosterEvents(before, member, edit);
      SaveEdit(before, member, changed, activationChanged, edit);
    }

    /**
      A partial edit of a person: refused edits change nothing, and an edit that goes through leaves on
      the trail exactly the difference between the person before and after.
    */
    method UpdateMember(command: UpdateMemberCommand, edit: Edit) returns (r: Result<Member, RosterError>)
      requires Valid()
      modifies this, trail
      ensures Valid() && roles == old(roles)
      ensures var refusal := UpdateRefusal(old(members), old(roles), command, edit.actor);
              if refusal.Some? then
                r == Err(refusal.value) && members == old(members) && outbox == old(outbox)
                && trail.records == old(trail.records)
              else
                var before := old(members)[command.code];
                var after := Edited(before, command);
                && r == Ok(after) && members == old(members)[command.code := after]
                && trail.records == old(trail.records) + MemberDiff(before, after, edit)
                && outbox == old(outbox) + Announcements(before, after, edit)
    {
      if command.code !in members {
        return Err(MemberNotFound(command.code));
      }
      var before := members[command.code];
      if command.active == Sent(Some(false)) && command.code == edit.actor {
        return Err(CannotDeactivateSelf(command.code));
      }
      var applied, changed := ApplyAttributes(before, command);
      if applied.Err? {
        return Err(applied.error);
      }
      var member := applied.value;
      assert applied.value == Edited(before, command).(active := before.active);
      var activationChanged := command.active.Sent? && command.active.value.Some?
                               && command.active.value.value != member.active;
      if activationChanged {
        member := member.(active := command.active.value.value);
      }
      StoreEdit(before, member, changed, activationChanged, edit);
      r := Ok(member);
    }

    /** An administrative reset: on the trail, never on the bus. */
    method SetMemberPassword(code: string, accepted: bool, edit: Edit) returns (r: Result<Member, RosterError>)
      requires Valid()
      modifies this, trail
      ensures Valid() && roles == old(roles) && outbox == old(outbox)
      ensures code !in old(members) ==> r == Err(MemberNotFound(code))
      ensures code in old(members) && !accepted ==> r == Err(PasswordRejected)
      ensures r.Err? ==> members == old(members) && trail.records == old(trail.records)
      ensures r.Ok? ==>
                && r.value == old(members)[code].(hasPassword := true) && members == old(members)[code := r.value]
                && trail.records == old(trail.records) + [PasswordRecord(code, edit)]
    {
      if code !in members {
        return Err(MemberNotFound(code));
      }
      if !accepted {
        return Err(PasswordRejected);
      }
      PasswordResetReplays(trail.records, members, roles, code, edit);
      members := members[code := members[code].(hasPassword := true)];
      WriteAll([PasswordRecord(code, edit)]);
      r := Ok(members[code]);
    }

    /** A new role goes last: its order is one above the highest there is, or zero. */
    method CreateRole(code: string, name: string, edit: Edit) returns (r: Result<Role, RosterError>)
      requires Valid() && code != ""
      modifies this, trail
      ensures Valid() && members == old(members) && outbox == old(outbox)
      ensures code in old(roles) ==>
              r == Err(DuplicateRoleCode(code)) && roles == old(roles) && trail.records == old(trail.records)
      ensures code !in old(roles) ==>
                && r.Ok? && r.value == Role(code, name, r.value.order, true)
                && (forall c :: c in old(roles) ==> old(roles)[c].order < r.value.order)
                && (if old(roles) == map[] then r.value.order == 0
                    else exists c :: c in old(roles) && old(roles)[c].order + 1 == r.value.order)
                && roles == old(roles)[code := r.value]
                && trail.records == old(trail.records) + [RoleCreated(r.value, edit)]
    {
      if code in roles {
        return Err(DuplicateRoleCode(code));
      }
      var order := 0;
      if roles != map[] {
        var last := LastRole();
        order := roles[last].order + 1;
      }
      var role := Role(code, name, order, true);
      RoleCreationReplays(trail.records, members, roles, role, edit);
      roles := roles[code := role];
      WriteAll([RoleCreated(role, edit)]);
      r := Ok(role);
    }

    method LastRole() returns (last: string)
      requires roles != map[]
      ensures last in roles && forall c :: c in roles ==> roles[c].order <= roles[last].order
    {
      last :| last in roles;
      var rest := roles.Keys - {last};
      while rest != {}
        invariant last in roles && rest <= roles.Keys
        invariant forall c :: c in roles && c !in rest ==> roles[c].order <= roles[last].order
        decreases |rest|
      {
        var c :| c in rest;
        if roles[c].order > roles[last].order {
          last := c;
        }
        rest := rest - {c};
      }
    }

    method UpdateRole(command: UpdateRoleCommand, edit: Edit) returns (r: Result<Role, RosterError>)
      requires Valid()
      modifies this, trail
      ensures Valid() && members == old(members) && outbox == old(outbox)
      ensures if command.code !in old(roles) then
                r == Err(RoleNotFound(command.code)) && roles == old(roles) && trail.records == old(trail.records)
              else
                var before := old(roles)[command.code];
                var after := EditedRole(before, command);
                && r == Ok(after) && roles == old(roles)[command.code := after]
                && trail.records == old(trail.records) + RoleDiff(before, after, edit)
    {
      if command.code !in roles {
        return Err(RoleNotFound(command.code));
      }
      var role := roles[command.code];
      ghost var before := role;
      var records: seq<Record> := [];
      if command.alias.Sent? && command.alias.value.Some? && command.alias.value.value != role.alias {
        records := records
                   + [Moved(ENTITY_ROLE, role.code, "RENAMED", role.alias, command.alias.value.value, map[], edit)];
        role := role.(alias := command.alias.value.value);
      }
      if command.active.Sent? && command.active.value.Some? && command.active.value.value != role.active {
        role := role.(active := command.active.value.value);
        records := records + [Moved(ENTITY_ROLE, role.code, ActivationVerb(role.active),
                                    BoolText(!role.active), BoolText(role.active), map[], edit)];
      }
      assert role == EditedRole(before, command) && records == RoleDiff(before, role, edit);
      RoleEditReplays(trail.records, members, roles, role, edit);
      if records == [] {
        assert role == before && roles[command.code := role] == roles;
        return Ok(role);
      }
      roles := roles[command.code := role];
      WriteAll(records);
      r := Ok(role);
    }
  }
}
