/** The stream's project filter and the bus's routing answer the same question. */
module RoutingFilter {
  import opened Prelude
  import opened Text
  import opened Catalog
  import opened Envelopes
  import opened Codes
  import opened EventStream
  import opened Sse

  const BLOCKER_CODE_PREFIX := "BLK"
  const NOTE_CODE_PREFIX := "NOTE"
  const SEQUENCE_CODE_DIGITS: nat := 4
  const CLOCK_ENTITY_ID := "system"

  /** What a mint or a sequence counts with: from one up. */
  type Serial = n: nat | n >= 1 witness 1

  function ProjectCode(n: Serial): string {
    Minted(PROJECT_CODE_PREFIX, PROJECT_CODE_DIGITS, n)
  }

  function TaskCode(n: Serial, m: Serial): string {
    Minted(TaskPrefix(ProjectCode(n)), TASK_CODE_DIGITS, m)
  }

  function BlockerCode(k: Serial): string {
    Minted(BLOCKER_CODE_PREFIX + "-", SEQUENCE_CODE_DIGITS, k)
  }

  function NoteCode(k: Serial): string {
    Minted(NOTE_CODE_PREFIX + "-", SEQUENCE_CODE_DIGITS, k)
  }

  function PayloadProject(env: Envelope): Json {
    if PROJECT_CODE_FIELD in env.payload then env.payload[PROJECT_CODE_FIELD] else JNull
  }

  ghost predicate NamesProject(env: Envelope, n: Serial) {
    PayloadProject(env) == JText(ProjectCode(n))
  }

  /** An event about a project is addressed by its code and carries no other. */
  ghost predicate ProjectEvent(env: Envelope, n: Serial) {
    env.entity == EntityRef(ENTITY_PROJECT, ProjectCode(n)) && PROJECT_CODE_FIELD !in env.payload
  }

  /** An event about a task is addressed by a code of its project, whose code the payload carries. */
  ghost predicate TaskEvent(env: Envelope, n: Serial, m: Serial) {
    env.entity == EntityRef(ENTITY_TASK, TaskCode(n, m)) && NamesProject(env, n)
  }

  /** Blockers and notes carry codes of their own sequences, and the payload their project's. */
  ghost predicate AttachedEvent(env: Envelope, n: Serial, k: Serial) {
    && (env.entity == EntityRef(ENTITY_BLOCKER, BlockerCode(k)) || env.entity == EntityRef(ENTITY_NOTE, NoteCode(k)))
    && NamesProject(env, n)
  }

  /** The roster and the clock concern no project; a person's code may be any text. */
  ghost predicate UnscopedEvent(env: Envelope) {
    && (env.entity.kind == ENTITY_MEMBER || env.entity == EntityRef(ENTITY_CLOCK, CLOCK_ENTITY_ID))
    && PROJECT_CODE_FIELD !in env.payload
  }

  ghost predicate WellAddressed(env: Envelope) {
    || (exists n: Serial :: ProjectEvent(env, n))
    || (exists n: Serial, m: Serial :: TaskEvent(env, n, m))
    || (exists n: Serial, k: Serial :: AttachedEvent(env, n, k))
    || UnscopedEvent(env)
  }

  lemma KindsDiffer()
    ensures ENTITY_TASK != ENTITY_PROJECT && ENTITY_BLOCKER != ENTITY_PROJECT && ENTITY_NOTE != ENTITY_PROJECT
    ensures ENTITY_MEMBER != ENTITY_PROJECT && ENTITY_CLOCK != ENTITY_PROJECT
    ensures ENTITY_MEMBER !in { ENTITY_TASK, ENTITY_BLOCKER, ENTITY_NOTE, ENTITY_CLOCK }
  {
  }

  function Digits(n: Serial): (d: string)
    ensures AllDigits(d) && d != "" && ProjectCode(n) == PROJECT_CODE_PREFIX + d
  {
    ZeroFill(PrintNumber(n), PROJECT_CODE_DIGITS)
  }

  /** Does the filter for `p` let this id through? */
  predicate Extends(id: string, p: string) {
    id == p || StartsWith(id, p + "-")
  }

  /** A code of a prefix, a dash and digits has one dash to be cut at. */
  lemma OneDash(prefix: string, digits: string, p: string)
    requires AllDigits(digits) && '-' !in prefix && StartsWith(prefix + "-" + digits, p + "-")
    ensures p == prefix
  {
    var code, head := prefix + "-" + digits, p + "-";
    assert code[|p|] == head[|p|] == '-';
    assert forall i :: |prefix| < i < |code| ==> code[i] == digits[i - |prefix| - 1];
    assert p == head[..|p|] == code[..|p|];
    assert code[..|prefix|] == prefix;
  }

  function SequenceDigits(k: Serial): (d: string)
    ensures AllDigits(d)
    ensures BlockerCode(k) == BLOCKER_CODE_PREFIX + "-" + d && NoteCode(k) == NOTE_CODE_PREFIX + "-" + d
  {
    ZeroFill(PrintNumber(k), SEQUENCE_CODE_DIGITS)
  }

  lemma ProjectExtends(n: Serial, p: string)
    ensures Extends(ProjectCode(n), p) <==> p == "PRJ" || p == ProjectCode(n)
  {
    assert ProjectCode(n) == "PRJ" + "-" + Digits(n);
    if StartsWith(ProjectCode(n), p + "-") { OneDash("PRJ", Digits(n), p); }
    assert ProjectCode(n)[..4] == "PRJ" + "-";
  }

  lemma BlockerExtends(k: Serial, p: string)
    ensures Extends(BlockerCode(k), p) <==> p == BLOCKER_CODE_PREFIX || p == BlockerCode(k)
  {
    if StartsWith(BlockerCode(k), p + "-") { OneDash(BLOCKER_CODE_PREFIX, SequenceDigits(k), p); }
    assert BlockerCode(k)[..4] == BLOCKER_CODE_PREFIX + "-";
  }

  lemma NoteExtends(k: Serial, p: string)
    ensures Extends(NoteCode(k), p) <==> p == NOTE_CODE_PREFIX || p == NoteCode(k)
  {
    if StartsWith(NoteCode(k), p + "-") { OneDash(NOTE_CODE_PREFIX, SequenceDigits(k), p); }
    assert NoteCode(k)[..5] == NOTE_CODE_PREFIX + "-";
  }

  lemma PrefixMembers(text: string, prefix: string)
    ensures StartsWith(text, prefix) ==> forall c :: c in prefix ==> c in text
  {
  }

  lemma ClockExtends(p: string)
    ensures Extends(CLOCK_ENTITY_ID, p) <==> p == CLOCK_ENTITY_ID
  {
    PrefixMembers(CLOCK_ENTITY_ID, p + "-");
    assert '-' in p + "-" && '-' !in CLOCK_ENTITY_ID;
  }

  lemma TaskStartsWith(n: Serial, m: Serial, p: string)
    requires StartsWith(TaskCode(n, m), p + "-")
    ensures p == "PRJ" || p == ProjectCode(n)
  {
    var d, tail := Digits(n), ZeroFill(PrintNumber(m), TASK_CODE_DIGITS);
    var code, head := "PRJ-" + d + "-T" + tail, p + "-";
    assert TaskCode(n, m) == code;
    assert code[|p|] == head[|p|] == '-';
    assert forall i :: 4 <= i < 4 + |d| ==> code[i] == d[i - 4];
    assert forall i :: 6 + |d| <= i < |code| ==> code[i] == tail[i - 6 - |d|];
    assert p == head[..|p|] == code[..|p|];
    assert code[..4 + |d|] == "PRJ-" + d;
  }

  /** A task code extends itself, its own project's code and the bare prefix, and nothing else. */
  lemma TaskExtendsItsProject(n: Serial, m: Serial, p: string)
    ensures Extends(TaskCode(n, m), p) <==> p == "PRJ" || p == ProjectCode(n) || p == TaskCode(n, m)
  {
    if StartsWith(TaskCode(n, m), p + "-") { TaskStartsWith(n, m, p); }
    var tail := ZeroFill(PrintNumber(m), TASK_CODE_DIGITS);
    assert TaskCode(n, m) == "PRJ" + "-" + (Digits(n) + "-T" + tail);
    assert TaskCode(n, m)[..4] == "PRJ" + "-";
    assert TaskCode(n, m) == ProjectCode(n) + "-" + ("T" + tail);
    assert TaskCode(n, m)[..|ProjectCode(n)| + 1] == ProjectCode(n) + "-";
  }

  // --- Whole codes ----------------------------------------------------------------------------------

  ghost predicate IsTaskCode(p: string) {
    exists n: Serial, m: Serial :: p == TaskCode(n, m)
  }

  ghost predicate IsBlockerCode(p: string) {
    exists k: Serial :: p == BlockerCode(k)
  }

  ghost predicate IsNoteCode(p: string) {
    exists k: Serial :: p == NoteCode(k)
  }

  /** The id of an event that is routed elsewhere, or nowhere. */
  ghost predicate Leaks(p: string) {
    p in { "PRJ", BLOCKER_CODE_PREFIX, NOTE_CODE_PREFIX } || IsTaskCode(p) || IsBlockerCode(p) || IsNoteCode(p)
  }

  /** A project's code is none of those. */
  lemma ProjectCodesDoNotLeak(n: Serial)
    ensures !Leaks(ProjectCode(n))
  {
    var p := ProjectCode(n);
    assert p == "PRJ-" + Digits(n) && p[0] == 'P' && p[3] == '-';
    forall a: Serial, b: Serial ensures p != TaskCode(a, b) {
      var tail := ZeroFill(PrintNumber(b), TASK_CODE_DIGITS);
      assert TaskCode(a, b) == "PRJ-" + (Digits(a) + "-T" + tail);
      assert TaskCode(a, b)[4 + |Digits(a)|] == '-';
      assert forall i :: 4 <= i < |p| ==> p[i] == Digits(n)[i - 4];
    }
    forall k: Serial ensures p != BlockerCode(k) && p != NoteCode(k) {
      assert BlockerCode(k)[0] == 'B' && NoteCode(k)[0] == 'N';
    }
  }

  // --- The filter and the routing -------------------------------------------------------------------

  /** The filter lets the event through exactly when the bus routes it to the project asked for. */
  predicate Agrees(env: Envelope, p: string) {
    MatchesProject(JText(env.entity.id), PayloadProject(env), Some(p)) <==> ProjectCodeOf(env) == Ok(p)
  }

  /** The roster and the clock are routed nowhere: the two agree unless their id is let through. */
  lemma UnscopedAgrees(env: Envelope, p: string)
    requires UnscopedEvent(env)
    ensures Agrees(env, p) <==> !Extends(env.entity.id, p)
  {
    KindsDiffer();
  }

  lemma ProjectEventAgrees(env: Envelope, n: Serial, p: string)
    requires ProjectEvent(env, n) && !Leaks(p)
    ensures Agrees(env, p)
  {
    ProjectExtends(n, p);
  }

  lemma TaskEventAgrees(env: Envelope, n: Serial, m: Serial, p: string)
    requires TaskEvent(env, n, m) && !Leaks(p)
    ensures Agrees(env, p)
  {
    KindsDiffer();
    TaskExtendsItsProject(n, m, p);
    assert Digits(n) != "";
  }

  lemma AttachedEventAgrees(env: Envelope, n: Serial, k: Serial, p: string)
    requires AttachedEvent(env, n, k) && !Leaks(p)
    ensures Agrees(env, p)
  {
    KindsDiffer();
    BlockerExtends(k, p);
    NoteExtends(k, p);
    assert Digits(n) != "";
  }

  lemma ScopedAgrees(env: Envelope, p: string)
    requires WellAddressed(env) && !UnscopedEvent(env) && !Leaks(p)
    ensures Agrees(env, p)
  {
    if n: Serial :| ProjectEvent(env, n) {
      ProjectEventAgrees(env, n, p);
    } else if n: Serial, m: Serial :| TaskEvent(env, n, m) {
      TaskEventAgrees(env, n, m, p);
    } else {
      var n: Serial, k: Serial :| AttachedEvent(env, n, k);
      AttachedEventAgrees(env, n, k, p);
    }
  }

  /**
    For any minted code, an event passes the filter exactly when the bus routes it to that project, unless
    it is about a person whose code was pinned to that project's or to one that extends it.
  */
  lemma FilterAgreesWithRouting(env: Envelope, p: Serial)
    requires WellAddressed(env)
    ensures Agrees(env, ProjectCode(p))
            <==> !(env.entity.kind == ENTITY_MEMBER && Extends(env.entity.id, ProjectCode(p)))
  {
    KindsDiffer();
    ProjectCodesDoNotLeak(p);
    if UnscopedEvent(env) {
      UnscopedAgrees(env, ProjectCode(p));
      assert ProjectCode(p)[0] == 'P';
      ClockExtends(ProjectCode(p));
    } else {
      ScopedAgrees(env, ProjectCode(p));
      assert env.entity.kind != ENTITY_MEMBER;
    }
  }

  // --- Which filters agree ------------------------------------------------------------------------

  /** Agreement on every event there can be, when these are the people of the roster. */
  ghost predicate AgreesEverywhere(p: string, people: set<string>) {
    forall env | WellAddressed(env) && Among(env, people) :: Agrees(env, p)
  }

  predicate Among(env: Envelope, people: set<string>) {
    env.entity.kind == ENTITY_MEMBER ==> env.entity.id in people
  }

  /** The filter lets through no event of the roster or the clock. */
  predicate Unheard(p: string, people: set<string>) {
    p != CLOCK_ENTITY_ID && forall code :: code in people ==> !Extends(code, p)
  }

  function Event(kind: string, id: string, payload: map<string, Json>): Envelope {
    Envelope(0, TOPIC_NOTE_ADDED, 0, "", 0, EntityRef(kind, id), payload, 1)
  }

  function NamingProject(n: Serial): map<string, Json> {
    map[PROJECT_CODE_FIELD := JText(ProjectCode(n))]
  }

  /** The bare prefixes let every project, every blocker and every note through. */
  lemma BarePrefixLeaks(p: string, people: set<string>)
    requires p in { "PRJ", BLOCKER_CODE_PREFIX, NOTE_CODE_PREFIX }
    ensures !AgreesEverywhere(p, people)
  {
    KindsDiffer();
    ProjectCodesDoNotLeak(1);
    if p == "PRJ" {
      var env := Event(ENTITY_PROJECT, ProjectCode(1), map[]);
      ProjectExtends(1, p);
      assert ProjectEvent(env, 1) && WellAddressed(env) && Among(env, people) && !Agrees(env, p);
    } else {
      var env := if p == BLOCKER_CODE_PREFIX then Event(ENTITY_BLOCKER, BlockerCode(1), NamingProject(1))
                 else Event(ENTITY_NOTE, NoteCode(1), NamingProject(1));
      BlockerExtends(1, p);
      NoteExtends(1, p);
      assert AttachedEvent(env, 1, 1) && WellAddressed(env) && Among(env, people) && !Agrees(env, p);
    }
  }

  /** A task's code lets that task's own events through, which are routed to its project. */
  lemma TaskCodeLeaks(n: Serial, m: Serial, people: set<string>)
    ensures !AgreesEverywhere(TaskCode(n, m), people)
  {
    var env := Event(ENTITY_TASK, TaskCode(n, m), NamingProject(n));
    KindsDiffer();
    assert Leaks(TaskCode(n, m));
    ProjectCodesDoNotLeak(n);
    assert TaskEvent(env, n, m) && WellAddressed(env) && Among(env, people) && !Agrees(env, TaskCode(n, m));
  }

  /** So does the code of a blocker or a note. */
  lemma AttachedCodeLeaks(k: Serial, people: set<string>)
    ensures !AgreesEverywhere(BlockerCode(k), people) && !AgreesEverywhere(NoteCode(k), people)
  {
    var blocker := Event(ENTITY_BLOCKER, BlockerCode(k), NamingProject(1));
    var note := Event(ENTITY_NOTE, NoteCode(k), NamingProject(1));
    KindsDiffer();
    assert Leaks(BlockerCode(k)) && Leaks(NoteCode(k));
    ProjectCodesDoNotLeak(1);
    assert AttachedEvent(blocker, 1, k) && WellAddressed(blocker) && !Agrees(blocker, BlockerCode(k));
    assert AttachedEvent(note, 1, k) && WellAddressed(note) && !Agrees(note, NoteCode(k));
  }

  /** And the code of a person, or the clock's. */
  lemma HeardLeaks(p: string, people: set<string>)
    requires !Unheard(p, people)
    ensures !AgreesEverywhere(p, people)
  {
    KindsDiffer();
    if p == CLOCK_ENTITY_ID {
      var env := Event(ENTITY_CLOCK, p, map[]);
      assert UnscopedEvent(env) && WellAddressed(env) && !Agrees(env, p);
    } else {
      var code :| code in people && Extends(code, p);
      var env := Event(ENTITY_MEMBER, code, map[]);
      UnscopedAgrees(env, p);
      assert WellAddressed(env) && Among(env, people) && !Agrees(env, p);
    }
  }

  /**
    Exactly which filter texts the stream and the bus agree on, over all events and for any roster: those
    that are no bare prefix and no task's, blocker's or note's code, and that no person's code extends.
  */
  lemma AgreesExactlyWhen(p: string, people: set<string>)
    requires p != ""
    ensures AgreesEverywhere(p, people) <==> Unheard(p, people) && !Leaks(p)
  {
    if !Unheard(p, people) {
      HeardLeaks(p, people);
    } else if p in { "PRJ", BLOCKER_CODE_PREFIX, NOTE_CODE_PREFIX } {
      BarePrefixLeaks(p, people);
    } else if n: Serial, m: Serial :| p == TaskCode(n, m) {
      TaskCodeLeaks(n, m, people);
    } else if k: Serial :| p == BlockerCode(k) || p == NoteCode(k) {
      AttachedCodeLeaks(k, people);
    } else {
      forall env | WellAddressed(env) && Among(env, people) ensures Agrees(env, p) {
        if UnscopedEvent(env) {
          UnscopedAgrees(env, p);
          ClockExtends(p);
        } else {
          ScopedAgrees(env, p);
        }
      }
    }
  }

  // --- The stream and the routing ---------------------------------------------------------------------

  /** The message is the envelope, as the fan-out publishes it. */
  predicate Publishes(m: Message, env: Envelope) {
    && m.Wire? && m.topic == JText(env.topic) && m.entityId == JText(env.entity.id)
    && m.payloadProject == PayloadProject(env)
  }

  /** Each envelope on the channel is well addressed, and none is about a person under the project's code. */
  ghost predicate Channel(messages: seq<Message>, envs: seq<Envelope>, p: Serial) {
    && |envs| == |messages|
    && forall i :: 0 <= i < |messages| && messages[i].Wire? ==>
         && Publishes(messages[i], envs[i]) && WellAddressed(envs[i])
         && !(envs[i].entity.kind == ENTITY_MEMBER && Extends(envs[i].entity.id, ProjectCode(p)))
  }

  /** The events with these topics that the bus routes to the project, in order. */
  function Routed(messages: seq<Message>, envs: seq<Envelope>, topics: set<string>, code: string):
    seq<EventStream.Event>
    requires |envs| == |messages|
  {
    if messages == [] then [] else
      var n := |messages| - 1;
      var before, m := Routed(messages[..n], envs[..n], topics, code), messages[n];
      if m.Wire? && envs[n].topic in topics && ProjectCodeOf(envs[n]) == Ok(code)
      then before + [EventStream.Event(envs[n].topic, LessLineFeeds(m.raw), m.id)] else before
  }

  lemma {:induction false} SeenIsRouted(messages: seq<Message>, envs: seq<Envelope>, topics: set<string>, p: Serial)
    requires Channel(messages, envs, p)
    ensures Seen(messages, topics, Some(ProjectCode(p))) == Routed(messages, envs, topics, ProjectCode(p))
  {
    if messages != [] {
      var n := |messages| - 1;
      SeenIsRouted(messages[..n], envs[..n], topics, p);
      if messages[n].Wire? {
        FilterAgreesWithRouting(envs[n], p);
      }
    }
  }

  /**
    End to end: a browser that follows a project dispatches, after the reset it may be owed, exactly the
    events with a requested topic that the bus routes to that project, in the order they were published.
  */
  lemma BrowserFollowsItsProject(c: Client, messages: seq<Message>, envs: seq<Envelope>, names: set<string>, p: Serial,
                                 lastEventId: string, texts: seq<string>)
    requires Channel(messages, envs, p) && forall m :: m in messages ==> CleanMessage(m)
    requires Yields(texts, Opening(lastEventId != "")
                           + Answers(messages, RequestedTopics(names), Some(ProjectCode(p))))
    ensures Read(c, Joined(texts)).events
            == c.events + Greeting(lastEventId != "")
               + Routed(messages, envs, RequestedTopics(names), ProjectCode(p))
  {
    BrowserSeesTheForwardedEvents(c, messages, names, Some(ProjectCode(p)), lastEventId, texts);
    SeenIsRouted(messages, envs, RequestedTopics(names), p);
  }
}
