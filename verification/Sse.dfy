/** The stream endpoint: the frames it emits, and that a standard client reads back exactly what was forwarded. */
module Sse {
  import opened Prelude
  import opened Text
  import opened Sorting
  import opened Catalog
  import opened Envelopes
  import opened EventStream

  const RETRY_MILLISECONDS := "3000"
  const TOPIC_STREAM_RESET := "stream.reset"
  const RESET_BODY := "{\"reason\":\"last_event_id_expired\"}"

  /** What the generator yields. */
  datatype Frame = Retry | Reset | Ping | Forward(id: string, topic: string, body: string)

  function FieldText(name: string, value: string): string {
    name + ": " + value + "\n"
  }

  function FrameText(f: Frame): string {
    match f
    case Retry => FieldText("retry", RETRY_MILLISECONDS) + "\n"
    case Reset => FieldText("event", TOPIC_STREAM_RESET) + (FieldText("data", RESET_BODY) + "\n")
    case Ping => ": ping\n\n"
    case Forward(id, topic, body) =>
      FieldText("id", id) + (FieldText("event", topic) + (FieldText("data", body) + "\n"))
  }

  function StreamText(frames: seq<Frame>): string {
    if frames == [] then "" else StreamText(frames[..|frames| - 1]) + FrameText(frames[|frames| - 1])
  }

  /** The id buffer after a frame. */
  function IdAfter(id: string, f: Frame): string {
    match f case Forward(forwarded, _, _) => forwarded case _ => id
  }

  /** What a client should see of a frame, given the id it holds. */
  function EventsOf(id: string, f: Frame): seq<Event> {
    match f
    case Forward(forwarded, topic, body) => [Event(topic, body, forwarded)]
    case Reset => [Event(TOPIC_STREAM_RESET, RESET_BODY, id)]
    case _ => []
  }

  /** The id after a run of frames: that of the last forwarded event. */
  function LastId(start: string, frames: seq<Frame>): string {
    if frames == [] then start else IdAfter(LastId(start, frames[..|frames| - 1]), frames[|frames| - 1])
  }

  /** What the client should see: every forwarded event and every reset, in order, and nothing else. */
  function Forwarded(start: string, frames: seq<Frame>): seq<Event> {
    if frames == [] then [] else
      Forwarded(start, frames[..|frames| - 1]) + EventsOf(LastId(start, frames[..|frames| - 1]), frames[|frames| - 1])
  }

  predicate CleanTopic(topic: string) {
    topic != "" && OneLine(topic)
  }

  /** Bodies without line breaks, ids without line breaks or NUL, topics of one non-empty line. */
  predicate CleanFrame(f: Frame) {
    match f
    case Forward(id, topic, body) => CleanId(id) && CleanTopic(topic) && OneLine(body)
    case _ => true
  }

  /** Between two frames the client has no event half read. */
  predicate AtRest(c: Client) {
    c.data == "" && c.kind == ""
  }

  lemma FieldNames()
    ensures "id" != "event" && "id" != "data" && "event" != "data"
    ensures "retry" != "event" && "retry" != "data" && "retry" != "id"
    ensures ':' !in "id" && ':' !in "event" && ':' !in "data" && ':' !in "retry"
  {
  }

  /** One field line, and the rest of the frame after it. */
  lemma FeedField(c: Client, name: string, value: string, rest: string)
    requires name in { "id", "event", "data", "retry" } && OneLine(value)
    ensures Feed(c, FieldText(name, value) + rest) == Feed(Process(c, name, value), rest)
  {
    FieldNames();
    var line := name + ": " + value;
    assert OneLine(line);
    FieldLine(c, name, value);
    FeedLine(c, line);
    FeedJoin(c, line + "\n", rest);
  }

  lemma FeedBlank(c: Client)
    ensures Feed(c, "\n") == Dispatch(c)
  {
    FeedLine(c, "");
    assert "" + "\n" == "\n";
  }

  lemma ProcessNamed(c: Client, value: string)
    ensures Process(c, "event", value) == c.(kind := value)
    ensures Process(c, "data", value) == c.(data := c.data + value + "\n")
    ensures NUL !in value ==> Process(c, "id", value) == c.(idBuffer := value)
  {
  }

  /** The empty line after one data line. */
  lemma DispatchOne(c: Client, kind: string, body: string)
    requires c.kind == kind != "" && c.data == body + "\n"
    ensures Dispatch(c) == c.(data := "", kind := "", lastEventId := c.idBuffer,
                              events := c.events + [Event(kind, body, c.idBuffer)])
  {
  }

  /** `event` and `data` lines and the empty line after them. */
  lemma FeedEvent(c: Client, kind: string, body: string)
    requires c.data == "" && CleanTopic(kind) && OneLine(body)
    ensures Feed(c, FieldText("event", kind) + (FieldText("data", body) + "\n"))
            == c.(data := "", kind := "", lastEventId := c.idBuffer,
                  events := c.events + [Event(kind, body, c.idBuffer)])
  {
    FeedField(c, "event", kind, FieldText("data", body) + "\n");
    ProcessNamed(c, kind);
    var c1 := c.(kind := kind);
    FeedField(c1, "data", body, "\n");
    ProcessNamed(c1, body);
    assert "" + body + "\n" == body + "\n";
    var c2 := c1.(data := body + "\n");
    FeedBlank(c2);
    DispatchOne(c2, kind, body);
  }

  lemma FeedForward(c: Client, id: string, topic: string, body: string)
    requires AtRest(c) && CleanFrame(Forward(id, topic, body))
    ensures Feed(c, FrameText(Forward(id, topic, body)))
            == c.(idBuffer := id, lastEventId := id, events := c.events + [Event(topic, body, id)])
  {
    FeedField(c, "id", id, FieldText("event", topic) + (FieldText("data", body) + "\n"));
    ProcessNamed(c, id);
    FeedEvent(c.(idBuffer := id), topic, body);
  }

  lemma FeedReset(c: Client)
    requires AtRest(c)
    ensures Feed(c, FrameText(Reset))
            == c.(lastEventId := c.idBuffer, events := c.events + [Event(TOPIC_STREAM_RESET, RESET_BODY, c.idBuffer)])
  {
    FeedEvent(c, TOPIC_STREAM_RESET, RESET_BODY);
  }

  lemma FeedPing(c: Client)
    requires AtRest(c)
    ensures Feed(c, FrameText(Ping)) == c.(lastEventId := c.idBuffer)
  {
    assert FrameText(Ping) == (": ping" + "\n") + "\n";
    FeedLine(c, ": ping");
    assert ColonAt(": ping") == 0;
    FeedJoin(c, ": ping" + "\n", "\n");
    FeedBlank(c);
  }

  lemma FeedRetry(c: Client)
    requires AtRest(c)
    ensures Feed(c, FrameText(Retry)) == c.(lastEventId := c.idBuffer, reconnection := Some(3000))
  {
    FieldNames();
    FeedField(c, "retry", RETRY_MILLISECONDS, "\n");
    ThreeThousand();
    FeedBlank(Process(c, "retry", RETRY_MILLISECONDS));
  }

  lemma ThreeThousand()
    ensures IsNumber(RETRY_MILLISECONDS) && ReadNumber(RETRY_MILLISECONDS) == 3000
  {
    var s := RETRY_MILLISECONDS;
    assert s[..3] == "300" && s[..3][..2] == "30" && s[..3][..2][..1] == "3" && s[..3][..2][..1][..0] == "";
    assert ReadNumber("3") == 3 && ReadNumber("30") == 30 && ReadNumber("300") == 300;
  }

  /** One frame, read by a client in any state between two frames. */
  lemma FrameReadsBack(c: Client, f: Frame)
    requires AtRest(c) && CleanFrame(f)
    ensures var t := Feed(c, FrameText(f));
            && t.events == c.events + EventsOf(c.idBuffer, f)
            && t.idBuffer == t.lastEventId == IdAfter(c.idBuffer, f) && AtRest(t)
  {
    match f
    case Forward(id, topic, body) => FeedForward(c, id, topic, body);
    case Reset => FeedReset(c);
    case Ping => FeedPing(c);
    case Retry => FeedRetry(c);
  }

  lemma {:induction false} StreamEnds(frames: seq<Frame>)
    ensures Ended(StreamText(frames))
  {
  }

  /**
    Printing and parsing undo each other: on any concatenation of frames a standard client, whatever it
    held before, sees exactly the forwarded (topic, body, id) events and the resets, in order.  The id it
    then holds is that of the last forwarded event or, before there was one, of its id buffer: the empty
    line that ends a ping, the retry line or a reset copies that buffer too.
  */
  lemma {:induction false} StreamReadsBack(c: Client, frames: seq<Frame>)
    requires AtRest(c) && forall f :: f in frames ==> CleanFrame(f)
    ensures var t := Feed(c, StreamText(frames));
            && t.events == c.events + Forwarded(c.idBuffer, frames)
            && t.idBuffer == LastId(c.idBuffer, frames)
            && t.lastEventId == (if frames == [] then c.lastEventId else LastId(c.idBuffer, frames))
            && AtRest(t)
  {
    if frames == [] {
      assert Lines("") == [] && InterpretAll(c, []) == c;
    } else {
      var front, last := frames[..|frames| - 1], frames[|frames| - 1];
      StreamReadsBack(c, front);
      StreamEnds(front);
      FeedJoin(c, StreamText(front), FrameText(last));
      FrameReadsBack(Feed(c, StreamText(front)), last);
      Regroup(c.events, Forwarded(c.idBuffer, front), EventsOf(LastId(c.idBuffer, front), last));
    }
  }

  predicate Forwards(frames: seq<Frame>) {
    exists f :: f in frames && f.Forward?
  }

  lemma {:induction false} LastIdForwarded(start: string, frames: seq<Frame>)
    ensures !Forwards(frames) ==> LastId(start, frames) == start
    ensures Forwards(frames) ==> exists f :: f in frames && f.Forward? && f.id == LastId(start, frames)
  {
    if frames != [] {
      var front, last := frames[..|frames| - 1], frames[|frames| - 1];
      LastIdForwarded(start, front);
      assert frames == front + [last];
      if last.Forward? {
        assert last in frames;
      } else if Forwards(frames) {
        var f :| f in frames && f.Forward?;
        assert f in front;
      }
    }
  }

  /** Frames that forward nothing leave the last event id alone exactly when the id buffer already holds it. */
  lemma IdleFramesKeepTheIdExactlyWhen(c: Client, frames: seq<Frame>)
    requires AtRest(c) && frames != [] && !Forwards(frames)
    ensures Feed(c, StreamText(frames)).lastEventId == c.lastEventId <==> c.lastEventId == c.idBuffer
  {
    StreamReadsBack(c, frames);
    LastIdForwarded(c.idBuffer, frames);
  }

  /** A frame is read back as its own event exactly when its body and id hold no line break and its id no NUL. */
  lemma ReadsBackExactlyWhen(c: Client, id: string, topic: string, body: string)
    requires AtRest(c) && Tame(c) && CleanTopic(topic) && '\n' !in body
    ensures Feed(c, FrameText(Forward(id, topic, body))).events == c.events + [Event(topic, body, id)]
            <==> CleanId(id) && NoReturn(body)
  {
    if CleanId(id) && NoReturn(body) {
      assert forall i :: 0 <= i < |body| ==> body[i] in body;
      FeedForward(c, id, topic, body);
    }
    var t := Feed(c, FrameText(Forward(id, topic, body)));
    LinesAreLines(FrameText(Forward(id, topic, body)));
    FeedingKeepsTame(c, Lines(FrameText(Forward(id, topic, body))));
    if t.events == c.events + [Event(topic, body, id)] {
      assert t.events[|c.events|] in t.events;
    }
  }

  // --- The generator ------------------------------------------------------------------------------------

  /** A message from the channel: nothing within the heartbeat, something unusable, or an envelope. */
  datatype Message =
    | Silence
    | Foreign
    | Wire(raw: string, topic: Json, id: string, entityId: Json, payloadProject: Json)

  /** The topics a client asked for, cut down to the allowlist; none left means all of them. */
  function RequestedTopics(names: set<string>): (r: set<string>)
    ensures r != {} && r <= SSE_ALLOWLIST_TOPICS
    ensures forall t :: t in r <==> t in SSE_ALLOWLIST_TOPICS && (t in names || names !! SSE_ALLOWLIST_TOPICS)
  {
    AllowlistNotEmpty();
    if names * SSE_ALLOWLIST_TOPICS == {} then SSE_ALLOWLIST_TOPICS else names * SSE_ALLOWLIST_TOPICS
  }

  lemma AllowlistNotEmpty()
    ensures SSE_ALLOWLIST_TOPICS != {}
  {
    assert TOPIC_PROJECT_CREATED[0] == 'p' && TOPIC_CLOCK_TICKED[0] == 'c';
    assert TOPIC_PROJECT_CREATED in SSE_ALLOWLIST_TOPICS;
  }

  predicate MatchesProject(entityId: Json, payloadProject: Json, project: Option<string>) {
    match project
    case None => true
    case Some(code) =>
      (entityId.JText? && (entityId.text == code || StartsWith(entityId.text, code + "-")))
      || payloadProject == JText(code)
  }

  function LessLineFeeds(raw: string): string {
    Filter((c: char) => c != '\n', raw)
  }

  function Flat(raw: string): (r: string)
    ensures r == LessLineFeeds(raw)
    ensures '\n' !in r
    ensures '\r' !in raw ==> OneLine(r)
    ensures '\n' !in raw ==> r == raw
  {
    if raw == "" then "" else
      assert raw == [raw[0]] + raw[1..];
      if raw[0] == '\n' then Flat(raw[1..]) else [raw[0]] + Flat(raw[1..])
  }

  /** The message is about the project: under its code, under a code below it, or by what its payload says. */
  predicate Concerns(m: Message, project: string)
    requires m.Wire?
  {
    || m.entityId == JText(project)
    || (m.entityId.JText? && project + "-" <= m.entityId.text)
    || m.payloadProject == JText(project)
  }

  /** An envelope with one of the topics and, when a project is followed, about it. */
  predicate Passes(m: Message, topics: set<string>, project: Option<string>) {
    m.Wire? && m.topic.JText? && m.topic.text in topics && (project.Some? ==> Concerns(m, project.value))
  }

  function FrameFor(m: Message, topics: set<string>, project: Option<string>): (r: Option<Frame>)
    ensures r.Some? <==> Passes(m, topics, project)
    ensures r.Some? ==> r.value == Forward(m.id, m.topic.text, LessLineFeeds(m.raw))
  {
    match m
    case Wire(raw, JText(topic), id, entityId, payloadProject) =>
      if topic in topics && MatchesProject(entityId, payloadProject, project)
      then Some(Forward(id, topic, Flat(raw))) else None
    case _ => None
  }

  /** The event a message is shown as. */
  function Shown(m: Message, topics: set<string>, project: Option<string>): seq<Event> {
    if Passes(m, topics, project) then [Event(m.topic.text, LessLineFeeds(m.raw), m.id)] else []
  }

  /** What a client should see of a run of messages: those that pass, in order, each with its topic and its id. */
  function Seen(messages: seq<Message>, topics: set<string>, project: Option<string>): seq<Event> {
    if messages == [] then [] else
      Seen(messages[..|messages| - 1], topics, project) + Shown(messages[|messages| - 1], topics, project)
  }

  /** Silence is answered with a heartbeat, an envelope with its frame unless it is filtered out. */
  function Answer(m: Message, topics: set<string>, project: Option<string>): Option<Frame> {
    if m.Silence? then Some(Ping) else FrameFor(m, topics, project)
  }

  /** The frames answering a run of messages. */
  function Answers(messages: seq<Message>, topics: set<string>, project: Option<string>): seq<Frame> {
    if messages == [] then [] else
      var before := Answers(messages[..|messages| - 1], topics, project);
      match Answer(messages[|messages| - 1], topics, project) case Some(f) => before + [f] case None => before
  }

  function Opening(resumed: bool): seq<Frame> {
    [Retry] + (if resumed then [Reset] else []) + [Ping]
  }

  lemma OneMoreMessage(messages: seq<Message>, topics: set<string>, project: Option<string>)
    requires messages != []
    ensures var front, m := messages[..|messages| - 1], messages[|messages| - 1];
            var answer := Answer(m, topics, project);
            && Seen(messages, topics, project) == Seen(front, topics, project) + Shown(m, topics, project)
            && Answers(messages, topics, project)
               == Answers(front, topics, project) + if answer.Some? then [answer.value] else []
  {
  }

  lemma AnswerIsSeen(start: string, before: seq<Frame>, m: Message, topics: set<string>, project: Option<string>)
    ensures var answer := Answer(m, topics, project);
            var after := before + if answer.Some? then [answer.value] else [];
            && Forwarded(start, after) == Forwarded(start, before) + Shown(m, topics, project)
            && LastId(start, after) == if Passes(m, topics, project) then m.id else LastId(start, before)
  {
    var answer := Answer(m, topics, project);
    if answer.Some? {
      ForwardedJoins(start, before, [answer.value]);
      OneFrame(LastId(start, before), answer.value);
    } else {
      assert before + [] == before;
    }
  }

  function Silences(messages: seq<Message>): nat {
    if messages == [] then 0
    else Silences(messages[..|messages| - 1]) + if messages[|messages| - 1].Silence? then 1 else 0
  }

  /** Every silence is answered, with a heartbeat, and nothing else is but what passes. */
  lemma {:induction false} SilencesAreAnswered(messages: seq<Message>, topics: set<string>, project: Option<string>)
    ensures var answers := Answers(messages, topics, project);
            && |answers| == Silences(messages) + |Seen(messages, topics, project)|
            && multiset(answers)[Ping] == Silences(messages)
  {
    if messages != [] {
      SilencesAreAnswered(messages[..|messages| - 1], topics, project);
      OneMoreMessage(messages, topics, project);
    }
  }

  /** The id a client holds after these events. */
  function LastSeen(start: string, seen: seq<Event>): string {
    if seen == [] then start else seen[|seen| - 1].lastEventId
  }

  /** The forwarded frames are the messages that pass; heartbeats are no events. */
  lemma {:induction false} AnswersAreSeen(start: string, messages: seq<Message>, topics: set<string>,
                                          project: Option<string>)
    ensures Forwarded(start, Answers(messages, topics, project)) == Seen(messages, topics, project)
    ensures LastId(start, Answers(messages, topics, project)) == LastSeen(start, Seen(messages, topics, project))
  {
    if messages != [] {
      var front, m := messages[..|messages| - 1], messages[|messages| - 1];
      AnswersAreSeen(start, front, topics, project);
      OneMoreMessage(messages, topics, project);
      AnswerIsSeen(start, Answers(front, topics, project), m, topics, project);
    }
  }

  /** What the client is shown on opening: the reset, when it came back with an id. */
  function Greeting(resumed: bool): seq<Event> {
    if resumed then [Event(TOPIC_STREAM_RESET, RESET_BODY, "")] else []
  }

  lemma OpeningIsGreeting(resumed: bool)
    ensures Forwarded("", Opening(resumed)) == Greeting(resumed) && LastId("", Opening(resumed)) == ""
  {
    OneFrame("", Retry);
    OneFrame("", Reset);
    OneFrame("", Ping);
    ForwardedJoins("", [Retry], [Reset]);
    ForwardedJoins("", [Retry] + if resumed then [Reset] else [], [Ping]);
  }

  lemma OneFrame(start: string, f: Frame)
    ensures Forwarded(start, [f]) == EventsOf(start, f) && LastId(start, [f]) == IdAfter(start, f)
  {
    assert [f][..0] == [];
  }

  lemma {:induction false} ForwardedJoins(start: string, first: seq<Frame>, second: seq<Frame>)
    ensures LastId(start, first + second) == LastId(LastId(start, first), second)
    ensures Forwarded(start, first + second) == Forwarded(start, first) + Forwarded(LastId(start, first), second)
  {
    if second == [] {
      assert first + second == first;
    } else {
      var front := second[..|second| - 1];
      assert (first + second)[..|first + second| - 1] == first + front;
      ForwardedJoins(start, first, front);
    }
  }

  /** The texts yielded are those of the frames. */
  ghost predicate Yields(texts: seq<string>, frames: seq<Frame>) {
    |texts| == |frames| && forall i :: 0 <= i < |frames| ==> texts[i] == FrameText(frames[i])
  }

  function Joined(texts: seq<string>): string {
    if texts == [] then "" else Joined(texts[..|texts| - 1]) + texts[|texts| - 1]
  }

  lemma {:induction false} YieldedText(texts: seq<string>, frames: seq<Frame>)
    requires Yields(texts, frames)
    ensures Joined(texts) == StreamText(frames)
  {
    if frames != [] {
      YieldedText(texts[..|texts| - 1], frames[..|frames| - 1]);
    }
  }

  /** `_frames`, up to the message at which the client goes away. */
  method Frames(messages: seq<Message>, topics: set<string>, project: Option<string>, lastEventId: string)
    returns (texts: seq<string>)
    ensures Yields(texts, Opening(lastEventId != "") + Answers(messages, topics, project))
    ensures Forwarded("", Answers(messages, topics, project)) == Seen(messages, topics, project)
    ensures multiset(Answers(messages, topics, project))[Ping] == Silences(messages)
  {
    texts := [FrameText(Retry)];
    if lastEventId != "" {
      texts := texts + [FrameText(Reset)];
    }
    texts := texts + [FrameText(Ping)];
    ghost var frames := Opening(lastEventId != "");
    for i := 0 to |messages|
      invariant frames == Opening(lastEventId != "") + Answers(messages[..i], topics, project)
      invariant Yields(texts, frames)
    {
      assert messages[..i + 1][..i] == messages[..i];
      var answer := Answer(messages[i], topics, project);
      if answer.Some? {
        texts := texts + [FrameText(answer.value)];
        frames := frames + [answer.value];
      }
    }
    assert messages[..|messages|] == messages;
    AnswersAreSeen("", messages, topics, project);
    SilencesAreAnswered(messages, topics, project);
  }

  // --- What the client is told ---------------------------------------------------------------------------

  predicate TopicChar(c: char) {
    'a' <= c <= 'z' || c == '.' || c == '_'
  }

  ghost predicate TopicText(t: string) {
    t != "" && forall i :: 0 <= i < |t| ==> TopicChar(t[i])
  }

  lemma ProjectTopicsAreClean()
    ensures TopicText(TOPIC_PROJECT_CREATED) && TopicText(TOPIC_PROJECT_UPDATED)
    ensures TopicText(TOPIC_PROJECT_STATE_CHANGED)
  {
  }

  lemma PriorityTopicIsClean()
    ensures TopicText(TOPIC_PROJECT_PRIORITY_RECALCULATED)
  {
  }

  lemma TaskTopicsAreClean()
    ensures TopicText(TOPIC_TASK_CREATED) && TopicText(TOPIC_TASK_UPDATED)
    ensures TopicText(TOPIC_TASK_STATE_CHANGED) && TopicText(TOPIC_TASK_ARCHIVE_CHANGED)
  {
  }

  lemma SmallTopicsAreClean()
    ensures TopicText(TOPIC_BLOCKER_RAISED) && TopicText(TOPIC_BLOCKER_RESOLVED)
    ensures TopicText(TOPIC_NOTE_ADDED) && TopicText(TOPIC_CLOCK_TICKED)
  {
  }

  lemma MemberTopicsAreClean()
    ensures TopicText(TOPIC_MEMBER_CREATED) && TopicText(TOPIC_MEMBER_UPDATED)
            && TopicText(TOPIC_MEMBER_ACTIVATION_CHANGED)
  {
  }

  lemma AllowlistIsClean(topic: string)
    requires topic in SSE_ALLOWLIST_TOPICS
    ensures CleanTopic(topic)
  {
    ProjectTopicsAreClean();
    PriorityTopicIsClean();
    TaskTopicsAreClean();
    SmallTopicsAreClean();
    MemberTopicsAreClean();
    assert TopicText(topic);
  }

  /** Envelopes are serialised without a CR, and their ids are UUIDs. */
  predicate CleanMessage(m: Message) {
    m.Wire? ==> '\r' !in m.raw && CleanId(m.id)
  }

  lemma FramesAreClean(m: Message, topics: set<string>, project: Option<string>)
    requires topics <= SSE_ALLOWLIST_TOPICS && CleanMessage(m)
    ensures var answer := FrameFor(m, topics, project);
            answer.Some? ==> answer.value.Forward? && CleanFrame(answer.value)
  {
    if FrameFor(m, topics, project).Some? {
      AllowlistIsClean(m.topic.text);
    }
  }

  lemma {:induction false} AnswersAreClean(messages: seq<Message>, topics: set<string>, project: Option<string>)
    requires topics <= SSE_ALLOWLIST_TOPICS && forall m :: m in messages ==> CleanMessage(m)
    ensures forall f :: f in Answers(messages, topics, project) ==> CleanFrame(f) && (f.Ping? || f.Forward?)
  {
    if messages != [] {
      var m := messages[|messages| - 1];
      assert m in messages && CleanMessage(m);
      AnswersAreClean(messages[..|messages| - 1], topics, project);
      FramesAreClean(m, topics, project);
    }
  }

  lemma BrowserReadsTheFrames(c: Client, messages: seq<Message>, names: set<string>,
                              project: Option<string>, lastEventId: string, texts: seq<string>)
    requires Yields(texts, Opening(lastEventId != "") + Answers(messages, RequestedTopics(names), project))
    requires forall m :: m in messages ==> CleanMessage(m)
    ensures var frames := Opening(lastEventId != "") + Answers(messages, RequestedTopics(names), project);
            var t := Read(c, Joined(texts));
            t.events == c.events + Forwarded("", frames) && t.lastEventId == LastId("", frames)
  {
    var topics := RequestedTopics(names);
    var frames := Opening(lastEventId != "") + Answers(messages, topics, project);
    AnswersAreClean(messages, topics, project);
    StreamReadsBack(Connected(c), frames);
    StartsWithRetry(frames);
    YieldedText(texts, frames);
  }

  /**
    End to end, for any client, any requested topics, any project followed and any run of messages: what
    the browser dispatches is the reset it is owed, if it came back with an id, and then exactly, in
    order, the well-formed messages with a requested topic that concern the project, each with its topic,
    its id and its text less line feeds; and the id it ends up with is that of the last of them, or none.
  */
  lemma BrowserSeesTheForwardedEvents(c: Client, messages: seq<Message>, names: set<string>,
                                      project: Option<string>, lastEventId: string, texts: seq<string>)
    requires Yields(texts, Opening(lastEventId != "") + Answers(messages, RequestedTopics(names), project))
    requires forall m :: m in messages ==> CleanMessage(m)
    ensures var t, seen := Read(c, Joined(texts)), Seen(messages, RequestedTopics(names), project);
            && t.events == c.events + Greeting(lastEventId != "") + seen
            && t.lastEventId == LastSeen("", seen)
  {
    var answers := Answers(messages, RequestedTopics(names), project);
    BrowserReadsTheFrames(c, messages, names, project, lastEventId, texts);
    OpeningIsGreeting(lastEventId != "");
    ForwardedJoins("", Opening(lastEventId != ""), answers);
    AnswersAreSeen("", messages, RequestedTopics(names), project);
    Regroup(c.events, Greeting(lastEventId != ""), Seen(messages, RequestedTopics(names), project));
  }

  /**
    A browser that comes back with an id is told to refetch.  If that connection drops before anything is
    forwarded, the browser has lost the id: it comes back without one, and is not told again.
  */
  lemma SecondDropGoesUnannounced(c: Client, messages: seq<Message>, names: set<string>, project: Option<string>,
                                  texts: seq<string>)
    requires c.lastEventId != ""
    requires Yields(texts, Opening(c.lastEventId != "") + Answers(messages, RequestedTopics(names), project))
    requires forall m :: m in messages ==> CleanMessage(m)
    requires !Forwards(Answers(messages, RequestedTopics(names), project))
    ensures Reset in Opening(c.lastEventId != "")
    ensures var t := Read(c, Joined(texts)); t.lastEventId == "" && Reset !in Opening(t.lastEventId != "")
  {
    var answers := Answers(messages, RequestedTopics(names), project);
    BrowserReadsTheFrames(c, messages, names, project, c.lastEventId, texts);
    IdAfterOpening(true, answers);
    assert [Retry, Reset, Ping][1] in Opening(true);
  }

  /** The browser comes back with an id exactly when the last event forwarded to it, if any, had one. */
  lemma NextHeaderExactlyWhen(c: Client, messages: seq<Message>, names: set<string>, project: Option<string>,
                              lastEventId: string, texts: seq<string>)
    requires Yields(texts, Opening(lastEventId != "") + Answers(messages, RequestedTopics(names), project))
    requires forall m :: m in messages ==> CleanMessage(m) && (m.Wire? ==> m.id != "")
    ensures Read(c, Joined(texts)).lastEventId != "" <==> Forwards(Answers(messages, RequestedTopics(names), project))
  {
    var answers := Answers(messages, RequestedTopics(names), project);
    BrowserReadsTheFrames(c, messages, names, project, lastEventId, texts);
    AnswersCarryIds(messages, RequestedTopics(names), project);
    IdAfterOpening(lastEventId != "", answers);
  }

  lemma IdAfterOpening(resumed: bool, answers: seq<Frame>)
    requires forall f :: f in answers && f.Forward? ==> f.id != ""
    ensures LastId("", Opening(resumed) + answers) != "" <==> Forwards(answers)
  {
    var frames := Opening(resumed) + answers;
    forall f | f in frames && f.Forward? ensures f in answers {
      assert f in Opening(resumed) || f in answers;
    }
    LastIdForwarded("", frames);
    if Forwards(answers) {
      var f :| f in answers && f.Forward?;
      assert f in frames;
    }
  }

  lemma {:induction false} AnswersCarryIds(messages: seq<Message>, topics: set<string>, project: Option<string>)
    requires forall m :: m in messages && m.Wire? ==> m.id != ""
    ensures forall f :: f in Answers(messages, topics, project) && f.Forward? ==> f.id != ""
  {
    if messages != [] {
      assert messages[|messages| - 1] in messages;
      AnswersCarryIds(messages[..|messages| - 1], topics, project);
    }
  }

  lemma {:induction false} StartsWithRetry(frames: seq<Frame>)
    requires frames != [] && frames[0] == Retry
    ensures StreamText(frames) != "" && StreamText(frames)[0] == 'r'
  {
    if |frames| == 1 {
      assert frames[..0] == [] && StreamText([]) == "";
      assert StreamText(frames) == "" + FrameText(Retry);
    } else {
      StartsWithRetry(frames[..|frames| - 1]);
    }
  }
}
