/**
  How a browser reads an event stream: sections 9.2.5 and 9.2.6 of the WHATWG HTML Standard, over text
  already decoded from UTF-8.
*/
module EventStream {
  import opened Prelude
  import opened Text

  const NUL: char := '\0'
  const BYTE_ORDER_MARK: char := '\U{FEFF}'

  datatype Event = Event(kind: string, data: string, lastEventId: string)

  /** The buffers of the event source, and the events dispatched so far. */
  datatype Client = Client(
    idBuffer: string,
    data: string,
    kind: string,
    lastEventId: string,
    reconnection: Option<nat>,
    events: seq<Event>)

  /**
    A client opens a stream, the first or the next: the three buffers of the stream start empty, while
    the event source keeps its last event id, its reconnection time and what it has dispatched.
  */
  function Connected(c: Client): Client {
    c.(idBuffer := "", data := "", kind := "")
  }

  // --- Lines -----------------------------------------------------------------------------------------

  predicate IsBreak(c: char) {
    c == '\n' || c == '\r'
  }

  predicate OneLine(s: string) {
    forall i :: 0 <= i < |s| ==> !IsBreak(s[i])
  }

  /** The length of the line break the text starts with: a CR followed by an LF is one break. */
  function BreakLength(text: string): (n: nat)
    requires text != ""
    ensures 1 <= n <= |text|
  {
    if text[0] == '\r' && |text| > 1 && text[1] == '\n' then 2 else 1
  }

  /** The complete lines of the text; what follows the last break is not a line yet. */
  function Lines(text: string): seq<string> {
    if text == "" then []
    else if IsBreak(text[0]) then [""] + Lines(text[BreakLength(text)..])
    else
      var rest := Lines(text[1..]);
      if rest == [] then [] else [[text[0]] + rest[0]] + rest[1..]
  }

  lemma {:induction false} LinesAreLines(text: string)
    ensures forall l :: l in Lines(text) ==> OneLine(l)
  {
    if text == "" {
    } else if IsBreak(text[0]) {
      LinesAreLines(text[BreakLength(text)..]);
    } else {
      var rest := Lines(text[1..]);
      LinesAreLines(text[1..]);
      if rest != [] {
        assert rest[0] in rest && OneLine([text[0]] + rest[0]);
        assert forall l :: l in Lines(text) ==> l == [text[0]] + rest[0] || l in rest;
      }
    }
  }

  predicate Ended(text: string) {
    text == "" || text[|text| - 1] == '\n'
  }

  lemma {:induction false} EndedTextHasLines(text: string)
    requires text != "" && Ended(text)
    ensures Lines(text) != []
  {
    if !IsBreak(text[0]) {
      EndedTextHasLines(text[1..]);
    }
  }

  lemma LinesAtBreak(text: string)
    requires text != "" && IsBreak(text[0])
    ensures Lines(text) == [""] + Lines(text[BreakLength(text)..])
  {
  }

  /** The first character of a line goes in front of the first line of the rest. */
  function InFront(c: char, lines: seq<string>): seq<string> {
    if lines == [] then [] else [[c] + lines[0]] + lines[1..]
  }

  lemma LinesAtChar(text: string)
    requires text != "" && !IsBreak(text[0])
    ensures Lines(text) == InFront(text[0], Lines(text[1..]))
  {
  }

  lemma InFrontJoin(c: char, a: seq<string>, b: seq<string>)
    requires a != []
    ensures InFront(c, a + b) == InFront(c, a) + b
  {
  }

  lemma FirstInFront(a: seq<string>, b: seq<string>)
    ensures [""] + (a + b) == ([""] + a) + b
  {
  }

  /** Text that ends in an LF can be split off: its lines are the first lines of the whole. */
  lemma {:induction false} LinesJoin(a: string, b: string)
    requires Ended(a)
    ensures Lines(a + b) == Lines(a) + Lines(b)
    decreases |a|
  {
    if a == "" {
      assert a + b == b;
    } else if IsBreak(a[0]) {
      var n := BreakLength(a);
      var rest := a[n..];
      assert (a + b)[n..] == rest + b && BreakLength(a + b) == n;
      LinesJoin(rest, b);
      LinesAtBreak(a);
      LinesAtBreak(a + b);
      FirstInFront(Lines(rest), Lines(b));
    } else {
      var rest := a[1..];
      assert (a + b)[1..] == rest + b;
      LinesJoin(rest, b);
      EndedTextHasLines(rest);
      LinesAtChar(a);
      LinesAtChar(a + b);
      InFrontJoin(a[0], Lines(rest), Lines(b));
    }
  }

  lemma {:induction false} LineOf(s: string)
    requires OneLine(s)
    ensures Lines(s + "\n") == [s]
  {
    var text := s + "\n";
    if s == "" {
      assert text[1..] == "";
    } else {
      assert text[1..] == s[1..] + "\n";
      LineOf(s[1..]);
      assert [s[0]] + s[1..] == s;
    }
  }

  // --- Interpreting them --------------------------------------------------------------------------------

  function ColonAt(line: string): (i: nat)
    ensures i <= |line|
    ensures i < |line| ==> line[i] == ':'
    ensures ':' !in line[..i]
  {
    if line == "" || line[0] == ':' then 0
    else
      var i := 1 + ColonAt(line[1..]);
      assert line[..i] == [line[0]] + line[1..][..i - 1];
      i
  }

  function WithoutSpace(value: string): string {
    if value != "" && value[0] == ' ' then value[1..] else value
  }

  /** Field processing; fields other than the four named ones are ignored. */
  function Process(c: Client, field: string, value: string): Client {
    if field == "event" then c.(kind := value)
    else if field == "data" then c.(data := c.data + value + "\n")
    else if field == "id" then if NUL in value then c else c.(idBuffer := value)
    else if field == "retry" then if IsNumber(value) then c.(reconnection := Some(ReadNumber(value))) else c
    else c
  }

  /** An empty line ends an event; one without data only moves the last event id. */
  function Dispatch(c: Client): Client {
    var c := c.(lastEventId := c.idBuffer);
    if c.data == "" then c.(kind := "")
    else
      var data := if c.data[|c.data| - 1] == '\n' then c.data[..|c.data| - 1] else c.data;
      var kind := if c.kind == "" then "message" else c.kind;
      c.(data := "", kind := "", events := c.events + [Event(kind, data, c.lastEventId)])
  }

  function Interpret(c: Client, line: string): Client {
    if line == "" then Dispatch(c)
    else
      var i := ColonAt(line);
      if i == 0 && i < |line| then c
      else if i < |line| then Process(c, line[..i], WithoutSpace(line[i + 1..]))
      else Process(c, line, "")
  }

  function InterpretAll(c: Client, lines: seq<string>): Client {
    if lines == [] then c else Interpret(InterpretAll(c, lines[..|lines| - 1]), lines[|lines| - 1])
  }

  /** More of the stream arrives, cut at the end of a line. */
  function Feed(c: Client, text: string): Client {
    InterpretAll(c, Lines(text))
  }

  /** A whole stream from its start, without a byte order mark. */
  function Read(c: Client, text: string): Client {
    Feed(Connected(c), if text != "" && text[0] == BYTE_ORDER_MARK then text[1..] else text)
  }

  lemma {:induction false} InterpretJoin(c: Client, a: seq<string>, b: seq<string>)
    ensures InterpretAll(c, a + b) == InterpretAll(InterpretAll(c, a), b)
  {
    if b == [] {
      assert a + b == a;
    } else {
      assert (a + b)[..|a + b| - 1] == a + b[..|b| - 1];
      InterpretJoin(c, a, b[..|b| - 1]);
    }
  }

  lemma FeedJoin(c: Client, a: string, b: string)
    requires Ended(a)
    ensures Feed(c, a + b) == Feed(Feed(c, a), b)
  {
    LinesJoin(a, b);
    InterpretJoin(c, Lines(a), Lines(b));
  }

  lemma FeedLine(c: Client, line: string)
    requires OneLine(line)
    ensures Feed(c, line + "\n") == Interpret(c, line)
  {
    LineOf(line);
    assert [line][..0] == [];
    assert InterpretAll(c, []) == c;
  }

  lemma {:induction false} ColonIsFirst(line: string, i: nat)
    requires i < |line| && line[i] == ':' && ':' !in line[..i]
    ensures ColonAt(line) == i
  {
  }

  /** `name: value` is read back as that name and value. */
  lemma FieldLine(c: Client, name: string, value: string)
    requires name != "" && ':' !in name
    ensures Interpret(c, name + ": " + value) == Process(c, name, value)
  {
    var line := name + ": " + value;
    assert line[..|name|] == name;
    ColonIsFirst(line, |name|);
    assert line[|name| + 1..] == " " + value;
    assert (" " + value)[1..] == value;
  }

  /** A field without a colon has the empty value, and a line that starts with one is a comment. */
  lemma NameAlone(c: Client, line: string, comment: string)
    requires line != "" && ':' !in line
    ensures Interpret(c, line) == Interpret(c, line + ":")
    ensures Interpret(c, ":" + comment) == c
  {
    assert ColonAt(line) == |line|;
    assert (line + ":")[..|line|] == line;
    ColonIsFirst(line + ":", |line|);
    assert WithoutSpace((line + ":")[|line| + 1..]) == "";
    ColonIsFirst(":" + comment, 0);
  }

  lemma DataLine(c: Client, value: string)
    ensures Interpret(c, "data: " + value) == c.(data := c.data + value + "\n")
  {
    var name := "data";
    assert ':' !in name && name != "event";
    FieldLine(c, name, value);
    assert name + ": " == "data: ";
    assert Process(c, name, value) == c.(data := c.data + value + "\n");
  }

  lemma DispatchDrops(c: Client, text: string)
    requires c.data == text + "\n"
    ensures Dispatch(c).events
            == c.events + [Event(if c.kind == "" then "message" else c.kind, text, c.idBuffer)]
    ensures Dispatch(c).kind == Dispatch(c).data == ""
  {
    assert c.data[..|c.data| - 1] == text;
  }

  /** Data in several lines is one text, and an event without a type is a message. */
  lemma DataLinesJoin(c: Client, a: string, b: string)
    requires c.data == ""
    ensures var t := Interpret(Interpret(Interpret(c, "data: " + a), "data: " + b), "");
            t.events == c.events + [Event(if c.kind == "" then "message" else c.kind, a + "\n" + b, c.idBuffer)]
            && t.kind == t.data == ""
  {
    var one := Interpret(c, "data: " + a);
    DataLine(c, a);
    DataLine(one, b);
    Together(a, b);
    DispatchDrops(Interpret(one, "data: " + b), a + "\n" + b);
  }

  lemma Together(a: string, b: string)
    ensures "" + a + "\n" + b + "\n" == (a + "\n" + b) + "\n"
  {
  }

  /** An event without data is none, and a reconnection time that is no number is ignored. */
  lemma NothingToDispatch(c: Client, value: string)
    ensures c.data == "" ==> Interpret(c, "") == c.(kind := "", lastEventId := c.idBuffer)
    ensures !IsNumber(value) ==> Process(c, "retry", value) == c
    ensures IsNumber(value) ==> Process(c, "retry", value) == c.(reconnection := Some(ReadNumber(value)))
  {
  }

  // --- What no stream can make the client hold -----------------------------------------------------------

  predicate NoReturn(s: string) {
    '\r' !in s
  }

  predicate CleanId(s: string) {
    OneLine(s) && NUL !in s
  }

  ghost predicate Tame(c: Client) {
    && CleanId(c.idBuffer) && CleanId(c.lastEventId) && NoReturn(c.data)
    && forall e :: e in c.events ==> NoReturn(e.data) && CleanId(e.lastEventId)
  }

  lemma InterpretKeepsTame(c: Client, line: string)
    requires Tame(c) && OneLine(line)
    ensures Tame(Interpret(c, line))
  {
    if line != "" {
      var i := ColonAt(line);
      if 0 < i < |line| {
        var value := WithoutSpace(line[i + 1..]);
        assert OneLine(value);
        assert forall k :: 0 <= k < |value| ==> value[k] != '\r';
      }
    } else {
      assert forall k :: 0 <= k < |c.data| ==> c.data[k] != '\r';
    }
  }

  /** Whatever arrives, no data holds a CR and no event id a line break or a NUL. */
  lemma {:induction false} FeedingKeepsTame(c: Client, lines: seq<string>)
    requires Tame(c) && forall l :: l in lines ==> OneLine(l)
    ensures Tame(InterpretAll(c, lines))
  {
    if lines != [] {
      FeedingKeepsTame(c, lines[..|lines| - 1]);
      InterpretKeepsTame(InterpretAll(c, lines[..|lines| - 1]), lines[|lines| - 1]);
    }
  }
}
