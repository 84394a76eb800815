/** Reading a chat answer as it streams in (the loop of `sendMessage` in dashboard/components/ChatPage.tsx):
    server-sent events cut from a growing buffer. The wire format is that of the WHATWG HTML standard, section 9.2,
    as far as the page follows it. */
module EventStream {
  import opened Text

  // ------------------------------------------------------------------ cutting the text into frames

  const SEPARATOR := "\n\n"

  /** The complete frames of a text, and what is left over. */
  function Drained(s: string): (seq<string>, string)
    decreases |s|
  {
    var sep := IndexOf(s, SEPARATOR, 0);
    if sep < 0 then ([], s)
    else var (frames, rest) := Drained(s[sep + 2..]); ([s[..sep]] + frames, rest)
  }

  lemma IndexIs(s: string, i: nat)
    requires OccursAt(s, SEPARATOR, i) && forall j | 0 <= j < i :: !OccursAt(s, SEPARATOR, j)
    ensures IndexOf(s, SEPARATOR, 0) == i
  {
    var r := IndexOf(s, SEPARATOR, 0);
    assert i <= |s|;
  }

  /** A separator found in a text stays the first when more text arrives. */
  lemma IndexOfLonger(a: string, b: string)
    requires IndexOf(a, SEPARATOR, 0) >= 0
    ensures IndexOf(a + b, SEPARATOR, 0) == IndexOf(a, SEPARATOR, 0)
  {
    var i := IndexOf(a, SEPARATOR, 0);
    assert (a + b)[i..i + 2] == a[i..i + 2];
    forall j | 0 <= j < i ensures !OccursAt(a + b, SEPARATOR, j) {
      assert !OccursAt(a, SEPARATOR, j);
      assert (a + b)[j..j + 2] == a[j..j + 2];
    }
    IndexIs(a + b, i);
  }

  lemma DrainedFrame(s: string, sep: nat)
    requires IndexOf(s, SEPARATOR, 0) == sep
    ensures Drained(s) == ([s[..sep]] + Drained(s[sep + 2..]).0, Drained(s[sep + 2..]).1)
  {
  }

  lemma DrainedWhole(s: string)
    requires IndexOf(s, SEPARATOR, 0) < 0
    ensures Drained(s) == ([], s)
  {
  }

  /** Reading a text in two parts gives what reading it at once gives. */
  lemma {:induction false} DrainedConcat(a: string, b: string)
    ensures Drained(a + b).0 == Drained(a).0 + Drained(Drained(a).1 + b).0
    ensures Drained(a + b).1 == Drained(Drained(a).1 + b).1
    decreases |a|
  {
    var sep := IndexOf(a, SEPARATOR, 0);
    if sep >= 0 {
      var tail := a[sep + 2..];
      DrainedConcat(tail, b);
      DrainedFrame(a, sep);
      IndexOfLonger(a, b);
      hide OccursAt;
      DrainedFrame(a + b, sep);
      hide *;
      CutConcat(a, b, sep);
      CutConcat(a, b, sep + 2);
      Assoc([a[..sep]], Drained(tail).0, Drained(Drained(tail).1 + b).0);
    } else {
      assert Drained(a) == ([], a);
    }
  }

  function Concat(chunks: seq<string>): string {
    if chunks == [] then "" else Concat(chunks[..|chunks| - 1]) + chunks[|chunks| - 1]
  }

  /** The frames cut so far and the buffer, after reading these chunks one by one. */
  function Fed(chunks: seq<string>): (seq<string>, string) {
    if chunks == [] then ([], "")
    else
      var (frames, buffer) := Fed(chunks[..|chunks| - 1]);
      var (more, buffer') := Drained(buffer + chunks[|chunks| - 1]);
      (frames + more, buffer')
  }

  /** Main result on chunks: however the text is cut, the frames and the left-over are those of the whole text. */
  lemma {:induction false} ChunkingDoesNotMatter(chunks: seq<string>)
    ensures Fed(chunks) == Drained(Concat(chunks))
  {
    if chunks != [] {
      var init, last := chunks[..|chunks| - 1], chunks[|chunks| - 1];
      ChunkingDoesNotMatter(init);
      DrainedConcat(Concat(init), last);
    }
  }

  /** Between chunks the buffer holds no separator. */
  lemma {:induction false} RestHasNoSeparator(s: string)
    ensures !Contains(Drained(s).1, SEPARATOR)
    decreases |s|
  {
    var sep := IndexOf(s, SEPARATOR, 0);
    if sep >= 0 {
      RestHasNoSeparator(s[sep + 2..]);
    }
  }

  function Joined(frames: seq<string>, rest: string): string {
    if frames == [] then rest else frames[0] + SEPARATOR + Joined(frames[1..], rest)
  }

  /** A frame whose separator cannot be mistaken for an earlier one. */
  predicate CleanFrame(f: string) {
    !Contains(f, SEPARATOR) && (f == "" || f[|f| - 1] != '\n')
  }

  /** Cutting loses nothing, and cuts into clean frames. */
  lemma {:induction false} CuttingIsLossless(s: string)
    ensures var (frames, rest) := Drained(s); Joined(frames, rest) == s && forall f | f in frames :: CleanFrame(f)
    decreases |s|
  {
    var sep := IndexOf(s, SEPARATOR, 0);
    if sep >= 0 {
      FirstFrameIsClean(s, sep);
      DrainedFrame(s, sep);
      CuttingIsLossless(s[sep + 2..]);
      hide Drained, CleanFrame, OccursAt, IndexOf;
      var frames := Drained(s).0;
      assert frames[1..] == Drained(s[sep + 2..]).0;
      assert s == s[..sep] + SEPARATOR + s[sep + 2..];
    }
  }

  /** A separator at `i`, character by character. */
  predicate Breaks(s: string, i: nat) {
    i + 1 < |s| && s[i] == '\n' && s[i + 1] == '\n'
  }

  lemma SeparatorIsTwoBreaks(s: string, i: nat)
    ensures OccursAt(s, SEPARATOR, i) <==> Breaks(s, i)
  {
    if i + 2 <= |s| {
      var w := s[i..i + 2];
      assert w[0] == s[i] && w[1] == s[i + 1];
    }
  }

  lemma CleanByCharacters(f: string)
    requires (forall i: nat :: !Breaks(f, i)) && (f == "" || f[|f| - 1] != '\n')
    ensures CleanFrame(f)
  {
    forall i | 0 <= i <= |f| ensures !OccursAt(f, SEPARATOR, i) {
      SeparatorIsTwoBreaks(f, i);
    }
    hide OccursAt;
  }

  lemma FirstFrameIsClean(s: string, sep: nat)
    requires IndexOf(s, SEPARATOR, 0) == sep
    ensures sep + 2 <= |s| && s[sep..sep + 2] == SEPARATOR && CleanFrame(s[..sep])
  {
    forall i: nat | i < sep ensures !Breaks(s, i) {
      assert !OccursAt(s, SEPARATOR, i);
      SeparatorIsTwoBreaks(s, i);
    }
    SeparatorIsTwoBreaks(s, sep);
    assert OccursAt(s, SEPARATOR, sep);
    hide IndexOf, OccursAt, CleanFrame;
    var f := s[..sep];
    forall i: nat ensures !Breaks(f, i) {
      assert i < sep ==> !Breaks(s, i);
    }
    assert sep > 0 ==> !Breaks(s, sep - 1);
    CleanByCharacters(f);
    assert s[sep..sep + 2] == SEPARATOR;
  }

  /** Cutting undoes joining. */
  lemma {:induction false} CuttingUndoesJoining(frames: seq<string>, rest: string)
    requires (forall f | f in frames :: CleanFrame(f)) && !Contains(rest, SEPARATOR)
    ensures Drained(Joined(frames, rest)) == (frames, rest)
  {
    var s := Joined(frames, rest);
    if frames == [] {
      assert IndexOf(rest, SEPARATOR, 0) == -1;
    } else {
      var f, more := frames[0], Joined(frames[1..], rest);
      assert f in frames;
      CuttingUndoesJoining(frames[1..], rest);
      FirstSeparatorEndsFrame(f, more);
      assert s == f + SEPARATOR + more;
      assert s[..|f|] == f && s[|f| + 2..] == more;
      assert frames == [f] + frames[1..];
    }
  }

  lemma FirstSeparatorEndsFrame(f: string, more: string)
    requires CleanFrame(f)
    ensures IndexOf(f + SEPARATOR + more, SEPARATOR, 0) == |f|
  {
    var s := f + SEPARATOR + more;
    forall j | 0 <= j < |f| ensures !OccursAt(s, SEPARATOR, j) {
      if j + 2 <= |f| {
        assert !OccursAt(f, SEPARATOR, j);
        assert s[j..j + 2] == f[j..j + 2];
      } else {
        assert s[j..j + 2][0] == f[|f| - 1];
      }
    }
    assert s[|f|..|f| + 2] == SEPARATOR;
    IndexIs(s, |f|);
  }

  // ------------------------------------------------------------------ the fields of a frame

  datatype Event = Event(name: string, data: string)

  predicate StartsWith(s: string, p: string) {
    p <= s
  }

  /** One line: an event line sets the name, a data line adds to the data, and anything else is passed over. */
  function WithLine(e: Event, line: string): Event {
    if StartsWith(line, "event:") then e.(name := Trim(line[6..]))
    else if StartsWith(line, "data:") then e.(data := e.data + Trim(line[5..]))
    else e
  }

  function WithLines(e: Event, lines: seq<string>): Event {
    if lines == [] then e else WithLine(WithLines(e, lines[..|lines| - 1]), lines[|lines| - 1])
  }

  function FrameEvent(frame: string): Event {
    WithLines(Event("message", ""), Lines(frame))
  }

  /** The events of these frames; a frame without data is skipped. */
  function EventsOf(frames: seq<string>): seq<Event> {
    if frames == [] then []
    else
      var e := FrameEvent(frames[|frames| - 1]);
      EventsOf(frames[..|frames| - 1]) + if e.data == "" then [] else [e]
  }

  function EventField(name: string): string {
    "event: " + name
  }

  function DataField(data: string): string {
    "data: " + data
  }

  function Framed(e: Event): string {
    EventField(e.name) + "\n" + DataField(e.data)
  }

  predicate Sendable(e: Event) {
    && '\n' !in e.name && '\n' !in e.data && e.data != ""
    && Trimmed(e.name) && Trimmed(e.data)
  }

  lemma {:induction false} LinesOfTwo(a: string, b: string)
    requires '\n' !in a && '\n' !in b
    ensures Lines(a + "\n" + b) == [a, b]
    decreases |a|
  {
    var s := a + "\n" + b;
    if a == "" {
      assert s[0] == '\n' && s[1..] == b;
      OneLine(b);
    } else {
      assert a[0] in a;
      assert s[0] == a[0] && s[1..] == a[1..] + "\n" + b;
      LinesOfTwo(a[1..], b);
      assert [a[0]] + a[1..] == a;
    }
  }

  lemma TrimAfterSpace(s: string)
    requires Trimmed(s)
    ensures Trim(" " + s) == s
  {
    var t := " " + s;
    assert t[1..] == s;
    assert TrimLeft(t) == TrimLeft(s);
    hide TrimLeft, TrimRight, IsSpace;
    TrimTrimmed(s);
  }

  lemma EventLine(name: string)
    requires Trimmed(name)
    ensures forall e :: WithLine(e, EventField(name)) == Event(name, e.data)
  {
    hide Trim, IsSpace, Trimmed;
    var a := EventField(name);
    assert a[..6] == "event:" && a[6..] == " " + name;
    TrimAfterSpace(name);
  }

  lemma DataLine(data: string)
    requires Trimmed(data)
    ensures forall e :: WithLine(e, DataField(data)) == Event(e.name, e.data + data)
  {
    hide Trim, IsSpace, Trimmed;
    var b := DataField(data);
    assert b[..5] == "data:" && b[5..] == " " + data && b[0] == 'd';
    TrimAfterSpace(data);
  }

  lemma TwoLines(e: Event, a: string, b: string)
    ensures WithLines(e, [a, b]) == WithLine(WithLine(e, a), b)
  {
    hide WithLine;
    assert [a, b][..1] == [a] && [a][..0] == [];
    assert WithLines(e, [a]) == WithLine(WithLines(e, []), a);
  }

  /** One event, written and read back. */
  lemma FrameRoundTrip(e: Event)
    requires Sendable(e)
    ensures FrameEvent(Framed(e)) == e
  {
    var a, b := EventField(e.name), DataField(e.data);
    assert '\n' !in a && '\n' !in b;
    EventLine(e.name);
    DataLine(e.data);
    hide WithLine, WithLines, Lines, EventField, DataField;
    LinesOfTwo(a, b);
    TwoLines(Event("message", ""), a, b);
    assert "" + e.data == e.data;
  }

  lemma FramedIsClean(e: Event)
    requires Sendable(e)
    ensures CleanFrame(Framed(e))
  {
    var f := Framed(e);
    BreaksOnce(e);
    assert f[|f| - 1] == e.data[|e.data| - 1];
    hide Framed;
    CleanByCharacters(f);
  }

  lemma BreaksOnce(e: Event)
    requires Sendable(e)
    ensures |Framed(e)| == 14 + |e.name| + |e.data|
    ensures forall i | 0 <= i < |Framed(e)| && i != 7 + |e.name| :: Framed(e)[i] != '\n'
  {
    var f := Framed(e);
    assert f == "event: " + e.name + "\n" + ("data: " + e.data);
    forall i | 0 <= i < |f| && i != 7 + |e.name| ensures f[i] != '\n' {
      if i < 7 {
        assert f[i] == "event: "[i];
      } else if i < 7 + |e.name| {
        assert f[i] == e.name[i - 7] && e.name[i - 7] in e.name;
      } else if i < 14 + |e.name| {
        assert f[i] == "data: "[i - 8 - |e.name|];
      } else {
        assert f[i] == e.data[i - 14 - |e.name|] && e.data[i - 14 - |e.name|] in e.data;
      }
    }
  }

  function AllFramed(es: seq<Event>): (r: seq<string>)
    ensures |r| == |es| && forall i | 0 <= i < |es| :: r[i] == Framed(es[i])
  {
    seq(|es|, i requires 0 <= i < |es| => Framed(es[i]))
  }

  lemma AllFramedInit(es: seq<Event>)
    requires es != []
    ensures AllFramed(es)[..|es| - 1] == AllFramed(es[..|es| - 1])
  {
    hide Framed;
  }

  lemma {:induction false} EventsOfFramed(es: seq<Event>)
    requires forall e | e in es :: Sendable(e)
    ensures EventsOf(AllFramed(es)) == es
  {
    if es != [] {
      var init, e := es[..|es| - 1], es[|es| - 1];
      EventsOfFramed(init);
      FrameRoundTrip(e);
      AllFramedInit(es);
      assert AllFramed(es)[|es| - 1] == Framed(e) && e.data != "";
      hide FrameEvent, Framed, AllFramed, Sendable;
      assert EventsOf(AllFramed(es)) == EventsOf(AllFramed(init)) + [e];
      hide *;
      InitLast(es);
    }
  }

  /** Main result on the stream: events with clean fields, however the bytes are cut and whatever unfinished frame
      follows them, arrive as sent, in order; the unfinished frame is not delivered. */
  lemma StreamRoundTrip(es: seq<Event>, rest: string, chunks: seq<string>)
    requires (forall e | e in es :: Sendable(e)) && !Contains(rest, SEPARATOR)
    requires Concat(chunks) == Joined(AllFramed(es), rest)
    ensures Fed(chunks).1 == rest && EventsOf(Fed(chunks).0) == es
  {
    ChunkingDoesNotMatter(chunks);
    forall f | f in AllFramed(es) ensures CleanFrame(f) {
      var i :| 0 <= i < |es| && AllFramed(es)[i] == f;
      assert es[i] in es;
      FramedIsClean(es[i]);
    }
    hide Framed, CleanFrame;
    CuttingUndoesJoining(AllFramed(es), rest);
    EventsOfFramed(es);
  }

  // ------------------------------------------------------------------ what the events do

  /** What the page takes from a parsed payload. */
  datatype Payload = Payload(threadId: Option<string>, text: Option<string>, provider: Option<string>,
      model: Option<string>,
                             usage: string, message: string)

  type Parser = string -> Option<Payload>

  datatype Chat = Chat(threadId: Option<string>, content: string, provider: Option<string>, model: Option<string>,
                       usage: Option<string>, error: Option<string>)

  const DEFAULT_ERROR := "Stream ended with an error."

  function Shown(c: Chat, e: Event, parse: Parser): Chat {
    match parse(e.data)
    case None => c
    case Some(p) =>
      if e.name == "meta" then
        c.(threadId := Thread(p, c), provider := OrElse(p.provider, c.provider), model := OrElse(p.model, c.model))
      else if e.name == "delta" && p.text.Some? then c.(content := c.content + p.text.value)
      else if e.name == "done" then
        c.(threadId := Thread(p, c), provider := OrElse(p.provider, c.provider), model := OrElse(p.model, c.model),
            usage := Some(p.usage))
      else if e.name == "error" then c.(error := Some(if p.message == "" then DEFAULT_ERROR else p.message))
      else c
  }

  function Thread(p: Payload, c: Chat): Option<string> {
    if p.threadId.Some? && p.threadId.value != "" then p.threadId else c.threadId
  }

  function ShownAll(c: Chat, es: seq<Event>, parse: Parser): Chat {
    if es == [] then c else Shown(ShownAll(c, es[..|es| - 1], parse), es[|es| - 1], parse)
  }

  function DeltaText(e: Event, parse: Parser): string {
    match parse(e.data)
    case Some(p) => if e.name == "delta" && p.text.Some? then p.text.value else ""
    case None => ""
  }

  function DeltaTexts(es: seq<Event>, parse: Parser): seq<string> {
    if es == [] then [] else DeltaTexts(es[..|es| - 1], parse) + [DeltaText(es[|es| - 1], parse)]
  }

  /** The answer shown is the delta texts in order; malformed data and the other events never touch it. */
  lemma {:induction false} ContentIsDeltas(c: Chat, es: seq<Event>, parse: Parser)
    ensures ShownAll(c, es, parse).content == c.content + Concat(DeltaTexts(es, parse))
  {
    if es != [] {
      var init, e := es[..|es| - 1], es[|es| - 1];
      ContentIsDeltas(c, init, parse);
      var ts := DeltaTexts(init, parse);
      assert (ts + [DeltaText(e, parse)])[..|ts|] == ts;
    }
  }

  /** The last value that an event of the list gives, or the one before. */
  function Last(es: seq<Event>, given: Event -> Option<string>, before: Option<string>): Option<string> {
    if es == [] then before
    else
      var last := given(es[|es| - 1]);
      if last.Some? then last else Last(es[..|es| - 1], given, before)
  }

  /** Which thread an event names: a `meta` or `done` event with a thread id that is not empty. */
  function ThreadNamed(parse: Parser): Event -> Option<string> {
    (e: Event) =>
      match parse(e.data)
      case None => None
      case Some(p) => if e.name in ["meta", "done"] && p.threadId != Some("") then p.threadId else None
  }

  function ProviderNamed(parse: Parser): Event -> Option<string> {
    (e: Event) =>
      match parse(e.data)
      case None => None
      case Some(p) => if e.name in ["meta", "done"] then p.provider else None
  }

  function ModelNamed(parse: Parser): Event -> Option<string> {
    (e: Event) =>
      match parse(e.data)
      case None => None
      case Some(p) => if e.name in ["meta", "done"] then p.model else None
  }

  function UsageGiven(parse: Parser): Event -> Option<string> {
    (e: Event) => match parse(e.data) case None => None case Some(p) => if e.name == "done" then Some(p.usage) else None
  }

  function ErrorGiven(parse: Parser): Event -> Option<string> {
    (e: Event) =>
      match parse(e.data)
      case None => None
      case Some(p) =>
        if e.name != "error" then None
        else if p.message == "" then Some("Stream ended with an error.") else Some(p.message)
  }

  lemma OneShown(c: Chat, e: Event, parse: Parser)
    ensures var c' := Shown(c, e, parse);
            && c'.threadId == OrElse(ThreadNamed(parse)(e), c.threadId)
            && c'.provider == OrElse(ProviderNamed(parse)(e), c.provider)
            && c'.model == OrElse(ModelNamed(parse)(e), c.model)
            && c'.usage == OrElse(UsageGiven(parse)(e), c.usage)
            && c'.error == OrElse(ErrorGiven(parse)(e), c.error)
  {
    assert "meta"[0] == 'm' && "done"[0] == 'd' && "error"[0] == 'e' && |"delta"| == 5 && |"done"| == 4;
  }

  /** Beside the text: the thread, provider and model shown are the last that a `meta` or `done` event named, the
      usage is that of the last `done`, and the error that of the last `error`. */
  lemma {:induction false} FieldsAreLastGiven(c: Chat, es: seq<Event>, parse: Parser)
    ensures var c' := ShownAll(c, es, parse);
            && c'.threadId == Last(es, ThreadNamed(parse), c.threadId)
            && c'.provider == Last(es, ProviderNamed(parse), c.provider)
            && c'.model == Last(es, ModelNamed(parse), c.model)
            && c'.usage == Last(es, UsageGiven(parse), c.usage)
            && c'.error == Last(es, ErrorGiven(parse), c.error)
  {
    if es != [] {
      FieldsAreLastGiven(c, es[..|es| - 1], parse);
      OneShown(ShownAll(c, es[..|es| - 1], parse), es[|es| - 1], parse);
      hide Shown, ThreadNamed, ProviderNamed, ModelNamed, UsageGiven, ErrorGiven;
    }
  }

  lemma {:induction false} ShownAllConcat(c: Chat, a: seq<Event>, b: seq<Event>, parse: Parser)
    ensures ShownAll(c, a + b, parse) == ShownAll(ShownAll(c, a, parse), b, parse)
    decreases |b|
  {
    if b == [] {
      assert a + b == a;
    } else {
      var init, e := b[..|b| - 1], b[|b| - 1];
      assert (a + b)[..|a + b| - 1] == a + init;
      ShownAllConcat(c, a, init, parse);
    }
  }

  lemma {:induction false} EventsOfConcat(a: seq<string>, b: seq<string>)
    ensures EventsOf(a + b) == EventsOf(a) + EventsOf(b)
    decreases |b|
  {
    if b == [] {
      assert a + b == a;
    } else {
      assert (a + b)[..|a + b| - 1] == a + b[..|b| - 1];
      EventsOfConcat(a, b[..|b| - 1]);
    }
  }

  // ------------------------------------------------------------------ the program

  method ParseFrame(rawEvent: string) returns (eventName: string, dataLine: string)
    ensures Event(eventName, dataLine) == FrameEvent(rawEvent)
  {
    hide Trim, Lines, WithLine;
    eventName, dataLine := "message", "";
    var lines := Lines(rawEvent);
    ghost var start := Event(eventName, dataLine);
    var i := 0;
    while i < |lines|
      invariant 0 <= i <= |lines|
      invariant Event(eventName, dataLine) == WithLines(start, lines[..i])
    {
      assert lines[..i + 1] == lines[..i] + [lines[i]];
      eventName, dataLine := ParseLine(eventName, dataLine, lines[i]);
      i := i + 1;
    }
    assert lines[..|lines|] == lines;
  }

  method ParseLine(eventName0: string, dataLine0: string, line: string) returns (eventName: string, dataLine: string)
    ensures Event(eventName, dataLine) == WithLine(Event(eventName0, dataLine0), line)
  {
    hide Trim;
    eventName, dataLine := eventName0, dataLine0;
    if StartsWith(line, "event:") {
      eventName := Trim(line[6..]);
    } else if StartsWith(line, "data:") {
      dataLine := dataLine + Trim(line[5..]);
    }
  }

  class ChatPage {
    var chat: Chat

    method OnEvent(eventName: string, dataLine: string, parse: Parser)
      modifies this
      ensures chat == Shown(old(chat), Event(eventName, dataLine), parse)
    {
      var parsed := parse(dataLine);
      if parsed.None? {
        return;
      }
      var p := parsed.value;
      if eventName == "meta" {
        if p.threadId.Some? && p.threadId.value != "" {
          chat := chat.(threadId := p.threadId);
        }
        chat := chat.(provider := OrElse(p.provider, chat.provider), model := OrElse(p.model, chat.model));
      } else if eventName == "delta" && p.text.Some? {
        chat := chat.(content := chat.content + p.text.value);
      } else if eventName == "done" {
        if p.threadId.Some? && p.threadId.value != "" {
          chat := chat.(threadId := p.threadId);
        }
        chat := chat.(provider := OrElse(p.provider, chat.provider), model := OrElse(p.model, chat.model),
            usage := Some(p.usage));
      } else if eventName == "error" {
        chat := chat.(error := Some(if p.message == "" then DEFAULT_ERROR else p.message));
      }
    }

    /** One complete frame. */
    method Deliver(rawEvent: string, parse: Parser)
      modifies this
      ensures chat == ShownAll(old(chat), EventsOf([rawEvent]), parse)
    {
      var eventName, dataLine := ParseFrame(rawEvent);
      hide FrameEvent;
      var e := Event(eventName, dataLine);
      assert [rawEvent][..0] == [] && [e][..0] == [];
      assert EventsOf([rawEvent]) == EventsOf([]) + if dataLine == "" then [] else [e];
      if dataLine != "" {
        OnEvent(eventName, dataLine, parse);
        hide Shown;
        assert ShownAll(old(chat), [e], parse) == Shown(ShownAll(old(chat), [], parse), e, parse);
      }
    }

    /** Cut the complete frames off the buffer and act on each. */
    method DrainBuffer(buffer0: string, parse: Parser) returns (buffer: string)
      modifies this
      ensures var (frames, rest) := Drained(buffer0);
              buffer == rest && chat == ShownAll(old(chat), EventsOf(frames), parse)
    {
      hide EventsOf, ShownAll, Drained;
      buffer := buffer0;
      ghost var done: seq<string> := [];
      ghost var c0 := chat;
      assert chat == ShownAll(c0, EventsOf(done), parse) by { Nothing(c0, parse); }
      var sep := IndexOf(buffer, SEPARATOR, 0);
      assert [] + Drained(buffer0).0 == Drained(buffer0).0;
      while sep >= 0
        invariant sep == IndexOf(buffer, SEPARATOR, 0)
        invariant Drained(buffer0) == (done + Drained(buffer).0, Drained(buffer).1)
        invariant chat == ShownAll(c0, EventsOf(done), parse)
        decreases |buffer|
      {
        var rawEvent := buffer[..sep];
        DrainedFrame(buffer, sep);
        Assoc(done, [rawEvent], Drained(buffer[sep + 2..]).0);
        buffer := buffer[sep + 2..];
        Deliver(rawEvent, parse);
        EventsOfConcat(done, [rawEvent]);
        ShownAllConcat(c0, EventsOf(done), EventsOf([rawEvent]), parse);
        done := done + [rawEvent];
        sep := IndexOf(buffer, SEPARATOR, 0);
      }
      assert Drained(buffer) == ([], buffer) by { DrainedWhole(buffer); }
      assert done + [] == done;
    }

    lemma Nothing(c: Chat, parse: Parser)
      ensures ShownAll(c, EventsOf([]), parse) == c
    {
    }

    /** The reading loop: what is shown at the end is what the whole text says, whatever the chunks. */
    method ReadStream(chunks: seq<string>, parse: Parser)
      modifies this
      ensures chat == ShownAll(old(chat), EventsOf(Drained(Concat(chunks)).0), parse)
    {
      hide Shown, FrameEvent;
      ghost var c0 := chat;
      var buffer := "";
      var i := 0;
      while i < |chunks|
        invariant 0 <= i <= |chunks|
        invariant buffer == Fed(chunks[..i]).1 && !Contains(buffer, SEPARATOR)
        invariant chat == ShownAll(c0, EventsOf(Fed(chunks[..i]).0), parse)
      {
        assert chunks[..i + 1][..i] == chunks[..i];
        ghost var before, more := Fed(chunks[..i]).0, Drained(buffer + chunks[i]).0;
        RestHasNoSeparator(buffer + chunks[i]);
        EventsOfConcat(before, more);
        ShownAllConcat(c0, EventsOf(before), EventsOf(more), parse);
        buffer := buffer + chunks[i];
        buffer := DrainBuffer(buffer, parse);
        i := i + 1;
      }
      assert chunks[..|chunks|] == chunks;
      ChunkingDoesNotMatter(chunks);
    }
  }
}
