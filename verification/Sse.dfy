/** Server-sent events: the frames the server prints, and the parser that sections 9.2.5 and
    9.2.6 of the WHATWG HTML standard prescribe for clients. */
module Sse {
  import opened Text

  // ----- the printer -----

  /** writeSSEFrame refuses the rest. */
  predicate Accepted(name: string, id: string) {
    !Contains(name, {'\r', '\n'}) && !Contains(id, {'\0', '\r', '\n'})
  }

  function DataLines(lines: seq<string>): seq<string> {
    if lines == [] then [] else ["data: " + lines[0]] + DataLines(lines[1..])
  }

  /** A header line that is left out when its value is empty. */
  function Optional(name: string, value: string): seq<string> {
    if value == "" then [] else [name + ": " + value]
  }

  function Header(name: string, id: string): seq<string> {
    Optional("id", id) + Optional("event", name)
  }

  function FrameLines(name: string, id: string, data: string): seq<string> {
    Header(name, id) + DataLines(Split(LineFeeds(data), '\n'))
  }

  /** The text of a frame: its lines, then a blank one. */
  function FrameText(name: string, id: string, data: string): string {
    Unlines(FrameLines(name, id, data)) + "\n"
  }

  // ----- the parser -----

  const BYTE_ORDER_MARK := '\U{FEFF}'

  datatype Message = Message(kind: string, data: string, lastEventId: string)

  /** `line` is the line read so far, `cr` says that a carriage return just ended a line, `atStart`
      that nothing has been read; data, kind, id and retry are the standard's buffers and
      `lastEventId` the event source's last event ID string. */
  datatype Parser = Parser(
    atStart: bool, cr: bool, line: string, data: string, kind: string, id: string,
    lastEventId: string, retry: string, messages: seq<Message>)

  const NEW_PARSER := Parser(true, false, "", "", "", "", "", "", [])

  function Dispatch(p: Parser): Parser {
    var q := p.(line := "", lastEventId := p.id, data := "", kind := "");
    if p.data == "" then q
    else
      var n := |p.data| - 1;
      var data := if p.data[n] == '\n' then p.data[..n] else p.data;
      q.(messages := p.messages + [Message(if p.kind == "" then "message" else p.kind, data, p.id)])
  }

  function ColonAt(line: string, i: nat): (k: nat)
    requires i <= |line|
    ensures i <= k <= |line|
    decreases |line| - i
  {
    if i == |line| || line[i] == ':' then i else ColonAt(line, i + 1)
  }

  predicate Digits(s: string) {
    forall c :: c in s ==> '0' <= c <= '9'
  }

  function SetField(p: Parser, name: string, value: string): Parser {
    if name == "event" then p.(kind := value)
    else if name == "data" then p.(data := p.data + value + "\n")
    else if name == "id" then if '\0' in value then p else p.(id := value)
    else if name == "retry" then if Digits(value) then p.(retry := value) else p
    else p
  }

  function EndLine(p: Parser): Parser {
    var line, q := p.line, p.(line := "");
    if line == "" then Dispatch(p)
    else
      var k := ColonAt(line, 0);
      if k == 0 then q
      else if k == |line| then SetField(q, line, "")
      else
        var value := line[k + 1..];
        SetField(q, line[..k], if value != "" && value[0] == ' ' then value[1..] else value)
  }

  function FeedChar(p: Parser, c: char): Parser {
    if c == '\n' && p.cr then p.(cr := false)
    else if c == '\n' then EndLine(p)
    else if c == '\r' then EndLine(p).(cr := true)
    else p.(line := p.line + [c], cr := false)
  }

  /** One leading byte order mark is ignored. */
  function Feed(p: Parser, c: char): Parser {
    if p.atStart && c == BYTE_ORDER_MARK then p.(atStart := false) else FeedChar(p.(atStart := false), c)
  }

  function Feeds(p: Parser, t: string): Parser
    decreases |t|
  {
    if t == "" then p else Feeds(Feed(p, t[0]), t[1..])
  }

  function Parse(t: string): Parser {
    Feeds(NEW_PARSER, t)
  }

  lemma {:induction false} FeedsConcat(p: Parser, t: string, u: string)
    ensures Feeds(p, t + u) == Feeds(Feeds(p, t), u)
    decreases |t|
  {
    if t == "" {
      assert t + u == u;
    } else {
      assert (t + u)[1..] == t[1..] + u;
      FeedsConcat(Feed(p, t[0]), t[1..], u);
    }
  }

  // ----- reading lines -----

  predicate Plain(t: string) {
    '\r' !in t && '\n' !in t
  }

  lemma {:induction false} FeedsPlain(p: Parser, t: string)
    requires Plain(t) && !p.atStart && !p.cr
    ensures Feeds(p, t) == p.(line := p.line + t)
    decreases |t|
  {
    if t == "" {
      assert p.line + t == p.line;
    } else {
      FeedsPlain(Feed(p, t[0]), t[1..]);
      assert p.line + t == p.line + [t[0]] + t[1..];
    }
  }

  lemma FeedsLine(p: Parser, line: string)
    requires Plain(line) && !p.atStart && !p.cr && p.line == ""
    ensures Feeds(p, line + "\n") == EndLine(p.(line := line))
  {
    FeedsConcat(p, line, "\n");
    FeedsPlain(p, line);
    assert "" + line == line;
    var q := p.(line := line);
    assert Feeds(q, "\n") == Feeds(Feed(q, '\n'), "");
  }

  lemma {:induction false} ColonIs(line: string, i: nat, k: nat)
    requires i <= k < |line| && line[k] == ':' && forall j :: i <= j < k ==> line[j] != ':'
    ensures ColonAt(line, i) == k
    decreases k - i
  {
    if i < k { ColonIs(line, i + 1, k); }
  }

  /** A printed field is read back as that field, whatever its value. */
  lemma FieldIsRead(p: Parser, name: string, value: string)
    requires name != "" && ':' !in name
    ensures EndLine(p.(line := name + ": " + value)) == SetField(p.(line := ""), name, value)
  {
    var line := name + ": " + value;
    ColonIs(line, 0, |name|);
    assert line[..|name|] == name;
    assert line[|name| + 1..] == " " + value;
    assert (" " + value)[1..] == value;
  }

  lemma FeedsField(p: Parser, name: string, value: string)
    requires name != "" && ':' !in name && Plain(name) && Plain(value) && !p.atStart && !p.cr && p.line == ""
    ensures Feeds(p, name + ": " + value + "\n") == SetField(p, name, value)
  {
    FeedsLine(p, name + ": " + value);
    FieldIsRead(p, name, value);
    assert p.(line := "") == p;
  }

  lemma DataText(lines: seq<string>)
    requires lines != []
    ensures Unlines(DataLines(lines)) == ("data: " + lines[0] + "\n") + Unlines(DataLines(lines[1..]))
  {
    var all := DataLines(lines);
    assert all[0] == "data: " + lines[0] && all[1..] == DataLines(lines[1..]);
  }

  lemma FeedsDataLine(p: Parser, line: string)
    requires !p.atStart && !p.cr && p.line == "" && Plain(line)
    ensures Feeds(p, "data: " + line + "\n") == p.(data := p.data + line + "\n")
  {
    FeedsField(p, "data", line);
    assert "data" + ": " == "data: ";
  }

  lemma FeedsFirstData(p: Parser, lines: seq<string>)
    requires !p.atStart && !p.cr && p.line == "" && lines != [] && Plain(lines[0])
    ensures Feeds(p, Unlines(DataLines(lines)))
      == Feeds(p.(data := p.data + lines[0] + "\n"), Unlines(DataLines(lines[1..])))
  {
    var first, rest := "data: " + lines[0] + "\n", Unlines(DataLines(lines[1..]));
    assert Unlines(DataLines(lines)) == first + rest by { DataText(lines); }
    assert Feeds(p, first + rest) == Feeds(Feeds(p, first), rest) by { FeedsConcat(p, first, rest); }
    assert Feeds(p, first) == p.(data := p.data + lines[0] + "\n") by { FeedsDataLine(p, lines[0]); }
  }

  lemma {:induction false} FeedsData(p: Parser, lines: seq<string>)
    requires !p.atStart && !p.cr && p.line == "" && forall i :: 0 <= i < |lines| ==> Plain(lines[i])
    ensures Feeds(p, Unlines(DataLines(lines))) == p.(data := p.data + Unlines(lines))
    decreases |lines|
  {
    if lines == [] {
      assert p.data + Unlines(lines) == p.data;
    } else {
      var rest := DataLines(lines[1..]);
      var q := p.(data := p.data + lines[0] + "\n");
      assert Feeds(p, Unlines(DataLines(lines))) == Feeds(q, Unlines(rest)) by { FeedsFirstData(p, lines); }
      FeedsData(q, lines[1..]);
      assert q.data + Unlines(lines[1..]) == p.data + Unlines(lines);
    }
  }

  // ----- frames -----

  /** Between frames: nothing is pending. */
  predicate Clean(p: Parser) {
    !p.atStart && !p.cr && p.line == "" && p.data == "" && p.kind == "" && p.id == p.lastEventId
  }

  lemma AcceptedIsPlain(name: string, id: string)
    ensures Accepted(name, id) <==> Plain(name) && Plain(id) && '\0' !in id
  {
    assert '\r' in {'\r', '\n'} && '\n' in {'\r', '\n'};
    assert '\0' in {'\0', '\r', '\n'} && '\r' in {'\0', '\r', '\n'} && '\n' in {'\0', '\r', '\n'};
  }

  lemma FeedsOptional(p: Parser, name: string, value: string)
    requires name != "" && ':' !in name && Plain(name) && Plain(value) && !p.atStart && !p.cr && p.line == ""
    ensures Feeds(p, Unlines(Optional(name, value))) == if value == "" then p else SetField(p, name, value)
  {
    if value != "" {
      var line := name + ": " + value;
      assert Unlines([line]) == line + "\n" + Unlines([]) == line + "\n";
      FeedsField(p, name, value);
    }
  }

  lemma FeedsHeader(p: Parser, name: string, id: string)
    requires Clean(p) && Accepted(name, id)
    ensures Feeds(p, Unlines(Header(name, id))) == p.(id := if id == "" then p.id else id, kind := name)
  {
    AcceptedIsPlain(name, id);
    UnlinesConcat(Optional("id", id), Optional("event", name));
    FeedsConcat(p, Unlines(Optional("id", id)), Unlines(Optional("event", name)));
    FeedsOptional(p, "id", id);
    FeedsOptional(p.(id := if id == "" then p.id else id), "event", name);
  }

  function Received(p: Parser, name: string, id: string, data: string): Parser {
    var last := if id == "" then p.id else id;
    p.(id := last, lastEventId := last,
       messages := p.messages + [Message(if name == "" then "message" else name, LineFeeds(data), last)])
  }

  lemma LinesArePlain(data: string)
    ensures forall i :: 0 <= i < |Split(LineFeeds(data), '\n')| ==> Plain(Split(LineFeeds(data), '\n')[i])
  {
    LineFeedsHasNoReturn(data);
    forall i | 0 <= i < |Split(LineFeeds(data), '\n')| ensures Plain(Split(LineFeeds(data), '\n')[i]) {
      SplitParts(LineFeeds(data), '\n', i);
    }
  }

  /** All but the blank line of a frame. */
  lemma FeedsBody(p: Parser, name: string, id: string, data: string)
    requires Clean(p) && Accepted(name, id)
    ensures Feeds(p, Unlines(FrameLines(name, id, data)))
      == p.(id := if id == "" then p.id else id, kind := name, data := LineFeeds(data) + "\n")
  {
    var lines := Split(LineFeeds(data), '\n');
    UnlinesConcat(Header(name, id), DataLines(lines));
    FeedsConcat(p, Unlines(Header(name, id)), Unlines(DataLines(lines)));
    FeedsHeader(p, name, id);
    LinesArePlain(data);
    var q := p.(id := if id == "" then p.id else id, kind := name);
    FeedsData(q, lines);
    UnlinesSplit(LineFeeds(data));
    assert q.data + (LineFeeds(data) + "\n") == LineFeeds(data) + "\n";
  }

  lemma FeedsFrame(p: Parser, name: string, id: string, data: string)
    requires Clean(p) && Accepted(name, id)
    ensures Feeds(p, FrameText(name, id, data)) == Received(p, name, id, data)
  {
    var body := Unlines(FrameLines(name, id, data));
    FeedsConcat(p, body, "\n");
    FeedsBody(p, name, id, data);
    var q := Feeds(p, body);
    assert Feeds(q, "\n") == Feeds(Feed(q, '\n'), "");
    assert q.data[..|q.data| - 1] == LineFeeds(data);
  }

  lemma FeedsComment(p: Parser, text: string)
    requires Clean(p) && Plain(text)
    ensures Feeds(p, ":" + text + "\n\n") == p
  {
    var line := ":" + text;
    assert line + "\n\n" == line + "\n" + "\n";
    FeedsConcat(p, line + "\n", "\n");
    FeedsLine(p, line);
    ColonIs(line, 0, 0);
    assert EndLine(p.(line := line)) == p;
    assert Feeds(p, "\n") == Feeds(Feed(p, '\n'), "");
  }

  // ----- streams -----

  /** What the server puts on the wire: frames, and the comments that open the stream and keep it alive. */
  datatype Item = Frame(name: string, id: string, data: string) | Comment(text: string)

  predicate Printable(i: Item) {
    if i.Frame? then Accepted(i.name, i.id) else Plain(i.text)
  }

  function ItemText(i: Item): string {
    if i.Frame? then FrameText(i.name, i.id, i.data) else ":" + i.text + "\n\n"
  }

  function StreamText(items: seq<Item>): string {
    if items == [] then "" else StreamText(items[..|items| - 1]) + ItemText(items[|items| - 1])
  }

  /** The latest id printed that is not empty. */
  function LatestId(items: seq<Item>): string {
    if items == [] then ""
    else
      var last := items[|items| - 1];
      if last.Frame? && last.id != "" then last.id else LatestId(items[..|items| - 1])
  }

  /** The messages a client should see. */
  function Messages(items: seq<Item>): seq<Message> {
    if items == [] then []
    else
      var front, last := items[..|items| - 1], items[|items| - 1];
      if last.Comment? then Messages(front)
      else Messages(front) + [Message(if last.name == "" then "message" else last.name, LineFeeds(last.data), LatestId(items))]
  }

  lemma ItemNotMark(i: Item)
    ensures ItemText(i) != "" && ItemText(i)[0] != BYTE_ORDER_MARK
  {
    if i.Frame? {
      var lines := Split(LineFeeds(i.data), '\n');
      assert DataLines(lines)[0] == "data: " + lines[0];
      var all := FrameLines(i.name, i.id, i.data);
      assert all[0] == (if i.id != "" then "id: " + i.id else if i.name != "" then "event: " + i.name else "data: " + lines[0]);
      assert all[0] != "" && Unlines(all) == all[0] + "\n" + Unlines(all[1..]);
      assert ItemText(i)[0] == all[0][0];
    }
  }

  lemma FeedsItem(p: Parser, i: Item)
    requires Clean(p) && Printable(i)
    ensures Feeds(p, ItemText(i)) == if i.Frame? then Received(p, i.name, i.id, i.data) else p
  {
    if i.Frame? { FeedsFrame(p, i.name, i.id, i.data); } else { FeedsComment(p, i.text); }
  }

  /** A parser that has read the items: what it has dispatched and remembers. */
  ghost predicate HasRead(p: Parser, items: seq<Item>) {
    Clean(p) && p.messages == Messages(items) && p.lastEventId == LatestId(items)
  }

  lemma {:induction false} ReadsBack(p: Parser, items: seq<Item>)
    requires p == NEW_PARSER.(atStart := false) && forall i :: 0 <= i < |items| ==> Printable(items[i])
    ensures HasRead(Feeds(p, StreamText(items)), items)
    decreases |items|
  {
    if items != [] {
      var front, last := items[..|items| - 1], items[|items| - 1];
      ReadsBack(p, front);
      FeedsConcat(p, StreamText(front), ItemText(last));
      FeedsItem(Feeds(p, StreamText(front)), last);
    }
  }

  lemma {:induction false} TextNotMark(items: seq<Item>)
    requires items != []
    ensures StreamText(items) != "" && StreamText(items)[0] != BYTE_ORDER_MARK
    decreases |items|
  {
    var front, last := items[..|items| - 1], items[|items| - 1];
    if front == [] {
      ItemNotMark(last);
      assert StreamText(items) == ItemText(last);
    } else {
      TextNotMark(front);
    }
  }

  /** Printing then parsing: any sequence of frames the server accepts, with any comments between
      them, is read back as exactly those messages, and the client's last event ID is the latest
      one printed. */
  lemma PrintedStreamIsReadBack(items: seq<Item>)
    requires forall i :: 0 <= i < |items| ==> Printable(items[i])
    ensures Parse(StreamText(items)).messages == Messages(items)
    ensures Parse(StreamText(items)).lastEventId == LatestId(items)
  {
    if items != [] {
      TextNotMark(items);
      ReadsBack(NEW_PARSER.(atStart := false), items);
      var t := StreamText(items);
      assert Feed(NEW_PARSER, t[0]) == Feed(NEW_PARSER.(atStart := false), t[0]);
    }
  }

  // ----- what cannot be printed -----

  /** Whatever it reads, a client never holds a line break in a name or an id, nor a NUL in an id. */
  ghost predicate Tidy(p: Parser) {
    && Plain(p.line) && Plain(p.kind) && Plain(p.id) && '\0' !in p.id
    && forall i :: 0 <= i < |p.messages| ==>
      Plain(p.messages[i].kind) && Plain(p.messages[i].lastEventId) && '\0' !in p.messages[i].lastEventId
  }

  lemma SetFieldKeepsTidy(p: Parser, name: string, value: string)
    requires Tidy(p) && Plain(value)
    ensures Tidy(SetField(p, name, value))
  {
  }

  lemma EndLineKeepsTidy(p: Parser)
    requires Tidy(p)
    ensures Tidy(EndLine(p))
  {
    var line, q := p.line, p.(line := "");
    if line != "" {
      var k := ColonAt(line, 0);
      if k == |line| {
        SetFieldKeepsTidy(q, line, "");
      } else if 0 < k {
        var rest := line[k + 1..];
        SetFieldKeepsTidy(q, line[..k], if rest != "" && rest[0] == ' ' then rest[1..] else rest);
      }
    }
  }

  lemma {:induction false} FeedsKeepTidy(p: Parser, t: string)
    requires Tidy(p)
    ensures Tidy(Feeds(p, t))
    decreases |t|
  {
    if t != "" {
      EndLineKeepsTidy(p.(atStart := false));
      FeedsKeepTidy(Feed(p, t[0]), t[1..]);
    }
  }

  /** The frames the server refuses are exactly those that a client could not read back as one message
      with that name, id and data. */
  lemma SurvivesIffAccepted(name: string, id: string, data: string)
    ensures Parse(FrameText(name, id, data)).messages == [Message(if name == "" then "message" else name, LineFeeds(data), id)]
      <==> Accepted(name, id)
  {
    AcceptedIsPlain(name, id);
    if Accepted(name, id) {
      var items := [Frame(name, id, data)];
      PrintedStreamIsReadBack(items);
      assert items[..0] == [];
      assert StreamText(items) == "" + FrameText(name, id, data) == FrameText(name, id, data);
      assert Messages([]) == [] && LatestId([]) == "";
    } else {
      var messages := Parse(FrameText(name, id, data)).messages;
      FeedsKeepTidy(NEW_PARSER, FrameText(name, id, data));
      if |messages| == 1 {
        assert Plain(messages[0].kind) && Plain(messages[0].lastEventId) && '\0' !in messages[0].lastEventId;
      }
    }
  }

  // ----- streams cut short -----

  predicate SameView(p: Parser, q: Parser) {
    p.messages == q.messages && p.lastEventId == q.lastEventId
  }

  lemma PrefixOfFirst(p: Parser, first: string, rest: string, k: nat)
    requires !p.atStart && !p.cr && p.line == "" && Plain(first) && k <= |first|
    ensures SameView(Feeds(p, (first + "\n" + rest)[..k]), p)
  {
    assert (first + "\n" + rest)[..k] == first[..k];
    FeedsPlain(p, first[..k]);
  }

  lemma PrefixPastFirst(p: Parser, first: string, rest: string, j: nat)
    requires !p.atStart && !p.cr && p.line == "" && Plain(first) && j <= |rest|
    ensures Feeds(p, (first + "\n" + rest)[..|first| + 1 + j]) == Feeds(EndLine(p.(line := first)), rest[..j])
  {
    assert (first + "\n" + rest)[..|first| + 1 + j] == (first + "\n") + rest[..j];
    FeedsConcat(p, first + "\n", rest[..j]);
    FeedsLine(p, first);
  }

  lemma {:induction false} PrefixOfLines(p: Parser, lines: seq<string>, k: nat)
    requires !p.atStart && !p.cr && p.line == "" && k <= |Unlines(lines)|
    requires forall i :: 0 <= i < |lines| ==> Plain(lines[i]) && lines[i] != ""
    ensures SameView(Feeds(p, Unlines(lines)[..k]), p)
    decreases |lines|
  {
    if lines != [] {
      var first, rest := lines[0], Unlines(lines[1..]);
      if k <= |first| {
        PrefixOfFirst(p, first, rest, k);
      } else {
        PrefixPastFirst(p, first, rest, k - |first| - 1);
        PrefixOfLines(EndLine(p.(line := first)), lines[1..], k - |first| - 1);
      }
    }
  }

  lemma {:induction false} DataLinesFit(lines: seq<string>)
    requires forall i :: 0 <= i < |lines| ==> Plain(lines[i])
    ensures forall i :: 0 <= i < |DataLines(lines)| ==> Plain(DataLines(lines)[i]) && DataLines(lines)[i] != ""
    decreases |lines|
  {
    if lines != [] { DataLinesFit(lines[1..]); }
  }

  lemma FrameLinesFit(name: string, id: string, data: string)
    requires Accepted(name, id)
    ensures forall i :: 0 <= i < |FrameLines(name, id, data)| ==>
      Plain(FrameLines(name, id, data)[i]) && FrameLines(name, id, data)[i] != ""
  {
    AcceptedIsPlain(name, id);
    LinesArePlain(data);
    DataLinesFit(Split(LineFeeds(data), '\n'));
  }

  /** An item cut off before its last character changes nothing the client can see. */
  lemma PartialItemIsInvisible(p: Parser, i: Item, k: nat)
    requires Clean(p) && Printable(i) && k < |ItemText(i)|
    ensures SameView(Feeds(p, ItemText(i)[..k]), p)
  {
    var lines := if i.Frame? then FrameLines(i.name, i.id, i.data) else [":" + i.text];
    if i.Frame? {
      FrameLinesFit(i.name, i.id, i.data);
    } else {
      assert Unlines(lines) == ":" + i.text + "\n" + Unlines([]) == ":" + i.text + "\n";
      assert ":" + i.text + "\n\n" == Unlines(lines) + "\n";
    }
    assert ItemText(i)[..k] == Unlines(lines)[..k];
    PrefixOfLines(p, lines, k);
  }

  /** A connection may break anywhere: the client has seen exactly the items printed in full, and
      resumes after the latest id among them. */
  lemma BrokenStreamShowsWholeItems(items: seq<Item>, next: Item, k: nat)
    requires Printable(next) && k < |ItemText(next)| && forall i :: 0 <= i < |items| ==> Printable(items[i])
    ensures Parse(StreamText(items) + ItemText(next)[..k]).messages == Messages(items)
    ensures Parse(StreamText(items) + ItemText(next)[..k]).lastEventId == LatestId(items)
  {
    var p, t := NEW_PARSER.(atStart := false), StreamText(items) + ItemText(next)[..k];
    FeedsConcat(p, StreamText(items), ItemText(next)[..k]);
    ReadsBack(p, items);
    PartialItemIsInvisible(Feeds(p, StreamText(items)), next, k);
    if t != "" {
      assert t[0] != BYTE_ORDER_MARK by {
        ItemNotMark(next);
        if items != [] { TextNotMark(items); }
      }
      assert Feed(NEW_PARSER, t[0]) == Feed(p, t[0]);
    }
  }

  // ----- writing -----

  /** A response writer: a write that fails may have sent part of its text. */
  class Writer {
    var out: string
    /** A write has failed. */
    var broken: bool

    constructor ()
      ensures out == "" && !broken
    {
      out, broken := "", false;
    }

    method Print(text: string) returns (ok: bool)
      modifies this
      ensures ok ==> out == old(out) + text && broken == old(broken)
      ensures !ok ==> old(out) <= out <= old(out) + text && broken
    {
      var sent := AnyPrefix(text);
      ok := sent == |text|;
      broken := broken || !ok;
      out := out + text[..sent];
      assert sent == |text| ==> text[..sent] == text;
    }

    static method AnyPrefix(text: string) returns (n: nat)
      ensures n <= |text|
    {
      n := *;
      if n > |text| { n := |text|; }
    }
  }

  /** The output is its old text and a beginning of `text`. */
  predicate Sent(out: string, base: string, text: string) {
    base <= out <= base + text
  }

  lemma SentFirst(out: string, base: string, a: string, b: string)
    requires Sent(out, base, a)
    ensures Sent(out, base, a + b)
  {
    Regroup(base, a, b);
    assert out == (base + a)[..|out|] == (base + a + b)[..|out|];
  }

  lemma SentNext(out: string, base: string, a: string, b: string)
    requires Sent(out, base + a, b)
    ensures Sent(out, base, a + b)
  {
    Regroup(base, a, b);
    assert base == (base + a)[..|base|] == out[..|base|];
  }

  method WriteOptional(w: Writer, name: string, value: string) returns (ok: bool)
    modifies w
    ensures ok ==> w.out == old(w.out) + Unlines(Optional(name, value))
    ensures !ok ==> Sent(w.out, old(w.out), Unlines(Optional(name, value)))
    ensures if ok then w.broken == old(w.broken) else w.broken
  {
    var line := name + ": " + value;
    assert Unlines([line]) == line + "\n" + Unlines([]) == line + "\n";
    ok := true;
    if value != "" {
      ok := w.Print(line + "\n");
    } else {
      assert w.out == old(w.out) + Unlines([]);
    }
  }

  /** The data lines and the blank line; the test for line breaks only saves the splitting. */
  method WriteData(w: Writer, data: string) returns (ok: bool)
    modifies w
    ensures ok ==> w.out == old(w.out) + (Unlines(DataLines(Split(LineFeeds(data), '\n'))) + "\n")
    ensures !ok ==> Sent(w.out, old(w.out), Unlines(DataLines(Split(LineFeeds(data), '\n'))) + "\n")
    ensures if ok then w.broken == old(w.broken) else w.broken
  {
    if !Contains(data, {'\r', '\n'}) {
      OneLine(data);
      ok := w.Print("data: " + data + "\n\n");
    } else {
      TwoPassesAreLineFeeds(data);
      ok := WriteLines(w, Split(ReplaceAll(ReplaceAll(data, "\r\n", "\n"), "\r", "\n"), '\n'));
    }
  }

  lemma OneLine(data: string)
    requires !Contains(data, {'\r', '\n'})
    ensures Unlines(DataLines(Split(LineFeeds(data), '\n'))) + "\n" == "data: " + data + "\n\n"
  {
    assert '\r' in {'\r', '\n'} && '\n' in {'\r', '\n'};
    LineFeedsHasNoReturn(data);
    SplitWhole(data, '\n');
    assert DataLines([data]) == ["data: " + data] + DataLines([data][1..]) == ["data: " + data];
    assert Unlines(["data: " + data]) == "data: " + data + "\n" + Unlines([]);
  }

  /** The text of the data lines from i on, and the blank line. */
  function Rest(lines: seq<string>, i: nat): string
    requires i <= |lines|
  {
    Unlines(DataLines(lines[i..])) + "\n"
  }

  lemma RestStep(lines: seq<string>, i: nat)
    requires i < |lines|
    ensures Rest(lines, i) == ("data: " + lines[i] + "\n") + Rest(lines, i + 1)
  {
    assert lines[i..][1..] == lines[i + 1..];
    var all := DataLines(lines[i..]);
    assert all[0] == "data: " + lines[i] && all[1..] == DataLines(lines[i + 1..]);
    Regroup("data: " + lines[i] + "\n", Unlines(all[1..]), "\n");
  }

  method WriteLines(w: Writer, lines: seq<string>) returns (ok: bool)
    modifies w
    ensures ok ==> w.out == old(w.out) + (Unlines(DataLines(lines)) + "\n")
    ensures !ok ==> Sent(w.out, old(w.out), Unlines(DataLines(lines)) + "\n")
    ensures if ok then w.broken == old(w.broken) else w.broken
  {
    ghost var base, done := w.out, "";
    assert lines[0..] == lines;
    for i := 0 to |lines|
      invariant w.out == base + done && done + Rest(lines, i) == Unlines(DataLines(lines)) + "\n"
      invariant w.broken == old(w.broken)
    {
      ghost var piece := "data: " + lines[i] + "\n";
      RestStep(lines, i);
      ok := w.Print("data: " + lines[i] + "\n");
      if !ok {
        SentFirst(w.out, base + done, piece, Rest(lines, i + 1));
        SentNext(w.out, base, done, Rest(lines, i));
        return;
      }
      Regroup(base, done, piece);
      Regroup(done, piece, Rest(lines, i + 1));
      done := done + piece;
    }
    assert Rest(lines, |lines|) == "\n";
    ok := w.Print("\n");
    if !ok {
      SentNext(w.out, base, done, "\n");
    }
  }

  lemma FrameParts(name: string, id: string, data: string)
    ensures FrameText(name, id, data) == Unlines(Optional("id", id)) +
      (Unlines(Optional("event", name)) + (Unlines(DataLines(Split(LineFeeds(data), '\n'))) + "\n"))
  {
    var ids, names, body := Optional("id", id), Optional("event", name), DataLines(Split(LineFeeds(data), '\n'));
    UnlinesConcat(ids, names);
    UnlinesConcat(ids + names, body);
    Regroup(Unlines(ids) + Unlines(names), Unlines(body), "\n");
    Regroup(Unlines(ids), Unlines(names), Unlines(body) + "\n");
  }

  /** writeSSEFrame: it writes the frame, or refuses it and writes nothing, or fails having written
      the beginning of the frame. */
  method WriteSseFrame(w: Writer, name: string, id: string, data: string) returns (ok: bool)
    modifies w
    ensures !Accepted(name, id) ==> !ok && w.out == old(w.out)
    ensures ok ==> w.out == old(w.out) + FrameText(name, id, data)
    ensures !ok && Accepted(name, id) ==> Sent(w.out, old(w.out), FrameText(name, id, data)) && w.broken
    ensures ok ==> w.broken == old(w.broken)
  {
    if Contains(name, {'\r', '\n'}) || Contains(id, {'\0', '\r', '\n'}) {
      return false;
    }
    ghost var base, ids := w.out, Unlines(Optional("id", id));
    FrameParts(name, id, data);
    ghost var tail := Unlines(Optional("event", name)) + (Unlines(DataLines(Split(LineFeeds(data), '\n'))) + "\n");
    ok := WriteOptional(w, "id", id);
    if !ok {
      SentFirst(w.out, base, ids, tail);
      return;
    }
    ok := WriteNameAndData(w, name, data);
    if ok {
      Regroup(base, ids, tail);
    } else {
      SentNext(w.out, base, ids, tail);
    }
  }

  method WriteNameAndData(w: Writer, name: string, data: string) returns (ok: bool)
    modifies w
    ensures var text := Unlines(Optional("event", name)) + (Unlines(DataLines(Split(LineFeeds(data), '\n'))) + "\n");
      if ok then w.out == old(w.out) + text && w.broken == old(w.broken) else Sent(w.out, old(w.out), text) && w.broken
  {
    ghost var base, names := w.out, Unlines(Optional("event", name));
    ghost var body := Unlines(DataLines(Split(LineFeeds(data), '\n'))) + "\n";
    ok := WriteOptional(w, "event", name);
    if !ok {
      SentFirst(w.out, base, names, body);
      return;
    }
    ok := WriteData(w, data);
    if ok {
      Regroup(base, names, body);
    } else {
      SentNext(w.out, base, names, body);
    }
  }
}
