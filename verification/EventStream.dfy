/** Reading server-sent events from the HTTP route. Characters stand for bytes. */
module EventStream {
  import opened Items

  datatype Outcome = Event(data: string) | TooLong | End | Failed

  predicate Space(c: char) {
    c in " \t\n\r\U{b}\U{c}"
  }

  function TrimStart(s: string): (r: string)
    ensures |r| <= |s|
  {
    if s != "" && Space(s[0]) then TrimStart(s[1..]) else s
  }

  function TrimEnd(s: string, cut: char -> bool): (r: string)
    ensures r <= s
  {
    if s != "" && cut(s[|s| - 1]) then TrimEnd(s[..|s| - 1], cut) else s
  }

  function Trim(s: string): string {
    TrimStart(TrimEnd(s, Space))
  }

  predicate LineEnd(c: char) {
    c == '\r' || c == '\n'
  }

  /** The first line with its newline, or all that is left when there is none. */
  function FirstLine(s: string): (line: string)
    ensures line <= s
    ensures s != "" ==> line != ""
  {
    if s == "" then "" else if s[0] == '\n' then "\n" else [s[0]] + FirstLine(s[1..])
  }

  function AppendLine(data: string, part: string): string {
    if data != "" then data + "\n" + part else part
  }

  datatype Progress = More(data: string) | Stop(outcome: Outcome)

  /** What one line does to the data collected so far. */
  function Digest(line: string, data: string, limit: nat): Progress {
    var text := TrimEnd(line, LineEnd);
    if text == "" then (if data != "" then Stop(Event(data)) else More(data))
    else if "data:" <= text then
      var more := AppendLine(data, Trim(text[5..]));
      if |more| > limit then Stop(TooLong) else More(more)
    else More(data)
  }

  /** What is left when the stream is over: data collected at its end is an event, unless reading failed. */
  function AtEnd(data: string, broken: bool): Outcome {
    if broken then Failed else if data != "" then Event(data) else End
  }

  /** What is read from `s` when `data` has been collected already, and what is left unread. A broken stream
      ends in a read error instead of its end. */
  function ReadFrom(s: string, data: string, limit: nat, broken: bool): (r: (Outcome, string))
    ensures |r.1| <= |s|
    ensures r.0.Event? && data == "" ==> |r.1| < |s|
    decreases |s|
  {
    if s == "" then (AtEnd(data, broken), "")
    else
      var line := FirstLine(s);
      match Digest(line, data, limit)
      case Stop(outcome) => (outcome, s[|line|..])
      case More(more) => ReadFrom(s[|line|..], more, limit, broken)
  }

  class EventReader {
    var unread: string
    const broken: bool

    constructor (stream: string, broken: bool)
      ensures unread == stream && this.broken == broken
    {
      unread, this.broken := stream, broken;
    }

    method ReadLine() returns (line: string, ended: bool)
      modifies this
      ensures line == FirstLine(old(unread)) && old(unread) == line + unread
      ensures ended ==> unread == ""
      ensures !ended ==> line != ""
    {
      line, ended := TakeLine(unread);
      unread := unread[|line|..];
    }

    /** Adds one line to the data; `outcome` is set when reading is over. */
    method DigestLine(line: string, data: string, limit: nat) returns (more: string, outcome: Option<Outcome>)
      ensures Digest(line, data, limit) == if outcome.Some? then Stop(outcome.value) else More(more)
    {
      more, outcome := data, None;
      var text := TrimEnd(line, LineEnd);
      if |text| == 0 {
        if |data| > 0 {
          outcome := Some(Event(data));
        }
      } else if "data:" <= text {
        var part := Trim(text[5..]);
        if |more| > 0 {
          more := more + "\n";
        }
        more := more + part;
        if |more| > limit {
          outcome := Some(TooLong);
        }
      }
    }

    method ReadData(limit: nat) returns (outcome: Outcome)
      modifies this
      ensures (outcome, unread) == ReadFrom(old(unread), "", limit, broken)
    {
      var data := "";
      while true
        invariant ReadFrom(unread, data, limit, broken) == ReadFrom(old(unread), "", limit, broken)
        decreases |unread|
      {
        ghost var before := unread;
        var line, ended := ReadLine();
        assert before[|line|..] == unread;
        if |line| > 0 {
          var stop: Option<Outcome>;
          data, stop := DigestLine(line, data, limit);
          if stop.Some? {
            return stop.value;
          }
        }
        if ended {
          if !broken && |data| > 0 {
            return Event(data);
          }
          return if broken then Failed else End;
        }
      }
    }
  }

  method TakeLine(text: string) returns (line: string, ended: bool)
    ensures line == FirstLine(text)
    ensures ended ==> line == text
    ensures !ended ==> line != ""
  {
    var i := 0;
    while i < |text| && text[i] != '\n'
      invariant 0 <= i <= |text|
      invariant forall j :: 0 <= j < i ==> text[j] != '\n'
    {
      i := i + 1;
    }
    FirstLineEnds(text, i);
    ended := i == |text|;
    line := if ended then text else text[..i + 1];
  }

  lemma {:induction false} FirstLineEnds(text: string, i: nat)
    requires i <= |text| && (i < |text| ==> text[i] == '\n') && forall j :: 0 <= j < i ==> text[j] != '\n'
    ensures FirstLine(text) == if i == |text| then text else text[..i + 1]
  {
    if i > 0 {
      FirstLineEnds(text[1..], i - 1);
      assert text == [text[0]] + text[1..];
      assert i < |text| ==> text[..i + 1] == [text[0]] + text[1..][..i];
    }
  }

  /* ---- trimming ---- */

  lemma {:induction false} TrimEndStops(a: string, b: string, cut: char -> bool)
    requires a == "" || !cut(a[|a| - 1])
    ensures TrimEnd(a + b, cut) == a + TrimEnd(b, cut)
    decreases |b|
  {
    if b == "" {
      assert a + b == a;
      TrimEndKeeps(a, cut);
    } else if cut(b[|b| - 1]) {
      assert (a + b)[..|a + b| - 1] == a + b[..|b| - 1];
      TrimEndStops(a, b[..|b| - 1], cut);
    }
  }

  lemma TrimEndKeeps(a: string, cut: char -> bool)
    requires a == "" || !cut(a[|a| - 1])
    ensures TrimEnd(a, cut) == a
  {
  }

  lemma {:induction false} TrimEndTakesAll(s: string, cut: char -> bool)
    requires forall c :: c in s ==> cut(c)
    ensures TrimEnd(s, cut) == ""
  {
    if s != "" {
      assert s[|s| - 1] in s;
      TrimEndTakesAll(s[..|s| - 1], cut);
    }
  }

  lemma {:induction false} TrimStartPasses(pad: string, s: string)
    requires forall c :: c in pad ==> Space(c)
    ensures TrimStart(pad + s) == TrimStart(s)
  {
    if pad == "" {
      assert pad + s == s;
    } else {
      assert (pad + s)[0] == pad[0] && (pad + s)[1..] == pad[1..] + s;
      TrimStartPasses(pad[1..], s);
    }
  }

  lemma TextIsTrimmedOut(pad: string, text: string, tail: string)
    requires (forall c :: c in pad ==> Space(c)) && (forall c :: c in tail ==> Space(c))
    requires text != "" ==> !Space(text[0]) && !Space(text[|text| - 1])
    ensures Trim(pad + text + tail) == text
  {
    TrimEndTakesAll(tail, Space);
    if text == "" {
      assert pad + text + tail == pad + tail;
      TrimEndTakesAll(pad + tail, Space);
    } else {
      TrimEndStops(pad + text, tail, Space);
      assert pad + text + "" == pad + text;
      TrimStartPasses(pad, text);
    }
  }

  /* ---- writing events ---- */

  /** A line of an event as a server may write it: a data field with white space around its text, or any
      other line, such as another field or a comment. */
  datatype Line = DataLine(pad: string, text: string, tail: string) | OtherLine(text: string)

  predicate Allowed(line: Line) {
    match line
    case DataLine(pad, text, tail) =>
      && (forall c :: c in pad ==> c in " \t\U{b}\U{c}")
      && (forall c :: c in tail ==> c in " \t\U{b}\U{c}\r")
      && '\n' !in text
      && (text != "" ==> text[0] !in " \t\n\r\U{b}\U{c}" && text[|text| - 1] !in " \t\n\r\U{b}\U{c}")
    case OtherLine(text) =>
      '\n' !in text && !("data:" <= text) && exists i :: 0 <= i < |text| && text[i] != '\r'
  }

  ghost predicate AllAllowed(lines: seq<Line>) {
    forall line :: line in lines ==> Allowed(line)
  }

  function Write(line: Line): string {
    match line
    case DataLine(pad, text, tail) => "data:" + pad + text + tail + "\n"
    case OtherLine(text) => text + "\n"
  }

  function WriteAll(lines: seq<Line>): string {
    if lines == [] then "" else Write(lines[0]) + WriteAll(lines[1..])
  }

  /** The texts of the data fields. */
  function Texts(lines: seq<Line>): seq<string> {
    if lines == [] then []
    else if lines[0].DataLine? then [lines[0].text] + Texts(lines[1..])
    else Texts(lines[1..])
  }

  function Join(data: string, texts: seq<string>): string
    decreases |texts|
  {
    if texts == [] then data else Join(AppendLine(data, texts[0]), texts[1..])
  }

  lemma {:induction false} FirstLineOf(line: string, rest: string)
    requires '\n' !in line
    ensures FirstLine(line + "\n" + rest) == line + "\n"
  {
    var s := line + "\n" + rest;
    if line != "" {
      FirstLineOf(line[1..], rest);
      assert s[1..] == line[1..] + "\n" + rest;
      assert s[0] == line[0];
    }
  }

  /** Reading goes on behind the line. */
  lemma LineIsRead(line: string, rest: string, data: string, limit: nat, broken: bool)
    requires '\n' !in line
    ensures var digested := Digest(line + "\n", data, limit);
      ReadFrom(line + "\n" + rest, data, limit, broken) ==
        if digested.Stop? then (digested.outcome, rest) else ReadFrom(rest, digested.data, limit, broken)
  {
    FirstLineOf(line, rest);
    assert (line + "\n" + rest)[|line + "\n"|..] == rest;
  }

  lemma ValueIsDigested(line: string, value: string, data: string, limit: nat)
    requires TrimEnd(line, LineEnd) == "data:" + value
    ensures Digest(line, data, limit) ==
      if |AppendLine(data, Trim(value))| > limit then Stop(TooLong) else More(AppendLine(data, Trim(value)))
  {
    assert ("data:" + value)[5..] == value;
  }

  lemma FieldIsCut(pad: string, text: string, tail: string) returns (cut: string)
    requires Allowed(DataLine(pad, text, tail))
    ensures TrimEnd("data:" + pad + text + tail + "\n", LineEnd) == "data:" + (pad + text + cut)
    ensures forall c :: c in cut ==> Space(c)
  {
    cut := TrimEnd(tail + "\n", LineEnd);
    FieldEndsVisibly(pad, text);
    FieldIsGrouped("data:", pad, text, tail, "\n");
    TrimEndStops("data:" + (pad + text), tail + "\n", LineEnd);
    NewlineIsCut(tail);
    assert forall c :: c in cut ==> c in tail;
    FieldIsGrouped("data:", pad, text, cut, "");
  }

  lemma FieldIsGrouped(name: string, pad: string, text: string, tail: string, end: string)
    ensures name + pad + text + tail + end == (name + (pad + text)) + (tail + end)
    ensures (name + (pad + text)) + tail == name + (pad + text + tail)
  {
  }

  /** A data field adds its text to the data, without the white space around it. */
  lemma DataLineIsDigested(pad: string, text: string, tail: string, data: string, limit: nat)
    requires Allowed(DataLine(pad, text, tail))
    ensures Digest("data:" + pad + text + tail + "\n", data, limit) ==
      if |AppendLine(data, text)| > limit then Stop(TooLong) else More(AppendLine(data, text))
  {
    var cut := FieldIsCut(pad, text, tail);
    TextIsTrimmedOut(pad, text, cut);
    ValueIsDigested("data:" + pad + text + tail + "\n", pad + text + cut, data, limit);
  }

  lemma FieldEndsVisibly(pad: string, text: string)
    requires Allowed(DataLine(pad, text, ""))
    ensures var field := "data:" + (pad + text);
      !LineEnd(field[|field| - 1])
  {
    var field := "data:" + (pad + text);
    if text != "" {
      assert field[|field| - 1] == text[|text| - 1];
    } else if pad != "" {
      assert field[|field| - 1] == pad[|pad| - 1] && pad[|pad| - 1] in pad;
    }
  }

  lemma NewlineIsCut(tail: string)
    ensures TrimEnd(tail + "\n", LineEnd) == TrimEnd(tail, LineEnd)
  {
    assert (tail + "\n")[..|tail|] == tail;
  }

  /** Every other line that is not blank is passed over. */
  lemma OtherLineIsSkipped(line: string, rest: string, data: string, limit: nat, broken: bool)
    requires '\n' !in line && !("data:" <= line) && exists i :: 0 <= i < |line| && line[i] != '\r'
    ensures ReadFrom(line + "\n" + rest, data, limit, broken) == ReadFrom(rest, data, limit, broken)
  {
    LineIsRead(line, rest, data, limit, broken);
    NewlineIsCut(line);
    SomethingIsLeft(line);
  }

  lemma {:induction false} SomethingIsLeft(line: string)
    requires exists i :: 0 <= i < |line| && line[i] !in "\r\n"
    ensures TrimEnd(line, LineEnd) != ""
  {
    var i :| 0 <= i < |line| && line[i] !in "\r\n";
    assert line[..i + 1] + line[i + 1..] == line;
    TrimEndStops(line[..i + 1], line[i + 1..], LineEnd);
  }

  lemma DataLineIsRead(line: Line, rest: string, data: string, limit: nat, broken: bool)
    requires Allowed(line) && line.DataLine?
    ensures ReadFrom(Write(line) + rest, data, limit, broken) ==
      if |AppendLine(data, line.text)| > limit then (TooLong, rest)
      else ReadFrom(rest, AppendLine(data, line.text), limit, broken)
  {
    var field := "data:" + line.pad + line.text + line.tail;
    assert Write(line) + rest == field + "\n" + rest;
    LineIsRead(field, rest, data, limit, broken);
    DataLineIsDigested(line.pad, line.text, line.tail, data, limit);
  }

  /** A blank line ends the event, if there is one. */
  lemma BlankLineEnds(blank: string, rest: string, data: string, limit: nat, broken: bool)
    requires forall c :: c in blank ==> c == '\r'
    ensures ReadFrom(blank + "\n" + rest, data, limit, broken) ==
      if data != "" then (Event(data), rest) else ReadFrom(rest, "", limit, broken)
  {
    LineIsRead(blank, rest, data, limit, broken);
    NewlineIsCut(blank);
    TrimEndTakesAll(blank, LineEnd);
  }

  lemma {:induction false} JoinGrows(data: string, texts: seq<string>)
    ensures |data| <= |Join(data, texts)|
    decreases |texts|
  {
    if texts != [] {
      JoinGrows(AppendLine(data, texts[0]), texts[1..]);
    }
  }

  lemma WriteOne(lines: seq<Line>, rest: string)
    requires lines != []
    ensures WriteAll(lines) + rest == Write(lines[0]) + (WriteAll(lines[1..]) + rest)
  {
  }

  /** Lines are read one after another; only the texts of the data fields count. */
  lemma {:induction false} WrittenLinesAreRead(lines: seq<Line>, rest: string, data: string, limit: nat, broken: bool)
    requires AllAllowed(lines) && |Join(data, Texts(lines))| <= limit
    ensures ReadFrom(WriteAll(lines) + rest, data, limit, broken) ==
      ReadFrom(rest, Join(data, Texts(lines)), limit, broken)
    decreases |lines|
  {
    if lines == [] {
      assert WriteAll(lines) + rest == rest;
    } else {
      var line, later := lines[0], WriteAll(lines[1..]) + rest;
      assert Allowed(line) by {
        assert line in lines;
      }
      WriteOne(lines, rest);
      if line.DataLine? {
        var more := AppendLine(data, line.text);
        TextsOfDataFirst(lines, data);
        JoinGrows(more, Texts(lines[1..]));
        DataLineIsRead(line, later, data, limit, broken);
        WrittenLinesAreRead(lines[1..], rest, more, limit, broken);
      } else {
        OtherLineIsSkipped(line.text, later, data, limit, broken);
        WrittenLinesAreRead(lines[1..], rest, data, limit, broken);
      }
    }
  }

  lemma TextsOfDataFirst(lines: seq<Line>, data: string)
    requires lines != [] && lines[0].DataLine?
    ensures Join(data, Texts(lines)) == Join(AppendLine(data, lines[0].text), Texts(lines[1..]))
  {
    assert ([lines[0].text] + Texts(lines[1..]))[1..] == Texts(lines[1..]);
  }

  /* ---- whole streams ---- */

  /** Everything a caller reads until the end or a refusal. */
  function ReadAll(s: string, limit: nat, broken: bool): (seq<string>, Outcome)
    decreases |s|
  {
    var (outcome, rest) := ReadFrom(s, "", limit, broken);
    if outcome.Event? then
      var (later, last) := ReadAll(rest, limit, broken);
      ([outcome.data] + later, last)
    else ([], outcome)
  }

  /** The lines of an event and the line ends before the newline of the blank line. */
  datatype Written = Written(lines: seq<Line>, blank: string)

  function Print(event: Written): string {
    WriteAll(event.lines) + (event.blank + "\n")
  }

  function PrintAll(events: seq<Written>): string {
    if events == [] then "" else Print(events[0]) + PrintAll(events[1..])
  }

  /** The data of each event that has any. */
  function AllData(events: seq<Written>): seq<string> {
    if events == [] then []
    else if Texts(events[0].lines) == [] then AllData(events[1..])
    else [Lines(Texts(events[0].lines))] + AllData(events[1..])
  }

  /** The standard's data buffer: texts separated by newlines. */
  function Lines(texts: seq<string>): string {
    if texts == [] then "" else if |texts| == 1 then texts[0] else texts[0] + "\n" + Lines(texts[1..])
  }

  lemma {:induction false} JoinOfStarted(data: string, texts: seq<string>)
    requires data != "" && texts != []
    ensures Join(data, texts) == data + "\n" + Lines(texts)
    decreases |texts|
  {
    var more := AppendLine(data, texts[0]);
    if |texts| > 1 {
      JoinOfStarted(more, texts[1..]);
      assert more + "\n" + Lines(texts[1..]) == data + "\n" + (texts[0] + "\n" + Lines(texts[1..]));
    } else {
      assert texts[1..] == [];
    }
  }

  /** An event is read back as the standard's data exactly when it does not open with an empty line,
      or is nothing but one: the reader forgets leading empty lines. */
  lemma JoinIsLinesExactly(texts: seq<string>)
    requires texts != []
    ensures Join("", texts) == Lines(texts) <==> texts[0] != "" || |texts| == 1
  {
    if |texts| == 1 {
      assert texts[1..] == [];
    } else if texts[0] != "" {
      JoinOfStarted(texts[0], texts[1..]);
    } else {
      JoinIsShort("", texts[1..]);
      assert Join("", texts) == Join("", texts[1..]);
      assert |Lines(texts)| == 1 + |Lines(texts[1..])|;
    }
  }

  lemma {:induction false} JoinIsShort(data: string, texts: seq<string>)
    requires texts != []
    ensures |Join(data, texts)| <= |Lines(texts)| + if data == "" then 0 else |data| + 1
    decreases |texts|
  {
    if |texts| > 1 {
      JoinIsShort(AppendLine(data, texts[0]), texts[1..]);
    } else {
      assert texts[1..] == [];
    }
  }

  /** The data fields open with text and keep within the limit. */
  ghost predicate Readable(event: Written, limit: nat) {
    && AllAllowed(event.lines) && (forall c :: c in event.blank ==> c == '\r')
    && (Texts(event.lines) != [] ==> Texts(event.lines)[0] != "" && |Lines(Texts(event.lines))| <= limit)
  }

  lemma PrintedEventIsRead(event: Written, rest: string, limit: nat, broken: bool)
    requires Readable(event, limit)
    ensures ReadFrom(Print(event) + rest, "", limit, broken) ==
      if Texts(event.lines) == [] then ReadFrom(rest, "", limit, broken)
      else (Event(Lines(Texts(event.lines))), rest)
  {
    var texts, ending := Texts(event.lines), event.blank + "\n" + rest;
    assert Print(event) + rest == WriteAll(event.lines) + ending;
    if texts != [] {
      JoinIsLinesExactly(texts);
      JoinGrows(texts[0], texts[1..]);
    }
    WrittenLinesAreRead(event.lines, ending, "", limit, broken);
    BlankLineEnds(event.blank, rest, Join("", texts), limit, broken);
  }

  /** Events whose data opens with text, each within the limit, are read back one by one, whatever other fields
      and comments stand between their data fields, and events without data are passed over. */
  lemma {:induction false} PrintedEventsAreReadBack(events: seq<Written>, limit: nat, broken: bool)
    requires forall e :: e in events ==> Readable(e, limit)
    ensures ReadAll(PrintAll(events), limit, broken) == (AllData(events), if broken then Failed else End)
  {
    if events != [] {
      var e, rest := events[0], PrintAll(events[1..]);
      assert e in events;
      assert forall later :: later in events[1..] ==> later in events;
      PrintedEventIsRead(e, rest, limit, broken);
      PrintedEventsAreReadBack(events[1..], limit, broken);
    }
  }

  /** A stream that ends before the blank line still delivers the event it was in, one that fails there does not. */
  lemma UnfinishedEventIsDelivered(lines: seq<Line>, data: string, limit: nat, broken: bool)
    requires AllAllowed(lines) && |Join(data, Texts(lines))| <= limit && Join(data, Texts(lines)) != ""
    ensures ReadFrom(WriteAll(lines), data, limit, broken) ==
      (if broken then Failed else Event(Join(data, Texts(lines))), "")
  {
    assert WriteAll(lines) + "" == WriteAll(lines);
    WrittenLinesAreRead(lines, "", data, limit, broken);
  }

  /** An event over the limit is refused, never cut short. */
  lemma {:induction false} LongEventIsRefused(lines: seq<Line>, rest: string, data: string, limit: nat, broken: bool)
    requires AllAllowed(lines) && |data| <= limit < |Join(data, Texts(lines))|
    ensures ReadFrom(WriteAll(lines) + rest, data, limit, broken).0 == TooLong
    decreases |lines|
  {
    var line, later := lines[0], WriteAll(lines[1..]) + rest;
    assert Allowed(line) by {
      assert line in lines;
    }
    WriteOne(lines, rest);
    if line.DataLine? {
      var more := AppendLine(data, line.text);
      TextsOfDataFirst(lines, data);
      DataLineIsRead(line, later, data, limit, broken);
      if |more| <= limit {
        LongEventIsRefused(lines[1..], rest, more, limit, broken);
      }
    } else {
      OtherLineIsSkipped(line.text, later, data, limit, broken);
      LongEventIsRefused(lines[1..], rest, data, limit, broken);
    }
  }
}
