/** A client that reassembles the chunks of a well-formed stream gets the converted final response. */
module ChatProperties {
  import opened Items
  import opened ChatStream

  /* ---- the client ---- */

  /** What a client has put together so far; `broken` when a chunk refers to a tool call out of turn. */
  datatype Assembly = Assembly(
    content: string,
    reasoning: string,
    tools: seq<ToolCall>,
    finish: Option<Finish>,
    broken: bool)

  function Accumulate(a: Assembly, chunk: Chunk): Assembly {
    if !chunk.Choice? then a
    else
      var b := if chunk.finish.Some? then a.(finish := chunk.finish) else a;
      match chunk.delta
      case RoleStart => b
      case Reasoned(text) => b.(reasoning := b.reasoning + text)
      case Content(text) => b.(content := b.content + text)
      case ToolStart(tool, callId, name) =>
        if tool == |b.tools| then b.(tools := b.tools + [ToolCall(callId, name, "")]) else b.(broken := true)
      case ToolArguments(tool, text) =>
        if tool < |b.tools|
        then b.(tools := b.tools[tool := b.tools[tool].(arguments := b.tools[tool].arguments + text)])
        else b.(broken := true)
      case Empty => b
  }

  function Assemble(chunks: seq<Chunk>): Assembly {
    if chunks == [] then Assembly("", "", [], None, false)
    else Accumulate(Assemble(chunks[..|chunks| - 1]), chunks[|chunks| - 1])
  }

  function AccumulateAll(a: Assembly, chunks: seq<Chunk>): Assembly
    decreases |chunks|
  {
    if chunks == [] then a else AccumulateAll(Accumulate(a, chunks[0]), chunks[1..])
  }

  lemma {:induction false} AssembleInTwoParts(a: seq<Chunk>, b: seq<Chunk>)
    ensures Assemble(a + b) == AccumulateAll(Assemble(a), b)
    decreases |b|
  {
    if b == [] {
      assert a + b == a;
    } else {
      assert a + b == (a + [b[0]]) + b[1..];
      assert (a + [b[0]])[..|a|] == a;
      AssembleInTwoParts(a + [b[0]], b[1..]);
    }
  }

  /* ---- what a stream says ---- */

  datatype Piece = Piece(index: nat, text: string)

  datatype Added = Added(index: nat, callId: string, name: string)

  function TextPieces(events: seq<Event>): seq<Piece> {
    if events == [] then []
    else
      var last := events[|events| - 1].kind;
      TextPieces(events[..|events| - 1]) + (if last.TextDelta? then [Piece(last.index, last.text)] else [])
  }

  function ReasoningPieces(events: seq<Event>): seq<Piece> {
    if events == [] then []
    else
      var last := events[|events| - 1].kind;
      ReasoningPieces(events[..|events| - 1]) + (if last.ReasoningDelta? then [Piece(last.index, last.text)] else [])
  }

  function ArgumentPieces(events: seq<Event>): seq<Piece> {
    if events == [] then []
    else
      var last := events[|events| - 1].kind;
      ArgumentPieces(events[..|events| - 1]) + (if last.ArgumentsDelta? then [Piece(last.index, last.text)] else [])
  }

  function Additions(events: seq<Event>): seq<Added> {
    if events == [] then []
    else
      var last := events[|events| - 1].kind;
      Additions(events[..|events| - 1])
      + (if last.FunctionAdded? then [Added(last.index, last.callId, last.name)] else [])
  }

  /** All the text of the pieces, in order. */
  function Whole(pieces: seq<Piece>): string {
    if pieces == [] then "" else Whole(pieces[..|pieces| - 1]) + pieces[|pieces| - 1].text
  }

  /** The text of the pieces that belong to one output item. */
  function Only(pieces: seq<Piece>, index: nat): string {
    if pieces == [] then ""
    else
      var last := pieces[|pieces| - 1];
      Only(pieces[..|pieces| - 1], index) + (if last.index == index then last.text else "")
  }

  ghost predicate InItemOrder(pieces: seq<Piece>, n: nat) {
    && (forall i :: 0 <= i < |pieces| ==> pieces[i].index < n)
    && forall i, j :: 0 <= i < j < |pieces| ==> pieces[i].index <= pieces[j].index
  }

  /** The function calls of a response with their output positions. */
  function Calls(output: seq<OutputItem>): seq<Added> {
    if output == [] then []
    else
      var n, last := |output| - 1, output[|output| - 1];
      Calls(output[..n]) + (if last.FunctionItem? then [Added(n, last.callId, last.name)] else [])
  }

  ghost predicate Announced(additions: seq<Added>, index: nat) {
    exists j :: 0 <= j < |additions| && additions[j].index == index
  }

  ghost predicate Follows(additions: seq<Added>, kind: EventKind) {
    && !kind.Completed? && !kind.Failure?
    && (kind.FunctionAdded? ==> !Announced(additions, kind.index))
    && (kind.ArgumentsDelta? ==> Announced(additions, kind.index))
  }

  /** Every event is an ordinary one, no function is added twice, and arguments only follow their function. */
  ghost predicate Orderly(events: seq<Event>) {
    events != [] ==>
      Orderly(events[..|events| - 1]) && Follows(Additions(events[..|events| - 1]), events[|events| - 1].kind)
  }

  /** The events spell out the response: text and reasoning item by item, the functions in output order,
      the arguments of different functions interleaved in any way. */
  ghost predicate Spells(events: seq<Event>, output: seq<OutputItem>) {
    && Orderly(events)
    && InItemOrder(TextPieces(events), |output|)
    && InItemOrder(ReasoningPieces(events), |output|)
    && Additions(events) == Calls(output)
    && (forall i :: 0 <= i < |output| ==>
          && Only(TextPieces(events), i) == ItemText(output[i])
          && Only(ReasoningPieces(events), i) == ItemReasoning(output[i])
          && (output[i].FunctionItem? ==> Only(ArgumentPieces(events), i) == output[i].arguments))
  }

  /* ---- pieces in item order ---- */

  /** The text of the items below `n`, item by item. */
  function ByItem(pieces: seq<Piece>, n: nat): string {
    if n == 0 then "" else ByItem(pieces, n - 1) + Only(pieces, n - 1)
  }

  lemma {:induction false} ByItemIgnoresLater(pieces: seq<Piece>, n: nat)
    requires pieces != [] && pieces[|pieces| - 1].index >= n
    ensures ByItem(pieces, n) == ByItem(pieces[..|pieces| - 1], n)
  {
    if n > 0 {
      ByItemIgnoresLater(pieces, n - 1);
    }
  }

  lemma {:induction false} NothingOf(pieces: seq<Piece>, index: nat)
    requires forall i :: 0 <= i < |pieces| ==> pieces[i].index != index
    ensures Only(pieces, index) == ""
  {
    if pieces != [] {
      NothingOf(pieces[..|pieces| - 1], index);
    }
  }

  lemma {:induction false} ByItemOfNothing(n: nat)
    ensures ByItem([], n) == ""
  {
    if n > 0 {
      ByItemOfNothing(n - 1);
    }
  }

  lemma LastPieceOfItem(pieces: seq<Piece>, n: nat)
    requires pieces != [] && pieces[|pieces| - 1].index == n
    ensures ByItem(pieces, n + 1) == ByItem(pieces[..|pieces| - 1], n + 1) + pieces[|pieces| - 1].text
  {
    var init, text := pieces[..|pieces| - 1], pieces[|pieces| - 1].text;
    ByItemIgnoresLater(pieces, n);
    assert Only(pieces, n) == Only(init, n) + text;
    assert ByItem(init, n) + (Only(init, n) + text) == ByItem(init, n) + Only(init, n) + text;
  }

  lemma InitIsInItemOrder(pieces: seq<Piece>, n: nat)
    requires InItemOrder(pieces, n) && pieces != []
    ensures InItemOrder(pieces[..|pieces| - 1], n)
  {
  }

  /** Pieces that come in item order read the same straight through as item by item. */
  lemma {:induction false} ItemOrderIsReadingOrder(pieces: seq<Piece>, n: nat)
    requires InItemOrder(pieces, n)
    ensures Whole(pieces) == ByItem(pieces, n)
    decreases n, |pieces|
  {
    if pieces == [] {
      ByItemOfNothing(n);
    } else {
      var init, last := pieces[..|pieces| - 1], pieces[|pieces| - 1];
      if last.index == n - 1 {
        InitIsInItemOrder(pieces, n);
        ItemOrderIsReadingOrder(init, n);
        LastPieceOfItem(pieces, n - 1);
      } else {
        LastItemIsEmpty(pieces, n);
        ItemOrderIsReadingOrder(pieces, n - 1);
      }
    }
  }

  lemma LastItemIsEmpty(pieces: seq<Piece>, n: nat)
    requires InItemOrder(pieces, n) && pieces != [] && pieces[|pieces| - 1].index != n - 1
    ensures n > 0 && InItemOrder(pieces, n - 1) && ByItem(pieces, n) == ByItem(pieces, n - 1)
  {
    assert forall i :: 0 <= i < |pieces| ==> pieces[i].index <= pieces[|pieces| - 1].index;
    NothingOf(pieces, n - 1);
  }

  function PerItem(pieces: seq<Piece>, n: nat): (texts: seq<string>)
    ensures |texts| == n && forall i :: 0 <= i < n ==> texts[i] == Only(pieces, i)
  {
    seq(n, i requires 0 <= i => Only(pieces, i))
  }

  lemma {:induction false} ByItemJoins(pieces: seq<Piece>, n: nat)
    ensures ByItem(pieces, n) == Join(PerItem(pieces, n))
  {
    if n > 0 {
      ByItemJoins(pieces, n - 1);
      assert PerItem(pieces, n)[..n - 1] == PerItem(pieces, n - 1);
    }
  }

  lemma {:induction false} TextByItem(texts: seq<string>, output: seq<OutputItem>)
    requires |texts| == |output| && forall i :: 0 <= i < |output| ==> texts[i] == ItemText(output[i])
    ensures Join(texts) == TextOf(output)
  {
    if output != [] {
      TextByItem(texts[..|texts| - 1], output[..|output| - 1]);
    }
  }

  lemma {:induction false} ReasoningByItem(texts: seq<string>, output: seq<OutputItem>)
    requires |texts| == |output| && forall i :: 0 <= i < |output| ==> texts[i] == ItemReasoning(output[i])
    ensures Join(texts) == ReasoningOf(output)
  {
    if output != [] {
      ReasoningByItem(texts[..|texts| - 1], output[..|output| - 1]);
    }
  }

  /** What the deltas say in order is what the response holds. */
  lemma DeltasSpellTheTexts(events: seq<Event>, output: seq<OutputItem>)
    requires Spells(events, output)
    ensures Whole(TextPieces(events)) == TextOf(output)
    ensures Whole(ReasoningPieces(events)) == ReasoningOf(output)
  {
    var text, reasoning, n := TextPieces(events), ReasoningPieces(events), |output|;
    ItemOrderIsReadingOrder(text, n);
    ByItemJoins(text, n);
    TextByItem(PerItem(text, n), output);
    ItemOrderIsReadingOrder(reasoning, n);
    ByItemJoins(reasoning, n);
    ReasoningByItem(PerItem(reasoning, n), output);
  }

  /* ---- the translator keeps the assembly in step ---- */

  ghost predicate ToolsInStep(slots: map<nat, nat>, nextTool: nat, tools: seq<ToolCall>, additions: seq<Added>,
                              arguments: seq<Piece>)
  {
    && nextTool == |tools| == |additions|
    && (forall j :: 0 <= j < |additions| ==>
          && additions[j].index in slots && slots[additions[j].index] == j
          && tools[j] == ToolCall(additions[j].callId, additions[j].name, Only(arguments, additions[j].index)))
    && (forall index :: index in slots ==> Announced(additions, index))
    && (forall i :: 0 <= i < |arguments| ==> Announced(additions, arguments[i].index))
  }

  /** What a stream has said so far. */
  datatype Said = Said(text: seq<Piece>, reasoning: seq<Piece>, additions: seq<Added>, arguments: seq<Piece>)

  function SaidBy(events: seq<Event>): Said {
    Said(TextPieces(events), ReasoningPieces(events), Additions(events), ArgumentPieces(events))
  }

  function SayMore(said: Said, kind: EventKind): Said {
    match kind
    case TextDelta(index, text) => said.(text := said.text + [Piece(index, text)])
    case ReasoningDelta(index, text) => said.(reasoning := said.reasoning + [Piece(index, text)])
    case ArgumentsDelta(index, text) => said.(arguments := said.arguments + [Piece(index, text)])
    case FunctionAdded(index, callId, name) => said.(additions := said.additions + [Added(index, callId, name)])
    case _ => said
  }

  ghost predicate InStep(s: State, a: Assembly, said: Said) {
    && !a.broken && a.finish.None? && !s.terminalSent
    && a.content == Whole(said.text)
    && a.reasoning == Whole(said.reasoning)
    && ToolsInStep(s.tools, s.nextTool, a.tools, said.additions, said.arguments)
  }

  lemma AccumulateOne(a: Assembly, chunk: Chunk)
    ensures AccumulateAll(a, [chunk]) == Accumulate(a, chunk)
  {
    assert [chunk][1..] == [];
  }

  /** The opening role chunk adds nothing to what is assembled. */
  lemma GreetingIsSilent(a: Assembly, s: State, more: seq<Chunk>)
    ensures AccumulateAll(a, Greeting(s) + more) == AccumulateAll(a, more)
  {
    if s.roleSent {
      assert Greeting(s) + more == more;
    } else {
      assert (Greeting(s) + more)[1..] == more;
    }
  }

  lemma StillAnnounced(additions: seq<Added>, added: Added, index: nat)
    requires Announced(additions, index) || index == added.index
    ensures Announced(additions + [added], index)
  {
    var all := additions + [added];
    if index == added.index {
      assert all[|additions|].index == index;
    } else {
      var j :| 0 <= j < |additions| && additions[j].index == index;
      assert all[j].index == index;
    }
  }

  lemma NewToolInStep(slots: map<nat, nat>, nextTool: nat, tools: seq<ToolCall>, additions: seq<Added>,
                      arguments: seq<Piece>, added: Added)
    requires ToolsInStep(slots, nextTool, tools, additions, arguments)
    requires !Announced(additions, added.index)
    ensures ToolsInStep(slots[added.index := nextTool], nextTool + 1,
                        tools + [ToolCall(added.callId, added.name, "")], additions + [added], arguments)
  {
    NothingOf(arguments, added.index);
    forall index | Announced(additions, index) || index == added.index
      ensures Announced(additions + [added], index)
    {
      StillAnnounced(additions, added, index);
    }
  }

  lemma OnlyOfOneMore(pieces: seq<Piece>, piece: Piece, index: nat)
    ensures Only(pieces + [piece], index) ==
      if piece.index == index then Only(pieces, index) + piece.text else Only(pieces, index)
  {
    assert (pieces + [piece])[..|pieces|] == pieces;
  }

  lemma ArgumentsInStep(slots: map<nat, nat>, nextTool: nat, tools: seq<ToolCall>, additions: seq<Added>,
                        arguments: seq<Piece>, piece: Piece)
    requires ToolsInStep(slots, nextTool, tools, additions, arguments) && Announced(additions, piece.index)
    ensures piece.index in slots && slots[piece.index] < |tools|
    ensures var tool := slots[piece.index];
      ToolsInStep(slots, nextTool,
                  tools[tool := tools[tool].(arguments := tools[tool].arguments + piece.text)], additions,
                  arguments + [piece])
  {
    var tool, more := slots[piece.index], arguments + [piece];
    var longer := tools[tool := tools[tool].(arguments := tools[tool].arguments + piece.text)];
    forall j | 0 <= j < |additions|
      ensures longer[j] == ToolCall(additions[j].callId, additions[j].name, Only(more, additions[j].index))
    {
      OnlyOfOneMore(arguments, piece, additions[j].index);
    }
    forall i | 0 <= i < |more|
      ensures Announced(additions, more[i].index)
    {
      assert more[i] == if i < |arguments| then arguments[i] else piece;
    }
  }

  /** How one more event changes what the stream has said. */
  lemma OneMoreEvent(events: seq<Event>, event: Event)
    ensures SaidBy(events + [event]) == SayMore(SaidBy(events), event.kind)
    ensures Orderly(events + [event]) ==> Orderly(events) && Follows(Additions(events), event.kind)
  {
    var all := events + [event];
    assert all[..|all| - 1] == events && all[|all| - 1] == event;
  }

  lemma WholeOfOneMore(pieces: seq<Piece>, piece: Piece)
    ensures Whole(pieces + [piece]) == Whole(pieces) + piece.text
  {
    assert (pieces + [piece])[..|pieces|] == pieces;
  }

  lemma ObservingKeepsTools(s: State, response: Option<Metadata>)
    ensures var seen := Observe(s, response);
      && seen.tools == s.tools && seen.nextTool == s.nextTool && seen.terminalSent == s.terminalSent
  {
  }

  /** What one event adds to the assembly, once the chunks it causes have arrived. */
  function Effect(a: Assembly, s: State, kind: EventKind): Assembly {
    match kind
    case ReasoningDelta(_, text) => a.(reasoning := a.reasoning + text)
    case TextDelta(_, text) => a.(content := a.content + text)
    case FunctionAdded(_, callId, name) => Accumulate(a, Send(s, ToolStart(s.nextTool, callId, name), None))
    case ArgumentsDelta(index, text) =>
      Accumulate(a, Send(s, ToolArguments(if index in s.tools then s.tools[index] else s.nextTool, text), None))
    case _ => a
  }

  lemma ChunksHaveTheirEffect(a: Assembly, s: State, event: Event, includeUsage: bool)
    requires !event.kind.Completed? && !event.kind.Failure?
    ensures AccumulateAll(a, Translate(s, event, includeUsage).1) == Effect(a, Observe(s, event.response), event.kind)
  {
    var seen := Observe(s, event.response);
    match event.kind
    case Created =>
      GreetingIsSilent(a, seen, []);
      assert Greeting(seen) + [] == Greeting(seen);
    case ReasoningDelta(_, text) =>
      GreetingIsSilent(a, seen, [Send(seen, Reasoned(text), None)]);
      AccumulateOne(a, Send(seen, Reasoned(text), None));
    case TextDelta(_, text) =>
      GreetingIsSilent(a, seen, [Send(seen, Content(text), None)]);
      AccumulateOne(a, Send(seen, Content(text), None));
    case FunctionAdded(_, callId, name) =>
      GreetingIsSilent(a, seen, [Send(seen, ToolStart(seen.nextTool, callId, name), None)]);
      AccumulateOne(a, Send(seen, ToolStart(seen.nextTool, callId, name), None));
    case ArgumentsDelta(index, text) =>
      AccumulateOne(a, Translate(s, event, includeUsage).1[0]);
    case Ignored =>
  }

  lemma DeltaInStep(s: State, a: Assembly, said: Said, event: Event, includeUsage: bool)
    requires InStep(s, a, said) && Follows(said.additions, event.kind)
    requires !event.kind.FunctionAdded? && !event.kind.ArgumentsDelta?
    ensures InStep(Translate(s, event, includeUsage).0, Effect(a, Observe(s, event.response), event.kind),
                   SayMore(said, event.kind))
  {
    ObservingKeepsTools(s, event.response);
    if event.kind.ReasoningDelta? {
      WholeOfOneMore(said.reasoning, Piece(event.kind.index, event.kind.text));
    } else if event.kind.TextDelta? {
      WholeOfOneMore(said.text, Piece(event.kind.index, event.kind.text));
    }
  }

  lemma ToolEventInStep(s: State, a: Assembly, said: Said, event: Event, includeUsage: bool)
    requires InStep(s, a, said) && Follows(said.additions, event.kind)
    requires event.kind.FunctionAdded? || event.kind.ArgumentsDelta?
    ensures InStep(Translate(s, event, includeUsage).0, Effect(a, Observe(s, event.response), event.kind),
                   SayMore(said, event.kind))
  {
    ObservingKeepsTools(s, event.response);
    if event.kind.FunctionAdded? {
      NewToolInStep(s.tools, s.nextTool, a.tools, said.additions, said.arguments,
                    Added(event.kind.index, event.kind.callId, event.kind.name));
    } else {
      ArgumentsInStep(s.tools, s.nextTool, a.tools, said.additions, said.arguments,
                      Piece(event.kind.index, event.kind.text));
    }
  }

  lemma {:induction false} StreamInStep(start: State, events: seq<Event>, includeUsage: bool)
    requires !start.terminalSent && start.nextTool == 0 && start.tools == map[] && Orderly(events)
    ensures var (s, chunks) := Play(start, events, includeUsage);
      InStep(s, Assemble(chunks), SaidBy(events))
  {
    if events != [] {
      var init, last := events[..|events| - 1], events[|events| - 1];
      StreamInStep(start, init, includeUsage);
      var (s, chunks) := Play(start, init, includeUsage);
      assert init + [last] == events;
      OneMoreEvent(init, last);
      ChunksHaveTheirEffect(Assemble(chunks), s, last, includeUsage);
      if last.kind.FunctionAdded? || last.kind.ArgumentsDelta? {
        ToolEventInStep(s, Assemble(chunks), SaidBy(init), last, includeUsage);
      } else {
        DeltaInStep(s, Assemble(chunks), SaidBy(init), last, includeUsage);
      }
      AssembleInTwoParts(chunks, Translate(s, last, includeUsage).1);
    }
  }

  /* ---- the tool calls of the response ---- */

  lemma {:induction false} CallsMatch(output: seq<OutputItem>)
    ensures |Calls(output)| == |CallsOf(output)|
    ensures forall j :: 0 <= j < |Calls(output)| ==>
      var a := Calls(output)[j];
      && a.index < |output| && output[a.index].FunctionItem?
      && CallsOf(output)[j] == ToolCall(a.callId, a.name, output[a.index].arguments)
  {
    if output != [] {
      var n := |output| - 1;
      CallsMatch(output[..n]);
      assert forall i :: 0 <= i < n ==> output[..n][i] == output[i];
    }
  }

  lemma ToolsAreTheCalls(s: State, tools: seq<ToolCall>, events: seq<Event>, output: seq<OutputItem>)
    requires Spells(events, output)
    requires ToolsInStep(s.tools, s.nextTool, tools, Additions(events), ArgumentPieces(events))
    ensures tools == CallsOf(output)
    ensures |s.tools| > 0 <==> tools != []
  {
    CallsMatch(output);
    ToolMapIsEmptyTogether(s, tools, Additions(events), ArgumentPieces(events));
  }

  lemma PlayOneMore(start: State, events: seq<Event>, last: Event, includeUsage: bool)
    ensures var (s, chunks) := Play(start, events, includeUsage);
      var (next, more) := Translate(s, last, includeUsage);
      Play(start, events + [last], includeUsage) == (next, chunks + more)
  {
    var all := events + [last];
    assert all[..|all| - 1] == events && all[|all| - 1] == last;
  }

  /** Reassembling the chunks of a stream that spells out a response and then completes gives the content,
      reasoning, tool calls and finish reason of the converted response. */
  lemma StreamedEqualsConverted(start: State, events: seq<Event>, last: Event, output: seq<OutputItem>,
                                includeUsage: bool)
    requires !start.terminalSent && start.nextTool == 0 && start.tools == map[]
    requires Spells(events, output) && last.kind.Completed?
    ensures var a := Assemble(Play(start, events + [last], includeUsage).1);
      && !a.broken && a.finish.Some?
      && Completion(a.content, NonEmpty(a.reasoning), a.tools, a.finish.value) == Converted(output)
  {
    StreamInStep(start, events, includeUsage);
    var (s, chunks) := Play(start, events, includeUsage);
    PlayOneMore(start, events, last, includeUsage);
    AssembleInTwoParts(chunks, Translate(s, last, includeUsage).1);
    CompletionFinishes(Assemble(chunks), s, last, includeUsage);
    DeltasSpellTheTexts(events, output);
    ToolsAreTheCalls(s, Assemble(chunks).tools, events, output);
  }

  lemma ToolMapIsEmptyTogether(s: State, tools: seq<ToolCall>, additions: seq<Added>, arguments: seq<Piece>)
    requires ToolsInStep(s.tools, s.nextTool, tools, additions, arguments)
    ensures |s.tools| > 0 <==> tools != []
  {
    if tools != [] {
      assert additions[0].index in s.tools;
    } else {
      assert s.tools.Keys == {};
    }
  }

  lemma CompletionFinishes(a: Assembly, s: State, last: Event, includeUsage: bool)
    requires last.kind.Completed?
    ensures AccumulateAll(a, Translate(s, last, includeUsage).1) ==
      a.(finish := Some(if |s.tools| > 0 then ToolCalls else Stop))
  {
    var seen := Observe(s, last.response);
    var finish := Send(seen, Empty, Some(if |seen.tools| > 0 then ToolCalls else Stop));
    var tail := if includeUsage then [Totals(seen), Done] else [Done];
    assert Translate(s, last, includeUsage).1 == Greeting(seen) + ([finish] + tail);
    GreetingIsSilent(a, seen, [finish] + tail);
    assert ([finish] + tail)[1..] == tail;
    SilentTail(a.(finish := finish.finish), seen, includeUsage);
  }

  lemma SilentTail(a: Assembly, s: State, includeUsage: bool)
    ensures AccumulateAll(a, if includeUsage then [Totals(s), Done] else [Done]) == a
  {
    assert [Totals(s), Done][1..] == [Done] && [Done][1..] == [];
    AccumulateOne(a, Done);
  }

  /** Every stream is closed: the closing marker is sent with the first terminal event, or at the end
      when there was none. */
  lemma {:induction false} EveryStreamIsClosed(start: State, events: seq<Event>, includeUsage: bool)
    requires !start.terminalSent
    ensures var (s, chunks) := Play(start, events, includeUsage);
      && (s.terminalSent <==> Done in chunks)
      && (s.terminalSent <==> exists e :: e in events && (e.kind.Completed? || e.kind.Failure?))
      && Done in chunks + Closing(s)
  {
    if events != [] {
      var init, last := events[..|events| - 1], events[|events| - 1];
      EveryStreamIsClosed(start, init, includeUsage);
      assert events == init + [last];
      var (s, chunks) := Play(start, init, includeUsage);
      TerminalEventsClose(s, last, includeUsage);
    }
  }

  lemma TerminalEventsClose(s: State, e: Event, includeUsage: bool)
    ensures var (next, more) := Translate(s, e, includeUsage);
      && (Done in more <==> e.kind.Completed? || e.kind.Failure?)
      && (next.terminalSent <==> s.terminalSent || e.kind.Completed? || e.kind.Failure?)
  {
    if e.kind.Completed? || e.kind.Failure? {
      var more := Translate(s, e, includeUsage).1;
      assert more[|more| - 1] == Done;
    }
  }

  /* ---- the envelope ---- */

  lemma LastChunks(start: State, events: seq<Event>, last: Event, includeUsage: bool)
    requires last.kind.Completed?
    ensures var (s, chunks) := Play(start, events, includeUsage);
      var seen := Observe(s, last.response);
      Play(start, events + [last], includeUsage).1 ==
        chunks + Greeting(seen) + [Send(seen, Empty, Some(if |seen.tools| > 0 then ToolCalls else Stop))]
        + (if includeUsage then [Totals(seen), Done] else [Done])
  {
    PlayOneMore(start, events, last, includeUsage);
  }

  /** A completing event that carries the response names it in the finishing chunk, and the usage chunk gives
      the converted totals exactly when the upstream's own total is the sum of its parts and no earlier
      event counted something that the response leaves out. */
  lemma CompletionCarriesTheEnvelope(start: State, events: seq<Event>, last: Event, response: FinalResponse, now: int)
    requires last.kind.Completed? && response.id != "" && response.model != "" && response.created != 0
    requires last.response == Some(Metadata(response.id, response.model, response.created, response.usage))
    ensures var (s, before) := Play(start, events, true);
      var chunks, reply := Play(start, events + [last], true).1, ConvertedReply(response, now);
      && |chunks| >= 3 && chunks[|chunks| - 3].Choice? && chunks[|chunks| - 3].finish.Some?
      && chunks[|chunks| - 3].id == reply.id && chunks[|chunks| - 3].model == reply.model
      && chunks[|chunks| - 3].created == reply.created
      && (chunks[|chunks| - 2] ==
            UsageTotals(reply.usage.input, reply.usage.output, reply.total, reply.usage.reasoning) <==>
            && reply.total == reply.usage.input + reply.usage.output
            && AddUsage(s.usage, reply.usage) == reply.usage)
  {
    var (s, before) := Play(start, events, true);
    var seen := Observe(s, last.response);
    LastChunks(start, events, last, true);
    var finish := Send(seen, Empty, Some(if |seen.tools| > 0 then ToolCalls else Stop));
    var chunks := Play(start, events + [last], true).1;
    assert chunks == (before + Greeting(seen)) + [finish, Totals(seen), Done];
  }

  /* ---- the names and counts that chunks carry ---- */

  /** The last of the values that counts, else the one there was. */
  function Latest<T>(start: T, values: seq<T>, counts: T -> bool): T {
    if values == [] then start
    else if counts(values[|values| - 1]) then values[|values| - 1]
    else Latest(start, values[..|values| - 1], counts)
  }

  /** The response objects that the events carry. */
  function Responses(events: seq<Event>): seq<Metadata> {
    if events == [] then []
    else
      var last := events[|events| - 1];
      Responses(events[..|events| - 1]) + (if last.response.Some? then [last.response.value] else [])
  }

  function Each<T>(responses: seq<Metadata>, field: Metadata -> T): (values: seq<T>)
    ensures |values| == |responses| && forall i :: 0 <= i < |values| ==> values[i] == field(responses[i])
  {
    seq(|responses|, i requires 0 <= i < |responses| => field(responses[i]))
  }

  /** What the events have named and counted so far. */
  ghost predicate Named(start: State, s: State, responses: seq<Metadata>) {
    && s.id == Latest(start.id, Each(responses, (m: Metadata) => m.id), id => id != "")
    && s.model == Latest(start.model, Each(responses, (m: Metadata) => m.model), model => model != "")
    && s.created == Latest(start.created, Each(responses, (m: Metadata) => m.created), at => at != 0)
    && s.usage.input == Latest(start.usage.input, Each(responses, (m: Metadata) => m.usage.input), n => n > 0)
    && s.usage.output == Latest(start.usage.output, Each(responses, (m: Metadata) => m.usage.output), n => n > 0)
    && s.usage.reasoning ==
         Latest(start.usage.reasoning, Each(responses, (m: Metadata) => m.usage.reasoning), (n: Option<int>) => n.Some?)
  }

  lemma LatestOfOneMore<T>(start: T, responses: seq<Metadata>, m: Metadata, field: Metadata -> T, counts: T -> bool)
    ensures Latest(start, Each(responses + [m], field), counts) ==
      if counts(field(m)) then field(m) else Latest(start, Each(responses, field), counts)
  {
    var values := Each(responses + [m], field);
    assert values[..|values| - 1] == Each(responses, field);
  }

  lemma ObservingNames(start: State, s: State, responses: seq<Metadata>, m: Metadata)
    requires Named(start, s, responses)
    ensures Named(start, Observe(s, Some(m)), responses + [m])
  {
    LatestOfOneMore(start.id, responses, m, (m: Metadata) => m.id, id => id != "");
    LatestOfOneMore(start.model, responses, m, (m: Metadata) => m.model, model => model != "");
    LatestOfOneMore(start.created, responses, m, (m: Metadata) => m.created, at => at != 0);
    LatestOfOneMore(start.usage.input, responses, m, (m: Metadata) => m.usage.input, n => n > 0);
    LatestOfOneMore(start.usage.output, responses, m, (m: Metadata) => m.usage.output, n => n > 0);
    LatestOfOneMore(start.usage.reasoning, responses, m,
                    (m: Metadata) => m.usage.reasoning, (n: Option<int>) => n.Some?);
  }

  /** Every chunk of an event carries the names, and every count of tokens the numbers, that the events up to it
      gave last. */
  ghost predicate Carries(s: State, chunk: Chunk) {
    && (chunk.Choice? ==> chunk.id == s.id && chunk.model == s.model && chunk.created == s.created)
    && (chunk.UsageTotals? ==>
          && chunk.prompt == s.usage.input && chunk.completion == s.usage.output
          && chunk.total == s.usage.input + s.usage.output && chunk.reasoning == s.usage.reasoning)
  }

  lemma EventChunksCarry(s: State, event: Event, includeUsage: bool)
    ensures var (next, chunks) := Translate(s, event, includeUsage);
      forall chunk :: chunk in chunks ==> Carries(next, chunk)
    ensures var next := Translate(s, event, includeUsage).0;
      next == Observe(s, event.response).(roleSent := next.roleSent, terminalSent := next.terminalSent,
                                          tools := next.tools, nextTool := next.nextTool)
  {
  }

  lemma EventNames(start: State, s: State, responses: seq<Metadata>, event: Event, includeUsage: bool)
    requires Named(start, s, responses)
    ensures Named(start, Translate(s, event, includeUsage).0,
                  if event.response.Some? then responses + [event.response.value] else responses)
  {
    EventChunksCarry(s, event, includeUsage);
    if event.response.Some? {
      ObservingNames(start, s, responses, event.response.value);
    }
  }

  lemma NothingNamedYet(start: State)
    ensures Named(start, start, [])
  {
  }

  /** After every stream the state holds the names and counts that the responses in it gave last. */
  lemma {:induction false} LatestNamesAreKept(start: State, events: seq<Event>, includeUsage: bool)
    ensures Named(start, Play(start, events, includeUsage).0, Responses(events))
  {
    if events == [] {
      NothingNamedYet(start);
    } else {
      var init, last := events[..|events| - 1], events[|events| - 1];
      LatestNamesAreKept(start, init, includeUsage);
      EventNames(start, Play(start, init, includeUsage).0, Responses(init), last, includeUsage);
      NoMoreResponses(Responses(init));
    }
  }

  lemma NoMoreResponses(responses: seq<Metadata>)
    ensures responses + [] == responses
  {
  }

  /** And every new chunk carries them. */
  lemma ChunksCarryTheLatestNames(start: State, events: seq<Event>, includeUsage: bool)
    requires events != []
    ensures var earlier := Play(start, events[..|events| - 1], includeUsage).1;
      var (s, chunks) := Play(start, events, includeUsage);
      && Named(start, s, Responses(events))
      && earlier <= chunks && forall i :: |earlier| <= i < |chunks| ==> Carries(s, chunks[i])
  {
    LatestNamesAreKept(start, events, includeUsage);
    EventChunksCarry(Play(start, events[..|events| - 1], includeUsage).0, events[|events| - 1], includeUsage);
  }

  /* ---- the opening chunk ---- */

  predicate Opens(chunk: Chunk) {
    chunk.Choice? && chunk.delta == RoleStart
  }

  /** The chunk belongs to a message that must have been opened. */
  predicate NeedsOpening(chunk: Chunk) {
    chunk.Choice? && !chunk.delta.RoleStart? && !chunk.delta.ToolArguments?
  }

  ghost predicate OpenedOnce(begun: bool, chunks: seq<Chunk>) {
    && (begun <==> exists i :: 0 <= i < |chunks| && Opens(chunks[i]))
    && (forall i, j :: 0 <= i < j < |chunks| ==> !(Opens(chunks[i]) && Opens(chunks[j])))
    && (forall j :: 0 <= j < |chunks| && NeedsOpening(chunks[j]) ==> exists i :: 0 <= i < j && Opens(chunks[i]))
  }

  lemma StillOpenedOnce(begun: bool, chunks: seq<Chunk>, chunk: Chunk)
    requires OpenedOnce(begun, chunks)
    requires if begun then !Opens(chunk) else !NeedsOpening(chunk)
    ensures OpenedOnce(begun || Opens(chunk), chunks + [chunk])
  {
    var all := chunks + [chunk];
    if begun {
      var i :| 0 <= i < |chunks| && Opens(chunks[i]);
      assert Opens(all[i]);
    }
    assert Opens(chunk) ==> Opens(all[|chunks|]);
    forall j | 0 <= j < |all| && NeedsOpening(all[j])
      ensures exists i :: 0 <= i < j && Opens(all[i])
    {
      if j < |chunks| {
        var i :| 0 <= i < j && Opens(chunks[i]);
        assert Opens(all[i]);
      }
    }
  }

  lemma {:induction false} OpenedOnceThrough(begun: bool, chunks: seq<Chunk>, more: seq<Chunk>)
    requires OpenedOnce(begun, chunks) && begun && forall chunk :: chunk in more ==> !Opens(chunk)
    ensures OpenedOnce(true, chunks + more)
    decreases |more|
  {
    if more == [] {
      assert chunks + more == chunks;
    } else {
      StillOpenedOnce(begun, chunks, more[0]);
      OpenedOnceThrough(begun, chunks + [more[0]], more[1..]);
      assert chunks + more == chunks + [more[0]] + more[1..];
    }
  }

  lemma GreetingOpens(s: State, chunks: seq<Chunk>, more: seq<Chunk>)
    requires OpenedOnce(s.roleSent, chunks) && forall chunk :: chunk in more ==> !Opens(chunk)
    ensures OpenedOnce(true, chunks + (Greeting(s) + more))
  {
    if s.roleSent {
      assert Greeting(s) + more == more;
      OpenedOnceThrough(true, chunks, more);
    } else {
      StillOpenedOnce(false, chunks, Send(s, RoleStart, None));
      OpenedOnceThrough(true, chunks + [Send(s, RoleStart, None)], more);
      assert chunks + (Greeting(s) + more) == chunks + [Send(s, RoleStart, None)] + more;
    }
  }

  /** The chunks of one event: the opening one if the message is not open yet and the event speaks, and then the
      event's own. */
  lemma EventChunks(s: State, event: Event, includeUsage: bool) returns (greets: bool, more: seq<Chunk>)
    ensures var seen := Observe(s, event.response);
      var (next, chunks) := Translate(s, event, includeUsage);
      && chunks == (if greets then Greeting(seen) else []) + more
      && seen.roleSent == s.roleSent && next.roleSent == (s.roleSent || greets)
    ensures forall chunk :: chunk in more ==> !Opens(chunk)
    ensures !greets ==> |more| <= 2 && forall chunk :: chunk in more ==> !NeedsOpening(chunk)
  {
    var seen := Observe(s, event.response);
    var chunks := Translate(s, event, includeUsage).1;
    greets := !event.kind.ArgumentsDelta? && !event.kind.Failure? && !event.kind.Ignored?
      && !(event.kind.ReasoningDelta? && event.kind.text == "");
    more := if greets then chunks[|Greeting(seen)|..] else chunks;
  }

  /** A message is opened once, before any of its content, reasoning, announced calls or finish. */
  lemma {:induction false} RoleComesFirstAndOnce(start: State, events: seq<Event>, includeUsage: bool)
    requires !start.roleSent
    ensures var (s, chunks) := Play(start, events, includeUsage);
      OpenedOnce(s.roleSent, chunks)
  {
    if events != [] {
      var init, last := events[..|events| - 1], events[|events| - 1];
      RoleComesFirstAndOnce(start, init, includeUsage);
      var (s, chunks) := Play(start, init, includeUsage);
      var greets, more := EventChunks(s, last, includeUsage);
      if greets {
        GreetingOpens(Observe(s, last.response), chunks, more);
      } else {
        QuietChunksStay(s.roleSent, chunks, more);
        assert [] + more == more;
      }
    }
  }

  lemma QuietChunksStay(begun: bool, chunks: seq<Chunk>, more: seq<Chunk>)
    requires OpenedOnce(begun, chunks) && |more| <= 2
    requires forall chunk :: chunk in more ==> !Opens(chunk) && !NeedsOpening(chunk)
    ensures OpenedOnce(begun, chunks + more)
  {
    if more == [] {
      assert chunks + more == chunks;
    } else {
      StillOpenedOnce(begun, chunks, more[0]);
      if |more| == 2 {
        StillOpenedOnce(begun, chunks + [more[0]], more[1]);
        assert chunks + more == chunks + [more[0]] + [more[1]];
      } else {
        assert chunks + more == chunks + [more[0]];
      }
    }
  }

  /** A failure is reported with its message and closes the stream; empty reasoning says nothing; arguments of a
      function that was never announced get the next free number, and keep it. */
  lemma SpecialEvents(s: State, response: Option<Metadata>, text: string, index: nat, includeUsage: bool)
    ensures Translate(s, Event(response, Failure(text)), includeUsage).1 == [ErrorChunk(text), Done]
    ensures Translate(s, Event(response, ReasoningDelta(index, "")), includeUsage).1 == []
    ensures Translate(s, Event(response, Ignored), includeUsage).1 == []
    ensures index !in s.tools ==>
      var (next, chunks) := Translate(s, Event(response, ArgumentsDelta(index, text)), includeUsage);
      && |chunks| == 1 && chunks[0].Choice? && chunks[0].delta == ToolArguments(s.nextTool, text)
      && next.nextTool == s.nextTool + 1 && next.tools == s.tools[index := s.nextTool]
  {
  }
}
