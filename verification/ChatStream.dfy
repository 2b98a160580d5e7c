/** Responses events translated into Chat Completions chunks, and a finished response converted at once. */
module ChatStream {
  import opened Items

  datatype Usage = Usage(input: int, output: int, reasoning: Option<int>)

  /** The response object some events carry; "" and 0 stand for absent fields. */
  datatype Metadata = Metadata(id: string, model: string, created: int, usage: Usage)

  datatype Event = Event(response: Option<Metadata>, kind: EventKind)

  datatype EventKind =
    | Created
    | ReasoningDelta(index: nat, text: string)
    | TextDelta(index: nat, text: string)
    | FunctionAdded(index: nat, callId: string, name: string)
    | ArgumentsDelta(index: nat, text: string)
    | Completed
    | Failure(message: string)
    | Ignored

  datatype Finish = Stop | ToolCalls

  datatype Delta =
    | RoleStart
    | Reasoned(text: string)
    | Content(text: string)
    | ToolStart(tool: nat, callId: string, name: string)
    | ToolArguments(tool: nat, text: string)
    | Empty

  datatype Chunk =
    | Choice(id: string, model: string, created: int, delta: Delta, finish: Option<Finish>)
    | UsageTotals(prompt: int, completion: int, total: int, reasoning: Option<int>)
    | ErrorChunk(message: string)
    | Done

  datatype State = State(
    id: string,
    model: string,
    created: int,
    roleSent: bool,
    terminalSent: bool,
    tools: map<nat, nat>,
    nextTool: nat,
    usage: Usage)

  function Start(model: string, created: int): State {
    State("", model, created, false, false, map[], 0, Usage(0, 0, None))
  }

  /* ---- one event ---- */

  function AddUsage(usage: Usage, seen: Usage): Usage {
    Usage(if seen.input > 0 then seen.input else usage.input,
          if seen.output > 0 then seen.output else usage.output,
          if seen.reasoning.Some? then seen.reasoning else usage.reasoning)
  }

  function Observe(s: State, response: Option<Metadata>): State {
    if response.None? then s
    else
      var m := response.value;
      s.(id := if m.id != "" then m.id else s.id,
         model := if m.model != "" then m.model else s.model,
         created := if m.created != 0 then m.created else s.created,
         usage := AddUsage(s.usage, m.usage))
  }

  function Send(s: State, delta: Delta, finish: Option<Finish>): Chunk {
    Choice(s.id, s.model, s.created, delta, finish)
  }

  function Greeting(s: State): seq<Chunk> {
    if s.roleSent then [] else [Send(s, RoleStart, None)]
  }

  function Totals(s: State): Chunk {
    UsageTotals(s.usage.input, s.usage.output, s.usage.input + s.usage.output, s.usage.reasoning)
  }

  function Translate(before: State, event: Event, includeUsage: bool): (State, seq<Chunk>) {
    var s := Observe(before, event.response);
    var spoken := s.(roleSent := true);
    match event.kind
    case Created => (spoken, Greeting(s))
    case ReasoningDelta(_, text) =>
      if text == "" then (s, []) else (spoken, Greeting(s) + [Send(s, Reasoned(text), None)])
    case TextDelta(_, text) => (spoken, Greeting(s) + [Send(s, Content(text), None)])
    case FunctionAdded(index, callId, name) =>
      (spoken.(nextTool := s.nextTool + 1, tools := s.tools[index := s.nextTool]),
       Greeting(s) + [Send(s, ToolStart(s.nextTool, callId, name), None)])
    case ArgumentsDelta(index, text) =>
      if index in s.tools then (s, [Send(s, ToolArguments(s.tools[index], text), None)])
      else (s.(nextTool := s.nextTool + 1, tools := s.tools[index := s.nextTool]),
            [Send(s, ToolArguments(s.nextTool, text), None)])
    case Completed =>
      (spoken.(terminalSent := true),
       Greeting(s) + [Send(s, Empty, Some(if |s.tools| > 0 then ToolCalls else Stop))]
       + (if includeUsage then [Totals(s), Done] else [Done]))
    case Failure(message) => (s.(terminalSent := true), [ErrorChunk(message), Done])
    case Ignored => (s, [])
  }

  /** All events of a stream, in order. */
  function Play(start: State, events: seq<Event>, includeUsage: bool): (State, seq<Chunk>) {
    if events == [] then (start, [])
    else
      var (s, chunks) := Play(start, events[..|events| - 1], includeUsage);
      var (next, more) := Translate(s, events[|events| - 1], includeUsage);
      (next, chunks + more)
  }

  /** A stream that ends without a terminal event is closed all the same. */
  function Closing(s: State): seq<Chunk> {
    if s.terminalSent then [] else [Done]
  }

  /* ---- the object ---- */

  class ChatStreamState {
    var id: string
    var model: string
    var created: int
    var roleSent: bool
    var terminalSent: bool
    var tools: map<nat, nat>
    var nextTool: nat
    var usage: Usage

    ghost function View(): State
      reads this
    {
      State(id, model, created, roleSent, terminalSent, tools, nextTool, usage)
    }

    constructor (model: string, created: int)
      ensures View() == Start(model, created)
    {
      this.id, this.model, this.created, roleSent, terminalSent := "", model, created, false, false;
      tools, nextTool, usage := map[], 0, Usage(0, 0, None);
    }

    method ObserveResponse(response: Option<Metadata>)
      modifies this`id, this`model, this`created, this`usage
      ensures View() == Observe(old(View()), response)
    {
      if response.Some? {
        var m := response.value;
        if m.id != "" {
          id := m.id;
        }
        if m.model != "" {
          model := m.model;
        }
        if m.created != 0 {
          created := m.created;
        }
        usage := AddUsage(usage, m.usage);
      }
    }

    method EnsureRole() returns (chunks: seq<Chunk>)
      modifies this`roleSent
      ensures View() == old(View()).(roleSent := true)
      ensures chunks == Greeting(old(View()))
    {
      if roleSent {
        return [];
      }
      roleSent := true;
      chunks := [Choice(id, model, created, RoleStart, None)];
    }

    method NewTool(index: nat) returns (tool: nat)
      modifies this`tools, this`nextTool
      ensures tool == old(nextTool) && nextTool == old(nextTool) + 1 && tools == old(tools)[index := old(nextTool)]
    {
      tool := nextTool;
      nextTool := nextTool + 1;
      tools := tools[index := tool];
    }

    method TranslateEvent(event: Event, includeUsage: bool) returns (chunks: seq<Chunk>)
      modifies this
      ensures (View(), chunks) == Translate(old(View()), event, includeUsage)
    {
      ObserveResponse(event.response);
      match event.kind {
        case Created =>
          chunks := EnsureRole();
        case ReasoningDelta(_, text) =>
          if text == "" {
            return [];
          }
          chunks := EnsureRole();
          chunks := chunks + [Choice(id, model, created, Reasoned(text), None)];
        case TextDelta(_, text) =>
          chunks := EnsureRole();
          chunks := chunks + [Choice(id, model, created, Content(text), None)];
        case FunctionAdded(index, callId, name) =>
          chunks := EnsureRole();
          var tool := NewTool(index);
          chunks := chunks + [Choice(id, model, created, ToolStart(tool, callId, name), None)];
        case ArgumentsDelta(index, text) =>
          var tool: nat;
          if index in tools {
            tool := tools[index];
          } else {
            tool := NewTool(index);
          }
          chunks := [Choice(id, model, created, ToolArguments(tool, text), None)];
        case Completed =>
          chunks := EnsureRole();
          var finish := if |tools| > 0 then ToolCalls else Stop;
          chunks := chunks + [Choice(id, model, created, Empty, Some(finish))];
          if includeUsage {
            var totals := UsageTotals(usage.input, usage.output, usage.input + usage.output, usage.reasoning);
            chunks := chunks + [totals, Done];
          } else {
            chunks := chunks + [Done];
          }
          terminalSent := true;
        case Failure(message) =>
          terminalSent := true;
          chunks := [ErrorChunk(message), Done];
        case Ignored =>
          chunks := [];
      }
    }
  }

  /** The whole stream for a client that stays connected. A read error ends it without a closing marker. */
  method StreamChat(events: seq<Event>, broken: bool, model: string, created: int, includeUsage: bool)
    returns (status: nat, chunks: seq<Chunk>)
    ensures var (s, sent) := Play(Start(model, created), events, includeUsage);
      chunks == if broken then sent else sent + Closing(s)
    ensures status == if broken then 502 else 200
  {
    var state := new ChatStreamState(model, created);
    chunks := [];
    for i := 0 to |events|
      invariant (state.View(), chunks) == Play(Start(model, created), events[..i], includeUsage)
    {
      assert events[..i + 1][..i] == events[..i];
      var more := state.TranslateEvent(events[i], includeUsage);
      chunks := chunks + more;
    }
    assert events[..|events|] == events;
    if broken {
      return 502, chunks;
    }
    if !state.terminalSent {
      chunks := chunks + [Done];
    }
    return 200, chunks;
  }

  /* ---- a finished response ---- */

  datatype OutputItem =
    | ReasoningItem(summary: seq<string>, content: seq<string>)
    | MessageItem(parts: seq<string>)
    | FunctionItem(callId: string, name: string, arguments: string)
    | OtherItem

  datatype ToolCall = ToolCall(callId: string, name: string, arguments: string)

  datatype Completion = Completion(content: string, reasoning: Option<string>, tools: seq<ToolCall>, finish: Finish)

  function Join(parts: seq<string>): string {
    if parts == [] then "" else Join(parts[..|parts| - 1]) + parts[|parts| - 1]
  }

  function ItemText(item: OutputItem): string {
    if item.MessageItem? then Join(item.parts) else ""
  }

  function ItemReasoning(item: OutputItem): string {
    if item.ReasoningItem? then Join(item.summary) + Join(item.content) else ""
  }

  function TextOf(output: seq<OutputItem>): string {
    if output == [] then "" else TextOf(output[..|output| - 1]) + ItemText(output[|output| - 1])
  }

  function ReasoningOf(output: seq<OutputItem>): string {
    if output == [] then "" else ReasoningOf(output[..|output| - 1]) + ItemReasoning(output[|output| - 1])
  }

  function ItemCalls(item: OutputItem): seq<ToolCall> {
    if item.FunctionItem? then [ToolCall(item.callId, item.name, item.arguments)] else []
  }

  function CallsOf(output: seq<OutputItem>): seq<ToolCall> {
    if output == [] then [] else CallsOf(output[..|output| - 1]) + ItemCalls(output[|output| - 1])
  }

  function NonEmpty(text: string): Option<string> {
    if text == "" then None else Some(text)
  }

  function Converted(output: seq<OutputItem>): Completion {
    Completion(TextOf(output), NonEmpty(ReasoningOf(output)), CallsOf(output),
               if CallsOf(output) == [] then Stop else ToolCalls)
  }

  method AppendNonEmpty(parts: seq<string>, more: seq<string>) returns (out: seq<string>)
    requires forall p :: p in parts ==> p != ""
    ensures forall p :: p in out ==> p != ""
    ensures Join(out) == Join(parts) + Join(more)
  {
    out := parts;
    for i := 0 to |more|
      invariant forall p :: p in out ==> p != ""
      invariant Join(out) == Join(parts) + Join(more[..i])
    {
      assert more[..i + 1][..i] == more[..i];
      if more[i] != "" {
        assert (out + [more[i]])[..|out|] == out;
        out := out + [more[i]];
      }
    }
    assert more[..|more|] == more;
  }

  lemma {:induction false} JoinOfNonEmpty(parts: seq<string>)
    requires forall p :: p in parts ==> p != ""
    ensures Join(parts) == "" <==> parts == []
  {
    if parts != [] {
      assert parts[|parts| - 1] in parts;
    }
  }

  /** One output item, added to what the earlier ones gave. */
  method AppendItem(item: OutputItem, textParts: seq<string>, reasoningParts: seq<string>, toolCalls: seq<ToolCall>)
    returns (text: seq<string>, reasoning: seq<string>, calls: seq<ToolCall>)
    requires (forall p :: p in textParts ==> p != "") && (forall p :: p in reasoningParts ==> p != "")
    ensures (forall p :: p in text ==> p != "") && (forall p :: p in reasoning ==> p != "")
    ensures Join(text) == Join(textParts) + ItemText(item)
    ensures Join(reasoning) == Join(reasoningParts) + ItemReasoning(item)
    ensures calls == toolCalls + ItemCalls(item)
  {
    text, reasoning, calls := textParts, reasoningParts, toolCalls;
    if item.ReasoningItem? {
      reasoning := AppendNonEmpty(reasoning, item.summary);
      reasoning := AppendNonEmpty(reasoning, item.content);
      assert Join(reasoning) == Join(reasoningParts) + (Join(item.summary) + Join(item.content));
    } else if item.MessageItem? {
      text := AppendNonEmpty(text, item.parts);
    } else if item.FunctionItem? {
      calls := calls + [ToolCall(item.callId, item.name, item.arguments)];
    }
  }

  /** A finished response with its envelope; `total` is the upstream's own count. */
  datatype FinalResponse = FinalResponse(
    id: string,
    model: string,
    created: int,
    output: seq<OutputItem>,
    usage: Usage,
    total: int)

  datatype Reply = Reply(id: string, model: string, created: int, completion: Completion, usage: Usage, total: int)

  function ConvertedReply(response: FinalResponse, now: int): Reply {
    Reply(response.id, response.model, if response.created == 0 then now else response.created,
          Converted(response.output), response.usage, response.total)
  }

  /** The parts are what the items of the output gave. */
  ghost predicate Collects(output: seq<OutputItem>, textParts: seq<string>, reasoningParts: seq<string>,
                           toolCalls: seq<ToolCall>)
  {
    && (forall p :: p in textParts ==> p != "") && (forall p :: p in reasoningParts ==> p != "")
    && Join(textParts) == TextOf(output) && Join(reasoningParts) == ReasoningOf(output)
    && toolCalls == CallsOf(output)
  }

  method CollectParts(output: seq<OutputItem>)
    returns (textParts: seq<string>, reasoningParts: seq<string>, toolCalls: seq<ToolCall>)
    ensures Collects(output, textParts, reasoningParts, toolCalls)
  {
    textParts, reasoningParts, toolCalls := [], [], [];
    for i := 0 to |output|
      invariant Collects(output[..i], textParts, reasoningParts, toolCalls)
    {
      OneMoreItem(output[..i], output[i]);
      assert output[..i + 1] == output[..i] + [output[i]];
      textParts, reasoningParts, toolCalls := AppendItem(output[i], textParts, reasoningParts, toolCalls);
    }
    assert output[..|output|] == output;
  }

  method ConvertResponse(response: FinalResponse, now: int) returns (reply: Reply)
    ensures reply == ConvertedReply(response, now)
    ensures reply.id == response.id && reply.model == response.model
    ensures reply.created == (if response.created == 0 then now else response.created)
    ensures reply.usage == response.usage && reply.total == response.total
  {
    var textParts, reasoningParts, toolCalls := CollectParts(response.output);
    JoinOfNonEmpty(reasoningParts);
    var reasoning := if |reasoningParts| > 0 then Some(Join(reasoningParts)) else None;
    var completion := Completion(Join(textParts), reasoning, toolCalls, if |toolCalls| > 0 then ToolCalls else Stop);
    var created := response.created;
    if created == 0 {
      created := now;
    }
    reply := Reply(response.id, response.model, created, completion, response.usage, response.total);
  }

  lemma JoinOfOneMore(parts: seq<string>, part: string)
    ensures Join([]) == "" && Join(parts + [part]) == Join(parts) + part
  {
    assert (parts + [part])[..|parts|] == parts;
  }

  /** What each kind of output item adds: a message its parts, reasoning its summary and then its content, a
      function its call; nothing else adds anything. */
  lemma EachItemAdds(output: seq<OutputItem>, parts: seq<string>, more: seq<string>, call: ToolCall)
    ensures TextOf([]) == ReasoningOf([]) == "" && CallsOf([]) == []
    ensures TextOf(output + [MessageItem(parts)]) == TextOf(output) + Join(parts)
    ensures ReasoningOf(output + [ReasoningItem(parts, more)]) == ReasoningOf(output) + Join(parts) + Join(more)
    ensures CallsOf(output + [FunctionItem(call.callId, call.name, call.arguments)]) == CallsOf(output) + [call]
    ensures forall item: OutputItem :: !item.MessageItem? ==> TextOf(output + [item]) == TextOf(output)
    ensures forall item: OutputItem :: !item.ReasoningItem? ==> ReasoningOf(output + [item]) == ReasoningOf(output)
    ensures forall item: OutputItem :: !item.FunctionItem? ==> CallsOf(output + [item]) == CallsOf(output)
  {
    forall item: OutputItem
      ensures TextOf(output + [item]) == TextOf(output) + ItemText(item)
      ensures ReasoningOf(output + [item]) == ReasoningOf(output) + ItemReasoning(item)
      ensures CallsOf(output + [item]) == CallsOf(output) + ItemCalls(item)
    {
      OneMoreItem(output, item);
    }
    assert ReasoningOf(output) + Join(parts) + Join(more) == ReasoningOf(output) + (Join(parts) + Join(more));
  }

  /** A converted response asks for tools exactly when it holds a function call, and has reasoning exactly when some
      part of it is not empty. */
  lemma {:induction false} FinishExactly(output: seq<OutputItem>)
    ensures Converted(output).finish == ToolCalls <==> exists item :: item in output && item.FunctionItem?
    ensures Converted(output).finish != ToolCalls ==> Converted(output).finish == Stop
    ensures Converted(output).reasoning == if ReasoningOf(output) == "" then None else Some(ReasoningOf(output))
  {
    if output != [] {
      var init, last := output[..|output| - 1], output[|output| - 1];
      FinishExactly(init);
      assert output == init + [last];
    }
  }

  lemma OneMoreItem(output: seq<OutputItem>, item: OutputItem)
    ensures TextOf(output + [item]) == TextOf(output) + ItemText(item)
    ensures ReasoningOf(output + [item]) == ReasoningOf(output) + ItemReasoning(item)
    ensures CallsOf(output + [item]) == CallsOf(output) + ItemCalls(item)
  {
    assert (output + [item])[..|output|] == output;
  }
}
