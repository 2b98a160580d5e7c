/** Which messages are planned, which of them continue the conversation, and what the bodies of a plan hold,
    in the terms of the messages themselves. */
module PlanProperties {
  import opened Items
  import opened Requests
  import opened Conversation
  import opened TurnProperties

  /* ---- which messages are accepted, and which of them continue ---- */

  /** The message names a response it follows. */
  predicate NamesResponse(msg: Body) {
    msg.previous.Some? && msg.previous.value.Text? && msg.previous.value.text != ""
  }

  predicate HasItems(msg: Body) {
    msg.input.Some? && msg.input.value.ItemArray?
  }

  /** The input holds an item that only a full transcript would: a call, a compaction or what the assistant said. */
  ghost predicate HoldsTranscript(msg: Body) {
    && HasItems(msg)
    && exists item :: item in msg.input.value.items &&
         (item.kind in {FunctionCall, CustomToolCall, Compaction, CompactionTrigger} ||
          (item.kind == Message && item.role == Assistant))
  }

  /** The input holds an output for the call. */
  ghost predicate HoldsOutput(msg: Body, callId: string) {
    && HasItems(msg) && callId != ""
    && exists item :: item in msg.input.value.items &&
         item.kind in {FunctionCallOutput, CustomToolCallOutput} && item.callId == callId
  }

  /** The message starts over: a create that names no response, or whose input is a transcript. */
  ghost predicate StartsOver(msg: Body) {
    msg.kind == Create && (!NamesResponse(msg) || HoldsTranscript(msg))
  }

  lemma TranscriptsAreRecognized(msg: Body)
    ensures LooksLikeTranscript(msg.input) <==> HoldsTranscript(msg)
  {
    if HoldsTranscript(msg) {
      var item :| item in msg.input.value.items &&
        (item.kind in {FunctionCall, CustomToolCall, Compaction, CompactionTrigger} ||
         (item.kind == Message && item.role == Assistant));
      var i :| 0 <= i < |msg.input.value.items| && msg.input.value.items[i] == item;
      assert TranscriptItem(msg.input.value.items[i]);
    }
  }

  lemma OutputsAreRecognized(msg: Body, callId: string)
    requires HasItems(msg)
    ensures callId in ToolOutputIds(msg.input.value.items) <==> HoldsOutput(msg, callId)
  {
  }

  lemma ContinuingIsNotStartingOver(msg: Body)
    requires msg.kind.Create? || msg.kind.Append?
    ensures Continues(msg) <==> !StartsOver(msg)
  {
    TranscriptsAreRecognized(msg);
  }

  lemma StartingOverResets(s: State, limits: Limits, msg: Body, pipe: Pipeline, plan: Plan)
    requires PlannedFrom(s, limits, msg, pipe, plan)
    ensures plan.reset == StartsOver(msg) && plan.continuation == !plan.reset
  {
    assert Objection(s, msg) == None;
    ContinuingIsNotStartingOver(msg);
    BodiesDifferOnlyInTheirConversation(s, limits, msg, pipe, plan);
  }

  /** A plan resets the conversation exactly when its message is a create that names no response or whose input
      holds a function call, a custom tool call, a compaction, a compaction trigger or an assistant message. */
  lemma ResetsExactly(s: State, limits: Limits, msg: Body, pipe: Pipeline, plan: Plan)
    requires PlannedFrom(s, limits, msg, pipe, plan)
    ensures plan.reset <==>
      && msg.kind == Create
      && (!(msg.previous.Some? && msg.previous.value.Text? && msg.previous.value.text != "") ||
          (&& msg.input.Some? && msg.input.value.ItemArray?
           && exists item :: item in msg.input.value.items &&
                (item.kind in {FunctionCall, CustomToolCall, Compaction, CompactionTrigger} ||
                 (item.kind == Message && item.role == Assistant))))
  {
    StartingOverResets(s, limits, msg, pipe, plan);
  }

  lemma SatisfiedExactly(s: State, msg: Body)
    requires forall id :: id in s.pending ==> id != ""
    ensures SatisfiesCalls(msg.input, s.pending) <==> forall id :: id in s.pending ==> HoldsOutput(msg, id)
  {
    if s.pending != [] {
      assert s.pending[0] in s.pending;
      if HasItems(msg) {
        forall id | id in s.pending
          ensures id in ToolOutputIds(msg.input.value.items) <==> HoldsOutput(msg, id)
        {
          OutputsAreRecognized(msg, id);
        }
      }
    }
  }

  /** Nothing stands against a message exactly when it is a create or, after a completed response, an append of
      an array; has an input; names the last response if it names one and does not start over, and none before any
      was completed; holds the output of every pending call unless it starts over; and some model is known. */
  lemma AcceptedExactly(s: State, msg: Body)
    requires forall id :: id in s.pending ==> id != ""
    ensures Objection(s, msg) == None <==>
      && (msg.kind == Create || (msg.kind == Append && s.hasCompleted && HasItems(msg)))
      && msg.input.Some?
      && (NamesResponse(msg) ==>
            && s.hasCompleted
            && (StartsOver(msg) || msg.previous.value.text == s.lastResponseId))
      && (!StartsOver(msg) ==> forall id :: id in s.pending ==> HoldsOutput(msg, id))
      && (msg.model != "" || s.model != "")
  {
    if msg.kind.Create? || msg.kind.Append? {
      ContinuingIsNotStartingOver(msg);
      SatisfiedExactly(s, msg);
    }
  }

  /** Of several objections the first in this order is raised. */
  lemma FirstObjection(s: State, msg: Body)
    requires forall id :: id in s.pending ==> id != ""
    ensures Objection(s, msg) == Some(UnsupportedType) <==> msg.kind.OtherType?
    ensures Objection(s, msg) == Some(NothingToAppendTo) <==> msg.kind == Append && !s.hasCompleted
    ensures Objection(s, msg) == Some(InputRequired) <==>
      (msg.kind == Create || (msg.kind == Append && s.hasCompleted)) && msg.input.None?
    ensures Objection(s, msg) == Some(AppendNeedsArray) <==>
      msg.kind == Append && s.hasCompleted && msg.input.Some? && !msg.input.value.ItemArray?
    ensures Objection(s, msg) == Some(PreviousUnavailable) <==>
      msg.kind == Create && msg.input.Some? && !s.hasCompleted && NamesResponse(msg)
    ensures Objection(s, msg) == Some(PreviousMismatch) <==>
      && (msg.kind == Create || (msg.kind == Append && HasItems(msg))) && msg.input.Some? && s.hasCompleted
      && NamesResponse(msg) && !StartsOver(msg) && msg.previous.value.text != s.lastResponseId
    ensures Objection(s, msg) == Some(MissingToolOutputs) ==>
      exists id :: id in s.pending && !HoldsOutput(msg, id)
  {
    if msg.kind.Create? || msg.kind.Append? {
      ContinuingIsNotStartingOver(msg);
      SatisfiedExactly(s, msg);
    }
  }

  /* ---- the fields of the bodies ---- */

  /** The item as it is handed to the repair: system messages become the developer's. */
  predicate Offers(raw: Item, offered: Item, clean: string -> string) {
    && offered.kind == raw.kind && offered.id == raw.id && offered.callId == raw.callId
    && offered.encrypted == raw.encrypted && offered.payload == clean(raw.payload)
    && offered.role == (if raw.role == System then Developer else raw.role)
  }

  /** What a message's input asks for, item by item; a bare text is one user message. */
  function RawItems(input: Value): seq<Item> {
    match input
    case Text(text) => [Item(Message, "", "", User, Missing, text)]
    case ItemArray(items) => items
    case _ => []
  }

  /** The new items of a plan are the repair of the message's own items, in order, cleaned one by one. */
  lemma PlanRepairsTheInput(s: State, limits: Limits, msg: Body, pipe: Pipeline, plan: Plan)
    returns (offered: seq<Item>)
    requires PlannedFrom(s, limits, msg, pipe, plan)
    ensures msg.input.Some? && (msg.input.value.Text? || msg.input.value.ItemArray?)
    ensures |offered| == |RawItems(msg.input.value)| && pipe.sanitize(offered) == Ok(plan.currentInput)
    ensures forall i :: 0 <= i < |offered| ==> Offers(RawItems(msg.input.value)[i], offered[i], pipe.cleanContent)
  {
    offered := PlannedItems(s, limits, msg, pipe, plan);
    InputIsOffered(msg.input.value, pipe.cleanContent);
  }

  lemma InputIsOffered(input: Value, clean: string -> string)
    requires input.Text? || input.ItemArray?
    ensures var offered := NormalizeInput(input, clean);
      && offered.ItemArray? && |offered.items| == |RawItems(input)|
      && forall i :: 0 <= i < |offered.items| ==> Offers(RawItems(input)[i], offered.items[i], clean)
  {
  }

  /** Every other field of both bodies: the client's model or else the conversation's, and the client's remaining
      fields, cleaned, with the identity's own and without the safety identifier. */
  lemma PlanFields(s: State, limits: Limits, msg: Body, pipe: Pipeline, plan: Plan)
    requires PlannedFrom(s, limits, msg, pipe, plan)
    ensures plan.model == (if msg.model != "" then msg.model else s.model) != ""
    ensures plan.incremental.kind == plan.replay.kind == Create
    ensures plan.incremental.model == plan.replay.model == plan.model
    ensures plan.replay.previous == None
    ensures plan.continuation ==> plan.incremental.previous == Some(Text(s.lastResponseId))
    ensures pipe.identify(pipe.cleanRest(msg.rest)).Ok?
    ensures plan.incremental.rest == plan.replay.rest ==
      pipe.identify(pipe.cleanRest(msg.rest)).value - {"safety_identifier"}
  {
    BodiesDifferOnlyInTheirConversation(s, limits, msg, pipe, plan);
  }

  /** A plan is refused for its replay only when that is larger than the configured number of bytes, or 32 MiB when
      none is configured. */
  lemma ReplayableExactly(limits: Limits, body: Body)
    ensures Replayable(limits, body) <==>
      limits.size(body) <= (if limits.maxReplayBytes > 0 then limits.maxReplayBytes else 33554432)
  {
  }

  /** An accepted message that cannot be planned has an input that is neither a text nor an array, or its identity
      or its items are refused, or some replay is too large. */
  lemma RefusedOnlyFor(s: State, limits: Limits, msg: Body, pipe: Pipeline)
    requires Objection(s, msg) == None && PlanTurn(s, limits, Some(msg), pipe).Err?
    ensures
      || !(msg.input.value.Text? || msg.input.value.ItemArray?)
      || pipe.identify(pipe.cleanRest(msg.rest)).Err?
      || (exists offered :: pipe.sanitize(offered).Err?)
      || (exists body :: !Replayable(limits, body))
  {
    var carried := Carry(s, msg);
    if (msg.input.value.Text? || msg.input.value.ItemArray?) && pipe.identify(pipe.cleanRest(msg.rest)).Ok? {
      var normalized := Normalize(carried, pipe).value;
      assert pipe.sanitize(normalized.input.value.items).Ok? ==> FinishBody(normalized, pipe).Ok?;
    }
  }

  /** Missing and null instructions are empty ones; only a text that is not all white space is worth remembering,
      or a value that is no text. */
  lemma InstructionValues(value: Value)
    ensures NormalizeInstructions(None) == NormalizeInstructions(Some(Null)) == Text("")
    ensures value != Null ==> NormalizeInstructions(Some(value)) == value
    ensures Substantial(value) <==>
      !value.Text? || exists i :: 0 <= i < |value.text| && value.text[i] !in {' ', '\t', '\r', '\n'}
  {
    if value.Text? && !Substantial(value) {
      forall i | 0 <= i < |value.text|
        ensures value.text[i] in {' ', '\t', '\r', '\n'}
      {
        assert value.text[i] in " \t\r\n";
      }
    }
  }

  /* ---- tools ---- */

  /** A preview of the web search is asked for under the name of the released one; nothing else changes. */
  predicate SameTool(raw: Tool, sent: Tool) {
    && sent.name == raw.name && sent.nested == raw.nested && sent.payload == raw.payload
    && sent.kind == (if raw.kind == WebSearchPreview then WebSearch else raw.kind)
  }

  predicate SameTools(raw: seq<Tool>, sent: seq<Tool>) {
    |sent| == |raw| && forall i :: 0 <= i < |raw| ==> SameTool(raw[i], sent[i])
  }

  predicate SameSetting(raw: Value, sent: Value) {
    if raw.ToolArray? then sent.ToolArray? && SameTools(raw.tools, sent.tools) else sent == raw
  }

  predicate SameChoice(raw: Value, sent: Value) {
    if raw.Choice? then sent.Choice? && SameTool(raw.tool, sent.tool) && SameTools(raw.allowed, sent.allowed)
    else sent == raw
  }

  lemma NormalizingKeepsTools(value: Value)
    ensures SameSetting(value, NormalizeSetting(Tools, value)) && SameChoice(value, NormalizeSetting(ToolChoice, value))
  {
  }

  /** The tool generates images: as one of its own kind, as a function of that name, or inside its namespace. */
  ghost predicate GeneratesImages(tool: Tool) {
    || tool.kind == ImageGeneration
    || (tool.kind == ToolKind.Function && tool.name == "image_gen.imagegen")
    || (&& tool.kind == Namespace && tool.name == "image_gen"
        && exists nested :: nested in tool.nested && nested.isFunction && nested.name == "imagegen")
  }

  lemma ImageToolsAreRecognized(tool: Tool)
    ensures OffersImages(tool) <==> GeneratesImages(tool)
  {
    if GeneratesImages(tool) && tool.kind == Namespace {
      var nested :| nested in tool.nested && nested.isFunction && nested.name == "imagegen";
      var i :| 0 <= i < |tool.nested| && tool.nested[i] == nested;
    }
  }

  lemma ImageToolIsThere(settings: map<Setting, Value>, tools: seq<Tool>)
    requires tools == if Tools in settings && settings[Tools].ToolArray? then settings[Tools].tools else []
    ensures HasImageTool(settings) <==> exists tool :: tool in tools && GeneratesImages(tool)
  {
    forall tool | tool in tools
      ensures OffersImages(tool) <==> GeneratesImages(tool)
    {
      ImageToolsAreRecognized(tool);
    }
    if tool :| tool in tools && GeneratesImages(tool) {
      var i :| 0 <= i < |tools| && tools[i] == tool;
      assert OffersImages(settings[Tools].tools[i]);
    }
    if HasImageTool(settings) {
      var i :| 0 <= i < |tools| && OffersImages(settings[Tools].tools[i]);
      assert tools[i] in tools && GeneratesImages(tools[i]);
    }
  }

  /** The tools of a settled request as they are sent: with an image tool at the end if images are allowed and none
      of them offers any. */
  lemma SentTools(settings: map<Setting, Value>, pipe: Pipeline)
    ensures var sent := FinishSettings(settings, pipe);
      && Lookup(sent, ToolChoice) == Lookup(settings, ToolChoice)
      && Lookup(sent, ParallelToolCalls) ==
           (if pipe.lite then Some(Flag(false)) else Lookup(settings, ParallelToolCalls))
      && (!pipe.imageToolAllowed ==> Lookup(sent, Tools) == Lookup(settings, Tools))
      && (pipe.imageToolAllowed ==>
            var tools := if Tools in settings && settings[Tools].ToolArray? then settings[Tools].tools else [];
            Lookup(sent, Tools) == Some(ToolArray(
              if exists tool :: tool in tools && GeneratesImages(tool) then tools
              else tools + [Tool(ImageGeneration, "", [], "png")])))
  {
    var tools := if Tools in settings && settings[Tools].ToolArray? then settings[Tools].tools else [];
    ImageToolIsThere(settings, tools);
    assert tools == [] ==> tools + [IMAGE_TOOL] == [IMAGE_TOOL];
  }

  /** What the HTTP route changes in a prepared body besides its items. */
  lemma HttpFields(body: Body, pipe: Pipeline)
    requires HttpBody(body, pipe).Ok?
    ensures var http := HttpBody(body, pipe).value;
      && http.kind == body.kind && http.model == body.model && http.instructions == body.instructions
      && http.previous == None
      && http.rest == body.rest - {"generate", "safety_identifier", "stream_options"}
      && Lookup(http.settings, ToolChoice) == Lookup(body.settings, ToolChoice)
      && (ParallelToolCalls in http.settings ==>
            || pipe.lite
            || (Tools in http.settings && http.settings[Tools].ToolArray? && http.settings[Tools].tools != []))
  {
    SentTools(body.settings, pipe);
  }
}
