/** One downstream WebSocket conversation: planning a turn, choosing its body, committing its result. */
module Conversation {
  import opened Items
  import opened ItemMerge
  import opened Requests

  const DEFAULT_REPLAY_BYTES: int := 32 * 1024 * 1024

  datatype State = State(
    model: string,
    instructions: Option<Value>,
    settings: map<Setting, Value>,
    history: seq<Item>,
    lastResponseId: string,
    lastGeneration: nat,
    pending: seq<string>,
    hasCompleted: bool)

  datatype Plan = Plan(
    model: string,
    incremental: Body,
    replay: Body,
    currentInput: seq<Item>,
    reset: bool,
    continuation: bool,
    settings: map<Setting, Value>,
    instructionsSet: bool)

  /** The response object of a terminal event. */
  datatype Terminal = Terminal(id: string, output: seq<Item>, instructions: Option<Value>)

  /** The encoded size of a body, and the configured cap on it. */
  datatype Limits = Limits(size: Body -> nat, maxReplayBytes: int)

  const FRESH := State("", None, map[], [], "", 0, [], false)

  function ReplayLimit(limits: Limits): int {
    if limits.maxReplayBytes > 0 then limits.maxReplayBytes else DEFAULT_REPLAY_BYTES
  }

  predicate Replayable(limits: Limits, body: Body) {
    limits.size(body) <= ReplayLimit(limits)
  }

  /* ---- reading the client's message ---- */

  predicate TranscriptItem(item: Item) {
    match item.kind
    case FunctionCall | CustomToolCall | Compaction | CompactionTrigger => true
    case Message => item.role.Assistant?
    case _ => false
  }

  predicate LooksLikeTranscript(input: Option<Value>) {
    && input.Some? && input.value.ItemArray?
    && exists i :: 0 <= i < |input.value.items| && TranscriptItem(input.value.items[i])
  }

  predicate SatisfiesCalls(input: Option<Value>, pending: seq<string>) {
    pending == [] ||
    (input.Some? && input.value.ItemArray? && forall id :: id in pending ==> id in ToolOutputIds(input.value.items))
  }

  predicate Continues(msg: Body) {
    && (msg.kind.Append? || JsonString(msg.previous) != "")
    && !(msg.kind.Create? && LooksLikeTranscript(msg.input))
  }

  function ChosenModel(s: State, msg: Body): string {
    if msg.model != "" then msg.model else s.model
  }

  /** The first objection to a message, if there is one. */
  function Objection(s: State, msg: Body): Option<Error> {
    if msg.kind.OtherType? then Some(UnsupportedType)
    else if msg.kind.Append? && !s.hasCompleted then Some(NothingToAppendTo)
    else if msg.input.None? then Some(InputRequired)
    else if msg.kind.Append? && !msg.input.value.ItemArray? then Some(AppendNeedsArray)
    else if !s.hasCompleted && JsonString(msg.previous) != "" then Some(PreviousUnavailable)
    else if Continues(msg) && JsonString(msg.previous) != "" && JsonString(msg.previous) != s.lastResponseId then
      Some(PreviousMismatch)
    else if Continues(msg) && !SatisfiesCalls(msg.input, s.pending) then Some(MissingToolOutputs)
    else if ChosenModel(s, msg) == "" then Some(ModelRequired)
    else None
  }

  /** The message with everything the conversation carries into a continuation. */
  function Carry(s: State, msg: Body): Body {
    var base := msg.(kind := Create, model := ChosenModel(s, msg));
    if Continues(msg) then
      base.(
        instructions := if msg.instructions.None? then s.instructions else msg.instructions,
        previous := if JsonString(msg.previous) == "" then Some(Text(s.lastResponseId)) else msg.previous,
        settings := s.settings + msg.settings)
    else if msg.kind.Create? && LooksLikeTranscript(msg.input) then base.(previous := None)
    else base
  }

  /** The items a turn asks the upstream to consider. */
  function Intended(s: State, reset: bool, current: seq<Item>): seq<Item> {
    if reset then current else Merge(s.history, current)
  }

  /** Both bodies of a turn, from the message with everything carried into it. */
  function FinishedPlan(s: State, limits: Limits, carried: Body, pipe: Pipeline, reset: bool, instructionsSet: bool)
    : Result<Plan, Error>
  {
    var normalized :- Normalize(carried, pipe);
    var incremental :- FinishBody(normalized, pipe);
    if !incremental.input.value.ItemArray? then Err(InputNotArray)
    else
      var current := incremental.input.value.items;
      var replay := incremental.(input := Some(ItemArray(Intended(s, reset, current))), previous := None);
      if !Replayable(limits, replay) then Err(ReplayTooLarge)
      else Ok(Plan(carried.model, incremental, replay, current, reset, !reset, normalized.settings, instructionsSet))
  }

  function PlanTurn(s: State, limits: Limits, raw: Option<Body>, pipe: Pipeline): Result<Plan, Error> {
    if raw.None? then Err(Malformed)
    else
      var msg := raw.value;
      var objection := Objection(s, msg);
      if objection.Some? then Err(objection.value)
      else FinishedPlan(s, limits, Carry(s, msg), pipe, !Continues(msg), msg.instructions.Some?)
  }

  function ChosenBody(s: State, plan: Plan, generation: nat, httpFallback: bool): Body {
    if !httpFallback && plan.continuation && generation != 0 && generation == s.lastGeneration
    then plan.incremental
    else plan.replay
  }

  /* ---- committing a completed turn ---- */

  function PendingCalls(items: seq<Item>): (pending: seq<string>) {
    if items == [] then []
    else
      var before, last := PendingCalls(items[..|items| - 1]), items[|items| - 1];
      if IsToolCall(last) && last.callId !in before then before + [last.callId] else before
  }

  lemma {:induction false} PendingCallsAreTheToolCalls(items: seq<Item>)
    ensures forall id :: id in PendingCalls(items) <==> id in ToolCallIds(items)
    ensures forall id :: id in PendingCalls(items) <==>
      exists item :: item in items && item.kind in {FunctionCall, CustomToolCall} && item.callId == id != ""
    ensures forall i, j :: 0 <= i < j < |PendingCalls(items)| ==> PendingCalls(items)[i] != PendingCalls(items)[j]
  {
    if items != [] {
      var init, last := items[..|items| - 1], items[|items| - 1];
      PendingCallsAreTheToolCalls(init);
      assert items == init + [last];
    }
  }

  function NewHistory(s: State, plan: Plan, output: seq<Item>): seq<Item> {
    Merge(Intended(s, plan.reset, plan.currentInput), output)
  }

  /** What the next continuation inherits as instructions. */
  function NewInstructions(current: Option<Value>, plan: Plan, echo: Option<Value>): Option<Value> {
    if plan.instructionsSet then
      if plan.incremental.instructions.Some? && Substantial(plan.incremental.instructions.value)
      then plan.incremental.instructions else None
    else if plan.reset then
      if echo.Some? && Substantial(echo.value) then echo else None
    else current
  }

  function Committed(s: State, plan: Plan, response: Terminal, generation: nat): State {
    State(
      plan.model,
      NewInstructions(s.instructions, plan, response.instructions),
      (if plan.reset then map[] else s.settings) + plan.settings,
      NewHistory(s, plan, response.output),
      response.id,
      generation,
      PendingCalls(response.output),
      true)
  }

  function CommitTurn(s: State, limits: Limits, plan: Plan, terminal: Option<Terminal>, generation: nat)
    : Result<State, Error>
  {
    if terminal.None? then Err(Malformed)
    else if terminal.value.id == "" then Err(MissingResponseId)
    else if !Replayable(limits, plan.replay.(input := Some(ItemArray(NewHistory(s, plan, terminal.value.output))))) then
      Err(ReplayTooLarge)
    else Ok(Committed(s, plan, terminal.value, generation))
  }

  /* ---- the object ---- */

  /** The conversation as it is kept: fields that `Commit` overwrites. */
  class WebSocketConversation {
    var model: string
    var instructions: Option<Value>
    var turnSettings: map<Setting, Value>
    var history: seq<Item>
    var lastResponseId: string
    var lastGeneration: nat
    var pendingCallIds: seq<string>
    var hasCompleted: bool
    const limits: Limits

    ghost function View(): State
      reads this
    {
      State(model, instructions, turnSettings, history, lastResponseId, lastGeneration, pendingCallIds, hasCompleted)
    }

    constructor (limits: Limits)
      ensures View() == FRESH && this.limits == limits
    {
      model, instructions, turnSettings, history := "", None, map[], [];
      lastResponseId, lastGeneration, pendingCallIds, hasCompleted := "", 0, [], false;
      this.limits := limits;
    }

    method InputLooksLikeTranscript(input: Option<Value>) returns (found: bool)
      ensures found == LooksLikeTranscript(input)
    {
      if input.None? || !input.value.ItemArray? {
        return false;
      }
      var items := input.value.items;
      for i := 0 to |items|
        invariant forall j :: 0 <= j < i ==> !TranscriptItem(items[j])
      {
        if TranscriptItem(items[i]) {
          return true;
        }
      }
      return false;
    }

    method InputSatisfiesCalls(input: Option<Value>, pending: seq<string>) returns (satisfied: bool)
      ensures satisfied == SatisfiesCalls(input, pending)
    {
      if |pending| == 0 {
        return true;
      }
      if input.None? || !input.value.ItemArray? {
        return false;
      }
      var items := input.value.items;
      var outputs: set<string> := {};
      for i := 0 to |items|
        invariant outputs == ToolOutputIds(items[..i])
      {
        assert items[..i + 1] == items[..i] + [items[i]];
        if IsToolOutput(items[i]) {
          outputs := outputs + {items[i].callId};
        }
      }
      assert items[..|items|] == items;
      for i := 0 to |pending|
        invariant forall j :: 0 <= j < i ==> pending[j] in outputs
      {
        if pending[i] !in outputs {
          return false;
        }
      }
      return true;
    }

    /** The checks a message must pass before it is prepared. */
    method Review(msg: Body) returns (objection: Option<Error>)
      ensures objection == Objection(View(), msg)
    {
      if msg.kind.OtherType? {
        return Some(UnsupportedType);
      }
      var append := msg.kind.Append?;
      if append && !hasCompleted {
        return Some(NothingToAppendTo);
      }
      if msg.input.None? {
        return Some(InputRequired);
      }
      if append && !msg.input.value.ItemArray? {
        return Some(AppendNeedsArray);
      }
      var previous := JsonString(msg.previous);
      if !hasCompleted && previous != "" {
        return Some(PreviousUnavailable);
      }
      var continuation := append || previous != "";
      var transcript := InputLooksLikeTranscript(msg.input);
      if msg.kind.Create? && transcript {
        continuation := false;
      }
      if continuation && previous != "" && previous != lastResponseId {
        return Some(PreviousMismatch);
      }
      if continuation {
        var satisfied := InputSatisfiesCalls(msg.input, pendingCallIds);
        if !satisfied {
          return Some(MissingToolOutputs);
        }
      }
      if msg.model == "" && model == "" {
        return Some(ModelRequired);
      }
      return None;
    }

    /** Plans one turn; the conversation itself does not change. */
    method Prepare(raw: Option<Body>, pipe: Pipeline) returns (r: Result<Plan, Error>)
      ensures r == PlanTurn(View(), limits, raw, pipe)
    {
      if raw.None? {
        return Err(Malformed);
      }
      var msg := raw.value;
      var objection := Review(msg);
      if objection.Some? {
        return Err(objection.value);
      }
      var instructionsSet := msg.instructions.Some?;
      var previous := JsonString(msg.previous);
      var continuation := msg.kind.Append? || previous != "";
      var transcript := InputLooksLikeTranscript(msg.input);
      if msg.kind.Create? && transcript {
        continuation := false;
        msg := msg.(previous := None);
      }
      if msg.model == "" {
        msg := msg.(model := model);
      }
      if continuation {
        if msg.instructions.None? {
          msg := msg.(instructions := instructions);
        }
        if previous == "" {
          msg := msg.(previous := Some(Text(lastResponseId)));
        }
        msg := msg.(settings := turnSettings + msg.settings);
      }
      msg := msg.(kind := Create);
      assert msg == Carry(View(), raw.value);
      r := FinishPlan(msg, pipe, !continuation, instructionsSet);
    }

    /** The second half of `Prepare`: normalise the carried message, then build both bodies. */
    method FinishPlan(msg: Body, pipe: Pipeline, reset: bool, instructionsSet: bool) returns (r: Result<Plan, Error>)
      ensures r == FinishedPlan(View(), limits, msg, pipe, reset, instructionsSet)
    {
      var normalized :- Normalize(msg, pipe);
      var incremental :- FinishBody(normalized, pipe);
      if !incremental.input.value.ItemArray? {
        return Err(InputNotArray);
      }
      var currentInput := incremental.input.value.items;
      var replayInput := currentInput;
      if !reset {
        replayInput := MergeTwo(history, currentInput);
      }
      var replay := incremental.(input := Some(ItemArray(replayInput)), previous := None);
      if !Replayable(limits, replay) {
        return Err(ReplayTooLarge);
      }
      return Ok(Plan(msg.model, incremental, replay, currentInput, reset, !reset,
                     normalized.settings, instructionsSet));
    }

    /** The incremental body is for a continuation on the socket that completed the last response, and for
        nothing else; everything else is sent the replay. */
    function BodyFor(plan: Plan, generation: nat, httpFallback: bool): (body: Body)
      reads this
      ensures body == plan.incremental || body == plan.replay
      ensures body != plan.replay ==>
        plan.continuation && !httpFallback && generation == lastGeneration && generation != 0
      ensures body != plan.incremental ==>
        httpFallback || !plan.continuation || generation == 0 || generation != lastGeneration
    {
      if !httpFallback && plan.continuation && generation != 0 && generation == lastGeneration
      then plan.incremental else plan.replay
    }

    method Commit(plan: Plan, terminal: Option<Terminal>, generation: nat) returns (failure: Option<Error>)
      modifies this
      ensures var outcome := CommitTurn(old(View()), limits, plan, terminal, generation);
        && (outcome.Ok? ==> failure == None && View() == outcome.value)
        && (outcome.Err? ==> failure == Some(outcome.error) && View() == old(View()))
    {
      if terminal.None? {
        return Some(Malformed);
      }
      var response := terminal.value;
      if response.id == "" {
        return Some(MissingResponseId);
      }
      var merged := JoinHistory(plan, response.output);
      if !Replayable(limits, plan.replay.(input := Some(ItemArray(merged)))) {
        return Some(ReplayTooLarge);
      }
      Accept(plan, response, merged, generation);
      return None;
    }

    method Accept(plan: Plan, response: Terminal, merged: seq<Item>, generation: nat)
      requires merged == NewHistory(View(), plan, response.output)
      modifies this
      ensures View() == Committed(old(View()), plan, response, generation)
    {
      CarrySettings(plan, response.instructions);
      history := merged;
      model := plan.model;
      lastResponseId := response.id;
      lastGeneration := generation;
      pendingCallIds := CollectPending(response.output);
      hasCompleted := true;
    }

    method JoinHistory(plan: Plan, output: seq<Item>) returns (merged: seq<Item>)
      ensures merged == NewHistory(View(), plan, output)
    {
      merged := plan.currentInput;
      if !plan.reset {
        merged := MergeTwo(history, plan.currentInput);
      }
      merged := MergeTwo(merged, output);
    }

    /** Remembers what a later continuation may leave out. */
    method CarrySettings(plan: Plan, echo: Option<Value>)
      modifies this`turnSettings, this`instructions
      ensures turnSettings == (if plan.reset then map[] else old(turnSettings)) + plan.settings
      ensures instructions == NewInstructions(old(instructions), plan, echo)
    {
      if plan.reset {
        turnSettings := map[];
      }
      turnSettings := turnSettings + plan.settings;
      if plan.reset || plan.instructionsSet {
        instructions := None;
      }
      if plan.instructionsSet {
        var value := plan.incremental.instructions;
        if value.Some? && Substantial(value.value) {
          instructions := value;
        }
      }
      if plan.reset && !plan.instructionsSet && echo.Some? {
        if Substantial(echo.value) {
          instructions := echo;
        }
      }
    }
  }

  method MergeTwo(a: seq<Item>, b: seq<Item>) returns (out: seq<Item>)
    ensures out == Merge(a, b)
  {
    out := MergeItems([a, b]);
    assert [a, b][..1] == [a] && [a][..0] == [];
    assert Flatten([a]) == [] + a == a;
    assert Flatten([a, b]) == a + b;
  }

  method CollectPending(items: seq<Item>) returns (pending: seq<string>)
    ensures pending == PendingCalls(items)
  {
    var seen: set<string> := {};
    pending := [];
    for i := 0 to |items|
      invariant pending == PendingCalls(items[..i])
      invariant forall id :: id in seen <==> id in pending
    {
      assert items[..i + 1][..i] == items[..i];
      var item := items[i];
      if IsToolCall(item) && item.callId !in seen {
        seen := seen + {item.callId};
        pending := pending + [item.callId];
      }
    }
    assert items[..|items|] == items;
  }
}
