/** Request bodies and the field-level preparation a body receives before it goes upstream. */
module Requests {
  import opened Items

  datatype Result<+T, +E> = Ok(value: T) | Err(error: E) {
    predicate IsFailure() { Err? }
    function PropagateFailure<U>(): Result<U, E>
      requires Err?
    {
      Err(error)
    }
    function Extract(): T
      requires Ok?
    {
      value
    }
  }

  datatype ToolKind = ImageGeneration | Function | Namespace | WebSearch | WebSearchPreview | OtherTool(name: string)

  datatype Nested = Nested(isFunction: bool, name: string)

  datatype Tool = Tool(kind: ToolKind, name: string, nested: seq<Nested>, payload: string)

  /** A JSON value, seen through the field that holds it. */
  datatype Value =
    | Null
    | Flag(flag: bool)
    | Text(text: string)
    | ItemArray(items: seq<Item>)
    | ToolArray(tools: seq<Tool>)
    | Choice(tool: Tool, allowed: seq<Tool>)
    | Other(token: string)

  datatype MessageType = Create | Append | OtherType(name: string)

  datatype Setting = Tools | ToolChoice | ParallelToolCalls

  /** A request object: `model` is "" when absent, `settings` holds the fields that are present. */
  datatype Body = Body(
    kind: MessageType,
    model: string,
    input: Option<Value>,
    instructions: Option<Value>,
    previous: Option<Value>,
    settings: map<Setting, Value>,
    rest: map<string, Value>)

  datatype Error =
    | Malformed
    | UnsupportedType
    | NothingToAppendTo
    | InputRequired
    | AppendNeedsArray
    | PreviousUnavailable
    | PreviousMismatch
    | MissingToolOutputs
    | ModelRequired
    | IdentityRefused
    | NoFreeId
    | InputNotArray
    | ReplayTooLarge
    | MissingResponseId

  /** The steps of preparing one turn that do not depend on the conversation. `resanitize` is the second
      pass over the items that the HTTP route adds; by then the identity may hold more mappings. */
  datatype Pipeline = Pipeline(
    cleanContent: string -> string,
    cleanRest: map<string, Value> -> map<string, Value>,
    identify: map<string, Value> -> Result<map<string, Value>, Error>,
    sanitize: seq<Item> -> Result<seq<Item>, Error>,
    resanitize: seq<Item> -> Result<seq<Item>, Error>,
    imageToolAllowed: bool,
    lite: bool)

  function JsonString(value: Option<Value>): string {
    if value.Some? && value.value.Text? then value.value.text else ""
  }

  predicate Blank(text: string) {
    forall i :: 0 <= i < |text| ==> text[i] in " \t\r\n"
  }

  /** An instruction value worth remembering: anything but a blank string. */
  predicate Substantial(value: Value) {
    value.Text? ==> !Blank(value.text)
  }

  /* ---- normalisation shared by every route ---- */

  function NormalizeTool(tool: Tool): Tool {
    if tool.kind.WebSearchPreview? then tool.(kind := WebSearch) else tool
  }

  function NormalizeTools(tools: seq<Tool>): seq<Tool> {
    seq(|tools|, i requires 0 <= i < |tools| => NormalizeTool(tools[i]))
  }

  function NormalizeSetting(setting: Setting, value: Value): Value {
    match (setting, value)
    case (Tools, ToolArray(tools)) => ToolArray(NormalizeTools(tools))
    case (ToolChoice, Choice(tool, allowed)) => Choice(NormalizeTool(tool), NormalizeTools(allowed))
    case (_, _) => value
  }

  /** Null tools are dropped and parallel tool calls are always asked for. */
  function NormalizeSettings(settings: map<Setting, Value>): map<Setting, Value> {
    (map setting | setting in settings && !(setting.Tools? && settings[setting].Null?) ::
       NormalizeSetting(setting, settings[setting]))[ParallelToolCalls := Flag(true)]
  }

  function NormalizeItem(item: Item, clean: string -> string): Item {
    item.(role := if item.role.System? then Developer else item.role, payload := clean(item.payload))
  }

  function NormalizeItems(items: seq<Item>, clean: string -> string): seq<Item> {
    seq(|items|, i requires 0 <= i < |items| => NormalizeItem(items[i], clean))
  }

  /** A bare string is one user message. */
  function NormalizeInput(value: Value, clean: string -> string): Value {
    match value
    case Text(text) => ItemArray(NormalizeItems([Item(Message, "", "", User, Missing, text)], clean))
    case ItemArray(items) => ItemArray(NormalizeItems(items, clean))
    case _ => value
  }

  function NormalizeInstructions(instructions: Option<Value>): Value {
    if instructions.None? || instructions.value.Null? then Text("") else instructions.value
  }

  function Normalize(body: Body, pipe: Pipeline): Result<Body, Error> {
    if body.model == "" then Err(ModelRequired)
    else if body.input.None? || body.input.value.Null? then Err(InputRequired)
    else Ok(body.(
      input := Some(NormalizeInput(body.input.value, pipe.cleanContent)),
      instructions := Some(NormalizeInstructions(body.instructions)),
      settings := NormalizeSettings(body.settings),
      rest := pipe.cleanRest(body.rest)))
  }

  /* ---- the image tool ---- */

  const IMAGE_TOOL := Tool(ImageGeneration, "", [], "png")

  predicate OffersImages(tool: Tool) {
    match tool.kind
    case ImageGeneration => true
    case Function => tool.name == "image_gen.imagegen"
    case Namespace => tool.name == "image_gen" &&
      exists i :: 0 <= i < |tool.nested| && tool.nested[i].isFunction && tool.nested[i].name == "imagegen"
    case _ => false
  }

  predicate HasImageTool(settings: map<Setting, Value>) {
    && Tools in settings && settings[Tools].ToolArray?
    && exists i :: 0 <= i < |settings[Tools].tools| && OffersImages(settings[Tools].tools[i])
  }

  function EnsureImageTool(settings: map<Setting, Value>, allowed: bool): map<Setting, Value> {
    if !allowed || HasImageTool(settings) then settings
    else if Tools in settings && settings[Tools].ToolArray? then
      settings[Tools := ToolArray(settings[Tools].tools + [IMAGE_TOOL])]
    else settings[Tools := ToolArray([IMAGE_TOOL])]
  }

  /** Injecting twice is injecting once, and a list that already offers images is left alone. */
  lemma ImageToolIsNeverDuplicated(settings: map<Setting, Value>, allowed: bool)
    ensures EnsureImageTool(EnsureImageTool(settings, allowed), allowed) == EnsureImageTool(settings, allowed)
    ensures allowed ==> HasImageTool(EnsureImageTool(settings, allowed))
    ensures HasImageTool(settings) ==> EnsureImageTool(settings, allowed) == settings
    ensures forall other :: other != Tools ==>
      && (other in EnsureImageTool(settings, allowed) <==> other in settings)
      && (other in settings ==> EnsureImageTool(settings, allowed)[other] == settings[other])
  {
    assert OffersImages(IMAGE_TOOL);
    var injected := EnsureImageTool(settings, allowed);
    if allowed && !HasImageTool(settings) {
      assert OffersImages(injected[Tools].tools[|injected[Tools].tools| - 1]);
    }
  }

  method EnsureImageToolInPlace(settings: map<Setting, Value>, allowed: bool) returns (out: map<Setting, Value>)
    ensures out == EnsureImageTool(settings, allowed)
  {
    out := settings;
    if !allowed {
      return;
    }
    if Tools !in settings || !settings[Tools].ToolArray? {
      out := out[Tools := ToolArray([IMAGE_TOOL])];
      return;
    }
    var tools := settings[Tools].tools;
    for i := 0 to |tools|
      invariant forall j :: 0 <= j < i ==> !OffersImages(tools[j])
    {
      if OffersImages(tools[i]) {
        return;
      }
    }
    out := out[Tools := ToolArray(tools + [IMAGE_TOOL])];
  }

  /* ---- the body that goes upstream ---- */

  function FinishSettings(settings: map<Setting, Value>, pipe: Pipeline): map<Setting, Value> {
    var tooled := EnsureImageTool(settings, pipe.imageToolAllowed);
    if pipe.lite then tooled[ParallelToolCalls := Flag(false)] else tooled
  }

  function SanitizeInput(input: Option<Value>, sanitize: seq<Item> -> Result<seq<Item>, Error>)
    : Result<Option<Value>, Error>
  {
    if input.Some? && input.value.ItemArray? then
      var items :- sanitize(input.value.items);
      Ok(Some(ItemArray(items)))
    else Ok(input)
  }

  /** The WebSocket form of a normalised body. */
  function FinishBody(body: Body, pipe: Pipeline): Result<Body, Error> {
    var rest :- pipe.identify(body.rest);
    var input :- SanitizeInput(body.input, pipe.sanitize);
    Ok(body.(kind := Create, input := input, settings := FinishSettings(body.settings, pipe),
      rest := rest - {"safety_identifier"}))
  }

  /** Without any tools the HTTP route does not mention parallel tool calls. */
  function HttpSettings(settings: map<Setting, Value>, pipe: Pipeline): map<Setting, Value> {
    var finished := FinishSettings(settings, pipe);
    if pipe.lite then finished
    else if Tools in finished && finished[Tools].ToolArray? && |finished[Tools].tools| > 0 then finished
    else finished - {ParallelToolCalls}
  }

  /** The HTTP form of a body that was already prepared for the WebSocket. */
  function HttpBody(body: Body, pipe: Pipeline): Result<Body, Error> {
    var input :- SanitizeInput(body.input, pipe.resanitize);
    Ok(body.(input := input, previous := None, settings := HttpSettings(body.settings, pipe),
      rest := body.rest - {"generate", "safety_identifier", "stream_options"}))
  }

  /* ---- facts about normalisation ---- */

  lemma NormalizingSettingTwice(setting: Setting, value: Value)
    ensures NormalizeSetting(setting, NormalizeSetting(setting, value)) == NormalizeSetting(setting, value)
  {
    forall tools: seq<Tool>
      ensures NormalizeTools(NormalizeTools(tools)) == NormalizeTools(tools)
    {
    }
  }

  /** Preparation may rewrite ids and drop reasoning, but it neither loses nor invents tool traffic. */
  ghost predicate KeepsToolTraffic(sanitize: seq<Item> -> Result<seq<Item>, Error>) {
    forall items: seq<Item> :: sanitize(items).Ok? ==>
      && ToolOutputIds(sanitize(items).value) == ToolOutputIds(items)
      && ToolCallIds(sanitize(items).value) == ToolCallIds(items)
  }

  lemma NormalizingKeepsToolTraffic(items: seq<Item>, clean: string -> string)
    ensures ToolOutputIds(NormalizeItems(items, clean)) == ToolOutputIds(items)
    ensures ToolCallIds(NormalizeItems(items, clean)) == ToolCallIds(items)
  {
    var normalized := NormalizeItems(items, clean);
    forall i | 0 <= i < |items|
      ensures normalized[i] in normalized && items[i] in items
    {
    }
    forall item | item in items
      ensures NormalizeItem(item, clean) in normalized
    {
      var i :| 0 <= i < |items| && items[i] == item;
      assert normalized[i] == NormalizeItem(item, clean);
    }
  }
}
