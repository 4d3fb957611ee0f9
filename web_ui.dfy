/** The streaming-event classifier and event log of `StrandsAgentManager`
    in web_ui.py, and the fallback logic of its `load_system_prompt`. */
module WebUi {
  import opened Wrappers
  import opened PyStr

  /** A JSON-like value, for the parts of a payload the code hands to
      `json.dumps` or tests with `in` without looking inside. */
  datatype Json =
    | JNull
    | JBool(b: bool)
    | JNumber(n: int)
    | JString(s: string)
    | JArray(items: seq<Json>)
    | JObject(fields: map<string, Json>)

  /** The Python exceptions the code can raise on a payload of the expected shape. */
  datatype PyError = KeyError(key: string) | TypeError

  // ---------------------------------------------------------------------
  // The callback payload: one optional field per key the handler probes.
  // ---------------------------------------------------------------------

  /** The tool use the framework reports at the top level of the payload. */
  datatype CurrentToolUse = CurrentToolUse(name: Option<string>, input: Option<Json>)

  /** `contentBlockStart`; `toolUse` is present when the block has both
      `"start"` and `"start"]["toolUse"]`. */
  datatype ContentBlockStart = ContentBlockStart(toolUse: Option<ToolUseStart>)
  datatype ToolUseStart = ToolUseStart(name: Option<string>)

  /** `contentBlockDelta`; `text` and `toolUse` are the keys of its `"delta"`
      (both absent when there is no `"delta"`). */
  datatype ContentBlockDelta = ContentBlockDelta(text: Option<string>, toolUse: Option<ToolUseDelta>)
  datatype ToolUseDelta = ToolUseDelta(input: Option<string>)

  /** The raw model stream event: a boolean for each key whose value is not read. */
  datatype StreamEvent = StreamEvent(
    messageStart: bool,
    messageStop: bool,
    contentBlockStart: Option<ContentBlockStart>,
    contentBlockStop: bool,
    contentBlockDelta: Option<ContentBlockDelta>,
    metadata: Option<Json>)

  /** The tool use reported inside the payload's delta. */
  datatype DeltaToolUse = DeltaToolUse(name: Option<string>, input: Option<string>)

  /** The keyword arguments the framework passes to the callback. */
  datatype Payload = Payload(
    currentToolUse: Option<CurrentToolUse>,
    data: Option<string>,
    event: Option<StreamEvent>,
    deltaToolUse: Option<DeltaToolUse>,
    message: Option<Json>)

  const NoKeys := Payload(None, None, None, None, None)

  // ---------------------------------------------------------------------
  // What the handler computes.
  // ---------------------------------------------------------------------

  datatype EventType = NotApplicable | ToolUse | Text | Control | Metadata | Message {
    /** The string the handler stores in `event_type`. */
    function Name(): string {
      match this
      case NotApplicable => "n/a"
      case ToolUse => "tool_use"
      case Text => "text"
      case Control => "control"
      case Metadata => "metadata"
      case Message => "message"
    }
  }

  /** The handler's locals `event_type`, `tool_name`, `tool_input`, `message`. */
  datatype Fields = Fields(eventType: EventType, toolName: string, toolInput: string, message: string)

  const Initial := Fields(NotApplicable, "", "", "")

  /** The `AgentEvent` record. */
  datatype AgentEvent = AgentEvent(
    timestamp: real, eventType: string, toolName: string, toolInput: string, message: string)

  const MessageStarted := "Message generation started"
  const MessageEnded := "Message generation ended"
  const BlockStarted := "Content block generation started"
  const BlockEnded := "Content block generation ended"

  /** Whether the reported tool name counts as true in Python: present and non-empty. */
  predicate Truthy(name: Option<string>) {
    name.Some? && name.value != ""
  }

  /** Python's `key in container`: a key of a dict, a substring of a str, an
      element of a list; any other value raises `TypeError`. */
  function PyIn(key: string, container: Json): Result<bool, PyError> {
    match container
    case JObject(m) => Ok(key in m)
    case JString(s) => Ok(Contains(s, key))
    case JArray(items) => Ok(JString(key) in items)
    case _ => Err(TypeError)
  }

  // The handler's sequence of tests, one function per block of the source,
  // each taking the locals as the previous block left them.

  function ToolUseStep(p: Payload, dumps: Json -> string, f: Fields): Fields {
    if p.currentToolUse.Some? && Truthy(p.currentToolUse.value.name) then
      f.(toolName := p.currentToolUse.value.name.value,
         toolInput := dumps(p.currentToolUse.value.input.GetOr(JObject(map[]))),
         eventType := ToolUse)
    else f
  }

  function DataStep(p: Payload, f: Fields): Fields {
    if p.data.Some? then f.(eventType := Text, message := p.data.value) else f
  }

  /** The block that inspects the raw stream event, in the order its tests run. */
  function EventBlockStep(ev: StreamEvent, dumps: Json -> string, f: Fields): Result<Fields, PyError> {
    var f1 := if ev.messageStart then f.(message := MessageStarted, eventType := Control) else f;
    if ev.messageStop then
      Ok(f1.(message := MessageEnded, eventType := Control))
    else if ev.contentBlockStart.Some? then
      var start := ev.contentBlockStart.value;
      if start.toolUse.Some? && start.toolUse.value.name.None? then
        Err(KeyError("name"))
      else
        var f2 := if start.toolUse.Some?
                  then f1.(eventType := ToolUse, toolName := start.toolUse.value.name.value)
                  else f1;
        Ok(f2.(message := BlockStarted, eventType := Control))
    else if ev.contentBlockStop then
      Ok(f1.(message := BlockEnded, eventType := Control))
    else if ev.contentBlockDelta.Some? then
      var delta := ev.contentBlockDelta.value;
      if delta.text.Some? then
        Ok(f1.(eventType := Text, message := delta.text.value))
      else if delta.toolUse.Some? then
        if delta.toolUse.value.input.None? then Err(KeyError("input"))
        else Ok(f1.(eventType := ToolUse, toolInput := delta.toolUse.value.input.value))
      else Ok(f1)
    else if ev.metadata.Some? then
      Ok(f1.(message := "Metadata: " + dumps(ev.metadata.value), eventType := Metadata))
    else Ok(f1)
  }

  function EventStep(p: Payload, dumps: Json -> string, f: Fields): Result<Fields, PyError> {
    if p.event.None? then Ok(f) else EventBlockStep(p.event.value, dumps, f)
  }

  function DeltaStep(p: Payload, f: Fields): Result<Fields, PyError> {
    if p.deltaToolUse.None? then Ok(f)
    else
      var use := p.deltaToolUse.value;
      if use.name.None? then Err(KeyError("name"))
      else if use.input.None? then Err(KeyError("input"))
      else Ok(f.(toolName := use.name.value, toolInput := use.input.value, eventType := ToolUse))
  }

  function MessageStep(p: Payload, dumps: Json -> string, f: Fields): Result<Fields, PyError> {
    if p.message.None? then Ok(f)
    else
      match PyIn("role", p.message.value)
      case Err(e) => Err(e)
      case Ok(hasRole) =>
        if hasRole then Ok(f.(message := dumps(p.message.value), eventType := Message)) else Ok(f)
  }

  /** The locals at the end of `event_handler_func`, or the exception it raises. */
  function Classify(p: Payload, dumps: Json -> string): Result<Fields, PyError> {
    var f := DataStep(p, ToolUseStep(p, dumps, Initial));
    match EventStep(p, dumps, f)
    case Err(e) => Err(e)
    case Ok(f) =>
      match DeltaStep(p, f)
      case Err(e) => Err(e)
      case Ok(f) => MessageStep(p, dumps, f)
  }

  /** What one call appends to `agent_events`. */
  function Logged(outcome: Result<Fields, PyError>, timestamp: real): seq<AgentEvent> {
    if outcome.Ok? && outcome.value.eventType == Message then
      var f := outcome.value;
      [AgentEvent(timestamp, f.eventType.Name(), f.toolName, f.toolInput, f.message)]
    else []
  }

  // ---------------------------------------------------------------------
  // A reference definition: each local ends as its LAST writer in source
  // order set it, and the call raises exactly on a missing key it indexes.
  // ---------------------------------------------------------------------

  predicate HasRole(p: Payload) {
    p.message.Some? && PyIn("role", p.message.value) == Ok(true)
  }

  /** None of the direct indexing operations of the `event` block fails:
      a `toolUse` of a `contentBlockStart` has a `name`, and a `toolUse` of a
      `contentBlockDelta` that the chain reaches has an `input`. */
  predicate EventBlockWellFormed(ev: StreamEvent) {
    && (!ev.messageStop && ev.contentBlockStart.Some? && ev.contentBlockStart.value.toolUse.Some?
        ==> ev.contentBlockStart.value.toolUse.value.name.Some?)
    && (!ev.messageStop && ev.contentBlockStart.None? && !ev.contentBlockStop
        && ev.contentBlockDelta.Some? && ev.contentBlockDelta.value.text.None?
        && ev.contentBlockDelta.value.toolUse.Some?
        ==> ev.contentBlockDelta.value.toolUse.value.input.Some?)
  }

  /** None of the direct indexing operations the handler reaches fails. */
  predicate WellFormed(p: Payload) {
    && (p.event.Some? ==> EventBlockWellFormed(p.event.value))
    && (p.deltaToolUse.Some? ==> p.deltaToolUse.value.name.Some? && p.deltaToolUse.value.input.Some?)
    && (p.message.Some? ==> PyIn("role", p.message.value).Ok?)
  }

  /** The type the `event` block decides on, if it decides one. */
  function EventBlockType(ev: StreamEvent): Option<EventType> {
    if ev.messageStop || ev.contentBlockStart.Some? || ev.contentBlockStop then Some(Control)
    else if ev.contentBlockDelta.Some? && ev.contentBlockDelta.value.text.Some? then Some(Text)
    else if ev.contentBlockDelta.Some? && ev.contentBlockDelta.value.toolUse.Some? then Some(ToolUse)
    else if ev.contentBlockDelta.None? && ev.metadata.Some? then Some(Metadata)
    else if ev.messageStart then Some(Control)
    else None
  }

  function ExpectedType(p: Payload): EventType {
    if HasRole(p) then Message
    else if p.deltaToolUse.Some? then ToolUse
    else if p.event.Some? && EventBlockType(p.event.value).Some? then EventBlockType(p.event.value).value
    else if p.data.Some? then Text
    else if p.currentToolUse.Some? && Truthy(p.currentToolUse.value.name) then ToolUse
    else NotApplicable
  }

  /** The message the `event` block writes, if it writes one. */
  function EventBlockMessage(ev: StreamEvent, dumps: Json -> string): Option<string> {
    if ev.messageStop then Some(MessageEnded)
    else if ev.contentBlockStart.Some? then Some(BlockStarted)
    else if ev.contentBlockStop then Some(BlockEnded)
    else if ev.contentBlockDelta.Some? && ev.contentBlockDelta.value.text.Some? then
      Some(ev.contentBlockDelta.value.text.value)
    else if ev.contentBlockDelta.None? && ev.metadata.Some? then Some("Metadata: " + dumps(ev.metadata.value))
    else if ev.messageStart then Some(MessageStarted)
    else None
  }

  function ExpectedMessage(p: Payload, dumps: Json -> string): string {
    if HasRole(p) then dumps(p.message.value)
    else if p.event.Some? && EventBlockMessage(p.event.value, dumps).Some? then
      EventBlockMessage(p.event.value, dumps).value
    else if p.data.Some? then p.data.value
    else ""
  }

  function ExpectedToolName(p: Payload): string {
    if p.deltaToolUse.Some? && p.deltaToolUse.value.name.Some? then p.deltaToolUse.value.name.value
    else if p.event.Some? && !p.event.value.messageStop && p.event.value.contentBlockStart.Some?
         && p.event.value.contentBlockStart.value.toolUse.Some?
         && p.event.value.contentBlockStart.value.toolUse.value.name.Some? then
      p.event.value.contentBlockStart.value.toolUse.value.name.value
    else if p.currentToolUse.Some? && Truthy(p.currentToolUse.value.name) then p.currentToolUse.value.name.value
    else ""
  }

  function ExpectedToolInput(p: Payload, dumps: Json -> string): string {
    if p.deltaToolUse.Some? && p.deltaToolUse.value.input.Some? then p.deltaToolUse.value.input.value
    else if p.event.Some? && !p.event.value.messageStop && p.event.value.contentBlockStart.None?
         && !p.event.value.contentBlockStop && p.event.value.contentBlockDelta.Some?
         && p.event.value.contentBlockDelta.value.text.None?
         && p.event.value.contentBlockDelta.value.toolUse.Some?
         && p.event.value.contentBlockDelta.value.toolUse.value.input.Some? then
      p.event.value.contentBlockDelta.value.toolUse.value.input.value
    else if p.currentToolUse.Some? && Truthy(p.currentToolUse.value.name) then
      dumps(p.currentToolUse.value.input.GetOr(JObject(map[])))
    else ""
  }

  /** The handler raises exactly when a key it indexes directly is missing
      (or `message` is not a container). */
  lemma RaisesIffMalformed(p: Payload, dumps: Json -> string)
    ensures Classify(p, dumps).Err? <==> !WellFormed(p)
  {
  }

  /** On a well-formed payload every local ends as its last writer set it. */
  lemma ClassifyIsLastWriter(p: Payload, dumps: Json -> string)
    requires WellFormed(p)
    ensures Classify(p, dumps) == Ok(Fields(ExpectedType(p), ExpectedToolName(p),
                                              ExpectedToolInput(p, dumps), ExpectedMessage(p, dumps)))
  {
  }

  // ---------------------------------------------------------------------
  // The properties the ordering of the tests gives.
  // ---------------------------------------------------------------------

  /** A payload with none of the probed keys leaves every local at its
      initial value and logs nothing. */
  lemma NoProbedKeysIsNotApplicable(dumps: Json -> string, timestamp: real)
    ensures Classify(NoKeys, dumps) == Ok(Fields(NotApplicable, "", "", ""))
    ensures Classify(NoKeys, dumps).value.eventType.Name() == "n/a"
    ensures Logged(Classify(NoKeys, dumps), timestamp) == []
  {
  }

  /** One call logs at most one event, exactly when the final type is
      `"message"`, and the event carries the final locals. */
  lemma LoggedOnlyMessages(outcome: Result<Fields, PyError>, timestamp: real)
    ensures |Logged(outcome, timestamp)| <= 1
    ensures Logged(outcome, timestamp) != [] <==> outcome.Ok? && outcome.value.eventType == Message
    ensures Logged(outcome, timestamp) != [] ==>
      var f := outcome.value;
      Logged(outcome, timestamp)[0] == AgentEvent(timestamp, "message", f.toolName, f.toolInput, f.message)
  {
  }

  /** A `message` with a `role` decides the type whatever else the payload
      holds, since that test runs last; the call can still raise earlier. */
  lemma RoleDecidesType(p: Payload, dumps: Json -> string)
    requires HasRole(p)
    ensures Classify(p, dumps).Ok? <==> WellFormed(p)
    ensures Classify(p, dumps).Ok? ==>
      Classify(p, dumps).value.eventType == Message && Classify(p, dumps).value.message == dumps(p.message.value)
  {
    RaisesIffMalformed(p, dumps);
    if WellFormed(p) {
      ClassifyIsLastWriter(p, dumps);
    }
  }

  /** `data` overrides a `current_tool_use` classification: the type is
      `"text"` and the message the data, but the tool name and input stay. */
  lemma DataOverridesToolUse(p: Payload, dumps: Json -> string)
    requires p.currentToolUse.Some? && Truthy(p.currentToolUse.value.name) && p.data.Some?
    requires p.event.None? && p.deltaToolUse.None? && p.message.None?
    ensures Classify(p, dumps) == Ok(Fields(Text, p.currentToolUse.value.name.value,
                                            dumps(p.currentToolUse.value.input.GetOr(JObject(map[]))),
                                            p.data.value))
  {
  }

  /** A `contentBlockStart` (without `messageStop`) always ends as
      `"control"` with the block-started message, even when it carries a
      `toolUse`, whose name is still recorded. */
  lemma ContentBlockStartIsControl(p: Payload, dumps: Json -> string)
    requires p.event.Some? && !p.event.value.messageStop && p.event.value.contentBlockStart.Some?
    requires p.deltaToolUse.None? && p.message.None?
    ensures Classify(p, dumps).Err? <==> !EventBlockWellFormed(p.event.value)
    ensures Classify(p, dumps).Ok? ==>
      && Classify(p, dumps).value.eventType == Control
      && Classify(p, dumps).value.message == BlockStarted
    ensures Classify(p, dumps).Ok? && p.event.value.contentBlockStart.value.toolUse.Some? ==>
      Classify(p, dumps).value.toolName == p.event.value.contentBlockStart.value.toolUse.value.name.value
  {
    RaisesIffMalformed(p, dumps);
    if WellFormed(p) {
      ClassifyIsLastWriter(p, dumps);
    }
  }

  /** With `messageStop` the message is the generation-ended one, and none
      of the content-block or metadata branches runs: the result is the same
      as for an `event` holding only `messageStart` and `messageStop`. */
  lemma MessageStopSkipsBlocks(p: Payload, dumps: Json -> string)
    requires p.event.Some? && p.event.value.messageStop
    requires p.deltaToolUse.None? && p.message.None?
    ensures var before := DataStep(p, ToolUseStep(p, dumps, Initial));
      Classify(p, dumps) == Ok(before.(eventType := Control, message := MessageEnded))
    ensures var bare := StreamEvent(p.event.value.messageStart, true, None, false, None, None);
      Classify(p, dumps) == Classify(p.(event := Some(bare)), dumps)
  {
  }

  /** A `delta.current_tool_use` makes the call a tool use with that name
      and input, whatever the `data` and `event` blocks decided, unless a
      `message` with a `role` follows. */
  lemma DeltaToolUseOverridesEvent(p: Payload, dumps: Json -> string)
    requires WellFormed(p) && !HasRole(p) && p.deltaToolUse.Some?
    ensures Classify(p, dumps).Ok?
    ensures Classify(p, dumps).value.eventType == ToolUse
    ensures Classify(p, dumps).value.toolName == p.deltaToolUse.value.name.value
    ensures Classify(p, dumps).value.toolInput == p.deltaToolUse.value.input.value
  {
    ClassifyIsLastWriter(p, dumps);
  }

  // ---------------------------------------------------------------------
  // The manager's event log.
  // ---------------------------------------------------------------------

  class StrandsAgentManager {
    /** `self.agent_events`. */
    var agentEvents: seq<AgentEvent>

    /** The part of `__init__` that sets up the log; the tools and the graph
        are not modelled. */
    constructor ()
      ensures agentEvents == []
    {
      agentEvents := [];
    }

    /** `event_handler_func`: classify one payload and log it when it is a
        message. `dumps` stands for `json.dumps` and `timestamp` for the
        value of `time.time()` at the call. Returns the exception the call
        raises, if any; a raising call leaves the log as it was. */
    method EventHandler(event: Payload, dumps: Json -> string, timestamp: real)
      returns (raised: Option<PyError>)
      modifies this
      ensures raised.None? <==> Classify(event, dumps).Ok?
      ensures raised.Some? ==> Classify(event, dumps) == Err(raised.value)
      ensures agentEvents == old(agentEvents) + Logged(Classify(event, dumps), timestamp)
      ensures |agentEvents| <= |old(agentEvents)| + 1
      ensures agentEvents[..|old(agentEvents)|] == old(agentEvents)
    {
      LoggedOnlyMessages(Classify(event, dumps), timestamp);
      var eventType := NotApplicable;
      var toolName := "";
      var toolInput := "";
      var message := "";

      if event.currentToolUse.Some? && Truthy(event.currentToolUse.value.name) {
        toolName := event.currentToolUse.value.name.value;
        toolInput := dumps(event.currentToolUse.value.input.GetOr(JObject(map[])));
        eventType := ToolUse;
      }
      assert Fields(eventType, toolName, toolInput, message) == ToolUseStep(event, dumps, Initial);

      if event.data.Some? {
        eventType := Text;
        message := event.data.value;
      }
      ghost var afterData := Fields(eventType, toolName, toolInput, message);
      assert afterData == DataStep(event, ToolUseStep(event, dumps, Initial));

      if event.event.Some? {
        var outcome := EventBlock(event.event.value, dumps, Fields(eventType, toolName, toolInput, message));
        if outcome.Err? {
          return Some(outcome.error);
        }
        eventType, toolName, toolInput, message :=
          outcome.value.eventType, outcome.value.toolName, outcome.value.toolInput, outcome.value.message;
      }
      ghost var afterEvent := Fields(eventType, toolName, toolInput, message);
      assert EventStep(event, dumps, afterData) == Ok(afterEvent);

      if event.deltaToolUse.Some? {
        var use := event.deltaToolUse.value;
        if use.name.None? {
          return Some(KeyError("name"));
        }
        toolName := use.name.value;
        if use.input.None? {
          return Some(KeyError("input"));
        }
        toolInput := use.input.value;
        eventType := ToolUse;
      }
      ghost var afterDelta := Fields(eventType, toolName, toolInput, message);
      assert DeltaStep(event, afterEvent) == Ok(afterDelta);

      if event.message.Some? {
        var hasRole := PyIn("role", event.message.value);
        if hasRole.Err? {
          return Some(hasRole.error);
        }
        if hasRole.value {
          message := dumps(event.message.value);
          eventType := Message;
        }
      }
      assert Classify(event, dumps) == Ok(Fields(eventType, toolName, toolInput, message));

      if eventType == Message {
        agentEvents := agentEvents + [AgentEvent(timestamp, eventType.Name(), toolName, toolInput, message)];
      }
      raised := None;
    }

    /** The stream-event block of `event_handler_func`, on the
        locals `before` as the earlier blocks left them. */
    static method EventBlock(ev: StreamEvent, dumps: Json -> string, before: Fields)
      returns (after: Result<Fields, PyError>)
      ensures after == EventBlockStep(ev, dumps, before)
    {
      var eventType, toolName, toolInput, message := before.eventType, before.toolName, before.toolInput, before.message;
      if ev.messageStart {
        message := MessageStarted;
        eventType := Control;
      }
      if ev.messageStop {
        message := MessageEnded;
        eventType := Control;
      } else if ev.contentBlockStart.Some? {
        var start := ev.contentBlockStart.value;
        if start.toolUse.Some? {
          eventType := ToolUse;
          if start.toolUse.value.name.None? {
            return Err(KeyError("name"));
          }
          toolName := start.toolUse.value.name.value;
        }
        message := BlockStarted;
        eventType := Control;
      } else if ev.contentBlockStop {
        message := BlockEnded;
        eventType := Control;
      } else if ev.contentBlockDelta.Some? {
        var delta := ev.contentBlockDelta.value;
        if delta.text.Some? {
          eventType := Text;
          message := delta.text.value;
        } else if delta.toolUse.Some? {
          eventType := ToolUse;
          if delta.toolUse.value.input.None? {
            return Err(KeyError("input"));
          }
          toolInput := delta.toolUse.value.input.value;
        }
      } else if ev.metadata.Some? {
        message := "Metadata: " + dumps(ev.metadata.value);
        eventType := Metadata;
      }
      after := Ok(Fields(eventType, toolName, toolInput, message));
    }

    /** `process_event`, the callback the framework calls: it forwards its
        keyword arguments to the handler. */
    method ProcessEvent(event: Payload, dumps: Json -> string, timestamp: real)
      returns (raised: Option<PyError>)
      modifies this
      ensures raised.None? <==> Classify(event, dumps).Ok?
      ensures raised.Some? ==> Classify(event, dumps) == Err(raised.value)
      ensures agentEvents == old(agentEvents) + Logged(Classify(event, dumps), timestamp)
    {
      raised := EventHandler(event, dumps, timestamp);
    }
  }

  // ---------------------------------------------------------------------
  // load_system_prompt
  // ---------------------------------------------------------------------

  /** How opening and parsing the prompt file went. */
  datatype PromptFile = FileNotFound | YamlError | Parsed(config: Json)

  const DefaultSystemPrompt :=
    "You are a helpful AI assistant that can break down complex tasks and execute them using various tools."

  /** `load_system_prompt`: the `system_prompt` entry of the parsed file;
      the fixed default when the file is missing or does not parse. A parsed
      file that is not a mapping with that key raises, as `config[...]` does. */
  function LoadSystemPrompt(file: PromptFile): (r: Result<Json, PyError>)
    ensures !file.Parsed? ==> r == Ok(JString(DefaultSystemPrompt))
    ensures file.Parsed? && file.config.JObject? && "system_prompt" in file.config.fields ==>
      r == Ok(file.config.fields["system_prompt"])
    ensures r.Err? <==> file.Parsed? && !(file.config.JObject? && "system_prompt" in file.config.fields)
    ensures r.Err? ==> r.error == (if file.config.JObject? then KeyError("system_prompt") else TypeError)
  {
    match file
    case FileNotFound => Ok(JString(DefaultSystemPrompt))
    case YamlError => Ok(JString(DefaultSystemPrompt))
    case Parsed(config) =>
      match config
      case JObject(fields) =>
        if "system_prompt" in fields then Ok(fields["system_prompt"]) else Err(KeyError("system_prompt"))
      case _ => Err(TypeError)
  }
}
