# strands-samples: markdown pass, event classifier and prompt loading

Most of the strands-samples repository wires an agent framework, protocol clients and a Streamlit page together. This project models the three pieces of it that hold their own logic.

- **The markdown pass of `format_markdown_output`** (agent-graph-ui.py), in both of its copies.
  - The aggregator's report is split on line feeds and every line is stripped.
  - A line that mentions one of five report sections becomes a `## ` heading.
  - In the module-level copy only, a line starting with `-` or `•` gets its marker normalised to `- `.
  - The lines are joined back with line feeds.
  - `FormatLine(raw, bullets)` is the rule for one line; `bullets` selects the copy.
  - The two loops are the imperative methods `FormatMarkdownOutput` and `ManagerFormatMarkdownOutput`. Each is proved to compute `FormatText`.
  - The lemmas state what the pass promises: the output has the same number of lines as the input, the rules for each kind of line, the order in which the rules are tried, and that running the pass twice gives the same text as running it once.
- **The streaming-event handler of `StrandsAgentManager`** (web_ui.py, `event_handler_func` and `process_event`).
  - A callback payload is a `Payload` value with an optional field for each key the handler probes.
  - `Classify` is the handler's chain of tests. Each block of the source is one step function, and each step reads the locals as the previous block left them.
  - `Classify` returns the final `event_type`, `tool_name`, `tool_input` and `message`, or the exception the call raises.
  - The reference functions `ExpectedType`, `ExpectedToolName`, `ExpectedToolInput` and `ExpectedMessage` say which test wrote each local last. `WellFormed` says exactly when the handler does not raise.
  - The class `StrandsAgentManager` holds the log `agentEvents`. Its `EventHandler` method overwrites the four locals step by step, as the source does. It is proved to agree with `Classify` and to append to the log only a `"message"` event.
- **The fallback decision of `load_system_prompt`** (web_ui.py), over the outcome of opening and parsing the YAML file.

Python's string built-ins are modelled in the module `PyStr`:

- `strip` removes ASCII whitespace (code points 9 to 13 and 28 to 32).
- `lower` is ASCII lower-casing.
- `in` on strings is the substring test.
- `split('\n')` and `'\n'.join` are modelled together with their round trips.

`json.dumps` is a function parameter `dumps`, and `time.time()` is a parameter `timestamp`.

The handler does not treat every missing key as an empty string. It indexes some keys directly, and a missing one raises `KeyError`:

- `name` under `contentBlockStart.start.toolUse` (web_ui.py:163);
- `input` under `contentBlockDelta.delta.toolUse` (web_ui.py:178);
- `name` and `input` under `delta.current_tool_use` (web_ui.py:186-187).

The `"role" in event["message"]` test raises `TypeError` when `message` is not a container (web_ui.py:190). The model follows the code, so these calls return `Err`, and the log is left unchanged when an exception is raised.

## Model

| member | source | states |
|---|---|---|
| AgentGraphUi.FormatMarkdownOutput | agent-graph-ui.py:200-227 | the loop of the module-level copy returns the join of every input line passed through the heading-and-bullet rule, and splitting its result gives back exactly those formatted lines |
| AgentGraphUi.ManagerFormatMarkdownOutput | agent-graph-ui.py:342-364 | the loop of the manager's copy returns the join of every input line passed through the heading-only rule, and splitting its result gives back exactly those formatted lines |
| AgentGraphUi.SplitFormatText | agent-graph-ui.py:201-227 | the output has exactly as many line-feed-separated lines as the input, and output line k is the rule applied to input line k alone |
| AgentGraphUi.FormatLineRules | agent-graph-ui.py:204-225 | on the stripped line: blank gives the empty line; a line mentioning a section gets `## ` unless it starts with `#`; otherwise, in the bullet copy, a line starting with `-` or `•` becomes `- ` plus the stripped remainder unless it already starts with `- `; every other line (numbered or not) comes out stripped and otherwise unchanged |
| AgentGraphUi.HeadingBeforeBullet | agent-graph-ui.py:211-217 | a line with a bullet marker that also mentions a section becomes a `## ` heading, because the heading test runs first |
| AgentGraphUi.HeadingBeforeBulletExample | agent-graph-ui.py:211-217 | `-key findings` becomes `## -key findings` |
| AgentGraphUi.SectionNameExample | agent-graph-ui.py:211-215 | `Key Findings` becomes `## Key Findings`, and `## Key Findings` is kept unchanged, in both copies |
| AgentGraphUi.ManagerCopyOnlyStrips | agent-graph-ui.py:346-362 | in the manager's copy, a line that mentions no section comes out only stripped |
| AgentGraphUi.CopiesDifferOnlyOnBullets | agent-graph-ui.py:216-220 | the two copies give different results exactly for a line that takes the bullet branch and does not already start with `- ` |
| AgentGraphUi.NoLineFeed | agent-graph-ui.py:204-225 | a line without a line feed is formatted to a line without a line feed |
| AgentGraphUi.FormatLineIdempotent | agent-graph-ui.py:211-220 | formatting a formatted line changes nothing, in both copies: the `#` guard stops a second `## ` and the `- ` guard stops a second rewrite |
| AgentGraphUi.FormatTextIdempotent | agent-graph-ui.py:201-227 | running either copy of the pass on its own output returns the same text |
| PyStr.Strip | agent-graph-ui.py:205 | the stripped text has no whitespace at either end, is no longer than the input, and is the input itself when that is already stripped |
| PyStr.StripSlice | agent-graph-ui.py:205 | the stripped text is a contiguous piece of the input, and everything removed from either end is whitespace |
| PyStr.SplitNoLineFeed | agent-graph-ui.py:201 | no piece of a split holds a line feed |
| PyStr.JoinSplit | agent-graph-ui.py:201-227 | joining the pieces of a split with line feeds gives back the text |
| PyStr.SplitJoin | agent-graph-ui.py:201-227 | splitting the join of at least one line-feed-free piece gives back exactly those pieces |
| WebUi.LoadSystemPrompt | web_ui.py:49-60 | a missing file or a YAML error gives the fixed default prompt; a parsed mapping holding `system_prompt` gives that entry; any other parsed value raises, with `KeyError` for a mapping without the key and `TypeError` otherwise |
| WebUi.StrandsAgentManager.constructor | web_ui.py:45 | a new manager starts with an empty event log |
| WebUi.StrandsAgentManager.EventHandler | web_ui.py:118-201 | the call raises exactly when the classification fails, and raises that error; the log becomes the old log followed by the one `"message"` event the classification yields, if any, so it grows by at most one entry at the end and earlier entries are untouched |
| WebUi.StrandsAgentManager.EventBlock | web_ui.py:151-182 | the `event` block, run on the locals the earlier blocks left, gives the locals or the `KeyError` of its step function |
| WebUi.StrandsAgentManager.ProcessEvent | web_ui.py:115-116 | forwarding the payload to the handler has the handler's outcome and effect on the log |
| WebUi.RaisesIffMalformed | web_ui.py:118-192 | the handler raises exactly when a key it indexes directly is missing or `message` is not a container |
| WebUi.ClassifyIsLastWriter | web_ui.py:123-192 | on a payload that does not raise, each of the four locals ends as the test that writes it last, in source order, set it |
| WebUi.NoProbedKeysIsNotApplicable | web_ui.py:123-195 | a payload with none of the probed keys ends with type `"n/a"` and empty name, input and message, and logs nothing |
| WebUi.LoggedOnlyMessages | web_ui.py:195-201 | one call logs at most one event, exactly when it ends with type `"message"`, and that event carries the call's timestamp and final locals |
| WebUi.RoleDecidesType | web_ui.py:190-192 | a `message` holding `role` makes the type `"message"` with the dumped message, whatever else the payload holds, whenever the call does not raise |
| WebUi.DataOverridesToolUse | web_ui.py:137-149 | when no `event`, `delta` or `message` key is present, `data` turns a `current_tool_use` classification into `"text"` with the data as message, keeping the tool name and the dumped input |
| WebUi.ContentBlockStartIsControl | web_ui.py:160-166 | when no `delta.current_tool_use` and no `message` key follow, a `contentBlockStart` without `messageStop` ends as `"control"` with the block-started message. It raises only when its `toolUse` has no `name`; when a `toolUse` is present, its name is recorded |
| WebUi.MessageStopSkipsBlocks | web_ui.py:152-182 | when no `delta.current_tool_use` and no `message` key follow, with `messageStop` the result is `"control"` with the generation-ended message, whether or not `messageStart` is also present; the content-block and metadata parts of the event play no role |
| WebUi.DeltaToolUseOverridesEvent | web_ui.py:184-188 | when the call does not raise, a `delta.current_tool_use` makes it `"tool_use"` with that name and input, whatever the `data` and `event` blocks set, unless a `message` with `role` follows |

## Left out

- Agent, graph and conversation-manager construction and invocation: these are calls into an external framework.
- The protocol clients, with their subprocesses and tool listing, are external processes speaking a foreign protocol.
- The extraction of the final result, query execution, and the output extraction at the start of `format_markdown_output` (agent-graph-ui.py:188-198, 320-340): they probe opaque framework objects. The model takes the extracted text as input.
- The Streamlit page, every `print` and every logger call, including the `init_event_loop`/`start_event_loop`/`start` tests (web_ui.py:128-133). These tests only print.
- Opening the file and parsing YAML in `load_system_prompt` are an abstract outcome. Errors other than a missing file or a YAML error, such as a permission error, would propagate; they are not modelled.
- `json.dumps` and `time.time()` are parameters of the handler. Their results are not modelled.
- Payloads whose nested values have a different shape than the handler indexes are not modelled: for example, an `event` that is a string, or a `delta` that is a list. The typed `Payload` excludes them. Only the missing key and the non-container `message` are modelled as errors.
- A `contentBlockStart` without `start`, or without `start.toolUse`, behaves as one with no tool use, and the model does not tell those cases apart. The same holds for a `contentBlockDelta` without `delta`, and for a top-level `delta` without `current_tool_use`.
- JSON numbers are integers (`JNumber`); floating point is not modelled. A timestamp is a `real`.
- `event_type` is the enumeration `EventType`, whose `Name()` gives the string the source stores. The log entry holds that string.
- `strip`, `lower` and `isdigit` are their ASCII versions. Unicode whitespace, case mapping and digits outside ASCII are not modelled.
- The `load_system_prompt` of agent-graph-ui.py, which returns nothing on failure, is not part of this model.
- The rest of `StrandsAgentManager`'s `__init__` (MCP clients, tools, graph) is left out; the constructor models only the empty log.
- agent-graph.py, agent-tools.py and agent-intro.py are demo scripts with no logic of their own, and launch_ui.py only starts a subprocess. None of them is part of this model.
