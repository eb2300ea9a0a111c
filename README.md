# CompText MCP server — a Dafny model of its core

CompText is a Model Context Protocol server with two halves. The first half serves the
"CompText Codex", a catalogue of German-language DSL modules and commands. The codex is
read from a YAML file, a local JSON export or a Notion database, and searched by keyword.
The server also compiles natural-language requests into compact CompText DSL bundles.
The second half is a mobile-automation agent. It encodes an Android screen as a compact
token-saving text, plans one action at a time with a language model, executes the action
over adb through a DroidRun wrapper, and streams its progress to WebSocket clients.

This project models the logic of that core in Dafny and proves what it promises:

- **Screen encoding** (`UiParser`, `Droidrun`, `MobileSchema`): the UI-hierarchy parser and
  its filters, the element-type table, the compact and CompText screen formats, and the
  token-reduction arithmetic.
- **The Plan-Execute-Verify agent** (`AgentDispatch`, `AgentFormat`, `AgentReply`, `Agent`):
  action dispatch (tap, swipe, type, launch, wait), the prompt text, parsing of the model's
  JSON reply, the bounded context memory, and the step loop. The language model and the
  device are oracles passed in as values.
- **The WebSocket agent and server** (`WebSocket`, `WebSocketServer`): the event trace a
  task produces and the dispatch of client messages.
- **Configuration** (`Config`): environment defaults, overrides and validation.
- **The Ollama client** (`Ollama`): the retry schedule, token accounting and the decoding
  of streamed reply lines.
- **The screenshot pipeline** (`Screenshot`): a capture's outcome, the bounded capture
  history, and the compact and verbose context builders.
- **Metrics** (`AgentTokenMetrics`, `RequestMetrics`): the token-metrics collector and the
  request-metrics collector with its derived averages and rates.
- **The natural-language compiler** (`Matcher`, `Canonicalize`, `NlCompiler`,
  `BundleRegistry`): keyword matching, the canonical bundle form, the compiler's output
  and the bundle registry.
- **Validators and codex clients** (`Validation`, `Catalog`, `YamlCodex`, `LocalCodex`,
  `Notion`): input validation, the shared keyword search, and the three codex back ends.
- **GitHub automation** (`GitHub`): the repository audit and the auto-merge decision.

Supporting modules are `Wrappers` (Option/Result), `Seqs`, `PyStr` (the Python string
operations the code uses), `Sorting`, `Dicts` and `Json`.

Exceptions become `Result`/`Option` values. I/O, clocks, randomness and remote services
become parameters. Classes whose fields the source updates in place are Dafny classes.

## Model

| member | source | states |
|---|---|---|
| UiParser.Center | src/comptext_mcp/mobile_agent/utils/ui_parser.py:41-45 | the centre is the floor midpoint of each pair of bounds: `2c <= x1+x2 < 2c+2` on both axes |
| UiParser.DisplayName | src/comptext_mcp/mobile_agent/utils/ui_parser.py:59-71 | a display name is never longer than 30 characters |
| UiParser.DisplayNamePriority | src/comptext_mcp/mobile_agent/utils/ui_parser.py:59-71 | the name falls back from text to description to the id's last "/" part to the class's last "." part (at most 20 characters, with no "." in it) |
| UiParser.TypeRulesShape | src/comptext_mcp/mobile_agent/utils/ui_parser.py:77-92 | the class rules are checked button first and only yield the letters B, I, C, S, G, T, L, R |
| UiParser.ElementType | src/comptext_mcp/mobile_agent/utils/ui_parser.py:73-96 | the type is one of ten letters; a class containing "button" is B; K exactly when clickable and no class rule matches; E exactly when not clickable and no rule matches |
| UiParser.EmptyClassType | src/comptext_mcp/mobile_agent/utils/ui_parser.py:73-96 | a node with no class name is K if clickable, otherwise E |
| UiParser.NodeComptextFields | src/comptext_mcp/mobile_agent/utils/ui_parser.py:98-101 | the compact line `index:type:name@x,y` gives back its index before the first ":" (which parses back to the index) and its centre after the last "@", whatever the name contains |
| UiParser.MatchBoundsText | src/comptext_mcp/mobile_agent/utils/ui_parser.py:128-129 | any text that starts with rendered non-negative bounds `[x1,y1][x2,y2]` matches the bounds pattern and gives them back |
| UiParser.NodeOf | src/comptext_mcp/mobile_agent/utils/ui_parser.py:174-204 | a node built from an element carries the index it was given |
| UiParser.NodeOfDefaults | src/comptext_mcp/mobile_agent/utils/ui_parser.py:178-201 | bounds that are missing or do not match become (0,0,0,0); a missing `enabled` means enabled; a missing `clickable` means not clickable; a missing text is empty |
| UiParser.Flatten | src/comptext_mcp/mobile_agent/utils/ui_parser.py:174-215 | the pre-order list of an element's subtree has one node per element |
| UiParser.FlattenChildren | src/comptext_mcp/mobile_agent/utils/ui_parser.py:209-213 | the pre-order list of the first k children's subtrees has one node per element in them |
| UiParser.ChildAppended | src/comptext_mcp/mobile_agent/utils/ui_parser.py:209-213 | parsing one more child appends exactly that child's subtree, numbered after the earlier ones |
| UiParser.FilterSpecProperties | src/comptext_mcp/mobile_agent/utils/ui_parser.py:217-239 | the filter keeps exactly the enabled nodes of at least the minimum area that have content or are interactive, in their original order |
| UiParser.SortProperties | src/comptext_mcp/mobile_agent/utils/ui_parser.py:241-268 | the ranking is sorted on (-score, y, x), is a permutation of its input, and is stable: nodes with equal keys keep their order |
| UiParser.HigherScoreFirst | src/comptext_mcp/mobile_agent/utils/ui_parser.py:243-268 | a node with a higher relevance score is ranked before one with a lower score |
| UiParser.Reindexed | src/comptext_mcp/mobile_agent/utils/ui_parser.py:167-169 | each node is renumbered by its position and otherwise unchanged |
| UiParser.RankedPrefix | src/comptext_mcp/mobile_agent/utils/ui_parser.py:166-172 | cutting a ranked list of kept nodes and renumbering it keeps it ranked, kept and numbered 0..n-1 |
| UiParser.ParseProperties | src/comptext_mcp/mobile_agent/utils/ui_parser.py:143-172 | malformed XML gives no nodes; otherwise at most `max_elements` kept nodes, numbered 0..n-1, ranked by relevance |
| UiParser.UITreeParser.constructor | src/comptext_mcp/mobile_agent/utils/ui_parser.py:131-141 | the parser starts with the given limits (100 and 50 by default) and a zero counter |
| UiParser.UITreeParser.ParseNode | src/comptext_mcp/mobile_agent/utils/ui_parser.py:174-215 | appends the element's subtree in pre-order, numbered from the counter, and advances the counter by the subtree's size |
| UiParser.UITreeParser.ParseChildren | src/comptext_mcp/mobile_agent/utils/ui_parser.py:209-213 | appends every child's subtree in order and advances the counter by their total size |
| UiParser.UITreeParser.FilterNodes | src/comptext_mcp/mobile_agent/utils/ui_parser.py:217-239 | the loop yields the filter specification: exactly the nodes that pass it |
| UiParser.UITreeParser.Parse | src/comptext_mcp/mobile_agent/utils/ui_parser.py:143-172 | resets the counter, then flattens, filters, ranks, cuts and renumbers as the parse specification says; the counter ends at the tree's size |
| UiParser.ComptextHeader | src/comptext_mcp/mobile_agent/utils/ui_parser.py:284-290 | an "App:" line with the package's last "." part and an "Act:" line with the activity's, each only when its name is non-empty |
| UiParser.ComptextLines | src/comptext_mcp/mobile_agent/utils/ui_parser.py:270-297 | the header lines, then "Els:", then one compact line per node in order |
| UiParser.VerboseLine | src/comptext_mcp/mobile_agent/utils/ui_parser.py:313-333 | a verbose line starts with the node's index in brackets |
| UiParser.VerboseLines | src/comptext_mcp/mobile_agent/utils/ui_parser.py:299-337 | five header lines (package, activity, blank, the element count, 60 dashes), then one verbose line per node |
| UiParser.ParseUiDump | src/comptext_mcp/mobile_agent/utils/ui_parser.py:339-359 | parses with the default limits (at most 50 kept nodes, numbered in order) and renders them compact or verbose as asked |
| Droidrun.Center | src/comptext_mcp/mobile_agent/droidrun_wrapper.py:57-62 | the centre exists exactly when the bounds have four parts (unpacking raises otherwise) |
| Droidrun.CenterMidpoint | src/comptext_mcp/mobile_agent/droidrun_wrapper.py:57-62 | the centre is the floor midpoint of left/right and of top/bottom |
| Droidrun.DisplayNamePriority | src/comptext_mcp/mobile_agent/droidrun_wrapper.py:64-73 | the name is the whole text, else the whole description, else the id's part after its last "/", else the class's part after its last "." (never truncated) |
| Droidrun.ClickableElements | src/comptext_mcp/mobile_agent/droidrun_wrapper.py:102-105 | exactly the clickable elements, in screen order |
| Droidrun.InputFields | src/comptext_mcp/mobile_agent/droidrun_wrapper.py:107-113 | exactly the elements whose class contains "EditText" or "TextField", in screen order |
| Droidrun.FindByText | src/comptext_mcp/mobile_agent/droidrun_wrapper.py:115-126 | exactly the elements whose lower-cased text or description contains (partial) or equals (exact) the lower-cased query, in screen order |
| Droidrun.FindById | src/comptext_mcp/mobile_agent/droidrun_wrapper.py:128-133 | the first element whose resource id contains the query; none exactly when no element's id contains it |
| Droidrun.CompactElements | src/comptext_mcp/mobile_agent/droidrun_wrapper.py:138-147 | one compact entry per element, numbered from its position, with the name cut to 30, the centre and the btn/txt/el type; undefined exactly when some element's bounds do not unpack |
| Droidrun.ToCompactDict | src/comptext_mcp/mobile_agent/droidrun_wrapper.py:135-149 | the short package and activity names and the first 20 elements, numbered 0.., names at most 30 characters |
| Droidrun.SerialsOf | src/comptext_mcp/mobile_agent/droidrun_wrapper.py:189-191 | at most one serial per listing line, none containing a tab |
| Droidrun.SerialsOfLines | src/comptext_mcp/mobile_agent/droidrun_wrapper.py:189-191 | the serials of `serial\tdevice` lines are read back unchanged and in order |
| Droidrun.DevicesOfListing | src/comptext_mcp/mobile_agent/droidrun_wrapper.py:189-191 | the device list read from a full `adb devices` listing (header, then one line per device) is exactly the listed serials |
| Droidrun.ParseBoundsText | src/comptext_mcp/mobile_agent/droidrun_wrapper.py:281-287 | the bounds text `[l,t][r,b]` of non-negative numbers reads back as the four numbers |
| Droidrun.ElementOf | src/comptext_mcp/mobile_agent/droidrun_wrapper.py:280-301 | reading a `node` fails exactly when its index attribute is present and not an integer |
| Droidrun.ElementsOfProperties | src/comptext_mcp/mobile_agent/droidrun_wrapper.py:276-306 | every kept element has text, a description or a click handler and comes from a `node` element; the read fails exactly when some `node` has a bad index |
| Droidrun.EscapeSafe | src/comptext_mcp/mobile_agent/droidrun_wrapper.py:398-399 | the escaped text has no space, and every quote in it is preceded by a backslash |
| Droidrun.TypedMessage | src/comptext_mcp/mobile_agent/droidrun_wrapper.py:404 | the message shows at most the first 20 characters, with "..." when the text is longer, so it is at most 30 long |
| Droidrun.Perform | src/comptext_mcp/mobile_agent/droidrun_wrapper.py:313-523 | each action succeeds exactly when its shell call did (waiting always does), a failure carries the shell error, the action type matches the operation, and tapping an element whose bounds do not unpack raises |
| Droidrun.FirstComponent | src/comptext_mcp/mobile_agent/droidrun_wrapper.py:233-240 | the first part that holds a "/" before and after stripping its braces |
| Droidrun.ResumedActivity | src/comptext_mcp/mobile_agent/droidrun_wrapper.py:226-240 | the package has no "/" and the activity does not start with "." |
| Droidrun.ResumedActivityFound | src/comptext_mcp/mobile_agent/droidrun_wrapper.py:230-240 | a component is found exactly when some part holds a "/"; it is the first such part, split at its first "/" after stripping braces, the activity without leading dots |
| Droidrun.DroidRunWrapper.constructor | src/comptext_mcp/mobile_agent/droidrun_wrapper.py:174-177 | a new wrapper keeps the configured serial, is not connected and has no cached screen |
| Droidrun.DroidRunWrapper.Connect | src/comptext_mcp/mobile_agent/droidrun_wrapper.py:182-212 | connects exactly when the listing has a device and the configured serial is unset or listed; an unset serial becomes the first device; a failed call changes nothing |
| Droidrun.DroidRunWrapper.GetScreenState | src/comptext_mcp/mobile_agent/droidrun_wrapper.py:214-269 | the screen takes the resumed package and activity, the dump's raw text and elements (none when reading them raised) and the screenshot when asked; it is cached |
| Droidrun.DroidRunWrapper.ParseUiXml | src/comptext_mcp/mobile_agent/droidrun_wrapper.py:271-311 | the loop over the dump in document order yields the read specification: the meaningful `node` elements, none for malformed XML, a raise on a bad index |
| MobileSchema.ActionOf | src/comptext_mcp/mobile_agent/schemas/mobile_schema.py:64-75 | a value is accepted as an action only when it is the string value of that action |
| MobileSchema.ActionNameRoundTrip | src/comptext_mcp/mobile_agent/schemas/mobile_schema.py:64-75 | every action's string value reads back as the same action |
| MobileSchema.CompressKey | src/comptext_mcp/mobile_agent/schemas/mobile_schema.py:149-159 | the five long parameter keys map to short keys; every other key is kept |
| MobileSchema.ExpandKey | src/comptext_mcp/mobile_agent/schemas/mobile_schema.py:164-171 | the five short keys map to long keys; every other key is kept |
| MobileSchema.ExpandCompress | src/comptext_mcp/mobile_agent/schemas/mobile_schema.py:149-171 | expanding a compressed key gives it back, for every key that is not itself a short key |
| MobileSchema.CompressInjective | src/comptext_mcp/mobile_agent/schemas/mobile_schema.py:149-159 | compression sends distinct keys (none of them short keys) to distinct keys |
| MobileSchema.RenameKeys | src/comptext_mcp/mobile_agent/schemas/mobile_schema.py:159 | renaming keeps every value and its position and renames only its key |
| MobileSchema.CompressRenames | src/comptext_mcp/mobile_agent/schemas/mobile_schema.py:159 | when the renamed keys stay distinct, the dictionary comprehension is exactly the renaming, position by position |
| MobileSchema.CompressUnique | src/comptext_mcp/mobile_agent/schemas/mobile_schema.py:149-159 | distinct keys that are not short keys stay distinct once compressed |
| MobileSchema.ToComptext | src/comptext_mcp/mobile_agent/schemas/mobile_schema.py:121-133 | the compact object has the keys t, a, p, c in that order, holding the thought cut to 50 items, the action's string value and the rounded confidence; it fails exactly when the thought cannot be sliced or the confidence cannot be rounded |
| MobileSchema.FromComptext | src/comptext_mcp/mobile_agent/schemas/mobile_schema.py:160-177 | it fails exactly for an unknown action or a p that is not an object; a missing action means done; the thought and the confidence are the given values, whatever their type, or "" and 0.0 when missing |
| MobileSchema.RoundTrip | src/comptext_mcp/mobile_agent/schemas/mobile_schema.py:121-177 | encoding succeeds exactly when the thought can be cut and the confidence rounded; decoding then gives back the action and parameters, the cut thought and the rounded confidence, when no parameter key is a short key |
| MobileSchema.ExpandAfterCompress | src/comptext_mcp/mobile_agent/schemas/mobile_schema.py:149-171 | expanding compressed parameters gives them back |
| MobileSchema.DecodeObject | src/comptext_mcp/mobile_agent/schemas/mobile_schema.py:160-177 | a compact object with a known action and an object p decodes to its four fields, whatever t and c hold, with the parameters expanded |
| MobileSchema.ThoughtCut | src/comptext_mcp/mobile_agent/schemas/mobile_schema.py:127 | `thought[:50]` keeps the first 50 characters of a string or items of a list and fails for any other value |
| MobileSchema.Rounded | src/comptext_mcp/mobile_agent/schemas/mobile_schema.py:130 | `round(c, 2)` turns a bool into 0 or 1, keeps an int or a float, and fails for any other value |
| MobileSchema.RoundTripText | src/comptext_mcp/mobile_agent/schemas/mobile_schema.py:121-177 | a string thought and a numeric confidence come back as the thought's first 50 characters and the same confidence |
| MobileSchema.CompactFields | src/comptext_mcp/mobile_agent/schemas/mobile_schema.py:125-132 | the compact object's four keys are distinct and each reads back its own value |
| MobileSchema.ScreenElementType | src/comptext_mcp/mobile_agent/schemas/mobile_schema.py:220 | B exactly when `clickable` is truthy, T exactly when it is not and `text` is truthy, else E |
| MobileSchema.NameValue | src/comptext_mcp/mobile_agent/schemas/mobile_schema.py:221 | the name source is the first truthy of text and description, else "el" |
| MobileSchema.ScreenElementName | src/comptext_mcp/mobile_agent/schemas/mobile_schema.py:221 | a string name source gives a prefix of at most 20 characters, a list its first 20 items rendered; slicing fails exactly when the source is neither |
| MobileSchema.ScreenElementLine | src/comptext_mcp/mobile_agent/schemas/mobile_schema.py:218-224 | an element's line exists exactly when its name can be sliced |
| MobileSchema.ScreenLines | src/comptext_mcp/mobile_agent/schemas/mobile_schema.py:213-226 | the header, "Els:", then one line for each of the first 15 elements in order; it fails exactly when one of those lines does |
| MobileSchema.ScreenHeaderShape | src/comptext_mcp/mobile_agent/schemas/mobile_schema.py:215 | no package gives "App:?"; otherwise the header names the package's last "." part |
| MobileSchema.ResponseComptext | src/comptext_mcp/mobile_agent/schemas/mobile_schema.py:254-260 | the response starts with "R:" and the status; without a screen it is only that line; with one it fails exactly when the screen's rendering does |
| MobileSchema.TokenReductionOf | src/comptext_mcp/mobile_agent/schemas/mobile_schema.py:263-281 | the counts are the two lengths and their quarters rounded down; an empty verbose text raises on the division |
| MobileSchema.ReductionIsCharRatio | src/comptext_mcp/mobile_agent/schemas/mobile_schema.py:269-271 | the four-characters-per-token estimate cancels: the reduction is the character ratio, at most 100, and non-negative exactly when the compact text is no longer |
| AgentDispatch.ActionWord | src/comptext_mcp/mobile_agent/agents/mobile_agent.py:373 | the action word exists exactly when the "action" field (default "") is a string, and is that string lower-cased |
| AgentDispatch.ParamGet2 | src/comptext_mcp/mobile_agent/agents/mobile_agent.py:379 | `params.get(k, params.get(k2, default))`: the first key's value when present, else the second's or the default; undefined when the parameters are not an object |
| AgentDispatch.EitherIn | src/comptext_mcp/mobile_agent/agents/mobile_agent.py:378 | on an object, whether either key is present; raises exactly when the `in` test does |
| AgentDispatch.TapIndex | src/comptext_mcp/mobile_agent/agents/mobile_agent.py:379-387 | a tap that runs is a tap on one of the screen's elements; a refusal is a failed tap |
| AgentDispatch.PlanTap | src/comptext_mcp/mobile_agent/agents/mobile_agent.py:377-395 | a refused tap is a failed result of type tap |
| AgentDispatch.Direction | src/comptext_mcp/mobile_agent/agents/mobile_agent.py:398-415 | exactly the eight direction words (four long, four short) have a swipe |
| AgentDispatch.DirectionGeometry | src/comptext_mcp/mobile_agent/agents/mobile_agent.py:401-412 | every swipe is 1000 pixels, centred on (540, 960), along one axis; "up" moves upward and "right" moves right |
| AgentDispatch.DirectionAliases | src/comptext_mcp/mobile_agent/agents/mobile_agent.py:403-412 | each one-letter word swipes like its long word |
| AgentDispatch.PlanSwipe | src/comptext_mcp/mobile_agent/agents/mobile_agent.py:397-428 | a swipe that runs takes the default 300 ms |
| AgentDispatch.PlanType | src/comptext_mcp/mobile_agent/agents/mobile_agent.py:430-438 | typing runs only with non-empty text |
| AgentDispatch.PlanLaunch | src/comptext_mcp/mobile_agent/agents/mobile_agent.py:446-454 | launching runs without an activity |
| AgentDispatch.PlanWait | src/comptext_mcp/mobile_agent/agents/mobile_agent.py:456-458 | the wait runs exactly when the parameters are an object and `float(params.get("seconds", params.get("s", 1.0)))` converts, for the converted number of seconds; otherwise the exception handler returns a failed tap |
| Json.ExponentForm | src/comptext_mcp/mobile_agent/agents/mobile_agent.py:457 | `float()` reads digits, `e` or `E`, an optional sign and digits as the digits' value times ten to the signed exponent |
| Json.IntTextIsFloatText | src/comptext_mcp/mobile_agent/agents/mobile_agent.py:457 | every string `int()` reads, `float()` reads as the same number |
| Json.UnderscoreJoins | src/comptext_mcp/mobile_agent/agents/mobile_agent.py:457 | a single underscore between two digit runs is accepted and dropped |
| AgentDispatch.Dispatch | src/comptext_mcp/mobile_agent/agents/mobile_agent.py:373-465 | a plan exists exactly when the action word can be read |
| AgentDispatch.ExecuteAction | src/comptext_mcp/mobile_agent/agents/mobile_agent.py:367-472 | a result exists exactly when the action word can be read, and every failure carries an error |
| AgentDispatch.SuccessNeedsDevice | src/comptext_mcp/mobile_agent/agents/mobile_agent.py:376-465 | a successful result comes from a device command that was run and whose shell call succeeded (or a wait) |
| AgentDispatch.RefusalIgnoresDevice | src/comptext_mcp/mobile_agent/agents/mobile_agent.py:383-465 | a refused action's result does not depend on the device |
| AgentDispatch.NoParams | src/comptext_mcp/mobile_agent/agents/mobile_agent.py:377-458 | without parameters a tap, swipe, type or launch fails with its own message, and a wait waits one second |
| AgentDispatch.UnknownAction | src/comptext_mcp/mobile_agent/agents/mobile_agent.py:460-465 | any other action word fails as a tap with "Unknown action: " and the word |
| AgentDispatch.TapByIndex | src/comptext_mcp/mobile_agent/agents/mobile_agent.py:378-387 | a tap by index taps that element when the index is in range, and fails with "Invalid element index: " and the index otherwise |
| AgentFormat.NumberedLines | src/comptext_mcp/mobile_agent/agents/mobile_agent.py:296-300 | one line per element, numbered from the start, in order; undefined exactly when some line is |
| AgentFormat.TypeLetter | src/comptext_mcp/mobile_agent/agents/mobile_agent.py:297 | B exactly for clickable elements, T for the others with text, E for the rest |
| AgentFormat.CompactLines | src/comptext_mcp/mobile_agent/agents/mobile_agent.py:289-302 | the compact screen exists exactly when the first 15 elements' centres do |
| AgentFormat.CompactLinesShape | src/comptext_mcp/mobile_agent/agents/mobile_agent.py:289-302 | the header, "Els:", then one compact line for each of the first 15 elements, in order |
| AgentFormat.CompactLineFields | src/comptext_mcp/mobile_agent/agents/mobile_agent.py:297-300 | a compact line is `i:type:name@x,y` with the display name cut to 20 characters |
| AgentFormat.VerboseLines | src/comptext_mcp/mobile_agent/agents/mobile_agent.py:304-326 | four header lines (package, activity, blank, "UI Elements:"), then one verbose line for each of the first 20 elements; it exists exactly when their centres do |
| AgentFormat.ScreenContext | src/comptext_mcp/mobile_agent/agents/mobile_agent.py:281-287 | the screen text fails exactly when one of the first 15 (compact) or 20 (verbose) elements has no centre |
| AgentFormat.InitialMessages | src/comptext_mcp/mobile_agent/agents/mobile_agent.py:263-279 | a system message with the compact or the verbose prompt, then a user message starting "Task: " with the user's request and "Current screen:" |
| AgentFormat.StepFeedback | src/comptext_mcp/mobile_agent/agents/mobile_agent.py:328-340 | the feedback exists exactly when the screen text does |
| AgentFormat.StatusPrefix | src/comptext_mcp/mobile_agent/agents/mobile_agent.py:334 | the status reads "OK" exactly on success, otherwise "FAIL:" and the error |
| AgentFormat.FeedbackStatus | src/comptext_mcp/mobile_agent/agents/mobile_agent.py:328-340 | the feedback starts with "R:" (compact) or "Action result: " (verbose), then "OK" exactly on success, else "FAIL:" and the error |
| AgentFormat.SliceFrom | src/comptext_mcp/mobile_agent/agents/mobile_agent.py:480 | Python's `lst[start:]` for any integer start, negative ones counted from the end |
| AgentFormat.ZeroSizeKeepsAll | src/comptext_mcp/mobile_agent/agents/mobile_agent.py:474-480 | as written, a memory size of 0 keeps every screen |
| AgentFormat.AddToContextAsWritten | src/comptext_mcp/mobile_agent/agents/mobile_agent.py:474-480 | as written the memory keeps the newest screens, in order: `min(count, size)` of them for a positive size, but all of them for size 0 and all except the oldest `-size` for a negative size |
| AgentFormat.AddToContext | src/comptext_mcp/mobile_agent/agents/mobile_agent.py:474-480 | the memory keeps the newest `max(size, 0)` screens, in order |
| AgentFormat.AddToContextAgrees | src/comptext_mcp/mobile_agent/agents/mobile_agent.py:474-480 | for a positive size the corrected memory is the one written, and it ends with the newest screen |
| AgentReply.NextBrace | src/comptext_mcp/mobile_agent/agents/mobile_agent.py:350 | the first brace at or after a position, or the end |
| AgentReply.SpanFrom | src/comptext_mcp/mobile_agent/agents/mobile_agent.py:350 | the first `{` that is followed by a `}` with no brace between, and the span up to that `}` |
| AgentReply.SpanIsBraceFree | src/comptext_mcp/mobile_agent/agents/mobile_agent.py:350 | the span found starts with `{`, ends with `}` and has no brace inside |
| AgentReply.NestedSpan | src/comptext_mcp/mobile_agent/agents/mobile_agent.py:350 | with a nested object, the inner, brace-free object is the one found |
| AgentReply.StrictTakesInner | src/comptext_mcp/mobile_agent/agents/mobile_agent.py:350-352 | text, an open brace, text, then a brace-free object: the object is the span found |
| AgentReply.ActionMatchAt | src/comptext_mcp/mobile_agent/agents/mobile_agent.py:357 | a fallback match at a position starts with "action" (any case) and yields a non-empty word of letters, digits and underscores |
| AgentReply.ActionWordFrom | src/comptext_mcp/mobile_agent/agents/mobile_agent.py:357 | the first fallback match's word; none exactly when no position matches |
| AgentReply.FallbackAction | src/comptext_mcp/mobile_agent/agents/mobile_agent.py:358-363 | the fallback object has the keys action, thought, params in that order |
| AgentReply.StrictStage | src/comptext_mcp/mobile_agent/agents/mobile_agent.py:348-354 | no span gives nothing; otherwise the decoding of the span |
| AgentReply.ParseAction | src/comptext_mcp/mobile_agent/agents/mobile_agent.py:342-365 | the decoded span when it decodes, else the fallback object when an action label matches, else nothing |
| AgentReply.FallbackFields | src/comptext_mcp/mobile_agent/agents/mobile_agent.py:357-363 | the fallback holds the lower-cased word, the first 100 characters of the reply and empty params |
| Agent.IterateInv | src/comptext_mcp/mobile_agent/agents/mobile_agent.py:174 | an invariant each pass keeps, which a stop also keeps, holds when the bounded loop ends |
| Agent.NumberedGrow | src/comptext_mcp/mobile_agent/agents/mobile_agent.py:186-228 | a step numbered one past the last keeps the steps numbered in order and bounded |
| Agent.ContinueGrow | src/comptext_mcp/mobile_agent/agents/mobile_agent.py:241-258 | after a step is appended, every step but the last still allowed another |
| Agent.NewStepAction | src/comptext_mcp/mobile_agent/agents/mobile_agent.py:194-201 | a "done" reply gives a step whose action is "done" |
| Agent.AdvanceKeepsInv | src/comptext_mcp/mobile_agent/agents/mobile_agent.py:174-258 | one pass of the loop keeps the loop invariant, one step further |
| Agent.StepKeepsInv | src/comptext_mcp/mobile_agent/agents/mobile_agent.py:174-258 | one pass keeps the invariant whatever the model and the device do |
| Agent.StoppedKeepsInv | src/comptext_mcp/mobile_agent/agents/mobile_agent.py:201-258 | a stopped loop keeps the invariant |
| Agent.LoopKeepsInv | src/comptext_mcp/mobile_agent/agents/mobile_agent.py:174-258 | the invariant holds when the loop ends, at the last step index |
| Agent.RaisedDiffers | src/comptext_mcp/mobile_agent/agents/mobile_agent.py:254-260 | the action-failed message, the max-steps message and the exception text are distinct |
| Agent.FinishOutcome | src/comptext_mcp/mobile_agent/agents/mobile_agent.py:249-262 | the end of a run turns the loop invariant into every promise of the outcome |
| Agent.ExecuteOutcome | src/comptext_mcp/mobile_agent/agents/mobile_agent.py:152-262 | success exactly when completed and exactly when there is no error; at most `max_steps` steps numbered in order; a success ends in "done"; every step but the last allowed another; a final screen unless an exception escaped |
| Agent.ExecuteMemory | src/comptext_mcp/mobile_agent/agents/mobile_agent.py:165-213 | the memory never holds more than `context_memory_size` screens (none when it is not positive); with a positive size it is never empty and its newest screen is the final screen the result reports |
| Agent.LoopMemory | src/comptext_mcp/mobile_agent/agents/mobile_agent.py:174-258 | the loop keeps the memory within its bound |
| Agent.AdvanceMemory | src/comptext_mcp/mobile_agent/agents/mobile_agent.py:213 | one pass keeps the memory within its bound |
| Agent.StepMemory | src/comptext_mcp/mobile_agent/agents/mobile_agent.py:174-258 | one pass keeps the memory within its bound whatever the model and the device do |
| Agent.StepIs | src/comptext_mcp/mobile_agent/agents/mobile_agent.py:174-258 | one pass is the update computed from the model's reply, the parsed action, the device result, the new screen and the feedback |
| Agent.LoopStep | src/comptext_mcp/mobile_agent/agents/mobile_agent.py:174 | a running loop below `max_steps` takes one more pass |
| Agent.LoopEnd | src/comptext_mcp/mobile_agent/agents/mobile_agent.py:174 | a stopped loop, or one at `max_steps`, ends |
| Agent.RunIs | src/comptext_mcp/mobile_agent/agents/mobile_agent.py:152-262 | a run that reads its first screen is the loop from step 0 on the initial messages, then the finish |
| Agent.LoopNewest | src/comptext_mcp/mobile_agent/agents/mobile_agent.py:174-258 | with a positive size, the memory's newest screen stays the screen the loop last read |
| Agent.StepNewest | src/comptext_mcp/mobile_agent/agents/mobile_agent.py:174-258 | one pass keeps the memory's newest screen equal to the current screen |
| Agent.AdvanceNewest | src/comptext_mcp/mobile_agent/agents/mobile_agent.py:182-258 | the same for the loop body given its inputs |
| Agent.VerifyNewest | src/comptext_mcp/mobile_agent/agents/mobile_agent.py:211-213 | the verify stage reads the new screen and adds it to the memory as the newest |
| Agent.FinishNewest | src/comptext_mcp/mobile_agent/agents/mobile_agent.py:249-262 | a result that reports a final screen reports the current screen, the memory's newest |
| Agent.CompletedOnDone | src/comptext_mcp/mobile_agent/agents/mobile_agent.py:182-258 | one pass completes the task exactly when the model replied with a decoded "done" action; it then stops with success and a last step that records the WAIT result; any other pass leaves the success flag as it was |
| Agent.StepDone | src/comptext_mcp/mobile_agent/agents/mobile_agent.py:174-258 | the same for a pass run on what the model and the device return |
| Agent.VerifyAdds | src/comptext_mcp/mobile_agent/agents/mobile_agent.py:211-258 | the verify stage appends exactly its step, keeps the token count and the success flag, and never completes the task |
| Agent.ActsAdd | src/comptext_mcp/mobile_agent/agents/mobile_agent.py:182-258 | a pass that acts adds the reply's tokens and at most one step, keeps success and does not complete the task |
| Agent.AdvanceSpends | src/comptext_mcp/mobile_agent/agents/mobile_agent.py:178-258 | each pass adds its reply's `total_tokens` whether or not the reply decodes (nothing when the call raised), keeps the earlier steps and adds at most one |
| Agent.StepSpends | src/comptext_mcp/mobile_agent/agents/mobile_agent.py:174-258 | the same for a pass run on what the model and the device return |
| Agent.LoopAccounting | src/comptext_mcp/mobile_agent/agents/mobile_agent.py:174-258 | from step index k the loop makes at most `max_steps - k` model calls, its token count grows by exactly the sum of the replies' counts, and it records at most one step per call, keeping the earlier ones |
| Agent.RunAccounting | src/comptext_mcp/mobile_agent/agents/mobile_agent.py:152-262 | a run's `total_tokens` is the sum of every reply's count, it makes at most `max_steps` model calls and has no more steps than calls; a run that fails before the loop reports no tokens and no steps |
| Agent.MobileAgent.constructor | src/comptext_mcp/mobile_agent/agents/mobile_agent.py:116-123 | a new agent is idle, with no memory and no task |
| Agent.MobileAgent.AddToContext | src/comptext_mcp/mobile_agent/agents/mobile_agent.py:474-480 | the memory becomes the corrected bounded memory with the new screen |
| Agent.MobileAgent.Execute | src/comptext_mcp/mobile_agent/agents/mobile_agent.py:152-262 | the result, the final state and the memory are those of the run specification for the agent's helpers; the current task is set |
| Agent.MobileAgent.ExecuteWith | src/comptext_mcp/mobile_agent/agents/mobile_agent.py:152-262 | the loop, run on the object's fields, gives the run specification's result, state and memory |
| Agent.MobileAgent.RunStep | src/comptext_mcp/mobile_agent/agents/mobile_agent.py:174-258 | one pass on the object is the specification's step; the object's state and memory follow it |
| Agent.MobileAgent.Update | src/comptext_mcp/mobile_agent/agents/mobile_agent.py:178-258 | the loop body's changes to the loop variables and to the object are the specification's update |
| Agent.MobileAgent.Replied | src/comptext_mcp/mobile_agent/agents/mobile_agent.py:182-258 | after a reply the tokens are counted; an unparsed reply ends the pass, "done" completes the task, a raised action fails it, and any other action is verified, all as the specification's update |
| Agent.MobileAgent.VerifyStep | src/comptext_mcp/mobile_agent/agents/mobile_agent.py:206-258 | the verify stage's changes are the specification's: the memory takes the new screen |
| WebSocket.ToJson | src/comptext_mcp/mobile_agent/websocket_server.py:69-76 | an event is the object with the keys type, timestamp, task_id, data in that order, holding the event type's value, the time, the task_id value (null when unset) and the data |
| WebSocket.Kinds | src/comptext_mcp/mobile_agent/websocket_server.py:35-58 | the event types of a trace, one per event, in order |
| WebSocket.StepOrder | src/comptext_mcp/mobile_agent/websocket_server.py:171-266 | a step whose reply does not parse emits step started, state changed, tokens used; a step that acts emits those, then state changed, action executed, state changed, screen updated, step completed, progress update |
| WebSocket.TracedLoopIsLoop | src/comptext_mcp/mobile_agent/websocket_server.py:171-286 | the loop that emits events computes the base agent's loop variables, except that a completed run's last step records this agent's "done" result |
| WebSocket.DoneRecorded | src/comptext_mcp/mobile_agent/websocket_server.py:208-214 | the steps keep their number and every step but the last; the last records the successful result whose action is the device's class name "DroidRunWrapper" |
| WebSocket.WsAdvanceRelabels | src/comptext_mcp/mobile_agent/websocket_server.py:181-286 | this agent's loop body is the base agent's, with the "done" step's result replaced by the one naming the device class |
| WebSocket.WsStepRelabels | src/comptext_mcp/mobile_agent/websocket_server.py:171-286 | the same for a pass run on what the model and the device return |
| WebSocket.WsRunAgrees | src/comptext_mcp/mobile_agent/websocket_server.py:147-300 | this agent's run ends with the base agent's state, memory, success, error, tokens and final screen; a successful run's last step records the result naming the device class instead of WAIT |
| WebSocket.WithEventsIs | src/comptext_mcp/mobile_agent/websocket_server.py:147-300 | once the first screen is read, the run emits a screen update, then the events of every pass of the loop |
| WebSocket.ProjectAppend | src/comptext_mcp/mobile_agent/websocket_server.py:171-266 | step numbers, progress values and lifecycle events of two traces put together are those of each, in order |
| WebSocket.Quiet | src/comptext_mcp/mobile_agent/websocket_server.py:171-266 | a trace with no step-started, progress or lifecycle events has no step numbers, progress values or lifecycle events |
| WebSocket.VerifyOneStep | src/comptext_mcp/mobile_agent/websocket_server.py:234-266 | the verify stage emits exactly one progress value, the step's percentage |
| WebSocket.ActOneStep | src/comptext_mcp/mobile_agent/websocket_server.py:220-266 | the act stage emits at most the step's one percentage |
| WebSocket.ParsedOneStep | src/comptext_mcp/mobile_agent/websocket_server.py:199-266 | the stages after parsing emit at most the step's one percentage |
| WebSocket.AdvanceProjections | src/comptext_mcp/mobile_agent/websocket_server.py:171-266 | one pass starts exactly step k+1, emits at most one progress value, the step's percentage, and no lifecycle event |
| WebSocket.StepProjections | src/comptext_mcp/mobile_agent/websocket_server.py:171-266 | the same for a pass run on what the model and the device return |
| WebSocket.PercentScaled | src/comptext_mcp/mobile_agent/websocket_server.py:261 | the progress `(k+1)/max_steps*100` is positive and scales back to `(k+1)*100` |
| WebSocket.RisingGrow | src/comptext_mcp/mobile_agent/websocket_server.py:261 | appending the next step's percentage keeps the progress values strictly rising |
| WebSocket.ProgressGrow | src/comptext_mcp/mobile_agent/websocket_server.py:171-266 | one pass keeps the progress values rising and within the steps taken |
| WebSocket.TraceGrow | src/comptext_mcp/mobile_agent/websocket_server.py:171-266 | one pass keeps the trace well formed: steps numbered 1, 2, … in order, rising progress, no lifecycle event |
| WebSocket.TracedStepKeeps | src/comptext_mcp/mobile_agent/websocket_server.py:171-286 | one pass of the emitting loop keeps the trace invariant |
| WebSocket.TracedLoopKeeps | src/comptext_mcp/mobile_agent/websocket_server.py:171-286 | the whole emitting loop keeps the trace invariant up to `max_steps` |
| WebSocket.WithEventsTrace | src/comptext_mcp/mobile_agent/websocket_server.py:147-300 | the events of a run number the steps 1, 2, … in order, at most `max_steps` of them, with strictly rising progress values between 0 and 100, and no lifecycle event |
| WebSocket.LoopTrace | src/comptext_mcp/mobile_agent/websocket_server.py:171-286 | the same for the loop alone |
| WebSocket.WithinScale | src/comptext_mcp/mobile_agent/websocket_server.py:261 | progress values within `max_steps` steps lie between 0 and 100 |
| WebSocket.ExecuteLifecycle | src/comptext_mcp/mobile_agent/websocket_server.py:109-145 | a task's events open with task started and close with task completed on success and task failed otherwise; no other lifecycle event appears |
| WebSocket.ExecuteProgress | src/comptext_mcp/mobile_agent/websocket_server.py:109-300 | the step numbers and progress values of a whole task keep the run's ordering and bounds |
| WebSocket.AroundLifecycle | src/comptext_mcp/mobile_agent/websocket_server.py:109-145 | opening and closing events add exactly their own lifecycle events around the run's |
| WebSocket.TracedLoopStep | src/comptext_mcp/mobile_agent/websocket_server.py:171 | a running emitting loop below `max_steps` takes one more pass and appends its events |
| WebSocket.TracedLoopEnd | src/comptext_mcp/mobile_agent/websocket_server.py:171 | a stopped emitting loop, or one at `max_steps`, ends |
| WebSocket.WebSocketMobileAgent.constructor | src/comptext_mcp/mobile_agent/websocket_server.py:86-94 | a new agent is idle, with no memory, task, task id or emitted events |
| WebSocket.WebSocketMobileAgent.Received | src/comptext_mcp/mobile_agent/websocket_server.py:96-107 | the callback receives every emitted event when there is one, none otherwise |
| WebSocket.WebSocketMobileAgent.EmitAll | src/comptext_mcp/mobile_agent/websocket_server.py:96-107 | emitting appends the events in order |
| WebSocket.WebSocketMobileAgent.AddToContext | src/comptext_mcp/mobile_agent/websocket_server.py:161 | the memory becomes the corrected bounded memory with the new screen |
| WebSocket.WebSocketMobileAgent.Execute | src/comptext_mcp/mobile_agent/websocket_server.py:109-145 | the result, state and memory are this agent's run (the base run with its "done" step relabelled); task_id is set; the events are task started, the run's events, then the closing event |
| WebSocket.WebSocketMobileAgent.ExecuteTask | src/comptext_mcp/mobile_agent/websocket_server.py:109-145 | the same for any helpers: this agent's run, task_id set, and the events wrapped in task started and the closing event |
| WebSocket.WebSocketMobileAgent.ExecuteWithEvents | src/comptext_mcp/mobile_agent/websocket_server.py:147-300 | the run on the object's fields gives this agent's result, state and memory, and emits the run's events |
| WebSocket.WebSocketMobileAgent.RunLoop | src/comptext_mcp/mobile_agent/websocket_server.py:171-286 | the loop on the object's fields gives the emitting loop's variables and events |
| WebSocket.WebSocketMobileAgent.RunStep | src/comptext_mcp/mobile_agent/websocket_server.py:171-286 | one pass on the object is this agent's step (the base step with its "done" result relabelled), and emits that step's events |
| WebSocket.WebSocketMobileAgent.Update | src/comptext_mcp/mobile_agent/websocket_server.py:181-286 | the loop body's changes are this agent's update, with that pass's events |
| WebSocket.WebSocketMobileAgent.Counted | src/comptext_mcp/mobile_agent/websocket_server.py:185-286 | once the model replied, the tokens are counted and announced, then the pass goes on as this agent's update |
| WebSocket.WebSocketMobileAgent.Parsed | src/comptext_mcp/mobile_agent/websocket_server.py:199-286 | after a parsed reply, "done" records the result naming the device class and completes the task; other actions change the object as the base agent's update does; each with its events |
| WebSocket.WebSocketMobileAgent.Dispatch | src/comptext_mcp/mobile_agent/websocket_server.py:207-286 | an action that is not "done" is carried out as the base agent's update, with its events |
| WebSocket.WebSocketMobileAgent.Act | src/comptext_mcp/mobile_agent/websocket_server.py:220-286 | executing the action either crashes the run or verifies the step, with the action-executed events |
| WebSocket.WebSocketMobileAgent.VerifyStep | src/comptext_mcp/mobile_agent/websocket_server.py:234-286 | the verify stage changes the object as the base agent's verify does, with its events |
| WebSocketServer.Event | src/comptext_mcp/mobile_agent/websocket_server.py:62-67 | a server event carries its type and data and no task id |
| WebSocketServer.ErrorEvent | src/comptext_mcp/mobile_agent/websocket_server.py:493-498 | an error event's data is only the error message |
| WebSocketServer.WelcomeData | src/comptext_mcp/mobile_agent/websocket_server.py:375-383 | the welcome data holds message, version and the client's id, in that order |
| WebSocketServer.StatusData | src/comptext_mcp/mobile_agent/websocket_server.py:467-478 | the status holds running, clients (the client count), mode (the configured mode's value) and comptext_enabled, in that order |
| WebSocketServer.ConfigData | src/comptext_mcp/mobile_agent/websocket_server.py:480-491 | the config reply holds one "config" object with mode, model, max_steps and use_comptext |
| WebSocketServer.Broadcasts | src/comptext_mcp/mobile_agent/websocket_server.py:507-516 | a broadcast sends nothing without clients, otherwise one send to all of them |
| WebSocketServer.Command | src/comptext_mcp/mobile_agent/websocket_server.py:396-397 | the command is read only from an object, and is null when the key is missing |
| WebSocketServer.UnknownError | src/comptext_mcp/mobile_agent/websocket_server.py:425-426 | "Unknown command: " followed by the command as Python prints it |
| WebSocketServer.MobileAgentWebSocketServer.constructor | src/comptext_mcp/mobile_agent/websocket_server.py:315-335 | a new server is not serving, has no clients, runs no task and has sent nothing |
| WebSocketServer.MobileAgentWebSocketServer.Start | src/comptext_mcp/mobile_agent/websocket_server.py:337-347 | the server is serving |
| WebSocketServer.MobileAgentWebSocketServer.Stop | src/comptext_mcp/mobile_agent/websocket_server.py:349-367 | the server stops serving, its task is cancelled and it has no clients |
| WebSocketServer.MobileAgentWebSocketServer.SendTo | src/comptext_mcp/mobile_agent/websocket_server.py:500-505 | one send to the client is recorded |
| WebSocketServer.MobileAgentWebSocketServer.Broadcast | src/comptext_mcp/mobile_agent/websocket_server.py:507-516 | a send to all clients is recorded, none without clients |
| WebSocketServer.MobileAgentWebSocketServer.Connect | src/comptext_mcp/mobile_agent/websocket_server.py:369-383 | the client joins and is sent the welcome event |
| WebSocketServer.MobileAgentWebSocketServer.Disconnect | src/comptext_mcp/mobile_agent/websocket_server.py:390-391 | the client leaves |
| WebSocketServer.MobileAgentWebSocketServer.TaskDone | src/comptext_mcp/mobile_agent/websocket_server.py:431-453 | that agent task is no longer running |
| WebSocketServer.MobileAgentWebSocketServer.RunTask | src/comptext_mcp/mobile_agent/websocket_server.py:431-453 | while a task runs, a new one is refused with a broadcast "Another task is already running"; otherwise it starts |
| WebSocketServer.MobileAgentWebSocketServer.HandleMessage | src/comptext_mcp/mobile_agent/websocket_server.py:393-429 | bad JSON gets "Invalid JSON message"; run without a task gets "Missing 'task' parameter"; run starts or refuses a task; stop cancels a running task and broadcasts its failure; screenshot, status and config reply as their helpers do; any other command gets "Unknown command: …" |
| Config.DefaultOllama | src/comptext_mcp/mobile_agent/config.py:29-40 | the key is set exactly when OLLAMA_API_KEY is in the environment; primary and local models, 120 s timeout, 3 retries, 4096 tokens |
| Config.DefaultADB | src/comptext_mcp/mobile_agent/config.py:43-50 | the serial is set exactly when ANDROID_SERIAL is in the environment; the adb path defaults to "adb"; 30 s timeout |
| Config.ModeOf | src/comptext_mcp/mobile_agent/config.py:21-26 | a mode string is accepted exactly when it is cloud, local or hybrid |
| Config.ModeValue | src/comptext_mcp/mobile_agent/config.py:21-26 | every mode's value reads back as that mode |
| Config.FromEnv | src/comptext_mcp/mobile_agent/config.py:77-87 | construction fails exactly when AGENT_MODE is not a mode value; without AGENT_MODE the mode is cloud; the agent settings are the defaults; debug holds exactly when DEBUG lower-cased is "true" |
| Config.Validate | src/comptext_mcp/mobile_agent/config.py:89-103 | each of the three messages is reported exactly when its condition holds (missing key in cloud or hybrid mode, fewer than one step, negative retries), nothing else is reported, and the list is empty exactly when all three conditions fail |
| Config.ValidateOrder | src/comptext_mcp/mobile_agent/config.py:89-103 | the messages come in the order the checks run |
| Config.DefaultsValid | src/comptext_mcp/mobile_agent/config.py:53-103 | a configuration read from an environment with a usable mode and, unless local, a non-empty key, validates with no errors |
| Ollama.ToDict | src/comptext_mcp/mobile_agent/ollama_client.py:29-36 | role and content come first, then tool calls and tool call id, each only when truthy |
| Ollama.ToDictOptional | src/comptext_mcp/mobile_agent/ollama_client.py:29-36 | the dictionary has tool_calls exactly when the message's tool calls are truthy and tool_call_id exactly when its id is truthy, with the message's values |
| Ollama.Index | src/comptext_mcp/mobile_agent/ollama_client.py:149-158 | indexing by a key succeeds exactly on an object holding that key |
| Ollama.GetDefault | src/comptext_mcp/mobile_agent/ollama_client.py:150-162 | `get` succeeds exactly on an object and yields the default for a missing key |
| Ollama.ChatOf | src/comptext_mcp/mobile_agent/ollama_client.py:149-163 | a response is built only from a body with choices and model, and its model is the body's model |
| Ollama.ChatDefaults | src/comptext_mcp/mobile_agent/ollama_client.py:150-162 | without usage the three token counts are 0; without finish_reason the reason is "stop" |
| Ollama.Delay | src/comptext_mcp/mobile_agent/ollama_client.py:231-241 | the wait before the next attempt is 1, 2, then 4 seconds for every later attempt |
| Ollama.RequestWithRetry | src/comptext_mcp/mobile_agent/ollama_client.py:210-249 | the loop returns the outcome, the waits and the attempt count of the retry schedule |
| Ollama.RetrySchedule | src/comptext_mcp/mobile_agent/ollama_client.py:230-249 | when the first stop attempts raise HTTP errors: a body or a non-HTTP error at attempt stop ends the run there; with every allowed attempt failing the last HTTP error is raised (nothing to raise with no attempt at all); the waits are Delay(0), Delay(1), … one per failed attempt that is not the last allowed |
| Ollama.RetryFromSchedule | src/comptext_mcp/mobile_agent/ollama_client.py:230-249 | the same schedule from any attempt on |
| Ollama.RetryBound | src/comptext_mcp/mobile_agent/ollama_client.py:233 | no run makes more than max_retries + 1 attempts |
| Ollama.ChunkContent | src/comptext_mcp/mobile_agent/ollama_client.py:203-206 | a chunk yields content only when its delta's content is truthy |
| Ollama.Stream | src/comptext_mcp/mobile_agent/ollama_client.py:195-208 | every yielded chunk is truthy and there are no more chunks than lines |
| Ollama.StreamDataLinesOnly | src/comptext_mcp/mobile_agent/ollama_client.py:197-198 | lines without the "data: " prefix do not change the stream |
| Ollama.StreamStopsAtDone | src/comptext_mcp/mobile_agent/ollama_client.py:199-201 | nothing after a "data: [DONE]" line is yielded |
| Ollama.StreamSkipsUndecodable | src/comptext_mcp/mobile_agent/ollama_client.py:202-208 | a data line that does not decode is skipped |
| Ollama.TokenMetrics.constructor | src/comptext_mcp/mobile_agent/ollama_client.py:51-57 | all counters start at zero |
| Ollama.TokenMetrics.CalculateReduction | src/comptext_mcp/mobile_agent/ollama_client.py:59-62 | with a positive baseline the percentage is (baseline - comptext) / baseline * 100; otherwise it is unchanged |
| Ollama.ReductionInRange | src/comptext_mcp/mobile_agent/ollama_client.py:59-62 | with 0 <= comptext <= baseline the percentage lies in [0, 100] |
| Ollama.Headers | src/comptext_mcp/mobile_agent/ollama_client.py:91-95 | the content type is JSON, and a bearer authorization follows exactly when the key is truthy |
| Ollama.OllamaCloudClient.constructor | src/comptext_mcp/mobile_agent/ollama_client.py:76-79 | no client is open and the metrics are zeroed |
| Ollama.OllamaCloudClient.EnsureClient | src/comptext_mcp/mobile_agent/ollama_client.py:88-101 | a client is opened with the headers once and an open one is kept |
| Ollama.OllamaCloudClient.Close | src/comptext_mcp/mobile_agent/ollama_client.py:103-107 | no client is open afterwards |
| Ollama.OllamaCloudClient.ResetMetrics | src/comptext_mcp/mobile_agent/ollama_client.py:256-258 | the metrics are replaced by a fresh zeroed record |
| Screenshot.Bounded | src/comptext_mcp/mobile_agent/utils/screenshot.py:264-275 | the kept history is a suffix of the appended history, of length min(count, max_history), and empty for a negative bound |
| Screenshot.BoundedKeepsNewest | src/comptext_mcp/mobile_agent/utils/screenshot.py:264-275 | with a bound of at least 1, the newest capture is the last entry and the older entries are a suffix of the earlier history |
| Screenshot.ScreenshotPipeline.constructor | src/comptext_mcp/mobile_agent/utils/screenshot.py:50-67 | the pipeline keeps the bound and starts with an empty history |
| Screenshot.ScreenshotPipeline.AddToHistory | src/comptext_mcp/mobile_agent/utils/screenshot.py:264-275 | the history becomes the bounded appended history; the call raises (pop from an empty list) exactly when the bound is negative |
| Screenshot.ScreenshotPipeline.Capture | src/comptext_mcp/mobile_agent/utils/screenshot.py:72-177 | a failed screencap or pull, or a raised error, returns a failure with the command's message and leaves the history; a capture is appended to the history and returned, except that a negative bound turns it into the pop-from-empty failure |
| Screenshot.ScreenshotPipeline.History | src/comptext_mcp/mobile_agent/utils/screenshot.py:277-280 | a copy of the history, element for element |
| Screenshot.ScreenshotPipeline.GetLatest | src/comptext_mcp/mobile_agent/utils/screenshot.py:282-284 | none exactly for an empty history, otherwise the last entry |
| Screenshot.ScreenshotPipeline.ClearHistory | src/comptext_mcp/mobile_agent/utils/screenshot.py:286-294 | the history is empty and there is no latest screenshot |
| Screenshot.Arrived | src/comptext_mcp/mobile_agent/utils/screenshot.py:150-163 | a captured screenshot succeeds, carries its path and no error, and holds base64 data exactly when it was asked for |
| Screenshot.LatestIsCapture | src/comptext_mcp/mobile_agent/utils/screenshot.py:264-284 | after a successful capture with a bound of at least 1, the latest screenshot is that capture and the history holds at most the bound |
| Screenshot.ComptextStateLines | src/comptext_mcp/mobile_agent/utils/screenshot.py:352-382 | one header line, a second when there is a package, then at most 15 element lines |
| Screenshot.ComptextStateLayout | src/comptext_mcp/mobile_agent/utils/screenshot.py:352-382 | an "App:" line with the package's last dotted segment when there is a package, then "Els:" with the element count, then the line of each of the first (at most 15) elements in order |
| Screenshot.RecordNameBound | src/comptext_mcp/mobile_agent/utils/screenshot.py:374-380 | a dictionary element's line shows its text, or else its description, cut to 20 characters, with K or T for clickability and its centre |
| Screenshot.VerboseElementLine | src/comptext_mcp/mobile_agent/utils/screenshot.py:399-413 | an element's line starts with its bracketed index |
| Screenshot.VerboseStateLines | src/comptext_mcp/mobile_agent/utils/screenshot.py:384-415 | application, activity, a blank line, the visible count and a 50-dash rule, then one line per element for at most 20 elements |
| Screenshot.BuildContext | src/comptext_mcp/mobile_agent/utils/screenshot.py:314-350 | the screenshot flag holds exactly for a successful screenshot; size and timestamp come from the screenshot or are (0, 0) and now; the format and state follow the compact setting; the base64 image is included exactly when it is non-empty |
| AgentTokenMetrics.NewTask | src/comptext_mcp/mobile_agent/utils/metrics.py:95-103 | a started task carries its id and description, all counters zero, not completed |
| AgentTokenMetrics.Stepped | src/comptext_mcp/mobile_agent/utils/metrics.py:105-133 | a step adds one to the step count and to the successful steps when it succeeded, adds the prompt and completion tokens, keeps total = prompt + completion and steps = successful + failed, and adds to the baseline and CompText counts only for a truthy baseline |
| AgentTokenMetrics.Completed | src/comptext_mcp/mobile_agent/utils/metrics.py:135-161 | completion sets success and error and keeps the counters; the average step time times the steps is the total time; the reduction times the baseline is (baseline - comptext) * 100 for a positive baseline; the cost is the model's cost of the tokens |
| AgentTokenMetrics.RateOf | src/comptext_mcp/mobile_agent/utils/metrics.py:205-207 | prices are non-negative, and an unknown model is priced as qwen3-coder:480b |
| AgentTokenMetrics.CalculateCost | src/comptext_mcp/mobile_agent/utils/metrics.py:205-210 | the cost of non-negative token counts is non-negative |
| AgentTokenMetrics.CostLinear | src/comptext_mcp/mobile_agent/utils/metrics.py:205-210 | the cost is additive in prompt and completion tokens |
| AgentTokenMetrics.UnknownModelCost | src/comptext_mcp/mobile_agent/utils/metrics.py:207 | an unknown model costs what qwen3-coder:480b costs |
| AgentTokenMetrics.Totals | src/comptext_mcp/mobile_agent/utils/metrics.py:170-184 | the sums count every task once, and successful plus failed tasks are all tasks |
| AgentTokenMetrics.TotalsAppend | src/comptext_mcp/mobile_agent/utils/metrics.py:170-184 | adding a task to the list adds it to every sum |
| AgentTokenMetrics.TotalsSuccess | src/comptext_mcp/mobile_agent/utils/metrics.py:173 | the successful-task total is the number of successful tasks |
| AgentTokenMetrics.TotalsConsistent | src/comptext_mcp/mobile_agent/utils/metrics.py:175-182 | over consistent tasks the total tokens are prompt plus completion, and successful steps do not exceed steps |
| AgentTokenMetrics.PerformanceOf | src/comptext_mcp/mobile_agent/utils/metrics.py:166-203 | no tasks give all zeros; the success rate lies in [0, 100] and is successful / total * 100; average task and step times and the average reduction are the totals divided by their counts where those are positive |
| AgentTokenMetrics.PerformanceSums | src/comptext_mcp/mobile_agent/utils/metrics.py:166-203 | over consistent tasks the aggregate counts the successful tasks, its tokens add up, and its step success rate lies in [0, 100] |
| AgentTokenMetrics.TokenMetricsCollector.constructor | src/comptext_mcp/mobile_agent/utils/metrics.py:90-93 | the collector keeps its model and starts with no tasks and no current task |
| AgentTokenMetrics.TokenMetricsCollector.StartTask | src/comptext_mcp/mobile_agent/utils/metrics.py:95-103 | the new task replaces any current one and is returned |
| AgentTokenMetrics.TokenMetricsCollector.RecordStep | src/comptext_mcp/mobile_agent/utils/metrics.py:105-133 | without a current task nothing changes; otherwise the current task takes the step |
| AgentTokenMetrics.TokenMetricsCollector.CompleteTask | src/comptext_mcp/mobile_agent/utils/metrics.py:135-164 | without a current task nothing changes; otherwise the completed task is appended once and the current task cleared |
| AgentTokenMetrics.TokenMetricsCollector.GetPerformanceMetrics | src/comptext_mcp/mobile_agent/utils/metrics.py:166-203 | the aggregate counts every stored task |
| AgentTokenMetrics.CompletionCounted | src/comptext_mcp/mobile_agent/utils/metrics.py:135-203 | completing a task adds it to the aggregate: one more success when it succeeded, and its prompt tokens to the total |
| RequestMetrics.HitRate | src/comptext_mcp/metrics.py:64-69 | the hit rate is 0 with no lookups, otherwise hits / (hits + misses) * 100, and always in [0, 100] |
| RequestMetrics.EndpointOf | src/comptext_mcp/metrics.py:52-60 | an endpoint's count and errors are kept; with no times avg, min and max are 0; otherwise min and max are recorded times, every time lies between them, and avg times the number of times is their sum (the mean) |
| RequestMetrics.SumBetween | src/comptext_mcp/metrics.py:57 | a sum of values between two bounds lies between the count times each bound |
| RequestMetrics.AverageBetween | src/comptext_mcp/metrics.py:57-59 | the average of recorded times lies between their minimum and maximum |
| RequestMetrics.EndpointsOf | src/comptext_mcp/metrics.py:52-60 | one entry per counted endpoint, in order, with its errors (0 when none) and its times |
| RequestMetrics.IncrSum | src/comptext_mcp/metrics.py:24-44 | recording a request adds one to the total request count |
| RequestMetrics.IncrGet | src/comptext_mcp/metrics.py:26-30 | recording adds one to the recorded endpoint only |
| RequestMetrics.RecordAligned | src/comptext_mcp/metrics.py:24-27 | counts and time lists stay aligned: every count is the number of its times |
| RequestMetrics.RecordErrorsBounded | src/comptext_mcp/metrics.py:24-30 | no endpoint ever has more errors than requests |
| RequestMetrics.RecordTotals | src/comptext_mcp/metrics.py:24-48 | one request adds one to the total requests, one to the total errors exactly when flagged, and leaves the hit rate |
| RequestMetrics.MetricsCollector.constructor | src/comptext_mcp/metrics.py:16-22 | all counters and lists start empty |
| RequestMetrics.MetricsCollector.RecordRequest | src/comptext_mcp/metrics.py:24-30 | the endpoint's count and times grow by one, its errors by one exactly when flagged, and the cache counters are unchanged |
| RequestMetrics.MetricsCollector.RecordCacheHit | src/comptext_mcp/metrics.py:32-34 | one more hit, nothing else changes |
| RequestMetrics.MetricsCollector.RecordCacheMiss | src/comptext_mcp/metrics.py:36-38 | one more miss, nothing else changes |
| RequestMetrics.MetricsCollector.Reset | src/comptext_mcp/metrics.py:71-78 | every counter and list is cleared and the statistics are all zero |
| RequestMetrics.MetricsCollector.Track | src/comptext_mcp/metrics.py:85-132 | a tracked call is recorded exactly once, as an error exactly when it raised, and its outcome passes through |
| Matcher.Normalize | src/comptext_mcp/compiler/matcher.py:28-37 | the normal form is lower-case and neither starts nor ends with white space |
| Matcher.LoweredWords | src/comptext_mcp/compiler/matcher.py:37 | splitting lower-cased text gives lower-case words without white space |
| Matcher.JoinChars | src/comptext_mcp/compiler/matcher.py:37 | joining such words with single spaces gives lower-case text whose only white space is single spaces |
| Matcher.JoinEdges | src/comptext_mcp/compiler/matcher.py:37 | the joined text neither starts nor ends with white space |
| Matcher.WordPrefixAll | src/comptext_mcp/compiler/matcher.py:37 | a word without white space is read whole |
| Matcher.WordPrefixStop | src/comptext_mcp/compiler/matcher.py:37 | a word is read up to the first white space after it |
| Matcher.SplitJoinWords | src/comptext_mcp/compiler/matcher.py:37 | splitting words joined with single spaces gives the words back |
| Matcher.LowerFixed | src/comptext_mcp/compiler/matcher.py:37 | lower-casing lower-case text changes nothing |
| Matcher.NormalizeIdempotent | src/comptext_mcp/compiler/matcher.py:28-37 | normalising normalised text changes nothing |
| Matcher.DomainBonus | src/comptext_mcp/compiler/matcher.py:67-75 | the bonus is at most 1, and is 1 exactly when the bundle's domain is docs, security, devops or code and the text contains one of that domain's trigger words |
| Matcher.ScoreOf | src/comptext_mcp/compiler/matcher.py:58-75 | a bundle's result carries its id, and its score is two per keyword hit plus the domain bonus |
| Matcher.ScoreOfHits | src/comptext_mcp/compiler/matcher.py:61-65 | the hits are the bundle's keywords in their order, and a keyword is a hit exactly when its non-empty normal form occurs in the text |
| Matcher.Values | src/comptext_mcp/compiler/matcher.py:58 | the bundles are visited in the registry's order |
| Matcher.Scored | src/comptext_mcp/compiler/matcher.py:58-78 | one result per bundle |
| Matcher.ScoredAt | src/comptext_mcp/compiler/matcher.py:58-78 | the i-th result is the i-th bundle's score |
| Matcher.ResultLePreorder | src/comptext_mcp/compiler/matcher.py:80-81 | the order by descending score, then ascending id, is a total preorder |
| Matcher.ScoreBundles | src/comptext_mcp/compiler/matcher.py:40-82 | the loop computes the ranked results |
| Matcher.FoundSnoc | src/comptext_mcp/compiler/matcher.py:77-78 | each bundle adds its result exactly when its score is positive |
| Matcher.ScoreBundle | src/comptext_mcp/compiler/matcher.py:59-75 | the keyword loop computes the bundle's score |
| Matcher.ScoredMembers | src/comptext_mcp/compiler/matcher.py:58-78 | a result is scored exactly when it is the score of some bundle in the registry |
| Matcher.RankedProperties | src/comptext_mcp/compiler/matcher.py:40-82 | the results are sorted by descending score then id, and they are exactly the positive scores of the registry's bundles |
| Matcher.RankedScores | src/comptext_mcp/compiler/matcher.py:40-82 | every ranked result has a positive score between two per hit and two per hit plus one |
| Matcher.HeadIsBest | src/comptext_mcp/compiler/matcher.py:80-81 | the first result has the highest score, and the smallest id among the results with that score |
| Matcher.Confidence | src/comptext_mcp/compiler/matcher.py:111-118 | the confidence lies in [0, 1] |
| Matcher.Sevenths | src/comptext_mcp/compiler/matcher.py:118 | the capped confidence lies in [0, 1] and is exactly 1 when the raw score reaches 7 |
| Matcher.SeventhsAtLeast | src/comptext_mcp/compiler/matcher.py:117-118 | a capped confidence of at least 0.65 needs a raw score of 5 or more and is 5/7, 6/7 or 1 |
| Matcher.BestBundle | src/comptext_mcp/compiler/matcher.py:85-119 | no match exactly when nothing scores, with confidence 0; otherwise the first ranked result (`ranked[0]`): the highest score and, among equal scores, the smallest id; confidence in [0, 1] |
| Matcher.AcceptedHasTwoHits | src/comptext_mcp/compiler/matcher.py:107-119 | a confidence of at least 0.65 needs a score of at least 5, so at least two keyword hits |
| Matcher.AmbiguityPenalty | src/comptext_mcp/compiler/matcher.py:111-118 | when the runner-up is within one point the confidence is min(1, (top - 1) / 7), otherwise min(1, top / 7) |
| Canonicalize.PickProfileId | src/comptext_mcp/compiler/canonicalize.py:14-28 | the profile is one of the three required ones: audit exactly for "audit", exec exactly for "exec" after lower-casing and stripping, otherwise dev |
| Canonicalize.RenderDsl | src/comptext_mcp/compiler/canonicalize.py:31-56 | the loop computes the DSL text |
| Canonicalize.DslLinesSnoc | src/comptext_mcp/compiler/canonicalize.py:50-55 | each bundle adds one "use:" line with the sorted deltas appended |
| Canonicalize.DslOneBundle | src/comptext_mcp/compiler/canonicalize.py:44-46 | a profile and one bundle give "use:<profile>" and "use:<bundle>" on two lines |
| Canonicalize.JoinNoNewline | src/comptext_mcp/compiler/canonicalize.py:54 | joining parts without newlines gives text without newlines |
| Canonicalize.RenderDslLines | src/comptext_mcp/compiler/canonicalize.py:31-56 | the text splits into one line for the profile and one per bundle, in order, each bundle line carrying the deltas |
| Canonicalize.DeltaOrderIrrelevant | src/comptext_mcp/compiler/canonicalize.py:52-54 | deltas given in any order render the same text |
| NlCompiler.Compile | src/comptext_mcp/compiler/nl_to_comptext.py:66-92 | an error is only the missing-bundle guardrail |
| NlCompiler.CompileAccepted | src/comptext_mcp/compiler/nl_to_comptext.py:66-92 | an accepted match over a well-keyed registry is answered with the DSL of the audience's profile and the matched bundle, in the requested format |
| NlCompiler.CompileFrom | src/comptext_mcp/compiler/nl_to_comptext.py:66-67 | a registry that fails to load fails the compilation with its error |
| NlCompiler.MatchIsKey | src/comptext_mcp/compiler/nl_to_comptext.py:78-80 | in a well-keyed registry a match is always a key, so the guardrail never fires |
| NlCompiler.GuardrailUnreachable | src/comptext_mcp/compiler/nl_to_comptext.py:66-92 | compiling fails exactly when loading the registry fails |
| NlCompiler.AcceptedUsesLoadedIds | src/comptext_mcp/compiler/nl_to_comptext.py:66-85 | the DSL-only answer names the audience's profile and the matched bundle, and both exist in the loaded registry |
| NlCompiler.LoadProfiles | src/comptext_mcp/compiler/registry.py:111-117 | a loaded registry holds all three required profiles |
| NlCompiler.LowConfidenceAsks | src/comptext_mcp/compiler/nl_to_comptext.py:71-76 | with no match or confidence below 0.65 the answer is the clarifying question, alone in DSL-only mode |
| NlCompiler.ModeIgnored | src/comptext_mcp/compiler/nl_to_comptext.py:29-92 | the compilation mode does not change the answer |
| NlCompiler.OtherModesAnswerWithConfidence | src/comptext_mcp/compiler/nl_to_comptext.py:91-92 | any unknown return mode answers as dsl_plus_confidence |
| NlCompiler.ExplanationExtends | src/comptext_mcp/compiler/nl_to_comptext.py:87-92 | the explanation answer is the confidence answer followed by the explanation line |
| NlCompiler.AnswerExtends | src/comptext_mcp/compiler/nl_to_comptext.py:87-92 | the explanation format extends the confidence format by one line |
| NlCompiler.AcceptedConfidence | src/comptext_mcp/compiler/matcher.py:117-118 | an accepted confidence is 5/7, 6/7 or 1 |
| NlCompiler.AcceptedConfidenceText | src/comptext_mcp/compiler/nl_to_comptext.py:89-92 | an accepted confidence prints as 0.71, 0.86 or 1.00 |
| NlCompiler.PrintedSevenths | src/comptext_mcp/compiler/nl_to_comptext.py:89-92 | 5/7, 6/7 and 1 print with two decimals as 0.71, 0.86 and 1.00 |
| BundleRegistry.MissingProfiles | src/comptext_mcp/compiler/registry.py:111-113 | a profile is reported missing exactly when it is required and not loaded |
| BundleRegistry.LoadRegistry | src/comptext_mcp/compiler/registry.py:74-117 | the loops compute the loaded registry or its error |
| BundleRegistry.ProfilesErrSticks | src/comptext_mcp/compiler/registry.py:91-97 | a profile record without an id makes the whole load fail |
| BundleRegistry.BundlesErrSticks | src/comptext_mcp/compiler/registry.py:100-109 | a bundle record without an id makes the whole load fail |
| BundleRegistry.PutHasKey | src/comptext_mcp/compiler/registry.py:90-109 | storing a key adds that key and keeps the others |
| BundleRegistry.ProfilesOfKeys | src/comptext_mcp/compiler/registry.py:90-97 | profiles load exactly when every record has an id, and then the keys are exactly the ids |
| BundleRegistry.BundlesOfKeys | src/comptext_mcp/compiler/registry.py:99-109 | bundles load exactly when every record has an id |
| BundleRegistry.LoadSucceeds | src/comptext_mcp/compiler/registry.py:74-117 | the registry loads exactly when every profile and bundle has an id and the three required profiles are present |
| BundleRegistry.PutEntries | src/comptext_mcp/compiler/registry.py:90-109 | storing adds only the stored entry |
| BundleRegistry.ProfilesKeyed | src/comptext_mcp/compiler/registry.py:97 | every profile is stored under its own id |
| BundleRegistry.BundlesKeyed | src/comptext_mcp/compiler/registry.py:109 | every bundle is stored under its own id |
| BundleRegistry.LoadWellKeyed | src/comptext_mcp/compiler/registry.py:74-117 | a loaded registry stores everything under its own id |
| BundleRegistry.ProfilesLastWins | src/comptext_mcp/compiler/registry.py:91-97 | the last record with an id is the one kept, with its name defaulting to the id and its expansion to empty |
| BundleRegistry.BundlesLastWins | src/comptext_mcp/compiler/registry.py:100-109 | the last record with an id is kept, with domain and task defaulting to empty and keywords taken from match.keywords_any or empty |
| Validation.Dashless | src/comptext_mcp/utils.py:26 | the result has no dash and keeps every other character |
| Validation.FilterChars | src/comptext_mcp/utils.py:74 | the kept characters are exactly those of the text that pass the test |
| Validation.ValidatePageId | src/comptext_mcp/utils.py:7-32 | a page id is accepted exactly when it is not blank and, without dashes, is 32 hex digits of either case (a final newline also passes the pattern's `$`); the accepted id is the dashless text; a blank id raises "Page ID cannot be empty" |
| Validation.PageIdIdempotent | src/comptext_mcp/utils.py:7-32 | an accepted id validates to itself |
| Validation.ValidateQuery | src/comptext_mcp/utils.py:35-57 | a query is accepted exactly when it is not blank and its stripped form fits the bound; the accepted query is the stripped text; a blank query raises "Query string cannot be empty" |
| Validation.QueryIdempotent | src/comptext_mcp/utils.py:35-57 | an accepted query validates to itself |
| Validation.StripIdempotent | src/comptext_mcp/utils.py:52 | stripping twice strips once |
| Validation.Sanitize | src/comptext_mcp/utils.py:60-76 | the output keeps, in order, exactly the newlines, tabs and characters from code 32 up |
| Validation.SanitizeIdempotent | src/comptext_mcp/utils.py:60-76 | sanitising sanitised text changes nothing |
| Validation.PyPrefix | src/comptext_mcp/utils.py:94 | a slice `text[:n]` is a prefix, of length n for 0 <= n <= len, and of length len + n for a negative n within range |
| Validation.Truncate | src/comptext_mcp/utils.py:79-94 | empty or short enough text is returned unchanged; longer text is its slice up to max_length - len(suffix), then the suffix |
| Validation.TruncateLength | src/comptext_mcp/utils.py:79-94 | when the bound is at least the suffix length, the truncated text is exactly max_length long |
| Validation.TruncateNegativeBound | src/comptext_mcp/utils.py:94 | a suffix longer than the bound slices from the end: "hello" with bound 2 and "..." gives "hell..." |
| Validation.ValidateRepoName | src/comptext_mcp/utils.py:97-119 | a name is accepted exactly when it is not blank and its stripped form has only letters, digits, dot, underscore and dash; blank raises its message |
| Validation.ValidateBranchName | src/comptext_mcp/utils.py:122-144 | a branch is accepted exactly when it is not blank and its stripped form has no space, ~, ^, :, ?, * or [; blank raises its message |
| Validation.NamesIdempotent | src/comptext_mcp/utils.py:97-144 | an accepted repository or branch name validates to itself |
| Catalog.Limit | src/comptext_mcp/local_codex_client.py:178-182 | the loop keeps at least one match and at most max_results when that is positive |
| Catalog.SearchCodex | src/comptext_mcp/local_codex_client.py:153-184 | the loop computes the search: the query's error, an error while reading an entry, or the entries found |
| Catalog.SearchIsPrefix | src/comptext_mcp/local_codex_client.py:168-184 | when every entry can be read, the result is the first matches in order, as many as the limit allows |
| Catalog.ScanTake | src/comptext_mcp/local_codex_client.py:172-184 | from any point the loop appends the next matches up to the limit |
| Catalog.SearchBound | src/comptext_mcp/local_codex_client.py:153-184 | the result holds at most the limit, and only entries that match the lower-cased query in title, description or tags |
| LocalCodex.ParseModule | src/comptext_mcp/local_codex_client.py:68-88 | id, module, type and tags are copied with their defaults, and the title and description keep exactly their printable characters |
| LocalCodex.ParseIdempotent | src/comptext_mcp/local_codex_client.py:68-88 | parsing a parsed entry again changes nothing |
| LocalCodex.AllModules | src/comptext_mcp/local_codex_client.py:91-105 | one parsed entry per stored module, in order |
| LocalCodex.ModuleByName | src/comptext_mcp/local_codex_client.py:108-122 | exactly the entries of the named module, in order |
| LocalCodex.ModulesByTag | src/comptext_mcp/local_codex_client.py:213-227 | exactly the entries carrying the tag, in order |
| LocalCodex.ModulesByType | src/comptext_mcp/local_codex_client.py:230-244 | exactly the entries of the type, in order |
| LocalCodex.FirstWithId | src/comptext_mcp/local_codex_client.py:145-146 | the first stored module with the id, or none when no module has it |
| LocalCodex.PageContent | src/comptext_mcp/local_codex_client.py:125-150 | an empty id raises the empty-id error; an unknown id raises "Module not found"; otherwise the first matching module's content, sanitised |
| LocalCodex.FirstEntry | src/comptext_mcp/local_codex_client.py:206-208 | a found entry is in the list and has the id; none means no entry has it |
| LocalCodex.PageById | src/comptext_mcp/local_codex_client.py:187-210 | an empty id raises the empty-id error; a found entry has the id and is one of the parsed modules |
| LocalCodex.PageByIdAgrees | src/comptext_mcp/local_codex_client.py:125-210 | the entry and the content lookups succeed for the same ids, find the same module and fail with the same error |
| LocalCodex.FirstEntryParsed | src/comptext_mcp/local_codex_client.py:187-210 | searching the parsed entries finds the parse of the first stored module with the id |
| LocalCodex.SearchCodex | src/comptext_mcp/local_codex_client.py:153-184 | the search over the parsed entries |
| LocalCodex.SearchResult | src/comptext_mcp/local_codex_client.py:153-184 | an invalid query raises its validation error; otherwise the result is the first entries matching the lower-cased query, up to the limit |
| Notion.PlainText | src/comptext_mcp/notion_client.py:70 | a rich-text item without plain_text contributes ""; an item that is not an object raises |
| Notion.ExtractText | src/comptext_mcp/notion_client.py:66-71 | empty rich text gives ""; otherwise a list is read only when every item can be read, and the result holds only printable characters |
| Notion.ExtractTextAppend | src/comptext_mcp/notion_client.py:66-71 | the text of two rich-text lists joined is the two texts joined |
| Notion.ExtractTextOf | src/comptext_mcp/notion_client.py:70-71 | the text of a non-empty list is its items' plain texts concatenated and sanitised |
| Notion.SanitizeAppend | src/comptext_mcp/notion_client.py:71 | sanitising distributes over concatenation |
| Notion.Prop | src/comptext_mcp/notion_client.py:87 | a property is read only from a page with properties |
| Notion.TextProperty | src/comptext_mcp/notion_client.py:89-92 | a missing property is the error path; a property without the key gives ""; with the key it is the extracted, sanitised text of that value |
| Notion.SelectProperty | src/comptext_mcp/notion_client.py:93-95 | no property or an empty selection gives None; otherwise the selection's name |
| Notion.MultiSelectProperty | src/comptext_mcp/notion_client.py:96-97 | no multi_select gives an empty list; a list of options gives one name per option, in order (`ms.get("name")`, None when missing), and fails exactly when an option is not an object; an empty string or object gives an empty list, any other value fails |
| Notion.UrlProperty | src/comptext_mcp/notion_client.py:98-99 | without the property the URL is None; otherwise it is the property's "url" value, None when missing |
| Notion.PropertyValue | src/comptext_mcp/notion_client.py:74-104 | an unknown type or an error gives None; each known type gives its own reader's value: text (None after an error) for title and rich_text, the selection's name, the list of option names, the URL |
| Notion.TextReadsBack | src/comptext_mcp/notion_client.py:89-92 | a title or rich-text property of one run of printable text reads back as that text |
| Notion.SelectReadsBack | src/comptext_mcp/notion_client.py:93-95 | a selection reads back as its option's name |
| Notion.MultiSelectReadsBack | src/comptext_mcp/notion_client.py:96-97 | a multi-selection reads back as its options' names, in order |
| Notion.UrlReadsBack | src/comptext_mcp/notion_client.py:98-99 | a URL property reads back as its value |
| Notion.ParsePage | src/comptext_mcp/notion_client.py:107-136 | a page parses exactly when it is an object with id and url, and its title, description, module and type are the property values of Titel, Beschreibung, Modul and Typ |
| Notion.PrefixedText | src/comptext_mcp/notion_client.py:153-168 | a prefixed block's text starts with its prefix |
| Notion.CodeText | src/comptext_mcp/notion_client.py:163-166 | a code block is fenced: it starts with three backticks and ends with a newline and three backticks |
| Notion.BlockToText | src/comptext_mcp/notion_client.py:139-170 | a block that is not an object raises; an unknown type gives ""; headings, list items and quotes start with their markdown prefix; code is fenced |
| Notion.BlockKept | src/comptext_mcp/notion_client.py:151-168 | every block type other than paragraph always renders non-empty text |
| Notion.BlocksToText | src/comptext_mcp/notion_client.py:173-183 | the page renders exactly when every block renders |
| Notion.JoinKeptAppend | src/comptext_mcp/notion_client.py:183 | empty texts are dropped, and non-empty ones are separated by a blank line |
| Notion.BlocksAppend | src/comptext_mcp/notion_client.py:173-183 | the text of two block lists is their texts separated by a blank line, with an empty side dropped |
| Notion.JoinOfNonEmpty | src/comptext_mcp/notion_client.py:183 | joining non-empty texts gives "" only for no texts |
| Notion.Backoffs | src/comptext_mcp/notion_client.py:53 | the waits are RETRY_DELAY * BACKOFF_FACTOR ** k for k from 0 |
| Notion.RetryOnFailure | src/comptext_mcp/notion_client.py:37-63 | with no allowed call the result is None; otherwise at most max_retries calls, all but the last raising API errors; the first value is returned; a non-API error raises "Unexpected error"; max_retries API errors raise "Failed after"; each retry waits its backoff |
| Notion.TotalWait | src/comptext_mcp/notion_client.py:53-55 | n waits add up to 2^n - 1 seconds |
| Notion.PageContentAttempt | src/comptext_mcp/notion_client.py:238 | an invalid page id fails the call with the validator's message |
| Notion.GetPageContent | src/comptext_mcp/notion_client.py:223-240 | an invalid id raises "Unexpected error" with its message after one call and no wait; a valid id whose first response renders returns that text after one call |
| Notion.GetPageById | src/comptext_mcp/notion_client.py:277-294 | an invalid id raises "Unexpected error" after one call; a valid id whose first response parses returns that page after one call |
| Notion.QueryDatabase | src/comptext_mcp/notion_client.py:186-202 | a first response with results returns its parsed pages at once; three API failures raise "Failed after 3 retries" after waiting 1 and 2 seconds |
| Notion.TagNames | src/comptext_mcp/notion_client.py:266 | the tags can be joined exactly when they are present and every one is a string; the names are then the tags' strings, in order |
| Notion.PageView | src/comptext_mcp/notion_client.py:264-266 | a page can be searched exactly when its tags can be joined |
| Notion.SearchCodex | src/comptext_mcp/notion_client.py:243-274 | the search over the loaded pages |
| Notion.SearchResult | src/comptext_mcp/notion_client.py:258-274 | a valid query gives the first matching pages up to the limit when every page's tags can be joined, and raises when the first page's tags cannot |
| YamlCodex.FirstById | src/comptext_mcp/yaml_client.py:106-109 | the first module whose id is the upper-cased name, or none when no module has it |
| YamlCodex.FirstByName | src/comptext_mcp/yaml_client.py:111-114 | the first module whose lower-cased name contains the lower-cased query, or none |
| YamlCodex.ModuleByName | src/comptext_mcp/yaml_client.py:92-117 | a module whose id is the upper-cased name wins; otherwise a module whose name contains the name ignoring case; none exactly when neither exists |
| YamlCodex.Bullets | src/comptext_mcp/yaml_client.py:156-159 | the examples section is empty exactly when there are no examples |
| YamlCodex.Render | src/comptext_mcp/yaml_client.py:151-161 | a command page starts with its id as a heading, ends with its description when there are no examples, and otherwise continues with "**Beispiele:**" |
| YamlCodex.BulletsContain | src/comptext_mcp/yaml_client.py:158-159 | every example is listed as a bullet |
| YamlCodex.RenderListsExamples | src/comptext_mcp/yaml_client.py:151-161 | every example of a command appears on its page |
| YamlCodex.FirstCommand | src/comptext_mcp/yaml_client.py:149-150 | the first command matching the full id or the last dotted part (no earlier command matches), or none when no command matches |
| YamlCodex.PageContent | src/comptext_mcp/yaml_client.py:124-167 | an id without a dot raises "Invalid command ID format"; otherwise the module is the one found by the text before the dot ("Module not found" when none), the page is the rendering of that module's first command matching the id ("Command not found" when none), and it succeeds exactly when both are found |
| YamlCodex.CommandOfModule | src/comptext_mcp/yaml_client.py:149 | a command of a module is a command of the codex |
| YamlCodex.CommandIds | src/comptext_mcp/yaml_client.py:215 | every command hit's id is among the ids of the results |
| YamlCodex.CommandIdsAppend | src/comptext_mcp/yaml_client.py:215 | the ids of joined results are the joined ids |
| YamlCodex.ScanExamples | src/comptext_mcp/yaml_client.py:213-223 | the example loop computes the example step |
| YamlCodex.ScanCommands | src/comptext_mcp/yaml_client.py:199-223 | the command loop computes the command steps |
| YamlCodex.SearchCodex | src/comptext_mcp/yaml_client.py:170-225 | the search loop computes the search |
| YamlCodex.ExamplesAfterHit | src/comptext_mcp/yaml_client.py:213-223 | once a command is among the hits, its examples add nothing |
| YamlCodex.ExamplesAddOnce | src/comptext_mcp/yaml_client.py:212-223 | the examples add the command at most once, and only when it is not already a hit |
| YamlCodex.CommandAddsOne | src/comptext_mcp/yaml_client.py:199-223 | a matching command is added once as a command hit; otherwise it is added at most once, through an example, and only when not yet a hit |
| YamlCodex.ExamplesKeepModuleHits | src/comptext_mcp/yaml_client.py:212-223 | examples never add module hits |
| YamlCodex.CommandsKeepModuleHits | src/comptext_mcp/yaml_client.py:199-223 | commands never add module hits |
| YamlCodex.ModulesFromModuleHits | src/comptext_mcp/yaml_client.py:186-223 | the module hits are the matching modules, in order |
| YamlCodex.ModuleStepModuleHits | src/comptext_mcp/yaml_client.py:188-196 | a module adds a module hit exactly when its name or description contains the query |
| YamlCodex.SearchModuleHits | src/comptext_mcp/yaml_client.py:182-223 | the search's module hits are exactly the matching modules in order |
| YamlCodex.SearchIsPrefix | src/comptext_mcp/yaml_client.py:225 | the result is a prefix of all hits, at most max_results long |
| YamlCodex.PageByIdAsWritten | src/comptext_mcp/yaml_client.py:242-260 | a module page's type is the module's own type when it has one, else "module" |
| YamlCodex.PageTypeOverridden | src/comptext_mcp/yaml_client.py:245-249 | a module of type "Core" comes back with type "Core", not "module" |
| YamlCodex.PageById | src/comptext_mcp/yaml_client.py:232-264 | a page's type is "module" exactly for a module page; a module page is the module found by name; a command page carries the id and its content; none exactly when neither a module nor a command is found |
| YamlCodex.ModulesByTag | src/comptext_mcp/yaml_client.py:267-283 | exactly the modules carrying the tag, in order |
| YamlCodex.ModulesByType | src/comptext_mcp/yaml_client.py:286-302 | exactly the modules of the type, in order |
| YamlCodex.AddDistinct | src/comptext_mcp/yaml_client.py:317 | adding to a list without repeats keeps it without repeats and adds the element to its set |
| YamlCodex.AddAll | src/comptext_mcp/yaml_client.py:318-320 | adding tags keeps the list without repeats, its set grown by the tags |
| YamlCodex.DistinctPermutation | src/comptext_mcp/yaml_client.py:326-328 | a reordering of a list without repeats has no repeats and the same elements |
| YamlCodex.Values | src/comptext_mcp/yaml_client.py:326 | the present types, one per entry |
| YamlCodex.Somes | src/comptext_mcp/yaml_client.py:326 | the types wrapped back, one per entry |
| YamlCodex.SortedSomes | src/comptext_mcp/yaml_client.py:326 | present types come out without repeats, the same set, sorted |
| YamlCodex.SortTypes | src/comptext_mcp/yaml_client.py:326 | sorting fails exactly when a missing type is mixed with others; a result has the same types without repeats, sorted when none is missing |
| YamlCodex.Statistics | src/comptext_mcp/yaml_client.py:305-333 | fails exactly when a missing type must be sorted with others; otherwise the version (default "unknown"), the numbers of modules and commands, the distinct types (in string order when none is missing) and the distinct tags sorted, with their count |
| GitHub.KeyOrders | src/comptext_mcp/github_client.py:63-178 | ordering by a text key, ascending or descending, is a total preorder |
| GitHub.FirstLine | src/comptext_mcp/github_client.py:58 | the first line is the message up to its first newline, or the whole message when it has none |
| GitHub.BranchEntry | src/comptext_mcp/github_client.py:50-60 | a branch keeps its name and commit sha; the author is the commit author's name or "Unknown"; the date is present exactly when there is an author; the message is cut at its first newline |
| GitHub.SortBranches | src/comptext_mcp/github_client.py:62-63 | the branches are reordered, newest date first, with a missing date counted as "" |
| GitHub.UndatedLast | src/comptext_mcp/github_client.py:63 | every branch after an undated one is undated too |
| GitHub.DependabotByPrefix | src/comptext_mcp/github_client.py:80 | an author is Dependabot exactly when the login starts with "dependabot" |
| GitHub.Info | src/comptext_mcp/github_client.py:68-81 | a pull request's summary keeps its number, draft flag, mergeability and author, and flags Dependabot authors |
| GitHub.AuditRepository | src/comptext_mcp/github_client.py:37-94 | the audit names the repository and default branch, lists the sorted branches and one summary per open pull request, counts them, and counts the mergeable non-drafts and the drafts, which together do not exceed the open pull requests |
| GitHub.MergePullRequest | src/comptext_mcp/github_client.py:99-152 | an error fetching the repository raises; a draft is skipped; a merge is attempted only for a mergeable non-draft and reports the merge call's result; not_mergeable means the request was not mergeable; github_error means fetching the request or merging it raised |
| GitHub.MergeSuccess | src/comptext_mcp/github_client.py:116-144 | a merge succeeds exactly when the request is a mergeable non-draft and the merge call merged it |
| GitHub.Candidates | src/comptext_mcp/github_client.py:173-178 | the candidates are the open pull requests, without drafts when they are skipped, oldest first |
| GitHub.OldestFirst | src/comptext_mcp/github_client.py:178 | the requests are reordered by creation date, oldest first |
| GitHub.CandidatesNoDrafts | src/comptext_mcp/github_client.py:174-175 | skipping drafts leaves no draft among the candidates |
| GitHub.MergeInOrder | src/comptext_mcp/github_client.py:188-200 | each candidate's merge result is recorded in order; the loop stops early exactly after a not_mergeable or github_error result, and otherwise handles every candidate |
| GitHub.AutoMergePrs | src/comptext_mcp/github_client.py:155-209 | a failed audit raises "Failed to auto-merge"; a report names the repository, method and number of candidates, records each merge in order, stops at the first unmergeable request with its reason, and counts successes, failures and skipped drafts, successes and failures adding up to all results |
| GitHub.GhCommand | src/comptext_mcp/github_client.py:233 | the gh command patches the repository's default branch to the new name |
| GitHub.CurlCommand | src/comptext_mcp/github_client.py:234-237 | the curl command addresses the repository's API URL with the new default branch as JSON body |
| GitHub.WebSteps | src/comptext_mcp/github_client.py:238-241 | the steps open the repository's branch settings and select the new branch |
| GitHub.DefaultBranchCommands | src/comptext_mcp/github_client.py:212-243 | the reply names the repository and the new branch, with the gh, curl and web instructions for that branch |

## Left out

- File I/O, loading and caching (`lru_cache`, `CodexCache`, `clear_cache`): the models take the file's parsed contents as input.
- XML, JSON and YAML decoding: parsed documents are inputs. `Json` covers only the value types the core reads.
- Missing required keys in the YAML codex: the Python code raises `KeyError` there. The model's `Module`/`Command` records always carry them.
- Non-scalar values in f-strings: their Python `repr` is an opaque placeholder string (`PyStrOf`).
- String case conversion: `lower()`/`upper()` are modelled on ASCII letters only.
- HTTP transport (httpx), `asyncio.sleep` and the clock: timestamps and durations are parameters, and retry delays are returned as schedules rather than slept.
- WebSocket serving, connection sets, concurrency and broadcast fan-out: the model keeps the event trace a task produces. Exceptions swallowed in the broadcast callback are not modelled.
- `uuid` task identifiers: the id is a parameter.
- The Notion HTTP API and its database filters: query results are inputs, and the model covers the page shaping and retry policy around them.
- MobileSchema.Rounded: a float confidence is kept as given; `round(c, 2)` on a binary float is not modelled.
- MobileSchema.ToComptext: a float confidence is printed unrounded, as `Rounded` leaves it.
- MobileSchema.RoundTrip: a float confidence comes back unrounded, as `Rounded` leaves it.
- Agent.ExecuteMemory: follows the corrected memory `AgentFormat.AddToContext` (see Findings): with `context_memory_size = 0` it keeps no screen, where the program as written keeps every screen.
- Agent.LoopMemory: keeps no screen at `context_memory_size = 0`, where the program as written keeps every screen (the corrected memory, as for `Agent.ExecuteMemory`).
- Agent.AdvanceMemory: keeps no screen at `context_memory_size = 0`, where the program as written keeps every screen (the corrected memory, as for `Agent.ExecuteMemory`).
- Agent.StepMemory: keeps no screen at `context_memory_size = 0`, where the program as written keeps every screen (the corrected memory, as for `Agent.ExecuteMemory`).
- Agent.VerifyMemory: keeps no screen at `context_memory_size = 0`, where the program as written keeps every screen (the corrected memory, as for `Agent.ExecuteMemory`).
- Agent.StepIs: keeps no screen at `context_memory_size = 0`, where the program as written keeps every screen (the corrected memory, as for `Agent.ExecuteMemory`).
- Agent.RunIs: keeps no screen at `context_memory_size = 0`, where the program as written keeps every screen (the corrected memory, as for `Agent.ExecuteMemory`).
- Agent.MobileAgent.AddToContext: keeps no screen at `context_memory_size = 0`, where the program as written keeps every screen (the corrected memory, as for `Agent.ExecuteMemory`).
- Agent.MobileAgent.Execute: keeps no screen at `context_memory_size = 0`, where the program as written keeps every screen (the corrected memory, as for `Agent.ExecuteMemory`).
- Agent.MobileAgent.ExecuteWith: keeps no screen at `context_memory_size = 0`, where the program as written keeps every screen (the corrected memory, as for `Agent.ExecuteMemory`).
- Agent.MobileAgent.RunStep: keeps no screen at `context_memory_size = 0`, where the program as written keeps every screen (the corrected memory, as for `Agent.ExecuteMemory`).
- Agent.MobileAgent.Update: keeps no screen at `context_memory_size = 0`, where the program as written keeps every screen (the corrected memory, as for `Agent.ExecuteMemory`).
- Agent.MobileAgent.Replied: keeps no screen at `context_memory_size = 0`, where the program as written keeps every screen (the corrected memory, as for `Agent.ExecuteMemory`).
- Agent.MobileAgent.VerifyStep: keeps no screen at `context_memory_size = 0`, where the program as written keeps every screen (the corrected memory, as for `Agent.ExecuteMemory`).
- WebSocket.WsRunAgrees: keeps no screen at `context_memory_size = 0`, where the program as written keeps every screen (the corrected memory, as for `Agent.ExecuteMemory`).
- WebSocket.TracedLoopIsLoop: keeps no screen at `context_memory_size = 0`, where the program as written keeps every screen (the corrected memory, as for `Agent.ExecuteMemory`).
- WebSocket.WebSocketMobileAgent.AddToContext: keeps no screen at `context_memory_size = 0`, where the program as written keeps every screen (the corrected memory, as for `Agent.ExecuteMemory`).
- WebSocket.WebSocketMobileAgent.Execute: keeps no screen at `context_memory_size = 0`, where the program as written keeps every screen (the corrected memory, as for `Agent.ExecuteMemory`).
- WebSocket.WebSocketMobileAgent.ExecuteWithEvents: keeps no screen at `context_memory_size = 0`, where the program as written keeps every screen (the corrected memory, as for `Agent.ExecuteMemory`).
- WebSocket.WebSocketMobileAgent.RunLoop: keeps no screen at `context_memory_size = 0`, where the program as written keeps every screen (the corrected memory, as for `Agent.ExecuteMemory`).
- WebSocket.WebSocketMobileAgent.RunStep: keeps no screen at `context_memory_size = 0`, where the program as written keeps every screen (the corrected memory, as for `Agent.ExecuteMemory`).
- WebSocket.WebSocketMobileAgent.ExecuteTask: keeps no screen at `context_memory_size = 0`, where the program as written keeps every screen (the corrected memory, as for `Agent.ExecuteMemory`).
- WebSocket.WebSocketMobileAgent.Counted: keeps no screen at `context_memory_size = 0`, where the program as written keeps every screen (the corrected memory, as for `Agent.ExecuteMemory`).
- WebSocket.WebSocketMobileAgent.Update: keeps no screen at `context_memory_size = 0`, where the program as written keeps every screen (the corrected memory, as for `Agent.ExecuteMemory`).
- WebSocket.WebSocketMobileAgent.Parsed: keeps no screen at `context_memory_size = 0`, where the program as written keeps every screen (the corrected memory, as for `Agent.ExecuteMemory`).
- WebSocket.WebSocketMobileAgent.Dispatch: keeps no screen at `context_memory_size = 0`, where the program as written keeps every screen (the corrected memory, as for `Agent.ExecuteMemory`).
- WebSocket.WebSocketMobileAgent.Act: keeps no screen at `context_memory_size = 0`, where the program as written keeps every screen (the corrected memory, as for `Agent.ExecuteMemory`).
- WebSocket.WebSocketMobileAgent.VerifyStep: keeps no screen at `context_memory_size = 0`, where the program as written keeps every screen (the corrected memory, as for `Agent.ExecuteMemory`).
- AgentReply.IsWordChar: matches `\w` on ASCII letters, digits and `_`, and `\s` on ASCII white space; Python's patterns also match other Unicode letters, digits and spaces, so an action word with such characters is cut short or missed where the program reads it.
- AgentReply.ActionMatchAt: matches `\w` on ASCII letters, digits and `_`, and `\s` on ASCII white space; Python's patterns also match other Unicode letters, digits and spaces, so an action word with such characters is cut short or missed where the program reads it.
- AgentReply.ActionWordFrom: matches `\w` on ASCII letters, digits and `_`, and `\s` on ASCII white space; Python's patterns also match other Unicode letters, digits and spaces, so an action word with such characters is cut short or missed where the program reads it.
- AgentReply.ParseAction: matches `\w` on ASCII letters, digits and `_`, and `\s` on ASCII white space; Python's patterns also match other Unicode letters, digits and spaces, so an action word with such characters is cut short or missed where the program reads it.
- PyStr.IsDigit: matches `\d` (and `int()` accepts digits) among ASCII `0`-`9` only; Python also accepts other Unicode decimal digits, so bounds written with them parse in the program and fail in the model.
- UiParser.MatchBounds: matches `\d` (and `int()` accepts digits) among ASCII `0`-`9` only; Python also accepts other Unicode decimal digits, so bounds written with them parse in the program and fail in the model.
- UiParser.MatchBoundsText: matches `\d` (and `int()` accepts digits) among ASCII `0`-`9` only; Python also accepts other Unicode decimal digits, so bounds written with them parse in the program and fail in the model.
- Json.ParseFloatStr: the spellings `inf`, `infinity` and `nan` (any case, optionally signed), which Python's `float()` accepts, give no value: they name no real number, so a wait of that many seconds fails in the model where the program sleeps forever (infinity) or not at all (NaN).
- AgentDispatch.PlanWait: a seconds value spelled `inf`, `infinity` or `nan` is refused as a failed tap, through `Json.ParseFloatStr` above.
- Json.BodyDigits: accepts ASCII `0`-`9` only; Python's `int()` also accepts other Unicode decimal digits, so such a string converts in the program and fails in the model.
- Floating point: Python floats are modelled as exact reals or integers, with no binary rounding, in `Ollama` (the token reduction and metrics), `AgentTokenMetrics` (rates, costs and averages), `RequestMetrics` (hit rate and response-time averages), `Screenshot` (timestamps), `WebSocket.PercentScaled` and the progress lemmas built on it, and `Matcher.Sevenths` (the confidence `raw / 7.0`). The proved bounds and orderings hold for the exact values; the program's rounded results can differ in the last bits.
- MobileSchema.TokenReductionOf: the percentage is an exact real and is not rounded.
- NlCompiler.Fixed2: rounds half up on exact reals, not on binary floats.
- Screenshot annotation with PIL (`capture_with_annotations`), `_get_image_dimensions`, base64 file reads and screenshot file naming: image processing and the file system are outside the model.
- AgentTokenMetrics report rendering (`get_comparison_report`) and CSV export (`export_csv`): text formatting for humans and files.
- Ollama request payload building for `chat` and `chat_stream` (ollama_client.py:109-146 and 182-193), `create_ollama_client`, and `__aenter__`/`__aexit__`: these only assemble HTTP requests or manage the connection.
- `MobileAgent.initialize`, `run_mobile_task` and the timing fields: device connection and wall-clock time.
- DroidRunWrapper adb plumbing (`_adb_command`, `_adb_shell`): the shell result is an oracle parameter.
- `run_websocket_server` and `main`: process entry points.
- Prometheus metrics, the MCP server entry point, the CLI, the REST wrapper, the MCP tool registrations, the examples and the logging configuration are not part of this model.
- `track_performance` timing and `uptime`/`start_time` in `get_stats`: the elapsed time is a parameter.

## Findings

| source | as written | input that shows it | evidently intended | confidence | as-written member | corrected member |
|---|---|---|---|---|---|---|
| src/comptext_mcp/yaml_client.py:246-249 | the module page is built as `{"type": "module", **module}`, so a module's own `type` field overrides the page-type marker | a module whose YAML entry has `type: Core`; `get_page_by_id` returns a page of type "Core" | a module page is always marked "module" | high, not executed | YamlCodex.PageTypeOverridden | YamlCodex.PageById |
| src/comptext_mcp/mobile_agent/agents/mobile_agent.py:474-480 | the memory is trimmed to `lst[-max_size:]`, and `lst[-0:]` is the whole list | `context_memory_size = 0`: every new screen is kept and the memory grows without bound | keep only the newest `max(size, 0)` screens, none for size 0 | high, not executed | AgentFormat.ZeroSizeKeepsAll | AgentFormat.AddToContext |
