# lolapy-lite-agent in Dafny

This project models the core of lolapy-lite-agent, a small Python framework for chat assistants built on OpenAI chat completions. It covers the framework from the prompt template down to the streamed answer:

- **Records.** A chat lead (`ChatLead`) and an agent job (`AgentJob`, in its lite form and its assistant form).
- **Stores.** Two Redis-backed stores:
  - the history, one Redis list of JSON messages per lead;
  - the chat state, one Redis hash per lead.
  - Both come in the lite form and in the assistant form. Redis itself is modelled as a map from keys to lists (`LRANGE`, `LTRIM`, `RPUSH`) and a map from keys to hashes (`HSET`, `HGETALL`, `DEL`, `KEYS prefix:*`).
- **Message constructors.** The chat-message dictionaries, with an encoder and a decoder that are proved to be inverses.
- **Handlebars helpers.** The helpers handed to the template engine.
- **PML builder.** The HTML-like prompt document (PML = prompt markup language) is reduced to a plain prompt:
  - the settings are read;
  - the system tags and the comments are removed;
  - the plugins are run;
  - the text is cleaned with three regular expressions and a strip.
- **Function plugin.** It turns each `<function>` element into an OpenAI function schema.
- **Prompt compiler.** It builds the template context from the stores and the job, renders the template, and compiles the rendered document.
- **Lite agent (`LolaAgent`).** For a job it records the user message, compiles the prompt, requests a stream, and forwards its chunks. It also folds a stream into one response.
- **Three front ends that drive the agent:**
  - the controller (`AgentController`);
  - the lite plugin (`LolaPlugin`);
  - the message gateway (`LolaMessageGateway`).
  - Each runs a first turn. If that turn asks for a function call, each records the call and a response and runs a continuation turn without the user message.

**Form of the model.**
- Objects whose fields the source updates are classes whose methods state their whole new state: the stores, the builder, the plugins, the agent, the controller, the lite plugin and the gateway.
- Pure logic is functions and lemmas: messages, helpers, text clean-up, schema building, stream folding.

**What stands outside the model.** These are parameters or are left out:
- the OpenAI service;
- the template engine and the HTML parser;
- `json.dumps` and `json.loads`;
- the lead hash;
- the agent's blending of a message into its context.

The service is a `Script`:
- whether connecting times out;
- then the events the stream delivers: chunks, the moment another task raises the interrupt flag, a chunk time-out, the end of the stream, and cancellation.

**The ghost log.** The agent keeps a log of its `process` calls. Each entry holds the job, the entries and state it saw, the script and the result. An invariant (`Faithful`) says that every logged result is what `ProcessTurn` gives for those inputs. Lemmas then show that each front end's exchange is exactly the two-pass function that specifies it:
- `Controller.ExchangeIsTwoPass`;
- `Plugin.StreamIsPluginStream`;
- `Gateway.GatewayStreamIsLogged`.

These front ends run over the corrected definitions of the three Findings below: `LiteAgent.LolaAgent.Process` reads a missing `new_state` as None, the controller is constructed without `redis_url`, and `/state set` goes through `Controller.StateAssignment`. As written, every lite `process` call raises AttributeError once the user message is recorded, and no controller can be constructed at all.

## Model

| member | source | states |
|---|---|---|
| PyValues.OrEmpty | lolapy_lite_agent/prompt_compiler.py:30-35 | `x or {}`: a missing dictionary reads as the empty one, a present one as itself |
| PyValues.Get | lolapy_lite_agent/agents/lola.py:87-89 | `d.get(key, default)`: the stored value when the key is present, the default otherwise |
| PyValues.StrOr | lolapy/assistant/gateway/message_gateway.py:134 | `s or default`: a non-empty string is kept; None and "" give the default |
| PyValues.OptStr | lolapy/assistant/agents/lola/utils.py:61-67 | an optional name as JSON: None is null and nothing else is |
| PyValues.NumberOf | lolapy/assistant/pml/handlebars_helpers.py:23 | a boolean compares as 1 or 0 and an integer as itself; no other value is a number |
| PyValues.PyEqReflexive | lolapy/assistant/pml/handlebars_helpers.py:23 | every value is `==` to itself, nested lists and dictionaries included |
| PyValues.PyEqSymmetric | lolapy/assistant/pml/handlebars_helpers.py:23 | `a == b` implies `b == a`, nested values included |
| PyValues.BoolsAreNumbers | lolapy/assistant/pml/handlebars_helpers.py:23 | `True == 1`, `False == 0` and `[False] == [0]` hold; `"1" == 1`, `None == False` and `True == 2` do not |
| PyValues.FilterTruthy | lolapy_lite_agent/history/history_redis_provider.py:30 | the kept entries are all truthy, come from the list and are no more numerous |
| PyValues.FilterTruthyKeepsTruthy | lolapy_lite_agent/history/history_redis_provider.py:30 | every truthy entry of the list is kept |
| PyValues.FilterTruthyAppend | lolapy_lite_agent/history/history_redis_provider.py:30 | filtering a list with one more entry adds that entry exactly when it is truthy |
| PyValues.FilterTruthyOfTruthy | lolapy_lite_agent/history/history_redis_provider.py:30 | a list of truthy entries passes the filter unchanged |
| PyStrings.LeadingSpace | lolapy_lite_agent/pml/pml_builder.py:56 | the leading run of whitespace is maximal |
| PyStrings.TrailingSpace | lolapy_lite_agent/pml/pml_builder.py:56 | the trailing run of whitespace is maximal |
| PyStrings.Strip | lolapy_lite_agent/pml/pml_builder.py:56 | `str.strip()`: a slice between two whitespace runs; neither end is whitespace; empty exactly for all-whitespace text |
| PyStrings.StripOfUnpadded | lolapy_lite_agent/pml/pml_builder.py:56 | text with no whitespace at either end is stripped to itself |
| PyStrings.LowerChar | lolapy_lite_agent/pml/function_plugin.py:37 | ASCII capitals are lowered; every other character is kept |
| PyStrings.Lower | lolapy_lite_agent/pml/function_plugin.py:37 | lowering keeps the length and lowers each character |
| PyStrings.IsTrueWordCases | lolapy_lite_agent/pml/function_plugin.py:37 | `.lower() == 'true'` holds exactly for the 16 spellings of "true" in any case |
| PyStrings.IndexOf | lolapy/assistant/state/state_redis_provider.py:18-31 | the first occurrence of a character, or None exactly when it is absent |
| PyStrings.Split | lolapy_lite_agent/pml/function_plugin.py:41-42 | `split(',')` gives at least one piece and no piece holds the separator |
| PyStrings.JoinSplit | lolapy_lite_agent/pml/function_plugin.py:41-42 | joining the pieces back with the separator gives the text again |
| PyStrings.SplitCount | lolapy_lite_agent/pml/function_plugin.py:41-42 | there is one more piece than the text has separators |
| PyStrings.ParseInt | lolapy_lite_agent/agents/lola.py:89 | `int(s)` fails only with a ValueError naming the text |
| PyStrings.ParseIntDecimal | lolapy_lite_agent/agents/lola.py:89 | "10" parses as 10 |
| PyStrings.ParseIntSigned | lolapy_lite_agent/agents/lola.py:89 | "-3" parses as -3 |
| PyStrings.ParseIntRejectsWords | lolapy_lite_agent/agents/lola.py:89 | "ten" is a ValueError |
| Records.NewLead | lolapy_lite_agent/chat_lead.py:6-15 | a new lead's token is its id; tenant and assistant are kept; no metadata, no signature |
| Records.LiteJob | lolapy_lite_agent/nlp_job.py:7-13 | the prompt is the given one when non-empty, else the lite default; no `new_state` attribute; the other fields are kept |
| Records.AssistantJob | lolapy/assistant/nlp_job.py:7-14 | the same defaulting with the assistant default prompt; it carries `new_state` |
| RedisLists.StopIndex | lolapy_lite_agent/history/history_redis_provider.py:38-49 | the stop index of LRANGE/LTRIM is always below the list length |
| RedisLists.LRange | lolapy_lite_agent/history/history_redis_provider.py:44 | LRANGE returns a contiguous slice of the list |
| RedisLists.LRangeAll | lolapy_lite_agent/history/history_redis_provider.py:27 | `LRANGE key 0 -1` is the whole list |
| RedisLists.LastElements | lolapy_lite_agent/history/history_redis_provider.py:49 | `LRANGE key -count -1`: the newest count entries for count > 0; the whole list for 0; the list without its oldest -count entries for count < 0 |
| RedisLists.TrimFromStart | lolapy_lite_agent/history/history_redis_provider.py:38 | `LTRIM key 0 k` keeps the first k + 1 entries (for negative k, all but the last -k - 1) |
| History.Appended | lolapy_lite_agent/history/history_redis_provider.py:17-20 | pushing onto one key extends that list by exactly the pushed entries; every other list and key stays |
| History.RedisHistoryProvider.constructor | lolapy_lite_agent/history/history_redis_provider.py:9-15 | the lite store uses prefix "h" and starts empty |
| History.RedisHistoryProvider.WithPrefix | lolapy/assistant/history/history_redis_provider.py:10-16 | the assistant store uses the given prefix and starts empty |
| History.RedisHistoryProvider.Key | lolapy_lite_agent/history/history_redis_provider.py:14-15 | the key is `<prefix>:<token>` |
| History.RedisHistoryProvider.AppendToHistory | lolapy_lite_agent/history/history_redis_provider.py:17-23 | RPUSH: the entry goes to the end of this lead's list and nothing else changes |
| History.RedisHistoryProvider.GetHistory | lolapy_lite_agent/history/history_redis_provider.py:25-32 | the whole list filtered by FilterTruthy: every returned entry is truthy, every truthy entry is kept (FilterTruthyKeepsTruthy), in order (FilterTruthyAppend), and a list of truthy entries comes back whole |
| History.RedisHistoryProvider.ClearHistory | lolapy_lite_agent/history/history_redis_provider.py:35-40 | a truthy `keep` trims to LRANGE 0 keep (a key left empty is removed); None or 0 deletes the list |
| History.RedisHistoryProvider.GetHistorySlice | lolapy_lite_agent/history/history_redis_provider.py:42-45 | the slice is a contiguous part of the lead's list |
| History.RedisHistoryProvider.GetLastMessages | lolapy_lite_agent/history/history_redis_provider.py:47-50 | the newest count entries for count > 0; the whole list for count 0 |
| History.RedisHistoryProvider.CloseConversation | lolapy_lite_agent/history/history_redis_provider.py:52-53 | always NotImplementedError |
| History.KeysSeparateLeads | lolapy_lite_agent/history/history_redis_provider.py:14-15 | leads with different tokens never share a history key |
| History.AppendedIsNewest | lolapy_lite_agent/history/history_redis_provider.py:47-50 | an appended entry is the last one the window of the newest messages shows |
| History.AppendTruthyShowsInHistory | lolapy_lite_agent/history/history_redis_provider.py:25-32 | a truthy appended entry shows up at the end of `get_history` |
| ChatState.HSet | lolapy_lite_agent/state/state_redis_provider.py:18-20 | HSET changes one field of one hash and nothing else |
| ChatState.RedisChatStateProvider.constructor | lolapy_lite_agent/state/state_redis_provider.py:9-16 | the lite store uses keys `s:<token>` and starts empty |
| ChatState.RedisChatStateProvider.Scoped | lolapy/assistant/state/state_redis_provider.py:12-22 | the assistant store uses keys `<prefix>:<tenant>:<assistant>:<token>` and starts empty |
| ChatState.RedisChatStateProvider.Key | lolapy/assistant/state/state_redis_provider.py:18-22 | the hash key of a lead in each of the two key layouts |
| ChatState.RedisChatStateProvider.SetKeyValue | lolapy_lite_agent/state/state_redis_provider.py:18-22 | one HSET on the lead's hash |
| ChatState.RedisChatStateProvider.GetKeyValue | lolapy_lite_agent/state/state_redis_provider.py:24-29 | the stored value, or None when the field is missing |
| ChatState.RedisChatStateProvider.ClearStore | lolapy_lite_agent/state/state_redis_provider.py:31-33 | only the lead's hash is deleted |
| ChatState.RedisChatStateProvider.ClearAllStores | lolapy_lite_agent/state/state_redis_provider.py:35-41 | exactly the hashes whose keys start with `s:<tenant>:<assistant>:`, read as a literal prefix, are deleted |
| ChatState.RedisChatStateProvider.ClearAllStoresOf | lolapy/assistant/state/state_redis_provider.py:50-56 | the same literal-prefix deletion, with the tenant and the assistant taken from a lead |
| ChatState.RedisChatStateProvider.GetStore | lolapy_lite_agent/state/state_redis_provider.py:43-48 | HGETALL: None exactly when the hash is empty or missing, else its fields |
| ChatState.RedisChatStateProvider.SetStore | lolapy_lite_agent/state/state_redis_provider.py:52-57 | one HSET per field of the given store |
| ChatState.SetThenGet | lolapy_lite_agent/state/state_redis_provider.py:18-29 | a written field is read back; other fields keep their values |
| ChatState.SetStoreMerges | lolapy_lite_agent/state/state_redis_provider.py:52-57 | `set_store` merges: the given fields win, the rest survive, an empty store writes nothing, other leads are untouched |
| ChatState.ScopedClearRemovesLeads | lolapy/assistant/state/state_redis_provider.py:18-56 | in the assistant store, clearing an assistant removes the store of every lead of that tenant and assistant |
| ChatState.ScopedClearKeepsOthers | lolapy/assistant/state/state_redis_provider.py:18-56 | when the ids hold no ':', clearing removes only leads of exactly that tenant and assistant |
| ChatState.LiteClearMatchesOnlyPrefixedTokens | lolapy_lite_agent/state/state_redis_provider.py:15-41 | in the lite store, clearing deletes a lead's hash exactly when its token itself starts with `<tenant>:<assistant>:` |
| ChatState.LiteClearKeepsControllerLead | lolapy_lite_agent/state/state_redis_provider.py:35-41 | so the controller's lead of tenant1/assistant1 keeps its store through `clear_all_stores` |
| Messages.Encode | lolapy/assistant/agents/lola/utils.py:12-67 | every message is a truthy dictionary |
| Messages.DecodeEncode | lolapy/assistant/agents/lola/utils.py:12-67 | decoding an encoded message gives it back |
| Messages.EncodeDecode | lolapy/assistant/agents/lola/utils.py:12-67 | a dictionary that decodes is the encoding of what it decodes to |
| Messages.PromptMessage | lolapy/assistant/agents/lola/utils.py:12-16 | a system message holding the prompt |
| Messages.NameKey | lolapy/assistant/agents/lola/utils.py:24-25 | the name key is added exactly for a non-empty name |
| Messages.UserMessage | lolapy/assistant/agents/lola/utils.py:18-27 | a user message with the content and the name only when truthy |
| Messages.AssistantMessage | lolapy/assistant/agents/lola/utils.py:30-41 | an assistant message with the name and the function call only when truthy |
| Messages.FunctionCallMessage | lolapy/assistant/agents/lola/utils.py:50-59 | an assistant message with empty content and the call |
| Messages.FunctionResponseMessage | lolapy/assistant/agents/lola/utils.py:61-67 | a function message with the call's name (null for None) and the response as content |
| HandlebarsHelpers.HelperNames | lolapy/assistant/pml/handlebars_helpers.py:12-20 | the six helper names, all distinct |
| HandlebarsHelpers.IfEquals | lolapy/assistant/pml/handlebars_helpers.py:22-26 | the block when the arguments are `==` in Python (PyEq), the else branch otherwise |
| HandlebarsHelpers.IfNotEquals | lolapy/assistant/pml/handlebars_helpers.py:28-32 | the block when the arguments are `!=` in Python, the else branch otherwise |
| HandlebarsHelpers.IfNotEqualsSwapsBranches | lolapy/assistant/pml/handlebars_helpers.py:22-32 | `if_not_equals` is `if_equals` with the branches swapped |
| HandlebarsHelpers.SameArgumentsTakeBlock | lolapy/assistant/pml/handlebars_helpers.py:22-24 | a value compared with itself always takes the block |
| HandlebarsHelpers.ArgumentOrderIrrelevant | lolapy/assistant/pml/handlebars_helpers.py:22-26 | swapping the two arguments renders the same branch |
| HandlebarsHelpers.TrueEqualsOneTakesBlock | lolapy/assistant/pml/handlebars_helpers.py:22-32 | `True` against `1` takes the block of `if_equals` and the else branch of `if_not_equals` |
| HandlebarsHelpers.JsonHelper | lolapy/assistant/pml/handlebars_helpers.py:34-35 | compact `json.dumps` of the argument |
| HandlebarsHelpers.JsonPretty | lolapy/assistant/pml/handlebars_helpers.py:37-38 | `json.dumps` indented by 2 |
| HandlebarsHelpers.JsonPrettyNoEscaping | lolapy/assistant/pml/handlebars_helpers.py:40-41 | despite its name, the same as `json_pretty` |
| HandlebarsHelpers.KeyValue | lolapy/assistant/pml/handlebars_helpers.py:43-47 | the loop's output is the `key: value` text of the items in order |
| HandlebarsHelpers.KeyValueLines | lolapy/assistant/pml/handlebars_helpers.py:43-47 | items whose keys and values hold no line break give one line per item |
| HandlebarsHelpers.KeyValueOfPrefix | lolapy/assistant/pml/handlebars_helpers.py:45-46 | one more item appends exactly its line |
| Markup.FindAll | lolapy_lite_agent/pml/pml_builder.py:30 | `find_all(name)` returns only elements with that name |
| Markup.ChildElements | lolapy_lite_agent/pml/function_plugin.py:27-30 | the direct children with that name, no more of them than there are children |
| Markup.Nones | lolapy_lite_agent/pml/pml_builder.py:66-67 | n results that are all None |
| Markup.RemovedElementsAreGone | lolapy_lite_agent/pml/pml_builder.py:41-44 | after decomposing every element of a name, none with that name is found |
| Markup.RemoveAbsentElements | lolapy_lite_agent/pml/pml_builder.py:41-44 | a document without such elements is left as it is |
| Markup.RemoveCommentsKeepsText | lolapy_lite_agent/pml/pml_builder.py:46-50 | after extracting comments none is left, and the text is unchanged |
| Markup.RemoveElementsPreservesNoComments | lolapy_lite_agent/pml/pml_builder.py:41-50 | decomposing elements brings back no comment |
| Markup.SubstituteNonesRemoves | lolapy_lite_agent/pml/pml_builder.py:66-67 | replacing every match by None is decomposing them |
| Markup.SubstitutedElementsAreGone | lolapy_lite_agent/pml/pml_builder.py:59-69 | after the replacement no element of the plugin's name is left, nested ones included |
| Markup.FindAllAppend | lolapy_lite_agent/pml/pml_builder.py:30 | `find_all` of two consecutive parts is the two results in document order |
| Markup.SubstituteAbsent | lolapy_lite_agent/pml/pml_builder.py:59-69 | a pass that finds nothing changes nothing |
| Markup.RemoveCommentsKeepsAbsent | lolapy_lite_agent/pml/pml_builder.py:46-50 | extracting comments brings back no element |
| Markup.RemoveCommentsAppend | lolapy_lite_agent/pml/pml_builder.py:46-50 | comment extraction works part by part |
| FunctionPlugin.EnumValues | lolapy_lite_agent/pml/function_plugin.py:41-42 | one JSON string per comma-separated piece, in order |
| FunctionPlugin.PmlFunctionsPlugin.constructor | lolapy_lite_agent/pml/function_plugin.py:6-11 | the plugin's name, description and element name, and whether it has a callback |
| FunctionPlugin.PmlFunctionsPlugin.Process | lolapy_lite_agent/pml/function_plugin.py:13-53 | the element's result; the callback receives the schema exactly when there is a callback and a schema |
| FunctionPlugin.RequiredExactly | lolapy_lite_agent/pml/function_plugin.py:33-39 | a name is in `required` exactly when some param of that name is marked required |
| FunctionPlugin.PropertyNames | lolapy_lite_agent/pml/function_plugin.py:33-44 | the property names are exactly the param names |
| FunctionPlugin.PropertyFromLastParam | lolapy_lite_agent/pml/function_plugin.py:44 | the property under a name comes from the last param with that name |
| FunctionPlugin.PropertyAttributes | lolapy_lite_agent/pml/function_plugin.py:34-44 | each attribute is kept as text, except that a true `required` is dropped and `enum` becomes its list of values |
| FunctionPlugin.EnumRoundTrip | lolapy_lite_agent/pml/function_plugin.py:41-42 | the enum values joined back with commas are the attribute |
| FunctionPlugin.BareRequiredIsNotRequired | lolapy_lite_agent/pml/function_plugin.py:37-39 | a bare `required` attribute (value "") does not make the param required and stays in the property |
| FunctionPlugin.CollectedOrder | lolapy_lite_agent/pml/function_plugin.py:46-48 | the callback receives one schema per valid element, in document order |
| PmlText.CloseAt | lolapy_lite_agent/pml/pml_builder.py:53 | the first `-->` at or after a position, or None when there is none |
| PmlText.StripHtmlComments | lolapy_lite_agent/pml/pml_builder.py:53 | removing comments never lengthens the text; ClosedCommentRemoved, CommentAtStart and UnclosedCommentStays state what it removes |
| PmlText.BreakRun | lolapy_lite_agent/pml/pml_builder.py:54 | the maximal leading run of line-break characters |
| PmlText.BrTagLength | lolapy_lite_agent/pml/pml_builder.py:55 | a `<br ... >` tag at the start is at least 4 characters and starts with `<br` |
| PmlText.CollapsedHasNoAdjacentBreaks | lolapy_lite_agent/pml/pml_builder.py:54 | after the second substitution no two line-break characters are adjacent |
| PmlText.StartsUnbroken | lolapy_lite_agent/pml/pml_builder.py:54 | collapsing keeps a first character that is not a break |
| PmlText.CollapseKeepsSingleBreaks | lolapy_lite_agent/pml/pml_builder.py:54 | text without adjacent breaks passes the second substitution unchanged |
| PmlText.CrLfBecomesMarker | lolapy_lite_agent/pml/pml_builder.py:54 | one "\r\n" is two break characters, so it too becomes the literal `$1` |
| PmlText.NoMarkupUnchanged | lolapy_lite_agent/pml/pml_builder.py:53-55 | text without `<` passes the first and the third substitutions unchanged |
| PmlText.PlainTextIsOnlyStripped | lolapy_lite_agent/pml/pml_builder.py:52-57 | plain text (no `<`, no adjacent breaks) is only stripped |
| PmlText.ClosedCommentRemoved | lolapy_lite_agent/pml/pml_builder.py:53 | a comment is removed up to its first `-->`, and the scan goes on after it |
| PmlText.UnclosedCommentStays | lolapy_lite_agent/pml/pml_builder.py:53 | without any `-->` the text is unchanged, so an unclosed `<!--` stays |
| PmlText.BrForms | lolapy_lite_agent/pml/pml_builder.py:55 | `<br>`, `<br/>` and `<br />` each become one newline |
| PmlText.TagBreaksAreNotCollapsed | lolapy_lite_agent/pml/pml_builder.py:54-55 | two `<br>` tags give two newlines, because breaks are collapsed before tags become newlines |
| PmlBuilding.Results | lolapy_lite_agent/pml/pml_builder.py:62-66 | one `process` result per element, in order |
| PmlBuilding.CallbackLists | lolapy_lite_agent/pml/pml_builder.py:71-72 | one schema list per registered plugin, in registration order, each holding what that plugin's callback received |
| PmlBuilding.Bump | lolapy_lite_agent/pml/pml_builder.py:60-67 | a pass of one plugin extends the list of every registration of that plugin and no other |
| PmlBuilding.Expected | lolapy_lite_agent/pml/pml_builder.py:59-69 | after k passes, each list holds what it started with plus what the first k passes gave it |
| PmlBuilding.PMLBuilder.constructor | lolapy_lite_agent/pml/pml_builder.py:8-21 | the parsed document, the five system tags, no params, no settings, no plugins |
| PmlBuilding.PMLBuilder.SetParams | lolapy_lite_agent/pml/pml_builder.py:23-24 | `params or []`; nothing else changes |
| PmlBuilding.PMLBuilder.RegisterPlugin | lolapy_lite_agent/pml/pml_builder.py:71-72 | the plugin is appended to the plugin list |
| PmlBuilding.PMLBuilder.LoadSettings | lolapy_lite_agent/pml/pml_builder.py:29-32 | the first `settings` element's attributes, if there is one; otherwise the settings stay |
| PmlBuilding.PMLBuilder.RemoveSystemTags | lolapy_lite_agent/pml/pml_builder.py:41-44 | each system tag in turn is decomposed wherever it occurs |
| PmlBuilding.PMLBuilder.RemoveCommentNodes | lolapy_lite_agent/pml/pml_builder.py:46-50 | every comment node is extracted |
| PmlBuilding.PMLBuilder.ProcessElements | lolapy_lite_agent/pml/pml_builder.py:61-69 | the loop gives every element's result, and only this plugin's list grows, by the schemas of the elements |
| PmlBuilding.PMLBuilder.RunPass | lolapy_lite_agent/pml/pml_builder.py:60-69 | one plugin's pass over the current document: the new tree and the lists it extends |
| PmlBuilding.PMLBuilder.ProcessPlugins | lolapy_lite_agent/pml/pml_builder.py:59-69 | all passes in registration order: the final tree and every plugin's list |
| PmlBuilding.PMLBuilder.Compile | lolapy_lite_agent/pml/pml_builder.py:74-89 | settings, then system tags, then comments, then plugins; the result is the cleaned text with the settings and empty params |
| PmlBuilding.RemoveElementsAppend | lolapy_lite_agent/pml/pml_builder.py:43-44 | decomposing works part by part |
| PmlBuilding.RemoveAllAppend | lolapy_lite_agent/pml/pml_builder.py:41-44 | the system-tag pass works part by part |
| PmlBuilding.RemoveAllSingle | lolapy_lite_agent/pml/pml_builder.py:41-44 | an element leaves with everything inside it exactly when its name is a system tag |
| PmlBuilding.SystemTagIsIgnored | lolapy_lite_agent/pml/pml_builder.py:41-50 | a top-level system-tag element leaves no trace in the cleaned document |
| PmlBuilding.RemoveKeepsAbsent | lolapy_lite_agent/pml/pml_builder.py:43-44 | decomposing one tag brings back no other |
| PmlBuilding.SystemTagsAreGone | lolapy_lite_agent/pml/pml_builder.py:41-44 | after the system-tag pass no system-tag element is left |
| PmlBuilding.SinglePluginCollects | lolapy_lite_agent/prompt_compiler.py:59-65 | with one registered plugin, the callback receives the schemas of its elements in document order |
| PmlBuilding.CollectingPassRemovesElements | lolapy_lite_agent/pml/pml_builder.py:66-67 | when every element yields a schema and there is a callback, the pass removes all of them |
| Compiler.MergeState | lolapy_lite_agent/prompt_compiler.py:30-38 | the keys of all three layers; override over stored over initial |
| Compiler.PromptCompiler.constructor | lolapy_lite_agent/prompt_compiler.py:20-24 | the job, the prompt and the two stores are kept |
| Compiler.PromptCompiler.Context | lolapy_lite_agent/prompt_compiler.py:27-46 | the lead's filtered history, the merged state and the job's message |
| Compiler.PromptCompiler.Process | lolapy_lite_agent/prompt_compiler.py:49-72 | prompt, settings and schemas are those of the rendered and parsed template; the context is the one it was rendered with |
| Compiler.CompileDocument | lolapy_lite_agent/prompt_compiler.py:56-72 | a builder with one collecting plugin gives the document's prompt, settings and schemas |
| Compiler.NoFunctionTagsNoFunctions | lolapy_lite_agent/prompt_compiler.py:59-70 | a document without `function` elements yields no schemas, and its text is compiled as it is |
| Compiler.SystemTagOnlyAffectsSettings | lolapy_lite_agent/pml/pml_builder.py:74-84 | a system-tag element changes neither the prompt nor the schemas |
| Compiler.SettingsSurviveTheirTag | lolapy_lite_agent/pml/pml_builder.py:76-77 | the first `settings` element's attributes are the settings, although no such element remains |
| Compiler.CommentIsIgnored | lolapy_lite_agent/pml/pml_builder.py:78 | a comment node changes neither the prompt nor the schemas |
| Compiler.ValidFunctionsLeaveNoText | lolapy_lite_agent/pml/pml_builder.py:66-67 | when every function element yields a schema, none of their text reaches the prompt |
| Compiler.FunctionElementsAreGone | lolapy_lite_agent/pml/pml_builder.py:59-69 | no function element, nested ones included, is left in the compiled text |
| AgentStream.Start | lolapy_lite_agent/agents/lola.py:126-131 | the loop starts with no text, no call name, empty arguments, and the flag as it is |
| AgentStream.RunWellFormed | lolapy_lite_agent/agents/lola.py:139-183 | however the loop ends: the kept text is the joined yielded contents, the loop yields no notice, a call can only be the last delta, and then the loop has stopped and the call holds the collected name and arguments |
| AgentStream.RunConsumes | lolapy_lite_agent/agents/lola.py:139-169 | the loop consumes at most the available events, and a finished loop consumes none |
| AgentStream.RunJoinsArguments | lolapy_lite_agent/agents/lola.py:157-158 | the call's arguments are the argument fragments of the consumed chunks, in arrival order |
| AgentStream.RunKeepsLastName | lolapy_lite_agent/agents/lola.py:155-156 | the call's name is the last truthy name a consumed chunk carried |
| AgentStream.InterruptDropsChunk | lolapy_lite_agent/agents/lola.py:171-174 | a raised flag stops the loop before the chunk's content is kept or yielded, and lowers the flag |
| AgentStream.InterruptSurvivesFunctionCall | lolapy_lite_agent/agents/lola.py:162-174 | the call is yielded before the flag is checked, and the flag stays raised |
| AgentStream.TwoChunks | lolapy_lite_agent/agents/lola.py:159-182 | "Hel" then "lo" yields both and keeps "Hello" |
| AgentStream.SplitArguments | lolapy_lite_agent/agents/lola.py:154-168 | argument fragments are concatenated into one call |
| LiteAgent.ConfigOf | lolapy_lite_agent/agents/lola.py:87-89 | model by `get` with the default; history depth through `int` (10 when absent, its ValueError first); `max_tokens` through `int` unless absent or empty (1500, line 117) |
| LiteAgent.UserEntries | lolapy_lite_agent/agents/lola.py:40-41 | one user message exactly for a truthy message |
| LiteAgent.AssistantEntries | lolapy_lite_agent/agents/lola.py:187-188 | one assistant message exactly for a non-empty text |
| LiteAgent.NewStateOf | lolapy_lite_agent/agents/lola.py:45 | a job's `new_state`, read as None when the job has none |
| LiteAgent.NewStateAsWritten | lolapy_lite_agent/agents/lola.py:45 | `job.new_state` fails with AttributeError exactly for a job without the attribute |
| LiteAgent.LolaAgent.constructor | lolapy_lite_agent/agents/lola.py:23-36 | fresh lite stores; the model is the given one when truthy, else the default; both flags lowered |
| LiteAgent.LolaAgent.ClearHistory | lolapy_lite_agent/agents/lola.py:51-52 | the lead's list is deleted |
| LiteAgent.LolaAgent.ClearState | lolapy_lite_agent/agents/lola.py:54-55 | the lead's hash is deleted |
| LiteAgent.LolaAgent.SetState | lolapy_lite_agent/agents/lola.py:57-58 | `set_store` on the lead |
| LiteAgent.LolaAgent.GetState | lolapy_lite_agent/agents/lola.py:60-61 | `get_store` of the lead: None exactly for an empty hash |
| LiteAgent.LolaAgent.SetStateValue | lolapy_lite_agent/agents/lola.py:63-65 | one HSET, and the result is None |
| LiteAgent.LolaAgent.AddUserMessage | lolapy_lite_agent/agents/lola.py:68-70 | one user message appended to the lead's list |
| LiteAgent.LolaAgent.AddAssistantMessage | lolapy_lite_agent/agents/lola.py:72-74 | one assistant message appended |
| LiteAgent.LolaAgent.AddFunctionCallMessage | lolapy_lite_agent/agents/lola.py:76-78 | one function-call message appended |
| LiteAgent.LolaAgent.AddFunctionResponseMessage | lolapy_lite_agent/agents/lola.py:80-82 | one function-response message appended |
| LiteAgent.LolaAgent.RequestStream | lolapy_lite_agent/agents/lola.py:84-190 | the turn Outcome describes; the text is recorded only when non-empty; the flags and the callback's texts follow it |
| LiteAgent.LolaAgent.ConsumeStream | lolapy_lite_agent/agents/lola.py:139-183 | the `while True` loop computes Run of its events, the callback gets each yielded content, and the producing flag can only fall |
| LiteAgent.LolaAgent.Advance | lolapy_lite_agent/agents/lola.py:140-182 | one turn of the loop is one Step; only a cancellation clears the producing flag |
| LiteAgent.LolaAgent.AdvanceChunk | lolapy_lite_agent/agents/lola.py:154-182 | a chunk's turn of the loop is one Step: call parts accumulate, then the finish check, the interrupt check and the content check apply in that order |
| LiteAgent.LolaAgent.Process | lolapy_lite_agent/agents/lola.py:38-49 | the log grows by this call and stays faithful; the history grows by the turn's entries |
| LiteAgent.LolaAgent.ProcessUnlogged | lolapy_lite_agent/agents/lola.py:38-49 | the result is ProcessTurn of the lead's entries, its stored state and the flag |
| LiteAgent.LolaAgent.ProcessAsWritten | lolapy_lite_agent/agents/lola.py:38-49 | for a lite job the user message is recorded, then the AttributeError comes before any request; a job carrying `new_state` is logged and has Process's history, flag and callback effects |
| LiteAgent.LolaAgent.ProcessResults | lolapy_lite_agent/agents/lola.py:193-217 | the loop folds the deltas as ResponseOf does |
| LiteAgent.DefaultSettings | lolapy_lite_agent/agents/lola.py:87-89 | with no settings: the agent's model, 1500 tokens, 10 entries |
| LiteAgent.EmptySettingValues | lolapy_lite_agent/agents/lola.py:89-117 | an empty `max_tokens` falls back to 1500; an empty `max_history_length` is a ValueError |
| LiteAgent.RequestWindow | lolapy_lite_agent/agents/lola.py:92-103 | the system prompt, then the newest entries; a depth of 0 sends all of them and a negative depth drops the oldest |
| LiteAgent.OutcomeRequest | lolapy_lite_agent/agents/lola.py:92-121 | with valid settings, the request sends the prompt and the window of the history |
| LiteAgent.WindowKeepsNewest | lolapy_lite_agent/agents/lola.py:99-103 | a window deep enough ends with the newest entries |
| LiteAgent.RequestEndsWithNewest | lolapy_lite_agent/agents/lola.py:99-121 | a turn's request ends with the newest entries its depth reaches |
| LiteAgent.UserMessageIsNewest | lolapy_lite_agent/agents/lola.py:40-103 | the user message `process` records is the last message of its request |
| LiteAgent.TimeoutTurn | lolapy_lite_agent/agents/lola.py:110-124 | a connection time-out yields only the notice and no text, and folding it fails on `.get` |
| LiteAgent.ConnectedTurnResponse | lolapy_lite_agent/agents/lola.py:193-217 | the fold gives the text (None when empty) and the call exactly when the last delta is one, with its name and arguments |
| LiteAgent.UserMessageInContext | lolapy_lite_agent/agents/lola.py:40-45 | a truthy message reaches the template as the newest history entry |
| LiteAgent.LiteJobState | lolapy_lite_agent/agents/lola.py:44-45 | a lite job's template state is initial then stored; the source's reading of it fails |
| Controller.UnexpectedKeyword | lolapy_lite_agent/agent_controller.py:39-43 | the first keyword outside the accepted set, or None exactly when all are accepted |
| Controller.ConstructAgent | lolapy_lite_agent/agent_controller.py:39-43 | a TypeError exactly when some keyword is not a parameter of the agent, and it names one |
| Controller.ControllerConstructionFails | lolapy_lite_agent/agent_controller.py:39-43 | passing `redis_url` makes every controller construction fail |
| Controller.CorrectedConstructionSucceeds | lolapy_lite_agent/agent_controller.py:39-41 | without `redis_url` the call is accepted |
| Controller.StateAssignmentAsWritten | lolapy_lite_agent/agent_controller.py:108-111 | as written: an IndexError exactly for the arguments `["set"]`, and never an assignment |
| Controller.StateAssignment | lolapy_lite_agent/agent_controller.py:108-112 | `/state set k v` assigns v to k; a short `set` command is an IndexError; anything else assigns nothing |
| Controller.StateSetIsUnreachable | lolapy_lite_agent/agent_controller.py:108-111 | a well-formed `/state set` assigns nothing as written, while the corrected branch assigns |
| Controller.CallEntries | lolapy_lite_agent/agent_controller.py:64-68 | the call message first, then the response only when there is a handler |
| Controller.Continuation | lolapy_lite_agent/agent_controller.py:71 | the same lead, no message, hence no user message recorded |
| Controller.BookkeepingOf | lolapy_lite_agent/agent_controller.py:62-68 | something is recorded exactly when the turn asks for a function call |
| Controller.AgentController.constructor | lolapy_lite_agent/agent_controller.py:15-43 | the kept fields, the lead (id, "rtc", tenant1, assistant1) and a fresh agent |
| Controller.AgentController.UpdateProcessingState | lolapy_lite_agent/agent_controller.py:118-121 | the flag is set, and the callback hears the value when there is one |
| Controller.AgentController.UserMessageJob | lolapy_lite_agent/agent_controller.py:83-93 | a lite job with the controller's lead, prompt and initial state |
| Controller.AgentController.ProcessClientCommand | lolapy_lite_agent/agent_controller.py:96-116 | `/reset all` clears history and state, any other `/reset` the history, `/state` follows StateAssignment, anything else changes nothing |
| Controller.AgentController.RunCommand | lolapy_lite_agent/agent_controller.py:48-52 | a parsed command runs, None or the command's error comes back, and the stores change as CommandEffects states |
| Controller.AgentController.ProcessMessage | lolapy_lite_agent/agent_controller.py:47-79 | a command changes no turn, returns None or its error, and has the store effects CommandEffects states (`/reset all` clears history and state, another `/reset` the history, `/state` an assignment); a message runs the exchange Combine describes, with its history, flags, texts and processing updates |
| Controller.AgentController.RunExchange | lolapy_lite_agent/agent_controller.py:58-76 | the log grows by the exchange's calls, and the effect is Combine of the two turns |
| Controller.AgentController.FollowCall | lolapy_lite_agent/agent_controller.py:62-76 | after a call, the rest of the exchange from the first turn's state |
| Controller.AgentController.RecordCall | lolapy_lite_agent/agent_controller.py:64-68 | the bookkeeping entries are appended |
| Controller.AgentController.SecondPass | lolapy_lite_agent/agent_controller.py:64-76 | bookkeeping, then one turn of the job without its message, folded |
| Controller.CallStep | lolapy_lite_agent/agent_controller.py:58-76 | with a call: the two logged turns, the second on the entries after the bookkeeping |
| Controller.SinglePassWithoutCall | lolapy_lite_agent/agent_controller.py:58-62 | without a call the continuation does not matter; the exchange ends exactly when the first turn folds |
| Controller.LoggedFirstTurn | lolapy_lite_agent/agent_controller.py:58 | a faithful log holds the first turn as ProcessTurn gives it |
| Controller.LoggedContinuation | lolapy_lite_agent/agent_controller.py:73 | and, after a call, the continuation's turn |
| Controller.CombineIsTwoPass | lolapy_lite_agent/agent_controller.py:47-79 | Combine of those turns is TwoPass |
| Controller.ExchangeIsTwoPass | lolapy_lite_agent/agent_controller.py:47-79 | what the controller runs is the exchange TwoPass describes for the state beforehand |
| Controller.ContinuationRecordsNoUserMessage | lolapy_lite_agent/agent_controller.py:62-79 | after a call: first turn's entries, bookkeeping, at most one assistant message; it ends exactly when it folds |
| Controller.SecondTurnIsOutcome | lolapy_lite_agent/agent_controller.py:70-73 | the continuation compiles and requests on the entries after the bookkeeping |
| Plugin.LolaPlugin.constructor | lolapy_lite_agent/lola_plugin.py:19-43 | a fresh agent with the default model and the text callback; the lead (id, test, tenant, assistant); both flags lowered |
| Plugin.LolaPlugin.ProcessMessage | lolapy_lite_agent/lola_plugin.py:45-46 | always an AttributeError: the agent has no `process_message` |
| Plugin.LolaPlugin.Interrupt | lolapy_lite_agent/lola_plugin.py:49-52 | only the plugin's own flag is raised, while producing; the agent's flag stays |
| Plugin.LolaPlugin.MessageJob | lolapy_lite_agent/lola_plugin.py:77-82 | a lite job with id "123", the plugin's lead, prompt and initial state |
| Plugin.LolaPlugin.AddMessage | lolapy_lite_agent/lola_plugin.py:66-85 | the stream of that job, whose effect is PluginCombine of its turns |
| Plugin.LolaPlugin.HandleLolaStream | lolapy_lite_agent/lola_plugin.py:89-131 | the log, texts, history and flags of PluginCombine; `producing` stays raised exactly when the stream raised |
| Plugin.LolaPlugin.StreamTurns | lolapy_lite_agent/lola_plugin.py:94-126 | the agent's part of the stream |
| Plugin.LolaPlugin.FollowCall | lolapy_lite_agent/lola_plugin.py:103-126 | the rest of the stream after a call |
| Plugin.LolaPlugin.RecordCall | lolapy_lite_agent/lola_plugin.py:104-110 | the call message and the fixed response are appended |
| Plugin.LolaPlugin.Continue | lolapy_lite_agent/lola_plugin.py:104-126 | the bookkeeping, then one pass of the copied job without the message |
| Plugin.ForwardDeltas | lolapy_lite_agent/lola_plugin.py:94-100 | the loop yields what Forwarded gives and leaves the last delta's call |
| Plugin.RunFirstPass | lolapy_lite_agent/lola_plugin.py:94-103 | the first loop and the `function_call` it leaves |
| Plugin.ErrorStops | lolapy_lite_agent/lola_plugin.py:94-100 | after the loop has raised, later deltas change nothing |
| Plugin.ForwardedContents | lolapy_lite_agent/lola_plugin.py:94-100 | the loop raises the AttributeError of `.get` exactly on a bare-string delta; it yields a prefix of the contents, all of them when it does not raise |
| Plugin.PluginAgreesWithFold | lolapy_lite_agent/lola_plugin.py:94-103 | on a connected turn with deltas the first pass agrees with the agent's own fold |
| Plugin.EmptyStreamFails | lolapy_lite_agent/lola_plugin.py:94-103 | a turn without deltas leaves `function_call` unbound: UnboundLocalError |
| Plugin.EmptyStreamHappens | lolapy_lite_agent/agents/lola.py:149-150 | a stream that ends at once yields no delta |
| Plugin.TimeoutFails | lolapy_lite_agent/lola_plugin.py:94-96 | the time-out notice is a bare string, so the first pass raises before yielding anything |
| Plugin.CallRecordedBeforeContinuation | lolapy_lite_agent/lola_plugin.py:103-126 | after a call: first turn's entries, call, fixed response, at most one assistant message; both passes' texts in order |
| Plugin.ContinuationCopiesJob | lolapy_lite_agent/lola_plugin.py:114-119 | the copy keeps id, lead, initial state and prompt, and drops the message and `new_state` |
| Plugin.PluginCallStep | lolapy_lite_agent/lola_plugin.py:94-126 | with a call: the two logged turns, the second after the bookkeeping |
| Plugin.StopsAfterFirstPass | lolapy_lite_agent/lola_plugin.py:94-103 | without a call: one logged turn and the first pass's outcome |
| Plugin.PluginWithoutCall | lolapy_lite_agent/lola_plugin.py:102-103 | without a call the continuation does not matter |
| Plugin.LoggedFirstPass | lolapy_lite_agent/lola_plugin.py:94 | a faithful log holds the first turn |
| Plugin.LoggedSecondPass | lolapy_lite_agent/lola_plugin.py:122 | and, after a call, the continuation's turn |
| Plugin.PluginCombineIsStream | lolapy_lite_agent/lola_plugin.py:89-131 | PluginCombine of those turns is PluginStream |
| Plugin.StreamIsPluginStream | lolapy_lite_agent/lola_plugin.py:89-131 | what the plugin runs is the stream PluginStream describes for the state beforehand |
| Gateway.LolaMessageGateway.constructor | lolapy/assistant/gateway/message_gateway.py:20-63 | a fresh agent, the lead (session id, test, tenant, assistant), nothing cached, empty handler tables, both flags lowered |
| Gateway.LolaMessageGateway.Interrupt | lolapy/assistant/gateway/message_gateway.py:69-72 | only the gateway's own flag is raised, while producing |
| Gateway.LolaMessageGateway.FirstMessage | lolapy/assistant/gateway/message_gateway.py:79-83 | the cached flag when there is one; otherwise the agent's answer, which is then cached |
| Gateway.LolaMessageGateway.SetFirstMessage | lolapy/assistant/gateway/message_gateway.py:85-87 | the cache takes the value |
| Gateway.LolaMessageGateway.AddOutgoingMessage | lolapy/assistant/gateway/message_gateway.py:89-106 | the message, blended when asked, goes to the history when asked and to the callback when there is one |
| Gateway.LolaMessageGateway.ClearHistory | lolapy/assistant/gateway/message_gateway.py:151-155 | the cache is forgotten and the lead's history deleted |
| Gateway.LolaMessageGateway.AddMessageToHistory | lolapy/assistant/gateway/message_gateway.py:157-161 | a user or an assistant message; any other role changes nothing |
| Gateway.LolaMessageGateway.CallFunction | lolapy/assistant/gateway/message_gateway.py:166-193 | the observer always hears of the call; the result is CommandResult |
| Gateway.LolaMessageGateway.CallEvent | lolapy/assistant/gateway/message_gateway.py:196-211 | the registered handler, if any, gets the session and the arguments |
| Gateway.LolaMessageGateway.Announce | lolapy/assistant/gateway/message_gateway.py:120-130 | `onNewConversation` for a first message, `onTextMessage` otherwise; the cache is False afterwards |
| Gateway.LolaMessageGateway.MessageJob | lolapy/assistant/gateway/message_gateway.py:134-140 | an assistant job with the given id or "123", the gateway's lead, prompt, initial state and override |
| Gateway.LolaMessageGateway.AddMessage | lolapy/assistant/gateway/message_gateway.py:110-143 | the event, then the stream of that job, whose effect is GatewayCombine |
| Gateway.LolaMessageGateway.HandleLolaStream | lolapy/assistant/gateway/message_gateway.py:213-256 | the log, texts, history and flags of GatewayCombine; the observer's calls; `producing` stays raised exactly when the stream raised |
| Gateway.LolaMessageGateway.StreamTurns | lolapy/assistant/gateway/message_gateway.py:218-251 | the agent's part of the stream |
| Gateway.LolaMessageGateway.AfterFirstTurn | lolapy/assistant/gateway/message_gateway.py:226-251 | what follows the first loop |
| Gateway.LolaMessageGateway.FollowCall | lolapy/assistant/gateway/message_gateway.py:227-251 | the rest of the stream after a call |
| Gateway.LolaMessageGateway.ContinueAfterCall | lolapy/assistant/gateway/message_gateway.py:239-251 | the continuation after an answered call |
| Gateway.LolaMessageGateway.RecordCall | lolapy/assistant/gateway/message_gateway.py:228-236 | the call message, then `_call_function`, then its result unless it raised |
| Gateway.LolaMessageGateway.RunContinuation | lolapy/assistant/gateway/message_gateway.py:239-251 | one pass of the continuation's job |
| Gateway.LolaMessageGateway.OnCommand | lolapy/assistant/gateway/message_gateway.py:267-271 | the handler is stored under the name, replacing any other, and returned |
| Gateway.LolaMessageGateway.OnClientCommand | lolapy/assistant/gateway/message_gateway.py:274-278 | the same for client commands |
| Gateway.LolaMessageGateway.OnEvent | lolapy/assistant/gateway/message_gateway.py:280-284 | the same for events |
| Gateway.LolaMessageGateway.OnNotification | lolapy/assistant/gateway/message_gateway.py:286-290 | the same for notifications |
| Gateway.GatewayStops | lolapy/assistant/gateway/message_gateway.py:218-227 | a stream that does not continue: one logged turn and the first pass's outcome |
| Gateway.GatewayAnswerFails | lolapy/assistant/gateway/message_gateway.py:227-235 | a call whose handling raised: the call message alone, and the error ends the stream |
| Gateway.GatewayCallStep | lolapy/assistant/gateway/message_gateway.py:227-251 | a stream that continues: two logged turns, the second after the bookkeeping |
| Gateway.GatewayWithoutContinuation | lolapy/assistant/gateway/message_gateway.py:227 | unless the stream continues, the continuation does not matter |
| Gateway.GatewayLoggedFirstPass | lolapy/assistant/gateway/message_gateway.py:218 | a faithful log holds the first turn |
| Gateway.GatewayLoggedSecondPass | lolapy/assistant/gateway/message_gateway.py:247 | and, when the stream continues, the continuation's turn |
| Gateway.GatewayCombineIsStream | lolapy/assistant/gateway/message_gateway.py:213-256 | GatewayCombine of those turns is GatewayStream |
| Gateway.GatewayStreamIsLogged | lolapy/assistant/gateway/message_gateway.py:213-256 | what the gateway runs is the stream GatewayStream describes for the state beforehand |
| Gateway.UnregisteredCallRecordsNone | lolapy/assistant/gateway/message_gateway.py:173-193 | an unregistered name is answered with None, which is recorded as the response; the stream continues |
| Gateway.UndecodableArgumentsStop | lolapy/assistant/gateway/message_gateway.py:173-174 | for a registered name, arguments that are not JSON end the stream with the decoding error after the call message alone |
| Gateway.RegisteredCommandAnswers | lolapy/assistant/gateway/message_gateway.py:173-193 | a registered command gets `{"data": {"name", "args"}}` with the parsed arguments, and its result is the response |
| Gateway.OverrideAppliesToFirstPassOnly | lolapy/assistant/gateway/message_gateway.py:239-244 | the continuation has no override, so its state is initial then stored |

## Left out

- Redis itself (the network, the connection URL, `json.dumps`/`json.loads` of each entry) is modelled as maps of JSON values. Expiry (`expire`, the 24-hour TTL and the `ttl` parameters) is not modelled, because the model has no clock.
- Metadata passed to `append_to_history` is ignored by the source and not modelled.
- The OpenAI client, `asyncio.wait_for` and its 10- and 5-second limits, and task cancellation are replaced by a `Script` of events.
- Generators are modelled by the sequence of values they yield. A consumer that stops early and concurrent calls are not modelled.
- The Handlebars compiler (pybars) and the HTML parser (BeautifulSoup with lxml) are parameters. So are `json.dumps` inside the helpers, `get_invariant_hash`, `json.loads` in the gateway, and the agent's `is_first_message` and `blend_message_into_context`.
- Logging and `print` are left out. So is the `isPrivate` branch of `add_outgoing_message`, which only logs.
- `PMLBuilder.process_tag` and `get_settings` are not modelled: `compile` never calls them.
- The builder's `parser_settings` are left out: they are never read.
- An exception inside a plugin's `process` (open-ended in bs4) is not modelled beyond the None result.
- PmlBuilding.PMLBuilder.Compile: every pass is total in the model, so the `{'error': str(e)}` result of pml_builder.py:90-94 is never produced. Only bs4 or lxml internals could raise there, and they are not modelled.
- Compiler.PromptCompiler.Process: because Compile never yields the `{'error'}` result, the KeyError that `res['prompt']` at prompt_compiler.py:68 would then raise is not modelled.
- HandlebarsHelpers.IfEquals: JSON values have no float case, so a float state value such as `1.5` and comparisons such as `1 == 1.0` are not represented. Python's `==` on the other kinds is modelled by PyEq.
- HandlebarsHelpers.IfNotEquals: the same missing float case as IfEquals.
- The `lead` argument of `PmlFunctionsPlugin` is left out: it is stored and never read.
- `LolaAgent`'s API key and OpenAI client are left out. The agent takes the lite stores only.
- The gateway's agent (lolapy.assistant.agents.lola) is not part of this model. It is modelled by the lite agent.
- The gateway's `process_message`, `get_agent`, `get_lead`, `get_context`, `aclose`, its LolaContext argument to handlers, and its unused fields (`timeout_handler`, `callback_handlers`, `events`) are left out.
- Gateway handlers are modelled as pure functions: an async handler and a handler that raises are not modelled.
- The async history provider and the abstract base providers are not part of this model.
- The assistant stores' `__get_tenant_prefix` is not modelled: nothing calls it.
- Strings are sequences of code points. No Unicode case folding beyond ASCII is modelled.
- PyStrings.Lower: lowers ASCII letters only; Python's `str.lower` also lowers other scripts.
- PyStrings.ParseInt: accepts an optional sign and ASCII digits; Python's `int` also accepts `_` separators and non-ASCII digits.
- ChatState.RedisChatStateProvider.ClearAllStores: the `KEYS` pattern is matched as a literal prefix. Glob characters (`*`, `?`, `[`, `\`) inside the tenant or assistant id are not modelled; with them Redis can select other hashes.
- ChatState.RedisChatStateProvider.ClearAllStoresOf: the same literal-prefix reading of the `KEYS` glob pattern.
- lolapy_lite_agent/agents/utils.py, where the lite agent imports its message constructors from, is not part of this model. The Messages module follows lolapy/assistant/agents/lola/utils.py and assumes the lite constructors are the same.
- History.RedisHistoryProvider.GetHistorySlice: states that the result is a contiguous part of the list; the exact bounds are those of RedisLists.LRange.
- Plugin.LolaPlugin.HandleLolaStream: requires the job's lead to be the plugin's lead. The bookkeeping writes under the plugin's lead while the agent writes under the job's. Every caller in the source passes a job of the plugin's own lead.
- Gateway.LolaMessageGateway.HandleLolaStream: the same requirement, for the same reason.
- Controller.AgentController.RunExchange: the same requirement for the controller's exchange. Its one caller builds the job from the controller's lead.
- The log of `process` calls is ghost state added by the model. It is how the two-pass specifications are tied to the methods.

## Findings

| source | as written | input that shows it | evidently intended | confidence | as-written member | corrected member |
|---|---|---|---|---|---|---|
| lolapy_lite_agent/agents/lola.py:45 | `process` reads `job.new_state`, which a lite `AgentJob` does not have | any lite job, e.g. the one built at lola.py:243-248 | a missing override reads as None | not executed | LiteAgent.LolaAgent.ProcessAsWritten | LiteAgent.LolaAgent.Process |
| lolapy_lite_agent/agent_controller.py:39-43 | the controller passes `redis_url=` to `LolaAgent`, whose constructor has no such parameter | any construction, e.g. the one at agent_controller.py:157 | construct the agent without `redis_url` | not executed | Controller.ControllerConstructionFails | Controller.AgentController.constructor |
| lolapy_lite_agent/agent_controller.py:108-111 | the `/state` branch runs only when `args == ["set"]`, then reads `args[1]` | `/state set name Lola` assigns nothing; `/state set` raises IndexError | `args[0] == "set"` with a key and a value | not executed | Controller.StateAssignmentAsWritten | Controller.StateAssignment |
