// The lite agent: it records the user's message, compiles the prompt,
// sends one streamed chat-completion request and turns the stream into
// deltas (see AgentStream), and folds a stream of deltas into a response.

module LiteAgent {
  import opened PyValues
  import opened PyStrings
  import opened Records
  import opened RedisLists
  import opened History
  import opened ChatState
  import opened Messages
  import opened Markup
  import FunctionPlugin
  import opened Compiler
  import opened AgentStream

  const DEFAULT_MODEL: string := "gpt-4-1106-preview"
  const DEFAULT_MAX_TOKENS: int := 1500
  const DEFAULT_MAX_HISTORY: int := 10
  const TIMEOUT_NOTICE: string := "Sorry, I'm taking too long to respond. Please try again later."

  /** The request settings a compiled prompt selects. */
  datatype Config = Config(model: string, maxTokens: int, maxHistory: int)

  /** The chat-completion request: model, token limit, messages and function schemas. */
  datatype Request = Request(model: string, maxTokens: int, messages: seq<Json>, functions: seq<FunctionPlugin.FunctionSchema>)

  /** How the completion service behaves for one request. */
  datatype Script = Script(connectionTimesOut: bool, events: seq<Event>)

  /** One call of `request_stream`: the request it sent, whether it connected, what it yielded. */
  datatype Turn = Turn(request: Request, connected: bool, deltas: seq<Delta>, text: string, interruptAfter: bool)

  /** The dictionary `process_results_coro` returns; a None field is a popped key. */
  datatype Response = Response(content: Option<string>, functionCall: Option<FunctionCall>)

  /**
   * The settings read from the compiled prompt: `model` as given;
   * `max_history_length` through `int()` (default 10); `max_tokens` through
   * `int()` unless absent or empty (1500). The history depth is converted
   * first, so its error is the one reported when both are malformed.
   */
  function ConfigOf(settings: map<string, string>, defaultModel: string): (r: Result<Config>)
    ensures "max_history_length" in settings && ParseInt(settings["max_history_length"]).Err? ==>
      r == Err(ValueError(settings["max_history_length"]))
    ensures r.Ok? ==> r.value.model == Get(settings, "model", defaultModel)
    ensures r.Ok? ==> r.value.maxHistory == (if "max_history_length" in settings then ParseInt(settings["max_history_length"]).value else DEFAULT_MAX_HISTORY)
    ensures r.Ok? && !("max_tokens" in settings && settings["max_tokens"] != "") ==> r.value.maxTokens == DEFAULT_MAX_TOKENS
    ensures r.Ok? && "max_tokens" in settings && settings["max_tokens"] != "" ==>
      ParseInt(settings["max_tokens"]) == Ok(r.value.maxTokens)
  {
    var history := if "max_history_length" in settings then ParseInt(settings["max_history_length"]) else Ok(DEFAULT_MAX_HISTORY);
    var tokens := if "max_tokens" in settings && settings["max_tokens"] != "" then ParseInt(settings["max_tokens"]) else Ok(DEFAULT_MAX_TOKENS);
    if history.Err? then Err(history.error)
    else if tokens.Err? then Err(tokens.error)
    else Ok(Config(Get(settings, "model", defaultModel), tokens.value, history.value))
  }

  /** The messages of the request: the system prompt, then the newest `maxHistory` stored entries. */
  function RequestMessages(prompt: string, entries: seq<Json>, maxHistory: int): seq<Json>
  {
    [PromptMessage(prompt)] + LRange(entries, -maxHistory, -1)
  }

  /**
   * What `request_stream` does for a compiled prompt, the lead's stored
   * entries, the interrupt flag on entry and the service's behaviour.
   */
  function Outcome(ctx: PromptCompiled, entries: seq<Json>, defaultModel: string, interrupt: bool, script: Script): Result<Turn>
  {
    match ConfigOf(ctx.settings, defaultModel)
    case Err(e) => Err(e)
    case Ok(c) =>
      var request := Request(c.model, c.maxTokens, RequestMessages(ctx.prompt, entries, c.maxHistory), ctx.functions);
      if script.connectionTimesOut then Ok(Turn(request, false, [Notice(TIMEOUT_NOTICE)], "", interrupt))
      else
        var fin := Run(Start(interrupt), script.events);
        Ok(Turn(request, true, fin.deltas, fin.text, fin.interrupt))
  }

  /** The history entries `process` adds for the job's message: one user message when it is truthy. */
  function UserEntries(message: Option<string>): (r: seq<Json>)
    ensures NonEmpty(message) ==> r == [UserMessage(message.value, None)]
    ensures !NonEmpty(message) ==> r == []
  {
    if NonEmpty(message) then [UserMessage(message.value, None)] else []
  }

  /** The history entries the end of the stream adds: one assistant message when the text is not empty. */
  function AssistantEntries(text: string): (r: seq<Json>)
    ensures text != "" ==> r == [AssistantMessage(text, None, None)]
    ensures text == "" ==> r == []
  {
    if text != "" then [AssistantMessage(text, None, None)] else []
  }

  /** The override state a job passes to the compiler, reading a missing attribute as None. */
  function NewStateOf(job: AgentJob): (r: Option<StateMap>)
    ensures job.newState.Present? ==> r == job.newState.state
    ensures job.newState.Absent? ==> r.None?
  {
    if job.newState.Present? then job.newState.state else None
  }

  /** `job.new_state` as the source reads it: an AttributeError when the job has no such attribute. */
  function NewStateAsWritten(job: AgentJob): (r: Result<Option<StateMap>>)
    ensures job.newState.Absent? <==> r.Err?
    ensures r.Err? ==> r.error == AttributeError("new_state")
    ensures r.Ok? ==> r.value == NewStateOf(job)
  {
    match job.newState
    case Absent => Err(AttributeError("new_state"))
    case Present(s) => Ok(s)
  }

  /** The call of the last call delta, if any. */
  function LastCall(ds: seq<Delta>): Option<FunctionCall>
  {
    if ds == [] then None
    else if ds[|ds| - 1].CallDelta? then Some(ds[|ds| - 1].call)
    else LastCall(ds[..|ds| - 1])
  }

  predicate HasNotice(ds: seq<Delta>)
  {
    exists i :: 0 <= i < |ds| && ds[i].Notice?
  }

  /**
   * What `process_results_coro` makes of some deltas: `.get` fails on a bare
   * string; otherwise the truthy contents concatenated and the last call,
   * each dropped when falsy.
   */
  function ResponseOf(ds: seq<Delta>): Result<Response>
  {
    if HasNotice(ds) then Err(AttributeError("get"))
    else Ok(Response(if ContentText(ds) == "" then None else Some(ContentText(ds)), LastCall(ds)))
  }

  /** The template engine (a compiled Handlebars template with the helpers) and the HTML parser. */
  datatype Engine = Engine(render: (string, TemplateContext) -> string, parse: string -> seq<Node>)

  /** What the prompt compiler makes of a job, given the lead's entries at compile time and its stored state. */
  function CompiledFor(job: AgentJob, entries: seq<Json>, stored: Option<StateMap>, engine: Engine): PromptCompiled
  {
    var ctx := TemplateContext(FilterTruthy(entries), MergeState(job.initState, stored, NewStateOf(job)), job.message);
    var doc := engine.parse(engine.render(job.prompt, ctx));
    PromptCompiled(PromptOf(doc), SettingsOf(doc), FunctionsOf(doc), ctx)
  }

  /**
   * One `process` call, from the lead's entries, its stored state and the
   * interrupt flag beforehand: the user message is recorded first, so both
   * the template and the request see it.
   */
  function ProcessTurn(job: AgentJob, entries: seq<Json>, stored: Option<StateMap>, defaultModel: string,
                       interrupt: bool, engine: Engine, script: Script): Result<Turn>
  {
    var pushed := entries + UserEntries(job.message);
    Outcome(CompiledFor(job, pushed, stored, engine), pushed, defaultModel, interrupt, script)
  }

  /**
   * One `process` call as the agent's log records it: the job, the lead's
   * entries, its stored state and the interrupt flag beforehand, the
   * template engine, the service's behaviour and the result.
   */
  datatype TurnCall = TurnCall(job: AgentJob, entries: seq<Json>, stored: Option<StateMap>, interrupt: bool,
                               engine: Engine, script: Script, result: Result<Turn>)

  /** The call returned what ProcessTurn gives for its inputs. */
  ghost predicate Returned(call: TurnCall, defaultModel: string)
  {
    call.result == ProcessTurn(call.job, call.entries, call.stored, defaultModel, call.interrupt, call.engine, call.script)
  }

  /**
   * Every logged call returned what ProcessTurn gives for its inputs. The
   * fact about one entry is drawn only where Returned is asked of it.
   */
  ghost predicate FaithfulLog(turns: seq<TurnCall>, defaultModel: string)
  {
    forall i :: 0 <= i < |turns| ==> Returned(turns[i], defaultModel)
  }

  /** A faithful log stays faithful when a call is appended whose result ProcessTurn describes. */
  lemma LogAppend(turns: seq<TurnCall>, call: TurnCall, defaultModel: string)
    requires FaithfulLog(turns, defaultModel)
    requires call.result == ProcessTurn(call.job, call.entries, call.stored, defaultModel, call.interrupt, call.engine, call.script)
    ensures FaithfulLog(turns + [call], defaultModel)
  {
    var log := turns + [call];
    forall i | 0 <= i < |log|
      ensures Returned(log[i], defaultModel)
    {
      if i < |turns| {
        assert log[i] == turns[i];
        assert Returned(turns[i], defaultModel);
      }
    }
  }

  /** What one `process` call appends to the lead's history. */
  function TurnEntries(job: AgentJob, r: Result<Turn>): seq<Json>
  {
    UserEntries(job.message) + (if r.Ok? then AssistantEntries(r.value.text) else [])
  }

  /** Step on a chunk, spelled out field by field for each of its four outcomes. */
  lemma ChunkStep(acc: Acc, e: Event)
    requires e.Chunk?
    ensures var name := NameAfter(acc.name, e);
      var arguments := acc.arguments + ArgumentsOf(e);
      Step(acc, e) ==
        if e.finishReason == Some(FUNCTION_CALL_FINISH) then
          Acc(acc.text, name, arguments, acc.interrupt, acc.deltas + [CallDelta(FunctionCall(name, arguments))], acc.consumed + 1, true)
        else if acc.interrupt then Acc(acc.text, name, arguments, false, acc.deltas, acc.consumed + 1, true)
        else if NonEmpty(e.content) then
          Acc(acc.text + e.content.value, name, arguments, acc.interrupt, acc.deltas + [ContentDelta(e.content.value)], acc.consumed + 1, acc.done)
        else Acc(acc.text, name, arguments, acc.interrupt, acc.deltas, acc.consumed + 1, acc.done)
  {
  }

  class LolaAgent {
    const stateStore: RedisChatStateProvider
    const historyStore: RedisHistoryProvider
    const defaultModel: string
    /** Whether an `on_text_received` callback was given. */
    const textCallbackSet: bool
    var producing: bool
    var needsInterrupt: bool
    /** The texts handed to `on_text_received`, in order. */
    var received: seq<string>
    /** Every `process` call so far, oldest first. */
    ghost var turns: seq<TurnCall>

    ghost predicate Faithful()
      reads this
    {
      FaithfulLog(turns, defaultModel)
    }

    constructor (defaultModel: Option<string>, textCallbackSet: bool)
      ensures fresh(stateStore) && fresh(historyStore)
      ensures stateStore.prefix == "s" && !stateStore.scoped && stateStore.hashes == map[]
      ensures historyStore.keyPrefix == "h" && historyStore.lists == map[]
      ensures this.defaultModel == (if NonEmpty(defaultModel) then defaultModel.value else DEFAULT_MODEL)
      ensures this.textCallbackSet == textCallbackSet
      ensures !producing && !needsInterrupt && received == []
      ensures turns == [] && Faithful()
    {
      stateStore := new RedisChatStateProvider();
      historyStore := new RedisHistoryProvider();
      this.defaultModel := if NonEmpty(defaultModel) then defaultModel.value else DEFAULT_MODEL;
      this.textCallbackSet := textCallbackSet;
      producing := false;
      needsInterrupt := false;
      received := [];
      turns := [];
    }

    method ClearHistory(lead: ChatLead)
      modifies historyStore
      ensures historyStore.lists == old(historyStore.lists) - {historyStore.Key(lead)}
    {
      historyStore.ClearHistory(lead, None);
    }

    method ClearState(lead: ChatLead)
      modifies stateStore
      ensures stateStore.hashes == old(stateStore.hashes) - {stateStore.Key(lead)}
    {
      stateStore.ClearStore(lead);
    }

    method SetState(lead: ChatLead, state: StateMap)
      modifies stateStore
      ensures stateStore.hashes == Written(old(stateStore.hashes), stateStore.Key(lead), state, state.Keys)
    {
      stateStore.SetStore(lead, state);
    }

    function GetState(lead: ChatLead): (r: Option<StateMap>)
      reads stateStore
      ensures r.None? <==> stateStore.FieldsOf(lead) == map[]
      ensures r.Some? ==> r.value == stateStore.FieldsOf(lead)
    {
      stateStore.GetStore(lead)
    }

    /** `set_key_value` returns nothing, so neither does this. */
    method SetStateValue(lead: ChatLead, key: string, value: Json) returns (r: Json)
      modifies stateStore
      ensures stateStore.hashes == HSet(old(stateStore.hashes), stateStore.Key(lead), key, value)
      ensures r == JNull
    {
      stateStore.SetKeyValue(lead, key, value);
      r := JNull;
    }

    method AddUserMessage(lead: ChatLead, message: string)
      modifies historyStore
      ensures historyStore.lists == Appended(old(historyStore.lists), historyStore.Key(lead), [UserMessage(message, None)])
    {
      historyStore.AppendToHistory(lead, UserMessage(message, None));
    }

    method AddAssistantMessage(lead: ChatLead, message: string)
      modifies historyStore
      ensures historyStore.lists == Appended(old(historyStore.lists), historyStore.Key(lead), [AssistantMessage(message, None, None)])
    {
      historyStore.AppendToHistory(lead, AssistantMessage(message, None, None));
    }

    method AddFunctionCallMessage(lead: ChatLead, call: FunctionCall)
      modifies historyStore
      ensures historyStore.lists
           == Appended(old(historyStore.lists), historyStore.Key(lead), [FunctionCallMessage(call.name, call.arguments)])
    {
      historyStore.AppendToHistory(lead, FunctionCallMessage(call.name, call.arguments));
    }

    method AddFunctionResponseMessage(lead: ChatLead, call: FunctionCall, response: Json)
      modifies historyStore
      ensures historyStore.lists
           == Appended(old(historyStore.lists), historyStore.Key(lead), [FunctionResponseMessage(call.name, response)])
    {
      historyStore.AppendToHistory(lead, FunctionResponseMessage(call.name, response));
    }

    /**
     * `request_stream`. An `InterruptSet` event stands for another task
     * setting the flag between two chunks. The stream's deltas are the
     * turn's; persisting the text happens once, after the loop.
     */
    method RequestStream(job: AgentJob, ctx: PromptCompiled, script: Script) returns (r: Result<Turn>)
      modifies this, historyStore
      ensures r == Outcome(ctx, old(historyStore.EntriesOf(job.lead)), defaultModel, old(needsInterrupt), script)
      ensures historyStore.lists
           == Appended(old(historyStore.lists), historyStore.Key(job.lead), if r.Ok? then AssistantEntries(r.value.text) else [])
      ensures needsInterrupt == (if r.Ok? then r.value.interruptAfter else old(needsInterrupt))
      ensures producing == (if r.Ok? && r.value.connected then false else old(producing))
      ensures received == old(received) + (if textCallbackSet && r.Ok? then ContentTexts(r.value.deltas) else [])
    {
      var config := ConfigOf(ctx.settings, defaultModel);
      if config.Err? {
        r := Err(config.error);
        return;
      }
      var c := config.value;
      var history := historyStore.GetLastMessages(job.lead, c.maxHistory);
      var request := Request(c.model, c.maxTokens, [PromptMessage(ctx.prompt)] + history, ctx.functions);
      if script.connectionTimesOut {
        r := Ok(Turn(request, false, [Notice(TIMEOUT_NOTICE)], "", needsInterrupt));
        return;
      }
      producing := true;
      var fin := ConsumeStream(script.events);
      if fin.text != "" {
        AddAssistantMessage(job.lead, fin.text);
      }
      producing := false;
      r := Ok(Turn(request, true, fin.deltas, fin.text, fin.interrupt));
    }

    /** The `while True` loop over the stream, from the flag's value on entry. */
    method ConsumeStream(events: seq<Event>) returns (fin: Acc)
      modifies `producing, `needsInterrupt, `received
      ensures fin == Run(Start(old(needsInterrupt)), events)
      ensures needsInterrupt == fin.interrupt
      ensures received == old(received) + (if textCallbackSet then ContentTexts(fin.deltas) else [])
      ensures producing ==> old(producing)
    {
      var acc := Start(needsInterrupt);
      ghost var start := acc;
      while acc.consumed < |events| && !acc.done
        invariant acc.consumed <= |events|
        invariant Run(acc, events[acc.consumed..]) == Run(start, events)
        invariant needsInterrupt == acc.interrupt
        invariant received == old(received) + (if textCallbackSet then ContentTexts(acc.deltas) else [])
        invariant producing ==> old(producing)
        decreases |events| - acc.consumed
      {
        var i := acc.consumed;
        assert events[i..][0] == events[i] && events[i..][1..] == events[i + 1..];
        acc := Advance(acc, events[i], old(received));
      }
      fin := acc;
    }

    /** One turn of the loop; `base` is the callback's log before the stream. */
    method Advance(acc: Acc, e: Event, ghost base: seq<string>) returns (next: Acc)
      requires needsInterrupt == acc.interrupt
      requires received == base + (if textCallbackSet then ContentTexts(acc.deltas) else [])
      modifies `producing, `needsInterrupt, `received
      ensures next == Step(acc, e)
      ensures needsInterrupt == next.interrupt
      ensures received == base + (if textCallbackSet then ContentTexts(next.deltas) else [])
      ensures producing == (if e.Cancelled? then false else old(producing))
    {
      match e {
        case Chunk(_, _, _) =>
          next := AdvanceChunk(acc, e, base);
        case InterruptSet =>
          needsInterrupt := true;
          next := acc.(interrupt := true, consumed := acc.consumed + 1);
        case ChunkTimeout =>
          next := acc.(consumed := acc.consumed + 1, done := true);
        case Exhausted =>
          next := acc.(consumed := acc.consumed + 1, done := true);
        case Cancelled =>
          producing := false;
          needsInterrupt := false;
          next := acc.(interrupt := false, consumed := acc.consumed + 1, done := true);
      }
    }

    /** One turn of the loop on a chunk: the call so far, then the finish, interrupt and content checks in that order. */
    method AdvanceChunk(acc: Acc, e: Event, ghost base: seq<string>) returns (next: Acc)
      requires e.Chunk?
      requires needsInterrupt == acc.interrupt
      requires received == base + (if textCallbackSet then ContentTexts(acc.deltas) else [])
      modifies `needsInterrupt, `received
      ensures next == Step(acc, e)
      ensures needsInterrupt == next.interrupt
      ensures received == base + (if textCallbackSet then ContentTexts(next.deltas) else [])
    {
      ChunkStep(acc, e);
      var name := NameAfter(acc.name, e);
      var arguments := acc.arguments + ArgumentsOf(e);
      if e.finishReason == Some(FUNCTION_CALL_FINISH) {
        var call := CallDelta(FunctionCall(name, arguments));
        AppendDelta(acc.deltas, call);
        next := Acc(acc.text, name, arguments, acc.interrupt, acc.deltas + [call], acc.consumed + 1, true);
      } else if needsInterrupt {
        needsInterrupt := false;
        next := Acc(acc.text, name, arguments, false, acc.deltas, acc.consumed + 1, true);
      } else if NonEmpty(e.content) {
        var c := e.content.value;
        AppendDelta(acc.deltas, ContentDelta(c));
        if textCallbackSet {
          received := received + [c];
        }
        next := Acc(acc.text + c, name, arguments, acc.interrupt, acc.deltas + [ContentDelta(c)], acc.consumed + 1, acc.done);
      } else {
        next := Acc(acc.text, name, arguments, acc.interrupt, acc.deltas, acc.consumed + 1, acc.done);
      }
    }

    /**
     * `process`, reading a job without a `new_state` attribute (every lite
     * job) as having None; the source's own reading is ProcessAsWritten.
     * The call is appended to the log, which stays faithful.
     */
    method Process(job: AgentJob, engine: Engine, script: Script) returns (r: Result<Turn>)
      requires Faithful()
      modifies this, historyStore
      ensures Faithful()
      ensures turns == old(turns) + [TurnCall(job, old(historyStore.EntriesOf(job.lead)), old(stateStore.GetStore(job.lead)),
                                              old(needsInterrupt), engine, script, r)]
      ensures historyStore.lists == Appended(old(historyStore.lists), historyStore.Key(job.lead), TurnEntries(job, r))
      ensures needsInterrupt == (if r.Ok? then r.value.interruptAfter else old(needsInterrupt))
      ensures producing == (if r.Ok? && r.value.connected then false else old(producing))
      ensures received == old(received) + (if textCallbackSet && r.Ok? then ContentTexts(r.value.deltas) else [])
    {
      ghost var entries, stored, interrupt := historyStore.EntriesOf(job.lead), stateStore.GetStore(job.lead), needsInterrupt;
      r := ProcessUnlogged(job, engine, script);
      LogAppend(old(turns), TurnCall(job, entries, stored, interrupt, engine, script, r), defaultModel);
      turns := old(turns) + [TurnCall(job, entries, stored, interrupt, engine, script, r)];
    }

    /** `process` itself: the turn ProcessTurn describes, and its effect on the history and the flags. */
    method ProcessUnlogged(job: AgentJob, engine: Engine, script: Script) returns (r: Result<Turn>)
      modifies this, historyStore
      ensures r == ProcessTurn(job, old(historyStore.EntriesOf(job.lead)), old(stateStore.GetStore(job.lead)),
                               defaultModel, old(needsInterrupt), engine, script)
      ensures historyStore.lists == Appended(old(historyStore.lists), historyStore.Key(job.lead), TurnEntries(job, r))
      ensures needsInterrupt == (if r.Ok? then r.value.interruptAfter else old(needsInterrupt))
      ensures producing == (if r.Ok? && r.value.connected then false else old(producing))
      ensures received == old(received) + (if textCallbackSet && r.Ok? then ContentTexts(r.value.deltas) else [])
    {
      ghost var entries := historyStore.EntriesOf(job.lead);
      if NonEmpty(job.message) {
        AddUserMessage(job.lead, job.message.value);
      }
      assert historyStore.EntriesOf(job.lead) == entries + UserEntries(job.message);
      LRangeAll(historyStore.EntriesOf(job.lead));
      var compiler := new PromptCompiler(job, job.prompt, historyStore, stateStore);
      var ctx := compiler.Process(engine.render, engine.parse, job.initState, NewStateOf(job));
      r := RequestStream(job, ctx, script);
      AppendedTwice(old(historyStore.lists), historyStore.Key(job.lead), UserEntries(job.message),
                    if r.Ok? then AssistantEntries(r.value.text) else []);
    }

    /**
     * `process` as written: for a job without `new_state` the user message
     * is recorded, then reading the attribute fails before any request.
     */
    method ProcessAsWritten(job: AgentJob, engine: Engine, script: Script) returns (r: Result<Turn>)
      requires Faithful()
      modifies this, historyStore
      ensures Faithful()
      ensures job.newState.Absent? ==> r == Err(AttributeError("new_state"))
      ensures job.newState.Absent? ==>
        historyStore.lists == Appended(old(historyStore.lists), historyStore.Key(job.lead), UserEntries(job.message))
      ensures job.newState.Absent? ==> unchanged(this)
      ensures job.newState.Present? ==>
        turns == old(turns) + [TurnCall(job, old(historyStore.EntriesOf(job.lead)), old(stateStore.GetStore(job.lead)),
                                        old(needsInterrupt), engine, script, r)]
      ensures job.newState.Present? ==>
        historyStore.lists == Appended(old(historyStore.lists), historyStore.Key(job.lead), TurnEntries(job, r))
      ensures job.newState.Present? ==>
        && needsInterrupt == (if r.Ok? then r.value.interruptAfter else old(needsInterrupt))
        && producing == (if r.Ok? && r.value.connected then false else old(producing))
        && received == old(received) + (if textCallbackSet && r.Ok? then ContentTexts(r.value.deltas) else [])
    {
      var newState := NewStateAsWritten(job);
      if newState.Err? {
        if NonEmpty(job.message) {
          AddUserMessage(job.lead, job.message.value);
        }
        r := Err(newState.error);
      } else {
        r := Process(job, engine, script);
      }
    }

    /** `process_results_coro` over the deltas a stream yields. */
    method ProcessResults(ds: seq<Delta>) returns (r: Result<Response>)
      ensures r == ResponseOf(ds)
    {
      var content := "";
      var call: Option<FunctionCall> := None;
      var i := 0;
      while i < |ds|
        invariant 0 <= i <= |ds|
        invariant !HasNotice(ds[..i])
        invariant content == ContentText(ds[..i]) && call == LastCall(ds[..i])
      {
        assert ds[..i + 1][..i] == ds[..i];
        AppendDelta(ds[..i], ds[i]);
        assert ds[..i + 1] == ds[..i] + [ds[i]];
        match ds[i] {
          case Notice(_) =>
            assert HasNotice(ds) by { assert ds[i].Notice?; }
            r := Err(AttributeError("get"));
            return;
          case ContentDelta(c) =>
            if c != "" {
              content := content + c;
            }
          case CallDelta(f) =>
            call := Some(f);
        }
        i := i + 1;
      }
      assert ds[..i] == ds;
      r := Ok(Response(if content == "" then None else Some(content), call));
    }
  }

  /** Without settings the request uses the agent's model, 1500 tokens and the newest 10 entries. */
  lemma DefaultSettings(defaultModel: string)
    ensures ConfigOf(map[], defaultModel) == Ok(Config(defaultModel, DEFAULT_MAX_TOKENS, DEFAULT_MAX_HISTORY))
  {
  }

  /** An empty `max_tokens` falls back to 1500, an empty `max_history_length` is a ValueError. */
  lemma EmptySettingValues(defaultModel: string)
    ensures ConfigOf(map["max_tokens" := ""], defaultModel) == Ok(Config(defaultModel, DEFAULT_MAX_TOKENS, DEFAULT_MAX_HISTORY))
    ensures ConfigOf(map["max_history_length" := ""], defaultModel) == Err(ValueError(""))
  {
    var noTokens := map["max_tokens" := ""];
    assert "max_history_length" !in noTokens && "model" !in noTokens && noTokens["max_tokens"] == "";
    var noDepth := map["max_history_length" := ""];
    assert Strip("") == "" by {
      assert LeadingSpace("") == 0;
    }
    assert ParseInt(noDepth["max_history_length"]) == Err(ValueError(""));
  }

  /**
   * The request holds the system prompt and then the newest `maxHistory`
   * stored entries in store order; a depth of 0 sends the whole list and a
   * negative depth `-k` drops the OLDEST k entries instead.
   */
  lemma RequestWindow(prompt: string, entries: seq<Json>, maxHistory: int)
    ensures RequestMessages(prompt, entries, maxHistory)[0] == PromptMessage(prompt)
    ensures maxHistory > 0 ==>
      RequestMessages(prompt, entries, maxHistory) == [PromptMessage(prompt)] + entries[|entries| - Min(maxHistory, |entries|)..]
    ensures maxHistory == 0 ==> RequestMessages(prompt, entries, maxHistory) == [PromptMessage(prompt)] + entries
    ensures maxHistory < 0 ==>
      RequestMessages(prompt, entries, maxHistory) == [PromptMessage(prompt)] + entries[Min(-maxHistory, |entries|)..]
  {
    LastElements(entries, maxHistory);
  }

  /** With valid settings the turn sends the compiled prompt and the newest entries its history depth allows. */
  lemma OutcomeRequest(ctx: PromptCompiled, entries: seq<Json>, defaultModel: string, interrupt: bool, script: Script)
    requires ConfigOf(ctx.settings, defaultModel).Ok?
    ensures Outcome(ctx, entries, defaultModel, interrupt, script).Ok?
    ensures Outcome(ctx, entries, defaultModel, interrupt, script).value.request.messages
         == RequestMessages(ctx.prompt, entries, ConfigOf(ctx.settings, defaultModel).value.maxHistory)
  {
  }

  /** A request whose history depth reaches over the newest entries ends with them. */
  lemma WindowKeepsNewest(prompt: string, front: seq<Json>, newest: seq<Json>, maxHistory: int)
    requires maxHistory >= |newest| > 0
    ensures |RequestMessages(prompt, front + newest, maxHistory)| > |newest|
    ensures RequestMessages(prompt, front + newest, maxHistory)[|RequestMessages(prompt, front + newest, maxHistory)| - |newest|..] == newest
  {
    var pushed := front + newest;
    RequestWindow(prompt, pushed, maxHistory);
    var window := pushed[|pushed| - Min(maxHistory, |pushed|)..];
    var m := RequestMessages(prompt, pushed, maxHistory);
    assert m == [PromptMessage(prompt)] + window;
    assert window[|window| - |newest|..] == newest by {
      assert pushed[|pushed| - |newest|..] == newest;
    }
    assert m[|m| - |newest|..] == window[|window| - |newest|..];
  }

  /**
   * A request ends with the newest entries whenever its history depth
   * reaches that far (so a continuation's request ends with the
   * function-call bookkeeping recorded just before it).
   */
  lemma RequestEndsWithNewest(ctx: PromptCompiled, front: seq<Json>, newest: seq<Json>, defaultModel: string,
                              interrupt: bool, script: Script)
    requires ConfigOf(ctx.settings, defaultModel).Ok? && ConfigOf(ctx.settings, defaultModel).value.maxHistory >= |newest| > 0
    ensures Outcome(ctx, front + newest, defaultModel, interrupt, script).Ok?
    ensures var m := Outcome(ctx, front + newest, defaultModel, interrupt, script).value.request.messages;
      |m| > |newest| && m[|m| - |newest|..] == newest
  {
    OutcomeRequest(ctx, front + newest, defaultModel, interrupt, script);
    WindowKeepsNewest(ctx.prompt, front, newest, ConfigOf(ctx.settings, defaultModel).value.maxHistory);
  }

  /** The user message `process` records is the newest message of the request it sends. */
  lemma UserMessageIsNewest(prompt: string, entries: seq<Json>, message: string, maxHistory: int)
    requires maxHistory > 0
    ensures RequestMessages(prompt, entries + [UserMessage(message, None)], maxHistory)[|RequestMessages(prompt, entries + [UserMessage(message, None)], maxHistory)| - 1]
         == UserMessage(message, None)
  {
    AppendedIsNewest(entries, UserMessage(message, None), maxHistory);
    LastElements(entries + [UserMessage(message, None)], maxHistory);
  }

  /**
   * On a connection time-out the turn yields only the bare notice and no
   * text (so nothing is recorded), and folding its deltas fails on `.get`.
   */
  lemma TimeoutTurn(ctx: PromptCompiled, entries: seq<Json>, defaultModel: string, interrupt: bool, script: Script)
    requires script.connectionTimesOut
    requires Outcome(ctx, entries, defaultModel, interrupt, script).Ok?
    ensures Outcome(ctx, entries, defaultModel, interrupt, script).value.deltas == [Notice(TIMEOUT_NOTICE)]
    ensures Outcome(ctx, entries, defaultModel, interrupt, script).value.text == ""
    ensures ResponseOf(Outcome(ctx, entries, defaultModel, interrupt, script).value.deltas) == Err(AttributeError("get"))
  {
    assert Outcome(ctx, entries, defaultModel, interrupt, script).value.deltas[0].Notice?;
  }

  lemma {:induction false} NoCallsNoLastCall(ds: seq<Delta>)
    requires forall i :: 0 <= i < |ds| ==> !ds[i].CallDelta?
    ensures LastCall(ds) == None
  {
    if ds != [] {
      NoCallsNoLastCall(ds[..|ds| - 1]);
    }
  }

  /**
   * A connected turn folds into its text (None when empty) and its call:
   * the call exists exactly when the last delta is one, and then it holds the
   * name of the last chunk that carried one and the concatenated argument
   * fragments of all the consumed chunks.
   */
  lemma ConnectedTurnResponse(ctx: PromptCompiled, entries: seq<Json>, defaultModel: string, interrupt: bool, script: Script)
    requires !script.connectionTimesOut
    requires Outcome(ctx, entries, defaultModel, interrupt, script).Ok?
    ensures var t := Outcome(ctx, entries, defaultModel, interrupt, script).value;
      ResponseOf(t.deltas) == Ok(Response(if t.text == "" then None else Some(t.text), LastCall(t.deltas)))
    ensures var t := Outcome(ctx, entries, defaultModel, interrupt, script).value;
      LastCall(t.deltas).Some? <==> |t.deltas| > 0 && t.deltas[|t.deltas| - 1].CallDelta?
    ensures var t := Outcome(ctx, entries, defaultModel, interrupt, script).value;
      var taken := Taken(Start(interrupt), script.events);
      LastCall(t.deltas).Some? ==> LastCall(t.deltas).value == FunctionCall(LastGivenName(None, taken), JoinedArguments(taken))
  {
    var fin := Run(Start(interrupt), script.events);
    var c := ConfigOf(ctx.settings, defaultModel).value;
    assert Outcome(ctx, entries, defaultModel, interrupt, script)
        == Ok(Turn(Request(c.model, c.maxTokens, RequestMessages(ctx.prompt, entries, c.maxHistory), ctx.functions),
                   true, fin.deltas, fin.text, fin.interrupt));
    RunWellFormed(Start(interrupt), script.events);
    RunJoinsArguments(Start(interrupt), script.events);
    RunKeepsLastName(Start(interrupt), script.events);
    WellFormedFold(fin);
  }

  /** A well-formed end of the loop folds into its text and, when the last delta is a call, that call. */
  lemma WellFormedFold(fin: Acc)
    requires WellFormed(fin)
    ensures ResponseOf(fin.deltas) == Ok(Response(if fin.text == "" then None else Some(fin.text), LastCall(fin.deltas)))
    ensures LastCall(fin.deltas).Some? <==> |fin.deltas| > 0 && fin.deltas[|fin.deltas| - 1].CallDelta?
    ensures LastCall(fin.deltas).Some? ==> LastCall(fin.deltas).value == FunctionCall(fin.name, fin.arguments)
  {
    var ds := fin.deltas;
    if ds != [] && !ds[|ds| - 1].CallDelta? {
      var init := ds[..|ds| - 1];
      forall i | 0 <= i < |init|
        ensures !init[i].CallDelta?
      {
        assert init[i] == ds[i];
      }
      NoCallsNoLastCall(init);
    }
  }

  /** A truthy job message reaches the template as the newest history entry. */
  lemma UserMessageInContext(job: AgentJob, entries: seq<Json>, stored: Option<StateMap>, engine: Engine)
    requires NonEmpty(job.message)
    ensures CompiledFor(job, entries + UserEntries(job.message), stored, engine).context.history
         == FilterTruthy(entries) + [UserMessage(job.message.value, None)]
  {
    assert Truthy(UserMessage(job.message.value, None));
    AppendTruthyShowsInHistory(entries, UserMessage(job.message.value, None));
  }

  /**
   * Read as None, the missing `new_state` of a lite job leaves the template
   * state to the initial and the stored layers, the stored one winning.
   */
  lemma LiteJobState(jobId: string, lead: ChatLead, message: Option<string>, prompt: Option<string>,
                     initState: Option<StateMap>, entries: seq<Json>, stored: Option<StateMap>, engine: Engine)
    ensures CompiledFor(LiteJob(jobId, lead, message, prompt, initState), entries, stored, engine).context.state
         == OrEmpty(initState) + OrEmpty(stored)
    ensures NewStateAsWritten(LiteJob(jobId, lead, message, prompt, initState)) == Err(AttributeError("new_state"))
  {
    assert OrEmpty(None) == map[];
    assert OrEmpty(initState) + OrEmpty(stored) + map[] == OrEmpty(initState) + OrEmpty(stored);
  }
}
