// The message gateway in front of an agent: handler registries, the
// first-message events, outgoing messages, and the stream that answers a
// function call with a registered command before one continuation.

module Gateway {
  import opened PyValues
  import opened Records
  import opened History
  import opened Messages
  import opened AgentStream
  import opened LiteAgent
  import opened Controller
  import opened Plugin
  import Compiler

  /** The job id used when `add_message` is given none. */
  const DEFAULT_JOB_ID: string := "123"

  const NEW_CONVERSATION: string := "onNewConversation"
  const TEXT_MESSAGE: string := "onTextMessage"

  /** The session handed to handlers: the lead's invariant hash as id, and the lead. */
  datatype Session = Session(id: string, lead: ChatLead)

  /** The `{"lead": ..., "text": ...}` arguments of a message event. */
  datatype EventData = EventData(lead: ChatLead, text: string)

  /** One call of an event handler: the event's name, the session and the arguments. */
  datatype Dispatch = Dispatch(name: string, session: Session, data: EventData)

  /** A command handler `(session, ctx, cmd)`; the context is not modelled. */
  type CommandHandler = (Session, Json) -> Json

  /** An event handler `(session, ctx, event_arguments)`; its result is dropped. */
  type EventHandler = (Session, EventData) -> Json

  /** The `{"data": {"name": ..., "args": ...}}` a command receives. */
  function CommandPayload(name: string, args: Json): Json
  {
    JObj(map["data" := JObj(map["name" := JStr(name), "args" := args])])
  }

  /**
   * What `_call_function` returns: None unless a command is registered
   * under the name; a registered command gets the parsed arguments, and
   * arguments that are not JSON raise before it runs.
   */
  function CommandResult(handlers: map<string, CommandHandler>, session: Session, loads: string -> Option<Json>,
                         name: Option<string>, arguments: string): Result<Json>
  {
    if name.Some? && name.value in handlers then
      match loads(arguments)
      case None => Err(JsonDecodeError(arguments))
      case Some(args) => Ok(handlers[name.value](session, CommandPayload(name.value, args)))
    else Ok(JNull)
  }

  /** The handler calls `_call_event` makes: one when a handler is registered under the name, none otherwise. */
  function Dispatched(handlers: map<string, EventHandler>, name: string, session: Session, data: EventData): seq<Dispatch>
  {
    if name in handlers then [Dispatch(name, session, data)] else []
  }

  /** The continuation's job: an assistant job with the first job's id, lead, prompt and initial state, no message and no `new_state`. */
  function GatewayContinuation(job: AgentJob): AgentJob
  {
    AssistantJob(job.jobId, job.lead, None, Some(job.prompt), job.initState, None)
  }

  /** The bookkeeping for a call: the call message, then the command's result unless `_call_function` raised. */
  function GatewayBookkeeping(call: FunctionCall, response: Result<Json>): seq<Json>
  {
    [FunctionCallMessage(call.name, call.arguments)]
      + (if response.Ok? then [FunctionResponseMessage(call.name, response.value)] else [])
  }

  /** What `_call_function` gives for the call of a first turn `t1`, if it asks for one. */
  function ResponseFor(handlers: map<string, CommandHandler>, session: Session, loads: string -> Option<Json>,
                       t1: Result<Turn>): Result<Json>
  {
    if PluginCallOf(t1).Some? then CommandResult(handlers, session, loads, PluginCallOf(t1).value.name, PluginCallOf(t1).value.arguments)
    else Ok(JNull)
  }

  /** Whether the continuation runs: the first pass asks for a call and `_call_function` does not raise. */
  predicate Continues(t1: Result<Turn>, response: Result<Json>)
  {
    PluginCallOf(t1).Some? && response.Ok?
  }

  /** What the bookkeeping records after a first turn `t1`, given the response to its call. */
  function GatewayRecord(t1: Result<Turn>, response: Result<Json>): seq<Json>
  {
    if PluginCallOf(t1).Some? then GatewayBookkeeping(PluginCallOf(t1).value, response) else []
  }

  /**
   * The stream made of a first turn `t1`, the response to its call and the
   * continuation's turn `t2`, which only counts when the stream continues.
   */
  function GatewayCombine(job: AgentJob, t1: Result<Turn>, response: Result<Json>, t2: Result<Turn>, interrupt: bool, producing: bool): Streamed
  {
    var e1 := TurnEntries(job, t1);
    var y1 := Passed(t1);
    var f1 := FirstPass(t1);
    if f1.Err? then
      Streamed(y1.texts, Some(f1.error), e1, InterruptAfter(t1, interrupt), ProducingAfter(t1, producing), TextsOf(t1))
    else if f1.value.None? then
      Streamed(y1.texts, None, e1, InterruptAfter(t1, interrupt), ProducingAfter(t1, producing), TextsOf(t1))
    else if response.Err? then
      Streamed(y1.texts, Some(response.error), e1 + GatewayBookkeeping(f1.value.value, response),
               InterruptAfter(t1, interrupt), ProducingAfter(t1, producing), TextsOf(t1))
    else
      var y2 := Passed(t2);
      Streamed(y1.texts + y2.texts, y2.error, e1 + GatewayBookkeeping(f1.value.value, response) + TurnEntries(GatewayContinuation(job), t2),
               InterruptAfter(t2, InterruptAfter(t1, interrupt)), ProducingAfter(t2, ProducingAfter(t1, producing)),
               TextsOf(t1) + TextsOf(t2))
  }

  /** The continuation's turn: it sees the first turn's entries and the bookkeeping. */
  function GatewaySecondTurn(job: AgentJob, entries: seq<Json>, stored: Option<StateMap>, defaultModel: string,
                             interrupt: bool, engine: Engine, t1: Result<Turn>, response: Result<Json>, second: Script): Result<Turn>
  {
    ProcessTurn(GatewayContinuation(job), entries + TurnEntries(job, t1) + GatewayRecord(t1, response), stored, defaultModel,
                InterruptAfter(t1, interrupt), engine, second)
  }

  /**
   * The gateway's `handle_lola_stream` from the lead's entries, its stored
   * state, the agent's flags and the command registry beforehand.
   */
  function GatewayStream(job: AgentJob, entries: seq<Json>, stored: Option<StateMap>, defaultModel: string,
                         interrupt: bool, producing: bool, engine: Engine, handlers: map<string, CommandHandler>,
                         session: Session, loads: string -> Option<Json>, first: Script, second: Script): Streamed
  {
    var t1 := ProcessTurn(job, entries, stored, defaultModel, interrupt, engine, first);
    var response := ResponseFor(handlers, session, loads, t1);
    GatewayCombine(job, t1, response, GatewaySecondTurn(job, entries, stored, defaultModel, interrupt, engine, t1, response, second),
                   interrupt, producing)
  }

  /** The calls a stream makes to the agent: the first turn, and the continuation when the stream continues. */
  function GatewayLog(job: AgentJob, entries: seq<Json>, stored: Option<StateMap>, interrupt: bool, engine: Engine,
                      first: Script, second: Script, t1: Result<Turn>, response: Result<Json>, t2: Result<Turn>): seq<TurnCall>
  {
    [TurnCall(job, entries, stored, interrupt, engine, first, t1)]
      + (if Continues(t1, response) then
           [TurnCall(GatewayContinuation(job), entries + TurnEntries(job, t1) + GatewayRecord(t1, response), stored,
                     InterruptAfter(t1, interrupt), engine, second, t2)]
         else [])
  }

  /** The calls the `on_function_call` observer gets during a stream: one for the first turn's call, if any. */
  function ObservedDuring(observerSet: bool, t1: Result<Turn>): seq<FunctionCall>
  {
    if observerSet && PluginCallOf(t1).Some? then [PluginCallOf(t1).value] else []
  }

  /**
   * The agent's side of a finished stream `run`: its log gained the
   * stream's `calls`, the result holds the stream's texts and error, the
   * lead's history (under `key`) gained the stream's entries, the flags are
   * the stream's and the text callback got the stream's texts.
   */
  ghost predicate AgentAfter(run: Streamed, r: Yielded, calls: seq<TurnCall>, key: string,
                             turns0: seq<TurnCall>, lists0: Lists, received0: seq<string>,
                             turns: seq<TurnCall>, lists: Lists, interrupt: bool, producing: bool, received: seq<string>,
                             textCallbackSet: bool)
  {
    && turns == turns0 + calls
    && r == Yielded(run.texts, run.error)
    && lists == Appended(lists0, key, run.entries)
    && interrupt == run.interrupt && producing == run.producing
    && received == received0 + (if textCallbackSet then run.received else [])
  }

  class LolaMessageGateway {
    const sessionId: string
    const prompt: string
    const initState: Option<StateMap>
    const lead: ChatLead
    const agent: LolaAgent
    /** Whether an `on_function_call` observer was given. */
    const observerSet: bool
    /** Whether an `on_outgoing_message` callback was given. */
    const outgoingSet: bool
    /** `get_invariant_hash` of a lead (a hash of its JSON form). */
    const leadHash: ChatLead -> string
    /** `json.loads`: None when the text is not JSON. */
    const loads: string -> Option<Json>
    /** The cached `_first_message`: None until it is asked for. */
    var firstMessage: Option<bool>
    var producing: bool
    var needsInterrupt: bool
    var cmdHandlers: map<string, CommandHandler>
    var clientCmdHandlers: map<string, CommandHandler>
    var eventHandlers: map<string, EventHandler>
    var notificationHandlers: map<string, CommandHandler>
    /** The calls handed to the `on_function_call` observer, in order. */
    var observed: seq<FunctionCall>
    /** The event handler calls, in order. */
    var dispatched: seq<Dispatch>
    /** The messages handed to `on_outgoing_message`, in order. */
    var outgoing: seq<string>

    constructor (sessionId: string, prompt: string, textCallbackSet: bool, observerSet: bool, outgoingSet: bool,
                 initState: Option<StateMap>, leadHash: ChatLead -> string, loads: string -> Option<Json>)
      ensures this.sessionId == sessionId && this.prompt == prompt && this.initState == initState
      ensures this.observerSet == observerSet && this.outgoingSet == outgoingSet
      ensures this.leadHash == leadHash && this.loads == loads
      ensures lead == NewLead(sessionId, "test", "tenant", "assistant")
      ensures fresh(agent) && fresh(agent.historyStore) && fresh(agent.stateStore)
      ensures agent.textCallbackSet == textCallbackSet
      ensures agent.historyStore.lists == map[] && agent.stateStore.hashes == map[]
      ensures !agent.producing && !agent.needsInterrupt && agent.received == []
      ensures agent.turns == [] && agent.Faithful()
      ensures firstMessage.None? && !producing && !needsInterrupt
      ensures cmdHandlers == map[] && clientCmdHandlers == map[] && eventHandlers == map[] && notificationHandlers == map[]
      ensures observed == [] && dispatched == [] && outgoing == []
    {
      this.sessionId := sessionId;
      this.prompt := prompt;
      this.initState := initState;
      this.observerSet := observerSet;
      this.outgoingSet := outgoingSet;
      this.leadHash := leadHash;
      this.loads := loads;
      lead := NewLead(sessionId, "test", "tenant", "assistant");
      agent := new LolaAgent(None, textCallbackSet);
      firstMessage := None;
      producing := false;
      needsInterrupt := false;
      cmdHandlers := map[];
      clientCmdHandlers := map[];
      eventHandlers := map[];
      notificationHandlers := map[];
      observed := [];
      dispatched := [];
      outgoing := [];
    }

    /** `__buildSession`. */
    function BuildSession(): Session
    {
      Session(leadHash(lead), lead)
    }

    /** Raises the gateway's own flag while a response is being produced; the agent's flag is left as it is. */
    method Interrupt()
      modifies this`needsInterrupt
      ensures needsInterrupt == (old(needsInterrupt) || producing)
      ensures agent.needsInterrupt == old(agent.needsInterrupt)
    {
      if producing {
        needsInterrupt := true;
      }
    }

    /**
     * The `first_message` getter: `isFirst` is the agent's answer to
     * `is_first_message`, asked only while nothing is cached; the answer is
     * cached and returned.
     */
    method FirstMessage(isFirst: bool) returns (r: bool)
      modifies this`firstMessage
      ensures old(firstMessage).Some? ==> r == old(firstMessage).value && firstMessage == old(firstMessage)
      ensures old(firstMessage).None? ==> r == isFirst && firstMessage == Some(isFirst)
    {
      if firstMessage.None? {
        firstMessage := Some(isFirst);
      }
      r := firstMessage.value;
    }

    /** The `first_message` setter. */
    method SetFirstMessage(value: Option<bool>)
      modifies this`firstMessage
      ensures firstMessage == value
    {
      firstMessage := value;
    }

    /**
     * `add_outgoing_message`: blending (the agent's rewrite of the message
     * in context) comes first, then the history, then the callback, whose
     * exceptions are swallowed. A private message is only logged.
     */
    method AddOutgoingMessage(message: string, appendToHistory: bool, isPrivate: bool, blend: bool,
                              blendIntoContext: (ChatLead, string) -> string)
      modifies this`outgoing, agent.historyStore
      ensures var sent := if blend then blendIntoContext(lead, message) else message;
        && agent.historyStore.lists
           == (if appendToHistory then Appended(old(agent.historyStore.lists), agent.historyStore.Key(lead), [UserMessage(sent, None)])
               else old(agent.historyStore.lists))
        && outgoing == old(outgoing) + (if outgoingSet then [sent] else [])
    {
      var text := message;
      if blend {
        text := blendIntoContext(lead, message);
      }
      if appendToHistory {
        agent.AddUserMessage(lead, text);
      }
      if outgoingSet {
        outgoing := outgoing + [text];
      }
    }

    /** `clear_history`: the cached first-message flag is forgotten with the lead's history. */
    method ClearHistory()
      modifies this`firstMessage, agent.historyStore
      ensures firstMessage.None?
      ensures agent.historyStore.lists == old(agent.historyStore.lists) - {agent.historyStore.Key(lead)}
    {
      firstMessage := None;
      agent.ClearHistory(lead);
    }

    /** `add_message_to_history`: a user or an assistant message; any other role is ignored. */
    method AddMessageToHistory(role: string, message: string)
      modifies agent.historyStore
      ensures role == "user" ==>
        agent.historyStore.lists == Appended(old(agent.historyStore.lists), agent.historyStore.Key(lead), [UserMessage(message, None)])
      ensures role == "assistant" ==>
        agent.historyStore.lists == Appended(old(agent.historyStore.lists), agent.historyStore.Key(lead), [AssistantMessage(message, None, None)])
      ensures role != "user" && role != "assistant" ==> agent.historyStore.lists == old(agent.historyStore.lists)
    {
      if role == "user" {
        agent.AddUserMessage(lead, message);
      } else if role == "assistant" {
        agent.AddAssistantMessage(lead, message);
      }
    }

    /** `_call_function`: the observer always hears of the call; the result is the registered command's (CommandResult). */
    method CallFunction(name: Option<string>, arguments: string) returns (r: Result<Json>)
      modifies this`observed
      ensures r == CommandResult(cmdHandlers, BuildSession(), loads, name, arguments)
      ensures observed == old(observed) + (if observerSet then [FunctionCall(name, arguments)] else [])
    {
      if observerSet {
        observed := observed + [FunctionCall(name, arguments)];
      }
      r := Ok(JNull);
      if name.Some? && name.value in cmdHandlers {
        var args := loads(arguments);
        if args.None? {
          r := Err(JsonDecodeError(arguments));
          return;
        }
        var command := cmdHandlers[name.value];
        r := Ok(command(BuildSession(), CommandPayload(name.value, args.value)));
      }
    }

    /** `_call_event`: the registered handler, if any, is called with the session and the arguments. */
    method CallEvent(name: string, data: EventData)
      modifies this`dispatched
      ensures dispatched == old(dispatched) + Dispatched(eventHandlers, name, BuildSession(), data)
    {
      if name in eventHandlers {
        var handler := eventHandlers[name];
        var result := handler(BuildSession(), EventData(data.lead, data.text));
        dispatched := dispatched + [Dispatch(name, BuildSession(), data)];
      }
    }

    /**
     * The events of `add_message`: `onNewConversation` for the first
     * message (and the flag is lowered), `onTextMessage` otherwise. Either
     * way the cached flag is False afterwards.
     */
    method Announce(message: string, isFirst: bool)
      modifies this`firstMessage, this`dispatched
      ensures var wasFirst := if old(firstMessage).Some? then old(firstMessage).value else isFirst;
        dispatched == old(dispatched)
                      + Dispatched(eventHandlers, if wasFirst then NEW_CONVERSATION else TEXT_MESSAGE, BuildSession(), EventData(lead, message))
      ensures firstMessage == Some(false)
    {
      var first := FirstMessage(isFirst);
      if first {
        CallEvent(NEW_CONVERSATION, EventData(lead, message));
        firstMessage := Some(false);
      } else {
        CallEvent(TEXT_MESSAGE, EventData(lead, message));
      }
    }

    /** The job for a message: an assistant job with the given id or "123", the gateway's lead, prompt and state layers. */
    function MessageJob(message: string, newState: Option<StateMap>, jobId: Option<string>): (job: AgentJob)
      ensures job == AssistantJob(StrOr(jobId, DEFAULT_JOB_ID), lead, Some(message), Some(prompt), initState, newState)
    {
      AssistantJob(StrOr(jobId, DEFAULT_JOB_ID), lead, Some(message), Some(prompt), initState, newState)
    }

    /**
     * `add_message`: the events, then the stream of the message's job.
     * `isFirst` answers `is_first_message`; `t1`, the response and `t2`
     * describe the stream (GatewayStreamIsLogged relates it to GatewayStream).
     */
    method AddMessage(message: string, newState: Option<StateMap>, jobId: Option<string>, isFirst: bool,
                      engine: Engine, first: Script, second: Script)
      returns (r: Yielded, ghost t1: Result<Turn>, ghost response: Result<Json>, ghost t2: Result<Turn>)
      requires agent.Faithful()
      modifies this`firstMessage, this`dispatched, this`observed, this`producing, agent, agent.historyStore
      ensures agent.Faithful()
      ensures var wasFirst := if old(firstMessage).Some? then old(firstMessage).value else isFirst;
        dispatched == old(dispatched)
                      + Dispatched(old(eventHandlers), if wasFirst then NEW_CONVERSATION else TEXT_MESSAGE, BuildSession(), EventData(lead, message))
      ensures firstMessage == Some(false)
      ensures response == ResponseFor(old(cmdHandlers), BuildSession(), loads, t1)
      ensures var job := MessageJob(message, newState, jobId);
        AgentAfter(GatewayCombine(job, t1, response, t2, old(agent.needsInterrupt), old(agent.producing)), r,
                   GatewayLog(job, old(agent.historyStore.EntriesOf(lead)), old(agent.stateStore.GetStore(lead)),
                              old(agent.needsInterrupt), engine, first, second, t1, response, t2),
                   agent.historyStore.Key(lead), old(agent.turns), old(agent.historyStore.lists), old(agent.received),
                   agent.turns, agent.historyStore.lists, agent.needsInterrupt, agent.producing, agent.received, agent.textCallbackSet)
      ensures observed == old(observed) + ObservedDuring(observerSet, t1)
      ensures producing == r.error.Some? && needsInterrupt == old(needsInterrupt)
    {
      Announce(message, isFirst);
      var job := MessageJob(message, newState, jobId);
      r, t1, response, t2 := HandleLolaStream(job, engine, first, second);
    }

    /**
     * `handle_lola_stream` for a job of the gateway's lead: `producing` is
     * raised first and lowered only when the stream ends without an exception.
     */
    method HandleLolaStream(job: AgentJob, engine: Engine, first: Script, second: Script)
      returns (r: Yielded, ghost t1: Result<Turn>, ghost response: Result<Json>, ghost t2: Result<Turn>)
      requires job.lead == lead && agent.Faithful()
      modifies this`observed, this`producing, agent, agent.historyStore
      ensures agent.Faithful()
      ensures response == ResponseFor(old(cmdHandlers), BuildSession(), loads, t1)
      ensures AgentAfter(GatewayCombine(job, t1, response, t2, old(agent.needsInterrupt), old(agent.producing)), r,
                         GatewayLog(job, old(agent.historyStore.EntriesOf(lead)), old(agent.stateStore.GetStore(lead)),
                                    old(agent.needsInterrupt), engine, first, second, t1, response, t2),
                         agent.historyStore.Key(lead), old(agent.turns), old(agent.historyStore.lists), old(agent.received),
                         agent.turns, agent.historyStore.lists, agent.needsInterrupt, agent.producing, agent.received, agent.textCallbackSet)
      ensures observed == old(observed) + ObservedDuring(observerSet, t1)
      ensures producing == r.error.Some? && needsInterrupt == old(needsInterrupt)
    {
      producing := true;
      r, t1, response, t2 := StreamTurns(job, engine, first, second);
      if r.error.None? {
        producing := false;
      }
    }

    /** The agent's part of `handle_lola_stream`. */
    method StreamTurns(job: AgentJob, engine: Engine, first: Script, second: Script)
      returns (r: Yielded, ghost t1: Result<Turn>, ghost response: Result<Json>, ghost t2: Result<Turn>)
      requires job.lead == lead && agent.Faithful()
      modifies this`observed, agent, agent.historyStore
      ensures agent.Faithful()
      ensures response == ResponseFor(old(cmdHandlers), BuildSession(), loads, t1)
      ensures AgentAfter(GatewayCombine(job, t1, response, t2, old(agent.needsInterrupt), old(agent.producing)), r,
                         GatewayLog(job, old(agent.historyStore.EntriesOf(lead)), old(agent.stateStore.GetStore(lead)),
                                    old(agent.needsInterrupt), engine, first, second, t1, response, t2),
                         agent.historyStore.Key(lead), old(agent.turns), old(agent.historyStore.lists), old(agent.received),
                         agent.turns, agent.historyStore.lists, agent.needsInterrupt, agent.producing, agent.received, agent.textCallbackSet)
      ensures observed == old(observed) + ObservedDuring(observerSet, t1)
    {
      ghost var entries, stored, interrupt := agent.historyStore.EntriesOf(lead), agent.stateStore.GetStore(lead), agent.needsInterrupt;
      var t := agent.Process(job, engine, first);
      t1 := t;
      r, response, t2 := AfterFirstTurn(job, engine, first, second, t, entries, stored, interrupt, old(agent.producing),
                                        old(agent.historyStore.lists), old(agent.received), old(agent.turns));
    }

    /**
     * The `async for` loop over the first turn `t`, and what follows it,
     * from the entries, stored state, flags, history, texts and log the stream started with.
     */
    method AfterFirstTurn(job: AgentJob, engine: Engine, first: Script, second: Script, t: Result<Turn>,
                          ghost entries: seq<Json>, ghost stored: Option<StateMap>, ghost interrupt: bool,
                          ghost producing0: bool, ghost lists: Lists, ghost received: seq<string>, ghost before: seq<TurnCall>)
      returns (r: Yielded, ghost response: Result<Json>, ghost t2: Result<Turn>)
      requires job.lead == lead && agent.Faithful()
      requires agent.turns == before + [TurnCall(job, entries, stored, interrupt, engine, first, t)]
      requires Entries(lists, agent.historyStore.Key(lead)) == entries && agent.stateStore.GetStore(lead) == stored
      requires agent.historyStore.lists == Appended(lists, agent.historyStore.Key(lead), TurnEntries(job, t))
      requires agent.needsInterrupt == InterruptAfter(t, interrupt) && agent.producing == ProducingAfter(t, producing0)
      requires agent.received == received + (if agent.textCallbackSet then TextsOf(t) else [])
      modifies this`observed, agent, agent.historyStore
      ensures agent.Faithful()
      ensures response == ResponseFor(old(cmdHandlers), BuildSession(), loads, t)
      ensures AgentAfter(GatewayCombine(job, t, response, t2, interrupt, producing0), r,
                         GatewayLog(job, entries, stored, interrupt, engine, first, second, t, response, t2),
                         agent.historyStore.Key(lead), before, lists, received,
                         agent.turns, agent.historyStore.lists, agent.needsInterrupt, agent.producing, agent.received, agent.textCallbackSet)
      ensures observed == old(observed) + ObservedDuring(observerSet, t)
    {
      t2 := Err(IndexError);
      var y, f := RunFirstPass(t);
      if f.Ok? && f.value.Some? {
        r, response, t2 := FollowCall(job, engine, first, second, f.value.value, y.texts, t,
                                      entries, stored, interrupt, producing0, lists, received, before);
      } else {
        response := Ok(JNull);
        GatewayStops(job, entries, stored, interrupt, producing0, engine, first, second, t, response, t2);
        r := Yielded(y.texts, if f.Err? then Some(f.error) else None);
      }
    }

    /**
     * The rest of a stream whose first turn `t1` yielded `texts` and asks
     * for `call`, from the entries, stored state, flags, history, texts and
     * log the stream started with.
     */
    method FollowCall(job: AgentJob, engine: Engine, first: Script, second: Script, call: FunctionCall, texts: seq<string>,
                      ghost t1: Result<Turn>, ghost entries: seq<Json>, ghost stored: Option<StateMap>, ghost interrupt: bool,
                      ghost producing0: bool, ghost lists: Lists, ghost received: seq<string>, ghost before: seq<TurnCall>)
      returns (r: Yielded, ghost response: Result<Json>, ghost t2: Result<Turn>)
      requires job.lead == lead && agent.Faithful() && PluginCallOf(t1) == Some(call) && Passed(t1).texts == texts
      requires agent.turns == before + [TurnCall(job, entries, stored, interrupt, engine, first, t1)]
      requires Entries(lists, agent.historyStore.Key(lead)) == entries && agent.stateStore.GetStore(lead) == stored
      requires agent.historyStore.lists == Appended(lists, agent.historyStore.Key(lead), TurnEntries(job, t1))
      requires agent.needsInterrupt == InterruptAfter(t1, interrupt) && agent.producing == ProducingAfter(t1, producing0)
      requires agent.received == received + (if agent.textCallbackSet then TextsOf(t1) else [])
      modifies this`observed, agent, agent.historyStore
      ensures agent.Faithful()
      ensures response == ResponseFor(old(cmdHandlers), BuildSession(), loads, t1)
      ensures AgentAfter(GatewayCombine(job, t1, response, t2, interrupt, producing0), r,
                         GatewayLog(job, entries, stored, interrupt, engine, first, second, t1, response, t2),
                         agent.historyStore.Key(lead), before, lists, received,
                         agent.turns, agent.historyStore.lists, agent.needsInterrupt, agent.producing, agent.received, agent.textCallbackSet)
      ensures observed == old(observed) + ObservedDuring(observerSet, t1)
    {
      var answer := RecordCall(call);
      response := answer;
      ghost var calls := GatewayBookkeeping(call, response);
      assert GatewayRecord(t1, response) == calls;
      AppendedTwice(lists, agent.historyStore.Key(lead), TurnEntries(job, t1), calls);
      if answer.Err? {
        t2 := Err(IndexError);
        GatewayAnswerFails(job, entries, stored, interrupt, producing0, engine, first, second, t1, response, t2);
        r := Yielded(texts, Some(answer.error));
      } else {
        r, t2 := ContinueAfterCall(job, engine, first, second, call, texts, t1, response, entries, stored, interrupt, producing0,
                                   lists, received, before);
      }
    }

    /**
     * The continuation of a stream whose call was answered: one more
     * `process` call on the continuation's job, whose texts follow the first turn's.
     */
    method ContinueAfterCall(job: AgentJob, engine: Engine, first: Script, second: Script, call: FunctionCall, texts: seq<string>,
                             ghost t1: Result<Turn>, ghost response: Result<Json>, ghost entries: seq<Json>, ghost stored: Option<StateMap>,
                             ghost interrupt: bool, ghost producing0: bool, ghost lists: Lists, ghost received: seq<string>,
                             ghost before: seq<TurnCall>)
      returns (r: Yielded, ghost t2: Result<Turn>)
      requires job.lead == lead && agent.Faithful() && PluginCallOf(t1) == Some(call) && Passed(t1).texts == texts && response.Ok?
      requires agent.turns == before + [TurnCall(job, entries, stored, interrupt, engine, first, t1)]
      requires Entries(lists, agent.historyStore.Key(lead)) == entries && agent.stateStore.GetStore(lead) == stored
      requires agent.historyStore.lists == Appended(lists, agent.historyStore.Key(lead), TurnEntries(job, t1) + GatewayBookkeeping(call, response))
      requires agent.needsInterrupt == InterruptAfter(t1, interrupt) && agent.producing == ProducingAfter(t1, producing0)
      requires agent.received == received + (if agent.textCallbackSet then TextsOf(t1) else [])
      modifies agent, agent.historyStore
      ensures agent.Faithful()
      ensures AgentAfter(GatewayCombine(job, t1, response, t2, interrupt, producing0), r,
                         GatewayLog(job, entries, stored, interrupt, engine, first, second, t1, response, t2),
                         agent.historyStore.Key(lead), before, lists, received,
                         agent.turns, agent.historyStore.lists, agent.needsInterrupt, agent.producing, agent.received, agent.textCallbackSet)
    {
      ghost var calls := GatewayBookkeeping(call, response);
      assert GatewayRecord(t1, response) == calls;
      var y2;
      y2, t2 := RunContinuation(GatewayContinuation(job), engine, second);
      r := Yielded(texts + y2.texts, y2.error);
      AppendedTwice(lists, agent.historyStore.Key(lead), TurnEntries(job, t1) + calls, TurnEntries(GatewayContinuation(job), t2));
      ghost var firstCall := TurnCall(job, entries, stored, interrupt, engine, first, t1);
      ghost var nextCall := TurnCall(GatewayContinuation(job), entries + TurnEntries(job, t1) + calls, stored, InterruptAfter(t1, interrupt),
                                     engine, second, t2);
      ConcatAssoc(entries, TurnEntries(job, t1), calls);
      GatewayCallStep(job, entries, stored, interrupt, producing0, engine, first, second, t1, response, t2);
      ConcatAssoc(before, [firstCall], [nextCall]);
      ConcatAssoc(received, TextsOf(t1), TextsOf(t2));
    }

    /**
     * The bookkeeping after a function call: the call message, then
     * `_call_function`, then its result unless it raised.
     */
    method RecordCall(call: FunctionCall) returns (response: Result<Json>)
      modifies this`observed, agent.historyStore
      ensures response == CommandResult(old(cmdHandlers), BuildSession(), loads, call.name, call.arguments)
      ensures unchanged(agent)
      ensures agent.historyStore.lists
           == Appended(old(agent.historyStore.lists), agent.historyStore.Key(lead), GatewayBookkeeping(call, response))
      ensures observed == old(observed) + (if observerSet then [call] else [])
    {
      agent.AddFunctionCallMessage(lead, call);
      response := CallFunction(call.name, call.arguments);
      if response.Ok? {
        agent.AddFunctionResponseMessage(lead, call, response.value);
        AppendedTwice(old(agent.historyStore.lists), agent.historyStore.Key(lead), [FunctionCallMessage(call.name, call.arguments)],
                      [FunctionResponseMessage(call.name, response.value)]);
      } else {
        assert GatewayBookkeeping(call, response) == [FunctionCallMessage(call.name, call.arguments)];
      }
    }

    /** The continuation's pass: one `process` call and its `async for` loop. */
    method RunContinuation(job: AgentJob, engine: Engine, second: Script) returns (r: Yielded, ghost t2: Result<Turn>)
      requires job.lead == lead && agent.Faithful()
      modifies agent, agent.historyStore
      ensures agent.Faithful()
      ensures agent.turns == old(agent.turns) + [TurnCall(job, old(agent.historyStore.EntriesOf(lead)), agent.stateStore.GetStore(lead),
                                                          old(agent.needsInterrupt), engine, second, t2)]
      ensures r == Passed(t2)
      ensures agent.historyStore.lists == Appended(old(agent.historyStore.lists), agent.historyStore.Key(lead), TurnEntries(job, t2))
      ensures agent.needsInterrupt == InterruptAfter(t2, old(agent.needsInterrupt))
      ensures agent.producing == ProducingAfter(t2, old(agent.producing))
      ensures agent.received == old(agent.received) + (if agent.textCallbackSet then TextsOf(t2) else [])
    {
      var t := agent.Process(job, engine, second);
      t2 := t;
      var f;
      r, f := RunFirstPass(t);
    }

    /** `on_command(name)(handler)`: the handler is stored under the name, replacing any earlier one, and returned. */
    method OnCommand(name: string, handler: CommandHandler) returns (h: CommandHandler)
      modifies this`cmdHandlers
      ensures cmdHandlers == old(cmdHandlers)[name := handler] && h == handler
    {
      cmdHandlers := cmdHandlers[name := handler];
      h := handler;
    }

    method OnClientCommand(name: string, handler: CommandHandler) returns (h: CommandHandler)
      modifies this`clientCmdHandlers
      ensures clientCmdHandlers == old(clientCmdHandlers)[name := handler] && h == handler
    {
      clientCmdHandlers := clientCmdHandlers[name := handler];
      h := handler;
    }

    method OnEvent(name: string, handler: EventHandler) returns (h: EventHandler)
      modifies this`eventHandlers
      ensures eventHandlers == old(eventHandlers)[name := handler] && h == handler
    {
      eventHandlers := eventHandlers[name := handler];
      h := handler;
    }

    method OnNotification(name: string, handler: CommandHandler) returns (h: CommandHandler)
      modifies this`notificationHandlers
      ensures notificationHandlers == old(notificationHandlers)[name := handler] && h == handler
    {
      notificationHandlers := notificationHandlers[name := handler];
      h := handler;
    }
  }

  /** The log and the effect of a stream that does not continue, spelled out. */
  lemma GatewayStops(job: AgentJob, entries: seq<Json>, stored: Option<StateMap>, interrupt: bool, producing: bool, engine: Engine,
                     first: Script, second: Script, t1: Result<Turn>, response: Result<Json>, t2: Result<Turn>)
    requires !Continues(t1, response)
    ensures GatewayLog(job, entries, stored, interrupt, engine, first, second, t1, response, t2)
         == [TurnCall(job, entries, stored, interrupt, engine, first, t1)]
    ensures GatewayCombine(job, t1, response, t2, interrupt, producing)
         == Streamed(Passed(t1).texts,
                     if FirstPass(t1).Err? then Some(FirstPass(t1).error) else if PluginCallOf(t1).Some? then Some(response.error) else None,
                     TurnEntries(job, t1) + GatewayRecord(t1, response),
                     InterruptAfter(t1, interrupt), ProducingAfter(t1, producing), TextsOf(t1))
  {
    if PluginCallOf(t1).None? {
      assert TurnEntries(job, t1) + [] == TurnEntries(job, t1);
    }
  }

  /** The log and the effect of a stream whose call raised in `_call_function`, spelled out. */
  lemma GatewayAnswerFails(job: AgentJob, entries: seq<Json>, stored: Option<StateMap>, interrupt: bool, producing: bool, engine: Engine,
                           first: Script, second: Script, t1: Result<Turn>, response: Result<Json>, t2: Result<Turn>)
    requires PluginCallOf(t1).Some? && response.Err?
    ensures GatewayLog(job, entries, stored, interrupt, engine, first, second, t1, response, t2)
         == [TurnCall(job, entries, stored, interrupt, engine, first, t1)]
    ensures GatewayCombine(job, t1, response, t2, interrupt, producing)
         == Streamed(Passed(t1).texts, Some(response.error), TurnEntries(job, t1) + GatewayBookkeeping(PluginCallOf(t1).value, response),
                     InterruptAfter(t1, interrupt), ProducingAfter(t1, producing), TextsOf(t1))
  {
  }

  /** The log and the texts of a stream that continues, spelled out. */
  lemma GatewayCallStep(job: AgentJob, entries: seq<Json>, stored: Option<StateMap>, interrupt: bool, producing: bool, engine: Engine,
                        first: Script, second: Script, t1: Result<Turn>, response: Result<Json>, t2: Result<Turn>)
    requires Continues(t1, response)
    ensures GatewayLog(job, entries, stored, interrupt, engine, first, second, t1, response, t2)
         == [TurnCall(job, entries, stored, interrupt, engine, first, t1)]
            + [TurnCall(GatewayContinuation(job), entries + TurnEntries(job, t1) + GatewayRecord(t1, response), stored,
                        InterruptAfter(t1, interrupt), engine, second, t2)]
    ensures GatewayCombine(job, t1, response, t2, interrupt, producing).received == TextsOf(t1) + TextsOf(t2)
  {
  }

  /** Unless the stream continues, whatever the continuation would give changes nothing. */
  lemma GatewayWithoutContinuation(job: AgentJob, t1: Result<Turn>, response: Result<Json>, t2: Result<Turn>, t2': Result<Turn>,
                                   interrupt: bool, producing: bool)
    requires !Continues(t1, response)
    ensures GatewayCombine(job, t1, response, t2, interrupt, producing) == GatewayCombine(job, t1, response, t2', interrupt, producing)
  {
  }

  /** A faithful log of a stream holds the first turn. */
  lemma GatewayLoggedFirstPass(job: AgentJob, entries: seq<Json>, stored: Option<StateMap>, defaultModel: string,
                               interrupt: bool, engine: Engine, first: Script, second: Script,
                               t1: Result<Turn>, response: Result<Json>, t2: Result<Turn>, before: seq<TurnCall>)
    requires FaithfulLog(before + GatewayLog(job, entries, stored, interrupt, engine, first, second, t1, response, t2), defaultModel)
    ensures t1 == ProcessTurn(job, entries, stored, defaultModel, interrupt, engine, first)
  {
    var log := before + GatewayLog(job, entries, stored, interrupt, engine, first, second, t1, response, t2);
    assert log[|before|] == TurnCall(job, entries, stored, interrupt, engine, first, t1);
    assert Returned(log[|before|], defaultModel);
  }

  /** A faithful log of a stream that continues holds the continuation's turn. */
  lemma GatewayLoggedSecondPass(job: AgentJob, entries: seq<Json>, stored: Option<StateMap>, defaultModel: string,
                                interrupt: bool, engine: Engine, first: Script, second: Script,
                                t1: Result<Turn>, response: Result<Json>, t2: Result<Turn>, before: seq<TurnCall>)
    requires FaithfulLog(before + GatewayLog(job, entries, stored, interrupt, engine, first, second, t1, response, t2), defaultModel)
    requires Continues(t1, response)
    ensures t2 == GatewaySecondTurn(job, entries, stored, defaultModel, interrupt, engine, t1, response, second)
  {
    var log := before + GatewayLog(job, entries, stored, interrupt, engine, first, second, t1, response, t2);
    assert log[|before| + 1].result == t2;
    assert Returned(log[|before| + 1], defaultModel);
  }

  /** GatewayCombine over the first turn, its response and the continuation's turn is GatewayStream. */
  lemma GatewayCombineIsStream(job: AgentJob, entries: seq<Json>, stored: Option<StateMap>, defaultModel: string,
                               interrupt: bool, producing: bool, engine: Engine, handlers: map<string, CommandHandler>,
                               session: Session, loads: string -> Option<Json>, first: Script, second: Script,
                               t1: Result<Turn>, response: Result<Json>, t2: Result<Turn>)
    requires t1 == ProcessTurn(job, entries, stored, defaultModel, interrupt, engine, first)
    requires response == ResponseFor(handlers, session, loads, t1)
    requires Continues(t1, response) ==> t2 == GatewaySecondTurn(job, entries, stored, defaultModel, interrupt, engine, t1, response, second)
    ensures GatewayCombine(job, t1, response, t2, interrupt, producing)
         == GatewayStream(job, entries, stored, defaultModel, interrupt, producing, engine, handlers, session, loads, first, second)
  {
    if !Continues(t1, response) {
      GatewayWithoutContinuation(job, t1, response, t2,
                                 GatewaySecondTurn(job, entries, stored, defaultModel, interrupt, engine, t1, response, second),
                                 interrupt, producing);
    }
  }

  /**
   * What the gateway logs is GatewayStream: when the agent's log ends with
   * a stream's calls and stays faithful, and the response is the command
   * registry's, the stream is the one GatewayStream describes for the state beforehand.
   */
  lemma GatewayStreamIsLogged(job: AgentJob, entries: seq<Json>, stored: Option<StateMap>, defaultModel: string,
                              interrupt: bool, producing: bool, engine: Engine, handlers: map<string, CommandHandler>,
                              session: Session, loads: string -> Option<Json>, first: Script, second: Script,
                              t1: Result<Turn>, response: Result<Json>, t2: Result<Turn>, before: seq<TurnCall>)
    requires FaithfulLog(before + GatewayLog(job, entries, stored, interrupt, engine, first, second, t1, response, t2), defaultModel)
    requires response == ResponseFor(handlers, session, loads, t1)
    ensures GatewayCombine(job, t1, response, t2, interrupt, producing)
         == GatewayStream(job, entries, stored, defaultModel, interrupt, producing, engine, handlers, session, loads, first, second)
  {
    GatewayLoggedFirstPass(job, entries, stored, defaultModel, interrupt, engine, first, second, t1, response, t2, before);
    if Continues(t1, response) {
      GatewayLoggedSecondPass(job, entries, stored, defaultModel, interrupt, engine, first, second, t1, response, t2, before);
    }
    GatewayCombineIsStream(job, entries, stored, defaultModel, interrupt, producing, engine, handlers, session, loads,
                           first, second, t1, response, t2);
  }

  /**
   * A call whose name has no registered command is answered with None,
   * which is recorded as the function's response; the stream continues.
   */
  lemma UnregisteredCallRecordsNone(handlers: map<string, CommandHandler>, session: Session, loads: string -> Option<Json>,
                                    job: AgentJob, t1: Result<Turn>, t2: Result<Turn>, interrupt: bool, producing: bool)
    requires PluginCallOf(t1).Some? && (PluginCallOf(t1).value.name.None? || PluginCallOf(t1).value.name.value !in handlers)
    ensures ResponseFor(handlers, session, loads, t1) == Ok(JNull)
    ensures Continues(t1, Ok(JNull))
    ensures GatewayCombine(job, t1, Ok(JNull), t2, interrupt, producing).entries
         == TurnEntries(job, t1)
            + [FunctionCallMessage(PluginCallOf(t1).value.name, PluginCallOf(t1).value.arguments),
               FunctionResponseMessage(PluginCallOf(t1).value.name, JNull)]
            + TurnEntries(GatewayContinuation(job), t2)
  {
  }

  /**
   * Arguments that are not JSON for a registered command end the stream
   * with the decoding error after the call message alone: no response is
   * recorded and the continuation does not run.
   */
  lemma UndecodableArgumentsStop(handlers: map<string, CommandHandler>, session: Session, loads: string -> Option<Json>,
                                 job: AgentJob, t1: Result<Turn>, t2: Result<Turn>, interrupt: bool, producing: bool)
    requires PluginCallOf(t1).Some? && PluginCallOf(t1).value.name.Some? && PluginCallOf(t1).value.name.value in handlers
    requires loads(PluginCallOf(t1).value.arguments).None?
    ensures !Continues(t1, ResponseFor(handlers, session, loads, t1))
    ensures var run := GatewayCombine(job, t1, ResponseFor(handlers, session, loads, t1), t2, interrupt, producing);
      && run.error == Some(JsonDecodeError(PluginCallOf(t1).value.arguments))
      && run.entries == TurnEntries(job, t1) + [FunctionCallMessage(PluginCallOf(t1).value.name, PluginCallOf(t1).value.arguments)]
      && run.texts == Passed(t1).texts
  {
    assert TurnEntries(job, t1) + [FunctionCallMessage(PluginCallOf(t1).value.name, PluginCallOf(t1).value.arguments)] + []
        == TurnEntries(job, t1) + [FunctionCallMessage(PluginCallOf(t1).value.name, PluginCallOf(t1).value.arguments)];
  }

  /** A registered command gets `{"data": {"name", "args"}}` with the parsed arguments, and its result is the response. */
  lemma RegisteredCommandAnswers(handlers: map<string, CommandHandler>, session: Session, loads: string -> Option<Json>,
                                 name: string, arguments: string)
    requires name in handlers && loads(arguments).Some?
    ensures CommandResult(handlers, session, loads, Some(name), arguments)
         == Ok(handlers[name](session, JObj(map["data" := JObj(map["name" := JStr(name), "args" := loads(arguments).value])])))
  {
  }

  /**
   * The continuation carries no `new_state`: an override given with the
   * message applies to the first pass only, and the continuation's template
   * state is the initial state overridden by the stored one.
   */
  lemma OverrideAppliesToFirstPassOnly(job: AgentJob, entries: seq<Json>, stored: Option<StateMap>, engine: Engine)
    ensures GatewayContinuation(job).newState == Present(None)
    ensures CompiledFor(GatewayContinuation(job), entries, stored, engine).context.state == OrEmpty(job.initState) + OrEmpty(stored)
  {
    assert OrEmpty(None) == map[];
    assert OrEmpty(job.initState) + OrEmpty(stored) + map[] == OrEmpty(job.initState) + OrEmpty(stored);
  }
}
