// The controller in front of the lite agent: client commands, and the
// two-pass exchange (a first pass, the function-call bookkeeping, one
// continuation without the user message).

module Controller {
  import opened PyValues
  import opened Records
  import opened History
  import opened ChatState
  import opened Messages
  import opened AgentStream
  import opened LiteAgent
  import opened RedisLists

  /** An `on_function_call(lead, name, arguments)` callback; its result is stored as the function response. */
  type FunctionHandler = (ChatLead, Option<string>, string) -> Json

  /** The keyword parameters of the lite agent's constructor. */
  const AGENT_PARAMETERS: set<string> := {"api_key", "default_model", "on_text_received", "on_function_call"}

  /** The keywords the controller's constructor passes to it. */
  const CONTROLLER_KEYWORDS: seq<string> := ["api_key", "on_text_received", "on_function_call", "redis_url"]

  /** The first keyword a call passes that the callee does not accept. */
  function UnexpectedKeyword(keywords: seq<string>, accepted: set<string>): (r: Option<string>)
    ensures r.Some? ==> r.value in keywords && r.value !in accepted
    ensures r.None? ==> forall i :: 0 <= i < |keywords| ==> keywords[i] in accepted
  {
    if keywords == [] then None
    else if keywords[0] !in accepted then Some(keywords[0])
    else UnexpectedKeyword(keywords[1..], accepted)
  }

  /** Calling the agent's constructor with some keywords: a TypeError names the first one it does not take. */
  function ConstructAgent(keywords: seq<string>): (r: Result<()>)
    ensures r.Err? <==> exists i :: 0 <= i < |keywords| && keywords[i] !in AGENT_PARAMETERS
    ensures r.Err? ==> r.error.TypeError? && r.error.argument in keywords && r.error.argument !in AGENT_PARAMETERS
  {
    match UnexpectedKeyword(keywords, AGENT_PARAMETERS)
    case Some(k) => Err(TypeError(k))
    case None => Ok(())
  }

  /** As written, constructing a controller always fails: the agent takes no `redis_url`. */
  lemma ControllerConstructionFails()
    ensures ConstructAgent(CONTROLLER_KEYWORDS) == Err(TypeError("redis_url"))
  {
    assert CONTROLLER_KEYWORDS[1..][1..][1..][0] == "redis_url";
  }

  /** Without `redis_url` the same call is accepted; the corrected constructor makes it. */
  lemma CorrectedConstructionSucceeds()
    ensures ConstructAgent(CONTROLLER_KEYWORDS[..3]) == Ok(())
  {
  }

  /**
   * The `/state` branch as written: it is entered only when the arguments
   * are exactly `["set"]`, and reading `args[1]` then fails; no arguments
   * ever yield an assignment.
   */
  function StateAssignmentAsWritten(args: seq<string>): (r: Result<Option<(string, string)>>)
    ensures r.Err? <==> args == ["set"]
    ensures r.Ok? ==> r.value.None?
  {
    if args == ["set"] then Err(IndexError) else Ok(None)
  }

  /** The `/state set <key> <value>` command, as the branch evidently means it. */
  function StateAssignment(args: seq<string>): (r: Result<Option<(string, string)>>)
    ensures |args| >= 3 && args[0] == "set" ==> r == Ok(Some((args[1], args[2])))
    ensures 0 < |args| < 3 && args[0] == "set" ==> r == Err(IndexError)
    ensures (args == [] || args[0] != "set") ==> r == Ok(None)
  {
    if |args| > 0 && args[0] == "set" then
      if |args| >= 3 then Ok(Some((args[1], args[2]))) else Err(IndexError)
    else Ok(None)
  }

  /** A well-formed `/state set` command assigns nothing as written, while the corrected branch assigns. */
  lemma StateSetIsUnreachable()
    ensures StateAssignmentAsWritten(["set", "name", "Lola"]) == Ok(None)
    ensures StateAssignment(["set", "name", "Lola"]) == Ok(Some(("name", "Lola")))
    ensures StateAssignmentAsWritten(["set"]) == Err(IndexError)
  {
  }

  /** The history entries of the function-call bookkeeping: the call, then the handler's response if there is a handler. */
  function CallEntries(lead: ChatLead, call: FunctionCall, handler: Option<FunctionHandler>): (r: seq<Json>)
    ensures |r| == (if handler.Some? then 2 else 1) && r[0] == FunctionCallMessage(call.name, call.arguments)
  {
    [FunctionCallMessage(call.name, call.arguments)]
      + (if handler.Some? then [FunctionResponseMessage(call.name, handler.value(lead, call.name, call.arguments))] else [])
  }

  /** `process_results_coro(process(job))`: the turn's failure, or the fold of its deltas. */
  function Folded(t: Result<Turn>): Result<Response>
  {
    if t.Err? then Err(t.error) else ResponseOf(t.value.deltas)
  }

  function InterruptAfter(t: Result<Turn>, before: bool): bool
  {
    if t.Ok? then t.value.interruptAfter else before
  }

  function ProducingAfter(t: Result<Turn>, before: bool): bool
  {
    if t.Ok? && t.value.connected then false else before
  }

  function TextsOf(t: Result<Turn>): seq<string>
  {
    if t.Ok? then ContentTexts(t.value.deltas) else []
  }

  /**
   * The effect of one exchange: the result, the entries appended to the
   * lead's history, the agent's flags and the texts handed to its callback,
   * and whether the exchange ran to the end (so `processing` is reset).
   */
  datatype Exchange = Exchange(
    result: Result<Option<string>>,
    entries: seq<Json>,
    interrupt: bool,
    producing: bool,
    texts: seq<string>,
    finished: bool)

  /** The continuation's job: the same job without its message. */
  function Continuation(job: AgentJob): (j: AgentJob)
    ensures j.lead == job.lead && j.message.None? && UserEntries(j.message) == []
  {
    job.(message := None)
  }

  /** The function call a folded turn asks for, if it succeeded and asks for one. */
  function CallOf(t: Result<Turn>): Option<FunctionCall>
  {
    var f := Folded(t);
    if f.Ok? then f.value.functionCall else None
  }

  /** What the bookkeeping records after a turn: nothing unless the turn asks for a function call. */
  function BookkeepingOf(lead: ChatLead, t: Result<Turn>, handler: Option<FunctionHandler>): (r: seq<Json>)
    ensures r != [] <==> CallOf(t).Some?
  {
    if CallOf(t).Some? then CallEntries(lead, CallOf(t).value, handler) else []
  }

  /**
   * The exchange made of a first turn `t1` and the continuation's turn `t2`,
   * which only counts when `t1` asks for a function call.
   */
  function Combine(job: AgentJob, t1: Result<Turn>, t2: Result<Turn>, handler: Option<FunctionHandler>,
                   interrupt: bool, producing: bool): Exchange
  {
    var e1 := TurnEntries(job, t1);
    var f1 := Folded(t1);
    if f1.Err? then
      Exchange(Err(f1.error), e1, InterruptAfter(t1, interrupt), ProducingAfter(t1, producing), TextsOf(t1), false)
    else if f1.value.functionCall.None? then
      Exchange(Ok(f1.value.content), e1, InterruptAfter(t1, interrupt), ProducingAfter(t1, producing), TextsOf(t1), true)
    else
      var f2 := Folded(t2);
      Exchange(if f2.Err? then Err(f2.error) else Ok(f2.value.content),
               e1 + BookkeepingOf(job.lead, t1, handler) + TurnEntries(Continuation(job), t2),
               InterruptAfter(t2, InterruptAfter(t1, interrupt)), ProducingAfter(t2, ProducingAfter(t1, producing)),
               TextsOf(t1) + TextsOf(t2), f2.Ok?)
  }

  /** The continuation's turn after a first turn `t1`: its job sees the first turn's entries and the bookkeeping. */
  function SecondTurn(job: AgentJob, entries: seq<Json>, stored: Option<StateMap>, defaultModel: string,
                      interrupt: bool, engine: Engine, handler: Option<FunctionHandler>, t1: Result<Turn>, second: Script): Result<Turn>
  {
    ProcessTurn(Continuation(job), entries + TurnEntries(job, t1) + BookkeepingOf(job.lead, t1, handler), stored, defaultModel,
                InterruptAfter(t1, interrupt), engine, second)
  }

  /**
   * `process_message` for a message that is not a command: the first pass;
   * on a function call the call (and the handler's response) is recorded
   * and the same job runs once more without its message, whatever the
   * second pass returns; the content of the last pass is the result.
   */
  function TwoPass(job: AgentJob, entries: seq<Json>, stored: Option<StateMap>, defaultModel: string,
                   interrupt: bool, producing: bool, engine: Engine, handler: Option<FunctionHandler>, first: Script, second: Script): Exchange
  {
    var t1 := ProcessTurn(job, entries, stored, defaultModel, interrupt, engine, first);
    Combine(job, t1, SecondTurn(job, entries, stored, defaultModel, interrupt, engine, handler, t1, second), handler, interrupt, producing)
  }

  /**
   * The calls an exchange makes to the agent: the first turn, and the
   * continuation when the first turn asks for a function call.
   */
  function ExchangeLog(job: AgentJob, entries: seq<Json>, stored: Option<StateMap>, interrupt: bool, engine: Engine,
                       handler: Option<FunctionHandler>, first: Script, second: Script, t1: Result<Turn>, t2: Result<Turn>): seq<TurnCall>
  {
    [TurnCall(job, entries, stored, interrupt, engine, first, t1)]
      + (if CallOf(t1).Some? then
           [TurnCall(Continuation(job), entries + TurnEntries(job, t1) + BookkeepingOf(job.lead, t1, handler), stored,
                     InterruptAfter(t1, interrupt), engine, second, t2)]
         else [])
  }

  /**
   * What a client command does to the stores and what error it raises:
   * `/reset all` deletes the lead's history list and state hash, any other
   * `/reset` the list only; `/state` raises StateAssignment's error or
   * stores its assignment as a string; any other command changes nothing.
   */
  predicate CommandEffects(cmd: ClientCommand, err: Option<PyError>,
                           lists0: Lists, lists: Lists, historyKey: string,
                           hashes0: Hashes, hashes: Hashes, stateKey: string)
  {
    && (cmd.command == "/reset" ==>
          && err.None?
          && lists == lists0 - {historyKey}
          && hashes == (if cmd.args == ["all"] then hashes0 - {stateKey} else hashes0))
    && (cmd.command == "/state" ==>
          && lists == lists0
          && err == (if StateAssignment(cmd.args).Err? then Some(StateAssignment(cmd.args).error) else None)
          && hashes == (if StateAssignment(cmd.args).Ok? && StateAssignment(cmd.args).value.Some?
                        then HSet(hashes0, stateKey, StateAssignment(cmd.args).value.value.0, JStr(StateAssignment(cmd.args).value.value.1))
                        else hashes0))
    && (cmd.command != "/reset" && cmd.command != "/state" ==>
          err.None? && lists == lists0 && hashes == hashes0)
  }

  class AgentController {
    const prompt: string
    const userId: string
    const initState: Option<StateMap>
    const onFunctionCall: Option<FunctionHandler>
    /** Whether an `on_update_state` callback was given. */
    const updateCallbackSet: bool
    const lead: ChatLead
    const agent: LolaAgent
    var processing: bool
    /** The values handed to `on_update_state`, in order. */
    var updates: seq<bool>

    /** The constructor without the `redis_url` keyword the agent does not accept (see ConstructAgent). */
    constructor (prompt: string, userId: string, textCallbackSet: bool, onFunctionCall: Option<FunctionHandler>,
                 updateCallbackSet: bool, initState: Option<StateMap>)
      ensures this.prompt == prompt && this.userId == userId && this.initState == initState
      ensures this.updateCallbackSet == updateCallbackSet
      ensures lead == NewLead(userId, "rtc", "tenant1", "assistant1")
      ensures fresh(agent) && fresh(agent.historyStore) && fresh(agent.stateStore)
      ensures agent.defaultModel == DEFAULT_MODEL && agent.textCallbackSet == textCallbackSet
      ensures agent.historyStore.lists == map[] && agent.stateStore.hashes == map[]
      ensures !agent.producing && !agent.needsInterrupt && agent.received == []
      ensures !processing && updates == []
    {
      this.prompt := prompt;
      this.userId := userId;
      this.initState := initState;
      this.onFunctionCall := onFunctionCall;
      this.updateCallbackSet := updateCallbackSet;
      lead := NewLead(userId, "rtc", "tenant1", "assistant1");
      agent := new LolaAgent(None, textCallbackSet);
      processing := false;
      updates := [];
    }

    method UpdateProcessingState(value: bool)
      modifies this
      ensures processing == value
      ensures updates == old(updates) + (if updateCallbackSet then [value] else [])
    {
      processing := value;
      if updateCallbackSet {
        updates := updates + [value];
      }
    }

    /** The job for a user message: a lite job with the controller's prompt and initial state. */
    function UserMessageJob(jobId: string, message: string): (job: AgentJob)
      ensures job == LiteJob(jobId, lead, Some(message), Some(prompt), initState)
    {
      LiteJob(jobId, lead, Some(message), Some(prompt), initState)
    }

    /**
     * `/reset all` clears the lead's history and state, any other `/reset`
     * its history only; `/state set <key> <value>` stores the value as a
     * string (StateAssignment); anything else changes nothing.
     */
    method ProcessClientCommand(cmd: ClientCommand) returns (err: Option<PyError>)
      modifies agent.historyStore, agent.stateStore
      ensures CommandEffects(cmd, err, old(agent.historyStore.lists), agent.historyStore.lists, agent.historyStore.Key(lead),
                             old(agent.stateStore.hashes), agent.stateStore.hashes, agent.stateStore.Key(lead))
    {
      err := None;
      if cmd.command == "/reset" {
        if cmd.args == ["all"] {
          agent.ClearHistory(lead);
          agent.ClearState(lead);
        } else {
          agent.ClearHistory(lead);
        }
      } else if cmd.command == "/state" {
        var assignment := StateAssignment(cmd.args);
        if assignment.Err? {
          err := Some(assignment.error);
        } else if assignment.value.Some? {
          var (key, value) := assignment.value.value;
          agent.stateStore.SetKeyValue(lead, key, JStr(value));
        }
      }
    }

    /** The command branch of `process_message`: the command runs, and None or its error comes back. */
    method RunCommand(cmd: ClientCommand) returns (r: Result<Option<string>>)
      modifies agent.historyStore, agent.stateStore
      ensures r.Ok? ==> r.value.None?
      ensures CommandEffects(cmd, if r.Err? then Some(r.error) else None,
                             old(agent.historyStore.lists), agent.historyStore.lists, agent.historyStore.Key(lead),
                             old(agent.stateStore.hashes), agent.stateStore.hashes, agent.stateStore.Key(lead))
    {
      var err := ProcessClientCommand(cmd);
      r := if err.Some? then Err(err.value) else Ok(None);
    }

    /**
     * `process_message`. `command` is what the client-command parser makes
     * of the message; `jobId` stands for the random job id. For a message
     * that is not a command, `t1` and `t2` are the turns of the exchange
     * (ExchangeIsTwoPass relates it to TwoPass).
     */
    method ProcessMessage(message: string, command: Option<ClientCommand>, jobId: string, engine: Engine,
                          first: Script, second: Script) returns (r: Result<Option<string>>, ghost t1: Result<Turn>, ghost t2: Result<Turn>)
      requires agent.Faithful()
      modifies this, agent, agent.historyStore, agent.stateStore
      ensures agent.Faithful()
      ensures command.Some? ==> processing == old(processing) && updates == old(updates) && agent.turns == old(agent.turns)
      ensures command.Some? ==> r.Ok? ==> r.value.None?
      ensures command.Some? ==>
        CommandEffects(command.value, if r.Err? then Some(r.error) else None,
                       old(agent.historyStore.lists), agent.historyStore.lists, agent.historyStore.Key(lead),
                       old(agent.stateStore.hashes), agent.stateStore.hashes, agent.stateStore.Key(lead))
      ensures command.None? ==>
        var job := UserMessageJob(jobId, message);
        var ex := Combine(job, t1, t2, onFunctionCall, old(agent.needsInterrupt), old(agent.producing));
        && agent.turns == old(agent.turns) + ExchangeLog(job, old(agent.historyStore.EntriesOf(lead)), old(agent.stateStore.GetStore(lead)),
                                                         old(agent.needsInterrupt), engine, onFunctionCall, first, second, t1, t2)
        && r == ex.result
        && agent.historyStore.lists == Appended(old(agent.historyStore.lists), agent.historyStore.Key(lead), ex.entries)
        && agent.stateStore.hashes == old(agent.stateStore.hashes)
        && agent.needsInterrupt == ex.interrupt && agent.producing == ex.producing
        && agent.received == old(agent.received) + (if agent.textCallbackSet then ex.texts else [])
        && processing == !ex.finished
        && updates == old(updates) + (if updateCallbackSet then [true] + (if ex.finished then [false] else []) else [])
    {
      if command.Some? {
        r := RunCommand(command.value);
        t1, t2 := Err(IndexError), Err(IndexError);
        return;
      }
      var job := UserMessageJob(jobId, message);
      UpdateProcessingState(true);
      var finished;
      r, finished, t1, t2 := RunExchange(job, engine, first, second);
      if finished {
        UpdateProcessingState(false);
      }
    }

    /**
     * The agent's part of `process_message`, for a job of this controller's
     * lead; `t1` and `t2` are the two turns.
     */
    method RunExchange(job: AgentJob, engine: Engine, first: Script, second: Script)
      returns (r: Result<Option<string>>, finished: bool, ghost t1: Result<Turn>, ghost t2: Result<Turn>)
      requires job.lead == lead && agent.Faithful()
      modifies agent, agent.historyStore
      ensures agent.Faithful()
      ensures agent.turns == old(agent.turns) + ExchangeLog(job, old(agent.historyStore.EntriesOf(lead)), old(agent.stateStore.GetStore(lead)),
                                                            old(agent.needsInterrupt), engine, onFunctionCall, first, second, t1, t2)
      ensures var ex := Combine(job, t1, t2, onFunctionCall, old(agent.needsInterrupt), old(agent.producing));
        && r == ex.result && finished == ex.finished
        && agent.historyStore.lists == Appended(old(agent.historyStore.lists), agent.historyStore.Key(lead), ex.entries)
        && agent.needsInterrupt == ex.interrupt && agent.producing == ex.producing
        && agent.received == old(agent.received) + (if agent.textCallbackSet then ex.texts else [])
    {
      ghost var entries, stored, interrupt := agent.historyStore.EntriesOf(lead), agent.stateStore.GetStore(lead), agent.needsInterrupt;
      var t := agent.Process(job, engine, first);
      t1 := t;
      t2 := Err(IndexError);
      finished := false;
      var call: Option<FunctionCall> := None;
      if t.Err? {
        r := Err(t.error);
      } else {
        var f1 := agent.ProcessResults(t.value.deltas);
        if f1.Err? {
          r := Err(f1.error);
        } else if f1.value.functionCall.None? {
          r := Ok(f1.value.content);
          finished := true;
        } else {
          call := f1.value.functionCall;
        }
      }
      assert call == CallOf(t1);
      if call.Some? {
        r, finished, t2 := FollowCall(job, engine, first, second, call.value, t1,
                                      entries, stored, interrupt, old(agent.producing), old(agent.historyStore.lists),
                                      old(agent.received), old(agent.turns));
      } else {
        NoCallExchange(job, t1, t2, onFunctionCall, interrupt, old(agent.producing));
      }
    }

    /**
     * The rest of an exchange whose first turn `t1` asks for `call`: the
     * state is the one the first turn left, from the entries, stored state,
     * flags, history, texts and log it started with.
     */
    method FollowCall(job: AgentJob, engine: Engine, first: Script, second: Script, call: FunctionCall, ghost t1: Result<Turn>,
                      ghost entries: seq<Json>, ghost stored: Option<StateMap>, ghost interrupt: bool, ghost producing: bool,
                      ghost lists: Lists, ghost received: seq<string>, ghost before: seq<TurnCall>)
      returns (r: Result<Option<string>>, finished: bool, ghost t2: Result<Turn>)
      requires job.lead == lead && agent.Faithful() && CallOf(t1) == Some(call)
      requires agent.turns == before + [TurnCall(job, entries, stored, interrupt, engine, first, t1)]
      requires Entries(lists, agent.historyStore.Key(lead)) == entries && agent.stateStore.GetStore(lead) == stored
      requires agent.historyStore.lists == Appended(lists, agent.historyStore.Key(lead), TurnEntries(job, t1))
      requires agent.needsInterrupt == InterruptAfter(t1, interrupt) && agent.producing == ProducingAfter(t1, producing)
      requires agent.received == received + (if agent.textCallbackSet then TextsOf(t1) else [])
      modifies agent, agent.historyStore
      ensures agent.Faithful()
      ensures agent.turns == before + ExchangeLog(job, entries, stored, interrupt, engine, onFunctionCall, first, second, t1, t2)
      ensures var ex := Combine(job, t1, t2, onFunctionCall, interrupt, producing);
        && r == ex.result && finished == ex.finished
        && agent.historyStore.lists == Appended(lists, agent.historyStore.Key(lead), ex.entries)
        && agent.needsInterrupt == ex.interrupt && agent.producing == ex.producing
        && agent.received == received + (if agent.textCallbackSet then ex.texts else [])
    {
      ghost var calls := CallEntries(lead, call, onFunctionCall);
      assert BookkeepingOf(job.lead, t1, onFunctionCall) == calls;
      r, t2 := SecondPass(job, call, engine, second);
      finished := r.Ok?;
      AppendedTwice(lists, agent.historyStore.Key(lead), TurnEntries(job, t1), calls + TurnEntries(Continuation(job), t2));
      ConcatAssoc(TurnEntries(job, t1), calls, TurnEntries(Continuation(job), t2));
      ghost var firstCall := TurnCall(job, entries, stored, interrupt, engine, first, t1);
      ghost var nextCall := TurnCall(Continuation(job), entries + TurnEntries(job, t1) + calls, stored, InterruptAfter(t1, interrupt),
                                     engine, second, t2);
      CallStep(job, entries, stored, interrupt, producing, engine, onFunctionCall, first, second, t1, t2);
      ConcatAssoc(before, [firstCall], [nextCall]);
      ConcatAssoc(received, TextsOf(t1), TextsOf(t2));
    }

    /** The function-call bookkeeping: the call message, then the handler's response when there is a handler. */
    method RecordCall(call: FunctionCall)
      modifies agent.historyStore
      ensures agent.historyStore.lists == Appended(old(agent.historyStore.lists), agent.historyStore.Key(lead), CallEntries(lead, call, onFunctionCall))
    {
      agent.AddFunctionCallMessage(lead, call);
      if onFunctionCall.Some? {
        var response := onFunctionCall.value(lead, call.name, call.arguments);
        agent.AddFunctionResponseMessage(lead, call, response);
        AppendedTwice(old(agent.historyStore.lists), agent.historyStore.Key(lead), [FunctionCallMessage(call.name, call.arguments)],
                      [FunctionResponseMessage(call.name, response)]);
        assert CallEntries(lead, call, onFunctionCall)
            == [FunctionCallMessage(call.name, call.arguments)] + [FunctionResponseMessage(call.name, response)];
      } else {
        assert CallEntries(lead, call, onFunctionCall) == [FunctionCallMessage(call.name, call.arguments)];
      }
    }

    /** The bookkeeping after a function call, and the continuation without the user message. */
    method SecondPass(job: AgentJob, call: FunctionCall, engine: Engine, second: Script)
      returns (r: Result<Option<string>>, ghost t2: Result<Turn>)
      requires job.lead == lead && agent.Faithful()
      modifies agent, agent.historyStore
      ensures agent.Faithful()
      ensures agent.turns == old(agent.turns) + [TurnCall(Continuation(job), old(agent.historyStore.EntriesOf(lead)) + CallEntries(lead, call, onFunctionCall),
                                                          agent.stateStore.GetStore(lead), old(agent.needsInterrupt), engine, second, t2)]
      ensures r == (if Folded(t2).Err? then Err(Folded(t2).error) else Ok(Folded(t2).value.content))
      ensures agent.historyStore.lists == Appended(old(agent.historyStore.lists), agent.historyStore.Key(lead),
                                                   CallEntries(lead, call, onFunctionCall) + TurnEntries(Continuation(job), t2))
      ensures agent.needsInterrupt == InterruptAfter(t2, old(agent.needsInterrupt))
      ensures agent.producing == ProducingAfter(t2, old(agent.producing))
      ensures agent.received == old(agent.received) + (if agent.textCallbackSet then TextsOf(t2) else [])
    {
      ghost var calls := CallEntries(lead, call, onFunctionCall);
      RecordCall(call);
      assert agent.historyStore.EntriesOf(lead) == old(agent.historyStore.EntriesOf(lead)) + calls;
      var job2 := Continuation(job);
      var t := agent.Process(job2, engine, second);
      t2 := t;
      AppendedTwice(old(agent.historyStore.lists), agent.historyStore.Key(lead), calls, TurnEntries(job2, t));
      if t.Err? {
        r := Err(t.error);
        return;
      }
      var f := agent.ProcessResults(t.value.deltas);
      if f.Err? {
        r := Err(f.error);
      } else {
        r := Ok(f.value.content);
      }
    }
  }

  /** Without a function call the exchange is the first turn's alone. */
  lemma NoCallExchange(job: AgentJob, t1: Result<Turn>, t2: Result<Turn>, handler: Option<FunctionHandler>,
                       interrupt: bool, producing: bool)
    requires CallOf(t1).None?
    ensures Combine(job, t1, t2, handler, interrupt, producing)
         == Exchange(if Folded(t1).Err? then Err(Folded(t1).error) else Ok(Folded(t1).value.content),
                     TurnEntries(job, t1), InterruptAfter(t1, interrupt), ProducingAfter(t1, producing), TextsOf(t1), Folded(t1).Ok?)
  {
  }

  /** The log and the effect of an exchange whose first turn asks for a function call, spelled out. */
  lemma CallStep(job: AgentJob, entries: seq<Json>, stored: Option<StateMap>, interrupt: bool, producing: bool, engine: Engine,
                 handler: Option<FunctionHandler>, first: Script, second: Script, t1: Result<Turn>, t2: Result<Turn>)
    requires CallOf(t1).Some?
    ensures ExchangeLog(job, entries, stored, interrupt, engine, handler, first, second, t1, t2)
         == [TurnCall(job, entries, stored, interrupt, engine, first, t1)]
            + [TurnCall(Continuation(job), entries + TurnEntries(job, t1) + BookkeepingOf(job.lead, t1, handler), stored,
                        InterruptAfter(t1, interrupt), engine, second, t2)]
    ensures Combine(job, t1, t2, handler, interrupt, producing).texts == TextsOf(t1) + TextsOf(t2)
  {
  }

  /** Without a function call the continuation is not run: whatever it would give changes nothing. */
  lemma SinglePassWithoutCall(job: AgentJob, t1: Result<Turn>, t2: Result<Turn>, t2': Result<Turn>, handler: Option<FunctionHandler>,
                              interrupt: bool, producing: bool)
    requires CallOf(t1).None?
    ensures Combine(job, t1, t2, handler, interrupt, producing) == Combine(job, t1, t2', handler, interrupt, producing)
    ensures Combine(job, t1, t2, handler, interrupt, producing).entries == TurnEntries(job, t1)
    ensures Combine(job, t1, t2, handler, interrupt, producing).finished <==> Folded(t1).Ok?
  {
  }

  /** A faithful log of an exchange holds the first turn. */
  lemma LoggedFirstTurn(job: AgentJob, entries: seq<Json>, stored: Option<StateMap>, defaultModel: string,
                        interrupt: bool, engine: Engine, handler: Option<FunctionHandler>, first: Script, second: Script,
                        t1: Result<Turn>, t2: Result<Turn>, before: seq<TurnCall>)
    requires FaithfulLog(before + ExchangeLog(job, entries, stored, interrupt, engine, handler, first, second, t1, t2), defaultModel)
    ensures t1 == ProcessTurn(job, entries, stored, defaultModel, interrupt, engine, first)
  {
    var log := before + ExchangeLog(job, entries, stored, interrupt, engine, handler, first, second, t1, t2);
    assert log[|before|] == TurnCall(job, entries, stored, interrupt, engine, first, t1);
    assert Returned(log[|before|], defaultModel);
  }

  /** A faithful log of an exchange with a function call holds the continuation's turn. */
  lemma LoggedContinuation(job: AgentJob, entries: seq<Json>, stored: Option<StateMap>, defaultModel: string,
                           interrupt: bool, engine: Engine, handler: Option<FunctionHandler>, first: Script, second: Script,
                           t1: Result<Turn>, t2: Result<Turn>, before: seq<TurnCall>)
    requires FaithfulLog(before + ExchangeLog(job, entries, stored, interrupt, engine, handler, first, second, t1, t2), defaultModel)
    requires CallOf(t1).Some?
    ensures t2 == SecondTurn(job, entries, stored, defaultModel, interrupt, engine, handler, t1, second)
  {
    var log := before + ExchangeLog(job, entries, stored, interrupt, engine, handler, first, second, t1, t2);
    assert log[|before| + 1].result == t2;
    assert Returned(log[|before| + 1], defaultModel);
  }

  /** Combine over the first turn and the continuation's turn is TwoPass. */
  lemma CombineIsTwoPass(job: AgentJob, entries: seq<Json>, stored: Option<StateMap>, defaultModel: string,
                         interrupt: bool, producing: bool, engine: Engine, handler: Option<FunctionHandler>, first: Script, second: Script,
                         t1: Result<Turn>, t2: Result<Turn>)
    requires t1 == ProcessTurn(job, entries, stored, defaultModel, interrupt, engine, first)
    requires CallOf(t1).Some? ==> t2 == SecondTurn(job, entries, stored, defaultModel, interrupt, engine, handler, t1, second)
    ensures Combine(job, t1, t2, handler, interrupt, producing)
         == TwoPass(job, entries, stored, defaultModel, interrupt, producing, engine, handler, first, second)
  {
    if CallOf(t1).None? {
      SinglePassWithoutCall(job, t1, t2, SecondTurn(job, entries, stored, defaultModel, interrupt, engine, handler, t1, second),
                            handler, interrupt, producing);
    }
  }

  /**
   * What the controller logs is TwoPass: when the agent's log ends with an
   * exchange's calls and stays faithful, the exchange is the one TwoPass
   * describes for the state beforehand.
   */
  lemma ExchangeIsTwoPass(job: AgentJob, entries: seq<Json>, stored: Option<StateMap>, defaultModel: string,
                          interrupt: bool, producing: bool, engine: Engine, handler: Option<FunctionHandler>, first: Script, second: Script,
                          t1: Result<Turn>, t2: Result<Turn>, before: seq<TurnCall>)
    requires FaithfulLog(before + ExchangeLog(job, entries, stored, interrupt, engine, handler, first, second, t1, t2), defaultModel)
    ensures Combine(job, t1, t2, handler, interrupt, producing)
         == TwoPass(job, entries, stored, defaultModel, interrupt, producing, engine, handler, first, second)
  {
    LoggedFirstTurn(job, entries, stored, defaultModel, interrupt, engine, handler, first, second, t1, t2, before);
    if CallOf(t1).Some? {
      LoggedContinuation(job, entries, stored, defaultModel, interrupt, engine, handler, first, second, t1, t2, before);
    }
    CombineIsTwoPass(job, entries, stored, defaultModel, interrupt, producing, engine, handler, first, second, t1, t2);
  }

  /**
   * After a function call the history gets the first turn's entries, the
   * bookkeeping, and at most one assistant message: the continuation
   * records no user message. It ends the exchange exactly when it folds.
   */
  lemma ContinuationRecordsNoUserMessage(job: AgentJob, t1: Result<Turn>, t2: Result<Turn>, handler: Option<FunctionHandler>,
                                         interrupt: bool, producing: bool)
    requires CallOf(t1).Some?
    ensures t1.Ok?
    ensures Combine(job, t1, t2, handler, interrupt, producing).entries
         == UserEntries(job.message) + AssistantEntries(t1.value.text) + CallEntries(job.lead, CallOf(t1).value, handler)
            + (if t2.Ok? then AssistantEntries(t2.value.text) else [])
    ensures Combine(job, t1, t2, handler, interrupt, producing).finished <==> Folded(t2).Ok?
    ensures Combine(job, t1, t2, handler, interrupt, producing).texts == TextsOf(t1) + TextsOf(t2)
  {
    assert TurnEntries(Continuation(job), t2) == (if t2.Ok? then AssistantEntries(t2.value.text) else []);
  }

  /** The continuation records no user message: its turn runs on the entries as they are after the bookkeeping. */
  lemma SecondTurnIsOutcome(job: AgentJob, entries: seq<Json>, stored: Option<StateMap>, defaultModel: string,
                            interrupt: bool, engine: Engine, handler: Option<FunctionHandler>, t1: Result<Turn>, second: Script)
    ensures var pushed := entries + TurnEntries(job, t1) + BookkeepingOf(job.lead, t1, handler);
      SecondTurn(job, entries, stored, defaultModel, interrupt, engine, handler, t1, second)
      == Outcome(CompiledFor(Continuation(job), pushed, stored, engine), pushed, defaultModel, InterruptAfter(t1, interrupt), second)
  {
    var pushed := entries + TurnEntries(job, t1) + BookkeepingOf(job.lead, t1, handler);
    assert pushed + UserEntries(Continuation(job).message) == pushed;
  }
}
