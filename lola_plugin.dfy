// The plugin in front of the lite agent: it streams the agent's content
// deltas to its caller and, when the first pass ends in a function call,
// records the call with a fixed response and runs the same job once more
// without its message.

module Plugin {
  import opened PyValues
  import opened Records
  import opened History
  import opened Messages
  import opened AgentStream
  import opened LiteAgent
  import opened Controller
  import Compiler

  /** The response the plugin records for every function call. */
  const FUNCTION_RESPONSE: string := "BTC price is $50,000"

  /** What the local stub handler returns; the plugin never uses it. */
  const STUB_RESPONSE: string := "The Bitcoin price is $1000"

  /** The job id of every job the plugin builds. */
  const PLUGIN_JOB_ID: string := "123"

  /** An `on_function_call(lead, name, arguments)` callback as the constructor's signature has it. */
  type CallHandler = (ChatLead, Option<string>, string) -> string

  /** The handler defined inside the constructor, which shadows the parameter of the same name. */
  function StubHandler(lead: ChatLead, name: Option<string>, arguments: string): string
  {
    STUB_RESPONSE
  }

  /** What a streaming loop hands on: the yielded texts, and the exception that ended it, if any. */
  datatype Yielded = Yielded(texts: seq<string>, error: Option<PyError>)

  /**
   * `async for delta in ...: content = delta.get("content"); if content: yield content`:
   * the truthy contents in order; a bare-string delta has no `.get`, so the
   * loop stops there with an AttributeError.
   */
  function Forwarded(ds: seq<Delta>): Yielded
  {
    if ds == [] then Yielded([], None)
    else
      var p := Forwarded(ds[..|ds| - 1]);
      if p.error.Some? then p
      else match ds[|ds| - 1]
        case Notice(_) => Yielded(p.texts, Some(AttributeError("get")))
        case ContentDelta(c) => Yielded(p.texts + (if c != "" then [c] else []), None)
        case CallDelta(_) => p
  }

  /**
   * The `function_call` variable after the first loop: the last delta's
   * `function_call` (None for a content delta); it is unbound when no delta came.
   */
  function FunctionCallVar(ds: seq<Delta>): Result<Option<FunctionCall>>
  {
    if ds == [] then Err(UnboundLocalError("function_call"))
    else Ok(if ds[|ds| - 1].CallDelta? then Some(ds[|ds| - 1].call) else None)
  }

  /** What one pass over a turn yields; a failed turn raises before anything is yielded. */
  function Passed(t: Result<Turn>): Yielded
  {
    if t.Err? then Yielded([], Some(t.error)) else Forwarded(t.value.deltas)
  }

  /** The first pass up to `if function_call:`: its exception, or the call it found. */
  function FirstPass(t: Result<Turn>): Result<Option<FunctionCall>>
  {
    if t.Err? then Err(t.error)
    else if Forwarded(t.value.deltas).error.Some? then Err(Forwarded(t.value.deltas).error.value)
    else FunctionCallVar(t.value.deltas)
  }

  /** The function call that makes the plugin continue, if any. */
  function PluginCallOf(t: Result<Turn>): Option<FunctionCall>
  {
    if FirstPass(t).Ok? then FirstPass(t).value else None
  }

  /** The bookkeeping for a call: the call message, then the fixed response. */
  function ResponseEntries(call: FunctionCall): seq<Json>
  {
    [FunctionCallMessage(call.name, call.arguments), FunctionResponseMessage(call.name, JStr(FUNCTION_RESPONSE))]
  }

  /** What the bookkeeping records after a first turn: nothing unless it makes the plugin continue. */
  function CallRecord(t: Result<Turn>): seq<Json>
  {
    if PluginCallOf(t).Some? then ResponseEntries(PluginCallOf(t).value) else []
  }

  /** The continuation's job: a new lite job with the first job's id, lead, prompt and initial state, and no message. */
  function ContinuationJob(job: AgentJob): AgentJob
  {
    LiteJob(job.jobId, job.lead, None, Some(job.prompt), job.initState)
  }

  /**
   * The effect of `handle_lola_stream`: the texts it yields and the
   * exception that ends it, the entries appended to the lead's history, the
   * agent's flags and the texts handed to the agent's callback.
   */
  datatype Streamed = Streamed(
    texts: seq<string>,
    error: Option<PyError>,
    entries: seq<Json>,
    interrupt: bool,
    producing: bool,
    received: seq<string>)

  /** The stream made of a first turn `t1` and the continuation's turn `t2`, which only counts after a call. */
  function PluginCombine(job: AgentJob, t1: Result<Turn>, t2: Result<Turn>, interrupt: bool, producing: bool): Streamed
  {
    var e1 := TurnEntries(job, t1);
    var y1 := Passed(t1);
    var f1 := FirstPass(t1);
    if f1.Err? then
      Streamed(y1.texts, Some(f1.error), e1, InterruptAfter(t1, interrupt), ProducingAfter(t1, producing), TextsOf(t1))
    else if f1.value.None? then
      Streamed(y1.texts, None, e1, InterruptAfter(t1, interrupt), ProducingAfter(t1, producing), TextsOf(t1))
    else
      var y2 := Passed(t2);
      Streamed(y1.texts + y2.texts, y2.error, e1 + ResponseEntries(f1.value.value) + TurnEntries(ContinuationJob(job), t2),
               InterruptAfter(t2, InterruptAfter(t1, interrupt)), ProducingAfter(t2, ProducingAfter(t1, producing)),
               TextsOf(t1) + TextsOf(t2))
  }

  /** The continuation's turn after a first turn `t1`: it sees the first turn's entries and the bookkeeping. */
  function PluginSecondTurn(job: AgentJob, entries: seq<Json>, stored: Option<StateMap>, defaultModel: string,
                            interrupt: bool, engine: Engine, t1: Result<Turn>, second: Script): Result<Turn>
  {
    ProcessTurn(ContinuationJob(job), entries + TurnEntries(job, t1) + CallRecord(t1), stored, defaultModel,
                InterruptAfter(t1, interrupt), engine, second)
  }

  /**
   * `handle_lola_stream` from the lead's entries, its stored state and the
   * agent's flags beforehand: the first pass, and after a function call the
   * bookkeeping and one continuation.
   */
  function PluginStream(job: AgentJob, entries: seq<Json>, stored: Option<StateMap>, defaultModel: string,
                        interrupt: bool, producing: bool, engine: Engine, first: Script, second: Script): Streamed
  {
    var t1 := ProcessTurn(job, entries, stored, defaultModel, interrupt, engine, first);
    PluginCombine(job, t1, PluginSecondTurn(job, entries, stored, defaultModel, interrupt, engine, t1, second), interrupt, producing)
  }

  /** The calls a stream makes to the agent: the first turn, and the continuation after a function call. */
  function PluginLog(job: AgentJob, entries: seq<Json>, stored: Option<StateMap>, interrupt: bool, engine: Engine,
                     first: Script, second: Script, t1: Result<Turn>, t2: Result<Turn>): seq<TurnCall>
  {
    [TurnCall(job, entries, stored, interrupt, engine, first, t1)]
      + (if PluginCallOf(t1).Some? then
           [TurnCall(ContinuationJob(job), entries + TurnEntries(job, t1) + CallRecord(t1), stored,
                     InterruptAfter(t1, interrupt), engine, second, t2)]
         else [])
  }

  class LolaPlugin {
    const userId: string
    const prompt: string
    const initState: Option<StateMap>
    const lead: ChatLead
    const agent: LolaAgent
    var producing: bool
    var needsInterrupt: bool

    /**
     * The agent gets no default model and only the text callback; the
     * `onFunctionCall` parameter is shadowed by StubHandler and never stored.
     */
    constructor (userId: string, prompt: string, textCallbackSet: bool, onFunctionCall: Option<CallHandler>,
                 initState: Option<StateMap>)
      ensures this.userId == userId && this.prompt == prompt && this.initState == initState
      ensures lead == NewLead(userId, "test", "tenant", "assistant")
      ensures fresh(agent) && fresh(agent.historyStore) && fresh(agent.stateStore)
      ensures agent.defaultModel == DEFAULT_MODEL && agent.textCallbackSet == textCallbackSet
      ensures agent.historyStore.lists == map[] && agent.stateStore.hashes == map[]
      ensures !agent.producing && !agent.needsInterrupt && agent.received == []
      ensures agent.turns == [] && agent.Faithful()
      ensures !producing && !needsInterrupt
    {
      this.userId := userId;
      this.prompt := prompt;
      this.initState := initState;
      lead := NewLead(userId, "test", "tenant", "assistant");
      agent := new LolaAgent(None, textCallbackSet);
      producing := false;
      needsInterrupt := false;
    }

    /** `process_message` calls a method the agent does not have. */
    method ProcessMessage(message: string) returns (err: PyError)
      ensures err == AttributeError("process_message")
    {
      err := AttributeError("process_message");
    }

    /**
     * Raises the plugin's own flag while a response is being produced; the
     * agent's flag, the only one the agent reads, is left as it is.
     */
    method Interrupt()
      modifies this
      ensures needsInterrupt == (old(needsInterrupt) || producing)
      ensures producing == old(producing)
      ensures agent.needsInterrupt == old(agent.needsInterrupt)
    {
      if producing {
        needsInterrupt := true;
      }
    }

    /** The job for a message: a lite job with id "123", the plugin's lead, prompt and initial state. */
    function MessageJob(message: string): (job: AgentJob)
      ensures job == LiteJob(PLUGIN_JOB_ID, lead, Some(message), Some(prompt), initState)
    {
      LiteJob(PLUGIN_JOB_ID, lead, Some(message), Some(prompt), initState)
    }

    /**
     * `add_message`: the stream of the message's job. `t1` and `t2` are the
     * turns of the stream (StreamIsPluginStream relates it to PluginStream).
     */
    method AddMessage(message: string, engine: Engine, first: Script, second: Script)
      returns (r: Yielded, ghost t1: Result<Turn>, ghost t2: Result<Turn>)
      requires agent.Faithful()
      modifies this, agent, agent.historyStore
      ensures agent.Faithful()
      ensures var job := MessageJob(message);
        var run := PluginCombine(job, t1, t2, old(agent.needsInterrupt), old(agent.producing));
        && agent.turns == old(agent.turns) + PluginLog(job, old(agent.historyStore.EntriesOf(lead)), old(agent.stateStore.GetStore(lead)),
                                                       old(agent.needsInterrupt), engine, first, second, t1, t2)
        && r == Yielded(run.texts, run.error)
        && agent.historyStore.lists == Appended(old(agent.historyStore.lists), agent.historyStore.Key(lead), run.entries)
        && agent.needsInterrupt == run.interrupt && agent.producing == run.producing
        && agent.received == old(agent.received) + (if agent.textCallbackSet then run.received else [])
      ensures producing == r.error.Some? && needsInterrupt == old(needsInterrupt)
    {
      var job := MessageJob(message);
      r, t1, t2 := HandleLolaStream(job, engine, first, second);
    }

    /**
     * `handle_lola_stream` for a job of the plugin's lead: `producing` is
     * raised first and lowered only when the stream ends without an exception.
     */
    method HandleLolaStream(job: AgentJob, engine: Engine, first: Script, second: Script)
      returns (r: Yielded, ghost t1: Result<Turn>, ghost t2: Result<Turn>)
      requires job.lead == lead && agent.Faithful()
      modifies this, agent, agent.historyStore
      ensures agent.Faithful()
      ensures agent.turns == old(agent.turns) + PluginLog(job, old(agent.historyStore.EntriesOf(lead)), old(agent.stateStore.GetStore(lead)),
                                                          old(agent.needsInterrupt), engine, first, second, t1, t2)
      ensures var run := PluginCombine(job, t1, t2, old(agent.needsInterrupt), old(agent.producing));
        && r == Yielded(run.texts, run.error)
        && agent.historyStore.lists == Appended(old(agent.historyStore.lists), agent.historyStore.Key(lead), run.entries)
        && agent.needsInterrupt == run.interrupt && agent.producing == run.producing
        && agent.received == old(agent.received) + (if agent.textCallbackSet then run.received else [])
      ensures producing == r.error.Some? && needsInterrupt == old(needsInterrupt)
    {
      producing := true;
      r, t1, t2 := StreamTurns(job, engine, first, second);
      if r.error.None? {
        producing := false;
      }
    }

    /** The agent's part of `handle_lola_stream`; `t1` and `t2` are the two turns. */
    method StreamTurns(job: AgentJob, engine: Engine, first: Script, second: Script)
      returns (r: Yielded, ghost t1: Result<Turn>, ghost t2: Result<Turn>)
      requires job.lead == lead && agent.Faithful()
      modifies agent, agent.historyStore
      ensures agent.Faithful()
      ensures agent.turns == old(agent.turns) + PluginLog(job, old(agent.historyStore.EntriesOf(lead)), old(agent.stateStore.GetStore(lead)),
                                                          old(agent.needsInterrupt), engine, first, second, t1, t2)
      ensures var run := PluginCombine(job, t1, t2, old(agent.needsInterrupt), old(agent.producing));
        && r == Yielded(run.texts, run.error)
        && agent.historyStore.lists == Appended(old(agent.historyStore.lists), agent.historyStore.Key(lead), run.entries)
        && agent.needsInterrupt == run.interrupt && agent.producing == run.producing
        && agent.received == old(agent.received) + (if agent.textCallbackSet then run.received else [])
    {
      ghost var entries, stored, interrupt := agent.historyStore.EntriesOf(lead), agent.stateStore.GetStore(lead), agent.needsInterrupt;
      var t := agent.Process(job, engine, first);
      t1 := t;
      t2 := Err(IndexError);
      var y, f := RunFirstPass(t);
      if f.Ok? && f.value.Some? {
        r, t2 := FollowCall(job, engine, first, second, f.value.value, y.texts, t1,
                            entries, stored, interrupt, old(agent.producing), old(agent.historyStore.lists),
                            old(agent.received), old(agent.turns));
      } else {
        StopsAfterFirstPass(job, entries, stored, interrupt, old(agent.producing), engine, first, second, t1, t2);
        r := Yielded(y.texts, if f.Err? then Some(f.error) else None);
      }
    }

    /**
     * The rest of a stream whose first turn `t1` yielded `texts` and asks
     * for `call`: the state is the one the first turn left, from the
     * entries, stored state, flags, history, texts and log it started with.
     */
    method FollowCall(job: AgentJob, engine: Engine, first: Script, second: Script, call: FunctionCall, texts: seq<string>,
                      ghost t1: Result<Turn>, ghost entries: seq<Json>, ghost stored: Option<StateMap>, ghost interrupt: bool,
                      ghost producing: bool, ghost lists: Lists, ghost received: seq<string>, ghost before: seq<TurnCall>)
      returns (r: Yielded, ghost t2: Result<Turn>)
      requires job.lead == lead && agent.Faithful() && PluginCallOf(t1) == Some(call) && Passed(t1).texts == texts
      requires agent.turns == before + [TurnCall(job, entries, stored, interrupt, engine, first, t1)]
      requires Entries(lists, agent.historyStore.Key(lead)) == entries && agent.stateStore.GetStore(lead) == stored
      requires agent.historyStore.lists == Appended(lists, agent.historyStore.Key(lead), TurnEntries(job, t1))
      requires agent.needsInterrupt == InterruptAfter(t1, interrupt) && agent.producing == ProducingAfter(t1, producing)
      requires agent.received == received + (if agent.textCallbackSet then TextsOf(t1) else [])
      modifies agent, agent.historyStore
      ensures agent.Faithful()
      ensures agent.turns == before + PluginLog(job, entries, stored, interrupt, engine, first, second, t1, t2)
      ensures var run := PluginCombine(job, t1, t2, interrupt, producing);
        && r == Yielded(run.texts, run.error)
        && agent.historyStore.lists == Appended(lists, agent.historyStore.Key(lead), run.entries)
        && agent.needsInterrupt == run.interrupt && agent.producing == run.producing
        && agent.received == received + (if agent.textCallbackSet then run.received else [])
    {
      ghost var calls := ResponseEntries(call);
      assert CallRecord(t1) == calls;
      var y2;
      y2, t2 := Continue(job, call, engine, second);
      r := Yielded(texts + y2.texts, y2.error);
      AppendedTwice(lists, agent.historyStore.Key(lead), TurnEntries(job, t1), calls + TurnEntries(ContinuationJob(job), t2));
      ConcatAssoc(TurnEntries(job, t1), calls, TurnEntries(ContinuationJob(job), t2));
      ghost var firstCall := TurnCall(job, entries, stored, interrupt, engine, first, t1);
      ghost var nextCall := TurnCall(ContinuationJob(job), entries + TurnEntries(job, t1) + calls, stored, InterruptAfter(t1, interrupt),
                                     engine, second, t2);
      PluginCallStep(job, entries, stored, interrupt, producing, engine, first, second, t1, t2);
      ConcatAssoc(before, [firstCall], [nextCall]);
      ConcatAssoc(received, TextsOf(t1), TextsOf(t2));
    }

    /**
     * The bookkeeping after a function call: the call message and the fixed
     * response; the stub handler is called and its result dropped.
     */
    method RecordCall(call: FunctionCall)
      modifies agent.historyStore
      ensures agent.historyStore.lists == Appended(old(agent.historyStore.lists), agent.historyStore.Key(lead), ResponseEntries(call))
    {
      agent.AddFunctionCallMessage(lead, call);
      agent.AddFunctionResponseMessage(lead, call, JStr(FUNCTION_RESPONSE));
      var functionResponse := StubHandler(lead, call.name, call.arguments);
      AppendedTwice(old(agent.historyStore.lists), agent.historyStore.Key(lead), [FunctionCallMessage(call.name, call.arguments)],
                    [FunctionResponseMessage(call.name, JStr(FUNCTION_RESPONSE))]);
      assert ResponseEntries(call) == [FunctionCallMessage(call.name, call.arguments)] + [FunctionResponseMessage(call.name, JStr(FUNCTION_RESPONSE))];
    }

    /** The bookkeeping after a function call, and the continuation's pass without the message. */
    method Continue(job: AgentJob, call: FunctionCall, engine: Engine, second: Script)
      returns (r: Yielded, ghost t2: Result<Turn>)
      requires job.lead == lead && agent.Faithful()
      modifies agent, agent.historyStore
      ensures agent.Faithful()
      ensures agent.turns == old(agent.turns) + [TurnCall(ContinuationJob(job), old(agent.historyStore.EntriesOf(lead)) + ResponseEntries(call),
                                                          agent.stateStore.GetStore(lead), old(agent.needsInterrupt), engine, second, t2)]
      ensures r == Passed(t2)
      ensures agent.historyStore.lists == Appended(old(agent.historyStore.lists), agent.historyStore.Key(lead),
                                                   ResponseEntries(call) + TurnEntries(ContinuationJob(job), t2))
      ensures agent.needsInterrupt == InterruptAfter(t2, old(agent.needsInterrupt))
      ensures agent.producing == ProducingAfter(t2, old(agent.producing))
      ensures agent.received == old(agent.received) + (if agent.textCallbackSet then TextsOf(t2) else [])
    {
      ghost var calls := ResponseEntries(call);
      RecordCall(call);
      assert agent.historyStore.EntriesOf(lead) == old(agent.historyStore.EntriesOf(lead)) + calls;
      var job2 := ContinuationJob(job);
      var t := agent.Process(job2, engine, second);
      t2 := t;
      AppendedTwice(old(agent.historyStore.lists), agent.historyStore.Key(lead), calls, TurnEntries(job2, t));
      if t.Err? {
        r := Yielded([], Some(t.error));
        return;
      }
      var fc;
      r, fc := ForwardDeltas(t.value.deltas);
    }
  }

  /**
   * One `async for` loop over a turn's deltas: the truthy contents are
   * yielded in order until a bare-string delta, and `function_call` is the
   * last delta's call (unbound when there is no delta).
   */
  method ForwardDeltas(ds: seq<Delta>) returns (y: Yielded, functionCall: Result<Option<FunctionCall>>)
    ensures y == Forwarded(ds)
    ensures y.error.None? ==> functionCall == FunctionCallVar(ds)
  {
    var texts: seq<string> := [];
    var last: Option<FunctionCall> := None;
    var i := 0;
    while i < |ds|
      invariant 0 <= i <= |ds|
      invariant Forwarded(ds[..i]) == Yielded(texts, None)
      invariant i > 0 ==> last == (if ds[i - 1].CallDelta? then Some(ds[i - 1].call) else None)
    {
      assert ds[..i + 1][..i] == ds[..i];
      match ds[i] {
        case Notice(_) =>
          y := Yielded(texts, Some(AttributeError("get")));
          functionCall := Err(AttributeError("get"));
          ErrorStops(ds, i + 1);
          return;
        case ContentDelta(c) =>
          if c != "" {
            texts := texts + [c];
          }
          last := None;
        case CallDelta(call) =>
          last := Some(call);
      }
      i := i + 1;
    }
    assert ds[..i] == ds;
    y := Yielded(texts, None);
    functionCall := if i == 0 then Err(UnboundLocalError("function_call")) else Ok(last);
  }

  /** The first `async for` loop and the `function_call` it leaves; a failed turn raises at once. */
  method RunFirstPass(t: Result<Turn>) returns (y: Yielded, f: Result<Option<FunctionCall>>)
    ensures y == Passed(t) && f == FirstPass(t)
  {
    if t.Err? {
      y, f := Yielded([], Some(t.error)), Err(t.error);
      return;
    }
    y, f := ForwardDeltas(t.value.deltas);
    if y.error.Some? {
      f := Err(y.error.value);
    }
  }

  /** Once a loop has raised, later deltas change nothing. */
  lemma {:induction false} ErrorStops(ds: seq<Delta>, k: nat)
    requires k <= |ds| && Forwarded(ds[..k]).error.Some?
    ensures Forwarded(ds) == Forwarded(ds[..k])
    decreases |ds| - k
  {
    if k < |ds| {
      assert ds[..k + 1][..k] == ds[..k];
      ErrorStops(ds, k + 1);
    } else {
      assert ds[..k] == ds;
    }
  }

  /**
   * A loop raises exactly when a bare-string delta comes, and then the
   * AttributeError of `.get`; what it yields is always a prefix of the
   * truthy contents, and all of them when it does not raise.
   */
  lemma {:induction false} ForwardedContents(ds: seq<Delta>)
    ensures Forwarded(ds).error.None? <==> !HasNotice(ds)
    ensures Forwarded(ds).error.Some? ==> Forwarded(ds).error.value == AttributeError("get")
    ensures Forwarded(ds).texts <= ContentTexts(ds)
    ensures !HasNotice(ds) ==> Forwarded(ds).texts == ContentTexts(ds)
  {
    if ds != [] {
      var init := ds[..|ds| - 1];
      ForwardedContents(init);
      assert HasNotice(ds) <==> HasNotice(init) || ds[|ds| - 1].Notice? by {
        if HasNotice(init) {
          var i :| 0 <= i < |init| && init[i].Notice?;
          assert ds[i] == init[i];
        }
        if HasNotice(ds) && !ds[|ds| - 1].Notice? {
          var i :| 0 <= i < |ds| && ds[i].Notice?;
          assert init[i] == ds[i];
        }
      }
    }
  }

  /**
   * On a connected turn with at least one delta the plugin's first pass
   * agrees with the agent's own fold of the deltas: no exception, the
   * texts the callback gets, and the call `process_results_coro` finds.
   */
  lemma PluginAgreesWithFold(ctx: Compiler.PromptCompiled, entries: seq<Json>, defaultModel: string, interrupt: bool, script: Script)
    requires !script.connectionTimesOut
    requires Outcome(ctx, entries, defaultModel, interrupt, script).Ok?
    requires Outcome(ctx, entries, defaultModel, interrupt, script).value.deltas != []
    ensures var t := Outcome(ctx, entries, defaultModel, interrupt, script);
      && FirstPass(t) == Ok(LastCall(t.value.deltas))
      && Passed(t) == Yielded(TextsOf(t), None)
  {
    var t := Outcome(ctx, entries, defaultModel, interrupt, script);
    ConnectedTurnResponse(ctx, entries, defaultModel, interrupt, script);
    ForwardedContents(t.value.deltas);
  }

  /** A connected turn without deltas (a stream that ends at once) makes the first pass raise on `function_call`. */
  lemma EmptyStreamFails(job: AgentJob, t1: Result<Turn>, t2: Result<Turn>, interrupt: bool, producing: bool)
    requires t1.Ok? && t1.value.deltas == []
    ensures PluginCombine(job, t1, t2, interrupt, producing).error == Some(UnboundLocalError("function_call"))
    ensures PluginCombine(job, t1, t2, interrupt, producing).texts == []
    ensures PluginCombine(job, t1, t2, interrupt, producing).entries == TurnEntries(job, t1)
  {
  }

  /** Such a turn happens: a connected stream whose events end at once yields no delta. */
  lemma EmptyStreamHappens(ctx: Compiler.PromptCompiled, entries: seq<Json>, defaultModel: string, interrupt: bool)
    requires ConfigOf(ctx.settings, defaultModel).Ok?
    ensures Outcome(ctx, entries, defaultModel, interrupt, Script(false, [Exhausted])).Ok?
    ensures Outcome(ctx, entries, defaultModel, interrupt, Script(false, [Exhausted])).value.deltas == []
  {
    assert Run(Start(interrupt), [Exhausted]) == Run(Step(Start(interrupt), Exhausted), []);
  }

  /** On a connection time-out the agent's notice is a bare string: the first pass raises before yielding anything. */
  lemma TimeoutFails(job: AgentJob, ctx: Compiler.PromptCompiled, entries: seq<Json>, defaultModel: string, interrupt: bool,
                     producing: bool, script: Script, t2: Result<Turn>)
    requires script.connectionTimesOut
    requires Outcome(ctx, entries, defaultModel, interrupt, script).Ok?
    ensures var run := PluginCombine(job, Outcome(ctx, entries, defaultModel, interrupt, script), t2, interrupt, producing);
      run.error == Some(AttributeError("get")) && run.texts == []
  {
    TimeoutTurn(ctx, entries, defaultModel, interrupt, script);
    var ds := Outcome(ctx, entries, defaultModel, interrupt, script).value.deltas;
    assert ds[..|ds| - 1] == [];
    assert Forwarded(ds) == Yielded([], Some(AttributeError("get")));
  }

  /**
   * After a function call the history gets the first turn's entries, the
   * call message, the fixed response, and at most one assistant message:
   * the continuation records no user message. The texts of both passes are
   * yielded in order, and the continuation's exception, if any, ends the stream.
   */
  lemma CallRecordedBeforeContinuation(job: AgentJob, t1: Result<Turn>, t2: Result<Turn>, interrupt: bool, producing: bool)
    requires PluginCallOf(t1).Some?
    ensures t1.Ok?
    ensures PluginCombine(job, t1, t2, interrupt, producing).entries
         == UserEntries(job.message) + AssistantEntries(t1.value.text)
            + [FunctionCallMessage(PluginCallOf(t1).value.name, PluginCallOf(t1).value.arguments),
               FunctionResponseMessage(PluginCallOf(t1).value.name, JStr(FUNCTION_RESPONSE))]
            + (if t2.Ok? then AssistantEntries(t2.value.text) else [])
    ensures PluginCombine(job, t1, t2, interrupt, producing).texts == Passed(t1).texts + Passed(t2).texts
    ensures PluginCombine(job, t1, t2, interrupt, producing).error == Passed(t2).error
  {
    assert TurnEntries(ContinuationJob(job), t2) == (if t2.Ok? then AssistantEntries(t2.value.text) else []);
  }

  /**
   * The continuation copies the job's id, lead and initial state and its
   * (already defaulted) prompt, has no message and no `new_state`; for a
   * lite job it is the job without its message.
   */
  lemma ContinuationCopiesJob(job: AgentJob)
    ensures ContinuationJob(job).jobId == job.jobId && ContinuationJob(job).lead == job.lead
    ensures ContinuationJob(job).initState == job.initState && ContinuationJob(job).message.None?
    ensures job.prompt != "" ==> ContinuationJob(job).prompt == job.prompt
    ensures job.prompt != "" && job.newState == Absent ==> ContinuationJob(job) == Continuation(job)
  {
  }

  /** The log and the effect of a stream whose first turn asks for a function call, spelled out. */
  lemma PluginCallStep(job: AgentJob, entries: seq<Json>, stored: Option<StateMap>, interrupt: bool, producing: bool, engine: Engine,
                       first: Script, second: Script, t1: Result<Turn>, t2: Result<Turn>)
    requires PluginCallOf(t1).Some?
    ensures PluginLog(job, entries, stored, interrupt, engine, first, second, t1, t2)
         == [TurnCall(job, entries, stored, interrupt, engine, first, t1)]
            + [TurnCall(ContinuationJob(job), entries + TurnEntries(job, t1) + CallRecord(t1), stored,
                        InterruptAfter(t1, interrupt), engine, second, t2)]
    ensures PluginCombine(job, t1, t2, interrupt, producing).received == TextsOf(t1) + TextsOf(t2)
  {
  }

  /** The log and the effect of a stream that ends after its first pass, spelled out. */
  lemma StopsAfterFirstPass(job: AgentJob, entries: seq<Json>, stored: Option<StateMap>, interrupt: bool, producing: bool, engine: Engine,
                            first: Script, second: Script, t1: Result<Turn>, t2: Result<Turn>)
    requires PluginCallOf(t1).None?
    ensures PluginLog(job, entries, stored, interrupt, engine, first, second, t1, t2) == [TurnCall(job, entries, stored, interrupt, engine, first, t1)]
    ensures PluginCombine(job, t1, t2, interrupt, producing)
         == Streamed(Passed(t1).texts, if FirstPass(t1).Err? then Some(FirstPass(t1).error) else None, TurnEntries(job, t1),
                     InterruptAfter(t1, interrupt), ProducingAfter(t1, producing), TextsOf(t1))
  {
  }

  /** Without a function call the continuation is not run: whatever it would give changes nothing. */
  lemma PluginWithoutCall(job: AgentJob, t1: Result<Turn>, t2: Result<Turn>, t2': Result<Turn>, interrupt: bool, producing: bool)
    requires PluginCallOf(t1).None?
    ensures PluginCombine(job, t1, t2, interrupt, producing) == PluginCombine(job, t1, t2', interrupt, producing)
    ensures PluginCombine(job, t1, t2, interrupt, producing).entries == TurnEntries(job, t1)
    ensures PluginCombine(job, t1, t2, interrupt, producing).texts == Passed(t1).texts
  {
  }

  /** A faithful log of a stream holds the first turn. */
  lemma LoggedFirstPass(job: AgentJob, entries: seq<Json>, stored: Option<StateMap>, defaultModel: string,
                        interrupt: bool, engine: Engine, first: Script, second: Script,
                        t1: Result<Turn>, t2: Result<Turn>, before: seq<TurnCall>)
    requires FaithfulLog(before + PluginLog(job, entries, stored, interrupt, engine, first, second, t1, t2), defaultModel)
    ensures t1 == ProcessTurn(job, entries, stored, defaultModel, interrupt, engine, first)
  {
    var log := before + PluginLog(job, entries, stored, interrupt, engine, first, second, t1, t2);
    assert log[|before|] == TurnCall(job, entries, stored, interrupt, engine, first, t1);
    assert Returned(log[|before|], defaultModel);
  }

  /** A faithful log of a stream with a function call holds the continuation's turn. */
  lemma LoggedSecondPass(job: AgentJob, entries: seq<Json>, stored: Option<StateMap>, defaultModel: string,
                         interrupt: bool, engine: Engine, first: Script, second: Script,
                         t1: Result<Turn>, t2: Result<Turn>, before: seq<TurnCall>)
    requires FaithfulLog(before + PluginLog(job, entries, stored, interrupt, engine, first, second, t1, t2), defaultModel)
    requires PluginCallOf(t1).Some?
    ensures t2 == PluginSecondTurn(job, entries, stored, defaultModel, interrupt, engine, t1, second)
  {
    var log := before + PluginLog(job, entries, stored, interrupt, engine, first, second, t1, t2);
    assert log[|before| + 1].result == t2;
    assert Returned(log[|before| + 1], defaultModel);
  }

  /** PluginCombine over the first turn and the continuation's turn is PluginStream. */
  lemma PluginCombineIsStream(job: AgentJob, entries: seq<Json>, stored: Option<StateMap>, defaultModel: string,
                              interrupt: bool, producing: bool, engine: Engine, first: Script, second: Script,
                              t1: Result<Turn>, t2: Result<Turn>)
    requires t1 == ProcessTurn(job, entries, stored, defaultModel, interrupt, engine, first)
    requires PluginCallOf(t1).Some? ==> t2 == PluginSecondTurn(job, entries, stored, defaultModel, interrupt, engine, t1, second)
    ensures PluginCombine(job, t1, t2, interrupt, producing)
         == PluginStream(job, entries, stored, defaultModel, interrupt, producing, engine, first, second)
  {
    if PluginCallOf(t1).None? {
      PluginWithoutCall(job, t1, t2, PluginSecondTurn(job, entries, stored, defaultModel, interrupt, engine, t1, second),
                        interrupt, producing);
    }
  }

  /**
   * What the plugin logs is PluginStream: when the agent's log ends with a
   * stream's calls and stays faithful, the stream is the one PluginStream
   * describes for the state beforehand.
   */
  lemma StreamIsPluginStream(job: AgentJob, entries: seq<Json>, stored: Option<StateMap>, defaultModel: string,
                             interrupt: bool, producing: bool, engine: Engine, first: Script, second: Script,
                             t1: Result<Turn>, t2: Result<Turn>, before: seq<TurnCall>)
    requires FaithfulLog(before + PluginLog(job, entries, stored, interrupt, engine, first, second, t1, t2), defaultModel)
    ensures PluginCombine(job, t1, t2, interrupt, producing)
         == PluginStream(job, entries, stored, defaultModel, interrupt, producing, engine, first, second)
  {
    LoggedFirstPass(job, entries, stored, defaultModel, interrupt, engine, first, second, t1, t2, before);
    if PluginCallOf(t1).Some? {
      LoggedSecondPass(job, entries, stored, defaultModel, interrupt, engine, first, second, t1, t2, before);
    }
    PluginCombineIsStream(job, entries, stored, defaultModel, interrupt, producing, engine, first, second, t1, t2);
  }
}
