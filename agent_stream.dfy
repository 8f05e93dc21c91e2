// What the lite agent makes of one streamed chat completion. The OpenAI
// client and its time limits are replaced by a script of events: the
// chunks that arrive, the moments another task sets the interrupt flag,
// and how the stream ends (a chunk that does not come within the time
// limit, the end of the stream, or cancellation).

module AgentStream {
  import opened PyValues

  /** A `delta.function_call` part of a chunk. */
  datatype Fragment = Fragment(name: Option<string>, arguments: Option<string>)

  datatype Event =
    | Chunk(content: Option<string>, call: Option<Fragment>, finishReason: Option<string>)
    | InterruptSet   // `_needs_interrupt = True`, written by another task between two chunks
    | ChunkTimeout   // no chunk within the time limit
    | Exhausted      // the stream has no more chunks
    | Cancelled      // the task is cancelled while waiting

  /** The `{"name", "arguments"}` dictionary the loop accumulates. */
  datatype FunctionCall = FunctionCall(name: Option<string>, arguments: string)

  /**
   * What the executor yields: `{"content": c}`, the final
   * `{"content": None, "function_call": ...}`, or (on a connection time-out)
   * a bare string.
   */
  datatype Delta = ContentDelta(content: string) | CallDelta(call: FunctionCall) | Notice(text: string)

  const FUNCTION_CALL_FINISH: string := "function_call"

  /** Python truthiness of an optional string. */
  predicate NonEmpty(s: Option<string>)
  {
    s.Some? && s.value != ""
  }

  /** The loop's variables: the text so far, the call so far, the interrupt flag, what it yielded, events consumed. */
  datatype Acc = Acc(
    text: string,
    name: Option<string>,
    arguments: string,
    interrupt: bool,
    deltas: seq<Delta>,
    consumed: nat,
    done: bool)

  function Start(interrupt: bool): (a: Acc)
    ensures a.text == "" && a.deltas == [] && a.name.None? && a.arguments == ""
    ensures a.interrupt == interrupt && a.consumed == 0 && !a.done
  {
    Acc("", None, "", interrupt, [], 0, false)
  }

  /** The name a chunk leaves in the call: a truthy name replaces the previous one. */
  function NameAfter(name: Option<string>, e: Event): Option<string>
  {
    if e.Chunk? && e.call.Some? && NonEmpty(e.call.value.name) then e.call.value.name else name
  }

  /** The argument text a chunk contributes. */
  function ArgumentsOf(e: Event): string
  {
    if e.Chunk? && e.call.Some? && NonEmpty(e.call.value.arguments) then e.call.value.arguments.value else ""
  }

  /** One turn of the `while True` loop. */
  function Step(acc: Acc, e: Event): Acc
  {
    match e
    case Chunk(c, _, finish) =>
      var a := acc.(name := NameAfter(acc.name, e), arguments := acc.arguments + ArgumentsOf(e),
                    consumed := acc.consumed + 1);
      if finish == Some(FUNCTION_CALL_FINISH) then
        a.(deltas := a.deltas + [CallDelta(FunctionCall(a.name, a.arguments))], done := true)
      else if a.interrupt then a.(interrupt := false, done := true)
      else if NonEmpty(c) then a.(text := a.text + c.value, deltas := a.deltas + [ContentDelta(c.value)])
      else a
    case InterruptSet => acc.(interrupt := true, consumed := acc.consumed + 1)
    case ChunkTimeout => acc.(consumed := acc.consumed + 1, done := true)
    case Exhausted => acc.(consumed := acc.consumed + 1, done := true)
    case Cancelled => acc.(interrupt := false, consumed := acc.consumed + 1, done := true)
  }

  /** The loop run over the events until it breaks (or the script ends, which is the stream's end). */
  function Run(acc: Acc, events: seq<Event>): Acc
    decreases |events|
  {
    if events == [] || acc.done then acc else Run(Step(acc, events[0]), events[1..])
  }

  /** The truthy contents of the content deltas, in order. */
  function ContentTexts(ds: seq<Delta>): seq<string>
  {
    if ds == [] then []
    else ContentTexts(ds[..|ds| - 1]) + (if ds[|ds| - 1].ContentDelta? && ds[|ds| - 1].content != "" then [ds[|ds| - 1].content] else [])
  }

  /** The concatenation of the content deltas. */
  function ContentText(ds: seq<Delta>): string
  {
    if ds == [] then ""
    else ContentText(ds[..|ds| - 1]) + (if ds[|ds| - 1].ContentDelta? then ds[|ds| - 1].content else "")
  }

  /** The concatenated argument fragments of some events. */
  function JoinedArguments(events: seq<Event>): string
  {
    if events == [] then "" else ArgumentsOf(events[0]) + JoinedArguments(events[1..])
  }

  /** The last truthy name among some events' fragments, `name` if there is none. */
  function LastGivenName(name: Option<string>, events: seq<Event>): Option<string>
    decreases |events|
  {
    if events == [] then name else LastGivenName(NameAfter(name, events[0]), events[1..])
  }

  /**
   * The shape of what the loop has yielded: the accumulated text is the
   * content deltas' concatenation, no delta is a notice, a call delta can
   * only be the last one, and it carries the accumulated call and ends the loop.
   */
  predicate WellFormed(acc: Acc)
  {
    && acc.text == ContentText(acc.deltas)
    && (forall i :: 0 <= i < |acc.deltas| ==> !acc.deltas[i].Notice?)
    && (forall i :: 0 <= i < |acc.deltas| - 1 ==> !acc.deltas[i].CallDelta?)
    && (|acc.deltas| > 0 && acc.deltas[|acc.deltas| - 1].CallDelta? ==>
          acc.done && acc.deltas[|acc.deltas| - 1].call == FunctionCall(acc.name, acc.arguments))
  }

  lemma AppendDelta(ds: seq<Delta>, d: Delta)
    ensures (ds + [d])[..|ds|] == ds
    ensures ContentText(ds + [d]) == ContentText(ds) + (if d.ContentDelta? then d.content else "")
    ensures ContentTexts(ds + [d]) == ContentTexts(ds) + (if d.ContentDelta? && d.content != "" then [d.content] else [])
  {
    assert (ds + [d])[..|ds|] == ds;
  }

  lemma StepWellFormed(acc: Acc, e: Event)
    requires WellFormed(acc) && !acc.done
    ensures WellFormed(Step(acc, e))
  {
    if e.Chunk? {
      if e.finishReason == Some(FUNCTION_CALL_FINISH) {
        CallChunkWellFormed(acc, e);
      } else if !acc.interrupt && NonEmpty(e.content) {
        ContentChunkWellFormed(acc, e);
      }
    }
  }

  /** The finishing chunk of a function call appends the call and ends the loop. */
  lemma CallChunkWellFormed(acc: Acc, e: Event)
    requires WellFormed(acc) && !acc.done
    requires e.Chunk? && e.finishReason == Some(FUNCTION_CALL_FINISH)
    ensures WellFormed(Step(acc, e))
  {
    var call := FunctionCall(NameAfter(acc.name, e), acc.arguments + ArgumentsOf(e));
    var ds := acc.deltas + [CallDelta(call)];
    assert Step(acc, e) == acc.(name := call.name, arguments := call.arguments, consumed := acc.consumed + 1,
                                deltas := ds, done := true);
    AppendDelta(acc.deltas, CallDelta(call));
    assert forall i :: 0 <= i < |ds| - 1 ==> ds[i] == acc.deltas[i];
  }

  /** A content chunk that is not interrupted appends its content to the text and to the yielded deltas. */
  lemma ContentChunkWellFormed(acc: Acc, e: Event)
    requires WellFormed(acc) && !acc.done
    requires e.Chunk? && e.finishReason != Some(FUNCTION_CALL_FINISH) && !acc.interrupt && NonEmpty(e.content)
    ensures WellFormed(Step(acc, e))
  {
    var c := e.content.value;
    var ds := acc.deltas + [ContentDelta(c)];
    assert Step(acc, e) == acc.(name := NameAfter(acc.name, e), arguments := acc.arguments + ArgumentsOf(e),
                                consumed := acc.consumed + 1, text := acc.text + c, deltas := ds);
    AppendDelta(acc.deltas, ContentDelta(c));
    assert forall i :: 0 <= i < |acc.deltas| ==> ds[i] == acc.deltas[i];
  }

  /** The loop keeps its output well formed, however it ends. */
  lemma {:induction false} RunWellFormed(acc: Acc, events: seq<Event>)
    requires WellFormed(acc)
    ensures WellFormed(Run(acc, events))
    decreases |events|
  {
    if events != [] && !acc.done {
      StepWellFormed(acc, events[0]);
      RunWellFormed(Step(acc, events[0]), events[1..]);
    }
  }

  /** The number of events the loop consumes before it breaks. */
  lemma {:induction false} RunConsumes(acc: Acc, events: seq<Event>)
    ensures acc.consumed <= Run(acc, events).consumed <= acc.consumed + |events|
    ensures acc.done ==> Run(acc, events) == acc
    decreases |events|
  {
    if events != [] && !acc.done {
      RunConsumes(Step(acc, events[0]), events[1..]);
    }
  }

  /** The events the loop consumes. */
  function Taken(acc: Acc, events: seq<Event>): seq<Event>
  {
    RunConsumes(acc, events);
    events[..Run(acc, events).consumed - acc.consumed]
  }

  lemma TakenStep(acc: Acc, events: seq<Event>)
    requires events != [] && !acc.done
    ensures Taken(acc, events) == [events[0]] + Taken(Step(acc, events[0]), events[1..])
  {
    var s := Step(acc, events[0]);
    RunConsumes(s, events[1..]);
    var k := Run(acc, events).consumed - s.consumed;
    assert events[..k + 1] == [events[0]] + events[1..][..k];
  }

  /** The call's arguments are the argument fragments of the consumed chunks, in arrival order. */
  lemma {:induction false} RunJoinsArguments(acc: Acc, events: seq<Event>)
    ensures Run(acc, events).arguments == acc.arguments + JoinedArguments(Taken(acc, events))
    decreases |events|
  {
    if events == [] || acc.done {
      RunConsumes(acc, events);
      assert Taken(acc, events) == [];
    } else {
      var s := Step(acc, events[0]);
      RunJoinsArguments(s, events[1..]);
      TakenStep(acc, events);
      var t := Taken(s, events[1..]);
      assert JoinedArguments([events[0]] + t) == ArgumentsOf(events[0]) + JoinedArguments(t) by {
        assert ([events[0]] + t)[1..] == t;
      }
      assert s.arguments == acc.arguments + ArgumentsOf(events[0]);
      assert (acc.arguments + ArgumentsOf(events[0])) + JoinedArguments(t)
          == acc.arguments + (ArgumentsOf(events[0]) + JoinedArguments(t));
    }
  }

  /** The call's name is that of the last consumed chunk that carried a truthy one. */
  lemma {:induction false} RunKeepsLastName(acc: Acc, events: seq<Event>)
    ensures Run(acc, events).name == LastGivenName(acc.name, Taken(acc, events))
    decreases |events|
  {
    if events == [] || acc.done {
      RunConsumes(acc, events);
      assert Taken(acc, events) == [];
    } else {
      var s := Step(acc, events[0]);
      RunKeepsLastName(s, events[1..]);
      TakenStep(acc, events);
      var t := Taken(s, events[1..]);
      assert ([events[0]] + t)[1..] == t;
    }
  }

  /** The loop stops at the first interrupt it sees: that chunk's content is neither kept nor yielded. */
  lemma InterruptDropsChunk(acc: Acc, content: string, rest: seq<Event>)
    requires !acc.done && acc.interrupt
    ensures Run(acc, [Chunk(Some(content), None, None)] + rest).deltas == acc.deltas
    ensures Run(acc, [Chunk(Some(content), None, None)] + rest).text == acc.text
    ensures !Run(acc, [Chunk(Some(content), None, None)] + rest).interrupt
  {
    var es := [Chunk(Some(content), None, None)] + rest;
    assert es[0] == Chunk(Some(content), None, None);
    assert Step(acc, es[0]).done;
  }

  /**
   * The function-call check comes before the interrupt check: a flag set
   * before the finishing chunk does not stop the call, and it is still set
   * when the loop ends.
   */
  lemma InterruptSurvivesFunctionCall(acc: Acc, f: Fragment, rest: seq<Event>)
    requires !acc.done && acc.interrupt
    ensures Run(acc, [Chunk(None, Some(f), Some(FUNCTION_CALL_FINISH))] + rest).interrupt
    ensures Run(acc, [Chunk(None, Some(f), Some(FUNCTION_CALL_FINISH))] + rest).deltas
         == acc.deltas + [CallDelta(FunctionCall(NameAfter(acc.name, Chunk(None, Some(f), Some(FUNCTION_CALL_FINISH))),
                                                 acc.arguments + ArgumentsOf(Chunk(None, Some(f), Some(FUNCTION_CALL_FINISH)))))]
  {
    var e := Chunk(None, Some(f), Some(FUNCTION_CALL_FINISH));
    var es := [e] + rest;
    assert es[0] == e;
    assert Step(acc, e).done;
  }

  /** Two content chunks, then the end of the stream. */
  lemma TwoChunks()
    ensures Run(Start(false), [Chunk(Some("Hel"), None, None), Chunk(Some("lo"), None, None), Exhausted]).text == "Hello"
    ensures Run(Start(false), [Chunk(Some("Hel"), None, None), Chunk(Some("lo"), None, None), Exhausted]).deltas
         == [ContentDelta("Hel"), ContentDelta("lo")]
  {
    var es := [Chunk(Some("Hel"), None, None), Chunk(Some("lo"), None, None), Exhausted];
    var a1 := Step(Start(false), es[0]);
    assert a1.text == "Hel" && a1.deltas == [ContentDelta("Hel")];
    assert es[1..][0] == Chunk(Some("lo"), None, None);
    var a2 := Step(a1, es[1]);
    assert a2.text == "Hello" && a2.deltas == [ContentDelta("Hel"), ContentDelta("lo")];
    assert es[1..][1..] == [Exhausted];
    assert Run(a2, [Exhausted]) == Step(a2, Exhausted);
  }

  /** Argument fragments of a function call are concatenated. */
  lemma SplitArguments()
    ensures Run(Start(false), [Chunk(None, Some(Fragment(Some("f"), Some("{\"a\":"))), None),
                               Chunk(None, Some(Fragment(None, Some("1}"))), Some(FUNCTION_CALL_FINISH))]).deltas
         == [CallDelta(FunctionCall(Some("f"), "{\"a\":1}"))]
  {
    var e1 := Chunk(None, Some(Fragment(Some("f"), Some("{\"a\":"))), None);
    var e2 := Chunk(None, Some(Fragment(None, Some("1}"))), Some(FUNCTION_CALL_FINISH));
    var es := [e1, e2];
    var a1 := Step(Start(false), e1);
    assert a1 == Acc("", Some("f"), "{\"a\":", false, [], 1, false);
    var a2 := Step(a1, e2);
    assert "{\"a\":" + "1}" == "{\"a\":1}";
    assert a2.deltas == [CallDelta(FunctionCall(Some("f"), "{\"a\":1}"))];
    assert es[1..] == [e2];
    assert Run(a1, [e2]) == Run(a2, []);
  }
}
