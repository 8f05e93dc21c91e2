// The prompt compiler: it builds the template context from the stores and
// the job, renders the PML template, and compiles the rendered document
// with one function plugin whose callback collects the schemas.

module Compiler {
  import opened PyValues
  import opened Records
  import opened History
  import opened ChatState
  import opened Markup
  import opened FunctionPlugin
  import opened PmlText
  import opened PmlBuilding

  /** The Handlebars context: `{'history': ..., 'state': ..., 'message': ...}`. */
  datatype TemplateContext = TemplateContext(history: seq<Json>, state: StateMap, message: Option<string>)

  /**
   * The template state: the initial state, overridden by the stored state,
   * overridden by the override (`new_state`); None counts as empty.
   */
  function MergeState(initState: Option<StateMap>, stored: Option<StateMap>, newState: Option<StateMap>): (r: StateMap)
    ensures r.Keys == OrEmpty(initState).Keys + OrEmpty(stored).Keys + OrEmpty(newState).Keys
    ensures forall k :: k in OrEmpty(newState) ==> r[k] == OrEmpty(newState)[k]
    ensures forall k :: k in OrEmpty(stored) && k !in OrEmpty(newState) ==> r[k] == OrEmpty(stored)[k]
    ensures forall k :: k in OrEmpty(initState) && k !in OrEmpty(stored) && k !in OrEmpty(newState) ==>
      r[k] == OrEmpty(initState)[k]
  {
    OrEmpty(initState) + OrEmpty(stored) + OrEmpty(newState)
  }

  /** What `compile` gives for a rendered document: prompt, settings and collected schemas. */
  datatype PromptCompiled = PromptCompiled(
    prompt: string,
    settings: map<string, string>,
    functions: seq<FunctionSchema>,
    context: TemplateContext)

  /** The pass of a function plugin that has a callback. */
  function FunctionPass(ns: seq<Node>): seq<Node>
  {
    Substitute(ns, "function", Results(true, FindAll(ns, "function")))
  }

  /** The prompt text compiled from a parsed document. */
  function PromptOf(doc: seq<Node>): string
  {
    PrepareText(GetText(FunctionPass(Cleaned(doc))))
  }

  /** The schemas the callback collects from a parsed document. */
  function FunctionsOf(doc: seq<Node>): seq<FunctionSchema>
  {
    Collected(FindAll(Cleaned(doc), "function"))
  }

  /** The settings compiled from a parsed document: `{}` unless it has a `settings` element. */
  function SettingsOf(doc: seq<Node>): map<string, string>
  {
    FirstSettings(doc).GetOr(map[])
  }

  class PromptCompiler {
    const job: AgentJob
    const prompt: string
    const historyStore: RedisHistoryProvider
    const stateStore: RedisChatStateProvider

    constructor (job: AgentJob, prompt: string, historyStore: RedisHistoryProvider, stateStore: RedisChatStateProvider)
      ensures this.job == job && this.prompt == prompt
      ensures this.historyStore == historyStore && this.stateStore == stateStore
    {
      this.job := job;
      this.prompt := prompt;
      this.historyStore := historyStore;
      this.stateStore := stateStore;
    }

    /** The context carries the lead's filtered history, the merged state and the job's message as they are. */
    function Context(initState: Option<StateMap>, newState: Option<StateMap>): (c: TemplateContext)
      reads historyStore, stateStore
      ensures c.history == historyStore.GetHistory(job.lead) && c.message == job.message
      ensures c.state == MergeState(initState, stateStore.GetStore(job.lead), newState)
    {
      var history := historyStore.GetHistory(job.lead);
      var state := stateStore.GetStore(job.lead);
      TemplateContext(history, MergeState(initState, state, newState), job.message)
    }

    /**
     * `render` is the Handlebars template compiled with the helpers applied
     * to a context; `parse` is the HTML parser.
     */
    method Process(render: (string, TemplateContext) -> string, parse: string -> seq<Node>,
                   initState: Option<StateMap>, newState: Option<StateMap>) returns (r: PromptCompiled)
      ensures r.context == Context(initState, newState)
      ensures r.prompt == PromptOf(parse(render(prompt, r.context)))
      ensures r.settings == SettingsOf(parse(render(prompt, r.context)))
      ensures r.functions == FunctionsOf(parse(render(prompt, r.context)))
    {
      var ctx := Context(initState, newState);
      var pml := render(prompt, ctx);
      var text, settings, functions := CompileDocument(pml, parse);
      r := PromptCompiled(text, settings, functions, ctx);
    }
  }

  /** The rendered document compiled by a PMLBuilder with one function plugin whose callback collects the schemas. */
  method CompileDocument(pml: string, parse: string -> seq<Node>)
    returns (prompt: string, settings: map<string, string>, functions: seq<FunctionSchema>)
    ensures prompt == PromptOf(parse(pml))
    ensures settings == SettingsOf(parse(pml))
    ensures functions == FunctionsOf(parse(pml))
  {
    var builder := new PMLBuilder(pml, parse);
    var plugin := new PmlFunctionsPlugin(true);
    builder.RegisterPlugin(plugin);
    assert builder.plugins == [plugin];
    ghost var doc := builder.root;
    assert CallbackLists(builder.plugins) == [[]];
    var res := builder.Compile();
    SinglePluginCollects(plugin, Cleaned(doc), [[]]);
    assert CallbackLists(builder.plugins)[0] == plugin.functions;
    prompt, settings, functions := res.prompt, res.settings, plugin.functions;
  }

  /** A document without `function` elements yields no schemas, and its text is compiled as it is. */
  lemma NoFunctionTagsNoFunctions(doc: seq<Node>)
    requires FindAll(doc, "function") == []
    ensures FunctionsOf(doc) == []
    ensures PromptOf(doc) == PrepareText(GetText(Cleaned(doc)))
  {
    AbsentStaysAbsent(doc, SYSTEM_TAGS, "function");
    RemoveCommentsKeepsAbsent(RemoveAll(doc, SYSTEM_TAGS), "function");
    SubstituteAbsent(Cleaned(doc), "function");
  }

  lemma {:induction false} AbsentStaysAbsent(ns: seq<Node>, tags: seq<string>, name: string)
    requires FindAll(ns, name) == []
    ensures FindAll(RemoveAll(ns, tags), name) == []
  {
    if tags != [] {
      AbsentStaysAbsent(ns, tags[..|tags| - 1], name);
      RemoveKeepsAbsent(RemoveAll(ns, tags[..|tags| - 1]), name, tags[|tags| - 1]);
    }
  }

  /**
   * A system-tag element changes at most the settings: the prompt and the
   * schemas are those of the document without it, while settings are read
   * before the tag is removed.
   */
  lemma SystemTagOnlyAffectsSettings(before: seq<Node>, tag: Node, after: seq<Node>)
    requires tag.Element? && tag.name in SYSTEM_TAGS
    ensures PromptOf(before + [tag] + after) == PromptOf(before + after)
    ensures FunctionsOf(before + [tag] + after) == FunctionsOf(before + after)
  {
    SystemTagIsIgnored(before, tag, after);
  }

  /** The first `settings` element's attributes are the compiled settings, although no such element remains. */
  lemma SettingsSurviveTheirTag(doc: seq<Node>, attrs: map<string, string>, children: seq<Node>, rest: seq<Node>)
    requires doc == [Element("settings", attrs, children)] + rest
    ensures SettingsOf(doc) == attrs
    ensures FindAll(RemoveAll(doc, SYSTEM_TAGS), "settings") == []
  {
    assert SYSTEM_TAGS[0] == "settings";
    SystemTagsAreGone(doc, SYSTEM_TAGS, 0);
  }

  /** A comment node anywhere at the top level changes nothing compiled. */
  lemma CommentIsIgnored(before: seq<Node>, text: string, after: seq<Node>)
    ensures PromptOf(before + [Comment(text)] + after) == PromptOf(before + after)
    ensures FunctionsOf(before + [Comment(text)] + after) == FunctionsOf(before + after)
  {
    RemoveAllAppend(before + [Comment(text)], after, SYSTEM_TAGS);
    RemoveAllAppend(before, [Comment(text)], SYSTEM_TAGS);
    RemoveAllAppend(before, after, SYSTEM_TAGS);
    RemoveAllKeepsComment(text, SYSTEM_TAGS);
    var b := RemoveAll(before, SYSTEM_TAGS);
    var a := RemoveAll(after, SYSTEM_TAGS);
    RemoveCommentsAppend(b + [Comment(text)], a);
    RemoveCommentsAppend(b, [Comment(text)]);
    RemoveCommentsAppend(b, a);
    assert RemoveComments([Comment(text)]) == [];
    assert RemoveComments(b) + [] == RemoveComments(b);
  }

  lemma {:induction false} RemoveAllKeepsComment(text: string, tags: seq<string>)
    ensures RemoveAll([Comment(text)], tags) == [Comment(text)]
  {
    if tags != [] {
      RemoveAllKeepsComment(text, tags[..|tags| - 1]);
      assert RemoveElements([Comment(text)], tags[|tags| - 1]) == [Comment(text)] + RemoveElements([], tags[|tags| - 1]);
    }
  }

  /** When every function element yields a schema, none of their text reaches the prompt. */
  lemma ValidFunctionsLeaveNoText(doc: seq<Node>)
    requires forall i :: 0 <= i < |FindAll(Cleaned(doc), "function")| ==> SchemaOf(FindAll(Cleaned(doc), "function")[i]).Some?
    ensures PromptOf(doc) == PrepareText(GetText(RemoveElements(Cleaned(doc), "function")))
  {
    var found := FindAll(Cleaned(doc), "function");
    assert Results(true, found) == Nones(|found|);
    SubstituteNonesRemoves(Cleaned(doc), "function");
  }

  /** The compiled prompt holds no text of a function element, its nested ones included. */
  lemma FunctionElementsAreGone(doc: seq<Node>)
    ensures FindAll(FunctionPass(Cleaned(doc)), "function") == []
  {
    var c := Cleaned(doc);
    SubstitutedElementsAreGone(c, "function", Results(true, FindAll(c, "function")));
  }
}
