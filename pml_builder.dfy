// The PML builder: it holds the parsed document and compiles it into a
// prompt. Compilation reads the settings, decomposes the system tags,
// extracts the comments, lets each registered plugin replace its elements,
// then takes the document's text and cleans it up.

module PmlBuilding {
  import opened PyValues
  import opened Markup
  import opened FunctionPlugin
  import opened PmlText

  const SYSTEM_TAGS: seq<string> := ["settings", "script", "command", "test", "mood"]

  /** The document after decomposing the elements of each tag in `tags`, in order. */
  function RemoveAll(ns: seq<Node>, tags: seq<string>): seq<Node>
  {
    if tags == [] then ns else RemoveElements(RemoveAll(ns, tags[..|tags| - 1]), tags[|tags| - 1])
  }

  /** The attributes of the first `settings` element, if there is one. */
  function FirstSettings(ns: seq<Node>): Option<map<string, string>>
  {
    var found := FindAll(ns, "settings");
    if found == [] then None else Some(found[0].attrs)
  }

  /** What `process` returns for each element, in order. */
  function Results(callbackSet: bool, elements: seq<Node>): (r: seq<Option<string>>)
    ensures |r| == |elements|
    ensures forall i :: 0 <= i < |r| ==> r[i] == ResultFor(callbackSet, elements[i])
  {
    seq(|elements|, i requires 0 <= i < |elements| => ResultFor(callbackSet, elements[i]))
  }

  /** One more element adds its result at the end. */
  lemma ResultsPrefix(callbackSet: bool, elements: seq<Node>, j: nat)
    requires j < |elements|
    ensures Results(callbackSet, elements[..j + 1]) == Results(callbackSet, elements[..j]) + [ResultFor(callbackSet, elements[j])]
  {
    var a := Results(callbackSet, elements[..j + 1]);
    var b := Results(callbackSet, elements[..j]) + [ResultFor(callbackSet, elements[j])];
    assert |a| == |b|;
    forall i | 0 <= i < |a|
      ensures a[i] == b[i]
    {
      if i < j {
        assert elements[..j + 1][i] == elements[..j][i];
      }
    }
  }

  /** The document after one plugin replaced each of its elements with what `process` returned. */
  function PluginPass(ns: seq<Node>, plugin: PmlFunctionsPlugin): seq<Node>
  {
    var found := FindAll(ns, plugin.elementName);
    Substitute(ns, plugin.elementName, Results(plugin.callbackSet, found))
  }

  /** The document after the passes of `plugins`, in registration order. */
  function AfterPlugins(ns: seq<Node>, plugins: seq<PmlFunctionsPlugin>): seq<Node>
  {
    if plugins == [] then ns else PluginPass(AfterPlugins(ns, plugins[..|plugins| - 1]), plugins[|plugins| - 1])
  }

  /** The schemas plugin `q` hands to its callback while `plugins` run over `ns` (once per registration). */
  function CollectedBy(q: PmlFunctionsPlugin, ns: seq<Node>, plugins: seq<PmlFunctionsPlugin>): seq<FunctionSchema>
  {
    if plugins == [] then []
    else
      var init := plugins[..|plugins| - 1];
      var last := plugins[|plugins| - 1];
      CollectedBy(q, ns, init) + Contribution(q, AfterPlugins(ns, init), last)
  }

  /** What one registration `last` hands to `q`'s callback when it runs over `ns`. */
  function Contribution(q: PmlFunctionsPlugin, ns: seq<Node>, last: PmlFunctionsPlugin): seq<FunctionSchema>
  {
    if last == q && q.callbackSet then Collected(FindAll(ns, q.elementName)) else []
  }

  /** The document as the plugins see it: system tags decomposed, then comments extracted. */
  function Cleaned(ns: seq<Node>): seq<Node>
  {
    RemoveComments(RemoveAll(ns, SYSTEM_TAGS))
  }

  /** The callback lists of `plugins`, one per registration. */
  function CallbackLists(plugins: seq<PmlFunctionsPlugin>): (r: seq<seq<FunctionSchema>>)
    reads set p | p in plugins
    ensures |r| == |plugins| && forall i :: 0 <= i < |r| ==> r[i] == plugins[i].functions
  {
    seq(|plugins|, i reads set p | p in plugins requires 0 <= i < |plugins| => plugins[i].functions)
  }

  /** `lists` with `extra` appended to the list of every registration of `p`. */
  function Bump(lists: seq<seq<FunctionSchema>>, plugins: seq<PmlFunctionsPlugin>, p: PmlFunctionsPlugin,
                extra: seq<FunctionSchema>): (r: seq<seq<FunctionSchema>>)
    requires |lists| == |plugins|
    ensures |r| == |lists|
    ensures forall i :: 0 <= i < |r| ==> r[i] == if plugins[i] == p then lists[i] + extra else lists[i]
  {
    seq(|lists|, i requires 0 <= i < |lists| => if plugins[i] == p then lists[i] + extra else lists[i])
  }

  /** The callback lists after the first `k` passes over `ns`, from the lists `start`. */
  function Expected(start: seq<seq<FunctionSchema>>, ns: seq<Node>, plugins: seq<PmlFunctionsPlugin>, k: nat)
    : (r: seq<seq<FunctionSchema>>)
    requires |start| == |plugins| && k <= |plugins|
    ensures |r| == |start|
    ensures forall i :: 0 <= i < |r| ==> r[i] == start[i] + CollectedBy(plugins[i], ns, plugins[..k])
  {
    seq(|start|, i requires 0 <= i < |start| => start[i] + CollectedBy(plugins[i], ns, plugins[..k]))
  }

  datatype CompileResult = Compiled(prompt: string, params: StateMap, settings: map<string, string>)

  class PMLBuilder {
    const hpml: string
    const systemTags: seq<string>
    var root: seq<Node>
    var params: seq<Json>
    var settings: map<string, string>
    var plugins: seq<PmlFunctionsPlugin>

    /** `parse` stands for the HTML parser (BeautifulSoup with lxml). */
    constructor (pml: string, parse: string -> seq<Node>)
      ensures hpml == pml && root == parse(pml) && systemTags == SYSTEM_TAGS
      ensures params == [] && settings == map[] && plugins == []
    {
      hpml := pml;
      root := parse(pml);
      systemTags := SYSTEM_TAGS;
      params := [];
      settings := map[];
      plugins := [];
    }

    method SetParams(newParams: Option<seq<Json>>)
      modifies this
      ensures params == (if newParams.Some? then newParams.value else [])
      ensures root == old(root) && settings == old(settings) && plugins == old(plugins)
    {
      params := if newParams.Some? then newParams.value else [];
    }

    method RegisterPlugin(plugin: PmlFunctionsPlugin)
      modifies this
      ensures plugins == old(plugins) + [plugin]
      ensures root == old(root) && settings == old(settings) && params == old(params)
    {
      plugins := plugins + [plugin];
    }

    /** The first `settings` element's attributes become the settings; without one they stay as they were. */
    method LoadSettings()
      modifies this
      ensures FirstSettings(root).Some? ==> settings == FirstSettings(root).value
      ensures FirstSettings(root).None? ==> settings == old(settings)
      ensures root == old(root) && plugins == old(plugins) && params == old(params)
    {
      var elements := FindAll(root, "settings");
      if elements != [] {
        settings := elements[0].attrs;
      }
    }

    method RemoveSystemTags()
      modifies this
      ensures root == RemoveAll(old(root), systemTags)
      ensures settings == old(settings) && plugins == old(plugins) && params == old(params)
    {
      var i := 0;
      while i < |systemTags|
        invariant 0 <= i <= |systemTags|
        invariant root == RemoveAll(old(root), systemTags[..i])
        invariant settings == old(settings) && plugins == old(plugins) && params == old(params)
      {
        assert systemTags[..i + 1][..i] == systemTags[..i];
        root := RemoveElements(root, systemTags[i]);
        i := i + 1;
      }
      assert systemTags[..i] == systemTags;
    }

    method RemoveCommentNodes()
      modifies this
      ensures root == RemoveComments(old(root))
      ensures settings == old(settings) && plugins == old(plugins) && params == old(params)
    {
      root := RemoveComments(root);
    }

    /** One plugin's `process` on each of `elements`, in order: only that plugin's list changes. */
    method ProcessElements(plugin: PmlFunctionsPlugin, elements: seq<Node>) returns (results: seq<Option<string>>)
      modifies plugin
      ensures results == Results(plugin.callbackSet, elements)
      ensures plugin.callbackSet ==> plugin.functions == old(plugin.functions) + Collected(elements)
      ensures !plugin.callbackSet ==> plugin.functions == old(plugin.functions)
    {
      results := [];
      var j := 0;
      while j < |elements|
        invariant 0 <= j <= |elements|
        invariant results == Results(plugin.callbackSet, elements[..j])
        invariant plugin.callbackSet ==> plugin.functions == old(plugin.functions) + Collected(elements[..j])
        invariant !plugin.callbackSet ==> plugin.functions == old(plugin.functions)
      {
        var res := plugin.Process(elements[j]);
        assert elements[..j + 1][..j] == elements[..j];
        CollectedPrefix(elements, j);
        ResultsPrefix(plugin.callbackSet, elements, j);
        ConcatAssoc(old(plugin.functions), Collected(elements[..j]),
                    if SchemaOf(elements[j]).Some? then [SchemaOf(elements[j]).value] else []);
        results := results + [res];
        j := j + 1;
      }
      assert elements[..j] == elements;
    }

    /** One plugin's pass over the current document. */
    method RunPass(plugin: PmlFunctionsPlugin)
      requires plugin in plugins
      modifies this, plugin
      ensures plugins == old(plugins) && settings == old(settings) && params == old(params)
      ensures root == PluginPass(old(root), plugin)
      ensures CallbackLists(plugins) == Bump(old(CallbackLists(plugins)), plugins, plugin, Contribution(plugin, old(root), plugin))
    {
      ghost var lists := CallbackLists(plugins);
      var results := ProcessElements(plugin, FindAll(root, plugin.elementName));
      root := Substitute(root, plugin.elementName, results);
      ghost var bumped := Bump(lists, plugins, plugin, Contribution(plugin, old(root), plugin));
      forall i | 0 <= i < |plugins|
        ensures CallbackLists(plugins)[i] == bumped[i]
      {
        if plugins[i] != plugin {
          assert plugins[i].functions == lists[i];
        }
      }
    }

    /**
     * Each plugin, in registration order, processes every element it
     * finds (nested ones too) and the outermost ones are replaced by what
     * it returned.
     */
    method ProcessPlugins()
      modifies this, plugins
      ensures plugins == old(plugins) && settings == old(settings) && params == old(params)
      ensures root == AfterPlugins(old(root), plugins)
      ensures CallbackLists(plugins) == Expected(old(CallbackLists(plugins)), old(root), plugins, |plugins|)
    {
      var k := 0;
      assert plugins[..0] == [];
      forall i | 0 <= i < |plugins|
        ensures Expected(CallbackLists(plugins), root, plugins, 0)[i] == CallbackLists(plugins)[i]
      {
        assert CollectedBy(plugins[i], root, []) == [];
      }
      assert CallbackLists(plugins) == Expected(CallbackLists(plugins), root, plugins, 0);
      while k < |plugins|
        invariant 0 <= k <= |plugins|
        invariant plugins == old(plugins) && settings == old(settings) && params == old(params)
        invariant root == AfterPlugins(old(root), plugins[..k])
        invariant CallbackLists(plugins) == Expected(old(CallbackLists(plugins)), old(root), plugins, k)
      {
        PassStep(old(root), plugins, k);
        ExpectedStep(old(CallbackLists(plugins)), old(root), plugins, k);
        RunPass(plugins[k]);
        k := k + 1;
      }
      assert plugins[..k] == plugins;
    }

    method Compile() returns (r: CompileResult)
      modifies this, plugins
      requires systemTags == SYSTEM_TAGS
      ensures plugins == old(plugins) && params == old(params)
      ensures FirstSettings(old(root)).Some? ==> settings == FirstSettings(old(root)).value
      ensures FirstSettings(old(root)).None? ==> settings == old(settings)
      ensures root == AfterPlugins(Cleaned(old(root)), plugins)
      ensures r == Compiled(PrepareText(GetText(root)), map[], settings)
      ensures CallbackLists(plugins) == Expected(old(CallbackLists(plugins)), Cleaned(old(root)), plugins, |plugins|)
    {
      LoadSettings();
      RemoveSystemTags();
      RemoveCommentNodes();
      ProcessPlugins();
      var text := GetText(root);
      r := Compiled(PrepareText(text), map[], settings);
    }
  }

  lemma PassStep(ns: seq<Node>, plugins: seq<PmlFunctionsPlugin>, k: nat)
    requires k < |plugins|
    ensures plugins[..k + 1][..k] == plugins[..k] && plugins[..k + 1][k] == plugins[k]
    ensures AfterPlugins(ns, plugins[..k + 1]) == PluginPass(AfterPlugins(ns, plugins[..k]), plugins[k])
  {
    assert plugins[..k + 1][..k] == plugins[..k];
  }

  lemma CollectedStep(q: PmlFunctionsPlugin, ns: seq<Node>, plugins: seq<PmlFunctionsPlugin>, k: nat)
    requires k < |plugins|
    ensures CollectedBy(q, ns, plugins[..k + 1])
         == CollectedBy(q, ns, plugins[..k]) + Contribution(q, AfterPlugins(ns, plugins[..k]), plugins[k])
  {
    assert plugins[..k + 1][..k] == plugins[..k];
  }

  lemma ExpectedStep(start: seq<seq<FunctionSchema>>, ns: seq<Node>, plugins: seq<PmlFunctionsPlugin>, k: nat)
    requires |start| == |plugins| && k < |plugins|
    ensures Bump(Expected(start, ns, plugins, k), plugins, plugins[k],
                 Contribution(plugins[k], AfterPlugins(ns, plugins[..k]), plugins[k]))
         == Expected(start, ns, plugins, k + 1)
  {
    forall i | 0 <= i < |plugins|
      ensures Bump(Expected(start, ns, plugins, k), plugins, plugins[k],
                   Contribution(plugins[k], AfterPlugins(ns, plugins[..k]), plugins[k]))[i]
           == Expected(start, ns, plugins, k + 1)[i]
    {
      ExpectedStepAt(start, ns, plugins, k, i);
    }
  }

  lemma ExpectedStepAt(start: seq<seq<FunctionSchema>>, ns: seq<Node>, plugins: seq<PmlFunctionsPlugin>, k: nat, i: nat)
    requires |start| == |plugins| && k < |plugins| && i < |plugins|
    ensures Bump(Expected(start, ns, plugins, k), plugins, plugins[k],
                 Contribution(plugins[k], AfterPlugins(ns, plugins[..k]), plugins[k]))[i]
         == Expected(start, ns, plugins, k + 1)[i]
  {
    var before := AfterPlugins(ns, plugins[..k]);
    var c := Contribution(plugins[i], before, plugins[k]);
    var a := CollectedBy(plugins[i], ns, plugins[..k]);
    CollectedStep(plugins[i], ns, plugins, k);
    assert Expected(start, ns, plugins, k + 1)[i] == start[i] + (a + c);
    assert start[i] + (a + c) == (start[i] + a) + c;
    if plugins[i] != plugins[k] {
      assert c == [];
    }
  }

  /** Removal distributes over the parts of a document. */
  lemma {:induction false} RemoveElementsAppend(xs: seq<Node>, ys: seq<Node>, name: string)
    ensures RemoveElements(xs + ys, name) == RemoveElements(xs, name) + RemoveElements(ys, name)
    decreases xs
  {
    if xs == [] {
      assert xs + ys == ys;
    } else {
      assert (xs + ys)[0] == xs[0];
      assert (xs + ys)[1..] == xs[1..] + ys;
      RemoveElementsAppend(xs[1..], ys, name);
    }
  }

  lemma {:induction false} RemoveAllAppend(xs: seq<Node>, ys: seq<Node>, tags: seq<string>)
    ensures RemoveAll(xs + ys, tags) == RemoveAll(xs, tags) + RemoveAll(ys, tags)
  {
    if tags != [] {
      var init := tags[..|tags| - 1];
      RemoveAllAppend(xs, ys, init);
      RemoveElementsAppend(RemoveAll(xs, init), RemoveAll(ys, init), tags[|tags| - 1]);
    }
  }

  /** An element keeps its name until its own tag comes up, then it leaves with everything inside it. */
  lemma {:induction false} RemoveAllSingle(e: Node, tags: seq<string>)
    requires e.Element?
    ensures e.name in tags ==> RemoveAll([e], tags) == []
    ensures e.name !in tags ==>
      |RemoveAll([e], tags)| == 1 && RemoveAll([e], tags)[0].Element? && RemoveAll([e], tags)[0].name == e.name
  {
    if tags != [] {
      var init := tags[..|tags| - 1];
      var last := tags[|tags| - 1];
      RemoveAllSingle(e, init);
      if e.name in init {
        assert RemoveAll([e], tags) == RemoveElements([], last);
      } else {
        var x := RemoveAll([e], init);
        assert x == [x[0]];
        assert x[1..] == [];
        assert RemoveElements(x[1..], last) == [];
      }
    }
  }

  /** A system-tag element at the top level, whatever it holds, leaves no trace in the cleaned document. */
  lemma SystemTagIsIgnored(before: seq<Node>, tag: Node, after: seq<Node>)
    requires tag.Element? && tag.name in SYSTEM_TAGS
    ensures Cleaned(before + [tag] + after) == Cleaned(before + after)
  {
    RemoveAllAppend(before + [tag], after, SYSTEM_TAGS);
    RemoveAllAppend(before, [tag], SYSTEM_TAGS);
    RemoveAllAppend(before, after, SYSTEM_TAGS);
    RemoveAllSingle(tag, SYSTEM_TAGS);
    assert RemoveAll(before, SYSTEM_TAGS) + [] == RemoveAll(before, SYSTEM_TAGS);
  }

  /** Decomposing one tag does not bring back another one. */
  lemma {:induction false} RemoveKeepsAbsent(ns: seq<Node>, gone: string, name: string)
    requires FindAll(ns, gone) == []
    ensures FindAll(RemoveElements(ns, name), gone) == []
    decreases ns
  {
    if ns != [] {
      RemoveKeepsAbsent(ns[1..], gone, name);
      match ns[0]
      case Element(nm, a, cs) =>
        RemoveKeepsAbsent(cs, gone, name);
      case _ =>
    }
  }

  /** After the system-tag pass, no system-tag element is left in the document. */
  lemma {:induction false} SystemTagsAreGone(ns: seq<Node>, tags: seq<string>, i: nat)
    requires i < |tags|
    ensures FindAll(RemoveAll(ns, tags), tags[i]) == []
  {
    var init := tags[..|tags| - 1];
    var last := tags[|tags| - 1];
    if i == |tags| - 1 {
      RemovedElementsAreGone(RemoveAll(ns, init), last);
    } else {
      assert init[i] == tags[i];
      SystemTagsAreGone(ns, init, i);
      RemoveKeepsAbsent(RemoveAll(ns, init), tags[i], last);
    }
  }

  /** With one registered plugin, its callback receives the schemas of the plugin's elements in document order. */
  lemma SinglePluginCollects(q: PmlFunctionsPlugin, ns: seq<Node>, start: seq<seq<FunctionSchema>>)
    requires |start| == 1
    ensures CollectedBy(q, ns, [q]) == (if q.callbackSet then Collected(FindAll(ns, q.elementName)) else [])
    ensures AfterPlugins(ns, [q]) == PluginPass(ns, q)
    ensures Expected(start, ns, [q], 1)[0] == start[0] + CollectedBy(q, ns, [q])
  {
    assert [q][..0] == [];
    assert [q][..1] == [q];
  }

  /** A plugin whose every element yields a schema, with a callback, removes all its elements from the text. */
  lemma CollectingPassRemovesElements(ns: seq<Node>, q: PmlFunctionsPlugin)
    requires q.callbackSet
    requires forall i :: 0 <= i < |FindAll(ns, q.elementName)| ==> SchemaOf(FindAll(ns, q.elementName)[i]).Some?
    ensures PluginPass(ns, q) == RemoveElements(ns, q.elementName)
  {
    var found := FindAll(ns, q.elementName);
    assert Results(q.callbackSet, found) == Nones(|found|);
    SubstituteNonesRemoves(ns, q.elementName);
  }
}
