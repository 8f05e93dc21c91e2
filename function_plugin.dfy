// The `<function>` plugin: it turns each function element of a PML
// document into an OpenAI function schema and hands it to its callback.
// The only callback in the system appends the schema to a list (and returns
// None); the plugin keeps that list as its `functions` field.

module FunctionPlugin {
  import opened PyValues
  import opened PyStrings
  import opened Markup

  datatype Parameters = Parameters(kind: string, properties: map<string, StateMap>, required: seq<string>)

  datatype FunctionSchema = FunctionSchema(name: string, description: string, parameters: Parameters)

  /** The `param` children of the first `parameters` child of a function element. */
  function ParamsOf(element: Node): seq<Node>
  {
    var groups := ChildElements(ChildrenOf(element), "parameters");
    if groups == [] then [] else ChildElements(ChildrenOf(groups[0]), "param")
  }

  function NameOf(param: Node): string
    requires "name" in AttrsOf(param)
  {
    AttrsOf(param)["name"]
  }

  /** `attr.get('required', '').lower() == 'true'` */
  predicate IsRequired(param: Node)
  {
    IsTrueWord(Get(AttrsOf(param), "required", ""))
  }

  predicate AllNamed(params: seq<Node>)
  {
    forall i :: 0 <= i < |params| ==> "name" in AttrsOf(params[i])
  }

  function EnumValues(text: string): (r: seq<Json>)
    ensures |r| == |Split(text, ',')|
    ensures forall i :: 0 <= i < |r| ==> r[i] == JStr(Split(text, ',')[i])
  {
    var parts := Split(text, ',');
    seq(|parts|, i requires 0 <= i < |parts| => JStr(parts[i]))
  }

  /** The property a `param` element describes: its attributes, less a true `required`, with `enum` split on commas. */
  function PropertyOf(param: Node): StateMap
  {
    var attrs := AttrsOf(param);
    var copy := map k | k in attrs :: JStr(attrs[k]);
    var kept := if IsRequired(param) then copy - {"required"} else copy;
    if "enum" in attrs then kept["enum" := JList(EnumValues(attrs["enum"]))] else kept
  }

  /** The names of the required params, in document order. */
  function RequiredNames(params: seq<Node>): seq<string>
    requires AllNamed(params)
  {
    if params == [] then []
    else
      var last := params[|params| - 1];
      RequiredNames(params[..|params| - 1]) + (if IsRequired(last) then [NameOf(last)] else [])
  }

  /** One property per param name; a later param with the same name replaces an earlier one. */
  function PropertiesOf(params: seq<Node>): map<string, StateMap>
    requires AllNamed(params)
  {
    if params == [] then map[]
    else
      var last := params[|params| - 1];
      PropertiesOf(params[..|params| - 1])[NameOf(last) := PropertyOf(last)]
  }

  /** The schema of a function element; None when some param has no name (the KeyError the plugin swallows). */
  function SchemaOf(element: Node): Option<FunctionSchema>
  {
    var params := ParamsOf(element);
    if AllNamed(params) then
      Some(FunctionSchema(Get(AttrsOf(element), "name", ""), Get(AttrsOf(element), "description", ""),
                          Parameters("object", PropertiesOf(params), RequiredNames(params))))
    else None
  }

  /** What `process` returns: the callback's None when a schema was handed over, '' otherwise. */
  function ResultFor(callbackSet: bool, element: Node): Option<string>
  {
    if callbackSet && SchemaOf(element).Some? then None else Some("")
  }

  /** The schemas a callback receives when the plugin processes `elements` in order. */
  function Collected(elements: seq<Node>): seq<FunctionSchema>
  {
    if elements == [] then []
    else
      var last := elements[|elements| - 1];
      Collected(elements[..|elements| - 1]) + (if SchemaOf(last).Some? then [SchemaOf(last).value] else [])
  }

  class PmlFunctionsPlugin {
    const name: string
    const description: string
    const elementName: string
    const callbackSet: bool
    /** The list the collecting callback appends each schema to. */
    var functions: seq<FunctionSchema>

    constructor (callbackSet: bool)
      ensures name == "Function" && description == "Function Plugin Implementation"
      ensures elementName == "function" && this.callbackSet == callbackSet && functions == []
    {
      name := "Function";
      description := "Function Plugin Implementation";
      elementName := "function";
      this.callbackSet := callbackSet;
      functions := [];
    }

    method Process(element: Node) returns (r: Option<string>)
      modifies this
      ensures r == ResultFor(callbackSet, element)
      ensures callbackSet && SchemaOf(element).Some? ==> functions == old(functions) + [SchemaOf(element).value]
      ensures !(callbackSet && SchemaOf(element).Some?) ==> functions == old(functions)
    {
      var attrs := AttrsOf(element);
      var fname := Get(attrs, "name", "");
      var fdescription := Get(attrs, "description", "");
      var required: seq<string> := [];
      var properties: map<string, StateMap> := map[];
      var ok := true;
      var params := ParamsOf(element);
      var i := 0;
      while i < |params| && ok
        invariant 0 <= i <= |params|
        invariant ok ==> AllNamed(params[..i]) && required == RequiredNames(params[..i]) && properties == PropertiesOf(params[..i])
        invariant !ok ==> !AllNamed(params)
        invariant functions == old(functions)
        decreases |params| - i, ok
      {
        var param := params[i];
        if "name" !in AttrsOf(param) {
          ok := false;
        } else {
          PrefixStep(params, i);
          if IsRequired(param) {
            required := required + [NameOf(param)];
          }
          properties := properties[NameOf(param) := PropertyOf(param)];
          i := i + 1;
        }
      }
      if ok {
        assert params[..i] == params;
        assert SchemaOf(element) == Some(FunctionSchema(fname, fdescription, Parameters("object", properties, required)));
        if callbackSet {
          functions := functions + [FunctionSchema(fname, fdescription, Parameters("object", properties, required))];
          r := None;
        } else {
          r := Some("");
        }
      } else {
        r := Some("");
      }
    }
  }

  lemma PrefixStep(params: seq<Node>, i: nat)
    requires i < |params| && AllNamed(params[..i]) && "name" in AttrsOf(params[i])
    ensures AllNamed(params[..i + 1])
    ensures RequiredNames(params[..i + 1])
         == RequiredNames(params[..i]) + (if IsRequired(params[i]) then [NameOf(params[i])] else [])
    ensures PropertiesOf(params[..i + 1]) == PropertiesOf(params[..i])[NameOf(params[i]) := PropertyOf(params[i])]
  {
    assert params[..i + 1][..i] == params[..i];
    assert params[..i + 1][i] == params[i];
  }

  /** A name is in `required` exactly when some param with that name is marked required. */
  lemma {:induction false} RequiredExactly(params: seq<Node>, n: string)
    requires AllNamed(params)
    ensures n in RequiredNames(params) <==> exists i :: 0 <= i < |params| && IsRequired(params[i]) && NameOf(params[i]) == n
  {
    if params != [] {
      var k := |params| - 1;
      var init := params[..k];
      assert AllNamed(init);
      RequiredExactly(init, n);
      if n in RequiredNames(params) {
        if n in RequiredNames(init) {
          var i :| 0 <= i < |init| && IsRequired(init[i]) && NameOf(init[i]) == n;
          assert params[i] == init[i];
        } else {
          assert IsRequired(params[k]) && NameOf(params[k]) == n;
        }
      }
      if exists i :: 0 <= i < |params| && IsRequired(params[i]) && NameOf(params[i]) == n {
        var i :| 0 <= i < |params| && IsRequired(params[i]) && NameOf(params[i]) == n;
        if i < k {
          assert init[i] == params[i];
        }
      }
    }
  }

  /** The property names are exactly the param names. */
  lemma {:induction false} PropertyNames(params: seq<Node>)
    requires AllNamed(params)
    ensures PropertiesOf(params).Keys == set i | 0 <= i < |params| :: NameOf(params[i])
  {
    if params != [] {
      var k := |params| - 1;
      var init := params[..k];
      assert AllNamed(init);
      PropertyNames(init);
      assert (set i | 0 <= i < |params| :: NameOf(params[i]))
          == (set i | 0 <= i < |init| :: NameOf(init[i])) + {NameOf(params[k])} by {
        forall i | 0 <= i < k
          ensures params[i] == init[i]
        {
        }
      }
    }
  }

  /** The property under a name is built from the LAST param with that name. */
  lemma {:induction false} PropertyFromLastParam(params: seq<Node>, i: nat)
    requires AllNamed(params) && i < |params|
    requires forall j :: i < j < |params| ==> NameOf(params[j]) != NameOf(params[i])
    ensures NameOf(params[i]) in PropertiesOf(params)
    ensures PropertiesOf(params)[NameOf(params[i])] == PropertyOf(params[i])
  {
    var k := |params| - 1;
    if i < k {
      var init := params[..k];
      assert AllNamed(init);
      assert init[i] == params[i];
      forall j | i < j < |init|
        ensures NameOf(init[j]) != NameOf(init[i])
      {
        assert init[j] == params[j];
      }
      PropertyFromLastParam(init, i);
    }
  }

  /**
   * A property keeps every attribute of its param as text, except that a
   * true `required` is dropped and `enum` becomes the list of its
   * comma-separated values (which join back to the attribute).
   */
  lemma PropertyAttributes(param: Node, key: string)
    ensures key == "required" ==>
      (key in PropertyOf(param) <==> key in AttrsOf(param) && !IsRequired(param))
    ensures key == "enum" && key in AttrsOf(param) ==>
      PropertyOf(param)[key] == JList(EnumValues(AttrsOf(param)[key]))
    ensures key != "required" && key != "enum" ==>
      (key in PropertyOf(param) <==> key in AttrsOf(param))
    ensures key != "enum" && key in PropertyOf(param) ==> PropertyOf(param)[key] == JStr(AttrsOf(param)[key])
  {
  }

  /** The text of each `enum` value, joined back with commas, is the attribute. */
  lemma EnumRoundTrip(text: string)
    ensures Join(seq(|EnumValues(text)|, i requires 0 <= i < |EnumValues(text)| => EnumValues(text)[i].s), ',') == text
  {
    var parts := Split(text, ',');
    assert seq(|EnumValues(text)|, i requires 0 <= i < |EnumValues(text)| => EnumValues(text)[i].s) == parts;
    JoinSplit(text, ',');
  }

  /** A bare `required` attribute parses as "" and does not make the param required. */
  lemma BareRequiredIsNotRequired(param: Node)
    requires "required" in AttrsOf(param) && AttrsOf(param)["required"] == ""
    ensures !IsRequired(param)
    ensures PropertyOf(param)["required"] == JStr("")
  {
  }

  /** The callback receives one schema per element that has one, in document order. */
  lemma {:induction false} CollectedOrder(elements: seq<Node>, more: seq<Node>)
    ensures Collected(elements + more) == Collected(elements) + Collected(more)
    decreases |more|
  {
    if more == [] {
      assert elements + more == elements;
    } else {
      var k := |more| - 1;
      assert (elements + more)[..|elements + more| - 1] == elements + more[..k];
      CollectedOrder(elements, more[..k]);
    }
  }

  /** Collecting one more element appends its schema, if it has one. */
  lemma CollectedPrefix(elements: seq<Node>, j: nat)
    requires j < |elements|
    ensures Collected(elements[..j + 1])
         == Collected(elements[..j]) + (if SchemaOf(elements[j]).Some? then [SchemaOf(elements[j]).value] else [])
  {
    assert elements[..j + 1][..j] == elements[..j];
  }
}
