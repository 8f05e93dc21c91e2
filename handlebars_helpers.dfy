// The Handlebars helpers registered with the template renderer. The
// renderer itself (pybars) is not modelled: it is a function parameter of
// the prompt compiler. `options['fn']` and `options['inverse']` are the
// block's two branches, given as functions of the current context.

module HandlebarsHelpers {
  import opened PyValues

  /** The helper names `get_helpers` registers. */
  function HelperNames(): (names: seq<string>)
    ensures |names| == 6
    ensures forall i, j :: 0 <= i < j < |names| ==> names[i] != names[j]
    ensures "if_equals" in names && "if_not_equals" in names && "json" in names
    ensures "json_pretty" in names && "json_pretty_no_escaping" in names && "key_value" in names
  {
    ["if_equals", "if_not_equals", "json", "json_pretty", "json_pretty_no_escaping", "key_value"]
  }

  /** `{{#if_equals a b}}`: the block when the two arguments are `==` in Python, the else branch otherwise. */
  function IfEquals(scope: Json, arg1: Json, arg2: Json, fn: Json -> string, inverse: Json -> string): (r: string)
    ensures PyEq(arg1, arg2) ==> r == fn(scope)
    ensures !PyEq(arg1, arg2) ==> r == inverse(scope)
  {
    if PyEq(arg1, arg2) then fn(scope) else inverse(scope)
  }

  /** `{{#if_not_equals a b}}`. */
  function IfNotEquals(scope: Json, arg1: Json, arg2: Json, fn: Json -> string, inverse: Json -> string): (r: string)
    ensures !PyEq(arg1, arg2) ==> r == fn(scope)
    ensures PyEq(arg1, arg2) ==> r == inverse(scope)
  {
    if !PyEq(arg1, arg2) then fn(scope) else inverse(scope)
  }

  /** The two comparison helpers are one another with the branches swapped. */
  lemma IfNotEqualsSwapsBranches(scope: Json, arg1: Json, arg2: Json, fn: Json -> string, inverse: Json -> string)
    ensures IfNotEquals(scope, arg1, arg2, fn, inverse) == IfEquals(scope, arg1, arg2, inverse, fn)
  {
  }

  /** A value compared with itself always takes the block. */
  lemma SameArgumentsTakeBlock(scope: Json, arg: Json, fn: Json -> string, inverse: Json -> string)
    ensures IfEquals(scope, arg, arg, fn, inverse) == fn(scope)
  {
    PyEqReflexive(arg);
  }

  /** The order of the two arguments does not matter. */
  lemma ArgumentOrderIrrelevant(scope: Json, arg1: Json, arg2: Json, fn: Json -> string, inverse: Json -> string)
    ensures IfEquals(scope, arg1, arg2, fn, inverse) == IfEquals(scope, arg2, arg1, fn, inverse)
  {
    if PyEq(arg1, arg2) {
      PyEqSymmetric(arg1, arg2);
    } else if PyEq(arg2, arg1) {
      PyEqSymmetric(arg2, arg1);
    }
  }

  /** `{{#if_equals flag 1}}` takes the block for a state value of `True`, as Python's `True == 1` does. */
  lemma TrueEqualsOneTakesBlock(scope: Json, fn: Json -> string, inverse: Json -> string)
    ensures IfEquals(scope, JBool(true), JInt(1), fn, inverse) == fn(scope)
    ensures IfNotEquals(scope, JBool(true), JInt(1), fn, inverse) == inverse(scope)
  {
  }

  /** How `json.dumps` is called: compact, or with `indent=2`. */
  datatype Layout = Compact | Indented2

  /** `{{json x}}`. `dumps` is Python's `json.dumps`, not modelled here. */
  function JsonHelper(dumps: (Json, Layout) -> string, context: Json): (r: string)
    ensures r == dumps(context, Compact)
  {
    dumps(context, Compact)
  }

  /** `{{json_pretty x}}`. */
  function JsonPretty(dumps: (Json, Layout) -> string, context: Json): (r: string)
    ensures r == dumps(context, Indented2)
  {
    dumps(context, Indented2)
  }

  /** `{{json_pretty_no_escaping x}}`: despite its name, the same call as `json_pretty`. */
  function JsonPrettyNoEscaping(dumps: (Json, Layout) -> string, context: Json): (r: string)
    ensures r == JsonPretty(dumps, context)
  {
    dumps(context, Indented2)
  }

  /** `str(value)` inside an f-string: a string shows as itself; other values through `repr`. */
  function Show(value: Json, repr: Json -> string): string
  {
    if value.JStr? then value.s else repr(value)
  }

  function Line(key: string, value: Json, repr: Json -> string): string
  {
    key + ": " + Show(value, repr) + "\n"
  }

  /** The text `key_value` produces for dictionary items in their iteration order. */
  function KeyValueText(items: seq<(string, Json)>, repr: Json -> string): string
  {
    if items == [] then "" else KeyValueText(items[..|items| - 1], repr) + Line(items[|items| - 1].0, items[|items| - 1].1, repr)
  }

  /** `{{key_value d}}`: one `key: value` line per item, in order. */
  method KeyValue(scope: Json, items: seq<(string, Json)>, repr: Json -> string) returns (output: string)
    ensures output == KeyValueText(items, repr)
  {
    output := "";
    var i := 0;
    while i < |items|
      invariant 0 <= i <= |items|
      invariant output == KeyValueText(items[..i], repr)
    {
      assert items[..i + 1][..i] == items[..i];
      output := output + Line(items[i].0, items[i].1, repr);
      i := i + 1;
    }
    assert items[..i] == items;
  }

  function CountNewlines(s: string): nat
  {
    if s == [] then 0 else (if s[0] == '\n' then 1 else 0) + CountNewlines(s[1..])
  }

  lemma {:induction false} CountNewlinesAppend(a: string, b: string)
    ensures CountNewlines(a + b) == CountNewlines(a) + CountNewlines(b)
  {
    if a == [] {
      assert a + b == b;
    } else {
      assert (a + b)[1..] == a[1..] + b;
      CountNewlinesAppend(a[1..], b);
    }
  }

  /** Keys and shown values free of newlines give exactly one line per item. */
  lemma {:induction false} KeyValueLines(items: seq<(string, Json)>, repr: Json -> string)
    requires forall i :: 0 <= i < |items| ==> '\n' !in items[i].0 && '\n' !in Show(items[i].1, repr)
    ensures CountNewlines(KeyValueText(items, repr)) == |items|
  {
    if items != [] {
      var last := items[|items| - 1];
      KeyValueLines(items[..|items| - 1], repr);
      CountNewlinesAppend(KeyValueText(items[..|items| - 1], repr), Line(last.0, last.1, repr));
      NoNewlines(last.0);
      NoNewlines(Show(last.1, repr));
      CountNewlinesAppend(last.0, ": ");
      CountNewlinesAppend(last.0 + ": ", Show(last.1, repr));
      CountNewlinesAppend(last.0 + ": " + Show(last.1, repr), "\n");
    }
  }

  lemma {:induction false} NoNewlines(s: string)
    requires '\n' !in s
    ensures CountNewlines(s) == 0
  {
    if s != [] {
      assert '\n' !in s[1..];
      NoNewlines(s[1..]);
    }
  }

  /** The rendered text of the items, item by item: appending an item appends its line. */
  lemma KeyValueOfPrefix(items: seq<(string, Json)>, key: string, value: Json, repr: Json -> string)
    ensures KeyValueText(items + [(key, value)], repr) == KeyValueText(items, repr) + key + ": " + Show(value, repr) + "\n"
  {
    assert (items + [(key, value)])[..|items|] == items;
  }
}
