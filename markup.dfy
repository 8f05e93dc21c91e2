// The parsed PML document: a forest of elements, text and comments in
// document order, and the tree operations the builder applies to it
// (`find_all`, `decompose`, `extract`, `replace_with`, `get_text`).

module Markup {
  import opened PyValues

  datatype Node =
    | Element(name: string, attrs: map<string, string>, children: seq<Node>)
    | Text(text: string)
    | Comment(text: string)

  function AttrsOf(n: Node): map<string, string>
  {
    if n.Element? then n.attrs else map[]
  }

  function ChildrenOf(n: Node): seq<Node>
  {
    if n.Element? then n.children else []
  }

  /**
   * `find_all(name)`: every element named `name`, nested ones included, in
   * document (pre-)order. FindAllAppend states how it splits over the
   * parts of a document.
   */
  function FindAll(ns: seq<Node>, name: string): (r: seq<Node>)
    ensures forall i :: 0 <= i < |r| ==> r[i].Element? && r[i].name == name
    decreases ns
  {
    if ns == [] then []
    else match ns[0]
      case Element(nm, _, cs) => (if nm == name then [ns[0]] else []) + FindAll(cs, name) + FindAll(ns[1..], name)
      case _ => FindAll(ns[1..], name)
  }

  /** The direct children named `name` (`[e for e in children if e.name == name]`). */
  function ChildElements(ns: seq<Node>, name: string): (r: seq<Node>)
    ensures |r| <= |ns|
    ensures forall i :: 0 <= i < |r| ==> r[i].Element? && r[i].name == name && r[i] in ns
  {
    if ns == [] then []
    else (if ns[0].Element? && ns[0].name == name then [ns[0]] else []) + ChildElements(ns[1..], name)
  }

  /** Every element named `name` decomposed: it and all it contains leave the tree. */
  function RemoveElements(ns: seq<Node>, name: string): seq<Node>
    decreases ns
  {
    if ns == [] then []
    else match ns[0]
      case Element(nm, a, cs) =>
        if nm == name then RemoveElements(ns[1..], name)
        else [Element(nm, a, RemoveElements(cs, name))] + RemoveElements(ns[1..], name)
      case _ => [ns[0]] + RemoveElements(ns[1..], name)
  }

  /** Every comment node extracted, at any depth. */
  function RemoveComments(ns: seq<Node>): seq<Node>
    decreases ns
  {
    if ns == [] then []
    else match ns[0]
      case Element(nm, a, cs) => [Element(nm, a, RemoveComments(cs))] + RemoveComments(ns[1..])
      case Text(_) => [ns[0]] + RemoveComments(ns[1..])
      case Comment(_) => RemoveComments(ns[1..])
  }

  predicate NoComments(ns: seq<Node>)
    decreases ns
  {
    if ns == [] then true
    else match ns[0]
      case Element(_, _, cs) => NoComments(cs) && NoComments(ns[1..])
      case Text(_) => NoComments(ns[1..])
      case Comment(_) => false
  }

  /**
   * `get_text()`: the text nodes in document order, concatenated. Comment
   * nodes are not text and contribute nothing, and neither does an empty
   * element such as `<br/>`.
   */
  function GetText(ns: seq<Node>): string
    decreases ns
  {
    if ns == [] then ""
    else match ns[0]
      case Element(_, _, cs) => GetText(cs) + GetText(ns[1..])
      case Text(t) => t + GetText(ns[1..])
      case Comment(_) => GetText(ns[1..])
  }

  /** What `replace_with(result)` leaves in the tree: the result as text, or nothing for None. */
  function Replacement(result: Option<string>): seq<Node>
  {
    if result.Some? then [Text(result.value)] else []
  }

  /**
   * Every element named `name` replaced by its result, `results` being
   * aligned with `FindAll(ns, name)`. An outermost match is replaced by
   * its result; the matches nested inside it leave the tree with it, so
   * their results are skipped.
   */
  function Substitute(ns: seq<Node>, name: string, results: seq<Option<string>>): seq<Node>
    requires |results| == |FindAll(ns, name)|
    decreases ns
  {
    if ns == [] then []
    else match ns[0]
      case Element(nm, a, cs) =>
        var k := |FindAll(cs, name)|;
        if nm == name then
          Replacement(results[0]) + Substitute(ns[1..], name, results[1 + k..])
        else
          [Element(nm, a, Substitute(cs, name, results[..k]))] + Substitute(ns[1..], name, results[k..])
      case _ => [ns[0]] + Substitute(ns[1..], name, results)
  }

  function Nones(n: nat): (r: seq<Option<string>>)
    ensures |r| == n && forall i :: 0 <= i < n ==> r[i].None?
  {
    if n == 0 then [] else [None] + Nones(n - 1)
  }

  /** After decomposing every `name` element, `find_all(name)` finds none. */
  lemma {:induction false} RemovedElementsAreGone(ns: seq<Node>, name: string)
    ensures FindAll(RemoveElements(ns, name), name) == []
    decreases ns
  {
    if ns != [] {
      RemovedElementsAreGone(ns[1..], name);
      match ns[0]
      case Element(nm, a, cs) =>
        if nm != name {
          RemovedElementsAreGone(cs, name);
        }
      case _ =>
    }
  }

  /** A document without `name` elements is left as it is. */
  lemma {:induction false} RemoveAbsentElements(ns: seq<Node>, name: string)
    requires FindAll(ns, name) == []
    ensures RemoveElements(ns, name) == ns
    decreases ns
  {
    if ns != [] {
      RemoveAbsentElements(ns[1..], name);
      match ns[0]
      case Element(nm, a, cs) =>
        RemoveAbsentElements(cs, name);
      case _ =>
    }
  }

  /** After extracting comments none is left, and the text is what it was. */
  lemma {:induction false} RemoveCommentsKeepsText(ns: seq<Node>)
    ensures NoComments(RemoveComments(ns))
    ensures GetText(RemoveComments(ns)) == GetText(ns)
    decreases ns
  {
    if ns != [] {
      RemoveCommentsKeepsText(ns[1..]);
      match ns[0]
      case Element(nm, a, cs) =>
        RemoveCommentsKeepsText(cs);
      case _ =>
    }
  }

  /** Decomposing elements commutes with extracting comments. */
  lemma {:induction false} RemoveElementsPreservesNoComments(ns: seq<Node>, name: string)
    requires NoComments(ns)
    ensures NoComments(RemoveElements(ns, name))
    decreases ns
  {
    if ns != [] {
      RemoveElementsPreservesNoComments(ns[1..], name);
      match ns[0]
      case Element(nm, a, cs) =>
        RemoveElementsPreservesNoComments(cs, name);
      case _ =>
    }
  }

  /** Replacing every match by None is decomposing them. */
  lemma {:induction false} SubstituteNonesRemoves(ns: seq<Node>, name: string)
    ensures Substitute(ns, name, Nones(|FindAll(ns, name)|)) == RemoveElements(ns, name)
    decreases ns
  {
    if ns != [] {
      var rs := Nones(|FindAll(ns, name)|);
      match ns[0]
      case Element(nm, a, cs) =>
        var k := |FindAll(cs, name)|;
        if nm == name {
          assert rs[1 + k..] == Nones(|FindAll(ns[1..], name)|);
          SubstituteNonesRemoves(ns[1..], name);
        } else {
          assert rs[..k] == Nones(k);
          assert rs[k..] == Nones(|FindAll(ns[1..], name)|);
          SubstituteNonesRemoves(cs, name);
          SubstituteNonesRemoves(ns[1..], name);
        }
      case _ =>
        SubstituteNonesRemoves(ns[1..], name);
    }
  }

  /** Replacing matches by their results leaves no `name` element in the tree. */
  lemma {:induction false} SubstitutedElementsAreGone(ns: seq<Node>, name: string, results: seq<Option<string>>)
    requires |results| == |FindAll(ns, name)|
    ensures FindAll(Substitute(ns, name, results), name) == []
    decreases ns
  {
    if ns != [] {
      match ns[0]
      case Element(nm, a, cs) =>
        var k := |FindAll(cs, name)|;
        if nm == name {
          SubstitutedElementsAreGone(ns[1..], name, results[1 + k..]);
          assert FindAll(Replacement(results[0]), name) == [];
          FindAllAppend(Replacement(results[0]), Substitute(ns[1..], name, results[1 + k..]), name);
        } else {
          SubstitutedElementsAreGone(cs, name, results[..k]);
          SubstitutedElementsAreGone(ns[1..], name, results[k..]);
        }
      case _ =>
        SubstitutedElementsAreGone(ns[1..], name, results);
    }
  }

  lemma {:induction false} FindAllAppend(xs: seq<Node>, ys: seq<Node>, name: string)
    ensures FindAll(xs + ys, name) == FindAll(xs, name) + FindAll(ys, name)
    decreases xs
  {
    if xs == [] {
      assert xs + ys == ys;
    } else {
      assert (xs + ys)[0] == xs[0];
      assert (xs + ys)[1..] == xs[1..] + ys;
      FindAllAppend(xs[1..], ys, name);
    }
  }

  /** Substituting in a document without matches changes nothing. */
  lemma {:induction false} SubstituteAbsent(ns: seq<Node>, name: string)
    requires FindAll(ns, name) == []
    ensures Substitute(ns, name, []) == ns
    decreases ns
  {
    if ns != [] {
      SubstituteAbsent(ns[1..], name);
      match ns[0]
      case Element(nm, a, cs) =>
        SubstituteAbsent(cs, name);
      case _ =>
    }
  }

  /** Extracting comments does not bring back an element. */
  lemma {:induction false} RemoveCommentsKeepsAbsent(ns: seq<Node>, name: string)
    requires FindAll(ns, name) == []
    ensures FindAll(RemoveComments(ns), name) == []
    decreases ns
  {
    if ns != [] {
      RemoveCommentsKeepsAbsent(ns[1..], name);
      match ns[0]
      case Element(nm, a, cs) =>
        RemoveCommentsKeepsAbsent(cs, name);
      case _ =>
    }
  }

  /** Comment extraction distributes over the parts of a document. */
  lemma {:induction false} RemoveCommentsAppend(xs: seq<Node>, ys: seq<Node>)
    ensures RemoveComments(xs + ys) == RemoveComments(xs) + RemoveComments(ys)
    decreases xs
  {
    if xs == [] {
      assert xs + ys == ys;
    } else {
      assert (xs + ys)[0] == xs[0];
      assert (xs + ys)[1..] == xs[1..] + ys;
      RemoveCommentsAppend(xs[1..], ys);
    }
  }
}
