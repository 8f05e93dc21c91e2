// The text clean-up `prepare_text` applies to the extracted prompt text:
// three regular-expression substitutions, then `strip()`.
//   1. `<!--[\s\S]*?-->` -> ""   (leftmost, shortest, one pass)
//   2. `(\r\n|\r|\n){2,}` -> "$1" (Python's `re.sub` does not expand `$1`:
//      every maximal run of two or more line-break characters, a lone
//      "\r\n" included, becomes the two characters `$1`)
//   3. `<br\s*\/?>` -> "\n"       (lower-case `br` only)

module PmlText {
  import opened PyValues
  import opened PyStrings

  predicate At(s: string, i: nat, pat: string)
  {
    i + |pat| <= |s| && s[i..i + |pat|] == pat
  }

  /** The first `-->` that starts at or after `from`. */
  function CloseAt(s: string, from: nat): (r: Option<nat>)
    ensures r.Some? ==> from <= r.value && At(s, r.value, "-->")
    ensures r.Some? ==> forall j :: from <= j < r.value ==> !At(s, j, "-->")
    ensures r.None? ==> forall j :: from <= j ==> !At(s, j, "-->")
    decreases |s| - from
  {
    if from + 3 > |s| then None
    else if At(s, from, "-->") then Some(from)
    else CloseAt(s, from + 1)
  }

  /**
   * `re.sub(r'<!--[\s\S]*?-->', '', s)`: scanning left to right, an opening
   * `<!--` with a `-->` after it is removed up to the first such `-->`; an
   * unclosed `<!--` stays. ClosedCommentRemoved and CommentAtStart state
   * this removal; NoMarkupUnchanged states that text without `<` is kept.
   */
  function StripHtmlComments(s: string): (r: string)
    ensures |r| <= |s|
    decreases |s|
  {
    if s == [] then []
    else if At(s, 0, "<!--") && CloseAt(s, 4).Some? then StripHtmlComments(s[CloseAt(s, 4).value + 3..])
    else [s[0]] + StripHtmlComments(s[1..])
  }

  predicate IsBreak(c: char)
  {
    c == '\r' || c == '\n'
  }

  /** The number of line-break characters `s` starts with. */
  function BreakRun(s: string): (n: nat)
    ensures n <= |s|
    ensures forall i :: 0 <= i < n ==> IsBreak(s[i])
    ensures n < |s| ==> !IsBreak(s[n])
  {
    if s == [] || !IsBreak(s[0]) then 0 else 1 + BreakRun(s[1..])
  }

  /** `re.sub(r'(\r\n|\r|\n){2,}', '$1', s)` */
  function CollapseBreaks(s: string): string
    decreases |s|
  {
    if s == [] then []
    else if IsBreak(s[0]) then
      var n := BreakRun(s);
      (if n >= 2 then "$1" else s[..1]) + CollapseBreaks(s[n..])
    else [s[0]] + CollapseBreaks(s[1..])
  }

  /** The length of a `<br\s*\/?>` tag at the start of `s`, if there is one. */
  function BrTagLength(s: string): (r: Option<nat>)
    ensures r.Some? ==> 4 <= r.value <= |s| && At(s, 0, "<br")
  {
    if At(s, 0, "<br") then
      var k := 3 + LeadingSpace(s[3..]);
      if k < |s| && s[k] == '>' then Some(k + 1)
      else if k + 1 < |s| && s[k] == '/' && s[k + 1] == '>' then Some(k + 2)
      else None
    else None
  }

  /** `re.sub(r'<br\s*\/?>', '\n', s)` */
  function BrToNewline(s: string): string
    decreases |s|
  {
    if s == [] then []
    else match BrTagLength(s)
      case Some(n) => "\n" + BrToNewline(s[n..])
      case None => [s[0]] + BrToNewline(s[1..])
  }

  /** `prepare_text`. */
  function PrepareText(text: string): string
  {
    Strip(BrToNewline(CollapseBreaks(StripHtmlComments(text))))
  }

  predicate NoAdjacentBreaks(s: string)
  {
    forall i :: 0 <= i < |s| - 1 ==> !(IsBreak(s[i]) && IsBreak(s[i + 1]))
  }

  /** After step 2 no two line-break characters are adjacent. */
  lemma {:induction false} CollapsedHasNoAdjacentBreaks(s: string)
    ensures NoAdjacentBreaks(CollapseBreaks(s))
    decreases |s|
  {
    if s != [] {
      if IsBreak(s[0]) {
        var n := BreakRun(s);
        var rest := s[n..];
        CollapsedHasNoAdjacentBreaks(rest);
        StartsUnbroken(rest);
        var head := if n >= 2 then "$1" else s[..1];
        var tail := CollapseBreaks(rest);
        assert CollapseBreaks(s) == head + tail;
        forall i | 0 <= i < |head + tail| - 1
          ensures !(IsBreak((head + tail)[i]) && IsBreak((head + tail)[i + 1]))
        {
          if i + 1 < |head| {
            assert (head + tail)[i] == head[i];
          } else if i + 1 == |head| {
            assert (head + tail)[i + 1] == tail[0];
          } else {
            assert (head + tail)[i] == tail[i - |head|];
            assert (head + tail)[i + 1] == tail[i + 1 - |head|];
          }
        }
      } else {
        CollapsedHasNoAdjacentBreaks(s[1..]);
        var tail := CollapseBreaks(s[1..]);
        forall i | 0 <= i < |[s[0]] + tail| - 1
          ensures !(IsBreak(([s[0]] + tail)[i]) && IsBreak(([s[0]] + tail)[i + 1]))
        {
          if i > 0 {
            assert ([s[0]] + tail)[i] == tail[i - 1];
            assert ([s[0]] + tail)[i + 1] == tail[i];
          }
        }
      }
    }
  }

  /** Collapsing text that does not start with a break gives text that does not start with one. */
  lemma StartsUnbroken(s: string)
    requires s == [] || !IsBreak(s[0])
    ensures CollapseBreaks(s) == [] || !IsBreak(CollapseBreaks(s)[0])
  {
  }

  /** Text without two adjacent line-break characters passes step 2 unchanged. */
  lemma {:induction false} CollapseKeepsSingleBreaks(s: string)
    requires NoAdjacentBreaks(s)
    ensures CollapseBreaks(s) == s
    decreases |s|
  {
    if s != [] {
      assert NoAdjacentBreaks(s[1..]) by {
        forall i | 0 <= i < |s[1..]| - 1
          ensures !(IsBreak(s[1..][i]) && IsBreak(s[1..][i + 1]))
        {
          assert s[1..][i] == s[i + 1] && s[1..][i + 1] == s[i + 2];
        }
      }
      CollapseKeepsSingleBreaks(s[1..]);
      if IsBreak(s[0]) {
        assert |s| > 1 ==> !IsBreak(s[1]);
        assert BreakRun(s) == 1;
        assert s[..1] + s[1..] == s;
      }
    }
  }

  /** A lone "\r\n" is a run of two break characters, so it too becomes `$1`. */
  lemma CrLfBecomesMarker()
    ensures CollapseBreaks("a\r\nb") == "a$1b"
  {
    assert "a\r\nb"[1..] == "\r\nb";
    assert BreakRun("\r\nb") == 2 by {
      assert "\r\nb"[1..] == "\nb";
      assert "\nb"[1..] == "b";
    }
    assert "\r\nb"[2..] == "b";
    assert "b"[1..] == "";
  }

  /** Text without `<` passes steps 1 and 3 unchanged. */
  lemma {:induction false} NoMarkupUnchanged(s: string)
    requires '<' !in s
    ensures StripHtmlComments(s) == s
    ensures BrToNewline(s) == s
    decreases |s|
  {
    if s != [] {
      assert s[0] != '<';
      assert !At(s, 0, "<!--");
      assert BrTagLength(s).None?;
      assert '<' !in s[1..];
      NoMarkupUnchanged(s[1..]);
    }
  }

  /** Plain text (no `<`, no two adjacent line breaks) is only stripped. */
  lemma PlainTextIsOnlyStripped(s: string)
    requires '<' !in s && NoAdjacentBreaks(s)
    ensures PrepareText(s) == Strip(s)
  {
    NoMarkupUnchanged(s);
    CollapseKeepsSingleBreaks(s);
  }

  /**
   * A closed comment after markup-free text is removed, up to its first
   * `-->`, and the scan goes on after it.
   */
  lemma {:induction false} ClosedCommentRemoved(p: string, c: string, q: string)
    requires '<' !in p && '>' !in c
    ensures StripHtmlComments(p + "<!--" + c + "-->" + q) == p + StripHtmlComments(q)
    decreases |p|
  {
    if p == [] {
      assert p + "<!--" + c + "-->" + q == "<!--" + c + "-->" + q;
      CommentAtStart(c, q);
    } else {
      var s := p + "<!--" + c + "-->" + q;
      var rest := p[1..] + "<!--" + c + "-->" + q;
      assert s == [p[0]] + rest;
      assert s[0] == p[0] && s[1..] == rest;
      assert !At(s, 0, "<!--");
      assert '<' !in p[1..];
      ClosedCommentRemoved(p[1..], c, q);
      assert p == [p[0]] + p[1..];
    }
  }

  /** Without any `-->` nothing is removed: an unclosed `<!--` stays in the text. */
  lemma {:induction false} UnclosedCommentStays(s: string)
    requires forall j: nat :: !At(s, j, "-->")
    ensures StripHtmlComments(s) == s
    decreases |s|
  {
    if s != [] {
      forall j: nat
        ensures !At(s[1..], j, "-->")
      {
        assert !At(s, j + 1, "-->");
        if j + 3 <= |s[1..]| {
          assert s[1..][j..j + 3] == s[j + 1..j + 4];
        }
      }
      UnclosedCommentStays(s[1..]);
      assert s == [s[0]] + s[1..];
    }
  }

  /** A comment at the very start is removed up to its first `-->`. */
  lemma CommentAtStart(c: string, q: string)
    requires '>' !in c
    ensures StripHtmlComments("<!--" + c + "-->" + q) == StripHtmlComments(q)
  {
    var s := "<!--" + c + "-->" + q;
    var j := 4 + |c|;
    assert At(s, 0, "<!--") by {
      assert s[..4] == "<!--";
    }
    assert s[j..j + 3] == "-->";
    assert s[4..j] == c;
    NoCloseInside(s, j);
    FirstClose(s, 4, j);
    assert s[j + 3..] == q;
  }

  /** No `-->` starts inside a comment body free of `>`. */
  lemma NoCloseInside(s: string, j: nat)
    requires 4 <= j && j + 3 <= |s| && '>' !in s[4..j] && s[j..j + 3] == "-->"
    ensures forall i :: 4 <= i < j ==> !At(s, i, "-->")
  {
    forall i | 4 <= i < j
      ensures !At(s, i, "-->")
    {
      if i + 2 < j {
        assert s[i + 2] == s[4..j][i - 2];
      } else {
        assert s[i + 2] == s[j..j + 3][i + 2 - j];
      }
    }
  }

  lemma {:induction false} FirstClose(s: string, from: nat, j: nat)
    requires from <= j && At(s, j, "-->")
    requires forall i :: from <= i < j ==> !At(s, i, "-->")
    ensures CloseAt(s, from) == Some(j)
    decreases j - from
  {
    if from < j {
      FirstClose(s, from + 1, j);
    }
  }

  /** A `<br>` tag, with optional whitespace and an optional `/`, becomes a newline. */
  lemma BrForms()
    ensures BrToNewline("<br>") == "\n"
    ensures BrToNewline("<br/>") == "\n"
    ensures BrToNewline("<br />") == "\n"
  {
    assert BrTagLength("<br>") == Some(4) by {
      assert "<br>"[3..] == ">";
      assert LeadingSpace(">") == 0;
    }
    assert "<br>"[4..] == "";
    assert BrTagLength("<br/>") == Some(5) by {
      assert "<br/>"[3..] == "/>";
      assert LeadingSpace("/>") == 0;
    }
    assert "<br/>"[5..] == "";
    assert BrTagLength("<br />") == Some(6) by {
      assert "<br />"[3..] == " />";
      assert LeadingSpace(" />") == 1 by {
        assert " />"[1..] == "/>";
      }
    }
    assert "<br />"[6..] == "";
  }

  /**
   * Breaks are collapsed BEFORE `<br>` tags become newlines, so two tags
   * in a row (which contain no line break for step 2 to see) still give
   * two adjacent newlines.
   */
  lemma TagBreaksAreNotCollapsed()
    ensures BrToNewline("<br><br>") == "\n\n"
  {
    assert BrTagLength("<br><br>") == Some(4) by {
      assert "<br><br>"[3..] == "><br>";
      assert LeadingSpace("><br>") == 0;
    }
    assert "<br><br>"[4..] == "<br>";
    BrForms();
  }
}
