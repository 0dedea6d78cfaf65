/** `ASSGenerator._process_text`: greedy line wrapping in which a CJK
    ideograph (U+4E00 to U+9FA5) is one unit wide and every other character
    half a unit. Widths are counted here in half units, so an ideograph
    weighs 2, any other character 1, and a budget of `max_chars` units is
    `2 * max_chars` half units. */
module Wrap {
  import opened Text

  /** The ASS line-break marker the wrapped lines are joined with: a
      backslash followed by `N`. */
  const LineBreak: string := "\\N"

  predicate IsCjk(c: char) {
    '\U{4E00}' <= c <= '\U{9FA5}'
  }

  function Width(c: char): (w: nat)
    ensures w == 1 || w == 2
  {
    if IsCjk(c) then 2 else 1
  }

  /** The width of a whole string, in half units. */
  function Weight(s: string): nat {
    if s == [] then 0 else Weight(s[..|s| - 1]) + Width(s[|s| - 1])
  }

  /** The loop state of `_process_text`: the finished lines, the line being
      filled and its running width. */
  datatype WrapState = WrapState(done: seq<string>, current: string, count: int)

  /** One iteration of the loop: the character joins the current line while
      the running width stays within the budget, and otherwise the current
      line is finished and the character starts a new one. */
  function Feed(st: WrapState, c: char, budget: int): WrapState {
    var count := st.count + Width(c);
    if count <= budget then WrapState(st.done, st.current + [c], count)
    else WrapState(st.done + [st.current], [c], Width(c))
  }

  /** The loop state after the characters of `text`. */
  function Run(text: string, budget: int): WrapState {
    if text == [] then WrapState([], "", 0)
    else Feed(Run(text[..|text| - 1], budget), text[|text| - 1], budget)
  }

  /** The lines `_process_text` produces: the finished ones and, unless it is
      empty, the last one. */
  function Segments(text: string, budget: int): seq<string> {
    var st := Run(text, budget);
    if st.current != [] then st.done + [st.current] else st.done
  }

  /** `_process_text(text, max_chars)`: the wrapped text and its number of
      lines. */
  method ProcessText(text: string, maxChars: int) returns (processed: string, lines: int)
    ensures processed == Join(Segments(text, 2 * maxChars), LineBreak)
    ensures lines == |Segments(text, 2 * maxChars)|
    ensures text == [] ==> processed == "" && lines == 0
  {
    var budget := 2 * maxChars;
    var done: seq<string> := [];
    var currentLine := "";
    var charCount := 0;
    lines := 0;
    for i := 0 to |text|
      invariant WrapState(done, currentLine, charCount) == Run(text[..i], budget)
      invariant lines == |done|
    {
      var c := text[i];
      assert text[..i + 1][..i] == text[..i];
      charCount := charCount + Width(c);
      if charCount <= budget {
        currentLine := currentLine + [c];
      } else {
        done := done + [currentLine];
        currentLine := [c];
        charCount := Width(c);
        lines := lines + 1;
      }
    }
    assert text[..|text|] == text;
    if currentLine != [] {
      done := done + [currentLine];
      lines := lines + 1;
    }
    processed := Join(done, LineBreak);
  }

  // -----------------------------------------------------------------------
  // What the wrapped lines satisfy
  // -----------------------------------------------------------------------

  lemma {:induction false} WeightAppend(s: string, c: char)
    ensures Weight(s + [c]) == Weight(s) + Width(c)
  {
    assert (s + [c])[..|s|] == s;
  }

  lemma {:induction false} ConcatSnoc(a: seq<string>, x: string)
    ensures Concat(a + [x]) == Concat(a) + x
  {
    assert (a + [x])[..|a|] == a;
  }

  lemma {:induction false} RunConcat(text: string, budget: int)
    ensures Concat(Run(text, budget).done) + Run(text, budget).current == text
  {
    if text != [] {
      var prefix := text[..|text| - 1];
      var c := text[|text| - 1];
      var st := Run(prefix, budget);
      assert Run(text, budget) == Feed(st, c, budget);
      RunConcat(prefix, budget);
      FeedConcat(st, c, budget);
      assert prefix + [c] == text;
    }
  }

  lemma {:induction false} FeedConcat(st: WrapState, c: char, budget: int)
    ensures var st' := Feed(st, c, budget);
      Concat(st'.done) + st'.current == Concat(st.done) + st.current + [c]
  {
    if st.count + Width(c) > budget {
      ConcatSnoc(st.done, st.current);
    }
  }

  /** Wrapping never loses, adds or reorders a character: the lines put
      together give back the text. */
  lemma {:induction false} SegmentsConcat(text: string, budget: int)
    ensures Concat(Segments(text, budget)) == text
  {
    var st := Run(text, budget);
    RunConcat(text, budget);
    if st.current != [] {
      ConcatSnoc(st.done, st.current);
    }
  }

  /** The line that comes after finished line `i`. */
  function Following(st: WrapState, i: nat): string
    requires i < |st.done|
  {
    if i + 1 < |st.done| then st.done[i + 1] else st.current
  }

  /** The loop invariant behind the wrapping guarantees. */
  ghost predicate Wrapped(st: WrapState, text: string, budget: int) {
    && st.count == Weight(st.current) <= budget
    && (text != [] ==> st.current != [])
    && (forall i :: 0 <= i < |st.done| ==> st.done[i] != [] && Weight(st.done[i]) <= budget)
    && (forall i :: 0 <= i < |st.done| ==>
          Following(st, i) != [] && Weight(st.done[i]) + Width(Following(st, i)[0]) > budget)
  }

  lemma {:induction false} RunWrapped(text: string, budget: int)
    requires budget >= 2
    ensures Wrapped(Run(text, budget), text, budget)
  {
    if text != [] {
      var prefix := text[..|text| - 1];
      var c := text[|text| - 1];
      RunWrapped(prefix, budget);
      assert text == prefix + [c];
      FeedWrapped(Run(prefix, budget), prefix, c, budget);
    }
  }

  lemma {:induction false} FeedWrapped(st: WrapState, prefix: string, c: char, budget: int)
    requires budget >= 2 && Wrapped(st, prefix, budget)
    requires prefix == [] ==> st == WrapState([], "", 0)
    ensures Wrapped(Feed(st, c, budget), prefix + [c], budget)
  {
    if st.count + Width(c) <= budget {
      FeedWithin(st, prefix, c, budget);
    } else {
      FeedBreaks(st, prefix, c, budget);
    }
  }

  /** A character that fits extends the current line. */
  lemma {:induction false} FeedWithin(st: WrapState, prefix: string, c: char, budget: int)
    requires budget >= 2 && Wrapped(st, prefix, budget)
    requires st.count + Width(c) <= budget
    ensures Wrapped(Feed(st, c, budget), prefix + [c], budget)
  {
    var st' := Feed(st, c, budget);
    WeightAppend(st.current, c);
    assert st'.done == st.done;
    forall i | 0 <= i < |st'.done|
      ensures Following(st', i) != [] && Weight(st'.done[i]) + Width(Following(st', i)[0]) > budget
    {
      assert Following(st, i) != [];
      assert Following(st', i)[0] == Following(st, i)[0];
    }
  }

  /** A character that does not fit finishes the current line, which the
      character would have overflowed, and starts the next one. */
  lemma {:induction false} FeedBreaks(st: WrapState, prefix: string, c: char, budget: int)
    requires budget >= 2 && Wrapped(st, prefix, budget)
    requires prefix == [] ==> st == WrapState([], "", 0)
    requires st.count + Width(c) > budget
    ensures Wrapped(Feed(st, c, budget), prefix + [c], budget)
  {
    var st' := Feed(st, c, budget);
    assert prefix != [];
    assert Weight([c]) == Width(c) by { WeightAppend([], c); assert [] + [c] == [c]; }
    forall i | 0 <= i < |st'.done|
      ensures st'.done[i] != [] && Weight(st'.done[i]) <= budget
    {
      if i < |st.done| { assert st'.done[i] == st.done[i]; }
    }
    forall i | 0 <= i < |st'.done|
      ensures Following(st', i) != [] && Weight(st'.done[i]) + Width(Following(st', i)[0]) > budget
    {
      if i < |st.done| {
        assert st'.done[i] == st.done[i];
        assert Following(st', i) == Following(st, i);
      }
    }
  }

  /** With a budget of at least one unit, every line is non-empty and fits
      the budget. */
  lemma {:induction false} SegmentsFit(text: string, maxChars: int)
    requires maxChars >= 1
    ensures forall i :: 0 <= i < |Segments(text, 2 * maxChars)| ==>
      Segments(text, 2 * maxChars)[i] != [] && Weight(Segments(text, 2 * maxChars)[i]) <= 2 * maxChars
  {
    RunWrapped(text, 2 * maxChars);
  }

  /** The wrapping is greedy: every line but the last would overflow the
      budget if the first character of the next line were added to it. */
  lemma {:induction false} SegmentsGreedy(text: string, maxChars: int)
    requires maxChars >= 1
    ensures var segs := Segments(text, 2 * maxChars);
      forall i :: 0 < i < |segs| ==>
        segs[i] != [] && Weight(segs[i - 1]) + Width(segs[i][0]) > 2 * maxChars
  {
    var st := Run(text, 2 * maxChars);
    RunWrapped(text, 2 * maxChars);
    var segs := Segments(text, 2 * maxChars);
    forall i | 0 < i < |segs|
      ensures segs[i] != [] && Weight(segs[i - 1]) + Width(segs[i][0]) > 2 * maxChars
    {
      assert segs[i - 1] == st.done[i - 1];
      assert segs[i] == Following(st, i - 1);
    }
  }

  /** Text without ideographs wraps into `ceil(len / (2 * max_chars))`
      lines, since every line but the last holds `2 * max_chars` characters:
      the line count is the least `n` with `n * 2 * max_chars >= len`. */
  lemma {:induction false} HalfWidthLineCount(text: string, maxChars: int)
    requires maxChars >= 1
    requires forall i :: 0 <= i < |text| ==> !IsCjk(text[i])
    ensures var n := |Segments(text, 2 * maxChars)|;
      (n - 1) * (2 * maxChars) < |text| <= n * (2 * maxChars)
  {
    RunHalfWidth(text, 2 * maxChars);
  }

  lemma {:induction false} RunHalfWidth(text: string, b: int)
    requires b >= 1
    requires forall i :: 0 <= i < |text| ==> !IsCjk(text[i])
    ensures var st := Run(text, b);
      && st.count == |st.current| <= b
      && |st.done| * b + |st.current| == |text|
      && (text != [] <==> st.current != [])
  {
    if text != [] {
      var prefix := text[..|text| - 1];
      RunHalfWidth(prefix, b);
    }
  }
}
