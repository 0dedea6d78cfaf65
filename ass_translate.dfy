/** `translate_ass` of `AssTranslate.py`: the `[Events]` section of an ASS
    subtitle file is located, and every `Dialogue:` line after its `Format:`
    line has the text of its tenth field sent to a translator and replaced by
    the translation, keeping the override tags that precede it. The
    translator is a parameter: a total function from a text to its
    translation and the tokens that cost. */
module AssTranslate {
  import opened Text

  datatype AssError =
    | MissingEvents      // no line reads `[events]`
    | MissingFormatLine  // `[Events]` is the last line: `lines[format_line]` is out of range
    | BadFormatLine      // the line after `[Events]` does not start with `format:`

  /** What the translator returns: the translated text and its token cost. */
  datatype Translation = Translation(text: string, cost: int)

  /** The maximum number of splits of a `Dialogue:` line, and so the index of
      its last field, the text. */
  const MaxSplit := 9

  // -----------------------------------------------------------------------
  // Locating the events section
  // -----------------------------------------------------------------------

  function LowerChar(c: char): char {
    if 'A' <= c <= 'Z' then (c as int + 32) as char else c
  }

  /** `str.lower()` on the letters that matter: the texts it is compared
      with are ASCII, and no other character lowers to one of their
      letters. */
  function Lower(s: string): (r: string)
    ensures |r| == |s|
  {
    seq(|s|, i requires 0 <= i < |s| => LowerChar(s[i]))
  }

  /** `line.strip().lower() == '[events]'`. */
  predicate IsEventsHeading(line: string) {
    Lower(Strip(line)) == "[events]"
  }

  /** `lines[format_line].lower().startswith('format:')`. */
  predicate IsFormatLine(line: string) {
    StartsWith(Lower(line), "format:")
  }

  /** `lines[idx].strip().startswith('Dialogue:')`. */
  predicate IsDialogue(line: string) {
    StartsWith(Strip(line), "Dialogue:")
  }

  /** The index of the first `[Events]` heading. */
  function FirstEvents(lines: seq<string>): (r: Option<nat>)
    ensures r.Some? ==> r.value < |lines| && IsEventsHeading(lines[r.value])
    ensures r.Some? ==> forall j :: 0 <= j < r.value ==> !IsEventsHeading(lines[j])
    ensures r.None? <==> forall j :: 0 <= j < |lines| ==> !IsEventsHeading(lines[j])
  {
    FirstEventsFrom(lines, 0)
  }

  function FirstEventsFrom(lines: seq<string>, k: nat): (r: Option<nat>)
    requires k <= |lines|
    requires forall j :: 0 <= j < k ==> !IsEventsHeading(lines[j])
    ensures r.Some? ==> k <= r.value < |lines| && IsEventsHeading(lines[r.value])
    ensures r.Some? ==> forall j :: 0 <= j < r.value ==> !IsEventsHeading(lines[j])
    ensures r.None? <==> forall j :: 0 <= j < |lines| ==> !IsEventsHeading(lines[j])
    decreases |lines| - k
  {
    if k == |lines| then None
    else if IsEventsHeading(lines[k]) then Some(k)
    else FirstEventsFrom(lines, k + 1)
  }

  /** The indices from `first` up to `n` whose lines `keep` selects, in
      order: `process_indices` when `keep` is `IsDialogue`. */
  function Candidates(lines: seq<string>, first: nat, n: nat, keep: string -> bool): (ids: seq<nat>)
    requires n <= |lines|
    ensures forall k :: 0 <= k < |ids| ==> first <= ids[k] < n
    decreases n
  {
    if n <= first then []
    else Candidates(lines, first, n - 1, keep) + (if keep(lines[n - 1]) then [n - 1] else [])
  }

  /** The candidates are exactly the selected lines in range. */
  lemma {:induction false} CandidatesMembers(lines: seq<string>, first: nat, n: nat, keep: string -> bool)
    requires n <= |lines|
    ensures forall j :: j in Candidates(lines, first, n, keep) <==> first <= j < n && keep(lines[j])
    decreases n
  {
    if n > first {
      CandidatesMembers(lines, first, n - 1, keep);
    }
  }

  predicate Increasing(ids: seq<nat>) {
    forall a, b :: 0 <= a < b < |ids| ==> ids[a] < ids[b]
  }

  /** In an increasing sequence, an element does not occur before itself. */
  lemma {:induction false} NotBefore(ids: seq<nat>, k: nat)
    requires Increasing(ids) && k < |ids|
    ensures ids[k] !in ids[..k]
  {
    forall m | 0 <= m < k ensures ids[..k][m] != ids[k] {
      assert ids[..k][m] == ids[m];
    }
  }

  /** The candidates come in increasing order. */
  lemma {:induction false} CandidatesIncrease(lines: seq<string>, first: nat, n: nat, keep: string -> bool)
    requires n <= |lines|
    ensures Increasing(Candidates(lines, first, n, keep))
    decreases n
  {
    if n > first {
      var c := Candidates(lines, first, n - 1, keep);
      CandidatesIncrease(lines, first, n - 1, keep);
      var c' := c + (if keep(lines[n - 1]) then [n - 1] else []);
      assert Candidates(lines, first, n, keep) == c';
      forall a, b | 0 <= a < b < |c'| ensures c'[a] < c'[b] {
        assert c'[a] == c[a];
        if b < |c| {
          assert c'[b] == c[b];
        }
      }
    }
  }

  // -----------------------------------------------------------------------
  // Splitting a line: re.split(r',\s*(?![^{}]*\})', line, maxsplit=9)
  // -----------------------------------------------------------------------

  /** The lookahead `[^{}]*\}` matches at `k`: scanning forward from `k`, a
      `}` comes before any `{` and before the end of the line. */
  predicate CloseAhead(s: string, k: nat)
    decreases |s| - k
  {
    k < |s| && s[k] != '{' && (s[k] == '}' || CloseAhead(s, k + 1))
  }

  /** The comma at `i` separates fields: it is not inside an override block
      `{…}`, since scanning on reaches a `{` or the end before any `}`. */
  predicate IsSeparator(s: string, i: nat) {
    i < |s| && s[i] == ',' && !CloseAhead(s, i + 1)
  }

  /** `\s*` is greedy, and backing off never changes the verdict: the
      lookahead gives the same answer after any part of the whitespace run,
      since whitespace holds no braces. So the separator is the comma and the
      whole run of whitespace after it. */
  lemma {:induction false} LookaheadIgnoresSpace(s: string, k: nat, e: nat)
    requires k <= e <= |s|
    requires forall j :: k <= j < e ==> IsSpace(s[j])
    ensures CloseAhead(s, k) == CloseAhead(s, e)
    decreases e - k
  {
    if k < e {
      assert s[k] != '{' && s[k] != '}';
      LookaheadIgnoresSpace(s, k + 1, e);
    }
  }

  /** The end of the whitespace run starting at `k`. */
  function SkipSpace(s: string, k: nat): (e: nat)
    requires k <= |s|
    ensures k <= e <= |s|
    decreases |s| - k
  {
    if k < |s| && IsSpace(s[k]) then SkipSpace(s, k + 1) else k
  }

  /** The run skipped is whitespace, and it is maximal. */
  lemma {:induction false} SkipSpaceSkips(s: string, k: nat)
    requires k <= |s|
    ensures var e := SkipSpace(s, k);
      && (e == |s| || !IsSpace(s[e]))
      && forall j :: k <= j < e ==> IsSpace(s[j])
    decreases |s| - k
  {
    if k < |s| && IsSpace(s[k]) {
      SkipSpaceSkips(s, k + 1);
    }
  }

  /** The first separator at or after `k`: where the regular expression
      matches next. */
  function NextSeparator(s: string, k: nat): (r: Option<nat>)
    requires k <= |s|
    ensures r.Some? ==> k <= r.value < |s|
    decreases |s| - k
  {
    if k == |s| then None
    else if IsSeparator(s, k) then Some(k)
    else NextSeparator(s, k + 1)
  }

  /** The match found is a separator, and the first one. */
  lemma {:induction false} NextSeparatorFirst(s: string, k: nat)
    requires k <= |s|
    ensures var r := NextSeparator(s, k);
      && (r.Some? ==> IsSeparator(s, r.value) && forall j :: k <= j < r.value ==> !IsSeparator(s, j))
      && (r.None? ==> forall j :: k <= j < |s| ==> !IsSeparator(s, j))
    decreases |s| - k
  {
    if k < |s| && !IsSeparator(s, k) {
      NextSeparatorFirst(s, k + 1);
    }
  }

  /** The fields of `s[start..]`, with at most `budget` splits. */
  function Split(s: string, start: nat, budget: nat): (parts: seq<string>)
    requires start <= |s|
    ensures 1 <= |parts| <= budget + 1
    decreases |s| - start
  {
    if budget == 0 then [s[start..]]
    else match NextSeparator(s, start)
      case None => [s[start..]]
      case Some(i) => [s[start..i]] + Split(s, SkipSpace(s, i + 1), budget - 1)
  }

  /** The separators the split drops, one between each two fields. */
  function Gaps(s: string, start: nat, budget: nat): (gaps: seq<string>)
    requires start <= |s|
    decreases |s| - start
  {
    if budget == 0 then []
    else match NextSeparator(s, start)
      case None => []
      case Some(i) => [s[i..SkipSpace(s, i + 1)]] + Gaps(s, SkipSpace(s, i + 1), budget - 1)
  }

  /** `re.split(r',\s*(?![^{}]*\})', line, maxsplit=9)`. */
  function SplitFields(line: string): (parts: seq<string>)
    ensures 1 <= |parts| <= MaxSplit + 1
  {
    Split(line, 0, MaxSplit)
  }

  /** The fields interleaved with the separators between them. */
  function Weave(parts: seq<string>, gaps: seq<string>): string
    requires |parts| == |gaps| + 1
    decreases |gaps|
  {
    if gaps == [] then parts[0] else parts[0] + gaps[0] + Weave(parts[1..], gaps[1..])
  }

  /** The number of separators from `k` on. */
  function SeparatorsFrom(s: string, k: nat): nat
    decreases |s| - k
  {
    if k >= |s| then 0 else (if IsSeparator(s, k) then 1 else 0) + SeparatorsFrom(s, k + 1)
  }

  /** A comma and the whitespace after it. */
  predicate IsCommaSpace(g: string) {
    |g| >= 1 && g[0] == ',' && forall j :: 1 <= j < |g| ==> IsSpace(g[j])
  }

  /** Every separator dropped is a comma followed by whitespace only. */
  lemma {:induction false} GapIsCommaSpace(s: string, start: nat, budget: nat, k: nat)
    requires start <= |s| && k < |Gaps(s, start, budget)|
    ensures IsCommaSpace(Gaps(s, start, budget)[k])
    decreases |s| - start
  {
    var i := NextSeparator(s, start).value;
    var e := SkipSpace(s, i + 1);
    assert Gaps(s, start, budget) == [s[i..e]] + Gaps(s, e, budget - 1);
    if k == 0 {
      NextSeparatorFirst(s, start);
      SkipSpaceSkips(s, i + 1);
      CommaSpaceSlice(s, i, e);
    } else {
      GapIsCommaSpace(s, e, budget - 1, k - 1);
    }
  }

  lemma {:induction false} CommaSpaceSlice(s: string, i: nat, e: nat)
    requires i < e <= |s| && s[i] == ','
    requires forall j :: i + 1 <= j < e ==> IsSpace(s[j])
    ensures IsCommaSpace(s[i..e])
  {
    var g := s[i..e];
    forall j | 1 <= j < |g| ensures IsSpace(g[j]) {
      assert g[j] == s[i + j];
    }
  }

  /** One separator between each two fields. */
  lemma {:induction false} GapsCount(s: string, start: nat, budget: nat)
    requires start <= |s|
    ensures |Gaps(s, start, budget)| == |Split(s, start, budget)| - 1
    decreases |s| - start
  {
    if budget > 0 && NextSeparator(s, start).Some? {
      var e := SkipSpace(s, NextSeparator(s, start).value + 1);
      GapsCount(s, e, budget - 1);
    }
  }

  /** The fields and the separators between them give back the line: the
      split loses nothing but the separators. */
  lemma {:induction false} SplitRejoins(s: string, start: nat, budget: nat)
    requires start <= |s|
    ensures |Gaps(s, start, budget)| == |Split(s, start, budget)| - 1
    ensures Weave(Split(s, start, budget), Gaps(s, start, budget)) == s[start..]
    decreases |s| - start
  {
    GapsCount(s, start, budget);
    if budget > 0 && NextSeparator(s, start).Some? {
      var i := NextSeparator(s, start).value;
      var e := SkipSpace(s, i + 1);
      SplitRejoins(s, e, budget - 1);
      assert Split(s, start, budget) == [s[start..i]] + Split(s, e, budget - 1);
      assert Gaps(s, start, budget) == [s[i..e]] + Gaps(s, e, budget - 1);
      WeaveCons(s[start..i], Split(s, e, budget - 1), s[i..e], Gaps(s, e, budget - 1));
      SlicesJoin(s, start, i, e);
    } else {
      assert Split(s, start, budget) == [s[start..]];
      assert Gaps(s, start, budget) == [];
    }
  }

  lemma {:induction false} WeaveCons(p: string, ps: seq<string>, g: string, gs: seq<string>)
    requires |ps| == |gs| + 1
    ensures Weave([p] + ps, [g] + gs) == p + g + Weave(ps, gs)
  {
    assert ([p] + ps)[1..] == ps;
    assert ([g] + gs)[1..] == gs;
  }

  lemma {:induction false} SlicesJoin(s: string, a: nat, b: nat, c: nat)
    requires a <= b <= c <= |s|
    ensures s[a..] == s[a..b] + s[b..c] + s[c..]
  {
  }

  /** A line splits into one field more than it has separators, but into no
      more than ten: it has fewer than ten fields exactly when it has fewer
      than nine separators. */
  lemma {:induction false} SplitCount(s: string, start: nat, budget: nat)
    requires start <= |s|
    ensures |Split(s, start, budget)| == if SeparatorsFrom(s, start) < budget then 1 + SeparatorsFrom(s, start) else budget + 1
    decreases |s| - start
  {
    if budget > 0 {
      NextSeparatorFirst(s, start);
      if NextSeparator(s, start).None? {
        NoSeparatorsBetween(s, start, |s|);
      } else {
        var i := NextSeparator(s, start).value;
        var e := SkipSpace(s, i + 1);
        SplitCount(s, e, budget - 1);
        OneSeparatorAcross(s, start, i);
      }
    }
  }

  /** From `start` on, the first separator at `i` and the whitespace after it
      count for one separator. */
  lemma {:induction false} OneSeparatorAcross(s: string, start: nat, i: nat)
    requires start <= i < |s| && IsSeparator(s, i)
    requires forall j :: start <= j < i ==> !IsSeparator(s, j)
    ensures SeparatorsFrom(s, start) == 1 + SeparatorsFrom(s, SkipSpace(s, i + 1))
  {
    var e := SkipSpace(s, i + 1);
    SkipSpaceSkips(s, i + 1);
    NoSeparatorsBetween(s, start, i);
    forall j | i + 1 <= j < e ensures !IsSeparator(s, j) {
      assert IsSpace(s[j]);
    }
    NoSeparatorsBetween(s, i + 1, e);
  }

  lemma {:induction false} NoSeparatorsBetween(s: string, k: nat, e: nat)
    requires k <= e <= |s|
    requires forall j :: k <= j < e ==> !IsSeparator(s, j)
    ensures SeparatorsFrom(s, k) == SeparatorsFrom(s, e)
    decreases e - k
  {
    if k < e {
      NoSeparatorsBetween(s, k + 1, e);
    }
  }

  // -----------------------------------------------------------------------
  // The text of the tenth field
  // -----------------------------------------------------------------------

  /** `field.split('}')[1] if '}' in field else field`: the text between the
      first and the second `}`, or the whole field when it has no tags. */
  function OriginalText(field: string): string {
    match IndexOf(field, '}')
    case None => field
    case Some(i) => UpTo(field[i + 1..], '}')
  }

  /** `field.split('}', 1)[0] + '}'` when the field has a `}`: the override
      tags up to and including the first `}`. */
  function TagPrefix(field: string): string {
    if '}' in field then UpTo(field, '}') + "}" else ""
  }

  /** The field starts with its tag prefix, then its original text, which
      runs up to the next `}` or the end of the field and holds no `}`. */
  lemma {:induction false} TextFollowsTags(field: string)
    ensures StartsWith(field, TagPrefix(field) + OriginalText(field))
    ensures '}' !in OriginalText(field) || '}' !in field
    ensures var n := |TagPrefix(field) + OriginalText(field)|; n == |field| || field[n] == '}'
    ensures '}' !in field ==> TagPrefix(field) == "" && OriginalText(field) == field
  {
    if IndexOf(field, '}').Some? {
      var i := IndexOf(field, '}').value;
      var rest := field[i + 1..];
      var t := UpTo(rest, '}');
      assert UpTo(field, '}') == field[..i];
      assert TagPrefix(field) + OriginalText(field) == field[..i] + "}" + t;
      SliceAround(field, i, |t|);
      assert rest[..|t|] == t;
      if i + 1 + |t| < |field| {
        assert field[i + 1 + |t|] == rest[|t|];
      }
    }
  }

  /** The first `i + 1 + k` characters are those before `i`, the one at `i`,
      and the first `k` after it. */
  lemma {:induction false} SliceAround(s: string, i: nat, k: nat)
    requires i + 1 + k <= |s|
    ensures s[..i + 1 + k] == s[..i] + [s[i]] + s[i + 1..][..k]
  {
  }

  /** For a field `p}t}rest` with no `}` in `p` or `t`, only `t` is
      translated, and the rewritten field is `p}` and the translation: what
      follows the second `}`, later override tags included, is dropped. */
  lemma {:induction false} TextBetweenFirstBraces(p: string, t: string, rest: string, translated: string)
    requires '}' !in p && '}' !in t && '\n' !in translated
    ensures OriginalText(p + "}" + t + "}" + rest) == t
    ensures NewTextField(p + "}" + t + "}" + rest, translated) == p + "}" + translated
  {
    var field := p + "}" + t + "}" + rest;
    var after := t + "}" + rest;
    assert field == p + ("}" + after);
    FirstAfterFree(p, "}" + after, '}');
    assert field[|p| + 1..] == after;
    assert after == t + ("}" + rest);
    FirstAfterFree(t, "}" + rest, '}');
    assert UpTo(field, '}') == p;
    EscapeNewlinesLength(translated);
  }

  /** The first `c` of `a + b` is the first character of `b` when `a` holds
      no `c`. */
  lemma {:induction false} FirstAfterFree(a: string, b: string, c: char)
    requires c !in a && b != [] && b[0] == c
    ensures IndexOf(a + b, c) == Some(|a|)
    ensures (a + b)[..|a|] == a
    decreases |a|
  {
    if a == [] {
      assert a + b == b;
    } else {
      assert (a + b)[1..] == a[1..] + b;
      FirstAfterFree(a[1..], b, c);
    }
  }

  /** `translated.replace('\n', '\\N')`: every newline becomes the ASS
      line break `\N`. */
  function EscapeNewlines(t: string): (r: string)
    ensures '\n' !in r
  {
    if t == [] then []
    else (if t[0] == '\n' then "\\N" else [t[0]]) + EscapeNewlines(t[1..])
  }

  /** The number of newlines in a text. */
  function Newlines(t: string): nat {
    if t == [] then 0 else (if t[0] == '\n' then 1 else 0) + Newlines(t[1..])
  }

  /** Escaping adds one character per newline and leaves a text without
      newlines as it is. */
  lemma {:induction false} EscapeNewlinesLength(t: string)
    ensures |EscapeNewlines(t)| == |t| + Newlines(t)
    ensures '\n' !in t <==> EscapeNewlines(t) == t
  {
    if t != [] {
      EscapeNewlinesLength(t[1..]);
      if t[0] == '\n' {
        assert |EscapeNewlines(t)| > |t|;
      } else {
        assert EscapeNewlines(t) == [t[0]] + EscapeNewlines(t[1..]);
        assert t == [t[0]] + t[1..];
      }
    }
  }

  // -----------------------------------------------------------------------
  // Rewriting a line and the whole file
  // -----------------------------------------------------------------------

  /** The new tenth field: the tag prefix, then the translation, with its
      newlines escaped when the original text held a `\N`. */
  function NewTextField(field: string, translated: string): string {
    var t := if Contains(OriginalText(field), "\\N") then EscapeNewlines(translated) else translated;
    TagPrefix(field) + t
  }

  /** The rewrite of one `Dialogue:` line and what its translation cost, or
      None when its stripped text has fewer than ten fields. */
  function RewriteLine(line: string, translate: string -> Translation): Option<(string, int)> {
    var parts := SplitFields(Strip(line));
    if |parts| < MaxSplit + 1 then None
    else
      var result := translate(OriginalText(parts[MaxSplit]));
      Some((Join(parts[MaxSplit := NewTextField(parts[MaxSplit], result.text)], ",") + "\n", result.cost))
  }

  /** A line of the output: the rewrite of a `Dialogue:` line that has ten
      fields, any other line as it was. */
  function OutLine(line: string, translate: string -> Translation): string {
    if !IsDialogue(line) then line
    else match RewriteLine(line, translate)
      case None => line
      case Some(p) => p.0
  }

  /** `RewriteLine` with the translator fixed. */
  function Rewriter(translate: string -> Translation): string -> Option<(string, int)> {
    line => RewriteLine(line, translate)
  }

  /** A line after a rewrite, or as it was when the rewrite skips it. */
  function Replaced(line: string, rewrite: string -> Option<(string, int)>): string {
    match rewrite(line)
    case None => line
    case Some(p) => p.0
  }

  /** The tokens one rewrite cost: nothing when the line was skipped. */
  function Charge(rewritten: Option<(string, int)>): int {
    match rewritten
    case None => 0
    case Some(p) => p.1
  }

  /** The tokens the rewrite of the lines at `ids` cost, in order: nothing
      for a line the rewrite skips. */
  function CandidateCost(lines: seq<string>, ids: seq<nat>, rewrite: string -> Option<(string, int)>): int
    requires forall k :: 0 <= k < |ids| ==> ids[k] < |lines|
  {
    if ids == [] then 0
    else
      CandidateCost(lines, ids[..|ids| - 1], rewrite) + Charge(rewrite(lines[ids[|ids| - 1]]))
  }

  /** One more index adds the cost of rewriting its line. */
  lemma {:induction false} CandidateCostSnoc(lines: seq<string>, ids: seq<nat>, x: nat, rewrite: string -> Option<(string, int)>)
    requires forall k :: 0 <= k < |ids| ==> ids[k] < |lines|
    requires x < |lines|
    ensures CandidateCost(lines, ids + [x], rewrite)
      == CandidateCost(lines, ids, rewrite) + Charge(rewrite(lines[x]))
  {
    assert (ids + [x])[..|ids|] == ids;
  }

  /** What `translate_ass` makes of the lines of a file: the rewritten lines
      and `all_token_cost`, or the error it raises. */
  function Translated(lines: seq<string>, translate: string -> Translation): (r: Result<(seq<string>, int), AssError>)
    ensures r == Failure(MissingEvents) <==> forall j :: 0 <= j < |lines| ==> !IsEventsHeading(lines[j])
    ensures r.Success? ==> |r.value.0| == |lines|
  {
    match FirstEvents(lines)
    case None => Failure(MissingEvents)
    case Some(e) =>
      if e + 1 == |lines| then Failure(MissingFormatLine)
      else if !IsFormatLine(lines[e + 1]) then Failure(BadFormatLine)
      else
        Success((seq(|lines|, j requires 0 <= j < |lines| => if e + 2 <= j then OutLine(lines[j], translate) else lines[j]),
                 CandidateCost(lines, Candidates(lines, e + 2, |lines|, IsDialogue), Rewriter(translate))))
  }

  /** Once `[Events]` is found, the file is refused exactly when there is no
      line after it, or that line does not start with `format:`. */
  lemma {:induction false} TranslatedFails(lines: seq<string>, translate: string -> Translation, e: nat)
    requires FirstEvents(lines) == Some(e)
    ensures Translated(lines, translate) == Failure(MissingFormatLine) <==> e + 1 == |lines|
    ensures Translated(lines, translate) == Failure(BadFormatLine) <==> e + 1 < |lines| && !IsFormatLine(lines[e + 1])
    ensures Translated(lines, translate).Success? <==> e + 1 < |lines| && IsFormatLine(lines[e + 1])
  {
  }

  /** Every line keeps its place; only the lines after the `Format:` line
      are rewritten, each as `OutLine` says. */
  lemma {:induction false} TranslatedLines(lines: seq<string>, translate: string -> Translation, e: nat, j: nat)
    requires FirstEvents(lines) == Some(e) && Translated(lines, translate).Success? && j < |lines|
    ensures |Translated(lines, translate).value.0| == |lines|
    ensures Translated(lines, translate).value.0[j] == if j < e + 2 then lines[j] else OutLine(lines[j], translate)
  {
  }

  /** A line that is not a `Dialogue:` line, or whose stripped text has fewer
      than ten fields, is left as it is. Any other line becomes its first nine
      fields joined by commas, a comma, the override tags of its text field,
      the translation of its text, and a newline. */
  lemma {:induction false} OutLineShape(line: string, translate: string -> Translation)
    ensures var parts := SplitFields(Strip(line));
      if !IsDialogue(line) || |parts| < MaxSplit + 1 then OutLine(line, translate) == line
      else
        var field := parts[MaxSplit];
        OutLine(line, translate)
          == Join(parts[..MaxSplit], ",") + "," + NewTextField(field, translate(OriginalText(field)).text) + "\n"
  {
    var parts := SplitFields(Strip(line));
    if IsDialogue(line) && |parts| >= MaxSplit + 1 {
      var field := parts[MaxSplit];
      var x := NewTextField(field, translate(OriginalText(field)).text);
      assert parts[MaxSplit := x] == parts[..MaxSplit] + [x];
      JoinSnoc(parts[..MaxSplit], x, ",");
    }
  }

  /** The tokens of each line from `first` up to `n` that `keep` selects:
      nothing for a line the rewrite skips. */
  function LineCosts(lines: seq<string>, first: nat, n: nat, keep: string -> bool, rewrite: string -> Option<(string, int)>): int
    requires n <= |lines|
    decreases n
  {
    if n <= first then 0
    else
      LineCosts(lines, first, n - 1, keep, rewrite) + (if keep(lines[n - 1]) then Charge(rewrite(lines[n - 1])) else 0)
  }

  /** `all_token_cost` is the sum of the token costs of the rewritten lines,
      whichever lines are selected and however they are rewritten. */
  lemma {:induction false} CostIsSumOfLines(lines: seq<string>, first: nat, n: nat, keep: string -> bool,
                                            rewrite: string -> Option<(string, int)>)
    requires n <= |lines|
    ensures CandidateCost(lines, Candidates(lines, first, n, keep), rewrite) == LineCosts(lines, first, n, keep, rewrite)
    decreases n
  {
    if n > first {
      CostIsSumOfLines(lines, first, n - 1, keep, rewrite);
      if keep(lines[n - 1]) {
        CostOfKept(lines, first, n, keep, rewrite);
      } else {
        assert Candidates(lines, first, n, keep) == Candidates(lines, first, n - 1, keep);
      }
    }
  }

  /** A selected line adds its charge to both sums. */
  lemma {:induction false} CostOfKept(lines: seq<string>, first: nat, n: nat, keep: string -> bool, rewrite: string -> Option<(string, int)>)
    requires first < n <= |lines| && keep(lines[n - 1])
    ensures CandidateCost(lines, Candidates(lines, first, n, keep), rewrite)
      == CandidateCost(lines, Candidates(lines, first, n - 1, keep), rewrite) + Charge(rewrite(lines[n - 1]))
  {
    var c := Candidates(lines, first, n - 1, keep);
    var last: nat := n - 1;
    assert Candidates(lines, first, n, keep) == c + [last];
    CandidateCostSnoc(lines, c, last, rewrite);
  }

  /** The lines with those at `ids` rewritten. */
  function Applied(lines: seq<string>, ids: seq<nat>, rewrite: string -> Option<(string, int)>): (r: seq<string>)
    ensures |r| == |lines|
  {
    seq(|lines|, j requires 0 <= j < |lines| => if j in ids then Replaced(lines[j], rewrite) else lines[j])
  }

  lemma {:induction false} AppliedSnoc(lines: seq<string>, ids: seq<nat>, idx: nat, rewrite: string -> Option<(string, int)>)
    requires idx < |lines| && idx !in ids
    ensures Applied(lines, ids + [idx], rewrite) == Applied(lines, ids, rewrite)[idx := Replaced(lines[idx], rewrite)]
  {
  }

  /** Rewriting every candidate gives the lines of `Translated`. */
  lemma {:induction false} AppliedCandidates(lines: seq<string>, first: nat, translate: string -> Translation)
    requires first <= |lines|
    ensures Applied(lines, Candidates(lines, first, |lines|, IsDialogue), Rewriter(translate))
      == seq(|lines|, j requires 0 <= j < |lines| => if first <= j then OutLine(lines[j], translate) else lines[j])
  {
    CandidatesMembers(lines, first, |lines|, IsDialogue);
  }

  /** A file with `[Events]` at `e` and a `Format:` line after it is
      translated by rewriting the candidate lines in turn. */
  lemma {:induction false} TranslatedByCandidates(lines: seq<string>, translate: string -> Translation, e: nat)
    requires FirstEvents(lines) == Some(e) && e + 1 < |lines| && IsFormatLine(lines[e + 1])
    ensures var ids := Candidates(lines, e + 2, |lines|, IsDialogue);
      Translated(lines, translate) == Success((Applied(lines, ids, Rewriter(translate)), CandidateCost(lines, ids, Rewriter(translate))))
  {
    AppliedCandidates(lines, e + 2, translate);
  }

  /** `translate_ass(input_path, output_path)` on the lines of the input
      file, returning the lines of the output file and the tokens spent. */
  method TranslateAss(input: seq<string>, translate: string -> Translation) returns (r: Result<(seq<string>, int), AssError>)
    ensures r == Translated(input, translate)
  {
    var eventsIndex := FindEventsIndex(input);
    if eventsIndex == -1 {
      return Failure(MissingEvents);
    }
    TranslatedFails(input, translate, eventsIndex);
    var formatLine := eventsIndex + 1;
    if formatLine >= |input| {
      return Failure(MissingFormatLine);
    }
    if !IsFormatLine(input[formatLine]) {
      return Failure(BadFormatLine);
    }
    var first := eventsIndex + 2;
    var indices := CollectDialogue(input, first, IsDialogue);
    CandidatesIncrease(input, first, |input|, IsDialogue);
    var lines, cost := RewriteLines(input, indices, Rewriter(translate));
    TranslatedByCandidates(input, translate, eventsIndex);
    r := Success((lines, cost));
  }

  /** The search for `[Events]`: its index, or -1. */
  method FindEventsIndex(lines: seq<string>) returns (eventsIndex: int)
    ensures eventsIndex == match FirstEvents(lines) case None => -1 case Some(e) => e
  {
    eventsIndex := -1;
    var i := 0;
    while i < |lines|
      invariant 0 <= i <= |lines| && eventsIndex == -1
      invariant forall j :: 0 <= j < i ==> !IsEventsHeading(lines[j])
    {
      if IsEventsHeading(lines[i]) {
        eventsIndex := i;
        break;
      }
      i := i + 1;
    }
  }

  /** The loop that gathers `process_indices`. */
  method CollectDialogue(lines: seq<string>, first: nat, keep: string -> bool) returns (indices: seq<nat>)
    requires first <= |lines|
    ensures indices == Candidates(lines, first, |lines|, keep)
  {
    indices := [];
    for idx := first to |lines|
      invariant indices == Candidates(lines, first, idx, keep)
    {
      if keep(lines[idx]) {
        indices := indices + [idx];
      }
    }
  }

  /** The loop over `process_indices`: each line is rewritten in place and
      its cost added to `all_token_cost`. */
  method RewriteLines(input: seq<string>, indices: seq<nat>, rewrite: string -> Option<(string, int)>)
    returns (lines: seq<string>, cost: int)
    requires Increasing(indices)
    requires forall k :: 0 <= k < |indices| ==> indices[k] < |input|
    ensures lines == Applied(input, indices, rewrite)
    ensures cost == CandidateCost(input, indices, rewrite)
  {
    lines, cost := input, 0;
    for k := 0 to |indices|
      invariant lines == Applied(input, indices[..k], rewrite)
      invariant cost == CandidateCost(input, indices[..k], rewrite)
    {
      var idx := indices[k];
      NotBefore(indices, k);
      assert indices[..k + 1] == indices[..k] + [idx];
      AppliedSnoc(input, indices[..k], idx, rewrite);
      var result := rewrite(lines[idx]);
      if result.Some? {
        cost := cost + result.value.1;
        lines := lines[idx := result.value.0];
      }
    }
    assert indices[..|indices|] == indices;
  }
}
