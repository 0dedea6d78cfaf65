/** The serialiser of `generate_capacity_based_ass`: every snapshot becomes
    a block of `Dialogue` lines that share the snapshot's interval and are
    stacked from the top of the block downwards, each entry taking as many
    rows as its wrapped text has lines. */
module StackedAss {
  import opened Text
  import opened Timecode
  import opened Wrap
  import opened Window

  /** The column and the vertical offset used outside the game segment
      (snapshot indices below `gamestart` or above `gameend`). */
  const OutsideX := 1550
  const OutsideBonus := 120

  /** The `[Script Info]`, `[V4+ Styles]` and `[Events]` preamble, with the
      indentation its triple-quoted literal carries; the style font is
      SimHei written in Chinese. */
  function CapacityHeader(width: int, height: int): string {
    "        \n    [Script Info]\n    Title: Danmu Subtitles\n"
    + "    ScriptType: v4.00+\n    WrapStyle: 0\n"
    + "    ScaledBorderAndShadow: yes\n    YCbCr Matrix: TV.601\n"
    + "    PlayResX: " + IntToString(width) + "\n    PlayResY: " + IntToString(height) + "\n\n"
    + "    [V4+ Styles]\n"
    + "    Format: Name, Fontname, Fontsize, PrimaryColour, SecondaryColour, "
    + "OutlineColour, BackColour, Bold, Italic, Underline, StrikeOut, "
    + "ScaleX, ScaleY, Spacing, Angle, BorderStyle, Outline, Shadow, "
    + "Alignment, MarginL, MarginR, MarginV, Encoding\n"
    + "    Style: Default,\U{9ED1}\U{4F53},29,&H00E1E1E1,&H007F7F7F,&HD3000000,&H80000000,"
    + "-1,0,0,0,100,100,0,0,3,3,3,7,0,0,0,1\n\n"
    + "    [Events]\n"
    + "    Format: Layer, Start, End, Style, Name, MarginL, MarginR, MarginV, Effect, Text\n    "
  }

  /** Python's `s[:n]`: a negative bound counts from the end. */
  function Take(s: seq<string>, n: int): (r: seq<string>)
    ensures |r| <= |s| && r == s[..|r|]
    ensures 0 <= n ==> |r| == if n < |s| then n else |s|
    ensures n < 0 ==> |r| == if |s| + n > 0 then |s| + n else 0
  {
    var end := if n >= 0 then (if n < |s| then n else |s|) else (if |s| + n > 0 then |s| + n else 0);
    s[..end]
  }

  /** The text `_process_text(text, max_chars=10)` returns. */
  function WrappedText(text: string): string {
    Join(Segments(text, 2 * WrapChars), LineBreak)
  }

  /** The rows the entries of `texts` take together. */
  function SumLines(texts: seq<string>): (n: nat)
    ensures texts == [] ==> n == 0
  {
    if texts == [] then 0 else SumLines(texts[..|texts| - 1]) + LineCount(texts[|texts| - 1])
  }

  /** How far below the top of its block an entry starts: `row_space`
      times the line count of each entry above it, added up. */
  function Offset(above: seq<string>, rowSpace: int): int {
    if above == [] then 0
    else Offset(above[..|above| - 1], rowSpace) + LineCount(above[|above| - 1]) * rowSpace
  }

  /** Whether snapshot `i` lies outside the game segment. */
  predicate Outside(i: int, cfg: StackConfig) {
    i < cfg.gameStart || i > cfg.gameEnd
  }

  /** The `\pos` column of the entries of snapshot `i`. */
  function Column(i: int, cfg: StackConfig): int {
    if Outside(i, cfg) then OutsideX else cfg.startX
  }

  /** The offset added to every `\pos` row of the entries of snapshot `i`. */
  function Bonus(i: int, cfg: StackConfig): int {
    if Outside(i, cfg) then OutsideBonus else 0
  }

  /** One positioned entry: its `\pos` coordinates and its wrapped text. */
  datatype Placed = Placed(x: int, y: int, text: string)

  /** The entries for the texts of `shown`, stacked downwards from the top of
      the block, each one `row_space` times the line count of the one above
      it further down. */
  function Stack(shown: seq<string>, x: int, bonus: int, cfg: StackConfig): seq<Placed> {
    if shown == [] then []
    else
      var above := shown[..|shown| - 1];
      Stack(above, x, bonus, cfg)
        + [Placed(x, cfg.startY + Offset(above, cfg.rowSpace) + bonus, WrappedText(shown[|shown| - 1]))]
  }

  /** The entries of snapshot `i`: at most `capacity` of its texts, newest
      first, with `current_y` starting afresh at the top of the block. */
  function Placements(i: int, snap: Snapshot, cfg: StackConfig): seq<Placed> {
    Stack(Take(snap.danmus, cfg.capacity), Column(i, cfg), Bonus(i, cfg), cfg)
  }

  /** The offset of an entry is `row_space` times the rows of the entries
      above it. */
  lemma {:induction false} OffsetIsRows(above: seq<string>, rowSpace: int)
    ensures Offset(above, rowSpace) == rowSpace * SumLines(above)
  {
    if above != [] {
      var prefix := above[..|above| - 1];
      var last := LineCount(above[|above| - 1]);
      OffsetIsRows(prefix, rowSpace);
      assert SumLines(above) == SumLines(prefix) + last;
      MulDistributes(rowSpace, SumLines(prefix), last);
      assert last * rowSpace == rowSpace * last;
    }
  }

  lemma {:induction false} MulDistributes(r: int, a: int, b: int)
    ensures r * (a + b) == r * a + r * b
  {
  }

  /** The stack has one entry per text, in order, and entry `j` sits
      `row_space` times the rows of the entries before it below the top of
      the block. */
  lemma {:induction false} StackAt(shown: seq<string>, x: int, bonus: int, cfg: StackConfig)
    ensures |Stack(shown, x, bonus, cfg)| == |shown|
    ensures forall j :: 0 <= j < |shown| ==>
      Stack(shown, x, bonus, cfg)[j] == Placed(x, cfg.startY + cfg.rowSpace * SumLines(shown[..j]) + bonus, WrappedText(shown[j]))
  {
    if shown != [] {
      var n := |shown| - 1;
      var above := shown[..n];
      StackAt(above, x, bonus, cfg);
      OffsetIsRows(above, cfg.rowSpace);
      forall j | 0 <= j < |shown|
        ensures Stack(shown, x, bonus, cfg)[j] == Placed(x, cfg.startY + cfg.rowSpace * SumLines(shown[..j]) + bonus, WrappedText(shown[j]))
      {
        if j < n {
          assert above[..j] == shown[..j];
        }
      }
    }
  }

  /** Snapshot `i` shows `min(len(danmus), capacity)` entries, newest
      first: entry `j` is the `j`-th newest text, wrapped, in the snapshot's column, `row_space` times the rows of the
      newer entries below `start_y`, plus the snapshot's bonus. */
  lemma {:induction false} PlacementsAt(i: int, snap: Snapshot, cfg: StackConfig)
    requires cfg.capacity >= 0
    ensures var ps := Placements(i, snap, cfg);
      && |ps| == (if cfg.capacity < |snap.danmus| then cfg.capacity else |snap.danmus|)
      && forall j :: 0 <= j < |ps| ==>
           ps[j] == Placed(Column(i, cfg), cfg.startY + cfg.rowSpace * SumLines(snap.danmus[..j]) + Bonus(i, cfg),
                           WrappedText(snap.danmus[j]))
  {
    var shown := Take(snap.danmus, cfg.capacity);
    var ps := Placements(i, snap, cfg);
    assert ps == Stack(shown, Column(i, cfg), Bonus(i, cfg), cfg);
    StackAt(shown, Column(i, cfg), Bonus(i, cfg), cfg);
    forall j | 0 <= j < |ps|
      ensures ps[j] == Placed(Column(i, cfg), cfg.startY + cfg.rowSpace * SumLines(snap.danmus[..j]) + Bonus(i, cfg),
                              WrappedText(snap.danmus[j]))
    {
      assert shown[..j] == snap.danmus[..j] && shown[j] == snap.danmus[j];
    }
  }

  /** One line of the `[Events]` section. */
  function DialogueLine(startTc: string, endTc: string, p: Placed): string {
    "Dialogue: 0," + startTc + "," + endTc + ",Default,,0,0,0,,"
    + "{\\pos(" + IntToString(p.x) + ", " + IntToString(p.y) + ")}" + p.text + "\n"
  }

  /** The lines of a block: one per entry, all with the same interval. */
  function DialogueLines(startTc: string, endTc: string, ps: seq<Placed>): string {
    if ps == [] then ""
    else DialogueLines(startTc, endTc, ps[..|ps| - 1]) + DialogueLine(startTc, endTc, ps[|ps| - 1])
  }

  /** The block snapshot `i` contributes. */
  function Block(i: int, snap: Snapshot, cfg: StackConfig): string {
    DialogueLines(SecondsToTimecode(snap.startTime), SecondsToTimecode(snap.endTime), Placements(i, snap, cfg))
  }

  /** The blocks of all snapshots, in order. */
  function Blocks(snaps: seq<Snapshot>, cfg: StackConfig): string {
    if snaps == [] then ""
    else Blocks(snaps[..|snaps| - 1], cfg) + Block(|snaps| - 1, snaps[|snaps| - 1], cfg)
  }

  /** The whole subtitle document for a list of snapshots. */
  function CapacityAss(snaps: seq<Snapshot>, cfg: StackConfig, width: int, height: int): string {
    CapacityHeader(width, height) + Blocks(snaps, cfg)
  }

  /** Lines 237 to 271 of `generate_capacity_based_ass`: the document is
      the preamble followed by the block of every snapshot. */
  method SerializeSnapshots(snaps: seq<Snapshot>, cfg: StackConfig, width: int, height: int) returns (content: string)
    ensures content == CapacityAss(snaps, cfg, width, height)
  {
    content := CapacityHeader(width, height);
    content := AppendBlocks(content, snaps, cfg);
  }

  /** The loop over the snapshots, appending each block to `content`. */
  method AppendBlocks(start: string, snaps: seq<Snapshot>, cfg: StackConfig) returns (content: string)
    ensures content == start + Blocks(snaps, cfg)
  {
    content := start;
    for i := 0 to |snaps|
      invariant content == start + Blocks(snaps[..i], cfg)
    {
      var entry := snaps[i];
      var startTc := SecondsToTimecode(entry.startTime);
      var endTc := SecondsToTimecode(entry.endTime);
      var block := SerializeBlock(i, startTc, endTc, Take(entry.danmus, cfg.capacity), cfg);
      BlocksSnoc(snaps, i, cfg);
      AppendAssociates(start, Blocks(snaps[..i], cfg), block);
      content := content + block;
    }
    assert snaps[..|snaps|] == snaps;
  }

  /** The inner loop of the serialiser for snapshot `i`: one line per shown
      entry, `current_y` starting at the top of the block and advanced by the
      entry's line count times the row spacing. */
  method SerializeBlock(i: int, startTc: string, endTc: string, shown: seq<string>, cfg: StackConfig) returns (content: string)
    ensures content == DialogueLines(startTc, endTc, Stack(shown, Column(i, cfg), Bonus(i, cfg), cfg))
  {
    content := "";
    var currentY := cfg.startY;
    assert shown[..0] == [];
    for j := 0 to |shown|
      invariant content == DialogueLines(startTc, endTc, Stack(shown[..j], Column(i, cfg), Bonus(i, cfg), cfg))
      invariant currentY == cfg.startY + Offset(shown[..j], cfg.rowSpace)
    {
      var processedText, lines := ProcessText(shown[j], WrapChars);
      var yPos := currentY;
      var xPos, yBonus;
      if i < cfg.gameStart || i > cfg.gameEnd {
        xPos, yBonus := OutsideX, OutsideBonus;
      } else {
        xPos, yBonus := cfg.startX, 0;
      }
      var placed := Placed(xPos, yPos + yBonus, processedText);
      BlockStep(shown, j, startTc, endTc, i, cfg, content, placed);
      content := content + DialogueLine(startTc, endTc, placed);
      currentY := currentY + lines * cfg.rowSpace;
    }
    assert shown[..|shown|] == shown;
  }

  lemma {:induction false} BlocksSnoc(snaps: seq<Snapshot>, i: nat, cfg: StackConfig)
    requires i < |snaps|
    ensures Blocks(snaps[..i + 1], cfg) == Blocks(snaps[..i], cfg) + Block(i, snaps[i], cfg)
  {
    assert snaps[..i + 1][..i] == snaps[..i];
  }

  /** One iteration of the inner loop extends the block by the next entry. */
  lemma {:induction false} BlockStep(shown: seq<string>, j: nat, startTc: string, endTc: string, i: int, cfg: StackConfig,
                  content: string, placed: Placed)
    requires j < |shown|
    requires content == DialogueLines(startTc, endTc, Stack(shown[..j], Column(i, cfg), Bonus(i, cfg), cfg))
    requires placed == Placed(Column(i, cfg), cfg.startY + Offset(shown[..j], cfg.rowSpace) + Bonus(i, cfg), WrappedText(shown[j]))
    ensures content + DialogueLine(startTc, endTc, placed)
      == DialogueLines(startTc, endTc, Stack(shown[..j + 1], Column(i, cfg), Bonus(i, cfg), cfg))
    ensures Offset(shown[..j + 1], cfg.rowSpace) == Offset(shown[..j], cfg.rowSpace) + LineCount(shown[j]) * cfg.rowSpace
  {
    StackSnoc(shown, j, Column(i, cfg), Bonus(i, cfg), cfg);
    DialogueLinesSnoc(startTc, endTc, Stack(shown[..j], Column(i, cfg), Bonus(i, cfg), cfg), placed);
  }

  lemma {:induction false} StackSnoc(shown: seq<string>, j: nat, x: int, bonus: int, cfg: StackConfig)
    requires j < |shown|
    ensures Stack(shown[..j + 1], x, bonus, cfg)
      == Stack(shown[..j], x, bonus, cfg) + [Placed(x, cfg.startY + Offset(shown[..j], cfg.rowSpace) + bonus, WrappedText(shown[j]))]
    ensures Offset(shown[..j + 1], cfg.rowSpace) == Offset(shown[..j], cfg.rowSpace) + LineCount(shown[j]) * cfg.rowSpace
  {
    var s := shown[..j + 1];
    assert s[..|s| - 1] == shown[..j];
    assert s[|s| - 1] == shown[j];
    StackLast(s, x, bonus, cfg);
    OffsetLast(s, cfg.rowSpace);
  }

  /** `Stack` unfolded once. */
  lemma {:induction false} StackLast(s: seq<string>, x: int, bonus: int, cfg: StackConfig)
    requires s != []
    ensures Stack(s, x, bonus, cfg)
      == Stack(s[..|s| - 1], x, bonus, cfg) + [Placed(x, cfg.startY + Offset(s[..|s| - 1], cfg.rowSpace) + bonus, WrappedText(s[|s| - 1]))]
  {
  }

  /** `Offset` unfolded once. */
  lemma {:induction false} OffsetLast(s: seq<string>, rowSpace: int)
    requires s != []
    ensures Offset(s, rowSpace) == Offset(s[..|s| - 1], rowSpace) + LineCount(s[|s| - 1]) * rowSpace
  {
  }

  lemma {:induction false} DialogueLinesSnoc(startTc: string, endTc: string, ps: seq<Placed>, p: Placed)
    ensures DialogueLines(startTc, endTc, ps + [p]) == DialogueLines(startTc, endTc, ps) + DialogueLine(startTc, endTc, p)
  {
    assert (ps + [p])[..|ps|] == ps;
  }

  /** `generate_capacity_based_ass(danmu_clips, video_size)`, with the video
      length passed in. */
  method GenerateCapacityBasedAss(clips: seq<Danmu>, cfg: StackConfig, duration: real, width: int, height: int)
    returns (r: Result<string, WindowError>)
    ensures match CapacitySnapshots(clips, cfg.capacity, cfg.maxLines, duration)
      case Failure(e) => r == Failure(e)
      case Success(snaps) => r == Success(CapacityAss(snaps, cfg, width, height))
  {
    var snapshots := CollectSnapshots(clips, cfg.capacity, cfg.maxLines, duration);
    if snapshots.Failure? {
      return Failure(snapshots.error);
    }
    var content := SerializeSnapshots(snapshots.value, cfg, width, height);
    r := Success(content);
  }
}
