/** `ASSGenerator.generate` of `Merge.py`: one style per configured layer and
    one `Dialogue` line per clip, in clip order, that moves the comment from
    the right edge of the video to 500 pixels past its left edge along its
    layer's row. */
module ScrollAss {
  import opened Text
  import opened Timecode
  import opened Timeline
  import opened Scroll

  /** Where every comment ends its move: 500 pixels left of the video. */
  const MoveEndX := -500

  /** The `[Script Info]` and `[V4+ Styles]` preamble. */
  function ScrollHeader(width: int, height: int): string {
    "[Script Info]\n; Generated by Danmu Processor\nTitle: Danmu Subtitles\n"
    + "ScriptType: v4.00+\nWrapStyle: 0\nScaledBorderAndShadow: yes\n"
    + "YCbCr Matrix: TV.601\n"
    + "PlayResX: " + IntToString(width) + "\nPlayResY: " + IntToString(height) + "\n\n"
    + "[V4+ Styles]\n"
    + "Format: Name, Fontname, Fontsize, PrimaryColour, SecondaryColour, "
    + "OutlineColour, BackColour, Bold, Italic, Underline, StrikeOut, "
    + "ScaleX, ScaleY, Spacing, Angle, BorderStyle, Outline, Shadow, "
    + "Alignment, MarginL, MarginR, MarginV, Encoding\n"
  }

  /** A `Dialogue:` line of the `[Events]` section: its 10 fields joined by
      commas. */
  function DialogueLine(fields: seq<string>): string {
    "Dialogue: " + Join(fields, ",") + "\n"
  }

  /** The style of one layer: its name and its vertical margin. */
  datatype LayerStyle = LayerStyle(layer: int, marginV: int)

  /** The style fields every layer shares: SimHei 40, black text with a
      white outline, top-left aligned. */
  const StyleBody := ",SimHei,40,&H00000000,&H000000FF,&H00FFFFFF,&H80000000,-1,0,0,0,100,100,0,0,1,2,0,7,0,0,"

  /** The style line of a layer: `Layer{k}`, the shared fields, then its
      vertical margin. */
  function StyleText(s: LayerStyle): string {
    "Style: Layer" + IntToString(s.layer) + StyleBody + IntToString(s.marginV) + ",0\n"
  }

  /** The styles of `range(n)`, layer `k` with margin `k * layer_height`. */
  function LayerStyles(n: int, layerHeight: int): seq<LayerStyle>
    decreases n
  {
    if n <= 0 then [] else LayerStyles(n - 1, layerHeight) + [LayerStyle(n - 1, (n - 1) * layerHeight)]
  }

  /** The `[Events]` heading, preceded by a blank line. */
  const EventsHeader: string :=
    "\n[Events]\n"
    + "Format: Layer, Start, End, Style, Name, MarginL, MarginR, MarginV, Effect, Text\n"

  /** The event of one clip: its interval, its layer's style, and the row it
      moves along from `fromX` to 500 pixels left of the video. */
  datatype MoveEvent = MoveEvent(startTime: real, endTime: real, layer: int, fromX: int, y: int, text: string)

  /** The event `generate` writes for a clip: from the right edge of the video
      along the row `layer * min_layer_height`. */
  function EventOf(c: ScrollClip, width: int, layerHeight: int): MoveEvent {
    MoveEvent(c.startTime, c.endTime, c.layer, width, c.layer * layerHeight, c.text)
  }

  /** The events of the clips, in order. */
  function MoveEvents(clips: seq<ScrollClip>, width: int, layerHeight: int): seq<MoveEvent> {
    if clips == [] then []
    else MoveEvents(clips[..|clips| - 1], width, layerHeight) + [EventOf(clips[|clips| - 1], width, layerHeight)]
  }

  /** The `Dialogue:` line of an event, its text prefixed by the `\move`
      override. */
  function MoveText(e: MoveEvent): string {
    var move := "{\\move(" + IntToString(e.fromX) + ", " + IntToString(e.y) + ", "
      + IntToString(MoveEndX) + ", " + IntToString(e.y) + ")}";
    DialogueLine(["0", SecondsToTimecode(e.startTime), SecondsToTimecode(e.endTime), "Layer" + IntToString(e.layer),
      "", "0", "0", "0", "", move + e.text])
  }

  /** The lines of some items, in order, each as `line` renders it. */
  function Render<T>(items: seq<T>, line: T -> string): string {
    if items == [] then "" else Render(items[..|items| - 1], line) + line(items[|items| - 1])
  }

  /** The document `generate` returns. The styles follow the configured
      number of layers and the rows use the minimum layer height, whatever
      `_init_layer_system` computed. */
  function ScrollAss(clips: seq<ScrollClip>, cfg: ScrollConfig, width: int, height: int): string {
    ScrollHeader(width, height) + Render(LayerStyles(cfg.verticalLayers, cfg.minLayerHeight), StyleText)
    + EventsHeader + Render(MoveEvents(clips, width, cfg.minLayerHeight), MoveText)
  }

  /** `ASSGenerator.generate(danmu_clips, video_size, config)`. */
  method Generate(clips: seq<ScrollClip>, width: int, height: int, cfg: ScrollConfig) returns (content: string)
    ensures content == ScrollAss(clips, cfg, width, height)
  {
    content := ScrollHeader(width, height);
    content := AppendStyles(content, cfg.verticalLayers, cfg.minLayerHeight);
    content := content + EventsHeader;
    content := AppendMoves(content, clips, width, cfg.minLayerHeight);
  }

  /** The loop over `range(vertical_layers)`: one style line per layer. */
  method AppendStyles(start: string, n: int, layerHeight: int) returns (content: string)
    ensures content == start + Render(LayerStyles(n, layerHeight), StyleText)
  {
    content := AppendLines(start, LayerStyles(n, layerHeight), StyleText);
  }

  /** The loop over the clips: one `Dialogue:` line per clip. */
  method AppendMoves(start: string, clips: seq<ScrollClip>, width: int, layerHeight: int) returns (content: string)
    ensures content == start + Render(MoveEvents(clips, width, layerHeight), MoveText)
  {
    content := AppendLines(start, MoveEvents(clips, width, layerHeight), MoveText);
  }

  /** `ass_content += line` for each item in turn. */
  method AppendLines<T>(start: string, items: seq<T>, line: T -> string) returns (content: string)
    ensures content == start + Render(items, line)
  {
    content := start;
    assert items[..0] == [];
    for i := 0 to |items|
      invariant content == start + Render(items[..i], line)
    {
      RenderSnoc(items[..i], items[i], line);
      assert items[..i + 1] == items[..i] + [items[i]];
      AppendAssociates(start, Render(items[..i], line), line(items[i]));
      content := content + line(items[i]);
    }
    assert items[..|items|] == items;
  }

  lemma {:induction false} RenderSnoc<T>(items: seq<T>, x: T, line: T -> string)
    ensures Render(items + [x], line) == Render(items, line) + line(x)
  {
    assert (items + [x])[..|items|] == items;
  }

  // -----------------------------------------------------------------------
  // What the document holds
  // -----------------------------------------------------------------------

  /** Exactly `vertical_layers` styles (none for a negative setting), the
      `k`-th named after layer `k` with margin `k * min_layer_height`. */
  lemma {:induction false} LayerStylesAt(n: int, layerHeight: int)
    ensures |LayerStyles(n, layerHeight)| == if n > 0 then n else 0
    ensures forall k :: 0 <= k < |LayerStyles(n, layerHeight)| ==>
      LayerStyles(n, layerHeight)[k] == LayerStyle(k, k * layerHeight)
    decreases n
  {
    if n > 0 {
      LayerStylesAt(n - 1, layerHeight);
    }
  }

  /** One event per clip, in clip order: shown over the clip's interval in
      the style of its layer, moving from the right edge of the video to 500
      pixels left of it along the row `layer * min_layer_height`. */
  lemma {:induction false} MoveEventsAt(clips: seq<ScrollClip>, width: int, layerHeight: int)
    ensures |MoveEvents(clips, width, layerHeight)| == |clips|
    ensures forall i :: 0 <= i < |clips| ==>
      MoveEvents(clips, width, layerHeight)[i]
        == MoveEvent(clips[i].startTime, clips[i].endTime, clips[i].layer, width, clips[i].layer * layerHeight, clips[i].text)
  {
    if clips != [] {
      var prefix := clips[..|clips| - 1];
      MoveEventsAt(prefix, width, layerHeight);
      forall i | 0 <= i < |clips| - 1
        ensures MoveEvents(clips, width, layerHeight)[i] == MoveEvents(prefix, width, layerHeight)[i]
      {
      }
    }
  }

  /** For a video of non-negative height and a positive layer setting, every
      clip the allocator places is on a layer that has its style in the
      document: the computed layer count never exceeds the configured one. */
  lemma {:induction false} StylesCoverLayers(height: int, cfg: ScrollConfig, rows: seq<Row>, duration: real, i: nat)
    requires height >= 0 && cfg.verticalLayers >= 1
    requires LayerGeometry(height, cfg.minLayerHeight, cfg.verticalLayers).Success?
    requires var g := LayerGeometry(height, cfg.minLayerHeight, cfg.verticalLayers).value;
      AllocateAll(seq(g.layers, _ => 0.0), rows, cfg.scrollDuration, duration).Success?
    requires i < |rows|
    ensures var g := LayerGeometry(height, cfg.minLayerHeight, cfg.verticalLayers).value;
      var c := AllocateAll(seq(g.layers, _ => 0.0), rows, cfg.scrollDuration, duration).value.1[i];
      LayerStyle(c.layer, c.layer * cfg.minLayerHeight) in LayerStyles(cfg.verticalLayers, cfg.minLayerHeight)
  {
    var g := LayerGeometry(height, cfg.minLayerHeight, cfg.verticalLayers).value;
    LayerCountBound(height, cfg.minLayerHeight, cfg.verticalLayers);
    var c := AllocateAll(seq(g.layers, _ => 0.0), rows, cfg.scrollDuration, duration).value.1[i];
    LayerStylesAt(cfg.verticalLayers, cfg.minLayerHeight);
    assert LayerStyles(cfg.verticalLayers, cfg.minLayerHeight)[c.layer] == LayerStyle(c.layer, c.layer * cfg.minLayerHeight);
  }
}
