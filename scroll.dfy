/** The scrolling layout of `Merge.py`: comments are spread over horizontal
    layers in the top third of the video, each comment taking the first layer
    that is free at its time stamp (or, when none is, the layer that frees up
    first), and every comment becomes one `\move` line of an ASS document. */
module Scroll {
  import opened Text
  import opened Timeline

  /** The configuration values the scrolling layout reads. */
  datatype ScrollConfig = ScrollConfig(verticalLayers: int, minLayerHeight: int, scrollDuration: real)

  /** The defaults of `AppConfig`. */
  const DefaultScrollConfig := ScrollConfig(8, 50, 12.0)

  // -----------------------------------------------------------------------
  // Layer set-up (`_init_layer_system`)
  // -----------------------------------------------------------------------

  /** The two divisions of `_init_layer_system` that can divide by zero. */
  datatype GeometryError =
    | ZeroVerticalLayers   // `top_third_height / vertical_layers`
    | ZeroLayerHeight      // `top_third_height / layer_height`

  /** The computed layer height and the number of layers. */
  datatype Geometry = Geometry(layerHeight: real, layers: int)

  /** Python's `int()` on a number: the integer part, truncated towards zero. */
  function Truncate(x: real): (n: int)
    ensures 0.0 <= x ==> 0 <= n && n as real <= x < n as real + 1.0
    ensures x < 0.0 ==> n <= 0 && n as real - 1.0 < x <= n as real
  {
    if x >= 0.0 then x.Floor else -((-x).Floor)
  }

  /** `max(a, b)`. */
  function MaxReal(a: real, b: real): (m: real)
    ensures m >= a && m >= b && (m == a || m == b)
  {
    if b > a then b else a
  }

  /** `_init_layer_system` for a video `height` pixels high: the layer height
      is the minimum layer height or the top third split evenly over the
      configured layers, whichever is larger, and as many whole layers as fit
      into the top third are used. */
  function LayerGeometry(height: int, minLayerHeight: int, verticalLayers: int): (r: Result<Geometry, GeometryError>)
    ensures r == Failure(ZeroVerticalLayers) <==> verticalLayers == 0
    ensures r.Success? ==>
      && r.value.layerHeight >= minLayerHeight as real
      && r.value.layerHeight >= (height as real / 3.0) / verticalLayers as real
      && r.value.layerHeight != 0.0
  {
    var third := height as real / 3.0;
    if verticalLayers == 0 then Failure(ZeroVerticalLayers)
    else
      var layerHeight := MaxReal(minLayerHeight as real, third / verticalLayers as real);
      if layerHeight == 0.0 then Failure(ZeroLayerHeight)
      else Success(Geometry(layerHeight, Truncate(third / layerHeight)))
  }

  /** A video of non-negative height and a positive layer setting never get
      more layers than configured, and the layer height is positive. */
  lemma {:induction false} LayerCountBound(height: int, minLayerHeight: int, verticalLayers: int)
    requires height >= 0 && verticalLayers >= 1
    requires LayerGeometry(height, minLayerHeight, verticalLayers).Success?
    ensures var g := LayerGeometry(height, minLayerHeight, verticalLayers).value;
      g.layerHeight > 0.0 && 0 <= g.layers <= verticalLayers
  {
    var third := height as real / 3.0;
    var v := verticalLayers as real;
    var g := LayerGeometry(height, minLayerHeight, verticalLayers).value;
    assert third / v >= 0.0;
    assert g.layerHeight > 0.0;
    assert third / g.layerHeight <= v by {
      assert g.layerHeight * v >= (third / v) * v;
      DivideBound(third, g.layerHeight, v);
    }
  }

  lemma {:induction false} DivideBound(a: real, d: real, v: real)
    requires a >= 0.0 && d > 0.0 && v > 0.0 && d * v >= a
    ensures a / d <= v
  {
    assert a / d * d == a;
  }

  /** When the minimum layer height fits the configured number of layers into
      the top third, exactly the configured number of layers is used. */
  lemma {:induction false} LayerCountExact(height: int, minLayerHeight: int, verticalLayers: int)
    requires height > 0 && verticalLayers >= 1
    requires minLayerHeight as real <= (height as real / 3.0) / verticalLayers as real
    ensures LayerGeometry(height, minLayerHeight, verticalLayers) == Success(Geometry((height as real / 3.0) / verticalLayers as real, verticalLayers))
  {
    var third := height as real / 3.0;
    var v := verticalLayers as real;
    assert third / v > 0.0;
    assert third / (third / v) == v;
  }

  /** Either division by zero is the only way `_init_layer_system` fails:
      with a non-zero layer setting, it fails exactly when the larger of the
      minimum height and the even split is zero. */
  lemma {:induction false} LayerGeometryFails(height: int, minLayerHeight: int, verticalLayers: int)
    requires verticalLayers != 0
    ensures (LayerGeometry(height, minLayerHeight, verticalLayers) == Failure(ZeroLayerHeight))
      <==> (minLayerHeight <= 0 && (height as real / 3.0) / verticalLayers as real <= 0.0
            && (minLayerHeight == 0 || height == 0))
  {
    var third := height as real / 3.0;
    var v := verticalLayers as real;
    if height != 0 {
      assert third != 0.0;
      assert third / v != 0.0 by {
        if third / v == 0.0 {
          assert third == third / v * v;
        }
      }
    }
  }

  // -----------------------------------------------------------------------
  // Layer choice (`_allocate_layer`)
  // -----------------------------------------------------------------------

  /** `min()` of an empty list raises `ValueError`. */
  datatype AllocError = NoLayers

  /** The first layer that is free at time `t`: its last comment has left
      the screen by then. */
  function FirstFree(endTimes: seq<real>, t: real): (r: Option<nat>)
    ensures r.Some? ==> r.value < |endTimes| && endTimes[r.value] <= t
    ensures r.Some? ==> forall j :: 0 <= j < r.value ==> endTimes[j] > t
    ensures r.None? <==> forall j :: 0 <= j < |endTimes| ==> endTimes[j] > t
  {
    if endTimes == [] then None
    else if t >= endTimes[0] then Some(0)
    else match FirstFree(endTimes[1..], t)
      case None => None
      case Some(i) => Some(i + 1)
  }

  /** `min(end_times)`. */
  function Minimum(endTimes: seq<real>): (m: real)
    requires endTimes != []
    ensures m in endTimes && forall j :: 0 <= j < |endTimes| ==> m <= endTimes[j]
  {
    if |endTimes| == 1 then endTimes[0]
    else
      var rest := Minimum(endTimes[1..]);
      if endTimes[0] <= rest then endTimes[0] else rest
  }

  /** `end_times.index(v)`: the first position holding `v`. */
  function FirstIndex(endTimes: seq<real>, v: real): (i: nat)
    requires v in endTimes
    ensures i < |endTimes| && endTimes[i] == v && forall j :: 0 <= j < i ==> endTimes[j] != v
  {
    if endTimes[0] == v then 0 else FirstIndex(endTimes[1..], v) + 1
  }

  /** `_allocate_layer(start_time)`. */
  function AllocateLayer(endTimes: seq<real>, t: real): (r: Result<nat, AllocError>)
    ensures r.Failure? <==> endTimes == []
    ensures r.Success? ==> r.value < |endTimes|
    // A free layer exists: the lowest free one is taken.
    ensures r.Success? && (exists j :: 0 <= j < |endTimes| && endTimes[j] <= t) ==>
      endTimes[r.value] <= t && forall j :: 0 <= j < r.value ==> endTimes[j] > t
    // No free layer: the lowest of the layers that free up first is taken.
    ensures r.Success? && (forall j :: 0 <= j < |endTimes| ==> endTimes[j] > t) ==>
      && (forall j :: 0 <= j < |endTimes| ==> endTimes[r.value] <= endTimes[j])
      && (forall j :: 0 <= j < r.value ==> endTimes[r.value] < endTimes[j])
  {
    match FirstFree(endTimes, t)
    case Some(i) => Success(i)
    case None =>
      if endTimes == [] then Failure(NoLayers)
      else Success(FirstIndex(endTimes, Minimum(endTimes)))
  }

  // -----------------------------------------------------------------------
  // The allocation loop of `generate_danmu_clips`
  // -----------------------------------------------------------------------

  /** A `DanmuInfo` of the scrolling layout. The scroll speed is a constant
      of the configuration and the rendered width is not modelled. */
  datatype ScrollClip = ScrollClip(text: string, startTime: real, endTime: real, layer: nat)

  /** The layers' end times and the clips after the rows of `rows`, in table
      order, starting from the end times `endTimes`. */
  function AllocateAll(endTimes: seq<real>, rows: seq<Row>, scrollDuration: real, duration: real)
    : (r: Result<(seq<real>, seq<ScrollClip>), AllocError>)
    ensures r.Success? ==> |r.value.0| == |endTimes| && |r.value.1| == |rows|
    ensures r.Success? ==> forall i :: 0 <= i < |rows| ==> r.value.1[i].layer < |endTimes|
  {
    if rows == [] then Success((endTimes, []))
    else
      var row := rows[|rows| - 1];
      match AllocateAll(endTimes, rows[..|rows| - 1], scrollDuration, duration)
      case Failure(e) => Failure(e)
      case Success(state) =>
        match AllocateLayer(state.0, row.time)
        case Failure(e) => Failure(e)
        case Success(layer) =>
          var end := ShownUntil(row.time, scrollDuration, duration);
          Success((state.0[layer := end], state.1 + [ScrollClip(row.text, row.time, end, layer)]))
  }

  /** One more row: the allocation so far, then the layer chosen for it. */
  lemma {:induction false} AllocateAllStep(endTimes: seq<real>, rows: seq<Row>, i: nat, state: (seq<real>, seq<ScrollClip>),
                                           layer: nat, scrollDuration: real, duration: real)
    requires i < |rows|
    requires AllocateAll(endTimes, rows[..i], scrollDuration, duration) == Success(state)
    requires AllocateLayer(state.0, rows[i].time) == Success(layer)
    ensures var end := ShownUntil(rows[i].time, scrollDuration, duration);
      AllocateAll(endTimes, rows[..i + 1], scrollDuration, duration)
        == Success((state.0[layer := end], state.1 + [ScrollClip(rows[i].text, rows[i].time, end, layer)]))
  {
    assert rows[..i + 1][..i] == rows[..i];
  }

  /** The end time of the last of `clips` on `layer`, or `initial` when none
      of them is on it. */
  function LastEnd(clips: seq<ScrollClip>, layer: nat, initial: real): real {
    if clips == [] then initial
    else if clips[|clips| - 1].layer == layer then clips[|clips| - 1].endTime
    else LastEnd(clips[..|clips| - 1], layer, initial)
  }

  /** The end times the clips `clips` leave behind, from `endTimes` on. */
  function EndsAfter(endTimes: seq<real>, clips: seq<ScrollClip>): (r: seq<real>)
    ensures |r| == |endTimes|
  {
    seq(|endTimes|, l requires 0 <= l < |endTimes| => LastEnd(clips, l, endTimes[l]))
  }

  /** Clip `i` comes from row `i` and was placed on one of the layers. */
  ghost predicate ClipOf(row: Row, clip: ScrollClip, scrollDuration: real, duration: real, layers: nat) {
    && clip.text == row.text
    && clip.startTime == row.time
    && clip.endTime == ShownUntil(row.time, scrollDuration, duration)
    && clip.layer < layers
  }

  /** The allocation fails exactly when there is a comment but no layer. */
  lemma {:induction false} AllocateAllFails(endTimes: seq<real>, rows: seq<Row>, scrollDuration: real, duration: real)
    ensures AllocateAll(endTimes, rows, scrollDuration, duration).Failure? <==> rows != [] && endTimes == []
  {
    if rows != [] {
      AllocateAllFails(endTimes, rows[..|rows| - 1], scrollDuration, duration);
    }
  }

  /** Comments are placed in table order, one clip per row; each clip shows
      its row's text from its row's time stamp until it has scrolled off or
      the video ends; every layer's end time is the end of the last clip on
      it (so only the chosen layer changes with each comment); and each clip's
      layer is the choice `_allocate_layer` makes on the end times left by the
      clips before it. */
  lemma {:induction false} AllocateAllClips(endTimes: seq<real>, rows: seq<Row>, scrollDuration: real, duration: real)
    requires AllocateAll(endTimes, rows, scrollDuration, duration).Success?
    ensures var (ends, clips) := AllocateAll(endTimes, rows, scrollDuration, duration).value;
      && |clips| == |rows|
      && ends == EndsAfter(endTimes, clips)
      && (forall i :: 0 <= i < |rows| ==> ClipOf(rows[i], clips[i], scrollDuration, duration, |endTimes|))
      && (forall i :: 0 <= i < |rows| ==>
            AllocateLayer(EndsAfter(endTimes, clips[..i]), rows[i].time) == Success(clips[i].layer))
  {
    AllocateAllEnds(endTimes, rows, scrollDuration, duration);
    AllocateAllFromRows(endTimes, rows, scrollDuration, duration);
    AllocateAllChoices(endTimes, rows, scrollDuration, duration);
  }

  /** The last row is allocated on the end times the rows before it left. */
  lemma {:induction false} AllocateAllLast(endTimes: seq<real>, rows: seq<Row>, scrollDuration: real, duration: real)
    requires rows != [] && AllocateAll(endTimes, rows, scrollDuration, duration).Success?
    ensures var n := |rows| - 1;
      var before := AllocateAll(endTimes, rows[..n], scrollDuration, duration);
      && before.Success?
      && AllocateLayer(before.value.0, rows[n].time).Success?
      && (var layer := AllocateLayer(before.value.0, rows[n].time).value;
          var end := ShownUntil(rows[n].time, scrollDuration, duration);
          AllocateAll(endTimes, rows, scrollDuration, duration).value
            == (before.value.0[layer := end], before.value.1 + [ScrollClip(rows[n].text, rows[n].time, end, layer)]))
  {
  }

  /** Every layer's end time is that of the last clip on it. */
  lemma {:induction false} AllocateAllEnds(endTimes: seq<real>, rows: seq<Row>, scrollDuration: real, duration: real)
    requires AllocateAll(endTimes, rows, scrollDuration, duration).Success?
    ensures var (ends, clips) := AllocateAll(endTimes, rows, scrollDuration, duration).value;
      ends == EndsAfter(endTimes, clips)
  {
    if rows != [] {
      var n := |rows| - 1;
      AllocateAllLast(endTimes, rows, scrollDuration, duration);
      AllocateAllEnds(endTimes, rows[..n], scrollDuration, duration);
      var clips := AllocateAll(endTimes, rows[..n], scrollDuration, duration).value.1;
      var clips' := AllocateAll(endTimes, rows, scrollDuration, duration).value.1;
      assert clips' == clips + [clips'[n]];
      EndsAfterSnoc(endTimes, clips, clips'[n]);
    }
  }

  /** Clip `i` shows row `i` on one of the layers. */
  lemma {:induction false} AllocateAllFromRows(endTimes: seq<real>, rows: seq<Row>, scrollDuration: real, duration: real)
    requires AllocateAll(endTimes, rows, scrollDuration, duration).Success?
    ensures var clips := AllocateAll(endTimes, rows, scrollDuration, duration).value.1;
      forall i :: 0 <= i < |rows| ==> ClipOf(rows[i], clips[i], scrollDuration, duration, |endTimes|)
  {
    if rows != [] {
      var n := |rows| - 1;
      AllocateAllLast(endTimes, rows, scrollDuration, duration);
      AllocateAllFromRows(endTimes, rows[..n], scrollDuration, duration);
      var clips := AllocateAll(endTimes, rows[..n], scrollDuration, duration).value.1;
      var clips' := AllocateAll(endTimes, rows, scrollDuration, duration).value.1;
      forall i | 0 <= i < |rows|
        ensures ClipOf(rows[i], clips'[i], scrollDuration, duration, |endTimes|)
      {
        if i < n {
          assert rows[..n][i] == rows[i] && clips'[i] == clips[i];
        }
      }
    }
  }

  /** Clip `i`'s layer is the choice made on the end times left by the
      clips before it. */
  lemma {:induction false} AllocateAllChoices(endTimes: seq<real>, rows: seq<Row>, scrollDuration: real, duration: real)
    requires AllocateAll(endTimes, rows, scrollDuration, duration).Success?
    ensures var clips := AllocateAll(endTimes, rows, scrollDuration, duration).value.1;
      forall i :: 0 <= i < |rows| ==>
        AllocateLayer(EndsAfter(endTimes, clips[..i]), rows[i].time) == Success(clips[i].layer)
  {
    if rows != [] {
      var n := |rows| - 1;
      AllocateAllLast(endTimes, rows, scrollDuration, duration);
      AllocateAllChoices(endTimes, rows[..n], scrollDuration, duration);
      AllocateAllEnds(endTimes, rows[..n], scrollDuration, duration);
      var clips := AllocateAll(endTimes, rows[..n], scrollDuration, duration).value.1;
      var clips' := AllocateAll(endTimes, rows, scrollDuration, duration).value.1;
      assert clips'[..n] == clips;
      forall i | 0 <= i < |rows|
        ensures AllocateLayer(EndsAfter(endTimes, clips'[..i]), rows[i].time) == Success(clips'[i].layer)
      {
        if i < n {
          assert rows[..n][i] == rows[i] && clips'[i] == clips[i];
          assert clips'[..i] == clips[..i];
        }
      }
    }
  }

  /** One more clip moves the end time of its own layer only. */
  lemma {:induction false} EndsAfterSnoc(endTimes: seq<real>, clips: seq<ScrollClip>, c: ScrollClip)
    requires c.layer < |endTimes|
    ensures EndsAfter(endTimes, clips + [c]) == EndsAfter(endTimes, clips)[c.layer := c.endTime]
  {
    assert (clips + [c])[..|clips|] == clips;
  }

  /** The last clip on a layer decides its end time. */
  lemma {:induction false} LastEndIsLastClip(clips: seq<ScrollClip>, j: nat, initial: real)
    requires j < |clips|
    requires forall m :: j < m < |clips| ==> clips[m].layer != clips[j].layer
    ensures LastEnd(clips, clips[j].layer, initial) == clips[j].endTime
  {
    if j < |clips| - 1 {
      var prefix := clips[..|clips| - 1];
      assert prefix[j] == clips[j];
      LastEndIsLastClip(prefix, j, initial);
    }
  }

  /** The choice made for comment `i`, on its own. */
  lemma {:induction false} AllocateAllChoice(endTimes: seq<real>, rows: seq<Row>, scrollDuration: real, duration: real,
                          clips: seq<ScrollClip>, i: nat)
    requires AllocateAll(endTimes, rows, scrollDuration, duration).Success?
    requires AllocateAll(endTimes, rows, scrollDuration, duration).value.1 == clips
    requires i < |rows|
    ensures |clips| == |rows| && clips[i].startTime == rows[i].time
    ensures AllocateLayer(EndsAfter(endTimes, clips[..i]), rows[i].time) == Success(clips[i].layer)
  {
    AllocateAllClips(endTimes, rows, scrollDuration, duration);
  }

  /** When some layer was free at a comment's time stamp, the comment does
      not overlap the previous comment on its layer: that one has scrolled
      off by the time the new one starts. */
  lemma {:induction false} NoOverlapWhenFree(endTimes: seq<real>, rows: seq<Row>, scrollDuration: real, duration: real,
                          clips: seq<ScrollClip>, i: nat, j: nat)
    requires AllocateAll(endTimes, rows, scrollDuration, duration).Success?
    requires AllocateAll(endTimes, rows, scrollDuration, duration).value.1 == clips
    requires j < i < |rows| == |clips|
    requires clips[j].layer == clips[i].layer && clips[i].layer < |endTimes|
    requires forall m :: j < m < i ==> clips[m].layer != clips[i].layer
    requires exists l :: 0 <= l < |endTimes| && LastEnd(clips[..i], l, endTimes[l]) <= rows[i].time
    ensures clips[j].endTime <= clips[i].startTime
  {
    AllocateAllChoice(endTimes, rows, scrollDuration, duration, clips, i);
    var before := clips[..i];
    var layer := clips[i].layer;
    var l :| 0 <= l < |endTimes| && LastEnd(before, l, endTimes[l]) <= rows[i].time;
    assert EndsAfter(endTimes, before)[l] <= rows[i].time;
    assert before[j] == clips[j];
    LastEndIsLastClip(before, j, endTimes[layer]);
  }

  /** When no layer was free, the comment goes to the lowest of the layers
      whose last comment leaves the screen first. */
  lemma {:induction false} LeastLoadedWhenFull(endTimes: seq<real>, rows: seq<Row>, scrollDuration: real, duration: real,
                            clips: seq<ScrollClip>, i: nat)
    requires AllocateAll(endTimes, rows, scrollDuration, duration).Success?
    requires AllocateAll(endTimes, rows, scrollDuration, duration).value.1 == clips
    requires i < |rows| == |clips| && clips[i].layer < |endTimes|
    requires forall l :: 0 <= l < |endTimes| ==> LastEnd(clips[..i], l, endTimes[l]) > rows[i].time
    ensures forall l :: 0 <= l < |endTimes| ==>
      LastEnd(clips[..i], clips[i].layer, endTimes[clips[i].layer]) <= LastEnd(clips[..i], l, endTimes[l])
    ensures forall l :: 0 <= l < clips[i].layer ==>
      LastEnd(clips[..i], clips[i].layer, endTimes[clips[i].layer]) < LastEnd(clips[..i], l, endTimes[l])
  {
    AllocateAllChoice(endTimes, rows, scrollDuration, duration, clips, i);
    var ends := EndsAfter(endTimes, clips[..i]);
    assert forall l :: 0 <= l < |endTimes| ==> ends[l] == LastEnd(clips[..i], l, endTimes[l]);
    assert forall l :: 0 <= l < |endTimes| ==> ends[l] > rows[i].time;
    var layer := clips[i].layer;
    assert forall l :: 0 <= l < |endTimes| ==> ends[layer] <= ends[l];
    assert forall l :: 0 <= l < layer ==> ends[layer] < ends[l];
  }

  // -----------------------------------------------------------------------
  // The layer system, updated in place
  // -----------------------------------------------------------------------

  /** The `layer_system` of a `DanmuProcessor`: the layer height and, per
      layer, the time at which the last comment placed on it has scrolled
      off. */
  class LayerSystem {
    const layerHeight: real
    const endTimes: array<real>

    /** The layer system of a geometry, with every layer free from time 0
        (`[0] * vertical_layers`, empty for a negative count). */
    constructor (g: Geometry)
      ensures layerHeight == g.layerHeight
      ensures endTimes.Length == if g.layers > 0 then g.layers else 0
      ensures forall l :: 0 <= l < endTimes.Length ==> endTimes[l] == 0.0
      ensures fresh(endTimes)
    {
      layerHeight := g.layerHeight;
      endTimes := new real[if g.layers > 0 then g.layers else 0](_ => 0.0);
    }

    /** `_allocate_layer(start_time)`: the scan for a free layer, then
        `index(min(...))`. */
    method Allocate(startTime: real) returns (r: Result<nat, AllocError>)
      ensures r == AllocateLayer(endTimes[..], startTime)
    {
      for layer := 0 to endTimes.Length
        invariant forall j :: 0 <= j < layer ==> endTimes[j] > startTime
      {
        if startTime >= endTimes[layer] {
          return Success(layer);
        }
      }
      if endTimes.Length == 0 {
        return Failure(NoLayers);
      }
      // `end_times.index(min(end_times))`: both are built-ins.
      r := Success(FirstIndex(endTimes[..], Minimum(endTimes[..])));
    }

    /** The allocation loop of `generate_danmu_clips` over the rows of the
        normalised table, in table order: each comment is given a layer, the
        layer's end time is moved to the comment's end, and a clip is
        recorded. */
    method GenerateDanmuClips(rows: seq<Row>, scrollDuration: real, duration: real)
      returns (r: Result<seq<ScrollClip>, AllocError>)
      modifies endTimes
      ensures match AllocateAll(old(endTimes[..]), rows, scrollDuration, duration)
        case Failure(e) => r == Failure(e) && endTimes[..] == old(endTimes[..])
        case Success(state) => r == Success(state.1) && endTimes[..] == state.0
    {
      var clips: seq<ScrollClip> := [];
      ghost var initial := endTimes[..];
      for i := 0 to |rows|
        invariant AllocateAll(initial, rows[..i], scrollDuration, duration) == Success((endTimes[..], clips))
      {
        var row := rows[i];
        var layer := Allocate(row.time);
        if layer.Failure? {
          AllocateAllFails(initial, rows, scrollDuration, duration);
          assert endTimes[..] == [] == initial;
          assert AllocateAll(initial, rows, scrollDuration, duration).error.NoLayers?;
          return Failure(layer.error);
        }
        ghost var before := endTimes[..];
        AllocateAllStep(initial, rows, i, (before, clips), layer.value, scrollDuration, duration);
        var end := ShownUntil(row.time, scrollDuration, duration);
        endTimes[layer.value] := end;
        assert endTimes[..] == before[layer.value := end];
        clips := clips + [ScrollClip(row.text, row.time, end, layer.value)];
      }
      assert rows[..|rows|] == rows;
      r := Success(clips);
    }
  }

  /** `_init_layer_system` for a video `height` pixels high. */
  method InitLayerSystem(height: int, cfg: ScrollConfig) returns (r: Result<LayerSystem, GeometryError>)
    ensures match LayerGeometry(height, cfg.minLayerHeight, cfg.verticalLayers)
      case Failure(e) => r == Failure(e)
      case Success(g) =>
        && r.Success? && fresh(r.value) && fresh(r.value.endTimes)
        && r.value.layerHeight == g.layerHeight
        && r.value.endTimes[..] == seq(if g.layers > 0 then g.layers else 0, _ => 0.0)
  {
    var g := LayerGeometry(height, cfg.minLayerHeight, cfg.verticalLayers);
    if g.Failure? {
      return Failure(g.error);
    }
    var system := new LayerSystem(g.value);
    r := Success(system);
  }
}
