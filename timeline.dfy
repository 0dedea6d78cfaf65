/** `DanmuProcessor._load_data`, identical in both generators: the raw comment
    table is cut at the configured start comment, re-based so that the start
    comment is at time zero, converted from milliseconds to seconds, and
    cut off after the video's end. The table is not sorted. */
module Timeline {
  import opened Text

  /** One row of the comment table: its time stamp and its text. */
  datatype Row = Row(time: real, text: string)

  datatype LoadError =
    | InsufficientData   // fewer rows than the start index (the ValueError)
    | MissingBaseline    // a start index below 1 names no row (the KeyError of `.loc`)

  /** Every row of `rows` re-based to `baseline` and converted to seconds. */
  function Rebase(rows: seq<Row>, baseline: real): (r: seq<Row>)
    ensures |r| == |rows|
    ensures forall i :: 0 <= i < |rows| ==> r[i] == Row((rows[i].time - baseline) / 1000.0, rows[i].text)
  {
    seq(|rows|, i requires 0 <= i < |rows| => Row((rows[i].time - baseline) / 1000.0, rows[i].text))
  }

  /** The rows whose time is at most `duration`, in their order. */
  function KeepUntil(rows: seq<Row>, duration: real): (r: seq<Row>)
    ensures |r| <= |rows|
    ensures forall row :: row in r ==> row in rows && row.time <= duration
  {
    if rows == [] then []
    else
      var rest := KeepUntil(rows[..|rows| - 1], duration);
      var last := rows[|rows| - 1];
      if last.time <= duration then rest + [last] else rest
  }

  /** Filtering distributes over concatenation, so the kept rows keep the
      table's order. */
  lemma {:induction false} KeepUntilAppend(a: seq<Row>, b: seq<Row>, duration: real)
    ensures KeepUntil(a + b, duration) == KeepUntil(a, duration) + KeepUntil(b, duration)
  {
    if b == [] {
      assert a + b == a;
    } else {
      assert (a + b)[..|a + b| - 1] == a + b[..|b| - 1];
      KeepUntilAppend(a, b[..|b| - 1], duration);
    }
  }

  /** A row within the duration is never dropped. */
  lemma {:induction false} KeepUntilKeeps(rows: seq<Row>, duration: real, i: nat)
    requires i < |rows| && rows[i].time <= duration
    ensures rows[i] in KeepUntil(rows, duration)
  {
    if i < |rows| - 1 {
      KeepUntilKeeps(rows[..|rows| - 1], duration, i);
    }
  }

  /** `_load_data` on an already read table. */
  function Normalize(rows: seq<Row>, startIndex: int, duration: real): (r: Result<seq<Row>, LoadError>)
    ensures r.Failure? <==> |rows| < startIndex || startIndex < 1
    ensures r == Failure(InsufficientData) <==> |rows| < startIndex
    ensures r.Success? ==> forall row :: row in r.value ==> row.time <= duration
  {
    if |rows| < startIndex then Failure(InsufficientData)
    else if startIndex < 1 then Failure(MissingBaseline)
    else
      var kept := rows[startIndex - 1..];
      Success(KeepUntil(Rebase(kept, kept[0].time), duration))
  }

  /** Row `j` of the table as `_load_data` re-bases it on the start comment. */
  function RebasedRow(rows: seq<Row>, startIndex: int, j: int): Row
    requires 1 <= startIndex <= |rows| && 0 <= j < |rows|
  {
    Row((rows[j].time - rows[startIndex - 1].time) / 1000.0, rows[j].text)
  }

  /** Every row from the start comment on whose re-based time is within the
      video is kept. */
  lemma {:induction false} NormalizeKeepsInWindow(rows: seq<Row>, startIndex: int, duration: real, j: int)
    requires 1 <= startIndex <= |rows| && startIndex - 1 <= j < |rows|
    requires RebasedRow(rows, startIndex, j).time <= duration
    ensures RebasedRow(rows, startIndex, j) in Normalize(rows, startIndex, duration).value
  {
    var kept := rows[startIndex - 1..];
    var rebased := Rebase(kept, kept[0].time);
    assert rebased[j - (startIndex - 1)] == RebasedRow(rows, startIndex, j);
    KeepUntilKeeps(rebased, duration, j - (startIndex - 1));
  }

  /** Every kept row is a re-based row from the start comment on. */
  lemma {:induction false} NormalizeKeepsOnlyRebased(rows: seq<Row>, startIndex: int, duration: real, row: Row)
    requires 1 <= startIndex <= |rows|
    requires row in Normalize(rows, startIndex, duration).value
    ensures exists j :: startIndex - 1 <= j < |rows| && row == RebasedRow(rows, startIndex, j)
  {
    var kept := rows[startIndex - 1..];
    var rebased := Rebase(kept, kept[0].time);
    var k :| 0 <= k < |rebased| && rebased[k] == row;
    assert row == RebasedRow(rows, startIndex, k + startIndex - 1);
  }

  /** The start comment itself comes first, at time zero, unless the
      duration is negative. */
  lemma {:induction false} NormalizeStartsAtZero(rows: seq<Row>, startIndex: int, duration: real)
    requires 1 <= startIndex <= |rows| && 0.0 <= duration
    ensures var r := Normalize(rows, startIndex, duration).value;
      |r| >= 1 && r[0] == Row(0.0, rows[startIndex - 1].text)
  {
    var kept := rows[startIndex - 1..];
    var rebased := Rebase(kept, kept[0].time);
    assert rebased == [rebased[0]] + rebased[1..];
    KeepUntilAppend([rebased[0]], rebased[1..], duration);
    assert KeepUntil([rebased[0]], duration) == [rebased[0]] by {
      assert [rebased[0]][..0] == [];
    }
  }

  /** When a comment stamped `start` leaves the screen: after the scroll
      duration, or at the end of the video if that comes first
      (`start_time + min(scroll_duration, duration - start_time)`). */
  function ShownUntil(start: real, scrollDuration: real, duration: real): (t: real)
    ensures t <= start + scrollDuration && t <= duration
    ensures t == start + scrollDuration || t == duration
  {
    start + (if scrollDuration <= duration - start then scrollDuration else duration - start)
  }
}
