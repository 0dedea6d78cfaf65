/** The stacked ("capacity") layout of `Merge-list-new.py`: each comment is
    mapped to a `DanmuInfo` with its end time and wrapped line count, the
    comments are sorted by start time, and a FIFO window bounded both by a
    number of comments and by a total number of wrapped lines slides over
    them, leaving one snapshot of its contents per interval between
    consecutive comments. */
module Window {
  import opened Text
  import opened Timeline
  import opened Wrap

  /** `max_chars=10`, written out at both calls of `_process_text`. */
  const WrapChars := 10

  /** The parts of `AppConfig` that the stacked layout reads. */
  datatype StackConfig = StackConfig(
    capacity: int,     // comment_block_capacity
    maxLines: int,     // comment_block_max_lines
    rowSpace: int,     // comment_row_space
    startX: int,       // comment_block_start_x
    startY: int,       // comment_block_start_y
    gameStart: int,    // gamestart
    gameEnd: int)      // gameend

  /** The values `AppConfig` is declared with. */
  const DefaultStackConfig := StackConfig(12, 16, 42, 1620, 100, 226, 2220 - 22)

  /** A `DanmuInfo` as the stacked layout uses it (its layer is always 0; the
      rendered pixel width and the scroll speed are not used by this layout). */
  datatype Danmu = Danmu(text: string, startTime: real, endTime: real, lines: nat)

  /** The number of lines `_process_text(text, max_chars=10)` reports. */
  function LineCount(text: string): (n: nat)
    ensures n == 0 <==> text == []
  {
    SegmentsConcat(text, 2 * WrapChars);
    |Segments(text, 2 * WrapChars)|
  }

  /** The per-row mapping `process_danmu`: the comment is shown from its time
      stamp for the scroll duration, cut short at the end of the video. */
  function MakeDanmu(row: Row, scrollDuration: real, duration: real): (d: Danmu)
    ensures d.text == row.text && d.startTime == row.time
    ensures d.endTime <= row.time + scrollDuration && d.endTime <= duration
    ensures d.endTime == row.time + scrollDuration || d.endTime == duration
    ensures d.lines == LineCount(row.text)
    // A comment of a normalised table ends no earlier than it starts.
    ensures row.time <= duration && 0.0 <= scrollDuration ==> d.startTime <= d.endTime
  {
    Danmu(row.text, row.time, ShownUntil(row.time, scrollDuration, duration), LineCount(row.text))
  }

  // -----------------------------------------------------------------------
  // Sorting by start time (Python's stable `sorted` with a key)
  // -----------------------------------------------------------------------

  ghost predicate SortedByStart(s: seq<Danmu>) {
    forall i, j :: 0 <= i < j < |s| ==> s[i].startTime <= s[j].startTime
  }

  /** Inserts `d` after every element that does not start later, so that
      comments with equal start times keep their relative order. */
  function InsertByStart(d: Danmu, s: seq<Danmu>): (r: seq<Danmu>)
    requires SortedByStart(s)
    ensures SortedByStart(r) && multiset(r) == multiset(s) + multiset{d}
    ensures |r| == |s| + 1 && (s == [] ==> r == [d]) && (s != [] ==> r[0] == d || r[0] == s[0])
  {
    if s == [] then [d]
    else if d.startTime < s[0].startTime then [d] + s
    else
      var rest := InsertByStart(d, s[1..]);
      assert s == [s[0]] + s[1..];
      [s[0]] + rest
  }

  function SortByStart(s: seq<Danmu>): (r: seq<Danmu>)
    ensures SortedByStart(r) && multiset(r) == multiset(s)
  {
    if s == [] then []
    else
      assert s == s[..|s| - 1] + [s[|s| - 1]];
      InsertByStart(s[|s| - 1], SortByStart(s[..|s| - 1]))
  }

  /** The comments of `s` that start at `t`, in their order in `s`. */
  function WithStart(s: seq<Danmu>, t: real): seq<Danmu> {
    if s == [] then [] else Own(s[0], t) + WithStart(s[1..], t)
  }

  /** `[d]` when `d` starts at `t`, otherwise nothing. */
  function Own(d: Danmu, t: real): seq<Danmu> {
    if d.startTime == t then [d] else []
  }

  lemma {:induction false} WithStartAppend(a: seq<Danmu>, b: seq<Danmu>, t: real)
    ensures WithStart(a + b, t) == WithStart(a, t) + WithStart(b, t)
  {
    if a == [] {
      assert a + b == b;
    } else {
      assert (a + b)[0] == a[0];
      assert (a + b)[1..] == a[1..] + b;
      WithStartAppend(a[1..], b, t);
      calc {
        WithStart(a + b, t);
        Own(a[0], t) + WithStart(a[1..] + b, t);
        Own(a[0], t) + (WithStart(a[1..], t) + WithStart(b, t));
        (Own(a[0], t) + WithStart(a[1..], t)) + WithStart(b, t);
      }
    }
  }

  lemma {:induction false} WithStartNone(s: seq<Danmu>, t: real)
    requires forall i :: 0 <= i < |s| ==> s[i].startTime > t
    ensures WithStart(s, t) == []
  {
    if s != [] {
      WithStartNone(s[1..], t);
    }
  }

  /** Inserting `d` places it after the comments of the sorted list that start
      at the same time as it, and moves no other comment of that time. */
  lemma {:induction false} InsertByStartStable(d: Danmu, s: seq<Danmu>, t: real)
    requires SortedByStart(s)
    ensures WithStart(InsertByStart(d, s), t) == WithStart(s, t) + Own(d, t)
    decreases |s|, 1
  {
    if s == [] {
      assert InsertByStart(d, s) == [d];
      assert WithStart([d], t) == Own(d, t) + WithStart([], t);
    } else if d.startTime < s[0].startTime {
      InsertBeforeStable(d, s, t);
    } else {
      InsertAfterStable(d, s, t);
    }
  }

  /** The case where `d` goes after the first comment of the list. */
  lemma {:induction false} InsertAfterStable(d: Danmu, s: seq<Danmu>, t: real)
    requires SortedByStart(s) && s != [] && s[0].startTime <= d.startTime
    ensures WithStart(InsertByStart(d, s), t) == WithStart(s, t) + Own(d, t)
    decreases |s|, 0
  {
    var rest := InsertByStart(d, s[1..]);
    assert InsertByStart(d, s) == [s[0]] + rest;
    InsertByStartStable(d, s[1..], t);
    ConsKeepsFilter(s[0], s[1..], rest, d, t);
    assert [s[0]] + s[1..] == s;
  }

  /** Putting the same comment in front of two lists whose filters differ by
      `Own(d, t)` keeps that difference. */
  lemma {:induction false} ConsKeepsFilter(x: Danmu, tl: seq<Danmu>, rest: seq<Danmu>, d: Danmu, t: real)
    requires WithStart(rest, t) == WithStart(tl, t) + Own(d, t)
    ensures WithStart([x] + rest, t) == WithStart([x] + tl, t) + Own(d, t)
  {
    WithStartAppend([x], rest, t);
    WithStartAppend([x], tl, t);
    calc {
      WithStart([x] + rest, t);
      WithStart([x], t) + (WithStart(tl, t) + Own(d, t));
      (WithStart([x], t) + WithStart(tl, t)) + Own(d, t);
    }
  }

  /** The case where `d` starts before the whole sorted list. */
  lemma {:induction false} InsertBeforeStable(d: Danmu, s: seq<Danmu>, t: real)
    requires SortedByStart(s) && s != [] && d.startTime < s[0].startTime
    ensures WithStart(InsertByStart(d, s), t) == WithStart(s, t) + Own(d, t)
  {
    assert InsertByStart(d, s) == [d] + s;
    WithStartAppend([d], s, t);
    assert WithStart([d], t) == Own(d, t) + WithStart([], t);
    if d.startTime == t {
      WithStartNone(s, t);
      assert WithStart([d] + s, t) == [d] + [];
    } else {
      assert Own(d, t) == [];
      assert WithStart([d] + s, t) == [] + WithStart(s, t);
    }
  }

  lemma {:induction false} SplitLast(s: seq<Danmu>)
    requires s != []
    ensures s == s[..|s| - 1] + [s[|s| - 1]]
  {
  }

  /** The sort is stable: for every start time, the comments that start then
      come out in their input order. */
  lemma {:induction false} SortByStartStable(s: seq<Danmu>, t: real)
    ensures WithStart(SortByStart(s), t) == WithStart(s, t)
  {
    if s != [] {
      var init, last := s[..|s| - 1], s[|s| - 1];
      SortByStartStable(init, t);
      InsertByStartStable(last, SortByStart(init), t);
      SplitLast(s);
      WithStartAppend(init, [last], t);
      assert WithStart([last], t) == Own(last, t) + WithStart([], t);
    }
  }

  // -----------------------------------------------------------------------
  // The window
  // -----------------------------------------------------------------------

  /** The three variables of the loop: the queued texts, their line counts
      and the running total of lines. */
  datatype Window = Window(queue: seq<string>, linesQueue: seq<int>, currentLines: int)

  /** One snapshot: an interval and the window's texts, newest first. */
  datatype Snapshot = Snapshot(startTime: real, endTime: real, danmus: seq<string>)

  /** `pop(0)` on an empty list (an IndexError). */
  datatype WindowError = PopFromEmpty

  /** Python's `s[::-1]`. */
  function Reverse(s: seq<string>): (r: seq<string>)
    ensures |r| == |s| && forall i :: 0 <= i < |s| ==> r[i] == s[|s| - 1 - i]
  {
    seq(|s|, i requires 0 <= i < |s| => s[|s| - 1 - i])
  }

  /** The oldest entry leaves the window. */
  function PopOldest(w: Window): Result<Window, WindowError> {
    if w.queue == [] || w.linesQueue == [] then Failure(PopFromEmpty)
    else Success(Window(w.queue[1..], w.linesQueue[1..], w.currentLines - w.linesQueue[0]))
  }

  /** The `while current_lines > max_lines` loop. */
  function Shrink(w: Window, maxLines: int): Result<Window, WindowError>
    decreases |w.queue|
  {
    if w.currentLines <= maxLines then Success(w)
    else match PopOldest(w)
      case Failure(e) => Failure(e)
      case Success(w') => Shrink(w', maxLines)
  }

  /** One comment enters the window: the oldest entry leaves first when the
      window is full, then the oldest entries leave while the line budget is
      exceeded. */
  function Admit(w: Window, d: Danmu, capacity: int, maxLines: int): Result<Window, WindowError> {
    var popped := if |w.queue| >= capacity then PopOldest(w) else Success(w);
    match popped
    case Failure(e) => Failure(e)
    case Success(w1) =>
      Shrink(Window(w1.queue + [d.text], w1.linesQueue + [d.lines], w1.currentLines + d.lines), maxLines)
  }

  /** The window and the interval snapshots after the comments of `sorted`:
      from the second comment on, each comment closes the interval that
      started at the previous one, and the snapshot of that interval is the
      window AFTER the closing comment was admitted. */
  function Scan(sorted: seq<Danmu>, capacity: int, maxLines: int): Result<(Window, seq<Snapshot>), WindowError> {
    if sorted == [] then Success((Window([], [], 0), []))
    else
      var prefix := sorted[..|sorted| - 1];
      var d := sorted[|sorted| - 1];
      match Scan(prefix, capacity, maxLines)
      case Failure(e) => Failure(e)
      case Success(state) =>
        match Admit(state.0, d, capacity, maxLines)
        case Failure(e) => Failure(e)
        case Success(w) =>
          if prefix == [] then Success((w, state.1))
          else Success((w, state.1 + [Snapshot(prefix[|prefix| - 1].startTime, d.startTime, Reverse(w.queue))]))
  }

  /** The snapshot list of `generate_capacity_based_ass`: the interval
      snapshots and a last one from the last comment to the end of the video. */
  function CapacitySnapshots(clips: seq<Danmu>, capacity: int, maxLines: int, duration: real): Result<seq<Snapshot>, WindowError> {
    var sorted := SortByStart(clips);
    match Scan(sorted, capacity, maxLines)
    case Failure(e) => Failure(e)
    case Success(state) =>
      if sorted == [] then Success(state.1)
      else Success(state.1 + [Snapshot(sorted[|sorted| - 1].startTime, duration, Reverse(state.0.queue))])
  }

  /** Lines 171 to 215 of `generate_capacity_based_ass`: the comments are
      taken in start-time order, each enters the window, and the snapshots are
      collected. */
  method CollectSnapshots(clips: seq<Danmu>, capacity: int, maxLines: int, duration: real)
    returns (r: Result<seq<Snapshot>, WindowError>)
    ensures r == CapacitySnapshots(clips, capacity, maxLines, duration)
  {
    var window := Window([], [], 0);
    var snapshots: seq<Snapshot> := [];
    var prevTime: Option<real> := None;
    var sorted := SortByStart(clips);
    for i := 0 to |sorted|
      invariant Scan(sorted[..i], capacity, maxLines) == Success((window, snapshots))
      invariant prevTime == if i == 0 then None else Some(sorted[i - 1].startTime)
    {
      var danmu := sorted[i];
      var admitted := Enter(window, danmu, capacity, maxLines);
      if admitted.Failure? {
        CollectFails(clips, i, capacity, maxLines, duration, window, snapshots);
        return Failure(PopFromEmpty);
      }
      ScanStep(sorted, i, capacity, maxLines, window, snapshots, admitted.value);
      window := admitted.value;
      if prevTime.Some? {
        snapshots := snapshots + [Snapshot(prevTime.value, danmu.startTime, Reverse(window.queue))];
      }
      prevTime := Some(danmu.startTime);
    }
    CollectDone(clips, capacity, maxLines, duration, window, snapshots);
    if prevTime.Some? {
      snapshots := snapshots + [Snapshot(prevTime.value, duration, Reverse(window.queue))];
    }
    r := Success(snapshots);
  }

  /** The body of the loop over the sorted comments: the queue, its line
      counts and the line total are updated in place, first for the capacity,
      then for the line budget. */
  method Enter(w: Window, d: Danmu, capacity: int, maxLines: int) returns (r: Result<Window, WindowError>)
    ensures r == Admit(w, d, capacity, maxLines)
  {
    var queue, linesQueue, currentLines := w.queue, w.linesQueue, w.currentLines;
    if |queue| >= capacity {
      if queue == [] || linesQueue == [] {
        return Failure(PopFromEmpty);
      }
      queue := queue[1..];
      currentLines := currentLines - linesQueue[0];
      linesQueue := linesQueue[1..];
    }
    queue := queue + [d.text];
    linesQueue := linesQueue + [d.lines];
    currentLines := currentLines + d.lines;
    ghost var admitted := Window(queue, linesQueue, currentLines);
    while currentLines > maxLines
      invariant Shrink(Window(queue, linesQueue, currentLines), maxLines) == Shrink(admitted, maxLines)
      decreases |queue|
    {
      if queue == [] || linesQueue == [] {
        return Failure(PopFromEmpty);
      }
      queue := queue[1..];
      currentLines := currentLines - linesQueue[0];
      linesQueue := linesQueue[1..];
    }
    r := Success(Window(queue, linesQueue, currentLines));
  }

  /** One more comment, admitted. */
  lemma {:induction false} ScanStep(s: seq<Danmu>, i: nat, capacity: int, maxLines: int, w: Window, snaps: seq<Snapshot>, w': Window)
    requires i < |s|
    requires Scan(s[..i], capacity, maxLines) == Success((w, snaps))
    requires Admit(w, s[i], capacity, maxLines) == Success(w')
    ensures Scan(s[..i + 1], capacity, maxLines) == Success((w', if i == 0 then snaps
      else snaps + [Snapshot(s[i - 1].startTime, s[i].startTime, Reverse(w'.queue))]))
  {
    assert s[..i + 1][..i] == s[..i];
  }

  /** A comment the window cannot admit fails the whole pass. */
  lemma {:induction false} CollectFails(clips: seq<Danmu>, i: nat, capacity: int, maxLines: int, duration: real, w: Window, snaps: seq<Snapshot>)
    requires i < |SortByStart(clips)|
    requires Scan(SortByStart(clips)[..i], capacity, maxLines) == Success((w, snaps))
    requires Admit(w, SortByStart(clips)[i], capacity, maxLines).Failure?
    ensures CapacitySnapshots(clips, capacity, maxLines, duration) == Failure(PopFromEmpty)
  {
    var sorted := SortByStart(clips);
    assert sorted[..i + 1] == sorted[..i] + [sorted[i]];
    ScanSnocFails(sorted[..i], sorted[i], capacity, maxLines, w, snaps);
    ScanFailureSticks(sorted, i + 1, capacity, maxLines);
    assert CapacitySnapshots(clips, capacity, maxLines, duration).error.PopFromEmpty?;
  }

  /** The pass over all comments succeeded. */
  lemma {:induction false} CollectDone(clips: seq<Danmu>, capacity: int, maxLines: int, duration: real, w: Window, snaps: seq<Snapshot>)
    requires Scan(SortByStart(clips)[..|SortByStart(clips)|], capacity, maxLines) == Success((w, snaps))
    ensures var sorted := SortByStart(clips);
      CapacitySnapshots(clips, capacity, maxLines, duration) == Success(if sorted == [] then snaps
        else snaps + [Snapshot(sorted[|sorted| - 1].startTime, duration, Reverse(w.queue))])
  {
    var sorted := SortByStart(clips);
    assert sorted[..|sorted|] == sorted;
  }

  /** One more comment, not admitted. */
  lemma {:induction false} ScanSnocFails(s: seq<Danmu>, d: Danmu, capacity: int, maxLines: int, w: Window, snaps: seq<Snapshot>)
    requires Scan(s, capacity, maxLines) == Success((w, snaps))
    requires Admit(w, d, capacity, maxLines).Failure?
    ensures Scan(s + [d], capacity, maxLines).Failure?
  {
    assert (s + [d])[..|s|] == s;
  }

  /** Once the scan fails it stays failed. */
  lemma {:induction false} ScanFailureSticks(s: seq<Danmu>, i: nat, capacity: int, maxLines: int)
    requires i <= |s| && Scan(s[..i], capacity, maxLines).Failure?
    ensures Scan(s, capacity, maxLines).Failure?
    decreases |s| - i
  {
    if i < |s| {
      assert s[..i + 1][..i] == s[..i];
      ScanFailureSticks(s, i + 1, capacity, maxLines);
    } else {
      assert s[..i] == s;
    }
  }

  // -----------------------------------------------------------------------
  // What the window keeps
  // -----------------------------------------------------------------------

  function Texts(s: seq<Danmu>): (r: seq<string>)
    ensures |r| == |s| && forall i :: 0 <= i < |s| ==> r[i] == s[i].text
  {
    seq(|s|, i requires 0 <= i < |s| => s[i].text)
  }

  function LinesOf(s: seq<Danmu>): (r: seq<int>)
    ensures |r| == |s| && forall i :: 0 <= i < |s| ==> r[i] == s[i].lines
  {
    seq(|s|, i requires 0 <= i < |s| => s[i].lines as int)
  }

  /** Python's `sum`. */
  function Sum(s: seq<int>): int {
    if s == [] then 0 else s[0] + Sum(s[1..])
  }

  lemma {:induction false} SumSnoc(s: seq<int>, x: int)
    ensures Sum(s + [x]) == Sum(s) + x
  {
    if s != [] {
      assert (s + [x])[1..] == s[1..] + [x];
      SumSnoc(s[1..], x);
    } else {
      assert [] + [x] == [x];
    }
  }

  lemma {:induction false} SumLinesNonNegative(s: seq<Danmu>)
    ensures Sum(LinesOf(s)) >= 0
  {
    if s != [] {
      assert LinesOf(s)[1..] == LinesOf(s[1..]);
      SumLinesNonNegative(s[1..]);
    }
  }

  /** The window holding the comments of `s` from position `k` on, with a
      line total that matches its line counts. */
  function Queued(s: seq<Danmu>, k: nat): Window
    requires k <= |s|
  {
    Window(Texts(s[k..]), LinesOf(s[k..]), Sum(LinesOf(s[k..])))
  }

  lemma {:induction false} PopQueued(s: seq<Danmu>, k: nat)
    requires k < |s|
    ensures PopOldest(Queued(s, k)) == Success(Queued(s, k + 1))
  {
    assert Texts(s[k..])[1..] == Texts(s[k + 1..]);
    assert LinesOf(s[k..])[1..] == LinesOf(s[k + 1..]);
  }

  /** The line budget loop evicts from the front until the total fits, and a
      newest comment that fits by itself is never evicted. */
  lemma {:induction false} ShrinkQueued(s: seq<Danmu>, k: nat, maxLines: int) returns (j: nat)
    requires k <= |s| && maxLines >= 0
    ensures k <= j <= |s| && Shrink(Queued(s, k), maxLines) == Success(Queued(s, j))
    ensures Sum(LinesOf(s[j..])) <= maxLines
    ensures k < |s| && s[|s| - 1].lines <= maxLines ==> j < |s|
    decreases |s| - k
  {
    if Sum(LinesOf(s[k..])) <= maxLines {
      j := k;
    } else {
      if k == |s| - 1 {
        assert LinesOf(s[k..]) == [s[k].lines as int];
        assert LinesOf(s[k..])[1..] == [];
      }
      PopQueued(s, k);
      j := ShrinkQueued(s, k + 1, maxLines);
    }
  }

  /** One comment enters a window that holds a suffix of `s` within capacity:
      the window then holds a suffix of `s + [d]`, still within capacity and
      within the line budget. */
  lemma {:induction false} AdmitQueued(s: seq<Danmu>, k: nat, d: Danmu, capacity: int, maxLines: int) returns (j: nat)
    requires k <= |s| && |s| - k <= capacity && capacity >= 1 && maxLines >= 0
    ensures k <= j <= |s| + 1 && Admit(Queued(s, k), d, capacity, maxLines) == Success(Queued(s + [d], j))
    ensures |s| + 1 - j <= capacity && Sum(LinesOf((s + [d])[j..])) <= maxLines
    ensures d.lines <= maxLines ==> j <= |s|
  {
    var k' := if |s| - k >= capacity then k + 1 else k;
    AdmitAppends(s, k, d, capacity, maxLines);
    j := ShrinkQueued(s + [d], k', maxLines);
  }

  /** Before the line budget loop, admitting a comment drops the oldest entry
      of a full window and appends the comment. */
  lemma {:induction false} AdmitAppends(s: seq<Danmu>, k: nat, d: Danmu, capacity: int, maxLines: int)
    requires k <= |s| && |s| - k <= capacity && capacity >= 1
    ensures var k' := if |s| - k >= capacity then k + 1 else k;
      Admit(Queued(s, k), d, capacity, maxLines) == Shrink(Queued(s + [d], k'), maxLines)
  {
    var k' := if |s| - k >= capacity then k + 1 else k;
    assert |Queued(s, k).queue| == |s| - k;
    if |s| - k >= capacity {
      PopQueued(s, k);
    }
    AppendQueued(s, k', d);
  }

  /** Appending a comment to the window of a suffix gives the window of the
      longer suffix. */
  lemma {:induction false} AppendQueued(s: seq<Danmu>, k: nat, d: Danmu)
    requires k <= |s|
    ensures var w := Queued(s, k);
      Window(w.queue + [d.text], w.linesQueue + [d.lines], w.currentLines + d.lines) == Queued(s + [d], k)
  {
    var t := s + [d];
    assert t[k..] == s[k..] + [d];
    assert Texts(t[k..]) == Texts(s[k..]) + [d.text];
    assert LinesOf(t[k..]) == LinesOf(s[k..]) + [d.lines];
    SumSnoc(LinesOf(s[k..]), d.lines);
  }

  /** The invariants of the window after any number of comments, when the
      capacity is at least one and the line budget is not negative: it holds
      the texts and line counts of a contiguous run of the latest comments
      (so appends come at the back and evictions only from the front), no
      more of them than the capacity, its line total is the sum of its line
      counts and within the budget, and the latest comment is in it unless it
      alone exceeds the budget. */
  lemma {:induction false} ScanWindow(s: seq<Danmu>, capacity: int, maxLines: int) returns (k: nat)
    requires capacity >= 1 && maxLines >= 0
    ensures k <= |s| && Scan(s, capacity, maxLines).Success?
    ensures var w := Scan(s, capacity, maxLines).value.0;
      && w.queue == Texts(s[k..]) && w.linesQueue == LinesOf(s[k..])
      && |w.queue| <= capacity
      && w.currentLines == Sum(w.linesQueue) <= maxLines
    ensures s != [] && s[|s| - 1].lines <= maxLines ==> k < |s|
  {
    if s == [] {
      k := 0;
    } else {
      var p, d := s[..|s| - 1], s[|s| - 1];
      var k0 := ScanWindow(p, capacity, maxLines);
      assert p + [d] == s;
      k := AdmitQueued(p, k0, d, capacity, maxLines);
    }
  }

  // -----------------------------------------------------------------------
  // The snapshots
  // -----------------------------------------------------------------------

  /** The window after the comments of `s`, when the pass over them succeeds. */
  function QueueAfter(s: seq<Danmu>, capacity: int, maxLines: int): seq<string>
    requires Scan(s, capacity, maxLines).Success?
  {
    Scan(s, capacity, maxLines).value.0.queue
  }

  lemma {:induction false} ScanPrefix(s: seq<Danmu>, capacity: int, maxLines: int)
    requires s != [] && Scan(s, capacity, maxLines).Success?
    ensures Scan(s[..|s| - 1], capacity, maxLines).Success?
  {
  }

  /** The interval snapshots after the comments of `s`, when the pass over
      them succeeds. */
  function SnapshotsAfter(s: seq<Danmu>, capacity: int, maxLines: int): seq<Snapshot>
    requires Scan(s, capacity, maxLines).Success?
  {
    Scan(s, capacity, maxLines).value.1
  }

  /** Snapshot `k` of the pass covers the interval from comment `k` to
      comment `k + 1` and holds the window, newest first, after comment
      `k + 1` was admitted. */
  ghost predicate IntervalSnapshot(s: seq<Danmu>, capacity: int, maxLines: int, k: nat, snap: Snapshot) {
    && k + 1 < |s|
    && Scan(s[..k + 2], capacity, maxLines).Success?
    && snap == Snapshot(s[k].startTime, s[k + 1].startTime, Reverse(QueueAfter(s[..k + 2], capacity, maxLines)))
  }

  /** The pass leaves one snapshot per pair of consecutive comments. */
  lemma {:induction false} ScanSnapshots(s: seq<Danmu>, capacity: int, maxLines: int)
    requires Scan(s, capacity, maxLines).Success?
    ensures |SnapshotsAfter(s, capacity, maxLines)| == (if s == [] then 0 else |s| - 1)
    ensures forall k :: 0 <= k < |SnapshotsAfter(s, capacity, maxLines)| ==>
      IntervalSnapshot(s, capacity, maxLines, k, SnapshotsAfter(s, capacity, maxLines)[k])
  {
    if s != [] {
      var p, d := s[..|s| - 1], s[|s| - 1];
      ScanPrefix(s, capacity, maxLines);
      ScanSnapshots(p, capacity, maxLines);
      var snaps := SnapshotsAfter(s, capacity, maxLines);
      var old_ := SnapshotsAfter(p, capacity, maxLines);
      forall k | 0 <= k < |snaps|
        ensures IntervalSnapshot(s, capacity, maxLines, k, snaps[k])
      {
        if k < |old_| {
          assert IntervalSnapshot(p, capacity, maxLines, k, old_[k]);
          assert s[..k + 2] == p[..k + 2];
          assert snaps[k] == old_[k];
        } else {
          assert s[..k + 2] == s;
        }
      }
    }
  }

  /** Snapshot `k` of `generate_capacity_based_ass`: it starts at comment `k`,
      ends at comment `k + 1` or, for the last comment, at the end of the
      video, and holds the window after comment `k + 1` was admitted (after
      the last comment, for the last snapshot). */
  ghost predicate SnapshotOf(sorted: seq<Danmu>, capacity: int, maxLines: int, duration: real, k: nat, snap: Snapshot) {
    var n := |sorted|;
    var upTo := if k + 2 <= n then k + 2 else n;
    && k < n
    && Scan(sorted[..upTo], capacity, maxLines).Success?
    && snap == Snapshot(sorted[k].startTime, if k + 1 < n then sorted[k + 1].startTime else duration,
                        Reverse(QueueAfter(sorted[..upTo], capacity, maxLines)))
  }

  /** The pass fails exactly when there is a comment and either the capacity
      is below one (the first comment pops from the empty queue) or the line
      budget is negative (even the empty queue exceeds it). */
  lemma {:induction false} CapacitySnapshotsFail(clips: seq<Danmu>, capacity: int, maxLines: int, duration: real)
    ensures CapacitySnapshots(clips, capacity, maxLines, duration).Failure?
      <==> |clips| >= 1 && (capacity < 1 || maxLines < 0)
  {
    var sorted := SortByStart(clips);
    assert |sorted| == |multiset(sorted)| == |clips|;
    if |clips| >= 1 && (capacity < 1 || maxLines < 0) {
      assert sorted[..1] == [sorted[0]];
      FirstCommentFails(sorted[0], capacity, maxLines);
      ScanFailureSticks(sorted, 1, capacity, maxLines);
    } else if capacity >= 1 && maxLines >= 0 {
      var _ := ScanWindow(sorted, capacity, maxLines);
    }
  }

  lemma {:induction false} FirstCommentFails(d: Danmu, capacity: int, maxLines: int)
    requires capacity < 1 || maxLines < 0
    ensures Scan([d], capacity, maxLines).Failure?
  {
    var empty := Window([], [], 0);
    assert [d][..0] == [];
    if capacity >= 1 {
      var w := Window([d.text], [d.lines], d.lines);
      assert [] + [d.text] == [d.text] && [] + [d.lines as int] == [d.lines as int];
      assert Admit(empty, d, capacity, maxLines) == Shrink(w, maxLines);
      assert [d.text][1..] == [] && [d.lines as int][1..] == [];
      assert PopOldest(w) == Success(empty);
      assert Shrink(empty, maxLines).Failure?;
    }
  }

  /** `n` comments give `n` snapshots, snapshot `k` as `SnapshotOf` says. */
  lemma {:induction false} CapacitySnapshotsShape(clips: seq<Danmu>, capacity: int, maxLines: int, duration: real)
    requires CapacitySnapshots(clips, capacity, maxLines, duration).Success?
    ensures var r := CapacitySnapshots(clips, capacity, maxLines, duration).value;
      && |r| == |clips|
      && forall k :: 0 <= k < |r| ==> SnapshotOf(SortByStart(clips), capacity, maxLines, duration, k, r[k])
  {
    var sorted := SortByStart(clips);
    var r := CapacitySnapshots(clips, capacity, maxLines, duration).value;
    assert |sorted| == |multiset(sorted)| == |clips|;
    if sorted != [] {
      ScanSnapshots(sorted, capacity, maxLines);
      var snaps := SnapshotsAfter(sorted, capacity, maxLines);
      assert r == snaps + [Snapshot(sorted[|sorted| - 1].startTime, duration, Reverse(QueueAfter(sorted, capacity, maxLines)))];
      forall k | 0 <= k < |r|
        ensures SnapshotOf(sorted, capacity, maxLines, duration, k, r[k])
      {
        if k < |snaps| {
          assert IntervalSnapshot(sorted, capacity, maxLines, k, snaps[k]);
        } else {
          assert sorted[..|sorted|] == sorted;
        }
      }
    }
  }

  /** The snapshots tile the timeline: each ends where the next starts, the
      last ends at the end of the video, and, the comments being sorted, no
      interval but the last runs backwards. */
  lemma {:induction false} CapacitySnapshotsContiguous(clips: seq<Danmu>, capacity: int, maxLines: int, duration: real)
    requires CapacitySnapshots(clips, capacity, maxLines, duration).Success?
    ensures var r := CapacitySnapshots(clips, capacity, maxLines, duration).value;
      && (forall k :: 0 <= k < |r| - 1 ==> r[k].endTime == r[k + 1].startTime && r[k].startTime <= r[k].endTime)
      && (r != [] ==> r[|r| - 1].endTime == duration)
  {
    CapacitySnapshotsShape(clips, capacity, maxLines, duration);
    var r := CapacitySnapshots(clips, capacity, maxLines, duration).value;
    var sorted := SortByStart(clips);
    forall k | 0 <= k < |r| - 1
      ensures r[k].endTime == r[k + 1].startTime && r[k].startTime <= r[k].endTime
    {
      assert SnapshotOf(sorted, capacity, maxLines, duration, k, r[k]);
      assert SnapshotOf(sorted, capacity, maxLines, duration, k + 1, r[k + 1]);
    }
    if r != [] {
      assert SnapshotOf(sorted, capacity, maxLines, duration, |r| - 1, r[|r| - 1]);
    }
  }

  /** The last snapshot repeats the window of the one before it: both hold
      the window after the last comment. */
  lemma {:induction false} CapacitySnapshotsLastTwo(clips: seq<Danmu>, capacity: int, maxLines: int, duration: real)
    requires CapacitySnapshots(clips, capacity, maxLines, duration).Success?
    requires |clips| >= 2
    ensures var r := CapacitySnapshots(clips, capacity, maxLines, duration).value;
      |r| >= 2 && r[|r| - 2].danmus == r[|r| - 1].danmus
  {
    CapacitySnapshotsShape(clips, capacity, maxLines, duration);
    var r := CapacitySnapshots(clips, capacity, maxLines, duration).value;
    var sorted := SortByStart(clips);
    assert SnapshotOf(sorted, capacity, maxLines, duration, |r| - 2, r[|r| - 2]);
    assert SnapshotOf(sorted, capacity, maxLines, duration, |r| - 1, r[|r| - 1]);
  }

  /** Three one-line comments and a window of two: the first interval
      already shows the second comment, and the last window is shown twice. */
  lemma {:induction false} CapacitySnapshotsExample()
    ensures CapacitySnapshots([ExampleA, ExampleB, ExampleC], 2, 16, 10.0)
      == Success([Snapshot(1.0, 2.0, ["b", "a"]), Snapshot(2.0, 3.0, ["c", "b"]), Snapshot(3.0, 10.0, ["c", "b"])])
  {
    ExampleSorted();
    ExampleScan();
    var s1, s2, s3 := Snapshot(1.0, 2.0, ["b", "a"]), Snapshot(2.0, 3.0, ["c", "b"]), Snapshot(3.0, 10.0, ["c", "b"]);
    assert Reverse(["b", "c"]) == ["c", "b"];
    assert [s1, s2] + [s3] == [s1, s2, s3];
  }

  const ExampleA := Danmu("a", 1.0, 9.0, 1)
  const ExampleB := Danmu("b", 2.0, 9.0, 1)
  const ExampleC := Danmu("c", 3.0, 9.0, 1)

  lemma {:induction false} ExampleSorted()
    ensures SortByStart([ExampleA, ExampleB, ExampleC]) == [ExampleA, ExampleB, ExampleC]
  {
    var a, b, c := ExampleA, ExampleB, ExampleC;
    ExampleSortedTwo();
    assert [a, b, c][..2] == [a, b];
    ExampleInsertLast();
  }

  lemma {:induction false} ExampleSortedTwo()
    ensures SortByStart([ExampleA, ExampleB]) == [ExampleA, ExampleB]
  {
    var a, b := ExampleA, ExampleB;
    assert [a][..0] == [];
    assert SortByStart([a]) == InsertByStart(a, []) == [a];
    assert [a, b][..1] == [a];
    assert InsertByStart(b, [a]) == [a] + InsertByStart(b, [a][1..]);
    assert [a][1..] == [];
  }

  lemma {:induction false} ExampleInsertLast()
    ensures InsertByStart(ExampleC, [ExampleA, ExampleB]) == [ExampleA, ExampleB, ExampleC]
  {
    var a, b, c := ExampleA, ExampleB, ExampleC;
    assert InsertByStart(c, [a, b]) == [a] + InsertByStart(c, [b]);
    assert [a, b][1..] == [b] && [b][1..] == [];
    assert InsertByStart(c, [b]) == [b] + [c];
  }

  lemma {:induction false} ExampleScan()
    ensures Scan([ExampleA, ExampleB, ExampleC], 2, 16)
      == Success((Window(["b", "c"], [1, 1], 2), [Snapshot(1.0, 2.0, ["b", "a"]), Snapshot(2.0, 3.0, ["c", "b"])]))
  {
    var a, b, c := ExampleA, ExampleB, ExampleC;
    assert [a, b, c][..2] == [a, b];
    ExampleScanTwo();
    var w2 := Window(["a", "b"], [1, 1], 2);
    assert ["a", "b"][1..] == ["b"] && [1, 1][1..] == [1];
    assert PopOldest(w2) == Success(Window(["b"], [1], 1));
    assert ["b"] + ["c"] == ["b", "c"] && [1] + [1] == [1, 1];
    assert Shrink(Window(["b", "c"], [1, 1], 2), 16) == Success(Window(["b", "c"], [1, 1], 2));
    assert Admit(w2, c, 2, 16) == Success(Window(["b", "c"], [1, 1], 2));
    assert Reverse(["b", "c"]) == ["c", "b"];
    var s1, s2 := Snapshot(1.0, 2.0, ["b", "a"]), Snapshot(2.0, 3.0, ["c", "b"]);
    assert [s1] + [s2] == [s1, s2];
  }

  lemma {:induction false} ExampleScanTwo()
    ensures Scan([ExampleA, ExampleB], 2, 16) == Success((Window(["a", "b"], [1, 1], 2), [Snapshot(1.0, 2.0, ["b", "a"])]))
  {
    var a, b := ExampleA, ExampleB;
    var w0 := Window([], [], 0);
    assert [a, b][..1] == [a] && [a][..0] == [];
    assert [] + ["a"] == ["a"] && [] + [1] == [1];
    assert Shrink(Window(["a"], [1], 1), 16) == Success(Window(["a"], [1], 1));
    assert Admit(w0, a, 2, 16) == Success(Window(["a"], [1], 1));
    assert Scan([a], 2, 16) == Success((Window(["a"], [1], 1), []));
    assert ["a"] + ["b"] == ["a", "b"] && [1] + [1] == [1, 1];
    assert Shrink(Window(["a", "b"], [1, 1], 2), 16) == Success(Window(["a", "b"], [1, 1], 2));
    assert Admit(Window(["a"], [1], 1), b, 2, 16) == Success(Window(["a", "b"], [1, 1], 2));
    assert Reverse(["a", "b"]) == ["b", "a"];
    var snap := Snapshot(1.0, 2.0, ["b", "a"]);
    assert [] + [snap] == [snap];
  }
}
