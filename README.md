# Danmaku layout and subtitle serialiser

A Dafny model of the core of a danmaku (bullet comment) tool. The tool takes time-stamped viewer comments and lays them out over a video. It then writes the layout as an ASS subtitle document for the compositor. The model covers:

- **Timeline normalisation** (`timeline.dfy`, `_load_data` in both `Merge.py` and `Merge-list-new.py`). The table is cut at the configured start comment. Times are re-based to that comment and converted from milliseconds to seconds. Comments after the end of the video are dropped.
- **Scrolling layout** (`scroll.dfy`, `Merge.py`).
  - The layer geometry of `_init_layer_system`.
  - The greedy layer allocator `_allocate_layer`: the first free layer, otherwise the layer that frees up earliest.
  - The allocation loop of `generate_danmu_clips`, as a `LayerSystem` class whose `end_times` is an array updated in place.
- **Scrolling serialiser** (`scroll_ass.dfy`, `ASSGenerator.generate` in `Merge.py`). One style per configured layer, then one `\move` dialogue line per clip.
- **Line wrapping** (`wrap.dfy`, `_process_text`). Greedy wrapping in half-width units: a CJK ideograph counts two units, any other character one. Lines are joined with `\N`.
- **Stacked layout** (`window.dfy`, `generate_capacity_based_ass` in `Merge-list-new.py`).
  - Comments are sorted by start time.
  - Each comment enters a sliding window bounded by a capacity and by a line budget. Overflow pops the oldest comment.
  - A snapshot of the window, newest first, is recorded per interval between consecutive comments, plus one up to the end of the video.
- **Stacked serialiser** (`stacked_ass.dfy`). Every snapshot becomes a block of `\pos` dialogue lines stacked downwards by `row_space` times each entry's line count. The column and a vertical bonus depend on whether the snapshot lies inside the game segment.
- **Timecodes** (`timecode.dfy`, `_seconds_to_timecode`, shared by both serialisers).
- **Subtitle translation** (`ass_translate.dfy`, `AssTranslate.py`).
  - The `[Events]` and `Format:` checks.
  - The selection of `Dialogue:` lines.
  - The split `re.split(r',\s*(?![^{}]*\})', line, maxsplit=9)`, modelled as its own scanner.
  - Extraction of the text between the first two `}`.
  - Re-assembly with the override tags kept.
  - The running token cost.
- **Video id** (`video_id.dfy`, `get_video_id` in `YoutubeCommentFetch.py`).

`text.dfy` holds the Python string built-ins the core relies on: `str()`, `strip`, `startswith`, `in`, `find`, `split(c)[0]` and `join`.

Conventions:

- Times are `real` seconds.
- The table, the clips and the document lines are sequences.
- Every error the code raises is a `Failure` value of a `Result`. Examples are `ValueError` for too few rows, `IndexError` for `pop(0)` on an empty list, and `ZeroDivisionError` in the layer geometry.
- Loops that build state step by step are methods proved against the functions that specify them. Those methods are `LayerSystem.Allocate`, `GenerateDanmuClips`, `CollectSnapshots`, `Enter`, `ProcessText`, `SerializeSnapshots`, `SerializeBlock`, `Generate`, `TranslateAss`, `FindEventsIndex`, `CollectDialogue` and `RewriteLines`.

## Model

| member | source | states |
|---|---|---|
| Text.Find | YoutubeCommentFetch.py:7-8 | the first index where the pattern occurs; none exactly when the text does not contain it |
| Text.UpTo | YoutubeCommentFetch.py:8 | `split(c)[0]`: a prefix free of `c` that ends at the first `c` or at the end |
| Text.IndexOf | AssTranslate.py:59 | the first position of a character, none exactly when it is absent |
| Timecode.TimecodeReadsBack | Merge.py:196-201 | a timecode has the `H:MM:SS.cc` shape, and parsing it gives back the centisecond offset it was made from |
| Timecode.TimecodeInjective | Merge-list-new.py:301-306 | two offsets print the same timecode only when they are equal |
| Timecode.Centiseconds | Merge.py:200-201 | the offset rounded to the nearest centisecond |
| Timecode.SecondsToTimecodeReadsBack | Merge-list-new.py:301-306 | a timecode reads back as the offset to within half a centisecond |
| Timecode.TimecodeOfZero | Merge.py:196-201 | 0 s prints as `0:00:00.00` |
| Timecode.TimecodeOfOneHourOneMinute | Merge.py:196-201 | 3661.5 s prints as `1:01:01.50` |
| Timecode.TimecodeCarriesIntoMinutes | Merge-list-new.py:303-306 | 59.996 s prints as `0:01:00.00` |
| Timecode.RealMod | Merge.py:199-200 | Python's `%` by a positive divisor lies in `[0, d)` |
| Timecode.AsWrittenNeverReadsBack | Merge-list-new.py:301-306 | as written, no output of the formatter has the `H:MM:SS.cc` shape |
| Timecode.AsWrittenThreeDigitSeconds | Merge.py:201 | as written, 3661.5 s prints as `1:01:001.50` |
| Timecode.AsWrittenSixtySeconds | Merge.py:198-201 | as written, 59.996 s prints as `0:00:060.00` |
| Timeline.Rebase | Merge.py:74-76 | one row per row, same text, time `(t - baseline) / 1000` |
| Timeline.KeepUntil | Merge.py:80 | keeps only rows of the input that are not after the end of the video |
| Timeline.KeepUntilKeeps | Merge.py:80 | every row not after the end of the video is kept |
| Timeline.KeepUntilAppend | Merge-list-new.py:99 | filtering a concatenation concatenates the filtered parts, so table order is kept |
| Timeline.Normalize | Merge.py:71-80 | fails exactly when the table has fewer rows than the start index, or the start index names no row; `InsufficientData` exactly in the first case; every kept row lies within the video |
| Timeline.NormalizeKeepsInWindow | Merge-list-new.py:90-99 | every row from the start comment on whose re-based time is within the video is kept |
| Timeline.NormalizeKeepsOnlyRebased | Merge-list-new.py:93-99 | every kept row is a re-based row from the start comment on |
| Timeline.NormalizeStartsAtZero | Merge-list-new.py:93-95 | the start comment comes first, at time 0 |
| Timeline.ShownUntil | Merge.py:133-136 | a comment ends at `start + min(scroll_duration, duration - start)`: not after the scroll and not after the video |
| Wrap.ProcessText | Merge-list-new.py:274-298 | returns the greedy lines joined by `\N` and their number; an empty text gives `("", 0)` |
| Wrap.SegmentsConcat | Merge-list-new.py:281-296 | the lines concatenate back to the text |
| Wrap.RunWrapped | Merge-list-new.py:281-293 | after any prefix, the loop state satisfies the wrapping invariant |
| Wrap.FeedWrapped | Merge-list-new.py:282-293 | one loop iteration preserves the wrapping invariant |
| Wrap.SegmentsFit | Merge-list-new.py:287-288 | with `max_chars >= 1`, every line is non-empty and within `max_chars` |
| Wrap.SegmentsGreedy | Merge-list-new.py:287-293 | every line but the last would overflow if the next line's first character were added |
| Wrap.HalfWidthLineCount | Merge-list-new.py:281-296 | a text without CJK takes `ceil(len / (2 * max_chars))` lines |
| Window.LineCount | Merge-list-new.py:137 | a comment takes no line exactly when its text is empty |
| Window.MakeDanmu | Merge-list-new.py:131-148 | text and start from the row; end is start plus scroll time, capped at the video end; lines from `_process_text`; a comment within the video with a non-negative scroll time does not end before it starts |
| Window.InsertByStart | Merge-list-new.py:178 | inserting into a sorted list keeps it sorted and adds exactly that comment |
| Window.SortByStart | Merge-list-new.py:178 | sorted by start time and a permutation of the input |
| Window.InsertByStartStable | Merge-list-new.py:178 | an inserted comment goes after the comments with its start time, which keep their order |
| Window.SortByStartStable | Merge-list-new.py:178 | `sorted` is stable: for every start time, the comments that start then come out in their input order |
| Window.Reverse | Merge-list-new.py:202 | `[::-1]`: element `i` is element `n - 1 - i` |
| Window.Enter | Merge-list-new.py:183-195 | one comment entering the window, `Admit` |
| Window.CollectSnapshots | Merge-list-new.py:171-215 | the loop computes `CapacitySnapshots` |
| Window.PopQueued | Merge-list-new.py:184-186 | `pop(0)` on both queues drops the oldest comment and its lines from the total |
| Window.ShrinkQueued | Merge-list-new.py:193-195 | the `while` loop pops oldest comments until the total is within the line budget |
| Window.AdmitQueued | Merge-list-new.py:183-195 | after a comment enters, the window is a suffix of the comments within capacity and line budget; the new comment stays when it fits alone |
| Window.ScanWindow | Merge-list-new.py:180-195 | the window is always a contiguous run of the newest comments, with at most `capacity` of them, and `current_lines` equals their line total and is within the budget |
| Window.ScanSnapshots | Merge-list-new.py:197-204 | one snapshot per pair of consecutive comments: their interval, with the window after the later comment, newest first |
| Window.CapacitySnapshotsFail | Merge-list-new.py:183-195 | the pass fails exactly when there is a comment and the capacity is below 1 or the line budget is negative |
| Window.FirstCommentFails | Merge-list-new.py:184-195 | with such a capacity or budget the first comment already fails |
| Window.CapacitySnapshotsShape | Merge-list-new.py:197-215 | one snapshot per comment, each as `SnapshotOf` describes |
| Window.CapacitySnapshotsContiguous | Merge-list-new.py:198-215 | each interval ends where the next starts, none is reversed, and the last ends at the end of the video |
| Window.CapacitySnapshotsLastTwo | Merge-list-new.py:198-215 | the last two snapshots show the same window |
| Window.CapacitySnapshotsExample | Merge-list-new.py:171-215 | three comments in a window of two: `[b,a]`, `[c,b]`, `[c,b]` |
| StackedAss.Take | Merge-list-new.py:246 | `s[:n]`, with a negative bound counted from the end |
| StackedAss.OffsetIsRows | Merge-list-new.py:250-266 | an entry's offset from the block top is `row_space` times the lines of the entries above it |
| StackedAss.StackAt | Merge-list-new.py:246-266 | one entry per text, in order, each placed below the lines of the ones before it |
| StackedAss.PlacementsAt | Merge-list-new.py:246-269 | a snapshot shows `min(capacity, len)` entries; entry `j` is the `j`-th newest text, wrapped, in the snapshot's column, at `start_y + row_space * lines above + bonus` |
| StackedAss.SerializeBlock | Merge-list-new.py:246-266 | the inner loop writes the dialogue lines of the stacked entries |
| StackedAss.AppendBlocks | Merge-list-new.py:239-269 | the outer loop appends one block per snapshot, in order |
| StackedAss.SerializeSnapshots | Merge-list-new.py:218-271 | the document is the preamble followed by every block |
| StackedAss.GenerateCapacityBasedAss | Merge-list-new.py:168-271 | a window failure is returned; otherwise the document of the snapshots |
| Scroll.Truncate | Merge.py:93 | `int()`: the integer part, towards zero |
| Scroll.MaxReal | Merge.py:89-92 | `max` of two numbers |
| Scroll.LayerGeometry | Merge.py:86-93 | fails with a zero division exactly when `vertical_layers` is 0; the layer height is at least the minimum and the even share of the top third, and non-zero |
| Scroll.LayerCountBound | Merge.py:89-93 | the computed layer count lies between 0 and `vertical_layers` |
| Scroll.LayerCountExact | Merge.py:89-93 | when the minimum height fits, there are exactly `vertical_layers` layers of the even share |
| Scroll.LayerGeometryFails | Merge.py:89-93 | the second division fails exactly when the layer height is 0 |
| Scroll.FirstFree | Merge.py:105-107 | the first layer whose end time is not after `t`, none exactly when all are busy |
| Scroll.Minimum | Merge.py:110 | `min`: an element no greater than any |
| Scroll.FirstIndex | Merge.py:110 | `index`: the first position holding the value |
| Scroll.AllocateLayer | Merge.py:101-110 | fails exactly when there is no layer; picks the first free layer if any, otherwise the first layer with the least end time |
| Scroll.AllocateAllFails | Merge.py:117-141 | allocation fails exactly when there is a comment and no layer |
| Scroll.AllocateAllClips | Merge.py:117-151 | one clip per row in table order; each layer's end time is that of the last clip on it; each clip's layer is the allocator's choice on the end times left by the clips before it |
| Scroll.AllocateAllEnds | Merge.py:140-141 | every layer's end time is that of its last clip |
| Scroll.AllocateAllFromRows | Merge.py:119-151 | clip `i` shows row `i` from its time until `ShownUntil`, on an existing layer |
| Scroll.AllocateAllChoices | Merge.py:140 | clip `i`'s layer is the choice made on the end times before it |
| Scroll.EndsAfterSnoc | Merge.py:141 | a new clip moves only its own layer's end time |
| Scroll.LastEndIsLastClip | Merge.py:141 | a layer's end time is that of the last clip on it |
| Scroll.AllocateAllChoice | Merge.py:140 | the choice for one comment, on its own |
| Scroll.NoOverlapWhenFree | Merge.py:101-141 | when some layer is free, a comment starts no earlier than the previous comment on its layer ends |
| Scroll.LeastLoadedWhenFull | Merge.py:110 | when every layer is busy, the chosen layer has the least end time, and no earlier layer ties it |
| Scroll.LayerSystem.constructor | Merge.py:95-98 | `end_times` is `[0] * layers` |
| Scroll.LayerSystem.Allocate | Merge.py:101-110 | the loop over the array returns `AllocateLayer` of its contents |
| Scroll.LayerSystem.GenerateDanmuClips | Merge.py:112-153 | the clips and the final end times are those of `AllocateAll`; on failure the array is unchanged |
| Scroll.InitLayerSystem | Merge.py:83-98 | a fresh layer system of the computed geometry, or the division error |
| ScrollAss.AppendLines | Merge.py:176-191 | the loop appends each item's line in order |
| ScrollAss.AppendStyles | Merge.py:175-177 | one style line per configured layer |
| ScrollAss.AppendMoves | Merge.py:183-191 | one `\move` dialogue line per clip |
| ScrollAss.Generate | Merge.py:157-193 | the document is the header, the styles, the events header and the move lines |
| ScrollAss.LayerStylesAt | Merge.py:175-177 | exactly `vertical_layers` styles; style `k` is `Layer{k}` with margin `k * min_layer_height` |
| ScrollAss.MoveEventsAt | Merge.py:183-191 | one event per clip, in order: its interval, its layer's style, from the right edge to -500 on row `layer * min_layer_height` |
| ScrollAss.StylesCoverLayers | Merge.py:175-186 | every layer the allocator uses has a style in the document |
| VideoId.VideoId | YoutubeCommentFetch.py:6-9 | fails exactly when the URL contains no `v=` |
| VideoId.SecondPiece | YoutubeCommentFetch.py:8 | `split('v=')[1]` after the first mark: a prefix free of `v=`, ending at the next `v=` or at the end |
| VideoId.VideoIdBounds | YoutubeCommentFetch.py:8 | the id starts right after the first `v=`, contains neither `&` nor `v=`, and ends at `&`, at `v=` or at the end |
| VideoId.VideoIdOfWatchUrl | YoutubeCommentFetch.py:6-9 | `p + "v=" + id + "&" + r` yields `id` |
| VideoId.EmptyVideoId | YoutubeCommentFetch.py:8 | `watch?v=&t=1` yields the empty id |
| AssTranslate.FirstEvents | AssTranslate.py:24-28 | the first line that strips and lowers to `[events]`, none exactly when there is none |
| AssTranslate.FindEventsIndex | AssTranslate.py:24-28 | the loop returns that index, or -1 |
| AssTranslate.CandidatesMembers | AssTranslate.py:39-42 | the selected indices are exactly the `Dialogue:` lines after the `Format:` line |
| AssTranslate.CandidatesIncrease | AssTranslate.py:39-42 | the selected indices are strictly increasing |
| AssTranslate.CollectDialogue | AssTranslate.py:39-42 | the loop selects those indices |
| AssTranslate.SplitFields | AssTranslate.py:54 | between one and ten fields (`maxsplit=9`) |
| AssTranslate.NextSeparatorFirst | AssTranslate.py:54 | the scanner finds the first comma not followed by a `}` before any `{` |
| AssTranslate.LookaheadIgnoresSpace | AssTranslate.py:54 | the lookahead verdict is the same after any part of the whitespace run |
| AssTranslate.GapIsCommaSpace | AssTranslate.py:54 | each dropped separator is a comma and whitespace |
| AssTranslate.SplitRejoins | AssTranslate.py:54 | the fields with the dropped separators between them rebuild the line |
| AssTranslate.SplitCount | AssTranslate.py:54 | the field count is one more than the separators, capped at ten |
| AssTranslate.TextFollowsTags | AssTranslate.py:59-72 | the text field starts with its tag prefix and then the original text, which ends at the next `}` or at the end |
| AssTranslate.TextBetweenFirstBraces | AssTranslate.py:59-72 | for `p}t}rest` the original text is `t`, and the rebuilt field is `p}` plus the translation, with `rest` dropped |
| AssTranslate.EscapeNewlines | AssTranslate.py:67-68 | the result holds no newline |
| AssTranslate.EscapeNewlinesLength | AssTranslate.py:67-68 | each newline becomes the two characters `\N`; a text without newlines is unchanged |
| AssTranslate.Translated | AssTranslate.py:23-76 | fails with `MissingEvents` exactly when no heading matches; otherwise keeps the line count |
| AssTranslate.TranslatedFails | AssTranslate.py:30-36 | fails exactly when the heading is the last line or the next line is not `Format:` |
| AssTranslate.TranslatedLines | AssTranslate.py:39-76 | lines up to the `Format:` line are kept; each later line is rewritten if it is a `Dialogue:` line with ten fields, otherwise kept |
| AssTranslate.OutLineShape | AssTranslate.py:51-76 | a rewritten line is the stripped first nine fields, a comma, the tag prefix and the translation, and a newline |
| AssTranslate.CostIsSumOfLines | AssTranslate.py:46-64 | the token total is the sum of the costs of the rewritten lines |
| AssTranslate.AppliedCandidates | AssTranslate.py:50-76 | rewriting the selected lines in order rewrites each later line on its own |
| AssTranslate.TranslatedByCandidates | AssTranslate.py:39-76 | the result is the selected lines rewritten, with their summed cost |
| AssTranslate.RewriteLines | AssTranslate.py:50-76 | the loop rewrites the selected lines and sums their costs |
| AssTranslate.TranslateAss | AssTranslate.py:20-88 | the whole translation, errors included, is `Translated` |

## Findings

| source | as written | input that shows it | evidently intended | confidence | as-written member | corrected member |
|---|---|---|---|---|---|---|
| Merge-list-new.py:306 | `{seconds:06.2f}` pads the seconds to six characters, three digits before the point, so no timecode has the `H:MM:SS.cc` shape | 3661.5 s gives `1:01:001.50` | `1:01:01.50`, two-digit seconds (width 5) | high, not executed | Timecode.AsWrittenThreeDigitSeconds | Timecode.SecondsToTimecodeReadsBack |
| Merge.py:198-201 | hours and minutes come from the unrounded offset and `seconds % 60` is rounded on its own, so a remainder just under 60 prints as a seconds field of 60 | 59.996 s gives `0:00:060.00` | `0:01:00.00`, the rounding carried into the minutes | high, not executed | Timecode.AsWrittenSixtySeconds | Timecode.TimecodeCarriesIntoMinutes |

The same formatter is copied verbatim in both files, so each finding applies to both. Both serialisers in the model use the corrected formatter `Timecode.SecondsToTimecode`.

## Left out

- Reading the Excel table and the subtitle file, and writing the output file, are left out: the table is a sequence of rows, the file a sequence of lines. The same goes for the UTF-8 BOM of the output, the FFmpeg composition, the progress bars, the prints and the timings.
- The video file is left out. Its duration and size are parameters. So is the duration that `generate_capacity_based_ass` reads from the video at Merge-list-new.py:208-210.
- `AppConfig()` is a configuration parameter. `DefaultStackConfig` and `DefaultScrollConfig` hold its declared values.
- The JSON decoding of the translated text (Merge-list-new.py:113-119) is left out. When decoding fails, `text` is unbound and the thread raises; the model takes the decoded text as given.
- `TextClip` rendering and `text_width` are left out: neither layout reads them. `scroll_speed` is carried by the source's records but used by neither layout.
- The thread pool (Merge-list-new.py:151-160) is left out. Its completion order is the order of the clips given to `CollectSnapshots`. The sort then fixes the order, except among comments with equal start times, which keep the given order (`Window.SortByStartStable`).
- Floating point is left out: times are exact reals.
- StackedAss.PlacementsAt: stated for a non-negative capacity only. With a capacity below 1 the window already fails on the first comment, so no snapshot reaches the serialiser (`Window.CapacitySnapshotsFail`); `StackedAss.Take` states the slice for negative bounds.
- Timecode.Centiseconds: rounds halves upwards on exact values. Python's formatting rounds the binary float, halves to even, so a float lying exactly between two centiseconds may round the other way.
- The translator `translate_with_rate_limit` and its network calls are a function parameter returning the translation and its token cost.
- AssTranslate.Lower: lowers ASCII letters only. This suffices for the comparisons with `[events]` and `format:`.
- The regular expression engine is not modelled. The single pattern `,\s*(?![^{}]*\})` with `maxsplit=9` is modelled by a scanner proved to find the first separator and to rebuild the line.
- `Translate.py`, `CommentsTranslate.py`, `translateUtils`, `get_live_chat` and `save_to_excel` are not part of this model.
- StackedAss.AppendBlocks: each block's start and end timecodes are the corrected `H:MM:SS.cc` ones, not the three-digit seconds that `{seconds:06.2f}` prints at Merge-list-new.py:306 (see Findings).
- StackedAss.SerializeSnapshots: the document's timecodes are the corrected ones, as for `StackedAss.AppendBlocks`. The rest of each line is as the source writes it.
- StackedAss.GenerateCapacityBasedAss: the document's timecodes are the corrected ones, as for `StackedAss.AppendBlocks`.
- ScrollAss.AppendMoves: each `\move` line's timecodes are the corrected ones, not the three-digit seconds that Merge.py:201 prints (see Findings).
- ScrollAss.Generate: the document's timecodes are the corrected ones, as for `ScrollAss.AppendMoves`. The rest of the document is as the source writes it.
- Where the design and the code disagree, the model follows the code, except for the timecodes:
  - Timecodes: the model keeps the source's formatter only in `Timecode.SecondsToTimecodeAsWritten`, where the Findings exhibit its faults. Both serialisers use the corrected `Timecode.SecondsToTimecode`.
  - Styles: the scrolling serialiser's styles use `min_layer_height`, not the computed layer height, and `vertical_layers` from the configuration, not the computed count (`ScrollAss.StylesCoverLayers` shows every used layer still has a style).
  - Overlap: when every layer is busy, a new comment goes on the layer that frees up earliest, so it may overlap the previous comment there. `Scroll.NoOverlapWhenFree` states the guarantee that does hold.
  - Snapshots: a snapshot holds the window after the comment that closes its interval, not after the one that opens it.
