# YouTube video sampling and download pipeline, modelled in Dafny

This project models the deterministic core of a pipeline that samples videos from
participants' YouTube watch histories, downloads them, and builds one time-aligned
table per video from three sources: the scene cuts detected in the video, the
subtitle or transcript segments with their start and end times, and the video's
metadata. Four source files make up that core. Each is modelled in the form the
code takes: the loops become methods with invariants, proved against recursive
specification functions. The pure transformations become functions and lemmas.

- `ytutils/Concatenate.py` is the alignment:
  - parsing the `HH:MM:SS.ffffff` times and computing each segment's midpoint;
  - sorting scenes and segments by video id and end time;
  - numbering the scenes (`setSceneIds`);
  - the forward-only scan that gives each segment the scene containing its midpoint (`assign`, `assignSceneIds`), including when a segment is marked a hallucination;
  - dropping hallucinated Whisper segments;
  - the three passes that fill missing times and text after the outer join;
  - the integer word and scene counts behind the per-video averages.
- `ytutils/Transcription.py` holds the two `.vtt` scanners: one for subtitles uploaded with the video, one for YouTube's generated captions. It also holds `addText`, `addLastLineToOutput`, and `createDataFrame`, which cuts each cue's timecode into a start and an end.
- `ytutils/History.py` covers:
  - cutting video ids out of watch URLs (`getIds`);
  - the row filter applied before sampling (`clean_dataframe`);
  - the column renaming;
  - sending exported files to the search or the watch history;
  - choosing the files of new participants;
  - the bookkeeping in `sampleVids` that keeps the sampled URL sets disjoint.
- `download_utils.py` covers the log row and log file of a download attempt, the count of a participant's successful downloads, and the `MyLogger` class.

## Files

| file | module | models |
|---|---|---|
| `wrappers.dfy` | `Wrappers` | `Option` and `Result`; `None` stands for pandas' NaN |
| `pystr.dfy` | `PyStr` | the Python string operations used: `in`, slicing, `replace`, `split`, `join`, `str.split()` |
| `timecodec.dfy` | `TimeCodec` | `time.fromisoformat`, microsecond counts, `calculateTimestamps` |
| `ordering.dfy` | `Ordering` | Python's string order and the `(id, end_timestamp)` sort |
| `alignment.dfy` | `Alignment` | `setSceneIds`, `assign`, `assignSceneIds` (a class holding the shared list), the drop of hallucinations |
| `reconcile.dfy` | `Reconcile` | the fill passes, as methods of a class holding the merged table's columns |
| `aggregates.dfy` | `Aggregates` | the word and scene counts |
| `transcription.dfy` | `Transcription` | the two scanners, `addLastLineToOutput`, `createDataFrame` |
| `history.dfy` | `History` | `getIds`, `clean_dataframe`, `renameColumns`, file routing, new files, `sampleVids` |
| `download_log.dfy` | `DownloadLog` | `make_log_entry`'s row and path, `nb_videos_downloaded`, `MyLogger` |

## Where the code departs from the intended behaviour

In each of these cases the model does what the code does:

- **Scene numbers.** The intended behaviour numbers scenes from 0 within each video. The code gives each scene its row position in the whole sorted scene table (`row.name` after `reset_index`, Concatenate.py:74-76). `Alignment.SetSceneIds` and `Alignment.AlignSegments` state the code's numbering.
- **Unsorted input.** The intended behaviour rejects unsorted scene or segment input. The code sorts both tables first (Concatenate.py:176-177), so there is no such error.
- **Hallucination test.** The intended test marks a segment as a hallucination when the cursor has reached the last scene of the segment's own video. The code's test at Concatenate.py:89 looks only at the current scene and the next entry of the list, never at the segment's id. Two consequences are proved:
  - `Alignment.OtherVideoRunEndGivesNaN`: a segment of the next video can be marked NaN while the cursor still sits on the previous video's last scene.
  - `Alignment.HallucinationAtListEndRaises`: for the video whose scenes end the list, the code does not mark a late segment NaN. The index `iteration+1` runs past the list and raises IndexError.

  `Alignment.Scan` states when each of the four outcomes happens: a scene found, NaN, IndexError and UnboundLocalError.
- **Fill idempotence.** Running the fill passes twice is meant to change nothing. With the code's order of passes, that holds on tables whose rows come from the outer join: each row has either both transcript times or both scene times (`Reconcile.JoinRows`). It is proved under that condition (`Reconcile.ReconcileIdempotent`).
- **Zero durations.** An average whose denominator is zero is meant to be a missing value. The code divides by the duration (Concatenate.py:22) and would raise ZeroDivisionError. The float divisions are not modelled (see below).

## Model

| member | source | states |
|---|---|---|
| PyStr.DropLast | ytutils/Transcription.py:44 | `s[:-n]` removes the last n characters, and gives "" for a string of at most n |
| PyStr.SliceFrom | ytutils/History.py:53 | `s[a:]` is the suffix after the first a characters, and "" past the end |
| PyStr.RemoveAll | ytutils/Transcription.py:48 | `replace(pat, "")` never lengthens the string and leaves it unchanged when `pat` does not occur |
| PyStr.SplitOn | ytutils/Transcription.py:21 | `split(sep)` yields at least one piece. The first piece is a prefix of the string, and no piece contains `sep` |
| PyStr.RemoveAllJoinsPieces | ytutils/Transcription.py:48 | `replace(pat, "")` is the pieces of `split(pat)` glued together: every occurrence is cut out, scanning left to right, and the rest is kept in order |
| PyStr.JoinSplitOn | ytutils/Transcription.py:21-24 | joining the pieces of `split(sep)` with `sep` gives the string back |
| PyStr.Words | ytutils/Concatenate.py:15 | every word of `str.split()` is non-empty and holds no white space |
| PyStr.WordsJoin | ytutils/Transcription.py:16 | the words of `a + " " + b` are the words of a followed by those of b |
| PyStr.WordsOfWord | ytutils/Concatenate.py:15 | a non-empty text without white space is one word, itself |
| PyStr.WordsOfSpaces | ytutils/Concatenate.py:15 | a text of white space only has no words |
| PyStr.WordsSkipSpace | ytutils/Concatenate.py:15 | white space in front of a text adds no word |
| PyStr.WordCountJoin | ytutils/Concatenate.py:15 | word counts add up when two texts are joined by a space |
| TimeCodec.ToMicros | ytutils/Concatenate.py:53-54 | the microsecond count of a valid time is below one day |
| TimeCodec.FromMicros | ytutils/Concatenate.py:60-65 | the divmod chain gives a valid time whose count is the given count |
| TimeCodec.FromToMicros | ytutils/Concatenate.py:53-65 | splitting up the count of a valid time gives the same time back |
| TimeCodec.TimeLeIffMicros | ytutils/Concatenate.py:176-177 | comparing times field by field, as the sort does, agrees with comparing their counts |
| TimeCodec.MakeTime | ytutils/Concatenate.py:65 | `time(h, m, s, us)` succeeds exactly when every field is in range |
| TimeCodec.Parse | ytutils/Concatenate.py:47-48 | a successful `fromisoformat` gives a valid time |
| TimeCodec.RenderParse | ytutils/Concatenate.py:47-48 | each of the five accepted forms `HH`, `HH:MM`, `HH:MM:SS`, `HH:MM:SS.fff` and `HH:MM:SS.ffffff`, written for a valid time whose fields it can hold, parses back to that time |
| TimeCodec.ParseIsRender | ytutils/Concatenate.py:47-48 | every string the model's parser accepts is one of the five forms written for the time it returns; the model accepts no other string (for the extra shapes CPython also accepts, see "Left out") |
| TimeCodec.Pad | ytutils/Concatenate.py:65 | a number below 10^k is written with exactly k digits that read back as the number |
| TimeCodec.Format | ytutils/Concatenate.py:65 | `isoformat` writes 8 characters, or 15 when there are microseconds |
| TimeCodec.FormatIsRender | ytutils/Concatenate.py:65 | `isoformat` writes the `HH:MM:SS` form when there are no microseconds, and the `HH:MM:SS.ffffff` form otherwise |
| TimeCodec.FormatParse | ytutils/Concatenate.py:47-48 | `fromisoformat(isoformat(t)) == t` for every valid time |
| TimeCodec.Midpoint | ytutils/Concatenate.py:57-65 | the midpoint's count is the floored half-sum of the two counts, and lies between start and end when start is not after end |
| TimeCodec.CalculateTimestamps | ytutils/Concatenate.py:45-67 | succeeds exactly when both times parse, returns the parsed times, and returns a midpoint exactly when asked |
| TimeCodec.MidpointBetween | ytutils/Concatenate.py:53-65 | a segment's midpoint is not before its start and, when the start is not after the end, not after its end |
| Ordering.StrLeTotal | ytutils/Concatenate.py:176 | Python's string order is total |
| Ordering.StrLeTrans | ytutils/Concatenate.py:176 | Python's string order is transitive |
| Ordering.StrLeAntisym | ytutils/Concatenate.py:176 | Python's string order is antisymmetric |
| Ordering.KeyLeTotal | ytutils/Concatenate.py:176-177 | the `(id, end_timestamp)` order is total |
| Ordering.KeyLeTrans | ytutils/Concatenate.py:176-177 | the `(id, end_timestamp)` order is transitive |
| Ordering.Insert | ytutils/Concatenate.py:176 | inserting into a sorted table keeps it sorted and adds exactly that row |
| Ordering.SortBy | ytutils/Concatenate.py:176-177 | `sort_values` yields a sorted permutation of the rows |
| Ordering.SameIdContiguous | ytutils/Concatenate.py:176 | in a sorted table the rows of one video are contiguous |
| Alignment.TimeScenes | ytutils/Concatenate.py:172 | the scene table is timed exactly when every row's times parse, one timed scene per row and in order |
| Alignment.TimeSegments | ytutils/Concatenate.py:173 | the transcript table is timed, midpoints included, exactly when every row's times parse, one timed segment per row and in order |
| Alignment.SetSceneIds | ytutils/Concatenate.py:70-76 | entry i of `scene_ids` is `(id, end, i)` for scene row i, and row i's `scene_index` is i |
| Alignment.Scan | ytutils/Concatenate.py:82-96 | the scan stops at the first entry where a branch fires. It returns the entry's index on a match, NaN at the end of another video's run, IndexError past the list, and UnboundLocalError for an empty list |
| Alignment.Assign | ytutils/Concatenate.py:79-96 | the loop computes `Scan`, and a returned index names a scene of the segment's video that ends at or after its midpoint |
| Alignment.ScanFindsFirstMatch | ytutils/Concatenate.py:84-86 | when a matching entry is reached before any stop, `assign` returns that entry's index |
| Alignment.ScanStopsAtRunEnd | ytutils/Concatenate.py:88-92 | when an entry that ends another video's run before the midpoint is reached first, `assign` returns NaN |
| Alignment.HallucinationAtListEndRaises | ytutils/Concatenate.py:89 | (illustration, one concrete input) a late segment of the list's last video raises IndexError instead of getting NaN |
| Alignment.OtherVideoRunEndGivesNaN | ytutils/Concatenate.py:89 | (illustration, one concrete input) a segment of the next video gets NaN while the list starts with the previous video's last scene |
| Alignment.TieGoesToEarlierScene | ytutils/Concatenate.py:84 | a midpoint equal to a scene's end belongs to that scene |
| Alignment.SceneCursor.constructor | ytutils/Concatenate.py:183 | the shared list starts as a copy of `scene_ids` |
| Alignment.SceneCursor.AssignSceneIds | ytutils/Concatenate.py:99-106 | returns `assign`'s output and deletes the first `iteration` entries; on an exception the list is unchanged |
| Alignment.AssignAll | ytutils/Concatenate.py:184 | a successful pass gives one `scene_index` per segment |
| Alignment.AssignAllSceneIds | ytutils/Concatenate.py:183-184 | the row-by-row `apply` over one shared list computes `AssignAll` |
| Alignment.AssignAllSound | ytutils/Concatenate.py:84-85 | every scene number handed out names an entry of the segment's video that ends at or after its midpoint |
| Alignment.AssignAllMonotone | ytutils/Concatenate.py:104 | the cursor never rewinds: scene numbers given to later segments are never smaller |
| Alignment.DropHallucinations | ytutils/Concatenate.py:185-186 | Whisper rows with NaN are dropped, YouTube rows all kept, and nothing else removed |
| Alignment.DropHallucinationsAppend | ytutils/Concatenate.py:186 | the drop keeps row order |
| Alignment.KeptPointIntoOwnScene | ytutils/Concatenate.py:184-186 | each kept segment with a scene number points at a scene of its own video that ends at or after its midpoint |
| Alignment.AlignSegments | ytutils/Concatenate.py:172-186 | fails with the first timestamp error of the scenes, else of the transcript, else with `assign`'s exception. Otherwise the scenes are the timed scenes in sorted order, numbered by position, and the segments are the sorted segments zipped with `AssignAll`'s scene numbers, after the NaN drop. No NaN survives for Whisper, every YouTube row survives, and every scene number points into the segment's own video |
| Reconcile.FillNa | ytutils/Concatenate.py:119 | `fillna` keeps present values and takes the other column's value elsewhere |
| Reconcile.PrevSame | ytutils/Concatenate.py:111 | finds the nearest earlier row of the same video, or reports that there is none |
| Reconcile.NextSame | ytutils/Concatenate.py:113 | finds the nearest later row of the same video, or reports that there is none |
| Reconcile.ShiftPrev | ytutils/Concatenate.py:111 | `groupby("id").shift()` gives each row the value of the nearest earlier row of its video, and NaN to a video's first row |
| Reconcile.ShiftNext | ytutils/Concatenate.py:113 | `groupby("id").shift(-1)` gives each row the value of the nearest later row of its video, and NaN to a video's last row |
| Reconcile.BorrowFromNeighbours | ytutils/Concatenate.py:109-114 | a missing start takes the previous same-video end, then a missing end takes the next same-video start (already filled), and present values stay |
| Reconcile.FallBackOnScene | ytutils/Concatenate.py:117-121 | what is still missing takes the scene's start and end |
| Reconcile.FillText | ytutils/Concatenate.py:136 | missing text becomes "" and nothing else changes |
| Reconcile.ReconcileAll | ytutils/Concatenate.py:134-136 | the three passes keep the table well formed. Present times and texts, ids and scene bounds are never changed |
| Reconcile.ReconcileCompletes | ytutils/Concatenate.py:126-136 | on the rows of the outer join nothing is missing afterwards |
| Reconcile.ReconcileOnCompleteIsIdentity | ytutils/Concatenate.py:134-136 | on a table with nothing missing the passes change nothing |
| Reconcile.ReconcileIdempotent | ytutils/Concatenate.py:134-136 | on the join's rows, a second run changes nothing |
| Reconcile.ReconcileCompletesIf | ytutils/Concatenate.py:134-136 | the passes complete every table made of join rows |
| Reconcile.MergedTable.constructor | ytutils/Concatenate.py:126 | the merged table holds the given columns |
| Reconcile.MergedTable.FillStartAndEndSubtitleTimes | ytutils/Concatenate.py:109-114 | the in-place pass leaves the table equal to `BorrowFromNeighbours` of its old contents |
| Reconcile.MergedTable.FillRemainingTimes | ytutils/Concatenate.py:117-121 | the in-place pass leaves the table equal to `FallBackOnScene` of its old contents |
| Reconcile.MergedTable.FillMissingText | ytutils/Concatenate.py:136 | the in-place pass leaves the table equal to `FillText` of its old contents |
| Reconcile.MergedTable.Reconcile | ytutils/Concatenate.py:134-136 | the three passes in order; on join rows nothing is missing afterwards |
| Aggregates.TotalWords | ytutils/Concatenate.py:15-16 | a video with no transcript rows has a word total of 0 |
| Aggregates.TotalWordsOneRow | ytutils/Concatenate.py:15-16 | a single row counts its text's words toward its own video and nothing toward another |
| Aggregates.TotalWordsAppend | ytutils/Concatenate.py:16 | the word total of a video adds up over the rows of the table |
| Aggregates.SceneCount | ytutils/Concatenate.py:34 | a video's scene count is at most the row count, positive exactly when the video has a scene, and equal to the row count exactly when every scene is the video's |
| Aggregates.SceneCountAppend | ytutils/Concatenate.py:34 | the scene counts add up over the rows of the table |
| Transcription.AddText | ytutils/Transcription.py:12-16 | the first line of a cue is its text; a later line is appended after one space, so the cue's words are the old words followed by the line's |
| Transcription.ProvidedStep | ytutils/Transcription.py:41-60 | a loop pass leaves the cues as they are or appends exactly one. It appends only at a blank line inside a cue: the cue with the id, the saved time and the collected text, after which the state is reset. Lines outside a cue other than "-->" lines change nothing |
| Transcription.ExtractProvidedSubs | ytutils/Transcription.py:28-61 | the loop computes the fold of `ProvidedStep`. There are no more cues than "-->" lines, and each cue has the video's id and the time of one of the file's "-->" lines |
| Transcription.ProvidedCueBound | ytutils/Transcription.py:41-55 | the count of cues, plus one for an open cue, grows by at most the number of "-->" lines |
| Transcription.ProvidedCueTimes | ytutils/Transcription.py:41-55 | every cue carries the id and a time cut from a "-->" line |
| Transcription.CueTextIsJoin | ytutils/Transcription.py:49-52 | a cue's text is its cleaned lines joined by single spaces |
| Transcription.OpenCueLines | ytutils/Transcription.py:46-53 | inside a cue, each text line is appended with one space before it |
| Transcription.CueBlock | ytutils/Transcription.py:40-60 | a block of a "-->" line, text lines and a blank line adds exactly one cue: the block's time and its cleaned lines joined by spaces |
| Transcription.GeneratedStep | ytutils/Transcription.py:80-105 | a "-->" line opens a block and keeps the saved time, or takes this line's when none is saved. A first line emits a cue (saved time, line without the bleep marker) exactly when `save_text` is set, and `counter` grows with it. A blank second line clears the time; another second line sets `save_text` and records `last_line`. The saved time changes only in those two cases |
| Transcription.GeneratedBlock | ytutils/Transcription.py:80-105 | a whole block ("-->" line and three lines) emits the previously saved text when `save_text` was set. It then either clears the time (blank second line) or keeps the block's time, sets `save_text` and records the second line as `last_line` |
| Transcription.GeneratedRunKeepsInvariant | ytutils/Transcription.py:88-99 | `counter` equals the number of cues, `last_line` never points past them, and every cue has the video's id |
| Transcription.GeneratedCueBound | ytutils/Transcription.py:80-91 | no more cues are emitted than there are "-->" lines |
| Transcription.BareWord | ytutils/Transcription.py:22-23 | `word.split("<")[0]` holds no '<' |
| Transcription.KeptWords | ytutils/Transcription.py:20-23 | the kept words hold no bleep marker and no timing tag, and are at most as many as the pieces |
| Transcription.KeptWordsMembers | ytutils/Transcription.py:20-23 | every piece whose bare word is not the bleep marker contributes that word, and every kept word is the bare word of some piece |
| Transcription.KeptWordsOne | ytutils/Transcription.py:22-23 | one piece gives its bare word, or nothing when that word is the bleep marker |
| Transcription.KeptWordsAppend | ytutils/Transcription.py:21-23 | the kept words of two runs of pieces are those of the first run followed by those of the second, so the order of the pieces is kept |
| Transcription.LastCueIndex | ytutils/Transcription.py:24 | `output[last_line[0]-1]` names a cue exactly when the position is in range. Position 0 names the last cue, with Python's -1 |
| Transcription.AddLastLineToOutput | ytutils/Transcription.py:19-25 | appends a space and the kept words to the named cue and changes no other cue, or raises IndexError |
| Transcription.ExtractGeneratedSubs | ytutils/Transcription.py:64-107 | the loop and fix-up compute `GeneratedSubs`. No more cues than "-->" lines, all with the video's id. UnboundLocalError when no line was recorded, and IndexError only when no cue was emitted |
| Transcription.SplitTimecode | ytutils/Transcription.py:135-142 | the cut succeeds exactly for timecodes of at least 20 characters, and pads an hour-less start or end with "00:" |
| Transcription.SplitFullTimecode | ytutils/Transcription.py:135-142 | `a --> b` with hours is cut into a and b |
| Transcription.SplitHourlessTimecode | ytutils/Transcription.py:135-142 | `a --> b` without hours is cut into "00:"+a and "00:"+b |
| Transcription.CreateDataFrame | ytutils/Transcription.py:122-154 | one row per cue, in order, with the cue's id, cut times and text; IndexError exactly when some timecode is too short. `whisper_generated` is `not from_YouTube` |
| History.IdOf | ytutils/History.py:53 | NaN stays NaN; a string URL loses its first 32 characters and keeps the rest as a suffix |
| History.GetIds | ytutils/History.py:50-54 | one id per URL, in order |
| History.IdOfWatchUrl | ytutils/History.py:52-53 | the id cut from a watch URL is the video id it was built from |
| History.GetIdsOfWatchUrls | ytutils/History.py:50-54 | `getIds` inverts building watch URLs from ids |
| History.FilterMembers | ytutils/History.py:167 | a boolean mask keeps exactly the rows that satisfy it |
| History.CleanDataframe | ytutils/History.py:165-173 | the kept rows are exactly the rows with a video id, no ad details and `len(str(url)) <= 43` |
| History.CleanIsOneFilter | ytutils/History.py:165-173 | the three masks in sequence equal one mask on the conjunction |
| History.CleanIdempotent | ytutils/History.py:165-173 | cleaning twice is cleaning once |
| History.CleanAppend | ytutils/History.py:165-173 | cleaning keeps row order: it distributes over concatenation |
| History.CountName | ytutils/History.py:30 | a label occurs zero times exactly when it is absent |
| History.CountNameIsMultiplicity | ytutils/History.py:30 | the count of a label is its multiplicity among the column labels |
| History.RenameWith | ytutils/History.py:39-45 | renaming keeps every column's values. No "title" or "titleUrl" remains, and their new names appear when the old ones were present |
| History.MoveDescription | ytutils/History.py:30-32 | the description column moves to the end with its values. The columns before it are the other columns in their order, so no other column keeps that label |
| History.RenameSearch | ytutils/History.py:30-45 | the renamed search history keeps its width and ends with the description column and its values. Column i before it is the i-th other column with its values, relabelled ("title" to "searched_title", "titleUrl" to "url") |
| History.RenamedSearchLabels | ytutils/History.py:30-45 | after renaming, no other search column is labelled "description", "title" and "titleUrl" are gone, and "searched_title" appears when "title" was there |
| History.RenameColumns | ytutils/History.py:28-47 | succeeds exactly when the search history has one description column: KeyError when there is none, AttributeError when there are several. On success both frames are renamed |
| History.DropOneColumn | ytutils/History.py:31 | dropping a label that occurs once removes one column |
| History.RouteHistoryFiles | ytutils/History.py:105-114 | the search history reads the `.json` files starting with s or S, the watch history those starting with w or W, in listing order. No file goes to both, and other files go to neither |
| History.ParticipantOf | ytutils/History.py:9 | `filename[:-5]` plus ".json" is the file name |
| History.NewFileIffNewParticipant | ytutils/History.py:134-138 | a JSON file is new exactly when its participant id is not already loaded |
| History.LoadNewParticipants | ytutils/History.py:132-143 | the participants loaded are new ones with a listed file, and every listed JSON file of a new participant is loaded, in listing order: participant k is `filename[:-5]` of the k-th new JSON file |
| History.Unique | ytutils/History.py:186 | `pd.unique` keeps every value once, and nothing else |
| History.UniqueFirstAppearanceOrder | ytutils/History.py:186 | `pd.unique` lists values in order of first appearance: of two values it returns, the earlier one occurs in the input before any occurrence of the later one |
| History.SortedDates | ytutils/History.py:186-188 | the dates are visited each once, in strictly increasing order |
| History.UnionOf | ytutils/History.py:210 | `URL_` holds exactly the URLs of the accepted samples |
| History.AcceptKeepsDisjoint | ytutils/History.py:209-211 | accepting a sample disjoint from `URL_` keeps the samples pairwise disjoint and grows `URL_` by that sample |
| History.DrawDisjointSample | ytutils/History.py:205-215 | makes at most 100000 draws and accepts the first disjoint one, or none when all of them overlap |
| History.ExhaustedGrows | ytutils/History.py:205-212 | a participant given up on stays given up on when more URLs are taken |
| History.SampleDate | ytutils/History.py:190-215 | on one date the earlier samples are kept, and each new sample is a draw from the URLs of a participant of that date with at least `sample_size` URLs. Disjointness is kept and `URL_` grows by the new samples. A participant with enough URLs gets no sample only when a whole run of 100000 draws overlapped `URL_`. The new samples go to distinct participants of the date, in `pd.unique` order: their ids are a subsequence of the date's participants |
| History.SampleVids | ytutils/History.py:175-217 | accepted samples are pairwise disjoint and `URL_` is their union. Each is a draw from the URLs a participant with enough URLs has on its date, and dates are visited in increasing order. On every date, a participant with enough URLs and no sample was given up on after 100000 overlapping draws. Each sample's date is one of the sorted dates and its participant has rows on that date, and no (date, participant) pair is sampled twice |
| History.SampleParticipant | ytutils/History.py:196-212 | a participant with fewer than `sample_size` URLs is skipped and nothing changes. Otherwise at most one sample is appended, for this participant, and the date's progress is kept |
| History.SubsequenceNoRepeats | ytutils/History.py:193 | ids taken in order from `pd.unique`'s list, which has no repeats, have no repeats either, so no participant is sampled twice on one date |
| History.VidsDone | ytutils/History.py:186-217 | once every date is visited, the samples are disjoint with `URL_` their union, each is a draw on its date, dates increase, no (date, participant) pair repeats and every date's misses were exhausted |
| History.SameParticipantUrls | ytutils/History.py:190-198 | selecting by date and then by participant picks that participant's rows of the date |
| DownloadLog.Status | download_utils.py:125 | the status is "successful" exactly on success and "failed" otherwise |
| DownloadLog.Update | download_utils.py:133-134 | `dict.update` keeps all keys and lets the new values win |
| DownloadLog.LogRowData | download_utils.py:122-134 | the row has the participant, video, status, reply and log keys plus the info keys. It keeps the status unless info overrides it, and the `log` flag always wins |
| DownloadLog.LogRowWithVideoInfo | download_utils.py:122-134 | with the format record as info, the row's status, participant and video are the ones given |
| DownloadLog.PathJoin | download_utils.py:47 | `os.path.join` returns an absolute second part as it is |
| DownloadLog.LogFilePath | download_utils.py:136-139 | the log file ends in ".log.csv": the insufficient-videos file when `exept`, otherwise `log_path + "/" + video_id + ".log.csv"`, from which the video id can be cut back out |
| DownloadLog.LogFileIsAttemptedPath | download_utils.py:139 | the ordinary log file is the one `is_video_attempted_downloded` checks, for a folder without a trailing slash and an id without a leading one |
| DownloadLog.ExceptionLogIsInsufficientVideosPath | download_utils.py:137 | the `exept` log file is the one `not_enough_videos` checks |
| DownloadLog.NbVideosDownloaded | download_utils.py:85-90 | 0 for an empty log. Never more than the rows, 0 exactly when no row counts, and all rows exactly when every row counts |
| DownloadLog.NbVideosAppend | download_utils.py:89-90 | the count over concatenated logs is the sum of the counts |
| DownloadLog.NbVideosAfterAttempt | download_utils.py:125 | logging one attempt raises the participant's count by one exactly when it succeeded |
| DownloadLog.MyLogger.constructor | download_utils.py:232-233 | the logger starts with no entries |
| DownloadLog.MyLogger.Debug | download_utils.py:235-237 | appends exactly one "DEBUG: " entry and keeps the earlier ones |
| DownloadLog.MyLogger.Warning | download_utils.py:239-241 | appends exactly one "WARNING: " entry and keeps the earlier ones |
| DownloadLog.MyLogger.Error | download_utils.py:243-245 | appends exactly one "ERROR: " entry and keeps the earlier ones |

## Left out

- The float divisions of `addAverageSpeakingRate` and `addAverageShotLength` (Concatenate.py:22, 39) and the metadata subsetting and `map` around them: floating point. The integer word and scene counts behind them are modelled, and a zero duration would raise ZeroDivisionError.
- The sizes, times and rounding in `make_log_entry` (download_utils.py:119-131): floating point and clock values.
- The internals of `pd.merge` in `joinTranscriptsAndScenes` and `joinAll`: row order and suffixes. The fill passes work on the merged table's columns as the join leaves them.
- File and process I/O:
  - `readlines`, `findvttFile`, `os.listdir`, `read_json` and `to_csv`;
  - `concatenate_logs`, `is_video_downloaded`, `reset_directory` and the file reading in `get_video_info`;
  - the dispatch in `extractTextFromvtt` and `vttToTranscriptions`, and `loadEpinionData`.

  The scanners take the file's lines and the routing takes the directory listing.
- The frame concatenation in `loadHistoryData` and `loadNewData`: the model keeps the ordered list of files read and the participant ids. Also left out are the `getIds` call on the search history and the drop of `subtitles`/`description` (History.py:120-124), which are column plumbing.
- `random.seed` and `random.sample`: draw number n of a run is a parameter `draw(urls, n)`.
- `datetime.now` and `date.today`, and the `added_date` column.
- TimeCodec.Parse: implements the documented `HH[:MM[:SS[.fff[fff]]]]` grammar with ASCII digits. CPython's C parser also accepts shapes outside it, which the model rejects: a fraction right after the hours or minutes ("12.500", "12:30.500") and a ':' before the fraction ("12:30:45:123"). Time-zone suffixes, the wider grammar of Python 3.11 and non-ASCII digits are not accepted either.
- Ordering.SortBy: the definition is a stable insertion sort, and pandas' multi-column `sort_values` (a lexsort) is stable too, so they order rows with equal `(id, end_timestamp)` alike. The contract states a sorted permutation only, not stability.
- History.SortedDates: dates are ordered as strings, which matches chronological order for ISO dates. Sorting pandas Timestamps is not modelled.
- History.SampleVids: `random.sample` is a parameter `draw`, and nothing constrains what it returns. So the contract states that each sample is some draw from the participant's URLs, but not which draw it is, nor that it holds `sample_size` distinct URLs of the participant.
- History.RenameColumns: with a unique description column, labels are renamed one by one. The frames produced when a rename collides with an existing label are not modelled further.
- `print` calls (History.py:201, 215): console output.
