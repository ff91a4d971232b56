/** Filling the gaps of the merged transcript/scene table
    (ytutils/Concatenate.py, fillStartAndEndSubtitleTimes,
    fillRemainingTimes and the text fill of joinTranscriptsAndScenes). */
module Reconcile {
  import opened Wrappers

  /** The columns the fill passes read or write, one entry per row of the
      merged table, in the merged table's row order. `None` is NaN. */
  datatype Columns = Columns(
    ids: seq<string>,
    start: seq<Option<string>>,       // start_time_transcript
    end: seq<Option<string>>,         // end_time_transcript
    sceneStart: seq<Option<string>>,  // start_time_scene
    sceneEnd: seq<Option<string>>,    // end_time_scene
    text: seq<Option<string>>)

  predicate WellFormed(c: Columns) {
    |c.start| == |c.ids| && |c.end| == |c.ids| && |c.sceneStart| == |c.ids|
    && |c.sceneEnd| == |c.ids| && |c.text| == |c.ids|
  }

  /** `col.fillna(other)`: missing entries take the other column's value
      at the same row, present entries stay. */
  function FillNa<T>(col: seq<Option<T>>, other: seq<Option<T>>): (r: seq<Option<T>>)
    requires |col| == |other|
    ensures |r| == |col|
    ensures forall i :: 0 <= i < |r| ==> r[i] == (if col[i].Some? then col[i] else other[i])
  {
    seq(|col|, i requires 0 <= i < |col| => if col[i].Some? then col[i] else other[i])
  }

  /** The nearest row before row i, searching down from j, with the same
      video id: the row `groupby("id").shift()` reads. */
  function PrevSame(ids: seq<string>, i: nat, j: nat): (r: Option<nat>)
    requires i < |ids| && j <= i
    ensures r.Some? ==> r.value < j && ids[r.value] == ids[i]
    ensures r.Some? ==> forall k :: r.value < k < j ==> ids[k] != ids[i]
    ensures r.None? ==> forall k :: 0 <= k < j ==> ids[k] != ids[i]
    decreases j
  {
    if j == 0 then None
    else if ids[j - 1] == ids[i] then Some(j - 1)
    else PrevSame(ids, i, j - 1)
  }

  /** The nearest row after row i, searching up from j, with the same
      video id: the row `groupby("id").shift(-1)` reads. */
  function NextSame(ids: seq<string>, i: nat, j: nat): (r: Option<nat>)
    requires i < j <= |ids|
    ensures r.Some? ==> j <= r.value < |ids| && ids[r.value] == ids[i]
    ensures r.Some? ==> forall k :: j <= k < r.value ==> ids[k] != ids[i]
    ensures r.None? ==> forall k :: j <= k < |ids| ==> ids[k] != ids[i]
    decreases |ids| - j
  {
    if j == |ids| then None
    else if ids[j] == ids[i] then Some(j)
    else NextSame(ids, i, j + 1)
  }

  /** `df.groupby("id")[col].shift()`. */
  function ShiftPrev(ids: seq<string>, col: seq<Option<string>>): (r: seq<Option<string>>)
    requires |col| == |ids|
    ensures |r| == |ids|
    ensures forall i, j ::
      (0 <= j < i < |ids| && ids[j] == ids[i] && forall k :: j < k < i ==> ids[k] != ids[i])
      ==> r[i] == col[j]
    ensures forall i :: 0 <= i < |ids| && (forall k :: 0 <= k < i ==> ids[k] != ids[i]) ==> r[i] == None
  {
    seq(|ids|, i requires 0 <= i < |ids| =>
      match PrevSame(ids, i, i) case Some(j) => col[j] case None => None)
  }

  /** `df.groupby("id")[col].shift(-1)`. */
  function ShiftNext(ids: seq<string>, col: seq<Option<string>>): (r: seq<Option<string>>)
    requires |col| == |ids|
    ensures |r| == |ids|
    ensures forall i, j ::
      (0 <= i < j < |ids| && ids[j] == ids[i] && forall k :: i < k < j ==> ids[k] != ids[i])
      ==> r[i] == col[j]
    ensures forall i :: 0 <= i < |ids| && (forall k :: i < k < |ids| ==> ids[k] != ids[i]) ==> r[i] == None
  {
    seq(|ids|, i requires 0 <= i < |ids| =>
      match NextSame(ids, i, i + 1) case Some(j) => col[j] case None => None)
  }

  /** fillStartAndEndSubtitleTimes: a missing start takes the end of the
      previous row of the same video; then a missing end takes the start
      (already filled) of the next row of the same video. */
  function BorrowFromNeighbours(c: Columns): (r: Columns)
    requires WellFormed(c)
    ensures WellFormed(r) && r.ids == c.ids && r.sceneStart == c.sceneStart
      && r.sceneEnd == c.sceneEnd && r.text == c.text
    ensures forall i :: 0 <= i < |c.ids| && c.start[i].Some? ==> r.start[i] == c.start[i]
    ensures forall i :: 0 <= i < |c.ids| && c.end[i].Some? ==> r.end[i] == c.end[i]
    ensures forall i :: 0 <= i < |c.ids| && c.start[i].None? ==>
      r.start[i] == match PrevSame(c.ids, i, i) case Some(j) => c.end[j] case None => None
    ensures forall i :: 0 <= i < |c.ids| && c.end[i].None? ==>
      r.end[i] == match NextSame(c.ids, i, i + 1) case Some(j) => r.start[j] case None => None
  {
    var start := FillNa(c.start, ShiftPrev(c.ids, c.end));
    var end := FillNa(c.end, ShiftNext(c.ids, start));
    c.(start := start, end := end)
  }

  /** fillRemainingTimes: what is still missing takes the scene's bounds. */
  function FallBackOnScene(c: Columns): (r: Columns)
    requires WellFormed(c)
    ensures WellFormed(r) && r.ids == c.ids && r.sceneStart == c.sceneStart
      && r.sceneEnd == c.sceneEnd && r.text == c.text
    ensures forall i :: 0 <= i < |c.ids| ==>
      r.start[i] == (if c.start[i].Some? then c.start[i] else c.sceneStart[i])
      && r.end[i] == (if c.end[i].Some? then c.end[i] else c.sceneEnd[i])
  {
    c.(start := FillNa(c.start, c.sceneStart), end := FillNa(c.end, c.sceneEnd))
  }

  /** `text.fillna("")`. */
  function FillText(c: Columns): (r: Columns)
    requires WellFormed(c)
    ensures WellFormed(r) && r.(text := c.text) == c
    ensures forall i :: 0 <= i < |c.ids| ==>
      r.text[i].Some? && (c.text[i].Some? ==> r.text[i] == c.text[i])
      && (c.text[i].None? ==> r.text[i] == Some(""))
  {
    c.(text := FillNa(c.text, seq(|c.ids|, _ => Some(""))))
  }

  /** The three passes of joinTranscriptsAndScenes, in order. Present
      values are never changed, and the ids and scene bounds are never
      touched. */
  function ReconcileAll(c: Columns): (r: Columns)
    requires WellFormed(c)
    ensures WellFormed(r)
    ensures r.ids == c.ids && r.sceneStart == c.sceneStart && r.sceneEnd == c.sceneEnd
    ensures forall i :: 0 <= i < |c.ids| ==>
      (c.start[i].Some? ==> r.start[i] == c.start[i])
      && (c.end[i].Some? ==> r.end[i] == c.end[i])
      && (c.text[i].Some? ==> r.text[i] == c.text[i])
  {
    FillText(FallBackOnScene(BorrowFromNeighbours(c)))
  }

  /** Every row an outer join of transcripts and scenes produces has the
      transcript's two times or the scene's two times. */
  predicate JoinRows(c: Columns)
    requires WellFormed(c)
  {
    forall i :: 0 <= i < |c.ids| ==>
      (c.start[i].Some? && c.end[i].Some?) || (c.sceneStart[i].Some? && c.sceneEnd[i].Some?)
  }

  predicate Complete(c: Columns)
    requires WellFormed(c)
  {
    forall i :: 0 <= i < |c.ids| ==> c.start[i].Some? && c.end[i].Some? && c.text[i].Some?
  }

  /** On the rows of the join, the passes leave nothing missing. */
  lemma ReconcileCompletes(c: Columns)
    requires WellFormed(c) && JoinRows(c)
    ensures Complete(ReconcileAll(c))
  {
    var b := BorrowFromNeighbours(c);
    assert forall i :: 0 <= i < |c.ids| ==>
      (b.start[i].Some? || b.sceneStart[i].Some?) && (b.end[i].Some? || b.sceneEnd[i].Some?);
  }

  /** On a table with nothing missing the passes change nothing. */
  lemma ReconcileOnCompleteIsIdentity(c: Columns)
    requires WellFormed(c) && Complete(c)
    ensures ReconcileAll(c) == c
  {
    var b := BorrowFromNeighbours(c);
    assert b.start == c.start && b.end == c.end;
    var f := FallBackOnScene(b);
    assert f.start == c.start && f.end == c.end;
    assert FillText(f).text == c.text;
  }

  /** Running the passes a second time on the join's rows changes nothing. */
  lemma ReconcileIdempotent(c: Columns)
    requires WellFormed(c) && JoinRows(c)
    ensures ReconcileAll(ReconcileAll(c)) == ReconcileAll(c)
  {
    ReconcileCompletes(c);
    ReconcileOnCompleteIsIdentity(ReconcileAll(c));
  }

  /** The merged table, whose columns the fill passes update in place with
      `fillna(..., inplace=True)`. */
  class MergedTable {
    var ids: seq<string>
    var start: seq<Option<string>>
    var end: seq<Option<string>>
    var sceneStart: seq<Option<string>>
    var sceneEnd: seq<Option<string>>
    var text: seq<Option<string>>

    function Snapshot(): Columns
      reads this
    {
      Columns(ids, start, end, sceneStart, sceneEnd, text)
    }

    ghost predicate Valid()
      reads this
    {
      WellFormed(Snapshot())
    }

    constructor (c: Columns)
      requires WellFormed(c)
      ensures Valid() && Snapshot() == c
    {
      ids, start, end := c.ids, c.start, c.end;
      sceneStart, sceneEnd, text := c.sceneStart, c.sceneEnd, c.text;
    }

    /** fillStartAndEndSubtitleTimes(df). */
    method FillStartAndEndSubtitleTimes()
      requires Valid()
      modifies this
      ensures Valid() && Snapshot() == BorrowFromNeighbours(old(Snapshot()))
    {
      start := FillNa(start, ShiftPrev(ids, end));
      end := FillNa(end, ShiftNext(ids, start));
    }

    /** fillRemainingTimes(df). */
    method FillRemainingTimes()
      requires Valid()
      modifies this
      ensures Valid() && Snapshot() == FallBackOnScene(old(Snapshot()))
    {
      start := FillNa(start, sceneStart);
      end := FillNa(end, sceneEnd);
    }

    /** `transcripts_scenes["text"].fillna("", inplace=True)`. */
    method FillMissingText()
      requires Valid()
      modifies this
      ensures Valid() && Snapshot() == FillText(old(Snapshot()))
    {
      text := FillNa(text, seq(|ids|, _ => Some("")));
    }

    /** The fill steps of joinTranscriptsAndScenes (lines 134-136). */
    method Reconcile()
      requires Valid()
      modifies this
      ensures Valid() && Snapshot() == ReconcileAll(old(Snapshot()))
      ensures JoinRows(old(Snapshot())) ==> Complete(Snapshot())
    {
      FillStartAndEndSubtitleTimes();
      FillRemainingTimes();
      FillMissingText();
      ReconcileCompletesIf(old(Snapshot()));
    }
  }

  lemma ReconcileCompletesIf(c: Columns)
    requires WellFormed(c)
    ensures JoinRows(c) ==> Complete(ReconcileAll(c))
  {
    if JoinRows(c) {
      ReconcileCompletes(c);
    }
  }
}
