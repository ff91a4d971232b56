/** Assigning transcript segments to scenes (ytutils/Concatenate.py):
    scene numbering by global position, the forward-only scan of `assign`
    over a shared list whose consumed prefix `assignSceneIds` deletes, and
    the policy that drops hallucinated segments of generated transcripts. */
module Alignment {
  import opened Wrappers
  import opened TimeCodec
  import opened Ordering

  // ---------------------------------------------------------------------
  // Rows

  /** A scene row as the scene detector wrote it. */
  datatype SceneRow = SceneRow(videoId: string, startTime: string, endTime: string)

  /** A transcript row as the subtitle reader wrote it. */
  datatype TranscriptRow = TranscriptRow(videoId: string, startTime: string, endTime: string, text: string)

  /** A scene once its times are read; instants are microsecond counts. */
  datatype TimedScene = TimedScene(videoId: string, start: nat, end: nat)

  /** A segment once its times are read, with its midpoint. */
  datatype TimedSegment = TimedSegment(videoId: string, start: nat, end: nat, mid: nat, text: string)

  /** An entry of `scene_ids`: `(id, end_timestamp, row.name)`. */
  datatype SceneId = SceneId(videoId: string, end: nat, index: nat)

  /** The value `assign` puts in `scene_index`: a scene number or NaN. */
  datatype SceneIndex = Index(n: nat) | NaN

  /** What `assign` returns: the iteration it stopped at and its output. */
  datatype Stop = Stop(iteration: nat, output: SceneIndex)

  /** The exceptions `assign` can raise: `scene_ids[iteration+1]` past the
      end of the list, and `output` never bound when the list is empty. */
  datatype AssignError = IndexError | UnboundLocalError

  function SceneKey(s: TimedScene): Key { Key(s.videoId, s.end) }
  function SegmentKey(t: TimedSegment): Key { Key(t.videoId, t.end) }

  // ---------------------------------------------------------------------
  // Reading the times of every row (Concatenate.py:172-173)

  /** `calculateTimestamps(row, mid_timestamp=False)` on one scene row. */
  function TimeScene(row: SceneRow): Result<TimedScene, TimeError> {
    match CalculateTimestamps(row.startTime, row.endTime, false)
    case Err(e) => Err(e)
    case Ok(ts) => Ok(TimedScene(row.videoId, ToMicros(ts.start), ToMicros(ts.end)))
  }

  /** `calculateTimestamps(row)` on one transcript row, with the midpoint. */
  function TimeSegment(row: TranscriptRow): Result<TimedSegment, TimeError> {
    match CalculateTimestamps(row.startTime, row.endTime, true)
    case Err(e) => Err(e)
    case Ok(ts) => Ok(TimedSegment(row.videoId, ToMicros(ts.start), ToMicros(ts.end), ToMicros(ts.mid), row.text))
  }

  /** `scenes.apply(calculateTimestamps, mid_timestamp=False)`: it fails
      when any row fails, and otherwise times every row, in order. */
  function TimeScenes(rows: seq<SceneRow>): (r: Result<seq<TimedScene>, TimeError>)
    ensures r.Ok? <==> forall i :: 0 <= i < |rows| ==> TimeScene(rows[i]).Ok?
    ensures r.Ok? ==> |r.value| == |rows| && forall i :: 0 <= i < |rows| ==> r.value[i] == TimeScene(rows[i]).value
    decreases |rows|
  {
    if rows == [] then Ok([])
    else
      match TimeScene(rows[0])
      case Err(e) => Err(e)
      case Ok(first) =>
        match TimeScenes(rows[1..])
        case Err(e) =>
          assert forall i :: 1 <= i < |rows| ==> rows[i] == rows[1..][i - 1];
          Err(e)
        case Ok(rest) =>
          assert forall i :: 1 <= i < |rows| ==> rows[i] == rows[1..][i - 1];
          Ok([first] + rest)
  }

  /** `transcriptions.apply(calculateTimestamps)`: it fails when any row
      fails, and otherwise times every row, in order. */
  function TimeSegments(rows: seq<TranscriptRow>): (r: Result<seq<TimedSegment>, TimeError>)
    ensures r.Ok? <==> forall i :: 0 <= i < |rows| ==> TimeSegment(rows[i]).Ok?
    ensures r.Ok? ==> |r.value| == |rows| && forall i :: 0 <= i < |rows| ==> r.value[i] == TimeSegment(rows[i]).value
    decreases |rows|
  {
    if rows == [] then Ok([])
    else
      match TimeSegment(rows[0])
      case Err(e) => Err(e)
      case Ok(first) =>
        match TimeSegments(rows[1..])
        case Err(e) =>
          assert forall i :: 1 <= i < |rows| ==> rows[i] == rows[1..][i - 1];
          Err(e)
        case Ok(rest) =>
          assert forall i :: 1 <= i < |rows| ==> rows[i] == rows[1..][i - 1];
          Ok([first] + rest)
  }

  // ---------------------------------------------------------------------
  // setSceneIds (Concatenate.py:70-76, applied at 180-181)

  /** Applies `setSceneIds` to every row of the sorted, re-indexed scene
      table: each call appends `(id, end, row.name)` to `scene_ids` and
      returns `row.name`, which after `reset_index` is the row's position
      in the whole table, not a count within its video. */
  method SetSceneIds(scenes: seq<TimedScene>) returns (sceneIds: seq<SceneId>, sceneIndex: seq<nat>)
    ensures |sceneIds| == |scenes| && |sceneIndex| == |scenes|
    ensures forall i :: 0 <= i < |scenes| ==>
      sceneIds[i] == SceneId(scenes[i].videoId, scenes[i].end, i) && sceneIndex[i] == i
    ensures sceneIds == SceneIdsOf(scenes)
  {
    sceneIds := [];
    sceneIndex := [];
    for i := 0 to |scenes|
      invariant |sceneIds| == i && |sceneIndex| == i
      invariant forall k :: 0 <= k < i ==>
        sceneIds[k] == SceneId(scenes[k].videoId, scenes[k].end, k) && sceneIndex[k] == k
    {
      sceneIds := sceneIds + [SceneId(scenes[i].videoId, scenes[i].end, i)];
      sceneIndex := sceneIndex + [i];
    }
  }

  /** The `scene_ids` list that `SetSceneIds` leaves behind. */
  function SceneIdsOf(scenes: seq<TimedScene>): seq<SceneId> {
    seq(|scenes|, i requires 0 <= i < |scenes| => SceneId(scenes[i].videoId, scenes[i].end, i))
  }

  // ---------------------------------------------------------------------
  // assign (Concatenate.py:79-96)

  /** The branch at line 84: same video, and the midpoint is not after the
      scene's end (a midpoint on a cut belongs to the scene it closes). */
  predicate Matches(id: string, mid: nat, sc: SceneId) {
    id == sc.videoId && mid <= sc.end
  }

  /** The branch at line 89: the next entry belongs to another video and
      the midpoint is after this scene's end. The segment's own video id
      plays no part in it. */
  predicate EndsRunBefore(mid: nat, s: seq<SceneId>, k: nat)
    requires k + 1 < |s|
  {
    s[k].videoId != s[k + 1].videoId && mid > s[k].end
  }

  /** The scan moves past entry k: neither branch fires there. */
  predicate PassesOver(id: string, mid: nat, s: seq<SceneId>, k: nat)
    requires k + 1 < |s|
  {
    !Matches(id, mid, s[k]) && !EndsRunBefore(mid, s, k)
  }

  /** The loop of `assign` from iteration k on. Python evaluates
      `scene_ids[iteration+1]` before the `and`, so reaching the final
      entry without a match raises IndexError whatever the midpoint. */
  function Scan(id: string, mid: nat, s: seq<SceneId>, k: nat): (r: Result<Stop, AssignError>)
    requires k <= |s|
    ensures r.Ok? ==> k <= r.value.iteration < |s|
    ensures r.Ok? ==> forall j :: k <= j < r.value.iteration ==> PassesOver(id, mid, s, j)
    ensures r.Ok? && r.value.output.Index? ==>
      Matches(id, mid, s[r.value.iteration]) && r.value.output.n == s[r.value.iteration].index
    ensures r.Ok? && r.value.output.NaN? ==>
      !Matches(id, mid, s[r.value.iteration]) && r.value.iteration + 1 < |s|
      && EndsRunBefore(mid, s, r.value.iteration)
    ensures r == Err(IndexError) ==>
      k < |s| && !Matches(id, mid, s[|s| - 1])
      && forall j :: k <= j < |s| - 1 ==> PassesOver(id, mid, s, j)
    ensures r == Err(UnboundLocalError) <==> k == |s|
    decreases |s| - k
  {
    if k == |s| then Err(UnboundLocalError)
    else if Matches(id, mid, s[k]) then Ok(Stop(k, Index(s[k].index)))
    else if k + 1 == |s| then Err(IndexError)
    else if EndsRunBefore(mid, s, k) then Ok(Stop(k, NaN))
    else Scan(id, mid, s, k + 1)
  }

  /** `assign(id, mid, scene_ids)`: the loop with its `iteration` counter. */
  method Assign(id: string, mid: nat, sceneIds: seq<SceneId>) returns (r: Result<Stop, AssignError>)
    ensures r == Scan(id, mid, sceneIds, 0)
    ensures r.Ok? && r.value.output.Index? ==>
      var k := r.value.iteration;
      k < |sceneIds| && sceneIds[k].videoId == id && mid <= sceneIds[k].end
      && r.value.output.n == sceneIds[k].index
      && forall j :: 0 <= j < k ==> sceneIds[j].videoId != id || sceneIds[j].end < mid
  {
    var iteration := 0;
    r := Err(UnboundLocalError);
    while iteration < |sceneIds|
      invariant iteration <= |sceneIds|
      invariant Scan(id, mid, sceneIds, 0) == Scan(id, mid, sceneIds, iteration)
      invariant iteration == |sceneIds| ==> sceneIds == []
    {
      var sceneId := sceneIds[iteration];
      if id == sceneId.videoId && mid <= sceneId.end {
        r := Ok(Stop(iteration, Index(sceneId.index)));
        forall j | 0 <= j < iteration
          ensures sceneIds[j].videoId != id || sceneIds[j].end < mid
        {
          assert PassesOver(id, mid, sceneIds, j);
        }
        return;
      }
      if iteration + 1 >= |sceneIds| {
        r := Err(IndexError);
        return;
      }
      if sceneId.videoId != sceneIds[iteration + 1].videoId && mid > sceneId.end {
        r := Ok(Stop(iteration, NaN));
        return;
      }
      iteration := iteration + 1;
    }
  }

  /** Where the first matching scene comes before any hallucination stop,
      the scan finds it: together with Scan's contract, `assign` returns
      an index exactly in this case. */
  lemma {:induction false} ScanFindsFirstMatch(id: string, mid: nat, s: seq<SceneId>, k: nat, m: nat)
    requires k <= m < |s| && Matches(id, mid, s[m])
    requires forall j :: k <= j < m ==> PassesOver(id, mid, s, j)
    ensures Scan(id, mid, s, k) == Ok(Stop(m, Index(s[m].index)))
    decreases m - k
  {
    if k < m {
      assert PassesOver(id, mid, s, k);
      ScanFindsFirstMatch(id, mid, s, k + 1, m);
    }
  }

  /** `assign` answers NaN exactly when it reaches, before any match, an
      entry that closes a run of one video and ends before the midpoint. */
  lemma {:induction false} ScanStopsAtRunEnd(id: string, mid: nat, s: seq<SceneId>, k: nat, m: nat)
    requires k <= m && m + 1 < |s| && !Matches(id, mid, s[m]) && EndsRunBefore(mid, s, m)
    requires forall j :: k <= j < m ==> PassesOver(id, mid, s, j)
    ensures Scan(id, mid, s, k) == Ok(Stop(m, NaN))
    decreases m - k
  {
    if k < m {
      assert PassesOver(id, mid, s, k);
      ScanStopsAtRunEnd(id, mid, s, k + 1, m);
    }
  }

  /** A hallucinated segment of the video whose scenes close the list is
      not marked NaN: the scan runs off the end and raises IndexError. */
  lemma HallucinationAtListEndRaises()
    ensures Scan("v", 20, [SceneId("v", 10, 0)], 0) == Err(IndexError)
  {
  }

  /** Because line 89 ignores the segment's id, a segment of the next
      video is marked NaN while the list still starts with the last scene
      of the previous video, even though a scene of its own covers it. */
  lemma OtherVideoRunEndGivesNaN()
    ensures Scan("b", 50, [SceneId("a", 10, 0), SceneId("b", 100, 1)], 0) == Ok(Stop(0, NaN))
  {
  }

  /** A midpoint equal to a scene's end instant belongs to that scene, not
      to the next one. */
  lemma TieGoesToEarlierScene(id: string, boundary: nat, later: nat)
    requires boundary < later
    ensures Scan(id, boundary, [SceneId(id, boundary, 0), SceneId(id, later, 1)], 0) == Ok(Stop(0, Index(0)))
  {
    ScanFindsFirstMatch(id, boundary, [SceneId(id, boundary, 0), SceneId(id, later, 1)], 0, 0);
  }

  // ---------------------------------------------------------------------
  // assignSceneIds and the shared list (Concatenate.py:99-106, 183-184)

  /** The list `scene_ids_for_transcriptions`, shared by every call of
      `assignSceneIds` made by one `apply`. */
  class SceneCursor {
    var remaining: seq<SceneId>

    /** `deepcopy(scene_ids)`. */
    constructor (sceneIds: seq<SceneId>)
      ensures remaining == sceneIds
    {
      remaining := sceneIds;
    }

    /** `assignSceneIds(row, ...)`: runs `assign` on the list, then deletes
        the `iteration` entries before the one it stopped at. When `assign`
        raises, the list is left as it was. */
    method AssignSceneIds(id: string, mid: nat) returns (r: Result<SceneIndex, AssignError>)
      modifies this
      ensures match Scan(id, mid, old(remaining), 0)
        case Ok(st) => r == Ok(st.output) && remaining == old(remaining)[st.iteration..]
        case Err(e) => r == Err(e) && remaining == old(remaining)
      ensures r.Ok? ==> |remaining| >= 1 && remaining[0] in old(remaining)
      ensures r.Ok? ==> exists k :: 0 <= k < |old(remaining)| && remaining == old(remaining)[k..]
    {
      var stop := Assign(id, mid, remaining);
      match stop
      case Err(e) =>
        r := Err(e);
      case Ok(st) =>
        remaining := remaining[st.iteration..];
        r := Ok(st.output);
    }
  }

  /** What one `apply` of `assignSceneIds` over the transcript rows yields,
      starting from the list `rem`; the first exception aborts it. */
  function AssignAll(rem: seq<SceneId>, segs: seq<TimedSegment>): (r: Result<seq<SceneIndex>, AssignError>)
    ensures r.Ok? ==> |r.value| == |segs|
    decreases |segs|
  {
    if segs == [] then Ok([])
    else
      match Scan(segs[0].videoId, segs[0].mid, rem, 0)
      case Err(e) => Err(e)
      case Ok(st) =>
        match AssignAll(rem[st.iteration..], segs[1..])
        case Err(e) => Err(e)
        case Ok(rest) => Ok([st.output] + rest)
  }

  function Prepend(out: seq<SceneIndex>, r: Result<seq<SceneIndex>, AssignError>): Result<seq<SceneIndex>, AssignError> {
    match r
    case Ok(rest) => Ok(out + rest)
    case Err(e) => Err(e)
  }

  /** `transcriptions.apply(assignSceneIds, ...)` on a fresh copy of
      `scene_ids`. */
  method AssignAllSceneIds(sceneIds: seq<SceneId>, segs: seq<TimedSegment>)
    returns (r: Result<seq<SceneIndex>, AssignError>)
    ensures r == AssignAll(sceneIds, segs)
  {
    var cursor := new SceneCursor(sceneIds);
    var out: seq<SceneIndex> := [];
    var i := 0;
    assert segs[0..] == segs;
    PrependNothing(AssignAll(sceneIds, segs));
    while i < |segs|
      invariant 0 <= i <= |segs| && |out| == i
      invariant AssignAll(sceneIds, segs) == Prepend(out, AssignAll(cursor.remaining, segs[i..]))
    {
      assert segs[i..][0] == segs[i] && segs[i..][1..] == segs[i + 1..];
      ghost var before := cursor.remaining;
      var x := cursor.AssignSceneIds(segs[i].videoId, segs[i].mid);
      match x
      case Err(e) =>
        assert AssignAll(before, segs[i..]) == Err(e);
        r := Err(e);
        return;
      case Ok(o) =>
        assert AssignAll(before, segs[i..]) == Prepend([o], AssignAll(cursor.remaining, segs[i + 1..]));
        PrependTwice(out, [o], AssignAll(cursor.remaining, segs[i + 1..]));
        out := out + [o];
      i := i + 1;
    }
    assert segs[i..] == [];
    assert out + [] == out;
    r := Ok(out);
  }

  lemma PrependNothing(r: Result<seq<SceneIndex>, AssignError>)
    ensures Prepend([], r) == r
  {
    if r.Ok? {
      assert [] + r.value == r.value;
    }
  }

  lemma PrependTwice(a: seq<SceneIndex>, b: seq<SceneIndex>, r: Result<seq<SceneIndex>, AssignError>)
    ensures Prepend(a, Prepend(b, r)) == Prepend(a + b, r)
  {
    if r.Ok? {
      assert a + (b + r.value) == (a + b) + r.value;
    }
  }

  /** The entries of the list carry consecutive scene numbers from `base`:
      true of `scene_ids` (base 0) and of every suffix the scan leaves. */
  predicate Numbered(rem: seq<SceneId>, base: nat) {
    forall k :: 0 <= k < |rem| ==> rem[k].index == base + k
  }

  /** Every scene number handed out names a scene of the list with the
      segment's own video whose end is not before the segment's midpoint. */
  lemma {:induction false} AssignAllSound(rem: seq<SceneId>, segs: seq<TimedSegment>, base: nat)
    requires Numbered(rem, base)
    ensures AssignAll(rem, segs).Ok? ==>
      var out := AssignAll(rem, segs).value;
      forall i :: 0 <= i < |out| && out[i].Index? ==>
        base <= out[i].n < base + |rem|
        && Matches(segs[i].videoId, segs[i].mid, rem[out[i].n - base])
  {
    if AssignAll(rem, segs).Ok? {
      var out := AssignAll(rem, segs).value;
      forall i | 0 <= i < |out| && out[i].Index?
        ensures base <= out[i].n < base + |rem|
        ensures Matches(segs[i].videoId, segs[i].mid, rem[out[i].n - base])
      {
        AssignAllSoundAt(rem, segs, base, out, i);
      }
    }
  }

  lemma {:induction false} AssignAllSoundAt(rem: seq<SceneId>, segs: seq<TimedSegment>, base: nat,
                                            out: seq<SceneIndex>, i: nat)
    requires Numbered(rem, base) && AssignAll(rem, segs) == Ok(out)
    requires i < |out| && out[i].Index?
    ensures base <= out[i].n < base + |rem|
    ensures Matches(segs[i].videoId, segs[i].mid, rem[out[i].n - base])
    decreases i
  {
    var st := Scan(segs[0].videoId, segs[0].mid, rem, 0).value;
    var k := st.iteration;
    var tail := rem[k..];
    var rest := AssignAll(tail, segs[1..]).value;
    assert out == [st.output] + rest;
    if i > 0 {
      assert Numbered(tail, base + k);
      assert out[i] == rest[i - 1];
      AssignAllSoundAt(tail, segs[1..], base + k, rest, i - 1);
      assert segs[i] == segs[1..][i - 1];
      assert tail[out[i].n - (base + k)] == rem[out[i].n - base];
    }
  }

  /** The cursor never rewinds: scene numbers handed out to successive
      segments never decrease (hallucinated segments in between do not
      move it back either). */
  lemma {:induction false} AssignAllMonotone(rem: seq<SceneId>, segs: seq<TimedSegment>, base: nat)
    requires Numbered(rem, base)
    ensures AssignAll(rem, segs).Ok? ==>
      var out := AssignAll(rem, segs).value;
      forall i, j :: 0 <= i < j < |out| && out[i].Index? && out[j].Index? ==> out[i].n <= out[j].n
    decreases |segs|
  {
    if segs != [] && AssignAll(rem, segs).Ok? {
      var st := Scan(segs[0].videoId, segs[0].mid, rem, 0).value;
      var k := st.iteration;
      var tail := rem[k..];
      assert Numbered(tail, base + k);
      AssignAllMonotone(tail, segs[1..], base + k);
      AssignAllSound(tail, segs[1..], base + k);
      var out := AssignAll(rem, segs).value;
      var rest := AssignAll(tail, segs[1..]).value;
      assert out == [st.output] + rest;
      forall i, j | 0 <= i < j < |out| && out[i].Index? && out[j].Index?
        ensures out[i].n <= out[j].n
      {
        assert out[j] == rest[j - 1];
        if i > 0 {
          assert out[i] == rest[i - 1];
        } else {
          assert out[i].n == base + k;
        }
      }
    }
  }

  // ---------------------------------------------------------------------
  // The assignment stage of concatenateFullData (Concatenate.py:172-186)

  /** A transcript row with its `scene_index`. */
  datatype AssignedSegment = AssignedSegment(segment: TimedSegment, sceneIndex: SceneIndex)

  /** A scene row with its `scene_index`. */
  datatype IndexedScene = IndexedScene(scene: TimedScene, sceneIndex: nat)

  datatype Alignment = Alignment(scenes: seq<IndexedScene>, segments: seq<AssignedSegment>)

  datatype PipelineError = BadTimestamp(e: TimeError) | AssignFailed(a: AssignError)

  function Zip(segs: seq<TimedSegment>, idx: seq<SceneIndex>): (r: seq<AssignedSegment>)
    requires |segs| == |idx|
    ensures |r| == |segs|
    ensures forall i :: 0 <= i < |r| ==> r[i] == AssignedSegment(segs[i], idx[i])
  {
    seq(|segs|, i requires 0 <= i < |segs| => AssignedSegment(segs[i], idx[i]))
  }

  /** `dropna(subset=["scene_index"])` unless the subtitles came from
      YouTube: hallucinated segments of a generated transcript go. */
  function DropHallucinations(rows: seq<AssignedSegment>, fromYouTube: bool): (r: seq<AssignedSegment>)
    ensures fromYouTube ==> r == rows
    ensures |r| <= |rows|
    ensures forall x :: x in r <==> x in rows && (fromYouTube || x.sceneIndex.Index?)
    decreases |rows|
  {
    if fromYouTube || rows == [] then rows
    else if rows[0].sceneIndex.Index? then [rows[0]] + DropHallucinations(rows[1..], false)
    else DropHallucinations(rows[1..], false)
  }

  /** Dropping keeps the order: it distributes over concatenation. */
  lemma {:induction false} DropHallucinationsAppend(a: seq<AssignedSegment>, b: seq<AssignedSegment>, fromYouTube: bool)
    ensures DropHallucinations(a + b, fromYouTube) == DropHallucinations(a, fromYouTube) + DropHallucinations(b, fromYouTube)
    decreases |a|
  {
    if a == [] {
      assert a + b == b;
    } else if !fromYouTube {
      assert (a + b)[0] == a[0] && (a + b)[1..] == a[1..] + b;
      DropHallucinationsAppend(a[1..], b, false);
    }
  }

  /** The scene table with its new `scene_index` column. */
  function WithSceneIndex(scenes: seq<TimedScene>, sceneIndex: seq<nat>): (r: seq<IndexedScene>)
    requires |sceneIndex| == |scenes|
    ensures |r| == |scenes|
    ensures forall i :: 0 <= i < |r| ==> r[i] == IndexedScene(scenes[i], sceneIndex[i])
  {
    seq(|scenes|, i requires 0 <= i < |scenes| => IndexedScene(scenes[i], sceneIndex[i]))
  }

  function IndexedKey(x: IndexedScene): Key { SceneKey(x.scene) }

  /** A kept segment with a scene number names a scene of its own video
      that ends at or after its midpoint. */
  predicate PointsIntoOwnScene(scenes: seq<IndexedScene>, x: AssignedSegment) {
    x.sceneIndex.Index? ==>
      x.sceneIndex.n < |scenes| && scenes[x.sceneIndex.n].scene.videoId == x.segment.videoId
      && x.segment.mid <= scenes[x.sceneIndex.n].scene.end
  }

  lemma KeptPointIntoOwnScene(scenes: seq<TimedScene>, sceneIds: seq<SceneId>, sceneIndex: seq<nat>,
                              segs: seq<TimedSegment>, idx: seq<SceneIndex>, fromYouTube: bool)
    requires |sceneIds| == |scenes| == |sceneIndex|
    requires forall i :: 0 <= i < |scenes| ==>
      sceneIds[i] == SceneId(scenes[i].videoId, scenes[i].end, i) && sceneIndex[i] == i
    requires AssignAll(sceneIds, segs) == Ok(idx)
    ensures forall x :: x in DropHallucinations(Zip(segs, idx), fromYouTube) ==>
      PointsIntoOwnScene(WithSceneIndex(scenes, sceneIndex), x)
  {
    assert Numbered(sceneIds, 0);
    AssignAllSound(sceneIds, segs, 0);
    var rows := Zip(segs, idx);
    var indexed := WithSceneIndex(scenes, sceneIndex);
    forall x | x in DropHallucinations(rows, fromYouTube)
      ensures PointsIntoOwnScene(indexed, x)
    {
      var i :| 0 <= i < |rows| && rows[i] == x;
      assert idx[i] == x.sceneIndex && segs[i] == x.segment;
    }
  }

  /** Timestamps, sorting, scene numbering, assignment and the NaN policy,
      in the order `concatenateFullData` runs them. */
  /** The scene table after its timestamps (line 172) and the sort at line 176. */
  function SortedScenes(sceneRows: seq<SceneRow>): seq<TimedScene>
    requires TimeScenes(sceneRows).Ok?
  {
    SortBy(TimeScenes(sceneRows).value, SceneKey)
  }

  /** The transcript after its timestamps (line 173) and the sort at line 177. */
  function SortedSegments(transcriptRows: seq<TranscriptRow>): seq<TimedSegment>
    requires TimeSegments(transcriptRows).Ok?
  {
    SortBy(TimeSegments(transcriptRows).value, SegmentKey)
  }

  method AlignSegments(sceneRows: seq<SceneRow>, transcriptRows: seq<TranscriptRow>, fromYouTube: bool)
    returns (r: Result<Alignment, PipelineError>)
    ensures TimeScenes(sceneRows).Err? ==> r == Err(BadTimestamp(TimeScenes(sceneRows).error))
    ensures TimeScenes(sceneRows).Ok? && TimeSegments(transcriptRows).Err? ==>
      r == Err(BadTimestamp(TimeSegments(transcriptRows).error))
    ensures TimeScenes(sceneRows).Ok? && TimeSegments(transcriptRows).Ok? ==>
      var outcome := AssignAll(SceneIdsOf(SortedScenes(sceneRows)), SortedSegments(transcriptRows));
      (outcome.Err? ==> r == Err(AssignFailed(outcome.error)))
      && (outcome.Ok? ==>
            (r.Ok?
             && r.value.segments == DropHallucinations(Zip(SortedSegments(transcriptRows), outcome.value), fromYouTube)
             && |r.value.scenes| == |SortedScenes(sceneRows)|
             && forall i :: 0 <= i < |r.value.scenes| ==> r.value.scenes[i].scene == SortedScenes(sceneRows)[i]))
    ensures r.Ok? ==> |r.value.scenes| == |sceneRows|
    ensures r.Ok? ==> forall i :: 0 <= i < |r.value.scenes| ==> r.value.scenes[i].sceneIndex == i
    ensures r.Ok? ==> SortedBy(r.value.scenes, IndexedKey)
    ensures r.Ok? && !fromYouTube ==> forall x :: x in r.value.segments ==> x.sceneIndex.Index?
    ensures r.Ok? && fromYouTube ==> |r.value.segments| == |transcriptRows|
    ensures r.Ok? ==> forall x :: x in r.value.segments ==> PointsIntoOwnScene(r.value.scenes, x)
  {
    var scenesTimed := TimeScenes(sceneRows);
    if scenesTimed.Err? {
      return Err(BadTimestamp(scenesTimed.error));
    }
    var segsTimed := TimeSegments(transcriptRows);
    if segsTimed.Err? {
      return Err(BadTimestamp(segsTimed.error));
    }
    var scenes := SortBy(scenesTimed.value, SceneKey);
    var segs := SortBy(segsTimed.value, SegmentKey);
    var sceneIds, sceneIndex := SetSceneIds(scenes);
    var outcome := AssignAllSceneIds(sceneIds, segs);
    if outcome.Err? {
      return Err(AssignFailed(outcome.error));
    }
    var indexed := WithSceneIndex(scenes, sceneIndex);
    var kept := DropHallucinations(Zip(segs, outcome.value), fromYouTube);
    KeptPointIntoOwnScene(scenes, sceneIds, sceneIndex, segs, outcome.value, fromYouTube);
    assert forall i :: 0 <= i < |indexed| ==> IndexedKey(indexed[i]) == SceneKey(scenes[i]);
    r := Ok(Alignment(indexed, kept));
  }
}
