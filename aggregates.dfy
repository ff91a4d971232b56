/** The integer counts behind the per-video aggregates
    (ytutils/Concatenate.py, addAverageSpeakingRate and
    addAverageShotLength); the float divisions are not modelled. */
module Aggregates {
  import opened PyStr

  /** The two transcript columns the word count reads. */
  datatype TextRow = TextRow(videoId: string, text: string)

  /** `transcriptions.groupby("id")["word_count"].sum()[id]`, where each
      row's `word_count` is the number of words of its text. */
  function TotalWords(rows: seq<TextRow>, id: string): (n: nat)
    ensures (forall i :: 0 <= i < |rows| ==> rows[i].videoId != id) ==> n == 0
    decreases |rows|
  {
    if rows == [] then 0
    else (if rows[0].videoId == id then WordCount(rows[0].text) else 0) + TotalWords(rows[1..], id)
  }

  /** The word total of a video is additive over the transcript table. */
  lemma {:induction false} TotalWordsAppend(a: seq<TextRow>, b: seq<TextRow>, id: string)
    ensures TotalWords(a + b, id) == TotalWords(a, id) + TotalWords(b, id)
    decreases |a|
  {
    if a == [] {
      assert a + b == b;
    } else {
      assert (a + b)[0] == a[0] && (a + b)[1..] == a[1..] + b;
      TotalWordsAppend(a[1..], b, id);
    }
  }

  /** One row of the video contributes its word count, so with
      TotalWordsAppend the total is the sum of the word counts of the
      video's rows. */
  lemma TotalWordsOneRow(id: string, other: string, t: string)
    requires other != id
    ensures TotalWords([TextRow(id, t)], id) == WordCount(t)
    ensures TotalWords([TextRow(other, t)], id) == 0
  {
    assert [TextRow(id, t)][1..] == [];
  }

  /** `scenes["id"].value_counts()[id]`: the number of scenes of a video. */
  function SceneCount(ids: seq<string>, id: string): (n: nat)
    ensures n <= |ids|
    ensures n > 0 <==> id in ids
    ensures n == |ids| <==> forall i :: 0 <= i < |ids| ==> ids[i] == id
    decreases |ids|
  {
    if ids == [] then 0
    else (if ids[0] == id then 1 else 0) + SceneCount(ids[1..], id)
  }

  /** The scene counts of a table add up over concatenation. */
  lemma {:induction false} SceneCountAppend(a: seq<string>, b: seq<string>, id: string)
    ensures SceneCount(a + b, id) == SceneCount(a, id) + SceneCount(b, id)
    decreases |a|
  {
    if a == [] {
      assert a + b == b;
    } else {
      assert (a + b)[0] == a[0] && (a + b)[1..] == a[1..] + b;
      SceneCountAppend(a[1..], b, id);
    }
  }
}
