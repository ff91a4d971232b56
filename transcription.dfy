/** The `.vtt` scanners of ytutils/Transcription.py, run over the lines of
    a file (each line keeps its trailing "\n", as `readlines` gives it),
    and the table `createDataFrame` builds from their cues. */
module Transcription {
  import opened Wrappers
  import opened PyStr

  /** One `[id, time, text]` entry of a scanner's output. */
  datatype Cue = Cue(videoId: string, time: string, text: string)

  /** The exceptions the scanners raise: `output[...]` or `line[1][17:][2]`
      out of range, and `last_line` read before it was ever assigned. */
  datatype ScanError = IndexError | UnboundLocalError

  const Arrow := "-->"
  const Nbsp := "&nbsp;"
  const Bleep := "[&nbsp;__&nbsp;]"
  const BleepSpace := "[&nbsp;__&nbsp;] "
  const WordSeparator := "<c> "

  /** addText: the first line of a cue is its text; later lines are
      appended after a single space. */
  function AddText(line: string, text: string, previousWasTimestamp: bool): (r: string)
    ensures previousWasTimestamp ==> r == line
    ensures !previousWasTimestamp ==> |r| == |text| + 1 + |line| && r[..|text|] == text && r[|text|..] == " " + line
    ensures Words(r) == if previousWasTimestamp then Words(line) else Words(text) + Words(line)
  {
    if previousWasTimestamp then line
    else
      WordsJoin(text, line);
      text + " " + line
  }

  function ArrowCount(lines: seq<string>): (n: nat)
    ensures n <= |lines|
  {
    if lines == [] then 0 else (if Contains(lines[0], Arrow) then 1 else 0) + ArrowCount(lines[1..])
  }

  // ---------------------------------------------------------------------
  // extractProvidedSubs (Transcription.py:28-61)

  datatype ProvidedState = ProvidedState(
    timestamp: bool, previousWasTimestamp: bool, time: string, text: string, output: seq<Cue>)

  const ProvidedStart := ProvidedState(false, false, "", "", [])

  /** A cue line cleaned as the loop cleans it: "&nbsp;" removed when the
      line ends in "&nbsp;\n", and the last character dropped. */
  function CleanLine(line: string): string {
    if EndsWith(line, Nbsp + "\n") then DropLast(RemoveAll(line, Nbsp), 1) else DropLast(line, 1)
  }

  /** One pass of the loop body. */
  function ProvidedStep(id: string, st: ProvidedState, line: string): (r: ProvidedState)
    ensures r.output == st.output || r.output == st.output + [Cue(id, st.time, st.text)]
    ensures r.output != st.output ==> st.timestamp && line == "\n" && r == ProvidedState(false, false, "", "", r.output)
    ensures st.timestamp && line == "\n" ==> r == ProvidedState(false, false, "", "", st.output + [Cue(id, st.time, st.text)])
    ensures !st.timestamp && !Contains(line, Arrow) ==> r == st
  {
    ShorterDoesNotContain("\n", Arrow);
    if Contains(line, Arrow) then
      st.(timestamp := true, previousWasTimestamp := true, time := DropLast(line, 1))
    else if !st.timestamp then st
    else if EndsWith(line, Nbsp + "\n") then
      var modifiedLine := RemoveAll(line, Nbsp);
      st.(text := AddText(DropLast(modifiedLine, 1), st.text, st.previousWasTimestamp),
          previousWasTimestamp := false)
    else if line != "\n" then
      st.(text := AddText(DropLast(line, 1), st.text, st.previousWasTimestamp),
          previousWasTimestamp := false)
    else
      ProvidedState(false, false, "", "", st.output + [Cue(id, st.time, st.text)])
  }

  function ProvidedRun(id: string, st: ProvidedState, lines: seq<string>): ProvidedState
    decreases |lines|
  {
    if lines == [] then st else ProvidedRun(id, ProvidedStep(id, st, lines[0]), lines[1..])
  }

  /** extractProvidedSubs, over the lines of the file. */
  method ExtractProvidedSubs(id: string, lines: seq<string>) returns (output: seq<Cue>)
    ensures output == ProvidedRun(id, ProvidedStart, lines).output
    ensures |output| <= ArrowCount(lines)
    ensures forall c :: c in output ==> c.videoId == id && c.time in ArrowTimes(lines)
  {
    output := [];
    var timestamp := false;
    var previousWasTimestamp := false;
    var time := "";
    var text := "";
    for i := 0 to |lines|
      invariant ProvidedRun(id, ProvidedStart, lines)
        == ProvidedRun(id, ProvidedState(timestamp, previousWasTimestamp, time, text, output), lines[i..])
    {
      assert lines[i..][0] == lines[i] && lines[i..][1..] == lines[i + 1..];
      var line := lines[i];
      if Contains(line, Arrow) {
        timestamp := true;
        previousWasTimestamp := true;
        time := DropLast(line, 1);
        continue;
      }
      if timestamp {
        if EndsWith(line, Nbsp + "\n") {
          var modifiedLine := RemoveAll(line, Nbsp);
          text := AddText(DropLast(modifiedLine, 1), text, previousWasTimestamp);
          previousWasTimestamp := false;
        } else if line != "\n" {
          text := AddText(DropLast(line, 1), text, previousWasTimestamp);
          previousWasTimestamp := false;
        } else {
          output := output + [Cue(id, time, text)];
          timestamp := false;
          previousWasTimestamp := false;
          time := "";
          text := "";
        }
      }
    }
    ProvidedCueBound(id, ProvidedStart, lines);
    ProvidedCueTimes(id, ProvidedStart, lines, ArrowTimes(lines));
  }

  /** Each cue needs a timestamp line of its own: the number of cues, plus
      one for a cue still open, grows by at most the number of "-->" lines. */
  lemma {:induction false} ProvidedCueBound(id: string, st: ProvidedState, lines: seq<string>)
    ensures var r := ProvidedRun(id, st, lines);
      |r.output| + (if r.timestamp then 1 else 0)
        <= |st.output| + (if st.timestamp then 1 else 0) + ArrowCount(lines)
    decreases |lines|
  {
    if lines != [] {
      ProvidedCueBound(id, ProvidedStep(id, st, lines[0]), lines[1..]);
    }
  }

  /** The times a file's "-->" lines give, each without its last character. */
  function ArrowTimes(lines: seq<string>): set<string> {
    set l | l in lines && Contains(l, Arrow) :: DropLast(l, 1)
  }

  /** Every cue is stamped with the id and with the time of one of the
      file's "-->" lines. */
  lemma {:induction false} ProvidedCueTimes(id: string, st: ProvidedState, lines: seq<string>, times: set<string>)
    requires st.timestamp ==> st.time in times
    requires forall c :: c in st.output ==> c.videoId == id && c.time in times
    requires forall l :: l in lines && Contains(l, Arrow) ==> DropLast(l, 1) in times
    ensures var r := ProvidedRun(id, st, lines);
      forall c :: c in r.output ==> c.videoId == id && c.time in times
    decreases |lines|
  {
    if lines != [] {
      var next := ProvidedStep(id, st, lines[0]);
      assert lines[0] in lines;
      assert forall l :: l in lines[1..] ==> l in lines;
      ProvidedCueTimes(id, next, lines[1..], times);
    }
  }

  lemma {:induction false} ProvidedRunAppend(id: string, st: ProvidedState, a: seq<string>, b: seq<string>)
    ensures ProvidedRun(id, st, a + b) == ProvidedRun(id, ProvidedRun(id, st, a), b)
    decreases |a|
  {
    if a == [] {
      assert a + b == b;
    } else {
      assert (a + b)[0] == a[0] && (a + b)[1..] == a[1..] + b;
      ProvidedRunAppend(id, ProvidedStep(id, st, a[0]), a[1..], b);
    }
  }

  /** A line that carries text inside a cue. */
  predicate TextLine(line: string) {
    !Contains(line, Arrow) && line != "\n"
  }

  /** The text lines after the first, each cleaned and preceded by a space. */
  function SpacedLines(ts: seq<string>): string
    decreases |ts|
  {
    if ts == [] then "" else " " + CleanLine(ts[0]) + SpacedLines(ts[1..])
  }

  /** The text a cue block's lines make. */
  function CueText(ts: seq<string>): string {
    if ts == [] then "" else CleanLine(ts[0]) + SpacedLines(ts[1..])
  }

  function CleanAll(ts: seq<string>): (r: seq<string>)
    ensures |r| == |ts| && forall i :: 0 <= i < |ts| ==> r[i] == CleanLine(ts[i])
  {
    seq(|ts|, i requires 0 <= i < |ts| => CleanLine(ts[i]))
  }

  /** The cue text is the cleaned lines joined with single spaces. */
  lemma {:induction false} CueTextIsJoin(ts: seq<string>)
    ensures CueText(ts) == Join(" ", CleanAll(ts))
    decreases |ts|
  {
    if |ts| == 1 {
    } else if |ts| > 1 {
      CueTextIsJoin(ts[1..]);
      assert CleanAll(ts)[1..] == CleanAll(ts[1..]);
      assert CueText(ts[1..]) == CleanLine(ts[1]) + SpacedLines(ts[2..]);
      assert SpacedLines(ts[1..]) == " " + CueText(ts[1..]) by {
        assert ts[1..][0] == ts[1] && ts[1..][1..] == ts[2..];
      }
    }
  }

  lemma {:induction false} OpenCueLines(id: string, st: ProvidedState, ts: seq<string>)
    requires st.timestamp && !st.previousWasTimestamp
    requires forall i :: 0 <= i < |ts| ==> TextLine(ts[i])
    ensures ProvidedRun(id, st, ts) == st.(text := st.text + SpacedLines(ts))
    decreases |ts|
  {
    if ts == [] {
      assert st.text + "" == st.text;
    } else {
      var head := " " + CleanLine(ts[0]);
      OpenCueStep(id, st, ts[0]);
      TextLinesTail(ts);
      OpenCueLines(id, st.(text := st.text + head), ts[1..]);
      AppendAssoc(st.text, head, SpacedLines(ts[1..]));
    }
  }

  lemma OpenCueStep(id: string, st: ProvidedState, t: string)
    requires st.timestamp && !st.previousWasTimestamp && TextLine(t)
    ensures ProvidedStep(id, st, t) == st.(text := st.text + (" " + CleanLine(t)))
  {
    AppendAssoc(st.text, " ", CleanLine(t));
  }

  lemma TextLinesTail(ts: seq<string>)
    requires ts != [] && forall i :: 0 <= i < |ts| ==> TextLine(ts[i])
    ensures forall i :: 0 <= i < |ts[1..]| ==> TextLine(ts[1..][i])
  {
    forall i | 0 <= i < |ts[1..]| ensures TextLine(ts[1..][i]) {
      assert ts[1..][i] == ts[i + 1];
    }
  }

  lemma AppendAssoc(a: string, b: string, c: string)
    ensures (a + b) + c == a + (b + c)
  {
  }

  /** A well-formed cue block, a "-->" line, text lines and a blank line,
      read between cues, adds exactly one cue: the block's time and the
      block's cleaned lines joined with single spaces. */
  lemma CueBlock(id: string, out: seq<Cue>, arrow: string, ts: seq<string>)
    requires Contains(arrow, Arrow)
    requires forall i :: 0 <= i < |ts| ==> TextLine(ts[i])
    ensures ProvidedRun(id, ProvidedState(false, false, "", "", out), [arrow] + ts + ["\n"])
      == ProvidedState(false, false, "", "", out + [Cue(id, DropLast(arrow, 1), Join(" ", CleanAll(ts)))])
  {
    var closed := ProvidedState(false, false, "", "", out);
    var afterArrow := ProvidedState(true, true, DropLast(arrow, 1), "", out);
    assert ProvidedStep(id, closed, arrow) == afterArrow;
    ProvidedRunAppend(id, closed, [arrow], ts + ["\n"]);
    assert [arrow] + ts + ["\n"] == [arrow] + (ts + ["\n"]);
    ProvidedRunAppend(id, afterArrow, ts, ["\n"]);
    assert !Contains("\n", Arrow);
    CueTextIsJoin(ts);
    if ts != [] {
      var first := ProvidedStep(id, afterArrow, ts[0]);
      assert first == afterArrow.(previousWasTimestamp := false, text := CleanLine(ts[0]));
      OpenCueLines(id, first, ts[1..]);
      assert ts == [ts[0]] + ts[1..];
      ProvidedRunAppend(id, afterArrow, [ts[0]], ts[1..]);
    }
  }

  // ---------------------------------------------------------------------
  // extractGeneratedSubs (Transcription.py:64-107)

  /** `last_line = [counter, line[:-1]]`. */
  datatype LastLine = LastLine(position: nat, text: string)

  datatype GeneratedState = GeneratedState(
    counter: nat, timestamp: bool, firstLine: bool, secondLine: bool, thirdLine: bool,
    saveText: bool, time: string, output: seq<Cue>, lastLine: Option<LastLine>)

  const GeneratedStart := GeneratedState(0, false, false, false, false, false, "", [], None)

  /** One pass of the loop body. Auto-generated files repeat each line: a
      cue's text is saved from the second line after one timestamp and
      emitted on the first line after the next. */
  function GeneratedStep(id: string, st: GeneratedState, line: string): (r: GeneratedState)
    ensures r.output == st.output || r.output == st.output + [Cue(id, st.time, RemoveAll(DropLast(line, 1), BleepSpace))]
    ensures r.output != st.output ==>
      !Contains(line, Arrow) && st.timestamp && st.firstLine && st.saveText
      && !r.saveText && r.counter == st.counter + 1
    ensures r.output == st.output ==> r.counter == st.counter
    ensures r.time != st.time ==>
      (Contains(line, Arrow) && st.time == "" && r.time == DropLast(line, 25))
      || (!Contains(line, Arrow) && st.timestamp && !st.firstLine && st.secondLine
          && line == " \n" && r.time == "")
    ensures r.lastLine != st.lastLine ==> r.lastLine == Some(LastLine(st.counter, DropLast(line, 1)))
    ensures Contains(line, Arrow) ==>
      r.timestamp && r.firstLine && r.time == (if st.time == "" then DropLast(line, 25) else st.time)
    ensures !Contains(line, Arrow) && st.timestamp && st.firstLine && st.saveText ==>
      r.output == st.output + [Cue(id, st.time, RemoveAll(DropLast(line, 1), BleepSpace))]
    ensures !Contains(line, Arrow) && st.timestamp && !st.firstLine && st.secondLine && line == " \n" ==>
      r.time == ""
    ensures !Contains(line, Arrow) && st.timestamp && !st.firstLine && st.secondLine && line != " \n" ==>
      r.saveText && r.lastLine == Some(LastLine(st.counter, DropLast(line, 1)))
  {
    if Contains(line, Arrow) then
      st.(time := if st.time == "" then DropLast(line, 25) else st.time,
          timestamp := true, firstLine := true)
    else if !st.timestamp then st
    else if st.firstLine then
      var emitted :=
        if st.saveText then
          st.(output := st.output + [Cue(id, st.time, RemoveAll(DropLast(line, 1), BleepSpace))],
              saveText := false, counter := st.counter + 1)
        else st;
      emitted.(firstLine := false, secondLine := true)
    else if st.secondLine then
      var noted :=
        if line == " \n" then st.(time := "")
        else st.(saveText := true, lastLine := Some(LastLine(st.counter, DropLast(line, 1))));
      noted.(secondLine := false, thirdLine := true)
    else if st.thirdLine then st.(thirdLine := false, timestamp := false)
    else st
  }

  function GeneratedRun(id: string, st: GeneratedState, lines: seq<string>): GeneratedState
    decreases |lines|
  {
    if lines == [] then st else GeneratedRun(id, GeneratedStep(id, st, lines[0]), lines[1..])
  }

  /** What the loop keeps true: `counter` counts the output, the recorded
      last line points no further than the output, and every cue carries
      the file's id. */
  predicate GeneratedInvariant(id: string, st: GeneratedState) {
    st.counter == |st.output|
    && (st.lastLine.Some? ==> st.lastLine.value.position <= st.counter)
    && (st.firstLine ==> st.timestamp)
    && forall c :: c in st.output ==> c.videoId == id
  }

  lemma {:induction false} GeneratedRunKeepsInvariant(id: string, st: GeneratedState, lines: seq<string>)
    requires GeneratedInvariant(id, st)
    ensures GeneratedInvariant(id, GeneratedRun(id, st, lines))
    decreases |lines|
  {
    if lines != [] {
      GeneratedRunKeepsInvariant(id, GeneratedStep(id, st, lines[0]), lines[1..]);
    }
  }

  /** Between two blocks of an auto-generated file: no timestamp is open. */
  predicate BetweenBlocks(st: GeneratedState) {
    !st.timestamp && !st.firstLine && !st.secondLine && !st.thirdLine
  }

  /** One auto-generated block, a "-->" line followed by three lines, read
      between blocks. The first line emits the text saved by the previous
      block, stamped with the saved time; a blank second line (" \n")
      clears the time so that the next block's timestamp is taken, and any
      other second line is remembered and asks for the next block's first
      line to be emitted. */
  lemma GeneratedBlock(id: string, st: GeneratedState, arrow: string, first: string, second: string, third: string)
    requires BetweenBlocks(st)
    requires Contains(arrow, Arrow) && !Contains(first, Arrow) && !Contains(second, Arrow) && !Contains(third, Arrow)
    ensures var time := if st.time == "" then DropLast(arrow, 25) else st.time;
      var out := if st.saveText then st.output + [Cue(id, time, RemoveAll(DropLast(first, 1), BleepSpace))] else st.output;
      var counter := if st.saveText then st.counter + 1 else st.counter;
      var r := GeneratedRun(id, st, [arrow, first, second, third]);
      BetweenBlocks(r) && r.output == out && r.counter == counter
      && (second == " \n" ==> r.time == "" && !r.saveText && r.lastLine == st.lastLine)
      && (second != " \n" ==> r.time == time && r.saveText && r.lastLine == Some(LastLine(counter, DropLast(second, 1))))
  {
    var lines := [arrow, first, second, third];
    var s1 := GeneratedStep(id, st, arrow);
    var s2 := GeneratedStep(id, s1, first);
    var s3 := GeneratedStep(id, s2, second);
    var s4 := GeneratedStep(id, s3, third);
    assert lines[1..] == [first, second, third];
    assert lines[1..][1..] == [second, third];
    assert lines[1..][1..][1..] == [third];
    assert GeneratedRun(id, s3, [third]) == s4;
    assert GeneratedRun(id, s2, [second, third]) == s4;
    assert GeneratedRun(id, s1, [first, second, third]) == s4;
    assert s1.timestamp && s1.firstLine && !s1.secondLine && !s1.thirdLine;
    assert s2.timestamp && !s2.firstLine && s2.secondLine && !s2.thirdLine;
    assert s3.timestamp && !s3.firstLine && !s3.secondLine && s3.thirdLine;
  }

  /** A cue is emitted only on the first line after a timestamp, so no more
      cues come out than there are "-->" lines. */
  lemma {:induction false} GeneratedCueBound(id: string, st: GeneratedState, lines: seq<string>)
    requires GeneratedInvariant(id, st)
    ensures var r := GeneratedRun(id, st, lines);
      |r.output| + (if r.firstLine then 1 else 0)
        <= |st.output| + (if st.firstLine then 1 else 0) + ArrowCount(lines)
    decreases |lines|
  {
    if lines != [] {
      var next := GeneratedStep(id, st, lines[0]);
      GeneratedRunKeepsInvariant(id, st, [lines[0]]);
      assert GeneratedRun(id, st, [lines[0]]) == next;
      GeneratedCueBound(id, next, lines[1..]);
    }
  }

  /** `word.split("<")[0]`: a word without the timing tags glued to it. */
  function BareWord(piece: string): (w: string)
    ensures '<' !in w
  {
    FirstPieceHasNoSeparator(piece, '<');
    SplitOn(piece, "<")[0]
  }

  lemma {:induction false} FirstPieceHasNoSeparator(s: string, c: char)
    ensures c !in SplitOn(s, [c])[0]
    decreases |s|
  {
    if |s| >= 1 && s[..1] != [c] {
      FirstPieceHasNoSeparator(s[1..], c);
      assert s[0] != c;
    }
  }

  /** The words addLastLineToOutput keeps from the pieces of a line: the
      bare word of each piece, except the bleep marker. */
  function KeptWords(pieces: seq<string>): (r: seq<string>)
    ensures |r| <= |pieces|
    ensures forall w :: w in r ==> w != Bleep && '<' !in w
    decreases |pieces|
  {
    if pieces == [] then []
    else
      var last := pieces[|pieces| - 1];
      KeptWords(pieces[..|pieces| - 1]) + (if BareWord(last) != Bleep then [BareWord(last)] else [])
  }

  /** The kept words are exactly the bare words of the pieces that are not
      the bleep marker. */
  lemma {:induction false} KeptWordsMembers(pieces: seq<string>)
    ensures forall i :: 0 <= i < |pieces| && BareWord(pieces[i]) != Bleep ==> BareWord(pieces[i]) in KeptWords(pieces)
    ensures forall w :: w in KeptWords(pieces) ==> exists i :: 0 <= i < |pieces| && BareWord(pieces[i]) == w
    decreases |pieces|
  {
    if pieces != [] {
      var init := pieces[..|pieces| - 1];
      KeptWordsMembers(init);
      assert forall i :: 0 <= i < |init| ==> init[i] == pieces[i];
    }
  }

  /** A single piece gives its bare word, unless that word is the bleep
      marker; with KeptWordsAppend this pins the kept words and their
      order. */
  lemma KeptWordsOne(piece: string)
    ensures KeptWords([piece]) == if BareWord(piece) != Bleep then [BareWord(piece)] else []
  {
    assert [piece][..0] == [];
  }

  lemma KeptWordsSnoc(init: seq<string>, last: string)
    ensures KeptWords(init + [last]) == KeptWords(init) + KeptWords([last])
  {
    var p := init + [last];
    assert p[..|p| - 1] == init && p[|p| - 1] == last;
    KeptWordsOne(last);
  }

  /** The words of two runs of pieces come out in the order of the pieces. */
  lemma {:induction false} KeptWordsAppend(a: seq<string>, b: seq<string>)
    ensures KeptWords(a + b) == KeptWords(a) + KeptWords(b)
    decreases |b|
  {
    if b == [] {
      assert a + b == a;
    } else {
      var init, last := b[..|b| - 1], b[|b| - 1];
      var front := a + init;
      assert a + b == front + [last];
      assert b == init + [last];
      calc {
        KeptWords(a + b);
        KeptWords(front + [last]);
        { KeptWordsSnoc(front, last); }
        KeptWords(front) + KeptWords([last]);
        { KeptWordsAppend(a, init); }
        KeptWords(a) + KeptWords(init) + KeptWords([last]);
        { KeptWordsSnoc(init, last); }
        KeptWords(a) + KeptWords(b);
      }
    }
  }

  /** The position `output[last_line[0]-1]` names, with Python's negative
      index: -1 is the last cue. */
  function LastCueIndex(position: nat, outputLength: nat): (r: Result<nat, ScanError>)
    ensures r.Ok? ==> r.value < outputLength
    ensures !r.Ok? ==> r == Err(IndexError)
    ensures r.Ok? <==> (position >= 1 && position <= outputLength) || (position == 0 && outputLength >= 1)
  {
    if position >= 1 then (if position - 1 < outputLength then Ok(position - 1) else Err(IndexError))
    else if outputLength >= 1 then Ok(outputLength - 1)
    else Err(IndexError)
  }

  /** addLastLineToOutput: appends a space and the kept words of the last
      recorded line to the text of the cue it belongs to; no other cue
      changes. */
  method AddLastLineToOutput(lastLine: LastLine, output: seq<Cue>) returns (r: Result<seq<Cue>, ScanError>)
    ensures r.Ok? <==> LastCueIndex(lastLine.position, |output|).Ok?
    ensures !r.Ok? ==> r == Err(IndexError)
    ensures r.Ok? ==>
      var k := LastCueIndex(lastLine.position, |output|).value;
      var words := KeptWords(SplitOn(lastLine.text, WordSeparator));
      |r.value| == |output|
      && r.value[k] == output[k].(text := output[k].text + " " + Join(" ", words))
      && forall j :: 0 <= j < |output| && j != k ==> r.value[j] == output[j]
  {
    var pieces := SplitOn(lastLine.text, WordSeparator);
    var wordList: seq<string> := [];
    for i := 0 to |pieces|
      invariant wordList == KeptWords(pieces[..i])
    {
      assert pieces[..i + 1][..i] == pieces[..i];
      var word := pieces[i];
      if BareWord(word) != Bleep {
        wordList := wordList + [BareWord(word)];
      }
    }
    assert pieces[..|pieces|] == pieces;
    var index := LastCueIndex(lastLine.position, |output|);
    if index.Err? {
      return Err(index.error);
    }
    var k := index.value;
    r := Ok(output[k := output[k].(text := output[k].text + " " + Join(" ", wordList))]);
  }

  /** extractGeneratedSubs: the spec of the loop and the final fix-up. */
  function GeneratedSubs(id: string, lines: seq<string>): Result<seq<Cue>, ScanError> {
    var st := GeneratedRun(id, GeneratedStart, lines);
    match st.lastLine
    case None => Err(UnboundLocalError)
    case Some(last) =>
      match LastCueIndex(last.position, |st.output|)
      case Err(e) => Err(e)
      case Ok(k) =>
        Ok(st.output[k := st.output[k].(text := st.output[k].text + " "
             + Join(" ", KeptWords(SplitOn(last.text, WordSeparator))))])
  }

  /** extractGeneratedSubs, over the lines of the file. */
  method ExtractGeneratedSubs(id: string, lines: seq<string>) returns (r: Result<seq<Cue>, ScanError>)
    ensures r == GeneratedSubs(id, lines)
    ensures r.Ok? ==> |r.value| <= ArrowCount(lines)
    ensures r.Ok? ==> forall c :: c in r.value ==> c.videoId == id
    ensures GeneratedRun(id, GeneratedStart, lines).lastLine.None? ==> r == Err(UnboundLocalError)
    ensures r == Err(IndexError) ==> GeneratedRun(id, GeneratedStart, lines).output == []
  {
    var output: seq<Cue> := [];
    var counter := 0;
    var timestamp, firstLine, secondLine, thirdLine, saveText := false, false, false, false, false;
    var time := "";
    var lastLine: Option<LastLine> := None;
    for i := 0 to |lines|
      invariant GeneratedRun(id, GeneratedStart, lines)
        == GeneratedRun(id, GeneratedState(counter, timestamp, firstLine, secondLine, thirdLine,
                                           saveText, time, output, lastLine), lines[i..])
    {
      assert lines[i..][0] == lines[i] && lines[i..][1..] == lines[i + 1..];
      var line := lines[i];
      if Contains(line, Arrow) {
        if time == "" {
          time := DropLast(line, 25);
        }
        timestamp := true;
        firstLine := true;
        continue;
      }
      if timestamp {
        if firstLine {
          if saveText {
            output := output + [Cue(id, time, RemoveAll(DropLast(line, 1), BleepSpace))];
            saveText := false;
            counter := counter + 1;
          }
          firstLine := false;
          secondLine := true;
        } else if secondLine {
          if line == " \n" {
            time := "";
          } else {
            saveText := true;
            lastLine := Some(LastLine(counter, DropLast(line, 1)));
          }
          secondLine := false;
          thirdLine := true;
        } else if thirdLine {
          thirdLine := false;
          timestamp := false;
        }
      }
    }
    assert lines[|lines|..] == [];
    GeneratedRunKeepsInvariant(id, GeneratedStart, lines);
    GeneratedCueBound(id, GeneratedStart, lines);
    if lastLine.None? {
      return Err(UnboundLocalError);
    }
    r := AddLastLineToOutput(lastLine.value, output);
    if r.Ok? {
      var k := LastCueIndex(lastLine.value.position, |output|).value;
      var words := KeptWords(SplitOn(lastLine.value.text, WordSeparator));
      assert r.value == output[k := output[k].(text := output[k].text + " " + Join(" ", words))];
      forall c | c in r.value ensures c.videoId == id {
        var j :| 0 <= j < |r.value| && r.value[j] == c;
        assert output[j] in output;
      }
    }
  }

  // ---------------------------------------------------------------------
  // createDataFrame (Transcription.py:122-154)

  /** The start and end strings cut out of a cue's timecode line. An
      hour-less start ("MM:SS.fff -->", so character 11 is "-") is padded
      with "00:"; so is an hour-less end (character 2 of the part from 17
      on is "."). A line shorter than 20 characters raises IndexError. */
  function SplitTimecode(tc: string): (r: Result<(string, string), ScanError>)
    ensures r.Ok? <==> |tc| >= 20
    ensures r.Ok? ==> r.value.0 == (if tc[11] == '-' then "00:" + tc[..9] else tc[..12])
    ensures r.Ok? ==> r.value.1 == (if tc[19] == '.' then "00:" + tc[14..] else tc[17..])
  {
    if |tc| < 20 then Err(IndexError)
    else
      var head := tc[..12];
      var start := if head[|head| - 1] == '-' then "00:" + tc[..9] else head;
      var tail := tc[17..];
      var end := if tail[2] == '.' then "00:" + tc[14..] else tail;
      Ok((start, end))
  }

  /** A two-part timecode with hours is cut into its two halves. */
  lemma SplitFullTimecode(a: string, b: string)
    requires |a| == 12 && |b| == 12 && a[2] == ':' && b[2] == ':' && a[11] != '-'
    ensures SplitTimecode(a + " --> " + b) == Ok((a, b))
  {
    var tc := a + " --> " + b;
    assert tc[..12] == a && tc[17..] == b;
  }

  /** An hour-less timecode is cut into its halves, each given "00:". */
  lemma SplitHourlessTimecode(a: string, b: string)
    requires |a| == 9 && |b| == 9 && b[5] == '.'
    ensures SplitTimecode(a + " --> " + b) == Ok(("00:" + a, "00:" + b))
  {
    var tc := a + " --> " + b;
    assert tc[..9] == a && tc[14..] == b && tc[11] == '-' && tc[19] == b[5];
  }

  /** The transcription table: its four columns and the flag column. */
  datatype TranscriptTable = TranscriptTable(
    ids: seq<string>, startTimes: seq<string>, endTimes: seq<string>, texts: seq<string>,
    whisperGenerated: bool)

  function Flatten(subtitleList: seq<seq<Cue>>): (r: seq<Cue>)
    ensures forall c :: c in r ==> exists t :: t in subtitleList && c in t
    decreases |subtitleList|
  {
    if subtitleList == [] then []
    else Flatten(subtitleList[..|subtitleList| - 1]) + subtitleList[|subtitleList| - 1]
  }

  /** The row a cue becomes, when its timecode can be cut. */
  predicate RowOf(c: Cue, id: string, start: string, end: string, text: string) {
    SplitTimecode(c.time).Ok? && id == c.videoId && start == SplitTimecode(c.time).value.0
    && end == SplitTimecode(c.time).value.1 && text == c.text
  }

  predicate RowsMatch(cues: seq<Cue>, ids: seq<string>, starts: seq<string>, ends: seq<string>, texts: seq<string>) {
    |ids| == |cues| && |starts| == |cues| && |ends| == |cues| && |texts| == |cues|
    && forall i :: 0 <= i < |cues| ==> RowOf(cues[i], ids[i], starts[i], ends[i], texts[i])
  }

  /** createDataFrame: one row per cue, in order, or the IndexError of the
      first cue whose timecode is too short. */
  method CreateDataFrame(subtitleList: seq<seq<Cue>>, fromYouTube: bool) returns (r: Result<TranscriptTable, ScanError>)
    ensures r.Ok? <==> forall c :: c in Flatten(subtitleList) ==> |c.time| >= 20
    ensures r.Ok? ==> RowsMatch(Flatten(subtitleList), r.value.ids, r.value.startTimes, r.value.endTimes, r.value.texts)
    ensures r.Ok? ==> r.value.whisperGenerated == !fromYouTube
  {
    var ids: seq<string> := [];
    var starts: seq<string> := [];
    var ends: seq<string> := [];
    var texts: seq<string> := [];
    for t := 0 to |subtitleList|
      invariant RowsMatch(Flatten(subtitleList[..t]), ids, starts, ends, texts)
    {
      var transcription := subtitleList[t];
      assert subtitleList[..t + 1][..t] == subtitleList[..t];
      assert Flatten(subtitleList[..t + 1]) == Flatten(subtitleList[..t]) + transcription;
      for l := 0 to |transcription|
        invariant RowsMatch(Flatten(subtitleList[..t]) + transcription[..l], ids, starts, ends, texts)
      {
        var line := transcription[l];
        var cut := SplitTimecode(line.time);
        if cut.Err? {
          assert line in Flatten(subtitleList[..t + 1]);
          FlattenPrefix(subtitleList, t + 1, line);
          return Err(cut.error);
        }
        ids := ids + [line.videoId];
        starts := starts + [cut.value.0];
        ends := ends + [cut.value.1];
        texts := texts + [line.text];
        assert transcription[..l + 1] == transcription[..l] + [line];
      }
      assert transcription[..|transcription|] == transcription;
    }
    assert subtitleList[..|subtitleList|] == subtitleList;
    r := Ok(TranscriptTable(ids, starts, ends, texts, !fromYouTube));
  }

  lemma {:induction false} FlattenPrefix(subtitleList: seq<seq<Cue>>, n: nat, c: Cue)
    requires n <= |subtitleList| && c in Flatten(subtitleList[..n])
    ensures c in Flatten(subtitleList)
    decreases |subtitleList| - n
  {
    if n < |subtitleList| {
      var longer := subtitleList[..n + 1];
      assert longer[..n] == subtitleList[..n];
      assert Flatten(longer) == Flatten(subtitleList[..n]) + longer[n];
      FlattenPrefix(subtitleList, n + 1, c);
    } else {
      assert subtitleList[..n] == subtitleList;
    }
  }
}
