/** The watch-history side of ytutils/History.py: video ids cut out of
    URLs, the row filter applied before sampling, the column renaming, the
    routing of exported files, and the bookkeeping that keeps sampled URL
    sets disjoint. A cell that pandas holds as NaN is `None`. */
module History {
  import opened Wrappers
  import opened PyStr
  import opened Ordering

  type Cell = Option<string>

  /** The part of a watch URL in front of the video id (32 characters). */
  const WatchPrefix := "https://www.youtube.com/watch?v="

  // ---------------------------------------------------------------------
  // getIds (History.py:50-54)

  /** `url[x:]` for a string URL, NaN passed through. */
  function IdOf(url: Cell): (id: Cell)
    ensures id.None? <==> url.None?
    ensures id.Some? ==> |id.value| == if |url.value| <= |WatchPrefix| then 0 else |url.value| - |WatchPrefix|
    ensures id.Some? ==> id.value == url.value[|url.value| - |id.value|..]
  {
    match url
    case None => None
    case Some(u) => Some(SliceFrom(u, |WatchPrefix|))
  }

  /** getIds: one id per URL, in order. */
  function GetIds(urls: seq<Cell>): (ids: seq<Cell>)
    ensures |ids| == |urls|
    ensures forall i :: 0 <= i < |urls| ==> ids[i] == IdOf(urls[i])
  {
    seq(|urls|, i requires 0 <= i < |urls| => IdOf(urls[i]))
  }

  /** A watch URL gives back the video id it was built from. */
  lemma IdOfWatchUrl(videoId: string)
    ensures IdOf(Some(WatchPrefix + videoId)) == Some(videoId)
  {
    assert (WatchPrefix + videoId)[|WatchPrefix|..] == videoId;
  }

  lemma GetIdsOfWatchUrls(videoIds: seq<string>)
    ensures GetIds(seq(|videoIds|, i requires 0 <= i < |videoIds| => Some(WatchPrefix + videoIds[i])))
      == seq(|videoIds|, i requires 0 <= i < |videoIds| => Some(videoIds[i]))
  {
    forall i | 0 <= i < |videoIds| {
      IdOfWatchUrl(videoIds[i]);
    }
  }

  // ---------------------------------------------------------------------
  // clean_dataframe (History.py:165-173)

  /** One row of the watch history, with the columns the pipeline reads. */
  datatype WatchRow = WatchRow(
    participant: string, date: string, url: Cell, videoId: Cell, details: Cell)

  /** `len(str(url))`: NaN prints as "nan". */
  function StrLen(url: Cell): nat {
    match url
    case None => 3
    case Some(u) => |u|
  }

  const MaxUrlLength := 43

  predicate HasVideoId(r: WatchRow) { r.videoId.Some? }
  predicate NotAnAd(r: WatchRow) { r.details.None? }
  predicate ShortUrl(r: WatchRow) { StrLen(r.url) <= MaxUrlLength }

  predicate Clean(r: WatchRow) { HasVideoId(r) && NotAnAd(r) && ShortUrl(r) }

  /** A boolean-mask selection: the rows that satisfy `p`, in order. */
  function Filter<T>(s: seq<T>, p: T -> bool): (r: seq<T>)
    ensures |r| <= |s|
    decreases |s|
  {
    if s == [] then []
    else Filter(s[..|s| - 1], p) + (if p(s[|s| - 1]) then [s[|s| - 1]] else [])
  }

  /** The mask keeps exactly the rows that satisfy it. */
  lemma {:induction false} FilterMembers<T(!new)>(s: seq<T>, p: T -> bool)
    ensures forall x :: x in Filter(s, p) <==> x in s && p(x)
    decreases |s|
  {
    if s != [] {
      FilterMembers(s[..|s| - 1], p);
      assert s == s[..|s| - 1] + [s[|s| - 1]];
    }
  }

  lemma {:induction false} FilterAppend<T(!new)>(a: seq<T>, b: seq<T>, p: T -> bool)
    ensures Filter(a + b, p) == Filter(a, p) + Filter(b, p)
    decreases |b|
  {
    if b == [] {
      assert a + b == a;
    } else {
      var c := b[..|b| - 1];
      assert (a + b)[..|a + b| - 1] == a + c;
      assert (a + b)[|a + b| - 1] == b[|b| - 1];
      FilterAppend(a, c, p);
    }
  }

  /** Filtering by `p` and then by `q` keeps what one pass by `pq` keeps,
      when `pq` is their conjunction. */
  lemma {:induction false} FilterTwice<T(!new)>(s: seq<T>, p: T -> bool, q: T -> bool, pq: T -> bool)
    requires forall x :: pq(x) == (p(x) && q(x))
    ensures Filter(Filter(s, p), q) == Filter(s, pq)
    decreases |s|
  {
    if s != [] {
      var init, last := s[..|s| - 1], s[|s| - 1];
      FilterTwice(init, p, q, pq);
      FilterAppend(Filter(init, p), if p(last) then [last] else [], q);
      if p(last) {
        assert Filter([last], q) == Filter([], q) + (if q(last) then [last] else []);
      }
    }
  }

  /** clean_dataframe: the three masks in the order the code applies them. */
  function CleanDataframe(rows: seq<WatchRow>): (r: seq<WatchRow>)
    ensures |r| <= |rows|
    ensures forall x :: x in r <==> x in rows && Clean(x)
  {
    FilterMembers(rows, HasVideoId);
    FilterMembers(Filter(rows, HasVideoId), NotAnAd);
    FilterMembers(Filter(Filter(rows, HasVideoId), NotAnAd), ShortUrl);
    Filter(Filter(Filter(rows, HasVideoId), NotAnAd), ShortUrl)
  }

  /** The three masks select what one mask on all three conditions does. */
  lemma CleanIsOneFilter(rows: seq<WatchRow>)
    ensures CleanDataframe(rows) == Filter(rows, Clean)
  {
    var idAndNotAd := (x: WatchRow) => HasVideoId(x) && NotAnAd(x);
    FilterTwice(rows, HasVideoId, NotAnAd, idAndNotAd);
    FilterTwice(rows, idAndNotAd, ShortUrl, Clean);
  }

  lemma FilterCons<T(!new)>(x: T, s: seq<T>, p: T -> bool)
    ensures p(x) ==> Filter([x] + s, p) == [x] + Filter(s, p)
    ensures !p(x) ==> Filter([x] + s, p) == Filter(s, p)
  {
    FilterAppend([x], s, p);
    assert [x][..0] == [];
  }

  lemma {:induction false} FilterAllPass<T(!new)>(s: seq<T>, p: T -> bool)
    requires forall i :: 0 <= i < |s| ==> p(s[i])
    ensures Filter(s, p) == s
    decreases |s|
  {
    if s != [] {
      FilterAllPass(s[..|s| - 1], p);
      assert s[..|s| - 1] + [s[|s| - 1]] == s;
    }
  }

  /** Cleaning twice is cleaning once. */
  lemma CleanIdempotent(rows: seq<WatchRow>)
    ensures CleanDataframe(CleanDataframe(rows)) == CleanDataframe(rows)
  {
    var once := CleanDataframe(rows);
    CleanIsOneFilter(once);
    assert forall i :: 0 <= i < |once| ==> once[i] in once;
    FilterAllPass(once, Clean);
  }

  /** Cleaning a concatenation cleans each part. */
  lemma CleanAppend(a: seq<WatchRow>, b: seq<WatchRow>)
    ensures CleanDataframe(a + b) == CleanDataframe(a) + CleanDataframe(b)
  {
    CleanIsOneFilter(a + b);
    CleanIsOneFilter(a);
    CleanIsOneFilter(b);
    FilterAppend(a, b, Clean);
  }

  // ---------------------------------------------------------------------
  // renameColumns (History.py:28-47)

  datatype Column = Column(name: string, values: seq<Cell>)
  type Frame = seq<Column>

  datatype HistoryError =
    | KeyError          // no "description" column
    | AttributeError    // several: `df["description"]` is a frame, with no `tolist`

  function Names(f: Frame): (r: seq<string>)
    ensures |r| == |f| && forall i :: 0 <= i < |f| ==> r[i] == f[i].name
  {
    seq(|f|, i requires 0 <= i < |f| => f[i].name)
  }

  /** How many columns carry a label: the multiplicity of the label among
      the column names. */
  function CountName(f: Frame, name: string): (n: nat)
    ensures n == 0 <==> name !in Names(f)
    decreases |f|
  {
    if f == [] then 0
    else
      assert Names(f) == [f[0].name] + Names(f[1..]);
      (if f[0].name == name then 1 else 0) + CountName(f[1..], name)
  }

  /** CountName is the multiplicity of the label among the column names,
      which is what separates a missing description column, a single one
      and several. */
  lemma {:induction false} CountNameIsMultiplicity(f: Frame, name: string)
    ensures CountName(f, name) == multiset(Names(f))[name]
    decreases |f|
  {
    if f != [] {
      CountNameIsMultiplicity(f[1..], name);
      assert Names(f) == [f[0].name] + Names(f[1..]);
    }
  }

  /** The label a column gets from `rename`: "title" becomes `titleName`,
      "titleUrl" becomes "url", every other label stays. */
  function Relabel(name: string, titleName: string): string {
    if name == "title" then titleName else if name == "titleUrl" then "url" else name
  }

  function RenameWith(f: Frame, titleName: string): (r: Frame)
    requires titleName != "title" && titleName != "titleUrl"
    ensures |r| == |f|
    ensures forall i :: 0 <= i < |f| ==> r[i].values == f[i].values && r[i].name == Relabel(f[i].name, titleName)
    ensures "title" !in Names(r) && "titleUrl" !in Names(r)
    ensures "title" in Names(f) ==> titleName in Names(r)
    ensures "titleUrl" in Names(f) ==> "url" in Names(r)
  {
    var r := seq(|f|, i requires 0 <= i < |f| => Column(Relabel(f[i].name, titleName), f[i].values));
    RelabelReaches(f, r, titleName, "title", titleName);
    RelabelReaches(f, r, titleName, "titleUrl", "url");
    r
  }

  lemma RelabelReaches(f: Frame, r: Frame, titleName: string, from: string, to: string)
    requires |r| == |f| && forall i :: 0 <= i < |f| ==> r[i].name == Relabel(f[i].name, titleName)
    requires Relabel(from, titleName) == to
    ensures from in Names(f) ==> to in Names(r)
  {
    if from in Names(f) {
      var i :| 0 <= i < |f| && f[i].name == from;
      assert Names(r)[i] == to;
    }
  }

  /** The values of the first column with this label. */
  function ColumnValues(f: Frame, name: string): seq<Cell>
    requires name in Names(f)
    decreases |f|
  {
    if f[0].name == name then f[0].values
    else
      assert Names(f) == [f[0].name] + Names(f[1..]);
      ColumnValues(f[1..], name)
  }

  function DropColumn(f: Frame, name: string): (r: Frame)
    ensures forall c :: c in r <==> c in f && c.name != name
  {
    var keep := (c: Column) => c.name != name;
    FilterMembers(f, keep);
    Filter(f, keep)
  }

  /** The first half of renameColumns: the description column taken out
      and put back as the last column. */
  function MoveDescription(search: Frame): (r: Frame)
    requires CountName(search, "description") == 1
    ensures |r| == |search|
    ensures r[|r| - 1] == Column("description", ColumnValues(search, "description"))
    ensures r[..|r| - 1] == DropColumn(search, "description")
    ensures forall i :: 0 <= i < |r| - 1 ==> r[i].name != "description"
    ensures "title" in Names(search) ==> "title" in Names(r)
  {
    var descriptions := ColumnValues(search, "description");
    DropOneColumn(search, "description");
    MovedKeepsTitle(search, descriptions);
    var kept := DropColumn(search, "description");
    assert forall i :: 0 <= i < |kept| ==> kept[i] in kept;
    kept + [Column("description", descriptions)]
  }

  /** renameColumns: the search history's description column moves to the
      end, "title" becomes "searched_title" and "watched_title", and
      "titleUrl" becomes "url"; every column keeps its values. Selecting
      `df["description"]` needs exactly one such column. */
  function RenameColumns(search: Frame, watch: Frame): (r: Result<(Frame, Frame), HistoryError>)
    ensures r.Ok? <==> CountName(search, "description") == 1
    ensures CountName(search, "description") == 0 ==> r == Err(KeyError)
    ensures CountName(search, "description") > 1 ==> r == Err(AttributeError)
    ensures r.Ok? ==> r.value.0 == RenameSearch(search) && r.value.1 == RenameWith(watch, "watched_title")
  {
    var n := CountName(search, "description");
    if n == 0 then Err(KeyError)
    else if n > 1 then Err(AttributeError)
    else Ok((RenameSearch(search), RenameWith(watch, "watched_title")))
  }

  /** The search history's renaming, once its description column is known
      to be unique: the description column ends up last, with its values. */
  function RenameSearch(search: Frame): (r: Frame)
    requires CountName(search, "description") == 1
    ensures |r| == |search|
    ensures r[|r| - 1] == Column("description", ColumnValues(search, "description"))
    ensures var kept := DropColumn(search, "description");
      |kept| == |r| - 1
      && forall i :: 0 <= i < |kept| ==>
        r[i].values == kept[i].values && r[i].name == Relabel(kept[i].name, "searched_title")
  {
    var moved := MoveDescription(search);
    var renamed := RenameWith(moved, "searched_title");
    RenamedMoved(DropColumn(search, "description"), ColumnValues(search, "description"), moved, renamed);
    renamed
  }

  /** Relabelling the moved frame keeps the kept columns in place and the
      description column last. */
  lemma RenamedMoved(kept: Frame, descriptions: seq<Cell>, moved: Frame, renamed: Frame)
    requires moved == kept + [Column("description", descriptions)]
    requires |renamed| == |moved|
    requires forall i :: 0 <= i < |moved| ==>
      renamed[i].values == moved[i].values && renamed[i].name == Relabel(moved[i].name, "searched_title")
    ensures renamed[|renamed| - 1] == Column("description", descriptions)
    ensures |kept| == |renamed| - 1
    ensures forall i :: 0 <= i < |kept| ==>
      renamed[i].values == kept[i].values && renamed[i].name == Relabel(kept[i].name, "searched_title")
  {
    assert renamed[|renamed| - 1].name == Relabel("description", "searched_title");
    forall i | 0 <= i < |kept|
      ensures renamed[i].values == kept[i].values && renamed[i].name == Relabel(kept[i].name, "searched_title")
    {
      assert moved[i] == kept[i];
    }
  }

  /** After the search history's renaming no other column is labelled
      "description", the title columns are gone, and "searched_title"
      stands where "title" was. */
  lemma RenamedSearchLabels(search: Frame)
    requires CountName(search, "description") == 1
    ensures var r := RenameSearch(search);
      (forall i :: 0 <= i < |r| - 1 ==> r[i].name != "description")
      && "title" !in Names(r) && "titleUrl" !in Names(r)
      && ("title" in Names(search) ==> "searched_title" in Names(r))
  {
    RelabelledKeptLabels(search, DropColumn(search, "description"), RenameSearch(search));
  }

  /** The labels of the kept columns after relabelling, with "description" last. */
  lemma RelabelledKeptLabels(search: Frame, kept: Frame, r: Frame)
    requires forall c :: c in kept <==> c in search && c.name != "description"
    requires |kept| == |r| - 1 && r[|r| - 1].name == "description"
    requires forall i :: 0 <= i < |kept| ==> r[i].name == Relabel(kept[i].name, "searched_title")
    ensures forall i :: 0 <= i < |r| - 1 ==> r[i].name != "description"
    ensures "title" !in Names(r) && "titleUrl" !in Names(r)
    ensures "title" in Names(search) ==> "searched_title" in Names(r)
  {
    forall i | 0 <= i < |r| - 1 ensures r[i].name != "description" && r[i].name != "title" && r[i].name != "titleUrl" {
      assert kept[i] in kept;
    }
    assert Names(r)[|r| - 1] == "description";
    if "title" in Names(search) {
      var i :| 0 <= i < |search| && search[i].name == "title";
      assert search[i] in kept;
      var j :| 0 <= j < |kept| && kept[j] == search[i];
      assert Names(r)[j] == "searched_title";
    }
  }

  lemma MovedKeepsTitle(search: Frame, descriptions: seq<Cell>)
    ensures "title" in Names(search) ==>
      "title" in Names(DropColumn(search, "description") + [Column("description", descriptions)])
  {
    if "title" in Names(search) {
      var kept := DropColumn(search, "description");
      var moved := kept + [Column("description", descriptions)];
      var i :| 0 <= i < |search| && search[i].name == "title";
      assert search[i] in kept;
      var j :| 0 <= j < |kept| && kept[j] == search[i];
      assert Names(moved)[j] == "title";
    }
  }

  /** Dropping a label that occurs once removes exactly one column. */
  lemma {:induction false} DropOneColumn(f: Frame, name: string)
    requires CountName(f, name) == 1
    ensures |DropColumn(f, name)| == |f| - 1
    decreases |f|
  {
    var p := (c: Column) => c.name != name;
    assert f == [f[0]] + f[1..];
    FilterCons(f[0], f[1..], p);
    if f[0].name == name {
      DropAbsentColumn(f[1..], name);
    } else {
      DropOneColumn(f[1..], name);
    }
  }

  /** Dropping a label that does not occur removes nothing. */
  lemma DropAbsentColumn(f: Frame, name: string)
    requires CountName(f, name) == 0
    ensures Filter(f, (c: Column) => c.name != name) == f
  {
    assert forall i :: 0 <= i < |f| ==> Names(f)[i] == f[i].name;
    FilterAllPass(f, (c: Column) => c.name != name);
  }

  // ---------------------------------------------------------------------
  // loadHistoryData file routing (History.py:105-114)

  const JsonSuffix := ".json"

  predicate IsJson(file: string) { EndsWith(file, JsonSuffix) }

  /** `file[0].lower() == letter`, for the two letters the code asks about. */
  predicate StartsWithLetter(file: string, lower: char, upper: char) {
    file != [] && (file[0] == lower || file[0] == upper)
  }

  predicate SearchLetter(file: string) { StartsWithLetter(file, 's', 'S') }
  predicate WatchLetter(file: string) { StartsWithLetter(file, 'w', 'W') }

  predicate SearchFile(file: string) { IsJson(file) && SearchLetter(file) }
  predicate WatchFile(file: string) { IsJson(file) && WatchLetter(file) }

  lemma FilterSnoc<T(!new)>(s: seq<T>, i: nat, p: T -> bool)
    requires i < |s|
    ensures p(s[i]) ==> Filter(s[..i + 1], p) == Filter(s[..i], p) + [s[i]]
    ensures !p(s[i]) ==> Filter(s[..i + 1], p) == Filter(s[..i], p)
  {
    assert s[..i + 1][..i] == s[..i];
  }

  /** The files loadHistoryData reads into the search history and into the
      watch history, in the order they are concatenated. */
  method RouteHistoryFiles(listing: seq<string>) returns (searchFiles: seq<string>, watchFiles: seq<string>)
    ensures searchFiles == Filter(listing, SearchFile)
    ensures watchFiles == Filter(listing, WatchFile)
    ensures forall f :: f in searchFiles ==> f !in watchFiles
    ensures forall f :: f in listing && !SearchFile(f) && !WatchFile(f) ==> f !in searchFiles && f !in watchFiles
  {
    var files := Filter(listing, IsJson);
    JsonThenLetter(listing);
    searchFiles, watchFiles := [], [];
    for i := 0 to |files|
      invariant searchFiles == Filter(files[..i], SearchLetter)
      invariant watchFiles == Filter(files[..i], WatchLetter)
    {
      FilterSnoc(files, i, SearchLetter);
      FilterSnoc(files, i, WatchLetter);
      var file := files[i];
      if SearchLetter(file) {
        searchFiles := searchFiles + [file];
      }
      if WatchLetter(file) {
        watchFiles := watchFiles + [file];
      }
    }
    assert files[..|files|] == files;
    RoutesDisjoint(listing);
  }

  lemma JsonThenLetter(listing: seq<string>)
    ensures Filter(Filter(listing, IsJson), SearchLetter) == Filter(listing, SearchFile)
    ensures Filter(Filter(listing, IsJson), WatchLetter) == Filter(listing, WatchFile)
  {
    FilterTwice(listing, IsJson, SearchLetter, SearchFile);
    FilterTwice(listing, IsJson, WatchLetter, WatchFile);
  }

  /** No file is read into both histories, and a file that is not a search
      or watch history file is read into neither. */
  lemma RoutesDisjoint(listing: seq<string>)
    ensures forall f :: f in Filter(listing, SearchFile) ==> f !in Filter(listing, WatchFile)
    ensures forall f :: f in listing && !SearchFile(f) && !WatchFile(f) ==>
      f !in Filter(listing, SearchFile) && f !in Filter(listing, WatchFile)
  {
    FilterMembers(listing, SearchFile);
    FilterMembers(listing, WatchFile);
  }

  // ---------------------------------------------------------------------
  // loadNewData (History.py:132-143) and concatenateDataForEpinion (7-11)

  /** The participant id a file name gives: `filename[:-5]`. */
  function ParticipantOf(file: string): (p: string)
    requires IsJson(file)
    ensures p + JsonSuffix == file
  {
    DropLast(file, 5)
  }

  /** `file not in [id + ".json" for id in old_ids]`. */
  predicate NotLoaded(existingIds: seq<string>, file: string) {
    forall id :: id in existingIds ==> id + JsonSuffix != file
  }

  /** A listed file loadNewData reads. */
  predicate NewFile(existingIds: seq<string>, file: string) {
    IsJson(file) && NotLoaded(existingIds, file)
  }

  /** A listed JSON file is new exactly when its participant id is not
      among the existing ones. */
  lemma NewFileIffNewParticipant(existingIds: seq<string>, file: string)
    requires IsJson(file)
    ensures NotLoaded(existingIds, file) <==> ParticipantOf(file) !in existingIds
  {
    if !NotLoaded(existingIds, file) {
      var id :| id in existingIds && id + JsonSuffix == file;
      SameSuffixSamePrefix(id, ParticipantOf(file), JsonSuffix);
    }
  }

  lemma SameSuffixSamePrefix(a: string, b: string, suffix: string)
    requires a + suffix == b + suffix
    ensures a == b
  {
    assert |a| == |b|;
    assert a == (a + suffix)[..|a|];
    assert b == (b + suffix)[..|b|];
  }

  /** loadNewData: the participants whose files it loads, in listing
      order, each `filename[:-5]` of a JSON file not already loaded. */
  method LoadNewParticipants(existingIds: seq<string>, listing: seq<string>) returns (participants: seq<string>)
    ensures |participants| == |Filter(listing, f => NewFile(existingIds, f))|
    ensures forall p :: p in participants ==> p !in existingIds && p + JsonSuffix in listing
    ensures forall f :: f in listing && IsJson(f) && ParticipantOf(f) !in existingIds ==> ParticipantOf(f) in participants
    ensures forall k :: 0 <= k < |participants| ==>
      participants[k] + JsonSuffix == Filter(listing, f => NewFile(existingIds, f))[k]
  {
    var files := Filter(listing, f => NewFile(existingIds, f));
    FilterMembers(listing, f => NewFile(existingIds, f));
    participants := [];
    for i := 0 to |files|
      invariant |participants| == i
      invariant forall k :: 0 <= k < i ==> IsJson(files[k]) && participants[k] == ParticipantOf(files[k])
    {
      assert files[i] in files;
      participants := participants + [ParticipantOf(files[i])];
    }
    NewParticipantsSound(existingIds, listing, files, participants);
  }

  lemma NewParticipantsSound(existingIds: seq<string>, listing: seq<string>, files: seq<string>, participants: seq<string>)
    requires files == Filter(listing, f => NewFile(existingIds, f))
    requires |participants| == |files|
    requires forall k :: 0 <= k < |files| ==> IsJson(files[k]) && participants[k] == ParticipantOf(files[k])
    ensures forall p :: p in participants ==> p !in existingIds && p + JsonSuffix in listing
    ensures forall f :: f in listing && IsJson(f) && ParticipantOf(f) !in existingIds ==> ParticipantOf(f) in participants
  {
    FilterMembers(listing, f => NewFile(existingIds, f));
    forall p | p in participants ensures p !in existingIds && p + JsonSuffix in listing {
      var k :| 0 <= k < |participants| && participants[k] == p;
      assert files[k] in files;
      NewFileIffNewParticipant(existingIds, files[k]);
    }
    forall f | f in listing && IsJson(f) && ParticipantOf(f) !in existingIds
      ensures ParticipantOf(f) in participants
    {
      NewFileIffNewParticipant(existingIds, f);
      assert f in files;
      var k :| 0 <= k < |files| && files[k] == f;
      assert participants[k] == ParticipantOf(f);
    }
  }

  // ---------------------------------------------------------------------
  // sampleVids (History.py:175-217)

  /** `pd.unique`: first occurrences, in order. */
  function Unique<T(==,!new)>(s: seq<T>): (r: seq<T>)
    ensures forall x :: x in r <==> x in s
    ensures forall i, j :: 0 <= i < j < |r| ==> r[i] != r[j]
    ensures |r| <= |s|
    decreases |s|
  {
    if s == [] then []
    else
      var u := Unique(s[..|s| - 1]);
      assert forall x :: x in s <==> x in s[..|s| - 1] || x == s[|s| - 1] by {
        assert s == s[..|s| - 1] + [s[|s| - 1]];
      }
      if s[|s| - 1] in u then u else u + [s[|s| - 1]]
  }

  /** Every occurrence of b in s comes after an occurrence of a. */
  ghost predicate AppearsBefore<T>(s: seq<T>, a: T, b: T) {
    forall k :: 0 <= k < |s| && s[k] == b ==> a in s[..k]
  }

  /** `pd.unique` keeps the order of first appearance: of two values of the
      result, the earlier one appears in the input before the later one
      first does. */
  lemma {:induction false} UniqueFirstAppearanceOrder<T(!new)>(s: seq<T>)
    ensures forall i, j :: 0 <= i < j < |Unique(s)| ==> AppearsBefore(s, Unique(s)[i], Unique(s)[j])
    decreases |s|
  {
    if s != [] {
      var init, x := s[..|s| - 1], s[|s| - 1];
      var u := Unique(init);
      var r := Unique(s);
      UniqueFirstAppearanceOrder(init);
      forall i, j | 0 <= i < j < |r| ensures AppearsBefore(s, r[i], r[j]) {
        assert r[i] == u[i] && r[i] in init;
        forall k | 0 <= k < |s| && s[k] == r[j] ensures r[i] in s[..k] {
          if k < |s| - 1 {
            assert init[k] == s[k] && init[..k] == s[..k];
            assert r[j] in init;
            assert j < |u| && r[j] == u[j];
            assert AppearsBefore(init, u[i], u[j]);
          } else {
            assert s[..k] == init;
          }
        }
      }
    }
  }

  function DateKey(d: string): Key { Key(d, 0) }

  function Dates(rows: seq<WatchRow>): (r: seq<string>)
    ensures |r| == |rows| && forall i :: 0 <= i < |rows| ==> r[i] == rows[i].date
  {
    seq(|rows|, i requires 0 <= i < |rows| => rows[i].date)
  }

  function Participants(rows: seq<WatchRow>): (r: seq<string>)
    ensures |r| == |rows| && forall i :: 0 <= i < |rows| ==> r[i] == rows[i].participant
  {
    seq(|rows|, i requires 0 <= i < |rows| => rows[i].participant)
  }

  function Urls(rows: seq<WatchRow>): (r: seq<Cell>)
    ensures |r| == |rows| && forall i :: 0 <= i < |rows| ==> r[i] == rows[i].url
  {
    seq(|rows|, i requires 0 <= i < |rows| => rows[i].url)
  }

  /** `sorted(pd.unique(dates))`: every date once, in increasing order. */
  function SortedDates(rows: seq<WatchRow>): (r: seq<string>)
    ensures forall d :: d in r <==> exists i :: 0 <= i < |rows| && rows[i].date == d
    ensures forall i, j :: 0 <= i < j < |r| ==> StrLe(r[i], r[j]) && r[i] != r[j]
  {
    var u := Unique(Dates(rows));
    var r := SortBy(u, DateKey);
    assert forall d :: d in r <==> d in u by {
      forall d ensures d in r <==> d in u {
        assert d in r <==> d in multiset(r);
      }
    }
    forall i, j | 0 <= i < j < |r| ensures StrLe(r[i], r[j]) && r[i] != r[j] {
      assert KeyLe(DateKey(r[i]), DateKey(r[j]));
      if r[i] == r[j] {
        DistinctHasNoRepeat(u, r, i, j);
      }
    }
    r
  }

  /** A reordering of a sequence without repeats has none either. */
  lemma DistinctHasNoRepeat<T>(u: seq<T>, r: seq<T>, i: nat, j: nat)
    requires forall a, b :: 0 <= a < b < |u| ==> u[a] != u[b]
    requires multiset(r) == multiset(u)
    requires i < j < |r|
    ensures r[i] != r[j]
  {
    var x := r[i];
    OccursAtMostOnce(u, x);
    assert r == r[..j] + [r[j]] + r[j + 1..];
    assert x in r[..j];
    assert multiset(r)[x] == multiset(r[..j])[x] + multiset([r[j]])[x] + multiset(r[j + 1..])[x];
  }

  lemma {:induction false} OccursAtMostOnce<T>(u: seq<T>, x: T)
    requires forall a, b :: 0 <= a < b < |u| ==> u[a] != u[b]
    ensures multiset(u)[x] <= 1
    decreases |u|
  {
    if u != [] {
      assert u == [u[0]] + u[1..];
      OccursAtMostOnce(u[1..], x);
      if u[0] == x {
        assert x !in u[1..];
      }
    }
  }

  /** The URLs of one participant on one date, each once. */
  function ParticipantUrls(rows: seq<WatchRow>, date: string, participant: string): seq<Cell> {
    Unique(Urls(Filter(rows, (r: WatchRow) => r.date == date && r.participant == participant)))
  }

  function SetOf(s: seq<Cell>): (r: set<Cell>)
    ensures forall x :: x in r <==> x in s
  {
    set x | x in s
  }

  /** `URL_`: the union of the accepted samples. */
  function UnionOf(samples: seq<(string, seq<Cell>)>): (r: set<Cell>)
    ensures forall x :: x in r <==> exists k :: 0 <= k < |samples| && x in samples[k].1
    decreases |samples|
  {
    if samples == [] then {}
    else
      var init := samples[..|samples| - 1];
      assert forall k :: 0 <= k < |init| ==> init[k] == samples[k];
      UnionOf(init) + SetOf(samples[|samples| - 1].1)
  }

  predicate PairwiseDisjoint(samples: seq<(string, seq<Cell>)>) {
    forall j, k :: 0 <= j < k < |samples| ==> SetOf(samples[j].1) !! SetOf(samples[k].1)
  }

  /** Appending a sample disjoint from the union keeps the samples pairwise
      disjoint, and the union grows by exactly that sample. */
  lemma AcceptKeepsDisjoint(samples: seq<(string, seq<Cell>)>, entry: (string, seq<Cell>))
    requires PairwiseDisjoint(samples)
    requires UnionOf(samples) !! SetOf(entry.1)
    ensures PairwiseDisjoint(samples + [entry])
    ensures UnionOf(samples + [entry]) == UnionOf(samples) + SetOf(entry.1)
  {
    var s := samples + [entry];
    assert s[..|s| - 1] == samples;
    forall j, k | 0 <= j < k < |s| ensures SetOf(s[j].1) !! SetOf(s[k].1) {
      if k == |s| - 1 {
        forall x | x in SetOf(s[j].1) ensures x !in SetOf(entry.1) {
          assert x in UnionOf(samples);
        }
      }
    }
  }

  /** The number of random draws sampleVids makes for one participant. */
  const Attempts := 100000

  /** The inner loop of sampleVids: draws until one sample is disjoint
      from the URLs taken so far, at most `Attempts` times. Draw number
      `n` of the whole run is `draw(urls, n)`. */
  method DrawDisjointSample(urls: seq<Cell>, taken: set<Cell>, draw: (seq<Cell>, nat) -> seq<Cell>, firstDraw: nat)
    returns (sample: Option<seq<Cell>>, draws: nat)
    ensures firstDraw <= draws <= firstDraw + Attempts
    ensures sample.Some? ==> draws > firstDraw
    ensures sample.Some? ==> SetOf(sample.value) !! taken && sample.value == draw(urls, draws - 1)
    ensures sample.Some? ==> forall n :: firstDraw <= n < draws - 1 ==> !(SetOf(draw(urls, n)) !! taken)
    ensures sample.None? ==> draws == firstDraw + Attempts
    ensures sample.None? ==> forall n :: firstDraw <= n < draws ==> !(SetOf(draw(urls, n)) !! taken)
  {
    draws := firstDraw;
    var i := 0;
    while i < Attempts
      invariant 0 <= i <= Attempts && draws == firstDraw + i
      invariant forall n :: firstDraw <= n < draws ==> !(SetOf(draw(urls, n)) !! taken)
    {
      var candidate := draw(urls, draws);
      draws := draws + 1;
      // `len(URL_ & sample_set) == 0`
      if SetOf(candidate) !! taken {
        return Some(candidate), draws;
      }
      i := i + 1;
    }
    sample := None;
  }

  /** `pd.unique(date_df["Participant ID"])`: the participants of one
      date, in order of first appearance. */
  function DateParticipants(df: seq<WatchRow>, date: string): seq<string> {
    Unique(Participants(Filter(df, (r: WatchRow) => r.date == date)))
  }

  /** The participant of each accepted sample. */
  function SampledIds(samples: seq<(string, seq<Cell>)>): (r: seq<string>)
    ensures |r| == |samples| && forall k :: 0 <= k < |samples| ==> r[k] == samples[k].0
  {
    seq(|samples|, k requires 0 <= k < |samples| => samples[k].0)
  }

  /** No value occurs twice. */
  predicate NoRepeats<T(==)>(s: seq<T>) {
    forall j, k :: 0 <= j < k < |s| ==> s[j] != s[k]
  }

  /** The entries of `sub` sit in `s` at the strictly increasing positions
      `pos`. */
  predicate PositionsIn(pos: seq<nat>, sub: seq<string>, s: seq<string>) {
    |pos| == |sub|
    && (forall k :: 0 <= k < |pos| ==> pos[k] < |s| && s[pos[k]] == sub[k])
    && (forall j, k :: 0 <= j < k < |pos| ==> pos[j] < pos[k])
  }

  /** `sub` is `s` with some entries left out. */
  ghost predicate Subsequence(sub: seq<string>, s: seq<string>) {
    exists pos: seq<nat> :: PositionsIn(pos, sub, s)
  }

  /** Passing over an entry of `s` keeps the positions. */
  lemma PositionsSkip(pos: seq<nat>, sub: seq<string>, s: seq<string>, x: string)
    requires PositionsIn(pos, sub, s)
    ensures PositionsIn(pos, sub, s + [x])
  {
    forall k | 0 <= k < |pos| ensures (s + [x])[pos[k]] == sub[k] {
      assert (s + [x])[pos[k]] == s[pos[k]];
    }
  }

  /** Taking the entry that follows `s` places it after all others. */
  lemma PositionsTake(pos: seq<nat>, sub: seq<string>, s: seq<string>, x: string)
    requires PositionsIn(pos, sub, s)
    ensures PositionsIn(pos + [|s|], sub + [x], s + [x])
  {
    var pos', sub', s' := pos + [|s|], sub + [x], s + [x];
    forall k | 0 <= k < |pos'| ensures pos'[k] < |s'| && s'[pos'[k]] == sub'[k] {
      if k < |pos| {
        assert pos'[k] == pos[k] && sub'[k] == sub[k] && s'[pos[k]] == s[pos[k]];
      }
    }
  }

  /** Leaving entries out of a sequence without repeats leaves none. */
  lemma SubsequenceNoRepeats(sub: seq<string>, s: seq<string>)
    requires Subsequence(sub, s) && NoRepeats(s)
    ensures NoRepeats(sub)
  {
    var pos: seq<nat> :| PositionsIn(pos, sub, s);
    forall j, k | 0 <= j < k < |sub| ensures sub[j] != sub[k] {
      assert s[pos[j]] != s[pos[k]];
    }
  }

  /** Some draw of the run gave this sample from these URLs. */
  ghost predicate DrawnSample(urls: seq<Cell>, draw: (seq<Cell>, nat) -> seq<Cell>, sample: seq<Cell>) {
    exists n: nat :: sample == draw(urls, n)
  }

  /** The `Attempts` draws from draw number m on each share a URL with
      `taken`. */
  predicate OverlapRun(urls: seq<Cell>, draw: (seq<Cell>, nat) -> seq<Cell>, taken: set<Cell>, m: nat) {
    forall n: nat :: m <= n < m + Attempts ==> !(SetOf(draw(urls, n)) !! taken)
  }

  /** The participant was given up on: a whole run of `Attempts` draws
      overlapped the URLs taken. */
  ghost predicate Exhausted(urls: seq<Cell>, draw: (seq<Cell>, nat) -> seq<Cell>, taken: set<Cell>) {
    exists m: nat :: OverlapRun(urls, draw, taken, m)
  }

  /** Overlapping a set of URLs means overlapping any larger set. */
  lemma ExhaustedGrows(urls: seq<Cell>, draw: (seq<Cell>, nat) -> seq<Cell>, taken: set<Cell>, more: set<Cell>)
    requires taken <= more && Exhausted(urls, draw, taken)
    ensures Exhausted(urls, draw, more)
  {
    var m: nat :| OverlapRun(urls, draw, taken, m);
    forall n: nat | m <= n < m + Attempts ensures !(SetOf(draw(urls, n)) !! more) {
      assert !(SetOf(draw(urls, n)) !! taken);
    }
    assert OverlapRun(urls, draw, more, m);
  }

  /** Of the participants `done`, each one with enough URLs and no sample
      among `sampled` was given up on. */
  ghost predicate MissedOnlyWhenExhausted(df: seq<WatchRow>, date: string, sampleSize: nat,
                                          draw: (seq<Cell>, nat) -> seq<Cell>, done: seq<string>,
                                          sampled: seq<string>, taken: set<Cell>) {
    forall id :: id in done && |ParticipantUrls(df, date, id)| >= sampleSize && id !in sampled ==>
      Exhausted(ParticipantUrls(df, date, id), draw, taken)
  }

  /** A participant skipped or given up on joins the ones handled. */
  lemma MissedAfterSkip(df: seq<WatchRow>, date: string, sampleSize: nat, draw: (seq<Cell>, nat) -> seq<Cell>,
                        done: seq<string>, sampled: seq<string>, taken: set<Cell>, id: string)
    requires MissedOnlyWhenExhausted(df, date, sampleSize, draw, done, sampled, taken)
    requires |ParticipantUrls(df, date, id)| >= sampleSize ==> Exhausted(ParticipantUrls(df, date, id), draw, taken)
    ensures MissedOnlyWhenExhausted(df, date, sampleSize, draw, done + [id], sampled, taken)
  {
  }

  /** A participant that got a sample joins the ones handled; the earlier
      ones stay given up on although more URLs are taken. */
  lemma MissedAfterAccept(df: seq<WatchRow>, date: string, sampleSize: nat, draw: (seq<Cell>, nat) -> seq<Cell>,
                          done: seq<string>, sampled: seq<string>, taken: set<Cell>, more: set<Cell>, id: string)
    requires MissedOnlyWhenExhausted(df, date, sampleSize, draw, done, sampled, taken)
    requires taken <= more
    ensures MissedOnlyWhenExhausted(df, date, sampleSize, draw, done + [id], sampled + [id], more)
  {
    forall other | other in done + [id] && |ParticipantUrls(df, date, other)| >= sampleSize && other !in sampled + [id]
      ensures Exhausted(ParticipantUrls(df, date, other), draw, more)
    {
      assert other in done && other !in sampled;
      ExhaustedGrows(ParticipantUrls(df, date, other), draw, taken, more);
    }
  }

  lemma PrefixSnoc<T>(s: seq<T>, n: nat)
    requires n < |s|
    ensures s[..n + 1] == s[..n] + [s[n]]
  {
  }

  /** What SampleDate's loop keeps true after handling the participants
      `done`. */
  ghost predicate DateProgress(df: seq<WatchRow>, date: string, sampleSize: nat, draw: (seq<Cell>, nat) -> seq<Cell>,
                               samples0: seq<(string, seq<Cell>)>, urlSet0: set<Cell>, done: seq<string>,
                               samples: seq<(string, seq<Cell>)>, urlSet: set<Cell>, pos: seq<nat>) {
    PairwiseDisjoint(samples) && urlSet == UnionOf(samples) && urlSet0 <= urlSet
    && ExtendsOnDate(df, date, sampleSize, draw, samples0, samples)
    && MissedOnlyWhenExhausted(df, date, sampleSize, draw, done, SampledIds(samples[|samples0|..]), urlSet)
    && PositionsIn(pos, SampledIds(samples[|samples0|..]), done)
  }

  /** Accepting a drawn sample that shares no URL with those taken. */
  lemma AcceptStep(df: seq<WatchRow>, date: string, sampleSize: nat, draw: (seq<Cell>, nat) -> seq<Cell>,
                   samples0: seq<(string, seq<Cell>)>, urlSet0: set<Cell>, done: seq<string>,
                   samples: seq<(string, seq<Cell>)>, urlSet: set<Cell>, pos: seq<nat>, id: string, sample: seq<Cell>)
    requires DateProgress(df, date, sampleSize, draw, samples0, urlSet0, done, samples, urlSet, pos)
    requires id in DateParticipants(df, date) && |ParticipantUrls(df, date, id)| >= sampleSize
    requires DrawnSample(ParticipantUrls(df, date, id), draw, sample) && SetOf(sample) !! urlSet
    ensures DateProgress(df, date, sampleSize, draw, samples0, urlSet0, done + [id],
                         samples + [(id, sample)], urlSet + SetOf(sample), pos + [|done|])
  {
    PositionsTake(pos, SampledIds(samples[|samples0|..]), done, id);
    var entry := (id, sample);
    AcceptKeepsDisjoint(samples, entry);
    AcceptKeepsExtension(df, date, sampleSize, draw, samples0, samples, entry);
    MissedAfterAccept(df, date, sampleSize, draw, done, SampledIds(samples[|samples0|..]),
                      urlSet, urlSet + SetOf(sample), id);
    SampledIdsSnoc(samples, |samples0|, entry);
  }

  lemma SampledIdsSnoc(samples: seq<(string, seq<Cell>)>, n: nat, entry: (string, seq<Cell>))
    requires n <= |samples|
    ensures SampledIds((samples + [entry])[n..]) == SampledIds(samples[n..]) + [entry.0]
  {
    assert (samples + [entry])[n..] == samples[n..] + [entry];
  }

  /** Passing over a participant with too few URLs, or one given up on. */
  lemma SkipStep(df: seq<WatchRow>, date: string, sampleSize: nat, draw: (seq<Cell>, nat) -> seq<Cell>,
                 samples0: seq<(string, seq<Cell>)>, urlSet0: set<Cell>, done: seq<string>,
                 samples: seq<(string, seq<Cell>)>, urlSet: set<Cell>, pos: seq<nat>, id: string)
    requires DateProgress(df, date, sampleSize, draw, samples0, urlSet0, done, samples, urlSet, pos)
    requires |ParticipantUrls(df, date, id)| >= sampleSize ==> Exhausted(ParticipantUrls(df, date, id), draw, urlSet)
    ensures DateProgress(df, date, sampleSize, draw, samples0, urlSet0, done + [id], samples, urlSet, pos)
  {
    PositionsSkip(pos, SampledIds(samples[|samples0|..]), done, id);
    MissedAfterSkip(df, date, sampleSize, draw, done, SampledIds(samples[|samples0|..]), urlSet, id);
  }

  /** One pass of the inner loop: a participant with fewer than
      `sampleSize` distinct URLs is skipped; otherwise the first of up to
      `Attempts` draws that shares no URL with `urlSet` is accepted, and a
      participant whose draws all overlap gets no sample. */
  method SampleParticipant(ghost df: seq<WatchRow>, date: string, sampleSize: nat, draw: (seq<Cell>, nat) -> seq<Cell>,
                           ghost samples0: seq<(string, seq<Cell>)>, ghost urlSet0: set<Cell>,
                           ghost done: seq<string>, ghost pos: seq<nat>, id: string, urls: seq<Cell>,
                           samples: seq<(string, seq<Cell>)>, urlSet: set<Cell>, draws: nat)
    returns (samples': seq<(string, seq<Cell>)>, urlSet': set<Cell>, draws': nat, ghost pos': seq<nat>)
    requires urls == ParticipantUrls(df, date, id) && id in DateParticipants(df, date)
    requires DateProgress(df, date, sampleSize, draw, samples0, urlSet0, done, samples, urlSet, pos)
    ensures DateProgress(df, date, sampleSize, draw, samples0, urlSet0, done + [id], samples', urlSet', pos')
    ensures |urls| < sampleSize ==> samples' == samples && urlSet' == urlSet && draws' == draws
    ensures samples' == samples
      || (|samples'| == |samples| + 1 && samples'[..|samples|] == samples && samples'[|samples|].0 == id)
  {
    if |urls| < sampleSize {
      SkipStep(df, date, sampleSize, draw, samples0, urlSet0, done, samples, urlSet, pos, id);
      return samples, urlSet, draws, pos;
    }
    var sample;
    sample, draws' := DrawDisjointSample(urls, urlSet, draw, draws);
    if sample.Some? {
      assert sample.value == draw(urls, draws' - 1);
      AcceptStep(df, date, sampleSize, draw, samples0, urlSet0, done, samples, urlSet, pos, id, sample.value);
      pos' := pos + [|done|];
      urlSet' := urlSet + SetOf(sample.value);
      samples' := samples + [(id, sample.value)];
      assert samples'[..|samples|] == samples;
    } else {
      assert OverlapRun(urls, draw, urlSet, draws);
      SkipStep(df, date, sampleSize, draw, samples0, urlSet0, done, samples, urlSet, pos, id);
      samples', urlSet', pos' := samples, urlSet, pos;
    }
  }

  /** One pass of sampleVids' outer loop: the participants of one date, in
      order of first appearance, each with at least `sampleSize` distinct
      URLs, get the first draw whose URLs are all new; one for which every
      one of the `Attempts` draws shares a URL with those taken gets none. */
  method SampleDate(df: seq<WatchRow>, date: string, sampleSize: nat, draw: (seq<Cell>, nat) -> seq<Cell>,
                    samples0: seq<(string, seq<Cell>)>, urlSet0: set<Cell>, draws0: nat)
    returns (samples: seq<(string, seq<Cell>)>, urlSet: set<Cell>, draws: nat)
    requires PairwiseDisjoint(samples0) && urlSet0 == UnionOf(samples0)
    ensures PairwiseDisjoint(samples) && urlSet == UnionOf(samples) && urlSet0 <= urlSet
    ensures ExtendsOnDate(df, date, sampleSize, draw, samples0, samples)
    ensures MissedOnlyWhenExhausted(df, date, sampleSize, draw, DateParticipants(df, date),
                                    SampledIds(samples[|samples0|..]), urlSet)
    ensures Subsequence(SampledIds(samples[|samples0|..]), DateParticipants(df, date))
  {
    samples, urlSet, draws := samples0, urlSet0, draws0;
    ghost var pos: seq<nat> := [];
    var dateRows := Filter(df, (r: WatchRow) => r.date == date);
    var ids := Unique(Participants(dateRows));
    assert samples0[|samples0|..] == [];
    for p := 0 to |ids|
      invariant DateProgress(df, date, sampleSize, draw, samples0, urlSet0, ids[..p], samples, urlSet, pos)
    {
      var id := ids[p];
      PrefixSnoc(ids, p);
      var urls := Unique(Urls(Filter(dateRows, (r: WatchRow) => r.participant == id)));
      SameParticipantUrls(df, date, id);
      samples, urlSet, draws, pos :=
        SampleParticipant(df, date, sampleSize, draw, samples0, urlSet0, ids[..p], pos, id, urls, samples, urlSet, draws);
    }
    assert ids[..|ids|] == ids;
    assert PositionsIn(pos, SampledIds(samples[|samples0|..]), DateParticipants(df, date));
  }

  /** `samples` is `samples0` followed by samples drawn from the URLs of
      participants of `date` with at least `sampleSize` distinct URLs. */
  ghost predicate ExtendsOnDate(df: seq<WatchRow>, date: string, sampleSize: nat, draw: (seq<Cell>, nat) -> seq<Cell>,
                                samples0: seq<(string, seq<Cell>)>, samples: seq<(string, seq<Cell>)>) {
    |samples0| <= |samples| && samples[..|samples0|] == samples0
    && forall k :: |samples0| <= k < |samples| ==>
      samples[k].0 in DateParticipants(df, date)
      && |ParticipantUrls(df, date, samples[k].0)| >= sampleSize
      && DrawnSample(ParticipantUrls(df, date, samples[k].0), draw, samples[k].1)
  }

  lemma AcceptKeepsExtension(df: seq<WatchRow>, date: string, sampleSize: nat, draw: (seq<Cell>, nat) -> seq<Cell>,
                             samples0: seq<(string, seq<Cell>)>, samples: seq<(string, seq<Cell>)>,
                             accepted: (string, seq<Cell>))
    requires ExtendsOnDate(df, date, sampleSize, draw, samples0, samples)
    requires accepted.0 in DateParticipants(df, date)
    requires |ParticipantUrls(df, date, accepted.0)| >= sampleSize
    requires DrawnSample(ParticipantUrls(df, date, accepted.0), draw, accepted.1)
    ensures ExtendsOnDate(df, date, sampleSize, draw, samples0, samples + [accepted])
  {
    assert (samples + [accepted])[..|samples0|] == samples[..|samples0|];
  }

  /** Each accepted sample was drawn from the URLs of a participant of the
      date recorded for it, with at least `sampleSize` distinct URLs on
      that date. */
  ghost predicate DrawnFrom(df: seq<WatchRow>, sampleSize: nat, draw: (seq<Cell>, nat) -> seq<Cell>,
                            samples: seq<(string, seq<Cell>)>, origins: seq<string>) {
    |origins| == |samples|
    && forall k :: 0 <= k < |samples| ==>
      samples[k].0 in DateParticipants(df, origins[k])
      && |ParticipantUrls(df, origins[k], samples[k].0)| >= sampleSize
      && DrawnSample(ParticipantUrls(df, origins[k], samples[k].0), draw, samples[k].1)
  }

  predicate InOrder(s: seq<string>) {
    forall j, k :: 0 <= j < k < |s| ==> StrLe(s[j], s[k])
  }

  lemma ExtendOrigins(df: seq<WatchRow>, sampleSize: nat, draw: (seq<Cell>, nat) -> seq<Cell>,
                      before: seq<(string, seq<Cell>)>, samples: seq<(string, seq<Cell>)>,
                      origins: seq<string>, date: string)
    requires DrawnFrom(df, sampleSize, draw, before, origins) && InOrder(origins)
    requires forall o :: o in origins ==> StrLe(o, date)
    requires ExtendsOnDate(df, date, sampleSize, draw, before, samples)
    ensures DrawnFrom(df, sampleSize, draw, samples, origins + seq(|samples| - |before|, _ => date))
    ensures InOrder(origins + seq(|samples| - |before|, _ => date))
    ensures forall x :: x in origins + seq(|samples| - |before|, _ => date) ==> x in origins || x == date
  {
    var o := origins + seq(|samples| - |before|, _ => date);
    forall k | 0 <= k < |samples|
      ensures samples[k].0 in DateParticipants(df, o[k])
        && |ParticipantUrls(df, o[k], samples[k].0)| >= sampleSize
        && DrawnSample(ParticipantUrls(df, o[k], samples[k].0), draw, samples[k].1)
    {
      if k < |before| {
        assert samples[k] == samples[..|before|][k];
      }
    }
    forall j, k | 0 <= j < k < |o| ensures StrLe(o[j], o[k]) {
      if k >= |origins| {
        if j >= |origins| {
          StrLeTotal(date, date);
        } else {
          assert origins[j] in origins;
        }
      }
    }
  }

  /** A date in a sorted list is not below any date before it. */
  lemma EarlierDatesBelow(dates: seq<string>, d: nat)
    requires forall i, j :: 0 <= i < j < |dates| ==> StrLe(dates[i], dates[j]) && dates[i] != dates[j]
    requires d < |dates|
    ensures forall o :: o in dates[..d] ==> StrLe(o, dates[d]) && o != dates[d]
  {
    forall o | o in dates[..d] ensures StrLe(o, dates[d]) && o != dates[d] {
      var a :| 0 <= a < d && dates[a] == o;
    }
  }

  /** Each accepted sample paired with the date it was drawn for. */
  function Stamped(samples: seq<(string, seq<Cell>)>, origins: seq<string>): (r: seq<(string, string)>)
    requires |origins| == |samples|
    ensures |r| == |samples| && forall k :: 0 <= k < |samples| ==> r[k] == (origins[k], samples[k].0)
  {
    seq(|samples|, k requires 0 <= k < |samples| => (origins[k], samples[k].0))
  }

  /** Over the dates `done`, every participant with enough URLs that got
      no sample for that date was given up on. */
  ghost predicate NoneMissedOn(df: seq<WatchRow>, sampleSize: nat, draw: (seq<Cell>, nat) -> seq<Cell>,
                               done: seq<string>, stamped: seq<(string, string)>, taken: set<Cell>) {
    forall date, id ::
      (date in done && id in DateParticipants(df, date)
       && |ParticipantUrls(df, date, id)| >= sampleSize && (date, id) !in stamped) ==>
      Exhausted(ParticipantUrls(df, date, id), draw, taken)
  }

  /** After one more date has been sampled, the property covers it too. */
  lemma NoneMissedStep(df: seq<WatchRow>, sampleSize: nat, draw: (seq<Cell>, nat) -> seq<Cell>,
                       done: seq<string>, before: seq<(string, seq<Cell>)>, origins: seq<string>, taken: set<Cell>,
                       date: string, samples: seq<(string, seq<Cell>)>, more: set<Cell>)
    requires |origins| == |before| && |before| <= |samples| && samples[..|before|] == before
    requires NoneMissedOn(df, sampleSize, draw, done, Stamped(before, origins), taken)
    requires taken <= more
    requires MissedOnlyWhenExhausted(df, date, sampleSize, draw, DateParticipants(df, date),
                                     SampledIds(samples[|before|..]), more)
    ensures var o := origins + seq(|samples| - |before|, _ => date);
      NoneMissedOn(df, sampleSize, draw, done + [date], Stamped(samples, o), more)
  {
    var o := origins + seq(|samples| - |before|, _ => date);
    var stamped := Stamped(samples, o);
    forall d, id | d in done + [date] && id in DateParticipants(df, d)
      && |ParticipantUrls(df, d, id)| >= sampleSize && (d, id) !in stamped
      ensures Exhausted(ParticipantUrls(df, d, id), draw, more)
    {
      if d == date {
        forall k | 0 <= k < |samples[|before|..]| ensures SampledIds(samples[|before|..])[k] != id {
          assert stamped[|before| + k] == (date, samples[|before|..][k].0);
        }
      } else {
        forall k | 0 <= k < |before| ensures Stamped(before, origins)[k] != (d, id) {
          assert samples[k] == before[k];
          assert stamped[k] == Stamped(before, origins)[k];
        }
        ExhaustedGrows(ParticipantUrls(df, d, id), draw, taken, more);
      }
    }
  }

  /** What SampleVids' loop keeps true after sampling the dates `done`. */
  ghost predicate VidsProgress(df: seq<WatchRow>, sampleSize: nat, draw: (seq<Cell>, nat) -> seq<Cell>,
                               done: seq<string>, samples: seq<(string, seq<Cell>)>, urlSet: set<Cell>,
                               origins: seq<string>) {
    PairwiseDisjoint(samples) && urlSet == UnionOf(samples)
    && DrawnFrom(df, sampleSize, draw, samples, origins) && InOrder(origins)
    && (forall o :: o in origins ==> o in done)
    && NoneMissedOn(df, sampleSize, draw, done, Stamped(samples, origins), urlSet)
    && NoRepeats(Stamped(samples, origins))
  }

  /** A new date's samples, for distinct participants, add no repeated
      (date, participant) pair. */
  lemma StampedStep(before: seq<(string, seq<Cell>)>, origins: seq<string>, done: seq<string>,
                    date: string, samples: seq<(string, seq<Cell>)>)
    requires |origins| == |before| && |before| <= |samples| && samples[..|before|] == before
    requires NoRepeats(Stamped(before, origins)) && (forall o :: o in origins ==> o in done)
    requires date !in done && NoRepeats(SampledIds(samples[|before|..]))
    ensures NoRepeats(Stamped(samples, origins + seq(|samples| - |before|, _ => date)))
  {
    var o := origins + seq(|samples| - |before|, _ => date);
    var st := Stamped(samples, o);
    forall j, k | 0 <= j < k < |st| ensures st[j] != st[k] {
      if k < |before| {
        assert samples[j] == before[j] && samples[k] == before[k];
        assert st[j] == Stamped(before, origins)[j] && st[k] == Stamped(before, origins)[k];
      } else if j < |before| {
        assert o[j] == origins[j] && origins[j] in origins && o[k] == date;
      } else {
        assert SampledIds(samples[|before|..])[j - |before|] == samples[j].0;
        assert SampledIds(samples[|before|..])[k - |before|] == samples[k].0;
      }
    }
  }

  /** Sampling the next date, which is not below the dates done, extends
      the progress to it. */
  lemma DateStep(df: seq<WatchRow>, sampleSize: nat, draw: (seq<Cell>, nat) -> seq<Cell>,
                 done: seq<string>, before: seq<(string, seq<Cell>)>, taken: set<Cell>, origins: seq<string>,
                 date: string, samples: seq<(string, seq<Cell>)>, urlSet: set<Cell>)
    requires VidsProgress(df, sampleSize, draw, done, before, taken, origins)
    requires forall o :: o in done ==> StrLe(o, date) && o != date
    requires PairwiseDisjoint(samples) && urlSet == UnionOf(samples) && taken <= urlSet
    requires ExtendsOnDate(df, date, sampleSize, draw, before, samples)
    requires Subsequence(SampledIds(samples[|before|..]), DateParticipants(df, date))
    requires MissedOnlyWhenExhausted(df, date, sampleSize, draw, DateParticipants(df, date),
                                     SampledIds(samples[|before|..]), urlSet)
    ensures VidsProgress(df, sampleSize, draw, done + [date], samples, urlSet,
                         origins + seq(|samples| - |before|, _ => date))
  {
    ExtendOrigins(df, sampleSize, draw, before, samples, origins, date);
    NoneMissedStep(df, sampleSize, draw, done, before, origins, taken, date, samples, urlSet);
    SubsequenceNoRepeats(SampledIds(samples[|before|..]), DateParticipants(df, date));
    StampedStep(before, origins, done, date, samples);
  }

  /** sampleVids: dates are visited in increasing order, and for each the
      participants with enough URLs are sampled. Accepted samples are
      pairwise disjoint and `urlSet` is their union; each was drawn from
      its participant's URLs of the date `origins` records for it; a
      participant with enough URLs on a date and no sample for it was given
      up on after `Attempts` overlapping draws. */
  method SampleVids(dataframe: seq<WatchRow>, sampleSize: nat, draw: (seq<Cell>, nat) -> seq<Cell>)
    returns (samples: seq<(string, seq<Cell>)>, urlSet: set<Cell>, ghost origins: seq<string>)
    ensures PairwiseDisjoint(samples)
    ensures urlSet == UnionOf(samples)
    ensures |origins| == |samples|
    ensures DrawnFrom(CleanDataframe(dataframe), sampleSize, draw, samples, origins)
    ensures forall j, k :: 0 <= j < k < |samples| ==> StrLe(origins[j], origins[k])
    ensures NoneMissedOn(CleanDataframe(dataframe), sampleSize, draw, SortedDates(CleanDataframe(dataframe)),
                         Stamped(samples, origins), urlSet)
    ensures forall k :: 0 <= k < |origins| ==> origins[k] in SortedDates(CleanDataframe(dataframe))
    ensures NoRepeats(Stamped(samples, origins))
  {
    var df := CleanDataframe(dataframe);
    var dates := SortedDates(df);
    samples, urlSet, origins := [], {}, [];
    var draws := 0;
    for d := 0 to |dates|
      invariant VidsProgress(df, sampleSize, draw, dates[..d], samples, urlSet, origins)
    {
      var date := dates[d];
      ghost var before, taken := samples, urlSet;
      samples, urlSet, draws := SampleDate(df, date, sampleSize, draw, samples, urlSet, draws);
      EarlierDatesBelow(dates, d);
      DateStep(df, sampleSize, draw, dates[..d], before, taken, origins, date, samples, urlSet);
      origins := origins + seq(|samples| - |before|, _ => date);
      PrefixSnoc(dates, d);
    }
    assert dates[..|dates|] == dates;
    VidsDone(df, sampleSize, draw, dates, samples, urlSet, origins);
  }

  /** Once every date is done, the loop's progress is the method's result. */
  lemma VidsDone(df: seq<WatchRow>, sampleSize: nat, draw: (seq<Cell>, nat) -> seq<Cell>, dates: seq<string>,
                 samples: seq<(string, seq<Cell>)>, urlSet: set<Cell>, origins: seq<string>)
    requires VidsProgress(df, sampleSize, draw, dates, samples, urlSet, origins)
    ensures PairwiseDisjoint(samples) && urlSet == UnionOf(samples) && |origins| == |samples|
    ensures DrawnFrom(df, sampleSize, draw, samples, origins)
    ensures forall j, k :: 0 <= j < k < |samples| ==> StrLe(origins[j], origins[k])
    ensures NoneMissedOn(df, sampleSize, draw, dates, Stamped(samples, origins), urlSet)
    ensures forall k :: 0 <= k < |origins| ==> origins[k] in dates
    ensures NoRepeats(Stamped(samples, origins))
  {
    forall k | 0 <= k < |origins| ensures origins[k] in dates {
      assert origins[k] in origins;
    }
  }

  /** The two-step selection of the code (rows of the date, then rows of
      the participant) picks the participant's rows of that date. */
  lemma SameParticipantUrls(df: seq<WatchRow>, date: string, id: string)
    ensures Unique(Urls(Filter(Filter(df, (r: WatchRow) => r.date == date), (r: WatchRow) => r.participant == id)))
      == ParticipantUrls(df, date, id)
  {
    FilterTwice(df, (r: WatchRow) => r.date == date, (r: WatchRow) => r.participant == id,
                (r: WatchRow) => r.date == date && r.participant == id);
  }
}
