/** The download bookkeeping of download_utils.py: the log row written
    for each download attempt, the file it goes to, the count of a
    participant's successful downloads read back from the logs, and the
    in-memory logger handed to yt-dlp. */
module DownloadLog {
  import opened Wrappers
  import opened PyStr

  /** A cell of a log row: a string, the boolean `log` flag, or `None`. */
  datatype Value = Str(s: string) | Flag(b: bool) | Missing

  type LogData = map<string, Value>

  const Successful := "successful"
  const Failed := "failed"

  /** `'successful' if success else 'failed'`. */
  function Status(success: bool): (s: string)
    ensures s == Successful <==> success
    ensures s == Failed <==> !success
  {
    if success then Successful else Failed
  }

  /** `dict.update`: the keys of `extra` win. */
  function Update(base: LogData, extra: LogData): (r: LogData)
    ensures r.Keys == base.Keys + extra.Keys
    ensures forall k :: k in extra ==> r[k] == extra[k]
    ensures forall k :: k in base && k !in extra ==> r[k] == base[k]
  {
    map k | k in base.Keys + extra.Keys :: if k in extra then extra[k] else base[k]
  }

  /** The row make_log_entry writes, without the sizes and times it
      computes in floating point. `info` is the video's format record. */
  function LogRowData(participant: string, videoId: string, success: bool, serverReply: string,
                      log: bool, info: LogData): (r: LogData)
    ensures r.Keys == {"Participant ID", "video_id", "status", "server_reply", "log"} + info.Keys
    ensures r["log"] == Flag(log)
    ensures "status" !in info ==> r["status"] == Str(Status(success))
    ensures "Participant ID" !in info ==> r["Participant ID"] == Str(participant)
    ensures "video_id" !in info ==> r["video_id"] == Str(videoId)
    ensures forall k :: k in info && k != "log" ==> r[k] == info[k]
  {
    Update(Update(BaseRow(participant, videoId, success, serverReply), info), map["log" := Flag(log)])
  }

  /** The row before `info` and the `log` flag are merged in. */
  function BaseRow(participant: string, videoId: string, success: bool, serverReply: string): (r: LogData)
    ensures r.Keys == {"Participant ID", "video_id", "status", "server_reply"}
    ensures r["Participant ID"] == Str(participant) && r["video_id"] == Str(videoId)
    ensures r["status"] == Str(Status(success))
  {
    map["Participant ID" := Str(participant), "video_id" := Str(videoId),
        "status" := Str(Status(success)), "server_reply" := Str(serverReply)]
  }

  /** The record get_video_info returns: format, video codec and audio codec. */
  function VideoInfo(format: Value, vcodec: Value, acodec: Value): LogData {
    map["format" := format, "vcodec" := vcodec, "acodec" := acodec]
  }

  /** With the format record the downloader passes in, the row names the
      participant and the video, and its status is "successful" exactly
      when the download succeeded. */
  lemma LogRowWithVideoInfo(participant: string, videoId: string, success: bool, serverReply: string,
                            log: bool, format: Value, vcodec: Value, acodec: Value)
    ensures var r := LogRowData(participant, videoId, success, serverReply, log, VideoInfo(format, vcodec, acodec));
      r["status"] == Str(Status(success)) && r["Participant ID"] == Str(participant)
      && r["video_id"] == Str(videoId) && r["format"] == format
  {
  }

  const LogSuffix := ".log.csv"

  /** The path not_enough_videos checks for a participant. */
  function InsufficientVideosPath(participant: string, logPath: string): string {
    logPath + "/insufficiant_vids_" + participant + LogSuffix
  }

  /** `os.path.join` of POSIX with two parts. */
  function PathJoin(a: string, b: string): (r: string)
    ensures StartsWith(b, "/") ==> r == b
  {
    if StartsWith(b, "/") then b
    else if a == [] || EndsWith(a, "/") then a + b
    else a + "/" + b
  }

  /** The path is_video_attempted_downloded checks for a video. */
  function AttemptedPath(videoId: string, logPath: string): string {
    PathJoin(logPath, videoId + LogSuffix)
  }

  /** The file make_log_entry writes the row to. */
  function LogFilePath(participant: string, videoId: string, logPath: string, exept: bool): (p: string)
    ensures EndsWith(p, LogSuffix)
    ensures exept ==> p == InsufficientVideosPath(participant, logPath)
    ensures !exept ==> StartsWith(p, logPath + "/")
    ensures !exept ==> p == logPath + "/" + videoId + LogSuffix
    ensures !exept ==> p[|logPath| + 1..|p| - |LogSuffix|] == videoId
  {
    var p := if exept then InsufficientVideosPath(participant, logPath) else logPath + "/" + videoId + LogSuffix;
    assert p[|p| - |LogSuffix|..] == LogSuffix;
    assert !exept ==> p[..|logPath + "/"|] == logPath + "/";
    assert !exept ==> p[|logPath| + 1..|p| - |LogSuffix|] == videoId;
    p
  }

  /** The ordinary log file of a video is the one is_video_attempted_downloded
      looks for, when the log folder is named without a trailing slash and
      the id does not start with one. */
  lemma LogFileIsAttemptedPath(participant: string, videoId: string, logPath: string)
    requires logPath != [] && !EndsWith(logPath, "/")
    requires videoId == [] || videoId[0] != '/'
    ensures LogFilePath(participant, videoId, logPath, false) == AttemptedPath(videoId, logPath)
  {
    var b := videoId + LogSuffix;
    assert !StartsWith(b, "/") by {
      if videoId == [] {
        assert b[..1] == ".";
      } else {
        assert b[..1] == [videoId[0]];
      }
    }
    assert logPath + "/" + videoId + LogSuffix == logPath + "/" + b;
  }

  /** The insufficient-videos marker make_log_entry writes is the one
      not_enough_videos finds. */
  lemma ExceptionLogIsInsufficientVideosPath(participant: string, videoId: string, logPath: string)
    ensures LogFilePath(participant, videoId, logPath, true) == InsufficientVideosPath(participant, logPath)
  {
  }

  /** One row of the concatenated logs, as nb_videos_downloaded reads it. */
  datatype LogRow = LogRow(participant: Value, status: Value)

  function ReadBack(data: LogData): LogRow
    requires "Participant ID" in data && "status" in data
  {
    LogRow(data["Participant ID"], data["status"])
  }

  predicate Counts(row: LogRow, participant: string) {
    row.participant == Str(participant) && row.status == Str(Successful)
  }

  /** nb_videos_downloaded: 0 for an empty log, otherwise the rows of the
      participant whose status is "successful". */
  function NbVideosDownloaded(log: seq<LogRow>, participant: string): (n: nat)
    ensures n <= |log|
    ensures n == 0 <==> forall i :: 0 <= i < |log| ==> !Counts(log[i], participant)
    ensures n == |log| <==> forall i :: 0 <= i < |log| ==> Counts(log[i], participant)
    decreases |log|
  {
    if log == [] then 0
    else
      var n := (if Counts(log[0], participant) then 1 else 0) + NbVideosDownloaded(log[1..], participant);
      assert forall i :: 1 <= i < |log| ==> log[i] == log[1..][i - 1];
      n
  }

  /** The count over concatenated log files is the sum of their counts. */
  lemma {:induction false} NbVideosAppend(a: seq<LogRow>, b: seq<LogRow>, participant: string)
    ensures NbVideosDownloaded(a + b, participant)
      == NbVideosDownloaded(a, participant) + NbVideosDownloaded(b, participant)
    decreases |a|
  {
    if a == [] {
      assert a + b == b;
    } else {
      assert (a + b)[0] == a[0] && (a + b)[1..] == a[1..] + b;
      NbVideosAppend(a[1..], b, participant);
    }
  }

  /** Logging one more attempt of a participant raises their count by one
      exactly when the attempt succeeded. */
  lemma NbVideosAfterAttempt(log: seq<LogRow>, participant: string, videoId: string, success: bool,
                             serverReply: string, flag: bool, format: Value, vcodec: Value, acodec: Value)
    ensures var data := LogRowData(participant, videoId, success, serverReply, flag, VideoInfo(format, vcodec, acodec));
      NbVideosDownloaded(log + [ReadBack(data)], participant)
        == NbVideosDownloaded(log, participant) + (if success then 1 else 0)
  {
    var data := LogRowData(participant, videoId, success, serverReply, flag, VideoInfo(format, vcodec, acodec));
    LogRowWithVideoInfo(participant, videoId, success, serverReply, flag, format, vcodec, acodec);
    NbVideosAppend(log, [ReadBack(data)], participant);
  }

  // ---------------------------------------------------------------------
  // MyLogger (download_utils.py:231-245)

  const DebugPrefix := "DEBUG: "
  const WarningPrefix := "WARNING: "
  const ErrorPrefix := "ERROR: "

  predicate Tagged(entry: string) {
    StartsWith(entry, DebugPrefix) || StartsWith(entry, WarningPrefix) || StartsWith(entry, ErrorPrefix)
  }

  lemma PrefixedIsTagged(prefix: string, msg: string)
    requires prefix == DebugPrefix || prefix == WarningPrefix || prefix == ErrorPrefix
    ensures Tagged(prefix + msg)
  {
    assert (prefix + msg)[..|prefix|] == prefix;
  }

  /** The logger yt-dlp reports to: it only ever appends. */
  class MyLogger {
    var logs: seq<string>

    /** Every entry carries one of the three level prefixes. */
    predicate Valid()
      reads this
    {
      forall i :: 0 <= i < |logs| ==> Tagged(logs[i])
    }

    constructor()
      ensures logs == [] && Valid()
    {
      logs := [];
    }

    method Debug(msg: string)
      requires Valid()
      modifies this
      ensures logs == old(logs) + [DebugPrefix + msg]
      ensures Valid()
    {
      PrefixedIsTagged(DebugPrefix, msg);
      logs := logs + [DebugPrefix + msg];
    }

    method Warning(msg: string)
      requires Valid()
      modifies this
      ensures logs == old(logs) + [WarningPrefix + msg]
      ensures Valid()
    {
      PrefixedIsTagged(WarningPrefix, msg);
      logs := logs + [WarningPrefix + msg];
    }

    method Error(msg: string)
      requires Valid()
      modifies this
      ensures logs == old(logs) + [ErrorPrefix + msg]
      ensures Valid()
    {
      PrefixedIsTagged(ErrorPrefix, msg);
      logs := logs + [ErrorPrefix + msg];
    }
  }
}
