/**
 * The script itself, written the way it runs: a monitor object whose fields
 * the loop updates in place (check.py:100-149). Each method is proved to do
 * what `PollSpec` says.
 */
module PollLoop {
  import opened Wrappers
  import opened Paths
  import opened Captions
  import opened SentLog
  import opened PollSpec

  class Monitor {
    /** `sent_ids` in `main`. */
    var sentIds: set<string>
    /** The sent-log file: its decoded list, or None when it does not exist. */
    var persisted: Option<seq<string>>
    /** The names in the download directory. */
    var dir: set<string>
    /** Every call and update attempted so far, in order. */
    var log: seq<Action>

    /** The state the specification speaks of. */
    function Snapshot(): State
      reads this
    {
      State(sentIds, LoadSentLog(persisted), dir)
    }

    /**
     * Start-up (check.py:101-102): the sent set is whatever the log file
     * holds, or empty when there is no file.
     */
    constructor (file: Option<seq<string>>, listing: set<string>)
      ensures sentIds == LoadSentLog(file) && persisted == file
      ensures dir == listing && log == []
    {
      sentIds := LoadSentLog(file);
      persisted := file;
      dir := listing;
      log := [];
    }

    /**
     * `save_sent_log` (check.py:60-62): the file is replaced by a list holding
     * every id exactly once, so loading it gives back the set.
     */
    method SaveSentLog()
      modifies this`persisted
      ensures persisted.Some? && NoDuplicates(persisted.value)
      ensures LoadSentLog(persisted) == sentIds
    {
      var ids := ListOf(sentIds);
      persisted := Some(ids);
    }

    /**
     * `cleanup_temp_files` (check.py:142-149): every entry of the listing
     * whose name is not a kept base name is removed; a removal that raises is
     * skipped silently.
     */
    method CleanupTempFiles(keepFiles: seq<string>, undeletable: set<string>)
      modifies this`dir
      ensures dir == Swept(old(dir), KeepNames(keepFiles), undeletable)
    {
      var keepNames := KeepNames(keepFiles);
      var listing := dir;
      while listing != {}
        invariant listing <= old(dir)
        invariant dir == listing + Swept(old(dir) - listing, keepNames, undeletable)
        decreases listing
      {
        var f :| f in listing;
        if f !in keepNames {
          if f !in undeletable {
            dir := dir - {f};
          }
        }
        listing := listing - {f};
      }
      assert old(dir) - listing == old(dir);
    }

    /**
     * `download_file` (check.py:81-97): one download of one format, with the
     * path rewrite for format 135 and the default title.
     */
    method DownloadFile(videoUrl: string, formatCode: string, result: DownloadResult)
      returns (raised: bool, path: string, title: string)
      modifies this`log, this`dir
      ensures log == old(log) + [DownloadFormat(videoUrl, formatCode, OutputTemplate(DownloadDir, formatCode))]
      ensures raised == result.DownloadRaised?
      ensures raised ==> dir == old(dir)
      ensures !raised ==> && path == DownloadedPath(result.prepared, formatCode)
                          && title == TitleOf(result.title)
                          && dir == old(dir) + result.written
    {
      log := log + [DownloadFormat(videoUrl, formatCode, OutputTemplate(DownloadDir, formatCode))];
      match result
      case DownloadRaised =>
        raised, path, title := true, "", "";
      case Downloaded(prepared, metaTitle, written) =>
        dir := dir + written;
        raised, path, title := false, DownloadedPath(prepared, formatCode), TitleOf(metaTitle);
    }

    /**
     * `send_file` (check.py:34-50): one post of a document whose caption is
     * prefixed with its base name. The response only decides what is printed.
     */
    method SendFile(filePath: string, caption: string, result: SendResult) returns (raised: bool)
      modifies this`log
      ensures log == old(log) + [SendDocument(filePath, PostedCaption(filePath, caption))]
      ensures raised == result.SendRaised?
    {
      log := log + [SendDocument(filePath, PostedCaption(filePath, caption))];
      raised := result.SendRaised?;
    }

    /**
     * One pass of the loop body (check.py:110-135). A raise anywhere ends the
     * pass; it is reported as the outcome instead of propagating.
     */
    method Iterate(w: Oracle) returns (outcome: Outcome)
      modifies this
      ensures Snapshot() == Step(old(Snapshot()), w).state
      ensures log == old(log) + Step(old(Snapshot()), w).actions
      ensures outcome == Step(old(Snapshot()), w).outcome
    {
      // get_latest_video (check.py:65-78)
      if !CookieReady(w.cookie) {
        return Raised(AtStaging);
      }
      log := log + [FetchLatest];
      if w.feed.QueryRaised? {
        return Raised(AtFetch);
      }
      var latest := LatestEntry(w.feed.entries);
      if latest.None? {
        return NoEntry;
      }
      var videoId := latest.value.id;
      if videoId in sentIds {
        return NothingNew(videoId);
      }
      outcome := DeliverVideo(videoId, w);
    }

    /** Downloading and posting the video-only rendition of a new video (check.py:116-121). */
    method DeliverVideo(videoId: string, w: Oracle) returns (outcome: Outcome)
      modifies this
      ensures Snapshot() == PollSpec.DeliverVideo(old(Snapshot()), videoId, w).state
      ensures log == old(log) + PollSpec.DeliverVideo(old(Snapshot()), videoId, w).actions
      ensures outcome == PollSpec.DeliverVideo(old(Snapshot()), videoId, w).outcome
    {
      var videoUrl := VideoUrl(videoId);
      var raised, videoPath, title := DownloadFile(videoUrl, VideoFormat, w.video);
      if raised {
        return Raised(AtVideoDownload);
      }
      var caption := Caption(title, videoUrl);
      raised := SendFile(videoPath, caption, w.videoSend);
      if raised {
        return Raised(AtVideoSend);
      }
      outcome := DeliverAudio(videoId, videoPath, caption, w);
    }

    /** Downloading and posting the audio-only rendition (check.py:124-125). */
    method DeliverAudio(videoId: string, videoPath: string, caption: string, w: Oracle) returns (outcome: Outcome)
      modifies this
      ensures Snapshot() == PollSpec.DeliverAudio(old(Snapshot()), videoId, videoPath, caption, w).state
      ensures log == old(log) + PollSpec.DeliverAudio(old(Snapshot()), videoId, videoPath, caption, w).actions
      ensures outcome == PollSpec.DeliverAudio(old(Snapshot()), videoId, videoPath, caption, w).outcome
    {
      var raised, audioPath, audioTitle := DownloadFile(VideoUrl(videoId), AudioFormat, w.audio);
      if raised {
        return Raised(AtAudioDownload);
      }
      raised := SendFile(audioPath, caption, w.audioSend);
      if raised {
        return Raised(AtAudioSend);
      }
      outcome := Commit(videoId, videoPath, audioPath, w);
    }

    /** Adding the id, saving the log and cleaning up (check.py:127-129). */
    method Commit(videoId: string, videoPath: string, audioPath: string, w: Oracle) returns (outcome: Outcome)
      modifies this
      ensures Snapshot() == CommitId(old(Snapshot()), videoId, videoPath, audioPath, w).state
      ensures log == old(log) + CommitId(old(Snapshot()), videoId, videoPath, audioPath, w).actions
      ensures outcome == CommitId(old(Snapshot()), videoId, videoPath, audioPath, w).outcome
    {
      sentIds := sentIds + {videoId};
      log := log + [AddId(videoId), SaveLog(sentIds)];
      if w.saveRaises {
        return Committed(videoId, false);
      }
      SaveSentLog();
      CleanupTempFiles([videoPath, audioPath], w.undeletable);
      log := log + [CleanupDir(KeepNames([videoPath, audioPath]))];
      outcome := Committed(videoId, true);
    }

    /** One pass of `main`'s loop on the `k`-th clock reading, as one more `Step` of the run. */
    method PollAt(ghost initial: State, ghost initialLog: seq<Action>, ticks: seq<Tick>, k: nat)
      requires k < |ticks|
      requires Snapshot() == RunSpec(initial, ticks[..k]).0
      requires log == initialLog + RunSpec(initial, ticks[..k]).1
      modifies this
      ensures Snapshot() == RunSpec(initial, ticks[..k + 1]).0
      ensures log == initialLog + RunSpec(initial, ticks[..k + 1]).1
    {
      ghost var before := RunSpec(initial, ticks[..k]);
      ghost var it := Step(before.0, ticks[k].world);
      RunSpecExtend(initial, ticks, k);
      var _ := Iterate(ticks[k].world);
      assert log == (initialLog + before.1) + it.actions;
      AppendAssoc(initialLog, before.1, it.actions);
    }

    /**
     * `main`'s loop (check.py:103-137): one pass per clock reading before the
     * end of the two-hour window, whatever each pass's outcome.
     */
    method Run(start: int, ticks: seq<Tick>) returns (polls: nat)
      modifies this
      ensures polls == Polls(ticks, EndTime(start))
      ensures Snapshot() == RunSpec(old(Snapshot()), ticks[..polls]).0
      ensures log == old(log) + RunSpec(old(Snapshot()), ticks[..polls]).1
    {
      ghost var initial, initialLog := Snapshot(), log;
      var endTime := EndTime(start);
      polls := 0;
      assert ticks[..0] == [];
      while polls < |ticks| && ticks[polls].now < endTime
        invariant polls <= |ticks|
        invariant forall j :: 0 <= j < polls ==> ticks[j].now < endTime
        invariant Snapshot() == RunSpec(initial, ticks[..polls]).0
        invariant log == initialLog + RunSpec(initial, ticks[..polls]).1
      {
        PollAt(initial, initialLog, ticks, polls);
        polls := polls + 1;
      }
      PollsCharacterized(ticks, endTime, polls);
    }
  }
}
