/**
 * Properties of the poll loop that relate several iterations, or an
 * iteration to the outcomes it was given.
 */
module PollProperties {
  import opened Wrappers
  import opened Paths
  import opened Captions
  import opened PollSpec

  /** The latest entry of the channel is `id` and it was fetched. */
  predicate LatestIs(w: Oracle, id: string)
  {
    CookieReady(w.cookie) && w.feed.Fetched? && LatestEntry(w.feed.entries) == Some(Entry(id))
  }

  /** Every external call of a delivery of `id` returned (whatever the posts answered). */
  predicate Delivered(w: Oracle, id: string)
  {
    && LatestIs(w, id)
    && w.video.Downloaded? && w.videoSend.Responded?
    && w.audio.Downloaded? && w.audioSend.Responded?
  }

  /**
   * A delivery of a new id whose downloads and posts all returned is
   * committed: the id joins the sent set, and the file holds the new set
   * exactly when the save did not raise (check.py:115-128).
   */
  lemma DeliveredIsCommitted(s: State, w: Oracle, id: string)
    requires Delivered(w, id) && id !in s.sent
    ensures Step(s, w).outcome == Committed(id, !w.saveRaises)
    ensures Step(s, w).state.sent == s.sent + {id}
    ensures Step(s, w).state.onDisk == if w.saveRaises then s.onDisk else s.sent + {id}
  {
  }

  /**
   * A pass ends before the fetch exactly when COOKIE is unset or empty, at the
   * fetch exactly when the query raised, and with nothing to do exactly when
   * the result has no entry (check.py:22-24, 75-78, 112, 132-135).
   */
  lemma StopsBeforeDelivery(s: State, w: Oracle)
    ensures Step(s, w).outcome == Raised(AtStaging) <==> !CookieReady(w.cookie)
    ensures Step(s, w).outcome == Raised(AtFetch) <==> CookieReady(w.cookie) && w.feed.QueryRaised?
    ensures Step(s, w).outcome == NoEntry <==>
              CookieReady(w.cookie) && w.feed.Fetched? && LatestEntry(w.feed.entries).None?
  {
  }

  /**
   * For a new id, the pass stops at a download or a post exactly when that
   * call raised and every call before it returned (check.py:120-125, 134-135).
   */
  lemma StopsWhereACallRaised(s: State, w: Oracle, id: string)
    requires LatestIs(w, id) && id !in s.sent
    ensures Step(s, w).outcome == Raised(AtVideoDownload) <==> w.video.DownloadRaised?
    ensures Step(s, w).outcome == Raised(AtVideoSend) <==>
              w.video.Downloaded? && w.videoSend.SendRaised?
    ensures Step(s, w).outcome == Raised(AtAudioDownload) <==>
              w.video.Downloaded? && w.videoSend.Responded? && w.audio.DownloadRaised?
    ensures Step(s, w).outcome == Raised(AtAudioSend) <==>
              w.video.Downloaded? && w.videoSend.Responded? && w.audio.Downloaded? && w.audioSend.SendRaised?
  {
  }

  /**
   * What a pass for a new id calls, for every input: the two downloads fetch
   * that id's watch URL with the check.py:86 template of their format, and
   * both posts carry the 135 download's title and that URL (check.py:116-125);
   * then come the add, the save of the grown set and the cleanup keeping the
   * two paths (check.py:127-129). Each call is made once the calls before it
   * returned.
   */
  lemma NewIdCalls(s: State, w: Oracle, id: string)
    requires LatestIs(w, id) && id !in s.sent
    ensures |Step(s, w).actions| >= 2
    ensures Step(s, w).actions[1] == DownloadFormat(VideoUrl(id), VideoFormat, OutputTemplate(DownloadDir, VideoFormat))
    ensures w.video.Downloaded? ==>
              var vp := DownloadedPath(w.video.prepared, VideoFormat);
              && |Step(s, w).actions| >= 3
              && Step(s, w).actions[2] == SendDocument(vp, PostedCaption(vp, Caption(TitleOf(w.video.title), VideoUrl(id))))
    ensures w.video.Downloaded? && w.videoSend.Responded? ==>
              && |Step(s, w).actions| >= 4
              && Step(s, w).actions[3] == DownloadFormat(VideoUrl(id), AudioFormat, OutputTemplate(DownloadDir, AudioFormat))
    ensures w.video.Downloaded? && w.videoSend.Responded? && w.audio.Downloaded? ==>
              var ap := DownloadedPath(w.audio.prepared, AudioFormat);
              && |Step(s, w).actions| >= 5
              && Step(s, w).actions[4] == SendDocument(ap, PostedCaption(ap, Caption(TitleOf(w.video.title), VideoUrl(id))))
    ensures Delivered(w, id) ==>
              var keep := KeepNames([DownloadedPath(w.video.prepared, VideoFormat), DownloadedPath(w.audio.prepared, AudioFormat)]);
              && |Step(s, w).actions| >= 7
              && Step(s, w).actions[5] == AddId(id)
              && Step(s, w).actions[6] == SaveLog(s.sent + {id})
              && (!w.saveRaises ==> |Step(s, w).actions| == 8 && Step(s, w).actions[7] == CleanupDir(keep))
  {
  }

  /**
   * A pass that does not get to cleanup removes nothing: the directory is what
   * it was, plus what the 135 download wrote if it returned, plus what the 140
   * download wrote if it returned (check.py:120-128).
   */
  lemma NoCleanupDir(s: State, w: Oracle)
    requires !(Step(s, w).outcome.Committed? && Step(s, w).outcome.persisted)
    ensures Step(s, w).state.dir
         == s.dir
            + (if Progress(Step(s, w).outcome) >= 3 && w.video.Downloaded? then w.video.written else {})
            + (if Progress(Step(s, w).outcome) >= 5 && w.audio.Downloaded? then w.audio.written else {})
  {
  }

  /**
   * Dedup: when the latest entry is already in the sent set, the iteration
   * only fetches; it downloads, posts, saves and removes nothing and the state
   * is unchanged (check.py:115, 130-131).
   */
  lemma AlreadySentDoesNothing(s: State, w: Oracle, id: string)
    requires LatestIs(w, id) && id in s.sent
    ensures Step(s, w) == Iteration(s, [FetchLatest], NothingNew(id))
  {
  }

  /** Polling the same entry again right after delivering it does nothing. */
  lemma SecondPollOfSameEntryDoesNothing(s: State, w: Oracle, w2: Oracle)
    requires Step(s, w).outcome.Committed?
    requires LatestIs(w2, Step(s, w).outcome.id)
    ensures Step(Step(s, w).state, w2).actions == [FetchLatest]
    ensures Step(Step(s, w).state, w2).state == Step(s, w).state
  {
  }

  /**
   * A post that got a "not ok" response only prints a message: the iteration
   * goes on exactly as after an ok one, and still commits the id (check.py:46-50, 127).
   */
  lemma ResponseOkIgnored(s: State, w: Oracle, videoOk: bool, audioOk: bool)
    ensures Step(s, w.(videoSend := Responded(videoOk), audioSend := Responded(audioOk)))
         == Step(s, w.(videoSend := Responded(true), audioSend := Responded(true)))
  {
  }

  /**
   * After a save that raised, the id is in the in-memory set but not on disk,
   * and the next poll of the same entry does not deliver it again: the add at
   * check.py:127 runs before the save at check.py:128.
   */
  lemma UnsavedIdIsNotRetried(s: State, w: Oracle, w2: Oracle, id: string)
    requires id !in s.onDisk
    requires Step(s, w).outcome == Committed(id, false)
    requires LatestIs(w2, id)
    ensures id in Step(s, w).state.sent && id !in Step(s, w).state.onDisk
    ensures Step(Step(s, w).state, w2).outcome == NothingNew(id)
  {
  }

  /** The directory just before cleanup: what was there, plus what the two downloads wrote. */
  function BeforeCleanup(s: State, w: Oracle): set<string>
    requires w.video.Downloaded? && w.audio.Downloaded?
  {
    s.dir + w.video.written + w.audio.written
  }

  /** The names cleanup keeps: the base names of the two paths `download_file` returned. */
  function ArtifactNames(w: Oracle): seq<string>
    requires w.video.Downloaded? && w.audio.Downloaded?
  {
    [Basename(DownloadedPath(w.video.prepared, VideoFormat)), Basename(DownloadedPath(w.audio.prepared, AudioFormat))]
  }

  /**
   * Cleanup (check.py:142-149): after a completed iteration, every entry whose
   * name is one of the two artifacts' base names is still there, and every
   * other entry is gone unless its removal raised. An iteration that does not
   * get that far removes nothing.
   */
  lemma CleanupKeepsOnlyArtifacts(s: State, w: Oracle)
    ensures Step(s, w).outcome.Committed? && Step(s, w).outcome.persisted ==>
              && w.video.Downloaded? && w.audio.Downloaded?
              && (forall f :: f in Step(s, w).state.dir <==>
                    f in BeforeCleanup(s, w) && (f in ArtifactNames(w) || f in w.undeletable))
    ensures !(Step(s, w).outcome.Committed? && Step(s, w).outcome.persisted) ==> s.dir <= Step(s, w).state.dir
  {
    var it := Step(s, w);
    if it.outcome.Committed? && it.outcome.persisted {
      var keep := ArtifactNames(w);
      assert KeepNames([DownloadedPath(w.video.prepared, VideoFormat), DownloadedPath(w.audio.prepared, AudioFormat)]) == keep;
    }
  }

  /**
   * When no removal fails and both downloads wrote the files whose paths they
   * reported, the directory ends up holding exactly those two files.
   */
  lemma CleanDirectoryHoldsTheTwoArtifacts(s: State, w: Oracle)
    requires Step(s, w).outcome.Committed? && Step(s, w).outcome.persisted
    requires w.undeletable == {}
    requires w.video.Downloaded? && Basename(DownloadedPath(w.video.prepared, VideoFormat)) in w.video.written
    requires w.audio.Downloaded? && Basename(DownloadedPath(w.audio.prepared, AudioFormat)) in w.audio.written
    ensures Step(s, w).state.dir == set f | f in ArtifactNames(w)
  {
    CleanupKeepsOnlyArtifacts(s, w);
  }

  /** The first scenario's outcomes: a new video "v1" titled "Song", every call succeeds. */
  function SongOracle(videoFile: string, audioFile: string, videoWritten: set<string>, audioWritten: set<string>): Oracle
  {
    Oracle(Some("cookie"), Fetched(Some([Entry("v1")])),
           Downloaded(videoFile, Some("Song"), videoWritten), Responded(true),
           Downloaded(audioFile, None, audioWritten), Responded(true), false, {})
  }

  /**
   * The first scenario: with an empty log, the new video "v1" is committed and
   * the log on disk reads back as {"v1"}.
   */
  lemma NewVideoScenarioCommits(dir: set<string>, videoFile: string, audioFile: string, videoWritten: set<string>, audioWritten: set<string>)
    ensures
      var it := Step(State({}, {}, dir), SongOracle(videoFile, audioFile, videoWritten, audioWritten));
      && it.outcome == Committed("v1", true)
      && it.state.sent == {"v1"} && it.state.onDisk == {"v1"}
  {
    assert LatestEntry(Some([Entry("v1")])) == Some(Entry("v1"));
  }

  /**
   * The first scenario's calls: downloads of formats 135 and 140 of the watch
   * URL of "v1", each followed by a post whose caption carries the title
   * "Song" and that URL.
   */
  lemma NewVideoScenarioCalls(dir: set<string>, videoFile: string, audioFile: string, videoWritten: set<string>, audioWritten: set<string>)
    ensures
      var it := Step(State({}, {}, dir), SongOracle(videoFile, audioFile, videoWritten, audioWritten));
      var videoPath := DownloadedPath(videoFile, VideoFormat);
      var url := VideoUrl("v1");
      && |it.actions| == 8
      && it.actions[1] == DownloadFormat(url, VideoFormat, OutputTemplate(DownloadDir, VideoFormat))
      && it.actions[2] == SendDocument(videoPath, PostedCaption(videoPath, Caption("Song", url)))
      && it.actions[3] == DownloadFormat(url, AudioFormat, OutputTemplate(DownloadDir, AudioFormat))
      && it.actions[4] == SendDocument(audioFile, PostedCaption(audioFile, Caption("Song", url)))
  {
    assert LatestEntry(Some([Entry("v1")])) == Some(Entry("v1"));
    assert DownloadedPath(audioFile, AudioFormat) == audioFile;
  }

  /** The URL and caption of the first scenario, written out. */
  lemma NewVideoScenarioCaption()
    ensures VideoUrl("v1") == "https://www.youtube.com/watch?v=v1"
    ensures Caption("Song", VideoUrl("v1")) == "Song\n" + "https://www.youtube.com/watch?v=v1"
  {
    assert "Song" + "\n" == "Song\n";
  }

  /** The output templates of the two downloads, written out. */
  lemma OutputTemplatesWrittenOut()
    ensures OutputTemplate(DownloadDir, VideoFormat) == "./downloads/%(title)s.f135.%(ext)s"
    ensures OutputTemplate(DownloadDir, AudioFormat) == "./downloads/%(title)s.f140.%(ext)s"
  {
  }

  /** The second scenario: "v1" already sent and fetched again gives no download and no post. */
  lemma AlreadySentScenario(dir: set<string>, onDisk: set<string>, w: Oracle)
    requires LatestIs(w, "v1")
    ensures Step(State({"v1"}, onDisk, dir), w).actions == [FetchLatest]
    ensures Step(State({"v1"}, onDisk, dir), w).state == State({"v1"}, onDisk, dir)
  {
  }

  /** The third scenario: a raising query is contained; nothing but the fetch was attempted. */
  lemma QueryRaisedScenario(s: State, w: Oracle)
    requires CookieReady(w.cookie) && w.feed == QueryRaised
    ensures Step(s, w) == Iteration(s, [FetchLatest], Raised(AtFetch))
  {
  }

  /**
   * Across a run the sent set only grows, and by at most one id per
   * iteration (check.py:102, 127).
   */
  lemma {:induction false} RunOnlyAdds(s: State, ticks: seq<Tick>)
    ensures s.sent <= RunSpec(s, ticks).0.sent
    ensures |RunSpec(s, ticks).0.sent| <= |s.sent| + |ticks|
    decreases |ticks|
  {
    if ticks != [] {
      var before := RunSpec(s, ticks[..|ticks| - 1]).0;
      RunOnlyAdds(s, ticks[..|ticks| - 1]);
      var after := Step(before, ticks[|ticks| - 1].world).state;
      assert after.sent == before.sent || after.sent == before.sent + {Step(before, ticks[|ticks| - 1].world).outcome.id};
      assert |after.sent| <= |before.sent| + 1;
    }
  }

  /**
   * Starting from a loaded log (whose ids are all in memory), the log on disk
   * never loses an id and never holds an id the memory does not.
   */
  lemma {:induction false} RunDiskNeverAhead(s: State, ticks: seq<Tick>)
    requires s.onDisk <= s.sent
    ensures s.onDisk <= RunSpec(s, ticks).0.onDisk <= RunSpec(s, ticks).0.sent
    decreases |ticks|
  {
    if ticks != [] {
      RunDiskNeverAhead(s, ticks[..|ticks| - 1]);
      RunOnlyAdds(s, ticks[..|ticks| - 1]);
    }
  }

  /** Once an id is in the sent set, no later poll of that entry downloads or posts anything. */
  lemma NeverDeliveredTwice(s: State, ticks: seq<Tick>, w: Oracle, id: string)
    requires id in s.sent && LatestIs(w, id)
    ensures Step(RunSpec(s, ticks).0, w).actions == [FetchLatest]
  {
    RunOnlyAdds(s, ticks);
  }

  /**
   * Every id a run adds was the latest entry of one of its polls, and both
   * downloads and both posts of that poll returned.
   */
  lemma {:induction false} RunAddsOnlyDelivered(s: State, ticks: seq<Tick>, id: string)
    requires id in RunSpec(s, ticks).0.sent && id !in s.sent
    ensures exists j :: 0 <= j < |ticks| && Delivered(ticks[j].world, id)
    decreases |ticks|
  {
    var last := |ticks| - 1;
    var before := RunSpec(s, ticks[..last]).0;
    if id in before.sent {
      RunAddsOnlyDelivered(s, ticks[..last], id);
      var j :| 0 <= j < last && Delivered(ticks[..last][j].world, id);
      assert ticks[..last][j] == ticks[j];
    } else {
      assert Delivered(ticks[last].world, id);
    }
  }

  /** The readings of a loop that sleeps a minute after every iteration (check.py:137). */
  predicate Paced(ticks: seq<Tick>)
  {
    forall j :: 0 < j < |ticks| ==> ticks[j - 1].now + PollSeconds <= ticks[j].now
  }

  lemma {:induction false} PacedReadings(ticks: seq<Tick>, k: nat)
    requires Paced(ticks) && k < |ticks|
    ensures ticks[k].now >= ticks[0].now + PollSeconds * k
  {
    if k > 0 {
      PacedReadings(ticks, k - 1);
    }
  }

  /**
   * A two-hour window with a one-minute pause per iteration holds at most
   * 120 iterations.
   */
  lemma AtMostOnePollPerMinute(start: int, ticks: seq<Tick>)
    requires Paced(ticks) && (|ticks| > 0 ==> ticks[0].now >= start)
    ensures Polls(ticks, EndTime(start)) <= 120
  {
    var n := Polls(ticks, EndTime(start));
    if n > 120 {
      PacedReadings(ticks, 120);
      assert false;
    }
  }

  /** A window that has already elapsed runs zero iterations and changes nothing. */
  lemma ElapsedWindowRunsNothing(s: State, start: int, ticks: seq<Tick>)
    requires |ticks| > 0 && ticks[0].now >= EndTime(start)
    ensures Polls(ticks, EndTime(start)) == 0
    ensures RunSpec(s, ticks[..Polls(ticks, EndTime(start))]) == (s, [])
  {
  }
}
