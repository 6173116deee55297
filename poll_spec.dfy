/**
 * What one pass of the poll loop in `main` (check.py:108-137) does, and what a
 * run of passes does, as functions of the state before and of the outcomes of
 * the external calls. Every call into yt-dlp, Telegram or the file system is
 * an input here (`Oracle`); the loop decides only which calls to make, in
 * which order, and what to remember.
 */
module PollSpec {
  import opened Wrappers
  import opened Paths
  import opened Captions
  import opened SentLog

  /** A channel entry; only its "id" key matters to the loop (its title is only printed). */
  datatype Entry = Entry(id: string)

  /** What `extract_info` on the channel gave: a raise, or a result with or without "entries". */
  datatype FeedResult = QueryRaised | Fetched(entries: Option<seq<Entry>>)

  /**
   * What one yt-dlp download gave: a raise, or the prepared file name, the
   * title in the metadata (if any) and the names it wrote into the download directory.
   */
  datatype DownloadResult =
    | DownloadRaised
    | Downloaded(prepared: string, title: Option<string>, written: set<string>)

  /** What posting one document gave: a raise (file or network), or a response, ok or not. */
  datatype SendResult = SendRaised | Responded(ok: bool)

  /** The outcomes of every external call one iteration can make. */
  datatype Oracle = Oracle(
    cookie: Option<string>,      // the COOKIE environment variable
    feed: FeedResult,
    video: DownloadResult,       // format 135
    videoSend: SendResult,
    audio: DownloadResult,       // format 140
    audioSend: SendResult,
    saveRaises: bool,            // writing the sent log raised
    undeletable: set<string>     // names whose os.remove raised
  )

  /** The step at which an exception left the iteration. */
  datatype Stage =
    | AtStaging         // write_cookies_to_temp: COOKIE unset or empty
    | AtFetch
    | AtVideoDownload
    | AtVideoSend
    | AtAudioDownload
    | AtAudioSend

  /**
   * How an iteration ended. `Committed(id, false)` is the id added to the set
   * after which saving the log raised.
   */
  datatype Outcome =
    | NoEntry
    | NothingNew(id: string)
    | Raised(stage: Stage)
    | Committed(id: string, persisted: bool)

  /** The calls and updates an iteration attempts, in the order it attempts them. */
  datatype Action =
    | FetchLatest
    | DownloadFormat(url: string, format: string, template: string)
    | SendDocument(path: string, caption: string)
    | AddId(id: string)
    | SaveLog(ids: set<string>)
    | CleanupDir(keep: seq<string>)

  /** The state the loop keeps between iterations. */
  datatype State = State(
    sent: set<string>,    // sent_ids, in memory
    onDisk: set<string>,  // what load_sent_log would now return
    dir: set<string>      // names in the download directory
  )

  /** The outcome of one iteration: the new state, the actions attempted, how it ended. */
  datatype Iteration = Iteration(state: State, actions: seq<Action>, outcome: Outcome)

  /** One check of the loop condition: the clock reading and the outcomes of the iteration it may start. */
  datatype Tick = Tick(now: int, world: Oracle)

  /** `if not cookie_str: raise` (check.py:22-24). */
  predicate CookieReady(cookie: Option<string>)
  {
    cookie.Some? && cookie.value != ""
  }

  /**
   * The entry `get_latest_video` returns (check.py:76-78): the first one, when
   * the result has a non-empty "entries" list.
   */
  function LatestEntry(entries: Option<seq<Entry>>): (latest: Option<Entry>)
    ensures latest.Some? <==> entries.Some? && |entries.value| > 0
    ensures latest.Some? ==> latest.value == entries.value[0]
  {
    if entries.Some? && |entries.value| > 0 then Some(entries.value[0]) else None
  }

  /** The base names to keep (check.py:143). */
  function KeepNames(keepFiles: seq<string>): seq<string>
  {
    seq(|keepFiles|, i requires 0 <= i < |keepFiles| => Basename(keepFiles[i]))
  }

  /** The directory after cleanup: kept names stay, others go unless their removal raised. */
  function Swept(dir: set<string>, keep: seq<string>, undeletable: set<string>): set<string>
  {
    set f | f in dir && (f in keep || f in undeletable)
  }

  /** The kinds of action, for stating their order. */
  datatype Kind = KFetch | KDownload(format: string) | KSend | KAdd | KSave | KCleanup

  function KindOf(a: Action): Kind
  {
    match a
    case FetchLatest => KFetch
    case DownloadFormat(_, format, _) => KDownload(format)
    case SendDocument(_, _) => KSend
    case AddId(_) => KAdd
    case SaveLog(_) => KSave
    case CleanupDir(_) => KCleanup
  }

  /**
   * The fixed order of a new-video iteration (check.py:111-129): fetch,
   * download 135, send, download 140, send, add, save, clean up.
   */
  function PipelineAt(i: nat): Kind
  {
    if i == 0 then KFetch
    else if i == 1 then KDownload(VideoFormat)
    else if i == 2 then KSend
    else if i == 3 then KDownload(AudioFormat)
    else if i == 4 then KSend
    else if i == 5 then KAdd
    else if i == 6 then KSave
    else KCleanup
  }

  /** The length of the full pipeline. */
  const PipelineLength: nat := 8

  /** `actions` are the steps `from` to `n` (exclusive) of the pipeline. */
  predicate FollowsPipeline(actions: seq<Action>, from: nat, n: nat)
  {
    && from <= n <= PipelineLength
    && |actions| == n - from
    && forall i :: 0 <= i < |actions| ==> KindOf(actions[i]) == PipelineAt(from + i)
  }

  /** Two actions of the right kinds in front of the rest of the pipeline follow it too. */
  lemma FollowsPipelinePrepend(a: Action, b: Action, rest: seq<Action>, from: nat, n: nat)
    requires KindOf(a) == PipelineAt(from) && KindOf(b) == PipelineAt(from + 1)
    requires FollowsPipeline(rest, from + 2, n)
    ensures FollowsPipeline([a, b] + rest, from, n)
  {
    var all := [a, b] + rest;
    forall i | 2 <= i < |all| ensures KindOf(all[i]) == PipelineAt(from + i) {
      assert all[i] == rest[i - 2];
    }
  }

  /** How many steps of the pipeline an iteration with this outcome attempted. */
  function Progress(o: Outcome): nat
  {
    match o
    case Raised(AtStaging) => 0
    case Raised(AtFetch) => 1
    case NoEntry => 1
    case NothingNew(_) => 1
    case Raised(AtVideoDownload) => 2
    case Raised(AtVideoSend) => 3
    case Raised(AtAudioDownload) => 4
    case Raised(AtAudioSend) => 5
    case Committed(_, persisted) => if persisted then 8 else 7
  }

  /**
   * Delivering a video whose id is not yet in the sent set (check.py:116-129),
   * starting with the download and post of its video-only rendition
   * (check.py:120-121). Any raise ends the iteration there, and the `except`
   * at check.py:134 swallows it.
   */
  function DeliverVideo(s: State, id: string, w: Oracle): (it: Iteration)
    ensures it.outcome.Raised? || (it.outcome.Committed? && it.outcome.id == id)
    ensures it.outcome.Raised? ==> it.outcome.stage != AtStaging && it.outcome.stage != AtFetch
    ensures it.state.sent == if it.outcome.Committed? then s.sent + {id} else s.sent
    ensures it.outcome.Committed? ==> w.video.Downloaded? && w.videoSend.Responded?
    ensures it.outcome.Committed? ==> w.audio.Downloaded? && w.audioSend.Responded?
    ensures it.state.onDisk == if it.outcome.Committed? && it.outcome.persisted then it.state.sent else s.onDisk
    ensures FollowsPipeline(it.actions, 1, Progress(it.outcome))
  {
    var url := VideoUrl(id);
    var getVideo := DownloadFormat(url, VideoFormat, OutputTemplate(DownloadDir, VideoFormat));
    match w.video
    case DownloadRaised => Iteration(s, [getVideo], Raised(AtVideoDownload))
    case Downloaded(videoPrepared, videoTitle, videoWritten) =>
      var videoPath := DownloadedPath(videoPrepared, VideoFormat);
      var caption := Caption(TitleOf(videoTitle), url);
      var sendVideo := SendDocument(videoPath, PostedCaption(videoPath, caption));
      var s1 := s.(dir := s.dir + videoWritten);
      if w.videoSend.SendRaised? then Iteration(s1, [getVideo, sendVideo], Raised(AtVideoSend))
      else
        var rest := DeliverAudio(s1, id, videoPath, caption, w);
        FollowsPipelinePrepend(getVideo, sendVideo, rest.actions, 1, Progress(rest.outcome));
        rest.(actions := [getVideo, sendVideo] + rest.actions)
  }

  /** Downloading and posting the audio-only rendition (check.py:124-125). */
  function DeliverAudio(s: State, id: string, videoPath: string, caption: string, w: Oracle): (it: Iteration)
    ensures it.outcome.Raised? || (it.outcome.Committed? && it.outcome.id == id)
    ensures it.outcome.Raised? ==> it.outcome.stage == AtAudioDownload || it.outcome.stage == AtAudioSend
    ensures it.state.sent == if it.outcome.Committed? then s.sent + {id} else s.sent
    ensures it.outcome.Committed? ==> w.audio.Downloaded? && w.audioSend.Responded?
    ensures it.state.onDisk == if it.outcome.Committed? && it.outcome.persisted then it.state.sent else s.onDisk
    ensures FollowsPipeline(it.actions, 3, Progress(it.outcome))
  {
    var getAudio := DownloadFormat(VideoUrl(id), AudioFormat, OutputTemplate(DownloadDir, AudioFormat));
    match w.audio
    case DownloadRaised => Iteration(s, [getAudio], Raised(AtAudioDownload))
    case Downloaded(audioPrepared, _, audioWritten) =>
      var audioPath := DownloadedPath(audioPrepared, AudioFormat);
      var sendAudio := SendDocument(audioPath, PostedCaption(audioPath, caption));
      var s1 := s.(dir := s.dir + audioWritten);
      if w.audioSend.SendRaised? then Iteration(s1, [getAudio, sendAudio], Raised(AtAudioSend))
      else
        var rest := CommitId(s1, id, videoPath, audioPath, w);
        FollowsPipelinePrepend(getAudio, sendAudio, rest.actions, 3, Progress(rest.outcome));
        rest.(actions := [getAudio, sendAudio] + rest.actions)
  }

  /**
   * Adding the id, saving the log and cleaning up (check.py:127-129). The add
   * comes first, so a raise while saving leaves the id in memory only.
   */
  function CommitId(s: State, id: string, videoPath: string, audioPath: string, w: Oracle): (it: Iteration)
    ensures it.outcome == Committed(id, !w.saveRaises)
    ensures it.state.sent == s.sent + {id}
    ensures it.state.onDisk == if w.saveRaises then s.onDisk else it.state.sent
    ensures FollowsPipeline(it.actions, 5, Progress(it.outcome))
  {
    var sent := s.sent + {id};
    var commit := [AddId(id), SaveLog(sent)];
    if w.saveRaises then Iteration(s.(sent := sent), commit, Committed(id, false))
    else
      var keep := KeepNames([videoPath, audioPath]);
      Iteration(State(sent, sent, Swept(s.dir, keep, w.undeletable)), commit + [CleanupDir(keep)], Committed(id, true))
  }

  /**
   * One pass of the loop body (check.py:110-135). The sent set changes only by
   * adding the id just delivered; an id is added only when both downloads and
   * both posts returned; the log on disk is rewritten only after a
   * successful add; the actions attempted are always a prefix of the pipeline.
   */
  function Step(s: State, w: Oracle): (it: Iteration)
    ensures it.state.sent == if it.outcome.Committed? then s.sent + {it.outcome.id} else s.sent
    ensures it.outcome.Committed? ==>
              && CookieReady(w.cookie) && w.feed.Fetched?
              && LatestEntry(w.feed.entries) == Some(Entry(it.outcome.id))
              && it.outcome.id !in s.sent
              && w.video.Downloaded? && w.audio.Downloaded?
              && w.videoSend.Responded? && w.audioSend.Responded?
    ensures it.state.onDisk == if it.outcome.Committed? && it.outcome.persisted then it.state.sent else s.onDisk
    ensures FollowsPipeline(it.actions, 0, Progress(it.outcome))
  {
    if !CookieReady(w.cookie) then Iteration(s, [], Raised(AtStaging))
    else
      match w.feed
      case QueryRaised => Iteration(s, [FetchLatest], Raised(AtFetch))
      case Fetched(entries) =>
        match LatestEntry(entries)
        case None => Iteration(s, [FetchLatest], NoEntry)
        case Some(e) =>
          if e.id in s.sent then Iteration(s, [FetchLatest], NothingNew(e.id))
          else
            var d := DeliverVideo(s, e.id, w);
            d.(actions := [FetchLatest] + d.actions)
  }

  /** The length of the polling window in minutes (check.py:103). */
  const WindowMinutes: nat := 120

  /** The pause after every iteration in seconds (check.py:137). */
  const PollSeconds: nat := 60

  /** `end_time = datetime.now() + timedelta(minutes=120)`, clock readings in seconds. */
  function EndTime(start: int): int
  {
    start + WindowMinutes * 60
  }

  /**
   * How many iterations the `while datetime.now() < end_time` loop
   * (check.py:108) runs on these clock readings: the readings before the first
   * one at or past the end. When every reading is before the end, the model
   * stops after the last one.
   */
  function Polls(ticks: seq<Tick>, endTime: int): (n: nat)
    ensures n <= |ticks|
    ensures forall j :: 0 <= j < n ==> ticks[j].now < endTime
    ensures n < |ticks| ==> ticks[n].now >= endTime
    decreases |ticks|
  {
    if ticks == [] || ticks[0].now >= endTime then 0
    else 1 + Polls(ticks[1..], endTime)
  }

  /** Appending logs is associative. */
  lemma AppendAssoc(a: seq<Action>, b: seq<Action>, c: seq<Action>)
    ensures (a + b) + c == a + (b + c)
  {
  }

  /** The number of polls is the only count that meets `Polls`' contract. */
  lemma PollsCharacterized(ticks: seq<Tick>, endTime: int, n: nat)
    requires n <= |ticks|
    requires forall j :: 0 <= j < n ==> ticks[j].now < endTime
    requires n < |ticks| ==> ticks[n].now >= endTime
    ensures Polls(ticks, endTime) == n
  {
  }

  /**
   * The state after running one iteration per tick, and every action
   * attempted on the way. An iteration's outcome, whatever it is, never stops
   * the ones after it (check.py:134-137).
   */
  function RunSpec(s: State, ticks: seq<Tick>): (State, seq<Action>)
    decreases |ticks|
  {
    if ticks == [] then (s, [])
    else
      var before := RunSpec(s, ticks[..|ticks| - 1]);
      var it := Step(before.0, ticks[|ticks| - 1].world);
      (it.state, before.1 + it.actions)
  }

  /** Running one more tick is one more `Step` after the run so far. */
  lemma RunSpecExtend(s: State, ticks: seq<Tick>, k: nat)
    requires k < |ticks|
    ensures RunSpec(s, ticks[..k + 1])
         == (Step(RunSpec(s, ticks[..k]).0, ticks[k].world).state,
             RunSpec(s, ticks[..k]).1 + Step(RunSpec(s, ticks[..k]).0, ticks[k].world).actions)
  {
    assert ticks[..k + 1][..k] == ticks[..k];
  }
}
