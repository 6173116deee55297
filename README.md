# A verified model of the check.py poll loop

`check.py` watches one YouTube Music channel for two hours. Once a minute it
asks yt-dlp for the channel's latest entry. When that entry's id is not yet in
its sent log, it does the following:

1. downloads the video-only rendition (format 135) and posts it to a Telegram chat;
2. downloads the audio-only rendition (format 140) and posts it too;
3. adds the id to the in-memory sent set;
4. rewrites `sent_log.json`;
5. sweeps the download directory down to the two files it just made.

Any exception ends that pass of the loop. The exception is printed, and the
loop goes on after its one-minute pause.

This project models that loop in Dafny in two forms:

- **`PollSpec`** describes one pass (`Step`) and a whole run (`RunSpec`) as pure
  functions. Their inputs are the state kept between passes and the outcome of
  every external call that pass could make (`Oracle`).
- **`PollLoop.Monitor`** is the script written the way it runs. It is a class whose
  fields are the sent set, the sent-log file, the download directory and a log
  of every call attempted. Its methods update those fields in place.
  `Iterate`, `DeliverVideo`, `DeliverAudio`, `Commit`, `PollAt` and `Run` are
  proved equal to their `PollSpec` counterparts: `Iterate` to `Step`,
  `DeliverVideo` to `DeliverVideo`, `DeliverAudio` to `DeliverAudio`, `Commit`
  to `CommitId`, and `PollAt` and `Run` to `RunSpec`. Also, `CleanupTempFiles` is proved
  to end in `PollSpec.Swept`. `SaveSentLog` is proved against
  `SentLog.LoadSentLog`, and `DownloadFile` and `SendFile` against contracts
  of their own.

Three supporting modules model the string handling:

- `Paths`: `os.path.basename`, `os.path.join`, the yt-dlp output template and the
  `.webm` → `.mp4` rewrite;
- `Captions`: the watch URL and both layers of the caption;
- `SentLog`: reading the log back as a set, and writing the set out as a list.

`PollProperties` proves what the loop promises across several passes:

- dedup;
- the sent set only grows;
- a new id is committed if and only if both downloads and both posts returned,
  and a pass stops at a call if and only if that call raised;
- cleanup keeps the two artifacts and the names whose removal failed, and
  removes every other name;
- a window that has already elapsed runs nothing;
- at most 120 passes fit in the window.

External calls are inputs, not code. These are: yt-dlp's `extract_info` and
`prepare_filename`, Telegram's `sendDocument`, the `COOKIE` variable, the
outcome of writing the sent log, which `os.remove` calls raise, and the clock.

The model follows the code in these places:

- **A post that returns "not ok" still commits.** The response only chooses
  what is printed. A post that *raises* (file unreadable, network down) aborts
  the pass like any other exception, so nothing is committed.
- **The id is added before the log is saved.** If saving raises, the id stays
  in memory. Later polls of the same entry skip it for the rest of the run,
  even though the file does not hold it (`UnsavedIdIsNotRetried`).
- **Cleanup runs only at the very end of a successful pass.** A pass that
  raises earlier leaves the directory as it was, plus whatever its downloads
  had already written (`NoCleanupDir`).
- **The loop runs while `now < end_time`.** A reading exactly at the end time
  stops it.

## Model

| member | source | states |
|---|---|---|
| Paths.Basename | check.py:39 | `os.path.basename`: the result has no '/', is a suffix of the path, and is preceded by a '/' unless it is the whole path |
| Paths.BasenameJoin | check.py:86 | joining a directory and a plain name gives a path whose base name is that name |
| Paths.Join | check.py:86 | `os.path.join` on POSIX for two components; its property is `BasenameJoin` |
| Paths.TemplateName | check.py:86 | the file-name part `%(title)s.f<format>.%(ext)s`; written out for both formats in `OutputTemplatesWrittenOut` |
| Paths.OutputTemplate | check.py:86 | the yt-dlp output template; `OutputTemplateName` shows it lands directly in the directory under `TemplateName` |
| Paths.OutputTemplateName | check.py:86 | the output template of a format lands directly in the output directory, under a name carrying `.f<format>.` |
| Paths.ReplaceAll | check.py:93 | `str.replace` for a non-empty pattern, left to right and without overlaps; its properties are `ReplaceAllSkips`, `ReplaceAllWithoutMatch` and `ReplaceAllAtEnd` |
| Paths.ReplaceAllSkips | check.py:93 | `str.replace` copies a prefix in which no occurrence starts, unchanged |
| Paths.ReplaceAllWithoutMatch | check.py:93 | `str.replace` leaves a string with no occurrence as it is |
| Paths.ReplaceAllAtEnd | check.py:93 | a single occurrence at the very end is the only thing replaced |
| Paths.DownloadedPath | check.py:92-96 | the path `download_file` returns; `WebmVideoReportedAsMp4` and `DownloadedPathUnchanged` state what it does to each format |
| Paths.WebmVideoReportedAsMp4 | check.py:92-96 | for format 135, a prepared name `<stem>.webm` whose stem holds no ".webm" is reported as `<stem>.mp4` (every occurrence is rewritten, so a stem holding ".webm" changes too) |
| Paths.DownloadedPathUnchanged | check.py:92-96 | for format 140, or a name without ".webm", the prepared name is returned unchanged |
| Captions.VideoUrl | check.py:116 | the URL is the watch prefix followed by the id, so the id can be read back from it |
| Captions.VideoUrlInjective | check.py:115-116 | two ids with the same URL are the same id |
| Captions.TitleOf | check.py:97 | the metadata title, or "No Title" when it has none; returned by `Monitor.DownloadFile` |
| Captions.Caption | check.py:121 | the caption handed to `send_file` (also check.py:125); read back line by line in `PostedCaptionLines` |
| Captions.PostedCaption | check.py:39 | the caption `send_file` posts; `PostedCaptionLines` shows it splits into base name, title and URL |
| Captions.PostedCaptionLines | check.py:39 | when the path, the title and the id hold no newline, the posted caption (base name, newline, caption from check.py:121/125) splits into exactly three lines: base name, title, URL |
| SentLog.LoadSentLog | check.py:53-57 | no file gives the empty set; a file gives exactly the ids it lists |
| SentLog.ListOf | check.py:62 | `list(sent_ids)` lists every id of the set exactly once and nothing else |
| PollSpec.CookieReady | check.py:22-24 | COOKIE set and non-empty; `StopsBeforeDelivery` shows a pass ends before the fetch exactly when it is not |
| PollSpec.KeepNames | check.py:143 | the base names of the kept paths; `CleanupKeepsOnlyArtifacts` shows that what survives cleanup is these names plus the names whose removal failed |
| PollSpec.Swept | check.py:144-149 | the directory after cleanup; `Monitor.CleanupTempFiles` is proved to end in it and `CleanupKeepsOnlyArtifacts` states its membership |
| PollSpec.LatestEntry | check.py:76-78 | the first entry, present if and only if "entries" is present and non-empty |
| PollSpec.DeliverVideo | check.py:116-129 | a new id is either committed or stops at a download or post; the sent set gains exactly the committed id; the actions are pipeline steps 1 to Progress; `DeliveredIsCommitted` and `StopsWhereACallRaised` give the converse, `NewIdCalls` the URL, paths and captions of its calls and `NoCleanupDir` the directory when it stops early |
| PollSpec.DeliverAudio | check.py:124-129 | the audio half: commits only if the audio download and post returned; the actions are pipeline steps 3 to Progress; `DeliveredIsCommitted` and `StopsWhereACallRaised` give the converse, `NewIdCalls` shows the audio post reuses the 135 download's title and the same URL |
| PollSpec.CommitId | check.py:127-129 | the id is added whatever happens next; the file holds the new set if and only if the save did not raise; cleanup follows only a successful save |
| PollSpec.Step | check.py:110-135 | one pass: the sent set gains at most the committed id; a commit implies the cookie was set, the latest entry is that id, it was new, and both downloads and both posts returned; the file changes only after a successful save; the actions are a prefix of fetch, 135, post, 140, post, add, save, cleanup; the converse directions are `DeliveredIsCommitted`, `StopsBeforeDelivery` and `StopsWhereACallRaised`; the contents of the calls are `NewIdCalls`, and the directory of a pass that stops before cleanup is `NoCleanupDir` |
| PollSpec.RunSpec | check.py:108-137 | the state and the calls after one `Step` per reading; `RunOnlyAdds`, `RunDiskNeverAhead` and `RunAddsOnlyDelivered` state its properties and `Monitor.Run` is proved to equal it |
| PollSpec.EndTime | check.py:103 | the end of the window, 120 minutes after the start in seconds; `ElapsedWindowRunsNothing` and `AtMostOnePollPerMinute` state the run's behaviour against it |
| PollSpec.Polls | check.py:108 | the number of passes is the number of clock readings before the first one at or past the end time |
| PollProperties.DeliveredIsCommitted | check.py:115-128 | for every state and outcomes: a new latest id whose two downloads and two posts returned is committed, joins the sent set, and is in the file exactly when the save did not raise |
| PollProperties.StopsBeforeDelivery | check.py:22-24 | a pass ends before the fetch if and only if COOKIE is unset or empty, at the fetch if and only if the query raised, and with nothing to do if and only if there is no entry |
| PollProperties.StopsWhereACallRaised | check.py:120-125 | for a new id, the pass stops at a download or post if and only if that call raised and every earlier call returned |
| PollProperties.NewIdCalls | check.py:116-129 | for every input with a new latest id: the 135 and 140 downloads fetch that id's watch URL with their format's template; both posts are of the returned paths with the caption of the 135 title and that URL; then add, save of the grown set, and cleanup keeping the two paths, each once the calls before it returned |
| PollProperties.NoCleanupDir | check.py:120-128 | a pass that does not reach cleanup leaves the directory as it was plus what each returned download wrote |
| PollProperties.AlreadySentDoesNothing | check.py:115 | a latest id already in the set gives only the fetch and leaves the state unchanged |
| PollProperties.SecondPollOfSameEntryDoesNothing | check.py:115 | polling the entry just committed again does nothing (dedup is idempotent) |
| PollProperties.ResponseOkIgnored | check.py:46-50 | a pass ends identically whether the two posts were answered ok or not |
| PollProperties.UnsavedIdIsNotRetried | check.py:127-128 | after a save that raised, the id is in memory but not in the file, and the next poll of it does nothing |
| PollProperties.CleanupKeepsOnlyArtifacts | check.py:142-149 | after a committed, saved pass the directory is what it held plus the download outputs, restricted to the two artifacts' base names and the names whose removal failed; any other pass removes nothing |
| PollProperties.CleanDirectoryHoldsTheTwoArtifacts | check.py:129 | when every removal succeeds and both files exist, the directory ends holding exactly the two artifacts |
| PollProperties.NewVideoScenarioCommits | check.py:115-128 | with an empty log, a new video "v1" is committed, and the file then reads back as {"v1"} |
| PollProperties.NewVideoScenarioCalls | check.py:116-125 | that pass downloads formats 135 and 140 of the URL of "v1" and posts each with the caption "Song" plus the URL |
| PollProperties.NewVideoScenarioCaption | check.py:116 | the URL and caption of "v1", written out as literals |
| PollProperties.OutputTemplatesWrittenOut | check.py:86 | the two output templates are "./downloads/%(title)s.f135.%(ext)s" and "./downloads/%(title)s.f140.%(ext)s" |
| PollProperties.AlreadySentScenario | check.py:130-131 | an already sent "v1" gives no download and no post |
| PollProperties.QueryRaisedScenario | check.py:134-135 | a raising query is contained: only the fetch was attempted and the state is unchanged |
| PollProperties.RunOnlyAdds | check.py:127 | across a run the sent set only grows, by at most one id per pass |
| PollProperties.RunDiskNeverAhead | check.py:128 | starting from a loaded log, the file never loses an id and never holds one that memory lacks |
| PollProperties.NeverDeliveredTwice | check.py:115 | once an id is in the set, no later poll of that entry downloads or posts anything |
| PollProperties.RunAddsOnlyDelivered | check.py:120-127 | every id a run adds was the latest entry of one of its passes, in which both downloads and both posts returned |
| PollProperties.AtMostOnePollPerMinute | check.py:137 | with a minute between readings, the two-hour window holds at most 120 passes |
| PollProperties.ElapsedWindowRunsNothing | check.py:108 | a window already over runs no pass and changes nothing |
| PollLoop.Monitor.constructor | check.py:101-102 | start-up: the sent set is what the file holds (empty without a file) |
| PollLoop.Monitor.SaveSentLog | check.py:60-62 | the file is replaced by a duplicate-free list that loads back as the sent set |
| PollLoop.Monitor.CleanupTempFiles | check.py:142-149 | the loop over the listing leaves exactly the kept base names and the names whose removal failed |
| PollLoop.Monitor.DownloadFile | check.py:81-97 | logs the download; on success, returns the rewritten path and the title, or "No Title"; adds the written names to the directory |
| PollLoop.Monitor.SendFile | check.py:34-50 | logs a post whose caption is the base name, a newline and the caption; raises only when the call raised |
| PollLoop.Monitor.Iterate | check.py:110-135 | the new state, the calls attempted and the outcome are those of `PollSpec.Step` |
| PollLoop.Monitor.DeliverVideo | check.py:116-121 | equal to `PollSpec.DeliverVideo` |
| PollLoop.Monitor.DeliverAudio | check.py:124-125 | equal to `PollSpec.DeliverAudio` |
| PollLoop.Monitor.Commit | check.py:127-129 | equal to `PollSpec.CommitId` |
| PollLoop.Monitor.PollAt | check.py:108-137 | one more pass of the loop is one more `Step` of the run |
| PollLoop.Monitor.Run | check.py:103-137 | runs exactly `Polls` passes, whatever their outcomes; the final state and the calls made are those of `RunSpec` |

## Left out

- yt-dlp's `extract_info` and `prepare_filename`: they are a foreign library. Their results are inputs: a raise, or the prepared name, the title and the names written.
- Telegram's `requests.post` and opening the file to post: these are network and file I/O. Each post is an input: a raise, or a response that is ok or not.
- Environment lookups and writing the cookie temp file: these are configuration I/O. Only "COOKIE unset or empty raises" is modelled, once per pass. The variable cannot change during a run, so the downloads' own cookie writes would raise only if the first one had. A failing temp-file write is not modelled.
- JSON encoding and decoding: the file is modelled as its decoded list of ids. A corrupt file, which makes `json.load` raise at start-up, is not modelled.
- PollSpec.CommitId: a save that raises leaves the file as it was. A write that fails after `open(..., "w")` has truncated the file is not modelled.
- PollLoop.Monitor.DownloadFile: a download that raises adds nothing to the directory. Partial files a failed download may leave behind are not modelled.
- `datetime.now()` and `time.sleep(60)`: the clock is a sequence of readings in seconds. The one-minute pause is the hypothesis `Paced` of `AtMostOnePollPerMinute`, not something the loop enforces.
- PollLoop.Monitor.Run: the loop stops after the last reading it is given, even if that reading is before the end time.
- Printing: every `print` only writes to the console.
- `os.makedirs` at start-up: directory creation is left out. The directory is a set of names, so a `listdir` entry that is a sub-directory is just a name whose removal raises (`undeletable`).
- An entry without an "id" key, or an empty entry dict (which counts as false): entries are modelled as always having an id. The entry's title (check.py:114) is only printed.
- The order of `list(sent_ids)` and of `os.listdir`: Python fixes neither. `ListOf` leaves the order open, and cleanup's result does not depend on it.
