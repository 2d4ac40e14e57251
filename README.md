# AngelEyes core, modelled in Dafny

AngelEyes watches a person at a Mac and nudges them by voice. It runs two
monitors side by side:

- The focus monitor screenshots the screen every check interval. It asks a
  local vision model (the "judge", served by LMStudio) whether the screen
  fits the person's stated goal. It speaks a reminder of the goal when the
  answer is "not focused".
- The posture monitor takes a batch of webcam images spread over the check
  interval. It asks the judge about the posture in them. It speaks a
  reminder, naming the first issue found, when the posture is judged wrong.

This project models the sequential core of that system:

- **The judge client** (`LlmClient`). It reads the model's free-text reply
  with a keyword classifier, uses fixed confidences, and fails open on every
  error. Each call is handed the outcome of the HTTP exchange: the reply
  text or the error text.
- **The request and response records** (`Models`), with confidence kept
  in [0, 1].
- **The speech queue** (`Voice`), a class with a FIFO queue and an
  `isSpeaking` flag. Ghost fields log what was enqueued and what was spoken.
  The drain keeps `spoken + queue == enqueued` at every step. The invariant
  holds even when other callers enqueue while a message is being spoken;
  those callers are supplied as input.
- **The capture directory and retention cleanup** (`Files`). A directory is
  a class holding a listing of `(name, mtime)` entries. The cleanup globs the
  captures, sorts them newest first, and unlinks all but the `keep_last`
  newest. An error part-way is swallowed.
- **The screenshot and webcam captures** (`Screenshot`, `Webcam`). They cover
  timestamped file names, the return-code and file-exists decision, the
  camera's warm-up reads, and the batch loop with its sleeps. The behaviour
  of the subprocess and the camera is supplied as input.
- **The two monitor loops** (`FocusMonitoring`, `PostureMonitoring`). Each is
  a class with an `isRunning` flag and a `while` loop.
  - Each pass of the loop is handed what the outside world does during it:
    capture outcomes, the judge's reply, speech and cleanup faults, an
    exception or a cancellation at one of the loop body's statements, and
    whether `stop` is called.
  - A shared `EventLoop` records a ghost trace of events: captures,
    judgements, alerts, sleeps, cleanups, errors, cancellations.
  - The proved properties are about that trace. Examples: no judge call
    without an image; an alert exactly on a negative verdict; the sleeps
    each pass makes; exceptions contained; and the loop ending exactly at the
    first pass that calls `stop` or is cancelled.
- **Support modules.** `Text` holds ASCII lower-casing, substring search
  and zero-padded decimals. `Timestamps` holds the `strftime` formats used
  in file names. `Schedule` holds the event trace and how a pass of a
  monitor loop ends.

## Model

| member | source | states |
|---|---|---|
| Models.NewFocusCheckResponse | angeleyes/models/base.py:17-22 | a focus response is built exactly when 0 <= confidence <= 1, with every field read back as given; otherwise it is rejected with a range error |
| Models.NewPostureCheckResponse | angeleyes/models/base.py:32-39 | a posture response is built exactly when 0 <= confidence <= 1; the issues read back as given and default to the empty list when omitted |
| LlmClient.FocusVerdict | angeleyes/llm/client.py:110 | the reply reads as focused iff "true" or "focused" occurs in the lower-cased reply |
| LlmClient.PostureVerdict | angeleyes/llm/client.py:174 | the reply reads as correct iff "correct" or "good" occurs in the lower-cased reply |
| LlmClient.Reason | angeleyes/llm/client.py:116 | the reason is the prefix of the reply of length min(200, length of the reply) |
| LlmClient.FocusAnswer | angeleyes/llm/client.py:109-125 | for a reply: the keyword verdict, confidence 0.8 if focused else 0.7, and the 200-character reason. For a failure: focused, confidence 0.5, reason "Error checking focus: " + error |
| LlmClient.PostureAnswer | angeleyes/llm/client.py:173-189 | for a reply: the keyword verdict, confidence 0.75, and the reply's issue tags. For a failure: correct, confidence 0.5, and the single issue "Error checking posture: " + error |
| LlmClient.LMStudioClient.constructor | angeleyes/llm/client.py:32-34 | the client's configuration is the given one, or the defaults (localhost:1234/v1, "local-model", 30 s) |
| LlmClient.LMStudioClient.VerifyConnection | angeleyes/llm/client.py:60-68 | the connection is good iff the probe answered with status 200; a probe that raised gives false |
| LlmClient.LMStudioClient.CheckFocus | angeleyes/llm/client.py:75-125 | returns the focus response for the exchange's outcome, which never raises |
| LlmClient.LMStudioClient.ParsePostureIssues | angeleyes/llm/client.py:127-139 | the conditional appends give the table's tags in order, at most 3; each tag is present iff its keyword (slouch, neck, shoulder) occurs in the lower-cased reply |
| LlmClient.LMStudioClient.CheckPosture | angeleyes/llm/client.py:141-189 | returns the posture response for the exchange's outcome, which never raises |
| LlmClient.PostureIssuesUnfold | angeleyes/llm/client.py:129-139 | the issue list is one optional tag per keyword, in the order slouch, neck, shoulder |
| LlmClient.PostureIssues | angeleyes/llm/client.py:127-139 | the issues of a reply are the tags of the keyword table found in the lower-cased reply, at most 3 of them |
| LlmClient.TagsForMembership | angeleyes/llm/client.py:132-137 | with distinct tags in the table, a tag is reported iff its row's keyword occurs in the text |
| LlmClient.TagsForDistinct | angeleyes/llm/client.py:129-139 | with distinct tags in the table, no tag is reported twice |
| LlmClient.PostureIssuesProperties | angeleyes/llm/client.py:127-139 | the issues: at most 3, no duplicates, and each tag present iff its keyword occurs in the lower-cased reply |
| LlmClient.IssuesIgnoreCase | angeleyes/llm/client.py:130 | two replies that differ only in letter case raise the same issues |
| LlmClient.NegatedFocusReadsAsFocused | angeleyes/llm/client.py:110 | any reply containing "not focused" or "unfocused" reads as focused |
| LlmClient.IncorrectReadsAsCorrect | angeleyes/llm/client.py:174 | any reply containing "incorrect" reads as correct posture |
| LlmClient.DistractedReplyIsNotFocused | angeleyes/llm/client.py:110 | a reply with neither keyword ("distracted, browsing social media") reads as not focused |
| LlmClient.GoodReadsAsCorrect | angeleyes/llm/client.py:174 | any reply containing "good", even "not good", reads as correct posture |
| LlmClient.GoodPostureReplyHasNoIssues | angeleyes/llm/client.py:175 | "posture looks good" raises no issue |
| Text.Contains | angeleyes/llm/client.py:110 | the executable substring test agrees with substring occurrence (Python's `in`) |
| Text.LoweredKeyword | angeleyes/llm/client.py:110 | a keyword without capitals placed anywhere in a reply occurs in the lower-cased reply, whatever the case of the rest |
| Text.NatToDecimalRoundTrip | angeleyes/utils/voice.py:50 | the decimal text of a natural number reads back as that number |
| Voice.EscapeRoundTrip | angeleyes/utils/voice.py:43 | escaping each quote loses nothing: unescaping the result gives back the message |
| Voice.EscapeQuotes | angeleyes/utils/voice.py:43 | each single quote is replaced by the five-character `'"'"'`, so the escaped message is 4 characters longer per quote and otherwise as long as the message |
| Voice.SayCommand | angeleyes/utils/voice.py:45-52 | the command has six arguments: `say`, `-v` and the voice, `-r` and the rate, then the message; the voice, the rate (for a non-negative rate, whose digits read back as it) and the message (unescaping the last argument gives it back) can each be recovered from their arguments |
| Voice.EscapeWithoutQuotes | angeleyes/utils/voice.py:43 | a message without single quotes is passed through unchanged |
| Voice.VoiceAlert.constructor | angeleyes/utils/voice.py:13-18 | a new voice has the given voice and rate, an empty queue, and is not speaking |
| Voice.VoiceAlert.Speak | angeleyes/utils/voice.py:21-27 | the message goes to the back of the queue. During a running drain, speak only enqueues. Otherwise it drains fully: queue empty, not speaking, and spoken extended by the message, then the messages that arrived meanwhile, in FIFO order |
| Voice.VoiceAlert.ProcessQueue | angeleyes/utils/voice.py:29-37 | the drain speaks the old queue, then every message enqueued during it, each once, in order; the queue ends empty and `isSpeaking` false; `spoken + queue == enqueued` holds throughout |
| Voice.VoiceAlert.SpeakNext | angeleyes/utils/voice.py:33-35 | one pass of the drain: the front message leaves the queue and is spoken, and the queue invariant still holds |
| Voice.VoiceAlert.Arrive | angeleyes/utils/voice.py:21-27 | messages other callers pass to speak while a drain runs are only appended to the queue, in order; nothing is spoken by those calls |
| Voice.VoiceAlert.SpeakMessage | angeleyes/utils/voice.py:39-70 | one utterance: the `say -v voice -r rate escaped` command is issued; a non-zero exit or an exception is only logged and the message still counts as spoken |
| Timestamps.Compact | angeleyes/focus/screenshot.py:22 | `%Y%m%d_%H%M%S` is 15 characters with `_` at position 8 |
| Timestamps.CompactMicro | angeleyes/posture/webcam.py:24 | `%Y%m%d_%H%M%S_%f` is 22 characters |
| Timestamps.MicroCutKeepsMilliseconds | angeleyes/posture/webcam.py:24-26 | the first 19 characters of `%Y%m%d_%H%M%S_%f` are the compact form, `_`, and the milliseconds as three digits |
| Timestamps.PaddedValue | angeleyes/focus/screenshot.py:22 | a field that fits its width reads back as its value |
| Files.GlobMembers | angeleyes/posture/webcam.py:98 | the glob lists exactly the entries whose names match `prefix*suffix` |
| Files.WithoutNamesMembers | angeleyes/posture/webcam.py:104 | an entry is left after removing a set of names iff it was listed and its name is not in the set |
| Files.NewestFirst | angeleyes/posture/webcam.py:97-101 | sorting by mtime is a permutation of the listing |
| Files.NewestFirstOrdered | angeleyes/posture/webcam.py:97-101 | the sorted listing is newest first |
| Files.SliceStart | angeleyes/posture/webcam.py:103 | the start of the Python slice `s[k:]`, including negative `k` |
| Files.Deleted | angeleyes/posture/webcam.py:103-108 | the victims deleted before an error are a prefix of the victims |
| Files.Victims | angeleyes/posture/webcam.py:97-103 | the matching files sorted newest first, minus the first keep_last; every victim is a listed file matching the pattern |
| Files.VictimsFacts | angeleyes/posture/webcam.py:97-103 | in a listing with distinct names the victims have distinct names |
| Files.Directory.constructor | angeleyes/posture/webcam.py:17-18 | a new directory has the given path and no files |
| Files.Directory.Write | angeleyes/posture/webcam.py:49 | writing a file lists it, replacing any earlier file of that name, and keeps names distinct |
| Files.Directory.Unlink | angeleyes/posture/webcam.py:104 | unlinking removes exactly the named file and reports whether it existed |
| Files.CleanupOld | angeleyes/posture/webcam.py:94-108 | the directory loses exactly the victims deleted before any error: none if the listing fails, the first `at` if the unlink of victim `at` fails, all otherwise |
| Files.CleanupLeavesKeepLast | angeleyes/posture/webcam.py:103 | a completed cleanup leaves min(keep_last, M) of the M matching files |
| Files.CleanupKeepsNewest | angeleyes/posture/webcam.py:97-103 | every matching file kept is at least as new as every file deleted |
| Files.CleanupRemovesOnlyVictims | angeleyes/posture/webcam.py:98-104 | a file survives a completed cleanup iff it is not a victim; files not matching the pattern always survive |
| Files.CleanupBelowLimitDeletesNothing | angeleyes/posture/webcam.py:103 | with at most keep_last matching files, nothing is deleted |
| Files.InterruptedCleanupDeletesLess | angeleyes/posture/webcam.py:107-108 | a cleanup cut short by an error deletes a prefix of the victims and nothing else; everything a completed cleanup keeps is kept |
| Screenshot.ScreenshotName | angeleyes/focus/screenshot.py:22-23 | the name `screenshot_<15-character timestamp>.jpg` matches `screenshot_*.jpg` |
| Screenshot.SameSecondSameName | angeleyes/focus/screenshot.py:22 | two captures within the same second get the same name |
| Screenshot.CaptureResult | angeleyes/focus/screenshot.py:39-51 | a path is returned iff the process exited with 0 and the file exists afterwards; the path is the directory joined with the name |
| Screenshot.ScreenshotCapture.constructor | angeleyes/focus/screenshot.py:14-17 | the given directory is used, or else the default /tmp |
| Screenshot.ScreenshotCapture.Capture | angeleyes/focus/screenshot.py:20-51 | returns the capture result; a file the process wrote is listed; a returned path names an existing file; nothing is raised |
| Screenshot.ScreenshotCapture.CleanupOldScreenshots | angeleyes/focus/screenshot.py:53-67 | the cleanup of `screenshot_*.jpg` files, with errors swallowed |
| Screenshot.ScreenshotRetention | angeleyes/focus/screenshot.py:53-64 | a completed cleanup keeps min(keep_last, M) screenshots, none older than a deleted one, and every non-matching file; with at most keep_last screenshots nothing changes |
| Webcam.WebcamName | angeleyes/posture/webcam.py:24-27 | the name matches `webcam_*.jpg` |
| Webcam.WebcamNameKeepsMilliseconds | angeleyes/posture/webcam.py:24-27 | the name is `webcam_` + compact timestamp + `_` + three millisecond digits + `.jpg`: the cut keeps part of the microseconds |
| Webcam.ShotResult | angeleyes/posture/webcam.py:56-69 | an attempt gives a path iff the camera opened and the read after the warm-up yielded a frame |
| Webcam.Successes | angeleyes/posture/webcam.py:87-88 | the batch result is no longer than the number of attempts |
| Webcam.ShotResultsAt | angeleyes/posture/webcam.py:82-89 | the k-th result of a batch is the outcome of its k-th shot |
| Webcam.ShotResultsUnique | angeleyes/posture/webcam.py:82-89 | results that agree with the shots position by position are the batch results, one per shot in order |
| Webcam.VideoCapture.Read | angeleyes/posture/webcam.py:45 | a read consumes one frame and reports whether it yielded one |
| Webcam.VideoCapture.Release | angeleyes/posture/webcam.py:76 | releasing the camera marks the handle released |
| Webcam.WebcamCapture.constructor | angeleyes/posture/webcam.py:15-19 | the given directory is used, or else the default /tmp; the camera index is kept |
| Webcam.WebcamCapture.CaptureAndSave | angeleyes/posture/webcam.py:38-54 | exactly 5 warm-up reads are discarded; the 6th read decides success, and a frame is written under the name |
| Webcam.WebcamCapture.CaptureSync | angeleyes/posture/webcam.py:56-76 | gives a path iff the capture succeeds; every handle that was created is released, whatever the outcome |
| Webcam.WebcamCapture.Capture | angeleyes/posture/webcam.py:22-36 | one attempt, named after its moment; returns the shot result and lists the written file |
| Webcam.WebcamCapture.Attempt | angeleyes/posture/webcam.py:82-89 | one pass of the batch loop: a sleep of the interval before every attempt but the first, then the attempt, whose path is kept iff it succeeded; the directory lists the files of the attempts so far |
| Webcam.WebcamCapture.CaptureBatch | angeleyes/posture/webcam.py:78-92 | exactly max(count, 0) attempts, in order; the images are exactly the successful paths in attempt order; the trace is the batch events |
| Webcam.AfterShotsDistinct | angeleyes/posture/webcam.py:78-92 | the writes of a batch keep the names in a listing distinct |
| Webcam.WebcamCapture.CleanupOldImages | angeleyes/posture/webcam.py:94-108 | the cleanup of `webcam_*.jpg` files, with errors swallowed |
| Webcam.BatchAttempts | angeleyes/posture/webcam.py:82-86 | a batch's trace holds one capture event per attempt, in order |
| Webcam.BatchSleeps | angeleyes/posture/webcam.py:83-84 | a batch of n attempts sleeps max(n - 1, 0) times, each time for the interval |
| Webcam.SuccessesAreTheSomes | angeleyes/posture/webcam.py:87-88 | a path is among the images iff some attempt returned it |
| Webcam.WebcamRetention | angeleyes/posture/webcam.py:94-105 | a completed cleanup keeps min(keep_last, M) webcam images, none older than a deleted one, and every non-matching file; with at most keep_last images nothing changes |
| Schedule.EndOf | angeleyes/focus/monitor.py:43-48 | a pass continues the loop iff it was undisturbed, or raised an ordinary exception whose recovery sleep was not cancelled |
| Schedule.HandlerEffects | angeleyes/focus/monitor.py:43-48 | a handler speaks nothing and makes no judge call; it sleeps the check interval once iff the exception's recovery sleep is not cancelled |
| Schedule.EventLoop.Sleep | angeleyes/focus/monitor.py:38 | a sleep is recorded on the trace |
| Schedule.FirstHalt | angeleyes/focus/monitor.py:35 | the index of the first pass after which the loop stops |
| FocusMonitoring.FocusMonitor.constructor | angeleyes/focus/monitor.py:15-27 | a new monitor keeps the goal and interval, uses the given client or a default one, has its own capture and voice, and is not running |
| FocusMonitoring.FocusMonitor.PerformFocusCheck | angeleyes/focus/monitor.py:55-79 | the screenshot result is recorded; without a path there is no request; otherwise the request is (path, goal) unchanged; the reminder is spoken iff the verdict is not focused |
| FocusMonitoring.FocusMonitor.Judge | angeleyes/focus/monitor.py:65-79 | the request is (screenshot path, goal); the verdict is recorded, and "Hey! Remember your goal: " + goal + ". Stay focused!" is spoken iff the verdict is not focused |
| FocusMonitoring.FocusAlert | angeleyes/focus/monitor.py:76 | the reminder names the goal |
| FocusMonitoring.FocusMonitor.RunPass | angeleyes/focus/monitor.py:36-48 | one pass: the check, then the sleep, then the cleanup, with an interruption running its handler; the pass's end matches its disruption; when the check runs the capture result is the screenshot outcome of the pass's process, otherwise there is none; the screenshot listing is the one the pass leaves (`PassFiles`: the capture's write, then the cleanup of an undisturbed pass) |
| FocusMonitoring.FocusMonitor.FinishPass | angeleyes/focus/monitor.py:38-41 | after the check: the sleep of the check interval, then the screenshot cleanup; in an undisturbed pass the listing loses exactly the cleanup's deleted victims (all but the newest 10 screenshots, less any whose removal failed), an interruption leaves it unchanged |
| FocusMonitoring.FocusMonitor.Handle | angeleyes/focus/monitor.py:43-48 | an exception is logged and followed by one check-interval sleep; a cancellation breaks the loop |
| FocusMonitoring.FocusMonitor.Turn | angeleyes/focus/monitor.py:35-48 | one turn of the loop keeps `Ran`: it appends the pass's trace, its alerts and its capture result, which fits the pass's process outcome, and moves the screenshot listing on by that pass; `isRunning` is cleared iff stop was called |
| FocusMonitoring.FocusMonitor.Stop | angeleyes/focus/monitor.py:50-53 | stop clears `isRunning` |
| FocusMonitoring.FocusMonitor.Start | angeleyes/focus/monitor.py:30-48 | the loop runs exactly up to the first pass that calls stop or is cancelled; each pass's trace is recorded in order; the alerts spoken are exactly those of the trace; a pass has a screenshot only if its check ran and its process exited 0, with the timestamped path, and always when that process also wrote the file; the screenshot listing is the one the passes leave in order (`FilesAfter`) |
| FocusMonitoring.UndisturbedPassRetention | angeleyes/focus/monitor.py:36-41 | a pass that runs undisturbed to a completed cleanup leaves min(10, M) of the M screenshots present after its capture, none older than a deleted one, and every other file |
| FocusMonitoring.FilesAfterDistinct | angeleyes/focus/monitor.py:35-41 | passes keep the names in the screenshot listing distinct, so the retention above holds for every pass of a run |
| FocusMonitoring.PassTracesAt | angeleyes/focus/monitor.py:35-48 | the k-th recorded trace is that of the k-th pass of the script |
| FocusMonitoring.AlertsOfCheck | angeleyes/focus/monitor.py:60-77 | a check speaks the reminder iff it has a screenshot and the verdict is not focused |
| FocusMonitoring.JudgeOnlyWithScreenshot | angeleyes/focus/monitor.py:60-71 | no screenshot means no judge call; a completed check with a screenshot calls the judge exactly once |
| FocusMonitoring.AlertIffDistracted | angeleyes/focus/monitor.py:74-77 | a pass speaks exactly "Hey! Remember your goal: " + goal + ". Stay focused!", and only when its check completes with a screenshot read as not focused |
| FocusMonitoring.JudgeFailureNeverAlerts | angeleyes/focus/monitor.py:74 | because the judge fails open, a failed exchange never leads to a reminder |
| FocusMonitoring.PassSleeps | angeleyes/focus/monitor.py:37-48 | a pass sleeps the check interval once after its check, plus once more after a contained exception; every pass that continues the loop sleeps at least once |
| FocusMonitoring.UndisturbedPassOrder | angeleyes/focus/monitor.py:37-41 | an undisturbed pass runs check, then sleep, then cleanup |
| FocusMonitoring.ExceptionContained | angeleyes/focus/monitor.py:46-48 | an ordinary exception ends the pass with the error and a check-interval sleep, and the loop goes on |
| PostureMonitoring.ImageInterval | angeleyes/posture/monitor.py:24 | the image interval times images_per_check is the check interval; it fails (division by zero) iff images_per_check is 0 |
| PostureMonitoring.DefaultImageInterval | angeleyes/posture/monitor.py:17-24 | with the defaults, images are 20 seconds apart |
| PostureMonitoring.PostureMonitor.constructor | angeleyes/posture/monitor.py:15-28 | a new monitor has image interval = check interval / images per check, the given client or a default one, its own webcam and voice, and is not running |
| PostureMonitoring.PostureMonitor.PerformPostureCheck | angeleyes/posture/monitor.py:55-84 | a batch of images_per_check attempts at the image interval, whose results are the outcomes of the first images_per_check shots, in order. An empty batch makes no request. Otherwise the request holds exactly the captured paths in order, and the reminder is spoken iff the posture is not correct |
| PostureMonitoring.PostureMonitor.Judge | angeleyes/posture/monitor.py:69-84 | the request holds the image paths; the verdict is recorded, and the posture reminder is spoken iff the posture is not correct |
| PostureMonitoring.PostureAlert | angeleyes/posture/monitor.py:77-80 | the reminder mentions posture, and names the first issue when there is one |
| PostureMonitoring.PostureMonitor.RunPass | angeleyes/posture/monitor.py:36-48 | one pass: the check, then the cleanup, with an interruption running its handler; when the check runs the batch results are the outcomes of the first images_per_check shots in order, otherwise there are none; the webcam listing is the one the pass leaves (`PassFiles`: the writes of the batch's shots, then the cleanup of an undisturbed pass) |
| PostureMonitoring.PostureMonitor.FinishPass | angeleyes/posture/monitor.py:40-48 | after the check: the webcam cleanup, or the handler of an exception raised by it; in an undisturbed pass the listing loses exactly the cleanup's deleted victims (all but the newest 30 images, less any whose removal failed), an interruption leaves it unchanged |
| PostureMonitoring.PostureMonitor.Handle | angeleyes/posture/monitor.py:43-48 | an exception is logged and followed by one check-interval sleep; a cancellation breaks the loop |
| PostureMonitoring.PostureMonitor.Turn | angeleyes/posture/monitor.py:36-48 | one turn of the loop keeps `Ran`: it appends the pass's trace, its alerts and its batch results, which are the outcomes of its shots, and moves the webcam listing on by that pass; `isRunning` is cleared iff stop was called |
| PostureMonitoring.PostureMonitor.Stop | angeleyes/posture/monitor.py:50-53 | stop clears `isRunning` |
| PostureMonitoring.PostureMonitor.Start | angeleyes/posture/monitor.py:31-48 | the loop runs exactly up to the first pass that calls stop or is cancelled; each pass's trace is recorded in order; the alerts spoken are exactly those of the trace; each pass's batch is the outcomes of its first images_per_check shots, or empty when its check did not run; the webcam listing is the one the passes leave in order (`FilesAfter`) |
| PostureMonitoring.UndisturbedPassRetention | angeleyes/posture/monitor.py:36-41 | a pass that runs undisturbed to a completed cleanup leaves min(30, M) of the M webcam images present after its batch, none older than a deleted one, and every other file |
| PostureMonitoring.FilesAfterDistinct | angeleyes/posture/monitor.py:36-41 | passes keep the names in the webcam listing distinct, so the retention above holds for every pass of a run |
| PostureMonitoring.PassTracesAt | angeleyes/posture/monitor.py:36-48 | the k-th recorded trace is that of the k-th pass of the script |
| PostureMonitoring.BatchIsQuiet | angeleyes/posture/webcam.py:78-92 | a batch makes no judge call and speaks nothing |
| PostureMonitoring.AlertsOfCheck | angeleyes/posture/monitor.py:65-82 | a check calls the judge iff it has images, and speaks the reminder iff it has images and the posture is not correct |
| PostureMonitoring.AlertsOfJudge | angeleyes/posture/monitor.py:70-82 | judging makes one judge call and speaks the reminder iff the posture is not correct |
| PostureMonitoring.JudgeOnlyWithImages | angeleyes/posture/monitor.py:65-71 | an empty batch means no judge call and no alert; a completed check with images calls the judge once |
| PostureMonitoring.AlertIffIncorrect | angeleyes/posture/monitor.py:74-82 | a pass speaks the posture reminder, naming the first issue when there is one, exactly when its check completes with images read as not correct |
| PostureMonitoring.JudgeFailureNeverAlerts | angeleyes/posture/monitor.py:74 | because the judge fails open, a failed exchange never leads to a reminder |
| PostureMonitoring.UndisturbedPassSleeps | angeleyes/posture/monitor.py:38-41 | an undisturbed pass sleeps only between batch shots: max(n - 1, 0) times, each for the image interval |
| PostureMonitoring.ExceptionContained | angeleyes/posture/monitor.py:46-48 | an ordinary exception ends the pass with the error and a check-interval sleep, and the loop goes on |

## Left out

- The asyncio orchestration in `angeleyes/app.py` is not part of this model: task creation, `gather`, signal handlers and shutdown. Startup refuses to run any monitor when `verify_connection` is false; the model only covers that decision (`VerifyConnection`).
- The two monitors run concurrently in the original. Here each monitor is modelled alone, running over its own event loop.
- The HTTP transport, the JSON shape of the reply and the base64 image encoding are not modelled. A call is handed the reply text or the error text.
- The prompts (`angeleyes/llm/prompts.py`), the configuration file (`angeleyes/utils/config.py`), the terminal interface (`angeleyes/cli.py`) and logging (`angeleyes/utils/logger.py`) are not part of this model. Log calls have no counterpart.
- Devices and subprocesses are not driven: the `screencapture` process, the camera and the `say` command. What they do is supplied as input, and writing a frame with `imwrite` always succeeds.
- The wall clock is not read. A capture is given its moment as calendar fields, and its file's mtime as a number. The four-digit year of `%Y` is assumed.
- Requests carry no timestamp: their `timestamp` field, filled from the clock, is left out.
- Floating-point numbers are modelled as exact reals: the confidences, the timeout, and `image_interval`.
- Lower-casing is ASCII only. Python's Unicode `str.lower` is not modelled.
- Interruptions happen only between the statements of a loop pass, and each pass has at most one. An exception inside the speech drain, or a cancellation mid-utterance, is not modelled; in Python either would leave `is_speaking` set.
- `stop` is modelled as called during a pass of the loop. Its effect is seen when the loop next checks `is_running`.
- A monitor loop runs over a finite script of passes in which some pass halts the loop (by stop or a cancellation). An endless run is not modelled.
- The default save directory `/tmp` starts empty in the model, and the monitors own it alone.
- The exit code of the `say` command is only recorded as a failure, since it is only logged.
- Files.NewestFirst: sorts newest first as a permutation, but does not prove that files with equal mtimes keep their listing order (Python's `sorted` is stable).
- PostureMonitoring.PostureMonitor.constructor: requires `images_per_check` to be non-zero. In Python that case raises `ZeroDivisionError` during construction; `ImageInterval` models that failure.
