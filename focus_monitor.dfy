/** The focus monitor (angeleyes/focus/monitor.py): every check interval it
    takes a screenshot, asks the judge whether the screen matches the goal,
    and speaks a reminder when it does not. The loop runs until `stop` clears
    `is_running` or the task is cancelled. Each pass of the loop is handed
    what the outside world does during it. */
module FocusMonitoring {
  import opened Wrappers
  import opened Models
  import opened Files
  import opened Timestamps
  import opened Schedule
  import opened Text
  import opened LlmClient
  import opened Voice
  import opened Screenshot

  /** The three statements of the loop body. */
  datatype FocusStage = Checking | Pausing | CleaningUp

  /** What happens during one pass: the time and file stamp of the
      screenshot, what the capture process does, the judge's reply, how the
      reminder's speech command ends, whether the cleanup fails, what
      interrupts the pass, and whether `stop` is called meanwhile. */
  datatype FocusPass = FocusPass(
    at: DateTime, mtime: int, process: ProcessOutcome, reply: JudgeReply,
    speech: SpeechOutcome, cleanup: CleanupFault,
    disruption: Disruption<FocusStage>, stopCalled: bool)

  const DefaultCheckInterval := 60

  /** The spoken reminder. */
  function FocusAlert(goal: string): (message: string)
    ensures Occurs(goal, message)
  {
    var opening := "Hey! Remember your goal: ";
    var message := opening + goal + ". Stay focused!";
    assert IsAt(goal, message, |opening|) by {
      assert message[|opening|..|opening| + |goal|] == goal;
    }
    message
  }

  /** The events of `_perform_focus_check` once the screenshot attempt
      returned `captured`. */
  function CheckEvents(goal: string, captured: Option<Path>, reply: JudgeReply): seq<Event>
  {
    [Captured(captured)] + if captured.None? then [] else JudgeEvents(goal, reply)
  }

  /** The events of judging a screenshot: the verdict, and the reminder when
      it is "not focused". */
  function JudgeEvents(goal: string, reply: JudgeReply): seq<Event>
  {
    var focused := FocusAnswer(reply).isFocused;
    [Judged(focused)] + (if focused then [] else [Alerted(FocusAlert(goal))])
  }

  /** The events after the check: sleep and cleanup; or, when the pass is
      interrupted after its check, what ran before the interruption followed
      by its handler. */
  function RestEvents(d: Disruption<FocusStage>, interval: real): seq<Event>
    requires d.Undisturbed? || d.at != Checking
  {
    match d
    case Undisturbed => [Slept(interval), CleanedUp]
    case _ => (if d.at == CleaningUp then [Slept(interval)] else []) + HandlerEvents(d, interval)
  }

  /** The events of one pass: check, sleep, cleanup, with an interruption
      cutting the pass short and running its handler. */
  function PassEvents(goal: string, interval: real, captured: Option<Path>, reply: JudgeReply,
                      d: Disruption<FocusStage>): seq<Event>
  {
    if CheckCompletes(d) then CheckEvents(goal, captured, reply) + RestEvents(d, interval)
    else HandlerEvents(d, interval)
  }

  /** Whether the check of a pass runs to its end. */
  predicate CheckCompletes(d: Disruption<FocusStage>)
  {
    d.Undisturbed? || d.at != Checking
  }

  function HaltFlags(script: seq<FocusPass>): (flags: seq<bool>)
    ensures |flags| == |script|
    ensures forall k :: 0 <= k < |script| ==> flags[k] == Halts(script[k].disruption, script[k].stopCalled)
  {
    seq(|script|, k requires 0 <= k < |script| => Halts(script[k].disruption, script[k].stopCalled))
  }

  class FocusMonitor {
    const goal: string
    const checkInterval: int
    const screenshots: ScreenshotCapture
    const client: LMStudioClient
    const voice: VoiceAlert
    const loop: EventLoop
    var isRunning: bool

    ghost predicate Valid()
      reads screenshots.dir, voice
    {
      screenshots.dir.Valid() && voice.Valid() && !voice.isSpeaking
    }

    /** A monitor with its own screenshot capture in the default directory,
        its own voice with the default settings, and the given client or a
        default one; not running. */
    constructor (goal: string, checkInterval: int, llmClient: Option<LMStudioClient>, loop: EventLoop)
      ensures Valid() && !isRunning
      ensures this.goal == goal && this.checkInterval == checkInterval && this.loop == loop
      ensures llmClient.Some? ==> client == llmClient.value
      ensures llmClient.None? ==> fresh(client) && client.config == DefaultConfig
      ensures fresh(screenshots) && fresh(screenshots.dir) && fresh(voice)
      ensures voice.voice == DefaultVoice && voice.rate == DefaultRate && voice.spoken == []
    {
      this.goal := goal;
      this.checkInterval := checkInterval;
      screenshots := new ScreenshotCapture(None);
      if llmClient.Some? {
        client := llmClient.value;
      } else {
        client := new LMStudioClient(None);
      }
      voice := new VoiceAlert(DefaultVoice, DefaultRate);
      this.loop := loop;
      isRunning := false;
    }

    /** `_perform_focus_check`: no screenshot means no judgement and no
        reminder; otherwise the screenshot and the goal go to the judge, and
        the reminder is spoken exactly when the answer is "not focused". */
    method PerformFocusCheck(pass: FocusPass)
      returns (ghost captured: Option<Path>, ghost request: Option<FocusCheckRequest>)
      requires Valid()
      modifies screenshots.dir, voice, loop
      ensures Valid()
      ensures captured == CaptureResult(screenshots.dir.path, old(screenshots.dir.files), pass.at, pass.process)
      ensures screenshots.dir.files == CaptureFiles(old(screenshots.dir.files), pass.at, pass.mtime, pass.process)
      ensures request == if captured.Some? then Some(FocusCheckRequest(captured.value, goal)) else None
      ensures loop.trace == old(loop.trace) + CheckEvents(goal, captured, pass.reply)
      ensures voice.spoken == old(voice.spoken) + Alerts(CheckEvents(goal, captured, pass.reply))
    {
      var screenshotPath := screenshots.Capture(pass.at, pass.mtime, pass.process);
      captured := screenshotPath;
      loop.Record(Captured(screenshotPath));
      ghost var trace0 := loop.trace;
      if screenshotPath.None? {
        request := None;
        assert CheckEvents(goal, captured, pass.reply) == [Captured(captured)];
        return;
      }
      ghost var req := Judge(screenshotPath.value, pass.reply, pass.speech);
      request := Some(req);
      assert loop.trace == old(loop.trace) + CheckEvents(goal, captured, pass.reply) by {
        AppendAssoc(old(loop.trace), [Captured(captured)], JudgeEvents(goal, pass.reply));
      }
      assert Alerts(CheckEvents(goal, captured, pass.reply)) == Alerts(JudgeEvents(goal, pass.reply)) by {
        AlertsAppend([Captured(captured)], JudgeEvents(goal, pass.reply));
      }
    }

    /** The judgement of a captured screenshot: the request carries the path
        and the goal unchanged, and the reminder is spoken exactly when the
        answer is "not focused". */
    method Judge(path: Path, reply: JudgeReply, speech: SpeechOutcome) returns (ghost request: FocusCheckRequest)
      requires voice.Valid() && !voice.isSpeaking
      modifies voice, loop
      ensures voice.Valid() && !voice.isSpeaking
      ensures request == FocusCheckRequest(path, goal)
      ensures loop.trace == old(loop.trace) + JudgeEvents(goal, reply)
      ensures voice.spoken == old(voice.spoken) + Alerts(JudgeEvents(goal, reply))
    {
      var req := FocusCheckRequest(path, goal);
      request := req;
      var response := client.CheckFocus(req, reply);
      loop.Record(Judged(response.isFocused));
      if !response.isFocused {
        var message := FocusAlert(goal);
        loop.Record(Alerted(message));
        var noArrivals: seq<seq<string>> := [];
        var used := voice.Speak(message, noArrivals, _ => speech);
        assert noArrivals[..used] == [];
        AlertsAppend([Judged(false)], [Alerted(message)]);
      }
    }

    /** One pass of the loop body, with its exception handlers. */
    method RunPass(pass: FocusPass) returns (end: RoundEnd, ghost captured: Option<Path>)
      requires Valid()
      modifies screenshots.dir, voice, loop
      ensures Valid()
      ensures end == EndOf(pass.disruption)
      ensures loop.trace == old(loop.trace) + PassEvents(goal, checkInterval as real, captured, pass.reply, pass.disruption)
      ensures voice.spoken == old(voice.spoken)
        + Alerts(PassEvents(goal, checkInterval as real, captured, pass.reply, pass.disruption))
      ensures CheckCompletes(pass.disruption)
        ==> captured == CaptureResult(screenshots.dir.path, old(screenshots.dir.files), pass.at, pass.process)
      ensures !CheckCompletes(pass.disruption) ==> captured == None
      ensures screenshots.dir.files == PassFiles(old(screenshots.dir.files), pass)
    {
      var d := pass.disruption;
      captured := None;
      if !CheckCompletes(d) {
        end := Handle(d);
        assert Alerts(PassEvents(goal, checkInterval as real, captured, pass.reply, d)) == [] by {
          PassAlerts(goal, checkInterval as real, captured, pass.reply, d);
        }
        return;
      }
      ghost var trace0 := loop.trace;
      ghost var request;
      captured, request := PerformFocusCheck(pass);
      ghost var check := CheckEvents(goal, captured, pass.reply);
      end := FinishPass(d, pass.cleanup);
      ghost var rest := RestEvents(d, checkInterval as real);
      assert loop.trace == trace0 + (check + rest);
      assert Alerts(PassEvents(goal, checkInterval as real, captured, pass.reply, d)) == Alerts(check) by {
        PassAlerts(goal, checkInterval as real, captured, pass.reply, d);
      }
    }

    /** The statements after the check: the sleep of the check interval and
        the screenshot cleanup, each of which can be interrupted. */
    method FinishPass(d: Disruption<FocusStage>, cleanup: CleanupFault) returns (end: RoundEnd)
      requires CheckCompletes(d)
      requires screenshots.dir.Valid()
      modifies screenshots.dir, loop
      ensures screenshots.dir.Valid()
      ensures end == EndOf(d)
      ensures loop.trace == old(loop.trace) + RestEvents(d, checkInterval as real)
      ensures screenshots.dir.files == RestFiles(old(screenshots.dir.files), d, cleanup)
    {
      if !d.Undisturbed? && d.at == Pausing {
        end := Handle(d);
        return;
      }
      loop.Sleep(checkInterval as real);
      if !d.Undisturbed? && d.at == CleaningUp {
        end := Handle(d);
        return;
      }
      screenshots.CleanupOldScreenshots(DefaultKeepLast, cleanup);
      loop.Record(CleanedUp);
      end := Continued;
    }

    /** The handlers: an exception is logged and followed by a sleep of the
        check interval, unless that sleep is cancelled; a cancellation breaks
        the loop. */
    method Handle(d: Disruption<FocusStage>) returns (end: RoundEnd)
      requires !d.Undisturbed?
      modifies loop
      ensures end == EndOf(d)
      ensures loop.trace == old(loop.trace) + HandlerEvents(d, checkInterval as real)
    {
      match d {
        case Raises(_, error, recoveryCancelled) =>
          loop.Record(Raised(error));
          if recoveryCancelled {
            loop.Record(Cancelled);
            end := CancelledInRecovery;
          } else {
            loop.Sleep(checkInterval as real);
            end := Continued;
          }
        case Cancels(_) =>
          loop.Record(Cancelled);
          end := Broke;
      }
    }

    /** The state after the first `|rounds|` passes of `script`, started
        from trace `trace0`, spoken list `spoken0` and listing `files0`:
        the `k`-th pass ran as `script[k]` with its capture returning
        `captures[k]`, and the trace, the spoken alerts and the listing are
        what those passes leave. */
    ghost predicate Ran(trace0: seq<Event>, spoken0: seq<string>, files0: seq<FileEntry>,
                        script: seq<FocusPass>, rounds: seq<seq<Event>>, captures: seq<Option<Path>>)
      reads this, screenshots.dir, voice, loop
    {
      && |rounds| <= |script|
      && PassesMatch(goal, checkInterval as real, script, rounds, captures)
      && CapturesFit(screenshots.dir.path, script, captures)
      && screenshots.dir.files == FilesAfter(files0, script, |rounds|)
      && loop.trace == trace0 + Concat(rounds)
      && voice.spoken == spoken0 + Alerts(Concat(rounds))
    }

    /** One turn of the `while` loop: the next pass of `script`, and `stop`
        when it is called during the pass. */
    method Turn(pass: FocusPass, ghost trace0: seq<Event>, ghost spoken0: seq<string>, ghost files0: seq<FileEntry>,
                ghost script: seq<FocusPass>, ghost rounds: seq<seq<Event>>, ghost captures: seq<Option<Path>>)
      returns (end: RoundEnd, ghost nextRounds: seq<seq<Event>>, ghost nextCaptures: seq<Option<Path>>)
      requires Valid()
      requires |rounds| < |script| && pass == script[|rounds|]
      requires Ran(trace0, spoken0, files0, script, rounds, captures)
      modifies this, screenshots.dir, voice, loop
      ensures Valid()
      ensures end == EndOf(pass.disruption)
      ensures isRunning == (old(isRunning) && !pass.stopCalled)
      ensures |nextRounds| == |rounds| + 1 && nextRounds[..|rounds|] == rounds
      ensures Ran(trace0, spoken0, files0, script, nextRounds, nextCaptures)
    {
      ghost var captured;
      end, captured := RunPass(pass);
      assert CaptureFits(screenshots.dir.path, pass, captured);
      ghost var events := PassEvents(goal, checkInterval as real, captured, pass.reply, pass.disruption);
      PassesMatchStep(goal, checkInterval as real, script, rounds, captures, captured);
      nextRounds := rounds + [events];
      nextCaptures := captures + [captured];
      CapturesFitStep(screenshots.dir.path, script, captures, captured);
      AppendAssoc(trace0, Concat(rounds), events);
      AlertsAppend(Concat(rounds), events);
      AppendAssoc(spoken0, Alerts(Concat(rounds)), Alerts(events));
      if pass.stopCalled {
        Stop();
      }
    }

    /** `stop`. */
    method Stop()
      modifies this
      ensures !isRunning
    {
      isRunning := false;
    }

    /** `start`: sets `is_running` and runs passes while it stays set. The
        `k`-th pass behaves as `script[k]`; some pass halts the loop. The loop
        runs exactly up to the first halting pass: it ends only through
        `stop` or a cancellation. */
    method Start(script: seq<FocusPass>)
      returns (outcome: StartOutcome, ghost passes: nat, ghost rounds: seq<seq<Event>>,
               ghost captures: seq<Option<Path>>)
      requires Valid()
      requires true in HaltFlags(script)
      modifies this, screenshots.dir, voice, loop
      ensures Valid()
      ensures passes == FirstHalt(HaltFlags(script)) + 1
      ensures isRunning == !script[passes - 1].stopCalled
      ensures outcome == if EndOf(script[passes - 1].disruption) == CancelledInRecovery
        then CancelledErrorRaised else Returned
      ensures |rounds| == passes && PassesMatch(goal, checkInterval as real, script, rounds, captures)
      ensures forall k :: 0 <= k < |captures| ==> CaptureFits(screenshots.dir.path, script[k], captures[k])
      ensures screenshots.dir.files == FilesAfter(old(screenshots.dir.files), script, passes)
      ensures loop.trace == old(loop.trace) + Concat(rounds)
      ensures voice.spoken == old(voice.spoken) + Alerts(Concat(rounds))
    {
      ghost var flags := HaltFlags(script);
      ghost var last := FirstHalt(flags);
      isRunning := true;
      outcome := Returned;
      var i := 0;
      rounds := [];
      captures := [];
      while isRunning
        invariant 0 <= i <= last + 1
        invariant isRunning ==> i <= last
        invariant !isRunning ==> i == last + 1
        invariant Valid()
        invariant outcome == Returned
        invariant i > 0 ==> isRunning == !script[i - 1].stopCalled
        invariant i > 0 ==> EndOf(script[i - 1].disruption) == Continued
        invariant |rounds| == i && Ran(old(loop.trace), old(voice.spoken), old(screenshots.dir.files), script, rounds, captures)
        decreases last + 1 - i
      {
        var end;
        end, rounds, captures := Turn(script[i], old(loop.trace), old(voice.spoken), old(screenshots.dir.files), script, rounds, captures);
        i := i + 1;
        if end == Broke {
          break;
        }
        if end == CancelledInRecovery {
          outcome := CancelledErrorRaised;
          break;
        }
      }
      passes := i;
      CapturesFitAll(screenshots.dir.path, script, captures);
    }
  }

  /** The screenshot listing after the statements that follow the check:
      the cleanup, keeping the newest `DefaultKeepLast`, runs only in an
      undisturbed pass; an interruption before it leaves the listing alone. */
  function RestFiles(files: seq<FileEntry>, d: Disruption<FocusStage>, fault: CleanupFault): seq<FileEntry>
  {
    if d.Undisturbed? then
      WithoutNames(files, NamesOf(Deleted(Victims(files, ScreenshotPrefix, ScreenshotSuffix, DefaultKeepLast), fault)))
    else files
  }

  /** The screenshot listing after one pass: the capture's write, then the
      rest of the pass; an interruption of the check leaves it alone. */
  function PassFiles(files: seq<FileEntry>, pass: FocusPass): seq<FileEntry>
  {
    if CheckCompletes(pass.disruption) then
      RestFiles(CaptureFiles(files, pass.at, pass.mtime, pass.process), pass.disruption, pass.cleanup)
    else files
  }

  /** The screenshot listing after the first `n` passes of `script`, run in order. */
  function FilesAfter(files: seq<FileEntry>, script: seq<FocusPass>, n: nat): seq<FileEntry>
    requires n <= |script|
  {
    if n == 0 then files
    else PassFiles(FilesAfter(files, script, n - 1), script[n - 1])
  }

  /** A pass that runs undisturbed to a completed cleanup leaves
      `min(DefaultKeepLast, M)` of the `M` screenshots present after its
      capture, the newest ones, and every other file. */
  lemma UndisturbedPassRetention(files: seq<FileEntry>, pass: FocusPass)
    requires DistinctNames(files)
    requires pass.disruption.Undisturbed? && pass.cleanup == NoFault
    ensures var captured := CaptureFiles(files, pass.at, pass.mtime, pass.process);
      var after := PassFiles(files, pass);
      var m := |Glob(captured, ScreenshotPrefix, ScreenshotSuffix)|;
      && |Glob(after, ScreenshotPrefix, ScreenshotSuffix)| == (if DefaultKeepLast < m then DefaultKeepLast else m)
      && (forall a, v ::
            a in Glob(after, ScreenshotPrefix, ScreenshotSuffix) && v in Victims(captured, ScreenshotPrefix, ScreenshotSuffix, DefaultKeepLast)
            ==> a.mtime >= v.mtime)
      && (forall e :: e in captured && !MatchesPattern(e.name, ScreenshotPrefix, ScreenshotSuffix) ==> e in after)
  {
    var captured := CaptureFiles(files, pass.at, pass.mtime, pass.process);
    if pass.process.Exits? && pass.process.wroteFile {
      WrittenDistinct(files, ScreenshotName(pass.at), pass.mtime);
    }
    ScreenshotRetention(captured, DefaultKeepLast);
  }

  /** Passes keep the names of the listing distinct, so that
      `UndisturbedPassRetention` applies to every pass of a run. */
  lemma {:induction false} FilesAfterDistinct(files: seq<FileEntry>, script: seq<FocusPass>, n: nat)
    requires DistinctNames(files) && n <= |script|
    ensures DistinctNames(FilesAfter(files, script, n))
  {
    if n > 0 {
      FilesAfterDistinct(files, script, n - 1);
      var before := FilesAfter(files, script, n - 1);
      var pass := script[n - 1];
      if pass.process.Exits? && pass.process.wroteFile {
        WrittenDistinct(before, ScreenshotName(pass.at), pass.mtime);
      }
      var captured := CaptureFiles(before, pass.at, pass.mtime, pass.process);
      WithoutNamesDistinct(captured, NamesOf(Deleted(Victims(captured, ScreenshotPrefix, ScreenshotSuffix, DefaultKeepLast), pass.cleanup)));
    }
  }

  /** The traces of the first `|captures|` passes of `script`, the `k`-th pass
      running as `script[k]` with the screenshot attempt returning `captures[k]`. */
  function PassTraces(goal: string, interval: real, script: seq<FocusPass>, captures: seq<Option<Path>>): (rounds: seq<seq<Event>>)
    requires |captures| <= |script|
    ensures |rounds| == |captures|
  {
    if captures == [] then []
    else
      var k := |captures| - 1;
      PassTraces(goal, interval, script, captures[..k]) + [PassEvents(goal, interval, captures[k], script[k].reply, script[k].disruption)]
  }

  /** `rounds` are the traces of the passes run so far. */
  ghost predicate PassesMatch(goal: string, interval: real, script: seq<FocusPass>,
                              rounds: seq<seq<Event>>, captures: seq<Option<Path>>)
  {
    |captures| <= |script| && rounds == PassTraces(goal, interval, script, captures)
  }

  lemma PassesMatchStep(goal: string, interval: real, script: seq<FocusPass>,
                        rounds: seq<seq<Event>>, captures: seq<Option<Path>>, captured: Option<Path>)
    requires PassesMatch(goal, interval, script, rounds, captures) && |rounds| < |script|
    ensures var k := |rounds|;
      var events := PassEvents(goal, interval, captured, script[k].reply, script[k].disruption);
      && PassesMatch(goal, interval, script, rounds + [events], captures + [captured])
      && Concat(rounds + [events]) == Concat(rounds) + events
  {
    var k := |rounds|;
    var events := PassEvents(goal, interval, captured, script[k].reply, script[k].disruption);
    assert (captures + [captured])[..k] == captures;
    assert (rounds + [events])[..k] == rounds;
  }

  /** The `k`-th trace is that of the `k`-th pass of the script. */
  lemma {:induction false} PassTracesAt(goal: string, interval: real, script: seq<FocusPass>,
                                        captures: seq<Option<Path>>, k: nat, captured: Option<Path>)
    requires |captures| <= |script| && k < |captures| && captured == captures[k]
    ensures PassTraces(goal, interval, script, captures)[k]
      == PassEvents(goal, interval, captured, script[k].reply, script[k].disruption)
  {
    var m := |captures| - 1;
    if k < m {
      PassTracesEarlier(goal, interval, script, captures, k);
      assert captures[..m][k] == captured;
      PassTracesAt(goal, interval, script, captures[..m], k, captured);
    } else {
      PassTracesLast(goal, interval, script, captures);
    }
  }

  /** The last trace is that of the last pass run. */
  lemma PassTracesLast(goal: string, interval: real, script: seq<FocusPass>, captures: seq<Option<Path>>)
    requires 0 < |captures| <= |script|
    ensures var m := |captures| - 1;
      PassTraces(goal, interval, script, captures)[m]
      == PassEvents(goal, interval, captures[m], script[m].reply, script[m].disruption)
  {
  }

  /** A trace of an earlier pass is not changed by the passes after it. */
  lemma PassTracesEarlier(goal: string, interval: real, script: seq<FocusPass>, captures: seq<Option<Path>>, k: nat)
    requires |captures| <= |script| && k < |captures| - 1
    ensures PassTraces(goal, interval, script, captures)[k]
      == PassTraces(goal, interval, script, captures[..|captures| - 1])[k]
  {
  }


  /** What the screenshot attempt of `pass` can have returned, whatever was
      already in the directory: nothing when the check did not run; a path
      only when `screencapture` exited with 0, and then the path of the
      pass's file name; and a path whenever the process exited with 0 and
      wrote its file. */
  ghost predicate CaptureFits(dirPath: string, pass: FocusPass, captured: Option<Path>)
  {
    if CheckCompletes(pass.disruption) then
      && (captured.Some? ==> && pass.process.Exits? && pass.process.returnCode == 0
                             && captured.value == JoinPath(dirPath, ScreenshotName(pass.at)))
      && (pass.process.Exits? && pass.process.returnCode == 0 && pass.process.wroteFile ==> captured.Some?)
    else captured == None
  }

  /** Each of `captures` fits the pass of `script` at its position. */
  ghost predicate CapturesFit(dirPath: string, script: seq<FocusPass>, captures: seq<Option<Path>>)
    decreases |captures|
  {
    && |captures| <= |script|
    && (captures != [] ==>
          var m := |captures| - 1;
          CapturesFit(dirPath, script, captures[..m]) && CaptureFits(dirPath, script[m], captures[m]))
  }

  lemma CapturesFitStep(dirPath: string, script: seq<FocusPass>, captures: seq<Option<Path>>, captured: Option<Path>)
    requires CapturesFit(dirPath, script, captures) && |captures| < |script|
    requires CaptureFits(dirPath, script[|captures|], captured)
    ensures CapturesFit(dirPath, script, captures + [captured])
  {
    assert (captures + [captured])[..|captures|] == captures;
  }

  /** The `k`-th capture fits the `k`-th pass of the script. */
  lemma {:induction false} CapturesFitAt(dirPath: string, script: seq<FocusPass>, captures: seq<Option<Path>>, k: nat)
    requires CapturesFit(dirPath, script, captures) && k < |captures|
    ensures k < |script| && CaptureFits(dirPath, script[k], captures[k])
  {
    var m := |captures| - 1;
    if k < m {
      CapturesFitAt(dirPath, script, captures[..m], k);
      assert captures[..m][k] == captures[k];
    }
  }

  /** Every capture fits the pass of the script at its position. */
  lemma CapturesFitAll(dirPath: string, script: seq<FocusPass>, captures: seq<Option<Path>>)
    requires CapturesFit(dirPath, script, captures)
    ensures forall k :: 0 <= k < |captures| ==> CaptureFits(dirPath, script[k], captures[k])
  {
    forall k | 0 <= k < |captures|
      ensures CaptureFits(dirPath, script[k], captures[k])
    {
      CapturesFitAt(dirPath, script, captures, k);
    }
  }

  lemma AlertsOfCheck(goal: string, captured: Option<Path>, reply: JudgeReply)
    ensures Alerts(CheckEvents(goal, captured, reply))
      == if captured.Some? && !FocusAnswer(reply).isFocused then [FocusAlert(goal)] else []
  {
    var events := CheckEvents(goal, captured, reply);
    AlertsAppend([Captured(captured)], events[1..]);
    assert events == [Captured(captured)] + events[1..];
    if captured.Some? {
      var focused := FocusAnswer(reply).isFocused;
      var tail := if focused then [] else [Alerted(FocusAlert(goal))];
      assert events[1..] == [Judged(focused)] + tail;
      AlertsAppend([Judged(focused)], tail);
    }
  }

  /** The only alert a pass can speak is the check's reminder, and it is
      spoken when the check completes. */
  lemma PassAlerts(goal: string, interval: real, captured: Option<Path>, reply: JudgeReply, d: Disruption<FocusStage>)
    ensures Alerts(PassEvents(goal, interval, captured, reply, d))
      == if CheckCompletes(d) then Alerts(CheckEvents(goal, captured, reply)) else []
  {
    if CheckCompletes(d) {
      var check := CheckEvents(goal, captured, reply);
      AlertsAppend(check, RestEvents(d, interval));
      if !d.Undisturbed? {
        HandlerEffects(d, interval);
        var pause: seq<Event> := if d.at == CleaningUp then [Slept(interval)] else [];
        AlertsAppend(pause, HandlerEvents(d, interval));
      }
    } else {
      HandlerEffects(d, interval);
    }
  }

  lemma SleepsOfCheck(goal: string, captured: Option<Path>, reply: JudgeReply)
    ensures Sleeps(CheckEvents(goal, captured, reply)) == []
    ensures JudgeCalls(CheckEvents(goal, captured, reply)) == if captured.Some? then 1 else 0
  {
    var events := CheckEvents(goal, captured, reply);
    assert events == [Captured(captured)] + events[1..];
    SleepsAppend([Captured(captured)], events[1..]);
    JudgeCallsAppend([Captured(captured)], events[1..]);
    if captured.Some? {
      var focused := FocusAnswer(reply).isFocused;
      var tail := if focused then [] else [Alerted(FocusAlert(goal))];
      assert events[1..] == [Judged(focused)] + tail;
      SleepsAppend([Judged(focused)], tail);
      JudgeCallsAppend([Judged(focused)], tail);
    }
  }

  /** A pass whose screenshot failed makes no judge call; a pass whose check
      completes with a screenshot calls the judge exactly once. */
  lemma {:induction false} JudgeOnlyWithScreenshot(goal: string, interval: real, captured: Option<Path>,
                                                  reply: JudgeReply, d: Disruption<FocusStage>)
    ensures JudgeCalls(PassEvents(goal, interval, captured, reply, d))
      == if CheckCompletes(d) && captured.Some? then 1 else 0
  {
    if CheckCompletes(d) {
      var check := CheckEvents(goal, captured, reply);
      var rest := RestEvents(d, interval);
      assert JudgeCalls(check) == if captured.Some? then 1 else 0 by {
        SleepsOfCheck(goal, captured, reply);
      }
      assert JudgeCalls(rest) == 0 by {
        if d.Undisturbed? {
          JudgeCallsAppend([Slept(interval)], [CleanedUp]);
        } else {
          HandlerEffects(d, interval);
          var pause: seq<Event> := if d.at == CleaningUp then [Slept(interval)] else [];
          JudgeCallsAppend(pause, HandlerEvents(d, interval));
        }
      }
      JudgeCallsAppend(check, rest);
    } else {
      HandlerEffects(d, interval);
    }
  }

  /** The reminder is spoken in a pass exactly when its check completes with
      a screenshot that the judge reads as not focused, and its text names
      the goal. */
  lemma {:induction false} AlertIffDistracted(goal: string, interval: real, captured: Option<Path>,
                                             reply: JudgeReply, d: Disruption<FocusStage>)
    ensures Alerts(PassEvents(goal, interval, captured, reply, d))
      == if CheckCompletes(d) && captured.Some? && !FocusAnswer(reply).isFocused then [FocusAlert(goal)] else []
  {
    PassAlerts(goal, interval, captured, reply, d);
    AlertsOfCheck(goal, captured, reply);
  }

  /** The judge fails open, so a failed exchange never leads to a reminder. */
  lemma {:induction false} JudgeFailureNeverAlerts(goal: string, interval: real, captured: Option<Path>,
                                                  error: string, d: Disruption<FocusStage>)
    ensures Alerts(PassEvents(goal, interval, captured, Failed(error), d)) == []
  {
    AlertIffDistracted(goal, interval, captured, Failed(error), d);
  }

  /** The sleeps of a pass: one check interval after the check; one more
      when an exception is recovered from; a cancelled recovery sleep does not
      count. In particular every pass that continues the loop sleeps the check
      interval at least once. */
  lemma {:induction false} PassSleeps(goal: string, interval: real, captured: Option<Path>,
                                     reply: JudgeReply, d: Disruption<FocusStage>)
    ensures Sleeps(PassEvents(goal, interval, captured, reply, d)) ==
      (if d.Undisturbed? || d.at == CleaningUp then [interval] else [])
      + (if d.Raises? && !d.recoveryCancelled then [interval] else [])
    ensures EndOf(d) == Continued ==> interval in Sleeps(PassEvents(goal, interval, captured, reply, d))
  {
    SleepsOfCheck(goal, captured, reply);
    if CheckCompletes(d) {
      var check := CheckEvents(goal, captured, reply);
      SleepsAppend(check, RestEvents(d, interval));
      if d.Undisturbed? {
        SleepsAppend([Slept(interval)], [CleanedUp]);
      } else {
        HandlerEffects(d, interval);
        var pause: seq<Event> := if d.at == CleaningUp then [Slept(interval)] else [];
        SleepsAppend(pause, HandlerEvents(d, interval));
      }
    } else {
      HandlerEffects(d, interval);
    }
  }

  /** An undisturbed pass checks first, then sleeps the check interval, then
      cleans up, and ends there. */
  lemma UndisturbedPassOrder(goal: string, interval: real, captured: Option<Path>, reply: JudgeReply)
    ensures var events := PassEvents(goal, interval, captured, reply, Undisturbed);
      && |events| >= 3
      && events[0] == Captured(captured)
      && events[|events| - 2..] == [Slept(interval), CleanedUp]
  {
  }

  /** An ordinary exception is contained: the pass ends with the error and a
      sleep of the check interval, and the loop goes on. */
  lemma ExceptionContained(goal: string, interval: real, captured: Option<Path>, reply: JudgeReply,
                           at: FocusStage, error: string)
    ensures var events := PassEvents(goal, interval, captured, reply, Raises(at, error, false));
      && EndOf(Raises(at, error, false)) == Continued
      && |events| >= 2
      && events[|events| - 2..] == [Raised(error), Slept(interval)]
  {
    var d := Raises(at, error, false);
    var handler := HandlerEvents(d, interval);
    assert handler == [Raised(error), Slept(interval)];
    var events := PassEvents(goal, interval, captured, reply, d);
    if CheckCompletes(d) {
      var before := CheckEvents(goal, captured, reply) + (if at == CleaningUp then [Slept(interval)] else []);
      assert events == before + handler;
    }
    assert events[|events| - 2..] == handler;
  }
}
