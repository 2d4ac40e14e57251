/** The posture monitor (angeleyes/posture/monitor.py): it takes a batch of
    webcam images spread over the check interval, asks the judge about the
    posture in them, and speaks a reminder when the posture is judged wrong.
    The loop runs until `stop` clears `is_running` or the task is cancelled.
    Each pass of the loop is handed what the outside world does during it. */
module PostureMonitoring {
  import opened Wrappers
  import opened Models
  import opened Files
  import opened Schedule
  import opened Text
  import opened LlmClient
  import opened Voice
  import opened Webcam

  /** The two statements of the loop body. */
  datatype PostureStage = Checking | CleaningUp

  /** What happens during one pass: how each camera attempt of the batch
      behaves, the judge's reply, how the reminder's speech command ends,
      whether the cleanup fails, what interrupts the pass, and whether `stop`
      is called meanwhile. */
  datatype PosturePass = PosturePass(
    shots: seq<Shot>, reply: JudgeReply, speech: SpeechOutcome, cleanup: CleanupFault,
    disruption: Disruption<PostureStage>, stopCalled: bool)

  const DefaultCheckInterval := 60
  const DefaultImagesPerCheck := 3
  const ZeroDivision := "division by zero"

  /** `check_interval / images_per_check`, a true division that raises on a
      zero divisor. */
  function ImageInterval(checkInterval: int, imagesPerCheck: int): (r: Result<real, string>)
    ensures r.Failure? <==> imagesPerCheck == 0
    ensures r.Failure? ==> r.error == ZeroDivision
    ensures r.Success? ==> r.value * (imagesPerCheck as real) == checkInterval as real
  {
    if imagesPerCheck == 0 then Failure(ZeroDivision)
    else Success(checkInterval as real / imagesPerCheck as real)
  }

  /** The spoken reminder: the first issue when there is one. */
  function PostureAlert(issues: seq<string>): (message: string)
    ensures Occurs("posture", message)
    ensures issues != [] ==> Occurs(issues[0], message)
  {
    if issues != [] then
      var opening := "Please check your posture. ";
      var message := opening + issues[0];
      assert IsAt("posture", message, 18) by {
        assert message[18..25] == opening[18..25];
      }
      assert IsAt(issues[0], message, |opening|) by {
        assert message[|opening|..|opening| + |issues[0]|] == issues[0];
      }
      message
    else
      var message := "Please sit up straight and check your posture.";
      assert IsAt("posture", message, 38);
      message
  }

  /** The events of `_perform_posture_check` once the batch attempts returned
      `results`. */
  function CheckEvents(imageInterval: real, results: seq<Option<Path>>, reply: JudgeReply): seq<Event>
  {
    BatchEvents(results, imageInterval) + if Successes(results) == [] then [] else JudgeEvents(reply)
  }

  /** The events of judging a batch: the verdict, and the reminder when the
      posture is not correct. */
  function JudgeEvents(reply: JudgeReply): seq<Event>
  {
    var response := PostureAnswer(reply);
    [Judged(response.isCorrect)] + (if response.isCorrect then [] else [Alerted(PostureAlert(response.issues))])
  }

  /** Whether the check of a pass runs to its end. */
  predicate CheckCompletes(d: Disruption<PostureStage>)
  {
    d.Undisturbed? || d.at != Checking
  }

  /** The events after the check: the cleanup, or the handler of an
      interruption in it. No sleep follows a normal check. */
  function RestEvents(d: Disruption<PostureStage>, checkInterval: real): seq<Event>
    requires CheckCompletes(d)
  {
    if d.Undisturbed? then [CleanedUp] else HandlerEvents(d, checkInterval)
  }

  /** The events of one pass: check then cleanup, with an interruption
      cutting the pass short and running its handler. */
  function PassEvents(checkInterval: real, imageInterval: real, results: seq<Option<Path>>,
                      reply: JudgeReply, d: Disruption<PostureStage>): seq<Event>
  {
    if CheckCompletes(d) then CheckEvents(imageInterval, results, reply) + RestEvents(d, checkInterval)
    else HandlerEvents(d, checkInterval)
  }

  function HaltFlags(script: seq<PosturePass>): (flags: seq<bool>)
    ensures |flags| == |script|
    ensures forall k :: 0 <= k < |script| ==> flags[k] == Halts(script[k].disruption, script[k].stopCalled)
  {
    seq(|script|, k requires 0 <= k < |script| => Halts(script[k].disruption, script[k].stopCalled))
  }

  class PostureMonitor {
    const checkInterval: int
    const imagesPerCheck: int
    const imageInterval: real
    const webcam: WebcamCapture
    const client: LMStudioClient
    const voice: VoiceAlert
    const loop: EventLoop
    var isRunning: bool

    ghost predicate Valid()
      reads webcam.dir, voice
    {
      webcam.dir.Valid() && voice.Valid() && !voice.isSpeaking
    }

    /** A monitor with its own webcam capture in the default directory, its
        own voice with the default settings, and the given client or a
        default one; not running. Construction raises when
        `images_per_check` is 0, so the model requires it to be non-zero. */
    constructor (checkInterval: int, imagesPerCheck: int, llmClient: Option<LMStudioClient>, loop: EventLoop)
      requires ImageInterval(checkInterval, imagesPerCheck).Success?
      ensures Valid() && !isRunning
      ensures this.checkInterval == checkInterval && this.imagesPerCheck == imagesPerCheck
      ensures imageInterval == ImageInterval(checkInterval, imagesPerCheck).value
      ensures this.loop == loop
      ensures llmClient.Some? ==> client == llmClient.value
      ensures llmClient.None? ==> fresh(client) && client.config == DefaultConfig
      ensures fresh(webcam) && fresh(webcam.dir) && webcam.cameraIndex == 0 && fresh(voice)
      ensures voice.voice == DefaultVoice && voice.rate == DefaultRate && voice.spoken == []
    {
      this.checkInterval := checkInterval;
      this.imagesPerCheck := imagesPerCheck;
      imageInterval := checkInterval as real / imagesPerCheck as real;
      webcam := new WebcamCapture(None, 0);
      if llmClient.Some? {
        client := llmClient.value;
      } else {
        client := new LMStudioClient(None);
      }
      voice := new VoiceAlert(DefaultVoice, DefaultRate);
      this.loop := loop;
      isRunning := false;
    }

    /** `_perform_posture_check`: a batch of `images_per_check` shots spaced
        by `image_interval`; an empty batch means no judgement and no
        reminder; otherwise exactly the captured paths go to the judge, and
        the reminder is spoken exactly when the posture is judged wrong. */
    method PerformPostureCheck(pass: PosturePass)
      returns (ghost results: seq<Option<Path>>, ghost request: Option<PostureCheckRequest>)
      requires Valid()
      requires imagesPerCheck <= |pass.shots|
      modifies webcam.dir, voice, loop
      ensures Valid()
      ensures |results| == if imagesPerCheck > 0 then imagesPerCheck else 0
      ensures results == ShotResults(webcam.dir.path, pass.shots[..|results|])
      ensures webcam.dir.files == AfterShots(old(webcam.dir.files), pass.shots[..|results|])
      ensures request == if Successes(results) == [] then None else Some(PostureCheckRequest(Successes(results)))
      ensures loop.trace == old(loop.trace) + CheckEvents(imageInterval, results, pass.reply)
      ensures voice.spoken == old(voice.spoken) + Alerts(CheckEvents(imageInterval, results, pass.reply))
    {
      var imagePaths;
      imagePaths, results := webcam.CaptureBatch(imagesPerCheck, imageInterval, pass.shots, loop);
      ShotResultsUnique(webcam.dir.path, pass.shots[..|results|], results);
      ghost var batch := BatchEvents(results, imageInterval);
      assert Alerts(batch) == [] by {
        BatchIsQuiet(results, imageInterval);
      }
      if imagePaths == [] {
        request := None;
        assert CheckEvents(imageInterval, results, pass.reply) == batch;
        return;
      }
      ghost var req := Judge(imagePaths, pass.reply, pass.speech);
      request := Some(req);
      assert loop.trace == old(loop.trace) + CheckEvents(imageInterval, results, pass.reply) by {
        AppendAssoc(old(loop.trace), batch, JudgeEvents(pass.reply));
      }
      assert Alerts(CheckEvents(imageInterval, results, pass.reply)) == Alerts(JudgeEvents(pass.reply)) by {
        AlertsAppend(batch, JudgeEvents(pass.reply));
      }
    }

    /** The judgement of a batch: the request carries exactly the captured
        paths, in order, and the reminder, naming the first issue when there
        is one, is spoken exactly when the posture is not correct. */
    method Judge(imagePaths: seq<Path>, reply: JudgeReply, speech: SpeechOutcome)
      returns (ghost request: PostureCheckRequest)
      requires voice.Valid() && !voice.isSpeaking
      modifies voice, loop
      ensures voice.Valid() && !voice.isSpeaking
      ensures request == PostureCheckRequest(imagePaths)
      ensures loop.trace == old(loop.trace) + JudgeEvents(reply)
      ensures voice.spoken == old(voice.spoken) + Alerts(JudgeEvents(reply))
    {
      var req := PostureCheckRequest(imagePaths);
      request := req;
      var response := client.CheckPosture(req, reply);
      loop.Record(Judged(response.isCorrect));
      if !response.isCorrect {
        var message := PostureAlert(response.issues);
        loop.Record(Alerted(message));
        var noArrivals: seq<seq<string>> := [];
        var used := voice.Speak(message, noArrivals, _ => speech);
        assert noArrivals[..used] == [];
        AlertsAppend([Judged(false)], [Alerted(message)]);
      }
    }

    /** One pass of the loop body, with its exception handlers. */
    method RunPass(pass: PosturePass) returns (end: RoundEnd, ghost results: seq<Option<Path>>)
      requires Valid()
      requires imagesPerCheck <= |pass.shots|
      modifies webcam.dir, voice, loop
      ensures Valid()
      ensures end == EndOf(pass.disruption)
      ensures loop.trace == old(loop.trace)
        + PassEvents(checkInterval as real, imageInterval, results, pass.reply, pass.disruption)
      ensures voice.spoken == old(voice.spoken)
        + Alerts(PassEvents(checkInterval as real, imageInterval, results, pass.reply, pass.disruption))
      ensures BatchFits(webcam.dir.path, imagesPerCheck, pass, results)
      ensures webcam.dir.files == PassFiles(old(webcam.dir.files), imagesPerCheck, pass)
    {
      var d := pass.disruption;
      results := [];
      if !CheckCompletes(d) {
        end := Handle(d);
        assert Alerts(PassEvents(checkInterval as real, imageInterval, results, pass.reply, d)) == [] by {
          HandlerEffects(d, checkInterval as real);
        }
        return;
      }
      ghost var trace0 := loop.trace;
      ghost var request;
      results, request := PerformPostureCheck(pass);
      ghost var check := CheckEvents(imageInterval, results, pass.reply);
      end := FinishPass(d, pass.cleanup);
      ghost var rest := RestEvents(d, checkInterval as real);
      assert loop.trace == trace0 + (check + rest) by {
        AppendAssoc(trace0, check, rest);
      }
      assert Alerts(PassEvents(checkInterval as real, imageInterval, results, pass.reply, d)) == Alerts(check) by {
        PassAlerts(checkInterval as real, imageInterval, results, pass.reply, d);
        AlertsOfCheck(imageInterval, results, pass.reply);
      }
    }

    /** The statements after the check: the webcam cleanup, or the handler
        of an interruption that came after the check. */
    method FinishPass(d: Disruption<PostureStage>, cleanup: CleanupFault) returns (end: RoundEnd)
      requires CheckCompletes(d)
      requires webcam.dir.Valid()
      modifies webcam.dir, loop
      ensures webcam.dir.Valid()
      ensures end == EndOf(d)
      ensures loop.trace == old(loop.trace) + RestEvents(d, checkInterval as real)
      ensures webcam.dir.files == RestFiles(old(webcam.dir.files), d, cleanup)
    {
      if !d.Undisturbed? {
        end := Handle(d);
      } else {
        webcam.CleanupOldImages(DefaultKeepLast, cleanup);
        loop.Record(CleanedUp);
        end := Continued;
      }
    }

    /** The handlers: an exception is logged and followed by a sleep of the
        check interval, unless that sleep is cancelled; a cancellation breaks
        the loop. */
    method Handle(d: Disruption<PostureStage>) returns (end: RoundEnd)
      requires !d.Undisturbed?
      modifies loop
      ensures end == EndOf(d)
      ensures loop.trace == old(loop.trace) + HandlerEvents(d, checkInterval as real)
    {
      match d {
        case Raises(_, error, recoveryCancelled) =>
          loop.Record(Raised(error));
          if recoveryCancelled {
            loop.Record(Cancelled);
            end := CancelledInRecovery;
          } else {
            loop.Sleep(checkInterval as real);
            end := Continued;
          }
        case Cancels(_) =>
          loop.Record(Cancelled);
          end := Broke;
      }
    }

    /** The state after the first `|rounds|` passes of `script`, started
        from trace `trace0`, spoken list `spoken0` and listing `files0`:
        the `k`-th pass ran as `script[k]` with its batch attempts returning
        `batches[k]`, and the trace, the spoken alerts and the listing are
        what those passes leave. */
    ghost predicate Ran(trace0: seq<Event>, spoken0: seq<string>, files0: seq<FileEntry>,
                        script: seq<PosturePass>, rounds: seq<seq<Event>>, batches: seq<seq<Option<Path>>>)
      reads this, webcam.dir, voice, loop
    {
      && |rounds| <= |script|
      && (forall k :: 0 <= k < |script| ==> imagesPerCheck <= |script[k].shots|)
      && PassesMatch(checkInterval as real, imageInterval, script, rounds, batches)
      && BatchesFit(webcam.dir.path, imagesPerCheck, script, batches)
      && webcam.dir.files == FilesAfter(files0, imagesPerCheck, script, |rounds|)
      && loop.trace == trace0 + Concat(rounds)
      && voice.spoken == spoken0 + Alerts(Concat(rounds))
    }

    /** One turn of the `while` loop: the next pass of `script`, and `stop`
        when it is called during the pass. */
    method Turn(pass: PosturePass, ghost trace0: seq<Event>, ghost spoken0: seq<string>, ghost files0: seq<FileEntry>,
                ghost script: seq<PosturePass>, ghost rounds: seq<seq<Event>>, ghost batches: seq<seq<Option<Path>>>)
      returns (end: RoundEnd, ghost nextRounds: seq<seq<Event>>, ghost nextBatches: seq<seq<Option<Path>>>)
      requires Valid()
      requires |rounds| < |script| && pass == script[|rounds|]
      requires Ran(trace0, spoken0, files0, script, rounds, batches)
      modifies this, webcam.dir, voice, loop
      ensures Valid()
      ensures end == EndOf(pass.disruption)
      ensures isRunning == (old(isRunning) && !pass.stopCalled)
      ensures |nextRounds| == |rounds| + 1 && nextRounds[..|rounds|] == rounds
      ensures Ran(trace0, spoken0, files0, script, nextRounds, nextBatches)
    {
      ghost var results;
      end, results := RunPass(pass);
      BatchesFitStep(webcam.dir.path, imagesPerCheck, script, batches, results);
      ghost var events := PassEvents(checkInterval as real, imageInterval, results, pass.reply, pass.disruption);
      PassesMatchStep(checkInterval as real, imageInterval, script, rounds, batches, results);
      nextRounds := rounds + [events];
      nextBatches := batches + [results];
      AppendAssoc(trace0, Concat(rounds), events);
      AlertsAppend(Concat(rounds), events);
      AppendAssoc(spoken0, Alerts(Concat(rounds)), Alerts(events));
      if pass.stopCalled {
        Stop();
      }
    }

    /** `stop`. */
    method Stop()
      modifies this
      ensures !isRunning
    {
      isRunning := false;
    }

    /** `start`: sets `is_running` and runs passes while it stays set. The
        `k`-th pass behaves as `script[k]`; some pass halts the loop. The loop
        runs exactly up to the first halting pass: it ends only through
        `stop` or a cancellation. */
    method Start(script: seq<PosturePass>)
      returns (outcome: StartOutcome, ghost passes: nat, ghost rounds: seq<seq<Event>>,
               ghost batches: seq<seq<Option<Path>>>)
      requires Valid()
      requires true in HaltFlags(script)
      requires forall k :: 0 <= k < |script| ==> imagesPerCheck <= |script[k].shots|
      modifies this, webcam.dir, voice, loop
      ensures Valid()
      ensures passes == FirstHalt(HaltFlags(script)) + 1
      ensures isRunning == !script[passes - 1].stopCalled
      ensures outcome == if EndOf(script[passes - 1].disruption) == CancelledInRecovery
        then CancelledErrorRaised else Returned
      ensures |rounds| == passes && PassesMatch(checkInterval as real, imageInterval, script, rounds, batches)
      ensures forall k :: 0 <= k < |batches| ==> BatchFits(webcam.dir.path, imagesPerCheck, script[k], batches[k])
      ensures webcam.dir.files == FilesAfter(old(webcam.dir.files), imagesPerCheck, script, passes)
      ensures loop.trace == old(loop.trace) + Concat(rounds)
      ensures voice.spoken == old(voice.spoken) + Alerts(Concat(rounds))
    {
      ghost var flags := HaltFlags(script);
      ghost var last := FirstHalt(flags);
      isRunning := true;
      outcome := Returned;
      var i := 0;
      rounds := [];
      batches := [];
      while isRunning
        invariant 0 <= i <= last + 1
        invariant isRunning ==> i <= last
        invariant !isRunning ==> i == last + 1
        invariant Valid()
        invariant outcome == Returned
        invariant i > 0 ==> isRunning == !script[i - 1].stopCalled
        invariant i > 0 ==> EndOf(script[i - 1].disruption) == Continued
        invariant |rounds| == i && Ran(old(loop.trace), old(voice.spoken), old(webcam.dir.files), script, rounds, batches)
        decreases last + 1 - i
      {
        var end;
        end, rounds, batches := Turn(script[i], old(loop.trace), old(voice.spoken), old(webcam.dir.files), script, rounds, batches);
        i := i + 1;
        if end == Broke {
          break;
        }
        if end == CancelledInRecovery {
          outcome := CancelledErrorRaised;
          break;
        }
      }
      passes := i;
      BatchesFitAll(webcam.dir.path, imagesPerCheck, script, batches);
    }
  }

  /** The traces of the first `|batches|` passes of `script`, the `k`-th pass
      running as `script[k]` with its batch attempts returning `batches[k]`. */
  function PassTraces(checkInterval: real, imageInterval: real, script: seq<PosturePass>, batches: seq<seq<Option<Path>>>): (rounds: seq<seq<Event>>)
    requires |batches| <= |script|
    ensures |rounds| == |batches|
  {
    if batches == [] then []
    else
      var k := |batches| - 1;
      PassTraces(checkInterval, imageInterval, script, batches[..k]) + [PassEvents(checkInterval, imageInterval, batches[k], script[k].reply, script[k].disruption)]
  }

  /** `rounds` are the traces of the passes run so far. */
  ghost predicate PassesMatch(checkInterval: real, imageInterval: real, script: seq<PosturePass>,
                              rounds: seq<seq<Event>>, batches: seq<seq<Option<Path>>>)
  {
    |batches| <= |script| && rounds == PassTraces(checkInterval, imageInterval, script, batches)
  }

  lemma PassesMatchStep(checkInterval: real, imageInterval: real, script: seq<PosturePass>,
                        rounds: seq<seq<Event>>, batches: seq<seq<Option<Path>>>, results: seq<Option<Path>>)
    requires PassesMatch(checkInterval, imageInterval, script, rounds, batches) && |rounds| < |script|
    ensures var k := |rounds|;
      var events := PassEvents(checkInterval, imageInterval, results, script[k].reply, script[k].disruption);
      && PassesMatch(checkInterval, imageInterval, script, rounds + [events], batches + [results])
      && Concat(rounds + [events]) == Concat(rounds) + events
  {
    var k := |rounds|;
    var events := PassEvents(checkInterval, imageInterval, results, script[k].reply, script[k].disruption);
    assert (batches + [results])[..k] == batches;
    assert (rounds + [events])[..k] == rounds;
  }

  /** The `k`-th trace is that of the `k`-th pass of the script. */
  lemma {:induction false} PassTracesAt(checkInterval: real, imageInterval: real, script: seq<PosturePass>,
                                        batches: seq<seq<Option<Path>>>, k: nat, results: seq<Option<Path>>)
    requires |batches| <= |script| && k < |batches| && results == batches[k]
    ensures PassTraces(checkInterval, imageInterval, script, batches)[k]
      == PassEvents(checkInterval, imageInterval, results, script[k].reply, script[k].disruption)
  {
    var m := |batches| - 1;
    if k < m {
      PassTracesEarlier(checkInterval, imageInterval, script, batches, k);
      assert batches[..m][k] == results;
      PassTracesAt(checkInterval, imageInterval, script, batches[..m], k, results);
    } else {
      PassTracesLast(checkInterval, imageInterval, script, batches);
    }
  }

  /** The last trace is that of the last pass run. */
  lemma PassTracesLast(checkInterval: real, imageInterval: real, script: seq<PosturePass>, batches: seq<seq<Option<Path>>>)
    requires 0 < |batches| <= |script|
    ensures var m := |batches| - 1;
      PassTraces(checkInterval, imageInterval, script, batches)[m]
      == PassEvents(checkInterval, imageInterval, batches[m], script[m].reply, script[m].disruption)
  {
  }

  /** A trace of an earlier pass is not changed by the passes after it. */
  lemma PassTracesEarlier(checkInterval: real, imageInterval: real, script: seq<PosturePass>, batches: seq<seq<Option<Path>>>, k: nat)
    requires |batches| <= |script| && k < |batches| - 1
    ensures PassTraces(checkInterval, imageInterval, script, batches)[k]
      == PassTraces(checkInterval, imageInterval, script, batches[..|batches| - 1])[k]
  {
  }

  /** The webcam listing after the statements that follow the check: the
      cleanup, keeping the newest `DefaultKeepLast`, runs only in an
      undisturbed pass; an interruption leaves the listing alone. */
  function RestFiles(files: seq<FileEntry>, d: Disruption<PostureStage>, fault: CleanupFault): seq<FileEntry>
  {
    if d.Undisturbed? then
      WithoutNames(files, NamesOf(Deleted(Victims(files, WebcamPrefix, WebcamSuffix, DefaultKeepLast), fault)))
    else files
  }

  /** The webcam listing after one pass: the writes of the batch's
      `images_per_check` shots, then the rest of the pass; an interruption of
      the check leaves it alone. */
  function PassFiles(files: seq<FileEntry>, imagesPerCheck: int, pass: PosturePass): seq<FileEntry>
    requires imagesPerCheck <= |pass.shots|
  {
    if CheckCompletes(pass.disruption) then
      var n := if imagesPerCheck > 0 then imagesPerCheck else 0;
      RestFiles(AfterShots(files, pass.shots[..n]), pass.disruption, pass.cleanup)
    else files
  }

  /** The webcam listing after the first `n` passes of `script`, run in order. */
  function FilesAfter(files: seq<FileEntry>, imagesPerCheck: int, script: seq<PosturePass>, n: nat): seq<FileEntry>
    requires n <= |script|
    requires forall k :: 0 <= k < |script| ==> imagesPerCheck <= |script[k].shots|
  {
    if n == 0 then files
    else PassFiles(FilesAfter(files, imagesPerCheck, script, n - 1), imagesPerCheck, script[n - 1])
  }

  /** A pass that runs undisturbed to a completed cleanup leaves
      `min(DefaultKeepLast, M)` of the `M` webcam images present after its
      batch, the newest ones, and every other file. */
  lemma UndisturbedPassRetention(files: seq<FileEntry>, imagesPerCheck: int, pass: PosturePass)
    requires DistinctNames(files) && imagesPerCheck <= |pass.shots|
    requires pass.disruption.Undisturbed? && pass.cleanup == NoFault
    ensures var batch := AfterShots(files, pass.shots[..if imagesPerCheck > 0 then imagesPerCheck else 0]);
      var after := PassFiles(files, imagesPerCheck, pass);
      var m := |Glob(batch, WebcamPrefix, WebcamSuffix)|;
      && |Glob(after, WebcamPrefix, WebcamSuffix)| == (if DefaultKeepLast < m then DefaultKeepLast else m)
      && (forall a, v ::
            a in Glob(after, WebcamPrefix, WebcamSuffix) && v in Victims(batch, WebcamPrefix, WebcamSuffix, DefaultKeepLast)
            ==> a.mtime >= v.mtime)
      && (forall e :: e in batch && !MatchesPattern(e.name, WebcamPrefix, WebcamSuffix) ==> e in after)
  {
    var n := if imagesPerCheck > 0 then imagesPerCheck else 0;
    var batch := AfterShots(files, pass.shots[..n]);
    AfterShotsDistinct(files, pass.shots[..n]);
    WebcamRetention(batch, DefaultKeepLast);
  }

  /** Passes keep the names of the listing distinct, so that
      `UndisturbedPassRetention` applies to every pass of a run. */
  lemma {:induction false} FilesAfterDistinct(files: seq<FileEntry>, imagesPerCheck: int, script: seq<PosturePass>, n: nat)
    requires DistinctNames(files) && n <= |script|
    requires forall k :: 0 <= k < |script| ==> imagesPerCheck <= |script[k].shots|
    ensures DistinctNames(FilesAfter(files, imagesPerCheck, script, n))
  {
    if n > 0 {
      FilesAfterDistinct(files, imagesPerCheck, script, n - 1);
      var before := FilesAfter(files, imagesPerCheck, script, n - 1);
      var pass := script[n - 1];
      var shots := pass.shots[..if imagesPerCheck > 0 then imagesPerCheck else 0];
      AfterShotsDistinct(before, shots);
      var batch := AfterShots(before, shots);
      WithoutNamesDistinct(batch, NamesOf(Deleted(Victims(batch, WebcamPrefix, WebcamSuffix, DefaultKeepLast), pass.cleanup)));
    }
  }

  /** What the batch attempts of `pass` returned: nothing when the check did
      not run; otherwise the outcomes of its first `images_per_check` shots,
      in order. */
  ghost predicate BatchFits(dirPath: string, imagesPerCheck: int, pass: PosturePass, results: seq<Option<Path>>)
  {
    if CheckCompletes(pass.disruption) then
      var n := if imagesPerCheck > 0 then imagesPerCheck else 0;
      n <= |pass.shots| && results == ShotResults(dirPath, pass.shots[..n])
    else results == []
  }

  /** Each of `batches` fits the pass of `script` at its position. */
  ghost predicate BatchesFit(dirPath: string, imagesPerCheck: int, script: seq<PosturePass>, batches: seq<seq<Option<Path>>>)
    decreases |batches|
  {
    && |batches| <= |script|
    && (batches != [] ==>
          var m := |batches| - 1;
          BatchesFit(dirPath, imagesPerCheck, script, batches[..m]) && BatchFits(dirPath, imagesPerCheck, script[m], batches[m]))
  }

  lemma BatchesFitStep(dirPath: string, imagesPerCheck: int, script: seq<PosturePass>,
                       batches: seq<seq<Option<Path>>>, results: seq<Option<Path>>)
    requires BatchesFit(dirPath, imagesPerCheck, script, batches) && |batches| < |script|
    requires BatchFits(dirPath, imagesPerCheck, script[|batches|], results)
    ensures BatchesFit(dirPath, imagesPerCheck, script, batches + [results])
  {
    assert (batches + [results])[..|batches|] == batches;
  }

  /** The `k`-th batch fits the `k`-th pass of the script. */
  lemma {:induction false} BatchesFitAt(dirPath: string, imagesPerCheck: int, script: seq<PosturePass>,
                                        batches: seq<seq<Option<Path>>>, k: nat)
    requires BatchesFit(dirPath, imagesPerCheck, script, batches) && k < |batches|
    ensures k < |script| && BatchFits(dirPath, imagesPerCheck, script[k], batches[k])
  {
    var m := |batches| - 1;
    if k < m {
      BatchesFitAt(dirPath, imagesPerCheck, script, batches[..m], k);
      assert batches[..m][k] == batches[k];
    }
  }

  /** Every batch fits the pass of the script at its position. */
  lemma BatchesFitAll(dirPath: string, imagesPerCheck: int, script: seq<PosturePass>, batches: seq<seq<Option<Path>>>)
    requires BatchesFit(dirPath, imagesPerCheck, script, batches)
    ensures forall k :: 0 <= k < |batches| ==> BatchFits(dirPath, imagesPerCheck, script[k], batches[k])
  {
    forall k | 0 <= k < |batches|
      ensures BatchFits(dirPath, imagesPerCheck, script[k], batches[k])
    {
      BatchesFitAt(dirPath, imagesPerCheck, script, batches, k);
    }
  }

  /** A batch makes no judge call and speaks nothing. */
  lemma {:induction false} BatchIsQuiet(results: seq<Option<Path>>, interval: real)
    ensures Alerts(BatchEvents(results, interval)) == []
    ensures JudgeCalls(BatchEvents(results, interval)) == 0
  {
    if results != [] {
      var n := |results|;
      BatchIsQuiet(results[..n - 1], interval);
      var pause: seq<Event> := if n > 1 then [Slept(interval)] else [];
      var tail := pause + [Captured(results[n - 1])];
      assert BatchEvents(results, interval) == BatchEvents(results[..n - 1], interval) + tail;
      AlertsAppend(BatchEvents(results[..n - 1], interval), tail);
      JudgeCallsAppend(BatchEvents(results[..n - 1], interval), tail);
      AlertsAppend(pause, [Captured(results[n - 1])]);
      JudgeCallsAppend(pause, [Captured(results[n - 1])]);
    }
  }

  lemma AlertsOfCheck(imageInterval: real, results: seq<Option<Path>>, reply: JudgeReply)
    ensures Alerts(CheckEvents(imageInterval, results, reply))
      == if Successes(results) != [] && !PostureAnswer(reply).isCorrect
         then [PostureAlert(PostureAnswer(reply).issues)] else []
    ensures JudgeCalls(CheckEvents(imageInterval, results, reply)) == if Successes(results) != [] then 1 else 0
  {
    var batch := BatchEvents(results, imageInterval);
    var judged := if Successes(results) == [] then [] else JudgeEvents(reply);
    BatchIsQuiet(results, imageInterval);
    AlertsAppend(batch, judged);
    JudgeCallsAppend(batch, judged);
    if Successes(results) != [] {
      AlertsOfJudge(reply);
    }
  }

  /** Judging makes one judge call and speaks the reminder exactly when the
      posture is not correct. */
  lemma AlertsOfJudge(reply: JudgeReply)
    ensures Alerts(JudgeEvents(reply))
      == if PostureAnswer(reply).isCorrect then [] else [PostureAlert(PostureAnswer(reply).issues)]
    ensures JudgeCalls(JudgeEvents(reply)) == 1
  {
    var response := PostureAnswer(reply);
    var tail := if response.isCorrect then [] else [Alerted(PostureAlert(response.issues))];
    AlertsAppend([Judged(response.isCorrect)], tail);
    JudgeCallsAppend([Judged(response.isCorrect)], tail);
  }

  lemma PassAlerts(checkInterval: real, imageInterval: real, results: seq<Option<Path>>,
                   reply: JudgeReply, d: Disruption<PostureStage>)
    ensures Alerts(PassEvents(checkInterval, imageInterval, results, reply, d))
      == if CheckCompletes(d) then Alerts(CheckEvents(imageInterval, results, reply)) else []
    ensures JudgeCalls(PassEvents(checkInterval, imageInterval, results, reply, d))
      == if CheckCompletes(d) then JudgeCalls(CheckEvents(imageInterval, results, reply)) else 0
  {
    if CheckCompletes(d) {
      var check := CheckEvents(imageInterval, results, reply);
      AlertsAppend(check, RestEvents(d, checkInterval));
      JudgeCallsAppend(check, RestEvents(d, checkInterval));
      if !d.Undisturbed? {
        HandlerEffects(d, checkInterval);
      }
    } else {
      HandlerEffects(d, checkInterval);
    }
  }

  /** An empty batch skips the check: no judge call and no reminder. A
      completed check with images calls the judge exactly once. */
  lemma {:induction false} JudgeOnlyWithImages(checkInterval: real, imageInterval: real,
                                              results: seq<Option<Path>>, reply: JudgeReply,
                                              d: Disruption<PostureStage>)
    ensures JudgeCalls(PassEvents(checkInterval, imageInterval, results, reply, d))
      == if CheckCompletes(d) && Successes(results) != [] then 1 else 0
    ensures Successes(results) == [] ==> Alerts(PassEvents(checkInterval, imageInterval, results, reply, d)) == []
  {
    PassAlerts(checkInterval, imageInterval, results, reply, d);
    AlertsOfCheck(imageInterval, results, reply);
  }

  /** The reminder is spoken in a pass exactly when its check completes with
      images whose posture the judge reads as wrong; it names the first
      issue when there is one. */
  lemma {:induction false} AlertIffIncorrect(checkInterval: real, imageInterval: real,
                                            results: seq<Option<Path>>, reply: JudgeReply,
                                            d: Disruption<PostureStage>)
    ensures Alerts(PassEvents(checkInterval, imageInterval, results, reply, d))
      == if CheckCompletes(d) && Successes(results) != [] && !PostureAnswer(reply).isCorrect
         then [PostureAlert(PostureAnswer(reply).issues)] else []
  {
    PassAlerts(checkInterval, imageInterval, results, reply, d);
    AlertsOfCheck(imageInterval, results, reply);
  }

  /** The judge fails open, so a failed exchange never leads to a reminder,
      and the error text is never spoken. */
  lemma {:induction false} JudgeFailureNeverAlerts(checkInterval: real, imageInterval: real,
                                                  results: seq<Option<Path>>, error: string,
                                                  d: Disruption<PostureStage>)
    ensures Alerts(PassEvents(checkInterval, imageInterval, results, Failed(error), d)) == []
  {
    AlertIffIncorrect(checkInterval, imageInterval, results, Failed(error), d);
  }

  /** An undisturbed pass waits only between the batch's shots: `n - 1` sleeps
      of the image interval for `n` attempts, and none of the check interval
      (unless the two coincide). */
  lemma {:induction false} UndisturbedPassSleeps(checkInterval: real, imageInterval: real,
                                                results: seq<Option<Path>>, reply: JudgeReply)
    ensures var sleeps := Sleeps(PassEvents(checkInterval, imageInterval, results, reply, Undisturbed));
      && |sleeps| == (if |results| > 0 then |results| - 1 else 0)
      && forall s :: s in sleeps ==> s == imageInterval
  {
    var batch := BatchEvents(results, imageInterval);
    var check := CheckEvents(imageInterval, results, reply);
    var judged := check[|batch|..];
    assert check == batch + judged;
    assert Sleeps(judged) == [] by {
      if Successes(results) != [] {
        var response := PostureAnswer(reply);
        var tail := if response.isCorrect then [] else [Alerted(PostureAlert(response.issues))];
        assert judged == [Judged(response.isCorrect)] + tail;
        SleepsAppend([Judged(response.isCorrect)], tail);
      }
    }
    SleepsAppend(batch, judged);
    SleepsAppend(check, [CleanedUp]);
    BatchSleeps(results, imageInterval);
  }

  /** An ordinary exception is contained: the pass ends with the error and a
      sleep of the check interval, and the loop goes on. */
  lemma ExceptionContained(checkInterval: real, imageInterval: real, results: seq<Option<Path>>,
                           reply: JudgeReply, at: PostureStage, error: string)
    ensures var events := PassEvents(checkInterval, imageInterval, results, reply, Raises(at, error, false));
      && EndOf(Raises(at, error, false)) == Continued
      && |events| >= 2
      && events[|events| - 2..] == [Raised(error), Slept(checkInterval)]
  {
    var d := Raises(at, error, false);
    var handler := HandlerEvents(d, checkInterval);
    assert handler == [Raised(error), Slept(checkInterval)];
    var events := PassEvents(checkInterval, imageInterval, results, reply, d);
    if CheckCompletes(d) {
      assert events == CheckEvents(imageInterval, results, reply) + handler;
    }
    assert events[|events| - 2..] == handler;
  }

  /** A batch of three shots over a 60 second check interval waits 20
      seconds between shots. */
  lemma DefaultImageInterval()
    ensures ImageInterval(DefaultCheckInterval, DefaultImagesPerCheck) == Success(20.0)
  {
  }
}
