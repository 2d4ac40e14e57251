/** Webcam capture for the posture monitor (angeleyes/posture/webcam.py).
    The camera is not driven: each capture attempt is handed how the device
    behaves, and writing a frame to disk always succeeds. */
module Webcam {
  import opened Wrappers
  import opened Text
  import opened Models
  import opened Files
  import opened Timestamps
  import opened Schedule

  /** How the camera behaves for one attempt: opening it raises; it opens
      but reports not opened; or it opens and each read yields a frame or not
      (reads past the end of `frames` yield none). */
  datatype CameraOutcome = OpenRaises(error: string) | NotOpened | Opened(frames: seq<bool>)

  /** One capture attempt: the moment it is taken, the time stamp the saved
      file gets, and the camera's behaviour. */
  datatype Shot = Shot(at: DateTime, mtime: int, camera: CameraOutcome)

  const WebcamPrefix := "webcam_"
  const WebcamSuffix := ".jpg"
  const DefaultSaveDir := "/tmp"
  const DefaultKeepLast := 30
  /** Frames read and discarded while the camera settles. */
  const WarmUpReads := 5

  function FrameAt(frames: seq<bool>, k: nat): bool
  {
    k < |frames| && frames[k]
  }

  /** `webcam_` + the first 19 characters of `%Y%m%d_%H%M%S_%f` + `.jpg`. */
  function WebcamName(t: DateTime): (name: string)
    ensures MatchesPattern(name, WebcamPrefix, WebcamSuffix)
  {
    var name := WebcamPrefix + CompactMicro(t)[..19] + WebcamSuffix;
    assert name[..|WebcamPrefix|] == WebcamPrefix;
    assert name[|name| - |WebcamSuffix|..] == WebcamSuffix;
    name
  }

  /** Although the cut is meant to drop the microseconds, it keeps three of
      their six digits: the name carries the milliseconds. */
  lemma WebcamNameKeepsMilliseconds(t: DateTime)
    ensures WebcamName(t) == WebcamPrefix + Compact(t) + "_" + Padded(t.microsecond / 1000, 3) + WebcamSuffix
    ensures |WebcamName(t)| == |WebcamPrefix| + 19 + |WebcamSuffix|
  {
    MicroCutKeepsMilliseconds(t);
  }

  /** Whether an attempt saves an image: the camera opened and the read after
      the warm-up reads yielded a frame. */
  predicate ShotSucceeds(camera: CameraOutcome)
  {
    camera.Opened? && FrameAt(camera.frames, WarmUpReads)
  }

  /** What an attempt returns: the path of the saved image, or nothing. */
  function ShotResult(dirPath: string, shot: Shot): (path: Option<Path>)
    ensures path.Some? <==> ShotSucceeds(shot.camera)
    ensures path.Some? ==> path.value == JoinPath(dirPath, WebcamName(shot.at))
  {
    if ShotSucceeds(shot.camera) then Some(JoinPath(dirPath, WebcamName(shot.at))) else None
  }

  /** What the attempts of a batch return, one result per shot, in order. */
  function ShotResults(dirPath: string, shots: seq<Shot>): (results: seq<Option<Path>>)
    ensures |results| == |shots|
  {
    if shots == [] then []
    else ShotResults(dirPath, shots[..|shots| - 1]) + [ShotResult(dirPath, shots[|shots| - 1])]
  }

  /** The captured image paths, in attempt order. */
  function Successes(results: seq<Option<Path>>): (images: seq<Path>)
    ensures |images| <= |results|
  {
    if results == [] then []
    else (Successes(results[..|results| - 1])
      + (if results[|results| - 1].Some? then [results[|results| - 1].value] else []))
  }

  /** The events of a batch: an attempt per result, with a sleep of
      `interval` before each attempt but the first. */
  function BatchEvents(results: seq<Option<Path>>, interval: real): seq<Event>
  {
    if results == [] then []
    else (BatchEvents(results[..|results| - 1], interval)
      + (if |results| > 1 then [Slept(interval)] else []) + [Captured(results[|results| - 1])])
  }

  /** The listing after the successful shots of a batch wrote their files. */
  function AfterShots(files: seq<FileEntry>, shots: seq<Shot>): seq<FileEntry>
  {
    if shots == [] then files
    else
      var last := shots[|shots| - 1];
      var before := AfterShots(files, shots[..|shots| - 1]);
      if ShotSucceeds(last.camera) then Written(before, WebcamName(last.at), last.mtime) else before
  }

  /** An open camera handle (`cv2.VideoCapture`). */
  class VideoCapture {
    const isOpened: bool
    const frames: seq<bool>
    /** Reads made so far. */
    var readCount: nat
    var released: bool

    constructor (isOpened: bool, frames: seq<bool>)
      ensures this.isOpened == isOpened && this.frames == frames && readCount == 0 && !released
    {
      this.isOpened := isOpened;
      this.frames := frames;
      readCount := 0;
      released := false;
    }

    /** `read()`: whether a frame came back. */
    method Read() returns (ok: bool)
      modifies this`readCount
      ensures readCount == old(readCount) + 1
      ensures ok == FrameAt(frames, old(readCount))
    {
      ok := FrameAt(frames, readCount);
      readCount := readCount + 1;
    }

    method Release()
      modifies this`released
      ensures released
    {
      released := true;
    }
  }

  class WebcamCapture {
    const dir: Directory
    const cameraIndex: int

    /** `save_dir or Path("/tmp")`: a given directory is always used, since a
        path is never false; without one the default directory is taken. */
    constructor (saveDir: Option<Directory>, cameraIndex: int)
      requires saveDir.Some? ==> saveDir.value.Valid()
      ensures saveDir.Some? ==> dir == saveDir.value
      ensures saveDir.None? ==> fresh(dir) && dir.path == DefaultSaveDir && dir.files == []
      ensures dir.Valid() && this.cameraIndex == cameraIndex
    {
      if saveDir.Some? {
        dir := saveDir.value;
      } else {
        dir := new Directory(DefaultSaveDir);
      }
      this.cameraIndex := cameraIndex;
    }

    /** `_capture_and_save`: five reads let the camera settle and are
        discarded; the sixth frame, if any, is written as `name`. */
    method CaptureAndSave(cap: VideoCapture, name: string, mtime: int) returns (success: bool)
      requires dir.Valid()
      modifies cap, dir
      ensures dir.Valid()
      ensures cap.readCount == old(cap.readCount) + WarmUpReads + 1
      ensures success == FrameAt(cap.frames, old(cap.readCount) + WarmUpReads)
      ensures dir.files == if success then Written(old(dir.files), name, mtime) else old(dir.files)
      ensures cap.released == old(cap.released)
    {
      for k := 0 to WarmUpReads
        invariant cap.readCount == old(cap.readCount) + k
        invariant dir.files == old(dir.files) && cap.released == old(cap.released)
      {
        var discarded := cap.Read();
      }
      var ret := cap.Read();
      if ret {
        dir.Write(name, mtime);
        success := true;
      } else {
        success := false;
      }
    }

    /** `_capture_sync`: opens the camera, saves one frame and always releases
        a handle it opened; a camera that does not open, a missing frame and
        an exception all give no path. The handle, if one was created, is
        returned for the record. */
    method CaptureSync(name: string, mtime: int, camera: CameraOutcome)
      returns (path: Option<Path>, ghost cap: VideoCapture?)
      requires dir.Valid()
      modifies dir
      ensures dir.Valid()
      ensures path.Some? <==> ShotSucceeds(camera)
      ensures path.Some? ==> path.value == JoinPath(dir.path, name)
      ensures dir.files == if ShotSucceeds(camera) then Written(old(dir.files), name, mtime) else old(dir.files)
      ensures cap == null <==> camera.OpenRaises?
      ensures cap != null ==> fresh(cap) && cap.released
      ensures cap != null && camera.Opened? ==> cap.readCount == WarmUpReads + 1
    {
      match camera {
        case OpenRaises(_) =>
          cap := null;
          path := None;
        case NotOpened =>
          var handle := new VideoCapture(false, []);
          path := None;
          handle.Release();
          cap := handle;
        case Opened(frames) =>
          var handle := new VideoCapture(true, frames);
          var success := CaptureAndSave(handle, name, mtime);
          path := if success then Some(JoinPath(dir.path, name)) else None;
          handle.Release();
          cap := handle;
      }
    }

    /** `capture`: one attempt, named after its moment. */
    method Capture(shot: Shot) returns (path: Option<Path>)
      requires dir.Valid()
      modifies dir
      ensures dir.Valid()
      ensures path == ShotResult(dir.path, shot)
      ensures dir.files == AfterShots(old(dir.files), [shot])
    {
      var outputName := WebcamName(shot.at);
      ghost var cap;
      path, cap := CaptureSync(outputName, shot.mtime, shot.camera);
      assert [shot][..0] == [];
    }

    /** One pass of the batch loop: the pause before every attempt but the
        first, the attempt on `shots[i]`, and keeping its path if it
        succeeded. `results` are the outcomes of the attempts so far, whose
        events follow `trace0` on the loop and whose files were written over
        `files0`. */
    method Attempt(shots: seq<Shot>, i: nat, interval: real, loop: EventLoop, images: seq<Path>,
                   ghost results: seq<Option<Path>>, ghost trace0: seq<Event>, ghost files0: seq<FileEntry>)
      returns (nextImages: seq<Path>, ghost nextResults: seq<Option<Path>>)
      requires dir.Valid()
      requires i == |results| < |shots|
      requires images == Successes(results)
      requires loop.trace == trace0 + BatchEvents(results, interval)
      requires dir.files == AfterShots(files0, shots[..i])
      modifies dir, loop
      ensures dir.Valid()
      ensures nextResults == results + [ShotResult(dir.path, shots[i])]
      ensures nextImages == Successes(nextResults)
      ensures loop.trace == trace0 + BatchEvents(nextResults, interval)
      ensures dir.files == AfterShots(files0, shots[..i + 1])
    {
      ghost var pause: seq<Event> := if i > 0 then [Slept(interval)] else [];
      if i > 0 {
        loop.Sleep(interval);
      }
      var imagePath := Capture(shots[i]);
      loop.Record(Captured(imagePath));
      nextImages := images + (if imagePath.Some? then [imagePath.value] else []);
      nextResults := results + [imagePath];
      assert loop.trace == trace0 + BatchEvents(nextResults, interval) by {
        BatchStep(results, imagePath, interval);
        assert loop.trace == trace0 + BatchEvents(results, interval) + pause + [Captured(imagePath)];
        AppendAssoc(trace0, BatchEvents(results, interval), pause);
        AppendAssoc(trace0, BatchEvents(results, interval) + pause, [Captured(imagePath)]);
      }
      assert nextImages == Successes(nextResults) by {
        BatchStep(results, imagePath, interval);
      }
      assert dir.files == AfterShots(files0, shots[..i + 1]) by {
        AfterShotsStep(files0, shots, i);
      }
    }

    /** `capture_batch`: `count` attempts, sleeping `interval` before each but
        the first, keeping the paths of the successful ones in order. The
        `k`-th attempt behaves as `shots[k]`; `results` records each
        attempt's outcome. */
    method CaptureBatch(count: int, interval: real, shots: seq<Shot>, loop: EventLoop)
      returns (images: seq<Path>, ghost results: seq<Option<Path>>)
      requires dir.Valid()
      requires count <= |shots|
      modifies dir, loop
      ensures dir.Valid()
      ensures |results| == if count > 0 then count else 0
      ensures forall k :: 0 <= k < |results| ==> results[k] == ShotResult(dir.path, shots[k])
      ensures images == Successes(results)
      ensures loop.trace == old(loop.trace) + BatchEvents(results, interval)
      ensures dir.files == AfterShots(old(dir.files), shots[..|results|])
    {
      images := [];
      results := [];
      var i := 0;
      while i < count
        invariant 0 <= i <= (if count > 0 then count else 0) && |results| == i
        invariant dir.Valid()
        invariant forall k :: 0 <= k < i ==> results[k] == ShotResult(dir.path, shots[k])
        invariant images == Successes(results)
        invariant loop.trace == old(loop.trace) + BatchEvents(results, interval)
        invariant dir.files == AfterShots(old(dir.files), shots[..i])
      {
        images, results := Attempt(shots, i, interval, loop, images, results, old(loop.trace), old(dir.files));
        i := i + 1;
      }
    }

    /** `cleanup_old_images`: keeps the `keepLast` newest webcam images and
        deletes the rest; an error ends the cleanup silently. */
    method CleanupOldImages(keepLast: int, fault: CleanupFault)
      requires dir.Valid()
      modifies dir
      ensures dir.Valid()
      ensures dir.files == WithoutNames(old(dir.files),
        NamesOf(Deleted(Victims(old(dir.files), WebcamPrefix, WebcamSuffix, keepLast), fault)))
    {
      CleanupOld(dir, WebcamPrefix, WebcamSuffix, keepLast, fault);
    }
  }

  lemma BatchStep(results: seq<Option<Path>>, p: Option<Path>, interval: real)
    ensures BatchEvents(results + [p], interval)
      == BatchEvents(results, interval) + (if |results| > 0 then [Slept(interval)] else []) + [Captured(p)]
    ensures Successes(results + [p]) == Successes(results) + (if p.Some? then [p.value] else [])
  {
    assert (results + [p])[..|results|] == results;
  }

  /** The writes of a batch keep the names of a listing distinct. */
  lemma {:induction false} AfterShotsDistinct(files: seq<FileEntry>, shots: seq<Shot>)
    requires DistinctNames(files)
    ensures DistinctNames(AfterShots(files, shots))
  {
    if shots != [] {
      var last := shots[|shots| - 1];
      AfterShotsDistinct(files, shots[..|shots| - 1]);
      WrittenDistinct(AfterShots(files, shots[..|shots| - 1]), WebcamName(last.at), last.mtime);
    }
  }

  lemma AfterShotsStep(files: seq<FileEntry>, shots: seq<Shot>, i: nat)
    requires i < |shots|
    ensures AfterShots(files, shots[..i + 1]) == AfterShots(AfterShots(files, shots[..i]), [shots[i]])
  {
    assert shots[..i + 1][..i] == shots[..i];
    assert [shots[i]][..0] == [];
  }

  /** A batch makes one attempt per result, in order. */
  lemma {:induction false} BatchAttempts(results: seq<Option<Path>>, interval: real)
    ensures Captures(BatchEvents(results, interval)) == results
  {
    if results != [] {
      var n := |results|;
      BatchAttempts(results[..n - 1], interval);
      var tail := (if n > 1 then [Slept(interval)] else []) + [Captured(results[n - 1])];
      assert BatchEvents(results, interval) == BatchEvents(results[..n - 1], interval) + tail;
      CapturesAppend(BatchEvents(results[..n - 1], interval), tail);
      assert Captures(tail) == [results[n - 1]] by {
        if n > 1 {
          assert tail[1..] == [Captured(results[n - 1])];
        }
      }
      assert results == results[..n - 1] + [results[n - 1]];
    }
  }

  /** A batch of `n` attempts sleeps `interval` exactly `n - 1` times, or not
      at all when there are no attempts. */
  lemma {:induction false} BatchSleeps(results: seq<Option<Path>>, interval: real)
    ensures |Sleeps(BatchEvents(results, interval))| == if |results| > 0 then |results| - 1 else 0
    ensures forall d :: d in Sleeps(BatchEvents(results, interval)) ==> d == interval
  {
    if results != [] {
      var n := |results|;
      BatchSleeps(results[..n - 1], interval);
      var tail := (if n > 1 then [Slept(interval)] else []) + [Captured(results[n - 1])];
      assert BatchEvents(results, interval) == BatchEvents(results[..n - 1], interval) + tail;
      SleepsAppend(BatchEvents(results[..n - 1], interval), tail);
      assert Sleeps(tail) == if n > 1 then [interval] else [] by {
        if n > 1 {
          assert tail[1..] == [Captured(results[n - 1])];
        }
      }
    }
  }

  /** The images of a batch are exactly its successful attempts: a path is
      kept when some attempt returned it, and only then. */
  lemma {:induction false} SuccessesAreTheSomes(results: seq<Option<Path>>)
    ensures forall p :: p in Successes(results) <==> Some(p) in results
  {
    if results != [] {
      var n := |results|;
      var init := results[..n - 1];
      SuccessesAreTheSomes(init);
      assert results == init + [results[n - 1]];
    }
  }

  /** The `k`-th result of a batch is the outcome of its `k`-th shot. */
  lemma {:induction false} ShotResultsAt(dirPath: string, shots: seq<Shot>, k: nat)
    requires k < |shots|
    ensures ShotResults(dirPath, shots)[k] == ShotResult(dirPath, shots[k])
  {
    var m := |shots| - 1;
    if k < m {
      ShotResultsAt(dirPath, shots[..m], k);
    }
  }

  /** Results that agree with the shots position by position are the
      batch's results. */
  lemma {:induction false} ShotResultsUnique(dirPath: string, shots: seq<Shot>, results: seq<Option<Path>>)
    requires |results| == |shots|
    requires forall k :: 0 <= k < |results| ==> results[k] == ShotResult(dirPath, shots[k])
    ensures results == ShotResults(dirPath, shots)
  {
    if shots != [] {
      var m := |shots| - 1;
      ShotResultsUnique(dirPath, shots[..m], results[..m]);
      assert results == results[..m] + [results[m]];
    }
  }

  /** A completed cleanup leaves `min(keepLast, M)` of the `M` webcam images,
      the newest ones, and every other file of the directory. */
  lemma WebcamRetention(files: seq<FileEntry>, keepLast: int)
    requires DistinctNames(files) && keepLast >= 0
    ensures var victims := Victims(files, WebcamPrefix, WebcamSuffix, keepLast);
      var after := WithoutNames(files, NamesOf(victims));
      var m := |Glob(files, WebcamPrefix, WebcamSuffix)|;
      && |Glob(after, WebcamPrefix, WebcamSuffix)| == (if keepLast < m then keepLast else m)
      && (forall a, d :: a in Glob(after, WebcamPrefix, WebcamSuffix) && d in victims ==> a.mtime >= d.mtime)
      && (forall e :: e in files && !MatchesPattern(e.name, WebcamPrefix, WebcamSuffix) ==> e in after)
      && (m <= keepLast ==> after == files)
  {
    CleanupLeavesKeepLast(files, WebcamPrefix, WebcamSuffix, keepLast);
    CleanupKeepsNewest(files, WebcamPrefix, WebcamSuffix, keepLast);
    CleanupRemovesOnlyVictims(files, WebcamPrefix, WebcamSuffix, keepLast);
    if |Glob(files, WebcamPrefix, WebcamSuffix)| <= keepLast {
      CleanupBelowLimitDeletesNothing(files, WebcamPrefix, WebcamSuffix, keepLast);
    }
  }
}
