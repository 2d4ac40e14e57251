/** Screen capture for the focus monitor (angeleyes/focus/screenshot.py). The
    `screencapture` subprocess is not run: each capture is handed what the
    process did. */
module Screenshot {
  import opened Wrappers
  import opened Models
  import opened Files
  import opened Timestamps

  /** What the `screencapture -x -t jpg <path>` process did: it could not be
      started, or it exited with a return code, having written the output
      file or not. */
  datatype ProcessOutcome = SpawnFails(error: string) | Exits(returnCode: int, wroteFile: bool)

  const ScreenshotPrefix := "screenshot_"
  const ScreenshotSuffix := ".jpg"
  const DefaultSaveDir := "/tmp"
  const DefaultKeepLast := 10

  /** `screenshot_%Y%m%d_%H%M%S.jpg`. */
  function ScreenshotName(t: DateTime): (name: string)
    ensures |name| == |ScreenshotPrefix| + 15 + |ScreenshotSuffix|
    ensures MatchesPattern(name, ScreenshotPrefix, ScreenshotSuffix)
  {
    var name := ScreenshotPrefix + Compact(t) + ScreenshotSuffix;
    assert name[..|ScreenshotPrefix|] == ScreenshotPrefix;
    assert name[|name| - |ScreenshotSuffix|..] == ScreenshotSuffix;
    name
  }

  /** The name carries the time to the second: two captures within the same
      second write the same file. */
  lemma SameSecondSameName(t: DateTime, u: DateTime)
    requires t.year == u.year && t.month == u.month && t.day == u.day
    requires t.hour == u.hour && t.minute == u.minute && t.second == u.second
    ensures ScreenshotName(t) == ScreenshotName(u)
  {
  }

  /** What `capture` returns for the time `t` in a directory at `dirPath`
      listing `files` before the process ran: the path exactly when the
      process exited with 0 and the file is there afterwards, which it also is
      when a file of that name was already present. */
  function CaptureResult(dirPath: string, files: seq<FileEntry>, t: DateTime, process: ProcessOutcome)
    : (path: Option<Path>)
    ensures path.Some? <==>
      && process.Exits? && process.returnCode == 0
      && (process.wroteFile || ScreenshotName(t) in NamesOf(files))
    ensures path.Some? ==> path.value == JoinPath(dirPath, ScreenshotName(t))
  {
    if process.Exits? && process.returnCode == 0 && (process.wroteFile || ScreenshotName(t) in NamesOf(files))
    then Some(JoinPath(dirPath, ScreenshotName(t)))
    else None
  }

  /** The listing after the process ran: a file it wrote is in place. */
  function CaptureFiles(files: seq<FileEntry>, t: DateTime, mtime: int, process: ProcessOutcome): seq<FileEntry>
  {
    if process.Exits? && process.wroteFile then Written(files, ScreenshotName(t), mtime) else files
  }

  class ScreenshotCapture {
    const dir: Directory

    /** `save_dir or Path("/tmp")`: a given directory is always used, since a
        path is never false; without one the default directory is taken. */
    constructor (saveDir: Option<Directory>)
      requires saveDir.Some? ==> saveDir.value.Valid()
      ensures saveDir.Some? ==> dir == saveDir.value
      ensures saveDir.None? ==> fresh(dir) && dir.path == DefaultSaveDir && dir.files == []
      ensures dir.Valid()
    {
      if saveDir.Some? {
        dir := saveDir.value;
      } else {
        dir := new Directory(DefaultSaveDir);
      }
    }

    /** `capture`: runs `screencapture` for the time `t` and returns the path
        only when the process exited with 0 and the file is present afterwards;
        every failure gives no path, nothing is raised. A file the process
        writes is dated `mtime`. */
    method Capture(t: DateTime, mtime: int, process: ProcessOutcome) returns (path: Option<Path>)
      requires dir.Valid()
      modifies dir
      ensures dir.Valid()
      ensures dir.files == CaptureFiles(old(dir.files), t, mtime, process)
      ensures path == CaptureResult(dir.path, old(dir.files), t, process)
      ensures path.Some? ==> dir.Exists(ScreenshotName(t))
    {
      var name := ScreenshotName(t);
      var outputPath := JoinPath(dir.path, name);
      match process {
        case SpawnFails(_) =>
          path := None;
        case Exits(returnCode, wroteFile) =>
          if wroteFile {
            dir.Write(name, mtime);
          }
          if returnCode != 0 {
            path := None;
          } else if dir.Exists(name) {
            path := Some(outputPath);
          } else {
            path := None;
          }
          WrittenHolds(old(dir.files), name, mtime);
      }
    }

    /** `cleanup_old_screenshots`: keeps the `keepLast` newest screenshots and
        deletes the rest; an error ends the cleanup silently. */
    method CleanupOldScreenshots(keepLast: int, fault: CleanupFault)
      requires dir.Valid()
      modifies dir
      ensures dir.Valid()
      ensures dir.files == WithoutNames(old(dir.files),
        NamesOf(Deleted(Victims(old(dir.files), ScreenshotPrefix, ScreenshotSuffix, keepLast), fault)))
    {
      CleanupOld(dir, ScreenshotPrefix, ScreenshotSuffix, keepLast, fault);
    }
  }

  /** A completed cleanup leaves `min(keepLast, M)` of the `M` screenshots,
      the newest ones, and every other file of the directory. */
  lemma ScreenshotRetention(files: seq<FileEntry>, keepLast: int)
    requires DistinctNames(files) && keepLast >= 0
    ensures var victims := Victims(files, ScreenshotPrefix, ScreenshotSuffix, keepLast);
      var after := WithoutNames(files, NamesOf(victims));
      var m := |Glob(files, ScreenshotPrefix, ScreenshotSuffix)|;
      && |Glob(after, ScreenshotPrefix, ScreenshotSuffix)| == (if keepLast < m then keepLast else m)
      && (forall a, d :: a in Glob(after, ScreenshotPrefix, ScreenshotSuffix) && d in victims ==> a.mtime >= d.mtime)
      && (forall e :: e in files && !MatchesPattern(e.name, ScreenshotPrefix, ScreenshotSuffix) ==> e in after)
      && (m <= keepLast ==> after == files)
  {
    CleanupLeavesKeepLast(files, ScreenshotPrefix, ScreenshotSuffix, keepLast);
    CleanupKeepsNewest(files, ScreenshotPrefix, ScreenshotSuffix, keepLast);
    CleanupRemovesOnlyVictims(files, ScreenshotPrefix, ScreenshotSuffix, keepLast);
    if |Glob(files, ScreenshotPrefix, ScreenshotSuffix)| <= keepLast {
      CleanupBelowLimitDeletesNothing(files, ScreenshotPrefix, ScreenshotSuffix, keepLast);
    }
  }
}
