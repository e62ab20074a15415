/** src/log_manager.cc: per-service logs. */
module LogManagers {
  import opened Options
  import opened FilePaths
  import opened LogNames
  import opened LogFiles
  import opened LogLines

  /** The file system calls the log manager makes. */
  class Directory {
    var files: Files

    constructor ()
      ensures files == map[]
    {
      files := map[];
    }

    predicate Exists(name: Path)
      reads this
    {
      name in files
    }

    method Rename(source: Path, target: Path)
      requires Exists(source) && source != target
      modifies this
      ensures files == (old(files) - {source})[target := old(files)[source]]
    {
      var contents := files[source];
      files := (files - {source})[target := contents];
    }

    method Remove(name: Path) returns (removed: bool)
      modifies this
      ensures removed == (name in old(files))
      ensures files == old(files) - {name}
    {
      removed := name in files;
      files := files - {name};
    }

    /** Opens for appending, creating the file if there is none, and writes the text. */
    method Append(name: Path, text: string)
      modifies this
      ensures files == old(files)[name := Lookup(old(files), name).GetOr("") + text]
    {
      files := files[name := Lookup(files, name).GetOr("") + text];
    }
  }

  class LogManager {
    const dir: Directory
    const logDir: string
    const maxFileSize: nat
    const maxFiles: int

    constructor (dir: Directory, logDir: string, maxFileSize: nat, maxFiles: int)
      ensures this.dir == dir && this.logDir == logDir && this.maxFileSize == maxFileSize && this.maxFiles == maxFiles
    {
      this.dir := dir;
      this.logDir := logDir;
      this.maxFileSize := maxFileSize;
      this.maxFiles := maxFiles;
    }

    /** How many rotated files are kept: at least one, whatever maxFiles says. */
    function Depth(): (n: nat)
      ensures n >= 1 && (n == maxFiles || (n == 1 && maxFiles < 1))
    {
      if maxFiles < 1 then 1 else maxFiles
    }

    /** The files of a service. */
    function Log(service: string): Place {
      LogPlace(logDir, service)
    }

    /** The path of a file of a service. */
    function File(service: string, slot: Slot): (path: Path)
      ensures path == FileName(Log(service), slot)
    {
      PathIsFileName(logDir, service, slot);
      LogPath(logDir, service, slot)
    }

    method RotateIfNeeded(service: string)
      modifies dir
      ensures if NeedsRotation(old(dir.files), Log(service), maxFileSize)
              then Rotation(old(dir.files), dir.files, Log(service), Depth())
              else dir.files == old(dir.files)
    {
      var path := File(service, Current);
      ghost var log := Log(service);
      assert path == Name(log, 0);
      if !dir.Exists(path) {
        return;
      }
      var size := |dir.files[path]|;
      if size < maxFileSize {
        return;
      }
      ghost var before := dir.files;
      var i := maxFiles - 1;
      while i >= 1
        invariant i < Depth()
        invariant Shifting(before, dir.files, log, Depth(), if i < 0 then 0 else i)
      {
        var src := File(service, Rotated(i));
        var dst := File(service, Rotated(i + 1));
        assert src == Name(log, i) && dst == Name(log, i + 1);
        NamesDistinct(log);
        ghost var now := dir.files;
        if dir.Exists(src) {
          dir.Rename(src, dst);
        }
        ShiftingStep(before, now, dir.files, log, Depth(), i);
        i := i - 1;
      }
      ShiftingDone(before, dir.files, log, Depth());
      var rotated := File(service, Rotated(1));
      assert rotated == Name(log, 1);
      NamesDistinct(log);
      dir.Rename(path, rotated);
    }

    /** Appends one time-stamped entry. `opens` says whether the log could be opened. */
    method Write(service: string, stamp: string, output: string, opens: bool)
      modifies dir
      ensures if output == "" then dir.files == old(dir.files)
              else Writing(old(dir.files), dir.files, Log(service),
                           if opens then Some(Entry(stamp, output)) else None, Depth(), maxFileSize)
      ensures output != "" && opens ==>
                var kept := if NeedsRotation(old(dir.files), Log(service), maxFileSize) then ""
                            else At(old(dir.files), Log(service), 0).GetOr("");
                var live := At(dir.files, Log(service), 0).GetOr("");
                kept <= live && Stamped(live[|kept|..], stamp, output)
    {
      if output == "" {
        return;
      }
      RotateIfNeeded(service);
      var path := File(service, Current);
      assert path == Name(Log(service), 0);
      AppendedIsWriting(old(dir.files), dir.files, Log(service), Entry(stamp, output), Depth(), maxFileSize);
      if !opens {
        return;
      }
      var text := "[" + stamp + "] ";
      text := text + output;
      if output[|output| - 1] != '\n' {
        text := text + "\n";
      }
      assert text == Entry(stamp, output);
      dir.Append(path, text);
    }

    /** The last lines of the live log, through a window that drops its oldest line
        whenever it outgrows the limit. */
    method ReadLog(service: string, numLines: int) returns (result: string)
      ensures result == Unlines(LastLines(Lines(At(dir.files, Log(service), 0).GetOr("")), numLines))
    {
      var path := File(service, Current);
      assert path == Name(Log(service), 0);
      if !dir.Exists(path) {
        return "";
      }
      var rest := dir.files[path];
      var window: seq<string> := [];
      ghost var all, seen := Lines(rest), [];
      while rest != ""
        invariant all == seen + Lines(rest)
        invariant window == LastLines(seen, numLines)
        decreases |rest|
      {
        var line, after := GetLine(rest).0, GetLine(rest).1;
        LinesStep(seen, rest);
        WindowStep(seen, line, numLines);
        rest := after;
        seen := seen + [line];
        window := window + [line];
        if |window| > numLines {
          window := window[1..];
        }
      }
      assert all == seen;
      result := WriteLines(window);
    }

    /** Writes the lines of the window one by one. */
    method WriteLines(window: seq<string>) returns (result: string)
      ensures result == Unlines(window)
    {
      result := "";
      var k := 0;
      while k < |window|
        invariant 0 <= k <= |window|
        invariant result + Unlines(window[k..]) == Unlines(window)
      {
        UnlinesStep(result, window[k..]);
        assert window[k..][1..] == window[k + 1..];
        result := result + window[k] + "\n";
        k := k + 1;
      }
      assert window[k..] == [];
    }
  }
}
