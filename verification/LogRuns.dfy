/** The log manager's methods, called in any order, produce exactly the runs that the theorems
    about whole runs speak of. */
module LogRuns {
  import opened Options
  import opened FilePaths
  import opened LogNames
  import opened LogFiles
  import opened LogLines
  import opened LogManagers
  import opened LogHistory
  import LogTail

  /** Everything with a number below n is gone, and everything else as before. */
  ghost predicate CleanedBelow(before: Files, now: Files, log: Place, n: nat) {
    forall f :: Lookup(now, f) == if NumberedBelow(f, log, n) then None else Lookup(before, f)
  }

  lemma CleanedOneMore(before: Files, now: Files, log: Place, n: nat)
    requires CleanedBelow(before, now, log, n)
    ensures CleanedBelow(before, now - {FileName(log, Rotated(n))}, log, n + 1)
  {
    hide FileName;
    var rotated := FileName(log, Rotated(n));
    forall f ensures Lookup(now - {rotated}, f) == if NumberedBelow(f, log, n + 1) then None else Lookup(before, f) {
      assert NumberedBelow(f, log, n + 1) <==> NumberedBelow(f, log, n) || f == rotated;
      assert Lookup(now, f) == if NumberedBelow(f, log, n) then None else Lookup(before, f);
    }
  }

  lemma CleanedAll(before: Files, now: Files, log: Place)
    requires CleanedBelow(before, now, log, 10)
    ensures Cleanup(before, now - {FileName(log, Current)}, log)
  {
    hide FileName;
    var after := now - {FileName(log, Current)};
    forall f ensures Lookup(after, f) == if CleanedName(f, log) then None else Lookup(before, f) {
      assert Lookup(now, f) == if NumberedBelow(f, log, 10) then None else Lookup(before, f);
    }
    CleanupFromDeletion(before, after, log);
  }

  /** The log clean-up of `remove`. */
  method CleanUp(manager: LogManager, service: string)
    modifies manager.dir
    ensures Cleanup(old(manager.dir.files), manager.dir.files, manager.Log(service))
  {
    hide FileName, CleanedBelow, Cleanup;
    var dir := manager.dir;
    ghost var before, log := dir.files, manager.Log(service);
    assert CleanedBelow(before, before, log, 0) by {
      NothingCleaned(before, log);
    }
    for i := 0 to 10
      invariant CleanedBelow(before, dir.files, log, i)
    {
      CleanedOneMore(before, dir.files, log, i);
      var removed := dir.Remove(manager.File(service, Rotated(i)));
    }
    CleanedAll(before, dir.files, log);
    var removed := dir.Remove(manager.File(service, Current));
  }

  lemma NothingCleaned(files: Files, log: Place)
    ensures CleanedBelow(files, files, log, 0)
  {
  }

  /** A call of the log manager, or the log clean-up of `remove`, for a service. */
  datatype Call =
    | WriteFor(service: string, stamp: string, output: string, opens: bool)
    | RemoveFor(service: string)

  function EventOf(logDir: string, call: Call): Event {
    match call
    case WriteFor(service, stamp, output, opens) => Wrote(LogPlace(logDir, service), stamp, output, opens)
    case RemoveFor(service) => Removed(LogPlace(logDir, service))
  }

  function EventsOf(logDir: string, calls: seq<Call>): (events: seq<Event>)
    ensures |events| == |calls|
    ensures forall k | 0 <= k < |calls| :: events[k] == EventOf(logDir, calls[k])
  {
    seq(|calls|, k requires 0 <= k < |calls| => EventOf(logDir, calls[k]))
  }

  /** The files of a log hold a suffix of its entries. */
  ghost predicate SuffixKept(files: Files, log: Place, history: seq<string>, depth: nat) {
    exists lost: nat :: lost <= |history| && TextFrom(files, log, depth) == Concat(history[lost..])
  }

  lemma SuffixesKept(dirs: seq<Files>, events: seq<Event>, depth: nat, maxSize: nat)
    requires depth >= 1 && Run(dirs, events, depth, maxSize) && RemovalsClean(events, depth)
    ensures forall log :: SuffixKept(dirs[|events|], log, History(events, log), depth)
  {
    forall log ensures SuffixKept(dirs[|events|], log, History(events, log), depth) {
      var lost := Retention(dirs, events, log, depth, maxSize);
    }
  }

  method Perform(manager: LogManager, call: Call)
    modifies manager.dir
    ensures Step(old(manager.dir.files), manager.dir.files, EventOf(manager.logDir, call), manager.Depth(),
        manager.maxFileSize)
  {
    match call {
      case WriteFor(service, stamp, output, opens) => manager.Write(service, stamp, output, opens);
      case RemoveFor(service) => CleanUp(manager, service);
    }
  }

  /** Performs the calls on an empty directory. The trace is a run, so what is kept is a
      suffix of every log's history; services whose names denote one place share one. */
  method Replay(manager: LogManager, calls: seq<Call>) returns (ghost dirs: seq<Files>)
    requires manager.dir.files == map[]
    modifies manager.dir
    ensures Run(dirs, EventsOf(manager.logDir, calls), manager.Depth(), manager.maxFileSize)
    ensures dirs[|calls|] == manager.dir.files
    ensures RemovalsClean(EventsOf(manager.logDir, calls), manager.Depth()) ==>
              forall log :: SuffixKept(manager.dir.files, log, History(EventsOf(manager.logDir, calls), log),
                  manager.Depth())
  {
    hide Step, SuffixKept, History, LogPlace;
    dirs := [manager.dir.files];
    ghost var events := EventsOf(manager.logDir, calls);
    for k := 0 to |calls|
      invariant |dirs| == k + 1 && dirs[0] == map[] && dirs[k] == manager.dir.files
      invariant forall i | 0 <= i < k :: Step(dirs[i], dirs[i + 1], events[i], manager.Depth(), manager.maxFileSize)
    {
      Perform(manager, calls[k]);
      dirs := dirs + [manager.dir.files];
    }
    if RemovalsClean(events, manager.Depth()) {
      SuffixesKept(dirs, events, manager.Depth(), manager.maxFileSize);
    }
  }

  /** One write after any run, and a look at the log: the entry comes back. */
  method WriteAndRead(manager: LogManager, calls: seq<Call>, service: string, stamp: string, output: string)
    returns (text: string)
    requires manager.dir.files == map[] && output != ""
    requires RemovalsClean(EventsOf(manager.logDir, calls), manager.Depth())
    modifies manager.dir
    ensures text == Entry(stamp, output) && Stamped(text, stamp, output)
  {
    var last := WriteFor(service, stamp, output, true);
    ghost var events := EventsOf(manager.logDir, calls + [last]);
    assert events[..|calls|] == EventsOf(manager.logDir, calls);
    assert forall k | 0 <= k < |calls| :: events[k] == EventsOf(manager.logDir, calls)[k];
    ghost var dirs := Replay(manager, calls + [last]);
    LogTail.ReadBackEntry(dirs, events, manager.Depth(), manager.maxFileSize);
    text := manager.ReadLog(service, |Lines(Entry(stamp, output))|);
  }
}
