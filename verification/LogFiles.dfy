/** Log files as a map from path to contents, and what one call of the log manager may do to
    them. */
module LogFiles {
  import opened Options
  import opened FilePaths
  import opened LogNames

  type Files = map<Path, string>

  function Lookup(files: Files, name: Path): Option<string> {
    if name in files then Some(files[name]) else None
  }

  /** Contents of generation j of a log, if that file exists. */
  function At(files: Files, log: Place, j: nat): Option<string> {
    Lookup(files, Name(log, j))
  }

  /** A file that is neither the live file nor any rotated file of the log. */
  ghost predicate Foreign(name: Path, log: Place) {
    forall j: nat :: name != Name(log, j)
  }

  ghost predicate ForeignUnchanged(before: Files, after: Files, log: Place) {
    forall f :: Foreign(f, log) ==> Lookup(after, f) == Lookup(before, f)
  }

  /** The live log exists and has reached the size limit. */
  predicate NeedsRotation(files: Files, log: Place, maxSize: nat) {
    var live := At(files, log, 0);
    live.Some? && |live.value| >= maxSize
  }

  /** Generation j after a rotation that keeps `depth` rotated files: everything moves up
      by one. Only generation `depth` can be lost, and only to generation depth - 1. */
  function Shifted(files: Files, log: Place, depth: nat, j: nat): Option<string>
    requires depth >= 1
  {
    if j == 0 then None
    else if j < depth || (j == depth && At(files, log, j - 1).Some?) then At(files, log, j - 1)
    else At(files, log, j)
  }

  /** Generation j while the renaming loop runs downwards and i is the next number to move:
      numbers above i are done, i + 1 has just been vacated. */
  function ShiftedSoFar(files: Files, log: Place, depth: nat, i: nat, j: nat): Option<string>
    requires depth >= 1
  {
    if j <= i || depth < j || i >= depth - 1 then At(files, log, j)
    else if j == i + 1 then None
    else Shifted(files, log, depth, j)
  }

  ghost predicate Shifting(before: Files, now: Files, log: Place, depth: nat, i: nat)
    requires depth >= 1
  {
    && (forall j: nat :: At(now, log, j) == ShiftedSoFar(before, log, depth, i, j))
    && ForeignUnchanged(before, now, log)
  }

  function Renamed(files: Files, source: Path, target: Path): Files
    requires source in files
  {
    (files - {source})[target := files[source]]
  }

  /** Renaming one generation onto another touches these two slots only. */
  lemma RenamedSlots(files: Files, log: Place, i: nat, k: nat)
    requires Name(log, i) in files && i != k
    ensures var after := Renamed(files, Name(log, i), Name(log, k));
            && (forall j: nat :: At(after, log, j) ==
                  if j == k then At(files, log, i) else if j == i then None else At(files, log, j))
            && ForeignUnchanged(files, after, log)
  {
    NamesDistinct(log);
  }

  /** One turn of the renaming loop. */
  lemma ShiftingStep(before: Files, now: Files, after: Files, log: Place, depth: nat, i: nat)
    requires 1 <= i < depth && Shifting(before, now, log, depth, i)
    requires after == if Name(log, i) in now then Renamed(now, Name(log, i), Name(log, i + 1)) else now
    ensures Shifting(before, after, log, depth, i - 1)
  {
    if Name(log, i) in now {
      RenamedSlots(now, log, i, i + 1);
    }
    assert At(now, log, i) == At(before, log, i);
    forall j: nat ensures At(after, log, j) == ShiftedSoFar(before, log, depth, i - 1, j) {
      assert At(now, log, j) == ShiftedSoFar(before, log, depth, i, j);
    }
  }

  /** The last rename turns a finished loop into a rotation. */
  lemma ShiftingDone(before: Files, now: Files, log: Place, depth: nat)
    requires depth >= 1 && Shifting(before, now, log, depth, 0) && Name(log, 0) in before
    ensures Name(log, 0) in now
    ensures Rotation(before, Renamed(now, Name(log, 0), Name(log, 1)), log, depth)
  {
    assert At(now, log, 0) == At(before, log, 0);
    RenamedSlots(now, log, 0, 1);
    var after := Renamed(now, Name(log, 0), Name(log, 1));
    forall j: nat ensures At(after, log, j) == Shifted(before, log, depth, j) {
      assert At(now, log, j) == ShiftedSoFar(before, log, depth, 0, j);
    }
  }

  /** The renaming loop run in the other direction: numbers i, i + 1, ..., depth - 1. */
  function Ascending(files: Files, log: Place, i: nat, depth: nat): Files
    decreases depth - i
  {
    if i >= depth then files
    else
      var (src, dst) := (Name(log, i), Name(log, i + 1));
      Ascending(if src in files then Renamed(files, src, dst) else files, log, i + 1, depth)
  }

  /** Why the loop runs downwards: upwards, generation i overwrites every later one in turn
      and ends up alone at the far end. */
  lemma {:induction false} AscendingLosesAllButOne(files: Files, log: Place, i: nat, depth: nat)
    requires 1 <= i <= depth && At(files, log, i).Some?
    ensures forall j: nat :: At(Ascending(files, log, i, depth), log, j) ==
              if j == depth then At(files, log, i) else if i <= j < depth then None else At(files, log, j)
    decreases depth - i
  {
    if i < depth {
      RenamedSlots(files, log, i, i + 1);
      AscendingLosesAllButOne(Renamed(files, Name(log, i), Name(log, i + 1)), log, i + 1, depth);
    }
  }

  /** Appending to the live log after an optional rotation is a write. */
  lemma AppendedIsWriting(before: Files, now: Files, log: Place, entry: string, depth: nat, maxSize: nat)
    requires depth >= 1
    requires if NeedsRotation(before, log, maxSize) then Rotation(before, now, log, depth) else now == before
    ensures Writing(before, now, log, None, depth, maxSize)
    ensures Writing(before, now[Name(log, 0) := At(now, log, 0).GetOr("") + entry],
                    log, Some(entry), depth, maxSize)
  {
    NamesDistinct(log);
  }

  ghost predicate Rotation(before: Files, after: Files, log: Place, depth: nat)
    requires depth >= 1
  {
    && (forall j: nat :: At(after, log, j) == Shifted(before, log, depth, j))
    && ForeignUnchanged(before, after, log)
  }

  /** Generation j after one write: a rotation if one is due, then the entry (if the log
      could be opened) at the end of the live log. */
  function Written(files: Files, log: Place, entry: Option<string>, depth: nat, maxSize: nat, j: nat): Option<string>
    requires depth >= 1
  {
    var kept := if NeedsRotation(files, log, maxSize) then Shifted(files, log, depth, j) else At(files, log, j);
    if j == 0 && entry.Some? then Some(kept.GetOr("") + entry.value) else kept
  }

  ghost predicate Writing(before: Files, after: Files, log: Place, entry: Option<string>, depth: nat, maxSize: nat)
    requires depth >= 1
  {
    && (forall j: nat :: At(after, log, j) == Written(before, log, entry, depth, maxSize, j))
    && ForeignUnchanged(before, after, log)
  }

  predicate NumberedBelow(name: Path, log: Place, n: nat) {
    exists i: nat :: i < n && name == FileName(log, Rotated(i))
  }

  /** The files `remove` deletes: numbers 0 to 9 and the live log, whatever exists of them. */
  predicate CleanedName(name: Path, log: Place) {
    name == FileName(log, Current) || NumberedBelow(name, log, 10)
  }

  /** What `remove` does to the log directory: the live log and the rotated files numbered
      0 to 9 go, whichever of them exist. */
  ghost predicate Cleanup(before: Files, after: Files, log: Place) {
    && At(after, log, 0) == None
    && Lookup(after, FileName(log, Rotated(0))) == None
    && (forall j: nat | 1 <= j :: At(after, log, j) == if j < 10 then None else At(before, log, j))
    && (forall f :: Foreign(f, log) && f != FileName(log, Rotated(0)) ==> Lookup(after, f) == Lookup(before, f))
  }

  /** Deleting the cleaned names, and nothing else, is that clean-up. */
  lemma CleanupFromDeletion(before: Files, after: Files, log: Place)
    requires forall f :: Lookup(after, f) == if CleanedName(f, log) then None else Lookup(before, f)
    ensures Cleanup(before, after, log)
  {
    assert CleanedName(Name(log, 0), log);
    assert NumberedBelow(FileName(log, Rotated(0)), log, 10);
    forall j: nat | 1 <= j ensures At(after, log, j) == if j < 10 then None else At(before, log, j) {
      if CleanedName(Name(log, j), log) {
        if Name(log, j) == FileName(log, Current) {
          FileNameInjective(log, Generation(j), log, Current);
        } else {
          var i: nat :| i < 10 && Name(log, j) == FileName(log, Rotated(i));
          FileNameInjective(log, Generation(j), log, Rotated(i));
        }
      } else {
        assert j < 10 ==> Name(log, j) == FileName(log, Rotated(j)) && NumberedBelow(Name(log, j), log, 10);
      }
    }
    forall f | Foreign(f, log) && f != FileName(log, Rotated(0)) ensures !CleanedName(f, log) {
      assert f != Name(log, 0);
      forall i: nat | i < 10 ensures f != FileName(log, Rotated(i)) {
        assert f != Name(log, i);
      }
    }
  }

  /** Files of one log are foreign to every other log. */
  lemma OthersAreForeign(log: Place, other: Place, j: nat)
    requires log != other
    ensures Foreign(Name(other, j), log)
    ensures Name(other, j) != FileName(log, Rotated(0))
  {
    forall i: nat ensures Name(other, j) != Name(log, i) {
      if Name(other, j) == Name(log, i) {
        NameInjective(other, j, log, i);
      }
    }
    if Name(other, j) == FileName(log, Rotated(0)) {
      FileNameInjective(other, Generation(j), log, Rotated(0));
    }
  }

  /** Isolation: writing, rotating or cleaning up one log leaves every file of every other log
      as it was. */
  lemma Isolation(before: Files, after: Files, log: Place, other: Place, entry: Option<string>, depth: nat,
      maxSize: nat, j: nat)
    requires log != other && depth >= 1
    requires || Writing(before, after, log, entry, depth, maxSize)
             || Rotation(before, after, log, depth)
             || Cleanup(before, after, log)
    ensures At(after, other, j) == At(before, other, j)
  {
    OthersAreForeign(log, other, j);
  }

  /** No write to the one log ever changes a file of the other. */
  ghost predicate WritesSpare(log: Place, other: Place, depth: nat, maxSize: nat)
    requires depth >= 1
  {
    forall before: Files, after: Files, entry: Option<string>, j: nat
      | Writing(before, after, log, entry, depth, maxSize) :: At(after, other, j) == At(before, other, j)
  }

  /** Two services are isolated from each other exactly when their names denote different
      places, which names without a slash always do. */
  lemma ServicesIsolatedIff(logDir: string, s: string, t: string, depth: nat, maxSize: nat)
    requires depth >= 1
    ensures WritesSpare(LogPlace(logDir, s), LogPlace(logDir, t), depth, maxSize) <==>
        LogPlace(logDir, s) != LogPlace(logDir, t)
    ensures SlashFree(s) && SlashFree(t) && s != t ==> LogPlace(logDir, s) != LogPlace(logDir, t)
  {
    var p, q := LogPlace(logDir, s), LogPlace(logDir, t);
    if p != q {
      forall before: Files, after: Files, entry: Option<string>, j: nat |
          Writing(before, after, p, entry, depth, maxSize)
        ensures At(after, q, j) == At(before, q, j)
      {
        Isolation(before, after, p, q, entry, depth, maxSize, j);
      }
    } else {
      FirstWrite(p, depth, maxSize);
      assert At(map[Name(p, 0) := "x"], q, 0) != At(map[], q, 0);
    }
    if SlashFree(s) && SlashFree(t) {
      PlainPlace(logDir, s);
      PlainPlace(logDir, t);
    }
  }

  lemma FirstWrite(log: Place, depth: nat, maxSize: nat)
    requires depth >= 1
    ensures Writing(map[], map[Name(log, 0) := "x"], log, Some("x"), depth, maxSize)
  {
    NamesDistinct(log);
    var after: Files := map[Name(log, 0) := "x"];
    assert "" + "x" == "x";
    forall j: nat ensures At(after, log, j) == Written(map[], log, Some("x"), depth, maxSize, j) {
      assert Name(log, j) in after <==> j == 0;
    }
  }

  /** The description of a write leaves nothing open: it fixes the whole directory. */
  lemma WritingDetermined(before: Files, a: Files, b: Files, log: Place, entry: Option<string>, depth: nat,
      maxSize: nat)
    requires depth >= 1
    requires Writing(before, a, log, entry, depth, maxSize)
    requires Writing(before, b, log, entry, depth, maxSize)
    ensures a == b
  {
    forall f ensures Lookup(a, f) == Lookup(b, f) {
      if !Foreign(f, log) {
        var j: nat :| f == Name(log, j);
        assert At(a, log, j) == At(b, log, j);
      }
    }
    assert forall f :: f in a ==> Lookup(a, f) == Lookup(b, f) && f in b && a[f] == b[f];
    assert forall f :: f in b ==> Lookup(a, f) == Lookup(b, f) && f in a;
  }
}
