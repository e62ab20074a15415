/** Whole runs of the log manager, from an empty directory, compared with the simple thing
    it stands for: one ever-growing list of entries per log. A log is a place; service names
    that denote one place write to one log. */
module LogHistory {
  import opened Options
  import opened FilePaths
  import opened LogFiles
  import opened LogLines

  /** A write call (`opens`: the log file could be opened), or the log clean-up of `remove`. */
  datatype Event =
    | Wrote(log: Place, stamp: string, output: string, opens: bool)
    | Removed(log: Place)

  ghost predicate Step(before: Files, after: Files, e: Event, depth: nat, maxSize: nat)
    requires depth >= 1
  {
    match e
    case Wrote(s, stamp, "", opens) => after == before
    case Wrote(s, stamp, output, opens) =>
      Writing(before, after, s, if opens then Some(Entry(stamp, output)) else None, depth, maxSize)
    case Removed(s) => Cleanup(before, after, s)
  }

  /** A run: the directory before the first event, and after each event. */
  ghost predicate Run(dirs: seq<Files>, events: seq<Event>, depth: nat, maxSize: nat)
    requires depth >= 1
  {
    && |dirs| == |events| + 1
    && dirs[0] == map[]
    && (forall k | 0 <= k < |events| :: Step(dirs[k], dirs[k + 1], events[k], depth, maxSize))
  }

  /** The reference: every entry written for the log since it was last removed. */
  function History(events: seq<Event>, log: Place): seq<string> {
    if events == [] then []
    else
      var before := History(events[..|events| - 1], log);
      match events[|events| - 1]
      case Wrote(s, stamp, output, opens) =>
        if s == log && output != "" && opens then before + [Entry(stamp, output)] else before
      case Removed(s) => if s == log then [] else before
  }

  /** The writes that left something in the log since it was last removed. */
  function Logged(events: seq<Event>, log: Place): (writes: seq<Event>)
    ensures forall k | 0 <= k < |writes| :: writes[k].Wrote? && writes[k].output != ""
  {
    if events == [] then []
    else
      var before := Logged(events[..|events| - 1], log);
      match events[|events| - 1]
      case Wrote(s, stamp, output, opens) =>
        if s == log && output != "" && opens then before + [events[|events| - 1]] else before
      case Removed(s) => if s == log then [] else before
  }

  /** The history shows the output of each of these writes, whole and in order. */
  lemma {:induction false} HistoryShows(events: seq<Event>, log: Place)
    ensures |History(events, log)| == |Logged(events, log)|
    ensures forall k | 0 <= k < |Logged(events, log)| ::
              Stamped(History(events, log)[k], Logged(events, log)[k].stamp, Logged(events, log)[k].output)
  {
    if events != [] {
      HistoryShows(events[..|events| - 1], log);
    }
  }

  function Concat(entries: seq<string>): string {
    if entries == [] then "" else entries[0] + Concat(entries[1..])
  }

  lemma {:induction false} ConcatAppend(a: seq<string>, b: seq<string>)
    ensures Concat(a + b) == Concat(a) + Concat(b)
  {
    if a == [] {
      assert a + b == b;
    } else {
      ConcatAppend(a[1..], b);
      assert (a + b)[0] == a[0] && (a + b)[1..] == a[1..] + b;
      var head, middle, end := a[0], Concat(a[1..]), Concat(b);
      assert head + (middle + end) == (head + middle) + end;
    }
  }

  /** The files of a log as blocks of whole entries: the live log, the rotated files
      (newest first), and the entries that have fallen off the end. */
  datatype Shelf = Shelf(live: Option<seq<string>>, rotated: seq<seq<string>>, dropped: seq<string>) {

    /** All entries, oldest first. */
    function Entries(): seq<string> {
      dropped + OldestFirst(rotated) + live.GetOr([])
    }

    function Rotate(depth: nat): Shelf
      requires live.Some?
    {
      if |rotated| < depth then Shelf(None, [live.value] + rotated, dropped)
      else if depth == 0 then Shelf(None, rotated, dropped)
      else Shelf(None, [live.value] + rotated[..depth - 1], dropped + OldestFirst(rotated[depth - 1..]))
    }

    function Write(entry: Option<string>, depth: nat, maxSize: nat): Shelf {
      var kept := if live.Some? && |Concat(live.value)| >= maxSize then Rotate(depth) else this;
      if entry.Some? then kept.(live := Some(kept.live.GetOr([]) + [entry.value])) else kept
    }

    function Apply(e: Event, depth: nat, maxSize: nat): Shelf {
      match e
      case Wrote(s, stamp, output, opens) =>
        if output == "" then this
        else Write(if opens then Some(Entry(stamp, output)) else None, depth, maxSize)
      case Removed(s) => EMPTY
    }
  }

  const EMPTY: Shelf := Shelf(None, [], [])

  function OldestFirst(blocks: seq<seq<string>>): seq<string> {
    if blocks == [] then [] else OldestFirst(blocks[1..]) + blocks[0]
  }

  function ShelfOf(events: seq<Event>, log: Place, depth: nat, maxSize: nat): Shelf {
    if events == [] then EMPTY
    else
      var before := ShelfOf(events[..|events| - 1], log, depth, maxSize);
      var e := events[|events| - 1];
      if e.log == log then before.Apply(e, depth, maxSize) else before
  }

  /** Generation j of a shelf as file contents. */
  function BlockAt(sh: Shelf, j: nat): Option<string> {
    if j == 0 then (if sh.live.Some? then Some(Concat(sh.live.value)) else None)
    else if j <= |sh.rotated| then Some(Concat(sh.rotated[j - 1]))
    else None
  }

  ghost predicate Holds(files: Files, log: Place, sh: Shelf) {
    forall j: nat :: At(files, log, j) == BlockAt(sh, j)
  }

  /** Rotation is a list step: put the live block in front, keep the first `depth`. */
  lemma RotateIsListStep(sh: Shelf, depth: nat)
    requires sh.live.Some? && depth >= 1 && |sh.rotated| <= depth
    ensures var all := [sh.live.value] + sh.rotated;
            var after := sh.Rotate(depth);
            && after.rotated == all[..if depth < |all| then depth else |all|]
            && after.live == None
            && after.Entries() == sh.Entries()
            && (after.dropped != sh.dropped ==> |sh.rotated| == depth)
  {
    if |sh.rotated| == depth {
      OldestFirstSplit(sh.rotated, depth - 1);
      assert ([sh.live.value] + sh.rotated[..depth - 1])[1..] == sh.rotated[..depth - 1];
    } else {
      assert ([sh.live.value] + sh.rotated)[1..] == sh.rotated;
    }
  }

  lemma {:induction false} OldestFirstSplit(blocks: seq<seq<string>>, k: nat)
    requires k <= |blocks|
    ensures OldestFirst(blocks) == OldestFirst(blocks[k..]) + OldestFirst(blocks[..k])
  {
    if k == 0 {
      assert blocks[0..] == blocks;
    } else {
      OldestFirstSplit(blocks[1..], k - 1);
      assert blocks[1..][k - 1..] == blocks[k..];
      assert blocks[1..][..k - 1] == blocks[..k][1..];
    }
  }

  /** The renaming loop on files refines the list step on shelves. */
  lemma WriteRefines(before: Files, after: Files, log: Place, sh: Shelf, entry: Option<string>, depth: nat,
      maxSize: nat)
    requires depth >= 1 && |sh.rotated| <= depth && Holds(before, log, sh)
    requires Writing(before, after, log, entry, depth, maxSize)
    ensures Holds(after, log, sh.Write(entry, depth, maxSize))
  {
    hide At, Concat, NeedsRotation, Shifted;
    var kept := RotationRefines(before, log, sh, depth, maxSize);
    if entry.Some? {
      ConcatOneMore(kept.live.GetOr([]), entry.value);
      ConcatNothing();
    }
  }

  /** The same without the new entry: the shelf is rotated exactly when the log is. */
  lemma RotationRefines(files: Files, log: Place, sh: Shelf, depth: nat, maxSize: nat) returns (kept: Shelf)
    requires depth >= 1 && |sh.rotated| <= depth && Holds(files, log, sh)
    ensures kept == if sh.live.Some? && |Concat(sh.live.value)| >= maxSize then sh.Rotate(depth) else sh
    ensures forall j: nat :: BlockAt(kept, j) ==
              if NeedsRotation(files, log, maxSize) then Shifted(files, log, depth, j) else At(files, log, j)
  {
    hide Concat;
    assert At(files, log, 0) == BlockAt(sh, 0);
    var due := NeedsRotation(files, log, maxSize);
    kept := if due then sh.Rotate(depth) else sh;
    forall j: nat
      ensures BlockAt(kept, j) == if due then Shifted(files, log, depth, j) else At(files, log, j)
    {
      assert At(files, log, j) == BlockAt(sh, j);
      if j > 0 {
        assert At(files, log, j - 1) == BlockAt(sh, j - 1);
      }
    }
  }

  lemma ConcatOneMore(a: seq<string>, entry: string)
    ensures Concat(a + [entry]) == Concat(a) + entry
  {
    ConcatAppend(a, [entry]);
    assert Concat([entry]) == entry + Concat([entry][1..]) == entry;
  }

  lemma ConcatNothing()
    ensures Concat([]) == ""
  {
  }

  /** What every reachable shelf satisfies. */
  ghost predicate Sound(sh: Shelf, depth: nat, maxSize: nat) {
    && |sh.rotated| <= depth
    && (sh.dropped != [] ==> |sh.rotated| == depth)
    && (forall k | 0 <= k < |sh.rotated| :: |Concat(sh.rotated[k])| >= maxSize)
  }

  lemma WriteKeepsSound(sh: Shelf, entry: Option<string>, depth: nat, maxSize: nat)
    requires depth >= 1 && Sound(sh, depth, maxSize)
    ensures Sound(sh.Write(entry, depth, maxSize), depth, maxSize)
    ensures sh.Write(entry, depth, maxSize).Entries() ==
              sh.Entries() + if entry.Some? then [entry.value] else []
  {
    if sh.live.Some? && |Concat(sh.live.value)| >= maxSize {
      RotateIsListStep(sh, depth);
    }
  }

  /** Removal is clean only while no rotated file is numbered above 9. */
  ghost predicate RemovalsClean(events: seq<Event>, depth: nat) {
    depth <= 9 || forall k | 0 <= k < |events| :: events[k].Wrote?
  }

  /** The refinement over whole runs and all services at once. */
  lemma {:induction false} RunRefines(dirs: seq<Files>, events: seq<Event>, log: Place, depth: nat, maxSize: nat)
    requires depth >= 1 && Run(dirs, events, depth, maxSize) && RemovalsClean(events, depth)
    ensures var sh := ShelfOf(events, log, depth, maxSize);
            && Holds(dirs[|events|], log, sh)
            && Sound(sh, depth, maxSize)
            && sh.Entries() == History(events, log)
  {
    if events != [] {
      var n := |events| - 1;
      RunRefines(dirs[..n + 1], events[..n], log, depth, maxSize);
      var sh := ShelfOf(events[..n], log, depth, maxSize);
      var e := events[n];
      assert Step(dirs[n], dirs[n + 1], e, depth, maxSize);
      if e.log != log {
        forall j: nat ensures At(dirs[n + 1], log, j) == At(dirs[n], log, j) {
          OthersAreForeign(e.log, log, j);
        }
      } else if e.Wrote? && e.output != "" {
        var entry := if e.opens then Some(Entry(e.stamp, e.output)) else None;
        WriteRefines(dirs[n], dirs[n + 1], log, sh, entry, depth, maxSize);
        WriteKeepsSound(sh, entry, depth, maxSize);
      }
    }
  }

  /** The text of generations j, j - 1, ..., 0 in this order; missing files are empty. */
  function TextFrom(files: Files, log: Place, j: nat): string {
    At(files, log, j).GetOr("") + if j == 0 then "" else TextFrom(files, log, j - 1)
  }

  function SizeFrom(files: Files, log: Place, j: nat): nat {
    |At(files, log, j).GetOr("")| + if j == 0 then 0 else SizeFrom(files, log, j - 1)
  }

  /** The entries of the rotated blocks 1 to j, as far as they exist, and of the live block. */
  function EntriesFrom(sh: Shelf, j: nat): seq<string> {
    OldestFirst(sh.rotated[..if j < |sh.rotated| then j else |sh.rotated|]) + sh.live.GetOr([])
  }

  lemma EntriesFromStep(sh: Shelf, j: nat)
    requires 1 <= j <= |sh.rotated|
    ensures EntriesFrom(sh, j) == sh.rotated[j - 1] + EntriesFrom(sh, j - 1)
  {
    var upTo, less := sh.rotated[..j], sh.rotated[..j - 1];
    OldestFirstSplit(upTo, j - 1);
    assert upTo[..j - 1] == less && upTo[j - 1..] == [sh.rotated[j - 1]];
    assert OldestFirst([sh.rotated[j - 1]]) == sh.rotated[j - 1] by {
      assert [sh.rotated[j - 1]][1..] == [];
      assert OldestFirst([]) + sh.rotated[j - 1] == sh.rotated[j - 1];
    }
    assert sh.rotated[j - 1] + OldestFirst(less) + sh.live.GetOr([]) ==
           sh.rotated[j - 1] + (OldestFirst(less) + sh.live.GetOr([]));
  }

  lemma {:induction false} TextOfShelf(files: Files, log: Place, sh: Shelf, j: nat)
    requires Holds(files, log, sh)
    ensures TextFrom(files, log, j) == Concat(EntriesFrom(sh, j))
  {
    assert At(files, log, j) == BlockAt(sh, j);
    if j > 0 {
      TextOfShelf(files, log, sh, j - 1);
      if j <= |sh.rotated| {
        EntriesFromStep(sh, j);
        ConcatAppend(sh.rotated[j - 1], EntriesFrom(sh, j - 1));
      }
    } else {
      assert sh.rotated[..0] == [];
      assert EntriesFrom(sh, 0) == sh.live.GetOr([]);
    }
  }

  lemma {:induction false} RotatedSizes(files: Files, log: Place, sh: Shelf, depth: nat, maxSize: nat, j: nat)
    requires Holds(files, log, sh) && Sound(sh, depth, maxSize) && j <= |sh.rotated|
    ensures SizeFrom(files, log, j) >= j * maxSize + SizeFrom(files, log, 0)
  {
    if j > 0 {
      RotatedSizes(files, log, sh, depth, maxSize, j - 1);
      assert At(files, log, j) == BlockAt(sh, j);
      assert j * maxSize == (j - 1) * maxSize + maxSize;
    }
  }

  lemma Retained(files: Files, log: Place, sh: Shelf, depth: nat, maxSize: nat)
    requires Holds(files, log, sh) && Sound(sh, depth, maxSize)
    ensures |sh.dropped| <= |sh.Entries()|
    ensures TextFrom(files, log, depth) == Concat(sh.Entries()[|sh.dropped|..])
    ensures sh.dropped == [] || SizeFrom(files, log, depth) >= depth * maxSize + SizeFrom(files, log, 0)
    ensures forall j: nat | j > depth :: At(files, log, j) == None
  {
    hide TextFrom, SizeFrom, Concat;
    TextOfShelf(files, log, sh, depth);
    assert sh.rotated[..|sh.rotated|] == sh.rotated;
    assert sh.Entries()[|sh.dropped|..] == OldestFirst(sh.rotated) + sh.live.GetOr([]);
    if sh.dropped != [] {
      RotatedSizes(files, log, sh, depth, maxSize, depth);
    }
    forall j: nat | j > depth ensures At(files, log, j) == None {
      assert At(files, log, j) == BlockAt(sh, j);
    }
  }

  /** Log retention. In every run, the rotated files from the oldest to the newest followed
      by the live log are exactly a suffix of what was written, cut between two entries;
      and once anything has been dropped, `depth` rotated files hold at least maxSize bytes
      each. No file beyond generation `depth` exists. */
  lemma Retention(dirs: seq<Files>, events: seq<Event>, log: Place, depth: nat, maxSize: nat) returns (lost: nat)
    requires depth >= 1 && Run(dirs, events, depth, maxSize) && RemovalsClean(events, depth)
    ensures lost <= |History(events, log)|
    ensures TextFrom(dirs[|events|], log, depth) == Concat(History(events, log)[lost..])
    ensures lost == 0 ||
            SizeFrom(dirs[|events|], log, depth) >= depth * maxSize + SizeFrom(dirs[|events|], log, 0)
    ensures forall j: nat | j > depth :: At(dirs[|events|], log, j) == None
  {
    hide Step, TextFrom, SizeFrom, ShelfOf, History, Concat;
    RunRefines(dirs, events, log, depth, maxSize);
    var sh := ShelfOf(events, log, depth, maxSize);
    lost := |sh.dropped|;
    Retained(dirs[|events|], log, sh, depth, maxSize);
  }

  /** Files stay gap-free: generation j exists only if every generation below it does,
      except that the live log may be missing right after a failed open. */
  lemma GapFree(dirs: seq<Files>, events: seq<Event>, log: Place, depth: nat, maxSize: nat, i: nat, j: nat)
    requires depth >= 1 && Run(dirs, events, depth, maxSize) && RemovalsClean(events, depth)
    requires 1 <= i <= j && At(dirs[|events|], log, j).Some?
    ensures At(dirs[|events|], log, i).Some?
  {
    RunRefines(dirs, events, log, depth, maxSize);
    var sh := ShelfOf(events, log, depth, maxSize);
    assert At(dirs[|events|], log, i) == BlockAt(sh, i);
    assert At(dirs[|events|], log, j) == BlockAt(sh, j);
  }

  /** Every entry is at most `limit` bytes long. */
  ghost predicate EntriesWithin(events: seq<Event>, limit: nat) {
    forall k | 0 <= k < |events| && events[k].Wrote? && events[k].output != "" ::
      |Entry(events[k].stamp, events[k].output)| <= limit
  }

  /** No block is longer than `bound`. */
  ghost predicate BlocksWithin(sh: Shelf, bound: nat) {
    && |Concat(sh.live.GetOr([]))| <= bound
    && (forall k | 0 <= k < |sh.rotated| :: |Concat(sh.rotated[k])| <= bound)
  }

  lemma {:induction false} ShelfSizes(events: seq<Event>, log: Place, depth: nat, maxSize: nat, limit: nat)
    requires depth >= 1 && EntriesWithin(events, limit)
    ensures BlocksWithin(ShelfOf(events, log, depth, maxSize), (if maxSize == 0 then 0 else maxSize - 1) + limit)
  {
    if events != [] {
      var n := |events| - 1;
      ShelfSizes(events[..n], log, depth, maxSize, limit);
      var sh, e := ShelfOf(events[..n], log, depth, maxSize), events[n];
      if e.log == log && e.Wrote? && e.output != "" {
        var live := sh.live.GetOr([]);
        var next := if sh.live.Some? && |Concat(live)| >= maxSize then [] else live;
        ConcatAppend(next, [Entry(e.stamp, e.output)]);
        assert Concat([Entry(e.stamp, e.output)]) ==
               Entry(e.stamp, e.output) + Concat([Entry(e.stamp, e.output)][1..]);
      }
    }
  }

  lemma {:induction false} TotalSize(files: Files, log: Place, bound: nat, j: nat)
    requires forall i: nat | i <= j :: |At(files, log, i).GetOr("")| <= bound
    ensures SizeFrom(files, log, j) <= (j + 1) * bound
  {
    hide At;
    if j > 0 {
      TotalSize(files, log, bound, j - 1);
      var below := j * bound;
      assert (j + 1) * bound == below + bound;
    }
  }

  lemma BlocksBoundFiles(files: Files, log: Place, sh: Shelf, depth: nat, maxSize: nat, bound: nat)
    requires Holds(files, log, sh) && Sound(sh, depth, maxSize) && BlocksWithin(sh, bound)
    ensures forall j: nat | 1 <= j && At(files, log, j).Some? ::
              maxSize <= |At(files, log, j).value| <= bound
    ensures forall j: nat :: |At(files, log, j).GetOr("")| <= bound
  {
  }

  lemma FinalShelf(dirs: seq<Files>, events: seq<Event>, log: Place, depth: nat, maxSize: nat, limit: nat)
    returns (sh: Shelf)
    requires depth >= 1 && maxSize >= 1 && Run(dirs, events, depth, maxSize) && RemovalsClean(events, depth)
    requires EntriesWithin(events, limit)
    ensures Holds(dirs[|events|], log, sh) && Sound(sh, depth, maxSize)
    ensures BlocksWithin(sh, maxSize + limit - 1)
  {
    RunRefines(dirs, events, log, depth, maxSize);
    ShelfSizes(events, log, depth, maxSize, limit);
    sh := ShelfOf(events, log, depth, maxSize);
  }

  /** Size bound. With a positive size limit and entries of at most `limit` bytes, in every
      reachable state each rotated file holds between maxSize and maxSize + limit - 1 bytes,
      the live log at most maxSize + limit - 1, and the log uses at most depth + 1 times
      that much disk. */
  lemma SizeBound(dirs: seq<Files>, events: seq<Event>, log: Place, depth: nat, maxSize: nat, limit: nat)
    requires depth >= 1 && maxSize >= 1 && Run(dirs, events, depth, maxSize) && RemovalsClean(events, depth)
    requires EntriesWithin(events, limit)
    ensures forall j: nat | 1 <= j && At(dirs[|events|], log, j).Some? ::
              maxSize <= |At(dirs[|events|], log, j).value| <= maxSize + limit - 1
    ensures |At(dirs[|events|], log, 0).GetOr("")| <= maxSize + limit - 1
    ensures SizeFrom(dirs[|events|], log, depth) <= (depth + 1) * (maxSize + limit - 1)
  {
    hide Step, SizeFrom, At, EntriesWithin;
    var sh := FinalShelf(dirs, events, log, depth, maxSize, limit);
    BlocksBoundFiles(dirs[|events|], log, sh, depth, maxSize, maxSize + limit - 1);
    TotalSize(dirs[|events|], log, maxSize + limit - 1, depth);
  }
}
