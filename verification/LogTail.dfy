/** What the tail reader returns on files the log manager wrote. */
module LogTail {
  import opened Options
  import opened FilePaths
  import opened LogFiles
  import opened LogLines
  import opened LogHistory

  /** What ReadLog returns for a live log with these contents. */
  function Tail(text: string, n: int): string {
    Unlines(LastLines(Lines(text), n))
  }

  predicate Terminated(text: string) {
    text == "" || text[|text| - 1] == '\n'
  }

  function Newlines(text: string): nat {
    if text == "" then 0 else (if text[0] == '\n' then 1 else 0) + Newlines(text[1..])
  }

  lemma {:induction false} GetLineAppend(a: string, b: string)
    requires a != "" && Terminated(a)
    ensures GetLine(a + b) == (GetLine(a).0, GetLine(a).1 + b)
    ensures Terminated(GetLine(a).1)
  {
    var s, t := a + b, a[1..];
    assert s[0] == a[0] && s[1..] == t + b;
    if a[0] != '\n' {
      assert |a| > 1 && Terminated(t);
      GetLineAppend(t, b);
      assert GetLine(s) == ([a[0]] + GetLine(t + b).0, GetLine(t + b).1);
      assert GetLine(a) == ([a[0]] + GetLine(t).0, GetLine(t).1);
    }
  }

  lemma {:induction false} LinesAppend(a: string, b: string)
    requires Terminated(a)
    ensures Lines(a + b) == Lines(a) + Lines(b)
    decreases |a|
  {
    if a == "" {
      assert a + b == b;
    } else {
      GetLineAppend(a, b);
      LinesAppend(GetLine(a).1, b);
      LinesAppendStep(a, b);
    }
  }

  lemma LinesAppendStep(a: string, b: string)
    requires a != "" && GetLine(a + b) == (GetLine(a).0, GetLine(a).1 + b)
    requires Lines(GetLine(a).1 + b) == Lines(GetLine(a).1) + Lines(b)
    ensures Lines(a + b) == Lines(a) + Lines(b)
  {
  }

  lemma {:induction false} UnlinesLines(text: string)
    requires Terminated(text)
    ensures Unlines(Lines(text)) == text
    ensures |Lines(text)| == Newlines(text)
    decreases |text|
  {
    if text != "" {
      var (line, rest) := GetLine(text);
      GetLineAppend(text, "");
      UnlinesLines(rest);
      NoNewlines(line);
      NewlinesAppend(line + "\n", rest);
      NewlinesAppend(line, "\n");
    }
  }

  lemma {:induction false} NoNewlines(line: string)
    requires '\n' !in line
    ensures Newlines(line) == 0
  {
    if line != "" {
      NoNewlines(line[1..]);
    }
  }

  lemma {:induction false} NewlinesAppend(a: string, b: string)
    ensures Newlines(a + b) == Newlines(a) + Newlines(b)
  {
    if a == "" {
      assert a + b == b;
    } else {
      NewlinesAppend(a[1..], b);
      assert (a + b)[1..] == a[1..] + b;
    }
  }

  lemma {:induction false} UnlinesAppend(a: seq<string>, b: seq<string>)
    ensures Unlines(a + b) == Unlines(a) + Unlines(b)
  {
    if a == [] {
      assert a + b == b;
    } else {
      UnlinesAppend(a[1..], b);
      assert (a + b)[1..] == a[1..] + b;
      var head := a[0] + "\n";
      assert head + (Unlines(a[1..]) + Unlines(b)) == (head + Unlines(a[1..])) + Unlines(b);
    }
  }

  lemma {:induction false} UnlinesTerminated(lines: seq<string>)
    ensures Terminated(Unlines(lines))
  {
    if lines != [] {
      UnlinesTerminated(lines[1..]);
    }
  }

  lemma {:induction false} UnlinesCount(lines: seq<string>)
    requires forall k | 0 <= k < |lines| :: '\n' !in lines[k]
    ensures Newlines(Unlines(lines)) == |lines|
  {
    if lines != [] {
      UnlinesCount(lines[1..]);
      NoNewlines(lines[0]);
      NewlinesAppend(lines[0], "\n");
      NewlinesAppend(lines[0] + "\n", Unlines(lines[1..]));
    }
  }

  lemma {:induction false} LinesHaveNoNewline(text: string)
    ensures forall k | 0 <= k < |Lines(text)| :: '\n' !in Lines(text)[k]
    decreases |text|
  {
    if text != "" {
      LinesHaveNoNewline(GetLine(text).1);
    }
  }

  /** On newline-terminated text the reader returns the unique suffix that starts at the
      beginning of a line and has min(max(0, n), line count) lines. */
  lemma TailIsLastLines(text: string, n: int) returns (start: nat)
    requires Terminated(text)
    ensures start <= |text| && Tail(text, n) == text[start..]
    ensures start == 0 || text[start - 1] == '\n'
    ensures Newlines(Tail(text, n)) == if n <= 0 then 0 else if n >= Newlines(text) then Newlines(text) else n
    ensures n >= Newlines(text) ==> start == 0
  {
    var lines := Lines(text);
    var last := LastLines(lines, n);
    var first := lines[..|lines| - |last|];
    assert lines == first + last;
    UnlinesLines(text);
    UnlinesAppend(first, last);
    LinesHaveNoNewline(text);
    UnlinesCount(last);
    UnlinesTerminated(first);
    start := |Unlines(first)|;
    assert n >= Newlines(text) ==> first == [];
  }

  lemma {:induction false} ConcatTerminated(entries: seq<string>)
    requires forall k | 0 <= k < |entries| :: entries[k] != "" && Terminated(entries[k])
    ensures Terminated(Concat(entries))
  {
    if entries != [] {
      ConcatTerminated(entries[1..]);
    }
  }

  lemma {:induction false} HistoryTerminated(events: seq<Event>, log: Place)
    ensures forall k | 0 <= k < |History(events, log)| ::
              History(events, log)[k] != "" && Terminated(History(events, log)[k])
  {
    if events != [] {
      HistoryTerminated(events[..|events| - 1], log);
    }
  }

  /** Every live log in every run is newline-terminated, so TailIsLastLines applies to it. */
  lemma LiveLogTerminated(dirs: seq<Files>, events: seq<Event>, log: Place, depth: nat, maxSize: nat)
    requires depth >= 1 && Run(dirs, events, depth, maxSize) && RemovalsClean(events, depth)
    ensures Terminated(At(dirs[|events|], log, 0).GetOr(""))
  {
    RunRefines(dirs, events, log, depth, maxSize);
    HistoryTerminated(events, log);
    var sh := ShelfOf(events, log, depth, maxSize);
    assert At(dirs[|events|], log, 0) == BlockAt(sh, 0);
    LiveIsSuffix(sh);
    SuffixTerminated(History(events, log), sh.live.GetOr([]));
  }

  lemma LiveIsSuffix(sh: Shelf)
    ensures var all, live := sh.Entries(), sh.live.GetOr([]);
            |live| <= |all| && live == all[|all| - |live|..]
  {
  }

  lemma SuffixTerminated(all: seq<string>, last: seq<string>)
    requires forall k | 0 <= k < |all| :: all[k] != "" && Terminated(all[k])
    requires |last| <= |all| && last == all[|all| - |last|..]
    ensures Terminated(Concat(last))
  {
    ConcatTerminated(last);
  }

  /** Right after a successful write, reading as many lines as the entry has gives back the
      entry, whether or not the write rotated the log. */
  lemma ReadBackEntry(dirs: seq<Files>, events: seq<Event>, depth: nat, maxSize: nat)
    requires depth >= 1 && Run(dirs, events, depth, maxSize) && RemovalsClean(events, depth)
    requires events != [] && events[|events| - 1].Wrote?
    requires events[|events| - 1].output != "" && events[|events| - 1].opens
    ensures var e := events[|events| - 1];
            var entry := Entry(e.stamp, e.output);
            Tail(At(dirs[|events|], e.log, 0).GetOr(""), |Lines(entry)|) == entry
            && Stamped(entry, e.stamp, e.output)
  {
    var n, e := |events| - 1, events[|events| - 1];
    var entry := Entry(e.stamp, e.output);
    LiveLogTerminated(dirs[..n + 1], events[..n], e.log, depth, maxSize);
    assert Step(dirs[n], dirs[n + 1], e, depth, maxSize);
    var kept := if NeedsRotation(dirs[n], e.log, maxSize) then "" else At(dirs[n], e.log, 0).GetOr("");
    assert At(dirs[n + 1], e.log, 0) == Some(kept + entry);
    LinesAppend(kept, entry);
    var lines := Lines(kept) + Lines(entry);
    assert LastLines(lines, |Lines(entry)|) == Lines(entry);
    UnlinesLines(entry);
  }
}
