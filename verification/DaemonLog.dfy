/** src/main.cc: what a managed daemon's executions leave in its log. */
module DaemonLog {
  import opened FilePaths
  import opened LogFiles
  import opened LogLines
  import opened LogHistory
  import opened Schedule
  import opened TickMachine
  import opened Configs
  import opened LaunchLine
  import opened Machines
  import Process

  /** Every command was started, and none of them wrote a NUL. */
  predicate CleanRuns(ticks: seq<Tick>) {
    forall k | 0 <= k < |ticks| :: ticks[k].launched && Process.NUL !in ticks[k].stream
  }

  /** A synchronous managed daemon hands exactly the output streams of its commands to the
      log, one per execution and in order. */
  lemma {:induction false} OutputsAreStreams(settings: Settings, start: int, firstDraw: int, ticks: seq<Tick>)
    requires settings.synchronous && settings.capture && CleanRuns(ticks)
    ensures var outputs, fired := Outcome(settings, Begin(settings, start, firstDraw), ticks).outputs,
        Fired(settings, ticks);
            && |outputs| == |fired|
            && (forall k | 0 <= k < |outputs| :: outputs[k] == fired[k].stream)
  {
    if ticks != [] {
      var last := ticks[|ticks| - 1];
      OutputsAreStreams(settings, start, firstDraw, ticks[..|ticks| - 1]);
      Process.CaptureIsIdentity(last.stream, Process.BUFFER_SIZE);
    }
  }

  /** One log write per output, with the stamps of the moments it happened. */
  function Writes(log: Place, outputs: seq<string>, stamps: seq<string>): seq<Event>
    requires |stamps| == |outputs|
  {
    seq(|outputs|, k requires 0 <= k < |outputs| => Wrote(log, stamps[k], outputs[k], true))
  }

  /** The entries a reader expects: every non-empty stream behind its stamp. */
  function Expected(ticks: seq<Tick>, stamps: seq<string>): seq<string>
    requires |stamps| == |ticks|
  {
    if ticks == [] then []
    else
      var n := |ticks| - 1;
      Expected(ticks[..n], stamps[..n]) + if ticks[n].stream == "" then [] else [Entry(stamps[n], ticks[n].stream)]
  }

  lemma {:induction false} HistoryOfWrites(log: Place, outputs: seq<string>, stamps: seq<string>, fired: seq<Tick>)
    requires |stamps| == |outputs| == |fired|
    requires forall k | 0 <= k < |outputs| :: outputs[k] == fired[k].stream
    ensures History(Writes(log, outputs, stamps), log) == Expected(fired, stamps)
  {
    if outputs != [] {
      var n := |outputs| - 1;
      HistoryOfWrites(log, outputs[..n], stamps[..n], fired[..n]);
      assert Writes(log, outputs, stamps)[..n] == Writes(log, outputs[..n], stamps[..n]);
    }
  }

  /** What a run leaves in the log: an entry with its output, or nothing. */
  predicate Shows(piece: string, stamp: string, stream: string) {
    if stream == "" then piece == "" else Stamped(piece, stamp, stream)
  }

  function Pieces(ticks: seq<Tick>, stamps: seq<string>): (pieces: seq<string>)
    requires |stamps| == |ticks|
    ensures |pieces| == |ticks|
    ensures forall k | 0 <= k < |ticks| :: Shows(pieces[k], stamps[k], ticks[k].stream)
  {
    seq(|ticks|, k requires 0 <= k < |ticks| => if ticks[k].stream == "" then "" else Entry(stamps[k], ticks[k].stream))
  }

  /** Dropping entries is dropping runs. */
  lemma {:induction false} DroppedRuns(ticks: seq<Tick>, stamps: seq<string>, lost: nat) returns (first: nat)
    requires |stamps| == |ticks| && lost <= |Expected(ticks, stamps)|
    ensures first <= |ticks| && (lost == 0 ==> first == 0)
    ensures Concat(Expected(ticks, stamps)[lost..]) == Concat(Pieces(ticks, stamps)[first..])
  {
    hide Concat, Stamped, Entry, Shows;
    first := 0;
    if ticks != [] {
      var n := |ticks| - 1;
      var before, pieces := Expected(ticks[..n], stamps[..n]), Pieces(ticks, stamps);
      if lost > |before| {
        first := n + 1;
        assert Expected(ticks, stamps)[lost..] == [] && pieces[first..] == [];
      } else {
        first := DroppedRuns(ticks[..n], stamps[..n], lost);
        var init, piece := Pieces(ticks[..n], stamps[..n]), pieces[n];
        PiecesOneMore(ticks, stamps);
        assert pieces[first..] == init[first..] + [piece];
        ConcatOneMore(init[first..], piece);
        if ticks[n].stream == "" {
          assert Expected(ticks, stamps)[lost..] == before[lost..];
          assert Concat(init[first..]) + "" == Concat(init[first..]);
        } else {
          assert Expected(ticks, stamps)[lost..] == before[lost..] + [piece];
          ConcatOneMore(before[lost..], piece);
        }
      }
    }
  }

  lemma PiecesOneMore(ticks: seq<Tick>, stamps: seq<string>)
    requires |stamps| == |ticks| && ticks != []
    ensures var n := |ticks| - 1;
            && Pieces(ticks, stamps) == Pieces(ticks[..n], stamps[..n]) + [Pieces(ticks, stamps)[n]]
            && Pieces(ticks, stamps)[n] == if ticks[n].stream == "" then "" else Entry(stamps[n], ticks[n].stream)
  {
    hide Entry, Stamped, Shows;
  }

  lemma LogHoldsEntries(settings: Settings, start: int, firstDraw: int, ticks: seq<Tick>, log: Place,
                        stamps: seq<string>, dirs: seq<Files>, depth: nat, maxSize: nat) returns (lost: nat)
    requires settings.synchronous && settings.capture && CleanRuns(ticks) && depth >= 1
    requires |stamps| == |Outcome(settings, Begin(settings, start, firstDraw), ticks).outputs|
    requires Run(dirs, Writes(log, Outcome(settings, Begin(settings, start, firstDraw), ticks).outputs, stamps),
        depth, maxSize)
    ensures |stamps| == |Fired(settings, ticks)| && |dirs| == |stamps| + 1
    ensures lost <= |Expected(Fired(settings, ticks), stamps)|
    ensures TextFrom(dirs[|stamps|], log, depth) == Concat(Expected(Fired(settings, ticks), stamps)[lost..])
    ensures lost == 0 || SizeFrom(dirs[|stamps|], log, depth) >= depth * maxSize + SizeFrom(dirs[|stamps|], log, 0)
  {
    var outputs := Outcome(settings, Begin(settings, start, firstDraw), ticks).outputs;
    OutputsAreStreams(settings, start, firstDraw, ticks);
    HistoryOfWrites(log, outputs, stamps, Fired(settings, ticks));
    lost := Retention(dirs, Writes(log, outputs, stamps), log, depth, maxSize);
  }

  /** From executions to log: whatever a synchronous managed daemon ran, its log files hold, one
      behind the other, the stamped outputs of the commands it ran, from one of them to the last,
      each of them whole; and output is missing only if the rotated files are all in use and full. */
  lemma LogHoldsOutputs(settings: Settings, start: int, firstDraw: int, ticks: seq<Tick>, log: Place,
                        stamps: seq<string>, dirs: seq<Files>, depth: nat, maxSize: nat)
    returns (first: nat, pieces: seq<string>)
    requires settings.synchronous && settings.capture && CleanRuns(ticks) && depth >= 1
    requires |stamps| == |Outcome(settings, Begin(settings, start, firstDraw), ticks).outputs|
    requires Run(dirs, Writes(log, Outcome(settings, Begin(settings, start, firstDraw), ticks).outputs, stamps),
        depth, maxSize)
    ensures |stamps| == |Fired(settings, ticks)| && |dirs| == |stamps| + 1
    ensures first + |pieces| == |stamps| && TextFrom(dirs[|stamps|], log, depth) == Concat(pieces)
    ensures forall k | 0 <= k < |pieces| ::
              Shows(pieces[k], stamps[first + k], Fired(settings, ticks)[first + k].stream)
    ensures first == 0 || SizeFrom(dirs[|stamps|], log, depth) >= depth * maxSize + SizeFrom(dirs[|stamps|], log, 0)
  {
    hide *;
    var lost := LogHoldsEntries(settings, start, firstDraw, ticks, log, stamps, dirs, depth, maxSize);
    first := DroppedRuns(Fired(settings, ticks), stamps, lost);
    pieces := Pieces(Fired(settings, ticks), stamps)[first..];
  }

  /** What the daemon of a configuration is told: output is captured for named services only. */
  function SettingsOf(c: Config): Settings {
    Settings(TimingOf(c), c.synchronous, c.serviceName != "")
  }

  /** What it hands to its log. */
  function OutputsOf(c: Config, start: int, firstDraw: int, ticks: seq<Tick>): seq<string> {
    Outcome(SettingsOf(c), Begin(SettingsOf(c), start, firstDraw), ticks).outputs
  }

  /** These ticks make the daemon hand some text to its log. */
  ghost predicate HandsOver(c: Config, start: int, firstDraw: int, ticks: seq<Tick>) {
    && (forall k | 0 <= k < |ticks| :: UnitDraw(ticks[k].fireDraw))
    && exists text :: text in OutputsOf(c, start, firstDraw, ticks) && text != ""
  }

  /** A daemon can write to its log at all exactly if it has a service name, runs its commands
      synchronously, and has a positive probability. */
  lemma LogsIff(c: Config, start: int, firstDraw: int)
    ensures Logs(c) <==> exists ticks :: HandsOver(c, start, firstDraw, ticks)
  {
    if Logs(c) {
      var tick := Tick(0, 0.0, 0, "x", true, Process.Exited(0), 0, false, 0, 0, 0);
      OneOutput(c, start, firstDraw, tick);
      assert "x" in OutputsOf(c, start, firstDraw, [tick]);
      assert HandsOver(c, start, firstDraw, [tick]);
    } else {
      forall ticks | HandsOver(c, start, firstDraw, ticks) ensures false {
        SilentWithout(c, Begin(SettingsOf(c), start, firstDraw), ticks);
      }
    }
  }

  lemma OneOutput(c: Config, start: int, firstDraw: int, tick: Tick)
    requires Logs(c) && tick.fireDraw == 0.0 && tick.launched && tick.stream == "x"
    ensures OutputsOf(c, start, firstDraw, [tick]) == ["x"]
  {
    hide Delay;
    assert [tick][..0] == [];
    Process.CaptureIsIdentity("x", Process.BUFFER_SIZE);
    assert Outcome(SettingsOf(c), Begin(SettingsOf(c), start, firstDraw), [tick]).outputs == ["x"];
  }

  lemma {:induction false} SilentWithout(c: Config, st: Progress, ticks: seq<Tick>)
    requires !Logs(c) && forall k | 0 <= k < |ticks| :: UnitDraw(ticks[k].fireDraw)
    ensures Outcome(SettingsOf(c), st, ticks).outputs == st.outputs
  {
    hide Delay;
    if ticks != [] {
      SilentWithout(c, st, ticks[..|ticks| - 1]);
    }
  }
}
