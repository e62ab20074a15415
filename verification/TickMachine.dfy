/** The reference machine behind the executor: one pending wait, moved on tick by tick; and
    what holds over every run of it. */
module TickMachine {
  import opened Arithmetic
  import opened Schedule
  import Process

  /** Everything the outside world decides about one tick: how late the handler runs, the
      two random draws, the command's run, whether fork works, and how many children exit
      before the tick, between fork and the first waitpid, and between the two waitpids. */
  datatype Tick = Tick(late: nat, fireDraw: real, delayDraw: int,
                       stream: string, launched: bool, status: Process.ExitStatus, duration: nat,
                       forkWorks: bool, exitsBefore: nat, exitsAfterFork: nat, exitsBetween: nat)

  /** One thing that happens to the event loop: the timer expires, stop() is called from
      another thread, or the wait completes with an error other than an abort (then the
      handler ignores the rest of the tick). */
  datatype LoopEvent = Ticked(tick: Tick) | Stopped | Faulted(tick: Tick)

  /** The kernel's view of the daemon's children: running, or dead and not yet waited for. */
  datatype Children = Children(live: nat, dead: nat, peak: nat) {
    function Exit(k: nat): Children {
      var n := if k <= live then k else live;
      Children(live - n, dead + n, peak)
    }

    function Fork(): Children {
      Children(live + 1, dead, if peak < live + 1 then live + 1 else peak)
    }

    /** waitpid(-1, WNOHANG): takes one dead child if there is one. */
    function Reap(): Children {
      if dead > 0 then Children(live, dead - 1, peak) else this
    }

    function Unreaped(): nat {
      live + dead
    }
  }

  datatype Settings = Settings(timing: Timing, synchronous: bool, capture: bool)

  /** What an execution of the daemon amounts to: when the next tick is due, what was counted,
      and what was run. `waited`, `busy` and `lateness` add up where the time went. */
  datatype Progress = Progress(now: int, due: int, executions: nat, skips: nat, children: Children,
                               ticks: seq<int>, runs: seq<(int, int)>, outputs: seq<string>,
                               waited: int, busy: int, lateness: int)

  function Start(now: int, due: int): Progress {
    Progress(now, due, 0, 0, Children(0, 0, 0), [], [], [], 0, 0, 0)
  }

  /** Up to the moment the handler runs. */
  function Waited(st: Progress, tick: Tick): Progress {
    st.(children := st.children.Exit(tick.exitsBefore),
        waited := st.waited + Max(0, st.due - st.now),
        lateness := st.lateness + tick.late,
        now := Max(st.now, st.due) + tick.late)
  }

  function CapturedOutput(tick: Tick): string {
    if tick.launched then Process.Captured(tick.stream, Process.BUFFER_SIZE) else ""
  }

  function AfterFork(c: Children, tick: Tick): Children {
    if tick.forkWorks then c.Fork().Exit(tick.exitsAfterFork).Reap().Exit(tick.exitsBetween).Reap() else c
  }

  /** The handler itself: skip, or run to completion and then wait, or wait and fork. */
  function Handled(settings: Settings, st: Progress, tick: Tick): Progress {
    var seen := st.(ticks := st.ticks + [st.now]);
    var delay := Delay(settings.timing, tick.delayDraw);
    if !Fires(settings.timing.probability, tick.fireDraw) then
      seen.(skips := st.skips + 1, due := st.now + delay)
    else if settings.synchronous then
      var end := st.now + tick.duration;
      seen.(executions := st.executions + 1, now := end, due := end + delay,
            runs := st.runs + [(st.now, end)], busy := st.busy + tick.duration,
            outputs := st.outputs + if settings.capture then [CapturedOutput(tick)] else [])
    else
      seen.(executions := st.executions + 1, due := st.now + delay, children := AfterFork(st.children, tick))
  }

  function OneTick(settings: Settings, st: Progress, tick: Tick): Progress {
    Handled(settings, Waited(st, tick), tick)
  }

  function Outcome(settings: Settings, st: Progress, ticks: seq<Tick>): Progress {
    if ticks == [] then st
    else OneTick(settings, Outcome(settings, st, ticks[..|ticks| - 1]), ticks[|ticks| - 1])
  }

  /** No stop and no fault among the first k events. */
  predicate Calm(script: seq<LoopEvent>, k: nat)
    requires k <= |script|
  {
    forall i | 0 <= i < k :: script[i].Ticked?
  }

  /** The ticks served among the first k events: those before the first stop or fault. */
  function ServedUpTo(script: seq<LoopEvent>, k: nat): seq<Tick>
    requires k <= |script|
  {
    if k == 0 then []
    else if Calm(script, k) then ServedUpTo(script, k - 1) + [script[k - 1].tick]
    else ServedUpTo(script, k - 1)
  }

  predicate Uninterrupted(script: seq<LoopEvent>) {
    Calm(script, |script|)
  }

  function Served(script: seq<LoopEvent>): seq<Tick> {
    ServedUpTo(script, |script|)
  }

  /** Serving event k is one step of the reference machine, or nothing at all. */
  lemma ServedStep(settings: Settings, st: Progress, script: seq<LoopEvent>, k: nat)
    requires k < |script|
    ensures Calm(script, k + 1) <==> Calm(script, k) && script[k].Ticked?
    ensures Outcome(settings, st, ServedUpTo(script, k + 1)) ==
              var before := Outcome(settings, st, ServedUpTo(script, k));
              if Calm(script, k + 1) then OneTick(settings, before, script[k].tick) else before
  {
  }

  /** The reference machine, started in st, has arrived at `now` after the first k events. */
  predicate Reached(settings: Settings, st: Progress, script: seq<LoopEvent>, k: nat, now: Progress)
    requires k <= |script|
  {
    now == Outcome(settings, st, ServedUpTo(script, k))
  }

  lemma ReachedStep(settings: Settings, st: Progress, script: seq<LoopEvent>, k: nat,
                                       before: Progress, after: Progress)
    requires k < |script| && Calm(script, k) && Reached(settings, st, script, k, before)
    requires after == if script[k].Ticked? then OneTick(settings, before, script[k].tick) else before
    ensures Reached(settings, st, script, k + 1, after)
  {
    ServedStep(settings, st, script, k);
  }

  lemma {:induction false} NothingServedAfterInterruption(script: seq<LoopEvent>, k: nat)
    requires k <= |script| && !Calm(script, k)
    ensures Served(script) == ServedUpTo(script, k) && !Uninterrupted(script)
    decreases |script| - k
  {
    if k < |script| {
      NothingServedAfterInterruption(script, k + 1);
    }
  }

  /** An uninterrupted script serves its ticks in order; any other one serves its first part. */
  lemma {:induction false} ServedTicks(script: seq<LoopEvent>, k: nat)
    requires k <= |script| && Calm(script, k)
    ensures |ServedUpTo(script, k)| == k
    ensures forall i | 0 <= i < k :: ServedUpTo(script, k)[i] == script[i].tick
  {
    if k > 0 {
      ServedTicks(script, k - 1);
    }
  }

  /** Every delivered tick was either an execution or a skip. */
  lemma {:induction false} TicksAreCounted(settings: Settings, st: Progress, ticks: seq<Tick>)
    requires st.executions + st.skips == |st.ticks|
    ensures var end := Outcome(settings, st, ticks);
            end.executions + end.skips == |end.ticks| == |st.ticks| + |ticks|
  {
    if ticks != [] {
      TicksAreCounted(settings, st, ticks[..|ticks| - 1]);
    }
  }

  /** The ticks on which the command is run, in order. */
  function Fired(settings: Settings, ticks: seq<Tick>): seq<Tick> {
    if ticks == [] then []
    else
      var (before, last) := (ticks[..|ticks| - 1], ticks[|ticks| - 1]);
      Fired(settings, before) + if Fires(settings.timing.probability, last.fireDraw) then [last] else []
  }

  /** In both modes the executions are the ticks that fire, and the skips are the others. */
  lemma {:induction false} ExecutionsAreFirings(settings: Settings, st: Progress, ticks: seq<Tick>)
    ensures var end := Outcome(settings, st, ticks);
            && end.executions == st.executions + |Fired(settings, ticks)|
            && end.skips + |Fired(settings, ticks)| == st.skips + |ticks|
  {
    if ticks != [] {
      ExecutionsAreFirings(settings, st, ticks[..|ticks| - 1]);
    }
  }

  lemma {:induction false} FiredIsCount(settings: Settings, ticks: seq<Tick>, n: nat)
    requires n > 0 && |ticks| <= n
    requires forall i | 0 <= i < |ticks| :: ticks[i].fireDraw == i as real / n as real
    ensures |Fired(settings, ticks)| == FireCount(settings.timing.probability, n, |ticks|)
  {
    if ticks != [] {
      FiredIsCount(settings, ticks[..|ticks| - 1], n);
    }
  }

  /** A service with probability k/n executes on exactly k of n ticks with evenly spread draws. */
  lemma ExecutesInProportion(settings: Settings, start: int, firstDraw: int, ticks: seq<Tick>, k: nat)
    requires ticks != [] && k <= |ticks| && settings.timing.probability == k as real / |ticks| as real
    requires forall i | 0 <= i < |ticks| :: ticks[i].fireDraw == i as real / |ticks| as real
    ensures Outcome(settings, Begin(settings, start, firstDraw), ticks).executions == k
    ensures Outcome(settings, Begin(settings, start, firstDraw), ticks).skips == |ticks| - k
  {
    hide Fires, Delay, Outcome, FireCount;
    ExecutionsAreFirings(settings, Begin(settings, start, firstDraw), ticks);
    FiredIsCount(settings, ticks, |ticks|);
    FiresInProportion(k, |ticks|);
  }

  /** The daemon at time `start`, with its first wait armed. */
  function Begin(settings: Settings, start: int, firstDraw: int): Progress {
    Start(start, start + Delay(settings.timing, firstDraw))
  }

  /** A timing whose delays stay within their bounds, and draws within the range of their
      distribution. */
  predicate Orderly(t: Timing, firstDraw: int, ticks: seq<Tick>) {
    && InRange(t)
    && PossibleDraw(t, firstDraw)
    && (forall k | 0 <= k < |ticks| :: PossibleDraw(t, ticks[k].delayDraw))
  }

  /** n ticks after `start`: the k-th tick came no earlier than k shortest waits after the
      start, the clock has advanced by exactly the waits, the command runs and the lateness,
      and the waits alone took at least one shortest wait per tick. */
  ghost predicate Paced(st: Progress, start: int, shortest: int, n: nat) {
    && |st.ticks| == n
    && (forall k | 0 <= k < n :: start + (k + 1) * shortest <= st.ticks[k] <= st.now)
    && st.now == start + st.waited + st.busy + st.lateness
    && st.busy >= 0 && st.lateness >= 0
    && st.waited >= n * shortest
    && st.due >= st.now + shortest
  }

  lemma PacedStep(settings: Settings, st: Progress, tick: Tick, start: int, n: nat)
    requires InRange(settings.timing) && PossibleDraw(settings.timing, tick.delayDraw)
    requires Paced(st, start, Shortest(settings.timing), n)
    ensures Paced(OneTick(settings, st, tick), start, Shortest(settings.timing), n + 1)
  {
    var shortest, after := Shortest(settings.timing), OneTick(settings, st, tick);
    DelayBounds(settings.timing, tick.delayDraw);
    MulStep(n + 1, shortest);
    var now := st.due + tick.late;
    assert after.ticks == st.ticks + [now] && after.now >= now;
    assert after.waited == st.waited + (st.due - st.now) >= (n + 1) * shortest;
  }

  /** Rate bound, for every number of ticks and whatever is drawn. */
  lemma {:induction false} RateBound(settings: Settings, start: int, firstDraw: int, ticks: seq<Tick>)
    requires Orderly(settings.timing, firstDraw, ticks)
    ensures Shortest(settings.timing) >= 1
    ensures Paced(Outcome(settings, Begin(settings, start, firstDraw), ticks), start, Shortest(settings.timing),
        |ticks|)
  {
    DelayBounds(settings.timing, firstDraw);
    if ticks != [] {
      var n := |ticks| - 1;
      RateBound(settings, start, firstDraw, ticks[..n]);
      PacedStep(settings, Outcome(settings, Begin(settings, start, firstDraw), ticks[..n]), ticks[n], start, n);
    }
  }

  lemma MulStep(n: int, d: int)
    ensures n * d == (n - 1) * d + d
  {
  }

  /** The delay armed after these ticks. */
  function NextDelay(settings: Settings, firstDraw: int, ticks: seq<Tick>): int {
    Delay(settings.timing, if ticks == [] then firstDraw else ticks[|ticks| - 1].delayDraw)
  }

  function DelaySum(settings: Settings, firstDraw: int, ticks: seq<Tick>): int {
    if ticks == [] then 0
    else DelaySum(settings, firstDraw, ticks[..|ticks| - 1]) + NextDelay(settings, firstDraw, ticks[..|ticks| - 1])
  }

  function LateSum(ticks: seq<Tick>): nat {
    if ticks == [] then 0 else LateSum(ticks[..|ticks| - 1]) + ticks[|ticks| - 1].late
  }

  function DurationSum(ticks: seq<Tick>): nat {
    if ticks == [] then 0 else DurationSum(ticks[..|ticks| - 1]) + ticks[|ticks| - 1].duration
  }

  lemma ClockStep(settings: Settings, st: Progress, tick: Tick)
    requires st.due >= st.now
    ensures var end := OneTick(settings, st, tick);
            && end.now == st.due + tick.late
                          + (if settings.synchronous && Fires(settings.timing.probability, tick.fireDraw)
                             then tick.duration else 0)
            && end.due == end.now + Delay(settings.timing, tick.delayDraw)
            && end.lateness == st.lateness + tick.late
  {
    hide Delay, Fires;
  }

  lemma FiredStep(settings: Settings, ticks: seq<Tick>)
    requires ticks != []
    ensures var last := ticks[|ticks| - 1];
            DurationSum(Fired(settings, ticks)) == DurationSum(Fired(settings, ticks[..|ticks| - 1]))
              + if Fires(settings.timing.probability, last.fireDraw) then last.duration else 0
  {
    hide Fires;
    var fired, last := Fired(settings, ticks[..|ticks| - 1]), ticks[|ticks| - 1];
    assert Fired(settings, ticks) ==
           if Fires(settings.timing.probability, last.fireDraw) then fired + [last] else fired;
    assert (fired + [last])[..|fired|] == fired;
  }

  /** The clock after any ticks, exactly: the delays that were drawn, the lateness, and, if the
      daemon is synchronous, the time the executed commands took; the next tick is due one more
      drawn delay later. */
  lemma {:induction false} ClockIsSum(settings: Settings, start: int, firstDraw: int, ticks: seq<Tick>)
    requires Orderly(settings.timing, firstDraw, ticks)
    ensures var end := Outcome(settings, Begin(settings, start, firstDraw), ticks);
            && end.now == start + DelaySum(settings, firstDraw, ticks) + LateSum(ticks)
                          + (if settings.synchronous then DurationSum(Fired(settings, ticks)) else 0)
            && end.due == end.now + NextDelay(settings, firstDraw, ticks)
            && end.lateness == LateSum(ticks)
  {
    hide Delay, Fires, Fired, OneTick, InRange, PossibleDraw;
    if ticks != [] {
      var before := ticks[..|ticks| - 1];
      ClockIsSum(settings, start, firstDraw, before);
      DelayBounds(settings.timing, if before == [] then firstDraw else before[|before| - 1].delayDraw);
      ClockStep(settings, Outcome(settings, Begin(settings, start, firstDraw), before), ticks[|before|]);
      FiredStep(settings, ticks);
    } else {
      assert Fired(settings, ticks) == [] by {
        NothingFired(settings);
      }
    }
  }

  lemma NothingFired(settings: Settings)
    ensures Fired(settings, []) == []
  {
  }

  /** The moments at which a command was run. */
  function FiringTimes(settings: Settings, ticks: seq<Tick>, times: seq<int>): seq<int>
    requires |times| == |ticks|
  {
    if ticks == [] then []
    else
      var n := |ticks| - 1;
      FiringTimes(settings, ticks[..n], times[..n])
      + if Fires(settings.timing.probability, ticks[n].fireDraw) then [times[n]] else []
  }

  /** The k-th run of a synchronous daemon starts at the k-th tick that fires, and takes as long as
      the command does. */
  lemma {:induction false} RunsAtFirings(settings: Settings, start: int, firstDraw: int, ticks: seq<Tick>)
    requires settings.synchronous
    ensures var end := Outcome(settings, Begin(settings, start, firstDraw), ticks);
            && |end.ticks| == |ticks|
            && |end.runs| == |Fired(settings, ticks)| == |FiringTimes(settings, ticks, end.ticks)|
            && forall k | 0 <= k < |end.runs| ::
                 && end.runs[k].0 == FiringTimes(settings, ticks, end.ticks)[k]
                 && end.runs[k].1 == end.runs[k].0 + Fired(settings, ticks)[k].duration
  {
    if ticks != [] {
      var n := |ticks| - 1;
      RunsAtFirings(settings, start, firstDraw, ticks[..n]);
      var before, end := Outcome(settings, Begin(settings, start, firstDraw), ticks[..n]),
                         Outcome(settings, Begin(settings, start, firstDraw), ticks);
      assert end.ticks[..n] == before.ticks;
    }
  }

  /** At most floor(span / shortest wait) ticks happen within `span` milliseconds of the start. */
  lemma TicksWithin(settings: Settings, start: int, firstDraw: int, ticks: seq<Tick>, span: nat, n: nat)
    requires Orderly(settings.timing, firstDraw, ticks)
    requires n <= |Outcome(settings, Begin(settings, start, firstDraw), ticks).ticks|
    requires forall k | 0 <= k < n ::
        Outcome(settings, Begin(settings, start, firstDraw), ticks).ticks[k] <= start + span
    ensures Shortest(settings.timing) >= 1 && n <= span / Shortest(settings.timing)
  {
    RateBound(settings, start, firstDraw, ticks);
    var end, shortest := Outcome(settings, Begin(settings, start, firstDraw), ticks), Shortest(settings.timing);
    if n > 0 {
      assert start + n * shortest <= end.ticks[n - 1];
    }
    QuotientBound(n, shortest, span);
  }

  lemma QuotientBound(n: nat, d: int, span: nat)
    requires d >= 1 && n * d <= span
    ensures n <= span / d
  {
    var q := span / d;
    if n > q {
      MulStep(q + 1, d);
      MulMonotone(q + 1, n, d);
    }
  }

  /** Command runs that follow each other, at least `gap` apart. */
  ghost predicate Disjoint(st: Progress, gap: int) {
    && (forall k | 0 <= k < |st.runs| :: st.runs[k].0 <= st.runs[k].1 <= st.now)
    && (forall i, j | 0 <= i < j < |st.runs| :: st.runs[i].1 + gap <= st.runs[j].0)
  }

  lemma DisjointStep(settings: Settings, st: Progress, tick: Tick, gap: int)
    requires gap >= 0 && Disjoint(st, gap) && st.due >= st.now + gap
    ensures Disjoint(OneTick(settings, st, tick), gap)
  {
  }

  /** Synchronous commands never overlap: each starts at least one shortest wait after the
      previous one ended. */
  lemma {:induction false} RunsDisjoint(settings: Settings, start: int, firstDraw: int, ticks: seq<Tick>)
    requires Orderly(settings.timing, firstDraw, ticks)
    ensures Disjoint(Outcome(settings, Begin(settings, start, firstDraw), ticks), Shortest(settings.timing))
  {
    if ticks != [] {
      var n := |ticks| - 1;
      RunsDisjoint(settings, start, firstDraw, ticks[..n]);
      RateBound(settings, start, firstDraw, ticks[..n]);
      DisjointStep(settings, Outcome(settings, Begin(settings, start, firstDraw), ticks[..n]), ticks[n],
        Shortest(settings.timing));
    }
  }

  /** Children that are not yet waited for never outnumber the largest crowd of simultaneously
      live children so far. */
  predicate NoAccumulation(c: Children) {
    c.live <= c.peak && c.Unreaped() <= c.peak
  }

  /** No zombie accumulation, after every tick of every run: executed, skipped or with a
      failed fork, and wherever in between children exit. */
  lemma {:induction false} ZombiesBounded(settings: Settings, start: int, due: int, ticks: seq<Tick>)
    ensures NoAccumulation(Outcome(settings, Start(start, due), ticks).children)
  {
    if ticks != [] {
      ZombiesBounded(settings, start, due, ticks[..|ticks| - 1]);
    }
  }

  /** The largest number of children alive right after a fork. */
  function LargestCrowd(settings: Settings, start: int, due: int, ticks: seq<Tick>): nat {
    if ticks == [] then 0
    else
      var (before, last) := (ticks[..|ticks| - 1], ticks[|ticks| - 1]);
      var children := Outcome(settings, Start(start, due), before).children;
      Max(LargestCrowd(settings, start, due, before),
          if Forks(settings, last) then children.Exit(last.exitsBefore).live + 1 else 0)
  }

  /** What the bound is measured by is that crowd, and in synchronous mode there are no children. */
  lemma {:induction false} PeakIsLargestCrowd(settings: Settings, start: int, due: int, ticks: seq<Tick>)
    ensures var c := Outcome(settings, Start(start, due), ticks).children;
            c.peak == LargestCrowd(settings, start, due, ticks) && (settings.synchronous ==> c == Children(0, 0, 0))
  {
    hide Delay, Fires;
    if ticks != [] {
      PeakIsLargestCrowd(settings, start, due, ticks[..|ticks| - 1]);
    }
  }

  /** The tick forks a child, and both waitpid calls find a dead one. */
  predicate ReapsTwice(settings: Settings, st: Progress, tick: Tick) {
    && Forks(settings, tick)
    && var c := st.children.Exit(tick.exitsBefore).Fork().Exit(tick.exitsAfterFork);
       c.dead > 0 && c.Reap().Exit(tick.exitsBetween).dead > 0
  }

  predicate Forks(settings: Settings, tick: Tick) {
    !settings.synchronous && Fires(settings.timing.probability, tick.fireDraw) && tick.forkWorks
  }

  function ForkCount(settings: Settings, ticks: seq<Tick>): nat {
    if ticks == [] then 0
    else ForkCount(settings, ticks[..|ticks| - 1]) + if Forks(settings, ticks[|ticks| - 1]) then 1 else 0
  }

  /** Starting with U unreaped children, among any U + 1 ticks that fork there is one where a
      waitpid finds nothing: as long as both always reap, each such tick uses up one of U. */
  lemma {:induction false} SomeWaitFindsNothing(settings: Settings, st: Progress, ticks: seq<Tick>)
    requires forall k | 0 <= k < |ticks| && Forks(settings, ticks[k]) ::
               ReapsTwice(settings, Outcome(settings, st, ticks[..k]), ticks[k])
    ensures Outcome(settings, st, ticks).children.Unreaped() + ForkCount(settings, ticks) == st.children.Unreaped()
  {
    if ticks != [] {
      var n := |ticks| - 1;
      forall k | 0 <= k < n && Forks(settings, ticks[..n][k])
        ensures ReapsTwice(settings, Outcome(settings, st, ticks[..n][..k]), ticks[..n][k])
      {
        assert ticks[..n][..k] == ticks[..k];
      }
      SomeWaitFindsNothing(settings, st, ticks[..n]);
      if Forks(settings, ticks[n]) {
        assert ReapsTwice(settings, Outcome(settings, st, ticks[..n]), ticks[n]);
      }
    }
  }

  /** Asynchronous executions hand no output to the log; synchronous ones hand over one
      captured text per execution. */
  lemma {:induction false} OutputsDelivered(settings: Settings, st: Progress, ticks: seq<Tick>)
    requires |st.outputs| == if settings.synchronous && settings.capture then st.executions else 0
    ensures var end := Outcome(settings, st, ticks);
            |end.outputs| == if settings.synchronous && settings.capture then end.executions else 0
  {
    if ticks != [] {
      OutputsDelivered(settings, st, ticks[..|ticks| - 1]);
    }
  }
}
