/** src/executor.cc: the timer loop, its two counters, and the children of asynchronous mode. */
module Executors {
  import opened Schedule
  import opened TickMachine
  import Process

  /** The outcome a timer wait is completed with. */
  datatype Code = Success | Aborted | Failed

  /** boost::asio: a steady_timer with its pending waits, and an io_context with the handlers
      that are ready to run. */
  class Loop {
    var now: int
    var expiry: int
    var waits: nat
    var ready: seq<Code>
    var stopped: bool

    constructor (now: int)
      ensures this.now == now && expiry == now && waits == 0 && ready == [] && !stopped
    {
      this.now, expiry, waits, ready, stopped := now, now, 0, [], false;
    }

    /** Sets a new expiry; waits still pending complete as aborted. */
    method ExpiresAfter(delay: int)
      modifies this
      ensures now == old(now) && stopped == old(stopped) && expiry == now + delay && waits == 0
      ensures ready == old(ready) + seq(old(waits), _ => Aborted)
    {
      ready := ready + seq(waits, _ => Aborted);
      waits := 0;
      expiry := now + delay;
    }

    method AsyncWait()
      modifies this
      ensures now == old(now) && stopped == old(stopped) && expiry == old(expiry) && ready == old(ready)
      ensures waits == old(waits) + 1
    {
      waits := waits + 1;
    }

    /** The timer is found expired, possibly late: every pending wait becomes ready. */
    method Expire(late: nat, code: Code)
      modifies this
      ensures now == Max(old(now), old(expiry)) + late && expiry == old(expiry) && stopped == old(stopped)
      ensures waits == 0 && ready == old(ready) + seq(old(waits), _ => code)
    {
      now := Max(now, expiry) + late;
      ready := ready + seq(waits, _ => code);
      waits := 0;
    }

    /** Every pending wait completes with an error. */
    method Fail()
      modifies this
      ensures now == old(now) && expiry == old(expiry) && stopped == old(stopped)
      ensures waits == 0 && ready == old(ready) + seq(old(waits), _ => Failed)
    {
      ready := ready + seq(waits, _ => Failed);
      waits := 0;
    }

    method Next() returns (code: Code)
      requires ready != []
      modifies this
      ensures code == old(ready)[0] && ready == old(ready)[1..]
      ensures now == old(now) && expiry == old(expiry) && waits == old(waits) && stopped == old(stopped)
    {
      code := ready[0];
      ready := ready[1..];
    }
  }

  class Executor {
    const settings: Settings
    const loop: Loop
    var executionCount: nat
    var skipCount: nat
    var children: Children
    ghost var aborts: nat
    ghost var ticks: seq<int>
    ghost var runs: seq<(int, int)>
    ghost var outputs: seq<string>
    ghost var waited: int
    ghost var busy: int
    ghost var lateness: int

    constructor (settings: Settings, now: int)
      ensures this.settings == settings && fresh(loop)
      ensures Abstract() == Start(now, now) && aborts == 0
      ensures loop.waits == 0 && loop.ready == [] && !loop.stopped
    {
      this.settings := settings;
      loop := new Loop(now);
      executionCount, skipCount, children := 0, 0, Children(0, 0, 0);
      aborts, ticks, runs, outputs, waited, busy, lateness := 0, [], [], [], 0, 0, 0;
    }

    ghost function Abstract(): Progress
      reads this, loop
    {
      Progress(loop.now, loop.expiry, executionCount, skipCount, children, ticks, runs, outputs, waited, busy, lateness)
    }

    /** Exactly one timer wait is outstanding and nothing else is queued. */
    ghost predicate Idle()
      reads loop
    {
      loop.waits == 1 && loop.ready == []
    }

    method ComputeNextDelay(draw: int) returns (delay: int)
      ensures delay == Delay(settings.timing, draw)
    {
      var t := settings.timing;
      if t.jitter <= 0 {
        return t.frequency;
      }
      var offset := 0;
      if t.distribution == "normal" {
        offset := draw;
        offset := Max(-t.jitter, Min(t.jitter, offset));
      } else {
        offset := draw;
      }
      delay := Narrow(t.frequency + offset);
      if delay < 1 {
        delay := 1;
      }
    }

    method ShouldFire(draw: real) returns (fire: bool)
      ensures fire == Fires(settings.timing.probability, draw)
    {
      if settings.timing.probability >= 1.0 {
        return true;
      }
      if settings.timing.probability <= 0.0 {
        return false;
      }
      return draw < settings.timing.probability;
    }

    method RegisterCallback(draw: int)
      modifies loop
      ensures loop.waits == 1 && loop.ready == old(loop.ready) + seq(old(loop.waits), _ => Aborted)
      ensures loop.now == old(loop.now) && loop.stopped == old(loop.stopped)
      ensures loop.expiry == loop.now + Delay(settings.timing, draw)
    {
      var delay := ComputeNextDelay(draw);
      loop.ExpiresAfter(delay);
      loop.AsyncWait();
    }

    /** Runs a completed wait's handler. With no other wait or handler around, a successful
        wait is one step of the reference machine and leaves one wait outstanding. */
    method TimerCallback(code: Code, tick: Tick)
      requires loop.waits == 0 && loop.ready == []
      modifies this, loop
      ensures loop.stopped == old(loop.stopped)
      ensures code == Success ==>
          Idle() && Abstract() == Handled(settings, old(Abstract()), tick)
          && aborts == old(aborts)
      ensures code == Failed ==>
          Abstract() == old(Abstract()) && loop.waits == 0 && loop.ready == []
          && aborts == old(aborts)
      ensures code == Aborted ==> Idle() && aborts == old(aborts) + 1
    {
      if code == Aborted {
        aborts := aborts + 1;
        RegisterCallback(tick.delayDraw);
      } else if code == Failed {
        return;
      } else {
        ticks := ticks + [loop.now];
        var fire := ShouldFire(tick.fireDraw);
        if !fire {
          skipCount := skipCount + 1;
          RegisterCallback(tick.delayDraw);
          return;
        }
        executionCount := executionCount + 1;
        if settings.synchronous {
          ExecuteSync(tick);
        } else {
          ExecuteAsync(tick);
        }
      }
    }

    method ExecuteSync(tick: Tick)
      requires loop.waits == 0 && loop.ready == []
      modifies this`runs, this`outputs, this`busy, loop
      ensures loop.stopped == old(loop.stopped) && Idle()
      ensures loop.now == old(loop.now) + tick.duration
      ensures loop.expiry == loop.now + Delay(settings.timing, tick.delayDraw)
      ensures runs == old(runs) + [(old(loop.now), loop.now)] && busy == old(busy) + tick.duration
      ensures outputs == old(outputs) + (if settings.capture then [CapturedOutput(tick)] else [])
    {
      runs := runs + [(loop.now, loop.now + tick.duration)];
      loop.now, busy := loop.now + tick.duration, busy + tick.duration;
      if settings.capture {
        var result := Process.RunProcess(tick.stream, tick.launched, tick.status);
        outputs := outputs + [result.stdoutData];
      }
      RegisterCallback(tick.delayDraw);
    }

    /** POSIX: the timer is armed first, then the command is forked off. The child prints its
        output to the daemon's standard output, so the output callback is never called. */
    method ExecuteAsync(tick: Tick)
      requires loop.waits == 0 && loop.ready == []
      modifies this`children, loop
      ensures loop.stopped == old(loop.stopped) && Idle()
      ensures loop.now == old(loop.now)
      ensures loop.expiry == loop.now + Delay(settings.timing, tick.delayDraw)
      ensures children == AfterFork(old(children), tick)
    {
      RegisterCallback(tick.delayDraw);
      if tick.forkWorks {
        children := children.Fork();
        children := children.Exit(tick.exitsAfterFork);
        children := children.Reap();
        children := children.Exit(tick.exitsBetween);
        children := children.Reap();
      }
    }

    /** run(): registers the first wait and serves the loop until it is stopped or has no
        work left. For every script of events: one wait is outstanding whenever the loop is
        idle, no wait is ever aborted, and the result is that of the reference machine on the
        ticks up to the first stop or fault. */
    method Run(firstDraw: int, script: seq<LoopEvent>)
      requires loop.waits == 0 && loop.ready == [] && !loop.stopped && aborts == 0
      requires Abstract() == Start(loop.now, loop.now)
      modifies this, loop
      ensures aborts == 0
      ensures Abstract() == Outcome(settings, Begin(settings, old(loop.now), firstDraw), Served(script))
      ensures Uninterrupted(script) ==> Idle() && !loop.stopped
    {
      RegisterCallback(firstDraw);
      ServeScript(script);
    }

    /** io_context::run() with the first wait armed. */
    method ServeScript(script: seq<LoopEvent>)
      requires Idle() && !loop.stopped
      modifies this, loop
      ensures aborts == old(aborts)
      ensures Abstract() == Outcome(settings, old(Abstract()), Served(script))
      ensures Uninterrupted(script) ==> Idle() && !loop.stopped
    {
      var k := 0;
      while k < |script| && !loop.stopped && (loop.waits > 0 || loop.ready != [])
        invariant 0 <= k <= |script| && aborts == old(aborts)
        invariant Reached(settings, old(Abstract()), script, k, Abstract())
        invariant if Calm(script, k) then Idle() && !loop.stopped
                  else loop.stopped || (loop.waits == 0 && loop.ready == [])
      {
        ghost var before := Abstract();
        Serve(script[k]);
        ReachedStep(settings, old(Abstract()), script, k, before, Abstract());
        k := k + 1;
      }
      if !Calm(script, k) {
        NothingServedAfterInterruption(script, k);
      }
    }

    /** The loop with one wait outstanding meets one event. */
    method Serve(event: LoopEvent)
      requires Idle() && !loop.stopped
      modifies this, loop
      ensures aborts == old(aborts)
      ensures event.Ticked? ==> Idle() && !loop.stopped && Abstract() == OneTick(settings, old(Abstract()), event.tick)
      ensures !event.Ticked? ==>
          Abstract() == old(Abstract())
          && (loop.stopped || (loop.waits == 0 && loop.ready == []))
    {
      match event {
        case Stopped =>
          loop.stopped := true;
        case Faulted(tick) =>
          loop.Fail();
          var code := loop.Next();
          TimerCallback(code, tick);
        case Ticked(tick) =>
          WaitForTick(tick);
          var code := loop.Next();
          TimerCallback(code, tick);
      }
    }

    /** Time passes until the wait completes; children may exit meanwhile. */
    method WaitForTick(tick: Tick)
      requires Idle()
      modifies this`children, this`waited, this`lateness, loop
      ensures loop.waits == 0 && loop.ready == [Success] && loop.stopped == old(loop.stopped)
      ensures Abstract() == Waited(old(Abstract()), tick)
    {
      children := children.Exit(tick.exitsBefore);
      waited := waited + Max(0, loop.expiry - loop.now);
      lateness := lateness + tick.late;
      loop.Expire(tick.late, Success);
    }
  }
}
