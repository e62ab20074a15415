/** How many living daemons a service can have. The program keeps no lock: what prevents a second
    daemon is only that `start` refuses a service whose row runs a living process. */
module Exclusiveness {
  import opened FilePaths
  import opened Configs
  import opened LaunchLine
  import opened Databases
  import opened Machines
  import opened Lifecycles
  import opened Provenance
  import opened Removal

  ghost predicate AtMostOne(e: Env, name: string) {
    forall p, q | Living(e, p, name) && Living(e, q, name) :: p == q
  }

  /** As long as the process lives, this row makes `start` refuse. */
  predicate Guards(row: ServiceState, pid: int) {
    row.status == "running" && (row.pid <= 0 || row.pid == pid)
  }

  ghost predicate Guarded(states: States, e: Env, name: string) {
    forall p | Living(e, p, name) :: name in states && Guards(states[name], p)
  }

  /** Every successful start from this state leaves at most one living daemon. */
  ghost predicate StartIsSafe(s0: States, e0: Env, name: string, line: string) {
    forall s1: States, e1: Env | Starts(s0, e0, s1, e1, name, line, false) :: AtMostOne(e1, name)
  }

  lemma LivingEarlier(a: Env, b: Env, p: int, name: string)
    requires Interferes(a, b) && Living(b, p, name)
    ensures Living(a, p, name)
  {
  }

  lemma GuardedPreventsStart(s0: States, e0: Env, s: States, e: Env, name: string, p: int)
    requires Looked(s0, e0, s, e, name) && name in s0 && name in s && s[name].status != "running"
    requires Living(e0, p, name) && Guards(s0[name], p)
    ensures !Living(e, p, name)
  {
    hide Interferes;
    SameSite(e0, e);
  }

  /** The living daemons after a start: those from before that the row did not guard, and the new one. */
  lemma LivingAfterStart(s0: States, e0: Env, s: States, e: Env, s1: States, e1: Env, name: string, line: string,
                         d: Spawn, read: Env, p: int)
    requires Looked(s0, e0, s, e, name) && name in s0 && Launches(s, e, s1, e1, name, line, d, read)
        && Living(e1, p, name)
    ensures (d.NewDaemon? && p == d.pid) || (Living(e0, p, name) && !Guards(s0[name], p))
  {
    hide Interferes, PidIn, SetRow, MayStart, MaybeReconciled;
    LivingEarlier(read, e1, p, name);
    LivingEarlier(Started(e, name, d), read, p, name);
    if !(d.NewDaemon? && p == d.pid) {
      assert Living(e, p, name);
      SameSite(e0, e);
      if Guards(s0[name], p) {
        GuardedPreventsStart(s0, e0, s, e, name, p);
      }
    }
  }

  lemma StartFromGuarded(s0: States, e0: Env, s1: States, e1: Env, name: string, line: string)
    requires Guarded(s0, e0, name) && Starts(s0, e0, s1, e1, name, line, false)
    ensures AtMostOne(e1, name)
  {
    hide Interferes, MayStart, PidIn, Guards;
    var s: States, e: Env, d: Spawn, read: Env :|
      Looked(s0, e0, s, e, name) && Launches(s, e, s1, e1, name, line, d, read);
    forall p | Living(e1, p, name) ensures d.NewDaemon? && p == d.pid {
      LivingAfterStart(s0, e0, s, e, s1, e1, name, line, d, read, p);
    }
  }

  /** The launch line can become a daemon at all. */
  ghost predicate CanStart(site: Site, line: string) {
    exists c: Config :: Reads(site, line, c)
  }

  ghost predicate AtMostOneUnguarded(states: States, e: Env, name: string)
    requires name in states
  {
    forall p, q | Living(e, p, name) && Living(e, q, name)
        && !Guards(states[name], p) && !Guards(states[name], q) :: p == q
  }

  lemma StartOfNothing(s0: States, e0: Env, s1: States, e1: Env, name: string, line: string)
    requires name in s0 && AtMostOneUnguarded(s0, e0, name) && !CanStart(e0.site, line)
    requires Starts(s0, e0, s1, e1, name, line, false)
    ensures AtMostOne(e1, name)
  {
    hide Interferes, Guards, Reads, MaybeReconciled;
    var s: States, e: Env, d: Spawn, read: Env :|
      Looked(s0, e0, s, e, name) && Launches(s, e, s1, e1, name, line, d, read);
    SameSite(e0, e);
    assert d.NoDaemon?;
    forall p | Living(e1, p, name) ensures Living(e0, p, name) && !Guards(s0[name], p) {
      LivingAfterStart(s0, e0, s, e, s1, e1, name, line, d, read, p);
    }
  }

  lemma {:induction false} Above(s: set<int>) returns (bound: int)
    ensures bound > 0 && forall x | x in s :: x < bound
    decreases |s|
  {
    bound := 1;
    if x :| x in s {
      bound := Above(s - {x});
      assert forall y | y in s :: y == x || y in s - {x};
      bound := if x >= bound then x + 1 else bound;
    }
  }

  lemma FreshPid(e: Env) returns (pid: int)
    ensures pid > 0 && pid !in e.owner
  {
    pid := Above(e.owner.Keys);
  }

  function Without(e: Env, pid: int): Env {
    e.(alive := e.alive - {pid}, unwritten := e.unwritten - {pid})
  }

  lemma DeathInterferes(e: Env, pid: int)
    requires EnvValid(e)
    ensures Interferes(e, Without(e, pid)) && EnvValid(Without(e, pid))
  {
  }

  /** The machine and the rows at the earliest moment at which `start` does not refuse. */
  function Freed(s0: States, e0: Env, name: string): Env
    requires name in s0
  {
    if s0[name].status == "running" then Without(e0, s0[name].pid) else e0
  }

  function Corrected(s0: States, e0: Env, name: string): (s: States)
    requires name in s0
    ensures name in s
  {
    s0[name := ReconcileRow(s0[name], Freed(s0, e0, name).alive)]
  }

  /** A start that happens at that moment. */
  lemma StartWhenFreed(s0: States, e0: Env, name: string, d: Spawn, line: string)
    requires EnvValid(e0) && name in s0 && (s0[name].status == "running" ==> s0[name].pid > 0)
    requires NewPid(e0, d) && MayStart(e0.site, line, d)
    ensures var (s, e) := (Corrected(s0, e0, name), Freed(s0, e0, name));
            Starts(s0, e0, SetRow(s, name, Running(PidIn(e, name))), Started(e, name, d), name, line, false)
  {
    hide EnvValid, Interferes, MayStart, PidIn, SetRow, Started;
    var s, e := Corrected(s0, e0, name), Freed(s0, e0, name);
    DeathInterferes(e0, s0[name].pid);
    InterferesReflexive(e0);
    StartedIsValid(e, name, d);
    InterferesReflexive(Started(e, name, d));
    PidInStarted(e, name, d);
    assert e.site == e0.site && e.owner == e0.owner && s[name].status != "running";
    assert Looked(s0, e0, s, e, name);
    assert Launches(s, e, SetRow(s, name, Running(PidIn(e, name))), Started(e, name, d), name, line, d,
        Started(e, name, d));
  }

  lemma StillLiving(s0: States, e0: Env, name: string, d: Spawn, p: int)
    requires name in s0 && NewPid(e0, d) && Living(e0, p, name) && !Guards(s0[name], p)
    ensures Living(Started(Freed(s0, e0, name), name, d), p, name) && (d.NewDaemon? ==> p != d.pid)
    ensures d.NewDaemon? ==> Living(Started(Freed(s0, e0, name), name, d), d.pid, name)
  {
  }

  lemma NotSafe(s0: States, e0: Env, s1: States, e1: Env, name: string, line: string, p: int, q: int)
    requires Starts(s0, e0, s1, e1, name, line, false) && Living(e1, p, name) && Living(e1, q, name) && p != q
    ensures !StartIsSafe(s0, e0, name, line)
  {
    hide Starts, Living;
  }

  lemma StartFromUnguarded(s0: States, e0: Env, name: string, line: string, d: Spawn, p: int, q: int)
    requires EnvValid(e0) && name in s0 && NewPid(e0, d) && MayStart(e0.site, line, d)
    requires Living(e0, p, name) && !Guards(s0[name], p)
    requires if d.NewDaemon? then q == d.pid else q != p && Living(e0, q, name) && !Guards(s0[name], q)
    ensures !StartIsSafe(s0, e0, name, line)
  {
    hide Starts, EnvValid, StartIsSafe, SetRow, MayStart, Freed, Corrected, PidIn, Started;
    var (s, e) := (Corrected(s0, e0, name), Freed(s0, e0, name));
    StartWhenFreed(s0, e0, name, d, line);
    StillLiving(s0, e0, name, d, p);
    if d.NoDaemon? {
      StillLiving(s0, e0, name, d, q);
    }
    NotSafe(s0, e0, SetRow(s, name, Running(PidIn(e, name))), Started(e, name, d), name, line, p, q);
  }

  /** Whether `start` can leave two living daemons. If the launch line can become a daemon: exactly
      when some process of the service lives that its row does not guard, because the row is not
      running or runs another process. Otherwise: when there are two such processes already. */
  lemma StartIsSafeIff(s0: States, e0: Env, name: string, line: string)
    requires EnvValid(e0) && name in s0
    ensures StartIsSafe(s0, e0, name, line) <==>
              if CanStart(e0.site, line) then Guarded(s0, e0, name) else AtMostOneUnguarded(s0, e0, name)
  {
    hide Starts, EnvValid, AtMostOne, Guards, Reads;
    if c: Config :| Reads(e0.site, line, c) {
      if p :| Living(e0, p, name) && !Guards(s0[name], p) {
        var pid := FreshPid(e0);
        StartFromUnguarded(s0, e0, name, line, NewDaemon(pid, c), p, pid);
      } else {
        forall s1: States, e1: Env | Starts(s0, e0, s1, e1, name, line, false) ensures AtMostOne(e1, name) {
          StartFromGuarded(s0, e0, s1, e1, name, line);
        }
      }
    } else if AtMostOneUnguarded(s0, e0, name) {
      forall s1: States, e1: Env | Starts(s0, e0, s1, e1, name, line, false) ensures AtMostOne(e1, name) {
        StartOfNothing(s0, e0, s1, e1, name, line);
      }
    } else {
      var p, q :| Living(e0, p, name) && Living(e0, q, name) && !Guards(s0[name], p) && !Guards(s0[name], q) && p != q;
      StartFromUnguarded(s0, e0, name, line, NoDaemon, p, q);
    }
  }

  /** How a living daemon loses its guard, first: `stop` may give up and leave it living exactly
      when it is not the process `stop` finds, which is the one in the row if there is one, and
      otherwise the one in the PID file. */
  lemma GivesUpLeavesIff(s0: States, e0: Env, name: string, p: int)
    requires EnvValid(e0) && name in s0 && Living(e0, p, name)
    ensures (exists s1: States, e1: Env :: GivesUp(s0, e0, s1, e1, name) && Living(e1, p, name) && !Guards(s1[name], p))
       <==> p != if s0[name].pid > 0 then s0[name].pid else PidIn(e0, name)
  {
    hide EnvValid, PidFile, PidIn, Interferes;
    EnvValidFacts(e0);
    var target := TargetOf(s0, e0, name);
    if p != target {
      DeathInterferes(e0, target);
      var s1, e1 := SetRow(s0, name, GIVEN_UP), Without(e0, target);
      assert GivesUp(s0, e0, s1, e1, name) && Living(e1, p, name) && !Guards(s1[name], p);
    }
  }

  /** Every launch from this state leaves its daemon, if it lives, guarded by the row. */
  ghost predicate LaunchGuards(s0: States, e0: Env, name: string, line: string) {
    forall s1: States, e1: Env, d: Spawn, read: Env | Launches(s0, e0, s1, e1, name, line, d, read) ::
      d.NewDaemon? && d.pid in e1.alive ==> Guards(s1[name], d.pid)
  }

  lemma ReadOwnPid(e0: Env, name: string, d: Spawn, read: Env)
    requires EnvValid(e0) && d.NewDaemon? && NewPid(e0, d) && Interferes(Started(e0, name, d), read)
    requires PidIn(e0, name) == 0 && !Rival(e0, d.pid, PidFile(e0.site, name))
    ensures PidIn(read, name) == 0 || PidIn(read, name) == d.pid
  {
    hide Resolve, LogUsed, Bounded, Quiet, HasWritten, PidFile;
    var f, started := PidFile(e0.site, name), Started(e0, name, d);
    if f in read.pidFiles && !(f in started.pidFiles && read.pidFiles[f] == started.pidFiles[f]) {
      assert MayWrite(started, f, read.pidFiles[f]);
    }
  }

  lemma ReadOtherPid(s0: States, e0: Env, name: string, line: string, d: Spawn, read: Env)
    requires EnvValid(e0) && name in s0 && s0[name].status != "running" && d.NewDaemon? && NewPid(e0, d)
    requires MayStart(e0.site, line, d)
    requires Interferes(Started(e0, name, d), read) && EnvValid(read) && d.pid in read.alive
    requires PidIn(read, name) > 0 && PidIn(read, name) != d.pid
    ensures !LaunchGuards(s0, e0, name, line)
  {
    hide EnvValid, Interferes, PidIn, MayStart;
    InterferesReflexive(read);
    var s1 := SetRow(s0, name, Running(PidIn(read, name)));
    assert Launches(s0, e0, s1, read, name, line, d, read);
    assert !Guards(s1[name], d.pid);
  }

  lemma RivalWrites(e: Env, name: string, d: Spawn, q: int) returns (read: Env)
    requires EnvValid(e) && d.NewDaemon? && NewPid(e, d)
    requires q in e.unwritten && Writes(e, q, PidFile(e.site, name))
    ensures Interferes(Started(e, name, d), read) && EnvValid(read) && d.pid in read.alive && PidIn(read, name) == q
  {
    hide Resolve, LogUsed, Bounded, PidFile;
    var started, f := Started(e, name, d), PidFile(e.site, name);
    StartedIsValid(e, name, d);
    read := started.(pidFiles := e.pidFiles[f := q], unwritten := started.unwritten - {q});
    assert q in started.unwritten && Writes(started, q, f);
    assert MayWrite(started, f, q);
    assert Interferes(started, read);
    InterferenceKeepsValid(started, read);
  }

  /** Second: `start` may leave its own daemon unguarded exactly when its line can become a daemon
      and the PID file names an earlier process (no daemon ever deletes its own file) or another
      daemon may still write it. */
  lemma LaunchGuardsIff(s0: States, e0: Env, name: string, line: string)
    requires EnvValid(e0) && name in s0 && s0[name].status != "running"
    ensures !LaunchGuards(s0, e0, name, line) <==>
              && CanStart(e0.site, line)
              && (PidIn(e0, name) != 0 || exists q :: q in e0.unwritten && Writes(e0, q, PidFile(e0.site, name)))
  {
    hide EnvValid, Interferes, PidIn, PidFile, Writes, Reads;
    EnvValidFacts(e0);
    PidInShares(e0, name);
    var f := PidFile(e0.site, name);
    if c: Config :| Reads(e0.site, line, c) {
      var pid := FreshPid(e0);
      var d := NewDaemon(pid, c);
      if q :| q in e0.unwritten && Writes(e0, q, f) {
        var read := RivalWrites(e0, name, d, q);
        ReadOtherPid(s0, e0, name, line, d, read);
      } else if PidIn(e0, name) != 0 {
        var read := Started(e0, name, d);
        StartedIsValid(e0, name, d);
        InterferesReflexive(read);
        PidInStarted(e0, name, d);
        ReadOtherPid(s0, e0, name, line, d, read);
      } else {
        forall s1: States, e1: Env, d: Spawn, read: Env | Launches(s0, e0, s1, e1, name, line, d, read)
          ensures d.NewDaemon? ==> Guards(s1[name], d.pid)
        {
          if d.NewDaemon? {
            ReadOwnPid(e0, name, d, read);
          }
        }
      }
    }
  }

  lemma PidInStarted(e: Env, name: string, d: Spawn)
    ensures PidIn(Started(e, name, d), name) == PidIn(e, name)
    ensures PidIn(e, name) != 0 && EnvValid(e) ==> PidIn(e, name) in e.owner
  {
    hide Resolve, LogUsed, PidFile, Bounded;
  }

  /** No new daemon of the service. */
  ghost predicate NoneAdded(a: Env, b: Env, name: string) {
    forall p | Living(b, p, name) :: Living(a, p, name)
  }

  lemma InterferesAddsNone(a: Env, b: Env, name: string)
    requires Interferes(a, b)
    ensures NoneAdded(a, b, name)
  {
  }

  lemma StopAddsNone(a: World, b: World, name: string, n: string, prompt: bool)
    requires StopStep(a, b, name, prompt)
    ensures NoneAdded(a.env, b.env, n)
  {
    hide Resolve, Interferes, TargetOf, SetRow;
    if name in a.services {
      var read: Env :| StopsOrGivesUp(a, read, b, name, prompt);
      InterferesAddsNone(a.env, read, n);
      if GivesUp(a.states, read, b.states, b.env, name) && b.signals == a.signals {
        InterferesAddsNone(read, b.env, n);
      } else {
        var found: Env, waited: Env, dropped: Env :|
          && Stopping(read, found, waited, dropped, TargetOf(a.states, read, name), prompt)
          && b.env == WithoutPidFile(dropped, name);
        InterferesAddsNone(read, found, n);
        InterferesAddsNone(found, waited, n);
        InterferesAddsNone(waited, dropped, n);
      }
    } else {
      InterferesAddsNone(a.env, b.env, n);
    }
  }

  lemma {:induction false} ErasingAddsNone(trace: seq<Env>, name: string, n: string)
    requires Erasing(trace, name)
    ensures NoneAdded(trace[0], trace[|trace| - 1], n)
  {
    hide Resolve, LogUsed, Interferes;
    if |trace| > 1 {
      var k := |trace| - 2;
      ErasingAddsNone(trace[..k + 1], name, n);
      assert Deletes(trace[k], trace[k + 1], name, k);
      var e: Env :| Interferes(trace[k], e) && trace[k + 1] == Deleted(e, name, k);
      InterferesAddsNone(trace[k], e, n);
    }
  }

  lemma RemoveAddsNone(a: World, b: World, name: string, n: string, prompt: bool)
    requires RemoveStep(a, b, name, prompt)
    ensures NoneAdded(a.env, b.env, n)
  {
    hide Resolve, Interferes, StopStep, Erasing, MaybeReconciled;
    if name in a.services {
      var looked: World, stopped: World, deleted: Env :| Removes(a, looked, stopped, deleted, b, name, prompt);
      InterferesAddsNone(a.env, looked.env, n);
      if looked.states[name].status == "running" {
        StopAddsNone(looked, stopped, name, n, prompt);
      }
      InterferesAddsNone(stopped.env, deleted, n);
      var trace: seq<Env> :|
        Erasing(trace, name) && |trace| == DELETIONS + 1 && trace[0] == deleted && trace[DELETIONS] == b.env;
      ErasingAddsNone(trace, name, n);
    } else {
      InterferesAddsNone(a.env, b.env, n);
    }
  }

  lemma OtherStartAddsNone(a: World, b: World, name: string, n: string)
    requires StartStep(a, b, name, false) && name != n
    ensures NoneAdded(a.env, b.env, n)
  {
    hide Resolve, LineFor, Interferes, MaybeReconciled;
    if Looked(a.states, a.env, b.states, b.env, name) {
      InterferesAddsNone(a.env, b.env, n);
    } else {
      var line := LineFor(a.env.site, a.services[name]);
      var s: States, e: Env, d: Spawn, read: Env :|
        Looked(a.states, a.env, s, e, name) && Launches(s, e, b.states, b.env, name, line, d, read);
      InterferesAddsNone(a.env, e, n);
      InterferesAddsNone(Started(e, name, d), read, n);
      InterferesAddsNone(read, b.env, n);
    }
  }

  lemma StepAddsNone(a: World, b: World, c: Command, n: string)
    requires Step(a, b, c, false) && c != Start(n)
    ensures NoneAdded(a.env, b.env, n)
  {
    hide NoneAdded, RemoveStep, StartStep, StopStep, Interferes, Swept, MaybeReconciled;
    match c {
      case Remove(name) => RemoveAddsNone(a, b, name, n, false);
      case Start(name) => OtherStartAddsNone(a, b, name, n);
      case Stop(name) => StopAddsNone(a, b, name, n, false);
      case _ => InterferesAddsNone(a.env, b.env, n);
    }
  }

  lemma StartKeepsOne(a: World, b: World, n: string)
    requires StartStep(a, b, n, false) && AtMostOne(a.env, n) && Guarded(a.states, a.env, n)
    ensures AtMostOne(b.env, n)
  {
    hide Starts, Guarded, LineFor, MaybeReconciled, Interferes;
    if Looked(a.states, a.env, b.states, b.env, n) {
      InterferesAddsNone(a.env, b.env, n);
    } else {
      StartFromGuarded(a.states, a.env, b.states, b.env, n, LineFor(a.env.site, a.services[n]));
    }
  }

  /** One daemon per service, over whole runs: if every `start` of the service finds its living
      process, if any, guarded by the row, there is never more than one. */
  lemma {:induction false} GuardedRunsKeepOne(ws: seq<World>, cs: seq<Command>, site: Site, n: string, k: nat)
    requires Run(ws, cs, site) && k <= |cs|
    requires forall i | 0 <= i < |cs| && cs[i] == Start(n) :: Guarded(ws[i].states, ws[i].env, n)
    ensures AtMostOne(ws[k].env, n)
  {
    hide Step, Guarded;
    if k > 0 {
      GuardedRunsKeepOne(ws, cs, site, n, k - 1);
      assert Step(ws[k - 1], ws[k], cs[k - 1], false);
      if cs[k - 1] == Start(n) {
        StartOfStep(ws[k - 1], ws[k], n);
        StartKeepsOne(ws[k - 1], ws[k], n);
      } else {
        StepAddsNone(ws[k - 1], ws[k], cs[k - 1], n);
      }
    }
  }

  lemma StartOfStep(a: World, b: World, n: string)
    requires Step(a, b, Start(n), false)
    ensures StartStep(a, b, n, false)
  {
  }

  predicate RunsAs(states: States, name: string, pid: int) {
    name in states && states[name].status == "running" && states[name].pid == pid
  }

  /** Every living daemon of the service has written its PID file and is the one its row runs. */
  ghost predicate Exclusive(states: States, e: Env, n: string) {
    forall p | Living(e, p, n) :: p !in e.unwritten && RunsAs(states, n, p)
  }

  /** The commands whose promptness matters to a service. */
  predicate Concerns(c: Command, n: string) {
    c == Start(n) || c == Stop(n) || c == Remove(n)
  }

  /** In this run, every daemon that `start` launches for the service has completed its PID file
      (or died) when `start` reads it, and every process that `stop` or `remove` signals for it
      has died when they write the row. */
  ghost predicate PromptFor(ws: seq<World>, cs: seq<Command>, n: string)
    requires |ws| == |cs| + 1
  {
    forall k | 0 <= k < |cs| && Concerns(cs[k], n) :: Step(ws[k], ws[k + 1], cs[k], true)
  }

  lemma LookKeepsExclusive(s0: States, e0: Env, s1: States, e1: Env, name: string, n: string)
    requires Looked(s0, e0, s1, e1, name) && Exclusive(s0, e0, n)
    ensures Exclusive(s1, e1, n)
  {
  }

  lemma SweepKeepsExclusive(s0: States, e0: Env, s1: States, e1: Env, n: string)
    requires Interferes(e0, e1) && Swept(s0, s1, e0.alive, e1.alive) && Exclusive(s0, e0, n)
    ensures Exclusive(s1, e1, n)
  {
  }

  lemma WaitKeepsExclusive(s: States, e0: Env, e1: Env, n: string)
    requires Interferes(e0, e1) && Exclusive(s, e0, n)
    ensures Exclusive(s, e1, n)
  {
  }

  lemma OtherRowKeepsExclusive(s: States, e: Env, name: string, st: ServiceState, n: string)
    requires name in s && name != n && Exclusive(s, e, n)
    ensures Exclusive(SetRow(s, name, st), e, n)
  {
  }

  /** Exactly the daemons started for the service write its PID file. */
  ghost predicate Keeps(site: Site, installed: set<Config>, n: string) {
    forall a: Config, c: Config | a in installed && Reads(site, InstalledLine(site, a), c) ::
      UsesPidFile(c, PidFile(site, n)) <==> a.serviceName == n
  }

  /** Only they write to its log. */
  ghost predicate KeepsLog(site: Site, installed: set<Config>, n: string) {
    forall a: Config, c: Config | a in installed && Reads(site, InstalledLine(site, a), c) ::
      UsesLog(site, c, LogOf(site, n)) ==> a.serviceName == n
  }

  /** Services whose launch lines read back and whose names have no slash keep to themselves. */
  lemma PlainServicesKeep(site: Site, installed: set<Config>, n: string)
    requires AllLaunchable(site, installed) && Named(installed, n)
    requires forall a | a in installed :: SlashFree(a.serviceName)
    ensures Keeps(site, installed, n) && KeepsLog(site, installed, n)
  {
    hide Reads, InstalledLine, Launchable, Daemon, UsesPidFile, LogUsed, PidFile, LogOf;
    forall a: Config, c: Config | a in installed && Reads(site, InstalledLine(site, a), c)
      ensures UsesPidFile(c, PidFile(site, n)) <==> a.serviceName == n
      ensures UsesLog(site, c, LogOf(site, n)) ==> a.serviceName == n
    {
      var r := RecordOf(a, "");
      LaunchableReads(site, a, c);
      DaemonFiles(site, r);
      LaunchableDir(r, PathsFor(site, r.name));
      if a.serviceName != n {
        PlainNamesApart(site, a.serviceName, n);
      }
    }
  }

  lemma LaunchableDir(r: ServiceRecord, p: Paths)
    requires Launchable(r, p)
    ensures p.dataDir != ""
  {
  }

  lemma PromptReadsOwn(e: Env, name: string, d: Spawn, read: Env)
    requires EnvValid(e) && d.NewDaemon? && NewPid(e, d) && Interferes(Started(e, name, d), read)
    requires UsesPidFile(d.config, PidFile(e.site, name))
    requires d.pid in read.alive && d.pid !in read.unwritten && !Rival(e, d.pid, PidFile(e.site, name))
    ensures PidIn(read, name) == d.pid
  {
    hide Resolve, LogUsed, Bounded, Quiet, MayWrite, PidFile;
    var started, f := Started(e, name, d), PidFile(e.site, name);
    assert HasWritten(started, read, d.pid);
    assert !Rival(started, d.pid, f) by {
      forall q | q in started.unwritten && q != d.pid ensures !Writes(started, q, f) {
        assert q in e.unwritten && !Writes(e, q, f);
      }
    }
  }

  lemma MadeWrites(w: World, site: Site, installed: set<Config>, n: string, pid: int)
    requires Within(w, site, installed) && Keeps(site, installed, n) && pid in w.env.owner
    ensures Writes(w.env, pid, PidFile(site, n)) <==> OwnedBy(w.env, pid, n)
  {
    hide Resolve, PidFile, InstalledLine, Reads, StoredFrom, UsesPidFile;
    assert MadeFrom(w.env, pid, installed);
  }

  /** A daemon that may still write the service's PID file is the service's own. */
  lemma NoRivals(w: World, site: Site, installed: set<Config>, n: string, pid: int)
    requires EnvValid(w.env) && Within(w, site, installed) && Keeps(site, installed, n)
    requires forall p :: !Living(w.env, p, n)
    ensures !Rival(w.env, pid, PidFile(site, n))
  {
    hide PidFile, Writes, Within, Keeps;
    EnvValidFacts(w.env);
    forall q | q in w.env.unwritten ensures !Writes(w.env, q, PidFile(site, n)) {
      MadeWrites(w, site, installed, n, q);
      assert !Living(w.env, q, n);
    }
  }

  lemma LaunchIsExclusive(w: World, s1: States, e1: Env, n: string, d: Spawn, read: Env, site: Site,
      installed: set<Config>)
    requires EnvValid(w.env) && Within(w, site, installed) && Keeps(site, installed, n) && n in w.services
    requires StoredFrom(w.services[n], installed) && w.services[n].name == n
    requires Exclusive(w.states, w.env, n)
    requires Launches(w.states, w.env, s1, e1, n, LineFor(site, w.services[n]), d, read) && Settled(read, d)
    ensures Exclusive(s1, e1, n)
  {
    hide Resolve, LogUsed, EnvValid, PidIn, PidFile, Keeps, Within, Reads, LineFor, StoredFrom, Rival, UsesPidFile;
    forall p ensures !Living(w.env, p, n) {
    }
    if d.NewDaemon? {
      NoRivals(w, site, installed, n, d.pid);
      SiteWithin(w, site, installed);
      NewUsesOwn(w.services[n], site, installed, n, d);
    }
    forall p | Living(e1, p, n) ensures p !in e1.unwritten && RunsAs(s1, n, p) {
      LivingEarlier(read, e1, p, n);
      LivingEarlier(Started(w.env, n, d), read, p, n);
      assert d.NewDaemon? && p == d.pid;
      PromptReadsOwn(w.env, n, d, read);
    }
  }

  lemma SiteWithin(w: World, site: Site, installed: set<Config>)
    requires Within(w, site, installed)
    ensures w.env.site == site
  {
  }

  lemma NewUsesOwn(r: ServiceRecord, site: Site, installed: set<Config>, n: string, d: Spawn)
    requires StoredFrom(r, installed) && r.name == n && Keeps(site, installed, n)
    requires d.NewDaemon? && MayStart(site, LineFor(site, r), d)
    ensures UsesPidFile(d.config, PidFile(site, n))
  {
    hide PidFile, Reads, LineFor, InstalledLine, RecordOf, UsesPidFile;
    var a: Config, now: string :| a in installed && r == RecordOf(a, now);
    InstalledLineOf(site, a, now);
    RecordName(a, now);
  }

  lemma OtherLaunchKeepsExclusive(s0: States, e0: Env, s1: States, e1: Env, name: string, line: string, d: Spawn,
      read: Env, n: string)
    requires Launches(s0, e0, s1, e1, name, line, d, read) && name != n && Exclusive(s0, e0, n)
    ensures Exclusive(s1, e1, n)
  {
    hide Interferes, PidIn, MayStart;
    var started := Started(e0, name, d);
    assert Exclusive(s0, started, n) by {
      forall p | Living(started, p, n) ensures p !in started.unwritten && RunsAs(s0, n, p) {
        assert Living(e0, p, n);
      }
    }
    WaitKeepsExclusive(s0, started, read, n);
    WaitKeepsExclusive(s0, read, e1, n);
    OtherRowKeepsExclusive(s0, e1, name, Running(PidIn(read, name)), n);
  }

  lemma LookKeepsWithin(a: World, b: World, name: string, site: Site, installed: set<Config>)
    requires LookStep(a, b, name) && Within(a, site, installed)
    ensures Within(b, site, installed)
  {
    hide MadeFrom, StoredFrom, Named, Interferes, MaybeReconciled;
    SameSite(a.env, b.env);
    MadeLater(a.env, b.env, installed);
  }

  lemma RecordWithin(w: World, site: Site, installed: set<Config>, name: string)
    requires WorldValid(w) && Within(w, site, installed) && name in w.services
    ensures StoredFrom(w.services[name], installed) && w.services[name].name == name
  {
    hide MadeFrom, StoredFrom, Named, EnvValid, OwnLine, RowsShared, SignalsShared, WellFormed;
  }

  lemma StartKeepsExclusive(a: World, b: World, name: string, n: string, site: Site, installed: set<Config>)
    requires WorldValid(a) && Within(a, site, installed) && Keeps(site, installed, n) && Exclusive(a.states, a.env, n)
    requires StartStep(a, b, name, name == n)
    ensures Exclusive(b.states, b.env, n)
  {
    hide LineFor, Interferes, MaybeReconciled, WorldValid, Launches, Exclusive, Keeps, Within;
    if Looked(a.states, a.env, b.states, b.env, name) {
      LookKeepsExclusive(a.states, a.env, b.states, b.env, name, n);
    } else {
      var line := LineFor(a.env.site, a.services[name]);
      var s: States, e: Env, d: Spawn, read: Env :|
        && Looked(a.states, a.env, s, e, name) && Launches(s, e, b.states, b.env, name, line, d, read)
        && (name == n ==> Settled(read, d));
      LookKeepsExclusive(a.states, a.env, s, e, name, n);
      if name == n {
        var w := a.(states := s, env := e);
        SameSite(a.env, e);
        LookKeepsValid(a, w, name);
        LookKeepsWithin(a, w, name, site, installed);
        SiteWithin(w, site, installed);
        RecordWithin(w, site, installed, name);
        SignalsOf(w);
        LaunchIsExclusive(w, b.states, b.env, n, d, read, site, installed);
      } else {
        OtherLaunchKeepsExclusive(s, e, b.states, b.env, name, line, d, read, n);
      }
    }
  }

  lemma WithoutKeepsExclusive(s: States, e: Env, name: string, n: string)
    requires Exclusive(s, e, n)
    ensures Exclusive(s, WithoutPidFile(e, name), n)
  {
  }

  /** The process that `stop` finds is the only daemon of the service. */
  lemma TargetIsAll(s: States, e: Env, n: string, p: int)
    requires EnvValid(e) && n in s && Exclusive(s, e, n) && Living(e, p, n)
    ensures p == TargetOf(s, e, n) && p > 0
  {
  }

  lemma GivingUpIsExclusive(s0: States, e0: Env, s1: States, e1: Env, name: string, n: string)
    requires EnvValid(e0) && GivesUp(s0, e0, s1, e1, name) && Exclusive(s0, e0, n)
    ensures Exclusive(s1, e1, n)
  {
  }

  lemma NoneIsExclusive(s: States, e: Env, n: string)
    requires forall p :: !Living(e, p, n)
    ensures Exclusive(s, e, n)
  {
  }

  lemma StoppingIsExclusive(s0: States, e0: Env, s1: States, e1: Env, name: string, n: string)
    requires EnvValid(e0) && name in s0 && Stops(s0, e0, s1, e1, name, name == n) && Exclusive(s0, e0, n)
    ensures Exclusive(s1, e1, n) && (name == n ==> forall p :: !Living(e1, p, n))
  {
    hide Interferes, Exclusive, TargetOf, EnvValid, PidFile;
    var target := TargetOf(s0, e0, name);
    var found: Env, waited: Env, dropped: Env :|
      Stopping(e0, found, waited, dropped, target, name == n) && e1 == WithoutPidFile(dropped, name);
    if name == n {
      forall p ensures !Living(e1, p, n) {
        if Living(e1, p, n) {
          assert Living(dropped, p, n);
          LivingEarlier(waited, dropped, p, n);
          LivingEarlier(found, waited, p, n);
          LivingEarlier(e0, found, p, n);
          TargetIsAll(s0, e0, n, p);
        }
      }
      NoneIsExclusive(s1, e1, n);
    } else {
      WaitKeepsExclusive(s0, e0, found, n);
      WaitKeepsExclusive(s0, found, waited, n);
      WaitKeepsExclusive(s0, waited, dropped, n);
      WithoutKeepsExclusive(s0, dropped, name, n);
      OtherRowKeepsExclusive(s0, e1, name, STOPPED, n);
    }
  }

  lemma StopKeepsExclusive(a: World, b: World, name: string, n: string)
    requires WorldValid(a) && StopStep(a, b, name, name == n) && Exclusive(a.states, a.env, n)
    ensures Exclusive(b.states, b.env, n)
  {
    hide Resolve, WorldValid, Interferes, TargetOf, GivesUp, Stops, Exclusive;
    if name in a.services {
      var read: Env :| StopsOrGivesUp(a, read, b, name, name == n);
      WaitKeepsValid(a, read);
      SignalsOf(a.(env := read));
      WaitKeepsExclusive(a.states, a.env, read, n);
      if GivesUp(a.states, read, b.states, b.env, name) && b.signals == a.signals {
        GivingUpIsExclusive(a.states, read, b.states, b.env, name, n);
      } else {
        StoppingIsExclusive(a.states, read, b.states, b.env, name, n);
      }
    } else {
      WaitKeepsExclusive(a.states, a.env, b.env, n);
    }
  }

  lemma StopLeavesRow(a: World, b: World, name: string, prompt: bool)
    requires StopStep(a, b, name, prompt) && name in a.services
    ensures name in b.states && b.states[name].status == "stopped"
  {
    hide Interferes, PidFile, TargetOf;
    var read: Env :| StopsOrGivesUp(a, read, b, name, prompt);
  }

  lemma {:induction false} ErasingKeepsExclusive(s: States, trace: seq<Env>, name: string, n: string)
    requires Erasing(trace, name) && Exclusive(s, trace[0], n)
    ensures Exclusive(s, trace[|trace| - 1], n)
  {
    hide Resolve, LogUsed, Interferes;
    if |trace| > 1 {
      var k := |trace| - 2;
      ErasingKeepsExclusive(s, trace[..k + 1], name, n);
      assert Deletes(trace[k], trace[k + 1], name, k);
      var e: Env :| Interferes(trace[k], e) && trace[k + 1] == Deleted(e, name, k);
      WaitKeepsExclusive(s, trace[k], e, n);
    }
  }

  lemma RowsDeletedExclusive(s: States, e: Env, name: string, n: string)
    requires Exclusive(s, e, n) && name in s && s[name].status != "running"
    ensures Exclusive(s - {name}, e, n)
  {
  }

  lemma RemoveKeepsExclusive(a: World, b: World, name: string, n: string)
    requires WorldValid(a) && RemoveStep(a, b, name, name == n) && Exclusive(a.states, a.env, n)
    ensures Exclusive(b.states, b.env, n)
  {
    hide Resolve, WorldValid, Interferes, StopStep, Erasing, MaybeReconciled, Exclusive;
    if name in a.services {
      var looked: World, stopped: World, deleted: Env :| Removes(a, looked, stopped, deleted, b, name, name == n);
      LookKeepsValid(a, looked, name);
      LookKeepsExclusive(a.states, a.env, looked.states, looked.env, name, n);
      if looked.states[name].status == "running" {
        StopKeepsExclusive(looked, stopped, name, n);
        StopLeavesRow(looked, stopped, name, name == n);
      }
      WaitKeepsExclusive(stopped.states, stopped.env, deleted, n);
      RowsDeletedExclusive(stopped.states, deleted, name, n);
      var trace: seq<Env> :|
        Erasing(trace, name) && |trace| == DELETIONS + 1 && trace[0] == deleted && trace[DELETIONS] == b.env;
      ErasingKeepsExclusive(b.states, trace, name, n);
    } else {
      WaitKeepsExclusive(a.states, a.env, b.env, n);
    }
  }

  lemma InstallKeepsExclusive(a: World, b: World, config: Config, now: string, n: string)
    requires WorldValid(a) && InstallStep(a, b, config, now) && Exclusive(a.states, a.env, n)
    ensures Exclusive(b.states, b.env, n)
  {
    hide Resolve, Interferes, EnvValid, OwnLine, RowsShared, SignalsShared, RecordOf;
    WaitKeepsExclusive(a.states, a.env, b.env, n);
  }

  lemma StepKeepsExclusive(a: World, b: World, c: Command, n: string, site: Site, installed: set<Config>)
    requires WorldValid(a) && Within(a, site, installed) && Keeps(site, installed, n) && Exclusive(a.states, a.env, n)
    requires Step(a, b, c, Concerns(c, n))
    ensures Exclusive(b.states, b.env, n)
  {
    hide WorldValid, Within, Keeps, Exclusive, InstallStep;
    hide RemoveStep, StartStep, StopStep, Interferes, Swept, MaybeReconciled;
    match c {
      case Install(config, now) => InstallKeepsExclusive(a, b, config, now, n);
      case Remove(name) => RemoveKeepsExclusive(a, b, name, n);
      case Start(name) => StartKeepsExclusive(a, b, name, n, site, installed);
      case Stop(name) => StopKeepsExclusive(a, b, name, n);
      case Status(name) =>
        if name == "" {
          SweepKeepsExclusive(a.states, a.env, b.states, b.env, n);
        } else {
          LookKeepsExclusive(a.states, a.env, b.states, b.env, name, n);
        }
      case List => SweepKeepsExclusive(a.states, a.env, b.states, b.env, n);
      case Wait => WaitKeepsExclusive(a.states, a.env, b.env, n);
    }
  }

  /** One daemon per service, with the row that names it: whenever no command is running, in
      every run that was prompt for this service, if exactly its own daemons write its PID file;
      whatever the daemons of other services do otherwise. */
  lemma {:induction false} PromptRunsAreExclusive(ws: seq<World>, cs: seq<Command>, site: Site, installed: set<Config>,
                                                  n: string, k: nat)
    requires Run(ws, cs, site) && InstallsWithin(cs, installed) && Keeps(site, installed, n)
        && PromptFor(ws, cs, n) && k <= |cs|
    ensures Exclusive(ws[k].states, ws[k].env, n)
    ensures AtMostOne(ws[k].env, n)
  {
    hide Step, Exclusive, WorldValid, Keeps;
    if k == 0 {
      NoneIsExclusive(ws[0].states, ws[0].env, n);
    } else {
      PromptRunsAreExclusive(ws, cs, site, installed, n, k - 1);
      RunKeepsValid(ws, cs, site, k - 1);
      RunKeepsWithin(ws, cs, site, installed, k - 1);
      assert Step(ws[k - 1], ws[k], cs[k - 1], false);
      StepKeepsExclusive(ws[k - 1], ws[k], cs[k - 1], n, site, installed);
    }
    ExclusiveMeansOne(ws[k].states, ws[k].env, n);
  }

  lemma ExclusiveMeansOne(s: States, e: Env, n: string)
    requires Exclusive(s, e, n)
    ensures AtMostOne(e, n)
  {
  }

  /** A quiet start as a command. */
  lemma QuietStep(w: World, name: string, d: Spawn) returns (b: World)
    requires EnvValid(w.env) && name in w.services && name in w.states && w.states[name].status != "running"
    requires NewPid(w.env, d) && MayStart(w.env.site, LineFor(w.env.site, w.services[name]), d)
    ensures Step(w, b, Start(name), false) && EnvValid(b.env)
    ensures b == World(w.services, SetRow(w.states, name, Running(PidIn(w.env, name))), Started(w.env, name, d),
        w.signals)
  {
    hide LineFor, EnvValid, PidIn, Interferes, Starts, MayStart, Started;
    b := World(w.services, SetRow(w.states, name, Running(PidIn(w.env, name))), Started(w.env, name, d), w.signals);
    QuietStart(w.states, w.env, name, d, LineFor(w.env.site, w.services[name]));
  }

  lemma GivesUpAtOnce(w: World, name: string)
    requires EnvValid(w.env) && name in w.services && name in w.states && w.states[name].pid == 0
        && PidIn(w.env, name) == 0
    ensures Step(w, World(w.services, SetRow(w.states, name, GIVEN_UP), w.env, w.signals), Stop(name), false)
  {
    hide EnvValid, PidIn, Interferes, SetRow;
    InterferesReflexive(w.env);
    var b := World(w.services, SetRow(w.states, name, GIVEN_UP), w.env, w.signals);
    assert StopsOrGivesUp(w, w.env, b, name, false);
  }

  lemma Installed(site: Site, a: Config) returns (w: World)
    ensures Step(FreshWorld(site), w, Install(a, ""), false) && EnvValid(FreshEnv(site))
    ensures w == World(map[a.serviceName := RecordOf(a, "")], map[a.serviceName := INITIAL_STATE], FreshEnv(site), [])
  {
    hide Step, RecordOf, WorldValid;
    w := World(map[a.serviceName := RecordOf(a, "")], map[a.serviceName := INITIAL_STATE], FreshEnv(site), []);
    FreshWorldValid(site);
    SignalsOf(FreshWorld(site));
    InstallsOne(FreshWorld(site), w, a);
  }

  /** Promptness is needed. Whatever service is installed, if its line can become a daemon:
      starting, stopping and starting it, while the first daemon has not written its PID file,
      leaves two daemons. */
  lemma SlowDaemonsAddUp(site: Site, a: Config) returns (ws: seq<World>, cs: seq<Command>)
    requires CanStart(site, InstalledLine(site, a))
    ensures Run(ws, cs, site)
    ensures var n := a.serviceName; cs == [Install(a, ""), Start(n), Stop(n), Start(n)]
    ensures !AtMostOne(ws[4].env, a.serviceName)
    ensures Guarded(ws[1].states, ws[1].env, a.serviceName) && !Guarded(ws[3].states, ws[3].env, a.serviceName)
  {
    hide Step, LineFor, Reads, RecordOf, Resolve, PidFile, EnvValid;
    var n := a.serviceName;
    var c: Config :| Reads(site, InstalledLine(site, a), c);
    var w1 := Installed(site, a);
    var w2 := QuietStep(w1, n, NewDaemon(1, c));
    var w3 := World(w2.services, SetRow(w2.states, n, GIVEN_UP), w2.env, []);
    GivesUpAtOnce(w2, n);
    var w4 := QuietStep(w3, n, NewDaemon(2, c));
    ws, cs := [FreshWorld(site), w1, w2, w3, w4], [Install(a, ""), Start(n), Stop(n), Start(n)];
    assert Living(w4.env, 1, n) && Living(w4.env, 2, n) && Living(w3.env, 1, n);
  }

  /** A prompt start as a command. */
  lemma PromptStep(w: World, name: string, d: Spawn) returns (b: World)
    requires EnvValid(w.env) && name in w.services && name in w.states && w.states[name].status != "running"
    requires d.NewDaemon? && NewPid(w.env, d) && MayStart(w.env.site, LineFor(w.env.site, w.services[name]), d)
    requires UsesPidFile(d.config, PidFile(w.env.site, name))
    ensures Step(w, b, Start(name), true) && Step(w, b, Start(name), false) && EnvValid(b.env)
    ensures b == World(w.services, SetRow(w.states, name, Running(d.pid)), Written(w.env, name, d), w.signals)
  {
    hide LineFor, EnvValid, Interferes, Starts, MayStart, Resolve, PidFile;
    var line := LineFor(w.env.site, w.services[name]);
    b := World(w.services, SetRow(w.states, name, Running(d.pid)), Written(w.env, name, d), w.signals);
    PromptStart(w.states, w.env, name, d, line);
    PromptIsStart(w.states, w.env, b.states, b.env, name, line);
    WritingInterferes(w.env, name, d);
  }

  /** `start` again, after the recorded process has died. */
  lemma RestartStep(w: World, name: string, d: Spawn) returns (b: World)
    requires EnvValid(w.env) && name in w.services && name in w.states && w.states[name].status == "running"
    requires w.states[name].pid > 0 && w.states[name].pid !in w.env.alive
    requires NewPid(w.env, d) && MayStart(w.env.site, LineFor(w.env.site, w.services[name]), d)
    ensures Step(w, b, Start(name), false) && EnvValid(b.env)
    ensures b.services == w.services && b.env == Started(w.env, name, d) && b.signals == w.signals && name in b.states
    ensures b.states[name].status == "running" && b.states[name].pid == PidIn(w.env, name)
  {
    hide LineFor, EnvValid, Interferes, Starts, MayStart, Resolve, PidIn;
    var e := Freed(w.states, w.env, name);
    NotAliveFreed(w.env, w.states[name].pid);
    b := World(w.services, SetRow(Corrected(w.states, w.env, name), name, Running(PidIn(e, name))),
      Started(e, name, d), w.signals);
    StartWhenFreed(w.states, w.env, name, d, LineFor(w.env.site, w.services[name]));
    StartedIsValid(w.env, name, d);
  }

  lemma NotAliveFreed(e: Env, pid: int)
    requires EnvValid(e) && pid !in e.alive
    ensures Without(e, pid) == e
  {
    hide Resolve, LogUsed, Bounded;
    assert e.alive - {pid} == e.alive && e.unwritten - {pid} == e.unwritten;
  }

  /** Two daemons without any `stop`: a daemon dies and leaves its PID file, which the next start
      reads as its own; the start after that finds the recorded process dead. */
  lemma StaleFilesAddUp(site: Site, a: Config, c: Config) returns (ws: seq<World>, cs: seq<Command>)
    requires Reads(site, InstalledLine(site, a), c) && UsesPidFile(c, PidFile(site, a.serviceName))
    ensures Run(ws, cs, site)
    ensures var n := a.serviceName; cs == [Install(a, ""), Start(n), Wait, Start(n), Start(n)]
    ensures Step(ws[1], ws[2], Start(a.serviceName), true) && !AtMostOne(ws[5].env, a.serviceName)
  {
    hide Step, LineFor, Reads, RecordOf, Resolve, PidFile, EnvValid;
    var n := a.serviceName;
    var w1 := Installed(site, a);
    var w2 := PromptStep(w1, n, NewDaemon(1, c));
    var w3 := w2.(env := Without(w2.env, 1));
    DeathInterferes(w2.env, 1);
    DeathIsWait(w2, 1);
    var w4 := RestartStep(w3, n, NewDaemon(2, c));
    var w5 := RestartStep(w4, n, NewDaemon(3, c));
    ws, cs := [FreshWorld(site), w1, w2, w3, w4, w5], [Install(a, ""), Start(n), Wait, Start(n), Start(n)];
    assert Living(w5.env, 2, n) && Living(w5.env, 3, n);
  }

  lemma DeathIsWait(w: World, pid: int)
    requires EnvValid(w.env)
    ensures Step(w, w.(env := Without(w.env, pid)), Wait, false)
  {
    hide EnvValid, Interferes, Without;
    DeathInterferes(w.env, pid);
  }

  lemma NoneRestores(w: World, site: Site, installed: set<Config>, n: string)
    requires EnvValid(w.env) && Within(w, site, installed) && Keeps(site, installed, n) && KeepsLog(site, installed, n)
    requires forall p :: !Living(w.env, p, n)
    ensures NoRestorer(w.env, n)
  {
    hide Resolve, LogUsed, PidFile, LogOf, Within, Keeps, KeepsLog, Writes, LogsTo;
    EnvValidFacts(w.env);
    SiteWithin(w, site, installed);
    forall p ensures !Restorer(w.env, p, n) {
      if p in w.env.alive {
        MadeWrites(w, site, installed, n, p);
        MadeLogs(w, site, installed, n, p);
        assert !Living(w.env, p, n);
      }
    }
  }

  lemma MadeLogs(w: World, site: Site, installed: set<Config>, n: string, pid: int)
    requires Within(w, site, installed) && KeepsLog(site, installed, n) && pid in w.env.owner
    ensures LogsTo(w.env, pid, LogOf(site, n)) ==> OwnedBy(w.env, pid, n)
  {
    hide Resolve, LogUsed, LogOf, InstalledLine, Reads, StoredFrom;
    assert MadeFrom(w.env, pid, installed);
  }

  lemma PromptStopLeavesNone(a: World, b: World, n: string)
    requires WorldValid(a) && StopStep(a, b, n, true) && n in a.services && Exclusive(a.states, a.env, n)
    ensures forall p :: !Living(b.env, p, n)
  {
    hide WorldValid, Exclusive, StopStep;
    StopKeepsExclusive(a, b, n, n);
    StopLeavesRow(a, b, n, true);
    StoppedMeansNone(b.states, b.env, n);
  }

  lemma StoppedMeansNone(s: States, e: Env, n: string)
    requires Exclusive(s, e, n) && n in s && s[n].status != "running"
    ensures forall p :: !Living(e, p, n)
  {
  }

  /** A prompt removal leaves nothing of a service whose files only its own daemons write. */
  lemma PromptRemovalCleans(a: World, b: World, n: string, site: Site, installed: set<Config>)
    requires WorldValid(a) && Within(a, site, installed) && Keeps(site, installed, n) && KeepsLog(site, installed, n)
    requires n in a.services && Exclusive(a.states, a.env, n) && RemoveStep(a, b, n, true)
    ensures Gone(b.env, n) && forall p :: !Living(b.env, p, n)
  {
    hide WorldValid, EnvValid, Interferes, StopStep, Keeps, KeepsLog;
    hide Erasing, MaybeReconciled, Exclusive, Gone, NoRestorer, MadeFrom, StoredFrom, Named;
    var looked: World, stopped: World, deleted: Env :| Removes(a, looked, stopped, deleted, b, n, true);
    LookKeepsValid(a, looked, n);
    LookKeepsExclusive(a.states, a.env, looked.states, looked.env, n, n);
    SameSite(a.env, looked.env);
    SignalsOf(looked);
    if looked.states[n].status == "running" {
      PromptStopLeavesNone(looked, stopped, n);
      StopShrinks(looked, stopped, n, true);
    } else {
      StoppedMeansNone(looked.states, looked.env, n);
    }
    InterferesAddsNone(stopped.env, deleted, n);
    InterferenceKeepsValid(stopped.env, deleted);
    SameSite(stopped.env, deleted);
    MadeLater(a.env, deleted, installed);
    NoneRestores(a.(env := deleted), site, installed, n);
    RemoveCleansIff(deleted, n);
    var trace: seq<Env> :|
      Erasing(trace, n) && |trace| == DELETIONS + 1 && trace[0] == deleted && trace[DELETIONS] == b.env;
    ErasingAddsNone(trace, n, n);
  }
}
