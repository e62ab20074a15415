/** src/service_registry.cc: the commands that manage services, with the machine around them
    moving between any two of their steps. */
module ServiceRegistries {
  import opened FilePaths
  import opened LogNames
  import opened Configs
  import opened LaunchLine
  import opened Databases
  import opened Machines
  import opened Hosts
  import opened Lifecycles
  import opened Provenance
  import opened Exclusiveness

  datatype Line = Line(name: string, status: string, pid: int, frequencyMs: int, command: string)

  class ServiceRegistry {
    const db: Database
    const host: Host

    /** A new installation. */
    constructor (host: Host)
      requires host.Valid() && host.Snapshot() == FreshEnv(host.site) && host.signals == []
      ensures this.host == host && fresh(db) && Inv() && World() == FreshWorld(host.site)
    {
      this.host := host;
      db := new Database();
      new;
      FreshWorldValid(host.site);
    }

    ghost function World(): World
      reads db, host, host.dir
    {
      Lifecycles.World(db.services, db.states, host.Snapshot(), host.signals)
    }

    /** Tables and machine are what they should be, also in the middle of a command. */
    ghost predicate Usable()
      reads db, host, host.dir
    {
      db.Valid() && host.Valid()
    }

    /** What holds whenever no command is running. */
    ghost predicate Inv()
      reads db, host, host.dir
    {
      Usable() && WorldValid(World())
    }

    /** The machine moves on while a command is between two steps. */
    method Pause(ghost start: Env)
      requires Usable() && EnvValid(start) && Interferes(start, host.Snapshot())
      modifies host`alive, host`unwritten, host`pidFiles, host.dir
      ensures Usable() && Interferes(start, host.Snapshot()) && Interferes(old(host.Snapshot()), host.Snapshot())
    {
      hide EnvValid, Interferes;
      ghost var before := host.Snapshot();
      host.Interfere();
      InterferesTransitive(start, before, host.Snapshot());
    }

    /** The same, from now on. */
    method Wait()
      requires Usable()
      modifies host`alive, host`unwritten, host`pidFiles, host.dir
      ensures Usable() && Interferes(old(host.Snapshot()), host.Snapshot())
    {
      host.Interfere();
    }

    /** The stored status, after correcting a row whose process is gone. The process may also
        die while this is looking. */
    method GetActualStatus(name: string) returns (status: string)
      requires Usable()
      modifies db`states, host`alive, host`unwritten, host`pidFiles, host.dir
      ensures Usable() && Looked(old(db.states), old(host.Snapshot()), db.states, host.Snapshot(), name)
      ensures status == if name in db.states then db.states[name].status else "unknown"
    {
      hide EnvValid, Interferes;
      ghost var start := host.Snapshot();
      InterferesReflexive(start);
      var state := db.GetState(name);
      if state.None? {
        return "unknown";
      }
      Pause(start);
      SameSite(start, host.Snapshot());
      assert db.states == db.states[name := state.value];
      if state.value.status == "running" && state.value.pid > 0 {
        if !host.IsRunning(state.value.pid) {
          var updated := state.value.(status := "stopped", pid := 0);
          ghost var checked := host.Snapshot();
          Pause(start);
          SameSite(checked, host.Snapshot());
          db.UpdateState(name, updated);
          return "stopped";
        }
        return "running";
      }
      return state.value.status;
    }

    /** Registers a service under a free name. */
    method CmdInstall(config: Config, now: string) returns (rc: int)
      requires Usable()
      modifies db, host`alive, host`unwritten, host`pidFiles, host.dir
      ensures Usable() && InstallStep(old(World()), World(), config, now)
      ensures rc == if config.serviceName in old(db.services) then 1 else 0
      ensures rc == 0 ==>
                var name := config.serviceName;
                && name in db.services && StoresConfig(db.services[name], config)
                && name in db.states && db.states[name] == ServiceState("stopped", 0, "", "", 0)
    {
      hide EnvValid, Interferes;
      InterferesReflexive(host.Snapshot());
      var existing := db.GetService(config.serviceName);
      if existing.Some? {
        return 1;
      }
      Wait();
      var rec := ServiceRecord(config.serviceName, config.command, config.frequency, config.synchronous,
        config.jitterMs, config.jitterDistribution, config.fireProbability, "", "");
      var ok := db.InsertService(rec, now);
      if !ok {
        return 1;
      }
      return 0;
    }

    /** Starts a service that is not running. It fails, leaving the row corrected at most, if
        there is no such service, if the service is running, or if the shell cannot be run. */
    method CmdStart(name: string) returns (rc: int)
      requires Usable()
      modifies db`states, host, host.dir
      ensures Usable() && StartStep(old(World()), World(), name, false)
      ensures rc == 0 || rc == 1
      ensures rc == 1 ==> Looked(old(db.states), old(host.Snapshot()), db.states, host.Snapshot(), name)
      ensures rc == 0 ==> name in old(db.services) &&
                          Starts(old(db.states), old(host.Snapshot()), db.states, host.Snapshot(), name,
                                 LineFor(host.site, old(db.services)[name]), false)
      ensures rc == 0 ==> name in db.states && db.states[name].status == "running"
      ensures StampsAre(old(db.states), db.states, name, rc == 0, false)
    {
      hide EnvValid, Interferes, LineFor, MaybeReconciled, MayStart, Started;
      ghost var start, before := host.Snapshot(), db.states;
      var service := db.GetService(name);
      if service.None? {
        NothingLooked(before, start, name);
        LookStamps(before, db.states, name, start.alive, host.alive, name);
        return 1;
      }
      var status := GetActualStatus(name);
      LookStamps(before, db.states, name, start.alive, host.alive, name);
      if status == "running" {
        return 1;
      }
      ghost var looked := db.states;
      LookedLater(before, start, looked, host.Snapshot(), name);
      Pause(start);
      ghost var e := host.Snapshot();
      SameSite(start, e);
      ghost var d, read;
      rc, d, read := StartDaemon(name, service.value);
      assert Looked(before, start, looked, e, name);
      if rc == 0 {
        StartStamps(before, start, db.states, host.Snapshot(), name, LineFor(host.site, service.value), false, name);
      }
    }

    /** Runs the launch line, and records the PID found in the PID file (0 if there is none). */
    method StartDaemon(name: string, service: ServiceRecord) returns (rc: int, ghost d: Spawn, ghost read: Env)
      requires Usable() && name in db.services && service == db.services[name] && db.states[name].status != "running"
      modifies db`states, host, host.dir
      ensures Usable() && host.signals == old(host.signals) && (rc == 0 || rc == 1)
      ensures rc == 1 ==> db.states == old(db.states) && host.Snapshot() == old(host.Snapshot())
      ensures rc == 0 ==> Launches(old(db.states), old(host.Snapshot()), db.states, host.Snapshot(), name,
                                   LineFor(host.site, service), d, read)
    {
      hide EnvValid, Interferes, LaunchText, Reads, Started;
      read := host.Snapshot();
      var line := CommandText(service, PathsFor(host.site, name));
      var ok, spawned := host.Launch(name, line);
      d := spawned;
      if !ok {
        return 1, d, read;
      }
      var recorded;
      recorded, read := AwaitPidFile(name);
      db.UpdateState(name, ServiceState("running", recorded, "now", "", 0));
      return 0, d, read;
    }

    /** Waits for the PID file of a new daemon, and reads it. */
    method AwaitPidFile(name: string) returns (pid: int, ghost read: Env)
      requires Usable()
      modifies host`alive, host`unwritten, host`pidFiles, host.dir
      ensures Usable() && Interferes(old(host.Snapshot()), read) && Interferes(read, host.Snapshot())
      ensures pid == PidIn(read, name)
    {
      hide EnvValid, Interferes, Resolve, PidFile;
      ghost var start := host.Snapshot();
      InterferesReflexive(start);
      var path := PidFile(host.site, name);
      var i := 0;
      while i < 10
        invariant Usable() && Interferes(start, host.Snapshot())
      {
        Pause(start);
        if path in host.pidFiles {
          break;
        }
        i := i + 1;
      }
      pid := host.ReadPidFile(name);
      read := host.Snapshot();
      Wait();
    }

    /** The process to stop: the PID in the row, or else in the PID file; 0 if neither has one. */
    method FindTarget(name: string) returns (target: int)
      requires Usable() && name in db.services
      ensures if TargetOf(db.states, host.Snapshot(), name) > 0
          then target == TargetOf(db.states, host.Snapshot(), name)
              else target <= 0
    {
      hide Resolve, EnvValid;
      var state := db.GetState(name);
      target := if state.Some? then state.value.pid else 0;
      if target <= 0 {
        var pid := host.ReadPidFile(name);
        if pid > 0 {
          target := pid;
        }
      }
    }

    /** The wait for a signalled process to die. */
    method AwaitExit(target: int)
      requires Usable()
      modifies host`alive, host`unwritten, host`pidFiles, host.dir
      ensures Usable() && Interferes(old(host.Snapshot()), host.Snapshot())
    {
      hide EnvValid, Interferes;
      ghost var start := host.Snapshot();
      InterferesReflexive(start);
      var i := 0;
      while i < 20
        invariant Usable() && Interferes(start, host.Snapshot())
      {
        Pause(start);
        if !host.IsRunning(target) {
          break;
        }
        i := i + 1;
      }
    }

    /** Stops a service's daemon. */
    method CmdStop(name: string) returns (rc: int)
      requires Usable()
      modifies db`states, host`alive, host`unwritten, host`pidFiles, host`signals, host.dir
      ensures Usable() && StopStep(old(World()), World(), name, false)
      ensures rc == 0 || rc == 1
      ensures host.signals == old(host.signals) <==> rc == 1
      ensures StampsAre(old(db.states), db.states, name, false, rc == 0)
      ensures name in old(db.services) ==>
                name in db.states && db.states[name].status == "stopped" && db.states[name].pid == 0
      ensures rc == 0 ==> PidFile(host.site, name) !in host.pidFiles
    {
      hide EnvValid, Interferes, TargetOf, PidFile, StampsAre;
      InterferesReflexive(host.Snapshot());
      ghost var a := World();
      var service := db.GetService(name);
      if service.None? {
        SameStamps(db.states, name);
        return 1;
      }
      Wait();
      ghost var read := host.Snapshot();
      var target := FindTarget(name);
      Wait();
      if target <= 0 || !host.IsRunning(target) {
        db.UpdateState(name, ServiceState("stopped", 0, "", "", 0));
        assert StopsOrGivesUp(a, read, World(), name, false);
        StopStamps(a, World(), name, name, false);
        return 1;
      }
      ghost var found := host.Snapshot();
      ghost var waited, dropped := StopDaemon(name, target);
      assert Stopping(read, found, waited, dropped, target, false);
      SameSite(a.env, read);
      assert StopsOrGivesUp(a, read, World(), name, false);
      StopStamps(a, World(), name, name, false);
      assert host.Snapshot().pidFiles == host.pidFiles;
      return 0;
    }

    /** Signals the daemon, waits for it, records that it stopped, and removes the PID file. */
    method StopDaemon(name: string, target: int) returns (ghost waited: Env, ghost dropped: Env)
      requires Usable() && name in db.services
      modifies db`states, host`alive, host`unwritten, host`pidFiles, host`signals, host.dir
      ensures Usable() && host.signals == old(host.signals) + [(target, name)]
      ensures Interferes(old(host.Snapshot()), waited) && Interferes(waited, dropped)
      ensures host.Snapshot() == WithoutPidFile(dropped, name)
      ensures db.states == SetRow(old(db.states), name, STOPPED)
    {
      hide EnvValid, Interferes, Resolve, PidFile;
      host.Terminate(target, name);
      AwaitExit(target);
      waited := host.Snapshot();
      db.UpdateState(name, ServiceState("stopped", 0, "", "now", 0));
      Wait();
      dropped := host.Snapshot();
      host.RemovePidFile(name);
    }

    /** One deletion of `remove`, after a pause. */
    method Delete(name: string, i: nat)
      requires Usable() && i < DELETIONS
      modifies host`alive, host`unwritten, host`pidFiles, host.dir
      ensures Usable() && Deletes(old(host.Snapshot()), host.Snapshot(), name, i)
    {
      hide EnvValid, Interferes, Resolve, PidFile, LogOf, FileName;
      Wait();
      ghost var e := host.Snapshot();
      if i == 0 {
        host.RemovePidFile(name);
      } else if i <= 10 {
        host.RemoveLogFile(name, Rotated(i - 1));
      } else {
        host.RemoveLogFile(name, Current);
      }
      assert host.Snapshot() == Deleted(e, name, i);
    }

    /** Deletes the PID file, the rotated files numbered 0 to 9 and the live log. */
    method CleanUp(name: string)
      requires Usable()
      modifies host`alive, host`unwritten, host`pidFiles, host.dir
      ensures Usable() && Erases(old(host.Snapshot()), host.Snapshot(), name)
    {
      hide Deletes, EnvValid;
      ghost var trace := [host.Snapshot()];
      Delete(name, 0);
      trace := trace + [host.Snapshot()];
      var i := 0;
      while i < 10
        invariant 0 <= i <= 10 && Usable()
        invariant Erasing(trace, name) && |trace| == i + 2 && trace[0] == old(host.Snapshot())
            && trace[i + 1] == host.Snapshot()
      {
        Delete(name, i + 1);
        TraceGrows(trace, host.Snapshot(), name);
        trace := trace + [host.Snapshot()];
        i := i + 1;
      }
      Delete(name, 11);
      TraceGrows(trace, host.Snapshot(), name);
      trace := trace + [host.Snapshot()];
    }

    /** Unregisters a service and cleans up after it. */
    method CmdRemove(name: string) returns (rc: int)
      requires Usable()
      modifies db, host`alive, host`unwritten, host`pidFiles, host`signals, host.dir
      ensures Usable() && RemoveStep(old(World()), World(), name, false)
      ensures rc == if name in old(db.services) then 0 else 1
    {
      hide EnvValid, Interferes, StopStep, Erases, MaybeReconciled;
      InterferesReflexive(host.Snapshot());
      ghost var a := World();
      var existing := db.GetService(name);
      if existing.None? {
        return 1;
      }
      var status := GetActualStatus(name);
      ghost var looked := World();
      LookedKeys(a.states, a.env, looked.states, looked.env, name);
      if status == "running" {
        var stopped := CmdStop(name);
      }
      ghost var stopped := World();
      StopServices(looked, stopped, name);
      Wait();
      ghost var deleted := host.Snapshot();
      var removed := db.RemoveService(name);
      if !removed {
        return 1;
      }
      CleanUp(name);
      assert Removes(a, looked, stopped, deleted, World(), name, false);
      return 0;
    }

    /** Corrects one row and describes it. */
    method Look(service: ServiceRecord) returns (line: Line)
      requires Usable() && service.name in db.states
      modifies db`states, host`alive, host`unwritten, host`pidFiles, host.dir
      ensures Usable() && Looked(old(db.states), old(host.Snapshot()), db.states, host.Snapshot(), service.name)
      ensures service.name in db.states && ShowsService(line, service, db.states[service.name])
    {
      hide EnvValid, Interferes;
      var status := GetActualStatus(service.name);
      var state := db.GetState(service.name);
      var pid := if state.Some? then state.value.pid else 0;
      line := Line(service.name, status, pid, service.frequencyMs, service.command);
    }

    /** Corrects all rows, in name order, and prints them. */
    method Sweep() returns (lines: seq<Line>)
      requires Usable()
      modifies db`states, host`alive, host`unwritten, host`pidFiles, host.dir
      ensures Usable() && SweepStep(old(World()), World())
      ensures host.alive == old(host.alive) ==> db.states == ReconcileAll(old(db.states), host.alive)
      ensures Printed(lines, db.services, db.states) && Truthful(lines, old(host.alive), host.alive)
      ensures forall n :: StampsAre(old(db.states), db.states, n, false, false)
    {
      hide EnvValid, Interferes, Listing, Sweeping, MaybeReconciled, Truthful, Printed, StampsAre;
      EnvSubsets(host.Snapshot());
      ghost var start, before := host.Snapshot(), db.states;
      InterferesReflexive(start);
      var services := db.ListServices();
      SweepStart(services, db.services, before, start.alive);
      lines := [];
      var k := 0;
      while k < |services|
        invariant 0 <= k <= |services| && db.services == old(db.services)
        invariant Usable() && Interferes(start, host.Snapshot()) && host.signals == old(host.signals)
        invariant Sweeping(services, k, lines, before, db.states, start.alive, host.alive)
      {
        ghost var e, states := host.Snapshot(), db.states;
        SweepHas(services, k, lines, before, states, start.alive, e.alive);
        var line := Look(services[k]);
        InterferesTransitive(start, e, host.Snapshot());
        SameSite(start, e);
        SameSite(e, host.Snapshot());
        SweepAdvance(services, db.services, k, lines, before, states, db.states, start.alive, e.alive, host.alive,
          line);
        lines := lines + [line];
        k := k + 1;
      }
      SweepDone(services, db.services, lines, before, db.states, start.alive, host.alive);
      PositiveLater(start, host.Snapshot());
      SweepStamps(before, db.states, start.alive, host.alive);
      PrintedIsTruthful(lines, db.services, before, db.states, start.alive, host.alive);
    }

    /** Lists all services with their corrected status. */
    method CmdList() returns (rc: int, lines: seq<Line>)
      requires Usable()
      modifies db`states, host`alive, host`unwritten, host`pidFiles, host.dir
      ensures Usable() && SweepStep(old(World()), World()) && rc == 0
      ensures host.alive == old(host.alive) ==> db.states == ReconcileAll(old(db.states), host.alive)
      ensures Printed(lines, db.services, db.states) && Truthful(lines, old(host.alive), host.alive)
      ensures forall n :: StampsAre(old(db.states), db.states, n, false, false)
    {
      hide EnvValid, Interferes, Truthful, Printed, Swept, StampsAre;
      lines := Sweep();
      rc := 0;
    }

    /** Shows one service, or all of them if the name is empty. */
    method CmdStatus(name: string) returns (rc: int, lines: seq<Line>)
      requires Usable()
      modifies db`states, host`alive, host`unwritten, host`pidFiles, host.dir
      ensures Usable() && Step(old(World()), World(), Status(name), false)
      ensures rc == if name != "" && name !in old(db.services) then 1 else 0
      ensures name == "" ==>
                && (host.alive == old(host.alive) ==> db.states == ReconcileAll(old(db.states), host.alive))
                && Printed(lines, db.services, db.states)
      ensures name != "" && rc == 0 ==>
          && name in db.services && name in db.states && |lines| == 1
          && lines[0].name == name && ShowsService(lines[0], db.services[name], db.states[name])
      ensures rc == 1 ==> lines == []
      ensures Truthful(lines, old(host.alive), host.alive)
      ensures forall n :: StampsAre(old(db.states), db.states, n, false, false)
    {
      hide EnvValid, Interferes, MaybeReconciled, Swept, Truthful, StampsAre;
      if name == "" {
        lines := Sweep();
        return 0, lines;
      }
      var service := db.GetService(name);
      if service.None? {
        NothingLooked(db.states, host.Snapshot(), name);
        LookLeavesStamps(db.states, db.states, name, host.alive, host.alive);
        assert Truthful([], host.alive, host.alive) by {
          NothingPrinted(host.alive);
        }
        return 1, [];
      }
      ghost var start, before := host.Snapshot(), db.states;
      var line := Look(service.value);
      PositiveLater(start, host.Snapshot());
      LookLeavesStamps(before, db.states, name, start.alive, host.alive);
      LineIsTruthful(line, service.value, before, db.states, start.alive, host.alive);
      return 0, [line];
    }

    /** One command, given to a system in which none is running. */
    method Perform(command: Command)
      requires Inv()
      modifies db, host, host.dir
      ensures Inv() && Step(old(World()), World(), command, false)
    {
      hide WorldValid, InstallStep, RemoveStep, StartStep, StopStep;
      hide SweepStep, EnvValid, Interferes, Looked, Starts, Printed;
      match command {
        case Install(config, now) => var rc := CmdInstall(config, now);
        case Remove(name) => var rc := CmdRemove(name);
        case Start(name) => var rc := CmdStart(name);
        case Stop(name) => var rc := CmdStop(name);
        case Status(name) => var rc, lines := CmdStatus(name);
        case List => var rc, lines := CmdList();
        case Wait => Wait();
      }
      StepKeepsValid(old(World()), World(), command);
    }

    /** The life of an installation: any commands, in any order, with the machine moving between
        and inside them. It is a run, so all that is proved of runs holds. In particular, if no
        launch line of one installed service makes a daemon that writes another's PID file, every
        row and every signal is that of a daemon of the service meant. For every service that
        keeps its PID file to itself and that the run was prompt for, each living daemon has
        written its PID file and is the one its row shows as running, so there is at most one.
        Without promptness there is at most one as long as every `start` finds the living daemon
        guarded. */
    method Session(commands: seq<Command>) returns (ghost ws: seq<World>)
      requires Inv() && World() == FreshWorld(host.site)
      modifies db, host, host.dir
      ensures Inv() && Run(ws, commands, host.site) && ws[|commands|] == World()
      ensures Separate(host.site, InstalledBy(commands)) ==> OwnOnly(World())
      ensures forall n: string, p: int, q: int
                | Keeps(host.site, InstalledBy(commands), n) && PromptFor(ws, commands, n)
                  && Living(host.Snapshot(), p, n) && Living(host.Snapshot(), q, n) ::
                p == q && p !in host.unwritten && RunsAs(db.states, n, p)
      ensures forall n: string | GuardedStarts(ws, commands, n) :: AtMostOne(host.Snapshot(), n)
    {
      hide WorldValid, Step, EnvValid;
      ws := [World()];
      for k := 0 to |commands|
        invariant Inv() && |ws| == k + 1 && ws[0] == FreshWorld(host.site) && ws[k] == World()
        invariant forall i | 0 <= i < k :: Step(ws[i], ws[i + 1], commands[i], false)
      {
        Perform(commands[k]);
        ws := ws + [World()];
      }
      SessionResults(ws, commands, host.site);
    }
  }

  /** Every `start` of the service finds its living process, if any, guarded by the row. */
  ghost predicate GuardedStarts(ws: seq<World>, cs: seq<Command>, n: string)
    requires |ws| == |cs| + 1
  {
    forall i | 0 <= i < |cs| && cs[i] == Start(n) :: Guarded(ws[i].states, ws[i].env, n)
  }

  /** Everything that the commands install. */
  function InstalledBy(cs: seq<Command>): set<Config> {
    set k | 0 <= k < |cs| && cs[k].Install? :: cs[k].config
  }

  lemma SessionResults(ws: seq<World>, cs: seq<Command>, site: Site)
    requires Run(ws, cs, site)
    ensures var (w, installed) := (ws[|cs|], InstalledBy(cs));
            && (Separate(site, installed) ==> OwnOnly(w))
            && (forall n: string, p: int, q: int
                  | Keeps(site, installed, n) && PromptFor(ws, cs, n) && Living(w.env, p, n) && Living(w.env, q, n) ::
                  p == q && p !in w.env.unwritten && RunsAs(w.states, n, p))
            && (forall n: string | GuardedStarts(ws, cs, n) :: AtMostOne(w.env, n))
  {
    hide Step, OwnOnly, WorldValid, Separate, Keeps, PromptFor, Guarded;
    var w, installed := ws[|cs|], InstalledBy(cs);
    assert InstallsWithin(cs, installed);
    if Separate(site, installed) {
      RunKeepsValid(ws, cs, site, |cs|);
      RunKeepsWithin(ws, cs, site, installed, |cs|);
      SeparateMeansOwn(w, site, installed);
    }
    forall n: string, p: int, q: int
      | Keeps(site, installed, n) && PromptFor(ws, cs, n) && Living(w.env, p, n) && Living(w.env, q, n)
      ensures p == q && p !in w.env.unwritten && RunsAs(w.states, n, p)
    {
      PromptRunsAreExclusive(ws, cs, site, installed, n, |cs|);
    }
    forall n: string | GuardedStarts(ws, cs, n) ensures AtMostOne(w.env, n) {
      GuardedRunsKeepOne(ws, cs, site, n, |cs|);
    }
  }

  lemma NothingLooked(states: States, e: Env, name: string)
    requires EnvValid(e) && name !in states
    ensures Looked(states, e, states, e, name)
  {
  }

  /** A look that is over may be counted as a later one. */
  lemma LookedLater(s0: States, e0: Env, s1: States, e1: Env, name: string)
    requires EnvValid(e0) && Looked(s0, e0, s1, e1, name)
    ensures forall e2: Env | Interferes(e1, e2) :: Looked(s0, e0, s1, e2, name)
  {
    hide EnvValid, Interferes;
    forall e2: Env | Interferes(e1, e2) ensures Looked(s0, e0, s1, e2, name) {
      InterferesTransitive(e0, e1, e2);
      SameSite(e0, e1);
      SameSite(e1, e2);
    }
  }

  lemma LookedKeys(s0: States, e0: Env, s1: States, e1: Env, name: string)
    requires Looked(s0, e0, s1, e1, name)
    ensures s1.Keys == s0.Keys
  {
  }

  lemma StopServices(a: World, b: World, name: string)
    ensures StopStep(a, b, name, false) ==> b.services == a.services
  {
  }

  lemma TraceGrows(trace: seq<Env>, e: Env, name: string)
    requires Erasing(trace, name) && |trace| <= DELETIONS && Deletes(trace[|trace| - 1], e, name, |trace| - 1)
    ensures Erasing(trace + [e], name)
  {
  }

  /** A sweep through `list` that has done its first k services. */
  ghost predicate Sweeping(list: seq<ServiceRecord>, k: nat, lines: seq<Line>, before: States, now: States,
                           first: set<int>, last: set<int>)
  {
    && k <= |list| && |lines| == k && now.Keys == before.Keys
    && (forall i | 0 <= i < |list| :: list[i].name in before)
    && (forall i | 0 <= i < k :: ShowsService(lines[i], list[i], now[list[i].name]))
    && (forall i | 0 <= i < k :: SweptRow(before[list[i].name], now[list[i].name], first, last))
    && (forall i | k <= i < |list| :: now[list[i].name] == before[list[i].name])
  }

  lemma SweepStart(list: seq<ServiceRecord>, services: Services, states: States, alive: set<int>)
    requires Listing(list, services) && services.Keys == states.Keys
    ensures Sweeping(list, 0, [], states, states, alive, alive)
  {
  }

  lemma SweepHas(list: seq<ServiceRecord>, k: nat, lines: seq<Line>, before: States, now: States,
                 first: set<int>, last: set<int>)
    requires Sweeping(list, k, lines, before, now, first, last) && k < |list|
    ensures list[k].name in now
  {
  }

  lemma SweepAdvance(list: seq<ServiceRecord>, services: Services, k: nat, lines: seq<Line>,
                                        before: States, now: States, after: States,
                                        first: set<int>, last: set<int>, later: set<int>, line: Line)
    requires Listing(list, services) && k < |list|
    requires Sweeping(list, k, lines, before, now, first, last) && later <= last <= first
    requires MaybeReconciled(now, after, list[k].name, last, later)
    requires list[k].name in after && ShowsService(line, list[k], after[list[k].name])
    ensures Sweeping(list, k + 1, lines + [line], before, after, first, later)
  {
    forall i | 0 <= i < |list| && i != k ensures list[i].name != list[k].name {
      if i < k {
        ListedOnce(list, services, i, k);
      } else {
        ListedOnce(list, services, k, i);
      }
    }
  }

  lemma SweepDone(list: seq<ServiceRecord>, services: Services, lines: seq<Line>,
                                     before: States, now: States, first: set<int>, last: set<int>)
    requires Listing(list, services) && services.Keys == before.Keys
    requires Sweeping(list, |list|, lines, before, now, first, last)
    ensures Swept(before, now, first, last) && Printed(lines, services, now)
    ensures first == last ==> now == ReconcileAll(before, last)
  {
    SweepReachesAll(list, services, lines, before, now, first, last);
    AllPrinted(list, services, lines, before, now, first, last);
    if first == last {
      SweptAtOnce(before, now, last);
    }
  }

  lemma AllPrinted(list: seq<ServiceRecord>, services: Services, lines: seq<Line>,
                   before: States, now: States, first: set<int>, last: set<int>)
    requires Listing(list, services) && services.Keys == before.Keys
    requires Sweeping(list, |list|, lines, before, now, first, last)
    ensures Printed(lines, services, now)
  {
    hide Before, SweptRow;
    assert forall k | 0 <= k < |lines| :: lines[k].name == list[k].name;
    forall n | n in services ensures exists k :: 0 <= k < |lines| && lines[k].name == n {
      assert Listed(list, n);
      var k :| 0 <= k < |list| && list[k].name == n;
      assert lines[k].name == n;
    }
  }

  lemma SweepReachesAll(list: seq<ServiceRecord>, services: Services, lines: seq<Line>,
                                           before: States, now: States, first: set<int>, last: set<int>)
    requires Listing(list, services) && services.Keys == before.Keys
    requires Sweeping(list, |list|, lines, before, now, first, last)
    ensures Swept(before, now, first, last)
  {
  }

  lemma SweepStamps(before: States, now: States, first: set<int>, last: set<int>)
    requires Swept(before, now, first, last)
    ensures forall n :: StampsAre(before, now, n, false, false)
  {
    forall n ensures StampsAre(before, now, n, false, false) {
      assert n in before ==> SweptRow(before[n], now[n], first, last);
    }
  }

  lemma LookLeavesStamps(before: States, now: States, name: string, first: set<int>, last: set<int>)
    requires MaybeReconciled(before, now, name, first, last)
    ensures forall n :: StampsAre(before, now, n, false, false)
  {
    forall n ensures StampsAre(before, now, n, false, false) {
      LookStamps(before, now, name, first, last, n);
    }
  }

  lemma SweptAtOnce(before: States, now: States, alive: set<int>)
    requires Swept(before, now, alive, alive)
    ensures now == ReconcileAll(before, alive)
  {
  }

  /** The record holds the configuration, field by field. */
  predicate StoresConfig(record: ServiceRecord, config: Config) {
    && record.name == config.serviceName && record.command == config.command && record.frequencyMs == config.frequency
    && record.synchronous == config.synchronous && record.jitterMs == config.jitterMs
    && record.jitterDistribution == config.jitterDistribution && record.fireProbability == config.fireProbability
  }

  /** The line shows this service, column by column, with its stored status and PID. */
  predicate ShowsService(line: Line, service: ServiceRecord, row: ServiceState) {
    && line.name == service.name && line.command == service.command && line.frequencyMs == service.frequencyMs
    && line.status == row.status && line.pid == row.pid
  }

  /** One line for every service, in name order, each showing the service it names. */
  ghost predicate Printed(lines: seq<Line>, services: Services, states: States) {
    && (forall k | 0 <= k < |lines| ::
          && lines[k].name in services && lines[k].name in states
          && ShowsService(lines[k], services[lines[k].name], states[lines[k].name]))
    && (forall n | n in services :: exists k :: 0 <= k < |lines| && lines[k].name == n)
    && (forall i, j | 0 <= i < j < |lines| :: Before(lines[i].name, lines[j].name))
  }

  /** What "running" means in print: with a PID, that this process lived when the command began;
      and if no process died meanwhile, that a process lives if and only if there is a PID. */
  ghost predicate Truthful(lines: seq<Line>, first: set<int>, last: set<int>) {
    forall k | 0 <= k < |lines| && lines[k].status == "running" ::
      && (lines[k].pid > 0 ==> lines[k].pid in first)
      && (first == last ==> (lines[k].pid in last <==> lines[k].pid > 0))
  }

  lemma NothingPrinted(alive: set<int>)
    ensures Truthful([], alive, alive)
  {
  }

  lemma PositiveLater(a: Env, b: Env)
    requires EnvValid(a) && Interferes(a, b)
    ensures b.alive <= a.alive && forall p | p in a.alive :: p > 0
  {
  }

  lemma PrintedIsTruthful(lines: seq<Line>, services: Services, before: States, states: States, first: set<int>,
      last: set<int>)
    requires Printed(lines, services, states) && Swept(before, states, first, last)
    requires last <= first && forall p | p in first :: p > 0
    ensures Truthful(lines, first, last)
  {
  }

  lemma LineIsTruthful(line: Line, service: ServiceRecord, before: States, states: States, first: set<int>,
                       last: set<int>)
    requires service.name in before && service.name in states
        && MaybeReconciled(before, states, service.name, first, last)
    requires ShowsService(line, service, states[service.name])
    requires last <= first && forall p | p in first :: p > 0
    ensures Truthful([line], first, last)
  {
  }
}
