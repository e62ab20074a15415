/** Whose daemons the tables name and the signals hit. Rows and signals belong to daemons that
    use the service's own PID file (this is part of WorldValid); when they belong to the service
    itself is a matter of what was installed. */
module Provenance {
  import opened FilePaths
  import opened Configs
  import Decimal
  import opened LaunchLine
  import opened Databases
  import opened Machines
  import opened Lifecycles

  /** Every PID in a row and every signal sent is that of a daemon of the service meant. */
  ghost predicate OwnOnly(w: World) {
    && (forall n | n in w.states && w.states[n].pid > 0 :: OwnedBy(w.env, w.states[n].pid, n))
    && (forall k | 0 <= k < |w.signals| :: OwnedBy(w.env, w.signals[k].0, w.signals[k].1))
  }

  /** The launch line of an installed configuration. */
  function InstalledLine(site: Site, a: Config): string {
    LineFor(site, RecordOf(a, ""))
  }

  /** A daemon that is started for this configuration may write this PID file. */
  ghost predicate MayUse(site: Site, a: Config, file: Path) {
    exists c: Config :: Reads(site, InstalledLine(site, a), c) && UsesPidFile(c, file)
  }

  /** No launch line of one service makes a daemon that writes the PID file of another. */
  ghost predicate Separate(site: Site, installed: set<Config>) {
    forall a, b | a in installed && b in installed && a.serviceName != b.serviceName ::
      !MayUse(site, a, PidFile(site, b.serviceName))
  }

  ghost predicate StoredFrom(r: ServiceRecord, installed: set<Config>) {
    exists a: Config, now: string :: a in installed && r == RecordOf(a, now)
  }

  /** The daemon was started for one of these configurations. */
  ghost predicate MadeFrom(e: Env, pid: int, installed: set<Config>) {
    && pid in e.owner && pid in e.configs
    && exists a: Config ::
         a in installed && a.serviceName == e.owner[pid]
           && Reads(e.site, InstalledLine(e.site, a), e.configs[pid])
  }

  predicate Named(installed: set<Config>, name: string) {
    exists a :: a in installed && a.serviceName == name
  }

  /** Only these configurations were ever installed, started or signalled. */
  ghost predicate Within(w: World, site: Site, installed: set<Config>) {
    && w.env.site == site
    && (forall n | n in w.services :: StoredFrom(w.services[n], installed))
    && (forall p | p in w.env.owner :: MadeFrom(w.env, p, installed))
    && (forall k | 0 <= k < |w.signals| :: Named(installed, w.signals[k].1))
  }

  predicate InstallsWithin(cs: seq<Command>, installed: set<Config>) {
    forall k | 0 <= k < |cs| && cs[k].Install? :: cs[k].config in installed
  }

  /** The time stamps of a record are no part of its launch line. */
  lemma InstalledLineOf(site: Site, a: Config, now: string)
    ensures LineFor(site, RecordOf(a, now)) == InstalledLine(site, a)
  {
    var p := PathsFor(site, a.serviceName);
    assert Fields(RecordOf(a, now), p) == Fields(RecordOf(a, ""), p);
  }

  lemma MadeLater(a: Env, b: Env, installed: set<Config>)
    requires b.site == a.site && b.owner == a.owner && b.configs == a.configs
    requires forall p | p in a.owner :: MadeFrom(a, p, installed)
    ensures forall p | p in b.owner :: MadeFrom(b, p, installed)
  {
    hide InstalledLine, Reads;
    forall p | p in b.owner ensures MadeFrom(b, p, installed) {
      assert MadeFrom(a, p, installed);
    }
  }

  lemma NewIsMade(e: Env, r: ServiceRecord, name: string, d: Spawn, installed: set<Config>)
    requires r.name == name && StoredFrom(r, installed) && MayStart(e.site, LineFor(e.site, r), d)
    requires forall p | p in e.owner :: MadeFrom(e, p, installed)
    ensures forall p | p in Started(e, name, d).owner :: MadeFrom(Started(e, name, d), p, installed)
  {
    hide InstalledLine, LineFor, Reads, RecordOf;
    var after := Started(e, name, d);
    var a: Config, now: string :| a in installed && r == RecordOf(a, now);
    InstalledLineOf(e.site, a, now);
    RecordName(a, now);
    forall p | p in after.owner ensures MadeFrom(after, p, installed) {
      if d.NoDaemon? || p != d.pid {
        assert MadeFrom(e, p, installed);
      }
    }
  }

  lemma RecordName(a: Config, now: string)
    ensures RecordOf(a, now).name == a.serviceName
  {
  }

  lemma StartKeepsWithin(a: World, b: World, name: string, site: Site, installed: set<Config>)
    requires WorldValid(a) && StartStep(a, b, name, false) && Within(a, site, installed)
    ensures Within(b, site, installed)
  {
    hide PidIn, LineFor, Interferes, MaybeReconciled, MadeFrom, StoredFrom, Named;
    hide EnvValid, OwnLine, RowsShared, SignalsShared, WellFormed, MayStart, Started;
    if Looked(a.states, a.env, b.states, b.env, name) {
      SameSite(a.env, b.env);
      MadeLater(a.env, b.env, installed);
    } else {
      var line := LineFor(a.env.site, a.services[name]);
      var s: States, e: Env, d: Spawn, read: Env :|
        Looked(a.states, a.env, s, e, name) && Launches(s, e, b.states, b.env, name, line, d, read);
      SameSite(a.env, e);
      MadeLater(a.env, e, installed);
      NewIsMade(e, a.services[name], name, d, installed);
      SameSite(Started(e, name, d), read);
      SameSite(read, b.env);
      StartedSite(e, name, d);
      MadeLater(Started(e, name, d), b.env, installed);
    }
  }

  lemma StartedSite(e: Env, name: string, d: Spawn)
    ensures Started(e, name, d).site == e.site
  {
  }

  lemma StopKeepsWithin(a: World, b: World, name: string, site: Site, installed: set<Config>)
    requires WorldValid(a) && StopStep(a, b, name, false) && Within(a, site, installed)
    ensures Within(b, site, installed)
  {
    hide Resolve, Interferes, TargetOf, SetRow, MadeFrom, StoredFrom, Named, EnvValid, OwnLine;
    if name in a.services {
      ServiceNamed(a, site, installed, name);
      var read: Env :| StopsOrGivesUp(a, read, b, name, false);
      SameSite(a.env, read);
      if GivesUp(a.states, read, b.states, b.env, name) && b.signals == a.signals {
        SameSite(read, b.env);
      } else {
        var found: Env, waited: Env, dropped: Env :|
          && Stopping(read, found, waited, dropped, TargetOf(a.states, read, name), false)
          && b.env == WithoutPidFile(dropped, name);
        SameSite(read, found);
        SameSite(found, waited);
        SameSite(waited, dropped);
      }
    } else {
      SameSite(a.env, b.env);
    }
    MadeLater(a.env, b.env, installed);
  }

  lemma ServiceNamed(w: World, site: Site, installed: set<Config>, name: string)
    requires WorldValid(w) && Within(w, site, installed) && name in w.services
    ensures Named(installed, name)
  {
    hide EnvValid, OwnLine, MadeFrom, RowsShared, SignalsShared, WellFormed;
    assert StoredFrom(w.services[name], installed);
    var a: Config, now: string :| a in installed && w.services[name] == RecordOf(a, now);
    assert a.serviceName == w.services[name].name;
  }

  lemma {:induction false} ErasingKeepsOwner(trace: seq<Env>, name: string)
    requires Erasing(trace, name)
    ensures var (a, b) := (trace[0], trace[|trace| - 1]);
            b.owner == a.owner && b.site == a.site && b.configs == a.configs
  {
    hide Resolve, LogUsed, Interferes;
    if |trace| > 1 {
      var n := |trace| - 2;
      ErasingKeepsOwner(trace[..n + 1], name);
      assert Deletes(trace[n], trace[n + 1], name, n);
      var e: Env :| Interferes(trace[n], e) && trace[n + 1] == Deleted(e, name, n);
      SameSite(trace[n], e);
    }
  }

  lemma RemoveKeepsWithin(a: World, b: World, name: string, site: Site, installed: set<Config>)
    requires WorldValid(a) && RemoveStep(a, b, name, false) && Within(a, site, installed)
    ensures Within(b, site, installed)
  {
    hide Resolve, LineFor, Interferes, StopStep, Erasing, MaybeReconciled;
    hide MadeFrom, StoredFrom, Named, WorldValid;
    if name in a.services {
      var looked: World, stopped: World, deleted: Env :| Removes(a, looked, stopped, deleted, b, name, false);
      LookKeepsValid(a, looked, name);
      SameSite(a.env, looked.env);
      MadeLater(a.env, looked.env, installed);
      if looked.states[name].status == "running" {
        StopKeepsWithin(looked, stopped, name, site, installed);
      }
      SameSite(stopped.env, deleted);
      var trace: seq<Env> :|
        Erasing(trace, name) && |trace| == DELETIONS + 1 && trace[0] == deleted && trace[DELETIONS] == b.env;
      ErasingKeepsOwner(trace, name);
      MadeLater(stopped.env, b.env, installed);
    } else {
      SameSite(a.env, b.env);
      MadeLater(a.env, b.env, installed);
    }
  }

  lemma StepKeepsWithin(a: World, b: World, c: Command, site: Site, installed: set<Config>)
    requires WorldValid(a) && Step(a, b, c, false) && Within(a, site, installed)
    requires c.Install? ==> c.config in installed
    ensures Within(b, site, installed)
  {
    hide WorldValid, RemoveStep, StartStep, StopStep, Interferes, Swept, MaybeReconciled, MadeFrom, Named, RecordOf;
    match c {
      case Remove(name) => RemoveKeepsWithin(a, b, name, site, installed);
      case Start(name) => StartKeepsWithin(a, b, name, site, installed);
      case Stop(name) => StopKeepsWithin(a, b, name, site, installed);
      case _ =>
        SameSite(a.env, b.env);
        MadeLater(a.env, b.env, installed);
    }
  }

  lemma {:induction false} RunKeepsWithin(ws: seq<World>, cs: seq<Command>, site: Site, installed: set<Config>, k: nat)
    requires Run(ws, cs, site) && InstallsWithin(cs, installed) && k <= |cs|
    ensures Within(ws[k], site, installed)
  {
    hide Step, WorldValid;
    if k > 0 {
      RunKeepsWithin(ws, cs, site, installed, k - 1);
      RunKeepsValid(ws, cs, site, k - 1);
      assert Step(ws[k - 1], ws[k], cs[k - 1], false);
      StepKeepsWithin(ws[k - 1], ws[k], cs[k - 1], site, installed);
    }
  }

  /** Whoever writes the PID file of a service is that service's, if they are separate. */
  lemma WritersAreOwn(w: World, site: Site, installed: set<Config>, pid: int, name: string)
    requires Within(w, site, installed) && Separate(site, installed) && Named(installed, name)
    requires pid in w.env.owner && Shares(w.env, pid, name)
    ensures OwnedBy(w.env, pid, name)
  {
    hide Resolve, PidFile, InstalledLine, Reads, StoredFrom;
    assert MadeFrom(w.env, pid, installed);
    var a: Config :|
      a in installed && a.serviceName == w.env.owner[pid]
        && Reads(site, InstalledLine(site, a), w.env.configs[pid]);
    var b :| b in installed && b.serviceName == name;
    assert UsesPidFile(w.env.configs[pid], PidFile(site, name));
  }

  lemma SeparateMeansOwn(w: World, site: Site, installed: set<Config>)
    requires WorldValid(w) && Within(w, site, installed) && Separate(site, installed)
    ensures OwnOnly(w)
  {
    hide Resolve, PidFile, OwnLine, WellFormed, Separate, MadeFrom;
    forall n | n in w.states && w.states[n].pid > 0 ensures OwnedBy(w.env, w.states[n].pid, n) {
      assert n in w.services.Keys && Shares(w.env, w.states[n].pid, n);
      ServiceNamed(w, site, installed, n);
      WritersAreOwn(w, site, installed, w.states[n].pid, n);
    }
    forall k | 0 <= k < |w.signals| ensures OwnedBy(w.env, w.signals[k].0, w.signals[k].1) {
      assert Shares(w.env, w.signals[k].0, w.signals[k].1);
      WritersAreOwn(w, site, installed, w.signals[k].0, w.signals[k].1);
    }
  }

  /** A start during which nothing else happens. */
  lemma QuietStart(s: States, e: Env, name: string, d: Spawn, line: string)
    requires EnvValid(e) && name in s && s[name].status != "running" && NewPid(e, d) && MayStart(e.site, line, d)
    ensures Starts(s, e, SetRow(s, name, Running(PidIn(e, name))), Started(e, name, d), name, line, false)
    ensures EnvValid(Started(e, name, d))
  {
    hide Resolve, LogUsed, EnvValid, Interferes, MayStart;
    var read, s1 := Started(e, name, d), SetRow(s, name, Running(PidIn(e, name)));
    StartedIsValid(e, name, d);
    InterferesReflexive(e);
    InterferesReflexive(read);
    assert s == s[name := ReconcileRow(s[name], e.alive)];
    assert Launches(s, e, s1, read, name, line, d, read);
    assert Looked(s, e, s, e, name);
  }

  /** The machine after a daemon has been started and has written its PID file. */
  function Written(e: Env, name: string, d: Spawn): Env
    requires d.NewDaemon?
  {
    Started(e, name, d).(pidFiles := e.pidFiles[Resolve(d.config.pidFilename) := d.pid], unwritten := e.unwritten)
  }

  lemma WritingInterferes(e: Env, name: string, d: Spawn)
    requires EnvValid(e) && d.NewDaemon? && NewPid(e, d) && d.config.hasPidFile
    ensures Interferes(Started(e, name, d), Written(e, name, d)) && EnvValid(Written(e, name, d))
  {
    hide Resolve, LogUsed, Bounded;
    var started, read, f := Started(e, name, d), Written(e, name, d), Resolve(d.config.pidFilename);
    StartedIsValid(e, name, d);
    assert d.pid in started.unwritten && Writes(started, d.pid, f);
    assert MayWrite(started, f, d.pid);
    assert Interferes(started, read);
    InterferenceKeepsValid(started, read);
  }

  /** A start that goes as it should. */
  lemma PromptStart(s: States, e: Env, name: string, d: Spawn, line: string)
    requires EnvValid(e) && name in s && s[name].status != "running"
    requires d.NewDaemon? && NewPid(e, d) && MayStart(e.site, line, d) && d.config.hasPidFile
    ensures Starts(s, e, SetRow(s, name, Running(PidIn(Written(e, name, d), name))), Written(e, name, d), name, line,
        true)
  {
    hide Resolve, LogUsed, EnvValid, Interferes, MayStart, PidIn;
    var read := Written(e, name, d);
    var s1 := SetRow(s, name, Running(PidIn(read, name)));
    EnvValidFacts(e);
    WritingInterferes(e, name, d);
    InterferesReflexive(e);
    InterferesReflexive(read);
    assert s == s[name := ReconcileRow(s[name], e.alive)];
    assert Launches(s, e, s1, read, name, line, d, read);
    assert Looked(s, e, s, e, name);
  }

  lemma PromptIsStart(s0: States, e0: Env, s1: States, e1: Env, name: string, line: string)
    requires Starts(s0, e0, s1, e1, name, line, true)
    ensures Starts(s0, e0, s1, e1, name, line, false)
  {
    hide Looked, Launches;
    var s: States, e: Env, d: Spawn, read: Env :|
      Looked(s0, e0, s, e, name) && Launches(s, e, s1, e1, name, line, d, read) && Settled(read, d);
  }

  lemma InstallsOne(w0: World, w1: World, a: Config)
    requires EnvValid(w0.env) && a.serviceName !in w0.services
    requires w1 == World(w0.services[a.serviceName := RecordOf(a, "")], w0.states[a.serviceName := INITIAL_STATE],
                         w0.env, w0.signals)
    ensures Step(w0, w1, Install(a, ""), false)
  {
    hide RecordOf, EnvValid, Interferes;
    InterferesReflexive(w0.env);
  }

  lemma StopsOther(a: World, b: World, name: string)
    requires EnvValid(a.env) && name in a.services && name in a.states && a.states[name].pid == 0
    requires PidIn(a.env, name) == 1 && 1 in a.env.alive
    requires b == World(a.services, SetRow(a.states, name, STOPPED), WithoutPidFile(a.env, name),
        a.signals + [(1, name)])
    ensures Step(a, b, Stop(name), false)
  {
    hide EnvValid, Interferes, Resolve, SetRow, WithoutPidFile, PidIn;
    var e := a.env;
    InterferesReflexive(e);
    assert TargetOf(a.states, e, name) == 1;
    assert Stopping(e, e, e, e, 1, false);
    assert Stops(a.states, e, b.states, b.env, name, false);
    assert StopsOrGivesUp(a, e, b, name, false);
  }

  lemma StartThenStop(w: World, a: Config, b: Config, c: Config) returns (started: World, stopped: World)
    requires a.serviceName != b.serviceName && w.env == FreshEnv(w.env.site)
    requires Reads(w.env.site, InstalledLine(w.env.site, a), c)
        && UsesPidFile(c, PidFile(w.env.site, b.serviceName))
    requires a.serviceName in w.services && w.services[a.serviceName] == RecordOf(a, "") && b.serviceName in w.services
    requires a.serviceName in w.states && w.states[a.serviceName] == INITIAL_STATE
    requires b.serviceName in w.states && w.states[b.serviceName] == INITIAL_STATE
    ensures Step(w, started, Start(a.serviceName), false) && Step(started, stopped, Stop(b.serviceName), false)
    ensures stopped.signals == w.signals + [(1, b.serviceName)] && OwnedBy(stopped.env, 1, a.serviceName)
  {
    hide LineFor, Reads, Interferes, EnvValid, Starts, Resolve;
    var m, n, d := a.serviceName, b.serviceName, NewDaemon(1, c);
    FreshWorldValid(w.env.site);
    SignalsOf(FreshWorld(w.env.site));
    var read := Written(w.env, m, d);
    started := World(w.services, SetRow(w.states, m, Running(PidIn(read, m))), read, w.signals);
    PromptStart(w.states, w.env, m, d, InstalledLine(w.env.site, a));
    PromptIsStart(w.states, w.env, started.states, started.env, m, InstalledLine(w.env.site, a));
    WritingInterferes(w.env, m, d);
    stopped := World(w.services, SetRow(started.states, n, STOPPED), WithoutPidFile(read, n), w.signals + [(1, n)]);
    StopsOther(started, stopped, n);
  }

  /** If a launch line of the one service makes a daemon that writes the PID file of the other,
      starting the one and stopping the other sends the signal to the wrong service. */
  lemma SharedFileMisleads(site: Site, a: Config, b: Config) returns (ws: seq<World>, cs: seq<Command>)
    requires a.serviceName != b.serviceName && MayUse(site, a, PidFile(site, b.serviceName))
    ensures Run(ws, cs, site) && cs == [Install(a, ""), Install(b, ""), Start(a.serviceName), Stop(b.serviceName)]
    ensures ws[4].signals == [(1, b.serviceName)] && OwnedBy(ws[4].env, 1, a.serviceName) && !OwnOnly(ws[4])
  {
    hide Step, Resolve, RecordOf, WorldValid, Reads, InstalledLine;
    var c: Config :| Reads(site, InstalledLine(site, a), c) && UsesPidFile(c, PidFile(site, b.serviceName));
    var m, n, w0 := a.serviceName, b.serviceName, FreshWorld(site);
    var w1 := World(map[m := RecordOf(a, "")], map[m := INITIAL_STATE], w0.env, []);
    var w2 := World(w1.services[n := RecordOf(b, "")], w1.states[n := INITIAL_STATE], w0.env, []);
    FreshWorldValid(site);
    SignalsOf(w0);
    InstallsOne(w0, w1, a);
    InstallsOne(w1, w2, b);
    var w3, w4 := StartThenStop(w2, a, b, c);
    ws, cs := [w0, w1, w2, w3, w4], [Install(a, ""), Install(b, ""), Start(m), Stop(n)];
    assert w4.signals[0] == (1, n);
  }

  /** Provenance. In every run that installs only these configurations, every PID in the tables
      and every signal is that of a daemon of the very service meant, exactly when no launch line
      of one of them makes a daemon that writes the PID file of another. */
  lemma ProvenanceIff(site: Site, installed: set<Config>)
    ensures (forall ws, cs | Run(ws, cs, site) && InstallsWithin(cs, installed) :: OwnOnly(ws[|cs|]))
       <==> Separate(site, installed)
  {
    hide Step, OwnOnly, PidFile, WorldValid, MayUse;
    if Separate(site, installed) {
      forall ws, cs | Run(ws, cs, site) && InstallsWithin(cs, installed) ensures OwnOnly(ws[|cs|]) {
        RunKeepsValid(ws, cs, site, |cs|);
        RunKeepsWithin(ws, cs, site, installed, |cs|);
        SeparateMeansOwn(ws[|cs|], site, installed);
      }
    } else {
      var a, b :| && a in installed && b in installed && a.serviceName != b.serviceName
                  && MayUse(site, a, PidFile(site, b.serviceName));
      var ws, cs := SharedFileMisleads(site, a, b);
      assert InstallsWithin(cs, installed);
    }
  }

  /** What the shell and the option parser read back for every one of these services. */
  ghost predicate AllLaunchable(site: Site, installed: set<Config>) {
    forall a | a in installed :: Launchable(RecordOf(a, ""), PathsFor(site, a.serviceName))
  }

  /** No two of these services share a PID file. */
  ghost predicate Apart(site: Site, installed: set<Config>) {
    forall a, b | a in installed && b in installed && a.serviceName != b.serviceName ::
      PidFile(site, a.serviceName) != PidFile(site, b.serviceName)
  }

  /** The one configuration the daemon of a launchable service runs with. */
  lemma LaunchableReads(site: Site, a: Config, c: Config)
    requires Launchable(RecordOf(a, ""), PathsFor(site, a.serviceName))
    ensures Reads(site, InstalledLine(site, a), c) <==>
        c == Daemon(RecordOf(a, ""), PathsFor(site, a.serviceName))
  {
    hide LaunchText, Reads, Daemon, Launchable;
    LaunchRoundTrip(RecordOf(a, ""), PathsFor(site, a.serviceName));
  }

  /** Its files are the service's own. */
  lemma DaemonFiles(site: Site, r: ServiceRecord)
    ensures var c := Daemon(r, PathsFor(site, r.name));
            && (forall f :: UsesPidFile(c, f) <==> f == PidFile(site, r.name))
            && (site.dataDir != "" ==> LogUsed(site, c) == LogOf(site, r.name))
  {
  }

  lemma LaunchableMayUse(site: Site, a: Config, file: Path)
    requires Launchable(RecordOf(a, ""), PathsFor(site, a.serviceName))
    ensures MayUse(site, a, file) <==> file == PidFile(site, a.serviceName)
  {
    hide Resolve, Reads, InstalledLine, Launchable, Daemon, PidFile, UsesPidFile;
    var r := RecordOf(a, "");
    var c := Daemon(r, PathsFor(site, r.name));
    DaemonFiles(site, r);
    LaunchableReads(site, a, c);
    if other: Config :| Reads(site, InstalledLine(site, a), other) && UsesPidFile(other, file) {
      LaunchableReads(site, a, other);
    }
  }

  /** For services whose launch lines read back, being separate is a matter of names alone; names
      without a slash always are. */
  lemma SeparateByName(site: Site, installed: set<Config>)
    requires AllLaunchable(site, installed)
    ensures Separate(site, installed) <==> Apart(site, installed)
    ensures (forall a | a in installed :: SlashFree(a.serviceName)) ==> Separate(site, installed)
  {
    hide Launchable, MayUse, PidFile, RecordOf, PathsFor;
    forall a, b | a in installed && b in installed
      ensures MayUse(site, a, PidFile(site, b.serviceName)) <==>
          PidFile(site, b.serviceName) == PidFile(site, a.serviceName)
    {
      LaunchableMayUse(site, a, PidFile(site, b.serviceName));
    }
    if forall a | a in installed :: SlashFree(a.serviceName) {
      forall a, b | a in installed && b in installed && a.serviceName != b.serviceName
        ensures PidFile(site, a.serviceName) != PidFile(site, b.serviceName)
      {
        PlainNamesApart(site, a.serviceName, b.serviceName);
      }
    }
  }

  function InstalledAs(name: string): Config {
    InstalledWith(name, 1, "true")
  }

  /** Names may share a PID file: stopping "./n" hits the daemon of n. */
  lemma DotSlashMisleads(site: Site, n: string) returns (ws: seq<World>, cs: seq<Command>)
    requires SlashFree(n) && Launchable(RecordOf(InstalledAs(n), ""), PathsFor(site, n))
    ensures Run(ws, cs, site) && |cs| == 4 && InstallsWithin(cs, {InstalledAs(n), InstalledAs("./" + n)})
    ensures cs[2] == Start(n) && cs[3] == Stop("./" + n)
    ensures ws[4].signals == [(1, "./" + n)] && OwnedBy(ws[4].env, 1, n)
  {
    hide PidFile, Step, MayUse, Launchable, RecordOf;
    DotSlashShares(site, n);
    LaunchableMayUse(site, InstalledAs(n), PidFile(site, n));
    ws, cs := SharedFileMisleads(site, InstalledAs(n), InstalledAs("./" + n));
  }

  /** A command may reach for a PID file: whatever two services are called, `install` accepts a
      command for the first with which `stop` of the second hits the daemon of the first. */
  lemma CommandMisleads(site: Site, m: string, n: string) returns (command: string, ws: seq<World>, cs: seq<Command>)
    requires m != n && !Dashed(m) && OneLine(m) && OneLine(site.dataDir)
    requires Launchable(RecordOf(InstalledAs(n), ""), PathsFor(site, n))
    ensures ParseArgs(["install", m] + ["--frequency=" + Decimal.Print(1), "--command=" + command]) ==
              Ok(InstalledWith(m, 1, command))
    ensures Run(ws, cs, site) && cs ==
        [Install(InstalledWith(m, 1, command), ""), Install(InstalledAs(n), ""), Start(m), Stop(n)]
    ensures ws[4].signals == [(1, n)] && OwnedBy(ws[4].env, 1, m)
  {
    hide PidFile, Step, Launchable, RecordOf, Reads, UsesPidFile, Daemon, Decimal.Print, ParseArgs, InstalledWith;
    var b, p := RecordOf(InstalledAs(n), ""), PathsFor(site, n);
    command := BreakOut(b, p);
    var a := InstalledWith(m, 1, command);
    InstallAccepts(m, 1, command);
    BreaksOutOf(site, m, n, command);
    DaemonFiles(site, b);
    InstalledName(m, command);
    InstalledName(n, "true");
    assert MayUse(site, a, PidFile(site, n));
    ws, cs := SharedFileMisleads(site, a, InstalledAs(n));
  }

  lemma InstalledName(name: string, command: string)
    ensures InstalledWith(name, 1, command).serviceName == name
    ensures RecordOf(InstalledWith(name, 1, command), "").name == name
  {
  }

  lemma BreaksOutOf(site: Site, m: string, n: string, command: string)
    requires Launchable(RecordOf(InstalledAs(n), ""), PathsFor(site, n))
    requires command == BreakOut(RecordOf(InstalledAs(n), ""), PathsFor(site, n)) && OneLine(m) && OneLine(site.dataDir)
    ensures Reads(site, InstalledLine(site, InstalledWith(m, 1, command)),
        Daemon(RecordOf(InstalledAs(n), ""), PathsFor(site, n)))
  {
    hide LaunchText, LaunchesAs, Reads, Launchable, Daemon, BreakOut, AfterCommand;
    var a := RecordOf(InstalledWith(m, 1, command), "");
    RestOneLine(a, PathsFor(site, m));
    CommandBreaksOut(a, PathsFor(site, m), RecordOf(InstalledAs(n), ""), PathsFor(site, n));
    LaunchIsRead(site, a, PathsFor(site, m), Daemon(RecordOf(InstalledAs(n), ""), PathsFor(site, n)));
  }

  /** Whatever daemon the machine has runs as a record of its service makes it run; if the shell
      and the option parser read that record back, its files are exactly its service's own. */
  lemma DaemonUsesOwnFiles(w: World, pid: int) returns (r: ServiceRecord)
    requires WorldValid(w) && pid in w.env.owner && w.env.site.dataDir != ""
    ensures OwnedBy(w.env, pid, r.name) && pid in w.env.configs
    ensures Reads(w.env.site, LineFor(w.env.site, r), w.env.configs[pid])
    ensures Launchable(r, PathsFor(w.env.site, r.name)) ==>
              && (forall f :: Writes(w.env, pid, f) <==> f == PidFile(w.env.site, r.name))
              && (forall log :: LogsTo(w.env, pid, log) <==>
                Logs(w.env.configs[pid]) && log == LogOf(w.env.site, r.name))
  {
    hide LaunchText, Launchable, Reads, Daemon, Resolve, LogUsed, EnvValid, RowsShared, SignalsShared, WellFormed;
    assert OwnLine(w.env, pid);
    r :| r.name == w.env.owner[pid] && Reads(w.env.site, LineFor(w.env.site, r), w.env.configs[pid]);
    if Launchable(r, PathsFor(w.env.site, r.name)) {
      LaunchRoundTrip(r, PathsFor(w.env.site, r.name));
      DaemonFiles(w.env.site, r);
    }
  }
}
