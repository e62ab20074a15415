/** The machine as an object: what the registry calls on it, and what it does by itself. */
module Hosts {
  import opened Options
  import opened FilePaths
  import opened LogNames
  import opened LogFiles
  import opened LogManagers
  import opened Configs
  import opened Shell
  import opened LaunchLine
  import opened Machines

  class Host {
    const site: Site
    var owner: map<int, string>
    var configs: map<int, Config>
    var alive: set<int>
    var unwritten: set<int>
    var pidFiles: map<Path, int>
    var nextPid: int
    /** Every SIGTERM sent: to which PID, and for which service. */
    var signals: seq<(int, string)>
    const dir: Directory

    constructor (site: Site)
      ensures Valid() && fresh(dir) && this.site == site
      ensures Snapshot() == Env(site, map[], map[], {}, {}, map[], map[]) && signals == []
    {
      this.site := site;
      owner, configs, alive, unwritten, pidFiles, nextPid, signals := map[], map[], {}, {}, map[], 1, [];
      dir := new Directory();
      new;
      NoFiles();
    }

    ghost function Snapshot(): Env
      reads this, dir
    {
      Env(site, owner, configs, alive, unwritten, pidFiles, dir.files)
    }

    ghost predicate Valid()
      reads this, dir
    {
      && EnvValid(Snapshot())
      && (forall p | p in owner :: p < nextPid)
      && nextPid > 0
    }

    /** kill(pid, 0). */
    predicate IsRunning(pid: int)
      reads this
    {
      pid > 0 && pid in alive
    }

    /** The words of the first command on a line, where the shell runs it. */
    method FirstCommand(line: string) returns (words: Option<seq<string>>)
      ensures Words(line).Unbalanced? ==> words.None?
      ensures words.Some? ==> MayRun(site, line, words.value)
    {
      hide Words;
      var found: seq<string>;
      match Words(line) {
        case Unbalanced =>
          return None;
        case Cut(start) =>
          found := *;
          found := start + found;
        case Complete(all) =>
          found := all;
        case Followed(all) =>
          found := all;
      }
      words := if MayRun(site, line, found) then Some(found) else None;
    }

    /** system(): the shell rejects the line, cannot be run at all, or runs the line's first
        command in the background. That becomes a daemon with a PID that no daemon ever had, if
        the program accepts the words and manages to fork. */
    method Launch(name: string, line: string) returns (ok: bool, d: Spawn)
      requires Valid()
      modifies this`owner, this`configs, this`alive, this`unwritten, this`nextPid
      ensures Valid()
      ensures !ok ==> Snapshot() == old(Snapshot())
      ensures ok ==>
          NewPid(old(Snapshot()), d) && MayStart(site, line, d)
          && Snapshot() == Started(old(Snapshot()), name, d)
    {
      hide Words, EnvValid;
      var fails: bool, exits: bool := *, *;
      d := NoDaemon;
      var words := FirstCommand(line);
      if fails || words.None? {
        return false, d;
      }
      if exits || words.value == [] || words.value[0] != site.binary {
        return true, d;
      }
      var output := ParseArgs(words.value[1..]);
      if !output.Ok? || (output.config.subcommand != RUN && output.config.subcommand != LEGACY) {
        return true, d;
      }
      assert Accepts(site.binary, words.value, output.config);
      AddDaemon(name, output.config);
      return true, NewDaemon(nextPid - 1, output.config);
    }

    method AddDaemon(name: string, config: Config)
      requires Valid()
      modifies this`owner, this`configs, this`alive, this`unwritten, this`nextPid
      ensures Valid() && NewPid(old(Snapshot()), NewDaemon(nextPid - 1, config))
      ensures Snapshot() == Started(old(Snapshot()), name, NewDaemon(nextPid - 1, config))
    {
      hide Resolve, LogUsed, Bounded;
      var skipped: nat :| true;
      var pid := nextPid + skipped;
      StartedIsValid(Snapshot(), name, NewDaemon(pid, config));
      owner, configs, alive := owner[pid := name], configs[pid := config], alive + {pid};
      if config.hasPidFile {
        unwritten := unwritten + {pid};
      }
      nextPid := pid + 1;
    }

    /** kill(pid, SIGTERM), sent for a service. */
    method Terminate(pid: int, name: string)
      modifies this`signals
      ensures signals == old(signals) + [(pid, name)]
    {
      signals := signals + [(pid, name)];
    }

    /** std::filesystem::exists, and reading the number in it; an empty file reads as 0. */
    method ReadPidFile(name: string) returns (pid: int)
      ensures var f := PidFile(site, name); pid == if f in pidFiles then pidFiles[f] else 0
    {
      var path := PidFile(site, name);
      pid := 0;
      if path in pidFiles {
        pid := pidFiles[path];
      }
    }

    /** std::filesystem::remove on a PID file. */
    method RemovePidFile(name: string)
      requires Valid()
      modifies this`pidFiles
      ensures Valid() && pidFiles == old(pidFiles) - {PidFile(site, name)}
    {
      pidFiles := pidFiles - {PidFile(site, name)};
    }

    /** std::filesystem::remove on a log file. */
    method RemoveLogFile(name: string, slot: Slot)
      requires Valid()
      modifies dir
      ensures Valid() && dir.files == old(dir.files) - {FileName(LogOf(site, name), slot)}
    {
      ghost var before := dir.files;
      PathIsFileName(LogDir(site), name, slot);
      var removed := dir.Remove(LogPath(LogDir(site), name, slot));
      FewerStayBounded(before, dir.files);
    }

    /** A daemon dies. */
    method Die(pid: int)
      requires Valid()
      modifies this`alive, this`unwritten
      ensures Valid() && Interferes(old(Snapshot()), Snapshot())
      ensures alive == old(alive) - {pid}
    {
      hide Resolve, LogUsed, Bounded;
      alive := alive - {pid};
      unwritten := unwritten - {pid};
    }

    /** A daemon creates its PID file (`done` false: still empty) or completes it. */
    method WritePid(pid: int, done: bool)
      requires Valid() && pid in unwritten
      modifies this`pidFiles, this`unwritten
      ensures Valid() && Interferes(old(Snapshot()), Snapshot()) && pid in configs
      ensures pidFiles == old(pidFiles)[Resolve(configs[pid].pidFilename) := if done then pid else 0]
      ensures unwritten == if done then old(unwritten) - {pid} else old(unwritten)
    {
      hide Resolve, LogUsed, Bounded;
      ghost var before := Snapshot();
      var path := Resolve(configs[pid].pidFilename);
      assert Writes(before, pid, path);
      assert MayWrite(before, path, if done then pid else 0);
      pidFiles := pidFiles[path := if done then pid else 0];
      if done {
        unwritten := unwritten - {pid};
      }
      assert Interferes(before, Snapshot());
      InterferenceKeepsValid(before, Snapshot());
    }

    /** A daemon logs the output of a command. */
    method LogOutput(pid: int, stamp: string, output: string, opens: bool)
      requires Valid() && pid in alive && pid in configs && Logs(configs[pid])
      modifies dir
      ensures Valid() && Interferes(old(Snapshot()), Snapshot())
    {
      hide Resolve, Bounded, Writing;
      ghost var before, log := dir.files, LogUsed(site, configs[pid]);
      var manager := new LogManager(dir, LogDirOf(site, configs[pid]), LOG_MAX_SIZE, LOG_MAX_FILES);
      manager.Write(configs[pid].serviceName, stamp, output, opens);
      ghost var entry := if opens then Some(LogLines.Entry(stamp, output)) else None;
      WriteKeepsBounds(before, dir.files, log, output, entry);
      WriteKeepsForeign(before, dir.files, log, output, entry);
      LoggingInterferes(old(Snapshot()), dir.files, pid);
    }

    /** Any number of such steps, of any kind. */
    method Interfere()
      requires Valid()
      modifies this`alive, this`unwritten, this`pidFiles, dir
      ensures Valid() && Interferes(old(Snapshot()), Snapshot())
    {
      hide Resolve, LogUsed, EnvValid, Interferes;
      EnvSubsets(Snapshot());
      InterferesReflexive(Snapshot());
      var steps: nat :| true;
      for i := 0 to steps
        invariant Valid() && Interferes(old(Snapshot()), Snapshot())
      {
        ghost var before := Snapshot();
        EnvSubsets(before);
        var pid: int := *;
        var kind: int := *;
        if pid in unwritten && kind == 0 {
          var done: bool := *;
          WritePid(pid, done);
        } else if pid in alive && kind == 1 && Logs(configs[pid]) {
          var stamp: string, output: string, opens: bool := *, *, *;
          LogOutput(pid, stamp, output, opens);
        } else {
          Die(pid);
        }
        InterferesTransitive(old(Snapshot()), before, Snapshot());
      }
    }
  }

  lemma EnvSubsets(e: Env)
    requires EnvValid(e)
    ensures e.alive <= e.owner.Keys && e.unwritten <= e.alive && e.configs.Keys == e.owner.Keys
  {
  }

  lemma NoFiles()
    ensures forall log: Place :: Bounded(map[], log)
  {
  }

  lemma FewerStayBounded(before: Files, after: Files)
    requires forall log: Place :: Bounded(before, log)
    requires forall f | f in after :: f in before
    ensures forall log: Place :: Bounded(after, log)
  {
    forall log: Place ensures Bounded(after, log) {
      assert Bounded(before, log);
      forall j: nat | j > LOG_MAX_FILES ensures At(after, log, j) == None {
        assert At(before, log, j) == None;
      }
    }
  }

  lemma WriteKeepsBounds(before: Files, after: Files, log: Place, output: string, entry: Option<string>)
    requires forall other: Place :: Bounded(before, other)
    requires if output == "" then after == before else Writing(before, after, log, entry, LOG_MAX_FILES, LOG_MAX_SIZE)
    ensures forall other: Place :: Bounded(after, other)
  {
    forall other: Place ensures Bounded(after, other) {
      assert Bounded(before, other);
      forall j: nat | j > LOG_MAX_FILES ensures At(after, other, j) == None {
        assert At(before, other, j) == None;
        if other != log {
          OthersAreForeign(log, other, j);
        }
      }
    }
  }

  lemma WriteKeepsForeign(before: Files, after: Files, log: Place, output: string, entry: Option<string>)
    requires if output == "" then after == before else Writing(before, after, log, entry, LOG_MAX_FILES, LOG_MAX_SIZE)
    ensures ForeignUnchanged(before, after, log)
  {
  }

  lemma LoggingInterferes(e: Env, after: Files, pid: int)
    requires EnvValid(e) && pid in e.alive && pid in e.configs && Logs(e.configs[pid])
    requires ForeignUnchanged(e.files, after, LogUsed(e.site, e.configs[pid]))
    requires forall log: Place :: Bounded(after, log)
    ensures Interferes(e, e.(files := after)) && EnvValid(e.(files := after))
  {
    hide Resolve, LogUsed, Bounded, Foreign;
    assert Interferes(e, e.(files := after));
    InterferenceKeepsValid(e, e.(files := after));
  }
}
