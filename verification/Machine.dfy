/** The machine around the command-line tool: daemons, their PID files and their logs. Between
    any two steps of a command, daemons may die, write their PID file or write to their log. */
module Machines {
  import opened Options
  import opened FilePaths
  import opened Configs
  import opened LaunchLine
  import opened LogFiles

  /** Rotated files a daemon keeps; the limits are never taken from the command line. */
  const LOG_MAX_FILES: nat := DEFAULT.logMaxFiles
  const LOG_MAX_SIZE: nat := DEFAULT.logMaxSizeMb * 1024 * 1024

  /** owner: the service every daemon ever started was started for; configs: the configuration it
      runs with; alive: those still running; unwritten: those that have not completed their PID
      file yet. A PID file that exists but is still empty reads as 0. */
  datatype Env = Env(site: Site, owner: map<int, string>, configs: map<int, Config>, alive: set<int>,
                     unwritten: set<int>, pidFiles: map<Path, int>, files: Files)

  ghost predicate EnvValid(e: Env) {
    && e.alive <= e.owner.Keys && e.unwritten <= e.alive && e.configs.Keys == e.owner.Keys
    && (forall p | p in e.owner :: p > 0)
    && (forall p | p in e.unwritten :: p in e.configs && e.configs[p].hasPidFile)
    && (forall f | f in e.pidFiles :: e.pidFiles[f] == 0 || Writes(e, e.pidFiles[f], f))
    && (forall log: Place :: Bounded(e.files, log))
  }

  predicate OwnedBy(e: Env, pid: int, name: string) {
    pid in e.owner && e.owner[pid] == name
  }

  /** A daemon with this configuration writes this PID file; its working directory is the root. */
  predicate UsesPidFile(c: Config, file: Path) {
    c.hasPidFile && Resolve(c.pidFilename) == file
  }

  /** A daemon with this configuration ever logs: it has a service name, runs its commands
      synchronously (only then their output reaches the log), and runs them at all. */
  predicate Logs(c: Config) {
    c.serviceName != "" && c.synchronous && c.fireProbability > 0.0
  }

  function DataDirOf(site: Site, c: Config): string {
    if c.dataDir == "" then site.defaultDir else c.dataDir
  }

  function LogDirOf(site: Site, c: Config): string {
    Join(DataDirOf(site, c), "logs")
  }

  function LogUsed(site: Site, c: Config): Place {
    LogPlace(LogDirOf(site, c), c.serviceName)
  }

  predicate UsesLog(site: Site, c: Config, log: Place) {
    Logs(c) && LogUsed(site, c) == log
  }

  /** The daemon writes this PID file. */
  predicate Writes(e: Env, pid: int, file: Path) {
    pid in e.configs && UsesPidFile(e.configs[pid], file)
  }

  /** The daemon writes to this log. */
  predicate LogsTo(e: Env, pid: int, log: Place) {
    pid in e.configs && UsesLog(e.site, e.configs[pid], log)
  }

  /** A living daemon of the service. */
  predicate Living(e: Env, pid: int, name: string) {
    pid in e.alive && OwnedBy(e, pid, name)
  }

  /** No rotated file of the log is numbered above the limit. */
  ghost predicate Bounded(files: Files, log: Place) {
    forall j: nat | j > LOG_MAX_FILES :: At(files, log, j) == None
  }

  /** A daemon that may still write `content` to this PID file. */
  predicate MayWrite(e: Env, file: Path, content: int) {
    exists p :: p in e.unwritten && Writes(e, p, file) && (content == 0 || content == p)
  }

  /** A daemon other than this one that may still write to this PID file. */
  predicate Rival(e: Env, pid: int, file: Path) {
    exists q :: q in e.unwritten && q != pid && Writes(e, q, file)
  }

  /** A living daemon that has finished writing its PID file: the file holds its PID, unless
      another daemon that uses the file wrote as well. */
  predicate HasWritten(a: Env, b: Env, pid: int) {
    pid in a.configs && a.configs[pid].hasPidFile ==>
      var f := Resolve(a.configs[pid].pidFilename);
      f in b.pidFiles && (b.pidFiles[f] == pid || Rival(a, pid, f))
  }

  /** No living daemon writes to this log file. */
  ghost predicate Quiet(e: Env, file: Path) {
    forall p | p in e.alive && p in e.configs && Logs(e.configs[p]) :: Foreign(file, LogUsed(e.site, e.configs[p]))
  }

  /** Everything the rest of the machine can do, in any number of steps. */
  ghost predicate Interferes(a: Env, b: Env) {
    && b.site == a.site && b.owner == a.owner && b.configs == a.configs
    && b.alive <= a.alive && b.unwritten <= a.unwritten * b.alive
    && (forall f | f in a.pidFiles :: f in b.pidFiles)
    && (forall f | f in b.pidFiles ::
          (f in a.pidFiles && b.pidFiles[f] == a.pidFiles[f]) || MayWrite(a, f, b.pidFiles[f]))
    && (forall p | p in a.unwritten - b.unwritten && p in b.alive :: HasWritten(a, b, p))
    && (forall f | Quiet(a, f) :: Lookup(b.files, f) == Lookup(a.files, f))
    && (forall log: Place :: Bounded(a.files, log) ==> Bounded(b.files, log))
  }

  /** What comes of running a launch line: a daemon, or nothing that stays. */
  datatype Spawn = NoDaemon | NewDaemon(pid: int, config: Config)

  function Started(e: Env, name: string, d: Spawn): Env {
    if d.NoDaemon? then e
    else e.(owner := e.owner[d.pid := name], configs := e.configs[d.pid := d.config], alive := e.alive + {d.pid},
            unwritten := if d.config.hasPidFile then e.unwritten + {d.pid} else e.unwritten)
  }

  lemma InterferesReflexive(a: Env)
    requires EnvValid(a)
    ensures Interferes(a, a)
  {
    hide Resolve, LogUsed;
  }

  lemma MayWriteEarlier(a: Env, b: Env, f: Path, content: int)
    requires b.configs == a.configs && b.unwritten <= a.unwritten && MayWrite(b, f, content)
    ensures MayWrite(a, f, content)
  {
    hide Resolve, LogUsed;
  }

  lemma RivalEarlier(a: Env, b: Env, pid: int, f: Path)
    requires b.configs == a.configs && b.unwritten <= a.unwritten && Rival(b, pid, f)
    ensures Rival(a, pid, f)
  {
    hide Resolve, LogUsed;
  }

  lemma HasWrittenLater(a: Env, b: Env, c: Env, p: int)
    requires EnvValid(a) && Interferes(a, b) && Interferes(b, c) && p in a.unwritten - c.unwritten && p in c.alive
    ensures HasWritten(a, c, p)
  {
    hide Resolve, LogUsed, Bounded;
    var f := Resolve(a.configs[p].pidFilename);
    if p in b.unwritten {
      assert HasWritten(b, c, p);
      if Rival(b, p, f) {
        RivalEarlier(a, b, p, f);
      }
    } else {
      assert HasWritten(a, b, p);
      if c.pidFiles[f] != p && b.pidFiles[f] == p {
        var q :| q in b.unwritten && Writes(b, q, f) && (c.pidFiles[f] == 0 || c.pidFiles[f] == q);
        assert Rival(b, p, f);
        RivalEarlier(a, b, p, f);
      }
    }
  }

  lemma InterferesTransitive(a: Env, b: Env, c: Env)
    requires EnvValid(a) && Interferes(a, b) && Interferes(b, c)
    ensures Interferes(a, c)
  {
    hide Resolve, LogUsed, Bounded, MayWrite;
    forall f | f in c.pidFiles
      ensures (f in a.pidFiles && c.pidFiles[f] == a.pidFiles[f]) || MayWrite(a, f, c.pidFiles[f])
    {
      if MayWrite(b, f, c.pidFiles[f]) {
        MayWriteEarlier(a, b, f, c.pidFiles[f]);
      }
    }
    forall p | p in a.unwritten - c.unwritten && p in c.alive ensures HasWritten(a, c, p) {
      HasWrittenLater(a, b, c, p);
    }
    forall f | Quiet(a, f) ensures Lookup(c.files, f) == Lookup(a.files, f) {
      assert Quiet(b, f);
    }
  }

  lemma InterferenceKeepsValid(a: Env, b: Env)
    requires EnvValid(a) && Interferes(a, b)
    ensures EnvValid(b)
  {
    hide Resolve, LogUsed;
  }

  /** A daemon that comes of a launch line runs as the line's first command says. */
  ghost predicate MayStart(site: Site, line: string, d: Spawn) {
    d.NewDaemon? ==> Reads(site, line, d.config)
  }

  predicate NewPid(e: Env, d: Spawn) {
    d.NewDaemon? ==> d.pid > 0 && d.pid !in e.owner
  }

  lemma StartedIsValid(e: Env, name: string, d: Spawn)
    requires EnvValid(e) && NewPid(e, d)
    ensures EnvValid(Started(e, name, d))
  {
    hide Resolve, LogUsed, Bounded;
    var s := Started(e, name, d);
    forall f | f in s.pidFiles ensures s.pidFiles[f] == 0 || Writes(s, s.pidFiles[f], f) {
      assert e.pidFiles[f] == 0 || Writes(e, e.pidFiles[f], f);
    }
  }

  /** What a command may do to everything but one PID file and one log: start nothing, and
      touch no other file except as daemons do themselves. */
  ghost predicate Elsewhere(a: Env, b: Env, file: Path, log: Place) {
    && b.site == a.site && b.owner == a.owner && b.configs == a.configs
    && b.alive <= a.alive && b.unwritten <= a.unwritten
    && (forall f | f in a.pidFiles && f != file :: f in b.pidFiles)
    && (forall f | f in b.pidFiles && f != file ::
          (f in a.pidFiles && b.pidFiles[f] == a.pidFiles[f]) || MayWrite(a, f, b.pidFiles[f]))
    && (forall f | Quiet(a, f) && !CleanedName(f, log) :: Lookup(b.files, f) == Lookup(a.files, f))
  }

  lemma InterferesElsewhere(a: Env, b: Env, file: Path, log: Place)
    requires Interferes(a, b)
    ensures Elsewhere(a, b, file, log)
  {
    hide Resolve, LogUsed;
  }

  lemma ElsewhereTransitive(a: Env, b: Env, c: Env, file: Path, log: Place)
    requires Elsewhere(a, b, file, log) && Elsewhere(b, c, file, log)
    ensures Elsewhere(a, c, file, log)
  {
    hide Resolve, LogUsed;
  }
}
