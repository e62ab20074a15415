/** What `stop` and `remove` delete, what they leave alone, and whether what they delete is gone. */
module Removal {
  import opened Options
  import opened FilePaths
  import opened LogNames
  import opened LogFiles
  import opened LaunchLine
  import opened Databases
  import opened Machines
  import opened Lifecycles
  import opened Provenance

  /** Nothing of the service is left on disk. */
  ghost predicate Gone(e: Env, name: string) {
    && PidFile(e.site, name) !in e.pidFiles
    && (forall slot: Slot :: FileName(LogOf(e.site, name), slot) !in e.files)
  }

  /** A living daemon that can bring one of the service's files back: its PID file, which it has
      still to write, or its log, to which it writes. */
  predicate Restorer(e: Env, pid: int, name: string) {
    pid in e.alive && ((pid in e.unwritten && Writes(e, pid, PidFile(e.site, name)))
      || LogsTo(e, pid, LogOf(e.site, name)))
  }

  ghost predicate NoRestorer(e: Env, name: string) {
    forall p :: !Restorer(e, p, name)
  }

  /** What the first `done` deletions were about is gone. */
  ghost predicate GoneSoFar(e: Env, name: string, done: nat) {
    && (done >= 1 ==> PidFile(e.site, name) !in e.pidFiles)
    && (forall j: nat | j + 2 <= done && j < 10 :: FileName(LogOf(e.site, name), Rotated(j)) !in e.files)
    && (done == DELETIONS ==> FileName(LogOf(e.site, name), Current) !in e.files)
  }

  lemma QuietLogs(e: Env, name: string, slot: Slot)
    requires EnvValid(e) && NoRestorer(e, name)
    ensures Quiet(e, FileName(LogOf(e.site, name), slot))
  {
    hide Resolve, PidFile, LogOf, LogUsed, FileName, Bounded;
    var log := LogOf(e.site, name);
    forall p | p in e.alive && p in e.configs && Logs(e.configs[p])
      ensures Foreign(FileName(log, slot), LogUsed(e.site, e.configs[p]))
    {
      assert !Restorer(e, p, name);
      NoFileInCommon(log, slot, LogUsed(e.site, e.configs[p]));
    }
  }

  lemma NoFileInCommon(log: Place, slot: Slot, other: Place)
    requires log != other
    ensures Foreign(FileName(log, slot), other)
  {
    hide FileName;
    forall j: nat ensures FileName(log, slot) != Name(other, j) {
      if FileName(log, slot) == Name(other, j) {
        FileNameInjective(log, slot, other, Generation(j));
      }
    }
  }

  lemma GoneStays(a: Env, b: Env, name: string, done: nat)
    requires EnvValid(a) && Interferes(a, b) && NoRestorer(a, name) && GoneSoFar(a, name, done)
    ensures GoneSoFar(b, name, done) && NoRestorer(b, name)
  {
    hide Resolve, LogUsed, PidFile, LogOf, FileName, Bounded, Quiet, HasWritten;
    var f, log := PidFile(a.site, name), LogOf(a.site, name);
    forall p ensures !Restorer(b, p, name) {
      assert !Restorer(a, p, name);
    }
    forall p | p in a.unwritten ensures !Writes(a, p, f) {
      assert !Restorer(a, p, name);
    }
    forall slot: Slot | FileName(log, slot) !in a.files ensures FileName(log, slot) !in b.files {
      QuietLogs(a, name, slot);
      assert Lookup(b.files, FileName(log, slot)) == Lookup(a.files, FileName(log, slot));
    }
  }

  lemma DeletedIsGone(e: Env, name: string, i: nat)
    requires i < DELETIONS && GoneSoFar(e, name, i) && NoRestorer(e, name)
    ensures GoneSoFar(Deleted(e, name, i), name, i + 1) && NoRestorer(Deleted(e, name, i), name)
  {
    hide Resolve, LogUsed, PidFile, LogOf, FileName;
    forall p ensures !Restorer(Deleted(e, name, i), p, name) {
      assert !Restorer(e, p, name);
    }
  }

  lemma {:induction false} ErasingValid(trace: seq<Env>, name: string)
    requires Erasing(trace, name) && EnvValid(trace[0])
    ensures EnvValid(trace[|trace| - 1])
  {
    hide Resolve, LogUsed, PidFile, LogOf, EnvValid, Interferes, Deleted;
    if |trace| > 1 {
      var n := |trace| - 2;
      ErasingValid(trace[..n + 1], name);
      assert Deletes(trace[n], trace[n + 1], name, n);
      var e: Env :| Interferes(trace[n], e) && trace[n + 1] == Deleted(e, name, n);
      InterferenceKeepsValid(trace[n], e);
      DeletedKeepsValid(e, name, n);
    }
  }

  lemma {:induction false} ErasingRemoves(trace: seq<Env>, name: string)
    requires Erasing(trace, name) && EnvValid(trace[0]) && NoRestorer(trace[0], name)
    ensures GoneSoFar(trace[|trace| - 1], name, |trace| - 1) && NoRestorer(trace[|trace| - 1], name)
  {
    hide Resolve, LogUsed, PidFile, LogOf, FileName, EnvValid, Interferes, Deleted;
    if |trace| > 1 {
      var n := |trace| - 2;
      ErasingRemoves(trace[..n + 1], name);
      ErasingValid(trace[..n + 1], name);
      assert Deletes(trace[n], trace[n + 1], name, n);
      var e: Env :| Interferes(trace[n], e) && trace[n + 1] == Deleted(e, name, n);
      GoneStays(trace[n], e, name, n);
      DeletedIsGone(e, name, n);
    }
  }

  /** Numbers above 9 never existed, so deleting 0 to 9 and the live log deletes everything. */
  lemma AllGone(e: Env, name: string)
    requires EnvValid(e) && GoneSoFar(e, name, DELETIONS)
    ensures Gone(e, name)
  {
    hide Resolve, LogUsed, PidFile, LogOf;
    var log := LogOf(e.site, name);
    assert Bounded(e.files, log);
    forall slot: Slot ensures FileName(log, slot) !in e.files {
      if slot.Rotated? && slot.number >= 10 {
        assert At(e.files, log, slot.number) == None;
      }
    }
  }

  /** One more deletion, right after the last one. */
  lemma ErasingMore(trace: seq<Env>, e: Env, name: string) returns (longer: seq<Env>)
    requires Erasing(trace, name) && |trace| <= DELETIONS && Interferes(trace[|trace| - 1], e)
    ensures longer == trace + [Deleted(e, name, |trace| - 1)] && Erasing(longer, name)
  {
    hide Interferes, Deleted;
    longer := trace + [Deleted(e, name, |trace| - 1)];
    forall i: nat | i + 1 < |longer| ensures Deletes(longer[i], longer[i + 1], name, i) {
      if i + 1 < |trace| {
        assert Deletes(trace[i], trace[i + 1], name, i);
      }
    }
  }

  /** All remaining deletions up to a point, while nothing else happens. */
  lemma {:induction false} ErasingQuietly(trace: seq<Env>, name: string, upTo: nat) returns (longer: seq<Env>)
    requires Erasing(trace, name) && EnvValid(trace[0]) && |trace| <= upTo <= DELETIONS + 1
    ensures Erasing(longer, name) && |longer| == upTo && longer[0] == trace[0]
    ensures var a, b := trace[|trace| - 1], longer[upTo - 1];
            && b.site == a.site && b.owner == a.owner && b.configs == a.configs
            && b.alive == a.alive && b.unwritten == a.unwritten
            && (|trace| >= 2 ==> b.pidFiles == a.pidFiles)
    decreases upTo - |trace|
  {
    hide Interferes, Deleted, EnvValid;
    longer := trace;
    if |trace| < upTo {
      var last := trace[|trace| - 1];
      ErasingValid(trace, name);
      InterferesReflexive(last);
      var next := ErasingMore(trace, last, name);
      DeletedKeepsValid(last, name, |trace| - 1);
      DeletedPidFiles(last, name, |trace| - 1);
      longer := ErasingQuietly(next, name, upTo);
    }
  }

  lemma DeletedPidFiles(e: Env, name: string, i: nat)
    requires i < DELETIONS
    ensures i >= 1 ==> Deleted(e, name, i).pidFiles == e.pidFiles
    ensures i == 0 ==>
        Deleted(e, name, i).pidFiles == e.pidFiles - {PidFile(e.site, name)}
        && Deleted(e, name, i).files == e.files
  {
  }

  lemma PidFileComesBack(e: Env, p: int, f: Path) returns (after: Env)
    requires EnvValid(e) && p in e.unwritten && Writes(e, p, f)
    ensures Interferes(e, after) && f in after.pidFiles
    ensures after == e.(pidFiles := e.pidFiles[f := p], unwritten := e.unwritten - {p})
  {
    hide Resolve, LogUsed, PidFile, LogOf, Bounded;
    after := e.(pidFiles := e.pidFiles[f := p], unwritten := e.unwritten - {p});
    assert MayWrite(e, f, p);
  }

  lemma LogComesBack(e: Env, p: int, log: Place) returns (after: Env)
    requires EnvValid(e) && p in e.alive && LogsTo(e, p, log)
    ensures Interferes(e, after) && after == e.(files := e.files[Name(log, 1) := "x"])
  {
    hide Resolve, LogUsed, PidFile, LogOf, FileName, MayWrite;
    after := e.(files := e.files[Name(log, 1) := "x"]);
    assert !Quiet(e, Name(log, 1)) by {
      assert !Foreign(Name(log, 1), log);
    }
    forall other: Place | Bounded(e.files, other) ensures Bounded(after.files, other) {
      forall j: nat | j > LOG_MAX_FILES ensures At(after.files, other, j) == None {
        assert At(e.files, other, j) == None;
        if Name(other, j) == Name(log, 1) {
          NameInjective(other, j, log, 1);
        }
      }
    }
  }

  lemma PidFileSurvives(d: Env, name: string, p: int) returns (b: Env)
    requires EnvValid(d) && p in d.unwritten && Writes(d, p, PidFile(d.site, name))
    ensures Erases(d, b, name) && !Gone(b, name)
  {
    hide Resolve, LogUsed, PidFile, LogOf, FileName, Interferes, EnvValid, Deleted;
    var trace := ErasingQuietly([d], name, 2);
    ErasingValid(trace, name);
    var after := PidFileComesBack(trace[1], p, PidFile(d.site, name));
    trace := ErasingMore(trace, after, name);
    DeletedPidFiles(after, name, 1);
    InterferenceKeepsValid(trace[1], after);
    DeletedKeepsValid(after, name, 1);
    trace := ErasingQuietly(trace, name, DELETIONS + 1);
    b := trace[DELETIONS];
  }

  lemma LogSurvives(d: Env, name: string, p: int) returns (b: Env)
    requires EnvValid(d) && p in d.alive && LogsTo(d, p, LogOf(d.site, name))
    ensures Erases(d, b, name) && !Gone(b, name)
  {
    hide Resolve, LogUsed, PidFile, LogOf, FileName, Interferes, EnvValid;
    var log := LogOf(d.site, name);
    var trace := ErasingQuietly([d], name, DELETIONS);
    ErasingValid(trace, name);
    var after := LogComesBack(trace[DELETIONS - 1], p, log);
    var last := trace[DELETIONS - 1];
    trace := ErasingMore(trace, after, name);
    b := trace[DELETIONS];
    if Name(log, 1) == FileName(log, Current) {
      FileNameInjective(log, Generation(1), log, Current);
    }
    assert FileName(log, Rotated(1)) in b.files;
  }

  /** From the moment the rows are deleted, `remove` is sure to leave no PID file and no log of
      the service exactly when no living daemon can bring one back: none that has still to
      write that PID file, and none that writes that log. */
  lemma RemoveCleansIff(d: Env, name: string)
    requires EnvValid(d)
    ensures (forall b: Env | Erases(d, b, name) :: Gone(b, name)) <==> NoRestorer(d, name)
  {
    hide Resolve, LogUsed, PidFile, LogOf, FileName, EnvValid, Gone, GoneSoFar, Erasing, Writes, LogsTo;
    if NoRestorer(d, name) {
      forall b: Env | Erases(d, b, name) ensures Gone(b, name) {
        var trace: seq<Env> :|
          Erasing(trace, name) && |trace| == DELETIONS + 1 && trace[0] == d && trace[DELETIONS] == b;
        FullTrace(trace, name);
      }
    } else {
      var p :| Restorer(d, p, name);
      if p in d.unwritten && Writes(d, p, PidFile(d.site, name)) {
        var b := PidFileSurvives(d, name, p);
      } else {
        var b := LogSurvives(d, name, p);
      }
    }
  }

  lemma FullTrace(trace: seq<Env>, name: string)
    requires Erasing(trace, name) && |trace| == DELETIONS + 1 && EnvValid(trace[0]) && NoRestorer(trace[0], name)
    ensures Gone(trace[DELETIONS], name)
  {
    hide Erasing, EnvValid, GoneSoFar, Gone;
    ErasingRemoves(trace, name);
    ErasingValid(trace, name);
    AllGone(trace[DELETIONS], name);
  }

  lemma StopElsewhere(a: World, b: World, name: string, log: Place, prompt: bool)
    requires StopStep(a, b, name, prompt)
    ensures Elsewhere(a.env, b.env, PidFile(a.env.site, name), log)
  {
    hide Resolve, PidFile, Interferes, Elsewhere, TargetOf, SetRow;
    var f := PidFile(a.env.site, name);
    if name in a.services {
      var read: Env :| StopsOrGivesUp(a, read, b, name, prompt);
      InterferesElsewhere(a.env, read, f, log);
      if GivesUp(a.states, read, b.states, b.env, name) && b.signals == a.signals {
        InterferesElsewhere(read, b.env, f, log);
        ElsewhereTransitive(a.env, read, b.env, f, log);
      } else {
        var found: Env, waited: Env, dropped: Env :|
          && Stopping(read, found, waited, dropped, TargetOf(a.states, read, name), prompt)
          && b.env == WithoutPidFile(dropped, name);
        ElsewhereAgain(a.env, read, found, f, log);
        ElsewhereAgain(a.env, found, waited, f, log);
        ElsewhereAgain(a.env, waited, dropped, f, log);
        SiteOf(a.env, dropped, f, log);
        WithoutElsewhere(dropped, name, log);
        ElsewhereTransitive(a.env, dropped, b.env, f, log);
      }
    } else {
      InterferesElsewhere(a.env, b.env, f, log);
    }
  }

  lemma ElsewhereAgain(a: Env, b: Env, c: Env, f: Path, log: Place)
    requires Elsewhere(a, b, f, log) && Interferes(b, c)
    ensures Elsewhere(a, c, f, log)
  {
    hide Elsewhere, Interferes;
    InterferesElsewhere(b, c, f, log);
    ElsewhereTransitive(a, b, c, f, log);
  }

  lemma SiteOf(a: Env, b: Env, f: Path, log: Place)
    requires Elsewhere(a, b, f, log)
    ensures b.site == a.site
  {
  }

  lemma WithoutElsewhere(e: Env, name: string, log: Place)
    ensures Elsewhere(e, WithoutPidFile(e, name), PidFile(e.site, name), log)
  {
  }

  lemma DeletedElsewhere(e: Env, name: string, i: nat)
    requires i < DELETIONS
    ensures Elsewhere(e, Deleted(e, name, i), PidFile(e.site, name), LogOf(e.site, name))
  {
    hide Resolve, LogUsed, PidFile, LogOf, Quiet, FileName;
    if 1 <= i <= 10 {
      assert NumberedBelow(FileName(LogOf(e.site, name), Rotated(i - 1)), LogOf(e.site, name), 10);
    }
  }

  lemma {:induction false} ErasingElsewhere(trace: seq<Env>, name: string)
    requires Erasing(trace, name)
    ensures Elsewhere(trace[0], trace[|trace| - 1], PidFile(trace[0].site, name), LogOf(trace[0].site, name))
  {
    hide Resolve, LogUsed, PidFile, LogOf, Interferes, Elsewhere, Deleted;
    var f, log := PidFile(trace[0].site, name), LogOf(trace[0].site, name);
    if |trace| > 1 {
      var n := |trace| - 2;
      ErasingElsewhere(trace[..n + 1], name);
      assert Deletes(trace[n], trace[n + 1], name, n);
      var e: Env :| Interferes(trace[n], e) && trace[n + 1] == Deleted(e, name, n);
      ElsewhereAgain(trace[0], trace[n], e, f, log);
      SiteOf(trace[0], e, f, log);
      DeletedElsewhere(e, name, n);
      ElsewhereTransitive(trace[0], e, trace[n + 1], f, log);
    } else {
      ElsewhereReflexive(trace[0], f, log);
    }
  }

  lemma ElsewhereReflexive(e: Env, f: Path, log: Place)
    ensures Elsewhere(e, e, f, log)
  {
  }

  /** A removal touches no file but the PID file and the cleaned log names of the service,
      except as the machine does itself. */
  lemma RemoveElsewhere(a: World, b: World, name: string, prompt: bool)
    requires RemoveStep(a, b, name, prompt)
    ensures Elsewhere(a.env, b.env, PidFile(a.env.site, name), LogOf(a.env.site, name))
  {
    hide Resolve, LogUsed, PidFile, LogOf, Interferes, Elsewhere, StopStep, Erasing, MaybeReconciled;
    var f, log := PidFile(a.env.site, name), LogOf(a.env.site, name);
    if name in a.services {
      var looked: World, stopped: World, deleted: Env :| Removes(a, looked, stopped, deleted, b, name, prompt);
      InterferesElsewhere(a.env, looked.env, f, log);
      SiteOf(a.env, looked.env, f, log);
      if looked.states[name].status == "running" {
        StopElsewhere(looked, stopped, name, log, prompt);
        ElsewhereTransitive(a.env, looked.env, stopped.env, f, log);
      }
      ElsewhereAgain(a.env, stopped.env, deleted, f, log);
      SiteOf(a.env, deleted, f, log);
      var trace: seq<Env> :|
        Erasing(trace, name) && |trace| == DELETIONS + 1 && trace[0] == deleted && trace[DELETIONS] == b.env;
      ErasingElsewhere(trace, name);
      ElsewhereTransitive(a.env, deleted, b.env, f, log);
    } else {
      InterferesElsewhere(a.env, b.env, f, log);
    }
  }

  lemma StopRows(a: World, b: World, name: string, prompt: bool)
    requires StopStep(a, b, name, prompt) && name in a.services && name in a.states
    ensures b.services == a.services && b.states - {name} == a.states - {name}
  {
    hide Interferes, PidFile, TargetOf, Updated;
    var read: Env :| StopsOrGivesUp(a, read, b, name, prompt);
  }

  /** Exactly the service's two rows go. */
  lemma RemoveRows(a: World, b: World, name: string, prompt: bool)
    requires RemoveStep(a, b, name, prompt) && a.states.Keys == a.services.Keys
    ensures b.services == a.services - {name} && b.states == a.states - {name}
  {
    hide Resolve, LogUsed, PidFile, LogOf, Interferes, StopStep, Erases;
    if name in a.services {
      var looked: World, stopped: World, deleted: Env :| Removes(a, looked, stopped, deleted, b, name, prompt);
      assert looked.states - {name} == a.states - {name};
      if looked.states[name].status == "running" {
        StopRows(looked, stopped, name, prompt);
      }
    }
  }

  /** The PID file and the logs of a service are as they were, but for what daemons did. */
  ghost predicate Spared(a: Env, b: Env, name: string) {
    var f := PidFile(a.site, name);
    && (f in a.pidFiles ==> f in b.pidFiles && (b.pidFiles[f] == a.pidFiles[f] || MayWrite(a, f, b.pidFiles[f])))
    && (forall slot: Slot | Quiet(a, FileName(LogOf(a.site, name), slot)) ::
          Lookup(b.files, FileName(LogOf(a.site, name), slot)) == Lookup(a.files, FileName(LogOf(a.site, name), slot)))
  }

  /** No removal of the one service ever touches a file of the other. */
  ghost predicate RemovalSpares(site: Site, name: string, other: string) {
    forall a: World, b: World | WorldValid(a) && a.env.site == site && RemoveStep(a, b, name, false) ::
      Spared(a.env, b.env, other)
  }

  lemma NotCleaned(log: Place, other: Place, slot: Slot)
    requires log != other
    ensures !CleanedName(FileName(other, slot), log)
  {
    if FileName(other, slot) == FileName(log, Current) {
      FileNameInjective(other, slot, log, Current);
    }
    forall i: nat ensures FileName(other, slot) != FileName(log, Rotated(i)) {
      if FileName(other, slot) == FileName(log, Rotated(i)) {
        FileNameInjective(other, slot, log, Rotated(i));
      }
    }
  }

  lemma ElsewhereSpares(a: Env, b: Env, name: string, other: string)
    requires Elsewhere(a, b, PidFile(a.site, name), LogOf(a.site, name))
    requires PidFile(a.site, name) != PidFile(a.site, other) && LogOf(a.site, name) != LogOf(a.site, other)
    ensures Spared(a, b, other)
  {
    hide Resolve, LogUsed, PidFile, LogOf, MayWrite, CleanedName, FileName;
    forall slot: Slot ensures !CleanedName(FileName(LogOf(a.site, other), slot), LogOf(a.site, name)) {
      NotCleaned(LogOf(a.site, name), LogOf(a.site, other), slot);
    }
  }

  /** A stopped service, one empty PID file, one log file, and no process. */
  function Sample(site: Site, name: string): World {
    World(map[name := RecordOf(InstalledAs(name), "")], map[name := INITIAL_STATE],
          FreshEnv(site).(pidFiles := map[PidFile(site, name) := 0],
            files := map[FileName(LogOf(site, name), Current) := ""]), [])
  }

  lemma SampleValid(site: Site, name: string)
    ensures WorldValid(Sample(site, name))
  {
    hide Resolve, LogUsed, PidFile, LogOf, FileName, LineFor;
    var w := Sample(site, name);
    forall log: Place ensures Bounded(w.env.files, log) {
      forall j: nat | j > LOG_MAX_FILES ensures At(w.env.files, log, j) == None {
        if Name(log, j) == FileName(LogOf(site, name), Current) {
          FileNameInjective(log, Generation(j), LogOf(site, name), Current);
        }
      }
    }
  }

  lemma SampleRemoved(site: Site, name: string) returns (b: World)
    ensures RemoveStep(Sample(site, name), b, name, false) && Gone(b.env, name)
  {
    hide Resolve, LogUsed, PidFile, LogOf, FileName, RecordOf, Erasing, Gone, EnvValid, Interferes, WorldValid;
    var a := Sample(site, name);
    SampleValid(site, name);
    SignalsOf(a);
    InterferesReflexive(a.env);
    ErasingOne(a.env, name);
    var trace := ErasingQuietly([a.env], name, DELETIONS + 1);
    assert forall p :: !Restorer(a.env, p, name);
    FullTrace(trace, name);
    b := World(map[], map[], trace[DELETIONS], []);
    assert a.services - {name} == map[] && a.states - {name} == map[];
    assert a.states == a.states[name := ReconcileRow(a.states[name], a.env.alive)];
    assert Erases(a.env, b.env, name);
    assert Removes(a, a, a, a.env, b, name, false);
  }

  lemma ErasingOne(e: Env, name: string)
    ensures Erasing([e], name)
  {
  }

  /** A removal spares another service's files exactly when the two share neither the PID file
      nor the log. */
  lemma RemovalSparesIff(site: Site, name: string, other: string)
    ensures RemovalSpares(site, name, other) <==>
              PidFile(site, name) != PidFile(site, other) && LogOf(site, name) != LogOf(site, other)
  {
    hide Resolve, LogUsed, PidFile, LogOf, FileName, RemoveStep, Elsewhere, Spared, WorldValid, Gone;
    if PidFile(site, name) != PidFile(site, other) && LogOf(site, name) != LogOf(site, other) {
      forall a: World, b: World | WorldValid(a) && a.env.site == site && RemoveStep(a, b, name, false)
        ensures Spared(a.env, b.env, other)
      {
        RemoveElsewhere(a, b, name, false);
        ElsewhereSpares(a.env, b.env, name, other);
      }
    } else {
      var a := Sample(site, name);
      SampleValid(site, name);
      var b := SampleRemoved(site, name);
      SampleNotSpared(site, name, other, b);
    }
  }

  lemma SampleNotSpared(site: Site, name: string, other: string, b: World)
    requires RemoveStep(Sample(site, name), b, name, false) && Gone(b.env, name)
    requires PidFile(site, name) == PidFile(site, other) || LogOf(site, name) == LogOf(site, other)
    ensures !Spared(Sample(site, name).env, b.env, other)
  {
    hide Resolve, LogUsed, PidFile, LogOf, FileName, RemoveStep, Elsewhere;
    var a := Sample(site, name);
    RemoveElsewhere(a, b, name, false);
    SiteOf(a.env, b.env, PidFile(site, name), LogOf(site, name));
    if PidFile(site, name) != PidFile(site, other) {
      var f := FileName(LogOf(site, name), Current);
      assert Quiet(a.env, f) && Lookup(a.env.files, f) == Some("") && f !in b.env.files;
    }
  }

  /** A removal that starts when nothing living can bring a file back leaves nothing. */
  lemma RemoveCleans(a: World, b: World, name: string, prompt: bool)
    requires WorldValid(a) && RemoveStep(a, b, name, prompt) && name in a.services && NoRestorer(a.env, name)
    ensures Gone(b.env, name)
  {
    hide Resolve, LogUsed, PidFile, LogOf, FileName, WorldValid, EnvValid;
    hide Interferes, StopStep, Erasing, MaybeReconciled, NoRestorer, Gone;
    var looked: World, stopped: World, deleted: Env :| Removes(a, looked, stopped, deleted, b, name, prompt);
    SignalsOf(a);
    InterferenceKeepsValid(a.env, looked.env);
    RestorersShrink(a.env, looked.env, name);
    if looked.states[name].status == "running" {
      StopShrinks(looked, stopped, name, prompt);
      RestorersLater(looked.env, stopped.env, name);
    }
    RestorersShrink(stopped.env, deleted, name);
    InterferenceKeepsValid(stopped.env, deleted);
    RemoveCleansIff(deleted, name);
  }

  lemma RestorersLater(a: Env, b: Env, name: string)
    requires b.site == a.site && b.configs == a.configs && b.alive <= a.alive && b.unwritten <= a.unwritten
    requires NoRestorer(a, name)
    ensures NoRestorer(b, name)
  {
    hide Resolve, LogUsed, PidFile, LogOf;
    forall p ensures !Restorer(b, p, name) {
      assert !Restorer(a, p, name);
    }
  }

  lemma RestorersShrink(a: Env, b: Env, name: string)
    requires Interferes(a, b) && NoRestorer(a, name)
    ensures NoRestorer(b, name)
  {
    hide Resolve, LogUsed, PidFile, LogOf, NoRestorer, MayWrite, HasWritten, Quiet, Bounded;
    RestorersLater(a, b, name);
  }

  lemma StopShrinks(a: World, b: World, name: string, prompt: bool)
    requires EnvValid(a.env) && StopStep(a, b, name, prompt)
    ensures EnvValid(b.env)
    ensures b.env.site == a.env.site && b.env.owner == a.env.owner && b.env.configs == a.env.configs
    ensures b.env.alive <= a.env.alive && b.env.unwritten <= a.env.unwritten
  {
    hide Resolve, LogUsed, PidFile, LogOf, EnvValid, Interferes, TargetOf, SetRow;
    StopElsewhere(a, b, name, LogOf(a.env.site, name), prompt);
    ElsewhereShrinks(a.env, b.env, PidFile(a.env.site, name), LogOf(a.env.site, name));
    if name in a.services {
      var read: Env :| StopsOrGivesUp(a, read, b, name, prompt);
      InterferenceKeepsValid(a.env, read);
      if GivesUp(a.states, read, b.states, b.env, name) && b.signals == a.signals {
        InterferenceKeepsValid(read, b.env);
      } else {
        var found: Env, waited: Env, dropped: Env :|
          && Stopping(read, found, waited, dropped, TargetOf(a.states, read, name), prompt)
          && b.env == WithoutPidFile(dropped, name);
        InterferenceKeepsValid(read, found);
        InterferenceKeepsValid(found, waited);
        InterferenceKeepsValid(waited, dropped);
        WithoutKeepsValid(dropped, name);
      }
    } else {
      InterferenceKeepsValid(a.env, b.env);
    }
  }

  lemma ElsewhereShrinks(a: Env, b: Env, f: Path, log: Place)
    requires Elsewhere(a, b, f, log)
    ensures b.site == a.site && b.owner == a.owner && b.configs == a.configs
    ensures b.alive <= a.alive && b.unwritten <= a.unwritten
  {
  }
}
