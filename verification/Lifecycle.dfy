/** What the commands of src/service_registry.cc do to the whole system: tables, processes, PID
    files and logs. Each command is a relation between the states before and after it, with the
    machine moving between any two of its steps; the methods of the class ServiceRegistry are
    proved to stay within these relations. */
module Lifecycles {
  import opened Options
  import opened FilePaths
  import opened LogNames
  import opened LogFiles
  import opened Configs
  import opened LaunchLine
  import opened Databases
  import opened Machines

  /** Tables, machine, and every SIGTERM sent so far: to which PID, and for which service. */
  datatype World = World(services: Services, states: States, env: Env, signals: seq<(int, string)>)

  datatype Command =
    | Install(config: Config, now: string)
    | Remove(name: string)
    | Start(name: string)
    | Stop(name: string)
    | Status(name: string)
    | List
    | Wait

  /** A row that says "running" for a process that is gone is corrected. */
  function ReconcileRow(row: ServiceState, alive: set<int>): ServiceState {
    if row.status == "running" && row.pid > 0 && row.pid !in alive then row.(status := "stopped", pid := 0) else row
  }

  function ReconcileAll(states: States, alive: set<int>): States {
    map n | n in states :: ReconcileRow(states[n], alive)
  }

  /** A second sweep finds nothing to do, and no row still claims a dead process. */
  lemma ReconcileOnce(states: States, alive: set<int>)
    ensures ReconcileAll(ReconcileAll(states, alive), alive) == ReconcileAll(states, alive)
    ensures forall n | n in states ::
              var row := ReconcileAll(states, alive)[n];
              && (row.status == "running" && row.pid > 0 ==> row.pid in alive)
              && row.lastStartedAt == states[n].lastStartedAt && row.lastStoppedAt == states[n].lastStoppedAt
              && row.executionCount == states[n].executionCount
              && (states[n].pid in alive ==> row == states[n])
  {
  }

  /** What "running" says after a correction: that the process lives, exactly when the row has a
      PID. A running row without one is the one kind that no death ever corrects. */
  lemma RunningMeansAliveIff(row: ServiceState, alive: set<int>)
    requires forall p | p in alive :: p > 0
    ensures var shown := ReconcileRow(row, alive);
            shown.status == "running" ==> (shown.pid in alive <==> shown.pid > 0)
    ensures row.status == "running" ==> ((forall later: set<int> :: ReconcileRow(row, later) == row) <==> row.pid <= 0)
  {
    assert ReconcileRow(row, {}) == row || row.pid > 0;
  }

  /** Only the row of `name` may have changed, and only as a look at the processes at some
      moment between the two states of the machine demands. */
  ghost predicate MaybeReconciled(before: States, after: States, name: string, first: set<int>, last: set<int>) {
    || (name !in before && after == before)
    || (name in before && (after == before[name := ReconcileRow(before[name], first)] ||
                           after == before[name := ReconcileRow(before[name], last)]))
  }

  /** The status of one service is looked at, which may correct its row. */
  ghost predicate Looked(s0: States, e0: Env, s1: States, e1: Env, name: string) {
    Interferes(e0, e1) && MaybeReconciled(s0, s1, name, e0.alive, e1.alive)
  }

  ghost predicate SweptRow(before: ServiceState, after: ServiceState, first: set<int>, last: set<int>) {
    after == ReconcileRow(before, first) || after == ReconcileRow(before, last)
  }

  /** Every row was looked at once, at some moment of the sweep. */
  ghost predicate Swept(before: States, after: States, first: set<int>, last: set<int>) {
    && after.Keys == before.Keys
    && (forall n | n in before :: SweptRow(before[n], after[n], first, last))
  }

  /** What a PID file says; 0 if it does not exist or is empty. */
  function PidIn(e: Env, name: string): int {
    var f := PidFile(e.site, name);
    if f in e.pidFiles then e.pidFiles[f] else 0
  }

  /** The process `stop` goes for: the one in the row, or else the one in the PID file. */
  function TargetOf(states: States, e: Env, name: string): int
    requires name in states
  {
    if states[name].pid > 0 then states[name].pid else PidIn(e, name)
  }

  /** The command line of the daemon of a service. */
  function LineFor(site: Site, record: ServiceRecord): string {
    LaunchText(record, PathsFor(site, record.name))
  }

  const STOPPED := ServiceState("stopped", 0, "", "now", 0)
  const GIVEN_UP := ServiceState("stopped", 0, "", "", 0)

  function Running(pid: int): ServiceState {
    ServiceState("running", pid, "now", "", 0)
  }

  function SetRow(states: States, name: string, st: ServiceState): States
    requires name in states
  {
    states[name := Updated(states[name], st)]
  }

  /** The new daemon, if there is one, has nothing more to write to its PID file. */
  predicate Settled(e: Env, d: Spawn) {
    d.NewDaemon? ==> d.pid !in e.unwritten
  }

  /** A service that is not running is started: its launch line is run, some time passes, the PID
      file is looked at, some more time passes, and the row is written. */
  ghost predicate Launches(s0: States, e0: Env, s1: States, e1: Env, name: string, line: string,
                           d: Spawn, read: Env) {
    && name in s0 && s0[name].status != "running"
    && NewPid(e0, d) && MayStart(e0.site, line, d)
    && Interferes(Started(e0, name, d), read) && Interferes(read, e1)
    && s1 == SetRow(s0, name, Running(PidIn(read, name)))
  }

  /** A whole successful `start`: the row is corrected first. It is prompt if the new daemon
      has completed its PID file, or died, when the file is read. */
  ghost predicate Starts(s0: States, e0: Env, s1: States, e1: Env, name: string, line: string, prompt: bool) {
    exists s: States, e: Env, d: Spawn, read: Env ::
      && Looked(s0, e0, s, e, name) && Launches(s, e, s1, e1, name, line, d, read)
      && (prompt ==> Settled(read, d))
  }

  /** A `stop` that finds nothing to stop, but marks the row stopped; e0 is the moment at which
      the target is looked up. */
  ghost predicate GivesUp(s0: States, e0: Env, s1: States, e1: Env, name: string) {
    && name in s0 && Interferes(e0, e1)
    && !(TargetOf(s0, e0, name) > 0 && TargetOf(s0, e0, name) in e1.alive)
    && s1 == SetRow(s0, name, GIVEN_UP)
  }

  function WithoutPidFile(e: Env, name: string): Env {
    e.(pidFiles := e.pidFiles - {PidFile(e.site, name)})
  }

  /** A `stop` that finds a living target, from the same moment: the signal, some time, the row,
      some more time, and the removal of the PID file. It is prompt if the target is dead when
      the row is written. */
  ghost predicate Stops(s0: States, e0: Env, s1: States, e1: Env, name: string, prompt: bool) {
    && name in s0 && TargetOf(s0, e0, name) > 0
    && (exists found: Env, waited: Env, dropped: Env ::
          Stopping(e0, found, waited, dropped, TargetOf(s0, e0, name), prompt) && e1 == WithoutPidFile(dropped, name))
    && s1 == SetRow(s0, name, STOPPED)
  }

  ghost predicate Stopping(e0: Env, found: Env, waited: Env, dropped: Env, target: int, prompt: bool) {
    && Interferes(e0, found) && target in found.alive
    && Interferes(found, waited) && (prompt ==> target !in waited.alive)
    && Interferes(waited, dropped)
  }

  /** `stop` on a registered service. */
  ghost predicate StopsOrGivesUp(a: World, read: Env, b: World, name: string, prompt: bool) {
    && Interferes(a.env, read) && name in a.states
    && ((GivesUp(a.states, read, b.states, b.env, name) && b.signals == a.signals) ||
        (Stops(a.states, read, b.states, b.env, name, prompt) &&
         b.signals == a.signals + [(TargetOf(a.states, read, name), name)]))
  }

  ghost predicate StopStep(a: World, b: World, name: string, prompt: bool) {
    && b.services == a.services
    && if name in a.services then exists read: Env :: StopsOrGivesUp(a, read, b, name, prompt)
       else Waits(a, b)
  }

  ghost predicate Waits(a: World, b: World) {
    Interferes(a.env, b.env) && b == a.(env := b.env)
  }

  ghost predicate StartStep(a: World, b: World, name: string, prompt: bool) {
    && b.services == a.services && b.signals == a.signals
    && (Looked(a.states, a.env, b.states, b.env, name) ||
        (name in a.services && Starts(a.states, a.env, b.states, b.env, name, LineFor(a.env.site, a.services[name]),
          prompt)))
  }

  ghost predicate InstallStep(a: World, b: World, config: Config, now: string) {
    var name := config.serviceName;
    && Interferes(a.env, b.env)
    && b == if name in a.services then a.(env := b.env)
            else World(a.services[name := RecordOf(config, now)], a.states[name := INITIAL_STATE], b.env, a.signals)
  }

  /** The deletions of `remove`, in order: the PID file, the rotated logs 0 to 9, the live log. */
  const DELETIONS: nat := 12

  function Deleted(e: Env, name: string, i: nat): Env
    requires i < DELETIONS
  {
    if i == 0 then WithoutPidFile(e, name)
    else
      var slot := if i <= 10 then Rotated(i - 1) else Current;
      e.(files := e.files - {FileName(LogOf(e.site, name), slot)})
  }

  ghost predicate Deletes(a: Env, b: Env, name: string, i: nat)
    requires i < DELETIONS
  {
    exists e: Env :: Interferes(a, e) && b == Deleted(e, name, i)
  }

  /** The machine before the first deletion and after each of them. */
  ghost predicate Erasing(trace: seq<Env>, name: string) {
    && 1 <= |trace| <= DELETIONS + 1
    && (forall i: nat | i + 1 < |trace| :: Deletes(trace[i], trace[i + 1], name, i))
  }

  ghost predicate Erases(a: Env, b: Env, name: string) {
    exists trace: seq<Env> :: Erasing(trace, name) && |trace| == DELETIONS + 1 && trace[0] == a && trace[DELETIONS] == b
  }

  /** `remove` on a registered service: a look, a stop if it is running, the rows, the files. */
  ghost predicate Removes(a: World, looked: World, stopped: World, deleted: Env, b: World, name: string, prompt: bool) {
    && looked == a.(states := looked.states, env := looked.env)
    && Looked(a.states, a.env, looked.states, looked.env, name) && name in looked.states
    && (if looked.states[name].status == "running" then StopStep(looked, stopped, name, prompt) else stopped == looked)
    && Interferes(stopped.env, deleted)
    && Erases(deleted, b.env, name)
    && b == World(stopped.services - {name}, stopped.states - {name}, b.env, stopped.signals)
  }

  ghost predicate RemoveStep(a: World, b: World, name: string, prompt: bool) {
    if name in a.services then
      exists looked: World, stopped: World, deleted: Env :: Removes(a, looked, stopped, deleted, b, name, prompt)
    else Waits(a, b)
  }

  ghost predicate LookStep(a: World, b: World, name: string) {
    b == a.(states := b.states, env := b.env) && Looked(a.states, a.env, b.states, b.env, name)
  }

  ghost predicate SweepStep(a: World, b: World) {
    && b == a.(states := b.states, env := b.env) && Interferes(a.env, b.env)
    && Swept(a.states, b.states, a.env.alive, b.env.alive)
  }

  /** One command. */
  ghost predicate Step(a: World, b: World, c: Command, prompt: bool) {
    match c
    case Install(config, now) => InstallStep(a, b, config, now)
    case Remove(name) => RemoveStep(a, b, name, prompt)
    case Start(name) => StartStep(a, b, name, prompt)
    case Stop(name) => StopStep(a, b, name, prompt)
    case Status(name) => if name == "" then SweepStep(a, b) else LookStep(a, b, name)
    case List => SweepStep(a, b)
    case Wait => Waits(a, b)
  }

  function FreshEnv(site: Site): Env {
    Env(site, map[], map[], {}, {}, map[], map[])
  }

  function FreshWorld(site: Site): World {
    World(map[], map[], FreshEnv(site), [])
  }

  /** A run: the world before the first command, and after each of them. */
  ghost predicate Run(ws: seq<World>, cs: seq<Command>, site: Site) {
    && |ws| == |cs| + 1 && ws[0] == FreshWorld(site)
    && (forall k | 0 <= k < |cs| :: Step(ws[k], ws[k + 1], cs[k], false))
  }

  /** Status words, and no PID in a stopped row. */
  ghost predicate WellFormed(states: States) {
    forall n | n in states ::
      && (states[n].status == "running" || states[n].status == "stopped")
      && states[n].pid >= 0
      && (states[n].status == "stopped" ==> states[n].pid == 0)
  }

  /** The PID belongs to a daemon that uses the same PID file as the service. */
  predicate Shares(e: Env, pid: int, name: string) {
    Writes(e, pid, PidFile(e.site, name))
  }

  ghost predicate RowsShared(states: States, e: Env) {
    forall n | n in states && states[n].pid > 0 :: Shares(e, states[n].pid, n)
  }

  ghost predicate SignalsShared(signals: seq<(int, string)>, e: Env) {
    forall k | 0 <= k < |signals| :: Shares(e, signals[k].0, signals[k].1)
  }

  /** The daemon runs as some record of its service makes it run. */
  ghost predicate OwnLine(e: Env, pid: int) {
    && pid in e.owner && pid in e.configs
    && exists r: ServiceRecord :: r.name == e.owner[pid] && Reads(e.site, LineFor(e.site, r), e.configs[pid])
  }

  /** What holds whenever no command is running. */
  ghost predicate WorldValid(w: World) {
    && (forall n | n in w.services :: w.services[n].name == n)
    && w.states.Keys == w.services.Keys
    && WellFormed(w.states)
    && EnvValid(w.env)
    && RowsShared(w.states, w.env)
    && SignalsShared(w.signals, w.env)
    && (forall p | p in w.env.owner :: OwnLine(w.env, p))
  }

  lemma FreshWorldValid(site: Site)
    ensures WorldValid(FreshWorld(site))
  {
  }

  lemma WaitKeepsValid(w: World, e: Env)
    requires WorldValid(w) && Interferes(w.env, e)
    ensures WorldValid(w.(env := e))
  {
    hide Resolve, LogUsed, Reads, LineFor, Bounded, MayWrite, HasWritten, Quiet;
    InterferenceKeepsValid(w.env, e);
    forall p | p in e.owner ensures OwnLine(e, p) {
      assert OwnLine(w.env, p);
    }
  }

  lemma LookKeepsRows(before: States, after: States, e: Env, name: string, first: set<int>, last: set<int>)
    requires WellFormed(before) && RowsShared(before, e) && MaybeReconciled(before, after, name, first, last)
    ensures WellFormed(after) && RowsShared(after, e) && after.Keys == before.Keys
  {
    hide Resolve, LogUsed;
  }

  lemma SweepKeepsRows(before: States, after: States, e: Env, first: set<int>, last: set<int>)
    requires WellFormed(before) && RowsShared(before, e) && Swept(before, after, first, last)
    ensures WellFormed(after) && RowsShared(after, e)
  {
  }

  /** Rows, machine and signals may be checked one at a time. */
  lemma ValidFromParts(w: World, e: Env, states: States, signals: seq<(int, string)>)
    requires WorldValid(w) && Interferes(w.env, e)
    requires states.Keys == w.states.Keys && WellFormed(states) && RowsShared(states, e) && SignalsShared(signals, e)
    ensures WorldValid(World(w.services, states, e, signals))
  {
    hide Resolve, LogUsed, Reads, LineFor, WellFormed, RowsShared, SignalsShared, EnvValid, Interferes;
    WaitKeepsValid(w, e);
  }

  lemma RowsLater(states: States, signals: seq<(int, string)>, a: Env, b: Env)
    requires b.site == a.site && b.configs == a.configs
    ensures RowsShared(states, a) ==> RowsShared(states, b)
    ensures SignalsShared(signals, a) ==> SignalsShared(signals, b)
  {
  }

  lemma LookKeepsValid(a: World, b: World, name: string)
    requires WorldValid(a) && LookStep(a, b, name)
    ensures WorldValid(b)
  {
    hide Resolve, LogUsed, Reads, LineFor, WellFormed, RowsShared, SignalsShared, EnvValid, Swept, MaybeReconciled;
    RowsLater(a.states, a.signals, a.env, b.env);
    LookKeepsRows(a.states, b.states, b.env, name, a.env.alive, b.env.alive);
    ValidFromParts(a, b.env, b.states, b.signals);
  }

  lemma SweepKeepsValid(a: World, b: World)
    requires WorldValid(a) && SweepStep(a, b)
    ensures WorldValid(b)
  {
    hide Resolve, LogUsed, Reads, LineFor, WellFormed, RowsShared, SignalsShared, EnvValid, SweptRow;
    RowsLater(a.states, a.signals, a.env, b.env);
    SweepKeepsRows(a.states, b.states, b.env, a.env.alive, b.env.alive);
    ValidFromParts(a, b.env, b.states, b.signals);
  }

  lemma InstallKeepsValid(a: World, b: World, config: Config, now: string)
    requires WorldValid(a) && InstallStep(a, b, config, now)
    ensures WorldValid(b)
  {
    hide Resolve, LogUsed, Reads, LineFor, EnvValid, SignalsShared, Interferes;
    WaitKeepsValid(a, b.env);
  }

  lemma SetRowKeeps(states: States, e: Env, name: string, st: ServiceState)
    requires WellFormed(states) && RowsShared(states, e) && name in states
    requires st.status == "running" || (st.status == "stopped" && st.pid == 0)
    requires st.pid == 0 || (st.pid > 0 && Shares(e, st.pid, name))
    ensures WellFormed(SetRow(states, name, st)) && RowsShared(SetRow(states, name, st), e)
    ensures SetRow(states, name, st).Keys == states.Keys
  {
  }

  /** The PID in a PID file belongs to a daemon that uses that file. */
  lemma PidInShares(e: Env, name: string)
    requires EnvValid(e)
    ensures PidIn(e, name) == 0 || (PidIn(e, name) > 0 && Shares(e, PidIn(e, name), name))
  {
  }

  lemma DaemonAdded(w: World, name: string, d: Spawn)
    requires WorldValid(w) && name in w.services && NewPid(w.env, d)
    requires MayStart(w.env.site, LineFor(w.env.site, w.services[name]), d)
    ensures WorldValid(w.(env := Started(w.env, name, d)))
  {
    hide Resolve, LogUsed, LineFor, EnvValid, Reads, WellFormed;
    var e := Started(w.env, name, d);
    StartedIsValid(w.env, name, d);
    EnvValidFacts(w.env);
    forall p | p in e.owner ensures OwnLine(e, p) {
      if p in w.env.owner {
        assert OwnLine(w.env, p);
      }
    }
  }

  lemma EnvValidFacts(e: Env)
    requires EnvValid(e)
    ensures e.alive <= e.owner.Keys && e.unwritten <= e.alive && e.configs.Keys == e.owner.Keys
    ensures forall p | p in e.owner :: p > 0
  {
  }

  lemma LaunchKeepsValid(a: World, b: World, name: string, d: Spawn, read: Env)
    requires WorldValid(a) && name in a.services && b.services == a.services && b.signals == a.signals
    requires Launches(a.states, a.env, b.states, b.env, name, LineFor(a.env.site, a.services[name]), d, read)
    ensures WorldValid(b)
  {
    hide Resolve, LineFor, EnvValid, WellFormed, RowsShared, SignalsShared;
    hide Interferes, OwnLine, PidIn, Shares, Reads;
    DaemonAdded(a, name, d);
    WaitKeepsValid(a.(env := Started(a.env, name, d)), read);
    PidInShares(read, name);
    SetRowKeeps(a.states, read, name, Running(PidIn(read, name)));
    WaitKeepsValid(World(a.services, b.states, read, a.signals), b.env);
  }

  lemma StartKeepsValid(a: World, b: World, name: string)
    requires WorldValid(a) && StartStep(a, b, name, false)
    ensures WorldValid(b)
  {
    hide Resolve, LogUsed, Reads, LineFor, WorldValid, Launches, Interferes, MaybeReconciled;
    if Looked(a.states, a.env, b.states, b.env, name) {
      LookKeepsValid(a, b, name);
    } else {
      var line := LineFor(a.env.site, a.services[name]);
      var s: States, e: Env, d: Spawn, read: Env :|
        Looked(a.states, a.env, s, e, name) && Launches(s, e, b.states, b.env, name, line, d, read);
      var looked := a.(states := s, env := e);
      LookKeepsValid(a, looked, name);
      SameSite(a.env, e);
      LaunchKeepsValid(looked, b, name, d, read);
    }
  }

  lemma SameSite(a: Env, b: Env)
    requires Interferes(a, b)
    ensures b.site == a.site && b.owner == a.owner && b.configs == a.configs && b.alive <= a.alive
  {
  }

  lemma TargetShares(states: States, e: Env, name: string)
    requires EnvValid(e) && RowsShared(states, e) && name in states
    ensures TargetOf(states, e, name) > 0 ==> Shares(e, TargetOf(states, e, name), name)
  {
  }

  lemma WithoutKeepsValid(e: Env, name: string)
    requires EnvValid(e)
    ensures EnvValid(WithoutPidFile(e, name))
  {
  }

  /** Deleting files keeps everything that the tables say about processes. */
  lemma ShrunkKeepsValid(w: World, e: Env)
    requires WorldValid(w) && EnvValid(e)
    requires e.site == w.env.site && e.owner == w.env.owner && e.configs == w.env.configs
    ensures WorldValid(w.(env := e))
  {
    hide Resolve, LogUsed, Reads, LineFor, EnvValid, WellFormed;
    forall p | p in e.owner ensures OwnLine(e, p) {
      assert OwnLine(w.env, p);
    }
  }

  lemma StoppedRowKeeps(w: World, name: string, st: ServiceState, signals: seq<(int, string)>)
    requires WorldValid(w) && name in w.states && st.status == "stopped" && st.pid == 0
    requires SignalsShared(signals, w.env)
    ensures WorldValid(World(w.services, SetRow(w.states, name, st), w.env, signals))
  {
    hide Resolve, LogUsed, Reads, LineFor, EnvValid, WellFormed, RowsShared, SignalsShared;
    SetRowKeeps(w.states, w.env, name, st);
  }

  lemma SignalAdded(signals: seq<(int, string)>, e: Env, pid: int, name: string)
    requires SignalsShared(signals, e) && Shares(e, pid, name)
    ensures SignalsShared(signals + [(pid, name)], e)
  {
  }

  lemma GivingUpKeepsValid(a: World, b: World, read: Env, name: string)
    requires WorldValid(a) && b.services == a.services && Interferes(a.env, read)
    requires GivesUp(a.states, read, b.states, b.env, name) && b.signals == a.signals
    ensures WorldValid(b)
  {
    hide Resolve, LogUsed, Reads, LineFor, WorldValid, Interferes, TargetOf, SetRow;
    WaitKeepsValid(a, read);
    var before := a.(env := read);
    WaitKeepsValid(before, b.env);
    assert SignalsShared(a.signals, b.env) by {
      SignalsOf(before.(env := b.env));
    }
    StoppedRowKeeps(before.(env := b.env), name, GIVEN_UP, a.signals);
  }

  lemma SignalsOf(w: World)
    requires WorldValid(w)
    ensures SignalsShared(w.signals, w.env) && RowsShared(w.states, w.env) && EnvValid(w.env)
  {
  }

  lemma StoppingKeepsValid(a: World, b: World, read: Env, name: string)
    requires WorldValid(a) && b.services == a.services && Interferes(a.env, read)
    requires name in a.states && Stops(a.states, read, b.states, b.env, name, false)
    requires b.signals == a.signals + [(TargetOf(a.states, read, name), name)]
    ensures WorldValid(b)
  {
    hide Resolve, LogUsed, Reads, LineFor, WorldValid, Interferes, TargetOf;
    hide SetRow, SignalsShared, RowsShared, EnvValid, Shares, WithoutPidFile;
    var target := TargetOf(a.states, read, name);
    var found: Env, waited: Env, dropped: Env :|
      Stopping(read, found, waited, dropped, target, false) && b.env == WithoutPidFile(dropped, name);
    WaitKeepsValid(a, read);
    var before := a.(env := read);
    SignalsOf(before);
    TargetShares(a.states, read, name);
    SignalAdded(a.signals, read, target, name);
    StoppedRowKeeps(before, name, STOPPED, b.signals);
    var after := World(a.services, b.states, read, b.signals);
    WaitKeepsValid(after, found);
    WaitKeepsValid(after.(env := found), waited);
    WaitKeepsValid(after.(env := waited), dropped);
    SignalsOf(after.(env := dropped));
    WithoutKeepsValid(dropped, name);
    WithoutSame(dropped, name);
    ShrunkKeepsValid(after.(env := dropped), b.env);
  }

  lemma WithoutSame(e: Env, name: string)
    ensures var after := WithoutPidFile(e, name);
            && after.site == e.site && after.owner == e.owner && after.configs == e.configs
            && after.alive == e.alive && after.unwritten == e.unwritten
  {
  }

  lemma StopKeepsValid(a: World, b: World, name: string)
    requires WorldValid(a) && StopStep(a, b, name, false)
    ensures WorldValid(b)
  {
    hide Resolve, LogUsed, Reads, LineFor, WorldValid, Interferes, TargetOf, GivesUp, Stops;
    if name in a.services {
      var read: Env :| StopsOrGivesUp(a, read, b, name, false);
      if GivesUp(a.states, read, b.states, b.env, name) && b.signals == a.signals {
        GivingUpKeepsValid(a, b, read, name);
      } else {
        StoppingKeepsValid(a, b, read, name);
      }
    } else {
      WaitKeepsValid(a, b.env);
    }
  }

  lemma DeletedKeepsValid(e: Env, name: string, i: nat)
    requires EnvValid(e) && i < DELETIONS
    ensures EnvValid(Deleted(e, name, i))
    ensures var d := Deleted(e, name, i);
            && d.site == e.site && d.owner == e.owner && d.configs == e.configs
            && d.alive == e.alive && d.unwritten == e.unwritten
  {
    hide Resolve, LogUsed, FileName;
    if i == 0 {
      WithoutKeepsValid(e, name);
    } else {
      var d := Deleted(e, name, i);
      forall log: Place ensures Bounded(d.files, log) {
        assert Bounded(e.files, log);
        forall j: nat | j > LOG_MAX_FILES ensures At(d.files, log, j) == None {
          assert At(e.files, log, j) == None;
        }
      }
      forall f | f in d.pidFiles ensures d.pidFiles[f] == 0 || Writes(d, d.pidFiles[f], f) {
        assert e.pidFiles[f] == 0 || Writes(e, e.pidFiles[f], f);
      }
    }
  }

  lemma {:induction false} ErasingKeepsValid(w: World, trace: seq<Env>, name: string)
    requires WorldValid(w) && Erasing(trace, name) && trace[0] == w.env
    ensures WorldValid(w.(env := trace[|trace| - 1]))
  {
    hide Resolve, LogUsed, Reads, LineFor, WorldValid, EnvValid, Interferes, Deleted;
    if |trace| > 1 {
      var n := |trace| - 2;
      ErasingKeepsValid(w, trace[..n + 1], name);
      assert Deletes(trace[n], trace[n + 1], name, n);
      var e: Env :| Interferes(trace[n], e) && trace[n + 1] == Deleted(e, name, n);
      var before := w.(env := trace[n]);
      WaitKeepsValid(before, e);
      SignalsOf(before.(env := e));
      DeletedKeepsValid(e, name, n);
      ShrunkKeepsValid(before.(env := e), trace[n + 1]);
    }
  }

  lemma RowsDeleted(w: World, name: string)
    requires WorldValid(w)
    ensures WorldValid(World(w.services - {name}, w.states - {name}, w.env, w.signals))
  {
    hide Resolve, LogUsed, Reads, LineFor, EnvValid, SignalsShared, OwnLine;
  }

  lemma RemoveKeepsValid(a: World, b: World, name: string)
    requires WorldValid(a) && RemoveStep(a, b, name, false)
    ensures WorldValid(b)
  {
    hide Resolve, LogUsed, Reads, LineFor, WorldValid, Interferes, StopStep, Erasing, MaybeReconciled;
    if name in a.services {
      var looked: World, stopped: World, deleted: Env :| Removes(a, looked, stopped, deleted, b, name, false);
      LookKeepsValid(a, looked, name);
      if looked.states[name].status == "running" {
        StopKeepsValid(looked, stopped, name);
      }
      WaitKeepsValid(stopped, deleted);
      var trace: seq<Env> :|
        Erasing(trace, name) && |trace| == DELETIONS + 1 && trace[0] == deleted && trace[DELETIONS] == b.env;
      RowsDeleted(stopped.(env := deleted), name);
      ErasingKeepsValid(World(stopped.services - {name}, stopped.states - {name}, deleted, stopped.signals), trace,
        name);
    } else {
      WaitKeepsValid(a, b.env);
    }
  }

  /** Every command keeps what must hold between commands, whatever the machine does. */
  lemma StepKeepsValid(a: World, b: World, c: Command)
    requires WorldValid(a) && Step(a, b, c, false)
    ensures WorldValid(b)
  {
    hide WorldValid, InstallStep, RemoveStep, StartStep, StopStep, SweepStep, LookStep;
    match c {
      case Install(config, now) => InstallKeepsValid(a, b, config, now);
      case Remove(name) => RemoveKeepsValid(a, b, name);
      case Start(name) => StartKeepsValid(a, b, name);
      case Stop(name) => StopKeepsValid(a, b, name);
      case Status(name) =>
        if name == "" {
          SweepKeepsValid(a, b);
        } else {
          LookKeepsValid(a, b, name);
        }
      case List => SweepKeepsValid(a, b);
      case Wait => WaitKeepsValid(a, b.env);
    }
  }

  lemma {:induction false} RunKeepsValid(ws: seq<World>, cs: seq<Command>, site: Site, k: nat)
    requires Run(ws, cs, site) && k <= |cs|
    ensures WorldValid(ws[k])
  {
    hide WorldValid, Step;
    if k == 0 {
      FreshWorldValid(site);
    } else {
      RunKeepsValid(ws, cs, site, k - 1);
      assert Step(ws[k - 1], ws[k], cs[k - 1], false);
      StepKeepsValid(ws[k - 1], ws[k], cs[k - 1]);
    }
  }

  /** The row is still there; its start stamp is "now" if the service was started, its stop stamp is
      "now" if it was stopped, and both are otherwise as before; its count may have been reset. */
  ghost predicate StampsAre(before: States, after: States, n: string, started: bool, stopped: bool) {
    n in before ==>
      && n in after
      && after[n].lastStartedAt == (if started then "now" else before[n].lastStartedAt)
      && after[n].lastStoppedAt == (if stopped then "now" else before[n].lastStoppedAt)
      && (after[n].executionCount == before[n].executionCount || after[n].executionCount == 0)
  }

  /** The row is still there, with the time stamps it had set. */
  ghost predicate RowKept(before: States, after: States, name: string) {
    name in before ==>
      && name in after
      && (before[name].lastStartedAt != "" ==> after[name].lastStartedAt != "")
      && (before[name].lastStoppedAt != "" ==> after[name].lastStoppedAt != "")
  }

  lemma LookStamps(before: States, after: States, name: string, first: set<int>, last: set<int>, n: string)
    requires MaybeReconciled(before, after, name, first, last)
    ensures StampsAre(before, after, n, false, false)
  {
  }

  lemma SetRowStamps(states: States, name: string, pid: int, n: string)
    requires name in states
    ensures StampsAre(states, SetRow(states, name, Running(pid)), n, n == name, false)
    ensures StampsAre(states, SetRow(states, name, STOPPED), n, false, n == name)
    ensures StampsAre(states, SetRow(states, name, GIVEN_UP), n, false, false)
  {
  }

  lemma StampsThen(a: States, b: States, c: States, n: string, started: bool, stopped: bool)
    requires StampsAre(a, b, n, false, false) && StampsAre(b, c, n, started, stopped)
    ensures StampsAre(a, c, n, started, stopped)
  {
  }

  /** A stop that sent its signal sets the stop stamp; one that gave up sets none. */
  lemma StopStamps(a: World, b: World, name: string, n: string, prompt: bool)
    requires StopStep(a, b, name, prompt)
    ensures StampsAre(a.states, b.states, n, false, n == name && b.signals != a.signals)
    ensures name in a.services ==>
              name in b.states && b.states[name].status == "stopped" && b.states[name].pid == 0
  {
    hide Resolve, Interferes, TargetOf, SetRow, StampsAre;
    if name in a.services {
      var read: Env :| StopsOrGivesUp(a, read, b, name, prompt);
      SetRowStamps(a.states, name, 0, n);
      StoppedRow(a.states, name);
    } else {
      SameStamps(a.states, n);
    }
  }

  lemma StoppedRow(states: States, name: string)
    requires name in states
    ensures forall st | st in {STOPPED, GIVEN_UP} ::
              && name in SetRow(states, name, st)
              && SetRow(states, name, st)[name].status == "stopped" && SetRow(states, name, st)[name].pid == 0
  {
  }

  lemma SameStamps(states: States, n: string)
    ensures StampsAre(states, states, n, false, false)
  {
  }

  /** A successful start sets the start stamp and leaves the stop stamp. */
  lemma StartStamps(s0: States, e0: Env, s1: States, e1: Env, name: string, line: string, prompt: bool, n: string)
    requires Starts(s0, e0, s1, e1, name, line, prompt)
    ensures StampsAre(s0, s1, n, n == name, false)
    ensures name in s1 && s1[name].status == "running"
  {
    hide Resolve, Interferes, MaybeReconciled, SetRow, StampsAre;
    var s: States, e: Env, d: Spawn, read: Env :|
      Looked(s0, e0, s, e, name) && Launches(s, e, s1, e1, name, line, d, read);
    LookStamps(s0, s, name, e0.alive, e.alive, n);
    SetRowStamps(s, name, PidIn(read, name), n);
    StampsThen(s0, s, s1, n, n == name, false);
    RunningRow(s, name, PidIn(read, name));
  }

  lemma RunningRow(states: States, name: string, pid: int)
    requires name in states
    ensures name in SetRow(states, name, Running(pid)) && SetRow(states, name, Running(pid))[name].status == "running"
  {
  }

  lemma StartStepStamps(a: World, b: World, name: string, n: string) returns (started: bool)
    requires StartStep(a, b, name, false)
    ensures StampsAre(a.states, b.states, n, started, false) && (started ==> n == name)
  {
    hide Resolve, Interferes, LineFor, MaybeReconciled, StampsAre, Launches;
    started := false;
    if Looked(a.states, a.env, b.states, b.env, name) {
      LookStamps(a.states, b.states, name, a.env.alive, b.env.alive, n);
    } else {
      StartStamps(a.states, a.env, b.states, b.env, name, LineFor(a.env.site, a.services[name]), false, n);
      started := n == name;
    }
  }

  lemma RemoveStamps(a: World, b: World, name: string, n: string)
    requires RemoveStep(a, b, name, false) && name != n
    ensures StampsAre(a.states, b.states, n, false, false)
  {
    hide Resolve, LogUsed, Interferes, StopStep, Erases, MaybeReconciled;
    if name in a.services {
      var looked: World, stopped: World, deleted: Env :| Removes(a, looked, stopped, deleted, b, name, false);
      LookStamps(a.states, looked.states, name, a.env.alive, looked.env.alive, n);
      if looked.states[name].status == "running" {
        StopStamps(looked, stopped, name, n, false);
      }
    }
  }

  /** Which command sets which stamp of a row that stays: a start the start stamp, a stop that
      signals the stop stamp, and nothing else any. */
  lemma StepStamps(a: World, b: World, c: Command, n: string) returns (started: bool, stopped: bool)
    requires Step(a, b, c, false) && c != Remove(n)
    requires c.Install? ==> a.states.Keys == a.services.Keys
    ensures StampsAre(a.states, b.states, n, started, stopped)
    ensures started ==> c == Start(n)
    ensures stopped <==> c == Stop(n) && b.signals != a.signals
  {
    hide RemoveStep, StartStep, StopStep, Interferes, MaybeReconciled;
    started, stopped := false, c == Stop(n) && b.signals != a.signals;
    match c {
      case Remove(name) => RemoveStamps(a, b, name, n);
      case Start(name) => started := StartStepStamps(a, b, name, n);
      case Stop(name) => StopStamps(a, b, name, n, false);
      case Status(name) =>
        if name == "" {
          assert n in a.states ==> SweptRow(a.states[n], b.states[n], a.env.alive, b.env.alive);
        } else {
          LookStamps(a.states, b.states, name, a.env.alive, b.env.alive, n);
        }
      case List => assert n in a.states ==> SweptRow(a.states[n], b.states[n], a.env.alive, b.env.alive);
      case _ =>
    }
  }

  /** In every run, a row that is not removed stays, and keeps the time stamps it has. */
  lemma {:induction false} RunKeepsRow(ws: seq<World>, cs: seq<Command>, site: Site, n: string, i: nat, j: nat)
    requires Run(ws, cs, site) && i <= j <= |cs| && Remove(n) !in cs[i..j]
    ensures RowKept(ws[i].states, ws[j].states, n)
    decreases j - i
  {
    hide Step, WorldValid;
    if i < j {
      var k := j - 1;
      assert cs[i..j][k - i] == cs[k] && cs[i..k] == cs[i..j][..k - i];
      RunKeepsRow(ws, cs, site, n, i, k);
      assert Step(ws[k], ws[j], cs[k], false);
      RunKeepsValid(ws, cs, site, k);
      KeysOf(ws[k]);
      var started, stopped := StepStamps(ws[k], ws[j], cs[k], n);
    }
  }

  lemma KeysOf(w: World)
    requires WorldValid(w)
    ensures w.states.Keys == w.services.Keys
  {
  }
}
