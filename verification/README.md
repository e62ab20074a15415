# frequent-cron: a verified model

frequent-cron runs shell commands at millisecond intervals and manages named services that do so
in the background. This project models its stateful core in Dafny 4.11 and proves what that core
keeps over whole runs. `dafny verify dfyconfig.toml` checks everything.

Five connected pieces are modelled.

1. **Rotating log** (`FilePaths`, `LogNames`, `LogFiles`, `LogLines`, `LogManager`, `LogHistory`, `LogTail`, `LogRuns`).
   A class with a file system it renames, appends to and reads, by paths resolved as the operating system resolves
   them, so that different service names may denote one log. The reference is one ever-growing list of entries per
   log. The renaming loop is a list step; in every run, for all logs at once, the files hold a suffix of that list,
   cut between entries, and nothing has been dropped before all rotated files are full. File sizes are bounded, and
   the tail reader returns exactly the last lines. `AscendingLosesAllButOne` shows what the loop would do in the
   other direction.
2. **Output capture** (`Process`). The `fgets` loop over a 4096-character buffer reassembles the output
   exactly when it contains no NUL.
3. **Timer loop and children** (`Schedule`, `TickMachine`, `Executor`, `DaemonLog`). A class on top of a model
   of `steady_timer` and `io_context` with pending waits, aborted waits and a queue of ready handlers, shown
   equal to a machine that only knows when the next tick is due. On that machine: the ticks that fire are executed and
   the others skipped, a probability of k/n means k executions in n evenly drawn ticks, the clock is the sum of the
   drawn delays, the lateness and the command runs to the millisecond, ticks and runs keep their distance, and unreaped
   children never outnumber the largest crowd of simultaneously live ones. `LogHoldsOutputs` goes from executed
   commands to the very text of the log files.
4. **Command line and launch line** (`Decimal`, `Rounding`, `Numbers`, `Shell`, `Config`, `OptionWords`,
   `LaunchLine`). Which words are accepted, and what each of them makes of a configuration, in any order; and the text
   `start` hands to the shell, split by the rules of POSIX.1-2017 Shell Command Language, section 2.3 (Token
   Recognition) and sections 2.2 and 2.6.7 (quoting and quote removal), read by the option parser, and compared with
   what was installed. Broken quotes, further commands and comments on that line are part of the model; which words the
   shell makes of an expansion is a parameter. Probabilities are doubles: a typed decimal is rounded to 53 binary
   digits, printing rounds to six decimal ones.
5. **Service lifecycle** (`Machine`, `Database`, `Lifecycle`, `Provenance`, `Removal`, `Exclusiveness`, `Host`,
   `ServiceRegistry`). Each command is a relation between the states of tables, processes, PID files and logs before
   and after it; between any two steps of a command the machine may move on: a daemon dies, creates or completes its
   PID file, or writes to its log (through the log manager of piece 1). Which files a daemon uses is not decided by the
   service it was started for but by the configuration that the shell and the option parser of piece 4 read from its
   launch line, if they read one at all. The methods of the registry class are proved to stay within these relations,
   so a session of method calls is a run, and the theorems about all runs apply to it. PIDs are never reused; apart
   from that nothing is assumed about how fast or how long daemons live.

These properties hold under a condition, which is proved to be the exact one.

- **Whose daemons.** In all runs that install only certain configurations, every PID in a row and every signal is that
  of a daemon of the service meant, exactly when no launch line of one of these services can become a daemon that writes
  the PID file of another (`ProvenanceIff`; `Separate`). Where the launch lines read back (`Launchable`: quotable paths
  and command, plain name), that is the case exactly when no two of the names share a PID file, and always for names
  without a slash (`SeparateByName`). Both things are needed: `./n` and `n` share a PID file, and `stop ./n` signals the
  daemon of `n` (`DotSlashMisleads`); and for any two plain names `install` accepts a command for the one, with a
  double quote in it, that makes `stop` of the other signal the daemon of the one (`CommandMisleads`). Without any
  condition, a daemon that uses the same PID file is all that is certain (`StepKeepsValid`).
- **Isolation.** Writes to one log spare another exactly when the names denote different places (`ServicesIsolatedIff`);
  a removal spares another service exactly when the two share neither PID file nor log (`RemovalSparesIff`).
- **One daemon per service.** Where the launch line can become a daemon at all, a `start` can leave two living daemons
  exactly when some process of the service lives that its row does not guard, because the row is not "running" or
  holds the PID of another process (`StartIsSafeIff`). A living daemon loses its guard when `stop` gives up, which can
  leave it running exactly when it is not the process named by the row or else by the PID file (`GivesUpLeavesIff`), or
  at its own start, exactly when the PID file still names an earlier process or another daemon may yet write it
  (`LaunchGuardsIff`). Over whole runs there is at most one as long as every start finds the living one guarded
  (`GuardedRunsKeepOne`), and at most one that is moreover the PID in the running row for every service whose PID file
  is written by exactly the daemons started for it, and whose own starts and stops were prompt, however slow the others
  (`PromptRunsAreExclusive`); readable launch lines and names without a slash are enough for the first
  (`PlainServicesKeep`). Two runs that leave two: install, start, stop and start with a slow daemon
  (`SlowDaemonsAddUp`), and, without any `stop`, install, start, the daemon dies and leaves its PID file, start, start
  (`StaleFilesAddUp`).
- **Removal.** `remove` is sure to leave no file of the service exactly when, at the moment the rows are deleted, no
  living daemon can still write that PID file or log there; a daemon logs only if it runs synchronously, has a
  service name and a positive probability (`RemoveCleansIff`).
- **"running" in print.** After the correction it means a living process exactly when the row has a PID; a running row
  with PID 0 is never corrected (`RunningMeansAliveIff`).
- **Delays.** The possible delays are all of max(1, f - j) to f + j exactly when f + j fits an int (`PossibleDelays`); none
  leaves that interval exactly when f + j fits an int or f - j is at most 1 (`DelaysWithinIff`).
- **Probability.** A launched daemon makes the stored record's firing decisions exactly when the probability is at least
  1, at most 0, or the double of some decimal with at most six significant digits (`FiringPreservedIff`).
- **Command.** It is not escaped on the launch line. Among commands without dollar signs and backquotes the daemon
  certainly runs the stored one exactly when it has no double quote and no backslash before another backslash, a
  newline or its end, and otherwise certainly does not (`CommandIntactIff`). Every command at all arrives if a backslash
  was put before each double quote, backslash, dollar sign and backquote in it (`EscapedCommandArrives`).

Where the documentation and the code differ, the model follows the code. The wiki says that output of managed services
is captured; with `--synchronous=false` the forked child prints to its own standard output and nothing reaches the log
(`OutputsDelivered`). The wiki lists a state `failed`; no command ever stores it (`WellFormed`, part of `WorldValid`,
which every command keeps). The wiki says logs rotate when they exceed the limit; they rotate on the first write that
finds the limit reached.

## Model

| member | source | states |
|---|---|---|
| LogNames.FileNameInjective | src/log_manager.cc:18-20 | no two logs at different places, and no two slots (live file or rotated number) of one log, share a path |
| LogNames.PathIsFileName | src/log_manager.cc:18-20 | every path the log manager opens for a service, resolved, is a file of the log at the place its name denotes, whatever dots and slashes the name has |
| FilePaths.PlainNamesApart | src/service_registry.cc:167-173 | two service names without a slash have different PID files and different logs |
| FilePaths.DotSlashShares | src/service_registry.cc:167-173 | `./n` and `n` are different names with one PID file and one log |
| FilePaths.DotDotShares | src/service_registry.cc:167-173 | `m/../n` and `n` are different names with one PID file and one log |
| FilePaths.AbsoluteNamesShare | src/service_registry.cc:167-173 | a name that starts with a slash has the same PID file and log in every installation |
| LogNames.FilesOfPlain | src/service_registry.cc:167-173 | for a name without a slash: pids/name.pid, logs/name.log and logs/name.log.i below the data directory |
| LogManagers.LogManager.RotateIfNeeded | src/log_manager.cc:69-88 | for any directory, gaps included: if the live log exists and has reached the limit, every generation moves up by one, only generation max(1, max_files) can be lost and only to the one below it, and no other file changes; otherwise nothing changes |
| LogManagers.LogManager.Write | src/log_manager.cc:22-42 | empty output does nothing; otherwise a rotation if one is due, then, if the log opens, the live log grows by exactly the bracketed stamp, a blank, the whole output, and one newline if the output has none at its end; all other files unchanged |
| LogLines.EntryGivesOutput | src/log_manager.cc:33-41 | entries are unambiguous: with stamps of one length, an entry determines its stamp and, up to one final newline, its output |
| LogManagers.LogManager.ReadLog | src/log_manager.cc:44-67 | the sliding window returns the last max(0, n) lines of the live log |
| LogFiles.ShiftingStep | src/log_manager.cc:78-84 | one turn of the guarded descending rename keeps the loop invariant |
| LogFiles.ShiftingDone | src/log_manager.cc:86-87 | the final rename turns the finished loop into the one-place shift |
| LogFiles.AscendingLosesAllButOne | src/log_manager.cc:78-84 | run upwards, the same loop would leave one of the shifted generations, at the far end, and lose the others |
| LogFiles.WritingDetermined | src/log_manager.cc:22-42 | the description of a write fixes the whole directory afterwards |
| LogFiles.Isolation | src/log_manager.cc:78-87 | writing, rotating or cleaning up one log leaves every generation of every log at another place as it was |
| LogFiles.ServicesIsolatedIff | src/log_manager.cc:18-42 | for every log directory, writes for one service spare all files of another exactly when their names denote different places; names without a slash always do |
| LogFiles.CleanupFromDeletion | src/service_registry.cc:170-176 | deleting the live log and the names numbered 0 to 9 is the clean-up, file by file |
| LogHistory.RotateIsListStep | src/log_manager.cc:77-87 | rotation is the list step ([live] + rotated) cut to its first N blocks; no entry disappears from the whole, and something is dropped only when N blocks were in use |
| LogHistory.WriteRefines | src/log_manager.cc:22-42 | a write on files is the list step on blocks of whole entries |
| LogHistory.RunRefines | src/log_manager.cc:22-88 | in every interleaving of writes, failed opens and removals for all logs, each log's files are its blocks, and dropped, rotated and live entries together are its whole history |
| LogHistory.HistoryShows | src/log_manager.cc:22-42 | the history has one entry for each write since the last removal that had output and opened the log, in order, each with that write's stamp and whole output |
| LogHistory.Retention | src/log_manager.cc:69-88 | oldest to newest, the files are exactly a suffix of the history starting at an entry; if anything was lost the N rotated files hold at least N times max_file_size bytes; no file beyond N exists |
| LogHistory.GapFree | src/log_manager.cc:77-87 | a rotated file exists only if all lower-numbered ones do |
| LogHistory.SizeBound | src/log_manager.cc:74-75 | with entries of at most M bytes, rotated files hold max_file_size to max_file_size + M - 1 bytes, the live log at most that, and the service at most (N + 1) times that |
| LogTail.TailIsLastLines | src/log_manager.cc:44-67 | on newline-terminated text the reader returns the suffix that starts at a line and has min(max(0, n), lines) lines, the whole text when n reaches the line count |
| LogTail.LiveLogTerminated | src/log_manager.cc:38-41 | every live log of every run is newline-terminated |
| LogTail.ReadBackEntry | src/log_manager.cc:22-67 | right after a successful write, reading as many lines as the entry has returns the entry, that is the stamp and the whole output, rotated or not |
| LogRuns.CleanUp | src/service_registry.cc:170-176 | the deletion loop performs the clean-up |
| LogRuns.Replay | src/log_manager.cc:22-88 | calling the log manager's methods for any services in any order from an empty directory gives a run of the above kind, with a suffix of each log's history on disk |
| LogRuns.WriteAndRead | src/log_manager.cc:22-67 | after any such calls, one write followed by one read of its line count returns the stamp and the whole output |
| Process.Fgets | src/process.cc:27-28 | one call takes the characters through the first newline, at most buffer size - 1, and terminates them |
| Process.RunProcess | src/process.cc:13-45 | accumulates the chunks up to their first NUL, in order; exit code and error text for failed launch, exit and kill |
| Process.CaptureIsIdentity | src/process.cc:27-30 | for every buffer size the accumulated text is the whole stream if and only if the stream has no NUL; otherwise it is shorter |
| Schedule.PossibleDelays | src/executor.cc:42-62 | for f >= 1, j > 0 and either distribution, the possible delays are exactly max(1, f - j) to f + j if and only if f + j fits an int |
| Schedule.DelayWithoutJitter | src/executor.cc:44-46 | without jitter the frequency is the only possible delay |
| Schedule.DelaysWithinIff | src/executor.cc:42-62 | for f >= 1, every delay lies between the shortest wait, max(1, f - j), and f + max(0, j) if and only if f + j fits an int or f - j <= 1; otherwise a sum wraps and the wait is 1 ms |
| Schedule.DrawsByName | src/executor.cc:44-58 | only the name "normal" selects the normal distribution, whose draws are cut to the jitter; any other draw within the jitter is added to the frequency |
| Schedule.FiresMore | src/executor.cc:64-75 | a larger probability fires on every draw on which a smaller one does, and on every smaller draw |
| Schedule.FiresInProportion | src/executor.cc:64-75 | for k <= n, probability k/n fires on exactly k of the draws 0/n, 1/n, ..., (n-1)/n |
| Schedule.FiresAtEnds | src/executor.cc:64-75 | on every draw of the generator a probability of at least 1 fires, and one of at most 0 does not |
| Executors.Executor.RegisterCallback | src/executor.cc:77-82 | one wait for the next delay is pending; waits that were pending are queued as aborted |
| Executors.Executor.TimerCallback | src/executor.cc:84-103 | with nothing else outstanding, a successful wait is one tick of the reference machine and leaves one wait; a failed one leaves none; an aborted one re-arms |
| Executors.Executor.ExecuteSync | src/executor.cc:105-114 | the run takes its time, its output goes to the callback if there is one, then one wait is armed |
| Executors.Executor.ExecuteAsync | src/executor.cc:116-151 | the wait is armed first; a successful fork adds a child and is followed by two reaping attempts with exits in between; a failed fork changes no child |
| Executors.Executor.Run | src/executor.cc:29-32 | for every script of ticks, stops and faults: no wait is ever aborted, one wait is pending whenever the loop is idle, and the result is that of the reference machine on the ticks before the first stop or fault |
| TickMachine.ServedTicks | src/executor.cc:77-103 | until a stop or fault, the k-th event of a script is the k-th tick served |
| TickMachine.ExecutionsAreFirings | src/executor.cc:91-102 | in both modes the executions are the ticks whose draw fires, and the skips the others |
| TickMachine.ExecutesInProportion | src/executor.cc:64-102 | with probability k/n exactly k of n ticks with evenly spread draws execute |
| TickMachine.TicksAreCounted | src/executor.cc:91-96 | executions and skips add up to the ticks delivered |
| TickMachine.RateBound | src/executor.cc:77-82 | the k-th tick comes at least k shortest waits after the start; clock = start + waits + command runs + lateness, exactly |
| TickMachine.ClockIsSum | src/executor.cc:77-114 | after any ticks the clock is the start, plus the delays that were drawn, plus the lateness, plus, in synchronous mode, the durations of the commands that were executed; the next tick is due one drawn delay later |
| TickMachine.TicksWithin | src/executor.cc:77-82 | at most floor(T / shortest wait) ticks within T milliseconds |
| TickMachine.RunsDisjoint | src/executor.cc:105-114 | synchronous runs never overlap and start at least one shortest wait after the previous end |
| TickMachine.RunsAtFirings | src/executor.cc:105-114 | the k-th synchronous run starts at the k-th tick that fires and lasts as long as its command |
| TickMachine.ZombiesBounded | src/executor.cc:128-148 | after every tick of every run, live plus unreaped children are at most the peak number of live ones |
| TickMachine.PeakIsLargestCrowd | src/executor.cc:116-148 | that peak is the largest number of children alive right after a fork; a synchronous daemon has none |
| TickMachine.SomeWaitFindsNothing | src/executor.cc:144-148 | as long as both waitpids always reap, each forking tick uses up one unreaped child, so among U + 1 of them one waitpid finds nothing |
| TickMachine.OutputsDelivered | src/executor.cc:105-142 | one captured text per synchronous execution, none at all in asynchronous mode |
| DaemonLog.OutputsAreStreams | src/main.cc:58-63 | a synchronous managed daemon logs exactly the NUL-free outputs of the commands it ran, in order |
| DaemonLog.LogHoldsOutputs | src/main.cc:39-65 | its log files hold, one behind the other, the stamped outputs of those commands, each whole, from one of them to the last; nothing is missing unless the rotated files are full |
| DaemonLog.LogsIff | src/main.cc:39-65 | some ticks make a daemon hand text to its log if and only if it has a service name, is synchronous, and has a positive probability |
| Decimal.ParsePrint | src/service_registry.cc:204 | printing any int and reading it as an option value gives it back, INT_MIN included |
| Numbers.ParsePrint | src/service_registry.cc:219-221 | a printed double, fixed or scientific, reads back as its value rounded to six significant digits, and is stored as the double nearest to that |
| Numbers.TypedDecimal | src/config.cc:77-79 | digits on at least one side of a point, with a power of ten or without, are accepted and read as their digits and exponent |
| Numbers.DecimalMeans | src/config.cc:77-79 | such a decimal denotes the number before the point plus its tenths, hundredths and so on, times the power of ten |
| Numbers.ScientificIff | src/service_registry.cc:219-221 | a positive number is printed in scientific notation if and only if, rounded to six digits, it is below 0.0001 or at least a million |
| Numbers.NoTrailingZero | src/service_registry.cc:219-221 | the digits that are printed do not end in a zero |
| Rounding.RoundedIsNearest | src/service_registry.cc:219-221 | rounding, to a double or for printing, gives a number with that many digits, and no such number is nearer |
| Rounding.SignificandBounds | src/service_registry.cc:219-221 | the rounded significand has the right number of digits, and in the middle between two it is the even one |
| Rounding.RoundedExactIff | src/service_registry.cc:219-221 | rounding changes nothing if and only if the number has that many digits |
| Rounding.FormatsHoldDigits | src/service_registry.cc:219-221 | an odd integer is a double if and only if it is below 2^53 in magnitude; one that does not end in 0 has six digits if and only if it is below a million |
| Rounding.ReadBackIff | src/config.cc:77-79 | a double survives printing and reading if and only if it is the double nearest to some decimal with at most six digits |
| Shell.ScanNextWord | src/service_registry.cc:237-238 | the word being read is what quote removal leaves of the text up to its end, whatever quotes, escapes and operators follow |
| Shell.ScanEscaped | src/service_registry.cc:205 | any text at all, with a backslash before every double quote, backslash, dollar sign and backquote, comes back from between double quotes as it was |
| Shell.OtherQuoting | src/service_registry.cc:237-238 | single quotes keep every other character, a backslash keeps the next one, and a backslash before a newline vanishes with it |
| Shell.CommandEnds | src/service_registry.cc:237-238 | an unquoted semicolon, ampersand, bar, newline or comment sign ends the command with the words read so far |
| Shell.CommandCut | src/service_registry.cc:237-238 | a redirection, a parenthesis or the start of an expansion leaves only words read before it known |
| Shell.UnquotableNeverSurvives | src/service_registry.cc:205 | a text that double quotes do not keep as it is (a double quote in it, or a backslash that escapes), put between double quotes and followed by a blank, never comes back as that text, whatever quotes, escapes and operators it has |
| Configs.ParseCommonOptions | src/config.cc:61-80 | each common option replaces its field, absent ones keep theirs, and only the four accepted words leave synchronous on |
| Configs.ParseRunArgs | src/config.cc:82-134 | error, help, missing option or the configuration of each option or its default |
| Configs.ParseInstallArgs | src/config.cc:136-179 | the same for install, with the name as a word of its own |
| OptionWords.InstallReads | src/config.cc:61-80 | from accepted words in any order: each given option is its field, each absent one its default, for frequency, command, synchronous (four words and the bare flag say true, every other word false), data directory, jitter, distribution and probability; name and subcommand as given, no PID file |
| OptionWords.RunReads | src/config.cc:82-134 | likewise for run, with service name and PID file, which counts as set exactly if it was given |
| OptionWords.InstallAcceptedIff | src/config.cc:136-179 | install accepts exactly the lists of words it understands that give frequency and command, no option twice, and do not ask for help |
| OptionWords.RunAcceptedIff | src/config.cc:82-134 | likewise for run, with two more options |
| OptionWords.NameAcceptedIff | src/config.cc:181-212 | the other commands understand only --help and a data directory |
| OptionWords.NameReads | src/config.cc:181-212 | and read only the data directory |
| OptionWords.Dispatches | src/config.cc:213-341 | the first word chooses the command, the second one the service; a leading dash means run |
| LaunchLine.CommandText | src/service_registry.cc:200-221 | the text built step by step is the program, "run" and the options, some elided |
| LaunchLine.ShellWords | src/service_registry.cc:237-238 | the shell splits it into the program, "run" and one word per option |
| LaunchLine.StoreFields | src/config.cc:90-91 | the option parser stores every option of such a line under its name |
| LaunchLine.LaunchRoundTrip | src/service_registry.cc:200-238 | shell, dispatcher and parser recover the stored configuration from the launch text, and nothing but it |
| LaunchLine.KnownWordsRun | src/service_registry.cc:237-238 | whatever the shell runs begins with the words known of the first command, and is just these unless an expansion or the like cuts them short; the environment decides only about lines that are not one complete command |
| LaunchLine.CommandBreaksOut | src/service_registry.cc:200-238 | whatever service is launched with it, the command made of another service's command, a double quote, that service's other options and a comment sign makes the launch line start the daemon of that other service, if the rest of the line has no newline |
| LaunchLine.InstalledConfig | src/config.cc:136-179 | every configuration `install` accepts has a non-empty command and distribution and integers that fit an int |
| LaunchLine.InstallAccepts | src/config.cc:136-179 | `install` with a frequency that fits an int and any non-empty command at all is accepted, and stores just that command |
| LaunchLine.InstallThenLaunch | src/service_registry.cc:101-238 | from the words of an install command, through both parsers and the shell, to the daemon of a start command: the words arrive in the stored configuration as InstallReads says, and from there frequency, command, synchronous flag and jitter arrive, the probability as it reads back, service name, data directory, PID file and log as those of the service |
| LaunchLine.TimingMeans | src/main.cc:56-57 | a configuration without jitter makes its daemon wait just the frequency, one with jitter anything within it, and one with probability k/n execute on k of n evenly spread draws |
| LaunchLine.DelaysPreserved | src/service_registry.cc:214-217 | eliding a jitter that is not positive, with its distribution, keeps the set of possible delays |
| LaunchLine.FiringPreservedIff | src/service_registry.cc:219-221 | the daemon fires on the same draws as the record would if and only if the stored double is >= 1, <= 0 or the double of some decimal with at most six digits |
| LaunchLine.CommandIntactIff | src/service_registry.cc:205 | among non-empty commands without dollar sign and backquote, the daemon certainly runs the stored command if and only if it has no double quote and no backslash that would escape what follows, and otherwise certainly does not |
| LaunchLine.EscapedCommandArrives | src/service_registry.cc:200-238 | any non-empty command, installed with its special characters escaped, is what the daemon runs, with everything else as installed |
| Databases.Database.InsertService | src/database.cc:78-110 | fails on a taken name and changes nothing; otherwise adds the record and an initial state |
| Databases.Database.RemoveService | src/database.cc:112-125 | deletes the row and, by the cascade, its state |
| Databases.Database.ListServices | src/database.cc:158-185 | every row exactly once, in ascending byte order of names |
| Databases.BeforeIff | src/database.cc:160 | names are ordered by the first place where they differ: there the smaller one has ended or has the smaller character |
| Databases.Database.UpdateState | src/database.cc:209-247 | replaces one row; a time stamp that is not given stays as it was |
| Machines.InterferesTransitive | src/main.cc:28-37 | what the machine may do between steps composes, PID files and logs being kept by resolved path |
| Machines.InterferenceKeepsValid | src/pid_file.cc:11-25 | whatever the machine does, a non-empty PID file names a daemon whose configuration, as read from its launch line, has this very path, also when several services share it |
| Hosts.Host.Interfere | src/main.cc:28-65 | any number of deaths, PID-file writes and log writes stays within that description; a daemon logs only if it is synchronous, named and ever fires, and to the log of the configuration it runs with |
| Hosts.Host.Launch | src/service_registry.cc:237-238 | running a launch line does nothing (quotes open, no shell), starts nothing that stays (other words, a command line the program rejects, an early exit), or starts one daemon with a new PID and the configuration the program reads from the words of the first command |
| Lifecycles.ReconcileOnce | src/service_registry.cc:86-96 | after a correction every running row with a PID is alive, only status and PID of dead rows changed, and a second one changes nothing |
| Lifecycles.RunningMeansAliveIff | src/service_registry.cc:86-97 | a corrected row that says running has a living process if and only if it has a PID, and a running row is beyond all correction if and only if it has none |
| Lifecycles.StepKeepsValid | src/service_registry.cc:101-433 | every command keeps equal key sets, status words, no PID in a stopped row, that rows and signals belong to daemons that write the service's PID file, and that each daemon runs with a configuration its service's launch line reads back as |
| Lifecycles.RunKeepsRow | src/database.cc:209-247 | in every run a row that is not removed stays and keeps the time stamps it has |
| Lifecycles.StepStamps | src/service_registry.cc:82-340 | in every command a successful start sets the start stamp of its row, a stop that signalled sets the stop stamp, and nothing else changes a stamp |
| Provenance.ProvenanceIff | src/service_registry.cc:167-315 | in all runs that install only these configurations every row PID and every signal is that of a daemon of the service meant, if and only if no launch line of one of these services can become a daemon that writes the PID file of another |
| Provenance.SharedFileMisleads | src/service_registry.cc:281-315 | for any two services of which the one's launch line can make a daemon with the other's PID file: install both, start the one, stop the other, and the signal goes to the wrong service |
| Provenance.SeparateByName | src/service_registry.cc:167-221 | if the launch lines of all these services read back, none can write another's PID file if and only if no two names share one; names without a slash never do |
| Provenance.DotSlashMisleads | src/service_registry.cc:281-315 | in particular `stop ./n` signals the daemon of n |
| Provenance.CommandMisleads | src/service_registry.cc:200-315 | for any two names (the first without a newline, the second plain) there is a command that `install` accepts for the first, with which install both, start the first, stop the second signals the daemon of the first |
| Provenance.DaemonUsesOwnFiles | src/main.cc:33-63 | every daemon runs with a configuration that the launch line of a record of its service reads back as; where that record is launchable, the daemon writes exactly this service's PID file and, if it logs, exactly its log |
| Removal.RemoveCleansIff | src/service_registry.cc:166-176 | from the deletion of the rows on, `remove` is sure to leave no PID file, live log or rotated log if and only if no living daemon has still to write that PID file and no living synchronous one writes that log |
| Removal.RemoveCleans | src/service_registry.cc:142-180 | the same for a whole removal that begins with no such daemon |
| Removal.RemovalSparesIff | src/service_registry.cc:166-176 | removals of one service spare the PID file and logs of another, but for what daemons do, if and only if the two share neither |
| Removal.RemoveElsewhere | src/service_registry.cc:142-180 | a removal starts nothing and touches no other PID file and no other log name |
| Removal.RemoveRows | src/service_registry.cc:142-164 | exactly the service's two rows go, a stop on the way included |
| Removal.StopElsewhere | src/service_registry.cc:273-340 | a stop starts nothing and touches no log and no other PID file |
| Exclusiveness.StartIsSafeIff | src/service_registry.cc:191-266 | for all tables and machines: if the launch line can become a daemon, every successful start leaves at most one living daemon of the service if and only if each living one is guarded: the row is running, with this PID or none; if it cannot, if and only if at most one living one is unguarded |
| Exclusiveness.GivesUpLeavesIff | src/service_registry.cc:281-306 | `stop` may give up and leave a given daemon living and unguarded if and only if it is not the PID in the row, or, without one, in the PID file |
| Exclusiveness.LaunchGuardsIff | src/service_registry.cc:245-266 | every launch leaves its living daemon guarded if and only if the line becomes no daemon, or the PID file names no earlier process and no other living daemon may still write it |
| Exclusiveness.GuardedRunsKeepOne | src/service_registry.cc:183-270 | in every run in which each start of the service finds its living daemon guarded there is never more than one |
| Exclusiveness.PromptRunsAreExclusive | src/service_registry.cc:183-340 | in every run in which the starts and stops of this one service were prompt, and exactly the daemons started for it write its PID file, each of its living daemons has written its PID file and is the PID of its running row, so there is at most one |
| Exclusiveness.PlainServicesKeep | src/service_registry.cc:167-221 | services with launch lines that read back and names without a slash keep their PID file and log to their own daemons |
| Exclusiveness.PromptRemovalCleans | src/service_registry.cc:142-180 | a prompt removal in such a state leaves no daemon, PID file or log of the service, if no other service's daemon uses its files |
| Exclusiveness.SlowDaemonsAddUp | src/service_registry.cc:245-332 | for every service whose launch line can become a daemon, the run install, start, stop, start with a daemon slow to write its PID file leaves two living daemons; the first start was guarded, the second was not |
| Exclusiveness.StaleFilesAddUp | src/service_registry.cc:245-266 | for every service whose daemon uses its PID file, the run install, prompt start, death, start, start leaves two living daemons, because the second start reads the PID the first daemon left |
| ServiceRegistries.ServiceRegistry.GetActualStatus | src/service_registry.cc:82-98 | reports the stored status after correcting at most this row, as a look at the processes during the call demands |
| ServiceRegistries.ServiceRegistry.CmdInstall | src/service_registry.cc:101-139 | fails on a taken name and changes nothing; otherwise stores exactly the configuration, field by field, and a stopped row without PID and stamps |
| ServiceRegistries.ServiceRegistry.CmdStart | src/service_registry.cc:183-270 | fails on unknown or running services, or when the shell cannot be run or rejects the line, and then at most corrects the row; otherwise starts at most one daemon, with a configuration the service's launch line reads back as, and marks only this row running, with what the PID file at the resolved path said at a moment after the launch, the start stamp "now" and the stop stamp as before |
| ServiceRegistries.ServiceRegistry.AwaitPidFile | src/service_registry.cc:245-260 | returns what the PID file at the resolved path says at one moment of the wait, whoever wrote it, 0 if it is missing or empty |
| ServiceRegistries.ServiceRegistry.CmdStop | src/service_registry.cc:273-340 | finds its target in the row, else in the PID file at the resolved path; if that lives, exactly one signal goes to it, the row is marked stopped with the stop stamp "now" and the start stamp as before, and that PID file is removed; if not, the row is marked stopped, no stamp changes and nothing is signalled |
| ServiceRegistries.ServiceRegistry.CmdRemove | src/service_registry.cc:142-180 | a look, a stop if the row then says running, the deletion of the two rows, and the twelve file deletions in order, with the machine moving in between |
| ServiceRegistries.ServiceRegistry.Sweep | src/service_registry.cc:360-371 | every row is looked at once and no stamp changes; there is one line for every service, by ascending name, with its name, command, frequency and stored status and PID; with processes unchanged the table is the corrected one, and a line that says running has a living process if and only if it has a PID |
| ServiceRegistries.ServiceRegistry.CmdStatus | src/service_registry.cc:343-408 | one service or all of them, corrected and printed column by column as stored, running lines with a PID being true of the beginning of the command; no stamp changes |
| ServiceRegistries.ServiceRegistry.CmdList | src/service_registry.cc:411-433 | all services by ascending name, corrected and printed column by column as stored, running lines likewise; no stamp changes |
| ServiceRegistries.ServiceRegistry.Session | src/main.cc:78-137 | any sequence of commands on a new installation, with the machine moving between and inside them, is a run; so rows and signals are the service's own if no launch line of one service can become a daemon that writes another's PID file, every service that keeps its PID file to itself and that the run was prompt for has at most one living daemon, which is the PID of its running row, and every service whose starts were guarded has at most one |

## Left out

- Configs.ParseRunArgs: option values in a word of their own (`--name value`), abbreviated names, short options, the `--` separator, and the spellings `inf`, `nan` and an upper-case exponent mark are rejected here, although Boost accepts some of them; the launch line uses none of them.
- LaunchLine.LaunchRoundTrip: commands and paths with dollar signs or backquotes, because what they expand to depends on the environment, and unquoted parts that are not plain words.
- LaunchLine.CommandIntactIff: leaves out commands with dollar signs or backquotes for the same reason; speaks of the first command on the line, which is the one `start` means to run; pathname expansion is taken to find no matching file.
- Rounding.RoundedIsNearest: a double's exponent is unlimited here, so probabilities below 2^-1022 or overflowing ones, negative zero, infinities and NaN are not modelled.
- FilePaths.PlainNamesApart: the data directory is an absolute path, the directories that a service name goes through exist, and none of them is a symbolic link.
- LogHistory.Retention: a removal inside a run needs at most nine rotated files, as with the fixed default of five; numbers above 9 are never deleted by `remove`.
- LogManagers.LogManager.ReadLog: more lines than an int can count.
- TickMachine.TicksAreCounted: the counters are ints in the program and would overflow after 2^31 ticks.
- TickMachine.ZombiesBounded: stopped and continued children, which the waitpid flags would also report.
- ServiceRegistries.ServiceRegistry.Session: two commands running at the same time, PIDs that are reused, and processes of other users.
- Hosts.Host.FirstCommand: which words the shell makes of a line with a dollar sign, a backquote, a redirection, a parenthesis or an unquoted tilde, and whether what follows the first command has a syntax error, is a parameter (`Site.expands`, a relation); the theorems about runs hold whatever it allows.
- Hosts.Host.Launch: only the first command of a line is followed, and it becomes a daemon only if its first word is the program's own path; what further commands on a broken line do is not modelled.
- Hosts.Host.WritePid: completing a PID file sets its content, whoever else writes it; a file that was unlinked after a daemon opened it would really stay missing, and two overlapping writers could leave a mixture of digits.
- Hosts.Host.LogOutput: a write to a log, rotation included, is one step, also when two daemons share the log; and what a daemon's command prints is unknown, so a synchronous daemon always may write.
- ServiceRegistries.ServiceRegistry.CmdStatus: the layout of the printed tables, and the details printed for a single service beyond its row.
- Host and process behaviour is nondeterministic: I/O errors other than a log that does not open, a popen that fails, a fork that fails and a shell that cannot run.
- Wall-clock time stamps: the entry header is any text, row time stamps are the strings the program stores.
- `update_service` and `cmd_logs`: one assignment and one copy, with no state or branch that another command depends on; SQL text, schema migration and SQLite errors are outside the modelled tables.
- `platform_service.cc`, `daemonize.cc`, `data_dir.cc`, binary path lookup and all Windows branches: system calls and generated text.
