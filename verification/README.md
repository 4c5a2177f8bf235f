# Embedded Valkey: lifecycle, configuration and containment

A Dafny model of the parts of `valkey_embedded` that decide whether data survives, whether a server
outlives its clients, and what ends up on disk. The proofs are about whole runs: any number of client
objects, any mix of private and shared databases, any failure at any step.

| file | what it models |
|---|---|
| `Processes` | process table, monotonic clock, signals; the two polling loops shared by clients and servers |
| `HostWorld` | the machine as one value (registries, pidfiles, sockets, conf files, RDB files, processes, daemons with their data and connections, exit hooks) and each step of `client.py` on it |
| `EmbeddedClient` | `ValkeyMixin` as a class: every method proved equal to its step in `HostWorld` |
| `Lifecycle` | runs of clients and the invariant every run keeps |
| `Discipline` | the connection count as an election: its exact rule, and runs with one connection per client |
| `Guarantees` | safety, isolation of directories, transactional startup, stale registries, retryable closes |
| `Refinement` | runs that lose no data answer like persistent maps |
| `Conservation` | no server and no private directory outlives its clients, no database file disappears |
| `Persistence` | what each database file holds after any run, data lost or not |
| `Confluence` | what closing leaves depends only on who closed |
| `Counterexamples` | runs that break what the documentation promises |
| `CloseLock` | the lock and the control flow of `_cleanup` at statement grain, called by any number of threads on one object |
| `CloseThreads` | the same threads with the world their statements act on: every interleaving is a sequence of closes |
| `ConfText`, `EngineConf`, `Configuration`, `Connecting` | rendering and reading back `valkey.conf`; how the engine splits its lines; dicts and lists as heap objects; `connect` and its presets |
| `ServerWorld`, `Server`, `ServerRuns` | `ValkeyServer` on values, as a class, and over whole runs |
| `Paths`, `TarMembers`, `Patch` | lexical paths; the tar member check; the patch and unpatch calls and the class-level database location |

Methods of a class state their whole effect as `W() == Step(old(W()), ...)` (or `Now()`), where the right
side is a specification function on values. What the repository promises is then proved about those
functions, over all inputs and all runs.

## Assumptions

The code relies on these; without them the claims are false.

- Opening and closing are atomic steps between *different* client objects: no lock joins load, start and
  save (`src/valkey_embedded/client.py:181-194`) or count and shutdown
  (`src/valkey_embedded/client.py:340-355`). Closing one object from many threads is modelled statement by
  statement in `CloseLock`.
- One database file name per directory: pidfile and socket are named per directory, the registry per file.
- Pids are not reused, and pidfiles name daemons or nothing that exists. A launched daemon has written its
  pidfile by the time the launcher has exited, or it never comes up. A delivered SIGKILL is effective. A
  `ConnectionError` from CLIENT LIST means that no daemon answers on that socket.
- The engine: a starting server loads the RDB of its directory; SHUTDOWN SAVE writes the dataset there,
  NOSAVE leaves the disk alone; a daemon that yields to SIGTERM saves or not, as it is configured. RDB
  persistence only.
- The engine reads a configuration line as arguments between blanks, a double-quoted one as a whole with
  backslash escapes (`EngineConf`), so the paths it is given contain no newline, double quote or backslash.
- A user's database does not lie inside one of the package's private directories. Paths are their encoded
  bytes, one character each, and strings compare by code point.
- One `ValkeyServer` object per data directory, whose `config` does not override path, port or bind keys.
  `OneObjectPerDirectory` shows what happens otherwise.
- The connections of an attempt whose constructor failed are gone when the attempt is over.
- Removing files works: `rmtree(ignore_errors=True)` and `_safe_remove` swallow failures
  (`src/valkey_embedded/client.py:86-93`, `:422-424`), and nothing would be left to say so.
- One combination of failures is no step of a run: a registry that cannot be written, followed in the same
  attempt by a rollback that raises while the daemon lives. Nothing names that daemon any more, and the next
  open starts a second one in its directory (`LostServerIsDoubled`, and the run `TwoFailuresMakeTwoServers`).
  `FailedOpenLeavesNoTrace` covers the attempt itself.

## What the proofs say about the code

Where a promise fails, the project proves exactly when it holds.

- **The connection count is not a count of clients** (`client.py:336-340`, against
  `docs/agent-guides/lifecycle.md:43-44`). `ElectionRule` gives the exact outcome of every counting close;
  `TwoConnectionsOrphanTheServer` is a run of one client with two connections that leaves the daemon alive
  with no client and no hook. With one connection per client the election is right
  (`LastCloseStops`, `ServerLivesWithItsClients`).
- **A failed close gives up the only connection** (`client.py:371`). The client still runs and can retry
  (`FailedCloseIsRetryable`), but the next close of another client does not see it and takes the server away
  (`FailedCloseLosesTheServer`, and the run `FailedCountTakesTheServerAway`).
- **A relocated socket can strand a client.** A client whose daemon crashed keeps the path of a short
  socket directory; if somebody reopens the database, the new daemon's socket lies elsewhere, the old client
  counts 0 and stops a server it never used. `RelocatedSocketStrandsAClient` is such a run; `ElectionRule`
  and the proviso of `ConnectedClientKeepsServer` give the rule; `SocketsInPlaceAgree` shows that it cannot
  happen when the socket fits under the directory.
- **Startup is transactional except in two places** (against `docs/agent-guides/lifecycle.md:24-26`). If the
  short socket directory cannot be created (`client.py:172-175`), the exception leaves `__init__` before the
  `try`, and an isolated client's private directory stays behind (`SocketDirFailureLeaks`). If a server was
  started and the first call of the except block, which terminates it, raises (`client.py:203-204`), nothing
  after it is undone: daemon, directory and hook stay, and the hook later stops nothing, because `running` is
  False (`StuckOpenLeaves`, `RollbackThatRaisesLeavesAServer`). `FailedOpenLeavesNoTrace` is an if and only if.
- **A corrupt registry can block a database for good** (`client.py:293-299`, against
  `docs/agent-guides/lifecycle.md:50-51`). JSON that is not an object, or whose `pidfile` is not a path,
  raises `TypeError`, and JSON nested too deep raises `RecursionError`; neither is caught. `StaleRegistryRecovery` splits exactly on that.
- **A close reports success even if the final save failed** (`client.py:347-353`). `LastCloseSaves` gives the
  exact condition for the data to be kept, `RefusedShutdownLosesTheWrite` a run. `StopKeepsContents` does
  the same for `ValkeyServer`, where a non-persisting stop can even overwrite the last snapshot when SHUTDOWN
  does not get through and the daemon saves on SIGTERM.
- **`connect("", durable=True)`** passes the check that durability needs a path, and unless patching set a
  class-level location it opens a disposable server (`DurableIsPersistentUnlessPathEmpty`, with the instance
  `EmptyPathIsDurableAndDisposable`).
- **A conflicting configuration is ignored when attaching** (against `docs/agent-guides/lifecycle.md:52`): a
  serverconfig that repeats an instance path raises only if a server has to be started (`DuplicatesAreRefused`).
- **Unpatching keeps the database location.** `unpatch_valkey` restores both classes, but a client opened
  without a path stays shared ever after (`UnpatchRestores`, `OpenWithoutPath`); patching the second name with
  another file moves the first name's database too (`PatchingOneNameMovesTheOther`).
- **`start` after `stop` fails for a temporary, non-persistent server** and nevertheless exposes a port
  (`RestartNeedsAKeptDirectory`). A server object never launched leaves its temporary directory at exit
  unless it is stopped or finalized (`AtExit`).
- **A stop or termination that raises cleans nothing up** (`server.py:184`, `:200-208`): errors other than
  NoSuchProcess and TimeoutExpired skip the cleanup and leave port and hook as they were. The stop can be
  retried (`RaisingStopIsRetryable`); an exit hook that raises is not (`AtExit`, `LeftAtExit`).
- **Paths are quoted but not escaped** (`configuration.py:85-89`, against `docs/agent-guides/development.md:12`).
  The engine gets back exactly the value of a path directive if and only if it contains no double quote and no
  backslash (`PathLineIsReadBack`); a double quote makes it refuse the line (`AQuoteInAPathIsRefused`).
- **Extraction into the root directory** would reject every tar member: the prefix is then `//`
  (`PrefixTestIsContainment`).

## Model

| member | source | states |
|---|---|---|
| Processes.Table.Terminate | src/valkey_embedded/client.py:381-407 | pid 0 and dead pids get no signal; otherwise the process is gone afterwards; a process seen exiting gets none; otherwise signals go out only after the deadline, TERM, then KILL five seconds later if it resists, all to the captured pid; an error that is not caught stops it before any signal or after SIGTERM; exactly the sleeps of the loop |
| Processes.DeliveredIsEscalation | src/valkey_embedded/server.py:211-233 | whatever the ending, the delivered signals are a prefix of [TERM, KILL], all to one pid |
| Processes.NoSignalBeforeTheDeadline | src/valkey_embedded/client.py:393-407 | what every escalation below promises as `Patient` means: no signal and no error while signalling before the deadline or for a process that a poll saw exit, SIGKILL only five seconds later, an error only if something stood in the way |
| Processes.Table.WaitUntilReady | src/valkey_embedded/server.py:151-170 | returns normally iff a poll within the deadline was answered, escapes iff a poll raised something other than ConnectionError, and otherwise the deadline has passed after a sleep of 0.1 s a poll |
| Processes.PollsAreBounded | src/valkey_embedded/client.py:394-398 | never more polls than the timeout divided by the interval, rounded up: 50 for either terminate, 100 for readiness |
| EmbeddedClient.EmbeddedClient.Init | src/valkey_embedded/client.py:117-216 | the constructor, statement by statement, leaves exactly the world and the client fields that the specification of opening prescribes, for every injected failure; a non-empty path argument always wins over the class-level location, which wins over a private directory; without a fault it fails only after the whole start timeout, on a reply that is neither yes nor a refusal, or on a poisoned registry; its rollback signals nobody in the first ten seconds |
| EmbeddedClient.EmbeddedClient.PlaceSocket | src/valkey_embedded/client.py:54-72 | the socket lies under the database directory unless its path has 104 bytes or more (a directory of 90 or more), then in a fresh short directory |
| EmbeddedClient.EmbeddedClient.LoadSettingRegistry | src/valkey_embedded/client.py:285-306 | attach, report absence, or raise, by the contents of the registry and of the pidfile it names, adopting the recorded paths |
| EmbeddedClient.EmbeddedClient.StartServer | src/valkey_embedded/client.py:220-248 | conf file, binary check, launch, in that order, each with its failure |
| EmbeddedClient.EmbeddedClient.WaitUntilReady | src/valkey_embedded/client.py:250-264 | ready iff the socket leads to a daemon and the last of at most 100 polls was answered; not ready only after the whole timeout or on another exception |
| EmbeddedClient.EmbeddedClient.SaveSettingRegistry | src/valkey_embedded/client.py:268-283 | writes the entry others attach by, or leaves a truncated file behind when writing fails |
| EmbeddedClient.EmbeddedClient.UndoInit | src/valkey_embedded/client.py:199-215 | the rollback: terminate only a daemon this attempt started, with the same patience as a close, drop registry, private tree, socket directory and hook; if terminating raises, none of that |
| EmbeddedClient.EmbeddedClient.Cleanup | src/valkey_embedded/client.py:327-371 | count, elect, stop, retire, release, with a raising count and a raising process cleanup: the world, the fields and whether it raised are those of the specification of closing; signals only after ten seconds, and none to a daemon seen exiting |
| EmbeddedClient.EmbeddedClient.ElectAndStop | src/valkey_embedded/client.py:335-356 | the try block alone: which of its ways out it takes, what it leaves, and whether and how a daemon is escalated |
| EmbeddedClient.EmbeddedClient.StopServer | src/valkey_embedded/client.py:344-355 | pid captured before SHUTDOWN; save for shared, no save for isolated; then escalation after ten seconds of waiting and file removal, or, if the escalation raises, no removal |
| EmbeddedClient.EmbeddedClient.Terminate | src/valkey_embedded/client.py:381-407 | at most 50 polls 0.2 s apart; a daemon seen exiting gets no signal; any other SIGTERM after ten seconds and SIGKILL after five more, as far as it takes; only the given pid, and nothing for pid 0 |
| EmbeddedClient.EmbeddedClient.RemoveFiles | src/valkey_embedded/client.py:409-425 | a shared database keeps its RDB and loses registry, pidfile, socket and the starter's conf; a private tree goes as a whole |
| Lifecycle.StartOutcome | src/valkey_embedded/client.py:190-216 | starting either brings up exactly one daemon with its registry, or leaves no daemon, directory or hook of the attempt, or is stuck in a rollback that raised, with exactly what was prepared |
| Lifecycle.LoadOutcome | src/valkey_embedded/client.py:285-306 | under the invariant the registry leads to the directory's live daemon if there is one and to nothing otherwise |
| Lifecycle.AttachOrStartOutcome | src/valkey_embedded/client.py:179-216 | the whole try block: with no daemon, start, or nothing, or stuck; with one, attach, or leave it and its registry as they were |
| Lifecycle.StopIsDown | src/valkey_embedded/client.py:344-355 | shutdown and escalation together take down the directory's own daemon and no other, with the exact data and signals left |
| Lifecycle.OneDaemonPerDir | src/valkey_embedded/client.py:169-175 | two daemons never share a directory |
| Lifecycle.OpenInv | src/valkey_embedded/client.py:142-216 | opening, failing anywhere or not, keeps files, processes, hooks, connections and clients in agreement |
| Lifecycle.CloseInv | src/valkey_embedded/client.py:327-371 | so does closing, first or repeated, raising or not |
| Lifecycle.StepInv | src/valkey_embedded/client.py:117-371 | so does every step, including crashes, killed clients, foreign and lost connections |
| Lifecycle.RunInv | src/valkey_embedded/client.py:117-371 | so does every run |
| Lifecycle.StepStrays | src/valkey_embedded/client.py:199-216 | a step leaves a hook without a running client exactly if its rollback raised, and never removes such a hook |
| Guarantees.EveryRunIsSafe | src/valkey_embedded/client.py:177-216 | after every run: one daemon per directory, registries lead exactly to live daemons, hooks are the running clients and the attempts whose rollback raised, private directories are disjoint, no process without service |
| Guarantees.OpensTheDatabaseAskedFor | src/valkey_embedded/client.py:152-163 | in every reachable state a successful open is connected to the one daemon of the directory asked for, the explicit path before the class-level one before a private one |
| Guarantees.OpenElsewhere | src/valkey_embedded/client.py:142-216 | opening changes no file and no daemon of any other directory, whatever fails |
| Guarantees.CloseElsewhere | src/valkey_embedded/client.py:327-371 | closing, raising or not, changes no file and no daemon of any other directory |
| Guarantees.EveryStepElsewhere | src/valkey_embedded/client.py:142-371 | so for every step there is: registry, pidfile, socket, conf and RDB files and the daemon, with its data and connections, of each directory that the step does not concern are as before |
| Guarantees.ConnectedAtHome | src/valkey_embedded/client.py:371-371 | dropping a client's connections concerns its own directory at most |
| Guarantees.WhatTheLastCloseRemoves | src/valkey_embedded/client.py:409-425 | the last close of a shared database takes registry, pidfile, socket and own socket directory and leaves the RDB, and takes the conf file iff the closer had started the server; an isolated one takes everything |
| Guarantees.FailedStartLeavesItsConf | src/valkey_embedded/client.py:231-237 | wherever the start of a shared server fails, the conf file stays unless creating it was what failed |
| Guarantees.ALiveRegistryIsObeyed | src/valkey_embedded/client.py:293-306 | in any world whatever: a registry that names an existing process is adopted as it stands iff it records all four entries and PING is answered; otherwise the open fails and leaves files and processes alone |
| Guarantees.FailedOpenLeavesNoTrace | src/valkey_embedded/client.py:179-215 | a failed open leaves daemons, data, hooks, directories and other registries as they were and signals only its own daemon, except exactly when the socket directory of an isolated client cannot be made or the rollback of a started server raises |
| Guarantees.StuckOpenLeaves | src/valkey_embedded/client.py:203-204 | what a rollback that raised leaves: the hook, the private directory, the daemon unless SIGTERM ended it; running the hook changes nothing |
| Guarantees.LostServerIsDoubled | src/valkey_embedded/client.py:203-206 | after a registry write and the rollback failed together, the next open starts a second daemon in the directory |
| Guarantees.StaleRegistryRecovery | src/valkey_embedded/client.py:285-306 | whatever the registry of a database without a daemon holds, the next open starts one fresh daemon on the last RDB and signals nobody, exactly unless reading the contents raises TypeError or RecursionError |
| Guarantees.FailedCloseIsRetryable | src/valkey_embedded/client.py:357-371 | a close whose ownership check or process cleanup raises keeps the client running, its hook, its registry and every file; only its connections go, and its own server if SHUTDOWN or SIGTERM had got through, saved as in any stop; the next close that does not raise retires the client |
| Guarantees.FailedCloseLosesTheServer | src/valkey_embedded/client.py:336-371 | after a close that failed to count, the next close of the only other client takes the server away from the first, which still runs |
| Counterexamples.TwoConnectionsOrphanTheServer | src/valkey_embedded/client.py:336-340 | a run that ends with a live daemon, no running client and no hook |
| Counterexamples.FailedCountTakesTheServerAway | src/valkey_embedded/client.py:336-371 | a run in which the server stops although a client that failed to close still runs on it |
| Counterexamples.RelocatedSocketStrandsAClient | src/valkey_embedded/client.py:320-355 | a run in which a client that outlived a crash stops the server another client runs on |
| Counterexamples.SocketDirFailureLeaks | src/valkey_embedded/client.py:160-175 | a run that leaves a private directory, with no client and no hook |
| Counterexamples.RollbackThatRaisesLeavesAServer | src/valkey_embedded/client.py:199-216 | a run that leaves a daemon, a private directory and a useless hook, with no client |
| Counterexamples.TwoFailuresMakeTwoServers | src/valkey_embedded/client.py:193-206 | an attempt that fails twice, and the open after it, end with two daemons in one directory |
| Counterexamples.RefusedShutdownLosesTheWrite | src/valkey_embedded/client.py:347-356 | a run in which a close returns normally and the last write is lost |
| Discipline.CountedAlone | src/valkey_embedded/client.py:320-325 | a connected client counts at most one connection iff that connection is its own and only one |
| Discipline.ElectionRule | src/valkey_embedded/client.py:336-355 | exactly when a counting close leaves the server alive, in every reachable state |
| Discipline.ConnectedClientKeepsServer | src/valkey_embedded/client.py:336-355 | nobody's close stops a server to which another running client is connected, if the closer's socket leads there too |
| Discipline.SocketsInPlaceAgree | src/valkey_embedded/client.py:172-175 | that proviso holds whenever the socket fits under the database directory |
| Discipline.LastCloseStops | src/valkey_embedded/client.py:336-355 | with one connection per client, a close stops the server iff no other running client has it |
| Discipline.RepeatedClose | src/valkey_embedded/client.py:373-379 | closing again changes nothing at all, in every reachable state |
| Discipline.SimpleRunTight | src/valkey_embedded/client.py:117-371 | every run of open, set, get, save and close, in which no open leaks and no close raises, keeps one connection per client, every client served, no daemon and no private directory without a client |
| Discipline.EverySimpleRun | src/valkey_embedded/client.py:180-197 | after every such run a registry leads to a live daemon iff some running client has that database, and every running client's pidfile and socket lead to its own daemon |
| Refinement.RunRefinesMaps | src/valkey_embedded/client.py:180-216 | every run in which no step loses data, with attaching, saving, restarting, crashing, raising and refused closes and commands that meet no server in between, answers exactly as one persistent map per path and one empty map per isolated client |
| Refinement.SimpleRunsRefineMaps | src/valkey_embedded/client.py:180-216 | runs of clients with one connection each lose no data if no close raises or fails to save, and every command is answered |
| Refinement.InitialSimulates | src/valkey_embedded/client.py:153-163 | the maps start as the RDB files found on disk |
| Refinement.StepSimulates | src/valkey_embedded/client.py:327-371 | each step that loses no data is one step of the maps, with the same answer |
| Refinement.StopContents | src/valkey_embedded/client.py:344-355 | what a shared database holds after its server was stopped, whatever the outside did |
| Refinement.LastCloseSaves | src/valkey_embedded/client.py:347-356 | in every reachable state, a close that takes a shared database's server down keeps its contents iff SHUTDOWN got through, or the daemon saved on SIGTERM, or nothing was unsaved |
| Conservation.EveryDecentRun | src/valkey_embedded/client.py:327-371 | in every run, also with crashes, lost connections, raising and refused closes, each daemon and each private directory has a running client, and connections are at most one per client, to its own daemon |
| Conservation.NothingLeft | src/valkey_embedded/client.py:327-371 | when all clients of such a run have closed, no daemon, process, hook or private directory is left |
| Conservation.DatabasesRemain | src/valkey_embedded/client.py:409-425 | no step of any run removes a user's RDB file |
| Conservation.NothingLeftAtExit | src/valkey_embedded/client.py:177-177 | the exit hooks, in any order, leave nothing behind after any such run if none raises, accepted or not, and every database holds what it held in memory if no close loses data |
| Conservation.LeftAtExit | src/valkey_embedded/client.py:357-366 | if closes raise at exit, exactly the clients all of whose closes raised still run, and every hook, daemon and private directory left is theirs |
| Persistence.DiskIsLastSave | src/valkey_embedded/client.py:344-355 | after every run, data lost or not, a user's RDB file holds the dataset served just before the last step that saved it, or the initial one |
| Persistence.DiskStep | src/valkey_embedded/client.py:347-354 | each step leaves a user's RDB file as it is or writes exactly what its server holds, and exactly when it does |
| Persistence.ReopenLoadsTheFile | src/valkey_embedded/client.py:190-192 | an open that starts a server serves what the file holds |
| Confluence.CloseIsConfluent | src/valkey_embedded/client.py:327-371 | in every state without second connections in which the clients of a server agree on its socket, also after crashes, lost connections and failed closes: closing the same clients in any two orders, accepted or refused, leaves the same servers, connections, registries, pidfiles, sockets, directories and hooks, and the same RDB files if every close saves |
| Confluence.ServerSurvives | src/valkey_embedded/client.py:336-355 | which servers survive a sequence of closes: those with a connected client that does not close, and those none of whose clients closes |
| Confluence.SocketsInPlaceAllAgree | src/valkey_embedded/client.py:172-175 | clients agree with their servers whenever their sockets fit under their directories |
| Confluence.CloseView | src/valkey_embedded/client.py:327-371 | what one close removes, given only who is still there; what it saves |
| Confluence.ServerLivesWithItsClients | src/valkey_embedded/client.py:373-379 | with one connection each, over any sequence of closes, a server lives iff one of its clients has not closed |
| CloseLock.EveryInterleaving | src/valkey_embedded/client.py:329-371 | any number of threads: one in the body; shutdowns at most one plus failed attempts; exactly one upstream close per finished call; a failed attempt keeps `running` and the hook; what the body does is `CloseThreads` |
| CloseLock.OthersAreSpared | src/valkey_embedded/client.py:336-344 | over every schedule: told every time that others are connected, no call of a shared client shuts the server down |
| CloseLock.TheLastUserStops | src/valkey_embedded/client.py:336-356 | over every schedule: an isolated client, whatever it is told, and a shared one never told that others are connected, do not retire without a shutdown |
| CloseLock.RetiredForGood | src/valkey_embedded/client.py:330-332 | `running` never comes back and no shutdown follows |
| CloseLock.CallsFinish | src/valkey_embedded/client.py:329-371 | no deadlock: some unfinished call can always step, and each step brings it nearer to its end |
| CloseLock.RetryFinishes | src/valkey_embedded/client.py:357-366 | after any failures, a call that meets no further failure returns normally with client and hook retired |
| CloseLock.NormalReturnRetires | src/valkey_embedded/client.py:356-366 | a call that returns normally has seen the client retired |
| CloseThreads.OneCallIsClose | src/valkey_embedded/client.py:329-371 | the statements of one undisturbed call, run to the end, are the specification of closing: world, fields and exception |
| CloseThreads.EveryInterleavingIsInTurn | src/valkey_embedded/client.py:329-371 | in every interleaving of any number of threads, the world and the client between calls are those of closing one call after the other in lock order, and each call raises iff its turn does |
| CloseThreads.OneCallClosesForAll | src/valkey_embedded/client.py:373-379 | once one of the calls has returned normally, all further ones change nothing and return normally |
| CloseThreads.RunIsLockRun | src/valkey_embedded/client.py:329-371 | each such run is a run of the lock machine, so all of its theorems hold here |
| ConfText.LineRoundTrip | src/valkey_embedded/configuration.py:85-89 | a directive line reads back as its name and value, quoted or not |
| ConfText.SortedIsUnique | src/valkey_embedded/configuration.py:109-109 | a set of names has one sorted enumeration |
| ConfText.LessIsCodePointOrder | src/valkey_embedded/configuration.py:109-109 | the order of names: at the first difference the smaller code point, or the end, decides |
| ConfText.RoundTrip | src/valkey_embedded/configuration.py:108-118 | parsing the rendered text gives back exactly the settings: names, values, order in lists; empty ones skipped |
| ConfText.RenderedInOrder | src/valkey_embedded/configuration.py:109-118 | the rendered lines stand in ascending order of their names |
| ConfText.RenderIsInjective | src/valkey_embedded/configuration.py:108-118 | settings that differ in a non-empty entry render differently |
| EngineConf.PathLineIsReadBack | src/valkey_embedded/configuration.py:64-89 | the engine reads the line of each of the six path directives as one argument equal to the value iff the value contains no double quote and no backslash |
| EngineConf.OtherLinesAreSplit | src/valkey_embedded/configuration.py:85-89 | the line of any other directive is read as one argument a word |
| EngineConf.AQuoteInAPathIsRefused | src/valkey_embedded/configuration.py:87-88 | a path for which the engine refuses the file |
| Configuration.DeepCopy | src/valkey_embedded/configuration.py:76-76 | equal contents, no shared list |
| Configuration.Merge | src/valkey_embedded/configuration.py:70-82 | overrides on defaults, None removes; the result shares no list with the defaults, and nothing that existed is changed |
| Configuration.Config | src/valkey_embedded/configuration.py:92-120 | the text is a function of the defaults and the overrides; neither is changed |
| Configuration.PlaceDir | src/valkey_embedded/configuration.py:100-106 | `dbdir` survives only as `dir`, and an explicit `dir` wins |
| Configuration.ConfigReadsBack | src/valkey_embedded/configuration.py:92-120 | read back, each directive is the override if given, nothing if that is None or empty, else the default; `dir` as above |
| Configuration.RenderIsCanonical | src/valkey_embedded/configuration.py:108-118 | the text does not depend on the order in which settings were given |
| Connecting.PrecedenceEndToEnd | src/valkey_embedded/client.py:223-233 | in the generated file, for the five instance keys that starting passes: explicit configuration, else durability preset, else instance path, else default |
| Connecting.WhatTheFileSays | src/valkey_embedded/client.py:482-486 | literally: the five paths under their directives, no TCP port, daemon, private socket, four snapshot rules, append-only file iff durable, flushed always or every second, and everything the explicit configuration says |
| Connecting.WhatConnectRefuses | src/valkey_embedded/client.py:523-536 | the two refusals, each exactly when |
| Connecting.DuplicatesAreRefused | src/valkey_embedded/client.py:180-233 | when nothing else fails, connecting fails iff the serverconfig repeats an instance key and a server has to be started; the failure leaves no trace, and attaching does not look at the serverconfig |
| Connecting.DurableIsPersistentUnlessPathEmpty | src/valkey_embedded/client.py:523-540 | durable connections are persistent iff the path is not empty or a class-level location is set |
| Server.ValkeyServer.constructor | src/valkey_embedded/server.py:59-104 | nothing exposed, no hook, the directory exists, what was in it stays |
| Server.ValkeyServer.Start | src/valkey_embedded/server.py:108-149 | exactly the specified state for each failure point; normal return iff already running or PING was answered within at most 100 polls; launched but not answered, it raises only after the timeout or on another exception |
| Server.ValkeyServer.Stop | src/valkey_embedded/server.py:172-192 | shutdown, escalation within 50 polls, no signal before the timeout and none to a daemon seen exiting, cleanup, port and hook cleared, as specified; nothing cleaned up if the escalation raises |
| Server.ValkeyServer.Terminate | src/valkey_embedded/server.py:194-209 | SIGKILL and cleanup without saving; the hook stays; nothing cleaned up if the kill or the wait raises |
| Server.ValkeyServer.Cleanup | src/valkey_embedded/server.py:235-244 | an owned, non-persistent directory goes; any other loses only its runtime files |
| ServerRuns.StartOutcome | src/valkey_embedded/server.py:108-149 | exactly when a start returns normally, and exactly when it gets a server running, on which port, with which data |
| ServerRuns.WhatAStartLeaves | src/valkey_embedded/server.py:108-149 | everything a start leaves, however far it gets: port, socket directory, conf file and hook up to the point of failure, data and signals untouched |
| ServerRuns.StopOutcome | src/valkey_embedded/server.py:172-192 | after a stop that did not raise no process, port, hook or runtime file is left; which data is on disk; which signals went where |
| ServerRuns.RaisingStopOutcome | src/valkey_embedded/server.py:176-184 | after one that raised everything is as before but its own daemon, which is down exactly if SHUTDOWN or SIGTERM got through |
| ServerRuns.RaisingStopIsRetryable | src/valkey_embedded/server.py:176-192 | port and hook are still there, and the next stop that does not raise takes everything down |
| ServerRuns.RunInv | src/valkey_embedded/server.py:108-244 | every sequence of operations, crashes and foreign shutdowns keeps the daemon, its files, port and hook in agreement |
| ServerRuns.EveryServerRun | src/valkey_embedded/server.py:108-260 | at most one daemon; a requested port is the only one exposed; flag iff hook; signals only to own daemons; after a stop or terminate that did not raise nothing runs and the directory exists iff kept |
| ServerRuns.SecondStopIsNoOp | src/valkey_embedded/server.py:172-192 | after a stop that did not raise, a second one changes nothing |
| ServerRuns.RunningServerIsStable | src/valkey_embedded/server.py:110-111 | while it runs, further starts change neither pid nor port nor hooks |
| ServerRuns.RestartNeedsAKeptDirectory | src/valkey_embedded/server.py:130-131 | after stop or terminate a faultless start succeeds iff the directory was kept |
| ServerRuns.AtExit | src/valkey_embedded/server.py:147-148 | if the hook does not raise, no daemon outlives the process, and a temporary directory does iff no hook was registered and it was still there; if it raises, exactly what stays |
| ServerRuns.OneObjectPerDirectory | src/valkey_embedded/server.py:258-260 | beside another object's daemon, exactly when a start makes a second one |
| ServerRuns.DiskIsLastSave | src/valkey_embedded/server.py:172-209 | in a kept directory the RDB is the dataset served at the last save of the run, or the initial one |
| ServerRuns.EveryStartLoadsTheLastSave | src/valkey_embedded/server.py:120-131 | every start loads a dataset that was complete earlier: the one at the last save before it |
| ServerRuns.StopKeepsContents | src/valkey_embedded/server.py:176-184 | exactly when a stop preserves the contents, raising or not, and when it preserves the disk |
| ServerRuns.CarefulRunsAreOneMap | src/valkey_embedded/server.py:172-192 | if every stop saves or leaves the server up, and nothing kills the daemon, the server is one persistent map across restarts |
| TarMembers.ValidateMembers | tools/build_valkey.py:102-110 | passes iff every member resolves strictly below the base (none does below the root), else reports the first that escapes |
| TarMembers.PrefixTestIsContainment | tools/build_valkey.py:106-107 | the string prefix test is component-wise strict containment, for every base but the root, where it accepts nothing |
| TarMembers.UpsThenDown | tools/build_valkey.py:106-107 | a run of `..` is accepted iff the way down leads back through the levels it left, and further |
| TarMembers.NoiseIsIgnored | tools/build_valkey.py:106-107 | doubled slashes, slashes at the end and `.` change neither target nor acceptance; `./name` is accepted iff `name` is |
| TarMembers.MembersWithoutUps | tools/build_valkey.py:106-110 | a relative member without `..` is accepted iff it names anything below the base |
| Paths.ResolveRoundTrip | tools/build_valkey.py:104-106 | resolving a normalised path gives it back |
| Paths.TargetIsWalk | tools/build_valkey.py:106-106 | a relative name is resolved from the base, an absolute one from the root |
| Paths.LastPiece | tools/build_valkey.py:106-106 | each further piece: empty and `.` stay, `..` goes one level up but not above the root, any other goes one level down |
| Paths.SameSignificantPieces | tools/build_valkey.py:106-106 | relative names that differ only in empty and `.` pieces have the same target, from any base |
| Paths.DotSlashIsNothing | tools/build_valkey.py:106-106 | `./name` is `name`, for every relative name and every base |
| Paths.WithoutUps | tools/build_valkey.py:106-106 | without `..`, two relative names have the same target iff they differ only in such pieces |
| Paths.DownThenUp | tools/build_valkey.py:106-106 | down into a directory and up again, anywhere in a name, is nothing |
| Patch.Patching.PatchName | src/valkey_embedded/patch.py:37-53 | swaps one name once, remembers what it exported, and moves the database location iff it swaps and a file is given |
| Patch.Patching.UnpatchName | src/valkey_embedded/patch.py:56-61 | gives the name back what was remembered, if anything |
| Patch.Patching.PatchValkey | src/valkey_embedded/patch.py:84-91 | patching both is patching Valkey and then StrictValkey, with the same file |
| Patch.Patching.UnpatchValkey | src/valkey_embedded/patch.py:94-97 | unpatching both is unpatching Valkey and then StrictValkey |
| Patch.Patching.ApplyDbfile | src/valkey_embedded/patch.py:20-34 | the class-level location is that of the absolute path |
| Patch.LocateSplitsThePath | src/valkey_embedded/patch.py:28-30 | directory and file name put together again are the absolute path |
| Patch.RegistryIsPathWithSuffix | src/valkey_embedded/patch.py:28-34 | the registry is the absolute path with .settings behind it |
| Patch.DotSlashIsSameFile | src/valkey_embedded/patch.py:28-28 | `./f` and `f` are one database |
| Patch.SameRegistryIffSamePath | src/valkey_embedded/client.py:153-159 | two database arguments meet at one registry file iff they name the same absolute path |
| Patch.EveryPatchRun | src/valkey_embedded/patch.py:37-97 | after any sequence of the six calls a name is embedded iff the last call about it patches, else exactly what it was; the location is that of the last call that took effect with a file |
| Patch.UnpatchRestores | src/valkey_embedded/patch.py:94-97 | unpatching both restores both names always, and the whole state iff no call of the run moved the location |
| Patch.OpenWithoutPath | src/valkey_embedded/client.py:152-163 | a client opened without a path is private iff its name is patched and no call ever moved the location |
| Patch.AnExplicitPathWins | src/valkey_embedded/client.py:152-163 | after any sequence of calls: under a patched name a non-empty path opens that path's database, otherwise the file of the last call that moved the location |
| Patch.PatchingOneNameMovesTheOther | src/valkey_embedded/patch.py:64-73 | patching one name moves the other's database iff it was not patched yet and the file is another one |

## Left out

- Sockets, processes, psutil, files and the engine themselves: they appear only through the assumptions above, with every outcome left open.
- Races between processes during open and close: the code has no lock there.
- Append-only-file and fsync guarantees: `Connecting` proves only that the right directives are chosen.
- Exceptions outside `Exception`, such as KeyboardInterrupt.
- Setting values that are neither text, a list of text, nor None.
- Finalizers running in the middle of other operations, and `valkey_log`.
- Conf files and relocated socket directories in `Confluence`: only the starter removes them, so they do depend on the order.
- Symbolic links in path resolution.
- Download, checksum, compilation, licences and metadata in `tools/build_valkey.py`; the command line, pytest plugin and diagnostics.
- EmbeddedClient.EmbeddedClient.Init: a caller's own `unix_socket_path` is not modelled, the socket is always the computed one; `_socket_dir` of a client whose constructor raised is not looked at, because no caller gets such a client.
- EmbeddedClient.EmbeddedClient.LoadSettingRegistry: a `pidfile` entry that is a number, which `open` takes as a file descriptor, a null `unixsocket`, and entries that name files of another database are not modelled; the package writes none of them.
- EmbeddedClient.EmbeddedClient.SaveSettingRegistry: the mode 0600 of the file is not modelled, files have no modes here.
- Discipline.SimpleRunTight: excludes closes that raise, because they give up the client's connection; Conservation.EveryDecentRun says what such runs keep.
- Discipline.EverySimpleRun: excludes closes that raise, because it is false for them, by Counterexamples.FailedCountTakesTheServerAway.
- A closed client that sends another command: upstream's pool would reconnect it and raise the count.
- Lifecycle.RunInv: one open that fails twice is no step of a run, because the one-daemon-per-directory part is false after it, by Counterexamples.TwoFailuresMakeTwoServers.
- Server.ValkeyServer.Start: another server answering on the same port can make a start return normally although its own daemon never came up, because readiness is a PING to the port; the contract leaves the answers open, and StartOutcome speaks about the pid instead.
- Discipline.ConnectedClientKeepsServer: needs the closer's socket to lead to the server, because a client stranded by a relocated socket does stop it.
