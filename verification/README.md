# LibAFL launcher: process topology, modelled in Dafny

LibAFL's `Launcher` starts a parallel fuzzing campaign on a set of CPU
cores. It validates its configuration and creates the output files. It then walks
the ids below the machine's core count and starts one client process per
requested id: by `fork` where the platform allows, otherwise by
re-executing its own binary with the id in the `AFL_LAUNCHER_CLIENT`
environment variable.
Finally it either runs the broker until its exit quota is met and then
terminates the clients, or waits for every client to exit.
`CentralizedLauncher::launch_generic` first forks a centralized broker,
then forks clients the same way. The first of those clients is the main
client and the rest are secondary.

The model has three layers:

- `Host` (host.dfy) is the machine, seen as an oracle. It hands out
  process handles until a process quota runs out, then refuses `fork` and
  spawn. It decides whether the broker's launch fails and which handles'
  `kill`/`wait` fail. It records every effect of the launching process in
  a trace of events. Those effects are file creation, `dup2` on its own
  stdio, sleeps, forks (with what the child will do), spawns (with the
  marker and stdio), the broker run, signals and waits. Views such as
  `Handles`, `Children`, `Markers`, `Sleeps`, `SignalledPids`,
  `WaitedPids` and `BrokerQuotas` read one aspect of a trace.
- `Plan` (plan.dfy) gives the reference definitions. `ForkPlan`,
  `ReexecPlan` and `CentralizedPlan` map the configuration and the host's
  initial state to the outcome, the events and the number of processes
  created. `Topology` (topology.dfy) holds the decisions inside the loops:
  core selection, stagger delays, output redirection, and the role and
  callback of each forked child. `ClientMarker` (marker.dfy) is the
  decimal core id passed to re-executed children and parsed back as a
  `usize`.
- `Launchers` (launcher.dfy) holds the launchers as objects. `Launcher`
  and `CentralizedLauncher` are classes with the source's fields. Their
  launch methods run the loops against a `Host`, and each is proved to
  produce exactly its plan's outcome and trace.
  `LaunchProperties` (properties.dfy) proves what the plans guarantee.

A forked child is not run. Its fork event carries a `Continuation`: the
core it is bound to, its spawn index, its stagger, the `dup2` calls it
makes, its role and the callback it takes. `ChildOutcome` says how the
child's own call of the launch operation ends.

Details of launcher.rs that the model keeps:

- The re-exec path never checks that a client callback is present. A
  client whose callback is missing panics at `unwrap`.
- The re-exec parent refuses an empty core list only after it has created
  its output files and redirected its own stdio. No process has been
  created by then.
- On the re-exec path the parent sleeps `id * launch_delay` ms before
  spawning on core `id`. The stagger is by core id, not spawn order, and
  the sleeps add up in the parent. Forked children sleep
  `index * launch_delay`, counting spawns from 1.
- The broker's exit quota is the length of the requested core list. That
  list may repeat cores or name cores the machine lacks, and then fewer
  clients are started (`SpawnedWithinQuota`).
- On the re-exec path, the first `kill` or `wait` that fails ends the
  shutdown loop and its error is returned; later children are not
  signalled. On the fork paths the results of `kill` and `waitpid` are
  ignored.
- `CentralizedLauncher` does not check for a main callback. The main
  client panics at `unwrap` when there is none.
- The forking launchers create their output files even under the debug
  override. The re-exec parent does not.
- The requested ids are compared with the loop index, not with the
  machine's core ids. A forked client is bound to the machine's core at
  that index (`core_ids[id]`), and its callback receives that core. A
  re-executed client is bound to `CoreId(id)`, the index itself. The two
  differ when the machine's core list is not 0, 1, 2, and so on, for
  example under a restricted CPU affinity.

## Model

| member | source | states |
|---|---|---|
| `Topology.SelectedFacts` | libafl/src/events/launcher.rs:234-235 | a client is started on an id exactly when the id is below the machine's core count and is in the requested list; each such id once, in strictly increasing order |
| `Topology.SpawnedWithinQuota` | libafl/src/events/launcher.rs:299 | no more clients start than the broker's quota (the requested length); exactly that many start if and only if the request names distinct cores that all exist |
| `Topology.StaggerIsProduct` | libafl/src/events/launcher.rs:254 | the stagger is the spawn index times the launch delay |
| `Topology.Redirects` | libafl/src/events/launcher.rs:256-266 | no `dup2` under the debug override or without a stdout file; otherwise stdout goes to the stdout file and stderr to the stderr file, falling back to the stdout file; each stream is redirected at most once |
| `Topology.ChildStdio` | libafl/src/events/launcher.rs:394-413 | a spawned copy keeps the default stdio exactly under the debug override, and is given null stdio exactly when no output file is configured |
| `Topology.WorkerOutput` | libafl/src/events/launcher.rs:370-414 | forked and re-executed workers write to the same place, except when no stdout file is set: forked workers then write to the terminal, and re-executed workers are silenced unless a stderr file is set |
| `ClientMarker.Encode` | libafl/src/events/launcher.rs:406 | the marker is a non-empty string of decimal digits |
| `ClientMarker.Parse` | libafl/src/events/launcher.rs:343 | a parsed marker fits in a `usize`; every parse failure is the malformed-marker error |
| `ClientMarker.MarkerRoundTrip` | libafl/src/events/launcher.rs:406 | parsing the marker written for a core gives back that core |
| `ClientMarker.MarkerInjective` | libafl/src/events/launcher.rs:406 | different cores get different markers |
| `ClientMarker.MalformedMarkers` | libafl/src/events/launcher.rs:343 | an empty marker, or one not ending in a digit, is refused |
| `Plan.FirstFailing` | libafl/src/events/launcher.rs:450-460 | the position where a stop-at-first-error loop stops: every earlier handle succeeds and the handle there fails |
| `LaunchProperties.ForkPlanValidation` | libafl/src/events/launcher.rs:204-214 | an empty core list, then a missing callback, is refused with no file and no process created |
| `LaunchProperties.ForkPlanFilesFirst` | libafl/src/events/launcher.rs:222-227 | once validated, the launch begins by creating the output files, stdout first |
| `LaunchProperties.ForkPlanChildren` | libafl/src/events/launcher.rs:232-286 | while forks are granted, one child per selected id in increasing order: the k-th gets the next handle, is bound to the machine's core at that id, and gets spawn index k+1, stagger (k+1)·delay, the redirection rule and the callback |
| `LaunchProperties.ForkPlanClientsRun` | libafl/src/events/launcher.rs:269-282 | every forked child becomes the client of the machine's core at the id it was forked for (`bind_to`), running the callback |
| `LaunchProperties.ForkPlanOutOfProcesses` | libafl/src/events/launcher.rs:240 | a refused fork ends the launch with the error; no broker, no signal, no wait |
| `LaunchProperties.ForkPlanAllForked` | libafl/src/events/launcher.rs:240-243 | with every fork granted, the recorded handles are consecutive, one per selected core |
| `LaunchProperties.ForkPlanShutdown` | libafl/src/events/launcher.rs:288-328 | the handles are distinct; the quota is the requested length; after the broker returns every handle gets SIGINT once, in order; a failing broker is returned and nothing is signalled; without a broker every handle is waited for |
| `LaunchProperties.ForkPlanBrokerThenSignals` | libafl/src/events/launcher.rs:288-316 | the whole trace is files, forks, the broker, then one SIGINT per handle |
| `LaunchProperties.ForkPlanSignalsAfterBroker` | libafl/src/events/launcher.rs:307-316 | the SIGINTs are the last events and come right after the broker returns |
| `LaunchProperties.CentralizedPlanValidation` | libafl/src/events/launcher.rs:626-655 | an empty core list, then a missing secondary callback, is refused before anything is created; a refused broker fork leaves only the files |
| `LaunchProperties.CentralizedPlanBrokerFirst` | libafl/src/events/launcher.rs:644-687 | the files come first, then the centralized broker's fork, then a 10 ms pause |
| `LaunchProperties.CentralizedPlanHandles` | libafl/src/events/launcher.rs:655-698 | the centralized broker holds the first handle; the clients' handles follow, one per selected core while forks are granted |
| `LaunchProperties.CentralizedPlanChildren` | libafl/src/events/launcher.rs:689-717 | the centralized broker is the first child; the k-th client is forked for the k-th selected id, bound to the machine's core there, with spawn index k+1 and the matching stagger and redirection |
| `LaunchProperties.CentralizedPlanRoles` | libafl/src/events/launcher.rs:719-763 | exactly the client with spawn index 1 is the main one and runs the main callback on its bound core (panicking without one); the others run the secondary callback; the broker process ends with the shutting-down error |
| `LaunchProperties.CentralizedPlanShutdown` | libafl/src/events/launcher.rs:770-807 | shutdown covers the centralized broker too: the handles are distinct and start with its; SIGINT to it and every client, in order, once the broker returns; none when the broker fails; or a wait for all of them |
| `LaunchProperties.CentralizedPlanBrokerThenSignals` | libafl/src/events/launcher.rs:770-795 | the whole trace is files, the centralized broker's fork and pause, the client forks, the broker, then one SIGINT per handle |
| `LaunchProperties.CentralizedPlanSignalsAfterBroker` | libafl/src/events/launcher.rs:788-795 | the SIGINTs are the last events and come right after the broker returns |
| `LaunchProperties.ReexecClientRole` | libafl/src/events/launcher.rs:339-358 | a process with the marker creates nothing: a parsed marker hands over to the callback on that core (panics without one), a malformed one is an error, a non-unicode one a panic |
| `LaunchProperties.ReexecParentIgnoresCallback` | libafl/src/events/launcher.rs:359-420 | the launching process behaves the same with or without a client callback |
| `LaunchProperties.ReexecEmptyCores` | libafl/src/events/launcher.rs:424-430 | an empty core list is refused only after the parent's own output set-up; no process is created |
| `LaunchProperties.ReexecPlanSpawns` | libafl/src/events/launcher.rs:390-416 | while spawns are granted, one copy per selected core in increasing order, each marked with its core id; nothing is forked |
| `LaunchProperties.ReexecPlanSleeps` | libafl/src/events/launcher.rs:403-404 | before spawning on core `id` the parent sleeps `id`·delay; a refused spawn ends the launch right after its sleep |
| `LaunchProperties.ReexecMarkerRoundTrip` | libafl/src/events/launcher.rs:406-407 | each spawned copy, whatever its own configuration, becomes the client of exactly the core it was spawned for |
| `LaunchProperties.ReexecPlanShutdown` | libafl/src/events/launcher.rs:432-461 | the handles are distinct; the quota is the requested length; children are killed (or waited for) in order up to and including the first failure, whose error is returned; a failing broker is returned before any kill |
| `LaunchProperties.ReexecPlanBrokerThenKills` | libafl/src/events/launcher.rs:432-452 | the whole trace is the parent's own output set-up, the pauses and spawns, the broker, then SIGKILL to the children in order up to the first failing kill |
| `LaunchProperties.ReexecPlanKillsAfterBroker` | libafl/src/events/launcher.rs:447-452 | the SIGKILLs are the last events and come right after the broker returns |
| `LaunchProperties.ReachedStopsAtFirstFailure` | libafl/src/events/launcher.rs:450-460 | a stop-at-first-error loop reaches a prefix of the handles: all of them when none fails, otherwise exactly up to the first failing one |
| `Launchers.ForkClients` | libafl/src/events/launcher.rs:232-286 | the fork loop forks exactly the planned children with consecutive handles, and reports failure exactly when the system refuses a fork |
| `Launchers.SpawnClients` | libafl/src/events/launcher.rs:390-417 | the spawn loop sleeps and spawns exactly as planned, and reports failure exactly when the system refuses a spawn, after that core's sleep |
| `Launchers.SpawnAfterPause` | libafl/src/events/launcher.rs:403-414 | one spawn step: sleep `id`·delay, then spawn the copy marked `id` |
| `Launchers.SignalEach` | libafl/src/events/launcher.rs:309-316 | every handle gets the signal once, in order, whatever `kill` reports |
| `Launchers.WaitEach` | libafl/src/events/launcher.rs:317-327 | every handle is waited for once, in order, whatever `waitpid` reports |
| `Launchers.KillUntilError` | libafl/src/events/launcher.rs:449-452 | SIGKILL goes to the handles in order up to the first failing one; success exactly when none fails |
| `Launchers.WaitUntilError` | libafl/src/events/launcher.rs:453-460 | waits go to the handles in order up to the first failing one; success exactly when none fails |
| `Launchers.FinishForked` | libafl/src/events/launcher.rs:288-328 | the forking launchers' ending matches its plan |
| `Launchers.ForkClientsThenFinish` | libafl/src/events/launcher.rs:232-328 | the fork loop followed by the ending matches the plan |
| `Launchers.FinishReexec` | libafl/src/events/launcher.rs:432-461 | the re-exec ending matches its plan |
| `Launchers.CreateOutputFiles` | libafl/src/events/launcher.rs:222-227 | a file is created for each configured path, stdout first, and the handles kept |
| `Launchers.RedirectOwnOutput` | libafl/src/events/launcher.rs:380-387 | the launching process's own `dup2` calls follow the redirection rule |
| `Launchers.SetUpOwnOutput` | libafl/src/events/launcher.rs:369-389 | the re-exec parent creates its files and redirects its stdio, unless the debug override is set |
| `Launchers.SpawnClientsThenFinish` | libafl/src/events/launcher.rs:390-461 | spawn loop, late empty-list check and ending match the plan |
| `Launchers.ForkCentralized` | libafl/src/events/launcher.rs:653-807 | broker fork, pause, client loop and ending match the plan |
| `Launchers.Launcher.LaunchForking` | libafl/src/events/launcher.rs:203-331 | the forking launch has exactly the plan's outcome, trace and process count, and keeps the opened files |
| `Launchers.Launcher.LaunchReexec` | libafl/src/events/launcher.rs:336-464 | the re-exec launch has exactly the plan's outcome, trace and process count; a client process consumes its callback |
| `Launchers.Launcher.LaunchParent` | libafl/src/events/launcher.rs:359-464 | the launching process's side matches its plan |
| `Launchers.CentralizedLauncher.LaunchGeneric` | libafl/src/events/launcher.rs:615-810 | the centralized launch has exactly the plan's outcome, trace and process count, and keeps the opened files once validated |

## Left out

- The shared-memory provider's `pre_fork`/`post_fork` hooks and their errors: a fork is atomic in the model and always as the system grants it.
- `dup2` errors in children and in the re-exec parent, `File::create` panics, `get_core_ids` failing, and `startable_self` errors: each is an I/O failure of the machine; the model covers the fork and spawn refusals only.
- Building the client and broker endpoints (`RestartingMgr`, `LlmpBroker`, `CentralizedEventManager`): ports, remote broker address, configuration, state serialization, hooks, `adaptive_serialization` timing and the endpoint build errors. The broker is an oracle that returns or fails; a client hands over to its callback.
- The centralized broker's own event loop: the model records that its process ends with the shutting-down error.
- Logging of every kind, including the exit status of clients that exited with an error: it has no effect on the launch.
- `std::env::set_var` of the marker in the parent's own environment: the model records the marker on the spawn event.
- The re-exec spawn's stdio when the debug override is set: the model records "unset" (the command's default, inheritance).
- A centralized client whose callback returns normally goes on with the loop of its parent at line 765 (the `?` after the child arm). The model ends each child's story at the hand-over to its callback.
- Processes other than the launching one are not run: a forked or spawned child is described by what it will do, not executed.
- `Topology.ForkDelay`: the source computes `index * launch_delay` in `u64`, which can overflow; the model uses unbounded integers.
- `Topology.ReexecDelay`: the same for `id as u64 * launch_delay`.
- `Launchers.SpawnAfterPause`: sleeps the unbounded product, for the same reason.
- `Launchers.Launcher.LaunchReexec`: the client process's `take()` of the callback is modelled; what the callback then does is not.
