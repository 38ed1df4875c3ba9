/**
 * The launchers as the calling process runs them: objects whose launch
 * methods walk the machine's cores, fork or spawn one worker per selected
 * core, and then run the broker or wait for the workers. Each launch
 * method is proved to do exactly what its plan in `Plan` says.
 */
module Launchers {
  import opened Wrappers
  import opened Topology
  import opened ClientMarker
  import opened Host
  import opened Plan
  import opened LaunchProperties

  // ----- Loops shared by the launchers -----

  /**
   * The client loop of the forking launchers: walk the ids 0 .. the core
   * count, and fork a client on every id the request names, counting the
   * clients from 1. A refused fork ends the loop with an error.
   */
  method ForkClients(host: Host, cores: seq<CoreId>, fl: Flavour, launchDelay: nat, dups: seq<Dup2>)
    returns (handles: seq<Pid>, ok: bool)
    modifies host`nextPid, host`procsLeft, host`trace
    ensures var sel := Selected(host.coreCount, cores);
      var n := Min(|sel|, old(host.procsLeft));
      && ok == (|sel| <= old(host.procsLeft))
      && handles == Pids(old(host.nextPid), n)
      && host.nextPid == old(host.nextPid) + n && host.procsLeft == old(host.procsLeft) - n
      && host.trace == old(host.trace) + ClientForks(sel[..n], host.coreIds, old(host.nextPid), 1, fl, launchDelay, dups)
  {
    ghost var first, left, before := host.nextPid, host.procsLeft, host.trace;
    ghost var sel := Selected(host.coreCount, cores);
    handles := [];
    var index := 0;
    var id := 0;
    while id < host.coreCount
      invariant id <= host.coreCount
      invariant index == |Selected(id, cores)| <= left
      invariant handles == Pids(first, index)
      invariant host.nextPid == first + index && host.procsLeft == left - index
      invariant host.trace == before + ClientForks(Selected(id, cores), host.coreIds, first, 1, fl, launchDelay, dups)
    {
      if id in cores {
        index := index + 1;
        var r := host.Fork(ClientContinuation(fl, host.coreIds[id], index, launchDelay, dups));
        if r.Err? {
          assert |sel| > left && sel[..left] == Selected(id, cores) by {
            SelectedPast(id, host.coreCount, cores);
          }
          return handles, false;
        }
        handles := handles + [r.value];
        assert handles == Pids(first, index) by {
          PidsSnoc(first, index - 1);
        }
        assert index == |Selected(id + 1, cores)| by {
          SelectedStep(id, cores);
        }
        assert host.trace == before + ClientForks(Selected(id + 1, cores), host.coreIds, first, 1, fl, launchDelay, dups) by {
          SelectedStep(id, cores);
          ClientForksGrow(before, Selected(id, cores), host.coreIds, id, first, fl, launchDelay, dups);
        }
      } else {
        assert Selected(id + 1, cores) == Selected(id, cores) by {
          SelectedStep(id, cores);
        }
      }
      id := id + 1;
    }
    assert sel[..|sel|] == sel;
    ok := true;
  }

  /**
   * The spawn loop of the re-exec launcher: for every requested id in
   * increasing order, sleep `id * launch_delay` ms, then start a copy of
   * this executable whose client marker is the id. A refused spawn ends
   * the loop with an error, after its pause.
   */
  method SpawnClients(host: Host, cores: seq<CoreId>, launchDelay: nat, io: Stdio)
    returns (handles: seq<Pid>, ok: bool)
    modifies host`nextPid, host`procsLeft, host`trace
    ensures var sel := Selected(host.coreCount, cores);
      var left := old(host.procsLeft);
      && ok == (|sel| <= left)
      && (ok ==>
            && handles == Pids(old(host.nextPid), |sel|)
            && host.nextPid == old(host.nextPid) + |sel| && host.procsLeft == left - |sel|
            && host.trace == old(host.trace) + ReexecSpawns(sel, old(host.nextPid), launchDelay, io))
      && (!ok ==>
            && host.nextPid == old(host.nextPid) + left && host.procsLeft == 0
            && host.trace == old(host.trace) + ReexecSpawns(sel[..left], old(host.nextPid), launchDelay, io)
                             + [Slept(ReexecDelay(sel[left], launchDelay))])
  {
    ghost var first, left, before := host.nextPid, host.procsLeft, host.trace;
    ghost var sel := Selected(host.coreCount, cores);
    handles := [];
    var id := 0;
    while id < host.coreCount
      invariant id <= host.coreCount
      invariant |Selected(id, cores)| <= left
      invariant handles == Pids(first, |Selected(id, cores)|)
      invariant host.nextPid == first + |handles| && host.procsLeft == left - |handles|
      invariant host.trace == before + ReexecSpawns(Selected(id, cores), first, launchDelay, io)
    {
      if id in cores {
        var r := SpawnAfterPause(host, id, launchDelay, io);
        if r.Err? {
          assert |sel| > left && sel[..left] == Selected(id, cores) && sel[left] == id by {
            SelectedPast(id, host.coreCount, cores);
          }
          return handles, false;
        }
        handles := handles + [r.value];
        assert handles == Pids(first, |Selected(id + 1, cores)|) by {
          SelectedStep(id, cores);
          PidsSnoc(first, |Selected(id, cores)|);
        }
        assert host.trace == before + ReexecSpawns(Selected(id + 1, cores), first, launchDelay, io) by {
          SelectedStep(id, cores);
          ReexecSpawnsGrow(before, Selected(id, cores), id, first, launchDelay, io);
        }
      } else {
        assert Selected(id + 1, cores) == Selected(id, cores) by {
          SelectedStep(id, cores);
        }
      }
      id := id + 1;
    }
    ok := true;
  }

  /** One step of the re-exec spawn loop: sleep `id * launch_delay` ms, then spawn the copy marked `id`. */
  method SpawnAfterPause(host: Host, id: CoreId, launchDelay: nat, io: Stdio) returns (r: Result<Pid, Error>)
    modifies host`nextPid, host`procsLeft, host`trace
    ensures old(host.procsLeft) == 0 ==>
      && r == Err(OsError) && host.nextPid == old(host.nextPid) && host.procsLeft == 0
      && host.trace == old(host.trace) + [Slept(ReexecDelay(id, launchDelay))]
    ensures old(host.procsLeft) > 0 ==>
      && r == Ok(old(host.nextPid)) && host.nextPid == old(host.nextPid) + 1 && host.procsLeft == old(host.procsLeft) - 1
      && host.trace == old(host.trace) + [Slept(ReexecDelay(id, launchDelay))] + [Spawned(old(host.nextPid), Encode(id), io, io)]
  {
    StaggerIsProduct(id, launchDelay);
    host.Sleep(id * launchDelay);
    r := host.Spawn(Encode(id), io);
  }

  /** Send `sig` to every handle in order, ignoring whether each `kill` succeeds. */
  method SignalEach(host: Host, handles: seq<Pid>, sig: Signal)
    modifies host`trace
    ensures host.trace == old(host.trace) + SignalEvents(handles, sig)
  {
    ghost var before := host.trace;
    var i := 0;
    while i < |handles|
      invariant i <= |handles|
      invariant host.trace == before + SignalEvents(handles[..i], sig)
    {
      var _ := host.Kill(handles[i], sig);
      assert host.trace == before + SignalEvents(handles[..i + 1], sig) by {
        SignalEventsSnoc(handles[..i], handles[i], sig);
        assert handles[..i + 1] == handles[..i] + [handles[i]];
        AppendAssoc(before, SignalEvents(handles[..i], sig), [Signalled(handles[i], sig)]);
      }
      i := i + 1;
    }
    assert handles[..i] == handles;
  }

  /** Wait for every handle in order, ignoring whether each `waitpid` succeeds. */
  method WaitEach(host: Host, handles: seq<Pid>)
    modifies host`trace
    ensures host.trace == old(host.trace) + WaitEvents(handles)
  {
    ghost var before := host.trace;
    var i := 0;
    while i < |handles|
      invariant i <= |handles|
      invariant host.trace == before + WaitEvents(handles[..i])
    {
      var _ := host.Wait(handles[i]);
      assert host.trace == before + WaitEvents(handles[..i + 1]) by {
        WaitEventsSnoc(handles[..i], handles[i]);
        assert handles[..i + 1] == handles[..i] + [handles[i]];
        AppendAssoc(before, WaitEvents(handles[..i]), [Waited(handles[i])]);
      }
      i := i + 1;
    }
    assert handles[..i] == handles;
  }

  /** Kill every child in order with SIGKILL; the first failing kill stops the loop. */
  method KillUntilError(host: Host, handles: seq<Pid>) returns (ok: bool)
    modifies host`trace
    ensures ok == (FirstFailing(handles, host.failing) == |handles|)
    ensures host.trace == old(host.trace) + SignalEvents(Reached(handles, host.failing), SigKill)
  {
    ghost var before := host.trace;
    var i := 0;
    while i < |handles|
      invariant i <= FirstFailing(handles, host.failing)
      invariant host.trace == before + SignalEvents(handles[..i], SigKill)
    {
      ok := host.Kill(handles[i], SigKill);
      assert host.trace == before + SignalEvents(handles[..i + 1], SigKill) by {
        SignalEventsSnoc(handles[..i], handles[i], SigKill);
        assert handles[..i + 1] == handles[..i] + [handles[i]];
        AppendAssoc(before, SignalEvents(handles[..i], SigKill), [Signalled(handles[i], SigKill)]);
      }
      if !ok {
        assert Reached(handles, host.failing) == handles[..i + 1];
        return;
      }
      i := i + 1;
    }
    assert handles[..i] == handles;
    ok := true;
  }

  /** Wait for every child in order; the first failing wait stops the loop. */
  method WaitUntilError(host: Host, handles: seq<Pid>) returns (ok: bool)
    modifies host`trace
    ensures ok == (FirstFailing(handles, host.failing) == |handles|)
    ensures host.trace == old(host.trace) + WaitEvents(Reached(handles, host.failing))
  {
    ghost var before := host.trace;
    var i := 0;
    while i < |handles|
      invariant i <= FirstFailing(handles, host.failing)
      invariant host.trace == before + WaitEvents(handles[..i])
    {
      ok := host.Wait(handles[i]);
      assert host.trace == before + WaitEvents(handles[..i + 1]) by {
        WaitEventsSnoc(handles[..i], handles[i]);
        assert handles[..i + 1] == handles[..i] + [handles[i]];
        AppendAssoc(before, WaitEvents(handles[..i]), [Waited(handles[i])]);
      }
      if !ok {
        assert Reached(handles, host.failing) == handles[..i + 1];
        return;
      }
      i := i + 1;
    }
    assert handles[..i] == handles;
    ok := true;
  }

  /** The ending of the forking launchers: the broker then SIGINT to all, or a wait for all. */
  method FinishForked(host: Host, spawnBroker: bool, quota: nat, handles: seq<Pid>) returns (outcome: Outcome)
    modifies host`trace
    ensures var end := ForkShutdown(spawnBroker, quota, host.brokerFails, handles);
      outcome == end.outcome && host.trace == old(host.trace) + end.events
  {
    if spawnBroker {
      var ok := host.LaunchBroker(quota);
      if !ok {
        return Failed(BrokerError);
      }
      SignalEach(host, handles, SigInt);
      AppendAssoc(old(host.trace), [BrokerLaunched(quota)], SignalEvents(handles, SigInt));
    } else {
      WaitEach(host, handles);
    }
    outcome := Finished;
  }

  /**
   * The client loop of a forking launcher followed by its ending;
   * `handles` holds the processes forked before the loop.
   */
  method ForkClientsThenFinish(host: Host, cfg: Config, fl: Flavour, dups: seq<Dup2>, handles: seq<Pid>)
    returns (outcome: Outcome)
    modifies host`nextPid, host`procsLeft, host`trace
    ensures var run := ClientsThenShutdown(cfg, fl, old(host.Snapshot()), old(host.nextPid), old(host.procsLeft), handles, dups);
      && outcome == run.outcome
      && host.trace == old(host.trace) + run.events
      && host.nextPid == old(host.nextPid) + run.procs && host.procsLeft == old(host.procsLeft) - run.procs
  {
    ghost var s := host.Snapshot();
    ghost var sel := Selected(host.coreCount, cfg.cores);
    var clients, ok := ForkClients(host, cfg.cores, fl, cfg.launchDelay, dups);
    if !ok {
      return Failed(OsError);
    }
    ghost var forks := ClientForks(sel, host.coreIds, s.nextPid, 1, fl, cfg.launchDelay, dups);
    assert sel[..|sel|] == sel;
    outcome := FinishForked(host, cfg.spawnBroker, |cfg.cores|, handles + clients);
    AppendAssoc(old(host.trace), forks, ForkShutdown(cfg.spawnBroker, |cfg.cores|, s.brokerFails, handles + clients).events);
  }

  /** The ending of the re-exec launcher: as the forking one, but every error is returned. */
  method FinishReexec(host: Host, spawnBroker: bool, quota: nat, handles: seq<Pid>) returns (outcome: Outcome)
    modifies host`trace
    ensures var end := ReexecShutdown(spawnBroker, quota, host.brokerFails, host.failing, handles);
      outcome == end.outcome && host.trace == old(host.trace) + end.events
  {
    var ok: bool;
    if spawnBroker {
      ok := host.LaunchBroker(quota);
      if !ok {
        return Failed(BrokerError);
      }
      ok := KillUntilError(host, handles);
      AppendAssoc(old(host.trace), [BrokerLaunched(quota)], SignalEvents(Reached(handles, host.failing), SigKill));
    } else {
      ok := WaitUntilError(host, handles);
    }
    outcome := if ok then Finished else Failed(OsError);
  }

  /** `File::create` for each configured output file, stdout first. */
  method CreateOutputFiles(host: Host, cfg: Config) returns (out: Option<OpenFile>, err: Option<OpenFile>)
    modifies host`trace
    ensures out == Opened(cfg.stdoutFile) && err == Opened(cfg.stderrFile)
    ensures host.trace == old(host.trace) + OpenEvents(cfg)
  {
    out, err := None, None;
    if cfg.stdoutFile.Some? {
      var f := host.CreateFile(cfg.stdoutFile.value);
      out := Some(f);
    }
    if cfg.stderrFile.Some? {
      var f := host.CreateFile(cfg.stderrFile.value);
      err := Some(f);
    }
  }

  /**
   * `dup2` of the launching process's own stdout onto the stdout file, and
   * of its stderr onto the stderr file or else the stdout file; nothing
   * without a stdout file.
   */
  method RedirectOwnOutput(host: Host, out: Option<OpenFile>, err: Option<OpenFile>)
    modifies host`trace
    ensures host.trace == old(host.trace) + RedirectEvents(Redirects(false, out, err))
  {
    if out.Some? {
      host.Redirect(Dup2(out.value.path, Stdout));
      if err.Some? {
        host.Redirect(Dup2(err.value.path, Stderr));
      } else {
        host.Redirect(Dup2(out.value.path, Stderr));
      }
    }
  }

  /**
   * The re-exec parent's spawn loop, its late check for an empty core
   * list, and its ending.
   */
  method SpawnClientsThenFinish(host: Host, cfg: Config) returns (outcome: Outcome)
    modifies host`nextPid, host`procsLeft, host`trace
    ensures var run := ReexecClientsThenShutdown(cfg, old(host.Snapshot()));
      && outcome == run.outcome
      && host.trace == old(host.trace) + run.events
      && host.nextPid == old(host.nextPid) + run.procs && host.procsLeft == old(host.procsLeft) - run.procs
  {
    ghost var s := host.Snapshot();
    var io := ChildStdio(host.debugOutput, cfg.stdoutFile, cfg.stderrFile);
    var handles, ok := SpawnClients(host, cfg.cores, cfg.launchDelay, io);
    if !ok {
      return Failed(OsError);
    }
    if cfg.cores == [] {
      SelectedOfNothing(s.coreCount);
      return Failed(NoCoresGiven);
    }
    outcome := FinishReexec(host, cfg.spawnBroker, |cfg.cores|, handles);
    AppendAssoc(old(host.trace), ReexecSpawns(Selected(s.coreCount, cfg.cores), s.nextPid, cfg.launchDelay, io),
                ReexecShutdown(cfg.spawnBroker, |cfg.cores|, s.brokerFails, s.failing, handles).events);
  }

  /**
   * What the re-exec parent does to its own output unless the debug
   * override is set: create the files, then redirect its own stdio.
   */
  method SetUpOwnOutput(host: Host, cfg: Config)
    modifies host`trace
    ensures host.trace == old(host.trace) + OwnOutputEvents(cfg, host.debugOutput)
  {
    if !host.debugOutput {
      var out, err := CreateOutputFiles(host, cfg);
      RedirectOwnOutput(host, out, err);
      AppendAssoc(old(host.trace), OpenEvents(cfg), RedirectEvents(Redirects(false, out, err)));
    }
  }

  /**
   * The centralized launcher once its output files exist: fork the
   * centralized broker and pause, then fork the clients (the handles start
   * with the broker's) and finish.
   */
  method ForkCentralized(host: Host, cfg: Config, port: nat, fl: Flavour, out: Option<OpenFile>, err: Option<OpenFile>)
      returns (outcome: Outcome)
    requires out == Opened(cfg.stdoutFile) && err == Opened(cfg.stderrFile)
    modifies host`nextPid, host`procsLeft, host`trace
    ensures var run := CentralizedForks(cfg, port, fl, old(host.Snapshot()));
      && outcome == run.outcome
      && host.trace == old(host.trace) + run.events
      && host.nextPid == old(host.nextPid) + run.procs && host.procsLeft == old(host.procsLeft) - run.procs
  {
    ghost var s := host.Snapshot();
    var r := host.Fork(CentralizedBrokerChild(port));
    if r.Err? {
      return Failed(OsError);
    }
    host.Sleep(CentralizedBrokerPause);
    ghost var head := [Forked(s.nextPid, CentralizedBrokerChild(port)), Slept(CentralizedBrokerPause)];
    assert host.trace == old(host.trace) + head by {
      AppendAssoc(old(host.trace), [Forked(s.nextPid, CentralizedBrokerChild(port))], [Slept(CentralizedBrokerPause)]);
    }
    var dups := Redirects(host.debugOutput, out, err);
    ghost var t := host.Snapshot();
    outcome := ForkClientsThenFinish(host, cfg, fl, dups, [r.value]);
    ghost var rest := ClientsThenShutdown(cfg, fl, s, t.nextPid, t.procsLeft, [s.nextPid], dups);
    assert host.trace == old(host.trace) + (head + rest.events) by {
      ClientsThenShutdownReads(cfg, fl, t, s, t.nextPid, t.procsLeft, [r.value], dups);
      AppendAssoc(old(host.trace), head, rest.events);
    }
  }

  // ----- Launcher -----

  class Launcher {
    const cores: seq<CoreId>
    const stdoutFile: Option<Path>
    const stderrFile: Option<Path>
    const launchDelay: nat
    const spawnBroker: bool
    var runClient: Option<ClientFn>
    var openedStdoutFile: Option<OpenFile>
    var openedStderrFile: Option<OpenFile>

    function Cfg(): Config
    {
      Config(cores, stdoutFile, stderrFile, launchDelay, spawnBroker)
    }

    constructor (cores: seq<CoreId>, stdoutFile: Option<Path>, stderrFile: Option<Path>,
                 launchDelay: nat, spawnBroker: bool, runClient: Option<ClientFn>)
      ensures Cfg() == Config(cores, stdoutFile, stderrFile, launchDelay, spawnBroker)
      ensures this.runClient == runClient && openedStdoutFile == None && openedStderrFile == None
    {
      this.cores, this.stdoutFile, this.stderrFile := cores, stdoutFile, stderrFile;
      this.launchDelay, this.spawnBroker := launchDelay, spawnBroker;
      this.runClient := runClient;
      openedStdoutFile, openedStderrFile := None, None;
    }

    /**
     * `launch_with_hooks` where the platform can fork: validate, create the
     * output files, fork the clients, then run the broker or wait.
     */
    method LaunchForking(host: Host) returns (outcome: Outcome)
      modifies this`openedStdoutFile, this`openedStderrFile, host`nextPid, host`procsLeft, host`trace
      ensures var run := ForkPlan(Cfg(), runClient, old(host.Snapshot()));
        && outcome == run.outcome
        && host.trace == old(host.trace) + run.events
        && host.nextPid == old(host.nextPid) + run.procs && host.procsLeft == old(host.procsLeft) - run.procs
      ensures cores != [] && runClient.Some? ==>
        openedStdoutFile == Opened(stdoutFile) && openedStderrFile == Opened(stderrFile)
      ensures cores == [] || runClient.None? ==>
        openedStdoutFile == old(openedStdoutFile) && openedStderrFile == old(openedStderrFile)
    {
      if cores == [] {
        return Failed(NoCoresGiven);
      }
      if runClient.None? {
        return Failed(NoClientCallback);
      }
      ghost var s := host.Snapshot();
      ghost var start := host.trace;
      openedStdoutFile, openedStderrFile := CreateOutputFiles(host, Cfg());
      var debug := host.debugOutput;
      var dups := Redirects(debug, openedStdoutFile, openedStderrFile);
      var fl := Plain(runClient.value);
      outcome := ForkClientsThenFinish(host, Cfg(), fl, dups, []);
      ghost var rest := ClientsThenShutdown(Cfg(), fl, s, s.nextPid, s.procsLeft, [], dups);
      ForkPlanShape(Cfg(), runClient, s);
      AppendAssoc(start, OpenEvents(Cfg()), rest.events);
    }

    /**
     * `launch_with_hooks` where the platform re-executes itself. A process
     * started with the client marker becomes that core's client; the
     * launching process redirects its own output, spawns one marked copy
     * per selected core, only then refuses an empty core list, and ends
     * with the broker or the wait loop, returning the first error.
     */
    method LaunchReexec(host: Host) returns (outcome: Outcome)
      modifies this`runClient, host`nextPid, host`procsLeft, host`trace
      ensures var run := ReexecPlan(Cfg(), old(runClient), old(host.Snapshot()));
        && outcome == run.outcome
        && host.trace == old(host.trace) + run.events
        && host.nextPid == old(host.nextPid) + run.procs && host.procsLeft == old(host.procsLeft) - run.procs
      ensures runClient == (if host.marker.Present? && Parse(host.marker.value).Ok? then None else old(runClient))
    {
      if host.marker.NotUnicode? {
        return Panics;
      }
      if host.marker.Present? {
        var parsed := Parse(host.marker.value);
        if parsed.Err? {
          return Failed(parsed.error);
        }
        var f := runClient;
        runClient := None;
        if f.None? {
          return Panics;
        }
        return BecomesClient(parsed.value, f.value);
      }
      outcome := LaunchParent(host);
    }

    /** The launching process's side of the re-exec launch, where no client marker is set. */
    method LaunchParent(host: Host) returns (outcome: Outcome)
      modifies host`nextPid, host`procsLeft, host`trace
      ensures var run := ReexecParent(Cfg(), old(host.Snapshot()));
        && outcome == run.outcome
        && host.trace == old(host.trace) + run.events
        && host.nextPid == old(host.nextPid) + run.procs && host.procsLeft == old(host.procsLeft) - run.procs
    {
      ghost var start := host.trace;
      SetUpOwnOutput(host, Cfg());
      outcome := SpawnClientsThenFinish(host, Cfg());
      AppendAssoc(start, OwnOutputEvents(Cfg(), host.debugOutput), ReexecClientsThenShutdown(Cfg(), old(host.Snapshot())).events);
    }
  }

  // ----- CentralizedLauncher -----

  class CentralizedLauncher {
    const cores: seq<CoreId>
    const stdoutFile: Option<Path>
    const stderrFile: Option<Path>
    const launchDelay: nat
    const spawnBroker: bool
    const centralizedBrokerPort: nat
    var mainRunClient: Option<ClientFn>
    var secondaryRunClient: Option<ClientFn>
    var openedStdoutFile: Option<OpenFile>
    var openedStderrFile: Option<OpenFile>

    function Cfg(): Config
    {
      Config(cores, stdoutFile, stderrFile, launchDelay, spawnBroker)
    }

    constructor (cores: seq<CoreId>, stdoutFile: Option<Path>, stderrFile: Option<Path>, launchDelay: nat,
                 spawnBroker: bool, centralizedBrokerPort: nat, mainRunClient: Option<ClientFn>,
                 secondaryRunClient: Option<ClientFn>)
      ensures Cfg() == Config(cores, stdoutFile, stderrFile, launchDelay, spawnBroker)
      ensures this.centralizedBrokerPort == centralizedBrokerPort
      ensures this.mainRunClient == mainRunClient && this.secondaryRunClient == secondaryRunClient
      ensures openedStdoutFile == None && openedStderrFile == None
    {
      this.cores, this.stdoutFile, this.stderrFile := cores, stdoutFile, stderrFile;
      this.launchDelay, this.spawnBroker, this.centralizedBrokerPort := launchDelay, spawnBroker, centralizedBrokerPort;
      this.mainRunClient, this.secondaryRunClient := mainRunClient, secondaryRunClient;
      openedStdoutFile, openedStderrFile := None, None;
    }

    /**
     * `launch_generic`: validate, create the output files, fork the
     * centralized broker and pause, fork the clients (the first one the
     * main client), then run the broker or wait.
     */
    method LaunchGeneric(host: Host) returns (outcome: Outcome)
      modifies this`openedStdoutFile, this`openedStderrFile, host`nextPid, host`procsLeft, host`trace
      ensures var run := CentralizedPlan(Cfg(), centralizedBrokerPort, mainRunClient, secondaryRunClient, old(host.Snapshot()));
        && outcome == run.outcome
        && host.trace == old(host.trace) + run.events
        && host.nextPid == old(host.nextPid) + run.procs && host.procsLeft == old(host.procsLeft) - run.procs
      ensures cores != [] && secondaryRunClient.Some? ==>
        openedStdoutFile == Opened(stdoutFile) && openedStderrFile == Opened(stderrFile)
      ensures cores == [] || secondaryRunClient.None? ==>
        openedStdoutFile == old(openedStdoutFile) && openedStderrFile == old(openedStderrFile)
    {
      if cores == [] {
        return Failed(NoCoresGiven);
      }
      if secondaryRunClient.None? {
        return Failed(NoClientCallback);
      }
      ghost var s := host.Snapshot();
      openedStdoutFile, openedStderrFile := CreateOutputFiles(host, Cfg());
      var fl := Centralized(mainRunClient, secondaryRunClient.value);
      outcome := ForkCentralized(host, Cfg(), centralizedBrokerPort, fl, openedStdoutFile, openedStderrFile);
      AppendAssoc(old(host.trace), OpenEvents(Cfg()), CentralizedForks(Cfg(), centralizedBrokerPort, fl, s).events);
    }
  }
}
