/** What the three launch plans guarantee. */
module LaunchProperties {
  import opened Wrappers
  import opened Topology
  import opened ClientMarker
  import opened Host
  import opened Plan

  // ----- Launcher, forking -----

  /** An empty core list or a missing client callback is refused before any file or process is created. */
  lemma ForkPlanValidation(cfg: Config, runClient: Option<ClientFn>, s: Setup)
    ensures cfg.cores == [] ==> ForkPlan(cfg, runClient, s) == Run(Failed(NoCoresGiven), [], 0)
    ensures cfg.cores != [] && runClient.None? ==>
      ForkPlan(cfg, runClient, s) == Run(Failed(NoClientCallback), [], 0)
  {
  }

  /** The forking launch once validated: the output files, then the client loop and its ending. */
  lemma ForkPlanShape(cfg: Config, runClient: Option<ClientFn>, s: Setup)
    requires cfg.cores != [] && runClient.Some?
    ensures var dups := Redirects(s.debug, Opened(cfg.stdoutFile), Opened(cfg.stderrFile));
      var rest := ClientsThenShutdown(cfg, Plain(runClient.value), s, s.nextPid, s.procsLeft, [], dups);
      ForkPlan(cfg, runClient, s) == Run(rest.outcome, OpenEvents(cfg) + rest.events, rest.procs)
  {
  }

  /** The output files are created before any process; nothing else comes first. */
  lemma ForkPlanFilesFirst(cfg: Config, runClient: Option<ClientFn>, s: Setup)
    requires cfg.cores != [] && runClient.Some?
    ensures var run := ForkPlan(cfg, runClient, s);
      |OpenEvents(cfg)| <= |run.events| && run.events[..|OpenEvents(cfg)|] == OpenEvents(cfg)
  {
    var dups := Redirects(s.debug, Opened(cfg.stdoutFile), Opened(cfg.stderrFile));
    var rest := ClientsThenShutdown(cfg, Plain(runClient.value), s, s.nextPid, s.procsLeft, [], dups);
    ForkPlanShape(cfg, runClient, s);
    PartsOfAppend(OpenEvents(cfg), rest.events);
  }

  /**
   * One child is forked per selected id, in increasing order, as long as the
   * system grants forks: the k-th (from 0) gets the next handle, is bound to
   * the machine's core at that id, and gets spawn index k + 1, a stagger of
   * (k + 1) * launch_delay ms, the redirection rule applied to the opened
   * files, and the client callback.
   */
  lemma ForkPlanChildren(cfg: Config, runClient: Option<ClientFn>, s: Setup)
    requires cfg.cores != [] && runClient.Some?
    ensures var run := ForkPlan(cfg, runClient, s);
      var sel := Selected(s.coreCount, cfg.cores);
      var n := Min(|sel|, s.procsLeft);
      var dups := Redirects(s.debug, Opened(cfg.stdoutFile), Opened(cfg.stderrFile));
      && run.procs == n
      && Handles(run.events) == Pids(s.nextPid, n)
      && |Children(run.events)| == n
      && (forall k :: 0 <= k < n ==>
            && sel[k] < |s.coreIds|
            && Children(run.events)[k]
                 == ClientChild(s.coreIds[sel[k]], k + 1, ForkDelay(k + 1, cfg.launchDelay), dups, Client, runClient))
  {
    SelectedFacts(s.coreCount, cfg.cores);
    var dups := Redirects(s.debug, Opened(cfg.stdoutFile), Opened(cfg.stderrFile));
    var rest := ClientsThenShutdown(cfg, Plain(runClient.value), s, s.nextPid, s.procsLeft, [], dups);
    ForkPlanShape(cfg, runClient, s);
    OpenEventsInert(cfg);
    AfterInert(OpenEvents(cfg), rest.events);
    ClientLoopFacts(cfg, Plain(runClient.value), s, s.nextPid, s.procsLeft, [], dups);
  }

  /** Every forked child becomes the client of the machine core at the id it was forked for. */
  lemma ForkPlanClientsRun(cfg: Config, runClient: Option<ClientFn>, s: Setup)
    requires cfg.cores != [] && runClient.Some?
    ensures var kids := Children(ForkPlan(cfg, runClient, s).events);
      var sel := Selected(s.coreCount, cfg.cores);
      && |kids| == Min(|sel|, s.procsLeft)
      && forall k :: 0 <= k < |kids| ==>
           sel[k] < |s.coreIds| && ChildOutcome(kids[k]) == BecomesClient(s.coreIds[sel[k]], runClient.value)
  {
    ForkPlanChildren(cfg, runClient, s);
  }

  /** A refused fork ends the launch with an error; nothing is brokered, signalled or waited for. */
  lemma ForkPlanOutOfProcesses(cfg: Config, runClient: Option<ClientFn>, s: Setup)
    requires cfg.cores != [] && runClient.Some?
    requires |Selected(s.coreCount, cfg.cores)| > s.procsLeft
    ensures var run := ForkPlan(cfg, runClient, s);
      && run.outcome == Failed(OsError)
      && SignalledPids(run.events) == [] && WaitedPids(run.events) == [] && BrokerQuotas(run.events) == []
  {
    var dups := Redirects(s.debug, Opened(cfg.stdoutFile), Opened(cfg.stderrFile));
    var rest := ClientsThenShutdown(cfg, Plain(runClient.value), s, s.nextPid, s.procsLeft, [], dups);
    ForkPlanShape(cfg, runClient, s);
    OpenEventsInert(cfg);
    AfterInert(OpenEvents(cfg), rest.events);
    EndingFacts(cfg, Plain(runClient.value), s, s.nextPid, s.procsLeft, [], dups);
  }

  /**
   * With every fork granted: the broker's quota is the length of the
   * requested list; once the broker returns, every recorded handle, each a
   * different process, is sent SIGINT exactly once, in recording order; a
   * failing broker is reported and nothing is signalled; without a broker,
   * every handle is waited for in order and none is signalled.
   */
  lemma ForkPlanShutdown(cfg: Config, runClient: Option<ClientFn>, s: Setup)
    requires cfg.cores != [] && runClient.Some?
    requires |Selected(s.coreCount, cfg.cores)| <= s.procsLeft
    ensures var run := ForkPlan(cfg, runClient, s);
      var handles := Handles(run.events);
      && Distinct(handles)
      && BrokerQuotas(run.events) == (if cfg.spawnBroker then [|cfg.cores|] else [])
      && (cfg.spawnBroker && !s.brokerFails ==>
            run.outcome == Finished && SignalledPids(run.events) == handles && WaitedPids(run.events) == [])
      && (cfg.spawnBroker && s.brokerFails ==>
            run.outcome == Failed(BrokerError) && SignalledPids(run.events) == [] && WaitedPids(run.events) == [])
      && (!cfg.spawnBroker ==>
            run.outcome == Finished && WaitedPids(run.events) == handles && SignalledPids(run.events) == [])
  {
    var sel := Selected(s.coreCount, cfg.cores);
    var dups := Redirects(s.debug, Opened(cfg.stdoutFile), Opened(cfg.stderrFile));
    var rest := ClientsThenShutdown(cfg, Plain(runClient.value), s, s.nextPid, s.procsLeft, [], dups);
    ForkPlanShape(cfg, runClient, s);
    OpenEventsInert(cfg);
    AfterInert(OpenEvents(cfg), rest.events);
    ClientLoopHandles(cfg, Plain(runClient.value), s, s.nextPid, s.procsLeft, [], dups);
    EndingFacts(cfg, Plain(runClient.value), s, s.nextPid, s.procsLeft, [], dups);
    PidsDistinct(s.nextPid, |sel|);
    assert [] + Pids(s.nextPid, |sel|) == Pids(s.nextPid, |sel|);
  }

  /** The SIGINTs are the last events and come right after the broker has returned. */
  lemma ForkPlanSignalsAfterBroker(cfg: Config, runClient: Option<ClientFn>, s: Setup)
    requires cfg.cores != [] && runClient.Some? && cfg.spawnBroker && !s.brokerFails
    requires |Selected(s.coreCount, cfg.cores)| <= s.procsLeft
    ensures var run := ForkPlan(cfg, runClient, s);
      var handles := Handles(run.events);
      && |handles| < |run.events|
      && run.events[|run.events| - |handles| - 1] == BrokerLaunched(|cfg.cores|)
      && run.events[|run.events| - |handles|..] == SignalEvents(handles, SigInt)
  {
    var sel := Selected(s.coreCount, cfg.cores);
    var dups := Redirects(s.debug, Opened(cfg.stdoutFile), Opened(cfg.stderrFile));
    var forks := ClientForks(sel, s.coreIds, s.nextPid, 1, Plain(runClient.value), cfg.launchDelay, dups);
    ForkPlanAllForked(cfg, runClient, s);
    ForkPlanBrokerThenSignals(cfg, runClient, s);
    PartsOfAppend(OpenEvents(cfg) + forks + [BrokerLaunched(|cfg.cores|)], SignalEvents(Pids(s.nextPid, |sel|), SigInt));
  }

  /** With every fork granted, the recorded handles are consecutive, one per selected core. */
  lemma ForkPlanAllForked(cfg: Config, runClient: Option<ClientFn>, s: Setup)
    requires cfg.cores != [] && runClient.Some?
    requires |Selected(s.coreCount, cfg.cores)| <= s.procsLeft
    ensures Handles(ForkPlan(cfg, runClient, s).events) == Pids(s.nextPid, |Selected(s.coreCount, cfg.cores)|)
  {
    var dups := Redirects(s.debug, Opened(cfg.stdoutFile), Opened(cfg.stderrFile));
    var rest := ClientsThenShutdown(cfg, Plain(runClient.value), s, s.nextPid, s.procsLeft, [], dups);
    ForkPlanShape(cfg, runClient, s);
    OpenThen(cfg, rest.events);
    ClientLoopHandles(cfg, Plain(runClient.value), s, s.nextPid, s.procsLeft, [], dups);
    assert [] + Pids(s.nextPid, |Selected(s.coreCount, cfg.cores)|) == Pids(s.nextPid, |Selected(s.coreCount, cfg.cores)|);
  }

  /** With every fork granted and a broker that returns: files, forks, the broker, then one SIGINT per handle. */
  lemma ForkPlanBrokerThenSignals(cfg: Config, runClient: Option<ClientFn>, s: Setup)
    requires cfg.cores != [] && runClient.Some? && cfg.spawnBroker && !s.brokerFails
    requires |Selected(s.coreCount, cfg.cores)| <= s.procsLeft
    ensures var sel := Selected(s.coreCount, cfg.cores);
      var dups := Redirects(s.debug, Opened(cfg.stdoutFile), Opened(cfg.stderrFile));
      var forks := ClientForks(sel, s.coreIds, s.nextPid, 1, Plain(runClient.value), cfg.launchDelay, dups);
      ForkPlan(cfg, runClient, s).events
        == OpenEvents(cfg) + forks + [BrokerLaunched(|cfg.cores|)] + SignalEvents(Pids(s.nextPid, |sel|), SigInt)
  {
    var sel := Selected(s.coreCount, cfg.cores);
    var dups := Redirects(s.debug, Opened(cfg.stdoutFile), Opened(cfg.stderrFile));
    var handles := Pids(s.nextPid, |sel|);
    var forks := ClientForks(sel, s.coreIds, s.nextPid, 1, Plain(runClient.value), cfg.launchDelay, dups);
    var b := BrokerLaunched(|cfg.cores|);
    var signals := SignalEvents(handles, SigInt);
    assert ForkPlan(cfg, runClient, s).events == OpenEvents(cfg) + (forks + ([b] + signals)) by {
      ForkPlanShape(cfg, runClient, s);
      assert [] + handles == handles;
    }
    AppendAssoc(OpenEvents(cfg), forks, [b] + signals);
    AppendAssoc(OpenEvents(cfg) + forks, [b], signals);
  }

  // ----- CentralizedLauncher -----

  /**
   * The centralized launcher refuses an empty core list or a missing
   * secondary callback before creating anything; a missing main callback is
   * not checked. If the system refuses the broker's fork, only the files
   * have been created.
   */
  lemma CentralizedPlanValidation(cfg: Config, port: nat, main: Option<ClientFn>, secondary: Option<ClientFn>, s: Setup)
    ensures cfg.cores == [] ==> CentralizedPlan(cfg, port, main, secondary, s) == Run(Failed(NoCoresGiven), [], 0)
    ensures cfg.cores != [] && secondary.None? ==>
      CentralizedPlan(cfg, port, main, secondary, s) == Run(Failed(NoClientCallback), [], 0)
    ensures cfg.cores != [] && secondary.Some? && s.procsLeft == 0 ==>
      CentralizedPlan(cfg, port, main, secondary, s) == Run(Failed(OsError), OpenEvents(cfg), 0)
  {
  }

  /** The centralized launch once validated: files, broker fork, pause, then the shared client loop and ending. */
  lemma CentralizedPlanShape(cfg: Config, port: nat, main: Option<ClientFn>, secondary: Option<ClientFn>, s: Setup)
    requires cfg.cores != [] && secondary.Some? && s.procsLeft > 0
    ensures var dups := Redirects(s.debug, Opened(cfg.stdoutFile), Opened(cfg.stderrFile));
      var rest := ClientsThenShutdown(cfg, Centralized(main, secondary.value), s, s.nextPid + 1, s.procsLeft - 1, [s.nextPid], dups);
      CentralizedPlan(cfg, port, main, secondary, s) ==
        Run(rest.outcome,
            OpenEvents(cfg) + ([Forked(s.nextPid, CentralizedBrokerChild(port)), Slept(CentralizedBrokerPause)] + rest.events),
            rest.procs + 1)
  {
  }

  /** The output files add nothing to any view of what follows them. */
  lemma OpenThen(cfg: Config, rest: seq<Event>)
    ensures var es := OpenEvents(cfg) + rest;
      && Handles(es) == Handles(rest) && Children(es) == Children(rest)
      && SignalledPids(es) == SignalledPids(rest) && WaitedPids(es) == WaitedPids(rest)
      && BrokerQuotas(es) == BrokerQuotas(rest)
  {
    OpenEventsInert(cfg);
    AfterInert(OpenEvents(cfg), rest);
  }

  /** The re-exec parent's own output set-up adds nothing to any view of what follows it. */
  lemma OwnThen(cfg: Config, debug: bool, rest: seq<Event>)
    ensures var es := OwnOutputEvents(cfg, debug) + rest;
      && Handles(es) == Handles(rest) && Children(es) == Children(rest) && Markers(es) == Markers(rest)
      && Sleeps(es) == Sleeps(rest) && SignalledPids(es) == SignalledPids(rest)
      && WaitedPids(es) == WaitedPids(rest) && BrokerQuotas(es) == BrokerQuotas(rest)
  {
    OwnEventsInert(cfg, debug);
    AfterInert(OwnOutputEvents(cfg, debug), rest);
  }

  /** The centralized broker's fork and the pause after it, in the views of what follows. */
  lemma BrokerForkViews(port: nat, central: Pid, rest: seq<Event>)
    ensures var es := [Forked(central, CentralizedBrokerChild(port)), Slept(CentralizedBrokerPause)] + rest;
      && Handles(es) == [central] + Handles(rest) && Children(es) == [CentralizedBrokerChild(port)] + Children(rest)
      && SignalledPids(es) == SignalledPids(rest) && WaitedPids(es) == WaitedPids(rest)
      && BrokerQuotas(es) == BrokerQuotas(rest)
  {
    var e1, e2 := Forked(central, CentralizedBrokerChild(port)), Slept(CentralizedBrokerPause);
    var es := [e1, e2] + rest;
    assert Handles(es) == [central] + Handles(rest) by { ViewPair(e1, e2, rest); }
    assert Children(es) == [CentralizedBrokerChild(port)] + Children(rest) by { ViewPair(e1, e2, rest); }
    assert SignalledPids(es) == SignalledPids(rest) by { ViewPair(e1, e2, rest); }
    assert WaitedPids(es) == WaitedPids(rest) by { ViewPair(e1, e2, rest); }
    assert BrokerQuotas(es) == BrokerQuotas(rest) by { ViewPair(e1, e2, rest); }
  }

  /** The views of what the centralized launcher does before its client loop. */
  lemma CentralizedHeadViews(cfg: Config, port: nat, central: Pid, rest: seq<Event>)
    ensures var es := OpenEvents(cfg) + ([Forked(central, CentralizedBrokerChild(port)), Slept(CentralizedBrokerPause)] + rest);
      && Handles(es) == [central] + Handles(rest) && Children(es) == [CentralizedBrokerChild(port)] + Children(rest)
      && SignalledPids(es) == SignalledPids(rest) && WaitedPids(es) == WaitedPids(rest)
      && BrokerQuotas(es) == BrokerQuotas(rest)
  {
    OpenThen(cfg, [Forked(central, CentralizedBrokerChild(port)), Slept(CentralizedBrokerPause)] + rest);
    BrokerForkViews(port, central, rest);
  }

  /** The centralized broker is forked right after the files are created, followed by a 10 ms pause. */
  lemma CentralizedPlanBrokerFirst(cfg: Config, port: nat, main: Option<ClientFn>, secondary: Option<ClientFn>, s: Setup)
    requires cfg.cores != [] && secondary.Some? && s.procsLeft > 0
    ensures var run := CentralizedPlan(cfg, port, main, secondary, s);
      && |OpenEvents(cfg)| + 2 <= |run.events|
      && run.events[..|OpenEvents(cfg)|] == OpenEvents(cfg)
      && run.events[|OpenEvents(cfg)|] == Forked(s.nextPid, CentralizedBrokerChild(port))
      && run.events[|OpenEvents(cfg)| + 1] == Slept(CentralizedBrokerPause)
  {
    var dups := Redirects(s.debug, Opened(cfg.stdoutFile), Opened(cfg.stderrFile));
    var rest := ClientsThenShutdown(cfg, Centralized(main, secondary.value), s, s.nextPid + 1, s.procsLeft - 1, [s.nextPid], dups);
    var tail := [Forked(s.nextPid, CentralizedBrokerChild(port)), Slept(CentralizedBrokerPause)] + rest.events;
    CentralizedPlanShape(cfg, port, main, secondary, s);
    PartsOfAppend(OpenEvents(cfg), tail);
  }

  /**
   * The centralized broker is the first process created and holds the first
   * handle; the clients get the handles after it, one per selected core as
   * long as the system grants forks.
   */
  lemma CentralizedPlanHandles(cfg: Config, port: nat, main: Option<ClientFn>, secondary: Option<ClientFn>, s: Setup)
    requires cfg.cores != [] && secondary.Some? && s.procsLeft > 0
    ensures var run := CentralizedPlan(cfg, port, main, secondary, s);
      var n := Min(|Selected(s.coreCount, cfg.cores)|, s.procsLeft - 1);
      run.procs == n + 1 && Handles(run.events) == Pids(s.nextPid, n + 1)
  {
    var dups := Redirects(s.debug, Opened(cfg.stdoutFile), Opened(cfg.stderrFile));
    var fl := Centralized(main, secondary.value);
    var rest := ClientsThenShutdown(cfg, fl, s, s.nextPid + 1, s.procsLeft - 1, [s.nextPid], dups);
    var run := CentralizedPlan(cfg, port, main, secondary, s);
    assert run.procs == rest.procs + 1 by {
      CentralizedPlanShape(cfg, port, main, secondary, s);
    }
    assert Handles(run.events) == [s.nextPid] + Handles(rest.events) by {
      CentralizedPlanShape(cfg, port, main, secondary, s);
      CentralizedHeadViews(cfg, port, s.nextPid, rest.events);
    }
    ClientLoopHandles(cfg, fl, s, s.nextPid + 1, s.procsLeft - 1, [s.nextPid], dups);
  }

  /**
   * The centralized broker is forked first; after the 10 ms pause the
   * clients are forked as the plain launcher does, as long as the system
   * grants forks: the k-th (from 0) on the k-th selected core, with spawn
   * index k + 1 and the stagger and redirection that go with it.
   */
  lemma CentralizedPlanChildren(cfg: Config, port: nat, main: Option<ClientFn>, secondary: Option<ClientFn>, s: Setup)
    requires cfg.cores != [] && secondary.Some? && s.procsLeft > 0
    ensures var run := CentralizedPlan(cfg, port, main, secondary, s);
      var sel := Selected(s.coreCount, cfg.cores);
      var n := Min(|sel|, s.procsLeft - 1);
      var dups := Redirects(s.debug, Opened(cfg.stdoutFile), Opened(cfg.stderrFile));
      var kids := Children(run.events);
      && |kids| == n + 1
      && kids[0] == CentralizedBrokerChild(port)
      && (forall k :: 0 <= k < n ==>
            && sel[k] < |s.coreIds|
            && kids[k + 1] == ClientContinuation(Centralized(main, secondary.value), s.coreIds[sel[k]], k + 1, cfg.launchDelay, dups))
  {
    SelectedFacts(s.coreCount, cfg.cores);
    var dups := Redirects(s.debug, Opened(cfg.stdoutFile), Opened(cfg.stderrFile));
    var fl := Centralized(main, secondary.value);
    var rest := ClientsThenShutdown(cfg, fl, s, s.nextPid + 1, s.procsLeft - 1, [s.nextPid], dups);
    CentralizedChildrenSplit(cfg, port, main, secondary, s);
    ClientLoopChildren(cfg, fl, s, s.nextPid + 1, s.procsLeft - 1, [s.nextPid], dups);
    ShiftedIndex(Children(CentralizedPlan(cfg, port, main, secondary, s).events), CentralizedBrokerChild(port), Children(rest.events));
  }

  /** The centralized broker is the first child; the client loop's children follow. */
  lemma CentralizedChildrenSplit(cfg: Config, port: nat, main: Option<ClientFn>, secondary: Option<ClientFn>, s: Setup)
    requires cfg.cores != [] && secondary.Some? && s.procsLeft > 0
    ensures var dups := Redirects(s.debug, Opened(cfg.stdoutFile), Opened(cfg.stderrFile));
      var rest := ClientsThenShutdown(cfg, Centralized(main, secondary.value), s, s.nextPid + 1, s.procsLeft - 1, [s.nextPid], dups);
      Children(CentralizedPlan(cfg, port, main, secondary, s).events) == [CentralizedBrokerChild(port)] + Children(rest.events)
  {
    var dups := Redirects(s.debug, Opened(cfg.stdoutFile), Opened(cfg.stderrFile));
    var rest := ClientsThenShutdown(cfg, Centralized(main, secondary.value), s, s.nextPid + 1, s.procsLeft - 1, [s.nextPid], dups);
    CentralizedPlanShape(cfg, port, main, secondary, s);
    CentralizedHeadViews(cfg, port, s.nextPid, rest.events);
  }

  /**
   * Exactly one client is the main one: the first forked (spawn index 1,
   * at the lowest selected id). It runs the main callback, and panics at
   * `unwrap` if there is none; every later client is secondary and runs the
   * secondary callback. The centralized broker process ends its launch call
   * once its clients have gone.
   */
  lemma CentralizedPlanRoles(cfg: Config, port: nat, main: Option<ClientFn>, secondary: Option<ClientFn>, s: Setup)
    requires cfg.cores != [] && secondary.Some? && s.procsLeft > 0
    ensures var kids := Children(CentralizedPlan(cfg, port, main, secondary, s).events);
      var sel := Selected(s.coreCount, cfg.cores);
      && |kids| == Min(|sel|, s.procsLeft - 1) + 1
      && ChildOutcome(kids[0]) == Failed(ShuttingDown)
      && (forall k :: 1 <= k < |kids| ==> kids[k].ClientChild? && (kids[k].role == MainClient <==> k == 1))
      && (|kids| > 1 ==>
            sel[0] < |s.coreIds| && ChildOutcome(kids[1]) == if main.Some? then BecomesClient(s.coreIds[sel[0]], main.value) else Panics)
      && (forall k :: 2 <= k < |kids| ==>
            sel[k - 1] < |s.coreIds| && ChildOutcome(kids[k]) == BecomesClient(s.coreIds[sel[k - 1]], secondary.value))
  {
    var kids := Children(CentralizedPlan(cfg, port, main, secondary, s).events);
    var sel := Selected(s.coreCount, cfg.cores);
    var dups := Redirects(s.debug, Opened(cfg.stdoutFile), Opened(cfg.stderrFile));
    var fl := Centralized(main, secondary.value);
    CentralizedPlanChildren(cfg, port, main, secondary, s);
    forall k | 1 <= k < |kids|
      ensures sel[k - 1] < |s.coreIds| && kids[k] == ClientContinuation(fl, s.coreIds[sel[k - 1]], k, cfg.launchDelay, dups)
    {
      var j := k - 1;
      assert sel[j] < |s.coreIds| && kids[j + 1] == ClientContinuation(fl, s.coreIds[sel[j]], j + 1, cfg.launchDelay, dups);
    }
  }

  /**
   * With every fork granted, shutdown covers the centralized broker too:
   * after the broker returns, SIGINT goes to the centralized broker and then
   * to every client, once each; without a broker all of them are waited for.
   */
  lemma CentralizedPlanShutdown(cfg: Config, port: nat, main: Option<ClientFn>, secondary: Option<ClientFn>, s: Setup)
    requires cfg.cores != [] && secondary.Some? && s.procsLeft > 0
    requires |Selected(s.coreCount, cfg.cores)| <= s.procsLeft - 1
    ensures var run := CentralizedPlan(cfg, port, main, secondary, s);
      var handles := Handles(run.events);
      && Distinct(handles)
      && |handles| > 0 && handles[0] == s.nextPid
      && BrokerQuotas(run.events) == (if cfg.spawnBroker then [|cfg.cores|] else [])
      && (cfg.spawnBroker && !s.brokerFails ==>
            run.outcome == Finished && SignalledPids(run.events) == handles && WaitedPids(run.events) == [])
      && (cfg.spawnBroker && s.brokerFails ==>
            run.outcome == Failed(BrokerError) && SignalledPids(run.events) == [] && WaitedPids(run.events) == [])
      && (!cfg.spawnBroker ==>
            run.outcome == Finished && WaitedPids(run.events) == handles && SignalledPids(run.events) == [])
  {
    var sel := Selected(s.coreCount, cfg.cores);
    var dups := Redirects(s.debug, Opened(cfg.stdoutFile), Opened(cfg.stderrFile));
    var fl := Centralized(main, secondary.value);
    var rest := ClientsThenShutdown(cfg, fl, s, s.nextPid + 1, s.procsLeft - 1, [s.nextPid], dups);
    var run := CentralizedPlan(cfg, port, main, secondary, s);
    var handles := [s.nextPid] + Pids(s.nextPid + 1, |sel|);
    assert run.outcome == rest.outcome
        && SignalledPids(run.events) == SignalledPids(rest.events) && WaitedPids(run.events) == WaitedPids(rest.events)
        && BrokerQuotas(run.events) == BrokerQuotas(rest.events) by {
      CentralizedPlanShape(cfg, port, main, secondary, s);
      CentralizedHeadViews(cfg, port, s.nextPid, rest.events);
    }
    assert Handles(run.events) == handles && Distinct(handles) && handles[0] == s.nextPid by {
      CentralizedPlanHandles(cfg, port, main, secondary, s);
      assert handles == Pids(s.nextPid, |sel| + 1);
      PidsDistinct(s.nextPid, |sel| + 1);
    }
    EndingFacts(cfg, fl, s, s.nextPid + 1, s.procsLeft - 1, [s.nextPid], dups);
  }

  /**
   * With every fork granted and a broker that returns: files, the
   * centralized broker's fork and pause, the client forks, the broker, then
   * one SIGINT per handle, the centralized broker's first.
   */
  lemma CentralizedPlanBrokerThenSignals(cfg: Config, port: nat, main: Option<ClientFn>, secondary: Option<ClientFn>, s: Setup)
    requires cfg.cores != [] && secondary.Some? && s.procsLeft > 0 && cfg.spawnBroker && !s.brokerFails
    requires |Selected(s.coreCount, cfg.cores)| <= s.procsLeft - 1
    ensures var sel := Selected(s.coreCount, cfg.cores);
      var dups := Redirects(s.debug, Opened(cfg.stdoutFile), Opened(cfg.stderrFile));
      var head := OpenEvents(cfg) + [Forked(s.nextPid, CentralizedBrokerChild(port)), Slept(CentralizedBrokerPause)];
      var forks := ClientForks(sel, s.coreIds, s.nextPid + 1, 1, Centralized(main, secondary.value), cfg.launchDelay, dups);
      CentralizedPlan(cfg, port, main, secondary, s).events
        == head + forks + [BrokerLaunched(|cfg.cores|)] + SignalEvents(Pids(s.nextPid, |sel| + 1), SigInt)
  {
    var sel := Selected(s.coreCount, cfg.cores);
    var dups := Redirects(s.debug, Opened(cfg.stdoutFile), Opened(cfg.stderrFile));
    var pair := [Forked(s.nextPid, CentralizedBrokerChild(port)), Slept(CentralizedBrokerPause)];
    var forks := ClientForks(sel, s.coreIds, s.nextPid + 1, 1, Centralized(main, secondary.value), cfg.launchDelay, dups);
    var b := BrokerLaunched(|cfg.cores|);
    var signals := SignalEvents(Pids(s.nextPid, |sel| + 1), SigInt);
    assert CentralizedPlan(cfg, port, main, secondary, s).events == OpenEvents(cfg) + (pair + (forks + ([b] + signals))) by {
      CentralizedPlanShape(cfg, port, main, secondary, s);
      assert [s.nextPid] + Pids(s.nextPid + 1, |sel|) == Pids(s.nextPid, |sel| + 1);
    }
    AppendAssoc(OpenEvents(cfg), pair, forks + ([b] + signals));
    AppendAssoc(OpenEvents(cfg) + pair, forks, [b] + signals);
    AppendAssoc(OpenEvents(cfg) + pair + forks, [b], signals);
  }

  /** The SIGINTs are the last events and come right after the broker has returned. */
  lemma CentralizedPlanSignalsAfterBroker(cfg: Config, port: nat, main: Option<ClientFn>, secondary: Option<ClientFn>, s: Setup)
    requires cfg.cores != [] && secondary.Some? && s.procsLeft > 0 && cfg.spawnBroker && !s.brokerFails
    requires |Selected(s.coreCount, cfg.cores)| <= s.procsLeft - 1
    ensures var run := CentralizedPlan(cfg, port, main, secondary, s);
      var handles := Handles(run.events);
      && |handles| < |run.events|
      && run.events[|run.events| - |handles| - 1] == BrokerLaunched(|cfg.cores|)
      && run.events[|run.events| - |handles|..] == SignalEvents(handles, SigInt)
  {
    var sel := Selected(s.coreCount, cfg.cores);
    var dups := Redirects(s.debug, Opened(cfg.stdoutFile), Opened(cfg.stderrFile));
    var head := OpenEvents(cfg) + [Forked(s.nextPid, CentralizedBrokerChild(port)), Slept(CentralizedBrokerPause)];
    var forks := ClientForks(sel, s.coreIds, s.nextPid + 1, 1, Centralized(main, secondary.value), cfg.launchDelay, dups);
    CentralizedPlanHandles(cfg, port, main, secondary, s);
    CentralizedPlanBrokerThenSignals(cfg, port, main, secondary, s);
    PartsOfAppend(head + forks + [BrokerLaunched(|cfg.cores|)], SignalEvents(Pids(s.nextPid, |sel| + 1), SigInt));
  }

  // ----- Launcher, re-exec -----

  /**
   * A process started with the marker is a client: it parses the marker
   * and hands over to the client callback on that core, without creating
   * anything; an unparseable marker is an error, a non-unicode one a panic,
   * and a missing callback a panic at `unwrap`.
   */
  lemma ReexecClientRole(cfg: Config, runClient: Option<ClientFn>, s: Setup)
    requires !s.marker.NotPresent?
    ensures var run := ReexecPlan(cfg, runClient, s);
      && run.events == [] && run.procs == 0
      && (s.marker.NotUnicode? ==> run.outcome == Panics)
      && (s.marker.Present? && Parse(s.marker.value).Err? ==> run.outcome == Failed(MalformedMarker))
      && (s.marker.Present? && Parse(s.marker.value).Ok? ==>
            run.outcome == if runClient.Some? then BecomesClient(Parse(s.marker.value).value, runClient.value) else Panics)
  {
  }

  /** The re-exec parent never looks at the client callback. */
  lemma ReexecParentIgnoresCallback(cfg: Config, f: ClientFn, s: Setup)
    requires s.marker.NotPresent?
    ensures ReexecPlan(cfg, None, s) == ReexecPlan(cfg, Some(f), s)
  {
  }

  lemma {:induction false} SelectedOfNothing(n: nat)
    ensures Selected(n, []) == []
  {
    if n > 0 {
      SelectedOfNothing(n - 1);
    }
  }

  /**
   * The re-exec parent checks for an empty core list only after its own
   * output set-up: the files are created and its stdio redirected, no
   * process is created, and then the launch fails.
   */
  lemma ReexecEmptyCores(cfg: Config, runClient: Option<ClientFn>, s: Setup)
    requires s.marker.NotPresent? && cfg.cores == []
    ensures var run := ReexecPlan(cfg, runClient, s);
      && run.outcome == Failed(NoCoresGiven)
      && run.events == OwnOutputEvents(cfg, s.debug)
      && run.procs == 0
      && Handles(run.events) == [] && Children(run.events) == [] && Markers(run.events) == [] && Sleeps(run.events) == []
      && (!s.debug && cfg.stdoutFile.Some? ==> FileCreated(cfg.stdoutFile.value) in run.events)
  {
    var own := OwnOutputEvents(cfg, s.debug);
    assert ReexecPlan(cfg, runClient, s) == Run(Failed(NoCoresGiven), own, 0) by {
      SelectedOfNothing(s.coreCount);
      assert ReexecClientsThenShutdown(cfg, s) == Run(Failed(NoCoresGiven), [], 0);
      assert own + [] == own;
    }
    OwnEventsInert(cfg, s.debug);
    InertViews(own);
    if !s.debug && cfg.stdoutFile.Some? {
      assert own[0] == FileCreated(cfg.stdoutFile.value);
    }
  }

  /** The re-exec parent when the system refuses a spawn. */
  lemma ReexecShortShape(cfg: Config, runClient: Option<ClientFn>, s: Setup)
    requires s.marker.NotPresent?
    requires |Selected(s.coreCount, cfg.cores)| > s.procsLeft
    ensures var sel := Selected(s.coreCount, cfg.cores);
      var io := ChildStdio(s.debug, cfg.stdoutFile, cfg.stderrFile);
      ReexecPlan(cfg, runClient, s) ==
        Run(Failed(OsError),
            OwnOutputEvents(cfg, s.debug) + (ReexecSpawns(sel[..s.procsLeft], s.nextPid, cfg.launchDelay, io)
              + [Slept(ReexecDelay(sel[s.procsLeft], cfg.launchDelay))]),
            s.procsLeft)
  {
  }

  /** The re-exec parent with every spawn granted and a non-empty core list. */
  lemma ReexecFullShape(cfg: Config, runClient: Option<ClientFn>, s: Setup)
    requires s.marker.NotPresent? && cfg.cores != []
    requires |Selected(s.coreCount, cfg.cores)| <= s.procsLeft
    ensures var sel := Selected(s.coreCount, cfg.cores);
      var io := ChildStdio(s.debug, cfg.stdoutFile, cfg.stderrFile);
      var end := ReexecShutdown(cfg.spawnBroker, |cfg.cores|, s.brokerFails, s.failing, Pids(s.nextPid, |sel|));
      ReexecPlan(cfg, runClient, s) ==
        Run(end.outcome, OwnOutputEvents(cfg, s.debug) + (ReexecSpawns(sel, s.nextPid, cfg.launchDelay, io) + end.events), |sel|)
  {
  }

  lemma ReexecEndingViews(spawnBroker: bool, quota: nat, brokerFails: bool, failing: set<Pid>, handles: seq<Pid>)
    ensures var end := ReexecShutdown(spawnBroker, quota, brokerFails, failing, handles);
      && Handles(end.events) == [] && Children(end.events) == [] && Markers(end.events) == [] && Sleeps(end.events) == []
      && BrokerQuotas(end.events) == (if spawnBroker then [quota] else [])
      && SignalledPids(end.events) == (if spawnBroker && !brokerFails then Reached(handles, failing) else [])
      && WaitedPids(end.events) == (if spawnBroker then [] else Reached(handles, failing))
  {
    var b := BrokerLaunched(quota);
    var reached := Reached(handles, failing);
    ViewOne(b);
    SignalEventsFacts(reached, SigKill);
    WaitEventsFacts(reached);
    ViewCons(b, SignalEvents(reached, SigKill));
  }

  /** What the re-exec parent creates when the system refuses a spawn. */
  lemma ReexecShortSpawns(cfg: Config, runClient: Option<ClientFn>, s: Setup)
    requires s.marker.NotPresent?
    requires |Selected(s.coreCount, cfg.cores)| > s.procsLeft
    ensures var run := ReexecPlan(cfg, runClient, s);
      var sel := Selected(s.coreCount, cfg.cores);
      && run.outcome == Failed(OsError) && run.procs == s.procsLeft
      && Handles(run.events) == Pids(s.nextPid, s.procsLeft) && Children(run.events) == []
      && |Markers(run.events)| == s.procsLeft
      && (forall k :: 0 <= k < s.procsLeft ==> Markers(run.events)[k] == Encode(sel[k]))
  {
    var sel := Selected(s.coreCount, cfg.cores);
    var io := ChildStdio(s.debug, cfg.stdoutFile, cfg.stderrFile);
    var spawns := ReexecSpawns(sel[..s.procsLeft], s.nextPid, cfg.launchDelay, io);
    ReexecShortSplit(cfg, runClient, s);
    assert Handles(spawns) == Pids(s.nextPid, s.procsLeft) by {
      ReexecSpawnsHandles(sel[..s.procsLeft], s.nextPid, cfg.launchDelay, io);
    }
    assert Children(spawns) == [] by {
      ReexecSpawnsQuiet(sel[..s.procsLeft], s.nextPid, cfg.launchDelay, io);
    }
    ReexecSpawnsMarkers(sel[..s.procsLeft], s.nextPid, cfg.launchDelay, io);
    forall k | 0 <= k < s.procsLeft
      ensures Markers(spawns)[k] == Encode(sel[k])
    {
      assert sel[..s.procsLeft][k] == sel[k];
    }
  }

  /** When the system refuses a spawn, the processes created are those of the granted spawns. */
  lemma ReexecShortSplit(cfg: Config, runClient: Option<ClientFn>, s: Setup)
    requires s.marker.NotPresent?
    requires |Selected(s.coreCount, cfg.cores)| > s.procsLeft
    ensures var run := ReexecPlan(cfg, runClient, s);
      var sel := Selected(s.coreCount, cfg.cores);
      var io := ChildStdio(s.debug, cfg.stdoutFile, cfg.stderrFile);
      var spawns := ReexecSpawns(sel[..s.procsLeft], s.nextPid, cfg.launchDelay, io);
      && run.outcome == Failed(OsError) && run.procs == s.procsLeft
      && Handles(run.events) == Handles(spawns) && Children(run.events) == Children(spawns)
      && Markers(run.events) == Markers(spawns)
  {
    var sel := Selected(s.coreCount, cfg.cores);
    var io := ChildStdio(s.debug, cfg.stdoutFile, cfg.stderrFile);
    var spawns := ReexecSpawns(sel[..s.procsLeft], s.nextPid, cfg.launchDelay, io);
    var pause := Slept(ReexecDelay(sel[s.procsLeft], cfg.launchDelay));
    ReexecShortShape(cfg, runClient, s);
    OwnThen(cfg, s.debug, spawns + [pause]);
    ViewSnoc(spawns, pause);
  }

  /** How long the re-exec parent sleeps when the system refuses a spawn. */
  lemma ReexecShortSleeps(cfg: Config, runClient: Option<ClientFn>, s: Setup)
    requires s.marker.NotPresent?
    requires |Selected(s.coreCount, cfg.cores)| > s.procsLeft
    ensures var run := ReexecPlan(cfg, runClient, s);
      var sel := Selected(s.coreCount, cfg.cores);
      && |Sleeps(run.events)| == s.procsLeft + 1
      && (forall k :: 0 <= k <= s.procsLeft ==> Sleeps(run.events)[k] == ReexecDelay(sel[k], cfg.launchDelay))
  {
    var sel := Selected(s.coreCount, cfg.cores);
    var io := ChildStdio(s.debug, cfg.stdoutFile, cfg.stderrFile);
    var ds := Sleeps(ReexecSpawns(sel[..s.procsLeft], s.nextPid, cfg.launchDelay, io));
    ReexecShortSleepsSplit(cfg, runClient, s);
    ReexecSpawnsSleeps(sel[..s.procsLeft], s.nextPid, cfg.launchDelay, io);
    forall k | 0 <= k < s.procsLeft
      ensures ds[k] == ReexecDelay(sel[k], cfg.launchDelay)
    {
      assert sel[..s.procsLeft][k] == sel[k];
    }
  }

  /** The refused spawn's pause comes after those of the granted spawns. */
  lemma ReexecShortSleepsSplit(cfg: Config, runClient: Option<ClientFn>, s: Setup)
    requires s.marker.NotPresent?
    requires |Selected(s.coreCount, cfg.cores)| > s.procsLeft
    ensures var sel := Selected(s.coreCount, cfg.cores);
      var io := ChildStdio(s.debug, cfg.stdoutFile, cfg.stderrFile);
      Sleeps(ReexecPlan(cfg, runClient, s).events)
        == Sleeps(ReexecSpawns(sel[..s.procsLeft], s.nextPid, cfg.launchDelay, io)) + [ReexecDelay(sel[s.procsLeft], cfg.launchDelay)]
  {
    var sel := Selected(s.coreCount, cfg.cores);
    var io := ChildStdio(s.debug, cfg.stdoutFile, cfg.stderrFile);
    var spawns := ReexecSpawns(sel[..s.procsLeft], s.nextPid, cfg.launchDelay, io);
    var pause := Slept(ReexecDelay(sel[s.procsLeft], cfg.launchDelay));
    ReexecShortShape(cfg, runClient, s);
    OwnThen(cfg, s.debug, spawns + [pause]);
    ViewSnoc(spawns, pause);
  }

  /** What the re-exec parent creates when every spawn is granted. */
  lemma ReexecFullSpawns(cfg: Config, runClient: Option<ClientFn>, s: Setup)
    requires s.marker.NotPresent? && cfg.cores != []
    requires |Selected(s.coreCount, cfg.cores)| <= s.procsLeft
    ensures var run := ReexecPlan(cfg, runClient, s);
      var sel := Selected(s.coreCount, cfg.cores);
      && run.procs == |sel|
      && Handles(run.events) == Pids(s.nextPid, |sel|) && Children(run.events) == []
      && |Markers(run.events)| == |sel|
      && (forall k :: 0 <= k < |sel| ==> Markers(run.events)[k] == Encode(sel[k]))
  {
    var sel := Selected(s.coreCount, cfg.cores);
    var io := ChildStdio(s.debug, cfg.stdoutFile, cfg.stderrFile);
    var spawns := ReexecSpawns(sel, s.nextPid, cfg.launchDelay, io);
    var end := ReexecShutdown(cfg.spawnBroker, |cfg.cores|, s.brokerFails, s.failing, Pids(s.nextPid, |sel|));
    var run := ReexecPlan(cfg, runClient, s);
    assert run.procs == |sel| && run.events == OwnOutputEvents(cfg, s.debug) + (spawns + end.events) by {
      ReexecFullShape(cfg, runClient, s);
    }
    assert Handles(run.events) == Handles(spawns) && Children(run.events) == Children(spawns)
        && Markers(run.events) == Markers(spawns) by {
      OwnThen(cfg, s.debug, spawns + end.events);
      ReexecEndingViews(cfg.spawnBroker, |cfg.cores|, s.brokerFails, s.failing, Pids(s.nextPid, |sel|));
      HandlesAppend(spawns, end.events);
      ChildrenAppend(spawns, end.events);
      MarkersAppend(spawns, end.events);
    }
    assert Handles(spawns) == Pids(s.nextPid, |sel|) by {
      ReexecSpawnsHandles(sel, s.nextPid, cfg.launchDelay, io);
    }
    assert Children(spawns) == [] by {
      ReexecSpawnsQuiet(sel, s.nextPid, cfg.launchDelay, io);
    }
    assert |Markers(spawns)| == |sel| && forall k :: 0 <= k < |sel| ==> Markers(spawns)[k] == Encode(sel[k]) by {
      ReexecSpawnsMarkers(sel, s.nextPid, cfg.launchDelay, io);
    }
  }

  /** How long the re-exec parent sleeps when every spawn is granted. */
  lemma ReexecFullSleeps(cfg: Config, runClient: Option<ClientFn>, s: Setup)
    requires s.marker.NotPresent? && cfg.cores != []
    requires |Selected(s.coreCount, cfg.cores)| <= s.procsLeft
    ensures var run := ReexecPlan(cfg, runClient, s);
      var sel := Selected(s.coreCount, cfg.cores);
      && |Sleeps(run.events)| == |sel|
      && (forall k :: 0 <= k < |sel| ==> Sleeps(run.events)[k] == ReexecDelay(sel[k], cfg.launchDelay))
  {
    var sel := Selected(s.coreCount, cfg.cores);
    var io := ChildStdio(s.debug, cfg.stdoutFile, cfg.stderrFile);
    var spawns := ReexecSpawns(sel, s.nextPid, cfg.launchDelay, io);
    var end := ReexecShutdown(cfg.spawnBroker, |cfg.cores|, s.brokerFails, s.failing, Pids(s.nextPid, |sel|));
    assert Sleeps(ReexecPlan(cfg, runClient, s).events) == Sleeps(spawns) by {
      ReexecFullShape(cfg, runClient, s);
      OwnThen(cfg, s.debug, spawns + end.events);
      ReexecEndingViews(cfg.spawnBroker, |cfg.cores|, s.brokerFails, s.failing, Pids(s.nextPid, |sel|));
      SleepsAppend(spawns, end.events);
    }
    ReexecSpawnsSleeps(sel, s.nextPid, cfg.launchDelay, io);
  }

  /**
   * The re-exec parent spawns one copy per selected core, in increasing core
   * order, as long as the system grants spawns, each marked with its core id;
   * nothing is forked.
   */
  lemma ReexecPlanSpawns(cfg: Config, runClient: Option<ClientFn>, s: Setup)
    requires s.marker.NotPresent?
    ensures var run := ReexecPlan(cfg, runClient, s);
      var sel := Selected(s.coreCount, cfg.cores);
      var n := Min(|sel|, s.procsLeft);
      && run.procs == n
      && Handles(run.events) == Pids(s.nextPid, n)
      && Children(run.events) == []
      && |Markers(run.events)| == n
      && (forall k :: 0 <= k < n ==> Markers(run.events)[k] == Encode(sel[k]))
  {
    var sel := Selected(s.coreCount, cfg.cores);
    if |sel| > s.procsLeft {
      ReexecShortSpawns(cfg, runClient, s);
    } else if cfg.cores == [] {
      ReexecEmptyCores(cfg, runClient, s);
      SelectedOfNothing(s.coreCount);
    } else {
      ReexecFullSpawns(cfg, runClient, s);
    }
  }

  /**
   * Before each spawn the parent sleeps id * launch_delay ms, so core 0
   * starts without delay and the sleeps add up; a refused spawn ends the
   * launch with an error right after that core's sleep.
   */
  lemma ReexecPlanSleeps(cfg: Config, runClient: Option<ClientFn>, s: Setup)
    requires s.marker.NotPresent?
    ensures var run := ReexecPlan(cfg, runClient, s);
      var sel := Selected(s.coreCount, cfg.cores);
      && |Sleeps(run.events)| == (if |sel| > s.procsLeft then s.procsLeft + 1 else |sel|)
      && (forall k :: 0 <= k < |Sleeps(run.events)| ==> Sleeps(run.events)[k] == ReexecDelay(sel[k], cfg.launchDelay))
      && (|sel| > s.procsLeft ==> run.outcome == Failed(OsError))
  {
    var sel := Selected(s.coreCount, cfg.cores);
    if |sel| > s.procsLeft {
      ReexecShortSleeps(cfg, runClient, s);
      ReexecShortSpawns(cfg, runClient, s);
    } else if cfg.cores == [] {
      ReexecEmptyCores(cfg, runClient, s);
      SelectedOfNothing(s.coreCount);
    } else {
      ReexecFullSleeps(cfg, runClient, s);
    }
  }

  /**
   * Each spawned copy finds the marker its parent wrote and becomes the
   * client of exactly the core it was spawned for, whatever else its own
   * configuration says.
   */
  lemma ReexecMarkerRoundTrip(cfg: Config, runClient: Option<ClientFn>, s: Setup, k: nat,
                              childCfg: Config, f: ClientFn, child: Setup)
    requires s.marker.NotPresent? && s.coreCount <= UsizeMax
    requires k < |Markers(ReexecPlan(cfg, runClient, s).events)|
    requires child.marker == Present(Markers(ReexecPlan(cfg, runClient, s).events)[k])
    ensures k < |Selected(s.coreCount, cfg.cores)|
    ensures ReexecPlan(childCfg, Some(f), child) == Run(BecomesClient(Selected(s.coreCount, cfg.cores)[k], f), [], 0)
  {
    var sel := Selected(s.coreCount, cfg.cores);
    ReexecPlanSpawns(cfg, runClient, s);
    SelectedFacts(s.coreCount, cfg.cores);
    MarkerRoundTrip(sel[k]);
  }

  /**
   * With every spawn granted and a non-empty core list: the broker's quota
   * is the requested length; after the broker returns, the children are
   * killed in spawn order until the first kill that fails, whose error is
   * returned; without a broker they are waited for the same way. A failing
   * broker is returned before any kill.
   */
  lemma ReexecPlanShutdown(cfg: Config, runClient: Option<ClientFn>, s: Setup)
    requires s.marker.NotPresent? && cfg.cores != []
    requires |Selected(s.coreCount, cfg.cores)| <= s.procsLeft
    ensures var run := ReexecPlan(cfg, runClient, s);
      var handles := Handles(run.events);
      var stuck := FirstFailing(handles, s.failing) < |handles|;
      && Distinct(handles)
      && BrokerQuotas(run.events) == (if cfg.spawnBroker then [|cfg.cores|] else [])
      && (cfg.spawnBroker && s.brokerFails ==>
            run.outcome == Failed(BrokerError) && SignalledPids(run.events) == [] && WaitedPids(run.events) == [])
      && (cfg.spawnBroker && !s.brokerFails ==>
            && SignalledPids(run.events) == Reached(handles, s.failing) && WaitedPids(run.events) == []
            && run.outcome == (if stuck then Failed(OsError) else Finished))
      && (!cfg.spawnBroker ==>
            && WaitedPids(run.events) == Reached(handles, s.failing) && SignalledPids(run.events) == []
            && run.outcome == (if stuck then Failed(OsError) else Finished))
  {
    var sel := Selected(s.coreCount, cfg.cores);
    var io := ChildStdio(s.debug, cfg.stdoutFile, cfg.stderrFile);
    var spawns := ReexecSpawns(sel, s.nextPid, cfg.launchDelay, io);
    var end := ReexecShutdown(cfg.spawnBroker, |cfg.cores|, s.brokerFails, s.failing, Pids(s.nextPid, |sel|));
    var run := ReexecPlan(cfg, runClient, s);
    assert run.outcome == end.outcome && run.events == OwnOutputEvents(cfg, s.debug) + (spawns + end.events) by {
      ReexecFullShape(cfg, runClient, s);
    }
    assert Handles(run.events) == Pids(s.nextPid, |sel|) by {
      ReexecFullSpawns(cfg, runClient, s);
    }
    assert SignalledPids(run.events) == SignalledPids(end.events) && WaitedPids(run.events) == WaitedPids(end.events)
        && BrokerQuotas(run.events) == BrokerQuotas(end.events) by {
      OwnThen(cfg, s.debug, spawns + end.events);
      ReexecSpawnsQuiet(sel, s.nextPid, cfg.launchDelay, io);
      SignalledPidsAppend(spawns, end.events);
      WaitedPidsAppend(spawns, end.events);
      BrokerQuotasAppend(spawns, end.events);
    }
    ReexecEndingViews(cfg.spawnBroker, |cfg.cores|, s.brokerFails, s.failing, Pids(s.nextPid, |sel|));
    PidsDistinct(s.nextPid, |sel|);
  }

  /**
   * With every spawn granted, a non-empty core list and a broker that
   * returns: the parent's own output set-up, the pauses and spawns, the
   * broker, then SIGKILL to the children in spawn order up to the first
   * kill that fails.
   */
  lemma ReexecPlanBrokerThenKills(cfg: Config, runClient: Option<ClientFn>, s: Setup)
    requires s.marker.NotPresent? && cfg.cores != [] && cfg.spawnBroker && !s.brokerFails
    requires |Selected(s.coreCount, cfg.cores)| <= s.procsLeft
    ensures var sel := Selected(s.coreCount, cfg.cores);
      var io := ChildStdio(s.debug, cfg.stdoutFile, cfg.stderrFile);
      ReexecPlan(cfg, runClient, s).events
        == OwnOutputEvents(cfg, s.debug) + ReexecSpawns(sel, s.nextPid, cfg.launchDelay, io)
           + [BrokerLaunched(|cfg.cores|)] + SignalEvents(Reached(Pids(s.nextPid, |sel|), s.failing), SigKill)
  {
    var sel := Selected(s.coreCount, cfg.cores);
    var io := ChildStdio(s.debug, cfg.stdoutFile, cfg.stderrFile);
    var own := OwnOutputEvents(cfg, s.debug);
    var spawns := ReexecSpawns(sel, s.nextPid, cfg.launchDelay, io);
    var b := BrokerLaunched(|cfg.cores|);
    var kills := SignalEvents(Reached(Pids(s.nextPid, |sel|), s.failing), SigKill);
    assert ReexecPlan(cfg, runClient, s).events == own + (spawns + ([b] + kills)) by {
      ReexecFullShape(cfg, runClient, s);
    }
    AppendAssoc(own, spawns, [b] + kills);
    AppendAssoc(own + spawns, [b], kills);
  }

  /** The SIGKILLs are the last events and come right after the broker has returned. */
  lemma ReexecPlanKillsAfterBroker(cfg: Config, runClient: Option<ClientFn>, s: Setup)
    requires s.marker.NotPresent? && cfg.cores != [] && cfg.spawnBroker && !s.brokerFails
    requires |Selected(s.coreCount, cfg.cores)| <= s.procsLeft
    ensures var run := ReexecPlan(cfg, runClient, s);
      var killed := Reached(Handles(run.events), s.failing);
      && |killed| < |run.events|
      && run.events[|run.events| - |killed| - 1] == BrokerLaunched(|cfg.cores|)
      && run.events[|run.events| - |killed|..] == SignalEvents(killed, SigKill)
  {
    var sel := Selected(s.coreCount, cfg.cores);
    var io := ChildStdio(s.debug, cfg.stdoutFile, cfg.stderrFile);
    var front := OwnOutputEvents(cfg, s.debug) + ReexecSpawns(sel, s.nextPid, cfg.launchDelay, io) + [BrokerLaunched(|cfg.cores|)];
    var killed := Reached(Pids(s.nextPid, |sel|), s.failing);
    assert Handles(ReexecPlan(cfg, runClient, s).events) == Pids(s.nextPid, |sel|) by {
      ReexecFullSpawns(cfg, runClient, s);
    }
    ReexecPlanBrokerThenKills(cfg, runClient, s);
    PartsOfAppend(front, SignalEvents(killed, SigKill));
  }

  /**
   * A loop that stops at the first error reaches a prefix of the handles:
   * all of them when none fails, and otherwise exactly those up to and
   * including the first failing one.
   */
  lemma {:induction false} ReachedStopsAtFirstFailure(handles: seq<Pid>, failing: set<Pid>)
    ensures var r := Reached(handles, failing);
      && |r| <= |handles| && r == handles[..|r|]
      && ((forall k :: 0 <= k < |handles| ==> handles[k] !in failing) <==> FirstFailing(handles, failing) == |handles|)
      && ((forall k :: 0 <= k < |handles| ==> handles[k] !in failing) ==> r == handles)
      && ((exists k :: 0 <= k < |handles| && handles[k] in failing) ==>
            && |r| > 0 && r[|r| - 1] in failing
            && forall k :: 0 <= k < |r| - 1 ==> r[k] !in failing)
  {
    var r := Reached(handles, failing);
    var n := FirstFailing(handles, failing);
    if n == |handles| {
      assert r == handles[..|handles|];
    }
  }
}
