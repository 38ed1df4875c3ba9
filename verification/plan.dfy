/**
 * Reference definitions of the three launch operations, as functions from
 * the launcher's configuration and the host's state to the outcome and the
 * events the launch causes in the calling process, and the properties of
 * those plans.
 */
module Plan {
  import opened Wrappers
  import opened Topology
  import opened ClientMarker
  import opened Host

  /** What a launcher is configured with; read-only once a launch starts. */
  datatype Config = Config(
    cores: seq<CoreId>,        // cores.ids, in the caller's order, possibly with repeats
    stdoutFile: Option<Path>,
    stderrFile: Option<Path>,
    launchDelay: nat,          // milliseconds
    spawnBroker: bool)

  /** How a launch ends, what it does on the way, and how many processes it creates. */
  datatype Run = Run(outcome: Outcome, events: seq<Event>, procs: nat)

  /** The centralized launcher's fixed pause after forking its broker, in ms. */
  const CentralizedBrokerPause: nat := 10

  function Min(a: nat, b: nat): nat
  {
    if a <= b then a else b
  }

  function Pids(first: Pid, n: nat): (ps: seq<Pid>)
    ensures |ps| == n
    ensures forall k :: 0 <= k < n ==> ps[k] == first + k
    decreases n
  {
    if n == 0 then [] else [first] + Pids(first + 1, n - 1)
  }

  /** The output files, created stdout first, each only when configured. */
  function OpenEvents(cfg: Config): seq<Event>
  {
    (if cfg.stdoutFile.Some? then [FileCreated(cfg.stdoutFile.value)] else [])
    + (if cfg.stderrFile.Some? then [FileCreated(cfg.stderrFile.value)] else [])
  }

  function RedirectEvents(dups: seq<Dup2>): (es: seq<Event>)
    ensures |es| == |dups|
    ensures forall i :: 0 <= i < |es| ==> es[i] == Redirected(dups[i])
  {
    if |dups| == 0 then [] else [Redirected(dups[0])] + RedirectEvents(dups[1..])
  }

  function SignalEvents(handles: seq<Pid>, sig: Signal): (es: seq<Event>)
    ensures |es| == |handles|
  {
    if |handles| == 0 then [] else [Signalled(handles[0], sig)] + SignalEvents(handles[1..], sig)
  }

  function WaitEvents(handles: seq<Pid>): seq<Event>
  {
    if |handles| == 0 then [] else [Waited(handles[0])] + WaitEvents(handles[1..])
  }

  /** One fork per selected core, the k-th (from 0) getting handle `first + k` and spawn index `index + k`. */
  function ClientForks(sel: seq<CoreId>, machine: seq<CoreId>, first: Pid, index: nat, fl: Flavour, launchDelay: nat, dups: seq<Dup2>): seq<Event>
  {
    if |sel| == 0 then []
    else
      [Forked(first, ClientContinuation(fl, BoundCore(machine, sel[0]), index, launchDelay, dups))]
      + ClientForks(sel[1..], machine, first + 1, index + 1, fl, launchDelay, dups)
  }

  /**
   * The ending of the forking launchers: with a broker, run it and, once it
   * has returned, send SIGINT to every handle; without one, wait for every
   * handle. The results of `kill` and `waitpid` are ignored.
   */
  function ForkShutdown(spawnBroker: bool, quota: nat, brokerFails: bool, handles: seq<Pid>): Run
  {
    if spawnBroker then
      if brokerFails then Run(Failed(BrokerError), [BrokerLaunched(quota)], 0)
      else Run(Finished, [BrokerLaunched(quota)] + SignalEvents(handles, SigInt), 0)
    else Run(Finished, WaitEvents(handles), 0)
  }

  /**
   * The client loop of a forking launcher followed by its ending. `before`
   * holds the handles recorded before the loop; `left` is how many more
   * forks the system allows.
   */
  function ClientsThenShutdown(cfg: Config, fl: Flavour, s: Setup, first: Pid, left: nat, before: seq<Pid>, dups: seq<Dup2>): Run
  {
    var sel := Selected(s.coreCount, cfg.cores);
    if |sel| > left then
      Run(Failed(OsError), ClientForks(sel[..left], s.coreIds, first, 1, fl, cfg.launchDelay, dups), left)
    else
      var end := ForkShutdown(cfg.spawnBroker, |cfg.cores|, s.brokerFails, before + Pids(first, |sel|));
      Run(end.outcome, ClientForks(sel, s.coreIds, first, 1, fl, cfg.launchDelay, dups) + end.events, |sel|)
  }

  /** The client loop reads only the machine's cores and the broker's fate from the host's state. */
  lemma ClientsThenShutdownReads(cfg: Config, fl: Flavour, s: Setup, t: Setup, first: Pid, left: nat, before: seq<Pid>, dups: seq<Dup2>)
    requires s.coreIds == t.coreIds && s.brokerFails == t.brokerFails
    ensures ClientsThenShutdown(cfg, fl, s, first, left, before, dups) == ClientsThenShutdown(cfg, fl, t, first, left, before, dups)
  {
  }

  /** `Launcher::launch_with_hooks` where the platform can fork. */
  function ForkPlan(cfg: Config, runClient: Option<ClientFn>, s: Setup): Run
  {
    if cfg.cores == [] then Run(Failed(NoCoresGiven), [], 0)
    else if runClient.None? then Run(Failed(NoClientCallback), [], 0)
    else
      var dups := Redirects(s.debug, Opened(cfg.stdoutFile), Opened(cfg.stderrFile));
      var rest := ClientsThenShutdown(cfg, Plain(runClient.value), s, s.nextPid, s.procsLeft, [], dups);
      Run(rest.outcome, OpenEvents(cfg) + rest.events, rest.procs)
  }

  /**
   * After the output files exist: fork the centralized broker, pause, then
   * fork the clients and finish as the fork path does.
   */
  function CentralizedForks(cfg: Config, centralizedPort: nat, fl: Flavour, s: Setup): Run
  {
    if s.procsLeft == 0 then Run(Failed(OsError), [], 0)
    else
      var dups := Redirects(s.debug, Opened(cfg.stdoutFile), Opened(cfg.stderrFile));
      var central := s.nextPid;
      var rest := ClientsThenShutdown(cfg, fl, s, central + 1, s.procsLeft - 1, [central], dups);
      Run(rest.outcome,
          [Forked(central, CentralizedBrokerChild(centralizedPort)), Slept(CentralizedBrokerPause)] + rest.events,
          rest.procs + 1)
  }

  /** `CentralizedLauncher::launch_generic`. */
  function CentralizedPlan(cfg: Config, centralizedPort: nat, mainRunClient: Option<ClientFn>,
                           secondaryRunClient: Option<ClientFn>, s: Setup): Run
  {
    if cfg.cores == [] then Run(Failed(NoCoresGiven), [], 0)
    else if secondaryRunClient.None? then Run(Failed(NoClientCallback), [], 0)
    else
      var rest := CentralizedForks(cfg, centralizedPort, Centralized(mainRunClient, secondaryRunClient.value), s);
      Run(rest.outcome, OpenEvents(cfg) + rest.events, rest.procs)
  }

  // ----- The re-exec path -----

  /** Per selected core: sleep `id * launch_delay`, then spawn a copy marked with the id. */
  function ReexecSpawns(sel: seq<CoreId>, first: Pid, launchDelay: nat, io: Stdio): seq<Event>
  {
    if |sel| == 0 then []
    else
      [Slept(ReexecDelay(sel[0], launchDelay)), Spawned(first, Encode(sel[0]), io, io)]
      + ReexecSpawns(sel[1..], first + 1, launchDelay, io)
  }

  /** The position of the first handle the system fails on, or the length if none. */
  function FirstFailing(handles: seq<Pid>, failing: set<Pid>): (n: nat)
    ensures n <= |handles|
    ensures forall k :: 0 <= k < n ==> handles[k] !in failing
    ensures n < |handles| ==> handles[n] in failing
  {
    if |handles| == 0 || handles[0] in failing then 0
    else 1 + FirstFailing(handles[1..], failing)
  }

  /** The handles a loop that stops at the first error reaches, that one included. */
  function Reached(handles: seq<Pid>, failing: set<Pid>): seq<Pid>
  {
    var n := FirstFailing(handles, failing);
    if n < |handles| then handles[..n + 1] else handles
  }

  /**
   * The ending of the re-exec launcher: like the forking one, but each
   * child is killed (SIGKILL) or waited for in turn and the first error
   * stops the loop and is returned.
   */
  function ReexecShutdown(spawnBroker: bool, quota: nat, brokerFails: bool, failing: set<Pid>, handles: seq<Pid>): Run
  {
    var outcome := if FirstFailing(handles, failing) < |handles| then Failed(OsError) else Finished;
    if spawnBroker then
      if brokerFails then Run(Failed(BrokerError), [BrokerLaunched(quota)], 0)
      else Run(outcome, [BrokerLaunched(quota)] + SignalEvents(Reached(handles, failing), SigKill), 0)
    else Run(outcome, WaitEvents(Reached(handles, failing)), 0)
  }

  /** What the re-exec parent does to its own stdio before spawning. */
  function OwnOutputEvents(cfg: Config, debug: bool): seq<Event>
  {
    (if debug then [] else OpenEvents(cfg))
    + RedirectEvents(Redirects(debug, Opened(cfg.stdoutFile), Opened(cfg.stderrFile)))
  }

  /**
   * The re-exec parent after its own output set-up: the spawn loop, the
   * late check for an empty core list, then the ending.
   */
  function ReexecClientsThenShutdown(cfg: Config, s: Setup): Run
  {
    var io := ChildStdio(s.debug, cfg.stdoutFile, cfg.stderrFile);
    var sel := Selected(s.coreCount, cfg.cores);
    if |sel| > s.procsLeft then
      Run(Failed(OsError),
          ReexecSpawns(sel[..s.procsLeft], s.nextPid, cfg.launchDelay, io)
          + [Slept(ReexecDelay(sel[s.procsLeft], cfg.launchDelay))],
          s.procsLeft)
    else if cfg.cores == [] then Run(Failed(NoCoresGiven), [], 0)
    else
      var end := ReexecShutdown(cfg.spawnBroker, |cfg.cores|, s.brokerFails, s.failing, Pids(s.nextPid, |sel|));
      Run(end.outcome, ReexecSpawns(sel, s.nextPid, cfg.launchDelay, io) + end.events, |sel|)
  }

  /** The re-exec launcher in the launching process, where no client marker is set. */
  function ReexecParent(cfg: Config, s: Setup): Run
  {
    var rest := ReexecClientsThenShutdown(cfg, s);
    Run(rest.outcome, OwnOutputEvents(cfg, s.debug) + rest.events, rest.procs)
  }

  /** `Launcher::launch_with_hooks` where the platform re-executes itself instead of forking. */
  function ReexecPlan(cfg: Config, runClient: Option<ClientFn>, s: Setup): Run
  {
    match s.marker
    case NotUnicode => Run(Panics, [], 0)
    case Present(v) =>
      (match Parse(v)
       case Err(e) => Run(Failed(e), [], 0)
       case Ok(core) =>
         if runClient.None? then Run(Panics, [], 0) else Run(BecomesClient(core, runClient.value), [], 0))
    case NotPresent => ReexecParent(cfg, s)
  }


  // ----- Reading plans -----

  lemma ViewCons(e: Event, a: seq<Event>)
    ensures Handles([e] + a) == HandleOf(e) + Handles(a)
    ensures Children([e] + a) == ChildOf(e) + Children(a)
    ensures SignalledPids([e] + a) == SignalOf(e) + SignalledPids(a)
    ensures WaitedPids([e] + a) == WaitOf(e) + WaitedPids(a)
    ensures BrokerQuotas([e] + a) == QuotaOf(e) + BrokerQuotas(a)
    ensures Markers([e] + a) == MarkerOf(e) + Markers(a)
    ensures Sleeps([e] + a) == SleepOf(e) + Sleeps(a)
  {
    assert ([e] + a)[1..] == a;
  }

  lemma TailOfAppend<T>(a: seq<T>, b: seq<T>)
    requires |a| > 0
    ensures (a + b)[0] == a[0] && (a + b)[1..] == a[1..] + b
  {
  }

  lemma AppendAssoc<T>(x: seq<T>, y: seq<T>, z: seq<T>)
    ensures x + (y + z) == (x + y) + z
  {
  }

  lemma PartsOfAppend<T>(x: seq<T>, y: seq<T>)
    ensures (x + y)[..|x|] == x && (x + y)[|x|..] == y
  {
  }

  lemma ShiftedIndex<T>(whole: seq<T>, x: T, rest: seq<T>)
    requires whole == [x] + rest
    ensures |whole| == |rest| + 1 && whole[0] == x
    ensures forall k :: 0 <= k < |rest| ==> whole[k + 1] == rest[k]
  {
  }

  /** Handles handed out one after another are all different. */
  lemma PidsDistinct(first: Pid, n: nat)
    ensures Distinct(Pids(first, n))
  {
  }

  lemma {:induction false} HandlesAppend(a: seq<Event>, b: seq<Event>)
    ensures Handles(a + b) == Handles(a) + Handles(b)
  {
    if |a| == 0 {
      assert a + b == b;
    } else {
      HandlesAppend(a[1..], b);
      TailOfAppend(a, b);
      AppendAssoc(HandleOf(a[0]), Handles(a[1..]), Handles(b));
    }
  }

  lemma {:induction false} ChildrenAppend(a: seq<Event>, b: seq<Event>)
    ensures Children(a + b) == Children(a) + Children(b)
  {
    if |a| == 0 {
      assert a + b == b;
    } else {
      ChildrenAppend(a[1..], b);
      TailOfAppend(a, b);
      AppendAssoc(ChildOf(a[0]), Children(a[1..]), Children(b));
    }
  }

  lemma {:induction false} SignalledPidsAppend(a: seq<Event>, b: seq<Event>)
    ensures SignalledPids(a + b) == SignalledPids(a) + SignalledPids(b)
  {
    if |a| == 0 {
      assert a + b == b;
    } else {
      SignalledPidsAppend(a[1..], b);
      TailOfAppend(a, b);
      AppendAssoc(SignalOf(a[0]), SignalledPids(a[1..]), SignalledPids(b));
    }
  }

  lemma {:induction false} WaitedPidsAppend(a: seq<Event>, b: seq<Event>)
    ensures WaitedPids(a + b) == WaitedPids(a) + WaitedPids(b)
  {
    if |a| == 0 {
      assert a + b == b;
    } else {
      WaitedPidsAppend(a[1..], b);
      TailOfAppend(a, b);
      AppendAssoc(WaitOf(a[0]), WaitedPids(a[1..]), WaitedPids(b));
    }
  }

  lemma {:induction false} BrokerQuotasAppend(a: seq<Event>, b: seq<Event>)
    ensures BrokerQuotas(a + b) == BrokerQuotas(a) + BrokerQuotas(b)
  {
    if |a| == 0 {
      assert a + b == b;
    } else {
      BrokerQuotasAppend(a[1..], b);
      TailOfAppend(a, b);
      AppendAssoc(QuotaOf(a[0]), BrokerQuotas(a[1..]), BrokerQuotas(b));
    }
  }

  lemma {:induction false} MarkersAppend(a: seq<Event>, b: seq<Event>)
    ensures Markers(a + b) == Markers(a) + Markers(b)
  {
    if |a| == 0 {
      assert a + b == b;
    } else {
      MarkersAppend(a[1..], b);
      TailOfAppend(a, b);
      AppendAssoc(MarkerOf(a[0]), Markers(a[1..]), Markers(b));
    }
  }

  lemma {:induction false} SleepsAppend(a: seq<Event>, b: seq<Event>)
    ensures Sleeps(a + b) == Sleeps(a) + Sleeps(b)
  {
    if |a| == 0 {
      assert a + b == b;
    } else {
      SleepsAppend(a[1..], b);
      TailOfAppend(a, b);
      AppendAssoc(SleepOf(a[0]), Sleeps(a[1..]), Sleeps(b));
    }
  }

  /** Every view of a concatenation is the concatenation of the views. */
  lemma ViewAppend(a: seq<Event>, b: seq<Event>)
    ensures Handles(a + b) == Handles(a) + Handles(b)
    ensures Children(a + b) == Children(a) + Children(b)
    ensures SignalledPids(a + b) == SignalledPids(a) + SignalledPids(b)
    ensures WaitedPids(a + b) == WaitedPids(a) + WaitedPids(b)
    ensures BrokerQuotas(a + b) == BrokerQuotas(a) + BrokerQuotas(b)
    ensures Markers(a + b) == Markers(a) + Markers(b)
    ensures Sleeps(a + b) == Sleeps(a) + Sleeps(b)
  {
    HandlesAppend(a, b);
    ChildrenAppend(a, b);
    SignalledPidsAppend(a, b);
    WaitedPidsAppend(a, b);
    BrokerQuotasAppend(a, b);
    MarkersAppend(a, b);
    SleepsAppend(a, b);
  }

  /** The views of a trace with nothing in it but `e`. */
  lemma ViewOne(e: Event)
    ensures Handles([e]) == HandleOf(e) && Children([e]) == ChildOf(e)
    ensures SignalledPids([e]) == SignalOf(e) && WaitedPids([e]) == WaitOf(e)
    ensures BrokerQuotas([e]) == QuotaOf(e) && Markers([e]) == MarkerOf(e) && Sleeps([e]) == SleepOf(e)
  {
    ViewCons(e, []);
    assert [e] + [] == [e];
  }

  lemma ViewSnoc(a: seq<Event>, e: Event)
    ensures Handles(a + [e]) == Handles(a) + HandleOf(e)
    ensures Children(a + [e]) == Children(a) + ChildOf(e)
    ensures SignalledPids(a + [e]) == SignalledPids(a) + SignalOf(e)
    ensures WaitedPids(a + [e]) == WaitedPids(a) + WaitOf(e)
    ensures BrokerQuotas(a + [e]) == BrokerQuotas(a) + QuotaOf(e)
    ensures Markers(a + [e]) == Markers(a) + MarkerOf(e)
    ensures Sleeps(a + [e]) == Sleeps(a) + SleepOf(e)
  {
    ViewAppend(a, [e]);
    ViewOne(e);
  }

  lemma OpenEventsInert(cfg: Config)
    ensures forall i :: 0 <= i < |OpenEvents(cfg)| ==> Inert(OpenEvents(cfg)[i])
  {
  }

  lemma OwnEventsInert(cfg: Config, debug: bool)
    ensures forall i :: 0 <= i < |OwnOutputEvents(cfg, debug)| ==> Inert(OwnOutputEvents(cfg, debug)[i])
  {
    var dups := Redirects(debug, Opened(cfg.stdoutFile), Opened(cfg.stderrFile));
    var own := OwnOutputEvents(cfg, debug);
    var files := if debug then [] else OpenEvents(cfg);
    OpenEventsInert(cfg);
    forall i | 0 <= i < |own|
      ensures Inert(own[i])
    {
      if i >= |files| {
        assert own[i] == RedirectEvents(dups)[i - |files|];
      }
    }
  }

  /** Events that only touch files and the process's own stdio change no view of what follows them. */
  lemma AfterInert(a: seq<Event>, b: seq<Event>)
    requires forall i :: 0 <= i < |a| ==> Inert(a[i])
    ensures Handles(a + b) == Handles(b) && Children(a + b) == Children(b)
    ensures SignalledPids(a + b) == SignalledPids(b) && WaitedPids(a + b) == WaitedPids(b)
    ensures BrokerQuotas(a + b) == BrokerQuotas(b) && Markers(a + b) == Markers(b) && Sleeps(a + b) == Sleeps(b)
  {
    InertViews(a);
    ViewAppend(a, b);
  }

  lemma {:induction false} ClientForksHandles(sel: seq<CoreId>, machine: seq<CoreId>, first: Pid, index: nat, fl: Flavour, launchDelay: nat, dups: seq<Dup2>)
    ensures Handles(ClientForks(sel, machine, first, index, fl, launchDelay, dups)) == Pids(first, |sel|)
  {
    if sel != [] {
      ClientForksHandles(sel[1..], machine, first + 1, index + 1, fl, launchDelay, dups);
      ViewCons(Forked(first, ClientContinuation(fl, BoundCore(machine, sel[0]), index, launchDelay, dups)),
               ClientForks(sel[1..], machine, first + 1, index + 1, fl, launchDelay, dups));
    }
  }

  lemma {:induction false} ClientForksChildren(sel: seq<CoreId>, machine: seq<CoreId>, first: Pid, index: nat, fl: Flavour, launchDelay: nat, dups: seq<Dup2>)
    ensures var kids := Children(ClientForks(sel, machine, first, index, fl, launchDelay, dups));
      && |kids| == |sel|
      && forall k :: 0 <= k < |sel| ==> kids[k] == ClientContinuation(fl, BoundCore(machine, sel[k]), index + k, launchDelay, dups)
  {
    if sel != [] {
      var tail := ClientForks(sel[1..], machine, first + 1, index + 1, fl, launchDelay, dups);
      var head := ClientContinuation(fl, BoundCore(machine, sel[0]), index, launchDelay, dups);
      ClientForksChildren(sel[1..], machine, first + 1, index + 1, fl, launchDelay, dups);
      var kids := Children(ClientForks(sel, machine, first, index, fl, launchDelay, dups));
      assert kids == [head] + Children(tail) by {
        assert ClientForks(sel, machine, first, index, fl, launchDelay, dups) == [Forked(first, head)] + tail;
        assert ([Forked(first, head)] + tail)[1..] == tail;
      }
      forall k | 1 <= k < |sel|
        ensures kids[k] == ClientContinuation(fl, BoundCore(machine, sel[k]), index + k, launchDelay, dups)
      {
        assert kids[k] == Children(tail)[k - 1];
        assert sel[1..][k - 1] == sel[k] && index + 1 + (k - 1) == index + k;
      }
    }
  }

  lemma {:induction false} ClientForksQuiet(sel: seq<CoreId>, machine: seq<CoreId>, first: Pid, index: nat, fl: Flavour, launchDelay: nat, dups: seq<Dup2>)
    ensures var es := ClientForks(sel, machine, first, index, fl, launchDelay, dups);
      && SignalledPids(es) == [] && WaitedPids(es) == [] && BrokerQuotas(es) == []
      && Markers(es) == [] && Sleeps(es) == []
  {
    if sel != [] {
      ClientForksQuiet(sel[1..], machine, first + 1, index + 1, fl, launchDelay, dups);
      ViewCons(Forked(first, ClientContinuation(fl, BoundCore(machine, sel[0]), index, launchDelay, dups)),
               ClientForks(sel[1..], machine, first + 1, index + 1, fl, launchDelay, dups));
    }
  }

  lemma ClientForksFacts(sel: seq<CoreId>, machine: seq<CoreId>, first: Pid, index: nat, fl: Flavour, launchDelay: nat, dups: seq<Dup2>)
    ensures var es := ClientForks(sel, machine, first, index, fl, launchDelay, dups);
      && Handles(es) == Pids(first, |sel|)
      && |Children(es)| == |sel|
      && (forall k :: 0 <= k < |sel| ==> Children(es)[k] == ClientContinuation(fl, BoundCore(machine, sel[k]), index + k, launchDelay, dups))
      && SignalledPids(es) == [] && WaitedPids(es) == [] && BrokerQuotas(es) == []
      && Markers(es) == [] && Sleeps(es) == []
  {
    ClientForksHandles(sel, machine, first, index, fl, launchDelay, dups);
    ClientForksChildren(sel, machine, first, index, fl, launchDelay, dups);
    ClientForksQuiet(sel, machine, first, index, fl, launchDelay, dups);
  }

  lemma {:induction false} SignalEventsFacts(handles: seq<Pid>, sig: Signal)
    ensures var es := SignalEvents(handles, sig);
      && SignalledPids(es) == handles
      && Handles(es) == [] && Children(es) == [] && WaitedPids(es) == [] && BrokerQuotas(es) == []
      && Markers(es) == [] && Sleeps(es) == []
  {
    if handles != [] {
      SignalEventsFacts(handles[1..], sig);
      ViewCons(Signalled(handles[0], sig), SignalEvents(handles[1..], sig));
    }
  }

  lemma {:induction false} WaitEventsFacts(handles: seq<Pid>)
    ensures var es := WaitEvents(handles);
      && WaitedPids(es) == handles
      && Handles(es) == [] && Children(es) == [] && SignalledPids(es) == [] && BrokerQuotas(es) == []
      && Markers(es) == [] && Sleeps(es) == []
  {
    if handles != [] {
      WaitEventsFacts(handles[1..]);
      ViewCons(Waited(handles[0]), WaitEvents(handles[1..]));
    }
  }

  /** The views of a trace that starts with `e1` and `e2`. */
  lemma ViewPair(e1: Event, e2: Event, a: seq<Event>)
    ensures Handles([e1, e2] + a) == HandleOf(e1) + (HandleOf(e2) + Handles(a))
    ensures Children([e1, e2] + a) == ChildOf(e1) + (ChildOf(e2) + Children(a))
    ensures SignalledPids([e1, e2] + a) == SignalOf(e1) + (SignalOf(e2) + SignalledPids(a))
    ensures WaitedPids([e1, e2] + a) == WaitOf(e1) + (WaitOf(e2) + WaitedPids(a))
    ensures BrokerQuotas([e1, e2] + a) == QuotaOf(e1) + (QuotaOf(e2) + BrokerQuotas(a))
    ensures Markers([e1, e2] + a) == MarkerOf(e1) + (MarkerOf(e2) + Markers(a))
    ensures Sleeps([e1, e2] + a) == SleepOf(e1) + (SleepOf(e2) + Sleeps(a))
  {
    assert ([e1, e2] + a)[1..] == [e2] + a;
    ViewCons(e2, a);
  }

  lemma {:induction false} ReexecSpawnsHandles(sel: seq<CoreId>, first: Pid, launchDelay: nat, io: Stdio)
    ensures Handles(ReexecSpawns(sel, first, launchDelay, io)) == Pids(first, |sel|)
  {
    if sel != [] {
      ReexecSpawnsHandles(sel[1..], first + 1, launchDelay, io);
      ViewPair(Slept(ReexecDelay(sel[0], launchDelay)), Spawned(first, Encode(sel[0]), io, io),
               ReexecSpawns(sel[1..], first + 1, launchDelay, io));
    }
  }

  /** The markers of the cores in `sel`, in order. */
  function EncodeAll(sel: seq<CoreId>): seq<string>
  {
    if |sel| == 0 then [] else [Encode(sel[0])] + EncodeAll(sel[1..])
  }

  lemma {:induction false} EncodeAllAt(sel: seq<CoreId>, k: nat)
    requires k < |sel|
    ensures |EncodeAll(sel)| == |sel| && EncodeAll(sel)[k] == Encode(sel[k])
  {
    if k > 0 {
      EncodeAllAt(sel[1..], k - 1);
    } else if |sel| > 1 {
      EncodeAllAt(sel[1..], 0);
    }
  }

  lemma {:induction false} ReexecSpawnsEncoded(sel: seq<CoreId>, first: Pid, launchDelay: nat, io: Stdio)
    ensures Markers(ReexecSpawns(sel, first, launchDelay, io)) == EncodeAll(sel)
  {
    if sel != [] {
      ReexecSpawnsEncoded(sel[1..], first + 1, launchDelay, io);
      ViewPair(Slept(ReexecDelay(sel[0], launchDelay)), Spawned(first, Encode(sel[0]), io, io),
               ReexecSpawns(sel[1..], first + 1, launchDelay, io));
    }
  }

  lemma ReexecSpawnsMarkers(sel: seq<CoreId>, first: Pid, launchDelay: nat, io: Stdio)
    ensures var ms := Markers(ReexecSpawns(sel, first, launchDelay, io));
      |ms| == |sel| && forall k :: 0 <= k < |sel| ==> ms[k] == Encode(sel[k])
  {
    ReexecSpawnsEncoded(sel, first, launchDelay, io);
    if sel != [] {
      EncodeAllAt(sel, 0);
    }
    forall k | 0 <= k < |sel|
      ensures EncodeAll(sel)[k] == Encode(sel[k])
    {
      EncodeAllAt(sel, k);
    }
  }

  lemma {:induction false} ReexecSpawnsSleeps(sel: seq<CoreId>, first: Pid, launchDelay: nat, io: Stdio)
    ensures var ds := Sleeps(ReexecSpawns(sel, first, launchDelay, io));
      |ds| == |sel| && forall k :: 0 <= k < |sel| ==> ds[k] == ReexecDelay(sel[k], launchDelay)
  {
    if sel != [] {
      ReexecSpawnsSleeps(sel[1..], first + 1, launchDelay, io);
      ViewPair(Slept(ReexecDelay(sel[0], launchDelay)), Spawned(first, Encode(sel[0]), io, io),
               ReexecSpawns(sel[1..], first + 1, launchDelay, io));
    }
  }

  lemma {:induction false} ReexecSpawnsQuiet(sel: seq<CoreId>, first: Pid, launchDelay: nat, io: Stdio)
    ensures var es := ReexecSpawns(sel, first, launchDelay, io);
      Children(es) == [] && SignalledPids(es) == [] && WaitedPids(es) == [] && BrokerQuotas(es) == []
  {
    if sel != [] {
      ReexecSpawnsQuiet(sel[1..], first + 1, launchDelay, io);
      ViewPair(Slept(ReexecDelay(sel[0], launchDelay)), Spawned(first, Encode(sel[0]), io, io),
               ReexecSpawns(sel[1..], first + 1, launchDelay, io));
    }
  }

  lemma ReexecSpawnsFacts(sel: seq<CoreId>, first: Pid, launchDelay: nat, io: Stdio)
    ensures var es := ReexecSpawns(sel, first, launchDelay, io);
      && Handles(es) == Pids(first, |sel|)
      && |Markers(es)| == |sel| && (forall k :: 0 <= k < |sel| ==> Markers(es)[k] == Encode(sel[k]))
      && |Sleeps(es)| == |sel| && (forall k :: 0 <= k < |sel| ==> Sleeps(es)[k] == ReexecDelay(sel[k], launchDelay))
      && Children(es) == [] && SignalledPids(es) == [] && WaitedPids(es) == [] && BrokerQuotas(es) == []
  {
    ReexecSpawnsHandles(sel, first, launchDelay, io);
    ReexecSpawnsMarkers(sel, first, launchDelay, io);
    ReexecSpawnsSleeps(sel, first, launchDelay, io);
    ReexecSpawnsQuiet(sel, first, launchDelay, io);
  }

  lemma ShutdownFacts(spawnBroker: bool, quota: nat, brokerFails: bool, handles: seq<Pid>)
    ensures var end := ForkShutdown(spawnBroker, quota, brokerFails, handles);
      && Handles(end.events) == [] && Children(end.events) == [] && Markers(end.events) == []
      && BrokerQuotas(end.events) == (if spawnBroker then [quota] else [])
      && SignalledPids(end.events) == (if spawnBroker && !brokerFails then handles else [])
      && WaitedPids(end.events) == (if spawnBroker then [] else handles)
      && end.outcome == (if spawnBroker && brokerFails then Failed(BrokerError) else Finished)
  {
    var b := BrokerLaunched(quota);
    ViewOne(b);
    SignalEventsFacts(handles, SigInt);
    WaitEventsFacts(handles);
    ViewCons(b, SignalEvents(handles, SigInt));
  }

  lemma ClientLoopHandles(cfg: Config, fl: Flavour, s: Setup, first: Pid, left: nat, before: seq<Pid>, dups: seq<Dup2>)
    ensures var run := ClientsThenShutdown(cfg, fl, s, first, left, before, dups);
      var n := Min(|Selected(s.coreCount, cfg.cores)|, left);
      run.procs == n && Handles(run.events) == Pids(first, n) && Markers(run.events) == []
  {
    var sel := Selected(s.coreCount, cfg.cores);
    if |sel| > left {
      ClientForksHandles(sel[..left], s.coreIds, first, 1, fl, cfg.launchDelay, dups);
      ClientForksQuiet(sel[..left], s.coreIds, first, 1, fl, cfg.launchDelay, dups);
    } else {
      var forks := ClientForks(sel, s.coreIds, first, 1, fl, cfg.launchDelay, dups);
      var end := ForkShutdown(cfg.spawnBroker, |cfg.cores|, s.brokerFails, before + Pids(first, |sel|));
      ClientForksHandles(sel, s.coreIds, first, 1, fl, cfg.launchDelay, dups);
      ClientForksQuiet(sel, s.coreIds, first, 1, fl, cfg.launchDelay, dups);
      ShutdownFacts(cfg.spawnBroker, |cfg.cores|, s.brokerFails, before + Pids(first, |sel|));
      HandlesAppend(forks, end.events);
      MarkersAppend(forks, end.events);
    }
  }

  lemma ClientLoopChildren(cfg: Config, fl: Flavour, s: Setup, first: Pid, left: nat, before: seq<Pid>, dups: seq<Dup2>)
    ensures var run := ClientsThenShutdown(cfg, fl, s, first, left, before, dups);
      var sel := Selected(s.coreCount, cfg.cores);
      var n := Min(|sel|, left);
      && |Children(run.events)| == n
      && (forall k :: 0 <= k < n ==> Children(run.events)[k] == ClientContinuation(fl, BoundCore(s.coreIds, sel[k]), k + 1, cfg.launchDelay, dups))
  {
    var sel := Selected(s.coreCount, cfg.cores);
    var n := Min(|sel|, left);
    var forks := ClientForks(sel[..n], s.coreIds, first, 1, fl, cfg.launchDelay, dups);
    assert Children(ClientsThenShutdown(cfg, fl, s, first, left, before, dups).events) == Children(forks) by {
      if |sel| <= left {
        var end := ForkShutdown(cfg.spawnBroker, |cfg.cores|, s.brokerFails, before + Pids(first, |sel|));
        assert sel[..n] == sel;
        ShutdownFacts(cfg.spawnBroker, |cfg.cores|, s.brokerFails, before + Pids(first, |sel|));
        ChildrenAppend(forks, end.events);
      }
    }
    ClientForksChildren(sel[..n], s.coreIds, first, 1, fl, cfg.launchDelay, dups);
  }

  /** What a forking launcher's client loop creates, whether or not the system runs out of processes. */
  lemma ClientLoopFacts(cfg: Config, fl: Flavour, s: Setup, first: Pid, left: nat, before: seq<Pid>, dups: seq<Dup2>)
    ensures var run := ClientsThenShutdown(cfg, fl, s, first, left, before, dups);
      var sel := Selected(s.coreCount, cfg.cores);
      var n := Min(|sel|, left);
      && run.procs == n
      && Handles(run.events) == Pids(first, n)
      && |Children(run.events)| == n
      && (forall k :: 0 <= k < n ==> Children(run.events)[k] == ClientContinuation(fl, BoundCore(s.coreIds, sel[k]), k + 1, cfg.launchDelay, dups))
      && Markers(run.events) == []
  {
    ClientLoopHandles(cfg, fl, s, first, left, before, dups);
    ClientLoopChildren(cfg, fl, s, first, left, before, dups);
  }

  /** How a forking launcher ends: by a failed fork, or by its broker or wait loop. */
  lemma EndingFacts(cfg: Config, fl: Flavour, s: Setup, first: Pid, left: nat, before: seq<Pid>, dups: seq<Dup2>)
    ensures var run := ClientsThenShutdown(cfg, fl, s, first, left, before, dups);
      var sel := Selected(s.coreCount, cfg.cores);
      && (|sel| > left ==>
            && run.outcome == Failed(OsError)
            && SignalledPids(run.events) == [] && WaitedPids(run.events) == [] && BrokerQuotas(run.events) == [])
      && (|sel| <= left ==>
            var handles := before + Pids(first, |sel|);
            && BrokerQuotas(run.events) == (if cfg.spawnBroker then [|cfg.cores|] else [])
            && SignalledPids(run.events) == (if cfg.spawnBroker && !s.brokerFails then handles else [])
            && WaitedPids(run.events) == (if cfg.spawnBroker then [] else handles)
            && run.outcome == (if cfg.spawnBroker && s.brokerFails then Failed(BrokerError) else Finished))
  {
    var sel := Selected(s.coreCount, cfg.cores);
    if |sel| > left {
      ClientForksQuiet(sel[..left], s.coreIds, first, 1, fl, cfg.launchDelay, dups);
    } else {
      var forks := ClientForks(sel, s.coreIds, first, 1, fl, cfg.launchDelay, dups);
      var end := ForkShutdown(cfg.spawnBroker, |cfg.cores|, s.brokerFails, before + Pids(first, |sel|));
      ClientForksQuiet(sel, s.coreIds, first, 1, fl, cfg.launchDelay, dups);
      ShutdownFacts(cfg.spawnBroker, |cfg.cores|, s.brokerFails, before + Pids(first, |sel|));
      SignalledPidsAppend(forks, end.events);
      WaitedPidsAppend(forks, end.events);
      BrokerQuotasAppend(forks, end.events);
    }
  }

  // ----- Growing the builders one step at a time, as the launch loops do -----

  lemma {:induction false} ClientForksSnoc(sel: seq<CoreId>, machine: seq<CoreId>, id: CoreId, first: Pid, index: nat, fl: Flavour, launchDelay: nat, dups: seq<Dup2>)
    ensures ClientForks(sel + [id], machine, first, index, fl, launchDelay, dups)
      == ClientForks(sel, machine, first, index, fl, launchDelay, dups)
         + [Forked(first + |sel|, ClientContinuation(fl, BoundCore(machine, id), index + |sel|, launchDelay, dups))]
  {
    if sel == [] {
      assert [] + [id] == [id];
    } else {
      TailOfAppend(sel, [id]);
      ClientForksSnoc(sel[1..], machine, id, first + 1, index + 1, fl, launchDelay, dups);
      AppendAssoc([Forked(first, ClientContinuation(fl, BoundCore(machine, sel[0]), index, launchDelay, dups))],
                  ClientForks(sel[1..], machine, first + 1, index + 1, fl, launchDelay, dups),
                  [Forked(first + |sel|, ClientContinuation(fl, BoundCore(machine, id), index + |sel|, launchDelay, dups))]);
    }
  }

  /** One more granted fork in the client loop, seen from the whole trace. */
  lemma ClientForksGrow(before: seq<Event>, sel: seq<CoreId>, machine: seq<CoreId>, id: CoreId, first: Pid, fl: Flavour, launchDelay: nat, dups: seq<Dup2>)
    ensures before + ClientForks(sel + [id], machine, first, 1, fl, launchDelay, dups)
      == before + ClientForks(sel, machine, first, 1, fl, launchDelay, dups)
         + [Forked(first + |sel|, ClientContinuation(fl, BoundCore(machine, id), |sel| + 1, launchDelay, dups))]
  {
    ClientForksSnoc(sel, machine, id, first, 1, fl, launchDelay, dups);
    AppendAssoc(before, ClientForks(sel, machine, first, 1, fl, launchDelay, dups),
                [Forked(first + |sel|, ClientContinuation(fl, BoundCore(machine, id), |sel| + 1, launchDelay, dups))]);
  }

  lemma {:induction false} ReexecSpawnsSnoc(sel: seq<CoreId>, id: CoreId, first: Pid, launchDelay: nat, io: Stdio)
    ensures ReexecSpawns(sel + [id], first, launchDelay, io)
      == ReexecSpawns(sel, first, launchDelay, io)
         + [Slept(ReexecDelay(id, launchDelay)), Spawned(first + |sel|, Encode(id), io, io)]
  {
    if sel == [] {
      assert [] + [id] == [id];
    } else {
      TailOfAppend(sel, [id]);
      ReexecSpawnsSnoc(sel[1..], id, first + 1, launchDelay, io);
      AppendAssoc([Slept(ReexecDelay(sel[0], launchDelay)), Spawned(first, Encode(sel[0]), io, io)],
                  ReexecSpawns(sel[1..], first + 1, launchDelay, io),
                  [Slept(ReexecDelay(id, launchDelay)), Spawned(first + |sel|, Encode(id), io, io)]);
    }
  }

  /** One more spawn in the re-exec loop, seen from the whole trace: the pause, then the spawn. */
  lemma ReexecSpawnsGrow(before: seq<Event>, sel: seq<CoreId>, id: CoreId, first: Pid, launchDelay: nat, io: Stdio)
    ensures before + ReexecSpawns(sel + [id], first, launchDelay, io)
      == before + ReexecSpawns(sel, first, launchDelay, io)
         + [Slept(ReexecDelay(id, launchDelay))] + [Spawned(first + |sel|, Encode(id), io, io)]
  {
    var grown := [Slept(ReexecDelay(id, launchDelay)), Spawned(first + |sel|, Encode(id), io, io)];
    ReexecSpawnsSnoc(sel, id, first, launchDelay, io);
    AppendAssoc(before, ReexecSpawns(sel, first, launchDelay, io), grown);
    assert grown == [Slept(ReexecDelay(id, launchDelay))] + [Spawned(first + |sel|, Encode(id), io, io)];
    AppendAssoc(before + ReexecSpawns(sel, first, launchDelay, io), [Slept(ReexecDelay(id, launchDelay))],
                [Spawned(first + |sel|, Encode(id), io, io)]);
  }

  lemma {:induction false} SignalEventsSnoc(handles: seq<Pid>, pid: Pid, sig: Signal)
    ensures SignalEvents(handles + [pid], sig) == SignalEvents(handles, sig) + [Signalled(pid, sig)]
  {
    if handles == [] {
      assert [] + [pid] == [pid];
    } else {
      TailOfAppend(handles, [pid]);
      SignalEventsSnoc(handles[1..], pid, sig);
      AppendAssoc([Signalled(handles[0], sig)], SignalEvents(handles[1..], sig), [Signalled(pid, sig)]);
    }
  }

  lemma {:induction false} WaitEventsSnoc(handles: seq<Pid>, pid: Pid)
    ensures WaitEvents(handles + [pid]) == WaitEvents(handles) + [Waited(pid)]
  {
    if handles == [] {
      assert [] + [pid] == [pid];
    } else {
      TailOfAppend(handles, [pid]);
      WaitEventsSnoc(handles[1..], pid);
      AppendAssoc([Waited(handles[0])], WaitEvents(handles[1..]), [Waited(pid)]);
    }
  }

  lemma PidsSnoc(first: Pid, n: nat)
    ensures Pids(first, n + 1) == Pids(first, n) + [first + n]
  {
    assert Pids(first, n + 1) == Pids(first, n) + [first + n];
  }
}
