/**
 * The deterministic decisions inside the launcher's loops: which cores get a
 * child, in which order, how long each child waits, where its output goes,
 * and which role and callback a forked child takes.
 */
module Topology {
  import opened Wrappers

  type CoreId = nat
  type Pid = nat
  type Path = string

  /** A client closure handed to a launcher; only its identity matters here. */
  datatype ClientFn = ClientFn(name: string)

  datatype Error =
    | NoCoresGiven      // illegal argument: "No cores to spawn on given, cannot launch anything."
    | NoClientCallback  // illegal argument: "No client callback provided"
    | MalformedMarker   // the client marker in the environment is not a core id
    | OsError           // fork, spawn, kill or wait reported an error
    | BrokerError       // the broker's own launch returned an error
    | ShuttingDown      // what the centralized broker process returns once its clients are gone

  /**
   * How one call of a launch operation ends in the process that made it.
   * `BecomesClient(core, run)`: this process is a client bound to `core` and
   * hands over to `run`, whose result becomes the launch's result.
   * `Panics`: the process aborts (an `unwrap` on a missing value).
   */
  datatype Outcome =
    | Finished
    | Failed(error: Error)
    | BecomesClient(core: CoreId, run: ClientFn)
    | Panics

  // ----- Spawn selection -----

  predicate StrictlyIncreasing(s: seq<nat>)
  {
    forall i, j :: 0 <= i < j < |s| ==> s[i] < s[j]
  }

  predicate Distinct<T(==)>(s: seq<T>)
  {
    forall i, j :: 0 <= i < j < |s| ==> s[i] != s[j]
  }

  function Elements<T>(s: seq<T>): set<T>
  {
    set x | x in s
  }

  /**
   * The cores that get a child when the machine has `n` cores: the loop walks
   * the ids 0, 1, ..., n-1 and spawns on every id the requested list contains.
   */
  function Selected(n: nat, requested: seq<CoreId>): seq<CoreId>
  {
    if n == 0 then []
    else Selected(n - 1, requested) + (if n - 1 in requested then [n - 1] else [])
  }

  /**
   * A child is spawned on a core exactly when the machine has it and it was
   * requested, each such core once, in increasing order whatever the order
   * or repetitions of the request.
   */
  lemma {:induction false} SelectedFacts(n: nat, requested: seq<CoreId>)
    ensures var sel := Selected(n, requested);
      && (forall id :: id in sel <==> id < n && id in requested)
      && (forall i :: 0 <= i < |sel| ==> sel[i] < n)
      && StrictlyIncreasing(sel)
      && Distinct(sel)
  {
    if n > 0 {
      SelectedFacts(n - 1, requested);
    }
  }

  /** Visiting one more id adds it to the selection exactly when it was requested. */
  lemma SelectedStep(id: CoreId, requested: seq<CoreId>)
    ensures Selected(id + 1, requested) == Selected(id, requested) + (if id in requested then [id] else [])
  {
  }

  /** What the loop has spawned after visiting ids below `m` is a prefix of the whole selection. */
  lemma {:induction false} SelectedPrefix(m: nat, n: nat, requested: seq<CoreId>)
    requires m <= n
    ensures |Selected(m, requested)| <= |Selected(n, requested)|
    ensures Selected(m, requested) == Selected(n, requested)[..|Selected(m, requested)|]
  {
    if m < n {
      SelectedPrefix(m, n - 1, requested);
    }
  }

  /** A requested id below `n` is one more spawn past what the loop has spawned before reaching it. */
  lemma SelectedPast(id: CoreId, n: nat, requested: seq<CoreId>)
    requires id < n && id in requested
    ensures |Selected(n, requested)| > |Selected(id, requested)|
    ensures Selected(n, requested)[..|Selected(id, requested)|] == Selected(id, requested)
    ensures Selected(n, requested)[|Selected(id, requested)|] == id
  {
    SelectedPrefix(id + 1, n, requested);
    SelectedStep(id, requested);
    var before, after := Selected(id, requested), Selected(id + 1, requested);
    assert after[..|before|] == before;
    assert after[|before|] == id;
  }

  lemma {:induction false} CardAtMostLength<T>(s: seq<T>)
    ensures |Elements(s)| <= |s|
  {
    if s != [] {
      var init := s[..|s| - 1];
      CardAtMostLength(init);
      assert Elements(s) == Elements(init) + {s[|s| - 1]};
    }
  }

  lemma {:induction false} CardOfDistinct<T>(s: seq<T>)
    requires Distinct(s)
    ensures |Elements(s)| == |s|
  {
    if s != [] {
      var init := s[..|s| - 1];
      CardOfDistinct(init);
      assert Elements(s) == Elements(init) + {s[|s| - 1]};
      assert s[|s| - 1] !in Elements(init);
    }
  }

  lemma CardOfRepeating<T>(s: seq<T>)
    requires !Distinct(s)
    ensures |Elements(s)| < |s|
  {
    var i, j :| 0 <= i < j < |s| && s[i] == s[j];
    var rest := s[..j] + s[j + 1..];
    assert Elements(s) == Elements(rest) by {
      assert s == s[..j] + [s[j]] + s[j + 1..];
      assert s[j] == rest[i];
    }
    CardAtMostLength(rest);
  }

  lemma SubsetCard<T>(a: set<T>, b: set<T>)
    requires a <= b
    ensures |a| <= |b|
    ensures |a| == |b| ==> a == b
  {
    assert b == a + (b - a);
    if |a| == |b| {
      assert |b - a| == 0;
    }
  }

  /**
   * The broker is told to wait for as many clients as were requested. No
   * more children than that are ever spawned, and exactly that many are
   * spawned if and only if the request names distinct cores that all exist.
   */
  lemma SpawnedWithinQuota(n: nat, requested: seq<CoreId>)
    ensures |Selected(n, requested)| <= |requested|
    ensures |Selected(n, requested)| == |requested| <==>
      Distinct(requested) && forall i :: 0 <= i < |requested| ==> requested[i] < n
  {
    var sel := Selected(n, requested);
    SelectedFacts(n, requested);
    CardOfDistinct(sel);
    CardAtMostLength(requested);
    SubsetCard(Elements(sel), Elements(requested));
    if Distinct(requested) && forall i :: 0 <= i < |requested| ==> requested[i] < n {
      CardOfDistinct(requested);
      assert Elements(sel) == Elements(requested);
    }
    if |sel| == |requested| {
      if !Distinct(requested) {
        CardOfRepeating(requested);
      }
      assert Elements(sel) == Elements(requested);
      forall i | 0 <= i < |requested|
        ensures requested[i] < n
      {
        assert requested[i] in Elements(sel);
      }
    }
  }

  // ----- Stagger delays -----

  /**
   * `times` delays of `launchDelay` ms back to back. Written as repeated
   * addition so that the solver meets no product of two variables; the
   * product form is `StaggerIsProduct`.
   */
  function Stagger(times: nat, launchDelay: nat): nat
  {
    if times == 0 then 0 else Stagger(times - 1, launchDelay) + launchDelay
  }

  lemma {:induction false} StaggerIsProduct(times: nat, launchDelay: nat)
    ensures Stagger(times, launchDelay) == times * launchDelay
  {
    if times > 0 {
      StaggerIsProduct(times - 1, launchDelay);
    }
  }

  /** A forked child sleeps `index * launch_delay` ms, `index` counting spawns from 1. */
  function ForkDelay(index: nat, launchDelay: nat): nat
  {
    Stagger(index, launchDelay)
  }

  /** The re-exec parent sleeps `id * launch_delay` ms before spawning on core `id`. */
  function ReexecDelay(id: CoreId, launchDelay: nat): nat
  {
    Stagger(id, launchDelay)
  }

  // ----- Output redirection -----

  datatype Stream = Stdout | Stderr

  /** A file the launcher created (truncating) for client output. */
  datatype OpenFile = OpenFile(path: Path)

  /** One `dup2` call: make `onto` write to `file`. */
  datatype Dup2 = Dup2(file: Path, onto: Stream)

  function Opened(file: Option<Path>): (f: Option<OpenFile>)
    ensures f.Some? <==> file.Some?
    ensures f.Some? ==> f.value.path == file.value
  {
    match file
    case None => None
    case Some(p) => Some(OpenFile(p))
  }

  /** The file a stream writes to after the `dup2` calls in `dups`, or None if none touched it. */
  function Target(dups: seq<Dup2>, s: Stream): Option<Path>
  {
    if |dups| == 0 then None
    else if dups[|dups| - 1].onto == s then Some(dups[|dups| - 1].file)
    else Target(dups[..|dups| - 1], s)
  }

  /**
   * The `dup2` calls a process makes on its own stdio: none under the debug
   * override, none without a stdout file (a stderr file alone changes
   * nothing), else stdout to the stdout file and stderr to the stderr file,
   * falling back to the stdout file.
   */
  function Redirects(debug: bool, out: Option<OpenFile>, err: Option<OpenFile>): (dups: seq<Dup2>)
    ensures dups == [] <==> debug || out.None?
    ensures Target(dups, Stdout) == if debug || out.None? then None else Some(out.value.path)
    ensures Target(dups, Stderr) ==
      if debug || out.None? then None
      else if err.Some? then Some(err.value.path)
      else Some(out.value.path)
    ensures forall i, j :: 0 <= i < j < |dups| ==> dups[i].onto != dups[j].onto
  {
    if debug || out.None? then []
    else
      var errFile := if err.Some? then err.value else out.value;
      [Dup2(out.value.path, Stdout), Dup2(errFile.path, Stderr)]
  }

  /** Where a stream's output finally lands. */
  datatype Sink = Terminal | Discarded | File(path: Path)

  function SinkAfter(dups: seq<Dup2>, s: Stream): Sink
  {
    match Target(dups, s)
    case None => Terminal
    case Some(p) => File(p)
  }

  /**
   * The stdio a re-exec child is spawned with. `Unset` leaves the command's
   * default (inherit); the debug override chooses it.
   */
  datatype Stdio = Unset | Null | Inherit

  function ChildStdio(debug: bool, stdoutFile: Option<Path>, stderrFile: Option<Path>): (io: Stdio)
    ensures io == Unset <==> debug
    ensures io == Null <==> !debug && stdoutFile.None? && stderrFile.None?
  {
    if debug then Unset
    else if stdoutFile.Some? || stderrFile.Some? then Inherit
    else Null
  }

  /** A spawned child either discards a stream or writes where its parent's stream goes. */
  function SpawnedSink(io: Stdio, parentDups: seq<Dup2>, s: Stream): Sink
  {
    if io == Null then Discarded else SinkAfter(parentDups, s)
  }

  /**
   * Where a worker's output lands on either path. A forked child applies
   * `Redirects` itself; a re-exec parent applies the same rule to its own
   * stdio and then hands it to its children, or nulls theirs. The two paths
   * agree except when no file is configured at all: forked workers then
   * write to the terminal while re-exec workers are silenced.
   */
  lemma WorkerOutput(debug: bool, stdoutFile: Option<Path>, stderrFile: Option<Path>, s: Stream)
    ensures var dups := Redirects(debug, Opened(stdoutFile), Opened(stderrFile));
      var forked := SinkAfter(dups, s);
      var spawned := SpawnedSink(ChildStdio(debug, stdoutFile, stderrFile), dups, s);
      && (debug ==> forked == Terminal && spawned == Terminal)
      && (!debug && stdoutFile.Some? ==>
            forked == spawned &&
            forked == File(if s == Stderr && stderrFile.Some? then stderrFile.value else stdoutFile.value))
      && (!debug && stdoutFile.None? ==>
            forked == Terminal && spawned == (if stderrFile.Some? then Terminal else Discarded))
  {
  }

  // ----- Roles of forked children -----

  datatype Role = Client | MainClient | SecondaryClient

  /**
   * Which launcher forks the clients: the plain one with its `run_client`,
   * or the centralized one with an optional main and a secondary callback.
   */
  datatype Flavour = Plain(run: ClientFn) | Centralized(main: Option<ClientFn>, secondary: ClientFn)

  /**
   * What a forked child does instead of returning to the launch loop.
   * A client child sleeps `delay` ms, applies `dups`, builds its client
   * endpoint for `core`, takes `callback` (None: the `unwrap` panics) and
   * runs it. The centralized broker child serves on `port` until its
   * clients have gone.
   */
  datatype Continuation =
    | ClientChild(core: CoreId, index: nat, delay: nat, dups: seq<Dup2>, role: Role, callback: Option<ClientFn>)
    | CentralizedBrokerChild(port: nat)

  /**
   * The core a client forked at loop id `id` is bound to: entry `id` of the
   * machine's core list. The loops visit only ids below the list's length,
   * so the fallback to `id` itself is never taken by a launch.
   */
  function BoundCore(machine: seq<CoreId>, id: nat): (core: CoreId)
    ensures id < |machine| ==> core == machine[id]
  {
    if id < |machine| then machine[id] else id
  }

  /** The child forked as the `index`-th client (1-based), bound to machine core `core`. */
  function ClientContinuation(fl: Flavour, core: CoreId, index: nat, launchDelay: nat, dups: seq<Dup2>): Continuation
  {
    match fl
    case Plain(run) => ClientChild(core, index, ForkDelay(index, launchDelay), dups, Client, Some(run))
    case Centralized(main, secondary) =>
      if index == 1 then ClientChild(core, index, ForkDelay(index, launchDelay), dups, MainClient, main)
      else ClientChild(core, index, ForkDelay(index, launchDelay), dups, SecondaryClient, Some(secondary))
  }

  /** How the child process's own call of the launch operation ends. */
  function ChildOutcome(c: Continuation): Outcome
  {
    match c
    case ClientChild(core, _, _, _, _, callback) =>
      if callback.Some? then BecomesClient(core, callback.value) else Panics
    case CentralizedBrokerChild(_) => Failed(ShuttingDown)
  }
}
