/**
 * The machine the launcher runs on, seen as an oracle: it hands out fresh
 * process handles until its process quota is used up, reports errors for
 * the handles it is told will fail, decides whether the broker's launch
 * fails, and records every effect the launcher has in a trace.
 */
module Host {
  import opened Wrappers
  import opened Topology
  import opened ClientMarker

  datatype Signal = SigInt | SigKill

  datatype Event =
    | FileCreated(path: Path)
      // pre_fork, fork and post_fork(false), as the parent sees them; `child` is what the new process does
    | Forked(pid: Pid, child: Continuation)
      // dup2 on the launching process's own stdio
    | Redirected(dup: Dup2)
    | Slept(ms: nat)
      // a copy of this executable started with AFL_LAUNCHER_CLIENT set to `marker`
    | Spawned(pid: Pid, marker: string, stdout: Stdio, stderr: Stdio)
      // the broker was built with an exit-after quota and run until it returned
    | BrokerLaunched(quota: nat)
    | Signalled(pid: Pid, sig: Signal)
    | Waited(pid: Pid)

  /** The oracle's state when a launch starts. */
  datatype Setup = Setup(
    coreIds: seq<CoreId>, // the machine's cores as `get_core_ids` lists them
    debug: bool,         // LIBAFL_DEBUG_OUTPUT is set to a Unicode value
    marker: EnvVar,      // AFL_LAUNCHER_CLIENT as this process found it
    nextPid: Pid,        // the handle the next new process gets
    procsLeft: nat,      // how many more processes the system will create
    brokerFails: bool,   // the broker's launch returns an error
    failing: set<Pid>)   // handles whose kill or wait the system reports as failed
  {
    /** How many cores the machine reports; the launch loops visit the ids below it. */
    const coreCount: nat := |coreIds|
  }

  class Host {
    const coreIds: seq<CoreId>
    const coreCount: nat := |coreIds|
    const debugOutput: bool
    const marker: EnvVar
    const brokerFails: bool
    const failing: set<Pid>
    var nextPid: Pid
    var procsLeft: nat
    var trace: seq<Event>

    function Snapshot(): Setup
      reads this
    {
      Setup(coreIds, debugOutput, marker, nextPid, procsLeft, brokerFails, failing)
    }

    constructor (s: Setup)
      ensures Snapshot() == s && trace == []
    {
      coreIds, debugOutput, marker := s.coreIds, s.debug, s.marker;
      brokerFails, failing := s.brokerFails, s.failing;
      nextPid, procsLeft := s.nextPid, s.procsLeft;
      trace := [];
    }

    /** `File::create`. */
    method CreateFile(path: Path) returns (f: OpenFile)
      modifies this`trace
      ensures f == OpenFile(path)
      ensures trace == old(trace) + [FileCreated(path)]
    {
      f := OpenFile(path);
      trace := trace + [FileCreated(path)];
    }

    /** `dup2` on this process's own stdio. */
    method Redirect(d: Dup2)
      modifies this`trace
      ensures trace == old(trace) + [Redirected(d)]
    {
      trace := trace + [Redirected(d)];
    }

    method Sleep(ms: nat)
      modifies this`trace
      ensures trace == old(trace) + [Slept(ms)]
    {
      trace := trace + [Slept(ms)];
    }

    /**
     * Fork this process, bracketed by the shared-memory hooks. The parent
     * gets the new handle; the new process runs `child`.
     */
    method Fork(child: Continuation) returns (r: Result<Pid, Error>)
      modifies this`nextPid, this`procsLeft, this`trace
      ensures old(procsLeft) == 0 ==>
        r == Err(OsError) && nextPid == old(nextPid) && procsLeft == 0 && trace == old(trace)
      ensures old(procsLeft) > 0 ==>
        && r == Ok(old(nextPid))
        && nextPid == old(nextPid) + 1 && procsLeft == old(procsLeft) - 1
        && trace == old(trace) + [Forked(old(nextPid), child)]
    {
      if procsLeft == 0 {
        r := Err(OsError);
      } else {
        r := Ok(nextPid);
        trace := trace + [Forked(nextPid, child)];
        nextPid, procsLeft := nextPid + 1, procsLeft - 1;
      }
    }

    /** Start a copy of this executable with the client marker set to `marker`. */
    method Spawn(marker: string, io: Stdio) returns (r: Result<Pid, Error>)
      modifies this`nextPid, this`procsLeft, this`trace
      ensures old(procsLeft) == 0 ==>
        r == Err(OsError) && nextPid == old(nextPid) && procsLeft == 0 && trace == old(trace)
      ensures old(procsLeft) > 0 ==>
        && r == Ok(old(nextPid))
        && nextPid == old(nextPid) + 1 && procsLeft == old(procsLeft) - 1
        && trace == old(trace) + [Spawned(old(nextPid), marker, io, io)]
    {
      if procsLeft == 0 {
        r := Err(OsError);
      } else {
        r := Ok(nextPid);
        trace := trace + [Spawned(nextPid, marker, io, io)];
        nextPid, procsLeft := nextPid + 1, procsLeft - 1;
      }
    }

    /** Build the broker with an exit-after quota and run it until it returns. */
    method LaunchBroker(quota: nat) returns (ok: bool)
      modifies this`trace
      ensures ok == !brokerFails
      ensures trace == old(trace) + [BrokerLaunched(quota)]
    {
      ok := !brokerFails;
      trace := trace + [BrokerLaunched(quota)];
    }

    method Kill(pid: Pid, sig: Signal) returns (ok: bool)
      modifies this`trace
      ensures ok == (pid !in failing)
      ensures trace == old(trace) + [Signalled(pid, sig)]
    {
      ok := pid !in failing;
      trace := trace + [Signalled(pid, sig)];
    }

    method Wait(pid: Pid) returns (ok: bool)
      modifies this`trace
      ensures ok == (pid !in failing)
      ensures trace == old(trace) + [Waited(pid)]
    {
      ok := pid !in failing;
      trace := trace + [Waited(pid)];
    }
  }

  // ----- Reading a trace -----

  function HandleOf(e: Event): seq<Pid>
  {
    match e
    case Forked(pid, _) => [pid]
    case Spawned(pid, _, _, _) => [pid]
    case _ => []
  }

  function ChildOf(e: Event): seq<Continuation>
  {
    if e.Forked? then [e.child] else []
  }

  function SignalOf(e: Event): seq<Pid>
  {
    if e.Signalled? then [e.pid] else []
  }

  function WaitOf(e: Event): seq<Pid>
  {
    if e.Waited? then [e.pid] else []
  }

  function QuotaOf(e: Event): seq<nat>
  {
    if e.BrokerLaunched? then [e.quota] else []
  }

  function MarkerOf(e: Event): seq<string>
  {
    if e.Spawned? then [e.marker] else []
  }

  function SleepOf(e: Event): seq<nat>
  {
    if e.Slept? then [e.ms] else []
  }

  /** Every process created, in creation order. */
  function Handles(es: seq<Event>): seq<Pid>
  {
    if |es| == 0 then [] else HandleOf(es[0]) + Handles(es[1..])
  }

  /** What each forked process does, in fork order. */
  function Children(es: seq<Event>): seq<Continuation>
  {
    if |es| == 0 then [] else ChildOf(es[0]) + Children(es[1..])
  }

  function SignalledPids(es: seq<Event>): seq<Pid>
  {
    if |es| == 0 then [] else SignalOf(es[0]) + SignalledPids(es[1..])
  }

  function WaitedPids(es: seq<Event>): seq<Pid>
  {
    if |es| == 0 then [] else WaitOf(es[0]) + WaitedPids(es[1..])
  }

  function BrokerQuotas(es: seq<Event>): seq<nat>
  {
    if |es| == 0 then [] else QuotaOf(es[0]) + BrokerQuotas(es[1..])
  }

  /** The client markers spawned copies were started with, in spawn order. */
  function Markers(es: seq<Event>): seq<string>
  {
    if |es| == 0 then [] else MarkerOf(es[0]) + Markers(es[1..])
  }

  /** How long the launching process slept each time, in order. */
  function Sleeps(es: seq<Event>): seq<nat>
  {
    if |es| == 0 then [] else SleepOf(es[0]) + Sleeps(es[1..])
  }

  /** Events that touch only files and this process's own stdio. */
  predicate Inert(e: Event)
  {
    e.FileCreated? || e.Redirected?
  }

  /** A trace of inert events shows in no view. */
  lemma {:induction false} InertViews(es: seq<Event>)
    requires forall i :: 0 <= i < |es| ==> Inert(es[i])
    ensures Handles(es) == [] && Children(es) == [] && SignalledPids(es) == []
    ensures WaitedPids(es) == [] && BrokerQuotas(es) == [] && Markers(es) == [] && Sleeps(es) == []
  {
    if |es| != 0 {
      InertViews(es[1..]);
    }
  }
}
