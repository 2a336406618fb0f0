/**
 * The supervision of one tunnel (Tunnel): connect, install the forwards in
 * order, then a self-re-arming chain of scheduled tasks: a monitor that checks
 * the session every 60 seconds and a retry that reconnects every 60 seconds
 * until it succeeds. The SSH library is an adapter whose outcomes the caller
 * supplies; the executor is an explicit queue of scheduled jobs.
 */
module Tunnels {
  import opened Wrappers
  import opened JavaNumbers
  import opened Endpoints
  import opened Config

  /** The fixed delay of scheduleNextRun, in seconds. */
  const RunDelaySeconds: nat := 60

  /** The two Runnables a tunnel schedules. */
  datatype Task = Monitor | Retry

  /** A scheduled run: the number of its ScheduledFuture, the runnable and its delay. */
  datatype Job = Job(future: nat, task: Task, delaySeconds: nat)

  /** An opaque JSch session object. */
  datatype Session = Session(handle: nat)

  /** The adapter operations that completed, as the SSH library sees them. */
  datatype AdapterCall =
    | Opened(session: Session, host: string, port: Int32)
    | Forwarded(session: Session, localPort: Int32, remotePort: Int32)
    | Disconnected(session: Session)

  /**
   * What the SSH library does on one connect attempt: getSession throws, or
   * it hands out a new session, on which proxy set-up and connect then
   * succeed (connects) or throw.
   */
  datatype ConnectOutcome = GetSessionFails | SessionCreated(session: Session, connects: bool)

  /**
   * The answers of the SSH library during one task run: isConnected, one
   * connect attempt, the outcome of each forward in list order, and whether
   * disconnect throws.
   */
  datatype Environment = Environment(alive: bool, connect: ConnectOutcome, forwardOk: seq<bool>, disconnectThrows: bool)

  /** The jobs of queue whose futures have not been cancelled, in queue order. */
  function LiveJobs(queue: seq<Job>, cancelled: set<nat>): seq<Job>
  {
    if queue == [] then []
    else (if queue[0].future in cancelled then [] else [queue[0]]) + LiveJobs(queue[1..], cancelled)
  }

  lemma {:induction false} LiveJobsAppend(queue: seq<Job>, job: Job, cancelled: set<nat>)
    ensures LiveJobs(queue + [job], cancelled) == LiveJobs(queue, cancelled) + (if job.future in cancelled then [] else [job])
  {
    if queue != [] {
      assert (queue + [job])[1..] == queue[1..] + [job];
      LiveJobsAppend(queue[1..], job, cancelled);
    } else {
      assert [job][1..] == [];
    }
  }

  /** Cancelling every future in the queue leaves nothing live. */
  lemma {:induction false} LiveJobsAllCancelled(queue: seq<Job>, cancelled: set<nat>)
    requires forall i :: 0 <= i < |queue| ==> queue[i].future in cancelled
    ensures LiveJobs(queue, cancelled) == []
  {
    if queue != [] {
      LiveJobsAllCancelled(queue[1..], cancelled);
    }
  }

  /** Live jobs are jobs of the queue that are not cancelled, and never outnumber it. */
  lemma {:induction false} LiveJobsBound(queue: seq<Job>, cancelled: set<nat>)
    ensures |LiveJobs(queue, cancelled)| <= |queue|
    ensures forall j :: j in LiveJobs(queue, cancelled) ==> j in queue && j.future !in cancelled
  {
    if queue != [] {
      LiveJobsBound(queue[1..], cancelled);
    }
  }

  /** The share of the single-worker executor that one tunnel uses. */
  class Executor {
    /** Pending jobs in the order they fall due (every delay is the same 60 s). */
    var queue: seq<Job>
    /** Futures on which cancel has been called. */
    var cancelled: set<nat>
    /** Futures handed out so far are 0 .. issued - 1. */
    var issued: nat

    ghost predicate Valid()
      reads this
    {
      && (forall i :: 0 <= i < |queue| ==> queue[i].future < issued)
      && (forall f :: f in cancelled ==> f < issued)
    }

    constructor ()
      ensures Valid() && queue == [] && cancelled == {} && issued == 0
    {
      queue, cancelled, issued := [], {}, 0;
    }

    /** schedule(r, delay, SECONDS): a new future, queued behind the others. */
    method Schedule(task: Task, delaySeconds: nat) returns (f: nat)
      requires Valid()
      modifies this
      ensures Valid()
      ensures f == old(issued) && issued == old(issued) + 1
      ensures queue == old(queue) + [Job(f, task, delaySeconds)] && cancelled == old(cancelled)
    {
      f := issued;
      queue := queue + [Job(f, task, delaySeconds)];
      issued := issued + 1;
    }

    /** future.cancel(true): a cancelled job stays queued and is skipped when it falls due. */
    method Cancel(f: nat)
      requires Valid() && f < issued
      modifies this
      ensures Valid()
      ensures cancelled == old(cancelled) + {f} && queue == old(queue) && issued == old(issued)
    {
      cancelled := cancelled + {f};
    }

    /** The worker takes the job that falls due first. */
    method Take() returns (job: Option<Job>)
      requires Valid()
      modifies this
      ensures Valid()
      ensures old(queue) == [] ==> job == None && queue == []
      ensures old(queue) != [] ==> job == Some(old(queue)[0]) && queue == old(queue)[1..]
      ensures cancelled == old(cancelled) && issued == old(issued)
    {
      if queue == [] {
        job := None;
      } else {
        job := Some(queue[0]);
        queue := queue[1..];
      }
    }
  }

  /** The host and port _connect resolves: a null host or a host string of ':' only throws. */
  function Endpoint(host: Option<string>): Option<HostPort>
  {
    match host
    case None => None
    case Some(h) => if HostPortPair(h).Ok? then Some(HostPortPair(h).value) else None
  }

  /** The forward each configured pair asks for, in list order (None where the pair does not parse). */
  function PortPairs(tunnels: seq<string>): (r: seq<Option<(Int32, Int32)>>)
    ensures |r| == |tunnels|
    decreases tunnels, 1
  {
    if tunnels == [] then [] else FirstAndRest(tunnels)
  }

  function FirstAndRest(tunnels: seq<string>): (r: seq<Option<(Int32, Int32)>>)
    requires tunnels != []
    ensures |r| == |tunnels|
    decreases tunnels, 0
  {
    [Forward(tunnels[0])] + PortPairs(tunnels[1..])
  }

  lemma {:induction false} PortPairsAt(tunnels: seq<string>, i: nat)
    requires i < |tunnels|
    ensures PortPairs(tunnels)[i] == Forward(tunnels[i])
  {
    assert PortPairs(tunnels) == [Forward(tunnels[0])] + PortPairs(tunnels[1..]);
    if i > 0 {
      PortPairsAt(tunnels[1..], i - 1);
    }
  }

  /** Whether the i-th forward returns normally: it parses, the session exists, and the library accepts it. */
  predicate CanForward(ports: seq<Option<(Int32, Int32)>>, forwardOk: seq<bool>, session: Option<Session>, i: nat)
    requires i < |ports|
  {
    session.Some? && ports[i].Some? && i < |forwardOk| && forwardOk[i]
  }

  /** The number of forwards _start installs: it stops at the first one that throws. */
  function Installed(ports: seq<Option<(Int32, Int32)>>, forwardOk: seq<bool>, session: Option<Session>): (k: nat)
    ensures k <= |ports|
    ensures forall i :: 0 <= i < k ==> CanForward(ports, forwardOk, session, i)
    ensures k < |ports| ==> !CanForward(ports, forwardOk, session, k)
  {
    InstalledFrom(ports, forwardOk, session, 0)
  }

  /** The forwards installed counting from index from: the first index at or after it that fails. */
  function InstalledFrom(ports: seq<Option<(Int32, Int32)>>, forwardOk: seq<bool>, session: Option<Session>, from: nat): (k: nat)
    requires from <= |ports|
    ensures from <= k <= |ports|
    ensures forall i :: from <= i < k ==> CanForward(ports, forwardOk, session, i)
    ensures k < |ports| ==> !CanForward(ports, forwardOk, session, k)
    decreases |ports| - from
  {
    if from == |ports| || !CanForward(ports, forwardOk, session, from) then from
    else InstalledFrom(ports, forwardOk, session, from + 1)
  }

  /** Installed is the index of the first forward that throws, or the length when none does. */
  lemma InstalledIsFirstFailure(ports: seq<Option<(Int32, Int32)>>, forwardOk: seq<bool>, session: Option<Session>, n: nat)
    requires n <= |ports|
    requires forall j :: 0 <= j < n ==> CanForward(ports, forwardOk, session, j)
    requires n < |ports| ==> !CanForward(ports, forwardOk, session, n)
    ensures n == Installed(ports, forwardOk, session)
  {
  }

  /**
   * What a retry run leaves behind, path by path: a session is opened when
   * getSession answers; its forwards follow, in list order, when connect goes
   * through; a run that does not get through start disconnects whichever
   * session is then current (an old one when getSession failed), and keeps it
   * only when that disconnect throws.
   */
  ghost predicate RetryOutcome(host: Option<string>, ports: seq<Option<(Int32, Int32)>>, env: Environment,
                               s0: Option<Session>, c0: seq<AdapterCall>, s1: Option<Session>, c1: seq<AdapterCall>)
  {
    var ep := Endpoint(host);
    var created := ep.Some? && env.connect.SessionCreated?;
    var current := if created then Some(env.connect.session) else s0;
    var k := if created && env.connect.connects then Installed(ports, env.forwardOk, current) else 0;
    var ok := created && env.connect.connects && k == |ports|;
    var base := if created then |c0| + 1 else |c0|;
    var disconnects := !ok && current.Some? && !env.disconnectThrows;
    && |c1| == base + k + (if disconnects then 1 else 0)
    && c1[..|c0|] == c0
    && (created ==> c1[|c0|] == Opened(env.connect.session, ep.value.host, ep.value.port))
    && (forall i :: 0 <= i < k ==>
          CanForward(ports, env.forwardOk, current, i)
          && c1[base + i] == Forwarded(current.value, ports[i].value.0, ports[i].value.1))
    && (disconnects ==> c1[base + k] == Disconnected(current.value))
    && s1 == (if ok || env.disconnectThrows then current else None)
  }

  /** A retry whose connect does not go through: the session getSession gave, or else the old one, is stopped quietly. */
  lemma RetryNotConnected(host: Option<string>, ports: seq<Option<(Int32, Int32)>>, env: Environment,
                          s0: Option<Session>, c0: seq<AdapterCall>, sA: Option<Session>, cA: seq<AdapterCall>,
                          s1: Option<Session>, c1: seq<AdapterCall>)
    requires Endpoint(host).None? || env.connect.GetSessionFails? ==> sA == s0 && cA == c0
    requires Endpoint(host).Some? && env.connect.SessionCreated? ==>
      && !env.connect.connects
      && sA == Some(env.connect.session)
      && cA == c0 + [Opened(env.connect.session, Endpoint(host).value.host, Endpoint(host).value.port)]
    requires sA.None? ==> s1 == None && c1 == cA
    requires sA.Some? && env.disconnectThrows ==> s1 == sA && c1 == cA
    requires sA.Some? && !env.disconnectThrows ==> s1 == None && c1 == cA + [Disconnected(sA.value)]
    ensures RetryOutcome(host, ports, env, s0, c0, s1, c1)
  {
  }

  /**
   * A retry whose connect goes through on session sA: the forwards up to the
   * first failure follow, and unless all of them are installed the session
   * is disconnected.
   */
  lemma RetryConnected(host: Option<string>, ports: seq<Option<(Int32, Int32)>>, env: Environment,
                       s0: Option<Session>, c0: seq<AdapterCall>, sA: Option<Session>, cA: seq<AdapterCall>,
                       cB: seq<AdapterCall>, started: bool, s1: Option<Session>, c1: seq<AdapterCall>)
    requires Endpoint(host).Some? && env.connect.SessionCreated? && env.connect.connects
    requires sA == Some(env.connect.session)
    requires cA == c0 + [Opened(env.connect.session, Endpoint(host).value.host, Endpoint(host).value.port)]
    requires var k := Installed(ports, env.forwardOk, sA);
      && started == (k == |ports|)
      && |cB| == |cA| + k && cB[..|cA|] == cA
      && (forall i :: 0 <= i < k ==>
            CanForward(ports, env.forwardOk, sA, i) &&
            cB[|cA| + i] == Forwarded(sA.value, ports[i].value.0, ports[i].value.1))
    requires started ==> s1 == sA && c1 == cB
    requires !started && env.disconnectThrows ==> s1 == sA && c1 == cB
    requires !started && !env.disconnectThrows ==> s1 == None && c1 == cB + [Disconnected(sA.value)]
    ensures RetryOutcome(host, ports, env, s0, c0, s1, c1)
  {
    var k := Installed(ports, env.forwardOk, sA);
    var tail := if !started && !env.disconnectThrows then [Disconnected(sA.value)] else [];
    assert c1 == cB + tail;
    assert c1[..|c0|] == c0 by {
      assert c1[..|c0|] == cB[..|cA|][..|c0|];
    }
    assert c1[|c0|] == cA[|c0|];
    forall i | 0 <= i < k
      ensures c1[|cA| + i] == Forwarded(sA.value, ports[i].value.0, ports[i].value.1)
    {
      assert c1[|cA| + i] == cB[|cA| + i];
    }
  }

  class Tunnel {
    const config: TunnelConfig
    const executor: Executor
    /** The JSch session; None while null. */
    var session: Option<Session>
    /** Every future this tunnel has registered (a plain set: no weak references). */
    var tunnelMonitors: set<nat>
    /** The adapter operations issued so far. */
    ghost var calls: seq<AdapterCall>

    ghost predicate Valid()
      reads this, executor
    {
      && executor.Valid()
      && (forall i :: 0 <= i < |executor.queue| ==> executor.queue[i].future in tunnelMonitors)
      && (forall f :: f in tunnelMonitors ==> f < executor.issued)
    }

    /** The scheduled runs of this tunnel that will still happen. */
    function Live(): seq<Job>
      reads executor
    {
      LiveJobs(executor.queue, executor.cancelled)
    }

    /** new Tunnel(config, executor) (the JSch identity set-up is not modelled). */
    constructor (config: TunnelConfig, executor: Executor)
      requires executor.Valid() && executor.queue == []
      ensures Valid() && this.config == config && this.executor == executor
      ensures session == None && tunnelMonitors == {} && calls == [] && Live() == []
    {
      this.config := config;
      this.executor := executor;
      session := None;
      tunnelMonitors := {};
      calls := [];
    }

    /** scheduleNextRun(r): exactly one new job, 60 s ahead, registered in tunnelMonitors. */
    method ScheduleNextRun(task: Task)
      requires Valid()
      modifies this, executor
      ensures Valid()
      ensures executor.queue == old(executor.queue) + [Job(old(executor.issued), task, RunDelaySeconds)]
      ensures executor.issued == old(executor.issued) + 1 && executor.cancelled == old(executor.cancelled)
      ensures tunnelMonitors == old(tunnelMonitors) + {old(executor.issued)}
      ensures session == old(session) && calls == old(calls)
      ensures Live() == old(Live()) + [Job(old(executor.issued), task, RunDelaySeconds)]
    {
      LiveJobsAppend(executor.queue, Job(executor.issued, task, RunDelaySeconds), executor.cancelled);
      var f := executor.Schedule(task, RunDelaySeconds);
      tunnelMonitors := tunnelMonitors + {f};
    }

    /**
     * connect() / _connect(): resolve host and port, ask the library for a
     * session (kept even when the later connect throws), then connect it.
     */
    method Connect(outcome: ConnectOutcome) returns (ok: bool)
      requires Valid()
      modifies this
      ensures Valid() && tunnelMonitors == old(tunnelMonitors)
      ensures Endpoint(config.host).None? || outcome.GetSessionFails? ==>
        !ok && session == old(session) && calls == old(calls)
      ensures Endpoint(config.host).Some? && outcome.SessionCreated? ==>
        && ok == outcome.connects
        && session == Some(outcome.session)
        && calls == old(calls) + [Opened(outcome.session, Endpoint(config.host).value.host, Endpoint(config.host).value.port)]
    {
      if config.host.None? {
        return false;
      }
      var hostPort := HostPortPair(config.host.value);
      if hostPort.Err? {
        return false;
      }
      match outcome {
        case GetSessionFails =>
          ok := false;
        case SessionCreated(s, connects) =>
          session := Some(s);
          calls := calls + [Opened(s, hostPort.value.host, hostPort.value.port)];
          ok := connects;
      }
    }

    /**
     * The forward loop of _start: for each configured pair in list order,
     * new LocalRemotePortPair(s), getLocalPort(), getRemotePort() and
     * setPortForwardingL, up to the first pair that throws; the earlier
     * forwards stay installed.
     */
    method InstallForwards(forwardOk: seq<bool>) returns (installed: nat, ghost forwards: seq<AdapterCall>)
      requires Valid()
      modifies this
      ensures Valid() && session == old(session) && tunnelMonitors == old(tunnelMonitors)
      ensures installed == Installed(PortPairs(config.tunnels), forwardOk, session)
      ensures calls == old(calls) + forwards && |forwards| == installed
      ensures forall i :: 0 <= i < installed ==>
        CanForward(PortPairs(config.tunnels), forwardOk, session, i) &&
        forwards[i] == Forwarded(session.value, PortPairs(config.tunnels)[i].value.0, PortPairs(config.tunnels)[i].value.1)
    {
      var tunnels := config.tunnels;
      ghost var ports := PortPairs(tunnels);
      ghost var s := session;
      forwards := [];
      installed := 0;
      var failed := false;
      while installed < |tunnels| && !failed
        invariant installed <= |tunnels| == |ports|
        invariant failed ==> installed < |tunnels| && !CanForward(ports, forwardOk, s, installed)
        invariant calls == old(calls) + forwards && |forwards| == installed
        invariant forall j :: 0 <= j < installed ==>
          CanForward(ports, forwardOk, s, j) && forwards[j] == Forwarded(s.value, ports[j].value.0, ports[j].value.1)
        invariant Valid() && session == s && tunnelMonitors == old(tunnelMonitors)
        decreases |tunnels| - installed, if failed then 0 else 1
      {
        var forwarded := ForwardAt(tunnels, installed, forwardOk);
        if forwarded {
          ghost var step := Forwarded(s.value, ports[installed].value.0, ports[installed].value.1);
          assert calls == old(calls) + (forwards + [step]);
          forwards := forwards + [step];
          installed := installed + 1;
        } else {
          failed := true;
        }
      }
      InstalledIsFirstFailure(ports, forwardOk, session, installed);
    }

    /**
     * One pass of the forward loop of _start: new LocalRemotePortPair(s),
     * getLocalPort(), getRemotePort(), then setPortForwardingL on the session.
     */
    method ForwardAt(tunnels: seq<string>, i: nat, forwardOk: seq<bool>) returns (forwarded: bool)
      requires Valid() && i < |tunnels|
      modifies this
      ensures Valid() && session == old(session) && tunnelMonitors == old(tunnelMonitors)
      ensures forwarded == CanForward(PortPairs(tunnels), forwardOk, session, i)
      ensures !forwarded ==> calls == old(calls)
      ensures forwarded ==>
        calls == old(calls) + [Forwarded(session.value, PortPairs(tunnels)[i].value.0, PortPairs(tunnels)[i].value.1)]
    {
      var pair := Forward(tunnels[i]);
      PortPairsAt(tunnels, i);
      if pair.None? || session.None? || i >= |forwardOk| || !forwardOk[i] {
        return false;
      }
      calls := calls + [Forwarded(session.value, pair.value.0, pair.value.1)];
      forwarded := true;
    }

    /**
     * start() / _start(): install the forwards, then one monitor. When a
     * forward throws no monitor is scheduled.
     */
    method Start(forwardOk: seq<bool>) returns (ok: bool)
      requires Valid()
      modifies this, executor
      ensures Valid() && session == old(session) && executor.cancelled == old(executor.cancelled)
      ensures var ports := PortPairs(config.tunnels);
        var k := Installed(ports, forwardOk, old(session));
        && ok == (k == |config.tunnels|)
        && |calls| == |old(calls)| + k && calls[..|old(calls)|] == old(calls)
        && (forall i :: 0 <= i < k ==>
              CanForward(ports, forwardOk, old(session), i) &&
              calls[|old(calls)| + i] == Forwarded(old(session).value, ports[i].value.0, ports[i].value.1))
      ensures ok ==>
        && executor.queue == old(executor.queue) + [Job(old(executor.issued), Monitor, RunDelaySeconds)]
        && executor.issued == old(executor.issued) + 1
        && tunnelMonitors == old(tunnelMonitors) + {old(executor.issued)}
        && Live() == old(Live()) + [Job(old(executor.issued), Monitor, RunDelaySeconds)]
      ensures !ok ==>
        executor.queue == old(executor.queue) && executor.issued == old(executor.issued) && tunnelMonitors == old(tunnelMonitors)
    {
      var installed, forwards := InstallForwards(forwardOk);
      ok := installed == |config.tunnels|;
      if ok {
        ScheduleNextRun(Monitor);
      }
    }

    /** _stopQuietly(): disconnect a present session; only a normal return clears it. Errors are swallowed. */
    method StopQuietly(disconnectThrows: bool)
      requires Valid()
      modifies this
      ensures Valid() && tunnelMonitors == old(tunnelMonitors)
      ensures old(session).None? ==> session == None && calls == old(calls)
      ensures old(session).Some? && disconnectThrows ==> session == old(session) && calls == old(calls)
      ensures old(session).Some? && !disconnectThrows ==>
        session == None && calls == old(calls) + [Disconnected(old(session).value)]
    {
      if session.Some? {
        if !disconnectThrows {
          calls := calls + [Disconnected(session.value)];
          session := None;
        }
      }
    }

    /**
     * stop(): cancel every future ever registered, then _stopQuietly. The
     * queue is left as it is, but nothing in it will run. With the session
     * already absent no adapter call is made, so a second stop only cancels again.
     */
    method Stop(disconnectThrows: bool)
      requires Valid()
      modifies this, executor
      ensures Valid()
      ensures executor.cancelled == old(executor.cancelled) + tunnelMonitors
      ensures executor.queue == old(executor.queue) && executor.issued == old(executor.issued)
      ensures tunnelMonitors == old(tunnelMonitors)
      ensures Live() == []
      ensures old(session).None? ==> session == None && calls == old(calls)
      ensures old(session).Some? && disconnectThrows ==> session == old(session) && calls == old(calls)
      ensures old(session).Some? && !disconnectThrows ==>
        session == None && calls == old(calls) + [Disconnected(old(session).value)]
    {
      var pending := tunnelMonitors;
      while pending != {}
        invariant pending <= tunnelMonitors
        invariant Valid() && tunnelMonitors == old(tunnelMonitors)
        invariant executor.cancelled == old(executor.cancelled) + (tunnelMonitors - pending)
        invariant executor.queue == old(executor.queue) && executor.issued == old(executor.issued)
        invariant session == old(session) && calls == old(calls)
        decreases pending
      {
        var f :| f in pending;
        executor.Cancel(f);
        pending := pending - {f};
      }
      LiveJobsAllCancelled(executor.queue, executor.cancelled);
      StopQuietly(disconnectThrows);
    }

    /** Whether a retry run, with these library answers, gets through both connect and start. */
    ghost predicate RetrySucceeds(env: Environment)
      reads config
    {
      && Endpoint(config.host).Some?
      && env.connect.SessionCreated? && env.connect.connects
      && Installed(PortPairs(config.tunnels), env.forwardOk, Some(env.connect.session)) == |config.tunnels|
    }

    /** TunnelMonitor.run(): re-arm itself while connected, else hand over to a retry. */
    method RunMonitor(alive: bool)
      requires Valid()
      modifies this, executor
      ensures Valid() && session == old(session) && calls == old(calls)
      ensures executor.cancelled == old(executor.cancelled)
      ensures old(session).None? ==> tunnelMonitors == old(tunnelMonitors)
      ensures old(session).Some? ==> tunnelMonitors == old(tunnelMonitors) + {old(executor.issued)}
      ensures old(session).None? ==>
        executor.queue == old(executor.queue) && executor.issued == old(executor.issued) && Live() == old(Live())
      ensures old(session).Some? ==>
        var next := if alive then Monitor else Retry;
        && executor.queue == old(executor.queue) + [Job(old(executor.issued), next, RunDelaySeconds)]
        && executor.issued == old(executor.issued) + 1
        && Live() == old(Live()) + [Job(old(executor.issued), next, RunDelaySeconds)]
    {
      if session.None? {
        // session.isConnected() on a null session: the NullPointerException ends the run.
        return;
      }
      if alive {
        ScheduleNextRun(Monitor);
      } else {
        ScheduleNextRun(Retry);
      }
    }

    /** TunnelRetry.run up to the reschedule: connect, then start, and _stopQuietly when either fails. */
    method Reconnect(env: Environment) returns (ok: bool)
      requires Valid()
      modifies this, executor
      ensures Valid() && executor.cancelled == old(executor.cancelled)
      ensures ok == RetrySucceeds(env)
      ensures ok ==>
        && executor.queue == old(executor.queue) + [Job(old(executor.issued), Monitor, RunDelaySeconds)]
        && executor.issued == old(executor.issued) + 1
        && tunnelMonitors == old(tunnelMonitors) + {old(executor.issued)}
        && Live() == old(Live()) + [Job(old(executor.issued), Monitor, RunDelaySeconds)]
      ensures !ok ==>
        executor.queue == old(executor.queue) && executor.issued == old(executor.issued) && tunnelMonitors == old(tunnelMonitors)
      ensures ok ==> session == Some(env.connect.session)
      ensures !ok && !env.disconnectThrows ==> session == None
      ensures RetryOutcome(config.host, PortPairs(config.tunnels), env, old(session), old(calls), session, calls)
    {
      ghost var s0, c0 := session, calls;
      var connected := Connect(env.connect);
      ghost var sA, cA := session, calls;
      if !connected {
        StopQuietly(env.disconnectThrows);
        RetryNotConnected(config.host, PortPairs(config.tunnels), env, s0, c0, sA, cA, session, calls);
        return false;
      }
      ok := Start(env.forwardOk);
      ghost var cB := calls;
      if !ok {
        StopQuietly(env.disconnectThrows);
      }
      RetryConnected(config.host, PortPairs(config.tunnels), env, s0, c0, sA, cA, cB, ok, session, calls);
    }

    /**
     * TunnelRetry.run(): connect and start; on any failure disconnect quietly
     * and re-arm itself. Either way exactly one job follows.
     */
    method RunRetry(env: Environment)
      requires Valid()
      modifies this, executor
      ensures Valid() && executor.cancelled == old(executor.cancelled)
      ensures tunnelMonitors == old(tunnelMonitors) + {old(executor.issued)}
      ensures var next := if RetrySucceeds(env) then Monitor else Retry;
        && executor.queue == old(executor.queue) + [Job(old(executor.issued), next, RunDelaySeconds)]
        && executor.issued == old(executor.issued) + 1
        && Live() == old(Live()) + [Job(old(executor.issued), next, RunDelaySeconds)]
      ensures RetrySucceeds(env) ==> session == Some(env.connect.session)
      ensures !RetrySucceeds(env) && !env.disconnectThrows ==> session == None
      ensures RetryOutcome(config.host, PortPairs(config.tunnels), env, old(session), old(calls), session, calls)
    {
      var ok := Reconnect(env);
      if !ok {
        ScheduleNextRun(Retry);
      }
    }

    /**
     * The worker runs the job of this tunnel that falls due first: a
     * cancelled one is dropped, any other runs its task. No run ever adds
     * more than the one job it replaces, so a started tunnel keeps at most
     * one live job.
     */
    method RunNext(env: Environment) returns (ran: Option<Task>)
      requires Valid()
      modifies this, executor
      ensures Valid()
      ensures |Live()| <= |old(Live())|
      ensures ran.Some? <==> old(executor.queue) != [] && old(executor.queue)[0].future !in old(executor.cancelled)
      ensures ran.Some? ==> ran.value == old(executor.queue)[0].task
      ensures executor.cancelled == old(executor.cancelled)
      ensures old(executor.queue) != [] && (ran.None? || (ran == Some(Monitor) && old(session).None?)) ==> executor.queue == old(executor.queue)[1..]
      ensures ran == Some(Monitor) && old(session).Some? ==>
        executor.queue == old(executor.queue)[1..] + [Job(old(executor.issued), if env.alive then Monitor else Retry, RunDelaySeconds)]
      ensures ran == Some(Retry) ==>
        executor.queue == old(executor.queue)[1..] + [Job(old(executor.issued), if RetrySucceeds(env) then Monitor else Retry, RunDelaySeconds)]
      ensures ran.None? || (ran == Some(Monitor) && old(session).None?) ==> executor.issued == old(executor.issued)
      ensures ran == Some(Retry) || (ran == Some(Monitor) && old(session).Some?) ==> executor.issued == old(executor.issued) + 1
      ensures ran.None? || (ran == Some(Monitor) && old(session).None?) ==> tunnelMonitors == old(tunnelMonitors)
      ensures ran == Some(Retry) || (ran == Some(Monitor) && old(session).Some?) ==>
        tunnelMonitors == old(tunnelMonitors) + {old(executor.issued)}
      ensures ran == Some(Monitor) ==> session == old(session) && calls == old(calls)
      ensures ran == Some(Retry) && RetrySucceeds(env) ==> session == Some(env.connect.session)
      ensures ran == Some(Retry) && !RetrySucceeds(env) && !env.disconnectThrows ==> session == None
      ensures ran == Some(Retry) ==> RetryOutcome(config.host, PortPairs(config.tunnels), env, old(session), old(calls), session, calls)
      ensures ran == Some(Retry) ==> |Live()| == |old(Live())|
      ensures ran == Some(Monitor) && old(session).Some? ==> |Live()| == |old(Live())|
      ensures ran == Some(Monitor) && old(session).Some? ==>
        Live() == old(Live())[1..] + [Job(old(executor.issued), if env.alive then Monitor else Retry, RunDelaySeconds)]
      ensures ran == Some(Retry) ==>
        Live() == old(Live())[1..] + [Job(old(executor.issued), if RetrySucceeds(env) then Monitor else Retry, RunDelaySeconds)]
      ensures ran.None? ==> session == old(session) && calls == old(calls) && Live() == old(Live())
      ensures old(Live()) == [] ==> ran.None?
    {
      ghost var before := executor.queue;
      LiveJobsBound(executor.queue, executor.cancelled);
      var job := executor.Take();
      match job {
        case None =>
          ran := None;
        case Some(j) =>
          assert before == [j] + executor.queue;
          if j.future in executor.cancelled {
            ran := None;
          } else {
            ran := Some(j.task);
            LiveJobsBound(executor.queue, executor.cancelled);
            match j.task {
              case Monitor => RunMonitor(env.alive);
              case Retry => RunRetry(env);
            }
          }
      }
    }
  }

  /** A tunnel to host forwarding pair, connected on session 1 and started. */
  method StartedTunnel(host: string, pair: string) returns (tunnel: Tunnel, connected: bool, started: bool)
    requires host == "localhost:4444" && pair == "4444:5555"
    ensures fresh(tunnel) && fresh(tunnel.executor) && fresh(tunnel.config) && tunnel.Valid()
    ensures connected && started
    ensures tunnel.config.host == Some(host) && tunnel.config.tunnels == [pair]
    ensures Endpoint(tunnel.config.host) == Some(HostPort("localhost", 4444))
    ensures tunnel.session == Some(Session(1))
    ensures tunnel.executor.issued == 1 && tunnel.executor.cancelled == {}
    ensures tunnel.executor.queue == [Job(0, Monitor, RunDelaySeconds)] && tunnel.Live() == tunnel.executor.queue
  {
    var config := ScenarioConfig(host, pair);
    HostPortNumericExample(host);
    PairInstalls(pair, Session(1));
    var executor := new Executor();
    tunnel := new Tunnel(config, executor);
    connected := tunnel.Connect(SessionCreated(Session(1), true));
    started := tunnel.Start([true]);
  }

  /** A fresh config with setHost(host) and setTunnels([pair]) applied. */
  method ScenarioConfig(host: string, pair: string) returns (config: TunnelConfig)
    ensures fresh(config) && config.host == Some(host) && config.tunnels == [pair]
  {
    config := new TunnelConfig();
    config.SetHost(Some(host));
    config.SetTunnels([pair]);
  }

  /** With the library accepting it, the forward "4444:5555" is installed on any session. */
  lemma PairInstalls(pair: string, s: Session)
    requires pair == "4444:5555"
    ensures Installed(PortPairs([pair]), [true], Some(s)) == 1
  {
    PortPairExample(pair);
    PortPairsAt([pair], 0);
    assert CanForward(PortPairs([pair]), [true], Some(s), 0);
  }

  /**
   * A tunnel to "localhost:4444" forwarding "4444:5555": after start, a
   * monitor that finds the session alive re-arms itself; one that finds it
   * dead hands over to a retry.
   */
  method MonitorScenario(host: string, pair: string) returns (ran: seq<Option<Task>>, handedOver: bool)
    requires host == "localhost:4444" && pair == "4444:5555"
    ensures ran == [Some(Monitor), Some(Monitor)]
    ensures handedOver
  {
    var tunnel, connected, started := StartedTunnel(host, pair);
    var healthy := tunnel.RunNext(Environment(true, GetSessionFails, [], false));
    assert tunnel.executor.queue == [Job(1, Monitor, RunDelaySeconds)];
    var dead := tunnel.RunNext(Environment(false, GetSessionFails, [], false));
    handedOver := tunnel.executor.queue == [Job(2, Retry, RunDelaySeconds)];
    ran := [healthy, dead];
  }

  /**
   * The same tunnel, after a monitor that finds the session dead and a retry
   * whose getSession throws: the old session is disconnected and the retry
   * re-arms itself.
   */
  method FailedRetryTunnel(host: string, pair: string) returns (tunnel: Tunnel, ran: seq<Option<Task>>)
    requires host == "localhost:4444" && pair == "4444:5555"
    ensures fresh(tunnel) && fresh(tunnel.executor) && tunnel.Valid()
    ensures ran == [Some(Monitor), Some(Retry)]
    ensures tunnel.config.host == Some(host) && tunnel.config.tunnels == [pair]
    ensures Endpoint(tunnel.config.host) == Some(HostPort("localhost", 4444))
    ensures tunnel.session == None
    ensures tunnel.calls != [] && tunnel.calls[|tunnel.calls| - 1] == Disconnected(Session(1))
    ensures tunnel.executor.issued == 3 && tunnel.executor.cancelled == {}
    ensures tunnel.executor.queue == [Job(2, Retry, RunDelaySeconds)]
  {
    var connected, started;
    tunnel, connected, started := StartedTunnel(host, pair);
    var dead := tunnel.RunNext(Environment(false, GetSessionFails, [], false));
    assert tunnel.executor.queue == [Job(1, Retry, RunDelaySeconds)];
    var failedRetry := tunnel.RunNext(Environment(false, GetSessionFails, [], false));
    ran := [dead, failedRetry];
  }

  /** Then a retry that reconnects on session 2: a monitor takes over. */
  method RecoveredTunnel(host: string, pair: string) returns (tunnel: Tunnel, ran: seq<Option<Task>>)
    requires host == "localhost:4444" && pair == "4444:5555"
    ensures fresh(tunnel) && fresh(tunnel.executor) && tunnel.Valid()
    ensures ran == [Some(Monitor), Some(Retry), Some(Retry)]
    ensures tunnel.session == Some(Session(2))
    ensures tunnel.executor.queue == [Job(3, Monitor, RunDelaySeconds)]
  {
    var before;
    tunnel, before := FailedRetryTunnel(host, pair);
    PairInstalls(pair, Session(2));
    var env := Environment(false, SessionCreated(Session(2), true), [true], false);
    assert tunnel.RetrySucceeds(env);
    var retry := tunnel.RunNext(env);
    ran := before + [retry];
  }

  /** Then stop: the session is disconnected, and the left-over monitor is skipped when it falls due. */
  method RecoveryScenario(host: string, pair: string) returns (ran: seq<Option<Task>>, disconnected: bool)
    requires host == "localhost:4444" && pair == "4444:5555"
    ensures ran == [Some(Monitor), Some(Retry), Some(Retry), None]
    ensures disconnected
  {
    var tunnel, before := RecoveredTunnel(host, pair);
    tunnel.Stop(false);
    disconnected := tunnel.session.None?;
    var afterStop := tunnel.RunNext(Environment(true, GetSessionFails, [], false));
    ran := before + [afterStop];
  }
}
