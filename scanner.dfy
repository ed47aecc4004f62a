/**
 * The scan engine of scanner.py, run sequentially: `PortScanner` with its stop
 * flag, counters and result queue, `scan_host` (the ports of one address in a
 * shuffled order) and `scan_range` (the addresses of a range in a shuffled
 * order, then the closing progress line and the completion sentinel).
 *
 * What the world does is an `Environment`: how each `ip:port` answers a probe,
 * the service-name table, whether the user has pressed Stop once n probes have
 * completed, and the orders `random.shuffle` picks. Every read of the stop flag
 * is preceded by a `Poll`, at which a pending Stop lands.
 */
module Scanner {
  import opened Options
  import opened Ipv4
  import opened Probe
  import opened Shuffling

  datatype Environment = Environment(
    services: map<nat, string>,                // socket.getservbyport, as a partial table
    tcp: map<(string, nat), TcpOutcome>,       // how each ip:port answers a TCP connect; others time out
    udp: map<(string, nat), UdpOutcome>,       // how each ip:port answers a UDP datagram; others time out
    stopAfter: Option<nat>,                    // Stop is pressed once this many probes have completed
    hostDraws: seq<nat>,                       // the draws of random.shuffle(ip_list)
    portDraws: map<string, seq<nat>>)          // the draws of random.shuffle(random_ports) in scan_host(ip, ...)
  {
    function Tcp(ip: string, port: nat): TcpOutcome {
      if (ip, port) in tcp then tcp[(ip, port)] else ConnectTimeout
    }

    function Udp(ip: string, port: nat): UdpOutcome {
      if (ip, port) in udp then udp[(ip, port)] else RecvTimeout
    }

    /** Stop has been pressed by the time `n` probes have completed; once pressed it stays pressed. */
    predicate StopPressed(n: nat) {
      stopAfter.Some? && stopAfter.value <= n
    }

    function HostOrder(hosts: seq<string>): seq<string> {
      Shuffle(hosts, hostDraws)
    }

    function PortOrder(ip: string, ports: seq<nat>): seq<nat> {
      Shuffle(ports, if ip in portDraws then portDraws[ip] else [])
    }
  }

  /** The events of the probe `scan_func(ip, port)`. */
  function ProbeEvents(protocol: Protocol, ip: string, port: nat, env: Environment): seq<Event> {
    match protocol
    case TCP => TcpEvents(ip, port, env.Tcp(ip, port), env.services)
    case UDP => UdpEvents(ip, port, env.Udp(ip, port), env.services)
  }

  /** What a stretch of the scan appends, the completed count after it, and whether the stop flag is set. */
  datatype Run = Run(events: seq<Event>, completed: nat, stopped: bool)

  /**
   * The `for port in random_ports` loop of `scan_host` from the `i`-th port on,
   * entered with the stop flag clear.
   */
  function PortLoop(ip: string, ports: seq<nat>, i: nat, protocol: Protocol, env: Environment, total: nat,
                    completed: nat): Run
    decreases |ports| - i
  {
    if i >= |ports| then Run([], completed, false)
    else if env.StopPressed(completed) then Run([], completed, true)
    else
      var rest := PortLoop(ip, ports, i + 1, protocol, env, total, completed + 1);
      Run(ProbeEvents(protocol, ip, ports[i], env) + [Progress(completed + 1, total)] + rest.events,
          rest.completed, rest.stopped)
  }

  /** `scan_host(ip, ports, protocol)`: nothing if the stop flag is set on entry, else the port loop. */
  function HostRun(ip: string, ports: seq<nat>, protocol: Protocol, env: Environment, total: nat,
                   completed: nat, stopped: bool): Run
  {
    if stopped || env.StopPressed(completed) then Run([], completed, true)
    else PortLoop(ip, env.PortOrder(ip, ports), 0, protocol, env, total, completed)
  }

  /**
   * The dispatch loop `for ip in ip_list` of `scan_range` from the `j`-th
   * address on, entered with the stop flag clear.
   */
  function HostLoop(hosts: seq<string>, j: nat, ports: seq<nat>, protocol: Protocol, env: Environment, total: nat,
                    completed: nat): Run
    decreases |hosts| - j
  {
    if j >= |hosts| then Run([], completed, false)
    else if env.StopPressed(completed) then Run([], completed, true)
    else
      var h := HostRun(hosts[j], ports, protocol, env, total, completed, false);
      if h.stopped then h
      else
        var rest := HostLoop(hosts, j + 1, ports, protocol, env, total, h.completed);
        Run(h.events + rest.events, rest.completed, rest.stopped)
  }

  /** What `scan_range` leaves behind: the events it appends and the final counters and flag. */
  datatype Scan = Scan(events: seq<Event>, completed: nat, total: nat, stopped: bool)

  /** The `finally` block of `scan_range`. */
  function Finish(r: Run, total: nat, env: Environment): Scan {
    var stopped := r.stopped || env.StopPressed(r.completed);
    Scan(r.events + (if stopped then [] else [ProgressDone]) + [Complete], r.completed, total, stopped)
  }

  /**
   * `ip_list` of `scan_range`: the addresses from start to end inclusive, as
   * text; `None` when `IPv4Address` raises on either end.
   */
  function IpList(startIp: string, endIp: string): Option<seq<string>> {
    var start := Parse(startIp);
    var end := Parse(endIp);
    if start.None? || end.None? then None else Some(Range(start.value, end.value))
  }

  /**
   * `total_tasks` as `scan_range` leaves it: the number of addresses times the
   * number of ports, or whatever it held before (`previousTotal`) when an
   * address does not parse.
   */
  function Total(ipList: Option<seq<string>>, ports: seq<nat>, previousTotal: nat): (total: nat)
    ensures ipList.Some? ==> (total == 0 <==> ipList.value == [] || ports == [])
  {
    if ipList.None? then previousTotal else |ipList.value| * |ports|
  }

  /**
   * The `try` block of `scan_range` once the addresses are known. An address
   * that does not parse, or a pool size below 1, raises before any host is
   * scanned.
   */
  function TryBlock(ipList: Option<seq<string>>, ports: seq<nat>, protocol: string, maxThreads: int,
                    env: Environment): Run
  {
    if ipList.None? || maxThreads <= 0 then Run([], 0, false)
    else HostLoop(env.HostOrder(ipList.value), 0, ports, ProtocolFor(protocol), env, Total(ipList, ports, 0), 0)
  }

  /** The `try` block, then the `finally` block. */
  function ListScan(ipList: Option<seq<string>>, ports: seq<nat>, protocol: string, maxThreads: int,
                    env: Environment, previousTotal: nat): Scan
  {
    Finish(TryBlock(ipList, ports, protocol, maxThreads, env), Total(ipList, ports, previousTotal), env)
  }

  /** `scan_range(start_ip, end_ip, ports, protocol, max_threads)`. */
  function RangeScan(startIp: string, endIp: string, ports: seq<nat>, protocol: string, maxThreads: int,
                     env: Environment, previousTotal: nat): Scan
  {
    ListScan(IpList(startIp, endIp), ports, protocol, maxThreads, env, previousTotal)
  }

  // ---------------------------------------------------------------------------
  // Views of an event log

  /** The `(ip, port)` of every result, in order. */
  function Probed(events: seq<Event>): seq<(string, nat)> {
    if events == [] then []
    else (if events[0].Result? then [(events[0].ip, events[0].port)] else []) + Probed(events[1..])
  }

  /** The completed counts of the intermediate progress events, in order. */
  function Progresses(events: seq<Event>): seq<nat> {
    if events == [] then []
    else (if events[0].Progress? then [events[0].completed] else []) + Progresses(events[1..])
  }

  /**
   * The shape of what the probe loops append when `done` probes have completed:
   * each result is preceded by at most its scanning notice and followed at once
   * by the progress event that counts it.
   */
  predicate Reported(events: seq<Event>, done: nat, total: nat)
    decreases |events|
  {
    if events == [] then true
    else if events[0].Scanning? then Reported(events[1..], done, total)
    else events[0].Result? && |events| >= 2 && events[1] == Progress(done + 1, total)
         && Reported(events[2..], done + 1, total)
  }

  /** The probes of one host, in the order `scan_host` makes them. */
  function PortTasks(ip: string, ports: seq<nat>): (t: seq<(string, nat)>)
    ensures |t| == |ports|
    ensures forall i :: 0 <= i < |t| ==> t[i] == (ip, ports[i])
  {
    if ports == [] then [] else [(ip, ports[0])] + PortTasks(ip, ports[1..])
  }

  /** Every probe of a scan from the `j`-th address on, host by host, in the shuffled orders. */
  function Tasks(hosts: seq<string>, j: nat, ports: seq<nat>, env: Environment): seq<(string, nat)>
    decreases |hosts| - j
  {
    if j >= |hosts| then [] else PortTasks(hosts[j], env.PortOrder(hosts[j], ports)) + Tasks(hosts, j + 1, ports, env)
  }

  /**
   * Every probe a scan of `hosts` on `ports` asks for, in the order the
   * addresses and ports are given, before either is shuffled.
   */
  function Pairs(hosts: seq<string>, ports: seq<nat>): seq<(string, nat)> {
    if hosts == [] then [] else PortTasks(hosts[0], ports) + Pairs(hosts[1..], ports)
  }

  // ---------------------------------------------------------------------------
  // Lemmas about the views

  lemma {:induction false} ProbedAppend(a: seq<Event>, b: seq<Event>)
    ensures Probed(a + b) == Probed(a) + Probed(b)
  {
    if a == [] {
      assert a + b == b;
    } else {
      assert (a + b)[0] == a[0];
      assert (a + b)[1..] == a[1..] + b;
      ProbedAppend(a[1..], b);
    }
  }

  lemma {:induction false} ProgressesAppend(a: seq<Event>, b: seq<Event>)
    ensures Progresses(a + b) == Progresses(a) + Progresses(b)
  {
    if a == [] {
      assert a + b == b;
    } else {
      assert (a + b)[0] == a[0];
      assert (a + b)[1..] == a[1..] + b;
      ProgressesAppend(a[1..], b);
    }
  }

  lemma {:induction false} ReportedAppend(a: seq<Event>, b: seq<Event>, done: nat, total: nat)
    requires Reported(a, done, total) && Reported(b, done + |Probed(a)|, total)
    ensures Reported(a + b, done, total)
    decreases |a|
  {
    if a == [] {
      assert a + b == b;
    } else {
      assert (a + b)[0] == a[0];
      if a[0].Scanning? {
        assert (a + b)[1..] == a[1..] + b;
        assert Probed(a) == Probed(a[1..]);
        ReportedAppend(a[1..], b, done, total);
      } else {
        assert (a + b)[1] == a[1];
        assert (a + b)[2..] == a[2..] + b;
        assert Probed(a) == [(a[0].ip, a[0].port)] + Probed(a[1..]);
        assert a[1..][1..] == a[2..];
        assert Probed(a[1..]) == Probed(a[2..]);
        ReportedAppend(a[2..], b, done + 1, total);
      }
    }
  }

  /**
   * In a reported log every probe is followed by exactly one progress event, and
   * the progress counts run `done + 1, done + 2, ...`: they never go back.
   */
  lemma {:induction false} ReportedProgresses(events: seq<Event>, done: nat, total: nat)
    requires Reported(events, done, total)
    ensures Progresses(events) == seq(|Probed(events)|, i => done + 1 + i)
    decreases |events|
  {
    if events != [] {
      if events[0].Scanning? {
        ReportedProgresses(events[1..], done, total);
      } else {
        assert events[1..][1..] == events[2..];
        ReportedProgresses(events[2..], done + 1, total);
        assert Probed(events) == [(events[0].ip, events[0].port)] + Probed(events[2..]);
        assert Progresses(events) == [done + 1] + Progresses(events[2..]);
      }
    }
  }

  lemma ProbedOne(e: Event)
    ensures Probed([e]) == if e.Result? then [(e.ip, e.port)] else []
  {
    assert [e][1..] == [];
  }

  /** What one probe puts on the queue: at most a scanning notice, then the result for `ip:port`. */
  ghost predicate IsProbe(p: seq<Event>, ip: string, port: nat) {
    && 1 <= |p| <= 2
    && (|p| == 2 ==> p[0].Scanning?)
    && p[|p| - 1].Result? && p[|p| - 1].ip == ip && p[|p| - 1].port == port
  }

  lemma ProbeEventsIsProbe(protocol: Protocol, ip: string, port: nat, env: Environment)
    ensures IsProbe(ProbeEvents(protocol, ip, port, env), ip, port)
  {
  }

  /** One probe followed by its progress event extends a reported log by one probe. */
  lemma ProbeBlockReported(p: seq<Event>, ip: string, port: nat, done: nat, total: nat, rest: seq<Event>)
    requires IsProbe(p, ip, port) && Reported(rest, done + 1, total)
    ensures var block := p + [Progress(done + 1, total)];
      && Reported(block + rest, done, total)
      && Probed(block) == [(ip, port)]
  {
    var progress := Progress(done + 1, total);
    var block := p + [progress];
    var r := p[|p| - 1];
    var tail := [r, progress] + rest;
    assert tail[2..] == rest;
    assert Reported(tail, done, total);
    ProbedAppend(p, [progress]);
    ProbedOne(progress);
    ProbedOne(r);
    if |p| == 2 {
      assert block + rest == [p[0]] + tail;
      assert ([p[0]] + tail)[1..] == tail;
      assert p == [p[0]] + [r];
      ProbedAppend([p[0]], [r]);
      ProbedOne(p[0]);
    } else {
      assert block + rest == tail;
      assert p == [r];
    }
  }

  /**
   * `scan_host`'s port loop probes the ports in order from the `i`-th up to, and
   * not including, the first point at which the stop flag is seen set; each
   * probe adds one to the completed count and is followed by one progress
   * event; the flag ends up set exactly when some port was left unprobed, and
   * then Stop was pressed at the final count.
   */
  lemma {:induction false} PortLoopSpec(ip: string, ports: seq<nat>, i: nat, protocol: Protocol, env: Environment,
                                        total: nat, done: nat)
    requires i <= |ports|
    ensures var r := PortLoop(ip, ports, i, protocol, env, total, done);
      && Covers(r, PortTasks(ip, ports[i..]), env, total, done)
      && (r.stopped <==> r.completed < done + |ports| - i)
    decreases |ports| - i
  {
    if i < |ports| && !env.StopPressed(done) {
      var rest := PortLoop(ip, ports, i + 1, protocol, env, total, done + 1);
      PortLoopSpec(ip, ports, i + 1, protocol, env, total, done + 1);
      var p := ProbeEvents(protocol, ip, ports[i], env);
      ProbeEventsIsProbe(protocol, ip, ports[i], env);
      ProbeBlockReported(p, ip, ports[i], done, total, rest.events);
      PortLoopStep(ip, ports, i, protocol, env, total, done);
      assert ports[i..][1..] == ports[i + 1..];
      CoversStep(p + [Progress(done + 1, total)], rest, (ip, ports[i]), PortTasks(ip, ports[i + 1..]), env, total, done);
    }
  }

  /** A probe made while Stop is not pressed, followed by a covering loop, covers one task more. */
  lemma CoversStep(block: seq<Event>, rest: Run, task: (string, nat), tasks: seq<(string, nat)>, env: Environment,
                   total: nat, done: nat)
    requires Reported(block + rest.events, done, total) && Probed(block) == [task] && !env.StopPressed(done)
    requires Covers(rest, tasks, env, total, done + 1)
    ensures Covers(Run(block + rest.events, rest.completed, rest.stopped), [task] + tasks, env, total, done)
  {
    ProbedAppend(block, rest.events);
    assert ([task] + tasks)[..rest.completed - done] == [task] + tasks[..rest.completed - (done + 1)];
  }

  /** One turn of `scan_host`'s port loop: probe the `i`-th port, count it, report progress. */
  lemma PortLoopStep(ip: string, ports: seq<nat>, i: nat, protocol: Protocol, env: Environment, total: nat,
                     done: nat)
    requires i < |ports| && !env.StopPressed(done)
    ensures var rest := PortLoop(ip, ports, i + 1, protocol, env, total, done + 1);
      PortLoop(ip, ports, i, protocol, env, total, done)
        == Run(ProbeEvents(protocol, ip, ports[i], env) + [Progress(done + 1, total)] + rest.events,
               rest.completed, rest.stopped)
  {
  }

  /** The port loop ends with no events once the ports run out or the stop flag is found set. */
  lemma PortLoopEnd(ip: string, ports: seq<nat>, i: nat, protocol: Protocol, env: Environment, total: nat, n: nat)
    requires i >= |ports| || env.StopPressed(n)
    ensures PortLoop(ip, ports, i, protocol, env, total, n) == Run([], n, i < |ports|)
  {
  }

  /** The port loop's invariant carried over one probed port. */
  lemma PortLoopAdvance(whole: Run, done: seq<Event>, ip: string, ports: seq<nat>, i: nat, protocol: Protocol,
                        env: Environment, total: nat, n: nat)
    requires i < |ports| && !env.StopPressed(n)
    requires var rest := PortLoop(ip, ports, i, protocol, env, total, n);
      whole == Run(done + rest.events, rest.completed, rest.stopped)
    ensures var block := ProbeEvents(protocol, ip, ports[i], env) + [Progress(n + 1, total)];
      var rest := PortLoop(ip, ports, i + 1, protocol, env, total, n + 1);
      whole == Run(done + block + rest.events, rest.completed, rest.stopped)
  {
    var block := ProbeEvents(protocol, ip, ports[i], env) + [Progress(n + 1, total)];
    var rest := PortLoop(ip, ports, i + 1, protocol, env, total, n + 1);
    PortLoopStep(ip, ports, i, protocol, env, total, n);
    AppendAssociates(done, block, rest.events);
  }

  /** One turn of `scan_range`'s dispatch loop: run `scan_host` on the `j`-th address, go on unless it stopped. */
  lemma HostLoopStep(hosts: seq<string>, j: nat, ports: seq<nat>, protocol: Protocol, env: Environment, total: nat,
                     done: nat)
    requires j < |hosts| && !env.StopPressed(done)
    ensures var h := HostRun(hosts[j], ports, protocol, env, total, done, false);
      var rest := HostLoop(hosts, j + 1, ports, protocol, env, total, h.completed);
      HostLoop(hosts, j, ports, protocol, env, total, done)
        == if h.stopped then h else Run(h.events + rest.events, rest.completed, rest.stopped)
  {
  }

  lemma {:induction false} TasksLength(hosts: seq<string>, j: nat, ports: seq<nat>, env: Environment)
    requires j <= |hosts|
    ensures |Tasks(hosts, j, ports, env)| == (|hosts| - j) * |ports|
    decreases |hosts| - j
  {
    if j < |hosts| {
      TasksLength(hosts, j + 1, ports, env);
      assert (|hosts| - j) * |ports| == |ports| + (|hosts| - (j + 1)) * |ports|;
    }
  }

  /** A probe of `ip:p` occurs among one host's probes as often as `p` among its ports. */
  lemma {:induction false} PortTasksCount(ip: string, ports: seq<nat>, task: (string, nat))
    ensures multiset(PortTasks(ip, ports))[task] == if task.0 == ip then multiset(ports)[task.1] else 0
  {
    if ports != [] {
      PortTasksCount(ip, ports[1..], task);
      assert ports == [ports[0]] + ports[1..];
      assert PortTasks(ip, ports) == [(ip, ports[0])] + PortTasks(ip, ports[1..]);
    }
  }

  /** Shuffling one host's ports shuffles its probes. */
  lemma PortTasksPermute(ip: string, ports: seq<nat>, shuffled: seq<nat>)
    requires multiset(shuffled) == multiset(ports)
    ensures multiset(PortTasks(ip, shuffled)) == multiset(PortTasks(ip, ports))
  {
    forall task | true
      ensures multiset(PortTasks(ip, shuffled))[task] == multiset(PortTasks(ip, ports))[task]
    {
      PortTasksCount(ip, shuffled, task);
      PortTasksCount(ip, ports, task);
    }
  }

  /** A probe of `ip:p` occurs among the pairs as often as `ip` among the hosts times `p` among the ports. */
  lemma {:induction false} PairsCount(hosts: seq<string>, ports: seq<nat>, task: (string, nat))
    ensures multiset(Pairs(hosts, ports))[task] == multiset(hosts)[task.0] * multiset(ports)[task.1]
  {
    if hosts != [] {
      var m := multiset(ports)[task.1];
      var later := multiset(hosts[1..])[task.0];
      var first := multiset(PortTasks(hosts[0], ports))[task];
      var rest := multiset(Pairs(hosts[1..], ports))[task];
      assert multiset(Pairs(hosts, ports))[task] == first + rest;
      assert rest == later * m by {
        PairsCount(hosts[1..], ports, task);
      }
      assert first == if task.0 == hosts[0] then m else 0 by {
        PortTasksCount(hosts[0], ports, task);
      }
      assert multiset(hosts)[task.0] == (if task.0 == hosts[0] then 1 else 0) + later by {
        assert hosts == [hosts[0]] + hosts[1..];
      }
      if task.0 == hosts[0] {
        MultiplySuccessor(later, m);
      }
    }
  }

  lemma MultiplySuccessor(a: nat, b: nat)
    ensures (a + 1) * b == b + a * b
  {
  }

  /** Shuffling the hosts shuffles the pairs. */
  lemma PairsPermute(hosts: seq<string>, shuffled: seq<string>, ports: seq<nat>)
    requires multiset(shuffled) == multiset(hosts)
    ensures multiset(Pairs(shuffled, ports)) == multiset(Pairs(hosts, ports))
  {
    forall task | true
      ensures multiset(Pairs(shuffled, ports))[task] == multiset(Pairs(hosts, ports))[task]
    {
      PairsCount(shuffled, ports, task);
      PairsCount(hosts, ports, task);
    }
  }

  /** The probes from the `j`-th host on are those hosts' pairs, each host's ports in some order. */
  lemma {:induction false} TasksUnshuffled(hosts: seq<string>, j: nat, ports: seq<nat>, env: Environment)
    requires j <= |hosts|
    ensures multiset(Tasks(hosts, j, ports, env)) == multiset(Pairs(hosts[j..], ports))
    decreases |hosts| - j
  {
    if j < |hosts| {
      var ip := hosts[j];
      TasksUnshuffled(hosts, j + 1, ports, env);
      ShufflePermutes(ports, if ip in env.portDraws then env.portDraws[ip] else []);
      PortTasksPermute(ip, env.PortOrder(ip, ports), ports);
      assert hosts[j..][0] == ip && hosts[j..][1..] == hosts[j + 1..];
    } else {
      assert hosts[j..] == [];
    }
  }

  /**
   * Whatever orders `random.shuffle` picks, the probes of a scan of `hosts` are
   * a permutation of the pairs of an address of `hosts` and a port of `ports`.
   */
  lemma TasksPermute(hosts: seq<string>, ports: seq<nat>, env: Environment)
    ensures multiset(Tasks(env.HostOrder(hosts), 0, ports, env)) == multiset(Pairs(hosts, ports))
  {
    var shuffled := env.HostOrder(hosts);
    TasksUnshuffled(shuffled, 0, ports, env);
    assert shuffled[0..] == shuffled;
    ShufflePermutes(hosts, env.hostDraws);
    PairsPermute(hosts, shuffled, ports);
  }

  /**
   * `r` is what a probe loop entered with the stop flag clear and `done` probes
   * completed leaves when it has `tasks` to make: it makes, in order, the tasks
   * before the first point at which the stop flag is seen set, each followed by
   * the progress event that counts it; a probe happens only while Stop has not
   * been pressed; a loop that does not make every task ends with the flag set,
   * and the flag is only ever set because Stop was pressed by the final count.
   */
  ghost predicate Covers(r: Run, tasks: seq<(string, nat)>, env: Environment, total: nat, done: nat) {
    && done <= r.completed <= done + |tasks|
    && Reported(r.events, done, total)
    && Probed(r.events) == tasks[..r.completed - done]
    && (forall c :: done <= c < r.completed ==> !env.StopPressed(c))
    && (r.completed < done + |tasks| ==> r.stopped)
    && (r.stopped ==> env.StopPressed(r.completed))
  }

  /** A loop that makes all of its tasks, followed by another, covers both task lists. */
  lemma CoversAppend(h: Run, rest: Run, first: seq<(string, nat)>, later: seq<(string, nat)>, env: Environment,
                     total: nat, done: nat)
    requires Covers(h, first, env, total, done) && !h.stopped
    requires Covers(rest, later, env, total, h.completed)
    ensures Covers(Run(h.events + rest.events, rest.completed, rest.stopped), first + later, env, total, done)
  {
    assert first[..h.completed - done] == first;
    ReportedAppend(h.events, rest.events, done, total);
    ProbedAppend(h.events, rest.events);
    PrefixOfAppend(first, later, rest.completed - done);
  }

  /** The dispatch loop of `scan_range` covers all the probes of the scan from the `j`-th address on. */
  lemma {:induction false} HostLoopSpec(hosts: seq<string>, j: nat, ports: seq<nat>, protocol: Protocol,
                                        env: Environment, total: nat, done: nat)
    ensures Covers(HostLoop(hosts, j, ports, protocol, env, total, done), Tasks(hosts, j, ports, env), env, total, done)
    decreases |hosts| - j
  {
    if j < |hosts| && !env.StopPressed(done) {
      var shuffled := env.PortOrder(hosts[j], ports);
      var h := HostRun(hosts[j], ports, protocol, env, total, done, false);
      assert h == PortLoop(hosts[j], shuffled, 0, protocol, env, total, done);
      PortLoopSpec(hosts[j], shuffled, 0, protocol, env, total, done);
      var first := PortTasks(hosts[j], shuffled);
      assert shuffled[0..] == shuffled;
      var later := Tasks(hosts, j + 1, ports, env);
      assert Tasks(hosts, j, ports, env) == first + later;
      if h.stopped {
        assert HostLoop(hosts, j, ports, protocol, env, total, done) == h;
        PrefixOfAppend(first, later, h.completed - done);
      } else {
        var rest := HostLoop(hosts, j + 1, ports, protocol, env, total, h.completed);
        assert HostLoop(hosts, j, ports, protocol, env, total, done)
            == Run(h.events + rest.events, rest.completed, rest.stopped);
        HostLoopSpec(hosts, j + 1, ports, protocol, env, total, h.completed);
        CoversAppend(h, rest, first, later, env, total, done);
      }
    }
  }

  /**
   * `scan_host` probes the ports of `ip` in its shuffled order, up to where the
   * stop flag is seen set; when it is not stopped it has probed every listed
   * port, each as often as it is listed.
   */
  lemma HostRunProbes(ip: string, ports: seq<nat>, protocol: Protocol, env: Environment, total: nat, done: nat)
    ensures var r := HostRun(ip, ports, protocol, env, total, done, false);
      && done <= r.completed <= done + |ports|
      && Probed(r.events) == PortTasks(ip, env.PortOrder(ip, ports))[..r.completed - done]
      && (!r.stopped ==> multiset(Probed(r.events)) == multiset(PortTasks(ip, ports)))
  {
    var r := HostRun(ip, ports, protocol, env, total, done, false);
    var shuffled := env.PortOrder(ip, ports);
    var tasks := PortTasks(ip, shuffled);
    if env.StopPressed(done) {
      assert r == Run([], done, true);
    } else {
      assert r == PortLoop(ip, shuffled, 0, protocol, env, total, done);
      PortLoopSpec(ip, shuffled, 0, protocol, env, total, done);
      assert shuffled[0..] == shuffled;
      if !r.stopped {
        assert r.completed - done == |tasks|;
        assert tasks[..|tasks|] == tasks;
        ShufflePermutes(ports, if ip in env.portDraws then env.portDraws[ip] else []);
        PortTasksPermute(ip, shuffled, ports);
      }
    }
  }

  lemma AppendAssociates<T>(a: seq<T>, b: seq<T>, c: seq<T>)
    ensures a + (b + c) == (a + b) + c
  {
  }

  lemma PrefixOfAppend<T>(a: seq<T>, b: seq<T>, k: nat)
    requires k <= |a| + |b|
    ensures k <= |a| ==> (a + b)[..k] == a[..k]
    ensures k >= |a| ==> (a + b)[..k] == a + b[..k - |a|]
  {
    if k >= |a| {
      assert (a + b)[..k] == a + b[..k - |a|];
    }
  }

  /**
   * `scan_range` counts what it does: the completed count is the number of
   * probes made, never more than `total_tasks`, which is the number of
   * addresses from start to end inclusive times the number of ports; the
   * probes are a prefix of the scan's tasks, and they are all made exactly
   * when the scan is not stopped. Progress events count 1, 2, ..., completed,
   * each out of `total_tasks`. A scan that is not stopped probes every address
   * of the range on every port, each pair as often as the port is listed.
   */
  lemma RangeScanCounts(startIp: string, endIp: string, ports: seq<nat>, protocol: string, maxThreads: int,
                        env: Environment, previousTotal: nat)
    requires Parse(startIp).Some? && Parse(endIp).Some?
    ensures var start, end := Parse(startIp).value, Parse(endIp).value;
      var s := RangeScan(startIp, endIp, ports, protocol, maxThreads, env, previousTotal);
      var tasks := Tasks(env.HostOrder(Range(start, end)), 0, ports, env);
      && s.total == (if start <= end then end - start + 1 else 0) * |ports|
      && |tasks| == s.total
      && s.completed <= s.total
      && Probed(s.events) == tasks[..s.completed]
      && Progresses(s.events) == seq(s.completed, i => i + 1)
      && (forall i :: 0 <= i < |s.events| && s.events[i].Progress? ==> s.events[i].total == s.total)
      && (maxThreads > 0 && !s.stopped ==> s.completed == s.total)
      && (maxThreads > 0 && !s.stopped ==> multiset(Probed(s.events)) == multiset(Pairs(Range(start, end), ports)))
  {
    var ipList := Range(Parse(startIp).value, Parse(endIp).value);
    assert IpList(startIp, endIp) == Some(ipList);
    ListScanCounts(ipList, ports, protocol, maxThreads, env, previousTotal);
  }

  /**
   * A scan that is not stopped probes exactly the pairs of an address from
   * start to end and a listed port: `ip:p` is probed as often as `p` is listed
   * when `ip` lies in the range, and never otherwise.
   */
  lemma RangeScanProbesEachPair(startIp: string, endIp: string, ports: seq<nat>, protocol: string, maxThreads: int,
                                env: Environment, previousTotal: nat, task: (string, nat))
    requires Parse(startIp).Some? && Parse(endIp).Some? && maxThreads > 0
    requires !RangeScan(startIp, endIp, ports, protocol, maxThreads, env, previousTotal).stopped
    ensures var start, end := Parse(startIp).value, Parse(endIp).value;
      var s := RangeScan(startIp, endIp, ports, protocol, maxThreads, env, previousTotal);
      var inRange := Parse(task.0).Some? && start <= Parse(task.0).value <= end;
      multiset(Probed(s.events))[task] == if inRange then multiset(ports)[task.1] else 0
  {
    var start, end := Parse(startIp).value, Parse(endIp).value;
    var s := RangeScan(startIp, endIp, ports, protocol, maxThreads, env, previousTotal);
    assert multiset(Probed(s.events)) == multiset(Pairs(Range(start, end), ports)) by {
      RangeScanCounts(startIp, endIp, ports, protocol, maxThreads, env, previousTotal);
    }
    RangeOnce(start, end, task.0);
    RangeMembers(start, end, task.0);
    DistinctPairsCount(Range(start, end), ports, task);
  }

  /** When `ip` occurs at most once among the hosts, the pairs hold `ip:p` as often as `p` is listed, or never. */
  lemma {:induction false} DistinctPairsCount(hosts: seq<string>, ports: seq<nat>, task: (string, nat))
    requires multiset(hosts)[task.0] <= 1
    ensures multiset(Pairs(hosts, ports))[task] == if task.0 in hosts then multiset(ports)[task.1] else 0
  {
    if hosts != [] {
      assert hosts == [hosts[0]] + hosts[1..];
      assert multiset(Pairs(hosts, ports))[task]
          == multiset(PortTasks(hosts[0], ports))[task] + multiset(Pairs(hosts[1..], ports))[task];
      PortTasksCount(hosts[0], ports, task);
      DistinctPairsCount(hosts[1..], ports, task);
      if task.0 == hosts[0] {
        assert multiset(hosts[1..])[task.0] == 0;
      }
    }
  }

  /** `RangeScanCounts` for a list of addresses that parsed. */
  lemma ListScanCounts(ipList: seq<string>, ports: seq<nat>, protocol: string, maxThreads: int,
                       env: Environment, previousTotal: nat)
    ensures var s := ListScan(Some(ipList), ports, protocol, maxThreads, env, previousTotal);
      var tasks := Tasks(env.HostOrder(ipList), 0, ports, env);
      && s.total == |ipList| * |ports|
      && |tasks| == s.total
      && s.completed <= s.total
      && Probed(s.events) == tasks[..s.completed]
      && Progresses(s.events) == seq(s.completed, i => i + 1)
      && (forall i :: 0 <= i < |s.events| && s.events[i].Progress? ==> s.events[i].total == s.total)
      && (maxThreads > 0 && !s.stopped ==> s.completed == s.total)
      && (maxThreads > 0 && !s.stopped ==> multiset(Probed(s.events)) == multiset(Pairs(ipList, ports)))
  {
    var hosts := env.HostOrder(ipList);
    var total := |ipList| * |ports|;
    var r := TryBlock(Some(ipList), ports, protocol, maxThreads, env);
    TasksLength(hosts, 0, ports, env);
    if maxThreads > 0 {
      HostLoopSpec(hosts, 0, ports, ProtocolFor(protocol), env, total, 0);
    }
    var tasks := Tasks(hosts, 0, ports, env);
    FinishCounts(r, tasks, total, env);
    if maxThreads > 0 {
      assert tasks[..|tasks|] == tasks;
      TasksPermute(ipList, ports, env);
    }
  }

  lemma FinishCounts(r: Run, tasks: seq<(string, nat)>, total: nat, env: Environment)
    requires r.completed <= |tasks| && Reported(r.events, 0, total) && Probed(r.events) == tasks[..r.completed]
    ensures var s := Finish(r, total, env);
      && s.completed == r.completed && s.total == total
      && Probed(s.events) == tasks[..s.completed]
      && Progresses(s.events) == seq(s.completed, i => i + 1)
      && (forall i :: 0 <= i < |s.events| && s.events[i].Progress? ==> s.events[i].total == total)
  {
    ReportedProgresses(r.events, 0, total);
    ReportedTotals(r.events, 0, total);
    FinishViews(r, total, env);
    var s := Finish(r, total, env);
    assert forall i :: |r.events| <= i < |s.events| ==> !s.events[i].Progress?;
  }

  /** The closing lines of `scan_range` are neither probes nor intermediate progress. */
  lemma FinishViews(r: Run, total: nat, env: Environment)
    ensures var s := Finish(r, total, env);
      && Probed(s.events) == Probed(r.events) && Progresses(s.events) == Progresses(r.events)
      && s.completed == r.completed && s.total == total
  {
    var s := Finish(r, total, env);
    var closing := if s.stopped then [] else [ProgressDone];
    assert s.events == r.events + closing + [Complete];
    ProbedAppend(r.events + closing, [Complete]);
    ProbedAppend(r.events, closing);
    ProgressesAppend(r.events + closing, [Complete]);
    ProgressesAppend(r.events, closing);
    assert [Complete][1..] == [] && [ProgressDone][1..] == [];
  }

  /**
   * Whatever happens, `scan_range` ends with the completion sentinel, exactly
   * once; just before it stands the closing progress event `ProgressDone`
   * (and nowhere else) exactly when the scan was not stopped, and that is
   * exactly when Stop had not been pressed by the time the last probe
   * completed. No probe is made once Stop has been pressed.
   */
  lemma RangeScanEnds(startIp: string, endIp: string, ports: seq<nat>, protocol: string, maxThreads: int,
                      env: Environment, previousTotal: nat)
    ensures var s := RangeScan(startIp, endIp, ports, protocol, maxThreads, env, previousTotal);
      var n := |s.events|;
      && n >= 1 && s.events[n - 1] == Complete
      && (forall i :: 0 <= i < n - 1 ==> s.events[i] != Complete)
      && (s.stopped <==> env.StopPressed(s.completed))
      && (!s.stopped <==> n >= 2 && s.events[n - 2] == ProgressDone)
      && (forall i :: 0 <= i < n - 2 ==> s.events[i] != ProgressDone)
      && (forall c :: 0 <= c < s.completed ==> !env.StopPressed(c))
  {
    ListScanEnds(IpList(startIp, endIp), ports, protocol, maxThreads, env, previousTotal);
  }

  /** `RangeScanEnds` for whatever list of addresses the scan is given. */
  lemma ListScanEnds(ipList: Option<seq<string>>, ports: seq<nat>, protocol: string, maxThreads: int,
                     env: Environment, previousTotal: nat)
    ensures var s := ListScan(ipList, ports, protocol, maxThreads, env, previousTotal);
      var n := |s.events|;
      && n >= 1 && s.events[n - 1] == Complete
      && (forall i :: 0 <= i < n - 1 ==> s.events[i] != Complete)
      && (s.stopped <==> env.StopPressed(s.completed))
      && (!s.stopped <==> n >= 2 && s.events[n - 2] == ProgressDone)
      && (forall i :: 0 <= i < n - 2 ==> s.events[i] != ProgressDone)
      && (forall c :: 0 <= c < s.completed ==> !env.StopPressed(c))
  {
    var r := TryBlock(ipList, ports, protocol, maxThreads, env);
    if ipList.Some? && maxThreads > 0 {
      var total := Total(ipList, ports, 0);
      HostLoopSpec(env.HostOrder(ipList.value), 0, ports, ProtocolFor(protocol), env, total, 0);
      ReportedHasNoEnd(r.events, 0, total);
    }
    FinishEnds(r, Total(ipList, ports, previousTotal), env);
  }

  /**
   * The `finally` block after a probe loop that put no closing line on the
   * queue and saw no press of Stop before its final count.
   */
  lemma FinishEnds(r: Run, total: nat, env: Environment)
    requires forall i :: 0 <= i < |r.events| ==> r.events[i] != Complete && r.events[i] != ProgressDone
    requires forall c :: 0 <= c < r.completed ==> !env.StopPressed(c)
    requires r.stopped ==> env.StopPressed(r.completed)
    ensures var s := Finish(r, total, env);
      var n := |s.events|;
      && n >= 1 && s.events[n - 1] == Complete
      && (forall i :: 0 <= i < n - 1 ==> s.events[i] != Complete)
      && (s.stopped <==> env.StopPressed(s.completed))
      && (!s.stopped <==> n >= 2 && s.events[n - 2] == ProgressDone)
      && (forall i :: 0 <= i < n - 2 ==> s.events[i] != ProgressDone)
      && (forall c :: 0 <= c < s.completed ==> !env.StopPressed(c))
  {
  }

  /** Every progress event a probe loop puts on the queue is out of `total_tasks`. */
  lemma {:induction false} ReportedTotals(events: seq<Event>, done: nat, total: nat)
    requires Reported(events, done, total)
    ensures forall i :: 0 <= i < |events| && events[i].Progress? ==> events[i].total == total
    decreases |events|
  {
    if events != [] {
      if events[0].Scanning? {
        ReportedTotals(events[1..], done, total);
        assert forall i :: 1 <= i < |events| ==> events[i] == events[1..][i - 1];
      } else {
        ReportedTotals(events[2..], done + 1, total);
        assert forall i :: 2 <= i < |events| ==> events[i] == events[2..][i - 2];
      }
    }
  }

  /** The probe loops never put a closing progress line or the sentinel on the queue. */
  lemma {:induction false} ReportedHasNoEnd(events: seq<Event>, done: nat, total: nat)
    ensures Reported(events, done, total) ==>
      forall i :: 0 <= i < |events| ==> events[i] != Complete && events[i] != ProgressDone
    decreases |events|
  {
    if events != [] && Reported(events, done, total) {
      if events[0].Scanning? {
        ReportedHasNoEnd(events[1..], done, total);
        assert forall i :: 1 <= i < |events| ==> events[i] == events[1..][i - 1];
      } else {
        ReportedHasNoEnd(events[2..], done + 1, total);
        assert forall i :: 2 <= i < |events| ==> events[i] == events[2..][i - 2];
      }
    }
  }

  // ---------------------------------------------------------------------------
  // The scanner object

  class PortScanner {
    var stopScan: bool
    var isScanning: bool
    var totalTasks: nat
    var completedTasks: nat
    /** `result_queue`: what has been put on it and not yet taken off. */
    var resultQueue: seq<Event>

    constructor()
      ensures !stopScan && !isScanning && totalTasks == 0 && completedTasks == 0 && resultQueue == []
    {
      stopScan := false;
      isScanning := false;
      totalTasks := 0;
      completedTasks := 0;
      resultQueue := [];
    }

    /** `stop_scanning`. */
    method StopScanning()
      modifies this`stopScan
      ensures stopScan
    {
      stopScan := true;
    }

    /** The point before a read of the stop flag at which a pending press of Stop lands. */
    method Poll(env: Environment)
      modifies this`stopScan
      ensures stopScan == (old(stopScan) || env.StopPressed(completedTasks))
    {
      if env.StopPressed(completedTasks) {
        StopScanning();
      }
    }

    /** `tcp_scan(ip, port)`, the socket's behaviour being `outcome`. */
    method TcpScan(ip: string, port: nat, outcome: TcpOutcome, services: map<nat, string>)
      modifies this`resultQueue
      ensures resultQueue == old(resultQueue) + TcpEvents(ip, port, outcome, services)
    {
      if !outcome.NoSocket? {
        resultQueue := resultQueue + [Scanning(ip, port)];
      }
      resultQueue := resultQueue + [Result(ip, port, TCP, TcpStatus(outcome, services, port))];
    }

    /** `udp_scan(ip, port)`, the socket's behaviour being `outcome`. */
    method UdpScan(ip: string, port: nat, outcome: UdpOutcome, services: map<nat, string>)
      modifies this`resultQueue
      ensures resultQueue == old(resultQueue) + UdpEvents(ip, port, outcome, services)
    {
      if !outcome.UdpNoSocket? {
        resultQueue := resultQueue + [Scanning(ip, port)];
      }
      resultQueue := resultQueue + [Result(ip, port, UDP, UdpStatus(outcome, services, port))];
    }

    /** `scan_func(ip, port)`: the probe `scan_host` picked for its protocol. */
    method ScanPort(scan: Protocol, ip: string, port: nat, env: Environment)
      modifies this`resultQueue
      ensures resultQueue == old(resultQueue) + ProbeEvents(scan, ip, port, env)
    {
      match scan {
        case TCP => TcpScan(ip, port, env.Tcp(ip, port), env.services);
        case UDP => UdpScan(ip, port, env.Udp(ip, port), env.services);
      }
    }

    /** One turn of `scan_host`'s port loop: the probe, then the count and the progress event. */
    method ProbeAndCount(scan: Protocol, ip: string, port: nat, env: Environment)
      modifies this`completedTasks, this`resultQueue
      ensures completedTasks == old(completedTasks) + 1
      ensures resultQueue == old(resultQueue) + ProbeEvents(scan, ip, port, env) + [Progress(completedTasks, totalTasks)]
    {
      ScanPort(scan, ip, port, env);
      completedTasks := completedTasks + 1;
      resultQueue := resultQueue + [Progress(completedTasks, totalTasks)];
    }

    /**
     * `scan_host(ip, ports, protocol)`. The progress value divides by
     * `total_tasks`, so a call that probes anything needs it to be positive.
     */
    method ScanHost(ip: string, ports: seq<nat>, protocol: string, env: Environment)
      requires ports == [] || totalTasks > 0
      modifies this`stopScan, this`completedTasks, this`resultQueue
      ensures var r := HostRun(ip, ports, ProtocolFor(protocol), env, totalTasks, old(completedTasks), old(stopScan));
        resultQueue == old(resultQueue) + r.events && completedTasks == r.completed && stopScan == r.stopped
    {
      Poll(env);
      if stopScan {
        return;
      }
      var scan := ProtocolFor(protocol);
      var randomPorts := env.PortOrder(ip, ports);
      ProbePorts(scan, ip, randomPorts, env);
    }

    /** One turn of the port loop: stop if the flag is set, else probe `port` and count it. */
    method PortTurn(scan: Protocol, ip: string, port: nat, env: Environment)
      requires !stopScan
      modifies this`stopScan, this`completedTasks, this`resultQueue
      ensures stopScan == env.StopPressed(old(completedTasks))
      ensures stopScan ==> completedTasks == old(completedTasks) && resultQueue == old(resultQueue)
      ensures !stopScan ==> completedTasks == old(completedTasks) + 1
      ensures !stopScan ==> resultQueue == old(resultQueue) + ProbeEvents(scan, ip, port, env) + [Progress(completedTasks, totalTasks)]
    {
      Poll(env);
      if !stopScan {
        ProbeAndCount(scan, ip, port, env);
      }
    }

    /** The `for port in random_ports` loop of `scan_host`, entered with the stop flag clear. */
    method ProbePorts(scan: Protocol, ip: string, ports: seq<nat>, env: Environment)
      requires !stopScan && (ports == [] || totalTasks > 0)
      modifies this`stopScan, this`completedTasks, this`resultQueue
      ensures var r := PortLoop(ip, ports, 0, scan, env, totalTasks, old(completedTasks));
        resultQueue == old(resultQueue) + r.events && completedTasks == r.completed && stopScan == r.stopped
    {
      ghost var whole := PortLoop(ip, ports, 0, scan, env, totalTasks, completedTasks);
      ghost var done: seq<Event> := [];
      var i := 0;
      while i < |ports|
        invariant 0 <= i <= |ports|
        invariant !stopScan
        invariant resultQueue == old(resultQueue) + done
        invariant var rest := PortLoop(ip, ports, i, scan, env, totalTasks, completedTasks);
          whole == Run(done + rest.events, rest.completed, rest.stopped)
      {
        ghost var n := completedTasks;
        PortTurn(scan, ip, ports[i], env);
        if stopScan {
          PortLoopEnd(ip, ports, i, scan, env, totalTasks, n);
          assert done + [] == done;
          return;
        }
        ghost var block := ProbeEvents(scan, ip, ports[i], env) + [Progress(n + 1, totalTasks)];
        PortLoopAdvance(whole, done, ip, ports, i, scan, env, totalTasks, n);
        AppendAssociates(old(resultQueue), done, block);
        done := done + block;
        i := i + 1;
      }
      PortLoopEnd(ip, ports, i, scan, env, totalTasks, completedTasks);
      assert done + [] == done;
    }

    /**
     * `scan_range(start_ip, end_ip, ports, protocol, max_threads)`, with the
     * hosts run one after another.
     */
    method ScanRange(startIp: string, endIp: string, ports: seq<nat>, protocol: string, maxThreads: int,
                     env: Environment)
      modifies this
      ensures var s := RangeScan(startIp, endIp, ports, protocol, maxThreads, env, old(totalTasks));
        && resultQueue == old(resultQueue) + s.events
        && completedTasks == s.completed && totalTasks == s.total && stopScan == s.stopped
        && !isScanning
    {
      var ipList := IpList(startIp, endIp);
      ScanList(ipList, ports, protocol, maxThreads, env);
    }

    /** `scan_range` once the addresses have been converted, or have failed to convert. */
    method ScanList(ipList: Option<seq<string>>, ports: seq<nat>, protocol: string, maxThreads: int,
                    env: Environment)
      modifies this
      ensures var s := ListScan(ipList, ports, protocol, maxThreads, env, old(totalTasks));
        && resultQueue == old(resultQueue) + s.events
        && completedTasks == s.completed && totalTasks == s.total && stopScan == s.stopped
        && !isScanning
    {
      stopScan := false;
      isScanning := true;
      completedTasks := 0;
      if ipList.Some? {
        totalTasks := Total(ipList, ports, totalTasks);
        if maxThreads > 0 {
          ScanHosts(env.HostOrder(ipList.value), ports, protocol, env);
        }
      }
      isScanning := false;
      FinishScan(env);
    }

    /** The `finally` block of `scan_range`. */
    method FinishScan(env: Environment)
      modifies this`stopScan, this`resultQueue
      ensures var s := Finish(Run([], old(completedTasks), old(stopScan)), totalTasks, env);
        resultQueue == old(resultQueue) + s.events && stopScan == s.stopped
    {
      Poll(env);
      if !stopScan {
        resultQueue := resultQueue + [ProgressDone];
      }
      resultQueue := resultQueue + [Complete];
    }

    /**
     * The dispatch loop `for ip in ip_list` of `scan_range`, entered with the
     * stop flag clear and nothing completed, each host's `scan_host` run to its
     * end before the next is dispatched.
     */
    method ScanHosts(hosts: seq<string>, ports: seq<nat>, protocol: string, env: Environment)
      requires !stopScan && completedTasks == 0 && (hosts == [] || ports == [] || totalTasks > 0)
      modifies this`stopScan, this`completedTasks, this`resultQueue
      ensures var r := HostLoop(hosts, 0, ports, ProtocolFor(protocol), env, totalTasks, 0);
        resultQueue == old(resultQueue) + r.events && completedTasks == r.completed && stopScan == r.stopped
    {
      var scan := ProtocolFor(protocol);
      ghost var r := HostLoop(hosts, 0, ports, scan, env, totalTasks, 0);
      ghost var done: seq<Event> := [];
      var i := 0;
      while i < |hosts|
        invariant 0 <= i <= |hosts|
        invariant resultQueue == old(resultQueue) + done
        invariant var rest := if stopScan then Run([], completedTasks, true)
                              else HostLoop(hosts, i, ports, scan, env, totalTasks, completedTasks);
          r == Run(done + rest.events, rest.completed, rest.stopped)
      {
        Poll(env);
        if stopScan {
          break;
        }
        ghost var n := completedTasks;
        ScanHost(hosts[i], ports, protocol, env);
        ghost var h := HostRun(hosts[i], ports, scan, env, totalTasks, n, false);
        HostLoopStep(hosts, i, ports, scan, env, totalTasks, n);
        if !stopScan {
          AppendAssociates(done, h.events, HostLoop(hosts, i + 1, ports, scan, env, totalTasks, h.completed).events);
        }
        AppendAssociates(old(resultQueue), done, h.events);
        done := done + h.events;
        i := i + 1;
      }
      assert done + [] == done;
    }
  }
}
