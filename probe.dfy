/**
 * One probe of one `ip:port`: how the outcome of the socket calls of
 * `PortScanner.tcp_scan` / `udp_scan` (scanner.py) is turned into the events the
 * scanner puts on its result queue, and the text each event travels as.
 *
 * The socket calls themselves are not modelled: their outcome is an input.
 */
module Probe {
  import opened Decimal
  import opened Strings

  datatype Protocol = TCP | UDP

  /** `scan_host` picks `tcp_scan` for the name "TCP" and `udp_scan` for any other name. */
  function ProtocolFor(name: string): (p: Protocol)
    ensures p == TCP <==> name == "TCP"
  {
    if name == "TCP" then TCP else UDP
  }

  function ProtocolName(p: Protocol): string {
    match p
    case TCP => "TCP"
    case UDP => "UDP"
  }

  /** The status a result line reports. */
  datatype Status = Open(service: string) | Closed | Filtered | Error(message: string)

  /** What the scanner puts on its result queue. */
  datatype Event =
    | Scanning(ip: string, port: nat)                                  // "SCANNING:ip:port"
    | Result(ip: string, port: nat, protocol: Protocol, status: Status) // "[+] ..." / "[-] ..."
    | Progress(completed: nat, total: nat)                             // "PROGRESS:<completed/total*100>"
    | ProgressDone                                                     // "PROGRESS:100.0"
    | Complete                                                         // the completion sentinel

  /** The completion sentinel the scanner puts last on the queue. */
  const Sentinel: string := "<<<扫描完成>>>"

  /** What `connect_ex` on a TCP socket with a timeout comes to. */
  datatype TcpOutcome =
    | NoSocket(message: string)        // creating the socket raised: no SCANNING line
    | ConnectCode(code: int)           // connect_ex returned this error code (0 is success)
    | ConnectTimeout                   // socket.timeout was raised
    | ConnectRaised(message: string)   // another exception was raised

  /** What sending an empty datagram and waiting for a reply comes to. */
  datatype UdpOutcome =
    | UdpNoSocket(message: string)            // creating the socket raised: no SCANNING line
    | Reply                                   // recvfrom returned data
    | RecvTimeout                             // recvfrom raised socket.timeout
    | RecvError(errno: int, message: string)  // recvfrom raised another socket.error
    | UdpRaised(message: string)              // any other exception, from sendto or recvfrom

  /** The error code `tcp_scan` takes for a refused connection (reported FILTERED). */
  const ConnectionRefused: int := 111

  /** The error code `udp_scan` takes for a reset connection (reported CLOSED). */
  const ConnectionReset: int := 10054

  /** `get_service_name`: the port's entry in the services table, or "unknown". */
  function ServiceName(services: map<nat, string>, port: nat): (name: string)
    ensures port in services ==> name == services[port]
    ensures port !in services ==> name == "unknown"
  {
    if port in services then services[port] else "unknown"
  }

  function TcpStatus(outcome: TcpOutcome, services: map<nat, string>, port: nat): Status {
    match outcome
    case NoSocket(m) => Error(m)
    case ConnectCode(code) =>
      if code == 0 then Open(ServiceName(services, port))
      else if code == ConnectionRefused then Filtered
      else Closed
    case ConnectTimeout => Filtered
    case ConnectRaised(m) => Error(m)
  }

  function UdpStatus(outcome: UdpOutcome, services: map<nat, string>, port: nat): Status {
    match outcome
    case UdpNoSocket(m) => Error(m)
    case Reply => Open(ServiceName(services, port))
    case RecvTimeout => Filtered
    case RecvError(errno, m) => if errno == ConnectionReset then Closed else Error(m)
    case UdpRaised(m) => Error(m)
  }

  /** The events `tcp_scan(ip, port)` puts on the queue. */
  function TcpEvents(ip: string, port: nat, outcome: TcpOutcome, services: map<nat, string>): (events: seq<Event>)
    ensures 1 <= |events| <= 2
    ensures |events| == 2 <==> !outcome.NoSocket?
    ensures |events| == 2 ==> events[0] == Scanning(ip, port)
    ensures var last := events[|events| - 1];
      && last.Result? && last.ip == ip && last.port == port && last.protocol == TCP
      && (last.status.Open? <==> outcome == ConnectCode(0))
      && (last.status.Open? ==> last.status.service == ServiceName(services, port))
      && (last.status == Filtered <==> outcome == ConnectCode(ConnectionRefused) || outcome == ConnectTimeout)
      && (last.status == Closed <==> outcome.ConnectCode? && outcome.code != 0 && outcome.code != ConnectionRefused)
      && (last.status.Error? <==> outcome.NoSocket? || outcome.ConnectRaised?)
      && (last.status.Error? ==> last.status.message == outcome.message)
  {
    var result := Result(ip, port, TCP, TcpStatus(outcome, services, port));
    if outcome.NoSocket? then [result] else [Scanning(ip, port), result]
  }

  /** The events `udp_scan(ip, port)` puts on the queue. */
  function UdpEvents(ip: string, port: nat, outcome: UdpOutcome, services: map<nat, string>): (events: seq<Event>)
    ensures 1 <= |events| <= 2
    ensures |events| == 2 <==> !outcome.UdpNoSocket?
    ensures |events| == 2 ==> events[0] == Scanning(ip, port)
    ensures var last := events[|events| - 1];
      && last.Result? && last.ip == ip && last.port == port && last.protocol == UDP
      && (last.status.Open? <==> outcome == Reply)
      && (last.status.Open? ==> last.status.service == ServiceName(services, port))
      && (last.status == Filtered <==> outcome == RecvTimeout)
      && (last.status == Closed <==> outcome.RecvError? && outcome.errno == ConnectionReset)
      && (last.status.Error? <==>
            outcome.UdpNoSocket? || outcome.UdpRaised? || (outcome.RecvError? && outcome.errno != ConnectionReset))
      && (last.status.Error? ==> last.status.message == outcome.message)
  {
    var result := Result(ip, port, UDP, UdpStatus(outcome, services, port));
    if outcome.UdpNoSocket? then [result] else [Scanning(ip, port), result]
  }

  function StatusText(status: Status): string {
    match status
    case Open(service) => "OPEN (" + service + ")"
    case Closed => "CLOSED"
    case Filtered => "FILTERED"
    case Error(message) => "ERROR (" + message + ")"
  }

  /**
   * The text an event travels as. An intermediate progress event has no text
   * here: Python renders its percentage with `str(float)`.
   */
  function Wire(e: Event): string
    requires !e.Progress?
  {
    match e
    case Scanning(ip, port) => "SCANNING:" + ip + ":" + NatToString(port)
    case Result(ip, port, protocol, status) =>
      (if status.Open? then "[+] " else "[-] ") + ip + ":" + NatToString(port) + " "
        + ProtocolName(protocol) + " " + StatusText(status)
    case ProgressDone => "PROGRESS:100.0"
    case Complete => Sentinel
  }

  /**
   * Result lines begin with "[+]" exactly when they report OPEN, and with "[-]"
   * otherwise; no result line begins like a progress or scanning notice or is
   * the sentinel.
   */
  lemma ResultLinePrefix(ip: string, port: nat, protocol: Protocol, status: Status)
    ensures var line := Wire(Result(ip, port, protocol, status));
      && (StartsWith(line, "[+]") <==> status.Open?)
      && (StartsWith(line, "[-]") <==> !status.Open?)
      && !StartsWith(line, "PROGRESS:") && !StartsWith(line, "SCANNING:") && line != Sentinel
  {
    var line := Wire(Result(ip, port, protocol, status));
    var head := if status.Open? then "[+] " else "[-] ";
    assert line[..3] == head[..3];
    assert line[1] == head[1] && "[+]"[1] == '+' && "[-]"[1] == '-';
    assert line[0] == '[' && Sentinel[0] == '<';
  }
}
