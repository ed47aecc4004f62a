# Port scanner: a verified model of the scan engine and its front end

The system is a small desktop port scanner in two parts:

- **The engine** (`scanner.py`) is the `PortScanner` object. `scan_range` expands an IPv4 address range into
  addresses and shuffles them. It hands each address to `scan_host`, which shuffles the ports and probes them
  one by one with `tcp_scan` or `udp_scan`. Each probe puts text lines on a result queue:
  - a "scanning" notice;
  - one result line, `[+] ... OPEN (...)` or `[-] ... CLOSED / FILTERED / ERROR (...)`;
  - a `PROGRESS:` line.

  A stop flag, set by `stop_scanning`, ends the loops early. A `finally` block closes every scan with
  `PROGRESS:100.0` (unless stopped) and a completion sentinel.
- **The front end** (`gui.py`) is the `PortScannerGUI` window. `validate_inputs` checks the two address
  entries and parses the port field, a comma-separated list of ports and `lo-hi` ranges. `start_scan` and
  `stop_scan` drive the engine. `update_results` drains the queue and routes each line to the progress bar,
  the "scanning" label, the two buttons and the results pane.

The model is written in Dafny:

- `decimal.dfy`: `str(n)` and digit values.
- `strings.dfy`: `split` and `startswith`; the dotted join of an address's text; the whitespace skip of `int()` and `float()`.
- `numbers.dfy`: `int()` and `float()` on the texts the front end reads.
- `ipv4.dfy`: IPv4 parsing and formatting, and address ranges.
- `shuffle.dfy`: `random.shuffle`, with its draws as an input.
- `probe.dfy`: how a socket outcome becomes queue events, and the text of each event.
- `scanner.dfy`: the engine.
  - A specification of a whole scan as functions (`PortLoop`, `HostLoop`, `Finish`, `RangeScan`).
  - A `PortScanner` class whose methods update the stop flag, the counters and the queue. Each method is
    proved equal to those functions.
  - Lemmas on the scan's counts, order and closing lines.
- `gui.dfy`: the front end.
  - The port-field grammar, `validate_inputs` and the line classifier.
  - The window's view and how one drained line changes it.
  - A `ScannerGui` class with the window's state, the scanner it owns, and its methods.
  - An end-to-end lemma: draining a whole scan completes the window and shows every result.

The world outside the program is an input, an `Environment`:

- how each `ip:port` answers;
- the service-name table;
- whether Stop has been pressed once a given number of probes have completed;
- the draws of each `random.shuffle`.

## Model

| member | source | states |
|---|---|---|
| Decimal.ValueOfNatToString | scanner.py:105-106 | the digits `str(n)` writes read back as `n` |
| Decimal.NatToStringOfValue | scanner.py:105-106 | a digit string without a leading zero is `str` of its value |
| Decimal.LengthOfNatToString | scanner.py:102-103 | `str(n)` has at most `k` digits exactly when `n < 10^k` |
| Decimal.NatToStringInjective | scanner.py:105-106 | different numbers are written differently |
| Strings.JoinSplit | gui.py:91 | joining the pieces of `s.split(sep)` with `sep` gives back `s` |
| Strings.SplitJoin | gui.py:91 | pieces free of the separator are recovered by splitting their join |
| Strings.SplitAfterPiece | gui.py:147 | `split` cuts at the first separator: a separator-free piece followed by `sep` is the first piece |
| Strings.SplitAtSeparator | gui.py:147 | a string holding the separator splits into at least two pieces, so `split(":")[1]` exists |
| Strings.SplitTrailing | gui.py:91 | a string ending in the separator splits with an empty last piece |
| Strings.StripUnchanged | gui.py:93-96 | text with no whitespace at either end is left as it is by the whitespace skip of `int()` |
| Numbers.ParseInt | gui.py:93-96 | definition of `int()` on a port token: optional ASCII whitespace around an optional '+' and digits with single underscores between groups, else an error; its properties are `ParseIntOfNatToString`, `DigitsGrouped` and `Ungrouped` |
| Numbers.Ungrouped | gui.py:93-96 | dropping `int()`'s digit-group underscores leaves only digits, and leaves plain digits unchanged |
| Numbers.ParseIntOfNatToString | gui.py:93-96 | `int(str(n)) == n`, and `str(n)` holds no '-' |
| Numbers.DigitsGrouped | gui.py:96 | a plain run of digits is accepted by `int()` as its value |
| Numbers.ParseFloat | gui.py:147 | definition of `float()` on a progress payload: optional whitespace and sign, digits with an optional point and fraction, an optional exponent, else an error; its properties are `ParseFloatOfWhole`, `UnsignedFloat`, `PointDecimal` and `TrailingZero` |
| Numbers.ParseFloatOfWhole | gui.py:147 | `float(str(n) + ".0") == n`. For `n < 10^16` this is the text Python writes for a whole-valued float; from `10^16` on Python writes an exponent (`1e+16`) |
| Numbers.UnsignedFloat | gui.py:147 | text starting with a digit and not ending in whitespace is read by `float()` as an unsigned decimal |
| Numbers.PointDecimal | gui.py:147 | `whole.fraction` reads as the digits together divided by 10 to the number of fraction digits |
| Numbers.TrailingZero | gui.py:147 | a zero after the point does not change the value |
| Numbers.Scale | gui.py:147 | every power of ten `float()` scales by is positive |
| Ipv4.Octets | scanner.py:105-106 | an address has four octets, each below 256 |
| Ipv4.OctetsOfFromOctets | scanner.py:102-106 | four octets put together into an address are its octets again |
| Ipv4.FromOctetsOfOctets | scanner.py:102-106 | an address is rebuilt from its four octets |
| Ipv4.Format | scanner.py:105-106 | definition of `str(IPv4Address(n))`: the four octets in decimal joined by dots; its properties are `ParseFormat`, `FormatInjective` and `FormatParse` |
| Ipv4.ParseOctet | scanner.py:102-103 | an accepted octet is below 256 |
| Ipv4.Parse | scanner.py:102-103 | definition of `IPv4Address(text)`: four dot-separated decimal octets below 256 without leading zeros, else an error; its properties are `ParseFormat`, `FormatParse` and `RangeMembers` |
| Ipv4.ParseFormat | scanner.py:102-106 | `IPv4Address(str(a)) == a` for every address |
| Ipv4.FormatParse | scanner.py:102-106 | every text `IPv4Address` accepts is the canonical text of its address |
| Ipv4.FormatInjective | scanner.py:105-106 | different addresses are written differently |
| Ipv4.Range | scanner.py:105-106 | the range `start..end` has `end - start + 1` addresses, none when `start > end` |
| Ipv4.RangeAt | scanner.py:105-106 | the `i`-th entry of `ip_list` is the text of `start + i` |
| Ipv4.RangeMembers | scanner.py:102-106 | a text is in `ip_list` exactly when it parses to an address between start and end |
| Ipv4.RangeDistinct | scanner.py:105-106 | no two entries of `ip_list` are equal |
| Ipv4.RangeOnce | scanner.py:105-106 | each address occurs at most once in `ip_list` |
| Shuffling.Shuffle | scanner.py:85 | a shuffle keeps the length |
| Shuffling.ShufflePermutes | scanner.py:85 | `random.shuffle` only reorders: the same elements, equally often, whatever the draws |
| Probe.ProtocolFor | scanner.py:83 | `tcp_scan` exactly for the name "TCP", `udp_scan` for every other name |
| Probe.ServiceName | scanner.py:72-76 | the port's entry in the service table, else "unknown" |
| Probe.TcpEvents | scanner.py:26-44 | a notice, then one TCP result for `ip:port`. OPEN with the service name iff `connect_ex` gives 0; FILTERED iff code 111 or a timeout; CLOSED iff any other code; ERROR with the message iff an exception; no notice iff the socket itself failed |
| Probe.UdpEvents | scanner.py:46-70 | a notice, then one UDP result. OPEN iff a reply; FILTERED iff a timeout; CLOSED iff errno 10054; ERROR with the message otherwise; no notice iff the socket itself failed |
| Probe.StatusText | scanner.py:35-44 | definition of the status word of a result line (`OPEN (service)`, `CLOSED`, `FILTERED`, `ERROR (message)`); its property is `ResultLinePrefix` |
| Probe.Wire | scanner.py:30-70 | definition of the text each event puts on the queue: `SCANNING:ip:port`, the result lines, `PROGRESS:100.0` and the sentinel (scanner.py:136-137); its properties are `ResultLinePrefix` and `Gui.ClassifyWire` |
| Probe.ResultLinePrefix | scanner.py:35-44 | a result line starts with `[+]` iff it reports OPEN and with `[-]` otherwise; it never looks like a progress or scanning line or the sentinel |
| Scanner.PortLoop | scanner.py:87-94 | definition of the port loop of `scan_host` from the `i`-th port on: stop when the flag is seen set, else probe, count, report progress; its properties are `PortLoopSpec` and `PortScanner.ProbePorts` |
| Scanner.HostRun | scanner.py:78-94 | definition of `scan_host`: nothing when the flag is set on entry, else the port loop over the shuffled ports; its properties are `HostRunProbes` and `HostLoopSpec` |
| Scanner.HostLoop | scanner.py:113-128 | definition of the dispatch loop of `scan_range` run one host after another: stop when the flag is seen set or a host stopped; its properties are `HostLoopSpec` and `PortScanner.ScanHosts` |
| Scanner.Finish | scanner.py:132-137 | definition of the `finally` block: `PROGRESS:100.0` unless stopped, then the sentinel; its properties are `FinishCounts`, `FinishViews` and `FinishEnds` |
| Scanner.IpList | scanner.py:101-106 | definition of `ip_list`: the texts of the addresses from start to end, or an error when either end does not parse; its properties are `Ipv4.Range`, `Ipv4.RangeMembers` and `Ipv4.RangeDistinct` |
| Scanner.TryBlock | scanner.py:101-131 | definition of the `try` block: nothing when an address does not parse or the pool size is below 1, else the dispatch loop over the shuffled addresses; its properties are `ListScanCounts` and `ListScanEnds` |
| Scanner.ListScan | scanner.py:101-137 | definition of `scan_range` once `ip_list` is known: the `try` block, then the `finally` block; its properties are `ListScanCounts` and `ListScanEnds` |
| Scanner.RangeScan | scanner.py:96-137 | definition of `scan_range`; its properties are `RangeScanCounts`, `RangeScanProbesEachPair` and `RangeScanEnds` |
| Scanner.Total | scanner.py:109 | `total_tasks` is 0 exactly when there are no addresses or no ports |
| Scanner.PortTasks | scanner.py:87 | one task per port: the `i`-th task is the address with the `i`-th port of the (shuffled) list |
| Scanner.PortTasksCount | scanner.py:84-90 | `ip:p` occurs among one host's probes as often as `p` among its ports, and no other address occurs |
| Scanner.PortTasksPermute | scanner.py:84-87 | shuffling a host's ports only reorders its probes |
| Scanner.PairsCount | scanner.py:105-118 | the unshuffled pairs of hosts and ports hold `ip:p` as often as `ip` is listed times as often as `p` is listed |
| Scanner.PairsPermute | scanner.py:111 | shuffling the addresses only reorders the pairs |
| Scanner.TasksUnshuffled | scanner.py:84-87 | whatever order each host's ports are shuffled into, the probes of the hosts are their pairs in some order |
| Scanner.TasksPermute | scanner.py:85-111 | whatever both shuffles draw, the probes of a scan are a permutation of the pairs of a listed address and a listed port |
| Scanner.DistinctPairsCount | scanner.py:105-118 | when an address occurs at most once, the pairs hold `ip:p` as often as `p` is listed if `ip` is listed, else never |
| Scanner.ProbedAppend | scanner.py:87-93 | the probes of two stretches of the queue are those of each in turn |
| Scanner.ProgressesAppend | scanner.py:91-93 | the progress counts of two stretches are those of each in turn |
| Scanner.ReportedAppend | scanner.py:87-93 | two well-formed stretches of probe output, the second counting on from the first, make one |
| Scanner.ReportedProgresses | scanner.py:91-93 | each probe is followed by exactly one progress event, and their counts run `done+1, done+2, ...` |
| Scanner.ProbeEventsIsProbe | scanner.py:90 | a probe puts at most a scanning notice and then its result on the queue |
| Scanner.ProbeBlockReported | scanner.py:90-93 | a probe followed by its progress event adds exactly one probe |
| Scanner.PortLoopSpec | scanner.py:87-94 | `scan_host` probes its ports in shuffled order until the stop flag is seen, each probe counted once; the flag ends up set exactly when a port was left unprobed |
| Scanner.CoversStep | scanner.py:87-93 | a probe made while Stop is not pressed, followed by a covering loop, covers one more task |
| Scanner.CoversAppend | scanner.py:115-119 | a host that finishes its ports, followed by the remaining hosts, covers the tasks of both |
| Scanner.TasksLength | scanner.py:109 | a scan has as many tasks as addresses times ports |
| Scanner.HostRunProbes | scanner.py:78-94 | `scan_host` probes a prefix of its shuffled ports; when not stopped, every listed port of the address, each as often as it is listed |
| Scanner.HostLoopSpec | scanner.py:115-119 | the dispatch loop makes a prefix of all the scan's probes, host by host, and stops only on Stop |
| Scanner.RangeScanCounts | scanner.py:96-137 | total = (number of addresses) × (number of ports). The completed count is at most the total and equals the probes made, which are a prefix of the tasks. Progress counts run 1..completed, each out of the total. Unless stopped, every probe is made: a permutation of (addresses from start to end) × (ports) |
| Scanner.RangeScanProbesEachPair | scanner.py:96-128 | a scan that is not stopped probes `ip:p` as often as `p` is listed when `ip` lies between start and end, and never otherwise |
| Scanner.ListScanCounts | scanner.py:101-137 | `RangeScanCounts` once the addresses have parsed |
| Scanner.FinishCounts | scanner.py:132-137 | the `finally` block keeps the counts and the probes, and adds no progress event out of another total |
| Scanner.FinishViews | scanner.py:132-137 | the closing lines are neither probes nor intermediate progress |
| Scanner.RangeScanEnds | scanner.py:96-137 | every scan ends with the sentinel, exactly once, even when the addresses do not parse. The closing progress event `ProgressDone` stands just before it iff the scan was not stopped, and nowhere else. Stopped iff Stop was pressed by the final count. No probe is made after Stop |
| Scanner.ListScanEnds | scanner.py:101-137 | `RangeScanEnds` for any list of addresses, or none |
| Scanner.FinishEnds | scanner.py:132-137 | the `finally` block puts the sentinel last and the closing progress event `ProgressDone` before it iff the flag is clear |
| Scanner.ReportedTotals | scanner.py:91-93 | every progress event of the probe loops is out of `total_tasks` |
| Scanner.ReportedHasNoEnd | scanner.py:87-93 | the probe loops never put the closing progress event `ProgressDone` or the sentinel on the queue |
| Scanner.PortScanner.constructor | scanner.py:11-17 | flags clear, counters zero, queue empty |
| Scanner.PortScanner.StopScanning | scanner.py:139-140 | the stop flag is set |
| Scanner.PortScanner.Poll | scanner.py:88 | the stop flag is set once Stop has been pressed, and stays set |
| Scanner.PortScanner.TcpScan | scanner.py:26-44 | appends exactly `TcpEvents` to the queue |
| Scanner.PortScanner.UdpScan | scanner.py:46-70 | appends exactly `UdpEvents` to the queue |
| Scanner.PortScanner.ScanPort | scanner.py:83-90 | runs the probe of the chosen protocol |
| Scanner.PortScanner.ProbeAndCount | scanner.py:90-93 | the probe's events, then one more completed task and its progress event |
| Scanner.PortScanner.PortTurn | scanner.py:88-93 | a set flag leaves everything as it was; otherwise one probe is made and counted |
| Scanner.PortScanner.ProbePorts | scanner.py:87-94 | the loop appends exactly what `PortLoop` specifies, and leaves the count and flag it specifies |
| Scanner.PortScanner.ScanHost | scanner.py:78-94 | returns at once if the flag is set; otherwise runs the port loop over the shuffled ports |
| Scanner.PortScanner.ScanHosts | scanner.py:113-128 | the dispatch loop appends exactly what `HostLoop` specifies |
| Scanner.PortScanner.FinishScan | scanner.py:132-137 | appends the closing progress event `ProgressDone` unless stopped, then the sentinel |
| Scanner.PortScanner.ScanRange | scanner.py:96-137 | the queue grows by exactly `RangeScan`'s events; counters and flag are `RangeScan`'s; scanning is off |
| Scanner.PortScanner.ScanList | scanner.py:97-137 | `ScanRange` once the addresses are converted, or not |
| Gui.TokenPorts | gui.py:92-96 | definition of one pass of the token loop: a token with '-' must split into two integers `lo-hi` and gives `lo..hi`, any other token must be one integer; its properties are `SingleToken`, `RangeToken` and `PortsOfFails` |
| Gui.PortSpec | gui.py:90-96 | definition of the port field: the ports of its comma-separated tokens in order, or an error when one token raises; its properties are `PortSpecOfList`, `RangeThenPort`, `TrailingCommaFails` and `ParsePorts` |
| Gui.Interval | gui.py:94 | `range(lo, hi + 1)`: `hi - lo + 1` ports counting up from `lo`, none when `lo > hi` |
| Gui.ConcatAssociates | gui.py:90-96 | appending token results is associative |
| Gui.PortsOfAppend | gui.py:90-96 | the ports of two runs of tokens are those of each in turn |
| Gui.PortsOfFails | gui.py:90-101 | the port field is rejected exactly when one of its tokens raises |
| Gui.SingleToken | gui.py:95-96 | the token `str(n)` is the port `n` |
| Gui.RangeToken | gui.py:92-94 | the token `str(lo)-str(hi)` is `lo..hi` inclusive, and empty when `lo > hi` |
| Gui.Texts | gui.py:91 | each port written as `str` |
| Gui.PortSpecOfList | gui.py:90-98 | any non-empty port list written with commas is read back as that list |
| Gui.PortsOfTexts | gui.py:90-96 | the tokens `str(p)` read back as the ports `p` |
| Gui.RangeThenPort | gui.py:90-96 | `lo-hi,n` gives `lo..hi` then `n`, unsorted and with duplicates kept |
| Gui.TrailingCommaFails | gui.py:91-101 | a port field ending in a comma is rejected |
| Gui.ParsePorts | gui.py:90-96 | the loop yields exactly the ports the field denotes, or fails exactly when the field is malformed |
| Gui.ReadToken | gui.py:92-96 | one pass of the loop yields exactly the ports of its token |
| Gui.Validate | gui.py:83-101 | definition of `validate_inputs`: both addresses parse, start ≤ end, then the port field; its properties are `ValidateAccepts` and `ScannerGui.ValidateInputs` |
| Gui.ValidateAccepts | gui.py:83-101 | validation succeeds iff both addresses parse, start ≤ end, and the port field is well formed; a validated range holds at least one address |
| Gui.Classify | gui.py:146-170 | definition of which branch of `update_results` a line takes: progress, scanning, sentinel, open or closed result, tested in that order; its property is `ClassifyWire` |
| Gui.ClassifyWire | gui.py:146-170 | every line the engine emits (other than intermediate progress) takes the branch meant for its event |
| Gui.Step | gui.py:145-171 | definition of the window after one drained line; its properties are `SentinelCompletes`, `ProgressDoneCompletes`, `WholeProgress`, `ProgressStep`, `ScanningShowsAddress`, `StepShows` and `ScannerGui.HandleLine` |
| Gui.Steps | gui.py:142-175 | definition of the window after a drain, line by line; its properties are `StepsShow`, `StepsEndDone`, `ScanShown` and `ScannerGui.UpdateResults` |
| Gui.SentinelCompletes | gui.py:159-164 | the sentinel fills the bar, shows "scan complete", enables Start, disables Stop and appends the banner |
| Gui.ProgressDoneCompletes | gui.py:146-152 | `PROGRESS:100.0` completes the window and leaves the results as they were |
| Gui.WholeProgress | gui.py:146-154 | a progress line `str(n) + ".0"` (Python's text for a whole percentage `n < 10^16`) completes the window iff `n >= 100`, and otherwise only moves the bar |
| Gui.WholeProgressField | gui.py:146-147 | a whole-percentage progress line carries `str(n) + ".0"` after its colon |
| Gui.ProgressStep | gui.py:146-154 | a progress value `p` completes the window when `p >= 100`, and otherwise moves the bar and nothing else |
| Gui.ScanningShowsAddress | gui.py:155-158 | a scanning line puts its address, without the port, in the label and leaves the results alone |
| Gui.StepShows | gui.py:146-170 | one line changes the results pane by exactly what its event shows |
| Gui.StepsShow | gui.py:142-175 | every result line reaches the results pane, in order and tagged open or closed as it reports; then the banner; nothing else |
| Gui.StepsEndDone | gui.py:159-164 | a drain whose last line is the sentinel leaves the window completed |
| Gui.ScanShown | gui.py:142-175 | draining all of a scan's lines completes the window, stopped or not, and shows every result and then the banner |
| Gui.ScannerGui.constructor | gui.py:9-81 | entries hold the defaults 192.168.1.1, 192.168.1.255, the nine well-known ports and TCP; bar at 0; Start enabled, Stop disabled; a fresh scanner with flags clear, counters zero and an empty queue |
| Gui.ScannerGui.ValidateInputs | gui.py:83-101 | returns exactly what `Validate` specifies |
| Gui.ScannerGui.StartScan | gui.py:111-135 | an invalid entry changes nothing. Otherwise the buttons swap, the pane and bar clear, the label reads "ready", and the scanner does exactly `RangeScan` over the entries with a pool of 20 |
| Gui.ScannerGui.Launch | gui.py:116-135 | the part of `start_scan` after validation |
| Gui.ScannerGui.StopScan | gui.py:137-140 | the stop flag is set, Start enabled, Stop disabled |
| Gui.ScannerGui.HandleLine | gui.py:145-171 | the window after one line is `Step` of the window before |
| Gui.ScannerGui.UpdateResults | gui.py:142-175 | the window after the drain is `Steps` over the drained lines |

## Left out

- Sockets, `connect_ex`, `sendto`/`recvfrom` and `getservbyport` are not modelled: their outcomes and the service table are inputs (`Environment`). An address and port with no entry times out. Exception messages are opaque strings.
- Threads are not modelled; the hosts are scanned one after another. The `ThreadPoolExecutor` fan-out, the `as_completed` wait and the races on `completed_tasks` between hosts are left out.
- Scanner.PortScanner.ScanRange: the pool size only matters as "at least 1", since a smaller one raises in the executor before any host is scanned.
- Gui.ScannerGui.StartScan: the scan thread is modelled as running to its end inside the call. The window's view and the scanner's queue are related only through the lines `UpdateResults` is given.
- Stop is a threshold: it takes effect once a given number of probes have completed, and only at the points where the engine reads the flag. A press of the Stop button between those points is not modelled.
- `time.sleep(random.uniform(...))` is not modelled: delays do not change what is put on the queue.
- Random choices are inputs. Shuffles take their draws from the `Environment`, and a draw that is not supplied leaves its element in place.
- Gui.Transmits: intermediate progress lines are only required to start with `PROGRESS:`. Their payload `str(completed / total * 100)` is a Python float, whose text is not modelled; `Probe.Wire` excludes intermediate progress events. The closing `PROGRESS:100.0` is modelled exactly.
- Scanner.RangeScanEnds: the last intermediate progress event `Progress(total, total)` travels as the same text `PROGRESS:100.0` as the closing `ProgressDone`. So "nowhere else" and "iff not stopped" hold for the queue's events, not for its text. On an unstopped scan that text appears twice. A scan stopped after its last probe still has `PROGRESS:100.0` just before the sentinel.
- A TCP probe with no entry in the `Environment` answers `ConnectTimeout`, which stands for the `socket.timeout` the handler at scanner.py:41 expects (FILTERED). A connect that times out inside `connect_ex` and comes back as an error code is the outcome `ConnectCode(code)` instead, and reads as CLOSED.
- Probe outcomes in the `Environment` are keyed by `(ip, port)`, so a port the field lists twice gets the same answer both times. Two real `connect_ex` calls on the same port can answer differently.
- Numbers.ParseInt: ASCII whitespace and digits only. It requires the text to hold no '-', which is always true where it is used because range tokens are split on '-' first. Unicode digits and whitespace are not modelled.
- Numbers.ParseFloat: finite decimal text only. `inf`, `nan` and underscore-grouped floats are not modelled, and values are exact reals rather than rounded doubles.
- Ipv4.Parse: follows Python 3.9.5 and later, which reject octets with leading zeros.
- The progress label text `{percentage:.1f}%` and `result_text.see(END)` are not modelled; the view holds the bar's value.
- Tkinter layout, the `messagebox` error dialog, `logging`, `root.after` rescheduling and `mainloop` are not modelled. Gui.ScannerGui.UpdateResults takes the lines drained on one tick as its input.
- Gui.Step: a `PROGRESS:` line whose payload `float()` rejects is dropped and the window is unchanged. In the source the `ValueError` escapes `update_results` after that line has been dequeued, and the remaining lines are handled on the next tick.
- Edits the user makes to the entry fields between calls are not modelled: the fields keep the values the constructor set unless assigned.
