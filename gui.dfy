/**
 * The front end of the scanner (gui.py): the checks `validate_inputs` makes on
 * the three entry fields, the port-list syntax it accepts, and the way
 * `update_results` routes each line it drains from the scanner's queue to the
 * progress bar, the "scanning" label, the two buttons and the results pane.
 *
 * Widgets are reduced to the state they show. The lines `update_results`
 * drains are given to it as a sequence.
 */
module Gui {
  import opened Options
  import opened Decimal
  import opened Strings
  import opened Numbers
  import opened Ipv4
  import opened Probe
  import opened Scanner

  // ---------------------------------------------------------------------------
  // The port field

  /** `range(lo, hi + 1)`: the ports `lo..hi` in ascending order, none when `lo > hi`. */
  function Interval(lo: nat, hi: nat): (r: seq<nat>)
    ensures |r| == if lo <= hi then hi - lo + 1 else 0
    ensures forall i :: 0 <= i < |r| ==> r[i] == lo + i
    decreases hi + 1 - lo
  {
    if lo > hi then [] else [lo] + Interval(lo + 1, hi)
  }

  /**
   * The ports one comma-separated token of the port field stands for: a token
   * holding a '-' must be exactly two integers around it, any other token is
   * one integer. `None` is an exception, which `validate_inputs` catches.
   */
  function TokenPorts(token: string): Option<seq<nat>> {
    if '-' in token then
      var ends := Split(token, '-');
      if |ends| != 2 then None
      else
        match (ParseInt(ends[0]), ParseInt(ends[1]))
        case (Some(lo), Some(hi)) => Some(Interval(lo, hi))
        case _ => None
    else
      match ParseInt(token)
      case Some(n) => Some([n])
      case None => None
  }

  /** Two partial port lists one after the other; `None` if either failed. */
  function Concat(a: Option<seq<nat>>, b: Option<seq<nat>>): Option<seq<nat>> {
    if a.Some? && b.Some? then Some(a.value + b.value) else None
  }

  /** The ports of a list of tokens, in token order; `None` if any token fails. */
  function PortsOf(tokens: seq<string>): Option<seq<nat>> {
    if tokens == [] then Some([]) else Concat(TokenPorts(tokens[0]), PortsOf(tokens[1..]))
  }

  /** The port list the port field denotes, or `None` when `validate_inputs` raises on it. */
  function PortSpec(field: string): Option<seq<nat>> {
    PortsOf(Split(field, ','))
  }

  lemma ConcatAssociates(a: Option<seq<nat>>, b: Option<seq<nat>>, c: Option<seq<nat>>)
    ensures Concat(a, Concat(b, c)) == Concat(Concat(a, b), c)
  {
    if a.Some? && b.Some? && c.Some? {
      assert a.value + (b.value + c.value) == (a.value + b.value) + c.value;
    }
  }

  /** The first token's ports come first, then those of the rest. */
  lemma PortsOfCons(tokens: seq<string>)
    requires tokens != []
    ensures PortsOf(tokens) == Concat(TokenPorts(tokens[0]), PortsOf(tokens[1..]))
  {
  }

  /** Tokens are read one after another: the ports of two runs of tokens are concatenated. */
  lemma {:induction false} PortsOfAppend(a: seq<string>, b: seq<string>)
    ensures PortsOf(a + b) == Concat(PortsOf(a), PortsOf(b))
  {
    if a == [] {
      assert a + b == b;
      if PortsOf(b).Some? {
        assert [] + PortsOf(b).value == PortsOf(b).value;
      }
    } else {
      assert (a + b)[1..] == a[1..] + b;
      PortsOfCons(a + b);
      PortsOfCons(a);
      PortsOfAppend(a[1..], b);
      ConcatAssociates(TokenPorts(a[0]), PortsOf(a[1..]), PortsOf(b));
    }
  }

  /** The whole field fails exactly when one of its tokens fails. */
  lemma {:induction false} PortsOfFails(tokens: seq<string>)
    ensures PortsOf(tokens).None? <==> exists i :: 0 <= i < |tokens| && TokenPorts(tokens[i]).None?
  {
    if tokens != [] {
      PortsOfFails(tokens[1..]);
      if PortsOf(tokens[1..]).None? {
        var i :| 0 <= i < |tokens[1..]| && TokenPorts(tokens[1..][i]).None?;
        assert TokenPorts(tokens[i + 1]).None?;
      }
      if exists i :: 0 <= i < |tokens| && TokenPorts(tokens[i]).None? {
        var i :| 0 <= i < |tokens| && TokenPorts(tokens[i]).None?;
        if i > 0 {
          assert TokenPorts(tokens[1..][i - 1]).None?;
        }
      }
    }
  }

  /** A token written as `str(n)` stands for the port `n`. */
  lemma SingleToken(n: nat)
    ensures TokenPorts(NatToString(n)) == Some([n])
  {
    ParseIntOfNatToString(n);
  }

  /**
   * A token written `str(lo) + "-" + str(hi)` stands for `lo..hi` inclusive,
   * and for no port at all when `lo > hi`.
   */
  lemma RangeToken(lo: nat, hi: nat)
    ensures TokenPorts(NatToString(lo) + "-" + NatToString(hi)) == Some(Interval(lo, hi))
    ensures lo > hi ==> TokenPorts(NatToString(lo) + "-" + NatToString(hi)) == Some([])
  {
    var a, b := NatToString(lo), NatToString(hi);
    var token := a + "-" + b;
    ParseIntOfNatToString(lo);
    ParseIntOfNatToString(hi);
    SplitAfterPiece(a, '-', b);
    assert token[|a|] == '-';
  }

  /** The text of each port of a list. */
  function Texts(ports: seq<nat>): (texts: seq<string>)
    ensures |texts| == |ports|
    ensures forall i :: 0 <= i < |texts| ==> texts[i] == NatToString(ports[i])
  {
    if ports == [] then [] else [NatToString(ports[0])] + Texts(ports[1..])
  }

  /** Any non-empty port list, written out with commas, is read back as that list. */
  lemma PortSpecOfList(ports: seq<nat>)
    requires ports != []
    ensures PortSpec(Join(Texts(ports), ',')) == Some(ports)
  {
    var texts := Texts(ports);
    forall i | 0 <= i < |texts|
      ensures ',' !in texts[i]
    {
      assert forall c :: c in texts[i] ==> IsDigit(c);
    }
    SplitJoin(texts, ',');
    PortsOfTexts(ports);
  }

  lemma {:induction false} PortsOfTexts(ports: seq<nat>)
    ensures PortsOf(Texts(ports)) == Some(ports)
  {
    if ports != [] {
      PortsOfTexts(ports[1..]);
      SingleToken(ports[0]);
      PortsOfCons(Texts(ports));
      assert Texts(ports)[1..] == Texts(ports[1..]);
      assert [ports[0]] + ports[1..] == ports;
    }
  }

  /**
   * A range token then a single port: the range's ports in ascending order,
   * then the port, neither sorted nor deduplicated ("20-22,443" is
   * `[20, 21, 22, 443]`, "20-22,21" is `[20, 21, 22, 21]`).
   */
  lemma RangeThenPort(lo: nat, hi: nat, n: nat)
    ensures PortSpec(NatToString(lo) + "-" + NatToString(hi) + "," + NatToString(n)) == Some(Interval(lo, hi) + [n])
  {
    var a, b, c := NatToString(lo), NatToString(hi), NatToString(n);
    var first := a + "-" + b;
    assert ',' !in first by {
      assert forall i :: 0 <= i < |first| ==> first[i] == '-' || IsDigit(first[i]);
    }
    assert ',' !in c by {
      assert forall i :: 0 <= i < |c| ==> IsDigit(c[i]);
    }
    SplitAfterPiece(first, ',', c);
    assert first + [','] + c == a + "-" + b + "," + c;
    RangeToken(lo, hi);
    SingleToken(n);
    var tokens := [first, c];
    PortsOfCons(tokens);
    assert tokens[1..] == [c];
    PortsOfCons([c]);
    assert [c][1..] == [];
    assert [n] + [] == [n];
  }

  /** An empty token is not an integer: a field ending in a comma fails. */
  lemma TrailingCommaFails(field: string)
    ensures PortSpec(field + ",") == None
  {
    SplitTrailing(field, ',');
    var tokens := Split(field + ",", ',');
    assert TokenPorts(tokens[|tokens| - 1]).None?;
    PortsOfFails(tokens);
  }

  /**
   * The port loop of `validate_inputs`: the tokens left to right, and the
   * first token that raises ends the validation.
   */
  method ParsePorts(field: string) returns (ports: Option<seq<nat>>)
    ensures ports == PortSpec(field)
  {
    var tokens := Split(field, ',');
    var collected: seq<nat> := [];
    var i := 0;
    assert tokens[0..] == tokens;
    if PortsOf(tokens).Some? {
      assert [] + PortsOf(tokens).value == PortsOf(tokens).value;
    }
    while i < |tokens|
      invariant 0 <= i <= |tokens|
      invariant PortsOf(tokens) == Concat(Some(collected), PortsOf(tokens[i..]))
    {
      assert tokens[i..][1..] == tokens[i + 1..];
      PortsOfCons(tokens[i..]);
      ConcatAssociates(Some(collected), TokenPorts(tokens[i]), PortsOf(tokens[i + 1..]));
      var next := ReadToken(tokens[i]);
      if next.None? {
        assert PortsOf(tokens) == None;
        return None;
      }
      collected := collected + next.value;
      i := i + 1;
    }
    assert tokens[i..] == [] && collected + [] == collected;
    ports := Some(collected);
  }

  /** One pass of the port loop: `extend` by a range token's ports, `append` any other token's. */
  method ReadToken(token: string) returns (ports: Option<seq<nat>>)
    ensures ports == TokenPorts(token)
  {
    if '-' in token {
      var ends := Split(token, '-');
      if |ends| != 2 {
        return None;
      }
      var lo := ParseInt(ends[0]);
      var hi := ParseInt(ends[1]);
      if lo.None? || hi.None? {
        return None;
      }
      ports := Some(Interval(lo.value, hi.value));
    } else {
      var n := ParseInt(token);
      if n.None? {
        return None;
      }
      ports := Some([n.value]);
    }
  }

  // ---------------------------------------------------------------------------
  // validate_inputs

  /**
   * What `validate_inputs` returns for the three entry fields: the port list,
   * or `None` when an address does not parse, the start lies above the end or
   * the port field raises.
   */
  function Validate(startText: string, endText: string, portField: string): Option<seq<nat>> {
    var start := Parse(startText);
    var end := Parse(endText);
    if start.None? || end.None? || start.value > end.value then None else PortSpec(portField)
  }

  /**
   * Validation succeeds exactly when both addresses parse, the start is at most
   * the end and the port field is well formed; a validated range then holds at
   * least one address.
   */
  lemma ValidateAccepts(startText: string, endText: string, portField: string)
    ensures Validate(startText, endText, portField).Some? <==>
      && Parse(startText).Some? && Parse(endText).Some?
      && Parse(startText).value <= Parse(endText).value
      && PortSpec(portField).Some?
    ensures Validate(startText, endText, portField).Some? ==>
      && Validate(startText, endText, portField) == PortSpec(portField)
      && IpList(startText, endText).Some? && |IpList(startText, endText).value| >= 1
  {
  }

  // ---------------------------------------------------------------------------
  // update_results

  /** The branch of `update_results` a line takes. */
  datatype Kind = ProgressLine | ScanningLine | SentinelLine | OpenLine | ClosedLine

  /** The prefix tests of `update_results`, in order; the first that holds wins. */
  function Classify(line: string): Kind {
    if StartsWith(line, "PROGRESS:") then ProgressLine
    else if StartsWith(line, "SCANNING:") then ScanningLine
    else if line == Sentinel then SentinelLine
    else if StartsWith(line, "[+]") then OpenLine
    else ClosedLine
  }

  /** The branch each line the scanner emits is meant to take. */
  function Intended(e: Event): Kind
    requires !e.Progress?
  {
    match e
    case Scanning(_, _) => ScanningLine
    case Result(_, _, _, status) => if status.Open? then OpenLine else ClosedLine
    case ProgressDone => ProgressLine
    case Complete => SentinelLine
  }

  /** Every line of the scanner lands in the branch meant for it. */
  lemma ClassifyWire(e: Event)
    requires !e.Progress?
    ensures Classify(Wire(e)) == Intended(e)
  {
    var line := Wire(e);
    match e
    case Scanning(ip, port) =>
      assert line[..9] == "SCANNING:";
      assert line[0] != 'P';
    case Result(ip, port, protocol, status) =>
      ResultLinePrefix(ip, port, protocol, status);
    case ProgressDone =>
    case Complete =>
      assert line[0] != 'P' && line[0] != 'S';
  }

  /** How the results pane tags a line. */
  datatype Tag = Untagged | OpenTag | ClosedTag

  /** A piece of text inserted at the end of the results pane. */
  datatype Segment = Segment(text: string, tag: Tag)

  /**
   * What the window shows: the progress bar's value, the "scanning" label,
   * whether each button is enabled, and the results pane.
   */
  datatype View = View(progress: real, scanningLabel: string, startEnabled: bool, stopEnabled: bool,
                       results: seq<Segment>)

  const DoneLabel: string := "扫描完成"
  const ScanningPrefix: string := "正在扫描: "
  const ReadyLabel: string := "准备开始扫描..."
  const Banner: string := "\n=== 扫描完成！===\n"

  /** The completed state: bar full, "scan complete" shown, Start enabled, Stop disabled. */
  predicate Done(v: View) {
    v.progress == 100.0 && v.scanningLabel == DoneLabel && v.startEnabled && !v.stopEnabled
  }

  /** A line that begins with a prefix ending in ':' holds a ':'. */
  lemma PrefixColon(line: string, prefix: string)
    requires StartsWith(line, prefix) && prefix != [] && prefix[|prefix| - 1] == ':'
    ensures ':' in line
  {
    assert line[|prefix| - 1] == prefix[|prefix| - 1];
  }

  /** `line.split(":")[1]`: the field between the first and the second ':'. */
  function Field(line: string): string
    requires ':' in line
  {
    SplitAtSeparator(line, ':');
    Split(line, ':')[1]
  }

  /** The window after `update_results` has handled one line. */
  function Step(v: View, line: string): View {
    match Classify(line)
    case ProgressLine =>
      PrefixColon(line, "PROGRESS:");
      (match ParseFloat(Field(line))
       case None => v
       case Some(p) =>
         if p >= 100.0 then v.(progress := 100.0, scanningLabel := DoneLabel, startEnabled := true, stopEnabled := false)
         else v.(progress := p))
    case ScanningLine =>
      PrefixColon(line, "SCANNING:");
      v.(scanningLabel := ScanningPrefix + Field(line))
    case SentinelLine =>
      v.(progress := 100.0, scanningLabel := DoneLabel, startEnabled := true, stopEnabled := false,
         results := v.results + [Segment(Banner, Untagged)])
    case OpenLine => v.(results := v.results + [Segment(line + "\n", OpenTag)])
    case ClosedLine => v.(results := v.results + [Segment(line + "\n", ClosedTag)])
  }

  /** The window after `update_results` has handled each of `lines` in turn. */
  function Steps(v: View, lines: seq<string>): View
    decreases |lines|
  {
    if lines == [] then v else Steps(Step(v, lines[0]), lines[1..])
  }

  /** The sentinel puts the window in the completed state and closes the results with the banner. */
  lemma SentinelCompletes(v: View)
    ensures Done(Step(v, Sentinel)) && Step(v, Sentinel).results == v.results + [Segment(Banner, Untagged)]
  {
    ClassifyWire(Complete);
  }

  /** So does the closing progress line `PROGRESS:100.0`, which leaves the results as they were. */
  lemma ProgressDoneCompletes(v: View)
    ensures Done(Step(v, Wire(ProgressDone))) && Step(v, Wire(ProgressDone)).results == v.results
  {
    WholeProgress(v, 100);
    HundredText();
    assert "PROGRESS:" + "100" + ".0" == Wire(ProgressDone);
  }

  /**
   * A progress line carrying a whole percentage `n` as `str(n) + ".0"`
   * completes the window when `n >= 100` and otherwise only moves the bar.
   * That is the text `str(float(n))` gives for `n < 10^16`; from `10^16` on
   * Python writes an exponent (`1e+16`), which this lemma does not cover.
   */
  lemma WholeProgress(v: View, n: nat)
    ensures var line := "PROGRESS:" + NatToString(n) + ".0";
      && (n >= 100 ==> Done(Step(v, line)) && Step(v, line).results == v.results)
      && (n < 100 ==> Step(v, line) == v.(progress := n as real))
  {
    var line := "PROGRESS:" + NatToString(n) + ".0";
    ParseFloatOfWhole(n);
    WholeProgressField(n);
    ProgressStep(v, line, n as real);
  }

  lemma WholeProgressField(n: nat)
    ensures var line := "PROGRESS:" + NatToString(n) + ".0";
      StartsWith(line, "PROGRESS:") && ':' in line && Field(line) == NatToString(n) + ".0"
  {
    var w := NatToString(n);
    var line := "PROGRESS:" + w + ".0";
    assert ':' !in w + ".0" by {
      assert forall i :: 0 <= i < |w| ==> IsDigit(w[i]);
      assert forall i :: 0 <= i < |w + ".0"| ==> (w + ".0")[i] != ':';
    }
    assert "PROGRESS" + [':'] + (w + ".0") == line;
    SplitAfterPiece("PROGRESS", ':', w + ".0");
    assert StartsWith(line, "PROGRESS:") by {
      assert line[..9] == "PROGRESS:";
    }
    assert line[8] == ':';
  }

  lemma HundredText()
    ensures NatToString(100) == "100"
  {
    assert NatToString(1) == ['1'];
    assert NatToString(10) == NatToString(1) + ['0'];
    assert NatToString(100) == NatToString(10) + ['0'];
  }

  /**
   * A progress line whose value reads as `p` completes the window when `p`
   * is at least 100 and otherwise moves the bar and nothing else.
   */
  lemma ProgressStep(v: View, line: string, p: real)
    requires StartsWith(line, "PROGRESS:") && ':' in line && ParseFloat(Field(line)) == Some(p)
    ensures p >= 100.0 ==> Done(Step(v, line)) && Step(v, line).results == v.results
    ensures p < 100.0 ==> Step(v, line) == v.(progress := p)
  {
  }

  /** A scanning line shows the address it names, without the port. */
  lemma ScanningShowsAddress(v: View, a: Address, port: nat)
    ensures Step(v, Wire(Scanning(Format(a), port))).scanningLabel == ScanningPrefix + Format(a)
    ensures Step(v, Wire(Scanning(Format(a), port))).results == v.results
  {
    var ip := Format(a);
    var o := Octets(a);
    var parts := [NatToString(o[0]), NatToString(o[1]), NatToString(o[2]), NatToString(o[3])];
    forall i | 0 <= i < |parts|
      ensures ':' !in parts[i]
    {
      assert forall c :: c in parts[i] ==> IsDigit(c);
    }
    JoinExcludes(parts, '.', ':');
    ClassifyWire(Scanning(ip, port));
    var line := Wire(Scanning(ip, port));
    assert line == "SCANNING" + [':'] + (ip + [':'] + NatToString(port));
    SplitAfterPiece("SCANNING", ':', ip + [':'] + NatToString(port));
    SplitAfterPiece(ip, ':', NatToString(port));
  }

  /**
   * How a drained line of text relates to the event it carries: the text
   * `Wire` gives, or for an intermediate progress event some `PROGRESS:` line.
   */
  ghost predicate Transmits(events: seq<Event>, lines: seq<string>) {
    && |events| == |lines|
    && forall i :: 0 <= i < |lines| ==>
         if events[i].Progress? then StartsWith(lines[i], "PROGRESS:") else lines[i] == Wire(events[i])
  }

  /** What an event adds to the results pane: its result line with the matching tag, or the banner. */
  function Shown(e: Event): seq<Segment> {
    match e
    case Result(_, _, _, status) => [Segment(Wire(e) + "\n", if status.Open? then OpenTag else ClosedTag)]
    case Complete => [Segment(Banner, Untagged)]
    case _ => []
  }

  /** What a run of events adds to the results pane. */
  function ShownAll(events: seq<Event>): seq<Segment> {
    if events == [] then [] else Shown(events[0]) + ShownAll(events[1..])
  }

  /** One line changes the results pane by what its event shows. */
  lemma StepShows(v: View, e: Event, line: string)
    requires if e.Progress? then StartsWith(line, "PROGRESS:") else line == Wire(e)
    ensures Step(v, line).results == v.results + Shown(e)
  {
    if !e.Progress? {
      ClassifyWire(e);
    }
  }

  /**
   * The results pane receives every result line of the scanner, in order and
   * tagged open or closed as the result says, and the banner for the
   * sentinel; nothing else.
   */
  lemma {:induction false} StepsShow(v: View, events: seq<Event>, lines: seq<string>)
    requires Transmits(events, lines)
    ensures Steps(v, lines).results == v.results + ShownAll(events)
    decreases |lines|
  {
    if lines != [] {
      var next := Step(v, lines[0]);
      StepShows(v, events[0], lines[0]);
      TransmitsTail(events, lines);
      StepsShow(next, events[1..], lines[1..]);
      AppendAssociates(v.results, Shown(events[0]), ShownAll(events[1..]));
    }
  }

  lemma TransmitsTail(events: seq<Event>, lines: seq<string>)
    requires Transmits(events, lines) && lines != []
    ensures Transmits(events[1..], lines[1..])
  {
    forall i | 0 <= i < |lines| - 1
      ensures if events[1..][i].Progress? then StartsWith(lines[1..][i], "PROGRESS:")
              else lines[1..][i] == Wire(events[1..][i])
    {
      assert events[1..][i] == events[i + 1] && lines[1..][i] == lines[i + 1];
    }
  }

  /** Whatever comes before it, a last line that is the sentinel leaves the window completed. */
  lemma {:induction false} StepsEndDone(v: View, lines: seq<string>)
    requires lines != [] && lines[|lines| - 1] == Sentinel
    ensures Done(Steps(v, lines))
    decreases |lines|
  {
    if |lines| == 1 {
      SentinelCompletes(v);
    } else {
      StepsEndDone(Step(v, lines[0]), lines[1..]);
    }
  }

  /**
   * Draining everything a scan puts on the queue leaves the window completed,
   * whether or not the scan was stopped, with every result line in the
   * results pane and the banner after them.
   */
  lemma ScanShown(startIp: string, endIp: string, ports: seq<nat>, protocol: string, maxThreads: int,
                  env: Environment, previousTotal: nat, v: View, lines: seq<string>)
    requires Transmits(RangeScan(startIp, endIp, ports, protocol, maxThreads, env, previousTotal).events, lines)
    ensures Done(Steps(v, lines))
    ensures Steps(v, lines).results
         == v.results + ShownAll(RangeScan(startIp, endIp, ports, protocol, maxThreads, env, previousTotal).events)
  {
    var events := RangeScan(startIp, endIp, ports, protocol, maxThreads, env, previousTotal).events;
    RangeScanEnds(startIp, endIp, ports, protocol, maxThreads, env, previousTotal);
    assert lines[|lines| - 1] == Wire(Complete);
    StepsEndDone(v, lines);
    StepsShow(v, events, lines);
  }

  // ---------------------------------------------------------------------------
  // The window

  /** `PortScannerGUI`, reduced to its entry fields, what it shows, and its scanner. */
  class ScannerGui {
    var startIp: string
    var endIp: string
    var portField: string
    var protocol: string
    var progress: real
    var scanningLabel: string
    var startEnabled: bool
    var stopEnabled: bool
    var results: seq<Segment>
    const scanner: PortScanner

    /** What the window shows. */
    function Shows(): View
      reads this
    {
      View(progress, scanningLabel, startEnabled, stopEnabled, results)
    }

    /** `__init__` with `setup_gui`: the default entries, an idle bar, Start enabled and Stop disabled. */
    constructor()
      ensures startIp == "192.168.1.1" && endIp == "192.168.1.255"
      ensures portField == "21,22,23,25,53,80,161,443,3389" && protocol == "TCP"
      ensures Shows() == View(0.0, "", true, false, [])
      ensures fresh(scanner) && !scanner.stopScan && !scanner.isScanning && scanner.resultQueue == []
      ensures scanner.totalTasks == 0 && scanner.completedTasks == 0
    {
      startIp := "192.168.1.1";
      endIp := "192.168.1.255";
      portField := "21,22,23,25,53,80,161,443,3389";
      protocol := "TCP";
      progress := 0.0;
      scanningLabel := "";
      startEnabled := true;
      stopEnabled := false;
      results := [];
      scanner := new PortScanner();
    }

    /** `validate_inputs`: the port list, or `None` for `(False, None)`. */
    method ValidateInputs() returns (ports: Option<seq<nat>>)
      ensures ports == Validate(startIp, endIp, portField)
    {
      var start := Parse(startIp);
      var end := Parse(endIp);
      if start.None? || end.None? || start.value > end.value {
        return None;
      }
      ports := ParsePorts(portField);
    }

    /**
     * `start_scan`: nothing happens when validation fails; otherwise the
     * buttons swap, the pane and the bar are cleared, and the scanner runs
     * `scan_range` over the entries with a pool of 20, here to its end.
     */
    method StartScan(env: Environment)
      modifies this`progress, this`scanningLabel, this`startEnabled, this`stopEnabled, this`results, scanner
      ensures Validate(startIp, endIp, portField).None? ==>
        Shows() == old(Shows()) && unchanged(scanner)
      ensures Validate(startIp, endIp, portField).Some? ==>
        && Shows() == View(0.0, ReadyLabel, false, true, [])
        && var s := RangeScan(startIp, endIp, Validate(startIp, endIp, portField).value, protocol, 20, env,
                              old(scanner.totalTasks));
           && scanner.resultQueue == old(scanner.resultQueue) + s.events
           && scanner.completedTasks == s.completed && scanner.totalTasks == s.total
           && scanner.stopScan == s.stopped && !scanner.isScanning
    {
      var ports := ValidateInputs();
      if ports.None? {
        return;
      }
      Launch(ports.value, env);
    }

    /** The part of `start_scan` after a successful validation. */
    method Launch(ports: seq<nat>, env: Environment)
      modifies this`progress, this`scanningLabel, this`startEnabled, this`stopEnabled, this`results, scanner
      ensures Shows() == View(0.0, ReadyLabel, false, true, [])
      ensures var s := RangeScan(startIp, endIp, ports, protocol, 20, env, old(scanner.totalTasks));
        && scanner.resultQueue == old(scanner.resultQueue) + s.events
        && scanner.completedTasks == s.completed && scanner.totalTasks == s.total
        && scanner.stopScan == s.stopped && !scanner.isScanning
    {
      startEnabled := false;
      stopEnabled := true;
      results := [];
      progress := 0.0;
      scanningLabel := ReadyLabel;
      scanner.ScanRange(startIp, endIp, ports, protocol, 20, env);
    }

    /** `stop_scan`: the scanner's stop flag is set, Start enabled and Stop disabled. */
    method StopScan()
      modifies scanner`stopScan, this`startEnabled, this`stopEnabled
      ensures scanner.stopScan && startEnabled && !stopEnabled
    {
      scanner.StopScanning();
      startEnabled := true;
      stopEnabled := false;
    }

    /** The body of the drain loop of `update_results` for one line. */
    method HandleLine(line: string)
      modifies this`progress, this`scanningLabel, this`startEnabled, this`stopEnabled, this`results
      ensures Shows() == Step(old(Shows()), line)
    {
      match Classify(line)
      case ProgressLine =>
        PrefixColon(line, "PROGRESS:");
        var percentage := ParseFloat(Field(line));
        if percentage.Some? {
          if percentage.value >= 100.0 {
            progress := 100.0;
            scanningLabel := DoneLabel;
            startEnabled := true;
            stopEnabled := false;
          } else {
            progress := percentage.value;
          }
        }
      case ScanningLine =>
        PrefixColon(line, "SCANNING:");
        scanningLabel := ScanningPrefix + Field(line);
      case SentinelLine =>
        progress := 100.0;
        scanningLabel := DoneLabel;
        startEnabled := true;
        stopEnabled := false;
        results := results + [Segment(Banner, Untagged)];
      case OpenLine =>
        results := results + [Segment(line + "\n", OpenTag)];
      case ClosedLine =>
        results := results + [Segment(line + "\n", ClosedTag)];
    }

    /** `update_results` over the lines it drains from the queue, in order. */
    method UpdateResults(lines: seq<string>)
      modifies this`progress, this`scanningLabel, this`startEnabled, this`stopEnabled, this`results
      ensures Shows() == Steps(old(Shows()), lines)
    {
      var i := 0;
      while i < |lines|
        invariant 0 <= i <= |lines|
        invariant Steps(old(Shows()), lines) == Steps(Shows(), lines[i..])
      {
        assert lines[i..][1..] == lines[i + 1..];
        HandleLine(lines[i]);
        i := i + 1;
      }
    }
  }
}
