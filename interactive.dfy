// The interactive-session collector of nomade/collectors/interactive.py:
// it scans the output of `ps aux` for RStudio and Jupyter processes and
// records one session per process, with its memory read from the process's
// status file and its age from its start time.
//
// `ps`, `/proc` and the wall clock are not modelled: the `ps aux` text is an
// input (None when `ps` could not be run), and what `/proc` and the clock
// say about a process is a probe function from pid to `ProcFacts`.
module Interactive {
  import opened Wrappers
  import opened Text
  import Lists

  // ---------------------------------------------------------------
  // Collector settings
  // ---------------------------------------------------------------

  const DefaultIdleSessionHours: real := 24.0
  const DefaultMemoryHogMb: real := 4096.0
  const DefaultMaxIdleSessions: int := 5

  /** The entries of the collector's configuration dictionary that it reads; None is a missing key. */
  datatype Settings = Settings(
    idleSessionHours: Option<real>,
    memoryHogMb: Option<real>,
    maxIdleSessions: Option<int>,
    serverId: Option<string>)

  /** The thresholds and server name an `InteractiveCollector` keeps after construction. */
  datatype Collector = Collector(
    idleSessionHours: real,
    memoryHogMb: real,
    maxIdleSessions: int,
    serverId: string)

  function LocalServer(): string
  {
    "local"
  }

  /** `InteractiveCollector.__init__`: every setting falls back to its default. */
  function CollectorOf(config: Settings): Collector
  {
    Collector(
      config.idleSessionHours.GetOr(DefaultIdleSessionHours),
      config.memoryHogMb.GetOr(DefaultMemoryHogMb),
      config.maxIdleSessions.GetOr(DefaultMaxIdleSessions),
      config.serverId.GetOr(LocalServer()))
  }

  /** An empty configuration gives 24 idle hours, 4096 MB, 5 idle sessions and server "local". */
  lemma DefaultCollector(config: Settings)
    requires config.idleSessionHours.None? && config.memoryHogMb.None?
    requires config.maxIdleSessions.None? && config.serverId.None?
    ensures CollectorOf(config) == Collector(24.0, 4096.0, 5, "local")
  {
  }

  /** A configured value is kept as given. */
  lemma ConfiguredCollector(config: Settings)
    requires config.idleSessionHours.Some? && config.memoryHogMb.Some?
    requires config.maxIdleSessions.Some? && config.serverId.Some?
    ensures CollectorOf(config)
         == Collector(config.idleSessionHours.value, config.memoryHogMb.value,
                      config.maxIdleSessions.value, config.serverId.value)
  {
  }

  // ---------------------------------------------------------------
  // Session types
  // ---------------------------------------------------------------

  datatype SessionType = RStudio | JupyterPython | JupyterR | JupyterServer

  /** The `session_type` text stored for a session. */
  function TypeName(t: SessionType): (name: string)
    ensures |name| > 0 && (name[0] == 'R' <==> t == RStudio)
  {
    match t
    case RStudio => "RStudio"
    case JupyterPython => "Jupyter (Python)"
    case JupyterR => "Jupyter (R)"
    case JupyterServer => "Jupyter Server"
  }

  /** Different types are stored under different names, so comparing names compares types. */
  lemma TypeNameInjective(a: SessionType, b: SessionType)
    ensures TypeName(a) == TypeName(b) <==> a == b
  {
  }

  function RSessionWord(): string { "rsession" }
  function IPyKernelWord(): string { "ipykernel" }
  function IRKernelWord(): string { "irkernel" }
  function JupyterLabWord(): string { "jupyter-lab" }
  function JupyterNotebookWord(): string { "jupyter-notebook" }

  predicate Mentions(cmdline: string, w: string)
  {
    Contains(Lower(cmdline), w)
  }

  /**
   * The session type of a command line, matched in priority order on its
   * lower-casing: `rsession`, then `ipykernel`, then `irkernel`, then
   * `jupyter-lab` or `jupyter-notebook`; None for any other process.
   */
  function Classify(cmdline: string): Option<SessionType>
  {
    if Mentions(cmdline, RSessionWord()) then Some(RStudio)
    else if Mentions(cmdline, IPyKernelWord()) then Some(JupyterPython)
    else if Mentions(cmdline, IRKernelWord()) then Some(JupyterR)
    else if Mentions(cmdline, JupyterLabWord()) || Mentions(cmdline, JupyterNotebookWord()) then Some(JupyterServer)
    else None
  }

  /** Classification ignores case. */
  lemma ClassifyIgnoresCase(cmdline: string)
    ensures Classify(Lower(cmdline)) == Classify(cmdline)
  {
    LowerIdempotent(cmdline);
  }

  /** An `rsession` anywhere in the command, in any case, makes it an RStudio session. */
  lemma RSessionAnywhere(pre: string, post: string)
    ensures Classify(pre + RSessionWord() + post) == Some(RStudio)
  {
    assert Lower(RSessionWord()) == RSessionWord();
    ContainsInLower(pre, RSessionWord(), post);
  }

  /** An `ipykernel` command is a Python kernel unless it also mentions `rsession`. */
  lemma IPyKernelAnywhere(pre: string, post: string)
    requires !Mentions(pre + IPyKernelWord() + post, RSessionWord())
    ensures Classify(pre + IPyKernelWord() + post) == Some(JupyterPython)
  {
    assert Lower(IPyKernelWord()) == IPyKernelWord();
    ContainsInLower(pre, IPyKernelWord(), post);
  }

  /** An `irkernel` command is an R kernel unless it also mentions one of the earlier words. */
  lemma IRKernelAnywhere(pre: string, post: string)
    requires !Mentions(pre + IRKernelWord() + post, RSessionWord())
    requires !Mentions(pre + IRKernelWord() + post, IPyKernelWord())
    ensures Classify(pre + IRKernelWord() + post) == Some(JupyterR)
  {
    assert Lower(IRKernelWord()) == IRKernelWord();
    ContainsInLower(pre, IRKernelWord(), post);
  }

  /** A `jupyter-lab` command that mentions no kernel is a Jupyter server. */
  lemma JupyterLabAnywhere(pre: string, post: string)
    requires !Mentions(pre + JupyterLabWord() + post, RSessionWord())
    requires !Mentions(pre + JupyterLabWord() + post, IPyKernelWord())
    requires !Mentions(pre + JupyterLabWord() + post, IRKernelWord())
    ensures Classify(pre + JupyterLabWord() + post) == Some(JupyterServer)
  {
    assert Lower(JupyterLabWord()) == JupyterLabWord();
    ContainsInLower(pre, JupyterLabWord(), post);
  }

  // ---------------------------------------------------------------
  // Process memory: `_get_process_memory`
  // ---------------------------------------------------------------

  /** Resident and virtual size in MB (the source rounds both to one decimal; the model does not). */
  datatype MemInfo = MemInfo(rssMb: real, vmsMb: real)

  function RssKey(): string { "VmRSS:" }
  function SizeKey(): string { "VmSize:" }

  /** `int(line.split()[1])`; None is the IndexError or the ValueError. */
  function StatusField(line: string): Option<int>
  {
    var w := Words(line);
    if |w| < 2 then None else PyInt(w[1])
  }

  /** A `VmRSS:` or `VmSize:` line whose second field is not a number. */
  predicate BadStatusLine(line: string)
  {
    (StartsWith(line, RssKey()) || StartsWith(line, SizeKey())) && StatusField(line).None?
  }

  /** One line of the status file on the running (rss, vms) pair, in kB; None once a read failed. */
  function StatusStep(acc: Option<(int, int)>, line: string): Option<(int, int)>
  {
    match acc
    case None => None
    case Some(kb) =>
      if StartsWith(line, RssKey()) then
        match StatusField(line)
        case None => None
        case Some(v) => Some((v, kb.1))
      else if StartsWith(line, SizeKey()) then
        match StatusField(line)
        case None => None
        case Some(v) => Some((kb.0, v))
      else acc
  }

  /** The loop over the lines, starting from (0, 0). */
  function StatusScan(lines: seq<string>): Option<(int, int)>
  {
    if |lines| == 0 then Some((0, 0))
    else StatusStep(StatusScan(lines[..|lines| - 1]), lines[|lines| - 1])
  }

  /** The figures of a status file; an unreadable file or a malformed line gives 0 and 0. */
  function ProcessMemory(status: Option<string>): MemInfo
  {
    if status.None? then MemInfo(0.0, 0.0)
    else
      match StatusScan(Lines(status.value))
      case None => MemInfo(0.0, 0.0)
      case Some(kb) => MemInfo(kb.0 as real / 1024.0, kb.1 as real / 1024.0)
  }

  lemma StatusScanPrefix(lines: seq<string>, i: nat)
    requires i < |lines|
    ensures StatusScan(lines[..i + 1]) == StatusStep(StatusScan(lines[..i]), lines[i])
  {
    assert lines[..i + 1][..i] == lines[..i];
  }

  /** The `if`/`elif` of the loop in `_get_process_memory` for one line; `ok` is false when `int()` or the index raised. */
  method ReadStatusLine(line: string, rss: int, vms: int) returns (ok: bool, rss': int, vms': int)
    ensures StatusStep(Some((rss, vms)), line) == if ok then Some((rss', vms')) else None
  {
    rss', vms' := rss, vms;
    ok := true;
    if StartsWith(line, RssKey()) {
      var v := StatusField(line);
      if v.None? {
        ok := false;
      } else {
        rss' := v.value;
      }
    } else if StartsWith(line, SizeKey()) {
      var v := StatusField(line);
      if v.None? {
        ok := false;
      } else {
        vms' := v.value;
      }
    }
  }

  method ReadProcessMemory(status: Option<string>) returns (m: MemInfo)
    ensures m == ProcessMemory(status)
  {
    if status.None? {
      return MemInfo(0.0, 0.0);
    }
    var lines := Lines(status.value);
    var rss, vms := 0, 0;
    var i := 0;
    while i < |lines|
      invariant 0 <= i <= |lines|
      invariant StatusScan(lines[..i]) == Some((rss, vms))
    {
      StatusScanPrefix(lines, i);
      var ok;
      ok, rss, vms := ReadStatusLine(lines[i], rss, vms);
      if !ok {
        ScanStaysFailed(lines, i);
        return MemInfo(0.0, 0.0);
      }
      i := i + 1;
    }
    assert lines[..i] == lines;
    return MemInfo(rss as real / 1024.0, vms as real / 1024.0);
  }

  /** The scan fails exactly when some `VmRSS:` or `VmSize:` line lacks a number. */
  lemma StatusScanFails(lines: seq<string>)
    ensures StatusScan(lines).None? <==> exists k :: 0 <= k < |lines| && BadStatusLine(lines[k])
  {
    ScanFailsCount(lines);
    Lists.CountIfPositive(lines, BadStatusLine);
  }

  lemma {:induction false} ScanFailsCount(lines: seq<string>)
    ensures StatusScan(lines).None? <==> Lists.CountIf(lines, BadStatusLine) > 0
  {
    if |lines| > 0 {
      var init := lines[..|lines| - 1];
      ScanFailsCount(init);
      StepFails(StatusScan(init), lines[|lines| - 1]);
    }
  }

  lemma StepFails(acc: Option<(int, int)>, line: string)
    ensures StatusStep(acc, line).None? <==> acc.None? || BadStatusLine(line)
  {
  }

  /** Once a line fails, the whole scan fails. */
  lemma ScanStaysFailed(lines: seq<string>, i: nat)
    requires i < |lines| && StatusScan(lines[..i]).Some? && StatusStep(StatusScan(lines[..i]), lines[i]).None?
    ensures StatusScan(lines).None?
  {
    StepFails(StatusScan(lines[..i]), lines[i]);
    StatusScanFails(lines);
  }

  /** One malformed size line discards both figures, the good one too. */
  lemma MalformedLineZeroes(status: string, k: nat)
    requires k < |Lines(status)| && BadStatusLine(Lines(status)[k])
    ensures ProcessMemory(Some(status)) == MemInfo(0.0, 0.0)
  {
    StatusScanFails(Lines(status));
  }

  /** A status line as the kernel prints it: key, value, unit. */
  function StatusLine(key: string, kb: nat): string
  {
    key + " " + NatToString(kb) + " kB"
  }

  lemma NumberField(key: string, kb: nat)
    requires IsWord(key)
    ensures StatusField(StatusLine(key, kb)) == Some(kb)
  {
    var d := NatToString(kb);
    assert IsWord(d) by {
      forall k | 0 <= k < |d| ensures !IsSpace(d[k]) {
        assert IsDigit(d[k]);
      }
    }
    var line := StatusLine(key, kb);
    assert line == key + [' '] + (d + " kB");
    WordsSpaced(key, d + " kB");
    WordsFront(d, " kB");
    var w := Words(line);
    assert w == [key] + ([d] + Words(" kB"));
    assert |w| >= 2 && w[1] == d;
    IntToStringRoundTrip(kb);
    assert IntToString(kb) == d;
  }

  lemma NoNewline(key: string, kb: nat)
    requires '\n' !in key
    ensures '\n' !in StatusLine(key, kb)
  {
    var d := NatToString(kb);
    assert forall k :: 0 <= k < |d| ==> IsDigit(d[k]);
  }

  lemma SizeLineStep(kb: (int, int), vms: nat)
    ensures StatusStep(Some(kb), StatusLine(SizeKey(), vms)) == Some((kb.0, vms))
  {
    var a := StatusLine(SizeKey(), vms);
    assert a[2] == 'S' && !StartsWith(a, RssKey());
    assert StartsWith(a, SizeKey());
    NumberField(SizeKey(), vms);
  }

  lemma RssLineStep(kb: (int, int), rss: nat)
    ensures StatusStep(Some(kb), StatusLine(RssKey(), rss)) == Some((rss, kb.1))
  {
    assert StartsWith(StatusLine(RssKey(), rss), RssKey());
    NumberField(RssKey(), rss);
  }

  lemma TwoLines(a: string, b: string)
    requires '\n' !in a && '\n' !in b
    ensures Lines(a + "\n" + b) == [a, b]
  {
    SplitOnFirst(a, '\n', b);
    assert a + "\n" + b == a + ['\n'] + b;
    assert Lines(b) == [b];
  }

  lemma ScanOne(a: string)
    ensures StatusScan([a]) == StatusStep(Some((0, 0)), a)
  {
    assert [a][..0] == [];
  }

  lemma ScanNext(a: string, b: string, z: Option<(int, int)>)
    requires z == StatusScan([a])
    ensures StatusScan([a, b]) == StatusStep(z, b)
  {
    assert [a, b][..1] == [a];
  }

  /** A status file with a `VmSize:` and then a `VmRSS:` line gives both sizes in MB. */
  lemma StatusFileRead(vms: nat, rss: nat)
    ensures ProcessMemory(Some(StatusLine(SizeKey(), vms) + "\n" + StatusLine(RssKey(), rss)))
         == MemInfo(rss as real / 1024.0, vms as real / 1024.0)
  {
    var a, b := StatusLine(SizeKey(), vms), StatusLine(RssKey(), rss);
    NoNewline(SizeKey(), vms);
    NoNewline(RssKey(), rss);
    TwoLines(a, b);
    ScanOne(a);
    SizeLineStep((0, 0), vms);
    ScanNext(a, b, Some((0, vms)));
    RssLineStep((0, vms), rss);
  }

  // ---------------------------------------------------------------
  // Sessions: `collect`
  // ---------------------------------------------------------------

  /**
   * What `/proc` and the clock say about a process: the text of its status
   * file (None when it cannot be read), the start time that
   * `_get_process_start_time` gives, and the age in hours that the clock
   * gives for that start time (None when it cannot be parsed).
   */
  datatype ProcFacts = ProcFacts(status: Option<string>, startTime: Option<string>, clockAge: Option<real>)

  /** `_calc_age_hours`: no age without a start time (rounding to one decimal is not modelled). */
  function AgeHours(f: ProcFacts): Option<real>
  {
    if !Truthy(f.startTime) then None else f.clockAge
  }

  /** One session record; the time stamp is left out. */
  datatype Session = Session(
    serverId: string,
    sessionType: SessionType,
    user: string,
    pid: int,
    cpuPercent: real,
    memPercent: real,
    memMb: real,
    memVirtualMb: real,
    startTime: Option<string>,
    ageHours: Option<real>,
    isIdle: bool)

  function SessionOf(c: Collector, t: SessionType, user: string, pid: int, cpu: real, mem: real, f: ProcFacts): Session
  {
    var m := ProcessMemory(f.status);
    Session(c.serverId, t, user, pid, cpu, mem, m.rssMb, m.vmsMb, f.startTime, AgeHours(f), cpu < 1.0)
  }

  /** A line of `ps aux`: not a session, a session whose numbers do not parse, or a session. */
  datatype PsRow = Skipped | Unreadable | Found(session: Session)

  /**
   * The fields of one line: fewer than 11 or an unknown command is skipped;
   * the pid, CPU and memory columns are read only for a session.
   */
  function RowOfParts(c: Collector, parts: seq<string>, probe: int -> ProcFacts): PsRow
  {
    if |parts| < 11 then Skipped
    else
      match Classify(parts[10])
      case None => Skipped
      case Some(t) =>
        var pid, cpu, mem := PyInt(parts[1]), PyFloat(parts[2]), PyFloat(parts[3]);
        if pid.None? || cpu.None? || mem.None? then Unreadable
        else Found(SessionOf(c, t, parts[0], pid.value, cpu.value, mem.value, probe(pid.value)))
  }

  /** One line of `ps aux`, split with `line.split(None, 10)`. */
  function ReadPsLine(c: Collector, line: string, probe: int -> ProcFacts): PsRow
  {
    RowOfParts(c, SplitMax(line, 10), probe)
  }

  /** The rows of the lines, in order. */
  function PsRows(c: Collector, lines: seq<string>, probe: int -> ProcFacts): seq<PsRow>
  {
    if |lines| == 0 then []
    else PsRows(c, lines[..|lines| - 1], probe) + [ReadPsLine(c, lines[|lines| - 1], probe)]
  }

  lemma {:induction false} PsRowsLength(c: Collector, lines: seq<string>, probe: int -> ProcFacts)
    ensures |PsRows(c, lines, probe)| == |lines|
  {
    if |lines| > 0 {
      PsRowsLength(c, lines[..|lines| - 1], probe);
    }
  }

  /** The row at `k` is what line `k` reads as. */
  lemma {:induction false} PsRowAt(c: Collector, lines: seq<string>, probe: int -> ProcFacts, k: nat)
    requires k < |lines|
    ensures |PsRows(c, lines, probe)| == |lines|
    ensures PsRows(c, lines, probe)[k] == ReadPsLine(c, lines[k], probe)
  {
    var init := lines[..|lines| - 1];
    var last := ReadPsLine(c, lines[|lines| - 1], probe);
    PsRowsLength(c, init, probe);
    assert PsRows(c, lines, probe) == PsRows(c, init, probe) + [last];
    if k < |init| {
      PsRowAt(c, init, probe, k);
      assert lines[k] == init[k];
      assert PsRows(c, lines, probe)[k] == PsRows(c, init, probe)[k];
    } else {
      assert k == |lines| - 1;
      assert PsRows(c, lines, probe)[k] == last;
    }
  }

  lemma PsRowsPrefix(c: Collector, lines: seq<string>, i: nat, probe: int -> ProcFacts)
    requires i < |lines|
    ensures PsRows(c, lines[..i + 1], probe) == PsRows(c, lines[..i], probe) + [ReadPsLine(c, lines[i], probe)]
  {
    assert lines[..i + 1][..i] == lines[..i];
  }

  /** One step of `collect`'s loop: a row that cannot be read raises, a session is appended. */
  function GatherStep(acc: Option<seq<Session>>, row: PsRow): Option<seq<Session>>
  {
    if acc.None? || row.Unreadable? then None
    else if row.Found? then Some(acc.value + [row.session])
    else acc
  }

  /** The sessions of the rows, in order; None once a row cannot be read. */
  function Gather(rows: seq<PsRow>): Option<seq<Session>>
  {
    if |rows| == 0 then Some([])
    else GatherStep(Gather(rows[..|rows| - 1]), rows[|rows| - 1])
  }

  lemma GatherPrefix(rows: seq<PsRow>, row: PsRow)
    ensures Gather(rows + [row]) == GatherStep(Gather(rows), row)
  {
    assert (rows + [row])[..|rows|] == rows;
  }

  /** The gathering fails exactly when some row cannot be read. */
  lemma {:induction false} GatherFails(rows: seq<PsRow>)
    ensures Gather(rows).None? <==> exists k :: 0 <= k < |rows| && rows[k].Unreadable?
  {
    if |rows| > 0 {
      var init := rows[..|rows| - 1];
      GatherFails(init);
      if Gather(init).None? {
        var k :| 0 <= k < |init| && init[k].Unreadable?;
        assert rows[k].Unreadable?;
      } else if !rows[|rows| - 1].Unreadable? {
        forall k | 0 <= k < |rows|
          ensures !rows[k].Unreadable?
        {
          if k < |init| {
            assert rows[k] == init[k];
          }
        }
      }
    }
  }

  /** Every gathered session comes from a row that found it, and every such row's session is gathered. */
  lemma {:induction false} GatherMembers(rows: seq<PsRow>)
    requires Gather(rows).Some?
    ensures forall s :: s in Gather(rows).value <==> exists k :: 0 <= k < |rows| && rows[k] == Found(s)
  {
    if |rows| > 0 {
      var init, last := rows[..|rows| - 1], rows[|rows| - 1];
      GatherMembers(init);
      forall s
        ensures s in Gather(rows).value <==> exists k :: 0 <= k < |rows| && rows[k] == Found(s)
      {
        if s in Gather(rows).value {
          if s in Gather(init).value {
            var k :| 0 <= k < |init| && init[k] == Found(s);
            assert rows[k] == Found(s);
          } else {
            assert last == Found(s);
          }
        }
        if exists k :: 0 <= k < |rows| && rows[k] == Found(s) {
          var k :| 0 <= k < |rows| && rows[k] == Found(s);
          if k < |init| {
            assert init[k] == Found(s);
          }
        }
      }
    }
  }

  /** `ps_output.strip().split('\n')[1:]`: every line after the header. */
  function PsLines(psOutput: string): seq<string>
  {
    Lines(Strip(psOutput))[1..]
  }

  /**
   * The sessions `collect` returns; None when it raises: `ps` failed, or a
   * session line has a pid that is not an integer or a CPU or memory
   * column that is not a number.
   */
  function SessionsOf(c: Collector, psOutput: Option<string>, probe: int -> ProcFacts): Option<seq<Session>>
  {
    if psOutput.None? then None
    else Gather(PsRows(c, PsLines(psOutput.value), probe))
  }

  /** The body of the loop in `collect` for one line, with its memory read from the status file. */
  method ReadSession(c: Collector, line: string, probe: int -> ProcFacts) returns (row: PsRow)
    ensures row == ReadPsLine(c, line, probe)
  {
    var parts := SplitMax(line, 10);
    row := SessionOfParts(c, parts, probe);
  }

  /** The columns of one line: skipped, unreadable, or a session. */
  method SessionOfParts(c: Collector, parts: seq<string>, probe: int -> ProcFacts) returns (row: PsRow)
    ensures row == RowOfParts(c, parts, probe)
  {
    if |parts| < 11 {
      return Skipped;
    }
    var t := Classify(parts[10]);
    if t.None? {
      return Skipped;
    }
    var pid, cpu, mem := PyInt(parts[1]), PyFloat(parts[2]), PyFloat(parts[3]);
    if pid.None? || cpu.None? || mem.None? {
      return Unreadable;
    }
    var f := probe(pid.value);
    var m := ReadProcessMemory(f.status);
    var s := Session(c.serverId, t.value, parts[0], pid.value, cpu.value, mem.value,
                     m.rssMb, m.vmsMb, f.startTime, AgeHours(f), cpu.value < 1.0);
    return Found(s);
  }

  /** `InteractiveCollector.collect`: one session per RStudio or Jupyter line of `ps aux`. */
  method Collect(c: Collector, psOutput: Option<string>, probe: int -> ProcFacts) returns (r: Option<seq<Session>>)
    ensures r == SessionsOf(c, psOutput, probe)
  {
    if psOutput.None? {
      return None;
    }
    var lines := PsLines(psOutput.value);
    var sessions: seq<Session> := [];
    var i := 0;
    while i < |lines|
      invariant 0 <= i <= |lines|
      invariant Gather(PsRows(c, lines[..i], probe)) == Some(sessions)
    {
      var row := ReadSession(c, lines[i], probe);
      PsRowsPrefix(c, lines, i, probe);
      GatherPrefix(PsRows(c, lines[..i], probe), row);
      if row.Unreadable? {
        UnreadableLineFails(c, lines, probe, i);
        return None;
      }
      if row.Found? {
        sessions := sessions + [row.session];
      }
      i := i + 1;
    }
    assert lines[..i] == lines;
    return Some(sessions);
  }

  /** One line that cannot be read fails the whole gathering. */
  lemma UnreadableLineFails(c: Collector, lines: seq<string>, probe: int -> ProcFacts, k: nat)
    requires k < |lines| && ReadPsLine(c, lines[k], probe).Unreadable?
    ensures Gather(PsRows(c, lines, probe)).None?
  {
    PsRowAt(c, lines, probe, k);
    assert PsRows(c, lines, probe)[k].Unreadable?;
    GatherFails(PsRows(c, lines, probe));
  }

  /** What every collected session satisfies, whatever line it came from. */
  predicate WellFormedSession(c: Collector, probe: int -> ProcFacts, s: Session)
  {
    && s.serverId == c.serverId
    && (s.isIdle <==> s.cpuPercent < 1.0)
    && (s.ageHours.Some? ==> Truthy(s.startTime))
    && s.memMb == ProcessMemory(probe(s.pid).status).rssMb
    && s.memVirtualMb == ProcessMemory(probe(s.pid).status).vmsMb
    && s.startTime == probe(s.pid).startTime
  }

  lemma FoundWellFormed(c: Collector, line: string, probe: int -> ProcFacts)
    requires ReadPsLine(c, line, probe).Found?
    ensures WellFormedSession(c, probe, ReadPsLine(c, line, probe).session)
  {
  }

  /**
   * Every collected session belongs to the collector's server, is idle
   * exactly when its CPU is below 1%, and has the memory and start time
   * its process reports; and it is the session of one of the lines.
   */
  lemma CollectedSessionFacts(c: Collector, psOutput: Option<string>, probe: int -> ProcFacts, s: Session)
    requires SessionsOf(c, psOutput, probe).Some? && s in SessionsOf(c, psOutput, probe).value
    ensures WellFormedSession(c, probe, s)
    ensures exists k :: 0 <= k < |PsLines(psOutput.value)| && ReadPsLine(c, PsLines(psOutput.value)[k], probe) == Found(s)
  {
    var lines := PsLines(psOutput.value);
    var rows := PsRows(c, lines, probe);
    GatherMembers(rows);
    PsRowsLength(c, lines, probe);
    var k :| 0 <= k < |rows| && rows[k] == Found(s);
    PsRowAt(c, lines, probe, k);
    FoundWellFormed(c, lines[k], probe);
  }

  /** Every line that is a readable session is collected. */
  lemma SessionLineCollected(c: Collector, psOutput: string, probe: int -> ProcFacts, k: nat)
    requires SessionsOf(c, Some(psOutput), probe).Some?
    requires k < |PsLines(psOutput)| && ReadPsLine(c, PsLines(psOutput)[k], probe).Found?
    ensures ReadPsLine(c, PsLines(psOutput)[k], probe).session in SessionsOf(c, Some(psOutput), probe).value
  {
    var lines := PsLines(psOutput);
    PsRowAt(c, lines, probe, k);
    GatherMembers(PsRows(c, lines, probe));
  }

  /** A failed `ps` raises. */
  lemma NoPsNoSessions(c: Collector, probe: int -> ProcFacts)
    ensures SessionsOf(c, None, probe).None?
  {
  }

  /** An output that is only a header line holds no session. */
  lemma HeaderOnly(c: Collector, psOutput: string, probe: int -> ProcFacts)
    requires '\n' !in Strip(psOutput)
    ensures SessionsOf(c, Some(psOutput), probe) == Some([])
  {
    assert Lines(Strip(psOutput)) == [Strip(psOutput)];
  }

  /** Collection raises exactly when some line is a session whose numbers cannot be read. */
  lemma CollectFails(c: Collector, psOutput: string, probe: int -> ProcFacts)
    ensures SessionsOf(c, Some(psOutput), probe).None?
        <==> exists k :: 0 <= k < |PsLines(psOutput)| && ReadPsLine(c, PsLines(psOutput)[k], probe).Unreadable?
  {
    var lines := PsLines(psOutput);
    var rows := PsRows(c, lines, probe);
    if Gather(rows).None? {
      GatherFails(rows);
      PsRowsLength(c, lines, probe);
      var k :| 0 <= k < |rows| && rows[k].Unreadable?;
      PsRowAt(c, lines, probe, k);
      assert ReadPsLine(c, lines[k], probe).Unreadable?;
    }
    if exists k :: 0 <= k < |lines| && ReadPsLine(c, lines[k], probe).Unreadable? {
      var k :| 0 <= k < |lines| && ReadPsLine(c, lines[k], probe).Unreadable?;
      UnreadableLineFails(c, lines, probe, k);
    }
  }

  /** The last column of a `ps aux` line, the command, must start with a non-blank. */
  predicate CommandColumn(cmd: string)
  {
    |cmd| > 0 && !IsSpace(cmd[0])
  }

  lemma PartsRead(c: Collector, parts: seq<string>, probe: int -> ProcFacts, pid: int, cpu: real, mem: real, t: SessionType)
    requires |parts| == 11 && Classify(parts[10]) == Some(t)
    requires PyInt(parts[1]) == Some(pid) && PyFloat(parts[2]) == Some(cpu) && PyFloat(parts[3]) == Some(mem)
    ensures RowOfParts(c, parts, probe) == Found(SessionOf(c, t, parts[0], pid, cpu, mem, probe(pid)))
  {
  }

  /**
   * A `ps aux` line printed as ten columns and a command: when the command
   * names a session type and the pid, %CPU and %MEM columns read as numbers,
   * the line gives exactly that session.
   */
  lemma PsLineRead(c: Collector, cols: seq<string>, cmd: string, probe: int -> ProcFacts, pid: int, cpu: real, mem: real, t: SessionType)
    requires |cols| == 10 && forall k :: 0 <= k < 10 ==> IsWord(cols[k])
    requires CommandColumn(cmd) && Classify(cmd) == Some(t)
    requires PyInt(cols[1]) == Some(pid) && PyFloat(cols[2]) == Some(cpu) && PyFloat(cols[3]) == Some(mem)
    ensures ReadPsLine(c, Spaced(cols) + cmd, probe) == Found(SessionOf(c, t, cols[0], pid, cpu, mem, probe(pid)))
  {
    SplitMaxSpaced(cols, cmd, Spaced(cols) + cmd);
    var parts := cols + [cmd];
    assert parts[10] == cmd && parts[0] == cols[0] && parts[1] == cols[1];
    assert parts[2] == cols[2] && parts[3] == cols[3];
    PartsRead(c, parts, probe, pid, cpu, mem, t);
  }

  /** The same line with a command that names no session type is skipped. */
  lemma OtherProcessSkipped(c: Collector, cols: seq<string>, cmd: string, probe: int -> ProcFacts)
    requires |cols| == 10 && forall k :: 0 <= k < 10 ==> IsWord(cols[k])
    requires CommandColumn(cmd) && Classify(cmd).None?
    ensures ReadPsLine(c, Spaced(cols) + cmd, probe) == Skipped
  {
    var line, parts := Spaced(cols) + cmd, cols + [cmd];
    assert SplitMax(line, 10) == parts by {
      SplitMaxSpaced(cols, cmd, line);
    }
    assert parts[10] == cmd;
    PartsSkipped(c, parts, probe);
  }

  lemma PartsSkipped(c: Collector, parts: seq<string>, probe: int -> ProcFacts)
    requires |parts| == 11 && Classify(parts[10]).None?
    ensures RowOfParts(c, parts, probe) == Skipped
  {
  }
}
