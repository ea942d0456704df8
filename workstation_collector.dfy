// The collector side of nomad/collectors/workstation.py: the
// `WorkstationStats` record that `_collect_workstation` fills in step by
// step from the outputs of seven commands, its health test, and `collect`
// over the configured workstations. The commands themselves (run locally
// or over SSH) are not run: what each prints is an input, `None` standing
// for the CollectionError of a timeout or a failed launch.
module WorkstationCollector {
  import opened Wrappers
  import opened Text
  import opened Lists
  import opened CollectWorkstation

  /** What `uptime`, `nproc`, `cat /proc/meminfo`, `df -k /`, `who`, `ps aux | wc -l` and `ps aux | grep -c ' Z'` print. */
  datatype Outputs = Outputs(
    uptime: Option<string>,
    nproc: Option<string>,
    meminfo: Option<string>,
    df: Option<string>,
    who: Option<string>,
    ps: Option<string>,
    zombies: Option<string>)

  /** The four CPU percentages, which no step sets. */
  datatype CpuTimes = CpuTimes(userPct: real, systemPct: real, idlePct: real, iowaitPct: real)

  /** `to_dict()`: the record a collection reports for a host (the sessions themselves are not part of it). */
  datatype Snapshot = Snapshot(
    hostname: string,
    department: Option<string>,
    uptime: Uptime,
    cpuCount: int,
    cpu: CpuTimes,
    memory: Memory,
    disk: Disk,
    usersLoggedIn: int,
    processCount: int,
    zombieCount: int,
    status: string)

  /** The health test of `is_healthy` on the figures it reads. */
  predicate HealthyFigures(memoryPct: real, diskPct: real, zombies: int, load1: real, cpus: int)
  {
    memoryPct < 95.0 && diskPct < 95.0 && zombies < 10 && load1 < (cpus * 2) as real
  }

  /**
   * `WorkstationStats`: one host's figures, updated in place by
   * `_collect_workstation`. The dataclass's flat figures are grouped by the
   * command that fills them: `uptime` holds `uptime_seconds` and the three
   * load averages, `memory` the `memory_*_mb` and `swap_*_mb` fields, `disk`
   * the `disk_*` fields.
   */
  class WorkstationStats {
    const hostname: string
    const department: Option<string>
    var uptime: Uptime
    var cpuCount: int
    const cpu: CpuTimes := CpuTimes(0.0, 0.0, 0.0, 0.0)
    var memory: Memory
    var disk: Disk
    var usersLoggedIn: int
    var sessions: seq<UserSession>
    var processCount: int
    var zombieCount: int
    var status: string

    /** The dataclass defaults: every figure zero, no sessions, `online`. */
    constructor (hostname: string, department: Option<string>)
      ensures this.hostname == hostname && this.department == department
      ensures uptime == Uptime(0, 0.0, 0.0, 0.0) && cpuCount == 0
      ensures memory == Memory(0, 0, 0, 0, 0, 0) && disk == NoDisk
      ensures usersLoggedIn == 0 && sessions == [] && processCount == 0 && zombieCount == 0
      ensures status == "online"
    {
      this.hostname := hostname;
      this.department := department;
      uptime := Uptime(0, 0.0, 0.0, 0.0);
      cpuCount := 0;
      memory := Memory(0, 0, 0, 0, 0, 0);
      disk := NoDisk;
      usersLoggedIn := 0;
      sessions := [];
      processCount, zombieCount := 0, 0;
      status := "online";
    }

    /** `memory_usage_pct`. */
    function MemoryUsagePct(): real
      reads this
    {
      MemoryPct(memory.usedMb, memory.totalMb)
    }

    /** `is_healthy`: online, and the figures pass the health test. */
    predicate IsHealthy()
      reads this
    {
      status == "online" && HealthyFigures(MemoryUsagePct(), disk.usagePct, zombieCount, uptime.load1, cpuCount)
    }

    /** The figures of a collection stored in the fields; the status is left as it is. */
    method Fill(up: Uptime, cpus: int, m: Memory, d: Disk, sessions: seq<UserSession>, processes: int, zombies: int)
      modifies this
      ensures ToDict() == Filled(hostname, department, up, cpus, m, d, sessions, processes, zombies, old(status))
      ensures this.sessions == sessions
      ensures IsHealthy() <==> status == "online" && HealthyFigures(MemoryPct(m.usedMb, m.totalMb), d.usagePct, zombies, up.load1, cpus)
    {
      uptime, cpuCount, memory, disk, this.sessions, usersLoggedIn, processCount, zombieCount :=
        up, cpus, m, d, sessions, |ImageSet(sessions, Username)|, processes, zombies;
    }

    /** The end of `_collect_workstation`: `online` when `is_healthy` holds, `degraded` otherwise; nothing else changes. */
    method Settle()
      modifies this
      ensures status == if old(IsHealthy()) then "online" else "degraded"
      ensures ToDict() == old(ToDict()).(status := status)
      ensures sessions == old(sessions)
      ensures IsHealthy() <==> status == "online"
    {
      if IsHealthy() {
        status := "online";
      } else {
        status := "degraded";
      }
    }

    /** `to_dict()`. */
    function ToDict(): Snapshot
      reads this
    {
      Snapshot(hostname, department, uptime, cpuCount, cpu, memory, disk, usersLoggedIn, processCount, zombieCount, status)
    }
  }

  // ---------------------------------------------------------------
  // The steps of `_collect_workstation`, on values
  // ---------------------------------------------------------------

  /** The uptime step: defaults when the command fails; `None` when `parse_uptime` raises ValueError. */
  function UptimeStep(out: Option<string>): Option<Uptime>
  {
    if out.None? then Some(Uptime(0, 0.0, 0.0, 0.0)) else UptimeOf(out.value)
  }

  /** The disk step on `/`: defaults when the command fails; `None` when `parse_df` raises ValueError. */
  function DiskStep(out: Option<string>): Option<Disk>
  {
    if out.None? then Some(NoDisk) else DfOf(out.value, "/")
  }

  /** The collection of a host returns (rather than raising ValueError) exactly when both of these parse. */
  predicate Completes(out: Outputs)
  {
    UptimeStep(out.uptime).Some? && DiskStep(out.df).Some?
  }

  /** `int(nproc)`, or 1 when the command fails or prints no integer. */
  function CpuCount(out: Option<string>): int
  {
    if out.None? then 1
    else
      var n := PyInt(out.value);
      if n.Some? then n.value else 1
  }

  /** The memory figures, all zero when the command fails. */
  function MemoryStep(out: Option<string>): Memory
  {
    if out.None? then Memory(0, 0, 0, 0, 0, 0) else MemoryFrom(MeminfoOf(out.value))
  }

  function SessionsStep(out: Option<string>): seq<UserSession>
  {
    if out.None? then [] else WhoOf(out.value)
  }

  /** `max(0, int(out) - 1)`: the line count less the header; 0 when the command fails or prints no integer. */
  function ProcessCount(out: Option<string>): int
  {
    if out.None? then 0
    else
      var n := PyInt(out.value);
      if n.None? then 0 else if n.value - 1 > 0 then n.value - 1 else 0
  }

  /** `int(out)`, or 0 when the command fails or prints no integer. */
  function ZombieCount(out: Option<string>): int
  {
    if out.None? then 0
    else
      var n := PyInt(out.value);
      if n.Some? then n.value else 0
  }

  /** The record of a host with these figures and this status. */
  function Filled(hostname: string, department: Option<string>, up: Uptime, cpus: int, memory: Memory,
                  disk: Disk, sessions: seq<UserSession>, processes: int, zombies: int, status: string): Snapshot
  {
    Snapshot(hostname, department, up, cpus, CpuTimes(0.0, 0.0, 0.0, 0.0), memory, disk,
      |ImageSet(sessions, Username)|, processes, zombies, status)
  }

  /** The record of a host with these figures, its status settled by the health test. */
  function Settled(hostname: string, department: Option<string>, up: Uptime, cpus: int, memory: Memory,
                   disk: Disk, sessions: seq<UserSession>, processes: int, zombies: int): Snapshot
  {
    var healthy := HealthyFigures(MemoryPct(memory.usedMb, memory.totalMb), disk.usagePct, zombies, up.load1, cpus);
    Filled(hostname, department, up, cpus, memory, disk, sessions, processes, zombies,
      if healthy then "online" else "degraded")
  }

  /** The record `_collect_workstation` returns for a host whose collection completes. */
  function HostSnapshot(hostname: string, department: Option<string>, out: Outputs): Snapshot
    requires Completes(out)
  {
    Settled(hostname, department, UptimeStep(out.uptime).value, CpuCount(out.nproc), MemoryStep(out.meminfo),
      DiskStep(out.df).value, SessionsStep(out.who), ProcessCount(out.ps), ZombieCount(out.zombies))
  }

  /** The uptime step: `parse_uptime` on what `uptime` printed, if it printed. */
  method ReadUptime(out: Option<string>) returns (r: Option<Uptime>)
    ensures r == UptimeStep(out)
  {
    r := Some(Uptime(0, 0.0, 0.0, 0.0));
    if out.Some? {
      r := ParseUptime(out.value);
    }
  }

  /** The memory step: the MB figures derived from /proc/meminfo, if it was read. */
  method ReadMemory(out: Option<string>) returns (m: Memory)
    ensures m == MemoryStep(out)
  {
    m := Memory(0, 0, 0, 0, 0, 0);
    if out.Some? {
      var mem := ParseMeminfo(out.value);
      var total := Get(mem, "MemTotal") / 1024;
      var free := Get(mem, "MemFree") / 1024;
      var cached := (Get(mem, "Cached") + Get(mem, "Buffers")) / 1024;
      m := Memory(total, total - free - cached, free, cached,
        Get(mem, "SwapTotal") / 1024, (Get(mem, "SwapTotal") - Get(mem, "SwapFree")) / 1024);
    }
  }

  /** The disk step: `parse_df` on what `df -k /` printed, if it printed. */
  method ReadDisk(out: Option<string>) returns (r: Option<Disk>)
    ensures r == DiskStep(out)
  {
    r := Some(NoDisk);
    if out.Some? {
      r := ParseDf(out.value, "/");
    }
  }

  /** The sessions step: `parse_who` on what `who` printed, if it printed. */
  method ReadSessions(out: Option<string>) returns (sessions: seq<UserSession>)
    ensures sessions == SessionsStep(out)
  {
    sessions := [];
    if out.Some? {
      sessions := ParseWho(out.value);
    }
  }

  /**
   * `_collect_workstation`: each command in turn, a failed one leaving its
   * fields at their defaults; `None` when `parse_uptime` or `parse_df`
   * raises, which nothing catches. Finally the status is `online` when the
   * host is healthy and `degraded` otherwise.
   */
  method CollectHost(hostname: string, department: Option<string>, out: Outputs) returns (r: Option<WorkstationStats>)
    ensures r.Some? <==> Completes(out)
    ensures r.Some? ==> fresh(r.value) && r.value.ToDict() == HostSnapshot(hostname, department, out)
    ensures r.Some? ==> r.value.sessions == SessionsStep(out.who)
    ensures r.Some? ==> (r.value.IsHealthy() <==> r.value.status == "online")
  {
    var up := ReadUptime(out.uptime);
    if up.None? {
      return None;
    }
    var cpus := CpuCount(out.nproc);
    var m := ReadMemory(out.meminfo);
    var disk := ReadDisk(out.df);
    if disk.None? {
      return None;
    }
    var sessions := ReadSessions(out.who);
    var processes, zombies := ProcessCount(out.ps), ZombieCount(out.zombies);
    var stats := new WorkstationStats(hostname, department);
    stats.Fill(up.value, cpus, m, disk.value, sessions, processes, zombies);
    stats.Settle();
    return Some(stats);
  }

  // ---------------------------------------------------------------
  // collect
  // ---------------------------------------------------------------

  /** One entry of the `workstations` configuration list. */
  datatype WsConfig = WsConfig(hostname: Option<string>, department: Option<string>)

  /** `if not hostname: continue`. */
  predicate Named(ws: WsConfig)
  {
    ws.hostname.Some? && ws.hostname.value != ""
  }

  /** A reported host: its record, or the `error` entry when its collection raised. */
  datatype HostRecord =
    | Reading(snapshot: Snapshot)
    | Failed(host: string, dept: Option<string>)

  function RecordStatus(r: HostRecord): string
  {
    if r.Reading? then r.snapshot.status else "error"
  }

  function RecordHost(r: HostRecord): string
  {
    if r.Reading? then r.snapshot.hostname else r.host
  }

  /** The record of one named host. */
  function HostRecordOf(hostname: string, department: Option<string>, out: Outputs): HostRecord
  {
    if Completes(out) then Reading(HostSnapshot(hostname, department, out)) else Failed(hostname, department)
  }

  /** `collect` on values: a record per named entry, in order; `outputs[i]` is what the commands print on the `i`-th host. */
  function CollectOf(workstations: seq<WsConfig>, outputs: seq<Outputs>): seq<HostRecord>
    requires |workstations| == |outputs|
  {
    if |workstations| == 0 then []
    else
      var n := |workstations| - 1;
      var ws := workstations[n];
      CollectOf(workstations[..n], outputs[..n])
        + if Named(ws) then [HostRecordOf(ws.hostname.value, ws.department, outputs[n])] else []
  }

  /** `collect`. */
  method Collect(workstations: seq<WsConfig>, outputs: seq<Outputs>) returns (results: seq<HostRecord>)
    requires |workstations| == |outputs|
    ensures results == CollectOf(workstations, outputs)
  {
    results := [];
    var i := 0;
    while i < |workstations|
      invariant i <= |workstations|
      invariant results == CollectOf(workstations[..i], outputs[..i])
    {
      assert workstations[..i + 1][..i] == workstations[..i];
      assert outputs[..i + 1][..i] == outputs[..i];
      var ws := workstations[i];
      if ws.hostname.Some? && ws.hostname.value != "" {
        var stats := CollectHost(ws.hostname.value, ws.department, outputs[i]);
        if stats.Some? {
          results := results + [Reading(stats.value.ToDict())];
        } else {
          results := results + [Failed(ws.hostname.value, ws.department)];
        }
      }
      i := i + 1;
    }
    assert workstations[..|workstations|] == workstations;
    assert outputs[..|outputs|] == outputs;
  }

  /** The hosts of the named entries, in order. */
  function NamedHosts(workstations: seq<WsConfig>): seq<string>
  {
    if |workstations| == 0 then []
    else
      var ws := workstations[|workstations| - 1];
      NamedHosts(workstations[..|workstations| - 1]) + if Named(ws) then [ws.hostname.value] else []
  }

  function RecordHosts(records: seq<HostRecord>): seq<string>
  {
    if |records| == 0 then [] else RecordHosts(records[..|records| - 1]) + [RecordHost(records[|records| - 1])]
  }

  lemma RecordHostsAppend(records: seq<HostRecord>, more: seq<HostRecord>)
    requires |more| <= 1
    ensures RecordHosts(records + more) == RecordHosts(records) + RecordHosts(more)
  {
    if |more| == 1 {
      assert (records + more)[..|records|] == records;
      assert more[..0] == [];
    } else {
      assert records + more == records;
    }
  }

  /** One record per named entry, for that entry's host and in the same order; unnamed entries are skipped. */
  lemma {:induction false} CollectHosts(workstations: seq<WsConfig>, outputs: seq<Outputs>)
    requires |workstations| == |outputs|
    ensures RecordHosts(CollectOf(workstations, outputs)) == NamedHosts(workstations)
  {
    if |workstations| > 0 {
      var n := |workstations| - 1;
      var ws := workstations[n];
      CollectHosts(workstations[..n], outputs[..n]);
      var more := if Named(ws) then [HostRecordOf(ws.hostname.value, ws.department, outputs[n])] else [];
      RecordHostsAppend(CollectOf(workstations[..n], outputs[..n]), more);
    }
  }

  /**
   * No record is ever `offline`: `_collect_workstation` catches every
   * CollectionError itself, so the only failure `collect` sees is a
   * ValueError, reported as `error`.
   */
  lemma {:induction false} NeverOffline(workstations: seq<WsConfig>, outputs: seq<Outputs>)
    requires |workstations| == |outputs|
    ensures forall r | r in CollectOf(workstations, outputs) :: RecordStatus(r) in {"online", "degraded", "error"}
    ensures forall r | r in CollectOf(workstations, outputs) :: RecordStatus(r) == "error" <==> r.Failed?
  {
    if |workstations| > 0 {
      var n := |workstations| - 1;
      NeverOffline(workstations[..n], outputs[..n]);
    }
  }

  /** The record of a host is `error` exactly when `parse_uptime` or `parse_df` raised. */
  lemma ErrorWhenParseFails(hostname: string, department: Option<string>, out: Outputs)
    ensures RecordStatus(HostRecordOf(hostname, department, out)) == "error" <==> !Completes(out)
  {
  }

  /** A host whose every command fails is reported `online`: one CPU, no load, no memory or disk figures. */
  lemma SilentHostOnline(hostname: string, department: Option<string>)
    ensures Completes(Outputs(None, None, None, None, None, None, None))
    ensures HostSnapshot(hostname, department, Outputs(None, None, None, None, None, None, None)).status == "online"
  {
    IdleFiguresOnline(hostname, department, []);
  }

  /** No load, one CPU and zero memory, disk and zombie figures pass the health test. */
  lemma IdleFiguresOnline(hostname: string, department: Option<string>, sessions: seq<UserSession>)
    ensures Settled(hostname, department, Uptime(0, 0.0, 0.0, 0.0), 1, Memory(0, 0, 0, 0, 0, 0), NoDisk, sessions, 0, 0).status
      == "online"
  {
    MemoryPctBounds(0, 0);
    assert HealthyFigures(0.0, 0.0, 0, 0.0, 1);
  }

  /**
   * A host whose commands all print nothing (as `run_command` returns when
   * SSH cannot reach it, the exit status being ignored) is also `online`.
   */
  lemma EmptyOutputsOnline(hostname: string, department: Option<string>, empty: string)
    requires |empty| == 0
    ensures Completes(Outputs(Some(empty), Some(empty), Some(empty), Some(empty), Some(empty), Some(empty), Some(empty)))
    ensures HostSnapshot(hostname, department, Outputs(Some(empty), Some(empty), Some(empty), Some(empty), Some(empty), Some(empty), Some(empty))).status
      == "online"
  {
    var out := Outputs(Some(empty), Some(empty), Some(empty), Some(empty), Some(empty), Some(empty), Some(empty));
    assert UptimeStep(out.uptime) == Some(Uptime(0, 0.0, 0.0, 0.0)) by { EmptyParses(empty); }
    assert DiskStep(out.df) == Some(NoDisk) by { EmptyParses(empty); }
    assert MemoryStep(out.meminfo) == Memory(0, 0, 0, 0, 0, 0) by { EmptyParses(empty); }
    assert SessionsStep(out.who) == [] by { EmptyParses(empty); }
    assert PyInt(empty) == None by { EmptyParses(empty); }
    assert CpuCount(out.nproc) == 1 && ProcessCount(out.ps) == 0 && ZombieCount(out.zombies) == 0;
    assert HostSnapshot(hostname, department, out)
      == Settled(hostname, department, Uptime(0, 0.0, 0.0, 0.0), 1, Memory(0, 0, 0, 0, 0, 0), NoDisk, [], 0, 0);
    IdleFiguresOnline(hostname, department, []);
  }

  /** Ten zombies, a full disk, or a load of twice the CPUs each make a completed host `degraded`. */
  lemma DegradedWhenOverloaded(hostname: string, department: Option<string>, out: Outputs)
    requires Completes(out)
    requires ZombieCount(out.zombies) >= 10 || DiskStep(out.df).value.usagePct >= 95.0
      || UptimeStep(out.uptime).value.load1 >= (CpuCount(out.nproc) * 2) as real
    ensures HostSnapshot(hostname, department, out).status == "degraded"
  {
  }

  /** A completed host's memory use never exceeds its total, so its memory percentage stays at most 100. */
  lemma CollectedMemory(hostname: string, department: Option<string>, out: Outputs)
    requires Completes(out)
    ensures HostSnapshot(hostname, department, out).memory.usedMb <= HostSnapshot(hostname, department, out).memory.totalMb
    ensures MemoryPct(HostSnapshot(hostname, department, out).memory.usedMb, HostSnapshot(hostname, department, out).memory.totalMb) <= 100.0
  {
    var m := HostSnapshot(hostname, department, out).memory;
    MemoryPctBounds(m.usedMb, m.totalMb);
  }

  /** The printed process count is the line count less the header. */
  lemma ProcessCountPrinted(n: nat)
    ensures ProcessCount(Some(NatToString(n + 1))) == n
  {
    IntToStringRoundTrip(n + 1);
  }

  /** The empty output of each command parses to its defaults. */
  lemma EmptyParses(empty: string)
    requires |empty| == 0
    ensures UptimeStep(Some(empty)) == Some(Uptime(0, 0.0, 0.0, 0.0))
    ensures DiskStep(Some(empty)) == Some(NoDisk)
    ensures MemoryStep(Some(empty)) == Memory(0, 0, 0, 0, 0, 0)
    ensures SessionsStep(Some(empty)) == []
    ensures PyInt(empty) == None
  {
    assert empty == "";
    UptimeOfEmpty();
    assert Lines(empty) == [empty];
    assert Lines(empty)[1..] == [];
    assert MemRows(empty) == MemRow(empty) by {
      assert [empty][..0] == [];
    }
    assert MemEntry(empty) == None;
    assert ToMap<string, nat>([]) == map[];
    assert WhoOf(empty) == WhoRow(empty) by {
      assert [empty][..0] == [];
    }
  }
}
