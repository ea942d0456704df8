// Workstation diagnostics: the rule-based list of potential causes for a
// departmental machine and the recommendations derived from them. The
// stored state is the input; the trend analyzer's verdicts are inputs too.
module DiagWorkstation {
  import opened Wrappers
  import opened Text
  import opened Lists

  // ---------------------------------------------------------------
  // Inputs
  // ---------------------------------------------------------------

  /**
   * The state fields the rules read; `None` is a missing key, which the
   * rules replace by the default `.get` supplies.
   */
  datatype WorkstationState = WorkstationState(
    memoryTotalMb: Option<int>,
    memoryUsedMb: Option<int>,
    swapUsedMb: Option<int>,
    diskUsagePct: Option<real>,
    loadAvg1m: Option<real>,
    cpuCount: Option<int>,
    zombieCount: Option<int>)

  /**
   * The trend analyses as far as the rules read them: the alert level of
   * the memory and disk analyses (`None` when the analysis is empty) and
   * the disk's predicted days until full.
   */
  datatype Trends = Trends(memoryAlert: Option<string>, diskAlert: Option<string>, diskDaysUntilFull: Option<real>)

  function MemTotal(s: WorkstationState): int { s.memoryTotalMb.GetOr(1) }
  function MemUsed(s: WorkstationState): int { s.memoryUsedMb.GetOr(0) }
  function Swap(s: WorkstationState): int { s.swapUsedMb.GetOr(0) }
  function Disk(s: WorkstationState): real { s.diskUsagePct.GetOr(0.0) }
  function Load(s: WorkstationState): real { s.loadAvg1m.GetOr(0.0) }
  function Cpus(s: WorkstationState): int { s.cpuCount.GetOr(1) }
  function Zombies(s: WorkstationState): int { s.zombieCount.GetOr(0) }

  /** Memory use in percent; 0 when the total is not positive. */
  function MemPct(s: WorkstationState): (p: real)
    ensures MemTotal(s) <= 0 ==> p == 0.0
    ensures MemTotal(s) > 0 ==> p * (MemTotal(s) as real) == (MemUsed(s) as real) * 100.0
  {
    if MemTotal(s) > 0 then (MemUsed(s) as real) / (MemTotal(s) as real) * 100.0 else 0.0
  }

  // ---------------------------------------------------------------
  // Causes
  // ---------------------------------------------------------------

  /** Which rule produced a cause; `Name` is the cause text of the report. */
  datatype CauseKind =
    | NotReporting
    | CriticalMemoryPressure
    | HighMemoryUsage
    | HeavySwapUsage
    | DiskAlmostFull
    | HighDiskUsage
    | CpuOverload
    | HighCpuLoad
    | ManyZombies
    | ZombiesPresent
    | MemoryAccelerating
    | DiskFillingRapidly
    | NoObviousIssues
  {
    function Name(): string
    {
      match this
      case NotReporting => "Workstation not reporting"
      case CriticalMemoryPressure => "Critical Memory Pressure"
      case HighMemoryUsage => "High Memory Usage"
      case HeavySwapUsage => "Heavy Swap Usage"
      case DiskAlmostFull => "Disk Almost Full"
      case HighDiskUsage => "High Disk Usage"
      case CpuOverload => "CPU Overload"
      case HighCpuLoad => "High CPU Load"
      case ManyZombies => "Many Zombie Processes"
      case ZombiesPresent => "Zombie Processes Present"
      case MemoryAccelerating => "Memory Usage Accelerating"
      case DiskFillingRapidly => "Disk Filling Rapidly"
      case NoObviousIssues => "No obvious issues detected"
    }
  }

  datatype Cause = Cause(kind: CauseKind, confidence: string, detail: string)

  function HighConfidence(): string { "high" }
  function MediumConfidence(): string { "medium" }
  function LowConfidence(): string { "low" }

  function Kinds(causes: seq<Cause>): (ks: seq<CauseKind>)
    ensures |ks| == |causes|
    ensures forall k :: 0 <= k < |causes| ==> ks[k] == causes[k].kind
  {
    seq(|causes|, k requires 0 <= k < |causes| => causes[k].kind)
  }

  lemma KindsConcat(a: seq<Cause>, b: seq<Cause>)
    ensures Kinds(a + b) == Kinds(a) + Kinds(b)
  {
  }

  lemma KindsOfOne(cs: seq<Cause>)
    requires |cs| <= 1
    ensures Kinds(cs) == if |cs| == 0 then [] else [cs[0].kind]
  {
  }

  const NotReportingCause := Cause(NotReporting, HighConfidence(), NotReportingDetail())
  const NoObviousCause := Cause(NoObviousIssues, LowConfidence(), HealthyDetail())

  function NotReportingDetail(): string { "No recent data - may be powered off or network issue" }
  function HealthyDetail(): string { "Workstation appears healthy" }

  /** An analysis whose alert level is "critical". */
  predicate Critical(alert: Option<string>)
  {
    alert == Some("critical")
  }

  /** 2 above the critical threshold (95), 1 above the warning threshold (85), else 0. */
  function Level(x: real): nat
  {
    if x > 95.0 then 2 else if x > 85.0 then 1 else 0
  }

  function MemoryRule(s: WorkstationState): seq<Cause>
  {
    var pct := MemPct(s);
    if pct > 95.0 then [Cause(CriticalMemoryPressure, HighConfidence(), MemoryDetail(pct, true))]
    else if pct > 85.0 then [Cause(HighMemoryUsage, MediumConfidence(), MemoryDetail(pct, false))]
    else []
  }

  function MemoryDetail(pct: real, critical: bool): string
  {
    "Memory at " + Fixed1(pct)
      + (if critical then "% - system may be swapping heavily" else "% - approaching critical levels")
  }

  /** More than 1 GB of swap in use. */
  function SwapRule(s: WorkstationState): seq<Cause>
  {
    if Swap(s) > 1024 then [Cause(HeavySwapUsage, HighConfidence(), SwapDetail(Swap(s)))] else []
  }

  function SwapDetail(mb: int): string
  {
    IntToString(mb) + " MB swap in use - indicates memory pressure"
  }

  function DiskRule(s: WorkstationState): seq<Cause>
  {
    var pct := Disk(s);
    if pct > 95.0 then [Cause(DiskAlmostFull, HighConfidence(), DiskDetail(pct, true))]
    else if pct > 85.0 then [Cause(HighDiskUsage, MediumConfidence(), DiskDetail(pct, false))]
    else []
  }

  function DiskDetail(pct: real, critical: bool): string
  {
    "Disk at " + Fixed1(pct) + (if critical then "% - may cause application failures" else "% - should be monitored")
  }

  /** 2 above twice the CPU count, 1 above the CPU count, else 0. */
  function CpuLevel(s: WorkstationState): nat
  {
    if Load(s) > (Cpus(s) * 2) as real then 2 else if Load(s) > Cpus(s) as real then 1 else 0
  }

  function CpuRule(s: WorkstationState): seq<Cause>
  {
    if Load(s) > (Cpus(s) * 2) as real then [Cause(CpuOverload, HighConfidence(), OverloadDetail(Load(s), Cpus(s)))]
    else if Load(s) > Cpus(s) as real then [Cause(HighCpuLoad, MediumConfidence(), HighLoadDetail(Load(s), Cpus(s)))]
    else []
  }

  function OverloadDetail(load: real, cpus: int): string
  {
    "Load average " + Fixed1(load) + " exceeds " + IntToString(cpus * 2) + " (2x CPU count)"
  }

  function HighLoadDetail(load: real, cpus: int): string
  {
    "Load average " + Fixed1(load) + " exceeds CPU count (" + IntToString(cpus) + ")"
  }

  /** 2 for more than ten zombies, 1 for some, else 0. */
  function ZombieLevel(s: WorkstationState): nat
  {
    if Zombies(s) > 10 then 2 else if Zombies(s) > 0 then 1 else 0
  }

  function ZombieRule(s: WorkstationState): seq<Cause>
  {
    var z := Zombies(s);
    if z > 10 then [Cause(ManyZombies, MediumConfidence(), ZombieDetail(z, true))]
    else if z > 0 then [Cause(ZombiesPresent, LowConfidence(), ZombieDetail(z, false))]
    else []
  }

  function ZombieDetail(z: int, many: bool): string
  {
    IntToString(z)
      + (if many then " zombie processes - parent processes not reaping children" else " zombie process(es) detected")
  }

  function MemoryTrendRule(t: Trends): seq<Cause>
  {
    if Critical(t.memoryAlert) then [Cause(MemoryAccelerating, HighConfidence(), AcceleratingDetail())] else []
  }

  function AcceleratingDetail(): string { "Memory usage increasing rapidly - possible memory leak" }

  /** Truthiness of the predicted days: present and non-zero. */
  predicate HasDays(t: Trends)
  {
    t.diskDaysUntilFull.Some? && t.diskDaysUntilFull.value != 0.0
  }

  function DiskTrendRule(t: Trends): seq<Cause>
  {
    if Critical(t.diskAlert) then [Cause(DiskFillingRapidly, HighConfidence(), DiskTrendDetail(t))] else []
  }

  /** The predicted days are mentioned only when they are truthy. */
  function DiskTrendDetail(t: Trends): (d: string)
    ensures |d| >= 20 && d[..20] == "Disk filling rapidly"
    ensures HasDays(t) <==> d != "Disk filling rapidly"
  {
    "Disk filling rapidly"
      + (if HasDays(t) then " - estimated full in " + Fixed1(t.diskDaysUntilFull.value) + " days" else "")
  }

  /** The rule causes in rule order, before the fallback. */
  function Rules(s: WorkstationState, t: Trends): seq<Cause>
  {
    MemoryRule(s) + SwapRule(s) + DiskRule(s) + CpuRule(s) + ZombieRule(s) + MemoryTrendRule(t) + DiskTrendRule(t)
  }

  /** Some rule fires for a reporting machine. */
  predicate AnyWorkstationIssue(s: WorkstationState, t: Trends)
  {
    MemPct(s) > 85.0 || Swap(s) > 1024 || Disk(s) > 85.0 || Load(s) > (Cpus(s) * 2) as real || Load(s) > Cpus(s) as real
    || Zombies(s) > 0 || Critical(t.memoryAlert) || Critical(t.diskAlert)
  }

  /**
   * `analyze_potential_causes`; the unused history argument is omitted and
   * a missing or empty state dictionary is `None`.
   */
  method AnalyzePotentialCauses(state: Option<WorkstationState>, trends: Trends) returns (causes: seq<Cause>)
    ensures |causes| >= 1
    ensures state.None? ==> causes == [NotReportingCause]
    ensures state.Some? ==> ReportingCausesHold(state.value, trends, causes)
  {
    if state.None? {
      causes := [NotReportingCause];
      return;
    }
    causes := ReportingAnalysis(state.value, trends);
    ReportingCauses(state.value, trends, causes);
  }

  /** The causes of a reporting machine: those of the rules that fire, else the fallback. */
  method ReportingAnalysis(s: WorkstationState, trends: Trends) returns (causes: seq<Cause>)
    ensures CausesInRuleOrder(s, trends, causes)
  {
    causes := RuleCauses(s, trends);
    if |causes| == 0 {
      causes := [NoObviousCause];
    }
  }

  /** The rules' causes, appended in the order the rules are checked. */
  method RuleCauses(s: WorkstationState, trends: Trends) returns (causes: seq<Cause>)
    ensures causes == Rules(s, trends)
  {
    causes := MemoryRule(s);
    causes := causes + SwapRule(s);
    causes := causes + DiskRule(s);
    causes := causes + CpuRule(s);
    causes := causes + ZombieRule(s);
    causes := causes + MemoryTrendRule(trends);
    causes := causes + DiskTrendRule(trends);
  }

  /** What the causes of a reporting machine say, rule by rule. */
  ghost predicate ReportingCausesHold(s: WorkstationState, t: Trends, causes: seq<Cause>)
  {
    var ks := Kinds(causes);
    && CausesInRuleOrder(s, t, causes)
    && MemoryFacts(s, ks)
    && DiskCpuFacts(s, ks)
    && ZombieTrendFacts(s, t, ks)
    && (NoObviousIssues in ks <==> !AnyWorkstationIssue(s, t))
    && (NoObviousIssues in ks ==> causes == [NoObviousCause])
    && NotReporting !in ks
  }

  /** The causes are the rule causes in rule order, or the single fallback. */
  ghost predicate CausesInRuleOrder(s: WorkstationState, t: Trends, causes: seq<Cause>)
  {
    causes == if |Rules(s, t)| == 0 then [NoObviousCause] else Rules(s, t)
  }

  /** Memory above 95 is critical, above 85 high, and the two exclude each other; swap above 1 GB is heavy. */
  ghost predicate MemoryFacts(s: WorkstationState, ks: seq<CauseKind>)
  {
    && (CriticalMemoryPressure in ks <==> MemPct(s) > 95.0)
    && (HighMemoryUsage in ks <==> 85.0 < MemPct(s) <= 95.0)
    && (HeavySwapUsage in ks <==> Swap(s) > 1024)
  }

  /** The disk thresholds as for memory; a load above twice the CPU count is an overload, else above it a high load. */
  ghost predicate DiskCpuFacts(s: WorkstationState, ks: seq<CauseKind>)
  {
    && (DiskAlmostFull in ks <==> Disk(s) > 95.0)
    && (HighDiskUsage in ks <==> 85.0 < Disk(s) <= 95.0)
    && (CpuOverload in ks <==> Load(s) > (Cpus(s) * 2) as real)
    && (HighCpuLoad in ks <==> Cpus(s) as real < Load(s) <= (Cpus(s) * 2) as real)
  }

  /** More than ten zombies are many, else some are present; trend causes only for critical alerts. */
  ghost predicate ZombieTrendFacts(s: WorkstationState, t: Trends, ks: seq<CauseKind>)
  {
    && (ManyZombies in ks <==> Zombies(s) > 10)
    && (ZombiesPresent in ks <==> 0 < Zombies(s) <= 10)
    && (MemoryAccelerating in ks <==> Critical(t.memoryAlert))
    && (DiskFillingRapidly in ks <==> Critical(t.diskAlert))
  }

  // Kinds of each rule, with the levels and flags that decide them.

  function LevelKinds(level: nat, high: CauseKind, warn: CauseKind): seq<CauseKind>
  {
    if level == 2 then [high] else if level == 1 then [warn] else []
  }

  function FlagKinds(flag: bool, k: CauseKind): seq<CauseKind>
  {
    if flag then [k] else []
  }

  /** The kinds of the rule causes, in rule order, from the rules' levels and flags. */
  function KindSeq(mem: nat, swap: bool, disk: nat, cpu: nat, zombie: nat, memTrend: bool, diskTrend: bool): seq<CauseKind>
  {
    LevelKinds(mem, CriticalMemoryPressure, HighMemoryUsage) + FlagKinds(swap, HeavySwapUsage)
    + LevelKinds(disk, DiskAlmostFull, HighDiskUsage) + LevelKinds(cpu, CpuOverload, HighCpuLoad)
    + LevelKinds(zombie, ManyZombies, ZombiesPresent)
    + FlagKinds(memTrend, MemoryAccelerating) + FlagKinds(diskTrend, DiskFillingRapidly)
  }

  /** The levels and flags of a state. */
  function KindsFor(s: WorkstationState, t: Trends): seq<CauseKind>
  {
    KindSeq(Level(MemPct(s)), Swap(s) > 1024, Level(Disk(s)), CpuLevel(s), ZombieLevel(s),
      Critical(t.memoryAlert), Critical(t.diskAlert))
  }

  lemma MemoryRuleKinds(s: WorkstationState)
    ensures Kinds(MemoryRule(s)) == LevelKinds(Level(MemPct(s)), CriticalMemoryPressure, HighMemoryUsage)
  {
    KindsOfOne(MemoryRule(s));
  }

  lemma SwapRuleKinds(s: WorkstationState)
    ensures Kinds(SwapRule(s)) == FlagKinds(Swap(s) > 1024, HeavySwapUsage)
  {
    KindsOfOne(SwapRule(s));
  }

  lemma DiskRuleKinds(s: WorkstationState)
    ensures Kinds(DiskRule(s)) == LevelKinds(Level(Disk(s)), DiskAlmostFull, HighDiskUsage)
  {
    KindsOfOne(DiskRule(s));
  }

  lemma CpuRuleKinds(s: WorkstationState)
    ensures Kinds(CpuRule(s)) == LevelKinds(CpuLevel(s), CpuOverload, HighCpuLoad)
  {
    KindsOfOne(CpuRule(s));
  }

  lemma ZombieRuleKinds(s: WorkstationState)
    ensures Kinds(ZombieRule(s)) == LevelKinds(ZombieLevel(s), ManyZombies, ZombiesPresent)
  {
    KindsOfOne(ZombieRule(s));
  }

  lemma TrendRulesKinds(t: Trends)
    ensures Kinds(MemoryTrendRule(t)) == FlagKinds(Critical(t.memoryAlert), MemoryAccelerating)
    ensures Kinds(DiskTrendRule(t)) == FlagKinds(Critical(t.diskAlert), DiskFillingRapidly)
  {
    KindsOfOne(MemoryTrendRule(t));
    KindsOfOne(DiskTrendRule(t));
  }

  /** The rule causes have, in order, the kinds their thresholds select. */
  lemma RulesKinds(s: WorkstationState, t: Trends)
    ensures Kinds(Rules(s, t)) == KindsFor(s, t)
  {
    var m, w, d, c, z, mt, dt := MemoryRule(s), SwapRule(s), DiskRule(s), CpuRule(s), ZombieRule(s),
      MemoryTrendRule(t), DiskTrendRule(t);
    MemoryRuleKinds(s);
    SwapRuleKinds(s);
    DiskRuleKinds(s);
    CpuRuleKinds(s);
    ZombieRuleKinds(s);
    TrendRulesKinds(t);
    KindsConcat(m, w);
    KindsConcat(m + w, d);
    KindsConcat(m + w + d, c);
    KindsConcat(m + w + d + c, z);
    KindsConcat(m + w + d + c + z, mt);
    KindsConcat(m + w + d + c + z + mt, dt);
  }

  /** The rule that can produce a kind, numbered in rule order; 7 for the two fixed causes. */
  function Slot(k: CauseKind): nat
  {
    match k
    case CriticalMemoryPressure => 0
    case HighMemoryUsage => 0
    case HeavySwapUsage => 1
    case DiskAlmostFull => 2
    case HighDiskUsage => 2
    case CpuOverload => 3
    case HighCpuLoad => 3
    case ManyZombies => 4
    case ZombiesPresent => 4
    case MemoryAccelerating => 5
    case DiskFillingRapidly => 6
    case NotReporting => 7
    case NoObviousIssues => 7
  }

  predicate InSlot(p: seq<CauseKind>, i: nat)
  {
    forall x :: x in p ==> Slot(x) == i
  }

  /** Every part holds only kinds of its own rule. */
  lemma PartsInSlots(mem: nat, swap: bool, disk: nat, cpu: nat, zombie: nat, memTrend: bool, diskTrend: bool)
    ensures InSlot(LevelKinds(mem, CriticalMemoryPressure, HighMemoryUsage), 0)
    ensures InSlot(FlagKinds(swap, HeavySwapUsage), 1)
    ensures InSlot(LevelKinds(disk, DiskAlmostFull, HighDiskUsage), 2)
    ensures InSlot(LevelKinds(cpu, CpuOverload, HighCpuLoad), 3)
    ensures InSlot(LevelKinds(zombie, ManyZombies, ZombiesPresent), 4)
    ensures InSlot(FlagKinds(memTrend, MemoryAccelerating), 5)
    ensures InSlot(FlagKinds(diskTrend, DiskFillingRapidly), 6)
  {
  }

  /** In a concatenation of parts that each hold only the kinds of one rule, a kind can only be in its own part. */
  lemma SlotMembership(x: CauseKind, p0: seq<CauseKind>, p1: seq<CauseKind>, p2: seq<CauseKind>, p3: seq<CauseKind>,
                       p4: seq<CauseKind>, p5: seq<CauseKind>, p6: seq<CauseKind>)
    requires InSlot(p0, 0) && InSlot(p1, 1) && InSlot(p2, 2) && InSlot(p3, 3)
    requires InSlot(p4, 4) && InSlot(p5, 5) && InSlot(p6, 6)
    ensures Slot(x) == 0 ==> (x in p0 + p1 + p2 + p3 + p4 + p5 + p6 <==> x in p0)
    ensures Slot(x) == 1 ==> (x in p0 + p1 + p2 + p3 + p4 + p5 + p6 <==> x in p1)
    ensures Slot(x) == 2 ==> (x in p0 + p1 + p2 + p3 + p4 + p5 + p6 <==> x in p2)
    ensures Slot(x) == 3 ==> (x in p0 + p1 + p2 + p3 + p4 + p5 + p6 <==> x in p3)
    ensures Slot(x) == 4 ==> (x in p0 + p1 + p2 + p3 + p4 + p5 + p6 <==> x in p4)
    ensures Slot(x) == 5 ==> (x in p0 + p1 + p2 + p3 + p4 + p5 + p6 <==> x in p5)
    ensures Slot(x) == 6 ==> (x in p0 + p1 + p2 + p3 + p4 + p5 + p6 <==> x in p6)
    ensures Slot(x) == 7 ==> x !in p0 + p1 + p2 + p3 + p4 + p5 + p6
  {
  }

  /** With every level at most 2, the sequence is empty exactly when every level and flag is off. */
  lemma KindSeqEmpty(mem: nat, swap: bool, disk: nat, cpu: nat, zombie: nat, memTrend: bool, diskTrend: bool)
    requires mem <= 2 && disk <= 2 && cpu <= 2 && zombie <= 2
    ensures |KindSeq(mem, swap, disk, cpu, zombie, memTrend, diskTrend)| == 0
      <==> mem == 0 && !swap && disk == 0 && cpu == 0 && zombie == 0 && !memTrend && !diskTrend
  {
  }

  /** The memory and swap kinds of `KindsFor` follow their thresholds. */
  lemma MemoryFactsOf(s: WorkstationState, t: Trends, ks: seq<CauseKind>)
    requires ks == KindsFor(s, t)
    ensures MemoryFacts(s, ks)
  {
    var mem, swap, disk, cpu, zombie := Level(MemPct(s)), Swap(s) > 1024, Level(Disk(s)), CpuLevel(s), ZombieLevel(s);
    var memTrend, diskTrend := Critical(t.memoryAlert), Critical(t.diskAlert);
    var p0, p1, p2, p3 := LevelKinds(mem, CriticalMemoryPressure, HighMemoryUsage), FlagKinds(swap, HeavySwapUsage),
      LevelKinds(disk, DiskAlmostFull, HighDiskUsage), LevelKinds(cpu, CpuOverload, HighCpuLoad);
    var p4, p5, p6 := LevelKinds(zombie, ManyZombies, ZombiesPresent), FlagKinds(memTrend, MemoryAccelerating),
      FlagKinds(diskTrend, DiskFillingRapidly);
    PartsInSlots(mem, swap, disk, cpu, zombie, memTrend, diskTrend);
    assert ks == p0 + p1 + p2 + p3 + p4 + p5 + p6;
    SlotMembership(CriticalMemoryPressure, p0, p1, p2, p3, p4, p5, p6);
    SlotMembership(HighMemoryUsage, p0, p1, p2, p3, p4, p5, p6);
    SlotMembership(HeavySwapUsage, p0, p1, p2, p3, p4, p5, p6);
  }

  /** The disk kinds of `KindsFor` follow their thresholds. */
  lemma DiskFactsOf(s: WorkstationState, t: Trends, ks: seq<CauseKind>)
    requires ks == KindsFor(s, t)
    ensures DiskAlmostFull in ks <==> Disk(s) > 95.0
    ensures HighDiskUsage in ks <==> 85.0 < Disk(s) <= 95.0
  {
    var mem, swap, disk, cpu, zombie := Level(MemPct(s)), Swap(s) > 1024, Level(Disk(s)), CpuLevel(s), ZombieLevel(s);
    var memTrend, diskTrend := Critical(t.memoryAlert), Critical(t.diskAlert);
    var p0, p1, p2, p3 := LevelKinds(mem, CriticalMemoryPressure, HighMemoryUsage), FlagKinds(swap, HeavySwapUsage),
      LevelKinds(disk, DiskAlmostFull, HighDiskUsage), LevelKinds(cpu, CpuOverload, HighCpuLoad);
    var p4, p5, p6 := LevelKinds(zombie, ManyZombies, ZombiesPresent), FlagKinds(memTrend, MemoryAccelerating),
      FlagKinds(diskTrend, DiskFillingRapidly);
    PartsInSlots(mem, swap, disk, cpu, zombie, memTrend, diskTrend);
    assert ks == p0 + p1 + p2 + p3 + p4 + p5 + p6;
    SlotMembership(DiskAlmostFull, p0, p1, p2, p3, p4, p5, p6);
    SlotMembership(HighDiskUsage, p0, p1, p2, p3, p4, p5, p6);
  }

  /** The CPU kinds of `KindsFor` follow their thresholds. */
  lemma CpuFactsOf(s: WorkstationState, t: Trends, ks: seq<CauseKind>)
    requires ks == KindsFor(s, t)
    ensures CpuOverload in ks <==> Load(s) > (Cpus(s) * 2) as real
    ensures HighCpuLoad in ks <==> Cpus(s) as real < Load(s) <= (Cpus(s) * 2) as real
  {
    var mem, swap, disk, cpu, zombie := Level(MemPct(s)), Swap(s) > 1024, Level(Disk(s)), CpuLevel(s), ZombieLevel(s);
    var memTrend, diskTrend := Critical(t.memoryAlert), Critical(t.diskAlert);
    var p0, p1, p2, p3 := LevelKinds(mem, CriticalMemoryPressure, HighMemoryUsage), FlagKinds(swap, HeavySwapUsage),
      LevelKinds(disk, DiskAlmostFull, HighDiskUsage), LevelKinds(cpu, CpuOverload, HighCpuLoad);
    var p4, p5, p6 := LevelKinds(zombie, ManyZombies, ZombiesPresent), FlagKinds(memTrend, MemoryAccelerating),
      FlagKinds(diskTrend, DiskFillingRapidly);
    PartsInSlots(mem, swap, disk, cpu, zombie, memTrend, diskTrend);
    assert ks == p0 + p1 + p2 + p3 + p4 + p5 + p6;
    SlotMembership(CpuOverload, p0, p1, p2, p3, p4, p5, p6);
    SlotMembership(HighCpuLoad, p0, p1, p2, p3, p4, p5, p6);
  }

  /** The zombie and trend kinds of `KindsFor` follow their thresholds; the fixed causes are never among them. */
  lemma ZombieTrendFactsOf(s: WorkstationState, t: Trends, ks: seq<CauseKind>)
    requires ks == KindsFor(s, t)
    ensures ZombieTrendFacts(s, t, ks)
  {
    var mem, swap, disk, cpu, zombie := Level(MemPct(s)), Swap(s) > 1024, Level(Disk(s)), CpuLevel(s), ZombieLevel(s);
    var memTrend, diskTrend := Critical(t.memoryAlert), Critical(t.diskAlert);
    var p0, p1, p2, p3 := LevelKinds(mem, CriticalMemoryPressure, HighMemoryUsage), FlagKinds(swap, HeavySwapUsage),
      LevelKinds(disk, DiskAlmostFull, HighDiskUsage), LevelKinds(cpu, CpuOverload, HighCpuLoad);
    var p4, p5, p6 := LevelKinds(zombie, ManyZombies, ZombiesPresent), FlagKinds(memTrend, MemoryAccelerating),
      FlagKinds(diskTrend, DiskFillingRapidly);
    PartsInSlots(mem, swap, disk, cpu, zombie, memTrend, diskTrend);
    assert ks == p0 + p1 + p2 + p3 + p4 + p5 + p6;
    SlotMembership(ManyZombies, p0, p1, p2, p3, p4, p5, p6);
    SlotMembership(ZombiesPresent, p0, p1, p2, p3, p4, p5, p6);
    SlotMembership(MemoryAccelerating, p0, p1, p2, p3, p4, p5, p6);
    SlotMembership(DiskFillingRapidly, p0, p1, p2, p3, p4, p5, p6);
  }

  /** The two fixed causes are never among the rule kinds. */
  lemma FixedKindsAbsent(s: WorkstationState, t: Trends, ks: seq<CauseKind>)
    requires ks == KindsFor(s, t)
    ensures NoObviousIssues !in ks && NotReporting !in ks
  {
    var mem, swap, disk, cpu, zombie := Level(MemPct(s)), Swap(s) > 1024, Level(Disk(s)), CpuLevel(s), ZombieLevel(s);
    var memTrend, diskTrend := Critical(t.memoryAlert), Critical(t.diskAlert);
    var p0, p1, p2, p3 := LevelKinds(mem, CriticalMemoryPressure, HighMemoryUsage), FlagKinds(swap, HeavySwapUsage),
      LevelKinds(disk, DiskAlmostFull, HighDiskUsage), LevelKinds(cpu, CpuOverload, HighCpuLoad);
    var p4, p5, p6 := LevelKinds(zombie, ManyZombies, ZombiesPresent), FlagKinds(memTrend, MemoryAccelerating),
      FlagKinds(diskTrend, DiskFillingRapidly);
    PartsInSlots(mem, swap, disk, cpu, zombie, memTrend, diskTrend);
    assert ks == p0 + p1 + p2 + p3 + p4 + p5 + p6;
    SlotMembership(NoObviousIssues, p0, p1, p2, p3, p4, p5, p6);
    SlotMembership(NotReporting, p0, p1, p2, p3, p4, p5, p6);
  }

  /** With no rule firing, the fallback alone is reported and every threshold is unmet. */
  lemma FallbackFacts(s: WorkstationState, t: Trends)
    requires |KindsFor(s, t)| == 0
    ensures !AnyWorkstationIssue(s, t)
    ensures MemoryFacts(s, [NoObviousIssues]) && DiskCpuFacts(s, [NoObviousIssues])
    ensures ZombieTrendFacts(s, t, [NoObviousIssues])
  {
    KindSeqEmpty(Level(MemPct(s)), Swap(s) > 1024, Level(Disk(s)), CpuLevel(s), ZombieLevel(s),
      Critical(t.memoryAlert), Critical(t.diskAlert));
  }

  /** Some rule fires exactly when some level or flag is on. */
  lemma IssueIffKinds(s: WorkstationState, t: Trends)
    ensures |KindsFor(s, t)| > 0 <==> AnyWorkstationIssue(s, t)
  {
    KindSeqEmpty(Level(MemPct(s)), Swap(s) > 1024, Level(Disk(s)), CpuLevel(s), ZombieLevel(s),
      Critical(t.memoryAlert), Critical(t.diskAlert));
  }

  /** The causes for a reporting machine: the rules in order, or the fallback when none fires. */
  lemma ReportingCauses(s: WorkstationState, t: Trends, causes: seq<Cause>)
    requires CausesInRuleOrder(s, t, causes)
    ensures ReportingCausesHold(s, t, causes)
  {
    RulesKinds(s, t);
    IssueIffKinds(s, t);
    var ks := Kinds(causes);
    if |Rules(s, t)| == 0 {
      assert causes == [NoObviousCause];
      KindsOfOne(causes);
      FallbackFacts(s, t);
    } else {
      assert ks == KindsFor(s, t);
      RuleKindFacts(s, t, ks);
    }
  }

  /** The facts of `ReportingCausesHold` about the kinds when some rule fires. */
  lemma RuleKindFacts(s: WorkstationState, t: Trends, ks: seq<CauseKind>)
    requires ks == KindsFor(s, t)
    ensures MemoryFacts(s, ks) && DiskCpuFacts(s, ks) && ZombieTrendFacts(s, t, ks)
    ensures NoObviousIssues !in ks && NotReporting !in ks
  {
    MemoryFactsOf(s, t, ks);
    DiskFactsOf(s, t, ks);
    CpuFactsOf(s, t, ks);
    ZombieTrendFactsOf(s, t, ks);
    FixedKindsAbsent(s, t, ks);
  }

  // ---------------------------------------------------------------
  // Recommendations
  // ---------------------------------------------------------------

  /**
   * The recommendation messages, one constructor per distinct message;
   * `Text` is the exact wording.
   */
  datatype WorkstationAdvice =
    | FindMemoryHogs | CheckMemoryLeaks | AddRamOrClose
    | MonitorMemory | ReviewApplications
    | CheckSwapped | FindSwappingProcesses | IncreaseRamForSwap
    | FindLargeFiles | CheckOldLogs | ClearPackageCaches
    | MonitorDiskTrends | AutomateCleanup
    | FindCpuHogs | CheckRunaway
    | FindZombieParent | KillZombieParent
    | EnableMemoryProfiling | ScheduleRestarts
    | FindWriters | CheckRunawayLogs
    | PingWorkstation | CheckSsh | VerifyNetwork
    | WorkstationHealthy
  {
    function Text(): string
    {
      match this
      case FindMemoryHogs => "Identify memory-hungry processes: ps aux --sort=-%mem | head -10"
      case CheckMemoryLeaks => "Check for memory leaks in long-running applications"
      case AddRamOrClose => "Consider adding more RAM or closing unused applications"
      case MonitorMemory => "Monitor memory usage: watch -n 5 free -h"
      case ReviewApplications => "Review running applications for unnecessary processes"
      case CheckSwapped => "Check what is swapped: cat /proc/swaps"
      case FindSwappingProcesses =>
        "Identify swapping processes: for f in /proc/*/status; do awk '/VmSwap/{print $2}' $f 2>/dev/null; done | sort -n | tail"
      case IncreaseRamForSwap => "Consider increasing RAM if swap usage is chronic"
      case FindLargeFiles => "Find large files: du -sh /* 2>/dev/null | sort -h | tail -10"
      case CheckOldLogs => "Check for old logs: find /var/log -type f -size +100M"
      case ClearPackageCaches => "Clear package caches: apt clean / yum clean all"
      case MonitorDiskTrends => "Monitor disk usage trends"
      case AutomateCleanup => "Set up automated cleanup for temporary files"
      case FindCpuHogs => "Find CPU-intensive processes: top -bn1 | head -15"
      case CheckRunaway => "Check for runaway processes: ps aux | awk '$3 > 80'"
      case FindZombieParent => "Find zombie parent: ps aux | grep -w Z"
      case KillZombieParent => "Kill parent process to clear zombies"
      case EnableMemoryProfiling => "Enable memory profiling for suspect applications"
      case ScheduleRestarts => "Schedule regular process restarts if memory leak is confirmed"
      case FindWriters => "Identify what is writing: iotop -o"
      case CheckRunawayLogs => "Check for runaway log files: lsof +D /var/log"
      case PingWorkstation => "Ping workstation: ping <hostname>"
      case CheckSsh => "Check SSH access: ssh <hostname> hostname"
      case VerifyNetwork => "Verify network connectivity and power status"
      case WorkstationHealthy => "Workstation appears healthy - no action required"
    }
  }

  /**
   * The advice for one cause, chosen by its name; names without a branch
   * (high CPU load, a few zombies, the healthy fallback) get none.
   */
  function KindAdvice(k: CauseKind): (r: seq<WorkstationAdvice>)
    ensures WorkstationHealthy !in r
  {
    match k
    case CriticalMemoryPressure => [FindMemoryHogs, CheckMemoryLeaks, AddRamOrClose]
    case HighMemoryUsage => [MonitorMemory, ReviewApplications]
    case HeavySwapUsage => [CheckSwapped, FindSwappingProcesses, IncreaseRamForSwap]
    case DiskAlmostFull => [FindLargeFiles, CheckOldLogs, ClearPackageCaches]
    case HighDiskUsage => [MonitorDiskTrends, AutomateCleanup]
    case CpuOverload => [FindCpuHogs, CheckRunaway]
    case ManyZombies => [FindZombieParent, KillZombieParent]
    case MemoryAccelerating => [EnableMemoryProfiling, ScheduleRestarts]
    case DiskFillingRapidly => [FindWriters, CheckRunawayLogs]
    case NotReporting => [PingWorkstation, CheckSsh, VerifyNetwork]
    case HighCpuLoad => []
    case ZombiesPresent => []
    case NoObviousIssues => []
  }

  /** Exactly three causes have no branch. */
  lemma UnmappedKinds(k: CauseKind)
    ensures KindAdvice(k) == [] <==> k == HighCpuLoad || k == ZombiesPresent || k == NoObviousIssues
  {
  }

  function CauseAdvice(c: Cause): seq<WorkstationAdvice>
  {
    KindAdvice(c.kind)
  }

  predicate SomeCauseHasAdvice(causes: seq<Cause>)
  {
    exists k :: 0 <= k < |causes| && CauseAdvice(causes[k]) != []
  }

  /** The raw list before `dict.fromkeys`. */
  function RawRecommendations(causes: seq<Cause>): seq<WorkstationAdvice>
  {
    var raw := FlatMap(causes, CauseAdvice);
    if |raw| == 0 then [WorkstationHealthy] else raw
  }

  function WorkstationRecommendations(causes: seq<Cause>): seq<WorkstationAdvice>
  {
    Dedup(RawRecommendations(causes))
  }

  /**
   * The promises of `generate_recommendations`: no duplicates; the healthy
   * message is present iff no cause contributed anything, and is then all
   * there is; every cause's advice is present, and nothing else is.
   */
  lemma WorkstationRecommendationsSpec(causes: seq<Cause>)
    ensures var r := WorkstationRecommendations(causes);
      && NoDup(r)
      && (WorkstationHealthy in r <==> !SomeCauseHasAdvice(causes))
      && (WorkstationHealthy in r ==> r == [WorkstationHealthy])
      && (forall k, m :: 0 <= k < |causes| && 0 <= m < |CauseAdvice(causes[k])| ==>
            CauseAdvice(causes[k])[m] in r)
      && (forall x :: x in r ==>
            (x == WorkstationHealthy || exists k :: 0 <= k < |causes| && x in CauseAdvice(causes[k])))
  {
    RecommendationsClose(causes);
    RecommendationsContents(causes);
  }

  lemma RecommendationsClose(causes: seq<Cause>)
    ensures var r := WorkstationRecommendations(causes);
      && NoDup(r)
      && (WorkstationHealthy in r <==> !SomeCauseHasAdvice(causes))
      && (WorkstationHealthy in r ==> r == [WorkstationHealthy])
  {
    var final := RawRecommendations(causes);
    FlatMapEmpty(causes, CauseAdvice);
    FlatMapMembers(causes, CauseAdvice, WorkstationHealthy);
    DedupSpec(final);
    if final == [WorkstationHealthy] {
      assert Dedup([WorkstationHealthy]) == Dedup([]) + [WorkstationHealthy];
    }
  }

  lemma RecommendationsContents(causes: seq<Cause>)
    ensures var r := WorkstationRecommendations(causes);
      && (forall k, m :: 0 <= k < |causes| && 0 <= m < |CauseAdvice(causes[k])| ==>
            CauseAdvice(causes[k])[m] in r)
      && (forall x :: x in r ==>
            (x == WorkstationHealthy || exists k :: 0 <= k < |causes| && x in CauseAdvice(causes[k])))
  {
    var final := RawRecommendations(causes);
    DedupSpec(final);
    forall k, m | 0 <= k < |causes| && 0 <= m < |CauseAdvice(causes[k])|
      ensures CauseAdvice(causes[k])[m] in final
    {
      FlatMapMembers(causes, CauseAdvice, CauseAdvice(causes[k])[m]);
    }
    forall x | x in final
      ensures x == WorkstationHealthy || exists k :: 0 <= k < |causes| && x in CauseAdvice(causes[k])
    {
      FlatMapMembers(causes, CauseAdvice, x);
    }
  }

  /** `generate_recommendations`; the unused state and trend arguments are omitted. */
  method GenerateRecommendations(causes: seq<Cause>) returns (recs: seq<WorkstationAdvice>)
    ensures recs == WorkstationRecommendations(causes)
  {
    var raw: seq<WorkstationAdvice> := [];
    for i := 0 to |causes|
      invariant raw == FlatMap(causes[..i], CauseAdvice)
    {
      FlatMapPrefix(causes, i, CauseAdvice);
      raw := raw + KindAdvice(causes[i].kind);
    }
    FlatMapWhole(causes, CauseAdvice);
    if |raw| == 0 {
      raw := [WorkstationHealthy];
    }
    recs := DedupLoop(raw);
  }

  /** A machine that is not reporting is told to check reachability, and nothing else. */
  lemma NotReportingAdvice()
    ensures WorkstationRecommendations([NotReportingCause]) == [PingWorkstation, CheckSsh, VerifyNetwork]
  {
    assert FlatMap([NotReportingCause], CauseAdvice) == [PingWorkstation, CheckSsh, VerifyNetwork];
    DedupAppendNew([PingWorkstation], CheckSsh);
    DedupAppendNew([PingWorkstation, CheckSsh], VerifyNetwork);
    assert Dedup([PingWorkstation]) == Dedup([]) + [PingWorkstation];
    assert [PingWorkstation, CheckSsh] == [PingWorkstation] + [CheckSsh];
    assert [PingWorkstation, CheckSsh, VerifyNetwork] == [PingWorkstation, CheckSsh] + [VerifyNetwork];
  }
}
