// Storage diagnostics: per-pool issue detection, the rule-based list of
// potential causes, the recommendation rules, and the input gate of the
// usage-trend analysis. Database reads are replaced by the rows they
// return, and the derivative analyzer by the inputs it would be given.
module DiagStorage {
  import opened Wrappers
  import opened Text
  import opened Lists

  // ---------------------------------------------------------------
  // ZFS pool analysis
  // ---------------------------------------------------------------

  /**
   * One entry of a stored `pools` list: a dictionary (absent keys are
   * `None`) or anything else, which the analysis skips.
   */
  datatype PoolEntry =
    | NotADict
    | PoolDict(
        name: Option<string>,
        health: Option<string>,
        capacityPct: Option<real>,
        fragmentationPct: Option<real>,
        readErrors: Option<int>,
        writeErrors: Option<int>,
        checksumErrors: Option<int>,
        scrubInProgress: Option<bool>,
        lastScrub: Option<string>)

  predicate IsDict(e: PoolEntry)
  {
    e.PoolDict?
  }

  /** The issues a pool can have; `Message` is the text the report shows. */
  datatype PoolIssue =
    | Unhealthy(health: string)
    | NearlyFull(capacity: real)
    | ApproachingFull(capacity: real)
    | Fragmented(fragmentation: real)
    | ErrorsDetected(read: int, write: int, checksum: int)
  {
    predicate IsCapacity()
    {
      NearlyFull? || ApproachingFull?
    }

    function Message(): string
    {
      match this
      case Unhealthy(h) => "Pool health is " + h
      case NearlyFull(c) => "Pool at " + Fixed1(c) + "% capacity"
      case ApproachingFull(c) => "Pool approaching full (" + Fixed1(c) + "%)"
      case Fragmented(f) => "High fragmentation (" + Fixed1(f) + "%)"
      case ErrorsDetected(r, w, c) => "Errors detected: " + ErrorCounts(r, w, c)
    }
  }

  function ErrorCounts(r: int, w: int, c: int): string
  {
    IntToString(r) + "R/" + IntToString(w) + "W/" + IntToString(c) + "C"
  }

  datatype ZFSPoolDiagnostic = ZFSPoolDiagnostic(
    name: string,
    health: string,
    capacityPct: real,
    fragmentationPct: real,
    readErrors: int,
    writeErrors: int,
    checksumErrors: int,
    scrubInProgress: bool,
    lastScrub: Option<string>,
    issues: seq<PoolIssue>)

  /** The four checks, in the order the analysis appends them. */
  function PoolIssues(health: string, capacity: real, fragmentation: real, r: int, w: int, c: int): seq<PoolIssue>
  {
    HealthCheck(health) + CapacityCheck(capacity) + FragmentationCheck(fragmentation) + ErrorCheck(r, w, c)
  }

  function HealthCheck(health: string): seq<PoolIssue>
  {
    if health != "ONLINE" then [Unhealthy(health)] else []
  }

  function CapacityCheck(capacity: real): seq<PoolIssue>
  {
    if capacity > 90.0 then [NearlyFull(capacity)]
    else if capacity > 80.0 then [ApproachingFull(capacity)]
    else []
  }

  function FragmentationCheck(fragmentation: real): seq<PoolIssue>
  {
    if fragmentation > 50.0 then [Fragmented(fragmentation)] else []
  }

  function ErrorCheck(r: int, w: int, c: int): seq<PoolIssue>
  {
    if r + w + c > 0 then [ErrorsDetected(r, w, c)] else []
  }

  /** A pool dictionary with the defaults `.get` supplies for missing keys. */
  function PoolDiag(e: PoolEntry): (d: ZFSPoolDiagnostic)
    requires e.PoolDict?
    ensures d.health == e.health.GetOr("UNKNOWN") && d.name == e.name.GetOr("unknown")
  {
    var health := e.health.GetOr("UNKNOWN");
    var cap := e.capacityPct.GetOr(0.0);
    var frag := e.fragmentationPct.GetOr(0.0);
    var r, w, c := e.readErrors.GetOr(0), e.writeErrors.GetOr(0), e.checksumErrors.GetOr(0);
    ZFSPoolDiagnostic(e.name.GetOr("unknown"), health, cap, frag, r, w, c,
      e.scrubInProgress.GetOr(false), e.lastScrub, PoolIssues(health, cap, frag, r, w, c))
  }

  /**
   * Each check yields its issue exactly when its threshold is crossed, at
   * most one capacity issue is reported, and there are at most four.
   */
  lemma PoolIssuesSpec(health: string, capacity: real, fragmentation: real, r: int, w: int, c: int)
    ensures var issues := PoolIssues(health, capacity, fragmentation, r, w, c);
      && |issues| <= 4
      && (Unhealthy(health) in issues <==> health != "ONLINE")
      && (NearlyFull(capacity) in issues <==> capacity > 90.0)
      && (ApproachingFull(capacity) in issues <==> 80.0 < capacity <= 90.0)
      && (Fragmented(fragmentation) in issues <==> fragmentation > 50.0)
      && (ErrorsDetected(r, w, c) in issues <==> r + w + c > 0)
      && (forall i :: i in issues ==>
            i == Unhealthy(health) || i == NearlyFull(capacity) || i == ApproachingFull(capacity)
            || i == Fragmented(fragmentation) || i == ErrorsDetected(r, w, c))
      && (forall i, j :: 0 <= i < j < |issues| ==> !(issues[i].IsCapacity() && issues[j].IsCapacity()))
  {
    PoolIssuesMembers(health, capacity, fragmentation, r, w, c);
    var h, cp, f, e := HealthCheck(health), CapacityCheck(capacity), FragmentationCheck(fragmentation), ErrorCheck(r, w, c);
    assert forall i: PoolIssue :: i in f + e ==> !i.IsCapacity();
    OneCapacityIssue(h, cp, f + e);
  }

  lemma PoolIssuesMembers(health: string, capacity: real, fragmentation: real, r: int, w: int, c: int)
    ensures var issues := PoolIssues(health, capacity, fragmentation, r, w, c);
      && |issues| <= 4
      && (Unhealthy(health) in issues <==> health != "ONLINE")
      && (NearlyFull(capacity) in issues <==> capacity > 90.0)
      && (ApproachingFull(capacity) in issues <==> 80.0 < capacity <= 90.0)
      && (Fragmented(fragmentation) in issues <==> fragmentation > 50.0)
      && (ErrorsDetected(r, w, c) in issues <==> r + w + c > 0)
      && (forall i :: i in issues ==>
            i == Unhealthy(health) || i == NearlyFull(capacity) || i == ApproachingFull(capacity)
            || i == Fragmented(fragmentation) || i == ErrorsDetected(r, w, c))
  {
    var h, cp, f, e := HealthCheck(health), CapacityCheck(capacity), FragmentationCheck(fragmentation), ErrorCheck(r, w, c);
    assert forall i :: i in h ==> i == Unhealthy(health);
    assert forall i :: i in cp ==> i == NearlyFull(capacity) || i == ApproachingFull(capacity);
    assert forall i :: i in f ==> i == Fragmented(fragmentation);
    assert forall i :: i in e ==> i == ErrorsDetected(r, w, c);
  }

  /** Only the capacity check yields capacity issues, and it yields at most one. */
  lemma OneCapacityIssue(h: seq<PoolIssue>, cp: seq<PoolIssue>, rest: seq<PoolIssue>)
    requires |cp| <= 1
    requires forall i :: i in h ==> !i.IsCapacity()
    requires forall i :: i in rest ==> !i.IsCapacity()
    ensures var issues := h + cp + rest;
      forall i, j :: 0 <= i < j < |issues| ==> !(issues[i].IsCapacity() && issues[j].IsCapacity())
  {
    var issues := h + cp + rest;
    forall i, j | 0 <= i < j < |issues| && issues[i].IsCapacity()
      ensures !issues[j].IsCapacity()
    {
      assert |h| <= i < |h| + |cp|;
      assert issues[j] == rest[j - |h| - |cp|];
    }
  }

  /** The diagnostics of the dictionary entries, in input order. */
  function PoolDiags(pools: seq<PoolEntry>): seq<ZFSPoolDiagnostic>
  {
    if |pools| == 0 then []
    else
      var last := pools[|pools| - 1];
      PoolDiags(pools[..|pools| - 1]) + (if last.PoolDict? then [PoolDiag(last)] else [])
  }

  /** One diagnostic per dictionary entry: the k-th describes the k-th dictionary. */
  lemma {:induction false} PoolDiagsSpec(pools: seq<PoolEntry>)
    ensures |PoolDiags(pools)| == CountIf(pools, IsDict)
    ensures forall k :: 0 <= k < |PoolDiags(pools)| ==> PoolDiags(pools)[k] == PoolDiag(Filter(pools, IsDict)[k])
  {
    if |pools| > 0 {
      var init := pools[..|pools| - 1];
      PoolDiagsSpec(init);
      assert pools == init + [pools[|pools| - 1]];
      FilterAppend(init, pools[|pools| - 1], IsDict);
    }
  }

  /** `analyze_zfs_pools`: entries that are not dictionaries are skipped. */
  method AnalyzeZfsPools(pools: seq<PoolEntry>) returns (diags: seq<ZFSPoolDiagnostic>)
    ensures diags == PoolDiags(pools)
    ensures |diags| == CountIf(pools, IsDict)
    ensures forall k :: 0 <= k < |diags| ==> diags[k] == PoolDiag(Filter(pools, IsDict)[k])
  {
    diags := [];
    for i := 0 to |pools|
      invariant diags == PoolDiags(pools[..i])
    {
      assert pools[..i + 1][..i] == pools[..i];
      if pools[i].PoolDict? {
        diags := diags + [PoolDiag(pools[i])];
      }
    }
    assert pools[..|pools|] == pools;
    PoolDiagsSpec(pools);
  }

  // ---------------------------------------------------------------
  // Usage trend: which history reaches the derivative analyzer
  // ---------------------------------------------------------------

  /**
   * A stored timestamp: text, with what ISO parsing makes of it (`None`
   * when parsing fails), or a value of another type, kept as it is.
   */
  datatype RawStamp = IsoText(parsed: Option<int>) | NotText(value: Option<int>)

  /** One history row, as far as the trend analysis reads it; `None` is SQL NULL. */
  datatype HistoryRecord = HistoryRecord(timestamp: RawStamp, usedBytes: Option<int>, totalBytes: Option<int>)

  datatype DataPoint = DataPoint(timestamp: Option<int>, usedBytes: Option<int>)

  /** What the derivative analyzer is given: the points and the capacity limit. */
  datatype DerivativeInput = DerivativeInput(points: seq<DataPoint>, limitBytes: Option<int>)

  /** A row survives unless its timestamp is text that does not parse. */
  predicate Kept(r: HistoryRecord)
  {
    !(r.timestamp.IsoText? && r.timestamp.parsed.None?)
  }

  function PointOf(r: HistoryRecord): DataPoint
  {
    DataPoint(if r.timestamp.IsoText? then r.timestamp.parsed else r.timestamp.value, r.usedBytes)
  }

  /** The data points of the surviving rows, in history order. */
  function Points(history: seq<HistoryRecord>): seq<DataPoint>
  {
    if |history| == 0 then []
    else
      var last := history[|history| - 1];
      Points(history[..|history| - 1]) + (if Kept(last) then [PointOf(last)] else [])
  }

  /** One point per surviving row; the k-th point comes from the k-th surviving row. */
  lemma {:induction false} PointsSpec(history: seq<HistoryRecord>)
    ensures |Points(history)| == CountIf(history, Kept)
    ensures forall k :: 0 <= k < |Points(history)| ==> Points(history)[k] == PointOf(Filter(history, Kept)[k])
  {
    if |history| > 0 {
      var init := history[..|history| - 1];
      PointsSpec(init);
      assert history == init + [history[|history| - 1]];
      FilterAppend(init, history[|history| - 1], Kept);
    }
  }

  /**
   * The gate of `analyze_usage_trend`: `None` stands for the empty result,
   * returned for an empty history, a missing analyzer, or fewer than three
   * surviving rows; otherwise the analyzer gets the points and the newest
   * row's capacity as its limit.
   */
  method AnalyzeUsageTrend(history: seq<HistoryRecord>, hasAnalyzer: bool) returns (r: Option<DerivativeInput>)
    ensures r.None? <==> |history| == 0 || !hasAnalyzer || CountIf(history, Kept) < 3
    ensures r.Some? ==> r.value.points == Points(history) && r.value.limitBytes == history[0].totalBytes
    ensures r.Some? ==> |r.value.points| >= 3
  {
    if |history| == 0 || !hasAnalyzer {
      return None;
    }
    var points: seq<DataPoint> := [];
    for i := 0 to |history|
      invariant points == Points(history[..i])
    {
      assert history[..i + 1][..i] == history[..i];
      var rec := history[i];
      if rec.timestamp.IsoText? && rec.timestamp.parsed.None? {
        continue;
      }
      points := points + [PointOf(rec)];
    }
    assert history[..|history|] == history;
    PointsSpec(history);
    if |points| < 3 {
      return None;
    }
    r := Some(DerivativeInput(points, history[0].totalBytes));
  }

  /** The analyzer's answer, as far as the returned dictionary carries it. */
  datatype DerivativeAnalysis = DerivativeAnalysis(alertLevel: Option<string>, daysUntilLimit: Option<real>)

  /**
   * The dictionary the cause rules read: the empty result has neither key,
   * and a missing alert level reads as 'normal'.
   */
  function TrendOf(a: Option<DerivativeAnalysis>): (t: UsageTrend)
    ensures a.None? ==> t.alertLevel.None? && t.daysUntilFull.None?
    ensures a.Some? ==> t.alertLevel == Some(a.value.alertLevel.GetOr("normal"))
    ensures a.Some? ==> t.daysUntilFull == a.value.daysUntilLimit
  {
    if a.None? then UsageTrend(None, None)
    else UsageTrend(Some(a.value.alertLevel.GetOr("normal")), a.value.daysUntilLimit)
  }

  /** Without an analysis, or with a 'normal' one, no trend cause is raised. */
  lemma NoTrendCauseWhenNormal(a: Option<DerivativeAnalysis>)
    requires a.None? || a.value.alertLevel.None? || a.value.alertLevel == Some("normal")
    ensures TrendRule(TrendOf(a)) == []
  {
  }

  // ---------------------------------------------------------------
  // Potential causes
  // ---------------------------------------------------------------

  /** The stored state fields the rules read; `None` is a missing key. */
  datatype StorageState = StorageState(
    usagePct: Option<real>,
    arcStats: Option<ArcStats>,
    nfsClientsConnected: Option<int>)

  /** A non-empty `arc_stats` dictionary; `None` in the state stands for a missing, empty or non-dict value. */
  datatype ArcStats = ArcStats(hitRatio: Option<real>)

  /** The derivative analyzer's verdict on usage, as far as the rules read it. */
  datatype UsageTrend = UsageTrend(alertLevel: Option<string>, daysUntilFull: Option<real>)

  /** Which rule produced a cause; `Name` is the cause text the report and the recommendation rules see. */
  datatype CauseKind =
    | NotReporting
    | AlmostFull
    | HighUsage
    | PoolProblem(pool: string, issue: PoolIssue)
    | LowArcHitRatio
    | HighNfsLoad
    | RapidFill
    | FillIncreasing
    | NoObviousIssues
  {
    function Name(): string
    {
      match this
      case NotReporting => "Storage not reporting"
      case AlmostFull => "Storage Almost Full"
      case HighUsage => "High Storage Usage"
      case PoolProblem(p, i) => "ZFS Pool " + p + ": " + i.Message()
      case LowArcHitRatio => "Low ZFS ARC Hit Ratio"
      case HighNfsLoad => "High NFS Client Load"
      case RapidFill => "Rapid Storage Fill Rate"
      case FillIncreasing => "Storage Fill Rate Increasing"
      case NoObviousIssues => "No obvious issues detected"
    }
  }

  datatype Cause = Cause(kind: CauseKind, confidence: string, detail: string)

  function Kinds(causes: seq<Cause>): (ks: seq<CauseKind>)
    ensures |ks| == |causes|
    ensures forall k :: 0 <= k < |causes| ==> ks[k] == causes[k].kind
  {
    seq(|causes|, k requires 0 <= k < |causes| => causes[k].kind)
  }

  lemma KindsConcat(a: seq<Cause>, b: seq<Cause>)
    ensures Kinds(a + b) == Kinds(a) + Kinds(b)
  {
  }

  const NotReportingCause := Cause(NotReporting, "high", "No recent data - may be powered off or network issue")
  const NoObviousCause := Cause(NoObviousIssues, "low", "Storage appears healthy")

  function Usage(s: StorageState): real
  {
    s.usagePct.GetOr(0.0)
  }

  /** 2 above the critical threshold, 1 above the warning threshold, else 0. */
  function UsageLevel(s: StorageState): nat
  {
    if Usage(s) > 95.0 then 2 else if Usage(s) > 85.0 then 1 else 0
  }

  function UsageRule(s: StorageState): seq<Cause>
  {
    var u := Usage(s);
    if u > 95.0 then [Cause(AlmostFull, "high", UsageDetail(u, true))]
    else if u > 85.0 then [Cause(HighUsage, "medium", UsageDetail(u, false))]
    else []
  }

  function UsageDetail(u: real, critical: bool): string
  {
    "Capacity at " + Fixed1(u) + (if critical then "% - critical level" else "% - should be monitored")
  }

  /** 'high' when the issue text mentions health or errors, regardless of case. */
  function IssueConfidence(issue: string): string
  {
    var l := Lower(issue);
    if Contains(l, "health") || Contains(l, "error") then "high" else "medium"
  }

  function PoolIssueCause(p: ZFSPoolDiagnostic, issue: PoolIssue): Cause
  {
    Cause(PoolProblem(p.name, issue), IssueConfidence(issue.Message()), "Pool " + p.name + " requires attention")
  }

  /** Every (pool, issue) pair, pool by pool and issue by issue. */
  function IssuePairs(pools: seq<ZFSPoolDiagnostic>): seq<(ZFSPoolDiagnostic, PoolIssue)>
  {
    if |pools| == 0 then []
    else IssuePairs(pools[..|pools| - 1]) + PairsOf(pools[|pools| - 1])
  }

  function PairsOf(p: ZFSPoolDiagnostic): (ps: seq<(ZFSPoolDiagnostic, PoolIssue)>)
    ensures |ps| == |p.issues|
    ensures forall j :: 0 <= j < |ps| ==> ps[j] == (p, p.issues[j])
  {
    seq(|p.issues|, j requires 0 <= j < |p.issues| => (p, p.issues[j]))
  }

  function CausesOf(ps: seq<(ZFSPoolDiagnostic, PoolIssue)>): (cs: seq<Cause>)
    ensures |cs| == |ps|
  {
    seq(|ps|, k requires 0 <= k < |ps| => PoolIssueCause(ps[k].0, ps[k].1))
  }

  /** The causes of all pools: one per issue, pool by pool. */
  function PoolCauses(pools: seq<ZFSPoolDiagnostic>): seq<Cause>
  {
    CausesOf(IssuePairs(pools))
  }

  lemma CausesOfAppend(ps: seq<(ZFSPoolDiagnostic, PoolIssue)>, x: (ZFSPoolDiagnostic, PoolIssue))
    ensures CausesOf(ps + [x]) == CausesOf(ps) + [PoolIssueCause(x.0, x.1)]
  {
  }

  predicate IsPoolCause(c: Cause)
  {
    c.kind.PoolProblem?
  }

  predicate LowArc(s: StorageState)
  {
    s.arcStats.Some? && s.arcStats.value.hitRatio.GetOr(0.0) < 0.7
  }

  function ArcRule(s: StorageState): seq<Cause>
  {
    if LowArc(s) then
      [Cause(LowArcHitRatio, "medium", ArcDetail(s.arcStats.value.hitRatio.GetOr(0.0)))]
    else []
  }

  function ArcDetail(ratio: real): string
  {
    "ARC hit ratio is " + Fixed1(ratio * 100.0) + "% - may need more RAM for caching"
  }

  function NfsClients(s: StorageState): int
  {
    s.nfsClientsConnected.GetOr(0)
  }

  function NfsRule(s: StorageState): seq<Cause>
  {
    if NfsClients(s) > 100 then
      [Cause(HighNfsLoad, "low", NfsDetail(NfsClients(s)))]
    else []
  }

  function NfsDetail(n: int): string
  {
    IntToString(n) + " NFS clients connected"
  }

  /** Truthiness of the predicted days: present and non-zero. */
  predicate HasDays(t: UsageTrend)
  {
    t.daysUntilFull.Some? && t.daysUntilFull.value != 0.0
  }

  /** 2 for a critical alert, 1 for a warning, else 0. */
  function TrendLevel(t: UsageTrend): nat
  {
    if t.alertLevel == Some("critical") then 2 else if t.alertLevel == Some("warning") then 1 else 0
  }

  function TrendRule(t: UsageTrend): seq<Cause>
  {
    if t.alertLevel == Some("critical") then [Cause(RapidFill, "high", RapidFillDetail(t))]
    else if t.alertLevel == Some("warning") then
      [Cause(FillIncreasing, "medium", "Storage usage accelerating - monitor closely")]
    else []
  }

  /** The predicted days are mentioned only when they are truthy. */
  function RapidFillDetail(t: UsageTrend): (d: string)
    ensures |d| >= 23 && d[..23] == "Storage filling rapidly"
    ensures HasDays(t) <==> d != "Storage filling rapidly"
  {
    "Storage filling rapidly"
      + (if HasDays(t) then " - estimated full in " + Fixed1(t.daysUntilFull.value) + " days" else "")
  }

  function TotalIssues(pools: seq<ZFSPoolDiagnostic>): nat
  {
    if |pools| == 0 then 0 else TotalIssues(pools[..|pools| - 1]) + |pools[|pools| - 1].issues|
  }

  /** Some rule fires for a reporting device. */
  predicate AnyStorageIssue(s: StorageState, t: UsageTrend, pools: seq<ZFSPoolDiagnostic>)
  {
    Usage(s) > 85.0 || TotalIssues(pools) > 0 || LowArc(s) || NfsClients(s) > 100
    || t.alertLevel == Some("critical") || t.alertLevel == Some("warning")
  }

  /**
   * `analyze_potential_causes`; the unused history argument is omitted and
   * a missing or empty state dictionary is `None`.
   */
  method AnalyzePotentialCauses(state: Option<StorageState>, trend: UsageTrend, pools: seq<ZFSPoolDiagnostic>)
    returns (causes: seq<Cause>)
    ensures |causes| >= 1
    ensures state.None? ==> causes == [NotReportingCause]
    ensures state.Some? ==> ReportingCausesHold(state.value, trend, pools, causes)
  {
    if state.None? {
      causes := [NotReportingCause];
      return;
    }
    var s := state.value;
    var poolCauses := CollectPoolCauses(pools);
    ghost var rules := Rules(s, trend, pools);
    causes := UsageRule(s);
    causes := causes + poolCauses;
    causes := causes + ArcRule(s);
    causes := causes + NfsRule(s);
    causes := causes + TrendRule(trend);
    assert causes == rules;
    if |causes| == 0 {
      causes := causes + [NoObviousCause];
    }
    ReportingCauses(s, trend, pools, causes);
  }

  /** The loop over the pools and their issues in `analyze_potential_causes`. */
  method CollectPoolCauses(pools: seq<ZFSPoolDiagnostic>) returns (causes: seq<Cause>)
    ensures causes == PoolCauses(pools)
  {
    causes := [];
    var k := 0;
    while k < |pools|
      invariant 0 <= k <= |pools|
      invariant causes == CausesOf(IssuePairs(pools[..k]))
    {
      var pool := pools[k];
      ghost var before := IssuePairs(pools[..k]);
      var j := 0;
      while j < |pool.issues|
        invariant 0 <= j <= |pool.issues|
        invariant causes == CausesOf(before + PairsOf(pool)[..j])
      {
        assert before + PairsOf(pool)[..j + 1] == before + PairsOf(pool)[..j] + [(pool, pool.issues[j])];
        CausesOfAppend(before + PairsOf(pool)[..j], (pool, pool.issues[j]));
        causes := causes + [PoolIssueCause(pool, pool.issues[j])];
        j := j + 1;
      }
      assert PairsOf(pool)[..j] == PairsOf(pool);
      assert pools[..k + 1][..k] == pools[..k];
      k := k + 1;
    }
    assert pools[..k] == pools;
  }

  /** The pairs are exactly the issues of the pools, one per issue. */
  lemma {:induction false} IssuePairsSpec(pools: seq<ZFSPoolDiagnostic>)
    ensures |IssuePairs(pools)| == TotalIssues(pools)
    ensures forall q :: q in IssuePairs(pools) <==>
      exists k, j :: 0 <= k < |pools| && 0 <= j < |pools[k].issues| && q == (pools[k], pools[k].issues[j])
  {
    if |pools| > 0 {
      var init, last := pools[..|pools| - 1], pools[|pools| - 1];
      IssuePairsSpec(init);
      var ps := PairsOf(last);
      forall q
        ensures q in IssuePairs(pools) <==>
          exists k, j :: 0 <= k < |pools| && 0 <= j < |pools[k].issues| && q == (pools[k], pools[k].issues[j])
      {
        if q in ps {
          var j :| 0 <= j < |ps| && ps[j] == q;
          assert q == (pools[|pools| - 1], pools[|pools| - 1].issues[j]);
        }
        if exists k, j :: 0 <= k < |pools| && 0 <= j < |pools[k].issues| && q == (pools[k], pools[k].issues[j]) {
          var k, j :| 0 <= k < |pools| && 0 <= j < |pools[k].issues| && q == (pools[k], pools[k].issues[j]);
          if k < |init| {
            assert pools[k] == init[k];
          } else {
            assert ps[j] == q;
          }
        }
      }
    }
  }

  /**
   * The pool causes are one cause per issue of every pool, pool by pool:
   * the k-th of them reports the k-th (pool, issue) pair.
   */
  lemma PoolCausesSpec(pools: seq<ZFSPoolDiagnostic>)
    ensures |PoolCauses(pools)| == TotalIssues(pools)
    ensures forall k :: 0 <= k < |PoolCauses(pools)| ==>
      PoolCauses(pools)[k] == PoolIssueCause(IssuePairs(pools)[k].0, IssuePairs(pools)[k].1)
    ensures forall c :: c in PoolCauses(pools) ==> IsPoolCause(c)
  {
    IssuePairsSpec(pools);
  }

  /** What the causes of a reporting device say, rule by rule. */
  ghost predicate ReportingCausesHold(s: StorageState, t: UsageTrend, pools: seq<ZFSPoolDiagnostic>, causes: seq<Cause>)
  {
    var ks := Kinds(causes);
    && (AlmostFull in ks <==> Usage(s) > 95.0)
    && (HighUsage in ks <==> 85.0 < Usage(s) <= 95.0)
    && Filter(causes, IsPoolCause) == PoolCauses(pools)
    && (LowArcHitRatio in ks <==> LowArc(s))
    && (HighNfsLoad in ks <==> NfsClients(s) > 100)
    && (RapidFill in ks <==> t.alertLevel == Some("critical"))
    && (FillIncreasing in ks <==> t.alertLevel == Some("warning"))
    && (NoObviousIssues in ks <==> !AnyStorageIssue(s, t, pools))
    && (NoObviousIssues in ks ==> causes == [NoObviousCause])
    && NotReporting !in ks
  }

  /** The rule causes in rule order, before the fallback. */
  function Rules(s: StorageState, t: UsageTrend, pools: seq<ZFSPoolDiagnostic>): seq<Cause>
  {
    UsageRule(s) + PoolCauses(pools) + ArcRule(s) + NfsRule(s) + TrendRule(t)
  }

  lemma KindsOfOne(cs: seq<Cause>)
    requires |cs| <= 1
    ensures Kinds(cs) == if |cs| == 0 then [] else [cs[0].kind]
    ensures (|cs| == 0 || !IsPoolCause(cs[0])) ==> Filter(cs, IsPoolCause) == []
  {
    if |cs| == 1 {
      assert cs == [] + [cs[0]];
    }
  }

  function UsageKinds(level: nat): seq<CauseKind>
  {
    if level == 2 then [AlmostFull] else if level == 1 then [HighUsage] else []
  }

  function ArcKinds(arc: bool): seq<CauseKind>
  {
    if arc then [LowArcHitRatio] else []
  }

  function NfsKinds(nfs: bool): seq<CauseKind>
  {
    if nfs then [HighNfsLoad] else []
  }

  function TrendKinds(level: nat): seq<CauseKind>
  {
    if level == 2 then [RapidFill] else if level == 1 then [FillIncreasing] else []
  }

  lemma UsageRuleKinds(s: StorageState)
    ensures Kinds(UsageRule(s)) == UsageKinds(UsageLevel(s))
    ensures Filter(UsageRule(s), IsPoolCause) == []
  {
    KindsOfOne(UsageRule(s));
  }

  lemma ArcRuleKinds(s: StorageState)
    ensures Kinds(ArcRule(s)) == ArcKinds(LowArc(s))
    ensures Filter(ArcRule(s), IsPoolCause) == []
  {
    KindsOfOne(ArcRule(s));
  }

  lemma NfsRuleKinds(s: StorageState)
    ensures Kinds(NfsRule(s)) == NfsKinds(NfsClients(s) > 100)
    ensures Filter(NfsRule(s), IsPoolCause) == []
  {
    KindsOfOne(NfsRule(s));
  }

  lemma TrendRuleKinds(t: UsageTrend)
    ensures Kinds(TrendRule(t)) == TrendKinds(TrendLevel(t))
    ensures Filter(TrendRule(t), IsPoolCause) == []
  {
    KindsOfOne(TrendRule(t));
  }

  /** The kinds of the rule causes in rule order, with the pool causes' kinds left abstract. */
  function KindSeq(level: nat, poolKinds: seq<CauseKind>, arc: bool, nfs: bool, trend: nat): seq<CauseKind>
  {
    UsageKinds(level) + poolKinds + ArcKinds(arc) + NfsKinds(nfs) + TrendKinds(trend)
  }

  /** Each kind is present exactly when its flag says so. */
  lemma KindSeqMembers(level: nat, poolKinds: seq<CauseKind>, arc: bool, nfs: bool, trend: nat)
    requires forall k :: k in poolKinds ==> k.PoolProblem?
    ensures var ks := KindSeq(level, poolKinds, arc, nfs, trend);
      && (AlmostFull in ks <==> level == 2)
      && (HighUsage in ks <==> level == 1)
      && (LowArcHitRatio in ks <==> arc)
      && (HighNfsLoad in ks <==> nfs)
      && (RapidFill in ks <==> trend == 2)
      && (FillIncreasing in ks <==> trend == 1)
      && NoObviousIssues !in ks
      && NotReporting !in ks
      && (|ks| == 0 <==> (level != 1 && level != 2) && |poolKinds| == 0 && !arc && !nfs && trend != 1 && trend != 2)
  {
    KindSeqOwnMembers(level, poolKinds, arc, nfs, trend);
    KindSeqOtherMembers(level, poolKinds, arc, nfs, trend);
  }

  lemma KindSeqOwnMembers(level: nat, poolKinds: seq<CauseKind>, arc: bool, nfs: bool, trend: nat)
    requires forall k :: k in poolKinds ==> k.PoolProblem?
    ensures var ks := KindSeq(level, poolKinds, arc, nfs, trend);
      && (AlmostFull in ks <==> level == 2)
      && (HighUsage in ks <==> level == 1)
      && (RapidFill in ks <==> trend == 2)
      && (FillIncreasing in ks <==> trend == 1)
  {
    var u, a, n, t := UsageKinds(level), ArcKinds(arc), NfsKinds(nfs), TrendKinds(trend);
    PartKinds(level, arc, nfs, trend);
    assert KindSeq(level, poolKinds, arc, nfs, trend) == u + poolKinds + a + n + t;
  }

  lemma KindSeqOtherMembers(level: nat, poolKinds: seq<CauseKind>, arc: bool, nfs: bool, trend: nat)
    requires forall k :: k in poolKinds ==> k.PoolProblem?
    ensures var ks := KindSeq(level, poolKinds, arc, nfs, trend);
      && (LowArcHitRatio in ks <==> arc)
      && (HighNfsLoad in ks <==> nfs)
      && NoObviousIssues !in ks
      && NotReporting !in ks
      && (|ks| == 0 <==> (level != 1 && level != 2) && |poolKinds| == 0 && !arc && !nfs && trend != 1 && trend != 2)
  {
    var u, a, n, t := UsageKinds(level), ArcKinds(arc), NfsKinds(nfs), TrendKinds(trend);
    PartKinds(level, arc, nfs, trend);
    assert KindSeq(level, poolKinds, arc, nfs, trend) == u + poolKinds + a + n + t;
  }

  /** The kinds each part can hold. */
  lemma PartKinds(level: nat, arc: bool, nfs: bool, trend: nat)
    ensures forall k :: k in UsageKinds(level) ==> k == AlmostFull || k == HighUsage
    ensures forall k :: k in ArcKinds(arc) ==> k == LowArcHitRatio
    ensures forall k :: k in NfsKinds(nfs) ==> k == HighNfsLoad
    ensures forall k :: k in TrendKinds(trend) ==> k == RapidFill || k == FillIncreasing
    ensures (AlmostFull in UsageKinds(level) <==> level == 2) && (HighUsage in UsageKinds(level) <==> level == 1)
    ensures (RapidFill in TrendKinds(trend) <==> trend == 2) && (FillIncreasing in TrendKinds(trend) <==> trend == 1)
  {
  }

  lemma RulesKinds(s: StorageState, t: UsageTrend, pools: seq<ZFSPoolDiagnostic>)
    ensures Kinds(Rules(s, t, pools)) ==
      KindSeq(UsageLevel(s), Kinds(PoolCauses(pools)), LowArc(s), NfsClients(s) > 100, TrendLevel(t))
  {
    var u, p, a, n, tr := UsageRule(s), PoolCauses(pools), ArcRule(s), NfsRule(s), TrendRule(t);
    UsageRuleKinds(s);
    ArcRuleKinds(s);
    NfsRuleKinds(s);
    TrendRuleKinds(t);
    KindsConcat(u, p);
    KindsConcat(u + p, a);
    KindsConcat(u + p + a, n);
    KindsConcat(u + p + a + n, tr);
  }

  lemma RulesFilter(s: StorageState, t: UsageTrend, pools: seq<ZFSPoolDiagnostic>)
    ensures Filter(Rules(s, t, pools), IsPoolCause) == PoolCauses(pools)
  {
    UsageRuleKinds(s);
    ArcRuleKinds(s);
    NfsRuleKinds(s);
    TrendRuleKinds(t);
    PoolCausesSpec(pools);
    FilterAroundPoolCauses(UsageRule(s), PoolCauses(pools), ArcRule(s), NfsRule(s), TrendRule(t));
  }

  lemma FilterAroundPoolCauses(u: seq<Cause>, p: seq<Cause>, a: seq<Cause>, n: seq<Cause>, tr: seq<Cause>)
    requires Filter(u, IsPoolCause) == [] && Filter(a, IsPoolCause) == []
    requires Filter(n, IsPoolCause) == [] && Filter(tr, IsPoolCause) == []
    requires forall c :: c in p ==> IsPoolCause(c)
    ensures Filter(u + p + a + n + tr, IsPoolCause) == p
  {
    FilterConcat(u, p, IsPoolCause);
    FilterConcat(u + p, a, IsPoolCause);
    FilterConcat(u + p + a, n, IsPoolCause);
    FilterConcat(u + p + a + n, tr, IsPoolCause);
    FilterAll(p, IsPoolCause);
  }

  /** The causes for a reporting device: the rules in order, or the fallback when none fires. */
  lemma ReportingCauses(s: StorageState, t: UsageTrend, pools: seq<ZFSPoolDiagnostic>, causes: seq<Cause>)
    requires var rules := Rules(s, t, pools);
      causes == if |rules| == 0 then [NoObviousCause] else rules
    ensures ReportingCausesHold(s, t, pools, causes)
  {
    var rules := Rules(s, t, pools);
    RulesFacts(s, t, pools);
    RulesFilter(s, t, pools);
    if |rules| == 0 {
      assert Kinds(causes) == [NoObviousIssues];
      KindsOfOne(causes);
    }
  }

  /** The rule causes before the fallback: each kind present iff its rule fires. */
  lemma RulesFacts(s: StorageState, t: UsageTrend, pools: seq<ZFSPoolDiagnostic>)
    ensures var rules := Rules(s, t, pools);
      var ks := Kinds(rules);
      && (AlmostFull in ks <==> Usage(s) > 95.0)
      && (HighUsage in ks <==> 85.0 < Usage(s) <= 95.0)
      && (LowArcHitRatio in ks <==> LowArc(s))
      && (HighNfsLoad in ks <==> NfsClients(s) > 100)
      && (RapidFill in ks <==> t.alertLevel == Some("critical"))
      && (FillIncreasing in ks <==> t.alertLevel == Some("warning"))
      && NoObviousIssues !in ks
      && NotReporting !in ks
      && (|rules| == 0 <==> !AnyStorageIssue(s, t, pools))
  {
    var p := PoolCauses(pools);
    RulesKinds(s, t, pools);
    PoolCausesSpec(pools);
    assert forall k :: k in Kinds(p) ==> k.PoolProblem?;
    KindSeqMembers(UsageLevel(s), Kinds(p), LowArc(s), NfsClients(s) > 100, TrendLevel(t));
  }

  /** Text made of digits, points and minus signs only, as a printed number is. */
  predicate Numeric(f: string)
  {
    forall k :: 0 <= k < |f| ==> IsDigit(f[k]) || f[k] == '-' || f[k] == '.'
  }

  lemma Fixed1Numeric(x: real)
    ensures Numeric(Fixed1(x))
  {
    var f := Fixed1(x);
    forall k | 0 <= k < |f|
      ensures IsDigit(f[k]) || f[k] == '-' || f[k] == '.'
    {
      Fixed1Chars(x, f[k]);
    }
  }

  lemma HealthConfidence(h: string)
    ensures IssueConfidence("Pool health is " + h) == "high"
  {
    assert Lower("health") == "health";
    assert "Pool health is " + h == "Pool " + "health" + (" is " + h);
    ContainsInLower("Pool ", "health", " is " + h);
  }

  lemma ErrorsConfidence(rest: string)
    ensures IssueConfidence("Errors detected: " + rest) == "high"
  {
    var tail := "s detected: " + rest;
    assert "Errors detected: " + rest == "Error" + tail;
    LowerConcat("Error", tail);
    assert Lower("Error") == "error";
    assert StartsWith("error" + Lower(tail), "error");
  }

  /** A letter missing in both cases from the fixed parts is missing from the lower-cased text. */
  lemma LacksAround(a: string, f: string, b: string, c: char)
    requires 'a' <= c <= 'z' && Numeric(f)
    requires c !in a && UpperChar(c) !in a && c !in b && UpperChar(c) !in b
    ensures c !in Lower(a + f + b)
  {
    var m := a + f + b;
    assert c !in f && UpperChar(c) !in f by {
      forall k | 0 <= k < |f|
        ensures f[k] != c && f[k] != UpperChar(c)
      {
      }
    }
    LowerMissing(m, c);
  }

  lemma NearlyFullConfidence(f: string)
    requires Numeric(f)
    ensures IssueConfidence("Pool at " + f + "% capacity") == "medium"
  {
    var m := "Pool at " + f + "% capacity";
    LacksAround("Pool at ", f, "% capacity", 'e');
    NotContainsMissing(Lower(m), "health", 'e');
    NotContainsMissing(Lower(m), "error", 'e');
  }

  lemma ApproachingConfidence(f: string)
    requires Numeric(f)
    ensures IssueConfidence("Pool approaching full (" + f + "%)") == "medium"
  {
    var m := "Pool approaching full (" + f + "%)";
    LacksAround("Pool approaching full (", f, "%)", 'e');
    NotContainsMissing(Lower(m), "health", 'e');
    NotContainsMissing(Lower(m), "error", 'e');
  }

  lemma FragmentedConfidence(f: string)
    requires Numeric(f)
    ensures IssueConfidence("High fragmentation (" + f + "%)") == "medium"
  {
    FragmentedLacksHealth(f);
    FragmentedLacksError(f);
  }

  lemma FragmentedLacksHealth(f: string)
    requires Numeric(f)
    ensures !Contains(Lower("High fragmentation (" + f + "%)"), "health")
  {
    LacksAround("High fragmentation (", f, "%)", 'l');
    NotContainsMissing(Lower("High fragmentation (" + f + "%)"), "health", 'l');
  }

  /** The one 'e' of the text is followed by 'n', so "error" cannot start there. */
  lemma FragmentedLacksError(f: string)
    requires Numeric(f)
    ensures !Contains(Lower("High fragmentation (" + f + "%)"), "error")
  {
    var a, b := "High fragm", "ntation (" + f + "%)";
    FragmentedSplit();
    assert "High fragmentation (" + f + "%)" == a + ['e'] + b;
    LowerConcat(a + ['e'], b);
    LowerConcat(a, ['e']);
    LacksAround("ntation (", f, "%)", 'e');
    FragmentedHead();
    assert Lower(['e']) == ['e'];
    assert Lower(b)[0] == 'n';
    NotContainsUnique(Lower(a), 'e', Lower(b), "error");
    assert Lower("High fragmentation (" + f + "%)") == Lower(a) + ['e'] + Lower(b);
  }

  lemma FragmentedSplit()
    ensures "High fragmentation (" == "High fragm" + ['e'] + "ntation ("
  {
  }

  lemma FragmentedHead()
    ensures Lower("High fragm") == "high fragm" && 'e' !in "high fragm"
  {
  }

  /**
   * The text rule behind a pool cause's confidence, read on the issues the
   * pool analysis produces: health and error issues are 'high', capacity and
   * fragmentation issues 'medium'.
   */
  lemma IssueConfidenceByKind(i: PoolIssue)
    ensures IssueConfidence(i.Message()) == "high" <==> i.Unhealthy? || i.ErrorsDetected?
  {
    if i.Unhealthy? || i.ErrorsDetected? {
      HighConfidenceIssues(i);
    } else {
      MediumConfidenceIssues(i);
    }
  }

  lemma HighConfidenceIssues(i: PoolIssue)
    requires i.Unhealthy? || i.ErrorsDetected?
    ensures IssueConfidence(i.Message()) == "high"
  {
    match i
    case Unhealthy(h) => HealthConfidence(h);
    case ErrorsDetected(r, w, c) => ErrorsIssueConfidence(r, w, c);
  }

  lemma ErrorsIssueConfidence(r: int, w: int, c: int)
    ensures IssueConfidence(ErrorsDetected(r, w, c).Message()) == "high"
  {
    ErrorsConfidence(ErrorCounts(r, w, c));
  }

  lemma MediumConfidenceIssues(i: PoolIssue)
    requires !i.Unhealthy? && !i.ErrorsDetected?
    ensures IssueConfidence(i.Message()) == "medium"
  {
    match i
    case NearlyFull(x) => Fixed1Numeric(x); NearlyFullConfidence(Fixed1(x));
    case ApproachingFull(x) => Fixed1Numeric(x); ApproachingConfidence(Fixed1(x));
    case Fragmented(x) => Fixed1Numeric(x); FragmentedConfidence(Fixed1(x));
  }

  // ---------------------------------------------------------------
  // Recommendations
  // ---------------------------------------------------------------

  /**
   * The recommendation messages, one constructor per distinct message;
   * `Text` is the exact wording. The messages are pairwise different, so
   * removing duplicate entries removes duplicate texts.
   */
  datatype StorageAdvice =
    | FindLargeFiles | FindOldSnapshots | ReviewQuotas
    | CheckPoolStatus | ReviewDriveHealth | ReplaceFailingDrives
    | ScrubToVerify | CheckAffectedDevices | ReviewSystemLogs
    | DeleteSnapshots | EnableCompression | ArchiveColdData
    | ClearSpaceFirst | ReimportFragmented
    | CheckArcStats | AddRam | ReviewL2Arc
    | ReviewNfsClients | CheckNfsPerformance
    | PingDevice | CheckSsh | VerifyNetwork
    | ScrubTip | StorageHealthy
  {
    function Text(): string
    {
      match this
      case FindLargeFiles => "Identify large files/datasets: zfs list -o name,used,refer -S used | head"
      case FindOldSnapshots => "Check for old snapshots: zfs list -t snapshot -o name,used -S used | head"
      case ReviewQuotas => "Review quota usage by user/group"
      case CheckPoolStatus => "Check pool status: zpool status -v"
      case ReviewDriveHealth => "Review drive health: smartctl -a /dev/sdX"
      case ReplaceFailingDrives => "Consider replacing failing drives immediately"
      case ScrubToVerify => "Run scrub to verify data: zpool scrub <pool>"
      case CheckAffectedDevices => "Check zpool status for affected devices: zpool status -v"
      case ReviewSystemLogs => "Review system logs: dmesg | grep -i error"
      case DeleteSnapshots => "Delete old snapshots: zfs destroy <pool>@<snapshot>"
      case EnableCompression => "Enable compression if not already: zfs set compression=lz4 <dataset>"
      case ArchiveColdData => "Move cold data to archive storage"
      case ClearSpaceFirst => "Fragmentation requires free space to defragment - clear space first"
      case ReimportFragmented => "Consider export/reimport of severely fragmented datasets"
      case CheckArcStats => "Check ARC stats: arc_summary"
      case AddRam => "Consider adding RAM for larger ARC"
      case ReviewL2Arc => "Review L2ARC usage if SSD cache available"
      case ReviewNfsClients => "Review NFS client list: showmount -a"
      case CheckNfsPerformance => "Check NFS performance: nfsstat -s"
      case PingDevice => "Ping storage device: ping <hostname>"
      case CheckSsh => "Check SSH access: ssh <hostname> hostname"
      case VerifyNetwork => "Verify network connectivity and power status"
      case ScrubTip => "Regular scrubs recommended: zpool scrub <pool> (monthly)"
      case StorageHealthy => "Storage appears healthy - no action required"
    }
  }

  const FullAdvice: seq<StorageAdvice> := [FindLargeFiles, FindOldSnapshots, ReviewQuotas]
  const HealthAdvice: seq<StorageAdvice> := [CheckPoolStatus, ReviewDriveHealth, ReplaceFailingDrives]
  const ErrorAdvice: seq<StorageAdvice> := [ScrubToVerify, CheckAffectedDevices, ReviewSystemLogs]
  const CapacityAdvice: seq<StorageAdvice> := [DeleteSnapshots, EnableCompression, ArchiveColdData]
  const FragmentationAdvice: seq<StorageAdvice> := [ClearSpaceFirst, ReimportFragmented]
  const ArcAdvice: seq<StorageAdvice> := [CheckArcStats, AddRam, ReviewL2Arc]
  const NfsAdvice: seq<StorageAdvice> := [ReviewNfsClients, CheckNfsPerformance]
  const UnreachableAdvice: seq<StorageAdvice> := [PingDevice, CheckSsh, VerifyNetwork]

  /**
   * The advice one cause contributes, chosen by words in its name; the
   * first test that matches wins, and a name no test matches contributes
   * nothing.
   */
  function Advice(name: string): (r: seq<StorageAdvice>)
    ensures ScrubTip !in r && StorageHealthy !in r
  {
    if FullTest(name) then FullAdvice
    else if HealthTest(name) then HealthAdvice
    else if ErrorTest(name) then ErrorAdvice
    else if CapacityTest(name) then CapacityAdvice
    else if FragmentationTest(name) then FragmentationAdvice
    else if ArcTest(name) then ArcAdvice
    else if NfsTest(name) then NfsAdvice
    else if UnreachableTest(name) then UnreachableAdvice
    else []
  }

  // The eight tests, in the order they are tried; some are case-blind.

  predicate FullTest(name: string)
  {
    Contains(name, "Storage") && (Contains(name, "Full") || Contains(Lower(name), "filling") || Contains(name, "Usage"))
  }

  predicate HealthTest(name: string)
  {
    Contains(Lower(name), "health") && Contains(name, "ZFS")
  }

  predicate ErrorTest(name: string)
  {
    Contains(Lower(name), "error") && Contains(name, "ZFS")
  }

  predicate CapacityTest(name: string)
  {
    Contains(Lower(name), "capacity") && Contains(name, "ZFS")
  }

  predicate FragmentationTest(name: string)
  {
    Contains(Lower(name), "fragmentation")
  }

  predicate ArcTest(name: string)
  {
    Contains(name, "ARC")
  }

  predicate NfsTest(name: string)
  {
    Contains(name, "NFS")
  }

  predicate UnreachableTest(name: string)
  {
    Contains(Lower(name), "not reporting")
  }

  function CauseAdvice(c: Cause): seq<StorageAdvice>
  {
    Advice(c.kind.Name())
  }

  predicate MentionsZfs(c: Cause)
  {
    Contains(c.kind.Name(), "ZFS")
  }

  predicate AnyZfs(causes: seq<Cause>)
  {
    exists k :: 0 <= k < |causes| && MentionsZfs(causes[k])
  }

  predicate SomeCauseHasAdvice(causes: seq<Cause>)
  {
    exists k :: 0 <= k < |causes| && CauseAdvice(causes[k]) != []
  }

  /** Reference definition: every cause's advice, the scrub tip, the healthy fallback, then `dict.fromkeys`. */
  function StorageRecommendations(causes: seq<Cause>): seq<StorageAdvice>
  {
    Dedup(RawStorageRecommendations(causes))
  }

  lemma AdviceOmitsClosers(causes: seq<Cause>)
    ensures ScrubTip !in FlatMap(causes, CauseAdvice) && StorageHealthy !in FlatMap(causes, CauseAdvice)
  {
    FlatMapMembers(causes, CauseAdvice, ScrubTip);
    FlatMapMembers(causes, CauseAdvice, StorageHealthy);
  }

  /**
   * The promises of `generate_recommendations`: no duplicates; the scrub
   * tip is present iff some cause's name mentions ZFS; the healthy message
   * is present iff no cause contributed anything, and is then all there is;
   * every cause's advice is present, and nothing else is.
   */
  lemma StorageRecommendationsSpec(causes: seq<Cause>)
    ensures var r := StorageRecommendations(causes);
      && NoDup(r)
      && (ScrubTip in r <==> AnyZfs(causes))
      && (StorageHealthy in r <==> !SomeCauseHasAdvice(causes) && !AnyZfs(causes))
      && (StorageHealthy in r ==> r == [StorageHealthy])
      && (forall k, m :: 0 <= k < |causes| && 0 <= m < |CauseAdvice(causes[k])| ==>
            CauseAdvice(causes[k])[m] in r)
      && (forall x :: x in r ==>
            (x == ScrubTip || x == StorageHealthy || exists k :: 0 <= k < |causes| && x in CauseAdvice(causes[k])))
  {
    StorageRecommendationsClose(causes);
    StorageRecommendationsContents(causes);
  }

  /** The raw list before `dict.fromkeys`. */
  function RawStorageRecommendations(causes: seq<Cause>): seq<StorageAdvice>
  {
    var raw := FlatMap(causes, CauseAdvice) + (if AnyZfs(causes) then [ScrubTip] else []);
    if |raw| == 0 then [StorageHealthy] else raw
  }

  lemma StorageRecommendationsClose(causes: seq<Cause>)
    ensures var r := StorageRecommendations(causes);
      && NoDup(r)
      && (ScrubTip in r <==> AnyZfs(causes))
      && (StorageHealthy in r <==> !SomeCauseHasAdvice(causes) && !AnyZfs(causes))
      && (StorageHealthy in r ==> r == [StorageHealthy])
  {
    var adv := FlatMap(causes, CauseAdvice);
    var final := RawStorageRecommendations(causes);
    assert StorageRecommendations(causes) == Dedup(final);
    FlatMapEmpty(causes, CauseAdvice);
    AdviceOmitsClosers(causes);
    DedupSpec(final);
    if final == [StorageHealthy] {
      assert Dedup([StorageHealthy]) == Dedup([]) + [StorageHealthy];
    }
  }

  lemma StorageRecommendationsContents(causes: seq<Cause>)
    ensures var r := StorageRecommendations(causes);
      && (forall k, m :: 0 <= k < |causes| && 0 <= m < |CauseAdvice(causes[k])| ==>
            CauseAdvice(causes[k])[m] in r)
      && (forall x :: x in r ==>
            (x == ScrubTip || x == StorageHealthy || exists k :: 0 <= k < |causes| && x in CauseAdvice(causes[k])))
  {
    var final := RawStorageRecommendations(causes);
    assert StorageRecommendations(causes) == Dedup(final);
    DedupSpec(final);
    forall k, m | 0 <= k < |causes| && 0 <= m < |CauseAdvice(causes[k])|
      ensures CauseAdvice(causes[k])[m] in final
    {
      FlatMapMembers(causes, CauseAdvice, CauseAdvice(causes[k])[m]);
    }
    forall x | x in final
      ensures x == ScrubTip || x == StorageHealthy || exists k :: 0 <= k < |causes| && x in CauseAdvice(causes[k])
    {
      FlatMapMembers(causes, CauseAdvice, x);
    }
  }

  /** `generate_recommendations`; the unused state and pool arguments are omitted. */
  method GenerateRecommendations(causes: seq<Cause>) returns (recs: seq<StorageAdvice>)
    ensures recs == StorageRecommendations(causes)
  {
    var raw := CollectAdvice(causes);
    if AnyZfs(causes) {
      raw := raw + [ScrubTip];
    }
    if |raw| == 0 {
      raw := [StorageHealthy];
    }
    assert raw == RawStorageRecommendations(causes);
    recs := DedupLoop(raw);
  }

  /** The loop over the causes: each one's advice, in order. */
  method CollectAdvice(causes: seq<Cause>) returns (raw: seq<StorageAdvice>)
    ensures raw == FlatMap(causes, CauseAdvice)
  {
    raw := [];
    for i := 0 to |causes|
      invariant raw == FlatMap(causes[..i], CauseAdvice)
    {
      FlatMapPrefix(causes, i, CauseAdvice);
      raw := raw + CauseAdvice(causes[i]);
    }
    FlatMapWhole(causes, CauseAdvice);
  }

  // Which advice a name gets, from the letters it lacks and the words it
  // holds.

  lemma AdviceWhenUnreachable(name: string, pre: string, post: string)
    requires name == pre + "not reporting" + post
    requires 'F' !in name && 'f' !in name && 'U' !in name && 'Z' !in name && 'A' !in name && 'N' !in name
    ensures Advice(name) == UnreachableAdvice
  {
    NotContainsMissing(name, "Full", 'F');
    LowerLacks(name, "filling", 'f');
    NotContainsMissing(name, "Usage", 'U');
    assert !FullTest(name);
    NotContainsMissing(name, "ZFS", 'Z');
    assert !HealthTest(name) && !ErrorTest(name) && !CapacityTest(name);
    LowerLacks(name, "fragmentation", 'f');
    NotContainsMissing(name, "ARC", 'A');
    NotContainsMissing(name, "NFS", 'N');
    UnreachableHolds(pre, post);
  }

  lemma UnreachableHolds(pre: string, post: string)
    ensures UnreachableTest(pre + "not reporting" + post)
  {
    assert Lower("not reporting") == "not reporting";
    ContainsInLower(pre, "not reporting", post);
  }

  lemma AdviceWhenStorageFull(name: string, i: nat, j: nat)
    requires OccursAt(name, "Storage", i) && (OccursAt(name, "Full", j) || OccursAt(name, "Usage", j))
    ensures Advice(name) == FullAdvice
  {
    ContainsAt(name, "Storage", i);
    if OccursAt(name, "Full", j) {
      ContainsAt(name, "Full", j);
    } else {
      ContainsAt(name, "Usage", j);
    }
  }

  lemma AdviceWhenArc(name: string, pre: string, post: string)
    requires name == pre + "ARC" + post
    requires 'g' !in name && 'G' !in name && 'e' !in name && 'E' !in name && 'p' !in name && 'P' !in name
    ensures Advice(name) == ArcAdvice
  {
    NotContainsMissing(name, "Storage", 'g');
    LowerLacks(name, "health", 'e');
    LowerLacks(name, "error", 'e');
    LowerLacks(name, "capacity", 'p');
    LowerLacks(name, "fragmentation", 'g');
    ContainsAt(name, "ARC", |pre|);
  }

  lemma AdviceWhenNfs(name: string, pre: string, post: string)
    requires name == pre + "NFS" + post
    requires 'r' !in name && 'R' !in name && 'Z' !in name && 'A' !in name
    ensures Advice(name) == NfsAdvice
  {
    NotContainsMissing(name, "Storage", 'r');
    NotContainsMissing(name, "ZFS", 'Z');
    LowerLacks(name, "fragmentation", 'r');
    NotContainsMissing(name, "ARC", 'A');
    ContainsAt(name, "NFS", |pre|);
  }

  /** A name no test matches gets no advice. */
  lemma AdviceWhenNothingMatches(name: string)
    requires !Contains(name, "Storage") || !(Contains(name, "Full") || Contains(Lower(name), "filling") || Contains(name, "Usage"))
    requires !Contains(name, "ZFS") && !Contains(Lower(name), "fragmentation")
    requires !Contains(name, "ARC") && !Contains(name, "NFS") && !Contains(Lower(name), "not reporting")
    ensures Advice(name) == []
  {
    assert !FullTest(name) && !HealthTest(name);
  }
}
