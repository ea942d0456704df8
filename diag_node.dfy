// Node diagnostics: the failure tally over a node's recent jobs, the
// rule-based list of potential causes, the recommendations derived from
// them, and the assembly of a node diagnostic from rows that the
// database queries would return.
module DiagNode {
  import opened Wrappers
  import opened Text
  import opened Lists
  import opened Assoc

  // ---------------------------------------------------------------
  // Input rows
  // ---------------------------------------------------------------

  /**
   * A row of the `jobs` table as far as the analysis reads it; a column
   * holding SQL NULL is `None`.
   */
  datatype JobRow = JobRow(
    userName: Option<string>,
    state: Option<string>,
    exitCode: Option<int>,
    failureReason: Option<string>)

  /** The latest `node_state` row. */
  datatype NodeStateRow = NodeStateRow(
    state: Option<string>,
    reason: Option<string>,
    timestamp: Option<string>,
    cpuLoad: Option<real>,
    cpusTotal: Option<int>,
    memAllocPercent: Option<real>)

  /** A `node_state` history row (state, reason, cpu_load, memory_alloc_percent). */
  datatype HistoryRow = HistoryRow(
    state: Option<string>,
    reason: Option<string>,
    cpuLoad: Option<real>,
    memAllocPercent: Option<real>)

  // ---------------------------------------------------------------
  // Failure summary
  // ---------------------------------------------------------------

  /** Every job that did not end in state COMPLETED counts as a failure, a missing state included. */
  predicate IsFailed(j: JobRow)
  {
    j.state != Some("COMPLETED")
  }

  /** `failure_reason or state or 'UNKNOWN'`. */
  function FailureKey(j: JobRow): string
  {
    if Truthy(j.failureReason) then j.failureReason.value
    else if Truthy(j.state) then j.state.value
    else "UNKNOWN"
  }

  /** A failed job enters the exit-code tally when its code is not 0 (NULL is not 0). */
  predicate CountsExitCode(j: JobRow)
  {
    IsFailed(j) && j.exitCode != Some(0)
  }

  /** Reference count: failed jobs whose failure key is `k`. */
  function KeyCount(jobs: seq<JobRow>, k: string): nat
  {
    if |jobs| == 0 then 0
    else
      var last := jobs[|jobs| - 1];
      KeyCount(jobs[..|jobs| - 1], k) + (if IsFailed(last) && FailureKey(last) == k then 1 else 0)
  }

  /** Reference count: failed jobs with exit code `c` among those that enter the tally. */
  function CodeCount(jobs: seq<JobRow>, c: Option<int>): nat
  {
    if |jobs| == 0 then 0
    else
      var last := jobs[|jobs| - 1];
      CodeCount(jobs[..|jobs| - 1], c) + (if CountsExitCode(last) && last.exitCode == c then 1 else 0)
  }

  /** The users of the failed jobs (NULL included, as `set.add(None)` does). */
  function FailedUsers(jobs: seq<JobRow>): set<Option<string>>
  {
    set j | j in jobs && IsFailed(j) :: j.userName
  }

  /** The summary dictionary; `affected_users` is a set before it is listed. */
  datatype FailureSummary = FailureSummary(
    totalJobs: nat,
    failedJobs: nat,
    failureTypes: seq<(string, int)>,
    exitCodes: seq<(Option<int>, int)>,
    affectedUsers: set<Option<string>>,
    failureRate: real)

  /** `failure_types` maps each failure key to its count and holds no other key. */
  ghost predicate KeyTally(a: seq<(string, int)>, jobs: seq<JobRow>)
  {
    forall k :: Get(a, k) == (if KeyCount(jobs, k) == 0 then None else Some(KeyCount(jobs, k) as int))
  }

  /** `exit_codes` maps each counted exit code to its count and holds no other code. */
  ghost predicate CodeTally(a: seq<(Option<int>, int)>, jobs: seq<JobRow>)
  {
    forall c :: Get(a, c) == (if CodeCount(jobs, c) == 0 then None else Some(CodeCount(jobs, c) as int))
  }

  lemma KeyTallyStep(a: seq<(string, int)>, jobs: seq<JobRow>, job: JobRow)
    requires KeyTally(a, jobs)
    ensures KeyTally(if IsFailed(job) then Inc(a, FailureKey(job)) else a, jobs + [job])
  {
    var js := jobs + [job];
    assert js[..|js| - 1] == jobs;
    if IsFailed(job) {
      var key := FailureKey(job);
      forall k
        ensures Get(Inc(a, key), k) == (if KeyCount(js, k) == 0 then None else Some(KeyCount(js, k) as int))
      {
        GetPut(a, key, Get(a, key).GetOr(0) + 1, k);
      }
    }
  }

  lemma CodeTallyStep(a: seq<(Option<int>, int)>, jobs: seq<JobRow>, job: JobRow)
    requires CodeTally(a, jobs)
    ensures CodeTally(if CountsExitCode(job) then Inc(a, job.exitCode) else a, jobs + [job])
  {
    var js := jobs + [job];
    assert js[..|js| - 1] == jobs;
    if CountsExitCode(job) {
      forall c
        ensures Get(Inc(a, job.exitCode), c) == (if CodeCount(js, c) == 0 then None else Some(CodeCount(js, c) as int))
      {
        GetPut(a, job.exitCode, Get(a, job.exitCode).GetOr(0) + 1, c);
      }
    }
  }

  lemma FailedUsersStep(jobs: seq<JobRow>, job: JobRow)
    ensures FailedUsers(jobs + [job]) == FailedUsers(jobs) + (if IsFailed(job) then {job.userName} else {})
  {
    var js := jobs + [job];
    forall u | u in FailedUsers(js)
      ensures u in FailedUsers(jobs) + (if IsFailed(job) then {job.userName} else {})
    {
      var j :| j in js && IsFailed(j) && j.userName == u;
      if j != job {
        assert j in jobs;
      }
    }
  }

  /** The loop state of `get_failure_summary` after the jobs `done`. */
  ghost predicate Tallied(failed: nat, types: seq<(string, int)>, codes: seq<(Option<int>, int)>,
                          users: set<Option<string>>, done: seq<JobRow>)
  {
    && failed == CountIf(done, IsFailed)
    && KeyTally(types, done)
    && SumValues(types) == failed
    && CodeTally(codes, done)
    && users == FailedUsers(done)
  }

  /** One job's effect on the tally. */
  lemma TallyStep(failed: nat, types: seq<(string, int)>, codes: seq<(Option<int>, int)>,
                  users: set<Option<string>>, done: seq<JobRow>, job: JobRow)
    requires Tallied(failed, types, codes, users, done)
    ensures Tallied(
      if IsFailed(job) then failed + 1 else failed,
      if IsFailed(job) then Inc(types, FailureKey(job)) else types,
      if CountsExitCode(job) then Inc(codes, job.exitCode) else codes,
      if IsFailed(job) then users + {job.userName} else users,
      done + [job])
  {
    CountIfAppend(done, job, IsFailed);
    KeyTallyStep(types, done, job);
    CodeTallyStep(codes, done, job);
    FailedUsersStep(done, job);
    if IsFailed(job) {
      SumInc(types, FailureKey(job));
    }
  }

  /** `get_failure_summary`. */
  method GetFailureSummary(jobs: seq<JobRow>) returns (s: FailureSummary)
    ensures s.totalJobs == |jobs|
    ensures s.failedJobs == CountIf(jobs, IsFailed)
    ensures KeyTally(s.failureTypes, jobs)
    ensures SumValues(s.failureTypes) == s.failedJobs
    ensures CodeTally(s.exitCodes, jobs)
    ensures s.affectedUsers == FailedUsers(jobs)
    ensures s.failureRate == s.failedJobs as real / (if |jobs| > 1 then |jobs| else 1) as real
    ensures 0.0 <= s.failureRate <= 1.0
  {
    var failed, types, codes, users := TallyJobs(jobs);
    var denom := if |jobs| > 1 then |jobs| else 1;
    RateBounds(failed, denom);
    s := FailureSummary(|jobs|, failed, types, codes, users, failed as real / denom as real);
  }

  lemma RateBounds(failed: nat, denom: nat)
    requires 0 < denom && failed <= denom
    ensures 0.0 <= failed as real / denom as real <= 1.0
  {
  }

  /** The loop of `get_failure_summary` over the job rows. */
  method TallyJobs(jobs: seq<JobRow>)
    returns (failed: nat, types: seq<(string, int)>, codes: seq<(Option<int>, int)>, users: set<Option<string>>)
    ensures Tallied(failed, types, codes, users, jobs)
  {
    failed, types, codes, users := 0, [], [], {};
    var i := 0;
    while i < |jobs|
      invariant 0 <= i <= |jobs|
      invariant Tallied(failed, types, codes, users, jobs[..i])
    {
      var job := jobs[i];
      TallyStep(failed, types, codes, users, jobs[..i], job);
      assert jobs[..i + 1] == jobs[..i] + [job];
      if IsFailed(job) {
        failed := failed + 1;
        users := users + {job.userName};
        var reason := FailureKey(job);
        types := Inc(types, reason);
        if job.exitCode != Some(0) {
          codes := Inc(codes, job.exitCode);
        }
      }
      i := i + 1;
    }
    assert jobs[..i] == jobs;
  }

  // ---------------------------------------------------------------
  // Potential causes
  // ---------------------------------------------------------------

  /** The causes the node rules can name. */
  datatype CauseKind =
    | NotReporting | OutOfMemory | GpuIssue | HealthCheckFailed | AdminDrain
    | MemoryPressure | JobOomKills | HighFailureRate | CpuOverload | NoObviousIssues
  {
    /** The `cause` string the source stores. */
    function Name(): string
    {
      match this
      case NotReporting => "Node not reporting"
      case OutOfMemory => "Out of Memory (OOM)"
      case GpuIssue => "GPU Issue"
      case HealthCheckFailed => "Health Check Failed"
      case AdminDrain => "Admin Drain"
      case MemoryPressure => "Memory Pressure"
      case JobOomKills => "Job OOM Kills"
      case HighFailureRate => "High Job Failure Rate"
      case CpuOverload => "CPU Overload"
      case NoObviousIssues => "No obvious issues detected"
    }

    predicate IsDrain()
    {
      this == OutOfMemory || this == GpuIssue || this == HealthCheckFailed || this == AdminDrain
    }
  }

  /** A cause entry: its kind, a confidence label and a detail line. */
  datatype Cause = Cause(kind: CauseKind, confidence: string, detail: string)

  function Kinds(causes: seq<Cause>): (r: seq<CauseKind>)
    ensures |r| == |causes| && forall k :: 0 <= k < |r| ==> r[k] == causes[k].kind
  {
    seq(|causes|, k requires 0 <= k < |causes| => causes[k].kind)
  }

  predicate HasCause(causes: seq<Cause>, kind: CauseKind)
  {
    kind in Kinds(causes)
  }

  /** The drain-reason rule, on the lower-cased reason, first match wins. */
  function DrainCause(reason: string): (c: Cause)
    ensures c.kind.IsDrain()
  {
    var l := Lower(reason);
    if Contains(l, "oom") || Contains(l, "memory") then
      Cause(OutOfMemory, "high", "SLURM drain reason indicates memory issue: " + reason)
    else if Contains(l, "gpu") then
      Cause(GpuIssue, "high", "SLURM drain reason indicates GPU problem: " + reason)
    else if Contains(l, "health") then
      Cause(HealthCheckFailed, "high", "Node failed health check: " + reason)
    else
      Cause(AdminDrain, "medium", "Node was drained: " + reason)
  }

  /** The classification ignores letter case: a reason and its lower-cased form get the same kind. */
  lemma DrainCauseCaseInsensitive(reason: string)
    ensures DrainCause(reason).kind == DrainCause(Lower(reason)).kind
  {
    LowerIdempotent(reason);
  }

  predicate HasMemoryPressure(s: NodeStateRow)
  {
    s.memAllocPercent.Some? && s.memAllocPercent.value != 0.0 && s.memAllocPercent.value > 95.0
  }

  /** Jobs that ended with exit code 137, the SIGKILL the OOM killer sends. */
  function OomKillCount(f: FailureSummary): int
  {
    Get(f.exitCodes, Some(137)).GetOr(0)
  }

  predicate HasCpuOverload(s: NodeStateRow)
  {
    s.cpuLoad.Some? && s.cpusTotal.Some? && s.cpuLoad.value != 0.0 && s.cpusTotal.value != 0
    && s.cpuLoad.value > (s.cpusTotal.value * 2) as real
  }

  /** Some rule other than the fallback fires for a reporting node. */
  predicate AnyNodeIssue(s: NodeStateRow, f: FailureSummary)
  {
    Truthy(s.reason) || HasMemoryPressure(s) || OomKillCount(f) > 0 || f.failureRate > 0.3
    || HasCpuOverload(s)
  }

  lemma KindsConcat(a: seq<Cause>, b: seq<Cause>)
    ensures Kinds(a + b) == Kinds(a) + Kinds(b)
  {
  }

  // Each rule of `analyze_potential_causes` contributes zero or one cause.
  // The detail texts are kept in functions of their own so that reasoning
  // about which kinds fire does not unfold them.

  function DrainRule(s: NodeStateRow): seq<Cause>
  {
    if Truthy(s.reason) then [DrainCause(s.reason.value)] else []
  }

  function MemoryDetail(s: NodeStateRow): string
    requires s.memAllocPercent.Some?
  {
    "Memory allocation at " + Fixed1(s.memAllocPercent.value) + "% before issue"
  }

  function MemoryRule(s: NodeStateRow): seq<Cause>
  {
    if HasMemoryPressure(s) then [Cause(MemoryPressure, "medium", MemoryDetail(s))] else []
  }

  function OomDetail(f: FailureSummary): string
  {
    IntToString(OomKillCount(f)) + " jobs killed with exit code 137 (likely OOM)"
  }

  function OomRule(f: FailureSummary): seq<Cause>
  {
    if OomKillCount(f) > 0 then [Cause(JobOomKills, "medium", OomDetail(f))] else []
  }

  function FailureRateDetail(f: FailureSummary): string
  {
    Fixed0(f.failureRate * 100.0) + "% of recent jobs failed"
  }

  function FailureRateRule(f: FailureSummary): seq<Cause>
  {
    if f.failureRate > 0.3 then [Cause(HighFailureRate, "medium", FailureRateDetail(f))] else []
  }

  function CpuDetail(s: NodeStateRow): string
    requires s.cpuLoad.Some? && s.cpusTotal.Some?
  {
    "Load average (" + Fixed1(s.cpuLoad.value) + ") far exceeds CPU count (" + IntToString(s.cpusTotal.value) + ")"
  }

  function CpuRule(s: NodeStateRow): seq<Cause>
  {
    if HasCpuOverload(s) then [Cause(CpuOverload, "medium", CpuDetail(s))] else []
  }

  /** `analyze_potential_causes`; the unused history and job arguments are omitted. */
  method AnalyzePotentialCauses(state: Option<NodeStateRow>, failures: FailureSummary)
    returns (causes: seq<Cause>)
    ensures |causes| >= 1
    ensures state.None? ==> causes == [Cause(NotReporting, "high",
      "No recent data from node - may be powered off or network issue")]
    ensures state.Some? ==> ReportingFacts(state.value, failures, causes)
  {
    if state.None? {
      causes := [Cause(NotReporting, "high", "No recent data from node - may be powered off or network issue")];
      return;
    }
    var s := state.value;
    causes := DrainRule(s);
    causes := causes + MemoryRule(s);
    causes := causes + OomRule(failures);
    causes := causes + FailureRateRule(failures);
    causes := causes + CpuRule(s);
    if |causes| == 0 {
      causes := [Cause(NoObviousIssues, "low", "Manual investigation recommended")];
    }
    ReportingCauses(s, failures, causes);
  }

  /**
   * What the causes of a reporting node satisfy: a drain cause, when the
   * reason is set, comes first and is the only drain cause; each other
   * rule's cause is present iff its condition holds; the fallback appears
   * iff no rule fires, and then alone; "not reporting" never appears.
   */
  ghost predicate ReportingFacts(s: NodeStateRow, f: FailureSummary, causes: seq<Cause>)
  {
    ReportingOrder(s, causes) && ReportingKinds(s, f, causes)
  }

  ghost predicate ReportingOrder(s: NodeStateRow, causes: seq<Cause>)
  {
    && |causes| >= 1
    && (Truthy(s.reason) ==> causes[0] == DrainCause(s.reason.value))
    && NoDrainFrom(Kinds(causes), if Truthy(s.reason) then 1 else 0)
  }

  ghost predicate ReportingKinds(s: NodeStateRow, f: FailureSummary, causes: seq<Cause>)
  {
    && (HasCause(causes, MemoryPressure) <==> HasMemoryPressure(s))
    && (HasCause(causes, JobOomKills) <==> OomKillCount(f) > 0)
    && (HasCause(causes, HighFailureRate) <==> f.failureRate > 0.3)
    && (HasCause(causes, CpuOverload) <==> HasCpuOverload(s))
    && (HasCause(causes, NoObviousIssues) <==> !AnyNodeIssue(s, f))
    && (HasCause(causes, NoObviousIssues) ==> |causes| == 1)
    && !HasCause(causes, NotReporting)
  }

  function Rules(s: NodeStateRow, f: FailureSummary): seq<Cause>
  {
    DrainRule(s) + MemoryRule(s) + OomRule(f) + FailureRateRule(f) + CpuRule(s)
  }

  const Fallback := Cause(NoObviousIssues, "low", "Manual investigation recommended")

  /** The causes for a reporting node: the five rules in order, or the fallback when none fires. */
  lemma ReportingCauses(s: NodeStateRow, f: FailureSummary, causes: seq<Cause>)
    requires causes == if |Rules(s, f)| == 0 then [Fallback] else Rules(s, f)
    ensures ReportingFacts(s, f, causes)
  {
    var drain, mem, oom, rate, cpu := DrainKind(s), HasMemoryPressure(s), OomKillCount(f) > 0, f.failureRate > 0.3, HasCpuOverload(s);
    RuleCauses(s, f);
    RuleKindSeqMembers(drain, mem, oom, rate, cpu);
    RuleKindSeqDrains(drain, mem, oom, rate, cpu);
    if |Rules(s, f)| == 0 {
      FallbackFacts(s, f, drain, mem, oom, rate, cpu);
    } else {
      DrainFirst(s, MemoryRule(s), OomRule(f), FailureRateRule(f), CpuRule(s));
      RulesOrder(s, f, RuleKindSeq(drain, mem, oom, rate, cpu));
      RulesKindsFacts(s, f, RuleKindSeq(drain, mem, oom, rate, cpu));
    }
  }

  lemma FallbackFacts(s: NodeStateRow, f: FailureSummary, drain: Option<CauseKind>, mem: bool, oom: bool, rate: bool, cpu: bool)
    requires drain == DrainKind(s) && mem == HasMemoryPressure(s) && oom == (OomKillCount(f) > 0)
    requires rate == (f.failureRate > 0.3) && cpu == HasCpuOverload(s)
    requires drain.None? && !mem && !oom && !rate && !cpu
    ensures ReportingFacts(s, f, [Fallback])
  {
    assert Kinds([Fallback]) == [NoObviousIssues];
  }

  lemma RulesOrder(s: NodeStateRow, f: FailureSummary, ks: seq<CauseKind>)
    requires |Rules(s, f)| > 0 && Kinds(Rules(s, f)) == ks
    requires Truthy(s.reason) ==> Rules(s, f)[0] == DrainCause(s.reason.value)
    requires NoDrainFrom(ks, if Truthy(s.reason) then 1 else 0)
    ensures ReportingOrder(s, Rules(s, f))
  {
  }

  lemma RulesKindsFacts(s: NodeStateRow, f: FailureSummary, ks: seq<CauseKind>)
    requires |Rules(s, f)| > 0 && Kinds(Rules(s, f)) == ks
    requires MemoryPressure in ks <==> HasMemoryPressure(s)
    requires JobOomKills in ks <==> OomKillCount(f) > 0
    requires HighFailureRate in ks <==> f.failureRate > 0.3
    requires CpuOverload in ks <==> HasCpuOverload(s)
    requires NoObviousIssues !in ks && NotReporting !in ks
    ensures ReportingKinds(s, f, Rules(s, f))
  {
  }

  lemma DrainFirst(s: NodeStateRow, m: seq<Cause>, o: seq<Cause>, r: seq<Cause>, c: seq<Cause>)
    ensures Truthy(s.reason) ==> (DrainRule(s) + m + o + r + c)[0] == DrainCause(s.reason.value)
  {
  }

  /** The kinds the five rules produce, in rule order, given which of them fire. */
  function RuleKindSeq(drain: Option<CauseKind>, mem: bool, oom: bool, rate: bool, cpu: bool): seq<CauseKind>
  {
    (if drain.Some? then [drain.value] else [])
    + (if mem then [MemoryPressure] else [])
    + (if oom then [JobOomKills] else [])
    + (if rate then [HighFailureRate] else [])
    + (if cpu then [CpuOverload] else [])
  }

  /** Each rule's kind is present iff the rule fires, and the fallback kinds never are. */
  lemma RuleKindSeqMembers(drain: Option<CauseKind>, mem: bool, oom: bool, rate: bool, cpu: bool)
    requires drain.Some? ==> drain.value.IsDrain()
    ensures var ks := RuleKindSeq(drain, mem, oom, rate, cpu);
      && (MemoryPressure in ks <==> mem)
      && (JobOomKills in ks <==> oom)
      && (HighFailureRate in ks <==> rate)
      && (CpuOverload in ks <==> cpu)
      && NoObviousIssues !in ks && NotReporting !in ks
      && (|ks| == 0 <==> drain.None? && !mem && !oom && !rate && !cpu)
  {
  }

  predicate NoDrainFrom(ks: seq<CauseKind>, first: nat)
  {
    forall k :: first <= k < |ks| ==> !ks[k].IsDrain()
  }

  lemma AppendNoDrain(ks: seq<CauseKind>, first: nat, extra: seq<CauseKind>)
    requires first <= |ks| && NoDrainFrom(ks, first)
    requires forall k :: 0 <= k < |extra| ==> !extra[k].IsDrain()
    ensures NoDrainFrom(ks + extra, first)
  {
    forall k | first <= k < |ks + extra|
      ensures !(ks + extra)[k].IsDrain()
    {
      if k >= |ks| {
        assert (ks + extra)[k] == extra[k - |ks|];
      }
    }
  }

  /** A drain kind can only come first. */
  lemma RuleKindSeqDrains(drain: Option<CauseKind>, mem: bool, oom: bool, rate: bool, cpu: bool)
    ensures var ks := RuleKindSeq(drain, mem, oom, rate, cpu);
      && (drain.Some? ==> ks[0] == drain.value)
      && NoDrainFrom(ks, if drain.Some? then 1 else 0)
  {
    var d := if drain.Some? then [drain.value] else [];
    var k1 := d + (if mem then [MemoryPressure] else []);
    var k2 := k1 + (if oom then [JobOomKills] else []);
    var k3 := k2 + (if rate then [HighFailureRate] else []);
    AppendNoDrain(d, |d|, if mem then [MemoryPressure] else []);
    AppendNoDrain(k1, |d|, if oom then [JobOomKills] else []);
    AppendNoDrain(k2, |d|, if rate then [HighFailureRate] else []);
    AppendNoDrain(k3, |d|, if cpu then [CpuOverload] else []);
  }

  function DrainKind(s: NodeStateRow): Option<CauseKind>
  {
    if Truthy(s.reason) then Some(DrainCause(s.reason.value).kind) else None
  }

  /** The kinds the five rules contribute together, for a reporting node. */
  lemma RuleCauses(s: NodeStateRow, f: FailureSummary)
    ensures Kinds(Rules(s, f))
      == RuleKindSeq(DrainKind(s), HasMemoryPressure(s), OomKillCount(f) > 0, f.failureRate > 0.3, HasCpuOverload(s))
  {
    var d, m, o, r, c := DrainRule(s), MemoryRule(s), OomRule(f), FailureRateRule(f), CpuRule(s);
    DrainRuleKinds(s);
    MemoryRuleKinds(s);
    OomRuleKinds(f);
    FailureRateRuleKinds(f);
    CpuRuleKinds(s);
    KindsConcat(d, m);
    KindsConcat(d + m, o);
    KindsConcat(d + m + o, r);
    KindsConcat(d + m + o + r, c);
  }

  // Each rule contributes exactly its own kind, when it fires.

  lemma DrainRuleKinds(s: NodeStateRow)
    ensures Kinds(DrainRule(s)) == if Truthy(s.reason) then [DrainCause(s.reason.value).kind] else []
  {
    KindsOfOne(DrainRule(s));
  }

  lemma MemoryRuleKinds(s: NodeStateRow)
    ensures Kinds(MemoryRule(s)) == if HasMemoryPressure(s) then [MemoryPressure] else []
  {
    KindsOfOne(MemoryRule(s));
  }

  lemma OomRuleKinds(f: FailureSummary)
    ensures Kinds(OomRule(f)) == if OomKillCount(f) > 0 then [JobOomKills] else []
  {
    KindsOfOne(OomRule(f));
  }

  lemma FailureRateRuleKinds(f: FailureSummary)
    ensures Kinds(FailureRateRule(f)) == if f.failureRate > 0.3 then [HighFailureRate] else []
  {
    KindsOfOne(FailureRateRule(f));
  }

  lemma CpuRuleKinds(s: NodeStateRow)
    ensures Kinds(CpuRule(s)) == if HasCpuOverload(s) then [CpuOverload] else []
  {
    KindsOfOne(CpuRule(s));
  }

  lemma KindsOfOne(cs: seq<Cause>)
    requires |cs| <= 1
    ensures Kinds(cs) == if |cs| == 0 then [] else [cs[0].kind]
  {
  }

  // ---------------------------------------------------------------
  // Recommendations
  // ---------------------------------------------------------------

  /**
   * The recommendation messages, one constructor per distinct message;
   * `Text` is the exact wording. The messages are pairwise different, so
   * removing duplicate entries removes duplicate texts.
   */
  datatype NodeAdvice =
    | CheckDmesgOom | ReviewMemoryLimits | AddMemoryConstraints
    | CheckGpuStatus | CheckGpuDriver | ReviewGpuLogs
    | RunHealthCheck | CheckHealthScript
    | ReviewRunningJobs | CheckMemoryLeaks
    | CheckRunaway | ReviewCpuBound
    | PingNode | CheckSsh | CheckSlurmd | CheckPower
    | ResumeNode | NodeHealthy
  {
    function Text(): string
    {
      match this
      case CheckDmesgOom => "Check dmesg for OOM killer messages: dmesg | grep -i oom"
      case ReviewMemoryLimits => "Review memory limits for jobs on this node"
      case AddMemoryConstraints => "Consider adding memory constraints to partition"
      case CheckGpuStatus => "Check GPU status: nvidia-smi"
      case CheckGpuDriver => "Check GPU driver: nvidia-smi -q"
      case ReviewGpuLogs => "Review GPU error logs: dmesg | grep -i nvidia"
      case RunHealthCheck => "Run manual health check: scontrol show node <node>"
      case CheckHealthScript => "Check SLURM health check script output"
      case ReviewRunningJobs => "Review running jobs: squeue -w <node>"
      case CheckMemoryLeaks => "Check for memory leaks in long-running jobs"
      case CheckRunaway => "Check for runaway processes: top -bn1"
      case ReviewCpuBound => "Review CPU-bound jobs for inefficiencies"
      case PingNode => "Ping node: ping <node>"
      case CheckSsh => "Check SSH access: ssh <node> hostname"
      case CheckSlurmd => "Check SLURM daemon: systemctl status slurmd"
      case CheckPower => "Check power/IPMI if available"
      case ResumeNode => "Resume node after fixing: scontrol update nodename=<node> state=resume"
      case NodeHealthy => "Node appears healthy - no action required"
    }
  }

  /** What each cause contributes; kinds without an entry contribute nothing. */
  function CauseRecs(kind: CauseKind): (r: seq<NodeAdvice>)
    ensures ResumeNode !in r && NodeHealthy !in r
  {
    match kind
    case OutOfMemory => [CheckDmesgOom, ReviewMemoryLimits, AddMemoryConstraints]
    case GpuIssue => [CheckGpuStatus, CheckGpuDriver, ReviewGpuLogs]
    case HealthCheckFailed => [RunHealthCheck, CheckHealthScript]
    case MemoryPressure => [ReviewRunningJobs, CheckMemoryLeaks]
    case CpuOverload => [CheckRunaway, ReviewCpuBound]
    case NotReporting => [PingNode, CheckSsh, CheckSlurmd, CheckPower]
    case _ => []
  }

  function RecsOf(c: Cause): seq<NodeAdvice>
  {
    CauseRecs(c.kind)
  }

  /** Reference definition: every cause's recommendations in cause order, then the closing entry, then `dict.fromkeys`. */
  function NodeRecommendations(causes: seq<Cause>): seq<NodeAdvice>
  {
    var raw := FlatMap(causes, RecsOf);
    Dedup(raw + [if |raw| > 0 then ResumeNode else NodeHealthy])
  }

  predicate SomeCauseHasRecs(causes: seq<Cause>)
  {
    exists k :: 0 <= k < |causes| && RecsOf(causes[k]) != []
  }

  /**
   * The promises of `generate_recommendations`: no duplicates; the resume
   * step closes the list iff some cause has recommendations, and otherwise
   * the healthy message is all there is; every cause's advice is present;
   * nothing else is.
   */
  lemma NodeRecommendationsSpec(causes: seq<Cause>)
    ensures var r := NodeRecommendations(causes);
      && NoDup(r)
      && (SomeCauseHasRecs(causes) ==> |r| > 1 && r[|r| - 1] == ResumeNode)
      && (!SomeCauseHasRecs(causes) ==> r == [NodeHealthy])
      && (forall k, m :: 0 <= k < |causes| && 0 <= m < |RecsOf(causes[k])| ==> RecsOf(causes[k])[m] in r)
      && (forall x :: x in r ==>
            (x == ResumeNode || x == NodeHealthy || exists k :: 0 <= k < |causes| && x in RecsOf(causes[k])))
  {
    NodeRecommendationsClose(causes);
    NodeRecommendationsContents(causes);
  }

  /** No duplicates, and the closing entry is the resume step or the healthy message. */
  lemma NodeRecommendationsClose(causes: seq<Cause>)
    ensures var r := NodeRecommendations(causes);
      && NoDup(r)
      && (SomeCauseHasRecs(causes) ==> |r| > 1 && r[|r| - 1] == ResumeNode)
      && (!SomeCauseHasRecs(causes) ==> r == [NodeHealthy])
  {
    var raw := FlatMap(causes, RecsOf);
    FlatMapEmpty(causes, RecsOf);
    DedupSpec(raw + [if |raw| > 0 then ResumeNode else NodeHealthy]);
    if |raw| > 0 {
      FlatMapMembers(causes, RecsOf, ResumeNode);
      DedupAppendNew(raw, ResumeNode);
      DedupEmpty(raw);
    } else {
      assert raw + [NodeHealthy] == [NodeHealthy];
      assert Dedup([NodeHealthy]) == Dedup([]) + [NodeHealthy];
    }
  }

  /** Every cause's advice is present, and nothing but advice and the closing entries. */
  lemma NodeRecommendationsContents(causes: seq<Cause>)
    ensures var r := NodeRecommendations(causes);
      && (forall k, m :: 0 <= k < |causes| && 0 <= m < |RecsOf(causes[k])| ==> RecsOf(causes[k])[m] in r)
      && (forall x :: x in r ==>
            (x == ResumeNode || x == NodeHealthy || exists k :: 0 <= k < |causes| && x in RecsOf(causes[k])))
  {
    var raw := FlatMap(causes, RecsOf);
    var r := NodeRecommendations(causes);
    DedupSpec(raw + [if |raw| > 0 then ResumeNode else NodeHealthy]);
    forall k, m | 0 <= k < |causes| && 0 <= m < |RecsOf(causes[k])|
      ensures RecsOf(causes[k])[m] in r
    {
      FlatMapMembers(causes, RecsOf, RecsOf(causes[k])[m]);
    }
    forall x | x in r
      ensures x == ResumeNode || x == NodeHealthy || exists k :: 0 <= k < |causes| && x in RecsOf(causes[k])
    {
      FlatMapMembers(causes, RecsOf, x);
    }
  }

  /** `generate_recommendations`; the unused state and failure arguments are omitted. */
  method GenerateRecommendations(causes: seq<Cause>) returns (recs: seq<NodeAdvice>)
    ensures recs == NodeRecommendations(causes)
  {
    var raw: seq<NodeAdvice> := [];
    var i := 0;
    while i < |causes|
      invariant 0 <= i <= |causes|
      invariant raw == FlatMap(causes[..i], RecsOf)
    {
      assert causes[..i + 1] == causes[..i] + [causes[i]];
      FlatMapAppend(causes[..i], causes[i], RecsOf);
      raw := raw + CauseRecs(causes[i].kind);
      i := i + 1;
    }
    assert causes[..i] == causes;
    if |raw| > 0 {
      raw := raw + [ResumeNode];
    } else {
      raw := raw + [NodeHealthy];
    }
    recs := DedupLoop(raw);
  }

  // ---------------------------------------------------------------
  // Diagnosis
  // ---------------------------------------------------------------

  datatype ResourceHistory = ResourceHistory(
    samples: nat,
    avgCpuLoad: real,
    avgMemPct: real,
    stateChanges: nat)

  datatype NodeDiagnostic = NodeDiagnostic(
    nodeName: string,
    cluster: string,
    currentState: Option<string>,
    drainReason: Option<string>,
    lastSeen: Option<string>,
    stateHistory: seq<HistoryRow>,
    resourceHistory: Option<ResourceHistory>,
    recentJobs: seq<JobRow>,
    activeUsers: set<string>,
    failureSummary: FailureSummary,
    potentialCauses: seq<Cause>,
    recommendations: seq<NodeAdvice>)

  function CpuLoadOrZero(h: HistoryRow): real { h.cpuLoad.GetOr(0.0) }
  function MemPctOrZero(h: HistoryRow): real { h.memAllocPercent.GetOr(0.0) }
  function StateOf(h: HistoryRow): Option<string> { h.state }

  /**
   * The resource-history aggregate: the sample count, the mean load and
   * memory with NULL read as 0, and the number of distinct states; no
   * rows give no aggregate.
   */
  function ResourceSummary(history: seq<HistoryRow>): (r: Option<ResourceHistory>)
    ensures r.None? <==> |history| == 0
    ensures r.Some? ==>
      && r.value.samples == |history|
      && r.value.stateChanges == |ImageSet(history, StateOf)|
      && 1 <= r.value.stateChanges <= r.value.samples
      && r.value.avgCpuLoad * |history| as real == SumBy(history, CpuLoadOrZero)
      && r.value.avgMemPct * |history| as real == SumBy(history, MemPctOrZero)
  {
    if |history| == 0 then None
    else
      ImageSetSize(history, StateOf);
      assert StateOf(history[0]) in ImageSet(history, StateOf);
      var n := |history|;
      Some(ResourceHistory(
        n,
        SumBy(history, CpuLoadOrZero) / n as real,
        SumBy(history, MemPctOrZero) / n as real,
        |ImageSet(history, StateOf)|))
  }

  /** The named users of the first ten jobs, as a set. */
  function ActiveUsers(jobs: seq<JobRow>): set<string>
  {
    set j | j in Take(jobs, 10) && Truthy(j.userName) :: j.userName.value
  }

  /**
   * `diagnose_node` once the three queries have run: `state` is the latest
   * state row (None when the node has none), `history` the rows of the
   * window, newest first, and `jobs` the most recent jobs.
   */
  method DiagnoseNode(cluster: string, nodeName: string, state: Option<NodeStateRow>,
                      history: seq<HistoryRow>, jobs: seq<JobRow>)
    returns (d: NodeDiagnostic)
    ensures |d.stateHistory| == if |history| < 10 then |history| else 10
    ensures d.stateHistory == history[..|d.stateHistory|]
    ensures |d.recentJobs| == if |jobs| < 10 then |jobs| else 10
    ensures d.recentJobs == jobs[..|d.recentJobs|]
    ensures d.resourceHistory == ResourceSummary(history)
    ensures d.activeUsers == ActiveUsers(jobs)
    ensures d.currentState == if state.Some? then state.value.state else Some("NOT_FOUND")
    ensures d.drainReason == if state.Some? then state.value.reason else None
    ensures d.lastSeen == if state.Some? then state.value.timestamp else None
    ensures d.failureSummary.totalJobs == |jobs|
    ensures d.failureSummary.failedJobs == CountIf(jobs, IsFailed)
    ensures KeyTally(d.failureSummary.failureTypes, jobs)
    ensures CodeTally(d.failureSummary.exitCodes, jobs)
    ensures d.failureSummary.affectedUsers == FailedUsers(jobs)
    ensures d.failureSummary.failureRate == d.failureSummary.failedJobs as real / (if |jobs| > 1 then |jobs| else 1) as real
    ensures |d.potentialCauses| >= 1
    ensures state.None? ==> d.potentialCauses == [Cause(NotReporting, "high",
      "No recent data from node - may be powered off or network issue")]
    ensures state.Some? ==> ReportingFacts(state.value, d.failureSummary, d.potentialCauses)
    ensures d.recommendations == NodeRecommendations(d.potentialCauses)
  {
    var failures := GetFailureSummary(jobs);
    var causes := AnalyzePotentialCauses(state, failures);
    var recs := GenerateRecommendations(causes);
    var resource := ResourceSummary(history);
    d := NodeDiagnostic(
      nodeName, cluster,
      if state.Some? then state.value.state else Some("NOT_FOUND"),
      if state.Some? then state.value.reason else None,
      if state.Some? then state.value.timestamp else None,
      Take(history, 10),
      resource,
      Take(jobs, 10),
      ActiveUsers(jobs),
      failures, causes, recs);
  }
}
