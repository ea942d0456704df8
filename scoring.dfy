// The proficiency scoring engine: five per-job dimensions, each a clamped
// 0-100 score with a proficiency level, and the fingerprint that collects
// them. Rows of the `jobs` and `job_summary` tables are maps from column
// to value; the explanatory text of each dimension is left out.
module Scoring {
  import opened Wrappers
  import opened Text
  import opened Lists
  import opened Sorting

  // ---------------------------------------------------------------
  // Rows
  // ---------------------------------------------------------------

  /** The columns the engine reads, plus any other column by name. */
  datatype Field =
    | JobId | UserName | Partition | NodeList | JobName | State | ExitCode | ExitSignal
    | FailureReason | SubmitTime | StartTime | EndTime | ReqCpus | ReqMemMb | ReqGpus
    | ReqTimeSeconds | RuntimeSeconds | WaitTimeSeconds
    | PeakCpuPercent | PeakCpuPct | PeakMemoryGb | PeakMemGb | AvgCpuPercent | AvgCpuPct
    | AvgMemoryGb | AvgIoWaitPercent | AvgIoWaitPct | TotalNfsReadGb | TotalNfsWriteGb
    | TotalLocalReadGb | TotalLocalWriteGb | NfsRatio | UsedGpu | HealthScore
    | Other(name: string)

  /** A column value: SQL NULL (Python `None`), a number or a text. */
  datatype Value = Null | Num(n: real) | Str(s: string)
  {
    /** Python truthiness. */
    predicate Truthy()
    {
      match this
      case Null => false
      case Num(n) => n != 0.0
      case Str(s) => s != ""
    }

    /** The number a numeric column holds; anything else reads as 0 (only used on truthy numbers). */
    function AsReal(): real
    {
      if Num? then n else 0.0
    }
  }

  type Row = map<Field, Value>

  /** A text that Python reads as true; arithmetic or an ordering test on it raises a TypeError. */
  predicate TruthyText(v: Value)
  {
    v.Str? && v.Truthy()
  }

  /** `row.get(k, default)`. */
  function Get(row: Row, f: Field, default: Value): Value
  {
    if f in row then row[f] else default
  }

  /** `row.get(a) or row.get(b) or 0`: the first truthy value, else the number 0. */
  function FirstTruthyValue(row: Row, a: Field, b: Field): Value
  {
    var x := Get(row, a, Null);
    var y := Get(row, b, Null);
    if x.Truthy() then x else if y.Truthy() then y else Num(0.0)
  }

  /** The same on numeric columns, as a number. */
  function FirstTruthy(row: Row, a: Field, b: Field): real
  {
    FirstTruthyValue(row, a, b).AsReal()
  }

  // ---------------------------------------------------------------
  // Proficiency levels
  // ---------------------------------------------------------------

  datatype Level = Excellent | Good | Developing | NeedsWork | Unknown | NotApplicable
  {
    function Label(): string
    {
      match this
      case Excellent => "Excellent"
      case Good => "Good"
      case Developing => "Developing"
      case NeedsWork => "Needs Work"
      case Unknown => "Unknown"
      case NotApplicable => "N/A"
    }
  }

  /** The level table, highest threshold first. */
  const Levels: seq<(real, Level)> := [(85.0, Excellent), (65.0, Good), (40.0, Developing), (0.0, NeedsWork)]

  /** The label of the first threshold the score reaches; "Needs Work" past the end. */
  function FirstReached(table: seq<(real, Level)>, score: real): Level
  {
    if |table| == 0 then NeedsWork
    else if score >= table[0].0 then table[0].1
    else FirstReached(table[1..], score)
  }

  function ProficiencyLevel(score: real): (l: Level)
    ensures l == Excellent <==> score >= 85.0
    ensures l == Good <==> 65.0 <= score < 85.0
    ensures l == Developing <==> 40.0 <= score < 65.0
    ensures l == NeedsWork <==> score < 40.0
  {
    LevelsTable(score);
    FirstReached(Levels, score)
  }

  /** Walking the table tries 85, 65, 40 and 0 in turn. */
  lemma LevelsTable(score: real)
    ensures FirstReached(Levels, score)
      == if score >= 85.0 then Excellent else if score >= 65.0 then Good
         else if score >= 40.0 then Developing else NeedsWork
  {
    var t1, t2, t3 := Levels[1..], Levels[2..], Levels[3..];
    assert t1[1..] == t2 && t2[1..] == t3 && t3[1..] == [];
    assert FirstReached(Levels, score) == if score >= 85.0 then Excellent else FirstReached(t1, score);
    assert FirstReached(t1, score) == if score >= 65.0 then Good else FirstReached(t2, score);
    assert FirstReached(t2, score) == if score >= 40.0 then Developing else FirstReached(t3, score);
    assert FirstReached(t3, score) == if score >= 0.0 then NeedsWork else FirstReached([], score);
  }

  /** The levels in order of proficiency. */
  function Rank(l: Level): nat
  {
    match l
    case Excellent => 3
    case Good => 2
    case Developing => 1
    case _ => 0
  }

  /** A higher score never gets a lower level. */
  lemma ProficiencyMonotone(a: real, b: real)
    requires a <= b
    ensures Rank(ProficiencyLevel(a)) <= Rank(ProficiencyLevel(b))
  {
  }

  // ---------------------------------------------------------------
  // Bars
  // ---------------------------------------------------------------

  /** `c * n`: empty for a non-positive count. */
  function Repeat(c: char, n: int): (r: string)
    ensures |r| == if n <= 0 then 0 else n
    ensures forall k :: 0 <= k < |r| ==> r[k] == c
  {
    if n <= 0 then [] else Repeat(c, n - 1) + [c]
  }

  /** The number of filled cells: `round(score / 100 * width)`, half to even. */
  function Filled(score: real, width: int): int
  {
    RoundHalfEven(Scaled(score, width))
  }

  function Scaled(score: real, width: int): real
  {
    score / 100.0 * width as real
  }

  function Bar(score: real, width: int): string
  {
    Repeat('█', Filled(score, width)) + Repeat('░', width - Filled(score, width))
  }

  /** For a score in [0, 100] between none and all of the cells are filled. */
  lemma FilledWithin(score: real, width: int)
    requires 0.0 <= score <= 100.0 && width >= 0
    ensures 0 <= Filled(score, width) <= width
  {
    ScaledWithin(score, width);
    RoundWithin(Scaled(score, width), width);
  }

  lemma RoundWithin(y: real, n: int)
    requires 0.0 <= y <= n as real
    ensures 0 <= RoundHalfEven(y) <= n
  {
    RoundHalfEvenMonotone(0 as real, y);
    RoundHalfEvenMonotone(y, n as real);
    RoundHalfEvenOfInt(0);
    RoundHalfEvenOfInt(n);
  }

  /** For a score in [0, 100] the bar has exactly `width` cells, the filled ones first. */
  lemma BarShape(score: real, width: int)
    requires 0.0 <= score <= 100.0 && width >= 0
    ensures |Bar(score, width)| == width
    ensures forall k :: 0 <= k < width ==> Bar(score, width)[k] == if k < Filled(score, width) then '█' else '░'
  {
    FilledWithin(score, width);
  }

  lemma ScaledWithin(score: real, width: int)
    requires 0.0 <= score <= 100.0 && width >= 0
    ensures 0.0 <= Scaled(score, width) <= width as real
  {
    var x, w := score / 100.0, width as real;
    assert 0.0 <= x <= 1.0;
    assert (1.0 - x) * w >= 0.0;
    assert Scaled(score, width) == x * w;
  }

  // ---------------------------------------------------------------
  // Dimension scores
  // ---------------------------------------------------------------

  datatype Dim = Cpu | Memory | Time | Io | Gpu
  {
    /** The dictionary key of the fingerprint. */
    function Key(): string
    {
      match this
      case Cpu => "cpu"
      case Memory => "memory"
      case Time => "time"
      case Io => "io"
      case Gpu => "gpu"
    }

    function Title(): string
    {
      match this
      case Cpu => "CPU Efficiency"
      case Memory => "Memory Efficiency"
      case Time => "Time Estimation"
      case Io => "I/O Awareness"
      case Gpu => "GPU Utilization"
    }
  }

  /** One dimension's score; `round(score, 1)`, the detail and the suggestion are left out. */
  datatype DimensionScore = DimensionScore(dim: Dim, score: real, level: Level, applicable: bool)

  function Min(a: real, b: real): real { if b < a then b else a }
  function Max(a: real, b: real): real { if b > a then b else a }
  function Abs(x: real): real { if x < 0.0 then -x else x }

  /** `min(100, max(0, x))`. */
  function Clamp100(x: real): (r: real)
    ensures 0.0 <= r <= 100.0
    ensures 0.0 <= x <= 100.0 ==> r == x
  {
    Min(100.0, Max(0.0, x))
  }

  /** A dimension without data: not applicable, with the placeholder score. */
  function Unscored(d: Dim, score: real, level: Level): DimensionScore
  {
    DimensionScore(d, score, level, false)
  }

  /** An applicable score whose level follows the thresholds. */
  function Scored(d: Dim, score: real): DimensionScore
  {
    DimensionScore(d, score, ProficiencyLevel(score), true)
  }

  // CPU

  function CpuAverage(summary: Row): real
  {
    FirstTruthy(summary, AvgCpuPercent, AvgCpuPct)
  }

  /** `min(100, 1.1 * avg)`. */
  function CpuScoreOf(avg: real): (s: real)
    ensures s <= 100.0
    ensures avg > 0.0 ==> s > 0.0
    ensures s == 100.0 <==> avg * 1.1 >= 100.0
  {
    Min(100.0, avg * 1.1)
  }

  /** More CPU use never scores lower. */
  lemma CpuScoreMonotone(a: real, b: real)
    requires a <= b
    ensures CpuScoreOf(a) <= CpuScoreOf(b)
  {
  }

  /**
   * `score_cpu` raises nothing: the average is not a text (it is multiplied
   * by 1.1), and with a truthy average `req_cpus` (default 1) is a number,
   * since the effective-core count multiplies by it.
   */
  predicate CpuScorable(job: Row, summary: Row)
  {
    var avg := FirstTruthyValue(summary, AvgCpuPercent, AvgCpuPct);
    !avg.Str? && (avg.Truthy() ==> Get(job, ReqCpus, Num(1.0)).Num?)
  }

  /** No average CPU (missing, NULL or zero): not applicable at 50; otherwise its score and level. */
  function ScoreCpu(job: Row, summary: Row): (d: DimensionScore)
    requires CpuScorable(job, summary)
    ensures CpuAverage(summary) >= 0.0 ==> 0.0 <= d.score <= 100.0
    ensures d.dim == Cpu
    ensures d.applicable <==> CpuAverage(summary) != 0.0
    ensures !d.applicable ==> d.score == 50.0 && d.level == Unknown
    ensures d.applicable ==> d.score == CpuScoreOf(CpuAverage(summary)) && d.level == ProficiencyLevel(d.score)
  {
    var avg := CpuAverage(summary);
    if avg == 0.0 then Unscored(Cpu, 50.0, Unknown) else Scored(Cpu, CpuScoreOf(avg))
  }

  // Memory

  /** The state column upper-cased, "" when absent. */
  function JobState(job: Row): string
  {
    var v := Get(job, State, Str(""));
    if v.Str? then Upper(v.s) else ""
  }

  /** `job.get("state", "")` is a text, so `.upper()` does not raise. */
  predicate StateIsText(job: Row)
  {
    Get(job, State, Str("")).Str?
  }

  predicate OutOfMemory(job: Row)
  {
    JobState(job) == "OUT_OF_MEMORY" || JobState(job) == "OOM"
  }

  function PeakMemory(summary: Row): real
  {
    FirstTruthy(summary, PeakMemoryGb, PeakMemGb)
  }

  /** The requested memory in GB; 0 when the column is falsy. */
  function RequestedMemory(job: Row): real
  {
    var v := Get(job, ReqMemMb, Num(0.0));
    if v.Truthy() then v.AsReal() / 1024.0 else 0.0
  }

  /** The piecewise memory score over the utilisation percentage, before clamping. */
  function MemoryRaw(u: real): real
  {
    if 50.0 <= u <= 90.0 then 85.0 + (1.0 - Abs(u - 70.0) / 20.0) * 15.0
    else if 90.0 < u <= 100.0 then 75.0
    else if u > 100.0 then 60.0
    else if 30.0 <= u < 50.0 then 55.0 + (u - 30.0) * 1.5
    else if 10.0 <= u < 30.0 then 25.0 + (u - 10.0) * 1.5
    else Max(5.0, u * 2.5)
  }

  function MemoryScoreOf(u: real): (s: real)
    ensures 0.0 <= s <= 100.0
  {
    Clamp100(MemoryRaw(u))
  }

  /** The ideal zone: exactly the utilisations from 50% to 90% score 85 or more. */
  lemma MemoryIdealZone(u: real)
    ensures MemoryScoreOf(u) >= 85.0 <==> 50.0 <= u <= 90.0
  {
  }

  /** The score peaks, at 100, at 70% utilisation and nowhere else. */
  lemma MemoryPeak(u: real)
    ensures MemoryScoreOf(u) == 100.0 <==> u == 70.0
  {
  }

  /**
   * `score_memory` raises nothing: the state is a text, a truthy
   * `req_mem_mb` is a number (it is divided by 1024), and a peak that reads
   * as a text is never used in arithmetic. It is, in the out-of-memory branch
   * (`peak * 1.5`) and whenever a memory request was made (`peak / req`).
   */
  predicate MemoryScorable(job: Row, summary: Row)
  {
    && StateIsText(job)
    && !TruthyText(Get(job, ReqMemMb, Num(0.0)))
    && (FirstTruthyValue(summary, PeakMemoryGb, PeakMemGb).Str? ==>
          !OutOfMemory(job) && !Get(job, ReqMemMb, Num(0.0)).Truthy())
  }

  /**
   * An out-of-memory job scores 15, "Needs Work", whatever its usage; a
   * job without peak or request data is not applicable at 50.
   */
  function ScoreMemory(job: Row, summary: Row): (d: DimensionScore)
    requires MemoryScorable(job, summary)
    ensures 0.0 <= d.score <= 100.0
    ensures d.dim == Memory
    ensures OutOfMemory(job) ==> d.score == 15.0 && d.level == NeedsWork && d.applicable
    ensures !OutOfMemory(job) && (PeakMemory(summary) == 0.0 || RequestedMemory(job) == 0.0) ==>
      d.score == 50.0 && d.level == Unknown && !d.applicable
    ensures !OutOfMemory(job) && PeakMemory(summary) != 0.0 && RequestedMemory(job) != 0.0 ==>
      && d.applicable && 0.0 <= d.score <= 100.0 && d.level == ProficiencyLevel(d.score)
      && d.score == MemoryScoreOf(PeakMemory(summary) / RequestedMemory(job) * 100.0)
  {
    if OutOfMemory(job) then DimensionScore(Memory, 15.0, NeedsWork, true)
    else
      var peak := PeakMemory(summary);
      var req := RequestedMemory(job);
      if peak == 0.0 || req == 0.0 then Unscored(Memory, 50.0, Unknown)
      else Scored(Memory, MemoryScoreOf(peak / req * 100.0))
  }

  // Time

  predicate TimedOut(job: Row)
  {
    JobState(job) == "TIMEOUT"
  }

  /** The piecewise time score over runtime / requested time, before clamping. */
  function TimeRaw(r: real): real
  {
    if 0.50 <= r <= 0.85 then 85.0 + (1.0 - Abs(r - 0.67) / 0.18) * 15.0
    else if 0.85 < r <= 1.0 then 75.0
    else if r > 1.0 then 50.0
    else if 0.25 <= r < 0.50 then 50.0 + (r - 0.25) * 140.0
    else if 0.05 <= r < 0.25 then 25.0 + (r - 0.05) * 125.0
    else Max(5.0, r * 500.0)
  }

  function TimeScoreOf(r: real): (s: real)
    ensures 0.0 <= s <= 100.0
  {
    Clamp100(TimeRaw(r))
  }

  /** Exactly the ratios from 0.50 to 0.85 score 85 or more. */
  lemma TimeIdealZone(r: real)
    ensures TimeScoreOf(r) >= 85.0 <==> 0.50 <= r <= 0.85
  {
  }

  /** The score peaks, at 100, at a ratio of 0.67 and nowhere else. */
  lemma TimePeak(r: real)
    ensures TimeScoreOf(r) == 100.0 <==> r == 0.67
  {
  }

  function Runtime(job: Row): Value { Get(job, RuntimeSeconds, Num(0.0)) }
  function RequestedTime(job: Row): Value { Get(job, ReqTimeSeconds, Num(0.0)) }

  /**
   * `score_time` raises nothing: the state is a text; a timed-out job's truthy
   * request is a number (it is multiplied by 1.5); otherwise, when both the
   * runtime and the request are truthy, both are numbers (one divides the other).
   */
  predicate TimeScorable(job: Row, summary: Row)
  {
    && StateIsText(job)
    && (TimedOut(job) ==> !TruthyText(RequestedTime(job)))
    && (!TimedOut(job) && Runtime(job).Truthy() && RequestedTime(job).Truthy() ==>
          Runtime(job).Num? && RequestedTime(job).Num?)
  }

  /** A timed-out job scores 20, "Needs Work"; falsy runtime or request is not applicable. */
  function ScoreTime(job: Row, summary: Row): (d: DimensionScore)
    requires TimeScorable(job, summary)
    ensures 0.0 <= d.score <= 100.0
    ensures d.dim == Time
    ensures TimedOut(job) ==> d.score == 20.0 && d.level == NeedsWork && d.applicable
    ensures !TimedOut(job) && (!Runtime(job).Truthy() || !RequestedTime(job).Truthy()) ==>
      d.score == 50.0 && d.level == Unknown && !d.applicable
    ensures !TimedOut(job) && Runtime(job).Truthy() && RequestedTime(job).Truthy() ==>
      && d.applicable && 0.0 <= d.score <= 100.0 && d.level == ProficiencyLevel(d.score)
      && d.score == TimeScoreOf(Runtime(job).AsReal() / RequestedTime(job).AsReal())
  {
    if TimedOut(job) then DimensionScore(Time, 20.0, NeedsWork, true)
    else if !Runtime(job).Truthy() || !RequestedTime(job).Truthy() then Unscored(Time, 50.0, Unknown)
    else Scored(Time, TimeScoreOf(Runtime(job).AsReal() / RequestedTime(job).AsReal()))
  }

  // I/O

  /** `summary.get(k, 0) or 0`. */
  function WrittenGb(summary: Row, f: Field): real
  {
    var v := Get(summary, f, Num(0.0));
    if v.Truthy() then v.AsReal() else 0.0
  }

  function TotalWrite(summary: Row): real
  {
    WrittenGb(summary, TotalNfsWriteGb) + WrittenGb(summary, TotalLocalWriteGb)
  }

  function IoWait(summary: Row): real
  {
    FirstTruthy(summary, AvgIoWaitPercent, AvgIoWaitPct)
  }

  /** `summary.get("nfs_ratio")`: NULL when absent. */
  function RatioValue(summary: Row): Value
  {
    Get(summary, NfsRatio, Null)
  }

  /** The NFS ratio column as a number, `None` when it holds none. */
  function RatioColumn(summary: Row): Option<real>
  {
    var v := RatioValue(summary);
    if v.Num? then Some(v.n) else None
  }

  /** The ratio the score uses: the column, else the NFS share of the writes. */
  function NfsShare(summary: Row): real
  {
    var r := RatioColumn(summary);
    if r.Some? then r.value
    else if TotalWrite(summary) > 0.0 then WrittenGb(summary, TotalNfsWriteGb) / TotalWrite(summary)
    else 0.0
  }

  /** The piecewise I/O score over the NFS ratio, before clamping. */
  function IoRaw(ratio: real): real
  {
    if ratio < 0.3 then 90.0 + (0.3 - ratio) * 33.0
    else if ratio < 0.6 then 65.0 + (0.6 - ratio) * 83.0
    else if ratio < 0.8 then 40.0 + (0.8 - ratio) * 125.0
    else Max(10.0, 40.0 - (ratio - 0.8) * 150.0)
  }

  /** The clamped ratio score, then the penalty for an I/O wait above 20%. */
  function IoScoreOf(ratio: real, ioWait: real): (s: real)
    ensures 10.0 <= s <= 100.0
  {
    var s := Clamp100(IoRaw(ratio));
    if ioWait > 20.0 then Max(10.0, s - (ioWait - 20.0)) else s
  }

  /** A larger network share never scores higher. */
  lemma IoScoreAntitone(a: real, b: real, ioWait: real)
    requires a <= b
    ensures IoScoreOf(b, ioWait) <= IoScoreOf(a, ioWait)
  {
  }

  /**
   * `score_io` raises nothing: neither write column holds a truthy text (the
   * two are added, then compared with 0.1), and from 0.1 GB written on the
   * ratio column and the I/O wait are not texts (both are compared with numbers).
   */
  predicate IoScorable(job: Row, summary: Row)
  {
    && !TruthyText(Get(summary, TotalNfsWriteGb, Num(0.0)))
    && !TruthyText(Get(summary, TotalLocalWriteGb, Num(0.0)))
    && (TotalWrite(summary) >= 0.1 ==>
          !RatioValue(summary).Str? && !FirstTruthyValue(summary, AvgIoWaitPercent, AvgIoWaitPct).Str?)
  }

  /**
   * Not applicable exactly when the ratio column is NULL and nothing was
   * written; under 0.1 GB written a fixed 80, "Good", whatever the column
   * holds; otherwise the ratio score.
   */
  function ScoreIo(job: Row, summary: Row): (d: DimensionScore)
    requires IoScorable(job, summary)
    ensures 0.0 <= d.score <= 100.0
    ensures d.dim == Io
    ensures !d.applicable <==> RatioValue(summary).Null? && TotalWrite(summary) == 0.0
    ensures !d.applicable ==> d.score == 50.0 && d.level == Unknown
    ensures d.applicable && TotalWrite(summary) < 0.1 ==> d.score == 80.0 && d.level == Good
    ensures d.applicable && TotalWrite(summary) >= 0.1 ==>
      && 10.0 <= d.score <= 100.0 && d.level == ProficiencyLevel(d.score)
      && d.score == IoScoreOf(NfsShare(summary), IoWait(summary))
  {
    if RatioValue(summary).Null? && TotalWrite(summary) == 0.0 then Unscored(Io, 50.0, Unknown)
    else if TotalWrite(summary) < 0.1 then DimensionScore(Io, 80.0, Good, true)
    else Scored(Io, IoScoreOf(NfsShare(summary), IoWait(summary)))
  }

  // GPU

  /** `score_gpu` raises nothing: a truthy `req_gpus` is not a text (it is compared with 1). */
  predicate GpuScorable(job: Row, summary: Row)
  {
    !TruthyText(Get(job, ReqGpus, Num(0.0)))
  }

  /** No GPU requested: not applicable at 0; requested and used: 85; requested and unused: 10. */
  function ScoreGpu(job: Row, summary: Row): (d: DimensionScore)
    requires GpuScorable(job, summary)
    ensures 0.0 <= d.score <= 100.0
    ensures d.dim == Gpu
    ensures d.applicable <==> Get(job, ReqGpus, Num(0.0)).Truthy()
    ensures !d.applicable ==> d.score == 0.0 && d.level == NotApplicable
    ensures d.applicable && Get(summary, UsedGpu, Num(0.0)).Truthy() ==> d.score == 85.0 && d.level == Good
    ensures d.applicable && !Get(summary, UsedGpu, Num(0.0)).Truthy() ==> d.score == 10.0 && d.level == NeedsWork
  {
    if !Get(job, ReqGpus, Num(0.0)).Truthy() then Unscored(Gpu, 0.0, NotApplicable)
    else if Get(summary, UsedGpu, Num(0.0)).Truthy() then DimensionScore(Gpu, 85.0, Good, true)
    else DimensionScore(Gpu, 10.0, NeedsWork, true)
  }

  /** The used-GPU score of 85 carries the label "Good", although 85 is "Excellent" by the thresholds. */
  lemma GpuLevelIsFixed(job: Row, summary: Row)
    requires GpuScorable(job, summary)
    requires Get(job, ReqGpus, Num(0.0)).Truthy() && Get(summary, UsedGpu, Num(0.0)).Truthy()
    ensures ScoreGpu(job, summary).level != ProficiencyLevel(ScoreGpu(job, summary).score)
  {
  }

  // ---------------------------------------------------------------
  // Fingerprints
  // ---------------------------------------------------------------

  /** `score_job` raises nothing exactly when none of the five scorers raises. */
  predicate WellTyped(job: Row, summary: Row)
  {
    && CpuScorable(job, summary) && MemoryScorable(job, summary) && TimeScorable(job, summary)
    && IoScorable(job, summary) && GpuScorable(job, summary)
  }

  /** A NULL or text `req_cpus` beside a truthy CPU average makes `score_job` raise. */
  lemma ReqCpusRaises(job: Row, summary: Row)
    requires CpuAverage(summary) != 0.0 && !Get(job, ReqCpus, Num(1.0)).Num?
    ensures !WellTyped(job, summary)
  {
  }

  /** A truthy text `req_gpus` makes `score_job` raise. */
  lemma ReqGpusRaises(job: Row, summary: Row)
    requires TruthyText(Get(job, ReqGpus, Num(0.0)))
    ensures !WellTyped(job, summary)
  {
  }

  /** A text `nfs_ratio` makes `score_job` raise once 0.1 GB or more was written. */
  lemma RatioTextRaises(job: Row, summary: Row)
    requires RatioValue(summary).Str? && TotalWrite(summary) >= 0.1
    ensures !WellTyped(job, summary)
  {
  }

  /** Below 0.1 GB written, a text ratio column counts as present: the fixed 80, "Good". */
  lemma TextRatioMinimalWrites(job: Row, summary: Row)
    requires IoScorable(job, summary)
    requires RatioValue(summary).Str? && TotalWrite(summary) < 0.1
    ensures ScoreIo(job, summary).applicable
    ensures ScoreIo(job, summary).score == 80.0 && ScoreIo(job, summary).level == Good
  {
  }

  /** A job's scores, in the order `score_job` inserts them. */
  datatype JobFingerprint = JobFingerprint(jobId: Value, user: Value, dimensions: seq<DimensionScore>)

  function DimsOf(ds: seq<DimensionScore>): (r: seq<Dim>)
    ensures |r| == |ds|
    ensures forall k :: 0 <= k < |ds| ==> r[k] == ds[k].dim
  {
    seq(|ds|, k requires 0 <= k < |ds| => ds[k].dim)
  }

  predicate IsApplicable(d: DimensionScore) { d.applicable }
  function ScoreOf(d: DimensionScore): real { d.score }
  predicate IsWeak(d: DimensionScore) { d.applicable && d.score < 65.0 }
  predicate IsStrong(d: DimensionScore) { d.applicable && d.score >= 65.0 }

  function Applicable(fp: JobFingerprint): seq<DimensionScore>
  {
    Filter(fp.dimensions, IsApplicable)
  }

  /** The mean of the applicable scores, 0 when none applies. */
  function Overall(fp: JobFingerprint): real
  {
    var app := Applicable(fp);
    if |app| == 0 then 0.0 else SumBy(app, ScoreOf) / |app| as real
  }

  function OverallLevel(fp: JobFingerprint): Level
  {
    ProficiencyLevel(Overall(fp))
  }

  /** The weak applicable dimensions, lowest score first (a stable sort). */
  function NeedsWorkDims(fp: JobFingerprint): seq<DimensionScore>
  {
    SortBy(Filter(fp.dimensions, IsWeak), ScoreOf)
  }

  function Strengths(fp: JobFingerprint): seq<DimensionScore>
  {
    Filter(fp.dimensions, IsStrong)
  }

  lemma {:induction false} SumByBounds(xs: seq<DimensionScore>, lo: real, hi: real)
    requires forall k :: 0 <= k < |xs| ==> lo <= xs[k].score <= hi
    ensures lo * |xs| as real <= SumBy(xs, ScoreOf) <= hi * |xs| as real
  {
    if |xs| > 0 {
      SumByBounds(xs[..|xs| - 1], lo, hi);
      assert lo * |xs| as real == lo * (|xs| - 1) as real + lo;
      assert hi * |xs| as real == hi * (|xs| - 1) as real + hi;
    }
  }

  /** The overall score lies between the bounds of the applicable scores; it is 0 when none applies. */
  lemma OverallBounds(fp: JobFingerprint, lo: real, hi: real)
    requires forall d :: d in fp.dimensions && d.applicable ==> lo <= d.score <= hi
    ensures |Applicable(fp)| == 0 ==> Overall(fp) == 0.0
    ensures |Applicable(fp)| > 0 ==> lo <= Overall(fp) <= hi
  {
    if |Applicable(fp)| > 0 {
      ApplicableWithin(fp, lo, hi);
      ApplicableMeanWithin(Applicable(fp), lo, hi);
    }
  }

  lemma ApplicableMeanWithin(xs: seq<DimensionScore>, lo: real, hi: real)
    requires |xs| > 0
    requires forall k :: 0 <= k < |xs| ==> lo <= xs[k].score <= hi
    ensures lo <= SumBy(xs, ScoreOf) / |xs| as real <= hi
  {
    SumByBounds(xs, lo, hi);
    MeanBounds(SumBy(xs, ScoreOf), |xs| as real, lo, hi);
  }

  lemma ApplicableWithin(fp: JobFingerprint, lo: real, hi: real)
    requires forall d :: d in fp.dimensions && d.applicable ==> lo <= d.score <= hi
    ensures forall k :: 0 <= k < |Applicable(fp)| ==> lo <= Applicable(fp)[k].score <= hi
  {
    var app := Applicable(fp);
    forall k | 0 <= k < |app|
      ensures lo <= app[k].score <= hi
    {
      assert app[k] in fp.dimensions && IsApplicable(app[k]);
    }
  }

  lemma {:induction false} SplitCounts(xs: seq<DimensionScore>)
    ensures multiset(Filter(xs, IsWeak)) + multiset(Filter(xs, IsStrong)) == multiset(Filter(xs, IsApplicable))
  {
    if |xs| > 0 {
      var init, x := xs[..|xs| - 1], xs[|xs| - 1];
      SplitCounts(init);
    }
  }

  /**
   * The weak and strong dimensions split the applicable ones between
   * them; the weak ones are ordered by score and are all below 65, the
   * strong ones are at least 65 and keep their order.
   */
  lemma FingerprintPartition(fp: JobFingerprint)
    ensures multiset(NeedsWorkDims(fp)) + multiset(Strengths(fp)) == multiset(Applicable(fp))
    ensures SortedBy(NeedsWorkDims(fp), ScoreOf)
    ensures forall d :: d in NeedsWorkDims(fp) ==> d.applicable && d.score < 65.0
    ensures forall d :: d in Strengths(fp) ==> d.applicable && d.score >= 65.0
  {
    var weak := Filter(fp.dimensions, IsWeak);
    SortBySpec(weak, ScoreOf);
    SplitCounts(fp.dimensions);
    forall d | d in NeedsWorkDims(fp)
      ensures d.applicable && d.score < 65.0
    {
      assert d in multiset(NeedsWorkDims(fp));
      assert d in multiset(weak);
    }
  }

  /** `score_job`: the five dimensions under their keys, in the order cpu, memory, time, io, gpu. */
  function ScoreJob(job: Row, summary: Row): (fp: JobFingerprint)
    requires WellTyped(job, summary)
    ensures DimsOf(fp.dimensions) == [Cpu, Memory, Time, Io, Gpu]
    ensures fp.jobId == Get(job, JobId, Str("unknown")) && fp.user == Get(job, UserName, Str("unknown"))
    ensures fp.dimensions[0] == ScoreCpu(job, summary) && fp.dimensions[1] == ScoreMemory(job, summary)
    ensures fp.dimensions[2] == ScoreTime(job, summary) && fp.dimensions[3] == ScoreIo(job, summary)
    ensures fp.dimensions[4] == ScoreGpu(job, summary)
  {
    var dims := [ScoreCpu(job, summary), ScoreMemory(job, summary), ScoreTime(job, summary),
                 ScoreIo(job, summary), ScoreGpu(job, summary)];
    assert DimsOf(dims) == [Cpu, Memory, Time, Io, Gpu];
    JobFingerprint(Get(job, JobId, Str("unknown")), Get(job, UserName, Str("unknown")), dims)
  }

  /** The score of a dimension in a fingerprint built by `ScoreJob`. */
  function DimScore(fp: JobFingerprint, d: Dim): Option<DimensionScore>
  {
    FindDim(fp.dimensions, d)
  }

  function FindDim(ds: seq<DimensionScore>, d: Dim): (r: Option<DimensionScore>)
    ensures r.Some? ==> r.value in ds && r.value.dim == d
    ensures r.None? ==> forall k :: 0 <= k < |ds| ==> ds[k].dim != d
  {
    if |ds| == 0 then None else if ds[0].dim == d then Some(ds[0]) else FindDim(ds[1..], d)
  }

  /** With a non-negative CPU average, every score of a job lies in [0, 100], and so does its overall score. */
  lemma ScoreJobInRange(job: Row, summary: Row)
    requires WellTyped(job, summary) && CpuAverage(summary) >= 0.0
    ensures forall d :: d in ScoreJob(job, summary).dimensions ==> 0.0 <= d.score <= 100.0
    ensures 0.0 <= Overall(ScoreJob(job, summary)) <= 100.0
  {
    var fp := ScoreJob(job, summary);
    assert forall d :: d in fp.dimensions ==> 0.0 <= d.score <= 100.0;
    OverallBounds(fp, 0.0, 100.0);
  }
}
