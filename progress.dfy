// Proficiency trajectories: a user's scored jobs cut into consecutive
// time windows, the first-versus-last improvement, and the aggregate
// over the members of a course or lab group. Database rows are inputs,
// end times are instants in whole seconds and "now" is a parameter.
module Progress {
  import opened Wrappers
  import opened Lists
  import Assoc
  import opened Scoring

  // ---------------------------------------------------------------
  // Trajectories and their one-line summary
  // ---------------------------------------------------------------

  /** The statistics of one non-empty window `[start, end)`. */
  datatype WindowStats = WindowStats(start: int, end: int, jobCount: nat, scores: seq<(Dim, real)>, overall: real)

  /** The five verdicts of the one-line trajectory summary. */
  datatype Verdict = TooFew | StrongImprovement | Improving | Stable | Declining

  /**
   * A user's development: the windows in chronological order, the last
   * window's scores, and the per-dimension change between the first and
   * the last window (a dictionary filled in set order, so a map here).
   */
  datatype Trajectory = Trajectory(
    username: string,
    totalJobs: nat,
    dateRange: (Option<int>, Option<int>),
    windows: seq<WindowStats>,
    currentScores: seq<(Dim, real)>,
    improvement: map<Dim, real>,
    overallImprovement: real)
  {
    predicate IsImproving()
    {
      overallImprovement > 5.0
    }

    function Summary(): (v: Verdict)
      ensures v == TooFew <==> totalJobs < 3
      ensures v == StrongImprovement <==> totalJobs >= 3 && overallImprovement > 15.0
      ensures v == Improving <==> totalJobs >= 3 && 5.0 < overallImprovement <= 15.0
      ensures v == Stable <==> totalJobs >= 3 && -5.0 < overallImprovement <= 5.0
      ensures v == Declining <==> totalJobs >= 3 && overallImprovement <= -5.0
    {
      if totalJobs < 3 then TooFew
      else if overallImprovement > 15.0 then StrongImprovement
      else if overallImprovement > 5.0 then Improving
      else if overallImprovement > -5.0 then Stable
      else Declining
    }
  }

  /** Once there are enough jobs, `is_improving` is exactly an improving verdict. */
  lemma ImprovingIffVerdict(t: Trajectory)
    requires t.totalJobs >= 3
    ensures t.IsImproving() <==> t.Summary() == StrongImprovement || t.Summary() == Improving
  {
  }

  // ---------------------------------------------------------------
  // Splitting a joined row
  // ---------------------------------------------------------------

  /** The 18 columns of the `jobs` table. */
  const JobFields: set<Field> := {
    JobId, UserName, Partition, NodeList, JobName, State, ExitCode, ExitSignal, FailureReason,
    SubmitTime, StartTime, EndTime, ReqCpus, ReqMemMb, ReqGpus, ReqTimeSeconds, RuntimeSeconds,
    WaitTimeSeconds }

  /** A joined row as a job (every job column, NULL when absent) and a summary (every other column). */
  function SplitJobFields(row: Row): (r: (Row, Row))
    ensures r.0.Keys == JobFields
    ensures r.1.Keys == row.Keys - JobFields
  {
    (map f | f in JobFields :: Scoring.Get(row, f, Null), map f | f in row && f !in JobFields :: row[f])
  }

  /**
   * The two halves do not overlap and together give back the row: a
   * column of the row sits, with its value, in the half its name selects,
   * and a job column the row lacks reads NULL.
   */
  lemma SplitRecombines(row: Row)
    ensures SplitJobFields(row).0.Keys !! SplitJobFields(row).1.Keys
    ensures forall f :: f in row && f in JobFields ==> SplitJobFields(row).0[f] == row[f]
    ensures forall f :: f in row && f !in JobFields ==> SplitJobFields(row).1[f] == row[f]
    ensures forall f :: f in JobFields && f !in row ==> SplitJobFields(row).0[f] == Null
  {
  }

  // ---------------------------------------------------------------
  // Scoring the rows
  // ---------------------------------------------------------------

  /** A fingerprint with the end time of its row. */
  datatype Timed = Timed(fp: JobFingerprint, end: Option<int>)

  /** The row's end time as an instant in whole seconds; NULL, an absent column or a text carries none. */
  function EndInstant(row: Row): Option<int>
  {
    if EndTime in row && row[EndTime].Num? then Some(row[EndTime].n.Floor) else None
  }

  /** A row whose split halves the scorers accept; any other row raises and is skipped. */
  predicate Scorable(row: Row)
  {
    var split := SplitJobFields(row);
    WellTyped(split.0, split.1)
  }

  function ScoreRow(row: Row): seq<Timed>
  {
    var split := SplitJobFields(row);
    if WellTyped(split.0, split.1) then [Timed(ScoreJob(split.0, split.1), EndInstant(row))] else []
  }

  function ScoredRows(rows: seq<Row>): seq<Timed>
  {
    FlatMap(rows, ScoreRow)
  }

  /** `_score_jobs`: score each row in turn, skipping those that raise. */
  method ScoreJobs(rows: seq<Row>) returns (fps: seq<Timed>)
    ensures fps == ScoredRows(rows)
  {
    fps := [];
    var i := 0;
    while i < |rows|
      invariant 0 <= i <= |rows|
      invariant fps == FlatMap(rows[..i], ScoreRow)
    {
      FlatMapPrefix(rows, i, ScoreRow);
      var split := SplitJobFields(rows[i]);
      if WellTyped(split.0, split.1) {
        fps := fps + [Timed(ScoreJob(split.0, split.1), EndInstant(rows[i]))];
      }
      i := i + 1;
    }
    FlatMapWhole(rows, ScoreRow);
  }

  /** One fingerprint per scorable row, in row order, carrying that row's end time. */
  lemma {:induction false} ScoredRowsCount(rows: seq<Row>)
    ensures |ScoredRows(rows)| == CountIf(rows, Scorable)
  {
    if |rows| > 0 {
      ScoredRowsCount(rows[..|rows| - 1]);
    }
  }

  // ---------------------------------------------------------------
  // Windows
  // ---------------------------------------------------------------

  predicate InWindow(t: Timed, lo: int, hi: int)
  {
    t.end.Some? && lo <= t.end.value < hi
  }

  /** The fingerprints whose end time lies in `[lo, hi)`, in order. */
  function WindowJobs(fps: seq<Timed>, lo: int, hi: int): seq<Timed>
  {
    if |fps| == 0 then []
    else
      var t := fps[|fps| - 1];
      WindowJobs(fps[..|fps| - 1], lo, hi) + (if InWindow(t, lo, hi) then [t] else [])
  }

  /** Exactly the fingerprints ending inside the window are kept. */
  lemma {:induction false} WindowJobsMembers(fps: seq<Timed>, lo: int, hi: int, t: Timed)
    ensures t in WindowJobs(fps, lo, hi) <==> t in fps && InWindow(t, lo, hi)
  {
    if |fps| > 0 {
      var init := fps[..|fps| - 1];
      WindowJobsMembers(init, lo, hi, t);
      assert fps == init + [fps[|fps| - 1]];
    }
  }

  /** The (dimension, score) pairs of a fingerprint's applicable dimensions. */
  function ApplicablePairs(t: Timed): seq<(Dim, real)>
  {
    PairsOf(Applicable(t.fp))
  }

  /** The per-dimension lists of applicable scores of a window's jobs. */
  function DimGroups(jobs: seq<Timed>): seq<(Dim, seq<real>)>
  {
    Assoc.Group(JobPairs(jobs))
  }

  /** The pairs of every job in turn. */
  function JobPairs(jobs: seq<Timed>): seq<(Dim, real)>
  {
    if |jobs| == 0 then [] else JobPairs(jobs[..|jobs| - 1]) + ApplicablePairs(jobs[|jobs| - 1])
  }

  /** Each list replaced by its mean. */
  function Averages<K>(g: seq<(K, seq<real>)>): (r: seq<(K, real)>)
    ensures |r| == |g|
    ensures forall k :: 0 <= k < |r| ==> r[k] == (g[k].0, Mean(g[k].1))
  {
    seq(|g|, k requires 0 <= k < |g| => (g[k].0, Mean(g[k].1)))
  }

  function Values<K>(a: seq<(K, real)>): (r: seq<real>)
    ensures |r| == |a|
    ensures forall k :: 0 <= k < |a| ==> r[k] == a[k].1
  {
    seq(|a|, k requires 0 <= k < |a| => a[k].1)
  }

  function WindowOf(jobs: seq<Timed>, lo: int, hi: int): WindowStats
  {
    var avg := Averages(DimGroups(jobs));
    WindowStats(lo, hi, |jobs|, avg, Mean(Values(avg)))
  }

  /**
   * The windows `[lo, lo + size)`, `[lo + size, lo + 2 size)`, ... as
   * long as a window starts before `now`, keeping only those that
   * hold a fingerprint.
   */
  function WindowsFrom(fps: seq<Timed>, lo: int, now: int, span: int): seq<WindowStats>
    requires span > 0
    decreases now - lo
  {
    if lo >= now then []
    else WindowAt(fps, lo, lo + span) + WindowsFrom(fps, lo + span, now, span)
  }

  /** The window `[lo, hi)` when a fingerprint ends inside it, else nothing. */
  function WindowAt(fps: seq<Timed>, lo: int, hi: int): (r: seq<WindowStats>)
    ensures |r| <= 1
    ensures |r| == 1 <==> |WindowJobs(fps, lo, hi)| > 0
    ensures forall w :: w in r ==> w.start == lo && w.end == hi && w.jobCount == |WindowJobs(fps, lo, hi)|
  {
    var jobs := WindowJobs(fps, lo, hi);
    if |jobs| > 0 then [WindowOf(jobs, lo, hi)] else []
  }

  /**
   * Each window spans `size` days from a start at or after
   * `lo`, and counts exactly the fingerprints that end inside
   * it, at least one.
   */
  lemma {:induction false} WindowsBounds(fps: seq<Timed>, lo: int, now: int, span: int)
    requires span > 0
    ensures forall w :: w in WindowsFrom(fps, lo, now, span) ==>
      && lo <= w.start < now && w.end == w.start + span
      && w.jobCount == |WindowJobs(fps, w.start, w.end)| > 0
    decreases now - lo
  {
    if lo < now {
      var head := WindowAt(fps, lo, lo + span);
      var rest := WindowsFrom(fps, lo + span, now, span);
      WindowsBounds(fps, lo + span, now, span);
      assert WindowsFrom(fps, lo, now, span) == head + rest;
      forall w: WindowStats | w in head + rest
        ensures lo <= w.start < now && w.end == w.start + span
        ensures w.jobCount == |WindowJobs(fps, w.start, w.end)| > 0
      {
        if w in head {
          assert w.start == lo && w.end == lo + span;
          assert |head| == 1 && head[0] == w;
        } else {
          assert w in rest;
        }
      }
    }
  }

  predicate Chronological(ws: seq<WindowStats>)
  {
    forall i, j :: 0 <= i < j < |ws| ==> ws[i].end <= ws[j].start
  }

  /** The windows lie in chronological order, one ending before the next starts. */
  lemma {:induction false} WindowsOrdered(fps: seq<Timed>, lo: int, now: int, span: int)
    requires span > 0
    ensures Chronological(WindowsFrom(fps, lo, now, span))
    decreases now - lo
  {
    if lo < now {
      var head := WindowAt(fps, lo, lo + span);
      var rest := WindowsFrom(fps, lo + span, now, span);
      WindowsOrdered(fps, lo + span, now, span);
      WindowsBounds(fps, lo + span, now, span);
      ChronologicalCons(head, rest, lo + span);
    }
  }

  lemma ChronologicalCons(head: seq<WindowStats>, rest: seq<WindowStats>, bound: int)
    requires |head| <= 1 && Chronological(rest)
    requires forall w :: w in head ==> w.end <= bound
    requires forall w :: w in rest ==> bound <= w.start
    ensures Chronological(head + rest)
  {
    var all := head + rest;
    forall i, j | 0 <= i < j < |all|
      ensures all[i].end <= all[j].start
    {
      if i < |head| {
        assert all[i] in head && all[j] in rest;
      } else {
        assert all[i] == rest[i - |head|] && all[j] == rest[j - |head|];
      }
    }
  }

  /** Consecutive half-open windows: a fingerprint ends inside at most one of them. */
  lemma AtMostOneWindow(ws: seq<WindowStats>, t: Timed, i: int, j: int)
    requires Chronological(ws)
    requires 0 <= i < |ws| && 0 <= j < |ws|
    requires InWindow(t, ws[i].start, ws[i].end) && InWindow(t, ws[j].start, ws[j].end)
    ensures i == j
  {
  }

  /** `FlatMap` of the pairs, narrowed to one dimension, is the list of its applicable scores. */
  function ScoresIn(jobs: seq<Timed>, d: Dim): seq<real>
  {
    Assoc.ValuesOf(JobPairs(jobs), d)
  }

  /** The applicable scores of dimension `d` in a list of dimension scores, in order. */
  function DimScoresIn(ds: seq<DimensionScore>, d: Dim): seq<real>
  {
    if |ds| == 0 then []
    else
      var x := ds[|ds| - 1];
      DimScoresIn(ds[..|ds| - 1], d) + (if x.applicable && x.dim == d then [x.score] else [])
  }

  function DimScoresOf(jobs: seq<Timed>, d: Dim): seq<real>
  {
    if |jobs| == 0 then [] else DimScoresOf(jobs[..|jobs| - 1], d) + DimScoresIn(jobs[|jobs| - 1].fp.dimensions, d)
  }

  /**
   * A window's score for a dimension is the mean of the applicable scores
   * of that dimension among its jobs, and the dimension is present
   * exactly when there is one; its overall is the mean of those averages,
   * or 0 when there is none.
   */
  lemma WindowAverages(jobs: seq<Timed>, lo: int, hi: int, d: Dim)
    ensures Assoc.Get(WindowOf(jobs, lo, hi).scores, d).Some? <==> DimScoresOf(jobs, d) != []
    ensures Assoc.Get(WindowOf(jobs, lo, hi).scores, d).Some? ==>
      Assoc.Get(WindowOf(jobs, lo, hi).scores, d).value == Mean(DimScoresOf(jobs, d))
    ensures WindowOf(jobs, lo, hi).overall == Mean(Values(WindowOf(jobs, lo, hi).scores))
  {
    var g := DimGroups(jobs);
    Assoc.GroupGet(JobPairs(jobs), d);
    ScoresInIsDimScores(jobs, d);
    AveragesGet(g, d);
  }

  lemma {:induction false} AveragesGet<K>(g: seq<(K, seq<real>)>, k: K)
    ensures Assoc.Get(Averages(g), k) == if Assoc.Get(g, k).Some? then Some(Mean(Assoc.Get(g, k).value)) else None
  {
    if |g| > 0 {
      AveragesGet(g[1..], k);
      assert Averages(g)[1..] == Averages(g[1..]);
    }
  }

  lemma {:induction false} ScoresInIsDimScores(jobs: seq<Timed>, d: Dim)
    ensures ScoresIn(jobs, d) == DimScoresOf(jobs, d)
  {
    if |jobs| > 0 {
      var init, last := jobs[..|jobs| - 1], jobs[|jobs| - 1];
      ScoresInIsDimScores(init, d);
      ValuesOfConcat(JobPairs(init), ApplicablePairs(last), d);
      var app := Applicable(last.fp);
      assert forall k :: 0 <= k < |app| ==> app[k].applicable by {
        forall k | 0 <= k < |app| ensures app[k].applicable {
          assert IsApplicable(app[k]);
        }
      }
      PairsScores(app, d);
      FilteredScores(last.fp.dimensions, d);
    }
  }

  lemma {:induction false} ValuesOfConcat<K, V>(a: seq<(K, V)>, b: seq<(K, V)>, k: K)
    ensures Assoc.ValuesOf(a + b, k) == Assoc.ValuesOf(a, k) + Assoc.ValuesOf(b, k)
  {
    if |b| > 0 {
      ValuesOfConcat(a, b[..|b| - 1], k);
      assert (a + b)[..|a + b| - 1] == a + b[..|b| - 1];
    } else {
      assert a + b == a;
    }
  }

  function PairsOf(app: seq<DimensionScore>): seq<(Dim, real)>
  {
    seq(|app|, k requires 0 <= k < |app| => (app[k].dim, app[k].score))
  }

  /** Keeping the applicable dimensions first and then narrowing to `d` picks the same scores. */
  lemma {:induction false} PairsScores(app: seq<DimensionScore>, d: Dim)
    requires forall k :: 0 <= k < |app| ==> app[k].applicable
    ensures Assoc.ValuesOf(PairsOf(app), d) == DimScoresIn(app, d)
  {
    if |app| > 0 {
      var init := app[..|app| - 1];
      PairsScores(init, d);
      assert PairsOf(app)[..|app| - 1] == PairsOf(init);
    }
  }

  lemma {:induction false} FilteredScores(ds: seq<DimensionScore>, d: Dim)
    ensures DimScoresIn(Filter(ds, IsApplicable), d) == DimScoresIn(ds, d)
  {
    if |ds| > 0 {
      var init, x := ds[..|ds| - 1], ds[|ds| - 1];
      FilteredScores(init, d);
      var f := Filter(init, IsApplicable);
      if x.applicable {
        assert Filter(ds, IsApplicable) == f + [x];
        assert (f + [x])[..|f|] == f && (f + [x])[|f|] == x;
        assert DimScoresIn(f + [x], d) == DimScoresIn(f, d) + (if x.dim == d then [x.score] else []);
      } else {
        assert Filter(ds, IsApplicable) == f;
      }
    }
  }

  // ---------------------------------------------------------------
  // The window loop and the trajectory
  // ---------------------------------------------------------------

  /** Instants are whole seconds; periods and window sizes are whole days. */
  function Seconds(days: int): int
  {
    days * 86400
  }

  /** Every window of the lookback period, which starts `days` before `now`. */
  function Windows(fps: seq<Timed>, now: int, days: int, size: int): seq<WindowStats>
    requires size > 0
  {
    WindowsFrom(fps, now - Seconds(days), now, Seconds(size))
  }

  lemma WindowsUnfold(fps: seq<Timed>, now: int, days: int, size: int)
    requires size > 0
    ensures Windows(fps, now, days, size) == WindowsFrom(fps, now - Seconds(days), now, Seconds(size))
  {
  }

  /**
   * The `while current_window_start < now` loop: each pass builds the
   * window's per-dimension lists, averages them and keeps the window
   * when it holds a fingerprint.
   */
  method WindowLoop(fps: seq<Timed>, start: int, now: int, span: int) returns (windows: seq<WindowStats>)
    requires span > 0
    ensures windows == WindowsFrom(fps, start, now, span)
  {
    windows := [];
    var cws := start;
    while cws < now
      invariant windows + WindowsFrom(fps, cws, now, span) == WindowsFrom(fps, start, now, span)
      decreases now - cws
    {
      var we := cws + span;
      var w := WindowStep(fps, cws, we);
      WindowsFromStep(fps, windows, w, cws, we, now, span);
      windows := windows + w;
      cws := we;
    }
    WindowsFromDone(fps, windows, cws, now, span);
  }

  lemma WindowsFromStep(fps: seq<Timed>, windows: seq<WindowStats>, w: seq<WindowStats>, lo: int, hi: int, now: int, span: int)
    requires span > 0 && lo < now && hi == lo + span && w == WindowAt(fps, lo, hi)
    ensures windows + WindowsFrom(fps, lo, now, span) == (windows + w) + WindowsFrom(fps, hi, now, span)
  {
    WindowsFromUnfold(fps, lo, now, span);
    ConcatAssoc(windows, w, WindowsFrom(fps, hi, now, span));
  }

  lemma WindowsFromUnfold(fps: seq<Timed>, lo: int, now: int, span: int)
    requires span > 0 && lo < now
    ensures WindowsFrom(fps, lo, now, span) == WindowAt(fps, lo, lo + span) + WindowsFrom(fps, lo + span, now, span)
  {
  }


  lemma WindowsFromDone(fps: seq<Timed>, windows: seq<WindowStats>, lo: int, now: int, span: int)
    requires span > 0 && lo >= now
    ensures windows + WindowsFrom(fps, lo, now, span) == windows
  {
    assert WindowsFrom(fps, lo, now, span) == [];
    assert windows + [] == windows;
  }

  /** One pass of the loop: the window's per-dimension lists, their averages and their mean. */
  method WindowStep(fps: seq<Timed>, lo: int, hi: int) returns (w: seq<WindowStats>)
    ensures w == WindowAt(fps, lo, hi)
  {
    var jobs := WindowJobs(fps, lo, hi);
    if |jobs| > 0 {
      var groups := Assoc.GroupLoop(JobPairs(jobs));
      var avg := Averages(groups);
      w := [WindowStats(lo, hi, |jobs|, avg, Mean(Values(avg)))];
    } else {
      w := [];
    }
  }

  /** A dimension both windows score. */
  predicate BothScore(first: seq<(Dim, real)>, last: seq<(Dim, real)>, d: Dim)
  {
    d in Assoc.Keys(first) && d in Assoc.Keys(last)
  }

  /** Last minus first. */
  function Gain(first: seq<(Dim, real)>, last: seq<(Dim, real)>, d: Dim): real
  {
    Assoc.Get(last, d).GetOr(0.0) - Assoc.Get(first, d).GetOr(0.0)
  }

  /** The dimensions of `all_dims = first | last` that both windows score, with last minus first. */
  function Improvement(first: seq<(Dim, real)>, last: seq<(Dim, real)>): map<Dim, real>
  {
    map d | d in ToSet(Assoc.Keys(first)) + ToSet(Assoc.Keys(last)) && BothScore(first, last, d) :: Gain(first, last, d)
  }

  /** The improvement covers exactly the dimensions both windows score, each as last minus first. */
  lemma ImprovementSpec(first: seq<(Dim, real)>, last: seq<(Dim, real)>, d: Dim)
    ensures d in Improvement(first, last) <==> Assoc.Get(first, d).Some? && Assoc.Get(last, d).Some?
    ensures d in Improvement(first, last) ==>
      Improvement(first, last)[d] == Assoc.Get(last, d).value - Assoc.Get(first, d).value
  {
    Assoc.KeysIn(first, d);
    Assoc.KeysIn(last, d);
  }

  /** The loop over `all_dims`, in whatever order the set yields them. */
  method ImprovementLoop(first: seq<(Dim, real)>, last: seq<(Dim, real)>) returns (imp: map<Dim, real>)
    ensures imp == Improvement(first, last)
  {
    ghost var all := ToSet(Assoc.Keys(first)) + ToSet(Assoc.Keys(last));
    var todo := ToSet(Assoc.Keys(first)) + ToSet(Assoc.Keys(last));
    ghost var done: set<Dim> := {};
    imp := map[];
    while todo != {}
      invariant done + todo == all && done !! todo
      invariant forall e :: e in imp <==> e in done && BothScore(first, last, e)
      invariant forall e :: e in imp ==> imp[e] == Gain(first, last, e)
      decreases |todo|
    {
      var d :| d in todo;
      imp := AddGain(imp, first, last, d);
      todo := todo - {d};
      done := done + {d};
    }
    ImprovementExt(imp, first, last);
  }

  /** One pass of the loop: the dimension's gain is added when both windows score it. */
  method AddGain(imp: map<Dim, real>, first: seq<(Dim, real)>, last: seq<(Dim, real)>, d: Dim)
    returns (r: map<Dim, real>)
    ensures forall e :: e in r <==> e in imp || (e == d && BothScore(first, last, d))
    ensures forall e :: e in r ==> r[e] == if e == d && BothScore(first, last, d) then Gain(first, last, d) else imp[e]
  {
    r := imp;
    if d in Assoc.Keys(first) && d in Assoc.Keys(last) {
      r := imp[d := Assoc.Get(last, d).GetOr(0.0) - Assoc.Get(first, d).GetOr(0.0)];
    }
  }

  lemma ImprovementExt(imp: map<Dim, real>, first: seq<(Dim, real)>, last: seq<(Dim, real)>)
    requires forall e :: e in imp <==> e in ToSet(Assoc.Keys(first)) + ToSet(Assoc.Keys(last)) && BothScore(first, last, e)
    requires forall e :: e in imp ==> imp[e] == Gain(first, last, e)
    ensures imp == Improvement(first, last)
  {
  }

  /** `user_trajectory` over the user's rows (oldest end time first), with `now` given. */
  function TrajectoryOf(username: string, rows: seq<Row>, now: int, days: int, size: int): Option<Trajectory>
    requires size > 0
  {
    if |rows| < 3 then None
    else JobsTrajectory(username, ScoredRows(rows), (EndInstant(rows[0]), EndInstant(rows[|rows| - 1])), now, days, size)
  }

  /** The trajectory of the scored jobs, the date range taken from the rows. */
  function JobsTrajectory(username: string, fps: seq<Timed>, range: (Option<int>, Option<int>), now: int, days: int, size: int)
    : Option<Trajectory>
    requires size > 0
  {
    if |fps| < 3 then None else FromWindows(username, |fps|, range, Windows(fps, now, days, size))
  }

  /** The trajectory built from the non-empty windows, if there is one. */
  function FromWindows(username: string, n: nat, range: (Option<int>, Option<int>), ws: seq<WindowStats>): Option<Trajectory>
  {
    if |ws| == 0 then None
    else if |ws| == 1 then Some(Trajectory(username, n, range, ws, ws[0].scores, map[], 0.0))
    else
      var first, last := ws[0], ws[|ws| - 1];
      Some(Trajectory(username, n, range, ws, last.scores, Improvement(first.scores, last.scores),
        last.overall - first.overall))
  }

  method UserTrajectory(username: string, rows: seq<Row>, now: int, days: int, windowSize: int) returns (r: Option<Trajectory>)
    requires windowSize > 0
    ensures r == TrajectoryOf(username, rows, now, days, windowSize)
  {
    if |rows| < 3 {
      return None;
    }
    var fps := ScoreJobs(rows);
    var range := (EndInstant(rows[0]), EndInstant(rows[|rows| - 1]));
    r := TrajectoryFromJobs(username, fps, range, now, days, windowSize);
  }

  method TrajectoryFromJobs(username: string, fps: seq<Timed>, range: (Option<int>, Option<int>), now: int, days: int,
                            windowSize: int) returns (r: Option<Trajectory>)
    requires windowSize > 0
    ensures r == JobsTrajectory(username, fps, range, now, days, windowSize)
  {
    if |fps| < 3 {
      return None;
    }
    var windows := WindowLoop(fps, now - Seconds(days), now, Seconds(windowSize));
    WindowsUnfold(fps, now, days, windowSize);
    r := BuildTrajectory(username, |fps|, range, windows);
  }

  method BuildTrajectory(username: string, n: nat, range: (Option<int>, Option<int>), windows: seq<WindowStats>)
    returns (r: Option<Trajectory>)
    ensures r == FromWindows(username, n, range, windows)
  {
    if |windows| < 2 {
      if |windows| > 0 {
        return Some(Trajectory(username, n, range, windows, windows[|windows| - 1].scores, map[], 0.0));
      }
      return None;
    }
    var first, last := windows[0], windows[|windows| - 1];
    var improvement := ImprovementLoop(first.scores, last.scores);
    return Some(Trajectory(username, n, range, windows, last.scores, improvement, last.overall - first.overall));
  }

  /**
   * No trajectory exactly when there are fewer than three rows, fewer
   * than three scored jobs, or no non-empty window.
   */
  lemma TrajectoryNone(username: string, rows: seq<Row>, now: int, days: int, size: int)
    requires size > 0
    ensures TrajectoryOf(username, rows, now, days, size).None? <==>
      |rows| < 3 || CountIf(rows, Scorable) < 3 || |Windows(ScoredRows(rows), now, days, size)| == 0
  {
    ScoredRowsCount(rows);
    if |rows| >= 3 && |ScoredRows(rows)| >= 3 {
      TrajectoryUnfold(username, rows, now, days, size);
      FromWindowsShape(username, |ScoredRows(rows)|, (EndInstant(rows[0]), EndInstant(rows[|rows| - 1])),
        Windows(ScoredRows(rows), now, days, size));
    }
  }

  /**
   * A trajectory counts the scored jobs, keeps the windows in
   * chronological order and takes the current scores from the last one;
   * a single window gives no improvement at all, several give last minus
   * first.
   */
  lemma TrajectoryShape(username: string, rows: seq<Row>, now: int, days: int, size: int, t: Trajectory)
    requires size > 0
    requires TrajectoryOf(username, rows, now, days, size) == Some(t)
    ensures t.username == username && t.totalJobs == CountIf(rows, Scorable) >= 3
    ensures t.windows == Windows(ScoredRows(rows), now, days, size) && Chronological(t.windows)
    ensures t.currentScores == t.windows[|t.windows| - 1].scores
    ensures |t.windows| == 1 ==> t.improvement == map[] && t.overallImprovement == 0.0
    ensures |t.windows| > 1 ==>
      && t.improvement == Improvement(t.windows[0].scores, t.windows[|t.windows| - 1].scores)
      && t.overallImprovement == t.windows[|t.windows| - 1].overall - t.windows[0].overall
  {
    ScoredRowsCount(rows);
    TrajectoryUnfold(username, rows, now, days, size);
    var ws := Windows(ScoredRows(rows), now, days, size);
    WindowsChronological(ScoredRows(rows), now, days, size);
    FromWindowsShape(username, |ScoredRows(rows)|, (EndInstant(rows[0]), EndInstant(rows[|rows| - 1])), ws);
  }

  lemma WindowsChronological(fps: seq<Timed>, now: int, days: int, size: int)
    requires size > 0
    ensures Chronological(Windows(fps, now, days, size))
  {
    WindowsOrdered(fps, now - Seconds(days), now, Seconds(size));
  }

  lemma TrajectoryUnfold(username: string, rows: seq<Row>, now: int, days: int, size: int)
    requires size > 0 && |rows| >= 3 && |ScoredRows(rows)| >= 3
    ensures TrajectoryOf(username, rows, now, days, size) ==
      FromWindows(username, |ScoredRows(rows)|, (EndInstant(rows[0]), EndInstant(rows[|rows| - 1])),
        Windows(ScoredRows(rows), now, days, size))
  {
  }

  lemma FromWindowsShape(username: string, n: nat, range: (Option<int>, Option<int>), ws: seq<WindowStats>)
    ensures FromWindows(username, n, range, ws).None? <==> |ws| == 0
    ensures FromWindows(username, n, range, ws).Some? ==>
      var t := FromWindows(username, n, range, ws).value;
      && t.username == username && t.totalJobs == n && t.dateRange == range && t.windows == ws
      && t.currentScores == ws[|ws| - 1].scores
      && (|ws| == 1 ==> t.improvement == map[] && t.overallImprovement == 0.0)
      && (|ws| > 1 ==>
            && t.improvement == Improvement(ws[0].scores, ws[|ws| - 1].scores)
            && t.overallImprovement == ws[|ws| - 1].overall - ws[0].overall)
  {
  }

  // ---------------------------------------------------------------
  // Group summaries
  // ---------------------------------------------------------------

  /** A member of the group with the rows of their completed, failed or timed-out jobs. */
  datatype Member = Member(username: string, rows: seq<Row>)

  /** The window size `group_summary` uses for every member. */
  const DefaultWindowSize: int := 7

  datatype GroupSummary = GroupSummary(
    groupName: string,
    memberCount: nat,
    totalJobs: int,
    dateRange: (Option<int>, Option<int>),
    users: seq<Trajectory>,
    avgOverall: real,
    avgImprovement: real,
    usersImproving: nat,
    usersDeclining: nat,
    usersStable: int,
    dimensionAvgs: seq<(Dim, real)>,
    dimensionImprovements: map<Dim, real>,
    weakest: Option<Dim>,
    strongest: Option<Dim>)

  /** What `user_trajectory` returns for each member, in member order. */
  function Outcomes(members: seq<Member>, now: int, days: int): (os: seq<Option<Trajectory>>)
    ensures |os| == |members|
  {
    if |members| == 0 then []
    else
      var m := members[|members| - 1];
      Outcomes(members[..|members| - 1], now, days) + [TrajectoryOf(m.username, m.rows, now, days, DefaultWindowSize)]
  }

  /** The trajectories that are there, in order. */
  function Present(os: seq<Option<Trajectory>>): seq<Trajectory>
  {
    if |os| == 0 then []
    else
      var o := os[|os| - 1];
      Present(os[..|os| - 1]) + (if o.Some? then [o.value] else [])
  }

  /** The trajectories of the members who have one, in member order. */
  function Trajectories(members: seq<Member>, now: int, days: int): seq<Trajectory>
  {
    Present(Outcomes(members, now, days))
  }

  function JobsOf(t: Trajectory): int { t.totalJobs }
  function GainOf(t: Trajectory): real { t.overallImprovement }
  function CurrentPairs(t: Trajectory): seq<(Dim, real)> { t.currentScores }
  predicate Improves(t: Trajectory) { t.IsImproving() }
  predicate Declines(t: Trajectory) { t.overallImprovement < -5.0 }
  predicate Steady(t: Trajectory) { -5.0 <= t.overallImprovement <= 5.0 }

  /** The earliest first end time among the trajectories that have one. */
  function EarliestOf(ts: seq<Trajectory>): Option<int>
  {
    if |ts| == 0 then None
    else
      var e, d := EarliestOf(ts[..|ts| - 1]), ts[|ts| - 1].dateRange.0;
      if d.Some? && (e.None? || d.value < e.value) then d else e
  }

  /** The latest last end time among the trajectories that have one. */
  function LatestOf(ts: seq<Trajectory>): Option<int>
  {
    if |ts| == 0 then None
    else
      var l, d := LatestOf(ts[..|ts| - 1]), ts[|ts| - 1].dateRange.1;
      if d.Some? && (l.None? || d.value > l.value) then d else l
  }

  /** `cpu + memory + time` of the current scores, a missing one counting 0. */
  function CoreSum(t: Trajectory): real
  {
    Assoc.Get(t.currentScores, Cpu).GetOr(0.0) + Assoc.Get(t.currentScores, Memory).GetOr(0.0)
      + Assoc.Get(t.currentScores, Time).GetOr(0.0)
  }

  /** The improvements of dimension `d` over the trajectories that have one. */
  function GainsIn(ts: seq<Trajectory>, d: Dim): seq<real>
  {
    if |ts| == 0 then []
    else
      var t := ts[|ts| - 1];
      GainsIn(ts[..|ts| - 1], d) + (if d in t.improvement then [t.improvement[d]] else [])
  }

  function ImprovedDims(ts: seq<Trajectory>): set<Dim>
  {
    set t, d | t in ts && d in t.improvement :: d
  }

  function DimImprovements(ts: seq<Trajectory>): map<Dim, real>
  {
    map d | d in ImprovedDims(ts) :: Mean(GainsIn(ts, d))
  }

  /** `min(d, key=d.get)`: the first entry whose value no other entry undercuts. */
  function MinIndex(a: seq<(Dim, real)>): (i: nat)
    requires |a| > 0
    ensures i < |a|
    ensures forall j :: 0 <= j < |a| ==> a[i].1 <= a[j].1
    ensures forall j :: 0 <= j < i ==> a[j].1 > a[i].1
  {
    if |a| == 1 then 0
    else
      var k := 1 + MinIndex(a[1..]);
      if a[k].1 < a[0].1 then k else 0
  }

  /** `max(d, key=d.get)`: the first entry whose value no other entry exceeds. */
  function MaxIndex(a: seq<(Dim, real)>): (i: nat)
    requires |a| > 0
    ensures i < |a|
    ensures forall j :: 0 <= j < |a| ==> a[i].1 >= a[j].1
    ensures forall j :: 0 <= j < i ==> a[j].1 < a[i].1
  {
    if |a| == 1 then 0
    else
      var k := 1 + MaxIndex(a[1..]);
      if a[k].1 > a[0].1 then k else 0
  }

  /** The weakest dimension, `None` standing for "unknown" when there is no average. */
  function Weakest(a: seq<(Dim, real)>): (r: Option<Dim>)
    ensures r.None? <==> |a| == 0
    ensures r.Some? ==> exists i :: 0 <= i < |a| && a[i].0 == r.value && forall j :: 0 <= j < |a| ==> a[i].1 <= a[j].1
  {
    if |a| == 0 then None else Some(a[MinIndex(a)].0)
  }

  /** The strongest dimension, `None` standing for "unknown" when there is no average. */
  function Strongest(a: seq<(Dim, real)>): (r: Option<Dim>)
    ensures r.None? <==> |a| == 0
    ensures r.Some? ==> exists i :: 0 <= i < |a| && a[i].0 == r.value && forall j :: 0 <= j < |a| ==> a[i].1 >= a[j].1
  {
    if |a| == 0 then None else Some(a[MaxIndex(a)].0)
  }

  /** The aggregate over a non-empty list of trajectories. */
  function Summarize(groupName: string, memberCount: nat, ts: seq<Trajectory>): GroupSummary
    requires |ts| > 0
  {
    var improving, declining := CountIf(ts, Improves), CountIf(ts, Declines);
    var avgs := Averages(Assoc.Group(FlatMap(ts, CurrentPairs)));
    GroupSummary(groupName, memberCount, SumIntBy(ts, JobsOf), (EarliestOf(ts), LatestOf(ts)), ts,
      SumBy(ts, CoreSum) / (|ts| * 3) as real, SumBy(ts, GainOf) / |ts| as real,
      improving, declining, |ts| - improving - declining,
      avgs, DimImprovements(ts), Weakest(avgs), Strongest(avgs))
  }

  /**
   * `group_summary`: `None` when the membership query fails (`members`
   * is `None`), when the group has no member, or when no member has a
   * trajectory.
   */
  function GroupOf(groupName: string, members: Option<seq<Member>>, now: int, days: int): Option<GroupSummary>
  {
    if members.None? || |members.value| == 0 then None
    else
      var ts := Trajectories(members.value, now, days);
      if |ts| == 0 then None else Some(Summarize(groupName, |members.value|, ts))
  }

  method ComputeGroupSummary(groupName: string, members: Option<seq<Member>>, now: int, days: int)
    returns (r: Option<GroupSummary>)
    ensures r == GroupOf(groupName, members, now, days)
  {
    if members.None? || |members.value| == 0 {
      return None;
    }
    var ms := members.value;
    var trajectories, totalJobs, earliest, latest := CollectTrajectories(ms, now, days);
    if |trajectories| == 0 {
      return None;
    }
    var summary := SummaryFrom(groupName, |ms|, trajectories, totalJobs, earliest, latest);
    return Some(summary);
  }

  /** The loop over the members: their trajectories, job total and date range. */
  method CollectTrajectories(ms: seq<Member>, now: int, days: int)
    returns (trajectories: seq<Trajectory>, totalJobs: int, earliest: Option<int>, latest: Option<int>)
    ensures trajectories == Trajectories(ms, now, days)
    ensures totalJobs == SumIntBy(trajectories, JobsOf)
    ensures earliest == EarliestOf(trajectories) && latest == LatestOf(trajectories)
  {
    trajectories, totalJobs, earliest, latest := [], 0, None, None;
    var i := 0;
    while i < |ms|
      invariant 0 <= i <= |ms|
      invariant trajectories == Trajectories(ms[..i], now, days)
      invariant totalJobs == SumIntBy(trajectories, JobsOf)
      invariant earliest == EarliestOf(trajectories) && latest == LatestOf(trajectories)
    {
      assert ms[..i + 1][..i] == ms[..i];
      PresentAppend(Outcomes(ms[..i], now, days), TrajectoryOf(ms[i].username, ms[i].rows, now, days, DefaultWindowSize));
      var traj := UserTrajectory(ms[i].username, ms[i].rows, now, days, DefaultWindowSize);
      if traj.Some? {
        var t := traj.value;
        AppendFolds(trajectories, t);
        trajectories := trajectories + [t];
        totalJobs := totalJobs + t.totalJobs;
        if t.dateRange.0.Some? && (earliest.None? || t.dateRange.0.value < earliest.value) {
          earliest := t.dateRange.0;
        }
        if t.dateRange.1.Some? && (latest.None? || t.dateRange.1.value > latest.value) {
          latest := t.dateRange.1;
        }
      }
      i := i + 1;
    }
    assert ms[..i] == ms;
  }

  /** The aggregation after the member loop. */
  method SummaryFrom(groupName: string, memberCount: nat, trajectories: seq<Trajectory>, totalJobs: int,
                     earliest: Option<int>, latest: Option<int>) returns (r: GroupSummary)
    requires |trajectories| > 0
    requires totalJobs == SumIntBy(trajectories, JobsOf)
    requires earliest == EarliestOf(trajectories) && latest == LatestOf(trajectories)
    ensures r == Summarize(groupName, memberCount, trajectories)
  {
    var improving := CountIf(trajectories, Improves);
    var declining := CountIf(trajectories, Declines);
    var groups := Assoc.GroupLoop(FlatMap(trajectories, CurrentPairs));
    var avgs := Averages(groups);
    r := GroupSummary(groupName, memberCount, totalJobs, (earliest, latest), trajectories,
      SumBy(trajectories, CoreSum) / (|trajectories| * 3) as real,
      SumBy(trajectories, GainOf) / |trajectories| as real,
      improving, declining, |trajectories| - improving - declining,
      avgs, DimImprovements(trajectories), Weakest(avgs), Strongest(avgs));
  }

  lemma AppendFolds(ts: seq<Trajectory>, t: Trajectory)
    ensures SumIntBy(ts + [t], JobsOf) == SumIntBy(ts, JobsOf) + t.totalJobs
    ensures EarliestOf(ts + [t]) ==
      if t.dateRange.0.Some? && (EarliestOf(ts).None? || t.dateRange.0.value < EarliestOf(ts).value)
      then t.dateRange.0 else EarliestOf(ts)
    ensures LatestOf(ts + [t]) ==
      if t.dateRange.1.Some? && (LatestOf(ts).None? || t.dateRange.1.value > LatestOf(ts).value)
      then t.dateRange.1 else LatestOf(ts)
  {
    assert (ts + [t])[..|ts|] == ts;
  }

  lemma PresentAppend(os: seq<Option<Trajectory>>, o: Option<Trajectory>)
    ensures Present(os + [o]) == Present(os) + (if o.Some? then [o.value] else [])
  {
    assert (os + [o])[..|os|] == os;
  }

  /** The outcome recorded for member `i` is that member's trajectory. */
  lemma {:induction false} OutcomeAt(ms: seq<Member>, now: int, days: int, i: int)
    requires 0 <= i < |ms|
    ensures Outcomes(ms, now, days)[i] == TrajectoryOf(ms[i].username, ms[i].rows, now, days, DefaultWindowSize)
  {
    if i < |ms| - 1 {
      OutcomeAt(ms[..|ms| - 1], now, days, i);
    }
  }

  /** No member has a trajectory. */
  predicate AllNone(os: seq<Option<Trajectory>>)
  {
    forall i :: 0 <= i < |os| ==> os[i].None?
  }

  /** At most one trajectory per outcome, and none exactly when every outcome is `None`. */
  lemma {:induction false} PresentCount(os: seq<Option<Trajectory>>)
    ensures |Present(os)| <= |os|
    ensures |Present(os)| == 0 <==> AllNone(os)
  {
    if |os| > 0 {
      var init := os[..|os| - 1];
      PresentCount(init);
      forall i | 0 <= i < |init| ensures init[i] == os[i] { }
    }
  }

  /** Every trajectory is improving, declining or stable, and only one of them. */
  lemma {:induction false} CountPartition(ts: seq<Trajectory>)
    ensures CountIf(ts, Improves) + CountIf(ts, Declines) + CountIf(ts, Steady) == |ts|
  {
    if |ts| > 0 {
      CountPartition(ts[..|ts| - 1]);
    }
  }

  /**
   * `group_summary` gives `None` exactly when the membership query fails,
   * the group is empty or no member has a trajectory, and otherwise
   * aggregates the members' trajectories, in member order, of which
   * there are no more than members.
   */
  lemma GroupCases(groupName: string, members: Option<seq<Member>>, now: int, days: int)
    ensures GroupOf(groupName, members, now, days).None? <==>
      members.None? || |members.value| == 0 || AllNone(Outcomes(members.value, now, days))
    ensures GroupOf(groupName, members, now, days).Some? ==>
      && members.Some? && 0 < |Trajectories(members.value, now, days)| <= |members.value|
      && GroupOf(groupName, members, now, days).value ==
           Summarize(groupName, |members.value|, Trajectories(members.value, now, days))
  {
    if members.Some? && |members.value| > 0 {
      var os := Outcomes(members.value, now, days);
      PresentCount(os);
    }
  }

  /**
   * The summary keeps the group name, member count and users; the
   * improving, declining and stable counts partition the users by the
   * 5-point thresholds; the job total, date range and averages are taken
   * over the users.
   */
  lemma SummarizeShape(groupName: string, memberCount: nat, ts: seq<Trajectory>)
    requires |ts| > 0
    ensures var g := Summarize(groupName, memberCount, ts);
      && g.groupName == groupName && g.memberCount == memberCount && g.users == ts
      && g.usersImproving == CountIf(ts, Improves) && g.usersDeclining == CountIf(ts, Declines)
      && g.usersStable == CountIf(ts, Steady)
      && g.usersImproving + g.usersDeclining + g.usersStable == |ts|
      && g.totalJobs == SumIntBy(ts, JobsOf)
      && g.dateRange == (EarliestOf(ts), LatestOf(ts))
      && g.avgImprovement == SumBy(ts, GainOf) / |ts| as real
      && g.dimensionImprovements == DimImprovements(ts)
  {
    CountPartition(ts);
  }

  /** The earliest first end time is a user's, and no user's is earlier; `None` when no user has one. */
  lemma {:induction false} EarliestSpec(ts: seq<Trajectory>)
    ensures EarliestOf(ts).Some? <==> exists i :: 0 <= i < |ts| && ts[i].dateRange.0.Some?
    ensures EarliestOf(ts).Some? ==> exists i :: 0 <= i < |ts| && ts[i].dateRange.0 == EarliestOf(ts)
    ensures forall i :: 0 <= i < |ts| && ts[i].dateRange.0.Some? ==> EarliestOf(ts).Some? && EarliestOf(ts).value <= ts[i].dateRange.0.value
  {
    if |ts| > 0 {
      var init := ts[..|ts| - 1];
      EarliestSpec(init);
      forall i | 0 <= i < |init| ensures init[i] == ts[i] { }
      if EarliestOf(init).Some? {
        var i :| 0 <= i < |init| && init[i].dateRange.0 == EarliestOf(init);
        assert ts[i].dateRange.0 == EarliestOf(init);
      }
    }
  }

  /** The latest last end time is a user's, and no user's is later; `None` when no user has one. */
  lemma {:induction false} LatestSpec(ts: seq<Trajectory>)
    ensures LatestOf(ts).Some? <==> exists i :: 0 <= i < |ts| && ts[i].dateRange.1.Some?
    ensures LatestOf(ts).Some? ==> exists i :: 0 <= i < |ts| && ts[i].dateRange.1 == LatestOf(ts)
    ensures forall i :: 0 <= i < |ts| && ts[i].dateRange.1.Some? ==> LatestOf(ts).Some? && LatestOf(ts).value >= ts[i].dateRange.1.value
  {
    if |ts| > 0 {
      var init := ts[..|ts| - 1];
      LatestSpec(init);
      forall i | 0 <= i < |init| ensures init[i] == ts[i] { }
      if LatestOf(init).Some? {
        var i :| 0 <= i < |init| && init[i].dateRange.1 == LatestOf(init);
        assert ts[i].dateRange.1 == LatestOf(init);
      }
    }
  }

  /** Every score of a per-dimension table lies in [0, 100]. */
  predicate ScoresWithin(a: seq<(Dim, real)>)
  {
    forall k :: 0 <= k < |a| ==> 0.0 <= a[k].1 <= 100.0
  }

  lemma {:induction false} GetWithin(a: seq<(Dim, real)>, d: Dim)
    requires ScoresWithin(a)
    ensures 0.0 <= Assoc.Get(a, d).GetOr(0.0) <= 100.0
  {
    if |a| > 0 {
      assert ScoresWithin(a[1..]) by {
        forall k | 0 <= k < |a[1..]| ensures 0.0 <= a[1..][k].1 <= 100.0 {
          assert a[1..][k] == a[k + 1];
        }
      }
      GetWithin(a[1..], d);
    }
  }

  lemma {:induction false} CoreSumsWithin(ts: seq<Trajectory>)
    requires forall k :: 0 <= k < |ts| ==> ScoresWithin(ts[k].currentScores)
    ensures 0.0 <= SumBy(ts, CoreSum) <= 300.0 * |ts| as real
  {
    if |ts| > 0 {
      var init, t := ts[..|ts| - 1], ts[|ts| - 1];
      CoreSumsWithin(init);
      GetWithin(t.currentScores, Cpu);
      GetWithin(t.currentScores, Memory);
      GetWithin(t.currentScores, Time);
      assert 300.0 * |ts| as real == 300.0 * |init| as real + 300.0;
    }
  }

  /** With every current score in [0, 100], the group's average overall lies in [0, 100] too. */
  lemma AvgOverallWithin(groupName: string, memberCount: nat, ts: seq<Trajectory>)
    requires |ts| > 0
    requires forall k :: 0 <= k < |ts| ==> ScoresWithin(ts[k].currentScores)
    ensures 0.0 <= Summarize(groupName, memberCount, ts).avgOverall <= 100.0
  {
    CoreSumsWithin(ts);
    assert 100.0 * (|ts| * 3) as real == 300.0 * |ts| as real;
    MeanBounds(SumBy(ts, CoreSum), (|ts| * 3) as real, 0.0, 100.0);
  }

  /**
   * At an overall improvement of exactly -5 the one-line summary already
   * says "Declining" while the group counts the user as stable.
   */
  lemma DecliningBoundary(t: Trajectory)
    requires t.totalJobs >= 3 && t.overallImprovement == -5.0
    ensures t.Summary() == Declining && Steady(t) && !Declines(t)
  {
  }

  /**
   * A dimension has an average improvement exactly when some user's
   * trajectory has an improvement for it, and that average is the mean
   * of those users' improvements, of which there is at least one.
   */
  lemma DimImprovementsSpec(ts: seq<Trajectory>, d: Dim)
    ensures d in DimImprovements(ts) <==> exists k :: 0 <= k < |ts| && d in ts[k].improvement
    ensures d in DimImprovements(ts) ==> DimImprovements(ts)[d] == Mean(GainsIn(ts, d)) && |GainsIn(ts, d)| > 0
  {
    if d in DimImprovements(ts) {
      var t :| t in ts && d in t.improvement;
      GainsInPositive(ts, d, t);
    }
    if exists k :: 0 <= k < |ts| && d in ts[k].improvement {
      var k :| 0 <= k < |ts| && d in ts[k].improvement;
      assert ts[k] in ts;
    }
  }

  lemma {:induction false} GainsInPositive(ts: seq<Trajectory>, d: Dim, t: Trajectory)
    requires t in ts && d in t.improvement
    ensures |GainsIn(ts, d)| > 0
  {
    var init := ts[..|ts| - 1];
    if ts[|ts| - 1] != t {
      assert t in init by {
        var k :| 0 <= k < |ts| && ts[k] == t;
        assert k < |init| && init[k] == t;
      }
      GainsInPositive(init, d, t);
    }
  }
}
