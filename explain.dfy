// The job explainer: terminal colours for scores and levels, the
// human-readable run time, the comparison of a job's scores with the
// user's recent history, and the control flow of `explain_job`. The
// database rows are inputs; the rendered report itself is not modelled.
module Explain {
  import opened Wrappers
  import opened Lists
  import Assoc
  import opened Text
  import opened Scoring
  import Progress

  // ---------------------------------------------------------------
  // Colours
  // ---------------------------------------------------------------

  datatype Color = Reset | Bold | Faint | Green | Yellow | Red | Cyan | Magenta | White
  {
    /** The ANSI escape sequence of the colour. */
    function Code(): string
    {
      match this
      case Reset => "\U{1B}[0m"
      case Bold => "\U{1B}[1m"
      case Faint => "\U{1B}[2m"
      case Green => "\U{1B}[32m"
      case Yellow => "\U{1B}[33m"
      case Red => "\U{1B}[31m"
      case Cyan => "\U{1B}[36m"
      case Magenta => "\U{1B}[35m"
      case White => "\U{1B}[37m"
    }
  }

  /** `C.score_color`: green from 85, cyan from 65, yellow from 40, red below. */
  function ScoreColor(score: real): (c: Color)
    ensures c == Green <==> score >= 85.0
    ensures c == Cyan <==> 65.0 <= score < 85.0
    ensures c == Yellow <==> 40.0 <= score < 65.0
    ensures c == Red <==> score < 40.0
  {
    if score >= 85.0 then Green
    else if score >= 65.0 then Cyan
    else if score >= 40.0 then Yellow
    else Red
  }

  /** The four level labels that have a colour of their own. */
  predicate Colored(level: string)
  {
    level == "Excellent" || level == "Good" || level == "Developing" || level == "Needs Work"
  }

  /** `C.level_color`: a label's colour, white for any other text. */
  function LevelColor(level: string): (c: Color)
    ensures c == White <==> !Colored(level)
    ensures c in {Green, Cyan, Yellow, Red, White}
  {
    if level == "Excellent" then Green
    else if level == "Good" then Cyan
    else if level == "Developing" then Yellow
    else if level == "Needs Work" then Red
    else White
  }

  /**
   * The two colourings agree: a score is shown in the colour of the label
   * of its proficiency level.
   */
  lemma ScoreColorByLevel(score: real)
    ensures ScoreColor(score) == LevelColor(ProficiencyLevel(score).Label())
  {
    var l := ProficiencyLevel(score);
    if score >= 85.0 {
      assert l == Excellent;
    } else if score >= 65.0 {
      assert l == Good;
    } else if score >= 40.0 {
      assert l == Developing;
    } else {
      assert l == NeedsWork;
    }
  }

  /** The labels of an unscored or inapplicable dimension fall back to white. */
  lemma UncoloredLevels()
    ensures LevelColor(Unknown.Label()) == White && LevelColor(NotApplicable.Label()) == White
  {
    assert !Colored(Unknown.Label()) by { assert Unknown.Label() == "Unknown"; }
    assert !Colored(NotApplicable.Label()) by { assert NotApplicable.Label() == "N/A"; }
  }

  // ---------------------------------------------------------------
  // Run time as text
  // ---------------------------------------------------------------

  /** `divmod` by 3600 and then by 60 (floor division, as in Python for positive divisors). */
  function Clock(seconds: int): (c: (int, int, int))
    ensures c.0 * 3600 + c.1 * 60 + c.2 == seconds
    ensures 0 <= c.1 < 60 && 0 <= c.2 < 60
  {
    var rem := seconds % 3600;
    (seconds / 3600, rem / 60, rem % 60)
  }

  /** `fmt_time`: a dash for no time, else hours and minutes, minutes and seconds, or seconds. */
  function FmtTime(seconds: Option<int>): (r: string)
    ensures r == "—" <==> seconds.None? || seconds.value == 0
  {
    if seconds.None? || seconds.value == 0 then "—"
    else
      var c := Clock(seconds.value);
      if c.0 > 0 then TwoUnits(c.0, 'h', c.1, 'm')
      else if c.1 > 0 then TwoUnits(c.1, 'm', c.2, 's')
      else IntToString(c.2) + ['s']
  }

  /** `f"{a}{u} {b:02d}{v}"`. */
  function TwoUnits(a: int, u: char, b: int, v: char): string
  {
    IntToString(a) + [u] + " " + ZeroPad2(b) + [v]
  }

  lemma ReadTwoUnits(a: int, u: char, b: int, v: char, p: int, q: int)
    requires UnitSeconds(u) != 0 && UnitSeconds(v) != 0
    requires p == a * UnitSeconds(u) && q == b * UnitSeconds(v)
    ensures ReadDuration(TwoUnits(a, u, b, v)) == Some(p + q)
  {
    ReadTwoFields(IntToString(a), u, ZeroPad2(b), v, a, b, p, q);
  }

  /**
   * Reading the printed time back gives the seconds truncated to whole
   * minutes from one hour on; below one hour it gives the time exactly,
   * and a negative time shows only its remainder modulo one hour.
   */
  lemma FmtTimeReadBack(s: int)
    requires s != 0
    ensures ReadDuration(FmtTime(Some(s))).Some?
    ensures ReadDuration(FmtTime(Some(s))).value == if s >= 3600 then s - s % 60 else s % 3600
  {
    var c := Clock(s);
    if c.0 > 0 {
      HoursReadBack(s, c.0, c.1, c.2);
      HoursText(s);
      ReadTwoUnits(c.0, 'h', c.1, 'm', c.0 * 3600, c.1 * 60);
    } else {
      MinutesReadBack(s, c.0, c.1, c.2);
      if c.1 > 0 {
        MinutesText(s);
        ReadTwoUnits(c.1, 'm', c.2, 's', c.1 * 60, c.2);
      } else {
        ReadSeconds(s, c.2);
      }
    }
  }

  lemma HoursText(s: int)
    requires s != 0 && Clock(s).0 > 0
    ensures FmtTime(Some(s)) == TwoUnits(Clock(s).0, 'h', Clock(s).1, 'm')
  {
  }

  lemma MinutesText(s: int)
    requires s != 0 && Clock(s).0 <= 0 && Clock(s).1 > 0
    ensures FmtTime(Some(s)) == TwoUnits(Clock(s).1, 'm', Clock(s).2, 's')
  {
  }

  lemma ReadSeconds(s: int, x: int)
    requires s != 0 && Clock(s).0 <= 0 && Clock(s).1 == 0 && Clock(s).2 == x
    ensures ReadDuration(FmtTime(Some(s))) == Some(x)
  {
    assert FmtTime(Some(s)) == IntToString(x) + ['s'];
    ReadOneField(IntToString(x), 's', x, x * 1);
  }

  lemma HoursReadBack(s: int, h: int, m: int, x: int)
    requires h * 3600 + m * 60 + x == s && 0 <= m < 60 && 0 <= x < 60 && h > 0
    ensures s >= 3600 && h * 3600 + m * 60 == s - s % 60
  {
    assert s == (h * 60 + m) * 60 + x;
  }

  lemma MinutesReadBack(s: int, h: int, m: int, x: int)
    requires h * 3600 + m * 60 + x == s && 0 <= m < 60 && 0 <= x < 60 && h <= 0
    ensures s < 3600 && m * 60 + x == s % 3600
  {
    assert s == h * 3600 + (m * 60 + x);
  }

  // ---------------------------------------------------------------
  // Progress against recent history
  // ---------------------------------------------------------------

  /** The summary columns the history query joins in. */
  const SummaryFields: set<Field> := {
    PeakCpuPercent, PeakMemoryGb, AvgCpuPercent, AvgMemoryGb, AvgIoWaitPercent, TotalNfsReadGb,
    TotalNfsWriteGb, TotalLocalReadGb, TotalLocalWriteGb, NfsRatio, UsedGpu, HealthScore }

  /** A history row as a job and a summary: every listed column, NULL when the row lacks it. */
  function SplitHistoryRow(row: Row): (r: (Row, Row))
    ensures r.0.Keys == Progress.JobFields && r.1.Keys == SummaryFields
    ensures forall f :: f in r.0 ==> r.0[f] == Scoring.Get(row, f, Null)
    ensures forall f :: f in r.1 ==> r.1[f] == Scoring.Get(row, f, Null)
  {
    (map f | f in Progress.JobFields :: Scoring.Get(row, f, Null),
     map f | f in SummaryFields :: Scoring.Get(row, f, Null))
  }

  /** The dimension scores of one history row; `None` is the TypeError scoring raises. */
  function HistoryDims(row: Row): Option<seq<DimensionScore>>
  {
    var split := SplitHistoryRow(row);
    if WellTyped(split.0, split.1) then Some(ScoreJob(split.0, split.1).dimensions) else None
  }

  /** `historical_scores`: a score list per dimension, in dimension order. */
  type Table = seq<(Dim, seq<real>)>

  /** `{dim: [] for dim in current_fp.dimensions}`. */
  function Initial(cur: seq<DimensionScore>): Table
  {
    if |cur| == 0 then [] else [(cur[0].dim, [])] + Initial(cur[1..])
  }

  /** Every applicable dimension of `ds` already has a list in the table. */
  predicate Covered(ds: seq<DimensionScore>, keys: seq<Dim>)
  {
    forall k :: 0 <= k < |ds| && ds[k].applicable ==> ds[k].dim in keys
  }

  /** The inner loop: append each applicable score to its dimension's list; `None` is the KeyError. */
  function AddScores(t: Table, ds: seq<DimensionScore>): Option<Table>
  {
    if |ds| == 0 then Some(t)
    else
      match AddScores(t, ds[..|ds| - 1])
      case None => None
      case Some(t1) =>
        var x := ds[|ds| - 1];
        if !x.applicable then Some(t1)
        else if Assoc.Get(t1, x.dim).None? then None
        else Some(Assoc.Append(t1, x.dim, x.score))
  }

  /** Each older row scored in turn. */
  function HistoryOf(rows: seq<Row>): (hs: seq<Option<seq<DimensionScore>>>)
    ensures |hs| == |rows|
    ensures forall k :: 0 <= k < |rows| ==> hs[k] == HistoryDims(rows[k])
  {
    seq(|rows|, k requires 0 <= k < |rows| => HistoryDims(rows[k]))
  }

  /** The outer loop over the scored rows, raising at the first row that fails. */
  function Fold(t: Table, hs: seq<Option<seq<DimensionScore>>>): Option<Table>
  {
    if |hs| == 0 then Some(t)
    else
      match Fold(t, hs[..|hs| - 1])
      case None => None
      case Some(t1) => Step(t1, hs[|hs| - 1])
  }

  /** One row of the outer loop: a row that failed to score raises. */
  function Step(t: Table, h: Option<seq<DimensionScore>>): Option<Table>
  {
    match h
    case None => None
    case Some(ds) => AddScores(t, ds)
  }

  /** Every row scored and names only dimensions among `keys`. */
  predicate AllScored(hs: seq<Option<seq<DimensionScore>>>, keys: seq<Dim>)
  {
    if |hs| == 0 then true
    else
      && AllScored(hs[..|hs| - 1], keys)
      && hs[|hs| - 1].Some?
      && Covered(hs[|hs| - 1].value, keys)
  }

  /** The applicable historical scores of `d`, row by row and in dimension order within a row. */
  function HistScores(hs: seq<Option<seq<DimensionScore>>>, d: Dim): seq<real>
  {
    if |hs| == 0 then []
    else HistScores(hs[..|hs| - 1], d) + RowScores(hs[|hs| - 1], d)
  }

  function RowScores(h: Option<seq<DimensionScore>>, d: Dim): seq<real>
  {
    match h
    case None => []
    case Some(ds) => Progress.DimScoresIn(ds, d)
  }

  /** A list extended by `more`; a missing list stays missing. */
  function Extended(o: Option<seq<real>>, more: seq<real>): Option<seq<real>>
  {
    match o
    case None => None
    case Some(s) => Some(s + more)
  }

  lemma {:induction false} InitialSpec(cur: seq<DimensionScore>, d: Dim)
    ensures Assoc.Keys(Initial(cur)) == DimsOf(cur)
    ensures Assoc.Get(Initial(cur), d) == if d in DimsOf(cur) then Some([]) else None
  {
    if |cur| > 0 {
      InitialSpec(cur[1..], d);
      assert DimsOf(cur) == [cur[0].dim] + DimsOf(cur[1..]);
    }
  }

  /**
   * The inner loop raises exactly when an applicable dimension has no
   * list; otherwise it keeps the table's dimensions and extends each list
   * by that dimension's applicable scores.
   */
  lemma {:induction false} AddScoresSpec(t: Table, ds: seq<DimensionScore>, d: Dim)
    ensures AddScores(t, ds).Some? <==> Covered(ds, Assoc.Keys(t))
    ensures AddScores(t, ds).Some? ==>
      && Assoc.Keys(AddScores(t, ds).value) == Assoc.Keys(t)
      && Assoc.Get(AddScores(t, ds).value, d) == Extended(Assoc.Get(t, d), Progress.DimScoresIn(ds, d))
  {
    if |ds| > 0 {
      var init, x := ds[..|ds| - 1], ds[|ds| - 1];
      AddScoresSpec(t, init, d);
      assert Covered(ds, Assoc.Keys(t)) <==> Covered(init, Assoc.Keys(t)) && (x.applicable ==> x.dim in Assoc.Keys(t)) by {
        assert forall k :: 0 <= k < |init| ==> init[k] == ds[k];
      }
      assert Progress.DimScoresIn(ds, d) == Progress.DimScoresIn(init, d) + (if x.applicable && x.dim == d then [x.score] else []);
      match AddScores(t, init)
      case None =>
      case Some(t1) =>
        Assoc.KeysIn(t1, x.dim);
        if x.applicable && Assoc.Get(t1, x.dim).Some? {
          var v := Assoc.Get(t1, x.dim).GetOr([]) + [x.score];
          assert AddScores(t, ds) == Some(Assoc.Put(t1, x.dim, v));
          Assoc.KeysPut(t1, x.dim, v);
          Assoc.GetPut(t1, x.dim, v, d);
          if d == x.dim {
            ExtendedTwice(Assoc.Get(t, d), Progress.DimScoresIn(init, d), [x.score]);
            assert Assoc.Get(AddScores(t, ds).value, d) == Extended(Assoc.Get(t, d), Progress.DimScoresIn(ds, d));
          } else {
            assert Progress.DimScoresIn(ds, d) == Progress.DimScoresIn(init, d);
            assert Assoc.Get(AddScores(t, ds).value, d) == Extended(Assoc.Get(t, d), Progress.DimScoresIn(ds, d));
          }
        } else if !x.applicable {
          assert AddScores(t, ds) == Some(t1);
          assert Progress.DimScoresIn(ds, d) == Progress.DimScoresIn(init, d);
        }
    } else {
      ExtendedNothing(Assoc.Get(t, d));
    }
  }

  lemma ExtendedNothing(o: Option<seq<real>>)
    ensures Extended(o, []) == o
  {
    if o.Some? {
      assert o.value + [] == o.value;
    }
  }

  /** Extending twice is extending by the concatenation. */
  lemma ExtendedTwice(o: Option<seq<real>>, a: seq<real>, b: seq<real>)
    ensures Extended(Extended(o, a), b) == Extended(o, a + b)
  {
    if o.Some? {
      ConcatAssoc(o.value, a, b);
    }
  }

  /**
   * The outer loop raises exactly when some row failed to score or names a
   * dimension without a list; otherwise each list ends up extended by the
   * dimension's applicable scores over all rows, in row order.
   */
  lemma {:induction false} FoldSpec(t: Table, hs: seq<Option<seq<DimensionScore>>>, d: Dim)
    ensures Fold(t, hs).Some? <==> AllScored(hs, Assoc.Keys(t))
    ensures Fold(t, hs).Some? ==>
      && Assoc.Keys(Fold(t, hs).value) == Assoc.Keys(t)
      && Assoc.Get(Fold(t, hs).value, d) == Extended(Assoc.Get(t, d), HistScores(hs, d))
  {
    if |hs| > 0 {
      var init := hs[..|hs| - 1];
      FoldSpec(t, init, d);
      match Fold(t, init)
      case None =>
      case Some(t1) =>
        match hs[|hs| - 1]
        case None =>
        case Some(ds) =>
          AddScoresSpec(t1, ds, d);
          ExtendedTwice(Assoc.Get(t, d), HistScores(init, d), Progress.DimScoresIn(ds, d));
    } else {
      ExtendedNothing(Assoc.Get(t, d));
    }
  }

  /** The loops never resume after a raise: a failing prefix fails the whole. */
  lemma {:induction false} AddScoresPrefixNone(t: Table, ds: seq<DimensionScore>, i: nat)
    requires i <= |ds| && AddScores(t, ds[..i]).None?
    ensures AddScores(t, ds).None?
  {
    if i < |ds| {
      assert ds[..|ds| - 1][..i] == ds[..i];
      AddScoresPrefixNone(t, ds[..|ds| - 1], i);
    } else {
      assert ds[..i] == ds;
    }
  }

  lemma {:induction false} FoldPrefixNone(t: Table, hs: seq<Option<seq<DimensionScore>>>, i: nat)
    requires i <= |hs| && Fold(t, hs[..i]).None?
    ensures Fold(t, hs).None?
  {
    if i < |hs| {
      assert hs[..|hs| - 1][..i] == hs[..i];
      FoldPrefixNone(t, hs[..|hs| - 1], i);
    } else {
      assert hs[..i] == hs;
    }
  }

  /** Trends: above +5 improving, below -5 declining, stable in between. */
  datatype Trend = Improving | Declining | Stable
  {
    function Name(): string
    {
      match this
      case Improving => "improving"
      case Declining => "declining"
      case Stable => "stable"
    }

    function Symbol(): string
    {
      match this
      case Improving => "↑"
      case Declining => "↓"
      case Stable => "→"
    }
  }

  function TrendOf(delta: real): (t: Trend)
    ensures t == Improving <==> delta > 5.0
    ensures t == Declining <==> delta < -5.0
    ensures t == Stable <==> -5.0 <= delta <= 5.0
  {
    if delta > 5.0 then Improving else if delta < -5.0 then Declining else Stable
  }

  /** One dimension's entry of the progress dictionary (unrounded). */
  datatype DimProgress = DimProgress(previousAvg: real, current: real, delta: real, trend: Trend)

  function Entry(scores: seq<real>, c: DimensionScore): DimProgress
  {
    var prev := Mean(scores);
    DimProgress(prev, c.score, c.score - prev, TrendOf(c.score - prev))
  }

  /** A dimension is compared when it has at least three historical scores and is applicable now. */
  predicate Compared(scores: seq<real>, cur: seq<DimensionScore>, d: Dim)
  {
    |scores| >= 3 && FindDim(cur, d).Some? && FindDim(cur, d).value.applicable
  }

  /** The trend loop over the table, in its order. */
  function TrendsOf(t: Table, cur: seq<DimensionScore>): seq<(Dim, DimProgress)>
  {
    if |t| == 0 then []
    else
      (if Compared(t[0].1, cur, t[0].0) then [(t[0].0, Entry(t[0].1, FindDim(cur, t[0].0).value))] else [])
      + TrendsOf(t[1..], cur)
  }

  /** The entry for `d`, when its list exists and qualifies. */
  function EntryFor(o: Option<seq<real>>, cur: seq<DimensionScore>, d: Dim): Option<DimProgress>
  {
    match o
    case None => None
    case Some(s) => if Compared(s, cur, d) then Some(Entry(s, FindDim(cur, d).value)) else None
  }

  lemma {:induction false} TrendsGet(t: Table, cur: seq<DimensionScore>, d: Dim)
    requires Assoc.DistinctKeys(t)
    ensures Assoc.Get(TrendsOf(t, cur), d) == EntryFor(Assoc.Get(t, d), cur, d)
  {
    if |t| > 0 {
      var ks, rest := Assoc.Keys(t), Assoc.Keys(t[1..]);
      assert ks == [t[0].0] + rest;
      assert Assoc.DistinctKeys(t[1..]) by {
        assert forall k :: 0 <= k < |rest| ==> rest[k] == ks[k + 1];
      }
      TrendsGet(t[1..], cur, d);
      var more := if Compared(t[0].1, cur, t[0].0) then [(t[0].0, Entry(t[0].1, FindDim(cur, t[0].0).value))] else [];
      var tail := TrendsOf(t[1..], cur);
      assert TrendsOf(t, cur) == more + tail;
      if more != [] {
        assert (more + tail)[1..] == tail;
      }
      if t[0].0 == d {
        forall k | 0 <= k < |rest|
          ensures rest[k] != d
        {
          assert rest[k] == ks[k + 1] && ks[0] == d;
        }
        Assoc.KeysIn(t[1..], d);
        assert Assoc.Get(t, d) == Some(t[0].1);
        if more != [] {
          assert Assoc.Get(more + tail, d) == Some(more[0].1);
        } else {
          assert more + tail == tail;
          assert Assoc.Get(tail, d) == None;
        }
      } else {
        assert Assoc.Get(t, d) == Assoc.Get(t[1..], d);
        if more != [] {
          assert Assoc.Get(more + tail, d) == Assoc.Get(tail, d);
        } else {
          assert more + tail == tail;
        }
        assert Assoc.Get(TrendsOf(t, cur), d) == Assoc.Get(tail, d);
        assert Assoc.Get(tail, d) == EntryFor(Assoc.Get(t[1..], d), cur, d);
      }
    }
  }

  /** `compute_progress` on the rows of the recent-history query, newest first. */
  function ProgressOf(history: seq<Row>, cur: seq<DimensionScore>): Option<seq<(Dim, DimProgress)>>
  {
    if |history| < 3 then Some([])
    else
      match Fold(Initial(cur), HistoryOf(history[1..]))
      case None => None
      case Some(t) => Some(TrendsOf(t, cur))
  }

  /** With fewer than three rows there is nothing to compare; otherwise only a raise gives no result. */
  lemma ProgressFails(history: seq<Row>, cur: seq<DimensionScore>)
    ensures |history| < 3 ==> ProgressOf(history, cur) == Some([])
    ensures ProgressOf(history, cur).None? <==> |history| >= 3 && !AllScored(HistoryOf(history[1..]), DimsOf(cur))
  {
    if |history| >= 3 {
      FoldSpec(Initial(cur), HistoryOf(history[1..]), Cpu);
      InitialSpec(cur, Cpu);
    }
  }

  /** A dimension the current job lacks is never found in it. */
  lemma FindDimAbsent(cur: seq<DimensionScore>, d: Dim)
    requires d !in DimsOf(cur)
    ensures FindDim(cur, d).None?
  {
    forall k | 0 <= k < |cur|
      ensures cur[k].dim != d
    {
      assert DimsOf(cur)[k] == cur[k].dim;
    }
  }

  /** The trend loop run on the accumulated table reports exactly the compared dimensions. */
  lemma TableReported(hs: seq<Option<seq<DimensionScore>>>, cur: seq<DimensionScore>, d: Dim)
    requires NoDup(DimsOf(cur)) && Fold(Initial(cur), hs).Some?
    ensures Assoc.Get(TrendsOf(Fold(Initial(cur), hs).value, cur), d) ==
      if Compared(HistScores(hs, d), cur, d) then Some(Entry(HistScores(hs, d), FindDim(cur, d).value)) else None
  {
    var t0 := Initial(cur);
    FoldSpec(t0, hs, d);
    InitialSpec(cur, d);
    var t := Fold(t0, hs).value;
    assert Assoc.DistinctKeys(t);
    TrendsGet(t, cur, d);
    if d in DimsOf(cur) {
      assert [] + HistScores(hs, d) == HistScores(hs, d);
      assert Assoc.Get(t, d) == Some(HistScores(hs, d));
    } else {
      FindDimAbsent(cur, d);
      assert Assoc.Get(t, d) == None;
    }
  }

  /**
   * A dimension is reported exactly when at least three older jobs scored
   * it as applicable and the current job's dimension is applicable; its
   * entry compares the current score with the mean of those scores.
   */
  lemma ProgressReported(history: seq<Row>, cur: seq<DimensionScore>, d: Dim)
    requires NoDup(DimsOf(cur)) && ProgressOf(history, cur).Some?
    ensures Assoc.Get(ProgressOf(history, cur).value, d).Some? <==>
      |history| >= 3 && Compared(HistScores(HistoryOf(history[1..]), d), cur, d)
    ensures Assoc.Get(ProgressOf(history, cur).value, d).Some? ==>
      Assoc.Get(ProgressOf(history, cur).value, d).value == Entry(HistScores(HistoryOf(history[1..]), d), FindDim(cur, d).value)
  {
    if |history| >= 3 {
      TableReported(HistoryOf(history[1..]), cur, d);
    }
  }

  /** The newest row is the job being explained and never enters the comparison. */
  lemma ProgressSkipsNewest(history: seq<Row>, cur: seq<DimensionScore>, newest: Row)
    requires |history| > 0
    ensures ProgressOf([newest] + history[1..], cur) == ProgressOf(history, cur)
  {
    assert ([newest] + history[1..])[1..] == history[1..];
  }

  /** The entry's fields: the mean of the history, the current score, their difference and its trend. */
  lemma EntryBounds(scores: seq<real>, c: DimensionScore)
    requires |scores| > 0 && forall k :: 0 <= k < |scores| ==> 0.0 <= scores[k] <= 100.0
    requires 0.0 <= c.score <= 100.0
    ensures 0.0 <= Entry(scores, c).previousAvg <= 100.0
    ensures -100.0 <= Entry(scores, c).delta <= 100.0
    ensures Entry(scores, c).delta == Entry(scores, c).current - Entry(scores, c).previousAvg
  {
    MeanWithin(scores, 0.0, 100.0);
  }

  /** The inner loop of `compute_progress` over one row's dimensions. */
  method AddScoresLoop(t: Table, ds: seq<DimensionScore>) returns (r: Option<Table>)
    ensures r == AddScores(t, ds)
  {
    var acc := t;
    var i := 0;
    while i < |ds|
      invariant 0 <= i <= |ds|
      invariant AddScores(t, ds[..i]) == Some(acc)
    {
      var x := ds[i];
      assert ds[..i + 1][..i] == ds[..i];
      if x.applicable {
        if Assoc.Get(acc, x.dim).None? {
          AddScoresPrefixNone(t, ds, i + 1);
          return None;
        }
        acc := Assoc.Append(acc, x.dim, x.score);
      }
      i := i + 1;
    }
    assert ds[..i] == ds;
    r := Some(acc);
  }

  /** One pass of the outer loop: score the row, then append its applicable scores. */
  method StepRow(t: Table, row: Row) returns (r: Option<Table>)
    ensures r == Step(t, HistoryDims(row))
  {
    var ds := HistoryDims(row);
    if ds.None? {
      return None;
    }
    r := AddScoresLoop(t, ds.value);
  }

  /** The outer loop over the older rows. */
  method FoldLoop(t: Table, rows: seq<Row>) returns (r: Option<Table>)
    ensures r == Fold(t, HistoryOf(rows))
  {
    var hs := HistoryOf(rows);
    var acc := t;
    var i := 0;
    while i < |rows|
      invariant 0 <= i <= |rows|
      invariant Fold(t, hs[..i]) == Some(acc)
    {
      assert hs[..i + 1][..i] == hs[..i];
      var next := StepRow(acc, rows[i]);
      if next.None? {
        FoldPrefixNone(t, hs, i + 1);
        return None;
      }
      acc := next.value;
      i := i + 1;
    }
    assert hs[..i] == hs;
    r := Some(acc);
  }

  /** The trend loop. */
  method TrendsLoop(t: Table, cur: seq<DimensionScore>) returns (p: seq<(Dim, DimProgress)>)
    ensures p == TrendsOf(t, cur)
  {
    p := [];
    var i := 0;
    while i < |t|
      invariant 0 <= i <= |t|
      invariant p + TrendsOf(t[i..], cur) == TrendsOf(t, cur)
    {
      var (d, scores) := t[i];
      assert t[i..][1..] == t[i + 1..];
      var more := if Compared(scores, cur, d) then [(d, Entry(scores, FindDim(cur, d).value))] else [];
      ConcatAssoc(p, more, TrendsOf(t[i + 1..], cur));
      p := p + more;
      i := i + 1;
    }
  }

  /** `compute_progress`, given the rows of the recent-history query. */
  method ComputeProgress(history: seq<Row>, cur: seq<DimensionScore>) returns (r: Option<seq<(Dim, DimProgress)>>)
    ensures r == ProgressOf(history, cur)
  {
    if |history| < 3 {
      return Some([]);
    }
    var t := FoldLoop(Initial(cur), history[1..]);
    if t.None? {
      return None;
    }
    var p := TrendsLoop(t.value, cur);
    r := Some(p);
  }

  // ---------------------------------------------------------------
  // explain_job
  // ---------------------------------------------------------------

  datatype Format = Terminal | Json

  /** What `explain_job` produces: nothing for a missing job, a raise, or a report of the given format. */
  datatype Explanation =
    | NotFound
    | Failed
    | Explained(format: Format, fingerprint: JobFingerprint, summary: Row, progress: seq<(Dim, DimProgress)>)

  /** `load_job` finding a row: a present, non-empty record. */
  predicate Found(job: Option<Row>)
  {
    job.Some? && job.value != map[]
  }

  /**
   * `explain_job`: `job` and `summary` are what the two lookups return and
   * `history` the recent-history rows of the fingerprint's user.
   */
  function ExplainJob(job: Option<Row>, summary: Option<Row>, history: seq<Row>, showProgress: bool, outputFormat: string): (r: Explanation)
    ensures r.NotFound? <==> !Found(job)
    ensures r.Failed? <==>
      && Found(job)
      && (!WellTyped(job.value, summary.GetOr(map[]))
          || (showProgress && ProgressOf(history, ScoreJob(job.value, summary.GetOr(map[])).dimensions).None?))
    ensures r.Explained? ==>
      && WellTyped(job.value, summary.GetOr(map[]))
      && r.fingerprint == ScoreJob(job.value, summary.GetOr(map[]))
    ensures r.Explained? && (summary.None? || summary.value == map[]) ==> r.summary == map[]
    ensures r.Explained? && !showProgress ==> r.progress == []
    ensures r.Explained? && showProgress ==> ProgressOf(history, r.fingerprint.dimensions) == Some(r.progress)
    ensures r.Explained? ==> (r.format == Json <==> outputFormat == "json")
  {
    if !Found(job) then NotFound
    else
      var s := if summary.None? || summary.value == map[] then map[] else summary.value;
      if !WellTyped(job.value, s) then Failed
      else
        var fp := ScoreJob(job.value, s);
        var progress := if showProgress then ProgressOf(history, fp.dimensions) else Some([]);
        if progress.None? then Failed
        else Explained(if outputFormat == "json" then Json else Terminal, fp, s, progress.value)
  }

  /** The five dimensions of a scored job are distinct, so the progress lemmas apply to it. */
  lemma ScoredDimsDistinct(job: Row, summary: Row)
    requires WellTyped(job, summary)
    ensures NoDup(DimsOf(ScoreJob(job, summary).dimensions))
  {
    var ds: seq<Dim> := [Cpu, Memory, Time, Io, Gpu];
    assert forall i, j :: 0 <= i < j < 5 ==> ds[i] != ds[j];
  }

  /**
   * A report with progress lists a dimension exactly when it is compared,
   * with the entry built from the older rows' scores and the job's own.
   */
  lemma ExplainedProgress(job: Option<Row>, summary: Option<Row>, history: seq<Row>, outputFormat: string, d: Dim)
    requires ExplainJob(job, summary, history, true, outputFormat).Explained?
    ensures var e := ExplainJob(job, summary, history, true, outputFormat);
      Assoc.Get(e.progress, d).Some? <==> |history| >= 3 && Compared(HistScores(HistoryOf(history[1..]), d), e.fingerprint.dimensions, d)
  {
    var e := ExplainJob(job, summary, history, true, outputFormat);
    ScoredDimsDistinct(job.value, summary.GetOr(map[]));
    ProgressReported(history, e.fingerprint.dimensions, d);
  }
}
