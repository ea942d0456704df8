// The summaries and the report that nomade/collectors/interactive.py builds
// from the collected sessions: `_build_summary` and `get_report` (per-user
// statistics, per-type statistics, and the stale-session, memory-hog and
// idle-session-hog alerts). Rounding and the time stamp are not modelled.
module InteractiveReport {
  import opened Wrappers
  import opened Interactive
  import Lists
  import Assoc
  import Sorting

  /** `s.get('age_hours', 0) or 0`: a missing age counts as zero. */
  function AgeOrZero(s: Session): real
  {
    if s.ageHours.Some? then s.ageHours.value else 0.0
  }

  function One(b: bool): nat
  {
    if b then 1 else 0
  }

  lemma PrefixLast<T>(xs: seq<T>, i: nat)
    requires i < |xs|
    ensures xs[..i + 1][..i] == xs[..i] && xs[..i + 1][i] == xs[i]
  {
  }

  // ---------------------------------------------------------------
  // `_build_summary`
  // ---------------------------------------------------------------

  /** The summary counts idle sessions whose age, zero when unknown, reaches the idle limit. */
  predicate CountedStale(c: Collector, s: Session)
  {
    s.isIdle && AgeOrZero(s) >= c.idleSessionHours
  }

  predicate IsHog(c: Collector, s: Session)
  {
    s.memMb >= c.memoryHogMb
  }

  /** The variables of the loop in `_build_summary`. */
  datatype Tally = Tally(
    users: set<string>,
    memory: real,
    idle: nat,
    rstudio: nat,
    jupyterPython: nat,
    jupyterR: nat,
    stale: nat,
    hogs: nat)

  const NoTally: Tally := Tally({}, 0.0, 0, 0, 0, 0, 0, 0)

  function TallyStep(c: Collector, t: Tally, s: Session): Tally
  {
    Tally(
      t.users + {s.user},
      t.memory + s.memMb,
      t.idle + One(s.isIdle),
      t.rstudio + One(s.sessionType == RStudio),
      t.jupyterPython + One(s.sessionType == JupyterPython),
      t.jupyterR + One(s.sessionType == JupyterR),
      t.stale + One(CountedStale(c, s)),
      t.hogs + One(IsHog(c, s)))
  }

  function TallyOf(c: Collector, ss: seq<Session>): Tally
  {
    if |ss| == 0 then NoTally
    else TallyStep(c, TallyOf(c, ss[..|ss| - 1]), ss[|ss| - 1])
  }

  /** The dictionary `_build_summary` returns (the memory total is not rounded). */
  datatype Summary = Summary(
    totalSessions: nat,
    idleSessions: nat,
    totalMemoryMb: real,
    uniqueUsers: nat,
    rstudioSessions: nat,
    jupyterPythonSessions: nat,
    jupyterRSessions: nat,
    staleSessions: nat,
    memoryHogSessions: nat)

  function SummaryOf(c: Collector, ss: seq<Session>): Summary
  {
    var t := TallyOf(c, ss);
    Summary(|ss|, t.idle, t.memory, |t.users|, t.rstudio, t.jupyterPython, t.jupyterR, t.stale, t.hogs)
  }

  /** The body of the loop in `_build_summary` for one session. */
  method CountSession(c: Collector, t: Tally, s: Session) returns (r: Tally)
    ensures r == TallyStep(c, t, s)
  {
    var idle, rstudio, jupyterPython, jupyterR, stale, hogs := t.idle, t.rstudio, t.jupyterPython, t.jupyterR, t.stale, t.hogs;
    if s.isIdle {
      idle := idle + 1;
    }
    if s.sessionType == RStudio {
      rstudio := rstudio + 1;
    } else if s.sessionType == JupyterPython {
      jupyterPython := jupyterPython + 1;
    } else if s.sessionType == JupyterR {
      jupyterR := jupyterR + 1;
    }
    if s.isIdle && AgeOrZero(s) >= c.idleSessionHours {
      stale := stale + 1;
    }
    if s.memMb >= c.memoryHogMb {
      hogs := hogs + 1;
    }
    r := Tally(t.users + {s.user}, t.memory + s.memMb, idle, rstudio, jupyterPython, jupyterR, stale, hogs);
  }

  method BuildSummary(c: Collector, ss: seq<Session>) returns (r: Summary)
    ensures r == SummaryOf(c, ss)
  {
    var t := NoTally;
    var i := 0;
    while i < |ss|
      invariant 0 <= i <= |ss|
      invariant TallyOf(c, ss[..i]) == t
    {
      PrefixLast(ss, i);
      t := CountSession(c, t, ss[i]);
      i := i + 1;
    }
    assert ss[..i] == ss;
    r := Summary(|ss|, t.idle, t.memory, |t.users|, t.rstudio, t.jupyterPython, t.jupyterR, t.stale, t.hogs);
  }

  function UserNames(ss: seq<Session>): set<string>
  {
    set s | s in ss :: s.user
  }

  /** The unique users are exactly the users of the sessions, so there are no more of them than sessions. */
  lemma {:induction false} SummaryUsers(c: Collector, ss: seq<Session>)
    ensures TallyOf(c, ss).users == UserNames(ss)
    ensures SummaryOf(c, ss).uniqueUsers <= SummaryOf(c, ss).totalSessions
  {
    if |ss| > 0 {
      var init, s := ss[..|ss| - 1], ss[|ss| - 1];
      SummaryUsers(c, init);
      assert ss == init + [s];
      assert UserNames(ss) == UserNames(init) + {s.user};
    }
  }

  /**
   * The counts of a summary are bounded by the number of sessions: stale
   * sessions are idle and the three typed counts do not overlap.
   */
  lemma {:induction false} SummaryBounds(c: Collector, ss: seq<Session>)
    ensures SummaryOf(c, ss).idleSessions <= SummaryOf(c, ss).totalSessions
    ensures SummaryOf(c, ss).staleSessions <= SummaryOf(c, ss).idleSessions
    ensures SummaryOf(c, ss).memoryHogSessions <= SummaryOf(c, ss).totalSessions
    ensures SummaryOf(c, ss).rstudioSessions + SummaryOf(c, ss).jupyterPythonSessions
          + SummaryOf(c, ss).jupyterRSessions <= SummaryOf(c, ss).totalSessions
  {
    if |ss| > 0 {
      SummaryBounds(c, ss[..|ss| - 1]);
    }
  }

  // ---------------------------------------------------------------
  // `get_report`: per-user statistics
  // ---------------------------------------------------------------

  /** The statistics `get_report` keeps per user; every session that is not RStudio counts as Jupyter. */
  datatype UserStats = UserStats(sessions: nat, memoryMb: real, idle: nat, rstudio: nat, jupyter: nat)

  const NoStats: UserStats := UserStats(0, 0.0, 0, 0, 0)

  function AddSession(u: UserStats, s: Session): UserStats
  {
    UserStats(
      u.sessions + 1,
      u.memoryMb + s.memMb,
      u.idle + One(s.isIdle),
      u.rstudio + One(s.sessionType == RStudio),
      u.jupyter + One(s.sessionType != RStudio))
  }

  /** The `users` dictionary: users in order of their first session. */
  function UsersOf(ss: seq<Session>): seq<(string, UserStats)>
  {
    if |ss| == 0 then []
    else
      var a, s := UsersOf(ss[..|ss| - 1]), ss[|ss| - 1];
      Assoc.Put(a, s.user, AddSession(Assoc.Get(a, s.user).GetOr(NoStats), s))
  }

  /** The statistics of one user's sessions, computed on their own. */
  function StatsOf(ss: seq<Session>, user: string): UserStats
  {
    if |ss| == 0 then NoStats
    else
      var init, s := ss[..|ss| - 1], ss[|ss| - 1];
      if s.user == user then AddSession(StatsOf(init, user), s) else StatsOf(init, user)
  }

  /** The body of the loop over the sessions in `get_report` for one session. */
  method AddUserSession(a: seq<(string, UserStats)>, s: Session) returns (r: seq<(string, UserStats)>)
    ensures r == Assoc.Put(a, s.user, AddSession(Assoc.Get(a, s.user).GetOr(NoStats), s))
  {
    var stats := Assoc.Get(a, s.user).GetOr(NoStats);
    var sessions, memory, idle, rstudio, jupyter := stats.sessions + 1, stats.memoryMb + s.memMb, stats.idle, stats.rstudio, stats.jupyter;
    if s.sessionType == RStudio {
      rstudio := rstudio + 1;
    } else {
      jupyter := jupyter + 1;
    }
    if s.isIdle {
      idle := idle + 1;
    }
    r := Assoc.Put(a, s.user, UserStats(sessions, memory, idle, rstudio, jupyter));
  }

  method BuildUsers(ss: seq<Session>) returns (users: seq<(string, UserStats)>)
    ensures users == UsersOf(ss)
  {
    users := [];
    var i := 0;
    while i < |ss|
      invariant 0 <= i <= |ss|
      invariant UsersOf(ss[..i]) == users
    {
      PrefixLast(ss, i);
      users := AddUserSession(users, ss[i]);
      i := i + 1;
    }
    assert ss[..i] == ss;
  }

  /** A user has an entry exactly when some session is theirs, and it holds the statistics of their sessions. */
  lemma {:induction false} UsersGet(ss: seq<Session>, user: string)
    ensures Assoc.Get(UsersOf(ss), user) == if user in UserNames(ss) then Some(StatsOf(ss, user)) else None
  {
    if |ss| > 0 {
      var init, s := ss[..|ss| - 1], ss[|ss| - 1];
      var a := UsersOf(init);
      UsersGet(init, user);
      if user !in UserNames(init) {
        StatsOfAbsent(init, user);
      }
      Assoc.GetPut(a, s.user, AddSession(Assoc.Get(a, s.user).GetOr(NoStats), s), user);
      assert ss == init + [s];
      assert UserNames(ss) == UserNames(init) + {s.user};
    }
  }

  lemma {:induction false} StatsOfAbsent(ss: seq<Session>, user: string)
    requires user !in UserNames(ss)
    ensures StatsOf(ss, user) == NoStats
  {
    if |ss| > 0 {
      var init := ss[..|ss| - 1];
      assert UserNames(init) <= UserNames(ss);
      assert ss[|ss| - 1] in ss;
      StatsOfAbsent(init, user);
    }
  }

  /** Every user of a session has exactly one entry, and nobody else has one. */
  lemma {:induction false} UsersKeys(ss: seq<Session>)
    ensures (forall u :: u in Assoc.Keys(UsersOf(ss)) <==> u in UserNames(ss))
    ensures |UsersOf(ss)| == |UserNames(ss)|
  {
    if |ss| > 0 {
      var init, s := ss[..|ss| - 1], ss[|ss| - 1];
      var a := UsersOf(init);
      UsersKeys(init);
      Assoc.KeysPut(a, s.user, AddSession(Assoc.Get(a, s.user).GetOr(NoStats), s));
      assert ss == init + [s];
      assert UserNames(ss) == UserNames(init) + {s.user};
    }
  }

  /** The user list and the summary agree on the number of users. */
  lemma UsersCounted(c: Collector, ss: seq<Session>)
    ensures |UsersOf(ss)| == SummaryOf(c, ss).uniqueUsers
  {
    UsersKeys(ss);
    SummaryUsers(c, ss);
  }

  function UserMemory(u: UserStats): real
  {
    u.memoryMb
  }

  function UserSessions(u: UserStats): real
  {
    u.sessions as real
  }

  /** Every session is counted for exactly one user: the users' sessions and memory add up to the summary's. */
  lemma {:induction false} UsersAddUp(c: Collector, ss: seq<Session>)
    ensures Assoc.SumOver(UsersOf(ss), UserSessions) == |ss| as real
    ensures Assoc.SumOver(UsersOf(ss), UserMemory) == SummaryOf(c, ss).totalMemoryMb
  {
    if |ss| > 0 {
      var init, s := ss[..|ss| - 1], ss[|ss| - 1];
      var a := UsersOf(init);
      var v := AddSession(Assoc.Get(a, s.user).GetOr(NoStats), s);
      UsersAddUp(c, init);
      Assoc.SumOverPut(a, s.user, v, UserSessions);
      Assoc.SumOverPut(a, s.user, v, UserMemory);
    }
  }

  /** A user's RStudio and Jupyter sessions make up all their sessions, and their idle sessions are among them. */
  lemma {:induction false} StatsConsistent(ss: seq<Session>, user: string)
    ensures StatsOf(ss, user).rstudio + StatsOf(ss, user).jupyter == StatsOf(ss, user).sessions
    ensures StatsOf(ss, user).idle <= StatsOf(ss, user).sessions
  {
    if |ss| > 0 {
      StatsConsistent(ss[..|ss| - 1], user);
    }
  }

  // ---------------------------------------------------------------
  // `get_report`: alerts
  // ---------------------------------------------------------------

  /** A stale-session alert: idle, with a known age that is not zero and reaches the idle limit. */
  predicate StaleAlert(c: Collector, s: Session)
  {
    s.isIdle && s.ageHours.Some? && s.ageHours.value != 0.0 && s.ageHours.value >= c.idleSessionHours
  }

  function StaleSessions(c: Collector, ss: seq<Session>): seq<Session>
  {
    if |ss| == 0 then []
    else StaleSessions(c, ss[..|ss| - 1]) + (if StaleAlert(c, ss[|ss| - 1]) then [ss[|ss| - 1]] else [])
  }

  function MemoryHogs(c: Collector, ss: seq<Session>): seq<Session>
  {
    if |ss| == 0 then []
    else MemoryHogs(c, ss[..|ss| - 1]) + (if IsHog(c, ss[|ss| - 1]) then [ss[|ss| - 1]] else [])
  }

  /** Users with more idle sessions than the collector allows, in the order of the list they come from. */
  function IdleSessionHogs(c: Collector, users: seq<(string, UserStats)>): seq<(string, UserStats)>
  {
    if |users| == 0 then []
    else
      var u := users[|users| - 1];
      IdleSessionHogs(c, users[..|users| - 1]) + (if u.1.idle > c.maxIdleSessions then [u] else [])
  }

  /** The stale alerts are exactly the sessions that are idle with a nonzero age of at least the limit. */
  lemma {:induction false} StaleMembers(c: Collector, ss: seq<Session>)
    ensures forall s :: s in StaleSessions(c, ss) <==> s in ss && StaleAlert(c, s)
  {
    if |ss| > 0 {
      StaleMembers(c, ss[..|ss| - 1]);
      assert ss == ss[..|ss| - 1] + [ss[|ss| - 1]];
    }
  }

  /** The memory hogs are exactly the sessions using at least the memory limit. */
  lemma {:induction false} HogMembers(c: Collector, ss: seq<Session>)
    ensures forall s :: s in MemoryHogs(c, ss) <==> s in ss && IsHog(c, s)
  {
    if |ss| > 0 {
      HogMembers(c, ss[..|ss| - 1]);
      assert ss == ss[..|ss| - 1] + [ss[|ss| - 1]];
    }
  }

  /** The idle-session hogs are exactly the listed users over the idle-session limit. */
  lemma {:induction false} IdleHogMembers(c: Collector, users: seq<(string, UserStats)>)
    ensures forall u :: u in IdleSessionHogs(c, users) <==> u in users && u.1.idle > c.maxIdleSessions
  {
    if |users| > 0 {
      IdleHogMembers(c, users[..|users| - 1]);
      assert users == users[..|users| - 1] + [users[|users| - 1]];
    }
  }

  /** The summary counts as many memory hogs as the alert lists. */
  lemma {:induction false} HogsCounted(c: Collector, ss: seq<Session>)
    ensures |MemoryHogs(c, ss)| == SummaryOf(c, ss).memoryHogSessions
  {
    if |ss| > 0 {
      HogsCounted(c, ss[..|ss| - 1]);
    }
  }

  /**
   * With a positive idle limit the summary counts as many stale sessions as
   * the alert lists: an unknown or zero age is below the limit either way.
   */
  lemma {:induction false} StaleCounted(c: Collector, ss: seq<Session>)
    requires c.idleSessionHours > 0.0
    ensures |StaleSessions(c, ss)| == SummaryOf(c, ss).staleSessions
  {
    if |ss| > 0 {
      var s := ss[|ss| - 1];
      StaleCounted(c, ss[..|ss| - 1]);
      assert CountedStale(c, s) <==> StaleAlert(c, s);
    }
  }

  /**
   * With an idle limit of zero or less the two disagree: an idle session
   * whose age is unknown is counted stale by the summary but raises no alert.
   */
  lemma StaleDisagree(c: Collector, s: Session)
    requires c.idleSessionHours <= 0.0 && s.isIdle && s.ageHours.None?
    ensures SummaryOf(c, [s]).staleSessions == 1 && StaleSessions(c, [s]) == []
  {
    assert [s][..0] == [];
    assert TallyOf(c, [s]) == TallyStep(c, NoTally, s);
    assert StaleSessions(c, [s]) == StaleSessions(c, []) + [];
  }

  // ---------------------------------------------------------------
  // `get_report`: statistics per session type
  // ---------------------------------------------------------------

  datatype TypeStats = TypeStats(total: nat, idle: nat, memoryMb: real)

  const NoTypeStats: TypeStats := TypeStats(0, 0, 0.0)

  /** The `by_type` dictionary, one entry for each of the four session types. */
  datatype ByType = ByType(rstudio: TypeStats, jupyterPython: TypeStats, jupyterR: TypeStats, jupyterServer: TypeStats)

  const NoByType: ByType := ByType(NoTypeStats, NoTypeStats, NoTypeStats, NoTypeStats)

  function StatsFor(b: ByType, t: SessionType): TypeStats
  {
    match t
    case RStudio => b.rstudio
    case JupyterPython => b.jupyterPython
    case JupyterR => b.jupyterR
    case JupyterServer => b.jupyterServer
  }

  function WithStats(b: ByType, t: SessionType, ts: TypeStats): ByType
  {
    match t
    case RStudio => b.(rstudio := ts)
    case JupyterPython => b.(jupyterPython := ts)
    case JupyterR => b.(jupyterR := ts)
    case JupyterServer => b.(jupyterServer := ts)
  }

  function AddToType(ts: TypeStats, s: Session): TypeStats
  {
    TypeStats(ts.total + 1, ts.idle + One(s.isIdle), ts.memoryMb + s.memMb)
  }

  function ByTypeOf(ss: seq<Session>): ByType
  {
    if |ss| == 0 then NoByType
    else
      var b, s := ByTypeOf(ss[..|ss| - 1]), ss[|ss| - 1];
      WithStats(b, s.sessionType, AddToType(StatsFor(b, s.sessionType), s))
  }

  /** The statistics of the sessions of one type, computed on their own. */
  function TypeStatsOf(ss: seq<Session>, t: SessionType): TypeStats
  {
    if |ss| == 0 then NoTypeStats
    else
      var init, s := ss[..|ss| - 1], ss[|ss| - 1];
      if s.sessionType == t then AddToType(TypeStatsOf(init, t), s) else TypeStatsOf(init, t)
  }

  /** The body of the loop over the sessions that fills `by_type`. */
  method AddByType(b: ByType, s: Session) returns (r: ByType)
    ensures r == WithStats(b, s.sessionType, AddToType(StatsFor(b, s.sessionType), s))
  {
    var ts := StatsFor(b, s.sessionType);
    var idle := ts.idle;
    if s.isIdle {
      idle := idle + 1;
    }
    r := WithStats(b, s.sessionType, TypeStats(ts.total + 1, idle, ts.memoryMb + s.memMb));
  }

  method BuildByType(ss: seq<Session>) returns (b: ByType)
    ensures b == ByTypeOf(ss)
  {
    b := NoByType;
    var i := 0;
    while i < |ss|
      invariant 0 <= i <= |ss|
      invariant ByTypeOf(ss[..i]) == b
    {
      PrefixLast(ss, i);
      b := AddByType(b, ss[i]);
      i := i + 1;
    }
    assert ss[..i] == ss;
  }

  /** Each type's entry holds exactly the statistics of the sessions of that type. */
  lemma {:induction false} ByTypeGet(ss: seq<Session>, t: SessionType)
    ensures StatsFor(ByTypeOf(ss), t) == TypeStatsOf(ss, t)
  {
    if |ss| > 0 {
      ByTypeGet(ss[..|ss| - 1], t);
    }
  }

  /**
   * The four totals add up to the number of sessions, the idle counts to the
   * summary's idle count, and the RStudio and the two Jupyter kernel counts
   * agree with the summary.
   */
  lemma {:induction false} TypesCounted(c: Collector, ss: seq<Session>)
    ensures TypeStatsOf(ss, RStudio).total + TypeStatsOf(ss, JupyterPython).total
          + TypeStatsOf(ss, JupyterR).total + TypeStatsOf(ss, JupyterServer).total == |ss|
    ensures TypeStatsOf(ss, RStudio).idle + TypeStatsOf(ss, JupyterPython).idle
          + TypeStatsOf(ss, JupyterR).idle + TypeStatsOf(ss, JupyterServer).idle == SummaryOf(c, ss).idleSessions
    ensures TypeStatsOf(ss, RStudio).total == SummaryOf(c, ss).rstudioSessions
    ensures TypeStatsOf(ss, JupyterPython).total == SummaryOf(c, ss).jupyterPythonSessions
    ensures TypeStatsOf(ss, JupyterR).total == SummaryOf(c, ss).jupyterRSessions
  {
    if |ss| > 0 {
      TypesCounted(c, ss[..|ss| - 1]);
    }
  }

  /** A type's idle sessions are among its sessions. */
  lemma {:induction false} TypeIdleBound(ss: seq<Session>, t: SessionType)
    ensures TypeStatsOf(ss, t).idle <= TypeStatsOf(ss, t).total
  {
    if |ss| > 0 {
      TypeIdleBound(ss[..|ss| - 1], t);
    }
  }

  // ---------------------------------------------------------------
  // `get_report`
  // ---------------------------------------------------------------

  /** Sort keys: `-mem_mb`, `-age_hours` and a user's `-memory_mb`, for descending orders. */
  function ByMemory(s: Session): real
  {
    -s.memMb
  }

  function ByAge(s: Session): real
  {
    -AgeOrZero(s)
  }

  function ByUserMemory(u: (string, UserStats)): real
  {
    -u.1.memoryMb
  }

  /** The `summary` entry of the report: five of the summary's figures and the memory in GB (not rounded). */
  datatype ReportSummary = ReportSummary(
    totalSessions: nat,
    idleSessions: nat,
    totalMemoryMb: real,
    totalMemoryGb: real,
    uniqueUsers: nat)

  datatype Thresholds = Thresholds(idleSessionHours: real, memoryHogMb: real, maxIdleSessions: int)

  /** The dictionary `get_report` returns, without its time stamp. */
  datatype Report = Report(
    serverId: string,
    summary: ReportSummary,
    byType: ByType,
    users: seq<(string, UserStats)>,
    sessions: seq<Session>,
    staleSessions: seq<Session>,
    memoryHogs: seq<Session>,
    idleSessionHogs: seq<(string, UserStats)>,
    thresholds: Thresholds)

  function ReportOf(c: Collector, ss: seq<Session>): Report
  {
    var sum := SummaryOf(c, ss);
    var users := Sorting.SortBy(UsersOf(ss), ByUserMemory);
    Report(
      c.serverId,
      ReportSummary(sum.totalSessions, sum.idleSessions, sum.totalMemoryMb, sum.totalMemoryMb / 1024.0, sum.uniqueUsers),
      ByTypeOf(ss),
      users,
      Sorting.SortBy(ss, ByMemory),
      Sorting.SortBy(StaleSessions(c, ss), ByAge),
      Sorting.SortBy(MemoryHogs(c, ss), ByMemory),
      IdleSessionHogs(c, users),
      Thresholds(c.idleSessionHours, c.memoryHogMb, c.maxIdleSessions))
  }

  /** The report of a collection; None when `collect` raises. */
  function ReportFor(c: Collector, psOutput: Option<string>, probe: int -> ProcFacts): Option<Report>
  {
    match SessionsOf(c, psOutput, probe)
    case None => None
    case Some(ss) => Some(ReportOf(c, ss))
  }

  /** The report of the collected sessions, built by the loops of `get_report` and `_build_summary`. */
  method BuildReport(c: Collector, ss: seq<Session>) returns (report: Report)
    ensures report == ReportOf(c, ss)
  {
    var sum := BuildSummary(c, ss);
    var users := BuildUsers(ss);
    var userList := Sorting.SortBy(users, ByUserMemory);
    var byType := BuildByType(ss);
    report := Report(
      c.serverId,
      ReportSummary(sum.totalSessions, sum.idleSessions, sum.totalMemoryMb, sum.totalMemoryMb / 1024.0, sum.uniqueUsers),
      byType,
      userList,
      Sorting.SortBy(ss, ByMemory),
      Sorting.SortBy(StaleSessions(c, ss), ByAge),
      Sorting.SortBy(MemoryHogs(c, ss), ByMemory),
      IdleSessionHogs(c, userList),
      Thresholds(c.idleSessionHours, c.memoryHogMb, c.maxIdleSessions));
  }

  /** `InteractiveCollector.get_report`: collect the sessions, then report on them. */
  method GetReport(c: Collector, psOutput: Option<string>, probe: int -> ProcFacts) returns (r: Option<Report>)
    ensures r == ReportFor(c, psOutput, probe)
  {
    var collected := Collect(c, psOutput, probe);
    if collected.None? {
      return None;
    }
    var report := BuildReport(c, collected.value);
    return Some(report);
  }

  /** The report lists every session once, the largest memory first, and counts them in its summary. */
  lemma ReportSessions(c: Collector, ss: seq<Session>)
    ensures multiset(ReportOf(c, ss).sessions) == multiset(ss)
    ensures Sorting.SortedBy(ReportOf(c, ss).sessions, ByMemory)
    ensures ReportOf(c, ss).summary.totalSessions == |ReportOf(c, ss).sessions|
  {
    Sorting.SortBySpec(ss, ByMemory);
  }

  /** The report lists every user once, the largest memory first, and counts them in its summary. */
  lemma ReportUsers(c: Collector, ss: seq<Session>)
    ensures multiset(ReportOf(c, ss).users) == multiset(UsersOf(ss))
    ensures Sorting.SortedBy(ReportOf(c, ss).users, ByUserMemory)
    ensures ReportOf(c, ss).summary.uniqueUsers == |ReportOf(c, ss).users|
  {
    Sorting.SortBySpec(UsersOf(ss), ByUserMemory);
    UsersCounted(c, ss);
  }

  /**
   * The alerts hold the memory hogs, the largest first, as many as the
   * summary counts, and the stale sessions, the oldest first; the
   * idle-session hogs are the listed users over the idle limit.
   */
  lemma ReportAlerts(c: Collector, ss: seq<Session>)
    ensures multiset(ReportOf(c, ss).memoryHogs) == multiset(MemoryHogs(c, ss))
    ensures Sorting.SortedBy(ReportOf(c, ss).memoryHogs, ByMemory)
    ensures |ReportOf(c, ss).memoryHogs| == SummaryOf(c, ss).memoryHogSessions
    ensures multiset(ReportOf(c, ss).staleSessions) == multiset(StaleSessions(c, ss))
    ensures Sorting.SortedBy(ReportOf(c, ss).staleSessions, ByAge)
    ensures c.idleSessionHours > 0.0 ==> |ReportOf(c, ss).staleSessions| == SummaryOf(c, ss).staleSessions
    ensures forall u :: u in ReportOf(c, ss).idleSessionHogs
                    <==> u in ReportOf(c, ss).users && u.1.idle > c.maxIdleSessions
  {
    Sorting.SortBySpec(MemoryHogs(c, ss), ByMemory);
    Sorting.SortBySpec(StaleSessions(c, ss), ByAge);
    HogsCounted(c, ss);
    if c.idleSessionHours > 0.0 {
      StaleCounted(c, ss);
    }
    IdleHogMembers(c, ReportOf(c, ss).users);
  }
}
