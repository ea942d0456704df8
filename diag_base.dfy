// Shared pieces of the diagnostic framework: the issue-accumulating
// report and its severity, the duration formatter, the severity and
// device-status colours, and the analyzer registry.
module DiagBase {
  import opened Wrappers
  import opened Text
  import Lists

  // ---------------------------------------------------------------
  // Issues and the diagnostic report
  // ---------------------------------------------------------------

  /** A detected issue; its `evidence` dictionary is not modelled. */
  datatype Issue = Issue(
    category: string,
    severity: string,
    title: string,
    detail: string,
    recommendations: seq<string>)

  datatype Severity = Critical | Warning | Info | Healthy
  {
    function Label(): string
    {
      match this
      case Critical => "critical"
      case Warning => "warning"
      case Info => "info"
      case Healthy => "healthy"
    }

    function Rank(): nat
    {
      match this
      case Healthy => 0
      case Info => 1
      case Warning => 2
      case Critical => 3
    }
  }

  predicate AnyWithSeverity(issues: seq<Issue>, sev: string)
  {
    exists k :: 0 <= k < |issues| && issues[k].severity == sev
  }

  /** The `severity` property: the worst issue decides; no issue is healthy. */
  function SeverityOf(issues: seq<Issue>): Severity
  {
    if AnyWithSeverity(issues, "critical") then Critical
    else if AnyWithSeverity(issues, "warning") then Warning
    else if |issues| > 0 then Info
    else Healthy
  }

  /** The rank a single issue contributes: unknown severity labels count as info. */
  function IssueRank(i: Issue): nat
  {
    if i.severity == "critical" then 3 else if i.severity == "warning" then 2 else 1
  }

  /** Reference definition: the largest rank over the issues, 0 for none. */
  function WorstRank(issues: seq<Issue>): nat
  {
    if |issues| == 0 then 0
    else
      var w := WorstRank(issues[..|issues| - 1]);
      var r := IssueRank(issues[|issues| - 1]);
      if r > w then r else w
  }

  lemma AnyAppend(issues: seq<Issue>, i: Issue, sev: string)
    ensures AnyWithSeverity(issues + [i], sev) <==> AnyWithSeverity(issues, sev) || i.severity == sev
  {
    var s := issues + [i];
    if AnyWithSeverity(issues, sev) {
      var k :| 0 <= k < |issues| && issues[k].severity == sev;
      assert s[k] == issues[k];
    }
    if i.severity == sev {
      assert s[|issues|] == i;
    }
    if AnyWithSeverity(s, sev) {
      var k :| 0 <= k < |s| && s[k].severity == sev;
      if k < |issues| {
        assert s[k] == issues[k];
      }
    }
  }

  /** `severity` is exactly the worst issue's rank. */
  lemma {:induction false} SeverityIsWorstIssue(issues: seq<Issue>)
    ensures SeverityOf(issues).Rank() == WorstRank(issues)
  {
    if |issues| > 0 {
      var init, last := issues[..|issues| - 1], issues[|issues| - 1];
      assert issues == init + [last];
      SeverityIsWorstIssue(init);
      AnyAppend(init, last, "critical");
      AnyAppend(init, last, "warning");
    }
  }

  /** Adding an issue never lowers the report's severity. */
  lemma SeverityMonotone(issues: seq<Issue>, i: Issue)
    ensures SeverityOf(issues + [i]).Rank() >= SeverityOf(issues).Rank()
  {
    SeverityIsWorstIssue(issues);
    SeverityIsWorstIssue(issues + [i]);
    assert (issues + [i])[..|issues|] == issues;
  }

  /**
   * The report's issue list and aggregated recommendations; the device,
   * timestamp, metrics, history, users and jobs fields are carried by
   * other parts of the model and are not repeated here.
   */
  class DiagnosticReport {
    var issues: seq<Issue>
    var recommendations: seq<string>

    constructor ()
      ensures issues == [] && recommendations == []
    {
      issues := [];
      recommendations := [];
    }

    function Severity(): Severity
      reads this
    {
      SeverityOf(issues)
    }

    /** Appends the issue and extends the recommendations by its own, in order. */
    method AddIssue(issue: Issue)
      modifies this
      ensures issues == old(issues) + [issue]
      ensures recommendations == old(recommendations) + issue.recommendations
      ensures Severity().Rank() >= old(Severity().Rank())
    {
      SeverityMonotone(issues, issue);
      issues := issues + [issue];
      recommendations := recommendations + issue.recommendations;
    }
  }

  // ---------------------------------------------------------------
  // Duration formatting
  // ---------------------------------------------------------------

  /** `format_duration`; `None` is Python's None. */
  function FormatDuration(seconds: Option<int>): string
  {
    match seconds
    case None => "0s"
    case Some(s) =>
      if s == 0 then "0s"
      else if s < 60 then IntToString(s) + "s"
      else if s < 3600 then IntToString(s / 60) + "m " + IntToString(s % 60) + "s"
      else if s < 86400 then IntToString(s / 3600) + "h " + IntToString((s % 3600) / 60) + "m"
      else IntToString(s / 86400) + "d " + IntToString((s % 86400) / 3600) + "h"
  }

  /** Seconds represented by the last printed unit. */
  function Resolution(s: int): nat
  {
    if s < 3600 then 1 else if s < 86400 then 60 else 3600
  }

  /**
   * Reading the printed duration back gives the input exactly below one
   * hour, and otherwise the input truncated to whole minutes (below a day)
   * or whole hours.
   */
  lemma FormatDurationReadBack(s: int)
    requires s != 0
    ensures ReadDuration(FormatDuration(Some(s))).Some?
    ensures var r := ReadDuration(FormatDuration(Some(s))).value;
      r <= s < r + Resolution(s) && (s < 3600 ==> r == s)
  {
    if s < 60 {
      ReadOneField(IntToString(s), 's', s, s * 1);
    } else if s < 3600 {
      ReadBackMinutes(s);
    } else if s < 86400 {
      ReadBackHours(s);
    } else {
      ReadBackDays(s);
    }
  }

  lemma ReadBackMinutes(s: int)
    requires 60 <= s < 3600
    ensures ReadDuration(FormatDuration(Some(s))).Some?
    ensures ReadDuration(FormatDuration(Some(s))).value == s
  {
    var a, b := s / 60, s % 60;
    TwoFieldText(FormatDuration(Some(s)), IntToString(a), "m ", IntToString(b), "s");
    ReadTwoFields(IntToString(a), 'm', IntToString(b), 's', a, b, a * 60, b * 1);
    assert a * 60 + b * 1 == s;
  }

  lemma ReadBackHours(s: int)
    requires 3600 <= s < 86400
    ensures ReadDuration(FormatDuration(Some(s))).Some?
    ensures var r := ReadDuration(FormatDuration(Some(s))).value; r <= s < r + 60
  {
    var a, b := s / 3600, (s % 3600) / 60;
    TwoFieldText(FormatDuration(Some(s)), IntToString(a), "h ", IntToString(b), "m");
    ReadTwoFields(IntToString(a), 'h', IntToString(b), 'm', a, b, a * 3600, b * 60);
    TwoUnitArith(s, 3600, 60);
  }

  lemma ReadBackDays(s: int)
    requires 86400 <= s
    ensures ReadDuration(FormatDuration(Some(s))).Some?
    ensures var r := ReadDuration(FormatDuration(Some(s))).value; r <= s < r + 3600
  {
    var a, b := s / 86400, (s % 86400) / 3600;
    TwoFieldText(FormatDuration(Some(s)), IntToString(a), "d ", IntToString(b), "h");
    ReadTwoFields(IntToString(a), 'd', IntToString(b), 'h', a, b, a * 86400, b * 3600);
    TwoUnitArith(s, 86400, 3600);
  }

  /** Regroups "<x><u> <y><v>" as the read-back lemma expects it. */
  lemma TwoFieldText(t: string, x: string, us: string, y: string, vs: string)
    requires |us| == 2 && us[1] == ' ' && |vs| == 1
    requires t == x + us + y + vs
    ensures t == x + [us[0]] + " " + y + [vs[0]]
  {
    assert us == [us[0]] + " ";
  }

  /** s lies within one small unit above its big/small decomposition. */
  lemma TwoUnitArith(s: int, big: int, small: int)
    requires 0 < small && 0 <= s && big % small == 0 && 0 < big
    ensures var a, b := s / big, (s % big) / small;
      a * big + b * small <= s < a * big + b * small + small
  {
    var a, r := s / big, s % big;
    var b, c := r / small, r % small;
    assert s == a * big + r;
    assert r == b * small + c;
  }

  lemma FormatDurationZero()
    ensures FormatDuration(None) == "0s" && FormatDuration(Some(0)) == "0s"
  {
  }

  // ---------------------------------------------------------------
  // Colours
  // ---------------------------------------------------------------

  datatype Color = Red | Yellow | Cyan | Green | Gray

  /** `severity_color`: the four severity labels, anything else gray. */
  function SeverityColor(severity: string): Color
  {
    if severity == "critical" then Red
    else if severity == "warning" then Yellow
    else if severity == "info" then Cyan
    else if severity == "healthy" then Green
    else Gray
  }

  /** Every severity a report can have gets a colour of its own. */
  lemma SeverityColorOfReport(issues: seq<Issue>)
    ensures SeverityColor(SeverityOf(issues).Label()) != Gray
    ensures SeverityColor(SeverityOf(issues).Label()) == Red <==> AnyWithSeverity(issues, "critical")
  {
  }

  const GreenStatuses: set<string> := {"online", "idle", "allocated", "mixed", "up", "healthy", "ok"}
  const RedStatuses: set<string> := {"offline", "down", "drain", "error", "failed", "critical"}
  const YellowStatuses: set<string> := {"draining", "warning", "degraded", "maintenance"}

  /** `status_color`: compared after lower-casing; None is the empty status. */
  function StatusColor(status: Option<string>): Color
  {
    var s := Lower(status.GetOr(""));
    if s in GreenStatuses then Green
    else if s in RedStatuses then Red
    else if s in YellowStatuses then Yellow
    else Gray
  }

  /** The colour does not depend on letter case, and None is gray. */
  lemma StatusColorCaseInsensitive(status: string)
    ensures StatusColor(Some(status)) == StatusColor(Some(Lower(status)))
    ensures StatusColor(None) == Gray
  {
    LowerIdempotent(status);
    assert Lower("") == "";
  }

  // ---------------------------------------------------------------
  // Analyzer registry
  // ---------------------------------------------------------------

  /**
   * Registry of analyzer classes by name, passed around explicitly
   * instead of living in a class attribute. `order` is the dictionary's
   * insertion order, which `for_device` exposes.
   */
  class AnalyzerRegistry<C> {
    var order: seq<string>
    var analyzers: map<string, C>

    ghost predicate Valid()
      reads this
    {
      Lists.NoDup(order) && forall n :: n in analyzers <==> n in order
    }

    constructor ()
      ensures Valid() && order == [] && analyzers == map[]
    {
      order := [];
      analyzers := map[];
    }

    /** `register`: a new name is appended; a known name is overwritten in place. */
    method Register(name: string, analyzerClass: C)
      requires Valid()
      modifies this
      ensures Valid()
      ensures analyzers == old(analyzers)[name := analyzerClass]
      ensures order == if name in old(order) then old(order) else old(order) + [name]
      ensures Get(name) == Some(analyzerClass)
      ensures forall n :: n != name ==> Get(n) == old(Get(n))
    {
      if name !in order {
        order := order + [name];
      }
      analyzers := analyzers[name := analyzerClass];
    }

    /** `get`: None for an unknown name. */
    function Get(name: string): Option<C>
      reads this
    {
      if name in analyzers then Some(analyzers[name]) else None
    }

    /** `all`: a copy, which in the model is the map value itself. */
    function All(): map<string, C>
      reads this
    {
      analyzers
    }

    /** `for_device`: every registered class in insertion order, whatever the device type. */
    function ForDevice(deviceType: string): (r: seq<C>)
      reads this
      requires Valid()
      ensures |r| == |order|
      ensures forall k :: 0 <= k < |r| ==> Get(order[k]) == Some(r[k])
    {
      var names, table := order, analyzers;
      seq(|names|, k requires 0 <= k < |names| => table[names[k]])
    }
  }

  /** The `register_analyzer` decorator: registers the class and returns it unchanged. */
  method RegisterAnalyzer<C>(registry: AnalyzerRegistry<C>, name: string, cls: C) returns (r: C)
    requires registry.Valid()
    modifies registry
    ensures registry.Valid()
    ensures r == cls
    ensures registry.Get(name) == Some(cls)
    ensures forall n :: n != name ==> registry.Get(n) == old(registry.Get(n))
  {
    registry.Register(name, cls);
    r := cls;
  }
}
