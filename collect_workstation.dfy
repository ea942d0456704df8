// The workstation collector: the parsers for `uptime`, /proc/meminfo,
// `df -k` and `who` output, the per-host record and its health test, and
// the step-by-step collection of one host from its command outputs.
// Each parser is a method proved equal to a specification function on
// values; the properties are lemmas about those functions.
module CollectWorkstation {
  import opened Wrappers
  import opened Text
  import opened Lists

  // ---------------------------------------------------------------
  // uptime
  // ---------------------------------------------------------------
  // Each `...At(s, i)` is the match of one regular expression starting at
  // index `i` of `s`, resolved the way Python's backtracking engine
  // resolves it; `Search` finds the leftmost one. The matchers read the
  // suffix `s[i..]`.

  /** Regex `[\d.]`. */
  predicate NumChar(c: char)
  {
    IsDigit(c) || c == '.'
  }

  /** The text after a leading `,?\s*`. */
  function SkipSep(u: string): string
  {
    LStripBy(if |u| > 0 && u[0] == ',' then u[1..] else u, IsSpace)
  }

  /** The last `([\d.]+)` of the load pattern at the front of `t`: greedy, and nothing after it can fail. */
  function LastGroup(t: string): Option<string>
  {
    if |t| > 0 && NumChar(t[0]) then Some(t[..RunEnd(t, 0, NumChar)]) else None
  }

  /**
   * `([\d.]+),?\s*([\d.]+)` at the front of `t`, the first group being
   * `t[..e]` or, failing that, shorter: the engine gives a greedy group
   * back one character at a time. Backtracking into `,?` or `\s*` never
   * helps, since a group cannot start with a comma or a space.
   */
  function TwoFrom(t: string, e: nat): Option<(string, string)>
    requires 0 < e <= |t|
    decreases e
  {
    match LastGroup(SkipSep(t[e..]))
    case Some(b) => Some((t[..e], b))
    case None => if e == 1 then None else TwoFrom(t, e - 1)
  }

  function TwoGroups(t: string): Option<(string, string)>
  {
    if |t| > 0 && NumChar(t[0]) then TwoFrom(t, RunEnd(t, 0, NumChar)) else None
  }

  /** The three groups at the front of `t`, the first being `t[..e]` or shorter. */
  function ThreeFrom(t: string, e: nat): Option<(string, string, string)>
    requires 0 < e <= |t|
    decreases e
  {
    match TwoGroups(SkipSep(t[e..]))
    case Some(bc) => Some((t[..e], bc.0, bc.1))
    case None => if e == 1 then None else ThreeFrom(t, e - 1)
  }

  function ThreeGroups(t: string): Option<(string, string, string)>
  {
    if |t| > 0 && NumChar(t[0]) then ThreeFrom(t, RunEnd(t, 0, NumChar)) else None
  }

  /**
   * A match of `load average[s]?:\s*([\d.]+),?\s*([\d.]+),?\s*([\d.]+)`
   * at `i`: its three groups. The optional `s` is tried first; without it
   * the colon would have to stand where the `s` is, so at most one reading
   * succeeds.
   */
  function LoadAt(s: string, i: nat): Option<(string, string, string)>
  {
    if i > |s| then None
    else
      var t := s[i..];
      if StartsWith(t, "load averages:") then ThreeGroups(LStripBy(t[14..], IsSpace))
      else if StartsWith(t, "load average:") then ThreeGroups(LStripBy(t[13..], IsSpace))
      else None
  }

  /** A match of `up\s+(\d+)\s+day` at `i`: the digits. Every run is maximal, so the match is unique. */
  function DaysAt(s: string, i: nat): Option<string>
  {
    if i > |s| || !StartsWith(s[i..], "up") then None
    else
      var u := LStripBy(s[i + 2..], IsSpace);
      var d := RunEnd(u, 0, IsDigit);
      var v := LStripBy(u[d..], IsSpace);
      if |u| < |s| - i - 2 && d > 0 && |v| < |u| - d && StartsWith(v, "day") then Some(u[..d]) else None
  }

  /** A match of `(\d+):(\d+)` at `i`: hours and minutes. */
  function ClockAt(s: string, i: nat): Option<(string, string)>
  {
    if i > |s| then None
    else
      var t := s[i..];
      var h := RunEnd(t, 0, IsDigit);
      if 0 < h < |t| && t[h] == ':' then
        var u := t[h + 1..];
        var m := RunEnd(u, 0, IsDigit);
        if m > 0 then Some((t[..h], u[..m])) else None
      else None
  }

  /** A match of `up\s+` at `i`: the text after it. */
  function UpAt(s: string, i: nat): Option<string>
  {
    if i > |s| || !StartsWith(s[i..], "up") then None
    else
      var u := LStripBy(s[i + 2..], IsSpace);
      if |u| < |s| - i - 2 then Some(u) else None
  }

  datatype Uptime = Uptime(seconds: int, load1: real, load5: real, load15: real)

  /** The three load averages; `None` is the ValueError of `float()` on a group such as `1.2.3`. */
  function LoadsOf(output: string): Option<(real, real, real)>
  {
    match Search(output, 0, LoadAt)
    case None => Some((0.0, 0.0, 0.0))
    case Some(g) =>
      var a, b, c := PyFloat(g.0), PyFloat(g.1), PyFloat(g.2);
      if a.Some? && b.Some? && c.Some? then Some((a.value, b.value, c.value)) else None
  }

  /** The days term: 86400 times the number before `day`, or 0. */
  function DaysSeconds(output: string): nat
  {
    match Search(output, 0, DaysAt)
    case Some(d) => DigitsValue(d) * 86400
    case None => 0
  }

  /** The hours and minutes term as written: from the first `digits:digits` anywhere in the text. */
  function ClockSeconds(output: string): nat
  {
    match Search(output, 0, ClockAt)
    case Some(hm) => DigitsValue(hm.0) * 3600 + DigitsValue(hm.1) * 60
    case None => 0
  }

  /**
   * The corrected hours and minutes term, which `parse_uptime` evidently
   * intends: the first `digits:digits` after `up`, in the uptime field.
   */
  function UptimeClockSeconds(output: string): nat
  {
    match Search(output, 0, UpAt)
    case Some(after) =>
      (match Search(after, 0, ClockAt)
       case Some(hm) => DigitsValue(hm.0) * 3600 + DigitsValue(hm.1) * 60
       case None => 0)
    case None => 0
  }

  /**
   * `parse_uptime` as written: the hours and minutes come from the first
   * `digits:digits` anywhere in the output (see `ClockFinding`).
   */
  function UptimeOf(output: string): Option<Uptime>
  {
    var loads := LoadsOf(output);
    if loads.None? then None
    else Some(Uptime(DaysSeconds(output) + ClockSeconds(output), loads.value.0, loads.value.1, loads.value.2))
  }

  lemma UptimeFromParts(output: string, seconds: int, load1: real, load5: real, load15: real)
    requires LoadsOf(output) == Some((load1, load5, load15))
    requires seconds == DaysSeconds(output) + ClockSeconds(output)
    ensures UptimeOf(output).Some? && UptimeOf(output).value == Uptime(seconds, load1, load5, load15)
  {
  }

  /** `parse_uptime`: the load averages, then the seconds accumulated term by term. */
  method ParseUptime(output: string) returns (r: Option<Uptime>)
    ensures r == UptimeOf(output)
  {
    var seconds := 0;
    var load1, load5, load15 := 0.0, 0.0, 0.0;
    var loadMatch := Search(output, 0, LoadAt);
    if loadMatch.Some? {
      var a, b, c := PyFloat(loadMatch.value.0), PyFloat(loadMatch.value.1), PyFloat(loadMatch.value.2);
      if a.None? || b.None? || c.None? {
        return None;
      }
      load1, load5, load15 := a.value, b.value, c.value;
    }
    assert LoadsOf(output) == Some((load1, load5, load15));
    var daysMatch := Search(output, 0, DaysAt);
    if daysMatch.Some? {
      seconds := seconds + DigitsValue(daysMatch.value) * 86400;
    }
    assert seconds == DaysSeconds(output);
    var hoursMatch := Search(output, 0, ClockAt);
    if hoursMatch.Some? {
      seconds := seconds + DigitsValue(hoursMatch.value.0) * 3600;
      seconds := seconds + DigitsValue(hoursMatch.value.1) * 60;
    }
    assert seconds == DaysSeconds(output) + ClockSeconds(output);
    r := Some(Uptime(seconds, load1, load5, load15));
    UptimeFromParts(output, seconds, load1, load5, load15);
  }

  /** Without a `load average` match all three loads are 0 and nothing can fail to parse. */
  lemma NoLoadAverage(output: string)
    requires forall j :: 0 <= j <= |output| ==> LoadAt(output, j).None?
    ensures UptimeOf(output).Some?
    ensures UptimeOf(output).value.load1 == 0.0 && UptimeOf(output).value.load5 == 0.0
    ensures UptimeOf(output).value.load15 == 0.0
  {
    SearchLeftmost(output, 0, LoadAt);
  }

  /** An empty output gives the defaults: no uptime and no load. */
  lemma UptimeOfEmpty()
    ensures UptimeOf("").Some? && UptimeOf("").value == Uptime(0, 0.0, 0.0, 0.0)
  {
    assert LoadAt("", 0).None? && DaysAt("", 0).None? && ClockAt("", 0).None?;
    UptimeFromParts("", 0, 0.0, 0.0, 0.0);
  }

  /** A non-empty run of `[\d.]` characters. */
  predicate NumWord(w: string)
  {
    |w| > 0 && forall k :: 0 <= k < |w| ==> NumChar(w[k])
  }

  lemma TwoFromHit(t: string, e: nat)
    requires 0 < e <= |t| && LastGroup(SkipSep(t[e..])).Some?
    ensures TwoFrom(t, e) == Some((t[..e], LastGroup(SkipSep(t[e..])).value))
  {
  }

  lemma ThreeFromHit(t: string, e: nat)
    requires 0 < e <= |t| && TwoGroups(SkipSep(t[e..])).Some?
    ensures ThreeFrom(t, e) == Some((t[..e], TwoGroups(SkipSep(t[e..])).value.0, TwoGroups(SkipSep(t[e..])).value.1))
  {
  }

  /** The last group takes a whole run. */
  lemma LastGroupRun(c: string, rest: string)
    requires NumWord(c) && (rest == [] || !NumChar(rest[0]))
    ensures LastGroup(c + rest) == Some(c)
  {
    RunOf(c, rest, NumChar);
    assert (c + rest)[..|c|] == c;
  }

  /** `, ` is skipped as `,?\s*`. */
  lemma SkipCommaSpace(rest: string)
    requires rest == [] || !IsSpace(rest[0])
    ensures SkipSep(", " + rest) == rest
  {
    assert (", " + rest)[1..] == " " + rest;
    LStripSpaces(" ", rest);
  }

  /** A run followed by `, ` leaves the text after the comma and space for the next group. */
  lemma RunThenComma(a: string, rest: string)
    requires NumWord(a) && |rest| > 0 && NumChar(rest[0])
    ensures RunEnd(a + ", " + rest, 0, NumChar) == |a|
    ensures (a + ", " + rest)[..|a|] == a
    ensures SkipSep((a + ", " + rest)[|a|..]) == rest
  {
    var t := a + ", " + rest;
    assert t == a + (", " + rest);
    RunOf(a, ", " + rest, NumChar);
    assert t[|a|..] == ", " + rest;
    SkipCommaSpace(rest);
  }

  /** Two runs separated by `, `, as `uptime` prints them, are the two groups. */
  lemma TwoPrinted(b: string, c: string, rest: string)
    requires NumWord(b) && NumWord(c) && (rest == [] || !NumChar(rest[0]))
    ensures TwoGroups(b + ", " + c + rest) == Some((b, c))
  {
    var t := b + ", " + c + rest;
    assert t == b + ", " + (c + rest);
    RunThenComma(b, c + rest);
    LastGroupRun(c, rest);
    TwoFromHit(t, |b|);
  }

  /** Three runs separated by `, `, as `uptime` prints them, are the three groups. */
  lemma ThreePrinted(a: string, b: string, c: string, rest: string)
    requires NumWord(a) && NumWord(b) && NumWord(c) && (rest == [] || !NumChar(rest[0]))
    ensures ThreeGroups(a + ", " + b + ", " + c + rest) == Some((a, b, c))
  {
    var t := a + ", " + b + ", " + c + rest;
    assert t == a + ", " + (b + ", " + c + rest);
    assert b[0] == (b + ", " + c + rest)[0];
    RunThenComma(a, b + ", " + c + rest);
    TwoPrinted(b, c, rest);
    ThreeFromHit(t, |a|);
  }

  /** The load averages of a `load average: a, b, c` text are its three numbers. */
  lemma LoadAveragePrinted(a: string, b: string, c: string)
    requires NumWord(a) && NumWord(b) && NumWord(c)
    ensures Search("load average: " + a + ", " + b + ", " + c, 0, LoadAt) == Some((a, b, c))
  {
    var s := "load average: " + a + ", " + b + ", " + c;
    var tail := a + ", " + b + ", " + c;
    assert s[0..] == s;
    assert !StartsWith(s, "load averages:") by {
      assert s[12] == ':';
    }
    assert StartsWith(s, "load average:");
    assert s[13..] == " " + tail;
    assert tail[0] == a[0];
    LStripSpaces(" ", tail);
    assert tail == tail + [];
    ThreePrinted(a, b, c, []);
    SearchFinds(s, 0, 0, LoadAt);
  }

  // ---------------------------------------------------------------
  // The hours and minutes of `uptime`
  // ---------------------------------------------------------------

  /** Digits, then a ':' and more digits, at the front of a text: the clock pattern matches there. */
  lemma ClockFront(h: string, m: string, rest: string)
    requires PyIsDigit(h) && PyIsDigit(m) && (rest == [] || !IsDigit(rest[0]))
    ensures ClockAt(h + ":" + m + rest, 0) == Some((h, m))
  {
    var t := h + ":" + m + rest;
    assert t[0..] == t;
    assert t == h + (":" + m + rest);
    RunOf(h, ":" + m + rest, IsDigit);
    assert t[..|h|] == h && t[|h|] == ':';
    assert t[|h| + 1..] == m + rest;
    RunOf(m, rest, IsDigit);
    assert (m + rest)[..|m|] == m;
  }

  /**
   * As written, a text that starts with the time of day `hh:mm` (as
   * `uptime` output does) gets that time as its hours and minutes of
   * uptime, whatever follows.
   */
  lemma ClockAsWritten(h: string, m: string, rest: string)
    requires PyIsDigit(h) && PyIsDigit(m) && (rest == [] || !IsDigit(rest[0]))
    ensures ClockSeconds(" " + h + ":" + m + rest) == DigitsValue(h) * 3600 + DigitsValue(m) * 60
  {
    var s := " " + h + ":" + m + rest;
    assert s[0..][0] == ' ';
    assert ClockAt(s, 0).None?;
    assert s[1..] == h + ":" + m + rest;
    ClockFront(h, m, rest);
    SearchFinds(s, 0, 1, ClockAt);
  }

  /** Inside a run of digits followed by a non-digit other than ':', the clock pattern never matches. */
  lemma NoClockInRun(t: string, d: string, mid: string, j: nat)
    requires PyIsDigit(d) && |mid| > 0 && mid[0] != ':' && !IsDigit(mid[0])
    requires t == d + mid && j < |d|
    ensures ClockAt(t, j).None?
  {
    var u := t[j..];
    assert u == d[j..] + mid;
    assert forall k :: 0 <= k < |d[j..]| ==> IsDigit(d[j..][k]);
    RunOf(d[j..], mid, IsDigit);
    assert u[|d| - j] == mid[0];
  }

  /** At a non-digit the clock pattern never matches. */
  lemma NoClockAtNonDigit(t: string, j: nat)
    requires j < |t| && !IsDigit(t[j])
    ensures ClockAt(t, j).None?
  {
    assert t[j..][0] == t[j];
  }

  lemma NotUpAt(s: string, j: nat)
    requires j < |s| && s[j] != 'u'
    ensures UpAt(s, j).None?
  {
    assert s[j..][0] == s[j];
  }

  lemma UpAtHere(pre: string, after: string)
    requires |after| > 0 && !IsSpace(after[0])
    ensures UpAt(pre + "up " + after, |pre|) == Some(after)
  {
    var s := pre + "up " + after;
    assert s[|pre|..] == "up " + after;
    assert s[|pre| + 2..] == " " + after;
    LStripSpaces(" ", after);
  }

  /** With no 'u' before it, the first `up\s+` is the `up ` after `pre`. */
  lemma UpAfter(pre: string, after: string)
    requires 'u' !in pre && |after| > 0 && !IsSpace(after[0])
    ensures Search(pre + "up " + after, 0, UpAt) == Some(after)
  {
    var s := pre + "up " + after;
    forall j | 0 <= j < |pre| ensures UpAt(s, j).None? {
      assert s[j] == pre[j];
      NotUpAt(s, j);
    }
    UpAtHere(pre, after);
    SearchFinds(s, 0, |pre|, UpAt);
  }

  /** Before `h` in `d + mid + h...`, the clock pattern never matches. */
  lemma NoClockBefore(d: string, mid: string, tail: string, j: nat)
    requires PyIsDigit(d) && |mid| > 0 && mid[0] != ':' && forall k :: 0 <= k < |mid| ==> !IsDigit(mid[k])
    requires j < |d| + |mid|
    ensures ClockAt(d + mid + tail, j).None?
  {
    var after := d + mid + tail;
    if j < |d| {
      assert after == d + (mid + tail);
      NoClockInRun(after, d, mid + tail, j);
    } else {
      assert after[j] == mid[j - |d|];
      NoClockAtNonDigit(after, j);
    }
  }

  /** After a number and a text without digits, the clock pattern first matches at `h:m`. */
  lemma ClockAfter(d: string, mid: string, h: string, m: string, rest: string)
    requires PyIsDigit(d) && PyIsDigit(h) && PyIsDigit(m) && (rest == [] || !IsDigit(rest[0]))
    requires |mid| > 0 && mid[0] != ':' && forall k :: 0 <= k < |mid| ==> !IsDigit(mid[k])
    ensures Search(d + mid + (h + ":" + m + rest), 0, ClockAt) == Some((h, m))
  {
    var tail := h + ":" + m + rest;
    var after := d + mid + tail;
    var k := |d| + |mid|;
    forall j | 0 <= j < k ensures ClockAt(after, j).None? {
      NoClockBefore(d, mid, tail, j);
    }
    assert after[k..] == tail;
    ClockFront(h, m, rest);
    SearchFinds(after, 0, k, ClockAt);
  }

  /**
   * The corrected reading: in `up D<mid>H:M...`, with `mid` free of digits
   * and not starting with ':', the hours and minutes are `H` and `M`,
   * whatever the text before `up` holds.
   */
  lemma UptimeClockOfField(pre: string, d: string, mid: string, h: string, m: string, rest: string)
    requires 'u' !in pre
    requires PyIsDigit(d) && PyIsDigit(h) && PyIsDigit(m) && (rest == [] || !IsDigit(rest[0]))
    requires |mid| > 0 && mid[0] != ':' && forall k :: 0 <= k < |mid| ==> !IsDigit(mid[k])
    ensures UptimeClockSeconds(pre + "up " + (d + mid + (h + ":" + m + rest)))
      == DigitsValue(h) * 3600 + DigitsValue(m) * 60
  {
    var after := d + mid + (h + ":" + m + rest);
    assert after[0] == d[0];
    UpAfter(pre, after);
    ClockAfter(d, mid, h, m, rest);
  }

  /** The sample line that `parse_uptime` documents, in pieces. */
  const SampleTail: string := ",  2 users,  " + "load average: 0.50, 0.40, 0.35"
  const SampleField: string := "up " + ("5" + " days,  " + ("3" + ":" + "45" + SampleTail))
  const SampleUptime: string := " 10:30:01 " + SampleField

  lemma Regroup4(a: string, b: string, c: string, d: string, e: string, x: string)
    ensures a + b + c + d + e + x == a + b + c + d + (e + x)
  {
  }

  lemma SampleAsWritten()
    ensures ClockSeconds(SampleUptime) == 10 * 3600 + 30 * 60
  {
    var rest := ":01 " + SampleField;
    assert " 10:30:01 " == " " + "10" + ":" + "30" + ":01 ";
    Regroup4(" ", "10", ":", "30", ":01 ", SampleField);
    assert rest[0] == ':';
    assert DigitsValue("10") == 10 by {
      assert "10"[..1] == "1";
    }
    assert DigitsValue("30") == 30 by {
      assert "30"[..1] == "3";
    }
    ClockAsWritten("10", "30", rest);
  }

  lemma SampleOfField()
    ensures UptimeClockSeconds(SampleUptime) == 3 * 3600 + 45 * 60
  {
    assert SampleTail[0] == ',';
    assert DigitsValue("45") == 45 by {
      assert "45"[..1] == "4";
    }
    UptimeClockOfField(" 10:30:01 ", "5", " days,  ", "3", "45", SampleTail);
    assert SampleUptime == " 10:30:01 " + "up " + ("5" + " days,  " + ("3" + ":" + "45" + SampleTail));
  }

  /**
   * On its own sample line, `parse_uptime` as written counts 10 hours 30
   * minutes (the time of day), while the host has been up 5 days 3 hours
   * 45 minutes: the corrected reading gives 3 hours 45 minutes.
   */
  lemma ClockFinding()
    ensures ClockSeconds(SampleUptime) == 37800
    ensures UptimeClockSeconds(SampleUptime) == 13500
  {
    SampleAsWritten();
    SampleOfField();
  }

  /** What the collector computes on the sample line: the time of day 10:30 on top of the days. */
  lemma SampleUptimeAsWritten()
    ensures UptimeOf(SampleUptime).Some? ==>
      UptimeOf(SampleUptime).value.seconds == DaysSeconds(SampleUptime) + 37800
  {
    SampleAsWritten();
  }

  // ---------------------------------------------------------------
  // /proc/meminfo
  // ---------------------------------------------------------------

  /** A match of `(\d+)` at `i`: the whole run of digits there. */
  function DigitsAt(s: string, i: nat): Option<string>
  {
    if i >= |s| then None
    else
      var t := s[i..];
      if IsDigit(t[0]) then Some(t[..RunEnd(t, 0, IsDigit)]) else None
  }

  /** One line's entry: the stripped text before the first ':' and the first number after it. */
  function MemEntry(line: string): Option<(string, nat)>
  {
    if ':' !in line then None
    else
      var c := IndexOf(line, ':');
      var num := Search(line[c + 1..], 0, DigitsAt);
      if num.None? then None else Some((Strip(line[..c]), DigitsValue(num.value)))
  }

  /** The entry of a line, if it has one. */
  function MemRow(line: string): seq<(string, nat)>
  {
    var e := MemEntry(line);
    if e.Some? then [e.value] else []
  }

  /** The entries of the output's lines, in order. */
  function MemRows(output: string): seq<(string, nat)>
  {
    FlatMap(Lines(output), MemRow)
  }

  /** `parse_meminfo` on values: a later entry for a key replaces an earlier one. */
  function MeminfoOf(output: string): map<string, nat>
  {
    ToMap(MemRows(output))
  }

  /** One line of `parse_meminfo`: `partition(':')`, then the first number of the value. */
  method ReadMemLine(line: string) returns (e: Option<(string, nat)>)
    ensures e == MemEntry(line)
  {
    e := None;
    if ':' in line {
      var c := IndexOf(line, ':');
      var key, value := line[..c], line[c + 1..];
      var num := Search(value, 0, DigitsAt);
      if num.Some? {
        e := Some((Strip(key), DigitsValue(num.value)));
      }
    }
  }

  /** `parse_meminfo`. */
  method ParseMeminfo(output: string) returns (mem: map<string, nat>)
    ensures mem == MeminfoOf(output)
  {
    var lines := Lines(output);
    mem := map[];
    var i := 0;
    while i < |lines|
      invariant i <= |lines|
      invariant mem == ToMap(FlatMap(lines[..i], MemRow))
    {
      FlatMapPrefix(lines, i, MemRow);
      var e := ReadMemLine(lines[i]);
      if e.Some? {
        ToMapAppend(FlatMap(lines[..i], MemRow), e.value);
        mem := mem[e.value.0 := e.value.1];
      } else {
        assert FlatMap(lines[..i], MemRow) + [] == FlatMap(lines[..i], MemRow);
      }
      i := i + 1;
    }
    FlatMapWhole(lines, MemRow);
  }

  /** A key is present exactly when some line has an entry for it, and its value is the number of the last such line. */
  lemma MeminfoLastWins(output: string, key: string)
    ensures key in MeminfoOf(output) <==> exists j :: 0 <= j < |MemRows(output)| && MemRows(output)[j].0 == key
    ensures forall j ::
      (0 <= j < |MemRows(output)| && MemRows(output)[j].0 == key
       && (forall i :: j < i < |MemRows(output)| ==> MemRows(output)[i].0 != key))
      ==> (key in MeminfoOf(output) && MeminfoOf(output)[key] == MemRows(output)[j].1)
  {
    var rows := MemRows(output);
    ToMapKeys(rows, key);
    forall j | 0 <= j < |rows| && rows[j].0 == key && (forall i :: j < i < |rows| ==> rows[i].0 != key)
      ensures key in ToMap(rows) && ToMap(rows)[key] == rows[j].1
    {
      ToMapLast(rows, key, j);
    }
  }

  lemma NoDigitsBefore(pad: string, d: string, unit: string, i: nat)
    requires i < |pad| && !IsDigit(pad[i])
    ensures DigitsAt(pad + d + unit, i).None?
  {
    var s := pad + d + unit;
    assert s[i..][0] == s[i] == pad[i];
  }

  /** The digits printed after a padding without digits are the first number of the text. */
  lemma NumberAfterPad(pad: string, v: nat, unit: string)
    requires unit == [] || !IsDigit(unit[0])
    requires forall k :: 0 <= k < |pad| ==> !IsDigit(pad[k])
    ensures Search(pad + NatToString(v) + unit, 0, DigitsAt) == Some(NatToString(v))
  {
    var d := NatToString(v);
    var value := pad + d + unit;
    forall i | 0 <= i < |pad| ensures DigitsAt(value, i).None? {
      NoDigitsBefore(pad, d, unit, i);
    }
    assert value[|pad|..] == d + unit;
    assert forall k :: 0 <= k < |d| ==> IsDigit(d[k]);
    RunOf(d, unit, IsDigit);
    assert (d + unit)[..|d|] == d;
    assert DigitsAt(value, |pad|) == Some(d);
    SearchFinds(value, 0, |pad|, DigitsAt);
  }

  /** A `key: number unit` line, as the kernel prints it, gives the stripped key and the number. */
  lemma MemEntryPrinted(key: string, pad: string, v: nat, unit: string)
    requires ':' !in key && (unit == [] || !IsDigit(unit[0]))
    requires forall k :: 0 <= k < |pad| ==> !IsDigit(pad[k])
    ensures MemEntry(key + ":" + pad + NatToString(v) + unit).Some?
    ensures MemEntry(key + ":" + pad + NatToString(v) + unit).value == (Strip(key), v)
  {
    var value := pad + NatToString(v) + unit;
    var line := key + ":" + pad + NatToString(v) + unit;
    assert line == key + [':'] + value;
    IndexOfAfter(key, ':', value);
    assert line[..|key|] == key && line[|key| + 1..] == value;
    NumberAfterPad(pad, v, unit);
    NatToStringValue(v);
  }

  /** The memory figures in MB. Python's `//` floors; so does `/` here, the divisor being positive. */
  datatype Memory = Memory(totalMb: int, usedMb: int, freeMb: int, cachedMb: int, swapTotalMb: int, swapUsedMb: int)

  /** `mem.get(key, 0)`. */
  function Get(mem: map<string, nat>, key: string): nat
  {
    if key in mem then mem[key] else 0
  }

  /** The memory figures `_collect_workstation` derives from the kB values of /proc/meminfo. */
  function MemoryFrom(mem: map<string, nat>): (r: Memory)
    ensures 0 <= r.totalMb && 0 <= r.freeMb && 0 <= r.cachedMb && 0 <= r.swapTotalMb
    ensures r.usedMb <= r.totalMb
  {
    var total := Get(mem, "MemTotal") / 1024;
    var free := Get(mem, "MemFree") / 1024;
    var cached := (Get(mem, "Cached") + Get(mem, "Buffers")) / 1024;
    Memory(total, total - free - cached, free, cached,
      Get(mem, "SwapTotal") / 1024, (Get(mem, "SwapTotal") - Get(mem, "SwapFree")) / 1024)
  }

  /** `memory_usage_pct`. */
  function MemoryPct(used: int, total: int): real
  {
    if total == 0 then 0.0 else (used as real / total as real) * 100.0
  }

  lemma FractionBounds(q: real, t: real, u: real)
    requires t > 0.0 && q * t == u
    ensures u <= t ==> q <= 1.0
    ensures 0.0 <= u ==> 0.0 <= q
  {
  }

  /** The percentage is 0 without a total, and within [0, 100] when the used figure is. */
  lemma MemoryPctBounds(used: int, total: int)
    ensures total == 0 ==> MemoryPct(used, total) == 0.0
    ensures total > 0 && used <= total ==> MemoryPct(used, total) <= 100.0
    ensures total > 0 && 0 <= used ==> 0.0 <= MemoryPct(used, total)
  {
    if total > 0 {
      var q := used as real / total as real;
      assert q * total as real == used as real;
      FractionBounds(q, total as real, used as real);
    }
  }

  /** The memory percentage derived from /proc/meminfo never exceeds 100. */
  lemma MemoryPctAtMost100(mem: map<string, nat>)
    ensures MemoryPct(MemoryFrom(mem).usedMb, MemoryFrom(mem).totalMb) <= 100.0
  {
    MemoryPctBounds(MemoryFrom(mem).usedMb, MemoryFrom(mem).totalMb);
  }

  // ---------------------------------------------------------------
  // df -k
  // ---------------------------------------------------------------

  datatype Disk = Disk(totalGb: real, usedGb: real, freeGb: real, usagePct: real)

  const NoDisk := Disk(0.0, 0.0, 0.0, 0.0)

  /** kB to GB: `kb / 1024 / 1024`. */
  function Gb(kb: int): real
  {
    kb as real / 1024.0 / 1024.0
  }

  /** A row for `path`: at least six fields, the sixth being the mount point. */
  predicate DfRowFor(parts: seq<string>, path: string)
  {
    |parts| >= 6 && parts[5] == path
  }

  /** The four figures of a row; `None` is the ValueError of `int()` or `float()`. */
  function DfRead(parts: seq<string>): Option<Disk>
    requires |parts| >= 6
  {
    var t, u, f := PyInt(parts[1]), PyInt(parts[2]), PyInt(parts[3]);
    var p := PyFloat(RStripChars(parts[4], {'%'}));
    if t.Some? && u.Some? && f.Some? && p.Some? then Some(Disk(Gb(t.value), Gb(u.value), Gb(f.value), p.value))
    else None
  }

  /** The figures of the first row for `path`, or four zeros. */
  function DfScan(rows: seq<string>, path: string): Option<Disk>
  {
    if |rows| == 0 then Some(NoDisk)
    else if DfRowFor(Words(rows[0]), path) then DfRead(Words(rows[0]))
    else DfScan(rows[1..], path)
  }

  /** `parse_df`: every line but the header is a candidate row. */
  function DfOf(output: string, path: string): Option<Disk>
  {
    DfScan(Lines(output)[1..], path)
  }

  /** `parse_df`. */
  method ParseDf(output: string, path: string) returns (r: Option<Disk>)
    ensures r == DfOf(output, path)
  {
    var rows := Lines(output)[1..];
    var i := 0;
    while i < |rows|
      invariant i <= |rows|
      invariant DfScan(rows[i..], path) == DfOf(output, path)
    {
      var parts := Words(rows[i]);
      if |parts| >= 6 && parts[5] == path {
        r := DfRead(parts);
        return;
      }
      assert rows[i..][1..] == rows[i + 1..];
      i := i + 1;
    }
    r := Some(NoDisk);
  }

  /** The header line is never read: only the lines after it matter. */
  lemma DfHeaderIgnored(header: string, rest: string, path: string)
    requires '\n' !in header
    ensures DfOf(header + "\n" + rest, path) == DfScan(Lines(rest), path)
  {
    SplitOnFirst(header, '\n', rest);
    assert ([header] + Lines(rest))[1..] == Lines(rest);
  }

  /** The first row for `path` decides the result. */
  lemma {:induction false} DfFirstRow(rows: seq<string>, path: string, k: nat)
    requires k < |rows| && DfRowFor(Words(rows[k]), path)
    requires forall j :: 0 <= j < k ==> !DfRowFor(Words(rows[j]), path)
    ensures DfScan(rows, path) == DfRead(Words(rows[k]))
  {
    if k > 0 {
      assert !DfRowFor(Words(rows[0]), path);
      forall j | 0 <= j < k - 1 ensures !DfRowFor(Words(rows[1..][j]), path) {
        assert rows[1..][j] == rows[j + 1];
      }
      DfFirstRow(rows[1..], path, k - 1);
    }
  }

  /** Without a row for `path` the result is four zeros. */
  lemma {:induction false} DfNoRow(rows: seq<string>, path: string)
    requires forall j :: 0 <= j < |rows| ==> !DfRowFor(Words(rows[j]), path)
    ensures DfScan(rows, path) == Some(NoDisk)
  {
    if |rows| > 0 {
      assert !DfRowFor(Words(rows[0]), path);
      forall j | 0 <= j < |rows| - 1 ensures !DfRowFor(Words(rows[1..][j]), path) {
        assert rows[1..][j] == rows[j + 1];
      }
      DfNoRow(rows[1..], path);
    }
  }

  lemma NumberIsWord(n: nat, suffix: string)
    requires forall k :: 0 <= k < |suffix| ==> !IsSpace(suffix[k])
    ensures IsWord(NatToString(n) + suffix)
  {
    var d := NatToString(n);
    assert forall k :: 0 <= k < |d| ==> IsDigit(d[k]);
    assert forall k :: 0 <= k < |d + suffix| ==> !IsSpace((d + suffix)[k]) by {
      forall k | 0 <= k < |d + suffix| ensures !IsSpace((d + suffix)[k]) {
        if k < |d| {
          assert (d + suffix)[k] == d[k];
        } else {
          assert (d + suffix)[k] == suffix[k - |d|];
        }
      }
    }
  }

  /** A `df -k` row written out with single spaces reads back as its figures, converted to GB. */
  lemma DfRowPrinted(fs: string, total: nat, used: nat, free: nat, pct: nat, path: string)
    requires IsWord(fs) && IsWord(path)
    ensures DfRowFor(Words(JoinOn([fs, NatToString(total), NatToString(used), NatToString(free), NatToString(pct) + "%", path], ' ')), path)
    ensures DfRead(Words(JoinOn([fs, NatToString(total), NatToString(used), NatToString(free), NatToString(pct) + "%", path], ' ')))
      == Some(Disk(Gb(total), Gb(used), Gb(free), pct as real))
  {
    var ws := [fs, NatToString(total), NatToString(used), NatToString(free), NatToString(pct) + "%", path];
    NumberIsWord(total, "");
    NumberIsWord(used, "");
    NumberIsWord(free, "");
    NumberIsWord(pct, "%");
    assert NatToString(total) + "" == NatToString(total);
    assert NatToString(used) + "" == NatToString(used);
    assert NatToString(free) + "" == NatToString(free);
    WordsJoin(ws);
    IntToStringRoundTrip(total);
    IntToStringRoundTrip(used);
    IntToStringRoundTrip(free);
    var d := NatToString(pct);
    assert IsDigit(d[|d| - 1]);
    RStripOne(d, '%');
    ReadNat(pct);
  }

  // ---------------------------------------------------------------
  // who
  // ---------------------------------------------------------------

  datatype UserSession = UserSession(
    username: string,
    terminal: string,
    loginTime: string,
    idleTime: string,
    remoteHost: Option<string>)

  /** The session of a `who` row of at least three fields. */
  function SessionOf(parts: seq<string>): UserSession
    requires |parts| >= 3
  {
    var login := if |parts| >= 4 then parts[2] + " " + parts[3] else parts[2];
    var last := parts[|parts| - 1];
    var remote := if StartsWith(last, "(") then Some(StripChars(last, {'(', ')'})) else None;
    UserSession(parts[0], parts[1], login, "", remote)
  }

  /** A row holds a session when it is not blank and has at least three fields. */
  predicate SessionLine(line: string)
  {
    Strip(line) != "" && |Words(line)| >= 3
  }

  /** The session of one line, if it has one. */
  function WhoRow(line: string): seq<UserSession>
  {
    if SessionLine(line) then [SessionOf(Words(line))] else []
  }

  function WhoOf(output: string): seq<UserSession>
  {
    FlatMap(Lines(output), WhoRow)
  }

  /** `parse_who`. */
  method ParseWho(output: string) returns (sessions: seq<UserSession>)
    ensures sessions == WhoOf(output)
  {
    var lines := Lines(output);
    sessions := [];
    var i := 0;
    while i < |lines|
      invariant i <= |lines|
      invariant sessions == FlatMap(lines[..i], WhoRow)
    {
      FlatMapPrefix(lines, i, WhoRow);
      var line := lines[i];
      if Strip(line) != "" {
        var parts := Words(line);
        if |parts| >= 3 {
          sessions := sessions + [SessionOf(parts)];
        }
      }
      i := i + 1;
    }
    FlatMapWhole(lines, WhoRow);
  }

  /** One session per session line. */
  lemma {:induction false} WhoCount(lines: seq<string>)
    ensures |FlatMap(lines, WhoRow)| == CountIf(lines, SessionLine)
  {
    if |lines| > 0 {
      WhoCount(lines[..|lines| - 1]);
    }
  }

  /** The lines are read in order: a first line's session comes before those of the rest. */
  lemma WhoLineByLine(line: string, rest: string)
    requires '\n' !in line
    ensures WhoOf(line + "\n" + rest) == WhoRow(line) + WhoOf(rest)
  {
    SplitOnFirst(line, '\n', rest);
    FlatMapConcat([line], Lines(rest), WhoRow);
    assert FlatMap([line], WhoRow) == WhoRow(line) by {
      assert [line][..0] == [];
    }
  }

  /** The fields of a `who` row written with single spaces. */
  lemma WhoFields(user: string, tty: string, date: string, time: string, host: string)
    requires IsWord(user) && IsWord(tty) && IsWord(date) && IsWord(time) && IsWord(host)
    ensures Words(JoinOn([user, tty, date, time, "(" + host + ")"], ' ')) == [user, tty, date, time, "(" + host + ")"]
    ensures SessionLine(JoinOn([user, tty, date, time, "(" + host + ")"], ' '))
  {
    var remote := "(" + host + ")";
    assert IsWord(remote) by {
      forall k | 0 <= k < |remote| ensures !IsSpace(remote[k]) {
        if 0 < k < |remote| - 1 {
          assert remote[k] == host[k - 1];
        }
      }
    }
    var ws := [user, tty, date, time, remote];
    var line := JoinOn(ws, ' ');
    WordsJoin(ws);
    assert line == user + [' '] + JoinOn(ws[1..], ' ');
    assert line[0] == user[0];
    StripNonBlank(line, 0);
  }

  /** A `who` row written with single spaces reads back as its session. */
  lemma WhoRowPrinted(user: string, tty: string, date: string, time: string, host: string)
    requires IsWord(user) && IsWord(tty) && IsWord(date) && IsWord(time) && IsWord(host)
    requires host[0] != '(' && host[0] != ')' && host[|host| - 1] != '(' && host[|host| - 1] != ')'
    ensures WhoRow(JoinOn([user, tty, date, time, "(" + host + ")"], ' '))
      == [UserSession(user, tty, date + " " + time, "", Some(host))]
  {
    WhoFields(user, tty, date, time, host);
    assert "(" + host + ")" == ['('] + host + [')'];
    StripEnclosed('(', host, ')', {'(', ')'});
    assert StartsWith("(" + host + ")", "(");
  }

  /** `len(set(s.username for s in sessions))`. */
  function Username(s: UserSession): string
  {
    s.username
  }

  /** The number of distinct users: at most one per session, and at least one when there is a session. */
  lemma UsersLoggedIn(sessions: seq<UserSession>)
    ensures |ImageSet(sessions, Username)| <= |sessions|
    ensures |sessions| > 0 ==> |ImageSet(sessions, Username)| >= 1
  {
    ImageSetSize(sessions, Username);
    if |sessions| > 0 {
      assert Username(sessions[0]) in ImageSet(sessions, Username);
    }
  }
}
