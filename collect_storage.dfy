// The storage collector's parsers and the ZFS part of its collection:
// `zpool list -Hp`, `zpool status`, the ARC kstat table and `exportfs -v`
// output, the pool and storage health predicates and the byte totals.
// Each parser is a loop method proved equal to a specification function on
// values; the properties are lemmas about those functions.
module CollectStorage {
  import opened Wrappers
  import opened Text
  import opened Lists

  // ---------------------------------------------------------------
  // zpool list -Hp
  // ---------------------------------------------------------------

  /** The columns of one `zpool list` row that the collector keeps. */
  datatype PoolRecord = PoolRecord(
    name: string,
    health: string,
    sizeBytes: int,
    allocatedBytes: int,
    freeBytes: int,
    fragmentationPct: real,
    capacityPct: real,
    dedupRatio: real)

  /** FRAG and CAP: `-` reads as 0, otherwise `float()` of the text without trailing `%`. */
  function Percent(field: string): Option<real>
  {
    if field != "-" then PyFloat(RStripChars(field, {'%'})) else Some(0.0)
  }

  /** DEDUP: `-` reads as 1.0, otherwise `float()` of the text without trailing `x`. */
  function Ratio(field: string): Option<real>
  {
    if field != "-" then PyFloat(RStripChars(field, {'x'})) else Some(1.0)
  }

  /** One tab-separated row; `None` when it is too short or a conversion raises ValueError. */
  function ZpoolLine(line: string): Option<PoolRecord>
  {
    var parts := SplitOn(line, '\t');
    if |parts| < 10 then None
    else
      var size := PyInt(parts[1]);
      var alloc := PyInt(parts[2]);
      var free := PyInt(parts[3]);
      var frag := Percent(parts[6]);
      var cap := Percent(parts[7]);
      var dedup := Ratio(parts[8]);
      if size.Some? && alloc.Some? && free.Some? && frag.Some? && cap.Some? && dedup.Some? then
        Some(PoolRecord(parts[0], parts[9], size.value, alloc.value, free.value,
                        frag.value, cap.value, dedup.value))
      else None
  }

  /** The pools one line contributes: none for an empty or rejected line. */
  function PoolOf(line: string): seq<PoolRecord>
  {
    if line == "" then []
    else match ZpoolLine(line)
      case None => []
      case Some(p) => [p]
  }

  /** `parse_zpool_list` on values. */
  function ZpoolList(output: string): seq<PoolRecord>
  {
    FlatMap(Lines(Strip(output)), PoolOf)
  }

  /** A row is accepted exactly when it has ten fields and every number in it converts. */
  lemma ZpoolLineAccepted(line: string)
    ensures ZpoolLine(line).Some? <==>
      var parts := SplitOn(line, '\t');
      |parts| >= 10 &&
      PyInt(parts[1]).Some? && PyInt(parts[2]).Some? && PyInt(parts[3]).Some? &&
      Percent(parts[6]).Some? && Percent(parts[7]).Some? && Ratio(parts[8]).Some?
    ensures ZpoolLine(line).Some? ==>
      var parts := SplitOn(line, '\t');
      var p := ZpoolLine(line).value;
      p.name == parts[0] && p.health == parts[9] &&
      (parts[6] == "-" ==> p.fragmentationPct == 0.0) &&
      (parts[7] == "-" ==> p.capacityPct == 0.0) &&
      (parts[8] == "-" ==> p.dedupRatio == 1.0)
  {
  }

  /** Pools come out in input order: the pools of two joined outputs are those of the first, then the second. */
  lemma PoolListConcat(xs: seq<string>, ys: seq<string>)
    ensures FlatMap(xs + ys, PoolOf) == FlatMap(xs, PoolOf) + FlatMap(ys, PoolOf)
  {
    FlatMapConcat(xs, ys, PoolOf);
  }

  /** Every pool comes from an accepted non-empty line, and every such line yields its pool. */
  lemma PoolListMembers(lines: seq<string>, p: PoolRecord)
    ensures p in FlatMap(lines, PoolOf) <==>
      exists k :: 0 <= k < |lines| && lines[k] != "" && ZpoolLine(lines[k]) == Some(p)
  {
    FlatMapMembers(lines, PoolOf, p);
    forall k | 0 <= k < |lines|
      ensures p in PoolOf(lines[k]) <==> lines[k] != "" && ZpoolLine(lines[k]) == Some(p)
    {
    }
  }

  /** The pool count is the number of accepted non-empty lines. */
  predicate Accepted(line: string)
  {
    line != "" && ZpoolLine(line).Some?
  }

  lemma {:induction false} PoolListCount(lines: seq<string>)
    ensures |FlatMap(lines, PoolOf)| == CountIf(lines, Accepted)
  {
    if |lines| > 0 {
      PoolListCount(lines[..|lines| - 1]);
    }
  }

  /** The row `zpool list -Hp` prints for a pool, with integer percentages and a `N.00x` ratio. */
  function PoolRow(name: string, health: string, size: int, alloc: int, free: int,
                   frag: nat, cap: nat, dedup: nat): string
  {
    JoinOn([name, IntToString(size), IntToString(alloc), IntToString(free), "-", "-",
            NatToString(frag) + "%", NatToString(cap) + "%", NatToString(dedup) + ".00x", health], '\t')
  }

  lemma NumberChars(i: int)
    ensures forall k :: 0 <= k < |IntToString(i)| ==> IntToString(i)[k] == '-' || IsDigit(IntToString(i)[k])
  {
    var d := NatToString(if i < 0 then -i else i);
    assert forall k :: 0 <= k < |d| ==> IsDigit(d[k]);
    if i < 0 {
      assert IntToString(i) == "-" + d;
    }
  }

  lemma ReadPercent(n: nat)
    ensures Percent(NatToString(n) + "%") == Some(n as real)
  {
    RStripOne(NatToString(n), '%');
    ReadNat(n);
  }

  lemma ReadDecimalParts(d: string, f: string)
    requires AllDigits(d) && AllDigits(f) && |d| > 0
    ensures UnsignedDecimal(d + ['.'] + f) == Some(DecimalValue(d, f))
  {
    var u := d + ['.'] + f;
    assert '.' !in d by {
      assert forall k :: 0 <= k < |d| ==> IsDigit(d[k]);
    }
    IndexOfAfter(d, '.', f);
    assert u[..|d|] == d && u[|d| + 1..] == f;
  }

  lemma ZeroFraction(ip: string)
    ensures DecimalValue(ip, "00") == DigitsValue(ip) as real
  {
    var f := "00";
    assert DigitsValue(f) == 0 by {
      assert f[..1] == "0";
      assert "0"[..0] == "";
    }
  }

  lemma PointZerosValue(n: nat)
    ensures PyFloat(NatToString(n) + ['.'] + "00") == Some(n as real)
  {
    var d := NatToString(n);
    var u := d + ['.'] + "00";
    assert u[0] == d[0] && u[|u| - 1] == '0';
    ReadUnsigned(u);
    ReadDecimalParts(d, "00");
    ZeroFraction(d);
    NatToStringValue(n);
  }

  lemma ReadRatio(n: nat)
    ensures Ratio(NatToString(n) + ".00x") == Some(n as real)
  {
    var d := NatToString(n);
    var u := d + ['.'] + "00";
    assert d + ".00x" == u + ['x'];
    RStripOne(u, 'x');
    PointZerosValue(n);
  }

  /** Reading back a printed row gives the pool it was printed from. */
  lemma ReadPoolRow(name: string, health: string, size: int, alloc: int, free: int,
                    frag: nat, cap: nat, dedup: nat)
    requires '\t' !in name && '\t' !in health
    ensures ZpoolLine(PoolRow(name, health, size, alloc, free, frag, cap, dedup)) ==
      Some(PoolRecord(name, health, size, alloc, free, frag as real, cap as real, dedup as real))
  {
    var parts := [name, IntToString(size), IntToString(alloc), IntToString(free), "-", "-",
                  NatToString(frag) + "%", NatToString(cap) + "%", NatToString(dedup) + ".00x", health];
    NumberChars(size);
    NumberChars(alloc);
    NumberChars(free);
    assert NatToString(frag) == IntToString(frag) && NatToString(cap) == IntToString(cap);
    assert NatToString(dedup) == IntToString(dedup);
    NumberChars(frag);
    NumberChars(cap);
    NumberChars(dedup);
    forall k | 0 <= k < |parts|
      ensures '\t' !in parts[k]
    {
    }
    SplitJoin(parts, '\t');
    IntToStringRoundTrip(size);
    IntToStringRoundTrip(alloc);
    IntToStringRoundTrip(free);
    ReadPercent(frag);
    ReadPercent(cap);
    ReadRatio(dedup);
  }

  // ---------------------------------------------------------------
  // zpool status
  // ---------------------------------------------------------------

  /** The pool fields `zpool status` may change; every other field stays as listed. */
  datatype PoolStatus = PoolStatus(
    scrubInProgress: bool,
    lastScrub: Option<string>,
    readErrors: int,
    writeErrors: int,
    checksumErrors: int)

  /** The defaults of a pool fresh from `zpool list`. */
  const Unscanned := PoolStatus(false, None, 0, 0, 0)

  /** The end of the run of `\w` characters from `i`. */
  function WordEnd(s: string, i: nat): (j: nat)
    requires i <= |s|
    ensures i <= j <= |s|
    decreases |s| - i
  {
    if i < |s| && IsWordChar(s[i]) then WordEnd(s, i + 1) else i
  }

  /** The end of the run of spaces from `i`. */
  function BlankEnd(s: string, i: nat): (j: nat)
    requires i <= |s|
    ensures i <= j <= |s|
    decreases |s| - i
  {
    if i < |s| && s[i] == ' ' then BlankEnd(s, i + 1) else i
  }

  /** The end of the run of `\d` characters from `i`. */
  function DigitEnd(s: string, i: nat): (j: nat)
    requires i <= |s|
    ensures i <= j <= |s|
    decreases |s| - i
  {
    if i < |s| && IsDigit(s[i]) then DigitEnd(s, i + 1) else i
  }

  /** The end of the run of characters other than a newline (regex `.`) from `i`. */
  function LineEnd(s: string, i: nat): (j: nat)
    requires i <= |s|
    ensures i <= j <= |s|
    decreases |s| - i
  {
    if i < |s| && s[i] != '\n' then LineEnd(s, i + 1) else i
  }

  /**
   * The end of a match of `\w+ \w+ +\d+ .+` starting at `i`. Every part
   * of the pattern is followed by a character its own class excludes, so
   * each run is maximal and the match is unique.
   */
  function DateMatch(s: string, i: nat): (e: Option<nat>)
    requires i <= |s|
    ensures e.Some? ==> i < e.value <= |s|
  {
    var a := WordEnd(s, i);
    if a == i || a == |s| || s[a] != ' ' then None
    else
      var b := WordEnd(s, a + 1);
      if b == a + 1 then None
      else
        var c := BlankEnd(s, b);
        if c == b then None
        else
          var d := DigitEnd(s, c);
          if d == c || d == |s| || s[d] != ' ' then None
          else
            var e := LineEnd(s, d + 1);
            if e == d + 1 then None else Some(e)
  }

  /** `re.search` from position `i` on: the leftmost match's text. */
  function SearchDate(s: string, i: nat): Option<string>
    requires i <= |s|
    decreases |s| - i
  {
    if i == |s| then None
    else match DateMatch(s, i)
      case Some(e) => Some(s[i..e])
      case None => SearchDate(s, i + 1)
  }

  /** `re.search(r'(\w+ \w+ +\d+ .+)', line).group(1)`, `None` when there is no match. */
  function ScrubDate(line: string): Option<string>
  {
    SearchDate(line, 0)
  }

  /** No position in `[i, k)` starts a match. */
  predicate Unmatched(s: string, i: nat, k: nat)
    requires i <= k <= |s|
  {
    forall j :: i <= j < k ==> DateMatch(s, j).None?
  }

  /** A match starts at `k` and its text is `d`. */
  predicate MatchedAt(s: string, k: nat, d: string)
    requires k <= |s|
  {
    DateMatch(s, k).Some? && d == s[k..DateMatch(s, k).value]
  }

  lemma SearchDateHere(s: string, i: nat)
    requires i < |s| && DateMatch(s, i).Some?
    ensures SearchDate(s, i).Some? && MatchedAt(s, i, SearchDate(s, i).value) && Unmatched(s, i, i)
  {
  }

  lemma SearchDateNext(s: string, i: nat)
    requires i < |s| && DateMatch(s, i).None?
    ensures SearchDate(s, i) == SearchDate(s, i + 1)
  {
  }

  lemma UnmatchedExtend(s: string, i: nat, k: nat)
    requires i < k <= |s| && DateMatch(s, i).None? && Unmatched(s, i + 1, k)
    ensures Unmatched(s, i, k)
  {
  }

  lemma {:induction false} SearchDateLeftmost(s: string, i: nat)
    requires i <= |s|
    ensures SearchDate(s, i).Some? ==>
      exists k :: i <= k < |s| && MatchedAt(s, k, SearchDate(s, i).value) && Unmatched(s, i, k)
    ensures SearchDate(s, i).None? ==> Unmatched(s, i, |s|)
    decreases |s| - i
  {
    if i < |s| {
      if DateMatch(s, i).Some? {
        SearchDateHere(s, i);
      } else {
        SearchDateLeftmost(s, i + 1);
        SearchDateNext(s, i);
        if SearchDate(s, i).Some? {
          var k :| i + 1 <= k < |s| && MatchedAt(s, k, SearchDate(s, i).value) && Unmatched(s, i + 1, k);
          UnmatchedExtend(s, i, k);
        } else {
          UnmatchedExtend(s, i, |s|);
        }
      }
    }
  }

  /** The scrub date is the text of the leftmost match of the pattern; there is none exactly when no position matches. */
  lemma ScrubDateLeftmost(line: string)
    ensures ScrubDate(line).Some? ==>
      exists k :: 0 <= k < |line| && MatchedAt(line, k, ScrubDate(line).value) && Unmatched(line, 0, k)
    ensures ScrubDate(line).None? <==> Unmatched(line, 0, |line|)
  {
    SearchDateLeftmost(line, 0);
    if ScrubDate(line).Some? {
      var k :| 0 <= k < |line| && MatchedAt(line, k, ScrubDate(line).value) && Unmatched(line, 0, k);
      assert DateMatch(line, k).Some?;
    }
  }

  /** The index of the first pool with that name (`next(..., None)`). */
  function PoolIndex(recs: seq<PoolRecord>, name: string): (r: Option<nat>)
    ensures r.Some? ==> r.value < |recs| && recs[r.value].name == name &&
                        (forall j :: 0 <= j < r.value ==> recs[j].name != name)
    ensures r.None? <==> forall j :: 0 <= j < |recs| ==> recs[j].name != name
  {
    if |recs| == 0 then None
    else if recs[0].name == name then Some(0)
    else match PoolIndex(recs[1..], name)
      case None => None
      case Some(k) => Some(k + 1)
  }

  /** The pool named by a stripped `pool:` line: the stripped text after the first colon. */
  function PoolNameOf(line: string): string
    requires StartsWith(line, "pool:")
  {
    Strip(line[5..])
  }

  /** The scrub branch: `in progress` sets the flag, a repaired/completed line records the date. */
  function ScrubUpdate(s: PoolStatus, line: string): PoolStatus
  {
    var low := Lower(line);
    if !Contains(low, "scrub") then s
    else if Contains(low, "in progress") then s.(scrubInProgress := true)
    else if Contains(low, "scrub repaired") || Contains(low, "scrub completed") then
      match ScrubDate(line)
      case Some(d) => s.(lastScrub := Some(d))
      case None => s
    else s
  }

  /** The guard of the error branch, with Python's precedence: `and` binds tighter than `or`. */
  predicate ErrorRow(line: string, name: string)
  {
    (Contains(line, name) && Contains(line, "ONLINE")) || Contains(line, "DEGRADED")
  }

  /** `int(t) if t.isdigit() else 0`. */
  function ErrorCount(t: string): nat
  {
    if PyIsDigit(t) then DigitsValue(t) else 0
  }

  /** The error branch: the last three words of a table row of at least five words. */
  function ErrorUpdate(s: PoolStatus, line: string, name: string): PoolStatus
  {
    if !ErrorRow(line, name) then s
    else
      var parts := Words(line);
      if |parts| < 5 then s
      else s.(readErrors := ErrorCount(parts[|parts| - 3]),
              writeErrors := ErrorCount(parts[|parts| - 2]),
              checksumErrors := ErrorCount(parts[|parts| - 1]))
  }

  /** The scan's state: the current pool (an index into the listed pools) and every pool's status. */
  datatype StatusScan = StatusScan(cursor: Option<nat>, pools: seq<PoolStatus>)

  predicate Scanning(recs: seq<PoolRecord>, st: StatusScan)
  {
    |st.pools| == |recs| && (st.cursor.Some? ==> st.cursor.value < |recs|)
  }

  /** A line naming a pool with `pool:` moves the cursor; the current pool, if any, is updated. */
  function StatusStep(recs: seq<PoolRecord>, st: StatusScan, raw: string): (r: StatusScan)
    requires Scanning(recs, st)
    ensures Scanning(recs, r)
  {
    var line := Strip(raw);
    var cursor := if StartsWith(line, "pool:") then PoolIndex(recs, PoolNameOf(line)) else st.cursor;
    match cursor
    case None => StatusScan(None, st.pools)
    case Some(c) =>
      StatusScan(cursor, st.pools[c := ErrorUpdate(ScrubUpdate(st.pools[c], line), line, recs[c].name)])
  }

  function ScanLines(recs: seq<PoolRecord>, st: StatusScan, lines: seq<string>): (r: StatusScan)
    requires Scanning(recs, st)
    ensures Scanning(recs, r)
  {
    if |lines| == 0 then st
    else StatusStep(recs, ScanLines(recs, st, lines[..|lines| - 1]), lines[|lines| - 1])
  }

  /** `parse_zpool_status` on values: the statuses after the scan of every line. */
  function ZpoolStatus(output: string, recs: seq<PoolRecord>, statuses: seq<PoolStatus>): (r: seq<PoolStatus>)
    requires |statuses| == |recs|
    ensures |r| == |recs|
  {
    ScanLines(recs, StatusScan(None, statuses), Lines(output)).pools
  }

  lemma ScanPrefix(recs: seq<PoolRecord>, st: StatusScan, lines: seq<string>, i: nat)
    requires Scanning(recs, st) && i < |lines|
    ensures ScanLines(recs, st, lines[..i + 1]) == StatusStep(recs, ScanLines(recs, st, lines[..i]), lines[i])
  {
    assert lines[..i + 1][..i] == lines[..i];
  }

  /** Scanning two runs of lines is scanning the first, then the second from where it left off. */
  lemma {:induction false} ScanConcat(recs: seq<PoolRecord>, st: StatusScan, xs: seq<string>, ys: seq<string>)
    requires Scanning(recs, st)
    ensures ScanLines(recs, st, xs + ys) == ScanLines(recs, ScanLines(recs, st, xs), ys)
    decreases |ys|
  {
    if |ys| == 0 {
      assert xs + ys == xs;
    } else {
      var init := ys[..|ys| - 1];
      ScanConcat(recs, st, xs, init);
      assert (xs + ys)[..|xs + ys| - 1] == xs + init;
    }
  }

  predicate PoolLine(raw: string)
  {
    StartsWith(Strip(raw), "pool:")
  }

  /** With no current pool, lines that name no pool change nothing: this covers the lines before the first `pool:` line. */
  lemma {:induction false} IgnoredWithoutPool(recs: seq<PoolRecord>, statuses: seq<PoolStatus>, lines: seq<string>)
    requires |statuses| == |recs|
    requires forall k :: 0 <= k < |lines| ==> !PoolLine(lines[k])
    ensures ScanLines(recs, StatusScan(None, statuses), lines) == StatusScan(None, statuses)
  {
    if |lines| > 0 {
      IgnoredWithoutPool(recs, statuses, lines[..|lines| - 1]);
    }
  }

  /** A `pool:` line naming no listed pool clears the cursor, so the lines under it are ignored too. */
  lemma UnknownPoolIgnored(recs: seq<PoolRecord>, st: StatusScan, raw: string)
    requires Scanning(recs, st) && PoolLine(raw)
    requires forall j :: 0 <= j < |recs| ==> recs[j].name != PoolNameOf(Strip(raw))
    ensures StatusStep(recs, st, raw) == StatusScan(None, st.pools)
  {
  }

  /** The `pool:` lines that select pool `i`. */
  predicate Selects(recs: seq<PoolRecord>, raw: string, i: nat)
  {
    PoolLine(raw) && PoolIndex(recs, PoolNameOf(Strip(raw))) == Some(i)
  }

  /** A pool that is not current and that no line selects keeps its status. */
  lemma {:induction false} UnselectedUnchanged(recs: seq<PoolRecord>, st: StatusScan, lines: seq<string>, i: nat)
    requires Scanning(recs, st) && i < |recs| && st.cursor != Some(i)
    requires forall k :: 0 <= k < |lines| ==> !Selects(recs, lines[k], i)
    ensures ScanLines(recs, st, lines).pools[i] == st.pools[i]
    ensures ScanLines(recs, st, lines).cursor != Some(i)
  {
    if |lines| > 0 {
      UnselectedUnchanged(recs, st, lines[..|lines| - 1], i);
    }
  }

  predicate NonNegative(s: PoolStatus)
  {
    s.readErrors >= 0 && s.writeErrors >= 0 && s.checksumErrors >= 0
  }

  predicate AllNonNegative(ss: seq<PoolStatus>)
  {
    forall k :: 0 <= k < |ss| ==> NonNegative(ss[k])
  }

  lemma StepNonNegative(recs: seq<PoolRecord>, st: StatusScan, raw: string)
    requires Scanning(recs, st) && AllNonNegative(st.pools)
    ensures AllNonNegative(StatusStep(recs, st, raw).pools)
  {
    var r := StatusStep(recs, st, raw);
    if r.cursor.Some? {
      var c := r.cursor.value;
      var line := Strip(raw);
      assert NonNegative(ScrubUpdate(st.pools[c], line));
      assert r.pools == st.pools[c := ErrorUpdate(ScrubUpdate(st.pools[c], line), line, recs[c].name)];
      forall k | 0 <= k < |r.pools|
        ensures NonNegative(r.pools[k])
      {
        if k != c {
          assert r.pools[k] == st.pools[k];
        }
      }
    }
  }

  /** Error counters read from the table are never negative: a non-digit word reads as 0. */
  lemma {:induction false} ScanNonNegative(recs: seq<PoolRecord>, st: StatusScan, lines: seq<string>)
    requires Scanning(recs, st) && AllNonNegative(st.pools)
    ensures AllNonNegative(ScanLines(recs, st, lines).pools)
  {
    if |lines| > 0 {
      ScanNonNegative(recs, st, lines[..|lines| - 1]);
      StepNonNegative(recs, ScanLines(recs, st, lines[..|lines| - 1]), lines[|lines| - 1]);
    }
  }

  /** As written, any row mentioning DEGRADED sets the counters, whichever pool it names. */
  lemma DegradedRowAnyPool(s: PoolStatus, line: string, name: string)
    requires Contains(line, "DEGRADED") && |Words(line)| >= 5
    ensures ErrorUpdate(s, line, name).readErrors == ErrorCount(Words(line)[|Words(line)| - 3])
    ensures ErrorUpdate(s, line, name).checksumErrors == ErrorCount(Words(line)[|Words(line)| - 1])
  {
  }

  /** An ONLINE row sets the counters only when it contains the current pool's name. */
  lemma OnlineRowNeedsName(s: PoolStatus, line: string, name: string)
    requires !Contains(line, "DEGRADED") && !Contains(line, name)
    ensures ErrorUpdate(s, line, name) == s
  {
  }

  // ---------------------------------------------------------------
  // ARC statistics
  // ---------------------------------------------------------------

  datatype ArcStats = ArcStats(
    sizeBytes: int,
    targetSizeBytes: int,
    minSizeBytes: int,
    maxSizeBytes: int,
    hits: int,
    misses: int,
    hitRatio: real)

  const NoArcStats := ArcStats(0, 0, 0, 0, 0, 0, 0.0)

  /** The kstat names the parser reads. */
  predicate ArcKey(name: string)
  {
    name in ["size", "c", "c_min", "c_max", "hits", "misses"]
  }

  /** Assigns the field a kstat name maps to; other names leave the statistics alone. */
  function ArcSet(stats: ArcStats, name: string, value: int): ArcStats
  {
    if name == "size" then stats.(sizeBytes := value)
    else if name == "c" then stats.(targetSizeBytes := value)
    else if name == "c_min" then stats.(minSizeBytes := value)
    else if name == "c_max" then stats.(maxSizeBytes := value)
    else if name == "hits" then stats.(hits := value)
    else if name == "misses" then stats.(misses := value)
    else stats
  }

  /** The field a kstat name maps to (0 for other names). */
  function ArcField(stats: ArcStats, name: string): int
  {
    if name == "size" then stats.sizeBytes
    else if name == "c" then stats.targetSizeBytes
    else if name == "c_min" then stats.minSizeBytes
    else if name == "c_max" then stats.maxSizeBytes
    else if name == "hits" then stats.hits
    else if name == "misses" then stats.misses
    else 0
  }

  /** A kstat row with at least three words whose third converts: its name and value. */
  function ArcRowOf(line: string): seq<(string, int)>
  {
    var parts := Words(line);
    if |parts| >= 3 then
      match PyInt(parts[2])
      case None => []
      case Some(v) => [(parts[0], v)]
    else []
  }

  function ArcCounters(stats: ArcStats, rows: seq<(string, int)>): ArcStats
  {
    if |rows| == 0 then stats
    else
      var (name, value) := rows[|rows| - 1];
      ArcSet(ArcCounters(stats, rows[..|rows| - 1]), name, value)
  }

  /** `hits / (hits + misses)` when the total is positive; otherwise the ratio stays as it was. */
  function WithHitRatio(stats: ArcStats): ArcStats
  {
    var total := stats.hits + stats.misses;
    if total > 0 then stats.(hitRatio := stats.hits as real / total as real) else stats
  }

  /** The converting rows of the output, in order. */
  function ArcRows(output: string): seq<(string, int)>
  {
    FlatMap(Lines(output), ArcRowOf)
  }

  /** `parse_arc_stats` on values. */
  function ArcStatsOf(output: string): ArcStats
  {
    WithHitRatio(ArcCounters(NoArcStats, ArcRows(output)))
  }

  /** The value of the last row for `name`, if any. */
  function LastValue(rows: seq<(string, int)>, name: string): Option<int>
  {
    if |rows| == 0 then None
    else if rows[|rows| - 1].0 == name then Some(rows[|rows| - 1].1)
    else LastValue(rows[..|rows| - 1], name)
  }

  lemma ArcSetField(stats: ArcStats, name: string, value: int, key: string)
    requires ArcKey(key)
    ensures ArcField(ArcSet(stats, name, value), key) == if name == key then value else ArcField(stats, key)
    ensures ArcSet(stats, name, value).hitRatio == stats.hitRatio
  {
  }

  /** For every key the parser reads, the last converting row for that key wins; without one the field stays as it began. */
  lemma {:induction false} ArcLastWins(stats: ArcStats, rows: seq<(string, int)>, key: string)
    requires ArcKey(key)
    ensures ArcField(ArcCounters(stats, rows), key) == LastValue(rows, key).GetOr(ArcField(stats, key))
  {
    if |rows| > 0 {
      var init := rows[..|rows| - 1];
      ArcLastWins(stats, init, key);
      ArcSetField(ArcCounters(stats, init), rows[|rows| - 1].0, rows[|rows| - 1].1, key);
    }
  }

  lemma {:induction false} ArcCountersRatio(stats: ArcStats, rows: seq<(string, int)>)
    ensures ArcCounters(stats, rows).hitRatio == stats.hitRatio
  {
    if |rows| > 0 {
      var init := rows[..|rows| - 1];
      ArcCountersRatio(stats, init);
      ArcSetField(ArcCounters(stats, init), rows[|rows| - 1].0, rows[|rows| - 1].1, "hits");
    }
  }

  lemma RatioBounds(h: int, m: int)
    requires h >= 0 && m >= 0 && h + m > 0
    ensures 0.0 <= h as real / (h + m) as real <= 1.0
  {
    var t := (h + m) as real;
    var r := h as real / t;
    assert r * t == h as real;
  }

  /** `WithHitRatio` on counters whose ratio is still the default 0. */
  lemma WithHitRatioBounds(c: ArcStats)
    requires c.hitRatio == 0.0
    ensures var s := WithHitRatio(c);
      (s.hits + s.misses > 0 ==> s.hitRatio == s.hits as real / (s.hits + s.misses) as real) &&
      (s.hits + s.misses <= 0 ==> s.hitRatio == 0.0) &&
      (s.hits >= 0 && s.misses >= 0 ==> 0.0 <= s.hitRatio <= 1.0)
  {
    if c.hits >= 0 && c.misses >= 0 && c.hits + c.misses > 0 {
      RatioBounds(c.hits, c.misses);
    }
  }

  /** The hit ratio is hits over the total when that is positive, else 0; it lies in [0, 1] for non-negative counters. */
  lemma HitRatio(output: string)
    ensures var s := ArcStatsOf(output);
      (s.hits + s.misses > 0 ==> s.hitRatio == s.hits as real / (s.hits + s.misses) as real) &&
      (s.hits + s.misses <= 0 ==> s.hitRatio == 0.0) &&
      (s.hits >= 0 && s.misses >= 0 ==> 0.0 <= s.hitRatio <= 1.0)
  {
    var rows := ArcRows(output);
    ArcCountersRatio(NoArcStats, rows);
    WithHitRatioBounds(ArcCounters(NoArcStats, rows));
  }

  // ---------------------------------------------------------------
  // exportfs -v
  // ---------------------------------------------------------------

  datatype NfsExport = NfsExport(path: string, clients: seq<string>, options: string)

  /** What one export row contributes: its path, its client and that client's options. */
  datatype ExportEntry = ExportEntry(path: string, client: string, options: string)

  /** `client(options)`: the text before the first `(`, and the text after it up to the next `(` without trailing `)`s; `''` without a `(`. */
  function ExportEntryOf(line: string): seq<ExportEntry>
  {
    if line == "" then []
    else
      var parts := Words(line);
      if |parts| < 2 then []
      else
        var info := parts[1];
        var pieces := SplitOn(info, '(');
        [ExportEntry(parts[0], pieces[0], if '(' in info then RStripChars(pieces[1], {')'}) else "")]
  }

  /** The rows of the output, in order. */
  function Entries(output: string): seq<ExportEntry>
  {
    FlatMap(Lines(Strip(output)), ExportEntryOf)
  }

  /** The index of the export with that path. */
  function ExportIndex(exports: seq<NfsExport>, path: string): (r: Option<nat>)
    ensures r.Some? ==> r.value < |exports| && exports[r.value].path == path &&
                        (forall j :: 0 <= j < r.value ==> exports[j].path != path)
    ensures r.None? <==> forall j :: 0 <= j < |exports| ==> exports[j].path != path
  {
    if |exports| == 0 then None
    else if exports[0].path == path then Some(0)
    else match ExportIndex(exports[1..], path)
      case None => None
      case Some(k) => Some(k + 1)
  }

  /** Find or create the export for the row's path, append the client and set the options. */
  function AddEntry(exports: seq<NfsExport>, e: ExportEntry): seq<NfsExport>
  {
    match ExportIndex(exports, e.path)
    case Some(k) => exports[k := exports[k].(clients := exports[k].clients + [e.client], options := e.options)]
    case None => exports + [NfsExport(e.path, [e.client], e.options)]
  }

  function ExportsOf(entries: seq<ExportEntry>): seq<NfsExport>
  {
    if |entries| == 0 then []
    else AddEntry(ExportsOf(entries[..|entries| - 1]), entries[|entries| - 1])
  }

  /** `parse_exportfs` on values. */
  function ExportfsOf(output: string): seq<NfsExport>
  {
    ExportsOf(Entries(output))
  }

  function ExportPaths(exports: seq<NfsExport>): (r: seq<string>)
    ensures |r| == |exports| && forall k :: 0 <= k < |r| ==> r[k] == exports[k].path
  {
    if |exports| == 0 then [] else ExportPaths(exports[..|exports| - 1]) + [exports[|exports| - 1].path]
  }

  function EntryPaths(entries: seq<ExportEntry>): (r: seq<string>)
    ensures |r| == |entries| && forall k :: 0 <= k < |r| ==> r[k] == entries[k].path
  {
    if |entries| == 0 then [] else EntryPaths(entries[..|entries| - 1]) + [entries[|entries| - 1].path]
  }

  /** The clients of the rows for `path`, in order. */
  function ClientsFor(entries: seq<ExportEntry>, path: string): seq<string>
  {
    if |entries| == 0 then []
    else
      var e := entries[|entries| - 1];
      ClientsFor(entries[..|entries| - 1], path) + (if e.path == path then [e.client] else [])
  }

  /** The options of the last row for `path` (`''` when there is none). */
  function LastOptions(entries: seq<ExportEntry>, path: string): string
  {
    if |entries| == 0 then ""
    else
      var e := entries[|entries| - 1];
      if e.path == path then e.options else LastOptions(entries[..|entries| - 1], path)
  }

  /** Each export is the one its path's rows describe. */
  predicate Describes(exports: seq<NfsExport>, entries: seq<ExportEntry>)
  {
    forall k :: 0 <= k < |exports| ==>
      exports[k].clients == ClientsFor(entries, exports[k].path) &&
      exports[k].options == LastOptions(entries, exports[k].path)
  }

  lemma {:induction false} ClientsForAbsent(entries: seq<ExportEntry>, path: string)
    requires path !in EntryPaths(entries)
    ensures ClientsFor(entries, path) == []
  {
    if |entries| > 0 {
      var init := entries[..|entries| - 1];
      assert forall k :: 0 <= k < |init| ==> EntryPaths(init)[k] == EntryPaths(entries)[k];
      ClientsForAbsent(init, path);
    }
  }

  lemma AddEntryOld(es: seq<NfsExport>, all: seq<ExportEntry>, k: nat)
    requires |all| > 0
    requires NoDup(ExportPaths(es)) && Describes(es, all[..|all| - 1])
    requires ExportIndex(es, all[|all| - 1].path) == Some(k)
    ensures ExportPaths(AddEntry(es, all[|all| - 1])) == ExportPaths(es)
    ensures Describes(AddEntry(es, all[|all| - 1]), all)
  {
    var e := all[|all| - 1];
    var r := AddEntry(es, e);
    forall j | 0 <= j < |r|
      ensures r[j].clients == ClientsFor(all, r[j].path) && r[j].options == LastOptions(all, r[j].path)
    {
      if j != k {
        assert ExportPaths(es)[j] != ExportPaths(es)[k];
      }
    }
  }

  lemma AddEntryNew(es: seq<NfsExport>, all: seq<ExportEntry>)
    requires |all| > 0
    requires Describes(es, all[..|all| - 1]) && all[|all| - 1].path !in EntryPaths(all[..|all| - 1])
    requires ExportIndex(es, all[|all| - 1].path).None?
    ensures ExportPaths(AddEntry(es, all[|all| - 1])) == ExportPaths(es) + [all[|all| - 1].path]
    ensures Describes(AddEntry(es, all[|all| - 1]), all)
  {
    var e := all[|all| - 1];
    var r := AddEntry(es, e);
    ClientsForAbsent(all[..|all| - 1], e.path);
    forall j | 0 <= j < |r|
      ensures r[j].clients == ClientsFor(all, r[j].path) && r[j].options == LastOptions(all, r[j].path)
    {
    }
  }

  /**
   * One export per distinct path, in order of first appearance; each export
   * lists the clients of its path's rows in order and carries the options of
   * its path's last row.
   */
  lemma {:induction false} ExportsSpec(entries: seq<ExportEntry>)
    ensures ExportPaths(ExportsOf(entries)) == Dedup(EntryPaths(entries))
    ensures Describes(ExportsOf(entries), entries)
  {
    if |entries| > 0 {
      ExportsSpec(entries[..|entries| - 1]);
      ExportsStep(entries);
    }
  }

  lemma ExportsStep(entries: seq<ExportEntry>)
    requires |entries| > 0
    requires ExportPaths(ExportsOf(entries[..|entries| - 1])) == Dedup(EntryPaths(entries[..|entries| - 1]))
    requires Describes(ExportsOf(entries[..|entries| - 1]), entries[..|entries| - 1])
    ensures ExportPaths(ExportsOf(entries)) == Dedup(EntryPaths(entries))
    ensures Describes(ExportsOf(entries), entries)
  {
    var init, e := entries[..|entries| - 1], entries[|entries| - 1];
    var es := ExportsOf(init);
    var paths := EntryPaths(init);
    DedupSpec(paths);
    assert EntryPaths(entries) == paths + [e.path];
    match ExportIndex(es, e.path)
    case Some(k) =>
      assert e.path in paths by {
        assert ExportPaths(es)[k] == e.path;
      }
      DedupAppendOld(paths, e.path);
      AddEntryOld(es, entries, k);
    case None =>
      assert e.path !in paths by {
        assert e.path !in ExportPaths(es);
      }
      DedupAppendNew(paths, e.path);
      AddEntryNew(es, entries);
  }

  lemma ExportsOfAppend(entries: seq<ExportEntry>, e: ExportEntry)
    ensures ExportsOf(entries + [e]) == AddEntry(ExportsOf(entries), e)
  {
    assert (entries + [e])[..|entries|] == entries;
  }

  lemma ArcCountersAppend(stats: ArcStats, rows: seq<(string, int)>, row: (string, int))
    ensures ArcCounters(stats, rows + [row]) == ArcSet(ArcCounters(stats, rows), row.0, row.1)
  {
    assert (rows + [row])[..|rows|] == rows;
  }

  /** Counting one run of rows after another is counting their concatenation. */
  lemma {:induction false} ArcCountersConcat(stats: ArcStats, rows: seq<(string, int)>, more: seq<(string, int)>)
    ensures ArcCounters(stats, rows + more) == ArcCounters(ArcCounters(stats, rows), more)
    decreases |more|
  {
    if |more| == 0 {
      assert rows + more == rows;
    } else {
      var init := more[..|more| - 1];
      ArcCountersConcat(stats, rows, init);
      assert (rows + more)[..|rows + more| - 1] == rows + init;
    }
  }

  // ---------------------------------------------------------------
  // Pools and storage statistics as objects
  // ---------------------------------------------------------------

  /** A pool's health: ONLINE, no read, write or checksum errors and capacity under 85%. */
  predicate PoolHealthy(r: PoolRecord, s: PoolStatus)
  {
    r.health == "ONLINE" && s.readErrors == 0 && s.writeErrors == 0 && s.checksumErrors == 0 &&
    r.capacityPct < 85.0
  }

  /**
   * `ZFSPool`. The fields no collector operation assigns after construction
   * are constants; the five that `zpool status` may change are variables.
   */
  class ZFSPool {
    const name: string
    const health: string
    const sizeBytes: int
    const allocatedBytes: int
    const freeBytes: int
    const fragmentationPct: real
    const capacityPct: real
    const dedupRatio: real
    const scrubErrors: int
    var lastScrub: Option<string>
    var scrubInProgress: bool
    var readErrors: int
    var writeErrors: int
    var checksumErrors: int

    constructor (r: PoolRecord)
      ensures Record() == r && Status() == Unscanned && scrubErrors == 0
    {
      name := r.name;
      health := r.health;
      sizeBytes := r.sizeBytes;
      allocatedBytes := r.allocatedBytes;
      freeBytes := r.freeBytes;
      fragmentationPct := r.fragmentationPct;
      capacityPct := r.capacityPct;
      dedupRatio := r.dedupRatio;
      scrubErrors := 0;
      lastScrub := None;
      scrubInProgress := false;
      readErrors := 0;
      writeErrors := 0;
      checksumErrors := 0;
    }

    function Record(): PoolRecord
    {
      PoolRecord(name, health, sizeBytes, allocatedBytes, freeBytes, fragmentationPct, capacityPct, dedupRatio)
    }

    function Status(): PoolStatus
      reads this
    {
      PoolStatus(scrubInProgress, lastScrub, readErrors, writeErrors, checksumErrors)
    }

    /** `is_healthy`. */
    predicate IsHealthy()
      reads this
    {
      PoolHealthy(Record(), Status())
    }
  }

  function Records(ps: seq<ZFSPool>): (r: seq<PoolRecord>)
    ensures |r| == |ps| && forall k :: 0 <= k < |ps| ==> r[k] == ps[k].Record()
  {
    if |ps| == 0 then [] else Records(ps[..|ps| - 1]) + [ps[|ps| - 1].Record()]
  }

  function Statuses(ps: seq<ZFSPool>): (r: seq<PoolStatus>)
    reads set p | p in ps
    ensures |r| == |ps| && forall k :: 0 <= k < |ps| ==> r[k] == ps[k].Status()
  {
    if |ps| == 0 then [] else Statuses(ps[..|ps| - 1]) + [ps[|ps| - 1].Status()]
  }

  predicate Distinct(ps: seq<ZFSPool>)
  {
    forall i, j :: 0 <= i < j < |ps| ==> ps[i] != ps[j]
  }

  lemma PoolsAppend(pools: seq<ZFSPool>, pool: ZFSPool)
    requires Distinct(pools) && pool !in pools
    ensures Distinct(pools + [pool])
    ensures Records(pools + [pool]) == Records(pools) + [pool.Record()]
  {
    assert (pools + [pool])[..|pools|] == pools;
  }

  /** One line of `parse_zpool_list`: a blank or rejected line adds no pool, an accepted one adds a fresh pool. */
  method AddListed(pools: seq<ZFSPool>, line: string) returns (r: seq<ZFSPool>)
    requires Distinct(pools)
    ensures Records(r) == Records(pools) + PoolOf(line)
    ensures Distinct(r)
    ensures forall p | p in r :: p in pools || (fresh(p) && p.Status() == Unscanned)
  {
    r := pools;
    if line != "" {
      var parsed := ZpoolLine(line);
      if parsed.Some? {
        var pool := new ZFSPool(parsed.value);
        PoolsAppend(pools, pool);
        r := pools + [pool];
      }
    }
  }

  /** `parse_zpool_list`: a fresh pool per accepted line, in order, with default scrub and error fields. */
  method ParseZpoolList(output: string) returns (pools: seq<ZFSPool>)
    ensures Records(pools) == ZpoolList(output)
    ensures Distinct(pools)
    ensures fresh(set p | p in pools)
    ensures forall p | p in pools :: p.Status() == Unscanned
  {
    var lines := Lines(Strip(output));
    pools := [];
    var i := 0;
    while i < |lines|
      invariant i <= |lines|
      invariant Records(pools) == FlatMap(lines[..i], PoolOf)
      invariant Distinct(pools)
      invariant forall p | p in pools :: fresh(p) && p.Status() == Unscanned
    {
      FlatMapPrefix(lines, i, PoolOf);
      pools := AddListed(pools, lines[i]);
      i := i + 1;
    }
    FlatMapWhole(lines, PoolOf);
  }

  /** One status line applied to the pool the scan is in: the scrub line's fields, then an error row's counters. */
  method UpdatePool(pool: ZFSPool, line: string)
    modifies pool
    ensures pool.Status() == ErrorUpdate(ScrubUpdate(old(pool.Status()), line), line, pool.name)
  {
    var low := Lower(line);
    if Contains(low, "scrub") {
      if Contains(low, "in progress") {
        pool.scrubInProgress := true;
      } else if Contains(low, "scrub repaired") || Contains(low, "scrub completed") {
        var date := ScrubDate(line);
        if date.Some? {
          pool.lastScrub := date;
        }
      }
    }
    assert pool.Status() == ScrubUpdate(old(pool.Status()), line);
    if ErrorRow(line, pool.name) {
      var parts := Words(line);
      if |parts| >= 5 {
        pool.readErrors := ErrorCount(parts[|parts| - 3]);
        pool.writeErrors := ErrorCount(parts[|parts| - 2]);
        pool.checksumErrors := ErrorCount(parts[|parts| - 1]);
      }
    }
  }

  lemma UpdatedAt<T>(a: seq<T>, b: seq<T>, c: nat)
    requires |a| == |b| && c < |a|
    requires forall k :: 0 <= k < |a| && k != c ==> b[k] == a[k]
    ensures b == a[c := b[c]]
  {
  }

  /** One line of `parse_zpool_status`: move the cursor on a `pool:` line, then update the pool it is on. */
  method StatusLine(recs: seq<PoolRecord>, pools: seq<ZFSPool>, cursor: Option<nat>, raw: string) returns (next: Option<nat>)
    requires Distinct(pools) && recs == Records(pools)
    requires Scanning(recs, StatusScan(cursor, Statuses(pools)))
    modifies set p | p in pools
    ensures StatusScan(next, Statuses(pools)) == StatusStep(recs, StatusScan(cursor, old(Statuses(pools))), raw)
  {
    ghost var before := Statuses(pools);
    var line := Strip(raw);
    next := cursor;
    if StartsWith(line, "pool:") {
      next := PoolIndex(recs, PoolNameOf(line));
    }
    if next.Some? {
      var c := next.value;
      UpdatePool(pools[c], line);
      ghost var after := Statuses(pools);
      forall k | 0 <= k < |pools| && k != c
        ensures after[k] == before[k]
      {
        assert pools[k] != pools[c];
      }
      UpdatedAt(before, after, c);
    }
  }

  /**
   * `parse_zpool_status`: the same list comes back, and each pool's scrub
   * and error fields are those the scan of the output gives. The pools
   * must be distinct objects (see the README).
   */
  method ParseZpoolStatus(output: string, pools: seq<ZFSPool>) returns (r: seq<ZFSPool>)
    requires Distinct(pools)
    modifies set p | p in pools
    ensures r == pools
    ensures Statuses(pools) == ZpoolStatus(output, Records(pools), old(Statuses(pools)))
  {
    var recs := Records(pools);
    ghost var start := Statuses(pools);
    var lines := Lines(output);
    var cursor: Option<nat> := None;
    var i := 0;
    while i < |lines|
      invariant 0 <= i <= |lines|
      invariant Scanning(recs, StatusScan(cursor, Statuses(pools)))
      invariant ScanLines(recs, StatusScan(None, start), lines[..i]) == StatusScan(cursor, Statuses(pools))
    {
      ScanPrefix(recs, StatusScan(None, start), lines, i);
      cursor := StatusLine(recs, pools, cursor, lines[i]);
      i := i + 1;
    }
    assert lines[..i] == lines;
    r := pools;
  }


  /** One kstat row of `parse_arc_stats`: a converting row assigns the field its name maps to. */
  method ReadArcRow(stats: ArcStats, line: string) returns (next: ArcStats)
    ensures next == ArcCounters(stats, ArcRowOf(line))
  {
    next := stats;
    var parts := Words(line);
    if |parts| >= 3 {
      var name := parts[0];
      var value := PyInt(parts[2]);
      if value.Some? {
        var v := value.value;
        if name == "size" {
          next := next.(sizeBytes := v);
        } else if name == "c" {
          next := next.(targetSizeBytes := v);
        } else if name == "c_min" {
          next := next.(minSizeBytes := v);
        } else if name == "c_max" {
          next := next.(maxSizeBytes := v);
        } else if name == "hits" {
          next := next.(hits := v);
        } else if name == "misses" {
          next := next.(misses := v);
        }
        assert ArcRowOf(line) == [(name, v)];
        ArcCountersAppend(stats, [], (name, v));
        assert [] + [(name, v)] == [(name, v)];
      }
    }
  }

  /** `parse_arc_stats`: the loop assigns the field each converting row names, then derives the hit ratio. */
  method ParseArcStats(output: string) returns (stats: ArcStats)
    ensures stats == ArcStatsOf(output)
  {
    var lines := Lines(output);
    stats := NoArcStats;
    var i := 0;
    while i < |lines|
      invariant 0 <= i <= |lines|
      invariant stats == ArcCounters(NoArcStats, FlatMap(lines[..i], ArcRowOf))
    {
      FlatMapPrefix(lines, i, ArcRowOf);
      ArcCountersConcat(NoArcStats, FlatMap(lines[..i], ArcRowOf), ArcRowOf(lines[i]));
      stats := ReadArcRow(stats, lines[i]);
      i := i + 1;
    }
    FlatMapWhole(lines, ArcRowOf);
    assert stats == ArcCounters(NoArcStats, ArcRows(output));
    ghost var counted := stats;
    var total := stats.hits + stats.misses;
    if total > 0 {
      stats := stats.(hitRatio := stats.hits as real / total as real);
    }
    assert stats == WithHitRatio(counted);
  }

  /** `parse_exportfs`: find or create the export of each row's path, append its client, set its options. */
  method ParseExportfs(output: string) returns (exports: seq<NfsExport>)
    ensures exports == ExportfsOf(output)
  {
    var lines := Lines(Strip(output));
    exports := [];
    var i := 0;
    while i < |lines|
      invariant 0 <= i <= |lines|
      invariant exports == ExportsOf(FlatMap(lines[..i], ExportEntryOf))
    {
      FlatMapPrefix(lines, i, ExportEntryOf);
      ghost var done := FlatMap(lines[..i], ExportEntryOf);
      var line := lines[i];
      if line != "" {
        var parts := Words(line);
        if |parts| >= 2 {
          var path := parts[0];
          var info := parts[1];
          var pieces := SplitOn(info, '(');
          var client := pieces[0];
          var options := if '(' in info then RStripChars(pieces[1], {')'}) else "";
          ghost var e := ExportEntry(path, client, options);
          assert ExportEntryOf(line) == [e];
          ExportsOfAppend(done, e);
          var found := ExportIndex(exports, path);
          if found.Some? {
            var k := found.value;
            exports := exports[k := exports[k].(clients := exports[k].clients + [client], options := options)];
          } else {
            exports := exports + [NfsExport(path, [client], options)];
          }
          assert exports == ExportsOf(done + [e]);
        } else {
          assert ExportEntryOf(line) == [];
          assert done + [] == done;
        }
      } else {
        assert done + [] == done;
      }
      i := i + 1;
    }
    FlatMapWhole(lines, ExportEntryOf);
  }

  // ---------------------------------------------------------------
  // Pool health and the ZFS collection
  // ---------------------------------------------------------------

  /** A pool read from a listed row, before any status output, is healthy iff its health is ONLINE and its capacity under 85. */
  lemma ListedRowHealthy(name: string, health: string, size: int, alloc: int, free: int,
                         frag: nat, cap: nat, dedup: nat)
    requires '\t' !in name && '\t' !in health
    ensures ZpoolLine(PoolRow(name, health, size, alloc, free, frag, cap, dedup)).Some?
    ensures PoolHealthy(ZpoolLine(PoolRow(name, health, size, alloc, free, frag, cap, dedup)).value, Unscanned)
      <==> health == "ONLINE" && cap < 85
  {
    ReadPoolRow(name, health, size, alloc, free, frag, cap, dedup);
  }

  /** Any nonzero error counter makes a pool unhealthy, whatever its health and capacity. */
  lemma ErrorsUnhealthy(r: PoolRecord, s: PoolStatus)
    requires s.readErrors != 0 || s.writeErrors != 0 || s.checksumErrors != 0
    ensures !PoolHealthy(r, s)
  {
  }

  /** Every pool in the list is healthy. */
  predicate AllHealthy(ps: seq<ZFSPool>)
    reads set p | p in ps
  {
    forall k :: 0 <= k < |ps| ==> ps[k].IsHealthy()
  }

  /** Listed pools, one status per pool: every status starts unscanned. */
  function Unscanneds(n: nat): (r: seq<PoolStatus>)
    ensures |r| == n && forall k :: 0 <= k < n ==> r[k] == Unscanned
  {
    if n == 0 then [] else Unscanneds(n - 1) + [Unscanned]
  }

  /** Byte totals: total, used (allocated) and free. */
  datatype ByteTotals = ByteTotals(total: int, used: int, free: int)
  {
    function Plus(r: PoolRecord): ByteTotals
    {
      ByteTotals(total + r.sizeBytes, used + r.allocatedBytes, free + r.freeBytes)
    }
  }

  /** The sums over pools of their size, allocated and free bytes, added to `start`. */
  function PoolTotals(start: ByteTotals, recs: seq<PoolRecord>): ByteTotals
  {
    if |recs| == 0 then start else PoolTotals(start, recs[..|recs| - 1]).Plus(recs[|recs| - 1])
  }

  /** `(used / total) * 100` when there is a total; otherwise the percentage is left as it was. */
  function UsagePct(used: int, total: int, before: real): real
  {
    if total > 0 then (used as real / total as real) * 100.0 else before
  }

  /** With used bytes between zero and the total, the usage percentage lies in [0, 100]. */
  lemma UsageInRange(used: int, total: int, before: real)
    requires 0 <= used <= total && 0 < total
    ensures 0.0 <= UsagePct(used, total, before) <= 100.0
  {
    var q := used as real / total as real;
    var t := total as real;
    assert q * t == used as real;
    FractionAtMostOne(q, t);
  }

  lemma FractionAtMostOne(q: real, t: real)
    requires t > 0.0 && 0.0 <= q * t <= t
    ensures 0.0 <= q <= 1.0
  {
  }

  /** `StorageStats` for one device: the fields the ZFS collection and the health check use. */
  class StorageStats {
    const hostname: string
    const storageType: string
    var status: string
    var pools: seq<ZFSPool>
    var arcStats: Option<ArcStats>
    var nfsExports: seq<NfsExport>
    var totalBytes: int
    var usedBytes: int
    var freeBytes: int
    var usagePct: real

    constructor (hostname: string, storageType: string)
      ensures this.hostname == hostname && this.storageType == storageType
      ensures status == "online" && pools == [] && arcStats == None && nfsExports == []
      ensures totalBytes == 0 && usedBytes == 0 && freeBytes == 0 && usagePct == 0.0
    {
      this.hostname := hostname;
      this.storageType := storageType;
      status := "online";
      pools := [];
      arcStats := None;
      nfsExports := [];
      totalBytes := 0;
      usedBytes := 0;
      freeBytes := 0;
      usagePct := 0.0;
    }

    /** `is_healthy`: online, under 90% used, and no pool unhealthy; the loop stops at the first unhealthy pool. */
    method IsHealthy() returns (ok: bool)
      ensures ok <==> status == "online" && usagePct < 90.0 && AllHealthy(pools)
    {
      if status != "online" {
        return false;
      }
      if usagePct >= 90.0 {
        return false;
      }
      var i := 0;
      while i < |pools|
        invariant 0 <= i <= |pools|
        invariant forall k :: 0 <= k < i ==> pools[k].IsHealthy()
      {
        if !pools[i].IsHealthy() {
          return false;
        }
        i := i + 1;
      }
      return true;
    }

    /** The overall status `_collect_storage` sets at the end: `online` when healthy, `degraded` otherwise. */
    method SettleStatus()
      modifies this
      ensures status == (if old(status) == "online" && usagePct < 90.0 && AllHealthy(pools) then "online" else "degraded")
      ensures pools == old(pools) && usagePct == old(usagePct) && arcStats == old(arcStats)
      ensures nfsExports == old(nfsExports) && totalBytes == old(totalBytes)
      ensures usedBytes == old(usedBytes) && freeBytes == old(freeBytes)
      ensures status == "online" <==> usagePct < 90.0 && AllHealthy(pools) && status == "online"
    {
      var ok := IsHealthy();
      if ok {
        status := "online";
      } else {
        status := "degraded";
      }
    }
  }

  /**
   * `_collect_zfs`. `poolOut`, `statusOut` and `arcOut` are what the three
   * commands print, `None` when a command fails. Without a pool list nothing
   * changes; otherwise the pools are the list's, scanned by the status
   * output when there is one, and the byte totals grow by the pools' sums.
   */
  method CollectZfs(stats: StorageStats, poolOut: Option<string>, statusOut: Option<string>, arcOut: Option<string>)
    modifies stats
    ensures poolOut.None? ==> unchanged(stats)
    ensures poolOut.Some? ==> Records(stats.pools) == ZpoolList(poolOut.value)
    ensures poolOut.Some? ==>
      Statuses(stats.pools) ==
        if statusOut.Some? then ZpoolStatus(statusOut.value, Records(stats.pools), Unscanneds(|stats.pools|))
        else Unscanneds(|stats.pools|)
    ensures poolOut.Some? ==> stats.arcStats == if arcOut.Some? then Some(ArcStatsOf(arcOut.value)) else old(stats.arcStats)
    ensures poolOut.Some? ==> Totals(stats) == PoolTotals(old(Totals(stats)), Records(stats.pools))
    ensures poolOut.Some? ==> stats.usagePct == UsagePct(stats.usedBytes, stats.totalBytes, old(stats.usagePct))
    ensures stats.status == old(stats.status) && stats.nfsExports == old(stats.nfsExports)
  {
    if poolOut.None? {
      return;
    }
    var pools := LoadPools(poolOut.value, statusOut);
    FinishZfs(stats, pools, arcOut);
  }

  /** The pool list, then the status scan over it when the status command succeeded. */
  method LoadPools(poolOut: string, statusOut: Option<string>) returns (pools: seq<ZFSPool>)
    ensures Records(pools) == ZpoolList(poolOut) && Distinct(pools) && fresh(set p | p in pools)
    ensures Statuses(pools) ==
      if statusOut.Some? then ZpoolStatus(statusOut.value, Records(pools), Unscanneds(|pools|))
      else Unscanneds(|pools|)
  {
    pools := ParseZpoolList(poolOut);
    assert Statuses(pools) == Unscanneds(|pools|);
    if statusOut.Some? {
      pools := ParseZpoolStatus(statusOut.value, pools);
    }
  }

  /** The rest of `_collect_zfs`: the pools stored, then the statistics derived from the other outputs. */
  method FinishZfs(stats: StorageStats, pools: seq<ZFSPool>, arcOut: Option<string>)
    modifies stats
    ensures stats.pools == pools && Statuses(pools) == old(Statuses(pools))
    ensures stats.arcStats == if arcOut.Some? then Some(ArcStatsOf(arcOut.value)) else old(stats.arcStats)
    ensures Totals(stats) == PoolTotals(old(Totals(stats)), Records(pools))
    ensures stats.usagePct == UsagePct(stats.usedBytes, stats.totalBytes, old(stats.usagePct))
    ensures stats.status == old(stats.status) && stats.nfsExports == old(stats.nfsExports)
  {
    ghost var before := Statuses(pools);
    stats.pools := pools;
    FinishTotals(stats, arcOut);
    forall k | 0 <= k < |pools|
      ensures pools[k].Status() == before[k]
    {
      assert pools[k] as object != stats;
    }
    assert Statuses(pools) == before;
  }

  /** The ARC statistics, the byte totals over the stored pools and the usage percentage. */
  method FinishTotals(stats: StorageStats, arcOut: Option<string>)
    modifies stats
    ensures stats.arcStats == if arcOut.Some? then Some(ArcStatsOf(arcOut.value)) else old(stats.arcStats)
    ensures Totals(stats) == PoolTotals(old(Totals(stats)), Records(stats.pools))
    ensures stats.usagePct == UsagePct(stats.usedBytes, stats.totalBytes, old(stats.usagePct))
    ensures stats.pools == old(stats.pools) && stats.status == old(stats.status) && stats.nfsExports == old(stats.nfsExports)
  {
    if arcOut.Some? {
      var arc := ParseArcStats(arcOut.value);
      stats.arcStats := Some(arc);
    }
    TotalsLoop(stats);
    if stats.totalBytes > 0 {
      stats.usagePct := (stats.usedBytes as real / stats.totalBytes as real) * 100.0;
    }
  }

  /** The loop of `_collect_zfs` that adds each pool's sizes to the totals. */
  method TotalsLoop(stats: StorageStats)
    modifies stats
    ensures Totals(stats) == PoolTotals(old(Totals(stats)), Records(stats.pools))
    ensures stats.pools == old(stats.pools) && stats.arcStats == old(stats.arcStats) && stats.usagePct == old(stats.usagePct)
    ensures stats.status == old(stats.status) && stats.nfsExports == old(stats.nfsExports)
  {
    var pools := stats.pools;
    ghost var start := Totals(stats);
    ghost var recs := Records(pools);
    var i := 0;
    while i < |pools|
      invariant i <= |pools| && stats.pools == pools
      invariant Totals(stats) == PoolTotals(start, recs[..i])
      invariant stats.arcStats == old(stats.arcStats) && stats.usagePct == old(stats.usagePct)
      invariant stats.status == old(stats.status) && stats.nfsExports == old(stats.nfsExports)
    {
      assert recs[..i + 1][..i] == recs[..i];
      stats.totalBytes := stats.totalBytes + pools[i].sizeBytes;
      stats.usedBytes := stats.usedBytes + pools[i].allocatedBytes;
      stats.freeBytes := stats.freeBytes + pools[i].freeBytes;
      i := i + 1;
    }
    assert recs[..i] == recs;
  }

  function Totals(stats: StorageStats): ByteTotals
    reads stats
  {
    ByteTotals(stats.totalBytes, stats.usedBytes, stats.freeBytes)
  }
}
