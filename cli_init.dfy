// The configuration file written by `nomade init` (nomade/cli.py), and the
// way the wizard resumes an interrupted run.
//
// The prompts are not modelled: the wizard's answers are given as values,
// and the date stamp of the header is a parameter.
module CliInit {
  import opened Wrappers
  import opened Text
  import Assoc
  import StringOrder

  // ---------------------------------------------------------------
  // The wizard's answers
  // ---------------------------------------------------------------

  datatype Partition = Partition(nodes: seq<string>, gpuNodes: seq<string>)

  /**
   * A cluster dictionary built by the wizard. `mode`, `type` and `host`
   * are read with `get` and may be missing; the partitions are a
   * dictionary, kept here in insertion order.
   */
  datatype Cluster = Cluster(
    name: string,
    mode: Option<string>,
    kind: Option<string>,
    host: Option<string>,
    sshUser: string,
    sshKey: string,
    partitions: seq<(string, Partition)>,
    filesystems: seq<string>,
    hasGpu: bool,
    hasNfs: bool,
    hasInteractive: bool)

  datatype Answers = Answers(dataDir: string, clusters: seq<Cluster>, adminEmail: string, dashPort: int)

  // ---------------------------------------------------------------
  // TOML values
  // ---------------------------------------------------------------

  /** A TOML basic string, written without escaping. */
  function Quoted(x: string): string
  {
    "\"" + x + "\""
  }

  /** `', '.join(f'"{x}"' for x in xs)` */
  function QuotedItems(xs: seq<string>): string
  {
    if |xs| == 0 then "" else Quoted(xs[0]) + MoreItems(xs[1..])
  }

  function MoreItems(ys: seq<string>): string
  {
    if |ys| == 0 then "" else ", " + Quoted(ys[0]) + MoreItems(ys[1..])
  }

  function TomlArray(xs: seq<string>): string
  {
    "[" + QuotedItems(xs) + "]"
  }

  // ---------------------------------------------------------------
  // The sections of the file
  // ---------------------------------------------------------------

  function HeaderLines(stamp: string): seq<string>
  {
    ["# NØMADE Configuration File", "# Generated by: nomade init", "# Date: " + stamp, ""]
  }

  function GeneralLines(dataDir: string): seq<string>
  {
    ["[general]", "log_level = \"info\"", "data_dir = " + Quoted(dataDir), ""]
  }

  function DatabaseLines(): seq<string>
  {
    ["[database]", "path = \"nomade.db\"", ""]
  }

  predicate AnyGpu(cs: seq<Cluster>)
  {
    exists i :: 0 <= i < |cs| && cs[i].hasGpu
  }

  predicate AnyNfs(cs: seq<Cluster>)
  {
    exists i :: 0 <= i < |cs| && cs[i].hasNfs
  }

  predicate AnyInteractive(cs: seq<Cluster>)
  {
    exists i :: 0 <= i < |cs| && cs[i].hasInteractive
  }

  function Optional(b: bool, xs: seq<string>): seq<string>
  {
    if b then xs else []
  }

  /** `coll_list`: the three base collectors, then those some cluster asked for. */
  function CollectorList(cs: seq<Cluster>): seq<string>
  {
    ["disk", "slurm", "node_state"]
      + Optional(AnyGpu(cs), ["gpu"]) + Optional(AnyNfs(cs), ["nfs"]) + Optional(AnyInteractive(cs), ["interactive"])
  }

  function CollectorLines(cs: seq<Cluster>): seq<string>
  {
    ["[collectors]", "enabled = " + TomlArray(CollectorList(cs)), "interval = 60", ""]
  }

  /** Every file system of every cluster, in order, with repetitions. */
  function FsSeq(cs: seq<Cluster>): seq<string>
  {
    if |cs| == 0 then [] else FsSeq(cs[..|cs| - 1]) + cs[|cs| - 1].filesystems
  }

  /** `sorted(all_fs)` */
  function FsList(cs: seq<Cluster>): seq<string>
  {
    StringOrder.SortUnique(FsSeq(cs))
  }

  function DiskLines(fs: seq<string>): seq<string>
  {
    ["[collectors.disk]", "filesystems = " + TomlArray(fs), ""]
  }

  /** `c.get("type", "hpc") == "hpc"`: a cluster whose partitions are SLURM partitions. */
  predicate IsHpc(c: Cluster)
  {
    c.kind.GetOr("hpc") == "hpc"
  }

  /** The partition names of the HPC clusters, in order, with repetitions. */
  function PartSeq(cs: seq<Cluster>): seq<string>
  {
    if |cs| == 0 then []
    else
      var c := cs[|cs| - 1];
      PartSeq(cs[..|cs| - 1]) + (if IsHpc(c) then Assoc.Keys(c.partitions) else [])
  }

  /** `sorted(all_parts)` */
  function PartList(cs: seq<Cluster>): seq<string>
  {
    StringOrder.SortUnique(PartSeq(cs))
  }

  function SlurmLines(parts: seq<string>): seq<string>
  {
    if |parts| == 0 then [] else ["[collectors.slurm]", "partitions = " + TomlArray(parts), ""]
  }

  function GpuLines(cs: seq<Cluster>): seq<string>
  {
    Optional(AnyGpu(cs), ["[collectors.gpu]", "enabled = true", ""])
  }

  function NfsLines(cs: seq<Cluster>): seq<string>
  {
    Optional(AnyNfs(cs), ["[collectors.nfs]", "mount_points = []", ""])
  }

  /** `"# " + "=" * 44`, the rule above and below a banner title. */
  const Rule: string := "#" + " ============================================"

  function Banner(title: string): seq<string>
  {
    [Rule, "# " + title, Rule, ""]
  }

  /** `name.lower().replace(' ', '-')` */
  function ClusterId(name: string): string
  {
    var low := Lower(name);
    seq(|low|, i requires 0 <= i < |low| => if low[i] == ' ' then '-' else low[i])
  }

  function RemoteLines(c: Cluster): seq<string>
  {
    if c.mode == Some("remote") then
      (if Truthy(c.host) then ["host = " + Quoted(c.host.value)] else [])
        + ["ssh_user = " + Quoted(c.sshUser), "ssh_key = " + Quoted(c.sshKey)]
    else []
  }

  /** `sum(len(p["nodes"]) for p in partitions.values())` */
  function TotalNodes(ps: seq<(string, Partition)>): nat
  {
    if |ps| == 0 then 0 else TotalNodes(ps[..|ps| - 1]) + |ps[|ps| - 1].1.nodes|
  }

  /** The labels test `c.get("type") == "hpc"`, with no default. */
  function ClusterLabel(kind: Option<string>): string
  {
    if kind == Some("hpc") then "cluster" else "workstation group"
  }

  function SectionLabel(kind: Option<string>): string
  {
    if kind == Some("hpc") then "partitions" else "groups"
  }

  function MemberLabel(kind: Option<string>): string
  {
    if kind == Some("hpc") then "partition" else "group"
  }

  function ClusterHeader(cid: string): string
  {
    "[clusters." + cid + "]"
  }

  function PartitionHeader(cid: string, kind: Option<string>, pid: string): string
  {
    "[clusters." + cid + "." + SectionLabel(kind) + "." + pid + "]"
  }

  function ClusterHead(c: Cluster): seq<string>
  {
    [ClusterHeader(ClusterId(c.name)), "name = " + Quoted(c.name), "type = " + Quoted(c.kind.GetOr("hpc"))]
      + RemoteLines(c)
      + ["description = " + Quoted(NatToString(TotalNodes(c.partitions)) + "-node " + ClusterLabel(c.kind)), ""]
  }

  function PartitionLines(cid: string, kind: Option<string>, pid: string, p: Partition): seq<string>
  {
    [PartitionHeader(cid, kind, pid),
     "description = " + Quoted(NatToString(|p.nodes|) + "-node " + MemberLabel(kind)),
     "nodes = " + TomlArray(p.nodes)]
      + (if |p.gpuNodes| > 0 then ["gpu_nodes = " + TomlArray(p.gpuNodes)] else [])
      + [""]
  }

  function PartitionsLines(cid: string, kind: Option<string>, ps: seq<(string, Partition)>): seq<string>
  {
    if |ps| == 0 then []
    else
      var (pid, p) := ps[|ps| - 1];
      PartitionsLines(cid, kind, ps[..|ps| - 1]) + PartitionLines(cid, kind, pid, p)
  }

  function ClusterLines(c: Cluster): seq<string>
  {
    ClusterHead(c) + PartitionsLines(ClusterId(c.name), c.kind, c.partitions)
  }

  function ClustersLines(cs: seq<Cluster>): seq<string>
  {
    if |cs| == 0 then [] else ClustersLines(cs[..|cs| - 1]) + ClusterLines(cs[|cs| - 1])
  }

  function AlertLines(): seq<string>
  {
    ["[alerts]", "enabled = true", "min_severity = \"warning\"", "cooldown_minutes = 15", "",
     "[alerts.thresholds.disk]", "used_percent_warning = 80", "used_percent_critical = 95", ""]
  }

  function InteractiveAlertLines(cs: seq<Cluster>): seq<string>
  {
    Optional(AnyInteractive(cs),
      ["[alerts.thresholds.interactive]", "idle_sessions_warning = 50", "idle_sessions_critical = 100",
       "memory_gb_warning = 32", "memory_gb_critical = 64", ""])
  }

  /** The comment line of the email table. */
  const SmtpNote: string := "#" + " Update these with your SMTP server details:"

  function EmailLines(email: string): seq<string>
  {
    if email == "" then []
    else
      ["[alerts.email]", "enabled = true", SmtpNote,
       "smtp_server = \"smtp.example.com\"", "smtp_port = 587", "from_address = \"nomade@example.com\"",
       "recipients = " + TomlArray([email]), ""]
  }

  function DashboardLines(port: int): seq<string>
  {
    ["[dashboard]", "host = \"127.0.0.1\"", "port = " + IntToString(port), ""]
  }

  function MlLines(): seq<string>
  {
    ["[ml]", "enabled = true", ""]
  }

  /** The lines of the generated file, section by section. */
  function ConfigLines(a: Answers, stamp: string): seq<string>
  {
    var cs := a.clusters;
    HeaderLines(stamp) + GeneralLines(a.dataDir) + DatabaseLines() + CollectorLines(cs)
      + DiskLines(FsList(cs)) + SlurmLines(PartList(cs)) + GpuLines(cs) + NfsLines(cs)
      + Banner("CLUSTERS") + ClustersLines(cs)
      + Banner("ALERTS") + AlertLines() + InteractiveAlertLines(cs) + EmailLines(a.adminEmail)
      + Banner("DASHBOARD") + DashboardLines(a.dashPort)
      + Banner("ML PREDICTION") + MlLines()
  }

  /** `'\n'.join(lines)`, the text written to the configuration file. */
  function ConfigText(a: Answers, stamp: string): string
  {
    JoinOn(ConfigLines(a, stamp), '\n')
  }

  // ---------------------------------------------------------------
  // Generating the file
  // ---------------------------------------------------------------

  /** The loop over the clusters' file systems. */
  method CollectFilesystems(cs: seq<Cluster>) returns (allFs: set<string>)
    ensures forall f :: f in allFs <==> f in FsSeq(cs)
  {
    allFs := {};
    for i := 0 to |cs|
      invariant forall f :: f in allFs <==> f in FsSeq(cs[..i])
    {
      assert cs[..i + 1][..i] == cs[..i];
      allFs := allFs + set f | f in cs[i].filesystems;
    }
    assert cs[..|cs|] == cs;
  }

  /** The loop over the partitions of the HPC clusters. */
  method CollectPartitions(cs: seq<Cluster>) returns (allParts: set<string>)
    ensures forall p :: p in allParts <==> p in PartSeq(cs)
  {
    allParts := {};
    for i := 0 to |cs|
      invariant forall p :: p in allParts <==> p in PartSeq(cs[..i])
    {
      assert cs[..i + 1][..i] == cs[..i];
      if cs[i].kind.GetOr("hpc") == "hpc" {
        allParts := allParts + set p | p in Assoc.Keys(cs[i].partitions);
      }
    }
    assert cs[..|cs|] == cs;
  }

  /** `sorted(s)` of a set gathered from a list is the sorted list without duplicates. */
  method SortedOf(s: set<string>, ghost xs: seq<string>) returns (r: seq<string>)
    requires forall y :: y in s <==> y in xs
    ensures r == StringOrder.SortUnique(xs)
  {
    r := StringOrder.SortSet(s);
    StringOrder.SortUniqueSpec(xs);
    StringOrder.IncreasingUnique(r, StringOrder.SortUnique(xs));
  }

  lemma Concat3<T>(a: seq<T>, b: seq<T>, c: seq<T>)
    ensures a + b + c == a + (b + c)
  {
  }

  lemma PartitionsStep(cid: string, kind: Option<string>, ps: seq<(string, Partition)>, j: nat)
    requires j < |ps|
    ensures PartitionsLines(cid, kind, ps[..j + 1]) == PartitionsLines(cid, kind, ps[..j]) + PartitionLines(cid, kind, ps[j].0, ps[j].1)
  {
    assert ps[..j + 1][..j] == ps[..j];
  }

  lemma ClustersStep(cs: seq<Cluster>, i: nat)
    requires i < |cs|
    ensures ClustersLines(cs[..i + 1]) == ClustersLines(cs[..i]) + ClusterLines(cs[i])
  {
    assert cs[..i + 1][..i] == cs[..i];
  }

  /** The lines of one cluster: its table, then one table per partition. */
  method AppendCluster(lines: seq<string>, c: Cluster) returns (r: seq<string>)
    ensures r == lines + ClusterLines(c)
  {
    var cid := ClusterId(c.name);
    var head := lines + ClusterHead(c);
    r := head;
    var ps := c.partitions;
    for j := 0 to |ps|
      invariant r == head + PartitionsLines(cid, c.kind, ps[..j])
    {
      var (pid, p) := ps[j];
      PartitionsStep(cid, c.kind, ps, j);
      Concat3(head, PartitionsLines(cid, c.kind, ps[..j]), PartitionLines(cid, c.kind, pid, p));
      r := r + PartitionLines(cid, c.kind, pid, p);
    }
    assert ps[..|ps|] == ps;
    Concat3(lines, ClusterHead(c), PartitionsLines(cid, c.kind, ps));
  }

  method AppendClusters(lines: seq<string>, cs: seq<Cluster>) returns (r: seq<string>)
    ensures r == lines + ClustersLines(cs)
  {
    r := lines;
    for i := 0 to |cs|
      invariant r == lines + ClustersLines(cs[..i])
    {
      ClustersStep(cs, i);
      Concat3(lines, ClustersLines(cs[..i]), ClusterLines(cs[i]));
      r := AppendCluster(r, cs[i]);
    }
    assert cs[..|cs|] == cs;
  }

  /** The generation of the configuration in `init`, in the order the file is written. */
  method GenerateConfig(a: Answers, stamp: string) returns (lines: seq<string>)
    ensures lines == ConfigLines(a, stamp)
  {
    var cs := a.clusters;
    lines := HeaderLines(stamp) + GeneralLines(a.dataDir) + DatabaseLines() + CollectorLines(cs);
    var allFs := CollectFilesystems(cs);
    var fs := SortedOf(allFs, FsSeq(cs));
    lines := lines + DiskLines(fs);
    var allParts := CollectPartitions(cs);
    var parts := SortedOf(allParts, PartSeq(cs));
    lines := lines + SlurmLines(parts) + GpuLines(cs) + NfsLines(cs) + Banner("CLUSTERS");
    lines := AppendClusters(lines, cs);
    lines := lines + Banner("ALERTS") + AlertLines() + InteractiveAlertLines(cs) + EmailLines(a.adminEmail);
    lines := lines + Banner("DASHBOARD") + DashboardLines(a.dashPort) + Banner("ML PREDICTION") + MlLines();
  }

  // ---------------------------------------------------------------
  // Reading the arrays back
  // ---------------------------------------------------------------

  /** The pieces of `QuotedItems(xs)` between its double quotes. */
  function Pieces(xs: seq<string>): seq<string>
  {
    if |xs| == 0 then [""] else ["", xs[0]] + MorePieces(xs[1..])
  }

  function MorePieces(ys: seq<string>): seq<string>
  {
    if |ys| == 0 then [""] else [", ", ys[0]] + MorePieces(ys[1..])
  }

  /** Reads back the items of an array of basic strings that hold no escape. */
  function ReadItems(ps: seq<string>): Option<seq<string>>
  {
    if ps == [""] then Some([])
    else if |ps| >= 3 && ps[0] == "" then
      match ReadMore(ps[2..])
      case None => None
      case Some(rest) => Some([ps[1]] + rest)
    else None
  }

  function ReadMore(ps: seq<string>): Option<seq<string>>
  {
    if ps == [""] then Some([])
    else if |ps| >= 3 && ps[0] == ", " then
      match ReadMore(ps[2..])
      case None => None
      case Some(rest) => Some([ps[1]] + rest)
    else None
  }

  /** A one-line TOML array of basic strings: `[...]`, items split at the double quotes. */
  function ReadArray(s: string): Option<seq<string>>
  {
    if |s| >= 2 && s[0] == '[' && s[|s| - 1] == ']' then ReadItems(SplitOn(s[1..|s| - 1], '"'))
    else None
  }

  predicate Unquoted(xs: seq<string>)
  {
    forall k :: 0 <= k < |xs| ==> '"' !in xs[k]
  }

  lemma JoinCons(p: string, rest: seq<string>, sep: char)
    requires |rest| >= 1
    ensures JoinOn([p] + rest, sep) == p + [sep] + JoinOn(rest, sep)
  {
    assert ([p] + rest)[1..] == rest;
  }

  /** Joining two leading pieces in front of more. */
  lemma JoinPair(p: string, x: string, rest: seq<string>)
    requires |rest| >= 1
    ensures JoinOn([p, x] + rest, '"') == p + "\"" + x + "\"" + JoinOn(rest, '"')
  {
    var q: string := ['"'];
    var j := JoinOn(rest, '"');
    JoinCons(x, rest, '"');
    assert [p, x] + rest == [p] + ([x] + rest);
    JoinCons(p, [x] + rest, '"');
    Concat3(p + q, x + q, j);
    Concat3(p + q, x, q);
  }

  lemma {:induction false} MorePiecesJoin(ys: seq<string>)
    ensures JoinOn(MorePieces(ys), '"') == MoreItems(ys)
  {
    if |ys| > 0 {
      MorePiecesJoin(ys[1..]);
      JoinPair(", ", ys[0], MorePieces(ys[1..]));
    }
  }

  lemma {:induction false} MorePiecesUnquoted(ys: seq<string>)
    requires Unquoted(ys)
    ensures Unquoted(MorePieces(ys))
  {
    if |ys| > 0 {
      var rest := MorePieces(ys[1..]);
      assert Unquoted(ys[1..]) by {
        forall k | 0 <= k < |ys| - 1 ensures '"' !in ys[1..][k] {
          assert ys[1..][k] == ys[k + 1];
        }
      }
      MorePiecesUnquoted(ys[1..]);
      var ps := [", ", ys[0]] + rest;
      forall k | 0 <= k < |ps| ensures '"' !in ps[k] {
        if k >= 2 {
          assert ps[k] == rest[k - 2];
        }
      }
    }
  }

  lemma {:induction false} MorePiecesRead(ys: seq<string>)
    ensures ReadMore(MorePieces(ys)) == Some(ys)
  {
    if |ys| > 0 {
      MorePiecesRead(ys[1..]);
      var rest := MorePieces(ys[1..]);
      var ps := [", ", ys[0]] + rest;
      assert ps[2..] == rest;
      assert ys == [ys[0]] + ys[1..];
    }
  }

  lemma PiecesJoin(xs: seq<string>)
    ensures JoinOn(Pieces(xs), '"') == QuotedItems(xs)
  {
    if |xs| > 0 {
      MorePiecesJoin(xs[1..]);
      JoinPair("", xs[0], MorePieces(xs[1..]));
      assert "" + "\"" == "\"";
    }
  }

  lemma PiecesUnquoted(xs: seq<string>)
    requires Unquoted(xs)
    ensures Unquoted(Pieces(xs))
  {
    if |xs| > 0 {
      var rest := MorePieces(xs[1..]);
      assert Unquoted(xs[1..]) by {
        forall k | 0 <= k < |xs| - 1 ensures '"' !in xs[1..][k] {
          assert xs[1..][k] == xs[k + 1];
        }
      }
      MorePiecesUnquoted(xs[1..]);
      var ps := ["", xs[0]] + rest;
      forall k | 0 <= k < |ps| ensures '"' !in ps[k] {
        if k >= 2 {
          assert ps[k] == rest[k - 2];
        }
      }
    }
  }

  lemma PiecesRead(xs: seq<string>)
    ensures ReadItems(Pieces(xs)) == Some(xs)
  {
    if |xs| > 0 {
      var rest := MorePieces(xs[1..]);
      MorePiecesRead(xs[1..]);
      var ps := ["", xs[0]] + rest;
      assert ps[2..] == rest;
      assert xs == [xs[0]] + xs[1..];
    }
  }

  /** An array written by `init` reads back as the same list when no item holds a double quote. */
  lemma ArrayRoundTrip(xs: seq<string>)
    requires Unquoted(xs)
    ensures ReadArray(TomlArray(xs)) == Some(xs)
  {
    PiecesJoin(xs);
    PiecesUnquoted(xs);
    PiecesRead(xs);
    SplitJoin(Pieces(xs), '"');
    var s := TomlArray(xs);
    assert s[1..|s| - 1] == QuotedItems(xs);
  }

  lemma {:induction false} ReadMoreUnquoted(ps: seq<string>)
    requires Unquoted(ps) && ReadMore(ps).Some?
    ensures Unquoted(ReadMore(ps).value)
  {
    if ps != [""] {
      var tail := ps[2..];
      assert Unquoted(tail) by {
        forall k | 0 <= k < |tail| ensures '"' !in tail[k] {
          assert tail[k] == ps[k + 2];
        }
      }
      ReadMoreUnquoted(tail);
      var r := [ps[1]] + ReadMore(tail).value;
      forall k | 0 <= k < |r| ensures '"' !in r[k] {
        if k > 0 {
          assert r[k] == ReadMore(tail).value[k - 1];
        }
      }
    }
  }

  /** Whatever an array reads back as holds no double quote. */
  lemma ReadArrayUnquoted(s: string)
    requires ReadArray(s).Some?
    ensures Unquoted(ReadArray(s).value)
  {
    var ps := SplitOn(s[1..|s| - 1], '"');
    SplitOnJoin(s[1..|s| - 1], '"');
    if ps != [""] {
      var tail := ps[2..];
      assert Unquoted(tail) by {
        forall k | 0 <= k < |tail| ensures '"' !in tail[k] {
          assert tail[k] == ps[k + 2];
        }
      }
      ReadMoreUnquoted(tail);
      var r := [ps[1]] + ReadMore(tail).value;
      forall k | 0 <= k < |r| ensures '"' !in r[k] {
        if k > 0 {
          assert r[k] == ReadMore(tail).value[k - 1];
        }
      }
    }
  }

  /** Items are not escaped: a list with a double quote in an item does not read back. */
  lemma QuoteBreaksArray(xs: seq<string>)
    requires !Unquoted(xs)
    ensures ReadArray(TomlArray(xs)) != Some(xs)
  {
    if ReadArray(TomlArray(xs)).Some? {
      ReadArrayUnquoted(TomlArray(xs));
    }
  }

  // ---------------------------------------------------------------
  // Properties of the generated file
  // ---------------------------------------------------------------

  /** The collectors listed: the three base ones first, each optional one exactly when a cluster asked. */
  lemma CollectorListSpec(cs: seq<Cluster>)
    ensures CollectorList(cs)[..3] == ["disk", "slurm", "node_state"]
    ensures "gpu" in CollectorList(cs) <==> AnyGpu(cs)
    ensures "nfs" in CollectorList(cs) <==> AnyNfs(cs)
    ensures "interactive" in CollectorList(cs) <==> AnyInteractive(cs)
  {
    var base: seq<string> := ["disk", "slurm", "node_state"];
    var g, n, i := Optional(AnyGpu(cs), ["gpu"]), Optional(AnyNfs(cs), ["nfs"]), Optional(AnyInteractive(cs), ["interactive"]);
    assert CollectorList(cs) == base + (g + n + i);
    assert "gpu" !in base && "nfs" !in base && "interactive" !in base;
  }

  predicate Distinct(xs: seq<string>)
  {
    forall i, j :: 0 <= i < j < |xs| ==> xs[i] != xs[j]
  }

  lemma DistinctConcat(a: seq<string>, b: seq<string>)
    requires Distinct(a) && Distinct(b)
    requires forall x :: x in a ==> x !in b
    ensures Distinct(a + b)
  {
    var ab := a + b;
    forall i, j | 0 <= i < j < |ab| ensures ab[i] != ab[j] {
      if j < |a| {
        assert ab[i] == a[i] && ab[j] == a[j];
      } else if i >= |a| {
        assert ab[i] == b[i - |a|] && ab[j] == b[j - |a|];
      } else {
        assert ab[i] == a[i] && ab[j] == b[j - |a|] && a[i] in a;
      }
    }
  }

  /** No collector is listed twice. */
  lemma CollectorListDistinct(cs: seq<Cluster>)
    ensures Distinct(CollectorList(cs))
  {
    var base: seq<string> := ["disk", "slurm", "node_state"];
    var g, n, i := Optional(AnyGpu(cs), ["gpu"]), Optional(AnyNfs(cs), ["nfs"]), Optional(AnyInteractive(cs), ["interactive"]);
    DistinctConcat(base, g);
    DistinctConcat(base + g, n);
    DistinctConcat(base + g + n, i);
  }

  lemma {:induction false} FsSeqMembers(cs: seq<Cluster>)
    ensures forall f :: f in FsSeq(cs) <==> exists i :: 0 <= i < |cs| && f in cs[i].filesystems
  {
    if |cs| > 0 {
      var init := cs[..|cs| - 1];
      FsSeqMembers(init);
      forall f | f in FsSeq(cs)
        ensures exists i :: 0 <= i < |cs| && f in cs[i].filesystems
      {
        if f in FsSeq(init) {
          var i :| 0 <= i < |init| && f in init[i].filesystems;
          assert cs[i] == init[i];
        } else {
          assert f in cs[|cs| - 1].filesystems;
        }
      }
      forall f | exists i :: 0 <= i < |cs| && f in cs[i].filesystems
        ensures f in FsSeq(cs)
      {
        var i :| 0 <= i < |cs| && f in cs[i].filesystems;
        if i < |init| {
          assert init[i] == cs[i];
        }
      }
    }
  }

  /** `filesystems` lists, sorted and once each, every file system some cluster asked for. */
  lemma FilesystemsSpec(cs: seq<Cluster>)
    ensures StringOrder.StrictlyIncreasing(FsList(cs))
    ensures forall f :: f in FsList(cs) <==> exists i :: 0 <= i < |cs| && f in cs[i].filesystems
  {
    StringOrder.SortUniqueSpec(FsSeq(cs));
    FsSeqMembers(cs);
  }

  lemma {:induction false} PartSeqMembers(cs: seq<Cluster>)
    ensures forall p :: p in PartSeq(cs) <==> exists i :: 0 <= i < |cs| && IsHpc(cs[i]) && p in Assoc.Keys(cs[i].partitions)
  {
    if |cs| > 0 {
      var init := cs[..|cs| - 1];
      PartSeqMembers(init);
      forall p | p in PartSeq(cs)
        ensures exists i :: 0 <= i < |cs| && IsHpc(cs[i]) && p in Assoc.Keys(cs[i].partitions)
      {
        if p in PartSeq(init) {
          var i :| 0 <= i < |init| && IsHpc(init[i]) && p in Assoc.Keys(init[i].partitions);
          assert cs[i] == init[i];
        } else {
          assert IsHpc(cs[|cs| - 1]) && p in Assoc.Keys(cs[|cs| - 1].partitions);
        }
      }
      forall p | exists i :: 0 <= i < |cs| && IsHpc(cs[i]) && p in Assoc.Keys(cs[i].partitions)
        ensures p in PartSeq(cs)
      {
        var i :| 0 <= i < |cs| && IsHpc(cs[i]) && p in Assoc.Keys(cs[i].partitions);
        if i < |init| {
          assert init[i] == cs[i];
        }
      }
    }
  }

  /**
   * `partitions` lists, sorted and once each, the partitions of the HPC
   * clusters, and the section is written exactly when there is one.
   */
  lemma SlurmSpec(cs: seq<Cluster>)
    ensures StringOrder.StrictlyIncreasing(PartList(cs))
    ensures forall p :: p in PartList(cs) <==> exists i :: 0 <= i < |cs| && IsHpc(cs[i]) && p in Assoc.Keys(cs[i].partitions)
    ensures SlurmLines(PartList(cs)) == [] <==> forall i :: 0 <= i < |cs| && IsHpc(cs[i]) ==> |cs[i].partitions| == 0
  {
    StringOrder.SortUniqueSpec(PartSeq(cs));
    PartSeqMembers(cs);
    forall i | 0 <= i < |cs| && IsHpc(cs[i]) && |cs[i].partitions| > 0
      ensures PartList(cs) != []
    {
      var ks := Assoc.Keys(cs[i].partitions);
      assert ks[0] in ks;
      assert ks[0] in PartList(cs);
    }
    if SlurmLines(PartList(cs)) != [] {
      var p := PartList(cs)[0];
      assert p in PartList(cs);
      var i :| 0 <= i < |cs| && IsHpc(cs[i]) && p in Assoc.Keys(cs[i].partitions);
      assert |cs[i].partitions| > 0;
    }
  }

  /** A cluster's id is its name in lower case with dashes for spaces. */
  lemma ClusterIdSpec(name: string)
    ensures |ClusterId(name)| == |name|
    ensures ' ' !in ClusterId(name)
    ensures Lower(ClusterId(name)) == ClusterId(name)
    ensures ' ' !in name && Lower(name) == name ==> ClusterId(name) == name
  {
    var id := ClusterId(name);
    forall i | 0 <= i < |id| ensures LowerChar(id[i]) == id[i] {
      assert id[i] == '-' || id[i] == LowerChar(name[i]);
    }
    if ' ' !in name && Lower(name) == name {
      forall i | 0 <= i < |id| ensures id[i] == name[i] {
        assert name[i] != ' ' && Lower(name)[i] == name[i];
      }
    }
  }

  /** The SSH lines are written for remote clusters only, with the host line when a host is known. */
  lemma RemoteSpec(c: Cluster)
    ensures RemoteLines(c) != [] <==> c.mode == Some("remote")
    ensures c.mode == Some("remote") ==> |RemoteLines(c)| == (if Truthy(c.host) then 3 else 2)
  {
  }

  /** A cluster without a `type` is written as `type = "hpc"`, yet labelled and sectioned as a workstation group. */
  lemma UntypedClusterLabels(c: Cluster)
    requires c.kind.None?
    ensures ClusterHead(c)[2] == "type = \"hpc\""
    ensures IsHpc(c)
    ensures ClusterLabel(c.kind) == "workstation group" && SectionLabel(c.kind) == "groups"
  {
  }

  /** The email section is written exactly when an address was given, with that one recipient. */
  lemma EmailSpec(email: string)
    ensures EmailLines(email) == [] <==> email == ""
    ensures email != "" ==> "recipients = " + TomlArray([email]) in EmailLines(email)
  {
  }

  lemma {:induction false} PartitionListed(cid: string, kind: Option<string>, ps: seq<(string, Partition)>, j: nat)
    requires j < |ps|
    ensures PartitionHeader(cid, kind, ps[j].0) in PartitionsLines(cid, kind, ps)
  {
    var init := ps[..|ps| - 1];
    if j < |init| {
      PartitionListed(cid, kind, init, j);
      assert init[j] == ps[j];
    } else {
      assert PartitionLines(cid, kind, ps[j].0, ps[j].1)[0] == PartitionHeader(cid, kind, ps[j].0);
    }
  }

  /** Every cluster gets its table, and every one of its partitions a sub-table. */
  lemma {:induction false} ClusterListed(cs: seq<Cluster>, i: nat)
    requires i < |cs|
    ensures ClusterHeader(ClusterId(cs[i].name)) in ClustersLines(cs)
    ensures forall j :: 0 <= j < |cs[i].partitions| ==>
      PartitionHeader(ClusterId(cs[i].name), cs[i].kind, cs[i].partitions[j].0) in ClustersLines(cs)
  {
    var init := cs[..|cs| - 1];
    if i < |init| {
      ClusterListed(init, i);
      assert init[i] == cs[i];
    } else {
      var c := cs[i];
      assert ClusterHead(c)[0] == ClusterHeader(ClusterId(c.name));
      assert ClusterLines(c)[0] == ClusterHeader(ClusterId(c.name));
      forall j | 0 <= j < |c.partitions|
        ensures PartitionHeader(ClusterId(c.name), c.kind, c.partitions[j].0) in ClusterLines(c)
      {
        PartitionListed(ClusterId(c.name), c.kind, c.partitions, j);
      }
    }
  }

  /** The description's node count adds up: the count of two runs of partitions is the sum of their counts. */
  lemma {:induction false} TotalNodesAppend(ps: seq<(string, Partition)>, qs: seq<(string, Partition)>)
    ensures TotalNodes(ps + qs) == TotalNodes(ps) + TotalNodes(qs)
  {
    if |qs| == 0 {
      assert ps + qs == ps;
    } else {
      var init := qs[..|qs| - 1];
      TotalNodesAppend(ps, init);
      assert (ps + qs)[..|ps + qs| - 1] == ps + init;
    }
  }

  /** A table header: a line that opens with `[`. */
  predicate Heading(l: string)
  {
    |l| > 0 && l[0] == '['
  }

  /** A line that opens with `[cl`, as the headers of the cluster tables do. */
  predicate ClusterHeading(l: string)
  {
    |l| > 2 && l[0] == '[' && l[1] == 'c' && l[2] == 'l'
  }

  /** Lines that open no table. */
  predicate NoTable(ls: seq<string>)
  {
    forall l :: l in ls ==> !Heading(l)
  }

  /** Lines whose only tables are cluster tables. */
  predicate OnlyClusterTables(ls: seq<string>)
  {
    forall l :: l in ls && Heading(l) ==> ClusterHeading(l)
  }

  lemma HeaderNoTable(stamp: string)
    ensures NoTable(HeaderLines(stamp))
  {
    assert HeaderLines(stamp)[2][0] == '#';
  }

  lemma BannerNoTable(title: string)
    ensures NoTable(Banner(title))
  {
    assert Rule[0] == '#';
    assert ("# " + title)[0] == '#';
  }

  lemma PartitionTables(cid: string, kind: Option<string>, pid: string, p: Partition)
    ensures OnlyClusterTables(PartitionLines(cid, kind, pid, p))
  {
    var h := PartitionHeader(cid, kind, pid);
    assert h[0] == '[' && h[1] == 'c' && h[2] == 'l';
    var d := "description = " + Quoted(NatToString(|p.nodes|) + "-node " + MemberLabel(kind));
    assert d[0] == 'd';
    assert ("nodes = " + TomlArray(p.nodes))[0] == 'n';
    assert ("gpu_nodes = " + TomlArray(p.gpuNodes))[0] == 'g';
  }

  lemma {:induction false} PartitionsTables(cid: string, kind: Option<string>, ps: seq<(string, Partition)>)
    ensures OnlyClusterTables(PartitionsLines(cid, kind, ps))
  {
    if |ps| > 0 {
      PartitionsTables(cid, kind, ps[..|ps| - 1]);
      PartitionTables(cid, kind, ps[|ps| - 1].0, ps[|ps| - 1].1);
    }
  }

  lemma ClusterHeadTables(c: Cluster)
    ensures OnlyClusterTables(ClusterHead(c))
  {
    var h := ClusterHeader(ClusterId(c.name));
    assert h[0] == '[' && h[1] == 'c' && h[2] == 'l';
    assert ("name = " + Quoted(c.name))[0] == 'n';
    assert ("type = " + Quoted(c.kind.GetOr("hpc")))[0] == 't';
    assert NoTable(RemoteLines(c)) by {
      if c.mode == Some("remote") {
        assert ("ssh_user = " + Quoted(c.sshUser))[0] == 's';
        assert ("ssh_key = " + Quoted(c.sshKey))[0] == 's';
        if Truthy(c.host) {
          assert ("host = " + Quoted(c.host.value))[0] == 'h';
        }
      }
    }
    assert ("description = " + Quoted(NatToString(TotalNodes(c.partitions)) + "-node " + ClusterLabel(c.kind)))[0] == 'd';
  }

  /** Within the cluster tables, every header is a `[clusters.…]` header. */
  lemma {:induction false} ClustersTables(cs: seq<Cluster>)
    ensures OnlyClusterTables(ClustersLines(cs))
  {
    if |cs| > 0 {
      ClustersTables(cs[..|cs| - 1]);
      var c := cs[|cs| - 1];
      ClusterHeadTables(c);
      PartitionsTables(ClusterId(c.name), c.kind, c.partitions);
    }
  }

  /**
   * The tables other than the cluster tables that `ls` opens are exactly
   * those of `hs`.
   */
  ghost predicate TablesOutside(ls: seq<string>, hs: seq<string>)
  {
    forall h :: Heading(h) && !ClusterHeading(h) ==> (h in ls <==> h in hs)
  }

  lemma NoTableOutside(ls: seq<string>)
    requires NoTable(ls) || OnlyClusterTables(ls)
    ensures TablesOutside(ls, [])
  {
  }

  /** Joining the pieces of the file, each with its known tables. */
  lemma TablesChain(
    p1: seq<string>, p2: seq<string>, p3: seq<string>, p4: seq<string>, p5: seq<string>, p6: seq<string>,
    p7: seq<string>, p8: seq<string>, p9: seq<string>, p10: seq<string>, p11: seq<string>, p12: seq<string>,
    p13: seq<string>, p14: seq<string>, p15: seq<string>, p16: seq<string>, p17: seq<string>, p18: seq<string>,
    h2: seq<string>, h3: seq<string>, h4: seq<string>, h5: seq<string>, h6: seq<string>, h7: seq<string>,
    h8: seq<string>, h12: seq<string>, h13: seq<string>, h14: seq<string>, h16: seq<string>, h18: seq<string>)
    requires TablesOutside(p1, []) && TablesOutside(p9, []) && TablesOutside(p10, [])
    requires TablesOutside(p11, []) && TablesOutside(p15, []) && TablesOutside(p17, [])
    requires TablesOutside(p2, h2) && TablesOutside(p3, h3) && TablesOutside(p4, h4) && TablesOutside(p5, h5)
    requires TablesOutside(p6, h6) && TablesOutside(p7, h7) && TablesOutside(p8, h8) && TablesOutside(p12, h12)
    requires TablesOutside(p13, h13) && TablesOutside(p14, h14) && TablesOutside(p16, h16) && TablesOutside(p18, h18)
    ensures TablesOutside(p1 + p2 + p3 + p4 + p5 + p6 + p7 + p8 + p9 + p10 + p11 + p12 + p13 + p14 + p15 + p16 + p17 + p18,
      h2 + h3 + h4 + h5 + h6 + h7 + h8 + h12 + h13 + h14 + h16 + h18)
  {
  }

  lemma GeneralTables(dataDir: string)
    ensures TablesOutside(GeneralLines(dataDir), ["[general]"])
  {
    assert ("data_dir = " + Quoted(dataDir))[0] == 'd';
  }

  lemma DatabaseTables()
    ensures TablesOutside(DatabaseLines(), ["[database]"])
  {
  }

  lemma CollectorsTables(cs: seq<Cluster>)
    ensures TablesOutside(CollectorLines(cs), ["[collectors]"])
  {
    assert ("enabled = " + TomlArray(CollectorList(cs)))[0] == 'e';
  }

  lemma DiskTables(fs: seq<string>)
    ensures TablesOutside(DiskLines(fs), ["[collectors.disk]"])
  {
    assert ("filesystems = " + TomlArray(fs))[0] == 'f';
  }

  lemma SlurmTables(parts: seq<string>)
    ensures TablesOutside(SlurmLines(parts), Optional(parts != [], ["[collectors.slurm]"]))
  {
    assert ("partitions = " + TomlArray(parts))[0] == 'p';
  }

  lemma GpuTables(cs: seq<Cluster>)
    ensures TablesOutside(GpuLines(cs), Optional(AnyGpu(cs), ["[collectors.gpu]"]))
  {
  }

  lemma NfsTables(cs: seq<Cluster>)
    ensures TablesOutside(NfsLines(cs), Optional(AnyNfs(cs), ["[collectors.nfs]"]))
  {
  }

  lemma AlertsTables()
    ensures TablesOutside(AlertLines(), ["[alerts]", "[alerts.thresholds.disk]"])
  {
  }

  lemma InteractiveTables(cs: seq<Cluster>)
    ensures TablesOutside(InteractiveAlertLines(cs), Optional(AnyInteractive(cs), ["[alerts.thresholds.interactive]"]))
  {
  }

  lemma EmailTables(email: string)
    ensures TablesOutside(EmailLines(email), Optional(email != "", ["[alerts.email]"]))
  {
    if email != "" {
      assert SmtpNote[0] == '#';
      assert ("recipients = " + TomlArray([email]))[0] == 'r';
    }
  }

  lemma DashboardTables(port: int)
    ensures TablesOutside(DashboardLines(port), ["[dashboard]"])
  {
    assert ("port = " + IntToString(port))[0] == 'p';
  }

  lemma MlTables()
    ensures TablesOutside(MlLines(), ["[ml]"])
  {
  }

  /** The tables of the file other than the cluster tables, in the order they are written. */
  function FileTables(a: Answers): seq<string>
  {
    var cs := a.clusters;
    ["[general]"] + ["[database]"] + ["[collectors]"] + ["[collectors.disk]"]
      + Optional(PartList(cs) != [], ["[collectors.slurm]"])
      + Optional(AnyGpu(cs), ["[collectors.gpu]"]) + Optional(AnyNfs(cs), ["[collectors.nfs]"])
      + ["[alerts]", "[alerts.thresholds.disk]"]
      + Optional(AnyInteractive(cs), ["[alerts.thresholds.interactive]"]) + Optional(a.adminEmail != "", ["[alerts.email]"])
      + ["[dashboard]"] + ["[ml]"]
  }

  /** Apart from the cluster tables, the file opens exactly the tables of `FileTables`. */
  lemma TablesOfFile(a: Answers, stamp: string)
    ensures TablesOutside(ConfigLines(a, stamp), FileTables(a))
  {
    var cs := a.clusters;
    HeaderNoTable(stamp);
    NoTableOutside(HeaderLines(stamp));
    BannerNoTable("CLUSTERS");
    NoTableOutside(Banner("CLUSTERS"));
    BannerNoTable("ALERTS");
    NoTableOutside(Banner("ALERTS"));
    BannerNoTable("DASHBOARD");
    NoTableOutside(Banner("DASHBOARD"));
    BannerNoTable("ML PREDICTION");
    NoTableOutside(Banner("ML PREDICTION"));
    ClustersTables(cs);
    NoTableOutside(ClustersLines(cs));
    GeneralTables(a.dataDir);
    DatabaseTables();
    CollectorsTables(cs);
    DiskTables(FsList(cs));
    SlurmTables(PartList(cs));
    GpuTables(cs);
    NfsTables(cs);
    AlertsTables();
    InteractiveTables(cs);
    EmailTables(a.adminEmail);
    DashboardTables(a.dashPort);
    MlTables();
    TablesChain(HeaderLines(stamp), GeneralLines(a.dataDir), DatabaseLines(), CollectorLines(cs), DiskLines(FsList(cs)),
      SlurmLines(PartList(cs)), GpuLines(cs), NfsLines(cs), Banner("CLUSTERS"), ClustersLines(cs), Banner("ALERTS"),
      AlertLines(), InteractiveAlertLines(cs), EmailLines(a.adminEmail), Banner("DASHBOARD"), DashboardLines(a.dashPort),
      Banner("ML PREDICTION"), MlLines(),
      ["[general]"], ["[database]"], ["[collectors]"], ["[collectors.disk]"], Optional(PartList(cs) != [], ["[collectors.slurm]"]),
      Optional(AnyGpu(cs), ["[collectors.gpu]"]), Optional(AnyNfs(cs), ["[collectors.nfs]"]),
      ["[alerts]", "[alerts.thresholds.disk]"], Optional(AnyInteractive(cs), ["[alerts.thresholds.interactive]"]),
      Optional(a.adminEmail != "", ["[alerts.email]"]), ["[dashboard]"], ["[ml]"]);
  }

  /** Apart from the cluster tables, a table is in the file exactly when it is in `FileTables`. */
  lemma TableInFile(a: Answers, stamp: string, h: string)
    requires Heading(h) && !ClusterHeading(h)
    ensures h in ConfigLines(a, stamp) <==> h in FileTables(a)
  {
    TablesOfFile(a, stamp);
  }

  lemma SlurmInTables(a: Answers)
    ensures "[collectors.slurm]" in FileTables(a) <==> PartList(a.clusters) != []
  {
  }

  /** `[collectors.slurm]` is written exactly when some HPC cluster has a partition. */
  lemma SlurmTable(a: Answers, stamp: string)
    ensures "[collectors.slurm]" in ConfigLines(a, stamp) <==> PartList(a.clusters) != []
  {
    TableInFile(a, stamp, "[collectors.slurm]");
    SlurmInTables(a);
  }

  lemma GpuInTables(a: Answers)
    ensures "[collectors.gpu]" in FileTables(a) <==> AnyGpu(a.clusters)
  {
    assert "[collectors.gpu]"[12] != "[collectors.nfs]"[12];
  }

  /** `[collectors.gpu]` is written exactly when some cluster has GPUs. */
  lemma GpuTable(a: Answers, stamp: string)
    ensures "[collectors.gpu]" in ConfigLines(a, stamp) <==> AnyGpu(a.clusters)
  {
    TableInFile(a, stamp, "[collectors.gpu]");
    GpuInTables(a);
  }

  lemma NfsInTables(a: Answers)
    ensures "[collectors.nfs]" in FileTables(a) <==> AnyNfs(a.clusters)
  {
    assert "[collectors.gpu]"[12] != "[collectors.nfs]"[12];
  }

  /** `[collectors.nfs]` is written exactly when some cluster uses NFS. */
  lemma NfsTable(a: Answers, stamp: string)
    ensures "[collectors.nfs]" in ConfigLines(a, stamp) <==> AnyNfs(a.clusters)
  {
    TableInFile(a, stamp, "[collectors.nfs]");
    NfsInTables(a);
  }

  lemma InteractiveThresholdsInTables(a: Answers)
    ensures "[alerts.thresholds.interactive]" in FileTables(a) <==> AnyInteractive(a.clusters)
  {
  }

  /** `[alerts.thresholds.interactive]` is written exactly when some cluster monitors interactive sessions. */
  lemma InteractiveThresholdsTable(a: Answers, stamp: string)
    ensures "[alerts.thresholds.interactive]" in ConfigLines(a, stamp) <==> AnyInteractive(a.clusters)
  {
    TableInFile(a, stamp, "[alerts.thresholds.interactive]");
    InteractiveThresholdsInTables(a);
  }

  lemma EmailInTables(a: Answers)
    ensures "[alerts.email]" in FileTables(a) <==> a.adminEmail != ""
  {
  }

  /** `[alerts.email]` is written exactly when an admin address was given. */
  lemma EmailTable(a: Answers, stamp: string)
    ensures "[alerts.email]" in ConfigLines(a, stamp) <==> a.adminEmail != ""
  {
    TableInFile(a, stamp, "[alerts.email]");
    EmailInTables(a);
  }

  /** The text splits back into the lines when no line holds a newline. */
  lemma ConfigTextLines(a: Answers, stamp: string)
    requires forall k :: 0 <= k < |ConfigLines(a, stamp)| ==> '\n' !in ConfigLines(a, stamp)[k]
    ensures Lines(ConfigText(a, stamp)) == ConfigLines(a, stamp)
  {
    SplitJoin(ConfigLines(a, stamp), '\n');
  }

  // ---------------------------------------------------------------
  // Resuming the wizard
  // ---------------------------------------------------------------

  /** The clusters after step 3: those saved, then one configured for each remaining index. */
  function Resumed(saved: seq<Cluster>, numClusters: int, configure: int -> Cluster): seq<Cluster>
  {
    saved + seq(if numClusters > |saved| then numClusters - |saved| else 0, j => configure(|saved| + j))
  }

  /** `for i in range(len(clusters), num_clusters)`: configure the clusters not yet saved. */
  method ConfigureRemaining(saved: seq<Cluster>, numClusters: int, configure: int -> Cluster) returns (clusters: seq<Cluster>)
    ensures clusters == Resumed(saved, numClusters, configure)
  {
    clusters := saved;
    var i := |saved|;
    while i < numClusters
      invariant |saved| <= i
      invariant i <= numClusters || i == |saved|
      invariant clusters == saved + seq(i - |saved|, j => configure(|saved| + j))
    {
      clusters := clusters + [configure(i)];
      i := i + 1;
    }
  }

  /**
   * An interrupted run resumed from any saved prefix ends with the same
   * clusters as an uninterrupted one.
   */
  lemma ResumeAgrees(numClusters: int, configure: int -> Cluster, k: nat)
    requires numClusters >= 0 && k <= numClusters
    ensures Resumed(Resumed([], numClusters, configure)[..k], numClusters, configure) == Resumed([], numClusters, configure)
  {
    var full := Resumed([], numClusters, configure);
    var again := Resumed(full[..k], numClusters, configure);
    assert |again| == |full|;
    forall j | 0 <= j < |full| ensures again[j] == full[j] {
      if j >= k {
        assert again[j] == configure(j);
      }
    }
  }
}
