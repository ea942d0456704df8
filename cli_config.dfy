// The configuration lookups and the collector selection of nomade/cli.py:
// `resolve_config_path`, `get_db_path`, and the choice of collectors in
// the `collect` command.
//
// The file system is not modelled: whether a path exists is a parameter,
// the home directory is a parameter, and the TOML file is given already
// parsed, as the few entries the command reads.
module CliConfig {
  import opened Wrappers
  import opened Text
  import Assoc

  // ---------------------------------------------------------------
  // Paths
  // ---------------------------------------------------------------

  function UserConfigPath(home: string): string
  {
    home + "/.config/nomade/nomade.toml"
  }

  function SystemConfigPath(): string
  {
    "/etc/nomade/nomade.toml"
  }

  /**
   * `resolve_config_path`: the user's configuration when it exists, else the
   * system one when that exists, else the user's path all the same.
   */
  function ResolveConfigPath(home: string, present: string -> bool): (p: string)
    ensures present(UserConfigPath(home)) ==> p == UserConfigPath(home)
    ensures !present(UserConfigPath(home)) && present(SystemConfigPath()) ==> p == SystemConfigPath()
    ensures !present(UserConfigPath(home)) && !present(SystemConfigPath()) ==> p == UserConfigPath(home)
  {
    if present(UserConfigPath(home)) then UserConfigPath(home)
    else if present(SystemConfigPath()) then SystemConfigPath()
    else UserConfigPath(home)
  }

  /** The path chosen exists exactly when one of the two candidates exists, and it is one of them. */
  lemma ResolvedExists(home: string, present: string -> bool)
    ensures present(ResolveConfigPath(home, present)) <==> present(UserConfigPath(home)) || present(SystemConfigPath())
    ensures ResolveConfigPath(home, present) in {UserConfigPath(home), SystemConfigPath()}
  {
  }

  /** `Path(dir) / name` for a name without a slash; other normalisations of `pathlib` are not modelled. */
  function JoinPath(dir: string, name: string): (p: string)
  {
    if |dir| == 0 then name
    else if dir[|dir| - 1] == '/' then dir + name
    else dir + "/" + name
  }

  lemma JoinPathParts(dir: string, name: string)
    ensures |dir| > 0 ==> JoinPath(dir, name) == RStripOneSlash(dir) + "/" + name
  {
    if |dir| > 0 && dir[|dir| - 1] == '/' {
      assert dir == dir[..|dir| - 1] + "/";
    }
  }

  function RStripOneSlash(dir: string): string
  {
    if |dir| > 0 && dir[|dir| - 1] == '/' then dir[..|dir| - 1] else dir
  }

  function DefaultDataDir(home: string): string
  {
    home + "/.local/share/nomade"
  }

  function DbFile(): string
  {
    "nomade.db"
  }

  /** The entries of the configuration that the `collect` command reads. */
  datatype Section = Section(enabled: Option<bool>, clusterName: Option<string>)

  const EmptySection: Section := Section(None, None)

  datatype Config = Config(
    dataDir: Option<string>,
    collectors: seq<(string, Section)>,
    interactive: Option<Section>,
    clusterName: Option<string>)

  /** `get_db_path`: `nomade.db` in `general.data_dir`, or in the default data directory. */
  function GetDbPath(config: Config, home: string): string
  {
    JoinPath(config.dataDir.GetOr(DefaultDataDir(home)), DbFile())
  }

  /** The database sits in the configured data directory, or in the default one when none is configured. */
  lemma DbPathInDataDir(config: Config, home: string)
    ensures config.dataDir.None? ==> GetDbPath(config, home) == home + "/.local/share/nomade/nomade.db"
    ensures config.dataDir.Some? && config.dataDir.value != "" ==>
      GetDbPath(config, home) == RStripOneSlash(config.dataDir.value) + "/" + DbFile()
  {
    JoinPathParts(config.dataDir.GetOr(DefaultDataDir(home)), DbFile());
  }

  /** The `collect` command's database: `--db` when given, else `get_db_path`. */
  function CollectDbPath(db: Option<string>, config: Config, home: string): string
  {
    if Truthy(db) then db.value else GetDbPath(config, home)
  }

  // ---------------------------------------------------------------
  // Collector selection in `collect`
  // ---------------------------------------------------------------

  datatype Kind = Disk | Slurm | JobMetrics | IOStat | MPStat | VMStat | NodeState | Gpu | Nfs | Groups | Interactive

  function Name(k: Kind): string
  {
    match k
    case Disk => "disk"
    case Slurm => "slurm"
    case JobMetrics => "job_metrics"
    case IOStat => "iostat"
    case MPStat => "mpstat"
    case VMStat => "vmstat"
    case NodeState => "node_state"
    case Gpu => "gpu"
    case Nfs => "nfs"
    case Groups => "groups"
    case Interactive => "interactive"
  }

  /** The order in which `collect` considers the collectors. */
  function Order(): seq<Kind>
  {
    [Disk, Slurm, JobMetrics, IOStat, MPStat, VMStat, NodeState, Gpu, Nfs, Groups, Interactive]
  }

  function Rank(k: Kind): nat
  {
    match k
    case Disk => 0
    case Slurm => 1
    case JobMetrics => 2
    case IOStat => 3
    case MPStat => 4
    case VMStat => 5
    case NodeState => 6
    case Gpu => 7
    case Nfs => 8
    case Groups => 9
    case Interactive => 10
  }

  /**
   * The section a collector reads: `collectors.<name>`, except that the
   * interactive collector reads the top-level `interactive` section.
   */
  function SectionOf(config: Config, k: Kind): Section
  {
    if k == Interactive then config.interactive.GetOr(EmptySection)
    else Assoc.Get(config.collectors, Name(k)).GetOr(EmptySection)
  }

  /** `enabled` defaults to true, and to false for the interactive collector. */
  predicate Enabled(config: Config, k: Kind)
  {
    SectionOf(config, k).enabled.GetOr(k != Interactive)
  }

  /** `not collector or name in collector`: no `-C` option, or one that names the collector. */
  predicate Wanted(filter: seq<string>, k: Kind)
  {
    |filter| == 0 || Name(k) in filter
  }

  predicate Runs(config: Config, filter: seq<string>, k: Kind)
  {
    Wanted(filter, k) && Enabled(config, k)
  }

  function Chosen(config: Config, filter: seq<string>, k: Kind): seq<Kind>
  {
    if Runs(config, filter, k) then [k] else []
  }

  /** The collectors of `ks` that run, in the same order. */
  function SelectFrom(config: Config, filter: seq<string>, ks: seq<Kind>): seq<Kind>
  {
    if |ks| == 0 then []
    else SelectFrom(config, filter, ks[..|ks| - 1]) + Chosen(config, filter, ks[|ks| - 1])
  }

  /** The collectors `collect` starts; None when it raises "No collectors enabled". */
  function Selection(config: Config, filter: seq<string>): Option<seq<Kind>>
  {
    var s := SelectFrom(config, filter, Order());
    if s == [] then None else Some(s)
  }

  /** Append a collector when it is wanted and enabled: one of the blocks of `collect`. */
  method Consider(collectors: seq<Kind>, config: Config, filter: seq<string>, k: Kind) returns (r: seq<Kind>)
    ensures r == collectors + Chosen(config, filter, k)
  {
    r := collectors;
    if |filter| == 0 || Name(k) in filter {
      var enabled := SectionOf(config, k).enabled.GetOr(k != Interactive);
      if enabled {
        r := r + [k];
      }
    }
  }

  method SelectCollectors(config: Config, filter: seq<string>) returns (r: Option<seq<Kind>>)
    ensures r == Selection(config, filter)
  {
    var collectors: seq<Kind> := [];
    collectors := Consider(collectors, config, filter, Disk);
    collectors := Consider(collectors, config, filter, Slurm);
    collectors := Consider(collectors, config, filter, JobMetrics);
    collectors := Consider(collectors, config, filter, IOStat);
    collectors := Consider(collectors, config, filter, MPStat);
    collectors := Consider(collectors, config, filter, VMStat);
    collectors := Consider(collectors, config, filter, NodeState);
    collectors := Consider(collectors, config, filter, Gpu);
    collectors := Consider(collectors, config, filter, Nfs);
    collectors := Consider(collectors, config, filter, Groups);
    collectors := Consider(collectors, config, filter, Interactive);
    SelectOrder(config, filter);
    if collectors == [] {
      return None;
    }
    return Some(collectors);
  }

  /** The selection unrolled in the order of `collect`. */
  lemma SelectOrder(config: Config, filter: seq<string>)
    ensures SelectFrom(config, filter, Order())
         == [] + Chosen(config, filter, Disk) + Chosen(config, filter, Slurm) + Chosen(config, filter, JobMetrics)
          + Chosen(config, filter, IOStat) + Chosen(config, filter, MPStat) + Chosen(config, filter, VMStat)
          + Chosen(config, filter, NodeState) + Chosen(config, filter, Gpu) + Chosen(config, filter, Nfs)
          + Chosen(config, filter, Groups) + Chosen(config, filter, Interactive)
  {
    var ks: seq<Kind> := [];
    SelectStep(config, filter, ks, Disk);
    ks := ks + [Disk];
    SelectStep(config, filter, ks, Slurm);
    ks := ks + [Slurm];
    SelectStep(config, filter, ks, JobMetrics);
    ks := ks + [JobMetrics];
    SelectStep(config, filter, ks, IOStat);
    ks := ks + [IOStat];
    SelectStep(config, filter, ks, MPStat);
    ks := ks + [MPStat];
    SelectStep(config, filter, ks, VMStat);
    ks := ks + [VMStat];
    SelectStep(config, filter, ks, NodeState);
    ks := ks + [NodeState];
    SelectStep(config, filter, ks, Gpu);
    ks := ks + [Gpu];
    SelectStep(config, filter, ks, Nfs);
    ks := ks + [Nfs];
    SelectStep(config, filter, ks, Groups);
    ks := ks + [Groups];
    SelectStep(config, filter, ks, Interactive);
    ks := ks + [Interactive];
    assert ks == Order();
  }

  lemma SelectStep(config: Config, filter: seq<string>, ks: seq<Kind>, k: Kind)
    ensures SelectFrom(config, filter, ks + [k]) == SelectFrom(config, filter, ks) + Chosen(config, filter, k)
  {
    assert (ks + [k])[..|ks|] == ks;
  }

  /** A collector is selected exactly when it is wanted and enabled. */
  lemma {:induction false} SelectMembers(config: Config, filter: seq<string>, ks: seq<Kind>)
    ensures forall k :: k in SelectFrom(config, filter, ks) <==> k in ks && Runs(config, filter, k)
  {
    if |ks| > 0 {
      var init := ks[..|ks| - 1];
      SelectMembers(config, filter, init);
      assert ks == init + [ks[|ks| - 1]];
    }
  }

  predicate InOrder(ks: seq<Kind>)
  {
    forall i, j :: 0 <= i < j < |ks| ==> Rank(ks[i]) < Rank(ks[j])
  }

  /** Selecting keeps the order of the candidates, so every collector appears at most once. */
  lemma {:induction false} SelectKeepsOrder(config: Config, filter: seq<string>, ks: seq<Kind>)
    requires InOrder(ks)
    ensures InOrder(SelectFrom(config, filter, ks))
  {
    if |ks| > 0 {
      var init, last := ks[..|ks| - 1], ks[|ks| - 1];
      assert InOrder(init) by {
        forall i, j | 0 <= i < j < |init| ensures Rank(init[i]) < Rank(init[j]) {
          assert init[i] == ks[i] && init[j] == ks[j];
        }
      }
      SelectKeepsOrder(config, filter, init);
      SelectMembers(config, filter, init);
      var rest := SelectFrom(config, filter, init);
      forall k | k in rest
        ensures Rank(k) < Rank(last)
      {
        var m :| 0 <= m < |init| && init[m] == k;
        assert ks[m] == k;
      }
      var r := rest + Chosen(config, filter, last);
      forall i, j | 0 <= i < j < |r|
        ensures Rank(r[i]) < Rank(r[j])
      {
        if j < |rest| {
          assert r[i] == rest[i] && r[j] == rest[j];
        } else {
          assert r[i] == rest[i] && r[i] in rest;
        }
      }
    }
  }

  lemma OrderInOrder()
    ensures InOrder(Order())
  {
  }

  /**
   * `collect` starts, in the fixed order, exactly the collectors that are
   * wanted and enabled, and raises when there is none.
   */
  lemma SelectionSpec(config: Config, filter: seq<string>)
    ensures Selection(config, filter).None? <==> forall k :: !Runs(config, filter, k)
    ensures Selection(config, filter).Some? ==>
      InOrder(Selection(config, filter).value) &&
      forall k :: k in Selection(config, filter).value <==> Runs(config, filter, k)
  {
    SelectMembers(config, filter, Order());
    OrderInOrder();
    SelectKeepsOrder(config, filter, Order());
    forall k
      ensures k in Order()
    {
      assert Order()[Rank(k)] == k;
    }
    if Selection(config, filter).Some? {
      var k := Selection(config, filter).value[0];
      assert Runs(config, filter, k);
    }
  }

  /** With an empty configuration and no `-C`, every collector but the interactive one runs. */
  lemma DefaultSelection(config: Config)
    requires config.collectors == [] && config.interactive.None?
    ensures Selection(config, []) == Some([Disk, Slurm, JobMetrics, IOStat, MPStat, VMStat, NodeState, Gpu, Nfs, Groups])
  {
    SelectOrder(config, []);
    assert Chosen(config, [], Interactive) == [];
    assert Chosen(config, [], Disk) == [Disk];
    assert Chosen(config, [], Slurm) == [Slurm];
    assert Chosen(config, [], JobMetrics) == [JobMetrics];
    assert Chosen(config, [], IOStat) == [IOStat];
    assert Chosen(config, [], MPStat) == [MPStat];
    assert Chosen(config, [], VMStat) == [VMStat];
    assert Chosen(config, [], NodeState) == [NodeState];
    assert Chosen(config, [], Gpu) == [Gpu];
    assert Chosen(config, [], Nfs) == [Nfs];
    assert Chosen(config, [], Groups) == [Groups];
    assert SelectFrom(config, [], Order())
        == [] + [Disk] + [Slurm] + [JobMetrics] + [IOStat] + [MPStat] + [VMStat] + [NodeState] + [Gpu] + [Nfs] + [Groups] + [];
    var all: seq<Kind> := [Disk, Slurm, JobMetrics, IOStat, MPStat, VMStat, NodeState, Gpu, Nfs, Groups];
    assert [] + [Disk] + [Slurm] + [JobMetrics] + [IOStat] + [MPStat] + [VMStat] + [NodeState] + [Gpu] + [Nfs] + [Groups] + [] == all;
  }

  /** `-C interactive` with the interactive section absent raises: that collector is off by default. */
  lemma InteractiveOffByDefault(config: Config)
    requires config.interactive.None?
    ensures Selection(config, ["interactive"]).None?
  {
    SelectOrder(config, ["interactive"]);
  }

  /** The node-state collector's cluster name: its own, else the top-level `cluster_name`, else "default". */
  function NodeStateCluster(config: Config): string
  {
    SectionOf(config, NodeState).clusterName.GetOr(config.clusterName.GetOr("default"))
  }

  lemma NodeStateClusterDefault(config: Config)
    requires SectionOf(config, NodeState).clusterName.None? && config.clusterName.None?
    ensures NodeStateCluster(config) == "default"
  {
  }
}
