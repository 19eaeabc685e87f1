/**
 * `contiker init`: cloning Contiki-NG with git. The clone is the one process
 * spawned; its fate comes from `Process.World`, and the number of parallel
 * submodule jobs (the CPU count) is a parameter.
 */
module ContikerInit {
  import opened Wrappers
  import opened Text
  import P = Process

  /** Where to clone, from where, which branch, and whether shallowly. */
  datatype GitManager = GitManager(volume: string, url: string, branch: Option<string>, shallow: bool)

  const DefaultVolume := "."
  const DefaultUrl := "https://github.com/contiki-ng/contiki-ng.git"

  /** `GitManager::new`: the current directory and the upstream repository unless given. */
  function New(volume: Option<string>, url: Option<string>, branch: Option<string>, shallow: bool): (g: GitManager)
    ensures volume.Some? ==> g.volume == volume.value
    ensures volume.None? ==> g.volume == DefaultVolume
    ensures url.Some? ==> g.url == url.value
    ensures url.None? ==> g.url == DefaultUrl
    ensures g.branch == branch && g.shallow == shallow
  {
    GitManager(volume.GetOr(DefaultVolume), url.GetOr(DefaultUrl), branch, shallow)
  }

  /** The flags of a shallow clone. */
  function ShallowFlags(shallow: bool): seq<string> {
    if shallow then ["--shallow-submodules", "--depth", "1"] else []
  }

  /** The flags selecting a branch. */
  function BranchFlags(branch: Option<string>): seq<string> {
    match branch
    case Some(b) => ["--branch", b]
    case None => []
  }

  /** The jobs flag, `-j<N>`. */
  function JobsFlag(numCpus: nat): string {
    "-j" + NatToString(numCpus)
  }

  /** The argv `install` spawns. */
  function CloneArgv(g: GitManager, numCpus: nat): (argv: P.Argv)
    ensures |argv| == 6 + (if g.shallow then 3 else 0) + (if g.branch.Some? then 2 else 0)
    ensures argv[..4] == ["git", "clone", "--recurse-submodules", JobsFlag(numCpus)]
    ensures argv[|argv| - 2..] == [g.url, g.volume]
  {
    ["git", "clone", "--recurse-submodules", JobsFlag(numCpus)]
      + ShallowFlags(g.shallow) + BranchFlags(g.branch) + [g.url, g.volume]
  }

  /**
   * The shallow flags come right after the jobs flag when set and are absent
   * otherwise; the branch flags follow them.
   */
  lemma FlagOrder(g: GitManager, numCpus: nat)
    ensures g.shallow ==> CloneArgv(g, numCpus)[4..7] == ["--shallow-submodules", "--depth", "1"]
    ensures g.branch.Some? ==>
      var at := if g.shallow then 7 else 4;
      CloneArgv(g, numCpus)[at..at + 2] == ["--branch", g.branch.value]
    ensures !g.shallow ==> CloneArgv(g, numCpus)[4..|CloneArgv(g, numCpus)| - 2] == BranchFlags(g.branch)
  {
    var argv := CloneArgv(g, numCpus);
    var middle := ShallowFlags(g.shallow) + BranchFlags(g.branch);
    assert argv == ["git", "clone", "--recurse-submodules", JobsFlag(numCpus)] + middle + [g.url, g.volume];
    assert argv[4..|argv| - 2] == middle;
    if g.branch.Some? {
      var at := if g.shallow then 7 else 4;
      assert argv[at..at + 2] == middle[at - 4..at - 2];
    }
  }

  /** Reads the jobs flag back. */
  function DecodeJobs(flag: string): Option<nat> {
    if |flag| >= 2 && flag[..2] == "-j" then ParseNat(flag[2..]) else None
  }

  /** Reads a clone argv back: the jobs count and the manager that would spawn it. */
  function DecodeClone(argv: P.Argv): Option<(nat, GitManager)> {
    if |argv| < 6 || argv[..3] != ["git", "clone", "--recurse-submodules"] then None
    else
      match DecodeJobs(argv[3])
      case None => None
      case Some(n) =>
        var middle := argv[4..|argv| - 2];
        var url, volume := argv[|argv| - 2], argv[|argv| - 1];
        if middle == [] then Some((n, GitManager(volume, url, None, false)))
        else if middle == ShallowFlags(true) then Some((n, GitManager(volume, url, None, true)))
        else if |middle| == 2 && middle[0] == "--branch" then Some((n, GitManager(volume, url, Some(middle[1]), false)))
        else if |middle| == 5 && middle[..3] == ShallowFlags(true) && middle[3] == "--branch"
        then Some((n, GitManager(volume, url, Some(middle[4]), true)))
        else None
  }

  /** The argv determines the clone: reading it back gives the manager and the jobs count. */
  lemma DecodeCloneArgv(g: GitManager, numCpus: nat)
    ensures DecodeClone(CloneArgv(g, numCpus)) == Some((numCpus, g))
  {
    var argv := CloneArgv(g, numCpus);
    var middle := ShallowFlags(g.shallow) + BranchFlags(g.branch);
    assert argv == ["git", "clone", "--recurse-submodules", JobsFlag(numCpus)] + middle + [g.url, g.volume];
    assert argv[..3] == ["git", "clone", "--recurse-submodules"];
    assert argv[4..|argv| - 2] == middle;
    var flag := JobsFlag(numCpus);
    assert flag[..2] == "-j" && flag[2..] == NatToString(numCpus);
    ParseNatToString(numCpus);
    if g.shallow && g.branch.Some? {
      assert middle[..3] == ShallowFlags(true);
    }
  }

  /** With every default, the clone is of upstream into the current directory. */
  lemma DefaultClone(numCpus: nat)
    ensures CloneArgv(New(None, None, None, false), numCpus) ==
      ["git", "clone", "--recurse-submodules", JobsFlag(numCpus),
       "https://github.com/contiki-ng/contiki-ng.git", "."]
  {
  }

  /**
   * `install`: builds the argv one argument at a time, spawns it and reports
   * a clone that did not start, or did not exit with 0, as an error.
   */
  method Install(g: GitManager, numCpus: nat, w: P.World) returns (argv: P.Argv, r: Result<(), string>)
    ensures argv == CloneArgv(g, numCpus)
    ensures w.status(argv) == P.NotStarted ==> r == Err("while cloning repository")
    ensures w.status(argv) == P.Exited(0) ==> r == Ok(())
    ensures w.status(argv) != P.NotStarted && w.status(argv) != P.Exited(0) ==>
      r == Err("[ERROR] Unsuccesful status code after clone")
  {
    argv := ["git"];
    argv := argv + ["clone"];
    argv := argv + ["--recurse-submodules"];
    argv := argv + [JobsFlag(numCpus)];
    ghost var prefix := argv;
    if g.shallow {
      argv := argv + ["--shallow-submodules"];
      argv := argv + ["--depth"];
      argv := argv + ["1"];
    }
    assert argv == prefix + ShallowFlags(g.shallow);
    if g.branch.Some? {
      argv := argv + ["--branch"];
      argv := argv + [g.branch.value];
    }
    assert argv == prefix + ShallowFlags(g.shallow) + BranchFlags(g.branch);
    argv := argv + [g.url];
    argv := argv + [g.volume];
    assert argv == prefix + ShallowFlags(g.shallow) + BranchFlags(g.branch) + [g.url, g.volume];
    var status := w.status(argv);
    if status.NotStarted? {
      return argv, Err("while cloning repository");
    }
    if status != P.Exited(0) {
      return argv, Err("[ERROR] Unsuccesful status code after clone");
    }
    return argv, Ok(());
  }
}
