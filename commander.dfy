/**
 * A command to make available: the program probed for, its package plan and
 * the context it is checked and installed in. `EnsureInstalled` checks, then
 * installs through a package manager when the program is missing.
 */
module Commander {
  import opened Wrappers
  import opened Process
  import opened CommandContext
  import opened PkgManager
  import ArchLinux
  import Ubuntu
  import Windows
  import MacOS

  datatype Command = Command(program: Plan, command: string, context: Context)

  /** The package managers `EnsureInstalled` can be handed. */
  datatype Manager = ArchLinuxManager | UbuntuManager | WindowsManager | MacOSManager

  /**
   * `manager.Install(context, program)`: Arch and Ubuntu use the context they
   * are given; Windows and macOS ignore it and use the host.
   */
  function ManagerInstall(m: Manager, ctx: Context, w: World, plan: Plan): Step<Outcome> {
    match m
    case ArchLinuxManager => ArchLinux.Install(ctx, w, plan)
    case UbuntuManager => Ubuntu.Install(ctx, w, plan)
    case WindowsManager => Windows.Install(w, plan)
    case MacOSManager => MacOS.Install(w, plan)
  }

  /** The context's answer when the lookup succeeds; false when it reports an error. */
  function Exists(cmd: Command, w: World): (r: Step<bool>)
    ensures r.value <==> CommandExists(cmd.context, w, cmd.command).value == Ok(true)
    ensures CommandExists(cmd.context, w, cmd.command).value.Err? ==> !r.value
    ensures r.trace == Probes(cmd.context, cmd.command)
  {
    var probe := CommandExists(cmd.context, w, cmd.command);
    match probe.value
    case Err(_) => Step(false, probe.trace)
    case Ok(found) => Step(found, probe.trace)
  }

  /** Nothing to do when the command exists; otherwise exactly one install, its result returned verbatim. */
  function EnsureInstalled(cmd: Command, m: Manager, w: World): (r: Step<Outcome>)
    ensures Exists(cmd, w).value ==> r == Step(Ok(()), Probes(cmd.context, cmd.command))
    ensures !Exists(cmd, w).value ==>
      r.value == ManagerInstall(m, cmd.context, w, cmd.program).value &&
      r.trace == Probes(cmd.context, cmd.command) + ManagerInstall(m, cmd.context, w, cmd.program).trace
  {
    var found := Exists(cmd, w);
    if found.value then Step(Ok(()), found.trace)
    else
      var install := ManagerInstall(m, cmd.context, w, cmd.program);
      Step(install.value, found.trace + install.trace)
  }

  /** `n` successive calls of `EnsureInstalled`: their results, and everything they spawned. */
  function EnsureInstalledTimes(cmd: Command, m: Manager, w: World, n: nat): (r: Step<seq<Outcome>>)
    ensures |r.value| == n
  {
    if n == 0 then Step([], [])
    else
      var first := EnsureInstalled(cmd, m, w);
      var rest := EnsureInstalledTimes(cmd, m, w, n - 1);
      Step([first.value] + rest.value, first.trace + rest.trace)
  }

  /**
   * Idempotence: while the command exists, any number of calls all succeed and
   * spawn nothing but existence probes, so no package manager is ever run.
   */
  lemma {:induction false} Idempotent(cmd: Command, m: Manager, w: World, n: nat)
    requires Exists(cmd, w).value
    ensures forall i :: 0 <= i < n ==> EnsureInstalledTimes(cmd, m, w, n).value[i] == Ok(())
    ensures forall a :: a in EnsureInstalledTimes(cmd, m, w, n).trace ==> a in Probes(cmd.context, cmd.command)
  {
    if n > 0 {
      Idempotent(cmd, m, w, n - 1);
      var rest := EnsureInstalledTimes(cmd, m, w, n - 1);
      assert EnsureInstalledTimes(cmd, m, w, n).value == [Ok(())] + rest.value;
    }
  }

  /**
   * A command missing from a container is installed: the `which` probe exiting
   * with 1 makes `Exists` false, and `EnsureInstalled` goes on to the manager.
   */
  lemma ContainerScenario(w: World, plan: Plan, m: Manager)
    requires w.status(["docker", "exec", "-it", "build-env", "which", "gcc"]) == Exited(1)
    ensures !Exists(Command(plan, "gcc", Docker("build-env")), w).value
    ensures EnsureInstalled(Command(plan, "gcc", Docker("build-env")), m, w).value ==
      ManagerInstall(m, Docker("build-env"), w, plan).value
  {
  }
}
