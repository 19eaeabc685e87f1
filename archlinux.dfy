/**
 * The Arch Linux package manager (pacman), driven through a command context.
 */
module ArchLinux {
  import opened Wrappers
  import opened Process
  import opened CommandContext
  import opened PkgManager

  /** Available iff the context finds `pacman`; a lookup error counts as unavailable. */
  function CheckAvailable(ctx: Context, w: World): (r: Step<bool>)
    ensures r.value <==> CommandExists(ctx, w, "pacman").value == Ok(true)
    ensures r.trace == Probes(ctx, "pacman")
  {
    var probe := CommandExists(ctx, w, "pacman");
    match probe.value
    case Err(_) => Step(false, probe.trace)
    case Ok(status) => Step(status, probe.trace)
  }

  /** pacman ships with the system: nothing is installed, nothing fails. */
  function InstallManager(): (r: ManagerReport)
    ensures !r.0 && r.1.None?
  {
    (false, None)
  }

  /** `pacman -Sy` refreshes the index on every install, so there is nothing to do. */
  function UpdateRegistry(ctx: Context, w: World): (r: Step<Outcome>)
    ensures r.value.Ok? && r.trace == []
  {
    Step(Ok(()), [])
  }

  /** The arguments given to `sudo` to install `pkgName`. */
  function InstallArgs(pkgName: string): seq<string> {
    ["pacman", "-Sy", pkgName, "--noconfirm"]
  }

  /**
   * `Install(ctx, plan)` as written: the plan test is `if ok`, so a plan that
   * names the package for Arch Linux is refused, and one that does not
   * installs the zero value "".
   */
  function Install(ctx: Context, w: World, plan: Plan): (r: Step<Outcome>)
    ensures !CheckAvailable(ctx, w).value ==>
      r == Step(Err(Unavailable("pacman")), Probes(ctx, "pacman"))
    ensures CheckAvailable(ctx, w).value && Code(ArchLinux) in plan ==>
      r == Step(Err(NotSpecified("Arch Linux")), Probes(ctx, "pacman"))
    ensures CheckAvailable(ctx, w).value && Code(ArchLinux) !in plan ==>
      r.trace == Probes(ctx, "pacman") + [Invocation(ctx, "sudo", InstallArgs(""))] &&
      r.value == Run(ctx, w, "sudo", InstallArgs("")).value
  {
    var available := CheckAvailable(ctx, w);
    if !available.value then Step(Err(Unavailable("pacman")), available.trace)
    else
      var (pkgName, ok) := Lookup(plan, ArchLinux);
      if ok then Step(Err(NotSpecified("Arch Linux")), available.trace)
      else
        var run := Run(ctx, w, "sudo", InstallArgs(pkgName));
        Step(run.value, available.trace + run.trace)
  }

  /** The defect: a plan that names the Arch package never reaches `Run`. */
  lemma PlanWithKeyNeverRuns(ctx: Context, w: World, plan: Plan)
    requires Code(ArchLinux) in plan
    ensures Install(ctx, w, plan).value.Err?
    ensures Install(ctx, w, plan).trace == Probes(ctx, "pacman")
  {
  }

  /** Whatever the plan, the only package `Install` can ever ask pacman for is "". */
  lemma OnlyEmptyNameInstalled(ctx: Context, w: World, plan: Plan, name: string)
    requires Invocation(ctx, "sudo", InstallArgs(name)) in Install(ctx, w, plan).trace
    ensures name == ""
  {
    var t := Install(ctx, w, plan).trace;
    var i :| 0 <= i < |t| && t[i] == Invocation(ctx, "sudo", InstallArgs(name));
    assert |t| > |Probes(ctx, "pacman")|;
    InvocationInjective(ctx, "sudo", InstallArgs(name), "sudo", InstallArgs(""));
    assert InstallArgs(name)[2] == name;
  }

  /**
   * `Install` depends on the context only through the availability answer and
   * the exit status of the install command: host and container succeed and fail
   * alike, and a failed install reports the same status (only the argv in the
   * error differs).
   */
  lemma ContextAgnostic(c1: Context, w1: World, c2: Context, w2: World, plan: Plan)
    requires CheckAvailable(c1, w1).value == CheckAvailable(c2, w2).value
    requires w1.status(Invocation(c1, "sudo", InstallArgs(""))) == w2.status(Invocation(c2, "sudo", InstallArgs("")))
    ensures var r1, r2 := Install(c1, w1, plan).value, Install(c2, w2, plan).value;
      (r1.Ok? <==> r2.Ok?) &&
      (r1.Err? ==> r1.error.ExecFailed? == r2.error.ExecFailed?) &&
      (r1.Err? && r1.error.ExecFailed? ==> r1.error.status == r2.error.status) &&
      (r1.Err? && !r1.error.ExecFailed? ==> r1.error == r2.error)
  {
  }

  /** Install as intended: the package the plan names for Arch Linux, an error when there is none. */
  function InstallIntended(ctx: Context, w: World, plan: Plan): (r: Step<Outcome>)
    ensures !CheckAvailable(ctx, w).value ==>
      r == Step(Err(Unavailable("pacman")), Probes(ctx, "pacman"))
    ensures CheckAvailable(ctx, w).value && Code(ArchLinux) !in plan ==>
      r == Step(Err(NotSpecified("Arch Linux")), Probes(ctx, "pacman"))
    ensures CheckAvailable(ctx, w).value && Code(ArchLinux) in plan ==>
      r.trace == Probes(ctx, "pacman") + [Invocation(ctx, "sudo", InstallArgs(plan[Code(ArchLinux)]))] &&
      r.value == Run(ctx, w, "sudo", InstallArgs(plan[Code(ArchLinux)])).value
  {
    var available := CheckAvailable(ctx, w);
    if !available.value then Step(Err(Unavailable("pacman")), available.trace)
    else
      var (pkgName, ok) := Lookup(plan, ArchLinux);
      if !ok then Step(Err(NotSpecified("Arch Linux")), available.trace)
      else
        var run := Run(ctx, w, "sudo", InstallArgs(pkgName));
        Step(run.value, available.trace + run.trace)
  }

  /**
   * On the host with pacman on the PATH and the plan {Arch Linux: "which"}, the
   * code as written refuses the install, while the intended version runs
   * `sudo pacman -Sy which --noconfirm` and succeeds when that exits 0.
   */
  lemma HostScenario(w: World)
    requires w.onPath("pacman")
    requires w.status(["sudo", "pacman", "-Sy", "which", "--noconfirm"]) == Exited(0)
    ensures Install(Default, w, map[0 := "which"]) == Step(Err(NotSpecified("Arch Linux")), [])
    ensures InstallIntended(Default, w, map[0 := "which"]) ==
      Step(Ok(()), [["sudo", "pacman", "-Sy", "which", "--noconfirm"]])
  {
    assert Invocation(Default, "sudo", InstallArgs("which")) == ["sudo", "pacman", "-Sy", "which", "--noconfirm"];
  }
}
