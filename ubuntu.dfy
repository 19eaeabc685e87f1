/**
 * The Ubuntu/Debian package manager (apt), driven through a command context.
 */
module Ubuntu {
  import opened Wrappers
  import opened Process
  import opened CommandContext
  import opened PkgManager

  /** Available iff the context finds `apt`; a lookup error counts as unavailable. */
  function CheckAvailable(ctx: Context, w: World): (r: Step<bool>)
    ensures r.value <==> CommandExists(ctx, w, "apt").value == Ok(true)
    ensures r.trace == Probes(ctx, "apt")
  {
    var probe := CommandExists(ctx, w, "apt");
    match probe.value
    case Err(_) => Step(false, probe.trace)
    case Ok(status) => Step(status, probe.trace)
  }

  /** apt ships with the system: nothing is installed, nothing fails. */
  function InstallManager(): (r: ManagerReport)
    ensures !r.0 && r.1.None?
  {
    (false, None)
  }

  /** `sudo apt update`, refused when apt is unavailable. */
  function UpdateRegistry(ctx: Context, w: World): (r: Step<Outcome>)
    ensures !CheckAvailable(ctx, w).value ==>
      r == Step(Err(Unavailable("apt")), Probes(ctx, "apt"))
    ensures CheckAvailable(ctx, w).value ==>
      r.trace == Probes(ctx, "apt") + [Invocation(ctx, "sudo", ["apt", "update"])] &&
      r.value == Run(ctx, w, "sudo", ["apt", "update"]).value
  {
    var available := CheckAvailable(ctx, w);
    if !available.value then Step(Err(Unavailable("apt")), available.trace)
    else
      var run := Run(ctx, w, "sudo", ["apt", "update"]);
      Step(run.value, available.trace + run.trace)
  }

  /** The arguments given to `sudo` to install `pkgName`. */
  function InstallArgs(pkgName: string): seq<string> {
    ["apt", "install", "-y", pkgName]
  }

  /**
   * `Install(ctx, plan)` as written: the plan test is `if ok`, so a plan that
   * names the package for Ubuntu is refused, and one that does not installs
   * the zero value "".
   */
  function Install(ctx: Context, w: World, plan: Plan): (r: Step<Outcome>)
    ensures !CheckAvailable(ctx, w).value ==>
      r == Step(Err(Unavailable("apt")), Probes(ctx, "apt"))
    ensures CheckAvailable(ctx, w).value && Code(Ubuntu) in plan ==>
      r == Step(Err(NotSpecified("Ubuntu")), Probes(ctx, "apt"))
    ensures CheckAvailable(ctx, w).value && Code(Ubuntu) !in plan ==>
      r.trace == Probes(ctx, "apt") + [Invocation(ctx, "sudo", InstallArgs(""))] &&
      r.value == Run(ctx, w, "sudo", InstallArgs("")).value
  {
    var available := CheckAvailable(ctx, w);
    if !available.value then Step(Err(Unavailable("apt")), available.trace)
    else
      var (pkgName, ok) := Lookup(plan, Ubuntu);
      if ok then Step(Err(NotSpecified("Ubuntu")), available.trace)
      else
        var run := Run(ctx, w, "sudo", InstallArgs(pkgName));
        Step(run.value, available.trace + run.trace)
  }

  /** The defect: a plan that names the Ubuntu package never reaches `Run`. */
  lemma PlanWithKeyNeverRuns(ctx: Context, w: World, plan: Plan)
    requires Code(Ubuntu) in plan
    ensures Install(ctx, w, plan).value.Err?
    ensures Install(ctx, w, plan).trace == Probes(ctx, "apt")
  {
  }

  /** Whatever the plan, the only package `Install` can ever ask apt for is "". */
  lemma OnlyEmptyNameInstalled(ctx: Context, w: World, plan: Plan, name: string)
    requires Invocation(ctx, "sudo", InstallArgs(name)) in Install(ctx, w, plan).trace
    ensures name == ""
  {
    var t := Install(ctx, w, plan).trace;
    var i :| 0 <= i < |t| && t[i] == Invocation(ctx, "sudo", InstallArgs(name));
    assert |t| > |Probes(ctx, "apt")|;
    InvocationInjective(ctx, "sudo", InstallArgs(name), "sudo", InstallArgs(""));
    assert InstallArgs(name)[3] == name;
  }

  /**
   * Host and container contexts give the same result for the same availability
   * answer and install exit status; a failure differs only in the argv it carries.
   */
  lemma ContextAgnostic(c1: Context, w1: World, c2: Context, w2: World, plan: Plan)
    requires CheckAvailable(c1, w1).value == CheckAvailable(c2, w2).value
    requires w1.status(Invocation(c1, "sudo", InstallArgs(""))) == w2.status(Invocation(c2, "sudo", InstallArgs("")))
    ensures var r1, r2 := Install(c1, w1, plan).value, Install(c2, w2, plan).value;
      (r1.Ok? <==> r2.Ok?) &&
      (r1.Err? ==> r1.error.ExecFailed? == r2.error.ExecFailed?) &&
      (r1.Err? && r1.error.ExecFailed? ==> r1.error.status == r2.error.status) &&
      (r1.Err? && !r1.error.ExecFailed? ==> r1.error == r2.error)
  {
  }

  /** Install as intended: the package the plan names for Ubuntu, an error when there is none. */
  function InstallIntended(ctx: Context, w: World, plan: Plan): (r: Step<Outcome>)
    ensures !CheckAvailable(ctx, w).value ==>
      r == Step(Err(Unavailable("apt")), Probes(ctx, "apt"))
    ensures CheckAvailable(ctx, w).value && Code(Ubuntu) !in plan ==>
      r == Step(Err(NotSpecified("Ubuntu")), Probes(ctx, "apt"))
    ensures CheckAvailable(ctx, w).value && Code(Ubuntu) in plan ==>
      r.trace == Probes(ctx, "apt") + [Invocation(ctx, "sudo", InstallArgs(plan[Code(Ubuntu)]))] &&
      r.value == Run(ctx, w, "sudo", InstallArgs(plan[Code(Ubuntu)])).value
  {
    var available := CheckAvailable(ctx, w);
    if !available.value then Step(Err(Unavailable("apt")), available.trace)
    else
      var (pkgName, ok) := Lookup(plan, Ubuntu);
      if !ok then Step(Err(NotSpecified("Ubuntu")), available.trace)
      else
        var run := Run(ctx, w, "sudo", InstallArgs(pkgName));
        Step(run.value, available.trace + run.trace)
  }

  /**
   * With apt on the host PATH and a plan without an Ubuntu entry, the code as
   * written runs `sudo apt install -y ""`, while the intended version refuses
   * without touching the process layer.
   */
  lemma MissingEntryScenario(w: World, plan: Plan)
    requires w.onPath("apt") && Code(Ubuntu) !in plan
    ensures Install(Default, w, plan).trace == [["sudo", "apt", "install", "-y", ""]]
    ensures InstallIntended(Default, w, plan) == Step(Err(NotSpecified("Ubuntu")), [])
  {
    assert Invocation(Default, "sudo", InstallArgs("")) == ["sudo", "apt", "install", "-y", ""];
  }
}
