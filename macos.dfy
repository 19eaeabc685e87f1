/**
 * The macOS package manager (Homebrew). Like the Windows one it takes no
 * command context: it looks `brew` up on the host PATH and spawns it directly.
 */
module MacOS {
  import opened Wrappers
  import opened Process
  import opened CommandContext
  import opened PkgManager

  /** Available iff `brew` is on the host PATH. */
  function CheckAvailable(w: World): (r: bool)
    ensures r == CommandExists(Default, w, "brew").value.value
  {
    w.onPath("brew")
  }

  /** Homebrew is not bootstrapped: the user is told to do it; nothing fails. */
  function InstallManager(): (r: ManagerReport)
    ensures !r.0 && r.1.None?
  {
    (false, None)
  }

  /**
   * `Install(plan)` as written: the plan test is `if ok`, so a plan that names
   * the package for macOS is refused, and one that does not runs
   * `brew install ""`.
   */
  function Install(w: World, plan: Plan): (r: Step<Outcome>)
    ensures !CheckAvailable(w) ==> r == Step(Err(Unavailable("brew")), [])
    ensures CheckAvailable(w) && Code(MacOS) in plan ==> r == Step(Err(NotSpecified("MacOs")), [])
    ensures CheckAvailable(w) && Code(MacOS) !in plan ==>
      r.trace == [["brew", "install", ""]] &&
      (r.value.Ok? <==> w.status(["brew", "install", ""]) == Exited(0))
  {
    if !CheckAvailable(w) then Step(Err(Unavailable("brew")), [])
    else
      var (pkgName, ok) := Lookup(plan, MacOS);
      if ok then Step(Err(NotSpecified("MacOs")), [])
      else Spawn(w, ["brew", "install", pkgName])
  }

  /** Bypassing the context changes nothing: it is what the host context would run. */
  lemma SameAsHostContext(w: World, plan: Plan)
    requires CheckAvailable(w) && Code(MacOS) !in plan
    ensures Install(w, plan) == Run(Default, w, "brew", ["install", ""])
  {
    assert Invocation(Default, "brew", ["install", ""]) == ["brew", "install", ""];
  }

  /** The defect: a plan that names the macOS package never runs anything. */
  lemma PlanWithKeyNeverRuns(w: World, plan: Plan)
    requires Code(MacOS) in plan
    ensures Install(w, plan).value.Err? && Install(w, plan).trace == []
  {
  }

  /** Install as intended: the package the plan names for macOS, an error when there is none. */
  function InstallIntended(w: World, plan: Plan): (r: Step<Outcome>)
    ensures !CheckAvailable(w) ==> r == Step(Err(Unavailable("brew")), [])
    ensures CheckAvailable(w) && Code(MacOS) !in plan ==> r == Step(Err(NotSpecified("MacOs")), [])
    ensures CheckAvailable(w) && Code(MacOS) in plan ==>
      r.trace == [["brew", "install", plan[Code(MacOS)]]] &&
      (r.value.Ok? <==> w.status(["brew", "install", plan[Code(MacOS)]]) == Exited(0))
  {
    if !CheckAvailable(w) then Step(Err(Unavailable("brew")), [])
    else
      var (pkgName, ok) := Lookup(plan, MacOS);
      if !ok then Step(Err(NotSpecified("MacOs")), [])
      else Spawn(w, ["brew", "install", pkgName])
  }
}
