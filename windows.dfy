/**
 * The Windows package manager (winget). It takes no command context: it
 * looks `winget` up on the host PATH and spawns it on the host directly.
 */
module Windows {
  import opened Wrappers
  import opened Process
  import opened CommandContext
  import opened PkgManager

  /** Available iff `winget` is on the host PATH. */
  function CheckAvailable(w: World): (r: bool)
    ensures r == CommandExists(Default, w, "winget").value.value
  {
    w.onPath("winget")
  }

  /** winget cannot be installed programmatically: the user is told to do it; nothing fails. */
  function InstallManager(): (r: ManagerReport)
    ensures !r.0 && r.1.None?
  {
    (false, None)
  }

  /**
   * `Install(plan)` as written: the plan test is `if ok`, so a plan that names
   * the package for Windows is refused, and one that does not runs
   * `winget install ""`.
   */
  function Install(w: World, plan: Plan): (r: Step<Outcome>)
    ensures !CheckAvailable(w) ==> r == Step(Err(Unavailable("winget")), [])
    ensures CheckAvailable(w) && Code(Windows) in plan ==> r == Step(Err(NotSpecified("Windows")), [])
    ensures CheckAvailable(w) && Code(Windows) !in plan ==>
      r.trace == [["winget", "install", ""]] &&
      (r.value.Ok? <==> w.status(["winget", "install", ""]) == Exited(0))
  {
    if !CheckAvailable(w) then Step(Err(Unavailable("winget")), [])
    else
      var (pkgName, ok) := Lookup(plan, Windows);
      if ok then Step(Err(NotSpecified("Windows")), [])
      else Spawn(w, ["winget", "install", pkgName])
  }

  /** Bypassing the context changes nothing: it is what the host context would run. */
  lemma SameAsHostContext(w: World, plan: Plan)
    requires CheckAvailable(w) && Code(Windows) !in plan
    ensures Install(w, plan) == Run(Default, w, "winget", ["install", ""])
  {
    assert Invocation(Default, "winget", ["install", ""]) == ["winget", "install", ""];
  }

  /** The defect: a plan that names the Windows package never runs anything. */
  lemma PlanWithKeyNeverRuns(w: World, plan: Plan)
    requires Code(Windows) in plan
    ensures Install(w, plan).value.Err? && Install(w, plan).trace == []
  {
  }

  /** Install as intended: the package the plan names for Windows, an error when there is none. */
  function InstallIntended(w: World, plan: Plan): (r: Step<Outcome>)
    ensures !CheckAvailable(w) ==> r == Step(Err(Unavailable("winget")), [])
    ensures CheckAvailable(w) && Code(Windows) !in plan ==> r == Step(Err(NotSpecified("Windows")), [])
    ensures CheckAvailable(w) && Code(Windows) in plan ==>
      r.trace == [["winget", "install", plan[Code(Windows)]]] &&
      (r.value.Ok? <==> w.status(["winget", "install", plan[Code(Windows)]]) == Exited(0))
  {
    if !CheckAvailable(w) then Step(Err(Unavailable("winget")), [])
    else
      var (pkgName, ok) := Lookup(plan, Windows);
      if !ok then Step(Err(NotSpecified("Windows")), [])
      else Spawn(w, ["winget", "install", pkgName])
  }

  /**
   * Without winget: unavailable, `Install` refuses without running anything,
   * and `InstallManager` reports that nothing was installed and no error.
   */
  lemma NoWingetScenario(w: World, plan: Plan)
    requires !w.onPath("winget")
    ensures !CheckAvailable(w)
    ensures Install(w, plan) == Step(Err(Unavailable("winget")), [])
    ensures InstallManager() == (false, None)
  {
  }
}
