/**
 * The operating-system families and the package plan: a Go `map[int]string`
 * from family identifier to the name of the package on that family.
 */
module PkgManager {
  import opened Wrappers
  import opened Process

  datatype OsFamily = ArchLinux | Windows | Ubuntu | Fedora | MacOS

  /** The identifier `iota` gives each family, in declaration order. */
  function Code(os: OsFamily): (c: int)
    ensures 0 <= c < 5
  {
    match os
    case ArchLinux => 0
    case Windows => 1
    case Ubuntu => 2
    case Fedora => 3
    case MacOS => 4
  }

  /** The family an identifier stands for, if any. */
  function FromCode(c: int): (r: Option<OsFamily>)
    ensures r.Some? <==> 0 <= c < 5
    ensures r.Some? ==> Code(r.value) == c
  {
    if c == 0 then Some(ArchLinux)
    else if c == 1 then Some(Windows)
    else if c == 2 then Some(Ubuntu)
    else if c == 3 then Some(Fedora)
    else if c == 4 then Some(MacOS)
    else None
  }

  /** The identifiers are 0 to 4 in declaration order. */
  lemma IotaOrder()
    ensures Code(ArchLinux) == 0 && Code(Windows) == 1 && Code(Ubuntu) == 2
    ensures Code(Fedora) == 3 && Code(MacOS) == 4
  {
  }

  /** Distinct families have distinct identifiers, so a plan names at most one package per family. */
  lemma CodeInjective(a: OsFamily, b: OsFamily)
    ensures Code(a) == Code(b) <==> a == b
  {
  }

  type Plan = map<int, string>

  /** Go's `pkgName, ok := plan[key]`: the zero value "" when the key is absent. */
  function Lookup(plan: Plan, os: OsFamily): (r: (string, bool))
    ensures r.1 <==> Code(os) in plan
    ensures r.0 == (if Code(os) in plan then plan[Code(os)] else "")
  {
    if Code(os) in plan then (plan[Code(os)], true) else ("", false)
  }

  /** What `InstallManager` reports: whether an installation was performed, and the error. */
  type ManagerReport = (bool, Option<Error>)
}
