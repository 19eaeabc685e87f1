# contiker, modelled in Dafny

contiker launches a containerised Contiki-NG build and simulation environment.
It also makes sure host prerequisites are installed, on several operating systems.
This project models the decision logic of its Go and Rust code:

- **Command contexts** (`CommandContext`). A command runs either on the host or inside a named
  container, through `docker exec -it <name>`. An existence check is a PATH lookup on the host;
  in a container it is a `which` probe whose exit code decides the answer.
- **Package managers** (`PkgManager`, `ArchLinux`, `Ubuntu`, `Windows`, `MacOS`). Each one first
  checks that it is available. It then looks up the package plan, a map from the operating-system
  family (numbered by `iota`) to a package name. Finally it spawns exactly one install command.
- **Commands** (`Commander`). `EnsureInstalled` is a check-then-install step: nothing happens when
  the command is already there.
- **The Y/N permission prompt** of the package-manager helpers (`Permission`).
- **The Go launcher** (`Launcher`). It covers:
  - the container listing;
  - the mount inspection;
  - the reset prompt;
  - the processes `execDocker` spawns to start a shell in the container.
- **The Rust crates**:
  - the Docker client (`ContikerDocker`): mounts, container summaries, users, the image pull,
    the restart prompt and the exec request;
  - the git clone of `contiker init` (`ContikerInit`);
  - the uid/gid/root resolution of the Linux front end (`Linux`).

Shared pieces come from two auxiliary modules:

- `Process`: processes, their exit status and the errors the Go code reports.
- `Text`: Go and Rust trimming, line splitting and decimal numerals.

The operating system is an oracle, `Process.World`. It answers PATH lookups and says how the
process spawned for a given argv ends. Every operation records the argvs it spawned, in order.
That makes "no process is invoked" and "exactly one install runs" statable.

What the launcher's docker queries print, and what JSON decoding makes of it, are parameters
(`Launcher.Host`). So are:

- the daemon's answers to the Rust client;
- the environment variables and the current user;
- path absolutisation;
- the CPU count.

Standard input is a finite sequence of lines, one per read, or of tokens for `fmt.Scan`. When
the input ends without an answer, a prompt that would ask forever reports `None`.

The Go interface `CC` becomes the datatype `Context`, and each operation dispatches on its variant.
The interface `PkgManager` becomes the module-per-manager layout with `Commander.Manager`
selecting one. manager.go declares `Install(pkg)` and `CheckAvailable()` without a context, but
commander.go calls `Install(context, program)`. The Arch and Ubuntu managers take a context,
while the Windows and macOS ones look their tool up on the host and spawn it there. The model
follows the implementations and the call site.

Three facts of the code shape the managers:

- **The plan test is inverted.** Each manager raises its "not specified" error when the plan
  names its package (for example at pkg/pkgmanager/archlinux.go:36-37), and otherwise installs
  the zero value `""`; see Findings.
- **The Arch install command** is `sudo pacman -Sy <pkg> --noconfirm`
  (pkg/pkgmanager/archlinux.go:41).
- **The Windows and macOS managers take no context.** They look `winget` or `brew` up on the host
  PATH and spawn it there (pkg/pkgmanager/windows.go:13, 35).

## Model

| member | source | states |
|---|---|---|
| `Process.Spawn` | pkg/command-context/default.go:14-21 | spawns exactly the argv given; succeeds iff the process exits with 0; a failure carries the argv and how the process ended |
| `CommandContext.NewDefault` | pkg/command-context/default.go:10-12 | the host context runs every command as given, with no prefix, and spawns no probe |
| `CommandContext.NewDocker` | pkg/command-context/docker.go:13-17 | the container name is fixed at construction; every command the context runs and every probe it spawns goes through `docker exec -it` into that container |
| `CommandContext.Invocation` | pkg/command-context/docker.go:20-26 | the host spawns the name and arguments unchanged; a container context prefixes `docker exec -it <containerName>`; the name and arguments always sit unchanged at the end |
| `CommandContext.UnwrapInvocation` | pkg/command-context/docker.go:20-26 | the wrapping is reversible: the program and arguments are recovered from the spawned argv |
| `CommandContext.InvocationInjective` | pkg/command-context/docker.go:20-26 | two different commands never produce the same spawned argv |
| `CommandContext.Run` | pkg/command-context/docker.go:19-33 | exactly one process, the context's invocation, is spawned; its result is returned unchanged (host and container alike) |
| `CommandContext.WhichProbeIsInvocation` | pkg/command-context/docker.go:36 | the existence probe is `which <name>` run through the same indirection as `Run` |
| `CommandContext.CommandExists` | pkg/command-context/docker.go:35-52 | host: the PATH lookup's answer, never an error, no process spawned; container: true iff the probe exits 0, false iff it exits 1, one probe spawned; every error is the lookup error |
| `CommandContext.ProbeErrorCases` | pkg/command-context/docker.go:43-51 | the lookup fails exactly when the probe exits with neither 0 nor 1, a probe that never ran (exit code -1) included |
| `PkgManager.Code` | pkg/pkgmanager/manager.go:3-9 | every family's identifier is in 0..4 |
| `PkgManager.FromCode` | pkg/pkgmanager/manager.go:3-9 | an identifier names a family iff it is in 0..4, and then the family with that identifier |
| `PkgManager.IotaOrder` | pkg/pkgmanager/manager.go:3-9 | Arch Linux 0, Windows 1, Ubuntu 2, Fedora 3, macOS 4 |
| `PkgManager.CodeInjective` | pkg/pkgmanager/manager.go:3-9 | distinct families have distinct identifiers, so a plan holds at most one package per family |
| `PkgManager.Lookup` | pkg/pkgmanager/archlinux.go:35 | the comma-ok map index: found iff the family's key is in the plan; the name is the entry, or "" when absent |
| `ArchLinux.CheckAvailable` | pkg/pkgmanager/archlinux.go:12-20 | true iff the context finds `pacman` without error; a lookup error means false; spawns only the context's probe |
| `ArchLinux.InstallManager` | pkg/pkgmanager/archlinux.go:22-24 | always (false, no error) |
| `ArchLinux.UpdateRegistry` | pkg/pkgmanager/archlinux.go:26-28 | always succeeds and spawns nothing |
| `ArchLinux.Install` | pkg/pkgmanager/archlinux.go:30-42 | as written: unavailable is an error with no install; a plan with the Arch key is the "not specified" error with no install; otherwise exactly one `sudo pacman -Sy "" --noconfirm` through the context, its result returned |
| `ArchLinux.PlanWithKeyNeverRuns` | pkg/pkgmanager/archlinux.go:35-38 | a plan naming the Arch package always fails and spawns nothing beyond the availability probe |
| `ArchLinux.OnlyEmptyNameInstalled` | pkg/pkgmanager/archlinux.go:35-41 | whatever the plan, the only package the written `Install` ever passes to pacman is "" |
| `ArchLinux.ContextAgnostic` | pkg/pkgmanager/archlinux.go:30-42 | two contexts with the same availability answer and the same exit status of the install both succeed or both fail; a failed install reports the same status, and every other error is identical |
| `ArchLinux.InstallIntended` | pkg/pkgmanager/archlinux.go:30-42 | corrected: a plan without the Arch key is the "not specified" error; with it, exactly one install of the named package |
| `ArchLinux.HostScenario` | pkg/pkgmanager/archlinux.go:35-41 | on a host with pacman and the plan {Arch Linux: "which"}, the written code refuses, the corrected one runs `sudo pacman -Sy which --noconfirm` |
| `Ubuntu.CheckAvailable` | pkg/pkgmanager/ubuntu.go:12-20 | true iff the context finds `apt` without error; a lookup error means false |
| `Ubuntu.InstallManager` | pkg/pkgmanager/ubuntu.go:22-24 | always (false, no error) |
| `Ubuntu.UpdateRegistry` | pkg/pkgmanager/ubuntu.go:26-32 | unavailable apt is an error with no further process; otherwise exactly `sudo apt update` through the context, its result returned |
| `Ubuntu.Install` | pkg/pkgmanager/ubuntu.go:34-46 | as written: unavailable is an error; a plan with the Ubuntu key is the "not specified" error with no install; otherwise exactly one `sudo apt install -y ""`, its result returned |
| `Ubuntu.PlanWithKeyNeverRuns` | pkg/pkgmanager/ubuntu.go:39-42 | a plan naming the Ubuntu package always fails and spawns nothing beyond the probe |
| `Ubuntu.OnlyEmptyNameInstalled` | pkg/pkgmanager/ubuntu.go:39-45 | the only package the written `Install` ever passes to apt is "" |
| `Ubuntu.ContextAgnostic` | pkg/pkgmanager/ubuntu.go:34-46 | two contexts with the same availability answer and the same exit status of the install both succeed or both fail; a failed install reports the same status, and every other error is identical |
| `Ubuntu.InstallIntended` | pkg/pkgmanager/ubuntu.go:34-46 | corrected: a missing Ubuntu entry is the "not specified" error; otherwise one install of the named package |
| `Ubuntu.MissingEntryScenario` | pkg/pkgmanager/ubuntu.go:39-45 | with apt on the host and no Ubuntu entry, the written code runs `sudo apt install -y ""`, the corrected one refuses without spawning |
| `Windows.CheckAvailable` | pkg/pkgmanager/windows.go:12-15 | the host PATH lookup of `winget`, with no context |
| `Windows.InstallManager` | pkg/pkgmanager/windows.go:17-21 | always (false, no error) |
| `Windows.Install` | pkg/pkgmanager/windows.go:23-41 | as written: no winget is an error with nothing run; a plan with the Windows key is the "not specified" error with nothing run; otherwise exactly `winget install ""`, succeeding iff it exits 0 |
| `Windows.SameAsHostContext` | pkg/pkgmanager/windows.go:35-40 | the direct spawn is exactly what the host context's `Run` would do |
| `Windows.PlanWithKeyNeverRuns` | pkg/pkgmanager/windows.go:28-32 | a plan naming the Windows package always fails and runs nothing |
| `Windows.InstallIntended` | pkg/pkgmanager/windows.go:23-41 | corrected: a missing Windows entry is the error; otherwise `winget install <package>` |
| `Windows.NoWingetScenario` | pkg/pkgmanager/windows.go:24-26 | without winget: unavailable, `Install` refuses without running anything, `InstallManager` reports nothing installed and no error |
| `MacOS.CheckAvailable` | pkg/pkgmanager/macos.go:12-15 | the host PATH lookup of `brew`, with no context |
| `MacOS.InstallManager` | pkg/pkgmanager/macos.go:17-21 | always (false, no error) |
| `MacOS.Install` | pkg/pkgmanager/macos.go:23-41 | as written: no brew is an error; a plan with the macOS key is the "not specified" error; otherwise exactly `brew install ""`, succeeding iff it exits 0 |
| `MacOS.SameAsHostContext` | pkg/pkgmanager/macos.go:35-40 | the direct spawn is exactly what the host context's `Run` would do |
| `MacOS.PlanWithKeyNeverRuns` | pkg/pkgmanager/macos.go:28-32 | a plan naming the macOS package always fails and runs nothing |
| `MacOS.InstallIntended` | pkg/pkgmanager/macos.go:23-41 | corrected: a missing macOS entry is the error; otherwise `brew install <package>` |
| `Commander.Exists` | pkg/commander/commander.go:18-26 | true iff the context's lookup succeeds with true; a lookup error gives false; only the lookup's probe is spawned |
| `Commander.EnsureInstalled` | pkg/commander/commander.go:28-34 | an existing command gives success with no install; otherwise exactly one install through the given manager with the command's own context and plan, its result returned verbatim |
| `Commander.Idempotent` | pkg/commander/commander.go:28-31 | while the command exists, any number of calls all succeed and spawn nothing but existence probes |
| `Commander.ContainerScenario` | pkg/commander/commander.go:18-33 | a `which` probe exiting 1 inside a container makes the command absent and hands over to the manager |
| `Permission.Classify` | pkg/pkgmanager/utils.go:16-24 | yes exactly for "Y" or "y" once tab, newline and space are trimmed, no exactly for "N" or "n", otherwise no answer |
| `Permission.CarriageReturnRejected` | pkg/pkgmanager/utils.go:16 | only tab, newline and space are trimmed, so a line ending in "\r\n" is never an answer |
| `Permission.EmptyLineRejected` | pkg/pkgmanager/utils.go:18-24 | the empty line is no answer: there is no default despite "[Y/n]" |
| `Permission.AskPermission` | pkg/pkgmanager/utils.go:11-26 | the answer is that of the first recognised line (Y/y yes, N/n no), every earlier line was rejected, and input exhausted without an answer means asking forever |
| `Text.SplitLines` | main.go:51 | `strings.Split` on "\n": never empty, no piece holds a newline |
| `Text.JoinSplitLines` | main.go:51 | splitting loses nothing: joining the pieces gives the text back |
| `Text.TrimEnds` | main.go:51 | the trimmed text neither starts nor ends with a trimmed character |
| `Text.StartsWithIsPrefix` | contiker-docker/src/lib.rs:74 | `starts_with` is the prefix relation |
| `Text.ParseNatToString` | contiker-init/src/lib.rs:37 | a number printed in decimal reads back as itself |
| `Text.IdPairRoundTrip` | contiker-docker/src/lib.rs:305 | "<uid>:<gid>" reads back as the pair |
| `ContikerDocker.HasMount` | contiker-docker/src/lib.rs:380-386 | true iff some mount is a bind mount whose source is the path |
| `ContikerDocker.OnlyBindMountsCount` | contiker-docker/src/lib.rs:382-384 | a mount of another type at the same source changes nothing |
| `ContikerDocker.FromSummary` | contiker-docker/src/lib.rs:392-398 | succeeds iff id, state and mounts are all present, keeping them; otherwise the first missing one, in that order, names the error |
| `ContikerDocker.FromToSummary` | contiker-docker/src/lib.rs:392-398 | converting a complete summary loses nothing |
| `ContikerDocker.QueryDocker` | contiker-docker/src/lib.rs:165-194 | a failed listing is the "while querying docker" error; no match gives none; one or more matches give the first, converted |
| `ContikerDocker.OnlyFirstContainerMatters` | contiker-docker/src/lib.rs:183-193 | listings that agree on their first container give the same result |
| `ContikerDocker.IsUp` | contiker-docker/src/lib.rs:96-99 | up iff the listing's first container converts; down iff nothing matched |
| `ContikerDocker.Root` | contiker-docker/src/lib.rs:412-414 | uid and gid 0, sent to the daemon as "0:0" |
| `ContikerDocker.DefaultUser` | contiker-docker/src/lib.rs:427-433 | uid and gid 1000, sent to the daemon as "1000:1000" |
| `ContikerDocker.UserSpec` | contiker-docker/src/lib.rs:305 | the "uid:gid" text reads back as the user's ids |
| `ContikerDocker.ExecDockerRequest` | contiker-docker/src/lib.rs:299-305 | the command is `bash` when empty and unchanged otherwise; the user text reads back as the user's uid and gid |
| `ContikerDocker.PullContikerContainer` | contiker-docker/src/lib.rs:128-163 | without the cache it always pulls; with it, a failed listing is an error without a pull, and it pulls iff no image is listed; a pull that did not start or did not succeed is the matching error |
| `ContikerDocker.YesNoCases` | contiker-docker/src/lib.rs:74-79 | exactly "", "y", "ye" and "yes" mean yes; exactly "n" and "no" mean no |
| `ContikerDocker.RejectedStaysRejected` | contiker-docker/src/lib.rs:74-79 | no extension of a rejected text is an answer |
| `ContikerDocker.PromptRestart` | contiker-docker/src/lib.rs:67-81 | as written: the answer is that of the accumulated buffer at the first read that gives one; every earlier read gave none; no answer means spinning forever |
| `ContikerDocker.StuckAfterRejectedAnswer` | contiker-docker/src/lib.rs:68-81 | once the first line is rejected, no later read is ever accepted |
| `ContikerDocker.MaybeThenYesScenario` | contiker-docker/src/lib.rs:71-81 | "maybe" then "y": the prompt never accepts |
| `ContikerDocker.PromptRestartCleared` | contiker-docker/src/lib.rs:71-81 | corrected: each line is judged on its own; the first recognised one decides; the end of input reads empty, which means yes |
| `ContikerInit.New` | contiker-init/src/lib.rs:12-26 | the volume defaults to ".", the url to the upstream repository; branch and shallow are kept |
| `ContikerInit.CloneArgv` | contiker-init/src/lib.rs:32-50 | starts `git clone --recurse-submodules -j<N>`, ends with url then volume, and has 3 more arguments when shallow and 2 more with a branch |
| `ContikerInit.FlagOrder` | contiker-init/src/lib.rs:39-48 | the shallow flags come right after the jobs flag, in order, or are absent; the branch flags follow them |
| `ContikerInit.DecodeCloneArgv` | contiker-init/src/lib.rs:33-50 | the argv determines the clone: reading it back gives the manager and the jobs count |
| `ContikerInit.DefaultClone` | contiker-init/src/lib.rs:19-50 | with every default the clone is of upstream into "." |
| `ContikerInit.Install` | contiker-init/src/lib.rs:32-59 | spawns the clone argv; a clone that did not start, or did not exit with 0, is the matching error; exit 0 is success |
| `Linux.ResolveUser` | src/linux.rs:25-38 | starts from the inferred user; a given uid or gid replaces only its field; root overrides everything with 0:0; with no option the inferred user is kept |
| `Launcher.ParsedAppend` | main.go:54-65 | parsing goes line by line: the containers of consecutive runs of lines concatenate in order |
| `Launcher.ParsedMember` | main.go:54-65 | a container is kept iff some non-empty line decodes to it |
| `Launcher.ParsedNonEmpty` | main.go:54-65 | some container is found iff some non-empty line decodes |
| `Launcher.QueryDocker` | main.go:40-68 | a failed listing is returned as is; otherwise the containers of the non-empty, decodable lines of the trimmed output, in order |
| `Launcher.CheckContikerUp` | main.go:111-118 | up iff some non-empty output line decodes to a container; a listing error is passed on |
| `Launcher.FirstLineOfTrimmed` | main.go:82-87 | output that is not blank has a non-empty first line |
| `Launcher.BlankOutputHasNoLine` | main.go:82-91 | blank output splits into the single empty line: no line is non-empty |
| `Launcher.FirstNonEmptyLine` | main.go:86-91 | as written: safe only when some line is non-empty; finds the first one |
| `Launcher.FirstNonEmptyLineBounded` | main.go:86-96 | corrected: finds the first non-empty line, or the end |
| `Launcher.QueryMounts` | main.go:71-109 | as written: requires output that is not blank, then the first line decoded; a decode failure or command error is passed on |
| `Launcher.QueryMountsBounded` | main.go:71-109 | corrected: blank output means no mounts |
| `Launcher.CheckContikerUpWithMount` | main.go:121-134 | true iff some mount's source equals the path, of whatever type; errors are passed on |
| `Launcher.ResetAnswer` | main.go:216-224 | "y", "Y", "Yes", "YES" mean yes; "", "n", "N", "No", "NO" mean no; anything else (e.g. "yes") is asked again |
| `Launcher.AskReset` | main.go:207-226 | the first recognised token decides; every earlier one was rejected; the end of input (a failed read) means no |
| `Launcher.MountedPath` | main.go:232-237 | the volume flag when non-empty, else `CNG_PATH` |
| `Launcher.UserIds` | main.go:243-259 | root is "0"/"0"; otherwise the current user's ids, or "1000"/"1000" when the lookup fails |
| `Launcher.RunArgv` | main.go:289-301 | `docker run --name contiker …` with 28 arguments: the display, the user's ids as `LOCAL_UID`/`LOCAL_GID`, and the chosen directory bind-mounted at /home/user/contiki-ng of the contiker/contiki-ng image |
| `Launcher.ExecArgv` | main.go:314-315 | `docker exec --user <uid>:<gid> -it contiker <startCmd>` |
| `Launcher.LaunchPaths` | main.go:261-315 | the five paths: listing error; down; mount query error; reset; reused, each with its processes |
| `Launcher.ExecDockerExits` | main.go:261-273 | the listing is always first; the launcher exits iff the listing fails or the mount query of a running container fails |
| `Launcher.ExecDockerEndsInExec` | main.go:314-321 | unless the launcher exits, the last process is the start command as the chosen user; otherwise it never runs |
| `Launcher.ExecDockerResets` | main.go:275-312 | the container is removed iff it runs without the path mounted and the user agrees; `docker run` is spawned iff it was down or has just been removed |
| `Launcher.MountedContainerReused` | main.go:268-287 | a running container with the path mounted is reused: listing, inspection, exec, nothing else |
| `Launcher.ExecDocker` | main.go:228-328 | the processes spawned and the exit decision are those of the launch paths above, for the chosen path and user |
| `Launcher.StartContainer` | main.go:261-321 | the docker part of `execDocker` spawns the listing, the inspection, `rm`, `run` and `exec` as the five paths say |

## Left out

- Printed messages, warnings and prompts are not modelled. This includes the malformed `%s` of
  `askPermission` and the winget text the macOS `InstallManager` copies.
- Stream passthrough, the Docker daemon API (bollard), the tokio runtime, raw terminal mode and
  the stdin-forwarding task of the Rust client are I/O and concurrency. Only the decisions around
  them are modelled.
- JSON decoding, `filepath.Abs`, environment variables, `user.Current`, `getuid`/`getgid` and
  `num_cpus` are parameters of the operations that use them.
- Launcher.ExecDocker: the failures of `docker run`, `docker exec` and `execRm` are printed and
  otherwise ignored by the launcher, so only their argvs are recorded.
- Launcher.ExecDocker: it uses `QueryMountsBounded`. The written `queryMounts` panics on blank
  output (see Findings), and that panic is not part of the launch paths.
- Launcher.AskReset: a failed read is modelled as the end of input, where `fmt.Scan` leaves the
  answer empty.
- ContikerDocker.PromptRestart: a `read_line` error, reported as "could not read from stdin", is
  not modelled. At the end of input a read appends nothing, as `read_line` does.
- ContikerDocker.HasMount: source and path are compared as strings. Rust's `Path` equality
  compares components, so `/a/b/` and `/a/b` are one path there and two here.
- Launcher.CheckContikerUpWithMount: path equality is string equality, as in the Go code.
- Launcher.CheckContikerUpWithMount: it queries the mounts with `QueryMountsBounded`. On blank
  `docker inspect` output it answers "not mounted", where the written `queryMounts` panics.
- Launcher.StartContainer: it inherits the bounded mount query of `CheckContikerUpWithMount`, so
  the panic on blank inspection output is not one of its paths.
- Permission.AskPermission: each read is assumed to return exactly one line, as a terminal
  delivers input. `askPermission` builds a new buffered reader on every round. When several
  lines arrive at once, as from a pipe, the lines a discarded reader had buffered are lost, and
  the prompt can then ask forever where the model answers.
- `execInit`, `execFixXhost`, `execFixDocker`, `execFixPermission`, `main` and flag parsing in
  main.go are not modelled: they are straight pass-through process calls.
- Rust `exec`'s call of `rm_contiker`, and `ensure_contiker_up`, `reset`, `rm`, `new`,
  `volume()`/`volume_path_or_cng`, are not modelled. They are daemon calls and path
  absolutisation.
- contiker-wsl (HTTP release download and an unimplemented WSL API), src/main.rs and
  src/windows.rs (argument parsing and thin wrappers) are not part of this model.
- pkg/pkgmanager/archlinux_test.go starts a real container and does not call the modelled code.
- Linux.ResolveUser: the command line's `Option<u8>` ids are assigned into `u32` fields. Only the
  value is modelled (every `u8` fits).
- Commander.EnsureInstalled: it dispatches to the written `Install` of each manager, as the code
  does, not to the corrected `InstallIntended`.
- `Command.execCmd` is never read by the modelled code and is not a field of `Commander.Command`.

## Findings

| source | as written | input that shows it | evidently intended | confidence | as-written member | corrected member |
|---|---|---|---|---|---|---|
| pkg/pkgmanager/archlinux.go:35-38 | a plan that names the Arch package is refused as "not specified", and a plan without it installs "" | the plan {0: "which"} on a host with pacman | refuse a plan without the Arch entry, install the named package otherwise | not executed | `ArchLinux.Install` (`ArchLinux.PlanWithKeyNeverRuns`, `ArchLinux.OnlyEmptyNameInstalled`, `ArchLinux.HostScenario`) | `ArchLinux.InstallIntended` |
| pkg/pkgmanager/ubuntu.go:39-42 | the same inversion for Ubuntu | the empty plan with apt on the host runs `sudo apt install -y ""` | refuse a plan without the Ubuntu entry | not executed | `Ubuntu.Install` (`Ubuntu.PlanWithKeyNeverRuns`, `Ubuntu.MissingEntryScenario`) | `Ubuntu.InstallIntended` |
| pkg/pkgmanager/windows.go:28-32 | the same inversion for Windows | the plan {1: "Git.Git"} with winget on the PATH | refuse a plan without the Windows entry | not executed | `Windows.Install` (`Windows.PlanWithKeyNeverRuns`) | `Windows.InstallIntended` |
| pkg/pkgmanager/macos.go:28-32 | the same inversion for macOS | the plan {4: "xquartz"} with brew on the PATH | refuse a plan without the macOS entry | not executed | `MacOS.Install` (`MacOS.PlanWithKeyNeverRuns`) | `MacOS.InstallIntended` |
| main.go:86-91 | the loop reads `lines[idx]` after incrementing without a bound check | `docker inspect` printing "\n" leaves `[""]` and reads `lines[1]` | stop at the end and report no mounts, as lines 93-96 expect | not executed | `Launcher.FirstNonEmptyLine`, `Launcher.QueryMounts` (`Launcher.BlankOutputHasNoLine`) | `Launcher.FirstNonEmptyLineBounded`, `Launcher.QueryMountsBounded` (used by `Launcher.ExecDocker`) |
| contiker-docker/src/lib.rs:68-81 | the answer buffer is never cleared, since `read_line` appends | the lines "maybe\n", "y\n" | judge each line on its own | not executed | `ContikerDocker.PromptRestart` (`ContikerDocker.StuckAfterRejectedAnswer`, `ContikerDocker.MaybeThenYesScenario`) | `ContikerDocker.PromptRestartCleared` |
