/**
 * The Go launcher: finding the contiker container, its mounts, the reset
 * prompt and the start of a shell in the container. What the `docker`
 * processes print and what JSON decoding makes of it come from `Host`; the
 * launcher spawns every other process for its effect alone (it prints, but
 * otherwise ignores, their failures), so only their argvs are recorded.
 */
module Launcher {
  import opened Wrappers
  import opened Text
  import opened Process

  /** One line of `docker container ls --format json`. */
  datatype Container = Container(
    command: string, createdAt: string, id: string, image: string, labels: string,
    localVolumes: string, mounts: string, names: string, ports: string,
    runningFor: string, state: string, status: string)

  /** One entry of `docker inspect --format '{{json .Mounts }}'`. */
  datatype Mount = Mount(typ: string, source: string, destination: string, mode: string, readOnly: bool, propagation: string)

  /** The containers named "contiker". */
  const LsArgv: Argv := ["docker", "container", "ls", "-f", "name=contiker", "--format", "json"]

  /** The mounts of the contiker container, as one JSON line. */
  const InspectArgv: Argv := ["docker", "inspect", "--format", "{{json .Mounts }}", "contiker"]

  /** `execRm`. */
  const RmArgv: Argv := ["docker", "container", "rm", "-f", "contiker"]

  /** The containers the non-empty lines decode to, in order; lines that do not decode are skipped. */
  function Parsed(lines: seq<string>, decode: string -> Option<Container>): (r: seq<Container>)
    ensures |r| <= |lines|
  {
    if lines == [] then []
    else
      var front := Parsed(lines[..|lines| - 1], decode);
      var last := lines[|lines| - 1];
      if last == "" then front
      else
        match decode(last)
        case None => front
        case Some(c) => front + [c]
  }

  /** Parsing works line by line: the containers of two runs of lines are concatenated, in order. */
  lemma {:induction false} ParsedAppend(a: seq<string>, b: seq<string>, decode: string -> Option<Container>)
    ensures Parsed(a + b, decode) == Parsed(a, decode) + Parsed(b, decode)
    decreases |b|
  {
    if b == [] {
      assert a + b == a;
    } else {
      var b' := b[..|b| - 1];
      assert (a + b)[..|a + b| - 1] == a + b';
      assert (a + b)[|a + b| - 1] == b[|b| - 1];
      ParsedAppend(a, b', decode);
    }
  }

  /** A container is kept iff some non-empty line decodes to it. */
  lemma {:induction false} ParsedMember(lines: seq<string>, decode: string -> Option<Container>, c: Container)
    ensures c in Parsed(lines, decode) <==>
      exists i :: 0 <= i < |lines| && lines[i] != "" && decode(lines[i]) == Some(c)
  {
    if lines != [] {
      var front := lines[..|lines| - 1];
      ParsedMember(front, decode, c);
      if exists i :: 0 <= i < |front| && front[i] != "" && decode(front[i]) == Some(c) {
        var i :| 0 <= i < |front| && front[i] != "" && decode(front[i]) == Some(c);
        assert lines[i] == front[i];
      }
      if exists i :: 0 <= i < |lines| && lines[i] != "" && decode(lines[i]) == Some(c) {
        var i :| 0 <= i < |lines| && lines[i] != "" && decode(lines[i]) == Some(c);
        if i < |front| {
          assert front[i] == lines[i];
        }
      }
    }
  }

  /** Some container is found iff some non-empty line decodes. */
  lemma {:induction false} ParsedNonEmpty(lines: seq<string>, decode: string -> Option<Container>)
    ensures Parsed(lines, decode) != [] <==>
      exists i :: 0 <= i < |lines| && lines[i] != "" && decode(lines[i]).Some?
  {
    if lines != [] {
      var front := lines[..|lines| - 1];
      ParsedNonEmpty(front, decode);
      if exists i :: 0 <= i < |front| && front[i] != "" && decode(front[i]).Some? {
        var i :| 0 <= i < |front| && front[i] != "" && decode(front[i]).Some?;
        assert lines[i] == front[i];
      }
      if exists i :: 0 <= i < |lines| && lines[i] != "" && decode(lines[i]).Some? {
        var i :| 0 <= i < |lines| && lines[i] != "" && decode(lines[i]).Some?;
        if i < |front| {
          assert front[i] == lines[i];
        }
      }
    }
  }

  /** The lines of a process's output once surrounding white space is removed. */
  function OutputLines(output: string): (lines: seq<string>)
    ensures |lines| >= 1
  {
    SplitLines(Trim(output, WhiteSpace))
  }

  /**
   * `queryDocker`: `output` is what the listing printed, or the error
   * `cmd.Output()` reported.
   */
  method QueryDocker(output: Result<string, Error>, decode: string -> Option<Container>)
    returns (r: Result<seq<Container>, Error>)
    ensures output.Err? ==> r == Err(output.error)
    ensures output.Ok? ==> r == Ok(Parsed(OutputLines(output.value), decode))
  {
    if output.Err? {
      return Err(output.error);
    }
    var lines := SplitLines(Trim(output.value, WhiteSpace));
    var containers: seq<Container> := [];
    for i := 0 to |lines|
      invariant containers == Parsed(lines[..i], decode)
    {
      assert lines[..i + 1][..i] == lines[..i];
      var line := lines[i];
      if |line| == 0 {
        continue;
      }
      match decode(line) {
        case None =>
          // "Error parsing JSON": the line is skipped
        case Some(container) =>
          containers := containers + [container];
      }
    }
    assert lines[..|lines|] == lines;
    return Ok(containers);
  }

  /** `checkContikerUp`: up iff the listing yields at least one container. */
  method CheckContikerUp(output: Result<string, Error>, decode: string -> Option<Container>)
    returns (r: Result<bool, Error>)
    ensures output.Err? ==> r == Err(output.error)
    ensures output.Ok? ==> r == Ok(Parsed(OutputLines(output.value), decode) != [])
    ensures output.Ok? ==> (r == Ok(true) <==>
      exists i :: 0 <= i < |OutputLines(output.value)| &&
        OutputLines(output.value)[i] != "" && decode(OutputLines(output.value)[i]).Some?)
  {
    var containers := QueryDocker(output, decode);
    match containers {
      case Err(e) =>
        return Err(e);
      case Ok(found) =>
        ParsedNonEmpty(OutputLines(output.value), decode);
        return Ok(|found| > 0);
    }
  }

  /** A trimmed text that is not empty starts its first line with a kept character. */
  lemma FirstLineOfTrimmed(output: string)
    requires Trim(output, WhiteSpace) != ""
    ensures OutputLines(output)[0] != ""
  {
    TrimEnds(output, WhiteSpace);
  }

  /** Output that is only white space leaves a single empty line: no line is non-empty. */
  lemma BlankOutputHasNoLine(output: string)
    requires Trim(output, WhiteSpace) == ""
    ensures OutputLines(output) == [""]
    ensures !exists i :: 0 <= i < |OutputLines(output)| && OutputLines(output)[i] != ""
  {
  }

  /**
   * The first-non-empty-line loop of `queryMounts`, as written: it reads
   * `lines[idx]` after each increment without checking the bound, so it
   * needs a non-empty line to exist (otherwise it indexes past the end and
   * panics).
   */
  method FirstNonEmptyLine(lines: seq<string>) returns (idx: nat, line: string)
    requires exists i :: 0 <= i < |lines| && lines[i] != ""
    ensures idx < |lines| && line == lines[idx] && line != ""
    ensures forall k :: 0 <= k < idx ==> lines[k] == ""
  {
    idx := 0;
    line := lines[idx];
    while |line| == 0 && idx < |lines|
      invariant idx < |lines| && line == lines[idx]
      invariant forall k :: 0 <= k < idx ==> lines[k] == ""
      decreases |lines| - idx
    {
      idx := idx + 1;
      line := lines[idx];
    }
  }

  /** The loop as intended: the bound is tested before the line is read. */
  method FirstNonEmptyLineBounded(lines: seq<string>) returns (idx: nat)
    ensures idx <= |lines|
    ensures forall k :: 0 <= k < idx ==> lines[k] == ""
    ensures idx < |lines| ==> lines[idx] != ""
  {
    idx := 0;
    while idx < |lines| && |lines[idx]| == 0
      invariant idx <= |lines|
      invariant forall k :: 0 <= k < idx ==> lines[k] == ""
    {
      idx := idx + 1;
    }
  }

  /** The mounts the inspection reports: none for blank output, else its first line decoded. */
  function MountsResult(output: Result<string, Error>, decode: string -> Option<seq<Mount>>): Result<seq<Mount>, Error> {
    match output
    case Err(e) => Err(e)
    case Ok(text) =>
      if Trim(text, WhiteSpace) == "" then Ok([])
      else
        var line := OutputLines(text)[0];
        match decode(line)
        case None => Err(DecodeFailed(line))
        case Some(mounts) => Ok(mounts)
  }

  /**
   * `queryMounts`, as written. Its precondition is the condition under which
   * the loop does not read past the end: output that is not blank.
   */
  method QueryMounts(output: Result<string, Error>, decode: string -> Option<seq<Mount>>)
    returns (r: Result<seq<Mount>, Error>)
    requires output.Ok? ==> Trim(output.value, WhiteSpace) != ""
    ensures r == MountsResult(output, decode)
  {
    if output.Err? {
      return Err(output.error);
    }
    var lines := SplitLines(Trim(output.value, WhiteSpace));
    // `len(lines) > 0` always holds, and the loop either panics or stops at a
    // non-empty line, so the two "no mounts found" returns cannot be reached.
    FirstLineOfTrimmed(output.value);
    var idx, line := FirstNonEmptyLine(lines);
    match decode(line) {
      case None =>
        return Err(DecodeFailed(line));
      case Some(mounts) =>
        return Ok(mounts);
    }
  }

  /** `queryMounts` with the bounded loop: blank output means no mounts. */
  method QueryMountsBounded(output: Result<string, Error>, decode: string -> Option<seq<Mount>>)
    returns (r: Result<seq<Mount>, Error>)
    ensures r == MountsResult(output, decode)
    ensures output.Ok? && Trim(output.value, WhiteSpace) == "" ==> r == Ok([])
  {
    if output.Err? {
      return Err(output.error);
    }
    var lines := SplitLines(Trim(output.value, WhiteSpace));
    if Trim(output.value, WhiteSpace) != "" {
      FirstLineOfTrimmed(output.value);
    }
    var idx := FirstNonEmptyLineBounded(lines);
    if idx >= |lines| {
      return Ok([]);
    }
    var line := lines[idx];
    match decode(line) {
      case None =>
        return Err(DecodeFailed(line));
      case Some(mounts) =>
        return Ok(mounts);
    }
  }

  /** Some mount has `mount` as its source. */
  predicate HasSource(mounts: seq<Mount>, mount: string) {
    exists i :: 0 <= i < |mounts| && mounts[i].source == mount
  }

  /** The answer `checkContikerUpWithMount` gives for an inspection. */
  function MountedResult(mount: string, output: Result<string, Error>, decode: string -> Option<seq<Mount>>): Result<bool, Error> {
    match MountsResult(output, decode)
    case Err(e) => Err(e)
    case Ok(mounts) => Ok(HasSource(mounts, mount))
  }

  /** `checkContikerUpWithMount`: true iff some mount's source is `mount`, of any mount type. */
  method CheckContikerUpWithMount(mount: string, output: Result<string, Error>, decode: string -> Option<seq<Mount>>)
    returns (r: Result<bool, Error>)
    ensures r == MountedResult(mount, output, decode)
  {
    var found := QueryMountsBounded(output, decode);
    if found.Err? {
      return Err(found.error);
    }
    var mounts := found.value;
    for i := 0 to |mounts|
      invariant forall k :: 0 <= k < i ==> mounts[k].source != mount
    {
      if mounts[i].source == mount {
        return Ok(true);
      }
    }
    return Ok(false);
  }

  /**
   * One answer to the reset prompt: only the four spellings of yes say yes, the
   * four of no and "" (what a failed read leaves) say no, and anything else,
   * "yes" in lower case included, is asked again.
   */
  function ResetAnswer(token: string): (r: Option<bool>)
    ensures r == Some(true) <==> token in ["y", "Y", "Yes", "YES"]
    ensures r == Some(false) <==> token in ["", "n", "N", "No", "NO"]
    ensures token == "yes" || token == "no" ==> r.None?
  {
    if |token| == 0 then Some(false)
    else if token == "y" || token == "Y" || token == "Yes" || token == "YES" then Some(true)
    else if token == "n" || token == "N" || token == "No" || token == "NO" then Some(false)
    else None
  }

  /** What the reset prompt decides: the first recognised token; the end of input means no. */
  function ResetDecision(tokens: seq<string>): bool {
    if tokens == [] then false
    else
      match ResetAnswer(tokens[0])
      case Some(b) => b
      case None => ResetDecision(tokens[1..])
  }

  /**
   * `askReset`: reads whitespace-separated tokens until one is recognised.
   * When the input ends (the read fails and leaves ""), the answer is no.
   */
  method AskReset(tokens: seq<string>) returns (answer: bool, decidedAt: nat)
    ensures answer == ResetDecision(tokens)
    ensures decidedAt <= |tokens|
    ensures forall k :: 0 <= k < decidedAt ==> ResetAnswer(tokens[k]).None?
    ensures decidedAt < |tokens| ==> ResetAnswer(tokens[decidedAt]) == Some(answer)
    ensures decidedAt == |tokens| ==> !answer
  {
    var i := 0;
    while i < |tokens|
      invariant 0 <= i <= |tokens|
      invariant forall k :: 0 <= k < i ==> ResetAnswer(tokens[k]).None?
      invariant ResetDecision(tokens[i..]) == ResetDecision(tokens)
    {
      var token := tokens[i];
      assert tokens[i..][0] == token && tokens[i..][1..] == tokens[i + 1..];
      if |token| == 0 {
        return false, i;
      } else if token == "y" || token == "Y" || token == "Yes" || token == "YES" {
        return true, i;
      } else if token == "n" || token == "N" || token == "No" || token == "NO" {
        return false, i;
      }
      // "Invalid answer": ask again
      i := i + 1;
    }
    return false, |tokens|;
  }

  /** The host directory to mount: the volume flag when given, else `CNG_PATH`. */
  function MountedPath(volume: string, cngPath: string): (p: string)
    ensures |volume| > 0 ==> p == volume
    ensures |volume| == 0 ==> p == cngPath
  {
    if |volume| > 0 then volume else cngPath
  }

  /** The uid and gid: "0"/"0" for root, the current user's, or "1000"/"1000" when it cannot be found. */
  function UserIds(isRoot: bool, currentUser: Option<(string, string)>): (ids: (string, string))
    ensures isRoot ==> ids == ("0", "0")
    ensures !isRoot && currentUser.None? ==> ids == ("1000", "1000")
    ensures !isRoot && currentUser.Some? ==> ids == currentUser.value
  {
    if isRoot then ("0", "0")
    else
      match currentUser
      case None => ("1000", "1000")
      case Some(ids) => ids
  }

  /** The image the container runs. */
  const Image := "contiker/contiki-ng"

  const JdkOptions := "JDK_JAVA_OPTIONS='-Dawt.useSystemAAFontSettings=on -Dswing.aatext=true -Dswing.defaultlaf=com.sun.java.swing.plaf.gtk.GTKLookAndFeel -Dsun.java2d.opengl=true'"

  /**
   * The `docker run` that starts the contiker container: detached, removed on
   * exit, named contiker, with the user's ids and the display in its
   * environment and the chosen host directory bind-mounted as the Contiki-NG tree.
   */
  function RunArgv(display: string, uid: string, gid: string, mountedPath: string): (argv: Argv)
    ensures |argv| == 28 && argv[0] == "docker" && argv[1] == "run" && argv[3] == "contiker"
    ensures argv[12] == "DISPLAY=" + display
    ensures argv[16] == "LOCAL_UID=" + uid && argv[18] == "LOCAL_GID=" + gid
    ensures argv[25] == "--mount" && argv[26] == "type=bind,source=" + mountedPath + ",destination=/home/user/contiki-ng"
    ensures argv[27] == Image
  {
    var head := ["docker", "run", "--name", "contiker", "-it", "--rm", "-d", "--privileged", "--ipc=host", "--network", "host"];
    var env := ["-e", "DISPLAY=" + display, "-e", "_JAVA_AWT_WM_NONREPARENTING=1",
      "-e", "LOCAL_UID=" + uid, "-e", "LOCAL_GID=" + gid, "-e", JdkOptions];
    var volumes := ["-v", "/dev/:/dev/", "-v", "/tmp/.X11-unix:/tmp/.X11-unix",
      "--mount", "type=bind,source=" + mountedPath + ",destination=/home/user/contiki-ng", Image];
    head + env + volumes
  }

  /** The `docker exec` that runs the start command in the contiker container as "<uid>:<gid>". */
  function ExecArgv(uid: string, gid: string, startCmd: string): (argv: Argv)
    ensures |argv| == 7 && argv[0] == "docker" && argv[1] == "exec"
    ensures argv[2] == "--user" && argv[3] == uid + ":" + gid
    ensures argv[5] == "contiker" && argv[6] == startCmd
  {
    ["docker", "exec", "--user", uid + ":" + gid, "-it", "contiker", startCmd]
  }

  /**
   * What the launcher finds on the host: the environment variables, the
   * absolute-path and current-user lookups, the output of the two docker
   * queries with their JSON decoders, and the tokens typed at the prompt.
   */
  datatype Host = Host(
    display: string,
    cngPath: string,
    abs: string -> Option<string>,
    currentUser: Option<(string, string)>,
    lsOutput: Result<string, Error>,
    decodeContainer: string -> Option<Container>,
    inspectOutput: Result<string, Error>,
    decodeMounts: string -> Option<seq<Mount>>,
    tokens: seq<string>)

  /** The path compared against the container's mounts: the absolute form, or "" when that fails. */
  function AbsMountedPath(h: Host, volume: string): string {
    h.abs(MountedPath(volume, h.cngPath)).GetOr("")
  }

  /** Whether `execDocker` finds the container up; an error ends the launcher. */
  function UpResult(h: Host): Result<bool, Error> {
    match h.lsOutput
    case Err(e) => Err(e)
    case Ok(text) => Ok(Parsed(OutputLines(text), h.decodeContainer) != [])
  }

  /**
   * The processes `execDocker` spawns, and whether it ends the launcher with
   * exit status -1, given what `checkContikerUp` and `checkContikerUpWithMount`
   * report, what the reset prompt decides, and the `docker run` and
   * `docker exec` it would use.
   */
  function Launch(up: Result<bool, Error>, mounted: Result<bool, Error>, reset: bool, run: Argv, exec: Argv): (seq<Argv>, bool) {
    match up
    case Err(_) => ([LsArgv], true)
    case Ok(isUp) =>
      var probed := if isUp then [LsArgv] + [InspectArgv] else [LsArgv];
      if isUp && mounted.Err? then (probed, true)
      else
        var removed := isUp && mounted == Ok(false) && reset;
        var listed := if removed then probed + [RmArgv] else probed;
        var started := if !isUp || removed then listed + [run] else listed;
        (started + [exec], false)
  }

  /** The processes `execDocker` spawns, and whether it ends the launcher with exit status -1. */
  function ExecDockerTrace(h: Host, volume: string, startCmd: string, isRoot: bool): (seq<Argv>, bool)
  {
    var ids := UserIds(isRoot, h.currentUser);
    Launch(UpResult(h), MountedResult(AbsMountedPath(h, volume), h.inspectOutput, h.decodeMounts), ResetDecision(h.tokens),
      RunArgv(h.display, ids.0, ids.1, MountedPath(volume, h.cngPath)), ExecArgv(ids.0, ids.1, startCmd))
  }

  /** The five paths through `execDocker`, each with the processes it spawns. */
  lemma LaunchPaths(up: Result<bool, Error>, mounted: Result<bool, Error>, reset: bool, run: Argv, exec: Argv)
    ensures var r := Launch(up, mounted, reset, run, exec);
      (up.Err? ==> r == ([LsArgv], true)) &&
      (up == Ok(false) ==> r == ([LsArgv, run, exec], false)) &&
      (up == Ok(true) && mounted.Err? ==> r == ([LsArgv, InspectArgv], true)) &&
      (up == Ok(true) && mounted == Ok(false) && reset ==> r == ([LsArgv, InspectArgv, RmArgv, run, exec], false)) &&
      (up == Ok(true) && mounted.Ok? && !(mounted == Ok(false) && reset) ==> r == ([LsArgv, InspectArgv, exec], false))
  {
    assert [LsArgv] + [InspectArgv] == [LsArgv, InspectArgv];
    assert [LsArgv] + [run] + [exec] == [LsArgv, run, exec];
    assert [LsArgv] + [InspectArgv] + [RmArgv] + [run] + [exec] == [LsArgv, InspectArgv, RmArgv, run, exec];
    assert [LsArgv] + [InspectArgv] + [exec] == [LsArgv, InspectArgv, exec];
  }

  /** The launcher exits after `docker ls` fails, or after the mount query of a running container fails. */
  lemma ExecDockerExits(h: Host, volume: string, startCmd: string, isRoot: bool)
    ensures var (trace, exited) := ExecDockerTrace(h, volume, startCmd, isRoot);
      trace[0] == LsArgv &&
      (exited <==>
        UpResult(h).Err? ||
        (UpResult(h) == Ok(true) && MountedResult(AbsMountedPath(h, volume), h.inspectOutput, h.decodeMounts).Err?))
  {
    var ids := UserIds(isRoot, h.currentUser);
    var run := RunArgv(h.display, ids.0, ids.1, MountedPath(volume, h.cngPath));
    var exec := ExecArgv(ids.0, ids.1, startCmd);
    LaunchPaths(UpResult(h), MountedResult(AbsMountedPath(h, volume), h.inspectOutput, h.decodeMounts),
      ResetDecision(h.tokens), run, exec);
  }

  /** Unless the launcher exits, the last process is the start command, run as the chosen user; otherwise it is never run. */
  lemma ExecDockerEndsInExec(h: Host, volume: string, startCmd: string, isRoot: bool)
    ensures var (trace, exited) := ExecDockerTrace(h, volume, startCmd, isRoot);
      var (uid, gid) := UserIds(isRoot, h.currentUser);
      (exited ==> ExecArgv(uid, gid, startCmd) !in trace) &&
      (!exited ==> trace[|trace| - 1] == ExecArgv(uid, gid, startCmd))
  {
    var ids := UserIds(isRoot, h.currentUser);
    var run := RunArgv(h.display, ids.0, ids.1, MountedPath(volume, h.cngPath));
    var exec := ExecArgv(ids.0, ids.1, startCmd);
    ArgvsDistinct(run, exec);
    LaunchPaths(UpResult(h), MountedResult(AbsMountedPath(h, volume), h.inspectOutput, h.decodeMounts),
      ResetDecision(h.tokens), run, exec);
  }

  /**
   * The container is removed exactly when it runs without the path mounted
   * and the user agrees to reset it, and started exactly when it was down or
   * has just been removed.
   */
  lemma ExecDockerResets(h: Host, volume: string, startCmd: string, isRoot: bool)
    ensures var (trace, exited) := ExecDockerTrace(h, volume, startCmd, isRoot);
      var ids := UserIds(isRoot, h.currentUser);
      var mounted := MountedResult(AbsMountedPath(h, volume), h.inspectOutput, h.decodeMounts);
      var reset := UpResult(h) == Ok(true) && mounted == Ok(false) && ResetDecision(h.tokens);
      (RmArgv in trace <==> reset) &&
      (RunArgv(h.display, ids.0, ids.1, MountedPath(volume, h.cngPath)) in trace <==> UpResult(h) == Ok(false) || reset)
  {
    var ids := UserIds(isRoot, h.currentUser);
    var run := RunArgv(h.display, ids.0, ids.1, MountedPath(volume, h.cngPath));
    var exec := ExecArgv(ids.0, ids.1, startCmd);
    ArgvsDistinct(run, exec);
    LaunchPaths(UpResult(h), MountedResult(AbsMountedPath(h, volume), h.inspectOutput, h.decodeMounts),
      ResetDecision(h.tokens), run, exec);
  }

  /** The five commands differ in their second or third argument. */
  lemma ArgvsDistinct(run: Argv, exec: Argv)
    requires run != [] && run[1..] != [] && run[1] == "run"
    requires exec != [] && exec[1..] != [] && exec[1] == "exec"
    ensures RmArgv != LsArgv && RmArgv != InspectArgv && RmArgv != run && RmArgv != exec
    ensures exec != LsArgv && exec != InspectArgv && exec != run
    ensures run != LsArgv && run != InspectArgv
  {
    assert LsArgv[1] == "container" && LsArgv[2] == "ls";
    assert RmArgv[1] == "container" && RmArgv[2] == "rm";
    assert InspectArgv[1] == "inspect";
  }

  /** A container already up with the path mounted is reused: nothing is removed or started. */
  lemma MountedContainerReused(h: Host, volume: string, startCmd: string, isRoot: bool)
    requires UpResult(h) == Ok(true)
    requires MountedResult(AbsMountedPath(h, volume), h.inspectOutput, h.decodeMounts) == Ok(true)
    ensures ExecDockerTrace(h, volume, startCmd, isRoot).0 ==
      [LsArgv, InspectArgv, ExecArgv(UserIds(isRoot, h.currentUser).0, UserIds(isRoot, h.currentUser).1, startCmd)]
  {
  }

  /**
   * `execDocker`. The container's mounts are queried with the bounded loop.
   * `exited` is the launcher ending with `os.Exit(-1)`.
   */
  method ExecDocker(h: Host, volume: string, startCmd: string, isRoot: bool)
    returns (trace: seq<Argv>, exited: bool)
    ensures (trace, exited) == ExecDockerTrace(h, volume, startCmd, isRoot)
  {
    var mountedPath := if |volume| > 0 then volume else h.cngPath;
    var absMountedPath := h.abs(mountedPath).GetOr("");  // an error is printed and "" used

    var userUid: string;
    var userGid: string;
    if isRoot {
      userUid, userGid := "0", "0";
    } else {
      match h.currentUser {
        case None =>
          userUid, userGid := "1000", "1000";
        case Some(ids) =>
          userUid, userGid := ids.0, ids.1;
      }
    }

    assert (userUid, userGid) == UserIds(isRoot, h.currentUser);
    assert mountedPath == MountedPath(volume, h.cngPath);
    assert absMountedPath == AbsMountedPath(h, volume);
    trace, exited := StartContainer(h, absMountedPath,
      RunArgv(h.display, userUid, userGid, mountedPath), ExecArgv(userUid, userGid, startCmd));
  }

  /**
   * The docker half of `execDocker`: checks for the container and its mount,
   * asks about a reset, and spawns `rm`, `run` and `exec` as needed.
   */
  method StartContainer(h: Host, absMountedPath: string, run: Argv, exec: Argv)
    returns (trace: seq<Argv>, exited: bool)
    ensures (trace, exited) ==
      Launch(UpResult(h), MountedResult(absMountedPath, h.inspectOutput, h.decodeMounts), ResetDecision(h.tokens), run, exec)
  {
    trace := [LsArgv];
    var up := CheckContikerUp(h.lsOutput, h.decodeContainer);
    if up.Err? {
      return trace, true;
    }
    var isUp := up.value;

    if isUp {
      trace := trace + [InspectArgv];
      var hasMountedPath := CheckContikerUpWithMount(absMountedPath, h.inspectOutput, h.decodeMounts);
      if hasMountedPath.Err? {
        return trace, true;
      }
      if !hasMountedPath.value {
        var reset, _ := AskReset(h.tokens);
        if reset {
          trace := trace + [RmArgv];
          isUp := false;
        }
      }
    }

    if !isUp {
      trace := trace + [run];
    }
    trace := trace + [exec];
    exited := false;
  }
}
