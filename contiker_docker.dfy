/**
 * The Rust Docker client of contiker: the summary of the contiker container,
 * its mounts, the users commands run as, the restart prompt, the image pull
 * decision and the exec request. The Docker daemon is an oracle: its answers
 * (the container list, the image list) are parameters, and the one process
 * this part spawns, `docker pull`, goes through `Process.World`.
 */
module ContikerDocker {
  import opened Wrappers
  import opened Text
  import P = Process

  newtype u32 = x: int | 0 <= x < 0x1_0000_0000

  /** The mount types Docker reports; `MountPointTypeEnum`. */
  datatype MountType = EmptyType | Bind | VolumeType | ImageType | Tmpfs | Npipe | Cluster

  /** The fields of a `MountPoint` the model reads; every one is optional in the API. */
  datatype MountPoint = MountPoint(typ: Option<MountType>, source: Option<string>, destination: Option<string>)

  /** `ContainerSummaryStateEnum`. */
  datatype ContainerState = EmptyState | Created | Running | Paused | Restarting | Removing | ExitedState | Dead

  /** The part of the daemon's `ContainerSummary` that is consulted. */
  datatype ContainerSummary = ContainerSummary(id: Option<string>, state: Option<ContainerState>, mounts: Option<seq<MountPoint>>)

  /** `ContainerInfo`: a summary whose consulted fields are all present. */
  datatype ContainerInfo = ContainerInfo(id: string, state: ContainerState, mounts: seq<MountPoint>)

  /** The host directory `p` is bind-mounted by one of `mounts`. */
  function AnyBindAt(mounts: seq<MountPoint>, p: string): (r: bool)
    ensures r <==> exists i :: 0 <= i < |mounts| && mounts[i].typ == Some(Bind) && mounts[i].source == Some(p)
  {
    if mounts == [] then false
    else (mounts[0].typ == Some(Bind) && mounts[0].source == Some(p)) || AnyBindAt(mounts[1..], p)
  }

  /** `ContainerInfo::has_mount`: some bind mount of the container has `p` as its source. */
  function HasMount(info: ContainerInfo, p: string): (r: bool)
    ensures r <==> exists i :: 0 <= i < |info.mounts| && info.mounts[i].typ == Some(Bind) && info.mounts[i].source == Some(p)
  {
    AnyBindAt(info.mounts, p)
  }

  /** A mount of any other type at the same source does not count. */
  lemma OnlyBindMountsCount(info: ContainerInfo, m: MountPoint, p: string)
    requires m.typ != Some(Bind)
    ensures HasMount(ContainerInfo(info.id, info.state, info.mounts + [m]), p) == HasMount(info, p)
  {
    var longer := info.mounts + [m];
    if HasMount(ContainerInfo(info.id, info.state, longer), p) {
      var i :| 0 <= i < |longer| && longer[i].typ == Some(Bind) && longer[i].source == Some(p);
      assert i < |info.mounts| && info.mounts[i] == longer[i];
    }
    if HasMount(info, p) {
      var i :| 0 <= i < |info.mounts| && info.mounts[i].typ == Some(Bind) && info.mounts[i].source == Some(p);
      assert longer[i] == info.mounts[i];
    }
  }

  /** `TryFrom<ContainerSummary>`: the first missing field, in the order id, state, mounts, is the error. */
  function FromSummary(s: ContainerSummary): (r: Result<ContainerInfo, string>)
    ensures r.Ok? <==> s.id.Some? && s.state.Some? && s.mounts.Some?
    ensures r.Ok? ==> r.value == ContainerInfo(s.id.value, s.state.value, s.mounts.value)
    ensures s.id.None? ==> r == Err("no id found")
    ensures s.id.Some? && s.state.None? ==> r == Err("no status found")
    ensures s.id.Some? && s.state.Some? && s.mounts.None? ==> r == Err("no mountpoints found")
  {
    match (s.id, s.state, s.mounts)
    case (None, _, _) => Err("no id found")
    case (Some(_), None, _) => Err("no status found")
    case (Some(_), Some(_), None) => Err("no mountpoints found")
    case (Some(id), Some(state), Some(mounts)) => Ok(ContainerInfo(id, state, mounts))
  }

  /** The summary the daemon would report for a container. */
  function ToSummary(info: ContainerInfo): ContainerSummary {
    ContainerSummary(Some(info.id), Some(info.state), Some(info.mounts))
  }

  /** Converting a full summary loses nothing. */
  lemma FromToSummary(info: ContainerInfo)
    ensures FromSummary(ToSummary(info)) == Ok(info)
  {
  }

  /** `query_docker` on the daemon's answer to the container listing. */
  function QueryDocker(listed: Result<seq<ContainerSummary>, string>): (r: Result<Option<ContainerInfo>, string>)
    ensures listed.Err? ==> r == Err("while querying docker for the contiker container")
    ensures listed.Ok? && listed.value == [] ==> r == Ok(None)
    ensures listed.Ok? && listed.value != [] ==>
      match FromSummary(listed.value[0])
      case Ok(info) => r == Ok(Some(info))
      case Err(e) => r == Err(e)
  {
    match listed
    case Err(_) => Err("while querying docker for the contiker container")
    case Ok(containers) =>
      if |containers| == 0 then Ok(None)
      else
        // one match, or several and a warning: the first one is used either way
        match FromSummary(containers[0])
        case Ok(info) => Ok(Some(info))
        case Err(e) => Err(e)
  }

  /** With several matches only the first is read: the others never change the result. */
  lemma OnlyFirstContainerMatters(a: seq<ContainerSummary>, b: seq<ContainerSummary>)
    requires a != [] && b != [] && a[0] == b[0]
    ensures QueryDocker(Ok(a)) == QueryDocker(Ok(b))
  {
  }

  /** `is_up`: the query found a container. */
  function IsUp(listed: Result<seq<ContainerSummary>, string>): (r: Result<bool, string>)
    ensures r == Ok(true) <==> listed.Ok? && listed.value != [] && FromSummary(listed.value[0]).Ok?
    ensures r == Ok(false) <==> listed == Ok([])
  {
    match QueryDocker(listed)
    case Ok(found) => Ok(found.Some?)
    case Err(e) => Err(e)
  }

  /** A user to run commands as, by numeric ids. */
  datatype User = User(uid: u32, gid: u32)

  /** `User::root()`: uid and gid 0, which the daemon receives as "0:0". */
  function Root(): (r: User)
    ensures r.uid == 0 && r.gid == 0
    ensures UserSpec(r) == "0:0"
  {
    SmallNumerals();
    User(0, 0)
  }

  /** `User::default()`: uid and gid 1000, which the daemon receives as "1000:1000". */
  function DefaultUser(): (r: User)
    ensures r.uid == 1000 && r.gid == 1000
    ensures UserSpec(r) == "1000:1000"
  {
    SmallNumerals();
    User(1000, 1000)
  }

  /** The "uid:gid" string the exec request carries. */
  function UserSpec(u: User): (s: string)
    ensures ParseIdPair(s) == Some((u.uid as nat, u.gid as nat))
  {
    IdPairRoundTrip(u.uid as nat, u.gid as nat);
    NatToString(u.uid as nat) + ":" + NatToString(u.gid as nat)
  }

  /** The numerals of the two ids above. */
  lemma SmallNumerals()
    ensures NatToString(0) == "0" && NatToString(1000) == "1000"
  {
    assert DigitChar(0) == '0' && DigitChar(1) == '1';
    assert NatToString(1) == "1";
    assert NatToString(10) == NatToString(1) + "0";
    assert NatToString(100) == NatToString(10) + "0";
    assert NatToString(1000) == NatToString(100) + "0";
  }

  /** What `exec_docker` asks the daemon to run inside the container. */
  datatype ExecRequest = ExecRequest(cmd: seq<string>, user: string)

  /** The command and user of the exec: `bash` stands in for an empty command. */
  function ExecDockerRequest(cmd: seq<string>, user: User): (r: ExecRequest)
    ensures r.cmd != []
    ensures cmd != [] ==> r.cmd == cmd
    ensures cmd == [] ==> r.cmd == ["bash"]
    ensures ParseIdPair(r.user) == Some((user.uid as nat, user.gid as nat))
  {
    ExecRequest(if cmd == [] then ["bash"] else cmd, UserSpec(user))
  }

  /** The image the launcher runs. */
  const Image := "contiker/contiki-ng"

  /** The argv of the pull. */
  function PullArgv(): P.Argv {
    ["docker", "pull", Image]
  }

  /**
   * `pull_contiker_container(use_cache)`. `listed` is the daemon's answer to
   * the image listing, consulted only when the cache may be used; `trace` is
   * the processes spawned.
   */
  method PullContikerContainer(useCache: bool, listed: Result<seq<string>, string>, w: P.World)
    returns (r: Result<(), string>, trace: seq<P.Argv>)
    ensures useCache && listed.Err? ==> r == Err("while listing available images") && trace == []
    ensures trace == [PullArgv()] <==> !useCache || listed == Ok([])
    ensures trace == [] || trace == [PullArgv()]
    ensures trace == [] && !(useCache && listed.Err?) ==> r == Ok(())
    ensures trace != [] ==>
      match w.status(PullArgv())
      case NotStarted => r == Err("while pulling the contiker image")
      case Exited(c) => r == (if c == 0 then Ok(()) else Err("pull command did not finish succesfully"))
      case Signaled => r == Err("pull command did not finish succesfully")
  {
    var needsPulling := true;
    trace := [];
    if useCache {
      match listed {
        case Err(_) =>
          return Err("while listing available images"), trace;
        case Ok(images) =>
          var hasContikerImage := images != [];
          needsPulling := !hasContikerImage;
      }
    }
    if needsPulling {
      trace := trace + [PullArgv()];
      var status := w.status(PullArgv());
      if status.NotStarted? {
        return Err("while pulling the contiker image"), trace;
      }
      if status != P.Exited(0) {
        return Err("pull command did not finish succesfully"), trace;
      }
    }
    return Ok(()), trace;
  }

  /** `"yes".starts_with(t)`, then `"no".starts_with(t)`: the answer a trimmed text gives, if any. */
  function YesNo(t: string): Option<bool> {
    if StartsWith("yes", t) then Some(true)
    else if StartsWith("no", t) then Some(false)
    else None
  }

  /** Exactly "", "y", "ye" and "yes" mean yes; exactly "n" and "no" mean no. */
  lemma YesNoCases(t: string)
    ensures YesNo(t) == Some(true) <==> t == "" || t == "y" || t == "ye" || t == "yes"
    ensures YesNo(t) == Some(false) <==> t == "n" || t == "no"
  {
    StartsWithIsPrefix("yes", t);
    StartsWithIsPrefix("no", t);
    if t <= "yes" {
      assert t == "yes"[..|t|];
      assert |t| == 0 || |t| == 1 || |t| == 2 || |t| == 3;
    } else if t <= "no" {
      assert t == "no"[..|t|];
      assert |t| == 1 || |t| == 2;
    }
  }

  /** Every recognised answer extends no further than "yes": a longer text is never one. */
  lemma RejectedStaysRejected(t: string, u: string)
    requires YesNo(t).None? && t <= u
    ensures YesNo(u).None?
  {
    StartsWithIsPrefix("yes", t);
    StartsWithIsPrefix("no", t);
    StartsWithIsPrefix("yes", u);
    StartsWithIsPrefix("no", u);
  }

  /** The answer a line read from the terminal gives, once trimmed. */
  function Answer(line: string): Option<bool> {
    YesNo(Trim(line, WhiteSpace))
  }

  /** Everything read so far: `read_line` appends to the buffer. */
  function Concat(lines: seq<string>): string {
    if lines == [] then "" else Concat(lines[..|lines| - 1]) + lines[|lines| - 1]
  }

  /** The buffer after the first line is that line followed by the rest. */
  lemma {:induction false} ConcatFirst(lines: seq<string>)
    requires lines != []
    ensures Concat(lines) == lines[0] + Concat(lines[1..])
  {
    if |lines| > 1 {
      var front := lines[..|lines| - 1];
      ConcatFirst(front);
      assert front[1..] == lines[1..][..|lines[1..]| - 1];
    } else {
      assert lines[..0] == [];
    }
  }

  /** The buffer after `k` reads: reads at the end of input add nothing. */
  function Buffer(lines: seq<string>, k: nat): string {
    Concat(lines[..if k < |lines| then k else |lines|])
  }

  /** One more read appends the next line, or nothing at the end of input. */
  lemma BufferStep(lines: seq<string>, k: nat)
    ensures Buffer(lines, k + 1) == Buffer(lines, k) + (if k < |lines| then lines[k] else "")
  {
    if k < |lines| {
      assert lines[..k + 1][..k] == lines[..k];
    }
  }

  /** The answer the restart prompt makes of the buffer at its k-th read (k >= 1). */
  function Decide(lines: seq<string>, k: nat): Option<bool> {
    Answer(Buffer(lines, k))
  }

  /**
   * The restart prompt of `exec`, as written: every read appends to the same
   * buffer, which is trimmed and tested. `readCount` is the number of reads; when
   * `answer` is None the prompt spins for ever.
   */
  method PromptRestart(lines: seq<string>) returns (answer: Option<bool>, readCount: nat)
    ensures 1 <= readCount <= |lines| + 1
    ensures forall k :: 1 <= k < readCount ==> Decide(lines, k).None?
    ensures answer == Decide(lines, readCount)
    ensures answer.None? ==> readCount == |lines| + 1
  {
    var buffer := "";
    var validAnswer := false;
    var answerResult := false;
    var i := 0;
    while !validAnswer && i <= |lines|
      invariant 0 <= i <= |lines| + 1
      invariant buffer == Buffer(lines, i)
      invariant forall k :: 1 <= k < i ==> Decide(lines, k).None?
      invariant !validAnswer && i >= 1 ==> Decide(lines, i).None?
      invariant validAnswer ==> i >= 1 && Decide(lines, i) == Some(answerResult)
      decreases |lines| + 1 - i, !validAnswer
    {
      BufferStep(lines, i);
      var line := if i < |lines| then lines[i] else "";  // at end of input nothing is read
      buffer := buffer + line;
      var verdict := Answer(buffer);
      if verdict.Some? {
        answerResult := verdict.value;
        validAnswer := true;
      }
      i := i + 1;
    }
    if validAnswer {
      return Some(answerResult), i;
    }
    return None, |lines| + 1;
  }

  /**
   * The defect of the buffer that is never cleared: once the first line is
   * rejected, no later read is accepted, whatever it holds.
   */
  lemma StuckAfterRejectedAnswer(lines: seq<string>)
    requires lines != [] && Answer(lines[0]).None?
    ensures forall k :: 1 <= k <= |lines| + 1 ==> Decide(lines, k).None?
  {
    var t := Trim(lines[0], WhiteSpace);
    assert t != [];
    forall k | 1 <= k <= |lines| + 1
      ensures Decide(lines, k).None?
    {
      var n := if k < |lines| then k else |lines|;
      var read := lines[..n];
      ConcatFirst(read);
      assert read[0] == lines[0];
      TrimExtends(lines[0], Concat(read[1..]), WhiteSpace);
      RejectedStaysRejected(t, Trim(Concat(read), WhiteSpace));
    }
  }

  /** "maybe" then "y": the written prompt never accepts the second answer. */
  lemma MaybeThenYesScenario()
    ensures Decide(["maybe\n", "y\n"], 1).None?
    ensures Decide(["maybe\n", "y\n"], 2).None?
    ensures Decide(["maybe\n", "y\n"], 3).None?
  {
    var lines := ["maybe\n", "y\n"];
    var t := Trim(lines[0], WhiteSpace);
    assert TrimStart(lines[0], WhiteSpace) == lines[0];
    assert TrimEnd(lines[0], WhiteSpace) == "maybe" by {
      TrimEndSkips(lines[0], 4, WhiteSpace);
    }
    assert t[0] == 'm';
    StuckAfterRejectedAnswer(lines);
  }

  /**
   * The restart prompt as intended: each read is tested on its own. The end of
   * input reads an empty answer, which means yes.
   */
  method PromptRestartCleared(lines: seq<string>) returns (answer: Option<bool>, decidedAt: nat)
    ensures decidedAt <= |lines|
    ensures forall k :: 0 <= k < decidedAt ==> Answer(lines[k]).None?
    ensures decidedAt < |lines| ==> answer == Answer(lines[decidedAt]) && answer.Some?
    ensures decidedAt == |lines| ==> answer == Some(true)
  {
    var i := 0;
    while i < |lines|
      invariant 0 <= i <= |lines|
      invariant forall k :: 0 <= k < i ==> Answer(lines[k]).None?
    {
      var answerResult := Answer(lines[i]);
      if answerResult.Some? {
        return answerResult, i;
      }
      i := i + 1;
    }
    assert Trim("", WhiteSpace) == "";
    return Some(true), |lines|;
  }
}
