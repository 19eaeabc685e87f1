/**
 * The command context: where a command runs. The Go interface `CC` has two
 * implementations, the host (`DefaultCC`) and a running container addressed by
 * name (`DockerCC`); here they are the two variants of `Context`, and every
 * operation dispatches on the variant.
 */
module CommandContext {
  import opened Wrappers
  import opened Process

  datatype Context = Default | Docker(containerName: string)

  /** `NewDefault()`: the stateless host context, which runs every command as given and probes nothing. */
  function NewDefault(): (c: Context)
    ensures forall name, args :: Invocation(c, name, args) == [name] + args
    ensures forall name :: Probes(c, name) == []
  {
    Default
  }

  /**
   * `NewDocker(name)`: the container context. The name is fixed here, and every
   * command and every probe of the context goes through that container.
   */
  function NewDocker(containerName: string): (c: Context)
    ensures c.Docker? && c.containerName == containerName
    ensures forall name, args :: Invocation(c, name, args)[..4] == ["docker", "exec", "-it", containerName]
    ensures forall name :: Probes(c, name) == [WhichProbe(containerName, name)]
  {
    Docker(containerName)
  }

  /** The argv a context actually spawns to run `name` with `args`. */
  function Invocation(ctx: Context, name: string, args: seq<string>): (argv: Argv)
    ensures |argv| == |args| + (if ctx.Docker? then 5 else 1)
    ensures argv[|argv| - |args| - 1] == name && argv[|argv| - |args|..] == args
    ensures ctx.Docker? ==> argv[..4] == ["docker", "exec", "-it", ctx.containerName]
  {
    match ctx
    case Default => [name] + args
    case Docker(containerName) => ["docker", "exec", "-it", containerName, name] + args
  }

  /** Recovers the program and its arguments from an argv spawned by `ctx`. */
  function Unwrap(ctx: Context, argv: Argv): Option<(string, seq<string>)> {
    match ctx
    case Default =>
      if |argv| >= 1 then Some((argv[0], argv[1..])) else None
    case Docker(containerName) =>
      if |argv| >= 5 && argv[..4] == ["docker", "exec", "-it", containerName]
      then Some((argv[4], argv[5..]))
      else None
  }

  /** Unwrapping an invocation gives back exactly the program and arguments given to `Run`. */
  lemma UnwrapInvocation(ctx: Context, name: string, args: seq<string>)
    ensures Unwrap(ctx, Invocation(ctx, name, args)) == Some((name, args))
  {
    var argv := Invocation(ctx, name, args);
    assert argv[|argv| - |args|..] == args;
  }

  /** Two different commands never share an invocation: the wrapping loses nothing. */
  lemma InvocationInjective(ctx: Context, n1: string, a1: seq<string>, n2: string, a2: seq<string>)
    requires Invocation(ctx, n1, a1) == Invocation(ctx, n2, a2)
    ensures n1 == n2 && a1 == a2
  {
    UnwrapInvocation(ctx, n1, a1);
    UnwrapInvocation(ctx, n2, a2);
  }

  /** `cc.Run(name, args...)`: spawns the one invocation and returns its result unchanged. */
  function Run(ctx: Context, w: World, name: string, args: seq<string>): (r: Step<Outcome>)
    ensures r.trace == [Invocation(ctx, name, args)]
    ensures r.value.Ok? <==> w.status(Invocation(ctx, name, args)) == Exited(0)
    ensures r.value.Err? ==> r.value.error == ExecFailed(Invocation(ctx, name, args), w.status(Invocation(ctx, name, args)))
  {
    Spawn(w, Invocation(ctx, name, args))
  }

  /** The `which` probe the container context runs. */
  function WhichProbe(containerName: string, name: string): Argv {
    ["docker", "exec", "-it", containerName, "which", name]
  }

  /** The probe is an ordinary invocation of `which` through the same indirection as `Run`. */
  lemma WhichProbeIsInvocation(containerName: string, name: string)
    ensures WhichProbe(containerName, name) == Invocation(Docker(containerName), "which", [name])
  {
  }

  /** The processes a context spawns to answer an existence question: none on the host. */
  function Probes(ctx: Context, name: string): seq<Argv> {
    match ctx
    case Default => []
    case Docker(containerName) => [WhichProbe(containerName, name)]
  }

  /** `cc.CommandExists(name)`. */
  function CommandExists(ctx: Context, w: World, name: string): (r: Step<Result<bool, Error>>)
    ensures r.trace == Probes(ctx, name)
    ensures ctx.Default? ==> r.value == Ok(w.onPath(name))
    ensures ctx.Docker? ==>
      (r.value == Ok(true) <==> w.status(WhichProbe(ctx.containerName, name)) == Exited(0))
    ensures ctx.Docker? ==>
      (r.value == Ok(false) <==> w.status(WhichProbe(ctx.containerName, name)) == Exited(1))
    ensures r.value.Err? ==> r.value.error == LookupFailed
  {
    match ctx
    case Default =>
      Step(Ok(w.onPath(name)), [])
    case Docker(containerName) =>
      var probe := WhichProbe(containerName, name);
      var code := ExitCode(w.status(probe));
      if code == 0 then Step(Ok(true), [probe])
      else if code == 1 then Step(Ok(false), [probe])
      else Step(Err(LookupFailed), [probe])
  }

  /** Every exit other than 0 and 1, a probe that never ran included, is a lookup error. */
  lemma ProbeErrorCases(containerName: string, w: World, name: string)
    ensures CommandExists(Docker(containerName), w, name).value.Err? <==>
      w.status(WhichProbe(containerName, name)) !in {Exited(0), Exited(1)}
    ensures w.status(WhichProbe(containerName, name)) == NotStarted ==>
      CommandExists(Docker(containerName), w, name).value == Err(LookupFailed)
  {
  }
}
