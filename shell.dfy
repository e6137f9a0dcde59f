/**
 * The shell tool of src/tools/shell.ts: the allowlist gate in front of the
 * command, the tool description, the result record of `executeShell`, and
 * the registration. Spawning `sh -c` is the parameter `spawn`: what the
 * process reported, or the message of what the spawn threw.
 */
module Shell {
  import opened Common
  import opened AgentLoop
  import opened Registry

  /** The arguments after the schema's default: `timeout` is 30000 ms when absent. */
  datatype ShellArgs = ShellArgs(command: string, timeout: int)

  const DefaultTimeout := 30000

  function ParseShellArgs(command: string, timeout: Option<int>): (a: ShellArgs)
    ensures a.command == command && a.timeout == timeout.GetOr(DefaultTimeout)
  {
    ShellArgs(command, timeout.GetOr(DefaultTimeout))
  }

  /** What `Bun.spawnSync(['sh', '-c', command], ...)` did. */
  datatype Spawn = Spawned(stdout: string, stderr: string, exitCode: int) | SpawnThrew(message: string)

  /** The records the tool returns. */
  datatype ShellResult =
    | Completed(stdout: string, stderr: string, exitCode: int, success: bool)
    | ExecFailed(error: string, success: bool)
    | NotAllowed(error: string, allowedCommands: seq<string>, success: bool)

  /** `executeShell`: the process's output and exit code, successful exactly on exit code 0; a throw becomes an error record. */
  function ExecuteShell(spawn: Spawn): (r: ShellResult)
    ensures r.success <==> spawn.Spawned? && spawn.exitCode == 0
    ensures spawn.Spawned? ==> r.Completed? && r.stdout == spawn.stdout && r.stderr == spawn.stderr && r.exitCode == spawn.exitCode
    ensures spawn.SpawnThrew? ==> r.ExecFailed? && r.error == spawn.message
  {
    match spawn
    case Spawned(out, err, code) => Completed(out, err, code, code == 0)
    case SpawnThrew(m) => ExecFailed(m, false)
  }

  /** `command.split(' ')[0]`: the text before the first space, the whole command when it has none. */
  function CommandBase(command: string): (b: string)
    ensures b <= command && ' ' !in b
    ensures ' ' !in command ==> b == command
  {
    SplitFirstIsPrefix(command, ' ');
    Split(command, ' ')[0]
  }

  /** The gate is on exactly when a non-empty allowlist is given. */
  predicate Restricts(allowed: Option<seq<string>>) {
    allowed.Some? && |allowed.value| > 0
  }

  /** The allowlist check: the rejection record, or `None` when the command may run. */
  function Gate(allowed: Option<seq<string>>, command: string): (rejection: Option<ShellResult>)
    ensures rejection.Some? <==> Restricts(allowed) && CommandBase(command) !in allowed.value
    ensures rejection.Some? ==> rejection.value == NotAllowed("Command not allowed: " + CommandBase(command), allowed.value, false)
  {
    if Restricts(allowed) then
      var cmdBase := CommandBase(command);
      if cmdBase !in allowed.value then Some(NotAllowed("Command not allowed: " + cmdBase, allowed.value, false))
      else None
    else None
  }

  /**
   * The shell tool's `execute` on the arguments the model sent: the schema
   * fills in the timeout, the gate runs first, then the command.
   */
  function RunShellTool(allowed: Option<seq<string>>, command: string, timeout: Option<int>, spawn: ShellArgs -> Spawn): (r: ShellResult)
    ensures Gate(allowed, command).Some? ==> r == Gate(allowed, command).value && !r.success
    ensures Gate(allowed, command).None? ==> r == ExecuteShell(spawn(ParseShellArgs(command, timeout)))
  {
    var args := ParseShellArgs(command, timeout);
    match Gate(allowed, args.command)
    case Some(rejection) => rejection
    case None => ExecuteShell(spawn(args))
  }

  const DescriptionPrefix := "Execute a shell command. "
  const AllowedHeading := "Allowed commands: "
  const Caution := "Use with caution - can run any command."

  /**
   * The description as written: an allowlist, even an empty one, is
   * truthy, so `[]` is described as "Allowed commands: " with nothing after
   * it although the gate lets every command through.
   */
  function ShellDescriptionAsWritten(allowed: Option<seq<string>>): (d: string)
    ensures allowed.Some? ==> d == DescriptionPrefix + AllowedHeading + Join(allowed.value, ", ")
    ensures allowed.None? ==> d == DescriptionPrefix + Caution
  {
    DescriptionPrefix + if allowed.Some? then AllowedHeading + Join(allowed.value, ", ") else Caution
  }

  /**
   * The corrected description, agreeing with the gate: the allowlist is named
   * exactly when it is enforced. The registered tool keeps the description as
   * written.
   */
  function ShellDescription(allowed: Option<seq<string>>): (d: string)
    ensures Restricts(allowed) ==> d == DescriptionPrefix + AllowedHeading + Join(allowed.value, ", ")
    ensures !Restricts(allowed) ==> d == DescriptionPrefix + Caution
  {
    DescriptionPrefix + if Restricts(allowed) then AllowedHeading + Join(allowed.value, ", ") else Caution
  }

  function ShellSchema(): Json {
    JObj([("command", JStr("string")), ("timeout", JStr("number"))])
  }

  /** The tool `registerShellTool` builds, described as written: any given allowlist, even `[]`, is announced. */
  function ShellTool(allowed: Option<seq<string>>): (t: Tool)
    ensures t.name == "shell" && t.parameters == ShellSchema()
    ensures t.description == ShellDescriptionAsWritten(allowed)
    ensures allowed.Some? <==> DescriptionPrefix + AllowedHeading <= t.description
  {
    DescriptionHeadingIffGiven(allowed);
    Tool("shell", ShellDescriptionAsWritten(allowed), ShellSchema())
  }

  /** The description as written names an allowlist exactly when one is given, empty or not. */
  lemma DescriptionHeadingIffGiven(allowed: Option<seq<string>>)
    ensures allowed.Some? <==> DescriptionPrefix + AllowedHeading <= ShellDescriptionAsWritten(allowed)
  {
    var d := ShellDescriptionAsWritten(allowed);
    if allowed.None? {
      assert d[|DescriptionPrefix|] == 'U';
      assert (DescriptionPrefix + AllowedHeading)[|DescriptionPrefix|] == 'A';
    }
  }

  /** `registerShellTool`: the tool is added to the registry under "shell", replacing an earlier one in its place. */
  method RegisterShellTool(registry: ToolRegistry, allowed: Option<seq<string>>) returns (tool: Tool)
    requires registry.Valid()
    modifies registry
    ensures registry.Valid()
    ensures tool == ShellTool(allowed)
    ensures registry.tools == old(registry.tools)["shell" := tool]
    ensures registry.order == if "shell" in old(registry.tools) then old(registry.order) else old(registry.order) + ["shell"]
  {
    tool := ShellTool(allowed);
    registry.Register(tool);
  }

  // ---------------------------------------------------------------- properties

  /** Only the first token is checked: the arguments after the first space never matter. */
  lemma ArgumentsIgnored(base: string, arguments: string, allowed: Option<seq<string>>)
    requires ' ' !in base
    ensures CommandBase(base + " " + arguments) == base
    ensures Gate(allowed, base + " " + arguments) == Gate(allowed, base)
  {
    SplitAppend(base, arguments, ' ');
  }

  /** A rejected command is never executed: the result does not depend on what running it would do. */
  lemma RejectedNeverRuns(allowed: Option<seq<string>>, command: string, timeout: Option<int>, spawn1: ShellArgs -> Spawn, spawn2: ShellArgs -> Spawn)
    requires Gate(allowed, command).Some?
    ensures RunShellTool(allowed, command, timeout, spawn1) == RunShellTool(allowed, command, timeout, spawn2)
    ensures !RunShellTool(allowed, command, timeout, spawn1).success
  {
  }

  /**
   * A command that passes the gate is spawned with the timeout the model
   * gave, and with 30000 ms when it gave none.
   */
  lemma SpawnedWithTimeout(allowed: Option<seq<string>>, command: string, timeout: Option<int>, spawn: ShellArgs -> Spawn)
    requires Gate(allowed, command).None?
    ensures timeout.None? ==> RunShellTool(allowed, command, timeout, spawn) == ExecuteShell(spawn(ShellArgs(command, 30000)))
    ensures timeout.Some? ==> RunShellTool(allowed, command, timeout, spawn) == ExecuteShell(spawn(ShellArgs(command, timeout.value)))
  {
  }

  function Repeat(c: char, n: nat): (s: string)
    ensures |s| == n && forall i :: 0 <= i < n ==> s[i] == c
  {
    if n == 0 then [] else [c] + Repeat(c, n - 1)
  }

  function TotalLength(names: seq<string>): (n: nat)
    ensures forall i :: 0 <= i < |names| ==> |names[i]| <= n
  {
    if names == [] then 0 else |names[0]| + TotalLength(names[1..])
  }

  /** The gate rejects some command exactly when a non-empty allowlist is given; otherwise it lets every command through. */
  lemma GateRestrictsIff(allowed: Option<seq<string>>)
    ensures Restricts(allowed) <==> exists command :: Gate(allowed, command).Some?
  {
    if Restricts(allowed) {
      var command := Repeat('x', TotalLength(allowed.value) + 1);
      assert CommandBase(command) !in allowed.value;
      assert Gate(allowed, command).Some?;
    }
  }

  /** The description names the allowlist exactly when the gate can reject a command. */
  lemma DescriptionMatchesGate(allowed: Option<seq<string>>)
    ensures (DescriptionPrefix + AllowedHeading <= ShellDescription(allowed)) <==> exists command :: Gate(allowed, command).Some?
  {
    GateRestrictsIff(allowed);
    var d := ShellDescription(allowed);
    if !Restricts(allowed) {
      assert d[|DescriptionPrefix|] == 'U';
      assert (DescriptionPrefix + AllowedHeading)[|DescriptionPrefix|] == 'A';
    }
  }

  /** As written, an empty allowlist is announced as "Allowed commands: " while every command passes the gate. */
  lemma EmptyAllowlistMisdescribed(command: string)
    ensures ShellDescriptionAsWritten(Some([])) == DescriptionPrefix + AllowedHeading
    ensures Gate(Some([]), command).None?
    ensures ShellDescription(Some([])) == DescriptionPrefix + Caution
  {
  }

  /** The shell test's allowlist ["ls", "echo"]: "ls" passes, "rm -rf /" is refused as "rm". */
  lemma AllowlistScenario()
    ensures Gate(Some(["ls", "echo"]), "ls").None?
    ensures Gate(Some(["ls", "echo"]), "rm -rf /") == Some(NotAllowed("Command not allowed: rm", ["ls", "echo"], false))
  {
    ArgumentsIgnored("rm", "-rf /", Some(["ls", "echo"]));
    assert "rm" + " " + "-rf /" == "rm -rf /";
    assert "rm" != "ls" && "rm" != "echo" by {
      assert "rm"[0] != "ls"[0];
    }
    assert Gate(Some(["ls", "echo"]), "rm") == Some(NotAllowed("Command not allowed: " + "rm", ["ls", "echo"], false));
    assert "Command not allowed: " + "rm" == "Command not allowed: rm";
  }
}
