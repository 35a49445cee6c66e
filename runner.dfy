/** The one step of running a command that the model keeps: the copy of the
    argument list whose first token, the executable, is replaced by the
    resolved path. Resolving the path and running the process are not part
    of this model. */
module Runner {
  import opened PyModel
  import opened Tools

  /** The list with its first token replaced by binPath, when that token is
      the bare executable name. */
  function Resolved(command: seq<string>, binPath: string): (r: seq<string>)
    ensures |r| == |command|
    ensures forall i :: 0 < i < |command| ==> r[i] == command[i]
    ensures |command| > 0 ==> r[0] == (if command[0] == Executable then binPath else command[0])
  {
    if |command| > 0 && command[0] == Executable then [binPath] + command[1..] else command
  }

  /** `cmd = list(command); if cmd and cmd[0] == "osxphotos": cmd[0] = bin_path`.
      The caller's list is copied, not changed. */
  method ResolveCommand(command: array<string>, binPath: string) returns (cmd: array<string>)
    ensures fresh(cmd)
    ensures cmd[..] == Resolved(command[..], binPath)
    ensures command[..] == old(command[..])
  {
    cmd := new string[command.Length](i reads command requires 0 <= i < command.Length => command[i]);
    if cmd.Length > 0 && cmd[0] == Executable {
      cmd[0] := binPath;
    }
  }

  /** Every command a tool builds starts with the bare executable, so the
      resolved path takes its place and nothing else changes. */
  lemma ToolCommandResolved(tool: Tool, params: seq<(string, Value)>, binPath: string)
    requires ToolCommand(tool, params).Ok?
    ensures var argv := ToolCommand(tool, params).value;
      |argv| >= 2 && Resolved(argv, binPath) == [binPath] + argv[1..]
  {
  }
}
