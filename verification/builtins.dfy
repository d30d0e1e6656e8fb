/**
 * builtin_command and its two handlers, cd and terminate (shell.c:242-283).
 * A command whose first argument names a builtin runs in the shell itself;
 * an empty command is handled by doing nothing.
 */
module Builtins {
  import opened Options
  import opened Tokenize
  import opened Parser
  import opened World

  datatype Builtin = ChangeDirectory | Terminate

  /** builtin_cmds paired with closures, in table order. */
  const BUILTINS: seq<(string, Builtin)> := [("cd", ChangeDirectory), ("exit", Terminate)]

  /** The loop of lines 275-280: the handler of the first entry from index i named `name`. */
  function FindBuiltin(name: string, i: nat): (r: Option<Builtin>)
    requires i <= |BUILTINS|
    ensures r.None? <==> forall k :: i <= k < |BUILTINS| ==> BUILTINS[k].0 != name
    ensures r.Some? ==> exists k :: i <= k < |BUILTINS| && BUILTINS[k] == (name, r.value)
    decreases |BUILTINS| - i
  {
    if i == |BUILTINS| then None
    else if BUILTINS[i].0 == name then Some(BUILTINS[i].1)
    else FindBuiltin(name, i + 1)
  }

  /** The builtins are "cd" and "exit" and nothing else. */
  lemma BuiltinNames(name: string)
    ensures FindBuiltin(name, 0) == Some(ChangeDirectory) <==> name == "cd"
    ensures FindBuiltin(name, 0) == Some(Terminate) <==> name == "exit"
    ensures FindBuiltin(name, 0).None? <==> name != "cd" && name != "exit"
  {
    if FindBuiltin(name, 0).Some? {
      var k :| 0 <= k < |BUILTINS| && BUILTINS[k] == (name, FindBuiltin(name, 0).value);
      assert k == 0 || k == 1;
    } else {
      assert BUILTINS[0].0 != name && BUILTINS[1].0 != name;
    }
  }

  /** Line 249 as written: cd hands argv[1] to chdir, which is the NULL sentinel when cd has no operand. */
  function CdOperandAsWritten(argv: seq<Slot>): Slot
    requires |argv| >= 2
  {
    argv[1]
  }

  /** "cd" alone makes line 249 pass NULL to chdir and to the "%s" of the error message. */
  lemma CdWithoutOperandPassesNull()
    ensures |ArgvOf(Parse("cd"))| == 2
    ensures CdOperandAsWritten(ArgvOf(Parse("cd"))) == Null
  {
    TokensCons("cd", [], SPACE);
    assert "cd" + [] == "cd";
  }

  /** The operand cd uses: argv[1] when there is one. */
  function CdOperand(c: Command): Option<string> {
    if |c.args| >= 2 then Some(c.args[1]) else None
  }

  /** The operand agrees with argv[1] except where argv[1] is the sentinel, which becomes None. */
  lemma CdOperandMatchesArgv(c: Command)
    requires c.args != []
    ensures |ArgvOf(c)| >= 2
    ensures CdOperandAsWritten(ArgvOf(c)) == Null <==> CdOperand(c).None?
    ensures CdOperand(c).Some? ==> CdOperandAsWritten(ArgvOf(c)) == Arg(CdOperand(c).value)
  {
  }

  /** The diagnostic of a failed cd; "(null)" is how glibc renders a NULL "%s" operand. */
  function CdError(dir: Option<string>): string {
    "cd: " + (if dir.Some? then dir.value else "(null)") + ": no such file or directory.\n"
  }

  /**
   * cd, with a missing operand treated as a failed change of directory instead
   * of a NULL passed to chdir. Further operands are ignored.
   */
  function Cd(c: Command, cwd: string, epoch: nat, os: Os): (r: (string, seq<Output>))
    ensures CdOperand(c).Some? && os.chdir(epoch, cwd, CdOperand(c).value).Some? ==>
      r == (os.chdir(epoch, cwd, CdOperand(c).value).value, [])
    ensures CdOperand(c).None? || os.chdir(epoch, cwd, CdOperand(c).value).None? ==>
      r == (cwd, [Err(CdError(CdOperand(c)))])
  {
    match CdOperand(c)
    case None => (cwd, [Err(CdError(None))])
    case Some(dir) =>
      match os.chdir(epoch, cwd, dir)
      case None => (cwd, [Err(CdError(Some(dir)))])
      case Some(cwd') => (cwd', [])
  }

  /** What terminate writes with puts("Session closed.\n"): puts adds a second newline. */
  const TERMINATE_TEXT: string := "Session closed.\n\n"

  /** The outcome of builtin_command. */
  datatype Dispatch =
    | NotBuiltin                                  // returned false: the caller forks
    | Handled(cwd: string, out: seq<Output>)      // returned true: cd ran, or the command was empty
    | Terminated(out: seq<Output>)                // terminate ran: exit(EXIT_SUCCESS)

  /** builtin_command (shell.c:263-283). */
  function BuiltinCommand(c: Command, cwd: string, epoch: nat, os: Os): (r: Dispatch)
    ensures c.args == [] ==> r == Handled(cwd, [])
    ensures r.NotBuiltin? <==> c.args != [] && c.args[0] != "cd" && c.args[0] != "exit"
    ensures r.Terminated? <==> c.args != [] && c.args[0] == "exit"
    ensures r.Terminated? ==> r.out == [Out(TERMINATE_TEXT)]
    ensures c.args != [] && c.args[0] == "cd" ==> r == Handled(Cd(c, cwd, epoch, os).0, Cd(c, cwd, epoch, os).1)
  {
    if c.args == [] then Handled(cwd, [])
    else
      BuiltinNames(c.args[0]);
      match FindBuiltin(c.args[0], 0)
      case None => NotBuiltin
      case Some(ChangeDirectory) =>
        var (cwd', out) := Cd(c, cwd, epoch, os);
        Handled(cwd', out)
      case Some(Terminate) => Terminated([Out(TERMINATE_TEXT)])
  }

  /** An empty or all-space line is handled, with no output and no change of directory. */
  lemma EmptyLineHandled(line: string, cwd: string, epoch: nat, os: Os)
    requires forall k :: 0 <= k < |line| ==> line[k] == SPACE
    ensures BuiltinCommand(Parse(line), cwd, epoch, os) == Handled(cwd, [])
  {
    ParseEmptyLine(line);
  }

  /** A cd that fails leaves the directory where it was and writes one line to standard error. */
  lemma FailedCdKeepsDirectory(c: Command, cwd: string, epoch: nat, os: Os)
    requires |c.args| >= 1 && c.args[0] == "cd"
    requires CdOperand(c).None? || os.chdir(epoch, cwd, CdOperand(c).value).None?
    ensures BuiltinCommand(c, cwd, epoch, os) == Handled(cwd, [Err(CdError(CdOperand(c)))])
  {
  }
}
