/**
 * main (shell.c:51-71) as a state machine: prompt, read a line, parse it, run
 * a builtin in the shell or fork a child for anything else, wait for the
 * child, repeat until end of input, exit or a failed fork. A child that never
 * exits leaves the shell waiting for good.
 */
module Session {
  import opened Options
  import opened Tokenize
  import opened Reader
  import opened Parser
  import opened Prompt
  import opened World
  import opened Builtins
  import opened Launcher

  /** What the user sees, in order: prompts and the writes of the shell and its children. */
  datatype Event = Prompted(text: string) | Wrote(o: Output)

  datatype Phase =
    | Running          // between two commands
    | Waiting          // blocked in wait(NULL) on a child that never exits
    | Exited(status: int)

  /**
   * The shell between two commands: its working directory, the input not yet
   * read, how many forks it has made, what it has shown so far, and whether
   * it is still running. Every child but a hanging one has exited, so `forks`
   * is also the epoch of the file system the shell sees.
   */
  datatype Shell = Shell(cwd: string, input: string, forks: nat, out: seq<Event>, phase: Phase)

  /** puts("Session closed.") at the end of input. */
  const EOF_TEXT: string := "Session closed.\n"

  /** fork1's diagnostic before exit(EXIT_FAILURE). */
  const FORK_ERROR: string := "fork1 error.\n"

  /**
   * How a shell that has exited says goodbye: status 1 right after fork1's
   * diagnostic, status 0 right after one of the two "Session closed." texts.
   */
  predicate Farewell(out: seq<Event>, phase: Phase) {
    match phase
    case Running => true
    case Waiting => true
    case Exited(status) =>
      && |out| > 0
      && (status == 1 || status == 0)
      && (status == 1 ==> out[|out| - 1] == Wrote(Err(FORK_ERROR)))
      && (status == 0 ==> out[|out| - 1] == Wrote(Out(EOF_TEXT)) || out[|out| - 1] == Wrote(Out(TERMINATE_TEXT)))
  }

  /** Writes, as events. */
  function Writes(o: seq<Output>): seq<Event> {
    seq(|o|, i requires 0 <= i < |o| => Wrote(o[i]))
  }

  /** What the user sees of a started program: all it writes, whether or not it exits. */
  function Written(l: Launch): seq<Output> {
    match l
    case Ran(run) => run.output
    case Hangs(output) => output
  }

  /**
   * getcmd's prompt, shown only when standard input is a terminal. `cwd` is
   * the directory the last successful chdir returned; getcwd is not asked again.
   */
  function PromptEvents(cwd: string, os: Os): seq<Event> {
    if os.interactive then [Prompted(PromptText(cwd, os.home, os.user))] else []
  }

  /**
   * Lines 57-65 for a line already read: parse it, run it as a builtin or in
   * a forked child, and wait. `shown` is everything shown up to the prompt.
   */
  function Execute(s: Shell, shown: seq<Event>, line: string, rest: string, os: Os): (r: Shell)
    ensures r.input == rest
    ensures shown <= r.out
    ensures Farewell(r.out, r.phase)
    ensures r.phase == Exited(0) ==> r.out[|r.out| - 1] == Wrote(Out(TERMINATE_TEXT))
    ensures r.phase.Waiting? ==> os.forkOk(s.forks) && r.forks == s.forks + 1
  {
    var c := Parse(line);
    match BuiltinCommand(c, s.cwd, s.forks, os)
    case Handled(cwd', o) => Shell(cwd', rest, s.forks, shown + Writes(o), Running)
    case Terminated(o) => Shell(s.cwd, rest, s.forks, shown + Writes(o), Exited(0))
    case NotBuiltin =>
      if !os.forkOk(s.forks) then Shell(s.cwd, rest, s.forks, shown + [Wrote(Err(FORK_ERROR))], Exited(1))
      else
        var child := ExecCmd(c, s.cwd, s.forks, os);
        Shell(s.cwd, rest, s.forks + 1, shown + Writes(Written(child)), if child.Ran? then Running else Waiting)
  }

  /** One turn of the loop of lines 55-66: prompt, read a line, then run it or stop at end of input. */
  function Step(s: Shell, os: Os): (r: Shell)
    requires s.phase.Running?
    ensures r.phase.Running? ==> |r.input| < |s.input|
    ensures s.out <= r.out
    ensures Farewell(r.out, r.phase)
    ensures r.phase.Waiting? ==> os.forkOk(s.forks) && r.forks == s.forks + 1
  {
    var shown := s.out + PromptEvents(s.cwd, os);
    match GetCmd(s.input)
    case None => Shell(s.cwd, [], s.forks, shown + [Wrote(Out(EOF_TEXT))], Exited(0))
    case Some((line, rest)) => Execute(s, shown, line, rest, os)
  }

  /**
   * The whole session from a running shell, up to the point where the shell
   * exits, with status 0 after end of input or exit and status 1 after a
   * failed fork, or waits for good on a child that never exits. What it shows
   * extends what was shown before.
   */
  function Lifetime(s: Shell, os: Os): (r: Shell)
    requires s.phase.Running?
    ensures !r.phase.Running? && Farewell(r.out, r.phase)
    ensures s.out <= r.out
    decreases |s.input|
  {
    var n := Step(s, os);
    if n.phase.Running? then Lifetime(n, os) else n
  }

  /** The shell as main starts it. */
  function Start(cwd: string, input: string): Shell {
    Shell(cwd, input, 0, [], Running)
  }

  /** A turn that reads a line runs it after the prompt. */
  lemma StepRuns(s: Shell, os: Os, line: string, rest: string)
    requires s.phase.Running? && GetCmd(s.input) == Some((line, rest))
    ensures Step(s, os) == Execute(s, s.out + PromptEvents(s.cwd, os), line, rest, os)
  {
  }

  /** At the end of input the shell says goodbye once and exits with status 0. */
  lemma EndOfInput(s: Shell, os: Os)
    requires s.phase.Running? && s.input == []
    ensures Step(s, os) == s.(out := s.out + PromptEvents(s.cwd, os) + [Wrote(Out(EOF_TEXT))], phase := Exited(0))
  {
  }

  /** An empty or all-space line changes nothing but the input, after the prompt. */
  lemma EmptyLineIsNoOp(s: Shell, os: Os, line: string, rest: string)
    requires s.phase.Running? && GetCmd(s.input) == Some((line, rest))
    requires forall k :: 0 <= k < |line| ==> line[k] == SPACE
    ensures Step(s, os) == s.(input := rest, out := s.out + PromptEvents(s.cwd, os))
  {
    EmptyLineHandled(line, s.cwd, s.forks, os);
    assert Writes([]) == [];
  }

  /** A failed cd keeps the directory, reports one error and the session goes on, without a fork. */
  lemma FailedCdContinues(s: Shell, os: Os, line: string, rest: string)
    requires s.phase.Running? && GetCmd(s.input) == Some((line, rest))
    requires Parse(line).args != [] && Parse(line).args[0] == "cd"
    requires CdOperand(Parse(line)).None? || os.chdir(s.forks, s.cwd, CdOperand(Parse(line)).value).None?
    ensures Step(s, os) == s.(input := rest, out := s.out + PromptEvents(s.cwd, os) + [Wrote(Err(CdError(CdOperand(Parse(line)))))])
  {
    var e := Wrote(Err(CdError(CdOperand(Parse(line)))));
    StepRuns(s, os, line, rest);
    FailedCdKeepsDirectory(Parse(line), s.cwd, s.forks, os);
    ExecuteHandled(s, s.out + PromptEvents(s.cwd, os), line, rest, os);
    assert Writes([Err(CdError(CdOperand(Parse(line))))]) == [e];
  }

  /** A line that builtin_command handles leaves the shell running in the directory it chose. */
  lemma ExecuteHandled(s: Shell, shown: seq<Event>, line: string, rest: string, os: Os)
    requires BuiltinCommand(Parse(line), s.cwd, s.forks, os).Handled?
    ensures var h := BuiltinCommand(Parse(line), s.cwd, s.forks, os);
      Execute(s, shown, line, rest, os) == Shell(h.cwd, rest, s.forks, shown + Writes(h.out), Running)
  {
  }

  /** A successful cd moves the shell, and the next turn starts with a prompt naming the new directory. */
  lemma CdMovesPrompt(s: Shell, os: Os, line: string, rest: string)
    requires s.phase.Running? && GetCmd(s.input) == Some((line, rest))
    requires |Parse(line).args| >= 2 && Parse(line).args[0] == "cd"
    requires os.chdir(s.forks, s.cwd, Parse(line).args[1]).Some?
    ensures Step(s, os).phase.Running? && Step(s, os).forks == s.forks
    ensures Step(s, os).cwd == os.chdir(s.forks, s.cwd, Parse(line).args[1]).value
    ensures os.interactive ==>
      var n := Step(s, os);
      |Step(n, os).out| > |n.out|
      && Step(n, os).out[|n.out|] == Prompted(PromptText(os.chdir(s.forks, s.cwd, Parse(line).args[1]).value, os.home, os.user))
  {
    StepRuns(s, os, line, rest);
    if os.interactive {
      StepShowsPrompt(Step(s, os), os);
    }
  }

  /** On a terminal, every turn starts by showing the prompt for the shell's directory. */
  lemma StepShowsPrompt(s: Shell, os: Os)
    requires s.phase.Running? && os.interactive
    ensures |Step(s, os).out| > |s.out|
    ensures Step(s, os).out[|s.out|] == Prompted(PromptText(s.cwd, os.home, os.user))
  {
    var shown := s.out + PromptEvents(s.cwd, os);
    if GetCmd(s.input).Some? {
      var (line, rest) := GetCmd(s.input).value;
      StepRuns(s, os, line, rest);
    }
    assert shown <= Step(s, os).out;
    assert shown[|s.out|] == Prompted(PromptText(s.cwd, os.home, os.user));
  }

  /** exit ends the session with status 0 whatever follows it, and writes the goodbye of terminate. */
  lemma ExitTerminates(s: Shell, os: Os, line: string, rest: string)
    requires s.phase.Running? && GetCmd(s.input) == Some((line, rest))
    requires Parse(line).args != [] && Parse(line).args[0] == "exit"
    ensures Step(s, os) == Shell(s.cwd, rest, s.forks, s.out + PromptEvents(s.cwd, os) + [Wrote(Out(TERMINATE_TEXT))], Exited(0))
  {
  }

  /**
   * The shell forks exactly for a non-empty line whose command is neither cd
   * nor exit, and only when the fork succeeds; the directory never changes then.
   */
  lemma ForksOnlyForPrograms(s: Shell, os: Os)
    requires s.phase.Running?
    ensures Step(s, os).forks == s.forks + 1 <==>
      && GetCmd(s.input).Some?
      && var args := Parse(GetCmd(s.input).value.0).args;
      && args != [] && args[0] != "cd" && args[0] != "exit"
      && os.forkOk(s.forks)
    ensures Step(s, os).forks != s.forks + 1 ==> Step(s, os).forks == s.forks
    ensures Step(s, os).forks == s.forks + 1 ==> Step(s, os).cwd == s.cwd && !Step(s, os).phase.Exited?
  {
  }

  /** A failed fork ends the shell with status 1 after its diagnostic. */
  lemma ForkFailureExits(s: Shell, os: Os, line: string, rest: string)
    requires s.phase.Running? && GetCmd(s.input) == Some((line, rest))
    requires Parse(line).args != [] && Parse(line).args[0] != "cd" && Parse(line).args[0] != "exit"
    requires !os.forkOk(s.forks)
    ensures Step(s, os) == Shell(s.cwd, rest, s.forks, s.out + PromptEvents(s.cwd, os) + [Wrote(Err(FORK_ERROR))], Exited(1))
  {
  }

  /** The same system, except that every program that exits does so with `status`. */
  function WithStatus(os: Os, status: int): Os {
    var exec := os.exec;
    os.(exec := (epoch: nat, cwd: string, path: string, argv: seq<string>, shellPath: Option<string>) =>
      var o := exec(epoch, cwd, path, argv, shellPath);
      if o.Some? && o.value.Ran? then Some(Ran(Run(o.value.run.output, status))) else o)
  }

  /** wait(NULL) drops the child's status: no program's exit status changes anything the shell does. */
  lemma ChildStatusIgnored(s: Shell, os: Os, status: int)
    requires s.phase.Running?
    ensures Step(s, WithStatus(os, status)) == Step(s, os)
  {
    var os' := WithStatus(os, status);
    if GetCmd(s.input).Some? {
      var (line, rest) := GetCmd(s.input).value;
      StepRuns(s, os, line, rest);
      StepRuns(s, os', line, rest);
      assert PromptEvents(s.cwd, os') == PromptEvents(s.cwd, os);
      ExecuteIgnoresStatus(s, s.out + PromptEvents(s.cwd, os), line, rest, os, status);
    }
  }

  /** The part of ChildStatusIgnored after the line is read. */
  lemma ExecuteIgnoresStatus(s: Shell, shown: seq<Event>, line: string, rest: string, os: Os, status: int)
    ensures Execute(s, shown, line, rest, WithStatus(os, status)) == Execute(s, shown, line, rest, os)
  {
    var os' := WithStatus(os, status);
    var c := Parse(line);
    assert BuiltinCommand(c, s.cwd, s.forks, os') == BuiltinCommand(c, s.cwd, s.forks, os);
    if c.args != [] {
      var child, child' := ExecCmd(c, s.cwd, s.forks, os), ExecCmd(c, s.cwd, s.forks, os');
      assert child'.Ran? == child.Ran? && Written(child') == Written(child);
    }
  }

  /** Without a terminal on standard input, a session never shows a prompt. */
  lemma {:induction false} NoPromptWhenPiped(s: Shell, os: Os)
    requires s.phase.Running? && !os.interactive
    requires forall i :: 0 <= i < |s.out| ==> !s.out[i].Prompted?
    ensures forall i :: 0 <= i < |Lifetime(s, os).out| ==> !Lifetime(s, os).out[i].Prompted?
    decreases |s.input|
  {
    var n := Step(s, os);
    StepShowsNoPrompt(s, os);
    if n.phase.Running? {
      NoPromptWhenPiped(n, os);
    }
  }

  /** Without a terminal, one turn adds no prompt to what is shown. */
  lemma StepShowsNoPrompt(s: Shell, os: Os)
    requires s.phase.Running? && !os.interactive
    ensures forall i :: |s.out| <= i < |Step(s, os).out| ==> !Step(s, os).out[i].Prompted?
  {
    if GetCmd(s.input).Some? {
      var (line, rest) := GetCmd(s.input).value;
      StepRuns(s, os, line, rest);
      assert PromptEvents(s.cwd, os) == [];
    }
  }

  /** A child that never exits blocks the shell: it reads no further input and shows nothing more. */
  lemma HangingChildBlocks(s: Shell, os: Os, line: string, rest: string)
    requires s.phase.Running? && GetCmd(s.input) == Some((line, rest))
    requires Parse(line).args != [] && Parse(line).args[0] != "cd" && Parse(line).args[0] != "exit"
    requires os.forkOk(s.forks) && ExecCmd(Parse(line), s.cwd, s.forks, os).Hangs?
    ensures Step(s, os).phase == Waiting
    ensures Lifetime(s, os) == Step(s, os)
    ensures Step(s, os).out == s.out + PromptEvents(s.cwd, os) + Writes(ExecCmd(Parse(line), s.cwd, s.forks, os).output)
  {
    StepRuns(s, os, line, rest);
  }

  /** When every program exits, no turn leaves the shell waiting. */
  lemma StepNeverWaits(s: Shell, os: Os)
    requires s.phase.Running? && ChildrenExit(os)
    ensures !Step(s, os).phase.Waiting?
  {
    if GetCmd(s.input).Some? {
      var (line, rest) := GetCmd(s.input).value;
      StepRuns(s, os, line, rest);
      var c := Parse(line);
      if c.args != [] {
        var child := ExecCmd(c, s.cwd, s.forks, os);
        assert child.Ran?;
      }
    }
  }

  /** When every program exits, every session ends by exiting, with status 0 or 1. */
  lemma {:induction false} SessionExitsWhenChildrenExit(s: Shell, os: Os)
    requires s.phase.Running? && ChildrenExit(os)
    ensures Lifetime(s, os).phase.Exited?
    ensures Lifetime(s, os).phase.status == 0 || Lifetime(s, os).phase.status == 1
    decreases |s.input|
  {
    var n := Step(s, os);
    StepNeverWaits(s, os);
    if n.phase.Running? {
      SessionExitsWhenChildrenExit(n, os);
    }
  }

  /**
   * A program's effect on the file system is seen by later turns: with "d"
   * missing at first, "cd d" fails, the child "mkdir d" runs, and the second
   * "cd d" consults the file system as that child left it.
   */
  lemma LaterTurnsSeeChildren(s: Shell, os: Os)
    requires s.phase.Running? && s.input == "cd d\n" + "mkdir d\n" + "cd d\n"
    requires os.chdir(s.forks, s.cwd, "d").None? && os.chdir(s.forks + 1, s.cwd, "d").Some?
    requires os.forkOk(s.forks) && ExecCmd(Parse("mkdir d"), s.cwd, s.forks, os).Ran?
    ensures var s1 := Step(s, os);
      && s1.phase.Running? && s1.cwd == s.cwd && s1.forks == s.forks
      && var s2 := Step(s1, os);
      && s2.phase.Running? && s2.cwd == s.cwd && s2.forks == s.forks + 1
      && Step(s2, os).cwd == os.chdir(s.forks + 1, s.cwd, "d").value
  {
    CdLineFails(s, os, "mkdir d\n" + "cd d\n");
    var s1 := Step(s, os);
    MkdirLineRuns(s1, os, "cd d\n");
    CdLineMoves(Step(s1, os), os);
  }

  /** The line "cd d", with "d" missing, keeps the directory and the fork count. */
  lemma CdLineFails(s: Shell, os: Os, rest: string)
    requires s.phase.Running? && s.input == "cd d\n" + rest && os.chdir(s.forks, s.cwd, "d").None?
    ensures Step(s, os).phase.Running? && Step(s, os).input == rest
    ensures Step(s, os).cwd == s.cwd && Step(s, os).forks == s.forks
  {
    assert Join(["cd", "d"], [SPACE]) == "cd d";
    JoinParseRoundTrip(["cd", "d"]);
    assert s.input == "cd d" + "\n" + rest;
    GetCmdReadsLine("cd d", rest);
    FailedCdContinues(s, os, "cd d", rest);
  }

  /** The line "mkdir d" forks a child that exits, and the shell reads on. */
  lemma MkdirLineRuns(s: Shell, os: Os, rest: string)
    requires s.phase.Running? && s.input == "mkdir d\n" + rest
    requires os.forkOk(s.forks) && ExecCmd(Parse("mkdir d"), s.cwd, s.forks, os).Ran?
    ensures Step(s, os).phase.Running? && Step(s, os).input == rest
    ensures Step(s, os).cwd == s.cwd && Step(s, os).forks == s.forks + 1
  {
    MkdirLineParses();
    MkdirLineRead(rest);
    ProgramRuns(s, os, "mkdir d", rest);
  }

  /** getcmd reads "mkdir d" off the front of the input. */
  lemma MkdirLineRead(rest: string)
    ensures GetCmd("mkdir d\n" + rest) == Some(("mkdir d", rest))
  {
    assert "mkdir d\n" + rest == "mkdir d" + "\n" + rest;
    GetCmdReadsLine("mkdir d", rest);
  }

  /** "mkdir d" splits into the words "mkdir" and "d". */
  lemma MkdirLineParses()
    ensures Parse("mkdir d").args == ["mkdir", "d"]
  {
    assert Join(["mkdir", "d"], [SPACE]) == "mkdir d";
    JoinParseRoundTrip(["mkdir", "d"]);
  }

  /** A program that is started and exits leaves the shell running where it was, one fork later. */
  lemma ProgramRuns(s: Shell, os: Os, line: string, rest: string)
    requires s.phase.Running? && GetCmd(s.input) == Some((line, rest))
    requires Parse(line).args != [] && Parse(line).args[0] != "cd" && Parse(line).args[0] != "exit"
    requires os.forkOk(s.forks) && ExecCmd(Parse(line), s.cwd, s.forks, os).Ran?
    ensures Step(s, os) == Shell(s.cwd, rest, s.forks + 1,
      s.out + PromptEvents(s.cwd, os) + Writes(ExecCmd(Parse(line), s.cwd, s.forks, os).run.output), Running)
  {
    StepRuns(s, os, line, rest);
  }

  /** The line "cd d", with "d" present, moves the shell into it. */
  lemma CdLineMoves(s: Shell, os: Os)
    requires s.phase.Running? && s.input == "cd d\n" && os.chdir(s.forks, s.cwd, "d").Some?
    ensures Step(s, os).cwd == os.chdir(s.forks, s.cwd, "d").value
  {
    assert Join(["cd", "d"], [SPACE]) == "cd d";
    JoinParseRoundTrip(["cd", "d"]);
    assert s.input == "cd d" + "\n" + "";
    GetCmdReadsLine("cd d", "");
    CdMovesPrompt(s, os, "cd d", "");
  }
}
