/**
 * The operating system as the shell sees it. Every system call the shell
 * makes whose outcome it depends on is a field of `Os`. The shell waits for
 * each child before it reads on, so the children run one after another; the
 * file system a call sees is named by its epoch, the number of children that
 * have run before it. A child may change what every later epoch sees.
 */
module World {
  import opened Options

  /** One write to standard output or to standard error. */
  datatype Output = Out(text: string) | Err(text: string)

  /** What a program started by execv writes, and the status it exits with. */
  datatype Run = Run(output: seq<Output>, status: int)

  /**
   * What becomes of a program once execv has replaced the child: it exits,
   * or it never exits (after writing `output`), and wait(NULL) blocks forever.
   */
  datatype Launch = Ran(run: Run) | Hangs(output: seq<Output>)

  /**
   * home: pw_dir of getpwuid(getuid()); user: getlogin(); interactive:
   * isatty(fileno(stdin)); pathVar: getenv("LITE_SHELL_PATH").
   * present(epoch, cwd, path): access(path, F_OK) succeeds from directory cwd.
   * chdir(epoch, cwd, dir): the new working directory, or None when chdir fails.
   * exec(epoch, cwd, path, argv, shellPath): the started program's fate, or None
   * when execv fails; shellPath is the LITE_SHELL_PATH the program inherits.
   * forkOk(n): whether the shell's n-th fork (counting from 0) succeeds.
   */
  datatype Os = Os(
    home: string,
    user: string,
    interactive: bool,
    pathVar: Option<string>,
    present: (nat, string, string) -> bool,
    chdir: (nat, string, string) -> Option<string>,
    exec: (nat, string, string, seq<string>, Option<string>) -> Option<Launch>,
    forkOk: nat -> bool)

  /** Every program that execv starts exits. */
  ghost predicate ChildrenExit(os: Os) {
    forall epoch, cwd, path, argv, shellPath ::
      os.exec(epoch, cwd, path, argv, shellPath).Some? ==> os.exec(epoch, cwd, path, argv, shellPath).value.Ran?
  }
}
