/**
 * execcmd (shell.c:285-300), as it runs in the forked child: resolve the
 * program, execv it, and leave with status 127 when either step fails.
 */
module Launcher {
  import opened Options
  import opened Parser
  import opened Resolver
  import opened World

  /** The status of _exit(127): command not found, or execv failed. */
  const NOT_FOUND_STATUS: int := 127

  /** What the child becomes after execv: the program, or _exit(127) with no output when execv returns. */
  function Started(o: Option<Launch>): Launch {
    if o.Some? then o.value else Ran(Run([], NOT_FOUND_STATUS))
  }

  /**
   * The child forked in `epoch`. Builtins and empty commands never reach
   * execcmd, so argv[0] exists. A name with a '/' is started as given;
   * otherwise the first search directory holding the name is used, and when
   * none does the child reports "Command not found." and exits with 127.
   * The program inherits the search variable as the search left it.
   */
  function ExecCmd(c: Command, cwd: string, epoch: nat, os: Os): (r: Launch)
    requires c.args != []
    ensures '/' in c.args[0] ==> r == Started(os.exec(epoch, cwd, c.args[0], c.args, os.pathVar))
    ensures '/' !in c.args[0] ==>
      var dirs := SearchDirs(os.pathVar);
      && ((forall i :: 0 <= i < |dirs| ==> !os.present(epoch, cwd, Candidate(dirs[i], c.args[0]))) ==>
            r == Ran(Run([Err("Command not found.\n")], NOT_FOUND_STATUS)))
      && (forall i ::
            (0 <= i < |dirs| && os.present(epoch, cwd, Candidate(dirs[i], c.args[0]))
             && forall j :: 0 <= j < i ==> !os.present(epoch, cwd, Candidate(dirs[j], c.args[0]))) ==>
            r == Started(os.exec(epoch, cwd, Candidate(dirs[i], c.args[0]), c.args, InheritedPathVar(c.args[0], os.pathVar))))
  {
    var present := os.present;
    match GetCmdPath(c.args[0], os.pathVar, p => present(epoch, cwd, p))
    case None => Ran(Run([Err("Command not found.\n")], NOT_FOUND_STATUS))
    case Some(path) => Started(os.exec(epoch, cwd, path, c.args, InheritedPathVar(c.args[0], os.pathVar)))
  }

  /**
   * With LITE_SHELL_PATH=/bin:/usr/bin, a program found only in /usr/bin is
   * started from there, and it sees LITE_SHELL_PATH as just "/bin".
   */
  lemma SecondDirectoryProgramSeesFirstDir(c: Command, cwd: string, epoch: nat, os: Os)
    requires c.args != [] && '/' !in c.args[0] && os.pathVar == Some("/bin:/usr/bin")
    requires !os.present(epoch, cwd, "/bin/" + c.args[0]) && os.present(epoch, cwd, "/usr/bin/" + c.args[0])
    ensures ExecCmd(c, cwd, epoch, os) == Started(os.exec(epoch, cwd, "/usr/bin/" + c.args[0], c.args, Some("/bin")))
  {
    var present := os.present;
    SecondDirectoryHit(c.args[0], p => present(epoch, cwd, p));
    SearchCutsVariable(c.args[0]);
  }
}
