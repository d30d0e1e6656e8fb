/**
 * getrcwd (shell.c:79-114) and the prompt getcmd prints before reading from a
 * terminal (shell.c:117-123). The working directory and the home directory are
 * inputs here rather than the results of getcwd and getpwuid.
 */
module Prompt {

  /** The backward scan of lines 96-100: the index of the last '/', or -1 when there is none. */
  function LastSlash(s: string, n: nat): (i: int)
    requires n <= |s|
    ensures -1 <= i < n
    ensures i >= 0 ==> s[i] == '/'
    ensures forall k :: i < k < n ==> s[k] != '/'
  {
    if n == 0 then -1
    else if s[n - 1] == '/' then n - 1
    else LastSlash(s, n - 1)
  }

  /**
   * getrcwd: "~" in the home directory; otherwise the last path segment of the
   * working directory, or "/" when that segment is empty (at the root).
   */
  function RelativeCwd(cwd: string, home: string): (r: string)
    ensures cwd == home ==> r == "~"
    ensures cwd != home && r != "/" ==> 0 < |r| <= |cwd| && forall k :: 0 <= k < |r| ==> r[k] == cwd[|cwd| - |r| + k] && r[k] != '/'
    ensures cwd != home && r != "/" ==> |r| == |cwd| || cwd[|cwd| - |r| - 1] == '/'
    ensures cwd != home ==> (r == "/" <==> cwd == [] || cwd[|cwd| - 1] == '/')
  {
    if cwd == home then "~"
    else
      var i := LastSlash(cwd, |cwd|);
      if i + 1 == |cwd| then "/" else cwd[i + 1..]
  }

  /** The prompt printed when standard input is a terminal: "<relative cwd>: <user>$ ". */
  function PromptText(cwd: string, home: string, user: string): string {
    RelativeCwd(cwd, home) + ": " + user + "$ "
  }

  /** Below the home directory, the prompt names the last segment of the path. */
  lemma RelativeCwdSegment(dir: string, seg: string, home: string)
    requires seg != [] && '/' !in seg && dir + "/" + seg != home
    ensures RelativeCwd(dir + "/" + seg, home) == seg
  {
    var cwd := dir + "/" + seg;
    forall k | |dir| < k < |cwd| ensures cwd[k] != '/' {
      assert cwd[k] == seg[k - |dir| - 1];
    }
    assert cwd[|dir|] == '/';
    assert LastSlash(cwd, |cwd|) == |dir|;
    assert cwd[|dir| + 1..] == seg;
  }

  /** At the root, unless it is the home directory, the prompt shows "/". */
  lemma RelativeCwdRoot(home: string)
    requires home != "/"
    ensures RelativeCwd("/", home) == "/"
  {
  }
}
