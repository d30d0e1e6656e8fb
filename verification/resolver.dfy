/**
 * is_path and get_cmd_path (shell.c:203-240): a command name holding a '/' is
 * used as given; any other name is looked up in the ':'-separated directories
 * of LITE_SHELL_PATH, and the first candidate "dir/name" that exists wins.
 * The variable's value and the existence test (access with F_OK) are inputs.
 */
module Resolver {
  import opened Options
  import opened Tokenize

  /** The separator of the directories in LITE_SHELL_PATH. */
  const COLON: char := ':'

  /** is_path: scan the name for a '/'. */
  method IsPath(s: string) returns (b: bool)
    ensures b <==> '/' in s
  {
    var i := 0;
    while i < |s|
      invariant i <= |s|
      invariant forall k :: 0 <= k < i ==> s[k] != '/'
    {
      if s[i] == '/' {
        return true;
      }
      i := i + 1;
    }
    return false;
  }

  /** The path probed for `name` in directory `dir`: strcpy, strcat "/", strcat name. */
  function Candidate(dir: string, name: string): string {
    dir + "/" + name
  }

  /** The directories strtok yields from the variable; none when it is unset. */
  function SearchDirs(pathVar: Option<string>): seq<string> {
    match pathVar
    case None => []
    case Some(p) => Tokens(p, COLON)
  }

  /**
   * The index of the first directory, from `from` on, whose candidate exists,
   * or |dirs| when there is none.
   */
  function FirstHit(dirs: seq<string>, name: string, present: string -> bool, from: nat): (i: nat)
    requires from <= |dirs|
    ensures from <= i <= |dirs|
    ensures i < |dirs| ==> present(Candidate(dirs[i], name))
    ensures forall j :: from <= j < i ==> !present(Candidate(dirs[j], name))
    decreases |dirs| - from
  {
    if from == |dirs| then from
    else if present(Candidate(dirs[from], name)) then from
    else FirstHit(dirs, name, present, from + 1)
  }

  /**
   * get_cmd_path: the name itself when it holds a '/'; otherwise the first
   * existing candidate over the search directories, in order; None (NULL) when
   * the variable is unset or no candidate exists.
   */
  function GetCmdPath(name: string, pathVar: Option<string>, present: string -> bool): (r: Option<string>)
    ensures '/' in name ==> r == Some(name)
    ensures '/' !in name ==>
      (r.Some? <==> exists i :: 0 <= i < |SearchDirs(pathVar)| && present(Candidate(SearchDirs(pathVar)[i], name)))
    ensures '/' !in name && r.Some? ==>
      exists i :: 0 <= i < |SearchDirs(pathVar)| && r.value == Candidate(SearchDirs(pathVar)[i], name)
        && present(r.value)
        && forall j :: 0 <= j < i ==> !present(Candidate(SearchDirs(pathVar)[j], name))
  {
    if '/' in name then Some(name)
    else
      var dirs := SearchDirs(pathVar);
      var i := FirstHit(dirs, name, present, 0);
      if i < |dirs| then Some(Candidate(dirs[i], name)) else None
  }

  /** A name holding a '/' is never looked up, whatever the variable holds. */
  lemma PathNameUnchanged(name: string, pathVar: Option<string>, present: string -> bool)
    requires exists k :: 0 <= k < |name| && name[k] == '/'
    ensures GetCmdPath(name, pathVar, present) == Some(name)
  {
  }

  /** Each search directory is non-empty and free of ':'; empty segments are skipped. */
  lemma SearchDirsWellFormed(pathVar: Option<string>)
    ensures forall i :: 0 <= i < |SearchDirs(pathVar)| ==> SearchDirs(pathVar)[i] != [] && COLON !in SearchDirs(pathVar)[i]
  {
    if pathVar.Some? {
      TokensWellFormed(pathVar.value, COLON);
    }
  }

  /** An unset variable, or one holding only ':'s (the empty value among them), finds nothing. */
  lemma NoSearchDirsNotFound(name: string, pathVar: Option<string>, present: string -> bool)
    requires '/' !in name
    requires pathVar.None? || forall k :: 0 <= k < |pathVar.value| ==> pathVar.value[k] == COLON
    ensures GetCmdPath(name, pathVar, present) == None
  {
    if pathVar.Some? {
      NoTokensIffAllDelim(pathVar.value, COLON);
    }
  }

  /** A variable built by joining ':'-free directory names with ':' is searched in exactly that order. */
  lemma SearchDirsOfJoin(dirs: seq<string>)
    requires forall i :: 0 <= i < |dirs| ==> dirs[i] != [] && COLON !in dirs[i]
    ensures SearchDirs(Some(Join(dirs, [COLON]))) == dirs
  {
    TokensOfJoin(dirs, COLON);
  }

  /** With LITE_SHELL_PATH=/bin:/usr/bin, a bare name resolves to its /usr/bin file when only that one exists. */
  lemma SecondDirectoryHit(name: string, present: string -> bool)
    requires '/' !in name
    requires !present("/bin/" + name) && present("/usr/bin/" + name)
    ensures GetCmdPath(name, Some("/bin:/usr/bin"), present) == Some("/usr/bin/" + name)
  {
    var dirs := ["/bin", "/usr/bin"];
    assert Join(dirs[1..], [COLON]) == "/usr/bin";
    assert Join(dirs, [COLON]) == "/bin:/usr/bin";
    SearchDirsOfJoin(dirs);
    assert Candidate(dirs[0], name) == "/bin/" + name;
    assert Candidate(dirs[1], name) == "/usr/bin/" + name;
    assert FirstHit(dirs, name, present, 0) == 1;
  }

  /**
   * The LITE_SHELL_PATH that the child leaves to the program it starts.
   * getenv returns the environment's own copy, and strtok writes a NUL over
   * the ':' after the first directory it returns, so the variable is cut
   * right after the first directory. A name with a '/' skips the search and
   * leaves the variable whole.
   */
  function InheritedPathVar(name: string, pathVar: Option<string>): (r: Option<string>)
    ensures '/' in name || pathVar.None? || SearchDirs(pathVar) == [] ==> r == pathVar
    ensures pathVar.Some? <==> r.Some?
    ensures pathVar.Some? ==> r.value <= pathVar.value
    ensures pathVar.Some? && r.value != pathVar.value ==> pathVar.value[|r.value|] == COLON
    ensures '/' !in name && SearchDirs(pathVar) != [] ==>
      exists g :: AllDelim(g, COLON) && r == Some(g + SearchDirs(pathVar)[0])
  {
    if '/' in name || pathVar.None? then pathVar
    else
      var p := pathVar.value;
      var j := SkipFrom(p, 0, COLON);
      FirstDirToken(p);
      if j == |p| then pathVar
      else
        FirstDirPrefix(p);
        Some(p[..RunEnd(p, j, COLON)])
  }

  /** strtok's first call on the variable: NULL exactly when only ':'s remain, else the run after them. */
  lemma FirstDirToken(p: string)
    ensures var j := SkipFrom(p, 0, COLON);
      && (j == |p| <==> Tokens(p, COLON) == [])
      && (j < |p| ==> Tokens(p, COLON)[0] == p[j..RunEnd(p, j, COLON)])
  {
    assert p[0..] == p;
    StrtokStep(p, 0, COLON);
  }

  /** The variable up to the end of its first directory: the leading ':'s, then that directory. */
  lemma FirstDirPrefix(p: string)
    requires SkipFrom(p, 0, COLON) < |p|
    ensures var j := SkipFrom(p, 0, COLON);
      var e := RunEnd(p, j, COLON);
      AllDelim(p[..j], COLON) && p[..e] == p[..j] + p[j..e]
  {
    var j := SkipFrom(p, 0, COLON);
    DelimPrefix(p, j, RunEnd(p, j, COLON));
  }

  /** Cutting a string at e, when its first j characters are ':'s. */
  lemma DelimPrefix(p: string, j: nat, e: nat)
    requires j <= e <= |p|
    requires forall k :: 0 <= k < j ==> p[k] == COLON
    ensures AllDelim(p[..j], COLON) && p[..e] == p[..j] + p[j..e]
  {
    assert p[..e] == p[..j] + p[j..e];
  }

  /** The started program finds only the first directory in the variable it inherits. */
  lemma InheritedPathVarKeepsFirstDir(name: string, pathVar: Option<string>)
    requires '/' !in name && SearchDirs(pathVar) != []
    ensures SearchDirs(InheritedPathVar(name, pathVar)) == [SearchDirs(pathVar)[0]]
  {
    var first := SearchDirs(pathVar)[0];
    var g :| AllDelim(g, COLON) && InheritedPathVar(name, pathVar) == Some(g + first);
    TokensWellFormed(pathVar.value, COLON);
    TokensSkipPrefix(g, first, COLON);
    TokensCons(first, [], COLON);
    assert first + [] == first;
  }

  /** With LITE_SHELL_PATH=/bin:/usr/bin, every program found by the search inherits "/bin". */
  lemma SearchCutsVariable(name: string)
    requires '/' !in name
    ensures InheritedPathVar(name, Some("/bin:/usr/bin")) == Some("/bin")
  {
    var p := "/bin:/usr/bin";
    assert p[4] == COLON && p[0] != COLON;
    assert RunEnd(p, 4, COLON) == 4;
    assert RunEnd(p, 3, COLON) == 4;
    assert RunEnd(p, 2, COLON) == 4;
    assert RunEnd(p, 1, COLON) == 4;
    assert RunEnd(p, 0, COLON) == 4;
    assert p[..4] == "/bin";
  }

  /** A doubled ':' after the first directory is cut at its first ':' as well. */
  lemma DoubledColonCut(name: string)
    requires '/' !in name
    ensures InheritedPathVar(name, Some("/bin::/usr/bin")) == Some("/bin")
  {
    var p := "/bin::/usr/bin";
    assert p[0] != COLON && p[4] == COLON;
    assert RunEnd(p, 4, COLON) == 4;
    assert RunEnd(p, 3, COLON) == 4;
    assert RunEnd(p, 2, COLON) == 4;
    assert RunEnd(p, 1, COLON) == 4;
    assert RunEnd(p, 0, COLON) == 4;
    assert p[..4] == "/bin";
  }

  /**
   * strcpy and strcat of the candidate, with its terminating NUL, into a block
   * of `size` bytes: the bytes written, or None when they overrun the block.
   */
  function FillCandidate(dir: string, name: string, size: nat): (r: Option<string>)
    ensures r.Some? <==> |dir| + |name| + 2 <= size
    ensures r.Some? ==> |r.value| == |dir| + |name| + 2 && r.value[|r.value| - 1] == '\0'
    ensures r.Some? ==> forall k :: 0 <= k < |r.value| - 1 ==> r.value[k] == Candidate(dir, name)[k]
  {
    if |dir| + |name| + 2 <= size then Some(Candidate(dir, name) + ['\0']) else None
  }

  /** Line 225 as written: strlen(ps) + strlen(s) + 1 bytes. */
  function CandidateAsWritten(dir: string, name: string): Option<string> {
    FillCandidate(dir, name, |dir| + |name| + 1)
  }

  /** The block of line 225 is one byte short for every directory and name: the NUL lands past its end. */
  lemma CandidateAsWrittenOverruns(dir: string, name: string)
    ensures CandidateAsWritten(dir, name) == None
  {
  }

  /** The block with room for the '/' and the NUL holds exactly the candidate followed by NUL. */
  function CandidateBuffer(dir: string, name: string): (r: Option<string>)
    ensures r.Some? && |r.value| == |Candidate(dir, name)| + 1
    ensures r.value[..|r.value| - 1] == Candidate(dir, name) && r.value[|r.value| - 1] == '\0'
  {
    FillCandidate(dir, name, |dir| + |name| + 2)
  }
}
