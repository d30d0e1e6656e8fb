/**
 * parsecmd (shell.c:152-201): the command line is split on spaces with strtok
 * and the tokens are copied, in order, into an argument array that doubles its
 * capacity as it fills and always ends with a NULL sentinel.
 */
module Parser {
  import opened Options
  import opened Tokenize

  /** The only delimiter parsecmd hands to strtok. */
  const SPACE: char := ' '

  /** A parsed command: its arguments in order, argument 0 naming the program. */
  datatype Command = Command(args: seq<string>)

  /** A slot of the C argument array. */
  datatype Slot =
    | Unset              // allocated, never written
    | Null               // the NULL sentinel
    | Arg(value: string) // a copied token

  /** The tokens of the line, as parsecmd collects them. */
  function Parse(line: string): Command {
    Command(Tokens(line, SPACE))
  }

  /** The sentinel-terminated argument array of a command, as execv receives it. */
  function ArgvOf(c: Command): seq<Slot> {
    seq(|c.args| + 1, i requires 0 <= i <= |c.args| => if i < |c.args| then Arg(c.args[i]) else Null)
  }

  /** n is 1, 2, 4, 8, ... */
  predicate IsPowerOfTwo(n: nat) {
    n == 1 || (n > 1 && n % 2 == 0 && IsPowerOfTwo(n / 2))
  }

  /** realloc(block, n slots): the first min(|block|, n) slots are kept, the rest are fresh. */
  function Realloc(block: seq<Slot>, n: nat): (r: seq<Slot>)
    ensures |r| == n
    ensures forall i :: 0 <= i < n && i < |block| ==> r[i] == block[i]
  {
    if n <= |block| then block[..n] else block + seq(n - |block|, _ => Unset)
  }

  /**
   * One strtok call resuming at position `pos` of the line: the bounds of the
   * token it returns, or None when only spaces remain.
   */
  function Strtok(line: string, pos: nat): (r: Option<(nat, nat)>)
    requires pos <= |line|
    ensures r.Some? ==> pos <= r.value.0 < r.value.1 <= |line|
  {
    var j := SkipFrom(line, pos, SPACE);
    if j == |line| then None else Some((j, RunEnd(line, j, SPACE)))
  }

  /**
   * The shape of the argument array between stores: argc tokens stored, room
   * for at least one more slot, and argv_cap a power of two that the count has
   * filled at least halfway. Before the first token only the single slot of
   * line 163 exists.
   */
  predicate ArrayShape(argv: seq<Slot>, argc: nat, cap: nat) {
    && argc < |argv|
    && |argv| == (if argc == 0 then 1 else cap + 1)
    && IsPowerOfTwo(cap) && argc < cap && (cap == 1 || cap / 2 <= argc)
  }

  /**
   * Lines 172-185 for one token: double the capacity when the next token and
   * the sentinel would not both fit, reallocate cap + 1 slots, then store the
   * token at index argc. The earlier slots are kept.
   */
  function Push(argv: seq<Slot>, argc: nat, cap: nat, tok: string): (r: (seq<Slot>, nat))
    requires ArrayShape(argv, argc, cap)
    ensures ArrayShape(r.0, argc + 1, r.1)
    ensures r.1 == cap || r.1 == 2 * cap
    ensures r.0[argc] == Arg(tok)
    ensures forall i :: 0 <= i < argc ==> r.0[i] == argv[i]
  {
    var (grown, cap') := if cap <= argc + 1 then (Realloc(argv, cap * 2 + 1), cap * 2) else (argv, cap);
    (grown[argc := Arg(tok)], cap')
  }

  /** Storing the tokens in order and then the sentinel gives the command's argument array. */
  lemma StoredIsArgv(argv: seq<Slot>, args: seq<string>)
    requires |args| < |argv| && argv[|args|] == Null
    requires forall i :: 0 <= i < |args| ==> argv[i] == Arg(args[i])
    ensures argv[..|args| + 1] == ArgvOf(Command(args))
  {
  }

  /**
   * What holds between two strtok calls: `pos` is where the next call resumes,
   * the tokens already returned (`stored`) followed by those still to come are
   * the tokens of the whole line, and argv holds the stored ones in order.
   */
  ghost predicate Scanning(buff: string, pos: nat, stored: seq<string>, argv: seq<Slot>, argc: nat, cap: nat) {
    && pos <= |buff|
    && stored + Tokens(buff[pos..], SPACE) == Tokens(buff, SPACE)
    && argc == |stored| && ArrayShape(argv, argc, cap)
    && (forall i :: 0 <= i < argc ==> argv[i] == Arg(stored[i]))
  }

  /** One turn of the loop of lines 171-189: store the token strtok returned and call it again. */
  method StoreToken(buff: string, pos: nat, ghost stored: seq<string>, argv: seq<Slot>, argc: nat, cap: nat)
    returns (pos': nat, ghost stored': seq<string>, argv': seq<Slot>, argc': nat, cap': nat)
    requires Scanning(buff, pos, stored, argv, argc, cap) && Strtok(buff, pos).Some?
    ensures Scanning(buff, pos', stored', argv', argc', cap')
    ensures pos < pos' && argc' == argc + 1
  {
    var (start, end) := Strtok(buff, pos).value;
    var tok := buff[start..end];
    var pushed := Push(argv, argc, cap, tok);
    argv', cap' := pushed.0, pushed.1;
    StrtokStep(buff, pos, SPACE);
    var later := Tokens(buff[end..], SPACE);
    assert Tokens(buff[pos..], SPACE) == [tok] + later;
    stored' := stored + [tok];
    assert stored' + later == stored + ([tok] + later);
    argc' := argc + 1;
    pos' := end;
  }

  /**
   * parsecmd: `argv` is the argument array as allocated, `argc` the number of
   * tokens stored and `cap` the final value of argv_cap. Every store, the
   * sentinel's included, is in bounds because each index is checked against
   * the array's length. Capacity grows only by doubling, so it ends as the
   * least power of two above the argument count.
   */
  method ParseCmd(buff: string) returns (argv: seq<Slot>, argc: nat, cap: nat)
    ensures argc == |Parse(buff).args|
    ensures argc < |argv| && argv[..argc + 1] == ArgvOf(Parse(buff))
    ensures |argv| == if argc == 0 then 1 else cap + 1
    ensures IsPowerOfTwo(cap) && argc < cap && (cap == 1 || cap / 2 <= argc)
  {
    var pos := 0;
    argv := [Unset];
    argc, cap := 0, 1;
    ghost var stored: seq<string> := [];
    assert buff[pos..] == buff;
    while Strtok(buff, pos).Some?
      invariant Scanning(buff, pos, stored, argv, argc, cap)
      decreases |buff| - pos
    {
      pos, stored, argv, argc, cap := StoreToken(buff, pos, stored, argv, argc, cap);
    }
    StrtokStep(buff, pos, SPACE);
    argv := argv[argc := Null];
    StoredIsArgv(argv, stored);
  }

  /** The arguments are exactly the maximal runs of non-space characters, in order. */
  lemma ParseIsMaximalRuns(line: string, args: seq<string>)
    ensures Parse(line).args == args <==> exists gaps :: MaximalRuns(line, SPACE, gaps, args)
  {
    if Parse(line).args == args {
      TokensAreMaximalRuns(line, SPACE);
    }
    if exists gaps :: MaximalRuns(line, SPACE, gaps, args) {
      var gaps :| MaximalRuns(line, SPACE, gaps, args);
      MaximalRunsAreTokens(line, SPACE, gaps, args);
    }
  }

  /** No argument is empty or holds a space. */
  lemma ParseArgsWellFormed(line: string)
    ensures forall i :: 0 <= i < |Parse(line).args| ==> Parse(line).args[i] != [] && SPACE !in Parse(line).args[i]
  {
    TokensWellFormed(line, SPACE);
    forall i | 0 <= i < |Parse(line).args|
      ensures SPACE !in Parse(line).args[i]
    {
      assert NoDelim(Parse(line).args[i], SPACE);
    }
  }

  /** An empty or all-space line gives no argument, and argv[0] is the sentinel; any other line gives some. */
  lemma ParseEmptyLine(line: string)
    ensures Parse(line).args == [] <==> forall i :: 0 <= i < |line| ==> line[i] == SPACE
    ensures Parse(line).args == [] <==> ArgvOf(Parse(line))[0] == Null
  {
    NoTokensIffAllDelim(line, SPACE);
  }

  /** A line without leading, trailing or repeated spaces is its arguments joined by single spaces. */
  lemma ParseJoinRoundTrip(line: string)
    requires Canonical(line, SPACE)
    ensures Join(Parse(line).args, [SPACE]) == line
  {
    JoinOfTokens(line, SPACE);
  }

  /** Non-empty space-free arguments joined by single spaces parse back to themselves. */
  lemma JoinParseRoundTrip(args: seq<string>)
    requires forall i :: 0 <= i < |args| ==> args[i] != [] && SPACE !in args[i]
    ensures Parse(Join(args, [SPACE])).args == args
  {
    TokensOfJoin(args, SPACE);
  }
}
