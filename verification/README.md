# LiteShell in Dafny

A model of the command interpreter in `shell.c`, a small Unix shell. The shell
repeats one loop: it shows a prompt when standard input is a terminal, reads a
line, and splits it on spaces into an argument vector. The builtins `cd` and
`exit` run in the shell itself. Any other command runs in a forked child. The
child resolves the program through `LITE_SHELL_PATH` and `execv`s it, and the
shell waits for it.

Every operating-system call whose outcome the shell depends on is a field of
the `World.Os` record:

- `getpwuid`'s home directory;
- `getlogin`;
- `isatty`;
- `getenv("LITE_SHELL_PATH")`;
- `access(F_OK)`;
- `chdir`;
- `execv`, given the `LITE_SHELL_PATH` the program inherits, and returning
  what the program writes and either its exit status or the fact that it
  never exits;
- `fork`, given as success or failure.

The calls that look at the file system (`access`, `chdir`, `execv`) and
`fork` take an epoch: the number of children forked before the call. A
program the shell runs may create, remove or rename files, so a later turn
can see a different file system than an earlier one. Between two children the
file system is fixed. The prompt is the exception: it names the directory the
last successful `chdir` returned, whatever children did to it since (see
"Left out").

Standard input is the string not yet read, and everything the shell shows is
a sequence of events. Every Dafny `char` stands for one byte: input lines,
paths and names are byte strings, so `fgets`'s 1024-byte limit counts
`char`s. Within those limits (see "Left out"), a session is a
function of the input and the `Os` record.

Modules, in dependency order:

- `Options`: `Option<T>`.
- `Tokenize`: `strtok` with a one-character delimiter, as the function
  `Tokens`. It proves:
  - the tokens are the maximal delimiter-free runs, and that decomposition is
    unique;
  - the split/join round trips in both directions.
- `Parser`: `parsecmd`.
  - `Parse` is its meaning.
  - `ParseCmd` mirrors its loop, with the `argv` array that doubles its
    capacity, and is proved to build exactly the argument vector of `Parse`.
- `Reader`: `getcmd` after the prompt. It models `fgets` with the 1024-byte
  limit, `strlen`'s view of the buffer, and the newline trim.
- `Prompt`: `getrcwd` and the prompt text.
- `World`: the `Os` record and the output events of a program.
- `Resolver`: `is_path` and `get_cmd_path`.
- `Builtins`: `builtin_command`, `cd` and `terminate`.
- `Launcher`: `execcmd`, as run in the child.
- `Session`: `main`'s loop as a state machine, `Step` for one turn and
  `Lifetime` for a whole session.

Three details of the code are easy to misread:

- When `execv` fails, the child exits with 127 and writes nothing. Its
  diagnostic exists only in `DEBUG` builds (shell.c:296-299).
- `exit` prints `"Session closed.\n"` through `puts`, which adds another
  newline. End of input prints `"Session closed."` through `puts`, so one
  newline.
- `getenv` (shell.c:218) returns the environment's own string, and `strtok`
  (shell.c:223) writes a NUL over the ':' after the first directory. A
  program found by the search therefore inherits `LITE_SHELL_PATH` cut right
  after its first directory: with `/bin:/usr/bin` it sees `/bin`.

## Model

| member | source | states |
|---|---|---|
| Tokenize.TokensWellFormed | shell.c:154-187 | strtok never yields an empty token or one that contains the delimiter |
| Tokenize.StrtokStep | shell.c:187 | one strtok call skips the delimiters at the resume point, returns the run up to the next delimiter, and the tokens still to come are that run followed by the tokens after it; with only delimiters left there are no more tokens |
| Tokenize.SkipDelims | shell.c:154 | skipping the leading delimiters loses no token |
| Tokenize.TakeRun | shell.c:187 | from a non-delimiter, the run up to the next delimiter is the first token |
| Tokenize.NoTokensIffAllDelim | shell.c:154 | the first strtok call returns NULL exactly when the string is empty or consists only of delimiters |
| Tokenize.TokensAreMaximalRuns | shell.c:152-189 | the tokens are the maximal delimiter-free runs, left to right, with non-empty delimiter runs between them and possibly empty ones at either end |
| Tokenize.MaximalRunsAreTokens | shell.c:152-189 | any such decomposition of a string into delimiter runs and tokens has exactly the tokens strtok yields |
| Tokenize.TokensOfJoin | shell.c:217-236 | joining non-empty delimiter-free items with one delimiter and splitting again gives the items back |
| Tokenize.JoinOfTokens | shell.c:152-189 | a string with no leading, trailing or doubled delimiter is rebuilt by joining its tokens with single delimiters |
| Tokenize.TokensAfterDelim | shell.c:187 | a first run ended by one delimiter is the first token, and the tokens of the rest follow it |
| Parser.Realloc | shell.c:176 | realloc keeps the existing slots up to the new size |
| Parser.Strtok | shell.c:154-187 | a returned token lies at or after the resume position and is non-empty |
| Parser.Push | shell.c:171-185 | the capacity stays or doubles; after the store the array has argv_cap + 1 slots and argc + 1 < argv_cap, so the next store and the sentinel are in bounds; the token lands at index argc and the earlier slots are kept |
| Parser.StoredIsArgv | shell.c:192 | tokens stored in order, then the sentinel at index argc, form the command's NULL-terminated argument vector |
| Parser.StoreToken | shell.c:171-188 | one turn of the loop keeps the scan invariant: stored tokens plus tokens still to come are all the tokens of the line, and argv holds the stored ones |
| Parser.ParseCmd | shell.c:152-201 | argc is the number of tokens; argv[0..argc] is the tokens in order followed by NULL; every store is in bounds; the capacity is the least power of two above argc; the array has argv_cap + 1 slots, or the single initial slot when the line had no token |
| Parser.ParseIsMaximalRuns | shell.c:152-189 | the parsed arguments are exactly the maximal runs of non-space characters of the line, in order (both directions) |
| Parser.ParseArgsWellFormed | shell.c:184-185 | every argument is non-empty and free of spaces |
| Parser.ParseEmptyLine | shell.c:170-192 | a line yields no argument exactly when it is all spaces, and exactly then argv[0] is the NULL sentinel |
| Parser.ParseJoinRoundTrip | shell.c:152-189 | a line without leading, trailing or repeated spaces is the join of its arguments with single spaces |
| Parser.JoinParseRoundTrip | shell.c:152-189 | arguments that are non-empty and space-free are parsed back from their space-joined line |
| Reader.LineChunk | shell.c:125 | fgets stores a prefix of the input of at most limit - 1 characters, stopping right after the first newline or at end of input, and is non-empty when input remains |
| Reader.Fgets | shell.c:125-127 | fgets fails exactly at end of input; otherwise what it stores followed by what is left is the input, and it stores 1 to limit - 1 characters |
| Reader.CString | shell.c:130 | strlen sees the prefix of the buffer before the first NUL, and no NUL in it |
| Reader.TrimNewline | shell.c:129-132 | the line loses exactly one final newline if it has one and is otherwise unchanged |
| Reader.TrimNewlineAsWritten | shell.c:129-132 | the unguarded trim reads before the buffer exactly when strlen is 0, and otherwise agrees with the guarded trim |
| Reader.GetCmd | shell.c:116-139 | getcmd fails exactly at end of input; otherwise the line has no newline and the unread input shrinks |
| Reader.GetCmdReadsLine | shell.c:125-132 | a NUL-free line of at most 1022 characters ended by a newline is read back exactly, and the input resumes after the newline |
| Reader.GetCmdReadsLastLine | shell.c:125-132 | a final line without newline, of 1 to 1023 characters, is read back exactly |
| Reader.GetCmdSplitsLongLine | shell.c:52-55 | a line of 1023 characters or more is returned as its first 1023 characters; the rest is read as the next command |
| Reader.CStringNoNul | shell.c:130 | strlen of a NUL-free buffer is its length |
| Reader.NulFirstLineReadsBeforeBuffer | shell.c:125-132 | the input "\0\n" passes fgets, makes strlen 0 so that the unguarded trim reads before the buffer, and the guarded getcmd yields the empty line |
| Prompt.LastSlash | shell.c:96-100 | the backward scan stops at the last '/' before the given position, or reports -1 when there is none |
| Prompt.RelativeCwd | shell.c:90-110 | "~" when cwd is the home directory; otherwise a non-empty '/'-free suffix of cwd that starts the string or follows a '/', or "/" exactly when cwd ends in '/' (the root) |
| Prompt.RelativeCwdSegment | shell.c:93-105 | for dir/seg with seg free of '/' and not the home directory, the prompt shows seg |
| Prompt.RelativeCwdRoot | shell.c:107-110 | at the root, unless it is the home directory, the prompt shows "/" |
| Resolver.IsPath | shell.c:203-210 | is_path is true exactly when the name contains '/' |
| Resolver.FirstHit | shell.c:224-236 | the search stops at the first directory whose candidate exists; every directory before it fails the test |
| Resolver.GetCmdPath | shell.c:212-240 | a name with '/' is returned unchanged; otherwise a result exists exactly when some search directory's candidate exists, and it is the candidate of the first such directory |
| Resolver.PathNameUnchanged | shell.c:212-215 | a name with '/' resolves to itself whatever LITE_SHELL_PATH holds and whatever exists |
| Resolver.SearchDirsWellFormed | shell.c:220-223 | every searched directory is non-empty and free of ':'; empty segments are skipped |
| Resolver.NoSearchDirsNotFound | shell.c:217-239 | with the variable unset, empty or only ':'s, a name without '/' resolves to NULL |
| Resolver.SearchDirsOfJoin | shell.c:220-236 | a variable built by joining ':'-free directories with ':' is searched in exactly that order |
| Resolver.SecondDirectoryHit | shell.c:217-236 | with LITE_SHELL_PATH=/bin:/usr/bin, any name without '/' that exists in /usr/bin but not in /bin resolves to its /usr/bin path |
| Resolver.FillCandidate | shell.c:225-228 | strcpy and strcat fit a block exactly when it holds the directory, the '/', the name and the NUL; the bytes are the candidate then NUL |
| Resolver.CandidateAsWrittenOverruns | shell.c:225 | the block allocated on line 225 is too small for every directory and name |
| Resolver.CandidateBuffer | shell.c:225-228 | with one more byte, the block holds exactly the candidate followed by NUL |
| Resolver.InheritedPathVar | shell.c:218-235 | the search leaves LITE_SHELL_PATH whole for a name with '/', an unset variable or one with no directory; otherwise it becomes its leading ':'s followed by its first directory, cut where the next ':' stood |
| Resolver.InheritedPathVarKeepsFirstDir | shell.c:218-235 | after a search, the variable holds exactly one directory: the first one searched |
| Resolver.SearchCutsVariable | shell.c:218-223 | after a search of /bin:/usr/bin for any name without '/', the variable reads "/bin" |
| Resolver.DoubledColonCut | shell.c:218-223 | after a search of /bin::/usr/bin for any name without '/', the variable reads "/bin": the cut falls on the first ':' after the first directory |
| Builtins.FindBuiltin | shell.c:275-280 | the table lookup finds a handler exactly when some entry from the start index on has the name, and it returns that entry's handler |
| Builtins.BuiltinNames | shell.c:266-282 | the handler is cd exactly for "cd", terminate exactly for "exit", and there is none for any other name |
| Builtins.CdWithoutOperandPassesNull | shell.c:247-252 | for the line "cd" the argument array has two slots and argv[1] is the NULL sentinel |
| Builtins.CdOperandMatchesArgv | shell.c:249 | cd's operand is argv[1] when that is an argument, and is missing exactly when argv[1] is the sentinel |
| Builtins.Cd | shell.c:247-252 | a chdir that succeeds moves the shell silently; a failed chdir, or a missing operand, keeps the directory and writes one "cd: …: no such file or directory." line to standard error |
| Builtins.BuiltinCommand | shell.c:263-283 | an empty command is handled with no effect; the command is not a builtin exactly when argv[0] is neither "cd" nor "exit"; it terminates exactly for "exit", printing "Session closed.\n\n"; "cd" runs cd |
| Builtins.EmptyLineHandled | shell.c:270-273 | an empty or all-space line is reported handled, with no output and no change of directory |
| Builtins.FailedCdKeepsDirectory | shell.c:247-252 | a failed cd is handled: the directory is unchanged and the only output is the error line |
| Launcher.SecondDirectoryProgramSeesFirstDir | shell.c:285-292 | with LITE_SHELL_PATH=/bin:/usr/bin, a program found only in /usr/bin is started from there and inherits LITE_SHELL_PATH=/bin |
| Launcher.ExecCmd | shell.c:285-300 | a name with '/' is started as given; otherwise the first candidate that exists in the current epoch is started; with no candidate the child writes "Command not found." to standard error and exits 127; an execv that fails exits 127; the started program inherits LITE_SHELL_PATH as the search left it, and may exit or never exit |
| Session.Execute | shell.c:57-65 | running a read line consumes exactly that line, only appends to what is shown, and when it stops the shell it does so with status 1 right after "fork1 error." or status 0 right after terminate's goodbye; it is left waiting only after a successful fork |
| Session.Step | shell.c:55-66 | a turn that keeps running consumes input; output only grows; the shell exits only with status 0 after a "Session closed." text or status 1 after "fork1 error.", or is left waiting, only after a successful fork, on a child that never exits |
| Session.Lifetime | shell.c:51-71 | every session stops running: it exits with status 0 or 1 and the matching last event, or waits for good in wait(NULL) on a child that never exits; it extends what was shown before |
| Session.SessionExitsWhenChildrenExit | shell.c:51-71 | when every program the shell starts exits, every session ends by exiting, with status 0 or 1 |
| Session.StepNeverWaits | shell.c:62-65 | when every program exits, no turn leaves the shell blocked in wait |
| Session.HangingChildBlocks | shell.c:62-65 | a started program that never exits leaves the shell blocked in wait(NULL): no further input is read and nothing more is shown |
| Session.ProgramRuns | shell.c:57-65 | a line naming a program that is started and exits is consumed, the fork count grows by one, the directory is unchanged, the child's output follows the prompt, and the shell reads on |
| Session.LaterTurnsSeeChildren | shell.c:55-65 | for the input "cd d", "mkdir d", "cd d" with d missing at first: the first cd fails, mkdir runs as a child, and the second cd consults the file system as that child left it |
| Session.EndOfInput | shell.c:55-70 | at end of input the shell shows the prompt, prints "Session closed.\n" and exits with status 0 |
| Session.EmptyLineIsNoOp | shell.c:57-60 | an empty or all-space line changes nothing but the input, after the prompt |
| Session.FailedCdContinues | shell.c:247-252 | a failed cd keeps the directory and the fork count, shows one error line and the session goes on |
| Session.CdMovesPrompt | shell.c:247-252 | after a successful cd the shell is in the new directory without forking, and on a terminal the next turn's first event is the prompt (lines 117-121) naming that directory |
| Session.StepShowsPrompt | shell.c:117-123 | on a terminal, every turn first shows the prompt for the directory the last successful chdir returned |
| Session.ExitTerminates | shell.c:258-261 | "exit" ends the session with status 0 and terminate's goodbye, whatever input follows |
| Session.ForksOnlyForPrograms | shell.c:58-64 | the fork count grows, by one, exactly for a non-empty line whose command is neither cd nor exit and whose fork succeeds; the directory is then unchanged and the shell has not exited |
| Session.ForkFailureExits | shell.c:141-150 | a failed fork ends the shell with status 1 after "fork1 error." |
| Session.ChildStatusIgnored | shell.c:65 | the shell's next state is the same whatever status the children exit with |
| Session.ExecuteIgnoresStatus | shell.c:62-65 | after a line is read, the child's exit status does not change what the shell does |
| Session.StepShowsNoPrompt | shell.c:117-123 | without a terminal on standard input, one turn shows no prompt |
| Session.NoPromptWhenPiped | shell.c:117-123 | without a terminal on standard input, a whole session shows no prompt |

## Left out

- `src/ls.c`, `src/touch.c` and `src/mkdir.c` are separate programs that wrap system calls. They are not part of this model.
- Allocation failure is not modelled: memory is unbounded. The diagnostics and `exit(EXIT_FAILURE)` on lines 157-159, 164-166 and 176-179 never happen in the model.
- Memory leaks and `free` are not modelled: the command on line 56 and the candidate paths on line 225 are never freed.
- The real system calls are fields of `World.Os`: their outcomes are inputs, not computed. This covers `isatty`, `getlogin`, `getpwuid`, `getenv`, `access`, `chdir`, `fork` and `execv`.
- Relative directories in `LITE_SHELL_PATH` depend on the working directory. The model passes the working directory to the existence test and does not resolve paths.
- `getcwd` (shell.c:84) is not called by the model. `getrcwd` is given the directory the last successful `chdir` returned. `getcwd` returns NULL, which `strcmp` on line 90 then dereferences, when the path is longer than 1023 bytes or when the directory no longer exists.
- Session.StepShowsPrompt: the prompt names the directory the last successful `chdir` returned, not what `getcwd` answers. A child that renames that directory (after "mkdir d", "cd d", the line "mv ../d ../e") leaves the model's prompt at "d" where the shell shows "e". A child that removes it (the line "rmdir ../d") makes `getcwd` return NULL, and the interactive shell crashes at line 90; that end of a session is not among those `Session.Lifetime` lists.
- A NULL result of `getpwuid` or `getlogin` is not modelled.
- Stream errors of `fgets` are treated like end of input. A line of 1023 bytes or more is split, as `fgets` splits it.
- `strtok` overwrites delimiters with NUL in the line buffer and in the environment string. `Tokens` returns copies instead. The cut environment string matters only to the program the child starts, which receives it through `Resolver.InheritedPathVar`; the shell itself never sees the change.
- Of the environment, only `LITE_SHELL_PATH` is passed to `Os.exec`. The other variables are inherited unchanged and are not modelled.
- Multi-byte encodings are not modelled: every `char` is one byte, so a line of UTF-8 text is modelled by its bytes, one `char` each.
- `wait(NULL)` waits for one child, forever when the child never exits. Concurrency, signals and the order in which the shell's and the child's writes reach a terminal are not modelled. Each child's output is placed after the prompt of its turn.
- stdio buffering is not modelled. The prompt has no newline, and the child leaves with `_exit`, so the child never flushes a copy of the prompt.
- The `DEBUG` diagnostics on lines 134-136, 194-198 and 296-298 are not modelled.
- Session.Lifetime: it states how a session stops, not the whole output sequence. The turn-by-turn lemmas about `Step` give the output of each case.
- Children do not read the shell's standard input. In the real shell a child such as `cat` can consume lines meant for the shell; how much it takes depends on stdio buffering in both processes, so the model gives every line to the shell.
- The file system changes only between children, never during one: the epoch counts children, not system calls.

## Findings

| source | as written | input that shows it | evidently intended | confidence | as-written member | corrected member |
|---|---|---|---|---|---|---|
| shell.c:225 | allocates strlen(ps) + strlen(s) + 1 bytes, then writes the directory, '/', the name and a NUL: one byte past the block | any directory and name, e.g. LITE_SHELL_PATH=/bin and the command "ls" (needs 8 bytes, gets 7) | strlen(ps) + strlen(s) + 2 bytes | high, not executed | Resolver.CandidateAsWritten (Resolver.CandidateAsWrittenOverruns) | Resolver.CandidateBuffer |
| shell.c:249 | `cd` passes argv[1] to chdir and to a "%s" format even when it is the NULL sentinel | the line "cd" | treat a missing operand as a failed cd without calling chdir; the model writes the same "(null)" text glibc prints | high, not executed | Builtins.CdOperandAsWritten (Builtins.CdWithoutOperandPassesNull) | Builtins.Cd |
| shell.c:130 | reads buff[strlen(buff) - 1] before checking that strlen is positive | the input "\0\n": fgets succeeds, strlen is 0, the read lands before the buffer | test strlen(buff) > 0 first | high, not executed | Reader.TrimNewlineAsWritten (Reader.NulFirstLineReadsBeforeBuffer) | Reader.TrimNewline |
