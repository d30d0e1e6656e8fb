/**
 * getcmd (shell.c:116-139): one fgets into the line buffer, then the trailing
 * newline, if any, is cut off. Standard input is modelled as the string of
 * characters not yet read, one `char` per byte.
 */
module Reader {
  import opened Options

  /** The `limit` main passes to getcmd, and so to fgets (shell.c:52-55). */
  const BUFFER_SIZE: nat := 1024

  /**
   * What fgets stores from `input`: characters up to and including the first
   * newline, but at most `room` of them.
   */
  function LineChunk(input: string, room: nat): (c: string)
    ensures c <= input && |c| <= room
    ensures forall i :: 0 <= i < |c| - 1 ==> c[i] != '\n'
    ensures |c| == room || |c| == |input| || (c != [] && c[|c| - 1] == '\n')
    ensures room > 0 && input != [] ==> c != []
  {
    if input == [] || room == 0 then []
    else if input[0] == '\n' then ['\n']
    else [input[0]] + LineChunk(input[1..], room - 1)
  }

  /**
   * fgets(buff, limit, stdin): None at end of input; otherwise the characters
   * stored in the buffer and the input left unread. A line longer than
   * limit - 1 characters is returned in pieces by successive calls.
   */
  function Fgets(input: string, limit: nat): (r: Option<(string, string)>)
    requires limit >= 2
    ensures r.None? <==> input == []
    ensures r.Some? ==> r.value.0 + r.value.1 == input
    ensures r.Some? ==> 0 < |r.value.0| <= limit - 1
  {
    if input == [] then None
    else
      var c := LineChunk(input, limit - 1);
      assert input == c + input[|c|..];
      Some((c, input[|c|..]))
  }

  /** What strlen sees of a buffer: the characters before the first NUL. */
  function CString(buff: string): (s: string)
    ensures s <= buff && '\0' !in s
    ensures |s| == |buff| || buff[|s|] == '\0'
  {
    if buff == [] || buff[0] == '\0' then [] else [buff[0]] + CString(buff[1..])
  }

  /**
   * Lines 129-132 with the empty string handled: a final newline is removed,
   * anything else is left alone.
   */
  function TrimNewline(buff: string): (line: string)
    ensures buff == line + "\n" || (line == buff && (buff == [] || buff[|buff| - 1] != '\n'))
  {
    if buff != [] && buff[|buff| - 1] == '\n' then buff[..|buff| - 1] else buff
  }

  /**
   * Lines 129-132 as written: the index strlen(buff) - 1 is read before any
   * check, so an empty string reads one character before the buffer. None
   * stands for that read.
   */
  function TrimNewlineAsWritten(buff: string): (r: Option<string>)
    ensures r.None? <==> buff == []
    ensures r.Some? ==> r.value == TrimNewline(buff)
  {
    var i := |buff| - 1;
    if i < 0 then None
    else if buff[i] == '\n' then Some(buff[..i])
    else Some(buff)
  }

  /** getcmd: the next line without its newline and the input left, or None at end of input. */
  function GetCmd(input: string): (r: Option<(string, string)>)
    ensures r.None? <==> input == []
    ensures r.Some? ==> |r.value.1| < |input| && '\n' !in r.value.0
  {
    match Fgets(input, BUFFER_SIZE)
    case None => None
    case Some((chunk, rest)) => Some((TrimNewline(CString(chunk)), rest))
  }

  /** A line shorter than the buffer, NUL-free and ended by a newline, is read back exactly. */
  lemma GetCmdReadsLine(line: string, more: string)
    requires |line| < BUFFER_SIZE - 1 && '\n' !in line && '\0' !in line
    ensures GetCmd(line + "\n" + more) == Some((line, more))
  {
    var input := line + "\n" + more;
    LineChunkOfLine(line, more, BUFFER_SIZE - 1);
    assert input[|line + "\n"|..] == more;
    CStringNoNul(line + "\n");
  }

  /** The last line of the input, when it has no newline, is read back exactly. */
  lemma GetCmdReadsLastLine(line: string)
    requires 0 < |line| <= BUFFER_SIZE - 1 && '\n' !in line && '\0' !in line
    ensures GetCmd(line) == Some((line, []))
  {
    LineChunkWhole(line, BUFFER_SIZE - 1);
    CStringNoNul(line);
  }

  /** A line of at least BUFFER_SIZE - 1 characters comes back in a first piece of exactly that length. */
  lemma GetCmdSplitsLongLine(line: string, more: string)
    requires |line| >= BUFFER_SIZE - 1 && '\n' !in line && '\0' !in line
    ensures GetCmd(line + more) == Some((line[..BUFFER_SIZE - 1], line[BUFFER_SIZE - 1..] + more))
  {
    var input := line + more;
    LineChunkLong(line, more, BUFFER_SIZE - 1);
    assert input[BUFFER_SIZE - 1..] == line[BUFFER_SIZE - 1..] + more;
    CStringNoNul(line[..BUFFER_SIZE - 1]);
  }

  /** fgets stops right after the newline that ends a short line. */
  lemma {:induction false} LineChunkOfLine(line: string, more: string, room: nat)
    requires |line| < room && '\n' !in line
    ensures LineChunk(line + "\n" + more, room) == line + "\n"
    decreases |line|
  {
    if line != [] {
      assert (line + "\n" + more)[1..] == line[1..] + "\n" + more;
      LineChunkOfLine(line[1..], more, room - 1);
    }
  }

  /** fgets takes all of a newline-free input that fits. */
  lemma {:induction false} LineChunkWhole(line: string, room: nat)
    requires |line| <= room && '\n' !in line
    ensures LineChunk(line, room) == line
    decreases |line|
  {
    if line != [] {
      LineChunkWhole(line[1..], room - 1);
    }
  }

  /** fgets stops after `room` characters of a line that has no newline among them. */
  lemma {:induction false} LineChunkLong(line: string, more: string, room: nat)
    requires |line| >= room && '\n' !in line
    ensures LineChunk(line + more, room) == line[..room]
    decreases room
  {
    if room > 0 {
      assert (line + more)[1..] == line[1..] + more;
      LineChunkLong(line[1..], more, room - 1);
    }
  }

  /** strlen of a NUL-free buffer is its whole length. */
  lemma {:induction false} CStringNoNul(buff: string)
    requires '\0' !in buff
    ensures CString(buff) == buff
    decreases |buff|
  {
    if buff != [] {
      CStringNoNul(buff[1..]);
    }
  }

  /**
   * A line whose first character is NUL is read by fgets without complaint,
   * but strlen of the buffer is 0: the unguarded trim then reads before the
   * buffer, where the guarded one leaves the empty line alone.
   */
  lemma NulFirstLineReadsBeforeBuffer()
    ensures Fgets("\0\n", BUFFER_SIZE) == Some(("\0\n", ""))
    ensures TrimNewlineAsWritten(CString("\0\n")).None?
    ensures GetCmd("\0\n") == Some(("", ""))
  {
    assert LineChunk("\0\n", BUFFER_SIZE - 1) == "\0\n";
    assert CString("\0\n") == "";
  }
}
