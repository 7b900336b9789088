/**
 Newline framing of the daemon's answers: cutting a stream into chunks does not change its lines.
 */
module LineBuffer {
  import opened ByteStrings

  const MAX_BUFFER_SIZE := 4 * 1024 * 1024

  /** The index of the first newline, or -1: `indexOf("\n")`. */
  function NewlineIndex(s: string): (i: int)
    ensures -1 <= i < |s|
    ensures i == -1 ==> '\n' !in s
    ensures i >= 0 ==> s[i] == '\n' && '\n' !in s[..i]
  {
    if s == "" then -1
    else if s[0] == '\n' then 0
    else
      var i := NewlineIndex(s[1..]);
      if i == -1 then -1 else assert s[..i + 1] == [s[0]] + s[1..][..i]; i + 1
  }

  /** The complete lines at the front of the text. */
  function Lines(s: string): (lines: seq<string>)
    ensures forall j :: 0 <= j < |lines| ==> '\n' !in lines[j]
  {
    var i := NewlineIndex(s);
    if i == -1 then [] else [s[..i]] + Lines(s[i + 1..])
  }

  /** What follows the last newline. */
  function Rest(s: string): (rest: string)
    ensures '\n' !in rest
    ensures |rest| <= |s|
  {
    var i := NewlineIndex(s);
    if i == -1 then s else Rest(s[i + 1..])
  }

  /** Every line followed by a newline. */
  function Joined(lines: seq<string>): string {
    if lines == [] then "" else lines[0] + "\n" + Joined(lines[1..])
  }

  lemma NewlineIndexIs(s: string, i: nat)
    requires i < |s| && s[i] == '\n' && '\n' !in s[..i]
    ensures NewlineIndex(s) == i
  {
  }

  /** Reading one line off the front. */
  lemma FrontLine(line: string, tail: string)
    requires '\n' !in line
    ensures Lines(line + "\n" + tail) == [line] + Lines(tail)
    ensures Rest(line + "\n" + tail) == Rest(tail)
  {
    var s := line + "\n" + tail;
    assert s[..|line|] == line && s[|line| + 1..] == tail && s[|line|] == '\n';
    NewlineIndexIs(s, |line|);
  }

  lemma SplitAtNewline(s: string) returns (line: string, tail: string)
    requires NewlineIndex(s) >= 0
    ensures s == line + "\n" + tail && '\n' !in line && |tail| < |s|
  {
    var i := NewlineIndex(s);
    line, tail := s[..i], s[i + 1..];
  }

  /** Lines and rest lose nothing of the text. */
  lemma {:induction false} LinesAndRestAreTheText(s: string)
    ensures Joined(Lines(s)) + Rest(s) == s
    decreases |s|
  {
    if NewlineIndex(s) >= 0 {
      var line, tail := SplitAtNewline(s);
      LinesAndRestAreTheText(tail);
      FrontLine(line, tail);
      JoinedFront(line, Lines(tail));
      AppendAssociative(line + "\n", Joined(Lines(tail)), Rest(tail));
    }
  }

  lemma JoinedFront(line: string, lines: seq<string>)
    ensures Joined([line] + lines) == line + "\n" + Joined(lines)
  {
    assert ([line] + lines)[1..] == lines;
  }

  /** Splitting after the first part, and then again with the remainder in front, gives the same lines. */
  lemma {:induction false} SplitConcat(a: string, b: string)
    ensures Lines(a + b) == Lines(a) + Lines(Rest(a) + b)
    ensures Rest(a + b) == Rest(Rest(a) + b)
    decreases |a|
  {
    if NewlineIndex(a) >= 0 {
      var line, tail := SplitAtNewline(a);
      SplitConcat(tail, b);
      FrontLine(line, tail);
      FrontLine(line, tail + b);
      AppendAssociative(line + "\n", tail, b);
      AppendAssociative([line], Lines(tail), Lines(Rest(tail) + b));
    }
  }

  function Flatten(chunks: seq<string>): string {
    if chunks == [] then "" else Flatten(chunks[..|chunks| - 1]) + chunks[|chunks| - 1]
  }

  /** The reader's state after some chunks: the lines it has seen and the buffer it holds. */
  datatype Reader = Reader(lines: seq<string>, buffer: string)

  function Receive(r: Reader, chunk: string): Reader {
    Reader(r.lines + Lines(r.buffer + chunk), Rest(r.buffer + chunk))
  }

  function ReceiveAll(chunks: seq<string>): Reader {
    if chunks == [] then Reader([], "") else Receive(ReceiveAll(chunks[..|chunks| - 1]), chunks[|chunks| - 1])
  }

  /** However the stream is cut, the lines are those of the whole stream. */
  lemma {:induction false} ChunkingIrrelevant(chunks: seq<string>)
    ensures ReceiveAll(chunks) == Reader(Lines(Flatten(chunks)), Rest(Flatten(chunks)))
  {
    if chunks != [] {
      var init, last := chunks[..|chunks| - 1], chunks[|chunks| - 1];
      ChunkingIrrelevant(init);
      SplitConcat(Flatten(init), last);
    }
  }
}
