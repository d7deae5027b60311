/** Go's `bufio.Scanner` with its default split function `ScanLines`: the
    input is cut at every newline, one carriage return before a newline is
    dropped, and a final fragment without a newline is a token too. The
    stream is the text a remote command wrote, already complete. */
module Bufio {
  import opened Common
  import opened GoStrings

  /** `dropCR`: removes one trailing carriage return. */
  function DropCR(s: string): (r: string)
    ensures s == r || s == r + "\r"
    ensures |s| > 0 && s[|s| - 1] == '\r' <==> s == r + "\r"
  {
    if |s| > 0 && s[|s| - 1] == '\r' then s[..|s| - 1] else s
  }

  /** The tokens `ScanLines` cuts from a whole stream, in order. */
  function ScanLines(data: string): (tokens: seq<string>)
    ensures tokens == [] <==> data == ""
  {
    Cut(data, "")
  }

  /** The tokens still to come from `data` when `line` has been read since
      the last newline: a newline ends a token, the end of the stream ends a
      non-empty one. */
  function Cut(data: string, line: string): (tokens: seq<string>)
    ensures tokens == [] <==> data == "" && line == ""
    decreases |data|
  {
    if data == "" then (if line == "" then [] else [DropCR(line)])
    else if data[0] == '\n' then [DropCR(line)] + Cut(data[1..], "")
    else Cut(data[1..], line + [data[0]])
  }

  /** A newline-free stretch followed by a newline is one token. */
  lemma {:induction false} CutLine(x: string, line: string, rest: string)
    requires '\n' !in x
    ensures Cut(x + "\n" + rest, line) == [DropCR(line + x)] + Cut(rest, "")
    decreases |x|
  {
    var s := x + "\n" + rest;
    if x == "" {
      assert s[1..] == rest;
      assert line + x == line;
    } else {
      assert s[0] == x[0];
      assert s[1..] == x[1..] + "\n" + rest;
      CutLine(x[1..], line + [x[0]], rest);
      assert line + [x[0]] + x[1..] == line + x;
    }
  }

  /** A newline-free non-empty end of stream is one last token. */
  lemma {:induction false} CutTail(x: string, line: string)
    requires '\n' !in x && line + x != ""
    ensures Cut(x, line) == [DropCR(line + x)]
    decreases |x|
  {
    if x == "" {
      assert line + x == line;
    } else {
      CutTail(x[1..], line + [x[0]]);
      assert line + [x[0]] + x[1..] == line + x;
    }
  }

  lemma {:induction false} CutShape(data: string, line: string)
    requires '\n' !in line
    ensures forall i :: 0 <= i < |Cut(data, line)| ==> '\n' !in Cut(data, line)[i]
    ensures |Cut(data, line)| == Count(data, '\n') +
      (if data == "" then (if line == "" then 0 else 1) else if data[|data| - 1] == '\n' then 0 else 1)
    decreases |data|
  {
    assert forall c :: c in DropCR(line) ==> c in line;
    if data != "" {
      var tail := data[1..];
      assert tail != "" ==> tail[|tail| - 1] == data[|data| - 1];
      if data[0] == '\n' {
        CutShape(tail, "");
        var tokens := Cut(data, line);
        assert tokens == [DropCR(line)] + Cut(tail, "");
        forall i | 0 <= i < |tokens|
          ensures '\n' !in tokens[i]
        {
          if i > 0 {
            assert tokens[i] == Cut(tail, "")[i - 1];
          }
        }
      } else {
        assert '\n' !in line + [data[0]];
        CutShape(tail, line + [data[0]]);
      }
    }
  }

  /** No token holds a newline, and there is one token per newline plus one
      for a non-empty unterminated tail. */
  lemma ScanLinesShape(data: string)
    ensures forall i :: 0 <= i < |ScanLines(data)| ==> '\n' !in ScanLines(data)[i]
    ensures |ScanLines(data)| == Count(data, '\n') + (if data == "" || data[|data| - 1] == '\n' then 0 else 1)
  {
    CutShape(data, "");
  }

  /** A line a remote command can write with a trailing newline and get
      back unchanged: no newline inside, no carriage return at the end. */
  predicate PlainLine(line: string) {
    '\n' !in line && (line == "" || line[|line| - 1] != '\r')
  }

  /** The stream made of the given lines, each ended by a newline. */
  function Unlines(lines: seq<string>): string {
    if lines == [] then "" else lines[0] + "\n" + Unlines(lines[1..])
  }

  /** Scanning a stream of newline-terminated lines gives the lines back:
      nothing is dropped, merged or duplicated. */
  lemma {:induction false} ScanLinesUnlines(lines: seq<string>)
    requires forall i :: 0 <= i < |lines| ==> PlainLine(lines[i])
    ensures ScanLines(Unlines(lines)) == lines
  {
    if lines != [] {
      var first := lines[0];
      assert PlainLine(first);
      CutLine(first, "", Unlines(lines[1..]));
      assert "" + first == first;
      ScanLinesUnlines(lines[1..]);
      assert [first] + lines[1..] == lines;
    }
  }

  /** `bufio.Scanner`: `rest` is the input not yet cut into tokens,
      `token` the last token cut (`Bytes()`) and `pending` the tokens still
      to come. */
  class Scanner {
    var rest: string
    var token: string
    ghost var pending: seq<string>

    ghost predicate Valid()
      reads this
    {
      pending == ScanLines(rest)
    }

    constructor (input: string)
      ensures Valid() && rest == input && token == ""
    {
      rest := input;
      token := "";
      pending := ScanLines(input);
    }

    /** `Scan`: cuts the next token; false once the input is exhausted. */
    method Scan() returns (ok: bool)
      requires Valid()
      modifies this
      ensures Valid()
      ensures ok <==> old(rest) != ""
      ensures ok ==> old(pending) == [token] + pending && |rest| < |old(rest)|
      ensures !ok ==> rest == old(rest) == "" && pending == [] && token == ""
    {
      if rest == "" {
        token := "";
        return false;
      }
      match IndexByte(rest, '\n') {
        case Some(i) =>
          assert rest == rest[..i] + "\n" + rest[i + 1..];
          CutLine(rest[..i], "", rest[i + 1..]);
          assert "" + rest[..i] == rest[..i];
          token, rest := DropCR(rest[..i]), rest[i + 1..];
        case None =>
          CutTail(rest, "");
          assert "" + rest == rest;
          token, rest := DropCR(rest), "";
      }
      pending := pending[1..];
      ok := true;
    }
  }
}
