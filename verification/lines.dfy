/** A pipe delivers bytes in whatever pieces it likes; what is handled are lines
    (porchlightd/src/io/bridge_server_link.cpp, on_readable, and the same loop in
    gst_recorder.cpp, read_detector). */
module LineRules {
  import opened Types

  function FirstNewline(s: string): (k: nat)
    ensures k <= |s|
    ensures forall j :: 0 <= j < k ==> s[j] != '\n'
    ensures k < |s| ==> s[k] == '\n'
  {
    if s == "" || s[0] == '\n' then 0 else 1 + FirstNewline(s[1..])
  }

  /** The newline-terminated lines, in order. */
  function Lines(s: string): seq<string>
    decreases |s|
  {
    var k := FirstNewline(s);
    if k == |s| then [] else [s[..k]] + Lines(s[k + 1..])
  }

  /** What follows the last newline. */
  function Tail(s: string): string
    decreases |s|
  {
    var k := FirstNewline(s);
    if k == |s| then s else Tail(s[k + 1..])
  }

  predicate OneLine(s: string) { '\n' !in s }

  function Joined(lines: seq<string>): string {
    if lines == [] then "" else lines[0] + "\n" + Joined(lines[1..])
  }

  /** Nothing is lost, added or cut in two: the lines, each with its newline, and
      the tail are the text. */
  lemma {:induction false} LinesAreTheText(s: string)
    ensures Joined(Lines(s)) + Tail(s) == s
    ensures OneLine(Tail(s)) && forall k :: 0 <= k < |Lines(s)| ==> OneLine(Lines(s)[k])
    decreases |s|
  {
    var k := FirstNewline(s);
    if k < |s| {
      LinesAreTheText(s[k + 1..]);
      var line, rest, tail := s[..k], Lines(s[k + 1..]), Tail(s[k + 1..]);
      assert Lines(s) == [line] + rest && Tail(s) == tail;
      hide Lines, Tail, FirstNewline;
      JoinedCons(line, rest);
      Regroup(line + "\n", Joined(rest), tail);
      CutAt(s, k);
    } else {
      assert Joined(Lines(s)) + Tail(s) == s;
    }
  }

  lemma CutAt(s: string, k: nat)
    requires k < |s| && s[k] == '\n'
    ensures s == s[..k] + "\n" + s[k + 1..]
  {}

  lemma JoinedCons(line: string, rest: seq<string>)
    ensures Joined([line] + rest) == line + "\n" + Joined(rest)
  {
    assert ([line] + rest)[1..] == rest;
  }

  lemma FirstNewlineOf(line: string, rest: string)
    requires OneLine(line)
    ensures FirstNewline(line + "\n" + rest) == |line|
  {
    var s := line + "\n" + rest;
    assert s[|line|] == '\n';
    assert forall j :: 0 <= j < |line| ==> s[j] == line[j];
  }

  /** And that decides them: there is no other way to cut a text into lines. */
  lemma {:induction false} OnlyOneCut(lines: seq<string>, tail: string)
    requires OneLine(tail) && forall k :: 0 <= k < |lines| ==> OneLine(lines[k])
    ensures Lines(Joined(lines) + tail) == lines && Tail(Joined(lines) + tail) == tail
    decreases |lines|
  {
    if lines == [] {
      assert Joined(lines) + tail == tail;
      TailIsTail(tail);
    } else {
      var rest := Joined(lines[1..]) + tail;
      var s := lines[0] + "\n" + rest;
      assert Joined(lines) + tail == s;
      FirstNewlineOf(lines[0], rest);
      assert s[..|lines[0]|] == lines[0] && s[|lines[0]| + 1..] == rest;
      OnlyOneCut(lines[1..], tail);
      assert [lines[0]] + lines[1..] == lines;
    }
  }

  lemma Unrolled(s: string)
    requires FirstNewline(s) < |s|
    ensures Lines(s) == [s[..FirstNewline(s)]] + Lines(s[FirstNewline(s) + 1..])
    ensures Tail(s) == Tail(s[FirstNewline(s) + 1..])
  {
    hide FirstNewline;
  }

  /** Reading on from a buffered tail is reading the whole. */
  lemma {:induction false} ReadOn(a: string, b: string)
    ensures Lines(a + b) == Lines(a) + Lines(Tail(a) + b)
    ensures Tail(a + b) == Tail(Tail(a) + b)
    decreases |a|
  {
    var k := FirstNewline(a);
    if k == |a| {
      NoLineLeft(a);
      assert [] + Lines(a + b) == Lines(a + b);
    } else {
      hide Lines, Tail, FirstNewline;
      var line, rest := a[..k], a[k + 1..];
      CutBefore(a, b, k);
      FirstNewlineOf(line, rest + b);
      Unrolled(a);
      Unrolled(a + b);
      ReadOn(rest, b);
      Regroup([line], Lines(rest), Lines(Tail(rest) + b));
    }
  }

  lemma CutBefore(a: string, b: string, k: nat)
    requires k < |a| && a[k] == '\n'
    ensures a + b == a[..k] + "\n" + (a[k + 1..] + b)
    ensures (a + b)[..k] == a[..k] && (a + b)[k + 1..] == a[k + 1..] + b
  {}

  /** One turn of either reassembly loop. */
  lemma TakeLine(done: seq<string>, s: string)
    requires FirstNewline(s) < |s|
    ensures var k := FirstNewline(s);
      done + Lines(s) == (done + [s[..k]]) + Lines(s[k + 1..]) && Tail(s) == Tail(s[k + 1..])
  {
    hide Lines, Tail, FirstNewline;
    Unrolled(s);
    Regroup(done, [s[..FirstNewline(s)]], Lines(s[FirstNewline(s) + 1..]));
  }

  lemma NoLineLeft(s: string)
    requires FirstNewline(s) == |s|
    ensures Lines(s) == [] && Tail(s) == s
  {}

  /** One read after another: what is handled, and what is left in the buffer. */
  function HandledOver(buffer: string, chunks: seq<string>): seq<string>
    decreases |chunks|
  {
    if chunks == [] then [] else Lines(buffer + chunks[0]) + HandledOver(Tail(buffer + chunks[0]), chunks[1..])
  }

  function LeftOver(buffer: string, chunks: seq<string>): string
    decreases |chunks|
  {
    if chunks == [] then buffer else LeftOver(Tail(buffer + chunks[0]), chunks[1..])
  }

  function Flat(chunks: seq<string>): string {
    if chunks == [] then "" else chunks[0] + Flat(chunks[1..])
  }

  lemma {:induction false} TailIsTail(s: string)
    ensures OneLine(s) ==> Lines(s) == [] && Tail(s) == s
    ensures OneLine(Tail(s))
  {
    LinesAreTheText(s);
    assert FirstNewline(s) < |s| ==> s[FirstNewline(s)] in s;
  }

  /** However a stream is cut into reads, the lines handled and the buffer left are
      those of the stream. */
  lemma {:induction false} ChunksDoNotMatter(buffer: string, chunks: seq<string>)
    requires OneLine(buffer)
    ensures HandledOver(buffer, chunks) == Lines(buffer + Flat(chunks))
    ensures LeftOver(buffer, chunks) == Tail(buffer + Flat(chunks))
    decreases |chunks|
  {
    hide Lines, Tail, FirstNewline;
    if chunks == [] {
      assert buffer + Flat(chunks) == buffer;
      TailIsTail(buffer);
    } else {
      var first := buffer + chunks[0];
      TailIsTail(first);
      ChunksDoNotMatter(Tail(first), chunks[1..]);
      ReadOn(first, Flat(chunks[1..]));
      assert buffer + Flat(chunks) == first + Flat(chunks[1..]);
    }
  }
}

module LinkLines {
  import opened LineRules

  /** The server link's reading half: one read at a time, every complete line
      handled, the rest kept for the next. */
  class BridgeReader {
    var incoming: string
    var lines: seq<string>  // handed to handle_line, in order
    ghost var received: string

    /** What was handled and what is buffered are the stream's, however it came. */
    ghost predicate Valid() reads this {
      lines == Lines(received) && incoming == Tail(received)
    }

    constructor ()
      ensures Valid() && received == ""
    {
      incoming, lines, received := "", [], "";
    }

    method HandleLine(line: string)
      modifies this`lines
      ensures lines == old(lines) + [line]
    {
      lines := lines + [line];
    }

    /** Handles the line, then takes it off the buffer. */
    method OnReadable(chunk: string)
      requires Valid()
      modifies this
      ensures Valid() && received == old(received) + chunk
    {
      hide Lines, Tail, FirstNewline;
      ReadOn(received, chunk);
      received := received + chunk;
      incoming := incoming + chunk;
      var newline := FirstNewline(incoming);
      while newline < |incoming|
        invariant newline == FirstNewline(incoming) <= |incoming|
        invariant lines + Lines(incoming) == Lines(received) && Tail(incoming) == Tail(received)
        invariant received == old(received) + chunk
        decreases |incoming|
      {
        TakeLine(lines, incoming);
        HandleLine(incoming[..newline]);
        incoming := incoming[newline + 1..];
        newline := FirstNewline(incoming);
      }
      NoLineLeft(incoming);
      assert lines + [] == lines;
    }
  }
}
