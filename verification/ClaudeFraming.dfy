/** Newline framing of the native stream: the lines do not depend on how the text was cut. */
module ClaudeFraming {
  import opened Sequences

  function Unlines(raws: seq<string>): string {
    if raws == [] then "" else raws[0] + "\n" + Unlines(raws[1..])
  }

  /** The terminated lines of a text, blank ones included. */
  function RawLines(text: string): seq<string> {
    if '\n' !in text then []
    else
      var nl := FirstNewline(text);
      [text[..nl]] + RawLines(text[nl + 1..])
  }

  /** What follows the last newline. */
  function Residue(text: string): string {
    if '\n' !in text then text else Residue(text[FirstNewline(text) + 1..])
  }

  function FirstNewline(text: string): (nl: nat)
    requires '\n' in text
    ensures nl < |text| && text[nl] == '\n' && '\n' !in text[..nl]
  {
    if text[0] == '\n' then 0
    else
      assert '\n' in text[1..];
      var rest := FirstNewline(text[1..]);
      assert text[..1 + rest] == [text[0]] + text[1..][..rest];
      1 + rest
  }

  function WithoutReturn(line: string): string {
    if line != "" && line[|line| - 1] == '\r' then line[..|line| - 1] else line
  }

  /** The lines handed on: without their carriage return, and without the blank ones. */
  function Visible(raws: seq<string>): seq<string> {
    if raws == [] then []
    else (if WithoutReturn(raws[0]) != "" then [WithoutReturn(raws[0])] else []) + Visible(raws[1..])
  }

  function Lines(text: string): seq<string> {
    Visible(RawLines(text))
  }

  // ---- The framing is the only one ----

  predicate Framed(raws: seq<string>, rest: string) {
    '\n' !in rest && forall k | 0 <= k < |raws| :: '\n' !in raws[k]
  }

  lemma {:induction false} FirstNewlineOf(line: string, rest: string)
    requires '\n' !in line
    ensures '\n' in line + "\n" + rest && FirstNewline(line + "\n" + rest) == |line|
  {
    var text := line + "\n" + rest;
    assert text[|line|] == '\n';
    if line != "" {
      assert text[1..] == line[1..] + "\n" + rest;
      assert text[0] == line[0];
      FirstNewlineOf(line[1..], rest);
    }
  }

  /** A text is its lines and its residue, and no other cut at newlines gives it. */
  lemma {:induction false} FramingIsUnique(raws: seq<string>, rest: string, text: string)
    requires Framed(raws, rest)
    ensures text == Unlines(raws) + rest <==> RawLines(text) == raws && Residue(text) == rest
    decreases |raws|
  {
    Rebuilds(text);
    if text == Unlines(raws) + rest && raws != [] {
      var tail := Unlines(raws[1..]) + rest;
      assert text == raws[0] + "\n" + tail;
      FirstNewlineOf(raws[0], tail);
      assert text[|raws[0]| + 1..] == tail;
      assert text[..|raws[0]|] == raws[0];
      FramingIsUnique(raws[1..], rest, tail);
      assert raws == [raws[0]] + raws[1..];
    }
  }

  lemma CutAt(text: string, nl: nat)
    requires nl < |text| && text[nl] == '\n'
    ensures text == text[..nl] + "\n" + text[nl + 1..]
  {
  }

  lemma {:induction false} Rebuilds(text: string)
    ensures text == Unlines(RawLines(text)) + Residue(text) && Framed(RawLines(text), Residue(text))
    decreases |text|
  {
    if '\n' in text {
      var nl := FirstNewline(text);
      var tail := text[nl + 1..];
      Rebuilds(tail);
      var raws := RawLines(text);
      assert raws[0] == text[..nl] && raws[1..] == RawLines(tail) && Residue(text) == Residue(tail);
      hide RawLines, Residue, FirstNewline;
      CutAt(text, nl);
    }
  }

  // ---- Chunks ----

  lemma {:induction false} LinesOfConcatenation(a: string, b: string)
    ensures RawLines(a + b) == RawLines(a) + RawLines(Residue(a) + b)
    ensures Residue(a + b) == Residue(Residue(a) + b)
  {
    Rebuilds(a);
    Rebuilds(Residue(a) + b);
    hide RawLines, Residue, Unlines;
    var raws := RawLines(a) + RawLines(Residue(a) + b);
    UnlinesOfConcatenation(RawLines(a), RawLines(Residue(a) + b));
    assert a + b == Unlines(raws) + Residue(Residue(a) + b) by {
      assert Unlines(RawLines(a)) + (Residue(a) + b) == a + b;
    }
    FramingIsUnique(raws, Residue(Residue(a) + b), a + b);
  }

  lemma {:induction false} UnlinesOfConcatenation(a: seq<string>, b: seq<string>)
    ensures Unlines(a + b) == Unlines(a) + Unlines(b)
  {
    if a == [] {
      assert a + b == b;
    } else {
      assert (a + b)[1..] == a[1..] + b;
      UnlinesOfConcatenation(a[1..], b);
    }
  }

  lemma {:induction false} VisibleOfConcatenation(a: seq<string>, b: seq<string>)
    ensures Visible(a + b) == Visible(a) + Visible(b)
  {
    if a == [] {
      assert a + b == b;
    } else {
      assert (a + b)[1..] == a[1..] + b;
      VisibleOfConcatenation(a[1..], b);
    }
  }

  function Whole(chunks: seq<string>): string {
    if chunks == [] then "" else chunks[0] + Whole(chunks[1..])
  }

  /** What a framer holding `buf` hands on while it is fed the chunks one by one. */
  function PushEach(buf: string, chunks: seq<string>): seq<string>
    decreases |chunks|
  {
    if chunks == [] then [] else Lines(buf + chunks[0]) + PushEach(Residue(buf + chunks[0]), chunks[1..])
  }

  function HeldAfter(buf: string, chunks: seq<string>): string
    decreases |chunks|
  {
    if chunks == [] then buf else HeldAfter(Residue(buf + chunks[0]), chunks[1..])
  }

  /** However a text is cut into chunks, the lines handed on and the residue kept are those of the whole. */
  lemma {:induction false} ChunksDoNotMatter(buf: string, chunks: seq<string>)
    requires '\n' !in buf
    ensures PushEach(buf, chunks) == Lines(buf + Whole(chunks))
    ensures HeldAfter(buf, chunks) == Residue(buf + Whole(chunks))
    decreases |chunks|
  {
    if chunks == [] {
      assert buf + Whole(chunks) == buf;
    } else {
      var first := buf + chunks[0];
      var rest := Whole(chunks[1..]);
      hide Lines, Residue;
      Regroup(buf, chunks[0], rest);
      ConcatenationLines(first, rest);
      ChunksDoNotMatter(Residue(first), chunks[1..]);
    }
  }

  lemma ConcatenationLines(a: string, b: string)
    ensures Lines(a + b) == Lines(a) + Lines(Residue(a) + b)
    ensures Residue(a + b) == Residue(Residue(a) + b) && '\n' !in Residue(a)
  {
    Rebuilds(a);
    hide RawLines, Residue, Unlines, Visible;
    LinesOfConcatenation(a, b);
    VisibleOfConcatenation(RawLines(a), RawLines(Residue(a) + b));
  }

  lemma VisibleCons(line: string, raws: seq<string>)
    ensures Visible([line] + raws) == (if WithoutReturn(line) != "" then [WithoutReturn(line)] else []) + Visible(raws)
  {
    assert ([line] + raws)[1..] == raws;
  }

  lemma NextLine(text: string)
    requires '\n' in text
    ensures var nl := FirstNewline(text);
            && Residue(text) == Residue(text[nl + 1..])
            && var line := WithoutReturn(text[..nl]);
               Lines(text) == (if line != "" then [line] else []) + Lines(text[nl + 1..])
  {
    hide Visible, WithoutReturn, FirstNewline;
    VisibleCons(text[..FirstNewline(text)], RawLines(text[FirstNewline(text) + 1..]));
  }

  lemma NoLine(text: string)
    requires '\n' !in text
    ensures Lines(text) == [] && Residue(text) == text
  {
  }

  lemma ResidueEnds(text: string)
    requires Residue(text) != ""
    ensures text != "" && text[|text| - 1] != '\n'
  {
    Rebuilds(text);
    hide Residue;
    assert text[|text| - 1] == Residue(text)[|Residue(text)| - 1];
    assert Residue(text)[|Residue(text)| - 1] in Residue(text);
  }

  /**
   * Every line of a text is handed on in its place, as it is, except that a carriage return at its
   * end is dropped and a line with nothing else is left out.
   */
  lemma LineIsHandedOn(before: string, line: string, after: string)
    requires before == "" || before[|before| - 1] == '\n'
    requires '\n' !in line
    ensures Lines(before + (line + "\n" + after)) ==
            Lines(before) + Handed(line) + Lines(after)
  {
    hide Lines, RawLines, Residue, Visible, FirstNewline;
    var rest := line + "\n" + after;
    if Residue(before) != "" {
      ResidueEnds(before);
      assert false;
    }
    ConcatenationLines(before, rest);
    assert Residue(before) + rest == rest;
    FirstLine(line, after);
    Regroup(Lines(before), Handed(line), Lines(after));
  }

  /** What is handed on of one line. */
  function Handed(line: string): seq<string> {
    if line == "" || line == "\r" then []
    else if line[|line| - 1] == '\r' then [line[..|line| - 1]]
    else [line]
  }

  lemma FirstLine(line: string, after: string)
    requires '\n' !in line
    ensures Lines(line + "\n" + after) == Handed(line) + Lines(after)
  {
    hide Lines, RawLines, Residue, Visible, FirstNewline;
    var rest := line + "\n" + after;
    FirstNewlineOf(line, after);
    NextLine(rest);
    assert rest[..|line|] == line && rest[|line| + 1..] == after;
  }

  class LineBuffer {
    var buf: string

    constructor ()
      ensures buf == ""
    {
      buf := "";
    }

    method Push(chunk: string) returns (out: seq<string>)
      modifies this
      ensures out == Lines(old(buf) + chunk) && buf == Residue(old(buf) + chunk)
      ensures '\n' !in buf
    {
      hide *;
      buf := buf + chunk;
      ghost var text := buf;
      out := [];
      while '\n' in buf
        invariant Lines(text) == out + Lines(buf)
        invariant Residue(text) == Residue(buf)
        decreases |buf|
      {
        var nl := FirstNewline(buf);
        NextLine(buf);
        var line := buf[..nl];
        buf := buf[nl + 1..];
        var trimmed := WithoutReturn(line);
        if trimmed != "" {
          out := out + [trimmed];
        }
      }
      NoLine(buf);
    }
  }
}
