/**
 * Shell words: splitting a command line and quoting a word, and that splitting undoes quoting.
 * The rules are those of rust-shlex, close to section 2.2 of the POSIX.1-2017 Shell Command Language.
 */
module ShellWords {
  import opened Wrappers
  import opened Sequences

  datatype Quote = Bare | Single | Double

  // ---- Splitting ----

  predicate Blank(c: char) {
    c == ' ' || c == '\t' || c == '\n'
  }

  /** What a backslash keeps its meaning before inside double quotes. */
  predicate Escapable(c: char) {
    c == '$' || c == '`' || c == '"' || c == '\\'
  }

  /** The text after a comment and the newline that ends it. */
  function AfterComment(text: string): (rest: string)
    ensures |rest| <= |text| && (text != "" ==> |rest| < |text|)
  {
    if text == "" then "" else if text[0] == '\n' then text[1..] else AfterComment(text[1..])
  }

  function Prepend(words: seq<string>, rest: Option<seq<string>>): Option<seq<string>> {
    if rest.Some? then Some(words + rest.value) else None
  }

  function Escaped(next: char, quote: Quote): string {
    if next == '\n' then "" else if quote == Double && !Escapable(next) then ['\\', next] else [next]
  }

  /** The words of `text`, when `word` has been read so far under `quote`. */
  function Words(text: string, word: string, quote: Quote, started: bool): Option<seq<string>>
    decreases |text|
  {
    if text == "" then
      if quote != Bare then None else Some(if started then [word] else [])
    else
      var c, rest := text[0], text[1..];
      if quote == Single then
        if c == '\'' then Words(rest, word, Bare, started) else Words(rest, word + [c], Single, started)
      else if c == '\\' then
        if rest == "" then None else Words(rest[1..], word + Escaped(rest[0], quote), quote, true)
      else if quote == Double then
        if c == '"' then Words(rest, word, Bare, started) else Words(rest, word + [c], Double, started)
      else if c == '\'' then Words(rest, word, Single, true)
      else if c == '"' then Words(rest, word, Double, true)
      else if Blank(c) then Prepend(if started then [word] else [], Words(rest, "", Bare, false))
      else if c == '#' && !started then Words(AfterComment(text), word, Bare, false)
      else Words(rest, word + [c], Bare, true)
  }

  function Split(command: string): Option<seq<string>> {
    Words(command, "", Bare, false)
  }

  method SplitShellWords(command: string) returns (result: Option<seq<string>>)
    ensures result == Split(command)
  {
    hide Escaped, AfterComment;
    var words: seq<string> := [];
    var word, quote, started := "", Bare, false;
    var i := 0;
    assert command[0..] == command;
    PrependNothing(Split(command));
    while i < |command|
      invariant i <= |command|
      invariant Split(command) == Prepend(words, Words(command[i..], word, quote, started))
    {
      var c := command[i];
      assert command[i..][0] == c && command[i..][1..] == command[i + 1..];
      if quote == Single {
        if c == '\'' {
          quote := Bare;
        } else {
          word := word + [c];
        }
      } else if c == '\\' {
        i := i + 1;
        if i == |command| {
          return None;
        }
        assert command[i..][0] == command[i] && command[i..][1..] == command[i + 1..];
        word := word + Escaped(command[i], quote);
        started := true;
      } else if quote == Double {
        if c == '"' {
          quote := Bare;
        } else {
          word := word + [c];
        }
      } else if c == '\'' || c == '"' {
        quote := if c == '\'' then Single else Double;
        started := true;
      } else if c == ' ' || c == '\t' || c == '\n' {
        PrependTwice(words, if started then [word] else [], Words(command[i + 1..], "", Bare, false));
        if started {
          words := words + [word];
        } else {
          assert words + [] == words;
        }
        word := "";
        started := false;
      } else if c == '#' && !started {
        i := SkipComment(command, i);
        if i == |command| {
          break;
        }
      } else {
        word := word + [c];
        started := true;
      }
      i := i + 1;
    }
    assert command[|command|..] == "";
    if quote != Bare {
      return None;
    }
    return Some(if started then words + [word] else words + []);
  }

  /** The position of the newline that ends the comment, or the end of the text. */
  method SkipComment(command: string, from: nat) returns (i: nat)
    requires from < |command|
    ensures from <= i <= |command|
    ensures AfterComment(command[from..]) == if i < |command| then command[i + 1..] else ""
  {
    i := from;
    while i < |command| && command[i] != '\n'
      invariant from <= i <= |command|
      invariant AfterComment(command[from..]) == AfterComment(command[i..])
    {
      assert command[i..][1..] == command[i + 1..];
      i := i + 1;
    }
    assert i < |command| ==> command[i..][1..] == command[i + 1..];
  }

  lemma PrependNothing(rest: Option<seq<string>>)
    ensures Prepend([], rest) == rest
  {
    assert rest.Some? ==> [] + rest.value == rest.value;
  }

  lemma PrependTwice(a: seq<string>, b: seq<string>, rest: Option<seq<string>>)
    ensures Prepend(a, Prepend(b, rest)) == Prepend(a + b, rest)
  {
    assert rest.Some? ==> a + (b + rest.value) == a + b + rest.value;
  }

  // ---- Quoting ----

  /** Which ways of quoting still fit a chunk. */
  datatype Modes = Modes(unquoted: bool, single: bool, double: bool)

  predicate Plain(c: char) {
    'a' <= c <= 'z' || 'A' <= c <= 'Z' || '0' <= c <= '9' || c in "_+./:@]-"
  }

  function Narrowed(m: Modes, c: char): Modes {
    Modes(m.unquoted && Plain(c),
          m.single && c != '\'' && c != '^' && c != '\\',
          m.double && c != '`' && c != '$' && c != '!' && c != '^')
  }

  predicate Fits(m: Modes) {
    m.unquoted || m.single || m.double
  }

  /** How far a chunk extends from `end` on. */
  function Extent(text: string, end: nat, m: Modes): nat
    requires end <= |text|
    decreases |text| - end
  {
    if end < |text| && Fits(Narrowed(m, text[end])) then Extent(text, end + 1, Narrowed(m, text[end])) else end
  }

  function ModesAt(text: string, end: nat, m: Modes): Modes
    requires end <= |text|
    decreases |text| - end
  {
    if end < |text| && Fits(Narrowed(m, text[end])) then ModesAt(text, end + 1, Narrowed(m, text[end])) else m
  }

  predicate StartsWithCaret(text: string) {
    text != "" && text[0] == '^'
  }

  function FirstModes(text: string): Modes {
    if StartsWithCaret(text) then Modes(false, true, false) else Modes(true, true, true)
  }

  function FirstEnd(text: string): (end: nat)
    ensures end <= |text|
  {
    if StartsWithCaret(text) then 1 else 0
  }

  function EscapeDouble(chunk: string): string {
    if chunk == "" then "" else (if Escapable(chunk[0]) then ['\\', chunk[0]] else [chunk[0]]) + EscapeDouble(chunk[1..])
  }

  function Wrap(chunk: string, m: Modes): string {
    if m.unquoted then chunk else if m.single then "'" + chunk + "'" else "\"" + EscapeDouble(chunk) + "\""
  }

  lemma {:induction false} ExtentBounds(text: string, end: nat, m: Modes)
    requires end <= |text|
    ensures end <= Extent(text, end, m) <= |text|
    ensures end < |text| && Fits(Narrowed(m, text[end])) ==> end < Extent(text, end, m)
    decreases |text| - end
  {
    if end < |text| && Fits(Narrowed(m, text[end])) {
      ExtentBounds(text, end + 1, Narrowed(m, text[end]));
    }
  }

  /** The first chunk of a text that is not empty is not empty either. */
  function ChunkLength(text: string): (n: nat)
    requires text != ""
    ensures 0 < n <= |text|
  {
    ExtentBounds(text, FirstEnd(text), FirstModes(text));
    Extent(text, FirstEnd(text), FirstModes(text))
  }

  function ChunkModes(text: string): Modes
    requires text != ""
  {
    ModesAt(text, FirstEnd(text), FirstModes(text))
  }

  function QuoteChunks(text: string): string
    decreases |text|
  {
    if text == "" then ""
    else
      var n := ChunkLength(text);
      Wrap(text[..n], ChunkModes(text)) + QuoteChunks(text[n..])
  }

  function QuoteWord(word: string): string {
    if word == "" then "''" else QuoteChunks(word)
  }

  lemma RestAt(word: string, start: nat, end: nat)
    requires start <= end <= |word|
    ensures word[start..][..end - start] == word[start..end] && word[start..][end - start..] == word[end..]
  {
  }

  method QuoteShellWord(word: string) returns (result: string)
    ensures result == QuoteWord(word)
  {
    hide Wrap, ChunkModes;
    if word == "" {
      return "''";
    }
    result := "";
    var start := 0;
    assert word[0..] == word;
    assert QuoteChunks("") == "" && QuoteWord(word) == QuoteChunks(word);
    hide QuoteChunks, QuoteWord;
    while start < |word|
      invariant start <= |word|
      invariant QuoteWord(word) == result + QuoteChunks(word[start..])
    {
      var end, m := ReadChunk(word, start);
      var chunk := Wrap(word[start..end], m);
      NextChunk(word[start..], end - start);
      RestAt(word, start, end);
      Regroup(result, chunk, QuoteChunks(word[end..]));
      result := result + chunk;
      start := end;
    }
  }

  lemma NextChunk(text: string, n: nat)
    requires text != "" && n == ChunkLength(text)
    ensures QuoteChunks(text) == Wrap(text[..n], ChunkModes(text)) + QuoteChunks(text[n..])
  {
  }

  /** Extend a chunk as far as one way of quoting fits all of it. */
  method ReadChunk(word: string, start: nat) returns (end: nat, m: Modes)
    requires start < |word|
    ensures start < end <= |word|
    ensures end - start == ChunkLength(word[start..]) && m == ChunkModes(word[start..])
  {
    ghost var text := word[start..];
    m := Modes(true, true, true);
    end := start;
    if word[start] == '^' {
      m := Modes(false, true, false);
      end := end + 1;
    }
    assert m == FirstModes(text) && end - start == FirstEnd(text);
    while end < |word|
      invariant start <= end <= |word|
      invariant ChunkLength(text) == Extent(text, end - start, m)
      invariant ChunkModes(text) == ModesAt(text, end - start, m)
    {
      assert text[end - start] == word[end];
      var next := Narrowed(m, word[end]);
      if !Fits(next) {
        break;
      }
      m := next;
      end := end + 1;
    }
  }

  // ---- Splitting undoes quoting ----

  lemma {:induction false} UnquotedReads(chunk: string, rest: string, word: string, started: bool)
    requires chunk != "" && forall k | 0 <= k < |chunk| :: Plain(chunk[k])
    ensures Words(chunk + rest, word, Bare, started) == Words(rest, word + chunk, Bare, true)
    decreases |chunk|
  {
    var text := chunk + rest;
    assert text[0] == chunk[0] && text[1..] == chunk[1..] + rest && Plain(text[0]);
    if |chunk| == 1 {
      assert chunk == [chunk[0]] && chunk[1..] + rest == rest;
    } else {
      UnquotedReads(chunk[1..], rest, word + [chunk[0]], true);
      assert word + [chunk[0]] + chunk[1..] == word + chunk;
    }
  }

  lemma {:induction false} SingleReads(chunk: string, rest: string, word: string, started: bool)
    requires '\'' !in chunk
    ensures Words(chunk + "'" + rest, word, Single, started) == Words(rest, word + chunk, Bare, started)
    decreases |chunk|
  {
    var text := chunk + "'" + rest;
    if chunk == "" {
      assert text[0] == '\'' && text[1..] == rest && word + chunk == word;
    } else {
      assert text[0] == chunk[0] && text[1..] == chunk[1..] + "'" + rest;
      SingleReads(chunk[1..], rest, word + [chunk[0]], started);
      assert word + [chunk[0]] + chunk[1..] == word + chunk;
    }
  }

  lemma {:induction false} DoubleReads(chunk: string, rest: string, word: string)
    ensures Words(EscapeDouble(chunk) + "\"" + rest, word, Double, true) == Words(rest, word + chunk, Bare, true)
    decreases |chunk|
  {
    var text := EscapeDouble(chunk) + "\"" + rest;
    if chunk == "" {
      assert text[0] == '"' && text[1..] == rest && word + chunk == word;
    } else {
      var tail := EscapeDouble(chunk[1..]) + "\"" + rest;
      if Escapable(chunk[0]) {
        assert text == ['\\', chunk[0]] + tail;
        assert text[0] == '\\' && text[1..][0] == chunk[0] && text[1..][1..] == tail;
      } else {
        assert text == [chunk[0]] + tail;
        assert text[0] == chunk[0] && text[1..] == tail;
      }
      DoubleReads(chunk[1..], rest, word + [chunk[0]]);
      assert word + [chunk[0]] + chunk[1..] == word + chunk;
    }
  }

  /** A chunk is safe in each way of quoting that still fits it. */
  predicate Safe(chunk: string, m: Modes) {
    && (m.unquoted ==> forall k | 0 <= k < |chunk| :: Plain(chunk[k]))
    && (m.single ==> '\'' !in chunk)
    && Fits(m)
  }

  lemma {:induction false} ExtentSafe(text: string, end: nat, m: Modes)
    requires end <= |text| && Safe(text[..end], m)
    ensures end <= Extent(text, end, m) <= |text|
    ensures Safe(text[..Extent(text, end, m)], ModesAt(text, end, m))
    decreases |text| - end
  {
    if end < |text| && Fits(Narrowed(m, text[end])) {
      assert text[..end + 1] == text[..end] + [text[end]];
      ExtentSafe(text, end + 1, Narrowed(m, text[end]));
    }
  }

  lemma WrapReads(chunk: string, m: Modes, rest: string, word: string, started: bool)
    requires chunk != "" && Safe(chunk, m)
    ensures Words(Wrap(chunk, m) + rest, word, Bare, started) == Words(rest, word + chunk, Bare, true)
  {
    var text := Wrap(chunk, m) + rest;
    if m.unquoted {
      UnquotedReads(chunk, rest, word, started);
    } else if m.single {
      assert text[0] == '\'' && text[1..] == chunk + "'" + rest;
      SingleReads(chunk, rest, word, true);
    } else {
      assert text[0] == '"' && text[1..] == EscapeDouble(chunk) + "\"" + rest;
      DoubleReads(chunk, rest, word);
    }
  }

  lemma FirstChunkSafe(text: string)
    requires text != ""
    ensures Safe(text[..ChunkLength(text)], ChunkModes(text))
  {
    ExtentSafe(text, FirstEnd(text), FirstModes(text));
  }

  lemma NoText(word: string, rest: string)
    ensures QuoteChunks("") + rest == rest && word + "" == word
  {
  }

  lemma {:induction false} ChunksRead(text: string, rest: string, word: string, started: bool)
    ensures Words(QuoteChunks(text) + rest, word, Bare, started) == Words(rest, word + text, Bare, started || text != "")
    decreases |text|
  {
    hide *;
    if text == "" {
      NoText(word, rest);
    } else {
      var n, m := ChunkLength(text), ChunkModes(text);
      var chunk, later := text[..n], text[n..];
      FirstChunkSafe(text);
      NextChunk(text, n);
      WrapReads(chunk, m, QuoteChunks(later) + rest, word, started);
      ChunksRead(later, rest, word + chunk, true);
      Regroup(Wrap(chunk, m), QuoteChunks(later), rest);
      Regroup(word, chunk, later);
      assert chunk + later == text;
    }
  }

  lemma QuotedReads(word: string, rest: string)
    ensures Words(QuoteWord(word) + rest, "", Bare, false) == Words(rest, word, Bare, true)
  {
    if word == "" {
      var text := QuoteWord(word) + rest;
      assert text[0] == '\'' && text[1..] == "'" + rest && ("'" + rest)[1..] == rest;
    } else {
      ChunksRead(word, rest, "", false);
      assert "" + word == word;
    }
  }

  function Spelled(words: seq<string>): string {
    if words == [] then ""
    else if |words| == 1 then QuoteWord(words[0])
    else QuoteWord(words[0]) + " " + Spelled(words[1..])
  }

  lemma BlankEndsWord(c: char, word: string, rest: string)
    requires Blank(c)
    ensures Words([c] + rest, word, Bare, true) == Prepend([word], Words(rest, "", Bare, false))
  {
    assert ([c] + rest)[1..] == rest;
  }

  /** Splitting the quoted words, joined by blanks, gives back exactly the words. */
  lemma {:induction false} SplitUndoesQuoting(words: seq<string>)
    ensures Split(Spelled(words)) == Some(words)
  {
    hide QuoteWord;
    if |words| == 1 {
      QuotedReads(words[0], "");
      assert QuoteWord(words[0]) + "" == QuoteWord(words[0]);
      assert words == [words[0]];
    } else if words != [] {
      hide Words;
      var rest := Spelled(words[1..]);
      QuotedReads(words[0], " " + rest);
      assert QuoteWord(words[0]) + (" " + rest) == Spelled(words);
      BlankEndsWord(' ', words[0], rest);
      SplitUndoesQuoting(words[1..]);
      assert words == [words[0]] + words[1..];
    }
  }

  /**
   * A command spells its words again exactly when it is the spelling of some words: the test by
   * which a command line is recognised as one that was quoted this way.
   */
  lemma SpellingIsRecognised(command: string)
    ensures (Split(command).Some? && Spelled(Split(command).value) == command) <==> exists words :: command == Spelled(words)
  {
    forall words | command == Spelled(words) ensures Split(command) == Some(words) {
      SplitUndoesQuoting(words);
    }
  }
}
