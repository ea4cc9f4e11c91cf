/** How a shell word is quoted: in chunks as long as one way of quoting fits, each in the plainest way. */
module ShellQuoting {
  import opened ShellWords

  // ---- The three ways, each said of a whole text ----

  predicate LetterOrDigit(c: char) {
    ('a' <= c && c <= 'z') || ('A' <= c && c <= 'Z') || ('0' <= c && c <= '9')
  }

  predicate PlainText(text: string) {
    forall c | c in text :: PlainChar(c)
  }

  predicate PlainChar(c: char) {
    LetterOrDigit(c) || c == '_' || c == '+' || c == '.' || c == '/' || c == ':' || c == '@' || c == ']' || c == '-'
  }

  /** Single quotes hold no quote, no backslash, and a caret only in front. */
  predicate SingleText(text: string) {
    '\'' !in text && '\\' !in text && forall k | 0 < k < |text| :: text[k] != '^'
  }

  predicate DoubleText(text: string) {
    '`' !in text && '$' !in text && '!' !in text && '^' !in text
  }

  predicate Quotable(text: string) {
    PlainText(text) || SingleText(text) || DoubleText(text)
  }

  function Quoted(text: string): string {
    if PlainText(text) then text
    else if SingleText(text) then "'" + text + "'"
    else "\"" + EscapeDouble(text) + "\""
  }

  function Joined(chunks: seq<string>): string {
    if chunks == [] then "" else chunks[0] + Joined(chunks[1..])
  }

  function QuotedEach(chunks: seq<string>): seq<string> {
    if chunks == [] then [] else [Quoted(chunks[0])] + QuotedEach(chunks[1..])
  }

  /** Every chunk fits one way of quoting, and none could have gone on into the next one. */
  predicate Longest(chunks: seq<string>) {
    chunks != [] ==>
      && chunks[0] != "" && Quotable(chunks[0])
      && (|chunks| > 1 && chunks[1] != "" ==> !Quotable(chunks[0] + [chunks[1][0]]))
      && Longest(chunks[1..])
  }

  // ---- The running modes are those of the chunk so far ----

  function ModesOf(text: string): Modes {
    Modes(PlainText(text), SingleText(text), DoubleText(text))
  }

  lemma PlainIs(c: char)
    ensures Plain(c) <==> PlainChar(c)
  {
    assert "_+./:@]-" == ['_', '+', '.', '/', ':', '@', ']', '-'];
  }

  lemma ModesNext(text: string, c: char)
    requires text == "" ==> c != '^'
    ensures ModesOf(text + [c]) == Narrowed(ModesOf(text), c)
  {
    var longer := text + [c];
    assert longer[|text|] == c && forall k | 0 <= k < |text| :: longer[k] == text[k];
    assert forall d :: d in longer <==> d in text || d == c;
    CaretsNext(text, c);
    PlainIs(c);
    hide Plain, PlainChar;
  }

  lemma CaretsNext(text: string, c: char)
    ensures (forall k | 0 < k < |text + [c]| :: (text + [c])[k] != '^') <==>
            (forall k | 0 < k < |text| :: text[k] != '^') && (text == "" || c != '^')
  {
    var longer := text + [c];
    assert longer[|text|] == c && forall k | 0 <= k < |text| :: longer[k] == text[k];
  }

  lemma ModesFit(text: string)
    ensures Fits(ModesOf(text)) <==> Quotable(text)
  {
  }

  lemma {:induction false} ExtentModes(text: string, end: nat, m: Modes)
    requires end <= |text| && m == ModesOf(text[..end]) && Fits(m)
    requires end == 0 ==> !StartsWithCaret(text)
    ensures end <= Extent(text, end, m) <= |text|
    ensures ModesAt(text, end, m) == ModesOf(text[..Extent(text, end, m)]) && Quotable(text[..Extent(text, end, m)])
    ensures Extent(text, end, m) < |text| ==> !Quotable(text[..Extent(text, end, m) + 1])
    decreases |text| - end
  {
    hide ModesOf, Quotable, Fits, Narrowed;
    ModesFit(text[..end]);
    if end < |text| {
      ModesNext(text[..end], text[end]);
      assert text[..end + 1] == text[..end] + [text[end]];
      ModesFit(text[..end + 1]);
      if Fits(Narrowed(m, text[end])) {
        ExtentModes(text, end + 1, Narrowed(m, text[end]));
      }
    }
  }

  lemma FirstModesOf(text: string)
    requires text != ""
    ensures FirstModes(text) == ModesOf(text[..FirstEnd(text)]) && Fits(FirstModes(text))
  {
    if StartsWithCaret(text) {
      assert text[..1] == "^" && text[..1][0] == '^';
    }
  }

  lemma ChunkIs(text: string)
    requires text != ""
    ensures var n := ChunkLength(text);
            && Quotable(text[..n]) && Wrap(text[..n], ChunkModes(text)) == Quoted(text[..n])
            && (n < |text| ==> !Quotable(text[..n + 1]))
  {
    FirstModesOf(text);
    ExtentModes(text, FirstEnd(text), FirstModes(text));
    WrapIs(text[..ChunkLength(text)]);
    hide PlainText, SingleText, DoubleText, Extent, ModesAt, Wrap, Quoted, ModesOf, Quotable, FirstModes;
  }

  lemma WrapIs(text: string)
    requires Quotable(text)
    ensures Wrap(text, ModesOf(text)) == Quoted(text)
  {
  }

  /**
   * A word is cut into chunks from the left, each as long as one way of quoting fits all of it, and
   * each is quoted the plainest way that does: as it is, else in single, else in double quotes.
   */
  lemma {:induction false} QuotedInChunks(word: string) returns (chunks: seq<string>)
    ensures Joined(chunks) == word && Longest(chunks)
    ensures QuoteWord(word) == if word == "" then "''" else Joined(QuotedEach(chunks))
    decreases |word|
  {
    chunks := [];
    if word != "" {
      hide Quotable, Quoted, QuoteChunks, Wrap, ChunkLength, ChunkModes, Joined, QuotedEach, Longest;
      var n := ChunkLength(word);
      ChunkIs(word);
      NextChunk(word, n);
      var later := QuotedInChunks(word[n..]);
      chunks := [word[..n]] + later;
      Chained(word, n, later);
    }
  }

  /** A chunk in front of the chunks of the rest. */
  lemma Chained(word: string, n: nat, later: seq<string>)
    requires 0 < n <= |word| && Joined(later) == word[n..] && Longest(later) && Quotable(word[..n])
    requires n < |word| ==> !Quotable(word[..n + 1])
    requires QuoteWord(word[n..]) == if word[n..] == "" then "''" else Joined(QuotedEach(later))
    ensures var chunks := [word[..n]] + later;
            && Joined(chunks) == word && Longest(chunks)
            && Joined(QuotedEach(chunks)) == Quoted(word[..n]) + QuoteChunks(word[n..])
  {
    hide Quotable, Quoted, QuoteChunks, QuoteWord;
    var chunks := [word[..n]] + later;
    assert chunks[1..] == later;
    assert word == word[..n] + word[n..];
    if later != [] {
      NextStarts(word, n, later);
    }
    RestIsQuoted(word[n..], later);
  }

  lemma NextStarts(word: string, n: nat, later: seq<string>)
    requires n <= |word| && Joined(later) == word[n..] && later != [] && later[0] != ""
    ensures n < |word| && later[0][0] == word[n] && word[..n + 1] == word[..n] + [later[0][0]]
  {
    assert word[n..] == later[0] + Joined(later[1..]);
    assert word[n] == word[n..][0];
  }

  lemma RestIsQuoted(rest: string, later: seq<string>)
    requires Joined(later) == rest && Longest(later)
    requires QuoteWord(rest) == if rest == "" then "''" else Joined(QuotedEach(later))
    ensures QuoteChunks(rest) == Joined(QuotedEach(later))
  {
    hide Quotable, Quoted;
    if later != [] {
      assert rest == later[0] + Joined(later[1..]);
    }
  }
}
