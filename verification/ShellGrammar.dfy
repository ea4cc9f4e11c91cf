/**
 * What the shell-word reader accepts and what it makes of it: a grammar of command lines, read
 * without a scan. Every text is spelled by the grammar, and the words it spells are those read.
 */
module ShellGrammar {
  import opened Wrappers
  import opened Sequences
  import opened ShellWords

  /** Inside double quotes: a character, or a backslash and a character. */
  datatype Inner = Verbatim(c: char) | Escape(c: char)

  datatype Segment =
    | Plain(c: char)
    | Backslash(c: char)
    | Singly(text: string)
    | Doubly(parts: seq<Inner>)

  /** Between words: a blank, or a comment with the newline that ends it. */
  datatype Filler = White(c: char) | Remark(text: string)

  datatype Spaced = Spaced(word: seq<Segment>, gap: seq<Filler>)

  /** What a text that breaks off ends with: an open quote, or a backslash with nothing after it. */
  datatype Cut =
    | OpenSingle(text: string)
    | OpenDouble(parts: seq<Inner>)
    | OpenEscape(parts: seq<Inner>)
    | LoneBackslash

  /** A command line ends completely, in a comment without a newline, or by breaking off inside a word. */
  datatype End = Complete | OpenRemark(text: string) | BrokenOff(word: seq<Segment>, cut: Cut)

  datatype Spelling = Spelling(lead: seq<Filler>, words: seq<Spaced>, end: End)

  // ---- Well-formed spellings ----

  predicate InnerOk(p: Inner) {
    p.Verbatim? ==> p.c != '"' && p.c != '\\'
  }

  predicate InnersOk(parts: seq<Inner>) {
    forall p | p in parts :: InnerOk(p)
  }

  predicate SegmentOk(s: Segment) {
    match s
    case Plain(c) => c != '\\' && c != '\'' && c != '"' && c != ' ' && c != '\t' && c != '\n'
    case Backslash(_) => true
    case Singly(text) => '\'' !in text
    case Doubly(parts) => InnersOk(parts)
  }

  /** A comment sign is an ordinary character, but not at the start of a word. */
  predicate SegmentsOk(word: seq<Segment>) {
    && (forall s | s in word :: SegmentOk(s))
    && (word != [] ==> word[0] != Plain('#'))
  }

  predicate FillerOk(f: Filler) {
    match f
    case White(c) => c == ' ' || c == '\t' || c == '\n'
    case Remark(text) => '\n' !in text
  }

  predicate GapOk(gap: seq<Filler>) {
    forall f | f in gap :: FillerOk(f)
  }

  predicate CutOk(cut: Cut) {
    match cut
    case OpenSingle(text) => '\'' !in text
    case OpenDouble(parts) => InnersOk(parts)
    case OpenEscape(parts) => InnersOk(parts)
    case LoneBackslash => true
  }

  predicate EndOk(end: End) {
    match end
    case Complete => true
    case OpenRemark(text) => '\n' !in text
    case BrokenOff(word, cut) => SegmentsOk(word) && CutOk(cut)
  }

  /** A blank comes first in every gap after a word, and only a word at the very end needs none. */
  predicate WordsOk(words: seq<Spaced>, end: End) {
    words != [] ==>
      var first := words[0];
      && first.word != [] && SegmentsOk(first.word) && GapOk(first.gap)
      && (if first.gap == [] then words[1..] == [] && end == Complete else first.gap[0].White?)
      && WordsOk(words[1..], end)
  }

  predicate SpellingOk(sp: Spelling) {
    GapOk(sp.lead) && WordsOk(sp.words, sp.end) && EndOk(sp.end)
  }

  // ---- The text of a spelling, and the words it spells ----

  function InnerText(p: Inner): string {
    if p.Verbatim? then [p.c] else ['\\', p.c]
  }

  /** Inside double quotes a backslash stays, except before a newline, which goes too, and before `$`, a backquote, `"` and itself. */
  function InnerValue(p: Inner): string {
    if p.Verbatim? then [p.c]
    else if p.c == '\n' then ""
    else if p.c == '$' || p.c == '`' || p.c == '"' || p.c == '\\' then [p.c]
    else ['\\', p.c]
  }

  function InnersText(parts: seq<Inner>): string {
    if parts == [] then "" else InnerText(parts[0]) + InnersText(parts[1..])
  }

  function InnersValue(parts: seq<Inner>): string {
    if parts == [] then "" else InnerValue(parts[0]) + InnersValue(parts[1..])
  }

  function SegmentText(s: Segment): string {
    match s
    case Plain(c) => [c]
    case Backslash(c) => ['\\', c]
    case Singly(text) => "'" + text + "'"
    case Doubly(parts) => "\"" + InnersText(parts) + "\""
  }

  function SegmentValue(s: Segment): string {
    match s
    case Plain(c) => [c]
    case Backslash(c) => if c == '\n' then "" else [c]
    case Singly(text) => text
    case Doubly(parts) => InnersValue(parts)
  }

  function SegmentsText(word: seq<Segment>): string {
    if word == [] then "" else SegmentText(word[0]) + SegmentsText(word[1..])
  }

  function SegmentsValue(word: seq<Segment>): string {
    if word == [] then "" else SegmentValue(word[0]) + SegmentsValue(word[1..])
  }

  function FillerText(f: Filler): string {
    if f.White? then [f.c] else "#" + f.text + "\n"
  }

  function GapText(gap: seq<Filler>): string {
    if gap == [] then "" else FillerText(gap[0]) + GapText(gap[1..])
  }

  function CutText(cut: Cut): string {
    match cut
    case OpenSingle(text) => "'" + text
    case OpenDouble(parts) => "\"" + InnersText(parts)
    case OpenEscape(parts) => "\"" + InnersText(parts) + "\\"
    case LoneBackslash => "\\"
  }

  function EndText(end: End): string {
    match end
    case Complete => ""
    case OpenRemark(text) => "#" + text
    case BrokenOff(word, cut) => SegmentsText(word) + CutText(cut)
  }

  function WordsText(words: seq<Spaced>, end: End): string {
    if words == [] then EndText(end)
    else SegmentsText(words[0].word) + (GapText(words[0].gap) + WordsText(words[1..], end))
  }

  function SpellingText(sp: Spelling): string {
    GapText(sp.lead) + WordsText(sp.words, sp.end)
  }

  function Values(words: seq<Spaced>): seq<string> {
    if words == [] then [] else [SegmentsValue(words[0].word)] + Values(words[1..])
  }

  // ---- A spelling is read as the words it spells ----

  lemma {:induction false} InnersRead(parts: seq<Inner>, rest: string, word: string)
    requires InnersOk(parts)
    ensures Words(InnersText(parts) + rest, word, Double, true) == Words(rest, word + InnersValue(parts), Double, true)
  {
    if parts == [] {
      assert InnersText(parts) + rest == rest && word + InnersValue(parts) == word;
    } else {
      var p, later := parts[0], parts[1..];
      assert p in parts && forall q | q in later :: q in parts;
      hide Words, InnerText, InnerValue, InnerOk;
      InnerRead(p, InnersText(later) + rest, word);
      InnersRead(later, rest, word + InnerValue(p));
      Regroup(InnerText(p), InnersText(later), rest);
      Regroup(word, InnerValue(p), InnersValue(later));
    }
  }

  lemma InnerRead(p: Inner, rest: string, word: string)
    requires InnerOk(p)
    ensures Words(InnerText(p) + rest, word, Double, true) == Words(rest, word + InnerValue(p), Double, true)
  {
    var text := InnerText(p) + rest;
    if p.Verbatim? {
      assert text[0] == p.c && text[1..] == rest;
    } else {
      assert text[0] == '\\' && text[1..] == [p.c] + rest && text[1..][0] == p.c && text[1..][1..] == rest;
      assert InnerValue(p) == Escaped(p.c, Double);
    }
  }

  lemma {:induction false} SingleRead(text: string, rest: string, word: string)
    requires '\'' !in text
    ensures Words(text + "'" + rest, word, Single, true) == Words(rest, word + text, Bare, true)
  {
    var all := text + "'" + rest;
    if text == "" {
      assert all[0] == '\'' && all[1..] == rest && word + text == word;
    } else {
      assert all[0] == text[0] && all[1..] == text[1..] + "'" + rest;
      SingleRead(text[1..], rest, word + [text[0]]);
      assert word + [text[0]] + text[1..] == word + text;
    }
  }

  lemma SegmentRead(s: Segment, rest: string, word: string, started: bool)
    requires SegmentOk(s) && (s == Plain('#') ==> started)
    ensures Words(SegmentText(s) + rest, word, Bare, started) == Words(rest, word + SegmentValue(s), Bare, true)
  {
    var text := SegmentText(s) + rest;
    match s {
      case Plain(c) =>
        assert text[0] == c && text[1..] == rest;
      case Backslash(c) =>
        assert text[0] == '\\' && text[1..] == [c] + rest && text[1..][0] == c && text[1..][1..] == rest;
        assert SegmentValue(s) == Escaped(c, Bare);
      case Singly(inside) =>
        assert text[0] == '\'' && text[1..] == inside + "'" + rest;
        SingleRead(inside, rest, word);
      case Doubly(parts) =>
        DoubleRead(parts, rest, word, started);
    }
  }

  lemma DoubleRead(parts: seq<Inner>, rest: string, word: string, started: bool)
    requires InnersOk(parts)
    ensures Words("\"" + InnersText(parts) + "\"" + rest, word, Bare, started) == Words(rest, word + InnersValue(parts), Bare, true)
  {
    var text := "\"" + InnersText(parts) + "\"" + rest;
    assert text[0] == '"' && text[1..] == InnersText(parts) + ("\"" + rest);
    InnersRead(parts, "\"" + rest, word);
    assert ("\"" + rest)[0] == '"' && ("\"" + rest)[1..] == rest;
  }

  lemma {:induction false} SegmentsRead(segments: seq<Segment>, rest: string, word: string, started: bool)
    requires forall s | s in segments :: SegmentOk(s)
    requires started || (segments != [] && segments[0] != Plain('#'))
    ensures Words(SegmentsText(segments) + rest, word, Bare, started) == Words(rest, word + SegmentsValue(segments), Bare, true)
  {
    if segments == [] {
      assert SegmentsText(segments) + rest == rest && word + SegmentsValue(segments) == word;
    } else {
      var s, later := segments[0], segments[1..];
      assert s in segments && forall q | q in later :: q in segments;
      hide Words, SegmentText, SegmentValue, SegmentOk;
      SegmentRead(s, SegmentsText(later) + rest, word, started);
      SegmentsRead(later, rest, word + SegmentValue(s), true);
      Regroup(SegmentText(s), SegmentsText(later), rest);
      Regroup(word, SegmentValue(s), SegmentsValue(later));
    }
  }

  lemma {:induction false} AfterRemark(text: string, rest: string)
    requires '\n' !in text
    ensures AfterComment(text + "\n" + rest) == rest && AfterComment(text) == ""
  {
    var all := text + "\n" + rest;
    if text == "" {
      assert all[0] == '\n' && all[1..] == rest;
    } else {
      assert all[0] == text[0] && all[1..] == text[1..] + "\n" + rest;
      AfterRemark(text[1..], rest);
    }
  }

  lemma FillerRead(f: Filler, rest: string)
    requires FillerOk(f)
    ensures Words(FillerText(f) + rest, "", Bare, false) == Words(rest, "", Bare, false)
  {
    if f.White? {
      var text := [f.c] + rest;
      assert text[0] == f.c && text[1..] == rest;
      PrependNothing(Words(rest, "", Bare, false));
    } else {
      var text := "#" + f.text + "\n" + rest;
      assert text[0] == '#' && text == ("#" + f.text) + "\n" + rest;
      AfterRemark("#" + f.text, rest);
    }
  }

  lemma {:induction false} GapRead(gap: seq<Filler>, rest: string)
    requires GapOk(gap)
    ensures Words(GapText(gap) + rest, "", Bare, false) == Words(rest, "", Bare, false)
  {
    if gap == [] {
      assert GapText(gap) + rest == rest;
    } else {
      var f, later := gap[0], gap[1..];
      assert f in gap && forall g | g in later :: g in gap;
      hide Words, FillerOk;
      FillerRead(f, GapText(later) + rest);
      GapRead(later, rest);
      Regroup(FillerText(f), GapText(later), rest);
    }
  }

  /** A gap after a word ends that word. */
  lemma WordEnds(word: string, gap: seq<Filler>, rest: string)
    requires GapOk(gap) && gap != [] && gap[0].White?
    ensures Words(GapText(gap) + rest, word, Bare, true) == Prepend([word], Words(rest, "", Bare, false))
  {
    var c, later := gap[0].c, gap[1..];
    assert gap[0] in gap && forall g | g in later :: g in gap;
    hide Words;
    assert GapText(gap) == [c] + GapText(later);
    Regroup([c], GapText(later), rest);
    BlankEndsWord(c, word, GapText(later) + rest);
    GapRead(later, rest);
  }

  lemma {:induction false} SingleCut(text: string, word: string)
    requires '\'' !in text
    ensures Words(text, word, Single, true) == None
  {
    if text != "" {
      SingleCut(text[1..], word + [text[0]]);
    }
  }

  lemma CutRead(cut: Cut, word: string, started: bool)
    requires CutOk(cut)
    ensures Words(CutText(cut), word, Bare, started) == None
  {
    match cut {
      case OpenSingle(text) =>
        assert CutText(cut)[0] == '\'' && CutText(cut)[1..] == text;
        SingleCut(text, word);
      case OpenDouble(parts) =>
        assert CutText(cut)[0] == '"' && CutText(cut)[1..] == InnersText(parts) + "";
        InnersRead(parts, "", word);
      case OpenEscape(parts) =>
        assert CutText(cut)[0] == '"' && CutText(cut)[1..] == InnersText(parts) + "\\";
        InnersRead(parts, "\\", word);
      case LoneBackslash =>
    }
  }

  lemma EndRead(end: End)
    requires EndOk(end)
    ensures Words(EndText(end), "", Bare, false) == if end.BrokenOff? then None else Some([])
  {
    match end {
      case Complete =>
      case OpenRemark(text) =>
        AfterRemark("#" + text, "");
        assert EndText(end)[0] == '#';
      case BrokenOff(word, cut) =>
        if word == [] {
          assert EndText(end) == CutText(cut);
          CutRead(cut, "", false);
        } else {
          SegmentsRead(word, CutText(cut), "", false);
          CutRead(cut, "" + SegmentsValue(word), true);
        }
    }
  }

  lemma {:induction false} WordsRead(words: seq<Spaced>, end: End)
    requires WordsOk(words, end) && EndOk(end)
    ensures Words(WordsText(words, end), "", Bare, false) == if end.BrokenOff? then None else Some(Values(words))
  {
    if words == [] {
      EndRead(end);
    } else {
      var first, later := words[0], words[1..];
      var rest := WordsText(later, end);
      var value := SegmentsValue(first.word);
      SegmentsRead(first.word, GapText(first.gap) + rest, "", false);
      assert "" + value == value;
      if first.gap == [] {
        assert GapText(first.gap) + rest == "";
        assert Values(words) == [value];
      } else {
        hide Words;
        WordEnds(value, first.gap, rest);
        WordsRead(later, end);
      }
    }
  }

  /** Every well-formed spelling is read as exactly the words it spells, and one that breaks off not at all. */
  lemma SpellingIsRead(sp: Spelling)
    requires SpellingOk(sp)
    ensures Split(SpellingText(sp)) == if sp.end.BrokenOff? then None else Some(Values(sp.words))
  {
    GapRead(sp.lead, WordsText(sp.words, sp.end));
    WordsRead(sp.words, sp.end);
  }

  // ---- Every text is spelled ----

  lemma {:induction false} UpTo(text: string, c: char) returns (before: string, after: string)
    requires c in text
    ensures text == before + [c] + after && c !in before
  {
    if text[0] == c {
      before, after := "", text[1..];
      assert text == "" + [c] + after;
    } else {
      before, after := UpTo(text[1..], c);
      before := [text[0]] + before;
    }
  }

  /** The inside of double quotes, up to the quote that ends them or to where the text breaks off. */
  lemma {:induction false} SpellInners(text: string) returns (parts: seq<Inner>, rest: string)
    ensures InnersOk(parts) && text == InnersText(parts) + rest
    ensures rest == "" || rest == "\\" || rest[0] == '"'
    decreases |text|
  {
    if text == "" || text == "\\" || text[0] == '"' {
      parts, rest := [], text;
    } else {
      var p := if text[0] == '\\' then Escape(text[1]) else Verbatim(text[0]);
      var n := if text[0] == '\\' then 2 else 1;
      var later;
      later, rest := SpellInners(text[n..]);
      parts := [p] + later;
      assert parts[1..] == later;
      assert text == text[..n] + text[n..];
      assert text[..n] == InnerText(p);
      Regroup(text[..n], InnersText(later), rest);
    }
  }

  /** A text that goes on a word begins with a segment, or breaks off. */
  lemma SpellSegment(text: string) returns (s: Segment, rest: string, cut: Option<Cut>)
    requires text != "" && text[0] != ' ' && text[0] != '\t' && text[0] != '\n'
    ensures if cut.Some? then CutOk(cut.value) && text == CutText(cut.value)
            else SegmentOk(s) && text == SegmentText(s) + rest && |rest| < |text| && (s == Plain('#') ==> text[0] == '#')
  {
    var c, inside := text[0], text[1..];
    assert text == [c] + inside;
    cut, rest := None, "";
    s := Plain(c);
    if c == '\'' {
      if c in inside {
        var before;
        before, rest := UpTo(inside, c);
        s := Singly(before);
        assert text == "'" + before + "'" + rest;
      } else {
        cut := Some(OpenSingle(inside));
      }
    } else if c == '"' {
      var parts, after := SpellInners(inside);
      if after == "" {
        cut := Some(OpenDouble(parts));
      } else if after == "\\" {
        cut := Some(OpenEscape(parts));
        assert text == "\"" + InnersText(parts) + "\\";
      } else {
        s, rest := Doubly(parts), after[1..];
        assert after == "\"" + rest;
        assert text == "\"" + InnersText(parts) + "\"" + rest;
      }
    } else if c == '\\' {
      if inside == "" {
        cut := Some(LoneBackslash);
      } else {
        s, rest := Backslash(inside[0]), inside[1..];
        assert text == ['\\', inside[0]] + rest;
      }
    } else {
      rest := inside;
    }
  }

  /** The segments of a word, up to a blank, the end, or where the text breaks off. */
  lemma {:induction false} SpellSegments(text: string) returns (word: seq<Segment>, rest: string, cut: Option<Cut>)
    ensures forall s | s in word :: SegmentOk(s)
    ensures cut.Some? ==> CutOk(cut.value) && rest == CutText(cut.value)
    ensures cut.None? ==> rest == "" || Blank(rest[0])
    ensures text == SegmentsText(word) + rest
    ensures word != [] && word[0] == Plain('#') ==> text[0] == '#'
    ensures word == [] && cut.None? ==> text == "" || Blank(text[0])
    ensures |rest| <= |text| && (word != [] ==> |rest| < |text|)
    decreases |text|
  {
    word, rest, cut := [], text, None;
    if text != "" && !Blank(text[0]) {
      var s, after;
      s, after, cut := SpellSegment(text);
      if cut.None? {
        var later;
        later, rest, cut := SpellSegments(after);
        word := [s] + later;
        assert word[1..] == later;
        Regroup(SegmentText(s), SegmentsText(later), rest);
      }
    }
  }

  /** The blanks and comments a text begins with; what follows begins a word or is an unended comment. */
  lemma {:induction false} SpellGap(text: string) returns (gap: seq<Filler>, rest: string)
    ensures GapOk(gap) && text == GapText(gap) + rest && |rest| <= |text|
    ensures rest == "" || (!Blank(rest[0]) && (rest[0] == '#' ==> '\n' !in rest))
    ensures text != "" && Blank(text[0]) ==> gap != [] && gap[0].White? && |rest| < |text|
    decreases |text|
  {
    gap, rest := [], text;
    if text != "" && (Blank(text[0]) || (text[0] == '#' && '\n' in text)) {
      var f, after;
      if Blank(text[0]) {
        f, after := White(text[0]), text[1..];
        assert text == [text[0]] + after;
      } else {
        var before;
        before, after := UpTo(text[1..], '\n');
        f := Remark(before);
        assert text == [text[0]] + text[1..];
        assert text == "#" + before + "\n" + after;
      }
      var later;
      later, rest := SpellGap(after);
      gap := [f] + later;
      assert gap[1..] == later;
      Regroup(FillerText(f), GapText(later), rest);
    }
  }

  lemma {:induction false} SpellWords(text: string) returns (words: seq<Spaced>, end: End)
    requires text == "" || (!Blank(text[0]) && (text[0] == '#' ==> '\n' !in text))
    ensures WordsOk(words, end) && EndOk(end) && text == WordsText(words, end)
    decreases |text|
  {
    words, end := [], Complete;
    if text != "" {
      if text[0] == '#' {
        end := OpenRemark(text[1..]);
        assert text == "#" + text[1..];
      } else {
        var word, rest, cut := SpellSegments(text);
        if cut.Some? {
          end := BrokenOff(word, cut.value);
        } else {
          var gap, after := SpellGap(rest);
          var later;
          later, end := SpellWords(after);
          words := [Spaced(word, gap)] + later;
          assert words[1..] == later;
          if gap == [] {
            assert rest == "" && after == "";
            if later != [] || end != Complete {
              EmptyText(later, end);
              assert false;
            }
          }
        }
      }
    }
  }

  /** Only nothing spells the empty text. */
  lemma EmptyText(words: seq<Spaced>, end: End)
    requires WordsOk(words, end) && (words != [] || end != Complete)
    ensures WordsText(words, end) != ""
  {
    if words != [] {
      assert |SegmentText(words[0].word[0])| > 0;
    } else if end.BrokenOff? {
      assert |CutText(end.cut)| > 0;
    }
  }

  lemma SpellText(text: string) returns (sp: Spelling)
    ensures SpellingOk(sp) && SpellingText(sp) == text
  {
    var lead, rest := SpellGap(text);
    var words, end := SpellWords(rest);
    sp := Spelling(lead, words, end);
  }

  /**
   * What splitting a command line means, for every text: it fails exactly on a text that breaks off
   * in an open quote or after a backslash, and otherwise gives the words of any spelling of the text.
   */
  lemma SplitMeans(text: string, words: seq<string>)
    ensures Split(text) == None <==> exists sp :: SpellingOk(sp) && SpellingText(sp) == text && sp.end.BrokenOff?
    ensures Split(text) == Some(words) <==>
            exists sp :: SpellingOk(sp) && SpellingText(sp) == text && !sp.end.BrokenOff? && Values(sp.words) == words
  {
    var sp := SpellText(text);
    SpellingIsRead(sp);
    forall other | SpellingOk(other) && SpellingText(other) == text
      ensures Split(text) == if other.end.BrokenOff? then None else Some(Values(other.words))
    {
      SpellingIsRead(other);
    }
  }
}
