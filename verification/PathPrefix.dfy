/**
 * Renaming the paths under a known prefix in displayed text. Which characters continue a path
 * token is a parameter; the letters and digits among them are those of Unicode.
 */
module PathPrefix {
  import opened Sequences

  type Tokens = char -> bool

  predicate Separator(c: char) {
    c == '/' || c == '\\'
  }

  function WithoutTrailingSeparators(raw: string): (prefix: string)
    ensures prefix != "" ==> !Separator(prefix[|prefix| - 1])
    ensures |prefix| <= |raw| && raw[..|prefix|] == prefix
    ensures forall k | |prefix| <= k < |raw| :: Separator(raw[k])
  {
    if raw != "" && Separator(raw[|raw| - 1]) then WithoutTrailingSeparators(raw[..|raw| - 1]) else raw
  }

  predicate OccursAt(text: string, prefix: string, i: nat) {
    i + |prefix| <= |text| && text[i..i + |prefix|] == prefix
  }

  /** The first occurrence from `from` on, or the length of the text when there is none. */
  function IndexOf(text: string, prefix: string, from: nat): (i: nat)
    requires from <= |text| && prefix != ""
    ensures from <= i <= |text|
    ensures i < |text| ==> OccursAt(text, prefix, i)
    ensures forall j | from <= j < i :: !OccursAt(text, prefix, j)
    decreases |text| - from
  {
    if from == |text| || OccursAt(text, prefix, from) then from else IndexOf(text, prefix, from + 1)
  }

  // ---- Bounds ----

  predicate TokenBoundary(text: string, i: nat, token: Tokens) {
    i < |text| ==> !token(text[i])
  }

  predicate StartsPath(text: string, i: nat, token: Tokens)
    requires i <= |text|
  {
    i == 0 || !token(text[i - 1]) || (i >= 3 && text[i - 3..i] == "://")
  }

  predicate EndsPath(text: string, i: nat, token: Tokens) {
    i < |text| ==> if text[i] == '.' then TokenBoundary(text, i + 1, token) else !token(text[i])
  }

  predicate Nested(text: string, i: nat) {
    i < |text| && Separator(text[i])
  }

  /** The occurrence at `i` is the head of a path. */
  predicate IsHead(text: string, prefix: string, i: nat, token: Tokens) {
    && OccursAt(text, prefix, i)
    && StartsPath(text, i, token)
    && (Nested(text, i + |prefix|) || EndsPath(text, i + |prefix|, token))
  }

  datatype Names = Names(prefix: string, exact: string, nested: string, strip: bool)

  /** Where the scan goes on after a renamed head. */
  function AfterHead(text: string, n: Names, i: nat): (next: nat)
    requires OccursAt(text, n.prefix, i)
    ensures i + |n.prefix| <= next <= |text|
  {
    i + |n.prefix| + if Nested(text, i + |n.prefix|) && n.strip then 1 else 0
  }

  function NewName(text: string, n: Names, i: nat): string {
    if Nested(text, i + |n.prefix|) then n.nested else n.exact
  }

  // ---- The scan ----

  /**
   * One pass from left to right: a head is renamed, an occurrence that is none is copied as a
   * whole, and any other character is copied.
   */
  function Scan(text: string, n: Names, i: nat, token: Tokens): string
    requires n.prefix != "" && i <= |text|
    decreases |text| - i
  {
    if i == |text| then ""
    else if IsHead(text, n.prefix, i, token) then NewName(text, n, i) + Scan(text, n, AfterHead(text, n, i), token)
    else if OccursAt(text, n.prefix, i) then n.prefix + Scan(text, n, i + |n.prefix|, token)
    else [text[i]] + Scan(text, n, i + 1, token)
  }

  lemma {:induction false} NothingFound(text: string, n: Names, i: nat, m: nat, token: Tokens)
    requires n.prefix != "" && i <= m <= |text|
    requires forall j | i <= j < m :: !OccursAt(text, n.prefix, j)
    ensures Scan(text, n, i, token) == text[i..m] + Scan(text, n, m, token)
    decreases m - i
  {
    if i < m {
      assert Scan(text, n, i, token) == [text[i]] + Scan(text, n, i + 1, token);
      NothingFound(text, n, i + 1, m, token);
      hide OccursAt, IsHead, Scan;
      assert text[i..m] == [text[i]] + text[i + 1..m];
    } else {
      assert text[i..m] == "";
    }
  }

  lemma HeadStep(text: string, n: Names, i: nat, token: Tokens)
    requires n.prefix != "" && i < |text| && OccursAt(text, n.prefix, i)
    ensures Scan(text, n, i, token) ==
      if IsHead(text, n.prefix, i, token) then NewName(text, n, i) + Scan(text, n, AfterHead(text, n, i), token)
      else text[i..i + |n.prefix|] + Scan(text, n, i + |n.prefix|, token)
  {
  }

  /** What is written so far, what waits to be copied, and what is still to be scanned. */
  ghost predicate Progress(text: string, n: Names, result: string, cursor: nat, i: nat, token: Tokens)
    requires n.prefix != "" && cursor <= i <= |text|
  {
    Scan(text, n, 0, token) == result + (text[cursor..i] + Scan(text, n, i, token))
  }

  lemma Advance(text: string, n: Names, result: string, cursor: nat, i: nat, m: nat, token: Tokens)
    requires n.prefix != "" && cursor <= i <= m <= |text| && Progress(text, n, result, cursor, i, token)
    requires forall j | i <= j < m :: !OccursAt(text, n.prefix, j)
    ensures Progress(text, n, result, cursor, m, token)
  {
    NothingFound(text, n, i, m, token);
    hide Scan;
    Extends(text, cursor, i, m);
    Regroup(text[cursor..i], text[i..m], Scan(text, n, m, token));
  }

  lemma CopyStep(text: string, n: Names, result: string, cursor: nat, m: nat, token: Tokens)
    requires n.prefix != "" && cursor <= m < |text| && Progress(text, n, result, cursor, m, token)
    requires OccursAt(text, n.prefix, m) && !IsHead(text, n.prefix, m, token)
    ensures Progress(text, n, result, cursor, m + |n.prefix|, token)
  {
    hide Scan, IsHead, OccursAt, NewName, AfterHead;
    InBounds(text, n.prefix, m);
    HeadStep(text, n, m, token);
    var next := m + |n.prefix|;
    Extends(text, cursor, m, next);
    Regroup(text[cursor..m], text[m..next], Scan(text, n, next, token));
  }

  lemma RenameStep(text: string, n: Names, result: string, cursor: nat, m: nat, token: Tokens)
    requires n.prefix != "" && cursor <= m < |text| && Progress(text, n, result, cursor, m, token)
    requires IsHead(text, n.prefix, m, token)
    ensures var next := AfterHead(text, n, m);
            Progress(text, n, result + text[cursor..m] + NewName(text, n, m), next, next, token)
  {
    assert OccursAt(text, n.prefix, m);
    hide Scan, IsHead, OccursAt, NewName, AfterHead;
    HeadStep(text, n, m, token);
    var next, name := AfterHead(text, n, m), NewName(text, n, m);
    var rest := Scan(text, n, next, token);
    assert text[next..next] + rest == rest;
    Regroup(result, text[cursor..m], name + rest);
    Regroup(result + text[cursor..m], name, rest);
  }

  method ReplacePathPrefix(text: string, raw: string, exact: string, nested: string, strip: bool, token: Tokens)
    returns (result: string)
    ensures var prefix := WithoutTrailingSeparators(raw);
            result == if prefix == "" then text else Scan(text, Names(prefix, exact, nested, strip), 0, token)
  {
    var prefix := WithoutTrailingSeparators(raw);
    if prefix == "" {
      return text;
    }
    result := RenameHeads(text, Names(prefix, exact, nested, strip), token);
  }

  /** One occurrence: rename it if it is a head, or else leave it to be copied. */
  method Examine(text: string, n: Names, written: string, copied: nat, matchAt: nat, token: Tokens)
    returns (result: string, cursor: nat, searchFrom: nat)
    requires n.prefix != "" && copied <= matchAt < |text| && (copied == 0 ==> written == "")
    requires OccursAt(text, n.prefix, matchAt) && Progress(text, n, written, copied, matchAt, token)
    ensures matchAt < searchFrom && cursor <= searchFrom <= |text| && (cursor == 0 ==> result == "")
    ensures Progress(text, n, result, cursor, searchFrom, token)
  {
    hide *;
    InBounds(text, n.prefix, matchAt);
    HeadIs(text, n, matchAt, token);
    var suffixAt := matchAt + |n.prefix|;
    var isNested := Nested(text, suffixAt);
    if StartsPath(text, matchAt, token) && (isNested || EndsPath(text, suffixAt, token)) {
      RenameStep(text, n, written, copied, matchAt, token);
      result := written + text[copied..matchAt] + (if isNested then n.nested else n.exact);
      cursor := suffixAt + if isNested && n.strip then 1 else 0;
      searchFrom := cursor;
    } else {
      CopyStep(text, n, written, copied, matchAt, token);
      result, cursor, searchFrom := written, copied, suffixAt;
    }
  }

  method RenameHeads(text: string, n: Names, token: Tokens) returns (result: string)
    requires n.prefix != ""
    ensures result == Scan(text, n, 0, token)
  {
    var cursor: nat, searchFrom: nat := 0, 0;
    result := "";
    assert Progress(text, n, "", 0, 0, token);
    hide *;
    while searchFrom < |text|
      invariant cursor <= searchFrom <= |text| && (cursor == 0 ==> result == "")
      invariant Progress(text, n, result, cursor, searchFrom, token)
      decreases |text| - searchFrom
    {
      var matchAt := IndexOf(text, n.prefix, searchFrom);
      Advance(text, n, result, cursor, searchFrom, matchAt, token);
      if matchAt == |text| {
        searchFrom := matchAt;
        break;
      }
      result, cursor, searchFrom := Examine(text, n, result, cursor, matchAt, token);
    }
    Finish(text, n, result, cursor, token);
    result := if cursor == 0 then text else result + text[cursor..];
  }

  lemma HeadIs(text: string, n: Names, m: nat, token: Tokens)
    requires m + |n.prefix| <= |text| && OccursAt(text, n.prefix, m)
    ensures var next := m + |n.prefix|;
            && (IsHead(text, n.prefix, m, token) <==>
                  StartsPath(text, m, token) && (Nested(text, next) || EndsPath(text, next, token)))
            && NewName(text, n, m) == (if Nested(text, next) then n.nested else n.exact)
            && AfterHead(text, n, m) == next + if Nested(text, next) && n.strip then 1 else 0
  {
  }

  lemma Finish(text: string, n: Names, result: string, cursor: nat, token: Tokens)
    requires n.prefix != "" && cursor <= |text| && Progress(text, n, result, cursor, |text|, token)
    ensures Scan(text, n, 0, token) == result + text[cursor..]
    ensures cursor == 0 && result == "" ==> Scan(text, n, 0, token) == text
  {
    assert text[cursor..|text|] + "" == text[cursor..];
    assert text[0..] == text && "" + text == text;
  }

  lemma InBounds(text: string, prefix: string, i: nat)
    requires OccursAt(text, prefix, i)
    ensures i + |prefix| <= |text|
  {
  }

  // ---- What the scan does to a text ----

  /** A stretch of the text as it was and as it is shown. */
  datatype Piece = Copied(text: string) | Renamed(at: nat, original: string, name: string)

  function Old(p: Piece): string {
    if p.Copied? then p.text else p.original
  }

  function New(p: Piece): string {
    if p.Copied? then p.text else p.name
  }

  function Before(pieces: seq<Piece>): string {
    if pieces == [] then "" else Old(pieces[0]) + Before(pieces[1..])
  }

  function After(pieces: seq<Piece>): string {
    if pieces == [] then "" else New(pieces[0]) + After(pieces[1..])
  }

  predicate IsRename(p: Piece, text: string, n: Names, token: Tokens) {
    p.Renamed? ==>
      && IsHead(text, n.prefix, p.at, token)
      && p.original == text[p.at..AfterHead(text, n, p.at)]
      && p.name == NewName(text, n, p.at)
  }

  /** Where the scan stands after its first piece. */
  function Onward(text: string, n: Names, i: nat, token: Tokens): (next: nat)
    requires n.prefix != "" && i < |text|
    ensures i < next <= |text|
  {
    if IsHead(text, n.prefix, i, token) then AfterHead(text, n, i)
    else if OccursAt(text, n.prefix, i) then i + |n.prefix|
    else i + 1
  }

  function PieceAt(text: string, n: Names, i: nat, token: Tokens): (p: Piece)
    requires n.prefix != "" && i < |text|
    ensures Old(p) == text[i..Onward(text, n, i, token)]
    ensures IsRename(p, text, n, token)
    ensures p.Renamed? <==> IsHead(text, n.prefix, i, token)
    ensures p.Renamed? ==> p.at == i
  {
    if IsHead(text, n.prefix, i, token) then
      Renamed(i, text[i..AfterHead(text, n, i)], NewName(text, n, i))
    else
      Copied(text[i..Onward(text, n, i, token)])
  }

  function Pieces(text: string, n: Names, i: nat, token: Tokens): seq<Piece>
    requires n.prefix != "" && i <= |text|
    decreases |text| - i
  {
    if i == |text| then [] else [PieceAt(text, n, i, token)] + Pieces(text, n, Onward(text, n, i, token), token)
  }

  lemma PiecesCons(p: Piece, rest: seq<Piece>)
    ensures Before([p] + rest) == Old(p) + Before(rest)
    ensures After([p] + rest) == New(p) + After(rest)
  {
    assert ([p] + rest)[1..] == rest;
  }

  lemma ScanOnward(text: string, n: Names, i: nat, token: Tokens)
    requires n.prefix != "" && i < |text|
    ensures Scan(text, n, i, token) == New(PieceAt(text, n, i, token)) + Scan(text, n, Onward(text, n, i, token), token)
  {
    if OccursAt(text, n.prefix, i) {
      HeadStep(text, n, i, token);
      hide Scan;
    } else {
      assert text[i..i + 1] == [text[i]];
    }
  }

  /** The pieces are the text, cut in order, and the scan shows each by its new text. */
  lemma {:induction false} TextIsCut(text: string, n: Names, i: nat, token: Tokens)
    requires n.prefix != "" && i <= |text|
    ensures Before(Pieces(text, n, i, token)) == text[i..|text|]
    ensures After(Pieces(text, n, i, token)) == Scan(text, n, i, token)
    decreases |text| - i
  {
    if i < |text| {
      hide Scan, PieceAt, Onward, Before, After;
      var next, p := Onward(text, n, i, token), PieceAt(text, n, i, token);
      TextIsCut(text, n, next, token);
      ScanOnward(text, n, i, token);
      PiecesCons(p, Pieces(text, n, next, token));
      Extends(text, i, next, |text|);
    }
  }

  /**
   * A path may start at the beginning of a text, behind a character that continues no token, and
   * behind `://`. Its head ends at the end of the text, at a separator, and at a character that
   * continues no token; a full stop ends it only where a token could not go on behind that.
   */
  predicate HeadBetween(before: string, after: string, token: Tokens) {
    && (before != "" && token(before[|before| - 1]) ==> |before| >= 3 && before[|before| - 3..] == "://")
    && (after != "" && !Separator(after[0]) ==>
          if after[0] != '.' then !token(after[0]) else |after| == 1 || !token(after[1]))
  }

  lemma HeadMeans(text: string, prefix: string, i: nat, token: Tokens)
    ensures IsHead(text, prefix, i, token) <==>
            i + |prefix| <= |text| && text[i..i + |prefix|] == prefix && HeadBetween(text[..i], text[i + |prefix|..], token)
  {
    if OccursAt(text, prefix, i) {
      assert i >= 3 ==> text[..i][i - 3..] == text[i - 3..i];
    }
  }

  /** A head followed by a separator takes the nested name, which may drop that separator; any other the exact one. */
  lemma {:induction false} OnlyHeadsAreRenamed(text: string, n: Names, i: nat, token: Tokens, k: nat)
    requires n.prefix != "" && i <= |text| && k < |Pieces(text, n, i, token)|
    ensures var p := Pieces(text, n, i, token)[k];
            p.Renamed? ==>
              var end := p.at + |n.prefix|;
              && end <= |text| && text[p.at..end] == n.prefix && HeadBetween(text[..p.at], text[end..], token)
              && if end < |text| && Separator(text[end]) then
                   p.name == n.nested && p.original == n.prefix + if n.strip then [text[end]] else ""
                 else p.name == n.exact && p.original == n.prefix
    decreases |text| - i
  {
    if k > 0 {
      OnlyHeadsAreRenamed(text, n, Onward(text, n, i, token), token, k - 1);
    } else if IsHead(text, n.prefix, i, token) {
      HeadMeans(text, n.prefix, i, token);
    }
  }

  // ---- No head is missed ----

  predicate RenamedAt(pieces: seq<Piece>, m: nat) {
    exists k | 0 <= k < |pieces| :: pieces[k].Renamed? && pieces[k].at == m
  }

  /** The prefix overlaps itself when moved by `d`, at a place where a path may start. */
  predicate OverlapsAt(prefix: string, d: nat, token: Tokens) {
    && 0 < d < |prefix|
    && prefix[d..] == prefix[..|prefix| - d]
    && (!token(prefix[d - 1]) || (d >= 3 && prefix[d - 3..d] == "://"))
  }

  /** The separator dropped after a nested head is itself where the prefix could start a path again. */
  predicate LosesSeparator(n: Names, token: Tokens)
    requires n.prefix != ""
  {
    n.strip && Separator(n.prefix[0]) && !token(n.prefix[|n.prefix| - 1])
  }

  /** A condition on the prefix alone. */
  ghost predicate MissesHeads(n: Names, token: Tokens)
    requires n.prefix != ""
  {
    (exists d :: OverlapsAt(n.prefix, d, token)) || LosesSeparator(n, token)
  }

  predicate Trimmed(prefix: string) {
    prefix != "" && !Separator(prefix[|prefix| - 1])
  }

  lemma {:induction false} AllSlashes(prefix: string, period: nat, k: nat)
    requires 0 < period && k < |prefix|
    requires forall j | 0 <= j < |prefix| && j < period :: prefix[j] == '/'
    requires forall j | 0 <= j && j + period < |prefix| :: prefix[j + period] == prefix[j]
    ensures prefix[k] == '/'
    decreases k
  {
    if k >= period {
      AllSlashes(prefix, period, k - period);
      assert prefix[k - period + period] == prefix[k - period];
    }
  }

  lemma OccursChars(text: string, prefix: string, i: nat)
    requires OccursAt(text, prefix, i)
    ensures forall k | i <= k < i + |prefix| :: text[k] == prefix[k - i]
  {
    forall k | i <= k < i + |prefix| ensures text[k] == prefix[k - i] {
      assert text[k] == text[i..i + |prefix|][k - i];
    }
  }

  /** Where two occurrences overlap, the prefix overlaps itself. */
  lemma OverlapShape(text: string, prefix: string, i: nat, m: nat)
    requires OccursAt(text, prefix, i) && OccursAt(text, prefix, m) && i < m < i + |prefix|
    ensures prefix[m - i..] == prefix[..|prefix| - (m - i)]
  {
    var d := m - i;
    OccursChars(text, prefix, i);
    OccursChars(text, prefix, m);
    forall j | 0 <= j < |prefix| - d ensures prefix[d..][j] == prefix[..|prefix| - d][j] {
      assert prefix[d + j] == text[m + j] == prefix[j];
    }
  }

  lemma SchemeEnds(text: string, m: nat)
    requires 3 <= m <= |text| && text[m - 3..m] == "://"
    ensures text[m - 2] == '/' && text[m - 1] == '/'
  {
    assert text[m - 3..m][1] == '/' && text[m - 3..m][2] == '/';
  }

  /** Occurrences one or two apart after a scheme would make the prefix all slashes. */
  lemma NotAllSlashes(text: string, prefix: string, i: nat, m: nat)
    requires Trimmed(prefix) && OccursAt(text, prefix, i) && i < m < i + |prefix|
    requires prefix[m - i..] == prefix[..|prefix| - (m - i)]
    requires 3 <= m <= |text| && text[m - 3..m] == "://"
    ensures m - i >= 3
  {
    var d := m - i;
    OccursChars(text, prefix, i);
    SchemeEnds(text, m);
    hide OccursAt;
    if d < 3 {
      forall j | 0 <= j && j + d < |prefix| ensures prefix[j + d] == prefix[j] {
        assert prefix[d..][j] == prefix[..|prefix| - d][j];
      }
      forall j | 0 <= j < |prefix| && j < d ensures prefix[j] == '/' {
        assert prefix[j] == text[i + j];
      }
      AllSlashes(prefix, d, |prefix| - 1);
    }
  }

  /** Of two occurrences that overlap, the later one starts a path only if the prefix says so. */
  lemma OverlappingHead(text: string, prefix: string, i: nat, m: nat, token: Tokens)
    requires Trimmed(prefix) && OccursAt(text, prefix, i) && OccursAt(text, prefix, m)
    requires i < m < i + |prefix| && StartsPath(text, m, token)
    ensures OverlapsAt(prefix, m - i, token)
  {
    var d := m - i;
    OverlapShape(text, prefix, i, m);
    OccursChars(text, prefix, i);
    assert text[m - 1] == prefix[d - 1];
    if token(prefix[d - 1]) {
      NotAllSlashes(text, prefix, i, m);
      hide OccursAt;
      assert prefix[d - 3..d] == text[m - 3..m];
    }
  }

  /** An occurrence right after another starts a path only if the prefix ends in a boundary. */
  lemma AdjacentHead(text: string, prefix: string, i: nat, token: Tokens)
    requires Trimmed(prefix) && OccursAt(text, prefix, i) && i + |prefix| <= |text|
    ensures StartsPath(text, i + |prefix|, token) <==> !token(prefix[|prefix| - 1])
  {
    var m := i + |prefix|;
    OccursChars(text, prefix, i);
    assert text[m - 1] == prefix[|prefix| - 1];
    assert m >= 3 ==> text[m - 3..m][2] == text[m - 1];
  }

  /** Where the prefix allows no miss, the scan steps over no head. */
  lemma SkipsNoHead(text: string, n: Names, i: nat, token: Tokens, m: nat)
    requires Trimmed(n.prefix) && !MissesHeads(n, token) && i < |text| && i < m < Onward(text, n, i, token)
    ensures !IsHead(text, n.prefix, m, token)
  {
    if IsHead(text, n.prefix, m, token) {
      assert OccursAt(text, n.prefix, i);
      InBounds(text, n.prefix, i);
      OccursChars(text, n.prefix, m);
      assert StartsPath(text, m, token) && text[m] == n.prefix[0];
      hide OccursAt, StartsPath, EndsPath, OverlapsAt;
      if m < i + |n.prefix| {
        OverlappingHead(text, n.prefix, i, m, token);
      } else {
        AdjacentHead(text, n.prefix, i, token);
      }
    }
  }

  lemma {:induction false} HeadsFrom(text: string, n: Names, i: nat, token: Tokens, m: nat)
    requires Trimmed(n.prefix) && !MissesHeads(n, token) && i <= m < |text|
    ensures RenamedAt(Pieces(text, n, i, token), m) <==> IsHead(text, n.prefix, m, token)
    decreases |text| - i
  {
    var next := Onward(text, n, i, token);
    var rest := Pieces(text, n, next, token);
    assert Pieces(text, n, i, token) == [PieceAt(text, n, i, token)] + rest;
    AtLater(PieceAt(text, n, i, token), rest, m);
    hide Pieces, PieceAt, Onward, RenamedAt, IsHead, MissesHeads;
    if m >= next {
      HeadsFrom(text, n, next, token, m);
    } else {
      OnlyLater(text, n, next, token, m);
      if m > i {
        SkipsNoHead(text, n, i, token, m);
      }
    }
  }

  /** The scan renames this head. */
  ghost predicate NoHeadMissed(n: Names, token: Tokens)
    requires n.prefix != ""
  {
    forall text, m: nat | m < |text| && IsHead(text, n.prefix, m, token) :: RenamedAt(Pieces(text, n, 0, token), m)
  }

  /** A head that the scan steps over after the first occurrence is missed. */
  lemma SteppedOver(text: string, n: Names, token: Tokens, m: nat)
    requires n.prefix != "" && text != "" && 0 < m < Onward(text, n, 0, token)
    ensures !RenamedAt(Pieces(text, n, 0, token), m)
  {
    var next := Onward(text, n, 0, token);
    OnlyLater(text, n, next, token, m);
    AtLater(PieceAt(text, n, 0, token), Pieces(text, n, next, token), m);
  }

  /** The missing text when the prefix overlaps itself: the prefix and once more its overlapping end. */
  lemma OverlapMisses(n: Names, token: Tokens, d: nat) returns (text: string)
    requires n.prefix != "" && OverlapsAt(n.prefix, d, token)
    ensures d < |text| && IsHead(text, n.prefix, d, token) && !RenamedAt(Pieces(text, n, 0, token), d)
  {
    var p := n.prefix;
    text := p + p[|p| - d..];
    assert text[0..|p|] == p;
    assert text[d..d + |p|] == p[d..] + p[|p| - d..] == p;
    assert text[d - 1] == p[d - 1] && (d >= 3 ==> text[d - 3..d] == p[d - 3..d]);
    assert OccursAt(text, p, 0) && OccursAt(text, p, d) && StartsPath(text, d, token);
    SteppedOver(text, n, token, d);
  }

  /** The missing text when a separator is lost: the prefix twice. */
  lemma SeparatorMisses(n: Names, token: Tokens) returns (text: string)
    requires Trimmed(n.prefix) && LosesSeparator(n, token)
    ensures |n.prefix| < |text| && IsHead(text, n.prefix, |n.prefix|, token)
    ensures !RenamedAt(Pieces(text, n, 0, token), |n.prefix|)
  {
    var p := n.prefix;
    text := p + p;
    assert text[0..|p|] == p && text[|p|..|p| + |p|] == p;
    AdjacentHead(text, p, 0, token);
    assert OccursAt(text, p, 0) && Nested(text, |p|) && IsHead(text, p, 0, token);
    SteppedOver(text, n, token, |p|);
  }

  /**
   * Every head of every text is renamed exactly when the prefix neither overlaps itself at a place
   * where a path may start, nor loses to the dropped separator.
   */
  lemma HeadsAreRenamedExactly(n: Names, token: Tokens)
    requires Trimmed(n.prefix)
    ensures NoHeadMissed(n, token) <==> !MissesHeads(n, token)
  {
    if MissesHeads(n, token) {
      if LosesSeparator(n, token) {
        var text := SeparatorMisses(n, token);
      } else {
        var d :| OverlapsAt(n.prefix, d, token);
        var text := OverlapMisses(n, token, d);
      }
    } else {
      forall text, m: nat | m < |text| && IsHead(text, n.prefix, m, token)
        ensures RenamedAt(Pieces(text, n, 0, token), m)
      {
        HeadsFrom(text, n, 0, token, m);
      }
    }
  }

  lemma AtLater(p: Piece, rest: seq<Piece>, m: nat)
    ensures RenamedAt([p] + rest, m) <==> (p.Renamed? && p.at == m) || RenamedAt(rest, m)
  {
    var pieces := [p] + rest;
    if RenamedAt(rest, m) {
      var k :| 0 <= k < |rest| && rest[k].Renamed? && rest[k].at == m;
      assert pieces[k + 1] == rest[k];
    }
    if p.Renamed? && p.at == m {
      assert pieces[0] == p;
    }
  }

  lemma {:induction false} OnlyLater(text: string, n: Names, i: nat, token: Tokens, m: nat)
    requires n.prefix != "" && m < i <= |text|
    ensures !RenamedAt(Pieces(text, n, i, token), m)
    decreases |text| - i
  {
    if i < |text| {
      hide Onward, PieceAt;
      var next := Onward(text, n, i, token);
      OnlyLater(text, n, next, token, m);
      AtLater(PieceAt(text, n, i, token), Pieces(text, n, next, token), m);
    }
  }

  /** Both shapes of miss exist, one with a blank inside the prefix and one with a blank at its end. */
  lemma PrefixesThatMiss() returns (overlapping: Names, losing: Names, token: Tokens)
    ensures Trimmed(overlapping.prefix) && MissesHeads(overlapping, token) && !LosesSeparator(overlapping, token)
    ensures Trimmed(losing.prefix) && LosesSeparator(losing, token) && forall d :: !OverlapsAt(losing.prefix, d, token)
  {
    token := c => c != ' ' && c != ':';
    overlapping := Names("/x /x", ".", "", true);
    assert "/x /x"[3..] == "/x /x"[..2] && OverlapsAt(overlapping.prefix, 3, token);
    losing := Names("/x ", ".", "", true);
    forall d ensures !OverlapsAt(losing.prefix, d, token) {
      if d == 1 {
        assert "/x "[1..][0] == 'x';
      } else if d == 2 {
        assert "/x "[2..][0] == ' ';
      }
    }
  }
}
