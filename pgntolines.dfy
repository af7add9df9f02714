/**
 * `parse_pgn_to_lines`: the whole pipeline, from PGN text to titled lines,
 * and the `Line` record it produces.
 */
module PgnToLines {

  import opened Wrappers
  import opened MoveTree
  import opened LineExtractor
  import Tokenizer
  import Decimal

  /** `Line`: a title and the move labels of one drillable line. */
  datatype Line = Line(title: string, sanSeq: seq<string>)

  const DefaultTitle: string := "Repertoire Line"

  /** `title or "Repertoire Line"`: a missing or empty title falls back to the default. */
  function BaseTitle(title: Option<string>): (base: string)
    ensures base != ""
    ensures title.Some? && title.value != "" ==> base == title.value
    ensures title.None? || title.value == "" ==> base == DefaultTitle
  {
    if title.Some? && title.value != "" then title.value else DefaultTitle
  }

  /** `f"{base_title} #{idx}"`: the base, then " #", then the index in decimal digits. */
  function LineTitle(base: string, idx: nat): (t: string)
    ensures |t| > |base| + 2 && t[..|base|] == base && t[|base|..|base| + 2] == " #"
    ensures Decimal.AllDigits(t[|base| + 2..])
  {
    base + " #" + Decimal.NatToString(idx)
  }

  /** A title starts with the base and " #", and the rest reads back as the index. */
  lemma LineTitleFormat(base: string, idx: nat)
    ensures var t := LineTitle(base, idx);
      |t| > |base| + 2 && t[..|base|] == base && t[|base|..|base| + 2] == " #" &&
      Decimal.AllDigits(t[|base| + 2..]) && Decimal.DigitsValue(t[|base| + 2..]) == idx
  {
    var t := LineTitle(base, idx);
    assert t[|base| + 2..] == Decimal.NatToString(idx);
    Decimal.NatToStringRoundTrip(idx);
  }

  /** Lines with different indices never share a title. */
  lemma LineTitlesDistinct(base: string, i: nat, j: nat)
    requires i != j
    ensures LineTitle(base, i) != LineTitle(base, j)
  {
    LineTitleFormat(base, i);
    LineTitleFormat(base, j);
  }

  /** `seq if max_plies is None else seq[:max_plies]`. */
  function Truncate(s: seq<string>, maxPlies: Option<nat>): (r: seq<string>)
    ensures r <= s
    ensures maxPlies.None? ==> r == s
    ensures maxPlies.Some? ==> |r| == if |s| <= maxPlies.value then |s| else maxPlies.value
  {
    if maxPlies.None? || |s| <= maxPlies.value then s else s[..maxPlies.value]
  }

  /** The label sequences the pipeline extracts from a PGN text, before titling and truncation. */
  ghost function ExtractedLines(pats: Tokenizer.Patterns, pgn: string): seq<seq<string>>
  {
    var r := ParseFrom(pats.isMoveNumber, Tokenizer.Lex(Tokenizer.Prep(pats, pgn)), 0, []);
    Paths(r.0, r.1, [])
  }

  /**
   * The assembly loop at the end of `parse_pgn_to_lines`: one line per
   * sequence, in order; line `k` (counting from 1) is titled "<base> #k" and
   * holds the sequence cut to `maxPlies`.
   */
  method AssembleLines(seqs: seq<seq<string>>, maxPlies: Option<nat>, title: Option<string>)
    returns (lines: seq<Line>)
    ensures |lines| == |seqs|
    ensures forall k :: 0 <= k < |lines| ==>
      lines[k] == Line(LineTitle(BaseTitle(title), k + 1), Truncate(seqs[k], maxPlies))
  {
    lines := [];
    if seqs == [] {
      return;
    }
    var baseTitle := BaseTitle(title);
    for idx := 0 to |seqs|
      invariant |lines| == idx
      invariant forall k :: 0 <= k < idx ==> lines[k] == Line(LineTitle(baseTitle, k + 1), Truncate(seqs[k], maxPlies))
    {
      var line := Line(LineTitle(baseTitle, idx + 1), Truncate(seqs[idx], maxPlies));
      ghost var before := lines;
      lines := lines + [line];
      assert lines[..idx] == before && lines[idx] == line;
    }
  }

  /**
   * `parse_pgn_to_lines`: tokenize, build the tree from the first token,
   * extract the lines from its root, and title and cut them.
   */
  method ParsePgnToLines(pats: Tokenizer.Patterns, pgnText: string, maxPlies: Option<nat>, title: Option<string>)
    returns (lines: seq<Line>)
    ensures var seqs := ExtractedLines(pats, pgnText);
      |lines| == |seqs| &&
      forall k :: 0 <= k < |lines| ==>
        lines[k] == Line(LineTitle(BaseTitle(title), k + 1), Truncate(seqs[k], maxPlies))
  {
    var tokens := Tokenizer.Tokenize(pats, pgnText);
    var arena, root, _ := ParseMoves(pats.isMoveNumber, tokens, 0, []);
    assert Valid([]);
    var seqs := ExtractLinesDfs(arena, root, [], []);
    assert seqs == ExtractedLines(pats, pgnText) by {
      assert [] + Paths(arena, root, []) == Paths(arena, root, []);
    }
    lines := AssembleLines(seqs, maxPlies, title);
  }

  // ---------------------------------------------------------------- what the extracted lines are

  /**
   * The extracted sequences are exactly the labels along the leaf paths of the
   * tree built from the tokens, one per leaf path in depth-first order; a tree
   * with no move at all yields none.
   */
  lemma ExtractedLinesSpellLeafPaths(pats: Tokenizer.Patterns, pgn: string)
    ensures var r := ParseFrom(pats.isMoveNumber, Tokenizer.Lex(Tokenizer.Prep(pats, pgn)), 0, []);
      Valid(r.0) && r.1 < |r.0| &&
      (r.0[r.1].children == [] ==> ExtractedLines(pats, pgn) == []) &&
      (r.0[r.1].children != [] ==> SpellsPaths(r.0, ExtractedLines(pats, pgn), LeafPaths(r.0, r.1), []))
  {
    var r := ParseFrom(pats.isMoveNumber, Tokenizer.Lex(Tokenizer.Prep(pats, pgn)), 0, []);
    if r.0[r.1].children != [] {
      PathsSpellLeafPaths(r.0, r.1, []);
    }
  }

  /** Every emitted line is non-empty and is the label sequence of some root-to-leaf path. */
  lemma ExtractedLineIsLeafPath(pats: Tokenizer.Patterns, pgn: string, k: nat)
    requires k < |ExtractedLines(pats, pgn)|
    ensures var r := ParseFrom(pats.isMoveNumber, Tokenizer.Lex(Tokenizer.Prep(pats, pgn)), 0, []);
      Valid(r.0) && r.1 < |r.0| && ExtractedLines(pats, pgn)[k] != [] &&
      exists path :: IsLeafPath(r.0, r.1, path) && ExtractedLines(pats, pgn)[k] == Labels(r.0, path)
  {
    var r := ParseFrom(pats.isMoveNumber, Tokenizer.Lex(Tokenizer.Prep(pats, pgn)), 0, []);
    ExtractedLinesSpellLeafPaths(pats, pgn);
    LeafPathsSound(r.0, r.1);
    var path := LeafPaths(r.0, r.1)[k];
    assert IsLeafPath(r.0, r.1, path);
  }

  /**
   * One line per leaf of the parsed tree: the tree is shaped as `_parse_moves`
   * builds it, so the leaf paths behind the extracted lines end at pairwise
   * different leaves, and no leaf yields two lines.
   */
  lemma ExtractedLinesEndApart(pats: Tokenizer.Patterns, pgn: string)
    ensures var r := ParseFrom(pats.isMoveNumber, Tokenizer.Lex(Tokenizer.Prep(pats, pgn)), 0, []);
      Increasing(r.0) && SharedOnlyByRoots(r.0)
    ensures var r := ParseFrom(pats.isMoveNumber, Tokenizer.Lex(Tokenizer.Prep(pats, pgn)), 0, []);
      EndsApart(LeafPaths(r.0, r.1))
  {
    var tokens := Tokenizer.Lex(Tokenizer.Prep(pats, pgn));
    var r := ParseFrom(pats.isMoveNumber, tokens, 0, []);
    ParseFromShape(pats.isMoveNumber, tokens, 0, []);
    LeafPathsEndApart(r.0, r.1);
  }

  /** A text whose cleaned form is only whitespace (for one, the empty text) yields no line. */
  lemma BlankTextNoLines(pats: Tokenizer.Patterns, pgn: string)
    requires Tokenizer.AllWhitespace(Tokenizer.Prep(pats, pgn))
    ensures ExtractedLines(pats, pgn) == []
  {
    Tokenizer.LexEmptyIffWhitespace(Tokenizer.Prep(pats, pgn));
  }
}
