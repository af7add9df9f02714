/**
 * The tokenizer of the PGN-to-lines pipeline: the text clean-up passes that
 * run before scanning, the character predicates, and the character-by-character
 * scan that splits the cleaned text into move tokens and parenthesis markers.
 */
module Tokenizer {

  import Decimal

  /**
   * The three regular expressions the parser imports from its constants module,
   * whose text is not part of this model: removing header lines, removing brace
   * commentary (each a whole-string rewrite), and recognising a move number.
   */
  datatype Patterns = Patterns(
    removeHeaders: string -> string,
    removeComments: string -> string,
    isMoveNumber: string -> bool)

  /**
   * Python's `str.isspace` on one character: the code points below, and no
   * others. The ASCII blanks are among them; digits, `$` and `;` are not.
   */
  predicate IsWhitespace(ch: char)
    ensures ch == ' ' || ch == '\t' || ch == '\n' || ch == '\r' ==> IsWhitespace(ch)
    ensures IsWhitespace(ch) ==> !Decimal.IsDigit(ch) && ch != '$' && ch != ';'
  {
    ('\t' <= ch <= '\r') || ('\U{001C}' <= ch <= ' ') || ch == '\U{0085}' || ch == '\U{00A0}'
    || ch == '\U{1680}' || ('\U{2000}' <= ch <= '\U{200A}') || ch == '\U{2028}' || ch == '\U{2029}'
    || ch == '\U{202F}' || ch == '\U{205F}' || ch == '\U{3000}'
  }

  /**
   * `ch in "()"`. No parenthesis is whitespace, so the order in which the scan
   * tests the two classes does not matter.
   */
  predicate IsParenthesis(ch: char)
    ensures IsParenthesis(ch) ==> !IsWhitespace(ch)
  {
    ch == '(' || ch == ')'
  }

  /** A character that the scanner accumulates into its buffer. */
  predicate IsWordChar(ch: char)
  {
    !IsWhitespace(ch) && !IsParenthesis(ch)
  }

  predicate AllWhitespace(s: string)
  {
    forall k :: 0 <= k < |s| ==> IsWhitespace(s[k])
  }

  predicate IsWord(s: string)
  {
    forall k :: 0 <= k < |s| ==> IsWordChar(s[k])
  }

  // ---------------------------------------------------------------- strip

  function TrimLeft(s: string): (r: string)
    ensures r == [] <==> AllWhitespace(s)
    ensures r != [] ==> !IsWhitespace(r[0])
  {
    if s != [] && IsWhitespace(s[0]) then TrimLeft(s[1..]) else s
  }

  function TrimRight(s: string): (r: string)
    ensures r == [] <==> AllWhitespace(s)
    ensures r != [] ==> !IsWhitespace(r[|r| - 1])
    ensures |r| <= |s| && r == s[..|r|]
  {
    if s != [] && IsWhitespace(s[|s| - 1]) then TrimRight(s[..|s| - 1]) else s
  }

  /** Python's `str.strip()`: leading and trailing whitespace removed. */
  function Strip(s: string): (r: string)
    ensures r == [] <==> AllWhitespace(s)
    ensures r != [] ==> !IsWhitespace(r[0]) && !IsWhitespace(r[|r| - 1])
  {
    TrimRight(TrimLeft(s))
  }

  /** `lstrip()` keeps a suffix of `s` and cuts only whitespace. */
  lemma {:induction false} TrimLeftSuffix(s: string)
    ensures var r := TrimLeft(s);
      |r| <= |s| && r == s[|s| - |r|..] && AllWhitespace(s[..|s| - |r|])
    decreases |s|
  {
    if s != [] && IsWhitespace(s[0]) {
      TrimLeftSuffix(s[1..]);
      var r := TrimLeft(s);
      assert forall m :: 1 <= m < |s| - |r| ==> s[m] == s[1..][..|s| - 1 - |r|][m - 1];
    }
  }

  /** `rstrip()` keeps a prefix of `s` and cuts only whitespace. */
  lemma {:induction false} TrimRightPrefix(s: string)
    ensures var r := TrimRight(s);
      |r| <= |s| && r == s[..|r|] && AllWhitespace(s[|r|..])
    decreases |s|
  {
    if s != [] && IsWhitespace(s[|s| - 1]) {
      TrimRightPrefix(s[..|s| - 1]);
      var r := TrimRight(s);
      assert forall m :: |r| <= m < |s| - 1 ==> s[m] == s[..|s| - 1][|r|..][m - |r|];
    }
  }

  /**
   * `strip()` keeps the middle of `s`: what comes before and after the result
   * is all whitespace. With the ends of the result not whitespace (the
   * contract of `Strip`) this fixes the result.
   */
  lemma StripMiddle(s: string)
    ensures var r := Strip(s); var l := TrimLeft(s);
      |l| <= |s| && var i := |s| - |l|;
      i + |r| <= |s| && r == s[i..i + |r|] && AllWhitespace(s[..i]) && AllWhitespace(s[i + |r|..])
  {
    var l := TrimLeft(s);
    TrimLeftSuffix(s);
    TrimRightPrefix(l);
    var r := TrimRight(l);
    assert s[|s| - |l| + |r|..] == l[|r|..];
  }

  /** `buff.strip() != ""`: some character of the buffer is not whitespace. */
  predicate ContainsNonWhitespace(buff: string)
    ensures ContainsNonWhitespace(buff) <==> !AllWhitespace(buff)
  {
    Strip(buff) != ""
  }

  /** A buffer holding no whitespace is its own strip. */
  lemma {:induction false} StripWord(s: string)
    requires IsWord(s)
    ensures Strip(s) == s
    ensures ContainsNonWhitespace(s) <==> s != []
  {
    if s != [] {
      assert !IsWhitespace(s[0]) && !IsWhitespace(s[|s| - 1]);
    }
  }

  // ---------------------------------------------------------------- annotation glyphs

  /** Length of the run of ASCII digits that starts `s`. */
  function DigitRunLength(s: string): (k: nat)
    ensures k <= |s|
    ensures forall m :: 0 <= m < k ==> Decimal.IsDigit(s[m])
    ensures k < |s| ==> !Decimal.IsDigit(s[k])
  {
    if s != [] && Decimal.IsDigit(s[0]) then 1 + DigitRunLength(s[1..]) else 0
  }

  /** Does a numeric annotation glyph `$<digits>` start at the head of `s`? */
  predicate StartsWithGlyph(s: string)
  {
    |s| > 1 && s[0] == '$' && Decimal.IsDigit(s[1])
  }

  /** `re.sub(r"\$\d+", " ", s)`: every glyph, with all its digits, becomes one space. */
  function RemoveGlyphs(s: string): (r: string)
    ensures s != [] ==> r != [] && r[0] == (if StartsWithGlyph(s) then ' ' else s[0])
    decreases |s|
  {
    if s == [] then []
    else if StartsWithGlyph(s) then " " + RemoveGlyphs(s[1 + DigitRunLength(s[1..])..])
    else [s[0]] + RemoveGlyphs(s[1..])
  }

  predicate NoGlyph(s: string)
  {
    forall k :: 0 <= k < |s| - 1 ==> !(s[k] == '$' && Decimal.IsDigit(s[k + 1]))
  }

  /** After glyph removal no `$` is directly followed by a digit. */
  lemma {:induction false} RemoveGlyphsLeavesNoGlyph(s: string)
    ensures NoGlyph(RemoveGlyphs(s))
    decreases |s|
  {
    if s == [] {
    } else if StartsWithGlyph(s) {
      var t := s[1 + DigitRunLength(s[1..])..];
      RemoveGlyphsLeavesNoGlyph(t);
      var r := RemoveGlyphs(s);
      assert r == " " + RemoveGlyphs(t);
      forall k | 0 <= k < |r| - 1 ensures !(r[k] == '$' && Decimal.IsDigit(r[k + 1])) {
        if k > 0 {
          assert r[k] == RemoveGlyphs(t)[k - 1] && r[k + 1] == RemoveGlyphs(t)[k];
        }
      }
    } else {
      RemoveGlyphsLeavesNoGlyph(s[1..]);
      var rest := RemoveGlyphs(s[1..]);
      var r := RemoveGlyphs(s);
      assert r == [s[0]] + rest;
      forall k | 0 <= k < |r| - 1 ensures !(r[k] == '$' && Decimal.IsDigit(r[k + 1])) {
        if k > 0 {
          assert r[k] == rest[k - 1] && r[k + 1] == rest[k];
        } else if s[0] == '$' {
          assert r[1] == rest[0];
        }
      }
    }
  }

  /** Text without any `$` passes glyph removal unchanged. */
  lemma {:induction false} RemoveGlyphsWithoutDollar(s: string)
    requires '$' !in s
    ensures RemoveGlyphs(s) == s
    decreases |s|
  {
    if s != [] {
      assert s[0] != '$';
      assert '$' !in s[1..] by {
        forall k | 0 <= k < |s| - 1 ensures s[1..][k] != '$' { assert s[1..][k] == s[k + 1]; }
      }
      RemoveGlyphsWithoutDollar(s[1..]);
    }
  }

  /** `DigitRunLength` is `k` when `k` digits come before a non-digit or the end. */
  lemma {:induction false} DigitRunLengthOf(s: string, k: nat)
    requires k <= |s| && (forall m :: 0 <= m < k ==> Decimal.IsDigit(s[m])) && (k < |s| ==> !Decimal.IsDigit(s[k]))
    ensures DigitRunLength(s) == k
    decreases k
  {
    if k > 0 {
      DigitRunLengthOf(s[1..], k - 1);
    }
  }

  /** A glyph at the head of the text becomes one space, whatever its number of digits. */
  lemma RemoveGlyphAtHead(d: string, t: string)
    requires d != [] && Decimal.AllDigits(d) && (t != [] ==> !Decimal.IsDigit(t[0]))
    ensures RemoveGlyphs(['$'] + d + t) == " " + RemoveGlyphs(t)
  {
    var s := ['$'] + d + t;
    assert s[1..] == d + t;
    DigitRunLengthOf(d + t, |d|);
    assert s[1 + |d|..] == t;
  }

  /**
   * A glyph is cut whole: after text without `$`, a `$` and all the digits
   * that follow it become one space.
   */
  lemma {:induction false} RemoveGlyphOne(u: string, d: string, t: string)
    requires '$' !in u && d != [] && Decimal.AllDigits(d) && (t != [] ==> !Decimal.IsDigit(t[0]))
    ensures RemoveGlyphs(u + ['$'] + d + t) == u + " " + RemoveGlyphs(t)
    decreases |u|
  {
    var s := u + ['$'] + d + t;
    if u == [] {
      assert s == ['$'] + d + t;
      RemoveGlyphAtHead(d, t);
    } else {
      assert s[1..] == u[1..] + ['$'] + d + t;
      assert '$' !in u[1..] by {
        forall m | 0 <= m < |u| - 1 ensures u[1..][m] != '$' { assert u[1..][m] == u[m + 1]; }
      }
      RemoveGlyphOne(u[1..], d, t);
      assert s[0] == u[0] != '$';
      assert RemoveGlyphs(s) == [u[0]] + RemoveGlyphs(s[1..]);
      assert u == [u[0]] + u[1..];
    }
  }

  // ---------------------------------------------------------------- semicolon comments

  /** Length of the run of non-newline characters that starts `s`. */
  function LineRestLength(s: string): (k: nat)
    ensures k <= |s|
    ensures forall m :: 0 <= m < k ==> s[m] != '\n'
    ensures k < |s| ==> s[k] == '\n'
  {
    if s != [] && s[0] != '\n' then 1 + LineRestLength(s[1..]) else 0
  }

  /** `re.sub(r";[^\n]*", " ", s)`: a `;` and the rest of its line become one space. */
  function RemoveSemicolonComments(s: string): (r: string)
    ensures s != [] ==> r != [] && r[0] == (if s[0] == ';' then ' ' else s[0])
    decreases |s|
  {
    if s == [] then []
    else if s[0] == ';' then " " + RemoveSemicolonComments(s[1 + LineRestLength(s[1..])..])
    else [s[0]] + RemoveSemicolonComments(s[1..])
  }

  function CountChar(s: string, c: char): nat
  {
    if s == [] then 0 else (if s[0] == c then 1 else 0) + CountChar(s[1..], c)
  }

  /** After semicolon-comment removal no `;` is left and every newline survives. */
  lemma {:induction false} RemoveSemicolonCommentsSpec(s: string)
    ensures ';' !in RemoveSemicolonComments(s)
    ensures CountChar(RemoveSemicolonComments(s), '\n') == CountChar(s, '\n')
    decreases |s|
  {
    if s == [] {
    } else if s[0] == ';' {
      var k := LineRestLength(s[1..]);
      var t := s[1 + k..];
      RemoveSemicolonCommentsSpec(t);
      assert s[0] != '\n';
      NoNewlineCount(s[..1 + k]);
      CountCharAppend(s[..1 + k], t, '\n');
      assert s[..1 + k] + t == s;
      assert RemoveSemicolonComments(s) == " " + RemoveSemicolonComments(t);
    } else {
      RemoveSemicolonCommentsSpec(s[1..]);
      assert RemoveSemicolonComments(s) == [s[0]] + RemoveSemicolonComments(s[1..]);
    }
  }

  /** Text without any `;` passes semicolon-comment removal unchanged. */
  lemma {:induction false} RemoveSemicolonCommentsWithoutSemicolon(s: string)
    requires ';' !in s
    ensures RemoveSemicolonComments(s) == s
    decreases |s|
  {
    if s != [] {
      assert s[0] != ';';
      assert ';' !in s[1..] by {
        forall k | 0 <= k < |s| - 1 ensures s[1..][k] != ';' { assert s[1..][k] == s[k + 1]; }
      }
      RemoveSemicolonCommentsWithoutSemicolon(s[1..]);
    }
  }

  /** `LineRestLength` is `k` when `k` characters other than a newline come before a newline or the end. */
  lemma {:induction false} LineRestLengthOf(s: string, k: nat)
    requires k <= |s| && (forall m :: 0 <= m < k ==> s[m] != '\n') && (k < |s| ==> s[k] == '\n')
    ensures LineRestLength(s) == k
    decreases k
  {
    if k > 0 {
      LineRestLengthOf(s[1..], k - 1);
    }
  }

  /**
   * A comment is cut whole: after text without `;`, a `;` and the rest of its
   * line become one space, whatever the comment says, and the newline that
   * ends the line (if any) is kept.
   */
  lemma {:induction false} RemoveSemicolonCommentLine(u: string, c: string, t: string)
    requires ';' !in u && c != [] && c[0] == ';' && '\n' !in c && (t != [] ==> t[0] == '\n')
    ensures RemoveSemicolonComments(u + c + t) == u + " " + RemoveSemicolonComments(t)
    decreases |u|
  {
    var s := u + c + t;
    if u == [] {
      assert s == c + t;
      assert forall m :: 0 <= m < |c| - 1 ==> s[1..][m] == c[m + 1];
      LineRestLengthOf(s[1..], |c| - 1);
      assert s[1 + (|c| - 1)..] == t;
    } else {
      assert s[1..] == u[1..] + c + t;
      assert ';' !in u[1..] by {
        forall m | 0 <= m < |u| - 1 ensures u[1..][m] != ';' { assert u[1..][m] == u[m + 1]; }
      }
      RemoveSemicolonCommentLine(u[1..], c, t);
      assert s[0] == u[0] != ';';
      assert RemoveSemicolonComments(s) == [u[0]] + RemoveSemicolonComments(s[1..]);
      assert u == [u[0]] + u[1..];
    }
  }

  lemma {:induction false} CountCharAppend(a: string, b: string, c: char)
    ensures CountChar(a + b, c) == CountChar(a, c) + CountChar(b, c)
  {
    if a == [] {
      assert a + b == b;
    } else {
      assert (a + b)[1..] == a[1..] + b;
      CountCharAppend(a[1..], b, c);
    }
  }

  lemma {:induction false} NoNewlineCount(s: string)
    requires forall m :: 0 <= m < |s| ==> s[m] != '\n'
    ensures CountChar(s, '\n') == 0
  {
    if s != [] {
      NoNewlineCount(s[1..]);
    }
  }

  // ---------------------------------------------------------------- preparation

  /** The four clean-up passes, in the order the parser applies them. */
  function Prep(pats: Patterns, pgn: string): (s: string)
    ensures ';' !in s && NoGlyph(s)
  {
    var noComments := RemoveSemicolonComments(pats.removeComments(pats.removeHeaders(pgn)));
    RemoveSemicolonCommentsSpec(pats.removeComments(pats.removeHeaders(pgn)));
    RemoveGlyphsLeavesNoGlyph(noComments);
    assert ';' !in RemoveGlyphs(noComments) by { GlyphsKeepAbsent(noComments, ';'); }
    RemoveGlyphs(noComments)
  }

  /** Glyph removal introduces no character other than a space. */
  lemma {:induction false} GlyphsKeepAbsent(s: string, c: char)
    requires c !in s && c != ' '
    ensures c !in RemoveGlyphs(s)
    decreases |s|
  {
    if s == [] {
    } else if StartsWithGlyph(s) {
      var t := s[1 + DigitRunLength(s[1..])..];
      assert c !in t by {
        forall k | 0 <= k < |t| ensures t[k] != c { assert t[k] == s[1 + DigitRunLength(s[1..]) + k]; }
      }
      GlyphsKeepAbsent(t, c);
    } else {
      assert c !in s[1..] by {
        forall k | 0 <= k < |s| - 1 ensures s[1..][k] != c { assert s[1..][k] == s[k + 1]; }
      }
      GlyphsKeepAbsent(s[1..], c);
    }
  }

  // ---------------------------------------------------------------- scanning

  /** Length of the run of buffer characters that starts `s`. */
  function WordLength(s: string): (k: nat)
    ensures k <= |s|
    ensures IsWord(s[..k])
    ensures k < |s| ==> !IsWordChar(s[k])
  {
    if s != [] && IsWordChar(s[0]) then 1 + WordLength(s[1..]) else 0
  }

  /**
   * The token sequence of a cleaned text, as a reference definition: whitespace
   * separates, each parenthesis is a token of its own, and every maximal run of
   * other characters is one token.
   */
  function Lex(s: string): seq<string>
    decreases |s|
  {
    if s == [] then []
    else if IsWhitespace(s[0]) then Lex(s[1..])
    else if IsParenthesis(s[0]) then [[s[0]]] + Lex(s[1..])
    else
      var k := WordLength(s);
      [s[..k]] + Lex(s[k..])
  }

  /** The tokens still to come when the scanner holds `buff` and has `rest` left to read. */
  ghost function PendingTokens(buff: string, rest: string): seq<string>
  {
    if buff == [] then Lex(rest)
    else
      var k := WordLength(rest);
      [buff + rest[..k]] + Lex(rest[k..])
  }

  /**
   * The scanner's invariant after reading `s[..i]`: the buffer holds part of a
   * word, and the tokens emitted so far followed by those still to come are
   * the tokens of `s`.
   */
  ghost predicate Scanned(s: string, i: nat, tokens: seq<string>, buff: string)
    requires i <= |s|
  {
    IsWord(buff) && tokens + PendingTokens(buff, s[i..]) == Lex(s)
  }

  /** `_tokenize`: clean the text, then scan it with a buffer, flushing on whitespace and parentheses. */
  method Tokenize(pats: Patterns, pgn: string) returns (tokens: seq<string>)
    ensures tokens == Lex(Prep(pats, pgn))
  {
    var s := Prep(pats, pgn);
    tokens := [];
    var buff := "";
    assert s[0..] == s;
    for i := 0 to |s|
      invariant Scanned(s, i, tokens, buff)
    {
      var ch := s[i];
      ghost var tokens0, buff0 := tokens, buff;
      ghost var rest := s[i..];
      assert rest[0] == ch && rest[1..] == s[i + 1..];
      if IsParenthesis(ch) {
        if ContainsNonWhitespace(buff) {
          tokens := tokens + [Strip(buff)];
        }
        tokens := tokens + [[ch]];
        buff := "";
        FlushBuffer(tokens0, buff0);
        ScanParenthesis(rest, tokens0, buff0, Lex(s));
      } else if IsWhitespace(ch) {
        if ContainsNonWhitespace(buff) {
          tokens := tokens + [Strip(buff)];
          buff := "";
        }
        FlushBuffer(tokens0, buff0);
        ScanWhitespace(rest, tokens0, buff0, Lex(s));
      } else {
        buff := buff + [ch];
        ScanWordChar(rest, tokens, buff0, Lex(s));
      }
    }
    ghost var tokens0 := tokens;
    if ContainsNonWhitespace(buff) {
      tokens := tokens + [Strip(buff)];
    }
    FlushBuffer(tokens0, buff);
    assert s[|s|..] == [];
    ScanEnd(tokens0, buff, Lex(s));
  }

  /**
   * A parenthesis flushes the buffer and is a token of its own: with `rest`
   * still to read, the emitted tokens grow by the buffer's token and the
   * marker, and the buffer starts afresh.
   */
  lemma ScanParenthesis(rest: string, tokens: seq<string>, buff: string, all: seq<string>)
    requires rest != [] && IsParenthesis(rest[0]) && tokens + PendingTokens(buff, rest) == all
    ensures (tokens + Flushed(buff) + [[rest[0]]]) + PendingTokens([], rest[1..]) == all
  {
    PendingAtParenthesis(buff, rest);
    var later := PendingTokens([], rest[1..]);
    assert tokens + (Flushed(buff) + [[rest[0]]] + later) == (tokens + Flushed(buff) + [[rest[0]]]) + later;
  }

  /** Whitespace flushes the buffer: the emitted tokens grow by the buffer's token, and the buffer starts afresh. */
  lemma ScanWhitespace(rest: string, tokens: seq<string>, buff: string, all: seq<string>)
    requires rest != [] && IsWhitespace(rest[0]) && tokens + PendingTokens(buff, rest) == all
    ensures (tokens + Flushed(buff)) + PendingTokens([], rest[1..]) == all
  {
    PendingAtWhitespace(buff, rest);
    var later := PendingTokens([], rest[1..]);
    assert tokens + (Flushed(buff) + later) == (tokens + Flushed(buff)) + later;
  }

  /** Any other character joins the buffer, which stays a word, and nothing is emitted. */
  lemma ScanWordChar(rest: string, tokens: seq<string>, buff: string, all: seq<string>)
    requires rest != [] && IsWordChar(rest[0]) && IsWord(buff) && tokens + PendingTokens(buff, rest) == all
    ensures IsWord(buff + [rest[0]]) && tokens + PendingTokens(buff + [rest[0]], rest[1..]) == all
  {
    PendingAtWordChar(buff, rest);
  }

  /** At the end of the text the final flush completes the tokens. */
  lemma ScanEnd(tokens: seq<string>, buff: string, all: seq<string>)
    requires tokens + PendingTokens(buff, []) == all
    ensures tokens + Flushed(buff) == all
  {
    PendingAtEnd(buff);
  }

  /** The tokens a buffer of word characters contributes when it is flushed: itself, unless it is empty. */
  function Flushed(buff: string): seq<string>
  {
    if buff == [] then [] else [buff]
  }

  /** The flush `if buff.strip() != "": tokens.append(buff.strip())`, on a buffer of word characters. */
  lemma FlushBuffer(tokens: seq<string>, buff: string)
    requires IsWord(buff)
    ensures (if ContainsNonWhitespace(buff) then tokens + [Strip(buff)] else tokens) == tokens + Flushed(buff)
    ensures ContainsNonWhitespace(buff) <==> buff != []
  {
    StripWord(buff);
  }

  lemma PendingAtEnd(buff: string)
    ensures PendingTokens(buff, []) == Flushed(buff)
  {
    if buff != [] {
      assert WordLength([]) == 0;
      assert buff + [][..0] == buff;
    }
  }

  lemma PendingAtParenthesis(buff: string, rest: string)
    requires rest != [] && IsParenthesis(rest[0])
    ensures PendingTokens(buff, rest) == Flushed(buff) + [[rest[0]]] + PendingTokens([], rest[1..])
  {
    assert !IsWhitespace(rest[0]);
    assert Lex(rest) == [[rest[0]]] + Lex(rest[1..]);
    assert WordLength(rest) == 0;
    assert rest[..0] == [] && rest[0..] == rest;
    if buff != [] {
      assert buff + rest[..0] == buff;
      assert PendingTokens(buff, rest) == [buff] + Lex(rest);
    }
  }

  lemma PendingAtWhitespace(buff: string, rest: string)
    requires rest != [] && IsWhitespace(rest[0])
    ensures PendingTokens(buff, rest) == Flushed(buff) + PendingTokens([], rest[1..])
  {
    assert Lex(rest) == Lex(rest[1..]);
    assert WordLength(rest) == 0;
    assert rest[..0] == [] && rest[0..] == rest;
    if buff != [] {
      assert buff + rest[..0] == buff;
    }
  }

  lemma PendingAtWordChar(buff: string, rest: string)
    requires rest != [] && IsWordChar(rest[0])
    ensures PendingTokens(buff, rest) == PendingTokens(buff + [rest[0]], rest[1..])
  {
    var k := WordLength(rest[1..]);
    assert WordLength(rest) == 1 + k;
    assert rest[..1 + k] == [rest[0]] + rest[1..][..k];
    assert rest[1 + k..] == rest[1..][k..];
    if buff == [] {
      assert Lex(rest) == [rest[..1 + k]] + Lex(rest[1 + k..]);
      assert [rest[0]] + rest[1..][..k] == (buff + [rest[0]]) + rest[1..][..k];
    } else {
      assert buff + rest[..1 + k] == (buff + [rest[0]]) + rest[1..][..k];
    }
  }

  // ---------------------------------------------------------------- properties of the token sequence

  /** `WordLength` finds a word of length `k` when the character after it ends the word. */
  lemma {:induction false} WordLengthOf(s: string, k: nat)
    requires k <= |s| && IsWord(s[..k]) && (k < |s| ==> !IsWordChar(s[k]))
    ensures WordLength(s) == k
    decreases k
  {
    if k > 0 {
      assert s[1..][..k - 1] == s[..k][1..];
      WordLengthOf(s[1..], k - 1);
    }
  }

  /** A word followed by a blank, a parenthesis or the end is one token. */
  lemma LexAfterWord(w: string, rest: string)
    requires w != [] && IsWord(w) && (rest != [] ==> !IsWordChar(rest[0]))
    ensures Lex(w + rest) == [w] + Lex(rest)
  {
    var s := w + rest;
    assert s[..|w|] == w && s[|w|..] == rest;
    WordLengthOf(s, |w|);
  }

  /** A blank produces no token. */
  lemma LexAfterSpace(c: char, rest: string)
    requires IsWhitespace(c)
    ensures Lex([c] + rest) == Lex(rest)
  {
    assert ([c] + rest)[1..] == rest;
  }

  /** A parenthesis is a token of its own. */
  lemma LexAfterParenthesis(c: char, rest: string)
    requires IsParenthesis(c)
    ensures Lex([c] + rest) == [[c]] + Lex(rest)
  {
    assert ([c] + rest)[1..] == rest;
  }


  /** A token is a parenthesis marker, or a non-empty run without whitespace or parenthesis. */
  predicate IsToken(t: string)
  {
    t == "(" || t == ")" || (t != [] && IsWord(t))
  }

  lemma {:induction false} LexTokensWellFormed(s: string)
    ensures forall k :: 0 <= k < |Lex(s)| ==> IsToken(Lex(s)[k])
    decreases |s|
  {
    if s == [] {
    } else if IsWhitespace(s[0]) {
      LexTokensWellFormed(s[1..]);
    } else if IsParenthesis(s[0]) {
      LexTokensWellFormed(s[1..]);
      assert [s[0]] == "(" || [s[0]] == ")";
    } else {
      var k := WordLength(s);
      LexTokensWellFormed(s[k..]);
    }
  }

  function Concat(ts: seq<string>): string
  {
    if ts == [] then [] else ts[0] + Concat(ts[1..])
  }

  function RemoveWhitespace(s: string): (r: string)
  {
    if s == [] then [] else (if IsWhitespace(s[0]) then [] else [s[0]]) + RemoveWhitespace(s[1..])
  }

  lemma {:induction false} RemoveWhitespaceWordPrefix(s: string, k: nat)
    requires k <= |s| && IsWord(s[..k])
    ensures RemoveWhitespace(s) == s[..k] + RemoveWhitespace(s[k..])
  {
    if k > 0 {
      assert s[1..][..k - 1] == s[..k][1..];
      RemoveWhitespaceWordPrefix(s[1..], k - 1);
      assert s[..k] == [s[0]] + s[1..][..k - 1];
      assert s[1..][k - 1..] == s[k..];
    }
  }

  /** No character is lost, added or reordered: the tokens spell the text with its whitespace taken out. */
  lemma {:induction false} LexConcat(s: string)
    ensures Concat(Lex(s)) == RemoveWhitespace(s)
    decreases |s|
  {
    if s == [] {
    } else if IsWhitespace(s[0]) {
      LexConcat(s[1..]);
    } else if IsParenthesis(s[0]) {
      LexConcat(s[1..]);
      assert Lex(s)[1..] == Lex(s[1..]);
    } else {
      var k := WordLength(s);
      LexConcat(s[k..]);
      RemoveWhitespaceWordPrefix(s, k);
      assert Lex(s)[1..] == Lex(s[k..]);
    }
  }

  /** Text made only of whitespace (the empty text included) yields no token, and only such text does. */
  lemma {:induction false} LexEmptyIffWhitespace(s: string)
    ensures Lex(s) == [] <==> AllWhitespace(s)
    decreases |s|
  {
    if s != [] {
      LexEmptyIffWhitespace(s[1..]);
      assert AllWhitespace(s) <==> IsWhitespace(s[0]) && AllWhitespace(s[1..]) by {
        if IsWhitespace(s[0]) && AllWhitespace(s[1..]) {
          forall m | 0 <= m < |s| ensures IsWhitespace(s[m]) { if m > 0 { assert s[m] == s[1..][m - 1]; } }
        }
      }
    }
  }

  /** The tokens written out again, each followed by one space. */
  function JoinSpaces(ts: seq<string>): string
  {
    if ts == [] then [] else ts[0] + " " + JoinSpaces(ts[1..])
  }

  /** Well-formed tokens written out with spaces between them scan back to themselves. */
  lemma {:induction false} LexJoinSpaces(ts: seq<string>)
    requires forall k :: 0 <= k < |ts| ==> IsToken(ts[k])
    ensures Lex(JoinSpaces(ts)) == ts
  {
    if ts != [] {
      var t := ts[0];
      var rest := JoinSpaces(ts[1..]);
      LexJoinSpaces(ts[1..]);
      assert JoinSpaces(ts) == t + ([' '] + rest);
      LexAfterSpace(' ', rest);
      if t == "(" || t == ")" {
        assert t == [t[0]] && t + ([' '] + rest) == [t[0]] + ([' '] + rest);
        LexAfterParenthesis(t[0], [' '] + rest);
      } else {
        LexAfterWord(t, [' '] + rest);
      }
    }
  }

  /** Tokenizing the tokens joined by single spaces gives the same tokens again. */
  lemma Retokenize(s: string)
    ensures Lex(JoinSpaces(Lex(s))) == Lex(s)
  {
    LexTokensWellFormed(s);
    LexJoinSpaces(Lex(s));
  }
}
