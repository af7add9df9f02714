/**
 * Worked examples for the tokenizer: the texts of the parser's own test
 * oracles, scanned by `Lex`. Each text is written as a chain of suffixes, one
 * per piece (a word, a parenthesis or a blank), so that every step of the scan
 * is a small lemma about one piece.
 */
module TokenizerExamples {

  import Tokenizer
  import Decimal

  /**
   * A stand-in for the move-number pattern: one or more digits followed by
   * nothing but periods, as in `1.` or `12...`.
   */
  predicate SampleMoveNumber(tok: string)
  {
    var k := Tokenizer.DigitRunLength(tok);
    0 < k && forall m :: k <= m < |tok| ==> tok[m] == '.'
  }

  /** Patterns for texts without headers or brace comments: those passes leave the text alone. */
  const SamplePatterns: Tokenizer.Patterns := Tokenizer.Patterns(s => s, s => s, SampleMoveNumber)

  /** The empty text and a text of blanks only have no tokens. */
  lemma BlankTextsHaveNoTokens()
    ensures Tokenizer.Lex("") == []
    ensures Tokenizer.Lex("   \n\t  ") == []
  {
    Tokenizer.LexEmptyIffWhitespace("   \n\t  ");
  }

  /** The character predicates on the characters the parser's helper tests probe. */
  lemma CharacterClasses()
    ensures Tokenizer.IsWhitespace(' ') && Tokenizer.IsWhitespace('\n') && !Tokenizer.IsWhitespace('e')
    ensures Tokenizer.ContainsNonWhitespace("e4") && !Tokenizer.ContainsNonWhitespace("   ")
    ensures Tokenizer.IsParenthesis('(') && Tokenizer.IsParenthesis(')') && !Tokenizer.IsParenthesis('e')
  {
    assert !Tokenizer.IsWhitespace("e4"[0]);
  }

  // ---------------------------------------------------------------- "1. e4 $1 ;semi\n1-0"

  /** The text "1. e4 $1 ;semi\n1-0", cut around its glyph and its comment. */
  const GlyphHead: string := "1. e4 "
  const GlyphText: string := "$1"
  const CommentText: string := ";semi"
  const CommentTail: string := "\n1-0"

  /**
   * The glyph and the semicolon comment of "1. e4 $1 ;semi\n1-0" each become
   * one space: the result is "1. e4    \n1-0", without "$1" and "semi".
   */
  lemma CommentAndGlyphPrep()
    ensures Tokenizer.Prep(SamplePatterns, GlyphHead + GlyphText + " " + CommentText + CommentTail)
         == GlyphHead + " " + " " + " " + CommentTail
  {
    CommentStep();
    GlyphStep();
  }

  lemma CommentStep()
    ensures Tokenizer.RemoveSemicolonComments(GlyphHead + GlyphText + " " + CommentText + CommentTail)
         == GlyphHead + GlyphText + " " + " " + CommentTail
  {
    var u := GlyphHead + GlyphText + " ";
    assert ';' !in u by {
      assert u == "1. e4 $1 ";
    }
    assert CommentText[0] == ';' && '\n' !in CommentText;
    assert CommentTail[0] == '\n' && ';' !in CommentTail;
    Tokenizer.RemoveSemicolonCommentsWithoutSemicolon(CommentTail);
    Tokenizer.RemoveSemicolonCommentLine(u, CommentText, CommentTail);
  }

  lemma GlyphStep()
    ensures Tokenizer.RemoveGlyphs(GlyphHead + GlyphText + " " + " " + CommentTail)
         == GlyphHead + " " + " " + " " + CommentTail
  {
    var t := " " + " " + CommentTail;
    assert GlyphHead + GlyphText + " " + " " + CommentTail == GlyphHead + ['$'] + "1" + t;
    assert '$' !in GlyphHead && Decimal.AllDigits("1") && !Decimal.IsDigit(t[0]);
    assert '$' !in t;
    Tokenizer.RemoveGlyphsWithoutDollar(t);
    Tokenizer.RemoveGlyphOne(GlyphHead, "1", t);
  }

  // ---------------------------------------------------------------- "e4 ( e5 )"

  /** The text "e4 ( e5 )". */
  const ParenthesesText: string := ParenthesesRest0
  const ParenthesesRest0: string := "e4" + ParenthesesRest1
  const ParenthesesRest1: string := " " + ParenthesesRest2
  const ParenthesesRest2: string := "(" + ParenthesesRest3
  const ParenthesesRest3: string := " " + ParenthesesRest4
  const ParenthesesRest4: string := "e5" + ParenthesesRest5
  const ParenthesesRest5: string := " " + ParenthesesRest6
  const ParenthesesRest6: string := ")" + ParenthesesRest7
  const ParenthesesRest7: string := ""
  const ParenthesesTokens: seq<string> := ["e4", "(", "e5", ")"]

  /** "e4 ( e5 )" scans to ["e4", "(", "e5", ")"]. */
  lemma ParenthesesScan()
    ensures Tokenizer.Lex(ParenthesesText) == ["e4", "(", "e5", ")"]
  {
    ParenthesesLexRest0();
  }

  /** The clean-up passes leave "e4 ( e5 )" as it is. */
  lemma ParenthesesPrep()
    ensures Tokenizer.Prep(SamplePatterns, ParenthesesText) == ParenthesesText
  {
    ParenthesesLexRest0();
    Tokenizer.RemoveSemicolonCommentsWithoutSemicolon(ParenthesesText);
    Tokenizer.RemoveGlyphsWithoutDollar(ParenthesesText);
  }

  lemma ParenthesesLexRest0()
    ensures Tokenizer.Lex(ParenthesesRest0) == ParenthesesTokens[0..]
    ensures ';' !in ParenthesesRest0 && '$' !in ParenthesesRest0
  {
    ParenthesesLexRest1();
    assert ParenthesesRest1[0] == " "[0];
    assert ParenthesesTokens[0..] == ["e4"] + ParenthesesTokens[1..];
    Tokenizer.LexAfterWord("e4", ParenthesesRest1);
  }

  lemma ParenthesesLexRest1()
    ensures Tokenizer.Lex(ParenthesesRest1) == ParenthesesTokens[1..]
    ensures ';' !in ParenthesesRest1 && '$' !in ParenthesesRest1
  {
    ParenthesesLexRest2();
    Tokenizer.LexAfterSpace(" "[0], ParenthesesRest2);
  }

  lemma ParenthesesLexRest2()
    ensures Tokenizer.Lex(ParenthesesRest2) == ParenthesesTokens[1..]
    ensures ';' !in ParenthesesRest2 && '$' !in ParenthesesRest2
  {
    ParenthesesLexRest3();
    assert ParenthesesRest3[0] == " "[0];
    assert ParenthesesTokens[1..] == ["("] + ParenthesesTokens[2..];
    Tokenizer.LexAfterParenthesis("("[0], ParenthesesRest3);
  }

  lemma ParenthesesLexRest3()
    ensures Tokenizer.Lex(ParenthesesRest3) == ParenthesesTokens[2..]
    ensures ';' !in ParenthesesRest3 && '$' !in ParenthesesRest3
  {
    ParenthesesLexRest4();
    Tokenizer.LexAfterSpace(" "[0], ParenthesesRest4);
  }

  lemma ParenthesesLexRest4()
    ensures Tokenizer.Lex(ParenthesesRest4) == ParenthesesTokens[2..]
    ensures ';' !in ParenthesesRest4 && '$' !in ParenthesesRest4
  {
    ParenthesesLexRest5();
    assert ParenthesesRest5[0] == " "[0];
    assert ParenthesesTokens[2..] == ["e5"] + ParenthesesTokens[3..];
    Tokenizer.LexAfterWord("e5", ParenthesesRest5);
  }

  lemma ParenthesesLexRest5()
    ensures Tokenizer.Lex(ParenthesesRest5) == ParenthesesTokens[3..]
    ensures ';' !in ParenthesesRest5 && '$' !in ParenthesesRest5
  {
    ParenthesesLexRest6();
    Tokenizer.LexAfterSpace(" "[0], ParenthesesRest6);
  }

  lemma ParenthesesLexRest6()
    ensures Tokenizer.Lex(ParenthesesRest6) == ParenthesesTokens[3..]
    ensures ';' !in ParenthesesRest6 && '$' !in ParenthesesRest6
  {
    assert ParenthesesTokens[4..] == [];
    assert ParenthesesTokens[3..] == [")"] + ParenthesesTokens[4..];
    Tokenizer.LexAfterParenthesis(")"[0], ParenthesesRest7);
  }

  // ---------------------------------------------------------------- "1. e4 e5 2. Nf3 Nc6 3. Bb5 a6 1-0"

  /** The text "1. e4 e5 2. Nf3 Nc6 3. Bb5 a6 1-0". */
  const RuyLopezText: string := RuyLopezRest0
  const RuyLopezRest0: string := "1." + RuyLopezRest1
  const RuyLopezRest1: string := " " + RuyLopezRest2
  const RuyLopezRest2: string := "e4" + RuyLopezRest3
  const RuyLopezRest3: string := " " + RuyLopezRest4
  const RuyLopezRest4: string := "e5" + RuyLopezRest5
  const RuyLopezRest5: string := " " + RuyLopezRest6
  const RuyLopezRest6: string := "2." + RuyLopezRest7
  const RuyLopezRest7: string := " " + RuyLopezRest8
  const RuyLopezRest8: string := "Nf3" + RuyLopezRest9
  const RuyLopezRest9: string := " " + RuyLopezRest10
  const RuyLopezRest10: string := "Nc6" + RuyLopezRest11
  const RuyLopezRest11: string := " " + RuyLopezRest12
  const RuyLopezRest12: string := "3." + RuyLopezRest13
  const RuyLopezRest13: string := " " + RuyLopezRest14
  const RuyLopezRest14: string := "Bb5" + RuyLopezRest15
  const RuyLopezRest15: string := " " + RuyLopezRest16
  const RuyLopezRest16: string := "a6" + RuyLopezRest17
  const RuyLopezRest17: string := " " + RuyLopezRest18
  const RuyLopezRest18: string := "1-0" + RuyLopezRest19
  const RuyLopezRest19: string := ""
  const RuyLopezTokens: seq<string> := ["1.", "e4", "e5", "2.", "Nf3", "Nc6", "3.", "Bb5", "a6", "1-0"]

  /** "1. e4 e5 2. Nf3 Nc6 3. Bb5 a6 1-0" scans to ["1.", "e4", "e5", "2.", "Nf3", "Nc6", "3.", "Bb5", "a6", "1-0"]. */
  lemma RuyLopezScan()
    ensures Tokenizer.Lex(RuyLopezText) == ["1.", "e4", "e5", "2.", "Nf3", "Nc6", "3.", "Bb5", "a6", "1-0"]
  {
    RuyLopezLexRest0();
  }

  /** The clean-up passes leave "1. e4 e5 2. Nf3 Nc6 3. Bb5 a6 1-0" as it is. */
  lemma RuyLopezPrep()
    ensures Tokenizer.Prep(SamplePatterns, RuyLopezText) == RuyLopezText
  {
    RuyLopezLexRest0();
    Tokenizer.RemoveSemicolonCommentsWithoutSemicolon(RuyLopezText);
    Tokenizer.RemoveGlyphsWithoutDollar(RuyLopezText);
  }

  lemma RuyLopezLexRest0()
    ensures Tokenizer.Lex(RuyLopezRest0) == RuyLopezTokens[0..]
    ensures ';' !in RuyLopezRest0 && '$' !in RuyLopezRest0
  {
    RuyLopezLexRest1();
    assert RuyLopezRest1[0] == " "[0];
    assert RuyLopezTokens[0..] == ["1."] + RuyLopezTokens[1..];
    Tokenizer.LexAfterWord("1.", RuyLopezRest1);
  }

  lemma RuyLopezLexRest1()
    ensures Tokenizer.Lex(RuyLopezRest1) == RuyLopezTokens[1..]
    ensures ';' !in RuyLopezRest1 && '$' !in RuyLopezRest1
  {
    RuyLopezLexRest2();
    Tokenizer.LexAfterSpace(" "[0], RuyLopezRest2);
  }

  lemma RuyLopezLexRest2()
    ensures Tokenizer.Lex(RuyLopezRest2) == RuyLopezTokens[1..]
    ensures ';' !in RuyLopezRest2 && '$' !in RuyLopezRest2
  {
    RuyLopezLexRest3();
    assert RuyLopezRest3[0] == " "[0];
    assert RuyLopezTokens[1..] == ["e4"] + RuyLopezTokens[2..];
    Tokenizer.LexAfterWord("e4", RuyLopezRest3);
  }

  lemma RuyLopezLexRest3()
    ensures Tokenizer.Lex(RuyLopezRest3) == RuyLopezTokens[2..]
    ensures ';' !in RuyLopezRest3 && '$' !in RuyLopezRest3
  {
    RuyLopezLexRest4();
    Tokenizer.LexAfterSpace(" "[0], RuyLopezRest4);
  }

  lemma RuyLopezLexRest4()
    ensures Tokenizer.Lex(RuyLopezRest4) == RuyLopezTokens[2..]
    ensures ';' !in RuyLopezRest4 && '$' !in RuyLopezRest4
  {
    RuyLopezLexRest5();
    assert RuyLopezRest5[0] == ' ';
    assert Tokenizer.IsWord("e5") && !Tokenizer.IsWordChar(' ') by {
      assert "e5"[0] == 'e' && "e5"[1] == '5';
    }
    Tokenizer.LexAfterWord("e5", RuyLopezRest5);
    assert RuyLopezTokens[2..] == ["e5"] + RuyLopezTokens[3..];
  }

  lemma RuyLopezLexRest5()
    ensures Tokenizer.Lex(RuyLopezRest5) == RuyLopezTokens[3..]
    ensures ';' !in RuyLopezRest5 && '$' !in RuyLopezRest5
  {
    RuyLopezLexRest6();
    Tokenizer.LexAfterSpace(" "[0], RuyLopezRest6);
  }

  lemma RuyLopezLexRest6()
    ensures Tokenizer.Lex(RuyLopezRest6) == RuyLopezTokens[3..]
    ensures ';' !in RuyLopezRest6 && '$' !in RuyLopezRest6
  {
    RuyLopezLexRest7();
    assert RuyLopezRest7[0] == " "[0];
    assert RuyLopezTokens[3..] == ["2."] + RuyLopezTokens[4..];
    Tokenizer.LexAfterWord("2.", RuyLopezRest7);
  }

  lemma RuyLopezLexRest7()
    ensures Tokenizer.Lex(RuyLopezRest7) == RuyLopezTokens[4..]
    ensures ';' !in RuyLopezRest7 && '$' !in RuyLopezRest7
  {
    RuyLopezLexRest8();
    Tokenizer.LexAfterSpace(" "[0], RuyLopezRest8);
  }

  lemma RuyLopezLexRest8()
    ensures Tokenizer.Lex(RuyLopezRest8) == RuyLopezTokens[4..]
    ensures ';' !in RuyLopezRest8 && '$' !in RuyLopezRest8
  {
    RuyLopezLexRest9();
    assert RuyLopezRest9[0] == " "[0];
    assert RuyLopezTokens[4..] == ["Nf3"] + RuyLopezTokens[5..];
    Tokenizer.LexAfterWord("Nf3", RuyLopezRest9);
  }

  lemma RuyLopezLexRest9()
    ensures Tokenizer.Lex(RuyLopezRest9) == RuyLopezTokens[5..]
    ensures ';' !in RuyLopezRest9 && '$' !in RuyLopezRest9
  {
    RuyLopezLexRest10();
    Tokenizer.LexAfterSpace(" "[0], RuyLopezRest10);
  }

  lemma RuyLopezLexRest10()
    ensures Tokenizer.Lex(RuyLopezRest10) == RuyLopezTokens[5..]
    ensures ';' !in RuyLopezRest10 && '$' !in RuyLopezRest10
  {
    RuyLopezLexRest11();
    assert RuyLopezRest11[0] == " "[0];
    assert RuyLopezTokens[5..] == ["Nc6"] + RuyLopezTokens[6..];
    Tokenizer.LexAfterWord("Nc6", RuyLopezRest11);
  }

  lemma RuyLopezLexRest11()
    ensures Tokenizer.Lex(RuyLopezRest11) == RuyLopezTokens[6..]
    ensures ';' !in RuyLopezRest11 && '$' !in RuyLopezRest11
  {
    RuyLopezLexRest12();
    Tokenizer.LexAfterSpace(" "[0], RuyLopezRest12);
  }

  lemma RuyLopezLexRest12()
    ensures Tokenizer.Lex(RuyLopezRest12) == RuyLopezTokens[6..]
    ensures ';' !in RuyLopezRest12 && '$' !in RuyLopezRest12
  {
    RuyLopezLexRest13();
    assert RuyLopezRest13[0] == " "[0];
    assert RuyLopezTokens[6..] == ["3."] + RuyLopezTokens[7..];
    Tokenizer.LexAfterWord("3.", RuyLopezRest13);
  }

  lemma RuyLopezLexRest13()
    ensures Tokenizer.Lex(RuyLopezRest13) == RuyLopezTokens[7..]
    ensures ';' !in RuyLopezRest13 && '$' !in RuyLopezRest13
  {
    RuyLopezLexRest14();
    Tokenizer.LexAfterSpace(" "[0], RuyLopezRest14);
  }

  lemma RuyLopezLexRest14()
    ensures Tokenizer.Lex(RuyLopezRest14) == RuyLopezTokens[7..]
    ensures ';' !in RuyLopezRest14 && '$' !in RuyLopezRest14
  {
    RuyLopezLexRest15();
    assert RuyLopezRest15[0] == " "[0];
    assert RuyLopezTokens[7..] == ["Bb5"] + RuyLopezTokens[8..];
    Tokenizer.LexAfterWord("Bb5", RuyLopezRest15);
  }

  lemma RuyLopezLexRest15()
    ensures Tokenizer.Lex(RuyLopezRest15) == RuyLopezTokens[8..]
    ensures ';' !in RuyLopezRest15 && '$' !in RuyLopezRest15
  {
    RuyLopezLexRest16();
    Tokenizer.LexAfterSpace(" "[0], RuyLopezRest16);
  }

  lemma RuyLopezLexRest16()
    ensures Tokenizer.Lex(RuyLopezRest16) == RuyLopezTokens[8..]
    ensures ';' !in RuyLopezRest16 && '$' !in RuyLopezRest16
  {
    RuyLopezLexRest17();
    assert RuyLopezRest17[0] == " "[0];
    assert RuyLopezTokens[8..] == ["a6"] + RuyLopezTokens[9..];
    Tokenizer.LexAfterWord("a6", RuyLopezRest17);
  }

  lemma RuyLopezLexRest17()
    ensures Tokenizer.Lex(RuyLopezRest17) == RuyLopezTokens[9..]
    ensures ';' !in RuyLopezRest17 && '$' !in RuyLopezRest17
  {
    RuyLopezLexRest18();
    Tokenizer.LexAfterSpace(" "[0], RuyLopezRest18);
  }

  lemma RuyLopezLexRest18()
    ensures Tokenizer.Lex(RuyLopezRest18) == RuyLopezTokens[9..]
    ensures ';' !in RuyLopezRest18 && '$' !in RuyLopezRest18
  {
    assert RuyLopezTokens[10..] == [];
    assert RuyLopezTokens[9..] == ["1-0"] + RuyLopezTokens[10..];
    Tokenizer.LexAfterWord("1-0", RuyLopezRest19);
  }

  // ---------------------------------------------------------------- "1. d4 Nf6 (1... d5 2. c4) 2. c4 e6 (2... g6) 1/2-1/2"

  /** The text "1. d4 Nf6 (1... d5 2. c4) 2. c4 e6 (2... g6) 1/2-1/2". */
  const IndianText: string := IndianRest0
  const IndianRest0: string := "1." + IndianRest1
  const IndianRest1: string := " " + IndianRest2
  const IndianRest2: string := "d4" + IndianRest3
  const IndianRest3: string := " " + IndianRest4
  const IndianRest4: string := "Nf6" + IndianRest5
  const IndianRest5: string := " " + IndianRest6
  const IndianRest6: string := "(" + IndianRest7
  const IndianRest7: string := "1..." + IndianRest8
  const IndianRest8: string := " " + IndianRest9
  const IndianRest9: string := "d5" + IndianRest10
  const IndianRest10: string := " " + IndianRest11
  const IndianRest11: string := "2." + IndianRest12
  const IndianRest12: string := " " + IndianRest13
  const IndianRest13: string := "c4" + IndianRest14
  const IndianRest14: string := ")" + IndianRest15
  const IndianRest15: string := " " + IndianRest16
  const IndianRest16: string := "2." + IndianRest17
  const IndianRest17: string := " " + IndianRest18
  const IndianRest18: string := "c4" + IndianRest19
  const IndianRest19: string := " " + IndianRest20
  const IndianRest20: string := "e6" + IndianRest21
  const IndianRest21: string := " " + IndianRest22
  const IndianRest22: string := "(" + IndianRest23
  const IndianRest23: string := "2..." + IndianRest24
  const IndianRest24: string := " " + IndianRest25
  const IndianRest25: string := "g6" + IndianRest26
  const IndianRest26: string := ")" + IndianRest27
  const IndianRest27: string := " " + IndianRest28
  const IndianRest28: string := "1/2-1/2" + IndianRest29
  const IndianRest29: string := ""
  const IndianTokens: seq<string> := ["1.", "d4", "Nf6", "(", "1...", "d5", "2.", "c4", ")", "2.", "c4", "e6", "(", "2...", "g6", ")", "1/2-1/2"]

  /** "1. d4 Nf6 (1... d5 2. c4) 2. c4 e6 (2... g6) 1/2-1/2" scans to ["1.", "d4", "Nf6", "(", "1...", "d5", "2.", "c4", ")", "2.", "c4", "e6", "(", "2...", "g6", ")", "1/2-1/2"]. */
  lemma IndianScan()
    ensures Tokenizer.Lex(IndianText) == ["1.", "d4", "Nf6", "(", "1...", "d5", "2.", "c4", ")", "2.", "c4", "e6", "(", "2...", "g6", ")", "1/2-1/2"]
  {
    IndianLexRest0();
  }

  /** The clean-up passes leave "1. d4 Nf6 (1... d5 2. c4) 2. c4 e6 (2... g6) 1/2-1/2" as it is. */
  lemma IndianPrep()
    ensures Tokenizer.Prep(SamplePatterns, IndianText) == IndianText
  {
    IndianLexRest0();
    Tokenizer.RemoveSemicolonCommentsWithoutSemicolon(IndianText);
    Tokenizer.RemoveGlyphsWithoutDollar(IndianText);
  }

  lemma IndianLexRest0()
    ensures Tokenizer.Lex(IndianRest0) == IndianTokens[0..]
    ensures ';' !in IndianRest0 && '$' !in IndianRest0
  {
    IndianLexRest1();
    assert IndianRest1[0] == " "[0];
    assert IndianTokens[0..] == ["1."] + IndianTokens[1..];
    Tokenizer.LexAfterWord("1.", IndianRest1);
  }

  lemma IndianLexRest1()
    ensures Tokenizer.Lex(IndianRest1) == IndianTokens[1..]
    ensures ';' !in IndianRest1 && '$' !in IndianRest1
  {
    IndianLexRest2();
    Tokenizer.LexAfterSpace(" "[0], IndianRest2);
  }

  lemma IndianLexRest2()
    ensures Tokenizer.Lex(IndianRest2) == IndianTokens[1..]
    ensures ';' !in IndianRest2 && '$' !in IndianRest2
  {
    IndianLexRest3();
    assert IndianRest3[0] == " "[0];
    assert IndianTokens[1..] == ["d4"] + IndianTokens[2..];
    Tokenizer.LexAfterWord("d4", IndianRest3);
  }

  lemma IndianLexRest3()
    ensures Tokenizer.Lex(IndianRest3) == IndianTokens[2..]
    ensures ';' !in IndianRest3 && '$' !in IndianRest3
  {
    IndianLexRest4();
    Tokenizer.LexAfterSpace(" "[0], IndianRest4);
  }

  lemma IndianLexRest4()
    ensures Tokenizer.Lex(IndianRest4) == IndianTokens[2..]
    ensures ';' !in IndianRest4 && '$' !in IndianRest4
  {
    IndianLexRest5();
    assert IndianRest5[0] == " "[0];
    assert IndianTokens[2..] == ["Nf6"] + IndianTokens[3..];
    Tokenizer.LexAfterWord("Nf6", IndianRest5);
  }

  lemma IndianLexRest5()
    ensures Tokenizer.Lex(IndianRest5) == IndianTokens[3..]
    ensures ';' !in IndianRest5 && '$' !in IndianRest5
  {
    IndianLexRest6();
    Tokenizer.LexAfterSpace(" "[0], IndianRest6);
  }

  lemma IndianLexRest6()
    ensures Tokenizer.Lex(IndianRest6) == IndianTokens[3..]
    ensures ';' !in IndianRest6 && '$' !in IndianRest6
  {
    IndianLexRest7();
    assert IndianRest7[0] == "1..."[0];
    assert IndianTokens[3..] == ["("] + IndianTokens[4..];
    Tokenizer.LexAfterParenthesis("("[0], IndianRest7);
  }

  lemma IndianLexRest7()
    ensures Tokenizer.Lex(IndianRest7) == IndianTokens[4..]
    ensures ';' !in IndianRest7 && '$' !in IndianRest7
  {
    IndianLexRest8();
    assert IndianRest8[0] == " "[0];
    assert IndianTokens[4..] == ["1..."] + IndianTokens[5..];
    Tokenizer.LexAfterWord("1...", IndianRest8);
  }

  lemma IndianLexRest8()
    ensures Tokenizer.Lex(IndianRest8) == IndianTokens[5..]
    ensures ';' !in IndianRest8 && '$' !in IndianRest8
  {
    IndianLexRest9();
    Tokenizer.LexAfterSpace(" "[0], IndianRest9);
  }

  lemma IndianLexRest9()
    ensures Tokenizer.Lex(IndianRest9) == IndianTokens[5..]
    ensures ';' !in IndianRest9 && '$' !in IndianRest9
  {
    IndianLexRest10();
    assert IndianRest10[0] == " "[0];
    assert IndianTokens[5..] == ["d5"] + IndianTokens[6..];
    Tokenizer.LexAfterWord("d5", IndianRest10);
  }

  lemma IndianLexRest10()
    ensures Tokenizer.Lex(IndianRest10) == IndianTokens[6..]
    ensures ';' !in IndianRest10 && '$' !in IndianRest10
  {
    IndianLexRest11();
    Tokenizer.LexAfterSpace(" "[0], IndianRest11);
  }

  lemma IndianLexRest11()
    ensures Tokenizer.Lex(IndianRest11) == IndianTokens[6..]
    ensures ';' !in IndianRest11 && '$' !in IndianRest11
  {
    IndianLexRest12();
    assert IndianRest12[0] == " "[0];
    assert IndianTokens[6..] == ["2."] + IndianTokens[7..];
    Tokenizer.LexAfterWord("2.", IndianRest12);
  }

  lemma IndianLexRest12()
    ensures Tokenizer.Lex(IndianRest12) == IndianTokens[7..]
    ensures ';' !in IndianRest12 && '$' !in IndianRest12
  {
    IndianLexRest13();
    Tokenizer.LexAfterSpace(" "[0], IndianRest13);
  }

  lemma IndianLexRest13()
    ensures Tokenizer.Lex(IndianRest13) == IndianTokens[7..]
    ensures ';' !in IndianRest13 && '$' !in IndianRest13
  {
    IndianLexRest14();
    assert IndianRest14[0] == ")"[0];
    assert IndianTokens[7..] == ["c4"] + IndianTokens[8..];
    Tokenizer.LexAfterWord("c4", IndianRest14);
  }

  lemma IndianLexRest14()
    ensures Tokenizer.Lex(IndianRest14) == IndianTokens[8..]
    ensures ';' !in IndianRest14 && '$' !in IndianRest14
  {
    IndianLexRest15();
    assert IndianRest15[0] == " "[0];
    assert IndianTokens[8..] == [")"] + IndianTokens[9..];
    Tokenizer.LexAfterParenthesis(")"[0], IndianRest15);
  }

  lemma IndianLexRest15()
    ensures Tokenizer.Lex(IndianRest15) == IndianTokens[9..]
    ensures ';' !in IndianRest15 && '$' !in IndianRest15
  {
    IndianLexRest16();
    Tokenizer.LexAfterSpace(" "[0], IndianRest16);
  }

  lemma IndianLexRest16()
    ensures Tokenizer.Lex(IndianRest16) == IndianTokens[9..]
    ensures ';' !in IndianRest16 && '$' !in IndianRest16
  {
    IndianLexRest17();
    assert IndianRest17[0] == " "[0];
    assert IndianTokens[9..] == ["2."] + IndianTokens[10..];
    Tokenizer.LexAfterWord("2.", IndianRest17);
  }

  lemma IndianLexRest17()
    ensures Tokenizer.Lex(IndianRest17) == IndianTokens[10..]
    ensures ';' !in IndianRest17 && '$' !in IndianRest17
  {
    IndianLexRest18();
    Tokenizer.LexAfterSpace(" "[0], IndianRest18);
  }

  lemma IndianLexRest18()
    ensures Tokenizer.Lex(IndianRest18) == IndianTokens[10..]
    ensures ';' !in IndianRest18 && '$' !in IndianRest18
  {
    IndianLexRest19();
    assert IndianRest19[0] == " "[0];
    assert IndianTokens[10..] == ["c4"] + IndianTokens[11..];
    Tokenizer.LexAfterWord("c4", IndianRest19);
  }

  lemma IndianLexRest19()
    ensures Tokenizer.Lex(IndianRest19) == IndianTokens[11..]
    ensures ';' !in IndianRest19 && '$' !in IndianRest19
  {
    IndianLexRest20();
    Tokenizer.LexAfterSpace(" "[0], IndianRest20);
  }

  lemma IndianLexRest20()
    ensures Tokenizer.Lex(IndianRest20) == IndianTokens[11..]
    ensures ';' !in IndianRest20 && '$' !in IndianRest20
  {
    IndianLexRest21();
    assert IndianRest21[0] == " "[0];
    assert IndianTokens[11..] == ["e6"] + IndianTokens[12..];
    Tokenizer.LexAfterWord("e6", IndianRest21);
  }

  lemma IndianLexRest21()
    ensures Tokenizer.Lex(IndianRest21) == IndianTokens[12..]
    ensures ';' !in IndianRest21 && '$' !in IndianRest21
  {
    IndianLexRest22();
    Tokenizer.LexAfterSpace(" "[0], IndianRest22);
  }

  lemma IndianLexRest22()
    ensures Tokenizer.Lex(IndianRest22) == IndianTokens[12..]
    ensures ';' !in IndianRest22 && '$' !in IndianRest22
  {
    IndianLexRest23();
    assert IndianRest23[0] == "2..."[0];
    assert IndianTokens[12..] == ["("] + IndianTokens[13..];
    Tokenizer.LexAfterParenthesis("("[0], IndianRest23);
  }

  lemma IndianLexRest23()
    ensures Tokenizer.Lex(IndianRest23) == IndianTokens[13..]
    ensures ';' !in IndianRest23 && '$' !in IndianRest23
  {
    IndianLexRest24();
    assert IndianRest24[0] == " "[0];
    assert IndianTokens[13..] == ["2..."] + IndianTokens[14..];
    Tokenizer.LexAfterWord("2...", IndianRest24);
  }

  lemma IndianLexRest24()
    ensures Tokenizer.Lex(IndianRest24) == IndianTokens[14..]
    ensures ';' !in IndianRest24 && '$' !in IndianRest24
  {
    IndianLexRest25();
    Tokenizer.LexAfterSpace(" "[0], IndianRest25);
  }

  lemma IndianLexRest25()
    ensures Tokenizer.Lex(IndianRest25) == IndianTokens[14..]
    ensures ';' !in IndianRest25 && '$' !in IndianRest25
  {
    IndianLexRest26();
    assert IndianRest26[0] == ")"[0];
    assert IndianTokens[14..] == ["g6"] + IndianTokens[15..];
    Tokenizer.LexAfterWord("g6", IndianRest26);
  }

  lemma IndianLexRest26()
    ensures Tokenizer.Lex(IndianRest26) == IndianTokens[15..]
    ensures ';' !in IndianRest26 && '$' !in IndianRest26
  {
    IndianLexRest27();
    assert IndianRest27[0] == " "[0];
    assert IndianTokens[15..] == [")"] + IndianTokens[16..];
    Tokenizer.LexAfterParenthesis(")"[0], IndianRest27);
  }

  lemma IndianLexRest27()
    ensures Tokenizer.Lex(IndianRest27) == IndianTokens[16..]
    ensures ';' !in IndianRest27 && '$' !in IndianRest27
  {
    IndianLexRest28();
    Tokenizer.LexAfterSpace(" "[0], IndianRest28);
  }

  lemma IndianLexRest28()
    ensures Tokenizer.Lex(IndianRest28) == IndianTokens[16..]
    ensures ';' !in IndianRest28 && '$' !in IndianRest28
  {
    assert IndianTokens[17..] == [];
    assert IndianTokens[16..] == ["1/2-1/2"] + IndianTokens[17..];
    Tokenizer.LexAfterWord("1/2-1/2", IndianRest29);
  }

}
