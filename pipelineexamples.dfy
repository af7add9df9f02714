/**
 * Worked examples for the tree builder, the line extractor and the whole
 * pipeline, on the token sequences of the parser's test oracles. Each parse
 * is stepped token by token: `<Name>Arena<i>` and `<Name>Stack<i>` are the
 * arena and the stack of parents before token `i` is read.
 */
module PipelineExamples {

  import opened Wrappers
  import opened MoveTree
  import opened LineExtractor
  import opened TokenizerExamples
  import PgnToLines

  /** One `(` step of `ParseLoop`, stated on its ingredients. */
  lemma VariationStep(mn: string -> bool, t: seq<string>, i: nat, a: Arena, stack: seq<nat>, b: Arena, root: nat, j: nat, a3: Arena)
    requires StackIn(stack, a) && i < |t| && t[i] == "("
    requires ParseFrom(mn, t, i + 1, a) == (b, root, j)
    requires Attach(b, Anchor(stack), b[root].children) == a3
    ensures ParseLoop(mn, t, i, a, stack) == ParseLoop(mn, t, j, a3, stack)
  {
  }

  // ---------------------------------------------------------------- "1. e4 e5 2. Nf3 Nc6 3. Bb5 a6 1-0"

  const RuyLopezArena0: Arena := [Node(None, [])]
  const RuyLopezStack0: seq<nat> := [0]
  const RuyLopezArena1: Arena := RuyLopezArena0
  const RuyLopezStack1: seq<nat> := RuyLopezStack0
  const RuyLopezArena2: Arena := [Node(None, [1]), Node(Some("e4"), [])]
  const RuyLopezStack2: seq<nat> := [0, 1]
  const RuyLopezArena3: Arena := [Node(None, [1]), Node(Some("e4"), [2]), Node(Some("e5"), [])]
  const RuyLopezStack3: seq<nat> := [0, 1, 2]
  const RuyLopezArena4: Arena := RuyLopezArena3
  const RuyLopezStack4: seq<nat> := RuyLopezStack3
  const RuyLopezArena5: Arena := [Node(None, [1]), Node(Some("e4"), [2]), Node(Some("e5"), [3]), Node(Some("Nf3"), [])]
  const RuyLopezStack5: seq<nat> := [0, 1, 2, 3]
  const RuyLopezArena6: Arena := [Node(None, [1]), Node(Some("e4"), [2]), Node(Some("e5"), [3]), Node(Some("Nf3"), [4]), Node(Some("Nc6"), [])]
  const RuyLopezStack6: seq<nat> := [0, 1, 2, 3, 4]
  const RuyLopezArena7: Arena := RuyLopezArena6
  const RuyLopezStack7: seq<nat> := RuyLopezStack6
  const RuyLopezArena8: Arena := [Node(None, [1]), Node(Some("e4"), [2]), Node(Some("e5"), [3]), Node(Some("Nf3"), [4]), Node(Some("Nc6"), [5]), Node(Some("Bb5"), [])]
  const RuyLopezStack8: seq<nat> := [0, 1, 2, 3, 4, 5]
  const RuyLopezArena9: Arena := [Node(None, [1]), Node(Some("e4"), [2]), Node(Some("e5"), [3]), Node(Some("Nf3"), [4]), Node(Some("Nc6"), [5]), Node(Some("Bb5"), [6]), Node(Some("a6"), [])]
  const RuyLopezStack9: seq<nat> := [0, 1, 2, 3, 4, 5, 6]
  const RuyLopezArena10: Arena := RuyLopezArena9
  const RuyLopezStack10: seq<nat> := RuyLopezStack9

  lemma RuyLopezStep0()
    ensures ParseLoop(SampleMoveNumber, RuyLopezTokens, 0, RuyLopezArena0, RuyLopezStack0) == ParseLoop(SampleMoveNumber, RuyLopezTokens, 1, RuyLopezArena1, RuyLopezStack1)
  {
    assert RuyLopezTokens[0] == "1.";
    assert SampleMoveNumber("1.");
  }

  lemma RuyLopezStep1()
    ensures ParseLoop(SampleMoveNumber, RuyLopezTokens, 1, RuyLopezArena1, RuyLopezStack1) == ParseLoop(SampleMoveNumber, RuyLopezTokens, 2, RuyLopezArena2, RuyLopezStack2)
  {
    assert StackIn(RuyLopezStack1, RuyLopezArena1);
    assert RuyLopezTokens[1] == "e4";
    assert !SampleMoveNumber("e4") && !IsGameResult("e4");
    var r := AddMove(RuyLopezArena1, RuyLopezStack1, "e4");
    assert r.0[0] == RuyLopezArena2[0];
    assert r.0[1] == RuyLopezArena2[1];
    assert r.0 == RuyLopezArena2;
    assert r.1 == RuyLopezStack2;
  }

  lemma RuyLopezStep2()
    ensures ParseLoop(SampleMoveNumber, RuyLopezTokens, 2, RuyLopezArena2, RuyLopezStack2) == ParseLoop(SampleMoveNumber, RuyLopezTokens, 3, RuyLopezArena3, RuyLopezStack3)
  {
    assert StackIn(RuyLopezStack2, RuyLopezArena2);
    assert RuyLopezTokens[2] == "e5";
    assert !SampleMoveNumber("e5") && !IsGameResult("e5");
    var r := AddMove(RuyLopezArena2, RuyLopezStack2, "e5");
    assert r.0[0] == RuyLopezArena3[0];
    assert r.0[1] == RuyLopezArena3[1];
    assert r.0[2] == RuyLopezArena3[2];
    assert r.0 == RuyLopezArena3;
    assert r.1 == RuyLopezStack3;
  }

  lemma RuyLopezStep3()
    ensures ParseLoop(SampleMoveNumber, RuyLopezTokens, 3, RuyLopezArena3, RuyLopezStack3) == ParseLoop(SampleMoveNumber, RuyLopezTokens, 4, RuyLopezArena4, RuyLopezStack4)
  {
    assert RuyLopezTokens[3] == "2.";
    assert SampleMoveNumber("2.");
  }

  lemma RuyLopezStep4()
    ensures ParseLoop(SampleMoveNumber, RuyLopezTokens, 4, RuyLopezArena4, RuyLopezStack4) == ParseLoop(SampleMoveNumber, RuyLopezTokens, 5, RuyLopezArena5, RuyLopezStack5)
  {
    assert StackIn(RuyLopezStack4, RuyLopezArena4);
    assert RuyLopezTokens[4] == "Nf3";
    assert !SampleMoveNumber("Nf3") && !IsGameResult("Nf3");
    var r := AddMove(RuyLopezArena4, RuyLopezStack4, "Nf3");
    assert r.0[0] == RuyLopezArena5[0];
    assert r.0[1] == RuyLopezArena5[1];
    assert r.0[2] == RuyLopezArena5[2];
    assert r.0[3] == RuyLopezArena5[3];
    assert r.0 == RuyLopezArena5;
    assert r.1 == RuyLopezStack5;
  }

  lemma RuyLopezStep5()
    ensures ParseLoop(SampleMoveNumber, RuyLopezTokens, 5, RuyLopezArena5, RuyLopezStack5) == ParseLoop(SampleMoveNumber, RuyLopezTokens, 6, RuyLopezArena6, RuyLopezStack6)
  {
    assert StackIn(RuyLopezStack5, RuyLopezArena5);
    assert RuyLopezTokens[5] == "Nc6";
    assert !SampleMoveNumber("Nc6") && !IsGameResult("Nc6");
    var r := AddMove(RuyLopezArena5, RuyLopezStack5, "Nc6");
    assert r.0[0] == RuyLopezArena6[0];
    assert r.0[1] == RuyLopezArena6[1];
    assert r.0[2] == RuyLopezArena6[2];
    assert r.0[3] == RuyLopezArena6[3];
    assert r.0[4] == RuyLopezArena6[4];
    assert r.0 == RuyLopezArena6;
    assert r.1 == RuyLopezStack6;
  }

  lemma RuyLopezStep6()
    ensures ParseLoop(SampleMoveNumber, RuyLopezTokens, 6, RuyLopezArena6, RuyLopezStack6) == ParseLoop(SampleMoveNumber, RuyLopezTokens, 7, RuyLopezArena7, RuyLopezStack7)
  {
    assert RuyLopezTokens[6] == "3.";
    assert SampleMoveNumber("3.");
  }

  lemma RuyLopezStep7()
    ensures ParseLoop(SampleMoveNumber, RuyLopezTokens, 7, RuyLopezArena7, RuyLopezStack7) == ParseLoop(SampleMoveNumber, RuyLopezTokens, 8, RuyLopezArena8, RuyLopezStack8)
  {
    assert StackIn(RuyLopezStack7, RuyLopezArena7);
    assert RuyLopezTokens[7] == "Bb5";
    assert !SampleMoveNumber("Bb5") && !IsGameResult("Bb5");
    var r := AddMove(RuyLopezArena7, RuyLopezStack7, "Bb5");
    assert r.0[0] == RuyLopezArena8[0];
    assert r.0[1] == RuyLopezArena8[1];
    assert r.0[2] == RuyLopezArena8[2];
    assert r.0[3] == RuyLopezArena8[3];
    assert r.0[4] == RuyLopezArena8[4];
    assert r.0[5] == RuyLopezArena8[5];
    assert r.0 == RuyLopezArena8;
    assert r.1 == RuyLopezStack8;
  }

  lemma RuyLopezStep8()
    ensures ParseLoop(SampleMoveNumber, RuyLopezTokens, 8, RuyLopezArena8, RuyLopezStack8) == ParseLoop(SampleMoveNumber, RuyLopezTokens, 9, RuyLopezArena9, RuyLopezStack9)
  {
    assert StackIn(RuyLopezStack8, RuyLopezArena8);
    assert RuyLopezTokens[8] == "a6";
    assert !SampleMoveNumber("a6") && !IsGameResult("a6");
    var r := AddMove(RuyLopezArena8, RuyLopezStack8, "a6");
    assert r.0[0] == RuyLopezArena9[0];
    assert r.0[1] == RuyLopezArena9[1];
    assert r.0[2] == RuyLopezArena9[2];
    assert r.0[3] == RuyLopezArena9[3];
    assert r.0[4] == RuyLopezArena9[4];
    assert r.0[5] == RuyLopezArena9[5];
    assert r.0[6] == RuyLopezArena9[6];
    assert r.0 == RuyLopezArena9;
    assert r.1 == RuyLopezStack9;
  }

  lemma RuyLopezStep9()
    ensures ParseLoop(SampleMoveNumber, RuyLopezTokens, 9, RuyLopezArena9, RuyLopezStack9) == ParseLoop(SampleMoveNumber, RuyLopezTokens, 10, RuyLopezArena10, RuyLopezStack10)
  {
    assert RuyLopezTokens[9] == "1-0";
    assert IsGameResult("1-0");
  }

  lemma RuyLopezStep10()
    ensures ParseLoop(SampleMoveNumber, RuyLopezTokens, 10, RuyLopezArena10, RuyLopezStack10) == (RuyLopezArena10, 10)
  {
  }

  lemma RuyLopezParseFrom0()
    ensures ParseFrom(SampleMoveNumber, RuyLopezTokens, 0, []) == (RuyLopezArena10, 0, 10)
  {
    assert [] + [Node(None, [])] == RuyLopezArena0;
    RuyLopezStep0();
    RuyLopezStep1();
    RuyLopezStep2();
    RuyLopezStep3();
    RuyLopezStep4();
    RuyLopezStep5();
    RuyLopezStep6();
    RuyLopezStep7();
    RuyLopezStep8();
    RuyLopezStep9();
    RuyLopezStep10();
  }

  lemma RuyLopezArenaValid()
    ensures Valid(RuyLopezArena10)
  {
  }

  lemma RuyLopezPathsAt6()
    ensures Paths(RuyLopezArena10, 6, ["e4", "e5", "Nf3", "Nc6", "Bb5"]) == [["e4", "e5", "Nf3", "Nc6", "Bb5", "a6"]]
  {
    RuyLopezArenaValid();
    assert RuyLopezArena10[6] == Node(Some("a6"), []);
    assert Extend(RuyLopezArena10, 6, ["e4", "e5", "Nf3", "Nc6", "Bb5"]) == ["e4", "e5", "Nf3", "Nc6", "Bb5", "a6"];
  }

  lemma RuyLopezPathsAt5()
    ensures Paths(RuyLopezArena10, 5, ["e4", "e5", "Nf3", "Nc6"]) == [["e4", "e5", "Nf3", "Nc6", "Bb5", "a6"]]
  {
    RuyLopezArenaValid();
    assert RuyLopezArena10[5] == Node(Some("Bb5"), [6]);
    assert Extend(RuyLopezArena10, 5, ["e4", "e5", "Nf3", "Nc6"]) == ["e4", "e5", "Nf3", "Nc6", "Bb5"];
    RuyLopezPathsAt6();
    assert PathsOfChildren(RuyLopezArena10, 5, [6], ["e4", "e5", "Nf3", "Nc6", "Bb5"]) == [["e4", "e5", "Nf3", "Nc6", "Bb5", "a6"]];
  }

  lemma RuyLopezPathsAt4()
    ensures Paths(RuyLopezArena10, 4, ["e4", "e5", "Nf3"]) == [["e4", "e5", "Nf3", "Nc6", "Bb5", "a6"]]
  {
    RuyLopezArenaValid();
    assert RuyLopezArena10[4] == Node(Some("Nc6"), [5]);
    assert Extend(RuyLopezArena10, 4, ["e4", "e5", "Nf3"]) == ["e4", "e5", "Nf3", "Nc6"];
    RuyLopezPathsAt5();
    assert PathsOfChildren(RuyLopezArena10, 4, [5], ["e4", "e5", "Nf3", "Nc6"]) == [["e4", "e5", "Nf3", "Nc6", "Bb5", "a6"]];
  }

  lemma RuyLopezPathsAt3()
    ensures Paths(RuyLopezArena10, 3, ["e4", "e5"]) == [["e4", "e5", "Nf3", "Nc6", "Bb5", "a6"]]
  {
    RuyLopezArenaValid();
    assert RuyLopezArena10[3] == Node(Some("Nf3"), [4]);
    assert Extend(RuyLopezArena10, 3, ["e4", "e5"]) == ["e4", "e5", "Nf3"];
    RuyLopezPathsAt4();
    assert PathsOfChildren(RuyLopezArena10, 3, [4], ["e4", "e5", "Nf3"]) == [["e4", "e5", "Nf3", "Nc6", "Bb5", "a6"]];
  }

  lemma RuyLopezPathsAt2()
    ensures Paths(RuyLopezArena10, 2, ["e4"]) == [["e4", "e5", "Nf3", "Nc6", "Bb5", "a6"]]
  {
    RuyLopezArenaValid();
    assert RuyLopezArena10[2] == Node(Some("e5"), [3]);
    assert Extend(RuyLopezArena10, 2, ["e4"]) == ["e4", "e5"];
    RuyLopezPathsAt3();
    assert PathsOfChildren(RuyLopezArena10, 2, [3], ["e4", "e5"]) == [["e4", "e5", "Nf3", "Nc6", "Bb5", "a6"]];
  }

  lemma RuyLopezPathsAt1()
    ensures Paths(RuyLopezArena10, 1, []) == [["e4", "e5", "Nf3", "Nc6", "Bb5", "a6"]]
  {
    RuyLopezArenaValid();
    assert RuyLopezArena10[1] == Node(Some("e4"), [2]);
    assert Extend(RuyLopezArena10, 1, []) == ["e4"];
    RuyLopezPathsAt2();
    assert PathsOfChildren(RuyLopezArena10, 1, [2], ["e4"]) == [["e4", "e5", "Nf3", "Nc6", "Bb5", "a6"]];
  }

  lemma RuyLopezPathsAt0()
    ensures Paths(RuyLopezArena10, 0, []) == [["e4", "e5", "Nf3", "Nc6", "Bb5", "a6"]]
  {
    RuyLopezArenaValid();
    assert RuyLopezArena10[0] == Node(None, [1]);
    assert Extend(RuyLopezArena10, 0, []) == [];
    RuyLopezPathsAt1();
    assert PathsOfChildren(RuyLopezArena10, 0, [1], []) == [["e4", "e5", "Nf3", "Nc6", "Bb5", "a6"]];
  }

  /** The tree built from "1. e4 e5 2. Nf3 Nc6 3. Bb5 a6 1-0" yields these lines, in this order. */
  lemma RuyLopezLines()
    ensures var r := ParseFrom(SampleMoveNumber, RuyLopezTokens, 0, []);
      Valid(r.0) && r.1 < |r.0| && Paths(r.0, r.1, []) == [["e4", "e5", "Nf3", "Nc6", "Bb5", "a6"]]
  {
    RuyLopezParseFrom0();
    RuyLopezArenaValid();
    RuyLopezPathsAt0();
  }

  /** The pipeline turns "1. e4 e5 2. Nf3 Nc6 3. Bb5 a6 1-0" into these lines; titled as "Ruy Lopez #1" onwards. */
  lemma RuyLopezPipeline()
    ensures PgnToLines.ExtractedLines(SamplePatterns, RuyLopezText) == [["e4", "e5", "Nf3", "Nc6", "Bb5", "a6"]]
    ensures PgnToLines.LineTitle(PgnToLines.BaseTitle(Some("Ruy Lopez")), 1) == "Ruy Lopez #1"
  {
    RuyLopezPrep();
    RuyLopezScan();
    assert RuyLopezTokens == ["1.", "e4", "e5", "2.", "Nf3", "Nc6", "3.", "Bb5", "a6", "1-0"];
    RuyLopezLines();
  }

  /** `parse_pgn_to_lines` on "1. e4 e5 2. Nf3 Nc6 3. Bb5 a6 1-0" with title "Ruy Lopez" and no ply limit, as the test oracle expects it. */
  method RuyLopezOracle() returns (lines: seq<PgnToLines.Line>)
    ensures lines == [PgnToLines.Line("Ruy Lopez #1", ["e4", "e5", "Nf3", "Nc6", "Bb5", "a6"])]
  {
    lines := PgnToLines.ParsePgnToLines(SamplePatterns, RuyLopezText, None, Some("Ruy Lopez"));
    RuyLopezPipeline();
    assert PgnToLines.LineTitle("Ruy Lopez", 1) == "Ruy Lopez #1";
  }

  // ---------------------------------------------------------------- "1. d4 Nf6 (1... d5 2. c4) 2. c4 e6 (2... g6) 1/2-1/2"

  const IndianArena0: Arena := [Node(None, [])]
  const IndianStack0: seq<nat> := [0]
  const IndianArena1: Arena := IndianArena0
  const IndianStack1: seq<nat> := IndianStack0
  const IndianArena2: Arena := [Node(None, [1]), Node(Some("d4"), [])]
  const IndianStack2: seq<nat> := [0, 1]
  const IndianArena3: Arena := [Node(None, [1]), Node(Some("d4"), [2]), Node(Some("Nf6"), [])]
  const IndianStack3: seq<nat> := [0, 1, 2]
  const IndianArena4: Arena := [Node(None, [1]), Node(Some("d4"), [2]), Node(Some("Nf6"), []), Node(None, [])]
  const IndianStack4: seq<nat> := [3]
  const IndianArena5: Arena := IndianArena4
  const IndianStack5: seq<nat> := IndianStack4
  const IndianArena6: Arena := [Node(None, [1]), Node(Some("d4"), [2]), Node(Some("Nf6"), []), Node(None, [4]), Node(Some("d5"), [])]
  const IndianStack6: seq<nat> := [3, 4]
  const IndianArena7: Arena := IndianArena6
  const IndianStack7: seq<nat> := IndianStack6
  const IndianArena8: Arena := [Node(None, [1]), Node(Some("d4"), [2]), Node(Some("Nf6"), []), Node(None, [4]), Node(Some("d5"), [5]), Node(Some("c4"), [])]
  const IndianStack8: seq<nat> := [3, 4, 5]
  const IndianArena9: Arena := [Node(None, [1]), Node(Some("d4"), [2, 4]), Node(Some("Nf6"), []), Node(None, [4]), Node(Some("d5"), [5]), Node(Some("c4"), [])]
  const IndianStack9: seq<nat> := IndianStack3
  const IndianArena10: Arena := IndianArena9
  const IndianStack10: seq<nat> := IndianStack9
  const IndianArena11: Arena := [Node(None, [1]), Node(Some("d4"), [2, 4]), Node(Some("Nf6"), [6]), Node(None, [4]), Node(Some("d5"), [5]), Node(Some("c4"), []), Node(Some("c4"), [])]
  const IndianStack11: seq<nat> := [0, 1, 2, 6]
  const IndianArena12: Arena := [Node(None, [1]), Node(Some("d4"), [2, 4]), Node(Some("Nf6"), [6]), Node(None, [4]), Node(Some("d5"), [5]), Node(Some("c4"), []), Node(Some("c4"), [7]), Node(Some("e6"), [])]
  const IndianStack12: seq<nat> := [0, 1, 2, 6, 7]
  const IndianArena13: Arena := [Node(None, [1]), Node(Some("d4"), [2, 4]), Node(Some("Nf6"), [6]), Node(None, [4]), Node(Some("d5"), [5]), Node(Some("c4"), []), Node(Some("c4"), [7]), Node(Some("e6"), []), Node(None, [])]
  const IndianStack13: seq<nat> := [8]
  const IndianArena14: Arena := IndianArena13
  const IndianStack14: seq<nat> := IndianStack13
  const IndianArena15: Arena := [Node(None, [1]), Node(Some("d4"), [2, 4]), Node(Some("Nf6"), [6]), Node(None, [4]), Node(Some("d5"), [5]), Node(Some("c4"), []), Node(Some("c4"), [7]), Node(Some("e6"), []), Node(None, [9]), Node(Some("g6"), [])]
  const IndianStack15: seq<nat> := [8, 9]
  const IndianArena16: Arena := [Node(None, [1]), Node(Some("d4"), [2, 4]), Node(Some("Nf6"), [6]), Node(None, [4]), Node(Some("d5"), [5]), Node(Some("c4"), []), Node(Some("c4"), [7, 9]), Node(Some("e6"), []), Node(None, [9]), Node(Some("g6"), [])]
  const IndianStack16: seq<nat> := IndianStack12
  const IndianArena17: Arena := IndianArena16
  const IndianStack17: seq<nat> := IndianStack16

  lemma IndianStep0()
    ensures ParseLoop(SampleMoveNumber, IndianTokens, 0, IndianArena0, IndianStack0) == ParseLoop(SampleMoveNumber, IndianTokens, 1, IndianArena1, IndianStack1)
  {
    assert IndianTokens[0] == "1.";
    assert SampleMoveNumber("1.");
  }

  lemma IndianStep1()
    ensures ParseLoop(SampleMoveNumber, IndianTokens, 1, IndianArena1, IndianStack1) == ParseLoop(SampleMoveNumber, IndianTokens, 2, IndianArena2, IndianStack2)
  {
    assert StackIn(IndianStack1, IndianArena1);
    assert IndianTokens[1] == "d4";
    assert !SampleMoveNumber("d4") && !IsGameResult("d4");
    var r := AddMove(IndianArena1, IndianStack1, "d4");
    assert r.0[0] == IndianArena2[0];
    assert r.0[1] == IndianArena2[1];
    assert r.0 == IndianArena2;
    assert r.1 == IndianStack2;
  }

  lemma IndianStep2()
    ensures ParseLoop(SampleMoveNumber, IndianTokens, 2, IndianArena2, IndianStack2) == ParseLoop(SampleMoveNumber, IndianTokens, 3, IndianArena3, IndianStack3)
  {
    assert StackIn(IndianStack2, IndianArena2);
    assert IndianTokens[2] == "Nf6";
    assert !SampleMoveNumber("Nf6") && !IsGameResult("Nf6");
    var r := AddMove(IndianArena2, IndianStack2, "Nf6");
    assert r.0[0] == IndianArena3[0];
    assert r.0[1] == IndianArena3[1];
    assert r.0[2] == IndianArena3[2];
    assert r.0 == IndianArena3;
    assert r.1 == IndianStack3;
  }

  lemma IndianStep4()
    ensures ParseLoop(SampleMoveNumber, IndianTokens, 4, IndianArena4, IndianStack4) == ParseLoop(SampleMoveNumber, IndianTokens, 5, IndianArena5, IndianStack5)
  {
    assert IndianTokens[4] == "1...";
    assert SampleMoveNumber("1...");
  }

  lemma IndianStep5()
    ensures ParseLoop(SampleMoveNumber, IndianTokens, 5, IndianArena5, IndianStack5) == ParseLoop(SampleMoveNumber, IndianTokens, 6, IndianArena6, IndianStack6)
  {
    assert StackIn(IndianStack5, IndianArena5);
    assert IndianTokens[5] == "d5";
    assert !SampleMoveNumber("d5") && !IsGameResult("d5");
    var r := AddMove(IndianArena5, IndianStack5, "d5");
    assert r.0[0] == IndianArena6[0];
    assert r.0[1] == IndianArena6[1];
    assert r.0[2] == IndianArena6[2];
    assert r.0[3] == IndianArena6[3];
    assert r.0[4] == IndianArena6[4];
    assert r.0 == IndianArena6;
    assert r.1 == IndianStack6;
  }

  lemma IndianStep6()
    ensures ParseLoop(SampleMoveNumber, IndianTokens, 6, IndianArena6, IndianStack6) == ParseLoop(SampleMoveNumber, IndianTokens, 7, IndianArena7, IndianStack7)
  {
    assert IndianTokens[6] == "2.";
    assert SampleMoveNumber("2.");
  }

  lemma IndianStep7()
    ensures ParseLoop(SampleMoveNumber, IndianTokens, 7, IndianArena7, IndianStack7) == ParseLoop(SampleMoveNumber, IndianTokens, 8, IndianArena8, IndianStack8)
  {
    assert StackIn(IndianStack7, IndianArena7);
    assert IndianTokens[7] == "c4";
    assert !SampleMoveNumber("c4") && !IsGameResult("c4");
    var r := AddMove(IndianArena7, IndianStack7, "c4");
    assert r.0[0] == IndianArena8[0];
    assert r.0[1] == IndianArena8[1];
    assert r.0[2] == IndianArena8[2];
    assert r.0[3] == IndianArena8[3];
    assert r.0[4] == IndianArena8[4];
    assert r.0[5] == IndianArena8[5];
    assert r.0 == IndianArena8;
    assert r.1 == IndianStack8;
  }

  lemma IndianStep8()
    ensures ParseLoop(SampleMoveNumber, IndianTokens, 8, IndianArena8, IndianStack8) == (IndianArena8, 9)
  {
    assert IndianTokens[8] == ")";
  }

  lemma IndianParseFrom4()
    ensures ParseFrom(SampleMoveNumber, IndianTokens, 4, IndianArena3) == (IndianArena8, 3, 9)
  {
    assert IndianArena3 + [Node(None, [])] == IndianArena4;
    IndianStep4();
    IndianStep5();
    IndianStep6();
    IndianStep7();
    IndianStep8();
  }

  lemma IndianAttach3()
    ensures Attach(IndianArena8, 1, [4]) == IndianArena9
  {
    var r := Attach(IndianArena8, 1, [4]);
    assert r[0] == IndianArena9[0];
    assert r[1] == IndianArena9[1];
    assert r[2] == IndianArena9[2];
    assert r[3] == IndianArena9[3];
    assert r[4] == IndianArena9[4];
    assert r[5] == IndianArena9[5];
  }

  lemma IndianStep3()
    ensures ParseLoop(SampleMoveNumber, IndianTokens, 3, IndianArena3, IndianStack3) == ParseLoop(SampleMoveNumber, IndianTokens, 9, IndianArena9, IndianStack9)
  {
    assert StackIn(IndianStack3, IndianArena3);
    assert IndianTokens[3] == "(";
    IndianParseFrom4();
    assert Anchor(IndianStack3) == 1;
    assert IndianArena8[3] == Node(None, [4]);
    IndianAttach3();
    VariationStep(SampleMoveNumber, IndianTokens, 3, IndianArena3, IndianStack3, IndianArena8, 3, 9, IndianArena9);
  }

  lemma IndianStep9()
    ensures ParseLoop(SampleMoveNumber, IndianTokens, 9, IndianArena9, IndianStack9) == ParseLoop(SampleMoveNumber, IndianTokens, 10, IndianArena10, IndianStack10)
  {
    assert IndianTokens[9] == "2.";
    assert SampleMoveNumber("2.");
  }

  lemma IndianStep10()
    ensures ParseLoop(SampleMoveNumber, IndianTokens, 10, IndianArena10, IndianStack10) == ParseLoop(SampleMoveNumber, IndianTokens, 11, IndianArena11, IndianStack11)
  {
    assert StackIn(IndianStack10, IndianArena10);
    assert IndianTokens[10] == "c4";
    assert !SampleMoveNumber("c4") && !IsGameResult("c4");
    var r := AddMove(IndianArena10, IndianStack10, "c4");
    assert r.0[0] == IndianArena11[0];
    assert r.0[1] == IndianArena11[1];
    assert r.0[2] == IndianArena11[2];
    assert r.0[3] == IndianArena11[3];
    assert r.0[4] == IndianArena11[4];
    assert r.0[5] == IndianArena11[5];
    assert r.0[6] == IndianArena11[6];
    assert r.0 == IndianArena11;
    assert r.1 == IndianStack11;
  }

  lemma IndianStep11()
    ensures ParseLoop(SampleMoveNumber, IndianTokens, 11, IndianArena11, IndianStack11) == ParseLoop(SampleMoveNumber, IndianTokens, 12, IndianArena12, IndianStack12)
  {
    assert StackIn(IndianStack11, IndianArena11);
    assert IndianTokens[11] == "e6";
    assert !SampleMoveNumber("e6") && !IsGameResult("e6");
    var r := AddMove(IndianArena11, IndianStack11, "e6");
    assert r.0[0] == IndianArena12[0];
    assert r.0[1] == IndianArena12[1];
    assert r.0[2] == IndianArena12[2];
    assert r.0[3] == IndianArena12[3];
    assert r.0[4] == IndianArena12[4];
    assert r.0[5] == IndianArena12[5];
    assert r.0[6] == IndianArena12[6];
    assert r.0[7] == IndianArena12[7];
    assert r.0 == IndianArena12;
    assert r.1 == IndianStack12;
  }

  lemma IndianStep13()
    ensures ParseLoop(SampleMoveNumber, IndianTokens, 13, IndianArena13, IndianStack13) == ParseLoop(SampleMoveNumber, IndianTokens, 14, IndianArena14, IndianStack14)
  {
    assert IndianTokens[13] == "2...";
    assert SampleMoveNumber("2...");
  }

  lemma IndianStep14()
    ensures ParseLoop(SampleMoveNumber, IndianTokens, 14, IndianArena14, IndianStack14) == ParseLoop(SampleMoveNumber, IndianTokens, 15, IndianArena15, IndianStack15)
  {
    assert StackIn(IndianStack14, IndianArena14);
    assert IndianTokens[14] == "g6";
    assert !SampleMoveNumber("g6") && !IsGameResult("g6");
    var r := AddMove(IndianArena14, IndianStack14, "g6");
    assert r.0[0] == IndianArena15[0];
    assert r.0[1] == IndianArena15[1];
    assert r.0[2] == IndianArena15[2];
    assert r.0[3] == IndianArena15[3];
    assert r.0[4] == IndianArena15[4];
    assert r.0[5] == IndianArena15[5];
    assert r.0[6] == IndianArena15[6];
    assert r.0[7] == IndianArena15[7];
    assert r.0[8] == IndianArena15[8];
    assert r.0[9] == IndianArena15[9];
    assert r.0 == IndianArena15;
    assert r.1 == IndianStack15;
  }

  lemma IndianStep15()
    ensures ParseLoop(SampleMoveNumber, IndianTokens, 15, IndianArena15, IndianStack15) == (IndianArena15, 16)
  {
    assert IndianTokens[15] == ")";
  }

  lemma IndianParseFrom13()
    ensures ParseFrom(SampleMoveNumber, IndianTokens, 13, IndianArena12) == (IndianArena15, 8, 16)
  {
    assert IndianArena12 + [Node(None, [])] == IndianArena13;
    IndianStep13();
    IndianStep14();
    IndianStep15();
  }

  lemma IndianAttach12()
    ensures Attach(IndianArena15, 6, [9]) == IndianArena16
  {
    var r := Attach(IndianArena15, 6, [9]);
    assert r[0] == IndianArena16[0];
    assert r[1] == IndianArena16[1];
    assert r[2] == IndianArena16[2];
    assert r[3] == IndianArena16[3];
    assert r[4] == IndianArena16[4];
    assert r[5] == IndianArena16[5];
    assert r[6] == IndianArena16[6];
    assert r[7] == IndianArena16[7];
    assert r[8] == IndianArena16[8];
    assert r[9] == IndianArena16[9];
  }

  lemma IndianStep12()
    ensures ParseLoop(SampleMoveNumber, IndianTokens, 12, IndianArena12, IndianStack12) == ParseLoop(SampleMoveNumber, IndianTokens, 16, IndianArena16, IndianStack16)
  {
    assert StackIn(IndianStack12, IndianArena12);
    assert IndianTokens[12] == "(";
    IndianParseFrom13();
    assert Anchor(IndianStack12) == 6;
    assert IndianArena15[8] == Node(None, [9]);
    IndianAttach12();
    VariationStep(SampleMoveNumber, IndianTokens, 12, IndianArena12, IndianStack12, IndianArena15, 8, 16, IndianArena16);
  }

  lemma IndianStep16()
    ensures ParseLoop(SampleMoveNumber, IndianTokens, 16, IndianArena16, IndianStack16) == ParseLoop(SampleMoveNumber, IndianTokens, 17, IndianArena17, IndianStack17)
  {
    assert IndianTokens[16] == "1/2-1/2";
    assert IsGameResult("1/2-1/2");
  }

  lemma IndianStep17()
    ensures ParseLoop(SampleMoveNumber, IndianTokens, 17, IndianArena17, IndianStack17) == (IndianArena17, 17)
  {
  }

  lemma IndianParseFrom0()
    ensures ParseFrom(SampleMoveNumber, IndianTokens, 0, []) == (IndianArena17, 0, 17)
  {
    assert [] + [Node(None, [])] == IndianArena0;
    IndianStep0();
    IndianStep1();
    IndianStep2();
    IndianStep3();
    IndianStep9();
    IndianStep10();
    IndianStep11();
    IndianStep12();
    IndianStep16();
    IndianStep17();
  }

  lemma IndianArenaValid()
    ensures Valid(IndianArena17)
  {
  }

  lemma IndianPathsAt9()
    ensures Paths(IndianArena17, 9, ["d4", "Nf6", "c4"]) == [["d4", "Nf6", "c4", "g6"]]
  {
    IndianArenaValid();
    assert IndianArena17[9] == Node(Some("g6"), []);
    assert Extend(IndianArena17, 9, ["d4", "Nf6", "c4"]) == ["d4", "Nf6", "c4", "g6"];
  }

  lemma IndianPathsAt7()
    ensures Paths(IndianArena17, 7, ["d4", "Nf6", "c4"]) == [["d4", "Nf6", "c4", "e6"]]
  {
    IndianArenaValid();
    assert IndianArena17[7] == Node(Some("e6"), []);
    assert Extend(IndianArena17, 7, ["d4", "Nf6", "c4"]) == ["d4", "Nf6", "c4", "e6"];
  }

  lemma IndianPathsAt6()
    ensures Paths(IndianArena17, 6, ["d4", "Nf6"]) == [["d4", "Nf6", "c4", "e6"], ["d4", "Nf6", "c4", "g6"]]
  {
    IndianArenaValid();
    assert IndianArena17[6] == Node(Some("c4"), [7, 9]);
    assert Extend(IndianArena17, 6, ["d4", "Nf6"]) == ["d4", "Nf6", "c4"];
    IndianPathsAt9();
    IndianPathsAt7();
    assert PathsOfChildren(IndianArena17, 6, [9], ["d4", "Nf6", "c4"]) == [["d4", "Nf6", "c4", "g6"]];
    assert [9] == [7, 9][1..];
    assert PathsOfChildren(IndianArena17, 6, [7, 9], ["d4", "Nf6", "c4"]) == Paths(IndianArena17, 7, ["d4", "Nf6", "c4"]) + PathsOfChildren(IndianArena17, 6, [9], ["d4", "Nf6", "c4"]);
    assert PathsOfChildren(IndianArena17, 6, [7, 9], ["d4", "Nf6", "c4"]) == [["d4", "Nf6", "c4", "e6"], ["d4", "Nf6", "c4", "g6"]];
  }

  lemma IndianPathsAt5()
    ensures Paths(IndianArena17, 5, ["d4", "d5"]) == [["d4", "d5", "c4"]]
  {
    IndianArenaValid();
    assert IndianArena17[5] == Node(Some("c4"), []);
    assert Extend(IndianArena17, 5, ["d4", "d5"]) == ["d4", "d5", "c4"];
  }

  lemma IndianPathsAt4()
    ensures Paths(IndianArena17, 4, ["d4"]) == [["d4", "d5", "c4"]]
  {
    IndianArenaValid();
    assert IndianArena17[4] == Node(Some("d5"), [5]);
    assert Extend(IndianArena17, 4, ["d4"]) == ["d4", "d5"];
    IndianPathsAt5();
    assert PathsOfChildren(IndianArena17, 4, [5], ["d4", "d5"]) == [["d4", "d5", "c4"]];
  }

  lemma IndianPathsAt2()
    ensures Paths(IndianArena17, 2, ["d4"]) == [["d4", "Nf6", "c4", "e6"], ["d4", "Nf6", "c4", "g6"]]
  {
    IndianArenaValid();
    assert IndianArena17[2] == Node(Some("Nf6"), [6]);
    assert Extend(IndianArena17, 2, ["d4"]) == ["d4", "Nf6"];
    IndianPathsAt6();
    assert PathsOfChildren(IndianArena17, 2, [6], ["d4", "Nf6"]) == [["d4", "Nf6", "c4", "e6"], ["d4", "Nf6", "c4", "g6"]];
  }

  lemma IndianChildrenOf1()
    ensures IndianArena17[1] == Node(Some("d4"), [2, 4])
    ensures PathsOfChildren(IndianArena17, 1, [2, 4], ["d4"]) == [["d4", "Nf6", "c4", "e6"], ["d4", "Nf6", "c4", "g6"], ["d4", "d5", "c4"]]
  {
    IndianArenaValid();
    IndianLastChildOf1();
    IndianPathsAt2();
    assert [4] == [2, 4][1..];
  }

  lemma IndianLastChildOf1()
    ensures Valid(IndianArena17) && |IndianArena17| > 4
    ensures PathsOfChildren(IndianArena17, 1, [4], ["d4"]) == [["d4", "d5", "c4"]]
  {
    IndianArenaValid();
    IndianPathsAt4();
    assert PathsOfChildren(IndianArena17, 1, [], ["d4"]) == [];
  }

  lemma IndianPathsAt1()
    ensures Paths(IndianArena17, 1, []) == [["d4", "Nf6", "c4", "e6"], ["d4", "Nf6", "c4", "g6"], ["d4", "d5", "c4"]]
  {
    IndianArenaValid();
    IndianChildrenOf1();
    assert Extend(IndianArena17, 1, []) == ["d4"];
  }

  lemma IndianPathsAt0()
    ensures Paths(IndianArena17, 0, []) == [["d4", "Nf6", "c4", "e6"], ["d4", "Nf6", "c4", "g6"], ["d4", "d5", "c4"]]
  {
    IndianArenaValid();
    assert IndianArena17[0] == Node(None, [1]);
    assert Extend(IndianArena17, 0, []) == [];
    IndianPathsAt1();
    assert PathsOfChildren(IndianArena17, 0, [1], []) == [["d4", "Nf6", "c4", "e6"], ["d4", "Nf6", "c4", "g6"], ["d4", "d5", "c4"]];
  }

  /** The tree built from "1. d4 Nf6 (1... d5 2. c4) 2. c4 e6 (2... g6) 1/2-1/2" yields these lines, in this order. */
  lemma IndianLines()
    ensures var r := ParseFrom(SampleMoveNumber, IndianTokens, 0, []);
      Valid(r.0) && r.1 < |r.0| && Paths(r.0, r.1, []) == [["d4", "Nf6", "c4", "e6"], ["d4", "Nf6", "c4", "g6"], ["d4", "d5", "c4"]]
  {
    IndianParseFrom0();
    IndianArenaValid();
    IndianPathsAt0();
  }

  /** The pipeline turns "1. d4 Nf6 (1... d5 2. c4) 2. c4 e6 (2... g6) 1/2-1/2" into these lines; titled as "Indian Defenses #1" onwards. */
  lemma IndianPipeline()
    ensures PgnToLines.ExtractedLines(SamplePatterns, IndianText) == [["d4", "Nf6", "c4", "e6"], ["d4", "Nf6", "c4", "g6"], ["d4", "d5", "c4"]]
    ensures PgnToLines.LineTitle(PgnToLines.BaseTitle(Some("Indian Defenses")), 1) == "Indian Defenses #1"
  {
    IndianPrep();
    IndianScan();
    assert IndianTokens == ["1.", "d4", "Nf6", "(", "1...", "d5", "2.", "c4", ")", "2.", "c4", "e6", "(", "2...", "g6", ")", "1/2-1/2"];
    IndianLines();
  }

  /** `parse_pgn_to_lines` on "1. d4 Nf6 (1... d5 2. c4) 2. c4 e6 (2... g6) 1/2-1/2" with title "Indian Defenses" and no ply limit, as the test oracle expects it. */
  method IndianOracle() returns (lines: seq<PgnToLines.Line>)
    ensures lines == [PgnToLines.Line("Indian Defenses #1", ["d4", "Nf6", "c4", "e6"]), PgnToLines.Line("Indian Defenses #2", ["d4", "Nf6", "c4", "g6"]), PgnToLines.Line("Indian Defenses #3", ["d4", "d5", "c4"])]
  {
    lines := PgnToLines.ParsePgnToLines(SamplePatterns, IndianText, None, Some("Indian Defenses"));
    IndianPipeline();
    assert PgnToLines.LineTitle("Indian Defenses", 1) == "Indian Defenses #1";
    assert PgnToLines.LineTitle("Indian Defenses", 2) == "Indian Defenses #2";
    assert PgnToLines.LineTitle("Indian Defenses", 3) == "Indian Defenses #3";
  }

}
