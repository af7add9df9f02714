# anki-chess: PGN to drill lines, and the review controller

This project models the core of anki-chess in Dafny. The first part is the
pipeline in `parser.py` that turns a PGN opening repertoire into drillable lines:

- **Clean-up and tokenizing** (`Tokenizer`). Header lines, brace commentary,
  semicolon commentary and numeric annotation glyphs are removed in that order.
  Then a single character-by-character scan with a buffer splits the text into
  move tokens and parenthesis markers. The scan is the method `Tokenize`. It is
  proved equal to `Lex`, a reference definition of the tokens by maximal runs.
- **Tree building** (`MoveTree`). `_parse_moves` builds a tree of `Node`s. A move
  becomes the last child of the current parent and is then pushed. A
  parenthesised variation is parsed recursively, and its root's children are
  appended to the anchor: the parent one level below the top of the stack. The
  heap of Python `Node` objects is modelled as an arena, a sequence of nodes
  whose children are indices. A node is always created after its parent, so
  child indices point forward (`Valid`). The method `ParseMoves` keeps Python's
  while loop, its `continue`s and its early return on `)`. It is proved equal to
  the recursive function `ParseFrom`/`ParseLoop`. The index where the scan
  stops is characterised by `MatchingEnd`: just past the first unmatched `)`.
- **Line extraction** (`LineExtractor`). `_extract_lines_dfs` walks the tree
  depth-first and emits the label sequence of every root-to-leaf path that has
  at least one move. The method `ExtractLinesDfs` is proved to append exactly
  `Paths`. `Paths` is then proved to spell, in order, the labels of the tree's
  leaf paths, and the leaf paths are proved sound and complete.
- **Assembly** (`PgnToLines`). Each sequence becomes a `Line` titled
  "<base> #k" (k counts from 1), cut to `max_plies` moves when that is given.

The second part is the review controller in `controller.py` (`Controller`).
It has a mock card, and a mock reviewer that records each answer and marks the
card `ease_<n>`. The controller maps `fail_line` to ease 1 with reply "failed",
`pass_line` to ease 3 with reply "passed", and anything else to "ignored" with
nothing changed. These are classes whose methods update their fields in place.

`Decimal` renders integers in decimal for the f-strings of both files.
`TokenizerExamples` and `PipelineExamples` work the repository's test oracles
through the model, from the text to the final `Line`s.

## Model

| member | source | states |
|---|---|---|
| Decimal.NatToString | src/anki_chess/pgn2anki/parser.py:181 | the decimal text of a natural is a non-empty digit string without a leading zero unless the number is 0 |
| Decimal.NatToStringRoundTrip | src/anki_chess/pgn2anki/parser.py:181 | reading the digits back gives the original number |
| Decimal.NatToStringInjective | src/anki_chess/pgn2anki/parser.py:181 | different numbers have different decimal texts |
| Decimal.IntToString | src/anki_chess/addon/controller.py:17 | an integer's text starts with '-' exactly when it is negative, and the rest is the decimal text of its magnitude |
| Decimal.IntToStringInjective | src/anki_chess/addon/controller.py:17 | different integers have different decimal texts |
| Tokenizer.IsWhitespace | src/anki_chess/pgn2anki/parser.py:31-33 | space, tab, newline and carriage return are whitespace, and no digit, '$' or ';' is |
| Tokenizer.IsParenthesis | src/anki_chess/pgn2anki/parser.py:41-43 | no parenthesis is whitespace, so the order in which the scan tests the two classes does not matter |
| Tokenizer.TrimLeft | src/anki_chess/pgn2anki/parser.py:38 | the left strip is empty exactly when the text is all whitespace, and otherwise starts with a non-space |
| Tokenizer.TrimRight | src/anki_chess/pgn2anki/parser.py:38 | the right strip is a prefix of the text, empty exactly when the text is all whitespace, and otherwise ends with a non-space |
| Tokenizer.Strip | src/anki_chess/pgn2anki/parser.py:36-38 | `strip()` gives the empty string exactly on all-whitespace text, and otherwise neither end is whitespace |
| Tokenizer.TrimLeftSuffix | src/anki_chess/pgn2anki/parser.py:38 | the left strip is a suffix of the text, and everything it drops is whitespace |
| Tokenizer.TrimRightPrefix | src/anki_chess/pgn2anki/parser.py:38 | the right strip is a prefix of the text, and everything it drops is whitespace |
| Tokenizer.StripMiddle | src/anki_chess/pgn2anki/parser.py:38 | `strip()` is one contiguous piece of the text, with only whitespace before and after it |
| Tokenizer.ContainsNonWhitespace | src/anki_chess/pgn2anki/parser.py:36-38 | the buffer contains non-whitespace exactly when not all of its characters are whitespace |
| Tokenizer.StripWord | src/anki_chess/pgn2anki/parser.py:16-27 | a buffer holding no whitespace or parenthesis is unchanged by `strip()`, and it contains non-whitespace exactly when it is non-empty |
| Tokenizer.DigitRunLength | src/anki_chess/pgn2anki/parser.py:65 | the length of the maximal run of digits at the start of the text |
| Tokenizer.RemoveGlyphs | src/anki_chess/pgn2anki/parser.py:56-65 | a `$<digits>` glyph at the front becomes one space, and any other first character is kept |
| Tokenizer.DigitRunLengthOf | src/anki_chess/pgn2anki/parser.py:65 | the digit run is exactly `k` long when `k` digits are followed by a non-digit or the end |
| Tokenizer.RemoveGlyphAtHead | src/anki_chess/pgn2anki/parser.py:65 | a glyph at the front becomes one space, however many digits it has, and the text after its digits is cleaned on |
| Tokenizer.RemoveGlyphOne | src/anki_chess/pgn2anki/parser.py:56-65 | after text without '$', the '$' and all of the digits after it become one space; nothing before it changes and the text after the digits is cleaned on |
| Tokenizer.RemoveGlyphsLeavesNoGlyph | src/anki_chess/pgn2anki/parser.py:65 | after glyph removal no '$' is followed by a digit |
| Tokenizer.RemoveGlyphsWithoutDollar | src/anki_chess/pgn2anki/parser.py:65 | text without '$' is left unchanged |
| Tokenizer.GlyphsKeepAbsent | src/anki_chess/pgn2anki/parser.py:65 | glyph removal introduces no character other than a space |
| Tokenizer.LineRestLength | src/anki_chess/pgn2anki/parser.py:77 | the length of the run of non-newline characters at the start of the text |
| Tokenizer.LineRestLengthOf | src/anki_chess/pgn2anki/parser.py:77 | the line rest is exactly `k` long when `k` non-newlines are followed by a newline or the end |
| Tokenizer.RemoveSemicolonComments | src/anki_chess/pgn2anki/parser.py:68-77 | a ';' at the front becomes one space, and any other first character is kept |
| Tokenizer.RemoveSemicolonCommentsSpec | src/anki_chess/pgn2anki/parser.py:77 | afterwards no ';' remains, and every newline is kept |
| Tokenizer.RemoveSemicolonCommentsWithoutSemicolon | src/anki_chess/pgn2anki/parser.py:77 | text without ';' is left unchanged |
| Tokenizer.RemoveSemicolonCommentLine | src/anki_chess/pgn2anki/parser.py:68-77 | after text without ';', a comment from ';' up to the end of its line becomes one space; the newline and what follows are kept and cleaned on |
| Tokenizer.Prep | src/anki_chess/pgn2anki/parser.py:46-53 | the cleaned text holds no ';' and no `$<digit>` glyph |
| Tokenizer.WordLength | src/anki_chess/pgn2anki/parser.py:24-25 | the length of the maximal run of buffer characters at the start of the text |
| Tokenizer.Tokenize | src/anki_chess/pgn2anki/parser.py:10-28 | the buffered scan emits exactly `Lex` of the cleaned text |
| Tokenizer.FlushBuffer | src/anki_chess/pgn2anki/parser.py:16-27 | a buffer of word characters contributes its stripped text exactly when it is non-empty |
| Tokenizer.ScanParenthesis | src/anki_chess/pgn2anki/parser.py:15-19 | if the tokens so far plus those still due from the rest of the text are all of `Lex` of the text, they remain so after a parenthesis flushes the buffer and adds its own marker |
| Tokenizer.ScanWhitespace | src/anki_chess/pgn2anki/parser.py:20-23 | the same equation holds after a whitespace character flushes the buffer |
| Tokenizer.ScanWordChar | src/anki_chess/pgn2anki/parser.py:24-25 | the same equation holds after any other character is appended to the buffer, which stays free of whitespace and parentheses |
| Tokenizer.ScanEnd | src/anki_chess/pgn2anki/parser.py:26-27 | at the end of the text, the final flush completes `Lex` of the text |
| Tokenizer.LexTokensWellFormed | src/anki_chess/pgn2anki/parser.py:14-27 | every token is a lone parenthesis or a non-empty run with no whitespace or parenthesis |
| Tokenizer.LexConcat | src/anki_chess/pgn2anki/parser.py:14-27 | the tokens, concatenated, are the text with its whitespace removed: nothing is lost, reordered or invented |
| Tokenizer.LexEmptyIffWhitespace | src/anki_chess/pgn2anki/parser.py:14-27 | there are no tokens exactly when the text is all whitespace |
| Tokenizer.LexJoinSpaces | src/anki_chess/pgn2anki/parser.py:10-28 | well-formed tokens written out with one space after each scan back to exactly those tokens |
| Tokenizer.Retokenize | src/anki_chess/pgn2anki/parser.py:10-28 | scanning (`Lex`, the step after clean-up) the tokens joined by spaces gives the same tokens again |
| MoveTree.IsGameResult | src/anki_chess/pgn2anki/parser.py:109-111 | every game result is a non-empty token with no whitespace or parenthesis, so the scan can deliver it whole |
| MoveTree.AddMove | src/anki_chess/pgn2anki/parser.py:126-130 | a new node labelled with the move becomes the last child of the top of the stack and is pushed; every other node is unchanged; validity and labelling are preserved |
| MoveTree.Attach | src/anki_chess/pgn2anki/parser.py:142 | the anchor's child list is extended by the variation root's children, in order; every other node is unchanged |
| MoveTree.Anchor | src/anki_chess/pgn2anki/parser.py:136-140 | the anchor is the second entry from the top when the stack has two or more entries, and the only entry otherwise |
| MoveTree.ParseFrom | src/anki_chess/pgn2anki/parser.py:114-154 | a fresh unlabelled root is added after the existing nodes, which are kept; the stop index is past `i` when tokens remain; validity and labelling are preserved |
| MoveTree.ParseLoop | src/anki_chess/pgn2anki/parser.py:133-154 | nodes off the stack are unchanged, labels are never changed, child lists only grow, and the stop index is in range |
| MoveTree.ParseMoves | src/anki_chess/pgn2anki/parser.py:114-154 | the while loop with its recursion on `(` and its return on `)` computes exactly `ParseFrom` |
| MoveTree.ParseFromEnd | src/anki_chess/pgn2anki/parser.py:141-146 | parsing stops just past the first `)` not closed from `i` on, or at the end: `MatchingEnd` |
| MoveTree.MatchingEndAfterVariation | src/anki_chess/pgn2anki/parser.py:141-143 | after a `(`, the level's stop index is the stop index reached from the end of the variation |
| MoveTree.MatchingEndAtLeast | src/anki_chess/pgn2anki/parser.py:133-154 | the stop index never falls before `i`, and lies past `i` and within the tokens when tokens remain |
| MoveTree.MatchingEndFirstClose | src/anki_chess/pgn2anki/parser.py:145-146 | with no parenthesis before the first `)` at `k`, the stop index is `k + 1` |
| MoveTree.ParseFromIgnoresLater | src/anki_chess/pgn2anki/parser.py:133-154 | tokens after the stop index do not affect the result |
| MoveTree.ParseLoopIgnoresLater | src/anki_chess/pgn2anki/parser.py:133-154 | tokens after the stop index do not affect the loop's result |
| MoveTree.VariationIgnoresLater | src/anki_chess/pgn2anki/parser.py:135-144 | a variation and what follows it up to the stop index do not read any later token |
| MoveTree.ParseFromOnlyReadsPrefix | src/anki_chess/pgn2anki/parser.py:133-154 | parsing the tokens up to the stop index gives the same result |
| MoveTree.AddMoveKeepsShape | src/anki_chess/pgn2anki/parser.py:126-130 | adding a move keeps every child list strictly increasing, and lets two nodes share a child only when the later one is unlabelled |
| MoveTree.AttachKeepsIncreasing | src/anki_chess/pgn2anki/parser.py:142 | extending the anchor's child list by larger, increasing kids keeps every child list strictly increasing |
| MoveTree.AttachKeepsSharing | src/anki_chess/pgn2anki/parser.py:142 | handing an unlabelled variation root's children to an earlier anchor lets only that root share them with the anchor |
| MoveTree.AttachVariationShape | src/anki_chess/pgn2anki/parser.py:142 | attaching a variation keeps the arena forward-linked, its child lists increasing and its sharing confined to unlabelled roots |
| MoveTree.ParseFromShape | src/anki_chess/pgn2anki/parser.py:114-154 | the tree `_parse_moves` builds has strictly increasing child lists, and a node shared by two parents is shared only with an unlabelled variation root |
| MoveTree.ParseLoopShape | src/anki_chess/pgn2anki/parser.py:133-154 | each loop step keeps the child lists increasing and the sharing confined to unlabelled roots |
| MoveTree.ParseVariationShape | src/anki_chess/pgn2anki/parser.py:135-144 | a variation, parsed and attached to its anchor, keeps both shape properties |
| MoveTree.ParseFromSize | src/anki_chess/pgn2anki/parser.py:123-153 | the number of nodes created is one root plus one per move token and per `(`; move numbers, results and `)` create none |
| LineExtractor.Extend | src/anki_chess/pgn2anki/parser.py:158-159 | the prefix is kept and grows by at most one move: it grows exactly when the node has a label, and the move added is that label |
| LineExtractor.Paths | src/anki_chess/pgn2anki/parser.py:157-165 | every emitted line is non-empty and starts with the prefix it was given |
| LineExtractor.PathsOfChildren | src/anki_chess/pgn2anki/parser.py:164-165 | every line emitted for the children is non-empty and starts with the node's prefix |
| LineExtractor.ExtractLinesDfs | src/anki_chess/pgn2anki/parser.py:157-165 | the depth-first walk appends exactly `Paths` to the output list, after its earlier entries |
| LineExtractor.PathsOfChildrenStep | src/anki_chess/pgn2anki/parser.py:164-165 | each iteration over the children appends one child's lines, in order |
| LineExtractor.LeafPathsSound | src/anki_chess/pgn2anki/parser.py:157-165 | every enumerated path runs from the node along child links to a leaf |
| LineExtractor.LeafPathsComplete | src/anki_chess/pgn2anki/parser.py:157-165 | every path from the node along child links to a leaf is enumerated |
| LineExtractor.LeafPathsDistinct | src/anki_chess/pgn2anki/parser.py:157-165 | no leaf path is enumerated twice |
| LineExtractor.LeafPathsOfChildrenDistinct | src/anki_chess/pgn2anki/parser.py:164-165 | the paths enumerated through increasing children start at the parent, go on to one of those children, and are pairwise different |
| LineExtractor.PathAbove | src/anki_chess/pgn2anki/parser.py:157-165 | along a path every node after the first is labelled and lies after the start node |
| LineExtractor.ParentsAgree | src/anki_chess/pgn2anki/parser.py:157-165 | two paths of two or more nodes from the start that end at the same node pass through the same parent just before it |
| LineExtractor.PathsToOneNode | src/anki_chess/pgn2anki/parser.py:157-165 | two paths from the start that end at the same node are the same path |
| LineExtractor.LeafPathsEndApart | src/anki_chess/pgn2anki/parser.py:157-165 | in a tree shaped as `_parse_moves` builds it, different leaf paths end at different leaves |
| LineExtractor.PathsSpellLeafPaths | src/anki_chess/pgn2anki/parser.py:157-165 | the i-th emitted line is the prefix followed by the move labels along the i-th leaf path |
| PgnToLines.BaseTitle | src/anki_chess/pgn2anki/parser.py:178 | the base title is never empty: a given non-empty title is kept, and a missing or empty one becomes "Repertoire Line" |
| PgnToLines.LineTitle | src/anki_chess/pgn2anki/parser.py:181 | the title is longer than its base plus " #", starts with them, and ends in decimal digits |
| PgnToLines.LineTitleFormat | src/anki_chess/pgn2anki/parser.py:181 | a line's title is the base, then " #", then the digits that read back as its index |
| PgnToLines.LineTitlesDistinct | src/anki_chess/pgn2anki/parser.py:179-181 | lines with different indices have different titles |
| PgnToLines.Truncate | src/anki_chess/pgn2anki/parser.py:180 | the kept moves are a prefix of the line: all of them without a limit, otherwise the first `max_plies` |
| PgnToLines.AssembleLines | src/anki_chess/pgn2anki/parser.py:175-182 | one `Line` per sequence, in order; line k is titled "<base> #k" and holds its sequence cut to `max_plies` |
| PgnToLines.ParsePgnToLines | src/anki_chess/pgn2anki/parser.py:168-182 | the titled, cut lines of exactly the extracted label sequences, in depth-first order |
| PgnToLines.ExtractedLinesSpellLeafPaths | src/anki_chess/pgn2anki/parser.py:171-174 | when the tree has a move, the extracted sequences are the move labels of the tree's leaf paths, one for each, in order |
| PgnToLines.ExtractedLinesEndApart | src/anki_chess/pgn2anki/parser.py:171-174 | the parsed tree has the shape `_parse_moves` builds, so the leaf paths behind the extracted lines end at pairwise different leaves: one line per leaf |
| PgnToLines.ExtractedLineIsLeafPath | src/anki_chess/pgn2anki/parser.py:171-174 | each extracted sequence spells some leaf path of the tree built from the tokens |
| PgnToLines.BlankTextNoLines | src/anki_chess/pgn2anki/parser.py:176-177 | a text that is blank after clean-up yields no lines |
| Controller.MockCard.constructor | src/anki_chess/addon/controller.py:4-7 | a card holds the given id and last action |
| Controller.EaseAction | src/anki_chess/addon/controller.py:17 | the action is "ease_" followed by the decimal text of the ease; with `Controller.EaseActionInjective`, different eases give different actions |
| Controller.EaseActionInjective | src/anki_chess/addon/controller.py:17 | different eases give different card actions, so the action names the answer given |
| Controller.MockReviewer.constructor | src/anki_chess/addon/controller.py:11-13 | a fresh reviewer holds a new card 42 with no last action, and has recorded no answers |
| Controller.MockReviewer.AnswerCard | src/anki_chess/addon/controller.py:15-17 | the answer is appended to the earlier ones, and the same card is marked "ease_<n>" with its id kept; the card always shows the latest answer |
| Controller.ReviewerController.constructor | src/anki_chess/addon/controller.py:21-22 | the controller keeps the reviewer it is given |
| Controller.ReviewerController.HandleCommand | src/anki_chess/addon/controller.py:24-31 | `fail_line` answers ease 1 with reply "failed", `pass_line` ease 3 with "passed", and anything else changes nothing and replies "ignored"; answers are only appended, at most one per command |
| Controller.FreshReviewerCommand | src/anki_chess/tests/test_addon_controller.py:4-27 | on a fresh reviewer each command gives the reply, the recorded answers and the last card action that the controller's tests expect |
| TokenizerExamples.BlankTextsHaveNoTokens | src/anki_chess/tests/test_parser_helpers.py:4-13 | the empty text and a text of blanks have no tokens |
| TokenizerExamples.CharacterClasses | src/anki_chess/tests/test_parser_helpers.py:72-86 | space and newline are whitespace and 'e' is not; "e4" has non-whitespace and "   " has none; both parentheses are parentheses and 'e' is not |
| TokenizerExamples.CommentStep | src/anki_chess/pgn2anki/parser.py:77 | the comment ";semi" of "1. e4 $1 ;semi\n1-0" becomes one space and the newline is kept |
| TokenizerExamples.GlyphStep | src/anki_chess/pgn2anki/parser.py:65 | the glyph "$1" of the result becomes one space |
| TokenizerExamples.CommentAndGlyphPrep | src/anki_chess/tests/test_parser_helpers.py:63-69 | clean-up turns "1. e4 $1 ;semi\n1-0" into "1. e4    \n1-0": "$1" and "semi" are gone and the rest is kept |
| TokenizerExamples.ParenthesesScan | src/anki_chess/tests/test_parser_helpers.py:22-27 | "e4 ( e5 )" scans to e4, (, e5, ) |
| TokenizerExamples.RuyLopezScan | src/anki_chess/tests/test_parser_basic.py:5-7 | the Ruy Lopez text scans to its ten tokens |
| TokenizerExamples.IndianScan | src/anki_chess/tests/test_parser_basic.py:35-37 | the Indian Defenses text scans to its seventeen tokens, parentheses included |
| PipelineExamples.RuyLopezLines | src/anki_chess/pgn2anki/parser.py:114-165 | the Ruy Lopez tokens build a tree with a single line e4 e5 Nf3 Nc6 Bb5 a6 |
| PipelineExamples.IndianLines | src/anki_chess/pgn2anki/parser.py:114-165 | the Indian Defenses tokens build a tree with the lines d4 Nf6 c4 e6, d4 Nf6 c4 g6 and d4 d5 c4 |
| PipelineExamples.RuyLopezPipeline | src/anki_chess/pgn2anki/parser.py:168-174 | the pipeline extracts exactly the one Ruy Lopez line from the text |
| PipelineExamples.IndianPipeline | src/anki_chess/pgn2anki/parser.py:168-174 | the pipeline extracts exactly the three Indian Defenses lines from the text, in that order |
| PipelineExamples.RuyLopezOracle | src/anki_chess/tests/test_parser_basic.py:5-32 | titled "Ruy Lopez", the text gives one line, "Ruy Lopez #1", whose moves start e4 e5 Nf3 Nc6 |
| PipelineExamples.IndianOracle | src/anki_chess/tests/test_parser_basic.py:35-54 | titled "Indian Defenses", the text gives three lines, each starting with d4 |

## Left out

- The header, brace-comment and move-number regular expressions come from a constants module that is not part of this model. They are uninterpreted fields of `Tokenizer.Patterns`. The examples use `SamplePatterns`: identity clean-up (the example texts have no headers or braces), and `SampleMoveNumber` (one or more digits, then zero or more periods).
- `re.match` anchoring and the `re.M` flag of header removal belong to those patterns and are not modelled.
- Tokenizer.RemoveGlyphs: `\d` is modelled as the ASCII digits 0-9, though Python's `\d` also matches other Unicode decimal digits.
- Python `str.isspace` is written out as the fixed set of code points it accepts. No other Unicode property is modelled.
- Nodes are values in an arena, not heap objects. A node held by two lists is one index in both: a variation root keeps the children it hands to its anchor (parser.py:142), which `MoveTree.SharedOnlyByRoots` describes. Only trees built forward (`Valid`) are considered, and every tree `_parse_moves` builds is one.
- Cycle skipping during extraction is not in `_extract_lines_dfs`. The model follows the code, and arenas (as `Valid` requires) cannot hold cycles.
- PgnToLines.Truncate: `max_plies` is a natural number. A negative `max_plies`, which Python slices from the end, is not modelled.
- MoveTree.MatchingEndFirstClose: stopping at `k + 1` holds only when no `(` opens before the first `)`. With nested variations `MatchingEnd` gives the exact index.
- `ReviewerController` is typed with `MockReviewer`. Any other reviewer object with `_answerCard` is not modelled.
- The CSV emitter, both command-line front ends, the JavaScript bridge handler and the package `__init__` are not part of this model. They are file I/O, argument parsing and calls into the Anki host.
- The helper tests of `_tokenize_flush_buffer` and `_tokenize_step` refer to functions that `parser.py` does not define. Their effect is covered by `Tokenizer.FlushBuffer`, `Tokenizer.ScanParenthesis`, `Tokenizer.ScanWhitespace`, `Tokenizer.ScanWordChar` and `Tokenizer.ScanEnd`.
- The prep test (`[Event ...]`, `{comment}`) depends on the unmodelled header and comment patterns. Only its glyph and semicolon parts are covered: `TokenizerExamples.CommentAndGlyphPrep` cleans the same text without the header and the brace comment.
- Python's recursion limit (about 1000 frames) is not modelled. `_parse_moves` recurses once per nested `(` (parser.py:141) and `_extract_lines_dfs` once per ply of depth (parser.py:165), so very deep input raises `RecursionError` there. `MoveTree.ParseFrom`, `MoveTree.ParseMoves`, `LineExtractor.Paths` and `LineExtractor.ExtractLinesDfs` always return.
