/**
 * The tree builder: `_parse_moves` turns a token sequence into a tree of moves.
 * Python's `Node` objects live on the heap and are mutated in place (a move is
 * appended to the current parent's children, a variation's alternatives are
 * appended to an interior anchor). The model keeps them in an arena: a sequence
 * of nodes addressed by index, each node holding the indices of its children.
 * A node is always created after its parent, so every child index is larger
 * than its parent's.
 */
module MoveTree {

  import opened Wrappers
  import Tokenizer

  /** `Node`: an optional move label (absent only for a root) and the ordered child indices. */
  datatype Node = Node(san: Option<string>, children: seq<nat>)

  type Arena = seq<Node>

  /** Every child index points forward, into the arena. */
  ghost predicate Valid(a: Arena)
  {
    forall k, m :: 0 <= k < |a| && 0 <= m < |a[k].children| ==> k < a[k].children[m] < |a|
  }

  /** Every node that is some node's child carries a move label. */
  ghost predicate ChildrenLabeled(a: Arena)
  {
    forall k, m :: 0 <= k < |a| && 0 <= m < |a[k].children| && a[k].children[m] < |a| ==>
      a[a[k].children[m]].san.Some?
  }

  /** Every child list is strictly increasing: no parent lists a child twice. */
  ghost predicate Increasing(a: Arena)
  {
    forall k, m, m' :: 0 <= k < |a| && 0 <= m < m' < |a[k].children| ==> a[k].children[m] < a[k].children[m']
  }

  /**
   * When two nodes list the same child, the later of the two is unlabelled. In a
   * parsed arena that later node is a variation root, whose children were also
   * appended to its anchor; it is nobody's child, so it is never on a path from
   * the root.
   */
  ghost predicate SharedOnlyByRoots(a: Arena)
  {
    forall x, y, m, m' ::
      0 <= x < y < |a| && 0 <= m < |a[x].children| && 0 <= m' < |a[y].children| &&
      a[x].children[m] == a[y].children[m']
      ==> a[y].san.None?
  }

  /** The stack of current parents: never empty, and every entry a node of the arena. */
  ghost predicate StackIn(stack: seq<nat>, a: Arena)
  {
    |stack| > 0 && forall k :: 0 <= k < |stack| ==> stack[k] < |a|
  }

  /**
   * `_is_token_a_game_result`: one of the four result markers. Each is a
   * single word to the tokenizer, so it arrives as one token, and none is a
   * parenthesis.
   */
  predicate IsGameResult(tok: string)
    ensures IsGameResult(tok) ==> tok != [] && Tokenizer.IsWord(tok)
  {
    tok == "1-0" || tok == "0-1" || tok == "1/2-1/2" || tok == "*"
  }

  /** A token that `_parse_moves` turns into a move node. */
  predicate IsMove(isMoveNumber: string -> bool, tok: string)
  {
    tok != "(" && tok != ")" && !isMoveNumber(tok) && !IsGameResult(tok)
  }

  /**
   * `add_move`: a new node labelled `san` becomes the last child of the stack's
   * top and is pushed; nothing else changes.
   */
  function AddMove(a: Arena, stack: seq<nat>, san: string): (r: (Arena, seq<nat>))
    requires StackIn(stack, a)
    ensures var top := stack[|stack| - 1];
      |r.0| == |a| + 1 && r.0[|a|] == Node(Some(san), []) &&
      r.0[top] == a[top].(children := a[top].children + [|a|]) &&
      (forall k :: 0 <= k < |a| && k != top ==> r.0[k] == a[k]) &&
      r.1 == stack + [|a|] && StackIn(r.1, r.0)
    ensures Valid(a) ==> Valid(r.0)
    ensures Valid(a) && ChildrenLabeled(a) ==> ChildrenLabeled(r.0)
  {
    var top := stack[|stack| - 1];
    (a[top := a[top].(children := a[top].children + [|a|])] + [Node(Some(san), [])], stack + [|a|])
  }

  /**
   * `anchor.children.extend(kids)`: the anchor's child list grows by `kids`, in
   * order; nothing else changes.
   */
  function Attach(a: Arena, anchor: nat, kids: seq<nat>): (r: Arena)
    requires anchor < |a|
    ensures |r| == |a|
    ensures r[anchor] == a[anchor].(children := a[anchor].children + kids)
    ensures forall k :: 0 <= k < |a| && k != anchor ==> r[k] == a[k]
    ensures Valid(a) && (forall m :: 0 <= m < |kids| ==> anchor < kids[m] < |a|) ==> Valid(r)
    ensures ChildrenLabeled(a) && (forall m :: 0 <= m < |kids| ==> kids[m] < |a| ==> a[kids[m]].san.Some?)
      ==> ChildrenLabeled(r)
  {
    a[anchor := a[anchor].(children := a[anchor].children + kids)]
  }

  /** The anchor of a variation: the parent one level below the top, or the root when only it is on the stack. */
  function Anchor(stack: seq<nat>): (n: nat)
    requires |stack| > 0
    ensures n in stack
    ensures |stack| > 1 ==> n == stack[|stack| - 2]
  {
    if |stack| > 1 then stack[|stack| - 2] else stack[|stack| - 1]
  }

  /**
   * `_parse_moves(tokens, i)` as a function: a fresh root is appended to the
   * arena and the scan runs from `i`. The result is the new arena, the root's
   * index and the index where scanning stopped. Nodes already in the arena are
   * left as they were.
   */
  function ParseFrom(isMoveNumber: string -> bool, tokens: seq<string>, i: nat, a: Arena): (r: (Arena, nat, nat))
    ensures r.1 == |a| && |r.0| > |a| && r.0[..|a|] == a
    ensures r.0[|a|].san == None
    ensures i <= r.2 && (i < |tokens| ==> i < r.2 <= |tokens|) && (i >= |tokens| ==> r.2 == i)
    ensures Valid(a) ==> Valid(r.0)
    ensures Valid(a) && ChildrenLabeled(a) ==> ChildrenLabeled(r.0)
    decreases |tokens| - i, 1
  {
    var (a', j) := ParseLoop(isMoveNumber, tokens, i, a + [Node(None, [])], [|a|]);
    assert forall k :: 0 <= k < |a| ==> a'[k] == a[k];
    (a', |a|, j)
  }

  /** The `while i < n` loop of `_parse_moves`, with its stack of current parents. */
  function ParseLoop(isMoveNumber: string -> bool, tokens: seq<string>, i: nat, a: Arena, stack: seq<nat>): (r: (Arena, nat))
    requires StackIn(stack, a)
    ensures |r.0| >= |a|
    ensures forall k :: 0 <= k < |a| && k !in stack ==> r.0[k] == a[k]
    ensures forall k :: 0 <= k < |a| ==> r.0[k].san == a[k].san && a[k].children <= r.0[k].children
    ensures i <= r.1 && (i < |tokens| ==> i < r.1 <= |tokens|) && (i >= |tokens| ==> r.1 == i)
    ensures Valid(a) ==> Valid(r.0)
    ensures Valid(a) && ChildrenLabeled(a) ==> ChildrenLabeled(r.0)
    decreases |tokens| - i, 0
  {
    if i >= |tokens| then (a, i)
    else
      var tok := tokens[i];
      if tok == "(" then
        var anchor := Anchor(stack);
        var (a2, varRoot, j) := ParseFrom(isMoveNumber, tokens, i + 1, a);
        var a3 := Attach(a2, anchor, a2[varRoot].children);
        ParseLoop(isMoveNumber, tokens, j, a3, stack)
      else if tok == ")" then (a, i + 1)
      else if isMoveNumber(tok) || IsGameResult(tok) then ParseLoop(isMoveNumber, tokens, i + 1, a, stack)
      else
        var (a2, stack2) := AddMove(a, stack, tok);
        ParseLoop(isMoveNumber, tokens, i + 1, a2, stack2)
  }

  /**
   * `_parse_moves`: the while loop over the tokens, recursing on `(` and
   * returning on `)`. It computes exactly `ParseFrom`.
   */
  method ParseMoves(isMoveNumber: string -> bool, tokens: seq<string>, i0: nat, arena0: Arena)
    returns (arena: Arena, root: nat, j: nat)
    ensures (arena, root, j) == ParseFrom(isMoveNumber, tokens, i0, arena0)
    decreases |tokens| - i0
  {
    root := |arena0|;
    arena := arena0 + [Node(None, [])];
    var stack := [root];
    var i := i0;
    ghost var result := ParseLoop(isMoveNumber, tokens, i0, arena, stack);
    while i < |tokens|
      invariant i0 <= i
      invariant StackIn(stack, arena)
      invariant ParseLoop(isMoveNumber, tokens, i, arena, stack) == result
      decreases |tokens| - i
    {
      var tok := tokens[i];
      if tok == "(" {
        var anchor := Anchor(stack);
        var varArena, varRoot, next := ParseMoves(isMoveNumber, tokens, i + 1, arena);
        arena := Attach(varArena, anchor, varArena[varRoot].children);
        i := next;
      } else if tok == ")" {
        j := i + 1;
        return;
      } else if isMoveNumber(tok) || IsGameResult(tok) {
        i := i + 1;
      } else {
        var grown := AddMove(arena, stack, tok);
        arena, stack := grown.0, grown.1;
        i := i + 1;
      }
    }
    j := i;
  }

  // ---------------------------------------------------------------- the parsed arena is a tree

  /** A move node is created last and listed last, under one parent only. */
  lemma AddMoveKeepsShape(a: Arena, stack: seq<nat>, san: string)
    requires StackIn(stack, a) && Valid(a) && Increasing(a) && SharedOnlyByRoots(a)
    ensures var r := AddMove(a, stack, san); Increasing(r.0) && SharedOnlyByRoots(r.0)
  {
    var r := AddMove(a, stack, san).0;
    var top := stack[|stack| - 1];
    var n := |a[top].children|;
    assert r[top].children == a[top].children + [|a|];
    forall k, m, m' | 0 <= k < |r| && 0 <= m < m' < |r[k].children|
      ensures r[k].children[m] < r[k].children[m']
    {
      if k == top && m' == n {
        assert r[k].children[m] == a[top].children[m] < |a|;
      } else if k < |a| {
        assert r[k].children[m] == a[k].children[m] && r[k].children[m'] == a[k].children[m'];
      }
    }
    assert forall k, m :: 0 <= k < |a| && k != top && 0 <= m < |r[k].children| ==> r[k].children[m] < |a|;
    assert forall m :: 0 <= m < n ==> r[top].children[m] < |a|;
    forall x, y, m, m' | 0 <= x < y < |r| && 0 <= m < |r[x].children| && 0 <= m' < |r[y].children| &&
      r[x].children[m] == r[y].children[m']
      ensures r[y].san.None?
    {
      if r[x].children[m] == |a| {
        assert false;
      } else {
        assert r[x].children[m] == a[x].children[m] && r[y].children[m'] == a[y].children[m'];
      }
    }
  }

  /**
   * Appending to an anchor children that all come after its own, in increasing
   * order, keeps every child list increasing.
   */
  lemma AttachKeepsIncreasing(a: Arena, anchor: nat, kids: seq<nat>)
    requires anchor < |a| && Increasing(a)
    requires forall m, m' :: 0 <= m < m' < |kids| ==> kids[m] < kids[m']
    requires forall m, m' :: 0 <= m < |a[anchor].children| && 0 <= m' < |kids| ==> a[anchor].children[m] < kids[m']
    ensures Increasing(Attach(a, anchor, kids))
  {
  }

  /**
   * Appending a variation root's children to an earlier anchor keeps sharing
   * confined to unlabelled later nodes, provided no node before the root lists
   * a node from the root on.
   */
  lemma AttachKeepsSharing(a: Arena, anchor: nat, root: nat)
    requires Valid(a) && SharedOnlyByRoots(a) && anchor < root < |a| && a[root].san.None?
    requires forall z, m :: 0 <= z < root && 0 <= m < |a[z].children| ==> a[z].children[m] < root
    ensures SharedOnlyByRoots(Attach(a, anchor, a[root].children))
  {
    var kids := a[root].children;
    var b := Attach(a, anchor, kids);
    forall x, y, m, m' | 0 <= x < y < |b| && 0 <= m < |b[x].children| && 0 <= m' < |b[y].children| &&
      b[x].children[m] == b[y].children[m']
      ensures b[y].san.None?
    {
      var n := |a[anchor].children|;
      if x == anchor && m >= n {
        var c := kids[m - n];
        assert b[x].children[m] == c && root < c;
        if y != root {
          assert b[y] == a[y];
          if y < root {
            assert false;
          }
        }
      } else if y == anchor && m' >= n {
        assert false;
      } else {
        assert b[x].children[m] == a[x].children[m];
        assert b[y].children[m'] == a[y].children[m'];
      }
    }
  }

  /** Attaching a variation parsed after every earlier node keeps the arena valid, increasing and sharing only by roots. */
  lemma AttachVariationShape(a: Arena, anchor: nat, root: nat)
    requires Valid(a) && Increasing(a) && SharedOnlyByRoots(a) && anchor < root < |a| && a[root].san.None?
    requires forall z, m :: 0 <= z < root && 0 <= m < |a[z].children| ==> a[z].children[m] < root
    ensures var b := Attach(a, anchor, a[root].children); Valid(b) && Increasing(b) && SharedOnlyByRoots(b)
  {
    var kids := a[root].children;
    assert forall m :: 0 <= m < |kids| ==> root < kids[m] < |a|;
    AttachKeepsSharing(a, anchor, root);
    AttachKeepsIncreasing(a, anchor, kids);
  }

  /**
   * The arena `_parse_moves` builds keeps every child list strictly increasing
   * and lets two nodes share a child only through an unlabelled later node.
   */
  lemma {:induction false} ParseFromShape(isMoveNumber: string -> bool, tokens: seq<string>, i: nat, a: Arena)
    requires Valid(a) && Increasing(a) && SharedOnlyByRoots(a)
    ensures var r := ParseFrom(isMoveNumber, tokens, i, a); Increasing(r.0) && SharedOnlyByRoots(r.0)
    decreases |tokens| - i, 1, 0
  {
    var a0 := a + [Node(None, [])];
    assert Valid(a0) && Increasing(a0) && SharedOnlyByRoots(a0) by {
      assert forall k :: 0 <= k < |a| ==> a0[k] == a[k];
    }
    ParseLoopShape(isMoveNumber, tokens, i, a0, [|a|]);
  }

  lemma {:induction false} ParseLoopShape(isMoveNumber: string -> bool, tokens: seq<string>, i: nat, a: Arena, stack: seq<nat>)
    requires StackIn(stack, a) && Valid(a) && Increasing(a) && SharedOnlyByRoots(a)
    ensures var r := ParseLoop(isMoveNumber, tokens, i, a, stack); Increasing(r.0) && SharedOnlyByRoots(r.0)
    decreases |tokens| - i, 0, 1
  {
    if i < |tokens| {
      var tok := tokens[i];
      if tok == "(" {
        ParseVariationShape(isMoveNumber, tokens, i, a, stack);
      } else if tok == ")" {
      } else if isMoveNumber(tok) || IsGameResult(tok) {
        ParseLoopShape(isMoveNumber, tokens, i + 1, a, stack);
      } else {
        var (a2, stack2) := AddMove(a, stack, tok);
        AddMoveKeepsShape(a, stack, tok);
        ParseLoopShape(isMoveNumber, tokens, i + 1, a2, stack2);
      }
    }
  }

  /** The `(` step of the above: the variation is parsed, attached to the anchor, and the loop goes on. */
  lemma {:induction false} ParseVariationShape(isMoveNumber: string -> bool, tokens: seq<string>, i: nat, a: Arena, stack: seq<nat>)
    requires StackIn(stack, a) && Valid(a) && Increasing(a) && SharedOnlyByRoots(a)
    requires i < |tokens| && tokens[i] == "("
    ensures var r := ParseLoop(isMoveNumber, tokens, i, a, stack); Increasing(r.0) && SharedOnlyByRoots(r.0)
    decreases |tokens| - i, 0, 0
  {
    var anchor := Anchor(stack);
    var (a2, root, j) := ParseFrom(isMoveNumber, tokens, i + 1, a);
    ParseFromShape(isMoveNumber, tokens, i + 1, a);
    assert forall z, m :: 0 <= z < root && 0 <= m < |a2[z].children| ==> a2[z].children[m] < root by {
      assert forall z :: 0 <= z < |a| ==> a2[z] == a[z];
    }
    AttachVariationShape(a2, anchor, root);
    ParseLoopShape(isMoveNumber, tokens, j, Attach(a2, anchor, a2[root].children), stack);
  }

  // ---------------------------------------------------------------- where the scan stops

  /**
   * A reference definition of the stopping index: just past the first `)` that
   * closes more than it opened from `i` on (`depth` is the number of `(` still
   * open), or the end of the tokens when there is none.
   */
  function MatchingEnd(tokens: seq<string>, i: nat, depth: nat): nat
    decreases |tokens| - i
  {
    if i >= |tokens| then i
    else if tokens[i] == ")" then (if depth == 0 then i + 1 else MatchingEnd(tokens, i + 1, depth - 1))
    else if tokens[i] == "(" then MatchingEnd(tokens, i + 1, depth + 1)
    else MatchingEnd(tokens, i + 1, depth)
  }

  /** Closing `e + d + 1` open markers is closing `e`, then `d` more. */
  lemma {:induction false} MatchingEndSplit(tokens: seq<string>, i: nat, e: nat, d: nat)
    ensures MatchingEnd(tokens, i, e + d + 1) == MatchingEnd(tokens, MatchingEnd(tokens, i, e), d)
    decreases |tokens| - i
  {
    if i < |tokens| {
      if tokens[i] == ")" {
        if e > 0 {
          MatchingEndSplit(tokens, i + 1, e - 1, d);
        }
      } else if tokens[i] == "(" {
        MatchingEndSplit(tokens, i + 1, e + 1, d);
      } else {
        MatchingEndSplit(tokens, i + 1, e, d);
      }
    }
  }

  /** From a `(`, the scan stops where it stops after the variation that `(` opens. */
  lemma MatchingEndAfterVariation(tokens: seq<string>, i: nat)
    requires i < |tokens| && tokens[i] == "("
    ensures MatchingEnd(tokens, i, 0) == MatchingEnd(tokens, MatchingEnd(tokens, i + 1, 0), 0)
  {
    MatchingEndSplit(tokens, i + 1, 0, 0);
  }

  /**
   * The scan stops just past the first unmatched `)`, or at the end: a variation
   * consumes its own closing marker, and a stray `)` at the top level ends parsing.
   */
  lemma {:induction false} ParseFromEnd(isMoveNumber: string -> bool, tokens: seq<string>, i: nat, a: Arena)
    ensures ParseFrom(isMoveNumber, tokens, i, a).2 == MatchingEnd(tokens, i, 0)
    decreases |tokens| - i, 1
  {
    ParseLoopEnd(isMoveNumber, tokens, i, a + [Node(None, [])], [|a|]);
  }

  lemma {:induction false} ParseLoopEnd(isMoveNumber: string -> bool, tokens: seq<string>, i: nat, a: Arena, stack: seq<nat>)
    requires StackIn(stack, a)
    ensures ParseLoop(isMoveNumber, tokens, i, a, stack).1 == MatchingEnd(tokens, i, 0)
    decreases |tokens| - i, 0
  {
    var r := ParseLoop(isMoveNumber, tokens, i, a, stack);
    if i < |tokens| {
      var tok := tokens[i];
      if tok == "(" {
        var (a2, varRoot, j) := ParseFrom(isMoveNumber, tokens, i + 1, a);
        ParseFromEnd(isMoveNumber, tokens, i + 1, a);
        var a3 := Attach(a2, Anchor(stack), a2[varRoot].children);
        ParseLoopEnd(isMoveNumber, tokens, j, a3, stack);
        assert r == ParseLoop(isMoveNumber, tokens, j, a3, stack);
        MatchingEndAfterVariation(tokens, i);
      } else if tok == ")" {
        assert r.1 == i + 1;
        assert r.1 == MatchingEnd(tokens, i, 0);
      } else if isMoveNumber(tok) || IsGameResult(tok) {
        ParseLoopEnd(isMoveNumber, tokens, i + 1, a, stack);
        assert r == ParseLoop(isMoveNumber, tokens, i + 1, a, stack);
        assert MatchingEnd(tokens, i, 0) == MatchingEnd(tokens, i + 1, 0);
        assert r.1 == MatchingEnd(tokens, i, 0);
      } else {
        var (a2, stack2) := AddMove(a, stack, tok);
        ParseLoopEnd(isMoveNumber, tokens, i + 1, a2, stack2);
        assert r == ParseLoop(isMoveNumber, tokens, i + 1, a2, stack2);
        assert MatchingEnd(tokens, i, 0) == MatchingEnd(tokens, i + 1, 0);
        assert r.1 == MatchingEnd(tokens, i, 0);
      }
    } else {
      assert r.1 == i;
    }
  }

  /** The stopping index never lies before the start. */
  lemma {:induction false} MatchingEndAtLeast(tokens: seq<string>, i: nat, depth: nat)
    ensures i <= MatchingEnd(tokens, i, depth)
    ensures i < |tokens| ==> i < MatchingEnd(tokens, i, depth) <= |tokens|
    decreases |tokens| - i
  {
    if i < |tokens| {
      if tokens[i] == ")" {
        if depth > 0 {
          MatchingEndAtLeast(tokens, i + 1, depth - 1);
        }
      } else if tokens[i] == "(" {
        MatchingEndAtLeast(tokens, i + 1, depth + 1);
      } else {
        MatchingEndAtLeast(tokens, i + 1, depth);
      }
    }
  }

  /**
   * Without a variation in between, the scan stops just past the first `)` at
   * or after `i`: a stray `)` ends the parse.
   */
  lemma {:induction false} MatchingEndFirstClose(tokens: seq<string>, i: nat, k: nat)
    requires i <= k < |tokens| && tokens[k] == ")"
    requires forall m :: i <= m < k ==> tokens[m] != "(" && tokens[m] != ")"
    ensures MatchingEnd(tokens, i, 0) == k + 1
    decreases k - i
  {
    if i < k {
      MatchingEndFirstClose(tokens, i + 1, k);
    }
  }

  /**
   * The parse reads nothing at or after its stopping index `j`: a token
   * sequence that agrees with `tokens` before `j` (and, when the parse ran to
   * the end, stops there too) gives the same tree and the same index.
   */
  lemma {:induction false} ParseFromIgnoresLater(isMoveNumber: string -> bool, tokens: seq<string>, other: seq<string>, i: nat, a: Arena)
    requires var j := MatchingEnd(tokens, i, 0);
      j <= |tokens| && j <= |other| && tokens[..j] == other[..j] && (j == |tokens| ==> |other| == j)
    ensures ParseFrom(isMoveNumber, tokens, i, a) == ParseFrom(isMoveNumber, other, i, a)
    decreases |tokens| - i, 1, 0
  {
    ParseLoopIgnoresLater(isMoveNumber, tokens, other, i, a + [Node(None, [])], [|a|]);
  }

  lemma {:induction false} ParseLoopIgnoresLater(isMoveNumber: string -> bool, tokens: seq<string>, other: seq<string>,
                                                 i: nat, a: Arena, stack: seq<nat>)
    requires StackIn(stack, a)
    requires var j := MatchingEnd(tokens, i, 0);
      j <= |tokens| && j <= |other| && tokens[..j] == other[..j] && (j == |tokens| ==> |other| == j)
    ensures ParseLoop(isMoveNumber, tokens, i, a, stack) == ParseLoop(isMoveNumber, other, i, a, stack)
    decreases |tokens| - i, 0, 1
  {
    var j := MatchingEnd(tokens, i, 0);
    if i < |tokens| {
      var tok := tokens[i];
      MatchingEndAtLeast(tokens, i, 0);
      assert other[i] == tokens[..j][i] == tok;
      if tok == "(" {
        VariationIgnoresLater(isMoveNumber, tokens, other, i, a, stack);
      } else if tok == ")" {
      } else if isMoveNumber(tok) || IsGameResult(tok) {
        ParseLoopIgnoresLater(isMoveNumber, tokens, other, i + 1, a, stack);
      } else {
        var (a2, stack2) := AddMove(a, stack, tok);
        ParseLoopIgnoresLater(isMoveNumber, tokens, other, i + 1, a2, stack2);
      }
    }
  }

  /** The `(` step of the above: the variation and what follows it read only tokens before `j`. */
  lemma {:induction false} VariationIgnoresLater(isMoveNumber: string -> bool, tokens: seq<string>, other: seq<string>,
                                                 i: nat, a: Arena, stack: seq<nat>)
    requires StackIn(stack, a)
    requires i < |tokens| && i < |other| && tokens[i] == "(" && other[i] == "("
    requires var j := MatchingEnd(tokens, i, 0);
      j <= |tokens| && j <= |other| && tokens[..j] == other[..j] && (j == |tokens| ==> |other| == j)
    ensures ParseLoop(isMoveNumber, tokens, i, a, stack) == ParseLoop(isMoveNumber, other, i, a, stack)
    decreases |tokens| - i, 0, 0
  {
    var j := MatchingEnd(tokens, i, 0);
    var j1 := MatchingEnd(tokens, i + 1, 0);
    MatchingEndSplit(tokens, i + 1, 0, 0);
    assert j == MatchingEnd(tokens, j1, 0);
    MatchingEndAtLeast(tokens, j1, 0);
    MatchingEndAtLeast(tokens, i + 1, 0);
    assert tokens[..j1] == tokens[..j][..j1] && other[..j1] == other[..j][..j1];
    ParseFromIgnoresLater(isMoveNumber, tokens, other, i + 1, a);
    ParseFromEnd(isMoveNumber, tokens, i + 1, a);
    var (a2, varRoot, j2) := ParseFrom(isMoveNumber, tokens, i + 1, a);
    var a3 := Attach(a2, Anchor(stack), a2[varRoot].children);
    ParseLoopIgnoresLater(isMoveNumber, tokens, other, j2, a3, stack);
  }

  /** In particular, the parse of `tokens` is the parse of the tokens before its stopping index. */
  lemma ParseFromOnlyReadsPrefix(isMoveNumber: string -> bool, tokens: seq<string>, i: nat, a: Arena)
    requires i <= |tokens|
    ensures var r := ParseFrom(isMoveNumber, tokens, i, a);
      r.2 <= |tokens| && r == ParseFrom(isMoveNumber, tokens[..r.2], i, a)
  {
    ParseFromEnd(isMoveNumber, tokens, i, a);
    MatchingEndAtLeast(tokens, i, 0);
    var j := MatchingEnd(tokens, i, 0);
    assert tokens[..j][..j] == tokens[..j];
    ParseFromIgnoresLater(isMoveNumber, tokens, tokens[..j], i, a);
  }

  // ---------------------------------------------------------------- how many nodes are created

  /** A token that makes `_parse_moves` create a node: a move, or `(` (the variation's own root). */
  predicate CreatesNode(isMoveNumber: string -> bool, tok: string)
  {
    tok == "(" || IsMove(isMoveNumber, tok)
  }

  /** The number of node-creating tokens in `tokens[i..j]`. */
  function CountCreating(isMoveNumber: string -> bool, tokens: seq<string>, i: nat, j: nat): nat
    requires j <= |tokens|
    decreases j - i
  {
    if i >= j then 0
    else (if CreatesNode(isMoveNumber, tokens[i]) then 1 else 0) + CountCreating(isMoveNumber, tokens, i + 1, j)
  }

  lemma {:induction false} CountCreatingSplit(isMoveNumber: string -> bool, tokens: seq<string>, i: nat, m: nat, j: nat)
    requires i <= m <= j <= |tokens|
    ensures CountCreating(isMoveNumber, tokens, i, j)
         == CountCreating(isMoveNumber, tokens, i, m) + CountCreating(isMoveNumber, tokens, m, j)
    decreases m - i
  {
    if i < m {
      CountCreatingSplit(isMoveNumber, tokens, i + 1, m, j);
    }
  }

  /**
   * Move-number, result and `)` tokens create no node; every move token creates
   * exactly one, and each call (each `(`) one root of its own.
   */
  lemma {:induction false} ParseFromSize(isMoveNumber: string -> bool, tokens: seq<string>, i: nat, a: Arena)
    requires i <= |tokens|
    ensures var r := ParseFrom(isMoveNumber, tokens, i, a);
      |r.0| == |a| + 1 + CountCreating(isMoveNumber, tokens, i, r.2)
    decreases |tokens| - i, 1
  {
    ParseLoopSize(isMoveNumber, tokens, i, a + [Node(None, [])], [|a|]);
  }

  lemma {:induction false} ParseLoopSize(isMoveNumber: string -> bool, tokens: seq<string>, i: nat, a: Arena, stack: seq<nat>)
    requires StackIn(stack, a) && i <= |tokens|
    ensures var r := ParseLoop(isMoveNumber, tokens, i, a, stack);
      |r.0| == |a| + CountCreating(isMoveNumber, tokens, i, r.1)
    decreases |tokens| - i, 0
  {
    if i < |tokens| {
      var tok := tokens[i];
      var r := ParseLoop(isMoveNumber, tokens, i, a, stack);
      if tok == "(" {
        var (a2, varRoot, j) := ParseFrom(isMoveNumber, tokens, i + 1, a);
        ParseFromSize(isMoveNumber, tokens, i + 1, a);
        var a3 := Attach(a2, Anchor(stack), a2[varRoot].children);
        ParseLoopSize(isMoveNumber, tokens, j, a3, stack);
        CountCreatingSplit(isMoveNumber, tokens, i + 1, j, r.1);
      } else if tok == ")" {
        assert CountCreating(isMoveNumber, tokens, i + 1, i + 1) == 0;
      } else if isMoveNumber(tok) || IsGameResult(tok) {
        ParseLoopSize(isMoveNumber, tokens, i + 1, a, stack);
      } else {
        var (a2, stack2) := AddMove(a, stack, tok);
        ParseLoopSize(isMoveNumber, tokens, i + 1, a2, stack2);
      }
    }
  }
}
