/**
 * The line extractor (`_extract_lines_dfs`) and the assembly of titled lines
 * (`parse_pgn_to_lines`).
 */
module LineExtractor {

  import opened Wrappers
  import opened MoveTree

  /** The label sequence after visiting node `n`: `prefix`, extended by `n`'s label if it has one. */
  function Extend(a: Arena, n: nat, prefix: seq<string>): (p: seq<string>)
    requires n < |a|
    ensures prefix <= p && |p| <= |prefix| + 1
    ensures |p| == |prefix| + 1 <==> a[n].san.Some?
    ensures a[n].san.Some? ==> p[|prefix|] == a[n].san.value
  {
    if a[n].san.Some? then prefix + [a[n].san.value] else prefix
  }

  /**
   * The label sequences `_extract_lines_dfs(n, prefix, out)` appends to `out`:
   * one per leaf below `n`, depth first, children in order, a leaf whose
   * sequence is empty contributing nothing.
   */
  ghost function Paths(a: Arena, n: nat, prefix: seq<string>): (r: seq<seq<string>>)
    requires Valid(a) && n < |a|
    ensures forall k :: 0 <= k < |r| ==> r[k] != [] && prefix <= r[k]
    decreases |a| - n, |a[n].children| + 1
  {
    var p := Extend(a, n, prefix);
    if a[n].children == [] then (if p == [] then [] else [p])
    else PathsOfChildren(a, n, a[n].children, p)
  }

  ghost function PathsOfChildren(a: Arena, parent: nat, kids: seq<nat>, p: seq<string>): (r: seq<seq<string>>)
    requires Valid(a) && parent < |a|
    requires forall m :: 0 <= m < |kids| ==> parent < kids[m] < |a|
    ensures forall k :: 0 <= k < |r| ==> r[k] != [] && p <= r[k]
    decreases |a| - parent, |kids|
  {
    if kids == [] then [] else Paths(a, kids[0], p) + PathsOfChildren(a, parent, kids[1..], p)
  }

  /** `_extract_lines_dfs`: the recursive traversal, accumulating into `out`. */
  method ExtractLinesDfs(a: Arena, n: nat, prefix: seq<string>, out: seq<seq<string>>)
    returns (result: seq<seq<string>>)
    requires Valid(a) && n < |a|
    ensures result == out + Paths(a, n, prefix)
    decreases |a| - n
  {
    var p := prefix;
    if a[n].san.Some? {
      p := prefix + [a[n].san.value];
    }
    result := out;
    if a[n].children == [] {
      if p != [] {
        result := result + [p];
      }
      return;
    }
    var kids := a[n].children;
    assert kids[0..] == kids;
    for k := 0 to |kids|
      invariant result + PathsOfChildren(a, n, kids[k..], p) == out + PathsOfChildren(a, n, kids, p)
    {
      ghost var before := result;
      result := ExtractLinesDfs(a, kids[k], p, result);
      PathsOfChildrenStep(a, n, kids, k, p, before);
    }
    assert kids[|kids|..] == [];
  }

  /** One turn of the loop over the children: the `k`-th child's paths move from pending to emitted. */
  lemma PathsOfChildrenStep(a: Arena, n: nat, kids: seq<nat>, k: nat, p: seq<string>, out: seq<seq<string>>)
    requires Valid(a) && n < |a| && kids == a[n].children && k < |kids|
    ensures out + PathsOfChildren(a, n, kids[k..], p) == (out + Paths(a, kids[k], p)) + PathsOfChildren(a, n, kids[k + 1..], p)
  {
    assert kids[k..][1..] == kids[k + 1..];
  }

  // ---------------------------------------------------------------- leaf paths

  /** A path of node indices from `n` down to a leaf, each step going to a child. */
  ghost predicate IsLeafPath(a: Arena, n: nat, path: seq<nat>)
  {
    |path| > 0 && path[0] == n &&
    (forall k :: 0 <= k < |path| ==> path[k] < |a|) &&
    (forall k :: 0 <= k < |path| - 1 ==> path[k + 1] in a[path[k]].children) &&
    a[path[|path| - 1]].children == []
  }

  function Prepend(n: nat, paths: seq<seq<nat>>): seq<seq<nat>>
  {
    seq(|paths|, k requires 0 <= k < |paths| => [n] + paths[k])
  }

  /** All leaf paths from `n`, in depth-first, children-in-order order. */
  ghost function LeafPaths(a: Arena, n: nat): seq<seq<nat>>
    requires Valid(a) && n < |a|
    decreases |a| - n, |a[n].children| + 1
  {
    if a[n].children == [] then [[n]] else LeafPathsOfChildren(a, n, a[n].children)
  }

  ghost function LeafPathsOfChildren(a: Arena, parent: nat, kids: seq<nat>): seq<seq<nat>>
    requires Valid(a) && parent < |a|
    requires forall m :: 0 <= m < |kids| ==> parent < kids[m] < |a|
    decreases |a| - parent, |kids|
  {
    if kids == [] then [] else Prepend(parent, LeafPaths(a, kids[0])) + LeafPathsOfChildren(a, parent, kids[1..])
  }

  /** Every listed path is a leaf path. */
  lemma {:induction false} LeafPathsSound(a: Arena, n: nat)
    requires Valid(a) && n < |a|
    ensures forall k :: 0 <= k < |LeafPaths(a, n)| ==> IsLeafPath(a, n, LeafPaths(a, n)[k])
    decreases |a| - n, |a[n].children| + 1
  {
    if a[n].children != [] {
      LeafPathsOfChildrenSound(a, n, a[n].children);
    }
  }

  lemma {:induction false} LeafPathsOfChildrenSound(a: Arena, parent: nat, kids: seq<nat>)
    requires Valid(a) && parent < |a|
    requires forall m :: 0 <= m < |kids| ==> parent < kids[m] < |a| && kids[m] in a[parent].children
    ensures forall k :: 0 <= k < |LeafPathsOfChildren(a, parent, kids)| ==>
      IsLeafPath(a, parent, LeafPathsOfChildren(a, parent, kids)[k])
    decreases |a| - parent, |kids|
  {
    if kids != [] {
      var c := kids[0];
      LeafPathsSound(a, c);
      LeafPathsOfChildrenSound(a, parent, kids[1..]);
      var head := Prepend(parent, LeafPaths(a, c));
      var all := LeafPathsOfChildren(a, parent, kids);
      assert all == head + LeafPathsOfChildren(a, parent, kids[1..]);
      forall k | 0 <= k < |head| ensures IsLeafPath(a, parent, head[k]) {
        var q := LeafPaths(a, c)[k];
        assert IsLeafPath(a, c, q);
        var path := head[k];
        assert path == [parent] + q;
        forall m | 0 <= m < |path| - 1 ensures path[m + 1] in a[path[m]].children {
          if m > 0 {
            assert path[m] == q[m - 1] && path[m + 1] == q[m];
          }
        }
      }
    }
  }

  /** Every leaf path is listed. */
  lemma {:induction false} LeafPathsComplete(a: Arena, n: nat, path: seq<nat>)
    requires Valid(a) && n < |a| && IsLeafPath(a, n, path)
    ensures path in LeafPaths(a, n)
    decreases |a| - n
  {
    if |path| == 1 {
      assert path == [n];
    } else {
      var c := path[1];
      assert c in a[n].children;
      var q := path[1..];
      assert IsLeafPath(a, c, q) by {
        forall m | 0 <= m < |q| - 1 ensures q[m + 1] in a[q[m]].children {
          assert q[m] == path[m + 1] && q[m + 1] == path[m + 2];
        }
      }
      var idx :| 0 <= idx < |a[n].children| && a[n].children[idx] == c;
      assert n < c;
      LeafPathsComplete(a, c, q);
      assert path == [n] + q;
      InChildrenPaths(a, n, a[n].children, idx, q);
    }
  }

  lemma {:induction false} InChildrenPaths(a: Arena, parent: nat, kids: seq<nat>, idx: nat, q: seq<nat>)
    requires Valid(a) && parent < |a|
    requires forall m :: 0 <= m < |kids| ==> parent < kids[m] < |a|
    requires idx < |kids| && q in LeafPaths(a, kids[idx])
    ensures [parent] + q in LeafPathsOfChildren(a, parent, kids)
    decreases idx
  {
    var rest := LeafPathsOfChildren(a, parent, kids[1..]);
    var head := Prepend(parent, LeafPaths(a, kids[0]));
    assert LeafPathsOfChildren(a, parent, kids) == head + rest;
    if idx == 0 {
      var k :| 0 <= k < |LeafPaths(a, kids[0])| && LeafPaths(a, kids[0])[k] == q;
      assert head[k] == [parent] + q;
    } else {
      assert kids[1..][idx - 1] == kids[idx];
      InChildrenPaths(a, parent, kids[1..], idx - 1, q);
    }
  }

  // ---------------------------------------------------------------- one leaf path per leaf

  /** When every child list is increasing, no leaf path is listed twice. */
  lemma {:induction false} LeafPathsDistinct(a: Arena, n: nat)
    requires Valid(a) && Increasing(a) && n < |a|
    ensures forall i, j :: 0 <= i < j < |LeafPaths(a, n)| ==> LeafPaths(a, n)[i] != LeafPaths(a, n)[j]
    decreases |a| - n, |a[n].children| + 1
  {
    if a[n].children != [] {
      LeafPathsOfChildrenDistinct(a, n, a[n].children);
      assert LeafPaths(a, n) == LeafPathsOfChildren(a, n, a[n].children);
    }
  }

  /**
   * The leaf paths through strictly increasing children step from the parent to
   * one of those children, and none is listed twice.
   */
  lemma {:induction false} LeafPathsOfChildrenDistinct(a: Arena, parent: nat, kids: seq<nat>)
    requires Valid(a) && Increasing(a) && parent < |a|
    requires forall m :: 0 <= m < |kids| ==> parent < kids[m] < |a|
    requires forall m, m' :: 0 <= m < m' < |kids| ==> kids[m] < kids[m']
    ensures forall i :: 0 <= i < |LeafPathsOfChildren(a, parent, kids)| ==>
      var path := LeafPathsOfChildren(a, parent, kids)[i]; |path| > 1 && path[0] == parent && path[1] in kids
    ensures forall i, j :: 0 <= i < j < |LeafPathsOfChildren(a, parent, kids)| ==>
      LeafPathsOfChildren(a, parent, kids)[i] != LeafPathsOfChildren(a, parent, kids)[j]
    decreases |a| - parent, |kids|
  {
    if kids != [] {
      var c := kids[0];
      var qs := LeafPaths(a, c);
      LeafPathsSound(a, c);
      LeafPathsDistinct(a, c);
      LeafPathsOfChildrenDistinct(a, parent, kids[1..]);
      var head := Prepend(parent, qs);
      var tail := LeafPathsOfChildren(a, parent, kids[1..]);
      var ps := head + tail;
      assert ps == LeafPathsOfChildren(a, parent, kids);
      assert forall i :: 0 <= i < |head| ==> head[i] == [parent] + qs[i] && head[i][1..] == qs[i] && head[i][1] == c;
      forall i | 0 <= i < |tail| ensures |tail[i]| > 1 && tail[i][0] == parent && tail[i][1] in kids && tail[i][1] > c {
        var rest := kids[1..];
        assert |tail[i]| > 1 && tail[i][0] == parent && tail[i][1] in rest;
        var m :| 0 <= m < |rest| && rest[m] == tail[i][1];
        assert rest[m] == kids[m + 1];
      }
      assert forall i, j :: 0 <= i < j < |tail| ==> tail[i] != tail[j];
      forall i | 0 <= i < |ps| ensures |ps[i]| > 1 && ps[i][0] == parent && ps[i][1] in kids {
        if i >= |head| {
          assert ps[i] == tail[i - |head|];
        }
      }
      forall i, j | 0 <= i < j < |ps| ensures ps[i] != ps[j] {
        if j < |head| {
          assert ps[i][1..] == qs[i] && ps[j][1..] == qs[j];
        } else if i >= |head| {
          assert ps[i] == tail[i - |head|] && ps[j] == tail[j - |head|];
        } else {
          assert ps[i][1] == c && ps[j] == tail[j - |head|];
        }
      }
    }
  }

  /** A path of node indices from `n`, each step going to a child. */
  ghost predicate IsPathFrom(a: Arena, n: nat, path: seq<nat>)
  {
    |path| > 0 && path[0] == n &&
    (forall k :: 0 <= k < |path| ==> path[k] < |a|) &&
    (forall k :: 0 <= k < |path| - 1 ==> path[k + 1] in a[path[k]].children)
  }

  /** Along a path from `n`, every node after the first comes after `n` and is some node's child. */
  lemma {:induction false} PathAbove(a: Arena, n: nat, path: seq<nat>, k: nat)
    requires Valid(a) && ChildrenLabeled(a) && IsPathFrom(a, n, path) && k < |path|
    ensures n <= path[k] && (k > 0 ==> n < path[k] && a[path[k]].san.Some?)
    decreases k
  {
    if k > 0 {
      PathAbove(a, n, path, k - 1);
      var kids := a[path[k - 1]].children;
      assert path[k] in kids;
      var m :| 0 <= m < |kids| && kids[m] == path[k];
    }
  }

  /** The last two nodes of two paths from `n` that end at the same node agree. */
  lemma ParentsAgree(a: Arena, n: nat, p: seq<nat>, q: seq<nat>)
    requires Valid(a) && ChildrenLabeled(a) && SharedOnlyByRoots(a)
    requires IsPathFrom(a, n, p) && IsPathFrom(a, n, q) && |p| > 1 && |q| > 1 && p[|p| - 1] == q[|q| - 1]
    ensures p[|p| - 2] == q[|q| - 2]
  {
    var x, y, c := p[|p| - 2], q[|q| - 2], p[|p| - 1];
    PathAbove(a, n, p, |p| - 2);
    PathAbove(a, n, q, |q| - 2);
    var m :| 0 <= m < |a[x].children| && a[x].children[m] == c;
    var m' :| 0 <= m' < |a[y].children| && a[y].children[m'] == c;
  }

  /**
   * Two nodes that list the same child are never both on paths from `n`, so any
   * node is reached from `n` along a single path.
   */
  lemma {:induction false} PathsToOneNode(a: Arena, n: nat, p: seq<nat>, q: seq<nat>)
    requires Valid(a) && ChildrenLabeled(a) && SharedOnlyByRoots(a)
    requires IsPathFrom(a, n, p) && IsPathFrom(a, n, q) && p[|p| - 1] == q[|q| - 1]
    ensures p == q
    decreases |p|
  {
    PathAbove(a, n, p, |p| - 1);
    PathAbove(a, n, q, |q| - 1);
    if |p| == 1 || |q| == 1 {
      assert |p| == 1 && |q| == 1;
    } else {
      ParentsAgree(a, n, p, q);
      var p', q' := p[..|p| - 1], q[..|q| - 1];
      PathsToOneNode(a, n, p', q');
      assert p == p' + [p[|p| - 1]] && q == q' + [q[|q| - 1]];
    }
  }

  /** The paths in `ps` are non-empty and end at pairwise different nodes. */
  ghost predicate EndsApart(ps: seq<seq<nat>>)
  {
    forall i, j :: 0 <= i < j < |ps| ==> |ps[i]| > 0 && |ps[j]| > 0 && ps[i][|ps[i]| - 1] != ps[j][|ps[j]| - 1]
  }

  /**
   * In an arena shaped as `_parse_moves` builds it, the leaf paths from `n` end
   * at pairwise different leaves: one leaf path, and so one line, per leaf.
   */
  lemma LeafPathsEndApart(a: Arena, n: nat)
    requires Valid(a) && Increasing(a) && ChildrenLabeled(a) && SharedOnlyByRoots(a) && n < |a|
    ensures EndsApart(LeafPaths(a, n))
  {
    var ps := LeafPaths(a, n);
    LeafPathsSound(a, n);
    LeafPathsDistinct(a, n);
    forall i, j | 0 <= i < j < |ps| ensures |ps[i]| > 0 && |ps[j]| > 0 && ps[i][|ps[i]| - 1] != ps[j][|ps[j]| - 1] {
      assert IsLeafPath(a, n, ps[i]) && IsLeafPath(a, n, ps[j]) && ps[i] != ps[j];
      if ps[i][|ps[i]| - 1] == ps[j][|ps[j]| - 1] {
        PathsToOneNode(a, n, ps[i], ps[j]);
      }
    }
  }

  // ---------------------------------------------------------------- lines are the labels of leaf paths

  /** The move labels along a path of node indices; unlabelled nodes contribute nothing. */
  function Labels(a: Arena, path: seq<nat>): seq<string>
    requires forall k :: 0 <= k < |path| ==> path[k] < |a|
  {
    if path == [] then [] else Extend(a, path[0], []) + Labels(a, path[1..])
  }

  /** `lines[k]` is `prefix` followed by the labels of `paths[k]`, for every `k`. */
  ghost predicate SpellsPaths(a: Arena, lines: seq<seq<string>>, paths: seq<seq<nat>>, prefix: seq<string>)
  {
    |lines| == |paths| &&
    forall k :: 0 <= k < |lines| ==>
      (forall m :: 0 <= m < |paths[k]| ==> paths[k][m] < |a|) && lines[k] == prefix + Labels(a, paths[k])
  }

  lemma SpellsPathsAppend(a: Arena, l1: seq<seq<string>>, p1: seq<seq<nat>>, l2: seq<seq<string>>, p2: seq<seq<nat>>, prefix: seq<string>)
    requires SpellsPaths(a, l1, p1, prefix) && SpellsPaths(a, l2, p2, prefix)
    ensures SpellsPaths(a, l1 + l2, p1 + p2, prefix)
  {
    forall k | 0 <= k < |l1 + l2|
      ensures (forall m :: 0 <= m < |(p1 + p2)[k]| ==> (p1 + p2)[k][m] < |a|)
        && (l1 + l2)[k] == prefix + Labels(a, (p1 + p2)[k])
    {
      if k >= |l1| {
        assert (l1 + l2)[k] == l2[k - |l1|] && (p1 + p2)[k] == p2[k - |l1|];
      }
    }
  }

  /**
   * When every child node is labelled, extraction emits exactly one line per
   * leaf path, in the order `LeafPaths` lists them, and that line is `prefix`
   * followed by the labels along the path. The one exception is a childless,
   * unlabelled start node with an empty prefix, which emits nothing.
   */
  lemma {:induction false} PathsSpellLeafPaths(a: Arena, n: nat, prefix: seq<string>)
    requires Valid(a) && ChildrenLabeled(a) && n < |a|
    requires prefix != [] || a[n].san.Some? || a[n].children != []
    ensures SpellsPaths(a, Paths(a, n, prefix), LeafPaths(a, n), prefix)
    decreases |a| - n, |a[n].children| + 1
  {
    var p := Extend(a, n, prefix);
    if a[n].children == [] {
      assert Labels(a, [n]) == Extend(a, n, []);
    } else {
      forall m | 0 <= m < |a[n].children| ensures a[n].children[m] in a[n].children { }
      PathsOfChildrenSpell(a, n, a[n].children, prefix);
    }
  }

  lemma {:induction false} PathsOfChildrenSpell(a: Arena, parent: nat, kids: seq<nat>, prefix: seq<string>)
    requires Valid(a) && ChildrenLabeled(a) && parent < |a|
    requires forall m :: 0 <= m < |kids| ==> parent < kids[m] < |a| && kids[m] in a[parent].children
    ensures SpellsPaths(a, PathsOfChildren(a, parent, kids, Extend(a, parent, prefix)),
                        LeafPathsOfChildren(a, parent, kids), prefix)
    decreases |a| - parent, |kids|
  {
    var p := Extend(a, parent, prefix);
    if kids != [] {
      var c := kids[0];
      assert a[c].san.Some?;
      PathsSpellLeafPaths(a, c, p);
      var head := Prepend(parent, LeafPaths(a, c));
      SpellsPrepend(a, parent, Paths(a, c, p), LeafPaths(a, c), prefix);
      PathsOfChildrenSpell(a, parent, kids[1..], prefix);
      SpellsPathsAppend(a, Paths(a, c, p), head,
        PathsOfChildren(a, parent, kids[1..], p), LeafPathsOfChildren(a, parent, kids[1..]), prefix);
    }
  }

  /** Spelling paths below a child from the parent's extended prefix is spelling the parent-prefixed paths. */
  lemma SpellsPrepend(a: Arena, parent: nat, lines: seq<seq<string>>, paths: seq<seq<nat>>, prefix: seq<string>)
    requires parent < |a| && SpellsPaths(a, lines, paths, Extend(a, parent, prefix))
    ensures SpellsPaths(a, lines, Prepend(parent, paths), prefix)
  {
    var head := Prepend(parent, paths);
    forall k | 0 <= k < |head|
      ensures (forall m :: 0 <= m < |head[k]| ==> head[k][m] < |a|)
        && lines[k] == prefix + Labels(a, head[k])
    {
      var q := paths[k];
      assert head[k] == [parent] + q;
      assert head[k][1..] == q;
      assert Labels(a, head[k]) == Extend(a, parent, []) + Labels(a, q);
    }
  }
}
