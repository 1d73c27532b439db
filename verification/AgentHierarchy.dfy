/** The order in which the dashboard lists agents: every agent directly behind its parent, in a
    walk that also copes with parents that form a cycle. */
module AgentHierarchy {
  import opened Basics

  /** Each of the rows 0, 1, ... may have another row as its parent. */
  type Forest = seq<Option<nat>>

  predicate ForestOk(f: Forest) {
    forall i :: 0 <= i < |f| && f[i].Some? ==> f[i].value < |f| && f[i].value != i
  }

  predicate Ascending(s: seq<nat>) {
    forall i, j :: 0 <= i < j < |s| ==> s[i] < s[j]
  }

  predicate AllBelow(s: seq<nat>, n: nat) {
    forall i :: 0 <= i < |s| ==> s[i] < n
  }

  predicate Covers(r: seq<nat>, s: seq<nat>) {
    forall i :: 0 <= i < |s| ==> s[i] in r
  }

  /** The rows below `m` whose parent is `p`, in their order; with `None`, the roots. */
  function Kids(f: Forest, p: Option<nat>, m: nat): (s: seq<nat>)
    requires m <= |f|
    ensures Ascending(s) && AllBelow(s, m) && forall i :: 0 <= i < |s| ==> f[s[i]] == p
  {
    if m == 0 then [] else Kids(f, p, m - 1) + if f[m - 1] == p then [m - 1] else []
  }

  lemma {:induction false} KidsComplete(f: Forest, p: Option<nat>, m: nat, x: nat)
    requires x < m <= |f| && f[x] == p
    ensures x in Kids(f, p, m)
  {
    if x < m - 1 {
      KidsComplete(f, p, m - 1, x);
    }
  }

  function UpTo(n: nat): (s: seq<nat>)
    ensures |s| == n && forall i :: 0 <= i < n ==> s[i] == i
  {
    if n == 0 then [] else UpTo(n - 1) + [n - 1]
  }

  // ---------- The walk ----------

  /** What was visited so far, in order. */
  predicate OutOk(f: Forest, out: seq<nat>) {
    Distinct(out) && AllBelow(out, |f|)
  }

  function Unvisited(f: Forest, out: seq<nat>): nat {
    |FirstMany(|f|) - Items(out)|
  }

  lemma UnvisitedNeverGrows(f: Forest, a: seq<nat>, b: seq<nat>)
    requires a <= b
    ensures Unvisited(f, b) <= Unvisited(f, a)
  {
    SubsetSize(FirstMany(|f|) - Items(b), FirstMany(|f|) - Items(a));
  }

  lemma UnvisitedFalls(f: Forest, out: seq<nat>, i: nat)
    requires i < |f| && i !in out
    ensures Unvisited(f, out + [i]) < Unvisited(f, out)
  {
    var a, b := FirstMany(|f|) - Items(out), FirstMany(|f|) - Items(out + [i]);
    assert b == a - {i} && i in a;
  }

  /** Visits a row and then its children, each as a whole, unless it was visited before. */
  function Visit(f: Forest, i: nat, out: seq<nat>): (r: seq<nat>)
    requires ForestOk(f) && i < |f| && OutOk(f, out)
    ensures out <= r && OutOk(f, r) && i in r
    decreases Unvisited(f, out), 0, 0
  {
    if i in out then out
    else
      UnvisitedFalls(f, out, i);
      assert (out + [i])[|out|] == i;
      VisitAll(f, Kids(f, Some(i), |f|), out + [i])
  }

  function VisitAll(f: Forest, list: seq<nat>, out: seq<nat>): (r: seq<nat>)
    requires ForestOk(f) && OutOk(f, out) && AllBelow(list, |f|)
    ensures out <= r && OutOk(f, r)
    decreases Unvisited(f, out), 1, |list|
  {
    if list == [] then out
    else
      var next := Visit(f, list[0], out);
      UnvisitedNeverGrows(f, out, next);
      assert AllBelow(list[1..], |f|);
      VisitAll(f, list[1..], next)
  }

  lemma {:induction false} VisitAllCovers(f: Forest, list: seq<nat>, out: seq<nat>)
    requires ForestOk(f) && OutOk(f, out) && AllBelow(list, |f|)
    ensures Covers(VisitAll(f, list, out), list)
    decreases |list|
  {
    if list != [] {
      var next := Visit(f, list[0], out);
      VisitAllCovers(f, list[1..], next);
      var r := VisitAll(f, list, out);
      assert next <= r && list[0] in next;
      forall i | 0 <= i < |list| ensures list[i] in r {
        if i > 0 {
          assert list[1..][i - 1] == list[i];
        }
      }
    }
  }

  /** The roots with all that is below them, and then what is on a cycle. */
  function Order(f: Forest): (r: seq<nat>)
    requires ForestOk(f)
    ensures OutOk(f, r)
  {
    VisitAll(f, UpTo(|f|), VisitAll(f, Kids(f, None, |f|), []))
  }

  /** Even with cycles every row is listed exactly once. */
  lemma OrderListsAllOnce(f: Forest)
    requires ForestOk(f)
    ensures |Order(f)| == |f| && Distinct(Order(f)) && forall x: nat :: x < |f| <==> x in Order(f)
  {
    var order := Order(f);
    VisitAllCovers(f, UpTo(|f|), VisitAll(f, Kids(f, None, |f|), []));
    forall x: nat | x < |f| ensures x in order {
      assert UpTo(|f|)[x] == x;
    }
    ItemsSize(order);
    assert Items(order) == FirstMany(|f|);
  }

  // ---------- Forests without cycles ----------

  /** A depth for each row, all below `bound`. */
  datatype Heights = Heights(depth: seq<nat>, bound: nat)

  /** Going up lowers the depth: there is no cycle. */
  ghost predicate IsAcyclic(f: Forest, h: Heights) {
    && ForestOk(f) && |h.depth| == |f|
    && (forall i :: 0 <= i < |f| ==> h.depth[i] < h.bound && (f[i].Some? ==> h.depth[f[i].value] < h.depth[i]))
  }

  /** `j` is `i` or below it. */
  ghost predicate Below(f: Forest, h: Heights, j: nat, i: nat)
    requires IsAcyclic(f, h) && j < |f|
    decreases h.depth[j]
  {
    j == i || (f[j].Some? && Below(f, h, f[j].value, i))
  }

  ghost function RootOf(f: Forest, h: Heights, j: nat): (r: nat)
    requires IsAcyclic(f, h) && j < |f|
    ensures r < |f| && f[r].None? && Below(f, h, j, r)
    decreases h.depth[j]
  {
    if f[j].None? then j else RootOf(f, h, f[j].value)
  }

  /** Rows of at least this depth. */
  ghost predicate IsLevel(f: Forest, h: Heights, level: nat, list: seq<nat>)
    requires IsAcyclic(f, h)
  {
    level <= h.bound && AllBelow(list, |f|) && forall k :: 0 <= k < |list| ==> h.depth[list[k]] >= level
  }

  /** A row and all below it, parents first. */
  ghost function Subtree(f: Forest, h: Heights, i: nat): seq<nat>
    requires IsAcyclic(f, h) && i < |f|
    decreases h.bound - h.depth[i], 0, 0
  {
    [i] + Subtrees(f, h, h.depth[i] + 1, Kids(f, Some(i), |f|))
  }

  ghost function Subtrees(f: Forest, h: Heights, level: nat, list: seq<nat>): seq<nat>
    requires IsAcyclic(f, h) && IsLevel(f, h, level, list)
    decreases h.bound - level, 1, |list|
  {
    if list == [] then [] else Subtree(f, h, list[0]) + Subtrees(f, h, level, list[1..])
  }

  lemma {:induction false} BelowChains(f: Forest, h: Heights, j: nat, x: nat, i: nat)
    requires IsAcyclic(f, h) && j < |f| && x < |f| && Below(f, h, j, x) && Below(f, h, x, i)
    ensures Below(f, h, j, i)
    decreases h.depth[j]
  {
    if j != x {
      BelowChains(f, h, f[j].value, x, i);
    }
  }

  lemma {:induction false} BelowIsDeeper(f: Forest, h: Heights, j: nat, i: nat)
    requires IsAcyclic(f, h) && j < |f| && Below(f, h, j, i)
    ensures i < |f| && (j != i ==> h.depth[i] < h.depth[j])
    decreases h.depth[j]
  {
    if j != i {
      BelowIsDeeper(f, h, f[j].value, i);
    }
  }

  /** What is below `i` is `i` itself or below one of its children. */
  lemma {:induction false} BelowSplits(f: Forest, h: Heights, j: nat, i: nat) returns (x: nat)
    requires IsAcyclic(f, h) && j < |f| && Below(f, h, j, i) && j != i
    ensures x < |f| && f[x] == Some(i) && Below(f, h, j, x)
    decreases h.depth[j]
  {
    if f[j].value == i {
      x := j;
    } else {
      x := BelowSplits(f, h, f[j].value, i);
    }
  }

  /** Of two rows above `j` one is above the other. */
  lemma {:induction false} AboveIsLinear(f: Forest, h: Heights, j: nat, x: nat, y: nat)
    requires IsAcyclic(f, h) && j < |f| && Below(f, h, j, x) && Below(f, h, j, y)
    ensures x < |f| && y < |f| && (Below(f, h, x, y) || Below(f, h, y, x))
    decreases h.depth[j]
  {
    BelowIsDeeper(f, h, j, x);
    BelowIsDeeper(f, h, j, y);
    if j != x && j != y {
      AboveIsLinear(f, h, f[j].value, x, y);
    }
  }

  /** Nothing is below two rows with the same parent, or below two roots. */
  lemma SiblingsApart(f: Forest, h: Heights, j: nat, x: nat, y: nat)
    requires IsAcyclic(f, h) && j < |f| && x < |f| && y < |f| && x != y && f[x] == f[y]
    requires Below(f, h, j, x)
    ensures !Below(f, h, j, y)
  {
    if Below(f, h, j, y) {
      AboveIsLinear(f, h, j, x, y);
      if f[x].Some? {
        if Below(f, h, x, y) {
          BelowIsDeeper(f, h, f[x].value, y);
        } else {
          BelowIsDeeper(f, h, f[y].value, x);
        }
      }
    }
  }

  ghost predicate BelowSome(f: Forest, h: Heights, j: nat, list: seq<nat>)
    requires IsAcyclic(f, h)
  {
    j < |f| && exists k :: 0 <= k < |list| && Below(f, h, j, list[k])
  }

  lemma KidsLevel(f: Forest, h: Heights, i: nat)
    requires IsAcyclic(f, h) && i < |f|
    ensures IsLevel(f, h, h.depth[i] + 1, Kids(f, Some(i), |f|))
  {
  }

  lemma BelowKids(f: Forest, h: Heights, i: nat, j: nat)
    requires IsAcyclic(f, h) && i < |f| && j < |f|
    ensures Below(f, h, j, i) <==> j == i || BelowSome(f, h, j, Kids(f, Some(i), |f|))
  {
    var kids := Kids(f, Some(i), |f|);
    if Below(f, h, j, i) && j != i {
      var x := BelowSplits(f, h, j, i);
      KidsComplete(f, Some(i), |f|, x);
      var k :| 0 <= k < |kids| && kids[k] == x;
    }
    if BelowSome(f, h, j, kids) {
      var k :| 0 <= k < |kids| && Below(f, h, j, kids[k]);
      BelowChains(f, h, j, kids[k], i);
    }
  }

  lemma {:induction false} SubtreeMembers(f: Forest, h: Heights, i: nat, j: nat)
    requires IsAcyclic(f, h) && i < |f|
    ensures j in Subtree(f, h, i) <==> j < |f| && Below(f, h, j, i)
    decreases h.bound - h.depth[i], 0, 0
  {
    KidsLevel(f, h, i);
    SubtreesMembers(f, h, h.depth[i] + 1, Kids(f, Some(i), |f|), j);
    hide IsAcyclic, Below, Kids, Subtrees;
    if j < |f| {
      BelowKids(f, h, i, j);
    }
  }

  lemma {:induction false} SubtreesMembers(f: Forest, h: Heights, level: nat, list: seq<nat>, j: nat)
    requires IsAcyclic(f, h) && IsLevel(f, h, level, list)
    ensures j in Subtrees(f, h, level, list) <==> BelowSome(f, h, j, list)
    decreases h.bound - level, 1, |list|
  {
    if list != [] {
      SubtreeMembers(f, h, list[0], j);
      SubtreesMembers(f, h, level, list[1..], j);
      SomeSplits(f, h, j, list);
    }
  }

  lemma SomeSplits(f: Forest, h: Heights, j: nat, list: seq<nat>)
    requires IsAcyclic(f, h) && list != []
    ensures BelowSome(f, h, j, list) <==> BelowSome(f, h, j, list[1..]) || (j < |f| && Below(f, h, j, list[0]))
  {
    if BelowSome(f, h, j, list[1..]) {
      var k :| 0 <= k < |list| - 1 && Below(f, h, j, list[1..][k]);
      assert Below(f, h, j, list[k + 1]);
    }
    if BelowSome(f, h, j, list) {
      var k :| 0 <= k < |list| && Below(f, h, j, list[k]);
      if k > 0 {
        assert Below(f, h, j, list[1..][k - 1]);
      }
    }
  }

  // ---------- The walk of a forest without cycles ----------

  /** Nothing below `i` was visited. */
  ghost predicate IsFresh(f: Forest, h: Heights, i: nat, out: seq<nat>)
    requires IsAcyclic(f, h) && i < |f|
  {
    forall j :: j in out ==> j < |f| && !Below(f, h, j, i)
  }

  /** The rows of the list are siblings in their order, and nothing below them was visited. */
  ghost predicate AreFresh(f: Forest, h: Heights, list: seq<nat>, out: seq<nat>)
    requires IsAcyclic(f, h)
  {
    && AllBelow(list, |f|) && Distinct(list)
    && (forall k, m :: 0 <= k < m < |list| ==> f[list[k]] == f[list[m]])
    && (forall k :: 0 <= k < |list| ==> IsFresh(f, h, list[k], out))
  }

  lemma {:induction false} VisitIsSubtree(f: Forest, h: Heights, i: nat, out: seq<nat>)
    requires IsAcyclic(f, h) && i < |f| && OutOk(f, out) && IsFresh(f, h, i, out)
    ensures Visit(f, i, out) == out + Subtree(f, h, i)
    decreases h.bound - h.depth[i], 0, 0
  {
    var kids := Kids(f, Some(i), |f|);
    assert i !in out;
    KidsLevel(f, h, i);
    KidsFresh(f, h, i, out);
    VisitAllIsSubtrees(f, h, h.depth[i] + 1, kids, out + [i]);
    assert out + [i] + Subtrees(f, h, h.depth[i] + 1, kids) == out + Subtree(f, h, i);
  }

  lemma KidsFresh(f: Forest, h: Heights, i: nat, out: seq<nat>)
    requires IsAcyclic(f, h) && i < |f| && OutOk(f, out) && IsFresh(f, h, i, out)
    ensures OutOk(f, out + [i]) && AreFresh(f, h, Kids(f, Some(i), |f|), out + [i])
  {
    var kids := Kids(f, Some(i), |f|);
    assert i in out ==> Below(f, h, i, i);
    forall k | 0 <= k < |kids| ensures IsFresh(f, h, kids[k], out + [i]) {
      forall j | j in out + [i] ensures j < |f| && !Below(f, h, j, kids[k]) {
        if Below(f, h, j, kids[k]) {
          if j == i {
            BelowIsDeeper(f, h, i, kids[k]);
          } else {
            BelowChains(f, h, j, kids[k], i);
          }
        }
      }
    }
  }

  lemma {:induction false} VisitAllIsSubtrees(f: Forest, h: Heights, level: nat, list: seq<nat>, out: seq<nat>)
    requires IsAcyclic(f, h) && IsLevel(f, h, level, list) && OutOk(f, out) && AreFresh(f, h, list, out)
    ensures VisitAll(f, list, out) == out + Subtrees(f, h, level, list)
    decreases h.bound - level, 1, |list|
  {
    if list == [] {
      assert out + [] == out;
    } else {
      HeadIsFresh(f, h, level, list, out);
      VisitIsSubtree(f, h, list[0], out);
      var next := Visit(f, list[0], out);
      SiblingsStayFresh(f, h, list, out, next);
      VisitAllIsSubtrees(f, h, level, list[1..], next);
      hide IsAcyclic, AreFresh, IsLevel, OutOk, Subtree, Visit;
      Associates(out, Subtree(f, h, list[0]), Subtrees(f, h, level, list[1..]));
    }
  }

  lemma Associates(a: seq<nat>, b: seq<nat>, c: seq<nat>)
    ensures (a + b) + c == a + (b + c)
  {
  }

  lemma HeadIsFresh(f: Forest, h: Heights, level: nat, list: seq<nat>, out: seq<nat>)
    requires IsAcyclic(f, h) && IsLevel(f, h, level, list) && AreFresh(f, h, list, out) && list != []
    ensures list[0] < |f| && IsFresh(f, h, list[0], out) && h.depth[list[0]] >= level
    ensures IsLevel(f, h, level, list[1..]) && AllBelow(list[1..], |f|)
  {
  }

  lemma SiblingsStayFresh(f: Forest, h: Heights, list: seq<nat>, out: seq<nat>, next: seq<nat>)
    requires IsAcyclic(f, h) && list != [] && AreFresh(f, h, list, out) && next == out + Subtree(f, h, list[0])
    ensures AreFresh(f, h, list[1..], next)
  {
    var rest := list[1..];
    forall k | 0 <= k < |rest| ensures IsFresh(f, h, rest[k], next) {
      assert rest[k] == list[k + 1] && IsFresh(f, h, list[k + 1], out);
      forall j | j in next ensures j < |f| && !Below(f, h, j, rest[k]) {
        if j !in out {
          assert j in Subtree(f, h, list[0]);
          SubtreeMembers(f, h, list[0], j);
          SiblingsApart(f, h, j, list[0], rest[k]);
        }
      }
    }
  }

  /** Where all was visited the walk adds nothing. */
  lemma {:induction false} VisitAllDone(f: Forest, list: seq<nat>, out: seq<nat>)
    requires ForestOk(f) && OutOk(f, out) && AllBelow(list, |f|) && Covers(out, list)
    ensures VisitAll(f, list, out) == out
    decreases |list|
  {
    if list != [] {
      assert list[0] in out;
      VisitAllDone(f, list[1..], out);
    }
  }

  ghost function AllSubtrees(f: Forest, h: Heights): seq<nat>
    requires IsAcyclic(f, h)
  {
    Subtrees(f, h, 0, Kids(f, None, |f|))
  }

  /** Without cycles the rows come as the subtrees of the roots, in the roots' order. */
  lemma OrderIsSubtrees(f: Forest, h: Heights)
    requires IsAcyclic(f, h)
    ensures Order(f) == AllSubtrees(f, h)
  {
    var roots := Kids(f, None, |f|);
    VisitAllIsSubtrees(f, h, 0, roots, []);
    var out := VisitAll(f, roots, []);
    assert out == [] + AllSubtrees(f, h) == AllSubtrees(f, h);
    forall x: nat | x < |f| ensures x in out {
      var r := RootOf(f, h, x);
      KidsComplete(f, None, |f|, r);
      var k :| 0 <= k < |roots| && roots[k] == r;
      SubtreesMembers(f, h, 0, roots, x);
    }
    VisitAllDone(f, UpTo(|f|), out);
  }

  // ---------- Subtrees are contiguous ----------

  ghost predicate IsBlock(s: seq<nat>, part: seq<nat>, p: nat) {
    p + |part| <= |s| && s[p..p + |part|] == part
  }

  lemma BlockInBlock(s: seq<nat>, part: seq<nat>, p: nat, inner: seq<nat>, q: nat)
    requires IsBlock(s, part, p) && IsBlock(part, inner, q)
    ensures IsBlock(s, inner, p + q)
  {
    var end := p + q + |inner|;
    forall k | 0 <= k < |inner| ensures s[p + q..end][k] == inner[k] {
      assert inner[k] == part[q + k] == s[p + q + k];
    }
  }

  lemma {:induction false} SubtreeInSubtrees(f: Forest, h: Heights, level: nat, list: seq<nat>, i: nat) returns (p: nat)
    requires IsAcyclic(f, h) && IsLevel(f, h, level, list) && i in list && i < |f|
    ensures IsBlock(Subtrees(f, h, level, list), Subtree(f, h, i), p)
    decreases |list|
  {
    hide IsBlock, Subtree, IsAcyclic;
    var first, rest := Subtree(f, h, list[0]), Subtrees(f, h, level, list[1..]);
    assert list == [list[0]] + list[1..];
    BlocksOfSum(first, rest);
    if list[0] == i {
      p := 0;
    } else {
      var q := SubtreeInSubtrees(f, h, level, list[1..], i);
      p := |first| + q;
      BlockInBlock(first + rest, rest, |first|, Subtree(f, h, i), q);
    }
  }

  lemma BlocksOfSum(a: seq<nat>, b: seq<nat>)
    ensures IsBlock(a + b, a, 0) && IsBlock(a + b, b, |a|)
  {
  }

  /** Directly behind every row comes all that is below it, and nothing else. */
  lemma {:induction false} SubtreeIsContiguous(f: Forest, h: Heights, i: nat) returns (p: nat)
    requires IsAcyclic(f, h) && i < |f|
    ensures IsBlock(Order(f), Subtree(f, h, i), p) && Order(f)[p] == i
    ensures forall j: nat :: j in Subtree(f, h, i) <==> j < |f| && Below(f, h, j, i)
    decreases h.depth[i]
  {
    OrderIsSubtrees(f, h);
    hide IsBlock, Subtree, Subtrees, Order, Below, Distinct;
    if f[i].None? {
      KidsComplete(f, None, |f|, i);
      p := SubtreeInSubtrees(f, h, 0, Kids(f, None, |f|), i);
    } else {
      var parent := f[i].value;
      var q := SubtreeIsContiguous(f, h, parent);
      var kids := Kids(f, Some(parent), |f|);
      KidsLevel(f, h, parent);
      KidsComplete(f, Some(parent), |f|, i);
      var k := SubtreeInSubtrees(f, h, h.depth[parent] + 1, kids, i);
      BlockInSubtree(f, h, parent, Subtree(f, h, i), k);
      BlockInBlock(Order(f), Subtree(f, h, parent), q, Subtree(f, h, i), 1 + k);
      p := q + 1 + k;
    }
    FirstOfBlock(f, h, i, p);
    forall j: nat ensures j in Subtree(f, h, i) <==> j < |f| && Below(f, h, j, i) {
      SubtreeMembers(f, h, i, j);
    }
  }

  lemma FirstOfBlock(f: Forest, h: Heights, i: nat, p: nat)
    requires IsAcyclic(f, h) && i < |f| && IsBlock(Order(f), Subtree(f, h, i), p)
    ensures Order(f)[p] == i
  {
    assert Order(f)[p] == Order(f)[p..p + |Subtree(f, h, i)|][0];
  }

  lemma SubtreeIs(f: Forest, h: Heights, i: nat)
    requires IsAcyclic(f, h) && i < |f|
    ensures h.depth[i] < h.bound && IsLevel(f, h, h.depth[i] + 1, Kids(f, Some(i), |f|))
    ensures Subtree(f, h, i) == [i] + Subtrees(f, h, h.depth[i] + 1, Kids(f, Some(i), |f|))
  {
  }

  lemma BlockInSubtree(f: Forest, h: Heights, i: nat, part: seq<nat>, k: nat)
    requires IsAcyclic(f, h) && i < |f| && IsLevel(f, h, h.depth[i] + 1, Kids(f, Some(i), |f|))
    requires IsBlock(Subtrees(f, h, h.depth[i] + 1, Kids(f, Some(i), |f|)), part, k)
    ensures IsBlock(Subtree(f, h, i), part, 1 + k)
  {
    hide IsBlock, Subtree, Subtrees, Kids, IsLevel;
    SubtreeIs(f, h, i);
    BlockBehind(i, Subtrees(f, h, h.depth[i] + 1, Kids(f, Some(i), |f|)), part, k);
  }

  lemma BlockBehind(i: nat, rest: seq<nat>, part: seq<nat>, k: nat)
    requires IsBlock(rest, part, k)
    ensures IsBlock([i] + rest, part, 1 + k)
  {
    assert ([i] + rest)[1..] == rest;
    BlockInBlock([i] + rest, rest, 1, part, k);
  }

  // ---------- Roots keep their order ----------

  lemma {:induction false} RootIsUnique(f: Forest, h: Heights, j: nat, r: nat)
    requires IsAcyclic(f, h) && j < |f| && r < |f| && f[r].None? && Below(f, h, j, r)
    ensures RootOf(f, h, j) == r
    decreases h.depth[j]
  {
    if f[j].Some? {
      RootIsUnique(f, h, f[j].value, r);
    }
  }

  ghost predicate AreRoots(f: Forest, h: Heights, list: seq<nat>)
    requires IsAcyclic(f, h)
  {
    IsLevel(f, h, 0, list) && Ascending(list) && forall k :: 0 <= k < |list| ==> f[list[k]].None?
  }

  lemma TailAreRoots(f: Forest, h: Heights, list: seq<nat>)
    requires IsAcyclic(f, h) && AreRoots(f, h, list) && list != []
    ensures AreRoots(f, h, list[1..]) && IsLevel(f, h, 0, list) && list[0] < |f| && f[list[0]].None?
    ensures forall x :: x in list[1..] ==> list[0] < x && x in list
  {
  }

  /** The root of what stands at place `a`. */
  ghost predicate HasRoot(f: Forest, h: Heights, s: seq<nat>, a: nat, r: nat)
    requires IsAcyclic(f, h)
  {
    a < |s| && s[a] < |f| && RootOf(f, h, s[a]) == r
  }

  /** Along the subtrees of roots the root never goes back. */
  lemma {:induction false} RootsAscendIn(f: Forest, h: Heights, list: seq<nat>, a: nat, b: nat) returns (r: nat, q: nat)
    requires IsAcyclic(f, h) && AreRoots(f, h, list) && a <= b < |Subtrees(f, h, 0, list)|
    ensures var s := Subtrees(f, h, 0, list);
      HasRoot(f, h, s, a, r) && HasRoot(f, h, s, b, q) && r in list && q in list && r <= q
    decreases |list|
  {
    var s := Subtrees(f, h, 0, list);
    TailAreRoots(f, h, list);
    var first, rest := Subtree(f, h, list[0]), Subtrees(f, h, 0, list[1..]);
    assert s == first + rest;
    hide AreRoots, IsLevel, IsAcyclic, Subtree, Subtrees, RootOf;
    if a < |first| {
      InFirst(f, h, list[0], first, a);
      r := list[0];
    }
    if b < |first| {
      InFirst(f, h, list[0], first, b);
      q := list[0];
    } else if a < |first| {
      var _, q' := RootsAscendIn(f, h, list[1..], b - |first|, b - |first|);
      q := q';
      assert s[b] == rest[b - |first|];
    } else {
      r, q := RootsAscendIn(f, h, list[1..], a - |first|, b - |first|);
      assert s[a] == rest[a - |first|] && s[b] == rest[b - |first|];
    }
  }

  lemma InFirst(f: Forest, h: Heights, r: nat, part: seq<nat>, a: nat)
    requires IsAcyclic(f, h) && r < |f| && f[r].None? && part == Subtree(f, h, r) && a < |part|
    ensures part[a] < |f| && RootOf(f, h, part[a]) == r
  {
    assert part[a] in part;
    SubtreeMembers(f, h, r, part[a]);
    RootIsUnique(f, h, part[a], r);
  }

  lemma RootsAscend(f: Forest, h: Heights, a: nat, b: nat)
    requires IsAcyclic(f, h) && a <= b < |Order(f)|
    ensures Order(f)[a] < |f| && Order(f)[b] < |f| && RootOf(f, h, Order(f)[a]) <= RootOf(f, h, Order(f)[b])
  {
    OrderIsSubtrees(f, h);
    var r, q := RootsAscendIn(f, h, Kids(f, None, |f|), a, b);
  }
}
