/** The row that gives an agent its panel, session and tab: the end of its chain of parents, or,
    where the parents form a cycle, the row with the least pane ID on the way. */
module DashboardHierarchyRoots {
  import opened Basics
  import opened TextOrder
  import opened AgentHierarchy
  import opened AgentDashboard

  const ZERO_ROW := Row("", "", "", false, "", "", "", 0)

  function Named(rows: seq<Row>, pane: string): (r: Option<Row>)
    ensures r.Some? ==> r.value in rows && r.value.pane == pane
  {
    var k := ByPane(rows, pane, |rows|);
    if k.Some? then Some(rows[k.value]) else None
  }

  /** A lookup that answers the empty row where there is none. */
  function NamedRow(rows: seq<Row>, pane: string): Row {
    var r := Named(rows, pane);
    if r.Some? then r.value else ZERO_ROW
  }

  /** The row `n` parents above. */
  function Climb(rows: seq<Row>, row: Row, n: nat): Option<Row> {
    if n == 0 then Some(row)
    else
      var below := Climb(rows, row, n - 1);
      if below.Some? then Named(rows, below.value.parent) else None
  }

  ghost predicate PaneAt(rows: seq<Row>, row: Row, n: nat, pane: string) {
    var r := Climb(rows, row, n);
    r.Some? && r.value.pane == pane
  }

  ghost predicate EndsAt(rows: seq<Row>, row: Row, n: nat, root: Row) {
    Climb(rows, row, n) == Some(root) && Named(rows, root.parent) == None
  }

  ghost predicate IsEndless(rows: seq<Row>, row: Row) {
    forall n: nat :: Climb(rows, row, n).Some?
  }

  /** Of all rows above `row`, itself included, `root` has the least pane ID. */
  ghost predicate IsLeastAbove(rows: seq<Row>, row: Row, root: Row) {
    && root == NamedRow(rows, root.pane) && (exists n: nat :: PaneAt(rows, row, n, root.pane))
    && forall n: nat, pane :: PaneAt(rows, row, n, pane) ==> !Before(pane, root.pane)
  }

  ghost predicate IsRoot(rows: seq<Row>, row: Row, root: Row) {
    (exists n: nat :: EndsAt(rows, row, n, root)) || (IsEndless(rows, row) && IsLeastAbove(rows, row, root))
  }

  /** No later row has the same pane ID. */
  predicate IsLast(rows: seq<Row>, row: Row) {
    row in rows && (row.pane == "" || Named(rows, row.pane) == Some(row))
  }

  // ---------- Climbing ----------

  lemma {:induction false} ClimbSplits(rows: seq<Row>, row: Row, a: nat, b: nat)
    requires Climb(rows, row, a).Some?
    ensures Climb(rows, row, a + b) == Climb(rows, Climb(rows, row, a).value, b)
    decreases b
  {
    if b > 0 {
      ClimbSplits(rows, row, a, b - 1);
    }
  }

  lemma {:induction false} ClimbStops(rows: seq<Row>, row: Row, a: nat, b: nat)
    requires a <= b && Climb(rows, row, b).Some?
    ensures Climb(rows, row, a).Some?
    decreases b
  {
    if a < b {
      ClimbStops(rows, row, a, b - 1);
    }
  }

  /** Having come back to where it was, the climb never ends and meets nothing new. */
  lemma {:induction false} ClimbRepeats(rows: seq<Row>, row: Row, k: nat, n: nat, m: nat)
    requires k < n && Climb(rows, row, n).Some? && Climb(rows, row, k) == Climb(rows, row, n)
    ensures exists j :: 0 <= j < n && Climb(rows, row, m) == Climb(rows, row, j)
    ensures Climb(rows, row, m).Some?
    decreases m
  {
    if m < n {
      ClimbStops(rows, row, m, n);
    } else {
      ClimbSplits(rows, row, n, m - n);
      ClimbSplits(rows, row, k, m - n);
      ClimbRepeats(rows, row, k, n, m - n + k);
    }
  }

  lemma EndIsUnique(rows: seq<Row>, row: Row, m: nat, n: nat, a: Row, b: Row)
    requires EndsAt(rows, row, m, a) && EndsAt(rows, row, n, b)
    ensures a == b
  {
    if m < n {
      ClimbStops(rows, row, m + 1, n);
    } else if n < m {
      ClimbStops(rows, row, n + 1, m);
    }
  }

  lemma EndlessHasNoEnd(rows: seq<Row>, row: Row)
    requires IsEndless(rows, row)
    ensures forall n: nat, r :: !EndsAt(rows, row, n, r)
  {
    forall n: nat, r ensures !EndsAt(rows, row, n, r) {
      assert Climb(rows, row, n + 1).Some?;
    }
  }

  lemma OneRootOnly(rows: seq<Row>, row: Row, a: Row, b: Row)
    requires IsRoot(rows, row, a) && IsRoot(rows, row, b)
    ensures a == b
  {
    if IsEndless(rows, row) {
      EndlessHasNoEnd(rows, row);
      OneIsBefore(a.pane, b.pane);
    } else {
      var m: nat :| EndsAt(rows, row, m, a);
      var n: nat :| EndsAt(rows, row, n, b);
      EndIsUnique(rows, row, m, n, a, b);
    }
  }

  lemma PaneAbove(rows: seq<Row>, x: Row, y: Row, m: nat, k: nat, pane: string)
    requires Climb(rows, x, m) == Some(y)
    ensures PaneAt(rows, y, k, pane) <==> PaneAt(rows, x, m + k, pane)
    ensures Climb(rows, y, k) == Climb(rows, x, m + k)
  {
    ClimbSplits(rows, x, m, k);
  }

  lemma EndlessSharesRoot(rows: seq<Row>, x: Row, y: Row, m: nat, n: nat, root: Row)
    requires Climb(rows, x, m) == Some(y) && Climb(rows, y, n) == Some(x)
    requires IsEndless(rows, x) && IsLeastAbove(rows, x, root)
    ensures IsEndless(rows, y) && IsLeastAbove(rows, y, root)
  {
    hide PaneAt, Climb, NamedRow, Before;
    forall k: nat ensures Climb(rows, y, k).Some? {
      PaneAbove(rows, x, y, m, k, "");
    }
    var k: nat :| PaneAt(rows, x, k, root.pane);
    PaneAbove(rows, y, x, n, k, root.pane);
    forall j: nat, pane | PaneAt(rows, y, j, pane) ensures !Before(pane, root.pane) {
      PaneAbove(rows, x, y, m, j, pane);
    }
  }

  /** Rows that reach each other have the same root: a cycle is not torn apart. */
  lemma CycleSharesRoot(rows: seq<Row>, x: Row, y: Row, m: nat, n: nat, root: Row)
    requires Climb(rows, x, m) == Some(y) && Climb(rows, y, n) == Some(x) && IsRoot(rows, x, root)
    ensures IsRoot(rows, y, root)
  {
    hide IsLeastAbove, IsEndless;
    if k: nat :| EndsAt(rows, x, k, root) {
      if m <= k {
        PaneAbove(rows, x, y, m, k - m, "");
        assert EndsAt(rows, y, k - m, root);
      } else {
        ClimbStops(rows, x, k + 1, m);
        assert false;
      }
    } else {
      EndlessSharesRoot(rows, x, y, m, n, root);
    }
  }

  // ---------- The loop ----------

  ghost predicate NoneBefore(panes: set<string>, pane: string) {
    forall p :: p in panes ==> !Before(p, pane)
  }

  lemma LowerStillLeast(panes: set<string>, pane: string, id: string)
    requires NoneBefore(panes, pane) && Before(id, pane)
    ensures NoneBefore(panes, id)
  {
    forall p | p in panes ensures !Before(p, id) {
      if Before(p, id) {
        BeforeChains(p, id, pane);
      }
    }
  }

  /** The row with the least of the pane IDs. */
  method Least(rows: seq<Row>, seen: set<string>, row: Row) returns (root: Row)
    requires row.pane in seen && row == NamedRow(rows, row.pane)
    requires forall p :: p in seen ==> NamedRow(rows, p).pane == p
    ensures root.pane in seen && root == NamedRow(rows, root.pane) && NoneBefore(seen, root.pane)
  {
    root := row;
    var rest := seen;
    while rest != {}
      invariant rest <= seen && root.pane in seen && root == NamedRow(rows, root.pane) && NoneBefore(seen - rest, root.pane)
      decreases |rest|
    {
      var id :| id in rest;
      var less := TextBefore(id, root.pane);
      if less {
        LowerStillLeast(seen - rest, root.pane, id);
        NotBeforeItself(id);
        root := NamedRow(rows, id);
      }
      rest := rest - {id};
    }
    assert seen - rest == seen;
  }

  /** The panes of the first `n` rows of the climb. */
  ghost predicate AreSeen(rows: seq<Row>, row: Row, n: nat, seen: set<string>) {
    && (forall p :: p in seen ==> exists k: nat :: k < n && PaneAt(rows, row, k, p))
    && (forall k: nat, p :: k < n && PaneAt(rows, row, k, p) ==> p in seen)
  }

  ghost function PaneIds(rows: seq<Row>): set<string> {
    set r | r in rows :: r.pane
  }

  lemma ClimbStaysInRows(rows: seq<Row>, row: Row, n: nat)
    requires row in rows && Climb(rows, row, n).Some?
    ensures var r := Climb(rows, row, n).value; r in rows && NamedRow(rows, r.pane).pane == r.pane
    ensures n > 0 ==> Named(rows, Climb(rows, row, n).value.pane) == Climb(rows, row, n)
  {
    var r := Climb(rows, row, n).value;
    if n > 0 {
      ClimbStops(rows, row, n - 1, n);
    }
  }

  /** The climb met a pane again: it is on a cycle, and `seen` is all it will ever meet. */
  lemma MetAgain(rows: seq<Row>, row: Row, n: nat, seen: set<string>)
    requires IsLast(rows, row) && Climb(rows, row, n).Some? && AreSeen(rows, row, n, seen)
    requires Climb(rows, row, n).value.pane in seen
    ensures IsEndless(rows, row)
    ensures forall m: nat, p :: PaneAt(rows, row, m, p) ==> p in seen
  {
    var r := Climb(rows, row, n).value;
    var k: nat :| k < n && PaneAt(rows, row, k, r.pane);
    ClimbStaysInRows(rows, row, n);
    ClimbStaysInRows(rows, row, k);
    assert Climb(rows, row, k) == Climb(rows, row, n);
    forall m: nat ensures Climb(rows, row, m).Some? && forall p :: PaneAt(rows, row, m, p) ==> p in seen {
      ClimbRepeats(rows, row, k, n, m);
      var j :| 0 <= j < n && Climb(rows, row, m) == Climb(rows, row, j);
      assert PaneAt(rows, row, j, Climb(rows, row, m).value.pane);
    }
  }

  lemma SeenNames(rows: seq<Row>, row: Row, n: nat, seen: set<string>)
    requires row in rows && AreSeen(rows, row, n, seen)
    ensures seen <= PaneIds(rows) && forall p :: p in seen ==> NamedRow(rows, p).pane == p
  {
    forall p | p in seen ensures p in PaneIds(rows) && NamedRow(rows, p).pane == p {
      var k: nat :| k < n && PaneAt(rows, row, k, p);
      ClimbStaysInRows(rows, row, k);
    }
  }

  lemma SeenNext(rows: seq<Row>, row: Row, n: nat, seen: set<string>, r: Row)
    requires AreSeen(rows, row, n, seen) && Climb(rows, row, n) == Some(r)
    ensures AreSeen(rows, row, n + 1, seen + {r.pane})
  {
    assert PaneAt(rows, row, n, r.pane);
    forall k: nat, p | k < n + 1 && PaneAt(rows, row, k, p) ensures p in seen + {r.pane} {
      assert k < n || p == r.pane;
    }
    forall p | p in seen + {r.pane} ensures exists k: nat :: k < n + 1 && PaneAt(rows, row, k, p) {
      if p in seen {
        var k: nat :| k < n && PaneAt(rows, row, k, p);
        assert k < n + 1;
      }
    }
  }

  lemma FewerLeft(all: set<string>, seen: set<string>, p: string)
    requires p in all && p !in seen
    ensures |all - (seen + {p})| < |all - seen|
  {
    assert all - (seen + {p}) == all - seen - {p};
  }

  method HierarchyRoot(rows: seq<Row>, row: Row) returns (root: Row)
    requires row in rows
    ensures IsLast(rows, row) ==> IsRoot(rows, row, root)
  {
    hide AreSeen, IsEndless, NamedRow, Named, Climb;
    root := row;
    var seen: set<string> := {};
    ghost var n: nat := 0;
    StartOfClimb(rows, row);
    while root.parent != ""
      invariant Climb(rows, row, n) == Some(root) && AreSeen(rows, row, n, seen)
      decreases |PaneIds(rows) - seen|
    {
      SeenNames(rows, row, n, seen);
      ClimbStaysInRows(rows, row, n);
      if root.pane in seen {
        RowIsNamed(rows, row, n, seen);
        root := Least(rows, seen, root);
        if IsLast(rows, row) {
          MetAgain(rows, row, n, seen);
          LeastOfSeen(rows, row, n, seen, root);
        }
        return;
      }
      SeenNext(rows, row, n, seen, root);
      FewerLeft(PaneIds(rows), seen, root.pane);
      seen := seen + {root.pane};
      var parent := Named(rows, root.parent);
      if parent.None? {
        break;
      }
      NextOfClimb(rows, row, n);
      n := n + 1;
      root := parent.value;
    }
    NoName(rows);
    assert EndsAt(rows, row, n, root);
  }

  lemma StartOfClimb(rows: seq<Row>, row: Row)
    ensures Climb(rows, row, 0) == Some(row) && AreSeen(rows, row, 0, {})
  {
  }

  lemma NextOfClimb(rows: seq<Row>, row: Row, n: nat)
    requires Climb(rows, row, n).Some?
    ensures Climb(rows, row, n + 1) == Named(rows, Climb(rows, row, n).value.parent)
  {
  }

  lemma NoName(rows: seq<Row>)
    ensures Named(rows, "") == None
  {
  }

  lemma RowIsNamed(rows: seq<Row>, row: Row, n: nat, seen: set<string>)
    requires AreSeen(rows, row, n, seen) && Climb(rows, row, n).Some? && Climb(rows, row, n).value.pane in seen && row in rows
    ensures Climb(rows, row, n).value == NamedRow(rows, Climb(rows, row, n).value.pane)
  {
    ClimbStaysInRows(rows, row, n);
  }

  lemma LeastOfSeen(rows: seq<Row>, row: Row, n: nat, seen: set<string>, root: Row)
    requires AreSeen(rows, row, n, seen) && IsEndless(rows, row)
    requires forall m: nat, p :: PaneAt(rows, row, m, p) ==> p in seen
    requires root.pane in seen && root == NamedRow(rows, root.pane) && NoneBefore(seen, root.pane)
    ensures IsRoot(rows, row, root)
  {
    var k: nat :| k < n && PaneAt(rows, row, k, root.pane);
    assert IsLeastAbove(rows, row, root);
  }
}
