/** The dashboard's rows: reordered in place behind their parents, split into two panels by
    their root rows, and listed under session and tab headings. */
module AgentDashboard {
  import opened Basics
  import opened TextOrder
  import opened AgentHierarchy

  datatype Row = Row(
    agent: string, pane: string, parent: string, pinned: bool, session: string, tab: string, tabName: string, createdAt: int)

  // ---------- Parents ----------

  /** The last of the first `m` rows with this pane ID. */
  function ByPane(rows: seq<Row>, pane: string, m: nat): (k: Option<nat>)
    requires m <= |rows|
    ensures k.Some? ==> k.value < m && rows[k.value].pane == pane
    ensures k.None? ==> pane == "" || forall i :: 0 <= i < m ==> rows[i].pane != pane
  {
    if m == 0 || pane == "" then None
    else if rows[m - 1].pane == pane then Some(m - 1) else ByPane(rows, pane, m - 1)
  }

  function ParentOf(rows: seq<Row>, i: nat): Option<nat>
    requires i < |rows|
  {
    var p := ByPane(rows, rows[i].parent, |rows|);
    if p.Some? && p.value != i then p else None
  }

  function Parents(rows: seq<Row>): (f: Forest)
    ensures |f| == |rows| && ForestOk(f) && forall i :: 0 <= i < |rows| ==> f[i] == ParentOf(rows, i)
  {
    seq(|rows|, i requires 0 <= i < |rows| => ParentOf(rows, i))
  }

  function Picked(rows: seq<Row>, order: seq<nat>): (r: seq<Row>)
    requires AllBelow(order, |rows|)
    ensures |r| == |order| && forall k :: 0 <= k < |order| ==> r[k] == rows[order[k]]
  {
    seq(|order|, k requires 0 <= k < |order| => rows[order[k]])
  }

  /** The rows in the order of the hierarchy. */
  function Ordered(rows: seq<Row>): seq<Row> {
    Picked(rows, Order(Parents(rows)))
  }

  // ---------- Reordering in place ----------

  /** The walk's state: rows are written to the front of the array from which a copy was taken. */
  class Walk {
    const rows: array<Row>
    const original: seq<Row>
    const children: seq<seq<nat>>
    var visited: set<nat>
    var count: nat
    ghost var out: seq<nat>

    ghost predicate Valid()
      reads this, rows
    {
      && rows.Length == |original| == |children|
      && (forall i :: 0 <= i < |children| ==> children[i] == Kids(Parents(original), Some(i), |original|))
      && OutOk(Parents(original), out) && (forall x: nat :: x in visited <==> x in out)
      && count == |out| <= rows.Length
      && (forall k :: 0 <= k < count ==> rows[k] == original[out[k]])
    }

    constructor (rows: array<Row>, children: seq<seq<nat>>)
      requires rows.Length == |children|
      requires forall i :: 0 <= i < |children| ==> children[i] == Kids(Parents(rows[..]), Some(i), rows.Length)
      ensures Valid() && this.rows == rows && original == rows[..] && out == []
    {
      this.rows, this.original, this.children := rows, rows[..], children;
      visited, count, out := {}, 0, [];
    }

    /** The row is written to the next free place of the array. */
    method Append(i: nat)
      requires Valid() && i < |original| && i !in out && OutOk(Parents(original), out + [i]) && |out| < |original|
      modifies this, rows
      ensures Valid() && out == old(out) + [i]
    {
      hide Parents, OutOk;
      visited := visited + {i};
      rows[count] := original[i];
      count := count + 1;
      out := out + [i];
    }

    method VisitRow(i: nat)
      requires Valid() && i < |original|
      modifies this, rows
      ensures Valid() && out == Visit(Parents(original), i, old(out))
      decreases Unvisited(Parents(original), out), 0, 0
    {
      hide OutOk, Unvisited, Parents;
      if i in visited {
        return;
      }
      OutFits(Parents(original), out, i);
      UnvisitedFalls(Parents(original), out, i);
      Append(i);
      assert children[i][0..] == children[i];
      VisitChildren(children[i], 0);
    }

    method VisitChildren(list: seq<nat>, k: nat)
      requires Valid() && AllBelow(list, |original|) && k <= |list|
      modifies this, rows
      ensures Valid() && out == VisitAll(Parents(original), list[k..], old(out))
      decreases Unvisited(Parents(original), out), 1, |list| - k
    {
      if k < |list| {
        assert list[k..][0] == list[k] && list[k..][1..] == list[k + 1..];
        VisitRow(list[k]);
        UnvisitedNeverGrows(Parents(original), old(out), out);
        VisitChildren(list, k + 1);
      }
    }
  }

  lemma OutFits(f: Forest, out: seq<nat>, i: nat)
    requires OutOk(f, out) && i < |f| && i !in out
    ensures OutOk(f, out + [i]) && |out| < |f|
  {
    ItemsSize(out + [i]);
    SubsetSize(Items(out + [i]), FirstMany(|f|));
  }

  method ChildLists(rows: seq<Row>) returns (children: seq<seq<nat>>, roots: seq<nat>)
    ensures |children| == |rows| && roots == Kids(Parents(rows), None, |rows|)
    ensures forall i :: 0 <= i < |rows| ==> children[i] == Kids(Parents(rows), Some(i), |rows|)
  {
    hide Kids, ParentOf, ByPane;
    ghost var f := Parents(rows);
    NoKids(f);
    var lists := new seq<nat>[|rows|](_ => []);
    roots := [];
    for i := 0 to |rows|
      invariant roots == Kids(f, None, i)
      invariant forall p :: 0 <= p < |rows| ==> lists[p] == Kids(f, Some(p), i)
    {
      KidsNext(f, i);
      var p := FindParent(rows, i);
      if p.Some? {
        lists[p.value] := lists[p.value] + [i];
      } else {
        roots := roots + [i];
      }
    }
    children := lists[..];
  }

  method FindParent(rows: seq<Row>, i: nat) returns (p: Option<nat>)
    requires i < |rows|
    ensures p == Parents(rows)[i] && (p.Some? ==> p.value < |rows|)
  {
    p := ByPane(rows, rows[i].parent, |rows|);
    if p.Some? && p.value == i {
      p := None;
    }
    assert Parents(rows)[i] == ParentOf(rows, i);
  }

  lemma NoKids(f: Forest)
    ensures forall p :: Kids(f, p, 0) == []
  {
  }

  lemma KidsNext(f: Forest, i: nat)
    requires i < |f|
    ensures forall p :: Kids(f, p, i + 1) == Kids(f, p, i) + if f[i] == p then [i] else []
  {
  }

  /** Overwriting the array from a copy loses nothing, whatever the parents are. */
  method OrderChildren(rows: array<Row>)
    modifies rows
    ensures rows[..] == Ordered(old(rows[..]))
    ensures multiset(rows[..]) == multiset(old(rows[..]))
  {
    ghost var f := Parents(rows[..]);
    var children, roots := ChildLists(rows[..]);
    var walk := new Walk(rows, children);
    walk.VisitChildren(roots, 0);
    assert roots[0..] == roots;
    var all := UpTo(rows.Length);
    walk.VisitChildren(all, 0);
    assert all[0..] == all;
    OrderListsAllOnce(f);
    assert rows[..] == Ordered(old(rows[..]));
    OrderedIsPermutation(old(rows[..]));
  }

  // ---------- A permutation ----------

  lemma {:induction false} PickedIsPermutation(rows: seq<Row>, order: seq<nat>)
    requires |order| == |rows| && AllBelow(order, |rows|) && Distinct(order)
    ensures multiset(Picked(rows, order)) == multiset(rows)
    decreases |rows|
  {
    if rows != [] {
      var n := |rows| - 1;
      var k := PlaceOf(order, n);
      var rest, front := order[..k] + order[k + 1..], rows[..n];
      LastRemoved(order, n, k);
      PickedIsPermutation(front, rest);
      PickedSplits(rows, order, k);
      var picked := Picked(front, rest);
      hide Picked;
      assert picked == picked[..k] + picked[k..];
      assert rows == front + [rows[n]];
    }
  }

  lemma LastRemoved(order: seq<nat>, n: nat, k: nat)
    requires |order| == n + 1 && AllBelow(order, n + 1) && Distinct(order) && k <= n && order[k] == n
    ensures var rest := order[..k] + order[k + 1..];
      |rest| == n && AllBelow(rest, n) && Distinct(rest)
  {
    var rest := order[..k] + order[k + 1..];
    assert forall i :: 0 <= i < n ==> rest[i] == if i < k then order[i] else order[i + 1];
  }

  lemma PickedSplits(rows: seq<Row>, order: seq<nat>, k: nat)
    requires |order| == |rows| && AllBelow(order, |rows|) && k < |order| && order[k] == |rows| - 1
    requires AllBelow(order[..k] + order[k + 1..], |rows| - 1)
    ensures var front := Picked(rows[..|rows| - 1], order[..k] + order[k + 1..]);
      Picked(rows, order) == front[..k] + [rows[|rows| - 1]] + front[k..]
  {
    var rest := order[..k] + order[k + 1..];
    assert forall i :: 0 <= i < |rest| ==> rest[i] == if i < k then order[i] else order[i + 1];
  }

  /** Of `n + 1` different numbers up to `n` one is `n`. */
  lemma PlaceOf(order: seq<nat>, n: nat) returns (k: nat)
    requires |order| == n + 1 && AllBelow(order, n + 1) && Distinct(order)
    ensures k <= n && order[k] == n
  {
    if n !in order {
      ItemsSize(order);
      SubsetSize(Items(order), FirstMany(n));
    }
    k :| 0 <= k < |order| && order[k] == n;
  }

  lemma OrderedIsPermutation(rows: seq<Row>)
    ensures |Ordered(rows)| == |rows| && multiset(Ordered(rows)) == multiset(rows)
  {
    OrderListsAllOnce(Parents(rows));
    PickedIsPermutation(rows, Order(Parents(rows)));
  }
}
