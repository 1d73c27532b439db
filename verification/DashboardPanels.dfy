/** What the dashboard shows of sorted rows: with parents that form no cycle, the pinned roots with
    all that is below them come first, and sessions and tabs get one heading each. */
module DashboardPanels {
  import opened Basics
  import opened TextOrder
  import opened AgentHierarchy
  import opened AgentDashboard
  import opened DashboardHierarchyRoots
  import opened DashboardGroups
  import opened DashboardHeadings

  // ---------- The order of the rows ----------

  function SessionName(row: Row): string {
    if row.session != "" then row.session else "ungrouped"
  }

  function TabKey(row: Row): string {
    if row.tab != "" then "id\0" + row.tab
    else if row.tabName != "" then "name\0" + row.tabName
    else "ungrouped"
  }

  function TabTitle(row: Row): string {
    if row.tabName != "" && row.tab != "" then row.tabName + " (" + row.tab + ")"
    else if row.tabName != "" then row.tabName
    else if row.tab != "" then row.tab
    else "ungrouped"
  }

  predicate IsCurrent(row: Row, source: string) {
    source != "" && SessionName(row) == source
  }

  ghost predicate Less(a: Row, b: Row, source: string) {
    if a.pinned != b.pinned then a.pinned
    else if IsCurrent(a, source) != IsCurrent(b, source) then IsCurrent(a, source)
    else if SessionName(a) != SessionName(b) then Before(SessionName(a), SessionName(b))
    else if TabKey(a) != TabKey(b) then Before(TabKey(a), TabKey(b))
    else if a.createdAt != b.createdAt then a.createdAt < b.createdAt
    else Before(a.agent, b.agent)
  }

  method IsLess(a: Row, b: Row, source: string) returns (less: bool)
    ensures less <==> Less(a, b, source)
  {
    if a.pinned != b.pinned {
      return a.pinned;
    }
    var aCurrent, bCurrent := IsCurrent(a, source), IsCurrent(b, source);
    if aCurrent != bCurrent {
      return aCurrent;
    }
    if SessionName(a) != SessionName(b) {
      less := TextBefore(SessionName(a), SessionName(b));
      return;
    }
    if TabKey(a) != TabKey(b) {
      less := TextBefore(TabKey(a), TabKey(b));
      return;
    }
    if a.createdAt != b.createdAt {
      return a.createdAt < b.createdAt;
    }
    less := TextBefore(a.agent, b.agent);
  }

  /** The first key in which two rows differ decides: pinned rows first, then those of the current
      session, and then by session, tab, creation and agent, all ascending. */
  lemma FirstKeyDecides(a: Row, b: Row, source: string)
    ensures a.pinned && !b.pinned ==> Less(a, b, source)
    ensures a.pinned == b.pinned ==>
      && (IsCurrent(a, source) && !IsCurrent(b, source) ==> Less(a, b, source))
      && (IsCurrent(a, source) == IsCurrent(b, source) && SessionName(a) != SessionName(b) ==>
            (Less(a, b, source) <==> Before(SessionName(a), SessionName(b))))
    ensures a.pinned == b.pinned && SessionName(a) == SessionName(b) ==>
      && (TabKey(a) != TabKey(b) ==> (Less(a, b, source) <==> Before(TabKey(a), TabKey(b))))
      && (TabKey(a) == TabKey(b) && a.createdAt < b.createdAt ==> Less(a, b, source))
      && (TabKey(a) == TabKey(b) && a.createdAt == b.createdAt ==> (Less(a, b, source) <==> Before(a.agent, b.agent)))
  {
    hide Before, TabKey, SessionName;
  }

  /** Rows share a session or a tab exactly if they name the same; a tab is known by its ID, and
      by its name only without one. */
  lemma SameNamesIff(a: Row, b: Row)
    ensures SessionName(a) == SessionName(b) <==>
      a.session == b.session || (a.session in {"", "ungrouped"} && b.session in {"", "ungrouped"})
    ensures TabKey(a) == TabKey(b) <==> a.tab == b.tab && (a.tab != "" || a.tabName == b.tabName)
    ensures TabTitle(a) ==
      if a.tab == "" then (if a.tabName == "" then "ungrouped" else a.tabName)
      else if a.tabName == "" then a.tab else a.tabName + " (" + a.tab + ")"
  {
    TextBehind("id\0", a.tab, b.tab);
    TextBehind("name\0", a.tabName, b.tabName);
    assert ("id\0" + a.tab)[0] == ("id\0" + b.tab)[0] == 'i';
    assert ("name\0" + a.tabName)[0] == ("name\0" + b.tabName)[0] == 'n';
  }

  lemma TextBehind(front: string, a: string, b: string)
    ensures front + a == front + b <==> a == b
  {
    assert (front + a)[|front|..] == a && (front + b)[|front|..] == b;
  }

  /** What a sort leaves behind. */
  ghost predicate IsSorted(rows: seq<Row>, source: string) {
    forall i, j :: 0 <= i < j < |rows| ==> !Less(rows[j], rows[i], source)
  }

  /** The comparison never contradicts itself, and leaves open only what agrees in every key. */
  lemma LessIsStrict(a: Row, b: Row, source: string)
    ensures !(Less(a, b, source) && Less(b, a, source))
    ensures
      Less(a, b, source) || Less(b, a, source) ||
      (a.pinned == b.pinned && SessionName(a) == SessionName(b) && TabKey(a) == TabKey(b)
       && a.createdAt == b.createdAt && a.agent == b.agent)
  {
    hide Before, TabKey;
    NotBothBefore(SessionName(a), SessionName(b));
    NotBothBefore(TabKey(a), TabKey(b));
    NotBothBefore(a.agent, b.agent);
    OneIsBefore(SessionName(a), SessionName(b));
    OneIsBefore(TabKey(a), TabKey(b));
    OneIsBefore(a.agent, b.agent);
  }

  lemma ChainIfBefore(a: string, b: string, c: string)
    ensures Before(a, b) && Before(b, c) ==> Before(a, c) && a != c
  {
    if Before(a, b) && Before(b, c) {
      BeforeChains(a, b, c);
      NotBothBefore(a, b);
    }
  }

  lemma LessChains(a: Row, b: Row, c: Row, source: string)
    requires Less(a, b, source) && Less(b, c, source)
    ensures Less(a, c, source)
  {
    hide Before, TabKey;
    ChainIfBefore(SessionName(a), SessionName(b), SessionName(c));
    ChainIfBefore(TabKey(a), TabKey(b), TabKey(c));
    ChainIfBefore(a.agent, b.agent, c.agent);
  }

  // ---------- Rows without cycles ----------

  predicate PanesDiffer(rows: seq<Row>) {
    forall i, j :: 0 <= i < j < |rows| && rows[i].pane != "" ==> rows[i].pane != rows[j].pane
  }

  predicate NoOwnParent(rows: seq<Row>) {
    forall i :: 0 <= i < |rows| && rows[i].parent != "" ==> rows[i].parent != rows[i].pane
  }

  /** Sorted rows whose parents form no cycle. */
  ghost predicate IsClean(rows: seq<Row>, h: Heights, source: string) {
    && PanesDiffer(rows) && NoOwnParent(rows) && IsAcyclic(Parents(rows), h) && IsSorted(rows, source)
  }

  lemma NamedIsOnly(rows: seq<Row>, i: nat)
    requires PanesDiffer(rows) && i < |rows| && rows[i].pane != ""
    ensures Named(rows, rows[i].pane) == Some(rows[i])
  {
  }

  lemma RowsAreLast(rows: seq<Row>, i: nat)
    requires PanesDiffer(rows) && i < |rows|
    ensures IsLast(rows, rows[i])
  {
    if rows[i].pane != "" {
      NamedIsOnly(rows, i);
    }
  }

  lemma ParentIsNamed(rows: seq<Row>, i: nat)
    requires i < |rows| && NoOwnParent(rows)
    ensures var p := Parents(rows)[i];
      (p.None? ==> Named(rows, rows[i].parent) == None) &&
      (p.Some? ==> p.value < |rows| && Named(rows, rows[i].parent) == Some(rows[p.value]))
  {
    assert Parents(rows)[i] == ParentOf(rows, i);
  }

  /** Without cycles a chain of parents ends at the root of the forest. */
  lemma {:induction false} ChainEndsAtRoot(rows: seq<Row>, h: Heights, i: nat) returns (n: nat)
    requires NoOwnParent(rows) && IsAcyclic(Parents(rows), h) && i < |rows|
    ensures EndsAt(rows, rows[i], n, rows[RootOf(Parents(rows), h, i)])
    decreases h.depth[i]
  {
    ParentIsNamed(rows, i);
    var p := Parents(rows)[i];
    if p.None? {
      n := 0;
    } else {
      hide ByPane, ParentOf;
      var m := ChainEndsAtRoot(rows, h, p.value);
      n := m + 1;
      ClimbSplits(rows, rows[i], 1, m);
      assert Climb(rows, rows[i], 1) == Some(rows[p.value]);
    }
  }

  // ---------- The ordered rows ----------

  lemma OrderedRow(rows: seq<Row>, k: nat) returns (i: nat)
    requires k < |rows|
    ensures |Order(Parents(rows))| == |rows| == |Ordered(rows)|
    ensures i < |rows| && i == Order(Parents(rows))[k] && Ordered(rows)[k] == rows[i]
  {
    OrderListsAllOnce(Parents(rows));
    i := Order(Parents(rows))[k];
  }

  lemma OrderedHasRow(rows: seq<Row>, i: nat) returns (k: nat)
    requires i < |rows|
    ensures k < |Ordered(rows)| && Ordered(rows)[k] == rows[i]
  {
    OrderListsAllOnce(Parents(rows));
    assert i in Order(Parents(rows));
    k :| 0 <= k < |Order(Parents(rows))| && Order(Parents(rows))[k] == i;
  }

  lemma OrderedPanesDiffer(rows: seq<Row>)
    requires PanesDiffer(rows)
    ensures PanesDiffer(Ordered(rows))
  {
    OrderListsAllOnce(Parents(rows));
    var order := Order(Parents(rows));
    hide Order, Parents;
    var shown := Ordered(rows);
    forall a, b | 0 <= a < b < |shown| && shown[a].pane != "" ensures shown[a].pane != shown[b].pane {
      assert order[a] != order[b] && shown[a] == rows[order[a]] && shown[b] == rows[order[b]];
    }
  }

  /** Lookups find the same rows after the rows were put in order. */
  lemma OrderKeepsNames(rows: seq<Row>, pane: string)
    requires PanesDiffer(rows)
    ensures Named(Ordered(rows), pane) == Named(rows, pane)
  {
    var shown := Ordered(rows);
    OrderedPanesDiffer(rows);
    if Named(shown, pane).Some? {
      var k :| 0 <= k < |shown| && shown[k] == Named(shown, pane).value;
      OrderListsAllOnce(Parents(rows));
      var i := OrderedRow(rows, k);
      OnlyNamed(rows, pane, i);
    } else if Named(rows, pane).Some? {
      var i :| 0 <= i < |rows| && rows[i] == Named(rows, pane).value;
      var k := OrderedHasRow(rows, i);
      OnlyNamed(shown, pane, k);
    }
  }

  lemma OnlyNamed(rows: seq<Row>, pane: string, i: nat)
    requires PanesDiffer(rows) && i < |rows| && rows[i].pane == pane
    ensures Named(rows, pane) == if pane == "" then None else Some(rows[i])
  {
    if pane != "" {
      NamedIsOnly(rows, i);
    }
  }

  lemma {:induction false} OrderKeepsClimb(rows: seq<Row>, row: Row, n: nat)
    requires PanesDiffer(rows)
    ensures Climb(Ordered(rows), row, n) == Climb(rows, row, n)
    decreases n
  {
    hide Ordered, Named, PanesDiffer;
    if n > 0 {
      OrderKeepsClimb(rows, row, n - 1);
      var below := Climb(rows, row, n - 1);
      if below.Some? {
        OrderKeepsNames(rows, below.value.parent);
      }
    }
  }

  /** The root, in the forest of the sorted rows, of the row shown at place `k`. */
  ghost function RootPlace(rows: seq<Row>, h: Heights, k: nat): (r: nat)
    requires IsAcyclic(Parents(rows), h) && k < |rows|
    ensures r < |rows|
  {
    OrderListsAllOnce(Parents(rows));
    RootOf(Parents(rows), h, Order(Parents(rows))[k])
  }

  ghost function RootRow(rows: seq<Row>, h: Heights, k: nat): Row
    requires IsAcyclic(Parents(rows), h) && k < |rows|
  {
    rows[RootPlace(rows, h, k)]
  }

  /** Looked up among the shown rows, the root is the one of the forest. */
  lemma ShownRoot(rows: seq<Row>, h: Heights, k: nat, root: Row)
    requires PanesDiffer(rows) && NoOwnParent(rows) && IsAcyclic(Parents(rows), h) && k < |rows| == |Ordered(rows)|
    requires IsRoot(Ordered(rows), Ordered(rows)[k], root)
    ensures root == RootRow(rows, h, k)
  {
    var i := OrderedRow(rows, k);
    var n := ChainEndsAtRoot(rows, h, i);
    var end := RootRow(rows, h, k);
    hide Ordered, Order, Parents, IsAcyclic, Named, Climb, PanesDiffer, NoOwnParent, RootOf;
    OrderKeepsClimb(rows, rows[i], n);
    OrderKeepsNames(rows, end.parent);
    assert EndsAt(Ordered(rows), rows[i], n, end);
    OneRootOnly(Ordered(rows), rows[i], root, end);
  }

  // ---------- The roots come in the order of the sort ----------

  lemma RootPlacesAscend(rows: seq<Row>, h: Heights, a: nat, b: nat)
    requires IsAcyclic(Parents(rows), h) && a <= b < |rows|
    ensures RootPlace(rows, h, a) <= RootPlace(rows, h, b)
  {
    hide Parents, Order, RootOf, IsAcyclic;
    OrderListsAllOnce(Parents(rows));
    RootsAscend(Parents(rows), h, a, b);
  }

  lemma RootsSorted(rows: seq<Row>, h: Heights, source: string, a: nat, b: nat)
    requires IsClean(rows, h, source) && a <= b < |rows|
    ensures RootRow(rows, h, a) == RootRow(rows, h, b) || !Less(RootRow(rows, h, b), RootRow(rows, h, a), source)
  {
    hide Less, Parents, RootPlace, PanesDiffer, NoOwnParent, IsAcyclic;
    RootPlacesAscend(rows, h, a, b);
    var r, q := RootPlace(rows, h, a), RootPlace(rows, h, b);
    assert r < q ==> !Less(rows[q], rows[r], source);
  }

  /** Rows with a pinned root come before all others. */
  lemma PinnedFirst(rows: seq<Row>, h: Heights, source: string, a: nat, b: nat)
    requires IsClean(rows, h, source) && a <= b < |rows| && RootRow(rows, h, b).pinned
    ensures RootRow(rows, h, a).pinned
  {
    RootsSorted(rows, h, source, a, b);
  }

  function GroupOf(root: Row): Group {
    Group(SessionName(root), TabKey(root), TabTitle(root))
  }

  /** Between two rows of one session or tab stand only rows of that session or tab. */
  lemma BetweenIsSame(a: Row, b: Row, c: Row, source: string)
    requires a.pinned == b.pinned == c.pinned && SessionName(a) == SessionName(c)
    requires a == b || !Less(b, a, source)
    requires b == c || !Less(c, b, source)
    ensures SessionName(b) == SessionName(a)
    ensures TabKey(a) == TabKey(c) ==> TabKey(b) == TabKey(a)
  {
    hide Before, TabKey;
    OneIsBefore(SessionName(a), SessionName(b));
    NotBothBefore(SessionName(a), SessionName(b));
    OneIsBefore(TabKey(a), TabKey(b));
    NotBothBefore(TabKey(a), TabKey(b));
  }

  // ---------- Panels ----------

  /** The places below `m` whose root is pinned, or is not. */
  function Matching(roots: seq<Row>, pinned: bool, m: nat): (s: seq<nat>)
    requires m <= |roots|
    ensures Ascending(s) && AllBelow(s, m) && forall i :: 0 <= i < |s| ==> roots[s[i]].pinned == pinned
  {
    if m == 0 then [] else Matching(roots, pinned, m - 1) + if roots[m - 1].pinned == pinned then [m - 1] else []
  }

  ghost predicate PinnedAreFirst(roots: seq<Row>) {
    forall a, b :: 0 <= a <= b < |roots| && roots[b].pinned ==> roots[a].pinned
  }

  lemma {:induction false} NoneUnpinned(roots: seq<Row>, m: nat)
    requires m <= |roots| && forall k :: 0 <= k < m ==> roots[k].pinned
    ensures Matching(roots, false, m) == []
  {
    if m > 0 {
      NoneUnpinned(roots, m - 1);
    }
  }

  lemma MatchingNext(roots: seq<Row>, m: nat)
    requires m < |roots|
    ensures Matching(roots, true, m + 1) == Matching(roots, true, m) + if roots[m].pinned then [m] else []
    ensures Matching(roots, false, m + 1) == Matching(roots, false, m) + if roots[m].pinned then [] else [m]
    ensures UpTo(m + 1) == UpTo(m) + [m]
  {
  }

  lemma Joined(front: seq<nat>, rest: seq<nat>, x: nat, pinned: bool)
    requires pinned ==> rest == []
    ensures (front + if pinned then [x] else []) + (rest + if pinned then [] else [x]) == front + rest + [x]
  {
  }

  /** One panel behind the other lists the rows in their order. */
  lemma {:induction false} PanelsInOrder(roots: seq<Row>, m: nat)
    requires m <= |roots| && PinnedAreFirst(roots)
    ensures Matching(roots, true, m) + Matching(roots, false, m) == UpTo(m)
  {
    if m > 0 {
      PanelsInOrder(roots, m - 1);
      MatchingNext(roots, m - 1);
      if roots[m - 1].pinned {
        NoneUnpinned(roots, m - 1);
      }
      hide *;
      Joined(Matching(roots, true, m - 1), Matching(roots, false, m - 1), m - 1, roots[m - 1].pinned);
    }
  }

  ghost predicate AreRootRows(rows: seq<Row>, roots: seq<Row>) {
    |roots| == |rows| && forall k, r :: 0 <= k < |rows| && IsRoot(rows, rows[k], r) ==> r == roots[k]
  }

  lemma RootAt(rows: seq<Row>, roots: seq<Row>, k: nat, r: Row)
    requires PanesDiffer(rows) && AreRootRows(rows, roots) && k < |rows| && (IsLast(rows, rows[k]) ==> IsRoot(rows, rows[k], r))
    ensures r == roots[k]
  {
    RowsAreLast(rows, k);
  }

  method PanelIndices(rows: seq<Row>, pinned: bool, ghost roots: seq<Row>) returns (indices: seq<nat>)
    requires PanesDiffer(rows) && AreRootRows(rows, roots)
    ensures indices == Matching(roots, pinned, |rows|)
  {
    hide PanesDiffer, AreRootRows, IsRoot, IsLast;
    indices := [];
    RootCount(rows, roots);
    for k := 0 to |rows|
      invariant indices == Matching(roots, pinned, k)
    {
      var root := HierarchyRoot(rows, rows[k]);
      RootAt(rows, roots, k, root);
      if root.pinned == pinned {
        indices := indices + [k];
      }
    }
  }

  lemma RootCount(rows: seq<Row>, roots: seq<Row>)
    requires AreRootRows(rows, roots)
    ensures |roots| == |rows|
  {
  }

  /** What the rows of a panel are grouped by. */
  method PanelGroups(rows: seq<Row>, indices: seq<nat>, ghost roots: seq<Row>) returns (groups: seq<Group>)
    requires PanesDiffer(rows) && AreRootRows(rows, roots) && AllBelow(indices, |rows|)
    ensures |groups| == |indices| && |roots| == |rows| && forall k :: 0 <= k < |indices| ==> groups[k] == GroupOf(roots[indices[k]])
  {
    hide PanesDiffer, AreRootRows, IsRoot, IsLast, GroupOf;
    groups := [];
    RootCount(rows, roots);
    for k := 0 to |indices|
      invariant |groups| == k && forall j :: 0 <= j < k ==> groups[j] == GroupOf(roots[indices[j]])
    {
      var root := HierarchyRoot(rows, rows[indices[k]]);
      RootAt(rows, roots, indices[k], root);
      groups := groups + [GroupOf(root)];
    }
  }

  // ---------- The whole view ----------

  ghost function RootRows(rows: seq<Row>, h: Heights): (roots: seq<Row>)
    requires IsAcyclic(Parents(rows), h)
    ensures |roots| == |rows| && forall k :: 0 <= k < |rows| ==> roots[k] == RootRow(rows, h, k)
  {
    seq(|rows|, k requires 0 <= k < |rows| => RootRow(rows, h, k))
  }

  lemma RootRowsKnown(rows: seq<Row>, h: Heights, source: string)
    requires IsClean(rows, h, source)
    ensures PanesDiffer(Ordered(rows)) && AreRootRows(Ordered(rows), RootRows(rows, h)) && PinnedAreFirst(RootRows(rows, h))
  {
    hide Ordered, RootRow, IsRoot;
    var shown, roots := Ordered(rows), RootRows(rows, h);
    OrderedPanesDiffer(rows);
    OrderedIsPermutation(rows);
    forall k, r | 0 <= k < |shown| && IsRoot(shown, shown[k], r) ensures r == roots[k] {
      ShownRoot(rows, h, k, r);
    }
    forall a, b | 0 <= a <= b < |roots| && roots[b].pinned ensures roots[a].pinned {
      PinnedFirst(rows, h, source, a, b);
    }
  }

  /** The unpinned rows of one session stand together, and those of one tab. */
  lemma UnpinnedTogether(rows: seq<Row>, h: Heights, source: string, indices: seq<nat>, groups: seq<Group>)
    requires IsClean(rows, h, source) && Ascending(indices) && AllBelow(indices, |rows|) && |groups| == |indices|
    requires forall k :: 0 <= k < |indices| ==> !RootRow(rows, h, indices[k]).pinned && groups[k] == GroupOf(RootRow(rows, h, indices[k]))
    ensures Together(groups)
  {
    hide IsClean, RootRow, Less, SessionName, TabKey;
    CleanIsAcyclic(rows, h, source);
    forall a, b, c | 0 <= a < b < c < |groups|
      ensures groups[a].session == groups[c].session ==> groups[b].session == groups[a].session
      ensures SameTab(groups[a], groups[c]) ==> SameTab(groups[b], groups[a])
    {
      RootsSorted(rows, h, source, indices[a], indices[b]);
      RootsSorted(rows, h, source, indices[b], indices[c]);
      if groups[a].session == groups[c].session {
        BetweenIsSame(RootRow(rows, h, indices[a]), RootRow(rows, h, indices[b]), RootRow(rows, h, indices[c]), source);
      }
    }
  }

  // ---------- What is displayed ----------

  lemma {:induction false} AgentsOnly(indices: seq<nat>)
    ensures var rows := Agents(indices);
      SessionsShown(rows) == [] && TabsShown(rows) == [] && AgentsShown(rows) == indices
    decreases |indices|
  {
    hide SessionsShown, TabsShown, AgentsShown;
    if indices == [] {
      OneRow(NoRows);
    } else if |indices| == 1 {
      OneRow(Agent(indices[0]));
      assert Agents(indices) == [Agent(indices[0])];
    } else {
      var last := |indices| - 1;
      AgentsOnly(indices[..last]);
      OneRow(Agent(indices[last]));
      ShownConcat(Agents(indices[..last]), [Agent(indices[last])]);
      assert Agents(indices) == Agents(indices[..last]) + [Agent(indices[last])];
    }
  }

  lemma DisplayParts(pinned: seq<nat>, unpinned: seq<nat>, groups: seq<Group>, display: seq<DisplayRow>)
    requires |groups| == |unpinned|
    requires var listed := if unpinned == [] then [NoRows] else Shown(groups, unpinned, |groups|);
      display == [Section(true, |pinned|)] + Agents(pinned) + [Section(false, |unpinned|)] + listed
    ensures var rows := Shown(groups, unpinned, |groups|);
      && SessionsShown(display) == SessionsShown(rows) && TabsShown(display) == TabsShown(rows)
      && AgentsShown(display) == pinned + unpinned
  {
    hide Shown, Agents, SessionsShown, TabsShown, AgentsShown;
    var first, second := Section(true, |pinned|), Section(false, |unpinned|);
    var rows := Shown(groups, unpinned, |groups|);
    var listed := if unpinned == [] then [NoRows] else rows;
    OneRow(first);
    OneRow(second);
    OneRow(NoRows);
    AgentsOnly(pinned);
    AgentsListed(groups, unpinned, |groups|);
    NothingShown(groups, unpinned);
    assert unpinned[..|groups|] == unpinned;
    assert SessionsShown(listed) == SessionsShown(rows) && TabsShown(listed) == TabsShown(rows) && AgentsShown(listed) == unpinned;
    FourParts([first], Agents(pinned), [second], listed);
    Alone(SessionsShown(rows), []);
    Alone(TabsShown(rows), []);
    Alone(unpinned, pinned);
  }

  lemma Alone<T>(x: seq<T>, y: seq<T>)
    ensures [] + y + [] + x == y + x
    ensures [] + x == x
  {
  }

  lemma FourParts(a: seq<DisplayRow>, b: seq<DisplayRow>, c: seq<DisplayRow>, d: seq<DisplayRow>)
    ensures SessionsShown(a + b + c + d) == SessionsShown(a) + SessionsShown(b) + SessionsShown(c) + SessionsShown(d)
    ensures TabsShown(a + b + c + d) == TabsShown(a) + TabsShown(b) + TabsShown(c) + TabsShown(d)
    ensures AgentsShown(a + b + c + d) == AgentsShown(a) + AgentsShown(b) + AgentsShown(c) + AgentsShown(d)
  {
    hide SessionsShown, TabsShown, AgentsShown;
    ShownConcat(a, b);
    ShownConcat(a + b, c);
    ShownConcat(a + b + c, d);
  }

  /** Each of the rows stands under the headings of its root, which is not pinned. */
  ghost predicate IsListed(rows: seq<Row>, h: Heights, unpinned: seq<nat>, listed: seq<DisplayRow>, groups: seq<Group>)
    requires IsAcyclic(Parents(rows), h)
  {
    && |groups| == |unpinned| && (unpinned == [] ==> listed == [NoRows])
    && forall k :: 0 <= k < |unpinned| ==>
      && unpinned[k] < |rows| && !RootRow(rows, h, unpinned[k]).pinned
      && groups[k] == GroupOf(RootRow(rows, h, unpinned[k])) && IsUnder(listed, unpinned[k], groups, groups[k])
  }

  /** The pinned panel lists the rows with a pinned root in order, and the unpinned one, `listed`,
      every other row under the headings of its root's session and tab. */
  ghost predicate PanelsShown(
    rows: seq<Row>, h: Heights, pinned: seq<nat>, unpinned: seq<nat>, listed: seq<DisplayRow>, groups: seq<Group>, display: seq<DisplayRow>)
    requires IsAcyclic(Parents(rows), h)
  {
    && pinned + unpinned == UpTo(|rows|) && (forall k :: k in pinned ==> k < |rows| && RootRow(rows, h, k).pinned)
    && IsListed(rows, h, unpinned, listed, groups)
    && display == [Section(true, |pinned|)] + (if pinned == [] then [NoRows] else RowsOf(pinned)) + [Section(false, |unpinned|)] + listed
  }

  function RowsOf(indices: seq<nat>): (rows: seq<DisplayRow>)
    ensures |rows| == |indices| && forall i :: 0 <= i < |indices| ==> rows[i] == Agent(indices[i])
  {
    seq(|indices|, i requires 0 <= i < |indices| => Agent(indices[i]))
  }

  ghost predicate IsUnder(listed: seq<DisplayRow>, index: nat, groups: seq<Group>, g: Group) {
    exists p: nat :: StandsUnder(listed, p, index, groups, g)
  }

  lemma AllUnder(groups: seq<Group>, unpinned: seq<nat>)
    requires |groups| == |unpinned| && Together(groups)
    ensures forall k :: 0 <= k < |unpinned| ==> IsUnder(Shown(groups, unpinned, |groups|), unpinned[k], groups, groups[k])
  {
    hide Together, Shown, StandsUnder;
    forall k | 0 <= k < |unpinned| ensures IsUnder(Shown(groups, unpinned, |groups|), unpinned[k], groups, groups[k]) {
      var p := AgentsStandUnder(groups, unpinned, k);
    }
  }

  lemma UnpinnedAreListed(rows: seq<Row>, h: Heights, source: string, unpinned: seq<nat>, groups: seq<Group>)
    requires IsClean(rows, h, source) && IsAcyclic(Parents(rows), h) && unpinned == Matching(RootRows(rows, h), false, |rows|)
    requires |groups| == |unpinned| && forall k :: 0 <= k < |unpinned| ==> groups[k] == GroupOf(RootRow(rows, h, unpinned[k]))
    ensures IsListed(rows, h, unpinned, if unpinned == [] then [NoRows] else Shown(groups, unpinned, |groups|), groups)
  {
    hide IsClean, Parents, IsAcyclic, RootRow, GroupOf, Shown, IsUnder, Together, Matching, RootRows, Ascending;
    PanelRows(rows, h, unpinned, false);
    UnpinnedTogether(rows, h, source, unpinned, groups);
    AllUnder(groups, unpinned);
  }

  lemma PanelsAreShown(rows: seq<Row>, h: Heights, source: string, pinned: seq<nat>, unpinned: seq<nat>, groups: seq<Group>,
                       listed: seq<DisplayRow>, display: seq<DisplayRow>)
    requires IsClean(rows, h, source) && IsAcyclic(Parents(rows), h)
    requires pinned == Matching(RootRows(rows, h), true, |rows|) && unpinned == Matching(RootRows(rows, h), false, |rows|)
    requires |groups| == |unpinned| && forall k :: 0 <= k < |unpinned| ==> groups[k] == GroupOf(RootRow(rows, h, unpinned[k]))
    requires listed == if unpinned == [] then [NoRows] else Shown(groups, unpinned, |groups|)
    requires display == [Section(true, |pinned|)] + Agents(pinned) + [Section(false, |unpinned|)] + listed
    ensures PanelsShown(rows, h, pinned, unpinned, listed, groups, display)
  {
    hide IsClean, Parents, IsAcyclic, RootRow, GroupOf, Shown, IsListed, PinnedAreFirst, AreRootRows, PanesDiffer,
      Matching, Agents, UpTo, RootRows, Ordered, RowsOf, Ascending, AllBelow;
    RootRowsKnown(rows, h, source);
    PanelsInOrder(RootRows(rows, h), |rows|);
    PanelRows(rows, h, pinned, true);
    UnpinnedAreListed(rows, h, source, unpinned, groups);
    AgentsAreRows(pinned);
  }

  lemma PanelRows(rows: seq<Row>, h: Heights, panel: seq<nat>, pinned: bool)
    requires IsAcyclic(Parents(rows), h) && panel == Matching(RootRows(rows, h), pinned, |rows|)
    ensures Ascending(panel) && AllBelow(panel, |rows|)
    ensures forall k :: 0 <= k < |panel| ==> panel[k] < |rows| && RootRow(rows, h, panel[k]).pinned == pinned
    ensures forall k :: k in panel ==> k < |rows| && RootRow(rows, h, k).pinned == pinned
  {
    hide Parents, IsAcyclic, RootRow, Matching;
  }

  lemma AgentsAreRows(indices: seq<nat>)
    ensures Agents(indices) == if indices == [] then [NoRows] else RowsOf(indices)
  {
  }

  /** Sorted rows are put behind their parents and displayed: every row once, in the order of the
      rows, every session under one heading and every tab of a session under one heading. */
  method ShowRows(rows: array<Row>, ghost h: Heights, ghost source: string)
      returns (display: seq<DisplayRow>, ghost pinned: seq<nat>, ghost unpinned: seq<nat>, ghost listed: seq<DisplayRow>, ghost groups: seq<Group>)
    requires IsClean(rows[..], h, source)
    modifies rows
    ensures rows[..] == Ordered(old(rows[..])) && multiset(rows[..]) == multiset(old(rows[..]))
    ensures AgentsShown(display) == UpTo(rows.Length)
    ensures Distinct(SessionsShown(display)) && Distinct(TabsShown(display))
    ensures IsAcyclic(Parents(old(rows[..])), h) && PanelsShown(old(rows[..]), h, pinned, unpinned, listed, groups, display)
  {
    hide IsClean, Ordered, AreRootRows, PinnedAreFirst, PanesDiffer, Shown, Together, Distinct, PanelsShown;
    ghost var sorted := rows[..];
    CleanIsAcyclic(sorted, h, source);
    ghost var roots := RootRows(sorted, h);
    RootRowsKnown(sorted, h, source);
    OrderChildren(rows);
    var pins := PanelIndices(rows[..], true, roots);
    var rest := PanelIndices(rows[..], false, roots);
    var keys := PanelGroups(rows[..], rest, roots);
    display := DisplayRows(pins, rest, keys);
    pinned, unpinned, groups := pins, rest, keys;
    listed := if rest == [] then [NoRows] else Shown(keys, rest, |keys|);
    PanelsInOrder(roots, |roots|);
    DisplayParts(pins, rest, keys, display);
    PanelsAreShown(sorted, h, source, pins, rest, keys, listed, display);
    UnpinnedTogether(sorted, h, source, rest, keys);
    SessionsAppearOnce(keys, rest, |keys|);
    TabsAppearOnce(keys, rest, |keys|);
  }

  lemma CleanIsAcyclic(rows: seq<Row>, h: Heights, source: string)
    requires IsClean(rows, h, source)
    ensures IsAcyclic(Parents(rows), h)
  {
  }
}
