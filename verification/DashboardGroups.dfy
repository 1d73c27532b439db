/** The headings of the unpinned panel: agents are listed under their session and tab, and
    where equal sessions and tabs stand together each heading appears once. */
module DashboardGroups {
  import opened Basics

  /** What an agent's root row is grouped by. */
  datatype Group = Group(session: string, tab: string, tabName: string)

  /** Tab headings carry their session and key for the statements below. */
  datatype DisplayRow =
    | Section(pinned: bool, count: nat)
    | NoRows
    | SessionHeading(session: string, count: nat)
    | TabHeading(session: string, tab: string, name: string, count: nat)
    | Agent(index: nat)

  const HIDDEN_SESSION := "worktree-agent"

  predicate SameTab(a: Group, b: Group) {
    a.session == b.session && a.tab == b.tab
  }

  predicate StartsSession(groups: seq<Group>, k: nat)
    requires k < |groups|
  {
    k == 0 || groups[k - 1].session != groups[k].session
  }

  predicate StartsTab(groups: seq<Group>, k: nat)
    requires k < |groups|
  {
    k == 0 || !SameTab(groups[k - 1], groups[k])
  }

  /** Where the run of the session that `k` is in ends. */
  function SessionEnd(groups: seq<Group>, k: nat): (m: nat)
    requires k < |groups|
    ensures k < m <= |groups|
    decreases |groups| - k
  {
    if k + 1 == |groups| || groups[k + 1].session != groups[k].session then k + 1 else SessionEnd(groups, k + 1)
  }

  function TabEnd(groups: seq<Group>, k: nat): (m: nat)
    requires k < |groups|
    ensures k < m <= |groups|
    decreases |groups| - k
  {
    if k + 1 == |groups| || !SameTab(groups[k + 1], groups[k]) then k + 1 else TabEnd(groups, k + 1)
  }

  function Headings(groups: seq<Group>, k: nat): seq<DisplayRow>
    requires k < |groups|
  {
    var g := groups[k];
    if g.session == HIDDEN_SESSION then []
    else
      (if StartsSession(groups, k) then [SessionHeading(g.session, SessionEnd(groups, k) - k)] else []) +
      (if StartsTab(groups, k) then [TabHeading(g.session, g.tab, g.tabName, TabEnd(groups, k) - k)] else [])
  }

  /** What is shown of the first `k` agents, whose rows are `indices`. */
  function Shown(groups: seq<Group>, indices: seq<nat>, k: nat): seq<DisplayRow>
    requires k <= |groups| == |indices|
  {
    if k == 0 then [] else Shown(groups, indices, k - 1) + Headings(groups, k - 1) + [Agent(indices[k - 1])]
  }

  // ---------- The nested loops ----------

  /** Inside a run of one session and tab there are no headings. */
  lemma RunHasNoHeadings(groups: seq<Group>, start: nat, k: nat)
    requires start < |groups| && start < k < TabEnd(groups, start)
    ensures k < |groups| && SameTab(groups[k], groups[start]) && Headings(groups, k) == []
    decreases k
  {
    TabRun(groups, start, k);
    if k - 1 > start {
      TabRun(groups, start, k - 1);
    }
  }

  lemma {:induction false} TabRun(groups: seq<Group>, start: nat, k: nat)
    requires start < |groups| && start <= k < TabEnd(groups, start)
    ensures SameTab(groups[k], groups[start])
    decreases |groups| - start
  {
    if start < k {
      TabRun(groups, start + 1, k);
    }
  }

  method FindSessionEnd(groups: seq<Group>, start: nat) returns (end: nat)
    requires start < |groups|
    ensures end == SessionEnd(groups, start)
    ensures end < |groups| ==> groups[end].session != groups[end - 1].session
  {
    end := start + 1;
    while end < |groups| && groups[end].session == groups[start].session
      invariant start < end <= |groups| && groups[end - 1].session == groups[start].session
      invariant SessionEnd(groups, start) == SessionEnd(groups, end - 1)
    {
      end := end + 1;
    }
  }

  /** The end of the tab's run within the session's run. */
  method FindTabEnd(groups: seq<Group>, start: nat, sessionEnd: nat) returns (end: nat)
    requires start < sessionEnd <= |groups| && forall k :: start <= k < sessionEnd ==> groups[k].session == groups[start].session
    requires sessionEnd < |groups| ==> groups[sessionEnd].session != groups[sessionEnd - 1].session
    ensures end == TabEnd(groups, start) && end <= sessionEnd
    ensures end < |groups| ==> !SameTab(groups[end], groups[end - 1])
  {
    end := start + 1;
    while end < sessionEnd && groups[end].tab == groups[start].tab
      invariant start < end <= sessionEnd && SameTab(groups[end - 1], groups[start])
      invariant TabEnd(groups, start) == TabEnd(groups, end - 1)
    {
      end := end + 1;
    }
  }

  method ShowTab(groups: seq<Group>, indices: seq<nat>, start: nat, end: nat, before: seq<DisplayRow>) returns (rows: seq<DisplayRow>)
    requires start < |groups| == |indices| && start < end == TabEnd(groups, start)
    requires before == Shown(groups, indices, start) + Headings(groups, start)
    ensures rows == Shown(groups, indices, end)
  {
    rows := before + [Agent(indices[start])];
    for k := start + 1 to end
      invariant rows == Shown(groups, indices, k)
    {
      RunHasNoHeadings(groups, start, k);
      rows := rows + [Agent(indices[k])];
    }
  }

  /** The headings of a tab, before its first row, and of the session if that starts here. */
  method ShowHeadings(groups: seq<Group>, start: nat, end: nat, tabStart: nat, tabEnd: nat) returns (rows: seq<DisplayRow>)
    requires start <= tabStart < |groups| && end == SessionEnd(groups, tabStart) && tabEnd == TabEnd(groups, tabStart)
    requires StartsTab(groups, tabStart) && (tabStart == start <==> StartsSession(groups, tabStart))
    ensures rows == Headings(groups, tabStart)
  {
    var g := groups[tabStart];
    rows := [];
    if g.session != HIDDEN_SESSION {
      if tabStart == start {
        rows := [SessionHeading(g.session, end - start)];
      }
      rows := rows + [TabHeading(g.session, g.tab, g.tabName, tabEnd - tabStart)];
    }
  }

  lemma {:induction false} SameSessionEnd(groups: seq<Group>, start: nat, k: nat)
    requires start < |groups| && start <= k < SessionEnd(groups, start)
    ensures SessionEnd(groups, k) == SessionEnd(groups, start) && groups[k].session == groups[start].session
    ensures StartsSession(groups, k) ==> k == start || k == 0
    decreases |groups| - start
  {
    if start < k {
      SameSessionEnd(groups, start + 1, k);
    }
  }

  /** One session's run, tab by tab. */
  method ShowSession(groups: seq<Group>, indices: seq<nat>, start: nat, before: seq<DisplayRow>) returns (end: nat, rows: seq<DisplayRow>)
    requires start < |groups| == |indices| && StartsSession(groups, start) && before == Shown(groups, indices, start)
    ensures start < end <= |groups| && rows == Shown(groups, indices, end)
    ensures end < |groups| ==> StartsSession(groups, end)
  {
    hide Shown, Headings, TabEnd;
    end := FindSessionEnd(groups, start);
    forall k | start <= k < end ensures groups[k].session == groups[start].session && SessionEnd(groups, k) == end {
      SameSessionEnd(groups, start, k);
    }
    hide SessionEnd;
    rows := before;
    var tabStart := start;
    while tabStart < end
      invariant start <= tabStart <= end && rows == Shown(groups, indices, tabStart)
      invariant tabStart < end ==> StartsTab(groups, tabStart)
      decreases end - tabStart
    {
      var tabEnd := FindTabEnd(groups, tabStart, end);
      var headings := ShowHeadings(groups, start, end, tabStart, tabEnd);
      rows := ShowTab(groups, indices, tabStart, tabEnd, rows + headings);
      tabStart := tabEnd;
    }
  }

  method ShowUnpinned(groups: seq<Group>, indices: seq<nat>) returns (rows: seq<DisplayRow>)
    requires |groups| == |indices|
    ensures rows == Shown(groups, indices, |groups|)
  {
    rows := [];
    var start := 0;
    while start < |groups|
      invariant start <= |groups| && rows == Shown(groups, indices, start)
      invariant start < |groups| ==> StartsSession(groups, start)
    {
      start, rows := ShowSession(groups, indices, start, rows);
    }
  }

  /** Both panels. */
  method DisplayRows(pinned: seq<nat>, unpinned: seq<nat>, groups: seq<Group>) returns (rows: seq<DisplayRow>)
    requires |groups| == |unpinned|
    ensures rows == [Section(true, |pinned|)] + Agents(pinned) + [Section(false, |unpinned|)] +
      (if unpinned == [] then [NoRows] else Shown(groups, unpinned, |groups|))
  {
    rows := [Section(true, |pinned|)];
    if pinned == [] {
      rows := rows + [NoRows];
    } else {
      for k := 0 to |pinned|
        invariant rows == [Section(true, |pinned|)] + seq(k, i requires 0 <= i < k => Agent(pinned[i]))
      {
        rows := rows + [Agent(pinned[k])];
      }
    }
    rows := rows + [Section(false, |unpinned|)];
    if unpinned == [] {
      rows := rows + [NoRows];
    } else {
      var listed := ShowUnpinned(groups, unpinned);
      rows := rows + listed;
    }
  }

  function Agents(indices: seq<nat>): seq<DisplayRow> {
    if indices == [] then [NoRows] else seq(|indices|, i requires 0 <= i < |indices| => Agent(indices[i]))
  }

  // ---------- Headings appear once ----------

  /** Rows of one session stand together, and within it rows of one tab. */
  ghost predicate Together(groups: seq<Group>) {
    && (forall a, b, c :: 0 <= a < b < c < |groups| && groups[a].session == groups[c].session ==> groups[b].session == groups[a].session)
    && (forall a, b, c :: 0 <= a < b < c < |groups| && SameTab(groups[a], groups[c]) ==> SameTab(groups[b], groups[a]))
  }

  function SessionsShown(rows: seq<DisplayRow>): seq<string> {
    if rows == [] then []
    else
      var last := rows[|rows| - 1];
      SessionsShown(rows[..|rows| - 1]) + if last.SessionHeading? then [last.session] else []
  }

  function TabsShown(rows: seq<DisplayRow>): seq<(string, string)> {
    if rows == [] then []
    else
      var last := rows[|rows| - 1];
      TabsShown(rows[..|rows| - 1]) + if last.TabHeading? then [(last.session, last.tab)] else []
  }

  function AgentsShown(rows: seq<DisplayRow>): seq<nat> {
    if rows == [] then []
    else
      var last := rows[|rows| - 1];
      AgentsShown(rows[..|rows| - 1]) + if last.Agent? then [last.index] else []
  }

  lemma {:induction false} SessionsConcat(a: seq<DisplayRow>, b: seq<DisplayRow>)
    ensures SessionsShown(a + b) == SessionsShown(a) + SessionsShown(b)
    decreases |b|
  {
    if b == [] {
      assert a + b == a;
    } else {
      SessionsConcat(a, b[..|b| - 1]);
      assert (a + b)[..|a + b| - 1] == a + b[..|b| - 1];
    }
  }

  lemma {:induction false} TabsConcat(a: seq<DisplayRow>, b: seq<DisplayRow>)
    ensures TabsShown(a + b) == TabsShown(a) + TabsShown(b)
    decreases |b|
  {
    if b == [] {
      assert a + b == a;
    } else {
      TabsConcat(a, b[..|b| - 1]);
      assert (a + b)[..|a + b| - 1] == a + b[..|b| - 1];
    }
  }

  lemma {:induction false} AgentsConcat(a: seq<DisplayRow>, b: seq<DisplayRow>)
    ensures AgentsShown(a + b) == AgentsShown(a) + AgentsShown(b)
    decreases |b|
  {
    if b == [] {
      assert a + b == a;
    } else {
      AgentsConcat(a, b[..|b| - 1]);
      assert (a + b)[..|a + b| - 1] == a + b[..|b| - 1];
    }
  }

  lemma ShownConcat(a: seq<DisplayRow>, b: seq<DisplayRow>)
    ensures SessionsShown(a + b) == SessionsShown(a) + SessionsShown(b)
    ensures TabsShown(a + b) == TabsShown(a) + TabsShown(b)
    ensures AgentsShown(a + b) == AgentsShown(a) + AgentsShown(b)
  {
    SessionsConcat(a, b);
    TabsConcat(a, b);
    AgentsConcat(a, b);
  }

  lemma OneRow(row: DisplayRow)
    ensures SessionsShown([row]) == (if row.SessionHeading? then [row.session] else [])
    ensures TabsShown([row]) == (if row.TabHeading? then [(row.session, row.tab)] else [])
    ensures AgentsShown([row]) == (if row.Agent? then [row.index] else [])
  {
    assert [row][..0] == [];
  }

  lemma NoRow()
    ensures SessionsShown([]) == [] && TabsShown([]) == [] && AgentsShown([]) == []
  {
  }

  /** The session and the tab that get a heading before agent `k`. */
  function SessionMark(groups: seq<Group>, k: nat): seq<string>
    requires k < |groups|
  {
    if groups[k].session != HIDDEN_SESSION && StartsSession(groups, k) then [groups[k].session] else []
  }

  function TabMark(groups: seq<Group>, k: nat): seq<(string, string)>
    requires k < |groups|
  {
    if groups[k].session != HIDDEN_SESSION && StartsTab(groups, k) then [(groups[k].session, groups[k].tab)] else []
  }

  lemma HeadingMarks(groups: seq<Group>, k: nat)
    requires k < |groups|
    ensures var h := Headings(groups, k);
      SessionsShown(h) == SessionMark(groups, k) && TabsShown(h) == TabMark(groups, k) && AgentsShown(h) == []
  {
    hide SessionsShown, TabsShown, AgentsShown, SessionEnd, TabEnd;
    var s := SessionHeading(groups[k].session, SessionEnd(groups, k) - k);
    var t := TabHeading(groups[k].session, groups[k].tab, groups[k].tabName, TabEnd(groups, k) - k);
    OneRow(s);
    OneRow(t);
    NoRow();
    ShownConcat(if StartsSession(groups, k) then [s] else [], if StartsTab(groups, k) then [t] else []);
  }

  lemma HeadingsShown(groups: seq<Group>, indices: seq<nat>, k: nat)
    requires k < |groups| == |indices|
    ensures var before, after := Shown(groups, indices, k), Shown(groups, indices, k + 1);
      && SessionsShown(after) == SessionsShown(before) + SessionMark(groups, k)
      && TabsShown(after) == TabsShown(before) + TabMark(groups, k)
      && AgentsShown(after) == AgentsShown(before) + [indices[k]]
  {
    hide SessionsShown, TabsShown, AgentsShown, Headings, SessionMark, TabMark;
    var before, headings := Shown(groups, indices, k), Headings(groups, k);
    HeadingMarks(groups, k);
    ShownConcat(before, headings);
    ShownConcat(before + headings, [Agent(indices[k])]);
    OneRow(Agent(indices[k]));
  }

  /** Every agent of the panel is listed once, in order. */
  lemma {:induction false} AgentsListed(groups: seq<Group>, indices: seq<nat>, k: nat)
    requires k <= |groups| == |indices|
    ensures AgentsShown(Shown(groups, indices, k)) == indices[..k]
  {
    hide Shown, AgentsShown;
    if k == 0 {
      NothingShown(groups, indices);
    } else {
      AgentsListed(groups, indices, k - 1);
      HeadingsShown(groups, indices, k - 1);
      assert indices[..k] == indices[..k - 1] + [indices[k - 1]];
    }
  }

  ghost predicate SessionSeen(groups: seq<Group>, k: nat, s: string) {
    exists i :: 0 <= i < k && i < |groups| && groups[i].session == s
  }

  lemma SessionMarkIsNew(groups: seq<Group>, k: nat)
    requires k < |groups| && Together(groups)
    ensures SessionMark(groups, k) == [] || (SessionMark(groups, k) == [groups[k].session] && !SessionSeen(groups, k, groups[k].session))
  {
    assert forall i :: 0 <= i < k - 1 && groups[i].session == groups[k].session ==> groups[k - 1].session == groups[i].session;
  }

  lemma TabMarkIsNew(groups: seq<Group>, k: nat)
    requires k < |groups| && Together(groups)
    ensures var t := (groups[k].session, groups[k].tab);
      TabMark(groups, k) == [] || (TabMark(groups, k) == [t] && !TabSeen(groups, k, t))
  {
    var t := (groups[k].session, groups[k].tab);
    assert forall i :: 0 <= i < k - 1 && SameTab(groups[i], groups[k]) ==> SameTab(groups[k - 1], groups[i]);
  }

  lemma NothingShown(groups: seq<Group>, indices: seq<nat>)
    requires |groups| == |indices|
    ensures var rows := Shown(groups, indices, 0);
      SessionsShown(rows) == [] && TabsShown(rows) == [] && AgentsShown(rows) == []
  {
  }

  /** No session heading appears twice. */
  lemma {:induction false} SessionsAppearOnce(groups: seq<Group>, indices: seq<nat>, k: nat)
    requires k <= |groups| == |indices| && Together(groups)
    ensures Distinct(SessionsShown(Shown(groups, indices, k)))
    ensures forall s :: s in SessionsShown(Shown(groups, indices, k)) ==> SessionSeen(groups, k, s)
  {
    hide Shown, SessionsShown, SessionMark;
    if k == 0 {
      NothingShown(groups, indices);
    } else {
      SessionsAppearOnce(groups, indices, k - 1);
      HeadingsShown(groups, indices, k - 1);
      var seen := SessionsShown(Shown(groups, indices, k - 1));
      var g := groups[k - 1];
      forall s | SessionSeen(groups, k - 1, s) ensures SessionSeen(groups, k, s) {
        var i :| 0 <= i < k - 1 && groups[i].session == s;
      }
      assert SessionSeen(groups, k, g.session);
      SessionMarkIsNew(groups, k - 1);
    }
  }

  ghost predicate TabSeen(groups: seq<Group>, k: nat, t: (string, string)) {
    exists i :: 0 <= i < k && i < |groups| && (groups[i].session, groups[i].tab) == t
  }

  /** No tab heading appears twice in its session. */
  lemma {:induction false} TabsAppearOnce(groups: seq<Group>, indices: seq<nat>, k: nat)
    requires k <= |groups| == |indices| && Together(groups)
    ensures Distinct(TabsShown(Shown(groups, indices, k)))
    ensures forall t :: t in TabsShown(Shown(groups, indices, k)) ==> TabSeen(groups, k, t)
  {
    hide Shown, TabsShown, TabMark;
    if k == 0 {
      NothingShown(groups, indices);
    } else {
      TabsAppearOnce(groups, indices, k - 1);
      HeadingsShown(groups, indices, k - 1);
      var seen := TabsShown(Shown(groups, indices, k - 1));
      var g := groups[k - 1];
      forall t | TabSeen(groups, k - 1, t) ensures TabSeen(groups, k, t) {
        var i :| 0 <= i < k - 1 && (groups[i].session, groups[i].tab) == t;
      }
      assert TabSeen(groups, k, (g.session, g.tab));
      TabMarkIsNew(groups, k - 1);
    }
  }
}
