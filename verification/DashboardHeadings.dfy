/** Under which headings the agents of the unpinned panel stand, and what those headings count. */
module DashboardHeadings {
  import opened Basics
  import opened DashboardGroups

  /** The last session heading of the rows. */
  function LastSession(rows: seq<DisplayRow>): Option<DisplayRow> {
    if rows == [] then None
    else if rows[|rows| - 1].SessionHeading? then Some(rows[|rows| - 1])
    else LastSession(rows[..|rows| - 1])
  }

  function LastTab(rows: seq<DisplayRow>): (r: Option<DisplayRow>)
    ensures r.Some? ==> r.value.TabHeading?
  {
    if rows == [] then None
    else if rows[|rows| - 1].TabHeading? then Some(rows[|rows| - 1])
    else LastTab(rows[..|rows| - 1])
  }

  /** The agents of the panel in this session, and in this tab of it. */
  ghost function InSession(groups: seq<Group>, session: string): set<nat> {
    set i: nat | i < |groups| && groups[i].session == session
  }

  ghost function InTab(groups: seq<Group>, session: string, tab: string): set<nat> {
    set i: nat | i < |groups| && groups[i].session == session && groups[i].tab == tab
  }

  /** The tab is shown under the name that its first agent gives it. */
  ghost predicate IsTabName(groups: seq<Group>, session: string, tab: string, name: string) {
    exists i: nat :: i < |groups| && groups[i] == Group(session, tab, name)
      && forall j :: 0 <= j < i ==> !(groups[j].session == session && groups[j].tab == tab)
  }

  /** At place `p` stands the agent, under the headings of its own session and tab, which say how
      many agents there are; the hidden session has no headings. */
  ghost predicate StandsUnder(rows: seq<DisplayRow>, p: nat, index: nat, groups: seq<Group>, g: Group) {
    && p < |rows| && rows[p] == Agent(index)
    && (g.session != "worktree-agent" ==>
          && LastSession(rows[..p]) == Some(SessionHeading(g.session, |InSession(groups, g.session)|))
          && LastTab(rows[..p]).Some?
          && var tab := LastTab(rows[..p]).value;
            && tab == TabHeading(g.session, g.tab, tab.name, |InTab(groups, g.session, g.tab)|)
            && IsTabName(groups, g.session, g.tab, tab.name))
  }

  // ---------- Runs ----------

  /** `start` to `end` is the stretch of a session's agents, or of a tab's. */
  ghost predicate IsSessionRun(groups: seq<Group>, start: nat, end: nat) {
    && start < end <= |groups|
    && (forall i :: start <= i < end ==> groups[i].session == groups[start].session)
    && (forall i :: 0 <= i < start || end <= i < |groups| ==> groups[i].session != groups[start].session)
  }

  ghost predicate IsTabRun(groups: seq<Group>, start: nat, end: nat) {
    && start < end <= |groups|
    && (forall i :: start <= i < end ==> SameTab(groups[i], groups[start]))
    && (forall i :: 0 <= i < start || end <= i < |groups| ==> !SameTab(groups[i], groups[start]))
  }

  lemma {:induction false} SessionEndIs(groups: seq<Group>, start: nat)
    requires start < |groups|
    ensures var end := SessionEnd(groups, start);
      && (forall i :: start <= i < end ==> groups[i].session == groups[start].session)
      && (end < |groups| ==> groups[end].session != groups[start].session)
    decreases |groups| - start
  {
    if start + 1 < |groups| && groups[start + 1].session == groups[start].session {
      SessionEndIs(groups, start + 1);
    }
  }

  lemma {:induction false} TabEndIs(groups: seq<Group>, start: nat)
    requires start < |groups|
    ensures var end := TabEnd(groups, start);
      && (forall i :: start <= i < end ==> SameTab(groups[i], groups[start]))
      && (end < |groups| ==> !SameTab(groups[end], groups[start]))
    decreases |groups| - start
  {
    if start + 1 < |groups| && SameTab(groups[start + 1], groups[start]) {
      TabEndIs(groups, start + 1);
    }
  }

  lemma SessionRunFrom(groups: seq<Group>, start: nat)
    requires Together(groups) && start < |groups| && StartsSession(groups, start)
    ensures IsSessionRun(groups, start, SessionEnd(groups, start))
  {
    var end := SessionEnd(groups, start);
    SessionEndIs(groups, start);
    assert start > 0 ==> groups[start - 1].session != groups[start].session;
  }

  lemma TabRunFrom(groups: seq<Group>, start: nat)
    requires Together(groups) && start < |groups| && StartsTab(groups, start)
    ensures IsTabRun(groups, start, TabEnd(groups, start))
  {
    var end := TabEnd(groups, start);
    TabEndIs(groups, start);
    assert start > 0 ==> !SameTab(groups[start - 1], groups[start]);
  }

  ghost function Range(a: nat, b: nat): (s: set<nat>)
    requires a <= b
    ensures |s| == b - a && forall i: nat :: i in s <==> a <= i < b
  {
    FirstMany(b) - FirstMany(a)
  }

  lemma RunSizes(groups: seq<Group>, start: nat, end: nat)
    ensures IsSessionRun(groups, start, end) ==> |InSession(groups, groups[start].session)| == end - start
    ensures IsTabRun(groups, start, end) ==> |InTab(groups, groups[start].session, groups[start].tab)| == end - start
  {
    if IsSessionRun(groups, start, end) {
      assert InSession(groups, groups[start].session) == Range(start, end);
    }
    if IsTabRun(groups, start, end) {
      assert InTab(groups, groups[start].session, groups[start].tab) == Range(start, end);
    }
  }

  // ---------- What stands before an agent ----------

  /** All rows before the one of agent `k`. */
  function Above(groups: seq<Group>, indices: seq<nat>, k: nat): seq<DisplayRow>
    requires k < |groups| == |indices|
  {
    Shown(groups, indices, k) + Headings(groups, k)
  }

  lemma LastOfAppend(rows: seq<DisplayRow>, row: DisplayRow)
    ensures LastSession(rows + [row]) == if row.SessionHeading? then Some(row) else LastSession(rows)
    ensures LastTab(rows + [row]) == if row.TabHeading? then Some(row) else LastTab(rows)
  {
    assert (rows + [row])[..|rows|] == rows;
  }

  /** What the headings before agent `k` make of the last headings. */
  lemma LastAbove(groups: seq<Group>, indices: seq<nat>, k: nat)
    requires k < |groups| == |indices|
    ensures var g, before, after := groups[k], Shown(groups, indices, k), Above(groups, indices, k);
      && LastSession(after) == (if g.session != "worktree-agent" && StartsSession(groups, k)
           then Some(SessionHeading(g.session, SessionEnd(groups, k) - k)) else LastSession(before))
      && LastTab(after) == (if g.session != "worktree-agent" && StartsTab(groups, k)
           then Some(TabHeading(g.session, g.tab, g.tabName, TabEnd(groups, k) - k)) else LastTab(before))
  {
    hide Shown, LastSession, LastTab, SessionEnd, TabEnd;
    var g, before := groups[k], Shown(groups, indices, k);
    var s := SessionHeading(g.session, SessionEnd(groups, k) - k);
    var t := TabHeading(g.session, g.tab, g.tabName, TabEnd(groups, k) - k);
    LastOfAppend(before, s);
    LastOfAppend(before, t);
    LastOfAppend(before + [s], t);
    var headings := Headings(groups, k);
    if g.session == "worktree-agent" || !StartsTab(groups, k) {
      assert headings == [] && before + [] == before;
    } else if StartsSession(groups, k) {
      assert headings == [s, t] && before + [s, t] == before + [s] + [t];
    } else {
      assert headings == [t];
    }
  }

  lemma LastBefore(groups: seq<Group>, indices: seq<nat>, k: nat)
    requires k < |groups| == |indices|
    ensures LastSession(Shown(groups, indices, k + 1)) == LastSession(Above(groups, indices, k))
    ensures LastTab(Shown(groups, indices, k + 1)) == LastTab(Above(groups, indices, k))
  {
    LastOfAppend(Above(groups, indices, k), Agent(indices[k]));
    hide LastSession, LastTab, Headings;
  }

  /** Where the runs of agent `k` begin. */
  lemma {:induction false} HeadingsAbove(groups: seq<Group>, indices: seq<nat>, k: nat) returns (s: nat, t: nat)
    requires k < |groups| == |indices| && Together(groups)
    ensures s <= k && t <= k && StartsSession(groups, s) && StartsTab(groups, t)
    ensures groups[s].session == groups[k].session && SameTab(groups[t], groups[k])
    ensures groups[k].session != "worktree-agent" ==>
      && LastSession(Above(groups, indices, k)) == Some(SessionHeading(groups[s].session, SessionEnd(groups, s) - s))
      && LastTab(Above(groups, indices, k)) ==
           Some(TabHeading(groups[t].session, groups[t].tab, groups[t].tabName, TabEnd(groups, t) - t))
    decreases k
  {
    hide Shown, Headings, LastSession, LastTab, SessionEnd, TabEnd, Above, Together;
    LastAbove(groups, indices, k);
    s, t := k, k;
    if k > 0 {
      LastBefore(groups, indices, k - 1);
      var s0, t0 := HeadingsAbove(groups, indices, k - 1);
      if !StartsSession(groups, k) {
        s := s0;
      }
      if !StartsTab(groups, k) {
        t := t0;
      }
    }
  }

  lemma {:induction false} ShownExtends(groups: seq<Group>, indices: seq<nat>, k: nat, n: nat)
    requires k <= n <= |groups| == |indices|
    ensures Shown(groups, indices, k) <= Shown(groups, indices, n)
    decreases n
  {
    hide Headings;
    if k < n {
      ShownExtends(groups, indices, k, n - 1);
    }
  }

  /** Every agent of the panel stands under the headings of its session and its tab, and these
      count the agents of that session and tab. */
  lemma AgentsStandUnder(groups: seq<Group>, indices: seq<nat>, k: nat) returns (p: nat)
    requires k < |groups| == |indices| && Together(groups)
    ensures StandsUnder(Shown(groups, indices, |groups|), p, indices[k], groups, groups[k])
  {
    hide *;
    AgentIsAt(groups, indices, k);
    p := |Above(groups, indices, k)|;
    var s, t := HeadingsAbove(groups, indices, k);
    RunCounts(groups, s, t);
    StandsBetween(Shown(groups, indices, |groups|), p, indices[k], groups, k, s, t);
  }

  lemma StandsBetween(rows: seq<DisplayRow>, p: nat, index: nat, groups: seq<Group>, k: nat, s: nat, t: nat)
    requires p < |rows| && rows[p] == Agent(index) && k < |groups| && s < |groups| && t < |groups|
    requires groups[s].session == groups[k].session && SameTab(groups[t], groups[k])
    requires groups[k].session != "worktree-agent" ==>
      && LastSession(rows[..p]) == Some(SessionHeading(groups[s].session, |InSession(groups, groups[s].session)|))
      && LastTab(rows[..p]) ==
           Some(TabHeading(groups[t].session, groups[t].tab, groups[t].tabName, |InTab(groups, groups[t].session, groups[t].tab)|))
    requires IsTabName(groups, groups[t].session, groups[t].tab, groups[t].tabName)
    ensures StandsUnder(rows, p, index, groups, groups[k])
  {
    hide LastSession, LastTab, InSession, InTab, IsTabName;
  }

  lemma AgentIsAt(groups: seq<Group>, indices: seq<nat>, k: nat)
    requires k < |groups| == |indices|
    ensures var rows, above := Shown(groups, indices, |groups|), Above(groups, indices, k);
      |above| < |rows| && rows[|above|] == Agent(indices[k]) && rows[..|above|] == above
  {
    ShownExtends(groups, indices, k + 1, |groups|);
    assert Shown(groups, indices, k + 1) == Above(groups, indices, k) + [Agent(indices[k])];
    hide Headings, Above;
  }

  lemma RunCounts(groups: seq<Group>, s: nat, t: nat)
    requires Together(groups) && s < |groups| && t < |groups| && StartsSession(groups, s) && StartsTab(groups, t)
    ensures SessionEnd(groups, s) - s == |InSession(groups, groups[s].session)|
    ensures TabEnd(groups, t) - t == |InTab(groups, groups[t].session, groups[t].tab)|
    ensures IsTabName(groups, groups[t].session, groups[t].tab, groups[t].tabName)
  {
    SessionRunFrom(groups, s);
    TabRunFrom(groups, t);
    RunSizes(groups, s, SessionEnd(groups, s));
    RunSizes(groups, t, TabEnd(groups, t));
    hide Together, SessionEnd, TabEnd, InSession, InTab;
    assert groups[t] == Group(groups[t].session, groups[t].tab, groups[t].tabName);
  }
}
