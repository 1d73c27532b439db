/** Reconciling the registry with the panes that Zellij lists: every record of a snapshot is
    settled by one guarded operation, so that a pane that moved on meanwhile is left alone. */
module PaneReconcile {
  import opened Basics
  import opened PaneRegistry
  import opened PaneRegistryInvariant
  import opened PaneRegistryOperations
  import opened PaneRegistryRuns
  import opened PaneRegistryService

  /** The listed panes, and whether each has exited. */
  type Listing = map<(SessionId, ZellijId), bool>

  datatype ListedPane = ListedPane(id: ZellijId, plugin: bool, exited: bool)

  const MISSING := "zellij pane missing during reconcile"
  const EXITED := "zellij pane exited during reconcile"
  const LIVE := "zellij pane live during reconcile"

  function KeyOf(pane: Pane): (SessionId, ZellijId) {
    (pane.session, pane.zellij)
  }

  // ---------- One record ----------

  datatype Settling = Drop | Confirm | Lose | Look | Revive

  /** What the record, as it was when it was read, and the listing ask for. */
  function Decide(record: Pane, listing: Listing): Settling {
    if record.status == Exited then Drop
    else if IsTerminal(record.status) then Confirm
    else if record.zellij == "" then Look
    else if KeyOf(record) !in listing then Lose
    else if listing[KeyOf(record)] then Drop
    else if record.status == Running then Look
    else Revive
  }

  /** The registry's operation on the record's own generation; `Look` changes nothing. */
  function OpOf(record: Pane, settling: Settling): Op
    requires settling != Look
  {
    match settling
    case Drop => Removing(record.id, record.generation, true)
    case Confirm => ClaimingClosure(record.id, record.generation, record.status, record.message)
    case Lose => ClaimingClosure(record.id, record.generation, Lost, MISSING)
    case Revive => SettingActiveStatus(record.id, record.generation, Running, LIVE)
  }

  function Current(r: Registry, record: Pane): Result {
    match Resolve(r, record.id)
    case None => Refuse(r, NotFound)
    case Some(pane) => Refuse(r, if pane.generation != record.generation then Stale else Done(pane, false))
  }

  ghost function Settle(r: Registry, record: Pane, listing: Listing): Result {
    var settling := Decide(record, listing);
    if settling == Look then Current(r, record) else Do(r, OpOf(record, settling))
  }

  /** The observers of a pane hear of its end where the operation claimed the notification. */
  predicate Notifies(settling: Settling, outcome: Outcome) {
    (settling == Drop || settling == Confirm || settling == Lose) && outcome.Done? && outcome.flag
  }

  /** Observers hear of an end exactly where the registry grants the notification, which it does
      once per generation. */
  lemma HeardIffGranted(r: Registry, record: Pane, listing: Listing)
    requires Decide(record, listing) != Look
    ensures Notifies(Decide(record, listing), Settle(r, record, listing).outcome) <==>
      Grant(r, OpOf(record, Decide(record, listing))) != []
  {
  }

  /** A pane that was removed or registered again since it was read is left alone. */
  lemma StaleRecordTouchesNothing(r: Registry, record: Pane, listing: Listing)
    requires record.generation > 0
    requires Resolve(r, record.id) == None || Resolve(r, record.id).value.generation != record.generation
    ensures var s := Settle(r, record, listing);
      s.registry == r && s.saves == [] && (s.outcome == NotFound || s.outcome == Stale)
  {
  }

  lemma OthersKept(panes: map<PaneId, Pane>, id: PaneId, pane: Pane)
    ensures forall p :: p != id && p in panes ==> p in panes[id := pane] && panes[id := pane][p] == panes[p]
    ensures forall p :: p != id && p in panes ==> p in panes - {id} && (panes - {id})[p] == panes[p]
  {
  }

  /** Whatever happened since the record was read: a pane that was alive then and is listed as
      alive is not ended, and no other pane is touched at all. */
  lemma ListedPaneStaysAlive(r: Registry, record: Pane, listing: Listing, p: PaneId)
    requires Inv(r) && p in Panes(r)
    requires p == record.id ==> !IsTerminal(record.status) && (record.zellij == "" || (KeyOf(record) in listing && !listing[KeyOf(record)]))
    ensures var r1 := Settle(r, record, listing).registry;
      && Inv(r1) && p in Panes(r1) && IsTerminal(Panes(r1)[p].status) == IsTerminal(Panes(r)[p].status)
      && (p != record.id ==> Panes(r1)[p] == Panes(r)[p])
  {
    var settling := Decide(record, listing);
    if settling != Look {
      OpKeepsOthers(r, OpOf(record, settling), record.id);
      if p == record.id {
        ReviveKeepsEnds(r, record);
      }
    }
  }

  lemma ReviveKeepsEnds(r: Registry, record: Pane)
    requires Inv(r) && record.id in Panes(r)
    ensures var r1 := Do(r, OpOf(record, Revive)).registry;
      record.id in Panes(r1) && IsTerminal(Panes(r1)[record.id].status) == IsTerminal(Panes(r)[record.id].status)
  {
    hide Inv, Panes;
    ResolvesIn(r, record.id);
    var pane := Panes(r)[record.id];
    if Names(pane, record.generation) && !IsTerminal(pane.status) {
      ReplaceInv(r, record.id, pane.(status := Running, message := LIVE), true);
    }
  }

  predicate IsSettling(op: Op, id: PaneId) {
    (op.Removing? && op.id == id) || (op.ClaimingClosure? && op.id == id) || (op.SettingActiveStatus? && op.id == id)
  }

  lemma OpKeepsOthers(r: Registry, op: Op, id: PaneId)
    requires Inv(r) && IsSettling(op, id)
    ensures var r1 := Do(r, op).registry;
      Inv(r1) && forall p :: p != id && p in Panes(r) ==> p in Panes(r1) && Panes(r1)[p] == Panes(r)[p]
  {
    hide Inv, Panes, Resolve, Replace, Remove;
    DoKeeps(r, op);
    InvRepresents(r);
    ResolvesAll(r, id);
    if id in Panes(r) && Names(Panes(r)[id], op.generation) {
      var pane := Panes(r)[id];
      match op {
        case Removing(_, g, claiming) =>
          RemoveInv(r, id, g, claiming);
          OthersKept(Panes(r), id, pane);
        case ClaimingClosure(_, g, status, message) =>
          var closed := if IsTerminal(pane.status) then pane else pane.(status := status, message := message);
          ReplaceInv(r, id, closed.(claimed := true), !pane.claimed);
          OthersKept(Panes(r), id, closed.(claimed := true));
        case SettingActiveStatus(_, g, status, message) =>
          if !IsTerminal(pane.status) {
            ReplaceInv(r, id, pane.(status := status, message := message), true);
            OthersKept(Panes(r), id, pane.(status := status, message := message));
          }
        case _ =>
      }
    }
    UnknownUntouched(r, op, id);
  }

  lemma UnknownUntouched(r: Registry, op: Op, id: PaneId)
    requires IsSettling(op, id)
    ensures Resolve(r, id) == None || !Names(Resolve(r, id).value, op.generation) ==> Do(r, op).registry == r
  {
  }

  // ---------- A pass with nobody in between ----------

  /** What becomes of a pane; `None` is removed. */
  function After(pane: Pane, listing: Listing): Option<Pane> {
    match Decide(pane, listing)
    case Drop => None
    case Confirm => Some(pane.(claimed := true))
    case Lose => Some(pane.(status := Lost, message := MISSING, claimed := true))
    case Look => Some(pane)
    case Revive => Some(pane.(status := Running, message := LIVE))
  }

  /** The first to learn of the end of a pane. */
  predicate IsNews(pane: Pane, listing: Listing) {
    var settling := Decide(pane, listing);
    (settling == Drop || settling == Confirm || settling == Lose) && !pane.claimed
  }

  function Applied(panes: map<PaneId, Pane>, id: PaneId, after: Option<Pane>): map<PaneId, Pane> {
    match after
    case None => panes - {id}
    case Some(pane) => panes[id := pane]
  }

  lemma SettleCurrent(r: Registry, record: Pane, listing: Listing)
    requires Inv(r) && record.id in Panes(r) && Panes(r)[record.id] == record
    ensures var s := Settle(r, record, listing);
      && Inv(s.registry) && s.outcome.Done?
      && Panes(s.registry) == Applied(Panes(r), record.id, After(record, listing))
      && Notifies(Decide(record, listing), s.outcome) == IsNews(record, listing)
  {
    hide Inv, Panes, Resolve, IsTerminal, ClaimClosure, UpdateActiveStatus, Replace, Decide;
    DecideFits(record, listing);
    ResolvesIn(r, record.id);
    match Decide(record, listing) {
      case Confirm => ClaimCurrent(r, record, record.status, record.message);
      case Lose => ClaimCurrent(r, record, Lost, MISSING);
      case Drop => RemoveInv(r, record.id, record.generation, true);
      case Revive => ReviveCurrent(r, record);
      case Look => assert Panes(r)[record.id := record] == Panes(r);
    }
  }

  lemma DecideFits(record: Pane, listing: Listing)
    ensures Decide(record, listing) == Confirm ==> IsTerminal(record.status)
    ensures Decide(record, listing) == Lose || Decide(record, listing) == Revive ==> !IsTerminal(record.status)
  {
  }

  lemma ReviveCurrent(r: Registry, record: Pane)
    requires Inv(r) && record.id in Panes(r) && Panes(r)[record.id] == record && !IsTerminal(record.status)
    ensures var s := UpdateActiveStatus(r, record.id, record.generation, Running, LIVE);
      Inv(s.registry) && s.outcome.Done? && Panes(s.registry) == Panes(r)[record.id := record.(status := Running, message := LIVE)]
  {
    hide Inv, Panes, Resolve, IsTerminal;
    ResolvesIn(r, record.id);
    ReplaceInv(r, record.id, record.(status := Running, message := LIVE), true);
  }

  lemma ClaimCurrent(r: Registry, record: Pane, status: Status, message: string)
    requires Inv(r) && record.id in Panes(r) && Panes(r)[record.id] == record
    ensures var s := ClaimClosure(r, record.id, record.generation, status, message);
      var closed := if IsTerminal(record.status) then record else record.(status := status, message := message);
      && Inv(s.registry) && Panes(s.registry) == Panes(r)[record.id := closed.(claimed := true)]
      && s.outcome == Done(closed.(claimed := true), !record.claimed)
  {
    hide Inv, Panes, Resolve, IsTerminal;
    ResolvesIn(r, record.id);
    var closed := if IsTerminal(record.status) then record else record.(status := status, message := message);
    ReplaceInv(r, record.id, closed.(claimed := true), !record.claimed);
  }

  /** The records are all panes of the registry, each once. */
  ghost predicate IsSnapshot(records: seq<Pane>, panes: map<PaneId, Pane>) {
    && (forall k :: 0 <= k < |records| ==> records[k].id in panes && panes[records[k].id] == records[k])
    && (forall i, j :: 0 <= i < j < |records| ==> records[i].id != records[j].id)
    && (forall p :: p in panes ==> exists k :: 0 <= k < |records| && records[k].id == p)
  }

  ghost predicate Settled(before: map<PaneId, Pane>, now: map<PaneId, Pane>, listing: Listing, p: PaneId) {
    && (p in now <==> p in before && After(before[p], listing).Some?)
    && (p in now ==> After(before[p], listing) == Some(now[p]))
  }

  ghost predicate Untouched(before: map<PaneId, Pane>, now: map<PaneId, Pane>, p: PaneId) {
    (p in now <==> p in before) && (p in now ==> now[p] == before[p])
  }

  /** The first `k` records are settled, the others are as they were. */
  ghost predicate Halfway(records: seq<Pane>, before: map<PaneId, Pane>, now: map<PaneId, Pane>, listing: Listing, k: nat)
    requires k <= |records|
  {
    && (forall i :: 0 <= i < k ==> Settled(before, now, listing, records[i].id))
    && (forall i :: k <= i < |records| ==> Untouched(before, now, records[i].id))
    && (forall p :: p in now ==> p in before)
  }

  lemma OneMore(records: seq<Pane>, before: map<PaneId, Pane>, now: map<PaneId, Pane>, listing: Listing, k: nat)
    requires k < |records| && IsSnapshot(records, before) && Halfway(records, before, now, listing, k)
    ensures records[k].id in now && now[records[k].id] == records[k]
    ensures Halfway(records, before, Applied(now, records[k].id, After(records[k], listing)), listing, k + 1)
  {
    assert Untouched(before, now, records[k].id);
    var id := records[k].id;
    var next := Applied(now, id, After(records[k], listing));
    hide After;
    AppliedElsewhere(now, id, After(records[k], listing));
    assert Settled(before, next, listing, id);
    hide Applied;
    forall i | 0 <= i < k ensures Settled(before, next, listing, records[i].id) {
      assert Settled(before, now, listing, records[i].id);
    }
    forall i | k < i < |records| ensures Untouched(before, next, records[i].id) {
      assert Untouched(before, now, records[i].id);
    }
  }

  lemma AppliedElsewhere(now: map<PaneId, Pane>, id: PaneId, after: Option<Pane>)
    ensures var next := Applied(now, id, after);
      forall p :: p != id ==> (p in next <==> p in now) && (p in now ==> next[p] == now[p])
  {
  }

  ghost predicate Reconciled(before: map<PaneId, Pane>, now: map<PaneId, Pane>, listing: Listing) {
    forall p :: Settled(before, now, listing, p)
  }

  lemma PassIsDone(records: seq<Pane>, before: map<PaneId, Pane>, now: map<PaneId, Pane>, listing: Listing)
    requires IsSnapshot(records, before) && Halfway(records, before, now, listing, |records|)
    ensures Reconciled(before, now, listing)
  {
    forall p ensures Settled(before, now, listing, p) {
      if p in before {
        var k :| 0 <= k < |records| && records[k].id == p;
        assert Settled(before, now, listing, records[k].id);
      }
    }
  }

  /** After a pass every live pane that Zellij could know is listed, has not exited and runs, and
      no exited pane is left. */
  lemma RegistryAgreesWithListing(before: map<PaneId, Pane>, now: map<PaneId, Pane>, listing: Listing, p: PaneId)
    requires Reconciled(before, now, listing) && p in now
    ensures now[p].status != Exited
    ensures !IsTerminal(now[p].status) && now[p].zellij != "" ==>
      KeyOf(now[p]) in listing && !listing[KeyOf(now[p])] && now[p].status == Running
    ensures IsTerminal(now[p].status) ==> now[p].claimed
    ensures p in before && (!IsTerminal(before[p].status) && IsTerminal(now[p].status) ==> before[p].zellij != "" && KeyOf(before[p]) !in listing)
  {
    assert Settled(before, now, listing, p);
  }

  /** The pane as it is reported; what was removed as it was found to end. */
  function Reported(pane: Pane, listing: Listing): Pane {
    match After(pane, listing)
    case Some(after) => after
    case None =>
      if IsTerminal(pane.status) then pane.(claimed := true)
      else pane.(status := Exited, message := EXITED, claimed := true)
  }

  /** A pane that was removed because Zellij lists it as exited is reported so. */
  function Finished(record: Pane, listing: Listing, pane: Pane): Pane {
    if Decide(record, listing) == Drop && record.status != Exited && !IsTerminal(pane.status)
    then pane.(status := Exited, message := EXITED) else pane
  }

  method ReconcileRecord(table: PaneTable, record: Pane, listing: Listing) returns (outcome: Outcome, heard: bool)
    modifies table
    ensures table.Did(Settle(old(table.State()), record, listing))
    ensures var s := Settle(old(table.State()), record, listing);
      && heard == Notifies(Decide(record, listing), s.outcome)
      && (outcome.Done? <==> s.outcome.Done?)
      && (!outcome.Done? ==> outcome == s.outcome)
      && (outcome.Done? ==> outcome.pane == Finished(record, listing, s.outcome.pane))
  {
    hide Remove, ClaimClosure, UpdateActiveStatus, Resolve;
    if record.status == Exited {
      outcome := table.RemovePane(record.id, record.generation, true);
      heard := outcome.Done? && outcome.flag;
      return;
    }
    if IsTerminal(record.status) {
      outcome := table.Claim(record.id, record.generation, record.status, record.message);
      heard := outcome.Done? && outcome.flag;
      return;
    }
    if record.zellij == "" {
      outcome := CurrentPane(table, record);
      return outcome, false;
    }
    if KeyOf(record) !in listing {
      outcome := table.Claim(record.id, record.generation, Lost, MISSING);
      heard := outcome.Done? && outcome.flag;
      return;
    }
    if listing[KeyOf(record)] {
      outcome := table.RemovePane(record.id, record.generation, true);
      heard := outcome.Done? && outcome.flag;
      if outcome.Done? && !IsTerminal(outcome.pane.status) {
        outcome := Done(outcome.pane.(status := Exited, message := EXITED), outcome.flag);
      }
      return;
    }
    if record.status == Running {
      outcome := CurrentPane(table, record);
      return outcome, false;
    }
    outcome := table.SetActiveStatus(record.id, record.generation, Running, LIVE);
    heard := false;
  }

  method CurrentPane(table: PaneTable, record: Pane) returns (outcome: Outcome)
    ensures outcome == Current(table.State(), record).outcome
  {
    var found := table.Find(record.id);
    if found.None? {
      return NotFound;
    }
    return if found.value.generation != record.generation then Stale else Done(found.value, false);
  }

  function ReportedAll(records: seq<Pane>, listing: Listing, k: nat): (r: seq<Pane>)
    requires k <= |records|
    ensures |r| == k && forall i :: 0 <= i < k ==> r[i] == Reported(records[i], listing)
  {
    seq(k, i requires 0 <= i < k => Reported(records[i], listing))
  }

  function News(records: seq<Pane>, listing: Listing, k: nat): seq<PaneId>
    requires k <= |records|
  {
    if k == 0 then [] else News(records, listing, k - 1) + if IsNews(records[k - 1], listing) then [records[k - 1].id] else []
  }

  ghost predicate IsTold(records: seq<Pane>, listing: Listing, k: nat, p: PaneId)
    requires k <= |records|
  {
    exists i :: 0 <= i < k && records[i].id == p && IsNews(records[i], listing)
  }

  lemma ToldNext(records: seq<Pane>, listing: Listing, k: nat, p: PaneId)
    requires k < |records|
    ensures IsTold(records, listing, k + 1, p) <==> IsTold(records, listing, k, p) || (records[k].id == p && IsNews(records[k], listing))
  {
    hide IsNews;
    if IsTold(records, listing, k, p) {
      var i :| 0 <= i < k && records[i].id == p && IsNews(records[i], listing);
    }
  }

  /** The end of every pane that nobody was told of before is told, and told once. */
  lemma {:induction false} NewsAreExact(records: seq<Pane>, panes: map<PaneId, Pane>, listing: Listing, k: nat)
    requires k <= |records| && IsSnapshot(records, panes)
    ensures var news := News(records, listing, k);
      && (forall i, j :: 0 <= i < j < |news| ==> news[i] != news[j])
      && (forall p :: p in news <==> IsTold(records, listing, k, p))
  {
    if k > 0 {
      NewsAreExact(records, panes, listing, k - 1);
      var news, last := News(records, listing, k - 1), records[k - 1];
      assert !IsTold(records, listing, k - 1, last.id);
      hide IsNews, IsTold, IsSnapshot;
      forall p ensures p in News(records, listing, k) <==> IsTold(records, listing, k, p) {
        ToldNext(records, listing, k - 1, p);
      }
    }
  }

  lemma SettleReported(r: Registry, record: Pane, listing: Listing)
    requires Inv(r) && record.id in Panes(r) && Panes(r)[record.id] == record
    ensures var s := Settle(r, record, listing);
      s.outcome.Done? && Reported(record, listing) == Finished(record, listing, s.outcome.pane)
  {
    hide Inv, Panes, Resolve;
    ResolvesIn(r, record.id);
  }

  /** A pass settles every pane as the listing says, reports every pane and tells each end once. */
  method Reconcile(table: PaneTable, records: seq<Pane>, listing: Listing) returns (panes: seq<Pane>, heard: seq<PaneId>)
    requires Inv(table.State()) && IsSnapshot(records, Panes(table.State()))
    modifies table
    ensures Inv(table.State()) && Reconciled(old(Panes(table.State())), Panes(table.State()), listing)
    ensures panes == ReportedAll(records, listing, |records|)
    ensures heard == News(records, listing, |records|)
  {
    hide Inv, Panes, IsSnapshot, Halfway, Settle, After, Reported, IsNews, Notifies, Decide, Reconciled;
    ghost var before := Panes(table.State());
    panes, heard := [], [];
    NothingSettled(records, before, listing);
    for k := 0 to |records|
      invariant Inv(table.State()) && Halfway(records, before, Panes(table.State()), listing, k)
      invariant panes == ReportedAll(records, listing, k) && heard == News(records, listing, k)
    {
      ghost var r := table.State();
      OneMore(records, before, Panes(r), listing, k);
      SettleCurrent(r, records[k], listing);
      SettleReported(r, records[k], listing);
      var outcome, told := ReconcileRecord(table, records[k], listing);
      if told {
        heard := heard + [records[k].id];
      }
      if outcome.Done? {
        panes := panes + [outcome.pane];
      }
    }
    PassIsDone(records, before, Panes(table.State()), listing);
  }

  lemma NothingSettled(records: seq<Pane>, before: map<PaneId, Pane>, listing: Listing)
    ensures Halfway(records, before, before, listing, 0)
  {
  }

  // ---------- The listing ----------

  /** What the last of the first `m` listed panes with this ID says; plugins are not panes. */
  function LastListed(list: seq<ListedPane>, z: ZellijId, m: nat): Option<bool>
    requires m <= |list|
  {
    if m == 0 || z == "" then None
    else if !list[m - 1].plugin && list[m - 1].id == z then Some(list[m - 1].exited)
    else LastListed(list, z, m - 1)
  }

  type Lists = map<SessionId, Option<seq<ListedPane>>>

  function Says(lists: Lists, s: SessionId, z: ZellijId): Option<bool> {
    if s in lists && lists[s].Some? then LastListed(lists[s].value, z, |lists[s].value|) else None
  }

  ghost predicate Holding(listing: Listing, key: (SessionId, ZellijId), exited: Option<bool>) {
    (key in listing <==> exited.Some?) && (key in listing ==> exited == Some(listing[key]))
  }

  /** The keys of the listing, each once. */
  ghost predicate IsKeys(keys: seq<(SessionId, ZellijId)>, listing: Listing) {
    Distinct(keys) && forall key :: key in keys <==> key in listing
  }

  method AddList(s: SessionId, list: seq<ListedPane>, before: Listing, keys0: seq<(SessionId, ZellijId)>)
    returns (listing: Listing, keys: seq<(SessionId, ZellijId)>)
    requires IsKeys(keys0, before) && forall z :: (s, z) !in before
    ensures IsKeys(keys, listing)
    ensures forall z :: Holding(listing, (s, z), LastListed(list, z, |list|))
    ensures forall t, z :: t != s ==> ((t, z) in listing <==> (t, z) in before) && ((t, z) in listing ==> listing[(t, z)] == before[(t, z)])
  {
    listing, keys := before, keys0;
    for m := 0 to |list|
      invariant IsKeys(keys, listing)
      invariant forall z :: Holding(listing, (s, z), LastListed(list, z, m))
      invariant forall t, z :: t != s ==> ((t, z) in listing <==> (t, z) in before) && ((t, z) in listing ==> listing[(t, z)] == before[(t, z)])
    {
      if list[m].plugin || list[m].id == "" {
        continue;
      }
      var key := (s, list[m].id);
      if key !in listing {
        keys := keys + [key];
      }
      listing := listing[key := list[m].exited];
    }
  }

  /** The panes of all sessions; a session that could not be listed ends the pass. */
  method Collect(sessions: seq<SessionId>, lists: Lists) returns (listing: Option<Listing>, keys: seq<(SessionId, ZellijId)>)
    requires forall i, j :: 0 <= i < j < |sessions| ==> sessions[i] != sessions[j]
    requires forall i :: 0 <= i < |sessions| ==> sessions[i] in lists
    ensures listing.None? <==> exists i :: 0 <= i < |sessions| && lists[sessions[i]].None?
    ensures listing.Some? ==> IsKeys(keys, listing.value)
    ensures listing.Some? ==> forall s, z :: Holding(listing.value, (s, z), if s in sessions then Says(lists, s, z) else None)
  {
    var found: Listing := map[];
    keys := [];
    for k := 0 to |sessions|
      invariant forall i :: 0 <= i < k ==> lists[sessions[i]].Some?
      invariant IsKeys(keys, found)
      invariant forall s, z :: Holding(found, (s, z), if s in sessions[..k] then Says(lists, s, z) else None)
    {
      var s := sessions[k];
      if lists[s].None? {
        return None, keys;
      }
      ghost var before := found;
      assert forall z :: Holding(before, (s, z), None);
      found, keys := AddList(s, lists[s].value, found, keys);
      forall t, z ensures Holding(found, (t, z), if t in sessions[..k + 1] then Says(lists, t, z) else None) {
        assert Holding(before, (t, z), if t in sessions[..k] then Says(lists, t, z) else None);
        assert sessions[..k + 1] == sessions[..k] + [s];
        if t == s {
          assert Holding(found, (s, z), LastListed(lists[s].value, z, |lists[s].value|));
        }
      }
    }
    assert sessions[..|sessions|] == sessions;
    listing := Some(found);
  }

  /** The listed panes that no record names, in the order in which they were listed. */
  method Unmanaged(keys: seq<(SessionId, ZellijId)>, records: seq<Pane>) returns (unmanaged: seq<(SessionId, ZellijId)>)
    requires Distinct(keys)
    ensures Distinct(unmanaged)
    ensures forall key :: key in unmanaged <==> key in keys && !IsManaged(records, key, |records|)
  {
    var managed: set<(SessionId, ZellijId)> := {};
    for k := 0 to |records|
      invariant forall key :: key in managed <==> IsManaged(records, key, k)
    {
      if records[k].zellij != "" {
        managed := managed + {KeyOf(records[k])};
      }
    }
    unmanaged := [];
    for k := 0 to |keys|
      invariant Distinct(unmanaged)
      invariant forall key :: key in unmanaged <==> key in keys[..k] && !IsManaged(records, key, |records|)
    {
      assert keys[..k + 1] == keys[..k] + [keys[k]];
      if keys[k] !in managed {
        unmanaged := unmanaged + [keys[k]];
      }
    }
    assert keys[..|keys|] == keys;
  }

  ghost predicate IsManaged(records: seq<Pane>, key: (SessionId, ZellijId), k: nat)
    requires k <= |records|
  {
    exists i :: 0 <= i < k && records[i].zellij != "" && KeyOf(records[i]) == key
  }
}
