/** When a start is accepted and when a cleanup deletes, in terms of the owner table and the store
    alone. */
module AgentOwnershipDecisions {
  import opened Basics
  import opened AgentOwnership

  predicate IsStored(s: Service, id: Id, identity: Identity) {
    id in s.store.byId && s.store.byId[id].identity == identity
  }

  /** The owner's start is over and its record is gone or is another one by now. */
  predicate IsInactive(s: Service, id: Id) {
    && id in s.owners && (s.owners[id].life == Active || s.owners[id].life == Uncertain)
    && !IsStored(s, id, s.owners[id].record.identity)
  }

  /** Exactly the inactive owners are dropped, but for what happens to `but`. */
  ghost predicate DropsInactive(s: Service, s': Service, but: Option<Id>) {
    forall id :: Some(id) != but ==>
      && (id in s'.owners <==> id in s.owners && !IsInactive(s, id))
      && (id in s'.owners ==> s'.owners[id] == s.owners[id])
  }

  /** Only the record and the owner of `id` may differ. */
  ghost predicate OthersStay(s: Service, s': Service, id: Id) {
    && (forall x :: x != id ==> (x in s'.owners <==> x in s.owners) && (x in s.owners && x in s'.owners ==> s'.owners[x] == s.owners[x]))
    && (forall x :: x != id ==> (x in s'.store.byId <==> x in s.store.byId) && (x in s.store.byId && x in s'.store.byId ==> s'.store.byId[x] == s.store.byId[x]))
    && s'.births == s.births
  }

  /** Neither ID nor pane is in use, and nobody who still counts owns the ID. */
  predicate MayStart(s: Service, identity: Identity) {
    && identity.id !in s.store.byId && identity.pane !in s.store.byPane
    && (identity.id in s.owners ==> IsInactive(s, identity.id))
  }

  /** A start is accepted exactly if its ID and pane are free; then the store has its record and
      the start alone has the new token, still provisioning. */
  lemma StartDecides(w: World, identity: Identity)
    ensures var s, w' := w.service, Next(w, Registered(identity));
      var s', id := w'.service, identity.id;
      if MayStart(s, identity) then
        && id in s'.owners && s'.owners[id] == Owner(s.nextOwner + 1, Record(identity, s.births), Provisioning)
        && s'.store.byId == s.store.byId[id := Record(identity, s.births)]
        && s'.store.byPane == s.store.byPane[identity.pane := id]
        && DropsInactive(s, s', Some(id)) && s'.births == s.births + 1 && s'.nextOwner == s.nextOwner + 1
        && w'.starts == w.starts + {s'.owners[id]}
      else s'.store == s.store && s'.births == s.births && DropsInactive(s, s', None) && w'.starts == w.starts
  {
  }

  /** A sweep drops exactly the inactive owners, and the monitor deletes exactly that record. */
  lemma SweepDecides(w: World, id: Id)
    ensures var s, s' := w.service, Next(w, Swept).service;
      DropsInactive(s, s', None) && s'.store == s.store && s'.nextOwner == s.nextOwner
    ensures var s, s' := w.service, Next(w, PaneClosed(id)).service;
      OthersStay(s, s', id) && id !in s'.store.byId && s'.owners == s.owners && s'.nextOwner == s.nextOwner
  {
  }

  /** A listing remembers the record and, if it is the owner's, the owner's token and life. */
  lemma ListingDecides(w: World, id: Id)
    requires id in w.service.store.byId
    ensures var s, w' := w.service, Next(w, Listed(id));
      var r := s.store.byId[id];
      && w'.service == s
      && w'.snapshots == w.snapshots + {
           if id in s.owners && s.owners[id].record.identity == r.identity
           then Snapshot(r, s.owners[id].token, s.owners[id].life, true) else Snapshot(r, 0, Provisioning, false)}
  {
  }

  /** Owner and record are still those that the listing saw, and no start is on its way or in doubt. */
  predicate MayCleanUp(s: Service, snap: Snapshot) {
    var id := snap.record.identity.id;
    && !(snap.owned && (snap.life == Provisioning || snap.life == Uncertain))
    && if snap.token == 0 then id !in s.owners
       else
         && id in s.owners && s.owners[id].token == snap.token && s.owners[id].life == Active
         && s.owners[id].record.identity == snap.record.identity
  }

  /** How a cleanup of `id` ends: the record is deleted if it is the one meant and both calls
      succeed; the owner goes with it, or where it is gone already, and stays in doubt where a
      call failed. */
  ghost predicate Concludes(s: Service, s': Service, id: Id, meant: Record, orphan: bool, calls: Calls) {
    && OthersStay(s, s', id)
    && if !calls.getFails && IsStored(s, id, meant.identity) && !calls.deleteFails then
         && id !in s'.store.byId && id !in s'.owners
         && s'.deletions == s.deletions + [
              Deletion(meant.birth, s.store.byId[id].birth, orphan, id in s.owners && s.owners[id].life == Provisioning)]
       else
         && s'.store == s.store && s'.deletions == s.deletions
         && if !calls.getFails && !IsStored(s, id, meant.identity) then id !in s'.owners
            else id in s'.owners && s'.owners[id].life == Uncertain && s'.owners[id].record.identity == meant.identity
  }

  /** An orphan is cleaned up exactly if nothing has changed since it was listed. */
  lemma OrphanDecides(w: World, snap: Snapshot, calls: Calls)
    requires snap in w.snapshots
    ensures var s, s' := w.service, Next(w, Orphaned(snap, calls)).service;
      if MayCleanUp(s, snap) then
        && Concludes(s, s', snap.record.identity.id, snap.record, true, calls)
        && s'.nextOwner == if snap.token == 0 then s.nextOwner + 1 else s.nextOwner
      else s' == s
  {
    hide Delete;
    DeleteTakesOne(w.service.store, snap.record.identity.id);
  }

  lemma DeleteTakesOne(st: Store, id: Id)
    ensures var st' := Delete(st, id);
      && id !in st'.byId
      && (forall x :: x != id ==> (x in st'.byId <==> x in st.byId) && (x in st.byId ==> st'.byId[x] == st.byId[x]))
  {
  }

  /** A failed start is undone exactly while it still owns its ID, and one that succeeded becomes
      active exactly then. */
  lemma StartEnds(w: World, restored: Store, first: nat, owner: Owner, calls: Calls)
    requires WorldOk(w, restored, first) && owner in w.starts
    ensures var s, id := w.service, owner.record.identity.id;
      var s1, s2 := Next(w, RolledBack(owner, calls)).service, Next(w, MarkedActive(owner)).service;
      if id in s.owners && s.owners[id].token == owner.token then
        && Concludes(s, s1, id, owner.record, false, calls) && s1.nextOwner == s.nextOwner
        && OthersStay(s, s2, id) && s2.store == s.store && s2.deletions == s.deletions
        && id in s2.owners && s2.owners[id] == s.owners[id].(life := Active)
      else s1 == s && s2 == s
  {
    hide Delete, ServiceOk, DeletionsOk, SnapshotOk;
    DeleteTakesOne(w.service.store, owner.record.identity.id);
  }
}
