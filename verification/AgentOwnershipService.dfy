/** The agent service's owner table and store as objects that its sections update in place. */
module AgentOwnershipService {
  import opened Basics
  import opened AgentOwnership

  class MemoryStore {
    var byId: map<Id, Record>
    var byPane: map<PaneId, Id>

    function Value(): Store
      reads this
    {
      Store(byId, byPane)
    }

    constructor ()
      ensures Value() == Store(map[], map[]) && StoreOk(Value())
    {
      byId, byPane := map[], map[];
    }

    method Add(r: Record) returns (ok: bool)
      requires StoreOk(Value())
      modifies this
      ensures StoreOk(Value()) && ok == Create(old(Value()), r).Some?
      ensures Value() == if ok then Create(old(Value()), r).value else old(Value())
    {
      StoreKept(Value(), r, r.identity.id);
      if r.identity.id in byId || r.identity.pane in byPane {
        return false;
      }
      byId := byId[r.identity.id := r];
      byPane := byPane[r.identity.pane := r.identity.id];
      return true;
    }

    method Remove(id: Id) returns (found: bool)
      requires StoreOk(Value())
      modifies this
      ensures StoreOk(Value()) && Value() == Delete(old(Value()), id) && found == (id in old(byId))
    {
      if id !in byId {
        return false;
      }
      StoreKept(Value(), byId[id], id);
      var pane := byId[id].identity.pane;
      byId := byId - {id};
      byPane := byPane - {pane};
      return true;
    }

    /** The record that a pane belongs to. */
    method GetByPane(pane: PaneId) returns (r: Option<Record>)
      requires StoreOk(Value())
      ensures r.Some? ==> r.value.identity.id in byId && byId[r.value.identity.id] == r.value && r.value.identity.pane == pane
      ensures r.None? ==> forall id :: id in byId ==> byId[id].identity.pane != pane
    {
      if pane !in byPane {
        return None;
      }
      return Some(byId[byPane[pane]]);
    }
  }

  class AgentService {
    const store: MemoryStore
    var owners: map<Id, Owner>
    var nextOwner: nat
    /** Numbers the records and lists the deletions; the program has neither. */
    var births: nat
    ghost var deletions: seq<Deletion>

    ghost function State(): Service
      reads this, store
    {
      Service(store.Value(), owners, nextOwner, births, deletions)
    }

    ghost predicate Valid()
      reads this, store
    {
      StoreOk(store.Value())
    }

    constructor (store: MemoryStore)
      requires StoreOk(store.Value())
      ensures Valid() && this.store == store && State() == Service(store.Value(), map[], 0, 0, [])
    {
      this.store := store;
      owners, nextOwner, births, deletions := map[], 0, 0, [];
    }

    method SweepInactive()
      requires Valid()
      modifies this`owners
      ensures Valid() && State() == Sweep(old(State()))
    {
      ghost var before := State();
      var left := owners.Keys;
      while left != {}
        invariant left <= old(owners).Keys
        invariant forall id :: id in owners <==> id in old(owners) && (id in left || !IsSwept(before, id))
        invariant forall id :: id in owners ==> owners[id] == old(owners)[id]
        decreases |left|
      {
        var id :| id in left;
        var owner := owners[id];
        if owner.life != Provisioning && owner.life != Cleaning {
          if id !in store.byId || store.byId[id].identity != owner.record.identity {
            owners := owners - {id};
          }
        }
        left := left - {id};
      }
      assert owners == Sweep(before).owners;
    }

    method Register(identity: Identity) returns (token: Option<nat>)
      requires Valid()
      modifies this, store
      ensures Valid() && (State(), token) == RegisterStart(old(State()), identity)
    {
      SweepInactive();
      var id := identity.id;
      if id in owners {
        return None;
      }
      nextOwner := nextOwner + 1;
      var record := Record(identity, births);
      owners := owners[id := Owner(nextOwner, record, Provisioning)];
      var ok := store.Add(record);
      if !ok {
        owners := owners - {id};
        assert owners == Sweep(old(State())).owners - {id};
        return None;
      }
      births := births + 1;
      return Some(nextOwner);
    }

    /** What a listing remembers of one record. */
    method Observe(id: Id) returns (snap: Snapshot)
      requires id in store.byId
      ensures snap == TakeSnapshot(State(), id)
    {
      var record := store.byId[id];
      snap := Snapshot(record, 0, Provisioning, false);
      if id in owners && owners[id].record.identity == record.identity {
        snap := Snapshot(record, owners[id].token, owners[id].life, true);
      }
    }

    method FinishCleanup(id: Id, meant: Record, orphan: bool, calls: Calls) returns (deleted: bool)
      requires Valid() && id in owners
      modifies this, store
      ensures Valid() && State() == DeleteMeant(old(State()), id, meant, orphan, calls)
      ensures deleted <==> |deletions| == |old(deletions)| + 1
    {
      if calls.getFails {
        owners := owners[id := owners[id].(life := Uncertain)];
        return false;
      }
      if id !in store.byId || store.byId[id].identity != meant.identity {
        owners := owners - {id};
        return false;
      }
      if calls.deleteFails {
        owners := owners[id := owners[id].(life := Uncertain)];
        return false;
      }
      deletions := deletions + [Deletion(meant.birth, store.byId[id].birth, orphan, owners[id].life == Provisioning)];
      var found := store.Remove(id);
      owners := owners - {id};
      return true;
    }

    method CleanOrphan(snap: Snapshot, calls: Calls)
      requires Valid()
      modifies this, store
      ensures Valid() && State() == CleanupOrphan(old(State()), snap, calls)
    {
      var id := snap.record.identity.id;
      var matches := if snap.token == 0 then id !in owners
                     else id in owners && owners[id].token == snap.token && owners[id].record.identity == snap.record.identity;
      if !matches || (snap.owned && (snap.life == Provisioning || snap.life == Uncertain)) {
        return;
      }
      if id in owners {
        if owners[id].life != Active {
          return;
        }
      } else {
        nextOwner := nextOwner + 1;
        owners := owners[id := Owner(nextOwner, snap.record, Cleaning)];
      }
      var deleted := FinishCleanup(id, snap.record, true, calls);
    }

    method RollBack(owner: Owner, calls: Calls)
      requires Valid()
      modifies this, store
      ensures Valid() && State() == Rollback(old(State()), owner, calls)
    {
      var id := owner.record.identity.id;
      if id !in owners || owners[id].token != owner.token {
        return;
      }
      var deleted := FinishCleanup(id, owner.record, false, calls);
    }

    method Activate(owner: Owner)
      modifies this`owners
      ensures State() == MarkActive(old(State()), owner)
    {
      var id := owner.record.identity.id;
      if id in owners && owners[id].token == owner.token {
        owners := owners[id := owners[id].(life := Active)];
      }
    }
  }
}
