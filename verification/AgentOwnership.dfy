/** Who may delete an agent's record: starts, listings, rollbacks and the pane monitor work on
    one store, and owner tokens keep them from deleting each other's records. Each function is
    one section under the service's lock. */
module AgentOwnership {
  import opened Basics

  type Id = string
  type PaneId = string

  /** The fields that tell records apart. */
  datatype Identity = Identity(id: Id, kind: string, pane: PaneId, createdAt: int)

  /** `birth` numbers the records in the order of their creation. The program does not know it:
      two records of one ID may even have equal identities. */
  datatype Record = Record(identity: Identity, birth: nat)

  datatype Store = Store(byId: map<Id, Record>, byPane: map<PaneId, Id>)

  datatype Life = Provisioning | Active | Uncertain | Cleaning

  datatype Owner = Owner(token: nat, record: Record, life: Life)

  /** What a listing remembers of a record. Token 0: nobody owned it. */
  datatype Snapshot = Snapshot(record: Record, token: nat, life: Life, owned: bool)

  /** A record that a cleanup deleted: `target` is the birth that it meant, `victim` the birth
      that it deleted, and `fledgling` says that the victim was still being provisioned. */
  datatype Deletion = Deletion(target: nat, victim: nat, orphan: bool, fledgling: bool)

  datatype Service = Service(
    store: Store,
    owners: map<Id, Owner>,
    nextOwner: nat,
    births: nat,
    deletions: seq<Deletion>)

  predicate SameIdentity(a: Record, b: Record) {
    a.identity == b.identity
  }

  // ---------- The store ----------

  function Create(st: Store, r: Record): Option<Store> {
    if r.identity.id in st.byId || r.identity.pane in st.byPane then None
    else Some(Store(st.byId[r.identity.id := r], st.byPane[r.identity.pane := r.identity.id]))
  }

  function Delete(st: Store, id: Id): Store {
    if id !in st.byId then st
    else Store(st.byId - {id}, st.byPane - {st.byId[id].identity.pane})
  }

  /** The two indexes are inverse to each other. */
  ghost predicate StoreOk(st: Store) {
    && (forall id :: id in st.byId ==> st.byId[id].identity.id == id)
    && (forall id :: id in st.byId ==> st.byId[id].identity.pane in st.byPane && st.byPane[st.byId[id].identity.pane] == id)
    && (forall p :: p in st.byPane ==> st.byPane[p] in st.byId && st.byId[st.byPane[p]].identity.pane == p)
  }

  lemma StoreKept(st: Store, r: Record, id: Id)
    requires StoreOk(st)
    ensures Create(st, r).Some? ==> StoreOk(Create(st, r).value)
    ensures StoreOk(Delete(st, id))
    ensures forall x :: x in Delete(st, id).byId <==> x in st.byId && x != id
    ensures forall x :: x in Delete(st, id).byId ==> Delete(st, id).byId[x] == st.byId[x]
  {
  }

  // ---------- The sections ----------

  predicate IsSettled(o: Owner) {
    o.life == Active || o.life == Uncertain
  }

  predicate IsSwept(s: Service, id: Id)
    requires id in s.owners
  {
    IsSettled(s.owners[id]) && (id !in s.store.byId || !SameIdentity(s.owners[id].record, s.store.byId[id]))
  }

  /** Owner entries whose record is gone are dropped. */
  function Sweep(s: Service): Service {
    s.(owners := s.owners - (set id | id in s.owners && IsSwept(s, id)))
  }

  /** Returns the token of the new owner entry, or none if the ID is taken or reserved. An entry
      that the sweep left is reserved or still has its record. */
  function RegisterStart(s: Service, identity: Identity): (Service, Option<nat>) {
    var s1 := Sweep(s);
    var id := identity.id;
    if id in s1.owners then (s1, None)
    else
      var record := Record(identity, s1.births);
      var token := s1.nextOwner + 1;
      var created := Create(s1.store, record);
      if created.None? then (s1.(owners := s1.owners - {id}, nextOwner := token), None)
      else
        (s1.(store := created.value, owners := s1.owners[id := Owner(token, record, Provisioning)],
             nextOwner := token, births := s1.births + 1),
         Some(token))
  }

  function TakeSnapshot(s: Service, id: Id): Snapshot
    requires id in s.store.byId
  {
    var record := s.store.byId[id];
    if id in s.owners && SameIdentity(s.owners[id].record, record)
    then Snapshot(record, s.owners[id].token, s.owners[id].life, true)
    else Snapshot(record, 0, Provisioning, false)
  }

  predicate OwnerMatches(s: Service, snap: Snapshot) {
    var id := snap.record.identity.id;
    if snap.token == 0 then id !in s.owners
    else id in s.owners && s.owners[id].token == snap.token && SameIdentity(s.owners[id].record, snap.record)
  }

  /** How the store's calls of a cleanup come out. */
  datatype Calls = Calls(getFails: bool, deleteFails: bool)

  function SetLife(s: Service, id: Id, life: Life): Service
    requires id in s.owners
  {
    s.(owners := s.owners[id := s.owners[id].(life := life)])
  }

  /** The common end of both cleanups: `id` has an owner entry, and `meant` is the record to
      delete. */
  function DeleteMeant(s: Service, id: Id, meant: Record, orphan: bool, calls: Calls): Service
    requires id in s.owners
  {
    if calls.getFails then SetLife(s, id, Uncertain)
    else if id !in s.store.byId || !SameIdentity(s.store.byId[id], meant) then s.(owners := s.owners - {id})
    else if calls.deleteFails then SetLife(s, id, Uncertain)
    else
      var deletion := Deletion(meant.birth, s.store.byId[id].birth, orphan, s.owners[id].life == Provisioning);
      s.(store := Delete(s.store, id), owners := s.owners - {id}, deletions := s.deletions + [deletion])
  }

  /** A listing found no pane for the record of the snapshot. */
  function CleanupOrphan(s: Service, snap: Snapshot, calls: Calls): Service {
    var id := snap.record.identity.id;
    if !OwnerMatches(s, snap) then s
    else if snap.owned && (snap.life == Provisioning || snap.life == Uncertain) then s
    else if id in s.owners then
      if s.owners[id].life != Active then s else DeleteMeant(s, id, snap.record, true, calls)
    else
      var s1 := s.(nextOwner := s.nextOwner + 1, owners := s.owners[id := Owner(s.nextOwner + 1, snap.record, Cleaning)]);
      DeleteMeant(s1, id, snap.record, true, calls)
  }

  /** A start failed after it got this owner entry. */
  function Rollback(s: Service, owner: Owner, calls: Calls): Service {
    var id := owner.record.identity.id;
    if id !in s.owners || s.owners[id].token != owner.token then s
    else DeleteMeant(s, id, owner.record, false, calls)
  }

  function MarkActive(s: Service, owner: Owner): Service {
    var id := owner.record.identity.id;
    if id in s.owners && s.owners[id].token == owner.token then SetLife(s, id, Active) else s
  }

  /** The pane monitor deletes by ID, outside the lock. */
  function MonitorDeletes(s: Service, id: Id): Service {
    s.(store := Delete(s.store, id))
  }

  // ---------- Runs ----------

  /** `restored` are the records from before the start; later ones have births from `first` on. */
  datatype World = World(service: Service, snapshots: set<Snapshot>, starts: set<Owner>)

  datatype Event =
    | Registered(identity: Identity)
    | Listed(id: Id)
    | Orphaned(snapshot: Snapshot, calls: Calls)
    | RolledBack(owner: Owner, calls: Calls)
    | MarkedActive(owner: Owner)
    | Swept
    | PaneClosed(id: Id)

  predicate CanHappen(w: World, ev: Event) {
    match ev
    case Listed(id) => id in w.service.store.byId
    case Orphaned(snapshot, _) => snapshot in w.snapshots
    case RolledBack(owner, _) => owner in w.starts
    case MarkedActive(owner) => owner in w.starts
    case _ => true
  }

  function Next(w: World, ev: Event): World
    requires CanHappen(w, ev)
  {
    var s := w.service;
    match ev
    case Registered(identity) =>
      var (s1, token) := RegisterStart(s, identity);
      w.(service := s1,
         starts := if token.Some? then w.starts + {Owner(token.value, Record(identity, s.births), Provisioning)} else w.starts)
    case Listed(id) => w.(snapshots := w.snapshots + {TakeSnapshot(s, id)})
    case Orphaned(snapshot, calls) => w.(service := CleanupOrphan(s, snapshot, calls))
    case RolledBack(owner, calls) => w.(service := Rollback(s, owner, calls))
    case MarkedActive(owner) => w.(service := MarkActive(s, owner))
    case Swept => w.(service := Sweep(s))
    case PaneClosed(id) => w.(service := MonitorDeletes(s, id))
  }

  function Started(store: Store, births: nat): World {
    World(Service(store, map[], 0, births, []), {}, {})
  }

  /** The store holds the restored records, whose births come first. */
  ghost predicate CanStart(restored: Store, first: nat) {
    StoreOk(restored) && forall id :: id in restored.byId ==> restored.byId[id].birth < first
  }

  ghost predicate IsRun(restored: Store, first: nat, worlds: seq<World>, evs: seq<Event>) {
    && |worlds| == |evs| + 1 && worlds[0] == Started(restored, first) && CanStart(restored, first)
    && forall k :: 0 <= k < |evs| ==> CanHappen(worlds[k], evs[k]) && worlds[k + 1] == Next(worlds[k], evs[k])
  }

  // ---------- The invariant ----------

  /** A record that was registered since the start has its own owner entry; any other is the
      restored one of its ID. */
  ghost predicate RecordOk(s: Service, restored: Store, first: nat, id: Id) {
    id in s.store.byId ==>
      && s.store.byId[id].birth < s.births
      && (s.store.byId[id].birth >= first ==> id in s.owners)
      && (s.store.byId[id].birth < first ==> id in restored.byId && restored.byId[id] == s.store.byId[id])
  }

  ghost predicate OwnerOk(s: Service, id: Id) {
    id in s.owners ==>
      var o := s.owners[id];
      && 0 < o.token <= s.nextOwner && o.record.identity.id == id && o.record.birth < s.births
      && (id in s.store.byId ==> o.record == s.store.byId[id])
  }

  /** What a snapshot, or a start, still means by its token. */
  ghost predicate TokenOk(s: Service, token: nat, record: Record) {
    && token <= s.nextOwner && record.birth < s.births
    && (forall id :: id in s.owners && s.owners[id].token == token ==> s.owners[id].record == record)
  }

  ghost predicate SnapshotOk(s: Service, restored: Store, first: nat, snap: Snapshot) {
    && TokenOk(s, snap.token, snap.record)
    && (snap.token == 0 ==> snap.record.identity.id in restored.byId && restored.byId[snap.record.identity.id] == snap.record)
    && (snap.token > 0 ==> snap.owned)
  }

  ghost predicate ServiceOk(s: Service, restored: Store, first: nat) {
    && StoreOk(s.store) && first <= s.births
    && (forall id :: RecordOk(s, restored, first, id) && OwnerOk(s, id))
    && (forall a, b :: a in s.owners && b in s.owners && s.owners[a].token == s.owners[b].token ==> a == b)
  }

  ghost predicate DeletionsOk(s: Service) {
    forall k :: 0 <= k < |s.deletions| ==>
      s.deletions[k].victim == s.deletions[k].target && (s.deletions[k].orphan ==> !s.deletions[k].fledgling)
  }

  ghost predicate WorldOk(w: World, restored: Store, first: nat) {
    && ServiceOk(w.service, restored, first) && DeletionsOk(w.service)
    && (forall snap :: snap in w.snapshots ==> SnapshotOk(w.service, restored, first, snap))
    && (forall o :: o in w.starts ==> 0 < o.token && TokenOk(w.service, o.token, o.record))
  }

  /** A step only drops owner entries, or adds one with a new token. */
  ghost predicate TokensGrow(s: Service, s': Service) {
    && s.nextOwner <= s'.nextOwner && s.births <= s'.births
    && (forall id :: id in s'.owners ==>
          || s'.owners[id].token > s.nextOwner
          || (id in s.owners && s'.owners[id].token == s.owners[id].token && s'.owners[id].record == s.owners[id].record))
  }

  lemma TokensStay(s: Service, s': Service, token: nat, record: Record)
    requires TokensGrow(s, s') && TokenOk(s, token, record)
    ensures TokenOk(s', token, record)
  {
  }

  lemma SweepKeeps(s: Service, restored: Store, first: nat)
    requires ServiceOk(s, restored, first)
    ensures ServiceOk(Sweep(s), restored, first) && TokensGrow(s, Sweep(s))
    ensures forall id :: id in Sweep(s).owners && id !in s.store.byId ==> !IsSettled(s.owners[id])
  {
    var s' := Sweep(s);
    forall id ensures RecordOk(s', restored, first, id) && OwnerOk(s', id) {
      assert RecordOk(s, restored, first, id) && OwnerOk(s, id);
    }
  }

  lemma TokensBound(s: Service, restored: Store, first: nat)
    requires ServiceOk(s, restored, first)
    ensures forall id :: id in s.owners ==> s.owners[id].token <= s.nextOwner
  {
    forall id | id in s.owners ensures s.owners[id].token <= s.nextOwner {
      assert OwnerOk(s, id);
    }
  }

  lemma RegisterKeeps(s: Service, restored: Store, first: nat, identity: Identity)
    requires ServiceOk(s, restored, first)
    ensures var (s', token) := RegisterStart(s, identity);
      && ServiceOk(s', restored, first) && TokensGrow(s, s') && s'.deletions == s.deletions
      && (token.Some? ==> 0 < token.value && TokenOk(s', token.value, Record(identity, s.births)))
  {
    SweepKeeps(s, restored, first);
    var s1 := Sweep(s);
    var (s', token) := RegisterStart(s, identity);
    var record := Record(identity, s.births);
    StoreKept(s1.store, record, identity.id);
    TokensBound(s1, restored, first);
    forall id ensures RecordOk(s', restored, first, id) && OwnerOk(s', id) {
      assert RecordOk(s1, restored, first, id) && OwnerOk(s1, id);
    }
  }

  lemma MonitorKeeps(s: Service, restored: Store, first: nat, id: Id)
    requires ServiceOk(s, restored, first)
    ensures ServiceOk(MonitorDeletes(s, id), restored, first) && TokensGrow(s, MonitorDeletes(s, id))
  {
    var s' := MonitorDeletes(s, id);
    StoreKept(s.store, Record(Identity("", "", "", 0), 0), id);
    forall x ensures RecordOk(s', restored, first, x) && OwnerOk(s', x) {
      assert RecordOk(s, restored, first, x) && OwnerOk(s, x);
    }
  }

  lemma LifeKeeps(s: Service, restored: Store, first: nat, id: Id, life: Life)
    requires ServiceOk(s, restored, first) && id in s.owners
    ensures ServiceOk(SetLife(s, id, life), restored, first) && TokensGrow(s, SetLife(s, id, life))
  {
    var s' := SetLife(s, id, life);
    forall x ensures RecordOk(s', restored, first, x) && OwnerOk(s', x) {
      assert RecordOk(s, restored, first, x) && OwnerOk(s, x);
    }
  }

  /** The cleanup of the record that an owner entry names. */
  lemma OwnedDeleteKeeps(s: Service, restored: Store, first: nat, id: Id, meant: Record, orphan: bool, calls: Calls)
    requires ServiceOk(s, restored, first) && DeletionsOk(s) && id in s.owners && s.owners[id].record == meant
    requires orphan ==> s.owners[id].life != Provisioning
    ensures var s' := DeleteMeant(s, id, meant, orphan, calls);
      ServiceOk(s', restored, first) && DeletionsOk(s') && TokensGrow(s, s')
  {
    var s' := DeleteMeant(s, id, meant, orphan, calls);
    assert OwnerOk(s, id);
    StoreKept(s.store, meant, id);
    forall x ensures RecordOk(s', restored, first, x) && OwnerOk(s', x) {
      assert RecordOk(s, restored, first, x) && OwnerOk(s, x);
    }
  }

  /** The cleanup of a restored record that nobody owns gets it an owner entry first. */
  lemma UnownedDeleteKeeps(s: Service, restored: Store, first: nat, snap: Snapshot, calls: Calls)
    requires ServiceOk(s, restored, first) && DeletionsOk(s) && SnapshotOk(s, restored, first, snap)
    requires snap.token == 0 && snap.record.identity.id !in s.owners && StoreOk(restored)
    ensures var s' := CleanupOrphan(s, snap, calls);
      ServiceOk(s', restored, first) && DeletionsOk(s') && TokensGrow(s, s')
  {
    var id := snap.record.identity.id;
    var s1 := s.(nextOwner := s.nextOwner + 1, owners := s.owners[id := Owner(s.nextOwner + 1, snap.record, Cleaning)]);
    TokensBound(s, restored, first);
    forall x ensures RecordOk(s1, restored, first, x) && OwnerOk(s1, x) {
      assert RecordOk(s, restored, first, x) && OwnerOk(s, x);
    }
    hide RecordOk, OwnerOk, StoreOk, DeleteMeant;
    OwnedDeleteKeeps(s1, restored, first, id, snap.record, true, calls);
  }

  lemma OrphanKeeps(s: Service, restored: Store, first: nat, snap: Snapshot, calls: Calls)
    requires ServiceOk(s, restored, first) && DeletionsOk(s) && SnapshotOk(s, restored, first, snap) && StoreOk(restored)
    ensures var s' := CleanupOrphan(s, snap, calls);
      ServiceOk(s', restored, first) && DeletionsOk(s') && TokensGrow(s, s')
  {
    var id := snap.record.identity.id;
    if OwnerMatches(s, snap) {
      if id in s.owners {
        if s.owners[id].life == Active {
          OwnedDeleteKeeps(s, restored, first, id, snap.record, true, calls);
        }
      } else {
        UnownedDeleteKeeps(s, restored, first, snap, calls);
      }
    }
  }

  lemma NextKeeps(w: World, restored: Store, first: nat, ev: Event)
    requires WorldOk(w, restored, first) && CanHappen(w, ev) && StoreOk(restored)
    ensures WorldOk(Next(w, ev), restored, first)
  {
    hide ServiceOk, TokensGrow, TokenOk, RegisterStart, CleanupOrphan, DeleteMeant, Sweep, MonitorDeletes, SetLife;
    var s, s' := w.service, Next(w, ev).service;
    match ev {
      case Registered(identity) => RegisterKeeps(s, restored, first, identity);
      case Listed(id) => ListedOk(s, restored, first, id);
      case Orphaned(snap, calls) => OrphanKeeps(s, restored, first, snap, calls);
      case RolledBack(owner, calls) => RollbackKeeps(s, restored, first, owner, calls);
      case MarkedActive(owner) => MarkKeeps(s, restored, first, owner);
      case Swept => SweepKeeps(s, restored, first);
      case PaneClosed(id) => MonitorKeeps(s, restored, first, id);
    }
    SameTokens(s);
    SameDeletions(s, ev);
    forall snap | snap in w.snapshots ensures SnapshotOk(s', restored, first, snap) {
      TokensStay(s, s', snap.token, snap.record);
    }
    forall o | o in w.starts ensures TokenOk(s', o.token, o.record) {
      TokensStay(s, s', o.token, o.record);
    }
  }

  lemma SameTokens(s: Service)
    ensures TokensGrow(s, s)
  {
  }

  lemma SameDeletions(s: Service, ev: Event)
    ensures Sweep(s).deletions == s.deletions
    ensures forall id :: MonitorDeletes(s, id).deletions == s.deletions
  {
  }

  lemma ListedOk(s: Service, restored: Store, first: nat, id: Id)
    requires ServiceOk(s, restored, first) && id in s.store.byId
    ensures SnapshotOk(s, restored, first, TakeSnapshot(s, id))
  {
    var snap := TakeSnapshot(s, id);
    assert RecordOk(s, restored, first, id) && OwnerOk(s, id);
    forall x | x in s.owners && s.owners[x].token == snap.token ensures s.owners[x].record == snap.record {
      assert OwnerOk(s, x);
    }
  }

  lemma RollbackKeeps(s: Service, restored: Store, first: nat, owner: Owner, calls: Calls)
    requires ServiceOk(s, restored, first) && DeletionsOk(s) && TokenOk(s, owner.token, owner.record)
    ensures var s' := Rollback(s, owner, calls);
      ServiceOk(s', restored, first) && DeletionsOk(s') && TokensGrow(s, s')
  {
    var id := owner.record.identity.id;
    if id in s.owners && s.owners[id].token == owner.token {
      OwnedDeleteKeeps(s, restored, first, id, owner.record, false, calls);
    }
  }

  lemma MarkKeeps(s: Service, restored: Store, first: nat, owner: Owner)
    requires ServiceOk(s, restored, first)
    ensures var s' := MarkActive(s, owner);
      ServiceOk(s', restored, first) && s'.deletions == s.deletions && TokensGrow(s, s')
  {
    var id := owner.record.identity.id;
    if id in s.owners {
      LifeKeeps(s, restored, first, id, Active);
    }
  }

  lemma {:induction false} RunKeeps(restored: Store, first: nat, worlds: seq<World>, evs: seq<Event>, k: nat)
    requires IsRun(restored, first, worlds, evs) && k < |worlds|
    ensures WorldOk(worlds[k], restored, first)
  {
    if k == 0 {
      var s := worlds[0].service;
      forall id ensures RecordOk(s, restored, first, id) && OwnerOk(s, id) {
      }
    } else {
      RunKeeps(restored, first, worlds, evs, k - 1);
      hide WorldOk, Next, CanHappen;
      assert CanHappen(worlds[k - 1], evs[k - 1]) && worlds[k] == Next(worlds[k - 1], evs[k - 1]);
      NextKeeps(worlds[k - 1], restored, first, evs[k - 1]);
    }
  }

  /** Every cleanup deletes the very record that it observed or created, never one that was
      registered later under the same ID, and listing deletes no agent that is still starting. */
  lemma OnlyMeantRecordsAreDeleted(restored: Store, first: nat, worlds: seq<World>, evs: seq<Event>, k: nat, i: nat)
    requires IsRun(restored, first, worlds, evs) && k < |worlds| && i < |worlds[k].service.deletions|
    ensures var d := worlds[k].service.deletions[i];
      d.victim == d.target && (d.orphan ==> !d.fledgling)
  {
    RunKeeps(restored, first, worlds, evs, k);
  }

  /** A record that was registered since the start keeps its own owner entry while it lives,
      and the store's two indexes stay inverse to each other. */
  lemma RegisteredRecordsAreOwned(restored: Store, first: nat, worlds: seq<World>, evs: seq<Event>, k: nat, id: Id)
    requires IsRun(restored, first, worlds, evs) && k < |worlds|
    ensures var s := worlds[k].service;
      && StoreOk(s.store)
      && (id in s.store.byId && s.store.byId[id].birth >= first ==> id in s.owners && s.owners[id].record == s.store.byId[id])
  {
    RunKeeps(restored, first, worlds, evs, k);
    assert RecordOk(worlds[k].service, restored, first, id) && OwnerOk(worlds[k].service, id);
  }
}
