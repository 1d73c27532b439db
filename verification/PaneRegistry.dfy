/** The registry of panes: sessions hold tabs, tabs hold panes, and two indexes are derived
    from the tree. Each function is one operation under the registry's lock. */
module PaneRegistry {
  import opened Basics

  type PaneId = string
  type SessionId = string
  type TabId = string
  type ZellijId = string

  datatype Status = Starting | Running | Exited | Closed | Lost | Error

  /** Fields of a pane that are set on registration and never read by the registry. */
  datatype Details = Details(
    ownership: string, task: string, agent: string, parent: PaneId, role: string, command: seq<string>, cwd: string)

  datatype Pane = Pane(
    id: PaneId,
    generation: nat,
    session: SessionId,
    tab: TabId,
    zellij: ZellijId,
    zellijTab: Option<int>,
    tabName: string,
    details: Details,
    status: Status,
    message: string,
    lastOutput: string,
    lastInstruction: string,
    createdAt: int,
    claimed: bool)

  datatype Tab = Tab(id: TabId, name: string, panes: map<PaneId, Pane>, createdAt: int)

  datatype Session = Session(id: SessionId, tabs: map<TabId, Tab>, createdAt: int)

  datatype Location = Location(session: SessionId, tab: TabId)

  datatype Registry = Registry(
    sessions: map<SessionId, Session>,
    locations: map<PaneId, Location>,
    latest: map<ZellijId, PaneId>,
    nextGeneration: nat)

  const EMPTY := Registry(map[], map[], map[], 0)

  datatype Request = Request(
    id: PaneId, session: SessionId, tab: TabId, zellij: ZellijId, zellijTab: Option<int>, tabName: string,
    details: Details, status: Option<Status>)

  predicate IsTerminal(s: Status) {
    s == Closed || s == Exited || s == Lost
  }

  // ---------- The tree ----------

  predicate HasTab(r: Registry, s: SessionId, t: TabId) {
    s in r.sessions && t in r.sessions[s].tabs
  }

  predicate InTree(r: Registry, s: SessionId, t: TabId, p: PaneId) {
    HasTab(r, s, t) && p in r.sessions[s].tabs[t].panes
  }

  function PaneAt(r: Registry, s: SessionId, t: TabId, p: PaneId): Pane
    requires InTree(r, s, t, p)
  {
    r.sessions[s].tabs[t].panes[p]
  }

  function EnsureSession(r: Registry, s: SessionId, now: int): Registry {
    if s in r.sessions then r else r.(sessions := r.sessions[s := Session(s, map[], now)])
  }

  function SetTab(r: Registry, s: SessionId, t: TabId, tab: Tab): Registry
    requires s in r.sessions
  {
    r.(sessions := r.sessions[s := r.sessions[s].(tabs := r.sessions[s].tabs[t := tab])])
  }

  /** A tab that has no name takes one over from a later request. */
  function EnsureTab(r: Registry, s: SessionId, t: TabId, name: string, now: int): Registry
    requires s in r.sessions
  {
    if t !in r.sessions[s].tabs then SetTab(r, s, t, Tab(t, name, map[], now))
    else
      var tab := r.sessions[s].tabs[t];
      SetTab(r, s, t, if tab.name == "" && name != "" then tab.(name := name) else tab)
  }

  function SetPane(r: Registry, at: Location, id: PaneId, pane: Pane): Registry
    requires HasTab(r, at.session, at.tab)
  {
    var tab := r.sessions[at.session].tabs[at.tab];
    SetTab(r, at.session, at.tab, tab.(panes := tab.panes[id := pane]))
  }

  function DeletePane(r: Registry, at: Location, id: PaneId): Registry
    requires HasTab(r, at.session, at.tab)
  {
    var tab := r.sessions[at.session].tabs[at.tab];
    SetTab(r, at.session, at.tab, tab.(panes := tab.panes - {id}))
  }

  /** A pane is found through the location index alone. */
  function Resolve(r: Registry, id: PaneId): Option<Pane> {
    if id in r.locations && InTree(r, r.locations[id].session, r.locations[id].tab, id)
    then Some(PaneAt(r, r.locations[id].session, r.locations[id].tab, id))
    else None
  }

  function ResolveLatest(r: Registry, z: ZellijId): Option<Pane> {
    if z in r.latest then Resolve(r, r.latest[z]) else None
  }

  // ---------- What an operation saves ----------

  datatype Change =
    | PutSession(id: SessionId, createdAt: int)
    | PutTab(key: string, parent: SessionId, id: TabId, name: string, createdAt: int)
    | PutPane(id: PaneId, parent: string, pane: Pane)
    | DropPane(id: PaneId)
    | PutGeneration(generation: nat)

  /** The key of a tab row. The session's length keeps apart all pairs of names. */
  function TabStorageId(s: SessionId, t: TabId): string {
    Decimal(|s|) + ":" + s + t
  }

  /** Screen output and the notification claim are not stored. */
  function Stored(pane: Pane): Pane {
    pane.(lastOutput := "", claimed := false)
  }

  /** The four changes of one save, in their order. */
  function Saves(r: Registry, at: Location, pane: Pane, deleted: bool): seq<Change>
    requires HasTab(r, at.session, at.tab)
  {
    var session := r.sessions[at.session];
    var tab := session.tabs[at.tab];
    [PutSession(session.id, session.createdAt),
     PutTab(TabStorageId(session.id, tab.id), session.id, tab.id, tab.name, tab.createdAt),
     if deleted then DropPane(pane.id) else PutPane(pane.id, TabStorageId(session.id, tab.id), Stored(pane)),
     PutGeneration(r.nextGeneration)]
  }

  // ---------- Operations ----------

  /** `flag` says that an update was applied, or that a close notification was claimed. */
  datatype Outcome =
    | Done(pane: Pane, flag: bool)
    | InvalidRequest
    | AlreadyExists
    | ZellijTaken
    | NotFound
    | Stale

  datatype Result = Result(registry: Registry, outcome: Outcome, saves: seq<Change>)

  function Refuse(r: Registry, outcome: Outcome): Result {
    Result(r, outcome, [])
  }

  predicate IsValid(q: Request) {
    q.id != "" && (q.zellijTab.Some? ==> q.zellijTab.value >= 0)
  }

  function WithDefaults(q: Request): Request
    requires IsValid(q)
  {
    q.(status := if q.status.None? then Some(Starting) else q.status,
       session := if q.session == "" then "default" else q.session,
       tab :=
         if q.tab != "" then q.tab
         else if q.zellijTab.Some? then Decimal(q.zellijTab.value)
         else if q.tabName != "" then q.tabName
         else "default")
  }

  /** A live pane of the session has this Zellij pane ID. */
  ghost predicate IsHeld(r: Registry, s: SessionId, z: ZellijId) {
    exists t, p :: InTree(r, s, t, p) && PaneAt(r, s, t, p).zellij == z && !IsTerminal(PaneAt(r, s, t, p).status)
  }

  function NewPane(q: Request, generation: nat, now: int): Pane
    requires IsValid(q)
  {
    var d := WithDefaults(q);
    Pane(d.id, generation, d.session, d.tab, d.zellij, d.zellijTab, d.tabName, d.details, d.status.value,
         "", "", "", now, false)
  }

  /** The session and the tab of a pane, made if they do not exist. */
  function MakeRoom(r: Registry, pane: Pane, now: int): Registry {
    EnsureTab(EnsureSession(r, pane.session, now), pane.session, pane.tab, pane.tabName, now)
  }

  /** The pane becomes part of the tree and of both indexes. */
  function Admit(r: Registry, pane: Pane): Registry
    requires HasTab(r, pane.session, pane.tab)
  {
    SetPane(r, Location(pane.session, pane.tab), pane.id, pane).(
      nextGeneration := pane.generation,
      locations := r.locations[pane.id := Location(pane.session, pane.tab)],
      latest := if pane.zellij != "" then r.latest[pane.zellij := pane.id] else r.latest)
  }

  ghost function Register(r: Registry, q: Request, now: int): Result {
    if !IsValid(q) then Refuse(r, InvalidRequest)
    else
      var pane := NewPane(q, r.nextGeneration + 1, now);
      if pane.id in r.locations then Refuse(r, AlreadyExists)
      else if pane.zellij != "" && IsHeld(r, pane.session, pane.zellij) then Refuse(r, ZellijTaken)
      else
        var r1 := Admit(MakeRoom(r, pane, now), pane);
        Result(r1, Done(pane, true), Saves(r1, Location(pane.session, pane.tab), pane, false))
  }

  /** Generation 0 stands for any generation. */
  predicate Names(pane: Pane, generation: nat) {
    generation == 0 || pane.generation == generation
  }

  function Replace(r: Registry, id: PaneId, pane: Pane, flag: bool): Result
    requires Resolve(r, id).Some?
  {
    var r1 := SetPane(r, r.locations[id], id, pane);
    Result(r1, Done(pane, flag), Saves(r1, r.locations[id], pane, false))
  }

  /** Writes any status, even over a terminal one. */
  function UpdateStatus(r: Registry, id: PaneId, generation: nat, status: Status, message: string): Result {
    match Resolve(r, id)
    case None => Refuse(r, NotFound)
    case Some(pane) =>
      if !Names(pane, generation) then Refuse(r, Stale)
      else Replace(r, id, pane.(status := status, message := message), true)
  }

  function UpdateActiveStatus(r: Registry, id: PaneId, generation: nat, status: Status, message: string): Result {
    match Resolve(r, id)
    case None => Refuse(r, NotFound)
    case Some(pane) =>
      if !Names(pane, generation) then Refuse(r, Stale)
      else if IsTerminal(pane.status) then Refuse(r, Done(pane, false))
      else Replace(r, id, pane.(status := status, message := message), true)
  }

  function ClaimClosure(r: Registry, id: PaneId, generation: nat, status: Status, message: string): Result {
    match Resolve(r, id)
    case None => Refuse(r, NotFound)
    case Some(pane) =>
      if !Names(pane, generation) then Refuse(r, Stale)
      else
        var closed := if IsTerminal(pane.status) then pane else pane.(status := status, message := message);
        Replace(r, id, closed.(claimed := true), !pane.claimed)
  }

  function RecordInstruction(r: Registry, id: PaneId, generation: nat, text: string): Result {
    match Resolve(r, id)
    case None => Refuse(r, NotFound)
    case Some(pane) =>
      if pane.generation != generation then Refuse(r, Stale)
      else Replace(r, id, pane.(lastInstruction := text), true)
  }

  /** Output is never saved. `activeOnly`: a terminal pane keeps its last output. */
  function UpdateOutput(r: Registry, id: PaneId, generation: nat, output: string, activeOnly: bool): Result {
    match Resolve(r, id)
    case None => Refuse(r, NotFound)
    case Some(pane) =>
      if !Names(pane, generation) then Refuse(r, Stale)
      else if activeOnly && IsTerminal(pane.status) then Refuse(r, Done(pane, false))
      else Replace(r, id, pane.(lastOutput := output), true).(saves := [])
  }

  /** `claiming`: the removal also takes the close notification if nobody has it yet. */
  function Remove(r: Registry, id: PaneId, generation: nat, claiming: bool): Result {
    match Resolve(r, id)
    case None => Refuse(r, NotFound)
    case Some(pane) =>
      if !Names(pane, generation) then Refuse(r, Stale)
      else
        var at := r.locations[id];
        var r1 := DeletePane(r, at, pane.id).(
          locations := r.locations - {pane.id},
          latest :=
            if pane.zellij != "" && pane.zellij in r.latest && r.latest[pane.zellij] == pane.id
            then r.latest - {pane.zellij} else r.latest);
        Result(r1, Done(pane.(claimed := pane.claimed || claiming), claiming && !pane.claimed), Saves(r1, at, pane, true))
  }
}
