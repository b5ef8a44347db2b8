/** The machine relay: one durable object shared by the agent processes of a machine and
    the browsers watching them. Each handler is one atomic step; a socket stops being open
    (its transport drops, or a reconnecting agent replaces it) before its close is handled. */
module Relay {
  import opened Bytes

  datatype Role = Agent | Browser
  datatype Phase = Open | Closing | Gone

  datatype MachineInfo = MachineInfo(hostname: string, cwd: string, grokVersion: string, name: string)

  datatype InstanceInfo = InstanceInfo(
    instanceId: string, pid: int, cwd: string, hostname: string, name: string, grokVersion: string,
    activeSessionId: Option<string>, turnRunning: bool, sessions: seq<string>)

  /** The stored catalog in insertion order, one entry per instance id. */
  type Catalog = seq<InstanceInfo>

  datatype Frame =
    | Subscribe
    | Unsubscribe
    | MachineOnline
    | MachineOffline
    | CatalogFrame(instances: Catalog, online: bool)
    | InstanceOffline(instanceId: string)
    | Forwarded(kind: string, body: string)      // a browser message passed on verbatim
    | Live(instanceId: string, body: string)     // an agent message shown to browsers

  /** `tag` is the id in the connection header (fixed), `instanceId` and `watch` are the
      mutable attachment ("" when undefined), `sent` is every frame sent to the socket. */
  datatype Socket = Socket(
    role: Role, phase: Phase, tag: string, instanceId: string, watch: string, sent: seq<Frame>)

  datatype State = State(sockets: seq<Socket>, catalog: Catalog)

  const INITIAL := State([], [])

  predicate OpenAgent(k: Socket) { k.role.Agent? && k.phase.Open? }
  predicate OpenBrowser(k: Socket) { k.role.Browser? && k.phase.Open? }
  predicate LiveBrowser(k: Socket) { k.role.Browser? && !k.phase.Gone? }

  function Deliver(k: Socket, f: Frame): Socket { k.(sent := k.sent + [f]) }

  // ---------------------------------------------------------------- catalog

  predicate HasKey(c: Catalog, id: string) { exists k :: 0 <= k < |c| && c[k].instanceId == id }

  predicate UniqueKeys(c: Catalog) {
    forall j, k :: 0 <= j < k < |c| ==> c[j].instanceId != c[k].instanceId
  }

  function Find(c: Catalog, id: string): (r: Option<InstanceInfo>)
    ensures r.Some? <==> HasKey(c, id)
    ensures r.Some? ==> r.value in c && r.value.instanceId == id
  {
    if c == [] then None
    else if c[0].instanceId == id then Some(c[0])
    else
      var r := Find(c[1..], id);
      assert HasKey(c[1..], id) ==> HasKey(c, id) by {
        if HasKey(c[1..], id) {
          var k :| 0 <= k < |c[1..]| && c[1..][k].instanceId == id;
          assert c[k + 1].instanceId == id;
        }
      }
      assert HasKey(c, id) ==> HasKey(c[1..], id) by {
        if HasKey(c, id) {
          var k :| 0 <= k < |c| && c[k].instanceId == id;
          assert c[1..][k - 1].instanceId == id;
        }
      }
      r
  }

  /** Overwrite in place, or append. */
  function Put(c: Catalog, info: InstanceInfo): (r: Catalog)
    ensures forall x :: x in r ==> x == info || x in c
    ensures forall x :: x in c ==> x in r || x.instanceId == info.instanceId
    ensures info in r
  {
    if c == [] then [info]
    else if c[0].instanceId == info.instanceId then [info] + c[1..]
    else [c[0]] + Put(c[1..], info)
  }

  function Delete(c: Catalog, id: string): (r: Catalog)
    ensures forall x :: x in r <==> x in c && x.instanceId != id
  {
    if c == [] then []
    else (if c[0].instanceId == id then [] else [c[0]]) + Delete(c[1..], id)
  }

  // ---------------------------------------------------------------- socket queries

  predicate AnyAgentOpen(ss: seq<Socket>) { exists i :: 0 <= i < |ss| && OpenAgent(ss[i]) }

  /** Some open browser watches the instance. */
  predicate Watched(ss: seq<Socket>, id: string) {
    exists i :: 0 <= i < |ss| && OpenBrowser(ss[i]) && ss[i].watch == id
  }

  /** Some browser whose close has not been handled watches the instance. */
  predicate WatchedLive(ss: seq<Socket>, id: string) {
    exists i :: 0 <= i < |ss| && LiveBrowser(ss[i]) && ss[i].watch == id
  }

  predicate OtherOpen(ss: seq<Socket>, i: nat, id: string) {
    exists j :: 0 <= j < |ss| && j != i && OpenAgent(ss[j]) && ss[j].tag == id
  }

  /** The most recently accepted open agent socket of the instance. */
  function AgentByInstance(ss: seq<Socket>, id: string): (r: Option<nat>)
    ensures r.Some? ==> r.value < |ss| && OpenAgent(ss[r.value]) && ss[r.value].tag == id
    ensures forall i :: 0 <= i < |ss| && OpenAgent(ss[i]) && ss[i].tag == id ==> r.Some? && i <= r.value
  {
    if ss == [] then None
    else
      var n := |ss| - 1;
      if OpenAgent(ss[n]) && ss[n].tag == id then Some(n)
      else
        assert forall i :: 0 <= i < n ==> ss[..n][i] == ss[i];
        AgentByInstance(ss[..n], id)
  }

  // ---------------------------------------------------------------- sending

  function Broadcast(ss: seq<Socket>, f: Frame): (r: seq<Socket>)
    ensures |r| == |ss|
    ensures forall i :: 0 <= i < |ss| ==> r[i] == if OpenBrowser(ss[i]) then Deliver(ss[i], f) else ss[i]
  {
    seq(|ss|, i requires 0 <= i < |ss| => if OpenBrowser(ss[i]) then Deliver(ss[i], f) else ss[i])
  }

  function BroadcastCatalog(s: State): State {
    s.(sockets := Broadcast(s.sockets, CatalogFrame(s.catalog, AnyAgentOpen(s.sockets))))
  }

  function SubFrame(ss: seq<Socket>, id: string): Frame {
    if Watched(ss, id) then Subscribe else Unsubscribe
  }

  predicate Identified(k: Socket) { OpenAgent(k) && k.instanceId != "" }

  function Recompute(ss: seq<Socket>): (r: seq<Socket>)
    ensures |r| == |ss|
    ensures forall i :: 0 <= i < |ss| ==>
      r[i] == if Identified(ss[i]) then Deliver(ss[i], SubFrame(ss, ss[i].instanceId)) else ss[i]
  {
    seq(|ss|, i requires 0 <= i < |ss| =>
      if Identified(ss[i]) then Deliver(ss[i], SubFrame(ss, ss[i].instanceId)) else ss[i])
  }

  function CloseTagged(ss: seq<Socket>, id: string): (r: seq<Socket>)
    ensures |r| == |ss|
    ensures forall i :: 0 <= i < |ss| ==>
      r[i] == if OpenAgent(ss[i]) && ss[i].tag == id then ss[i].(phase := Closing) else ss[i]
  {
    seq(|ss|, i requires 0 <= i < |ss| =>
      if OpenAgent(ss[i]) && ss[i].tag == id then ss[i].(phase := Closing) else ss[i])
  }

  /** Send to the instance's agent, else tell the asking browser that it is offline. */
  function SendInstance(s: State, i: nat, id: string, f: Frame): State
    requires i < |s.sockets|
  {
    var target := AgentByInstance(s.sockets, id);
    var (to, frame) := if target.Some? then (target.value, f) else (i, InstanceOffline(id));
    s.(sockets := s.sockets[to := Deliver(s.sockets[to], frame)])
  }

  // ---------------------------------------------------------------- handlers

  function ConnectAgent(s: State, header: string): State {
    var kept := if header == "" then s.sockets else CloseTagged(s.sockets, header);
    var accepted := kept + [Socket(Agent, Open, header, header, "", [])];
    BroadcastCatalog(s.(sockets := Broadcast(accepted, MachineOnline)))
  }

  function ConnectBrowser(s: State): State {
    var online := AnyAgentOpen(s.sockets);
    var greeting := [if online then MachineOnline else MachineOffline, CatalogFrame(s.catalog, online)];
    s.(sockets := s.sockets + [Socket(Browser, Open, "", "", "", greeting)])
  }

  /** The transport drops: the socket is no longer open, its close event is still to come. */
  function Drop(s: State, i: nat): State
    requires i < |s.sockets|
  {
    s.(sockets := s.sockets[i := s.sockets[i].(phase := Closing)])
  }

  function Close(s: State, i: nat): State
    requires i < |s.sockets|
  {
    var k := s.sockets[i];
    var ss := s.sockets[i := k.(phase := Gone)];
    if k.role.Browser? then s.(sockets := Recompute(ss))
    else
      var s1 := if k.instanceId != "" && !OtherOpen(ss, i, k.instanceId)
        then State(Broadcast(ss, InstanceOffline(k.instanceId)), Delete(s.catalog, k.instanceId))
        else State(ss, s.catalog);
      var s2 := BroadcastCatalog(s1);
      if AnyAgentOpen(ss) then s2 else s2.(sockets := Broadcast(s2.sockets, MachineOffline))
  }

  function MessageId(k: Socket, msgId: string): string { if msgId != "" then msgId else k.instanceId }

  function Hello(s: State, i: nat, msgId: string, pid: int, machine: Option<MachineInfo>): State
    requires i < |s.sockets|
  {
    var id := MessageId(s.sockets[i], msgId);
    var ss := if id == "" then s.sockets else s.sockets[i := s.sockets[i].(instanceId := id)];
    if machine.None? then s.(sockets := ss)
    else
      var m := machine.value;
      var prev := Find(s.catalog, id);
      var name := if m.name != "" then m.name else m.hostname;
      var info := if prev.Some?
        then InstanceInfo(id, pid, m.cwd, m.hostname, name, m.grokVersion,
                          prev.value.activeSessionId, prev.value.turnRunning, prev.value.sessions)
        else InstanceInfo(id, pid, m.cwd, m.hostname, name, m.grokVersion, None, false, []);
      BroadcastCatalog(State(ss, Put(s.catalog, info)))
  }

  function SessionCatalog(s: State, i: nat, msgId: string, cwd: Option<string>,
                          active: Option<string>, running: bool, sessions: Option<seq<string>>): State
    requires i < |s.sockets|
  {
    var own := MessageId(s.sockets[i], msgId);
    var id := if own != "" then own else if s.catalog != [] then s.catalog[0].instanceId else "";
    if id == "" then s
    else
      var found := Find(s.catalog, id);
      var prev := if found.Some? then found.value else InstanceInfo(id, 0, "", "", "", "", None, false, []);
      var info := prev.(instanceId := id,
        cwd := if cwd.Some? then cwd.value else prev.cwd,
        activeSessionId := if active.Some? then active else prev.activeSessionId,
        turnRunning := running,
        sessions := if sessions.Some? then sessions.value else prev.sessions);
      BroadcastCatalog(s.(catalog := Put(s.catalog, info)))
  }

  function Watch(s: State, i: nat, id: string): State
    requires i < |s.sockets|
  {
    var ss := s.sockets[i := s.sockets[i].(watch := id)];
    var s1 := s.(sockets := Recompute(ss));
    if id == "" then s1 else SendInstance(s1, i, id, Subscribe)
  }

  /** The instance whose sessions (or active session) include the named one, first match. */
  function InstanceOfSession(c: Catalog, session: string): string {
    if c == [] then ""
    else if session in c[0].sessions || c[0].activeSessionId == Some(session) then c[0].instanceId
    else InstanceOfSession(c[1..], session)
  }

  /** Where a browser message goes: its watch, its own id, its session's owner, the only instance. */
  function RouteTarget(s: State, i: nat, msgId: string, session: string): string
    requires i < |s.sockets|
  {
    var direct := if s.sockets[i].watch != "" then s.sockets[i].watch else msgId;
    var bySession := if direct == "" && session != "" then InstanceOfSession(s.catalog, session) else direct;
    if bySession == "" && |s.catalog| == 1 then s.catalog[0].instanceId else bySession
  }

  function BrowserMessage(s: State, i: nat, kind: string, msgId: string, session: string, body: string): State
    requires i < |s.sockets|
  {
    var id := RouteTarget(s, i, msgId, session);
    if id == "" then s.(sockets := s.sockets[i := Deliver(s.sockets[i], MachineOffline)])
    else SendInstance(s, i, id, Forwarded(kind, body))
  }

  /** Transcript frames reach browsers only while somebody watches the instance. */
  function AgentLive(s: State, i: nat, msgId: string, body: string): State
    requires i < |s.sockets|
  {
    var id := MessageId(s.sockets[i], msgId);
    if id == "" || !Watched(s.sockets, id) then s
    else s.(sockets := Broadcast(s.sockets, Live(id, body)))
  }

  /** Command lists, models, usage, pairing notices and errors reach browsers unconditionally. */
  function AgentNotice(s: State, i: nat, msgId: string, body: string): State
    requires i < |s.sockets|
  {
    s.(sockets := Broadcast(s.sockets, Live(MessageId(s.sockets[i], msgId), body)))
  }

  datatype Event =
    | EConnectAgent(header: string)
    | EConnectBrowser
    | EDrop(i: nat)
    | EClose(i: nat)
    | EHello(i: nat, msgId: string, pid: int, machine: Option<MachineInfo>)
    | ESessionCatalog(i: nat, msgId: string, cwd: Option<string>, active: Option<string>,
                      running: bool, sessions: Option<seq<string>>)
    | ELive(i: nat, msgId: string, body: string)
    | ENotice(i: nat, msgId: string, body: string)
    | EWatch(i: nat, id: string)
    | EMessage(i: nat, kind: string, msgId: string, session: string, body: string)

  predicate From(s: State, i: nat, role: Role) {
    i < |s.sockets| && s.sockets[i].role == role && !s.sockets[i].phase.Gone?
  }

  predicate Enabled(s: State, e: Event) {
    match e
    case EConnectAgent(_) => true
    case EConnectBrowser => true
    case EDrop(i) => i < |s.sockets| && s.sockets[i].phase.Open?
    case EClose(i) => i < |s.sockets| && !s.sockets[i].phase.Gone?
    case EHello(i, _, _, _) => From(s, i, Agent)
    case ESessionCatalog(i, _, _, _, _, _) => From(s, i, Agent)
    case ELive(i, _, _) => From(s, i, Agent)
    case ENotice(i, _, _) => From(s, i, Agent)
    case EWatch(i, _) => From(s, i, Browser)
    case EMessage(i, kind, _, _, _) => From(s, i, Browser) && kind != "watch" && kind != "paired"
  }

  function Handle(s: State, e: Event): State
    requires Enabled(s, e)
  {
    match e
    case EConnectAgent(header) => ConnectAgent(s, header)
    case EConnectBrowser => ConnectBrowser(s)
    case EDrop(i) => Drop(s, i)
    case EClose(i) => Close(s, i)
    case EHello(i, msgId, pid, machine) => Hello(s, i, msgId, pid, machine)
    case ESessionCatalog(i, msgId, cwd, active, running, sessions) =>
      SessionCatalog(s, i, msgId, cwd, active, running, sessions)
    case ELive(i, msgId, body) => AgentLive(s, i, msgId, body)
    case ENotice(i, msgId, body) => AgentNotice(s, i, msgId, body)
    case EWatch(i, id) => Watch(s, i, id)
    case EMessage(i, kind, msgId, session, body) => BrowserMessage(s, i, kind, msgId, session, body)
  }

  /** What the clients promise: an agent uses one nonempty id in its header and messages,
      and a browser does not forge the relay's own subscription frames. */
  predicate Disciplined(s: State, e: Event)
    requires Enabled(s, e)
  {
    match e
    case EConnectAgent(header) => header != ""
    case EHello(i, msgId, _, _) => msgId == "" || msgId == s.sockets[i].tag
    case ESessionCatalog(i, msgId, _, _, _, _) => msgId == "" || msgId == s.sockets[i].tag
    case EMessage(_, kind, _, _, _) => kind != "subscribe" && kind != "unsubscribe"
    case _ => true
  }

  // ---------------------------------------------------------------- invariants

  /** The subscription verdict an agent reads from one frame; a forwarded browser message
      with a subscription type is the same JSON on the wire. */
  function Verdict(f: Frame): Option<bool> {
    match f
    case Subscribe => Some(true)
    case Unsubscribe => Some(false)
    case Forwarded(kind, _) => if kind == "subscribe" then Some(true) else if kind == "unsubscribe" then Some(false) else None
    case _ => None
  }

  function LastSub(sent: seq<Frame>): Option<bool> {
    if sent == [] then None
    else
      var n := |sent| - 1;
      if Verdict(sent[n]).Some? then Verdict(sent[n]) else LastSub(sent[..n])
  }

  function LastCatalog(sent: seq<Frame>): Option<Catalog> {
    if sent == [] then None
    else
      var n := |sent| - 1;
      if sent[n].CatalogFrame? then Some(sent[n].instances) else LastCatalog(sent[..n])
  }

  lemma LastAppend(sent: seq<Frame>, f: Frame)
    ensures LastSub(sent + [f]) == if Verdict(f).Some? then Verdict(f) else LastSub(sent)
    ensures LastCatalog(sent + [f]) == if f.CatalogFrame? then Some(f.instances) else LastCatalog(sent)
  {
    assert (sent + [f])[..|sent|] == sent;
  }

  predicate AgentsInv(ss: seq<Socket>) {
    && (forall i :: 0 <= i < |ss| && ss[i].role.Agent? ==> ss[i].tag != "" && ss[i].instanceId == ss[i].tag)
    && (forall i, j :: 0 <= i < j < |ss| && OpenAgent(ss[i]) && OpenAgent(ss[j]) ==> ss[i].tag != ss[j].tag)
  }

  predicate SubscriptionOk(ss: seq<Socket>, k: Socket) {
    var last := LastSub(k.sent);
    last.Some? ==>
      && (Watched(ss, k.instanceId) ==> last.value)
      && (last.value ==> WatchedLive(ss, k.instanceId))
  }

  predicate SubscriptionInv(ss: seq<Socket>) {
    forall i :: 0 <= i < |ss| && OpenAgent(ss[i]) ==> SubscriptionOk(ss, ss[i])
  }

  /** Some agent socket whose close has not been handled carries the id. */
  predicate Owned(ss: seq<Socket>, id: string) {
    exists i :: 0 <= i < |ss| && ss[i].role.Agent? && !ss[i].phase.Gone? && ss[i].tag == id
  }

  predicate CatalogInv(s: State) {
    UniqueKeys(s.catalog) && forall x :: x in s.catalog ==> Owned(s.sockets, x.instanceId)
  }

  /** Every open browser's latest catalog frame shows the stored catalog. */
  predicate InSync(s: State) {
    forall i :: 0 <= i < |s.sockets| && OpenBrowser(s.sockets[i]) ==>
      LastCatalog(s.sockets[i].sent) == Some(s.catalog)
  }

  predicate Inv(s: State) {
    AgentsInv(s.sockets) && SubscriptionInv(s.sockets) && CatalogInv(s) && InSync(s)
  }

  // ---------------------------------------------------------------- catalog updates keep keys unique

  lemma {:induction false} PutUnique(c: Catalog, info: InstanceInfo)
    requires UniqueKeys(c)
    ensures UniqueKeys(Put(c, info))
  {
    if c != [] && c[0].instanceId != info.instanceId {
      var rest := Put(c[1..], info);
      PutUnique(c[1..], info);
      forall k | 0 <= k < |rest| ensures rest[k].instanceId != c[0].instanceId {
        assert rest[k] in rest;
      }
    }
  }

  lemma {:induction false} DeleteUnique(c: Catalog, id: string)
    requires UniqueKeys(c)
    ensures UniqueKeys(Delete(c, id))
  {
    if c != [] {
      var rest := Delete(c[1..], id);
      DeleteUnique(c[1..], id);
      forall k | 0 <= k < |rest| ensures rest[k].instanceId != c[0].instanceId {
        assert rest[k] in c[1..];
      }
    }
  }

  // ---------------------------------------------------------------- frames to browsers change nothing else

  /** Same sockets, and only browsers received frames. */
  predicate OnlyBrowsersTold(ss: seq<Socket>, ss': seq<Socket>) {
    && |ss'| == |ss|
    && forall i :: 0 <= i < |ss| ==>
         ss'[i] == ss[i].(sent := ss'[i].sent) && (ss[i].role.Agent? ==> ss'[i] == ss[i])
  }

  /** Watching and owning carry over to any later list in which those sockets still count. */
  lemma Carry(ss: seq<Socket>, ss': seq<Socket>)
    requires |ss| <= |ss'|
    ensures (forall i :: 0 <= i < |ss| && OpenBrowser(ss[i]) ==> OpenBrowser(ss'[i]) && ss'[i].watch == ss[i].watch)
      ==> forall id :: Watched(ss, id) ==> Watched(ss', id)
    ensures (forall i :: 0 <= i < |ss| && LiveBrowser(ss[i]) ==> LiveBrowser(ss'[i]) && ss'[i].watch == ss[i].watch)
      ==> forall id :: WatchedLive(ss, id) ==> WatchedLive(ss', id)
    ensures (forall i :: 0 <= i < |ss| && ss[i].role.Agent? && !ss[i].phase.Gone?
               ==> ss'[i].role.Agent? && !ss'[i].phase.Gone? && ss'[i].tag == ss[i].tag)
      ==> forall id :: Owned(ss, id) ==> Owned(ss', id)
  {
  }

  lemma SameWatchers(ss: seq<Socket>, ss': seq<Socket>)
    requires |ss'| == |ss| && forall i :: 0 <= i < |ss| ==> ss'[i] == ss[i].(sent := ss'[i].sent)
    ensures forall id :: Watched(ss', id) == Watched(ss, id) && WatchedLive(ss', id) == WatchedLive(ss, id)
    ensures forall id :: Owned(ss', id) == Owned(ss, id)
  {
    Carry(ss, ss');
    Carry(ss', ss);
  }

  lemma ToldFrame(ss: seq<Socket>, ss': seq<Socket>)
    requires OnlyBrowsersTold(ss, ss')
    ensures AgentsInv(ss) ==> AgentsInv(ss')
    ensures AgentsInv(ss) && SubscriptionInv(ss) ==> SubscriptionInv(ss')
    ensures forall id :: Owned(ss, id) ==> Owned(ss', id)
  {
    SameWatchers(ss, ss');
  }

  /** A catalog broadcast puts every open browser in sync and touches nothing else. */
  lemma CatalogBroadcast(s: State)
    requires AgentsInv(s.sockets) && SubscriptionInv(s.sockets) && CatalogInv(s)
    ensures Inv(BroadcastCatalog(s))
  {
    var s' := BroadcastCatalog(s);
    ToldFrame(s.sockets, s'.sockets);
    forall i | 0 <= i < |s'.sockets| && OpenBrowser(s'.sockets[i])
      ensures LastCatalog(s'.sockets[i].sent) == Some(s'.catalog)
    {
      LastAppend(s.sockets[i].sent, CatalogFrame(s.catalog, AnyAgentOpen(s.sockets)));
    }
  }

  lemma PlainBroadcast(s: State, f: Frame)
    requires Inv(s) && !f.CatalogFrame?
    ensures Inv(s.(sockets := Broadcast(s.sockets, f)))
  {
    var ss' := Broadcast(s.sockets, f);
    ToldFrame(s.sockets, ss');
    forall i | 0 <= i < |ss'| && OpenBrowser(ss'[i])
      ensures LastCatalog(ss'[i].sent) == Some(s.catalog)
    {
      LastAppend(s.sockets[i].sent, f);
    }
  }

  // ---------------------------------------------------------------- each handler keeps the invariants

  lemma CloseTaggedKeeps(s: State, header: string)
    requires Inv(s)
    ensures var kept := CloseTagged(s.sockets, header);
      && AgentsInv(kept) && SubscriptionInv(kept) && CatalogInv(State(kept, s.catalog))
      && forall i :: 0 <= i < |kept| && OpenAgent(kept[i]) ==> kept[i].tag != header
  {
    var kept := CloseTagged(s.sockets, header);
    SameBrowsers(s.sockets, kept);
    assert forall id :: Owned(s.sockets, id) ==> Owned(kept, id) by { Carry(s.sockets, kept); }
    forall i | 0 <= i < |kept| && OpenAgent(kept[i]) ensures SubscriptionOk(kept, kept[i]) {
      assert SubscriptionOk(s.sockets, s.sockets[i]);
    }
  }

  lemma AppendAgentKeeps(s: State, header: string)
    requires AgentsInv(s.sockets) && SubscriptionInv(s.sockets) && CatalogInv(s) && header != ""
    requires forall i :: 0 <= i < |s.sockets| && OpenAgent(s.sockets[i]) ==> s.sockets[i].tag != header
    ensures var ss := s.sockets + [Socket(Agent, Open, header, header, "", [])];
      AgentsInv(ss) && SubscriptionInv(ss) && CatalogInv(State(ss, s.catalog))
  {
    var was := s.sockets;
    var ss := was + [Socket(Agent, Open, header, header, "", [])];
    assert forall id :: Owned(was, id) ==> Owned(ss, id) by { Carry(was, ss); }
    forall i | 0 <= i < |ss| && OpenAgent(ss[i]) ensures SubscriptionOk(ss, ss[i]) {
      if i < |was| {
        assert SubscriptionOk(was, was[i]);
        assert WatchedLive(was, was[i].instanceId) ==> WatchedLive(ss, was[i].instanceId) by { Carry(was, ss); }
        if Watched(ss, was[i].instanceId) {
          var b :| 0 <= b < |ss| && OpenBrowser(ss[b]) && ss[b].watch == was[i].instanceId;
          assert OpenBrowser(was[b]);
        }
      }
    }
  }

  lemma ConnectAgentKeeps(s: State, header: string)
    requires Inv(s) && header != ""
    ensures Inv(ConnectAgent(s, header))
  {
    CloseTaggedKeeps(s, header);
    AppendAgentKeeps(s.(sockets := CloseTagged(s.sockets, header)), header);
    var accepted := CloseTagged(s.sockets, header) + [Socket(Agent, Open, header, header, "", [])];
    ToldFrame(accepted, Broadcast(accepted, MachineOnline));
    CatalogBroadcast(s.(sockets := Broadcast(accepted, MachineOnline)));
  }

  lemma ConnectBrowserKeeps(s: State)
    requires Inv(s)
    ensures Inv(ConnectBrowser(s))
  {
    var ss := s.sockets;
    var ss' := ConnectBrowser(s).sockets;
    Carry(ss, ss');
    assert forall id :: id != "" && Watched(ss', id) ==> Watched(ss, id);
    var n := |ss|;
    assert ss'[n].sent == [ss'[n].sent[0]] + [CatalogFrame(s.catalog, AnyAgentOpen(ss))];
  }

  lemma DropKeeps(s: State, i: nat)
    requires Inv(s) && i < |s.sockets| && s.sockets[i].phase.Open?
    ensures Inv(Drop(s, i))
  {
    var ss := s.sockets;
    var ss' := Drop(s, i).sockets;
    assert forall id :: Owned(ss, id) ==> Owned(ss', id) by { Carry(ss, ss'); }
    forall j | 0 <= j < |ss'| && OpenAgent(ss'[j]) ensures SubscriptionOk(ss', ss'[j]) {
      var id := ss[j].instanceId;
      assert ss'[j] == ss[j] && SubscriptionOk(ss, ss[j]);
      assert WatchedLive(ss, id) ==> WatchedLive(ss', id) by { Carry(ss, ss'); }
      assert Watched(ss', id) ==> Watched(ss, id) by { Carry(ss', ss); }
    }
  }

  /** After a recompute every open agent was last told exactly whether it is watched. */
  lemma RecomputeExact(ss: seq<Socket>)
    requires AgentsInv(ss)
    ensures var r := Recompute(ss);
      && AgentsInv(r)
      && (forall id :: Watched(r, id) == Watched(ss, id) && WatchedLive(r, id) == WatchedLive(ss, id))
      && (forall id :: Owned(ss, id) ==> Owned(r, id))
      && (forall i :: 0 <= i < |r| && OpenAgent(r[i]) ==> LastSub(r[i].sent) == Some(Watched(r, r[i].instanceId)))
  {
    var r := Recompute(ss);
    SameWatchers(ss, r);
    forall i | 0 <= i < |r| && OpenAgent(r[i])
      ensures LastSub(r[i].sent) == Some(Watched(r, r[i].instanceId))
    {
      LastAppend(ss[i].sent, SubFrame(ss, ss[i].instanceId));
    }
  }

  lemma RecomputeKeeps(s: State)
    requires AgentsInv(s.sockets) && CatalogInv(s) && InSync(s)
    ensures Inv(s.(sockets := Recompute(s.sockets)))
  {
    RecomputeExact(s.sockets);
    var r := Recompute(s.sockets);
    forall i | 0 <= i < |r| && OpenAgent(r[i]) ensures SubscriptionOk(r, r[i]) {
      var id := r[i].instanceId;
      if Watched(r, id) {
        var j :| 0 <= j < |r| && OpenBrowser(r[j]) && r[j].watch == id;
        assert LiveBrowser(r[j]);
      }
    }
  }

  lemma CloseBrowserKeeps(s: State, i: nat)
    requires Inv(s) && i < |s.sockets| && s.sockets[i].role.Browser?
    ensures Inv(Close(s, i))
  {
    var ss := s.sockets;
    var ss' := ss[i := ss[i].(phase := Gone)];
    assert forall id :: Owned(ss, id) ==> Owned(ss', id) by { Carry(ss, ss'); }
    RecomputeKeeps(State(ss', s.catalog));
  }

  lemma SameBrowsers(ss: seq<Socket>, ss': seq<Socket>)
    requires |ss| == |ss'|
    requires forall i :: 0 <= i < |ss| ==> ss'[i].role == ss[i].role && (ss[i].role.Browser? ==> ss'[i] == ss[i])
    ensures forall id :: Watched(ss', id) == Watched(ss, id) && WatchedLive(ss', id) == WatchedLive(ss, id)
  {
    Carry(ss, ss');
    Carry(ss', ss);
  }

  /** Marking an agent socket gone keeps everything except, possibly, its ownership of its id. */
  lemma AgentGone(s: State, i: nat)
    requires Inv(s) && i < |s.sockets| && s.sockets[i].role.Agent?
    ensures var k := s.sockets[i]; var ss := s.sockets[i := k.(phase := Gone)];
      && AgentsInv(ss) && SubscriptionInv(ss) && InSync(State(ss, s.catalog))
      && (forall id :: id != k.tag && Owned(s.sockets, id) ==> Owned(ss, id))
  {
    var k := s.sockets[i];
    var was := s.sockets;
    var ss := was[i := k.(phase := Gone)];
    SameBrowsers(was, ss);
    forall j | 0 <= j < |ss| && OpenAgent(ss[j]) ensures SubscriptionOk(ss, ss[j]) {
      assert ss[j] == was[j] && SubscriptionOk(was, was[j]);
    }
    forall id | id != k.tag && Owned(was, id) ensures Owned(ss, id) {
      var j :| 0 <= j < |was| && was[j].role.Agent? && !was[j].phase.Gone? && was[j].tag == id;
      assert ss[j] == was[j];
    }
  }

  lemma CloseAgentKeeps(s: State, i: nat)
    requires Inv(s) && i < |s.sockets| && s.sockets[i].role.Agent?
    ensures Inv(Close(s, i))
  {
    var k := s.sockets[i];
    var ss := s.sockets[i := k.(phase := Gone)];
    AgentGone(s, i);
    assert OtherOpen(ss, i, k.tag) ==> Owned(ss, k.tag);
    DeleteUnique(s.catalog, k.instanceId);
    var told := Broadcast(ss, InstanceOffline(k.instanceId));
    ToldFrame(ss, told);
    var s1 := if !OtherOpen(ss, i, k.instanceId) then State(told, Delete(s.catalog, k.instanceId)) else State(ss, s.catalog);
    CatalogBroadcast(s1);
    PlainBroadcast(BroadcastCatalog(s1), MachineOffline);
  }

  lemma PutKeeps(s: State, info: InstanceInfo)
    requires Inv(s) && Owned(s.sockets, info.instanceId)
    ensures Inv(BroadcastCatalog(s.(catalog := Put(s.catalog, info))))
  {
    PutUnique(s.catalog, info);
    CatalogBroadcast(s.(catalog := Put(s.catalog, info)));
  }

  lemma HelloKeeps(s: State, i: nat, msgId: string, pid: int, machine: Option<MachineInfo>)
    requires Inv(s) && From(s, i, Agent) && (msgId == "" || msgId == s.sockets[i].tag)
    ensures Inv(Hello(s, i, msgId, pid, machine))
  {
    var id := MessageId(s.sockets[i], msgId);
    assert s.sockets[i := s.sockets[i].(instanceId := id)] == s.sockets;
    assert Owned(s.sockets, id);
    if machine.Some? {
      var m := machine.value;
      var prev := Find(s.catalog, id);
      var name := if m.name != "" then m.name else m.hostname;
      PutKeeps(s, if prev.Some?
        then InstanceInfo(id, pid, m.cwd, m.hostname, name, m.grokVersion,
                          prev.value.activeSessionId, prev.value.turnRunning, prev.value.sessions)
        else InstanceInfo(id, pid, m.cwd, m.hostname, name, m.grokVersion, None, false, []));
    }
  }

  lemma SessionCatalogKeeps(s: State, i: nat, msgId: string, cwd: Option<string>,
                            active: Option<string>, running: bool, sessions: Option<seq<string>>)
    requires Inv(s) && From(s, i, Agent) && (msgId == "" || msgId == s.sockets[i].tag)
    ensures Inv(SessionCatalog(s, i, msgId, cwd, active, running, sessions))
  {
    var id := MessageId(s.sockets[i], msgId);
    assert Owned(s.sockets, id);
    var found := Find(s.catalog, id);
    var prev := if found.Some? then found.value else InstanceInfo(id, 0, "", "", "", "", None, false, []);
    PutKeeps(s, prev.(instanceId := id,
        cwd := if cwd.Some? then cwd.value else prev.cwd,
        activeSessionId := if active.Some? then active else prev.activeSessionId,
        turnRunning := running,
        sessions := if sessions.Some? then sessions.value else prev.sessions));
  }

  /** One more frame to one socket. */
  lemma DeliverKeeps(s: State, to: nat, f: Frame)
    requires Inv(s) && to < |s.sockets| && !f.CatalogFrame?
    requires s.sockets[to].role.Agent? && Verdict(f).Some? ==>
      Verdict(f).value && WatchedLive(s.sockets, s.sockets[to].instanceId)
    ensures Inv(s.(sockets := s.sockets[to := Deliver(s.sockets[to], f)]))
  {
    var ss := s.sockets;
    var ss' := ss[to := Deliver(ss[to], f)];
    LastAppend(ss[to].sent, f);
    SameWatchers(ss, ss');
    forall i | 0 <= i < |ss'| && OpenAgent(ss'[i]) ensures SubscriptionOk(ss', ss'[i]) {
      assert SubscriptionOk(ss, ss[i]);
    }
    forall i | 0 <= i < |ss'| && OpenBrowser(ss'[i]) ensures LastCatalog(ss'[i].sent) == Some(s.catalog) {
      assert OpenBrowser(ss[i]);
    }
  }

  lemma WatchAttached(s: State, i: nat, id: string)
    requires Inv(s) && From(s, i, Browser)
    ensures var ss := s.sockets[i := s.sockets[i].(watch := id)];
      Inv(s.(sockets := Recompute(ss))) && WatchedLive(Recompute(ss), id)
  {
    var ss := s.sockets[i := s.sockets[i].(watch := id)];
    assert forall x :: Owned(s.sockets, x) ==> Owned(ss, x) by { Carry(s.sockets, ss); }
    RecomputeKeeps(s.(sockets := ss));
    assert WatchedLive(ss, id) by { assert LiveBrowser(ss[i]) && ss[i].watch == id; }
    SameWatchers(ss, Recompute(ss));
  }

  lemma WatchKeeps(s: State, i: nat, id: string)
    requires Inv(s) && From(s, i, Browser)
    ensures Inv(Watch(s, i, id))
  {
    WatchAttached(s, i, id);
    var s1 := s.(sockets := Recompute(s.sockets[i := s.sockets[i].(watch := id)]));
    if id != "" {
      var target := AgentByInstance(s1.sockets, id);
      if target.Some? {
        DeliverKeeps(s1, target.value, Subscribe);
      } else {
        DeliverKeeps(s1, i, InstanceOffline(id));
      }
    }
  }

  lemma BrowserMessageKeeps(s: State, i: nat, kind: string, msgId: string, session: string, body: string)
    requires Inv(s) && From(s, i, Browser) && kind != "subscribe" && kind != "unsubscribe"
    ensures Inv(BrowserMessage(s, i, kind, msgId, session, body))
  {
    var id := RouteTarget(s, i, msgId, session);
    var target := AgentByInstance(s.sockets, id);
    if id == "" {
      DeliverKeeps(s, i, MachineOffline);
    } else if target.Some? {
      DeliverKeeps(s, target.value, Forwarded(kind, body));
    } else {
      DeliverKeeps(s, i, InstanceOffline(id));
    }
  }

  lemma HandlerKeeps(s: State, e: Event)
    requires Inv(s) && Enabled(s, e) && Disciplined(s, e)
    ensures Inv(Handle(s, e))
  {
    match e
    case EConnectAgent(header) => ConnectAgentKeeps(s, header);
    case EConnectBrowser => ConnectBrowserKeeps(s);
    case EDrop(i) => DropKeeps(s, i);
    case EClose(i) => if s.sockets[i].role.Agent? { CloseAgentKeeps(s, i); } else { CloseBrowserKeeps(s, i); }
    case EHello(i, msgId, pid, machine) => HelloKeeps(s, i, msgId, pid, machine);
    case ESessionCatalog(i, msgId, cwd, active, running, sessions) =>
      SessionCatalogKeeps(s, i, msgId, cwd, active, running, sessions);
    case ELive(i, msgId, body) => PlainBroadcast(s, Live(MessageId(s.sockets[i], msgId), body));
    case ENotice(i, msgId, body) => PlainBroadcast(s, Live(MessageId(s.sockets[i], msgId), body));
    case EWatch(i, id) => WatchKeeps(s, i, id);
    case EMessage(i, kind, msgId, session, body) => BrowserMessageKeeps(s, i, kind, msgId, session, body);
  }

  // ---------------------------------------------------------------- whole runs

  /** The state after a run of disciplined events, or None when one of them was not possible. */
  function Exec(events: seq<Event>): (r: Option<State>)
    ensures r.Some? ==> Inv(r.value)
  {
    if events == [] then Some(INITIAL)
    else
      var n := |events| - 1;
      var before := Exec(events[..n]);
      if before.None? || !Enabled(before.value, events[n]) || !Disciplined(before.value, events[n]) then None
      else
        HandlerKeeps(before.value, events[n]);
        Some(Handle(before.value, events[n]))
  }

  /** No browser that watches the instance has dropped without its close having been handled. */
  predicate NoDroppedWatcher(ss: seq<Socket>, id: string) {
    forall i :: 0 <= i < |ss| && ss[i].role.Browser? && ss[i].phase.Closing? ==> ss[i].watch != id
  }

  /** Each open agent that was ever sent a subscription frame was last sent `subscribe` if
      some open browser watches its instance, and only if some browser whose close is not
      yet handled does; with no dropped watcher of that instance the two coincide. */
  lemma SubscriptionsFollowWatchers(events: seq<Event>, s: State, i: nat)
    requires Exec(events) == Some(s) && i < |s.sockets| && OpenAgent(s.sockets[i])
    requires LastSub(s.sockets[i].sent).Some?
    ensures var told := LastSub(s.sockets[i].sent).value; var id := s.sockets[i].instanceId;
      && (Watched(s.sockets, id) ==> told)
      && (told ==> WatchedLive(s.sockets, id))
      && (NoDroppedWatcher(s.sockets, id) ==> (told <==> Watched(s.sockets, id)))
  {
    assert SubscriptionOk(s.sockets, s.sockets[i]);
    var id := s.sockets[i].instanceId;
    if NoDroppedWatcher(s.sockets, id) && WatchedLive(s.sockets, id) {
      var j :| 0 <= j < |s.sockets| && LiveBrowser(s.sockets[j]) && s.sockets[j].watch == id;
      assert OpenBrowser(s.sockets[j]);
    }
  }

  /** Every catalog entry belongs to an agent socket whose close is still to be handled, an
      instance has at most one entry and one open socket, and browsers show that catalog. */
  lemma CatalogIsOwnedAndShown(events: seq<Event>, s: State)
    requires Exec(events) == Some(s)
    ensures forall x :: x in s.catalog ==> Owned(s.sockets, x.instanceId)
    ensures UniqueKeys(s.catalog)
    ensures forall i, j :: 0 <= i < j < |s.sockets| && OpenAgent(s.sockets[i]) && OpenAgent(s.sockets[j])
              ==> s.sockets[i].tag != s.sockets[j].tag
    ensures forall i :: 0 <= i < |s.sockets| && OpenBrowser(s.sockets[i])
              ==> LastCatalog(s.sockets[i].sent) == Some(s.catalog)
  {
    var _ := Exec(events);
  }

  /** The late close of a replaced socket, while its replacement is open, keeps the catalog
      and tells each open browser about the catalog only. */
  lemma LateCloseIsHarmless(events: seq<Event>, s: State, i: nat, j: nat)
    requires Exec(events) == Some(s) && i < |s.sockets| && j < |s.sockets| && i != j
    requires s.sockets[i].role.Agent? && !s.sockets[i].phase.Gone?
    requires OpenAgent(s.sockets[j]) && s.sockets[j].tag == s.sockets[i].tag
    ensures Close(s, i).catalog == s.catalog
    ensures forall b :: 0 <= b < |s.sockets| && b != i ==>
      Close(s, i).sockets[b] ==
        if OpenBrowser(s.sockets[b]) then Deliver(s.sockets[b], CatalogFrame(s.catalog, true)) else s.sockets[b]
  {
    var k := s.sockets[i];
    var ss := s.sockets[i := k.(phase := Gone)];
    assert OpenAgent(ss[j]) && ss[j].tag == k.instanceId;
    assert OtherOpen(ss, i, k.instanceId) && AnyAgentOpen(ss);
  }

  /** A browser's message reaches exactly the one open agent of the instance it resolves to. */
  lemma MessageReachesOnlyItsAgent(events: seq<Event>, s: State, e: Event, i: nat)
    requires Exec(events) == Some(s) && e.EMessage? && Enabled(s, e)
    requires RouteTarget(s, e.i, e.msgId, e.session) != ""
    requires i < |s.sockets| && s.sockets[i].role.Agent?
    ensures Handle(s, e).sockets[i] ==
      if s.sockets[i].phase.Open? && s.sockets[i].tag == RouteTarget(s, e.i, e.msgId, e.session)
      then Deliver(s.sockets[i], Forwarded(e.kind, e.body)) else s.sockets[i]
  {
    var target := AgentByInstance(s.sockets, RouteTarget(s, e.i, e.msgId, e.session));
    assert AgentsInv(s.sockets);
  }

  /** Without the browsers' promise: a forwarded message keeps the subscription invariant
      exactly when it reaches no agent, is no subscription frame, or says what is true. */
  lemma ForwardingKeepsSubscriptionsIff(s: State, e: Event)
    requires Inv(s) && e.EMessage? && Enabled(s, e)
    ensures SubscriptionInv(Handle(s, e).sockets) <==>
      var id := RouteTarget(s, e.i, e.msgId, e.session);
      var v := Verdict(Forwarded(e.kind, e.body));
      id == "" || AgentByInstance(s.sockets, id).None? || v.None? ||
        (if v.value then WatchedLive(s.sockets, id) else !Watched(s.sockets, id))
  {
    var ss := s.sockets;
    var ss' := Handle(s, e).sockets;
    var id := RouteTarget(s, e.i, e.msgId, e.session);
    var target := AgentByInstance(ss, id);
    SameWatchers(ss, ss');
    if id != "" && target.Some? {
      LastAppend(ss[target.value].sent, Forwarded(e.kind, e.body));
      assert SubscriptionOk(ss', ss'[target.value]) <==> SubscriptionOk(ss, ss'[target.value]);
    }
  }

  /** A browser that sends `unsubscribe` silences an agent that it watches. */
  lemma ForgedUnsubscribe() returns (events: seq<Event>, s: State, s': State)
    ensures Exec(events) == Some(s) && |s.sockets| == 2
    ensures s' == BrowserMessage(s, 1, "unsubscribe", "", "", "{}")
    ensures |s'.sockets| == 2 && OpenAgent(s'.sockets[0]) && LastSub(s'.sockets[0].sent) == Some(false)
    ensures OpenBrowser(s'.sockets[1]) && s'.sockets[1].watch == s'.sockets[0].instanceId
  {
    events, s := WatchedAgent();
    var forged := Forwarded("unsubscribe", "{}");
    LastAppend(s.sockets[0].sent, forged);
    assert RouteTarget(s, 1, "", "") == "a";
    s' := SendInstance(s, 1, "a", forged);
    assert AgentByInstance(s.sockets, "a") == Some(0);
  }

  /** Agent "a" connects, then a browser that watches it. */
  lemma WatchedAgent() returns (events: seq<Event>, s: State)
    ensures Exec(events) == Some(s) && |s.sockets| == 2
    ensures OpenAgent(s.sockets[0]) && s.sockets[0].tag == s.sockets[0].instanceId == "a"
    ensures OpenBrowser(s.sockets[1]) && s.sockets[1].watch == "a" && Watched(s.sockets, "a")
    ensures LastSub(s.sockets[0].sent) == Some(true)
  {
    events, s := RunOne([], INITIAL, EConnectAgent("a"));
    assert OpenAgent(s.sockets[0]) && s.sockets[0].tag == s.sockets[0].instanceId == "a";
    events, s := RunOne(events, s, EConnectBrowser);
    assert OpenAgent(s.sockets[0]) && OpenBrowser(s.sockets[1]);
    var ss := s.sockets[1 := s.sockets[1].(watch := "a")];
    var r := Recompute(ss);
    assert OpenAgent(r[0]) && OpenBrowser(r[1]) && AgentByInstance(r, "a") == Some(0);
    events, s := RunOne(events, s, EWatch(1, "a"));
    LastAppend(r[0].sent, Subscribe);
  }

  /** An agent that reconnects is not subscribed again, although a browser still watches it. */
  lemma ReconnectIsNotSubscribed() returns (events: seq<Event>, s: State)
    ensures Exec(events) == Some(s) && |s.sockets| == 3
    ensures OpenAgent(s.sockets[2]) && Watched(s.sockets, s.sockets[2].instanceId)
    ensures LastSub(s.sockets[2].sent) == None
  {
    events, s := WatchedAgent();
    events, s := RunOne(events, s, EConnectAgent("a"));
    assert OpenBrowser(s.sockets[1]) && s.sockets[1].watch == "a";
  }

  /** An agent whose only watcher has dropped stays subscribed until that close is handled. */
  lemma DroppedWatcherStaysSubscribed() returns (events: seq<Event>, s: State)
    ensures Exec(events) == Some(s) && |s.sockets| == 2 && OpenAgent(s.sockets[0])
    ensures LastSub(s.sockets[0].sent) == Some(true) && !Watched(s.sockets, s.sockets[0].instanceId)
  {
    events, s := WatchedAgent();
    events, s := RunOne(events, s, EDrop(1));
  }

  lemma RunOne(events: seq<Event>, s: State, e: Event) returns (events': seq<Event>, s': State)
    requires Exec(events) == Some(s) && Enabled(s, e) && Disciplined(s, e)
    ensures s' == Handle(s, e) && Exec(events') == Some(s')
  {
    events' := events + [e];
    s' := Handle(s, e);
    assert events'[..|events|] == events;
  }

  // ---------------------------------------------------------------- the durable object

  class MachineRelay {
    var sockets: seq<Socket>
    var catalog: Catalog

    ghost function Now(): State reads this { State(sockets, catalog) }

    constructor ()
      ensures Now() == INITIAL
    {
      sockets, catalog := [], [];
    }

    method BroadcastBrowsers(f: Frame)
      modifies this`sockets
      ensures sockets == Broadcast(old(sockets), f)
    {
      var i := 0;
      while i < |sockets|
        invariant 0 <= i <= |sockets| == |old(sockets)|
        invariant forall j :: 0 <= j < i ==> sockets[j] == Broadcast(old(sockets), f)[j]
        invariant forall j :: i <= j < |sockets| ==> sockets[j] == old(sockets)[j]
      {
        if OpenBrowser(sockets[i]) {
          sockets := sockets[i := Deliver(sockets[i], f)];
        }
        i := i + 1;
      }
    }

    method HasOpenAgent() returns (r: bool)
      ensures r == AnyAgentOpen(sockets)
    {
      for i := 0 to |sockets|
        invariant forall j :: 0 <= j < i ==> !OpenAgent(sockets[j])
      {
        if OpenAgent(sockets[i]) { return true; }
      }
      return false;
    }

    method SendCatalog()
      modifies this`sockets
      ensures Now() == BroadcastCatalog(old(Now()))
    {
      var online := HasOpenAgent();
      BroadcastBrowsers(CatalogFrame(catalog, online));
    }

    method WatchedInstanceIds() returns (ids: set<string>)
      ensures forall id :: id in ids <==> id != "" && Watched(sockets, id)
    {
      ids := {};
      for i := 0 to |sockets|
        invariant forall id :: id in ids ==> id != "" && Watched(sockets, id)
        invariant forall j :: 0 <= j < i && OpenBrowser(sockets[j]) && sockets[j].watch != "" ==> sockets[j].watch in ids
      {
        if OpenBrowser(sockets[i]) && sockets[i].watch != "" {
          ids := ids + {sockets[i].watch};
        }
      }
    }

    method RecomputeSubscriptions()
      modifies this`sockets
      ensures sockets == Recompute(old(sockets))
    {
      var watched := WatchedInstanceIds();
      var i := 0;
      while i < |sockets|
        invariant 0 <= i <= |sockets| == |old(sockets)|
        invariant forall j :: 0 <= j < i ==> sockets[j] == Recompute(old(sockets))[j]
        invariant forall j :: i <= j < |sockets| ==> sockets[j] == old(sockets)[j]
      {
        var k := sockets[i];
        if OpenAgent(k) && k.instanceId != "" {
          sockets := sockets[i := Deliver(k, if k.instanceId in watched then Subscribe else Unsubscribe)];
        }
        i := i + 1;
      }
    }

    method OnConnectAgent(header: string)
      modifies this
      ensures Now() == ConnectAgent(old(Now()), header)
    {
      if header != "" {
        var i := 0;
        while i < |sockets|
          invariant 0 <= i <= |sockets| == |old(sockets)| && catalog == old(catalog)
          invariant forall j :: 0 <= j < i ==> sockets[j] == CloseTagged(old(sockets), header)[j]
          invariant forall j :: i <= j < |sockets| ==> sockets[j] == old(sockets)[j]
        {
          if OpenAgent(sockets[i]) && sockets[i].tag == header {
            sockets := sockets[i := sockets[i].(phase := Closing)];
          }
          i := i + 1;
        }
        assert sockets == CloseTagged(old(sockets), header);
      }
      sockets := sockets + [Socket(Agent, Open, header, header, "", [])];
      BroadcastBrowsers(MachineOnline);
      SendCatalog();
    }

    method OnConnectBrowser()
      modifies this
      ensures Now() == ConnectBrowser(old(Now()))
    {
      var online := HasOpenAgent();
      var greeting := [if online then MachineOnline else MachineOffline, CatalogFrame(catalog, online)];
      sockets := sockets + [Socket(Browser, Open, "", "", "", greeting)];
    }

    method OnHello(i: nat, msgId: string, pid: int, machine: Option<MachineInfo>)
      requires i < |sockets|
      modifies this
      ensures Now() == Hello(old(Now()), i, msgId, pid, machine)
    {
      var id := if msgId != "" then msgId else sockets[i].instanceId;
      if id != "" {
        sockets := sockets[i := sockets[i].(instanceId := id)];
      }
      if machine.Some? {
        var m := machine.value;
        var prev := Find(catalog, id);
        var info := InstanceInfo(id, pid, m.cwd, m.hostname, if m.name != "" then m.name else m.hostname, m.grokVersion, None, false, []);
        if prev.Some? {
          info := info.(activeSessionId := prev.value.activeSessionId, turnRunning := prev.value.turnRunning,
            sessions := prev.value.sessions);
        }
        catalog := Put(catalog, info);
        SendCatalog();
      }
    }

    method OnSessionCatalog(
      i: nat, msgId: string, cwd: Option<string>, active: Option<string>, running: bool, sessions: Option<seq<string>>)
      requires i < |this.sockets|
      modifies this
      ensures Now() == SessionCatalog(old(Now()), i, msgId, cwd, active, running, sessions)
    {
      var id := if msgId != "" then msgId else this.sockets[i].instanceId;
      if id == "" && catalog != [] { id := catalog[0].instanceId; }
      if id == "" { return; }
      var info := InstanceInfo(id, 0, "", "", "", "", None, false, []);
      var prev := Find(catalog, id);
      if prev.Some? { info := prev.value; }
      info := info.(instanceId := id, turnRunning := running);
      if cwd.Some? { info := info.(cwd := cwd.value); }
      if active.Some? { info := info.(activeSessionId := active); }
      if sessions.Some? { info := info.(sessions := sessions.value); }
      catalog := Put(catalog, info);
      SendCatalog();
    }

    /** Messages that reach browsers only while somebody watches, or (`always`) in any case. */
    method OnAgentMessage(i: nat, msgId: string, body: string, always: bool)
      requires i < |sockets|
      modifies this
      ensures Now() == if always then AgentNotice(old(Now()), i, msgId, body) else AgentLive(old(Now()), i, msgId, body)
    {
      var id := if msgId != "" then msgId else sockets[i].instanceId;
      if !always {
        var watched := WatchedInstanceIds();
        if id == "" || id !in watched { return; }
      }
      BroadcastBrowsers(Live(id, body));
    }

    method OnClose(i: nat)
      requires i < |sockets|
      modifies this
      ensures Now() == Close(old(Now()), i)
    {
      var k := sockets[i];
      sockets := sockets[i := k.(phase := Gone)];
      if k.role.Browser? {
        RecomputeSubscriptions();
        return;
      }
      if k.instanceId != "" {
        var stillHere := false;
        for j := 0 to |sockets|
          invariant stillHere <==> exists m :: 0 <= m < j && m != i && OpenAgent(sockets[m]) && sockets[m].tag == k.instanceId
        {
          if j != i && OpenAgent(sockets[j]) && sockets[j].tag == k.instanceId { stillHere := true; }
        }
        if !stillHere {
          catalog := Delete(catalog, k.instanceId);
          BroadcastBrowsers(InstanceOffline(k.instanceId));
        }
      }
      ghost var s1 := Now();
      var online := HasOpenAgent();
      SendCatalog();
      assert online == AnyAgentOpen(old(sockets)[i := k.(phase := Gone)]) by {
        BroadcastKeepsAgents(old(sockets)[i := k.(phase := Gone)], s1.sockets);
      }
      if !online {
        BroadcastBrowsers(MachineOffline);
      }
    }

    method OnWatch(i: nat, id: string)
      requires i < |sockets|
      modifies this
      ensures Now() == Watch(old(Now()), i, id)
    {
      sockets := sockets[i := sockets[i].(watch := id)];
      RecomputeSubscriptions();
      if id != "" {
        SendToInstance(i, id, Subscribe);
      }
    }

    method SendToInstance(i: nat, id: string, f: Frame)
      requires i < |sockets|
      modifies this`sockets
      ensures Now() == SendInstance(old(Now()), i, id, f)
    {
      var j := |sockets|;
      while j > 0
        invariant 0 <= j <= |sockets| && sockets == old(sockets)
        invariant forall m :: j <= m < |sockets| ==> !(OpenAgent(sockets[m]) && sockets[m].tag == id)
      {
        j := j - 1;
        if OpenAgent(sockets[j]) && sockets[j].tag == id {
          sockets := sockets[j := Deliver(sockets[j], f)];
          return;
        }
      }
      sockets := sockets[i := Deliver(sockets[i], InstanceOffline(id))];
    }

    method OnBrowserMessage(i: nat, kind: string, msgId: string, session: string, body: string)
      requires i < |sockets|
      modifies this
      ensures Now() == BrowserMessage(old(Now()), i, kind, msgId, session, body)
    {
      var id := if sockets[i].watch != "" then sockets[i].watch else msgId;
      if id == "" && session != "" {
        id := InstanceOfSession(catalog, session);
      }
      if id == "" && |catalog| == 1 {
        id := catalog[0].instanceId;
      }
      if id == "" {
        sockets := sockets[i := Deliver(sockets[i], MachineOffline)];
      } else {
        SendToInstance(i, id, Forwarded(kind, body));
      }
    }
  }

  lemma BroadcastKeepsAgents(ss: seq<Socket>, ss': seq<Socket>)
    requires |ss'| == |ss| && forall i :: 0 <= i < |ss| ==> ss'[i].role == ss[i].role && ss'[i].phase == ss[i].phase
    ensures AnyAgentOpen(ss') == AnyAgentOpen(ss)
  {
    if AnyAgentOpen(ss) {
      var i :| 0 <= i < |ss| && OpenAgent(ss[i]);
      assert OpenAgent(ss'[i]);
    }
  }
}
