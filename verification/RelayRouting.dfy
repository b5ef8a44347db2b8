/** Where messages go and what they leave in the catalog, read off sockets and catalog entries
    alone. */
module RelayRouting {
  import opened Bytes
  import opened Relay

  // ---------------------------------------------------------------- browser messages

  /** The entry at `j` lists the session, or has it as its active one. */
  predicate HasSession(c: Catalog, j: nat, session: string)
    requires j < |c|
  {
    (exists k :: 0 <= k < |c[j].sessions| && c[j].sessions[k] == session) || c[j].activeSessionId == Some(session)
  }

  /** The first entry that has the session is the one at `j`. */
  predicate FirstWithSession(c: Catalog, j: nat, session: string) {
    j < |c| && HasSession(c, j, session) && forall h :: 0 <= h < j ==> !HasSession(c, h, session)
  }

  predicate NobodyHas(c: Catalog, session: string) { forall h :: 0 <= h < |c| ==> !HasSession(c, h, session) }

  /** The frame went to every open agent of the instance (there is at most one); with none, the
      sender `i` alone heard that the instance is offline. */
  predicate SentTo(s: State, s': State, i: nat, id: string, f: Frame) {
    && s'.catalog == s.catalog && |s'.sockets| == |s.sockets|
    && forall j :: 0 <= j < |s.sockets| ==>
         s'.sockets[j] ==
           if OpenTagged(s.sockets[j], id) then Deliver(s.sockets[j], f)
           else if j == i && NoneTagged(s.sockets, id) then Deliver(s.sockets[j], InstanceOffline(id))
           else s.sockets[j]
  }

  predicate OpenTagged(k: Socket, id: string) { k.role.Agent? && k.phase.Open? && k.tag == id }

  predicate NoneTagged(ss: seq<Socket>, id: string) { forall h :: 0 <= h < |ss| ==> !OpenTagged(ss[h], id) }

  lemma {:induction false} SessionEntry(c: Catalog, session: string, j: nat)
    ensures FirstWithSession(c, j, session) ==> InstanceOfSession(c, session) == c[j].instanceId
    ensures NobodyHas(c, session) ==> InstanceOfSession(c, session) == ""
  {
    if c != [] {
      var rest := c[1..];
      assert forall h :: 0 <= h < |rest| ==> (HasSession(rest, h, session) <==> HasSession(c, h + 1, session));
      assert HasSession(c, 0, session) <==> session in c[0].sessions || c[0].activeSessionId == Some(session);
      SessionEntry(rest, session, if j > 0 then j - 1 else 0);
      if FirstWithSession(c, j, session) && j > 0 {
        assert !HasSession(c, 0, session);
        assert FirstWithSession(rest, j - 1, session);
      }
      if NobodyHas(c, session) { assert !HasSession(c, 0, session); }
    }
  }

  lemma InstanceIsSent(s: State, i: nat, id: string, f: Frame)
    requires AgentsInv(s.sockets) && i < |s.sockets| && s.sockets[i].role.Browser?
    ensures SentTo(s, SendInstance(s, i, id, f), i, id, f)
  {
    var target := AgentByInstance(s.sockets, id);
    if target.Some? { assert OpenTagged(s.sockets[target.value], id); }
  }

  predicate NamedEntries(c: Catalog) { forall h :: 0 <= h < |c| ==> c[h].instanceId != "" }

  lemma RouteCases(s: State, i: nat, msgId: string, session: string, j: nat)
    requires i < |s.sockets| && NamedEntries(s.catalog)
    ensures var watch, c, id := s.sockets[i].watch, s.catalog, RouteTarget(s, i, msgId, session);
      && (watch != "" ==> id == watch)
      && (watch == "" && msgId != "" ==> id == msgId)
      && (watch == msgId == "" && session != "" && FirstWithSession(c, j, session) ==> id == c[j].instanceId)
      && (watch == msgId == "" && (session == "" || NobodyHas(c, session)) ==>
            id == if |c| == 1 then c[0].instanceId else "")
  {
    SessionEntry(s.catalog, session, j);
  }

  lemma EntriesAreNamed(events: seq<Event>, s: State)
    requires Exec(events) == Some(s)
    ensures NamedEntries(s.catalog)
  {
    CatalogIsOwnedAndShown(events, s);
    forall h | 0 <= h < |s.catalog| ensures s.catalog[h].instanceId != "" {
      assert s.catalog[h] in s.catalog && Owned(s.sockets, s.catalog[h].instanceId);
    }
  }

  lemma RoutedTo(s: State, e: Event, id: string)
    requires Inv(s) && e.EMessage? && Enabled(s, e) && RouteTarget(s, e.i, e.msgId, e.session) == id != ""
    ensures SentTo(s, Handle(s, e), e.i, id, Forwarded(e.kind, e.body))
  {
    InstanceIsSent(s, e.i, id, Forwarded(e.kind, e.body));
  }

  /** A watched instance wins over the message's own id, that over the session's entry, and that
      over the only entry; with none of them the sender hears that the machine is offline. */
  lemma MessageIsRouted(events: seq<Event>, s: State, e: Event, j: nat)
    requires Exec(events) == Some(s) && e.EMessage? && Enabled(s, e)
    ensures var s' := Handle(s, e); var watch, c := s.sockets[e.i].watch, s.catalog; var f := Forwarded(e.kind, e.body);
      && (watch != "" ==> SentTo(s, s', e.i, watch, f))
      && (watch == "" && e.msgId != "" ==> SentTo(s, s', e.i, e.msgId, f))
      && (watch == e.msgId == "" && e.session != "" && FirstWithSession(c, j, e.session) ==> SentTo(s, s', e.i, c[j].instanceId, f))
      && (watch == e.msgId == "" && (e.session == "" || NobodyHas(c, e.session)) ==>
            if |c| == 1 then SentTo(s, s', e.i, c[0].instanceId, f)
            else s' == s.(sockets := s.sockets[e.i := Deliver(s.sockets[e.i], MachineOffline)]))
  {
    EntriesAreNamed(events, s);
    RouteCases(s, e.i, e.msgId, e.session, j);
    var id := RouteTarget(s, e.i, e.msgId, e.session);
    if id != "" { RoutedTo(s, e, id); }
  }

  // ---------------------------------------------------------------- agent messages

  /** The id that a message names, else that of its socket. */
  function NamedId(k: Socket, msgId: string): string { if msgId == "" then k.instanceId else msgId }

  predicate HasOpenWatcher(ss: seq<Socket>, id: string) {
    exists b :: 0 <= b < |ss| && ss[b].role.Browser? && ss[b].phase.Open? && ss[b].watch == id
  }

  /** A transcript frame reaches all open browsers when one of them watches its instance, and
      nobody otherwise; nothing else changes. */
  lemma TranscriptNeedsWatcher(s: State, e: Event)
    requires e.ELive? && Enabled(s, e)
    ensures var s' := Handle(s, e); var id := NamedId(s.sockets[e.i], e.msgId);
      && s'.catalog == s.catalog && |s'.sockets| == |s.sockets|
      && forall b :: 0 <= b < |s.sockets| ==>
           s'.sockets[b] ==
             if id != "" && HasOpenWatcher(s.sockets, id) && s.sockets[b].role.Browser? && s.sockets[b].phase.Open?
             then Deliver(s.sockets[b], Live(id, e.body)) else s.sockets[b]
  {
    var id := NamedId(s.sockets[e.i], e.msgId);
    assert HasOpenWatcher(s.sockets, id) <==> Watched(s.sockets, id) by {
      if HasOpenWatcher(s.sockets, id) {
        var b :| 0 <= b < |s.sockets| && s.sockets[b].role.Browser? && s.sockets[b].phase.Open? && s.sockets[b].watch == id;
        assert OpenBrowser(s.sockets[b]);
      }
      if Watched(s.sockets, id) {
        var b :| 0 <= b < |s.sockets| && OpenBrowser(s.sockets[b]) && s.sockets[b].watch == id;
        assert s.sockets[b].role.Browser? && s.sockets[b].phase.Open?;
      }
    }
  }

  /** A notice reaches all open browsers whether or not one of them watches. */
  lemma NoticeReachesBrowsers(s: State, e: Event)
    requires e.ENotice? && Enabled(s, e)
    ensures var s' := Handle(s, e);
      && s'.catalog == s.catalog && |s'.sockets| == |s.sockets|
      && forall b :: 0 <= b < |s.sockets| ==>
           s'.sockets[b] ==
             if s.sockets[b].role.Browser? && s.sockets[b].phase.Open?
             then Deliver(s.sockets[b], Live(NamedId(s.sockets[e.i], e.msgId), e.body)) else s.sockets[b]
  {
  }

  // ---------------------------------------------------------------- catalog entries

  /** `c'` is `c` with the entry of `info`'s instance overwritten where it was, or appended. */
  predicate EntrySet(c: Catalog, c': Catalog, info: InstanceInfo) {
    if HasKey(c, info.instanceId) then
      |c'| == |c| && forall k :: 0 <= k < |c| ==>
        c'[k] == if c[k].instanceId == info.instanceId then info else c[k]
    else c' == c + [info]
  }

  lemma HasKeyBehind(x: InstanceInfo, rest: Catalog, id: string)
    requires x.instanceId != id
    ensures HasKey([x] + rest, id) <==> HasKey(rest, id)
  {
    var c := [x] + rest;
    if HasKey(c, id) {
      var k :| 0 <= k < |c| && c[k].instanceId == id;
      assert rest[k - 1].instanceId == id;
    }
    if HasKey(rest, id) {
      var k :| 0 <= k < |rest| && rest[k].instanceId == id;
      assert c[k + 1].instanceId == id;
    }
  }

  lemma EntrySetBehind(x: InstanceInfo, rest: Catalog, rest': Catalog, info: InstanceInfo)
    requires x.instanceId != info.instanceId && EntrySet(rest, rest', info)
    ensures EntrySet([x] + rest, [x] + rest', info)
  {
    HasKeyBehind(x, rest, info.instanceId);
  }

  lemma EntrySetFirst(x: InstanceInfo, rest: Catalog, info: InstanceInfo)
    requires x.instanceId == info.instanceId && UniqueKeys([x] + rest)
    ensures EntrySet([x] + rest, [info] + rest, info)
  {
    assert ([x] + rest)[0].instanceId == info.instanceId;
    assert forall k :: 1 <= k < |[x] + rest| ==> ([x] + rest)[k].instanceId != x.instanceId;
  }

  lemma {:induction false} PutSetsEntry(c: Catalog, info: InstanceInfo)
    requires UniqueKeys(c)
    ensures EntrySet(c, Put(c, info), info)
  {
    if c == [] {
    } else {
      var x, rest := c[0], c[1..];
      assert c == [x] + rest;
      if x.instanceId == info.instanceId {
        EntrySetFirst(x, rest, info);
      } else {
        PutSetsEntry(rest, info);
        EntrySetBehind(x, rest, Put(rest, info), info);
      }
    }
  }

  /** The stored entry of an instance: the one that the catalog has under its id. */
  predicate EntryIs(c: Catalog, id: string, was: Option<InstanceInfo>) {
    match was
    case None => forall k :: 0 <= k < |c| ==> c[k].instanceId != id
    case Some(x) => exists k :: 0 <= k < |c| && c[k] == x && x.instanceId == id
  }

  lemma EntryFound(c: Catalog, id: string, was: Option<InstanceInfo>)
    requires UniqueKeys(c) && EntryIs(c, id, was)
    ensures Find(c, id) == was
  {
    if was.Some? {
      var k :| 0 <= k < |c| && c[k] == was.value && was.value.instanceId == id;
      assert HasKey(c, id);
      var found := Find(c, id).value;
      var j :| 0 <= j < |c| && c[j] == found;
    }
  }

  /** A hello with its machine overwrites the machine's fields of its entry, keeps what the
      entry said about sessions, and names the machine by its label or else its host. */
  lemma HelloSetsEntry(s: State, e: Event, was: Option<InstanceInfo>)
    requires UniqueKeys(s.catalog) && e.EHello? && Enabled(s, e) && e.machine.Some?
    requires EntryIs(s.catalog, NamedId(s.sockets[e.i], e.msgId), was)
    ensures var m := e.machine.value; var id := NamedId(s.sockets[e.i], e.msgId);
      EntrySet(s.catalog, Handle(s, e).catalog, InstanceInfo(id, e.pid, m.cwd, m.hostname,
        if m.name == "" then m.hostname else m.name, m.grokVersion,
        if was.None? then None else was.value.activeSessionId,
        was.Some? && was.value.turnRunning,
        if was.None? then [] else was.value.sessions))
  {
    var m, id := e.machine.value, NamedId(s.sockets[e.i], e.msgId);
    EntryFound(s.catalog, id, was);
    PutSetsEntry(s.catalog, InstanceInfo(id, e.pid, m.cwd, m.hostname, if m.name == "" then m.hostname else m.name,
      m.grokVersion, if was.None? then None else was.value.activeSessionId, was.Some? && was.value.turnRunning,
      if was.None? then [] else was.value.sessions));
  }

  /** A session catalog overwrites what it gives and keeps the rest of its entry. */
  lemma SessionCatalogSetsEntry(s: State, e: Event, was: Option<InstanceInfo>)
    requires UniqueKeys(s.catalog) && e.ESessionCatalog? && Enabled(s, e)
    requires NamedId(s.sockets[e.i], e.msgId) != "" && EntryIs(s.catalog, NamedId(s.sockets[e.i], e.msgId), was)
    ensures var id := NamedId(s.sockets[e.i], e.msgId);
      var old' := if was.Some? then was.value else InstanceInfo(id, 0, "", "", "", "", None, false, []);
      EntrySet(s.catalog, Handle(s, e).catalog, InstanceInfo(id, old'.pid,
        if e.cwd.None? then old'.cwd else e.cwd.value, old'.hostname, old'.name, old'.grokVersion,
        if e.active.None? then old'.activeSessionId else e.active, e.running,
        if e.sessions.None? then old'.sessions else e.sessions.value))
  {
    var id := NamedId(s.sockets[e.i], e.msgId);
    var old' := if was.Some? then was.value else InstanceInfo(id, 0, "", "", "", "", None, false, []);
    EntryFound(s.catalog, id, was);
    PutSetsEntry(s.catalog, InstanceInfo(id, old'.pid, if e.cwd.None? then old'.cwd else e.cwd.value, old'.hostname,
      old'.name, old'.grokVersion, if e.active.None? then old'.activeSessionId else e.active, e.running,
      if e.sessions.None? then old'.sessions else e.sessions.value));
  }

  // ---------------------------------------------------------------- the close of an agent

  /** When the only open socket of its instance closes, the entry goes and each open browser is
      told: that instance is offline, the catalog without it, and, with no agent left, that the
      machine is. */
  lemma LastCloseIsAnnounced(s: State, e: Event, b: nat)
    requires e.EClose? && Enabled(s, e) && s.sockets[e.i].role.Agent? && s.sockets[e.i].instanceId != ""
    requires forall j :: 0 <= j < |s.sockets| && j != e.i ==> !OpenTagged(s.sockets[j], s.sockets[e.i].instanceId)
    requires b < |s.sockets| && OpenBrowser(s.sockets[b])
    ensures var s' := Handle(s, e); var id := s.sockets[e.i].instanceId;
      var left := exists j :: 0 <= j < |s.sockets| && j != e.i && OpenAgent(s.sockets[j]);
      && (forall x :: x in s'.catalog <==> x in s.catalog && x.instanceId != id)
      && |s'.sockets| == |s.sockets|
      && s'.sockets[b].sent == s.sockets[b].sent + [InstanceOffline(id), CatalogFrame(s'.catalog, left)]
           + (if left then [] else [MachineOffline])
  {
    var k := s.sockets[e.i];
    var ss := s.sockets[e.i := k.(phase := Gone)];
    forall j | 0 <= j < |ss| && j != e.i ensures !(OpenAgent(ss[j]) && ss[j].tag == k.instanceId) {
      assert !OpenTagged(s.sockets[j], k.instanceId);
    }
    assert AnyAgentOpen(ss) <==> exists j :: 0 <= j < |s.sockets| && j != e.i && OpenAgent(s.sockets[j]) by {
      if AnyAgentOpen(ss) {
        var j :| 0 <= j < |ss| && OpenAgent(ss[j]);
        assert j != e.i && OpenAgent(s.sockets[j]);
      }
      if j :| 0 <= j < |s.sockets| && j != e.i && OpenAgent(s.sockets[j]) { assert OpenAgent(ss[j]); }
    }
    var told := Broadcast(ss, InstanceOffline(k.instanceId));
    assert AnyAgentOpen(told) <==> AnyAgentOpen(ss) by {
      assert forall j :: 0 <= j < |ss| ==> (OpenAgent(told[j]) <==> OpenAgent(ss[j]));
    }
  }

  // ---------------------------------------------------------------- connecting

  /** A browser is greeted with the state of the machine and the catalog; nobody else is told. */
  lemma BrowserIsGreeted(s: State)
    ensures var s' := Handle(s, EConnectBrowser);
      && s'.catalog == s.catalog && |s'.sockets| == |s.sockets| + 1 && s'.sockets[..|s.sockets|] == s.sockets
      && var online := exists k :: 0 <= k < |s.sockets| && s.sockets[k].role == Agent && s.sockets[k].phase == Open;
        s'.sockets[|s.sockets|] == Socket(Browser, Open, "", "", "",
          [if online then MachineOnline else MachineOffline, CatalogFrame(s.catalog, online)])
  {
  }

  /** An agent replaces the open sockets of its instance; the open browsers hear that the machine
      is online and see the catalog. */
  lemma AgentIsAnnounced(s: State, header: string, k: nat)
    requires k < |s.sockets|
    ensures var s' := Handle(s, EConnectAgent(header)); var was := s.sockets[k];
      && s'.catalog == s.catalog && |s'.sockets| == |s.sockets| + 1
      && s'.sockets[|s.sockets|] == Socket(Agent, Open, header, header, "", [])
      && s'.sockets[k] ==
        if was.phase == Open && was.role == Browser then
          was.(sent := was.sent + [MachineOnline, CatalogFrame(s.catalog, true)])
        else if was.phase == Open && was.tag == header && header != "" then was.(phase := Closing)
        else was
  {
    var kept := if header == "" then s.sockets else CloseTagged(s.sockets, header);
    var accepted := kept + [Socket(Agent, Open, header, header, "", [])];
    assert OpenAgent(Broadcast(accepted, MachineOnline)[|s.sockets|]);
    assert kept[k] == accepted[k];
    assert s.sockets[k].sent + [MachineOnline] + [CatalogFrame(s.catalog, true)]
        == s.sockets[k].sent + [MachineOnline, CatalogFrame(s.catalog, true)];
  }
}
