/** What an agent was last told about its subscription, read off the events of the run: which
    events send verdicts, which agents have had one, and which browsers it speaks for. */
module RelayHistory {
  import opened Bytes
  import opened Relay

  /** Subscriptions are sent out when a browser watches and when a browser's close is handled. */
  predicate Recomputes(s: State, e: Event) {
    e.EWatch? || (e.EClose? && e.i < |s.sockets| && s.sockets[e.i].role.Browser?)
  }

  predicate RecomputeAt(events: seq<Event>, j: nat)
    requires j < |events|
  {
    var before := Exec(events[..j]);
    before.Some? && Recomputes(before.value, events[j])
  }

  lemma SamePrefix(events: seq<Event>, n: nat, j: nat)
    requires j <= n <= |events|
    ensures events[..n][..j] == events[..j]
  {
  }

  lemma RecomputeInPrefix(events: seq<Event>, n: nat)
    requires n <= |events|
    ensures forall j :: 0 <= j < n ==> (RecomputeAt(events[..n], j) <==> RecomputeAt(events, j))
  {
    forall j | 0 <= j < n ensures RecomputeAt(events[..n], j) <==> RecomputeAt(events, j) { SamePrefix(events, n, j); }
  }

  function LastRecompute(events: seq<Event>): (r: Option<nat>)
    ensures r.Some? ==> r.value < |events| && RecomputeAt(events, r.value)
    ensures forall j :: 0 <= j < |events| && RecomputeAt(events, j) ==> r.Some? && j <= r.value
  {
    if events == [] then None
    else
      var n := |events| - 1;
      RecomputeInPrefix(events, n);
      if RecomputeAt(events, n) then Some(n) else LastRecompute(events[..n])
  }

  // ---------------------------------------------------------------- what one event does to a socket

  lemma SocketCount(s: State, e: Event)
    requires Enabled(s, e)
    ensures |Handle(s, e).sockets| == |s.sockets| + if e.EConnectAgent? || e.EConnectBrowser? then 1 else 0
  {
  }

  /** The verdict that an event sends to the agents of an instance. */
  predicate Verdicts(s: State, e: Event, id: string)
    requires Enabled(s, e)
  { Watched(Handle(s, e).sockets, id) || (e.EWatch? && e.id == id) }

  predicate SameAgent(k: Socket, k': Socket) { k' == k.(sent := k'.sent) }

  lemma RecomputedVerdict(ss: seq<Socket>, i: nat)
    requires i < |ss| && Identified(ss[i])
    ensures var k, k' := ss[i], Recompute(ss)[i]; SameAgent(k, k') && LastSub(k'.sent) == Some(Watched(ss, k.instanceId))
  {
    LastAppend(ss[i].sent, SubFrame(ss, ss[i].instanceId));
  }

  lemma SubscribedVerdict(s: State, i: nat, w: nat, id: string)
    requires AgentsInv(s.sockets) && i < |s.sockets| && OpenAgent(s.sockets[i]) && w < |s.sockets| && s.sockets[w].role.Browser?
    ensures var k, k' := s.sockets[i], SendInstance(s, w, id, Subscribe).sockets[i];
      SameAgent(k, k') && LastSub(k'.sent) == if k.instanceId == id then Some(true) else LastSub(k.sent)
  {
    LastAppend(s.sockets[i].sent, Subscribe);
    assert AgentByInstance(s.sockets, s.sockets[i].tag) == Some(i);
  }

  lemma WatchVerdict(s: State, i: nat, w: nat, id: string)
    requires Inv(s) && i < |s.sockets| && OpenAgent(s.sockets[i]) && From(s, w, Browser)
    ensures var k, k' := s.sockets[i], Watch(s, w, id).sockets[i];
      SameAgent(k, k') && LastSub(k'.sent) == Some(Verdicts(s, EWatch(w, id), k.instanceId))
  {
    var ss := s.sockets[w := s.sockets[w].(watch := id)];
    var s1 := s.(sockets := Recompute(ss));
    RecomputedVerdict(ss, i);
    assert AgentsInv(s1.sockets);
    SameWatchers(ss, s1.sockets);
    if id != "" {
      SubscribedVerdict(s1, i, w, id);
      SameWatchers(s1.sockets, Watch(s, w, id).sockets);
    }
  }

  lemma CloseVerdict(s: State, i: nat, b: nat)
    requires Inv(s) && i < |s.sockets| && OpenAgent(s.sockets[i]) && b < |s.sockets| && s.sockets[b].role.Browser?
    ensures var k, k' := s.sockets[i], Close(s, b).sockets[i];
      SameAgent(k, k') && LastSub(k'.sent) == Some(Watched(Close(s, b).sockets, k.instanceId))
  {
    var ss := s.sockets[b := s.sockets[b].(phase := Gone)];
    RecomputedVerdict(ss, i);
    SameWatchers(ss, Recompute(ss));
  }

  lemma MessageVerdict(s: State, i: nat, e: Event)
    requires Inv(s) && i < |s.sockets| && OpenAgent(s.sockets[i]) && e.EMessage? && Enabled(s, e) && Disciplined(s, e)
    ensures var k, k' := s.sockets[i], Handle(s, e).sockets[i]; SameAgent(k, k') && LastSub(k'.sent) == LastSub(k.sent)
  {
    LastAppend(s.sockets[i].sent, Forwarded(e.kind, e.body));
  }

  /** Every other event leaves an agent that stays open as it was. */
  lemma OtherVerdict(s: State, i: nat, e: Event)
    requires Inv(s) && Enabled(s, e) && Disciplined(s, e) && !Recomputes(s, e) && !e.EMessage?
    requires i < |s.sockets| && s.sockets[i].role.Agent? && |s.sockets| <= |Handle(s, e).sockets|
    requires OpenAgent(Handle(s, e).sockets[i])
    ensures Handle(s, e).sockets[i] == s.sockets[i]
  {
  }

  /** Roles stay; a watch changes by its browser's message; a phase by its drop, its close, or
      an agent's replacement. */
  predicate Moves(k: Socket, k': Socket, e: Event, j: nat) {
    && k'.role == k.role
    && k'.watch == (if e.EWatch? && e.i == j then e.id else k.watch)
    && (k'.phase == (if e == EDrop(j) then Closing else if e.EClose? && e.i == j then Gone else k.phase)
        || (e.EConnectAgent? && k.role.Agent? && k.phase.Open? && k'.phase.Closing?))
  }

  lemma ConnectMoves(s: State, e: Event, j: nat)
    requires (e.EConnectAgent? || e.EConnectBrowser?) && j < |s.sockets| < |Handle(s, e).sockets|
    ensures Moves(s.sockets[j], Handle(s, e).sockets[j], e, j)
  {
  }

  lemma DropMoves(s: State, e: Event, j: nat)
    requires (e.EDrop? || e.EClose?) && Enabled(s, e) && j < |s.sockets| == |Handle(s, e).sockets|
    ensures Moves(s.sockets[j], Handle(s, e).sockets[j], e, j)
  {
  }

  lemma AgentMoves(s: State, e: Event, j: nat)
    requires (e.EHello? || e.ESessionCatalog? || e.ELive? || e.ENotice?) && Enabled(s, e) && j < |s.sockets| == |Handle(s, e).sockets|
    ensures Moves(s.sockets[j], Handle(s, e).sockets[j], e, j)
  {
  }

  lemma BrowserMoves(s: State, e: Event, j: nat)
    requires (e.EWatch? || e.EMessage?) && Enabled(s, e) && j < |s.sockets| == |Handle(s, e).sockets|
    ensures Moves(s.sockets[j], Handle(s, e).sockets[j], e, j)
  {
  }

  lemma SocketMoves(s: State, e: Event, j: nat)
    requires Enabled(s, e) && j < |s.sockets| <= |Handle(s, e).sockets|
    ensures Moves(s.sockets[j], Handle(s, e).sockets[j], e, j)
  {
    SocketCount(s, e);
    match e
    case EConnectAgent(_) => ConnectMoves(s, e, j);
    case EConnectBrowser => ConnectMoves(s, e, j);
    case EDrop(_) => DropMoves(s, e, j);
    case EClose(_) => DropMoves(s, e, j);
    case EWatch(_, _) => BrowserMoves(s, e, j);
    case EMessage(_, _, _, _, _) => BrowserMoves(s, e, j);
    case _ => AgentMoves(s, e, j);
  }

  /** One that is open was open before. */
  lemma OpenWasOpen(s: State, e: Event, i: nat)
    requires Enabled(s, e) && i < |s.sockets| <= |Handle(s, e).sockets| && Handle(s, e).sockets[i].phase.Open?
    ensures s.sockets[i].phase.Open? && s.sockets[i].role == Handle(s, e).sockets[i].role
  {
    SocketMoves(s, e, i);
  }

  /** An agent that is open after an event has the event's verdict, or the one it had. */
  lemma VerdictStep(s: State, e: Event, i: nat)
    requires Inv(s) && Enabled(s, e) && Disciplined(s, e)
    requires i < |s.sockets| <= |Handle(s, e).sockets| && OpenAgent(Handle(s, e).sockets[i])
    ensures var k, k' := s.sockets[i], Handle(s, e).sockets[i];
      && OpenAgent(k) && SameAgent(k, k')
      && LastSub(k'.sent) == if Recomputes(s, e) then Some(Verdicts(s, e, k.instanceId)) else LastSub(k.sent)
  {
    OpenWasOpen(s, e, i);
    if e.EWatch? {
      WatchVerdict(s, i, e.i, e.id);
    } else if Recomputes(s, e) {
      CloseVerdict(s, i, e.i);
    } else if e.EMessage? {
      MessageVerdict(s, i, e);
    } else {
      OtherVerdict(s, i, e);
    }
  }

  lemma NewAgent(s: State, header: string)
    ensures var k := ConnectAgent(s, header).sockets;
      |k| == |s.sockets| + 1 && k[|s.sockets|] == Socket(Agent, Open, header, header, "", [])
  {
  }

  lemma NewBrowser(s: State)
    ensures var k := ConnectBrowser(s).sockets;
      |k| == |s.sockets| + 1 && k[|s.sockets|] == Socket(Browser, Open, "", "", "", k[|s.sockets|].sent)
      && LastSub(k[|s.sockets|].sent) == None
  {
    var online := AnyAgentOpen(s.sockets);
    NoVerdictIn(if online then MachineOnline else MachineOffline, CatalogFrame(s.catalog, online));
  }

  /** A new socket has had no verdict and watches nothing. */
  lemma NewSocket(s: State, e: Event)
    requires Enabled(s, e) && (e.EConnectAgent? || e.EConnectBrowser?)
    ensures var k := Handle(s, e).sockets;
      |k| == |s.sockets| + 1 && LastSub(k[|s.sockets|].sent) == None && k[|s.sockets|].watch == "" && k[|s.sockets|].phase.Open?
  {
    if e.EConnectAgent? {
      NewAgent(s, e.header);
      assert Handle(s, e) == ConnectAgent(s, e.header) && LastSub([]) == None;
    } else {
      NewBrowser(s);
    }
  }

  lemma NoVerdictIn(a: Frame, b: Frame)
    requires Verdict(a).None? && Verdict(b).None?
    ensures LastSub([a, b]) == None
  {
    LastAppend([], a);
    LastAppend([a], b);
    assert [] + [a] == [a] && [a] + [b] == [a, b];
  }

  // ---------------------------------------------------------------- which agents have had a verdict

  /** Socket `i` was accepted at event `k`. */
  predicate BornAt(events: seq<Event>, k: nat, i: nat) {
    k < |events| && (events[k].EConnectAgent? || events[k].EConnectBrowser?) &&
    var before := Exec(events[..k]);
    before.Some? && |before.value.sockets| == i
  }

  /** The last event of a run, with the state before it. */
  lemma LastEvent(events: seq<Event>, s: State) returns (before: State)
    requires events != [] && Exec(events) == Some(s)
    ensures var n := |events| - 1;
      && Exec(events[..n]) == Some(before) && Inv(before) && Enabled(before, events[n]) && Disciplined(before, events[n])
      && s == Handle(before, events[n])
  {
    before := Exec(events[..|events| - 1]).value;
  }

  lemma {:induction false} BornExists(events: seq<Event>, s: State, k: nat, i: nat)
    requires Exec(events) == Some(s) && BornAt(events, k, i)
    ensures i < |s.sockets|
  {
    var n := |events| - 1;
    var before := LastEvent(events, s);
    SocketCount(before, events[n]);
    if k < n {
      SamePrefix(events, n, k);
      BornExists(events[..n], before, k, i);
    }
  }

  /** Every socket was accepted at some event. */
  lemma {:induction false} EverySocketIsBorn(events: seq<Event>, s: State, i: nat) returns (k: nat)
    requires Exec(events) == Some(s) && i < |s.sockets|
    ensures BornAt(events, k, i)
  {
    var n := |events| - 1;
    var before := LastEvent(events, s);
    SocketCount(before, events[n]);
    if i < |before.sockets| {
      k := EverySocketIsBorn(events[..n], before, i);
      SamePrefix(events, n, k);
    } else {
      k := n;
    }
  }

  predicate QuietFrom(events: seq<Event>, k: nat) { forall j :: k < j < |events| ==> !RecomputeAt(events, j) }

  lemma QuietSince(events: seq<Event>, n: nat, before: State, k: nat)
    requires n == |events| - 1 && k < n && Exec(events[..n]) == Some(before)
    ensures QuietFrom(events, k) <==> QuietFrom(events[..n], k) && !Recomputes(before, events[n])
  {
    RecomputeInPrefix(events, n);
    assert RecomputeAt(events, n) <==> Recomputes(before, events[n]);
    if QuietFrom(events[..n], k) && !Recomputes(before, events[n]) {
      forall j | k < j < |events| ensures !RecomputeAt(events, j) {
        if j < n { assert !RecomputeAt(events[..n], j); }
      }
    }
    if QuietFrom(events, k) {
      forall j | k < j < n ensures !RecomputeAt(events[..n], j) { assert !RecomputeAt(events, j); }
    }
  }

  /** An open agent has had no subscription frame exactly when, since it connected, no browser
      has watched and no browser's close has been handled. */
  lemma {:induction false} NoFrameIff(events: seq<Event>, s: State, i: nat, k: nat)
    requires Exec(events) == Some(s) && i < |s.sockets| && OpenAgent(s.sockets[i]) && BornAt(events, k, i)
    ensures LastSub(s.sockets[i].sent).None? <==> QuietFrom(events, k)
    decreases |events|
  {
    var n := |events| - 1;
    var before := LastEvent(events, s);
    SocketCount(before, events[n]);
    if k == n {
      NewSocket(before, events[n]);
    } else {
      SamePrefix(events, n, k);
      BornExists(events[..n], before, k, i);
      VerdictStep(before, events[n], i);
      NoFrameIff(events[..n], before, i, k);
      QuietSince(events, n, before, k);
    }
  }

  /** So a watched open agent is subscribed exactly when a browser has watched, or a browser's
      close has been handled, since it connected; otherwise it has had no frame at all. */
  lemma WatchedAgentIsSubscribedIff(events: seq<Event>, s: State, i: nat, k: nat)
    requires Exec(events) == Some(s) && i < |s.sockets| && OpenAgent(s.sockets[i]) && BornAt(events, k, i)
    requires Watched(s.sockets, s.sockets[i].instanceId)
    ensures var last := LastSub(s.sockets[i].sent);
      && (last == Some(true) <==> !QuietFrom(events, k))
      && (last == Some(true) || last == None)
  {
    NoFrameIff(events, s, i, k);
    assert SubscriptionOk(s.sockets, s.sockets[i]);
  }

  // ---------------------------------------------------------------- whom a verdict speaks for

  /** The last verdicts count browser `j`: it had not dropped by then, or its own message made
      them; before any verdict every browser counts. */
  predicate Counted(events: seq<Event>, j: nat) {
    var r := LastRecompute(events);
    r.None? || (events[r.value].EWatch? && events[r.value].i == j) || EDrop(j) !in events[..r.value]
  }

  /** A browser that watches the instance, whose close is not handled, and that counts. */
  predicate CountedWatcher(events: seq<Event>, ss: seq<Socket>, id: string) {
    exists j: nat :: j < |ss| && LiveBrowser(ss[j]) && ss[j].watch == id && Counted(events, j)
  }

  /** A browser whose close is not handled is open exactly when it has not dropped. */
  predicate DropsKnown(events: seq<Event>, ss: seq<Socket>) {
    && (forall d :: 0 <= d < |events| && events[d].EDrop? ==> events[d].i < |ss|)
    && (forall j: nat :: j < |ss| && LiveBrowser(ss[j]) ==> (ss[j].phase.Open? <==> EDrop(j) !in events))
  }

  lemma {:induction false} DropsAreKnown(events: seq<Event>, s: State)
    requires Exec(events) == Some(s)
    ensures DropsKnown(events, s.sockets)
  {
    if events != [] {
      var n := |events| - 1;
      var before := LastEvent(events, s);
      DropsAreKnown(events[..n], before);
      DropsStep(events[..n], before, events[n]);
      assert events == events[..n] + [events[n]];
    }
  }

  lemma DropsStep(events: seq<Event>, s: State, e: Event)
    requires Inv(s) && Enabled(s, e) && DropsKnown(events, s.sockets)
    ensures DropsKnown(events + [e], Handle(s, e).sockets)
  {
    SocketCount(s, e);
    var ss := Handle(s, e).sockets;
    forall j: nat | j < |ss| && LiveBrowser(ss[j]) ensures ss[j].phase.Open? <==> EDrop(j) !in events + [e] {
      if j < |s.sockets| {
        SocketMoves(s, e, j);
      } else {
        NewSocket(s, e);
      }
    }
  }

  /** Right after verdicts were sent, they count the open watchers and the one that asked. */
  lemma CountedNow(events: seq<Event>, before: State, e: Event, id: string)
    requires Exec(events) == Some(before) && Enabled(before, e) && Disciplined(before, e) && Recomputes(before, e)
    ensures CountedWatcher(events + [e], Handle(before, e).sockets, id) <==> Verdicts(before, e, id)
  {
    var all, ss := events + [e], Handle(before, e).sockets;
    assert all[..|events|] == events;
    assert RecomputeAt(all, |events|) && LastRecompute(all) == Some(|events|);
    DropsAreKnown(events, before);
    DropsStep(events, before, e);
    SocketCount(before, e);
    if e.EWatch? { SocketMoves(before, e, e.i); }
    if Watched(ss, id) {
      var j: nat :| j < |ss| && OpenBrowser(ss[j]) && ss[j].watch == id;
      assert Counted(all, j);
    }
    if e.EWatch? && e.id == id { assert Counted(all, e.i) && LiveBrowser(ss[e.i]); }
    if CountedWatcher(all, ss, id) {
      var j: nat :| j < |ss| && LiveBrowser(ss[j]) && ss[j].watch == id && Counted(all, j);
      if !(e.EWatch? && e.i == j) { assert OpenBrowser(ss[j]); }
    }
  }

  /** Other events do not change whom the last verdicts speak for. */
  lemma CountedStill(events: seq<Event>, before: State, e: Event, id: string)
    requires Exec(events) == Some(before) && Enabled(before, e) && !Recomputes(before, e) && id != ""
    ensures CountedWatcher(events + [e], Handle(before, e).sockets, id) <==> CountedWatcher(events, before.sockets, id)
  {
    var all, ss := events + [e], Handle(before, e).sockets;
    SocketCount(before, e);
    SameLastRecompute(events, before, e);
    if CountedWatcher(events, before.sockets, id) {
      var j: nat :| j < |before.sockets| && LiveBrowser(before.sockets[j]) && before.sockets[j].watch == id && Counted(events, j);
      SocketMoves(before, e, j);
      assert LiveBrowser(ss[j]) && ss[j].watch == id && Counted(all, j);
    }
    if CountedWatcher(all, ss, id) {
      var j: nat :| j < |ss| && LiveBrowser(ss[j]) && ss[j].watch == id && Counted(all, j);
      if j == |before.sockets| {
        NewSocket(before, e);
      } else {
        SocketMoves(before, e, j);
        assert Counted(events, j);
      }
    }
  }

  lemma SameLastRecompute(events: seq<Event>, before: State, e: Event)
    requires Exec(events) == Some(before) && Enabled(before, e) && !Recomputes(before, e)
    ensures LastRecompute(events + [e]) == LastRecompute(events)
    ensures forall j: nat :: Counted(events + [e], j) <==> Counted(events, j)
  {
    var all := events + [e];
    assert all[..|events|] == events;
    var r := LastRecompute(events);
    if r.Some? { assert all[..r.value] == events[..r.value]; }
  }

  /** What the last event did to an agent that is open after it. */
  lemma LastVerdict(events: seq<Event>, before: State, e: Event, i: nat)
    requires Exec(events) == Some(before) && Enabled(before, e) && Disciplined(before, e) && Inv(before)
    requires var ss := Handle(before, e).sockets; i < |ss| && OpenAgent(ss[i]) && LastSub(ss[i].sent).Some?
    ensures var ss := Handle(before, e).sockets; var id := ss[i].instanceId;
      if Recomputes(before, e) then LastSub(ss[i].sent).value <==> CountedWatcher(events + [e], ss, id)
      else
        && i < |before.sockets| && OpenAgent(before.sockets[i]) && before.sockets[i].instanceId == id
        && LastSub(before.sockets[i].sent) == LastSub(ss[i].sent)
        && (CountedWatcher(events + [e], ss, id) <==> CountedWatcher(events, before.sockets, id))
  {
    SocketCount(before, e);
    if i == |before.sockets| { NewSocket(before, e); }
    VerdictStep(before, e, i);
    var id := Handle(before, e).sockets[i].instanceId;
    assert id != "";
    if Recomputes(before, e) { CountedNow(events, before, e, id); } else { CountedStill(events, before, e, id); }
  }

  /** An open agent that has had a subscription frame was last told `subscribe` exactly when a
      browser that those verdicts count, and whose close is not handled, watches its instance. */
  lemma {:induction false} ToldExactly(events: seq<Event>, s: State, i: nat)
    requires Exec(events) == Some(s) && i < |s.sockets| && OpenAgent(s.sockets[i]) && LastSub(s.sockets[i].sent).Some?
    ensures LastSub(s.sockets[i].sent).value <==> CountedWatcher(events, s.sockets, s.sockets[i].instanceId)
    decreases |events|
  {
    var n := |events| - 1;
    var before := LastEvent(events, s);
    assert events == events[..n] + [events[n]];
    LastVerdict(events[..n], before, events[n], i);
    if !Recomputes(before, events[n]) { ToldExactly(events[..n], before, i); }
  }

  /** An agent is told `subscribe` although no open browser watches it exactly when a browser
      that watched it has dropped, its close is pending, and no verdicts were sent since the
      drop but by a message of its own. */
  lemma ToldUnwatchedIff(events: seq<Event>, s: State, i: nat)
    requires Exec(events) == Some(s) && i < |s.sockets| && OpenAgent(s.sockets[i])
    requires LastSub(s.sockets[i].sent).Some? && !Watched(s.sockets, s.sockets[i].instanceId)
    ensures LastSub(s.sockets[i].sent).value <==> exists j: nat ::
      && j < |s.sockets| && s.sockets[j].role.Browser? && s.sockets[j].phase.Closing?
      && s.sockets[j].watch == s.sockets[i].instanceId && Counted(events, j)
  {
    ToldExactly(events, s, i);
    var ss, id := s.sockets, s.sockets[i].instanceId;
    forall j: nat | j < |ss| && LiveBrowser(ss[j]) && ss[j].watch == id ensures ss[j].phase.Closing? {
      assert !OpenBrowser(ss[j]);
    }
  }

  /** Altogether: the last subscription frame of any open agent, from the event `k` that connected
      it and the events since. */
  lemma LastFrameIs(events: seq<Event>, s: State, i: nat) returns (k: nat)
    requires Exec(events) == Some(s) && i < |s.sockets| && OpenAgent(s.sockets[i])
    ensures BornAt(events, k, i)
    ensures LastSub(s.sockets[i].sent) ==
      if QuietFrom(events, k) then None else Some(CountedWatcher(events, s.sockets, s.sockets[i].instanceId))
  {
    k := EverySocketIsBorn(events, s, i);
    NoFrameIff(events, s, i, k);
    if LastSub(s.sockets[i].sent).Some? { ToldExactly(events, s, i); }
  }
}
