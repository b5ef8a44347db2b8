/** Where everything stands in a rebuilt history, and which messages its tail keeps. */
module CompactionLayout {
  import opened Bytes
  import opened Conversation
  import opened CompactionRounds

  function Note(text: string, name: string): Item { User([Part.Text(text)], Runtime(name), "") }

  /** The tail already brings an agent message. */
  predicate TailHasAgent(c: Context) {
    exists k :: 0 <= k < |c.recent| && c.recent[k].User? && c.recent[k].reason == AgentMessage
  }

  predicate KeepsAnchor(c: Context) { c.anchor.Some? && !TailHasAgent(c) }

  predicate AnchorFirst(c: Context) { KeepsAnchor(c) && c.anchor.value.position == BeforeHuman }

  function One(b: bool): nat { if b then 1 else 0 }

  /** The instructions of the project, or of the directory that the agent moved to. */
  function Project(input: Input, c: Context): Option<string> {
    if c.cwdGeneration == 0 then input.agentsMd else c.destinationInstructions
  }

  function TurnAt(input: Input, c: Context): nat { 2 + One(Project(input, c).Some?) }

  function TailAt(input: Input, c: Context): nat { TurnAt(input, c) + One(KeepsAnchor(c)) + One(c.lastQuery.Some?) }

  lemma LastAgentIff(recent: seq<Item>)
    ensures LastAgent(recent).Some? <==> exists k :: 0 <= k < |recent| && recent[k].User? && recent[k].reason == AgentMessage
  {
    var a := LastAgent(recent);
    assert forall k :: 0 <= k < |recent| ==> (IsAgentMessage(recent[k]) <==> recent[k].User? && recent[k].reason == AgentMessage);
  }

  lemma JoinedAt(s: seq<Item>, a: seq<Item>, b: seq<Item>, c: seq<Item>, d: seq<Item>)
    requires s == a + b + c + d
    ensures var i, j, k := |a|, |a| + |b|, |a| + |b| + |c|;
      |s| == k + |d| && s[..i] == a && s[i..j] == b && s[j..k] == c && s[k..] == d
  {
  }

  /** The prompt and the instructions in front. */
  lemma OpeningStands(input: Input, c: Context)
    ensures var s, p := Opening(input, c), Project(input, c);
      && |s| == TurnAt(input, c) && s[0] == System(input.system) && s[1] == Note(input.prefix, "compaction_meta")
      && (p.Some? ==> s[2] == Note(p.value, "project_instructions"))
  {
  }

  /** The query, wrapped anew, with the agent message on the side that it was on. */
  lemma TurnStands(c: Context, u: Rules)
    ensures var s := AnchoredTurn(c, u);
      && |s| == One(KeepsAnchor(c)) + One(c.lastQuery.Some?)
      && (c.lastQuery.Some? ==> s[One(AnchorFirst(c))] == User([Part.Text(u.wrap(c.lastQuery.value))], Human, ""))
      && (KeepsAnchor(c) ==> s[if AnchorFirst(c) then 0 else One(c.lastQuery.Some?)] == c.anchor.value.item)
  {
    LastAgentIff(c.recent);
  }

  /** The summary, then the reminder. */
  lemma ClosingStands(summary: string, reminder: Option<string>)
    ensures var s := Closing(summary, reminder);
      && |s| == 1 + One(reminder.Some?) && s[0] == Note(summary, "compaction_meta")
      && (reminder.Some? ==> s[1] == Note(reminder.value, "system_reminder"))
  {
  }

  lemma {:induction false} JoinedParts(input: Input, c: Context, u: Rules)
    ensures var s, turn, tail := Compacted(input, c, u), TurnAt(input, c), TailAt(input, c);
      && |s| == tail + |c.recent| + |Closing(input.summary, input.reminder)|
      && s[..turn] == Opening(input, c) && s[turn..tail] == AnchoredTurn(c, u)
      && s[tail..tail + |c.recent|] == c.recent && s[tail + |c.recent|..] == Closing(input.summary, input.reminder)
  {
    OpeningStands(input, c);
    TurnStands(c, u);
    JoinedAt(Compacted(input, c, u), Opening(input, c), AnchoredTurn(c, u), c.recent, Closing(input.summary, input.reminder));
  }

  /** A rebuilt history up to its tail: the prompt, the prefix, the instructions, then the query
      with the agent message that it answers. */
  lemma {:induction false} RebuiltHistoryOpens(input: Input, c: Context, u: Rules)
    ensures var s, p, turn := Compacted(input, c, u), Project(input, c), TurnAt(input, c);
      && |s| > TailAt(input, c) && s[0] == System(input.system) && s[1] == Note(input.prefix, "compaction_meta")
      && (p.Some? ==> s[2] == Note(p.value, "project_instructions"))
      && (c.lastQuery.Some? ==> s[turn + One(AnchorFirst(c))] == User([Part.Text(u.wrap(c.lastQuery.value))], Human, ""))
      && (KeepsAnchor(c) ==> s[if AnchorFirst(c) then turn else turn + One(c.lastQuery.Some?)] == c.anchor.value.item)
  {
    OpeningStands(input, c);
    TurnStands(c, u);
    JoinedParts(input, c, u);
  }

  /** From there on: the kept tail, the summary behind it, and the reminder last. */
  lemma {:induction false} RebuiltHistoryCloses(input: Input, c: Context, u: Rules)
    ensures var s, end := Compacted(input, c, u), TailAt(input, c) + |c.recent|;
      && |s| == end + 1 + One(input.reminder.Some?)
      && s[TailAt(input, c)..end] == c.recent && s[end] == Note(input.summary, "compaction_meta")
      && (input.reminder.Some? ==> s[end + 1] == Note(input.reminder.value, "system_reminder"))
  {
    ClosingStands(input.summary, input.reminder);
    JoinedParts(input, c, u);
  }

  // ---------------------------------------------------------------- the messages of the tail

  /** The tail is made of agent messages, assistants and tool results. */
  predicate BelongsToTail(item: Item) {
    item.Assistant? || item.ToolResult? || (item.User? && item.reason == AgentMessage)
  }

  /** An item as it stands in the tail: a tool result keeps its id alone. */
  predicate StandsFor(form: Item, item: Item, u: Rules) {
    if item.ToolResult? then form == ToolResult(item.callId, u.omitted, []) else form == item
  }

  /** The forms are those of the items at `places`. */
  predicate FormsOf(forms: seq<Item>, items: seq<Item>, places: seq<nat>, u: Rules) {
    && |forms| == |places|
    && forall k :: 0 <= k < |places| ==> places[k] < |items| && StandsFor(forms[k], items[places[k]], u)
  }

  lemma FormsFrom(items: seq<Item>, from: nat, u: Rules)
    requires from < |items|
    ensures var forms := RecentForms(items[from + 1..], u);
      if BelongsToTail(items[from]) then
        exists form :: RecentForms(items[from..], u) == [form] + forms && StandsFor(form, items[from], u)
      else RecentForms(items[from..], u) == forms
  {
    assert items[from..][0] == items[from] && items[from..][1..] == items[from + 1..];
    if BelongsToTail(items[from]) {
      assert StandsFor(RecentForm(items[from], u).value, items[from], u);
    }
  }

  lemma FormsWith(form: Item, forms: seq<Item>, items: seq<Item>, from: nat, places: seq<nat>, u: Rules)
    requires from < |items| && StandsFor(form, items[from], u)
    requires Increasing(places, from + 1, |items|) && FormsOf(forms, items, places, u)
    ensures Increasing([from] + places, from, |items|) && FormsOf([form] + forms, items, [from] + places, u)
    ensures forall i :: i in [from] + places <==> i == from || i in places
  {
  }

  lemma {:induction false} FormsStand(items: seq<Item>, from: nat, u: Rules) returns (places: seq<nat>)
    requires from <= |items|
    ensures Increasing(places, from, |items|) && FormsOf(RecentForms(items[from..], u), items, places, u)
    ensures forall i :: from <= i < |items| ==> (i in places <==> BelongsToTail(items[i]))
    decreases |items| - from
  {
    if from == |items| {
      places := [];
    } else {
      places := FormsStand(items, from + 1, u);
      FormsFrom(items, from, u);
      if BelongsToTail(items[from]) {
        var forms := RecentForms(items[from + 1..], u);
        var form :| RecentForms(items[from..], u) == [form] + forms && StandsFor(form, items[from], u);
        FormsWith(form, forms, items, from, places, u);
        places := [from] + places;
      }
    }
  }

  /** The tail keeps, in order, exactly the agent messages, assistants and tool results that no
      anchor follows. */
  lemma TailIs(items: seq<Item>, u: Rules) returns (places: seq<nat>)
    ensures Increasing(places, 0, |items|) && FormsOf(MessagesSinceAnchor(items, u), items, places, u)
    ensures forall i :: 0 <= i < |items| ==>
      (i in places <==> BelongsToTail(items[i]) && forall j :: i < j < |items| ==> !IsAnchor(items[j], u))
  {
    var start := RecentStart(items, u);
    places := FormsStand(items, start, u);
    StartIs(items, u);
  }

  lemma StartIs(items: seq<Item>, u: Rules)
    ensures var start := RecentStart(items, u);
      && (forall j :: start < j < |items| ==> !IsAnchor(items[j], u))
      && (forall i :: 0 <= i < start && BelongsToTail(items[i]) ==> exists j :: i < j < |items| && IsAnchor(items[j], u))
  {
    var b := LastAnchor(items, u);
    assert forall i :: 0 <= i < |items| && IsAnchor(items[i], u) ==> AnchorTest(u)(items[i]);
  }

  // ---------------------------------------------------------------- what is captured before a round

  /** The last item that passes a test stands at `i`. */
  predicate IsLast(items: seq<Item>, i: nat, test: Item -> bool) {
    i < |items| && test(items[i]) && forall j :: i < j < |items| ==> !test(items[j])
  }

  /** The query of the last human turn is captured, all of its text parts included. */
  lemma CapturedQueryIs(items: seq<Item>, i: nat, u: Rules)
    requires IsLast(items, i, RealTest(u))
    ensures LastRealUserQuery(items, u) == Some(u.query(UserText(items[i].parts)))
  {
    assert RealTest(u)(items[i]);
  }

  /** The last agent message is captured with its side of the last human turn. */
  lemma CapturedAgentIs(items: seq<Item>, a: nat, u: Rules)
    requires IsLast(items, a, IsAgentMessage)
    ensures var anchor := LatestAgentMessage(items, u);
      && anchor.Some? && anchor.value.item == items[a]
      && (anchor.value.position == Only <==> forall h :: 0 <= h < |items| ==> !IsRealUserTurn(items[h], u))
      && (anchor.value.position == BeforeHuman <==> exists h :: a < h < |items| && IsRealUserTurn(items[h], u))
  {
    var h := LastReal(items, u);
    assert forall k :: 0 <= k < |items| ==> (RealTest(u)(items[k]) <==> IsRealUserTurn(items[k], u));
    if h.Some? { assert h.value != a; }
  }
}
