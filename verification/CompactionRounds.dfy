/** Capturing state before a compaction and rebuilding the history after it, over any number
    of rounds. */
module CompactionRounds {
  import opened Bytes
  import opened Conversation
  import opened Text
  import SummaryCleaner
  import ToolPairing

  /** The runtime's own texts: its metadata tags, the tag of a query, and the two texts of a
      turn that only continues. */
  datatype RuntimeTexts = RuntimeTexts(tags: seq<string>, query: string, sentinel: string, autoContinue: string)

  function SystemTags(): seq<string> {
    ["user_info", "project_layout", "git_status", "fork-context", "system-reminder", "agent-memory",
     "system_reminder", "background_context", "command-name", "command-message", "command-args", "rules"]
  }

  /** The texts of the source, around the prompt that asks to continue. */
  function SourceTexts(autoContinue: string): RuntimeTexts {
    RuntimeTexts(SystemTags(), "user_query", "__auto_continue__", autoContinue)
  }

  // ---------------------------------------------------------------- extracting a query

  function OpenTag(tag: string): string { "<" + tag + ">" }
  function CloseTag(tag: string): string { "</" + tag + ">" }

  /** The text without the block that `rest` starts with, if its end is found. */
  function CutBlock(lead: string, rest: string, close: string): (r: Option<string>)
    ensures r.Some? && close != "" ==> |r.value| < |lead| + |rest|
  {
    var end := Find(rest, close);
    if end.None? then None else Some(lead + rest[end.value + |close|..])
  }

  /** Closed blocks of one tag, removed from the front; an unclosed one stays. */
  function StripTag(s: string, tag: string): string
    decreases |s|
  {
    var start := Find(s, OpenTag(tag));
    if start.None? then s
    else
      var next := CutBlock(s[..start.value], s[start.value..], CloseTag(tag));
      if next.None? then s else StripTag(next.value, tag)
  }

  function StripTags(s: string, tags: seq<string>): string
    decreases |tags|
  {
    if tags == [] then s else StripTags(StripTag(s, tags[0]), tags[1..])
  }

  function StripSystemTags(s: string, rt: RuntimeTexts): string { Trim(StripTags(s, rt.tags)) }

  /** The bounds of a text that starts at `lo` with `rest` and goes up to the closing tag. */
  function SlotIn(rest: string, lo: nat, close: string): (r: Option<(nat, nat)>)
    ensures r.Some? ==> lo == r.value.0 <= r.value.1 <= lo + |rest|
  {
    var end := Find(rest, close);
    if end.None? then None else Some((lo, lo + end.value))
  }

  /** The bounds of the text between the first opening tag and the first closing tag after it. */
  function Slot(s: string, open: string, close: string): (r: Option<(nat, nat)>)
    ensures r.Some? ==> r.value.0 <= r.value.1 <= |s|
  {
    var start := Find(s, open);
    if start.None? then None
    else
      var lo := start.value + |open|;
      SlotIn(s[lo..], lo, close)
  }

  /** That text, trimmed, else all of it. */
  function Between(s: string, open: string, close: string): string {
    var slot := Slot(s, open, close);
    if slot.None? then s else Trim(s[slot.value.0..slot.value.1])
  }

  function ExtractUserQuery(s: string, rt: RuntimeTexts): string {
    Between(StripSystemTags(s, rt), OpenTag(rt.query), CloseTag(rt.query))
  }

  function Wrap(open: string, q: string, close: string): string { open + "\n" + q + "\n" + close }

  function WrapUserQuery(q: string, rt: RuntimeTexts): string { Wrap(OpenTag(rt.query), q, CloseTag(rt.query)) }

  predicate IsSyntheticQuery(q: string, rt: RuntimeTexts) {
    q == "" || q == rt.sentinel || q == rt.autoContinue
  }

  /** How the query of a turn is read from its text and written into one, which queries only
      continue, and what stands for the content of a tool result. */
  datatype Rules = Rules(query: string -> string, wrap: string -> string, synthetic: string -> bool, omitted: string)

  function RulesOf(rt: RuntimeTexts): Rules {
    Rules((s: string) => ExtractUserQuery(s, rt), (q: string) => WrapUserQuery(q, rt),
          (q: string) => IsSyntheticQuery(q, rt), "Tool call omitted...")
  }

  // ---------------------------------------------------------------- classifying items

  function PartTexts(parts: seq<Part>): seq<string> {
    if parts == [] then [] else (if parts[0].Text? then [parts[0].text] else []) + PartTexts(parts[1..])
  }

  function JoinLines(xs: seq<string>): string {
    if xs == [] then "" else if |xs| == 1 then xs[0] else xs[0] + "\n" + JoinLines(xs[1..])
  }

  function UserText(parts: seq<Part>): string { JoinLines(PartTexts(parts)) }

  predicate IsAgentMessage(item: Item) { item.User? && item.reason == AgentMessage }

  predicate IsRealUserTurn(item: Item, u: Rules) {
    item.User? && item.reason == Human &&
    (HasImage(item.parts) || !u.synthetic(u.query(UserText(item.parts))))
  }

  predicate IsAnchor(item: Item, u: Rules) { IsRealUserTurn(item, u) || IsAgentMessage(item) }

  /** The last item that passes a test. */
  function LastWhere(items: seq<Item>, test: Item -> bool): (r: Option<nat>)
    ensures r.Some? ==> r.value < |items| && test(items[r.value])
    ensures forall i :: 0 <= i < |items| && test(items[i]) ==> r.Some? && i <= r.value
  {
    if items == [] then None
    else
      var n := |items| - 1;
      if test(items[n]) then Some(n) else LastWhere(items[..n], test)
  }

  function RealTest(u: Rules): Item -> bool { (x: Item) => IsRealUserTurn(x, u) }

  function AnchorTest(u: Rules): Item -> bool { (x: Item) => IsAnchor(x, u) }

  function LastReal(items: seq<Item>, u: Rules): Option<nat> { LastWhere(items, RealTest(u)) }

  function LastAgent(items: seq<Item>): Option<nat> { LastWhere(items, IsAgentMessage) }

  function LastAnchor(items: seq<Item>, u: Rules): Option<nat> { LastWhere(items, AnchorTest(u)) }

  // ---------------------------------------------------------------- the captured context

  datatype Position = Only | BeforeHuman | AfterHuman

  datatype Anchor = Anchor(item: Item, position: Position)

  function LastRealUserQuery(items: seq<Item>, u: Rules): Option<string> {
    var i := LastReal(items, u);
    if i.None? then None else Some(u.query(UserText(items[i.value].parts)))
  }

  function LatestAgentMessage(items: seq<Item>, u: Rules): Option<Anchor> {
    var a, h := LastAgent(items), LastReal(items, u);
    if a.None? then None
    else Some(Anchor(items[a.value], if h.None? then Only else if a.value < h.value then BeforeHuman else AfterHuman))
  }

  /** What an item leaves in the recent messages: agent messages, assistants, and tool results
      without their content. */
  function RecentForm(item: Item, u: Rules): Option<Item> {
    match item
    case User(_, reason, _) => if reason == AgentMessage then Some(item) else None
    case Assistant(_, _, _) => Some(item)
    case ToolResult(id, _, _) => Some(ToolResult(id, u.omitted, []))
    case _ => None
  }

  function RecentForms(items: seq<Item>, u: Rules): seq<Item> {
    if items == [] then []
    else (if RecentForm(items[0], u).Some? then [RecentForm(items[0], u).value] else []) + RecentForms(items[1..], u)
  }

  /** Where the recent messages start: at an agent message, or after a human turn. */
  function RecentStart(items: seq<Item>, u: Rules): (r: nat)
    ensures r <= |items|
  {
    var b := LastAnchor(items, u);
    if b.None? then 0 else if IsAgentMessage(items[b.value]) then b.value else b.value + 1
  }

  function MessagesSinceAnchor(items: seq<Item>, u: Rules): seq<Item> {
    RecentForms(items[RecentStart(items, u)..], u)
  }

  datatype Context = Context(
    cwdGeneration: nat, destinationInstructions: Option<string>, anchor: Option<Anchor>,
    recent: seq<Item>, lastQuery: Option<string>)

  function Build(items: seq<Item>, goal: Option<string>, cwdGeneration: nat, instructions: Option<string>, u: Rules): Context {
    Context(cwdGeneration, instructions, LatestAgentMessage(items, u), MessagesSinceAnchor(items, u),
      if goal.Some? && Trim(goal.value) != "" then goal else LastRealUserQuery(items, u))
  }

  /** The compaction view: no working tail, only the anchor. */
  function ForCompaction(c: Context, u: Rules): Context {
    c.(anchor := if c.anchor.Some? then c.anchor else LatestAgentMessage(c.recent, u), recent := [])
  }

  // ---------------------------------------------------------------- the rebuilt history

  function Meta(text: string): Item { User([Part.Text(text)], Runtime("compaction_meta"), "") }

  function Reminder(text: string): Item { User([Part.Text(text)], Runtime("system_reminder"), "") }

  function Instructions(text: string): Item { User([Part.Text(text)], Runtime("project_instructions"), "") }

  function QueryItem(q: string, u: Rules): Item { User([Part.Text(u.wrap(q))], Human, "") }

  /** What one compaction is given besides the context; `summary` is the text that is inserted. */
  datatype Input = Input(
    system: string, prefix: string, agentsMd: Option<string>, summary: string, reminder: Option<string>)

  function Optional(item: Option<Item>): seq<Item> { if item.Some? then [item.value] else [] }

  function Opening(input: Input, c: Context): seq<Item> {
    var project := if c.cwdGeneration == 0 then input.agentsMd else c.destinationInstructions;
    [System(input.system), Meta(input.prefix)] + (if project.Some? then [Instructions(project.value)] else [])
  }

  function Hinted(text: string, hint: Option<string>): string { if hint.Some? then text + hint.value else text }

  function SummaryText(raw: string, hint: Option<string>, g: SummaryCleaner.Tags): string
    requires SummaryCleaner.TagsOk(g)
  { Hinted(SummaryCleaner.FormatCompactSummaryContent(raw, g), hint) }

  function Closing(summary: string, reminder: Option<string>): seq<Item> {
    [Meta(summary)] + (if reminder.Some? then [Reminder(reminder.value)] else [])
  }

  /** The anchor is left out when the recent messages already carry an agent message. */
  function KeptAnchor(c: Context): Option<Anchor> {
    if LastAgent(c.recent).Some? then None else c.anchor
  }

  /** A query with an agent message on the side it was on. */
  function Turn(query: Option<Item>, a: Option<Anchor>): seq<Item> {
    (if a.Some? && a.value.position.BeforeHuman? then [a.value.item] else [])
    + Optional(query)
    + (if a.Some? && !a.value.position.BeforeHuman? then [a.value.item] else [])
  }

  function QueryTurn(c: Context, u: Rules): Option<Item> {
    if c.lastQuery.Some? then Some(QueryItem(c.lastQuery.value, u)) else None
  }

  function AnchoredTurn(c: Context, u: Rules): seq<Item> { Turn(QueryTurn(c, u), KeptAnchor(c)) }

  function Compacted(input: Input, c: Context, u: Rules): seq<Item> {
    Opening(input, c) + AnchoredTurn(c, u) + c.recent + Closing(input.summary, input.reminder)
  }

  method PushOpening(input: Input, c: Context) returns (r: seq<Item>)
    ensures r == Opening(input, c)
  {
    r := [System(input.system), Meta(input.prefix)];
    var project := if c.cwdGeneration == 0 then input.agentsMd else c.destinationInstructions;
    if project.Some? { r := r + [Instructions(project.value)]; }
  }

  method PushTurn(head: seq<Item>, c: Context, u: Rules) returns (r: seq<Item>)
    ensures r == head + AnchoredTurn(c, u)
  {
    r := head;
    var anchor := KeptAnchor(c);
    if anchor.Some? && anchor.value.position.BeforeHuman? { r := r + [anchor.value.item]; }
    if c.lastQuery.Some? { r := r + [QueryItem(c.lastQuery.value, u)]; }
    if anchor.Some? && !anchor.value.position.BeforeHuman? { r := r + [anchor.value.item]; }
  }

  method PushRecent(head: seq<Item>, recent: seq<Item>) returns (r: seq<Item>)
    ensures r == head + recent
  {
    r := head;
    for i := 0 to |recent|
      invariant r == head + recent[..i]
    {
      r := r + [recent[i]];
    }
    assert recent[..|recent|] == recent;
  }

  method PushClosing(head: seq<Item>, summary: string, reminder: Option<string>) returns (r: seq<Item>)
    ensures r == head + Closing(summary, reminder)
  {
    r := head + [Meta(summary)];
    if reminder.Some? { r := r + [Reminder(reminder.value)]; }
  }

  method BuildCompactedHistory(
    system: string, prefix: string, agentsMd: Option<string>, raw: string, hint: Option<string>,
    reminder: Option<string>, c: Context, u: Rules, g: SummaryCleaner.Tags)
    returns (r: seq<Item>)
    requires SummaryCleaner.TagsOk(g)
    ensures r == Compacted(Input(system, prefix, agentsMd, SummaryText(raw, hint, g), reminder), c, u)
  {
    var summary := AddHint(SummaryCleaner.FormatCompactSummaryContent(raw, g), hint);
    r := AssembleHistory(Input(system, prefix, agentsMd, summary, reminder), c, u);
  }

  method AddHint(text: string, hint: Option<string>) returns (summary: string)
    ensures summary == Hinted(text, hint)
  {
    summary := text;
    if hint.Some? { summary := summary + hint.value; }
  }

  method AssembleHistory(input: Input, c: Context, u: Rules) returns (r: seq<Item>)
    ensures r == Compacted(input, c, u)
  {
    r := PushOpening(input, c);
    r := PushTurn(r, c, u);
    r := PushRecent(r, c.recent);
    r := PushClosing(r, input.summary, input.reminder);
  }

  // ---------------------------------------------------------------- re-extracting a wrapped query

  /** A query with no literal that the extraction would act on. */
  predicate TagFree(q: string, rt: RuntimeTexts) {
    && (forall k :: 0 <= k < |rt.tags| ==> !Contains(q, OpenTag(rt.tags[k])))
    && !Contains(q, CloseTag(rt.query))
  }

  predicate PlainName(t: string) { t != "" && forall i :: 0 <= i < |t| ==> t[i] != '<' && t[i] != '>' && t[i] != '/' && t[i] != '\n' }

  /** The tags are plain names and none of them is the query tag. */
  predicate TagsOk(rt: RuntimeTexts) {
    PlainName(rt.query) && forall k :: 0 <= k < |rt.tags| ==> PlainName(rt.tags[k]) && rt.tags[k] != rt.query
  }

  /** A tag occurs in another tag only if the two are the same. */
  lemma TagsApart(n: string, t: string)
    requires PlainName(t) && '<' !in n && '>' !in n
    ensures Contains(OpenTag(n), OpenTag(t)) ==> n == t
  {
    var a, b := OpenTag(n), OpenTag(t);
    assert forall k :: 1 <= k <= |n| ==> a[k] == n[k - 1];
    assert forall k :: 1 <= k <= |t| ==> b[k] == t[k - 1];
    if Contains(a, b) {
      var i :| 0 <= i <= |a| && At(a, b, i);
      assert b[0] == '<' && b[|t| + 1] == '>';
      assert a[i..i + |b|] == b;
      assert a[i] == b[0] && a[i + |t| + 1] == b[|t| + 1];
      assert i == 0 && |t| == |n|;
      assert forall k :: 0 <= k < |t| ==> n[k] == a[k + 1] && t[k] == b[k + 1];
      assert n == t;
    }
  }

  lemma StripNothing(s: string, tag: string)
    requires !Contains(s, OpenTag(tag))
    ensures StripTag(s, tag) == s
  {
    FindIffContains(s, OpenTag(tag));
  }

  lemma {:induction false} StripNoTags(s: string, tags: seq<string>)
    requires forall k :: 0 <= k < |tags| ==> !Contains(s, OpenTag(tags[k]))
    ensures StripTags(s, tags) == s
    decreases |tags|
  {
    if tags != [] {
      StripNothing(s, tags[0]);
      StripNoTags(s, tags[1..]);
    }
  }

  lemma WrappedHasNoTag(open: string, q: string, close: string, tag: string)
    requires '\n' !in tag
    requires !Contains(open, OpenTag(tag)) && !Contains(q, OpenTag(tag)) && !Contains(close, OpenTag(tag))
    ensures !Contains(Wrap(open, q, close), OpenTag(tag))
  {
    var t := OpenTag(tag);
    var s := Wrap(open, q, close);
    assert s == (open + ['\n'] + q) + ['\n'] + close;
    if Contains(s, t) {
      ContainsAcross(open + ['\n'] + q, '\n', close, t);
      ContainsAcross(open, '\n', q, t);
    }
  }

  /** The closing tag of a wrapped query is first found behind the query. */
  lemma FindClose(q: string, close: string)
    requires close != [] && !Contains(q, close) && '\n' !in close
    ensures Find("\n" + q + "\n" + close, close) == Some(|q| + 2)
  {
    var rest := "\n" + q + "\n" + close;
    assert rest[|q| + 2..] == close;
    assert At(rest, close, |q| + 2);
    var f := Find(rest, close);
    if f.value < |q| + 2 {
      EarlyOccurrence(q, close, f.value);
    }
  }

  lemma EarlyOccurrence(q: string, close: string, i: nat)
    requires close != [] && i < |q| + 2 && At("\n" + q + "\n" + close, close, i)
    ensures Contains(q, close) || '\n' in close
  {
    var rest := "\n" + q + "\n" + close;
    var hit := rest[i..i + |close|];
    assert rest[0] == '\n' && rest[|q| + 1] == '\n';
    if i == 0 {
      assert hit[0] == '\n';
    } else if i + |close| > |q| + 1 {
      assert hit[|q| + 1 - i] == '\n';
    } else {
      assert q[i - 1..i - 1 + |close|] == hit;
      assert At(q, close, i - 1);
    }
  }

  lemma OpenFoundFirst(open: string, rest: string)
    requires open != []
    ensures Find(open + rest, open) == Some(0)
  {
    assert (open + rest)[0..|open|] == open;
    assert At(open + rest, open, 0);
  }

  lemma WrapParts(open: string, body: string, q: string, close: string)
    requires body == "\n" + q + "\n"
    ensures Wrap(open, q, close) == open + (body + close) && |body| == |q| + 2
  {
  }

  lemma WrappedSlot(open: string, q: string, close: string)
    requires open != [] && close != [] && '\n' !in close && !Contains(q, close)
    ensures Slot(Wrap(open, q, close), open, close) == Some((|open|, |open| + |q| + 2))
    ensures Wrap(open, q, close)[|open|..|open| + |q| + 2] == "\n" + q + "\n"
  {
    var body := "\n" + q + "\n";
    FindClose(q, close);
    MiddleOf(open, body, close);
    WrapParts(open, body, q, close);
    SlotInFront(Wrap(open, q, close), open, body + close, close, |body|);
  }

  lemma MiddleOf(open: string, body: string, close: string)
    ensures (open + (body + close))[|open|..|open| + |body|] == body
  {
  }

  lemma SlotInFront(s: string, open: string, rest: string, close: string, end: nat)
    requires open != [] && s == open + rest && Find(rest, close) == Some(end)
    ensures Slot(s, open, close) == Some((|open|, |open| + end))
  {
    OpenFoundFirst(open, rest);
    assert s[|open|..] == rest;
    SlotBehind(s, open, rest, close, end);
  }

  lemma BetweenWrapped(open: string, q: string, close: string)
    requires open != [] && close != [] && '\n' !in close
    requires !Contains(q, close) && Trimmed(q)
    ensures Between(Wrap(open, q, close), open, close) == q
  {
    WrappedSlot(open, q, close);
    PaddedTrims(q, "\n");
  }

  lemma SlotBehind(s: string, open: string, rest: string, close: string, end: nat)
    requires Find(s, open) == Some(0) && |open| <= |s| && s[|open|..] == rest && Find(rest, close) == Some(end)
    ensures Slot(s, open, close) == Some((|open|, |open| + end))
  {
  }

  lemma PaddedTrims(q: string, pad: string)
    requires Trimmed(q) && |pad| == 1 && IsSpace(pad[0])
    ensures Trim(pad + q + pad) == q
  {
    if q != "" {
      TrimPadded(pad, q, pad);
    } else {
      TrimSpaces(pad + q + pad);
    }
  }

  lemma {:induction false} TrimSpaces(s: string)
    requires forall i :: 0 <= i < |s| ==> IsSpace(s[i])
    ensures Trim(s) == ""
  {
    if s != [] { TrimSpaces(s[1..]); }
  }

  lemma WrappedIsTrimmed(open: string, q: string, close: string)
    requires open != [] && !IsSpace(open[0]) && close != [] && !IsSpace(close[|close| - 1])
    ensures Trim(Wrap(open, q, close)) == Wrap(open, q, close)
  {
    var w := Wrap(open, q, close);
    assert w[0] == open[0] && w[|w| - 1] == close[|close| - 1];
    TrimIsTrimmed(w);
  }

  lemma WrappedSurvives(open: string, q: string, close: string, tags: seq<string>)
    requires forall k :: 0 <= k < |tags| ==>
      '\n' !in tags[k] && !Contains(open, OpenTag(tags[k])) && !Contains(q, OpenTag(tags[k])) && !Contains(close, OpenTag(tags[k]))
    ensures StripTags(Wrap(open, q, close), tags) == Wrap(open, q, close)
  {
    forall k | 0 <= k < |tags| ensures !Contains(Wrap(open, q, close), OpenTag(tags[k])) {
      WrappedHasNoTag(open, q, close, tags[k]);
    }
    StripNoTags(Wrap(open, q, close), tags);
  }

  lemma RewrapText(open: string, q: string, close: string, tags: seq<string>)
    requires forall k :: 0 <= k < |tags| ==>
      '\n' !in tags[k] && !Contains(open, OpenTag(tags[k])) && !Contains(q, OpenTag(tags[k])) && !Contains(close, OpenTag(tags[k]))
    requires open != [] && !IsSpace(open[0]) && close != [] && !IsSpace(close[|close| - 1]) && '\n' !in close
    requires !Contains(q, close) && Trimmed(q)
    ensures Between(Trim(StripTags(Wrap(open, q, close), tags)), open, close) == q
  {
    WrappedSurvives(open, q, close, tags);
    WrappedIsTrimmed(open, q, close);
    BetweenWrapped(open, q, close);
  }

  /** Wrapping and extracting again gives back a trimmed, tag-free query. */
  lemma RewrapExtract(q: string, rt: RuntimeTexts)
    requires TagsOk(rt) && TagFree(q, rt) && Trimmed(q)
    ensures ExtractUserQuery(WrapUserQuery(q, rt), rt) == q
  {
    var n := rt.query;
    var n' := "/" + n;
    assert CloseTag(n) == OpenTag(n');
    assert n'[0] == '/' && '<' !in n' && '>' !in n';
    forall k | 0 <= k < |rt.tags|
      ensures '\n' !in rt.tags[k] && !Contains(OpenTag(n), OpenTag(rt.tags[k])) && !Contains(CloseTag(n), OpenTag(rt.tags[k]))
    {
      TagsApart(n, rt.tags[k]);
      TagsApart(n', rt.tags[k]);
    }
    RewrapText(OpenTag(n), q, CloseTag(n), rt.tags);
  }

  lemma BetweenIsTrimmed(s: string, open: string, close: string)
    requires Trimmed(s)
    ensures Trimmed(Between(s, open, close))
  {
    var slot := Slot(s, open, close);
    if slot.Some? { TrimIsTrimmed(s[slot.value.0..slot.value.1]); }
  }

  lemma ExtractedIsTrimmed(s: string, rt: RuntimeTexts)
    ensures Trimmed(ExtractUserQuery(s, rt))
  {
    TrimIsTrimmed(StripTags(s, rt.tags));
    BetweenIsTrimmed(StripSystemTags(s, rt), OpenTag(rt.query), CloseTag(rt.query));
  }

  lemma ExtractedRewraps(s: string, q: string, rt: RuntimeTexts)
    requires TagsOk(rt) && q == ExtractUserQuery(s, rt) && TagFree(q, rt)
    ensures ExtractUserQuery(WrapUserQuery(q, rt), rt) == q
  {
    ExtractedIsTrimmed(s, rt);
    RewrapExtract(q, rt);
  }

  // ---------------------------------------------------------------- what a compaction must keep

  /** The last human query, the latest agent message, and which of the two comes first. */
  datatype View = View(query: Option<string>, agent: Option<Item>, agentFirst: bool)

  function ViewOf(items: seq<Item>, u: Rules): View {
    var a, h := LastAgent(items), LastReal(items, u);
    View(LastRealUserQuery(items, u), if a.Some? then Some(items[a.value]) else None,
      a.Some? && h.Some? && a.value < h.value)
  }

  function AgentCount(items: seq<Item>): nat {
    if items == [] then 0 else (if IsAgentMessage(items[0]) then 1 else 0) + AgentCount(items[1..])
  }

  predicate NoAnchors(items: seq<Item>, u: Rules) {
    forall i :: 0 <= i < |items| ==> !IsAnchor(items[i], u)
  }

  lemma {:induction false} AgentCountConcat(a: seq<Item>, b: seq<Item>)
    ensures AgentCount(a + b) == AgentCount(a) + AgentCount(b)
  {
    if a == [] {
      assert a + b == b;
    } else {
      assert (a + b)[1..] == a[1..] + b;
      AgentCountConcat(a[1..], b);
    }
  }

  lemma {:induction false} NoAnchorsNoAgents(items: seq<Item>, u: Rules)
    requires NoAnchors(items, u)
    ensures AgentCount(items) == 0
  {
    if items != [] { NoAnchorsNoAgents(items[1..], u); }
  }

  /** Items that fail a test, around a list, shift its last match and nothing else. */
  lemma {:induction false} LastWhereAround(pre: seq<Item>, mid: seq<Item>, post: seq<Item>, test: Item -> bool)
    requires forall i :: 0 <= i < |pre| ==> !test(pre[i])
    requires forall i :: 0 <= i < |post| ==> !test(post[i])
    ensures LastWhere(pre + mid + post, test) ==
      if LastWhere(mid, test).Some? then Some(|pre| + LastWhere(mid, test).value) else None
    decreases |mid| + |post|
  {
    var s := pre + mid + post;
    if post != [] {
      var n := |post| - 1;
      assert s[|s| - 1] == post[n] && s[..|s| - 1] == pre + mid + post[..n];
      LastWhereAround(pre, mid, post[..n], test);
    } else if mid != [] {
      var n := |mid| - 1;
      assert s[|s| - 1] == mid[n] && s[..|s| - 1] == pre + mid[..n] + [];
      LastWhereAround(pre, mid[..n], [], test);
    } else {
      assert s == pre;
    }
  }

  lemma ViewAround(pre: seq<Item>, mid: seq<Item>, post: seq<Item>, u: Rules)
    requires NoAnchors(pre, u) && NoAnchors(post, u)
    ensures ViewOf(pre + mid + post, u) == ViewOf(mid, u)
    ensures AgentCount(pre + mid + post) == AgentCount(mid)
  {
    LastWhereAround(pre, mid, post, RealTest(u));
    LastWhereAround(pre, mid, post, IsAgentMessage);
    NoAnchorsNoAgents(pre, u);
    NoAnchorsNoAgents(post, u);
    AgentCountConcat(pre + mid, post);
    AgentCountConcat(pre, mid);
  }

  /** Writing a query into a turn and reading it back gives the same query. */
  predicate QueryOk(q: Option<string>, u: Rules) { q.Some? ==> u.query(u.wrap(q.value)) == q.value }

  lemma QueryItemIsReal(q: string, u: Rules)
    requires u.query(u.wrap(q)) == q
    ensures IsRealUserTurn(QueryItem(q, u), u) <==> !u.synthetic(q)
    ensures u.query(UserText(QueryItem(q, u).parts)) == q
  {
    var parts := [Part.Text(u.wrap(q))];
    assert parts[1..] == [];
    assert PartTexts(parts) == [u.wrap(q)];
  }

  /** The query that is still a query after one more extraction. */
  function KeptQuery(q: Option<string>, u: Rules): Option<string> {
    if q.Some? && !u.synthetic(q.value) then q else None
  }

  /** A context without working tail, as the compaction view of a conversation has it. */
  predicate Settled(c: Context) {
    && c.recent == []
    && (c.anchor.Some? ==> IsAgentMessage(c.anchor.value.item))
    && (c.anchor.Some? ==> (c.anchor.value.position.Only? <==> c.lastQuery.None?))
  }

  lemma TurnAnchors(query: Option<Item>, a: Option<Anchor>, u: Rules)
    requires query.Some? ==> !IsAgentMessage(query.value)
    requires a.Some? ==> IsAgentMessage(a.value.item)
    ensures AgentCount(Turn(query, a)) == if a.Some? then 1 else 0
    ensures var n := if a.Some? && a.value.position.BeforeHuman? then 1 else 0;
      LastReal(Turn(query, a), u) == if query.Some? && IsRealUserTurn(query.value, u) then Some(n) else None
    ensures var n := if query.Some? && !(a.Some? && a.value.position.BeforeHuman?) then 1 else 0;
      LastAgent(Turn(query, a)) == if a.Some? then Some(n) else None
  {
    var turn := Turn(query, a);
    if query.Some? && a.Some? {
      var q, agent := query.value, a.value.item;
      if a.value.position.BeforeHuman? {
        PairView(agent, q, u);
        assert turn == [agent, q];
      } else {
        PairView(q, agent, u);
        assert turn == [q, agent];
      }
    } else if query.Some? {
      SingleView(query.value, u);
      assert turn == [query.value];
    } else if a.Some? {
      SingleView(a.value.item, u);
      assert turn == [a.value.item];
    }
  }

  lemma TurnItems(query: Option<Item>, a: Option<Anchor>)
    ensures var n := if a.Some? && a.value.position.BeforeHuman? then 1 else 0;
      query.Some? ==> n < |Turn(query, a)| && Turn(query, a)[n] == query.value
    ensures var n := if query.Some? && !(a.Some? && a.value.position.BeforeHuman?) then 1 else 0;
      a.Some? ==> n < |Turn(query, a)| && Turn(query, a)[n] == a.value.item
  {
  }

  /** The view of an anchored turn is the context it was built from. */
  lemma TurnView(c: Context, u: Rules)
    requires QueryOk(c.lastQuery, u) && Settled(c)
    ensures ViewOf(AnchoredTurn(c, u), u) ==
      View(KeptQuery(c.lastQuery, u), if c.anchor.Some? then Some(c.anchor.value.item) else None,
           c.anchor.Some? && c.anchor.value.position.BeforeHuman? && KeptQuery(c.lastQuery, u).Some?)
    ensures AgentCount(AnchoredTurn(c, u)) == if c.anchor.Some? then 1 else 0
  {
    if c.lastQuery.Some? { QueryItemIsReal(c.lastQuery.value, u); }
    TurnAnchors(QueryTurn(c, u), c.anchor, u);
    TurnItems(QueryTurn(c, u), c.anchor);
  }

  lemma SingleView(x: Item, u: Rules)
    ensures LastReal([x], u) == if IsRealUserTurn(x, u) then Some(0) else None
    ensures LastAgent([x]) == if IsAgentMessage(x) then Some(0) else None
    ensures AgentCount([x]) == if IsAgentMessage(x) then 1 else 0
  {
    assert [x][..0] == [] && [x][1..] == [];
  }

  lemma PairView(x: Item, y: Item, u: Rules)
    ensures LastReal([x, y], u) == if IsRealUserTurn(y, u) then Some(1) else if IsRealUserTurn(x, u) then Some(0) else None
    ensures LastAgent([x, y]) == if IsAgentMessage(y) then Some(1) else if IsAgentMessage(x) then Some(0) else None
    ensures AgentCount([x, y]) == (if IsAgentMessage(x) then 1 else 0) + (if IsAgentMessage(y) then 1 else 0)
  {
    SingleView(x, u);
    SingleView(y, u);
    assert [x, y][..1] == [x] && [x, y][1..] == [y];
  }

  // ---------------------------------------------------------------- one round

  /** Recent messages hold every agent message and no human turn. */
  lemma {:induction false} RecentHasNoHuman(items: seq<Item>, u: Rules)
    ensures forall i :: 0 <= i < |RecentForms(items, u)| ==> !IsRealUserTurn(RecentForms(items, u)[i], u)
    ensures AgentCount(RecentForms(items, u)) == AgentCount(items)
  {
    if items != [] {
      var head := if RecentForm(items[0], u).Some? then [RecentForm(items[0], u).value] else [];
      RecentHasNoHuman(items[1..], u);
      AgentCountConcat(head, RecentForms(items[1..], u));
      if head != [] { assert head[1..] == []; }
    }
  }

  lemma {:induction false} CountZeroIff(items: seq<Item>)
    ensures AgentCount(items) == 0 <==> forall i :: 0 <= i < |items| ==> !IsAgentMessage(items[i])
  {
    if items != [] {
      CountZeroIff(items[1..]);
      assert forall i :: 1 <= i < |items| ==> items[i] == items[1..][i - 1];
      assert forall i :: 0 <= i < |items[1..]| ==> items[1..][i] == items[i + 1];
    }
  }

  lemma RecentOfNoAnchors(items: seq<Item>, u: Rules)
    requires NoAnchors(items, u)
    ensures NoAnchors(RecentForms(items, u), u)
  {
    NoAnchorsNoAgents(items, u);
    RecentHasNoHuman(items, u);
    CountZeroIff(RecentForms(items, u));
  }

  /** Behind the last anchor there is none; an agent message there is the last one of the whole. */
  lemma LastAnchorFacts(items: seq<Item>, b: nat, u: Rules)
    requires LastAnchor(items, u) == Some(b)
    ensures NoAnchors(items[b + 1..], u)
    ensures IsAgentMessage(items[b]) ==> LastAgent(items) == Some(b) && (LastReal(items, u).Some? ==> LastReal(items, u).value < b)
  {
    var rest := items[b + 1..];
    forall i | 0 <= i < |rest| ensures !IsAnchor(rest[i], u) {
      assert rest[i] == items[b + 1 + i];
    }
  }

  /** With its working tail kept, a context gives the same turn followed by items that anchor nothing. */
  lemma TailAddsNoAnchor(items: seq<Item>, cwd: nat, instructions: Option<string>, u: Rules) returns (tail: seq<Item>)
    ensures NoAnchors(tail, u)
    ensures var c := Build(items, None, cwd, instructions, u);
      AnchoredTurn(c, u) + c.recent == AnchoredTurn(ForCompaction(c, u), u) + tail
  {
    var c := Build(items, None, cwd, instructions, u);
    var last := LastAnchor(items, u);
    if last.Some? && IsAgentMessage(items[last.value]) {
      var b := last.value;
      LastAnchorFacts(items, b, u);
      tail := RecentForms(items[b + 1..], u);
      RecentOfNoAnchors(items[b + 1..], u);
      assert items[b..][0] == items[b] && items[b..][1..] == items[b + 1..];
      AgentLeadsTail(c, LatestAgentMessage(items, u).value, tail, u);
    } else {
      tail := c.recent;
      if last.Some? {
        LastAnchorFacts(items, last.value, u);
      } else {
        assert items[0..] == items;
      }
      RecentOfNoAnchors(items[RecentStart(items, u)..], u);
      NoAgentInTail(c, u);
    }
  }

  lemma AgentLeadsTail(c: Context, a: Anchor, tail: seq<Item>, u: Rules)
    requires c.anchor == Some(a) && IsAgentMessage(a.item) && !a.position.BeforeHuman?
    requires c.recent == [a.item] + tail
    ensures AnchoredTurn(c, u) + c.recent == AnchoredTurn(ForCompaction(c, u), u) + tail
  {
    assert IsAgentMessage(c.recent[0]);
    AgentBehindQuery(QueryTurn(c, u), a, tail);
  }

  lemma AgentBehindQuery(query: Option<Item>, a: Anchor, tail: seq<Item>)
    requires !a.position.BeforeHuman?
    ensures Turn(query, None) + ([a.item] + tail) == Turn(query, Some(a)) + tail
  {
  }

  lemma NoAgentInTail(c: Context, u: Rules)
    requires NoAnchors(c.recent, u)
    ensures AnchoredTurn(c, u) == AnchoredTurn(ForCompaction(c, u), u)
  {
  }

  lemma OpeningHasNoAnchor(input: Input, c: Context, u: Rules)
    ensures NoAnchors(Opening(input, c), u)
  {
  }

  lemma ClosingHasNoAnchor(summary: string, reminder: Option<string>, u: Rules)
    ensures NoAnchors(Closing(summary, reminder), u)
  {
  }

  lemma CompactedView(input: Input, c: Context, turn: seq<Item>, tail: seq<Item>, u: Rules)
    requires AnchoredTurn(c, u) + c.recent == turn + tail && NoAnchors(tail, u)
    ensures ViewOf(Compacted(input, c, u), u) == ViewOf(turn, u)
    ensures AgentCount(Compacted(input, c, u)) == AgentCount(turn)
  {
    var pre, post := Opening(input, c), Closing(input.summary, input.reminder);
    OpeningHasNoAnchor(input, c, u);
    ClosingHasNoAnchor(input.summary, input.reminder, u);
    RegroupInner(pre, AnchoredTurn(c, u), c.recent, post, turn, tail);
    ViewAround(pre, turn, tail + post, u);
  }

  lemma RegroupInner<T>(a: seq<T>, b: seq<T>, c: seq<T>, d: seq<T>, b': seq<T>, c': seq<T>)
    requires b + c == b' + c'
    ensures a + b + c + d == a + b' + (c' + d)
  {
    assert a + b + c + d == a + (b + c) + d;
    assert a + b' + (c' + d) == a + (b' + c') + d;
  }

  lemma BuiltIsSettled(items: seq<Item>, cwd: nat, instructions: Option<string>, u: Rules)
    ensures Settled(ForCompaction(Build(items, None, cwd, instructions, u), u))
    ensures ForCompaction(Build(items, None, cwd, instructions, u), u).anchor == LatestAgentMessage(items, u)
    ensures ForCompaction(Build(items, None, cwd, instructions, u), u).lastQuery == LastRealUserQuery(items, u)
  {
    if LastAgent(items).None? {
      var rest := items[RecentStart(items, u)..];
      CountZeroIff(rest);
      RecentHasNoHuman(rest, u);
      CountZeroIff(RecentForms(rest, u));
    }
  }

  /** One compaction, with or without its working tail. */
  function Round(items: seq<Item>, step: Step, u: Rules): seq<Item> {
    var c := Build(items, None, step.cwdGeneration, step.instructions, u);
    Compacted(step.input, if step.keepTail then c else ForCompaction(c, u), u)
  }

  datatype Step = Step(input: Input, cwdGeneration: nat, instructions: Option<string>, keepTail: bool, work: seq<Item>)

  /** A round keeps the latest agent message verbatim and exactly once, the last query unless
      its text is empty or a continuation, and their order. */
  lemma RoundView(items: seq<Item>, step: Step, u: Rules)
    requires QueryOk(LastRealUserQuery(items, u), u)
    ensures var v := ViewOf(items, u); var q := KeptQuery(v.query, u);
      && ViewOf(Round(items, step, u), u) == View(q, v.agent, v.agentFirst && q.Some?)
      && AgentCount(Round(items, step, u)) == if v.agent.Some? then 1 else 0
  {
    var c := Build(items, None, step.cwdGeneration, step.instructions, u);
    var f := ForCompaction(c, u);
    BuiltIsSettled(items, step.cwdGeneration, step.instructions, u);
    TurnView(f, u);
    var turn := AnchoredTurn(f, u);
    var tail := TailAddsNoAnchor(items, step.cwdGeneration, step.instructions, u);
    if step.keepTail {
      CompactedView(step.input, c, turn, tail, u);
    } else {
      CompactedView(step.input, f, turn, [], u);
    }
  }

  // ---------------------------------------------------------------- views of joined histories

  lemma {:induction false} LastWhereConcat(a: seq<Item>, b: seq<Item>, test: Item -> bool)
    ensures LastWhere(a + b, test) ==
      if LastWhere(b, test).Some? then Some(|a| + LastWhere(b, test).value) else LastWhere(a, test)
    decreases |b|
  {
    if b == [] {
      assert a + b == a;
    } else {
      var n := |b| - 1;
      assert (a + b)[|a + b| - 1] == b[n] && (a + b)[..|a + b| - 1] == a + b[..n];
      LastWhereConcat(a, b[..n], test);
    }
  }

  /** The view of a history followed by another. */
  function Combined(v: View, w: View): View {
    View(if w.query.Some? then w.query else v.query,
         if w.agent.Some? then w.agent else v.agent,
         if w.query.Some? && w.agent.Some? then w.agentFirst
         else if w.query.Some? then v.agent.Some?
         else if w.agent.Some? then false else v.agentFirst)
  }

  lemma ViewConcat(a: seq<Item>, b: seq<Item>, u: Rules)
    ensures ViewOf(a + b, u) == Combined(ViewOf(a, u), ViewOf(b, u))
  {
    LastWhereConcat(a, b, RealTest(u));
    LastWhereConcat(a, b, IsAgentMessage);
  }

  // ---------------------------------------------------------------- any number of rounds

  /** Compactions one after the other, each followed by whatever is added until the next. */
  function Rounds(items: seq<Item>, steps: seq<Step>, u: Rules): seq<Item>
    decreases |steps|
  {
    if steps == [] then items else Rounds(Round(items, steps[0], u) + steps[0].work, steps[1..], u)
  }

  function AllWork(steps: seq<Step>): seq<Item> {
    if steps == [] then [] else steps[0].work + AllWork(steps[1..])
  }

  /** A last query, if there is one, that survives a compaction. */
  predicate Survives(q: Option<string>, u: Rules) { QueryOk(q, u) && (q.Some? ==> !u.synthetic(q.value)) }

  lemma RoundAndWork(items: seq<Item>, step: Step, u: Rules)
    requires Survives(LastRealUserQuery(items, u), u) && Survives(LastRealUserQuery(step.work, u), u)
    ensures var next := Round(items, step, u) + step.work;
      && ViewOf(next, u) == ViewOf(items + step.work, u)
      && Survives(LastRealUserQuery(next, u), u)
      && AgentCount(next) == (if LastAgent(items).Some? then 1 else 0) + AgentCount(step.work)
  {
    RoundView(items, step, u);
    ViewConcat(Round(items, step, u), step.work, u);
    ViewConcat(items, step.work, u);
    AgentCountConcat(Round(items, step, u), step.work);
    SurvivorsCombine(ViewOf(items, u), ViewOf(step.work, u), u);
  }

  lemma SurvivorsCombine(v: View, w: View, u: Rules)
    requires Survives(v.query, u) && Survives(w.query, u)
    ensures Survives(Combined(v, w).query, u)
  {
  }

  lemma {:induction false} RoundsView(items: seq<Item>, steps: seq<Step>, u: Rules)
    requires Survives(LastRealUserQuery(items, u), u)
    requires forall k :: 0 <= k < |steps| ==> Survives(LastRealUserQuery(steps[k].work, u), u)
    ensures ViewOf(Rounds(items, steps, u), u) == ViewOf(items + AllWork(steps), u)
    ensures Survives(LastRealUserQuery(Rounds(items, steps, u), u), u)
    decreases |steps|
  {
    if steps == [] {
      assert items + [] == items;
    } else {
      var next, work, rest := Round(items, steps[0], u) + steps[0].work, steps[0].work, AllWork(steps[1..]);
      RoundAndWork(items, steps[0], u);
      RoundsView(next, steps[1..], u);
      WorkBehind(items, work, next, rest, u);
    }
  }

  lemma WorkBehind(items: seq<Item>, work: seq<Item>, next: seq<Item>, rest: seq<Item>, u: Rules)
    requires ViewOf(next, u) == ViewOf(items + work, u)
    ensures ViewOf(next + rest, u) == ViewOf(items + (work + rest), u)
  {
    ViewConcat(next, rest, u);
    ViewConcat(items + work, rest, u);
    Regroup(items, work, rest);
  }

  lemma {:induction false} RoundsSnoc(items: seq<Item>, earlier: seq<Step>, last: Step, u: Rules)
    ensures Rounds(items, earlier + [last], u) == Round(Rounds(items, earlier, u), last, u) + last.work
    decreases |earlier|
  {
    if earlier == [] {
      assert [] + [last] == [last] && [last][1..] == [];
    } else {
      assert (earlier + [last])[1..] == earlier[1..] + [last];
      RoundsSnoc(Round(items, earlier[0], u) + earlier[0].work, earlier[1..], last, u);
    }
  }

  /** After the last round: the agent message from before it once, and those that came since. */
  lemma RoundsAgents(items: seq<Item>, earlier: seq<Step>, last: Step, u: Rules)
    requires Survives(LastRealUserQuery(items, u), u) && Survives(LastRealUserQuery(last.work, u), u)
    requires forall k :: 0 <= k < |earlier| ==> Survives(LastRealUserQuery(earlier[k].work, u), u)
    ensures AgentCount(Rounds(items, earlier + [last], u)) ==
      (if LastAgent(items + AllWork(earlier)).Some? then 1 else 0) + AgentCount(last.work)
  {
    var before := Rounds(items, earlier, u);
    RoundsView(items, earlier, u);
    SameAgents(before, items + AllWork(earlier), u);
    RoundsSnoc(items, earlier, last, u);
    RoundAndWork(before, last, u);
  }

  lemma SameAgents(a: seq<Item>, b: seq<Item>, u: Rules)
    requires ViewOf(a, u) == ViewOf(b, u)
    ensures LastAgent(a).Some? <==> LastAgent(b).Some?
  {
    assert ViewOf(a, u).agent.Some? <==> LastAgent(a).Some?;
  }

  // ---------------------------------------------------------------- with the texts of the runtime

  lemma LastQueryIsRead(items: seq<Item>, u: Rules) returns (text: string)
    ensures LastRealUserQuery(items, u).Some? ==> LastRealUserQuery(items, u).value == u.query(text)
  {
    var h := LastReal(items, u);
    text := if h.Some? then UserText(items[h.value].parts) else "";
  }

  /** What is read from a turn and tag-free can be written into one and read again. */
  ghost predicate Faithful(u: Rules, rt: RuntimeTexts) {
    forall s, q :: q == u.query(s) && TagFree(q, rt) ==> u.query(u.wrap(q)) == q
  }

  lemma RulesAreFaithful(u: Rules, rt: RuntimeTexts)
    requires TagsOk(rt) && u == RulesOf(rt)
    ensures Faithful(u, rt)
  {
    forall s, q | q == u.query(s) && TagFree(q, rt) ensures u.query(u.wrap(q)) == q {
      ExtractedRewraps(s, q, rt);
    }
  }

  lemma TagFreeIsOk(items: seq<Item>, u: Rules, rt: RuntimeTexts)
    requires Faithful(u, rt)
    requires var q := LastRealUserQuery(items, u); q.Some? ==> TagFree(q.value, rt)
    ensures QueryOk(LastRealUserQuery(items, u), u)
  {
    var text := LastQueryIsRead(items, u);
    var q := LastRealUserQuery(items, u);
    if q.Some? { assert q.value == u.query(text); }
  }

  /** A tag-free query survives a round exactly when its text is neither empty nor a
      continuation; an image-only turn is therefore lost. */
  lemma RoundKeepsViewIff(items: seq<Item>, step: Step, rt: RuntimeTexts)
    requires TagsOk(rt)
    requires var q := LastRealUserQuery(items, RulesOf(rt)); q.Some? ==> TagFree(q.value, rt)
    ensures var u := RulesOf(rt); var q := LastRealUserQuery(items, u);
      ViewOf(Round(items, step, u), u) == ViewOf(items, u) <==> (q.None? || !IsSyntheticQuery(q.value, rt))
  {
    RulesAreFaithful(RulesOf(rt), rt);
    TagFreeIsOk(items, RulesOf(rt), rt);
    RoundView(items, step, RulesOf(rt));
  }

  /** A turn that is only an image is the last real one, with the empty query, and is lost. */
  lemma ImageOnlyTurnIsLost(url: string, step: Step, rt: RuntimeTexts)
    requires TagsOk(rt)
    ensures var u := RulesOf(rt); var items := [User([Image(url)], Human, "")];
      && LastRealUserQuery(items, u) == Some("")
      && LastRealUserQuery(Round(items, step, u), u) == None
  {
    var u := RulesOf(rt);
    var x := User([Image(url)], Human, "");
    ImageTurnQuery(url, rt);
    SingleView(x, u);
    RewrapExtract("", rt);
    RoundView([x], step, u);
  }

  lemma ImageTurnQuery(url: string, rt: RuntimeTexts)
    ensures IsRealUserTurn(User([Image(url)], Human, ""), RulesOf(rt))
    ensures UserText([Image(url)]) == "" && ExtractUserQuery("", rt) == "" && TagFree("", rt)
  {
    var parts := [Image(url)];
    assert parts[0].Image? && parts[1..] == [];
    assert PartTexts(parts) == [];
    StripNoTags("", rt.tags);
    TrimSpaces("");
    assert Slot("", OpenTag(rt.query), CloseTag(rt.query)).None?;
  }

  /** The last real query, if any, holds no tag literal and is neither empty nor a continuation. */
  predicate PlainQuery(items: seq<Item>, rt: RuntimeTexts) {
    var q := LastRealUserQuery(items, RulesOf(rt));
    q.Some? ==> TagFree(q.value, rt) && !IsSyntheticQuery(q.value, rt)
  }

  lemma PlainQuerySurvives(items: seq<Item>, u: Rules, rt: RuntimeTexts)
    requires u == RulesOf(rt) && Faithful(u, rt) && PlainQuery(items, rt)
    ensures Survives(LastRealUserQuery(items, u), u)
  {
    TagFreeIsOk(items, u, rt);
  }

  lemma PlainWorkSurvives(items: seq<Item>, steps: seq<Step>, u: Rules, rt: RuntimeTexts)
    requires u == RulesOf(rt) && Faithful(u, rt)
    requires PlainQuery(items, rt) && forall k :: 0 <= k < |steps| ==> PlainQuery(steps[k].work, rt)
    ensures Survives(LastRealUserQuery(items, u), u)
    ensures forall k :: 0 <= k < |steps| ==> Survives(LastRealUserQuery(steps[k].work, u), u)
  {
    PlainQuerySurvives(items, u, rt);
    forall k | 0 <= k < |steps| ensures Survives(LastRealUserQuery(steps[k].work, u), u) {
      PlainQuerySurvives(steps[k].work, u, rt);
    }
  }

  /** Any number of rounds, with any turns and agent messages in between, ends with the last
      query, the latest agent message and the order of the two that the history would have
      uncompacted. */
  lemma RoundsKeepView(items: seq<Item>, steps: seq<Step>, rt: RuntimeTexts)
    requires TagsOk(rt) && PlainQuery(items, rt) && forall k :: 0 <= k < |steps| ==> PlainQuery(steps[k].work, rt)
    ensures var u := RulesOf(rt); ViewOf(Rounds(items, steps, u), u) == ViewOf(items + AllWork(steps), u)
  {
    var u := RulesOf(rt);
    RulesAreFaithful(u, rt);
    PlainWorkSurvives(items, steps, u, rt);
    RoundsView(items, steps, u);
  }

  /** After them, an agent message from before the last round is there exactly once, and so is
      each that came since. */
  lemma {:induction false} RoundsKeepAgents(items: seq<Item>, earlier: seq<Step>, last: Step, rt: RuntimeTexts)
    requires TagsOk(rt) && PlainQuery(items, rt) && PlainQuery(last.work, rt)
    requires forall k :: 0 <= k < |earlier| ==> PlainQuery(earlier[k].work, rt)
    ensures AgentCount(Rounds(items, earlier + [last], RulesOf(rt))) ==
      (if LastAgent(items + AllWork(earlier)).Some? then 1 else 0) + AgentCount(last.work)
  {
    var u := RulesOf(rt);
    RulesAreFaithful(u, rt);
    PlainWorkSurvives(items, earlier, u, rt);
    PlainQuerySurvives(last.work, u, rt);
    RoundsAgents(items, earlier, last, u);
  }

  // ---------------------------------------------------------------- pairing of the tail

  lemma {:induction false} RecentKeepsRuns(items: seq<Item>, run: set<string>, run': set<string>, u: Rules)
    requires run <= run' && ToolPairing.DisplacedFrom(items, run) == []
    ensures ToolPairing.DisplacedFrom(RecentForms(items, u), run') == []
  {
    if items != [] {
      var x, rest := items[0], items[1..];
      var form := RecentForm(x, u);
      if form.Some? {
        var y, ys := form.value, RecentForms(rest, u);
        RecentKeepsRuns(rest, ToolPairing.NextRun(run, x), ToolPairing.NextRun(run', y), u);
        assert ([y] + ys)[1..] == ys;
      } else {
        assert RecentForms(items, u) == RecentForms(rest, u);
        RecentKeepsRuns(rest, ToolPairing.NextRun(run, x), run', u);
      }
    }
  }

  lemma {:induction false} RunRestartsBehindUser(items: seq<Item>, run: set<string>, b: nat)
    requires b < |items| && items[b].User? && ToolPairing.DisplacedFrom(items, run) == []
    ensures ToolPairing.DisplacedFrom(items[b + 1..], {}) == []
    ensures ToolPairing.DisplacedFrom(items[b..], {}) == []
    decreases b
  {
    if b == 0 {
      assert items[0..] == items;
    } else {
      RunRestartsBehindUser(items[1..], ToolPairing.NextRun(run, items[0]), b - 1);
      assert items[1..][b - 1..] == items[b..] && items[1..][b..] == items[b + 1..];
    }
  }

  /** The tail taken from a contiguously paired history is itself contiguously paired. */
  lemma RecentIsPaired(items: seq<Item>, u: Rules)
    requires Paired(items)
    ensures Paired(MessagesSinceAnchor(items, u))
  {
    ToolPairing.PairedIffNothingDisplaced(items);
    var b := LastAnchor(items, u);
    if b.Some? {
      RunRestartsBehindUser(items, {}, b.value);
    } else {
      assert items[0..] == items;
    }
    var rest := items[RecentStart(items, u)..];
    RecentKeepsRuns(rest, {}, {}, u);
    ToolPairing.PairedIffNothingDisplaced(RecentForms(rest, u));
  }

  lemma FirstTagsArePlain()
    ensures forall k :: 0 <= k < 6 ==> PlainName(SystemTags()[k])
  {
  }

  lemma OtherTagsArePlain()
    ensures forall k :: 6 <= k < 12 ==> PlainName(SystemTags()[k])
  {
  }

  lemma SystemTagsArePlain(tags: seq<string>)
    requires tags == SystemTags()
    ensures forall k :: 0 <= k < |tags| ==> PlainName(tags[k])
  {
    FirstTagsArePlain();
    OtherTagsArePlain();
  }

  lemma QueryTagIsApart()
    ensures PlainName("user_query") && "user_query" !in SystemTags()
  {
  }

  /** The texts of the source meet the condition of the results above. */
  lemma SourceTagsAreOk(autoContinue: string)
    ensures TagsOk(SourceTexts(autoContinue))
  {
    TagsAreOk(SystemTags(), SourceTexts(autoContinue));
  }

  lemma TagsAreOk(tags: seq<string>, rt: RuntimeTexts)
    requires rt.tags == tags == SystemTags() && rt.query == "user_query"
    ensures TagsOk(rt)
  {
    QueryTagIsApart();
    SystemTagsArePlain(tags);
    PlainTagsAreOk(rt, tags);
  }

  lemma PlainTagsAreOk(rt: RuntimeTexts, tags: seq<string>)
    requires rt.tags == tags && PlainName(rt.query) && rt.query !in tags
    requires forall k :: 0 <= k < |tags| ==> PlainName(tags[k])
    ensures TagsOk(rt)
  {
  }
}
