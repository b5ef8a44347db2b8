/** What the clean-up makes of each piece of the model's output: the text inside the summary
    tags, a scratchpad block in front of it, and a draft at the head of the summary. */
module SummaryPieces {
  import opened Bytes
  import opened Text
  import opened SummaryCleaner

  /** Neither tag begins with the other. */
  predicate Apart(x: string, y: string) { !(x <= y) && !(y <= x) }

  predicate TagsApart(g: Tags) {
    && Apart(g.openSummary, g.closeSummary) && Apart(g.openSummary, g.openAnalysis) && Apart(g.openSummary, g.closeAnalysis)
    && Apart(g.closeSummary, g.openAnalysis) && Apart(g.closeSummary, g.closeAnalysis) && Apart(g.openAnalysis, g.closeAnalysis)
  }

  lemma SourceTagsAreApart(g: Tags)
    requires g == SourceTags()
    ensures TagsApart(g)
  {
    assert g.openSummary[1] == 's' && g.openAnalysis[1] == 'a';
    assert g.closeSummary[1] == '/' && g.closeSummary[2] == 's' && g.closeAnalysis[1] == '/' && g.closeAnalysis[2] == 'a';
  }

  lemma TokensAre(g: Tags)
    requires TagsOk(g)
    ensures TokenOk(g.openAnalysis) && TokenOk(g.closeAnalysis) && TokenOk(g.openSummary) && TokenOk(g.closeSummary)
  {
    var ts := ControlTokens(g);
    assert ts[0] == g.closeSummary && ts[1] == g.openSummary && ts[2] == g.closeAnalysis && ts[3] == g.openAnalysis;
  }

  // ---------------------------------------------------------------- finding tags between pieces

  /** The only `<` of an occurrence of a token is its first character. */
  lemma OccursOnce(s: string, x: string, i: nat)
    requires TokenOk(x) && At(s, x, i)
    ensures s[i] == '<' && forall j :: i < j < i + |x| ==> s[j] != '<'
  {
    forall j | i <= j < i + |x| ensures s[j] == x[j - i] { assert s[i..i + |x|][j - i] == s[j]; }
    forall j | i < j < i + |x| ensures s[j] != '<' { assert x[j - i] == x[1..][j - i - 1]; }
  }

  lemma TagStands(a: string, tok: string, b: string)
    ensures At(a + tok + b, tok, |a|)
  {
    assert (a + tok + b)[|a|..|a| + |tok|] == tok;
  }

  lemma InsideFirst(a: string, b: string, x: string, i: nat)
    requires i + |x| <= |a| && At(a + b, x, i)
    ensures Contains(a, x)
  {
    assert a[i..i + |x|] == (a + b)[i..i + |x|];
    assert At(a, x, i);
  }

  /** An occurrence in `a + tok + b` lies in `a`, in `b`, or where the tag is. */
  lemma WhereItOccurs(a: string, tok: string, b: string, x: string, i: nat)
    requires TokenOk(tok) && TokenOk(x) && At(a + tok + b, x, i)
    ensures i < |a| ==> Contains(a, x)
    ensures i > |a| ==> i >= |a| + |tok| && Contains(b, x)
  {
    var s := a + tok + b;
    TagStands(a, tok, b);
    OccursOnce(s, x, i);
    OccursOnce(s, tok, |a|);
    assert s == a + (tok + b) && s[|a| + |tok|..] == b;
    if i < |a| {
      InsideFirst(a, tok + b, x, i);
    } else if i > |a| {
      AtSuffix(s, |a| + |tok|, x, i);
    }
  }

  lemma PrefixOfBoth(a: string, tok: string, b: string, x: string)
    requires At(a + tok + b, x, |a|)
    ensures x <= tok || tok <= x
  {
    var s := a + tok + b;
    forall k | 0 <= k < |x| && k < |tok| ensures x[k] == tok[k] {
      assert s[|a|..|a| + |x|][k] == s[|a| + k] == tok[k];
    }
  }

  /** A tag absent on both sides of another tag is absent from the whole. */
  lemma NotAcross(a: string, tok: string, b: string, x: string, i: nat)
    requires TokenOk(tok) && TokenOk(x) && Apart(x, tok) && At(a + tok + b, x, i)
    ensures Contains(a, x) || Contains(b, x)
  {
    WhereItOccurs(a, tok, b, x, i);
    if i == |a| { PrefixOfBoth(a, tok, b, x); }
  }

  lemma AbsentAcross(a: string, tok: string, b: string, x: string)
    requires TokenOk(tok) && TokenOk(x) && Apart(x, tok) && !Contains(a, x) && !Contains(b, x)
    ensures !Contains(a + tok + b, x)
  {
    var s := a + tok + b;
    if Contains(s, x) {
      var i :| 0 <= i <= |s| && At(s, x, i);
      NotAcross(a, tok, b, x, i);
    }
  }

  lemma FirstTag(a: string, tok: string, b: string)
    requires TokenOk(tok) && !Contains(a, tok)
    ensures Find(a + tok + b, tok) == Some(|a|)
  {
    TagStands(a, tok, b);
    WhereItOccurs(a, tok, b, tok, Find(a + tok + b, tok).value);
  }

  lemma LastTag(a: string, tok: string, b: string)
    requires TokenOk(tok) && !Contains(b, tok)
    ensures RFind(a + tok + b, tok) == Some(|a|)
  {
    TagStands(a, tok, b);
    WhereItOccurs(a, tok, b, tok, RFind(a + tok + b, tok).value);
  }

  lemma RFindIsContained(s: string, x: string)
    ensures RFind(s, x).Some? ==> Contains(s, x)
  {
    var r := RFind(s, x);
    assert r.Some? ==> r.value <= |s|;
  }

  lemma Absent(s: string, x: string)
    requires !Contains(s, x)
    ensures Find(s, x).None? && RFind(s, x).None?
  {
    FindIffContains(s, x);
    RFindIsContained(s, x);
  }

  lemma NoTagWithout(s: string, x: string)
    requires TokenOk(x) && '<' !in s
    ensures !Contains(s, x)
  {
    forall i | 0 <= i <= |s| ensures !At(s, x, i) {
      if i + |x| <= |s| { assert s[i..i + |x|][0] == s[i]; }
    }
  }

  // ---------------------------------------------------------------- the text inside the summary tags

  lemma Slices(a: string, t: string, b: string, u: string, c: string)
    ensures var s := a + t + (b + u + c);
      && s == (a + t + b) + u + c && s[..|a|] == a && s[|a| + |t|..|a| + |t| + |b|] == b
      && s[|a| + |t| + |b| + |u|..] == c && |a + t + b| == |a| + |t| + |b|
  {
  }

  lemma LastOf(s: string, a: string, tok: string, b: string, at: nat)
    requires TokenOk(tok) && !Contains(b, tok) && s == a + tok + b && at == |a|
    ensures RFind(s, tok) == Some(at)
  {
    LastTag(a, tok, b);
  }

  lemma FirstOf(s: string, a: string, tok: string, b: string, at: nat)
    requires TokenOk(tok) && !Contains(a, tok) && s == a + tok + b && at == |a|
    ensures Find(s, tok) == Some(at)
  {
    FirstTag(a, tok, b);
  }

  lemma RewrappedIs(s: string, pre: string, open: string, inner: string, close: string, post: string,
                                       heading: string, body: string -> string)
    requires s == pre + open + (inner + close + post)
    ensures |pre| + |open| + |inner| + |close| <= |s|
    ensures Rewrapped(s, |pre|, |open|, |pre| + |open| + |inner|, |close|, heading, body) == pre + heading + body(inner) + post
  {
    Slices(pre, open, inner, close, post);
  }

  lemma OpeningFound(s: string, pre: string, open: string, inner: string, close: string, post: string)
    requires TokenOk(open) && !Contains(pre, open) && s == pre + open + (inner + close + post)
    ensures Find(s, open) == Some(|pre|)
  {
    FirstOf(s, pre, open, inner + close + post, |pre|);
  }

  lemma ClosingFound(s: string, pre: string, open: string, inner: string, close: string, post: string)
    requires TokenOk(close) && !Contains(post, close) && s == pre + open + (inner + close + post)
    ensures RFind(s, close) == Some(|pre| + |open| + |inner|)
  {
    Slices(pre, open, inner, close, post);
    LastOf(s, pre + open + inner, close, post, |pre| + |open| + |inner|);
  }

  lemma {:induction false} TagsFound(s: string, pre: string, open: string, inner: string, close: string, post: string)
    requires TokenOk(open) && TokenOk(close) && !Contains(pre, open) && !Contains(post, close)
    requires s == pre + open + (inner + close + post)
    ensures Find(s, open) == Some(|pre|) && RFind(s, close) == Some(|pre| + |open| + |inner|)
  {
    OpeningFound(s, pre, open, inner, close, post);
    ClosingFound(s, pre, open, inner, close, post);
  }

  lemma UnwrappedAt(s: string, open: string, close: string, lo: nat, hi: nat, heading: string, body: string -> string)
    requires Find(s, open) == Some(lo) && RFind(s, close) == Some(hi) && lo < hi && hi + |close| <= |s|
    ensures Unwrapped(s, open, close, heading, body) == Rewrapped(s, lo, |open|, hi, |close|, heading, body)
  {
  }

  lemma UnwrappedIs(s: string, pre: string, open: string, inner: string, close: string, post: string,
                                       heading: string, body: string -> string)
    requires TokenOk(open) && TokenOk(close) && !Contains(pre, open) && !Contains(post, close)
    requires s == pre + open + (inner + close + post)
    ensures Unwrapped(s, open, close, heading, body) == pre + heading + body(inner) + post
  {
    TagsFound(s, pre, open, inner, close, post);
    RewrappedIs(s, pre, open, inner, close, post, heading, body);
    UnwrappedAt(s, open, close, |pre|, |pre| + |open| + |inner|, heading, body);
  }

  /** Between the first opening and the last closing tag stands the summary. */
  lemma UnwrapIs(s: string, pre: string, inner: string, post: string, g: Tags)
    requires TagsOk(g) && !Contains(pre, g.openSummary) && !Contains(post, g.closeSummary)
    requires s == pre + g.openSummary + (inner + g.closeSummary + post)
    ensures UnwrapSummary(s, g) == pre + "Summary:\n" + StripLeadingScratchpad(Trim(inner), g) + post
  {
    var body := (inner: string) => StripLeadingScratchpad(Trim(inner), g);
    TokensAre(g);
    UnwrappedIs(s, pre, g.openSummary, inner, g.closeSummary, post, "Summary:\n", body);
  }

  lemma NothingDropped(s: string, g: Tags)
    requires TagsOk(g) && !Contains(s, g.openAnalysis)
    ensures DropAnalysis(s, g) == s
  {
    Absent(s, g.openAnalysis);
  }

  /** The output of the model: a summary between its tags, with no scratchpad tag opened. */
  predicate IsOutput(output: string, pre: string, inner: string, post: string, g: Tags) {
    && output == pre + g.openSummary + (inner + g.closeSummary + post)
    && !Contains(pre, g.openSummary) && !Contains(post, g.closeSummary)
    && !Contains(pre, g.openAnalysis) && !Contains(inner, g.openAnalysis) && !Contains(post, g.openAnalysis)
  }

  /** The first opening tag is no scratchpad, even when a scratchpad tag stands there too. */
  lemma {:induction false} LeadsOnlyAtClose(s: string, at: nat, lo: nat, hi: nat, inner: string, g: Tags)
    requires Find(s, g.openSummary) == Some(lo) && |g.openSummary| > 0 && lo + |g.openSummary| <= hi <= |s|
    requires s[lo + |g.openSummary|..hi] == inner && (at == lo || at == hi)
    ensures IsLeading(s, at, g) <==> at == hi && Blank(inner)
  {
  }

  lemma NoLeadStays(s: string, g: Tags)
    requires TagsOk(g)
    requires var at := Find(s, g.openAnalysis); at.Some? ==> at.value <= |s| && !IsLeading(s, at.value, g)
    ensures DropAnalysis(s, g) == s
  {
  }

  lemma {:induction false} OutputTagsAt(output: string, pre: string, inner: string, post: string, g: Tags)
    requires TagsOk(g) && IsOutput(output, pre, inner, post, g)
    ensures var lo, hi := |pre| + |g.openSummary|, |pre| + |g.openSummary| + |inner|;
      Find(output, g.openSummary) == Some(|pre|) && |pre| < lo <= hi <= |output| && output[lo..hi] == inner
  {
    TokensAre(g);
    TagsFound(output, pre, g.openSummary, inner, g.closeSummary, post);
    Slices(pre, g.openSummary, inner, g.closeSummary, post);
  }

  lemma TailSlice(s: string, front: string, tail: string)
    requires s == front + tail
    ensures s[|front|..] == tail
  {
  }

  lemma {:induction false} PlaceOf(s: string, a: string, tok: string, b: string, x: string, i: nat)
    requires TokenOk(tok) && TokenOk(x) && s == a + tok + b && At(s, x, i) && !Contains(a, x)
    ensures i == |a| || (i >= |a| + |tok| && At(b, x, i - |a| - |tok|))
  {
    WhereItOccurs(a, tok, b, x, i);
    if i > |a| {
      TailSlice(s, a + tok, b);
      AtSuffix(s, |a| + |tok|, x, i);
    }
  }

  lemma {:induction false} OnlyAtTag(s: string, a: string, tok: string, b: string, x: string, i: nat)
    requires TokenOk(tok) && TokenOk(x) && s == a + tok + b && At(s, x, i) && !Contains(a, x) && !Contains(b, x)
    ensures i == |a|
  {
    WhereItOccurs(a, tok, b, x, i);
  }

  lemma {:induction false} TwoPlaces(s: string, pre: string, open: string, inner: string, close: string, post: string, x: string, i: nat)
    requires TokenOk(open) && TokenOk(close) && TokenOk(x) && s == pre + open + (inner + close + post) && At(s, x, i)
    requires !Contains(pre, x) && !Contains(inner, x) && !Contains(post, x)
    ensures i == |pre| || i == |pre| + |open| + |inner|
  {
    PlaceOf(s, pre, open, inner + close + post, x, i);
    if i != |pre| { OnlyAtTag(inner + close + post, inner, close, post, x, i - |pre| - |open|); }
  }

  /** Where the scratchpad step finds its tag, if anywhere. */
  lemma ScratchpadTagPlaces(output: string, pre: string, inner: string, post: string, g: Tags)
    requires TagsOk(g) && IsOutput(output, pre, inner, post, g)
    ensures var at := Find(output, g.openAnalysis); at.Some? ==> at.value == |pre| || at.value == |pre| + |g.openSummary| + |inner|
  {
    var at := Find(output, g.openAnalysis);
    TokensAre(g);
    if at.Some? { TwoPlaces(output, pre, g.openSummary, inner, g.closeSummary, post, g.openAnalysis, at.value); }
  }

  /** And when it takes it for a scratchpad. */
  lemma {:induction false} OutputRound(output: string, pre: string, inner: string, post: string, g: Tags)
    requires TagsOk(g) && IsOutput(output, pre, inner, post, g)
    ensures var at, q := Find(output, g.openAnalysis), |pre| + |g.openSummary| + |inner|;
      at.Some? ==> at.value <= q <= |output| && (IsLeading(output, at.value, g) <==> at.value == q && Blank(inner))
  {
    var at, q := Find(output, g.openAnalysis), |pre| + |g.openSummary| + |inner|;
    OutputTagsAt(output, pre, inner, post, g);
    ScratchpadTagPlaces(output, pre, inner, post, g);
    if at.Some? { LeadsOnlyAtClose(output, at.value, |pre|, q, inner, g); }
  }

  lemma OutputStays(output: string, pre: string, inner: string, post: string, g: Tags)
    requires TagsOk(g) && IsOutput(output, pre, inner, post, g) && (!Blank(inner) || TagsApart(g))
    ensures DropAnalysis(output, g) == output
  {
    if Blank(inner) {
      TokensAre(g);
      AbsentAcross(inner, g.closeSummary, post, g.openAnalysis);
      AbsentAcross(pre, g.openSummary, inner + g.closeSummary + post, g.openAnalysis);
      NothingDropped(output, g);
    } else {
      OutputRound(output, pre, inner, post, g);
      NoLeadStays(output, g);
    }
  }

  lemma OutputUnwrapped(output: string, pre: string, inner: string, post: string, g: Tags)
    requires TagsOk(g) && IsOutput(output, pre, inner, post, g) && (!Blank(inner) || TagsApart(g))
    ensures DropAnalysis(output, g) == output
    ensures UnwrapSummary(output, g) == pre + "Summary:\n" + StripLeadingScratchpad(Trim(inner), g) + post
  {
    OutputStays(output, pre, inner, post, g);
    UnwrapIs(output, pre, inner, post, g);
  }

  /** The cleaned form of a text: tokens defused, newline runs capped, ends trimmed. */
  function Cleaned(text: string, g: Tags): string { Trim(Cap(Defuse(text, ControlTokens(g)), 0)) }

  lemma FormatsTo(output: string, text: string, g: Tags)
    requires TagsOk(g) && DropAnalysis(output, g) == output && UnwrapSummary(output, g) == text
    ensures FormatCompactSummary(output, g) == Cleaned(text, g)
  {
    TidyIsSimple(text, ControlTokens(g));
  }

  /** The kept text of the summary comes under its heading, in place of the tagged block. */
  lemma FormatsOutput(output: string, pre: string, inner: string, post: string, kept: string, g: Tags)
    requires TagsOk(g) && IsOutput(output, pre, inner, post, g) && (!Blank(inner) || TagsApart(g))
    requires StripLeadingScratchpad(Trim(inner), g) == kept
    ensures FormatCompactSummary(output, g) == Cleaned(pre + "Summary:\n" + kept + post, g)
  {
    OutputUnwrapped(output, pre, inner, post, g);
    FormatsTo(output, pre + "Summary:\n" + kept + post, g);
  }

  lemma StripOfTrimmed(inner: string, g: Tags)
    ensures StripLeadingScratchpad(Trim(inner), g) == StripDraft(Trim(inner), g)
  {
    TrimIsTrimmed(inner);
    TrimIsTrimmed(Trim(inner));
  }

  lemma PlainInnerStays(s: string, g: Tags)
    requires !Contains(s, g.closeAnalysis) && !Contains(s, g.openSummary)
    ensures StripDraft(s, g) == s
  {
    Absent(s, g.closeAnalysis);
    PrefixIsContained(s, g.openSummary);
  }

  lemma PrefixIsContained(s: string, t: string)
    ensures t <= s ==> Contains(s, t)
  {
    if t <= s { assert At(s, t, 0); }
  }

  /** A summary without scratchpad or summary tags inside is kept whole, whatever surrounds it. */
  lemma SummaryIsKept(output: string, pre: string, inner: string, post: string, g: Tags)
    requires TagsOk(g) && IsOutput(output, pre, inner, post, g) && (!Blank(inner) || TagsApart(g))
    requires !Contains(inner, g.closeAnalysis) && !Contains(inner, g.openSummary)
    ensures FormatCompactSummary(output, g) == Cleaned(pre + "Summary:\n" + Trim(inner) + post, g)
  {
    TrimKeepsAbsent(inner, g.closeAnalysis);
    TrimKeepsAbsent(inner, g.openSummary);
    StripOfTrimmed(inner, g);
    PlainInnerStays(Trim(inner), g);
    FormatsOutput(output, pre, inner, post, Trim(inner), g);
  }

  lemma TrimKeepsOut(s: string, c: char)
    requires c !in s
    ensures c !in Trim(s)
  {
    var lo, hi := TrimIsSlice(s);
  }

  lemma PlainIsNotDefused(s: string, tokens: seq<string>)
    requires TokensOk(tokens) && '<' !in s
    ensures Defuse(s, tokens) == s
  {
    forall k | 0 <= k < |tokens| ensures !Contains(s, tokens[k]) { NoTagWithout(s, tokens[k]); }
    DefuseTokenFree(s, tokens);
  }

  lemma PlainText(text: string, g: Tags)
    requires TagsOk(g) && '<' !in text
    ensures Cleaned(text, g) == Trim(Cap(text, 0))
  {
    PlainIsNotDefused(text, ControlTokens(g));
  }

  lemma PlainJoined(pre: string, heading: string, kept: string, post: string)
    requires '<' !in pre && '<' !in heading && '<' !in kept && '<' !in post
    ensures '<' !in pre + heading + kept + post
  {
  }

  lemma PlainTextOf(pre: string, inner: string, post: string)
    requires '<' !in pre && '<' !in inner && '<' !in post
    ensures '<' !in pre + "Summary:\n" + Trim(inner) + post
  {
    TrimKeepsOut(inner, '<');
    PlainJoined(pre, "Summary:\n", Trim(inner), post);
  }

  lemma TokenTail(x: string)
    requires TokenOk(x)
    ensures forall j :: 1 <= j < |x| ==> x[j] != '<'
  {
    forall j | 1 <= j < |x| ensures x[j] != '<' { assert x[1..][j - 1] == x[j]; }
  }

  lemma StartsWithMark(s: string, x: string, i: nat)
    requires TokenOk(x) && At(s, x, i)
    ensures i < |s| && s[i] == '<'
  {
    OccursOnce(s, x, i);
  }

  lemma PlainIsOutput(output: string, pre: string, inner: string, post: string, g: Tags)
    requires TagsOk(g) && '<' !in pre && '<' !in inner && '<' !in post
    requires output == pre + g.openSummary + (inner + g.closeSummary + post)
    ensures IsOutput(output, pre, inner, post, g)
  {
    TokensAre(g);
    NoTagWithout(pre, g.openSummary);
    NoTagWithout(pre, g.openAnalysis);
    NoTagWithout(inner, g.openAnalysis);
    NoTagWithout(post, g.closeSummary);
    NoTagWithout(post, g.openAnalysis);
  }

  /** The closing summary tag is taken for a scratchpad behind an empty summary, and goes. */
  predicate Misread(output: string, pre: string, inner: string, post: string, g: Tags) {
    && Blank(inner) && Find(output, g.openAnalysis) == Some(|pre| + |g.openSummary| + |inner|)
    && (Contains(g.closeSummary + post, g.closeAnalysis) || !(g.openSummary <= g.closeSummary + post))
  }

  lemma WholeStays(s: string, lead: string, tail: string, g: Tags)
    requires TagsOk(g) && s == lead + tail && Find(s, g.openAnalysis) == Some(|lead|)
    requires !Contains(tail, g.closeAnalysis) && g.openSummary <= tail
    ensures DropAnalysis(s, g) == s
  {
    InFront(s, lead, tail);
    Absent(tail, g.closeAnalysis);
    assert At(tail, g.openSummary, 0);
    assert tail[0..] == tail;
  }

  lemma EndGroups(output: string, pre: string, open: string, inner: string, close: string, post: string)
    requires output == pre + open + (inner + close + post)
    ensures output == (pre + open + inner) + (close + post) && |pre + open + inner| == |pre| + |open| + |inner|
  {
  }

  lemma ClosingStays(output: string, pre: string, inner: string, post: string, g: Tags)
    requires TagsOk(g) && output == pre + g.openSummary + (inner + g.closeSummary + post)
    requires Find(output, g.openAnalysis) == Some(|pre| + |g.openSummary| + |inner|)
    requires !Contains(g.closeSummary + post, g.closeAnalysis) && g.openSummary <= g.closeSummary + post
    ensures DropAnalysis(output, g) == output
  {
    EndGroups(output, pre, g.openSummary, inner, g.closeSummary, post);
    WholeStays(output, pre + g.openSummary + inner, g.closeSummary + post, g);
  }

  lemma NotMisread(output: string, pre: string, inner: string, post: string, g: Tags)
    requires TagsOk(g) && '<' !in pre && '<' !in inner && '<' !in post
    requires output == pre + g.openSummary + (inner + g.closeSummary + post) && !Misread(output, pre, inner, post, g)
    ensures DropAnalysis(output, g) == output
  {
    if Blank(inner) && Find(output, g.openAnalysis) == Some(|pre| + |g.openSummary| + |inner|) {
      ClosingStays(output, pre, inner, post, g);
    } else {
      PlainIsOutput(output, pre, inner, post, g);
    OutputRound(output, pre, inner, post, g);
      NoLeadStays(output, g);
    }
  }

  /** Of a tail whose only mark is its first character, what is left has none. */
  lemma TailLosesMark(lead: string, tail: string, g: Tags) returns (left: string)
    requires TagsOk(g) && tail != "" && forall i :: 1 <= i < |tail| ==> tail[i] != '<'
    requires Contains(tail, g.closeAnalysis) || !(g.openSummary <= tail)
    ensures DropBlock(lead, tail, g).0 == lead + left && '<' !in left
  {
    TokensAre(g);
    var close, next := Find(tail, g.closeAnalysis), Find(tail, g.openSummary);
    FindIffContains(tail, g.closeAnalysis);
    left := if close.Some? then tail[close.value + |g.closeAnalysis|..] else "";
    FoundIsPrefix(tail, g.openSummary);
  }

  lemma FoundIsPrefix(s: string, x: string)
    requires TokenOk(x) && forall i :: 1 <= i < |s| ==> s[i] != '<'
    ensures Find(s, x).Some? ==> x <= s
  {
    var at := Find(s, x);
    if at.Some? {
      StartsWithMark(s, x, at.value);
      assert s[0..|x|] == x;
    }
  }

  /** An opening tag alone stays, defused. */
  lemma OpeningAlone(s: string, pre: string, rest: string, g: Tags)
    requires TagsOk(g) && '<' !in pre && '<' !in rest && s == pre + g.openSummary + rest
    ensures DropAnalysis(s, g) == s && UnwrapSummary(s, g) == s
  {
    TokensAre(g);
    NoTagWithout(pre, g.openSummary);
    FirstOf(s, pre, g.openSummary, rest, |pre|);
    LeadsOnlyAtClose(s, |pre|, |pre|, |pre| + |g.openSummary|, "", g);
    OneMark(s, pre, rest, g);
    NoLeadStays(s, g);
  }

  lemma OneMark(s: string, pre: string, rest: string, g: Tags)
    requires TagsOk(g) && '<' !in pre && '<' !in rest && s == pre + g.openSummary + rest
    ensures var at := Find(s, g.openAnalysis); at.Some? ==> at.value == |pre|
    ensures var at := RFind(s, g.closeSummary); at.Some? ==> at.value == |pre|
  {
    TokensAre(g);
    TokenTail(g.openSummary);
    var a, b := Find(s, g.openAnalysis), RFind(s, g.closeSummary);
    if a.Some? { StartsWithMark(s, g.openAnalysis, a.value); }
    if b.Some? { StartsWithMark(s, g.closeSummary, b.value); }
  }

  lemma {:induction false} DefuseKeepsMark(s: string, tokens: seq<string>)
    requires '<' in s
    ensures '<' in Defuse(s, tokens)
  {
    if s[0] != '<' {
      assert s == [s[0]] + s[1..];
      DefuseKeepsMark(s[1..], tokens);
    }
  }

  lemma {:induction false} CapKeepsMark(s: string, run: nat)
    requires '<' in s
    ensures '<' in Cap(s, run)
  {
    if s[0] != '<' {
      assert s == [s[0]] + s[1..];
      CapKeepsMark(s[1..], if s[0] != '\n' then 0 else if run >= 2 then run else run + 1);
    }
  }

  lemma TrimKeepsMark(s: string)
    requires '<' in s
    ensures '<' in Trim(s)
  {
    TrimStartIs(s);
    TrimEndIs(TrimStart(s));
  }

  lemma CleanedKeepsMark(s: string, g: Tags)
    requires '<' in s
    ensures '<' in Cleaned(s, g)
  {
    DefuseKeepsMark(s, ControlTokens(g));
    CapKeepsMark(Defuse(s, ControlTokens(g)), 0);
    TrimKeepsMark(Cap(Defuse(s, ControlTokens(g)), 0));
  }

  lemma DropsTo(s: string, next: string, g: Tags)
    requires TagsOk(g) && DropRound(s, g).0 == next && DropAnalysis(next, g) == next
    ensures DropAnalysis(s, g) == next
  {
  }

  lemma RoundCuts(s: string, lead: string, tail: string, left: string, g: Tags)
    requires TagsOk(g) && s == lead + tail && Find(s, g.openAnalysis) == Some(|lead|) && IsLeading(s, |lead|, g)
    requires DropBlock(lead, tail, g).0 == lead + left
    ensures DropRound(s, g).0 == lead + left
  {
    InFront(s, lead, tail);
  }

  lemma MisreadRound(output: string, pre: string, inner: string, post: string, lead: string, g: Tags) returns (left: string)
    requires TagsOk(g) && '<' !in pre && '<' !in inner && '<' !in post && lead == pre + g.openSummary + inner
    requires output == pre + g.openSummary + (inner + g.closeSummary + post) && Misread(output, pre, inner, post, g)
    ensures DropRound(output, g).0 == lead + left && '<' !in left
  {
    var tail := g.closeSummary + post;
    PlainIsOutput(output, pre, inner, post, g);
    OutputRound(output, pre, inner, post, g);
    EndGroups(output, pre, g.openSummary, inner, g.closeSummary, post);
    TokensAre(g);
    TokenTail(g.closeSummary);
    left := TailLosesMark(lead, tail, g);
    RoundCuts(output, lead, tail, left, g);
  }

  lemma MisreadDrops(output: string, pre: string, inner: string, post: string, g: Tags) returns (next: string)
    requires TagsOk(g) && '<' !in pre && '<' !in inner && '<' !in post
    requires output == pre + g.openSummary + (inner + g.closeSummary + post) && Misread(output, pre, inner, post, g)
    ensures DropAnalysis(output, g) == next && UnwrapSummary(next, g) == next && '<' in next
  {
    var lead := pre + g.openSummary + inner;
    var left := MisreadRound(output, pre, inner, post, lead, g);
    next := lead + left;
    Regroup(pre + g.openSummary, inner, left);
    OpeningAlone(next, pre, inner + left, g);
    DropsTo(output, next, g);
    TokensAre(g);
    assert next[|pre|] == g.openSummary[0];
  }

  lemma FormatsBy(s: string, next: string, g: Tags)
    requires TagsOk(g) && DropAnalysis(s, g) == next && UnwrapSummary(next, g) == next
    ensures FormatCompactSummary(s, g) == Cleaned(next, g)
  {
    TidyIsSimple(next, ControlTokens(g));
  }

  lemma MisreadKeepsMark(output: string, pre: string, inner: string, post: string, g: Tags)
    requires TagsOk(g) && '<' !in pre && '<' !in inner && '<' !in post
    requires output == pre + g.openSummary + (inner + g.closeSummary + post) && Misread(output, pre, inner, post, g)
    ensures '<' in FormatCompactSummary(output, g)
  {
    var next := MisreadDrops(output, pre, inner, post, g);
    FormatsBy(output, next, g);
    CleanedKeepsMark(next, g);
  }

  lemma PlainUnwrapped(output: string, pre: string, inner: string, post: string, text: string, g: Tags)
    requires TagsOk(g) && '<' !in pre && '<' !in inner && '<' !in post
    requires output == pre + g.openSummary + (inner + g.closeSummary + post) && text == pre + "Summary:\n" + Trim(inner) + post
    ensures UnwrapSummary(output, g) == text
  {
    TokensAre(g);
    NoTagWithout(pre, g.openSummary);
    NoTagWithout(post, g.closeSummary);
    UnwrapIs(output, pre, inner, post, g);
    TrimKeepsOut(inner, '<');
    NoTagWithout(Trim(inner), g.closeAnalysis);
    NoTagWithout(Trim(inner), g.openSummary);
    StripOfTrimmed(inner, g);
    PlainInnerStays(Trim(inner), g);
  }

  lemma MisreadDiffers(output: string, pre: string, inner: string, post: string, text: string, g: Tags)
    requires TagsOk(g) && '<' !in pre && '<' !in inner && '<' !in post && '<' !in text
    requires output == pre + g.openSummary + (inner + g.closeSummary + post) && Misread(output, pre, inner, post, g)
    ensures FormatCompactSummary(output, g) != Trim(Cap(text, 0))
  {
    MisreadKeepsMark(output, pre, inner, post, g);
    KeptHasNoMark(text);
  }

  lemma KeptHasNoMark(text: string)
    requires '<' !in text
    ensures '<' !in Trim(Cap(text, 0))
  {
    CapKeepsOut(text, 0, '<');
    TrimKeepsOut(Cap(text, 0), '<');
  }

  lemma PlainFormats(output: string, pre: string, inner: string, post: string, text: string, g: Tags)
    requires TagsOk(g) && '<' !in pre && '<' !in inner && '<' !in post && !Misread(output, pre, inner, post, g)
    requires output == pre + g.openSummary + (inner + g.closeSummary + post) && text == pre + "Summary:\n" + Trim(inner) + post
    ensures FormatCompactSummary(output, g) == Cleaned(text, g)
  {
    NotMisread(output, pre, inner, post, g);
    PlainUnwrapped(output, pre, inner, post, text, g);
    FormatsTo(output, text, g);
  }

  /** With no `<` in any piece the summary comes under its heading and only surplus newlines and
      blank ends go: whatever the tags are, unless the closing tag is misread. */
  lemma PlainPiecesAreKeptIff(output: string, pre: string, inner: string, post: string, text: string, g: Tags)
    requires TagsOk(g) && '<' !in pre && '<' !in inner && '<' !in post
    requires output == pre + g.openSummary + (inner + g.closeSummary + post) && text == pre + "Summary:\n" + Trim(inner) + post
    ensures FormatCompactSummary(output, g) == Trim(Cap(text, 0)) <==> !Misread(output, pre, inner, post, g)
  {
    PlainTextOf(pre, inner, post);
    if Misread(output, pre, inner, post, g) {
      MisreadDiffers(output, pre, inner, post, text, g);
    } else {
      PlainFormats(output, pre, inner, post, text, g);
      PlainText(text, g);
    }
  }

  lemma {:induction false} CapKeepsOut(s: string, run: nat, c: char)
    requires c !in s
    ensures c !in Cap(s, run)
  {
    if s != "" {
      CapKeepsOut(s[1..], if s[0] != '\n' then 0 else if run >= 2 then run else run + 1, c);
    }
  }

  /** No closing tag is misread when the summary is not blank, or no tag begins with another. */
  lemma PlainPiecesAreKept(output: string, pre: string, inner: string, post: string, text: string, g: Tags)
    requires TagsOk(g) && (!Blank(inner) || TagsApart(g)) && '<' !in pre && '<' !in inner && '<' !in post
    requires output == pre + g.openSummary + (inner + g.closeSummary + post) && text == pre + "Summary:\n" + Trim(inner) + post
    ensures FormatCompactSummary(output, g) == Trim(Cap(text, 0))
  {
    ApartIsNotMisread(output, pre, inner, post, g);
    PlainPiecesAreKeptIff(output, pre, inner, post, text, g);
  }

  lemma ApartIsNotMisread(output: string, pre: string, inner: string, post: string, g: Tags)
    requires output == pre + g.openSummary + (inner + g.closeSummary + post) && (!Blank(inner) || TagsApart(g))
    ensures !Misread(output, pre, inner, post, g)
  {
    Slices(pre, g.openSummary, inner, g.closeSummary, post);
    if TagsApart(g) && Find(output, g.openAnalysis) == Some(|pre + g.openSummary + inner|) {
      PrefixOfBoth(pre + g.openSummary + inner, g.closeSummary, post, g.openAnalysis);
    }
  }

  // ---------------------------------------------------------------- a draft at the head of the summary

  /** After heading marks the text goes on with the character `c`. */
  predicate Leads(s: string, marks: string, c: char, more: string) {
    && s == marks + [c] + more && c !in "#*-> \t"
    && forall k :: 0 <= k < |marks| ==> marks[k] in "#*-> \t"
  }

  lemma {:induction false} LeadIs(s: string, marks: string, c: char, more: string)
    requires Leads(s, marks, c, more)
    ensures TrimLead(s) == [c] + more
  {
    if marks == "" {
      assert s == [c] + more;
    } else {
      assert s[0] == marks[0] && s[1..] == marks[1..] + [c] + more;
      LeadIs(s[1..], marks[1..], c, more);
    }
  }

  lemma LeadIsNotBlank(inner: string, marks: string, c: char, more: string)
    requires Leads(Trim(inner), marks, c, more)
    ensures !Blank(inner)
  {
    assert |marks + [c] + more| > 0;
  }

  /** A summary that starts with a number is kept whole, echoes of the scratchpad tag included. */
  lemma NumberedIsKept(output: string, pre: string, inner: string, post: string, marks: string, d: char, more: string, g: Tags)
    requires TagsOk(g) && IsOutput(output, pre, inner, post, g)
    requires Leads(Trim(inner), marks, d, more) && '0' <= d <= '9'
    ensures FormatCompactSummary(output, g) == Cleaned(pre + "Summary:\n" + Trim(inner) + post, g)
  {
    LeadIsNotBlank(inner, marks, d, more);
    StripOfTrimmed(inner, g);
    NumberedStays(Trim(inner), marks, d, more, g);
    FormatsOutput(output, pre, inner, post, Trim(inner), g);
  }

  lemma NumberedStays(s: string, marks: string, d: char, more: string, g: Tags)
    requires TagsOk(g) && Leads(s, marks, d, more) && '0' <= d <= '9'
    ensures StripDraft(s, g) == s
  {
    LeadIs(s, marks, d, more);
    TokensAre(g);
    assert s[0] == if marks == "" then d else marks[0];
    assert s[0] != g.openSummary[0];
  }

  /** What stays behind a draft: the text after it, without an opening summary tag in front. */
  function AfterDraft(rest: string, g: Tags): string {
    var kept := TrimStart(rest);
    if g.openSummary <= kept then TrimStart(kept[|g.openSummary|..]) else kept
  }

  /** Any other summary is cut through the last closing scratchpad tag in it, and loses an opening
      summary tag that is next. */
  lemma DraftIsCut(output: string, pre: string, inner: string, post: string, draft: string, rest: string,
                                      marks: string, c: char, more: string, g: Tags)
    requires TagsOk(g) && IsOutput(output, pre, inner, post, g)
    requires Trim(inner) == draft + g.closeAnalysis + rest && !Contains(rest, g.closeAnalysis)
    requires Leads(Trim(inner), marks, c, more) && !('0' <= c <= '9')
    ensures FormatCompactSummary(output, g) == Cleaned(pre + "Summary:\n" + AfterDraft(rest, g) + post, g)
  {
    LeadIsNotBlank(inner, marks, c, more);
    StripOfTrimmed(inner, g);
    DraftStripped(Trim(inner), draft, rest, marks, c, more, g);
    FormatsOutput(output, pre, inner, post, AfterDraft(rest, g), g);
  }

  lemma DraftStripped(s: string, draft: string, rest: string, marks: string, c: char, more: string, g: Tags)
    requires TagsOk(g) && s == draft + g.closeAnalysis + rest && !Contains(rest, g.closeAnalysis)
    requires Leads(s, marks, c, more) && !('0' <= c <= '9')
    ensures StripDraft(s, g) == AfterDraft(rest, g)
  {
    TokensAre(g);
    LeadIs(s, marks, c, more);
    LastTag(draft, g.closeAnalysis, rest);
    StrippedAt(s, |draft|, rest, g);
  }

  lemma {:induction false} StrippedAt(s: string, at: nat, rest: string, g: Tags)
    requires !StartsWithDigit(TrimLead(s)) && RFind(s, g.closeAnalysis) == Some(at)
    requires at + |g.closeAnalysis| <= |s| && s[at + |g.closeAnalysis|..] == rest
    ensures StripDraft(s, g) == AfterDraft(rest, g)
  {
  }

  // ---------------------------------------------------------------- a scratchpad block in front

  lemma BlankHasNoTag(s: string, x: string)
    requires Blank(s) && TokenOk(x)
    ensures '<' !in s && !Contains(s, x)
  {
    BlankIsSpace(s);
    NoTagWithout(s, x);
  }

  lemma BlankIsSpace(s: string)
    ensures Blank(s) <==> forall i :: 0 <= i < |s| ==> IsSpace(s[i])
  {
    TrimStartIs(s);
    TrimEndIs(TrimStart(s));
  }

  /** The block is opened at the end of `lead`, in front of any summary. */
  lemma FrontBlockLeads(lead: string, rest: string, g: Tags)
    requires TagsOk(g) && TagsApart(g) && !Contains(lead, g.openAnalysis) && !Contains(lead, g.openSummary)
    ensures var s := lead + g.openAnalysis + rest;
      Find(s, g.openAnalysis) == Some(|lead|) && (IsLeading(s, |lead|, g) <==> Contains(rest, g.openSummary) || Blank(lead))
  {
    var s, open := lead + g.openAnalysis + rest, g.openSummary;
    TokensAre(g);
    FirstTag(lead, g.openAnalysis, rest);
    assert s[..|lead|] == lead;
    var sp := Find(s, open);
    if sp.Some? {
      WhereItOccurs(lead, g.openAnalysis, rest, open, sp.value);
      if sp.value == |lead| { PrefixOfBoth(lead, g.openAnalysis, rest, open); }
    } else if Contains(rest, open) {
      assert s[|lead| + |g.openAnalysis|..] == rest;
      ContainsTail(s, |lead| + |g.openAnalysis|, open);
      FindIffContains(s, open);
    }
  }

  lemma InFront(s: string, lead: string, tail: string)
    requires s == lead + tail
    ensures s[..|lead|] == lead && s[|lead|..] == tail
  {
  }

  /** The opened block and its notes, in which no tag of the other kind stands. */
  lemma FrontOf(notes: string, tag: string, g: Tags) returns (front: string)
    requires TagsOk(g) && TagsApart(g) && (tag == g.closeAnalysis || tag == g.openSummary) && !Contains(notes, tag)
    ensures front == g.openAnalysis + notes && !Contains(front, tag)
  {
    TokensAre(g);
    AbsentAcross("", g.openAnalysis, notes, tag);
    front := "" + g.openAnalysis + notes;
    assert front == g.openAnalysis + notes;
  }

  lemma BlockGroups(s: string, lead: string, open: string, notes: string, tag: string, rest: string)
    requires s == lead + open + notes + tag + rest
    ensures s == lead + ((open + notes) + tag + rest) && s == lead + open + (notes + tag + rest)
  {
  }

  lemma Behind(front: string, tag: string, rest: string)
    ensures var tail := front + tag + rest; |front| + |tag| <= |tail| && tail[|front|..] == tag + rest && tail[|front| + |tag|..] == rest
  {
  }

  /** From the block on, the tag is found first at its end. */
  lemma TailOf(s: string, lead: string, front: string, tag: string, rest: string) returns (tail: string)
    requires TokenOk(tag) && !Contains(front, tag) && s == lead + (front + tag + rest)
    ensures |lead| <= |s| && s[..|lead|] == lead && s[|lead|..] == tail
    ensures Find(tail, tag) == Some(|front|) && |front| + |tag| <= |tail|
    ensures tail[|front|..] == tag + rest && tail[|front| + |tag|..] == rest
  {
    tail := front + tag + rest;
    InFront(s, lead, tail);
    FirstTag(front, tag, rest);
    Behind(front, tag, rest);
  }

  lemma {:induction false} ClosedBlock(lead: string, tail: string, at: nat, rest: string, g: Tags)
    requires TagsOk(g) && Find(tail, g.closeAnalysis) == Some(at) && at + |g.closeAnalysis| <= |tail|
    requires tail[at + |g.closeAnalysis|..] == rest
    ensures DropBlock(lead, tail, g) == (lead + rest, true)
  {
  }

  lemma ClosedCut(s: string, lead: string, tail: string, at: nat, rest: string, g: Tags)
    requires TagsOk(g) && Find(s, g.openAnalysis) == Some(|lead|) && IsLeading(s, |lead|, g)
    requires |lead| <= |s| && s[..|lead|] == lead && s[|lead|..] == tail
    requires Find(tail, g.closeAnalysis) == Some(at) && at + |g.closeAnalysis| <= |tail| && tail[at + |g.closeAnalysis|..] == rest
    ensures DropRound(s, g) == (lead + rest, true)
  {
    ClosedBlock(lead, tail, at, rest, g);
  }

  lemma ClosedRound(s: string, lead: string, notes: string, rest: string, g: Tags)
    requires TagsOk(g) && TagsApart(g) && !Contains(notes, g.closeAnalysis)
    requires s == lead + g.openAnalysis + notes + g.closeAnalysis + rest
    requires Find(s, g.openAnalysis) == Some(|lead|) && IsLeading(s, |lead|, g)
    ensures DropRound(s, g) == (lead + rest, true)
  {
    BlockGroups(s, lead, g.openAnalysis, notes, g.closeAnalysis, rest);
    var front := FrontOf(notes, g.closeAnalysis, g);
    TokensAre(g);
    var tail := TailOf(s, lead, front, g.closeAnalysis, rest);
    ClosedCut(s, lead, tail, |front|, rest, g);
  }

  lemma DropsAsIf(s: string, next: string, g: Tags)
    requires TagsOk(g) && DropRound(s, g) == (next, true)
    ensures FormatCompactSummary(s, g) == FormatCompactSummary(next, g)
  {
  }

  lemma LeadingBlockIsDropped(output: string, lead: string, notes: string, rest: string, g: Tags)
    requires TagsOk(g) && TagsApart(g) && !Contains(notes, g.closeAnalysis)
    requires output == lead + g.openAnalysis + notes + g.closeAnalysis + rest
    requires Find(output, g.openAnalysis) == Some(|lead|) && IsLeading(output, |lead|, g)
    ensures FormatCompactSummary(output, g) == FormatCompactSummary(lead + rest, g)
  {
    ClosedRound(output, lead, notes, rest, g);
    DropsAsIf(output, lead + rest, g);
  }

  /** A closed scratchpad block in front of the summary, or at the head of the text, changes
      nothing: the rest is cleaned as if it were not there. */
  lemma ClosedBlockIsDropped(output: string, lead: string, notes: string, rest: string, g: Tags)
    requires TagsOk(g) && TagsApart(g) && !Contains(lead, g.openAnalysis) && !Contains(lead, g.openSummary)
    requires !Contains(notes, g.closeAnalysis) && (Blank(lead) || Contains(notes + g.closeAnalysis + rest, g.openSummary))
    requires output == lead + g.openAnalysis + notes + g.closeAnalysis + rest
    ensures FormatCompactSummary(output, g) == FormatCompactSummary(lead + rest, g)
  {
    BlockGroups(output, lead, g.openAnalysis, notes, g.closeAnalysis, rest);
    FrontBlockLeads(lead, notes + g.closeAnalysis + rest, g);
    LeadingBlockIsDropped(output, lead, notes, rest, g);
  }

  /** So does one that directly follows the opening summary tag. */
  lemma InnerBlockIsDropped(output: string, pre: string, blank: string, notes: string, rest: string, g: Tags)
    requires TagsOk(g) && TagsApart(g) && !Contains(pre, g.openAnalysis) && !Contains(pre, g.openSummary)
    requires Blank(blank) && !Contains(notes, g.closeAnalysis)
    requires output == pre + g.openSummary + blank + g.openAnalysis + notes + g.closeAnalysis + rest
    ensures FormatCompactSummary(output, g) == FormatCompactSummary(pre + g.openSummary + blank + rest, g)
  {
    var lead := pre + g.openSummary + blank;
    BlockGroups(output, lead, g.openAnalysis, notes, g.closeAnalysis, rest);
    InnerBlockFound(output, pre, blank, lead, notes + g.closeAnalysis + rest, g);
    LeadingBlockIsDropped(output, lead, notes, rest, g);
  }

  lemma InnerBlockFound(s: string, pre: string, blank: string, lead: string, more: string, g: Tags)
    requires TagsOk(g) && TagsApart(g) && !Contains(pre, g.openAnalysis) && !Contains(pre, g.openSummary) && Blank(blank)
    requires lead == pre + g.openSummary + blank && s == lead + g.openAnalysis + more
    ensures Find(s, g.openAnalysis) == Some(|lead|) && IsLeading(s, |lead|, g)
  {
    TokensAre(g);
    BlankHasNoTag(blank, g.openAnalysis);
    AbsentAcross(pre, g.openSummary, blank, g.openAnalysis);
    FirstOf(s, lead, g.openAnalysis, more, |lead|);
    Regroup(lead, g.openAnalysis, more);
    InnerBlockLeads(s, pre, blank, g.openAnalysis + more, g);
  }

  lemma InnerBlockLeads(s: string, pre: string, blank: string, tail: string, g: Tags)
    requires TagsOk(g) && !Contains(pre, g.openSummary) && Blank(blank) && s == pre + g.openSummary + blank + tail
    ensures IsLeading(s, |pre + g.openSummary + blank|, g)
  {
    TokensAre(g);
    BlankMiddle(s, pre, g.openSummary, blank, tail);
    FirstOf(s, pre, g.openSummary, blank + tail, |pre|);
  }

  lemma BlankMiddle(s: string, pre: string, open: string, blank: string, tail: string)
    requires s == pre + open + blank + tail
    ensures s == pre + open + (blank + tail) && |pre + open + blank| == |pre| + |open| + |blank| <= |s|
    ensures s[|pre| + |open|..|pre| + |open| + |blank|] == blank
  {
  }

  lemma NoClose(front: string, rest: string, g: Tags)
    requires TagsOk(g) && TagsApart(g) && !Contains(front, g.closeAnalysis) && !Contains(rest, g.closeAnalysis)
    ensures Find(front + g.openSummary + rest, g.closeAnalysis).None?
  {
    TokensAre(g);
    AbsentAcross(front, g.openSummary, rest, g.closeAnalysis);
    Absent(front + g.openSummary + rest, g.closeAnalysis);
  }

  lemma UnclosedCut(s: string, lead: string, tail: string, at: nat, rest: string, g: Tags)
    requires TagsOk(g) && Find(s, g.openAnalysis) == Some(|lead|) && IsLeading(s, |lead|, g)
    requires |lead| <= |s| && s[..|lead|] == lead && s[|lead|..] == tail
    requires Find(tail, g.closeAnalysis).None? && Find(tail, g.openSummary) == Some(at) && at <= |tail| && tail[at..] == rest
    ensures DropRound(s, g) == (lead + rest, false)
  {
  }

  lemma UnclosedRound(s: string, lead: string, notes: string, rest: string, g: Tags)
    requires TagsOk(g) && TagsApart(g) && s == lead + g.openAnalysis + notes + g.openSummary + rest
    requires !Contains(notes, g.openSummary) && !Contains(notes, g.closeAnalysis) && !Contains(rest, g.closeAnalysis)
    requires Find(s, g.openAnalysis) == Some(|lead|) && IsLeading(s, |lead|, g)
    ensures DropRound(s, g) == (lead + (g.openSummary + rest), false)
  {
    BlockGroups(s, lead, g.openAnalysis, notes, g.openSummary, rest);
    var front := FrontOf(notes, g.openSummary, g);
    var same := FrontOf(notes, g.closeAnalysis, g);
    NoClose(front, rest, g);
    TokensAre(g);
    InFront(s, lead, front + g.openSummary + rest);
    var tail := TailOf(s, lead, front, g.openSummary, rest);
    UnclosedCut(s, lead, tail, |front|, g.openSummary + rest, g);
  }

  lemma DropsOnce(s: string, next: string, g: Tags)
    requires TagsOk(g) && DropRound(s, g) == (next, false) && DropAnalysis(next, g) == next
    ensures FormatCompactSummary(s, g) == FormatCompactSummary(next, g)
  {
  }

  /** An unclosed block goes up to the summary. */
  lemma UnclosedBlockGoesToSummary(output: string, lead: string, notes: string, rest: string, g: Tags)
    requires TagsOk(g) && TagsApart(g) && !Contains(lead, g.openAnalysis) && !Contains(lead, g.openSummary)
    requires !Contains(notes, g.openSummary) && !Contains(notes, g.closeAnalysis)
    requires !Contains(rest, g.closeAnalysis) && !Contains(rest, g.openAnalysis)
    requires output == lead + g.openAnalysis + notes + g.openSummary + rest
    ensures FormatCompactSummary(output, g) == FormatCompactSummary(lead + (g.openSummary + rest), g)
  {
    var tail := notes + g.openSummary + rest;
    TokensAre(g);
    BlockGroups(output, lead, g.openAnalysis, notes, g.openSummary, rest);
    TagStands(notes, g.openSummary, rest);
    FrontBlockLeads(lead, tail, g);
    UnclosedRound(output, lead, notes, rest, g);
    AbsentAcross(lead, g.openSummary, rest, g.openAnalysis);
    Regroup(lead, g.openSummary, rest);
    NothingDropped(lead + (g.openSummary + rest), g);
    DropsOnce(output, lead + (g.openSummary + rest), g);
  }

  lemma RoundStops(s: string, at: nat, g: Tags)
    requires TagsOk(g) && Find(s, g.openAnalysis) == Some(at) && at <= |s| && !IsLeading(s, at, g) && Find(s, g.openSummary).None?
    ensures DropAnalysis(s, g) == s && UnwrapSummary(s, g) == s
  {
  }

  /** Without a summary, a block behind other text is no scratchpad and stays. */
  lemma LaterBlockIsKept(output: string, lead: string, rest: string, g: Tags)
    requires TagsOk(g) && TagsApart(g) && !Contains(lead, g.openAnalysis) && !Contains(lead, g.openSummary)
    requires !Contains(rest, g.openSummary) && !Blank(lead) && output == lead + g.openAnalysis + rest
    ensures FormatCompactSummary(output, g) == Cleaned(output, g)
  {
    TokensAre(g);
    FrontBlockLeads(lead, rest, g);
    AbsentAcross(lead, g.openAnalysis, rest, g.openSummary);
    Absent(output, g.openSummary);
    RoundStops(output, |lead|, g);
    FormatsTo(output, output, g);
  }

  /** Were the scratchpad tag to begin with the summary tag, no block in front would go. */
  lemma SharedTagIsNoScratchpad(output: string, lead: string, rest: string, g: Tags)
    requires TagsOk(g) && g.openSummary <= g.openAnalysis && !Contains(lead, g.openAnalysis) && !Contains(lead, g.openSummary)
    requires output == lead + g.openAnalysis + rest
    ensures DropAnalysis(output, g) == output
  {
    var more := g.openAnalysis[|g.openSummary|..] + rest;
    TokensAre(g);
    SharedGroups(output, lead, rest, g);
    FirstOf(output, lead, g.openAnalysis, rest, |lead|);
    FirstOf(output, lead, g.openSummary, more, |lead|);
    LeadsOnlyAtClose(output, |lead|, |lead|, |lead| + |g.openSummary|, "", g);
    NoLeadStays(output, g);
  }

  lemma SharedGroups(output: string, lead: string, rest: string, g: Tags)
    requires g.openSummary <= g.openAnalysis && output == lead + g.openAnalysis + rest
    ensures output == lead + g.openSummary + (g.openAnalysis[|g.openSummary|..] + rest)
  {
  }
}
