/** What is read as the query of a turn: the text without the runtime's own blocks, and of that
    the part between the query tags. */
module QueryExtraction {
  import opened Bytes
  import opened Conversation
  import opened Text
  import opened CompactionRounds
  import SummaryPieces

  /** A tag: `<`, and no other. */
  predicate Mark(x: string) { x != "" && x[0] == '<' && forall j :: 1 <= j < |x| ==> x[j] != '<' }

  lemma TagMarks(tag: string)
    requires PlainName(tag)
    ensures Mark(OpenTag(tag)) && Mark(CloseTag(tag)) && |OpenTag(tag)| > 2 && |CloseTag(tag)| > 2
    ensures OpenTag(tag)[1] != '/' && CloseTag(tag)[1] == '/'
  {
    var a, b := OpenTag(tag), CloseTag(tag);
    assert forall k :: 1 <= k <= |tag| ==> a[k] == tag[k - 1];
    assert forall k :: 2 <= k <= |tag| + 1 ==> b[k] == tag[k - 2];
  }

  lemma AtChars(s: string, x: string, i: nat)
    ensures At(s, x, i) ==> forall k :: 0 <= k < |x| ==> s[i + k] == x[k]
  {
    if At(s, x, i) {
      forall k | 0 <= k < |x| ensures s[i + k] == x[k] { assert s[i..i + |x|][k] == s[i + k]; }
    }
  }

  /** No occurrence of a tag reaches from a text into the tag behind it. */
  lemma CharAt(s: string, x: string, i: nat, p: nat)
    requires At(s, x, i) && i <= p < |s|
    ensures p < i + |x| ==> s[p] == x[p - i]
  {
    AtChars(s, x, i);
  }

  lemma NotAcross(a: string, x: string, more: string, i: nat)
    requires Mark(x) && more != "" && more[0] == '<' && i < |a| && At(a + more, x, i)
    ensures i + |x| <= |a|
  {
    AtChars(a + more, x, i);
    assert (a + more)[|a|] == '<';
    CharAt(a + more, x, i, |a|);
  }

  lemma NotBefore(a: string, x: string, more: string, i: nat)
    requires Mark(x) && more != "" && more[0] == '<' && i < |a| && At(a + more, x, i)
    ensures Contains(a, x)
  {
    NotAcross(a, x, more, i);
    SummaryPieces.InsideFirst(a, more, x, i);
  }

  lemma FirstMark(s: string, a: string, x: string, b: string)
    requires Mark(x) && !Contains(a, x) && s == a + x + b
    ensures Find(s, x) == Some(|a|)
  {
    SummaryPieces.TagStands(a, x, b);
    Regroup(a, x, b);
    var at := Find(s, x).value;
    if at < |a| { NotBefore(a, x, x + b, at); }
  }

  /** The closing tag does not occur in the opening one or the text behind it. */
  lemma NotInFront(open: string, body: string, close: string)
    requires Mark(open) && Mark(close) && |open| > 1 && |close| > 1 && open[1] != close[1] && !Contains(body, close)
    ensures !Contains(open + body, close)
  {
    var s := open + body;
    assert s[|open|..] == body;
    forall i | 0 <= i <= |s| ensures !At(s, close, i) {
      AtChars(s, close, i);
      assert At(s, close, i) ==> s[i + 0] == '<' && s[i + 1] == close[1];
      if i >= |open| { SuffixAt(s, |open|, close, i); }
    }
  }

  lemma SuffixAt(s: string, lo: nat, x: string, i: nat)
    requires lo <= i && lo <= |s|
    ensures At(s, x, i) ==> Contains(s[lo..], x)
  {
    if At(s, x, i) { AtSuffix(s, lo, x, i); }
  }

  lemma BlockParts(s: string, pre: string, open: string, body: string, close: string, post: string)
    requires s == pre + open + body + close + post
    ensures s == pre + open + (body + close + post) && |pre| <= |s|
    ensures var rest := s[|pre|..];
      && s[..|pre|] == pre && rest == (open + body) + close + post && |open| + |body| + |close| <= |rest|
      && rest[|open| + |body| + |close|..] == post
  {
  }

  lemma {:induction false} CutAt(lead: string, rest: string, close: string, at: nat, post: string)
    requires Find(rest, close) == Some(at) && at + |close| <= |rest| && rest[at + |close|..] == post
    ensures CutBlock(lead, rest, close) == Some(lead + post)
  {
  }

  lemma {:induction false} StripAt(s: string, tag: string, pre: string, rest: string, next: string)
    requires Find(s, OpenTag(tag)) == Some(|pre|) && |pre| <= |s| && s[..|pre|] == pre && s[|pre|..] == rest
    requires CutBlock(pre, rest, CloseTag(tag)) == Some(next)
    ensures StripTag(s, tag) == StripTag(next, tag)
  {
  }

  lemma RestFound(rest: string, open: string, body: string, close: string, post: string)
    requires Mark(open) && Mark(close) && |open| > 1 && |close| > 1 && open[1] != close[1] && !Contains(body, close)
    requires rest == (open + body) + close + post
    ensures Find(rest, close) == Some(|open| + |body|)
  {
    NotInFront(open, body, close);
    FirstMark(rest, open + body, close, post);
  }

  lemma BlockFound(s: string, pre: string, open: string, body: string, close: string, post: string) returns (rest: string)
    requires Mark(open) && Mark(close) && |open| > 1 && |close| > 1 && open[1] != close[1]
    requires !Contains(pre, open) && !Contains(body, close) && s == pre + open + body + close + post
    ensures Find(s, open) == Some(|pre|) && |pre| <= |s| && s[..|pre|] == pre && s[|pre|..] == rest
    ensures CutBlock(pre, rest, close) == Some(pre + post)
  {
    BlockParts(s, pre, open, body, close, post);
    FirstMark(s, pre, open, body + close + post);
    rest := s[|pre|..];
    RestFound(rest, open, body, close, post);
    CutAt(pre, rest, close, |open| + |body|, post);
  }

  /** The first closed block of a tag goes with all that is in it. */
  lemma {:induction false} BlockIsStripped(s: string, pre: string, body: string, post: string, tag: string)
    requires PlainName(tag) && !Contains(pre, OpenTag(tag)) && !Contains(body, CloseTag(tag))
    requires s == pre + OpenTag(tag) + body + CloseTag(tag) + post
    ensures StripTag(s, tag) == StripTag(pre + post, tag)
  {
    TagMarks(tag);
    var rest := BlockFound(s, pre, OpenTag(tag), body, CloseTag(tag), post);
    StripAt(s, tag, pre, rest, pre + post);
  }

  /** An unclosed block stays, and so does a text without the tag. */
  lemma UnclosedStays(s: string, pre: string, rest: string, tag: string)
    requires PlainName(tag) && !Contains(pre, OpenTag(tag)) && !Contains(rest, CloseTag(tag))
    requires s == pre + OpenTag(tag) + rest
    ensures StripTag(s, tag) == s
  {
    TagMarks(tag);
    FirstMark(s, pre, OpenTag(tag), rest);
    assert s[|pre|..] == OpenTag(tag) + rest;
    NotInFront(OpenTag(tag), rest, CloseTag(tag));
    FindIffContains(s[|pre|..], CloseTag(tag));
  }

  lemma UntaggedStays(s: string, tag: string)
    requires !Contains(s, OpenTag(tag))
    ensures StripTag(s, tag) == s
  {
    FindIffContains(s, OpenTag(tag));
  }

  // ---------------------------------------------------------------- every tag of the runtime

  lemma PlainHasNone(s: string, x: string)
    requires '<' !in s && x != "" && x[0] == '<'
    ensures !Contains(s, x)
  {
    forall i | 0 <= i <= |s| ensures !At(s, x, i) {
      if i + |x| <= |s| { assert s[i..i + |x|][0] == s[i]; }
    }
  }

  lemma PlainUntagged(s: string, tag: string)
    requires '<' !in s
    ensures !Contains(s, OpenTag(tag)) && !Contains(s, CloseTag(tag))
  {
    PlainHasNone(s, OpenTag(tag));
    PlainHasNone(s, CloseTag(tag));
  }

  /** With one block in a plain text, no other tag occurs. */
  lemma OtherTagAbsent(s: string, pre: string, body: string, post: string, tag: string, other: string)
    requires PlainName(tag) && PlainName(other) && tag != other && '<' !in pre && '<' !in body && '<' !in post
    requires s == pre + OpenTag(tag) + body + CloseTag(tag) + post
    ensures !Contains(s, OpenTag(other))
  {
    if Contains(s, OpenTag(other)) {
      var i :| 0 <= i <= |s| && At(s, OpenTag(other), i);
      SameTag(s, pre, body, post, tag, other, i);
    }
  }

  lemma OnlyMarks(s: string, pre: string, body: string, post: string, tag: string, i: nat)
    requires PlainName(tag) && '<' !in pre && '<' !in body && '<' !in post && i < |s| && s[i] == '<'
    requires s == pre + OpenTag(tag) + body + CloseTag(tag) + post
    ensures i == |pre| || (i == |pre| + |OpenTag(tag)| + |body| && i + 1 < |s| && s[i + 1] == '/')
  {
    TagMarks(tag);
  }

  lemma SameTag(s: string, pre: string, body: string, post: string, tag: string, other: string, i: nat)
    requires PlainName(tag) && PlainName(other) && '<' !in pre && '<' !in body && '<' !in post
    requires s == pre + OpenTag(tag) + body + CloseTag(tag) + post && At(s, OpenTag(other), i)
    ensures tag == other
  {
    TagMarks(other);
    AtChars(s, OpenTag(other), i);
    assert s[i + 0] == '<' && s[i + 1] == OpenTag(other)[1];
    OnlyMarks(s, pre, body, post, tag, i);
    BlockParts(s, pre, OpenTag(tag), body, CloseTag(tag), post);
    SummaryPieces.PrefixOfBoth(pre, OpenTag(tag), body + CloseTag(tag) + post, OpenTag(other));
    PrefixTag(tag, other);
    PrefixTag(other, tag);
  }

  lemma PrefixTag(a: string, b: string)
    requires PlainName(a) && PlainName(b)
    ensures OpenTag(a) <= OpenTag(b) ==> a == b
  {
    SummaryPieces.PrefixIsContained(OpenTag(b), OpenTag(a));
    TagsApart(b, a);
  }

  lemma {:induction false} PlainStays(s: string, tags: seq<string>)
    requires '<' !in s
    ensures StripTags(s, tags) == s
  {
    if tags != [] {
      PlainUntagged(s, tags[0]);
      UntaggedStays(s, tags[0]);
      PlainStays(s, tags[1..]);
    }
  }

  /** Whichever of the tags a block has, it is stripped. */
  lemma {:induction false} EveryTagIsStripped(s: string, pre: string, body: string, post: string, tags: seq<string>, k: nat)
    requires k < |tags| && forall j :: 0 <= j < |tags| ==> PlainName(tags[j])
    requires '<' !in pre && '<' !in body && '<' !in post
    requires s == pre + OpenTag(tags[k]) + body + CloseTag(tags[k]) + post
    ensures StripTags(s, tags) == pre + post
  {
    if tags[0] == tags[k] {
      PlainUntagged(pre, tags[k]);
      PlainUntagged(body, tags[k]);
      BlockIsStripped(s, pre, body, post, tags[k]);
      PlainUntagged(pre + post, tags[k]);
      UntaggedStays(pre + post, tags[k]);
      PlainStays(pre + post, tags[1..]);
    } else {
      OtherTagAbsent(s, pre, body, post, tags[k], tags[0]);
      UntaggedStays(s, tags[0]);
      EveryTagIsStripped(s, pre, body, post, tags[1..], k - 1);
    }
  }

  // ---------------------------------------------------------------- the query

  lemma SlotParts(s: string, pre: string, open: string, q: string, close: string, post: string)
    requires s == pre + open + q + close + post
    ensures s == pre + open + (q + close + post) && |pre| + |open| + |q| <= |s|
    ensures s[|pre| + |open|..] == q + close + post && s[|pre| + |open|..|pre| + |open| + |q|] == q
  {
  }

  lemma SlotFound(s: string, pre: string, open: string, q: string, close: string, post: string) returns (rest: string)
    requires Mark(open) && Mark(close) && !Contains(pre, open) && !Contains(q, close) && s == pre + open + q + close + post
    ensures Find(s, open) == Some(|pre|) && |pre| + |open| + |q| <= |s| && s[|pre| + |open|..] == rest
    ensures SlotIn(rest, |pre| + |open|, close) == Some((|pre| + |open|, |pre| + |open| + |q|))
    ensures s[|pre| + |open|..|pre| + |open| + |q|] == q
  {
    SlotParts(s, pre, open, q, close, post);
    FirstMark(s, pre, open, q + close + post);
    rest := s[|pre| + |open|..];
    FirstMark(rest, q, close, post);
    SlotInAt(rest, |pre| + |open|, close, |q|);
  }

  /** The query is the trimmed text from the first opening tag to the next closing one. */
  lemma QueryIsBetween(s: string, pre: string, open: string, q: string, close: string, post: string)
    requires Mark(open) && Mark(close) && !Contains(pre, open) && !Contains(q, close) && s == pre + open + q + close + post
    ensures Between(s, open, close) == Trim(q)
  {
    var rest := SlotFound(s, pre, open, q, close, post);
    SlotAt(s, open, close, |pre|, rest, |q|);
    BetweenAt(s, open, close, |pre| + |open|, |pre| + |open| + |q|, q);
  }

  lemma {:induction false} SlotAt(s: string, open: string, close: string, at: nat, rest: string, len: nat)
    requires Find(s, open) == Some(at) && at + |open| <= |s| && s[at + |open|..] == rest
    requires SlotIn(rest, at + |open|, close) == Some((at + |open|, at + |open| + len))
    ensures Slot(s, open, close) == Some((at + |open|, at + |open| + len))
  {
  }

  lemma {:induction false} SlotInAt(rest: string, lo: nat, close: string, len: nat)
    requires Find(rest, close) == Some(len)
    ensures SlotIn(rest, lo, close) == Some((lo, lo + len))
  {
  }

  lemma {:induction false} BetweenAt(s: string, open: string, close: string, lo: nat, hi: nat, q: string)
    requires lo <= hi <= |s| && Slot(s, open, close) == Some((lo, hi)) && s[lo..hi] == q
    ensures Between(s, open, close) == Trim(q)
  {
  }

  /** Without the tag, or without its end, the whole text is the query. */
  lemma {:induction false} WholeIsQuery(s: string, open: string, close: string)
    requires !Contains(s, open) || !Contains(s, close)
    ensures Between(s, open, close) == s
  {
    FindIffContains(s, open);
    var start := Find(s, open);
    if start.Some? && start.value + |open| <= |s| {
      var lo := start.value + |open|;
      FindIffContains(s[lo..], close);
      if Contains(s[lo..], close) { ContainsTail(s, lo, close); }
    }
  }

  // ---------------------------------------------------------------- the text of a turn

  lemma {:induction false} TextsConcat(a: seq<Part>, b: seq<Part>)
    ensures PartTexts(a + b) == PartTexts(a) + PartTexts(b)
  {
    if a == [] {
      assert a + b == b;
    } else {
      assert (a + b)[1..] == a[1..] + b;
      TextsConcat(a[1..], b);
    }
  }

  lemma {:induction false} LinesSnoc(xs: seq<string>, x: string)
    ensures JoinLines(xs + [x]) == if xs == [] then x else JoinLines(xs) + "\n" + x
  {
    if |xs| > 1 {
      assert (xs + [x])[1..] == xs[1..] + [x];
      LinesSnoc(xs[1..], x);
      SummaryCleaner.RegroupEnds(xs[0], "\n", JoinLines(xs[1..]), "\n" + x);
    }
  }

  /** The text of a turn: its text parts on lines of their own, images left out. */
  lemma TurnTextIs(parts: seq<Part>, part: Part)
    ensures UserText([]) == ""
    ensures part.Image? ==> UserText(parts + [part]) == UserText(parts)
    ensures part.Text? && (forall k :: 0 <= k < |parts| ==> parts[k].Image?) ==> UserText(parts + [part]) == part.text
    ensures part.Text? && (exists k :: 0 <= k < |parts| && parts[k].Text?) ==>
      UserText(parts + [part]) == UserText(parts) + "\n" + part.text
  {
    TextsConcat(parts, [part]);
    NoTexts(parts);
    assert PartTexts([part]) == if part.Text? then [part.text] else [];
    assert PartTexts(parts) + [] == PartTexts(parts);
    if part.Text? { LinesSnoc(PartTexts(parts), part.text); }
  }

  lemma {:induction false} NoTexts(parts: seq<Part>)
    ensures PartTexts(parts) == [] <==> forall k :: 0 <= k < |parts| ==> parts[k].Image?
  {
    if parts != [] {
      NoTexts(parts[1..]);
      assert forall k :: 1 <= k < |parts| ==> parts[k] == parts[1..][k - 1];
    }
  }
}
