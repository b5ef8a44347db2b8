/** Cleaning the raw output of the compaction model: scratchpad dropped, summary unwrapped,
    echoed control tokens defused, newline runs capped. */
module SummaryCleaner {
  import opened Bytes
  import opened Text

  const ZERO_WIDTH_SPACE := '\U{200B}'

  // ---------------------------------------------------------------- replacing

  /** Left to right, without overlap. */
  function Replace(s: string, t: string, u: string): string
    requires t != []
    decreases |s|
  {
    if s == [] then []
    else if At(s, t, 0) then u + Replace(s[|t|..], t, u)
    else [s[0]] + Replace(s[1..], t, u)
  }

  lemma {:induction false} ReplaceLength(s: string, t: string, u: string)
    requires t != [] && |u| < |t|
    ensures |Replace(s, t, u)| <= |s|
    ensures Contains(s, t) ==> |Replace(s, t, u)| < |s|
    decreases |s|
  {
    if s == [] {
    } else if At(s, t, 0) {
      ReplaceLength(s[|t|..], t, u);
    } else {
      ReplaceLength(s[1..], t, u);
      if Contains(s, t) {
        var i :| 0 <= i <= |s| && At(s, t, i);
        AtTail(s, t, i);
        assert Contains(s[1..], t);
      }
    }
  }

  // ---------------------------------------------------------------- defusing control tokens

  /** The shape of every control token: one `<`, in front, and no sentinel. */
  predicate TokenOk(t: string) {
    |t| >= 2 && t[0] == '<' && '<' !in t[1..] && ZERO_WIDTH_SPACE !in t && '\n' !in t
  }

  predicate TokensOk(tokens: seq<string>) { forall k :: 0 <= k < |tokens| ==> TokenOk(tokens[k]) }

  function Sentinel(t: string): string
    requires t != []
  { [t[0]] + ([ZERO_WIDTH_SPACE] + t[1..]) }

  predicate AnyAt(s: string, tokens: seq<string>) { exists k :: 0 <= k < |tokens| && At(s, tokens[k], 0) }

  /** One pass over the text: a sentinel after each `<` that starts a token. */
  function Defuse(s: string, tokens: seq<string>): string {
    if s == [] then []
    else [s[0]] + (if AnyAt(s, tokens) then [ZERO_WIDTH_SPACE] + Defuse(s[1..], tokens) else Defuse(s[1..], tokens))
  }

  /** Token after token, each replaced in the whole text. */
  function DefuseInTurn(s: string, tokens: seq<string>): string
    requires TokensOk(tokens)
    decreases |tokens|
  {
    if tokens == [] then s else DefuseInTurn(Replace(s, tokens[0], Sentinel(tokens[0])), tokens[1..])
  }

  lemma {:induction false} DefuseSkips(p: string, rest: string, tokens: seq<string>)
    requires TokensOk(tokens) && '<' !in p
    ensures Defuse(p + rest, tokens) == p + Defuse(rest, tokens)
  {
    if p == [] {
      assert p + rest == rest;
    } else {
      assert p + rest == [p[0]] + (p[1..] + rest) && p == [p[0]] + p[1..];
      DefuseSkip(p[0], p[1..] + rest, tokens);
      DefuseSkips(p[1..], rest, tokens);
      Regroup([p[0]], p[1..], Defuse(rest, tokens));
    }
  }

  lemma DefuseSkip(c: char, rest: string, tokens: seq<string>)
    requires TokensOk(tokens) && c != '<'
    ensures Defuse([c] + rest, tokens) == [c] + Defuse(rest, tokens)
  {
    NoTokenAtOther([c] + rest, tokens);
    assert ([c] + rest)[1..] == rest;
  }

  lemma NoTokenAtOther(s: string, tokens: seq<string>)
    requires TokensOk(tokens) && s != [] && s[0] != '<'
    ensures !AnyAt(s, tokens)
  {
    forall k | 0 <= k < |tokens| ensures !At(s, tokens[k], 0) {
      NotAtOther(s, tokens[k]);
    }
  }

  lemma NotAtOther(s: string, t: string)
    requires TokenOk(t) && s != [] && s[0] != '<'
    ensures !At(s, t, 0)
  {
    if |s| >= |t| { assert s[0..|t|][0] == s[0]; }
  }

  lemma ReplaceAtStart(s: string, t: string)
    requires TokenOk(t) && At(s, t, 0)
    requires Replace(s[|t|..], t, Sentinel(t)) == Defuse(s[|t|..], [t])
    ensures Replace(s, t, Sentinel(t)) == Defuse(s, [t])
  {
    var rest := s[|t|..];
    assert s[0..|t|] == t && s[0] == t[0] && s[1..] == t[1..] + rest;
    DefuseSkips(t[1..], rest, [t]);
    AnyAtOne(s, t);
    RegroupEnds([t[0]], [ZERO_WIDTH_SPACE], t[1..], Defuse(rest, [t]));
  }

  lemma RegroupEnds(a: string, b: string, c: string, d: string)
    ensures (a + (b + c)) + d == a + (b + (c + d))
  {
  }

  /** Replacing one token everywhere is the single pass for that token. */
  lemma {:induction false} ReplaceIsDefuse(s: string, t: string)
    requires TokenOk(t)
    ensures Replace(s, t, Sentinel(t)) == Defuse(s, [t])
    decreases |s|
  {
    if s == [] {
    } else if At(s, t, 0) {
      ReplaceIsDefuse(s[|t|..], t);
      ReplaceAtStart(s, t);
    } else {
      ReplaceIsDefuse(s[1..], t);
      AnyAtOne(s, t);
    }
  }

  /** A text without `<` and sentinel is a prefix after defusing exactly when it was before. */
  lemma {:induction false} DefuseKeepsPlainPrefix(s: string, tokens: seq<string>, p: string)
    requires TokensOk(tokens) && '<' !in p
    ensures At(Defuse(s, tokens), p, 0) <==> At(s, p, 0)
  {
    if p == [] || s == [] {
    } else if s[0] == '<' {
      assert Defuse(s, tokens)[0] == '<' && p[0] != '<';
      PrefixHead(s, p);
      PrefixHead(Defuse(s, tokens), p);
    } else {
      NoTokenAtOther(s, tokens);
      DefuseKeepsPlainPrefix(s[1..], tokens, p[1..]);
      PrefixHead(s, p);
      PrefixHead(Defuse(s, tokens), p);
      assert Defuse(s, tokens)[1..] == Defuse(s[1..], tokens);
    }
  }

  lemma PrefixHead(s: string, p: string)
    requires p != []
    ensures At(s, p, 0) <==> s != [] && s[0] == p[0] && At(s[1..], p[1..], 0)
  {
    if |s| >= |p| {
      assert s[0..|p|] == [s[0]] + s[1..][0..|p| - 1];
      assert p == [p[0]] + p[1..];
    }
  }

  /** After defusing for `tokens`, a further token starts exactly where it did and none of
      `tokens` did. */
  lemma DefusedStart(s: string, tokens: seq<string>, t: string)
    requires TokensOk(tokens) && TokenOk(t) && s != []
    ensures At(Defuse(s, tokens), t, 0) <==> At(s, t, 0) && !AnyAt(s, tokens)
  {
    var d := Defuse(s, tokens);
    PrefixHead(s, t);
    PrefixHead(d, t);
    if AnyAt(s, tokens) {
      PrefixHead(d[1..], t[1..]);
      assert d[1] == ZERO_WIDTH_SPACE && t[1..][0] in t;
    } else {
      assert d[1..] == Defuse(s[1..], tokens);
      DefuseKeepsPlainPrefix(s[1..], tokens, t[1..]);
    }
  }

  lemma {:induction false} DefuseTwice(s: string, tokens: seq<string>, t: string)
    requires TokensOk(tokens) && TokenOk(t)
    ensures Defuse(Defuse(s, tokens), [t]) == Defuse(s, tokens + [t])
  {
    if s != [] {
      DefuseTwice(s[1..], tokens, t);
      if AnyAt(s, tokens) { DefuseTwiceHit(s, tokens, t); } else { DefuseTwiceMiss(s, tokens, t); }
    }
  }

  lemma AnyAtOne(s: string, t: string)
    ensures AnyAt(s, [t]) <==> At(s, t, 0)
  {
    assert [t][0] == t;
  }

  lemma DefuseBehindSentinel(c: char, rest: string, t: string)
    requires TokenOk(t)
    ensures !At([c] + ([ZERO_WIDTH_SPACE] + rest), t, 0)
    ensures Defuse([c] + ([ZERO_WIDTH_SPACE] + rest), [t]) == [c] + ([ZERO_WIDTH_SPACE] + Defuse(rest, [t]))
  {
    var d := [c] + ([ZERO_WIDTH_SPACE] + rest);
    assert d[1..] == [ZERO_WIDTH_SPACE] + rest;
    if |d| >= |t| { assert d[0..|t|][1] == ZERO_WIDTH_SPACE; }
    AnyAtOne(d, t);
    DefuseSkips([ZERO_WIDTH_SPACE], rest, [t]);
  }

  lemma DefuseTwiceHit(s: string, tokens: seq<string>, t: string)
    requires TokensOk(tokens) && TokenOk(t) && s != [] && AnyAt(s, tokens)
    requires Defuse(Defuse(s[1..], tokens), [t]) == Defuse(s[1..], tokens + [t])
    ensures Defuse(Defuse(s, tokens), [t]) == Defuse(s, tokens + [t])
  {
    AnyAtAppend(s, tokens, t);
    DefuseBehindSentinel(s[0], Defuse(s[1..], tokens), t);
  }

  lemma DefuseTwiceMiss(s: string, tokens: seq<string>, t: string)
    requires TokensOk(tokens) && TokenOk(t) && s != [] && !AnyAt(s, tokens)
    requires Defuse(Defuse(s[1..], tokens), [t]) == Defuse(s[1..], tokens + [t])
    ensures Defuse(Defuse(s, tokens), [t]) == Defuse(s, tokens + [t])
  {
    AnyAtAppend(s, tokens, t);
    DefusedStart(s, tokens, t);
    DefuseHead(s[0], Defuse(s[1..], tokens), t);
  }

  lemma DefuseHead(c: char, rest: string, t: string)
    ensures Defuse([c] + rest, [t]) ==
      [c] + (if At([c] + rest, t, 0) then [ZERO_WIDTH_SPACE] + Defuse(rest, [t]) else Defuse(rest, [t]))
  {
    AnyAtOne([c] + rest, t);
    assert ([c] + rest)[1..] == rest;
  }

  lemma AnyAtAppend(s: string, tokens: seq<string>, t: string)
    ensures AnyAt(s, tokens + [t]) <==> AnyAt(s, tokens) || At(s, t, 0)
  {
    var all := tokens + [t];
    if AnyAt(s, tokens) {
      var k :| 0 <= k < |tokens| && At(s, tokens[k], 0);
      assert At(s, all[k], 0);
    }
    if At(s, t, 0) { assert At(s, all[|tokens|], 0); }
  }

  lemma {:induction false} InTurnIsDefuse(s: string, done: seq<string>, tokens: seq<string>)
    requires TokensOk(done) && TokensOk(tokens)
    ensures DefuseInTurn(Defuse(s, done), tokens) == Defuse(s, done + tokens)
    decreases |tokens|
  {
    if tokens == [] {
      assert done + tokens == done;
    } else {
      ReplaceIsDefuse(Defuse(s, done), tokens[0]);
      DefuseTwice(s, done, tokens[0]);
      assert done + [tokens[0]] + tokens[1..] == done + tokens;
      InTurnIsDefuse(s, done + [tokens[0]], tokens[1..]);
    }
  }

  lemma {:induction false} DefuseNothing(s: string)
    ensures Defuse(s, []) == s
  {
    if s != [] { DefuseNothing(s[1..]); }
  }

  /** The passes in turn equal the one simultaneous pass: none disturbs another. */
  lemma DefuseInTurnIsOnePass(s: string, tokens: seq<string>)
    requires TokensOk(tokens)
    ensures DefuseInTurn(s, tokens) == Defuse(s, tokens)
  {
    DefuseNothing(s);
    InTurnIsDefuse(s, [], tokens);
    assert [] + tokens == tokens;
  }

  lemma {:induction false} DefusedHasNoToken(s: string, tokens: seq<string>, k: nat, i: nat)
    requires TokensOk(tokens) && k < |tokens|
    ensures !At(Defuse(s, tokens), tokens[k], i)
  {
    if s != [] {
      var d := Defuse(s, tokens);
      DefusedStart(s, tokens, tokens[k]);
      if i > 0 && i <= |d| {
        AtTail(d, tokens[k], i);
        if AnyAt(s, tokens) {
          var r := [ZERO_WIDTH_SPACE] + Defuse(s[1..], tokens);
          assert d[1..] == r;
          if i == 1 {
            NotAtOther(r, tokens[k]);
          } else {
            AtTail(r, tokens[k], i - 1);
            assert r[1..] == Defuse(s[1..], tokens);
            DefusedHasNoToken(s[1..], tokens, k, i - 2);
          }
        } else {
          assert d[1..] == Defuse(s[1..], tokens);
          DefusedHasNoToken(s[1..], tokens, k, i - 1);
        }
      }
    }
  }

  predicate TokenFree(s: string, tokens: seq<string>) { forall k :: 0 <= k < |tokens| ==> !Contains(s, tokens[k]) }

  lemma DefusedIsTokenFree(s: string, tokens: seq<string>)
    requires TokensOk(tokens)
    ensures TokenFree(Defuse(s, tokens), tokens)
  {
    var d := Defuse(s, tokens);
    forall k | 0 <= k < |tokens| ensures !Contains(d, tokens[k]) {
      forall i | 0 <= i <= |d| ensures !At(d, tokens[k], i) {
        DefusedHasNoToken(s, tokens, k, i);
      }
    }
  }

  lemma {:induction false} DefuseTokenFree(s: string, tokens: seq<string>)
    requires TokenFree(s, tokens)
    ensures Defuse(s, tokens) == s
  {
    if s != [] {
      assert forall k :: 0 <= k < |tokens| ==> (At(s, tokens[k], 0) ==> Contains(s, tokens[k]));
      forall k | 0 <= k < |tokens| ensures !Contains(s[1..], tokens[k]) {
        if Contains(s[1..], tokens[k]) { ContainsTail(s, 1, tokens[k]); }
      }
      DefuseTokenFree(s[1..], tokens);
    }
  }

  // ---------------------------------------------------------------- newline runs

  const TRIPLE := "\n\n\n"
  const DOUBLE := "\n\n"

  /** Replace until no triple newline is left. */
  function Collapse(s: string): string
    decreases |s|
  {
    if Contains(s, TRIPLE) then
      ReplaceLength(s, TRIPLE, DOUBLE);
      Collapse(Replace(s, TRIPLE, DOUBLE))
    else s
  }

  /** Every run of newlines cut to two, given how many (at most two) came before. */
  function Cap(s: string, run: nat): string {
    if s == [] then []
    else if s[0] != '\n' then [s[0]] + Cap(s[1..], 0)
    else if run >= 2 then Cap(s[1..], run)
    else [s[0]] + Cap(s[1..], run + 1)
  }

  lemma CapThree(rest: string, run: nat)
    requires run <= 2
    ensures Cap(TRIPLE + rest, run) == (if run == 0 then DOUBLE else if run == 1 then "\n" else "") + Cap(rest, 2)
    ensures Cap(DOUBLE + rest, run) == (if run == 0 then DOUBLE else if run == 1 then "\n" else "") + Cap(rest, 2)
  {
    var one, two := "\n" + rest, "\n" + ("\n" + rest);
    assert DOUBLE + rest == two && TRIPLE + rest == "\n" + two;
    assert two[1..] == one && one[1..] == rest && ("\n" + two)[1..] == two;
    assert Cap(one, 2) == Cap(rest, 2) && Cap(two, 2) == Cap(one, 2);
    assert Cap(one, 1) == "\n" + Cap(rest, 2) && Cap(two, 1) == "\n" + Cap(one, 2);
    assert Cap(two, 0) == "\n" + Cap(one, 1);
  }

  /** One round of replacing does not change the capped form. */
  lemma {:induction false} ReplaceKeepsCap(s: string, run: nat)
    requires run <= 2
    ensures Cap(Replace(s, TRIPLE, DOUBLE), run) == Cap(s, run)
    decreases |s|
  {
    if s == [] {
    } else if At(s, TRIPLE, 0) {
      var rest := s[3..];
      assert s == TRIPLE + rest;
      ReplaceKeepsCap(rest, 2);
      CapThree(rest, run);
      CapThree(Replace(rest, TRIPLE, DOUBLE), run);
    } else {
      var r := Replace(s, TRIPLE, DOUBLE);
      assert r[0] == s[0] && r[1..] == Replace(s[1..], TRIPLE, DOUBLE);
      ReplaceKeepsCap(s[1..], if s[0] != '\n' then 0 else if run >= 2 then run else run + 1);
    }
  }

  function Newlines(n: nat): string { if n == 0 then "" else "\n" + Newlines(n - 1) }

  lemma OtherThanNewline(s: string, run: nat)
    requires s != [] && !Contains(Newlines(run) + s, TRIPLE)
    ensures !Contains(Newlines(0) + s[1..], TRIPLE)
  {
    var all, lo := Newlines(run) + s, |Newlines(run)| + 1;
    assert all[lo..] == s[1..] && Newlines(0) + s[1..] == s[1..];
    if Contains(s[1..], TRIPLE) { ContainsTail(all, lo, TRIPLE); }
  }

  lemma {:induction false} CapIsIdentity(s: string, run: nat)
    requires run <= 2 && !Contains(Newlines(run) + s, TRIPLE)
    ensures Cap(s, run) == s
  {
    if s == [] {
    } else if s[0] != '\n' {
      OtherThanNewline(s, run);
      CapIsIdentity(s[1..], 0);
    } else {
      ThirdNewline(s);
      NewlinesSnoc(run);
      assert Newlines(run + 1) + s[1..] == Newlines(run) + s;
      CapIsIdentity(s[1..], run + 1);
    }
  }

  lemma ThirdNewline(s: string)
    requires s != [] && s[0] == '\n'
    ensures Contains(Newlines(2) + s, TRIPLE)
  {
    var all := Newlines(2) + s;
    assert Newlines(2) == "\n" + Newlines(1) && Newlines(1) == "\n" + Newlines(0);
    assert all[0..3] == TRIPLE;
    assert At(all, TRIPLE, 0);
  }

  lemma {:induction false} NewlinesSnoc(n: nat)
    ensures Newlines(n + 1) == Newlines(n) + "\n"
  {
    if n > 0 { NewlinesSnoc(n - 1); }
  }

  /** The replace loop computes the capped form. */
  lemma {:induction false} CollapseIsCap(s: string)
    ensures Collapse(s) == Cap(s, 0) && !Contains(Collapse(s), TRIPLE)
    decreases |s|
  {
    if Contains(s, TRIPLE) {
      ReplaceLength(s, TRIPLE, DOUBLE);
      ReplaceKeepsCap(s, 0);
      CollapseIsCap(Replace(s, TRIPLE, DOUBLE));
    } else {
      assert Newlines(0) + s == s;
      CapIsIdentity(s, 0);
    }
  }

  lemma {:induction false} CapKeepsPlainPrefix(s: string, p: string)
    requires '\n' !in p && At(Cap(s, 0), p, 0)
    ensures At(s, p, 0)
  {
    if p != [] {
      PrefixHead(Cap(s, 0), p);
      PrefixHead(s, p);
      assert s != [] && s[0] != '\n';
      assert Cap(s, 0)[1..] == Cap(s[1..], 0);
      CapKeepsPlainPrefix(s[1..], p[1..]);
    }
  }

  /** Capping creates no occurrence of a text without newlines. */
  lemma {:induction false} CapCreatesNothing(s: string, run: nat, t: string, i: nat)
    requires t != [] && '\n' !in t && At(Cap(s, run), t, i)
    ensures Contains(s, t)
    decreases |s|
  {
    var c := Cap(s, run);
    assert s != [];
    if s[0] == '\n' && run >= 2 {
      CapCreatesNothing(s[1..], run, t, i);
      ContainsTail(s, 1, t);
    } else if i == 0 {
      PrefixHead(c, t);
      assert s[0] != '\n';
      assert c[1..] == Cap(s[1..], 0);
      CapKeepsPlainPrefix(s[1..], t[1..]);
      PrefixHead(s, t);
      assert At(s, t, 0);
    } else {
      var next := if s[0] != '\n' then 0 else run + 1;
      AtTail(c, t, i);
      assert c[1..] == Cap(s[1..], next);
      CapCreatesNothing(s[1..], next, t, i - 1);
      ContainsTail(s, 1, t);
    }
  }

  // ---------------------------------------------------------------- the cleaner

  /** The control tags of a compaction request. */
  datatype Tags = Tags(
    openAnalysis: string, closeAnalysis: string, openSummary: string, closeSummary: string,
    openRequest: string, closeRequest: string)

  function SourceTags(): Tags {
    Tags("<analysis>", "</analysis>", "<summary>", "</summary>", "<summary_request>", "</summary_request>")
  }

  /** In the order in which they are defused: closers first. */
  function ControlTokens(g: Tags): seq<string> {
    [g.closeSummary, g.openSummary, g.closeAnalysis, g.openAnalysis, g.closeRequest, g.openRequest]
  }

  predicate TagsOk(g: Tags) { TokensOk(ControlTokens(g)) }

  lemma SummaryTokensAreOk(a: string, b: string)
    requires a == "<summary>" && b == "</summary>"
    ensures TokenOk(a) && TokenOk(b)
  {
  }

  lemma AnalysisTokensAreOk(a: string, b: string)
    requires a == "<analysis>" && b == "</analysis>"
    ensures TokenOk(a) && TokenOk(b)
  {
  }

  lemma RequestTokensAreOk(a: string, b: string)
    requires a == "<summary_request>" && b == "</summary_request>"
    ensures TokenOk(a) && TokenOk(b)
  {
  }

  /** The tags of the source meet the condition of the results below. */
  lemma SourceTagsAreOk(g: Tags)
    requires g == SourceTags()
    ensures TagsOk(g)
  {
    SummaryTokensAreOk(g.openSummary, g.closeSummary);
    AnalysisTokensAreOk(g.openAnalysis, g.closeAnalysis);
    RequestTokensAreOk(g.openRequest, g.closeRequest);
  }

  predicate Blank(s: string) { Trim(s) == "" }

  /** The analysis block at `start` is scratchpad when only blank text separates it from the
      start of the text or of the summary, or when it precedes the summary. */
  predicate IsLeading(s: string, start: nat, g: Tags)
    requires start <= |s|
  {
    var sp := Find(s, g.openSummary);
    if sp.Some? then start < sp.value || (sp.value + |g.openSummary| <= start && Blank(s[sp.value + |g.openSummary|..start]))
    else Blank(s[..start])
  }

  /** Without the scratchpad that `tail` starts with: a closed block is cut out; an unclosed one
      takes everything up to the summary with it, and then no other round follows. */
  function DropBlock(lead: string, tail: string, g: Tags): (r: (string, bool))
    requires TagsOk(g)
    ensures r.1 ==> |r.0| < |lead| + |tail|
  {
    var close := Find(tail, g.closeAnalysis);
    assert ControlTokens(g)[2] == g.closeAnalysis;
    if close.Some? then (lead + tail[close.value + |g.closeAnalysis|..], true)
    else
      var next := Find(tail, g.openSummary);
      (lead + (if next.Some? then tail[next.value..] else ""), false)
  }

  /** What one round leaves, and whether another follows. */
  function DropRound(s: string, g: Tags): (r: (string, bool))
    requires TagsOk(g)
    ensures r.1 ==> |r.0| < |s|
  {
    var start := Find(s, g.openAnalysis);
    if start.None? || !IsLeading(s, start.value, g) then (s, false) else DropBlock(s[..start.value], s[start.value..], g)
  }

  function DropAnalysis(s: string, g: Tags): string
    requires TagsOk(g)
    decreases |s|
  {
    var (next, more) := DropRound(s, g);
    if more then DropAnalysis(next, g) else next
  }

  predicate IsLeadMark(c: char) { c == '#' || c == '*' || c == '-' || c == '>' || c == ' ' || c == '\t' }

  function TrimLead(s: string): string {
    if s != [] && IsLeadMark(s[0]) then TrimLead(s[1..]) else s
  }

  predicate StartsWithDigit(s: string) { s != [] && '0' <= s[0] <= '9' }

  /** A trimmed summary without the draft in front of its text. */
  function StripDraft(s: string, g: Tags): string {
    var close := RFind(s, g.closeAnalysis);
    var s1 := if !StartsWithDigit(TrimLead(s)) && close.Some? then TrimStart(s[close.value + |g.closeAnalysis|..]) else s;
    if g.openSummary <= s1 then TrimStart(s1[|g.openSummary|..]) else s1
  }

  function StripLeadingScratchpad(inner: string, g: Tags): string { StripDraft(Trim(inner), g) }

  /** The text between the tags at `start` and `end`, as `body` leaves it, under a heading. */
  function Rewrapped(s: string, start: nat, open: nat, end: nat, close: nat, heading: string, body: string -> string): string
    requires start <= end <= end + close <= |s|
  {
    var inner := if start + open <= end then s[start + open..end] else "";
    s[..start] + heading + body(inner) + s[end + close..]
  }

  /** The same from the first opening to the last closing tag, if they come in that order. */
  function Unwrapped(s: string, open: string, close: string, heading: string, body: string -> string): string {
    var start, end := Find(s, open), RFind(s, close);
    if start.Some? && end.Some? && end.value > start.value then Rewrapped(s, start.value, |open|, end.value, |close|, heading, body)
    else s
  }

  function UnwrapSummary(s: string, g: Tags): string {
    Unwrapped(s, g.openSummary, g.closeSummary, "Summary:\n", (inner: string) => StripLeadingScratchpad(Trim(inner), g))
  }

  function Tidy(s: string, tokens: seq<string>): string
    requires TokensOk(tokens)
  { Trim(Collapse(DefuseInTurn(s, tokens))) }

  function FormatCompactSummary(summary: string, g: Tags): string
    requires TagsOk(g)
  { Tidy(UnwrapSummary(DropAnalysis(summary, g), g), ControlTokens(g)) }

  method DropAnalysisInPlace(s: string, g: Tags) returns (result: string)
    requires TagsOk(g)
    ensures result == DropAnalysis(s, g)
  {
    var more := true;
    result := s;
    while more
      invariant (if more then DropAnalysis(result, g) else result) == DropAnalysis(s, g)
      decreases more, |result|
    {
      var (next, again) := DropRound(result, g);
      result, more := next, again;
    }
  }

  method CollapseInPlace(s: string) returns (result: string)
    ensures result == Collapse(s)
  {
    result := s;
    while Contains(result, TRIPLE)
      invariant Collapse(result) == Collapse(s)
      decreases |result|
    {
      ReplaceLength(result, TRIPLE, DOUBLE);
      result := Replace(result, TRIPLE, DOUBLE);
    }
  }

  method NeutralizeInPlace(s: string, tokens: seq<string>) returns (result: string)
    requires TokensOk(tokens)
    ensures result == DefuseInTurn(s, tokens)
  {
    result := s;
    for k := 0 to |tokens|
      invariant DefuseInTurn(result, tokens[k..]) == DefuseInTurn(s, tokens)
    {
      assert tokens[k..][0] == tokens[k] && tokens[k..][1..] == tokens[k + 1..];
      result := Replace(result, tokens[k], Sentinel(tokens[k]));
    }
  }

  /** The loops of the program, one after the other; each ends. */
  method FormatCompactSummaryInPlace(summary: string, g: Tags) returns (result: string)
    requires TagsOk(g)
    ensures result == FormatCompactSummary(summary, g)
  {
    result := DropAnalysisInPlace(summary, g);
    result := NeutralizeInPlace(UnwrapSummary(result, g), ControlTokens(g));
    result := CollapseInPlace(result);
    result := Trim(result);
  }

  // ---------------------------------------------------------------- what cleaning promises

  /** The tidy form: sentinels after every token start, runs of newlines capped, ends trimmed. */
  lemma TidyIsSimple(s: string, tokens: seq<string>)
    requires TokensOk(tokens)
    ensures Tidy(s, tokens) == Trim(Cap(Defuse(s, tokens), 0))
  {
    DefuseInTurnIsOnePass(s, tokens);
    CollapseIsCap(Defuse(s, tokens));
  }

  /** A cleaned text: no live token, no triple newline, trimmed. */
  predicate IsClean(s: string, tokens: seq<string>) { TokenFree(s, tokens) && !Contains(s, TRIPLE) && Trimmed(s) }

  lemma CappedIsTokenFree(s: string, tokens: seq<string>)
    requires TokensOk(tokens) && TokenFree(s, tokens)
    ensures TokenFree(Cap(s, 0), tokens)
  {
    var c := Cap(s, 0);
    forall k | 0 <= k < |tokens| ensures !Contains(c, tokens[k]) {
      if Contains(c, tokens[k]) {
        var i :| 0 <= i <= |c| && At(c, tokens[k], i);
        CapCreatesNothing(s, 0, tokens[k], i);
      }
    }
  }

  lemma TrimKeepsAbsent(s: string, t: string)
    requires !Contains(s, t)
    ensures !Contains(Trim(s), t)
  {
    var lo, hi := TrimIsSlice(s);
    if Contains(s[lo..hi], t) { ContainsSlice(s, lo, hi, t); }
  }

  lemma CappedAndTrimmedIsClean(s: string, tokens: seq<string>)
    requires TokensOk(tokens) && TokenFree(s, tokens)
    ensures IsClean(Trim(Cap(s, 0)), tokens)
  {
    var c := Cap(s, 0);
    CappedIsTokenFree(s, tokens);
    forall k | 0 <= k < |tokens| ensures !Contains(Trim(c), tokens[k]) {
      TrimKeepsAbsent(c, tokens[k]);
    }
    CollapseIsCap(s);
    TrimKeepsAbsent(c, TRIPLE);
    TrimIsTrimmed(c);
  }

  lemma TidyIsClean(s: string, tokens: seq<string>)
    requires TokensOk(tokens)
    ensures IsClean(Tidy(s, tokens), tokens)
  {
    TidyIsSimple(s, tokens);
    DefusedIsTokenFree(s, tokens);
    CappedAndTrimmedIsClean(Defuse(s, tokens), tokens);
  }

  lemma CapKeeps(s: string)
    requires !Contains(s, TRIPLE)
    ensures Cap(s, 0) == s
  {
    assert Newlines(0) + s == s;
    CapIsIdentity(s, 0);
  }

  lemma CleanIsTidy(s: string, tokens: seq<string>)
    requires TokensOk(tokens) && IsClean(s, tokens)
    ensures Tidy(s, tokens) == s
  {
    TidyIsSimple(s, tokens);
    DefuseTokenFree(s, tokens);
    CapKeeps(s);
    TrimIsTrimmed(s);
  }

  /** Without control tokens nothing is dropped or unwrapped. */
  lemma NothingToUnwrap(s: string, g: Tags)
    requires TagsOk(g) && TokenFree(s, ControlTokens(g))
    ensures UnwrapSummary(DropAnalysis(s, g), g) == s
  {
    assert ControlTokens(g)[1] == g.openSummary && ControlTokens(g)[3] == g.openAnalysis;
    FindIffContains(s, g.openAnalysis);
    FindIffContains(s, g.openSummary);
  }

  /** Whatever the model wrote, the cleaned summary holds no live control token, no triple
      newline and no blank ends, and cleaning it again changes nothing. */
  lemma CleaningIsSafeAndIdempotent(summary: string, g: Tags)
    requires TagsOk(g)
    ensures IsClean(FormatCompactSummary(summary, g), ControlTokens(g))
    ensures FormatCompactSummary(FormatCompactSummary(summary, g), g) == FormatCompactSummary(summary, g)
  {
    var r := FormatCompactSummary(summary, g);
    TidyIsClean(UnwrapSummary(DropAnalysis(summary, g), g), ControlTokens(g));
    NothingToUnwrap(r, g);
    CleanIsTidy(r, ControlTokens(g));
  }

  /** Text without control tokens loses nothing but surplus newlines and blank ends. */
  lemma PlainSummaryIsKept(s: string, g: Tags)
    requires TagsOk(g) && TokenFree(s, ControlTokens(g))
    ensures FormatCompactSummary(s, g) == Trim(Cap(s, 0))
  {
    NothingToUnwrap(s, g);
    TidyIsSimple(s, ControlTokens(g));
    DefuseTokenFree(s, ControlTokens(g));
  }

  const SUMMARY_PREAMBLE: string :=
    "This session is being continued from a previous conversation that ran out of context. " +
    "The summary below covers the earlier portion of the conversation.\n\n"

  function FormatCompactSummaryContent(raw: string, g: Tags): string
    requires TagsOk(g)
  { SUMMARY_PREAMBLE + FormatCompactSummary(raw, g) }
}
