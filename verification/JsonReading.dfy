/** Reading the JSON text of a conversation back: a string is read up to its closing quote, with
    the escapes of section 7 of RFC 8259. */
module JsonReading {
  import opened Bytes
  import opened Conversation
  import opened Json

  function HexValue(c: char): Option<nat> {
    if '0' <= c <= '9' then Some(c as int - '0' as int)
    else if 'a' <= c <= 'f' then Some(c as int - 'a' as int + 10)
    else if 'A' <= c <= 'F' then Some(c as int - 'A' as int + 10)
    else None
  }

  /** The character of four hexadecimal digits; surrogates are not read. */
  function CodeOf(s: string): Option<char>
    requires |s| >= 4
  {
    var a, b, c, d := HexValue(s[0]), HexValue(s[1]), HexValue(s[2]), HexValue(s[3]);
    if a.None? || b.None? || c.None? || d.None? then None
    else
      var n := 0x1000 * a.value + 0x100 * b.value + 0x10 * c.value + d.value;
      if n < 0xD800 then Some(n as char) else None
  }

  /** The character that follows a backslash, and how many characters it takes. */
  function Unescaped(s: string): Option<(char, nat)> {
    if s == "" then None
    else if s[0] == '"' || s[0] == '\\' || s[0] == '/' then Some((s[0], 1))
    else if s[0] == 'b' then Some((8 as char, 1))
    else if s[0] == 't' then Some((9 as char, 1))
    else if s[0] == 'n' then Some((10 as char, 1))
    else if s[0] == 'f' then Some((12 as char, 1))
    else if s[0] == 'r' then Some((13 as char, 1))
    else if s[0] == 'u' && |s| >= 5 then
      var c := CodeOf(s[1..]);
      if c.Some? then Some((c.value, 5)) else None
    else None
  }

  /** One character of a string and the rest, if the string goes on. */
  function ReadChar(s: string): (r: Option<(char, string)>)
    ensures r.Some? ==> |r.value.1| < |s|
  {
    if s == "" || s[0] == '"' || s[0] as int < 0x20 then None
    else if s[0] != '\\' then Some((s[0], s[1..]))
    else
      var e := Unescaped(s[1..]);
      if e.Some? && e.value.1 <= |s| - 1 then Some((e.value.0, s[1 + e.value.1..])) else None
  }

  /** A string, from behind its opening quote, and the text behind its closing quote. */
  function ReadString(s: string): Option<(string, string)>
    decreases |s|
  {
    if s != "" && s[0] == '"' then Some(("", s[1..]))
    else
      var c := ReadChar(s);
      if c.None? then None
      else
        var more := ReadString(c.value.1);
        if more.None? then None else Some(([c.value.0] + more.value.0, more.value.1))
  }

  lemma DigitsRead(n: nat)
    requires n < 16
    ensures HexValue(HexDigit(n)) == Some(n)
  {
  }

  lemma ShortEscape(c: char, rest: string)
    requires c == '"' || c == '\\' || c as int in {8, 9, 10, 12, 13}
    ensures ReadChar(EscapeChar(c) + rest) == Some((c, rest))
  {
    var e := EscapeChar(c);
    assert |e| == 2 && (e + rest)[1..][0] == e[1] && (e + rest)[2..] == rest;
  }

  lemma LongEscape(c: char, rest: string)
    requires c as int < 0x20 && c as int !in {8, 9, 10, 12, 13}
    ensures ReadChar(EscapeChar(c) + rest) == Some((c, rest))
  {
    var e, n := EscapeChar(c), c as int;
    DigitsRead(n / 16);
    DigitsRead(n % 16);
    DigitsRead(0);
    var t := (e + rest)[1..];
    assert |e| == 6 && t[0] == 'u' && (e + rest)[6..] == rest;
    assert t[1..][0] == '0' && t[1..][1] == '0' && t[1..][2] == HexDigit(n / 16) && t[1..][3] == HexDigit(n % 16);
    assert HexDigit(0) == '0';
    assert n == 0x10 * (n / 16) + n % 16;
  }

  /** An escaped character is read as itself. */
  lemma EscapedCharIsRead(c: char, rest: string)
    ensures ReadChar(EscapeChar(c) + rest) == Some((c, rest)) && (EscapeChar(c) + rest)[0] != '"'
  {
    if c == '"' || c == '\\' || c as int in {8, 9, 10, 12, 13} {
      ShortEscape(c, rest);
    } else if c as int < 0x20 {
      LongEscape(c, rest);
    } else {
      assert ([c] + rest)[1..] == rest;
    }
  }

  /** An escaped string is read back, up to its closing quote. */
  lemma {:induction false} EscapedIsRead(s: string, rest: string)
    ensures ReadString(Escape(s) + ("\"" + rest)) == Some((s, rest))
  {
    if s == "" {
      assert Escape(s) + ("\"" + rest) == "\"" + rest && ("\"" + rest)[1..] == rest;
    } else {
      var more := Escape(s[1..]) + ("\"" + rest);
      Regroup(EscapeChar(s[0]), Escape(s[1..]), "\"" + rest);
      EscapedCharIsRead(s[0], more);
      EscapedIsRead(s[1..], rest);
      assert [s[0]] + s[1..] == s;
    }
  }

  // ---------------------------------------------------------------- fields

  /** The string that follows a fixed text. */
  function ReadAfter(s: string, head: string): Option<(string, string)> {
    if head <= s then ReadString(s[|head|..]) else None
  }

  /** Strings after their fixed texts, one after the other. */
  function ReadFields(s: string, heads: seq<string>): Option<(seq<string>, string)>
    decreases |heads|
  {
    if heads == [] then Some(([], s))
    else
      var first := ReadAfter(s, heads[0]);
      if first.None? then None
      else
        var more := ReadFields(first.value.1, heads[1..]);
        if more.None? then None else Some(([first.value.0] + more.value.0, more.value.1))
  }

  lemma FieldIsRead(s: string, head: string, value: string, rest: string)
    requires s == head + (Escape(value) + ("\"" + rest))
    ensures ReadAfter(s, head) == Some((value, rest))
  {
    assert head <= s && s[|head|..] == Escape(value) + ("\"" + rest);
    EscapedIsRead(value, rest);
  }

  lemma OneField(s: string, head: string, value: string, rest: string)
    requires s == head + (Escape(value) + ("\"" + rest))
    ensures ReadFields(s, [head]) == Some(([value], rest))
  {
    NextField(s, head, value, rest, [], [], rest);
    assert [head] + [] == [head] && [value] + [] == [value];
  }

  lemma NextField(s: string, head: string, value: string, rest: string, heads: seq<string>, values: seq<string>, end: string)
    requires s == head + (Escape(value) + ("\"" + rest)) && ReadFields(rest, heads) == Some((values, end))
    ensures ReadFields(s, [head] + heads) == Some(([value] + values, end))
  {
    FieldIsRead(s, head, value, rest);
    assert ([head] + heads)[1..] == heads;
  }

  lemma TwoFields(s: string, h: string, v: string, last: string, k: string, w: string, end: string)
    requires s == h + (Escape(v) + ("\"" + last)) && last == k + (Escape(w) + ("\"" + end))
    ensures ReadFields(s, [h, k]) == Some(([v, w], end))
  {
    OneField(last, k, w, end);
    NextField(s, h, v, last, [k], [w], end);
    assert [h] + [k] == [h, k] && [v] + [w] == [v, w];
  }

  // ---------------------------------------------------------------- lists

  /** `n` elements with commas between them, and the text behind them. */
  function ReadList<T>(read: string -> Option<(T, string)>, s: string, n: nat): Option<(seq<T>, string)>
    decreases n
  {
    if n == 0 then Some(([], s))
    else
      var first := read(s);
      if first.None? then None
      else if n == 1 then Some(([first.value.0], first.value.1))
      else if first.value.1 == "" || first.value.1[0] != ',' then None
      else
        var more := ReadList(read, first.value.1[1..], n - 1);
        if more.None? then None else Some(([first.value.0] + more.value.0, more.value.1))
  }

  lemma ListStep<T>(read: string -> Option<(T, string)>, s: string, x: T, rest: string, xs: seq<T>, end: string)
    requires xs != [] && read(s) == Some((x, "," + rest)) && ReadList(read, rest, |xs|) == Some((xs, end))
    ensures ReadList(read, s, |xs| + 1) == Some(([x] + xs, end))
  {
    assert ("," + rest)[1..] == rest;
  }

  lemma JoinStep(texts: seq<string>, end: string)
    requires |texts| > 1
    ensures Join(texts) + end == texts[0] + ("," + (Join(texts[1..]) + end))
  {
  }

  /** A list is read back when each of its elements is. */
  lemma {:induction false} ListIsRead<T>(read: string -> Option<(T, string)>, xs: seq<T>, texts: seq<string>, end: string)
    requires |xs| == |texts| > 0
    requires forall k, more :: 0 <= k < |xs| ==> read(texts[k] + more) == Some((xs[k], more))
    ensures ReadList(read, Join(texts) + end, |xs|) == Some((xs, end))
  {
    assert xs == [xs[0]] + xs[1..];
    if |xs| > 1 {
      var rest := Join(texts[1..]) + end;
      JoinStep(texts, end);
      assert read(texts[0] + ("," + rest)) == Some((xs[0], "," + rest));
      ListIsRead(read, xs[1..], texts[1..], end);
      ListStep(read, Join(texts) + end, xs[0], rest, xs[1..], end);
    } else {
      assert Join(texts) == texts[0] && [xs[0]] == xs;
      assert read(texts[0] + end) == Some((xs[0], end));
    }
  }

  // ---------------------------------------------------------------- items

  lemma QuotedField(a: string, value: string, rest: string)
    ensures a + Quote(value) + rest == (a + "\"") + (Escape(value) + ("\"" + rest))
  {
  }

  function SystemHead(): string { "{\"type\":\"system\",\"content\":" + "\"" }
  function AssistantHead(): string { "{\"type\":\"assistant\",\"content\":" + "\"" }
  function ResultHead(): string { "{\"type\":\"tool_result\",\"tool_call_id\":" + "\"" }
  function ContentHead(): string { ",\"content\":\"" }
  function CallHeads(): seq<string> { ["{\"id\":" + "\"", ",\"name\":" + "\"", ",\"arguments\":" + "\""] }

  function ReadClosed(s: string, head: string): Option<(string, string)> {
    var r := ReadAfter(s, head);
    if r.Some? && r.value.1 != "" && r.value.1[0] == '}' then Some((r.value.0, r.value.1[1..])) else None
  }

  /** A part, and the text behind it. */
  function ReadPart(s: string): Option<(Part, string)> {
    var text, image := ReadClosed(s, TextHead()), ReadClosed(s, ImageHead());
    if text.Some? then Some((Part.Text(text.value.0), text.value.1))
    else if image.Some? then Some((Image(image.value.0), image.value.1))
    else None
  }

  lemma ClosedIsRead(s: string, head: string, value: string, more: string)
    requires s == head + Escape(value) + PartTail() + more
    ensures ReadClosed(s, head) == Some((value, more))
  {
    assert s == head + (Escape(value) + ("\"" + ("}" + more)));
    FieldIsRead(s, head, value, "}" + more);
    assert ("}" + more)[1..] == more;
  }

  lemma ImageIsNoText(more: string)
    ensures ReadClosed(ImageHead() + more, TextHead()).None?
  {
    assert ImageHead()[9] == 'i' && TextHead()[9] == 't';
    assert (ImageHead() + more)[9] == ImageHead()[9];
  }

  lemma PartRead(s: string, value: string, more: string)
    ensures ReadClosed(s, TextHead()) == Some((value, more)) ==> ReadPart(s) == Some((Part.Text(value), more))
    ensures ReadClosed(s, TextHead()).None? && ReadClosed(s, ImageHead()) == Some((value, more)) ==>
      ReadPart(s) == Some((Image(value), more))
  {
  }

  lemma ImageIsRead(s: string, url: string, more: string)
    requires s == ImageHead() + Escape(url) + PartTail() + more
    ensures ReadClosed(s, TextHead()).None? && ReadClosed(s, ImageHead()) == Some((url, more))
  {
    ClosedIsRead(s, ImageHead(), url, more);
    assert s == ImageHead() + (Escape(url) + PartTail() + more);
    ImageIsNoText(Escape(url) + PartTail() + more);
  }

  /** A part, its text or an image's address. */
  lemma PartIsRead(part: Part, more: string)
    ensures ReadPart(PartJson(part) + more) == Some((part, more))
  {
    var s := PartJson(part) + more;
    match part
    case Text(text) =>
      ClosedIsRead(s, TextHead(), text, more);
      PartRead(s, text, more);
    case Image(url) =>
      ImageIsRead(s, url, more);
      PartRead(s, url, more);
  }

  /** The parts of a user item are read back, in order. */
  lemma PartsAreRead(parts: seq<Part>, end: string)
    requires parts != []
    ensures ReadList(ReadPart, PartsJson(parts) + end, |parts|) == Some((parts, end))
  {
    var texts := seq(|parts|, k requires 0 <= k < |parts| => PartJson(parts[k]));
    forall k, more | 0 <= k < |parts| ensures ReadPart(texts[k] + more) == Some((parts[k], more)) {
      PartIsRead(parts[k], more);
    }
    ListIsRead(ReadPart, parts, texts, end);
  }

  /** A call: its id, its name and its arguments. */
  lemma CallIsRead(c: ToolCall, more: string)
    ensures ReadFields(CallJson(c) + more, CallHeads()) == Some(([c.id, c.name, c.arguments], "}" + more))
  {
    var a, b, d := "{\"id\":", ",\"name\":", ",\"arguments\":";
    EndGroups(a + Quote(c.id) + b + Quote(c.name) + d + Quote(c.arguments), more);
    ThreeQuoted(CallJson(c) + more, a, c.id, b, c.name, d, c.arguments, "}" + more);
  }

  lemma EndGroups(front: string, more: string)
    ensures front + "}" + more == front + ("}" + more)
  {
  }

  lemma ThreeQuoted(s: string, a: string, x: string, b: string, y: string, d: string, z: string, end: string)
    requires s == a + Quote(x) + b + Quote(y) + d + Quote(z) + end
    ensures ReadFields(s, [a + "\"", b + "\"", d + "\""]) == Some(([x, y, z], end))
  {
    var last := d + Quote(z) + end;
    var rest := b + Quote(y) + last;
    CallGroups(a, Quote(x), b, Quote(y), d, Quote(z), end);
    QuotedField(d, z, end);
    QuotedField(b, y, last);
    QuotedField(a, x, rest);
    TwoFields(rest, b + "\"", y, last, d + "\"", z, end);
    NextField(s, a + "\"", x, rest, [b + "\"", d + "\""], [y, z], end);
    Cons3(a + "\"", b + "\"", d + "\"");
    Cons3(x, y, z);
  }

  lemma Cons3(x: string, y: string, z: string)
    ensures [x] + [y, z] == [x, y, z] && [y] + [z] == [y, z]
  {
  }

  lemma CallGroups(a: string, x: string, b: string, y: string, d: string, z: string, end: string)
    ensures a + x + b + y + d + z + end == a + x + (b + y + (d + z + end))
  {
  }

  /** A call, and the text behind it. */
  function ReadCall(s: string): Option<(ToolCall, string)> {
    var r := ReadFields(s, CallHeads());
    if r.Some? && |r.value.0| == 3 && r.value.1 != "" && r.value.1[0] == '}'
    then Some((ToolCall(r.value.0[0], r.value.0[1], r.value.0[2]), r.value.1[1..]))
    else None
  }

  lemma CallJsonIsRead(c: ToolCall, more: string)
    ensures ReadCall(CallJson(c) + more) == Some((c, more))
  {
    CallIsRead(c, more);
    assert ("}" + more)[1..] == more;
  }

  /** The calls of an assistant are read back, in order. */
  lemma CallsAreRead(calls: seq<ToolCall>, end: string)
    requires calls != []
    ensures ReadList(ReadCall, CallsJson(calls) + end, |calls|) == Some((calls, end))
  {
    var texts := seq(|calls|, k requires 0 <= k < |calls| => CallJson(calls[k]));
    forall k, more | 0 <= k < |calls| ensures ReadCall(texts[k] + more) == Some((calls[k], more)) {
      CallJsonIsRead(calls[k], more);
    }
    ListIsRead(ReadCall, calls, texts, end);
  }

  lemma SystemIsRead(content: string)
    ensures ReadFields(ItemJson(System(content)), [SystemHead()]) == Some(([content], "}"))
  {
    QuotedField("{\"type\":\"system\",\"content\":", content, "}");
    OneField(ItemJson(System(content)), SystemHead(), content, "}");
  }

  /** What follows the content of an assistant. */
  function AssistantRest(calls: seq<ToolCall>, meta: string): string {
    (if calls == [] then "" else ",\"tool_calls\":[" + CallsJson(calls) + "]") + meta + "}"
  }

  lemma AssistantIsRead(content: string, calls: seq<ToolCall>, meta: string)
    ensures ReadFields(ItemJson(Assistant(content, calls, meta)), [AssistantHead()]) == Some(([content], AssistantRest(calls, meta)))
  {
    var head, list := "{\"type\":\"assistant\",\"content\":", if calls == [] then "" else ",\"tool_calls\":[" + CallsJson(calls) + "]";
    AssistantGroups(head, Quote(content), list, meta, "}");
    QuotedField(head, content, AssistantRest(calls, meta));
    OneField(ItemJson(Assistant(content, calls, meta)), AssistantHead(), content, AssistantRest(calls, meta));
  }

  lemma AssistantGroups(a: string, x: string, b: string, c: string, end: string)
    ensures a + x + b + c + end == a + x + (b + c + end)
  {
  }

  lemma ResultGroups(a: string, x: string, b: string, y: string, q: string, c: string, end: string)
    ensures (a + x + b) + y + q + c + end == a + x + (b + (y + (q + (c + end))))
  {
  }

  lemma ResultIsRead(id: string, content: string, images: seq<Part>)
    ensures ReadFields(ItemJson(ToolResult(id, content, images)), [ResultHead(), ContentHead()]) ==
      Some(([id, content], ImagesField(images) + ToolTail()))
  {
    var head, end := "{\"type\":\"tool_result\",\"tool_call_id\":", ImagesField(images) + ToolTail();
    var rest := ContentHead() + (Escape(content) + ("\"" + end));
    ResultGroups(head, Quote(id), ContentHead(), Escape(content), ContentTail(), ImagesField(images), ToolTail());
    QuotedField(head, id, rest);
    TwoFields(ItemJson(ToolResult(id, content, images)), ResultHead(), id, rest, ContentHead(), content, end);
  }

  /** The texts of an item that are strings of its JSON object, with the texts before each. */
  function HeadsOf(item: Item): seq<string> {
    match item
    case System(_) => [SystemHead()]
    case Assistant(_, _, _) => [AssistantHead()]
    case ToolResult(_, _, _) => [ResultHead(), ContentHead()]
    case _ => []
  }

  function TextsOf(item: Item): seq<string> {
    match item
    case System(content) => [content]
    case Assistant(content, _, _) => [content]
    case ToolResult(id, content, _) => [id, content]
    case _ => []
  }

  function RestOf(item: Item): string {
    match item
    case System(_) => "}"
    case Assistant(_, calls, meta) => AssistantRest(calls, meta)
    case ToolResult(_, _, images) => ImagesField(images) + ToolTail()
    case _ => ItemJson(item)
  }

  /** The texts of an item are read back from its JSON, whatever characters they hold. */
  lemma ItemIsRead(item: Item)
    ensures ReadFields(ItemJson(item), HeadsOf(item)) == Some((TextsOf(item), RestOf(item)))
  {
    match item
    case System(content) => SystemIsRead(content);
    case Assistant(content, calls, meta) => AssistantIsRead(content, calls, meta);
    case ToolResult(id, content, images) => ResultIsRead(id, content, images);
    case _ =>
  }
}
