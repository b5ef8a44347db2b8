/** The JSON text of a conversation as serde writes it; strings are escaped as in section 7 of
    RFC 8259. */
module Json {
  import opened Bytes
  import opened Conversation
  import Utf8

  function HexDigit(d: nat): char
    requires d < 16
  { ['0', '1', '2', '3', '4', '5', '6', '7', '8', '9', 'a', 'b', 'c', 'd', 'e', 'f'][d] }

  /** A character that cannot stand for itself in a JSON string. */
  predicate NeedsEscape(c: char) { c == '"' || c == '\\' || c as int < 0x20 }

  function EscapeChar(c: char): string {
    if c == '"' || c == '\\' then ['\\', c]
    else if c as int == 8 then ['\\', 'b']
    else if c as int == 9 then ['\\', 't']
    else if c as int == 10 then ['\\', 'n']
    else if c as int == 12 then ['\\', 'f']
    else if c as int == 13 then ['\\', 'r']
    else if c as int < 0x20 then ['\\', 'u', '0', '0', HexDigit(c as int / 16), HexDigit(c as int % 16)]
    else [c]
  }

  function Escape(s: string): string {
    if s == [] then [] else EscapeChar(s[0]) + Escape(s[1..])
  }

  /** The bytes that a string contributes between its quotes. */
  function EscapedLen(s: string): nat { Utf8.ByteLen(Escape(s)) }

  lemma {:induction false} EscapeConcat(a: string, b: string)
    ensures Escape(a + b) == Escape(a) + Escape(b)
    ensures EscapedLen(a + b) == EscapedLen(a) + EscapedLen(b)
  {
    if a == [] {
      assert a + b == b;
    } else {
      assert (a + b)[1..] == a[1..] + b;
      EscapeConcat(a[1..], b);
      assert EscapeChar(a[0]) + (Escape(a[1..]) + Escape(b)) == Escape(a) + Escape(b);
    }
    Utf8.ByteLenConcat(Escape(a), Escape(b));
  }

  predicate Clean(s: string) { forall k :: 0 <= k < |s| ==> !NeedsEscape(s[k]) }

  lemma OneByte(c: char)
    requires c as int < 0x80
    ensures Utf8.ByteLen([c]) == 1
  {
    assert Utf8.Encode([c]) == Utf8.EncodeChar(c) + Utf8.Encode([c][1..]);
    assert Utf8.EncodeChar(c) == [c as int];
  }

  lemma EscapeCharLonger(c: char)
    ensures Utf8.ByteLen(EscapeChar(c)) >= Utf8.ByteLen([c])
    ensures Utf8.ByteLen(EscapeChar(c)) == Utf8.ByteLen([c]) <==> !NeedsEscape(c)
  {
    if NeedsEscape(c) {
      OneByte(c);
      var e := EscapeChar(c);
      assert e == [e[0]] + e[1..];
      Utf8.ByteLenConcat([e[0]], e[1..]);
      assert e[1..] == [e[1]] + e[2..];
      Utf8.ByteLenConcat([e[1]], e[2..]);
      OneByte('\\');
      assert Utf8.ByteLen([e[1]]) >= 1;
    }
  }

  /** Escaping never shortens, and keeps the length exactly of text that needs no escape. */
  lemma {:induction false} EscapedLenIsExactIff(s: string)
    ensures EscapedLen(s) >= Utf8.ByteLen(s)
    ensures EscapedLen(s) == Utf8.ByteLen(s) <==> Clean(s)
  {
    if s != [] {
      assert s == [s[0]] + s[1..];
      EscapedLenIsExactIff(s[1..]);
      EscapeCharLonger(s[0]);
      Utf8.ByteLenConcat([s[0]], s[1..]);
      Utf8.ByteLenConcat(EscapeChar(s[0]), Escape(s[1..]));
      assert Clean(s) <==> !NeedsEscape(s[0]) && Clean(s[1..]);
    }
  }

  // ---------------------------------------------------------------- documents

  function Quote(s: string): string { "\"" + Escape(s) + "\"" }

  function Join(xs: seq<string>): string {
    if xs == [] then "" else if |xs| == 1 then xs[0] else xs[0] + "," + Join(xs[1..])
  }

  function TextHead(): string { "{\"type\":\"text\",\"text\":\"" }
  function ImageHead(): string { "{\"type\":\"image\",\"url\":\"" }
  function PartTail(): string { "\"}" }

  function PartJson(p: Part): string {
    match p
    case Text(t) => TextHead() + Escape(t) + PartTail()
    case Image(u) => ImageHead() + Escape(u) + PartTail()
  }

  function PartsJson(parts: seq<Part>): string {
    Join(seq(|parts|, k requires 0 <= k < |parts| => PartJson(parts[k])))
  }

  function CallJson(c: ToolCall): string {
    "{\"id\":" + Quote(c.id) + ",\"name\":" + Quote(c.name) + ",\"arguments\":" + Quote(c.arguments) + "}"
  }

  function CallsJson(calls: seq<ToolCall>): string {
    Join(seq(|calls|, k requires 0 <= k < |calls| => CallJson(calls[k])))
  }

  function ReasonJson(r: SyntheticReason): string {
    match r
    case Human => ""
    case Primary => ",\"synthetic_reason\":\"primary\""
    case AgentMessage => ",\"synthetic_reason\":\"agent_message\""
    case Runtime(name) => ",\"synthetic_reason\":" + Quote(name)
  }

  function UserHead(): string { "{\"type\":\"user\",\"content\":[" }
  function ImagesHead(): string { ",\"images\":[" }
  function ImagesTail(): string { "]" }
  function ToolTail(): string { "}" }
  function ContentTail(): string { "\"" }

  function UserTail(reason: SyntheticReason, meta: string): string { "]" + ReasonJson(reason) + meta + "}" }

  function ToolHead(id: string): string { "{\"type\":\"tool_result\",\"tool_call_id\":" + Quote(id) + ",\"content\":\"" }

  /** The `images` field is left out when there is none. */
  function ImagesField(images: seq<Part>): string {
    if images == [] then "" else ImagesHead() + PartsJson(images) + ImagesTail()
  }

  /** Items that never carry inline images. */
  function PlainItemJson(item: Item): string {
    match item
    case System(content) => "{\"type\":\"system\",\"content\":" + Quote(content) + "}"
    case Assistant(content, calls, meta) =>
      "{\"type\":\"assistant\",\"content\":" + Quote(content) +
      (if calls == [] then "" else ",\"tool_calls\":[" + CallsJson(calls) + "]") + meta + "}"
    case BackendToolCall(json) => json
    case Reasoning(json) => json
    case _ => ""
  }

  function UserJson(parts: seq<Part>, reason: SyntheticReason, meta: string): string {
    UserHead() + PartsJson(parts) + UserTail(reason, meta)
  }

  function ToolResultJson(id: string, content: string, images: seq<Part>): string {
    ToolHead(id) + Escape(content) + ContentTail() + ImagesField(images) + ToolTail()
  }

  function ItemJson(item: Item): string {
    match item
    case User(parts, reason, meta) => UserJson(parts, reason, meta)
    case ToolResult(id, content, images) => ToolResultJson(id, content, images)
    case _ => PlainItemJson(item)
  }

  function ConversationJson(items: seq<Item>): string {
    "[" + Join(seq(|items|, k requires 0 <= k < |items| => ItemJson(items[k]))) + "]"
  }
}
