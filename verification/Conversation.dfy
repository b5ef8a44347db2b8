/** The items of a conversation and the pairing rule between tool calls and tool results. */
module Conversation {
  import opened Bytes

  /** Who a user item comes from; `Runtime` covers the remaining runtime-injected reasons. */
  datatype SyntheticReason = Human | Primary | AgentMessage | Runtime(name: string)

  datatype Part = Text(text: string) | Image(url: string)

  datatype ToolCall = ToolCall(id: string, name: string, arguments: string)

  /** `meta` stands for the optional fields of an item, in their serialised form. */
  datatype Item =
    | System(content: string)
    | User(parts: seq<Part>, reason: SyntheticReason, meta: string)
    | Assistant(content: string, calls: seq<ToolCall>, meta: string)
    | ToolResult(callId: string, content: string, images: seq<Part>)
    | BackendToolCall(json: string)
    | Reasoning(json: string)

  /** An assistant item with tool calls. */
  predicate Calls(item: Item) { item.Assistant? && item.calls != [] }

  function CallIds(calls: seq<ToolCall>): (r: set<string>)
    ensures forall id :: id in r <==> exists k :: 0 <= k < |calls| && calls[k].id == id
  {
    set k | 0 <= k < |calls| :: calls[k].id
  }

  predicate Declares(item: Item, id: string) { item.Assistant? && id in CallIds(item.calls) }

  /** The result at `i` lies in the contiguous run of results after the assistant at `a`. */
  predicate AnsweredBy(items: seq<Item>, i: nat, a: nat)
    requires a < i < |items|
  {
    && items[i].ToolResult? && Declares(items[a], items[i].callId)
    && forall k :: a < k < i ==> items[k].ToolResult?
  }

  predicate PairedAt(items: seq<Item>, i: nat)
    requires i < |items|
  {
    exists a :: 0 <= a < i && AnsweredBy(items, i, a)
  }

  /** Every tool result directly follows (within its run) the assistant that called for it. */
  predicate Paired(items: seq<Item>) {
    forall i :: 0 <= i < |items| && items[i].ToolResult? ==> PairedAt(items, i)
  }

  /** The position of the first image, or the length when there is none. */
  function FirstImage(parts: seq<Part>): (r: nat)
    ensures r <= |parts| && (forall k :: 0 <= k < r ==> parts[k].Text?)
    ensures r < |parts| ==> parts[r].Image?
  {
    if parts == [] || parts[0].Image? then 0 else 1 + FirstImage(parts[1..])
  }

  predicate HasImage(parts: seq<Part>) { FirstImage(parts) < |parts| }
}
