/** The chat message as every component of the runtime sees it, and the token estimate of one. */
module Messages {
  import opened Subsequence

  datatype Option<+T> = None | Some(value: T)

  datatype Role = System | User | Assistant | Tool | OtherRole(name: string)

  /** The id of a tool call.  An entry without an id, or with a blank one, has none. */
  datatype CallId = NoId | Id(value: string)

  /** A chat message.  `text` is its content as text.  `toolCalls` holds the id of every entry of
      `tool_calls` and `providerCalls` the id of every function call among `provider_items`.
      `callsText` and `itemsText` are the serialised forms of those two lists, which only the token
      estimate looks at.  `transient` marks a message that is not meant to stay in the conversation. */
  datatype Message = Message(
    role: Role,
    text: string,
    toolCalls: seq<CallId>,
    callsText: string,
    providerCalls: seq<CallId>,
    itemsText: string,
    toolCallId: CallId,
    transient: bool)

  /** A message carrying only a role and a text. */
  function TextMessage(role: Role, text: string): Message {
    Message(role, text, [], "", [], "", NoId, false)
  }

  /** The result of one tool call. */
  function ToolResult(callId: CallId, text: string): Message {
    Message(Tool, text, [], "", [], "", callId, false)
  }

  /** The ids that are present, in order. */
  function Present(ids: seq<CallId>): seq<CallId> {
    if ids == [] then []
    else
      var init, last := ids[..|ids| - 1], ids[|ids| - 1];
      if last == NoId then Present(init) else Present(init) + [last]
  }

  /** The call ids of an assistant message: those of `tool_calls`, or else those of `provider_items`. */
  function CallIds(m: Message): seq<CallId> {
    if Present(m.toolCalls) != [] then Present(m.toolCalls) else Present(m.providerCalls)
  }

  predicate IsTool(m: Message) {
    m.role == Tool
  }

  /** An assistant message that asks for tool calls, judged by its present call ids. */
  predicate IsCaller(m: Message) {
    m.role == Assistant && CallIds(m) != []
  }

  predicate Distinct<T(==)>(s: seq<T>) {
    forall i, j :: 0 <= i < j < |s| ==> s[i] != s[j]
  }

  /** `_assistant_call_ids`: collects the present ids of one list, and of the other if there are none. */
  method AssistantCallIds(m: Message) returns (ids: seq<CallId>)
    ensures ids == CallIds(m)
  {
    ids := [];
    for i := 0 to |m.toolCalls|
      invariant ids == Present(m.toolCalls[..i])
    {
      assert m.toolCalls[..i + 1][..i] == m.toolCalls[..i];
      if m.toolCalls[i] != NoId { ids := ids + [m.toolCalls[i]]; }
    }
    assert m.toolCalls[..|m.toolCalls|] == m.toolCalls;
    if ids != [] { return; }
    for i := 0 to |m.providerCalls|
      invariant ids == Present(m.providerCalls[..i])
    {
      assert m.providerCalls[..i + 1][..i] == m.providerCalls[..i];
      if m.providerCalls[i] != NoId { ids := ids + [m.providerCalls[i]]; }
    }
    assert m.providerCalls[..|m.providerCalls|] == m.providerCalls;
  }

  /** The present ids are the ids that are there, each in its place. */
  lemma {:induction false} PresentIs(ids: seq<CallId>) returns (at: seq<nat>)
    ensures Positions(at, |ids|) && Present(ids) == Pick(ids, at)
    ensures forall i: nat :: i in at <==> i < |ids| && ids[i] != NoId
  {
    if ids == [] {
      at := [];
    } else {
      var init, last := ids[..|ids| - 1], ids[|ids| - 1];
      at := PresentIs(init);
      assert ids == init + [last];
      PickMore(init, [last], at);
      PickSnoc(init, last, at);
      if last != NoId { at := at + [|init|]; }
    }
  }

  lemma PresentMembers(ids: seq<CallId>)
    ensures forall id :: id in Present(ids) <==> id != NoId && id in ids
    ensures Present(ids) == [] <==> forall i :: 0 <= i < |ids| ==> ids[i] == NoId
  {
    var at := PresentIs(ids);
    forall id | id != NoId && id in ids ensures id in Present(ids) {
      var i :| 0 <= i < |ids| && ids[i] == id;
      assert i in at;
      var k :| 0 <= k < |at| && at[k] == i;
      assert Present(ids)[k] == id;
    }
    assert forall k :: 0 <= k < |at| ==> at[k] in at;
    forall i | 0 <= i < |ids| ensures ids[i] != NoId ==> |Present(ids)| > 0 {
      assert ids[i] in ids;
    }
  }

  /** A message asks for the calls that `tool_calls` names, or, if it names none, for those of the provider
      items; an assistant message that asks for any is a caller. */
  lemma CallIdsAre(m: Message)
    ensures forall id :: id in CallIds(m) <==>
              id != NoId && (|| id in m.toolCalls
                             || ((forall i :: 0 <= i < |m.toolCalls| ==> m.toolCalls[i] == NoId)
                                 && id in m.providerCalls))
    ensures IsCaller(m) <==>
              m.role == Assistant && exists id :: id != NoId && (id in m.toolCalls || id in m.providerCalls)
  {
    PresentMembers(m.toolCalls);
    PresentMembers(m.providerCalls);
    assert CallIds(m) != [] ==> CallIds(m)[0] in CallIds(m);
  }

  /** `estimate_text_tokens`: the length divided by 1.8, rounded down. */
  function TextTokens(text: string): nat {
    |text| * 10 / 18
  }

  /** `estimate_message_tokens`. */
  function MessageTokens(m: Message): nat {
    TextTokens(m.text) + TextTokens(m.callsText) + TextTokens(m.itemsText)
    + (if m.toolCallId == NoId then 0 else TextTokens(m.toolCallId.value))
  }

  /** The estimate of a text is its length divided by 1.8, rounded down. */
  lemma TextTokensAre(text: string)
    ensures 18 * TextTokens(text) <= 10 * |text| < 18 * (TextTokens(text) + 1)
  {
  }

  /** Each part of a message that is sent adds the estimate of its own text. */
  lemma EveryPartCounts(m: Message)
    ensures MessageTokens(m) == TextTokens(m.text) + MessageTokens(m.(text := ""))
    ensures MessageTokens(m) == TextTokens(m.callsText) + MessageTokens(m.(callsText := ""))
    ensures MessageTokens(m) == TextTokens(m.itemsText) + MessageTokens(m.(itemsText := ""))
    ensures m.toolCallId.Id? ==>
              MessageTokens(m) == TextTokens(m.toolCallId.value) + MessageTokens(m.(toolCallId := NoId))
    ensures MessageTokens(TextMessage(m.role, "")) == 0
  {
  }

  /** `estimate_tokens`. */
  function Tokens(ms: seq<Message>): nat {
    if ms == [] then 0 else MessageTokens(ms[0]) + Tokens(ms[1..])
  }

  lemma {:induction false} TokensAppend(a: seq<Message>, b: seq<Message>)
    ensures Tokens(a + b) == Tokens(a) + Tokens(b)
  {
    if a == [] {
      assert a + b == b;
    } else {
      TokensAppend(a[1..], b);
      assert (a + b)[1..] == a[1..] + b;
    }
  }
}
