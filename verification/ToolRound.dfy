/** One tool round of a turn: the model's tool-call message, and one answer per call whatever the limits. */
module ToolRound {
  import opened Messages
  import opened Subsequence
  import opened ToolHistory
  import opened ToolScheduler

  /** A call of the model: its id, and whether it names the internal mode-switch tool. */
  datatype ToolCall = ToolCall(id: CallId, isSwitch: bool)

  /** What the model asked for in one round, whether the turn is transient, the limits in force (absent means
      none), and how the tools and the mode switch reply. */
  datatype Round = Round(
    text: string,
    calls: seq<ToolCall>,
    callsText: string,
    providerCalls: seq<CallId>,
    itemsText: string,
    transient: bool,
    maxSwitches: Option<nat>,
    maxCalls: Option<nat>,
    maxParallel: int,
    switchReply: nat -> string,
    policy: nat -> Policy,
    outcome: nat -> Outcome,
    write: CallResult -> string,
    ignoredSwitch: string,
    ignoredCall: string)

  function Select(calls: seq<ToolCall>, isSwitch: bool): seq<CallId> {
    if calls == [] then []
    else
      var init, last := calls[..|calls| - 1], calls[|calls| - 1];
      if last.isSwitch == isSwitch then Select(init, isSwitch) + [last.id] else Select(init, isSwitch)
  }

  function Ids(calls: seq<ToolCall>): seq<CallId> {
    seq(|calls|, i requires 0 <= i < |calls| => calls[i].id)
  }

  /** How many of `n` calls are executed under a limit. */
  function Executed(n: nat, limit: Option<nat>): (k: nat)
    ensures k <= n
    ensures limit.Some? ==> k <= limit.value
  {
    if limit.Some? && limit.value < n then limit.value else n
  }

  /** The message that records the calls. */
  function CallerMessage(r: Round): Message {
    Message(Assistant, r.text, Ids(r.calls), r.callsText, r.providerCalls, r.itemsText, NoId, r.transient)
  }

  /** One tool message per id, in order. */
  predicate AnswerTo(ids: seq<CallId>, ms: seq<Message>) {
    |ms| == |ids| && forall i :: 0 <= i < |ms| ==> IsTool(ms[i]) && ms[i].toolCallId == ids[i]
  }

  /** The answers to some calls of which the first `executed` get their replies and the rest a fixed notice. */
  function Limited(ids: seq<CallId>, executed: nat, reply: nat -> string, notice: string): (ms: seq<Message>)
    ensures |ms| == |ids|
    ensures forall i :: 0 <= i < |ms| ==> ms[i] == ToolResult(ids[i], if i < executed then reply(i) else notice)
  {
    seq(|ids|, i requires 0 <= i < |ids| => ToolResult(ids[i], if i < executed then reply(i) else notice))
  }

  function SwitchAnswers(r: Round): seq<Message> {
    var ids := Select(r.calls, true);
    Limited(ids, Executed(|ids|, r.maxSwitches), r.switchReply, r.ignoredSwitch)
  }

  function VisibleAnswers(r: Round): seq<Message> {
    var ids := Select(r.calls, false);
    Limited(ids, Executed(|ids|, r.maxCalls), (i: nat) => r.write(ResultOf(r.outcome(i))), r.ignoredCall)
  }

  /** The answers of a whole round: mode switches first, then the visible calls. */
  function AllAnswers(r: Round): seq<Message> {
    SwitchAnswers(r) + VisibleAnswers(r)
  }

  /** Everything a whole round adds to the history. */
  function RoundMessages(r: Round): seq<Message> {
    [CallerMessage(r)] + AllAnswers(r)
  }

  // ---------------------------------------------------------------------------------------------
  // What a round adds, call by call
  // ---------------------------------------------------------------------------------------------

  /** The selected ids are those of the mode switches, or of the other calls, in the order of the calls. */
  lemma {:induction false} SelectIs(calls: seq<ToolCall>, isSwitch: bool) returns (at: seq<nat>)
    ensures Positions(at, |calls|)
    ensures forall i: nat :: i in at <==> i < |calls| && calls[i].isSwitch == isSwitch
    ensures |Select(calls, isSwitch)| == |at|
    ensures forall k :: 0 <= k < |at| ==> Select(calls, isSwitch)[k] == calls[at[k]].id
  {
    at := [];
    if |calls| > 0 {
      var init, last := calls[..|calls| - 1], calls[|calls| - 1];
      at := SelectIs(init, isSwitch);
      assert forall i :: 0 <= i < |init| ==> init[i] == calls[i];
      if last.isSwitch == isSwitch { at := at + [|init|]; }
    }
  }

  /** The answer to the `k`-th of the calls of one kind: its own reply if the limit lets it be executed. */
  ghost predicate AnswersCall(m: Message, id: CallId, executed: bool, reply: string, notice: string) {
    m.role == Tool && m.toolCallId == id && m.text == (if executed then reply else notice)
  }

  /** A round adds the message that records all calls in order, then an answer per mode switch in their order,
      then an answer per other call in their order.  Without a limit every call gets its own reply or the result
      of its own run; under a limit of `n` the first `n` of its kind do, and the rest the notice. */
  lemma RoundMessagesAre(r: Round) returns (switches: seq<nat>, visible: seq<nat>)
    ensures Positions(switches, |r.calls|) && Positions(visible, |r.calls|)
    ensures forall i: nat :: i in switches <==> i < |r.calls| && r.calls[i].isSwitch
    ensures forall i: nat :: i in visible <==> i < |r.calls| && !r.calls[i].isSwitch
    ensures |RoundMessages(r)| == 1 + |switches| + |visible|
    ensures var m := RoundMessages(r)[0];
            && m.role == Assistant && m.text == r.text && |m.toolCalls| == |r.calls| && m.transient == r.transient
            && m.providerCalls == r.providerCalls && m.toolCallId == NoId
            && forall i :: 0 <= i < |r.calls| ==> m.toolCalls[i] == r.calls[i].id
    ensures forall k :: 0 <= k < |switches| ==>
              AnswersCall(RoundMessages(r)[1 + k], r.calls[switches[k]].id,
                          r.maxSwitches.None? || k < r.maxSwitches.value, r.switchReply(k), r.ignoredSwitch)
    ensures forall k :: 0 <= k < |visible| ==>
              AnswersCall(RoundMessages(r)[1 + |switches| + k], r.calls[visible[k]].id,
                          r.maxCalls.None? || k < r.maxCalls.value,
                          match r.outcome(k) { case Returned(v) => r.write(Done(v))
                                               case Raised(e) => r.write(DispatchFailed(e)) },
                          r.ignoredCall)
  {
    switches := SelectIs(r.calls, true);
    visible := SelectIs(r.calls, false);
    AnswersInOrder(r, switches, visible);
  }

  lemma AnswersInOrder(r: Round, switches: seq<nat>, visible: seq<nat>)
    requires |Select(r.calls, true)| == |switches| && |Select(r.calls, false)| == |visible|
    ensures |RoundMessages(r)| == 1 + |switches| + |visible|
    ensures RoundMessages(r)[0] == CallerMessage(r)
    ensures forall k :: 0 <= k < |switches| ==>
              RoundMessages(r)[1 + k]
              == ToolResult(Select(r.calls, true)[k],
                            if r.maxSwitches.None? || k < r.maxSwitches.value then r.switchReply(k)
                            else r.ignoredSwitch)
    ensures forall k :: 0 <= k < |visible| ==>
              RoundMessages(r)[1 + |switches| + k]
              == ToolResult(Select(r.calls, false)[k],
                            if r.maxCalls.None? || k < r.maxCalls.value then r.write(ResultOf(r.outcome(k)))
                            else r.ignoredCall)
  {
    ThreeParts(CallerMessage(r), SwitchAnswers(r), VisibleAnswers(r));
  }

  lemma ThreeParts<T>(first: T, second: seq<T>, third: seq<T>)
    ensures var all := [first] + (second + third);
            && |all| == 1 + |second| + |third| && all[0] == first
            && (forall k :: 0 <= k < |second| ==> all[1 + k] == second[k])
            && (forall k :: 0 <= k < |third| ==> all[1 + |second| + k] == third[k])
  {
  }

  // ---------------------------------------------------------------------------------------------
  // The round itself
  // ---------------------------------------------------------------------------------------------

  class Session {
    var chatHistory: seq<Message>

    constructor (history: seq<Message>)
      ensures chatHistory == history
    {
      chatHistory := history;
    }

    /** The tool-round part of `input_brain`. */
    method RunToolRound(r: Round) returns (rounds: seq<seq<PlanItem>>)
      modifies this`chatHistory
      ensures chatHistory == old(chatHistory) + RoundMessages(r)
    {
      chatHistory := chatHistory + [CallerMessage(r)];
      AnswerSwitches(r);
      rounds := AnswerVisible(r);
      assert old(chatHistory) + [CallerMessage(r)] + SwitchAnswers(r) + VisibleAnswers(r)
          == old(chatHistory) + RoundMessages(r);
    }

    method AnswerSwitches(r: Round)
      modifies this`chatHistory
      ensures chatHistory == old(chatHistory) + SwitchAnswers(r)
    {
      var ids := SelectCalls(r.calls, true);
      var k := Executed(|ids|, r.maxSwitches);
      ghost var all := SwitchAnswers(r);
      for i := 0 to k
        invariant chatHistory == old(chatHistory) + all[..i]
      {
        chatHistory := chatHistory + [ToolResult(ids[i], r.switchReply(i))];
      }
      RecordIgnored(ids, k, r.ignoredSwitch, all);
    }

    method AnswerVisible(r: Round) returns (rounds: seq<seq<PlanItem>>)
      modifies this`chatHistory
      ensures chatHistory == old(chatHistory) + VisibleAnswers(r)
    {
      var ids := SelectCalls(r.calls, false);
      var k := Executed(|ids|, r.maxCalls);
      ghost var all := VisibleAnswers(r);
      var policies := seq(k, i requires 0 <= i < k => r.policy(i));
      var outcomes := seq(k, i requires 0 <= i < k => r.outcome(i));
      var answers;
      answers, rounds := ExecuteVisibleToolCalls(ids[..k], policies, r.maxParallel, outcomes, r.write);
      assert answers == all[..k];
      chatHistory := chatHistory + answers;
      RecordIgnored(ids, k, r.ignoredCall, all);
    }

    /** Answers the calls from the `k`-th on with a notice. */
    method RecordIgnored(ids: seq<CallId>, k: nat, notice: string, ghost all: seq<Message>)
      requires k <= |ids| == |all|
      requires forall i :: k <= i < |ids| ==> all[i] == ToolResult(ids[i], notice)
      modifies this`chatHistory
      ensures chatHistory == old(chatHistory) + all[k..]
    {
      for i := k to |ids|
        invariant chatHistory == old(chatHistory) + all[k..i]
      {
        assert all[k..i + 1] == all[k..i] + [all[i]];
        chatHistory := chatHistory + [ToolResult(ids[i], notice)];
      }
    }
  }

  method SelectCalls(calls: seq<ToolCall>, isSwitch: bool) returns (ids: seq<CallId>)
    ensures ids == Select(calls, isSwitch)
  {
    ids := [];
    for i := 0 to |calls|
      invariant ids == Select(calls[..i], isSwitch)
    {
      assert calls[..i + 1][..i] == calls[..i];
      if calls[i].isSwitch == isSwitch { ids := ids + [calls[i].id]; }
    }
    assert calls[..|calls|] == calls;
  }

  // ---------------------------------------------------------------------------------------------
  // One answer per call
  // ---------------------------------------------------------------------------------------------

  function AnswerIds(ms: seq<Message>): seq<CallId> {
    seq(|ms|, i requires 0 <= i < |ms| => ms[i].toolCallId)
  }

  lemma {:induction false} SelectPartition(calls: seq<ToolCall>)
    ensures multiset(Select(calls, true) + Select(calls, false)) == multiset(Ids(calls))
  {
    if calls == [] {
      assert Ids(calls) == [];
    } else {
      var init, last := calls[..|calls| - 1], calls[|calls| - 1];
      SelectPartition(init);
      assert Ids(calls) == Ids(init) + [last.id];
    }
  }

  lemma AnswersJoin(ids: seq<CallId>, ms: seq<Message>, ids': seq<CallId>, ms': seq<Message>)
    requires AnswerTo(ids, ms) && AnswerTo(ids', ms')
    ensures AllTools(ms + ms') && AnswerIds(ms + ms') == ids + ids'
  {
  }

  /** A whole round answers every call exactly once, whatever the limits. */
  lemma OneAnswerPerCall(r: Round)
    ensures AllTools(AllAnswers(r))
    ensures multiset(AnswerIds(AllAnswers(r))) == multiset(Ids(r.calls))
  {
    SelectPartition(r.calls);
    assert forall id, text :: IsTool(ToolResult(id, text)) && ToolResult(id, text).toolCallId == id;
    AnswersJoin(Select(r.calls, true), SwitchAnswers(r), Select(r.calls, false), VisibleAnswers(r));
  }

  // ---------------------------------------------------------------------------------------------
  // What the sanitizer makes of a round
  // ---------------------------------------------------------------------------------------------

  /** The calls of a round are well named: ids present and pairwise distinct. */
  predicate WellNamed(calls: seq<ToolCall>) {
    (forall i :: 0 <= i < |calls| ==> calls[i].id != NoId) && Distinct(Ids(calls))
  }

  lemma {:induction false} PresentAll(ids: seq<CallId>)
    requires forall i :: 0 <= i < |ids| ==> ids[i] != NoId
    ensures Present(ids) == ids
  {
    if ids != [] { PresentAll(ids[..|ids| - 1]); }
  }

  lemma {:induction false} PresentHasId(ids: seq<CallId>, id: CallId)
    requires id in Present(ids)
    ensures id != NoId && id in ids
  {
    if ids != [] {
      var init, last := ids[..|ids| - 1], ids[|ids| - 1];
      if id in Present(init) { PresentHasId(init, id); }
    }
  }

  /** Pairwise distinctness is a matter of multiplicities. */
  lemma {:induction false} DistinctIffSingle(s: seq<CallId>)
    ensures Distinct(s) <==> forall x :: x in multiset(s) ==> multiset(s)[x] == 1
  {
    if s != [] {
      var init, last := s[..|s| - 1], s[|s| - 1];
      DistinctIffSingle(init);
      assert s == init + [last];
      assert multiset(s) == multiset(init) + multiset{last};
      if last in init {
        var i :| 0 <= i < |init| && init[i] == last;
        assert s[i] == s[|s| - 1];
        assert last in multiset(init) && multiset(s)[last] >= 2;
      } else {
        assert multiset(init)[last] == 0;
        assert forall x :: x in multiset(init) ==> multiset(s)[x] == multiset(init)[x];
      }
    }
  }

  lemma SameIds(a: seq<CallId>, b: seq<CallId>)
    requires multiset(a) == multiset(b)
    ensures forall x :: x in a <==> x in b
    ensures Distinct(a) <==> Distinct(b)
  {
    assert forall x :: x in a <==> x in multiset(a);
    assert forall x :: x in b <==> x in multiset(b);
    DistinctIffSingle(a);
    DistinctIffSingle(b);
  }

  lemma CallerOfWellNamed(r: Round)
    requires r.calls != [] && WellNamed(r.calls)
    ensures CallIds(CallerMessage(r)) == Ids(r.calls) && IsCaller(CallerMessage(r))
  {
    PresentAll(Ids(r.calls));
  }

  lemma AnswerIdsIndex(ms: seq<Message>)
    ensures forall id :: id in ResultIds(ms) <==> id in AnswerIds(ms)
    ensures Distinct(AnswerIds(ms)) <==>
              forall i, j :: 0 <= i < j < |ms| ==> ms[i].toolCallId != ms[j].toolCallId
  {
    var ids := AnswerIds(ms);
    forall id | id in ids ensures id in ResultIds(ms) {
      var i :| 0 <= i < |ids| && ids[i] == id;
      assert ms[i] in ms && ms[i].toolCallId == id;
    }
    forall id | id in ResultIds(ms) ensures id in ids {
      var i :| 0 <= i < |ms| && ms[i].toolCallId == id;
      assert ids[i] == id;
    }
    assert forall i :: 0 <= i < |ms| ==> ids[i] == ms[i].toolCallId;
  }

  /** A whole round of well-named calls is a chain that the sanitizer keeps. */
  lemma WholeRoundIsChain(r: Round)
    requires r.calls != [] && WellNamed(r.calls)
    ensures WellFormed(Chain(CallerMessage(r), AllAnswers(r)))
  {
    var answers := AllAnswers(r);
    CallerOfWellNamed(r);
    OneAnswerPerCall(r);
    SameIds(AnswerIds(answers), Ids(r.calls));
    AnswerIdsIndex(answers);
  }

  lemma SanitizedAppend(h: seq<Message>, rest: seq<Message>)
    requires rest == [] || !IsTool(rest[0])
    ensures Sanitized(h + rest) == Sanitized(h) + Sanitized(rest)
  {
    BlocksAppend(h, rest);
    FlattenAppend(Blocks(h), Blocks(rest));
  }

  /** What the sanitizer makes of a caller followed by nothing but tool messages. */
  lemma SanitizedCaller(a: Message, run: seq<Message>, none: seq<Message>)
    requires IsCaller(a) && AllTools(run) && none == []
    ensures Sanitized([a] + run) == if Complete(CallIds(a), run) then [a] + Firsts(CallIds(a), run) else []
  {
    BlocksOfGroup(a, run, none);
    EmptyRight([a] + run);
    EmptyRight(Opening(a, run));
    FlattenOpening(a, run);
  }

  lemma SanitizedStray(a: Message, run: seq<Message>)
    requires !IsTool(a) && !IsCaller(a) && AllTools(run)
    ensures Sanitized([a] + run) == [a]
  {
    SanitizedPlain(a, run);
    SkipTools(run, |run|);
  }

  /** The sanitizer leaves a whole round as it is, after any history, iff the round's calls are well named. */
  lemma WholeRoundSurvivesIff(h: seq<Message>, r: Round)
    requires r.calls != []
    ensures Sanitized(h + RoundMessages(r)) == Sanitized(h) + RoundMessages(r) <==> WellNamed(r.calls)
  {
    SanitizedAppend(h, RoundMessages(r));
    Cancel(Sanitized(h), Sanitized(RoundMessages(r)), RoundMessages(r));
    RoundIsFixedIff(r);
  }

  lemma Cancel<T>(a: seq<T>, b: seq<T>, c: seq<T>)
    ensures a + b == a + c <==> b == c
  {
    assert (a + b)[|a|..] == b && (a + c)[|a|..] == c;
  }

  lemma RoundIsFixedIff(r: Round)
    requires r.calls != []
    ensures Sanitized(RoundMessages(r)) == RoundMessages(r) <==> WellNamed(r.calls)
  {
    var a, answers := CallerMessage(r), AllAnswers(r);
    OneAnswerPerCall(r);
    if IsCaller(a) {
      SanitizedCaller(a, answers, []);
      if WellNamed(r.calls) {
        WholeRoundIsChain(r);
        FirstsIdentity(CallIds(a), answers);
      } else {
        FirstsWellNamed(r);
      }
    } else {
      SanitizedStray(a, answers);
      assert |AnswerIds(answers)| == |multiset(Ids(r.calls))|;
      if WellNamed(r.calls) { CallerOfWellNamed(r); }
    }
  }

  /** Answers that are their own first results name their calls well. */
  lemma FirstsWellNamed(r: Round)
    ensures Firsts(CallIds(CallerMessage(r)), AllAnswers(r)) == AllAnswers(r) ==> WellNamed(r.calls)
  {
    var a, answers := CallerMessage(r), AllAnswers(r);
    OneAnswerPerCall(r);
    FirstsProperties(CallIds(a), answers);
    AnswerIdsIndex(answers);
    SameIds(AnswerIds(answers), Ids(r.calls));
    if Firsts(CallIds(a), answers) == answers {
      forall i | 0 <= i < |r.calls| ensures r.calls[i].id != NoId {
        assert Ids(r.calls)[i] in AnswerIds(answers);
        CallIdIsPresent(a, Ids(r.calls)[i]);
      }
    }
  }

  lemma CallIdIsPresent(a: Message, id: CallId)
    ensures id in CallIds(a) ==> id != NoId
  {
    if id in Present(a.toolCalls) { PresentHasId(a.toolCalls, id); }
    if id in Present(a.providerCalls) { PresentHasId(a.providerCalls, id); }
  }

  // ---------------------------------------------------------------------------------------------
  // A round that is stopped
  // ---------------------------------------------------------------------------------------------

  lemma PartIsIncomplete(r: Round, k: nat)
    requires r.calls != [] && WellNamed(r.calls) && k < |AllAnswers(r)|
    ensures !Complete(CallIds(CallerMessage(r)), AllAnswers(r)[..k])
  {
    var answers := AllAnswers(r);
    WholeRoundIsChain(r);
    var id := answers[k].toolCallId;
    assert answers[k] in answers;
    assert id in CallIds(CallerMessage(r));
    forall m | m in answers[..k] ensures m.toolCallId != id {
      var i :| 0 <= i < k && answers[i] == m;
    }
  }

  /** A round stopped before its last answer disappears as a whole and takes nothing with it: whatever came
      before, and whatever the conversation goes on with, are sanitized as if the round had not begun. */
  lemma StoppedRoundVanishes(h: seq<Message>, r: Round, k: nat, rest: seq<Message>)
    requires r.calls != [] && WellNamed(r.calls) && k < |AllAnswers(r)|
    requires rest == [] || !IsTool(rest[0])
    ensures Sanitized(h + (([CallerMessage(r)] + AllAnswers(r)[..k]) + rest)) == Sanitized(h + rest)
  {
    var a, run := CallerMessage(r), AllAnswers(r)[..k];
    CallerOfWellNamed(r);
    OneAnswerPerCall(r);
    PartIsIncomplete(r, k);
    AbandonedGroup(a, run, rest);
    SanitizedAppend(h, [a] + run + rest);
    SanitizedAppend(h, rest);
  }
}
