/** Choosing how much of the history to send: the selection loop of the context plan. */
module ContextPlan {
  import opened Messages
  import opened Subsequence
  import opened Selection
  import HistoryTrim
  import LengthPolicy
  import ToolHistory

  // ---------------------------------------------------------------------------------------------
  // Unanswered calls
  // ---------------------------------------------------------------------------------------------

  function RequestedIds(ms: seq<Message>): set<CallId> {
    set m, id | m in ms && id in m.toolCalls && id != NoId :: id
  }

  function ResolvedIds(ms: seq<Message>): set<CallId> {
    set m | m in ms && m.toolCallId != NoId :: m.toolCallId
  }

  function PendingIds(ms: seq<Message>): set<CallId> {
    RequestedIds(ms) - ResolvedIds(ms)
  }

  /** The message asks for one of these calls. */
  predicate Asks(m: Message, pending: set<CallId>) {
    exists i :: 0 <= i < |m.toolCalls| && m.toolCalls[i] in pending
  }

  predicate Resolves(m: Message, pending: set<CallId>) {
    m.toolCallId in pending
  }

  lemma RequestedSnoc(ms: seq<Message>, m: Message)
    ensures RequestedIds(ms + [m]) == RequestedIds(ms) + set id | id in m.toolCalls && id != NoId
  {
  }

  lemma ResolvedSnoc(ms: seq<Message>, m: Message)
    ensures ResolvedIds(ms + [m]) == ResolvedIds(ms) + if m.toolCallId == NoId then {} else {m.toolCallId}
  {
  }

  method CallsOf(m: Message) returns (ids: set<CallId>)
    ensures ids == set id | id in m.toolCalls && id != NoId
  {
    ids := {};
    for i := 0 to |m.toolCalls|
      invariant ids == set id | id in m.toolCalls[..i] && id != NoId
    {
      assert m.toolCalls[..i + 1] == m.toolCalls[..i] + [m.toolCalls[i]];
      if m.toolCalls[i] != NoId { ids := ids + {m.toolCalls[i]}; }
    }
    assert m.toolCalls[..|m.toolCalls|] == m.toolCalls;
  }

  /** `_pending_tool_call_ids`. */
  method PendingToolCallIds(ms: seq<Message>) returns (pending: set<CallId>)
    ensures pending == PendingIds(ms)
  {
    var requested: set<CallId> := {};
    var resolved: set<CallId> := {};
    for i := 0 to |ms|
      invariant requested == RequestedIds(ms[..i]) && resolved == ResolvedIds(ms[..i])
    {
      assert ms[..i + 1] == ms[..i] + [ms[i]];
      RequestedSnoc(ms[..i], ms[i]);
      ResolvedSnoc(ms[..i], ms[i]);
      var calls := CallsOf(ms[i]);
      requested := requested + calls;
      if ms[i].toolCallId != NoId { resolved := resolved + {ms[i].toolCallId}; }
    }
    assert ms[..|ms|] == ms;
    return requested - resolved;
  }

  /** A position is pinned if its message asks for a pending call, answers one, or stands before an answer. */
  predicate PinnedAt(ms: seq<Message>, pending: set<CallId>, i: nat)
    requires i < |ms|
  {
    Asks(ms[i], pending) || Resolves(ms[i], pending) || (i + 1 < |ms| && Resolves(ms[i + 1], pending))
  }

  method AsksFor(m: Message, pending: set<CallId>) returns (asks: bool)
    ensures asks == Asks(m, pending)
  {
    for i := 0 to |m.toolCalls|
      invariant forall j :: 0 <= j < i ==> m.toolCalls[j] !in pending
    {
      if m.toolCalls[i] in pending { return true; }
    }
    return false;
  }

  /** `pinned_indexes_for_current_history`. */
  method PinnedIndexes(ms: seq<Message>, pending: set<CallId>) returns (pinned: set<nat>)
    ensures forall i :: i in pinned ==> i < |ms|
    ensures forall i :: 0 <= i < |ms| ==> (i in pinned <==> PinnedAt(ms, pending, i))
  {
    pinned := {};
    if pending == {} { return; }
    for k := 0 to |ms|
      invariant forall i :: i in pinned ==> i < k
      invariant forall i :: 0 <= i < k ==> (i in pinned <==> PinnedAt(ms[..k], pending, i))
    {
      ghost var was := pinned;
      if ms[k].toolCallId in pending {
        pinned := pinned + {k};
        if k > 0 { pinned := pinned + {k - 1}; }
      }
      var asks := AsksFor(ms[k], pending);
      if asks { pinned := pinned + {k}; }
      forall i | 0 <= i < k + 1 ensures i in pinned <==> PinnedAt(ms[..k + 1], pending, i) {
        if i < k { assert i in was <==> PinnedAt(ms[..k], pending, i); }
      }
    }
    assert ms[..|ms|] == ms;
  }

  /** Messages of a history never answer one of its pending calls, so only requests pin. */
  lemma OnlyRequestsPin(history: seq<Message>, ms: seq<Message>, i: nat)
    requires i < |ms| && forall j :: 0 <= j < |ms| ==> ms[j] in history
    ensures PinnedAt(ms, PendingIds(history), i) <==> Asks(ms[i], PendingIds(history))
  {
    forall j | 0 <= j < |ms| ensures !Resolves(ms[j], PendingIds(history)) {
      assert ms[j] in history;
    }
  }

  // ---------------------------------------------------------------------------------------------
  // The order in which messages are dropped
  // ---------------------------------------------------------------------------------------------

  /** How many messages stand before the recent ones. */
  function OlderCount(n: nat, recent: nat): nat {
    if n > recent then n - recent else 0
  }

  /** The older messages that ask for no pending call. */
  function OlderCandidates(h: seq<Message>, recent: nat): (s: set<nat>)
    ensures forall i :: i in s <==> i in Below(OlderCount(|h|, recent)) && !Asks(h[i], PendingIds(h))
  {
    set i | i in Below(OlderCount(|h|, recent)) && !Asks(h[i], PendingIds(h))
  }

  predicate ToolTraffic(m: Message) {
    m.role == Tool || m.toolCalls != []
  }

  /** The tool traffic among the recent messages that asks for no pending call. */
  function RecentCandidates(h: seq<Message>, recent: nat): (s: set<nat>)
    ensures forall i: nat :: i in s <==>
              OlderCount(|h|, recent) <= i < |h| && ToolTraffic(h[i]) && !Asks(h[i], PendingIds(h))
  {
    set i | i in Below(|h|) && OlderCount(|h|, recent) <= i && ToolTraffic(h[i]) && !Asks(h[i], PendingIds(h))
  }

  function OlderOrder(h: seq<Message>, recent: nat): (ord: seq<nat>)
    ensures StableOrder(HistoryTrim.Priorities(h), OlderCandidates(h, recent), ord)
    ensures Indexes(|h|, ord)
  {
    var prio, candidates := HistoryTrim.Priorities(h), OlderCandidates(h, recent);
    OrderIsStable(prio, candidates, 5);
    StableIndexes(prio, candidates, Order(prio, candidates, 5));
    Order(prio, candidates, 5)
  }

  function Flat(n: nat): (prio: seq<nat>)
    ensures |prio| == n && forall i :: 0 <= i < n ==> prio[i] == 0
  {
    seq(n, i => 0)
  }

  /** The recent tool traffic, oldest first. */
  function RecentOrder(h: seq<Message>, recent: nat): (ord: seq<nat>)
    ensures StableOrder(Flat(|h|), RecentCandidates(h, recent), ord)
    ensures Indexes(|h|, ord)
  {
    OrderIsStable(Flat(|h|), RecentCandidates(h, recent), 1);
    StableIndexes(Flat(|h|), RecentCandidates(h, recent), Order(Flat(|h|), RecentCandidates(h, recent), 1));
    Order(Flat(|h|), RecentCandidates(h, recent), 1)
  }

  /** Older messages go first, by priority and age.  Recent tool traffic follows only if no older message is
      held back by a pending call. */
  function DropOrder(h: seq<Message>, recent: nat): (ord: seq<nat>)
    ensures Indexes(|h|, ord)
  {
    var older := OlderOrder(h, recent);
    if OlderCandidates(h, recent) == Below(OlderCount(|h|, recent)) then
      OrdersDisjoint(h, recent);
      older + RecentOrder(h, recent)
    else older
  }

  lemma OrdersDisjoint(h: seq<Message>, recent: nat)
    ensures Indexes(|h|, OlderOrder(h, recent) + RecentOrder(h, recent))
  {
    var a, b := OlderOrder(h, recent), RecentOrder(h, recent);
    forall i, j | 0 <= i < |a| && 0 <= j < |b| ensures a[i] != b[j] {
      assert a[i] in Members(a) && b[j] in Members(b);
    }
  }

  // ---------------------------------------------------------------------------------------------
  // What the order promises
  // ---------------------------------------------------------------------------------------------

  lemma DropOrderMembers(h: seq<Message>, recent: nat, x: nat)
    requires x in DropOrder(h, recent)
    ensures x in OlderCandidates(h, recent) || x in RecentCandidates(h, recent)
  {
    var a, b := OlderOrder(h, recent), RecentOrder(h, recent);
    assert x in a || x in b;
    assert x in a ==> x in Members(a);
    assert x in b ==> x in Members(b);
  }

  /** A message whose index is not in the order is kept, however many are dropped. */
  lemma NotDroppedIsKept(h: seq<Message>, ord: seq<nat>, k: nat, i: nat)
    requires k <= |ord| && i < |h| && i !in ord
    ensures i in Left(|h|, Gone(ord, k)) && h[i] in After(h, ord, k)
  {
    assert i !in Gone(ord, k);
    var j := PositionOf(|h|, Gone(ord, k), i);
    assert After(h, ord, k)[j] == h[i];
  }

  /** A message that asks for a call nobody has answered is not in the order. */
  lemma PendingNotInOrder(h: seq<Message>, recent: nat, i: nat, id: CallId)
    requires i < |h|
    requires id != NoId && id in h[i].toolCalls && forall j :: 0 <= j < |h| ==> h[j].toolCallId != id
    ensures i !in DropOrder(h, recent)
  {
    assert h[i] in h;
    assert id in RequestedIds(h);
    assert id in PendingIds(h);
    var c :| 0 <= c < |h[i].toolCalls| && h[i].toolCalls[c] == id;
    assert Asks(h[i], PendingIds(h));
    if i in DropOrder(h, recent) { DropOrderMembers(h, recent, i); }
  }

  /** A recent message that is not tool traffic is not in the order. */
  lemma RecentNotInOrder(h: seq<Message>, recent: nat, i: nat)
    requires i < |h| <= i + recent && !ToolTraffic(h[i])
    ensures i !in DropOrder(h, recent)
  {
    if i in DropOrder(h, recent) { DropOrderMembers(h, recent, i); }
  }

  /** When the order is used up, what is left of the older messages asks for pending calls, and if nothing is
      left of them, so does all recent tool traffic. */
  lemma NothingRemovable(h: seq<Message>, recent: nat, i: nat)
    requires i < |h| && i !in DropOrder(h, recent)
    ensures i < OlderCount(|h|, recent) ==> Asks(h[i], PendingIds(h))
    ensures (forall x :: 0 <= x < OlderCount(|h|, recent) ==> x in DropOrder(h, recent)) && ToolTraffic(h[i]) ==>
              Asks(h[i], PendingIds(h))
  {
    var a, b := OlderOrder(h, recent), RecentOrder(h, recent);
    var m := OlderCount(|h|, recent);
    assert i in a ==> i in DropOrder(h, recent);
    assert Members(a) == OlderCandidates(h, recent) && Members(b) == RecentCandidates(h, recent);
    if forall x :: 0 <= x < m ==> x in DropOrder(h, recent) {
      forall x | x in Below(m) ensures x in OlderCandidates(h, recent) {
        DropOrderMembers(h, recent, x);
      }
      assert OlderCandidates(h, recent) == Below(m);
      assert DropOrder(h, recent) == a + b;
    }
  }

  // ---------------------------------------------------------------------------------------------
  // Which of the two phases the loop is in
  // ---------------------------------------------------------------------------------------------

  lemma {:induction false} MembersSize(a: seq<nat>)
    requires Distinct(a)
    ensures |Members(a)| == |a|
  {
    if |a| > 0 {
      var init, last := a[..|a| - 1], a[|a| - 1];
      MembersSize(init);
      assert Members(a) == Members(init) + {last} by { assert a == init + [last]; }
      assert last !in Members(init);
    }
  }

  lemma BelowSize(n: nat)
    ensures |Below(n)| == n
  {
    LeftAll(n, {});
    MembersSize(Left(n, {}));
  }

  lemma OlderSize(h: seq<Message>, recent: nat)
    ensures |OlderOrder(h, recent)| <= OlderCount(|h|, recent)
    ensures |OlderOrder(h, recent)| == OlderCount(|h|, recent)
            <==> OlderCandidates(h, recent) == Below(OlderCount(|h|, recent))
  {
    var m := OlderCount(|h|, recent);
    MembersSize(OlderOrder(h, recent));
    BelowSize(m);
    ToolHistory.SubsetSize(OlderCandidates(h, recent), Below(m));
  }

  /** The number of messages dropped so far tells whether older ones are still being dropped. */
  lemma Phase(h: seq<Message>, recent: nat, k: nat)
    requires k <= |DropOrder(h, recent)| && k <= |h|
    ensures |h| - k > recent ==> k <= |OlderOrder(h, recent)|
    ensures |h| - k > recent && k == |OlderOrder(h, recent)| ==> k == |DropOrder(h, recent)|
    ensures |h| - k <= recent ==>
              |OlderOrder(h, recent)| <= k && OlderCandidates(h, recent) == Below(OlderCount(|h|, recent))
  {
    OlderSize(h, recent);
  }

  lemma {:induction false} AfterLength(ms: seq<Message>, ord: seq<nat>, k: nat)
    requires Indexes(|ms|, ord) && k <= |ord|
    ensures k <= |ms| && |After(ms, ord, k)| == |ms| - k
  {
    if k == 0 {
      KeptAll(ms, Gone(ord, k));
    } else {
      AfterLength(ms, ord, k - 1);
      NotGone(|ms|, ord, k - 1);
      GoneStep(ord, k - 1);
      var j := PositionOf(|ms|, Gone(ord, k - 1), ord[k - 1]);
      KeptWithout(ms, Gone(ord, k - 1), j);
    }
  }

  // ---------------------------------------------------------------------------------------------
  // Dropping an older message
  // ---------------------------------------------------------------------------------------------

  /** The messages of a window that are not pinned, and where they stand. */
  method Candidates(selected: seq<Message>, size: nat, pinned: set<nat>)
    returns (window: seq<Message>, ghost at: seq<nat>)
    requires size <= |selected|
    ensures Increasing(at) && forall i :: 0 <= i < |at| ==> at[i] < size
    ensures forall i: nat :: i in at <==> i < size && i !in pinned
    ensures window == Pick(selected, at)
  {
    window, at := [], [];
    for k := 0 to size
      invariant Increasing(at) && forall i :: 0 <= i < |at| ==> at[i] < k
      invariant forall i: nat :: i in at <==> i < k && i !in pinned
      invariant window == Pick(selected, at)
    {
      if k !in pinned {
        window, at := window + [selected[k]], at + [k];
      }
    }
  }

  /** `list.index`. */
  method IndexOf(ms: seq<Message>, m: Message) returns (i: nat)
    requires m in ms
    ensures i < |ms| && ms[i] == m && forall j :: 0 <= j < i ==> ms[j] != m
  {
    i := 0;
    while ms[i] != m
      invariant i < |ms| && forall j :: 0 <= j < i ==> ms[j] != m
      decreases |ms| - i
    {
      i := i + 1;
    }
  }

  /** The window's candidates, and the first of lowest priority among them. */
  ghost predicate Choice(selected: seq<Message>, size: nat, pending: set<CallId>, at: seq<nat>, j: nat) {
    && size <= |selected|
    && Increasing(at) && (forall i :: 0 <= i < |at| ==> at[i] < size)
    && (forall i: nat :: i in at <==> i < size && !Asks(selected[i], pending))
    && j < |at|
    && (forall i :: 0 <= i < |at| ==>
          HistoryTrim.Priority(selected[at[j]]) <= HistoryTrim.Priority(selected[at[i]]))
    && (forall i :: 0 <= i < j ==>
          HistoryTrim.Priority(selected[at[j]]) < HistoryTrim.Priority(selected[at[i]]))
  }

  /** Looking the chosen message up by equality finds the very one that was chosen, even when equal messages
      occur elsewhere. */
  lemma LookupFindsChosen(selected: seq<Message>, size: nat, pending: set<CallId>, at: seq<nat>, j: nat, found: nat)
    requires Choice(selected, size, pending, at, j)
    requires found < |selected| && selected[found] == selected[at[j]]
    requires forall i :: 0 <= i < found ==> selected[i] != selected[at[j]]
    ensures found == at[j]
  {
    assert found <= at[j];
    assert at[j] in at;
    assert found in at;
    var w :| 0 <= w < |at| && at[w] == found;
  }

  lemma GoneOlder(h: seq<Message>, recent: nat, k: nat)
    requires k <= |OlderOrder(h, recent)|
    ensures k <= |DropOrder(h, recent)|
    ensures DropOrder(h, recent)[..k] == OlderOrder(h, recent)[..k]
    ensures k < |OlderOrder(h, recent)| ==> DropOrder(h, recent)[k] == OlderOrder(h, recent)[k]
  {
  }

  lemma PickIncreasing(left: seq<nat>, at: seq<nat>)
    requires Increasing(left) && Increasing(at) && forall i :: 0 <= i < |at| ==> at[i] < |left|
    ensures Increasing(Pick(left, at))
  {
  }

  /** The candidates of the window are the older candidates that are not gone. */
  lemma OpenOlder(h: seq<Message>, recent: nat, gone: set<nat>, selected: seq<Message>, at: seq<nat>, size: nat)
    requires gone <= OlderCandidates(h, recent) && selected == Kept(h, gone)
    requires size == |selected| - recent
    requires forall i :: 0 <= i < |at| ==> at[i] < size
    requires forall i: nat :: i in at <==> i < size && !Asks(selected[i], PendingIds(h))
    ensures Members(Pick(Left(|h|, gone), at)) == OlderCandidates(h, recent) - gone
  {
    var n, m := |h|, OlderCount(|h|, recent);
    var left := Left(n, gone);
    HistoryTrim.LeftAtMost(n, gone);
    assert m == n - recent;
    LeftSplit(n, m, gone);
    assert size == |Left(m, gone)|;
    var open := Pick(left, at);
    forall x | x in open ensures x in OlderCandidates(h, recent) - gone {
      var i :| 0 <= i < |open| && open[i] == x;
      assert at[i] in at;
      assert left[at[i]] == Left(m, gone)[at[i]];
      assert Left(m, gone)[at[i]] in Left(m, gone);
    }
    forall x | x in OlderCandidates(h, recent) - gone ensures x in open {
      var p := PositionOf(m, gone, x);
      assert left[p] == x && selected[p] == h[x];
      assert p in at;
      var i :| 0 <= i < |at| && at[i] == p;
      assert open[i] == x;
    }
  }

  lemma OlderStep(h: seq<Message>, recent: nat, k: nat, selected: seq<Message>, size: nat, at: seq<nat>, j: nat)
    requires k <= |OlderOrder(h, recent)| && k <= |DropOrder(h, recent)|
    requires selected == After(h, DropOrder(h, recent), k)
    requires size == |selected| - recent && Choice(selected, size, PendingIds(h), at, j)
    ensures k < |OlderOrder(h, recent)| && k < |DropOrder(h, recent)|
    ensures selected[at[j]] == h[DropOrder(h, recent)[k]]
    ensures After(h, DropOrder(h, recent), k + 1) == Without(selected, at[j])
  {
    var ord, prio := OlderOrder(h, recent), HistoryTrim.Priorities(h);
    GoneOlder(h, recent, k);
    var gone := Gone(ord, k);
    HistoryTrim.GoneIsCandidate(prio, OlderCandidates(h, recent), ord, k);
    OpenOlder(h, recent, gone, selected, at, size);
    var left := Left(|h|, gone);
    var open := Pick(left, at);
    PickIncreasing(left, at);
    assert forall i :: 0 <= i < |open| ==> prio[open[i]] == HistoryTrim.Priority(selected[at[i]]);
    ChosenIsNext(prio, OlderCandidates(h, recent), ord, k, open, j);
    GoneStep(DropOrder(h, recent), k);
    KeptWithout(h, gone, at[j]);
  }

  lemma NoOlderLeft(h: seq<Message>, recent: nat, k: nat, selected: seq<Message>, size: nat, at: seq<nat>)
    requires k <= |OlderOrder(h, recent)| && k <= |DropOrder(h, recent)|
    requires selected == After(h, DropOrder(h, recent), k)
    requires size == |selected| - recent && |at| == 0
    requires forall i: nat :: i in at <==> i < size && !Asks(selected[i], PendingIds(h))
    ensures k == |OlderOrder(h, recent)|
  {
    var ord, prio := OlderOrder(h, recent), HistoryTrim.Priorities(h);
    GoneOlder(h, recent, k);
    HistoryTrim.GoneIsCandidate(prio, OlderCandidates(h, recent), ord, k);
    OpenOlder(h, recent, Gone(ord, k), selected, at, size);
    UsedUp(prio, OlderCandidates(h, recent), ord, k);
  }

  // ---------------------------------------------------------------------------------------------
  // Dropping recent tool traffic
  // ---------------------------------------------------------------------------------------------

  /** The positions of tool traffic that is not pinned. */
  method RemovableRoles(selected: seq<Message>, pinned: set<nat>) returns (at: seq<nat>)
    ensures Increasing(at) && forall i :: 0 <= i < |at| ==> at[i] < |selected|
    ensures forall i: nat :: i in at <==> i < |selected| && ToolTraffic(selected[i]) && i !in pinned
  {
    at := [];
    for k := 0 to |selected|
      invariant Increasing(at) && forall i :: 0 <= i < |at| ==> at[i] < k
      invariant forall i: nat :: i in at <==> i < k && ToolTraffic(selected[i]) && i !in pinned
    {
      if ToolTraffic(selected[k]) && k !in pinned { at := at + [k]; }
    }
  }

  /** Once all older messages are gone, what is gone beyond them follows the recent order. */
  lemma GoneRecent(h: seq<Message>, recent: nat, k: nat)
    requires OlderCandidates(h, recent) == Below(OlderCount(|h|, recent))
    requires |OlderOrder(h, recent)| <= k <= |DropOrder(h, recent)|
    ensures var k' := k - |OlderOrder(h, recent)|;
            && k' <= |RecentOrder(h, recent)|
            && Gone(DropOrder(h, recent), k) == Below(OlderCount(|h|, recent)) + Gone(RecentOrder(h, recent), k')
            && (k < |DropOrder(h, recent)| <==> k' < |RecentOrder(h, recent)|)
            && (k < |DropOrder(h, recent)| ==> DropOrder(h, recent)[k] == RecentOrder(h, recent)[k'])
  {
    GoneJoin(OlderOrder(h, recent), RecentOrder(h, recent), k);
  }

  lemma GoneJoin(a: seq<nat>, b: seq<nat>, k: nat)
    requires |a| <= k <= |a| + |b|
    ensures Gone(a + b, k) == Members(a) + Gone(b, k - |a|)
  {
    assert (a + b)[..k] == a + b[..k - |a|];
  }

  lemma OpenRecent(h: seq<Message>, recent: nat, gone: set<nat>, goneRecent: set<nat>,
                   selected: seq<Message>, at: seq<nat>)
    requires gone == Below(OlderCount(|h|, recent)) + goneRecent && selected == Kept(h, gone)
    requires forall i :: 0 <= i < |at| ==> at[i] < |selected|
    requires forall i: nat :: i in at <==>
               i < |selected| && ToolTraffic(selected[i]) && !Asks(selected[i], PendingIds(h))
    ensures Members(Pick(Left(|h|, gone), at)) == RecentCandidates(h, recent) - goneRecent
  {
    var left := Left(|h|, gone);
    var open := Pick(left, at);
    forall x | x in open ensures x in RecentCandidates(h, recent) - goneRecent {
      var i :| 0 <= i < |open| && open[i] == x;
      assert at[i] in at;
      assert left[at[i]] in left;
    }
    forall x | x in RecentCandidates(h, recent) - goneRecent ensures x in open {
      var p := PositionOf(|h|, gone, x);
      assert selected[p] == h[x];
      assert p in at;
      var i :| 0 <= i < |at| && at[i] == p;
      assert open[i] == x;
    }
  }

  lemma FirstIsNext(n: nat, candidates: set<nat>, ord: seq<nat>, k: nat, open: seq<nat>)
    requires StableOrder(Flat(n), candidates, ord) && k <= |ord|
    requires Increasing(open) && Members(open) == candidates - Gone(ord, k) && |open| > 0
    requires forall i :: 0 <= i < |open| ==> open[i] < n
    ensures k < |ord| && open[0] == ord[k]
  {
    ChosenIsNext(Flat(n), candidates, ord, k, open, 0);
  }

  lemma RecentStep(h: seq<Message>, recent: nat, k: nat, selected: seq<Message>, at: seq<nat>)
    requires OlderCandidates(h, recent) == Below(OlderCount(|h|, recent))
    requires |OlderOrder(h, recent)| <= k <= |DropOrder(h, recent)|
    requires selected == After(h, DropOrder(h, recent), k)
    requires Increasing(at) && |at| > 0 && forall i :: 0 <= i < |at| ==> at[i] < |selected|
    requires forall i: nat :: i in at <==>
               i < |selected| && ToolTraffic(selected[i]) && !Asks(selected[i], PendingIds(h))
    ensures k < |DropOrder(h, recent)|
    ensures selected[at[0]] == h[DropOrder(h, recent)[k]]
    ensures After(h, DropOrder(h, recent), k + 1) == Without(selected, at[0])
  {
    var b, k' := RecentOrder(h, recent), k - |OlderOrder(h, recent)|;
    GoneRecent(h, recent, k);
    var gone := Gone(DropOrder(h, recent), k);
    OpenRecent(h, recent, gone, Gone(b, k'), selected, at);
    var open := Pick(Left(|h|, gone), at);
    PickIncreasing(Left(|h|, gone), at);
    FirstIsNext(|h|, RecentCandidates(h, recent), b, k', open);
    GoneStep(DropOrder(h, recent), k);
    KeptWithout(h, gone, at[0]);
  }

  lemma NoRecentLeft(h: seq<Message>, recent: nat, k: nat, selected: seq<Message>, at: seq<nat>)
    requires OlderCandidates(h, recent) == Below(OlderCount(|h|, recent))
    requires |OlderOrder(h, recent)| <= k <= |DropOrder(h, recent)|
    requires selected == After(h, DropOrder(h, recent), k) && |at| == 0
    requires forall i: nat :: i in at <==>
               i < |selected| && ToolTraffic(selected[i]) && !Asks(selected[i], PendingIds(h))
    ensures k == |DropOrder(h, recent)|
  {
    var b, k' := RecentOrder(h, recent), k - |OlderOrder(h, recent)|;
    GoneRecent(h, recent, k);
    OpenRecent(h, recent, Gone(DropOrder(h, recent), k), Gone(b, k'), selected, at);
    UsedUp(Flat(|h|), RecentCandidates(h, recent), b, k');
  }

  // ---------------------------------------------------------------------------------------------
  // The loop
  // ---------------------------------------------------------------------------------------------

  /** One pass: the position to drop, or none if nothing can be dropped. */
  method ChooseDrop(ghost h: seq<Message>, recent: nat, ghost k: nat, selected: seq<Message>, pending: set<CallId>)
    returns (choice: Option<nat>)
    requires pending == PendingIds(h)
    requires k <= |DropOrder(h, recent)| && selected == After(h, DropOrder(h, recent), k)
    ensures choice.None? ==> k == |DropOrder(h, recent)|
    ensures choice.Some? ==>
              && k < |DropOrder(h, recent)| && choice.value < |selected|
              && selected[choice.value] == h[DropOrder(h, recent)[k]]
              && After(h, DropOrder(h, recent), k + 1) == Without(selected, choice.value)
  {
    AfterLength(h, DropOrder(h, recent), k);
    Phase(h, recent, k);
    var pinned := PinnedIndexes(selected, pending);
    forall i | 0 <= i < |selected| ensures i in pinned <==> Asks(selected[i], pending) {
      KeptFrom(h, Gone(DropOrder(h, recent), k));
      OnlyRequestsPin(h, selected, i);
    }
    if |selected| > recent {
      choice := ChooseOlder(h, recent, k, selected, pending, pinned);
    } else {
      var at := RemovableRoles(selected, pinned);
      if |at| == 0 {
        NoRecentLeft(h, recent, k, selected, at);
        return None;
      }
      RecentStep(h, recent, k, selected, at);
      return Some(at[0]);
    }
  }

  lemma KeptFrom(h: seq<Message>, gone: set<nat>)
    ensures forall i :: 0 <= i < |Kept(h, gone)| ==> Kept(h, gone)[i] in h
  {
  }

  lemma LowestIsChoice(selected: seq<Message>, size: nat, pending: set<CallId>, at: seq<nat>,
                       window: seq<Message>, j: nat)
    requires size <= |selected|
    requires Increasing(at) && forall i :: 0 <= i < |at| ==> at[i] < size
    requires forall i: nat :: i in at <==> i < size && !Asks(selected[i], pending)
    requires window == Pick(selected, at) && j < |window|
    requires var scores := HistoryTrim.Priorities(window);
             && (forall i :: 0 <= i < |scores| ==> scores[j] <= scores[i])
             && (forall i :: 0 <= i < j ==> scores[j] < scores[i])
    ensures Choice(selected, size, pending, at, j) && window[j] == selected[at[j]]
  {
    var scores := HistoryTrim.Priorities(window);
    assert forall i :: 0 <= i < |at| ==> scores[i] == HistoryTrim.Priority(selected[at[i]]);
  }

  method ChooseOlder(ghost h: seq<Message>, recent: nat, ghost k: nat, selected: seq<Message>,
                     ghost pending: set<CallId>, pinned: set<nat>)
    returns (choice: Option<nat>)
    requires pending == PendingIds(h) && |selected| > recent
    requires k <= |OlderOrder(h, recent)| && k <= |DropOrder(h, recent)|
    requires k == |OlderOrder(h, recent)| ==> k == |DropOrder(h, recent)|
    requires selected == After(h, DropOrder(h, recent), k)
    requires forall i :: 0 <= i < |selected| ==> (i in pinned <==> Asks(selected[i], pending))
    ensures choice.None? ==> k == |DropOrder(h, recent)|
    ensures choice.Some? ==>
              && k < |DropOrder(h, recent)| && choice.value < |selected|
              && selected[choice.value] == h[DropOrder(h, recent)[k]]
              && After(h, DropOrder(h, recent), k + 1) == Without(selected, choice.value)
  {
    var size := |selected| - recent;
    var window, at := Candidates(selected, size, pinned);
    if |window| == 0 {
      NoOlderLeft(h, recent, k, selected, size, at);
      return None;
    }
    var j := FirstLowest(HistoryTrim.Priorities(window));
    var found := IndexOf(selected, window[j]);
    LowestIsChoice(selected, size, pending, at, window, j);
    LookupFindsChosen(selected, size, pending, at, j, found);
    OlderStep(h, recent, k, selected, size, at, j);
    return Some(found);
  }

  /** Everything that is sent besides the selected history. */
  function Around(before: seq<Message>, after: seq<Message>): nat {
    Tokens(before) + Tokens(after)
  }

  lemma ComposedTokens(before: seq<Message>, selected: seq<Message>, after: seq<Message>)
    ensures Tokens(before + selected + after) == Around(before, after) + Tokens(selected)
  {
    TokensAppend(before + selected, after);
    TokensAppend(before, selected);
  }

  /** The selection loop of `build_context_plan` over the messages that are not system messages: it drops the
      shortest prefix of the drop order that meets the target, or all of it. */
  method SelectHistory(before: seq<Message>, history: seq<Message>, after: seq<Message>, target: nat, recent: nat)
    returns (selected: seq<Message>, dropped: seq<Message>)
    ensures StopsAt(Around(before, after), history, DropOrder(history, recent), |dropped|, target)
    ensures selected == After(history, DropOrder(history, recent), |dropped|)
    ensures dropped == Pick(history, DropOrder(history, recent)[..|dropped|])
  {
    ghost var ord, fixed := DropOrder(history, recent), Around(before, after);
    var pending := PendingToolCallIds(history);
    selected, dropped := history, [];
    HistoryTrim.ProgressStart(fixed, history, ord, target, dropped);
    ComposedTokens(before, selected, after);
    while Tokens(before + selected + after) > target && |selected| > 0
      invariant HistoryTrim.Progress(fixed, history, ord, target, selected, dropped)
      invariant Tokens(before + selected + after) == fixed + Tokens(selected)
      decreases |selected|
    {
      var choice := ChooseDrop(history, recent, |dropped|, selected, pending);
      if choice.None? { break; }
      HistoryTrim.ProgressStep(fixed, history, ord, target, selected, dropped, Without(selected, choice.value));
      dropped := dropped + [selected[choice.value]];
      selected := selected[..choice.value] + selected[choice.value + 1..];
      ComposedTokens(before, selected, after);
    }
    if |selected| == 0 { AllDropped(history, ord, |dropped|); }
  }

  lemma AllDropped(h: seq<Message>, ord: seq<nat>, k: nat)
    requires Indexes(|h|, ord) && k <= |ord| && |After(h, ord, k)| == 0
    ensures k == |ord|
  {
    AfterLength(h, ord, k);
    AfterLength(h, ord, |ord|);
  }

  // ---------------------------------------------------------------------------------------------
  // The plan
  // ---------------------------------------------------------------------------------------------

  /** The system messages of a history, or the others, in order. */
  function Side(ms: seq<Message>, system: bool): seq<Message> {
    if ms == [] then []
    else
      var init, last := ms[..|ms| - 1], ms[|ms| - 1];
      if (last.role == System) == system then Side(init, system) + [last] else Side(init, system)
  }

  method SplitHistory(ms: seq<Message>) returns (system: seq<Message>, others: seq<Message>)
    ensures system == Side(ms, true) && others == Side(ms, false)
  {
    system, others := [], [];
    for i := 0 to |ms|
      invariant system == Side(ms[..i], true) && others == Side(ms[..i], false)
    {
      assert ms[..i + 1][..i] == ms[..i];
      if ms[i].role == System { system := system + [ms[i]]; } else { others := others + [ms[i]]; }
    }
    assert ms[..|ms|] == ms;
  }

  /** What a plan consists of: the system messages and the context layers, the selected history and the current
      turn; what was dropped is the shortest prefix of the drop order that meets the target, or all of it. */
  ghost predicate Plans(history: seq<Message>, layers: seq<Message>, current: seq<Message>, target: nat, recent: nat,
                        messages: seq<Message>, dropped: seq<Message>) {
    var h, ord := Side(history, false), DropOrder(Side(history, false), recent);
    && |dropped| <= |ord| && dropped == Pick(h, ord[..|dropped|])
    && messages == Side(history, true) + layers + After(h, ord, |dropped|) + current
    && StopsAt(Around(Side(history, true) + layers, current), h, ord, |dropped|, target)
  }

  /** `build_context_plan`, with the target and the recent window of the length policy. */
  method BuildContextPlan(family: LengthPolicy.Family, override: LengthPolicy.Override, modelLimit: nat,
                          history: seq<Message>, layers: seq<Message>, current: seq<Message>)
    returns (messages: seq<Message>, dropped: seq<Message>)
    ensures var policy := LengthPolicy.BuildLengthPolicy(family, override, modelLimit);
            Plans(history, layers, current, policy.target, policy.recentTurns, messages, dropped)
  {
    var policy := LengthPolicy.BuildLengthPolicy(family, override, modelLimit);
    var system, others := SplitHistory(history);
    var selected;
    selected, dropped := SelectHistory(system + layers, others, current, policy.target, policy.recentTurns);
    messages := system + layers + selected + current;
  }

  /** A plan is within its target, unless everything that can be dropped was dropped. */
  lemma PlanMeetsTarget(history: seq<Message>, layers: seq<Message>, current: seq<Message>, target: nat, recent: nat,
                        messages: seq<Message>, dropped: seq<Message>)
    requires Plans(history, layers, current, target, recent, messages, dropped)
    ensures Tokens(messages) <= target || |dropped| == |DropOrder(Side(history, false), recent)|
  {
    var h := Side(history, false);
    ComposedTokens(Side(history, true) + layers, After(h, DropOrder(h, recent), |dropped|), current);
  }

  /** For every provider family and every window large enough to hold a reply at all, the plan and the reserved
      reply fit the window, unless everything that can be dropped was dropped. */
  lemma PlanLeavesRoomForReply(family: LengthPolicy.Family, override: LengthPolicy.Override, modelLimit: nat,
                               history: seq<Message>, layers: seq<Message>, current: seq<Message>,
                               messages: seq<Message>, dropped: seq<Message>)
    requires LengthPolicy.ContextLimit(override, modelLimit) >= LengthPolicy.Table(family).minResponse + 512
    requires var policy := LengthPolicy.BuildLengthPolicy(family, override, modelLimit);
             && Plans(history, layers, current, policy.target, policy.recentTurns, messages, dropped)
             && |dropped| < |DropOrder(Side(history, false), policy.recentTurns)|
    ensures var policy := LengthPolicy.BuildLengthPolicy(family, override, modelLimit);
            Tokens(messages) + policy.reserved <= policy.limit
  {
    var policy := LengthPolicy.BuildLengthPolicy(family, override, modelLimit);
    PlanMeetsTarget(history, layers, current, policy.target, policy.recentTurns, messages, dropped);
    LengthPolicy.TargetFitsIff(family, override, modelLimit);
  }

  /** What is kept of the history is in the messages of the plan. */
  lemma KeptIsPlanned(history: seq<Message>, layers: seq<Message>, current: seq<Message>, target: nat, recent: nat,
                      messages: seq<Message>, dropped: seq<Message>, i: nat)
    requires Plans(history, layers, current, target, recent, messages, dropped)
    requires i < |Side(history, false)| && i !in DropOrder(Side(history, false), recent)
    ensures Side(history, false)[i] in messages
    ensures i in Left(|Side(history, false)|, Gone(DropOrder(Side(history, false), recent), |dropped|))
  {
    var h := Side(history, false);
    NotDroppedIsKept(h, DropOrder(h, recent), |dropped|, i);
  }

  lemma {:induction false} SideMembers(ms: seq<Message>, system: bool)
    ensures forall m :: m in Side(ms, system) <==> m in ms && (m.role == System) == system
  {
    if ms != [] {
      var init, last := ms[..|ms| - 1], ms[|ms| - 1];
      assert ms == init + [last];
      SideMembers(init, system);
    }
  }

  /** A message of the history that asks for a call no message of the history has answered is in the plan. */
  lemma PendingRequestIsKept(history: seq<Message>, layers: seq<Message>, current: seq<Message>, target: nat,
                             recent: nat, messages: seq<Message>, dropped: seq<Message>, m: Message, id: CallId)
    requires Plans(history, layers, current, target, recent, messages, dropped)
    requires m in history && m.role != System && id != NoId && id in m.toolCalls
    requires forall r :: r in history && r.role != System ==> r.toolCallId != id
    ensures m in messages
  {
    var h := Side(history, false);
    SideMembers(history, false);
    var i :| 0 <= i < |h| && h[i] == m;
    PendingNotInOrder(h, recent, i, id);
    KeptIsPlanned(history, layers, current, target, recent, messages, dropped, i);
  }

  /** A message that is no tool traffic is in the plan if it is among the last `recent` ones of the history that
      are not system messages. */
  lemma RecentTalkIsKept(history: seq<Message>, layers: seq<Message>, current: seq<Message>, target: nat,
                         recent: nat, messages: seq<Message>, dropped: seq<Message>, i: nat)
    requires Plans(history, layers, current, target, recent, messages, dropped)
    requires i < |Side(history, false)| <= i + recent && !ToolTraffic(Side(history, false)[i])
    ensures Side(history, false)[i] in messages
    ensures i in Left(|Side(history, false)|, Gone(DropOrder(Side(history, false), recent), |dropped|))
  {
    RecentNotInOrder(Side(history, false), recent, i);
    KeptIsPlanned(history, layers, current, target, recent, messages, dropped, i);
  }
}
