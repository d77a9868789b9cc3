/** Trimming the chat history in place until it fits its budget. */
module HistoryTrim {
  import opened Messages
  import opened Subsequence
  import opened Selection
  import LengthPolicy

  /** `_trim_priority`: what goes first. */
  function Priority(m: Message): (p: nat)
    ensures p < 5
  {
    if m.role == Tool then 0
    else if m.toolCalls != [] then 1
    else if m.role == Assistant then 2
    else if m.role == User then 3
    else 4
  }

  function Priorities(ms: seq<Message>): (ps: seq<nat>)
    ensures |ps| == |ms| && forall i :: 0 <= i < |ms| ==> ps[i] == Priority(ms[i])
  {
    seq(|ms|, i requires 0 <= i < |ms| => Priority(ms[i]))
  }

  const PROTECTED_TAIL: nat := 2

  function WindowSize(n: nat): nat {
    if n <= PROTECTED_TAIL then 0 else n - PROTECTED_TAIL
  }

  /** The order in which messages go: by priority and then by age, all but the last two. */
  function RemovalOrder(body: seq<Message>): (ord: seq<nat>)
    ensures StableOrder(Priorities(body), Below(WindowSize(|body|)), ord) && Indexes(|body|, ord)
  {
    OrderIsStable(Priorities(body), Below(WindowSize(|body|)), 5);
    StableIndexes(Priorities(body), Below(WindowSize(|body|)), Order(Priorities(body), Below(WindowSize(|body|)), 5));
    Order(Priorities(body), Below(WindowSize(|body|)), 5)
  }

  function HeadSize(history: seq<Message>, preserve: int): (n: nat)
    ensures n <= |history|
  {
    var count := if preserve >= 0 then preserve else 0;
    if count <= |history| then count else |history|
  }

  /** The candidates that are left stand first among what is left. */
  lemma OpenWindow(n: nat, m: nat, ord: seq<nat>, k: nat)
    requires m <= n && k <= |ord| && forall i :: i in Gone(ord, k) ==> i < m
    ensures |Left(n, Gone(ord, k))| == |Left(m, Gone(ord, k))| + (n - m)
    ensures Left(n, Gone(ord, k))[..|Left(m, Gone(ord, k))|] == Left(m, Gone(ord, k))
    ensures Members(Left(m, Gone(ord, k))) == Below(m) - Gone(ord, k)
  {
    LeftSplit(n, m, Gone(ord, k));
  }

  lemma GoneIsCandidate(prio: seq<nat>, candidates: set<nat>, ord: seq<nat>, k: nat)
    requires StableOrder(prio, candidates, ord) && k <= |ord|
    ensures Gone(ord, k) <= candidates
  {
    forall x | x in Gone(ord, k) ensures x in candidates {
      assert x in Members(ord);
    }
  }

  /** Taking the first message of lowest priority out of the window follows the removal order. */
  lemma TrimStep(body: seq<Message>, ord: seq<nat>, k: nat, rest: seq<Message>, j: nat)
    requires ord == RemovalOrder(body) && k <= |ord| && rest == After(body, ord, k)
    requires |rest| > PROTECTED_TAIL && j < |rest| - PROTECTED_TAIL
    requires forall i :: 0 <= i < |rest| - PROTECTED_TAIL ==> Priority(rest[j]) <= Priority(rest[i])
    requires forall i :: 0 <= i < j ==> Priority(rest[j]) < Priority(rest[i])
    ensures k < |ord| && rest[j] == body[ord[k]] && After(body, ord, k + 1) == Without(rest, j)
  {
    var n, m := |body|, WindowSize(|body|);
    var prio := Priorities(body);
    GoneIsCandidate(prio, Below(m), ord, k);
    LeftLength(n, ord, k);
    OpenWindow(n, m, ord, k);
    var left, open := Left(n, Gone(ord, k)), Left(m, Gone(ord, k));
    assert forall i :: 0 <= i < |open| ==> open[i] == left[i] && prio[open[i]] == Priority(rest[i]);
    ChosenIsNext(prio, Below(m), ord, k, open, j);
    GoneStep(ord, k);
    KeptWithout(body, Gone(ord, k), j);
  }

  lemma LeftLength(n: nat, ord: seq<nat>, k: nat)
    requires k <= |ord|
    ensures |Left(n, Gone(ord, k))| <= n
  {
    LeftAtMost(n, Gone(ord, k));
  }

  lemma LeftAtMost(n: nat, gone: set<nat>)
    ensures |Left(n, gone)| <= n
  {
    AscendingLength(n, gone);
  }

  lemma {:induction false} AscendingLength(n: nat, s: set<nat>)
    ensures |Ascending(n, s, false)| <= n
  {
    if n > 0 { AscendingLength(n - 1, s); }
  }

  /** Once only the protected tail is left, the removal order is used up. */
  lemma NothingLeft(body: seq<Message>, ord: seq<nat>, k: nat)
    requires ord == RemovalOrder(body) && k <= |ord| && |After(body, ord, k)| <= PROTECTED_TAIL
    ensures k == |ord|
  {
    var n, m := |body|, WindowSize(|body|);
    GoneIsCandidate(Priorities(body), Below(m), ord, k);
    OpenWindow(n, m, ord, k);
    UsedUp(Priorities(body), Below(m), ord, k);
    var left := Left(m, Gone(ord, k));
    assert m > 0 ==> left == [];
    assert m == 0 ==> Below(m) == {};
  }

  /** What was removed follows the order, what is left is the rest, and the budget was never met before. */
  ghost predicate Progress(fixed: nat, body: seq<Message>, ord: seq<nat>, usable: nat,
                           rest: seq<Message>, removed: seq<Message>) {
    && Indexes(|body|, ord) && |removed| <= |ord|
    && rest == After(body, ord, |removed|)
    && removed == Pick(body, ord[..|removed|])
    && AllOver(fixed, body, ord, |removed|, usable)
  }

  lemma ProgressStart(fixed: nat, body: seq<Message>, ord: seq<nat>, usable: nat, removed: seq<Message>)
    requires Indexes(|body|, ord) && removed == []
    ensures Progress(fixed, body, ord, usable, body, removed)
  {
    KeptAll(body, Gone(ord, |removed|));
  }

  lemma ProgressStep(fixed: nat, body: seq<Message>, ord: seq<nat>, usable: nat,
                     rest: seq<Message>, removed: seq<Message>, next: seq<Message>)
    requires Progress(fixed, body, ord, usable, rest, removed)
    requires fixed + Tokens(rest) > usable && |removed| < |ord|
    requires next == After(body, ord, |removed| + 1)
    ensures Progress(fixed, body, ord, usable, next, removed + [body[ord[|removed|]]])
  {
    var k := |removed|;
    assert ord[..k + 1] == ord[..k] + [ord[k]];
  }

  /** The first message of lowest priority before the protected tail. */
  method ChooseRemoval(rest: seq<Message>) returns (j: nat)
    requires |rest| > PROTECTED_TAIL
    ensures j < |rest| - PROTECTED_TAIL
    ensures forall i :: 0 <= i < |rest| - PROTECTED_TAIL ==> Priority(rest[j]) <= Priority(rest[i])
    ensures forall i :: 0 <= i < j ==> Priority(rest[j]) < Priority(rest[i])
  {
    var scores := Priorities(rest[..|rest| - PROTECTED_TAIL]);
    assert forall i :: 0 <= i < |scores| ==> scores[i] == Priority(rest[i]);
    j := FirstLowest(scores);
  }

  /** One pass of the removal loop. */
  method RemoveOne(ghost fixed: nat, ghost body: seq<Message>, ghost ord: seq<nat>, ghost usable: nat,
                   rest: seq<Message>, removed: seq<Message>)
    returns (rest': seq<Message>, removed': seq<Message>)
    requires ord == RemovalOrder(body) && Progress(fixed, body, ord, usable, rest, removed)
    requires fixed + Tokens(rest) > usable && |rest| > PROTECTED_TAIL
    ensures Progress(fixed, body, ord, usable, rest', removed') && |rest'| < |rest|
  {
    var j := ChooseRemoval(rest);
    TrimStep(body, ord, |removed|, rest, j);
    ProgressStep(fixed, body, ord, usable, rest, removed, Without(rest, j));
    removed' := removed + [rest[j]];
    rest' := rest[..j] + rest[j + 1..];
  }

  lemma ProgressEnd(fixed: nat, body: seq<Message>, ord: seq<nat>, usable: nat,
                    rest: seq<Message>, removed: seq<Message>)
    requires ord == RemovalOrder(body) && Progress(fixed, body, ord, usable, rest, removed)
    requires fixed + Tokens(rest) <= usable || |rest| <= PROTECTED_TAIL
    ensures StopsAt(fixed, body, ord, |removed|, usable)
  {
    if |rest| <= PROTECTED_TAIL { NothingLeft(body, ord, |removed|); }
  }

  /** The removal loop of `trim_history`. */
  method Shrink(head: seq<Message>, body: seq<Message>, usable: nat) returns (rest: seq<Message>, removed: seq<Message>)
    ensures StopsAt(Tokens(head), body, RemovalOrder(body), |removed|, usable)
    ensures rest == After(body, RemovalOrder(body), |removed|)
    ensures removed == Pick(body, RemovalOrder(body)[..|removed|])
  {
    ghost var ord, fixed := RemovalOrder(body), Tokens(head);
    rest, removed := body, [];
    ProgressStart(fixed, body, ord, usable, removed);
    TokensAppend(head, rest);
    while Tokens(head + rest) > usable && |rest| > PROTECTED_TAIL
      invariant Progress(fixed, body, ord, usable, rest, removed)
      invariant Tokens(head + rest) == fixed + Tokens(rest)
      decreases |rest|
    {
      rest, removed := RemoveOne(fixed, body, ord, usable, rest, removed);
      TokensAppend(head, rest);
    }
    ProgressEnd(fixed, body, ord, usable, rest, removed);
  }

  // ---------------------------------------------------------------------------------------------
  // The trim
  // ---------------------------------------------------------------------------------------------

  class Conversation {
    var chatHistory: seq<Message>

    constructor (history: seq<Message>)
      ensures chatHistory == history
    {
      chatHistory := history;
    }

    /** `trim_history`: the messages it takes out are what it summarizes.  `meanwhile` is what the list it trims has
        become when the summary arrives; only then is it overwritten.  If a prompt refresh, a thread switch or a
        clearing has given the session another list in between, `replaced`, that one stays as it is. */
    method TrimHistory(family: LengthPolicy.Family, override: LengthPolicy.Override, modelLimit: nat,
                       hundredths: nat, preserve: int, meanwhile: seq<Message>, replaced: Option<seq<Message>>)
      returns (removed: seq<Message>, report: Report, ghost kept: seq<Message>)
      modifies this
      ensures var policy := LengthPolicy.BuildLengthPolicy(family, override, modelLimit);
              && report.limit == policy.limit && report.usable == LengthPolicy.Usable(policy, hundredths)
              && Trims(old(chatHistory), report.usable, preserve, kept, removed)
      ensures chatHistory
           == if !report.triggered then old(chatHistory)
              else if replaced.Some? then replaced.value
              else WrittenBack(old(chatHistory), preserve, kept, meanwhile)
      ensures report.triggered <==> |removed| > 0
      ensures !report.triggered ==> kept == old(chatHistory)
      ensures report.trimmed == |removed|
      ensures report.before == old(Tokens(chatHistory))
      ensures report.after
           == if report.triggered then Tokens(WrittenBack(old(chatHistory), preserve, kept, meanwhile))
              else report.before
    {
      var policy := LengthPolicy.BuildLengthPolicy(family, override, modelLimit);
      var usable := LengthPolicy.Usable(policy, hundredths);
      var before := Tokens(chatHistory);
      report := Report(policy.limit, usable, false, 0, before, before);
      removed, kept := [], chatHistory;
      var k := HeadSize(chatHistory, preserve);
      var head, body := chatHistory[..k], chatHistory[k..];
      SplitAt(chatHistory, k);
      if before <= usable {
        TrimsNothing(chatHistory, usable, preserve, removed);
        return;
      }
      var rest;
      rest, removed := Shrink(head, body, usable);
      kept := head + rest;
      if |removed| == 0 {
        KeptAll(body, Gone(RemovalOrder(body), |removed|));
        return;
      }
      DropHead(head, rest);
      var list := meanwhile[..HeadSize(meanwhile, preserve)] + rest;
      chatHistory := if replaced.Some? then replaced.value else list;
      report := report.(triggered := true, trimmed := |removed|, after := Tokens(list));
    }
  }

  /** The history after the kept messages of `h` are written over what the history has become. */
  function WrittenBack(h: seq<Message>, preserve: int, kept: seq<Message>, meanwhile: seq<Message>): seq<Message>
    requires HeadSize(h, preserve) <= |kept|
  {
    meanwhile[..HeadSize(meanwhile, preserve)] + kept[HeadSize(h, preserve)..]
  }

  lemma DropHead<T>(head: seq<T>, rest: seq<T>)
    ensures (head + rest)[|head|..] == rest && (head + rest)[..|head|] == head
  {
  }

  datatype Report = Report(limit: nat, usable: nat, triggered: bool, trimmed: nat, before: nat, after: nat)

  /** What trimming promises: the head stays, and of the rest exactly the shortest sufficient prefix of the
      removal order is taken out, the others keeping their order. */
  ghost predicate Trims(h: seq<Message>, usable: nat, preserve: int, kept: seq<Message>, removed: seq<Message>) {
    var k := HeadSize(h, preserve);
    var head, body := h[..k], h[k..];
    var ord := RemovalOrder(body);
    && StopsAt(Tokens(head), body, ord, |removed|, usable)
    && kept == head + After(body, ord, |removed|)
    && removed == Pick(body, ord[..|removed|])
  }

  lemma TrimsNothing(h: seq<Message>, usable: nat, preserve: int, removed: seq<Message>)
    requires Tokens(h) <= usable && |removed| == 0
    ensures Trims(h, usable, preserve, h, removed)
  {
    var k := HeadSize(h, preserve);
    SplitAt(h, k);
    FitsAtOnce(h[..k], h[k..], RemovalOrder(h[k..]), usable, removed);
  }

  lemma FitsAtOnce(head: seq<Message>, body: seq<Message>, ord: seq<nat>, usable: nat, removed: seq<Message>)
    requires ord == RemovalOrder(body) && |removed| == 0 && Tokens(head + body) <= usable
    ensures StopsAt(Tokens(head), body, ord, |removed|, usable)
    ensures body == After(body, ord, |removed|) && removed == Pick(body, ord[..|removed|])
  {
    ProgressStart(Tokens(head), body, ord, usable, removed);
    TokensAppend(head, body);
    ProgressEnd(Tokens(head), body, ord, usable, body, removed);
  }

  /** Where a trim removed anything, the head is smaller than the history. */
  lemma HeadIsProper(h: seq<Message>, usable: nat, preserve: int, kept: seq<Message>, removed: seq<Message>)
    requires Trims(h, usable, preserve, kept, removed) && |removed| > 0
    ensures HeadSize(h, preserve) < |h|
  {
    var body := h[HeadSize(h, preserve)..];
    assert RemovalOrder(body)[0] < |body|;
  }

  /** Messages that arrive while the summary is awaited are overwritten: the written history is what was kept of
      the history before, and misses nothing exactly if nothing arrived. */
  lemma LateMessagesAreLost(h: seq<Message>, usable: nat, preserve: int, kept: seq<Message>, removed: seq<Message>,
                            late: seq<Message>)
    requires Trims(h, usable, preserve, kept, removed) && |removed| > 0
    ensures WrittenBack(h, preserve, kept, h + late) == kept
    ensures WrittenBack(h, preserve, kept, h + late) == kept + late <==> |late| == 0
  {
    var k := HeadSize(h, preserve);
    HeadIsProper(h, usable, preserve, kept, removed);
    DropHead(h[..k], After(h[k..], RemovalOrder(h[k..]), |removed|));
    HeadOfLonger(h, late, k);
    assert HeadSize(h + late, preserve) == k;
    SplitAt(kept, k);
  }

  lemma HeadOfLonger<T>(h: seq<T>, late: seq<T>, k: nat)
    requires k <= |h|
    ensures (h + late)[..k] == h[..k]
  {
  }

  /** The estimate before is the estimate after plus that of the removed messages. */
  lemma TrimConservesTokens(h: seq<Message>, usable: nat, preserve: int, kept: seq<Message>, removed: seq<Message>)
    requires Trims(h, usable, preserve, kept, removed)
    ensures Tokens(h) == Tokens(kept) + Tokens(removed)
  {
    var k := HeadSize(h, preserve);
    var head, body := h[..k], h[k..];
    var ord := RemovalOrder(body);
    SplitAt(h, k);
    TokensAppend(head, body);
    TokensAppend(head, After(body, ord, |removed|));
    TokensConserved(body, ord, |removed|);
  }

  /** Unless trimming bottomed out at two messages after the head, the budget is met. */
  lemma TrimMeetsBudget(h: seq<Message>, usable: nat, preserve: int, kept: seq<Message>, removed: seq<Message>)
    requires Trims(h, usable, preserve, kept, removed)
    ensures Tokens(kept) <= usable || |kept| <= HeadSize(h, preserve) + 2
  {
    var k := HeadSize(h, preserve);
    var head, body := h[..k], h[k..];
    var ord := RemovalOrder(body);
    TokensAppend(head, After(body, ord, |removed|));
    if |removed| == |ord| { BottomedOut(body, ord, |removed|); }
  }

  lemma NoMembers(a: seq<nat>)
    ensures Members(a) == {} ==> |a| == 0
  {
    if |a| > 0 { assert a[0] in Members(a); }
  }

  lemma BottomedOut(body: seq<Message>, ord: seq<nat>, k: nat)
    requires ord == RemovalOrder(body) && k == |ord|
    ensures |After(body, ord, k)| <= PROTECTED_TAIL
  {
    var n, m := |body|, WindowSize(|body|);
    GoneIsCandidate(Priorities(body), Below(m), ord, k);
    UsedUp(Priorities(body), Below(m), ord, k);
    OpenWindow(n, m, ord, k);
    var left := Left(m, Gone(ord, k));
    NoMembers(left);
  }

  /** For every provider family and every window large enough to hold a reply at all, a trimmed history and
      the reserved reply fit the window, unless trimming bottomed out. */
  lemma TrimLeavesRoomForReply(family: LengthPolicy.Family, override: LengthPolicy.Override, modelLimit: nat,
                               hundredths: nat, h: seq<Message>, preserve: int,
                               kept: seq<Message>, removed: seq<Message>)
    requires LengthPolicy.ContextLimit(override, modelLimit) >= LengthPolicy.Table(family).minResponse + 512
    requires var policy := LengthPolicy.BuildLengthPolicy(family, override, modelLimit);
             Trims(h, LengthPolicy.Usable(policy, hundredths), preserve, kept, removed)
    requires |kept| > HeadSize(h, preserve) + 2
    ensures var policy := LengthPolicy.BuildLengthPolicy(family, override, modelLimit);
            Tokens(kept) + policy.reserved <= policy.limit
  {
    var policy := LengthPolicy.BuildLengthPolicy(family, override, modelLimit);
    TrimMeetsBudget(h, LengthPolicy.Usable(policy, hundredths), preserve, kept, removed);
    LengthPolicy.UsableFits(family, override, modelLimit, hundredths, Tokens(kept));
  }

  // ---------------------------------------------------------------------------------------------
  // What a trim removes, by the roles of the messages
  // ---------------------------------------------------------------------------------------------

  /** A message `a` at `i` goes before a message `b` at `j`: tool messages first, then other messages with tool
      calls, then plain messages of the assistant, then those of the user, then all others; the older first among
      equals. */
  predicate GoesBefore(a: Message, i: nat, b: Message, j: nat) {
    if b.role == Tool then a.role == Tool && i < j
    else if b.toolCalls != [] then a.role == Tool || (a.toolCalls != [] && i < j)
    else if b.role == Assistant then a.role == Tool || a.toolCalls != [] || (a.role == Assistant && i < j)
    else if b.role == User then
      a.role == Tool || a.toolCalls != [] || a.role == Assistant || (a.role == User && i < j)
    else a.role == Tool || a.toolCalls != [] || a.role == Assistant || a.role == User || i < j
  }

  lemma PriorityIs(ms: seq<Message>, i: nat, j: nat)
    requires i < |ms| && j < |ms|
    ensures Before(Priorities(ms), i, j) <==> GoesBefore(ms[i], i, ms[j], j)
  {
  }

  lemma OrderedByRole(ms: seq<Message>, candidates: set<nat>, ord: seq<nat>, k: nat)
    requires StableOrder(Priorities(ms), candidates, ord) && k <= |ord|
    ensures forall a, b :: 0 <= a < b < |ord| ==> GoesBefore(ms[ord[a]], ord[a], ms[ord[b]], ord[b])
    ensures forall i, j :: i in Gone(ord, k) && j in candidates && j !in Gone(ord, k) ==>
              i < |ms| && j < |ms| && GoesBefore(ms[i], i, ms[j], j)
  {
    forall a, b | 0 <= a < b < |ord| ensures GoesBefore(ms[ord[a]], ord[a], ms[ord[b]], ord[b]) {
      PriorityIs(ms, ord[a], ord[b]);
    }
    forall c | 0 <= c < k ensures ord[c] in Gone(ord, k) { assert ord[..k][c] == ord[c]; }
    forall i, j | i in Gone(ord, k) && j in candidates && j !in Gone(ord, k)
      ensures i < |ms| && j < |ms| && GoesBefore(ms[i], i, ms[j], j)
    {
      var a :| 0 <= a < k && ord[a] == i;
      assert j in Members(ord);
      var b :| 0 <= b < |ord| && ord[b] == j;
    }
  }

  lemma SameRank(ms: seq<Message>, k: nat, i: nat, j: nat)
    requires k <= |ms| && i < |ms| - k && j < |ms| - k
    ensures GoesBefore(ms[k..][i], i, ms[k..][j], j) <==> GoesBefore(ms[i + k], i + k, ms[j + k], j + k)
  {
  }

  lemma RaisedIndexes(m: nat, ord: seq<nat>, n: nat, k: nat)
    requires Indexes(m, ord) && n <= |ord|
    ensures Indexes(m + k, Raise(ord[..n], k))
  {
  }

  lemma TrimBudget(head: seq<Message>, body: seq<Message>, ord: seq<nat>, n: nat, usable: nat)
    requires StopsAt(Tokens(head), body, ord, n, usable)
    ensures Tokens(head + After(body, ord, n)) <= usable || n == |ord|
  {
    TokensAppend(head, After(body, ord, n));
  }

  lemma TrimShort(head: seq<Message>, body: seq<Message>, ord: seq<nat>, n: nat, usable: nat)
    requires StopsAt(Tokens(head), body, ord, n, usable) && n > 0 && Indexes(|body|, ord)
    ensures Tokens(head + After(body, ord, n)) + MessageTokens(body[ord[n - 1]]) > usable
  {
    TokensAppend(head, After(body, ord, n));
    assert !Fits(Tokens(head), body, ord, n - 1, usable);
    AfterStep(body, ord, n - 1);
  }

  lemma AllGone(body: seq<Message>, n: nat)
    requires n == |RemovalOrder(body)|
    ensures forall i: nat :: i < WindowSize(|body|) ==> i in Gone(RemovalOrder(body), n)
  {
    var ord := RemovalOrder(body);
    assert ord[..n] == ord;
    forall i: nat | i < WindowSize(|body|) ensures i in Gone(ord, n) {
      assert i in Members(ord);
    }
  }

  /** The positions a trim with a head of `k` messages keeps, and those it removes, after `n` removals. */
  function TrimKept(h: seq<Message>, k: nat, n: nat): seq<nat>
    requires k <= |h| && n <= |RemovalOrder(h[k..])|
  {
    UpTo(k) + Raise(Left(|h| - k, Gone(RemovalOrder(h[k..]), n)), k)
  }

  function TrimOut(h: seq<Message>, k: nat, n: nat): (out: seq<nat>)
    requires k <= |h| && n <= |RemovalOrder(h[k..])|
    ensures Indexes(|h|, out)
  {
    RaisedIndexes(|h| - k, RemovalOrder(h[k..]), n, k);
    Raise(RemovalOrder(h[k..])[..n], k)
  }

  lemma TrimPicks(h: seq<Message>, usable: nat, preserve: int, kept: seq<Message>, removed: seq<Message>, k: nat)
    requires Trims(h, usable, preserve, kept, removed) && k == HeadSize(h, preserve)
    ensures Positions(TrimKept(h, k, |removed|), |h|) && kept == Pick(h, TrimKept(h, k, |removed|))
    ensures removed == Pick(h, TrimOut(h, k, |removed|))
  {
    var ord := RemovalOrder(h[k..]);
    SplitAt(h, k);
    PickFront(h[..k], h[k..], Left(|h| - k, Gone(ord, |removed|)));
    PickOut(h[..k], h[k..], ord, |removed|, removed, h);
  }

  lemma PickOut(head: seq<Message>, body: seq<Message>, ord: seq<nat>, n: nat, removed: seq<Message>, h: seq<Message>)
    requires h == head + body && Indexes(|body|, ord) && n <= |ord| && removed == Pick(body, ord[..n])
    ensures Indexes(|h|, Raise(ord[..n], |head|)) && removed == Pick(h, Raise(ord[..n], |head|))
  {
    PickBehind(head, body, ord[..n]);
    RaisedIndexes(|body|, ord, n, |head|);
  }

  lemma OutIndex(h: seq<Message>, k: nat, n: nat, i: nat)
    requires k <= |h| && n <= |RemovalOrder(h[k..])|
    ensures i in TrimOut(h, k, n) <==> i >= k && i - k in Gone(RemovalOrder(h[k..]), n)
  {
    RaiseMembers(RemovalOrder(h[k..])[..n], k);
  }

  lemma KeptIndex(h: seq<Message>, k: nat, n: nat, i: nat)
    requires k <= |h| && n <= |RemovalOrder(h[k..])|
    ensures i in TrimKept(h, k, n) <==> i < k || (i < |h| && i - k !in Gone(RemovalOrder(h[k..]), n))
  {
    UpToMembers(k);
    RaiseMembers(Left(|h| - k, Gone(RemovalOrder(h[k..]), n)), k);
    JoinMembers(UpTo(k), Raise(Left(|h| - k, Gone(RemovalOrder(h[k..]), n)), k), i);
  }

  lemma JoinMembers(a: seq<nat>, b: seq<nat>, i: nat)
    ensures i in a + b <==> i in a || i in b
  {
  }

  lemma GoneInWindow(h: seq<Message>, k: nat, n: nat, i: nat)
    requires k <= |h| && n <= |RemovalOrder(h[k..])|
    ensures i in Gone(RemovalOrder(h[k..]), n) ==> i + 2 < |h| - k
    ensures n == |RemovalOrder(h[k..])| && i + 2 < |h| - k ==> i in Gone(RemovalOrder(h[k..]), n)
  {
    var body, ord := h[k..], RemovalOrder(h[k..]);
    GoneIsCandidate(Priorities(body), Below(WindowSize(|body|)), ord, n);
    if n == |ord| { AllGone(body, n); }
  }

  lemma TrimSide(h: seq<Message>, preserve: int, k: nat, n: nat, i: nat)
    requires k == HeadSize(h, preserve) && n <= |RemovalOrder(h[k..])| && i < |h|
    ensures i in TrimKept(h, k, n) <==> i !in TrimOut(h, k, n)
    ensures i < preserve || |h| <= i + 2 ==> i in TrimKept(h, k, n)
    ensures n == |RemovalOrder(h[k..])| && preserve <= i && i + 2 < |h| ==> i in TrimOut(h, k, n)
  {
    OutIndex(h, k, n, i);
    KeptIndex(h, k, n, i);
    if i >= k { GoneInWindow(h, k, n, i - k); }
  }

  lemma TrimSides(h: seq<Message>, preserve: int, k: nat, n: nat)
    requires k == HeadSize(h, preserve) && n <= |RemovalOrder(h[k..])|
    ensures forall i: nat :: i < |h| ==> (i in TrimKept(h, k, n) <==> i !in TrimOut(h, k, n))
    ensures forall i: nat :: i < |h| && (i < preserve || |h| <= i + 2) ==> i in TrimKept(h, k, n)
    ensures n == |RemovalOrder(h[k..])| ==> forall j: nat :: preserve <= j && j + 2 < |h| ==> j in TrimOut(h, k, n)
  {
    forall i: nat | i < |h|
      ensures i in TrimKept(h, k, n) <==> i !in TrimOut(h, k, n)
      ensures i < preserve || |h| <= i + 2 ==> i in TrimKept(h, k, n)
      ensures n == |RemovalOrder(h[k..])| && preserve <= i && i + 2 < |h| ==> i in TrimOut(h, k, n)
    {
      TrimSide(h, preserve, k, n, i);
    }
  }

  lemma RankOfOut(h: seq<Message>, k: nat, n: nat)
    requires k <= |h| && n <= |RemovalOrder(h[k..])|
    ensures var out := TrimOut(h, k, n);
            forall a, b :: 0 <= a < b < |out| ==> GoesBefore(h[out[a]], out[a], h[out[b]], out[b])
  {
    var body, ord, out := h[k..], RemovalOrder(h[k..]), TrimOut(h, k, n);
    OrderedByRole(body, Below(WindowSize(|body|)), ord, n);
    forall a, b | 0 <= a < b < |out| ensures GoesBefore(h[out[a]], out[a], h[out[b]], out[b]) {
      assert GoesBefore(body[ord[a]], ord[a], body[ord[b]], ord[b]);
      SameRank(h, k, ord[a], ord[b]);
    }
  }

  lemma RankOfPair(h: seq<Message>, k: nat, n: nat, i: nat, j: nat)
    requires k <= |h| && n <= |RemovalOrder(h[k..])| && k <= i && k <= j && j + 2 < |h|
    requires i - k in Gone(RemovalOrder(h[k..]), n) && j - k !in Gone(RemovalOrder(h[k..]), n)
    ensures i < |h| && GoesBefore(h[i], i, h[j], j)
  {
    var body, ord := h[k..], RemovalOrder(h[k..]);
    OrderedByRole(body, Below(WindowSize(|body|)), ord, n);
    assert j - k in Below(WindowSize(|body|));
    assert GoesBefore(body[i - k], i - k, body[j - k], j - k);
    SameRank(h, k, i - k, j - k);
  }

  lemma TrimRankOf(h: seq<Message>, preserve: int, k: nat, n: nat, i: nat, j: nat)
    requires k == HeadSize(h, preserve) && n <= |RemovalOrder(h[k..])|
    requires i in TrimOut(h, k, n) && j in TrimKept(h, k, n) && preserve <= j && j + 2 < |h|
    ensures i < |h| && GoesBefore(h[i], i, h[j], j)
  {
    OutIndex(h, k, n, i);
    KeptIndex(h, k, n, j);
    RankOfPair(h, k, n, i, j);
  }

  lemma TrimRank(h: seq<Message>, preserve: int, k: nat, n: nat)
    requires k == HeadSize(h, preserve) && n <= |RemovalOrder(h[k..])|
    ensures forall i: nat, j: nat ::
              i in TrimOut(h, k, n) && j in TrimKept(h, k, n) && preserve <= j && j + 2 < |h| ==>
                i < |h| && GoesBefore(h[i], i, h[j], j)
  {
    forall i: nat, j: nat | i in TrimOut(h, k, n) && j in TrimKept(h, k, n) && preserve <= j && j + 2 < |h|
      ensures i < |h| && GoesBefore(h[i], i, h[j], j)
    {
      TrimRankOf(h, preserve, k, n, i, j);
    }
  }

  /** What a trim does to a history, on its positions: the first `preserve` messages and the last two stay; of the
      others it removes, in order of role and age, as many as it takes and no more. */
  lemma TrimIs(h: seq<Message>, usable: nat, preserve: int, kept: seq<Message>, removed: seq<Message>)
    returns (at: seq<nat>, out: seq<nat>)
    requires Trims(h, usable, preserve, kept, removed)
    ensures Positions(at, |h|) && kept == Pick(h, at)
    ensures Indexes(|h|, out) && removed == Pick(h, out)
    ensures forall i: nat :: i < |h| ==> (i in at <==> i !in out)
    ensures forall i: nat :: i < |h| && (i < preserve || |h| <= i + 2) ==> i in at
    ensures forall a, b :: 0 <= a < b < |out| ==> GoesBefore(h[out[a]], out[a], h[out[b]], out[b])
    ensures forall i: nat, j: nat :: i in out && j in at && preserve <= j && j + 2 < |h| ==>
              i < |h| && GoesBefore(h[i], i, h[j], j)
    ensures Tokens(kept) <= usable || forall j: nat :: preserve <= j && j + 2 < |h| ==> j in out
    ensures |removed| > 0 ==> Tokens(kept) + MessageTokens(removed[|removed| - 1]) > usable
  {
    var k, n := HeadSize(h, preserve), |removed|;
    at, out := TrimKept(h, k, n), TrimOut(h, k, n);
    TrimPicks(h, usable, preserve, kept, removed, k);
    TrimSides(h, preserve, k, n);
    RankOfOut(h, k, n);
    TrimRank(h, preserve, k, n);
    TrimMeets(h, usable, preserve, kept, removed, k);
  }

  lemma TrimMeets(h: seq<Message>, usable: nat, preserve: int, kept: seq<Message>, removed: seq<Message>, k: nat)
    requires Trims(h, usable, preserve, kept, removed) && k == HeadSize(h, preserve)
    ensures Tokens(kept) <= usable || |removed| == |RemovalOrder(h[k..])|
    ensures |removed| > 0 ==> Tokens(kept) + MessageTokens(removed[|removed| - 1]) > usable
  {
    TrimBudget(h[..k], h[k..], RemovalOrder(h[k..]), |removed|, usable);
    if |removed| > 0 { TrimShort(h[..k], h[k..], RemovalOrder(h[k..]), |removed|, usable); }
  }
}
