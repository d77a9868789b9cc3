/** What a context plan contains, on the positions of the history it is made from. */
module PlanContents {
  import opened Messages
  import opened Subsequence
  import opened Selection
  import opened ContextPlan
  import opened HistoryTrim

  // ---------------------------------------------------------------------------------------------
  // The two sides of a history
  // ---------------------------------------------------------------------------------------------

  /** The system messages, or the others, are those of the history in their places. */
  lemma {:induction false} SideIs(history: seq<Message>, system: bool) returns (at: seq<nat>)
    ensures Positions(at, |history|) && Side(history, system) == Pick(history, at)
    ensures forall i: nat :: i in at <==> i < |history| && (history[i].role == System) == system
  {
    at := [];
    if |history| > 0 {
      var init, last := history[..|history| - 1], history[|history| - 1];
      at := SideIs(init, system);
      assert history == init + [last];
      PickMore(init, [last], at);
      PickSnoc(init, last, at);
      if (last.role == System) == system { at := at + [|init|]; }
    }
  }

  lemma {:induction false} SidesAddUp(history: seq<Message>)
    ensures Tokens(Side(history, true)) + Tokens(Side(history, false)) == Tokens(history)
  {
    if |history| > 0 {
      var init, last := history[..|history| - 1], history[|history| - 1];
      SidesAddUp(init);
      assert history == init + [last];
      TokensSnoc(init, last);
      TokensSnoc(Side(init, last.role == System), last);
    }
  }

  /** The messages after position `i` that are not system messages. */
  function Later(history: seq<Message>, i: nat): (later: set<nat>)
    ensures forall j :: j in later <==> i < j < |history| && history[j].role != System
  {
    set j | i < j < |history| && history[j].role != System
  }

  /** The message asks for a call that no message of the history, system messages aside, has answered. */
  predicate Unanswered(history: seq<Message>, m: Message) {
    exists c :: 0 <= c < |m.toolCalls| && m.toolCalls[c] != NoId
                && forall j :: 0 <= j < |history| && history[j].role != System ==>
                     history[j].toolCallId != m.toolCalls[c]
  }

  lemma MembersTail(at: seq<nat>, a: nat)
    requires Increasing(at) && a < |at|
    ensures |Members(at[a + 1..])| == |at| - a - 1
    ensures forall x :: x in Members(at[a + 1..]) <==> x in at && x > at[a]
  {
    var tail := at[a + 1..];
    assert Distinct(tail);
    MembersSize(tail);
    forall x | x in at && x > at[a] ensures x in Members(tail) {
      var b :| 0 <= b < |at| && at[b] == x;
      assert tail[b - a - 1] == x;
    }
    forall x | x in Members(tail) ensures x in at && x > at[a] {
      var b :| 0 <= b < |tail| && tail[b] == x;
      assert at[a + 1 + b] == x;
    }
  }

  /** How many messages follow, read off the positions of the messages that are not system messages. */
  lemma LaterCount(history: seq<Message>, at: seq<nat>, a: nat)
    requires Positions(at, |history|) && a < |at|
    requires forall i: nat :: i in at <==> i < |history| && history[i].role != System
    ensures |Later(history, at[a])| == |at| - a - 1
  {
    MembersTail(at, a);
    assert Members(at[a + 1..]) == Later(history, at[a]);
  }

  // ---------------------------------------------------------------------------------------------
  // The drop order, on the messages' own fields
  // ---------------------------------------------------------------------------------------------

  lemma PendingIff(h: seq<Message>, id: CallId)
    ensures id in PendingIds(h)
            <==> id != NoId && (exists i :: 0 <= i < |h| && id in h[i].toolCalls)
                 && forall i :: 0 <= i < |h| ==> h[i].toolCallId != id
  {
    if i :| 0 <= i < |h| && id in h[i].toolCalls { assert h[i] in h; }
    if m :| m in h && id in m.toolCalls { var i :| 0 <= i < |h| && h[i] == m; }
    if id != NoId && id in ResolvedIds(h) {
      var m :| m in h && m.toolCallId == id;
      var i :| 0 <= i < |h| && h[i] == m;
    }
    forall i | 0 <= i < |h| && h[i].toolCallId == id && id != NoId ensures id in ResolvedIds(h) {
      assert h[i] in h;
    }
  }

  lemma AsksIff(history: seq<Message>, h: seq<Message>, at: seq<nat>, a: nat)
    requires Positions(at, |history|) && h == Pick(history, at) && a < |h|
    requires forall i: nat :: i in at <==> i < |history| && history[i].role != System
    ensures Asks(h[a], PendingIds(h)) <==> Unanswered(history, h[a])
  {
    var m := h[a];
    forall c | 0 <= c < |m.toolCalls|
      ensures m.toolCalls[c] in PendingIds(h)
              <==> m.toolCalls[c] != NoId
                   && forall j :: 0 <= j < |history| && history[j].role != System ==>
                        history[j].toolCallId != m.toolCalls[c]
    {
      PendingIff(h, m.toolCalls[c]);
      NoAnswer(history, h, at, m.toolCalls[c]);
    }
  }

  lemma NoAnswer(history: seq<Message>, h: seq<Message>, at: seq<nat>, id: CallId)
    requires Positions(at, |history|) && h == Pick(history, at)
    requires forall i: nat :: i in at <==> i < |history| && history[i].role != System
    ensures (forall i :: 0 <= i < |h| ==> h[i].toolCallId != id)
            <==> forall j :: 0 <= j < |history| && history[j].role != System ==> history[j].toolCallId != id
  {
    forall j: nat | j < |history| && history[j].role != System
      ensures exists a :: 0 <= a < |h| && h[a] == history[j]
    {
      assert j in at;
      var a :| 0 <= a < |at| && at[a] == j;
      assert h[a] == history[j];
    }
    forall a | 0 <= a < |h| ensures history[at[a]].role != System && h[a] == history[at[a]] {
      assert at[a] in at;
    }
  }

  /** What may be dropped: older messages without an unanswered call, and, if no older message asks for one,
      recent tool traffic without one. */
  lemma DropOrderIff(h: seq<Message>, recent: nat, i: nat)
    ensures i in DropOrder(h, recent)
            <==> i < |h| && !Asks(h[i], PendingIds(h))
                 && (|| i + recent < |h|
                     || ((h[i].role == Tool || |h[i].toolCalls| > 0)
                         && forall j: nat :: j + recent < |h| ==> !Asks(h[j], PendingIds(h))))
  {
    var a, b, m := OlderOrder(h, recent), RecentOrder(h, recent), OlderCount(|h|, recent);
    assert Members(a) == OlderCandidates(h, recent) && Members(b) == RecentCandidates(h, recent);
    assert i in a <==> i in Members(a);
    assert i in b <==> i in Members(b);
    AllOlderIff(h, recent);
    if OlderCandidates(h, recent) == Below(m) {
      assert DropOrder(h, recent) == a + b;
    }
  }

  lemma AllOlderIff(h: seq<Message>, recent: nat)
    ensures OlderCandidates(h, recent) == Below(OlderCount(|h|, recent))
            <==> forall j: nat :: j + recent < |h| ==> !Asks(h[j], PendingIds(h))
  {
    var m := OlderCount(|h|, recent);
    forall j: nat | OlderCandidates(h, recent) == Below(m) && j + recent < |h| ensures !Asks(h[j], PendingIds(h)) {
      assert j in Below(m);
    }
  }

  lemma OlderGone(h: seq<Message>, recent: nat, k: nat, j: nat)
    requires k <= |DropOrder(h, recent)| && j in OlderOrder(h, recent)
    ensures |OlderOrder(h, recent)| <= k ==> j in Gone(DropOrder(h, recent), k)
  {
    var a, ord := OlderOrder(h, recent), DropOrder(h, recent);
    if |a| <= k {
      var b :| 0 <= b < |a| && a[b] == j;
      assert ord[..k][b] == j;
    }
  }

  /** An older message that may be dropped and is kept was preceded by all that was dropped. */
  lemma OlderRank(h: seq<Message>, recent: nat, k: nat, i: nat, j: nat)
    requires k <= |DropOrder(h, recent)| && i in Gone(DropOrder(h, recent), k) && j !in Gone(DropOrder(h, recent), k)
    requires j + recent < |h| && !Asks(h[j], PendingIds(h))
    ensures i < |h| && GoesBefore(h[i], i, h[j], j)
  {
    var a := OlderOrder(h, recent);
    assert j in OlderCandidates(h, recent);
    assert j in Members(a);
    OlderGone(h, recent, k, j);
    GoneOlder(h, recent, k);
    OrderedByRole(h, OlderCandidates(h, recent), a, k);
  }

  // ---------------------------------------------------------------------------------------------
  // The plan
  // ---------------------------------------------------------------------------------------------

  /** The positions a selection keeps, those it drops, and where the messages it selects from stand. */
  ghost predicate Selects(history: seq<Message>, others: seq<nat>, recent: nat, k: nat, at: seq<nat>, out: seq<nat>) {
    var h := Side(history, false);
    && Positions(others, |history|) && h == Pick(history, others)
    && (forall i: nat :: i in others <==> i < |history| && history[i].role != System)
    && k <= |DropOrder(h, recent)|
    && at == Pick(others, Left(|h|, Gone(DropOrder(h, recent), k)))
    && out == Pick(others, DropOrder(h, recent)[..k])
  }

  lemma PickMembers(others: seq<nat>, idx: seq<nat>, a: nat)
    requires Increasing(others) && a < |others| && forall i :: 0 <= i < |idx| ==> idx[i] < |others|
    ensures others[a] in Pick(others, idx) <==> a in idx
  {
    if a in idx {
      var i :| 0 <= i < |idx| && idx[i] == a;
      assert Pick(others, idx)[i] == others[a];
    }
    if others[a] in Pick(others, idx) {
      var i :| 0 <= i < |idx| && Pick(others, idx)[i] == others[a];
      IncreasingDistinct(others, idx[i], a);
    }
  }

  /** A position of the selection, from a position of the history. */
  lemma IndexOfPosition(history: seq<Message>, others: seq<nat>, recent: nat, k: nat, at: seq<nat>, out: seq<nat>,
                        i: nat) returns (a: nat)
    requires Selects(history, others, recent, k, at, out) && i in others
    ensures a < |others| && others[a] == i && Side(history, false)[a] == history[i]
    ensures i in at <==> a !in Gone(DropOrder(Side(history, false), recent), k)
    ensures i in out <==> a in Gone(DropOrder(Side(history, false), recent), k)
    ensures |Later(history, i)| == |others| - a - 1
    ensures Asks(Side(history, false)[a], PendingIds(Side(history, false))) <==> Unanswered(history, history[i])
  {
    var h, ord := Side(history, false), DropOrder(Side(history, false), recent);
    a :| 0 <= a < |others| && others[a] == i;
    PickMembers(others, Left(|h|, Gone(ord, k)), a);
    PickMembers(others, ord[..k], a);
    LaterCount(history, others, a);
    AsksIff(history, h, others, a);
  }

  lemma PickedFrom(others: seq<nat>, idx: seq<nat>, i: nat)
    requires forall x :: 0 <= x < |idx| ==> idx[x] < |others|
    ensures i in Pick(others, idx) ==> i in others
  {
    if i in Pick(others, idx) {
      var x :| 0 <= x < |idx| && Pick(others, idx)[x] == i;
      assert others[idx[x]] == i;
    }
  }

  lemma SelectedFrom(history: seq<Message>, others: seq<nat>, recent: nat, k: nat, at: seq<nat>, out: seq<nat>, i: nat)
    requires Selects(history, others, recent, k, at, out)
    ensures i in at || i in out ==> i in others
    ensures i in others ==> (i in at <==> i !in out)
  {
    var h, ord := Side(history, false), DropOrder(Side(history, false), recent);
    PickedFrom(others, Left(|h|, Gone(ord, k)), i);
    PickedFrom(others, ord[..k], i);
    if i in others { var a := IndexOfPosition(history, others, recent, k, at, out, i); }
  }

  /** What is kept in any case. */
  lemma SelectionKeeps(history: seq<Message>, others: seq<nat>, recent: nat, k: nat, at: seq<nat>, out: seq<nat>,
                       i: nat)
    requires Selects(history, others, recent, k, at, out) && i in others
    requires || Unanswered(history, history[i])
             || (history[i].role != Tool && |history[i].toolCalls| == 0 && |Later(history, i)| < recent)
    ensures i in at
  {
    var h, ord := Side(history, false), DropOrder(Side(history, false), recent);
    var a := IndexOfPosition(history, others, recent, k, at, out, i);
    DropOrderIff(h, recent, a);
    assert a in Gone(ord, k) ==> a in ord;
  }

  lemma SameOrder(others: seq<nat>, m: Message, a: nat, n: Message, b: nat)
    requires Increasing(others) && a < |others| && b < |others|
    ensures GoesBefore(m, a, n, b) <==> GoesBefore(m, others[a], n, others[b])
  {
    assert a < b ==> others[a] < others[b];
    assert b < a ==> others[b] < others[a];
  }

  /** In which order the older messages go. */
  lemma SelectionRanks(history: seq<Message>, others: seq<nat>, recent: nat, k: nat, at: seq<nat>, out: seq<nat>,
                       i: nat, j: nat)
    requires Selects(history, others, recent, k, at, out) && i in out && j in at
    requires |Later(history, j)| >= recent && j < |history| && !Unanswered(history, history[j])
    ensures i < |history| && GoesBefore(history[i], i, history[j], j)
  {
    var h := Side(history, false);
    SelectedFrom(history, others, recent, k, at, out, i);
    SelectedFrom(history, others, recent, k, at, out, j);
    var a := IndexOfPosition(history, others, recent, k, at, out, i);
    var b := IndexOfPosition(history, others, recent, k, at, out, j);
    OlderRank(h, recent, k, a, b);
    SameOrder(others, h[a], a, h[b], b);
  }

  lemma FlatRank(n: nat, candidates: set<nat>, ord: seq<nat>, k: nat, i: nat, j: nat)
    requires StableOrder(Flat(n), candidates, ord) && k <= |ord|
    requires i in Gone(ord, k) && j in candidates && j !in Gone(ord, k)
    ensures i < j
  {
    var x :| 0 <= x < k && ord[x] == i;
    assert j in Members(ord);
    var y :| 0 <= y < |ord| && ord[y] == j;
    forall c | 0 <= c < k ensures ord[c] in Gone(ord, k) { assert ord[..k][c] == ord[c]; }
    assert Before(Flat(n), ord[x], ord[y]);
  }

  lemma RecentPart(h: seq<Message>, recent: nat, k: nat, i: nat)
    requires k <= |DropOrder(h, recent)| && i in Gone(DropOrder(h, recent), k) && |h| <= i + recent
    ensures |OlderOrder(h, recent)| <= k && OlderCandidates(h, recent) == Below(OlderCount(|h|, recent))
  {
    var a, ord := OlderOrder(h, recent), DropOrder(h, recent);
    var x :| 0 <= x < k && ord[x] == i;
    forall c | 0 <= c < |a| ensures a[c] < OlderCount(|h|, recent) { assert a[c] in Members(a); }
    assert forall c :: 0 <= c < |a| ==> ord[c] == a[c];
  }

  lemma RecentRank(h: seq<Message>, recent: nat, k: nat, i: nat, j: nat)
    requires k <= |DropOrder(h, recent)| && i in Gone(DropOrder(h, recent), k) && j !in Gone(DropOrder(h, recent), k)
    requires |h| <= i + recent && |h| <= j + recent && j < |h| && !Asks(h[j], PendingIds(h)) && ToolTraffic(h[j])
    ensures i < j
  {
    RecentPart(h, recent, k, i);
    GoneRecent(h, recent, k);
    FlatRank(|h|, RecentCandidates(h, recent), RecentOrder(h, recent), k - |OlderOrder(h, recent)|, i, j);
  }

  lemma SelectionAges(history: seq<Message>, others: seq<nat>, recent: nat, k: nat, at: seq<nat>, out: seq<nat>,
                      i: nat, j: nat)
    requires Selects(history, others, recent, k, at, out) && i in out && j in at
    requires |Later(history, i)| < recent && |Later(history, j)| < recent && j < |history|
    requires !Unanswered(history, history[j]) && (history[j].role == Tool || |history[j].toolCalls| > 0)
    ensures i < j
  {
    var h := Side(history, false);
    SelectedFrom(history, others, recent, k, at, out, i);
    SelectedFrom(history, others, recent, k, at, out, j);
    var a := IndexOfPosition(history, others, recent, k, at, out, i);
    var b := IndexOfPosition(history, others, recent, k, at, out, j);
    RecentRank(h, recent, k, a, b);
  }

  /** What is left when nothing more can be dropped. */
  lemma SelectionExhausted(history: seq<Message>, others: seq<nat>, recent: nat, k: nat, at: seq<nat>, out: seq<nat>,
                           i: nat)
    requires Selects(history, others, recent, k, at, out) && k == |DropOrder(Side(history, false), recent)|
    requires i in at && i < |history|
    ensures |Later(history, i)| >= recent ==> Unanswered(history, history[i])
    ensures (history[i].role == Tool || |history[i].toolCalls| > 0) && !Unanswered(history, history[i]) ==>
              exists j: nat :: j in at && j < |history| && |Later(history, j)| >= recent
                               && Unanswered(history, history[j])
  {
    var h, ord := Side(history, false), DropOrder(Side(history, false), recent);
    SelectedFrom(history, others, recent, k, at, out, i);
    var a := IndexOfPosition(history, others, recent, k, at, out, i);
    assert ord[..k] == ord;
    DropOrderIff(h, recent, a);
    if (history[i].role == Tool || |history[i].toolCalls| > 0) && !Unanswered(history, history[i]) {
      var b: nat :| b + recent < |h| && Asks(h[b], PendingIds(h));
      assert others[b] in others;
      var b' := IndexOfPosition(history, others, recent, k, at, out, others[b]);
      IncreasingDistinct(others, b, b');
      DropOrderIff(h, recent, b);
    }
  }

  lemma SelectionPicks(history: seq<Message>, others: seq<nat>, recent: nat, k: nat, at: seq<nat>, out: seq<nat>)
    requires Selects(history, others, recent, k, at, out)
    ensures Positions(at, |history|)
    ensures After(Side(history, false), DropOrder(Side(history, false), recent), k) == Pick(history, at)
  {
    PickPick(history, others, Left(|Side(history, false)|, Gone(DropOrder(Side(history, false), recent), k)));
  }

  lemma SelectionDrops(history: seq<Message>, others: seq<nat>, recent: nat, k: nat, at: seq<nat>, out: seq<nat>)
    requires Selects(history, others, recent, k, at, out)
    ensures Indexes(|history|, out)
    ensures Pick(Side(history, false), DropOrder(Side(history, false), recent)[..k]) == Pick(history, out)
  {
    DistinctPicks(history, others, DropOrder(Side(history, false), recent)[..k]);
  }

  lemma DistinctPicks<T>(s: seq<T>, at: seq<nat>, idx: seq<nat>)
    requires Positions(at, |s|) && Indexes(|at|, idx)
    ensures Indexes(|s|, Pick(at, idx)) && Pick(Pick(s, at), idx) == Pick(s, Pick(at, idx))
  {
    var out := Pick(at, idx);
    forall x, y | 0 <= x < y < |out| ensures out[x] != out[y] {
      IncreasingDistinct(at, idx[x], idx[y]);
    }
  }

  /** An older message that asks for no unanswered call. */
  predicate MayGo(history: seq<Message>, i: nat, recent: nat) {
    i < |history| && |Later(history, i)| >= recent && !Unanswered(history, history[i])
  }

  /** Recent tool traffic that asks for no unanswered call. */
  predicate MayGoLate(history: seq<Message>, i: nat, recent: nat) {
    && i < |history| && |Later(history, i)| < recent && !Unanswered(history, history[i])
    && (history[i].role == Tool || |history[i].toolCalls| > 0)
  }

  /** An older message that asks for an unanswered call. */
  predicate HeldBack(history: seq<Message>, i: nat, recent: nat) {
    i < |history| && |Later(history, i)| >= recent && Unanswered(history, history[i])
  }

  /** A recent message that is no tool traffic. */
  predicate RecentTalk(history: seq<Message>, i: nat, recent: nat) {
    && i < |history| && history[i].role != System && |Later(history, i)| < recent
    && history[i].role != Tool && |history[i].toolCalls| == 0
  }

  lemma PlanBudget(history: seq<Message>, layers: seq<Message>, current: seq<Message>, target: nat, recent: nat,
                   messages: seq<Message>, dropped: seq<Message>)
    requires Plans(history, layers, current, target, recent, messages, dropped)
    ensures Tokens(messages) <= target || |dropped| == |DropOrder(Side(history, false), recent)|
    ensures |dropped| > 0 ==> Tokens(messages) + MessageTokens(dropped[|dropped| - 1]) > target
    ensures Tokens(history) + Tokens(layers) + Tokens(current) <= target ==> |dropped| == 0
  {
    var h, ord, before := Side(history, false), DropOrder(Side(history, false), recent), Side(history, true) + layers;
    var n := |dropped|;
    ComposedTokens(before, After(h, ord, n), current);
    if n > 0 {
      assert !Fits(Around(before, current), h, ord, n - 1, target);
      AfterStep(h, ord, n - 1);
      NothingDropped(history, layers, current, h, ord);
      assert !Fits(Around(before, current), h, ord, 0, target);
    }
  }

  lemma NothingDropped(history: seq<Message>, layers: seq<Message>, current: seq<Message>,
                       h: seq<Message>, ord: seq<nat>)
    requires h == Side(history, false)
    ensures Around(Side(history, true) + layers, current) + Tokens(After(h, ord, 0))
         == Tokens(history) + Tokens(layers) + Tokens(current)
  {
    KeptAll(h, Gone(ord, 0));
    SidesAddUp(history);
    TokensAppend(Side(history, true), layers);
  }

  /** What a context plan contains.  It is made of the system messages in their places, the layers, the selected
      other messages in their places, and the current turn.  Kept in any case are messages asking for an unanswered
      call and, among the last `recent` messages that are not system messages, those that are no tool traffic.  Of
      the older ones that may be dropped, none goes before another that comes first by role and age.  As many are
      dropped as it takes and no more; if that is not enough, nothing more could be dropped. */
  lemma PlanIs(history: seq<Message>, layers: seq<Message>, current: seq<Message>, target: nat, recent: nat,
               messages: seq<Message>, dropped: seq<Message>)
    returns (system: seq<nat>, at: seq<nat>, out: seq<nat>)
    requires Plans(history, layers, current, target, recent, messages, dropped)
    ensures Positions(system, |history|) && Positions(at, |history|) && Indexes(|history|, out)
    ensures messages == Pick(history, system) + layers + Pick(history, at) + current
    ensures dropped == Pick(history, out)
    ensures forall i: nat :: i in system <==> i < |history| && history[i].role == System
    ensures forall i: nat :: i in at || i in out <==> i < |history| && history[i].role != System
    ensures forall i: nat :: i in at ==> i !in out
    ensures forall i: nat :: i < |history| && history[i].role != System && Unanswered(history, history[i]) ==> i in at
    ensures forall i: nat :: i < |history| && RecentTalk(history, i, recent) ==> i in at
    ensures forall i: nat, j: nat :: i in out && j in at && MayGo(history, j, recent) ==>
              i < |history| && GoesBefore(history[i], i, history[j], j)
    ensures forall i: nat, j: nat ::
              i in out && j in at && MayGoLate(history, i, recent) && MayGoLate(history, j, recent) ==> i < j
    ensures |dropped| > 0 ==> Tokens(messages) + MessageTokens(dropped[|dropped| - 1]) > target
    ensures Tokens(history) + Tokens(layers) + Tokens(current) <= target ==> |out| == 0
    ensures Tokens(messages) > target ==> forall i: nat :: i in at ==> !MayGo(history, i, recent)
    ensures Tokens(messages) > target ==>
              forall i: nat :: i in at && MayGoLate(history, i, recent) ==>
                exists j: nat :: j in at && HeldBack(history, j, recent)
  {
    system := SideIs(history, true);
    var others := SideIs(history, false);
    var h, ord, k := Side(history, false), DropOrder(Side(history, false), recent), |dropped|;
    at, out := Pick(others, Left(|h|, Gone(ord, k))), Pick(others, ord[..k]);
    SelectionPicks(history, others, recent, k, at, out);
    SelectionDrops(history, others, recent, k, at, out);
    PlanBudget(history, layers, current, target, recent, messages, dropped);
    forall i: nat ensures i in at || i in out ==> i in others ensures i in others ==> (i in at <==> i !in out) {
      SelectedFrom(history, others, recent, k, at, out, i);
    }
    forall i: nat | i in others && (Unanswered(history, history[i]) || RecentTalk(history, i, recent))
      ensures i in at
    {
      SelectionKeeps(history, others, recent, k, at, out, i);
    }
    forall i: nat, j: nat | i in out && j in at && MayGo(history, j, recent)
      ensures i < |history| && GoesBefore(history[i], i, history[j], j)
    {
      SelectionRanks(history, others, recent, k, at, out, i, j);
    }
    forall i: nat, j: nat | i in out && j in at && MayGoLate(history, i, recent) && MayGoLate(history, j, recent)
      ensures i < j
    {
      SelectionAges(history, others, recent, k, at, out, i, j);
    }
    forall i: nat | k == |ord| && i in at
      ensures !MayGo(history, i, recent)
      ensures MayGoLate(history, i, recent) ==> exists j: nat :: j in at && HeldBack(history, j, recent)
    {
      SelectionExhausted(history, others, recent, k, at, out, i);
    }
  }
}
