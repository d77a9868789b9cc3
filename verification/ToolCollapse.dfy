/** The collapser of the provider adapter: answered tool chains become plain assistant text, all but the
    one at the very end of the history that the current turn is still working on. */
module ToolCollapse {
  import opened Messages
  import opened ToolHistory

  /** How the text of a collapsed chain is written from its caller and its results. */
  type Writer = (Message, seq<Message>) -> string

  function Summary(write: Writer, a: Message, results: seq<Message>): Message {
    TextMessage(Assistant, write(a, results))
  }

  /** Where the tail chain starts, if the history ends in a caller with `tool_calls` followed by results for
      all its calls. */
  function ActiveTail(ms: seq<Message>): Option<nat> {
    var o := Owner(ms, |ms|);
    if o < 0 || ms[o].role != Assistant || ms[o].toolCalls == [] || CallIds(ms[o]) == [] then None
    else if IdSet(CallIds(ms[o])) <= ResultIds(ms[o + 1..]) then Some(o)
    else None
  }

  /** Where the tail chain starts, or the end of the history. */
  function TailStart(ms: seq<Message>): (n: nat)
    ensures n <= |ms|
  {
    if ActiveTail(ms).Some? then ActiveTail(ms).value else |ms|
  }

  /** The shortest stretch of results at the front that completes the wanted ids, if nothing but wanted
      results is met on the way. */
  function Span(wanted: set<CallId>, run: seq<Message>, seen: set<CallId>): (n: Option<nat>)
    ensures n.Some? ==> n.value <= |run|
  {
    if wanted <= seen then Some(0)
    else if run != [] && IsTool(run[0]) && run[0].toolCallId in wanted then
      var n := Span(wanted, run[1..], seen + {run[0].toolCallId});
      if n.Some? then Some(1 + n.value) else None
    else None
  }

  /** The first `n` messages are wanted results and complete the wanted ids. */
  ghost predicate Spans(wanted: set<CallId>, run: seq<Message>, seen: set<CallId>, n: nat) {
    && n <= |run|
    && (forall i :: 0 <= i < n ==> IsTool(run[i]) && run[i].toolCallId in wanted)
    && wanted <= seen + ResultIds(run[..n])
  }

  lemma SpansStep(wanted: set<CallId>, run: seq<Message>, seen: set<CallId>, n: nat)
    requires 0 < n <= |run|
    ensures Spans(wanted, run, seen, n) <==>
              && IsTool(run[0]) && run[0].toolCallId in wanted
              && Spans(wanted, run[1..], seen + {run[0].toolCallId}, n - 1)
  {
    var rest := run[1..];
    assert run[..n] == [run[0]] + rest[..n - 1];
    assert ResultIds(run[..n]) == {run[0].toolCallId} + ResultIds(rest[..n - 1]);
    assert forall i :: 0 < i < n ==> run[i] == rest[i - 1];
  }

  /** `Span` is the shortest stretch of wanted results that completes the wanted ids, and absent only if there is
      none. */
  lemma {:induction false} SpanIsShortest(wanted: set<CallId>, run: seq<Message>, seen: set<CallId>, k: nat)
    ensures Span(wanted, run, seen).Some? ==> Spans(wanted, run, seen, Span(wanted, run, seen).value)
    ensures Spans(wanted, run, seen, k) ==> Span(wanted, run, seen).Some? && Span(wanted, run, seen).value <= k
    decreases |run|
  {
    assert ResultIds(run[..0]) == {};
    if !(wanted <= seen) && run != [] && IsTool(run[0]) && run[0].toolCallId in wanted {
      var seen' := seen + {run[0].toolCallId};
      SpanIsShortest(wanted, run[1..], seen', if k > 0 then k - 1 else 0);
      var n := Span(wanted, run[1..], seen');
      if n.Some? { SpansStep(wanted, run, seen, 1 + n.value); }
      if 0 < k <= |run| { SpansStep(wanted, run, seen, k); }
    } else if 0 < k <= |run| {
      SpansStep(wanted, run, seen, k);
    }
  }

  /** How many results complete the message at `i`, if it is a caller before the kept tail. */
  function Resolved(ms: seq<Message>, keep: nat, i: nat): (n: Option<nat>)
    requires i < |ms|
    ensures n.Some? ==> i + 1 + n.value <= |ms|
  {
    if i >= keep || !IsCaller(ms[i]) then None else Span(IdSet(CallIds(ms[i])), ms[i + 1..], {})
  }

  /** What to do at each index: nothing, or replace the message there and that many results after it. */
  type Decisions = nat -> Option<nat>

  function Decide(ms: seq<Message>, keep: nat): Decisions {
    (i: nat) => if i < |ms| then Resolved(ms, keep, i) else None
  }

  /** The collapsed history from index `i` on, under the given decisions. */
  function CollapseFrom(write: Writer, ms: seq<Message>, res: Decisions, i: nat): seq<Message>
    requires i <= |ms|
    decreases |ms| - i
  {
    if i == |ms| then []
    else if res(i).None? || i + 1 + res(i).value > |ms| then [ms[i]] + CollapseFrom(write, ms, res, i + 1)
    else
      [Summary(write, ms[i], ms[i + 1..i + 1 + res(i).value])] + CollapseFrom(write, ms, res, i + 1 + res(i).value)
  }

  /** The history with every resolved chain before the tail collapsed. */
  function Collapsed(write: Writer, ms: seq<Message>): seq<Message> {
    CollapseFrom(write, ms, Decide(ms, TailStart(ms)), 0)
  }

  // ---------------------------------------------------------------------------------------------
  // The collapser itself
  // ---------------------------------------------------------------------------------------------

  /** `_active_tail_tool_chain_start`. */
  method ActiveTailToolChainStart(ms: seq<Message>) returns (start: Option<nat>)
    ensures start == ActiveTail(ms)
  {
    var idx := |ms| - 1;
    while idx >= 0 && ms[idx].role == Tool
      invariant -1 <= idx < |ms|
      invariant Owner(ms, idx + 1) == Owner(ms, |ms|)
    {
      idx := idx - 1;
    }
    if idx < 0 { return None; }
    var candidate := ms[idx];
    if candidate.role != Assistant || candidate.toolCalls == [] { return None; }
    var expected := AssistantCallIds(candidate);
    if expected == [] { return None; }
    if IdSet(expected) <= ResultIds(ms[idx + 1..]) { return Some(idx); }
    return None;
  }

  /** `_collapse_resolved_tool_history`. */
  method CollapseResolvedToolHistory(write: Writer, ms: seq<Message>) returns (collapsed: seq<Message>)
    ensures collapsed == Collapsed(write, ms)
  {
    var keepFrom := ActiveTailToolChainStart(ms);
    var keep := if keepFrom.Some? then keepFrom.value else |ms|;
    collapsed := CollapseLoop(write, ms, keep, Decide(ms, keep));
  }

  method CollapseLoop(write: Writer, ms: seq<Message>, keep: nat, ghost res: Decisions)
    returns (collapsed: seq<Message>)
    requires res == Decide(ms, keep)
    ensures collapsed == CollapseFrom(write, ms, res, 0)
  {
    collapsed := [];
    var index := 0;
    ghost var start := index;
    while index < |ms|
      invariant index <= |ms|
      invariant collapsed + CollapseFrom(write, ms, res, index) == CollapseFrom(write, ms, res, start)
    {
      var resolved := ResolveAt(ms, keep, index);
      assert res(index) == resolved;
      var next := if resolved.None? then index + 1 else index + 1 + resolved.value;
      var piece := if resolved.None? then ms[index] else Summary(write, ms[index], ms[index + 1..next]);
      Associative(collapsed, [piece], CollapseFrom(write, ms, res, next));
      collapsed := collapsed + [piece];
      index := next;
    }
    EmptyRight(collapsed);
  }

  /** The decision at one message: how many results complete it, found by scanning forward until all are in or
      something else is met. */
  method ResolveAt(ms: seq<Message>, keep: nat, index: nat) returns (resolved: Option<nat>)
    requires index < |ms|
    ensures resolved == Resolved(ms, keep, index)
  {
    if index >= keep || ms[index].role != Assistant { return None; }
    var callIds := AssistantCallIds(ms[index]);
    if callIds == [] { return None; }
    resolved := ScanResults(ms, IdSet(callIds), index + 1);
  }

  method ScanResults(ms: seq<Message>, wanted: set<CallId>, start: nat) returns (found: Option<nat>)
    requires start <= |ms|
    ensures found == Span(wanted, ms[start..], {})
  {
    var seen: set<CallId> := {};
    var next := start;
    ghost var none := seen;
    while next < |ms| && ms[next].role == Tool && !(wanted <= seen)
      invariant start <= next <= |ms|
      invariant Span(wanted, ms[start..], none) == Shift(next - start, Span(wanted, ms[next..], seen))
    {
      assert ms[next..][1..] == ms[next + 1..];
      if ms[next].toolCallId !in wanted { break; }
      seen := seen + {ms[next].toolCallId};
      next := next + 1;
    }
    return if wanted <= seen then Some(next - start) else None;
  }

  function Shift(n: nat, m: Option<nat>): Option<nat> {
    if m.Some? then Some(n + m.value) else None
  }

  // ---------------------------------------------------------------------------------------------
  // What collapsing does to a sanitized history
  // ---------------------------------------------------------------------------------------------

  /** A chain that stays as it is when it is the last block. */
  predicate Live(b: Block) {
    b.Chain? && b.caller.toolCalls != []
  }

  function CollapseBlock(write: Writer, b: Block): Block {
    match b
    case Plain(_) => b
    case Chain(a, rs) => Plain(Summary(write, a, rs))
  }

  /** Every block becomes one plain message, except a live chain at the very end. */
  function CollapseBlocks(write: Writer, bs: seq<Block>): seq<Block> {
    if bs == [] then []
    else if |bs| == 1 && Live(bs[0]) then bs
    else [CollapseBlock(write, bs[0])] + CollapseBlocks(write, bs[1..])
  }

  /** How many messages come before the live chain at the end of the blocks, or all of them. */
  function HeadLength(bs: seq<Block>): nat {
    if bs == [] || (|bs| == 1 && Live(bs[0])) then 0 else |Render(bs[0])| + HeadLength(bs[1..])
  }

  lemma FlattenOne(b: Block)
    ensures Flatten([b]) == Render(b)
  {
    assert [b][1..] == [];
    EmptyRight(Render(b));
  }

  lemma TailOfPlain(pre: seq<Message>, m: Message)
    requires !IsTool(m) && !IsCaller(m)
    ensures ActiveTail(pre + [m]) == None
  {
    OwnerIs(pre + [m], |pre|, |pre| + 1);
  }

  lemma TailOfChain(pre: seq<Message>, a: Message, rs: seq<Message>)
    requires WellFormed(Chain(a, rs))
    ensures ActiveTail(pre + ([a] + rs)) == if a.toolCalls != [] then Some(|pre|) else None
  {
    var ms := pre + ([a] + rs);
    assert ms[|pre|] == a;
    assert ms[|pre| + 1..] == rs;
    assert forall j :: |pre| < j < |ms| ==> ms[j] == ms[|pre| + 1..][j - |pre| - 1];
    OwnerIs(ms, |pre|, |ms|);
  }

  lemma TailOfBlock(pre: seq<Message>, b: Block)
    requires WellFormed(b)
    ensures ActiveTail(pre + Render(b)) == if Live(b) then Some(|pre|) else None
  {
    match b
    case Plain(m) => TailOfPlain(pre, m);
    case Chain(a, rs) => TailOfChain(pre, a, rs);
  }

  /** The tail the collapser looks for is the live chain at the end. */
  lemma {:induction false} TailStartOfBlocks(pre: seq<Message>, bs: seq<Block>)
    requires AllWellFormed(bs) && bs != []
    ensures TailStart(pre + Flatten(bs)) == |pre| + HeadLength(bs)
    decreases |bs|
  {
    var b := bs[0];
    assert WellFormed(b);
    if |bs| == 1 {
      assert bs == [b];
      FlattenOne(b);
      TailOfBlock(pre, b);
      assert HeadLength(bs[1..]) == 0;
    } else {
      TailStartOfBlocks(pre + Render(b), bs[1..]);
      Associative(pre, Render(b), Flatten(bs[1..]));
    }
  }

  /** Results that answer, one each and nothing else, the wanted calls not seen yet. */
  ghost predicate Completes(wanted: set<CallId>, seen: set<CallId>, rs: seq<Message>) {
    && AllTools(rs)
    && (forall i :: 0 <= i < |rs| ==> rs[i].toolCallId in wanted && rs[i].toolCallId !in seen)
    && (forall i, j :: 0 <= i < j < |rs| ==> rs[i].toolCallId != rs[j].toolCallId)
    && wanted <= seen + ResultIds(rs)
  }

  lemma CompletesTail(wanted: set<CallId>, seen: set<CallId>, rs: seq<Message>)
    requires Completes(wanted, seen, rs) && rs != []
    ensures Completes(wanted, seen + {rs[0].toolCallId}, rs[1..])
  {
    assert rs == [rs[0]] + rs[1..];
    assert ResultIds(rs) <= {rs[0].toolCallId} + ResultIds(rs[1..]);
  }

  /** Scanning such results takes exactly them, whatever follows. */
  lemma {:induction false} SpanOfResults(wanted: set<CallId>, seen: set<CallId>, rs: seq<Message>, post: seq<Message>)
    requires Completes(wanted, seen, rs)
    ensures Span(wanted, rs + post, seen) == Some(|rs|)
    decreases |rs|
  {
    if rs == [] {
    } else {
      CompletesTail(wanted, seen, rs);
      SpanOfResults(wanted, seen + {rs[0].toolCallId}, rs[1..], post);
      assert (rs + post)[1..] == rs[1..] + post;
      assert rs[0].toolCallId in wanted;
    }
  }

  lemma ChainCompletes(a: Message, rs: seq<Message>)
    requires WellFormed(Chain(a, rs))
    ensures Completes(IdSet(CallIds(a)), {}, rs)
  {
    assert forall i :: 0 <= i < |rs| ==> rs[i] in rs;
  }

  /** A chain of the head, found at index `i`. */
  lemma ChainAt(ms: seq<Message>, keep: nat, i: nat, a: Message, rs: seq<Message>, post: seq<Message>)
    requires WellFormed(Chain(a, rs)) && i < keep && i <= |ms| && ms[i..] == [a] + rs + post
    ensures i + 1 + |rs| <= |ms|
    ensures ms[i] == a && ms[i + 1..i + 1 + |rs|] == rs && ms[i + 1 + |rs|..] == post
    ensures Resolved(ms, keep, i) == Some(|rs|)
  {
    ChainCompletes(a, rs);
    SpanOfResults(IdSet(CallIds(a)), {}, rs, post);
    ChainSlices(ms, i, a, rs, post);
  }

  lemma ChainSlices(ms: seq<Message>, i: nat, a: Message, rs: seq<Message>, post: seq<Message>)
    requires i <= |ms| && ms[i..] == [a] + rs + post
    ensures i + 1 + |rs| <= |ms| && ms[i] == a
    ensures ms[i + 1..] == rs + post
    ensures ms[i + 1..i + 1 + |rs|] == rs && ms[i + 1 + |rs|..] == post
  {
    var tail := ms[i..];
    assert |tail| == 1 + |rs| + |post|;
    assert ms[i] == tail[0];
    assert ms[i + 1..] == tail[1..];
    assert tail[1..] == rs + post;
    assert ms[i + 1..i + 1 + |rs|] == tail[1..1 + |rs|];
    assert ms[i + 1 + |rs|..] == tail[1 + |rs|..];
  }

  lemma PlainAt(ms: seq<Message>, keep: nat, i: nat, m: Message, post: seq<Message>)
    requires !IsCaller(m) && i <= |ms| && ms[i..] == [m] + post
    ensures i < |ms| && ms[i] == m && ms[i + 1..] == post
    ensures Resolved(ms, keep, i) == None
  {
    assert ms[i] == ms[i..][0];
    assert ms[i + 1..] == ms[i..][1..];
  }

  /** The decision and the messages at `i` are those of block `b`. */
  ghost predicate BlockDecided(res: Decisions, ms: seq<Message>, i: nat, b: Block) {
    && i + |Render(b)| <= |ms|
    && ms[i] == Render(b)[0]
    && res(i) == (if b.Plain? then None else Some(|b.results|))
    && (b.Chain? ==> ms[i + 1..i + 1 + |b.results|] == b.results)
  }

  lemma DecideBlock(res: Decisions, ms: seq<Message>, keep: nat, i: nat, b: Block, post: seq<Message>)
    requires WellFormed(b) && i < keep && i < |ms| && ms[i..] == Render(b) + post && res(i) == Resolved(ms, keep, i)
    ensures BlockDecided(res, ms, i, b)
    ensures ms[i + |Render(b)|..] == post
  {
    match b
    case Plain(m) => DecidePlain(res, ms, keep, i, m, post);
    case Chain(a, rs) => DecideChain(res, ms, keep, i, a, rs, post);
  }

  lemma DecidePlain(res: Decisions, ms: seq<Message>, keep: nat, i: nat, m: Message, post: seq<Message>)
    requires !IsCaller(m) && i < |ms| && ms[i..] == [m] + post && res(i) == Resolved(ms, keep, i)
    ensures BlockDecided(res, ms, i, Plain(m)) && ms[i + 1..] == post
  {
    PlainAt(ms, keep, i, m, post);
  }

  lemma DecideChain(res: Decisions, ms: seq<Message>, keep: nat, i: nat, a: Message, rs: seq<Message>,
                    post: seq<Message>)
    requires WellFormed(Chain(a, rs)) && i < keep && i < |ms| && ms[i..] == [a] + rs + post
    requires res(i) == Resolved(ms, keep, i)
    ensures BlockDecided(res, ms, i, Chain(a, rs)) && ms[i + 1 + |rs|..] == post
  {
    ChainAt(ms, keep, i, a, rs, post);
  }

  lemma DecideAt(ms: seq<Message>, keep: nat, res: Decisions, i: nat)
    requires res == Decide(ms, keep) && i < |ms|
    ensures res(i) == Resolved(ms, keep, i)
  {
  }

  lemma DecideTail(res: Decisions, ms: seq<Message>, keep: nat)
    requires res == Decide(ms, keep)
    ensures forall k :: keep <= k < |ms| ==> res(k).None?
  {
    forall k | keep <= k < |ms| ensures res(k).None? { assert Resolved(ms, keep, k).None?; }
  }

  /** One block of the head. */
  lemma CollapseBlockAt(write: Writer, ms: seq<Message>, res: Decisions, i: nat, b: Block, next: nat, out: seq<Message>)
    requires BlockDecided(res, ms, i, b)
    requires next == i + |Render(b)| && out == CollapseFrom(write, ms, res, next)
    ensures CollapseFrom(write, ms, res, i) == Render(CollapseBlock(write, b)) + out
  {
    match b
    case Plain(m) => CollapseAtNone(write, ms, res, i);
    case Chain(a, rs) => CollapseAtSome(write, ms, res, i, rs);
  }

  lemma CollapseAtNone(write: Writer, ms: seq<Message>, res: Decisions, i: nat)
    requires i < |ms| && res(i).None?
    ensures CollapseFrom(write, ms, res, i) == [ms[i]] + CollapseFrom(write, ms, res, i + 1)
  {
  }

  lemma CollapseAtSome(write: Writer, ms: seq<Message>, res: Decisions, i: nat, rs: seq<Message>)
    requires i + 1 + |rs| <= |ms| && res(i) == Some(|rs|) && ms[i + 1..i + 1 + |rs|] == rs
    ensures CollapseFrom(write, ms, res, i)
         == [Summary(write, ms[i], rs)] + CollapseFrom(write, ms, res, i + 1 + |rs|)
  {
  }

  /** The kept tail is copied. */
  lemma {:induction false} CollapseKept(write: Writer, ms: seq<Message>, res: Decisions, i: nat)
    requires i <= |ms| && forall k :: i <= k < |ms| ==> res(k).None?
    ensures CollapseFrom(write, ms, res, i) == ms[i..]
    decreases |ms| - i
  {
    if i < |ms| {
      CollapseKept(write, ms, res, i + 1);
      assert ms[i..] == [ms[i]] + ms[i + 1..];
    }
  }

  lemma FlattenFirst(b: Block, bs: seq<Block>)
    ensures Flatten([b] + bs) == Render(b) + Flatten(bs)
  {
    assert ([b] + bs)[1..] == bs;
  }

  /** Nothing is left but possibly a live chain. */
  predicate Ends(bs: seq<Block>) {
    bs == [] || (|bs| == 1 && Live(bs[0]))
  }

  lemma CollapsedStep(write: Writer, bs: seq<Block>, b: Block, rest: seq<Block>, out: seq<Message>)
    requires !Ends(bs) && b == bs[0] && rest == bs[1..] && out == Flatten(CollapseBlocks(write, rest))
    ensures Flatten(CollapseBlocks(write, bs)) == Render(CollapseBlock(write, b)) + out
  {
    FlattenFirst(CollapseBlock(write, b), CollapseBlocks(write, rest));
  }

  lemma DropFront<T>(ms: seq<T>, i: nat, front: seq<T>, back: seq<T>)
    requires i <= |ms| && ms[i..] == front + back
    ensures i + |front| <= |ms| && ms[i + |front|..] == back
  {
    assert |ms[i..]| == |front| + |back|;
    assert ms[i + |front|..] == ms[i..][|front|..];
  }

  lemma CollapseEnd(write: Writer, ms: seq<Message>, keep: nat, res: Decisions, i: nat, bs: seq<Block>)
    requires Ends(bs) && i <= |ms| && ms[i..] == Flatten(bs) && keep == i + HeadLength(bs)
    requires res == Decide(ms, keep)
    ensures CollapseFrom(write, ms, res, i) == Flatten(CollapseBlocks(write, bs))
  {
    DecideTail(res, ms, keep);
    CollapseKept(write, ms, res, i);
  }

  /** The blocks after the first are those of the messages after it. */
  lemma RestOfBlocks(ms: seq<Message>, keep: nat, i: nat, bs: seq<Block>, b: Block, rest: seq<Block>)
    returns (next: nat, post: seq<Message>)
    requires AllWellFormed(bs) && i <= |ms| && ms[i..] == Flatten(bs) && keep == i + HeadLength(bs)
    requires !Ends(bs) && b == bs[0] && rest == bs[1..]
    ensures next == i + |Render(b)| && i < next <= |ms|
    ensures post == Flatten(rest) && ms[i..] == Render(b) + post && ms[next..] == post
    ensures WellFormed(b) && AllWellFormed(rest) && keep == next + HeadLength(rest)
  {
    next := i + |Render(b)|;
    post := Flatten(rest);
    DropFront(ms, i, Render(b), post);
  }

  /** Collapsing the rest of a history collapses its blocks one by one. */
  lemma {:induction false} CollapseOfBlocks(write: Writer, ms: seq<Message>, keep: nat, res: Decisions, i: nat,
                                            bs: seq<Block>)
    requires AllWellFormed(bs) && i <= |ms| && ms[i..] == Flatten(bs) && keep == i + HeadLength(bs)
    requires res == Decide(ms, keep)
    ensures CollapseFrom(write, ms, res, i) == Flatten(CollapseBlocks(write, bs))
    decreases |bs|
  {
    if Ends(bs) {
      CollapseEnd(write, ms, keep, res, i, bs);
    } else {
      var b, rest := bs[0], bs[1..];
      var next, post := RestOfBlocks(ms, keep, i, bs, b, rest);
      CollapseOfBlocks(write, ms, keep, res, next, rest);
      DecideAt(ms, keep, res, i);
      var out := Flatten(CollapseBlocks(write, rest));
      DecideBlock(res, ms, keep, i, b, post);
      CollapseBlockAt(write, ms, res, i, b, next, out);
      CollapsedStep(write, bs, b, rest, out);
    }
  }

  /** Collapsing a sanitized history collapses it block by block. */
  lemma CollapsedBlockwise(write: Writer, bs: seq<Block>)
    requires AllWellFormed(bs)
    ensures Collapsed(write, Flatten(bs)) == Flatten(CollapseBlocks(write, bs))
  {
    var ms := Flatten(bs);
    TailStartIsHead(bs);
    CollapseDecided(write, ms, TailStart(ms), bs, Decide(ms, TailStart(ms)));
  }

  lemma TailStartIsHead(bs: seq<Block>)
    requires AllWellFormed(bs)
    ensures TailStart(Flatten(bs)) == HeadLength(bs)
  {
    if bs != [] {
      var none: seq<Message> := [];
      TailStartOfBlocks(none, bs);
      EmptyLeft(Flatten(bs));
    }
  }

  lemma CollapseDecided(write: Writer, ms: seq<Message>, keep: nat, bs: seq<Block>, res: Decisions)
    requires AllWellFormed(bs) && ms == Flatten(bs) && keep == HeadLength(bs)
    requires res == Decide(ms, keep)
    ensures CollapseFrom(write, ms, res, 0) == Flatten(CollapseBlocks(write, bs))
  {
    assert ms[0..] == ms;
    CollapseOfBlocks(write, ms, keep, res, 0, bs);
  }

  /** Plain blocks, then at most one live chain. */
  predicate Settled(bs: seq<Block>) {
    && AllWellFormed(bs)
    && forall i :: 0 <= i < |bs| ==> bs[i].Plain? || (i == |bs| - 1 && Live(bs[i]))
  }

  lemma {:induction false} CollapseSettles(write: Writer, bs: seq<Block>)
    requires AllWellFormed(bs)
    ensures Settled(CollapseBlocks(write, bs))
  {
    if bs == [] || (|bs| == 1 && Live(bs[0])) {
    } else {
      CollapseSettles(write, bs[1..]);
      assert WellFormed(bs[0]);
      assert WellFormed(CollapseBlock(write, bs[0]));
    }
  }

  lemma {:induction false} SettledIsFixed(write: Writer, bs: seq<Block>)
    requires Settled(bs)
    ensures CollapseBlocks(write, bs) == bs
  {
    if bs == [] || (|bs| == 1 && Live(bs[0])) {
    } else {
      assert bs[0].Plain?;
      SettledIsFixed(write, bs[1..]);
    }
  }

  /** The history handed to a provider: sanitized, then collapsed. */
  function Prepared(write: Writer, ms: seq<Message>): seq<Message> {
    Collapsed(write, Sanitized(ms))
  }

  /** Preparing a history keeps its plain messages in order, rewrites every answered chain into one text and
      leaves the last one alone if it is live. */
  lemma PreparedBlocks(write: Writer, ms: seq<Message>)
    ensures Prepared(write, ms) == Flatten(CollapseBlocks(write, Blocks(ms)))
    ensures Settled(CollapseBlocks(write, Blocks(ms)))
  {
    BlocksWellFormed(ms);
    CollapsedBlockwise(write, Blocks(ms));
    CollapseSettles(write, Blocks(ms));
  }

  /** Preparing rewrites block by block.  A plain message stays; the last block stays if it is a chain whose
      caller carries tool calls; every other chain becomes an assistant message without any calls, whose text is
      written from the chain's caller and all of its results. */
  lemma {:induction false} CollapsedAt(write: Writer, bs: seq<Block>, i: nat)
    requires i < |bs|
    ensures |CollapseBlocks(write, bs)| == |bs|
    ensures bs[i].Plain? ==> CollapseBlocks(write, bs)[i] == bs[i]
    ensures bs[i].Chain? && i == |bs| - 1 && |bs[i].caller.toolCalls| > 0 ==> CollapseBlocks(write, bs)[i] == bs[i]
    ensures bs[i].Chain? && !(i == |bs| - 1 && |bs[i].caller.toolCalls| > 0) ==>
              CollapseBlocks(write, bs)[i]
              == Plain(Message(Assistant, write(bs[i].caller, bs[i].results), [], "", [], "", NoId, false))
    decreases |bs|
  {
    if i > 0 {
      CollapsedAt(write, bs[1..], i - 1);
    } else if |bs| > 1 {
      CollapsedAt(write, bs[1..], 0);
    }
  }

  /** Preparing twice is preparing once. */
  lemma PreparedIdempotent(write: Writer, ms: seq<Message>)
    ensures Sanitized(Prepared(write, ms)) == Prepared(write, ms)
    ensures Collapsed(write, Prepared(write, ms)) == Prepared(write, ms)
    ensures Prepared(write, Prepared(write, ms)) == Prepared(write, ms)
  {
    PreparedBlocks(write, ms);
    var bs := CollapseBlocks(write, Blocks(ms));
    BlocksOfFlatten(bs);
    CollapsedBlockwise(write, bs);
    SettledIsFixed(write, bs);
  }

  /** What a prepared history looks like: no trace of the tool protocol before its tail, and the tail, if
      any, is one caller followed by an answer to each of its calls and nothing else. */
  ghost predicate CleanUpTo(out: seq<Message>, k: nat) {
    && k <= |out|
    && (forall i :: 0 <= i < k ==> !IsTool(out[i]) && !IsCaller(out[i]))
    && (k < |out| ==> WellFormed(Chain(out[k], out[k + 1..])))
  }

  lemma PreparedShape(write: Writer, ms: seq<Message>)
    ensures CleanUpTo(Prepared(write, ms), TailStart(Prepared(write, ms)))
  {
    PreparedBlocks(write, ms);
    EmptyLeft(Prepared(write, ms));
    SettledShape([], CollapseBlocks(write, Blocks(ms)));
  }

  lemma {:induction false} SettledShape(pre: seq<Message>, bs: seq<Block>)
    requires Settled(bs)
    requires forall i :: 0 <= i < |pre| ==> !IsTool(pre[i]) && !IsCaller(pre[i])
    ensures CleanUpTo(pre + Flatten(bs), TailStart(pre + Flatten(bs)))
    decreases |bs|
  {
    if bs == [] {
      EmptyRight(pre);
      PlainTail(pre);
    } else {
      var b := bs[0];
      assert WellFormed(b);
      if b.Plain? {
        Associative(pre, Render(b), Flatten(bs[1..]));
        SettledShape(pre + Render(b), bs[1..]);
      } else {
        assert bs == [b];
        FlattenOne(b);
        TailOfChain(pre, b.caller, b.results);
        JoinedShape(pre, b.caller, b.results);
      }
    }
  }

  lemma PlainTail(ms: seq<Message>)
    requires forall i :: 0 <= i < |ms| ==> !IsTool(ms[i]) && !IsCaller(ms[i])
    ensures ActiveTail(ms) == None
  {
  }

  lemma JoinedShape(pre: seq<Message>, a: Message, rs: seq<Message>)
    requires forall i :: 0 <= i < |pre| ==> !IsTool(pre[i]) && !IsCaller(pre[i])
    requires WellFormed(Chain(a, rs))
    ensures CleanUpTo(pre + ([a] + rs), |pre|)
  {
    assert (pre + ([a] + rs))[|pre|] == a;
    assert (pre + ([a] + rs))[|pre| + 1..] == rs;
  }
}
