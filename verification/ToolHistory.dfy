/** The tool-protocol history transformations of the provider adapter: the one-pass sanitizer that
    drops unanswered tool calls, and the collapser that turns answered chains into plain text. */
module ToolHistory {
  import opened Messages
  import opened Subsequence

  // ---------------------------------------------------------------------------------------------
  // Blocks: what a tool-protocol history is made of
  // ---------------------------------------------------------------------------------------------

  /** A history is a sequence of plain messages and of callers followed by their results. */
  datatype Block = Plain(message: Message) | Chain(caller: Message, results: seq<Message>)

  function Render(b: Block): seq<Message> {
    match b
    case Plain(m) => [m]
    case Chain(a, rs) => [a] + rs
  }

  function Flatten(bs: seq<Block>): seq<Message> {
    if bs == [] then [] else Render(bs[0]) + Flatten(bs[1..])
  }

  /** The call ids answered by a run of tool messages. */
  function ResultIds(run: seq<Message>): set<CallId> {
    set m | m in run :: m.toolCallId
  }

  predicate AllTools(run: seq<Message>) {
    forall i :: 0 <= i < |run| ==> IsTool(run[i])
  }

  /** Pairwise distinct calls, every one of them answered. */
  predicate Complete(ids: seq<CallId>, run: seq<Message>) {
    Distinct(ids) && forall id :: id in ids ==> id in ResultIds(run)
  }

  /** A block that breaks no rule of the protocol: plain messages belong to no chain, and a chain answers
      each of its pairwise distinct calls exactly once and nothing else. */
  predicate WellFormed(b: Block) {
    match b
    case Plain(m) => !IsTool(m) && !IsCaller(m)
    case Chain(a, rs) =>
      && IsCaller(a) && AllTools(rs) && Complete(CallIds(a), rs)
      && (forall m :: m in rs ==> m.toolCallId in CallIds(a))
      && (forall i, j :: 0 <= i < j < |rs| ==> rs[i].toolCallId != rs[j].toolCallId)
  }

  predicate AllWellFormed(bs: seq<Block>) {
    forall i :: 0 <= i < |bs| ==> WellFormed(bs[i])
  }

  lemma {:induction false} FlattenAppend(a: seq<Block>, b: seq<Block>)
    ensures Flatten(a + b) == Flatten(a) + Flatten(b)
  {
    if a == [] {
      assert a + b == b;
    } else {
      assert (a + b)[1..] == a[1..] + b;
      FlattenAppend(a[1..], b);
    }
  }

  lemma Associative<T>(a: seq<T>, b: seq<T>, c: seq<T>)
    ensures (a + b) + c == a + (b + c)
  {
  }

  lemma EmptyLeft<T>(a: seq<T>)
    ensures [] + a == a
  {
  }

  lemma EmptyRight<T>(a: seq<T>)
    ensures a + [] == a
  {
  }

  // ---------------------------------------------------------------------------------------------
  // The sanitizer, specified by groups
  // ---------------------------------------------------------------------------------------------

  /** The length of the maximal run of tool messages at the front. */
  function ToolRun(ms: seq<Message>): (n: nat)
    ensures n <= |ms| && AllTools(ms[..n]) && (n < |ms| ==> !IsTool(ms[n]))
  {
    if ms == [] || !IsTool(ms[0]) then 0
    else
      var n := ToolRun(ms[1..]);
      assert ms[..n + 1] == [ms[0]] + ms[1..][..n];
      n + 1
  }

  /** The first result for each of the wanted ids, in order. */
  function Firsts(ids: seq<CallId>, run: seq<Message>): seq<Message> {
    if run == [] then []
    else
      var init := run[..|run| - 1];
      var last := run[|run| - 1];
      if last.toolCallId in ids && last.toolCallId !in ResultIds(init)
      then Firsts(ids, init) + [last]
      else Firsts(ids, init)
  }

  /** The blocks the sanitizer keeps of a history. */
  function Blocks(ms: seq<Message>): seq<Block>
    decreases |ms|
  {
    if ms == [] then []
    else if IsTool(ms[0]) then Blocks(ms[1..])
    else if IsCaller(ms[0]) then
      var n := ToolRun(ms[1..]);
      Opening(ms[0], ms[1..][..n]) + Blocks(ms[1..][n..])
    else [Plain(ms[0])] + Blocks(ms[1..])
  }

  function Sanitized(ms: seq<Message>): seq<Message> {
    Flatten(Blocks(ms))
  }

  // Facts about runs.

  lemma {:induction false} ToolRunIs(ms: seq<Message>, n: nat)
    requires n <= |ms| && AllTools(ms[..n]) && (n < |ms| ==> !IsTool(ms[n]))
    ensures ToolRun(ms) == n
  {
    var k := ToolRun(ms);
    assert forall i :: 0 <= i < n ==> ms[..n][i] == ms[i];
    assert forall i :: 0 <= i < k ==> ms[..k][i] == ms[i];
  }

  /** What the first results of a run are: answers to the wanted ids, one per id, covering exactly those
      wanted ids that the run answers. */
  lemma {:induction false} FirstsProperties(ids: seq<CallId>, run: seq<Message>)
    ensures forall m :: m in Firsts(ids, run) ==> m in run && m.toolCallId in ids
    ensures forall i, j :: 0 <= i < j < |Firsts(ids, run)| ==>
              Firsts(ids, run)[i].toolCallId != Firsts(ids, run)[j].toolCallId
    ensures forall id :: id in ResultIds(Firsts(ids, run)) <==> id in ids && id in ResultIds(run)
  {
    if run != [] {
      var init := run[..|run| - 1];
      var last := run[|run| - 1];
      assert run == init + [last];
      FirstsProperties(ids, init);
      assert ResultIds(run) == ResultIds(init) + {last.toolCallId};
      var f := Firsts(ids, init);
      assert ResultIds(f + [last]) == ResultIds(f) + {last.toolCallId};
      forall i | 0 <= i < |f| ensures f[i].toolCallId in ResultIds(f) {
        assert f[i] in f;
      }
    }
  }

  /** Once every wanted id is answered, later results change nothing. */
  lemma {:induction false} FirstsSaturate(ids: seq<CallId>, run: seq<Message>, n: nat)
    requires n <= |run|
    requires forall id :: id in ids ==> id in ResultIds(run[..n])
    ensures Firsts(ids, run) == Firsts(ids, run[..n])
    decreases |run|
  {
    if n < |run| {
      var init := run[..|run| - 1];
      assert init[..n] == run[..n];
      FirstsSaturate(ids, init, n);
      assert ResultIds(run[..n]) <= ResultIds(init) by {
        forall m | m in run[..n] ensures m in init { }
      }
    } else {
      assert run[..n] == run;
    }
  }

  /** A run that already holds one result per wanted id is its own list of first results. */
  lemma {:induction false} FirstsIdentity(ids: seq<CallId>, run: seq<Message>)
    requires forall m :: m in run ==> m.toolCallId in ids
    requires forall i, j :: 0 <= i < j < |run| ==> run[i].toolCallId != run[j].toolCallId
    ensures Firsts(ids, run) == run
  {
    if run != [] {
      var init := run[..|run| - 1];
      FirstsIdentity(ids, init);
      assert run == init + [run[|run| - 1]];
      assert run[|run| - 1] in run;
    }
  }

  lemma OpeningWellFormed(a: Message, run: seq<Message>)
    requires IsCaller(a) && AllTools(run)
    ensures AllWellFormed(Opening(a, run))
  {
    FirstsProperties(CallIds(a), run);
  }

  lemma {:induction false} BlocksWellFormed(ms: seq<Message>)
    ensures AllWellFormed(Blocks(ms))
    decreases |ms|
  {
    if ms == [] {
    } else if IsTool(ms[0]) {
      BlocksWellFormed(ms[1..]);
    } else if IsCaller(ms[0]) {
      var n := ToolRun(ms[1..]);
      BlocksWellFormed(ms[1..][n..]);
      OpeningWellFormed(ms[0], ms[1..][..n]);
    } else {
      BlocksWellFormed(ms[1..]);
    }
  }

  /** A leading run of tool messages belongs to no caller and disappears. */
  lemma {:induction false} SkipTools(ms: seq<Message>, n: nat)
    requires n <= |ms| && AllTools(ms[..n])
    ensures Blocks(ms) == Blocks(ms[n..])
  {
    if n == 0 {
      assert ms[0..] == ms;
    } else {
      assert ms[..n][0] == ms[0];
      assert ms[1..][..n - 1] == ms[..n][1..];
      SkipTools(ms[1..], n - 1);
      assert ms[1..][n - 1..] == ms[n..];
    }
  }

  /** The block, if any, that a caller and its run of tool messages make. */
  function Opening(a: Message, run: seq<Message>): seq<Block> {
    if Complete(CallIds(a), run) then [Chain(a, Firsts(CallIds(a), run))] else []
  }

  /** One group: a caller, its whole run of tool messages, and what follows. */
  lemma {:induction false} BlocksOfGroup(a: Message, run: seq<Message>, rest: seq<Message>)
    requires IsCaller(a) && AllTools(run)
    requires rest == [] || !IsTool(rest[0])
    ensures Blocks([a] + run + rest) == Opening(a, run) + Blocks(rest)
  {
    var ms := [a] + run + rest;
    assert ms[1..] == run + rest;
    assert (run + rest)[..|run|] == run && (run + rest)[|run|..] == rest;
    ToolRunIs(ms[1..], |run|);
  }

  /** The group a caller opens at the front of a history. */
  function GroupRun(ms: seq<Message>): (run: seq<Message>)
    requires ms != []
    ensures AllTools(run) && |run| < |ms|
    ensures ms == [ms[0]] + run + ms[1 + |run|..]
    ensures 1 + |run| == |ms| || !IsTool(ms[1 + |run|])
  {
    ms[1..][..ToolRun(ms[1..])]
  }

  /** Sanitizing is local: a history that starts a new group is sanitized on its own. */
  lemma {:induction false} BlocksAppend(h: seq<Message>, rest: seq<Message>)
    requires rest == [] || !IsTool(rest[0])
    ensures Blocks(h + rest) == Blocks(h) + Blocks(rest)
    decreases |h|, 1
  {
    if h == [] {
      assert h + rest == rest;
    } else if IsCaller(h[0]) {
      BlocksAppendGroup(h[0], GroupRun(h), h[1 + |GroupRun(h)|..], rest);
    } else {
      assert (h + rest)[1..] == h[1..] + rest;
      BlocksAppend(h[1..], rest);
    }
  }

  lemma {:induction false} BlocksAppendGroup(a: Message, run: seq<Message>, tail: seq<Message>, rest: seq<Message>)
    requires IsCaller(a) && AllTools(run)
    requires rest == [] || !IsTool(rest[0])
    requires tail == [] || !IsTool(tail[0])
    ensures Blocks([a] + run + tail + rest) == Blocks([a] + run + tail) + Blocks(rest)
    decreases 1 + |run| + |tail|, 0
  {
    BlocksAppend(tail, rest);
    BlocksOfGroup(a, run, tail);
    BlocksOfGroup(a, run, tail + rest);
    Associative([a] + run, tail, rest);
    Associative(Opening(a, run), Blocks(tail), Blocks(rest));
  }

  /** Parsing what was rendered from well-formed blocks gives the blocks back. */
  lemma {:induction false} BlocksOfFlatten(bs: seq<Block>)
    requires AllWellFormed(bs)
    ensures Blocks(Flatten(bs)) == bs
  {
    if bs != [] {
      assert bs[0] in bs;
      BlocksOfFlatten(bs[1..]);
      FlattenStart(bs[1..]);
      match bs[0]
      case Plain(m) =>
        assert ([m] + Flatten(bs[1..]))[1..] == Flatten(bs[1..]);
      case Chain(a, rs) =>
        BlocksOfGroup(a, rs, Flatten(bs[1..]));
        FirstsIdentity(CallIds(a), rs);
    }
  }

  lemma FlattenStart(bs: seq<Block>)
    requires AllWellFormed(bs)
    ensures Flatten(bs) == [] || !IsTool(Flatten(bs)[0])
  {
    if bs != [] { assert WellFormed(bs[0]); }
  }

  /** Sanitizing twice is sanitizing once. */
  lemma SanitizeIdempotent(ms: seq<Message>)
    ensures Sanitized(Sanitized(ms)) == Sanitized(ms)
  {
    BlocksWellFormed(ms);
    BlocksOfFlatten(Blocks(ms));
  }

  // ---------------------------------------------------------------------------------------------
  // The sanitizer, specified by index
  // ---------------------------------------------------------------------------------------------

  /** The last message before `i` that is not a tool message, or -1. */
  function Owner(ms: seq<Message>, i: nat): (o: int)
    requires i <= |ms|
    ensures -1 <= o < i
    ensures o >= 0 ==> !IsTool(ms[o])
    ensures forall j :: o < j < i ==> IsTool(ms[j])
  {
    if i == 0 then -1 else if IsTool(ms[i - 1]) then Owner(ms, i - 1) else i - 1
  }

  /** Where the run of tool messages starting at `i` ends. */
  function RunEnd(ms: seq<Message>, i: nat): (e: nat)
    requires i <= |ms|
    ensures i <= e <= |ms|
    ensures forall j :: i <= j < e ==> IsTool(ms[j])
    ensures e < |ms| ==> !IsTool(ms[e])
    decreases |ms| - i
  {
    if i < |ms| && IsTool(ms[i]) then RunEnd(ms, i + 1) else i
  }

  /** The caller at `a` survives: its ids are pairwise distinct and the run of tool messages right after it
      answers every one of them. */
  ghost predicate Survives(ms: seq<Message>, a: nat)
    requires a < |ms|
  {
    && IsCaller(ms[a])
    && Distinct(CallIds(ms[a]))
    && forall id :: id in CallIds(ms[a]) ==> AnsweredBefore(ms, a, RunEnd(ms, a + 1), id)
  }

  /** Some message strictly between `a` and `e` answers the call `id`. */
  ghost predicate AnsweredBefore(ms: seq<Message>, a: nat, e: nat, id: CallId)
    requires a < e <= |ms|
  {
    exists j :: a < j < e && ms[j].toolCallId == id
  }

  /** The message at `i` is kept: a caller that survives, the first result for one of the ids of the
      surviving caller it follows, or any message that is neither a result nor a caller. */
  ghost predicate Kept(ms: seq<Message>, i: nat)
    requires i < |ms|
  {
    if IsTool(ms[i]) then
      var o := Owner(ms, i);
      o >= 0 && Survives(ms, o) && ms[i].toolCallId in CallIds(ms[o]) && !AnsweredBefore(ms, o, i, ms[i].toolCallId)
    else IsCaller(ms[i]) ==> Survives(ms, i)
  }

  /** The kept messages among those from `lo` up to `hi`, in their original order. */
  ghost function KeptRange(ms: seq<Message>, lo: nat, hi: nat): seq<Message>
    requires lo <= hi <= |ms|
  {
    if lo == hi then [] else KeptRange(ms, lo, hi - 1) + KeptAt(ms, hi - 1)
  }

  lemma {:induction false} KeptSplit(ms: seq<Message>, lo: nat, mid: nat, hi: nat)
    requires lo <= mid <= hi <= |ms|
    ensures KeptRange(ms, lo, hi) == KeptRange(ms, lo, mid) + KeptRange(ms, mid, hi)
  {
    if mid < hi {
      KeptSplit(ms, lo, mid, hi - 1);
      Associative(KeptRange(ms, lo, mid), KeptRange(ms, mid, hi - 1), KeptAt(ms, hi - 1));
    } else {
      EmptyRight(KeptRange(ms, lo, mid));
    }
  }

  ghost function KeptAt(ms: seq<Message>, i: nat): seq<Message>
    requires i < |ms|
  {
    if Kept(ms, i) then [ms[i]] else []
  }

  lemma AnsweredIffResult(ms: seq<Message>, a: nat, e: nat, id: CallId)
    requires a < e <= |ms|
    ensures AnsweredBefore(ms, a, e, id) <==> id in ResultIds(ms[a + 1..e])
  {
    var run := ms[a + 1..e];
    forall j | a < j < e ensures ms[j] in run { assert run[j - a - 1] == ms[j]; }
    if id in ResultIds(run) {
      var k :| 0 <= k < |run| && run[k].toolCallId == id;
      assert ms[a + 1 + k].toolCallId == id;
    }
  }

  lemma SurvivesIffComplete(ms: seq<Message>, a: nat)
    requires a < |ms| && IsCaller(ms[a])
    ensures Survives(ms, a) <==> Complete(CallIds(ms[a]), ms[a + 1..RunEnd(ms, a + 1)])
  {
    var e := RunEnd(ms, a + 1);
    forall id ensures AnsweredBefore(ms, a, e, id) <==> id in ResultIds(ms[a + 1..e]) {
      AnsweredIffResult(ms, a, e, id);
    }
  }

  lemma OwnerIs(ms: seq<Message>, o: nat, i: nat)
    requires o < i <= |ms| && !IsTool(ms[o]) && forall j :: o < j < i ==> IsTool(ms[j])
    ensures Owner(ms, i) == o
  {
  }

  /** The results a caller at `a` keeps among the messages before `e`. */
  ghost function ResultsBefore(ms: seq<Message>, a: nat, e: nat): seq<Message>
    requires a < e <= |ms|
  {
    if Survives(ms, a) then Firsts(CallIds(ms[a]), ms[a + 1..e]) else []
  }

  lemma NoResultsYet(ms: seq<Message>, a: nat)
    requires a < |ms|
    ensures ResultsBefore(ms, a, a + 1) == []
  {
    assert ms[a + 1..a + 1] == [];
  }

  /** A message in the run after a caller is kept iff the caller survives and this is the first result for
      one of its ids. */
  lemma KeptResult(ms: seq<Message>, a: nat, e: nat)
    requires a < e < |ms| && IsCaller(ms[a]) && forall j :: a < j <= e ==> IsTool(ms[j])
    ensures Kept(ms, e) <==>
              && Survives(ms, a)
              && ms[e].toolCallId in CallIds(ms[a])
              && ms[e].toolCallId !in ResultIds(ms[a + 1..e])
  {
    OwnerIs(ms, a, e);
    AnsweredIffResult(ms, a, e, ms[e].toolCallId);
  }

  lemma ResultsStep(ms: seq<Message>, a: nat, e: nat)
    requires a < e < |ms| && IsCaller(ms[a]) && forall j :: a < j <= e ==> IsTool(ms[j])
    ensures ResultsBefore(ms, a, e + 1) == ResultsBefore(ms, a, e) + KeptAt(ms, e)
  {
    var run := ms[a + 1..e + 1];
    assert run[..|run| - 1] == ms[a + 1..e] && run[|run| - 1] == ms[e];
    KeptResult(ms, a, e);
  }

  /** Anything that starts empty and grows by the kept message at each index is the kept range. */
  lemma {:induction false} KeptRangeIs(ms: seq<Message>, lo: nat, hi: nat, f: nat -> seq<Message>)
    requires lo <= hi <= |ms|
    requires f(lo) == []
    requires forall e :: lo <= e < hi ==> f(e + 1) == f(e) + KeptAt(ms, e)
    ensures KeptRange(ms, lo, hi) == f(hi)
  {
    if lo < hi {
      KeptRangeIs(ms, lo, hi - 1, f);
      assert f(hi - 1 + 1) == f(hi - 1) + KeptAt(ms, hi - 1);
    }
  }

  lemma ResultsGrow(ms: seq<Message>, a: nat, hi: nat, f: nat -> seq<Message>)
    requires a < hi <= |ms| && IsCaller(ms[a]) && forall j :: a < j < hi ==> IsTool(ms[j])
    requires forall e: nat :: a < e <= |ms| ==> f(e) == ResultsBefore(ms, a, e)
    ensures f(a + 1) == []
    ensures forall e :: a + 1 <= e < hi ==> f(e + 1) == f(e) + KeptAt(ms, e)
  {
    NoResultsYet(ms, a);
    forall e | a + 1 <= e < hi ensures f(e + 1) == f(e) + KeptAt(ms, e) {
      ResultsStep(ms, a, e);
    }
  }

  /** Inside the run after a caller, what is kept are the caller's first results, if it survives. */
  lemma KeptInRun(ms: seq<Message>, a: nat, hi: nat)
    requires a < hi <= |ms| && IsCaller(ms[a]) && forall j :: a < j < hi ==> IsTool(ms[j])
    ensures KeptRange(ms, a + 1, hi) == ResultsBefore(ms, a, hi)
  {
    var f := (e: nat) => if a < e <= |ms| then ResultsBefore(ms, a, e) else [];
    ResultsGrow(ms, a, hi, f);
    KeptRangeIs(ms, a + 1, hi, f);
  }

  /** The whole group of the caller at `a`. */
  lemma KeptGroup(ms: seq<Message>, a: nat)
    requires a < |ms| && IsCaller(ms[a])
    ensures KeptRange(ms, a, RunEnd(ms, a + 1)) == Flatten(Opening(ms[a], ms[a + 1..RunEnd(ms, a + 1)]))
  {
    var e := RunEnd(ms, a + 1);
    SurvivesIffComplete(ms, a);
    KeptInRun(ms, a, e);
    KeptSplit(ms, a, a + 1, e);
    KeptOne(ms, a);
    FlattenOpening(ms[a], ms[a + 1..e]);
  }

  lemma KeptOne(ms: seq<Message>, i: nat)
    requires i < |ms|
    ensures KeptRange(ms, i, i + 1) == KeptAt(ms, i)
  {
    EmptyLeft(KeptAt(ms, i));
  }

  lemma FlattenOpening(a: Message, run: seq<Message>)
    ensures Flatten(Opening(a, run)) == if Complete(CallIds(a), run) then [a] + Firsts(CallIds(a), run) else []
  {
    if Complete(CallIds(a), run) {
      var b := Chain(a, Firsts(CallIds(a), run));
      assert [b][1..] == [];
      assert Render(b) + Flatten([]) == Render(b);
    }
  }

  lemma BlocksGroupAt(ms: seq<Message>, a: nat)
    requires a < |ms| && IsCaller(ms[a])
    ensures Blocks(ms[a..]) == Opening(ms[a], ms[a + 1..RunEnd(ms, a + 1)]) + Blocks(ms[RunEnd(ms, a + 1)..])
  {
    var e := RunEnd(ms, a + 1);
    BlocksOfGroup(ms[a], ms[a + 1..e], ms[e..]);
    GroupSlices(ms, a, e);
  }

  lemma GroupSlices<T>(ms: seq<T>, a: nat, e: nat)
    requires a < e <= |ms|
    ensures ms[a..] == [ms[a]] + ms[a + 1..e] + ms[e..]
  {
  }

  /** The group-wise specification and the index-wise one agree from every index at which no open chain
      reaches across. */
  lemma {:induction false} SanitizedFrom(ms: seq<Message>, i: nat)
    requires i <= |ms|
    requires i == |ms| || !IsTool(ms[i]) || Owner(ms, i) < 0 || !IsCaller(ms[Owner(ms, i)])
    ensures Flatten(Blocks(ms[i..])) == KeptRange(ms, i, |ms|)
    decreases |ms| - i
  {
    if i == |ms| {
    } else if IsCaller(ms[i]) {
      var e := RunEnd(ms, i + 1);
      SanitizedFrom(ms, e);
      BlocksGroupAt(ms, i);
      KeptGroup(ms, i);
      KeptSplit(ms, i, e, |ms|);
      FlattenAppend(Opening(ms[i], ms[i + 1..e]), Blocks(ms[e..]));
    } else {
      assert ms[i..][1..] == ms[i + 1..];
      SanitizedFrom(ms, i + 1);
      KeptSplit(ms, i, i + 1, |ms|);
      KeptOne(ms, i);
    }
  }

  /** The sanitizer keeps exactly the messages the index-wise specification keeps, in order. */
  lemma SanitizedIsKept(ms: seq<Message>)
    ensures Sanitized(ms) == KeptRange(ms, 0, |ms|)
  {
    assert ms[0..] == ms;
    SanitizedFrom(ms, 0);
  }

  // ---------------------------------------------------------------------------------------------
  // The sanitizer itself: one pass over the list, holding back one caller at a time
  // ---------------------------------------------------------------------------------------------

  /** The entries of a history that are messages at all. */
  function MessagesOf(entries: seq<Option<Message>>): seq<Message> {
    if entries == [] then []
    else if entries[0].Some? then [entries[0].value] + MessagesOf(entries[1..])
    else MessagesOf(entries[1..])
  }

  /** The messages at some entries of a list. */
  function Values(entries: seq<Option<Message>>, at: seq<nat>): (ms: seq<Message>)
    requires forall k :: 0 <= k < |at| ==> at[k] < |entries| && entries[at[k]].Some?
    ensures |ms| == |at| && forall k :: 0 <= k < |ms| ==> entries[at[k]] == Some(ms[k])
  {
    seq(|at|, k requires 0 <= k < |at| => entries[at[k]].value)
  }

  function Shift(at: seq<nat>): (r: seq<nat>)
    ensures |r| == |at| && forall k :: 0 <= k < |at| ==> r[k] == at[k] + 1
  {
    seq(|at|, k requires 0 <= k < |at| => at[k] + 1)
  }

  lemma ShiftMembers(at: seq<nat>)
    ensures forall i: nat :: i in Shift(at) <==> i > 0 && i - 1 in at
  {
    forall i: nat | i > 0 && i - 1 in at ensures i in Shift(at) {
      var k :| 0 <= k < |at| && at[k] == i - 1;
      assert Shift(at)[k] == i;
    }
    forall i: nat | i in Shift(at) ensures i > 0 && i - 1 in at {
      var k :| 0 <= k < |at| && Shift(at)[k] == i;
      assert at[k] == i - 1;
    }
  }

  /** The messages of a list of entries are the values of exactly those entries that are messages, in order. */
  lemma {:induction false} MessagesOfAre(entries: seq<Option<Message>>) returns (at: seq<nat>)
    ensures Positions(at, |entries|)
    ensures forall i: nat :: i in at <==> i < |entries| && entries[i].Some?
    ensures forall k :: 0 <= k < |at| ==> entries[at[k]].Some?
    ensures MessagesOf(entries) == Values(entries, at)
  {
    at := [];
    if |entries| > 0 {
      var rest := MessagesOfAre(entries[1..]);
      at := MoreAt(entries, rest);
      MoreAtMembers(entries, entries[1..], rest);
      MoreValues(entries, entries[1..], rest, at);
    }
  }

  /** The positions of the values of a list, from those of its tail. */
  function MoreAt(entries: seq<Option<Message>>, rest: seq<nat>): seq<nat>
    requires |entries| > 0
  {
    if entries[0].Some? then [0] + Shift(rest) else Shift(rest)
  }

  lemma MoreAtMembers(entries: seq<Option<Message>>, tail: seq<Option<Message>>, rest: seq<nat>)
    requires |entries| > 0 && tail == entries[1..]
    requires forall i: nat :: i in rest <==> i < |tail| && tail[i].Some?
    ensures forall i: nat :: i in MoreAt(entries, rest) <==> i < |entries| && entries[i].Some?
  {
    ShiftMembers(rest);
    forall i: nat ensures i in MoreAt(entries, rest) <==> i < |entries| && entries[i].Some? {
      if i > 0 {
        assert i < |entries| ==> entries[i] == tail[i - 1];
        assert i in MoreAt(entries, rest) <==> i in Shift(rest);
      }
    }
  }

  lemma MovedValues(entries: seq<Option<Message>>, tail: seq<Option<Message>>, rest: seq<nat>)
    requires |entries| > 0 && tail == entries[1..] && Positions(rest, |tail|)
    requires forall k :: 0 <= k < |rest| ==> tail[rest[k]].Some?
    ensures Positions(Shift(rest), |entries|)
    ensures forall k :: 0 <= k < |rest| ==> entries[Shift(rest)[k]].Some?
    ensures Values(entries, Shift(rest)) == Values(tail, rest)
  {
    assert forall k :: 0 <= k < |rest| ==> entries[Shift(rest)[k]] == tail[rest[k]];
  }

  lemma HeadValue(entries: seq<Option<Message>>, moved: seq<nat>, at: seq<nat>)
    requires |entries| > 0 && entries[0].Some? && Positions(moved, |entries|) && at == [0] + moved
    requires forall k :: 0 <= k < |moved| ==> moved[k] > 0 && entries[moved[k]].Some?
    ensures Positions(at, |entries|) && forall k :: 0 <= k < |at| ==> entries[at[k]].Some?
    ensures Values(entries, at) == [entries[0].value] + Values(entries, moved)
  {
  }

  lemma MoreValues(entries: seq<Option<Message>>, tail: seq<Option<Message>>, rest: seq<nat>, at: seq<nat>)
    requires |entries| > 0 && tail == entries[1..] && Positions(rest, |tail|) && at == MoreAt(entries, rest)
    requires forall k :: 0 <= k < |rest| ==> tail[rest[k]].Some?
    ensures Positions(at, |entries|)
    ensures forall k :: 0 <= k < |at| ==> entries[at[k]].Some?
    ensures Values(entries, at)
         == if entries[0].Some? then [entries[0].value] + Values(tail, rest) else Values(tail, rest)
  {
    MovedValues(entries, tail, rest);
    if entries[0].Some? { HeadValue(entries, Shift(rest), at); }
  }

  lemma AllValues(entries: seq<Option<Message>>, ms: seq<Message>)
    requires |entries| == |ms| && forall i :: 0 <= i < |ms| ==> entries[i] == Some(ms[i])
    ensures MessagesOf(entries) == ms
    decreases |entries|
  {
    if entries != [] { AllValues(entries[1..], ms[1..]); }
  }

  function IdSet(ids: seq<CallId>): set<CallId> {
    set id | id in ids
  }

  /** A list has as many distinct elements as entries iff its entries are pairwise distinct. */
  lemma {:induction false} IdSetSize(ids: seq<CallId>)
    ensures |IdSet(ids)| <= |ids|
    ensures |IdSet(ids)| == |ids| <==> Distinct(ids)
  {
    if ids != [] {
      var init, last := ids[..|ids| - 1], ids[|ids| - 1];
      IdSetSize(init);
      assert ids == init + [last];
      assert IdSet(ids) == IdSet(init) + {last};
      if last in init {
        var i :| 0 <= i < |init| && init[i] == last;
        assert ids[i] == ids[|ids| - 1];
      } else {
        assert last !in IdSet(init);
      }
    }
  }

  lemma SubsetSize<T>(a: set<T>, b: set<T>)
    requires a <= b
    ensures |a| <= |b| && (|a| == |b| <==> a == b)
  {
    assert b == a + (b - a);
    assert |b| == |a| + |b - a|;
    if |a| == |b| { assert b - a == {}; }
  }

  /** Counting the answered ids against the list of wanted ids decides completeness. */
  lemma CountDecidesComplete(ids: seq<CallId>, run: seq<Message>, seen: set<CallId>)
    requires seen == IdSet(ids) * ResultIds(run)
    ensures |seen| == |ids| <==> Complete(ids, run)
  {
    IdSetSize(ids);
    SubsetSize(seen, IdSet(ids));
    assert seen == IdSet(ids) <==> forall id :: id in ids ==> id in ResultIds(run) by {
      assert forall id :: id in ids <==> id in IdSet(ids);
    }
  }

  /** Once the held-back caller is answered, its chain is settled whatever follows. */
  lemma CompletedGroup(a: Message, run: seq<Message>, rest: seq<Message>)
    requires IsCaller(a) && AllTools(run) && Complete(CallIds(a), run)
    ensures Sanitized([a] + run + rest) == [a] + Firsts(CallIds(a), run) + Sanitized(rest)
  {
    var n := ToolRun(rest);
    var more, tail := rest[..n], rest[n..];
    var all := run + more;
    Regroup(a, run, more, tail, rest);
    BlocksOfGroup(a, all, tail);
    SkipTools(rest, n);
    assert all[..|run|] == run;
    FirstsSaturate(CallIds(a), all, |run|);
    CompleteGrows(CallIds(a), run, more);
    FlattenOpening(a, all);
    FlattenAppend(Opening(a, all), Blocks(tail));
  }

  lemma Regroup(a: Message, run: seq<Message>, more: seq<Message>, tail: seq<Message>, rest: seq<Message>)
    requires rest == more + tail
    ensures [a] + run + rest == [a] + (run + more) + tail
  {
  }

  lemma CompleteGrows(ids: seq<CallId>, run: seq<Message>, more: seq<Message>)
    requires Complete(ids, run)
    ensures Complete(ids, run + more)
  {
    assert forall m :: m in run ==> m in run + more;
  }

  /** A held-back caller that is not answered vanishes with its results. */
  lemma AbandonedGroup(a: Message, run: seq<Message>, rest: seq<Message>)
    requires IsCaller(a) && AllTools(run) && !Complete(CallIds(a), run)
    requires rest == [] || !IsTool(rest[0])
    ensures Sanitized([a] + run + rest) == Sanitized(rest)
  {
    BlocksOfGroup(a, run, rest);
    EmptyLeft(Blocks(rest));
  }

  lemma SanitizedPlain(m: Message, rest: seq<Message>)
    requires !IsTool(m) && !IsCaller(m)
    ensures Sanitized([m] + rest) == [m] + Sanitized(rest)
  {
    assert ([m] + rest)[1..] == rest;
    var bs := [Plain(m)] + Blocks(rest);
    assert bs[1..] == Blocks(rest);
  }

  lemma SanitizedTool(m: Message, rest: seq<Message>)
    requires IsTool(m)
    ensures Sanitized([m] + rest) == Sanitized(rest)
  {
    assert ([m] + rest)[1..] == rest;
  }

  /** What the pass still has to produce: the held-back caller with the tool messages seen since, and the
      rest of the list. */
  function Remaining(pending: Option<Message>, run: seq<Message>, rest: seq<Message>): seq<Message> {
    Sanitized(if pending.Some? then [pending.value] + run + rest else rest)
  }

  ghost predicate Holding(pending: Option<Message>, ids: seq<CallId>, run: seq<Message>,
                          tools: seq<Message>, seen: set<CallId>) {
    pending.Some? ==>
      && IsCaller(pending.value) && ids == CallIds(pending.value)
      && AllTools(run) && !Complete(ids, run)
      && tools == Firsts(ids, run) && seen == IdSet(ids) * ResultIds(run)
  }

  lemma StepCaller(pending: Option<Message>, ids: seq<CallId>, run: seq<Message>, tools: seq<Message>,
                   seen: set<CallId>, m: Message, rest: seq<Message>)
    requires Holding(pending, ids, run, tools, seen) && IsCaller(m)
    ensures Remaining(pending, run, [m] + rest) == Remaining(Some(m), [], rest)
    ensures Holding(Some(m), CallIds(m), [], [], {})
  {
    if pending.Some? { AbandonedGroup(pending.value, run, [m] + rest); }
    assert [m] + [] + rest == [m] + rest;
    assert CallIds(m)[0] in CallIds(m);
  }

  lemma StepPlain(pending: Option<Message>, ids: seq<CallId>, run: seq<Message>, tools: seq<Message>,
                  seen: set<CallId>, m: Message, rest: seq<Message>)
    requires Holding(pending, ids, run, tools, seen) && !IsTool(m) && !IsCaller(m)
    ensures Remaining(pending, run, [m] + rest) == [m] + Remaining(None, [], rest)
  {
    if pending.Some? { AbandonedGroup(pending.value, run, [m] + rest); }
    SanitizedPlain(m, rest);
  }

  lemma StepTool(a: Message, run: seq<Message>, m: Message, rest: seq<Message>)
    ensures Remaining(Some(a), run, [m] + rest) == Remaining(Some(a), run + [m], rest)
  {
    assert [a] + run + ([m] + rest) == [a] + (run + [m]) + rest;
  }

  /** One more tool message after a held-back caller: the first answer to one of its calls. */
  lemma StepAnswer(a: Message, run: seq<Message>, m: Message, seen: set<CallId>)
    requires IsTool(m) && Holding(Some(a), CallIds(a), run, Firsts(CallIds(a), run), seen)
    requires m.toolCallId in CallIds(a) && m.toolCallId !in seen
    ensures AllTools(run + [m])
    ensures Firsts(CallIds(a), run + [m]) == Firsts(CallIds(a), run) + [m]
    ensures seen + {m.toolCallId} == IdSet(CallIds(a)) * ResultIds(run + [m])
    ensures |seen + {m.toolCallId}| == |CallIds(a)| <==> Complete(CallIds(a), run + [m])
  {
    AnswerIsFirst(CallIds(a), run, m, seen);
  }

  lemma AnswerIsFirst(ids: seq<CallId>, run: seq<Message>, m: Message, seen: set<CallId>)
    requires seen == IdSet(ids) * ResultIds(run) && m.toolCallId in ids && m.toolCallId !in seen
    ensures Firsts(ids, run + [m]) == Firsts(ids, run) + [m]
    ensures seen + {m.toolCallId} == IdSet(ids) * ResultIds(run + [m])
    ensures |seen + {m.toolCallId}| == |ids| <==> Complete(ids, run + [m])
  {
    ResultIdsStep(run, m);
    FirstsStep(ids, run, m);
    SeenStep(ids, run, m, seen);
    CountDecidesComplete(ids, run + [m], seen + {m.toolCallId});
  }

  lemma SeenStep(ids: seq<CallId>, run: seq<Message>, m: Message, seen: set<CallId>)
    requires seen == IdSet(ids) * ResultIds(run) && m.toolCallId in ids
    requires ResultIds(run + [m]) == ResultIds(run) + {m.toolCallId}
    ensures seen + {m.toolCallId} == IdSet(ids) * ResultIds(run + [m])
  {
  }

  /** One more tool message after a held-back caller: any other. */
  lemma StepStray(a: Message, run: seq<Message>, m: Message, seen: set<CallId>)
    requires IsTool(m) && Holding(Some(a), CallIds(a), run, Firsts(CallIds(a), run), seen)
    requires !(m.toolCallId in CallIds(a) && m.toolCallId !in seen)
    ensures Holding(Some(a), CallIds(a), run + [m], Firsts(CallIds(a), run), seen)
  {
    ResultIdsStep(run, m);
    FirstsStep(CallIds(a), run, m);
    CountDecidesComplete(CallIds(a), run, seen);
    assert seen == IdSet(CallIds(a)) * ResultIds(run + [m]);
    CountDecidesComplete(CallIds(a), run + [m], seen);
  }

  lemma FirstsStep(ids: seq<CallId>, run: seq<Message>, m: Message)
    ensures Firsts(ids, run + [m])
         == if m.toolCallId in ids && m.toolCallId !in ResultIds(run) then Firsts(ids, run) + [m] else Firsts(ids, run)
  {
    assert (run + [m])[..|run|] == run && (run + [m])[|run|] == m;
  }

  lemma ResultIdsStep(run: seq<Message>, m: Message)
    ensures ResultIds(run + [m]) == ResultIds(run) + {m.toolCallId}
  {
    forall id ensures id in ResultIds(run + [m]) <==> id in ResultIds(run) || id == m.toolCallId {
      if id == m.toolCallId { assert m in run + [m]; }
    }
  }

  /** `_sanitize_tool_message_history`: what the index-wise specification keeps of the entries that are messages. */
  method SanitizeToolMessageHistory(entries: seq<Option<Message>>) returns (sanitized: seq<Message>, ghost at: seq<nat>)
    ensures Positions(at, |entries|)
    ensures forall i: nat :: i in at <==> i < |entries| && entries[i].Some?
    ensures forall k :: 0 <= k < |at| ==> entries[at[k]].Some?
    ensures sanitized == KeptRange(Values(entries, at), 0, |at|)
    ensures forall ms: seq<Message> ::
              |ms| == |entries| && (forall i :: 0 <= i < |ms| ==> entries[i] == Some(ms[i])) ==>
                sanitized == KeptRange(ms, 0, |ms|)
  {
    sanitized := SanitizePass(entries);
    at := MessagesOfAre(entries);
    SanitizedIsKept(Values(entries, at));
    forall ms: seq<Message> | |ms| == |entries| && forall i :: 0 <= i < |ms| ==> entries[i] == Some(ms[i])
      ensures sanitized == KeptRange(ms, 0, |ms|)
    {
      AllValues(entries, ms);
      SanitizedIsKept(ms);
    }
  }

  /** The pass itself, against the group-wise specification. */
  method SanitizePass(entries: seq<Option<Message>>) returns (sanitized: seq<Message>)
    ensures sanitized == Sanitized(MessagesOf(entries))
  {
    sanitized := [];
    var pending: Option<Message> := None;
    var ids: seq<CallId> := [];
    var tools: seq<Message> := [];
    var seen: set<CallId> := {};
    ghost var run: seq<Message> := [];
    ghost var goal := Sanitized(MessagesOf(entries));
    assert entries[0..] == entries;
    for i := 0 to |entries|
      invariant Holding(pending, ids, run, tools, seen)
      invariant sanitized + Remaining(pending, run, MessagesOf(entries[i..])) == goal
    {
      ghost var rest := MessagesOf(entries[i + 1..]);
      assert entries[i..][1..] == entries[i + 1..];
      if entries[i].Some? {
        var m := entries[i].value;
        assert MessagesOf(entries[i..]) == [m] + rest;
        var callIds := [];
        if m.role == Assistant { callIds := AssistantCallIds(m); }
        if callIds != [] {
          StepCaller(pending, ids, run, tools, seen, m, rest);
          pending, ids, tools, seen, run := Some(m), callIds, [], {}, [];
        } else if pending.Some? {
          if m.role != Tool {
            StepPlain(pending, ids, run, tools, seen, m, rest);
            Associative(sanitized, [m], Remaining(None, [], rest));
            pending, ids, tools, seen, run := None, [], [], {}, [];
            sanitized := sanitized + [m];
          } else {
            StepTool(pending.value, run, m, rest);
            if m.toolCallId in ids && m.toolCallId !in seen {
              StepAnswer(pending.value, run, m, seen);
              tools := tools + [m];
              seen := seen + {m.toolCallId};
              run := run + [m];
              if |seen| == |ids| {
                CompletedGroup(pending.value, run, rest);
                Associative(sanitized, [pending.value] + tools, Remaining(None, [], rest));
                sanitized := sanitized + ([pending.value] + tools);
                pending, ids, tools, seen, run := None, [], [], {}, [];
              }
            } else {
              StepStray(pending.value, run, m, seen);
              run := run + [m];
            }
          }
        } else if m.role == Tool {
          SanitizedTool(m, rest);
        } else {
          StepPlain(pending, ids, run, tools, seen, m, rest);
          Associative(sanitized, [m], Remaining(None, [], rest));
          sanitized := sanitized + [m];
        }
      }
    }
    if pending.Some? { AbandonedGroup(pending.value, run, []); }
    EmptyRight(sanitized);
  }
}
