/** The parallel tool-call scheduler: a greedy split of a model's tool calls into concurrent rounds. */
module ToolScheduler {
  import opened Messages

  /** What the tools manager says about one call.  A blank group or resource key is absent, and so is a
      concurrency limit that is not a number. */
  datatype Policy = Policy(
    safeParallel: bool,
    requiresOrder: bool,
    group: Option<string>,
    resourceKey: Option<string>,
    maxConcurrency: Option<int>)

  datatype PlanItem = PlanItem(index: nat, callId: CallId, policy: Policy)

  /** The effective concurrency limit: absent, zero and negative limits count as one. */
  function Concurrency(p: Policy): (n: nat)
    ensures n >= 1
  {
    if p.maxConcurrency.Some? && p.maxConcurrency.value > 1 then p.maxConcurrency.value else 1
  }

  /** The groups of a batch, item by item. */
  function Groups(batch: seq<PlanItem>): seq<Option<string>> {
    seq(|batch|, i requires 0 <= i < |batch| => batch[i].policy.group)
  }

  /** How many items of a batch belong to the group. */
  function CountGroup(batch: seq<PlanItem>, group: string): nat {
    multiset(Groups(batch))[Some(group)]
  }

  predicate UsesResource(batch: seq<PlanItem>, key: string) {
    exists i :: 0 <= i < |batch| && batch[i].policy.resourceKey == Some(key)
  }

  /** `_can_join_parallel_batch`. */
  predicate CanJoin(item: PlanItem, batch: seq<PlanItem>, limit: int) {
    && |batch| < limit
    && item.policy.safeParallel && !item.policy.requiresOrder
    && (item.policy.group.Some? ==> CountGroup(batch, item.policy.group.value) < Concurrency(item.policy))
    && (item.policy.resourceKey.Some? ==> !UsesResource(batch, item.policy.resourceKey.value))
  }

  // ---------------------------------------------------------------------------------------------
  // The limit
  // ---------------------------------------------------------------------------------------------

  function Distance(a: int, b: int): nat {
    if a < b then b - a else a - b
  }

  /** A configured value: one that counts as false, one that no integer can be read from, or the integer that is
      read from it, which for a text or a fraction may be zero. */
  datatype Setting = Falsy | Unreadable | Reads(number: int)

  /** `set_performance_config`: of the limits from 1 to 8 the one closest to what is read, and 3 when nothing is. */
  function DefaultLimit(configured: Setting): (n: nat)
    ensures 1 <= n <= 8
    ensures !configured.Reads? ==> n == 3
    ensures configured.Reads? ==>
              forall m :: 1 <= m <= 8 && m != n ==> Distance(n, configured.number) < Distance(m, configured.number)
  {
    var n := if configured.Reads? then configured.number else 3;
    if n < 1 then 1 else if n > 8 then 8 else n
  }

  /** `_get_router_limit`: the configured number (the default when absent or unreadable), if positive. */
  function RouterLimit(configured: Option<int>, default: int): (n: Option<nat>)
    ensures n.Some? ==> n.value > 0 && n.value == if configured.Some? then configured.value else default
    ensures n.None? <==> (if configured.Some? then configured.value else default) <= 0
  {
    var n := if configured.Some? then configured.value else default;
    if n <= 0 then None else Some(n)
  }

  /** `_resolve_max_parallel_tool_calls`: the route's own limit if positive, else the router's, else the
      default.  The limit in force is always positive. */
  function ResolveLimit(route: Option<int>, router: Option<int>, default: nat): (n: nat)
    requires default >= 1
    ensures n >= 1
    ensures route.Some? && route.value > 0 ==> n == route.value
    ensures !(route.Some? && route.value > 0) ==>
              n == if router.Some? && router.value > 0 then router.value else default
  {
    if route.Some? && route.value > 0 then route.value
    else if RouterLimit(router, default).Some? then RouterLimit(router, default).value
    else default
  }

  // ---------------------------------------------------------------------------------------------
  // Admissible batches and the greedy split
  // ---------------------------------------------------------------------------------------------

  /** A batch the scheduler may run as one round: a single call, or calls each of which can join the ones
      before it. */
  predicate Admissible(batch: seq<PlanItem>, limit: int) {
    batch != [] && (|batch| == 1 || forall i :: 0 <= i < |batch| ==> CanJoin(batch[i], batch[..i], limit))
  }

  function Concat(rounds: seq<seq<PlanItem>>): seq<PlanItem> {
    if rounds == [] then [] else rounds[0] + Concat(rounds[1..])
  }

  /** A split of the plan into consecutive admissible batches. */
  predicate IsSplit(rounds: seq<seq<PlanItem>>, plan: seq<PlanItem>, limit: int) {
    Concat(rounds) == plan && forall r :: r in rounds ==> Admissible(r, limit)
  }

  /** How far the batch `plan[..n]` can be grown by joining the next items one at a time. */
  function Grow(plan: seq<PlanItem>, n: nat, limit: int): (m: nat)
    requires n <= |plan|
    ensures n <= m <= |plan|
    decreases |plan| - n
  {
    if n < |plan| && CanJoin(plan[n], plan[..n], limit) then Grow(plan, n + 1, limit) else n
  }

  /** Every item of a grown batch could join the items before it. */
  lemma {:induction false} GrownJoin(plan: seq<PlanItem>, n: nat, limit: int, i: nat)
    requires n <= |plan| && n <= i < Grow(plan, n, limit)
    ensures CanJoin(plan[i], plan[..i], limit)
    decreases |plan| - n
  {
    if n < i { GrownJoin(plan, n + 1, limit, i); }
  }

  /** The length of the first round: a call that cannot even start a batch runs alone. */
  function FirstRound(plan: seq<PlanItem>, limit: int): (n: nat)
    requires plan != []
    ensures 1 <= n <= |plan|
  {
    if CanJoin(plan[0], [], limit) then
      assert plan[..0] == [];
      Grow(plan, 0, limit)
    else 1
  }

  /** The rounds of the greedy scheduler. */
  function Greedy(plan: seq<PlanItem>, limit: int): seq<seq<PlanItem>>
    decreases |plan|
  {
    if plan == [] then []
    else
      var n := FirstRound(plan, limit);
      [plan[..n]] + Greedy(plan[n..], limit)
  }

  // ---------------------------------------------------------------------------------------------
  // The join test is monotone: what can join a batch can join any part of it
  // ---------------------------------------------------------------------------------------------

  lemma CountGroupAppend(a: seq<PlanItem>, b: seq<PlanItem>, group: string)
    ensures CountGroup(a + b, group) == CountGroup(a, group) + CountGroup(b, group)
  {
    assert Groups(a + b) == Groups(a) + Groups(b);
  }

  lemma UsesResourceAppend(a: seq<PlanItem>, b: seq<PlanItem>, key: string)
    requires UsesResource(b, key)
    ensures UsesResource(a + b, key)
  {
    var i :| 0 <= i < |b| && b[i].policy.resourceKey == Some(key);
    assert (a + b)[|a| + i] == b[i];
  }

  lemma CanJoinMonotone(item: PlanItem, dropped: seq<PlanItem>, batch: seq<PlanItem>, limit: int)
    requires CanJoin(item, dropped + batch, limit)
    ensures CanJoin(item, batch, limit)
  {
    if item.policy.group.Some? { CountGroupAppend(dropped, batch, item.policy.group.value); }
    if item.policy.resourceKey.Some? && UsesResource(batch, item.policy.resourceKey.value) {
      UsesResourceAppend(dropped, batch, item.policy.resourceKey.value);
    }
  }

  /** Dropping the first calls of an admissible batch leaves an admissible batch. */
  lemma AdmissibleSuffix(batch: seq<PlanItem>, j: nat, limit: int)
    requires Admissible(batch, limit) && j < |batch|
    ensures Admissible(batch[j..], limit)
  {
    var rest := batch[j..];
    if |batch| > 1 {
      forall i | 0 <= i < |rest| ensures CanJoin(rest[i], rest[..i], limit) {
        assert batch[..j + i] == batch[..j] + rest[..i];
        assert CanJoin(batch[j + i], batch[..j + i], limit);
        CanJoinMonotone(batch[j + i], batch[..j], rest[..i], limit);
      }
    }
  }

  /** Every item of the batch could join the items before it. */
  ghost predicate Growing(batch: seq<PlanItem>, limit: int) {
    forall i :: 0 <= i < |batch| ==> CanJoin(batch[i], batch[..i], limit)
  }

  lemma {:induction false} GrowThrough(rest: seq<PlanItem>, batch: seq<PlanItem>, limit: int, i: nat)
    requires Growing(batch, limit) && batch <= rest && i <= |batch|
    ensures Grow(rest, i, limit) == Grow(rest, |batch|, limit)
    decreases |batch| - i
  {
    if i < |batch| {
      assert rest[i] == batch[i] && rest[..i] == batch[..i];
      GrowThrough(rest, batch, limit, i + 1);
    }
  }

  /** The first round is the longest admissible batch at the front of the plan. */
  lemma FirstRoundIsLongest(plan: seq<PlanItem>, limit: int, m: nat)
    requires plan != [] && m <= |plan| && Admissible(plan[..m], limit)
    ensures m <= FirstRound(plan, limit)
  {
    if m > 1 {
      var batch := plan[..m];
      assert batch[..0] == [] && CanJoin(batch[0], batch[..0], limit);
      GrowThrough(plan, batch, limit, 0);
    }
  }

  lemma FirstRoundAdmissible(plan: seq<PlanItem>, limit: int)
    requires plan != []
    ensures Admissible(plan[..FirstRound(plan, limit)], limit)
  {
    var n := FirstRound(plan, limit);
    if n > 1 {
      forall i | 0 <= i < n ensures CanJoin(plan[..n][i], plan[..n][..i], limit) {
        assert plan[..n][..i] == plan[..i];
        GrownJoin(plan, 0, limit, i);
      }
    }
  }

  /** The greedy rounds are a split of the plan. */
  lemma {:induction false} GreedySplits(plan: seq<PlanItem>, limit: int)
    ensures IsSplit(Greedy(plan, limit), plan, limit)
    decreases |plan|
  {
    if plan != [] {
      var n := FirstRound(plan, limit);
      FirstRoundAdmissible(plan, limit);
      GreedySplits(plan[n..], limit);
      assert plan == plan[..n] + plan[n..];
    }
  }

  /** Where the `r`-th round starts in the plan. */
  function Offset(rounds: seq<seq<PlanItem>>, r: nat): nat
    requires r <= |rounds|
  {
    if r == 0 then 0 else Offset(rounds, r - 1) + |rounds[r - 1]|
  }

  lemma {:induction false} OffsetTail(rounds: seq<seq<PlanItem>>, r: nat)
    requires 0 < r <= |rounds|
    ensures Offset(rounds, r) == |rounds[0]| + Offset(rounds[1..], r - 1)
  {
    if r > 1 { OffsetTail(rounds, r - 1); }
  }

  /** The rounds are cut out of the plan one after another. */
  lemma {:induction false} RoundIsSlice(rounds: seq<seq<PlanItem>>, plan: seq<PlanItem>, r: nat)
    requires Concat(rounds) == plan && r < |rounds|
    ensures Offset(rounds, r) + |rounds[r]| <= |plan|
    ensures rounds[r] == plan[Offset(rounds, r)..Offset(rounds, r) + |rounds[r]|]
    ensures r + 1 == |rounds| ==> Offset(rounds, r + 1) == |plan|
  {
    var rest := rounds[1..];
    if r > 0 {
      RoundIsSlice(rest, Concat(rest), r - 1);
      OffsetTail(rounds, r);
      OffsetTail(rounds, r + 1);
    } else {
      assert |rounds| == 1 ==> Concat(rest) == [];
    }
  }

  // ---------------------------------------------------------------------------------------------
  // Optimality
  // ---------------------------------------------------------------------------------------------

  /** Starting later never takes more rounds. */
  lemma {:induction false} GreedyShrinks(plan: seq<PlanItem>, j: nat, limit: int)
    requires j <= |plan|
    ensures |Greedy(plan[j..], limit)| <= |Greedy(plan, limit)|
    decreases |plan|
  {
    if plan == [] || j == |plan| {
    } else {
      var n := FirstRound(plan, limit);
      if j >= n {
        GreedyShrinks(plan[n..], j - n, limit);
        assert plan[n..][j - n..] == plan[j..];
      } else {
        var later := plan[j..];
        FirstRoundAdmissible(plan, limit);
        AdmissibleSuffix(plan[..n], j, limit);
        assert plan[..n][j..] == later[..n - j];
        FirstRoundIsLongest(later, limit, n - j);
        var k := FirstRound(later, limit);
        assert later[k..] == plan[n..][j + k - n..];
        GreedyShrinks(plan[n..], j + k - n, limit);
      }
    }
  }

  /** The greedy scheduler uses the fewest rounds of all splits of the plan into consecutive admissible
      batches. */
  lemma {:induction false} GreedyIsOptimal(plan: seq<PlanItem>, limit: int, rounds: seq<seq<PlanItem>>)
    requires IsSplit(rounds, plan, limit)
    ensures |Greedy(plan, limit)| <= |rounds|
    decreases |rounds|
  {
    if rounds != [] {
      var m := |rounds[0]|;
      assert rounds[0] in rounds;
      assert plan[..m] == rounds[0] && plan[m..] == Concat(rounds[1..]);
      FirstRoundIsLongest(plan, limit, m);
      var n := FirstRound(plan, limit);
      GreedyIsOptimal(plan[m..], limit, rounds[1..]);
      GreedyShrinks(plan[m..], n - m, limit);
      assert plan[m..][n - m..] == plan[n..];
    }
  }

  // ---------------------------------------------------------------------------------------------
  // What one admissible batch guarantees
  // ---------------------------------------------------------------------------------------------

  /** A batch respects the caps: its size, its resource keys, and for each call its own group limit. */
  predicate Capped(batch: seq<PlanItem>, limit: int) {
    && |batch| <= limit
    && (forall i, j :: 0 <= i < j < |batch| && batch[i].policy.resourceKey.Some? ==>
          batch[i].policy.resourceKey != batch[j].policy.resourceKey)
    && (forall i :: 0 <= i < |batch| && batch[i].policy.group.Some? ==>
          CountGroup(batch[..i], batch[i].policy.group.value) < Concurrency(batch[i].policy))
  }

  lemma AdmissibleIsCapped(batch: seq<PlanItem>, limit: int)
    requires Admissible(batch, limit) && limit >= 1
    ensures Capped(batch, limit)
  {
    if |batch| == 1 {
      assert batch[..0] == [];
    } else {
      assert CanJoin(batch[|batch| - 1], batch[..|batch| - 1], limit);
      forall i, j | 0 <= i < j < |batch| && batch[i].policy.resourceKey.Some?
        ensures batch[i].policy.resourceKey != batch[j].policy.resourceKey
      {
        assert CanJoin(batch[j], batch[..j], limit);
        assert batch[..j][i] == batch[i];
      }
      forall i | 0 <= i < |batch| && batch[i].policy.group.Some?
        ensures CountGroup(batch[..i], batch[i].policy.group.value) < Concurrency(batch[i].policy)
      {
        assert CanJoin(batch[i], batch[..i], limit);
      }
    }
  }

  /** The earlier calls of a batch that are in the group of the `j`-th. */
  function Mates(batch: seq<PlanItem>, j: nat): (mates: set<nat>)
    requires j < |batch|
    ensures forall i :: i in mates <==> 0 <= i < j && batch[i].policy.group == batch[j].policy.group
  {
    set i | 0 <= i < j && batch[i].policy.group == batch[j].policy.group
  }

  function InGroup(batch: seq<PlanItem>, n: nat, group: string): set<nat>
    requires n <= |batch|
  {
    set i | 0 <= i < n && batch[i].policy.group == Some(group)
  }

  lemma {:induction false} CountIsSize(batch: seq<PlanItem>, n: nat, group: string)
    requires n <= |batch|
    ensures CountGroup(batch[..n], group) == |InGroup(batch, n, group)|
  {
    if n == 0 {
      assert |InGroup(batch, n, group)| == 0;
      assert |Groups(batch[..n])| == 0;
    } else {
      CountIsSize(batch, n - 1, group);
      assert batch[..n] == batch[..n - 1] + [batch[n - 1]];
      CountGroupAppend(batch[..n - 1], [batch[n - 1]], group);
      CountGroupOne(batch[n - 1], group);
      InGroupStep(batch, n - 1, group);
    }
  }

  lemma CountGroupOne(item: PlanItem, group: string)
    ensures CountGroup([item], group) == if item.policy.group == Some(group) then 1 else 0
  {
    assert Groups([item]) == [item.policy.group];
  }

  lemma InGroupStep(batch: seq<PlanItem>, n: nat, group: string)
    requires n < |batch|
    ensures |InGroup(batch, n + 1, group)|
         == |InGroup(batch, n, group)| + if batch[n].policy.group == Some(group) then 1 else 0
  {
    assert InGroup(batch, n + 1, group)
        == InGroup(batch, n, group) + if batch[n].policy.group == Some(group) then {n} else {};
  }

  /** What a call of a batch must satisfy, on its policy's own fields: it is safe and needs no order, no earlier
      call holds its resource, and it is the first of its group or has fewer mates than its own limit. */
  predicate Fits(batch: seq<PlanItem>, j: nat)
    requires j < |batch|
  {
    var p := batch[j].policy;
    && p.safeParallel && !p.requiresOrder
    && (p.resourceKey.Some? ==> forall i :: 0 <= i < j ==> batch[i].policy.resourceKey != p.resourceKey)
    && (p.group.Some? && |Mates(batch, j)| > 0 ==>
          p.maxConcurrency.Some? && |Mates(batch, j)| < p.maxConcurrency.value)
  }

  lemma FitsIff(batch: seq<PlanItem>, j: nat, limit: int)
    requires j < |batch|
    ensures CanJoin(batch[j], batch[..j], limit) <==> j < limit && Fits(batch, j)
  {
    var p := batch[j].policy;
    if p.group.Some? {
      CountIsSize(batch, j, p.group.value);
      assert InGroup(batch, j, p.group.value) == Mates(batch, j);
    }
    if p.resourceKey.Some? { UsesIff(batch, j, p.resourceKey.value); }
  }

  lemma UsesIff(batch: seq<PlanItem>, j: nat, key: string)
    requires j <= |batch|
    ensures UsesResource(batch[..j], key) <==> !forall i :: 0 <= i < j ==> batch[i].policy.resourceKey != Some(key)
  {
    assert forall i :: 0 <= i < j ==> batch[..j][i] == batch[i];
  }

  predicate AllFit(batch: seq<PlanItem>) {
    forall j :: 0 <= j < |batch| ==> Fits(batch, j)
  }

  lemma AdmissibleFits(batch: seq<PlanItem>, limit: int)
    ensures Admissible(batch, limit) <==> |batch| == 1 || (0 < |batch| <= limit && AllFit(batch))
  {
    forall j | 0 <= j < |batch| ensures CanJoin(batch[j], batch[..j], limit) <==> j < limit && Fits(batch, j) {
      FitsIff(batch, j, limit);
    }
    if |batch| > 1 {
      var last := |batch| - 1;
      assert CanJoin(batch[last], batch[..last], limit) <==> last < limit && Fits(batch, last);
    }
  }

  /** The batches that may run as one round, on the policies' own fields. */
  lemma AdmissibleIff(batch: seq<PlanItem>, limit: int)
    ensures Admissible(batch, limit)
            <==> |batch| == 1
                 || (0 < |batch| <= limit
                     && (forall j :: 0 <= j < |batch| ==>
                           batch[j].policy.safeParallel && !batch[j].policy.requiresOrder)
                     && (forall i, j :: 0 <= i < j < |batch| && batch[j].policy.resourceKey.Some? ==>
                           batch[i].policy.resourceKey != batch[j].policy.resourceKey)
                     && (forall j :: 0 <= j < |batch| && batch[j].policy.group.Some? && |Mates(batch, j)| > 0 ==>
                           batch[j].policy.maxConcurrency.Some?
                           && |Mates(batch, j)| < batch[j].policy.maxConcurrency.value))
  {
    AdmissibleFits(batch, limit);
    AllFitIff(batch);
  }

  lemma AllFitIff(batch: seq<PlanItem>)
    ensures AllFit(batch)
            <==> (forall j :: 0 <= j < |batch| ==>
                    batch[j].policy.safeParallel && !batch[j].policy.requiresOrder)
                 && (forall i, j :: 0 <= i < j < |batch| && batch[j].policy.resourceKey.Some? ==>
                       batch[i].policy.resourceKey != batch[j].policy.resourceKey)
                 && (forall j :: 0 <= j < |batch| && batch[j].policy.group.Some? && |Mates(batch, j)| > 0 ==>
                       batch[j].policy.maxConcurrency.Some?
                       && |Mates(batch, j)| < batch[j].policy.maxConcurrency.value)
  {
    if AllFit(batch) {
      forall i, j | 0 <= i < j < |batch| && batch[j].policy.resourceKey.Some?
        ensures batch[i].policy.resourceKey != batch[j].policy.resourceKey
      {
        assert Fits(batch, j);
      }
      forall j | 0 <= j < |batch|
        ensures batch[j].policy.safeParallel && !batch[j].policy.requiresOrder
        ensures batch[j].policy.group.Some? && |Mates(batch, j)| > 0 ==>
                  batch[j].policy.maxConcurrency.Some? && |Mates(batch, j)| < batch[j].policy.maxConcurrency.value
      {
        assert Fits(batch, j);
      }
    }
  }

  /** When all calls of a group agree on its limit, the limit is a cap on the group. */
  lemma {:induction false} GroupCap(batch: seq<PlanItem>, limit: int, group: string, cap: nat)
    requires Capped(batch, limit)
    requires forall i :: 0 <= i < |batch| && batch[i].policy.group == Some(group) ==>
               Concurrency(batch[i].policy) == cap
    ensures CountGroup(batch, group) <= cap
  {
    if batch != [] {
      var init, last := batch[..|batch| - 1], batch[|batch| - 1];
      assert batch == init + [last];
      CountGroupAppend(init, [last], group);
      if last.policy.group != Some(group) {
        assert forall i :: 0 <= i < |init| ==> init[i] == batch[i] && init[..i] == batch[..i];
        GroupCap(init, limit, group, cap);
      }
    }
  }

  /** A call that is unsafe or must keep its order is a round of its own. */
  lemma BarrierIsAlone(batch: seq<PlanItem>, limit: int, i: nat)
    requires Admissible(batch, limit) && i < |batch|
    requires !batch[i].policy.safeParallel || batch[i].policy.requiresOrder
    ensures |batch| == 1
  {
    assert |batch| == 1 || CanJoin(batch[i], batch[..i], limit);
  }

  // ---------------------------------------------------------------------------------------------
  // The scheduler itself
  // ---------------------------------------------------------------------------------------------

  /** How one tool call ends: with a result, or by raising before it produced one. */
  datatype Outcome = Returned(value: string) | Raised(error: string)

  datatype CallResult = Done(value: string) | DispatchFailed(error: string) | ResultMissing

  /** `_execute_plan_item`: an exception becomes a failed result. */
  function ResultOf(o: Outcome): CallResult {
    match o
    case Returned(v) => Done(v)
    case Raised(e) => DispatchFailed(e)
  }

  /** The plan of a list of calls. */
  function Plan(calls: seq<CallId>, policies: seq<Policy>): (plan: seq<PlanItem>)
    requires |calls| == |policies|
    ensures |plan| == |calls|
    ensures forall i :: 0 <= i < |plan| ==> plan[i] == PlanItem(i, calls[i], policies[i])
  {
    seq(|calls|, i requires 0 <= i < |calls| => PlanItem(i, calls[i], policies[i]))
  }

  /** The tool messages of a list of calls, one per call in call order, as `write` words the results. */
  function Answers(calls: seq<CallId>, outcomes: seq<Outcome>, write: CallResult -> string): (ms: seq<Message>)
    requires |calls| == |outcomes|
    ensures |ms| == |calls|
    ensures forall i :: 0 <= i < |ms| ==> ms[i] == ToolResult(calls[i], write(ResultOf(outcomes[i])))
  {
    seq(|calls|, i requires 0 <= i < |calls| => ToolResult(calls[i], write(ResultOf(outcomes[i]))))
  }

  /** The state of the scheduling loop: the rounds run so far, the batch still pending and the items to come
      make up the greedy rounds `all`. */
  ghost predicate Scheduling(all: seq<seq<PlanItem>>, limit: int, rounds: seq<seq<PlanItem>>, batch: seq<PlanItem>,
                             todo: seq<PlanItem>) {
    Growing(batch, limit) && rounds + Greedy(batch + todo, limit) == all
  }

  /** A batch that cannot grow is the next greedy round. */
  lemma GreedyFirst(batch: seq<PlanItem>, todo: seq<PlanItem>, limit: int)
    requires Growing(batch, limit) && batch != []
    requires todo == [] || !CanJoin(todo[0], batch, limit)
    ensures Greedy(batch + todo, limit) == [batch] + Greedy(todo, limit)
  {
    var rest := batch + todo;
    var n := FirstRound(rest, limit);
    assert batch[..0] == [] && rest[0] == batch[0] && CanJoin(batch[0], batch[..0], limit);
    GrownTo(rest, batch, todo, limit);
    assert rest[..n] == batch && rest[n..] == todo;
  }

  lemma GrownTo(rest: seq<PlanItem>, batch: seq<PlanItem>, todo: seq<PlanItem>, limit: int)
    requires Growing(batch, limit) && rest == batch + todo && (todo == [] || !CanJoin(todo[0], batch, limit))
    ensures Grow(rest, 0, limit) == |batch|
  {
    GrowThrough(rest, batch, limit, 0);
    assert rest[..|batch|] == batch;
  }

  lemma FlushStep(all: seq<seq<PlanItem>>, limit: int, rounds: seq<seq<PlanItem>>, batch: seq<PlanItem>,
                  todo: seq<PlanItem>, none: seq<PlanItem>)
    requires Scheduling(all, limit, rounds, batch, todo) && batch != [] && none == []
    requires todo == [] || !CanJoin(todo[0], batch, limit)
    ensures Scheduling(all, limit, rounds + [batch], none, todo)
  {
    GreedyFirst(batch, todo, limit);
    assert none + todo == todo;
    var later := Greedy(todo, limit);
    assert rounds + [batch] + later == rounds + ([batch] + later);
  }

  lemma JoinStep(all: seq<seq<PlanItem>>, limit: int, rounds: seq<seq<PlanItem>>, batch: seq<PlanItem>,
                 todo: seq<PlanItem>)
    requires Scheduling(all, limit, rounds, batch, todo) && todo != [] && CanJoin(todo[0], batch, limit)
    ensures Scheduling(all, limit, rounds, batch + [todo[0]], todo[1..])
  {
    var batch' := batch + [todo[0]];
    assert batch' + todo[1..] == batch + todo;
    forall i | 0 <= i < |batch'| ensures CanJoin(batch'[i], batch'[..i], limit) {
      if i < |batch| { assert batch'[..i] == batch[..i]; } else { assert batch'[..i] == batch; }
    }
  }

  lemma AloneStep(all: seq<seq<PlanItem>>, limit: int, rounds: seq<seq<PlanItem>>, none: seq<PlanItem>,
                  todo: seq<PlanItem>)
    requires Scheduling(all, limit, rounds, none, todo) && none == []
    requires todo != [] && !CanJoin(todo[0], none, limit)
    ensures Scheduling(all, limit, rounds + [[todo[0]]], none, todo[1..])
  {
    assert none + todo == todo && none + todo[1..] == todo[1..] && todo[..1] == [todo[0]];
    var later := Greedy(todo[1..], limit);
    assert Greedy(todo, limit) == [[todo[0]]] + later;
    assert rounds + [[todo[0]]] + later == rounds + ([[todo[0]]] + later);
  }

  /** The indices of the calls of a batch. */
  function CallsOf(batch: seq<PlanItem>): set<nat> {
    set x | x in batch :: x.index
  }

  /** `_flush_parallel_batch`: runs the calls of the batch and files their results. */
  method FlushParallelBatch(batch: seq<PlanItem>, outcomes: seq<Outcome>, ordered: map<nat, CallResult>)
    returns (filed: map<nat, CallResult>)
    requires forall x :: x in batch ==> x.index < |outcomes|
    ensures filed.Keys == ordered.Keys + CallsOf(batch)
    ensures forall i :: i in filed.Keys ==>
              filed[i] == if i in CallsOf(batch) then ResultOf(outcomes[i]) else ordered[i]
  {
    filed := ordered;
    for i := 0 to |batch|
      invariant filed.Keys == ordered.Keys + CallsOf(batch[..i])
      invariant forall j :: j in filed.Keys ==>
                  filed[j] == if j in CallsOf(batch[..i]) then ResultOf(outcomes[j]) else ordered[j]
    {
      assert batch[i] in batch;
      assert batch[..i + 1] == batch[..i] + [batch[i]];
      assert CallsOf(batch[..i + 1]) == CallsOf(batch[..i]) + {batch[i].index};
      filed := filed[batch[i].index := ResultOf(outcomes[batch[i].index])];
    }
    assert batch[..|batch|] == batch;
  }

  /** The results filed so far are those of the first `n` calls. */
  ghost predicate Filed(ordered: map<nat, CallResult>, outcomes: seq<Outcome>, n: nat) {
    && n <= |outcomes|
    && (forall i :: i in ordered.Keys <==> 0 <= i < n)
    && (forall i :: 0 <= i < n ==> ordered[i] == ResultOf(outcomes[i]))
  }

  lemma FileNext(ordered: map<nat, CallResult>, outcomes: seq<Outcome>, n: nat)
    requires Filed(ordered, outcomes, n) && n < |outcomes|
    ensures Filed(ordered[n := ResultOf(outcomes[n])], outcomes, n + 1)
  {
  }

  lemma BatchIndices(plan: seq<PlanItem>, lo: nat, hi: nat)
    requires lo <= hi <= |plan| && forall i :: 0 <= i < |plan| ==> plan[i].index == i
    ensures forall i :: i in CallsOf(plan[lo..hi]) <==> lo <= i < hi
    ensures forall x :: x in plan[lo..hi] ==> lo <= x.index < hi
  {
    forall x | x in plan[lo..hi] ensures lo <= x.index < hi {
      var k :| 0 <= k < |plan[lo..hi]| && plan[lo..hi][k] == x;
      assert plan[lo + k] == x;
    }
    forall i: nat | lo <= i < hi ensures i in CallsOf(plan[lo..hi]) {
      assert plan[lo..hi][i - lo] == plan[i];
      assert plan[i] in plan[lo..hi];
    }
  }

  /** The whole state of the scheduling loop before item `k`. */
  ghost predicate LoopState(plan: seq<PlanItem>, limit: int, outcomes: seq<Outcome>, k: nat, batch: seq<PlanItem>,
                            rounds: seq<seq<PlanItem>>, ordered: map<nat, CallResult>) {
    && |batch| <= k <= |plan| && batch == plan[k - |batch|..k]
    && Filed(ordered, outcomes, k - |batch|)
    && Scheduling(Greedy(plan, limit), limit, rounds, batch, plan[k..])
  }

  /** Runs the pending batch, if any, as one round and files its results. */
  method Flush(plan: seq<PlanItem>, limit: int, outcomes: seq<Outcome>, k: nat, batch: seq<PlanItem>,
               rounds: seq<seq<PlanItem>>, ordered: map<nat, CallResult>)
    returns (batch': seq<PlanItem>, rounds': seq<seq<PlanItem>>, ordered': map<nat, CallResult>)
    requires |plan| == |outcomes| && forall i :: 0 <= i < |plan| ==> plan[i].index == i
    requires LoopState(plan, limit, outcomes, k, batch, rounds, ordered)
    requires k == |plan| || !CanJoin(plan[k], batch, limit)
    ensures batch' == [] && LoopState(plan, limit, outcomes, k, batch', rounds', ordered')
  {
    if batch == [] { return batch, rounds, ordered; }
    BatchIndices(plan, k - |batch|, k);
    ordered' := FlushParallelBatch(batch, outcomes, ordered);
    rounds' := rounds + [batch];
    batch' := [];
    FlushStep(Greedy(plan, limit), limit, rounds, batch, plan[k..], batch');
  }

  /** Adds item `k` to the pending batch if it can join, or runs it alone if it cannot start one. */
  method Place(plan: seq<PlanItem>, limit: int, outcomes: seq<Outcome>, k: nat, batch: seq<PlanItem>,
               rounds: seq<seq<PlanItem>>, ordered: map<nat, CallResult>)
    returns (batch': seq<PlanItem>, rounds': seq<seq<PlanItem>>, ordered': map<nat, CallResult>)
    requires k < |plan| == |outcomes| && LoopState(plan, limit, outcomes, k, batch, rounds, ordered)
    requires batch == [] || CanJoin(plan[k], batch, limit)
    ensures LoopState(plan, limit, outcomes, k + 1, batch', rounds', ordered')
  {
    ghost var all, todo := Greedy(plan, limit), plan[k..];
    assert todo[1..] == plan[k + 1..];
    if CanJoin(plan[k], batch, limit) {
      JoinStep(all, limit, rounds, batch, todo);
      return batch + [plan[k]], rounds, ordered;
    }
    AloneStep(all, limit, rounds, batch, todo);
    FileNext(ordered, outcomes, k);
    return batch, rounds + [[plan[k]]], ordered[k := ResultOf(outcomes[k])];
  }

  lemma LoopStart(plan: seq<PlanItem>, limit: int, outcomes: seq<Outcome>, batch: seq<PlanItem>,
                  rounds: seq<seq<PlanItem>>, ordered: map<nat, CallResult>)
    requires |plan| == |outcomes| && batch == [] && rounds == [] && ordered == map[]
    ensures LoopState(plan, limit, outcomes, 0, batch, rounds, ordered)
  {
    assert plan[0..0] == [] && plan[0..] == plan && batch + plan == plan;
    assert rounds + Greedy(plan, limit) == Greedy(plan, limit);
  }

  lemma LoopEnd(plan: seq<PlanItem>, limit: int, outcomes: seq<Outcome>, batch: seq<PlanItem>,
                rounds: seq<seq<PlanItem>>, ordered: map<nat, CallResult>)
    requires LoopState(plan, limit, outcomes, |plan|, batch, rounds, ordered) && batch == []
    ensures rounds == Greedy(plan, limit)
  {
    assert plan[|plan|..] == [] && batch + plan[|plan|..] == [];
    assert rounds + [] == rounds;
  }

  /** The initial state of the scheduling loop: no item placed, no round run, no result filed. */
  method Begin(plan: seq<PlanItem>, limit: int, outcomes: seq<Outcome>)
    returns (start: nat, batch: seq<PlanItem>, rounds: seq<seq<PlanItem>>, ordered: map<nat, CallResult>)
    requires |plan| == |outcomes|
    ensures LoopState(plan, limit, outcomes, start, batch, rounds, ordered)
  {
    start, batch, rounds, ordered := 0, [], [], map[];
    LoopStart(plan, limit, outcomes, batch, rounds, ordered);
  }

  /** The scheduling loop, from item `start` to the end of the plan. */
  method PlaceAll(plan: seq<PlanItem>, limit: int, outcomes: seq<Outcome>, start: nat, batch: seq<PlanItem>,
                  rounds: seq<seq<PlanItem>>, ordered: map<nat, CallResult>)
    returns (batch': seq<PlanItem>, rounds': seq<seq<PlanItem>>, ordered': map<nat, CallResult>)
    requires |plan| == |outcomes| && forall i :: 0 <= i < |plan| ==> plan[i].index == i
    requires LoopState(plan, limit, outcomes, start, batch, rounds, ordered)
    ensures LoopState(plan, limit, outcomes, |plan|, batch', rounds', ordered')
  {
    batch', rounds', ordered' := batch, rounds, ordered;
    for k := start to |plan|
      invariant LoopState(plan, limit, outcomes, k, batch', rounds', ordered')
    {
      if !CanJoin(plan[k], batch', limit) {
        batch', rounds', ordered' := Flush(plan, limit, outcomes, k, batch', rounds', ordered');
      }
      batch', rounds', ordered' := Place(plan, limit, outcomes, k, batch', rounds', ordered');
    }
  }

  /** Runs the plan in greedy rounds and files every result. */
  method RunRounds(plan: seq<PlanItem>, limit: int, outcomes: seq<Outcome>)
    returns (rounds: seq<seq<PlanItem>>, ordered: map<nat, CallResult>)
    requires |plan| == |outcomes| && forall i :: 0 <= i < |plan| ==> plan[i].index == i
    ensures rounds == Greedy(plan, limit)
    ensures Filed(ordered, outcomes, |plan|)
  {
    var start, batch;
    start, batch, rounds, ordered := Begin(plan, limit, outcomes);
    batch, rounds, ordered := PlaceAll(plan, limit, outcomes, start, batch, rounds, ordered);
    batch, rounds, ordered := Flush(plan, limit, outcomes, |plan|, batch, rounds, ordered);
    LoopEnd(plan, limit, outcomes, batch, rounds, ordered);
  }

  /** `_execute_visible_tool_calls`: the rounds it runs are the greedy ones, and it answers every call once,
      in call order, with the result of that call. */
  method ExecuteVisibleToolCalls(calls: seq<CallId>, policies: seq<Policy>, limit: int, outcomes: seq<Outcome>,
                                 write: CallResult -> string)
    returns (messages: seq<Message>, rounds: seq<seq<PlanItem>>)
    requires |calls| == |policies| == |outcomes|
    ensures rounds == Greedy(Plan(calls, policies), limit)
    ensures messages == Answers(calls, outcomes, write)
    ensures |messages| == |calls|
    ensures forall i :: 0 <= i < |calls| ==>
              messages[i] == Message(Tool,
                                     match outcomes[i] { case Returned(v) => write(Done(v))
                                                         case Raised(e) => write(DispatchFailed(e)) },
                                     [], "", [], "", calls[i], false)
  {
    var plan := Plan(calls, policies);
    var ordered;
    rounds, ordered := RunRounds(plan, limit, outcomes);
    messages := [];
    for k := 0 to |plan|
      invariant messages == Answers(calls, outcomes, write)[..k]
    {
      var result := if plan[k].index in ordered then ordered[plan[k].index] else ResultMissing;
      messages := messages + [ToolResult(plan[k].callId, write(result))];
    }
  }
}
