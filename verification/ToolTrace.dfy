/** What the rounds of the scheduler mean for the calls in time: every interleaving that runs the rounds one
    after another, the calls of one round in any order. */
module ToolTrace {
  import opened Messages
  import opened ToolScheduler
  import ToolHistory

  datatype Event = Start(call: nat) | Finish(call: nat)

  predicate HasCall(round: seq<PlanItem>, call: nat) {
    exists i :: 0 <= i < |round| && round[i].index == call
  }

  /** The calls of one round run concurrently: each starts once and finishes once, later. */
  ghost predicate RoundTrace(round: seq<PlanItem>, t: seq<Event>) {
    && (forall p :: 0 <= p < |t| ==> HasCall(round, t[p].call))
    && (forall c :: HasCall(round, c) ==> multiset(t)[Start(c)] == 1 && multiset(t)[Finish(c)] == 1)
    && (forall p, q :: 0 <= p < |t| && 0 <= q < |t| && t[p].Start? && t[q] == Finish(t[p].call) ==> p < q)
  }

  /** The trace of a run, given round by round: a round ends before the next begins. */
  ghost predicate RunTrace(rounds: seq<seq<PlanItem>>, ts: seq<seq<Event>>) {
    |ts| == |rounds| && forall a :: 0 <= a < |ts| ==> RoundTrace(rounds[a], ts[a])
  }

  /** All events of a run, in the order they happen. */
  function Join(ts: seq<seq<Event>>): seq<Event> {
    if ts == [] then [] else ts[0] + Join(ts[1..])
  }

  /** Rounds whose calls are numbered from `base` on, in order. */
  ghost predicate Numbered(rounds: seq<seq<PlanItem>>, base: nat) {
    forall i :: 0 <= i < |Concat(rounds)| ==> Concat(rounds)[i].index == base + i
  }

  lemma NumberedTail(rounds: seq<seq<PlanItem>>, base: nat)
    requires rounds != [] && Numbered(rounds, base)
    ensures Numbered(rounds[1..], base + |rounds[0]|)
    ensures forall c: nat :: HasCall(rounds[0], c) <==> base <= c < base + |rounds[0]|
  {
    var all, first := Concat(rounds), rounds[0];
    assert all == first + Concat(rounds[1..]);
    assert forall i :: 0 <= i < |first| ==> first[i] == all[i];
    forall i | 0 <= i < |Concat(rounds[1..])| ensures Concat(rounds[1..])[i].index == base + |first| + i {
      assert Concat(rounds[1..])[i] == all[|first| + i];
    }
    forall c: nat | base <= c < base + |first| ensures HasCall(first, c) {
      assert first[c - base].index == c;
    }
  }

  /** Every event of a run belongs to one of its calls. */
  lemma {:induction false} EventsBelong(rounds: seq<seq<PlanItem>>, base: nat, ts: seq<seq<Event>>)
    requires RunTrace(rounds, ts) && Numbered(rounds, base)
    ensures forall p :: 0 <= p < |Join(ts)| ==> base <= Join(ts)[p].call < base + |Concat(rounds)|
    decreases |rounds|
  {
    if rounds != [] {
      NumberedTail(rounds, base);
      EventsBelong(rounds[1..], base + |rounds[0]|, ts[1..]);
      var head, tail := ts[0], Join(ts[1..]);
      assert RoundTrace(rounds[0], head);
      forall p | 0 <= p < |Join(ts)| ensures base <= Join(ts)[p].call < base + |Concat(rounds)| {
        if p < |head| { assert HasCall(rounds[0], head[p].call); } else { assert Join(ts)[p] == tail[p - |head|]; }
      }
    }
  }

  lemma CountsAdd(head: seq<Event>, tail: seq<Event>, e: Event)
    ensures multiset(head + tail)[e] == multiset(head)[e] + multiset(tail)[e]
    ensures e !in head ==> multiset(head)[e] == 0
    ensures e !in tail ==> multiset(tail)[e] == 0
  {
  }

  /** Every call is executed exactly once. */
  lemma {:induction false} ExecutedOnce(rounds: seq<seq<PlanItem>>, base: nat, ts: seq<seq<Event>>, e: Event)
    requires RunTrace(rounds, ts) && Numbered(rounds, base)
    requires base <= e.call < base + |Concat(rounds)|
    ensures multiset(Join(ts))[e] == 1
    decreases |rounds|
  {
    var head, tail := ts[0], Join(ts[1..]);
    NumberedTail(rounds, base);
    assert RoundTrace(rounds[0], head);
    CountsAdd(head, tail, e);
    if e.call < base + |rounds[0]| {
      assert HasCall(rounds[0], e.call);
      EventsBelong(rounds[1..], base + |rounds[0]|, ts[1..]);
    } else {
      assert !HasCall(rounds[0], e.call);
      ExecutedOnce(rounds[1..], base + |rounds[0]|, ts[1..], e);
    }
  }

  /** The round of a call, counted from the first. */
  function RoundOf(rounds: seq<seq<PlanItem>>, base: nat, c: nat): (r: nat)
    requires base <= c < base + |Concat(rounds)|
    ensures r < |rounds|
    decreases |rounds|
  {
    if c < base + |rounds[0]| then 0 else 1 + RoundOf(rounds[1..], base + |rounds[0]|, c)
  }

  /** Calls of an earlier round are over before a call of a later round begins. */
  lemma {:induction false} RoundsInOrder(rounds: seq<seq<PlanItem>>, base: nat, ts: seq<seq<Event>>, t: seq<Event>,
                                         p: nat, q: nat)
    requires RunTrace(rounds, ts) && Numbered(rounds, base) && t == Join(ts)
    requires p < |t| && q < |t|
    requires base <= t[p].call < base + |Concat(rounds)| && base <= t[q].call < base + |Concat(rounds)|
    requires RoundOf(rounds, base, t[p].call) < RoundOf(rounds, base, t[q].call)
    ensures p < q
    decreases |rounds|
  {
    var head, tail := ts[0], Join(ts[1..]);
    var base' := base + |rounds[0]|;
    NumberedTail(rounds, base);
    HeadEvents(rounds, base, ts, t, head, tail);
    assert t[q] == tail[q - |head|];
    if p >= |head| {
      assert t[p] == tail[p - |head|];
      EventsBelong(rounds[1..], base', ts[1..]);
      RoundsInOrder(rounds[1..], base', ts[1..], tail, p - |head|, q - |head|);
    }
  }

  /** The events of the first round come first, and are those of its calls. */
  lemma HeadEvents(rounds: seq<seq<PlanItem>>, base: nat, ts: seq<seq<Event>>, t: seq<Event>, head: seq<Event>,
                   tail: seq<Event>)
    requires rounds != [] && RunTrace(rounds, ts) && Numbered(rounds, base)
    requires head == ts[0] && tail == Join(ts[1..]) && t == Join(ts)
    ensures t == head + tail && RunTrace(rounds[1..], ts[1..])
    ensures forall x :: 0 <= x < |head| ==> base <= t[x].call < base + |rounds[0]|
  {
    NumberedTail(rounds, base);
    assert RoundTrace(rounds[0], head);
    forall x | 0 <= x < |head| ensures base <= t[x].call < base + |rounds[0]| {
      assert t[x] == head[x] && HasCall(rounds[0], head[x].call);
    }
  }

  /** Calls in different rounds are ordered as their rounds are. */
  lemma {:induction false} RoundOfMonotone(rounds: seq<seq<PlanItem>>, base: nat, c: nat, d: nat)
    requires base <= c <= d < base + |Concat(rounds)|
    ensures RoundOf(rounds, base, c) <= RoundOf(rounds, base, d)
    decreases |rounds|
  {
    if c >= base + |rounds[0]| { RoundOfMonotone(rounds[1..], base + |rounds[0]|, c, d); }
  }

  lemma {:induction false} RoundHasCall(rounds: seq<seq<PlanItem>>, base: nat, c: nat)
    requires base <= c < base + |Concat(rounds)| && Numbered(rounds, base)
    ensures Concat(rounds)[c - base] in rounds[RoundOf(rounds, base, c)]
    decreases |rounds|
  {
    NumberedTail(rounds, base);
    var first, rest := rounds[0], Concat(rounds[1..]);
    if c < base + |first| {
      assert Concat(rounds)[c - base] == first[c - base];
    } else {
      assert Concat(rounds)[c - base] == rest[c - base - |first|];
      RoundHasCall(rounds[1..], base + |first|, c);
    }
  }

  /** The plan of a list of calls numbers them from zero. */
  lemma GreedyNumbered(calls: seq<CallId>, policies: seq<Policy>, limit: int)
    requires |calls| == |policies|
    ensures Concat(Greedy(Plan(calls, policies), limit)) == Plan(calls, policies)
    ensures Numbered(Greedy(Plan(calls, policies), limit), 0)
  {
    GreedySplits(Plan(calls, policies), limit);
  }

  /** In every run of the scheduler, every call starts exactly once and finishes exactly once, and nothing
      else happens. */
  lemma EveryCallRunsOnce(calls: seq<CallId>, policies: seq<Policy>, limit: int, ts: seq<seq<Event>>)
    requires |calls| == |policies| && RunTrace(Greedy(Plan(calls, policies), limit), ts)
    ensures forall e :: e in Join(ts) <==> 0 <= e.call < |calls|
    ensures forall e :: e in Join(ts) ==> multiset(Join(ts))[e] == 1
  {
    var rounds := Greedy(Plan(calls, policies), limit);
    GreedyNumbered(calls, policies, limit);
    EventsBelong(rounds, 0, ts);
    forall e: Event | e.call < |calls| ensures multiset(Join(ts))[e] == 1 && e in Join(ts) {
      ExecutedOnce(rounds, 0, ts, e);
      assert e in multiset(Join(ts));
    }
  }

  predicate NoneBeside(p: Policy) {
    !p.safeParallel || p.requiresOrder
  }

  /** A call that is unsafe or must keep its order is a barrier: in every run, everything that happens to an
      earlier call happens before it, and everything that happens to a later call happens after it. */
  lemma Barrier(calls: seq<CallId>, policies: seq<Policy>, limit: int, ts: seq<seq<Event>>, p: nat, q: nat)
    requires |calls| == |policies| && RunTrace(Greedy(Plan(calls, policies), limit), ts)
    requires p < |Join(ts)| && q < |Join(ts)| && Join(ts)[p].call < Join(ts)[q].call < |calls|
    requires || !policies[Join(ts)[p].call].safeParallel || policies[Join(ts)[p].call].requiresOrder
             || !policies[Join(ts)[q].call].safeParallel || policies[Join(ts)[q].call].requiresOrder
    ensures p < q
  {
    GreedyNumbered(calls, policies, limit);
    SeparateRounds(calls, policies, limit, Join(ts)[p].call, Join(ts)[q].call);
    RoundsInOrder(Greedy(Plan(calls, policies), limit), 0, ts, Join(ts), p, q);
  }

  /** Two calls of which one is a barrier are in different rounds, the earlier one in the earlier round. */
  lemma SeparateRounds(calls: seq<CallId>, policies: seq<Policy>, limit: int, c: nat, d: nat)
    requires |calls| == |policies| && c < d < |calls|
    requires NoneBeside(policies[c]) || NoneBeside(policies[d])
    ensures |Concat(Greedy(Plan(calls, policies), limit))| == |calls|
    ensures RoundOf(Greedy(Plan(calls, policies), limit), 0, c) < RoundOf(Greedy(Plan(calls, policies), limit), 0, d)
  {
    var plan := Plan(calls, policies);
    GreedyNumbered(calls, policies, limit);
    GreedySplits(plan, limit);
    SeparateIn(plan, limit, Greedy(plan, limit), c, d);
  }

  lemma SeparateIn(plan: seq<PlanItem>, limit: int, rounds: seq<seq<PlanItem>>, c: nat, d: nat)
    requires plan == Concat(rounds) && Numbered(rounds, 0) && forall r :: r in rounds ==> Admissible(r, limit)
    requires c < d < |plan| && (NoneBeside(plan[c].policy) || NoneBeside(plan[d].policy))
    ensures RoundOf(rounds, 0, c) < RoundOf(rounds, 0, d)
  {
    var a, b := RoundOf(rounds, 0, c), RoundOf(rounds, 0, d);
    RoundOfMonotone(rounds, 0, c, d);
    RoundHasCall(rounds, 0, c);
    RoundHasCall(rounds, 0, d);
    assert plan[c].index == c && plan[d].index == d;
    if a == b { SharedRound(limit, rounds[a], plan[c], plan[d]); }
  }

  /** Two different calls of one round may both run beside others. */
  lemma SharedRound(limit: int, r: seq<PlanItem>, x: PlanItem, y: PlanItem)
    requires Admissible(r, limit) && x in r && y in r && x != y
    ensures !NoneBeside(x.policy) && !NoneBeside(y.policy)
  {
    var i :| 0 <= i < |r| && r[i] == x;
    var j :| 0 <= j < |r| && r[j] == y;
    assert CanJoin(r[i], r[..i], limit) && CanJoin(r[j], r[..j], limit);
  }

  // ---------------------------------------------------------------------------------------------
  // What is in flight at any moment
  // ---------------------------------------------------------------------------------------------

  /** The calls started and not finished after the events `t`. */
  function InFlight(t: seq<Event>): set<nat> {
    set e | e in t && e.Start? && Finish(e.call) !in t :: e.call
  }

  /** Within a round nothing but its own calls is in flight, and at its end nothing is. */
  lemma RoundInFlight(round: seq<PlanItem>, t: seq<Event>, p: nat)
    requires RoundTrace(round, t) && p <= |t|
    ensures InFlight(t[..p]) <= CallsOf(round)
    ensures InFlight(t) == {}
  {
    forall e | e in t ensures e.call in CallsOf(round) && Finish(e.call) in t {
      var i :| 0 <= i < |t| && t[i] == e;
      assert HasCall(round, t[i].call);
      assert Finish(e.call) in multiset(t);
    }
    assert forall e :: e in t[..p] ==> e in t;
  }

  lemma InFlightAppend(done: seq<Event>, now: seq<Event>)
    requires InFlight(done) == {}
    ensures InFlight(done + now) <= InFlight(now)
  {
    forall e | e in done && e.Start? ensures Finish(e.call) in done {
      assert e.call !in InFlight(done);
    }
  }

  /** What is in flight at any moment of a run belongs to a single round. */
  lemma {:induction false} InFlightInOneRound(rounds: seq<seq<PlanItem>>, ts: seq<seq<Event>>, p: nat)
    returns (r: seq<PlanItem>)
    requires RunTrace(rounds, ts) && p <= |Join(ts)|
    ensures InFlight(Join(ts)[..p]) <= CallsOf(r)
    ensures r == [] || r in rounds
    decreases |rounds|
  {
    if rounds == [] {
      return [];
    }
    var head, tail := ts[0], Join(ts[1..]);
    assert RoundTrace(rounds[0], head);
    if p <= |head| {
      assert (head + tail)[..p] == head[..p];
      RoundInFlight(rounds[0], head, p);
      return rounds[0];
    }
    r := InFlightInOneRound(rounds[1..], ts[1..], p - |head|);
    RoundInFlight(rounds[0], head, 0);
    assert (head + tail)[..p] == head + tail[..p - |head|];
    InFlightAppend(head, tail[..p - |head|]);
  }

  lemma {:induction false} CallsOfSize(round: seq<PlanItem>)
    ensures |CallsOf(round)| <= |round|
  {
    if round != [] {
      CallsOfSize(round[1..]);
      assert round == [round[0]] + round[1..];
      assert CallsOf(round) == {round[0].index} + CallsOf(round[1..]);
    }
  }

  /** At every moment of every run at most `limit` calls are in flight. */
  lemma InFlightIsCapped(calls: seq<CallId>, policies: seq<Policy>, limit: int, ts: seq<seq<Event>>, p: nat)
    requires |calls| == |policies| && limit >= 1
    requires RunTrace(Greedy(Plan(calls, policies), limit), ts) && p <= |Join(ts)|
    ensures |InFlight(Join(ts)[..p])| <= limit
  {
    var plan := Plan(calls, policies);
    GreedySplits(plan, limit);
    var r := InFlightInOneRound(Greedy(plan, limit), ts, p);
    CallsOfSize(r);
    ToolHistory.SubsetSize(InFlight(Join(ts)[..p]), CallsOf(r));
    if r != [] { AdmissibleIsCapped(r, limit); }
  }

  /** The calls of a group among some calls. */
  function OfGroup(calls: set<nat>, policies: seq<Policy>, group: string): set<nat> {
    set c | c in calls && c < |policies| && policies[c].group == Some(group)
  }

  lemma CallsOfSnoc(init: seq<PlanItem>, last: PlanItem)
    ensures CallsOf(init + [last]) == CallsOf(init) + {last.index}
  {
  }

  lemma OfGroupAdd(calls: set<nat>, c: nat, policies: seq<Policy>, group: string)
    requires c < |policies|
    ensures OfGroup(calls + {c}, policies, group)
         == OfGroup(calls, policies, group) + if policies[c].group == Some(group) then {c} else {}
  {
  }

  lemma {:induction false} GroupOfRound(r: seq<PlanItem>, policies: seq<Policy>, group: string)
    requires forall i :: 0 <= i < |r| ==> r[i].index < |policies| && r[i].policy == policies[r[i].index]
    ensures |OfGroup(CallsOf(r), policies, group)| <= CountGroup(r, group)
  {
    if |r| == 0 {
      assert |OfGroup(CallsOf(r), policies, group)| == 0;
    } else {
      var init, last := r[..|r| - 1], r[|r| - 1];
      assert r == init + [last];
      GroupOfRound(init, policies, group);
      CountGroupAppend(init, [last], group);
      CountGroupOne(last, group);
      CallsOfSnoc(init, last);
      OfGroupAdd(CallsOf(init), last.index, policies, group);
    }
  }

  /** At every moment of every run, a group whose calls agree on a limit has at most that many calls in flight. */
  lemma GroupInFlightIsCapped(calls: seq<CallId>, policies: seq<Policy>, limit: int, ts: seq<seq<Event>>, p: nat,
                              group: string, cap: nat)
    requires |calls| == |policies| && limit >= 1
    requires RunTrace(Greedy(Plan(calls, policies), limit), ts) && p <= |Join(ts)|
    requires forall c :: 0 <= c < |policies| && policies[c].group == Some(group) ==> Concurrency(policies[c]) == cap
    ensures |OfGroup(InFlight(Join(ts)[..p]), policies, group)| <= cap
  {
    var plan := Plan(calls, policies);
    var rounds := Greedy(plan, limit);
    GreedySplits(plan, limit);
    var r := InFlightInOneRound(rounds, ts, p);
    var flying := InFlight(Join(ts)[..p]);
    ToolHistory.SubsetSize(OfGroup(flying, policies, group), OfGroup(CallsOf(r), policies, group));
    if r in rounds {
      AdmissibleIsCapped(r, limit);
      GroupOfPlannedRound(calls, policies, limit, r);
      GroupOfRound(r, policies, group);
      GroupCap(r, limit, group, cap);
    } else {
      GroupOfRound(r, policies, group);
      assert Groups(r) == [];
    }
  }

  lemma GroupOfPlannedRound(calls: seq<CallId>, policies: seq<Policy>, limit: int, r: seq<PlanItem>)
    requires |calls| == |policies| && r in Greedy(Plan(calls, policies), limit)
    ensures forall i :: 0 <= i < |r| ==> r[i].index < |policies| && r[i].policy == policies[r[i].index]
  {
    var plan := Plan(calls, policies);
    GreedySplits(plan, limit);
    forall i | 0 <= i < |r| ensures r[i].index < |policies| && r[i].policy == policies[r[i].index] {
      RoundItems(Greedy(plan, limit), r, i);
      var k :| 0 <= k < |plan| && plan[k] == r[i];
    }
  }

  /** At every moment of every run no two calls in flight hold the same resource. */
  lemma InFlightShareNothing(calls: seq<CallId>, policies: seq<Policy>, limit: int, ts: seq<seq<Event>>, p: nat,
                             c: nat, d: nat)
    requires |calls| == |policies| && limit >= 1
    requires RunTrace(Greedy(Plan(calls, policies), limit), ts) && p <= |Join(ts)|
    requires c in InFlight(Join(ts)[..p]) && d in InFlight(Join(ts)[..p]) && c != d
    ensures c < |calls| && d < |calls|
    ensures policies[c].resourceKey.Some? ==> policies[c].resourceKey != policies[d].resourceKey
  {
    var r := InFlightInOneRound(Greedy(Plan(calls, policies), limit), ts, p);
    SharedRoundResources(calls, policies, limit, r, c, d);
  }

  lemma SharedRoundResources(calls: seq<CallId>, policies: seq<Policy>, limit: int, r: seq<PlanItem>, c: nat, d: nat)
    requires |calls| == |policies| && limit >= 1 && r in Greedy(Plan(calls, policies), limit)
    requires c in CallsOf(r) && d in CallsOf(r) && c != d
    ensures c < |calls| && d < |calls|
    ensures policies[c].resourceKey.Some? ==> policies[c].resourceKey != policies[d].resourceKey
  {
    var plan := Plan(calls, policies);
    var rounds := Greedy(plan, limit);
    GreedySplits(plan, limit);
    AdmissibleIsCapped(r, limit);
    var i :| 0 <= i < |r| && r[i].index == c;
    var j :| 0 <= j < |r| && r[j].index == d;
    RoundItems(rounds, r, i);
    RoundItems(rounds, r, j);
    if j < i && r[j].policy.resourceKey.Some? { assert r[j].policy.resourceKey != r[i].policy.resourceKey; }
  }

  /** The items of a round are items of the plan. */
  lemma {:induction false} RoundItems(rounds: seq<seq<PlanItem>>, r: seq<PlanItem>, i: nat)
    requires r in rounds && i < |r|
    ensures r[i] in Concat(rounds)
    decreases |rounds|
  {
    if r != rounds[0] { RoundItems(rounds[1..], r, i); }
  }
}
