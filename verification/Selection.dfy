/** Removing chosen elements of a list one by one, and keeping the others in their order. */
module Selection {
  import opened Messages
  import opened Subsequence

  function Members(a: seq<nat>): set<nat> {
    set i | i in a
  }

  /** The numbers below `n` that are in the set, or those that are not, in increasing order. */
  function Ascending(n: nat, s: set<nat>, inside: bool): seq<nat> {
    if n == 0 then []
    else if (n - 1 in s) == inside then Ascending(n - 1, s, inside) + [n - 1]
    else Ascending(n - 1, s, inside)
  }

  lemma {:induction false} AscendingIs(n: nat, s: set<nat>, inside: bool)
    ensures Increasing(Ascending(n, s, inside))
    ensures forall i: nat :: i in Ascending(n, s, inside) <==> (i in s) == inside && i < n
    ensures forall i :: 0 <= i < |Ascending(n, s, inside)| ==> Ascending(n, s, inside)[i] < n
  {
    if n > 0 { AscendingIs(n - 1, s, inside); }
  }

  /** An increasing list is determined by its members. */
  lemma {:induction false} SameIncreasing(a: seq<nat>, b: seq<nat>)
    requires Increasing(a) && Increasing(b)
    requires forall x: nat :: x in a <==> x in b
    ensures a == b
  {
    assert |a| > 0 ==> a[|a| - 1] in b;
    assert |b| > 0 ==> b[|b| - 1] in a;
    if |a| > 0 {
      LastIsLargest(a);
      LastIsLargest(b);
      var a', b' := a[..|a| - 1], b[..|b| - 1];
      assert a == a' + [a[|a| - 1]] && b == b' + [b[|b| - 1]];
      forall x ensures x in a' <==> x in b' {
        InitMembers(a, x);
        InitMembers(b, x);
      }
      SameIncreasing(a', b');
    }
  }

  lemma LastIsLargest(a: seq<nat>)
    requires Increasing(a) && a != []
    ensures forall x :: x in a ==> x <= a[|a| - 1]
  {
  }

  lemma InitMembers(a: seq<nat>, x: nat)
    requires Increasing(a) && a != []
    ensures x in a[..|a| - 1] <==> x in a && x != a[|a| - 1]
  {
    assert a == a[..|a| - 1] + [a[|a| - 1]];
  }

  /** The indexes that are left. */
  function Left(n: nat, gone: set<nat>): (left: seq<nat>)
    ensures Increasing(left)
    ensures forall i: nat :: i in left <==> i < n && i !in gone
    ensures forall i :: 0 <= i < |left| ==> left[i] < n
  {
    AscendingIs(n, gone, false);
    Ascending(n, gone, false)
  }

  /** What is left of a list, in its order. */
  function Kept<T>(s: seq<T>, gone: set<nat>): seq<T> {
    Pick(s, Left(|s|, gone))
  }

  function Without<T>(s: seq<T>, j: nat): seq<T>
    requires j < |s|
  {
    s[..j] + s[j + 1..]
  }

  lemma IncreasingDistinct(a: seq<nat>, i: nat, j: nat)
    requires Increasing(a) && i < |a| && j < |a|
    ensures a[i] == a[j] <==> i == j
  {
  }

  lemma WithoutMembers(a: seq<nat>, j: nat)
    requires Increasing(a) && j < |a|
    ensures Increasing(Without(a, j))
    ensures forall x :: x in Without(a, j) <==> x in a && x != a[j]
  {
    var w := Without(a, j);
    forall x | x in a && x != a[j] ensures x in w {
      var i :| 0 <= i < |a| && a[i] == x;
      assert x == if i < j then w[i] else w[i - 1];
    }
    forall x | x in w ensures x in a && x != a[j] {
      var i :| 0 <= i < |w| && w[i] == x;
      IncreasingDistinct(a, if i < j then i else i + 1, j);
    }
  }

  /** Taking one more index away is taking its position out of what is left. */
  lemma LeftWithout(n: nat, gone: set<nat>, j: nat)
    requires j < |Left(n, gone)|
    ensures Left(n, gone + {Left(n, gone)[j]}) == Without(Left(n, gone), j)
  {
    var left := Left(n, gone);
    WithoutMembers(left, j);
    SameIncreasing(Left(n, gone + {left[j]}), Without(left, j));
  }

  lemma KeptWithout<T>(s: seq<T>, gone: set<nat>, j: nat)
    requires j < |Left(|s|, gone)|
    ensures |Kept(s, gone)| == |Left(|s|, gone)|
    ensures Kept(s, gone + {Left(|s|, gone)[j]}) == Without(Kept(s, gone), j)
  {
    LeftWithout(|s|, gone, j);
  }

  lemma LeftAll(n: nat, gone: set<nat>)
    requires gone == {}
    ensures |Left(n, gone)| == n && forall i :: 0 <= i < n ==> Left(n, gone)[i] == i
  {
    var all: seq<nat> := seq(n, i => i);
    forall x: nat ensures x in all <==> x < n {
      if x < n { assert all[x] == x; }
    }
    SameIncreasing(Left(n, gone), all);
  }

  lemma KeptAll<T>(s: seq<T>, gone: set<nat>)
    requires gone == {}
    ensures Kept(s, gone) == s
  {
    LeftAll(|s|, gone);
  }

  /** The numbers below `n`. */
  function Below(n: nat): (s: set<nat>)
    ensures forall i: nat :: i in s <==> i < n
  {
    Members(Left(n, {}))
  }

  function From(m: nat, n: nat): (r: seq<nat>)
    requires m <= n
    ensures |r| == n - m && forall i :: 0 <= i < n - m ==> r[i] == m + i
  {
    seq(n - m, i requires 0 <= i < n - m => m + i)
  }

  /** As long as only indexes below `m` are gone, the rest is left untouched. */
  lemma LeftSplit(n: nat, m: nat, gone: set<nat>)
    requires m <= n && forall i :: i in gone ==> i < m
    ensures Left(n, gone) == Left(m, gone) + From(m, n)
  {
    var both := Left(m, gone) + From(m, n);
    forall x: nat ensures x in both <==> x in Left(n, gone) {
      if m <= x < n { assert From(m, n)[x - m] == x; }
    }
    SameIncreasing(Left(n, gone), both);
  }

  // ---------------------------------------------------------------------------------------------
  // A stable order of removal
  // ---------------------------------------------------------------------------------------------

  /** Lower priority value first, then lower index. */
  predicate Before(prio: seq<nat>, a: nat, b: nat)
    requires a < |prio| && b < |prio|
  {
    prio[a] < prio[b] || (prio[a] == prio[b] && a < b)
  }

  predicate InRange(n: nat, s: set<nat>) {
    forall i :: i in s ==> i < n
  }

  /** `ord` lists exactly the candidates, in the stable order of their priorities. */
  predicate StableOrder(prio: seq<nat>, candidates: set<nat>, ord: seq<nat>) {
    && (forall i :: 0 <= i < |ord| ==> ord[i] < |prio|)
    && Members(ord) == candidates
    && (forall i, j :: 0 <= i < j < |ord| ==> Before(prio, ord[i], ord[j]))
  }

  function Level(prio: seq<nat>, candidates: set<nat>, p: nat): (level: seq<nat>)
    ensures forall i :: 0 <= i < |level| ==> level[i] < |prio| && prio[level[i]] == p && level[i] in candidates
    ensures Increasing(level)
    ensures forall x :: x in candidates && x < |prio| && prio[x] == p ==> x in level
  {
    var s := set i | i in candidates && i < |prio| && prio[i] == p;
    AscendingIs(|prio|, s, true);
    var level := Ascending(|prio|, s, true);
    assert forall i :: 0 <= i < |level| ==> level[i] in level;
    level
  }

  /** The candidates of priority below `top`, level by level. */
  function Order(prio: seq<nat>, candidates: set<nat>, top: nat): seq<nat> {
    if top == 0 then [] else Order(prio, candidates, top - 1) + Level(prio, candidates, top - 1)
  }

  lemma {:induction false} OrderLevels(prio: seq<nat>, candidates: set<nat>, top: nat)
    ensures var ord := Order(prio, candidates, top);
            && (forall i :: 0 <= i < |ord| ==> ord[i] < |prio| && prio[ord[i]] < top && ord[i] in candidates)
            && (forall x :: x in candidates && x < |prio| && prio[x] < top ==> x in ord)
            && (forall i, j :: 0 <= i < j < |ord| ==> Before(prio, ord[i], ord[j]))
  {
    if top > 0 { OrderLevels(prio, candidates, top - 1); }
  }

  lemma OrderIsStable(prio: seq<nat>, candidates: set<nat>, top: nat)
    requires InRange(|prio|, candidates)
    requires forall i :: 0 <= i < |prio| ==> prio[i] < top
    ensures StableOrder(prio, candidates, Order(prio, candidates, top))
  {
    OrderLevels(prio, candidates, top);
  }

  /** The indexes removed by the first `k` steps of an order. */
  function Gone(ord: seq<nat>, k: nat): set<nat>
    requires k <= |ord|
  {
    Members(ord[..k])
  }

  lemma GoneStep(ord: seq<nat>, k: nat)
    requires k < |ord|
    ensures Gone(ord, k + 1) == Gone(ord, k) + {ord[k]}
  {
    assert ord[..k + 1] == ord[..k] + [ord[k]];
  }

  /** The next index of an order that is not yet gone. */
  lemma StillThere(prio: seq<nat>, candidates: set<nat>, ord: seq<nat>, k: nat)
    requires StableOrder(prio, candidates, ord) && k < |ord|
    ensures ord[k] in candidates - Gone(ord, k)
    ensures forall x :: x in candidates - Gone(ord, k) ==> x < |prio| && (x == ord[k] || Before(prio, ord[k], x))
  {
    forall i | 0 <= i < k ensures ord[i] != ord[k] {
      assert Before(prio, ord[i], ord[k]);
    }
    assert ord[k] in Members(ord);
    forall i | 0 <= i < k ensures ord[i] in Gone(ord, k) {
      assert ord[..k][i] == ord[i];
    }
    forall x | x in candidates - Gone(ord, k) ensures x < |prio| && (x == ord[k] || Before(prio, ord[k], x)) {
      assert x in ord;
      var j :| 0 <= j < |ord| && ord[j] == x;
    }
  }

  /** The first of the lowest among the candidates that are left is the next in the stable order. */
  lemma ChosenIsNext(prio: seq<nat>, candidates: set<nat>, ord: seq<nat>, k: nat, open: seq<nat>, j: nat)
    requires StableOrder(prio, candidates, ord) && k <= |ord|
    requires Increasing(open) && Members(open) == candidates - Gone(ord, k)
    requires j < |open|
    requires forall i :: 0 <= i < |open| ==> open[i] < |prio|
    requires forall i :: 0 <= i < |open| ==> prio[open[j]] <= prio[open[i]]
    requires forall i :: 0 <= i < j ==> prio[open[j]] < prio[open[i]]
    ensures k < |ord| && open[j] == ord[k]
  {
    assert open[j] in Members(open);
    assert ord[..|ord|] == ord;
    assert k < |ord|;
    StillThere(prio, candidates, ord, k);
    assert ord[k] in open;
    var i :| 0 <= i < |open| && open[i] == ord[k];
    assert prio[open[j]] <= prio[open[i]];
    assert i < j ==> prio[open[j]] < prio[open[i]];
  }

  /** Nothing is left to choose once the order is used up, and only then. */
  lemma UsedUp(prio: seq<nat>, candidates: set<nat>, ord: seq<nat>, k: nat)
    requires StableOrder(prio, candidates, ord) && k <= |ord|
    ensures candidates - Gone(ord, k) == {} <==> k == |ord|
  {
    if k < |ord| {
      StillThere(prio, candidates, ord, k);
    } else {
      assert ord[..k] == ord;
    }
  }

  /** `min(range(n), key=...)`: the first position of the lowest score. */
  method FirstLowest(scores: seq<nat>) returns (j: nat)
    requires scores != []
    ensures j < |scores|
    ensures forall i :: 0 <= i < |scores| ==> scores[j] <= scores[i]
    ensures forall i :: 0 <= i < j ==> scores[j] < scores[i]
  {
    j := 0;
    for n := 1 to |scores|
      invariant j < n
      invariant forall i :: 0 <= i < n ==> scores[j] <= scores[i]
      invariant forall i :: 0 <= i < j ==> scores[j] < scores[i]
    {
      if scores[n] < scores[j] { j := n; }
    }
  }

  // ---------------------------------------------------------------------------------------------
  // Removing until a budget is met
  // ---------------------------------------------------------------------------------------------

  predicate Indexes(n: nat, ord: seq<nat>) {
    (forall i :: 0 <= i < |ord| ==> ord[i] < n) && Distinct(ord)
  }

  lemma StableIndexes(prio: seq<nat>, candidates: set<nat>, ord: seq<nat>)
    requires StableOrder(prio, candidates, ord)
    ensures Indexes(|prio|, ord)
  {
    forall i, j | 0 <= i < j < |ord| ensures ord[i] != ord[j] {
      assert Before(prio, ord[i], ord[j]);
    }
  }

  /** What is left after `k` removals. */
  function After(ms: seq<Message>, ord: seq<nat>, k: nat): seq<Message>
    requires k <= |ord|
  {
    Kept(ms, Gone(ord, k))
  }

  /** After `k` removals the budget is met, next to `fixed` tokens that stay in any case. */
  predicate Fits(fixed: nat, ms: seq<Message>, ord: seq<nat>, k: nat, budget: nat)
    requires k <= |ord|
  {
    fixed + Tokens(After(ms, ord, k)) <= budget
  }

  predicate AllOver(fixed: nat, ms: seq<Message>, ord: seq<nat>, k: nat, budget: nat)
    requires k <= |ord|
  {
    forall j :: 0 <= j < k ==> !Fits(fixed, ms, ord, j, budget)
  }

  /** `k` is the least number of removals that meets the budget, or all of them if none does. */
  predicate StopsAt(fixed: nat, ms: seq<Message>, ord: seq<nat>, k: nat, budget: nat) {
    && k <= |ord|
    && AllOver(fixed, ms, ord, k, budget)
    && (Fits(fixed, ms, ord, k, budget) || k == |ord|)
  }

  /** There is exactly one such number. */
  lemma StopsOnce(fixed: nat, ms: seq<Message>, ord: seq<nat>, j: nat, k: nat, budget: nat)
    requires StopsAt(fixed, ms, ord, j, budget) && StopsAt(fixed, ms, ord, k, budget)
    ensures j == k
  {
  }

  lemma TokensCons(m: Message, b: seq<Message>)
    ensures Tokens([m] + b) == MessageTokens(m) + Tokens(b)
  {
    assert ([m] + b)[1..] == b;
  }

  lemma TokensInsert(a: seq<Message>, m: Message, b: seq<Message>)
    ensures Tokens(a + ([m] + b)) == Tokens(a + b) + MessageTokens(m)
  {
    TokensAppend(a, [m] + b);
    TokensAppend(a, b);
    TokensCons(m, b);
  }

  lemma TokensWithout(ms: seq<Message>, j: nat)
    requires j < |ms|
    ensures Tokens(ms) == Tokens(Without(ms, j)) + MessageTokens(ms[j])
  {
    SplitAround(ms, j);
    TokensInsert(ms[..j], ms[j], ms[j + 1..]);
  }

  lemma SplitAt<T>(s: seq<T>, k: nat)
    requires k <= |s|
    ensures s == s[..k] + s[k..]
  {
  }

  lemma SplitAround<T>(s: seq<T>, j: nat)
    requires j < |s|
    ensures s == s[..j] + ([s[j]] + s[j + 1..])
  {
  }

  /** Where an index that is left stands among those left. */
  lemma PositionOf(n: nat, gone: set<nat>, x: nat) returns (j: nat)
    requires x < n && x !in gone
    ensures j < |Left(n, gone)| && Left(n, gone)[j] == x
  {
    assert x in Left(n, gone);
    j :| 0 <= j < |Left(n, gone)| && Left(n, gone)[j] == x;
  }

  lemma NotGone(n: nat, ord: seq<nat>, k: nat)
    requires Indexes(n, ord) && k < |ord|
    ensures ord[k] < n && ord[k] !in Gone(ord, k)
  {
  }

  /** One removal takes one message out, with its tokens. */
  lemma AfterStep(ms: seq<Message>, ord: seq<nat>, k: nat)
    requires Indexes(|ms|, ord) && k < |ord|
    ensures Tokens(After(ms, ord, k)) == Tokens(After(ms, ord, k + 1)) + MessageTokens(ms[ord[k]])
  {
    NotGone(|ms|, ord, k);
    GoneStep(ord, k);
    var j := PositionOf(|ms|, Gone(ord, k), ord[k]);
    KeptWithout(ms, Gone(ord, k), j);
    TokensWithout(After(ms, ord, k), j);
  }

  lemma NothingPicked(ms: seq<Message>, ord: seq<nat>, k: nat)
    requires Indexes(|ms|, ord) && k <= |ord| && k == 0
    ensures Tokens(Pick(ms, ord[..k])) == 0
  {
  }

  /** Nothing is lost from the estimate: what is left and what was removed add up. */
  lemma {:induction false} TokensConserved(ms: seq<Message>, ord: seq<nat>, k: nat)
    requires Indexes(|ms|, ord) && k <= |ord|
    ensures Tokens(ms) == Tokens(After(ms, ord, k)) + Tokens(Pick(ms, ord[..k]))
  {
    if k == 0 {
      KeptAll(ms, Gone(ord, k));
      NothingPicked(ms, ord, k);
    } else {
      TokensConserved(ms, ord, k - 1);
      AfterStep(ms, ord, k - 1);
      TokensPickSnoc(ms, ord, k - 1);
    }
  }

  lemma TokensPickSnoc(ms: seq<Message>, ord: seq<nat>, k: nat)
    requires Indexes(|ms|, ord) && k < |ord|
    ensures Tokens(Pick(ms, ord[..k + 1])) == Tokens(Pick(ms, ord[..k])) + MessageTokens(ms[ord[k]])
  {
    var a, m := Pick(ms, ord[..k]), ms[ord[k]];
    assert Pick(ms, ord[..k + 1]) == a + [m];
    TokensSnoc(a, m);
  }

  lemma TokensSnoc(a: seq<Message>, m: Message)
    ensures Tokens(a + [m]) == Tokens(a) + MessageTokens(m)
  {
    TokensAppend(a, [m]);
    TokensCons(m, []);
  }
}
