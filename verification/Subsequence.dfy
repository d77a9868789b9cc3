/** Elements picked out of a list in their order. */
module Subsequence {

  predicate Increasing(a: seq<nat>) {
    forall i, j :: 0 <= i < j < |a| ==> a[i] < a[j]
  }

  function Pick<T>(s: seq<T>, idx: seq<nat>): (r: seq<T>)
    requires forall i :: 0 <= i < |idx| ==> idx[i] < |s|
    ensures |r| == |idx| && forall i :: 0 <= i < |r| ==> r[i] == s[idx[i]]
  {
    seq(|idx|, i requires 0 <= i < |idx| => s[idx[i]])
  }

  /** The positions of a list of length `n`, in order. */
  predicate Positions(at: seq<nat>, n: nat) {
    Increasing(at) && forall i :: 0 <= i < |at| ==> at[i] < n
  }

  lemma PositionsSnoc(at: seq<nat>, n: nat)
    requires Positions(at, n)
    ensures Positions(at, n + 1) && Positions(at + [n], n + 1)
  {
  }

  lemma PickMore<T>(s: seq<T>, more: seq<T>, at: seq<nat>)
    requires Positions(at, |s|)
    ensures Positions(at, |s + more|) && Pick(s + more, at) == Pick(s, at)
  {
  }

  lemma PickSnoc<T>(s: seq<T>, x: T, at: seq<nat>)
    requires Positions(at, |s|)
    ensures Positions(at + [|s|], |s| + 1) && Pick(s + [x], at + [|s|]) == Pick(s, at) + [x]
  {
  }

  lemma PickPick<T>(s: seq<T>, at: seq<nat>, inner: seq<nat>)
    requires Positions(at, |s|) && Positions(inner, |at|)
    ensures Positions(Pick(at, inner), |s|) && Pick(Pick(s, at), inner) == Pick(s, Pick(at, inner))
  {
  }

  /** All positions moved up by `k`. */
  function Raise(at: seq<nat>, k: nat): (r: seq<nat>)
    ensures |r| == |at| && forall i :: 0 <= i < |at| ==> r[i] == at[i] + k
  {
    seq(|at|, i requires 0 <= i < |at| => at[i] + k)
  }

  lemma RaiseMembers(at: seq<nat>, k: nat)
    ensures forall i: nat :: i in Raise(at, k) <==> i >= k && i - k in at
  {
    forall i: nat | i >= k && i - k in at ensures i in Raise(at, k) {
      var p :| 0 <= p < |at| && at[p] == i - k;
      assert Raise(at, k)[p] == i;
    }
    forall i: nat | i in Raise(at, k) ensures i >= k && i - k in at {
      var p :| 0 <= p < |at| && Raise(at, k)[p] == i;
      assert at[p] == i - k;
    }
  }

  function UpTo(n: nat): (r: seq<nat>)
    ensures |r| == n && forall i :: 0 <= i < n ==> r[i] == i
  {
    seq(n, i requires 0 <= i < n => i)
  }

  lemma UpToMembers(n: nat)
    ensures forall i: nat :: i in UpTo(n) <==> i < n
  {
    forall i: nat | i < n ensures i in UpTo(n) { assert UpTo(n)[i] == i; }
  }

  /** Picking from a list that is kept whole at its front. */
  lemma PickBehind<T>(front: seq<T>, s: seq<T>, at: seq<nat>)
    requires forall i :: 0 <= i < |at| ==> at[i] < |s|
    ensures forall i :: 0 <= i < |at| ==> Raise(at, |front|)[i] < |front + s|
    ensures Pick(front + s, Raise(at, |front|)) == Pick(s, at)
  {
  }

  lemma PickFront<T>(front: seq<T>, s: seq<T>, at: seq<nat>)
    requires Positions(at, |s|)
    ensures Positions(UpTo(|front|) + Raise(at, |front|), |front + s|)
    ensures Pick(front + s, UpTo(|front|) + Raise(at, |front|)) == front + Pick(s, at)
  {
  }
}
