/** Turns that fail, in progress or after they completed, and what they leave in the history. */
module ReplyFailures {
  import opened Messages
  import opened ReplyState
  import opened ReplyRuns

  // ---------------------------------------------------------------------------------------------
  // The course of a turn
  // ---------------------------------------------------------------------------------------------

  /** Steps that neither open nor end a turn. */
  predicate WithinTurn(step: Step) {
    step.Append? || step.Spend? || step.Ask?
  }

  predicate Body(steps: seq<Step>) {
    forall i :: 0 <= i < |steps| ==> WithinTurn(steps[i])
  }

  /** The messages some steps append. */
  function Appended(steps: seq<Step>): seq<Message> {
    if steps == [] then []
    else
      var init, last := steps[..|steps| - 1], steps[|steps| - 1];
      if last.Append? then Appended(init) + [last.message] else Appended(init)
  }

  /** The turn and the checkpoints are the same, the phase of the turn aside. */
  predicate SameTurn(s: State, s': State) {
    && s.active.Some? && s'.active.Some? && s'.checkpoints == s.checkpoints && s'.turn == s.turn
    && s'.active.value.turnId == s.active.value.turnId
    && s'.active.value.streamId == s.active.value.streamId
    && s'.active.value.checkpointId == s.active.value.checkpointId
  }

  lemma WithinTurnStep(s: State, step: Step)
    requires s.active.Some? && WithinTurn(step)
    ensures SameTurn(s, Next(s, step))
    ensures Next(s, step).history == if step.Append? then s.history + [step.message] else s.history
  {
  }

  /** While a turn is in progress, commands wait: the turn and the checkpoints stay, and the history grows by
      what is appended and by nothing else. */
  lemma {:induction false} DuringTurn(t: Trace, body: seq<Step>)
    requires t.state.active.Some? && Body(body)
    ensures var t' := Run(t, body);
            && SameTurn(t.state, t'.state) && t'.taken == t.taken && t'.asked == t.asked
            && t'.state.history == t.state.history + Appended(body)
  {
    if body == [] {
      assert t.state.history + Appended(body) == t.state.history;
    } else {
      var init, last := body[..|body| - 1], body[|body| - 1];
      DuringTurn(t, init);
      WithinTurnStep(Run(t, init).state, last);
      GrowByStep(t.state.history, Appended(init), body);
    }
  }

  lemma GrowByStep(h: seq<Message>, was: seq<Message>, body: seq<Step>)
    requires body != [] && was == Appended(body[..|body| - 1])
    ensures h + Appended(body)
         == if body[|body| - 1].Append? then (h + was) + [body[|body| - 1].message] else h + was
  {
    var last := body[|body| - 1];
    if last.Append? { assert h + (was + [last.message]) == (h + was) + [last.message]; }
  }

  /** Steps after a turn that ask for nothing. */
  predicate Idle(steps: seq<Step>) {
    forall i :: 0 <= i < |steps| ==> steps[i].Append? || steps[i].Spend?
  }

  lemma {:induction false} AfterTurn(t: Trace, late: seq<Step>)
    requires t.state.active.None? && Idle(late)
    ensures var t' := Run(t, late);
            && t'.state.active.None? && t'.state.checkpoints == t.state.checkpoints
            && t'.state.lastFinish == t.state.lastFinish && t'.state.latest == t.state.latest
            && t'.taken == t.taken && t'.state.history == t.state.history + Appended(late)
  {
    if late == [] {
      assert t.state.history + Appended(late) == t.state.history;
    } else {
      AfterTurn(t, late[..|late| - 1]);
      GrowByStep(t.state.history, Appended(late[..|late| - 1]), late);
    }
  }

  lemma NewestIsFound(cps: seq<Checkpoint>, c: Checkpoint)
    ensures LastNamed(Newest(cps + [c]), c.id) == Some(c)
  {
    var kept := Newest(cps + [c]);
    assert kept[|kept| - 1] == c;
  }

  // ---------------------------------------------------------------------------------------------
  // What a discard leaves
  // ---------------------------------------------------------------------------------------------

  /** Dropping trailing transient messages from `h + more` leaves `h` alone. */
  predicate Holds(h: seq<Message>, more: seq<Message>, base: nat) {
    |h| <= base || !h[|h| - 1].transient || exists i :: 0 <= i < |more| && !more[i].transient
  }

  /** Dropping trailing transient messages from `h + more` leaves `h` and nothing else. */
  predicate Drops(h: seq<Message>, more: seq<Message>, base: nat) {
    && (forall i :: 0 <= i < |more| ==> more[i].transient)
    && (|more| == 0 || base <= |h|)
    && (|h| <= base || !h[|h| - 1].transient)
  }

  lemma LastSolid(h: seq<Message>, more: seq<Message>, all: seq<Message>)
    requires |h| > 0 && all == h + more
    ensures (exists i :: |h| - 1 <= i < |all| && !all[i].transient)
            <==> !h[|h| - 1].transient || exists i :: 0 <= i < |more| && !more[i].transient
  {
    assert all[|h| - 1] == h[|h| - 1];
    forall i | 0 <= i < |more| ensures all[|h| + i] == more[i] { }
    if i :| |h| - 1 <= i < |all| && !all[i].transient {
      assert i >= |h| ==> all[i] == more[i - |h|];
    }
  }

  lemma HoldsIff(h: seq<Message>, more: seq<Message>, base: nat)
    ensures |h| <= SolidLength(h + more, base) <==> Holds(h, more, base)
  {
    SolidLengthIff(h + more, |h|, base);
    if base < |h| { LastSolid(h, more, h + more); }
  }

  lemma DropsGives(h: seq<Message>, more: seq<Message>, base: nat)
    requires Drops(h, more, base)
    ensures SolidLength(h + more, base) == |h|
  {
    HoldsIff(h, more, base);
    TailIndex(h, more, h + more);
  }

  lemma TailIndex<T>(h: seq<T>, more: seq<T>, all: seq<T>)
    requires all == h + more
    ensures forall i :: |h| <= i < |all| ==> all[i] == more[i - |h|]
  {
  }

  lemma GivesDrops(h: seq<Message>, more: seq<Message>, base: nat)
    requires SolidLength(h + more, base) == |h|
    ensures Drops(h, more, base)
  {
    var all := h + more;
    HoldsIff(h, more, base);
    forall i | 0 <= i < |more| ensures more[i].transient { assert all[|h| + i] == more[i]; }
  }

  lemma DropsIff(h: seq<Message>, more: seq<Message>, base: nat)
    ensures SolidLength(h + more, base) == |h| <==> Drops(h, more, base)
  {
    if Drops(h, more, base) { DropsGives(h, more, base); }
    if SolidLength(h + more, base) == |h| { GivesDrops(h, more, base); }
  }

  lemma DiscardGivesIff(h: seq<Message>, all: seq<Message>, base: nat)
    ensures all[..SolidLength(all, base)] == h <==> h <= all && Drops(h, all[|h|..], base)
  {
    if h <= all {
      assert all == h + all[|h|..];
      DropsIff(h, all[|h|..], base);
    }
  }

  // ---------------------------------------------------------------------------------------------
  // What a failed turn leaves
  // ---------------------------------------------------------------------------------------------

  /** A turn up to its failure: its opening, the steps of its body, and, if it completed before it failed, the
      steps after its completion. */
  function Course(t: Trace, o: Opening, body: seq<Step>, late: Option<seq<Step>>): Trace {
    var t1 := Run(Advance(t, Begin(o)), body);
    if late.None? then t1 else Run(Advance(t1, Complete), late.value)
  }

  /** The state in which such a turn fails. */
  function FailureOf(t: Trace, o: Opening, body: seq<Step>, late: Option<seq<Step>>, base: nat): State {
    FailedWith(Course(t, o, body, late).state, o.turnId, o.message.transient, base)
  }

  /** A failure that finds no turn to undo, because it has not begun or has ended, discards what a transient turn
      discards and does nothing else. */
  lemma FailWithoutTurn(s: State, turnId: string, transient: bool, base: nat)
    requires s.active.None? || s.active.value.turnId != turnId
    ensures FailedWith(s, turnId, transient, base) == if transient then Discarded(s, base) else s
    ensures FailedWith(s, turnId, transient, base).history == s.history
            <==> !transient || Holds(s.history, [], base)
  {
    assert s.history + [] == s.history;
    HoldsIff(s.history, [], base);
    assert s.history[..|s.history|] == s.history;
  }

  function Added(o: Opening, body: seq<Step>): seq<Message> {
    [o.message] + Appended(body)
  }

  lemma BodyHistory(t: Trace, o: Opening, body: seq<Step>)
    requires Body(body)
    ensures var t1 := Run(Advance(t, Begin(o)), body);
            && t1.state.history == t.state.history + Added(o, body)
            && SameTurn(Advance(t, Begin(o)).state, t1.state)
  {
    DuringTurn(Advance(t, Begin(o)), body);
    assert t.state.history + [o.message] + Appended(body) == t.state.history + Added(o, body);
  }

  /** What the failure of a turn in progress leaves. */
  lemma FailureCuts(s0: State, s: State, o: Opening, base: nat)
    requires o.checkpointId != "" && SameTurn(Begun(s0, o), s)
    ensures FailedWith(s, o.turnId, o.message.transient, base).history
         == Cut(if o.message.transient then s.history[..SolidLength(s.history, base)] else s.history, o.index)
  {
    NewestIsFound(s0.checkpoints, Checkpoint(o.checkpointId, o.turnId, o.streamId, o.index, s0.usage));
  }

  lemma FailureInProgress(t: Trace, o: Opening, body: seq<Step>, base: nat)
    requires o.checkpointId != "" && Body(body)
    ensures var all := t.state.history + Added(o, body);
            FailureOf(t, o, body, None, base).history
            == Cut(if o.message.transient then all[..SolidLength(all, base)] else all, o.index)
  {
    BodyHistory(t, o, body);
    FailureCuts(t.state, Run(Advance(t, Begin(o)), body).state, o, base);
  }

  /** The history of a turn that completed, and what was appended since. */
  function AfterCompletion(h: seq<Message>, o: Opening, body: seq<Step>, late: seq<Step>): seq<Message> {
    (if o.message.transient then Cut(h + Added(o, body), o.index) else h + Added(o, body)) + Appended(late)
  }

  lemma FailureAfterCompletion(t: Trace, o: Opening, body: seq<Step>, late: seq<Step>, base: nat)
    requires Body(body) && Idle(late)
    ensures var all := AfterCompletion(t.state.history, o, body, late);
            && Course(t, o, body, Some(late)).state.history == all
            && FailureOf(t, o, body, Some(late), base).history
               == if o.message.transient then all[..SolidLength(all, base)] else all
  {
    BodyHistory(t, o, body);
    AfterTurn(Advance(Run(Advance(t, Begin(o)), body), Complete), late);
  }

  /** When a failed turn leaves the history as it was, judged by its recorded length, the transient marks of the
      messages and the base.  In progress it is cut back; completed, nothing undoes it but the cut of a transient
      turn's completion. */
  predicate LeavesNoTrace(h: seq<Message>, o: Opening, body: seq<Step>, late: Option<seq<Step>>, base: nat) {
    if late.None? then
      || (o.index == |h| && (!o.message.transient || Holds(h, Added(o, body), base)))
      || (o.index > |h| && o.message.transient && Drops(h, Added(o, body), base))
    else
      var all := AfterCompletion(h, o, body, late.value);
      o.message.transient && h <= all && Drops(h, all[|h|..], base)
  }

  /** A turn that fails, in progress or after it completed, leaves the history as it was exactly under that
      condition, from any state, with any recorded length and any messages, usage and requests in it. */
  lemma FailedTurnIff(t: Trace, o: Opening, body: seq<Step>, late: Option<seq<Step>>, base: nat)
    requires o.checkpointId != "" && Body(body) && (late.Some? ==> Idle(late.value))
    ensures FailureOf(t, o, body, late, base).history == t.state.history
            <==> LeavesNoTrace(t.state.history, o, body, late, base)
  {
    var h := t.state.history;
    if late.None? {
      FailureInProgress(t, o, body, base);
      CutsBack(h, Added(o, body), o.index, o.message.transient, base);
    } else {
      FailureAfterCompletion(t, o, body, late.value, base);
      DiscardGivesIff(h, AfterCompletion(h, o, body, late.value), base);
    }
  }

  lemma CutsBack(h: seq<Message>, more: seq<Message>, n: nat, transient: bool, base: nat)
    requires |more| > 0
    ensures var all := h + more;
            Cut(if transient then all[..SolidLength(all, base)] else all, n) == h
            <==> || (n == |h| && (!transient || Holds(h, more, base)))
                 || (n > |h| && transient && Drops(h, more, base))
  {
    HoldsIff(h, more, base);
    DropsIff(h, more, base);
    var all := h + more;
    PrefixCut(h, all, if transient then SolidLength(all, base) else |all|, n);
    assert all[..|all|] == all;
  }

  lemma PrefixCut(h: seq<Message>, all: seq<Message>, d: nat, n: nat)
    requires h <= all && d <= |all|
    ensures Cut(all[..d], n) == h <==> (if d < n then d else n) == |h|
  {
  }

  /** Steps that leave a turn in progress, among them those that rewrite the history. */
  predicate KeepsTurn(step: Step) {
    WithinTurn(step) || step.Rewrite? || step.Discard?
  }

  lemma {:induction false} TurnStays(t: Trace, steps: seq<Step>)
    requires t.state.active.Some? && forall i :: 0 <= i < |steps| ==> KeepsTurn(steps[i])
    ensures SameTurn(t.state, Run(t, steps).state)
  {
    if steps != [] {
      var init, last := steps[..|steps| - 1], steps[|steps| - 1];
      TurnStays(t, init);
      if WithinTurn(last) { WithinTurnStep(Run(t, init).state, last); }
    }
  }

  /** Even if the history is rewritten while a turn runs, as a trim does at its start, the turn leaves the history
      as it was when it fails exactly if the rewriting left the earlier messages in their places and the cut at
      the recorded length, or a discard, takes away all the others. */
  lemma RewrittenTurnIff(t: Trace, o: Opening, steps: seq<Step>, base: nat)
    requires o.checkpointId != "" && forall i :: 0 <= i < |steps| ==> KeepsTurn(steps[i])
    ensures var h, now := t.state.history, Run(Advance(t, Begin(o)), steps).state.history;
            var left := if o.message.transient then now[..SolidLength(now, base)] else now;
            FailureOf(t, o, steps, None, base).history == h
            <==> h <= left && (o.index == |h| || (o.index > |h| && |left| == |h|))
  {
    TurnStays(Advance(t, Begin(o)), steps);
    var now := Run(Advance(t, Begin(o)), steps).state.history;
    FailureCuts(t.state, Run(Advance(t, Begin(o)), steps).state, o, base);
    CutGives(t.state.history, if o.message.transient then now[..SolidLength(now, base)] else now, o.index);
  }

  lemma CutGives(h: seq<Message>, left: seq<Message>, n: nat)
    ensures Cut(left, n) == h <==> h <= left && (n == |h| || (n > |h| && |left| == |h|))
  {
    assert left[..|left|] == left;
  }

  /** With the right length.  In progress, a turn leaves no trace except when it consists of transient messages
      only and the message right before it, above the base, is transient too.  Completed, it leaves no trace
      only if it is transient, only transient messages were appended since, none of them within the base, and
      the message right before it is not transient or lies within the base. */
  lemma FailedTurnLeavesNoTraceIff(t: Trace, o: Opening, body: seq<Step>, late: Option<seq<Step>>, base: nat)
    requires o.checkpointId != "" && Body(body) && (late.Some? ==> Idle(late.value))
    requires o.index == |t.state.history|
    ensures var h, more := t.state.history, Appended(body);
            FailureOf(t, o, body, late, base).history == h
            <==> if late.None? then
                   || !o.message.transient
                   || |h| <= base || !h[|h| - 1].transient
                   || exists i :: 0 <= i < |more| && !more[i].transient
                 else o.message.transient && Drops(h, Appended(late.value), base)
  {
    FailedTurnIff(t, o, body, late, base);
    var h, more := t.state.history, Added(o, body);
    if late.None? {
      if o.message.transient { AddedSolid(o, body); }
    } else {
      assert (h + more)[..|h|] == h;
      assert (h + Appended(late.value))[|h|..] == Appended(late.value);
    }
  }

  lemma AddedSolid(o: Opening, body: seq<Step>)
    requires o.message.transient
    ensures var added, more := Added(o, body), Appended(body);
            (exists i :: 0 <= i < |added| && !added[i].transient)
            <==> exists i :: 0 <= i < |more| && !more[i].transient
  {
    var added, more := Added(o, body), Appended(body);
    forall i | 0 <= i < |more| ensures added[i + 1] == more[i] { }
    if i :| 0 <= i < |added| && !added[i].transient {
      assert added[i] == more[i - 1];
    }
  }

  /** A turn that is not transient, completes, and fails afterwards keeps its input, its answer and everything
      else that was appended. */
  lemma CompletedTurnStays(t: Trace, o: Opening, body: seq<Step>, late: seq<Step>, base: nat)
    requires Body(body) && Idle(late) && !o.message.transient
    ensures var s := FailureOf(t, o, body, Some(late), base);
            && s.history == t.state.history + Added(o, body) + Appended(late)
            && t.state.history < s.history && s.lastFinish == Completed
  {
    FailureAfterCompletion(t, o, body, late, base);
    CompletedCourse(t, o, body, late);
  }

  /** What is left of a turn when it has completed. */
  lemma CompletedCourse(t: Trace, o: Opening, body: seq<Step>, late: seq<Step>)
    requires Body(body) && Idle(late)
    ensures var t' := Course(t, o, body, Some(late));
            && t'.state.active.None? && t'.state.lastFinish == Completed
            && t'.state.checkpoints == Begun(t.state, o).checkpoints
            && t'.state.latest.Some? && t'.state.latest.value.checkpointId == o.checkpointId
            && t'.state.latest.value.turnId == o.turnId && t'.state.latest.value.input == o.input
            && t'.taken == t.taken[o.checkpointId := t.state.history]
  {
    var t0 := Advance(t, Begin(o));
    DuringTurn(t0, body);
    AfterTurn(Advance(Run(t0, body), Complete), late);
  }

  /** A transient turn that completes cuts the history back to its recorded length: it leaves the history as it
      was exactly when that length was right. */
  lemma TransientCompletionIff(t: Trace, o: Opening, body: seq<Step>)
    requires Body(body) && o.message.transient
    ensures Advance(Run(Advance(t, Begin(o)), body), Complete).state.history == t.state.history
            <==> o.index == |t.state.history|
  {
    BodyHistory(t, o, body);
    var all := t.state.history + Added(o, body);
    PrefixCut(t.state.history, all, |all|, o.index);
    assert all[..|all|] == all;
  }

  // ---------------------------------------------------------------------------------------------
  // Discarding too much
  // ---------------------------------------------------------------------------------------------

  /** From any sound state: a discard before the failure lets the turn be undone exactly when it does not reach
      below the turn's beginning.  When it does, the turn's checkpoint is left beyond the end of the history. */
  lemma DiscardThenFailIff(t: Trace, base: nat)
    requires Sound(t) && t.state.active.Some?
    ensures var a := t.state.active.value;
            var before := t.taken[a.checkpointId];
            var s' := FailedWith(t.state, a.turnId, true, base);
            && (s'.history == before <==> StaysAbove(t.state.history, |before|, base))
            && Has(s'.checkpoints, a.checkpointId)
            && (s'.history != before ==> s'.history < before)
            && s'.lastFinish == Failed
  {
    var a, h := t.state.active.value, t.state.history;
    var c := LastNamed(t.state.checkpoints, a.checkpointId).value;
    assert Remembers(t, c);
    SolidLengthIff(h, c.historyLength, base);
    WithinKeeps(t.state.checkpoints, c.historyLength);
    CutPrefix(h, c.historyLength, SolidLength(h, base));
  }

  lemma CutPrefix(h: seq<Message>, n: nat, d: nat)
    requires n <= |h| && d <= |h|
    ensures Cut(h[..d], n) == (if n <= d then h[..n] else h[..d])
    ensures d < n ==> h[..d] < h[..n]
  {
  }

  /** A transient turn after a transient message above the base: when the turn fails, the discard takes that
      message along, and the turn's checkpoint is left beyond the history. */
  lemma DiscardTooMuch(t: Trace, o: Opening, base: nat)
    requires Sound(t) && Clean(t, Begin(o)) && o.message.transient
    requires |t.state.history| > base && t.state.history[|t.state.history| - 1].transient
    ensures var t1 := Advance(t, Begin(o));
            var t2 := Advance(Advance(t1, Discard(base)), Fail(o.turnId));
            && Sound(t1) && !Spares(t1.state, base)
            && t2.state.history < t.state.history && t2.state.lastFinish == Failed
            && Has(t2.state.checkpoints, o.checkpointId) && !Faithful(t2)
  {
    var t1 := Advance(t, Begin(o));
    var h := t.state.history;
    SoundStep(t, Begin(o));
    NothingStaysAbove(h, o.message, base);
    DiscardThenFailIff(t1, base);
    var kept := t1.state.checkpoints;
    assert kept[|kept| - 1] == NewCheckpoint(t, o);
    FaithfulLengths(Advance(Advance(t1, Discard(base)), Fail(o.turnId)), o.checkpointId);
  }

  lemma NothingStaysAbove(h: seq<Message>, m: Message, base: nat)
    requires m.transient && |h| > base && h[|h| - 1].transient
    ensures !StaysAbove(h + [m], |h|, base)
  {
  }

  lemma FaithfulLengths(t: Trace, id: string)
    requires Has(t.state.checkpoints, id) && id in t.taken
    ensures Faithful(t) ==> |t.taken[id]| <= |t.state.history|
  {
    var i :| 0 <= i < |t.state.checkpoints| && t.state.checkpoints[i].id == id;
    var c := t.state.checkpoints[i];
    assert Remembers(t, c) ==> |t.taken[id]| == c.historyLength;
  }

  /** It happens: a transient turn is stopped, and the next turn is transient and fails. */
  lemma DiscardTooMuchHappens(t: Trace, first: Opening, stop: Request, second: Opening, base: nat)
    requires Sound(t) && Clean(t, Begin(first)) && first.message.transient && second.message.transient
    requires stop.action == Stop && stop.turnId == "" && stop.streamId == "" && base <= |t.state.history|
    requires second.checkpointId != "" && second.checkpointId != first.checkpointId
    requires second.checkpointId !in t.taken && second.index == |t.state.history| + 1
    ensures var t1 := Advance(Advance(Advance(t, Begin(first)), Ask(stop)), Finalize(first.turnId, true));
            var t2 := Advance(Advance(Advance(t1, Begin(second)), Discard(base)), Fail(second.turnId));
            && Clean(t1, Begin(second)) && Sound(t1) && t1.state.lastFinish == Stopped
            && t1.state.history == t.state.history + [first.message]
            && t2.state.history < t1.state.history && t2.state.lastFinish == Failed
            && Has(t2.state.checkpoints, second.checkpointId) && !Faithful(t2)
  {
    var t1 := StoppedTurn(t, first, stop);
    DiscardTooMuch(t1, second, base);
  }

  /** A turn that is stopped right after it begins keeps its input in the history. */
  lemma StoppedTurn(t: Trace, o: Opening, stop: Request) returns (t': Trace)
    requires Sound(t) && Clean(t, Begin(o))
    requires stop.action == Stop && stop.turnId == "" && stop.streamId == ""
    ensures t' == Advance(Advance(Advance(t, Begin(o)), Ask(stop)), Finalize(o.turnId, true))
    ensures Sound(t') && t'.state.active.None? && t'.state.lastFinish == Stopped
    ensures t'.state.history == t.state.history + [o.message]
    ensures t'.taken == t.taken[o.checkpointId := t.state.history]
  {
    var t1 := Advance(t, Begin(o));
    var t2 := Advance(t1, Ask(stop));
    t' := Advance(t2, Finalize(o.turnId, true));
    SoundStep(t, Begin(o));
    SoundStep(t1, Ask(stop));
    SoundStep(t2, Finalize(o.turnId, true));
    StopEnds(t1.state, stop);
  }

  lemma StopEnds(s: State, stop: Request)
    requires s.active.Some? && stop.action == Stop && stop.turnId == "" && stop.streamId == ""
    ensures var s' := Finalized(Requested(s, stop).0, s.active.value.turnId, true).0;
            s'.history == s.history && s'.active.None? && s'.lastFinish == Stopped
  {
  }

  /** After its completion a transient turn is no shelter, whatever it appended: its messages are gone, and the
      discard takes the transient message before it.  The turn's checkpoint is left beyond the history. */
  lemma CompletedDiscardTooMuch(t: Trace, o: Opening, body: seq<Step>, none: seq<Step>, base: nat)
    requires Sound(t) && Clean(t, Begin(o)) && o.message.transient && Body(body) && |none| == 0
    requires |t.state.history| > base && t.state.history[|t.state.history| - 1].transient
    ensures var t1 := Course(t, o, body, Some(none));
            var t2 := Advance(Advance(t1, Discard(base)), Fail(o.turnId));
            && t1.state.history == t.state.history && t1.state.active.None?
            && t2.state == FailureOf(t, o, body, Some(none), base)
            && t2.state.history < t.state.history && t2.state.checkpoints == t1.state.checkpoints
            && Has(t2.state.checkpoints, o.checkpointId) && !Faithful(t2)
  {
    var t1 := Course(t, o, body, Some(none));
    CompletedCourse(t, o, body, none);
    CutIsBefore(t, o, body, none);
    FailureAfterCompletion(t, o, body, none, base);
    NewestHasLast(t.state.checkpoints, NewCheckpoint(t, o));
    EndedDiscard(t1, o.turnId, o.checkpointId, base);
  }

  lemma EndedDiscard(t: Trace, turnId: string, id: string, base: nat)
    requires t.state.active.None? && Has(t.state.checkpoints, id) && id in t.taken && t.taken[id] == t.state.history
    requires |t.state.history| > base && t.state.history[|t.state.history| - 1].transient
    ensures var t' := Advance(Advance(t, Discard(base)), Fail(turnId));
            && t'.state == FailedWith(t.state, turnId, true, base)
            && t'.state.history < t.state.history && t'.state.checkpoints == t.state.checkpoints && !Faithful(t')
  {
    DiscardShortens(t.state.history, base);
    FaithfulLengths(Advance(Advance(t, Discard(base)), Fail(turnId)), id);
  }

  lemma CutIsBefore(t: Trace, o: Opening, body: seq<Step>, none: seq<Step>)
    requires o.message.transient && o.index == |t.state.history| && |none| == 0
    ensures AfterCompletion(t.state.history, o, body, none) == t.state.history
  {
    assert |Appended(none)| == 0;
    assert (t.state.history + Added(o, body))[..o.index] == t.state.history;
  }

  lemma DiscardShortens(h: seq<Message>, base: nat)
    requires |h| > base && h[|h| - 1].transient
    ensures h[..SolidLength(h, base)] < h
  {
  }

  /** It happens: a transient turn is stopped, the next one is transient, uses a tool and completes, and the
      delivery of its answer fails. */
  lemma CompletedDiscardHappens(t: Trace, first: Opening, stop: Request, second: Opening,
                                call: Message, result: Message, reply: Message, none: seq<Step>, base: nat)
    requires Sound(t) && Clean(t, Begin(first)) && first.message.transient && second.message.transient
    requires stop.action == Stop && stop.turnId == "" && stop.streamId == "" && base <= |t.state.history|
    requires second.checkpointId != "" && second.checkpointId != first.checkpointId
    requires second.checkpointId !in t.taken && second.index == |t.state.history| + 1
    requires call.transient && !result.transient && reply.transient && |none| == 0
    ensures var t1 := Advance(Advance(Advance(t, Begin(first)), Ask(stop)), Finalize(first.turnId, true));
            var s := FailureOf(t1, second, [Append(call), Append(result), Append(reply)], Some(none), base);
            && Clean(t1, Begin(second)) && s.history < t1.state.history && Has(s.checkpoints, second.checkpointId)
  {
    var t1 := StoppedTurn(t, first, stop);
    CompletedDiscardTooMuch(t1, second, [Append(call), Append(result), Append(reply)], none, base);
  }

  // ---------------------------------------------------------------------------------------------
  // A stale length
  // ---------------------------------------------------------------------------------------------

  /** The length is recorded before the turn waits for its memory to be read.  If the conversation is rolled
      back in between, the recorded length is too large, and the turn leaves all its messages behind when it
      fails, unless it is transient and they are discarded; `FailedTurnIff` covers any other stale length. */
  lemma StaleLength(t: Trace, r: Request, o: Opening, base: nat)
    requires Sound(t) && t.state.active.None?
    requires r.action == Rollback && r.checkpointId != "" && Has(t.state.checkpoints, r.checkpointId)
    requires o.checkpointId != "" && o.index == |t.state.history|
    ensures var rolledBack := Advance(t, Ask(r));
            var failed := FailureOf(rolledBack, o, [], None, base);
            && r.checkpointId in t.taken
            && rolledBack.state.history == t.taken[r.checkpointId]
            && (|rolledBack.state.history| < |t.state.history| && !o.message.transient ==>
                  failed.history == rolledBack.state.history + [o.message])
  {
    IdleRollback(t, r);
    var h := Advance(t, Ask(r)).state.history;
    FailureInProgress(Advance(t, Ask(r)), o, [], base);
    assert h + ([o.message] + Appended([])) == h + [o.message];
  }

  /** Such conversations exist: any completed turn leads to one. */
  lemma StaleLengthHappens(t: Trace, o: Opening, reply: Message)
    requires Sound(t) && Clean(t, Begin(o)) && !o.message.transient
    ensures var t' := Advance(Advance(Advance(t, Begin(o)), Append(reply)), Complete);
            && Sound(t') && t'.state.active.None? && Has(t'.state.checkpoints, o.checkpointId)
            && |t'.taken[o.checkpointId]| < |t'.state.history|
  {
    var t1 := Advance(t, Begin(o));
    SoundStep(t, Begin(o));
    NewestHasLast(t.state.checkpoints, NewCheckpoint(t, o));
    SoundStep(t1, Append(reply));
    SoundStep(Advance(t1, Append(reply)), Complete);
  }
}
