/** What becomes of a command that was accepted while a turn is in progress. */
module ReplyCommands {
  import opened Messages
  import opened ReplyState
  import opened ReplyRuns
  import opened ReplyFailures

  /** The steps that end the turn in progress. */
  predicate Ends(step: Step, turnId: string) {
    step.Complete? || (step.Fail? && step.turnId == turnId) || (step.Finalize? && step.turnId == turnId)
  }

  predicate Ended(steps: seq<Step>, turnId: string) {
    exists i :: 0 <= i < |steps| && Ends(steps[i], turnId)
  }

  /** No other turn begins: the session has one handler, and it has not come to its end. */
  predicate NoBegin(steps: seq<Step>) {
    forall i :: 0 <= i < |steps| ==> !steps[i].Begin?
  }

  /** What a request waits as, if it is accepted. */
  function AcceptedAs(s: State, step: Step): Option<Pending> {
    if step.Ask? && Requested(s, step.request).1.Accepted? then Requested(s, step.request).0.pending else None
  }

  predicate Superseded(s: State, steps: seq<Step>) {
    exists i :: 0 <= i < |steps| && AcceptedAs(s, steps[i]).Some?
  }

  /** The command that was accepted last. */
  function LastCommand(s: State, p: Pending, steps: seq<Step>): Pending {
    if steps == [] then p
    else
      var init, last := steps[..|steps| - 1], steps[|steps| - 1];
      if AcceptedAs(s, last).Some? then AcceptedAs(s, last).value else LastCommand(s, p, init)
  }

  lemma WaitStep(s: State, s0: State, p: Pending, step: Step)
    requires SameTurn(s0, s) && s.pending == Some(p) && !step.Begin? && !Ends(step, s.active.value.turnId)
    ensures SameTurn(s0, Next(s, step))
    ensures Next(s, step).pending == if AcceptedAs(s0, step).Some? then AcceptedAs(s0, step) else Some(p)
  {
  }

  /** Until its turn ends, what waits is the command accepted last. */
  lemma {:induction false} CommandWaits(t: Trace, p: Pending, steps: seq<Step>)
    requires t.state.active.Some? && t.state.pending == Some(p) && NoBegin(steps)
    requires !Ended(steps, t.state.active.value.turnId)
    ensures SameTurn(t.state, Run(t, steps).state)
    ensures Run(t, steps).state.pending == Some(LastCommand(t.state, p, steps))
  {
    if steps != [] {
      var init, last := steps[..|steps| - 1], steps[|steps| - 1];
      forall i | 0 <= i < |init| ensures !Ends(init[i], t.state.active.value.turnId) {
        assert !Ends(steps[i], t.state.active.value.turnId);
      }
      CommandWaits(t, p, init);
      WaitStep(Run(t, init).state, t.state, LastCommand(t.state, p, init), last);
    }
  }

  /** Without a new turn, the turn in progress is the same one or none. */
  predicate TurnOrNone(s: State, turnId: string) {
    s.turn.Some? && (s.active.Some? ==> s.active.value.turnId == turnId)
  }

  lemma EndStep(s: State, turnId: string, step: Step)
    requires TurnOrNone(s, turnId) && Live(s) && !step.Begin?
    ensures TurnOrNone(Next(s, step), turnId)
    ensures s.active.None? || Ends(step, turnId) ==> Next(s, step).active.None?
  {
  }

  /** Once the turn has ended it stays so. */
  lemma {:induction false} EndedStays(t: Trace, turnId: string, steps: seq<Step>)
    requires TurnOrNone(t.state, turnId) && Live(t.state) && NoBegin(steps)
    ensures TurnOrNone(Run(t, steps).state, turnId)
    ensures Ended(steps, turnId) ==> Run(t, steps).state.active.None?
  {
    if steps != [] {
      var init, last := steps[..|steps| - 1], steps[|steps| - 1];
      EndedStays(t, turnId, init);
      AlwaysLive(t, init);
      EndStep(Run(t, init).state, turnId, last);
      if i :| 0 <= i < |steps| && Ends(steps[i], turnId) {
        assert i < |init| ==> Ends(init[i], turnId);
      }
    }
  }

  /** The ending carries out the command: it reports it, replays if the command replays, and goes back to the
      command's checkpoint if it goes back. */
  predicate CarriesOut(s': State, ending: Ending, q: Pending) {
    && ending.Ended? && ending.command == Some(q.action) && ending.finish == FinishOf(q.action)
    && s'.lastCompleted == Some(Command(q.action, q.requestId)) && s'.active.None? && s'.pending.None?
    && (ending.replay.Some? <==> IsReplay(q.action))
    && (ending.restored.Some? <==> GoesBack(q.action))
  }

  /** At the interrupted end of the turn, an accepted command has one of two fates.  If the turn ended before,
      nothing is carried out, replayed or restored.  Otherwise the command accepted last is carried out. */
  lemma CommandFate(t: Trace, p: Pending, steps: seq<Step>)
    requires Live(t.state) && t.state.active.Some? && t.state.turn.Some? && t.state.pending == Some(p)
    requires NoBegin(steps)
    ensures var turnId, s := t.state.active.value.turnId, Run(t, steps).state;
            var (s', ending) := Finalized(s, turnId, true);
            if Ended(steps, turnId) then s' == s && ending == Ending.Ended(s.lastFinish, None, None, None)
            else CarriesOut(s', ending, LastCommand(t.state, p, steps))
  {
    var turnId := t.state.active.value.turnId;
    if Ended(steps, turnId) {
      EndedStays(t, turnId, steps);
    } else {
      CommandWaits(t, p, steps);
      AlwaysLive(t, steps);
      LiveCarriesOut(Run(t, steps).state);
    }
  }

  lemma LiveCarriesOut(s: State)
    requires Live(s) && s.active.Some? && s.pending.Some?
    ensures var (s', ending) := Finalized(s, s.active.value.turnId, true);
            CarriesOut(s', ending, s.pending.value)
  {
  }

  lemma {:induction false} LastCommandIs(s: State, p: Pending, steps: seq<Step>)
    ensures !Superseded(s, steps) ==> LastCommand(s, p, steps) == p
    ensures Superseded(s, steps) ==>
              exists i :: 0 <= i < |steps| && steps[i].Ask?
                          && LastCommand(s, p, steps).requestId == steps[i].request.requestId
  {
    if steps != [] {
      var init, last := steps[..|steps| - 1], steps[|steps| - 1];
      LastCommandIs(s, p, init);
      if AcceptedAs(s, last).Some? {
        assert AcceptedAs(s, steps[|steps| - 1]).Some?;
        assert AcceptedAs(s, last).value.requestId == last.request.requestId;
      } else if j :| 0 <= j < |steps| && AcceptedAs(s, steps[j]).Some? {
        assert AcceptedAs(s, init[j]).Some?;
        var i :| 0 <= i < |init| && init[i].Ask?
                 && LastCommand(s, p, init).requestId == init[i].request.requestId;
        assert steps[i] == init[i];
      } else {
        forall i | 0 <= i < |init| ensures AcceptedAs(s, init[i]).None? {
          assert AcceptedAs(s, steps[i]).None?;
        }
      }
    }
  }

  /** An accepted command is carried out at the interrupted end of its turn exactly when no completion, failure or
      other end of the turn and no later accepted command comes first. */
  lemma CarriedOutIff(t: Trace, p: Pending, steps: seq<Step>)
    requires Live(t.state) && t.state.active.Some? && t.state.turn.Some? && t.state.pending == Some(p)
    requires NoBegin(steps)
    requires forall i :: 0 <= i < |steps| && steps[i].Ask? ==> steps[i].request.requestId != p.requestId
    ensures var turnId := t.state.active.value.turnId;
            var (s', ending) := Finalized(Run(t, steps).state, turnId, true);
            CarriesOut(s', ending, p) <==> !Ended(steps, turnId) && !Superseded(t.state, steps)
  {
    CommandFate(t, p, steps);
    LastCommandIs(t.state, p, steps);
  }

  /** It happens: between the acceptance of a regenerate and the interruption of the turn, the turn completes.
      Nothing is replayed and the answer stays. */
  lemma CommandLost(t: Trace, o: Opening, r: Request, reply: Message)
    requires Sound(t) && Clean(t, Begin(o)) && !o.message.transient
    requires r.action == Regenerate && r.turnId == "" && r.streamId == ""
    ensures var t1 := Advance(Advance(t, Begin(o)), Ask(r));
            var t2 := Advance(Advance(t1, Append(reply)), Complete);
            var (s', ending) := Finalized(t2.state, o.turnId, true);
            && Requested(Advance(t, Begin(o)).state, r).1.Accepted?
            && ending == Ending.Ended(Completed, None, None, None)
            && s'.history == t.state.history + [o.message] + [reply]
  {
  }
}
