/** What comes of a request, from the request to the end of the turn it is made in. */
module ReplyRequests {
  import opened Messages
  import opened Text
  import opened ReplyState
  import opened ReplyRuns
  import opened ReplyFailures
  import opened ReplyCommands

  // ---------------------------------------------------------------------------------------------
  // Which requests are accepted, and what they leave waiting
  // ---------------------------------------------------------------------------------------------

  lemma BlankIff(s: string)
    ensures Strip(s) == "" <==> forall k :: 0 <= k < |s| ==> IsSpace(s[k])
  {
    var i, j := StripIs(s);
    assert |Strip(s)| == j - i;
  }

  /** A request is accepted exactly while a turn is in progress that it does not contradict, and if it asks for
      something that can be done: guidance must not be blank, a rollback must name a live checkpoint. */
  lemma AcceptedIff(s: State, r: Request)
    ensures Requested(s, r).1 == Accepted
            <==> && s.active.Some?
                 && (r.turnId == "" || r.turnId == s.active.value.turnId)
                 && (r.streamId == "" || r.streamId == s.active.value.streamId)
                 && (|| r.action == Stop || r.action == Regenerate
                     || (r.action == AppendGuidance && exists k :: 0 <= k < |r.guidance| && !IsSpace(r.guidance[k]))
                     || (r.action == Rollback && r.checkpointId != ""
                         && exists i :: 0 <= i < |s.checkpoints| && s.checkpoints[i].id == r.checkpointId))
  {
    BlankIff(r.guidance);
    assert Has(s.checkpoints, r.checkpointId)
      <==> exists i :: 0 <= i < |s.checkpoints| && s.checkpoints[i].id == r.checkpointId;
  }

  /** An accepted request waits with its own checkpoint, if it is a rollback, or else with that of the turn, and
      with its own guidance.  It changes nothing but the phase of the turn and the record of the last command. */
  lemma AcceptedWaits(s: State, r: Request)
    requires Requested(s, r).1 == Accepted
    ensures var s' := Requested(s, r).0;
            && s' == s.(active := s'.active, pending := s'.pending, lastCommand := Some(Command(r.action, r.requestId)))
            && s'.active == Some(s.active.value.(phase := if r.action == Stop then Canceling
                                                          else if r.action == Rollback then RollingBack
                                                          else Replaying))
            && s'.pending.Some?
            && s'.pending.value.action == r.action && s'.pending.value.requestId == r.requestId
            && s'.pending.value.checkpointId == (if r.action == Rollback then r.checkpointId
                                                 else s.active.value.checkpointId)
            && (r.action == AppendGuidance ==> s'.pending.value.guidance == Strip(r.guidance))
  {
  }

  /** A request that contradicts the turn in progress is refused for that reason, the turn before the stream. */
  lemma MismatchIff(s: State, r: Request)
    ensures Requested(s, r).1 == Rejected(TurnMismatch)
            <==> s.active.Some? && r.turnId != "" && r.turnId != s.active.value.turnId
    ensures Requested(s, r).1 == Rejected(StreamMismatch)
            <==> s.active.Some? && (r.turnId == "" || r.turnId == s.active.value.turnId)
                 && r.streamId != "" && r.streamId != s.active.value.streamId
    ensures Requested(s, r).1.Rejected? ==> Requested(s, r).0 == s
  {
  }

  /** Without a turn in progress nothing is stopped or guided; a list of the checkpoints is always given, in their
      order, unless the request contradicts the turn. */
  lemma OtherReplies(s: State, r: Request)
    ensures s.active.None? && r.action == Stop ==> Requested(s, r).1 == Rejected(NoReplyToStop)
    ensures s.active.None? && r.action == AppendGuidance ==> Requested(s, r).1 == Rejected(NoReplyToGuide)
    ensures r.action.UnknownAction? ==> Requested(s, r).1.Rejected?
    ensures r.action == ListCheckpoints && !Requested(s, r).1.Rejected? ==>
              && Requested(s, r).1 == Listed(s.checkpoints)
              && Requested(s, r).0 == s.(lastCompleted := Some(Command(r.action, r.requestId)))
    ensures r.action == ListCheckpoints && Requested(s, r).1.Rejected? ==>
              Requested(s, r).1.reason in {TurnMismatch, StreamMismatch}
  {
  }

  // ---------------------------------------------------------------------------------------------
  // From the request to the end of the turn
  // ---------------------------------------------------------------------------------------------

  /** A request is accepted, and until the turn is interrupted nothing ends it and no other request is accepted. */
  ghost predicate Undisturbed(t: Trace, r: Request, steps: seq<Step>) {
    && Sound(t) && t.state.active.Some? && Requested(t.state, r).1 == Accepted
    && NoBegin(steps) && !ReplyCommands.Ended(steps, t.state.active.value.turnId)
    && !Superseded(Advance(t, Ask(r)).state, steps) && CleanRun(Advance(t, Ask(r)), steps)
  }

  /** How the turn ends when it is interrupted then. */
  function Interrupted(t: Trace, r: Request, steps: seq<Step>): (State, Ending)
    requires t.state.active.Some?
  {
    Finalized(Run(Advance(t, Ask(r)), steps).state, t.state.active.value.turnId, true)
  }

  lemma {:induction false} RecordsStay(t: Trace, steps: seq<Step>)
    requires NoBegin(steps)
    ensures Run(t, steps).taken == t.taken && Run(t, steps).asked == t.asked && Run(t, steps).spent == t.spent
    ensures (forall i :: 0 <= i < |steps| ==> !steps[i].Complete?) ==> Run(t, steps).state.latest == t.state.latest
  {
    if steps != [] {
      RecordsStay(t, steps[..|steps| - 1]);
    }
  }

  /** At the interruption the same turn is in progress, the request waits, and the trace is sound. */
  lemma StillWaiting(t: Trace, r: Request, steps: seq<Step>)
    requires Undisturbed(t, r, steps)
    ensures var t1, t2 := Advance(t, Ask(r)), Run(Advance(t, Ask(r)), steps);
            && Sound(t2) && SameTurn(t.state, t2.state) && t2.state.active.value.input == t.state.active.value.input
            && t2.state.pending == t1.state.pending && t2.state.latest == t.state.latest
            && t2.taken == t.taken && t2.asked == t.asked && t2.spent == t.spent
  {
    var t1 := Advance(t, Ask(r));
    AcceptedWaits(t.state, r);
    SoundStep(t, Ask(r));
    CleanRunsAreSound(t1, steps);
    CommandWaits(t1, t1.state.pending.value, steps);
    LastCommandIs(t1.state, t1.state.pending.value, steps);
    RecordsStay(t1, steps);
    forall i | 0 <= i < |steps| ensures !steps[i].Complete? {
      assert !Ends(steps[i], t.state.active.value.turnId);
    }
    SameInput(t, r, steps);
  }

  lemma SameInput(t: Trace, r: Request, steps: seq<Step>)
    requires Sound(t) && t.state.active.Some?
    requires var t2 := Run(Advance(t, Ask(r)), steps);
             Sound(t2) && SameTurn(t.state, t2.state) && t2.asked == t.asked
    ensures Run(Advance(t, Ask(r)), steps).state.active.value.input == t.state.active.value.input
  {
  }

  /** The end of the turn goes back to the checkpoint the request waits with. */
  lemma GoesBackTo(t: Trace, id: string)
    requires Sound(t) && t.state.active.Some? && t.state.pending.Some? && GoesBack(t.state.pending.value.action)
    requires t.state.pending.value.checkpointId == id
    ensures var (s', ending) := Finalized(t.state, t.state.active.value.turnId, true);
            && id in t.taken && id in t.spent && s'.history == t.taken[id] && s'.usage == t.spent[id]
            && ending.Ended? && ending.restored.Some? && ending.restored.value.id == id
            && s'.active.None? && s'.pending.None?
  {
    var c := LastNamed(t.state.checkpoints, id).value;
    BackToFaithful(t, c);
    var i :| 0 <= i < |t.state.checkpoints| && t.state.checkpoints[i] == c;
  }

  /** A rollback goes back to the checkpoint it asked for. */
  lemma RollbackGoesBack(t: Trace, r: Request, steps: seq<Step>)
    requires Undisturbed(t, r, steps) && r.action == Rollback
    ensures var (s', ending) := Interrupted(t, r, steps);
            && r.checkpointId in t.taken && r.checkpointId in t.spent
            && s'.history == t.taken[r.checkpointId] && s'.usage == t.spent[r.checkpointId]
            && ending.Ended? && ending.finish == RolledBack && ending.replay.None?
            && s'.lastCompleted == Some(Command(Rollback, r.requestId))
  {
    AcceptedWaits(t.state, r);
    StillWaiting(t, r, steps);
    GoesBackTo(Run(Advance(t, Ask(r)), steps), r.checkpointId);
  }

  /** Regenerating goes back to before the turn and replays what the turn was asked, exactly when that is not
      empty or there is no other non-empty input to fall back to. */
  lemma RegenerateGoesBack(t: Trace, r: Request, steps: seq<Step>)
    requires Undisturbed(t, r, steps) && r.action == Regenerate
    ensures var (s', ending) := Interrupted(t, r, steps);
            var id := t.state.active.value.checkpointId;
            && s'.history == t.taken[id] && s'.usage == t.spent[id]
            && ending.Ended? && ending.finish == Replayed
            && (ending.replay == Some(t.asked[id])
                <==> t.asked[id] != EMPTY_INPUT || t.state.latest.None? || t.state.latest.value.input == EMPTY_INPUT)
            && s'.lastCompleted == Some(Command(Regenerate, r.requestId))
  {
    AcceptedWaits(t.state, r);
    StillWaiting(t, r, steps);
    GoesBackTo(Run(Advance(t, Ask(r)), steps), t.state.active.value.checkpointId);
  }

  /** Guidance goes back to before the turn and replays what the turn was asked with the guidance of the request
      behind it, under the same kind of condition. */
  lemma GuidanceGoesBack(t: Trace, r: Request, steps: seq<Step>)
    requires Undisturbed(t, r, steps) && r.action == AppendGuidance
    ensures var (s', ending) := Interrupted(t, r, steps);
            var id := t.state.active.value.checkpointId;
            && s'.history == t.taken[id] && s'.usage == t.spent[id]
            && ending.Ended? && ending.finish == Replayed
            && (ending.replay == Some(MergedGuidance(t.asked[id], r.guidance))
                <==> t.asked[id] != EMPTY_INPUT || t.state.latest.None? || Mute(t.state.latest.value.input))
            && s'.lastCompleted == Some(Command(AppendGuidance, r.requestId))
  {
    AcceptedWaits(t.state, r);
    StillWaiting(t, r, steps);
    var t2 := Run(Advance(t, Ask(r)), steps);
    GoesBackTo(t2, t.state.active.value.checkpointId);
    GuidanceReplaysInput(t2);
    GuidanceStripped(t.asked[t.state.active.value.checkpointId], r.guidance);
  }

  lemma GuidanceStripped(input: Input, guidance: string)
    ensures MergedGuidance(input, Strip(guidance)) == MergedGuidance(input, guidance)
  {
    StripTwice(guidance);
  }

  /** The text of the replay: the stripped content, a label on a paragraph of its own, and the stripped guidance. */
  lemma GuidanceText(input: Input, guidance: string)
    requires exists k :: 0 <= k < |guidance| && !IsSpace(guidance[k])
    ensures MergedGuidance(input, guidance).content
         == Some((if input.content.Some? then Strip(input.content.value) else "")
                 + "\n\n\U{8865}\U{5145}\U{8981}\U{6C42}\U{FF1A}" + Strip(guidance))
  {
    BlankIff(guidance);
    BlankIff("");
  }

  /** A stop leaves the conversation as it stands. */
  lemma StopKeeps(t: Trace, r: Request, steps: seq<Step>)
    requires Undisturbed(t, r, steps) && r.action == Stop
    ensures var before := Run(Advance(t, Ask(r)), steps).state;
            var (s', ending) := Interrupted(t, r, steps);
            && s'.history == before.history && s'.usage == before.usage && s'.checkpoints == t.state.checkpoints
            && s'.active.None? && s'.pending.None?
            && ending == Ending.Ended(Stopped, None, Some(Stop), None)
            && s'.lastCompleted == Some(Command(Stop, r.requestId))
  {
    AcceptedWaits(t.state, r);
    StillWaiting(t, r, steps);
  }

  // ---------------------------------------------------------------------------------------------
  // Turns that end by themselves
  // ---------------------------------------------------------------------------------------------

  /** After a turn has completed, regenerating replays its input, and going back to its checkpoint or regenerating
      leaves history and usage as they were before it. */
  lemma CompletedTurnCanBeRepeated(t: Trace, o: Opening, body: seq<Step>, late: seq<Step>, r: Request)
    requires Sound(t) && Clean(t, Begin(o)) && Body(body) && Idle(late)
    ensures var s := Course(t, o, body, Some(late)).state;
            var (s', reply) := Requested(s, r);
            (r.action == Regenerate || (r.action == Rollback && r.checkpointId == o.checkpointId)) ==>
              && reply.Done? && s'.history == t.state.history && s'.usage == t.state.usage
              && reply.replay == (if r.action == Regenerate then Some(o.input) else None)
  {
    CourseIsSound(t, o, body, late);
    CompletedCourse(t, o, body, late);
    NewestIsFound(t.state.checkpoints, NewCheckpoint(t, o));
    RepeatFrom(Course(t, o, body, Some(late)), NewCheckpoint(t, o), r);
  }

  /** Going back from an idle state whose last completed turn began at a live checkpoint. */
  lemma RepeatFrom(t: Trace, c: Checkpoint, r: Request)
    requires Sound(t) && t.state.active.None? && c.id != "" && LastNamed(t.state.checkpoints, c.id) == Some(c)
    requires t.state.latest.Some? && t.state.latest.value.checkpointId == c.id
    ensures var (s', reply) := Requested(t.state, r);
            (r.action == Regenerate || (r.action == Rollback && r.checkpointId == c.id)) ==>
              && reply.Done? && c.id in t.taken && s'.history == t.taken[c.id] && s'.usage == c.usage
              && reply.replay == (if r.action == Regenerate then Some(t.state.latest.value.input) else None)
  {
    BackToFaithful(t, c);
  }

  /** Such a course is sound. */
  lemma {:induction false} CoursesAreSound(t: Trace, steps: seq<Step>)
    requires Sound(t) && forall i :: 0 <= i < |steps| ==> WithinTurn(steps[i])
    ensures Sound(Run(t, steps))
  {
    if steps != [] {
      CoursesAreSound(t, steps[..|steps| - 1]);
      SoundStep(Run(t, steps[..|steps| - 1]), steps[|steps| - 1]);
    }
  }

  lemma CourseIsSound(t: Trace, o: Opening, body: seq<Step>, late: seq<Step>)
    requires Sound(t) && Clean(t, Begin(o)) && Body(body) && Idle(late)
    ensures Sound(Course(t, o, body, Some(late)))
  {
    var t1 := Run(Advance(t, Begin(o)), body);
    SoundStep(t, Begin(o));
    CoursesAreSound(Advance(t, Begin(o)), body);
    SoundStep(t1, Complete);
    CoursesAreSound(Advance(t1, Complete), late);
  }

  /** A turn that ends without a command being carried out keeps the conversation, and is reported as stopped if it
      was interrupted and as completed otherwise; a report for another turn changes nothing. */
  lemma EndsWithoutCommand(s: State, turnId: string, interrupted: bool)
    ensures var (s', ending) := Finalized(s, turnId, interrupted);
            && (s.active.None? || s.active.value.turnId != turnId ==>
                  s' == s && ending == Ending.Ended(s.lastFinish, None, None, None))
            && (s.active.Some? && s.active.value.turnId == turnId && (!interrupted || s.pending.None?) ==>
                  var finish := if interrupted then Stopped else Completed;
                  && s' == s.(active := None, lastFinish := finish)
                  && ending == Ending.Ended(finish, None, None, None))
  {
  }

  /** What the start of a turn records, in the list of checkpoints and in the turn. */
  lemma BeginRecords(s: State, o: Opening)
    ensures var s' := Begun(s, o);
            var n := |s'.checkpoints|;
            && n == (if |s.checkpoints| < 12 then |s.checkpoints| + 1 else 12)
            && s'.checkpoints[n - 1] == Checkpoint(o.checkpointId, o.turnId, o.streamId, o.index, s.usage)
            && s'.checkpoints[..n - 1] == s.checkpoints[|s.checkpoints| - (n - 1)..]
            && s'.active == Some(ActiveTurn(Running, o.turnId, o.streamId, o.checkpointId, o.input))
            && s'.pending.None? && s'.history == s.history + [o.message] && s'.usage == s.usage
  {
  }
}
