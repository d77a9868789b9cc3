/** The session object whose fields reply control updates in place. */
module ReplyControl {
  import opened Messages
  import opened Text
  import opened ReplyState

  class Session {
    var chatHistory: seq<Message>
    var usage: Usage
    var checkpoints: seq<Checkpoint>
    var activeTurn: Option<ActiveTurn>
    var pendingCommand: Option<Pending>
    var latestReplay: Option<Latest>
    var lastFinish: Finish
    var lastCommand: Option<Command>
    var lastCompleted: Option<Command>
    var turn: Option<Turn>

    function View(): State
      reads this
    {
      State(chatHistory, usage, checkpoints, activeTurn, pendingCommand, latestReplay, lastFinish,
            lastCommand, lastCompleted, turn)
    }

    constructor (history: seq<Message>, usage: Usage)
      ensures View() == Initial(history, usage)
    {
      this.chatHistory, this.usage, this.checkpoints := history, usage, [];
      this.activeTurn, this.pendingCommand, this.latestReplay := None, None, None;
      this.lastFinish, this.lastCommand, this.lastCompleted, this.turn := NoFinish, None, None, None;
    }

    /** `_create_reply_checkpoint`. */
    method CreateReplyCheckpoint(id: string, turnId: string, streamId: string, length: nat)
      modifies this`checkpoints
      ensures checkpoints == Newest(old(checkpoints) + [Checkpoint(id, turnId, streamId, length, usage)])
    {
      checkpoints := checkpoints + [Checkpoint(id, turnId, streamId, length, usage)];
      if |checkpoints| > MAX_CHECKPOINTS {
        checkpoints := checkpoints[|checkpoints| - MAX_CHECKPOINTS..];
      }
    }

    /** The checkpoint found by searching from the newest backwards. */
    method FindCheckpoint(id: string) returns (found: Option<Checkpoint>)
      ensures found == LastNamed(checkpoints, id)
    {
      var i := |checkpoints|;
      assert checkpoints[..i] == checkpoints;
      while i > 0
        invariant 0 <= i <= |checkpoints|
        invariant LastNamed(checkpoints[..i], id) == LastNamed(checkpoints, id)
      {
        i := i - 1;
        assert checkpoints[..i + 1][..i] == checkpoints[..i];
        if checkpoints[i].id == id { return Some(checkpoints[i]); }
      }
      return None;
    }

    /** `_restore_reply_checkpoint`; a checkpoint that is not there changes nothing. */
    method RestoreReplyCheckpoint(id: string) returns (restored: Option<Checkpoint>)
      modifies this`chatHistory, this`usage, this`checkpoints, this`activeTurn, this`pendingCommand
      ensures restored == old(LastNamed(checkpoints, id))
      ensures View() == if restored.Some? then BackTo(old(View()), restored.value) else old(View())
    {
      restored := FindCheckpoint(id);
      if restored.None? { return; }
      var length := restored.value.historyLength;
      if length < |chatHistory| { chatHistory := chatHistory[..length]; }
      usage := restored.value.usage;
      activeTurn, pendingCommand := None, None;
      var kept := KeepWithin(checkpoints, length);
      checkpoints := kept;
    }

    /** The start of a turn. */
    method BeginTurn(o: Opening)
      modifies this
      ensures View() == Begun(old(View()), o)
    {
      turn := Some(Turn(o.turnId, o.input, o.index, o.message.transient));
      CreateReplyCheckpoint(o.checkpointId, o.turnId, o.streamId, o.index);
      activeTurn := Some(ActiveTurn(Running, o.turnId, o.streamId, o.checkpointId, o.input));
      pendingCommand := None;
      chatHistory := chatHistory + [o.message];
    }

    /** The end of a turn that answered without further tool calls. */
    method CompleteTurn()
      modifies this
      ensures View() == Finished(old(View()))
    {
      if turn.None? { return; }
      var t := turn.value;
      var turnId, checkpointId := t.turnId, "";
      if activeTurn.Some? {
        checkpointId := activeTurn.value.checkpointId;
        if activeTurn.value.turnId != "" { turnId := activeTurn.value.turnId; }
      }
      latestReplay := Some(Latest(turnId, checkpointId, t.input));
      activeTurn, pendingCommand, lastFinish := None, None, Completed;
      if t.transient && |chatHistory| > t.index { chatHistory := chatHistory[..t.index]; }
    }

    method AwaitCommand(r: Request, phase: Phase, checkpointId: string, guidance: string)
      requires activeTurn.Some?
      modifies this`activeTurn, this`pendingCommand, this`lastCommand
      ensures View() == Await(old(View()), r, phase, checkpointId, guidance)
    {
      activeTurn := Some(activeTurn.value.(phase := phase));
      pendingCommand := Some(Pending(r.action, r.requestId, checkpointId, guidance));
      lastCommand := Some(Command(r.action, r.requestId));
    }

    /** `request_reply_control`. */
    method RequestReplyControl(r: Request) returns (reply: Reply)
      modifies this
      ensures (View(), reply) == Requested(old(View()), r)
    {
      if activeTurn.Some? {
        if r.turnId != "" && r.turnId != activeTurn.value.turnId { return Rejected(TurnMismatch); }
        if r.streamId != "" && r.streamId != activeTurn.value.streamId { return Rejected(StreamMismatch); }
      }
      match r.action
      case ListCheckpoints =>
        lastCompleted := Some(Command(r.action, r.requestId));
        return Listed(checkpoints);
      case Stop =>
        if activeTurn.None? { return Rejected(NoReplyToStop); }
        AwaitCommand(r, Canceling, activeTurn.value.checkpointId, "");
        return Accepted;
      case AppendGuidance =>
        if activeTurn.None? { return Rejected(NoReplyToGuide); }
        var text := Strip(r.guidance);
        if text == "" { return Rejected(EmptyGuidance); }
        AwaitCommand(r, Replaying, activeTurn.value.checkpointId, text);
        return Accepted;
      case Regenerate =>
        reply := RequestRegenerate(r);
      case Rollback =>
        reply := RequestRollback(r);
      case UnknownAction(_) =>
        return Rejected(Unsupported);
    }

    method RequestRegenerate(r: Request) returns (reply: Reply)
      requires r.action == Regenerate && Mismatch(View(), r).None?
      modifies this
      ensures (View(), reply) == Requested(old(View()), r)
    {
      if activeTurn.Some? {
        AwaitCommand(r, Replaying, activeTurn.value.checkpointId, "");
        return Accepted;
      }
      if latestReplay.None? { return Rejected(NothingToRegenerate); }
      if latestReplay.value.checkpointId == "" { return Rejected(NoCheckpointRecorded); }
      var restored := RestoreReplyCheckpoint(latestReplay.value.checkpointId);
      if restored.None? { return Rejected(CheckpointMissing); }
      lastCompleted := Some(Command(r.action, r.requestId));
      return Done(Some(latestReplay.value.input), restored.value);
    }

    method RequestRollback(r: Request) returns (reply: Reply)
      requires r.action == Rollback && Mismatch(View(), r).None?
      modifies this
      ensures (View(), reply) == Requested(old(View()), r)
    {
      if r.checkpointId == "" { return Rejected(CheckpointRequired); }
      var found := FindCheckpoint(r.checkpointId);
      if found.None? { return Rejected(CheckpointMissing); }
      if activeTurn.Some? {
        AwaitCommand(r, RollingBack, r.checkpointId, "");
        return Accepted;
      }
      var restored := RestoreReplyCheckpoint(r.checkpointId);
      lastCompleted := Some(Command(r.action, r.requestId));
      lastFinish := RolledBack;
      return Done(None, restored.value);
    }

    /** `finalize_reply_control`. */
    method FinalizeReplyControl(turnId: string, interrupted: bool) returns (ending: Ending)
      modifies this
      ensures (View(), ending) == Finalized(old(View()), turnId, interrupted)
    {
      if activeTurn.None? || activeTurn.value.turnId != turnId { return Ended(lastFinish, None, None, None); }
      var finish := Completed;
      var replay: Option<Input> := None;
      var restored: Option<Checkpoint> := None;
      var command: Option<Action> := None;
      if interrupted && pendingCommand.Some? {
        var a, p := activeTurn.value, pendingCommand.value;
        finish := FinishOf(p.action);
        command := Some(p.action);
        if GoesBack(p.action) {
          restored := RestoreReplyCheckpoint(TargetId(p, a));
          if restored.None? { return MissingCheckpoint; }
          replay := ReplayInput(p, ReplayBase(a, latestReplay));
        }
        lastCompleted := Some(Command(p.action, p.requestId));
        pendingCommand := None;
      } else if interrupted {
        finish := Stopped;
      }
      activeTurn := None;
      lastFinish := finish;
      return Ended(finish, replay, command, restored);
    }

    /** `discard_trailing_transient_messages`. */
    method DiscardTrailingTransientMessages(base: nat)
      modifies this`chatHistory
      ensures View() == Discarded(old(View()), base)
    {
      var history := chatHistory;
      while |chatHistory| > base && chatHistory[|chatHistory| - 1].transient
        invariant chatHistory <= history
        invariant SolidLength(chatHistory, base) == SolidLength(history, base)
      {
        chatHistory := chatHistory[..|chatHistory| - 1];
      }
    }

    /** The failure of a turn: a transient one is discarded first. */
    method FailTurn(turnId: string, transient: bool, base: nat)
      modifies this
      ensures View() == FailedWith(old(View()), turnId, transient, base)
    {
      if transient { DiscardTrailingTransientMessages(base); }
      MarkReplyTurnFailed(turnId);
    }

    /** `mark_reply_turn_failed`. */
    method MarkReplyTurnFailed(turnId: string)
      modifies this
      ensures View() == FailedTurn(old(View()), turnId)
    {
      if activeTurn.Some? && activeTurn.value.turnId == turnId {
        var id := activeTurn.value.checkpointId;
        if id != "" {
          var _ := RestoreReplyCheckpoint(id);
        }
        activeTurn, pendingCommand, lastFinish := None, None, Failed;
      }
    }
  }

  method KeepWithin(cps: seq<Checkpoint>, n: nat) returns (kept: seq<Checkpoint>)
    ensures kept == Within(cps, n)
  {
    kept := [];
    for i := 0 to |cps|
      invariant kept == Within(cps[..i], n)
    {
      assert cps[..i + 1][..i] == cps[..i];
      if cps[i].historyLength <= n { kept := kept + [cps[i]]; }
    }
    assert cps[..|cps|] == cps;
  }
}
