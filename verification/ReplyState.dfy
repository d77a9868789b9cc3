/** Reply control: the turn in progress, the command waiting to interrupt it, and the checkpoints a
    conversation can be taken back to. */
module ReplyState {
  import opened Messages
  import opened Text

  // ---------------------------------------------------------------------------------------------
  // Data
  // ---------------------------------------------------------------------------------------------

  /** A user input as it arrived; a key that is absent is `None`. */
  datatype Input = Input(content: Option<string>, metadata: Option<map<string, string>>, fields: map<string, string>)

  /** The usage counters, copied and put back as one value. */
  type Usage = string

  datatype Checkpoint = Checkpoint(id: string, turnId: string, streamId: string, historyLength: nat, usage: Usage)

  datatype Action = ListCheckpoints | Stop | AppendGuidance | Regenerate | Rollback | UnknownAction(name: string)

  datatype Phase = Running | Canceling | Replaying | RollingBack

  datatype ActiveTurn = ActiveTurn(phase: Phase, turnId: string, streamId: string, checkpointId: string, input: Input)

  datatype Pending = Pending(action: Action, requestId: string, checkpointId: string, guidance: string)

  /** The last completed input, and the checkpoint before it. */
  datatype Latest = Latest(turnId: string, checkpointId: string, input: Input)

  datatype Finish = NoFinish | Completed | Stopped | Replayed | RolledBack | Failed

  datatype Command = Command(action: Action, requestId: string)

  /** What the turn in progress remembers by itself from its beginning to its end. */
  datatype Turn = Turn(turnId: string, input: Input, index: nat, transient: bool)

  datatype State = State(
    history: seq<Message>,
    usage: Usage,
    checkpoints: seq<Checkpoint>,
    active: Option<ActiveTurn>,
    pending: Option<Pending>,
    latest: Option<Latest>,
    lastFinish: Finish,
    lastCommand: Option<Command>,
    lastCompleted: Option<Command>,
    turn: Option<Turn>)

  datatype Request = Request(
    action: Action,
    requestId: string,
    guidance: string,
    checkpointId: string,
    turnId: string,
    streamId: string)

  datatype Reason =
    | TurnMismatch | StreamMismatch | NoReplyToStop | NoReplyToGuide | EmptyGuidance
    | NothingToRegenerate | NoCheckpointRecorded | CheckpointMissing | CheckpointRequired | Unsupported

  datatype Reply =
    | Rejected(reason: Reason)
    | Accepted
    | Listed(checkpoints: seq<Checkpoint>)
    | Done(replay: Option<Input>, restored: Checkpoint)

  /** How the end of a turn is reported, or the error of a checkpoint that is not there. */
  datatype Ending =
    | Ended(finish: Finish, replay: Option<Input>, command: Option<Action>, restored: Option<Checkpoint>)
    | MissingCheckpoint

  /** What a turn starts with.  `index` is the history length that was recorded for it; `message` is its input
      as a message, and the turn is transient if that is. */
  datatype Opening = Opening(
    checkpointId: string,
    turnId: string,
    streamId: string,
    index: nat,
    message: Message,
    input: Input)

  const MAX_CHECKPOINTS: nat := 12

  function Initial(history: seq<Message>, usage: Usage): State {
    State(history, usage, [], None, None, None, NoFinish, None, None, None)
  }

  // ---------------------------------------------------------------------------------------------
  // Inputs
  // ---------------------------------------------------------------------------------------------

  const EMPTY_INPUT: Input := Input(None, None, map[])

  const GUIDANCE_LABEL: string := "\n\n\U{8865}\U{5145}\U{8981}\U{6C42}\U{FF1A}"

  /** `_merged_guidance_input`. */
  function MergedGuidance(input: Input, guidance: string): Input {
    var base := Strip(if input.content.Some? then input.content.value else "");
    var text := Strip(guidance);
    var metadata := if input.metadata.Some? then input.metadata.value else map[];
    input.(
      content := Some(if text == "" then base else base + GUIDANCE_LABEL + text),
      metadata := Some(metadata["reply_control_replay" := "append_guidance"]["reply_control_guidance" := "True"]))
  }

  /** The input a replay starts from: the turn's own, or the last completed one if that is empty. */
  function ReplayBase(active: ActiveTurn, latest: Option<Latest>): Input {
    if active.input != EMPTY_INPUT then active.input
    else if latest.Some? then latest.value.input else EMPTY_INPUT
  }

  // ---------------------------------------------------------------------------------------------
  // Checkpoints
  // ---------------------------------------------------------------------------------------------

  predicate Has(cps: seq<Checkpoint>, id: string) {
    exists i :: 0 <= i < |cps| && cps[i].id == id
  }

  function LastNamed(cps: seq<Checkpoint>, id: string): (c: Option<Checkpoint>)
    ensures c.Some? <==> Has(cps, id)
    ensures c.Some? ==> c.value in cps && c.value.id == id
  {
    if cps == [] then None
    else if cps[|cps| - 1].id == id then Some(cps[|cps| - 1])
    else LastNamed(cps[..|cps| - 1], id)
  }

  /** The checkpoints that lie within a history of length `n`. */
  function Within(cps: seq<Checkpoint>, n: nat): seq<Checkpoint> {
    if cps == [] then []
    else
      var init, last := cps[..|cps| - 1], cps[|cps| - 1];
      if last.historyLength <= n then Within(init, n) + [last] else Within(init, n)
  }

  function Newest(cps: seq<Checkpoint>): (r: seq<Checkpoint>)
    ensures |r| <= MAX_CHECKPOINTS && |r| <= |cps| && r == cps[|cps| - |r|..]
    ensures |cps| > 0 ==> |r| > 0
  {
    if |cps| > MAX_CHECKPOINTS then cps[|cps| - MAX_CHECKPOINTS..] else cps
  }

  function Cut(history: seq<Message>, n: nat): (cut: seq<Message>)
    ensures cut <= history && |cut| == if n < |history| then n else |history|
  {
    if n < |history| then history[..n] else history
  }

  /** The state after going back to a checkpoint. */
  function BackTo(s: State, c: Checkpoint): State {
    s.(history := Cut(s.history, c.historyLength), usage := c.usage,
       checkpoints := Within(s.checkpoints, c.historyLength), active := None, pending := None)
  }

  // ---------------------------------------------------------------------------------------------
  // The steps
  // ---------------------------------------------------------------------------------------------

  function Begun(s: State, o: Opening): State {
    s.(checkpoints := Newest(s.checkpoints + [Checkpoint(o.checkpointId, o.turnId, o.streamId, o.index, s.usage)]),
       active := Some(ActiveTurn(Running, o.turnId, o.streamId, o.checkpointId, o.input)),
       pending := None,
       history := s.history + [o.message],
       turn := Some(Turn(o.turnId, o.input, o.index, o.message.transient)))
  }

  /** The turn produced its answer without further tool calls. */
  function Finished(s: State): State {
    if s.turn.None? then s
    else
      var t := s.turn.value;
      s.(latest := Some(Latest(
           if s.active.Some? && s.active.value.turnId != "" then s.active.value.turnId else t.turnId,
           if s.active.Some? then s.active.value.checkpointId else "",
           t.input)),
         active := None, pending := None, lastFinish := Completed,
         history := if t.transient then Cut(s.history, t.index) else s.history)
  }

  function Await(s: State, r: Request, phase: Phase, checkpointId: string, guidance: string): State {
    if s.active.None? then s
    else
      s.(active := Some(s.active.value.(phase := phase)),
         pending := Some(Pending(r.action, r.requestId, checkpointId, guidance)),
         lastCommand := Some(Command(r.action, r.requestId)))
  }

  function Mismatch(s: State, r: Request): Option<Reason> {
    if s.active.Some? && r.turnId != "" && r.turnId != s.active.value.turnId then Some(TurnMismatch)
    else if s.active.Some? && r.streamId != "" && r.streamId != s.active.value.streamId then Some(StreamMismatch)
    else None
  }

  function Requested(s: State, r: Request): (State, Reply) {
    if Mismatch(s, r).Some? then (s, Rejected(Mismatch(s, r).value))
    else
      match r.action
      case ListCheckpoints =>
        (s.(lastCompleted := Some(Command(r.action, r.requestId))), Listed(s.checkpoints))
      case Stop =>
        if s.active.None? then (s, Rejected(NoReplyToStop))
        else (Await(s, r, Canceling, s.active.value.checkpointId, ""), Accepted)
      case AppendGuidance =>
        if s.active.None? then (s, Rejected(NoReplyToGuide))
        else if Strip(r.guidance) == "" then (s, Rejected(EmptyGuidance))
        else (Await(s, r, Replaying, s.active.value.checkpointId, Strip(r.guidance)), Accepted)
      case Regenerate =>
        if s.active.Some? then (Await(s, r, Replaying, s.active.value.checkpointId, ""), Accepted)
        else if s.latest.None? then (s, Rejected(NothingToRegenerate))
        else if s.latest.value.checkpointId == "" then (s, Rejected(NoCheckpointRecorded))
        else
          var c := LastNamed(s.checkpoints, s.latest.value.checkpointId);
          if c.None? then (s, Rejected(CheckpointMissing))
          else
            (BackTo(s, c.value).(lastCompleted := Some(Command(r.action, r.requestId))),
             Done(Some(s.latest.value.input), c.value))
      case Rollback =>
        if r.checkpointId == "" then (s, Rejected(CheckpointRequired))
        else
          var c := LastNamed(s.checkpoints, r.checkpointId);
          if c.None? then (s, Rejected(CheckpointMissing))
          else if s.active.Some? then (Await(s, r, RollingBack, r.checkpointId, ""), Accepted)
          else
            (BackTo(s, c.value).(lastCompleted := Some(Command(r.action, r.requestId)), lastFinish := RolledBack),
             Done(None, c.value))
      case UnknownAction(_) => (s, Rejected(Unsupported))
  }

  function FinishOf(action: Action): Finish {
    match action
    case AppendGuidance => Replayed
    case Regenerate => Replayed
    case Rollback => RolledBack
    case _ => Stopped
  }

  predicate IsReplay(action: Action) {
    action == AppendGuidance || action == Regenerate
  }

  /** The checkpoint an interrupted turn goes back to, if its command goes back at all. */
  function TargetId(p: Pending, a: ActiveTurn): string {
    if IsReplay(p.action) && p.checkpointId == "" then a.checkpointId else p.checkpointId
  }

  predicate GoesBack(action: Action) {
    IsReplay(action) || action == Rollback
  }

  /** The state once the command waiting for an interrupted turn is carried out. */
  function Settled(s: State, p: Pending): State {
    s.(active := None, pending := None, lastFinish := FinishOf(p.action),
       lastCompleted := Some(Command(p.action, p.requestId)))
  }

  function ReplayInput(p: Pending, base: Input): Option<Input> {
    if p.action == AppendGuidance then Some(MergedGuidance(base, p.guidance))
    else if p.action == Regenerate then Some(base)
    else None
  }

  /** `finalize_reply_control`. */
  function Finalized(s: State, turnId: string, interrupted: bool): (State, Ending) {
    if s.active.None? || s.active.value.turnId != turnId then (s, Ended(s.lastFinish, None, None, None))
    else if interrupted && s.pending.Some? then
      var a, p := s.active.value, s.pending.value;
      if GoesBack(p.action) then
        var c := LastNamed(s.checkpoints, TargetId(p, a));
        if c.None? then (s, MissingCheckpoint)
        else
          (Settled(BackTo(s, c.value), p),
           Ended(FinishOf(p.action), ReplayInput(p, ReplayBase(a, s.latest)), Some(p.action), c))
      else (Settled(s, p), Ended(FinishOf(p.action), None, Some(p.action), None))
    else
      var finish := if interrupted then Stopped else Completed;
      (s.(active := None, lastFinish := finish), Ended(finish, None, None, None))
  }

  /** `mark_reply_turn_failed`. */
  function FailedTurn(s: State, turnId: string): State {
    if s.active.None? || s.active.value.turnId != turnId then s
    else
      var id := s.active.value.checkpointId;
      var c := if id == "" then None else LastNamed(s.checkpoints, id);
      var s' := if c.Some? then BackTo(s, c.value) else s;
      s'.(active := None, pending := None, lastFinish := Failed)
  }

  /** How much of a history is left when its trailing transient messages are dropped, down to `base`. */
  function SolidLength(history: seq<Message>, base: nat): (n: nat)
    ensures n <= |history|
    ensures forall i :: n <= i < |history| ==> history[i].transient
    ensures n > base ==> !history[n - 1].transient
    ensures |history| <= base ==> n == |history|
    ensures |history| >= base ==> n >= base
  {
    if |history| > base && history[|history| - 1].transient
    then SolidLength(history[..|history| - 1], base)
    else |history|
  }

  /** `discard_trailing_transient_messages`. */
  function Discarded(s: State, base: nat): State {
    s.(history := s.history[..SolidLength(s.history, base)])
  }

  /** How a turn fails: if it is transient, trailing transient messages are discarded first. */
  function FailedWith(s: State, turnId: string, transient: bool, base: nat): State {
    FailedTurn(if transient then Discarded(s, base) else s, turnId)
  }

  // ---------------------------------------------------------------------------------------------
  // Facts about checkpoint lists
  // ---------------------------------------------------------------------------------------------

  predicate Sorted(cps: seq<Checkpoint>) {
    forall i, j :: 0 <= i < j < |cps| ==> cps[i].historyLength <= cps[j].historyLength
  }

  /** Going back keeps exactly the checkpoints that lie within the shortened history. */
  lemma {:induction false} WithinKeeps(cps: seq<Checkpoint>, n: nat)
    ensures |Within(cps, n)| <= |cps|
    ensures forall c :: c in Within(cps, n) <==> c in cps && c.historyLength <= n
  {
    if cps != [] {
      var init, last := cps[..|cps| - 1], cps[|cps| - 1];
      WithinKeeps(init, n);
      assert cps == init + [last];
    }
  }

  /** In a sorted list, going back drops a suffix. */
  lemma {:induction false} WithinIsPrefix(cps: seq<Checkpoint>, n: nat)
    requires Sorted(cps)
    ensures Within(cps, n) <= cps
  {
    if cps != [] {
      var init, last := cps[..|cps| - 1], cps[|cps| - 1];
      assert cps == init + [last];
      WithinIsPrefix(init, n);
      if last.historyLength <= n { WithinAll(init, n); }
    }
  }

  lemma {:induction false} WithinAll(cps: seq<Checkpoint>, n: nat)
    requires forall i :: 0 <= i < |cps| ==> cps[i].historyLength <= n
    ensures Within(cps, n) == cps
  {
    if cps != [] { WithinAll(cps[..|cps| - 1], n); }
  }
}
