/** Whole conversations under reply control: what every run keeps. */
module ReplyRuns {
  import opened Messages
  import opened Text
  import opened ReplyState

  /** What can happen to a session.  `Rewrite` stands for compaction, a thread switch and a prompt refresh,
      which replace the history without looking at the checkpoints.  `Discard` is what precedes the failure of
      a transient turn. */
  datatype Step =
    | Begin(opening: Opening)
    | Append(message: Message)
    | Spend(usage: Usage)
    | Rewrite(history: seq<Message>)
    | Ask(request: Request)
    | Complete
    | Finalize(turnId: string, interrupted: bool)
    | Discard(base: nat)
    | Fail(turnId: string)

  function Next(s: State, step: Step): State {
    match step
    case Begin(o) => Begun(s, o)
    case Append(m) => s.(history := s.history + [m])
    case Spend(u) => s.(usage := u)
    case Rewrite(h) => s.(history := h)
    case Ask(r) => Requested(s, r).0
    case Complete => Finished(s)
    case Finalize(id, interrupted) => Finalized(s, id, interrupted).0
    case Discard(base) => Discarded(s, base)
    case Fail(id) => FailedTurn(s, id)
  }

  /** A session together with what it was, was asked and had spent when each of its checkpoints was created. */
  datatype Trace = Trace(
    state: State,
    taken: map<string, seq<Message>>,
    asked: map<string, Input>,
    spent: map<string, Usage>)

  function Advance(t: Trace, step: Step): Trace {
    var s' := Next(t.state, step);
    match step
    case Begin(o) =>
      Trace(s', t.taken[o.checkpointId := t.state.history], t.asked[o.checkpointId := o.input],
            t.spent[o.checkpointId := t.state.usage])
    case _ => t.(state := s')
  }

  function Start(history: seq<Message>, usage: Usage): Trace {
    Trace(Initial(history, usage), map[], map[], map[])
  }

  function Run(start: Trace, steps: seq<Step>): Trace {
    if steps == [] then start else Advance(Run(start, steps[..|steps| - 1]), steps[|steps| - 1])
  }

  // ---------------------------------------------------------------------------------------------
  // Checkpoints in use are live, in every run at all
  // ---------------------------------------------------------------------------------------------

  /** The checkpoints that the turn in progress and the command waiting for it refer to are in the list,
      and the list is bounded. */
  predicate Live(s: State) {
    && |s.checkpoints| <= MAX_CHECKPOINTS
    && (s.active.Some? ==> Has(s.checkpoints, s.active.value.checkpointId))
    && (s.active.Some? && s.pending.Some? ==>
          && Has(s.checkpoints, s.pending.value.checkpointId)
          && (s.pending.value.action != Rollback ==> s.pending.value.checkpointId == s.active.value.checkpointId))
  }

  lemma NewestHasLast(cps: seq<Checkpoint>, c: Checkpoint)
    ensures Has(Newest(cps + [c]), c.id)
  {
    var r := Newest(cps + [c]);
    assert r[|r| - 1] == c;
  }

  lemma LiveStep(s: State, step: Step)
    requires Live(s)
    ensures Live(Next(s, step))
  {
    match step
    case Begin(o) =>
      NewestHasLast(s.checkpoints, Checkpoint(o.checkpointId, o.turnId, o.streamId, o.index, s.usage));
    case Ask(r) => LiveRequest(s, r);
    case Finalize(id, interrupted) => LiveFinalize(s, id, interrupted);
    case Fail(id) =>
      if s.active.Some? {
        var c := LastNamed(s.checkpoints, s.active.value.checkpointId);
        if c.Some? { WithinKeeps(s.checkpoints, c.value.historyLength); }
      }
    case _ =>
  }

  lemma LiveRequest(s: State, r: Request)
    requires Live(s)
    ensures Live(Requested(s, r).0)
  {
    var id := if r.action == Regenerate && s.latest.Some? then s.latest.value.checkpointId else r.checkpointId;
    var c := LastNamed(s.checkpoints, id);
    if c.Some? { WithinKeeps(s.checkpoints, c.value.historyLength); }
  }

  lemma LiveFinalize(s: State, turnId: string, interrupted: bool)
    requires Live(s)
    ensures Live(Finalized(s, turnId, interrupted).0)
  {
    if s.active.Some? && s.pending.Some? {
      var c := LastNamed(s.checkpoints, TargetId(s.pending.value, s.active.value));
      if c.Some? { WithinKeeps(s.checkpoints, c.value.historyLength); }
    }
  }

  /** In every state of every run, the checkpoints in use are live and at most twelve are kept. */
  lemma {:induction false} AlwaysLive(start: Trace, steps: seq<Step>)
    requires Live(start.state)
    ensures Live(Run(start, steps).state) && |Run(start, steps).state.checkpoints| <= 12
  {
    if steps != [] {
      AlwaysLive(start, steps[..|steps| - 1]);
      LiveStep(Run(start, steps[..|steps| - 1]).state, steps[|steps| - 1]);
    }
  }

  /** Hence ending a turn never finds its checkpoint missing. */
  lemma FinalizeNeverMissing(history: seq<Message>, usage: Usage, steps: seq<Step>, turnId: string, interrupted: bool)
    ensures Finalized(Run(Start(history, usage), steps).state, turnId, interrupted).1.Ended?
  {
    AlwaysLive(Start(history, usage), steps);
  }

  /** A command waits only for a turn in progress. */
  predicate NoStray(s: State) {
    s.pending.Some? ==> s.active.Some?
  }

  /** The one way to leave a command behind: ending its turn as not interrupted while it waits. */
  predicate Strands(s: State, step: Step) {
    && step.Finalize? && !step.interrupted
    && s.pending.Some? && s.active.Some? && s.active.value.turnId == step.turnId
  }

  /** Every step keeps commands attached to their turn, except exactly that one. */
  lemma NoStrayIff(s: State, step: Step)
    requires Live(s) && NoStray(s)
    ensures NoStray(Next(s, step)) <==> !Strands(s, step)
  {
  }

  /** As long as turns are only ever finalized as interrupted, a waiting command has a turn in progress. */
  lemma {:induction false} NeverStray(history: seq<Message>, usage: Usage, steps: seq<Step>)
    requires forall i :: 0 <= i < |steps| && steps[i].Finalize? ==> steps[i].interrupted
    ensures NoStray(Run(Start(history, usage), steps).state)
  {
    if steps != [] {
      var init := steps[..|steps| - 1];
      NeverStray(history, usage, init);
      AlwaysLive(Start(history, usage), init);
      NoStrayIff(Run(Start(history, usage), init).state, steps[|steps| - 1]);
    }
  }

  // ---------------------------------------------------------------------------------------------
  // Checkpoints remember the history, in every run that does not rewrite it
  // ---------------------------------------------------------------------------------------------

  /** A checkpoint's prefix of the history is the history at its creation. */
  predicate Remembers(t: Trace, c: Checkpoint) {
    && c.id in t.taken
    && c.historyLength <= |t.state.history|
    && t.state.history[..c.historyLength] == t.taken[c.id]
  }

  predicate Faithful(t: Trace) {
    && (forall i :: 0 <= i < |t.state.checkpoints| ==> Remembers(t, t.state.checkpoints[i]))
    && Sorted(t.state.checkpoints)
    && (t.state.turn.Some? ==>
          forall i :: 0 <= i < |t.state.checkpoints| ==>
            t.state.checkpoints[i].historyLength <= t.state.turn.value.index)
  }

  /** Dropping trailing transient messages down to `base` leaves the first `n` messages alone: they lie within
      the base, or the last of them or some later message is not transient. */
  predicate StaysAbove(history: seq<Message>, n: nat, base: nat) {
    n <= base || exists i :: 0 <= n - 1 <= i < |history| && !history[i].transient
  }

  /** A discard that reaches below no live checkpoint. */
  predicate Spares(s: State, base: nat) {
    forall i :: 0 <= i < |s.checkpoints| ==> StaysAbove(s.history, s.checkpoints[i].historyLength, base)
  }

  /** Generated ids are new, the history length recorded for a turn is still the length when it starts, and
      nothing is discarded below a checkpoint. */
  predicate Clean(t: Trace, step: Step) {
    match step
    case Begin(o) => o.checkpointId != "" && o.checkpointId !in t.taken && o.index == |t.state.history|
    case Rewrite(_) => false
    case Discard(base) => Spares(t.state, base)
    case _ => true
  }

  predicate CleanRun(start: Trace, steps: seq<Step>) {
    steps == []
    || (CleanRun(start, steps[..|steps| - 1])
        && Clean(Run(start, steps[..|steps| - 1]), steps[|steps| - 1]))
  }

  /** Cutting the history at or after a checkpoint does not disturb it. */
  lemma CutRemembers(t: Trace, n: nat, c: Checkpoint)
    requires Remembers(t, c) && c.historyLength <= n
    ensures Remembers(t.(state := t.state.(history := Cut(t.state.history, n))), c)
  {
    if n < |t.state.history| {
      assert t.state.history[..n][..c.historyLength] == t.state.history[..c.historyLength];
    }
  }

  /** Going back to a checkpoint restores the history of its creation and disturbs no older checkpoint. */
  lemma BackToFaithful(t: Trace, c: Checkpoint)
    requires Faithful(t) && c in t.state.checkpoints
    ensures Faithful(t.(state := BackTo(t.state, c)))
    ensures BackTo(t.state, c).history == t.taken[c.id]
  {
    var cps := t.state.checkpoints;
    var n := c.historyLength;
    WithinKeeps(cps, n);
    WithinIsPrefix(cps, n);
    var kept := Within(cps, n);
    forall i | 0 <= i < |kept| ensures Remembers(t.(state := BackTo(t.state, c)), kept[i]) {
      assert kept[i] in cps;
      CutRemembers(t, n, cps[i]);
    }
    assert Remembers(t, c);
    assert t.state.history[..|t.state.history|] == t.state.history;
  }

  /** A step that touches neither history, checkpoints nor turn keeps the trace faithful. */
  lemma SameFaithful(t: Trace, s': State)
    requires Faithful(t)
    requires SameConversation(t.state, s')
    ensures Faithful(t.(state := s'))
  {
  }

  lemma AppendFaithful(t: Trace, m: Message)
    requires Faithful(t)
    ensures Faithful(Advance(t, Append(m)))
  {
    var t' := Advance(t, Append(m));
    forall i | 0 <= i < |t.state.checkpoints| ensures Remembers(t', t.state.checkpoints[i]) {
      var n := t.state.checkpoints[i].historyLength;
      assert Remembers(t, t.state.checkpoints[i]);
      assert (t.state.history + [m])[..n] == t.state.history[..n];
    }
  }

  lemma CompleteFaithful(t: Trace)
    requires Faithful(t)
    ensures Faithful(Advance(t, Complete))
  {
    if t.state.turn.Some? && t.state.turn.value.transient {
      forall i | 0 <= i < |t.state.checkpoints|
        ensures Remembers(Advance(t, Complete), t.state.checkpoints[i])
      {
        CutRemembers(t, t.state.turn.value.index, t.state.checkpoints[i]);
      }
    }
  }

  /** The parts of a state that checkpoints are about. */
  predicate SameConversation(s: State, s': State) {
    s'.history == s.history && s'.checkpoints == s.checkpoints && s'.turn == s.turn
  }

  /** A request either goes back to a live checkpoint or leaves the conversation alone. */
  lemma RequestGoesBack(s: State, r: Request)
    ensures var (s', reply) := Requested(s, r);
            && (reply.Done? ==> reply.restored in s.checkpoints && SameConversation(BackTo(s, reply.restored), s'))
            && (!reply.Done? ==> SameConversation(s, s'))
  {
  }

  lemma RequestFaithful(t: Trace, r: Request)
    requires Faithful(t)
    ensures Faithful(Advance(t, Ask(r)))
  {
    var (s', reply) := Requested(t.state, r);
    RequestGoesBack(t.state, r);
    if reply.Done? {
      BackToFaithful(t, reply.restored);
      SameFaithful(t.(state := BackTo(t.state, reply.restored)), s');
    } else {
      SameFaithful(t, s');
    }
  }

  lemma FinalizeFaithful(t: Trace, turnId: string, interrupted: bool)
    requires Faithful(t)
    ensures Faithful(Advance(t, Finalize(turnId, interrupted)))
  {
    var ending := Finalized(t.state, turnId, interrupted).1;
    var t' := Advance(t, Finalize(turnId, interrupted));
    if ending.Ended? && ending.restored.Some? {
      BackToFaithful(t, ending.restored.value);
      SameFaithful(t.(state := BackTo(t.state, ending.restored.value)), t'.state);
    } else {
      SameFaithful(t, t'.state);
    }
  }

  lemma FailFaithful(t: Trace, turnId: string)
    requires Faithful(t)
    ensures Faithful(Advance(t, Fail(turnId)))
  {
    var s, t' := t.state, Advance(t, Fail(turnId));
    var c := if s.active.Some? then LastNamed(s.checkpoints, s.active.value.checkpointId) else None;
    if c.Some? && s.active.value.turnId == turnId && s.active.value.checkpointId != "" {
      BackToFaithful(t, c.value);
      SameFaithful(t.(state := BackTo(s, c.value)), t'.state);
    } else {
      SameFaithful(t, t'.state);
    }
  }

  function NewCheckpoint(t: Trace, o: Opening): Checkpoint {
    Checkpoint(o.checkpointId, o.turnId, o.streamId, o.index, t.state.usage)
  }

  lemma BeginRemembers(t: Trace, o: Opening, c: Checkpoint)
    requires o.index == |t.state.history|
    requires c == NewCheckpoint(t, o) || (Remembers(t, c) && c.id != o.checkpointId)
    ensures Remembers(Advance(t, Begin(o)), c) && c.historyLength <= o.index
  {
    var h := t.state.history;
    assert (h + [o.message])[..c.historyLength] == h[..c.historyLength];
    assert h[..|h|] == h;
  }

  /** A list that grew by a longest checkpoint and lost its oldest ones is still sorted. */
  lemma NewestSorted(cps: seq<Checkpoint>, c: Checkpoint)
    requires Sorted(cps) && forall i :: 0 <= i < |cps| ==> cps[i].historyLength <= c.historyLength
    ensures Sorted(Newest(cps + [c]))
  {
    var all, kept := cps + [c], Newest(cps + [c]);
    assert Sorted(all);
    assert forall i :: 0 <= i < |kept| ==> kept[i] == all[|all| - |kept| + i];
  }

  lemma BeginFaithful(t: Trace, o: Opening)
    requires Faithful(t) && o.checkpointId !in t.taken && o.index == |t.state.history|
    ensures Faithful(Advance(t, Begin(o)))
  {
    var t' := Advance(t, Begin(o));
    var cps, kept := t.state.checkpoints, t'.state.checkpoints;
    var all := cps + [NewCheckpoint(t, o)];
    forall i | 0 <= i < |all| ensures Remembers(t', all[i]) && all[i].historyLength <= o.index {
      if i < |cps| { assert Remembers(t, cps[i]); }
      BeginRemembers(t, o, all[i]);
    }
    NewestSorted(cps, NewCheckpoint(t, o));
    assert forall i :: 0 <= i < |kept| ==> kept[i] == all[|all| - |kept| + i];
  }

  lemma BeginMisremembers(t: Trace, o: Opening)
    ensures Remembers(Advance(t, Begin(o)), NewCheckpoint(t, o)) ==> o.index == |t.state.history|
  {
    var t' := Advance(t, Begin(o));
    if o.index <= |t'.state.history| {
      assert |t'.state.history[..o.index]| == o.index;
    }
  }

  /** Starting a turn keeps every checkpoint faithful exactly when the length recorded for it is the
      length the history has. */
  lemma BeginFaithfulIff(t: Trace, o: Opening)
    requires Faithful(t) && o.checkpointId !in t.taken
    ensures Faithful(Advance(t, Begin(o))) <==> o.index == |t.state.history|
  {
    BeginMisremembers(t, o);
    var kept := Advance(t, Begin(o)).state.checkpoints;
    assert kept[|kept| - 1] == NewCheckpoint(t, o);
    if o.index == |t.state.history| { BeginFaithful(t, o); }
  }

  lemma SolidLengthIff(history: seq<Message>, n: nat, base: nat)
    requires n <= |history|
    ensures n <= SolidLength(history, base) <==> StaysAbove(history, n, base)
  {
    var d := SolidLength(history, base);
    if base < n <= d { assert !history[d - 1].transient; }
  }

  /** A discard keeps every checkpoint faithful exactly when it reaches below none of them. */
  lemma DiscardFaithfulIff(t: Trace, base: nat)
    requires Faithful(t)
    ensures Faithful(Advance(t, Discard(base))) <==> Spares(t.state, base)
  {
    var d, t' := SolidLength(t.state.history, base), Advance(t, Discard(base));
    assert t.state.history[..|t.state.history|] == t.state.history;
    forall i | 0 <= i < |t.state.checkpoints|
      ensures Remembers(t', t.state.checkpoints[i])
              <==> StaysAbove(t.state.history, t.state.checkpoints[i].historyLength, base)
    {
      var c := t.state.checkpoints[i];
      assert Remembers(t, c);
      SolidLengthIff(t.state.history, c.historyLength, base);
      if c.historyLength <= d { CutRemembers(t, d, c); }
    }
  }

  lemma FaithfulStep(t: Trace, step: Step)
    requires Faithful(t) && Clean(t, step)
    ensures Faithful(Advance(t, step))
  {
    match step
    case Begin(o) => BeginFaithfulIff(t, o);
    case Append(m) => AppendFaithful(t, m);
    case Spend(u) => SameFaithful(t, Next(t.state, step));
    case Ask(r) => RequestFaithful(t, r);
    case Complete => CompleteFaithful(t);
    case Finalize(id, interrupted) => FinalizeFaithful(t, id, interrupted);
    case Discard(base) => DiscardFaithfulIff(t, base);
    case Fail(id) => FailFaithful(t, id);
  }

  // ---------------------------------------------------------------------------------------------
  // Turns and inputs belong together
  // ---------------------------------------------------------------------------------------------

  /** The turn in progress and the last completed input name the checkpoint at which their input was asked. */
  predicate Linked(t: Trace) {
    && t.asked.Keys == t.taken.Keys
    && (t.state.active.Some? ==>
          var a := t.state.active.value;
          && a.checkpointId != "" && a.checkpointId in t.asked && t.asked[a.checkpointId] == a.input
          && t.state.turn.Some? && t.state.turn.value.input == a.input)
    && (t.state.latest.Some? && t.state.latest.value.checkpointId != "" ==>
          var l := t.state.latest.value;
          l.checkpointId in t.asked && t.asked[l.checkpointId] == l.input)
  }

  lemma LinkedStep(t: Trace, step: Step)
    requires Linked(t) && Clean(t, step)
    ensures Linked(Advance(t, step))
  {
    match step
    case Begin(o) =>
    case Ask(r) => LinkedRequest(t, r);
    case Finalize(id, interrupted) => LinkedFinalize(t, id, interrupted);
    case _ =>
  }

  lemma LinkedRequest(t: Trace, r: Request)
    requires Linked(t)
    ensures Linked(Advance(t, Ask(r)))
  {
  }

  lemma LinkedFinalize(t: Trace, turnId: string, interrupted: bool)
    requires Linked(t)
    ensures Linked(Advance(t, Finalize(turnId, interrupted)))
  {
  }

  /** Every checkpoint holds what had been spent at its creation. */
  predicate Metered(t: Trace) {
    && t.spent.Keys == t.taken.Keys
    && forall i :: 0 <= i < |t.state.checkpoints| ==>
         t.state.checkpoints[i].id in t.spent && t.state.checkpoints[i].usage == t.spent[t.state.checkpoints[i].id]
  }

  lemma MeteredFewer(t: Trace, s': State)
    requires Metered(t) && forall c :: c in s'.checkpoints ==> c in t.state.checkpoints
    ensures Metered(t.(state := s'))
  {
    forall i | 0 <= i < |s'.checkpoints|
      ensures s'.checkpoints[i].id in t.spent && s'.checkpoints[i].usage == t.spent[s'.checkpoints[i].id]
    {
      assert s'.checkpoints[i] in s'.checkpoints;
    }
  }

  /** A step keeps all checkpoints, or those within some length, or adds a new one. */
  lemma StepCheckpoints(s: State, step: Step) returns (n: Option<nat>)
    ensures var cps := Next(s, step).checkpoints;
            if n.Some? then cps == Within(s.checkpoints, n.value)
            else cps == if step.Begin? then Begun(s, step.opening).checkpoints else s.checkpoints
  {
    n := None;
    match step
    case Ask(r) =>
      var reply := Requested(s, r).1;
      if reply.Done? { n := Some(reply.restored.historyLength); }
    case Finalize(id, interrupted) =>
      var ending := Finalized(s, id, interrupted).1;
      if ending.Ended? && ending.restored.Some? { n := Some(ending.restored.value.historyLength); }
    case Fail(id) =>
      if s.active.Some? && s.active.value.turnId == id && s.active.value.checkpointId != "" {
        var c := LastNamed(s.checkpoints, s.active.value.checkpointId);
        if c.Some? { n := Some(c.value.historyLength); }
      }
    case _ =>
  }

  lemma MeteredStep(t: Trace, step: Step)
    requires Metered(t) && Clean(t, step)
    ensures Metered(Advance(t, step))
  {
    if step.Begin? {
      MeteredBegin(t, step.opening);
    } else {
      var n := StepCheckpoints(t.state, step);
      if n.Some? { WithinKeeps(t.state.checkpoints, n.value); }
      MeteredFewer(t, Next(t.state, step));
    }
  }

  lemma MeteredBegin(t: Trace, o: Opening)
    requires Metered(t) && o.checkpointId !in t.taken
    ensures Metered(Advance(t, Begin(o)))
  {
    var all, kept := t.state.checkpoints + [NewCheckpoint(t, o)], Advance(t, Begin(o)).state.checkpoints;
    assert forall i :: 0 <= i < |kept| ==> kept[i] == all[|all| - |kept| + i];
  }

  /** What every run keeps that neither rewrites the history, nor starts a turn with a stale length, nor
      discards below a checkpoint. */
  predicate Sound(t: Trace) {
    Live(t.state) && Faithful(t) && Linked(t) && Metered(t)
  }

  lemma SoundStep(t: Trace, step: Step)
    requires Sound(t) && Clean(t, step)
    ensures Sound(Advance(t, step))
  {
    LiveStep(t.state, step);
    FaithfulStep(t, step);
    LinkedStep(t, step);
    MeteredStep(t, step);
  }

  lemma {:induction false} CleanRunsAreSound(start: Trace, steps: seq<Step>)
    requires Sound(start) && CleanRun(start, steps)
    ensures Sound(Run(start, steps))
  {
    if steps != [] {
      var init, last := steps[..|steps| - 1], steps[|steps| - 1];
      CleanRunsAreSound(start, init);
      SoundStep(Run(start, init), last);
    }
  }

  lemma StartIsSound(history: seq<Message>, usage: Usage)
    ensures Sound(Start(history, usage))
  {
  }

  /** Every clean run of a session from its beginning is sound. */
  lemma SessionsAreSound(history: seq<Message>, usage: Usage, steps: seq<Step>)
    requires CleanRun(Start(history, usage), steps)
    ensures Sound(Run(Start(history, usage), steps))
  {
    StartIsSound(history, usage);
    CleanRunsAreSound(Start(history, usage), steps);
  }

  // ---------------------------------------------------------------------------------------------
  // What the commands do to the conversation
  // ---------------------------------------------------------------------------------------------

  /** Marking a turn as failed puts the history back to what it was before the turn. */
  lemma FailUndoesTurn(t: Trace)
    requires Sound(t) && t.state.active.Some?
    ensures var a := t.state.active.value;
            var s' := FailedTurn(t.state, a.turnId);
            s'.history == t.taken[a.checkpointId] && s'.active.None? && s'.pending.None? && s'.lastFinish == Failed
  {
    BackToFaithful(t, LastNamed(t.state.checkpoints, t.state.active.value.checkpointId).value);
  }

  /** An interrupted turn: going back to regenerate or to append guidance undoes the turn, going back to a
      checkpoint restores the history of its creation, and anything else leaves the history alone. */
  lemma FinalizeUndoesTurn(t: Trace)
    requires Sound(t) && t.state.active.Some? && t.state.pending.Some?
    ensures var a, p := t.state.active.value, t.state.pending.value;
            var (s', ending) := Finalized(t.state, a.turnId, true);
            && ending.Ended? && ending.command == Some(p.action) && s'.active.None? && s'.pending.None?
            && (IsReplay(p.action) ==> s'.history == t.taken[a.checkpointId] && s'.lastFinish == Replayed)
            && (p.action == Rollback ==>
                  p.checkpointId in t.taken && s'.history == t.taken[p.checkpointId] && s'.lastFinish == RolledBack)
            && (!GoesBack(p.action) ==>
                  s'.history == t.state.history && s'.checkpoints == t.state.checkpoints && s'.lastFinish == Stopped)
  {
    var p := t.state.pending.value;
    if GoesBack(p.action) {
      BackToFaithful(t, LastNamed(t.state.checkpoints, p.checkpointId).value);
    }
  }

  /** Regenerating an interrupted turn replays what that turn was asked, exactly when its input is not
      empty or there is no other non-empty input to fall back to. */
  lemma RegenerateReplaysInput(t: Trace)
    requires Sound(t) && t.state.active.Some? && t.state.pending.Some?
    requires t.state.pending.value.action == Regenerate
    ensures var a := t.state.active.value;
            Finalized(t.state, a.turnId, true).1.replay == Some(t.asked[a.checkpointId])
            <==> (a.input != EMPTY_INPUT || t.state.latest.None? || t.state.latest.value.input == EMPTY_INPUT)
  {
    FinalizeUndoesTurn(t);
  }

  /** Merging guidance keeps the text before and the guidance after, and changes nothing else of the input
      but two marks in its metadata. */
  lemma GuidanceKeepsInput(input: Input, guidance: string)
    requires Strip(guidance) != ""
    ensures var merged := MergedGuidance(input, guidance);
            && merged.content.Some?
            && (input.content.Some? ==> Strip(input.content.value) <= merged.content.value)
            && |Strip(guidance)| <= |merged.content.value|
            && merged.content.value[|merged.content.value| - |Strip(guidance)|..] == Strip(guidance)
            && merged.fields == input.fields
            && merged.metadata.Some?
            && (input.metadata.Some? ==>
                  forall k :: k in input.metadata.value && k !in {"reply_control_replay", "reply_control_guidance"} ==>
                    k in merged.metadata.value && merged.metadata.value[k] == input.metadata.value[k])
  {
    var base := Strip(if input.content.Some? then input.content.value else "");
    var text := Strip(guidance);
    var all := base + GUIDANCE_LABEL + text;
    assert all[..|base|] == base && all[|all| - |text|..] == text;
  }

  /** An input of which nothing is left once guidance is merged into it. */
  predicate Mute(input: Input) {
    && input.fields == map[]
    && (input.content.Some? ==> Strip(input.content.value) == "")
    && (input.metadata.Some? ==> input.metadata.value.Keys <= {"reply_control_replay", "reply_control_guidance"})
  }

  lemma MuteIff(input: Input, guidance: string)
    ensures MergedGuidance(input, guidance) == MergedGuidance(EMPTY_INPUT, guidance) <==> Mute(input)
  {
    var merged, plain := MergedGuidance(input, guidance), MergedGuidance(EMPTY_INPUT, guidance);
    var base := Strip(if input.content.Some? then input.content.value else "");
    var text := Strip(guidance);
    assert |base| == 0 <==> merged.content == plain.content by {
      assert Strip("") == "";
      assert |base + GUIDANCE_LABEL + text| == |base| + |"" + GUIDANCE_LABEL + text|;
    }
    MuteMetadata(input);
  }

  lemma MuteMetadata(input: Input)
    ensures MergedGuidance(input, "").metadata == MergedGuidance(EMPTY_INPUT, "").metadata
            <==> (input.metadata.Some? ==>
                    input.metadata.value.Keys <= {"reply_control_replay", "reply_control_guidance"})
  {
    MarksOnly(if input.metadata.Some? then input.metadata.value else map[],
              "reply_control_replay", "append_guidance", "reply_control_guidance", "True");
  }

  lemma MarksOnly<K, V>(m: map<K, V>, k: K, v: V, l: K, w: V)
    ensures m[k := v][l := w] == map[][k := v][l := w] <==> m.Keys <= {k, l}
  {
    var merged, plain := m[k := v][l := w], map[][k := v][l := w];
    assert merged.Keys == m.Keys + {k, l} && plain.Keys == {k, l};
    if m.Keys <= {k, l} {
      assert forall x :: x in plain ==> merged[x] == plain[x];
    }
  }

  /** Appending guidance replays what the turn was asked with the guidance merged in, exactly when its input is
      not empty or there is no other input to fall back to that would show. */
  lemma GuidanceReplaysInput(t: Trace)
    requires Sound(t) && t.state.active.Some? && t.state.pending.Some?
    requires t.state.pending.value.action == AppendGuidance
    ensures var a, p := t.state.active.value, t.state.pending.value;
            Finalized(t.state, a.turnId, true).1.replay == Some(MergedGuidance(t.asked[a.checkpointId], p.guidance))
            <==> (a.input != EMPTY_INPUT || t.state.latest.None? || Mute(t.state.latest.value.input))
  {
    FinalizeUndoesTurn(t);
    if t.state.latest.Some? { MuteIff(t.state.latest.value.input, t.state.pending.value.guidance); }
  }

  /** Regenerating while idle succeeds exactly when the checkpoint of the last completed turn is still live;
      then the history is as it was before that turn, and the turn's own input is replayed. */
  lemma IdleRegenerate(t: Trace, r: Request)
    requires Sound(t) && t.state.active.None? && r.action == Regenerate
    ensures var (s', reply) := Requested(t.state, r);
            && (reply.Done? <==>
                  && t.state.latest.Some? && t.state.latest.value.checkpointId != ""
                  && Has(t.state.checkpoints, t.state.latest.value.checkpointId))
            && (reply.Done? ==>
                  var id := t.state.latest.value.checkpointId;
                  id in t.taken && s'.history == t.taken[id] && reply.replay == Some(t.asked[id]))
            && (!reply.Done? ==> reply.Rejected? && s' == t.state)
  {
    var reply := Requested(t.state, r).1;
    if reply.Done? { BackToFaithful(t, reply.restored); }
  }

  /** Rolling back while idle succeeds exactly for a live checkpoint and restores the history of its creation. */
  lemma IdleRollback(t: Trace, r: Request)
    requires Sound(t) && t.state.active.None? && r.action == Rollback
    ensures var (s', reply) := Requested(t.state, r);
            && (reply.Done? <==> r.checkpointId != "" && Has(t.state.checkpoints, r.checkpointId))
            && (reply.Done? ==> r.checkpointId in t.taken && s'.history == t.taken[r.checkpointId])
            && (!reply.Done? ==> reply.Rejected? && s' == t.state)
  {
    var reply := Requested(t.state, r).1;
    if reply.Done? { BackToFaithful(t, reply.restored); }
  }
}
