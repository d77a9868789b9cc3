/** The per-session actor: one queue, one worker, one payload at a time. */
module SessionActor {

  /** A queued payload, or the marker that tells the worker to return. */
  datatype Item<P> = Payload(payload: P) | StopMarker

  /** The worker task.  `Created` is a worker that waits for a handler which has not taken its first step,
      `Running` one whose handler has, and `Ended` one whose handler is done and which has not run since. */
  datatype Worker<P> =
    | NotStarted
    | Idle
    | Created(payload: P)
    | Running(payload: P)
    | Ended(payload: P, cancelled: bool)
    | Returned

  /** A stop that has closed the actor and not yet queued its marker: it first waits for the handler it
      cancelled, if there is one. */
  datatype Stop = NoStop | AwaitingHandler | Ready

  /** An actor, with every payload it ever accepted, every payload whose handler took its first step, and every
      payload its worker is done with, because the handler ended or because it was cancelled before it took
      its first step; `skipped` counts the latter. */
  datatype Actor<P> = Actor(
    queue: seq<Item<P>>,
    worker: Worker<P>,
    closed: bool,
    stop: Stop,
    accepted: seq<P>,
    begun: seq<P>,
    handled: seq<P>,
    skipped: nat)

  datatype Step<P> =
    | Enqueue(payload: P)
    | Take
    | BeginHandler
    | CancelUnbegun
    | EndHandler(cancelled: bool)
    | Wake
    | Close
    | QueueStop

  function Fresh<P>(): Actor<P> {
    Actor([], NotStarted, false, NoStop, [], [], [], 0)
  }

  /** There is a handler that is not done. */
  predicate HasHandler<P>(w: Worker<P>) {
    w.Created? || w.Running?
  }

  /** `_ensure_started`. */
  function Started<P>(w: Worker<P>): Worker<P> {
    if w.NotStarted? || w.Returned? then Idle else w
  }

  predicate Enabled<P>(a: Actor<P>, step: Step<P>) {
    match step
    case Enqueue(_) => !a.closed
    case Take => a.worker.Idle? && |a.queue| > 0
    case BeginHandler => a.worker.Created?
    case CancelUnbegun => a.worker.Created?
    case EndHandler(_) => a.worker.Running?
    case Wake => a.worker.Ended?
    case Close => !a.closed
    case QueueStop => a.stop == Ready
  }

  function Next<P>(a: Actor<P>, step: Step<P>): Actor<P>
    requires Enabled(a, step)
  {
    match step
    case Enqueue(p) =>
      a.(worker := Started(a.worker), queue := a.queue + [Payload(p)], accepted := a.accepted + [p])
    case Take =>
      a.(queue := a.queue[1..],
         worker := if a.queue[0].StopMarker? then Returned else Created(a.queue[0].payload))
    case BeginHandler => a.(worker := Running(a.worker.payload), begun := a.begun + [a.worker.payload])
    case CancelUnbegun => a.(worker := Worker.Ended(a.worker.payload, true), skipped := a.skipped + 1)
    case EndHandler(cancelled) => a.(worker := Worker.Ended(a.worker.payload, cancelled))
    case Wake =>
      a.(worker := if a.worker.cancelled then Returned else Idle, handled := a.handled + [a.worker.payload],
         stop := if a.stop == AwaitingHandler then Ready else a.stop)
    case Close => a.(closed := true, stop := if HasHandler(a.worker) then AwaitingHandler else Ready)
    case QueueStop => a.(worker := Started(a.worker), queue := a.queue + [StopMarker], stop := NoStop)
  }

  /** What cancelling the current handler comes to: one that has not begun ends there, and one that has ends with
      or without letting the cancellation through. */
  function Cancelled<P>(a: Actor<P>, absorbs: bool): Actor<P> {
    if a.worker.Created? then Next(a, CancelUnbegun)
    else if a.worker.Running? then Next(a, EndHandler(!absorbs))
    else a
  }

  /** After a cancellation no handler is in progress.  The worker survives it if the handler has begun and absorbs
      it, and only then, if there was a handler at all; the queue and what was accepted are as before. */
  lemma CancelledIs<P>(a: Actor<P>, absorbs: bool)
    ensures var a' := Cancelled(a, absorbs);
            && !HasHandler(a'.worker) && (!HasHandler(a.worker) ==> a' == a)
            && (HasHandler(a.worker) ==> a'.worker.Ended? && a'.worker.payload == a.worker.payload)
            && (HasHandler(a.worker) ==> (Alive(a'.worker) <==> a.worker.Running? && absorbs))
            && a'.queue == a.queue && a'.accepted == a.accepted && a'.handled == a.handled && a'.begun == a.begun
            && a'.skipped == a.skipped + (if a.worker.Created? then 1 else 0)
  {
  }

  // ---------------------------------------------------------------------------------------------
  // Nothing is lost, repeated or reordered
  // ---------------------------------------------------------------------------------------------

  function InFlight<P>(w: Worker<P>): seq<P> {
    if HasHandler(w) || w.Ended? then [w.payload] else []
  }

  function Payloads<P>(queue: seq<Item<P>>): seq<P> {
    if queue == [] then []
    else if queue[0].Payload? then [queue[0].payload] + Payloads(queue[1..])
    else Payloads(queue[1..])
  }

  lemma {:induction false} PayloadsSnoc<P>(queue: seq<Item<P>>, item: Item<P>)
    ensures Payloads(queue + [item]) == Payloads(queue) + if item.Payload? then [item.payload] else []
  {
    if queue == [] {
      assert ([item])[1..] == [];
    } else {
      assert (queue + [item])[1..] == queue[1..] + [item];
      PayloadsSnoc(queue[1..], item);
    }
  }

  /** Handled, in flight and queued payloads are the accepted ones, in order. */
  predicate Conserved<P(==)>(a: Actor<P>) {
    a.handled + InFlight(a.worker) + Payloads(a.queue) == a.accepted
  }

  /** The stop marker is queued at most once, last, and only on a closed actor. */
  predicate StopIsLast<P>(a: Actor<P>) {
    && (a.stop != NoStop ==> a.closed && forall i :: 0 <= i < |a.queue| ==> a.queue[i].Payload?)
    && (!a.closed ==> forall i :: 0 <= i < |a.queue| ==> a.queue[i].Payload?)
    && (forall i :: 0 <= i < |a.queue| - 1 ==> a.queue[i].Payload?)
  }

  /** Apart from the skipped ones, the payloads done with are those whose handlers took their first step. */
  predicate Counted<P(==)>(a: Actor<P>) {
    && |a.begun| + a.skipped == |a.handled| + (if a.worker.Running? || a.worker.Ended? then 1 else 0)
    && (a.skipped == 0 ==>
          a.begun == a.handled + if a.worker.Running? || a.worker.Ended? then [a.worker.payload] else [])
  }

  predicate Sound<P(==)>(a: Actor<P>) {
    Conserved(a) && Counted(a) && StopIsLast(a)
  }

  lemma ConservedStep<P>(a: Actor<P>, step: Step<P>)
    requires Enabled(a, step) && Conserved(a)
    ensures Conserved(Next(a, step))
  {
    match step
    case Enqueue(p) => PayloadsSnoc(a.queue, Payload(p));
    case QueueStop => PayloadsSnoc(a.queue, StopMarker);
    case _ =>
  }

  lemma CountedStep<P>(a: Actor<P>, step: Step<P>)
    requires Enabled(a, step) && Counted(a)
    ensures Counted(Next(a, step))
  {
  }

  lemma SoundStep<P>(a: Actor<P>, step: Step<P>)
    requires Enabled(a, step) && Sound(a)
    ensures Sound(Next(a, step))
  {
    ConservedStep(a, step);
    CountedStep(a, step);
  }

  /** When the worker takes the stop marker, it is done with everything that was ever accepted, and everything
      was begun exactly if nothing was cancelled before it began. */
  lemma StopComesAfterAll<P>(a: Actor<P>)
    requires Sound(a) && Enabled(a, Take) && a.queue[0].StopMarker?
    ensures a.handled == a.accepted && Next(a, Take).queue == [] && a.closed
    ensures a.begun == a.accepted <==> a.skipped == 0
  {
    assert |a.queue| == 1;
    assert a.queue[1..] == [];
    assert Payloads(a.queue) == [] && InFlight(a.worker) == [];
    assert a.handled + [] + [] == a.handled;
  }

  // ---------------------------------------------------------------------------------------------
  // Runs
  // ---------------------------------------------------------------------------------------------

  /** The states an actor goes through: each follows from the one before by a step that was possible. */
  ghost predicate IsRun<P>(states: seq<Actor<P>>, steps: seq<Step<P>>) {
    && |states| == |steps| + 1
    && forall i :: 0 <= i < |steps| ==> Enabled(states[i], steps[i]) && states[i + 1] == Next(states[i], steps[i])
  }

  /** Across cancellations and restarts of the worker, every state of every run is sound. */
  lemma {:induction false} AlwaysSound<P>(states: seq<Actor<P>>, steps: seq<Step<P>>, n: nat)
    requires IsRun(states, steps) && n <= |steps| && Sound(states[0])
    ensures Sound(states[n])
  {
    if n > 0 {
      AlwaysSound(states, steps, n - 1);
      SoundStep(states[n - 1], steps[n - 1]);
    }
  }

  /** Once closed, an actor stays closed and accepts nothing more. */
  lemma {:induction false} ClosedAcceptsNothing<P>(states: seq<Actor<P>>, steps: seq<Step<P>>, m: nat, n: nat)
    requires IsRun(states, steps) && m <= n <= |steps| && states[m].closed
    ensures states[n].closed && states[n].accepted == states[m].accepted
    decreases n
  {
    if m < n { ClosedAcceptsNothing(states, steps, m, n - 1); }
  }

  /** What an actor has handled, and then has in flight, only ever grows along the accepted list. */
  lemma {:induction false} HandledGrows<P>(states: seq<Actor<P>>, steps: seq<Step<P>>, m: nat, n: nat)
    requires IsRun(states, steps) && m <= n <= |steps|
    ensures states[m].handled <= states[n].handled && states[m].accepted <= states[n].accepted
    decreases n
  {
    if m < n { HandledGrows(states, steps, m, n - 1); }
  }

  // ---------------------------------------------------------------------------------------------
  // Handlers that absorb cancellation
  // ---------------------------------------------------------------------------------------------

  predicate Alive<P>(w: Worker<P>) {
    w.Idle? || HasHandler(w) || (w.Ended? && !w.cancelled)
  }

  /** Whenever something is queued there is a worker that will come to it. */
  predicate Attended<P>(a: Actor<P>) {
    |a.queue| > 0 ==> Alive(a.worker)
  }

  /** The handler ends with a cancellation that reaches the worker: it lets one through, or it is cancelled
      before it took its first step and so had no chance to absorb it. */
  predicate Kills<P>(step: Step<P>) {
    step.CancelUnbegun? || (step.EndHandler? && step.cancelled)
  }

  /** The two ways to lose the worker: a cancellation reaches it while something is queued, or something is
      queued before the worker has noticed. */
  predicate Loses<P>(a: Actor<P>, step: Step<P>) {
    || (Kills(step) && |a.queue| > 0)
    || ((step.Enqueue? || step.QueueStop?) && a.worker.Ended? && a.worker.cancelled)
  }

  /** A step keeps the queue attended exactly unless it loses the worker. */
  lemma AttendedIff<P>(a: Actor<P>, step: Step<P>)
    requires Enabled(a, step) && Sound(a) && Attended(a)
    ensures Attended(Next(a, step)) <==> !Loses(a, step)
  {
  }

  predicate NotCancelled<P>(w: Worker<P>) {
    w.Ended? ==> !w.cancelled
  }

  lemma AttendedStep<P>(a: Actor<P>, step: Step<P>)
    requires Enabled(a, step) && Sound(a) && Attended(a) && NotCancelled(a.worker)
    requires !Kills(step)
    ensures Attended(Next(a, step)) && NotCancelled(Next(a, step).worker)
  {
    AttendedIff(a, step);
  }

  /** The next payload finds or brings a worker, unless a cancelled one has still to notice. */
  lemma EnqueueAttends<P>(a: Actor<P>, p: P)
    requires !a.closed && !(a.worker.Ended? && a.worker.cancelled)
    ensures Attended(Next(a, Enqueue(p)))
  {
  }

  /** Every handler of the run absorbs cancellation. */
  predicate Absorbing<P>(steps: seq<Step<P>>) {
    forall i :: 0 <= i < |steps| && steps[i].EndHandler? ==> !steps[i].cancelled
  }

  /** Only handlers that took their first step are cancelled. */
  predicate CancelsBegun<P>(steps: seq<Step<P>>) {
    forall i :: 0 <= i < |steps| ==> !steps[i].CancelUnbegun?
  }

  lemma {:induction false} AlwaysAttended<P>(states: seq<Actor<P>>, steps: seq<Step<P>>, n: nat)
    requires IsRun(states, steps) && n <= |steps| && states[0] == Fresh()
    requires Absorbing(steps) && CancelsBegun(steps)
    ensures Attended(states[n]) && NotCancelled(states[n].worker) && states[n].skipped == 0
  {
    if n > 0 {
      AlwaysAttended(states, steps, n - 1);
      AlwaysSound(states, steps, n - 1);
      AttendedStep(states[n - 1], steps[n - 1]);
    }
  }

  /** The actor waits for the outside: its worker has nothing to do. */
  predicate Quiet<P>(a: Actor<P>) {
    !(a.worker.Idle? && |a.queue| > 0) && !HasHandler(a.worker) && !a.worker.Ended?
  }

  /** An actor at rest is done with everything, marker included, exactly if its queue is attended, and began
      everything exactly if moreover nothing was skipped. */
  lemma RestIff<P>(a: Actor<P>)
    requires Sound(a) && Quiet(a)
    ensures |a.queue| == 0 <==> Attended(a)
    ensures Attended(a) ==> a.handled == a.accepted && (a.begun == a.accepted <==> a.skipped == 0)
  {
    if Attended(a) {
      NothingPending(a);
    }
  }

  lemma NothingPending<P>(a: Actor<P>)
    requires Conserved(a) && |a.queue| == 0 && !HasHandler(a.worker) && !a.worker.Ended?
    ensures a.handled == a.accepted
  {
    assert a.handled + [] + [] == a.handled;
  }

  /** With handlers that absorb cancellation, none of them cancelled before it took its first step, an actor
      comes to rest only when everything accepted has been begun and handled. */
  lemma RestMeansAllHandled<P>(states: seq<Actor<P>>, steps: seq<Step<P>>, n: nat)
    requires IsRun(states, steps) && n <= |steps| && Absorbing(steps) && CancelsBegun(steps)
    requires states[0] == Fresh() && Quiet(states[n])
    ensures states[n].begun == states[n].handled == states[n].accepted && states[n].queue == []
  {
    AlwaysSound(states, steps, n);
    AlwaysAttended(states, steps, n);
    RestIff(states[n]);
  }

  /** How many payloads some steps cancel before they are begun. */
  function Skips<P>(steps: seq<Step<P>>): nat {
    if steps == [] then 0 else Skips(steps[..|steps| - 1]) + if steps[|steps| - 1].CancelUnbegun? then 1 else 0
  }

  lemma {:induction false} SkipsNone<P>(steps: seq<Step<P>>)
    ensures Skips(steps) == 0 <==> CancelsBegun(steps)
  {
    if steps != [] {
      var init := steps[..|steps| - 1];
      SkipsNone(init);
      assert forall i :: 0 <= i < |init| ==> init[i] == steps[i];
    }
  }

  lemma {:induction false} SkippedIsSkips<P>(states: seq<Actor<P>>, steps: seq<Step<P>>, n: nat)
    requires IsRun(states, steps) && n <= |steps| && states[0].skipped == 0
    ensures states[n].skipped == Skips(steps[..n])
  {
    if n > 0 {
      SkippedIsSkips(states, steps, n - 1);
      assert steps[..n][..n - 1] == steps[..n - 1];
    }
  }

  /** In a run that comes to take the stop marker, everything accepted is done with, and everything was begun
      exactly if the run cancelled no handler before its first step. */
  lemma MarkerMeansAllBegunIff<P>(states: seq<Actor<P>>, steps: seq<Step<P>>, n: nat)
    requires IsRun(states, steps) && n < |steps| && states[0] == Fresh()
    requires steps[n].Take? && states[n].queue[0].StopMarker?
    ensures states[n].handled == states[n].accepted
    ensures states[n].begun == states[n].accepted <==> CancelsBegun(steps[..n])
  {
    AlwaysSound(states, steps, n);
    StopComesAfterAll(states[n]);
    SkippedIsSkips(states, steps, n);
    SkipsNone(steps[..n]);
  }

  /** The stop marker can be taken with a payload never begun: the actor is stopped right after its worker took
      the payload. */
  lemma MarkerWithUnbegun<P>(p: P)
    ensures var a1 := Next(Next(Next(Fresh(), Enqueue(p)), Take), Close);
            var a2 := Next(Next(Next(a1, CancelUnbegun), Wake), QueueStop);
            var a3 := Next(a2, Take);
            && a2.queue == [StopMarker] && a3.worker.Returned? && a3.queue == []
            && a3.accepted == [p] && a3.handled == [p] && a3.begun == []
  {
  }

  /** A handler that would absorb every cancellation is no help before its first step: its payload is never
      begun, and the one behind it is left without a worker. */
  lemma UnbegunIsSkipped<P>(p: P, q: P)
    ensures var a1 := Next(Next(Next(Fresh(), Enqueue(p)), Enqueue(q)), Take);
            var a2 := Next(Next(a1, CancelUnbegun), Wake);
            && a2.handled == [p] && a2.begun == [] && a2.skipped == 1
            && a2.queue == [Payload(q)] && Quiet(a2) && !Attended(a2)
  {
  }

  /** Otherwise payloads can be left lying: the actor is closed, no stop is under way, the worker is gone. */
  predicate Stranded<P>(a: Actor<P>) {
    a.closed && a.stop == NoStop && a.worker.Returned? && |a.queue| > 0
  }

  /** Nothing can happen to a stranded actor any more. */
  lemma StrandedForever<P>(a: Actor<P>, step: Step<P>)
    requires Stranded(a)
    ensures !Enabled(a, step)
  {
  }

  /** It does happen: a payload is cancelled, and the actor is stopped before its worker has noticed. */
  lemma StrandedHappens<P>(p: P, q: P)
    ensures var a1 := Next(Next(Next(Fresh(), Enqueue(p)), Enqueue(q)), Take);
            var a2 := Next(Next(Next(Next(Next(a1, BeginHandler), EndHandler(true)), Close), QueueStop), Wake);
            Stranded(a2) && a2.handled == [p] && a2.accepted == [p, q] && a2.queue == [Payload(q), StopMarker]
  {
  }

  // ---------------------------------------------------------------------------------------------
  // The actor itself
  // ---------------------------------------------------------------------------------------------

  class QueueActor<P(==)> {
    var queue: seq<Item<P>>
    var worker: Worker<P>
    var closed: bool
    var stop: Stop
    ghost var accepted: seq<P>
    ghost var begun: seq<P>
    ghost var handled: seq<P>
    ghost var skipped: nat

    ghost function View(): Actor<P>
      reads this
    {
      Actor(queue, worker, closed, stop, accepted, begun, handled, skipped)
    }

    constructor ()
      ensures View() == Fresh() && Sound(View())
    {
      queue, worker, closed, stop := [], NotStarted, false, NoStop;
      accepted, begun, handled, skipped := [], [], [], 0;
    }

    method EnsureStarted()
      modifies this`worker
      ensures worker == Started(old(worker))
    {
      if worker.NotStarted? || worker.Returned? { worker := Idle; }
    }

    /** `enqueue`: a closed actor refuses. */
    method Submit(p: P) returns (ok: bool)
      requires Sound(View())
      modifies this
      ensures ok == !old(closed) && Sound(View())
      ensures View() == if ok then Next(old(View()), Enqueue(p)) else old(View())
    {
      if closed { return false; }
      SoundStep(View(), Enqueue(p));
      EnsureStarted();
      queue := queue + [Payload(p)];
      accepted := accepted + [p];
      return true;
    }

    /** One pass of the worker's loop up to the start of the handler. */
    method TakeNext() returns (item: Item<P>)
      requires Sound(View()) && Enabled(View(), Take)
      modifies this
      ensures Sound(View()) && View() == Next(old(View()), Take) && item == old(queue)[0]
      ensures item.StopMarker? ==> handled == accepted && (begun == accepted <==> skipped == 0)
    {
      SoundStep(View(), Take);
      item := queue[0];
      ghost var before := View();
      if item.StopMarker? { StopComesAfterAll(before); }
      queue := queue[1..];
      worker := if item.StopMarker? then Returned else Created(item.payload);
    }

    /** The first step of the handler that was created for a payload. */
    method StartHandler()
      requires Sound(View()) && worker.Created?
      modifies this
      ensures Sound(View()) && View() == Next(old(View()), BeginHandler)
    {
      SoundStep(View(), BeginHandler);
      begun := begun + [worker.payload];
      worker := Running(worker.payload);
    }

    /** `cancel_current`: the handler ends; if it took its first step, it is up to it whether it absorbs the
        cancellation. */
    method CancelCurrent(absorbs: bool) returns (cancelled: bool)
      requires Sound(View())
      modifies this
      ensures Sound(View()) && cancelled == HasHandler(old(worker))
      ensures View() == Cancelled(old(View()), absorbs)
    {
      if worker.Created? {
        SoundStep(View(), CancelUnbegun);
        worker := Worker.Ended(worker.payload, true);
        skipped := skipped + 1;
        return true;
      } else if worker.Running? {
        SoundStep(View(), EndHandler(!absorbs));
        worker := Worker.Ended(worker.payload, !absorbs);
        return true;
      }
      return false;
    }

    /** The rest of the pass, once the handler has ended. */
    method FinishPass()
      requires Sound(View()) && worker.Ended?
      modifies this
      ensures Sound(View()) && View() == Next(old(View()), Wake)
    {
      SoundStep(View(), Wake);
      handled := handled + [worker.payload];
      worker := if worker.cancelled then Returned else Idle;
      if stop == AwaitingHandler { stop := Ready; }
    }

    /** The first part of `stop`: close if that has not been done, and cancel the handler if there is one. */
    method BeginStop(absorbs: bool) returns (first: bool)
      requires Sound(View())
      modifies this
      ensures first == !old(closed) && Sound(View())
      ensures View() == Cancelled(if first then Next(old(View()), Close) else old(View()), absorbs)
    {
      first := !closed;
      if first {
        SoundStep(View(), Close);
        closed := true;
        stop := if HasHandler(worker) then AwaitingHandler else Ready;
      }
      var _ := CancelCurrent(absorbs);
    }

    /** The second part of `stop`: make sure there is a worker, and queue the marker. */
    method FinishStop()
      requires Sound(View()) && stop == Ready
      modifies this
      ensures Sound(View()) && View() == Next(old(View()), QueueStop)
    {
      SoundStep(View(), QueueStop);
      EnsureStarted();
      queue := queue + [StopMarker];
      stop := NoStop;
    }
  }
}
