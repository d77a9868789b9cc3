/** The runtime over all sessions: it creates actors on demand and closes them all at once. */
module SessionRuntime {
  import opened SessionActor
  import opened Subsequence

  /** All actors ever created, and every submission that was accepted. */
  datatype Runtime<P> = Runtime(closed: bool, actors: map<string, Actor<P>>, log: seq<(string, P)>)

  datatype Event<P> =
    | Submit(session: string, payload: P)
    | Work(session: string, step: Step<P>)
    | Shutdown

  function ActorOf<P>(rt: Runtime<P>, session: string): Actor<P> {
    if session in rt.actors then rt.actors[session] else Fresh()
  }

  function CloseAll<P>(actors: map<string, Actor<P>>): (r: map<string, Actor<P>>)
    ensures r.Keys == actors.Keys
    ensures forall s :: s in actors ==> r[s] == if actors[s].closed then actors[s] else Next(actors[s], Close)
  {
    map s | s in actors :: if actors[s].closed then actors[s] else Next(actors[s], Close)
  }

  /** What can happen: a submission at any time, a step of some actor that is not a submission or a stop, and
      a shutdown. */
  predicate Possible<P>(rt: Runtime<P>, e: Event<P>) {
    match e
    case Submit(_, _) => true
    case Work(s, step) => s in rt.actors && !step.Enqueue? && !step.Close? && Enabled(rt.actors[s], step)
    case Shutdown => true
  }

  /** Whether a submission is accepted. */
  predicate Accepts<P>(rt: Runtime<P>, session: string) {
    !rt.closed && !ActorOf(rt, session).closed
  }

  function After<P>(rt: Runtime<P>, e: Event<P>): Runtime<P>
    requires Possible(rt, e)
  {
    match e
    case Submit(s, p) =>
      if Accepts(rt, s)
      then Runtime(false, rt.actors[s := Next(ActorOf(rt, s), Enqueue(p))], rt.log + [(s, p)])
      else rt
    case Work(s, step) => rt.(actors := rt.actors[s := Next(rt.actors[s], step)])
    case Shutdown => if rt.closed then rt else Runtime(true, CloseAll(rt.actors), rt.log)
  }

  /** The accepted submissions of one session, in order. */
  function Of<P>(log: seq<(string, P)>, session: string): seq<P> {
    if log == [] then []
    else
      var init, last := log[..|log| - 1], log[|log| - 1];
      if last.0 == session then Of(init, session) + [last.1] else Of(init, session)
  }

  /** The submissions of a session are those of the log that name it, in the order of the log. */
  lemma {:induction false} OfIs<P>(log: seq<(string, P)>, session: string) returns (at: seq<nat>)
    ensures Positions(at, |log|)
    ensures forall i: nat :: i in at <==> i < |log| && log[i].0 == session
    ensures |Of(log, session)| == |at| && forall k :: 0 <= k < |at| ==> Of(log, session)[k] == log[at[k]].1
  {
    at := [];
    if |log| > 0 {
      var init, last := log[..|log| - 1], log[|log| - 1];
      at := OfIs(init, session);
      assert forall i :: 0 <= i < |init| ==> init[i] == log[i];
      if last.0 == session { at := at + [|init|]; }
    }
  }

  /** Every actor is sound, has accepted exactly its session's submissions, and is closed with the runtime. */
  ghost predicate Sound<P>(rt: Runtime<P>) {
    && (forall s :: s in rt.actors ==> SessionActor.Sound(rt.actors[s]) && rt.actors[s].closed == rt.closed)
    && (forall s :: ActorOf(rt, s).accepted == Of(rt.log, s))
  }

  lemma OfSnoc<P>(log: seq<(string, P)>, s: string, p: P, session: string)
    ensures Of(log + [(s, p)], session) == if s == session then Of(log, session) + [p] else Of(log, session)
  {
    assert (log + [(s, p)])[..|log|] == log;
  }

  lemma SoundSubmit<P>(rt: Runtime<P>, s: string, p: P)
    requires Sound(rt)
    ensures Sound(After(rt, Submit(s, p)))
  {
    if Accepts(rt, s) {
      var rt' := After(rt, Submit(s, p));
      SoundStep(ActorOf(rt, s), Enqueue(p));
      forall session ensures ActorOf(rt', session).accepted == Of(rt'.log, session) {
        OfSnoc(rt.log, s, p, session);
      }
    }
  }

  lemma SoundWork<P>(rt: Runtime<P>, s: string, step: Step<P>)
    requires Sound(rt) && Possible(rt, Work(s, step))
    ensures Sound(After(rt, Work(s, step)))
  {
    SoundStep(rt.actors[s], step);
    assert Next(rt.actors[s], step).accepted == rt.actors[s].accepted;
    forall session ensures ActorOf(After(rt, Work(s, step)), session).accepted == ActorOf(rt, session).accepted { }
  }

  lemma SoundEvent<P>(rt: Runtime<P>, e: Event<P>)
    requires Sound(rt) && Possible(rt, e)
    ensures Sound(After(rt, e))
  {
    match e
    case Submit(s, p) => SoundSubmit(rt, s, p);
    case Work(s, step) => SoundWork(rt, s, step);
    case Shutdown =>
      forall s | s in rt.actors && !rt.closed ensures SessionActor.Sound(Next(rt.actors[s], Close)) {
        SoundStep(rt.actors[s], Close);
      }
  }

  ghost predicate IsRun<P>(states: seq<Runtime<P>>, events: seq<Event<P>>) {
    && |states| == |events| + 1
    && forall i :: 0 <= i < |events| ==>
         Possible(states[i], events[i]) && states[i + 1] == After(states[i], events[i])
  }

  /** In every state of every run, each session's handled, in-flight and queued payloads are its accepted
      submissions, in the order of submission and with at most one in flight, whatever other sessions do. */
  lemma {:induction false} EverySessionInOrder<P>(states: seq<Runtime<P>>, events: seq<Event<P>>, n: nat, s: string)
    requires IsRun(states, events) && n <= |events|
    requires states[0] == Runtime(false, map[], [])
    ensures Sound(states[n])
    ensures var a := ActorOf(states[n], s);
            a.handled + InFlight(a.worker) + Payloads(a.queue) == Of(states[n].log, s) && |InFlight(a.worker)| <= 1
  {
    if n > 0 {
      EverySessionInOrder(states, events, n - 1, s);
      SoundEvent(states[n - 1], events[n - 1]);
    }
  }

  /** After a shutdown nothing is accepted any more, in any session. */
  lemma {:induction false} ShutdownIsFinal<P>(states: seq<Runtime<P>>, events: seq<Event<P>>, m: nat, n: nat)
    requires IsRun(states, events) && m <= n <= |events|
    requires states[0] == Runtime(false, map[], []) && states[m].closed
    ensures states[n].closed && states[n].log == states[m].log
    decreases n
  {
    if m < n {
      ShutdownIsFinal(states, events, m, n - 1);
    }
  }

  /** An event of one session leaves every other session alone. */
  lemma SessionsAreIndependent<P>(rt: Runtime<P>, e: Event<P>, other: string)
    requires Sound(rt) && Possible(rt, e) && !e.Shutdown? && e.session != other
    ensures ActorOf(After(rt, e), other) == ActorOf(rt, other)
  {
  }
}
