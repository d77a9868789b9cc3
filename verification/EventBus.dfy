/** The event bus's table of requests that wait for a person, with its per-session index. */
module EventBus {
  import opened Messages

  datatype Kind = Confirm | HumanInput

  datatype Answer = Accepted(accepted: bool) | Text(answer: string, option: Option<string>)

  /** The result a requester waits for. */
  datatype Future = Waiting | Answered(answer: Answer) | Cancelled

  datatype Entry = Entry(id: string, session: string, kind: Kind)

  /** What is published when an answer is accepted. */
  datatype Notice = Notice(id: string, session: string, kind: Kind, answer: Answer)

  /** `table` is the request dictionary in insertion order, `index` the request of each session.  `futures`
      also remembers the requests that have left the table. */
  datatype State = State(table: seq<Entry>, index: map<string, string>, futures: map<string, Future>)

  // ---------------------------------------------------------------------------------------------
  // Looking up
  // ---------------------------------------------------------------------------------------------

  function Get(table: seq<Entry>, id: string): (e: Option<Entry>)
    ensures e.Some? ==> e.value in table && e.value.id == id
    ensures e.None? ==> forall f :: f in table ==> f.id != id
  {
    if table == [] then None else if table[0].id == id then Some(table[0]) else Get(table[1..], id)
  }

  predicate IsWaiting(s: State, id: string) {
    id in s.futures && s.futures[id] == Waiting
  }

  /** Whether the search for a request of a kind, and of a session if one is named, may return this entry. */
  predicate Matches(s: State, e: Entry, kind: Kind, session: string) {
    e.kind == kind && (session == "" || e.session == session) && IsWaiting(s, e.id)
  }

  function FindIn(s: State, table: seq<Entry>, kind: Kind, session: string): (e: Option<Entry>)
    ensures e.Some? ==> e.value in table && Matches(s, e.value, kind, session)
    ensures e.None? ==> forall f :: f in table ==> !Matches(s, f, kind, session)
  {
    if table == [] then None
    else if Matches(s, table[0], kind, session) then Some(table[0])
    else FindIn(s, table[1..], kind, session)
  }

  /** `_find_pending_request`. */
  function Find(s: State, kind: Kind, session: string): (e: Option<Entry>)
    ensures e.Some? ==> e.value in s.table && Matches(s, e.value, kind, session)
    ensures e.None? ==> forall f :: f in s.table ==> !Matches(s, f, kind, session)
  {
    FindIn(s, s.table, kind, session)
  }

  function Without(table: seq<Entry>, id: string): (r: seq<Entry>)
    ensures forall e :: e in r <==> e in table && e.id != id
  {
    if table == [] then []
    else if table[0].id == id then Without(table[1..], id)
    else [table[0]] + Without(table[1..], id)
  }

  function IndexOf(s: State, session: string): string {
    if session in s.index then s.index[session] else ""
  }

  // ---------------------------------------------------------------------------------------------
  // The steps
  // ---------------------------------------------------------------------------------------------

  /** The session has a request that still waits. */
  predicate Busy(s: State, session: string) {
    var id := IndexOf(s, session);
    id != "" && Get(s.table, id).Some? && IsWaiting(s, id)
  }

  function Registered(s: State, e: Entry): State {
    if Busy(s, e.session) then s
    else
      var old' := IndexOf(s, e.session);
      var table := if old' != "" then Without(s.table, old') else s.table;
      State(table + [e], s.index[e.session := e.id], s.futures[e.id := Waiting])
  }

  function Cleared(s: State, id: string): State {
    var e := Get(s.table, id);
    if e.None? then s
    else
      s.(table := Without(s.table, id),
         index := if IndexOf(s, e.value.session) == id then s.index - {e.value.session} else s.index)
  }

  /** The requester gives up waiting; a future that is done stays as it is. */
  function Expired(s: State, id: string): State {
    if IsWaiting(s, id) then s.(futures := s.futures[id := Cancelled]) else s
  }

  /** The request an answer is for, by request id, by session, or by kind alone. */
  function Addressee(s: State, kind: Kind, id: string, session: string): (e: Option<Entry>)
    ensures e.Some? ==> e.value in s.table
  {
    if id != "" then Get(s.table, id)
    else if session != "" then
      var found := IndexOf(s, session);
      if found != "" then Get(s.table, found) else None
    else Find(s, kind, "")
  }

  /** `_resolve_pending_request`. */
  function Resolved(s: State, kind: Kind, answer: Answer, id: string, session: string): (State, bool) {
    var e := Addressee(s, kind, id, session);
    if e.None? || e.value.kind != kind then (s, false)
    else if session != "" && e.value.session != session then (s, false)
    else if id != "" && e.value.id != id then (s, false)
    else if !IsWaiting(s, e.value.id) then (Cleared(s, e.value.id), false)
    else (s.(futures := s.futures[e.value.id := Answered(answer)]), true)
  }

  function Or(a: string, b: string): string {
    if a != "" then a else b
  }

  /** The request that an answer to a confirmation is reported for. */
  function ConfirmSubject(s: State, id: string, session: string): (e: Option<Entry>)
    ensures e.Some? ==> e.value in s.table
  {
    var found := Find(s, Confirm, session);
    if id != "" && found.None? then Get(s.table, id) else found
  }

  /** `resolve_confirmation`. */
  function Confirmed(s: State, accepted: bool, id: string, session: string): (State, Option<Notice>) {
    var e := ConfirmSubject(s, id, session);
    if e.None? || e.value.kind != Confirm then (s, None)
    else
      var (s', ok) := Resolved(s, Confirm, Accepted(accepted), Or(id, e.value.id), Or(session, e.value.session));
      (s', if ok then Some(Notice(e.value.id, e.value.session, Confirm, Accepted(accepted))) else None)
  }

  function HumanSubject(s: State, id: string, session: string): (e: Option<Entry>)
    ensures e.Some? ==> e.value in s.table
  {
    var found := Find(s, HumanInput, session);
    if id != "" && (found.None? || found.value.id != id) then
      var other := Get(s.table, id);
      if other.None? || other.value.kind != HumanInput then None else other
    else found
  }

  /** `submit_human_input_response`; `reply` is what the answer amounts to for the request's options. */
  function Submitted(s: State, reply: Entry -> Answer, id: string, session: string): (State, Option<Notice>) {
    var e := HumanSubject(s, id, session);
    if e.None? then (s, None)
    else
      var answer := reply(e.value);
      var (s', ok) := Resolved(s, HumanInput, answer, Or(id, e.value.id), Or(session, e.value.session));
      (s', if ok then Some(Notice(e.value.id, e.value.session, HumanInput, answer)) else None)
  }

  datatype Step =
    | Register(entry: Entry)
    | Clear(id: string)
    | Expire(id: string)
    | AnswerConfirm(accepted: bool, id: string, session: string)
    | AnswerHuman(reply: Entry -> Answer, id: string, session: string)

  function Next(s: State, step: Step): State {
    match step
    case Register(e) => Registered(s, e)
    case Clear(id) => Cleared(s, id)
    case Expire(id) => Expired(s, id)
    case AnswerConfirm(accepted, id, session) => Confirmed(s, accepted, id, session).0
    case AnswerHuman(reply, id, session) => Submitted(s, reply, id, session).0
  }

  /** Generated request ids are not empty and never used before. */
  predicate Allowed(s: State, step: Step) {
    step.Register? ==> step.entry.id != "" && step.entry.id !in s.futures
  }

  function Initial(): State {
    State([], map[], map[])
  }

  function Run(s: State, steps: seq<Step>): State {
    if steps == [] then s else Next(Run(s, steps[..|steps| - 1]), steps[|steps| - 1])
  }

  predicate AllowedRun(s: State, steps: seq<Step>) {
    steps == []
    || (AllowedRun(s, steps[..|steps| - 1]) && Allowed(Run(s, steps[..|steps| - 1]), steps[|steps| - 1]))
  }

  // ---------------------------------------------------------------------------------------------
  // Table and index are inverse to each other
  // ---------------------------------------------------------------------------------------------

  predicate Inverse(s: State) {
    && (forall e :: e in s.table ==> e.id != "" && e.session in s.index && s.index[e.session] == e.id)
    && (forall session :: session in s.index ==>
          Get(s.table, s.index[session]).Some? && Get(s.table, s.index[session]).value.session == session)
    && (forall e :: e in s.table ==> Get(s.table, e.id) == Some(e) && e.id in s.futures)
  }

  /** A session has at most one request. */
  lemma OnePerSession(s: State, e: Entry, f: Entry)
    requires Inverse(s) && e in s.table && f in s.table
    ensures e.session == f.session <==> e == f
    ensures e.id == f.id <==> e == f
  {
  }

  lemma {:induction false} GetWithout(table: seq<Entry>, id: string, other: string)
    ensures Get(Without(table, id), other) == if other == id then None else Get(table, other)
  {
    if table != [] {
      GetWithout(table[1..], id, other);
      if table[0].id != id {
        var r := Without(table[1..], id);
        assert ([table[0]] + r)[1..] == r;
      }
    }
  }

  lemma {:induction false} GetAppend(table: seq<Entry>, e: Entry, id: string)
    ensures Get(table + [e], id)
         == if Get(table, id).Some? then Get(table, id) else if e.id == id then Some(e) else None
  {
    if table == [] {
      assert [e][1..] == [];
    } else {
      assert (table + [e])[1..] == table[1..] + [e];
      GetAppend(table[1..], e, id);
    }
  }

  lemma ClearInverse(s: State, id: string)
    requires Inverse(s)
    ensures Inverse(Cleared(s, id))
  {
    forall other ensures Get(Without(s.table, id), other) == if other == id then None else Get(s.table, other) {
      GetWithout(s.table, id, other);
    }
  }

  lemma AddInverse(s: State, e: Entry)
    requires Inverse(s) && e.session !in s.index && e.id != "" && e.id !in s.futures
    ensures Inverse(State(s.table + [e], s.index[e.session := e.id], s.futures[e.id := Waiting]))
  {
    forall id ensures Get(s.table + [e], id)
                   == if Get(s.table, id).Some? then Get(s.table, id) else if e.id == id then Some(e) else None {
      GetAppend(s.table, e, id);
    }
  }

  lemma RegisterReplaces(s: State, e: Entry, id: string)
    requires Inverse(s) && !Busy(s, e.session) && id == IndexOf(s, e.session) && id != ""
    ensures var s' := Cleared(s, id);
            && e.session !in s'.index && s'.futures == s.futures
            && Registered(s, e) == State(s'.table + [e], s'.index[e.session := e.id], s'.futures[e.id := Waiting])
  {
    assert (s.index - {e.session})[e.session := e.id] == s.index[e.session := e.id];
  }

  /** A new request takes the place of its session's old one, which is cleared first. */
  lemma RegisterInverse(s: State, e: Entry)
    requires Inverse(s) && e.id != "" && e.id !in s.futures
    ensures Inverse(Registered(s, e))
  {
    if !Busy(s, e.session) {
      var id := IndexOf(s, e.session);
      if id != "" {
        ClearInverse(s, id);
        RegisterReplaces(s, e, id);
        AddInverse(Cleared(s, id), e);
      } else {
        AddInverse(s, e);
      }
    }
  }

  lemma ResolveInverse(s: State, kind: Kind, answer: Answer, id: string, session: string)
    requires Inverse(s)
    ensures Inverse(Resolved(s, kind, answer, id, session).0)
  {
    var e := Addressee(s, kind, id, session);
    if e.Some? { ClearInverse(s, e.value.id); }
  }

  lemma InverseStep(s: State, step: Step)
    requires Inverse(s) && Allowed(s, step)
    ensures Inverse(Next(s, step))
  {
    match step
    case Register(e) => RegisterInverse(s, e);
    case Clear(id) => ClearInverse(s, id);
    case Expire(id) =>
    case AnswerConfirm(accepted, id, session) =>
      var e := ConfirmSubject(s, id, session);
      if e.Some? {
        ResolveInverse(s, Confirm, Accepted(accepted), Or(id, e.value.id), Or(session, e.value.session));
      }
    case AnswerHuman(reply, id, session) =>
      var e := HumanSubject(s, id, session);
      if e.Some? {
        ResolveInverse(s, HumanInput, reply(e.value), Or(id, e.value.id), Or(session, e.value.session));
      }
  }

  /** In every reachable state the table and the index are inverse to each other. */
  lemma {:induction false} AlwaysInverse(s: State, steps: seq<Step>)
    requires Inverse(s) && AllowedRun(s, steps)
    ensures Inverse(Run(s, steps))
  {
    if steps != [] {
      AlwaysInverse(s, steps[..|steps| - 1]);
      InverseStep(Run(s, steps[..|steps| - 1]), steps[|steps| - 1]);
    }
  }

  lemma ReachableInverse(steps: seq<Step>)
    requires AllowedRun(Initial(), steps)
    ensures Inverse(Run(Initial(), steps))
  {
    AlwaysInverse(Initial(), steps);
  }

  // ---------------------------------------------------------------------------------------------
  // Answers
  // ---------------------------------------------------------------------------------------------

  /** The one way an answer to a confirmation goes astray: it names a request but no session, and the first
      confirmation that waits belongs to the session without a name and is another one. */
  predicate Astray(s: State, id: string, session: string) {
    && id != "" && session == ""
    && ConfirmSubject(s, id, session).Some?
    && ConfirmSubject(s, id, session).value.session == ""
    && ConfirmSubject(s, id, session).value.id != id
  }

  /** Exactly one future changes, from waiting to this answer. */
  predicate Completes(s: State, s': State, id: string, answer: Answer) {
    IsWaiting(s, id) && s' == s.(futures := s.futures[id := Answered(answer)])
  }

  /** An accepted answer to a confirmation completes the request it is reported for, exactly unless it goes
      astray; a rejected one completes nothing. */
  lemma ConfirmCompletesIff(s: State, accepted: bool, id: string, session: string)
    requires Inverse(s)
    ensures var (s', notice) := Confirmed(s, accepted, id, session);
            && (notice.Some? ==>
                  (Completes(s, s', notice.value.id, notice.value.answer) <==> !Astray(s, id, session)))
            && (notice.Some? && id != "" ==> Completes(s, s', id, Accepted(accepted)))
            && (notice.None? ==> s'.futures == s.futures)
  {
    var e := ConfirmSubject(s, id, session);
    if e.Some? && e.value.kind == Confirm {
      var target := Addressee(s, Confirm, Or(id, e.value.id), Or(session, e.value.session));
      if target.Some? && IsWaiting(s, target.value.id) {
        OnePerSession(s, e.value, target.value);
        DifferentCompletion(s, e.value.id, target.value.id, Accepted(accepted));
      }
    }
  }

  lemma DifferentCompletion(s: State, a: string, b: string, answer: Answer)
    requires IsWaiting(s, b) && a in s.futures
    ensures Completes(s, s.(futures := s.futures[b := Answered(answer)]), a, answer) <==> a == b
  {
    var s' := s.(futures := s.futures[b := Answered(answer)]);
    assert s'.futures[b] == Answered(answer);
    if a != b { assert s'.futures[a] == s.futures[a]; }
  }

  /** With no nameless session in the table, no answer to a confirmation goes astray. */
  lemma NamedSessionsNeverAstray(s: State, id: string, session: string)
    requires Named(s)
    ensures !Astray(s, id, session)
  {
  }

  predicate Named(s: State) {
    forall e :: e in s.table ==> e.session != ""
  }

  lemma NamedResolve(s: State, kind: Kind, answer: Answer, id: string, session: string)
    requires Named(s)
    ensures Named(Resolved(s, kind, answer, id, session).0)
  {
  }

  lemma NamedStep(s: State, step: Step)
    requires Named(s) && (step.Register? ==> step.entry.session != "")
    ensures Named(Next(s, step))
  {
    match step
    case AnswerConfirm(accepted, id, session) =>
      var e := ConfirmSubject(s, id, session);
      if e.Some? { NamedResolve(s, Confirm, Accepted(accepted), Or(id, e.value.id), Or(session, e.value.session)); }
    case AnswerHuman(reply, id, session) =>
      var e := HumanSubject(s, id, session);
      if e.Some? { NamedResolve(s, HumanInput, reply(e.value), Or(id, e.value.id), Or(session, e.value.session)); }
    case _ =>
  }

  lemma {:induction false} AlwaysNamed(s: State, steps: seq<Step>)
    requires Named(s) && forall i :: 0 <= i < |steps| && steps[i].Register? ==> steps[i].entry.session != ""
    ensures Named(Run(s, steps))
  {
    if steps != [] {
      AlwaysNamed(s, steps[..|steps| - 1]);
      NamedStep(Run(s, steps[..|steps| - 1]), steps[|steps| - 1]);
    }
  }

  /** In every run in which every request names its session, an accepted confirmation completes the request it
      is reported for, and a rejected one completes nothing. */
  lemma NamedRunsComplete(steps: seq<Step>, accepted: bool, id: string, session: string)
    requires AllowedRun(Initial(), steps)
    requires forall i :: 0 <= i < |steps| && steps[i].Register? ==> steps[i].entry.session != ""
    ensures var s := Run(Initial(), steps);
            var (s', notice) := Confirmed(s, accepted, id, session);
            && (notice.Some? ==> Completes(s, s', notice.value.id, notice.value.answer))
            && (notice.None? ==> s'.futures == s.futures)
  {
    var s := Run(Initial(), steps);
    ReachableInverse(steps);
    AlwaysNamed(Initial(), steps);
    NamedSessionsNeverAstray(s, id, session);
    ConfirmCompletesIff(s, accepted, id, session);
  }

  /** An accepted answer to a question always completes the request it is reported for. */
  lemma HumanCompletes(s: State, reply: Entry -> Answer, id: string, session: string)
    requires Inverse(s)
    ensures var (s', notice) := Submitted(s, reply, id, session);
            && (notice.Some? ==>
                  && Completes(s, s', notice.value.id, notice.value.answer)
                  && (id != "" ==> notice.value.id == id)
                  && (session != "" ==> notice.value.session == session))
            && (notice.None? ==> s'.futures == s.futures)
  {
    var e := HumanSubject(s, id, session);
    if e.Some? {
      var target := Addressee(s, HumanInput, Or(id, e.value.id), Or(session, e.value.session));
      if target.Some? { OnePerSession(s, e.value, target.value); }
    }
  }

  /** A confirmation that goes astray, concretely: two waiting requests, the first without a session name. */
  lemma AstrayHappens(first: string, second: string, name: string)
    requires first != "" && second != "" && first != second && name != ""
    ensures var s := Run(Initial(), [Register(Entry(first, "", Confirm)), Register(Entry(second, name, Confirm))]);
            var (s', notice) := Confirmed(s, true, second, "");
            && notice == Some(Notice(first, "", Confirm, Accepted(true)))
            && s'.futures[first] == Waiting && s'.futures[second] == Answered(Accepted(true))
  {
    var a, b := Entry(first, "", Confirm), Entry(second, name, Confirm);
    var steps := [Register(a), Register(b)];
    assert steps[..1] == [Register(a)] && steps[..1][..0] == [];
    assert Run(Initial(), steps[..1]) == Registered(Initial(), a);
    var s := Run(Initial(), steps);
    assert s.table == [a, b];
    assert [a, b][1..] == [b];
  }

  // ---------------------------------------------------------------------------------------------
  // Done is done
  // ---------------------------------------------------------------------------------------------

  lemma DoneResolve(s: State, kind: Kind, answer: Answer, to: string, session: string, id: string)
    requires id in s.futures && s.futures[id] != Waiting
    ensures var s' := Resolved(s, kind, answer, to, session).0;
            id in s'.futures && s'.futures[id] == s.futures[id]
  {
  }

  /** A future that is done keeps its outcome through every step. */
  lemma DoneStep(s: State, step: Step, id: string)
    requires Allowed(s, step) && id in s.futures && s.futures[id] != Waiting
    ensures id in Next(s, step).futures && Next(s, step).futures[id] == s.futures[id]
  {
    match step
    case AnswerConfirm(accepted, to, session) =>
      var e := ConfirmSubject(s, to, session);
      if e.Some? {
        DoneResolve(s, Confirm, Accepted(accepted), Or(to, e.value.id), Or(session, e.value.session), id);
      }
    case AnswerHuman(reply, to, session) =>
      var e := HumanSubject(s, to, session);
      if e.Some? {
        DoneResolve(s, HumanInput, reply(e.value), Or(to, e.value.id), Or(session, e.value.session), id);
      }
    case _ =>
  }

  lemma {:induction false} DoneForever(s: State, steps: seq<Step>, id: string)
    requires AllowedRun(s, steps) && id in s.futures && s.futures[id] != Waiting
    ensures id in Run(s, steps).futures && Run(s, steps).futures[id] == s.futures[id]
  {
    if steps != [] {
      DoneForever(s, steps[..|steps| - 1], id);
      DoneStep(Run(s, steps[..|steps| - 1]), steps[|steps| - 1], id);
    }
  }

  /** A late or repeated answer that names its request is rejected, whatever has happened since, and changes
      no outcome. */
  lemma LateAnswersRejected(s: State, steps: seq<Step>, id: string, accepted: bool, reply: Entry -> Answer,
                            session: string)
    requires Inverse(s) && AllowedRun(s, steps) && id != "" && id in s.futures && s.futures[id] != Waiting
    ensures var s' := Run(s, steps);
            && Confirmed(s', accepted, id, session).1.None?
            && Confirmed(s', accepted, id, session).0.futures == s'.futures
            && Submitted(s', reply, id, session).1.None?
            && Submitted(s', reply, id, session).0.futures == s'.futures
  {
    DoneForever(s, steps, id);
    AlwaysInverse(s, steps);
    ConfirmCompletesIff(Run(s, steps), accepted, id, session);
    HumanCompletes(Run(s, steps), reply, id, session);
  }

  /** An answer that names no request goes to the first waiting request of its kind, in the session it names if
      it names one, and is accepted exactly if there is one. */
  lemma UnnamedAnswers(s: State, accepted: bool, reply: Entry -> Answer, session: string)
    requires Inverse(s)
    ensures var (s', notice) := Confirmed(s, accepted, "", session);
            var e := Find(s, Confirm, session);
            && (notice.Some? <==> e.Some?)
            && (notice.Some? ==> notice.value.id == e.value.id && Completes(s, s', e.value.id, Accepted(accepted)))
            && (notice.None? ==> s'.futures == s.futures)
    ensures var (s', notice) := Submitted(s, reply, "", session);
            var e := Find(s, HumanInput, session);
            && (notice.Some? <==> e.Some?)
            && (notice.Some? ==> notice.value.id == e.value.id && Completes(s, s', e.value.id, reply(e.value)))
            && (notice.None? ==> s'.futures == s.futures)
  {
  }

  /** A repeated answer by session or by kind alone never touches the outcome of a finished request, whatever has
      happened since.  It completes the first request that waits, if any, which is another one. */
  lemma LateUnnamedAnswers(s: State, steps: seq<Step>, id: string, accepted: bool, reply: Entry -> Answer,
                           session: string)
    requires Inverse(s) && AllowedRun(s, steps) && id in s.futures && s.futures[id] != Waiting
    ensures var s' := Run(s, steps);
            var (c, confirmed) := Confirmed(s', accepted, "", session);
            var (h, submitted) := Submitted(s', reply, "", session);
            && id in c.futures && c.futures[id] == s.futures[id]
            && id in h.futures && h.futures[id] == s.futures[id]
            && (confirmed.Some? ==>
                  && confirmed.value.id != id && Find(s', Confirm, session).Some?
                  && confirmed.value.id == Find(s', Confirm, session).value.id)
            && (submitted.Some? ==>
                  && submitted.value.id != id && Find(s', HumanInput, session).Some?
                  && submitted.value.id == Find(s', HumanInput, session).value.id)
  {
    var s' := Run(s, steps);
    DoneForever(s, steps, id);
    AlwaysInverse(s, steps);
    UnnamedAnswers(s', accepted, reply, session);
    DoneStep(s', AnswerConfirm(accepted, "", session), id);
    DoneStep(s', AnswerHuman(reply, "", session), id);
  }

  /** A notice names a request of the table by its id, its session and its kind. */
  lemma NoticeNames(s: State, accepted: bool, reply: Entry -> Answer, id: string, session: string)
    ensures var notice := Confirmed(s, accepted, id, session).1;
            notice.Some? ==>
              && Entry(notice.value.id, notice.value.session, Confirm) in s.table
              && notice.value.kind == Confirm && notice.value.answer == Accepted(accepted)
    ensures var notice := Submitted(s, reply, id, session).1;
            notice.Some? ==>
              var e := Entry(notice.value.id, notice.value.session, HumanInput);
              e in s.table && notice.value.kind == HumanInput && notice.value.answer == reply(e)
  {
    var e, f := ConfirmSubject(s, id, session), HumanSubject(s, id, session);
    assert e.Some? ==> e.value == Entry(e.value.id, e.value.session, e.value.kind);
    assert f.Some? ==> f.value == Entry(f.value.id, f.value.session, f.value.kind);
  }

  // ---------------------------------------------------------------------------------------------
  // How long a request waits
  // ---------------------------------------------------------------------------------------------

  lemma {:induction false} FindInIsFirst(s: State, table: seq<Entry>, kind: Kind, session: string) returns (i: nat)
    requires FindIn(s, table, kind, session).Some?
    ensures i < |table| && FindIn(s, table, kind, session) == Some(table[i])
    ensures forall j :: 0 <= j < i ==> !Matches(s, table[j], kind, session)
  {
    if Matches(s, table[0], kind, session) {
      i := 0;
    } else {
      i := FindInIsFirst(s, table[1..], kind, session);
      i := i + 1;
    }
  }

  /** The search finds the oldest waiting request of the kind, and of the session if one is named, and finds none
      only if none waits. */
  lemma FindIsFirst(s: State, kind: Kind, session: string) returns (i: nat)
    ensures Find(s, kind, session).None? ==>
              forall f :: f in s.table && f.kind == kind && (session == "" || f.session == session) ==>
                !(f.id in s.futures && s.futures[f.id] == Waiting)
    ensures Find(s, kind, session).Some? ==>
              && i < |s.table| && Find(s, kind, session) == Some(s.table[i]) && s.table[i].kind == kind
              && (session == "" || s.table[i].session == session)
              && s.table[i].id in s.futures && s.futures[s.table[i].id] == Waiting
              && forall j :: 0 <= j < i && s.table[j].kind == kind
                             && (session == "" || s.table[j].session == session) ==>
                   s.table[j].id !in s.futures || s.futures[s.table[j].id] != Waiting
  {
    i := 0;
    if Find(s, kind, session).Some? { i := FindInIsFirst(s, s.table, kind, session); }
  }

  /** A request is refused exactly while another one of its session waits.  Otherwise it waits at the end of the
      table, in place of its session's old request; nothing else changes. */
  lemma RegisterIs(s: State, e: Entry)
    requires Inverse(s) && e.id != "" && e.id !in s.futures
    ensures var s' := Registered(s, e);
            if exists f :: f in s.table && f.session == e.session && s.futures[f.id] == Waiting then s' == s
            else
              && s'.futures == s.futures[e.id := Waiting] && s'.index == s.index[e.session := e.id]
              && |s'.table| > 0 && s'.table[|s'.table| - 1] == e
              && forall f :: f in s'.table <==> f == e || (f in s.table && f.session != e.session)
  {
    var old' := IndexOf(s, e.session);
    if old' != "" {
      var f := Get(s.table, old').value;
      assert f.session == e.session;
    }
    forall f | f in s.table && f.session == e.session ensures f.id == old' { }
  }

  /** Clearing takes exactly one request out of the table and touches no outcome. */
  lemma ClearIs(s: State, id: string)
    requires Inverse(s)
    ensures var s' := Cleared(s, id);
            && s'.futures == s.futures && (forall f :: f in s'.table <==> f in s.table && f.id != id)
            && forall f :: f in s.table && f.id == id ==> f.session !in s'.index
  {
  }

  /** A timeout leaves a waiting future cancelled, and any other outcome and the table as they are. */
  lemma ExpireIs(s: State, id: string)
    ensures var s' := Expired(s, id);
            && s'.table == s.table && s'.index == s.index
            && s'.futures == if id in s.futures && s.futures[id] == Waiting then s.futures[id := Cancelled]
                             else s.futures
  {
  }

  lemma StaysInTable(s: State, step: Step, e: Entry)
    requires Inverse(s) && Allowed(s, step) && e in s.table && s.futures[e.id] == Waiting && step != Clear(e.id)
    ensures e in Next(s, step).table
  {
    match step
    case Register(f) => RegisterIs(s, f);
    case AnswerConfirm(accepted, id, session) =>
      var f := ConfirmSubject(s, id, session);
      if f.Some? {
        ResolveKeeps(s, Confirm, Accepted(accepted), Or(id, f.value.id), Or(session, f.value.session), e);
      }
    case AnswerHuman(reply, id, session) =>
      var f := HumanSubject(s, id, session);
      if f.Some? {
        ResolveKeeps(s, HumanInput, reply(f.value), Or(id, f.value.id), Or(session, f.value.session), e);
      }
    case _ =>
  }

  lemma ResolveKeeps(s: State, kind: Kind, answer: Answer, id: string, session: string, e: Entry)
    requires Inverse(s) && e in s.table && s.futures[e.id] == Waiting
    ensures e in Resolved(s, kind, answer, id, session).0.table
  {
  }

  lemma FuturesStay(s: State, step: Step, id: string)
    requires id in s.futures
    ensures id in Next(s, step).futures
  {
  }

  lemma WaitsStep(s: State, step: Step, e: Entry)
    requires Inverse(s) && Allowed(s, step) && e.id in s.futures && step != Clear(e.id)
    requires s.futures[e.id] == Waiting ==> e in s.table
    ensures e.id in Next(s, step).futures
    ensures Next(s, step).futures[e.id] == Waiting ==> e in Next(s, step).table
  {
    FuturesStay(s, step, e.id);
    if s.futures[e.id] == Waiting { StaysInTable(s, step, e); } else { DoneStep(s, step, e.id); }
  }

  /** A request stays in the table as long as it waits and is not cleared by its requester. */
  lemma {:induction false} WaitsInTable(s: State, steps: seq<Step>, e: Entry)
    requires Inverse(s) && AllowedRun(s, steps) && e in s.table && s.futures[e.id] == Waiting
    requires forall i :: 0 <= i < |steps| ==> steps[i] != Clear(e.id)
    ensures e.id in Run(s, steps).futures
    ensures Run(s, steps).futures[e.id] == Waiting ==> e in Run(s, steps).table
  {
    if steps != [] {
      var init, last := steps[..|steps| - 1], steps[|steps| - 1];
      WaitsInTable(s, init, e);
      AlwaysInverse(s, init);
      WaitsStep(Run(s, init), last, e);
    }
  }

  /** Once a requester has given up waiting, its future is cancelled for good and no answer that names it is
      accepted, whatever happens. */
  lemma GivenUpIsFinal(s: State, id: string, steps: seq<Step>, accepted: bool, reply: Entry -> Answer, session: string)
    requires Inverse(s) && id != "" && id in s.futures && s.futures[id] == Waiting && AllowedRun(Expired(s, id), steps)
    ensures var s' := Run(Expired(s, id), steps);
            && id in s'.futures && s'.futures[id] == Cancelled
            && Confirmed(s', accepted, id, session).1.None? && Submitted(s', reply, id, session).1.None?
  {
    InverseStep(s, Expire(id));
    DoneForever(Expired(s, id), steps, id);
    LateAnswersRejected(Expired(s, id), steps, id, accepted, reply, session);
  }

  // ---------------------------------------------------------------------------------------------
  // The bus itself
  // ---------------------------------------------------------------------------------------------

  class Bus {
    var pendingRequests: seq<Entry>
    var requestBySession: map<string, string>
    var futures: map<string, Future>

    function View(): State
      reads this
    {
      State(pendingRequests, requestBySession, futures)
    }

    constructor ()
      ensures View() == Initial()
    {
      pendingRequests, requestBySession, futures := [], map[], map[];
    }

    method FindPendingRequest(kind: Kind, session: string) returns (found: Option<Entry>)
      ensures found == Find(View(), kind, session)
    {
      for i := 0 to |pendingRequests|
        invariant FindIn(View(), pendingRequests[i..], kind, session) == Find(View(), kind, session)
      {
        assert pendingRequests[i..][1..] == pendingRequests[i + 1..];
        var e := pendingRequests[i];
        if e.kind == kind && (session == "" || e.session == session) && e.id in futures && futures[e.id] == Waiting {
          return Some(e);
        }
      }
      return None;
    }

    /** `_register_pending_request`: fails while the session's request still waits. */
    method RegisterPendingRequest(e: Entry) returns (ok: bool)
      requires e.id != "" && e.id !in futures
      modifies this
      ensures ok == !Busy(old(View()), e.session)
      ensures View() == Registered(old(View()), e)
    {
      var existing := IndexOf(View(), e.session);
      if existing != "" {
        if Get(pendingRequests, existing).Some? && IsWaiting(View(), existing) { return false; }
        pendingRequests := Without(pendingRequests, existing);
      }
      futures := futures[e.id := Waiting];
      pendingRequests := pendingRequests + [e];
      requestBySession := requestBySession[e.session := e.id];
      return true;
    }

    /** `_clear_pending_request`. */
    method ClearPendingRequest(id: string)
      modifies this`pendingRequests, this`requestBySession
      ensures View() == Cleared(old(View()), id)
    {
      var e := Get(pendingRequests, id);
      if e.None? { return; }
      var current := IndexOf(View(), e.value.session);
      pendingRequests := Without(pendingRequests, id);
      if current == id { requestBySession := requestBySession - {e.value.session}; }
    }

    /** The timeout of a requester: it gives up its future and then clears its request. */
    method GiveUp(id: string)
      modifies this
      ensures View() == Cleared(Expired(old(View()), id), id)
    {
      if IsWaiting(View(), id) { futures := futures[id := Cancelled]; }
      ClearPendingRequest(id);
    }

    method ResolvePendingRequest(kind: Kind, answer: Answer, id: string, session: string) returns (ok: bool)
      modifies this
      ensures (View(), ok) == Resolved(old(View()), kind, answer, id, session)
    {
      var e: Option<Entry> := None;
      if id != "" {
        e := Get(pendingRequests, id);
      } else if session != "" {
        var found := IndexOf(View(), session);
        if found != "" { e := Get(pendingRequests, found); }
      } else {
        e := FindPendingRequest(kind, "");
      }
      if e.None? || e.value.kind != kind { return false; }
      if session != "" && e.value.session != session { return false; }
      if id != "" && e.value.id != id { return false; }
      if !IsWaiting(View(), e.value.id) {
        ClearPendingRequest(e.value.id);
        return false;
      }
      futures := futures[e.value.id := Answered(answer)];
      return true;
    }

    /** `resolve_confirmation`. */
    method ResolveConfirmation(accepted: bool, id: string, session: string) returns (notice: Option<Notice>)
      modifies this
      ensures (View(), notice) == Confirmed(old(View()), accepted, id, session)
    {
      var e := FindPendingRequest(Confirm, session);
      if id != "" && e.None? { e := Get(pendingRequests, id); }
      if e.None? || e.value.kind != Confirm { return None; }
      var ok := ResolvePendingRequest(Confirm, Accepted(accepted), Or(id, e.value.id), Or(session, e.value.session));
      if ok { return Some(Notice(e.value.id, e.value.session, Confirm, Accepted(accepted))); }
      return None;
    }

    /** `submit_human_input_response`. */
    method SubmitHumanInputResponse(reply: Entry -> Answer, id: string, session: string)
      returns (notice: Option<Notice>)
      modifies this
      ensures (View(), notice) == Submitted(old(View()), reply, id, session)
    {
      var e := FindPendingRequest(HumanInput, session);
      if id != "" && (e.None? || e.value.id != id) {
        e := Get(pendingRequests, id);
        if e.None? || e.value.kind != HumanInput { return None; }
      }
      if e.None? { return None; }
      var answer := reply(e.value);
      var ok := ResolvePendingRequest(HumanInput, answer, Or(id, e.value.id), Or(session, e.value.session));
      if ok { return Some(Notice(e.value.id, e.value.session, HumanInput, answer)); }
      return None;
    }
  }
}
