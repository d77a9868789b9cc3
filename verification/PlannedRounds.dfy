/** What the sanitizer makes of a context plan: the tool rounds of the current turn. */
module PlannedRounds {
  import opened Messages
  import opened Subsequence
  import opened ToolHistory
  import opened ToolRound
  import Selection
  import ContextPlan

  /** The messages of the rounds of a turn. */
  function RoundsOf(rounds: seq<Round>): seq<Message> {
    if rounds == [] then [] else RoundMessages(rounds[0]) + RoundsOf(rounds[1..])
  }

  predicate Plain(ms: seq<Message>) {
    forall i :: 0 <= i < |ms| ==> !IsTool(ms[i]) && !IsCaller(ms[i])
  }

  /** The current turn: its input, its rounds so far, and what is added after them. */
  function CurrentTurn(input: Message, rounds: seq<Round>, after: seq<Message>): seq<Message> {
    [input] + (RoundsOf(rounds) + after)
  }

  predicate AllNamed(rounds: seq<Round>) {
    forall i :: 0 <= i < |rounds| ==> WellNamed(rounds[i].calls)
  }

  predicate AllAsk(rounds: seq<Round>) {
    forall i :: 0 <= i < |rounds| ==> rounds[i].calls != []
  }

  lemma {:induction false} KeptRangeLength(ms: seq<Message>, lo: nat, hi: nat)
    requires lo <= hi <= |ms|
    ensures |KeptRange(ms, lo, hi)| <= hi - lo
  {
    if lo < hi { KeptRangeLength(ms, lo, hi - 1); }
  }

  /** The sanitizer only takes away. */
  lemma SanitizedLength(ms: seq<Message>)
    ensures |Sanitized(ms)| <= |ms|
  {
    SanitizedIsKept(ms);
    KeptRangeLength(ms, 0, |ms|);
  }

  lemma JoinFixedIff(a: seq<Message>, b: seq<Message>, a': seq<Message>, b': seq<Message>)
    requires |a'| <= |a| && |b'| <= |b|
    ensures a' + b' == a + b <==> a' == a && b' == b
  {
    if a' + b' == a + b {
      assert |a' + b'| == |a + b|;
      assert a' == (a' + b')[..|a'|] && b' == (a' + b')[|a'|..];
      assert a == (a + b)[..|a|] && b == (a + b)[|a|..];
    }
  }

  /** Two parts of which the second starts a new group are fixed together iff each of them is. */
  lemma FixedTogetherIff(a: seq<Message>, b: seq<Message>)
    requires b == [] || !IsTool(b[0])
    ensures Sanitized(a + b) == a + b <==> Sanitized(a) == a && Sanitized(b) == b
  {
    SanitizedAppend(a, b);
    SanitizedLength(a);
    SanitizedLength(b);
    JoinFixedIff(a, b, Sanitized(a), Sanitized(b));
  }

  lemma {:induction false} PlainIsFixed(ms: seq<Message>)
    requires Plain(ms)
    ensures Sanitized(ms) == ms
  {
    if ms != [] {
      PlainIsFixed(ms[1..]);
      SanitizedPlain(ms[0], ms[1..]);
      assert ms == [ms[0]] + ms[1..];
    }
  }

  lemma RoundsStart(rounds: seq<Round>, after: seq<Message>)
    requires Plain(after)
    ensures RoundsOf(rounds) + after == [] || !IsTool((RoundsOf(rounds) + after)[0])
  {
    if rounds != [] { assert RoundsOf(rounds)[0] == CallerMessage(rounds[0]); }
  }

  /** Rounds, and plain messages after them, are fixed iff the calls of every round are well named. */
  lemma {:induction false} RoundsFixedIff(rounds: seq<Round>, after: seq<Message>)
    requires Plain(after) && AllAsk(rounds)
    ensures Sanitized(RoundsOf(rounds) + after) == RoundsOf(rounds) + after <==> AllNamed(rounds)
  {
    if rounds == [] {
      assert RoundsOf(rounds) + after == after;
      PlainIsFixed(after);
    } else {
      var first, rest := RoundMessages(rounds[0]), RoundsOf(rounds[1..]) + after;
      RoundsStart(rounds[1..], after);
      Associative(first, RoundsOf(rounds[1..]), after);
      FixedTogetherIff(first, rest);
      RoundIsFixedIff(rounds[0]);
      RoundsFixedIff(rounds[1..], after);
      NamedFirst(rounds);
    }
  }

  lemma NamedFirst(rounds: seq<Round>)
    requires rounds != []
    ensures AllNamed(rounds) <==> WellNamed(rounds[0].calls) && AllNamed(rounds[1..])
  {
    var rest := rounds[1..];
    assert forall i :: 0 <= i < |rest| ==> rest[i] == rounds[i + 1];
    if WellNamed(rounds[0].calls) && AllNamed(rest) {
      forall i | 0 <= i < |rounds| ensures WellNamed(rounds[i].calls) {
        if i > 0 { assert rounds[i] == rest[i - 1]; }
      }
    }
  }

  /** After anything at all, the sanitizer leaves the current turn as it is iff the calls of its rounds are well
      named. */
  lemma CurrentTurnSurvivesIff(before: seq<Message>, input: Message, rounds: seq<Round>, after: seq<Message>)
    requires Plain([input]) && Plain(after) && AllAsk(rounds)
    ensures var current := CurrentTurn(input, rounds, after);
            Sanitized(before + current) == Sanitized(before) + current <==> AllNamed(rounds)
  {
    var current, rest := CurrentTurn(input, rounds, after), RoundsOf(rounds) + after;
    assert Plain([input]) ==> !IsTool([input][0]) && !IsCaller([input][0]);
    SanitizedAppend(before, current);
    SanitizedPlain(input, rest);
    Cancel(Sanitized(before), Sanitized(current), current);
    Cancel([input], Sanitized(rest), rest);
    RoundsFixedIff(rounds, after);
  }

  /** Whatever a context plan drops of the history, sanitizing the plan leaves the current turn unchanged iff the
      calls of its rounds are well named; everything before the current turn is sanitized on its own. */
  lemma PlanKeepsCurrentTurnIff(history: seq<Message>, layers: seq<Message>, input: Message, rounds: seq<Round>,
                                after: seq<Message>, target: nat, recent: nat,
                                messages: seq<Message>, dropped: seq<Message>)
    requires Plain([input]) && Plain(after) && AllAsk(rounds)
    requires ContextPlan.Plans(history, layers, CurrentTurn(input, rounds, after), target, recent, messages, dropped)
    ensures var current := CurrentTurn(input, rounds, after);
            && |current| <= |messages|
            && messages == messages[..|messages| - |current|] + current
            && (Sanitized(messages) == Sanitized(messages[..|messages| - |current|]) + current <==> AllNamed(rounds))
  {
    var current := CurrentTurn(input, rounds, after);
    var before := messages[..|messages| - |current|];
    assert messages == before + current;
    CurrentTurnSurvivesIff(before, input, rounds, after);
  }
}
