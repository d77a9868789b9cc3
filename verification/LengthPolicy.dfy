/** How the context window is shared between the conversation and the reply. */
module LengthPolicy {

  datatype Family = OpenAI | Anthropic | Gemini | Generic

  /** The per-provider table; ratios in hundredths. */
  datatype Ratios = Ratios(reserve: nat, response: nat, minResponse: nat, recentTurns: nat)

  function Table(family: Family): Ratios {
    match family
    case OpenAI => Ratios(72, 22, 1024, 8)
    case Anthropic => Ratios(78, 18, 768, 10)
    case Gemini => Ratios(74, 20, 1024, 8)
    case Generic => Ratios(75, 20, 768, 8)
  }

  datatype Policy = Policy(limit: nat, target: nat, reserved: nat, recentTurns: nat)

  function Max(a: int, b: int): int {
    if a >= b then a else b
  }

  function Min(a: int, b: int): int {
    if a <= b then a else b
  }

  function Share(limit: nat, hundredths: nat): nat {
    limit * hundredths / 100
  }

  /** The limit in force: an override, or what the model offers if there is none. */
  function ContextLimit(override: Override, modelLimit: nat): nat {
    match override
    case NoOverride => modelLimit
    case Limit(n) => if n == 0 then modelLimit else n
  }

  datatype Override = NoOverride | Limit(tokens: nat)

  /** `build_length_policy`. */
  function BuildLengthPolicy(family: Family, override: Override, modelLimit: nat): Policy {
    var limit := ContextLimit(override, modelLimit);
    var t := Table(family);
    var reserved := Max(t.minResponse, Share(limit, t.response));
    var target := Max(512, Min(Share(limit, t.reserve), limit - reserved));
    Policy(limit, target, reserved, t.recentTurns)
  }

  /** Input and reply fit the window together exactly from `minResponse + 512` tokens on; below, they never do. */
  lemma TargetFitsIff(family: Family, override: Override, modelLimit: nat)
    ensures var p := BuildLengthPolicy(family, override, modelLimit);
            p.target + p.reserved <= p.limit <==> p.limit >= Table(family).minResponse + 512
  {
    match family
    case OpenAI =>
    case Anthropic =>
    case Gemini =>
    case Generic =>
  }

  /** The budget of a trim: the caller's share of the window, but no more than the target. */
  function Usable(p: Policy, hundredths: nat): (n: nat)
    ensures n <= Share(p.limit, hundredths)
    ensures p.target > 0 ==> n <= p.target
  {
    Min(Share(p.limit, hundredths), if p.target != 0 then p.target else Share(p.limit, hundredths))
  }

  lemma UsableFits(family: Family, override: Override, modelLimit: nat, hundredths: nat, tokens: nat)
    requires ContextLimit(override, modelLimit) >= Table(family).minResponse + 512
    requires tokens <= Usable(BuildLengthPolicy(family, override, modelLimit), hundredths)
    ensures tokens + BuildLengthPolicy(family, override, modelLimit).reserved
         <= BuildLengthPolicy(family, override, modelLimit).limit
  {
    TargetFitsIff(family, override, modelLimit);
  }

  // ---------------------------------------------------------------------------------------------
  // What the numbers are
  // ---------------------------------------------------------------------------------------------

  /** The reply gets its share of the window in hundredths, rounded down, and at least the minimum; the input gets
      the most that is within its own share and leaves the reply its reserve, and at least 512. */
  ghost predicate SharesWindow(p: Policy, reserve: nat, response: nat, minResponse: nat) {
    && minResponse <= p.reserved && response * p.limit < 100 * (p.reserved + 1)
    && (p.reserved == minResponse || 100 * p.reserved <= response * p.limit)
    && 512 <= p.target
    && (p.target == 512 || (100 * p.target <= reserve * p.limit && p.target + p.reserved <= p.limit))
    && (forall n: nat :: n > p.target ==> 100 * n > reserve * p.limit || n + p.reserved > p.limit)
  }

  lemma SharesAre(p: Policy, reserve: nat, response: nat, minResponse: nat)
    requires p.reserved == Max(minResponse, Share(p.limit, response))
    requires p.target == Max(512, Min(Share(p.limit, reserve), p.limit - p.reserved))
    ensures SharesWindow(p, reserve, response, minResponse)
  {
    var a, b := p.limit * response, p.limit * reserve;
    assert a == response * p.limit && b == reserve * p.limit;
    assert Share(p.limit, response) == a / 100 && Share(p.limit, reserve) == b / 100;
  }

  /** The policy of every provider family. */
  lemma PolicyIs(family: Family, override: Override, modelLimit: nat)
    ensures var p := BuildLengthPolicy(family, override, modelLimit);
            && p.limit == (if override.Limit? && override.tokens > 0 then override.tokens else modelLimit)
            && match family {
                 case OpenAI => SharesWindow(p, 72, 22, 1024) && p.recentTurns == 8
                 case Anthropic => SharesWindow(p, 78, 18, 768) && p.recentTurns == 10
                 case Gemini => SharesWindow(p, 74, 20, 1024) && p.recentTurns == 8
                 case Generic => SharesWindow(p, 75, 20, 768) && p.recentTurns == 8
               }
  {
    var t := Table(family);
    SharesAre(BuildLengthPolicy(family, override, modelLimit), t.reserve, t.response, t.minResponse);
  }

  /** The budget of a trim is the largest number within the caller's share of the window and the target. */
  lemma UsableIs(family: Family, override: Override, modelLimit: nat, hundredths: nat)
    ensures var p := BuildLengthPolicy(family, override, modelLimit);
            var usable := Usable(p, hundredths);
            && usable <= p.target && 100 * usable <= hundredths * p.limit
            && (forall n: nat :: n > usable ==> n > p.target || 100 * n > hundredths * p.limit)
  {
    var p := BuildLengthPolicy(family, override, modelLimit);
    var a := p.limit * hundredths;
    assert a == hundredths * p.limit && Share(p.limit, hundredths) == a / 100;
  }
}
