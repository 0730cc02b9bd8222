/** Risk signals and the ordered rule set that reads them
    (src/control_plane/policy.py). Scores are counted in tenths, instants in
    microseconds since the epoch. */
module Policy {
  import opened Actions

  type Instant = int

  const MICROS_PER_HOUR: int := 3_600_000_000
  const MICROS_PER_DAY: int := 24 * MICROS_PER_HOUR

  const STEP_UP_ABOVE: int := 1000_00
  const HARD_LIMIT: int := 5000_00
  const NIGHT_LIMIT: int := 1000_00
  const UNUSUAL_ABOVE: int := 500_00
  const NIGHT_START_HOUR: int := 20
  const NIGHT_END_HOUR: int := 6

  datatype Signal = NewRecipient | UnusualAmount | UntrustedDevice

  datatype Risk = Risk(score: nat, level: RiskLevel, signals: seq<Signal>)

  datatype Decision = Allow | Deny | RequireMoreInfo | RequireConfirmation | RequireStepUpAuth | Escalate

  datatype Rule = HardLimit | NighttimeLimit | PixStepUp | CapabilityRequiresConfirmation | DefaultAllow

  datatype Verdict = Verdict(decision: Decision, rule: Rule)

  function Level(score: nat): RiskLevel {
    if score >= 6 then HighRisk else if score >= 3 then MediumRisk else LowRisk
  }

  function RiskOf(action: CreatePix, ctx: Context, known: set<string>): Risk {
    var isNew := action.recipient !in known;
    var isUnusual := action.amount > UNUSUAL_ABOVE;
    var isUntrusted := !ctx.deviceTrusted;
    var score := (if isNew then 3 else 0) + (if isUnusual then 4 else 0) + (if isUntrusted then 3 else 0);
    Risk(score, Level(score),
         (if isNew then [NewRecipient] else [])
         + (if isUnusual then [UnusualAmount] else [])
         + (if isUntrusted then [UntrustedDevice] else []))
  }

  /** Each signal is raised, once and in this order, exactly under its own condition: the
      recipient was never paid, the amount is above R$ 500, the device is not trusted. */
  ghost predicate AssessedRightly(risk: Risk, action: CreatePix, ctx: Context, known: set<string>) {
    && (NewRecipient in risk.signals <==> action.recipient !in known)
    && (UnusualAmount in risk.signals <==> action.amount > 500_00)
    && (UntrustedDevice in risk.signals <==> !ctx.deviceTrusted)
    && (forall i, j | 0 <= i < j < |risk.signals| :: Place(risk.signals[i]) < Place(risk.signals[j]))
    && risk.score == 3 * Count(NewRecipient in risk.signals) + 4 * Count(UnusualAmount in risk.signals)
                     + 3 * Count(UntrustedDevice in risk.signals)
    && (risk.level == HighRisk <==> AnyTwo(action.recipient !in known, action.amount > 500_00, !ctx.deviceTrusted))
    && (risk.level == LowRisk <==> action.recipient in known && action.amount <= 500_00 && ctx.deviceTrusted)
  }

  function Place(s: Signal): nat {
    match s
    case NewRecipient => 0
    case UnusualAmount => 1
    case UntrustedDevice => 2
  }

  function Count(b: bool): nat {
    if b then 1 else 0
  }

  predicate AnyTwo(a: bool, b: bool, c: bool) {
    (a && b) || (a && c) || (b && c)
  }

  lemma RiskIsAssessedRightly(action: CreatePix, ctx: Context, known: set<string>)
    ensures AssessedRightly(RiskOf(action, ctx, known), action, ctx, known)
  {
    var signals := RiskOf(action, ctx, known).signals;
    var first := if action.recipient !in known then [NewRecipient] else [];
    var second := if action.amount > UNUSUAL_ABOVE then [UnusualAmount] else [];
    var third := if !ctx.deviceTrusted then [UntrustedDevice] else [];
    assert signals == first + second + third;
    assert forall s :: s in signals <==> s in first || s in second || s in third;
  }

  /** The weighted sum as the source writes it: a list that grows and a score that
      accumulates. High risk means any two of the three signals. */
  method AssessRisk(action: CreatePix, ctx: Context, known: set<string>) returns (risk: Risk)
    ensures risk == RiskOf(action, ctx, known)
    ensures AssessedRightly(risk, action, ctx, known)
    ensures risk.level == HighRisk <==> |risk.signals| >= 2
    ensures risk.level == LowRisk <==> risk.signals == []
  {
    hide AssessedRightly;
    RiskIsAssessedRightly(action, ctx, known);
    var signals: seq<Signal> := [];
    var score := 0;
    if action.recipient !in known {
      signals := signals + [NewRecipient];
      score := score + 3;
    }
    if action.amount > UNUSUAL_ABOVE {
      signals := signals + [UnusualAmount];
      score := score + 4;
    }
    if !ctx.deviceTrusted {
      signals := signals + [UntrustedDevice];
      score := score + 3;
    }
    risk := Risk(score, Level(score), signals);
  }

  /** Microseconds since local midnight in Sao Paulo, at the fixed offset UTC-3. */
  function TimeOfDay(t: Instant): int {
    (t - 3 * MICROS_PER_HOUR) % MICROS_PER_DAY
  }

  predicate IsNighttime(t: Instant) {
    var hour := TimeOfDay(t) / MICROS_PER_HOUR;
    hour >= NIGHT_START_HOUR || hour < NIGHT_END_HOUR
  }

  /** First rule that applies decides. */
  function Evaluate(action: CreatePix, ctx: Context, risk: Risk, now: Instant): Verdict {
    if action.amount > HARD_LIMIT then Verdict(Deny, HardLimit)
    else if action.amount > NIGHT_LIMIT && IsNighttime(now) then Verdict(Deny, NighttimeLimit)
    else
      var needsStrong := action.amount > STEP_UP_ABOVE || risk.level == HighRisk;
      var required := if needsStrong then Strong else PIX_CAPABILITY.requiredAssurance;
      if Rank(ctx.assurance) < Rank(required) then Verdict(RequireStepUpAuth, PixStepUp)
      else if PIX_CAPABILITY.requiresConfirmation then
        Verdict(RequireConfirmation, CapabilityRequiresConfirmation)
      else Verdict(Allow, DefaultAllow)
  }

  /** At local time [20:00, 06:00), on a clock three hours behind UTC. */
  predicate ByNight(t: Instant) {
    var sinceMidnight := (t - 10_800_000_000) % 86_400_000_000;
    sinceMidnight < 21_600_000_000 || sinceMidnight >= 72_000_000_000
  }

  /** What each verdict is given for, in figures. */
  lemma VerdictsAreRight(action: CreatePix, ctx: Context, risk: Risk, now: Instant)
    ensures var verdict := Evaluate(action, ctx, risk, now);
      var refused := action.amount > 5_000_00 || (action.amount > 1_000_00 && ByNight(now));
      var weak := (action.amount > 1_000_00 || risk.level == HighRisk) && ctx.assurance != Strong;
      && (verdict == Verdict(Deny, HardLimit) <==> action.amount > 5_000_00)
      && (verdict == Verdict(Deny, NighttimeLimit) <==> 1_000_00 < action.amount <= 5_000_00 && ByNight(now))
      && (verdict == Verdict(RequireStepUpAuth, PixStepUp) <==> !refused && (weak || ctx.assurance == Low))
      && (verdict == Verdict(RequireConfirmation, CapabilityRequiresConfirmation)
          <==> !refused && !weak && ctx.assurance != Low)
  {
    NightByTheClock(now);
    hide IsNighttime;
    assert Rank(ctx.assurance) < Rank(Medium) <==> ctx.assurance == Low;
    assert Rank(ctx.assurance) < Rank(Strong) <==> ctx.assurance != Strong;
  }

  lemma NightByTheClock(t: Instant)
    ensures IsNighttime(t) <==> ByNight(t)
  {
    var x := TimeOfDay(t);
    assert x == (x / MICROS_PER_HOUR) * MICROS_PER_HOUR + x % MICROS_PER_HOUR;
  }

  /** Exactly the actions policy lets through to consent. */
  ghost predicate Consentable(action: CreatePix, ctx: Context, level: RiskLevel, now: Instant) {
    && action.amount <= HARD_LIMIT
    && (action.amount > NIGHT_LIMIT ==> !IsNighttime(now))
    && (action.amount > STEP_UP_ABOVE || level == HighRisk ==> ctx.assurance == Strong)
    && ctx.assurance != Low
  }

  lemma ConsentIsExactlyThePolicy(action: CreatePix, ctx: Context, risk: Risk, now: Instant)
    ensures Evaluate(action, ctx, risk, now).decision == RequireConfirmation
       <==> Consentable(action, ctx, risk.level, now)
  {
    assert Rank(ctx.assurance) < Rank(Medium) <==> ctx.assurance == Low;
    assert Rank(ctx.assurance) < Rank(Strong) <==> ctx.assurance != Strong;
  }
}
