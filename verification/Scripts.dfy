/** Each operation's writes, block by block, keep one intent good wherever a crash
    stops them. */
module Scripts {
  import opened Actions
  import opened Policy
  import opened Machine
  import opened Bank
  import opened Plane
  import opened Audit
  import opened Intents

  /** The two clock readings of one operation, under the timing assumed. */
  predicate ReadingsOk(timing: Timing, t1: Instant, t2: Instant) {
    timing.Steady? ==>
      && 0 <= timing.slack <= MICROS_PER_DAY - DAY_END - CONFIRMATION_TTL
      && t1 <= t2 <= t1 + timing.slack
      && t2 <= timing.now
  }

  lemma DaylightDrifts(t1: Instant, t2: Instant, late: int, drift: int)
    requires Daylight(t1, late) && t1 <= t2 <= t1 + drift
    requires 0 <= late && 0 <= drift && DAY_END + late + drift <= MICROS_PER_DAY
    ensures Daylight(t2, late + drift)
  {
    var x, dx := t1 - 3 * MICROS_PER_HOUR, t2 - t1;
    var q := x / MICROS_PER_DAY;
    assert x == q * MICROS_PER_DAY + TimeOfDay(t1);
    assert x + dx == q * MICROS_PER_DAY + (TimeOfDay(t1) + dx);
    assert t2 - 3 * MICROS_PER_HOUR == x + dx;
  }

  lemma NotNightIsDaylight(t: Instant)
    ensures !IsNighttime(t) <==> Daylight(t, 0)
  {
    var x := TimeOfDay(t);
    assert x == (x / MICROS_PER_HOUR) * MICROS_PER_HOUR + x % MICROS_PER_HOUR;
  }

  lemma IssuedByDaylight(env: Env, r: Row, memory: BankMemory, t1: Instant, t2: Instant)
    requires ReadingsOk(env.timing, t1, t2)
    requires VerdictOn(r, memory, t1).decision == RequireConfirmation
    ensures IssuedByDay(env.timing, r.action, t2)
  {
    hide Evaluate, RiskOf, IsNighttime;
    var risk := RiskOf(r.action, r.context, memory.paidBefore);
    ConsentIsExactlyThePolicy(r.action, r.context, risk, t1);
    if env.timing.Steady? && r.action.amount > NIGHT_LIMIT {
      NotNightIsDaylight(t1);
      DaylightDrifts(t1, t2, 0, env.timing.slack);
    }
  }

  // ---------------------------------------------------------------- hops

  /** A hop that leaves token, context and receipt alone, and needs no consent. */
  lemma PlainHop(env: Env, v: View, r: Row, hop: Hop)
    requires Good(env, r.id, v) && v.row == Some(r) && CanMove(r, hop)
    requires hop in {Validate, Reject, Cancel, StepUp, Timeout}
    requires hop == StepUp ==> r.context.assurance == Strong
    ensures Takes(env, r.id, v, Move(r, hop), Hopped(v, r, hop)) && Good(env, r.id, Hopped(v, r, hop))
  {
    TakesHop(env, v, r, hop);
  }

  lemma RequireStepUpHop(env: Env, v: View, r: Row)
    requires Good(env, r.id, v) && v.row == Some(r) && r.state == Validated
    requires r.context.assurance != Strong && v.audit.stepUps == 0
    ensures Takes(env, r.id, v, Move(r, RequireStepUp), Hopped(v, r, RequireStepUp))
    ensures Good(env, r.id, Hopped(v, r, RequireStepUp))
  {
    TakesHop(env, v, r, RequireStepUp);
  }

  lemma AwaitHop(env: Env, v: View, r: Row, token: Id, at: Instant)
    requires Good(env, r.id, v) && v.row == Some(r) && r.state == Validated
    requires env.drawn == Some(token)
    requires v.audit.approved.Some? && WithinLimits(r.action, r.context) && IssuedByDay(env.timing, r.action, at)
    ensures var issued := Issued(env.cfg, r, token, at);
      && Takes(env, r.id, v, Move(issued, AwaitConfirmation), Hopped(v, issued, AwaitConfirmation))
      && Good(env, r.id, Hopped(v, issued, AwaitConfirmation))
  {
    TakesHop(env, v, Issued(env.cfg, r, token, at), AwaitConfirmation);
  }

  lemma ConfirmHop(env: Env, v: View, r: Row)
    requires Good(env, r.id, v) && v.row == Some(r) && r.state == AwaitingConfirmation
    requires Consenting(r, v.audit.confirmed)
    ensures Takes(env, r.id, v, Move(r, Confirm), Hopped(v, r, Confirm)) && Good(env, r.id, Hopped(v, r, Confirm))
  {
    TakesHop(env, v, r, Confirm);
  }

  lemma SubmitHop(env: Env, v: View, r: Row)
    requires Good(env, r.id, v) && v.row == Some(r) && r.state == Authorized
    ensures Takes(env, r.id, v, Move(r, Submit), Hopped(v, r, Submit)) && Good(env, r.id, Hopped(v, r, Submit))
  {
    TakesHop(env, v, r, Submit);
  }

  lemma FailHop(env: Env, v: View, r: Row)
    requires Good(env, r.id, v) && v.row == Some(r) && r.state in {Submitted, Unknown} && v.booked.None?
    ensures Takes(env, r.id, v, Move(r, Fail), Hopped(v, r, Fail)) && Good(env, r.id, Hopped(v, r, Fail))
  {
    TakesHop(env, v, r, Fail);
  }

  lemma CompleteHop(env: Env, v: View, r: Row)
    requires Good(env, r.id, v) && v.row == Some(r) && r.state in {Submitted, Unknown} && v.booked.Some?
    ensures var paid := r.(receipt := v.booked);
      Takes(env, r.id, v, Move(paid, Complete), Hopped(v, paid, Complete)) && Good(env, r.id, Hopped(v, paid, Complete))
  {
    TakesHop(env, v, r.(receipt := v.booked), Complete);
  }

  /** A hop whose row is saved once more, as the source does after setting `reason`. */
  lemma ThenSaved(env: Env, v: View, r: Row, hop: Hop)
    requires CanMove(r, hop) && Takes(env, r.id, v, Move(r, hop), Hopped(v, r, hop))
    ensures Takes(env, r.id, v, Move(r, hop) + [Put(Moved(r, hop))], Hopped(v, r, hop))
  {
    var v' := Hopped(v, r, hop);
    TakesEnd(env, r.id, v, Move(r, hop), v');
    TakesSave(env, r.id, v');
    TakesConcat(env, r.id, v, Move(r, hop), v', [Put(Moved(r, hop))], v');
  }

  // ---------------------------------------------------------------- risk and policy

  function Scored(v: View, level: RiskLevel): View {
    v.(audit := v.audit.(risk := Some(level)))
  }

  function Approved(v: View, verdict: Verdict): View
    requires v.audit.risk.Some?
  {
    if verdict.decision == RequireConfirmation then v.(audit := v.audit.(approved := v.audit.risk)) else v
  }

  function HeadEnd(r: Row, v: View, memory: BankMemory, t1: Instant): View {
    Approved(Scored(v, RiskOf(r.action, r.context, memory.paidBefore).level), VerdictOn(r, memory, t1))
  }

  lemma DecideHeadSafe(env: Env, v: View, r: Row, memory: BankMemory, t1: Instant)
    requires Good(env, r.id, v) && v.row == Some(r) && r.state == Validated
    ensures Takes(env, r.id, v, DecideHead(r, memory, t1), HeadEnd(r, v, memory, t1))
    ensures Good(env, r.id, HeadEnd(r, v, memory, t1))
  {
    var head := DecideHead(r, memory, t1);
    var v1 := Scored(v, RiskOf(r.action, r.context, memory.paidBefore).level);
    TakesOne(env, r.id, v, head[0], v1);
    TakesOne(env, r.id, v1, head[1], HeadEnd(r, v, memory, t1));
    TakesConcat(env, r.id, v, [head[0]], v1, [head[1]], HeadEnd(r, v, memory, t1));
    assert [head[0]] + [head[1]] == head;
  }

  lemma ApplyVerdictSafe(env: Env, v: View, r: Row, memory: BankMemory, token: Id, t1: Instant, t2: Instant)
    requires Good(env, r.id, v) && v.row == Some(r) && r.state == Validated
    requires r.context.assurance != Strong ==> v.audit.stepUps == 0
    requires ReadingsOk(env.timing, t1, t2) && env.drawn == Some(token)
    requires VerdictOn(r, memory, t1).decision == RequireConfirmation ==> v.audit.approved.Some?
    ensures Safe(env, r.id, v, ApplyVerdict(env.cfg, r, VerdictOn(r, memory, t1), token, t2).0)
    ensures InStep(v)
        ==> InStep(RunV(env.cfg.secret, r.id, v, ApplyVerdict(env.cfg, r, VerdictOn(r, memory, t1), token, t2).0))
  {
    match VerdictOn(r, memory, t1).decision
    case RequireStepUpAuth => RequireStepUpHop(env, v, r);
    case RequireConfirmation =>
      IssuedByDaylight(env, r, memory, t1, t2);
      AwaitHop(env, v, r, token, t2);
    case _ =>
      PlainHop(env, v, r, Reject);
      ThenSaved(env, v, r, Reject);
  }

  lemma DecideSafe(env: Env, v: View, r: Row, memory: BankMemory, token: Id, t1: Instant, t2: Instant)
    requires Good(env, r.id, v) && v.row == Some(r) && r.state == Validated
    requires r.context.assurance != Strong ==> v.audit.stepUps == 0
    requires ReadingsOk(env.timing, t1, t2) && env.drawn == Some(token)
    ensures Safe(env, r.id, v, Decide(env.cfg, r, memory, token, t1, t2).0)
    ensures InStep(v) ==> InStep(RunV(env.cfg.secret, r.id, v, Decide(env.cfg, r, memory, token, t1, t2).0))
  {
    DecideHeadSafe(env, v, r, memory, t1);
    ApplyVerdictSafe(env, HeadEnd(r, v, memory, t1), r, memory, token, t1, t2);
    SafeConcat(env, r.id, v, DecideHead(r, memory, t1),
               ApplyVerdict(env.cfg, r, VerdictOn(r, memory, t1), token, t2).0);
  }

  // ---------------------------------------------------------------- propose

  function Opened(p: Principal): Audit {
    NOTHING.(owner := Some(p), openers := {p})
  }

  lemma ProposeHeadSafe(env: Env, v: View, ctx: Context, proposed: ProposedPix, text: string, id: Id,
                        matches: seq<Contact>)
    requires v == View(None, NOTHING, None)
    ensures Takes(env, id, v, ProposeHead(ctx, proposed, text, id, matches),
                  View(None, Opened(PrincipalOf(ctx)), None))
  {
    var ws := ProposeHead(ctx, proposed, text, id, matches);
    var v' := View(None, Opened(PrincipalOf(ctx)), None);
    TakesOne(env, id, v, ws[0], v');
    TakesNote(env, id, v', ws[1].entry);
    TakesNote(env, id, v', ws[2].entry);
    TakesConcat(env, id, v, [ws[0]], v', [ws[1]], v');
    TakesConcat(env, id, v, [ws[0]] + [ws[1]], v', [ws[2]], v');
    assert [ws[0]] + [ws[1]] + [ws[2]] == ws;
  }

  lemma CreateSafe(env: Env, v: View, row: Row)
    requires v == View(None, Opened(OwnerOf(row)), None)
    requires row == NewRow(row.id, row.action, row.context)
    ensures Takes(env, row.id, v, [Put(row), Append(row.id, CanonicalAction(row.action))], v.(row := Some(row)))
    ensures Good(env, row.id, v.(row := Some(row)))
  {
    var v' := v.(row := Some(row));
    TakesOne(env, row.id, v, Put(row), v');
    TakesNote(env, row.id, v', CanonicalAction(row.action));
    TakesConcat(env, row.id, v, [Put(row)], v', [Append(row.id, CanonicalAction(row.action))], v');
    assert [Put(row)] + [Append(row.id, CanonicalAction(row.action))]
        == [Put(row), Append(row.id, CanonicalAction(row.action))];
  }

  lemma ProposeBodySafe(env: Env, v: View, row: Row, memory: BankMemory, token: Id, t1: Instant, t2: Instant)
    requires v == View(None, Opened(OwnerOf(row)), None)
    requires row == NewRow(row.id, row.action, row.context)
    requires ReadingsOk(env.timing, t1, t2) && env.drawn == Some(token)
    ensures Safe(env, row.id, v, ProposeBody(env.cfg, row, memory, token, t1, t2).0)
    ensures InStep(v) ==> InStep(RunV(env.cfg.secret, row.id, v, ProposeBody(env.cfg, row, memory, token, t1, t2).0))
  {
    var created := [Put(row), Append(row.id, CanonicalAction(row.action))];
    var v1 := v.(row := Some(row));
    CreateSafe(env, v, row);
    if MissingPreconditions(env.cfg, memory, row.action) != [] {
      PlainHop(env, v1, row, Reject);
      TakesConcat(env, row.id, v, created, v1, Move(row, Reject), Hopped(v1, row, Reject));
    } else {
      var validated, v2 := Moved(row, Validate), Hopped(v1, row, Validate);
      PlainHop(env, v1, row, Validate);
      TakesConcat(env, row.id, v, created, v1, Move(row, Validate), v2);
      DecideSafe(env, v2, validated, memory, token, t1, t2);
      SafeConcat(env, row.id, v, created + Move(row, Validate), Decide(env.cfg, validated, memory, token, t1, t2).0);
    }
  }

  lemma ProposeSafe(env: Env, v: View, memory: BankMemory, ctx: Context, proposed: ProposedPix, text: string,
                    id: Id, token: Id, t1: Instant, t2: Instant)
    requires v == View(None, NOTHING, None)
    requires ReadingsOk(env.timing, t1, t2) && env.drawn == Some(token)
    ensures Safe(env, id, v, Propose(env.cfg, memory, ctx, proposed, text, id, token, t1, t2).script)
    ensures InStep(v)
        ==> InStep(RunV(env.cfg.secret, id, v, Propose(env.cfg, memory, ctx, proposed, text, id, token, t1, t2).script))
  {
    var matches := FindContacts(env.cfg.contacts, proposed.recipient);
    var head := ProposeHead(ctx, proposed, text, id, matches);
    ProposeHeadSafe(env, v, ctx, proposed, text, id, matches);
    if |matches| == 1 {
      var row := Proposed(ctx, proposed, id, matches[0].id);
      ProposeBodySafe(env, RunV(env.cfg.secret, id, v, head), row, memory, token, t1, t2);
      SafeConcat(env, id, v, head, ProposeBody(env.cfg, row, memory, token, t1, t2).0);
    }
  }

  // ---------------------------------------------------------------- step-up

  lemma StepUpHeadSafe(env: Env, v: View, r: Row)
    requires Good(env, r.id, v) && v.row == Some(r) && r.state == AwaitingStepUp
    ensures Takes(env, r.id, v, StepUpHead(r), v.(row := Some(Strengthened(r))))
    ensures Good(env, r.id, v.(row := Some(Strengthened(r))))
  {
    var strong := Strengthened(r);
    var v' := v.(row := Some(strong));
    TakesOne(env, r.id, v, Put(strong), v');
    TakesNote(env, r.id, v', SteppedUp);
    TakesConcat(env, r.id, v, [Put(strong)], v', [Append(r.id, SteppedUp)], v');
    assert [Put(strong)] + [Append(r.id, SteppedUp)] == StepUpHead(r);
  }

  lemma StepUpSafe(env: Env, v: View, r: Row, memory: BankMemory, token: Id, t1: Instant, t2: Instant)
    requires Good(env, r.id, v) && v.row == Some(r) && r.state == AwaitingStepUp
    requires ReadingsOk(env.timing, t1, t2) && env.drawn == Some(token)
    ensures Safe(env, r.id, v, StepUpBody(env.cfg, r, memory, token, t1, t2).0)
    ensures InStep(v) ==> InStep(RunV(env.cfg.secret, r.id, v, StepUpBody(env.cfg, r, memory, token, t1, t2).0))
  {
    var strong := Strengthened(r);
    var v1, validated := v.(row := Some(strong)), Moved(strong, StepUp);
    var v2 := Hopped(v1, strong, StepUp);
    StepUpHeadSafe(env, v, r);
    PlainHop(env, v1, strong, StepUp);
    TakesConcat(env, r.id, v, StepUpHead(r), v1, Move(strong, StepUp), v2);
    DecideSafe(env, v2, validated, memory, token, t1, t2);
    SafeConcat(env, r.id, v, StepUpHead(r) + Move(strong, StepUp), Decide(env.cfg, validated, memory, token, t1, t2).0);
  }

  // ---------------------------------------------------------------- confirm

  /** The view once consent is on record, then once the bank may be called. */
  function ConsentedV(v: View, r: Row, ctx: Context, at: Instant): View {
    var given := if r.token.Some? then {Consent(r.token.value, at, r.action)} else {};
    v.(row := Some(Consented(r, ctx, at)), audit := v.audit.(confirmed := v.audit.confirmed + given))
  }

  function AuthorizedV(v: View, r: Row, ctx: Context, at: Instant): View
    requires r.state == AwaitingConfirmation
  {
    ClearedV(Hopped(ConsentedV(v, r, ctx, at), Consented(r, ctx, at), Confirm), r.context.assurance)
  }

  function ClearedV(v: View, assurance: Assurance): View {
    v.(audit := v.audit.(authorized := v.audit.authorized + Cleared(v.audit.confirmed, assurance)))
  }

  function SubmittedV(v: View, r: Row, ctx: Context, at: Instant): View
    requires r.state == AwaitingConfirmation
  {
    var submitted := Hopped(AuthorizedV(v, r, ctx, at), Moved(Consented(r, ctx, at), Confirm), Submit);
    submitted.(audit := submitted.audit.(requested := submitted.audit.requested + submitted.audit.authorized))
  }

  lemma ConsentHeadSafe(env: Env, v: View, r: Row, ctx: Context, token: Id, at: Instant)
    requires Good(env, r.id, v) && v.row == Some(r) && r.state == AwaitingConfirmation
    requires r.token == Some(token) && OwnerOf(r) == PrincipalOf(ctx) && DigestMatches(env.cfg, r)
    ensures Takes(env, r.id, v, ConsentHead(r, ctx, token, at), ConsentedV(v, r, ctx, at))
    ensures Good(env, r.id, ConsentedV(v, r, ctx, at))
  {
    var head := ConsentHead(r, ctx, token, at);
    var v1 := v.(row := Some(Consented(r, ctx, at)));
    TakesOne(env, r.id, v, head[0], v1);
    TakesOne(env, r.id, v1, head[1], ConsentedV(v, r, ctx, at));
    TakesConcat(env, r.id, v, [head[0]], v1, [head[1]], ConsentedV(v, r, ctx, at));
    assert [head[0]] + [head[1]] == head;
  }

  lemma AuthorizeSafe(env: Env, v: View, r: Row, assurance: Assurance)
    requires Good(env, r.id, v) && v.row == Some(r) && r.state == AwaitingConfirmation
    requires Consenting(r, v.audit.confirmed)
    ensures var v' := ClearedV(Hopped(v, r, Confirm), assurance);
      && Takes(env, r.id, v, Move(r, Confirm) + [Append(r.id, Authorization(assurance))], v')
      && Good(env, r.id, v')
  {
    var v1, v2 := Hopped(v, r, Confirm), ClearedV(Hopped(v, r, Confirm), assurance);
    ConfirmHop(env, v, r);
    TakesOne(env, r.id, v1, Append(r.id, Authorization(assurance)), v2);
    TakesConcat(env, r.id, v, Move(r, Confirm), v1, [Append(r.id, Authorization(assurance))], v2);
  }

  lemma SubmitSafe(env: Env, v: View, r: Row)
    requires Good(env, r.id, v) && v.row == Some(r) && r.state == Authorized
    ensures var v1 := Hopped(v, r, Submit);
      var v2 := v1.(audit := v1.audit.(requested := v1.audit.requested + v1.audit.authorized));
      && Takes(env, r.id, v, Move(r, Submit) + [Append(r.id, ExecutionRequest(r.id))], v2)
      && Good(env, r.id, v2)
  {
    var v1 := Hopped(v, r, Submit);
    var v2 := v1.(audit := v1.audit.(requested := v1.audit.requested + v1.audit.authorized));
    SubmitHop(env, v, r);
    TakesOne(env, r.id, v1, Append(r.id, ExecutionRequest(r.id)), v2);
    TakesConcat(env, r.id, v, Move(r, Submit), v1, [Append(r.id, ExecutionRequest(r.id))], v2);
  }

  lemma ConsentScriptSafe(env: Env, v: View, r: Row, ctx: Context, token: Id, at: Instant)
    requires Good(env, r.id, v) && v.row == Some(r) && r.state == AwaitingConfirmation
    requires r.token == Some(token) && OwnerOf(r) == PrincipalOf(ctx) && DigestMatches(env.cfg, r)
    ensures Takes(env, r.id, v, ConsentScript(r, ctx, token, at), SubmittedV(v, r, ctx, at))
    ensures Good(env, r.id, SubmittedV(v, r, ctx, at))
    ensures InStep(v) ==> InStep(SubmittedV(v, r, ctx, at))
  {
    hide Good, Takes;
    var consented := Consented(r, ctx, at);
    var authorized := Moved(consented, Confirm);
    var head := ConsentHead(r, ctx, token, at);
    var authorize := Move(consented, Confirm) + [Append(r.id, Authorization(r.context.assurance))];
    var submit := Move(authorized, Submit) + [Append(r.id, ExecutionRequest(r.id))];
    var v1, v2, v3 := ConsentedV(v, r, ctx, at), AuthorizedV(v, r, ctx, at), SubmittedV(v, r, ctx, at);
    ConsentHeadSafe(env, v, r, ctx, token, at);
    AuthorizeSafe(env, v1, consented, r.context.assurance);
    SubmitSafe(env, v2, authorized);
    TakesConcat(env, r.id, v, head, v1, authorize, v2);
    TakesConcat(env, r.id, v, head + authorize, v2, submit, v3);
    assert head + authorize + submit == ConsentScript(r, ctx, token, at);
  }

  /** An answer a bank holding `booked` could give. */
  ghost predicate AnswerTrue(answer: Answer, booked: Option<Receipt>) {
    && (answer.Paid? ==> booked == Some(answer.receipt))
    && (answer.Refused? ==> booked.None?)
  }

  function Answered(r: Row, answer: Answer): Row {
    if answer.Paid? then r.(receipt := Some(answer.receipt)) else r
  }

  lemma SettleMove(env: Env, v: View, r: Row, answer: Answer)
    requires Good(env, r.id, v) && v.row == Some(r) && r.state == Submitted
    requires AnswerTrue(answer, v.booked)
    ensures var answered := Answered(r, answer);
      && Takes(env, r.id, v, Move(answered, SettleHop(answer)), Hopped(v, answered, SettleHop(answer)))
      && Good(env, r.id, Hopped(v, answered, SettleHop(answer)))
  {
    match answer
    case NoAnswer => PlainHop(env, v, r, Timeout);
    case Refused(_) => FailHop(env, v, r);
    case Paid(_) => CompleteHop(env, v, r);
  }

  function SettledV(v: View, r: Row, answer: Answer): View
    requires r.state == Submitted
  {
    Hopped(v, Answered(r, answer), SettleHop(answer))
  }

  lemma SettleSafe(env: Env, v: View, r: Row, answer: Answer)
    requires Good(env, r.id, v) && v.row == Some(r) && r.state == Submitted
    requires AnswerTrue(answer, v.booked)
    ensures Takes(env, r.id, v, SettleScript(r, answer), SettledV(v, r, answer))
    ensures SettledV(v, r, answer).row == Some(SettledRow(r, answer))
    ensures Good(env, r.id, SettledV(v, r, answer))
  {
    TakesNote(env, r.id, v, BackendResponse(answer));
    SettleMove(env, v, r, answer);
    TakesConcat(env, r.id, v, [Append(r.id, BackendResponse(answer))], v,
                Move(Answered(r, answer), SettleHop(answer)), SettledV(v, r, answer));
  }

  function FiledV(v: View, filed: Option<Receipt>): View {
    if filed.Some? then v.(booked := filed) else v
  }

  lemma FileSafe(env: Env, v: View, r: Row, filed: Option<Receipt>)
    requires Good(env, r.id, v) && v.row == Some(r) && r.state == Submitted
    requires filed.Some? ==>
      && v.booked.None? && Consenting(r, v.audit.requested)
      && MatchesAction(filed.value, r.digest.value.action)
    ensures Takes(env, r.id, v, FileScript(r.id, filed), FiledV(v, filed)) && Good(env, r.id, FiledV(v, filed))
  {
    if filed.Some? {
      TakesOne(env, r.id, v, File(r.id, filed.value), FiledV(v, filed));
    }
  }

  /** The bank call: at most one receipt filed, then whatever was answered. */
  lemma PaySafe(env: Env, v: View, r: Row, memory: BankMemory, payment: Id)
    requires Good(env, r.id, v) && v.row == Some(r) && r.state == Submitted
    requires Consenting(r, v.audit.requested) && r.action == r.digest.value.action
    ensures var effect := PixOn(env.cfg.contacts, memory, v.booked, r.action, payment);
      var v' := SettledV(FiledV(v, effect.filed), r, effect.answer);
      && Takes(env, r.id, v, ExecuteScript(r, effect), v')
      && v'.row == Some(SettledRow(r, effect.answer))
      && Good(env, r.id, v')
    ensures var effect := PixOn(env.cfg.contacts, memory, v.booked, r.action, payment);
      InStep(v) ==> InStep(SettledV(FiledV(v, effect.filed), r, effect.answer))
  {
    var effect := PixOn(env.cfg.contacts, memory, v.booked, r.action, payment);
    var v1 := FiledV(v, effect.filed);
    FileSafe(env, v, r, effect.filed);
    SettleSafe(env, v1, r, effect.answer);
    TakesConcat(env, r.id, v, FileScript(r.id, effect.filed), v1, SettleScript(r, effect.answer),
                SettledV(v1, r, effect.answer));
  }

  function ExecutedV(env: Env, v: View, r: Row, ctx: Context, at: Instant, memory: BankMemory, payment: Id): View
    requires r.state == AwaitingConfirmation
  {
    var effect := PixOn(env.cfg.contacts, memory, v.booked, r.action, payment);
    SettledV(FiledV(SubmittedV(v, r, ctx, at), effect.filed), SubmittedRow(r, ctx, at), effect.answer)
  }

  /** From consent to the settled answer, with the bank paying at most once in between. */
  lemma ExecuteSafe(env: Env, v: View, r: Row, ctx: Context, token: Id, at: Instant, memory: BankMemory, payment: Id)
    requires Good(env, r.id, v) && v.row == Some(r) && r.state == AwaitingConfirmation
    requires r.token == Some(token) && OwnerOf(r) == PrincipalOf(ctx) && DigestMatches(env.cfg, r)
    ensures var submitted := SubmittedRow(r, ctx, at);
      var effect := PixOn(env.cfg.contacts, memory, v.booked, r.action, payment);
      var v' := ExecutedV(env, v, r, ctx, at, memory, payment);
      && Takes(env, r.id, v, ConsentScript(r, ctx, token, at) + ExecuteScript(submitted, effect), v')
      && v'.row == Some(SettledRow(submitted, effect.answer))
      && Good(env, r.id, v')
    ensures InStep(v) ==> InStep(ExecutedV(env, v, r, ctx, at, memory, payment))
  {
    var submitted, v1 := SubmittedRow(r, ctx, at), SubmittedV(v, r, ctx, at);
    var effect := PixOn(env.cfg.contacts, memory, v.booked, r.action, payment);
    ConsentScriptSafe(env, v, r, ctx, token, at);
    PaySafe(env, v1, submitted, memory, payment);
    TakesConcat(env, r.id, v, ConsentScript(r, ctx, token, at), v1, ExecuteScript(submitted, effect),
                ExecutedV(env, v, r, ctx, at, memory, payment));
  }

  lemma CancelSafe(env: Env, v: View, r: Row)
    requires Good(env, r.id, v) && v.row == Some(r) && CanMove(r, Cancel)
    ensures Takes(env, r.id, v, Move(r, Cancel) + [Put(Moved(r, Cancel))], Hopped(v, r, Cancel))
    ensures InStep(v) ==> InStep(Hopped(v, r, Cancel))
  {
    PlainHop(env, v, r, Cancel);
    ThenSaved(env, v, r, Cancel);
  }

  lemma ExpireSafe(env: Env, v: View, r: Row, issuedAt: Instant)
    requires Good(env, r.id, v) && v.row == Some(r) && CanMove(r, Cancel)
    ensures Takes(env, r.id, v,
                  [Append(r.id, ConfirmationExpired(issuedAt))] + Move(r, Cancel) + [Put(Moved(r, Cancel))],
                  Hopped(v, r, Cancel))
    ensures InStep(v) ==> InStep(Hopped(v, r, Cancel))
  {
    var head, tail := [Append(r.id, ConfirmationExpired(issuedAt))], Move(r, Cancel) + [Put(Moved(r, Cancel))];
    TakesNote(env, r.id, v, ConfirmationExpired(issuedAt));
    CancelSafe(env, v, r);
    TakesConcat(env, r.id, v, head, v, tail, Hopped(v, r, Cancel));
    assert head + tail == head + Move(r, Cancel) + [Put(Moved(r, Cancel))];
  }

  /** Confirm, whatever the row's state, the clock and the digest say. */
  lemma ConfirmSafe(env: Env, v: View, d: Durable, r: Row, ctx: Context, token: Id, memory: BankMemory, t1: Instant,
                    t2: Instant, payment: Id)
    requires Good(env, r.id, v) && v.row == Some(r) && v.booked == Lookup(d.book, r.id)
    requires r.token == Some(token) && OwnerOf(r) == PrincipalOf(ctx)
    ensures Safe(env, r.id, v, ConfirmRow(env.cfg, d, memory, ctx, r, token, t1, t2, payment).script)
    ensures InStep(v)
        ==> InStep(RunV(env.cfg.secret, r.id, v, ConfirmRow(env.cfg, d, memory, ctx, r, token, t1, t2, payment).script))
  {
    if r.state in {Completed, Submitted, Pending, Unknown} {
      TakesNote(env, r.id, v, DuplicateConfirmation(r.state));
    } else if r.state != AwaitingConfirmation {
    } else if Expired(r, t1) {
      ExpireSafe(env, v, r, r.issuedAt.value);
    } else if !DigestMatches(env.cfg, r) {
      TakesNote(env, r.id, v, DigestMismatch(r.digest, ActionDigest(r.action, env.cfg.secret)));
    } else {
      ExecuteSafe(env, v, r, ctx, token, t2, memory, payment);
    }
  }

  // ---------------------------------------------------------------- reconcile, sweep, query

  lemma ReconcileSafe(env: Env, v: View, r: Row)
    requires Good(env, r.id, v) && v.row == Some(r) && r.state == Unknown
    ensures var v' := if v.booked.None? then Hopped(v, r, Fail) else Hopped(v, r.(receipt := v.booked), Complete);
      Takes(env, r.id, v, ReconcileScript(r, v.booked), v') && v'.row == Some(ReconciledRow(r, v.booked))
    ensures InStep(v) ==> InStep(RunV(env.cfg.secret, r.id, v, ReconcileScript(r, v.booked)))
  {
    var head := [Append(r.id, Reconciliation(v.booked.Some?))];
    TakesNote(env, r.id, v, Reconciliation(v.booked.Some?));
    if v.booked.None? {
      FailHop(env, v, r);
      ThenSaved(env, v, r, Fail);
      TakesConcat(env, r.id, v, head, v, Move(r, Fail) + [Put(Moved(r, Fail))], Hopped(v, r, Fail));
    } else {
      var paid := r.(receipt := v.booked);
      CompleteHop(env, v, r);
      TakesConcat(env, r.id, v, head, v, Move(paid, Complete), Hopped(v, paid, Complete));
    }
  }

  lemma SweepRowSafe(env: Env, v: View, r: Row)
    requires Good(env, r.id, v) && v.row == Some(r) && r.state == Submitted
    ensures Takes(env, r.id, v, SweepRow(r), Hopped(v, r, Timeout))
  {
    var head, tail := [Append(r.id, RestartSweep)], Move(r, Timeout) + [Put(Moved(r, Timeout))];
    TakesNote(env, r.id, v, RestartSweep);
    PlainHop(env, v, r, Timeout);
    ThenSaved(env, v, r, Timeout);
    TakesConcat(env, r.id, v, head, v, tail, Hopped(v, r, Timeout));
    assert head + tail == SweepRow(r);
  }

  lemma QuerySafe(env: Env, v: View, memory: BankMemory, ctx: Context, account: string, id: Id)
    requires v.row.None? && v.booked.None?
    ensures Safe(env, id, v, Query(memory, ctx, account, id).script)
    ensures InStep(v) ==> InStep(RunV(env.cfg.secret, id, v, Query(memory, ctx, account, id).script))
  {
    var script := Query(memory, ctx, account, id).script;
    var v' := ApplyV(env.cfg.secret, v, script[0]);
    TakesOne(env, id, v, script[0], v');
    if |script| > 1 {
      TakesNote(env, id, v', script[1].entry);
      TakesConcat(env, id, v, [script[0]], v', [script[1]], v');
      assert script == [script[0]] + [script[1]];
    } else {
      assert script == [script[0]];
    }
  }
}
